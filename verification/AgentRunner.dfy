/**
 * The agent as the program has it: objects that append to a session, ask a queue and run tools step by
 * step. Each method is tied to the transition of `Agent` it carries out, so what is proved of the
 * transitions holds of it.
 */
module AgentRunner {
  import opened Basics
  import Approvals
  import opened Loop = Agent

  // ---------------------------------------------------------------------------------------------
  // Decisions by call, the way a turn keeps them while it settles

  /** What the map holds is what the first row for a call says. */
  ghost predicate Indexes(decisions: map<string, Approvals.Approval>, rows: seq<Approvals.Approval>) {
    forall id :: DecisionFor(rows, id) == if id in decisions then Some(decisions[id]) else None
  }

  ghost predicate OneEach(rows: seq<Approvals.Approval>) {
    forall i, j :: 0 <= i < j < |rows| ==> rows[i].toolCallId != rows[j].toolCallId
  }

  lemma {:induction false} DecisionForPush(rows: seq<Approvals.Approval>, row: Approvals.Approval, id: string)
    ensures DecisionFor(rows + [row], id) ==
      if DecisionFor(rows, id).Some? then DecisionFor(rows, id) else if row.toolCallId == id then Some(row) else None
  {
    if rows == [] {
      assert (rows + [row])[1..] == [];
    } else {
      assert (rows + [row])[1..] == rows[1..] + [row];
      DecisionForPush(rows[1..], row, id);
    }
  }

  lemma {:induction false} DecisionForFinds(rows: seq<Approvals.Approval>, id: string)
    ensures DecisionFor(rows, id).Some? ==> exists i :: 0 <= i < |rows| && rows[i].toolCallId == id
  {
    if rows != [] && rows[0].toolCallId != id {
      DecisionForFinds(rows[1..], id);
      if DecisionFor(rows[1..], id).Some? {
        var i :| 0 <= i < |rows[1..]| && rows[1..][i].toolCallId == id;
        assert rows[i + 1].toolCallId == id;
      }
    }
  }

  lemma IndexesPush(decisions: map<string, Approvals.Approval>, rows: seq<Approvals.Approval>, row: Approvals.Approval)
    requires Indexes(decisions, rows) && OneEach(rows + [row])
    ensures Indexes(decisions[row.toolCallId := row], rows + [row])
  {
    var after, all := decisions[row.toolCallId := row], rows + [row];
    assert all[|rows|] == row && forall i :: 0 <= i < |rows| ==> all[i] == rows[i];
    forall id ensures DecisionFor(all, id) == if id in after then Some(after[id]) else None {
      DecisionForPush(rows, row, id);
      DecisionForFinds(rows, id);
    }
  }

  lemma {:induction false} FilterOneEach(keep: Approvals.Approval -> bool, rows: seq<Approvals.Approval>, session: nat)
    requires forall a :: keep(a) ==> a.session == session
    requires forall i, j :: 0 <= i < j < |rows| ==> rows[i].session != rows[j].session || rows[i].toolCallId != rows[j].toolCallId
    ensures OneEach(Filter(keep, rows))
  {
    if rows != [] {
      FilterOneEach(keep, rows[1..], session);
      var rest := Filter(keep, rows[1..]);
      if keep(rows[0]) {
        forall j | 0 <= j < |rest| ensures rest[j].toolCallId != rows[0].toolCallId {
          assert rest[j] in rest;
          assert rest[j] in rows[1..];
        }
        assert Filter(keep, rows) == [rows[0]] + rest;
      } else {
        assert Filter(keep, rows) == rest;
      }
    }
  }

  /** The rows a turn finds and the rows it creates: one for each call. */
  lemma TurnRowsAreOneEach(q: Approvals.Queue, t: Turn, ids: set<string>, calls: seq<Part>)
    requires Approvals.Sound(q) && AllCalls(calls)
    ensures OneEach(Approvals.RowsFor(q, t.tenant, t.session, ids))
    ensures OneEach(Approvals.RowsFor(q, t.tenant, t.session, ids) + Approvals.RequestAll(q, RequestsFor(t, calls)).created)
    ensures Approvals.Sound(Approvals.RequestAll(q, RequestsFor(t, calls)).queue)
  {
    hide Approvals.RequestAll;
    var found, asked := Approvals.RowsFor(q, t.tenant, t.session, ids), Approvals.RequestAll(q, RequestsFor(t, calls));
    FilterOneEach((a: Approvals.Approval) => a.tenant == t.tenant && a.session == t.session && a.toolCallId in ids, q.rows, t.session);
    Approvals.RequestAppends(q, RequestsFor(t, calls));
    Approvals.RequestKeeps(q, RequestsFor(t, calls));
    assert OneEach(found + asked.created) by { CreatedAreOneEach(q.rows, asked.queue, found, asked.created, t.session); }
  }

  lemma CreatedAreOneEach(before: seq<Approvals.Approval>, after: Approvals.Queue, found: seq<Approvals.Approval>,
                          created: seq<Approvals.Approval>, session: nat)
    requires Approvals.Sound(after) && after.rows == before + created && OneEach(found)
    requires forall a :: a in found ==> a in before && a.session == session
    requires forall i :: 0 <= i < |created| ==> created[i].session == session
    ensures OneEach(found + created)
  {
    var rows, all := after.rows, found + created;
    forall i, j | 0 <= i < j < |all| ensures all[i].toolCallId != all[j].toolCallId {
      if j >= |found| {
        assert rows[|before| + j - |found|] == all[j];
        if i >= |found| {
          assert rows[|before| + i - |found|] == all[i];
        } else {
          assert all[i] in found;
          var a :| 0 <= a < |before| && before[a] == all[i];
          assert rows[a] == all[i];
        }
      }
    }
  }

  function CallIds(calls: seq<Part>): (ids: seq<string>)
    requires AllCalls(calls)
    ensures (set id | id in ids) == Ids(calls)
  {
    var ids := seq(|calls|, i requires 0 <= i < |calls| => calls[i].id);
    assert forall i :: 0 <= i < |calls| ==> calls[i].id == ids[i];
    ids
  }

  // ---------------------------------------------------------------------------------------------
  // The session store

  class InMemorySessionStore {
    var owner: map<nat, string>
    var messages: map<nat, seq<Message>>
    var next: nat

    ghost predicate Valid()
      reads this
    {
      owner.Keys == messages.Keys
    }

    constructor ()
      ensures Valid() && owner == map[] && messages == map[] && next == 0
    {
      owner, messages, next := map[], map[], 0;
    }

    method Create(tenant: string) returns (session: nat)
      requires Valid()
      modifies this
      ensures Valid() && session == old(next) && next == old(next) + 1
      ensures owner == old(owner)[session := tenant] && messages == old(messages)[session := []]
    {
      session := next;
      owner := owner[session := tenant];
      messages := messages[session := []];
      next := next + 1;
    }

    method Find(tenant: string, session: nat) returns (found: bool)
      ensures found == (session in owner && owner[session] == tenant)
    {
      return session in owner && owner[session] == tenant;
    }

    method Messages(tenant: string, session: nat) returns (stored: seq<Message>)
      requires Valid()
      ensures stored == if session in owner && owner[session] == tenant then messages[session] else []
    {
      if session !in owner || owner[session] != tenant {
        return [];
      }
      return messages[session];
    }

    /** Not ok stands for the error raised when the session is not this tenant's. */
    method Append(tenant: string, session: nat, message: Message) returns (ok: bool)
      requires Valid()
      modifies this`messages
      ensures Valid() && ok == (session in owner && owner[session] == tenant)
      ensures messages == if ok then old(messages)[session := old(messages)[session] + [message]] else old(messages)
    {
      if session !in owner || owner[session] != tenant {
        return false;
      }
      messages := messages[session := messages[session] + [message]];
      return true;
    }
  }

  // ---------------------------------------------------------------------------------------------
  // The agent

  class Agent {
    const fallback: Scope
    const modules: Option<map<string, Scope>>
    const sessions: InMemorySessionStore
    const approvals: Approvals.InMemoryApprovalStore?
    const model: nat -> ModelOutcome
    const tool: nat -> ToolOutcome
    var modelCalls: nat
    var toolCalls: nat
    ghost var log: seq<Event>

    ghost function Setting(): Setup {
      Setup(fallback, modules, approvals != null, model, tool)
    }

    ghost function Now(): World
      reads this, sessions, approvals
    {
      World(sessions.owner, sessions.messages, sessions.next,
        if approvals == null then Approvals.EMPTY else approvals.Contents(), modelCalls, toolCalls, log)
    }

    ghost predicate Valid()
      reads sessions, approvals
    {
      sessions.Valid() && (approvals != null ==> Approvals.Sound(approvals.Contents()))
    }

    ghost predicate Seated(t: Turn)
      reads sessions
    {
      t.session in sessions.owner && sessions.owner[t.session] == t.tenant
    }

    constructor (fallback: Scope, modules: Option<map<string, Scope>>, withQueue: bool,
                 model: nat -> ModelOutcome, tool: nat -> ToolOutcome)
      ensures Valid() && Now() == NEW && Setting() == Setup(fallback, modules, withQueue, model, tool)
      ensures fresh(sessions) && (approvals != null ==> fresh(approvals))
    {
      this.fallback, this.modules, this.model, this.tool := fallback, modules, model, tool;
      sessions := new InMemorySessionStore();
      if withQueue {
        var queue := new Approvals.InMemoryApprovalStore();
        approvals := queue;
      } else {
        approvals := null;
      }
      modelCalls, toolCalls, log := 0, 0, [];
    }

    method Execute(t: Turn, ghost turn: nat, call: Part) returns (result: Part)
      requires call.ToolCall?
      modifies this`toolCalls, this`log
      ensures (Now(), result) == Loop.Execute(Setting(), old(Now()), t, turn, call)
    {
      if call.name !in t.scope.tools {
        return Loop.Result(call, "unknown tool \"" + call.name + "\"", true);
      }
      var outcome := tool(toolCalls);
      toolCalls := toolCalls + 1;
      if outcome.InvalidInput? {
        return Loop.Result(call, "invalid input for \"" + call.name + "\": " + outcome.message, true);
      }
      log := log + [Executed(t.session, turn, call, t.scope, toolCalls - 1)];
      if outcome.Throws? {
        return Loop.Result(call, "tool \"" + call.name + "\" failed: " + outcome.message, true);
      }
      return Loop.Result(call, outcome.content, outcome.isError);
    }

    method RunCall(t: Turn, ghost turn: nat, call: Part, approval: Option<Approvals.Approval>) returns (result: Part)
      requires call.ToolCall?
      modifies this`toolCalls, this`log
      ensures (Now(), result) == Loop.RunCall(Setting(), old(Now()), t, turn, call, approval)
    {
      hide Loop.Execute;
      var named := "tool \"" + call.name + "\"";
      if Gated(t.scope, call.name) {
        if approvals == null {
          return Loop.Result(call, named + " requires human approval, which is not configured", true);
        }
        if approval.Some? && approval.value.status == Approvals.Rejected {
          var because := if approval.value.reason.Some? && approval.value.reason.value != "" then ": " + approval.value.reason.value else "";
          return Loop.Result(call, named + " was rejected by " + Why(approval.value.decidedBy, "an operator") + because, true);
        }
        if approval.Some? && approval.value.status == Approvals.ChangesRequested {
          return Loop.Result(call, Why(approval.value.decidedBy, "an operator") + " asked for changes before \"" + call.name + "\" runs: "
            + Why(approval.value.reason, "") + ". Call it again with that addressed.", true);
        }
        if approval.None? || approval.value.status != Approvals.Approved {
          return Loop.Result(call, named + " is not approved", true);
        }
      }
      result := Execute(t, turn, call);
    }

    /** The rows, entered into the map one by one. */
    method Enter(before: map<string, Approvals.Approval>, ghost old_: seq<Approvals.Approval>, rows: seq<Approvals.Approval>)
      returns (decisions: map<string, Approvals.Approval>)
      requires Indexes(before, old_) && OneEach(old_ + rows)
      ensures Indexes(decisions, old_ + rows)
    {
      hide Indexes;
      decisions := before;
      assert old_ + rows[..0] == old_;
      for i := 0 to |rows|
        invariant Indexes(decisions, old_ + rows[..i])
      {
        assert old_ + rows[..i] + [rows[i]] == old_ + rows[..i + 1];
        assert OneEach(old_ + rows[..i] + [rows[i]]) by {
          assert old_ + rows[..i + 1] == (old_ + rows)[..|old_| + i + 1];
        }
        IndexesPush(decisions, old_ + rows[..i], rows[i]);
        decisions := decisions[rows[i].toolCallId := rows[i]];
      }
      assert rows[..|rows|] == rows;
    }

    method RunCalls(t: Turn, ghost turn: nat, calls: seq<Part>, decisions: map<string, Approvals.Approval>, ghost rows: seq<Approvals.Approval>)
      returns (results: seq<Part>)
      requires AllCalls(calls) && Indexes(decisions, rows)
      modifies this`toolCalls, this`log
      ensures (Now(), results) == Loop.RunCalls(Setting(), old(Now()), t, turn, calls, rows)
    {
      hide Loop.RunCall;
      results := [];
      for i := 0 to |calls|
        invariant var whole, rest := Loop.RunCalls(Setting(), old(Now()), t, turn, calls, rows), Loop.RunCalls(Setting(), Now(), t, turn, calls[i..], rows);
          whole.0 == rest.0 && whole.1 == results + rest.1
      {
        assert calls[i..][0] == calls[i] && calls[i..][1..] == calls[i + 1..];
        var decision := if calls[i].id in decisions then Some(decisions[calls[i].id]) else None;
        var result := RunCall(t, turn, calls[i], decision);
        results := results + [result];
      }
      assert calls[|calls|..] == [] && results + [] == results;
    }

    /** Ask the queue about the gated calls of a turn; the rows that answer, or nothing when it refuses. */
    method Consult(t: Turn, gated: seq<Part>)
      returns (refused: bool, decisions: map<string, Approvals.Approval>, rows: seq<Approvals.Approval>)
      requires Valid() && AllCalls(gated) && approvals != null
      modifies approvals
      ensures Valid()
      ensures var existing := Approvals.RowsFor(old(approvals.Contents()), t.tenant, t.session, Ids(gated));
        var asked := Approvals.RequestAll(old(approvals.Contents()), RequestsFor(t, Undecided(gated, existing)));
        && approvals.Contents() == asked.queue
        && refused == asked.refused.Some?
        && (!refused ==> rows == existing + asked.created && Indexes(decisions, rows))
    {
      hide Approvals.RequestAll, Approvals.Sound, Approvals.RowsFor, Indexes, OneEach;
      var existing := approvals.ForToolCalls(t.tenant, t.session, CallIds(gated));
      TurnRowsAreOneEach(approvals.Contents(), t, Ids(gated), Undecided(gated, existing));
      NothingIndexed();
      assert [] + existing == existing;
      decisions := Enter(map[], [], existing);
      var known := decisions;
      var missing := Filter((c: Part) => c.ToolCall? && c.id !in known, gated);
      MissingIsUndecided(gated, existing, known);
      rows := existing;
      if missing != [] {
        var created := approvals.Request(RequestsFor(t, missing));
        if created.Err? {
          return true, decisions, rows;
        }
        decisions := Enter(decisions, existing, created.value);
        rows := existing + created.value;
      } else {
        AskedNothing(old(approvals.Contents()));
        assert existing + [] == existing;
      }
      refused := false;
    }

    /** Turn a set of calls into results, or wait. */
    method Settle(t: Turn, ghost turn: nat, calls: seq<Part>) returns (settlement: Settlement)
      requires Valid() && AllCalls(calls)
      modifies this`toolCalls, this`log, approvals
      ensures Valid()
      ensures (Now(), settlement) == Loop.Settle(Setting(), old(Now()), t, turn, calls)
    {
      hide Approvals.RequestAll, Approvals.Sound, Approvals.RowsFor, Indexes, Loop.RunCalls, Filter;
      var gated := GatedCalls(t.scope, calls);
      NothingIndexed();
      var decisions: map<string, Approvals.Approval>, rows: seq<Approvals.Approval> := map[], [];
      if gated != [] && approvals != null {
        var refused;
        refused, decisions, rows := Consult(t, gated);
        if refused {
          return Refused;
        }
        var pending := PendingOf(rows);
        if pending != [] {
          return Waiting(pending);
        }
      }
      var results := RunCalls(t, turn, calls, decisions, rows);
      return Ready(results);
    }

    method AskModel(t: Turn, history: seq<Message>) returns (response: ModelOutcome)
      requires history == Loop.Messages(Now(), t.session)
      modifies this`modelCalls, this`log
      ensures Now() == Asked(old(Now()), t.session) && response == model(old(modelCalls))
      ensures Loop.Messages(Now(), t.session) == history
    {
      response := model(modelCalls);
      modelCalls := modelCalls + 1;
      log := log + [Sent(t.session, history)];
    }

    /** A message goes into the session and into the conversation kept beside it. */
    method Say(t: Turn, history: seq<Message>, message: Message) returns (after: seq<Message>)
      requires sessions.Valid() && Seated(t) && history == Loop.Messages(Now(), t.session)
      modifies sessions`messages
      ensures sessions.Valid() && Seated(t) && Now() == Append(old(Now()), t.session, message)
      ensures after == history + [message] == Loop.Messages(Now(), t.session)
    {
      after := history + [message];
      var _ := sessions.Append(t.tenant, t.session, message);
    }

    /** The model → tools loop, shared by run and resume: the conversation is kept beside the stored one. */
    method Drive(t: Turn, stored: seq<Message>) returns (reply: Reply)
      requires Valid() && Seated(t) && stored == Loop.Messages(Now(), t.session)
      modifies this`modelCalls, this`toolCalls, this`log, sessions`messages, approvals
      ensures Valid()
      ensures (Now(), reply) == Loop.Drive(Setting(), old(Now()), t, 0)
    {
      hide Loop.Settle, Loop.Messages, Calls, Append, Asked, Approvals.Sound;
      var history := stored;
      for iteration := 0 to t.scope.maxIterations
        invariant Valid() && Seated(t) && history == Loop.Messages(Now(), t.session)
        invariant Loop.Drive(Setting(), old(Now()), t, 0) == Loop.Drive(Setting(), Now(), t, iteration)
      {
        var response := AskModel(t, history);
        if response.Raises? {
          return Failed;
        }
        history := Say(t, history, Message(Assistant, response.content));
        var calls := Calls(response.content);
        if response.stop != ToolUse || calls == [] {
          return Answered(if response.stop == ToolUse then EndTurn else response.stop);
        }
        CallsAreCalls(response.content);
        SettleTouchesNoSession(Setting(), Now(), t, |history| - 1, calls);
        var settlement := Settle(t, |history| - 1, calls);
        if settlement.Refused? {
          return Failed;
        }
        if settlement.Waiting? {
          return Paused(settlement.pending);
        }
        history := Say(t, history, Message(User, settlement.results));
      }
      return IterationLimit;
    }

    /** None stands for the error raised when the module is not registered. */
    method ScopeFor(moduleId: Option<string>) returns (scope: Option<Scope>)
      ensures scope == ScopeOf(Setting(), moduleId)
    {
      if moduleId.None? || modules.None? {
        return Some(fallback);
      }
      if moduleId.value !in modules.value {
        return None;
      }
      return Some(modules.value[moduleId.value]);
    }

    method Run(tenant: string, session: nat, input: string, moduleId: Option<string>) returns (reply: Reply)
      requires Valid()
      modifies this`modelCalls, this`toolCalls, this`log, sessions`messages, approvals
      ensures Valid()
      ensures (Now(), reply) == Loop.Run(Setting(), old(Now()), tenant, session, input, moduleId)
    {
      hide Loop.Drive, Approvals.Sound;
      var scope := ScopeFor(moduleId);
      if scope.None? {
        return Failed;
      }
      var found := sessions.Find(tenant, session);
      if !found {
        return Failed;
      }
      var _ := sessions.Append(tenant, session, Message(User, [Text(input)]));
      var history := sessions.Messages(tenant, session);
      reply := Drive(Turn(tenant, session, scope.value), history);
    }

    method Resume(tenant: string, session: nat, moduleId: Option<string>) returns (reply: Reply)
      requires Valid()
      modifies this`modelCalls, this`toolCalls, this`log, sessions`messages, approvals
      ensures Valid()
      ensures (Now(), reply) == Loop.Resume(Setting(), old(Now()), tenant, session, moduleId)
    {
      hide Loop.Drive, Loop.Settle, Calls, Approvals.Sound;
      var scope := ScopeFor(moduleId);
      if scope.None? {
        return Failed;
      }
      var found := sessions.Find(tenant, session);
      if !found {
        return Failed;
      }
      var history := sessions.Messages(tenant, session);
      var calls := if history != [] && history[|history| - 1].role == Assistant then Calls(history[|history| - 1].content) else [];
      if calls == [] {
        return Failed;
      }
      CallsAreCalls(history[|history| - 1].content);
      var t := Turn(tenant, session, scope.value);
      SettleTouchesNoSession(Setting(), Now(), t, |history| - 1, calls);
      var settlement := Settle(t, |history| - 1, calls);
      if settlement.Refused? {
        return Failed;
      }
      if settlement.Waiting? {
        return Paused(settlement.pending);
      }
      history := Say(t, history, Message(User, settlement.results));
      reply := Drive(t, history);
    }
  }

  lemma NothingIndexed()
    ensures Indexes(map[], [])
  {}

  lemma AskedNothing(q: Approvals.Queue)
    ensures Approvals.RequestAll(q, []) == Approvals.Requested(q, [], None)
  {}

  lemma MissingIsUndecided(gated: seq<Part>, existing: seq<Approvals.Approval>, known: map<string, Approvals.Approval>)
    requires AllCalls(gated) && Indexes(known, existing)
    ensures Filter((c: Part) => c.ToolCall? && c.id !in known, gated) == Undecided(gated, existing)
  {
    FilterSame((c: Part) => c.ToolCall? && c.id !in known, (c: Part) => c.ToolCall? && DecisionFor(existing, c.id).None?, gated);
  }

  lemma {:induction false} RunCallsTouchNoSession(s: Setup, w: World, t: Turn, turn: nat, calls: seq<Part>, rows: seq<Approvals.Approval>)
    requires AllCalls(calls)
    ensures var w1 := RunCalls(s, w, t, turn, calls, rows).0;
      w1.messages == w.messages && w1.owner == w.owner && w1.nextSession == w.nextSession
    decreases |calls|
  {
    if calls != [] {
      RunCallsTouchNoSession(s, RunCall(s, w, t, turn, calls[0], DecisionFor(rows, calls[0].id)).0, t, turn, calls[1..], rows);
    }
  }

  lemma SettleTouchesNoSession(s: Setup, w: World, t: Turn, turn: nat, calls: seq<Part>)
    requires AllCalls(calls)
    ensures var w1 := Settle(s, w, t, turn, calls).0; w1.messages == w.messages && w1.owner == w.owner
    ensures Messages(Settle(s, w, t, turn, calls).0, t.session) == Messages(w, t.session)
  {
    hide RunCalls, Approvals.RequestAll;
    forall w0, rows ensures var w1 := RunCalls(s, w0, t, turn, calls, rows).0; w1.messages == w0.messages && w1.owner == w0.owner {
      RunCallsTouchNoSession(s, w0, t, turn, calls, rows);
    }
  }
}
