/** Approval safety of the agent loop: what every reachable state satisfies. */
module AgentSafety {
  import opened Basics
  import Approvals
  import opened Agent

  // ---------------------------------------------------------------------------------------------
  // The invariant

  /** The call is one of those the assistant made in message `turn` of the session. */
  ghost predicate Made(w: World, session: nat, turn: nat, call: Part) {
    && session in w.messages
    && turn < |w.messages[session]|
    && w.messages[session][turn].role == Assistant
    && call in Calls(w.messages[session][turn].content)
  }

  /** A row of the queue holds a call somebody made in that row's session. */
  ghost predicate RowOk(w: World, a: Approvals.Approval) {
    && a.session in w.owner && w.owner[a.session] == a.tenant
    && exists turn: nat :: Made(w, a.session, turn, ToolCall(a.toolCallId, a.toolName, a.input))
  }

  ghost predicate QueueOk(w: World) {
    && Approvals.Sound(w.queue)
    && (forall q :: 0 <= q < |w.queue.rows| ==> RowOk(w, w.queue.rows[q]))
    && (forall q :: 0 <= q < |w.queue.rows| && w.queue.rows[q].status != Approvals.Pending ==>
          Decided(w.queue.rows[q].id, w.queue.rows[q].status) in w.log)
  }

  /** Row `q` decides the call, and the decision stands in the log before position `k`. */
  ghost predicate DecidedBy(w: World, k: nat, session: nat, id: string, q: nat) {
    && q < |w.queue.rows|
    && w.queue.rows[q].session == session
    && w.queue.rows[q].toolCallId == id
    && w.queue.rows[q].status != Approvals.Pending
    && exists j :: 0 <= j < k && j < |w.log| && w.log[j] == Decided(w.queue.rows[q].id, w.queue.rows[q].status)
  }

  ghost predicate DecidedBefore(w: World, k: nat, session: nat, id: string) {
    exists q: nat :: DecidedBy(w, k, session, id, q)
  }

  ghost predicate ApprovedBefore(w: World, k: nat, session: nat, id: string) {
    exists q: nat :: q < |w.queue.rows| && DecidedBy(w, k, session, id, q) && w.queue.rows[q].status == Approvals.Approved
  }

  /** Why the tool logged at position `k` was allowed to run. */
  ghost predicate ExecutedOk(s: Setup, w: World, k: nat)
    requires k < |w.log| && w.log[k].Executed?
  {
    var e := w.log[k];
    && e.call.ToolCall?
    && Made(w, e.session, e.turn, e.call)
    && e.call.name in e.scope.tools
    && (Gated(e.scope, e.call.name) ==> s.hasQueue && ApprovedBefore(w, k, e.session, e.call.id))
    && (s.hasQueue ==>
          forall other :: other in Calls(w.messages[e.session][e.turn].content) && Gated(e.scope, other.name) ==>
            DecidedBefore(w, k, e.session, other.id))
  }

  ghost predicate LogOk(s: Setup, w: World) {
    forall k :: 0 <= k < |w.log| && w.log[k].Executed? ==> ExecutedOk(s, w, k)
  }

  ghost predicate Consistent(s: Setup, w: World) {
    && w.owner.Keys == w.messages.Keys
    && (forall session :: session in w.owner ==> session < w.nextSession)
    && QueueOk(w)
    && LogOk(s, w)
  }

  // ---------------------------------------------------------------------------------------------
  // Growth

  ghost predicate Grows(w: World, w': World) {
    && w.log <= w'.log
    && Approvals.Extends(w.queue, w'.queue)
    && (forall session :: session in w.owner ==> session in w'.owner && w'.owner[session] == w.owner[session])
    && (forall session :: session in w.messages ==> session in w'.messages && w.messages[session] <= w'.messages[session])
  }

  lemma GrowsTransitive(a: World, b: World, c: World)
    requires Grows(a, b) && Grows(b, c)
    ensures Grows(a, c)
  {
    Approvals.ExtendsTransitive(a.queue, b.queue, c.queue);
  }

  lemma GrowsReflexive(w: World)
    ensures Grows(w, w)
  {}

  lemma MadeGrows(w: World, w': World, session: nat, turn: nat, call: Part)
    requires Made(w, session, turn, call) && Grows(w, w')
    ensures Made(w', session, turn, call)
  {}

  lemma RowGrows(w: World, w': World, a: Approvals.Approval, a': Approvals.Approval)
    requires RowOk(w, a) && Grows(w, w')
    requires a'.session == a.session && a'.tenant == a.tenant && a'.toolCallId == a.toolCallId
      && a'.toolName == a.toolName && a'.input == a.input
    ensures RowOk(w', a')
  {
    hide Made;
    var turn: nat :| Made(w, a.session, turn, ToolCall(a.toolCallId, a.toolName, a.input));
    MadeGrows(w, w', a.session, turn, ToolCall(a.toolCallId, a.toolName, a.input));
  }

  lemma DecidedGrows(w: World, w': World, k: nat, session: nat, id: string, q: nat)
    requires DecidedBy(w, k, session, id, q) && Grows(w, w')
    ensures DecidedBy(w', k, session, id, q) && w'.queue.rows[q] == w.queue.rows[q]
  {
    var j :| 0 <= j < k && j < |w.log| && w.log[j] == Decided(w.queue.rows[q].id, w.queue.rows[q].status);
    assert w'.log[j] == Decided(w'.queue.rows[q].id, w'.queue.rows[q].status);
  }

  lemma ExecutedGrows(s: Setup, w: World, w': World, k: nat)
    requires k < |w.log| && w.log[k].Executed? && ExecutedOk(s, w, k) && Grows(w, w')
    ensures ExecutedOk(s, w', k)
  {
    hide DecidedBy, Calls;
    var e := w.log[k];
    MadeGrows(w, w', e.session, e.turn, e.call);
    assert w'.messages[e.session][e.turn] == w.messages[e.session][e.turn];
    if Gated(e.scope, e.call.name) {
      var q: nat :| q < |w.queue.rows| && DecidedBy(w, k, e.session, e.call.id, q) && w.queue.rows[q].status == Approvals.Approved;
      DecidedGrows(w, w', k, e.session, e.call.id, q);
    }
    if s.hasQueue {
      forall other | other in Calls(w.messages[e.session][e.turn].content) && Gated(e.scope, other.name)
        ensures DecidedBefore(w', k, e.session, other.id)
      {
        var q: nat :| DecidedBy(w, k, e.session, other.id, q);
        DecidedGrows(w, w', k, e.session, other.id, q);
      }
    }
  }

  /** Growing without a tool running keeps the log in order. */
  lemma LogGrows(s: Setup, w: World, w': World)
    requires LogOk(s, w) && Grows(w, w')
    requires forall k :: |w.log| <= k < |w'.log| ==> !w'.log[k].Executed?
    ensures LogOk(s, w')
  {
    hide ExecutedOk;
    forall k | 0 <= k < |w'.log| && w'.log[k].Executed? ensures ExecutedOk(s, w', k) {
      assert w'.log[k] == w.log[k];
      ExecutedGrows(s, w, w', k);
    }
  }

  /** Growing with the same rows keeps the queue in order. */
  lemma QueueGrows(w: World, w': World)
    requires QueueOk(w) && Grows(w, w') && w'.queue == w.queue
    ensures QueueOk(w')
  {
    hide RowOk;
    forall q | 0 <= q < |w'.queue.rows| ensures RowOk(w', w'.queue.rows[q]) {
      RowGrows(w, w', w.queue.rows[q], w'.queue.rows[q]);
    }
  }

  // ---------------------------------------------------------------------------------------------
  // Running the calls of a turn

  /** The calls of this turn may run: every gated one is decided, in the queue and in the log. */
  ghost predicate MayRun(s: Setup, w: World, t: Turn, turn: nat, decisions: seq<Approvals.Approval>) {
    && t.session in w.messages && turn < |w.messages[t.session]|
    && w.messages[t.session][turn].role == Assistant
    && (forall d :: d in decisions ==> d in w.queue.rows && d.session == t.session && d.status != Approvals.Pending)
    && (s.hasQueue ==>
          forall call :: call in Calls(w.messages[t.session][turn].content) && Gated(t.scope, call.name) ==>
            DecisionFor(decisions, call.id).Some?)
  }

  lemma DecisionIsRow(decisions: seq<Approvals.Approval>, id: string)
    requires DecisionFor(decisions, id).Some?
    ensures DecisionFor(decisions, id).value in decisions && DecisionFor(decisions, id).value.toolCallId == id
  {
    if decisions[0].toolCallId != id {
      DecisionIsRow(decisions[1..], id);
    }
  }

  lemma DecisionIsLogged(s: Setup, w: World, t: Turn, turn: nat, decisions: seq<Approvals.Approval>, id: string)
    requires QueueOk(w) && MayRun(s, w, t, turn, decisions) && DecisionFor(decisions, id).Some?
    ensures exists q: nat :: q < |w.queue.rows| && DecidedBy(w, |w.log|, t.session, id, q) && w.queue.rows[q] == DecisionFor(decisions, id).value
  {
    hide RowOk;
    DecisionIsRow(decisions, id);
    var a := DecisionFor(decisions, id).value;
    var q :| 0 <= q < |w.queue.rows| && w.queue.rows[q] == a;
    assert Decided(a.id, a.status) in w.log;
    assert DecidedBy(w, |w.log|, t.session, id, q);
  }

  lemma DecisionsAreLogged(s: Setup, w: World, t: Turn, turn: nat, decisions: seq<Approvals.Approval>, call: Part)
    requires QueueOk(w) && MayRun(s, w, t, turn, decisions) && s.hasQueue
    requires call in Calls(w.messages[t.session][turn].content) && Gated(t.scope, call.name)
    ensures DecidedBefore(w, |w.log|, t.session, call.id)
  {
    hide QueueOk, DecidedBy;
    DecisionIsLogged(s, w, t, turn, decisions, call.id);
  }

  /** The log with one tool run more. */
  lemma ExecutedIsOk(s: Setup, w: World, w': World, t: Turn, turn: nat, decisions: seq<Approvals.Approval>, call: Part)
    requires QueueOk(w) && MayRun(s, w, t, turn, decisions)
    requires w' == w.(toolCalls := w'.toolCalls, log := w.log + [Executed(t.session, turn, call, t.scope, w.toolCalls)])
    requires call in Calls(w.messages[t.session][turn].content) && call.ToolCall? && call.name in t.scope.tools
    requires Gated(t.scope, call.name) ==>
      s.hasQueue && DecisionFor(decisions, call.id).Some? && DecisionFor(decisions, call.id).value.status == Approvals.Approved
    ensures ExecutedOk(s, w', |w.log|)
  {
    hide QueueOk, DecidedBy;
    assert Grows(w, w');
    if Gated(t.scope, call.name) {
      DecisionIsLogged(s, w, t, turn, decisions, call.id);
      var q: nat :| q < |w.queue.rows| && DecidedBy(w, |w.log|, t.session, call.id, q) && w.queue.rows[q] == DecisionFor(decisions, call.id).value;
      DecidedGrows(w, w', |w.log|, t.session, call.id, q);
    }
    if s.hasQueue {
      forall other | other in Calls(w.messages[t.session][turn].content) && Gated(t.scope, other.name)
        ensures DecidedBefore(w', |w.log|, t.session, other.id)
      {
        DecisionsAreLogged(s, w, t, turn, decisions, other);
        var q: nat :| DecidedBy(w, |w.log|, t.session, other.id, q);
        DecidedGrows(w, w', |w.log|, t.session, other.id, q);
      }
    }
  }

  /** What one call may add to the log. */
  ghost predicate RanOnly(w: World, w': World, t: Turn, turn: nat, call: Part) {
    w' == w.(toolCalls := w'.toolCalls, log := w'.log)
    && (w'.log == w.log || w'.log == w.log + [Executed(t.session, turn, call, t.scope, w.toolCalls)])
  }

  lemma RunCallIs(s: Setup, w: World, t: Turn, turn: nat, call: Part, approval: Option<Approvals.Approval>)
    requires call.ToolCall?
    ensures var (w1, result) := RunCall(s, w, t, turn, call, approval);
      && RanOnly(w, w1, t, turn, call)
      && (w1.log != w.log ==> call.name in t.scope.tools)
      && (w1.log != w.log && Gated(t.scope, call.name) ==>
            s.hasQueue && approval.Some? && approval.value.status == Approvals.Approved)
      && result.ToolResult? && result.callId == call.id
  {}

  lemma RunCallKeeps(s: Setup, w: World, t: Turn, turn: nat, decisions: seq<Approvals.Approval>, call: Part)
    requires Consistent(s, w) && MayRun(s, w, t, turn, decisions)
    requires call.ToolCall? && call in Calls(w.messages[t.session][turn].content)
    ensures var w1 := RunCall(s, w, t, turn, call, DecisionFor(decisions, call.id)).0;
      Consistent(s, w1) && MayRun(s, w1, t, turn, decisions) && RanOnly(w, w1, t, turn, call)
  {
    hide RunCall, QueueOk, ExecutedOk;
    var w1 := RunCall(s, w, t, turn, call, DecisionFor(decisions, call.id)).0;
    RunCallIs(s, w, t, turn, call, DecisionFor(decisions, call.id));
    assert Grows(w, w1);
    QueueGrows(w, w1);
    forall k | 0 <= k < |w1.log| && w1.log[k].Executed? ensures ExecutedOk(s, w1, k) {
      if k < |w.log| {
        ExecutedGrows(s, w, w1, k);
      } else {
        ExecutedIsOk(s, w, w1, t, turn, decisions, call);
      }
    }
  }

  /** A call runs exactly when its tool is known, takes the input, and needs no approval or has one; otherwise the model is told so. */
  lemma CallRunsExactlyWhenAllowed(s: Setup, w: World, t: Turn, turn: nat, call: Part, approval: Option<Approvals.Approval>)
    requires call.ToolCall?
    ensures var (w1, result) := RunCall(s, w, t, turn, call, approval);
      var runs := call.name in t.scope.tools && !s.tool(w.toolCalls).InvalidInput?
        && (t.scope.tools[call.name] ==> s.hasQueue && approval.Some? && approval.value.status == Approvals.Approved);
      && w1.log == (if runs then w.log + [Executed(t.session, turn, call, t.scope, w.toolCalls)] else w.log)
      && result.ToolResult? && result.callId == call.id
      && (!runs ==> result.isError)
      && (runs && s.tool(w.toolCalls).Returns? ==>
            result.content == s.tool(w.toolCalls).content && result.isError == s.tool(w.toolCalls).isError)
  {
    hide Calls;
  }

  ghost predicate From(calls: seq<Part>, content: seq<Part>) {
    forall c :: c in calls ==> c in Calls(content)
  }

  /** Running calls changes the log and nothing a decision depends on. */
  ghost predicate Ran(w: World, w': World) {
    w' == w.(toolCalls := w'.toolCalls, log := w'.log) && w.log <= w'.log
  }

  lemma {:induction false} RunCallsKeeps(s: Setup, w: World, t: Turn, turn: nat, calls: seq<Part>, decisions: seq<Approvals.Approval>)
    requires Consistent(s, w) && MayRun(s, w, t, turn, decisions)
    requires AllCalls(calls) && From(calls, w.messages[t.session][turn].content)
    ensures var w1 := RunCalls(s, w, t, turn, calls, decisions).0; Consistent(s, w1) && Ran(w, w1)
    decreases |calls|
  {
    hide RunCall, Consistent, MayRun, Calls, DecisionFor;
    if calls != [] {
      assert calls[0] in calls;
      assert forall c :: c in calls[1..] ==> c in calls;
      RunCallKeeps(s, w, t, turn, decisions, calls[0]);
      RunCallsKeeps(s, RunCall(s, w, t, turn, calls[0], DecisionFor(decisions, calls[0].id)).0, t, turn, calls[1..], decisions);
    }
  }

  // ---------------------------------------------------------------------------------------------
  // Settling a turn

  /** The turn being settled is the last of its session, an assistant's, and these are its calls. */
  ghost predicate Settling(w: World, t: Turn, turn: nat, calls: seq<Part>) {
    && t.session in w.messages && t.session in w.owner && w.owner[t.session] == t.tenant
    && |w.messages[t.session]| == turn + 1
    && w.messages[t.session][turn].role == Assistant
    && calls == Calls(w.messages[t.session][turn].content)
  }

  /** A call is among the undecided exactly when no row decides it. */
  lemma {:induction false} DecisionForNone(decisions: seq<Approvals.Approval>, id: string)
    ensures DecisionFor(decisions, id).None? <==> forall d :: d in decisions ==> d.toolCallId != id
  {
    if decisions != [] {
      DecisionForNone(decisions[1..], id);
      assert forall d :: d in decisions <==> d == decisions[0] || d in decisions[1..];
    }
  }

  /** New rows belong to calls of the turn. */
  lemma AskedRowsAreOk(w: World, t: Turn, turn: nat, calls: seq<Part>, asked: seq<Part>)
    requires QueueOk(w) && Settling(w, t, turn, calls)
    requires AllCalls(asked) && forall c :: c in asked ==> c in calls
    ensures var r := Approvals.RequestAll(w.queue, RequestsFor(t, asked));
      && QueueOk(w.(queue := r.queue))
      && Grows(w, w.(queue := r.queue))
      && (forall d :: d in r.created ==> d in r.queue.rows && d.session == t.session && d.status == Approvals.Pending)
      && (r.refused.None? ==> forall c :: c in asked ==> exists d :: d in r.created && d.toolCallId == c.id)
      && (asked == [] ==> r.queue == w.queue && r.created == [] && r.refused.None?)
  {
    hide RowOk;
    var inputs := RequestsFor(t, asked);
    var r := Approvals.RequestAll(w.queue, inputs);
    Approvals.RequestKeeps(w.queue, inputs);
    Approvals.RequestAppends(w.queue, inputs);
    var w1 := w.(queue := r.queue);
    forall q | 0 <= q < |r.queue.rows| ensures RowOk(w1, r.queue.rows[q]) {
      if q < |w.queue.rows| {
        RowGrows(w, w1, w.queue.rows[q], r.queue.rows[q]);
      } else {
        var c := asked[q - |w.queue.rows|];
        assert c in asked;
        assert r.queue.rows[q] == r.created[q - |w.queue.rows|];
        NewRowIsOk(w1, t, turn, calls, c, r.queue.rows[q]);
      }
    }
    forall q | |w.queue.rows| <= q < |r.queue.rows| ensures r.queue.rows[q].status == Approvals.Pending {
      assert r.queue.rows[q] == r.created[q - |w.queue.rows|];
    }
    if r.refused.None? {
      forall c | c in asked ensures exists d :: d in r.created && d.toolCallId == c.id {
        var i :| 0 <= i < |asked| && asked[i] == c;
        assert r.created[i] in r.created;
      }
    }
  }

  lemma NewRowIsOk(w: World, t: Turn, turn: nat, calls: seq<Part>, c: Part, a: Approvals.Approval)
    requires Settling(w, t, turn, calls) && c in calls
    requires a.session == t.session && a.tenant == t.tenant && a.toolCallId == c.id && a.toolName == c.name && a.input == c.input
    ensures RowOk(w, a)
  {
    assert c == ToolCall(a.toolCallId, a.toolName, a.input);
    assert Made(w, a.session, turn, c);
  }

  /** With no gated call, or with nobody to ask, the turn runs at once. */
  lemma UngatedMayRun(s: Setup, w: World, t: Turn, turn: nat, calls: seq<Part>)
    requires Settling(w, t, turn, calls) && (GatedCalls(t.scope, calls) == [] || !s.hasQueue)
    ensures MayRun(s, w, t, turn, [])
  {
    if s.hasQueue {
      forall call | call in calls ensures !Gated(t.scope, call.name) {
        assert call !in GatedCalls(t.scope, calls);
      }
    }
  }

  /** The decisions a settlement goes by: the rows on file and the ones just asked for. */
  function Decisions(w: World, t: Turn, calls: seq<Part>): (Approvals.Requested, seq<Approvals.Approval>) {
    var gated := GatedCalls(t.scope, calls);
    var existing := Approvals.RowsFor(w.queue, t.tenant, t.session, Ids(gated));
    var asked := Approvals.RequestAll(w.queue, RequestsFor(t, Undecided(gated, existing)));
    (asked, existing + asked.created)
  }

  lemma SettleIs(s: Setup, w: World, t: Turn, turn: nat, calls: seq<Part>)
    requires AllCalls(calls)
    ensures var (w1, settlement) := Settle(s, w, t, turn, calls);
      var (asked, decisions) := Decisions(w, t, calls);
      if GatedCalls(t.scope, calls) == [] || !s.hasQueue then
        var (w2, results) := RunCalls(s, w, t, turn, calls, []);
        w1 == w2 && settlement == Ready(results)
      else if asked.refused.Some? then w1 == w.(queue := asked.queue) && settlement.Refused?
      else if PendingOf(decisions) != [] then w1 == w.(queue := asked.queue) && settlement.Waiting?
      else
        var (w2, results) := RunCalls(s, w.(queue := asked.queue), t, turn, calls, decisions);
        w1 == w2 && settlement == Ready(results)
  {}

  lemma DecisionsKeep(s: Setup, w: World, t: Turn, turn: nat, calls: seq<Part>)
    requires Consistent(s, w) && Settling(w, t, turn, calls)
    ensures var w1 := w.(queue := Decisions(w, t, calls).0.queue);
      Consistent(s, w1) && Grows(w, w1) && Settling(w1, t, turn, calls)
    ensures forall d :: d in Decisions(w, t, calls).1 ==> d in Decisions(w, t, calls).0.queue.rows && d.session == t.session
  {
    hide LogOk, QueueOk, Approvals.RequestAll;
    var gated := GatedCalls(t.scope, calls);
    var existing := Approvals.RowsFor(w.queue, t.tenant, t.session, Ids(gated));
    var missing := Undecided(gated, existing);
    AskedRowsAreOk(w, t, turn, calls, missing);
    Approvals.RequestAppends(w.queue, RequestsFor(t, missing));
    LogGrows(s, w, w.(queue := Decisions(w, t, calls).0.queue));
  }

  lemma DecisionForAppend(a: seq<Approvals.Approval>, b: seq<Approvals.Approval>, id: string)
    ensures DecisionFor(a + b, id).Some? <==> DecisionFor(a, id).Some? || DecisionFor(b, id).Some?
  {
    DecisionForNone(a, id);
    DecisionForNone(b, id);
    DecisionForNone(a + b, id);
    assert forall d :: d in a + b <==> d in a || d in b;
  }

  /** With every decision taken, the turn may run. */
  lemma DecidedMayRun(s: Setup, w: World, t: Turn, turn: nat, calls: seq<Part>)
    requires Consistent(s, w) && Settling(w, t, turn, calls)
    requires Decisions(w, t, calls).0.refused.None? && PendingOf(Decisions(w, t, calls).1) == []
    ensures MayRun(s, w.(queue := Decisions(w, t, calls).0.queue), t, turn, Decisions(w, t, calls).1)
  {
    hide LogOk, QueueOk, Approvals.RequestAll;
    var (asked, decisions) := Decisions(w, t, calls);
    DecisionsKeep(s, w, t, turn, calls);
    forall d | d in decisions ensures d.status != Approvals.Pending {
      assert d !in PendingOf(decisions);
    }
    forall call | call in calls && Gated(t.scope, call.name) ensures DecisionFor(decisions, call.id).Some? {
      GatedIsDecided(w, t, turn, calls, call);
    }
  }

  lemma GatedIsDecided(w: World, t: Turn, turn: nat, calls: seq<Part>, call: Part)
    requires QueueOk(w) && Settling(w, t, turn, calls) && Decisions(w, t, calls).0.refused.None?
    requires call in calls && Gated(t.scope, call.name)
    ensures DecisionFor(Decisions(w, t, calls).1, call.id).Some?
  {
    hide QueueOk, Approvals.RequestAll;
    var gated := GatedCalls(t.scope, calls);
    var existing := Approvals.RowsFor(w.queue, t.tenant, t.session, Ids(gated));
    var missing := Undecided(gated, existing);
    var created := Decisions(w, t, calls).0.created;
    AskedRowsAreOk(w, t, turn, calls, missing);
    assert call in gated;
    if DecisionFor(existing, call.id).None? {
      assert call in missing;
      DecisionForNone(created, call.id);
    }
    DecisionForAppend(existing, created, call.id);
  }

  lemma RanIsGrowth(w: World, w': World)
    requires Ran(w, w')
    ensures Grows(w, w') && w'.messages == w.messages && w'.owner == w.owner && w'.nextSession == w.nextSession && w'.queue == w.queue
  {}

  /** Settling a turn keeps the invariant and writes nothing into any conversation. */
  lemma SettleKeeps(s: Setup, w: World, t: Turn, turn: nat, calls: seq<Part>)
    requires Consistent(s, w) && Settling(w, t, turn, calls) && AllCalls(calls)
    ensures var w1 := Settle(s, w, t, turn, calls).0;
      && Consistent(s, w1) && Grows(w, w1)
      && w1.messages == w.messages && w1.owner == w.owner && w1.nextSession == w.nextSession
  {
    hide Consistent, Settle, RunCalls, MayRun, Grows, Decisions, Ran;
    SettleIs(s, w, t, turn, calls);
    assert From(calls, w.messages[t.session][turn].content);
    if GatedCalls(t.scope, calls) == [] || !s.hasQueue {
      UngatedMayRun(s, w, t, turn, calls);
      RunCallsKeeps(s, w, t, turn, calls, []);
      RanIsGrowth(w, RunCalls(s, w, t, turn, calls, []).0);
    } else {
      var (asked, decisions) := Decisions(w, t, calls);
      var w1 := w.(queue := asked.queue);
      DecisionsKeep(s, w, t, turn, calls);
      if asked.refused.None? && PendingOf(decisions) == [] {
        DecidedMayRun(s, w, t, turn, calls);
        RunCallsKeeps(s, w1, t, turn, calls, decisions);
        RanIsGrowth(w1, RunCalls(s, w1, t, turn, calls, decisions).0);
        GrowsTransitive(w, w1, RunCalls(s, w1, t, turn, calls, decisions).0);
      }
    }
  }

  // ---------------------------------------------------------------------------------------------
  // The loop, and every schedule of calls

  /** A change that runs no tool and asks nobody. */
  lemma QuietKeeps(s: Setup, w: World, w': World)
    requires Consistent(s, w) && Grows(w, w') && w'.queue == w.queue
    requires w'.owner.Keys == w'.messages.Keys && forall session :: session in w'.owner ==> session < w'.nextSession
    requires forall k :: |w.log| <= k < |w'.log| ==> !w'.log[k].Executed?
    ensures Consistent(s, w')
  {
    hide LogOk, QueueOk;
    LogGrows(s, w, w');
    QueueGrows(w, w');
  }

  /** The turn belongs to a session of its tenant. */
  ghost predicate Seated(w: World, t: Turn) {
    t.session in w.messages && t.session in w.owner && w.owner[t.session] == t.tenant
  }

  ghost predicate Keeps(s: Setup, w: World, w': World) {
    Consistent(s, w') && Grows(w, w')
  }

  lemma KeepsTransitive(s: Setup, a: World, b: World, c: World)
    requires Keeps(s, a, b) && Keeps(s, b, c)
    ensures Keeps(s, a, c)
  {
    GrowsTransitive(a, b, c);
  }

  lemma SeatedGrows(w: World, w': World, t: Turn)
    requires Seated(w, t) && Grows(w, w')
    ensures Seated(w', t)
  {}

  lemma AppendKeeps(s: Setup, w: World, t: Turn, m: Message)
    requires Consistent(s, w) && Seated(w, t)
    ensures Keeps(s, w, Append(w, t.session, m))
  {
    hide LogOk, QueueOk;
    QuietKeeps(s, w, Append(w, t.session, m));
  }

  lemma AskedKeeps(s: Setup, w: World, t: Turn)
    requires Consistent(s, w) && Seated(w, t)
    ensures Keeps(s, w, Asked(w, t.session))
  {
    hide LogOk, QueueOk;
    QuietKeeps(s, w, Asked(w, t.session));
  }

  /** The assistant's message is the last one, and its calls are settled next. */
  lemma AnswerIsSettled(w: World, t: Turn, content: seq<Part>)
    requires Seated(w, t)
    ensures Settling(Append(w, t.session, Message(Assistant, content)), t, |Messages(w, t.session)|, Calls(content))
  {}

  lemma {:induction false} DriveKeeps(s: Setup, w: World, t: Turn, iteration: nat)
    requires Consistent(s, w) && Seated(w, t)
    ensures Keeps(s, w, Drive(s, w, t, iteration).0)
    decreases t.scope.maxIterations - iteration
  {
    hide Consistent, Grows, Seated, Settle, Settling, Calls, Append, Asked;
    if iteration >= t.scope.maxIterations {
      GrowsReflexive(w);
    } else {
      var asked := Asked(w, t.session);
      AskedKeeps(s, w, t);
      SeatedGrows(w, asked, t);
      match s.model(w.modelCalls) {
        case Raises(_) =>
        case Response(content, stop) =>
          var w1 := Append(asked, t.session, Message(Assistant, content));
          AppendKeeps(s, asked, t, Message(Assistant, content));
          KeepsTransitive(s, w, asked, w1);
          SeatedGrows(asked, w1, t);
          if stop == ToolUse && Calls(content) != [] {
            CallsAreCalls(content);
            AnswerIsSettled(asked, t, content);
            AskedIsQuiet(w, t);
            SettledDrives(s, w, w1, t, |Messages(w, t.session)|, Calls(content));
            var (w2, settlement) := Settle(s, w1, t, |Messages(w, t.session)|, Calls(content));
            if settlement.Ready? {
              var w3 := Append(w2, t.session, Message(User, settlement.results));
              DriveKeeps(s, w3, t, iteration + 1);
              KeepsTransitive(s, w, w3, Drive(s, w3, t, iteration + 1).0);
            }
          }
      }
    }
  }

  lemma AskedIsQuiet(w: World, t: Turn)
    ensures Messages(Asked(w, t.session), t.session) == Messages(w, t.session)
  {}

  /** A settled turn, and the results written after it. */
  lemma SettledDrives(s: Setup, w: World, w1: World, t: Turn, turn: nat, calls: seq<Part>)
    requires Keeps(s, w, w1) && Seated(w1, t) && Settling(w1, t, turn, calls) && AllCalls(calls)
    ensures var (w2, settlement) := Settle(s, w1, t, turn, calls);
      && Keeps(s, w, w2) && Seated(w2, t)
      && (settlement.Ready? ==>
            var w3 := Append(w2, t.session, Message(User, settlement.results)); Keeps(s, w, w3) && Seated(w3, t))
  {
    hide Consistent, Grows, Seated, Settle, Settling, Append;
    var (w2, settlement) := Settle(s, w1, t, turn, calls);
    SettleKeeps(s, w1, t, turn, calls);
    KeepsTransitive(s, w, w1, w2);
    SeatedGrows(w1, w2, t);
    if settlement.Ready? {
      var w3 := Append(w2, t.session, Message(User, settlement.results));
      AppendKeeps(s, w2, t, Message(User, settlement.results));
      KeepsTransitive(s, w, w2, w3);
      SeatedGrows(w2, w3, t);
    }
  }

  lemma RunKeeps(s: Setup, w: World, tenant: string, session: nat, input: string, moduleId: Option<string>)
    requires Consistent(s, w)
    ensures Keeps(s, w, Run(s, w, tenant, session, input, moduleId).0)
  {
    hide LogOk, QueueOk, Drive, Append;
    GrowsReflexive(w);
    var scope := ScopeOf(s, moduleId);
    if scope.Some? && Visible(w, tenant, session) {
      var t, m := Turn(tenant, session, scope.value), Message(User, [Text(input)]);
      AppendKeeps(s, w, t, m);
      SeatedGrows(w, Append(w, session, m), t);
      DriveKeeps(s, Append(w, session, m), t, 0);
      KeepsTransitive(s, w, Append(w, session, m), Drive(s, Append(w, session, m), t, 0).0);
    }
  }

  lemma ResumeKeeps(s: Setup, w: World, tenant: string, session: nat, moduleId: Option<string>)
    requires Consistent(s, w)
    ensures Keeps(s, w, Resume(s, w, tenant, session, moduleId).0)
  {
    hide LogOk, QueueOk, Drive, Append, Settle;
    GrowsReflexive(w);
    var scope, history := ScopeOf(s, moduleId), Messages(w, session);
    if scope.Some? && Visible(w, tenant, session) && HeldCalls(history) != [] {
      var t := Turn(tenant, session, scope.value);
      CallsAreCalls(history[|history| - 1].content);
      SettledDrives(s, w, w, t, |history| - 1, HeldCalls(history));
      var (w1, settlement) := Settle(s, w, t, |history| - 1, HeldCalls(history));
      if settlement.Ready? {
        var w2 := Append(w1, session, Message(User, settlement.results));
        DriveKeeps(s, w2, t, 0);
        KeepsTransitive(s, w, w2, Drive(s, w2, t, 0).0);
      }
    }
  }

  lemma DecideKeeps(s: Setup, w: World, tenant: string, id: nat, status: Approvals.Status, who: string, reason: Option<string>)
    requires Consistent(s, w) && status != Approvals.Pending
    ensures Keeps(s, w, DecideOn(w, tenant, id, status, who, reason))
  {
    hide LogOk, RowOk;
    var w1 := DecideOn(w, tenant, id, status, who, reason);
    Approvals.DecideKeeps(w.queue, tenant, id, status, who, reason);
    assert Grows(w, w1);
    LogGrows(s, w, w1);
    if w1 != w {
      var i := Approvals.IndexOf(w.queue.rows, id);
      assert w1.log[|w.log|] == Decided(id, status);
      forall q | 0 <= q < |w1.queue.rows|
        ensures RowOk(w1, w1.queue.rows[q])
        ensures w1.queue.rows[q].status != Approvals.Pending ==> Decided(w1.queue.rows[q].id, w1.queue.rows[q].status) in w1.log
      {
        RowGrows(w, w1, w.queue.rows[q], w1.queue.rows[q]);
        if q != i && w.queue.rows[q].status != Approvals.Pending {
          assert Decided(w.queue.rows[q].id, w.queue.rows[q].status) in w.log;
        }
      }
    }
  }

  lemma ApplyKeeps(s: Setup, w: World, a: Action)
    requires Consistent(s, w)
    ensures Keeps(s, w, Apply(s, w, a))
  {
    hide LogOk, QueueOk, Run, Resume, DecideOn;
    GrowsReflexive(w);
    match a {
      case DoOpen(tenant) => QuietKeeps(s, w, Open(w, tenant));
      case DoRun(tenant, session, input, moduleId) => RunKeeps(s, w, tenant, session, input, moduleId);
      case DoResume(tenant, session, moduleId) => ResumeKeeps(s, w, tenant, session, moduleId);
      case DoDecide(tenant, id, status, who, reason) =>
        if status != Approvals.Pending {
          DecideKeeps(s, w, tenant, id, status, who, reason);
        }
    }
  }

  lemma {:induction false} ScheduleKeeps(s: Setup, w: World, actions: seq<Action>)
    requires Consistent(s, w)
    ensures Keeps(s, w, ExecuteAll(s, w, actions))
    decreases |actions|
  {
    hide Consistent, Grows, Apply;
    if actions == [] {
      GrowsReflexive(w);
    } else {
      ApplyKeeps(s, w, actions[0]);
      ScheduleKeeps(s, Apply(s, w, actions[0]), actions[1..]);
      KeepsTransitive(s, w, Apply(s, w, actions[0]), ExecuteAll(s, w, actions));
    }
  }

  // ---------------------------------------------------------------------------------------------
  // No call runs twice, when the ids of tool calls are unique in their session

  /** The ids of the calls made in a conversation are all different. */
  ghost predicate UniqueIds(history: seq<Message>) {
    && (forall a, b, c, d :: 0 <= a < b < |history| && c in Calls(history[a].content) && d in Calls(history[b].content) ==> c.id != d.id)
    && (forall a :: 0 <= a < |history| ==> DistinctIds(Calls(history[a].content)))
  }

  ghost predicate DistinctIds(calls: seq<Part>) {
    && AllCalls(calls)
    && forall i, j :: 0 <= i < j < |calls| ==> calls[i].id != calls[j].id
  }

  ghost predicate Unique(w: World) {
    forall session :: session in w.messages ==> UniqueIds(w.messages[session])
  }

  lemma UniqueShrinks(w: World, w': World)
    requires Grows(w, w') && Unique(w')
    ensures Unique(w)
  {
    forall session | session in w.messages ensures UniqueIds(w.messages[session]) {
      assert UniqueIds(w'.messages[session]);
      UniquePrefix(w.messages[session], w'.messages[session]);
    }
  }

  lemma UniquePrefix(a: seq<Message>, b: seq<Message>)
    requires a <= b && UniqueIds(b)
    ensures UniqueIds(a)
  {
    assert forall i :: 0 <= i < |a| ==> a[i] == b[i];
  }

  ghost predicate IsExecuted(e: Event, session: nat, id: string) {
    e.Executed? && e.call.ToolCall? && e.session == session && e.call.id == id
  }

  ghost predicate Once(log: seq<Event>) {
    forall j, k :: 0 <= j < k < |log| && log[k].Executed? && log[k].call.ToolCall? ==>
      !IsExecuted(log[j], log[k].session, log[k].call.id)
  }

  /** Every tool that ran belongs to a turn that has been answered since. */
  ghost predicate Behind(w: World) {
    forall k :: 0 <= k < |w.log| && w.log[k].Executed? ==>
      w.log[k].session in w.messages && w.log[k].turn + 1 < |w.messages[w.log[k].session]|
  }

  ghost predicate NotYet(log: seq<Event>, session: nat, calls: seq<Part>)
    requires AllCalls(calls)
  {
    forall k, i :: 0 <= k < |log| && 0 <= i < |calls| ==> !IsExecuted(log[k], session, calls[i].id)
  }

  ghost predicate OnlyTurn(log: seq<Event>, log': seq<Event>, session: nat, turn: nat) {
    log <= log' && forall k :: |log| <= k < |log'| && log'[k].Executed? ==> log'[k].session == session && log'[k].turn == turn
  }

  lemma OneMoreOnce(w: World, w': World, t: Turn, turn: nat, calls: seq<Part>)
    requires calls != [] && DistinctIds(calls) && Once(w.log) && NotYet(w.log, t.session, calls)
    requires RanOnly(w, w', t, turn, calls[0])
    ensures Once(w'.log) && NotYet(w'.log, t.session, calls[1..]) && OnlyTurn(w.log, w'.log, t.session, turn)
  {
    forall j, k | 0 <= j < k < |w'.log| && w'.log[k].Executed? && w'.log[k].call.ToolCall?
      ensures !IsExecuted(w'.log[j], w'.log[k].session, w'.log[k].call.id)
    {
      assert w'.log[j] == w.log[j];
      if k == |w.log| { assert !IsExecuted(w.log[j], t.session, calls[0].id); }
    }
    forall k, i | 0 <= k < |w'.log| && 0 <= i < |calls[1..]| ensures !IsExecuted(w'.log[k], t.session, calls[1..][i].id) {
      assert calls[1..][i] == calls[i + 1];
      if k < |w.log| { assert !IsExecuted(w.log[k], t.session, calls[i + 1].id); }
    }
  }

  lemma {:induction false} RunCallsOnce(s: Setup, w: World, t: Turn, turn: nat, calls: seq<Part>, decisions: seq<Approvals.Approval>)
    requires DistinctIds(calls) && Once(w.log) && NotYet(w.log, t.session, calls)
    ensures var w1 := RunCalls(s, w, t, turn, calls, decisions).0; Once(w1.log) && OnlyTurn(w.log, w1.log, t.session, turn)
    decreases |calls|
  {
    hide Once, NotYet, RunCall;
    if calls != [] {
      var w1 := RunCall(s, w, t, turn, calls[0], DecisionFor(decisions, calls[0].id)).0;
      RunCallIs(s, w, t, turn, calls[0], DecisionFor(decisions, calls[0].id));
      OneMoreOnce(w, w1, t, turn, calls);
      RunCallsOnce(s, w1, t, turn, calls[1..], decisions);
    }
  }

  /** The calls of the last turn have not run: what ran belongs to earlier turns, whose ids are others. */
  lemma LastTurnNotYet(s: Setup, w: World, t: Turn, turn: nat, calls: seq<Part>)
    requires Consistent(s, w) && Settling(w, t, turn, calls) && Unique(w) && Behind(w)
    ensures DistinctIds(calls) && NotYet(w.log, t.session, calls)
  {
    hide QueueOk, Calls;
    assert UniqueIds(w.messages[t.session]);
    forall k, i | 0 <= k < |w.log| && 0 <= i < |calls| ensures !IsExecuted(w.log[k], t.session, calls[i].id) {
      if w.log[k].Executed? && w.log[k].session == t.session {
        assert ExecutedOk(s, w, k);
        assert w.log[k].call in Calls(w.messages[t.session][w.log[k].turn].content);
        assert calls[i] in calls;
      }
    }
  }

  lemma SettleOnce(s: Setup, w: World, t: Turn, turn: nat, calls: seq<Part>)
    requires Consistent(s, w) && Settling(w, t, turn, calls) && AllCalls(calls)
    requires Unique(w) && Once(w.log) && Behind(w)
    ensures var (w1, settlement) := Settle(s, w, t, turn, calls);
      && Once(w1.log)
      && (if settlement.Ready? then OnlyTurn(w.log, w1.log, t.session, turn) else w1.log == w.log)
  {
    hide Consistent, Settle, RunCalls, Once, OnlyTurn, Decisions;
    SettleIs(s, w, t, turn, calls);
    LastTurnNotYet(s, w, t, turn, calls);
    var (asked, decisions) := Decisions(w, t, calls);
    RunCallsOnce(s, w, t, turn, calls, []);
    RunCallsOnce(s, w.(queue := asked.queue), t, turn, calls, decisions);
  }

  lemma AnsweredBehind(w: World, w': World, t: Turn, turn: nat, m: Message)
    requires Behind(w) && Seated(w, t) && |w.messages[t.session]| == turn + 1
    requires OnlyTurn(w.log, w'.log, t.session, turn) && w'.messages == w.messages
    ensures Behind(Append(w', t.session, m))
  {}

  lemma QuietBehind(w: World, w': World)
    requires Behind(w) && Grows(w, w') && forall k :: |w.log| <= k < |w'.log| ==> !w'.log[k].Executed?
    ensures Behind(w') && (Once(w.log) ==> Once(w'.log))
  {
    forall k | 0 <= k < |w'.log| && w'.log[k].Executed?
      ensures w'.log[k].session in w'.messages && w'.log[k].turn + 1 < |w'.messages[w'.log[k].session]|
    {
      assert w'.log[k] == w.log[k];
    }
    if Once(w.log) {
      forall j, k | 0 <= j < k < |w'.log| && w'.log[k].Executed? && w'.log[k].call.ToolCall?
        ensures !IsExecuted(w'.log[j], w'.log[k].session, w'.log[k].call.id)
      {
        assert w'.log[k] == w.log[k] && w'.log[j] == w.log[j];
      }
    }
  }

  ghost predicate OnceSoFar(w: World) { Once(w.log) && Behind(w) }

  lemma SettledOnce(s: Setup, w: World, t: Turn, turn: nat, calls: seq<Part>)
    requires Consistent(s, w) && Settling(w, t, turn, calls) && AllCalls(calls) && Seated(w, t)
    requires Unique(w) && OnceSoFar(w)
    ensures var (w1, settlement) := Settle(s, w, t, turn, calls);
      if settlement.Ready? then OnceSoFar(Append(w1, t.session, Message(User, settlement.results))) else OnceSoFar(w1)
  {
    hide Consistent, Settle, Once;
    var (w1, settlement) := Settle(s, w, t, turn, calls);
    SettleKeeps(s, w, t, turn, calls);
    SettleOnce(s, w, t, turn, calls);
    if settlement.Ready? {
      AnsweredBehind(w, w1, t, turn, Message(User, settlement.results));
    }
  }

  lemma {:induction false} DriveOnce(s: Setup, w: World, t: Turn, iteration: nat)
    requires Consistent(s, w) && Seated(w, t) && OnceSoFar(w)
    requires Unique(Drive(s, w, t, iteration).0)
    ensures OnceSoFar(Drive(s, w, t, iteration).0)
    decreases t.scope.maxIterations - iteration
  {
    hide Consistent, Grows, Seated, Settle, Settling, Calls, Unique, Once, Behind;
    if iteration < t.scope.maxIterations {
      var end, asked := Drive(s, w, t, iteration).0, Asked(w, t.session);
      AskedKeeps(s, w, t);
      SeatedGrows(w, asked, t);
      QuietBehind(w, asked);
      match s.model(w.modelCalls) {
        case Raises(_) =>
        case Response(content, stop) =>
          var w1 := Append(asked, t.session, Message(Assistant, content));
          AppendKeeps(s, asked, t, Message(Assistant, content));
          SeatedGrows(asked, w1, t);
          QuietBehind(asked, w1);
          if stop == ToolUse && Calls(content) != [] {
            CallsAreCalls(content);
            AnswerIsSettled(asked, t, content);
            AskedIsQuiet(w, t);
            TurnOnce(s, w1, t, |Messages(w, t.session)|, Calls(content), iteration + 1, end);
            var (w2, settlement) := Settle(s, w1, t, |Messages(w, t.session)|, Calls(content));
            if settlement.Ready? {
              DriveOnce(s, Append(w2, t.session, Message(User, settlement.results)), t, iteration + 1);
            }
          }
      }
    }
  }

  /** A turn settled on the way to `end`, and what the loop goes on with. */
  lemma TurnOnce(s: Setup, w: World, t: Turn, turn: nat, calls: seq<Part>, iteration: nat, end: World)
    requires Consistent(s, w) && Settling(w, t, turn, calls) && AllCalls(calls) && Seated(w, t)
    requires OnceSoFar(w) && Unique(end)
    requires var (w1, settlement) := Settle(s, w, t, turn, calls);
      end == if settlement.Ready? then Drive(s, Append(w1, t.session, Message(User, settlement.results)), t, iteration).0 else w1
    ensures var (w1, settlement) := Settle(s, w, t, turn, calls);
      if settlement.Ready? then
        var w2 := Append(w1, t.session, Message(User, settlement.results));
        Consistent(s, w2) && Seated(w2, t) && OnceSoFar(w2)
      else OnceSoFar(end)
  {
    hide Consistent, Grows, Seated, Settle, Settling, Unique, Once, Behind, Drive, Append;
    GrowsReflexive(w);
    SettledDrives(s, w, w, t, turn, calls);
    var (w1, settlement) := Settle(s, w, t, turn, calls);
    if settlement.Ready? {
      var w2 := Append(w1, t.session, Message(User, settlement.results));
      DriveKeeps(s, w2, t, iteration);
      GrowsTransitive(w, w2, end);
    }
    UniqueShrinks(w, end);
    SettledOnce(s, w, t, turn, calls);
  }

  lemma RunOnce(s: Setup, w: World, tenant: string, session: nat, input: string, moduleId: Option<string>)
    requires Consistent(s, w) && OnceSoFar(w)
    requires Unique(Run(s, w, tenant, session, input, moduleId).0)
    ensures OnceSoFar(Run(s, w, tenant, session, input, moduleId).0)
  {
    hide LogOk, QueueOk, Drive, Unique, Once, Behind;
    var scope := ScopeOf(s, moduleId);
    if scope.Some? && Visible(w, tenant, session) {
      var t, m := Turn(tenant, session, scope.value), Message(User, [Text(input)]);
      var w1 := Append(w, session, m);
      AppendKeeps(s, w, t, m);
      QuietBehind(w, w1);
      DriveOnce(s, w1, t, 0);
    }
  }

  lemma ResumeOnce(s: Setup, w: World, tenant: string, session: nat, moduleId: Option<string>)
    requires Consistent(s, w) && OnceSoFar(w)
    requires Unique(Resume(s, w, tenant, session, moduleId).0)
    ensures OnceSoFar(Resume(s, w, tenant, session, moduleId).0)
  {
    hide LogOk, QueueOk, Drive, Append, Settle, Unique, Once, Behind;
    var scope, history := ScopeOf(s, moduleId), Messages(w, session);
    if scope.Some? && Visible(w, tenant, session) && HeldCalls(history) != [] {
      var t := Turn(tenant, session, scope.value);
      CallsAreCalls(history[|history| - 1].content);
      TurnOnce(s, w, t, |history| - 1, HeldCalls(history), 0, Resume(s, w, tenant, session, moduleId).0);
      var (w1, settlement) := Settle(s, w, t, |history| - 1, HeldCalls(history));
      if settlement.Ready? {
        DriveOnce(s, Append(w1, session, Message(User, settlement.results)), t, 0);
      }
    }
  }

  lemma ApplyOnce(s: Setup, w: World, a: Action)
    requires Consistent(s, w) && OnceSoFar(w) && Unique(Apply(s, w, a))
    ensures OnceSoFar(Apply(s, w, a))
  {
    hide Run, Resume, LogOk, QueueOk, Unique;
    match a {
      case DoOpen(tenant) => QuietBehind(w, Open(w, tenant));
      case DoRun(tenant, session, input, moduleId) => RunOnce(s, w, tenant, session, input, moduleId);
      case DoResume(tenant, session, moduleId) => ResumeOnce(s, w, tenant, session, moduleId);
      case DoDecide(tenant, id, status, who, reason) =>
        if status != Approvals.Pending {
          DecideKeeps(s, w, tenant, id, status, who, reason);
          QuietBehind(w, DecideOn(w, tenant, id, status, who, reason));
        }
    }
  }

  lemma {:induction false} ScheduleOnce(s: Setup, w: World, actions: seq<Action>)
    requires Consistent(s, w) && OnceSoFar(w) && Unique(ExecuteAll(s, w, actions))
    ensures OnceSoFar(ExecuteAll(s, w, actions))
    decreases |actions|
  {
    hide Consistent, Grows, Apply, Unique, Once, Behind;
    if actions != [] {
      var w1 := Apply(s, w, actions[0]);
      ApplyKeeps(s, w, actions[0]);
      ScheduleKeeps(s, w1, actions[1..]);
      UniqueShrinks(w1, ExecuteAll(s, w1, actions[1..]));
      ApplyOnce(s, w, actions[0]);
      ScheduleOnce(s, w1, actions[1..]);
    }
  }

  // ---------------------------------------------------------------------------------------------
  // The theorems

  lemma NewIsConsistent(s: Setup)
    ensures Consistent(s, NEW) && OnceSoFar(NEW)
  {}

  /**
   * A tool runs only when it may. Whatever model and tools do, in every sequence of turns, resumptions and
   * decisions: a gated tool runs only with a queue wired and after its own call was approved, and as long
   * as a gated call of the turn is undecided nothing of the turn runs, gated or not.
   */
  lemma ToolsRunOnlyWhenAllowed(s: Setup, actions: seq<Action>, k: nat)
    requires k < |ExecuteAll(s, NEW, actions).log| && ExecuteAll(s, NEW, actions).log[k].Executed?
    ensures var w := ExecuteAll(s, NEW, actions);
      var e := w.log[k];
      && e.call.ToolCall? && Made(w, e.session, e.turn, e.call)
      && (Gated(e.scope, e.call.name) ==> s.hasQueue && ApprovedBefore(w, k, e.session, e.call.id))
      && (s.hasQueue ==>
            forall other :: other in Calls(w.messages[e.session][e.turn].content) && Gated(e.scope, other.name) ==>
              DecidedBefore(w, k, e.session, other.id))
  {
    hide ExecuteAll, QueueOk, Made, ApprovedBefore, DecidedBefore;
    NewIsConsistent(s);
    ScheduleKeeps(s, NEW, actions);
    assert ExecutedOk(s, ExecuteAll(s, NEW, actions), k);
  }

  /** With unique ids, no call's tool runs twice, and the row that let it run holds that very call: its name and its input. */
  lemma EachCallRunsOnce(s: Setup, actions: seq<Action>, j: nat, k: nat)
    requires Unique(ExecuteAll(s, NEW, actions))
    requires j < |ExecuteAll(s, NEW, actions).log| && k < |ExecuteAll(s, NEW, actions).log|
    requires ExecuteAll(s, NEW, actions).log[j].Executed? && ExecuteAll(s, NEW, actions).log[k].Executed?
    ensures var w := ExecuteAll(s, NEW, actions);
      var e, f := w.log[j], w.log[k];
      && e.call.ToolCall? && f.call.ToolCall?
      && (e.session == f.session && e.call.id == f.call.id ==> j == k)
      && forall q :: 0 <= q < |w.queue.rows| && w.queue.rows[q].session == f.session && w.queue.rows[q].toolCallId == f.call.id ==>
           w.queue.rows[q].toolName == f.call.name && w.queue.rows[q].input == f.call.input
  {
    hide ExecuteAll, QueueOk, RowOk, Unique, Made, Once, Behind;
    var w := ExecuteAll(s, NEW, actions);
    NewIsConsistent(s);
    ScheduleKeeps(s, NEW, actions);
    ScheduleOnce(s, NEW, actions);
    assert ExecutedOk(s, w, j) && ExecutedOk(s, w, k);
    RanOnce(w, j, k);
    forall q | 0 <= q < |w.queue.rows| && w.queue.rows[q].session == w.log[k].session && w.queue.rows[q].toolCallId == w.log[k].call.id
      ensures w.queue.rows[q].toolName == w.log[k].call.name && w.queue.rows[q].input == w.log[k].call.input
    {
      assert RowOk(w, w.queue.rows[q]) by { QueueRows(w, q); }
      RowIsCall(w, w.queue.rows[q], w.log[k].turn, w.log[k].call);
    }
  }

  lemma QueueRows(w: World, q: nat)
    requires QueueOk(w) && q < |w.queue.rows|
    ensures RowOk(w, w.queue.rows[q])
  {}

  lemma RanOnce(w: World, j: nat, k: nat)
    requires Once(w.log) && j < |w.log| && k < |w.log|
    requires w.log[j].Executed? && w.log[k].Executed? && w.log[j].call.ToolCall? && w.log[k].call.ToolCall?
    ensures w.log[j].session == w.log[k].session && w.log[j].call.id == w.log[k].call.id ==> j == k
  {
    if j < k {
      assert !IsExecuted(w.log[j], w.log[k].session, w.log[k].call.id);
    } else if k < j {
      assert !IsExecuted(w.log[k], w.log[j].session, w.log[j].call.id);
    }
  }

  /** Two calls of a session with the same id are the same call. */
  lemma RowIsCall(w: World, a: Approvals.Approval, turn: nat, call: Part)
    requires Unique(w) && RowOk(w, a) && call.ToolCall? && Made(w, a.session, turn, call) && call.id == a.toolCallId
    ensures a.toolName == call.name && a.input == call.input
  {
    hide Calls;
    var held := ToolCall(a.toolCallId, a.toolName, a.input);
    var other: nat :| Made(w, a.session, other, held);
    assert UniqueIds(w.messages[a.session]);
    if other == turn {
      var calls := Calls(w.messages[a.session][turn].content);
      var i :| 0 <= i < |calls| && calls[i] == held;
      var n :| 0 <= n < |calls| && calls[n] == call;
      assert i == n;
    }
  }

  lemma {:induction false} ExecuteAppend(s: Setup, w: World, a: seq<Action>, b: seq<Action>)
    ensures ExecuteAll(s, w, a + b) == ExecuteAll(s, ExecuteAll(s, w, a), b)
    decreases |a|
  {
    hide Apply;
    if a == [] {
      assert a + b == b;
    } else {
      assert (a + b)[1..] == a[1..] + b;
      ExecuteAppend(s, Apply(s, w, a[0]), a[1..], b);
    }
  }

  /** A decision taken is never changed, whatever is called later. */
  lemma DecisionsAreFinal(s: Setup, before: seq<Action>, after: seq<Action>, q: nat)
    requires var w := ExecuteAll(s, NEW, before); q < |w.queue.rows| && w.queue.rows[q].status != Approvals.Pending
    ensures var w, w' := ExecuteAll(s, NEW, before), ExecuteAll(s, NEW, before + after);
      q < |w'.queue.rows| && w'.queue.rows[q] == w.queue.rows[q]
  {
    hide LogOk, QueueOk;
    NewIsConsistent(s);
    ScheduleKeeps(s, NEW, before);
    ScheduleKeeps(s, ExecuteAll(s, NEW, before), after);
    ExecuteAppend(s, NEW, before, after);
  }

  // ---------------------------------------------------------------------------------------------
  // A held call, resumed under another scope

  lemma {:induction false} RunCallsLog(s: Setup, w: World, t: Turn, turn: nat, calls: seq<Part>, decisions: seq<Approvals.Approval>)
    requires AllCalls(calls)
    ensures w.log <= RunCalls(s, w, t, turn, calls, decisions).0.log
    decreases |calls|
  {
    hide RunCall, DecisionFor;
    if calls != [] {
      RunCallIs(s, w, t, turn, calls[0], DecisionFor(decisions, calls[0].id));
      var w1 := RunCall(s, w, t, turn, calls[0], DecisionFor(decisions, calls[0].id)).0;
      RunCallsLog(s, w1, t, turn, calls[1..], decisions);
    }
  }

  lemma SettleLog(s: Setup, w: World, t: Turn, turn: nat, calls: seq<Part>)
    requires AllCalls(calls)
    ensures w.log <= Settle(s, w, t, turn, calls).0.log
  {
    hide RunCalls, Approvals.RequestAll, Approvals.RowsFor, PendingOf, Undecided, GatedCalls;
    SettleIs(s, w, t, turn, calls);
    var (asked, decisions) := Decisions(w, t, calls);
    RunCallsLog(s, w, t, turn, calls, []);
    RunCallsLog(s, w.(queue := asked.queue), t, turn, calls, decisions);
  }

  /** The loop asks the model before anything else. */
  lemma {:induction false} DriveAsksFirst(s: Setup, w: World, t: Turn, iteration: nat)
    ensures var w1 := Drive(s, w, t, iteration).0;
      w.log <= w1.log && (|w1.log| > |w.log| ==> w1.log[|w.log|].Sent?)
    decreases t.scope.maxIterations - iteration
  {
    hide Settle, Calls;
    if iteration < t.scope.maxIterations {
      match s.model(w.modelCalls) {
        case Raises(_) =>
        case Response(content, stop) =>
          var asked := Asked(w, t.session);
          var w1 := Append(asked, t.session, Message(Assistant, content));
          if stop == ToolUse && Calls(content) != [] {
            CallsAreCalls(content);
            SettleLog(s, w1, t, |Messages(w, t.session)|, Calls(content));
            var (w2, settlement) := Settle(s, w1, t, |Messages(w, t.session)|, Calls(content));
            if settlement.Ready? {
              DriveAsksFirst(s, Append(w2, t.session, Message(User, settlement.results)), t, iteration + 1);
            }
          }
      }
    }
  }

  /** No row of the queue approves this call of the session. */
  ghost predicate Unapproved(q: Approvals.Queue, tenant: string, session: nat, id: string) {
    forall a :: a in q.rows && a.tenant == tenant && a.session == session && a.toolCallId == id ==> a.status != Approvals.Approved
  }

  /** The tool is known to the scope, which does not gate it. */
  predicate Ungated(scope: Scope, name: string) { name in scope.tools && !scope.tools[name] }

  lemma NoneApproves(w: World, t: Turn, calls: seq<Part>, call: Part)
    requires AllCalls(calls) && call in calls && call.ToolCall? && Unapproved(w.queue, t.tenant, t.session, call.id)
    ensures var decision := DecisionFor(Decisions(w, t, calls).1, call.id);
      decision.Some? ==> decision.value.status != Approvals.Approved
  {
    hide Approvals.RequestAll;
    var (asked, decisions) := Decisions(w, t, calls);
    var gated := GatedCalls(t.scope, calls);
    Approvals.RequestAppends(w.queue, RequestsFor(t, Undecided(gated, Approvals.RowsFor(w.queue, t.tenant, t.session, Ids(gated)))));
    if DecisionFor(decisions, call.id).Some? { DecisionIsRow(decisions, call.id); }
  }

  lemma OneCallRuns(s: Setup, w: World, t: Turn, turn: nat, call: Part, decisions: seq<Approvals.Approval>)
    requires call.ToolCall?
    ensures RunCalls(s, w, t, turn, [call], decisions).0 == RunCall(s, w, t, turn, call, DecisionFor(decisions, call.id)).0
  {
    hide RunCall, DecisionFor;
    var w1 := RunCall(s, w, t, turn, call, DecisionFor(decisions, call.id)).0;
    assert [call][1..] == [];
    assert RunCalls(s, w1, t, turn, [call][1..], decisions) == (w1, []);
  }

  lemma UngatedIsNotAsked(scope: Scope, call: Part)
    requires call.ToolCall?
    ensures GatedCalls(scope, [call]) == if Gated(scope, call.name) then [call] else []
  {
    FilterOne((c: Part) => c.ToolCall? && Gated(scope, c.name), call);
  }

  lemma SettledUnapproved(s: Setup, w: World, t: Turn, turn: nat, call: Part)
    requires call.ToolCall? && Unapproved(w.queue, t.tenant, t.session, call.id)
    ensures var runs := Ungated(t.scope, call.name) && !s.tool(w.toolCalls).InvalidInput?;
      Settle(s, w, t, turn, [call]).0.log == w.log + if runs then [Executed(t.session, turn, call, t.scope, w.toolCalls)] else []
  {
    hide RunCalls, RunCall, DecisionFor, PendingOf, GatedCalls, Settle, Decisions, Unapproved, Approvals.RequestAll;
    SettleIs(s, w, t, turn, [call]);
    UngatedIsNotAsked(t.scope, call);
    NoneApproves(w, t, [call], call);
    var (asked, decisions) := Decisions(w, t, [call]);
    OneCallRuns(s, w, t, turn, call, []);
    OneCallRuns(s, w.(queue := asked.queue), t, turn, call, decisions);
    CallRunsExactlyWhenAllowed(s, w, t, turn, call, DecisionFor([], call.id));
    CallRunsExactlyWhenAllowed(s, w.(queue := asked.queue), t, turn, call, DecisionFor(decisions, call.id));
    assert DecisionFor([], call.id) == None by { NoDecision(call.id); }
    assert w.log + [] == w.log;
  }

  lemma NoDecision(id: string)
    ensures DecisionFor([], id) == None
  {}

  /**
   * A call a session is paused on and that nobody approved is run by a resumption exactly when the scope that is
   * named then knows its tool and does not gate it, and the tool takes the input: nothing keeps the scope the
   * call was held under.
   */
  lemma HeldCallRunsUnapprovedIff(s: Setup, w: World, tenant: string, session: nat, moduleId: Option<string>, call: Part)
    requires Visible(w, tenant, session) && HeldCalls(Messages(w, session)) == [call] && call.ToolCall?
    requires Unapproved(w.queue, tenant, session, call.id)
    ensures var w1, scope := Resume(s, w, tenant, session, moduleId).0, ScopeOf(s, moduleId);
      && w.log <= w1.log
      && (|w1.log| > |w.log| && w1.log[|w.log|].Executed? <==>
            scope.Some? && Ungated(scope.value, call.name) && !s.tool(w.toolCalls).InvalidInput?)
      && (|w1.log| > |w.log| && w1.log[|w.log|].Executed? ==>
            w1.log[|w.log|] == Executed(session, |Messages(w, session)| - 1, call, scope.value, w.toolCalls))
  {
    hide Settle, Drive, Unapproved, HeldCalls, Ungated;
    var scope, history := ScopeOf(s, moduleId), Messages(w, session);
    assert history != [] by { HeldIsSomething(history); }
    if scope.Some? {
      var t := Turn(tenant, session, scope.value);
      SettledUnapproved(s, w, t, |history| - 1, call);
      var (w1, settlement) := Settle(s, w, t, |history| - 1, [call]);
      if settlement.Ready? {
        DriveAsksFirst(s, Append(w1, session, Message(User, settlement.results)), t, 0);
      }
    }
  }

  lemma HeldIsSomething(history: seq<Message>)
    requires HeldCalls(history) != []
    ensures history != []
  {}

  // With several calls in the turn

  /** Every call of the turn that the scope gates was decided. */
  ghost predicate AllDecided(q: Approvals.Queue, t: Turn, calls: seq<Part>) {
    forall c :: c in calls && c.ToolCall? && Gated(t.scope, c.name) ==> HasDecision(q, t, c.id)
  }

  ghost predicate HasDecision(q: Approvals.Queue, t: Turn, id: string) {
    exists a :: a in q.rows && a.tenant == t.tenant && a.session == t.session && a.toolCallId == id && a.status != Approvals.Pending
  }

  /** What a settlement adds to the log was allowed to run. */
  lemma {:induction false} RunCallsRan(s: Setup, w: World, t: Turn, turn: nat, calls: seq<Part>, decisions: seq<Approvals.Approval>, k: nat)
    requires AllCalls(calls)
    requires |w.log| <= k < |RunCalls(s, w, t, turn, calls, decisions).0.log|
    ensures var e := RunCalls(s, w, t, turn, calls, decisions).0.log[k];
      && e.Executed? && e.call in calls && e.call.ToolCall? && e.call.name in t.scope.tools
      && (Gated(t.scope, e.call.name) ==>
            DecisionFor(decisions, e.call.id).Some? && DecisionFor(decisions, e.call.id).value.status == Approvals.Approved)
    decreases |calls|
  {
    hide RunCall, DecisionFor;
    assert calls != [] by { NothingRuns(s, w, t, turn, calls, decisions); }
    var w1 := RunCall(s, w, t, turn, calls[0], DecisionFor(decisions, calls[0].id)).0;
    RunCallIs(s, w, t, turn, calls[0], DecisionFor(decisions, calls[0].id));
    RunCallsLog(s, w1, t, turn, calls[1..], decisions);
    if k >= |w1.log| {
      RunCallsRan(s, w1, t, turn, calls[1..], decisions, k);
    }
  }

  lemma NothingRuns(s: Setup, w: World, t: Turn, turn: nat, calls: seq<Part>, decisions: seq<Approvals.Approval>)
    requires AllCalls(calls) && RunCalls(s, w, t, turn, calls, decisions).0 != w
    ensures calls != []
  {}

  /** The call is run between the two logs. */
  ghost predicate Adds(before: seq<Event>, after: seq<Event>, t: Turn, turn: nat, call: Part) {
    exists k :: |before| <= k < |after| && Runs(after[k], t, turn, call)
  }

  predicate Runs(e: Event, t: Turn, turn: nat, call: Part) {
    e.Executed? && e.session == t.session && e.turn == turn && e.call == call && e.scope == t.scope
  }

  /** Tools that take any input. */
  function Obliging(): nat -> ToolOutcome { (_: nat) => Returns("", false) }

  lemma {:induction false} UngatedRuns(s: Setup, w: World, t: Turn, turn: nat, calls: seq<Part>, decisions: seq<Approvals.Approval>, call: Part)
    requires AllCalls(calls) && call in calls && Ungated(t.scope, call.name) && s.tool == Obliging()
    ensures Adds(w.log, RunCalls(s, w, t, turn, calls, decisions).0.log, t, turn, call)
    decreases |calls|
  {
    hide RunCall, DecisionFor;
    var approval := DecisionFor(decisions, calls[0].id);
    var w1 := RunCall(s, w, t, turn, calls[0], approval).0;
    CallRunsExactlyWhenAllowed(s, w, t, turn, calls[0], approval);
    RunCallsLog(s, w1, t, turn, calls[1..], decisions);
    var end := RunCalls(s, w1, t, turn, calls[1..], decisions).0.log;
    if calls[0] == call {
      assert w1.log == w.log + [Executed(t.session, turn, call, t.scope, w.toolCalls)];
      assert Runs(end[|w.log|], t, turn, call);
    } else {
      UngatedRuns(s, w1, t, turn, calls[1..], decisions, call);
      var k :| |w1.log| <= k < |end| && Runs(end[k], t, turn, call);
    }
  }

  lemma DecidedNeedsNobody(w: World, t: Turn, calls: seq<Part>)
    requires AllCalls(calls) && Approvals.Sound(w.queue) && AllDecided(w.queue, t, calls)
    ensures var (asked, decisions) := Decisions(w, t, calls); asked.refused.None? && PendingOf(decisions) == []
  {
    var gated := GatedCalls(t.scope, calls);
    var existing := Approvals.RowsFor(w.queue, t.tenant, t.session, Ids(gated));
    forall c | c in calls && Gated(t.scope, c.name) ensures DecisionFor(existing, c.id).Some? {
      assert c in gated && HasDecision(w.queue, t, c.id);
      DecisionForNone(existing, c.id);
    }
    assert Undecided(gated, existing) == [] by {
      FilterNone((c: Part) => c.ToolCall? && DecisionFor(existing, c.id).None?, gated);
    }
    assert Decisions(w, t, calls).1 == existing + [] == existing;
    forall a | a in existing ensures a.status != Approvals.Pending {
      ExistingIsDecided(w.queue, t, calls, gated, a);
    }
    FilterNone((a: Approvals.Approval) => a.status == Approvals.Pending, existing);
  }

  lemma ExistingIsDecided(q: Approvals.Queue, t: Turn, calls: seq<Part>, gated: seq<Part>, a: Approvals.Approval)
    requires Approvals.Sound(q) && AllDecided(q, t, calls) && gated == GatedCalls(t.scope, calls)
    requires a in Approvals.RowsFor(q, t.tenant, t.session, Ids(gated))
    ensures a.status != Approvals.Pending
  {
    var c :| c in gated && c.ToolCall? && c.id == a.toolCallId;
    assert HasDecision(q, t, c.id);
    var b :| b in q.rows && b.tenant == t.tenant && b.session == t.session && b.toolCallId == c.id && b.status != Approvals.Pending;
    var i :| 0 <= i < |q.rows| && q.rows[i] == a;
    var j :| 0 <= j < |q.rows| && q.rows[j] == b;
    assert i == j;
  }

  lemma RanIsDecided(w: World, t: Turn, turn: nat, calls: seq<Part>, c: Part)
    requires QueueOk(w) && Settling(w, t, turn, calls)
    requires Decisions(w, t, calls).0.refused.None? && PendingOf(Decisions(w, t, calls).1) == []
    requires c in calls && c.ToolCall? && Gated(t.scope, c.name)
    ensures HasDecision(w.queue, t, c.id)
  {
    hide QueueOk, Approvals.RequestAll, Settling;
    var (asked, decisions) := Decisions(w, t, calls);
    var gated := GatedCalls(t.scope, calls);
    var existing := Approvals.RowsFor(w.queue, t.tenant, t.session, Ids(gated));
    GatedIsDecided(w, t, turn, calls, c);
    DecisionIsRow(decisions, c.id);
    var d := DecisionFor(decisions, c.id).value;
    assert d !in PendingOf(decisions);
    Approvals.RequestAppends(w.queue, RequestsFor(t, Undecided(gated, existing)));
    assert d in existing;
  }

  ghost predicate RunsIt(s: Setup, w: World, t: Turn, turn: nat, calls: seq<Part>, call: Part)
    requires AllCalls(calls)
  {
    Adds(w.log, Settle(s, w, t, turn, calls).0.log, t, turn, call)
  }

  /**
   * A call of a held turn that nobody approved can be run by settling the turn exactly when the scope it is
   * settled under knows its tool and does not gate it, and every call of the turn which that scope gates was
   * decided, if there is a queue.
   */
  lemma UnapprovedCallCanRunIff(s: Setup, w: World, t: Turn, turn: nat, calls: seq<Part>, call: Part)
    requires QueueOk(w) && Settling(w, t, turn, calls) && AllCalls(calls) && call in calls
    requires Unapproved(w.queue, t.tenant, t.session, call.id)
    ensures (exists tool :: RunsIt(s.(tool := tool), w, t, turn, calls, call)) <==>
      Ungated(t.scope, call.name) && (!s.hasQueue || AllDecided(w.queue, t, calls))
  {
    hide QueueOk, Settling, RunsIt, Unapproved, AllDecided;
    if tool :| RunsIt(s.(tool := tool), w, t, turn, calls, call) {
      RanUnapproved(s.(tool := tool), w, t, turn, calls, call);
    }
    if Ungated(t.scope, call.name) && (!s.hasQueue || AllDecided(w.queue, t, calls)) {
      ClearedRuns(s.(tool := Obliging()), w, t, turn, calls, call);
    }
  }

  lemma RanUnapproved(s: Setup, w: World, t: Turn, turn: nat, calls: seq<Part>, call: Part)
    requires QueueOk(w) && Settling(w, t, turn, calls) && AllCalls(calls) && call in calls
    requires Unapproved(w.queue, t.tenant, t.session, call.id) && RunsIt(s, w, t, turn, calls, call)
    ensures Ungated(t.scope, call.name) && (!s.hasQueue || AllDecided(w.queue, t, calls))
  {
    hide QueueOk, Settling, Settle, RunCalls, DecisionFor, Decisions, Unapproved, PendingOf, GatedCalls;
    var (asked, decisions) := Decisions(w, t, calls);
    SettleIs(s, w, t, turn, calls);
    var end := Settle(s, w, t, turn, calls).0.log;
    var k :| |w.log| <= k < |end| && Runs(end[k], t, turn, call);
    if GatedCalls(t.scope, calls) == [] || !s.hasQueue {
      RunCallsRan(s, w, t, turn, calls, [], k);
      NoDecision(call.id);
      if GatedCalls(t.scope, calls) == [] { NoneGated(t.scope, calls); }
    } else {
      RunCallsRan(s, w.(queue := asked.queue), t, turn, calls, decisions, k);
      NoneApproves(w, t, calls, call);
      forall c | c in calls && c.ToolCall? && Gated(t.scope, c.name) ensures HasDecision(w.queue, t, c.id) {
        RanIsDecided(w, t, turn, calls, c);
      }
    }
  }

  lemma NoneGated(scope: Scope, calls: seq<Part>)
    requires AllCalls(calls) && GatedCalls(scope, calls) == []
    ensures forall c :: c in calls ==> !Gated(scope, c.name)
  {
    forall c | c in calls ensures !Gated(scope, c.name) {
      assert c !in GatedCalls(scope, calls);
    }
  }

  lemma ClearedRuns(s: Setup, w: World, t: Turn, turn: nat, calls: seq<Part>, call: Part)
    requires QueueOk(w) && AllCalls(calls) && call in calls && s.tool == Obliging()
    requires Ungated(t.scope, call.name) && (!s.hasQueue || AllDecided(w.queue, t, calls))
    ensures RunsIt(s, w, t, turn, calls, call)
  {
    hide Settle, RunCalls, Decisions, AllDecided, PendingOf, GatedCalls, Approvals.Sound, Obliging;
    var (asked, decisions) := Decisions(w, t, calls);
    SettleIs(s, w, t, turn, calls);
    UngatedRuns(s, w, t, turn, calls, [], call);
    if s.hasQueue {
      DecidedNeedsNobody(w, t, calls);
      UngatedRuns(s, w.(queue := asked.queue), t, turn, calls, decisions, call);
    }
  }

  const SEND := ToolCall("c", "send", "x")

  /** The fallback gates the tool, a module does not; the model asks for the tool once. */
  function TwoScopes(): Setup {
    Setup(Scope(map["send" := true], 3), Some(map["m" := Scope(map["send" := false], 3)]), true,
      (n: nat) => if n == 0 then Response([SEND], ToolUse) else Response([Text("done")], EndTurn),
      (_: nat) => Returns("sent", false))
  }

  function AskedFor(): Approvals.Approval { Approvals.NewRow(1, Approvals.Request("t", 0, "c", "send", "x")) }

  lemma SendIsHeld(w: World, turn: nat)
    requires w.queue == Approvals.EMPTY
    ensures var t := Turn("t", 0, TwoScopes().fallback);
      Settle(TwoScopes(), w, t, turn, [SEND]) == (w.(queue := Approvals.Queue([AskedFor()], 1)), Waiting([AskedFor()]))
  {
    hide RunCalls;
    var t := Turn("t", 0, TwoScopes().fallback);
    UngatedIsNotAsked(t.scope, SEND);
    var existing := Approvals.RowsFor(w.queue, "t", 0, Ids([SEND]));
    assert existing == [];
    assert Undecided([SEND], []) == [SEND] by { FilterOne((c: Part) => c.ToolCall? && DecisionFor([], c.id).None?, SEND); }
    var requests := RequestsFor(t, [SEND]);
    assert requests == [RequestFor(t, SEND)];
    assert requests[1..] == [];
    assert w.queue.rows + [AskedFor()] == [AskedFor()];
    assert Approvals.RequestAll(Approvals.Queue([AskedFor()], 1), requests[1..]) == Approvals.Requested(Approvals.Queue([AskedFor()], 1), [], None);
    assert [] + [AskedFor()] == [AskedFor()] == [AskedFor()] + [];
    FilterOne((a: Approvals.Approval) => a.status == Approvals.Pending, AskedFor());
    SettleIs(TwoScopes(), w, t, turn, [SEND]);
  }

  lemma SendIsTheOnlyCall()
    ensures Calls([SEND]) == [SEND]
  {
    FilterOne((p: Part) => p.ToolCall?, SEND);
  }

  /** The turn pauses on the call, with its row pending. */
  lemma RunPauses()
    ensures var w := Run(TwoScopes(), Open(NEW, "t"), "t", 0, "hi", None).0;
      && Visible(w, "t", 0) && HeldCalls(Messages(w, 0)) == [SEND] && |Messages(w, 0)| == 2
      && w.queue == Approvals.Queue([AskedFor()], 1) && w.toolCalls == 0 && (forall k :: 0 <= k < |w.log| ==> !w.log[k].Executed?)
  {
    hide Settle, Calls;
    var s, t := TwoScopes(), Turn("t", 0, TwoScopes().fallback);
    var w0 := Append(Open(NEW, "t"), 0, Message(User, [Text("hi")]));
    SendIsTheOnlyCall();
    SendIsHeld(Append(Asked(w0, 0), 0, Message(Assistant, [SEND])), 1);
  }

  /** A call the queue still holds undecided is run, by naming a module that does not gate its tool. */
  lemma AnotherScopeRunsIt()
    ensures var s := TwoScopes();
      var w := ExecuteAll(s, NEW, [DoOpen("t"), DoRun("t", 0, "hi", None), DoResume("t", 0, Some("m"))]);
      var held := ExecuteAll(s, NEW, [DoOpen("t"), DoRun("t", 0, "hi", None)]);
      && held.queue.rows == [AskedFor()] && AskedFor().status == Approvals.Pending
      && (forall k :: 0 <= k < |held.log| ==> !held.log[k].Executed?)
      && |w.log| > |held.log| && w.log[|held.log|] == Executed(0, 1, SEND, s.modules.value["m"], 0)
  {
    hide Run, Resume, HeldCalls;
    var s := TwoScopes();
    var open, run, resume := DoOpen("t"), DoRun("t", 0, "hi", None), DoResume("t", 0, Some("m"));
    RunPauses();
    var w1 := Open(NEW, "t");
    var held := Run(s, w1, "t", 0, "hi", None).0;
    HeldCallRunsUnapprovedIff(s, held, "t", 0, Some("m"), SEND);
    assert [open, run, resume] == [open, run] + [resume];
    ExecuteAppend(s, NEW, [open, run], [resume]);
    assert [open, run][1..] == [run] && [run][1..] == [] && [resume][1..] == [];
    assert ExecuteAll(s, w1, [run]) == held;
    assert ExecuteAll(s, held, [resume]) == Resume(s, held, "t", 0, Some("m")).0;
  }
}
