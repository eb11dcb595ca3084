/**
 * What a conversation holds against what was said: the words of whoever ran the turn, the answers of the model, and
 * for each call what its tool gave back.
 */
module Transcript {
  import opened Basics
  import Approvals
  import opened Agent
  import Safety = AgentSafety

  // ---------------------------------------------------------------------------------------------
  // The model's part

  /** How many requests went out before this one: which of the model's outcomes it came to. */
  function SentBefore(log: seq<Event>, k: nat): nat
    requires k <= |log|
  {
    if k == 0 then 0 else SentBefore(log, k - 1) + if log[k - 1].Sent? then 1 else 0
  }

  function History(w: World, session: nat): seq<Message> { if session in w.messages then w.messages[session] else [] }

  /** What the model answered a request is stored right behind the conversation it was sent. */
  ghost predicate Stored(s: Setup, w: World, k: nat)
    requires k < |w.log| && w.log[k].Sent?
  {
    var answer := s.model(SentBefore(w.log, k));
    answer.Response? ==> w.log[k].history + [Message(Assistant, answer.content)] <= History(w, w.log[k].session)
  }

  /** A message of the assistant's is what the model answered to the conversation before it. */
  ghost predicate Said(s: Setup, w: World, session: nat, p: nat)
    requires session in w.messages && p < |w.messages[session]|
  {
    var m := w.messages[session][p];
    m.role == Assistant ==> exists k: nat :: SaidAt(s, w.log, k, session, w.messages[session][..p], m.content)
  }

  ghost predicate SaidAt(s: Setup, log: seq<Event>, k: nat, session: nat, before: seq<Message>, content: seq<Part>) {
    && k < |log| && log[k] == Sent(session, before)
    && s.model(SentBefore(log, k)).Response? && s.model(SentBefore(log, k)).content == content
  }

  // ---------------------------------------------------------------------------------------------
  // The tools' part

  predicate IsRunOf(e: Event, session: nat, turn: nat, call: Part) {
    e.Executed? && e.session == session && e.turn == turn && e.call == call
  }

  /** A result carries what the tool gave back. */
  ghost predicate Carries(o: ToolOutcome, r: Part) {
    match o
    case Returns(content, isError) => r.ToolResult? && r.content == content && r.isError == isError
    case Throws(message) => r.ToolResult? && r.isError && Holds(r.content, message)
    case InvalidInput(_) => false
  }

  ghost predicate Holds(text: string, part: string) {
    exists a, b :: text == a + part + b
  }

  /** The result of a call: what its tool gave back, or an error. */
  ghost predicate Came(s: Setup, log: seq<Event>, session: nat, turn: nat, call: Part, r: Part) {
    && call.ToolCall? && r.ToolResult? && r.callId == call.id
    && (r.isError || exists k: nat :: k < |log| && IsRunOf(log[k], session, turn, call) && Carries(s.tool(log[k].nth), r))
  }

  /** One result for each call of the turn before, in their order. */
  ghost predicate Results(s: Setup, log: seq<Event>, session: nat, turn: nat, asked: Message, told: Message) {
    var calls := Calls(asked.content);
    && asked.role == Assistant && |told.content| == |calls|
    && forall i :: 0 <= i < |calls| ==> Came(s, log, session, turn, calls[i], told.content[i])
  }

  predicate IsInput(m: Message) { m.role == User && |m.content| == 1 && m.content[0].Text? }

  /** A message that is not the assistant's is somebody's words, or the results of the turn before. */
  ghost predicate Told(s: Setup, w: World, session: nat, p: nat)
    requires session in w.messages && p < |w.messages[session]|
  {
    var m := w.messages[session][p];
    m.role == User ==> IsInput(m) || (p > 0 && Results(s, w.log, session, p - 1, w.messages[session][p - 1], m))
  }

  /** Whatever ran is told: its result stands in the message behind the turn, at the place of its call. */
  ghost predicate Reported(s: Setup, w: World, k: nat)
    requires k < |w.log| && w.log[k].Executed?
  {
    var e, history := w.log[k], History(w, w.log[k].session);
    e.turn + 1 < |history| && ReportedIn(s, e, history[e.turn], history[e.turn + 1])
  }

  ghost predicate ReportedIn(s: Setup, e: Event, asked: Message, told: Message)
    requires e.Executed?
  {
    exists i: nat :: ReportedAt(s, e, asked, told, i)
  }

  ghost predicate ReportedAt(s: Setup, e: Event, asked: Message, told: Message, i: nat)
    requires e.Executed?
  {
    i < |Calls(asked.content)| && i < |told.content| && Calls(asked.content)[i] == e.call && Carries(s.tool(e.nth), told.content[i])
  }

  ghost predicate Faithful(s: Setup, w: World) {
    && w.modelCalls == SentBefore(w.log, |w.log|)
    && (forall k :: 0 <= k < |w.log| && w.log[k].Sent? ==> Stored(s, w, k))
    && (forall k :: 0 <= k < |w.log| && w.log[k].Executed? ==> Reported(s, w, k))
    && (forall session, p :: session in w.messages && 0 <= p < |w.messages[session]| ==> Said(s, w, session, p))
    && (forall session, p :: session in w.messages && 0 <= p < |w.messages[session]| ==> Told(s, w, session, p))
  }

  // ---------------------------------------------------------------------------------------------
  // Conversations and logs only grow

  ghost predicate Later(w: World, w1: World) {
    w.log <= w1.log && forall session :: session in w.messages ==> session in w1.messages && w.messages[session] <= w1.messages[session]
  }

  lemma LaterTransitive(a: World, b: World, c: World)
    requires Later(a, b) && Later(b, c)
    ensures Later(a, c)
  {}

  lemma {:induction false} SentBeforePrefix(a: seq<Event>, b: seq<Event>, k: nat)
    requires k <= |a| && a <= b
    ensures SentBefore(b, k) == SentBefore(a, k)
  {
    if k > 0 { SentBeforePrefix(a, b, k - 1); }
  }

  lemma {:induction false} NoMoreSent(a: seq<Event>, b: seq<Event>)
    requires a <= b && forall j :: |a| <= j < |b| ==> !b[j].Sent?
    ensures SentBefore(b, |b|) == SentBefore(a, |a|)
    decreases |b|
  {
    if |b| == |a| {
      assert a == b;
    } else {
      var front := b[..|b| - 1];
      NoMoreSent(a, front);
      SentBeforePrefix(front, b, |front|);
    }
  }

  lemma StoredStays(s: Setup, w: World, w1: World, k: nat)
    requires Later(w, w1) && k < |w.log| && w.log[k].Sent? && Stored(s, w, k)
    ensures Stored(s, w1, k)
  {
    SentBeforePrefix(w.log, w1.log, k);
  }

  lemma SaidStays(s: Setup, w: World, w1: World, session: nat, p: nat)
    requires Later(w, w1) && session in w.messages && p < |w.messages[session]| && Said(s, w, session, p)
    ensures Said(s, w1, session, p)
  {
    var m := w.messages[session][p];
    assert w1.messages[session][p] == m && w1.messages[session][..p] == w.messages[session][..p];
    if m.role == Assistant {
      var k: nat :| SaidAt(s, w.log, k, session, w.messages[session][..p], m.content);
      SentBeforePrefix(w.log, w1.log, k);
      assert SaidAt(s, w1.log, k, session, w1.messages[session][..p], m.content);
    }
  }

  lemma CameStays(s: Setup, a: seq<Event>, b: seq<Event>, session: nat, turn: nat, call: Part, r: Part)
    requires Came(s, a, session, turn, call, r) && a <= b
    ensures Came(s, b, session, turn, call, r)
  {
    hide Carries;
    if !r.isError {
      var k: nat :| k < |a| && IsRunOf(a[k], session, turn, call) && Carries(s.tool(a[k].nth), r);
      assert b[k] == a[k];
    }
  }

  lemma ToldStays(s: Setup, w: World, w1: World, session: nat, p: nat)
    requires Later(w, w1) && session in w.messages && p < |w.messages[session]| && Told(s, w, session, p)
    ensures Told(s, w1, session, p)
  {
    hide Came, Calls;
    var m := w.messages[session][p];
    assert w1.messages[session][p] == m;
    if m.role == User && !IsInput(m) {
      var asked := w.messages[session][p - 1];
      assert w1.messages[session][p - 1] == asked;
      forall i | 0 <= i < |Calls(asked.content)| ensures Came(s, w1.log, session, p - 1, Calls(asked.content)[i], m.content[i]) {
        CameStays(s, w.log, w1.log, session, p - 1, Calls(asked.content)[i], m.content[i]);
      }
    }
  }

  lemma ReportedStays(s: Setup, w: World, w1: World, k: nat)
    requires Later(w, w1) && k < |w.log| && w.log[k].Executed? && Reported(s, w, k)
    ensures Reported(s, w1, k)
  {
    hide ReportedIn;
    var e := w.log[k];
    var history, after := History(w, e.session), History(w1, e.session);
    assert after[e.turn] == history[e.turn] && after[e.turn + 1] == history[e.turn + 1];
  }

  /** One more message of a session, and perhaps more events: what is new is faithful, and what was there stays so. */
  lemma FaithfulOn(s: Setup, w: World, w1: World, session: nat, m: Message)
    requires Faithful(s, w) && w1.messages == w.messages[session := History(w, session) + [m]] && w.log <= w1.log
    requires w1.modelCalls == SentBefore(w1.log, |w1.log|)
    requires forall k :: |w.log| <= k < |w1.log| && w1.log[k].Sent? ==> Stored(s, w1, k)
    requires forall k :: |w.log| <= k < |w1.log| && w1.log[k].Executed? ==> Reported(s, w1, k)
    requires Said(s, w1, session, |History(w, session)|) && Told(s, w1, session, |History(w, session)|)
    ensures Faithful(s, w1) && Later(w, w1)
  {
    hide Stored, Reported, Said, Told, SentBefore;
    forall k | 0 <= k < |w1.log| && w1.log[k].Sent? ensures Stored(s, w1, k) {
      if k < |w.log| { StoredStays(s, w, w1, k); }
    }
    forall k | 0 <= k < |w1.log| && w1.log[k].Executed? ensures Reported(s, w1, k) {
      if k < |w.log| { ReportedStays(s, w, w1, k); }
    }
    forall other, p | other in w1.messages && 0 <= p < |w1.messages[other]| ensures Said(s, w1, other, p) && Told(s, w1, other, p) {
      if other != session || p < |History(w, session)| {
        SaidStays(s, w, w1, other, p);
        ToldStays(s, w, w1, other, p);
      }
    }
  }

  /** No new message: nothing ran and nothing was answered. */
  lemma FaithfulQuiet(s: Setup, w: World, w1: World)
    requires Faithful(s, w) && Later(w, w1) && w1.modelCalls == SentBefore(w1.log, |w1.log|)
    requires forall session :: session in w1.messages ==> w1.messages[session] == History(w, session)
    requires forall k :: |w.log| <= k < |w1.log| ==> !w1.log[k].Executed? && (w1.log[k].Sent? ==> Stored(s, w1, k))
    ensures Faithful(s, w1)
  {
    hide Stored, Reported, Said, Told, SentBefore;
    forall k | 0 <= k < |w1.log| && w1.log[k].Sent? ensures Stored(s, w1, k) {
      if k < |w.log| { StoredStays(s, w, w1, k); }
    }
    forall k | 0 <= k < |w1.log| && w1.log[k].Executed? ensures Reported(s, w1, k) {
      ReportedStays(s, w, w1, k);
    }
    forall other, p | other in w1.messages && 0 <= p < |w1.messages[other]| ensures Said(s, w1, other, p) && Told(s, w1, other, p) {
      SaidStays(s, w, w1, other, p);
      ToldStays(s, w, w1, other, p);
    }
  }

  // ---------------------------------------------------------------------------------------------
  // Settling a turn

  lemma HoldsAt(text: string, a: string, part: string, b: string)
    requires text == a + part + b
    ensures Holds(text, part)
  {}

  /** What one call comes to: its tool is run and its result carries what came back, or nothing runs and the result is an error. */
  lemma ExecuteComes(s: Setup, w: World, t: Turn, turn: nat, call: Part)
    requires call.ToolCall?
    ensures var (w1, r) := Execute(s, w, t, turn, call);
      && w1.messages == w.messages && w1.modelCalls == w.modelCalls
      && r.ToolResult? && r.callId == call.id
      && ((w1.log == w.log && r.isError)
          || (&& w1.log == w.log + [Executed(t.session, turn, call, t.scope, w.toolCalls)] && Carries(s.tool(w.toolCalls), r)))
  {
    hide Holds, Calls;
    if call.name in t.scope.tools && s.tool(w.toolCalls).Throws? {
      var message := s.tool(w.toolCalls).message;
      HoldsAt("tool \"" + call.name + "\" failed: " + message, "tool \"" + call.name + "\" failed: ", message, "");
    }
  }

  lemma RunCallComes(s: Setup, w: World, t: Turn, turn: nat, call: Part, approval: Option<Approvals.Approval>)
    requires call.ToolCall?
    ensures var (w1, r) := RunCall(s, w, t, turn, call, approval);
      && w1.messages == w.messages && w1.modelCalls == w.modelCalls
      && r.ToolResult? && r.callId == call.id
      && ((w1.log == w.log && r.isError)
          || (&& w1.log == w.log + [Executed(t.session, turn, call, t.scope, w.toolCalls)] && Carries(s.tool(w.toolCalls), r)))
  {
    hide Execute, Carries, Calls;
    ExecuteComes(s, w, t, turn, call);
  }

  /** What a run of calls adds to the log, and to the results, place by place. */
  ghost predicate RanCalls(s: Setup, w: World, w1: World, t: Turn, turn: nat, calls: seq<Part>, results: seq<Part>) {
    && w1.messages == w.messages && w1.modelCalls == w.modelCalls && w.log <= w1.log && |results| == |calls|
    && (forall i :: 0 <= i < |calls| ==> Came(s, w1.log, t.session, turn, calls[i], results[i]))
    && (forall k :: |w.log| <= k < |w1.log| ==> RanFor(s, w1.log[k], t, turn, calls, results))
  }

  ghost predicate RanFor(s: Setup, e: Event, t: Turn, turn: nat, calls: seq<Part>, results: seq<Part>) {
    && e.Executed? && e.session == t.session && e.turn == turn
    && exists i :: 0 <= i < |calls| && i < |results| && calls[i] == e.call && Carries(s.tool(e.nth), results[i])
  }

  lemma {:induction false} RunCallsCome(s: Setup, w: World, t: Turn, turn: nat, calls: seq<Part>, decisions: seq<Approvals.Approval>)
    requires AllCalls(calls)
    ensures var (w1, results) := RunCalls(s, w, t, turn, calls, decisions); RanCalls(s, w, w1, t, turn, calls, results)
    decreases |calls|
  {
    hide RunCall, DecisionFor, Carries;
    if calls != [] {
      var (w1, r) := RunCall(s, w, t, turn, calls[0], DecisionFor(decisions, calls[0].id));
      RunCallComes(s, w, t, turn, calls[0], DecisionFor(decisions, calls[0].id));
      RunCallsCome(s, w1, t, turn, calls[1..], decisions);
      var (w2, rest) := RunCalls(s, w1, t, turn, calls[1..], decisions);
      FirstRan(s, w, w1, w2, t, turn, calls, r, rest);
    }
  }

  lemma FirstRan(s: Setup, w: World, w1: World, w2: World, t: Turn, turn: nat, calls: seq<Part>, r: Part, rest: seq<Part>)
    requires calls != [] && calls[0].ToolCall? && RanCalls(s, w1, w2, t, turn, calls[1..], rest)
    requires w1.messages == w.messages && w1.modelCalls == w.modelCalls && r.ToolResult? && r.callId == calls[0].id
    requires (w1.log == w.log && r.isError)
      || (w1.log == w.log + [Executed(t.session, turn, calls[0], t.scope, w.toolCalls)] && Carries(s.tool(w.toolCalls), r))
    ensures RanCalls(s, w, w2, t, turn, calls, [r] + rest)
  {
    hide Carries;
    var results := [r] + rest;
    forall i | 0 <= i < |calls| ensures Came(s, w2.log, t.session, turn, calls[i], results[i]) {
      if i == 0 {
        if !r.isError { assert IsRunOf(w2.log[|w.log|], t.session, turn, calls[0]); }
      } else {
        assert calls[i] == calls[1..][i - 1] && results[i] == rest[i - 1];
      }
    }
    forall k | |w.log| <= k < |w2.log| ensures RanFor(s, w2.log[k], t, turn, calls, results) {
      if k < |w1.log| {
        assert w2.log[k] == w1.log[k];
        assert calls[0] == w2.log[k].call && Carries(s.tool(w2.log[k].nth), results[0]);
      } else {
        var i :| 0 <= i < |calls[1..]| && i < |rest| && calls[1..][i] == w2.log[k].call && Carries(s.tool(w2.log[k].nth), rest[i]);
        assert calls[i + 1] == w2.log[k].call && results[i + 1] == rest[i];
      }
    }
  }

  /** Settling asks nobody but the tools: the turn's results, or nothing at all. */
  lemma SettleComes(s: Setup, w: World, t: Turn, turn: nat, calls: seq<Part>)
    requires AllCalls(calls)
    ensures var (w1, settlement) := Settle(s, w, t, turn, calls);
      if settlement.Ready? then RanCalls(s, w, w1, t, turn, calls, settlement.results)
      else w1.messages == w.messages && w1.modelCalls == w.modelCalls && w1.log == w.log
  {
    hide RunCalls, RanFor, Came, Approvals.RequestAll, Approvals.RowsFor, PendingOf;
    var gated := GatedCalls(t.scope, calls);
    var existing := Approvals.RowsFor(w.queue, t.tenant, t.session, Ids(gated));
    var asked := Approvals.RequestAll(w.queue, RequestsFor(t, Undecided(gated, existing)));
    RunCallsCome(s, w, t, turn, calls, []);
    RunCallsCome(s, w.(queue := asked.queue), t, turn, calls, existing + asked.created);
  }

  // ---------------------------------------------------------------------------------------------
  // The loop keeps it

  lemma InputIsFaithful(s: Setup, w: World, session: nat, input: string)
    requires Faithful(s, w)
    ensures var w1 := Append(w, session, Message(User, [Text(input)])); Faithful(s, w1) && Later(w, w1)
  {
    hide Stored, Reported, SentBefore, Results;
    FaithfulOn(s, w, Append(w, session, Message(User, [Text(input)])), session, Message(User, [Text(input)]));
  }

  /** A request and its answer. */
  lemma AnswerIsFaithful(s: Setup, w: World, session: nat)
    requires Faithful(s, w) && s.model(w.modelCalls).Response?
    ensures var w1 := Append(Asked(w, session), session, Message(Assistant, s.model(w.modelCalls).content));
      Faithful(s, w1) && Later(w, w1)
  {
    hide Reported, Results;
    var content := s.model(w.modelCalls).content;
    var w1, history := Append(Asked(w, session), session, Message(Assistant, content)), History(w, session);
    assert w1.log == w.log + [Sent(session, history)];
    SentBeforePrefix(w.log, w1.log, |w.log|);
    assert w1.messages[session][..|history|] == history;
    assert SaidAt(s, w1.log, |w.log|, session, history, content);
    FaithfulOn(s, w, w1, session, Message(Assistant, content));
  }

  lemma RaiseIsFaithful(s: Setup, w: World, session: nat)
    requires Faithful(s, w) && s.model(w.modelCalls).Raises?
    ensures Faithful(s, Asked(w, session)) && Later(w, Asked(w, session))
  {
    hide Reported, Said, Told;
    var w1 := Asked(w, session);
    SentBeforePrefix(w.log, w1.log, |w.log|);
    FaithfulQuiet(s, w, w1);
  }

  /** A settled turn and its results. */
  lemma ResultsAreFaithful(s: Setup, w: World, w1: World, t: Turn, turn: nat, calls: seq<Part>, results: seq<Part>)
    requires Faithful(s, w) && RanCalls(s, w, w1, t, turn, calls, results)
    requires |History(w, t.session)| == turn + 1
    requires History(w, t.session)[turn].role == Assistant && calls == Calls(History(w, t.session)[turn].content)
    ensures var w2 := Append(w1, t.session, Message(User, results)); Faithful(s, w2) && Later(w, w2)
  {
    hide Calls, Carries, Came, Stored, Said, SentBefore;
    var told := Message(User, results);
    var w2 := Append(w1, t.session, told);
    var history := History(w, t.session);
    assert w2.messages[t.session] == history + [told];
    NoMoreSent(w.log, w2.log);
    forall k | |w.log| <= k < |w2.log| && w2.log[k].Executed? ensures Reported(s, w2, k) {
      assert RanFor(s, w2.log[k], t, turn, calls, results);
      var i :| 0 <= i < |calls| && i < |results| && calls[i] == w2.log[k].call && Carries(s.tool(w2.log[k].nth), results[i]);
      assert ReportedAt(s, w2.log[k], history[turn], told, i);
    }
    assert forall k :: |w.log| <= k < |w2.log| ==> RanFor(s, w2.log[k], t, turn, calls, results);
    assert Said(s, w2, t.session, |history|) by { NotSaid(s, w2, t.session, |history|); }
    FaithfulOn(s, w, w2, t.session, told);
  }

  lemma NotSaid(s: Setup, w: World, session: nat, p: nat)
    requires session in w.messages && p < |w.messages[session]| && w.messages[session][p].role == User
    ensures Said(s, w, session, p)
  {}

  /** Settling the last turn, and writing its results if there are any. */
  lemma SettledIsFaithful(s: Setup, w: World, t: Turn, turn: nat, calls: seq<Part>)
    requires Faithful(s, w) && AllCalls(calls) && |History(w, t.session)| == turn + 1
    requires History(w, t.session)[turn].role == Assistant && calls == Calls(History(w, t.session)[turn].content)
    ensures var (w1, settlement) := Settle(s, w, t, turn, calls);
      if settlement.Ready? then
        var w2 := Append(w1, t.session, Message(User, settlement.results)); Faithful(s, w2) && Later(w, w2)
      else Faithful(s, w1) && Later(w, w1)
  {
    hide Settle, Calls, RanFor, Came, Stored, Said, Told, Reported, SentBefore;
    SettleComes(s, w, t, turn, calls);
    var (w1, settlement) := Settle(s, w, t, turn, calls);
    if settlement.Ready? {
      ResultsAreFaithful(s, w, w1, t, turn, calls, settlement.results);
    } else {
      FaithfulQuiet(s, w, w1);
    }
  }

  lemma {:induction false} DriveIsFaithful(s: Setup, w: World, t: Turn, iteration: nat)
    requires Faithful(s, w)
    ensures var w1 := Drive(s, w, t, iteration).0; Faithful(s, w1) && Later(w, w1)
    decreases t.scope.maxIterations - iteration
  {
    hide Faithful, Settle, Calls, Later;
    if iteration >= t.scope.maxIterations {
      LaterThanItself(w);
    } else {
      match s.model(w.modelCalls) {
        case Raises(_) => RaiseIsFaithful(s, w, t.session);
        case Response(content, stop) =>
          var w1 := Append(Asked(w, t.session), t.session, Message(Assistant, content));
          AnswerIsFaithful(s, w, t.session);
          if stop == ToolUse && Calls(content) != [] {
            CallsAreCalls(content);
            SettledIsFaithful(s, w1, t, |Messages(w, t.session)|, Calls(content));
            var (w2, settlement) := Settle(s, w1, t, |Messages(w, t.session)|, Calls(content));
            if settlement.Ready? {
              var w3 := Append(w2, t.session, Message(User, settlement.results));
              LaterTransitive(w, w1, w3);
              DriveIsFaithful(s, w3, t, iteration + 1);
              LaterTransitive(w, w3, Drive(s, w3, t, iteration + 1).0);
            } else {
              LaterTransitive(w, w1, w2);
            }
          }
      }
    }
  }

  lemma LaterThanItself(w: World)
    ensures Later(w, w)
  {}

  lemma RunIsFaithful(s: Setup, w: World, tenant: string, session: nat, input: string, moduleId: Option<string>)
    requires Faithful(s, w)
    ensures var w1 := Run(s, w, tenant, session, input, moduleId).0; Faithful(s, w1) && Later(w, w1)
  {
    hide Faithful, Drive, Later, Append;
    var scope := ScopeOf(s, moduleId);
    LaterThanItself(w);
    if scope.Some? && Visible(w, tenant, session) {
      var w1 := Append(w, session, Message(User, [Text(input)]));
      InputIsFaithful(s, w, session, input);
      DriveIsFaithful(s, w1, Turn(tenant, session, scope.value), 0);
      LaterTransitive(w, w1, Drive(s, w1, Turn(tenant, session, scope.value), 0).0);
    }
  }

  lemma ResumeIsFaithful(s: Setup, w: World, tenant: string, session: nat, moduleId: Option<string>)
    requires Faithful(s, w)
    ensures var w1 := Resume(s, w, tenant, session, moduleId).0; Faithful(s, w1) && Later(w, w1)
  {
    hide Faithful, Drive, Settle, Later, Append, Calls;
    var scope, history := ScopeOf(s, moduleId), Messages(w, session);
    LaterThanItself(w);
    if scope.Some? && Visible(w, tenant, session) && HeldCalls(history) != [] {
      var t := Turn(tenant, session, scope.value);
      CallsAreCalls(history[|history| - 1].content);
      SettledIsFaithful(s, w, t, |history| - 1, HeldCalls(history));
      var (w1, settlement) := Settle(s, w, t, |history| - 1, HeldCalls(history));
      if settlement.Ready? {
        var w2 := Append(w1, session, Message(User, settlement.results));
        DriveIsFaithful(s, w2, t, 0);
        LaterTransitive(w, w2, Drive(s, w2, t, 0).0);
      }
    }
  }

  lemma ApplyIsFaithful(s: Setup, w: World, a: Action)
    requires Faithful(s, w) && w.nextSession !in w.messages
    ensures Faithful(s, Apply(s, w, a)) && Later(w, Apply(s, w, a))
  {
    hide Stored, Said, Told, Reported, Run, Resume, SentBefore;
    match a {
      case DoOpen(tenant) => FaithfulQuiet(s, w, Open(w, tenant));
      case DoRun(tenant, session, input, moduleId) => RunIsFaithful(s, w, tenant, session, input, moduleId);
      case DoResume(tenant, session, moduleId) => ResumeIsFaithful(s, w, tenant, session, moduleId);
      case DoDecide(tenant, id, status, who, reason) =>
        var w1 := Apply(s, w, a);
        NoMoreSent(w.log, w1.log);
        FaithfulQuiet(s, w, w1);
    }
  }

  lemma {:induction false} ScheduleIsFaithful(s: Setup, w: World, actions: seq<Action>)
    requires Safety.Consistent(s, w) && Faithful(s, w)
    ensures Faithful(s, ExecuteAll(s, w, actions)) && Later(w, ExecuteAll(s, w, actions))
    decreases |actions|
  {
    hide Safety.QueueOk, Safety.LogOk, Faithful, Apply, Later;
    if actions == [] {
      LaterThanItself(w);
    } else {
      var w1 := Apply(s, w, actions[0]);
      Safety.ApplyKeeps(s, w, actions[0]);
      ApplyIsFaithful(s, w, actions[0]);
      ScheduleIsFaithful(s, w1, actions[1..]);
      LaterTransitive(w, w1, ExecuteAll(s, w1, actions[1..]));
    }
  }

  lemma EveryScheduleIsFaithful(s: Setup, actions: seq<Action>)
    ensures Faithful(s, ExecuteAll(s, NEW, actions)) && Safety.Consistent(s, ExecuteAll(s, NEW, actions))
  {
    Safety.NewIsConsistent(s);
    Safety.ScheduleKeeps(s, NEW, actions);
    ScheduleIsFaithful(s, NEW, actions);
  }

  // ---------------------------------------------------------------------------------------------
  // The theorems

  /** After every schedule, the answer to the n-th request is stored right behind the conversation that was sent. */
  lemma AnswersAreStored(s: Setup, actions: seq<Action>, k: nat)
    requires k < |ExecuteAll(s, NEW, actions).log| && ExecuteAll(s, NEW, actions).log[k].Sent?
    ensures var w := ExecuteAll(s, NEW, actions);
      var answer := s.model(SentBefore(w.log, k));
      answer.Response? ==> w.log[k].history + [Message(Assistant, answer.content)] <= History(w, w.log[k].session)
  {
    hide ExecuteAll, Said, Told, Reported, SentBefore;
    EveryScheduleIsFaithful(s, actions);
    assert Stored(s, ExecuteAll(s, NEW, actions), k);
  }

  /**
   * And there is nothing else in a conversation: each message of the assistant's is such an answer, each other one is
   * somebody's words or, behind a turn that called tools, one result for each call, in order: what the tool gave back
   * when it ran for this very call, or an error.
   */
  lemma MessagesAreSaidOrTold(s: Setup, actions: seq<Action>, session: nat, p: nat)
    requires var w := ExecuteAll(s, NEW, actions); session in w.messages && p < |w.messages[session]|
    ensures var w := ExecuteAll(s, NEW, actions); Said(s, w, session, p) && Told(s, w, session, p)
  {
    hide ExecuteAll, Said, Told, Reported, Stored, SentBefore;
    EveryScheduleIsFaithful(s, actions);
  }

  /** Whatever a tool gave back stands in the conversation, behind the turn that asked, at the place of a call like it. */
  lemma WhatRanIsReported(s: Setup, actions: seq<Action>, k: nat)
    requires k < |ExecuteAll(s, NEW, actions).log| && ExecuteAll(s, NEW, actions).log[k].Executed?
    ensures Reported(s, ExecuteAll(s, NEW, actions), k)
  {
    hide ExecuteAll, Said, Told, Reported, Stored, SentBefore;
    EveryScheduleIsFaithful(s, actions);
  }

  lemma DriveSendsFirst(s: Setup, w: World, t: Turn)
    requires t.scope.maxIterations > 0
    ensures var w1 := Drive(s, w, t, 0).0; w.log + [Sent(t.session, Messages(w, t.session))] <= w1.log
  {
    hide Settle, Calls;
    match s.model(w.modelCalls) {
      case Raises(_) =>
      case Response(content, stop) =>
        var w1 := Append(Asked(w, t.session), t.session, Message(Assistant, content));
        if stop == ToolUse && Calls(content) != [] {
          CallsAreCalls(content);
          Safety.SettleLog(s, w1, t, |Messages(w, t.session)|, Calls(content));
          var (w2, settlement) := Settle(s, w1, t, |Messages(w, t.session)|, Calls(content));
          if settlement.Ready? {
            Safety.DriveAsksFirst(s, Append(w2, t.session, Message(User, settlement.results)), t, 1);
          }
        }
    }
  }

  /**
   * The words a turn is run with are stored behind the conversation and stay there, whatever is called later; the
   * first request of the turn carries exactly that. A turn in somebody else's session, or under a module nobody
   * registered, changes nothing.
   */
  lemma InputsAreStoredAndSent(s: Setup, before: seq<Action>, tenant: string, session: nat, input: string, moduleId: Option<string>, after: seq<Action>)
    ensures var w, run := ExecuteAll(s, NEW, before), [DoRun(tenant, session, input, moduleId)];
      var w1, end := ExecuteAll(s, NEW, before + run), ExecuteAll(s, NEW, before + run + after);
      var kept := History(w, session) + [Message(User, [Text(input)])];
      if session in w.owner && w.owner[session] == tenant && ScopeOf(s, moduleId).Some? then
        && kept <= History(w1, session) && kept <= History(end, session)
        && (ScopeOf(s, moduleId).value.maxIterations > 0 ==> w.log + [Sent(session, kept)] <= w1.log)
      else w1 == w
  {
    hide ExecuteAll, Faithful, Drive, Safety.Consistent;
    var w, run := ExecuteAll(s, NEW, before), DoRun(tenant, session, input, moduleId);
    Safety.ExecuteAppend(s, NEW, before, [run]);
    Safety.ExecuteAppend(s, NEW, before + [run], after);
    EveryScheduleIsFaithful(s, before);
    EveryScheduleIsFaithful(s, before + [run]);
    OneAction(s, w, run);
    var w1 := ExecuteAll(s, NEW, before + [run]);
    ScheduleIsFaithful(s, w1, after);
    var scope := ScopeOf(s, moduleId);
    if scope.Some? && Visible(w, tenant, session) {
      var t := Turn(tenant, session, scope.value);
      var begun := Append(w, session, Message(User, [Text(input)]));
      InputIsFaithful(s, w, session, input);
      DriveIsFaithful(s, begun, t, 0);
      if scope.value.maxIterations > 0 { DriveSendsFirst(s, begun, t); }
      assert Later(begun, w1) && session in begun.messages;
    }
  }

  lemma OneAction(s: Setup, w: World, a: Action)
    ensures ExecuteAll(s, w, [a]) == Apply(s, w, a)
  {
    assert [a][1..] == [];
    assert ExecuteAll(s, Apply(s, w, a), []) == Apply(s, w, a);
  }

  // ---------------------------------------------------------------------------------------------
  // Reasons

  lemma JoinHolds(a: string, part: string, b: string)
    ensures Holds(a + part + b, part)
  {
    HoldsAt(a + part + b, a, part, b);
  }

  lemma JoinFour(a: string, b: string, c: string, d: string)
    ensures Holds(a + b + c + d, b) && Holds(a + b + c + d, c) && Holds(a + b + c + d, d)
  {
    var all := a + b + c + d;
    assert all == a + b + (c + d) && all == (a + b) + c + d && all == (a + b + c) + d + "";
    HoldsAt(all, a, b, c + d);
    HoldsAt(all, a + b, c, d);
    HoldsAt(all, a + b + c, d, "");
  }

  lemma EmptyHolds(text: string)
    ensures Holds(text, "")
  {
    assert text == text + "" + "";
    HoldsAt(text, text, "", "");
  }

  /** Who rejected a call and why, if they said, is in the result the model gets. */
  lemma RejectionsReachTheModel(s: Setup, w: World, t: Turn, turn: nat, call: Part, a: Approvals.Approval)
    requires call.ToolCall? && Gated(t.scope, call.name) && s.hasQueue && a.status == Approvals.Rejected
    ensures var r := RunCall(s, w, t, turn, call, Some(a)).1;
      && r.ToolResult? && r.isError && (a.reason.Some? ==> Holds(r.content, a.reason.value))
      && (a.decidedBy.Some? ==> Holds(r.content, a.decidedBy.value))
  {
    hide Holds, Gated, Calls;
    var r, head, who := RunCall(s, w, t, turn, call, Some(a)).1, "tool \"" + call.name + "\"" + " was rejected by ", Why(a.decidedBy, "an operator");
    if a.reason.Some? && a.reason.value != "" {
      assert ": " + a.reason.value == ": " + a.reason.value;
      JoinFour(head, who, ": ", a.reason.value);
      assert r.content == head + who + (": " + a.reason.value);
      assert head + who + (": " + a.reason.value) == head + who + ": " + a.reason.value;
    } else {
      JoinHolds(head, who, "");
      EmptyHolds(r.content);
      assert r.content == head + who + "";
    }
  }

  /** So is the correction of a person who asks for changes. */
  lemma CorrectionsReachTheModel(s: Setup, w: World, t: Turn, turn: nat, call: Part, a: Approvals.Approval)
    requires call.ToolCall? && Gated(t.scope, call.name) && s.hasQueue && a.status == Approvals.ChangesRequested
    ensures var r := RunCall(s, w, t, turn, call, Some(a)).1;
      && r.ToolResult? && r.isError && (a.reason.Some? ==> Holds(r.content, a.reason.value))
      && (a.decidedBy.Some? ==> Holds(r.content, a.decidedBy.value))
  {
    hide Holds, Gated, Calls;
    JoinSix(Why(a.decidedBy, "an operator"), " asked for changes before \"", call.name, "\" runs: ", Why(a.reason, ""), ". Call it again with that addressed.");
  }

  lemma JoinSix(a: string, b: string, c: string, d: string, e: string, f: string)
    ensures Holds(a + b + c + d + e + f, a) && Holds(a + b + c + d + e + f, e)
  {
    hide Holds;
    JoinHolds(a + b + c + d, e, f);
    assert a + b + c + d + e + f == "" + a + (b + c + d + e + f);
    JoinHolds("", a, b + c + d + e + f);
  }

  /** And why a tool's schema refused the input. */
  lemma RefusalsReachTheModel(s: Setup, w: World, t: Turn, turn: nat, call: Part, approval: Option<Approvals.Approval>)
    requires call.ToolCall? && Safety.Ungated(t.scope, call.name) && s.tool(w.toolCalls).InvalidInput?
    ensures var r := RunCall(s, w, t, turn, call, approval).1; r.ToolResult? && r.isError && Holds(r.content, s.tool(w.toolCalls).message)
  {
    hide Holds, Calls;
    var r, head := RunCall(s, w, t, turn, call, approval).1, "invalid input for \"" + call.name + "\": ";
    assert r.content == head + s.tool(w.toolCalls).message + "";
    JoinHolds(head, s.tool(w.toolCalls).message, "");
  }

  // ---------------------------------------------------------------------------------------------
  // Replies

  /** The rows somebody still has to decide before a turn goes on. */
  ghost predicate Awaits(q: Approvals.Queue, t: Turn, calls: seq<Part>, pending: seq<Approvals.Approval>) {
    pending != [] && forall a :: a in pending <==>
      && a in q.rows && a.status == Approvals.Pending && a.tenant == t.tenant && a.session == t.session
      && exists c :: c in calls && c.ToolCall? && Gated(t.scope, c.name) && c.id == a.toolCallId
  }

  lemma WaitingAwaits(s: Setup, w: World, t: Turn, turn: nat, calls: seq<Part>)
    requires AllCalls(calls) && Settle(s, w, t, turn, calls).1.Waiting?
    ensures var (w1, settlement) := Settle(s, w, t, turn, calls); Awaits(w1.queue, t, calls, settlement.pending)
  {
    hide Approvals.RequestAll, RunCalls, PendingOf;
    var gated := GatedCalls(t.scope, calls);
    var existing := Approvals.RowsFor(w.queue, t.tenant, t.session, Ids(gated));
    var missing := Undecided(gated, existing);
    var requests := RequestsFor(t, missing);
    var asked := Approvals.RequestAll(w.queue, requests);
    Approvals.RequestAppends(w.queue, requests);
    var pending := Settle(s, w, t, turn, calls).1.pending;
    assert pending == PendingOf(existing + asked.created);
    PendingIs(existing + asked.created);
    forall a ensures a in pending <==>
      && a in asked.queue.rows && a.status == Approvals.Pending && a.tenant == t.tenant && a.session == t.session
      && exists c :: c in calls && c.ToolCall? && Gated(t.scope, c.name) && c.id == a.toolCallId
    {
      if a in asked.created {
        var i :| 0 <= i < |asked.created| && asked.created[i] == a;
        assert requests[i] == RequestFor(t, missing[i]) && missing[i] in missing;
        assert missing[i] in gated && missing[i] in calls;
      }
      if a in existing {
        assert a.toolCallId in Ids(gated);
        var c :| c in gated && c.ToolCall? && c.id == a.toolCallId;
        assert c in calls;
      }
      if a in w.queue.rows && a.tenant == t.tenant && a.session == t.session
        && exists c :: c in calls && c.ToolCall? && Gated(t.scope, c.name) && c.id == a.toolCallId
      {
        var c :| c in calls && c.ToolCall? && Gated(t.scope, c.name) && c.id == a.toolCallId;
        assert c in gated;
        assert a in existing;
      }
    }
  }

  lemma PendingIs(rows: seq<Approvals.Approval>)
    ensures forall a :: a in PendingOf(rows) <==> a in rows && a.status == Approvals.Pending
  {}

  /** What the reply to a turn says, against what the model answered last and what the session and the queue hold. */
  ghost predicate RepliesTo(s: Setup, w: World, w1: World, t: Turn, most: int, reply: Reply) {
    var asked := w1.modelCalls - w.modelCalls;
    && 0 <= asked <= Max(most, 0)
    && match reply
       case IterationLimit => asked == Max(most, 0)
       case Failed => asked >= 1 && (s.model(w1.modelCalls - 1).Raises? || LastAnswer(s, w1, t.session, ToolUse))
       case Answered(stop) => asked >= 1 && (LastAnswer(s, w1, t.session, stop) || (stop == EndTurn && LastAnswer(s, w1, t.session, ToolUse)))
       case Paused(pending) =>
         && asked >= 1 && LastAnswer(s, w1, t.session, ToolUse)
         && Awaits(w1.queue, t, Calls(s.model(w1.modelCalls - 1).content), pending)
  }

  /** The last thing the model said ends the conversation, and it stopped like this. */
  ghost predicate LastAnswer(s: Setup, w: World, session: nat, stop: StopReason)
    requires w.modelCalls >= 1
  {
    var answer, history := s.model(w.modelCalls - 1), History(w, session);
    answer.Response? && answer.stop == stop && history != [] && history[|history| - 1] == Message(Assistant, answer.content)
  }

  lemma SettleAsksNoModel(s: Setup, w: World, t: Turn, turn: nat, calls: seq<Part>)
    requires AllCalls(calls)
    ensures Settle(s, w, t, turn, calls).0.modelCalls == w.modelCalls && Settle(s, w, t, turn, calls).0.messages == w.messages
  {
    hide Settle, RanFor, Came;
    SettleComes(s, w, t, turn, calls);
  }

  lemma {:induction false} DriveReplies(s: Setup, w: World, t: Turn, iteration: nat)
    ensures var (w1, reply) := Drive(s, w, t, iteration); RepliesTo(s, w, w1, t, t.scope.maxIterations - iteration, reply)
    decreases t.scope.maxIterations - iteration
  {
    hide Settle, Calls, Awaits;
    if iteration < t.scope.maxIterations {
      match s.model(w.modelCalls) {
        case Raises(_) =>
        case Response(content, stop) =>
          var w1 := Append(Asked(w, t.session), t.session, Message(Assistant, content));
          if stop == ToolUse && Calls(content) != [] {
            CallsAreCalls(content);
            SettleAsksNoModel(s, w1, t, |Messages(w, t.session)|, Calls(content));
            var (w2, settlement) := Settle(s, w1, t, |Messages(w, t.session)|, Calls(content));
            if settlement.Ready? {
              DriveReplies(s, Append(w2, t.session, Message(User, settlement.results)), t, iteration + 1);
            } else if settlement.Waiting? {
              WaitingAwaits(s, w1, t, |Messages(w, t.session)|, Calls(content));
            }
          }
      }
    }
  }

  // ---------------------------------------------------------------------------------------------
  // When a turn settles

  lemma StillDistinct(keep: Part -> bool, calls: seq<Part>)
    requires AllCalls(calls) && Safety.DistinctIds(calls)
    ensures AllCalls(Filter(keep, calls)) && Safety.DistinctIds(Filter(keep, calls))
  {
    var places := FilterPlaces(keep, calls);
  }

  /** A call without a decision has no row in its session, whoever the row is of. */
  lemma UndecidedHasNoRow(w: World, t: Turn, turn: nat, calls: seq<Part>, call: Part)
    requires Safety.QueueOk(w) && Safety.Settling(w, t, turn, calls) && call.ToolCall?
    requires var gated := GatedCalls(t.scope, calls);
      call in gated && DecisionFor(Approvals.RowsFor(w.queue, t.tenant, t.session, Ids(gated)), call.id).None?
    ensures !Approvals.HasCall(w.queue.rows, t.session, call.id)
  {
    var gated := GatedCalls(t.scope, calls);
    var existing := Approvals.RowsFor(w.queue, t.tenant, t.session, Ids(gated));
    Safety.DecisionForNone(existing, call.id);
    forall i | 0 <= i < |w.queue.rows| && w.queue.rows[i].session == t.session ensures w.queue.rows[i].toolCallId != call.id {
      var a := w.queue.rows[i];
      assert Safety.RowOk(w, a);
      assert call.id in Ids(gated);
      assert a.toolCallId == call.id ==> a in existing;
    }
  }

  lemma NobodyIsRefused(w: World, t: Turn, turn: nat, calls: seq<Part>)
    requires Safety.QueueOk(w) && Safety.Settling(w, t, turn, calls) && AllCalls(calls) && Safety.DistinctIds(calls)
    ensures Safety.Decisions(w, t, calls).0.refused.None?
  {
    hide Safety.QueueOk, Safety.Settling, Approvals.RequestAll, Approvals.HasCall;
    var gated := GatedCalls(t.scope, calls);
    var existing := Approvals.RowsFor(w.queue, t.tenant, t.session, Ids(gated));
    var missing := Undecided(gated, existing);
    StillDistinct((c: Part) => c.ToolCall? && Gated(t.scope, c.name), calls);
    StillDistinct((c: Part) => c.ToolCall? && DecisionFor(existing, c.id).None?, gated);
    var requests := RequestsFor(t, missing);
    forall i | 0 <= i < |requests| ensures !Approvals.HasCall(w.queue.rows, requests[i].session, requests[i].toolCallId) {
      assert missing[i] in missing;
      UndecidedHasNoRow(w, t, turn, calls, missing[i]);
    }
    Approvals.FreshRequestsAreAllCreated(w.queue, requests);
  }

  /**
   * In every reachable state a turn settles exactly when every call of it that the scope gates was decided, or there is
   * no queue; and with call ids that differ it is never refused.
   */
  lemma TurnSettlesIff(s: Setup, w: World, t: Turn, turn: nat, calls: seq<Part>)
    requires Safety.QueueOk(w) && Safety.Settling(w, t, turn, calls) && AllCalls(calls)
    ensures Settle(s, w, t, turn, calls).1.Ready? <==> !s.hasQueue || Safety.AllDecided(w.queue, t, calls)
    ensures Safety.DistinctIds(calls) ==> !Settle(s, w, t, turn, calls).1.Refused?
  {
    hide Safety.QueueOk, Safety.Settling, Settle, RunCalls, Safety.Decisions, PendingOf, GatedCalls, Safety.HasDecision, Approvals.Sound;
    Safety.SettleIs(s, w, t, turn, calls);
    if GatedCalls(t.scope, calls) == [] { Safety.NoneGated(t.scope, calls); }
    if Safety.AllDecided(w.queue, t, calls) {
      assert Approvals.Sound(w.queue) by { SoundQueue(w); }
      Safety.DecidedNeedsNobody(w, t, calls);
    }
    if Settle(s, w, t, turn, calls).1.Ready? && s.hasQueue && GatedCalls(t.scope, calls) != [] {
      forall c | c in calls && c.ToolCall? && Gated(t.scope, c.name) ensures Safety.HasDecision(w.queue, t, c.id) {
        Safety.RanIsDecided(w, t, turn, calls, c);
      }
    }
    if Safety.DistinctIds(calls) { NobodyIsRefused(w, t, turn, calls); }
  }

  lemma SoundQueue(w: World)
    requires Safety.QueueOk(w)
    ensures Approvals.Sound(w.queue)
  {}
}
