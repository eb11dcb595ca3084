/**
 * The shape of a conversation: every turn that calls tools is answered, call by call, before anything
 * else is said, so the translation in `src/models/openai-compatible-provider.ts` always has what the
 * wire format asks for.
 */
module Conversation {
  import opened Basics
  import Approvals
  import opened Agent

  // ---------------------------------------------------------------------------------------------
  // Shapes

  /** Nothing but text. */
  predicate Spoken(m: Message) {
    forall p :: p in m.content ==> p.Text?
  }

  /** An assistant's turn that calls tools. */
  predicate Calling(m: Message) {
    m.role == Assistant && Calls(m.content) != [] && forall p :: p in m.content ==> !p.ToolResult?
  }

  /** One result for each call, in order, and nothing else. */
  predicate Answers(m: Message, calls: seq<Part>) {
    && m.role == User
    && |m.content| == |calls|
    && forall i :: 0 <= i < |calls| ==> m.content[i].ToolResult? && calls[i].ToolCall? && m.content[i].callId == calls[i].id
  }

  /** Spoken turns, and calling turns each directly followed by its answers. */
  predicate Closed(history: seq<Message>) {
    if history == [] then true
    else if Spoken(history[0]) then Closed(history[1..])
    else
      && Calling(history[0]) && |history| >= 2 && Answers(history[1], Calls(history[0].content))
      && Closed(history[2..])
  }

  /** The same, up to a last turn whose calls are still held. */
  predicate Held(history: seq<Message>) {
    history != [] && Closed(history[..|history| - 1]) && Calling(history[|history| - 1])
  }

  lemma {:induction false} ClosedJoin(a: seq<Message>, b: seq<Message>)
    requires Closed(a) && Closed(b)
    ensures Closed(a + b)
  {
    hide Spoken, Calling, Answers;
    if a == [] {
      assert a + b == b;
    } else if Spoken(a[0]) {
      assert (a + b)[1..] == a[1..] + b;
      ClosedJoin(a[1..], b);
    } else {
      assert (a + b)[2..] == a[2..] + b;
      ClosedJoin(a[2..], b);
    }
  }

  lemma {:induction false} ClosedSpoken(a: seq<Message>, m: Message)
    requires Closed(a) && Spoken(m)
    ensures Closed(a + [m])
  {
    ClosedJoin(a, [m]);
  }

  lemma {:induction false} HeldAnswered(a: seq<Message>, m: Message)
    requires Held(a) && Answers(m, Calls(a[|a| - 1].content))
    ensures Closed(a + [m])
  {
    var front, last := a[..|a| - 1], a[|a| - 1];
    NotSpoken(last);
    assert [last, m][2..] == [];
    ClosedJoin(front, [last, m]);
    assert front + [last, m] == a + [m];
  }

  lemma NotSpoken(m: Message)
    requires Calling(m)
    ensures !Spoken(m)
  {
    assert Calls(m.content)[0] in Calls(m.content);
  }

  /** The shape read by position: a turn that calls tools is directly followed by its answers. */
  lemma {:induction false} ClosedMeans(history: seq<Message>, i: nat)
    requires Closed(history) && i < |history| && Calls(history[i].content) != []
    ensures history[i].role == Assistant && i + 1 < |history| && Answers(history[i + 1], Calls(history[i].content))
    decreases |history|
  {
    assert Calls(history[i].content)[0] in Calls(history[i].content);
    if Spoken(history[0]) {
      ClosedMeans(history[1..], i - 1);
    } else if i >= 2 {
      ClosedMeans(history[2..], i - 2);
    }
  }

  // ---------------------------------------------------------------------------------------------
  // The loop keeps the shape

  /** A model answers with text and tool calls, and says so when it calls a tool. */
  ghost predicate ModelSpeaks(s: Setup) {
    forall n: nat :: s.model(n).Response? ==>
      && (forall p :: p in s.model(n).content ==> !p.ToolResult?)
      && (Calls(s.model(n).content) != [] ==> s.model(n).stop == ToolUse)
  }

  ghost predicate ShapeOk(w: World) {
    && (forall session :: session in w.messages ==> Closed(w.messages[session]) || Held(w.messages[session]))
    && (forall k :: 0 <= k < |w.log| && w.log[k].Sent? ==> Closed(w.log[k].history))
  }

  /** Only the conversation of this session may have changed, and every request that went out was well formed. */
  ghost predicate OnlySession(w: World, w': World, session: nat) {
    && (forall other :: other in w'.messages && other != session ==> other in w.messages && w'.messages[other] == w.messages[other])
    && w.log <= w'.log
    && (forall k :: |w.log| <= k < |w'.log| && w'.log[k].Sent? ==> Closed(w'.log[k].history))
  }

  lemma OnlySessionShapes(w: World, w': World, session: nat)
    requires ShapeOk(w) && OnlySession(w, w', session)
    requires Closed(Messages(w', session)) || Held(Messages(w', session))
    ensures ShapeOk(w')
  {
    hide Closed, Held;
    forall k | 0 <= k < |w'.log| && w'.log[k].Sent? ensures Closed(w'.log[k].history) {
      if k < |w.log| {
        assert w'.log[k] == w.log[k];
      }
    }
  }

  lemma OnlySessionTransitive(a: World, b: World, c: World, session: nat)
    requires OnlySession(a, b, session) && OnlySession(b, c, session)
    ensures OnlySession(a, c, session)
  {
    forall k | |a.log| <= k < |c.log| && c.log[k].Sent? ensures Closed(c.log[k].history) {
      if k < |b.log| { assert c.log[k] == b.log[k]; }
    }
  }

  lemma ExecuteShape(s: Setup, w: World, t: Turn, turn: nat, call: Part)
    requires call.ToolCall?
    ensures var (w1, result) := Execute(s, w, t, turn, call);
      && result.ToolResult? && result.callId == call.id
      && w1.messages == w.messages && OnlySession(w, w1, t.session)
  {
    hide Closed, Calls;
  }

  lemma RunCallShape(s: Setup, w: World, t: Turn, turn: nat, call: Part, approval: Option<Approvals.Approval>)
    requires call.ToolCall?
    ensures var (w1, result) := RunCall(s, w, t, turn, call, approval);
      && result.ToolResult? && result.callId == call.id
      && w1.messages == w.messages && OnlySession(w, w1, t.session)
  {
    hide Closed, Calls, Execute;
    ExecuteShape(s, w, t, turn, call);
    SameSession(w, w, t.session);
  }

  lemma {:induction false} RunCallsShape(s: Setup, w: World, t: Turn, turn: nat, calls: seq<Part>, decisions: seq<Approvals.Approval>)
    requires AllCalls(calls)
    ensures var (w1, results) := RunCalls(s, w, t, turn, calls, decisions);
      && w1.messages == w.messages && OnlySession(w, w1, t.session)
      && Answers(Message(User, results), calls)
    decreases |calls|
  {
    hide RunCall, OnlySession;
    if calls == [] {
      assert OnlySession(w, w, t.session) by { SameSession(w, w, t.session); }
    } else {
      var w1 := RunCall(s, w, t, turn, calls[0], DecisionFor(decisions, calls[0].id)).0;
      RunCallShape(s, w, t, turn, calls[0], DecisionFor(decisions, calls[0].id));
      RunCallsShape(s, w1, t, turn, calls[1..], decisions);
      OnlySessionTransitive(w, w1, RunCalls(s, w1, t, turn, calls[1..], decisions).0, t.session);
    }
  }

  lemma SameSession(w: World, w': World, session: nat)
    requires w'.messages == w.messages && w'.log == w.log
    ensures OnlySession(w, w', session)
  {}

  /** Settling writes nothing, and what it hands back answers the turn call by call. */
  lemma SettleShape(s: Setup, w: World, t: Turn, turn: nat, calls: seq<Part>)
    requires AllCalls(calls)
    ensures var (w1, settlement) := Settle(s, w, t, turn, calls);
      && w1.messages == w.messages && OnlySession(w, w1, t.session)
      && (settlement.Ready? ==> Answers(Message(User, settlement.results), calls))
  {
    hide RunCalls, OnlySession, Answers, Approvals.RequestAll;
    var gated := GatedCalls(t.scope, calls);
    RunCallsShape(s, w, t, turn, calls, []);
    var existing := Approvals.RowsFor(w.queue, t.tenant, t.session, Ids(gated));
    var asked := Approvals.RequestAll(w.queue, RequestsFor(t, Undecided(gated, existing)));
    var w1 := w.(queue := asked.queue);
    SameSession(w, w1, t.session);
    RunCallsShape(s, w1, t, turn, calls, existing + asked.created);
    OnlySessionTransitive(w, w1, RunCalls(s, w1, t, turn, calls, existing + asked.created).0, t.session);
  }

  /** A turn whose calls are held, settled: still held, or answered. */
  lemma {:induction false} HeldSettles(s: Setup, w: World, t: Turn, turn: nat, calls: seq<Part>)
    requires t.session in w.messages && Held(w.messages[t.session]) && AllCalls(calls)
    requires calls == Calls(w.messages[t.session][|w.messages[t.session]| - 1].content)
    ensures var (w1, settlement) := Settle(s, w, t, turn, calls);
      && OnlySession(w, w1, t.session) && Held(Messages(w1, t.session))
      && (settlement.Ready? ==>
            var w2 := Append(w1, t.session, Message(User, settlement.results));
            OnlySession(w, w2, t.session) && Closed(Messages(w2, t.session)))
  {
    hide Settle, Closed, Calls;
    SettleShape(s, w, t, turn, calls);
    var (w1, settlement) := Settle(s, w, t, turn, calls);
    if settlement.Ready? {
      HeldAnswered(w.messages[t.session], Message(User, settlement.results));
    }
  }

  lemma AskedShape(w: World, session: nat)
    requires Closed(Messages(w, session))
    ensures OnlySession(w, Asked(w, session), session) && Messages(Asked(w, session), session) == Messages(w, session)
    ensures Asked(w, session).messages == w.messages
  {
    hide Closed;
  }

  lemma AppendShape(w: World, session: nat, m: Message)
    ensures OnlySession(w, Append(w, session, m), session)
    ensures Messages(Append(w, session, m), session) == Messages(w, session) + [m]
    ensures session in Append(w, session, m).messages
  {}

  /** What the model answers either ends the turn, spoken, or calls tools. */
  lemma {:induction false} AnswerShape(history: seq<Message>, content: seq<Part>)
    requires Closed(history) && forall p :: p in content ==> !p.ToolResult?
    ensures var after := history + [Message(Assistant, content)];
      if Calls(content) == [] then Closed(after) else Held(after)
  {
    var m := Message(Assistant, content);
    if Calls(content) == [] {
      forall p | p in content ensures p.Text? {
        assert p !in Calls(content);
      }
      ClosedSpoken(history, m);
    } else {
      assert (history + [m])[..|history|] == history;
    }
  }

  lemma {:induction false} DriveShape(s: Setup, w: World, t: Turn, iteration: nat)
    requires ModelSpeaks(s) && t.session in w.messages && Closed(w.messages[t.session])
    ensures var w1 := Drive(s, w, t, iteration).0;
      OnlySession(w, w1, t.session) && (Closed(Messages(w1, t.session)) || Held(Messages(w1, t.session)))
    decreases t.scope.maxIterations - iteration
  {
    hide Closed, Held, OnlySession, Settle, Append, Asked, Calls;
    if iteration >= t.scope.maxIterations {
      SameSession(w, w, t.session);
    } else {
      var asked := Asked(w, t.session);
      AskedShape(w, t.session);
      match s.model(w.modelCalls) {
        case Raises(_) =>
        case Response(content, stop) =>
          var w1 := Append(asked, t.session, Message(Assistant, content));
          AppendShape(asked, t.session, Message(Assistant, content));
          AnswerShape(w.messages[t.session], content);
          OnlySessionTransitive(w, asked, w1, t.session);
          if Calls(content) != [] {
            CallsAreCalls(content);
            HeldSettles(s, w1, t, |Messages(w, t.session)|, Calls(content));
            var (w2, settlement) := Settle(s, w1, t, |Messages(w, t.session)|, Calls(content));
            OnlySessionTransitive(w, w1, w2, t.session);
            if settlement.Ready? {
              var w3 := Append(w2, t.session, Message(User, settlement.results));
              AppendShape(w2, t.session, Message(User, settlement.results));
              OnlySessionTransitive(w, w1, w3, t.session);
              DriveShape(s, w3, t, iteration + 1);
              OnlySessionTransitive(w, w3, Drive(s, w3, t, iteration + 1).0, t.session);
            }
          }
      }
    }
  }

  lemma {:induction false} HeldIsHeld(history: seq<Message>)
    requires Closed(history) || Held(history)
    requires HeldCalls(history) != []
    ensures Held(history) && HeldCalls(history) == Calls(history[|history| - 1].content)
  {
    hide Closed, Calls;
    if Closed(history) {
      ClosedMeans(history, |history| - 1);
    }
  }

  /** A schedule in which nobody starts a turn in a session that waits for a decision. */
  predicate Patient(s: Setup, w: World, actions: seq<Action>)
    decreases |actions|
  {
    actions == [] ||
    (&& (actions[0].DoRun? ==> HeldCalls(Messages(w, actions[0].session)) == [])
     && Patient(s, Apply(s, w, actions[0]), actions[1..]))
  }

  lemma RunShape(s: Setup, w: World, tenant: string, session: nat, input: string, moduleId: Option<string>)
    requires ModelSpeaks(s) && ShapeOk(w) && w.owner.Keys == w.messages.Keys
    requires HeldCalls(Messages(w, session)) == []
    ensures ShapeOk(Run(s, w, tenant, session, input, moduleId).0)
  {
    hide Drive, OnlySession, Closed, ShapeOk, Calls;
    var scope := ScopeOf(s, moduleId);
    if scope.Some? && Visible(w, tenant, session) {
      var t, m := Turn(tenant, session, scope.value), Message(User, [Text(input)]);
      var w1 := Append(w, session, m);
      assert Closed(w.messages[session]) by { NotHeldIsClosed(w, session); }
      ClosedSpoken(w.messages[session], m);
      AppendShape(w, session, m);
      DriveShape(s, w1, t, 0);
      OnlySessionTransitive(w, w1, Drive(s, w1, t, 0).0, session);
      OnlySessionShapes(w, Drive(s, w1, t, 0).0, session);
    }
  }

  lemma {:induction false} NotHeldIsClosed(w: World, session: nat)
    requires ShapeOk(w) && session in w.messages && HeldCalls(w.messages[session]) == []
    ensures Closed(w.messages[session])
  {}

  lemma {:induction false} ResumeShape(s: Setup, w: World, tenant: string, session: nat, moduleId: Option<string>)
    requires ModelSpeaks(s) && ShapeOk(w) && w.owner.Keys == w.messages.Keys
    ensures ShapeOk(Resume(s, w, tenant, session, moduleId).0)
  {
    hide Drive, Settle, Append, OnlySession, Closed, Held, Calls;
    var scope, history := ScopeOf(s, moduleId), Messages(w, session);
    if scope.Some? && Visible(w, tenant, session) && HeldCalls(history) != [] {
      var t := Turn(tenant, session, scope.value);
      CallsAreCalls(history[|history| - 1].content);
      HeldIsHeld(history);
      HeldSettles(s, w, t, |history| - 1, HeldCalls(history));
      var (w1, settlement) := Settle(s, w, t, |history| - 1, HeldCalls(history));
      if settlement.Ready? {
        var w2 := Append(w1, session, Message(User, settlement.results));
        AppendShape(w1, session, Message(User, settlement.results));
        DriveShape(s, w2, t, 0);
        OnlySessionTransitive(w, w2, Drive(s, w2, t, 0).0, session);
        OnlySessionShapes(w, Drive(s, w2, t, 0).0, session);
      } else {
        OnlySessionShapes(w, w1, session);
      }
    }
  }

  lemma ApplyShape(s: Setup, w: World, a: Action)
    requires ModelSpeaks(s) && ShapeOk(w) && w.owner.Keys == w.messages.Keys
    requires a.DoRun? ==> HeldCalls(Messages(w, a.session)) == []
    ensures ShapeOk(Apply(s, w, a))
  {
    hide Run, Resume, Closed, Held;
    match a {
      case DoOpen(tenant) => assert Closed([]) by { ClosedEmpty(); }
      case DoRun(tenant, session, input, moduleId) => RunShape(s, w, tenant, session, input, moduleId);
      case DoResume(tenant, session, moduleId) => ResumeShape(s, w, tenant, session, moduleId);
      case DoDecide(_, _, _, _, _) =>
        var w1 := Apply(s, w, a);
        assert w1.messages == w.messages;
        forall k | 0 <= k < |w1.log| && w1.log[k].Sent? ensures Closed(w1.log[k].history) {
          assert w1.log[k] == w.log[k];
        }
    }
  }

  lemma ClosedEmpty()
    ensures Closed([])
  {}

  /** Sessions are opened with an owner and a conversation, and only there. */
  lemma {:induction false} KeysShape(s: Setup, w: World, a: Action)
    requires w.owner.Keys == w.messages.Keys
    ensures Apply(s, w, a).owner.Keys == Apply(s, w, a).messages.Keys
  {
    hide Settle, RunCalls, Append, Asked;
    match a {
      case DoRun(tenant, session, input, moduleId) =>
        var scope := ScopeOf(s, moduleId);
        if scope.Some? && Visible(w, tenant, session) {
          var w1 := Append(w, session, Message(User, [Text(input)]));
          AppendKeys(w, session, Message(User, [Text(input)]));
          DriveKeys(s, w1, Turn(tenant, session, scope.value), 0);
        }
      case DoResume(tenant, session, moduleId) =>
        var scope, history := ScopeOf(s, moduleId), Messages(w, session);
        if scope.Some? && Visible(w, tenant, session) && HeldCalls(history) != [] {
          var t := Turn(tenant, session, scope.value);
          CallsAreCalls(history[|history| - 1].content);
          SettleKeys(s, w, t, |history| - 1, HeldCalls(history));
          var (w1, settlement) := Settle(s, w, t, |history| - 1, HeldCalls(history));
          if settlement.Ready? {
            AppendKeys(w1, session, Message(User, settlement.results));
            DriveKeys(s, Append(w1, session, Message(User, settlement.results)), t, 0);
          }
        }
      case _ =>
    }
  }

  lemma AppendKeys(w: World, session: nat, m: Message)
    ensures Append(w, session, m).owner == w.owner && Append(w, session, m).messages.Keys == w.messages.Keys + {session}
  {}

  lemma {:induction false} RunCallsKeys(s: Setup, w: World, t: Turn, turn: nat, calls: seq<Part>, decisions: seq<Approvals.Approval>)
    requires AllCalls(calls)
    ensures RunCalls(s, w, t, turn, calls, decisions).0.owner == w.owner
    decreases |calls|
  {
    if calls != [] {
      RunCallsKeys(s, RunCall(s, w, t, turn, calls[0], DecisionFor(decisions, calls[0].id)).0, t, turn, calls[1..], decisions);
    }
  }

  lemma SettleKeys(s: Setup, w: World, t: Turn, turn: nat, calls: seq<Part>)
    requires AllCalls(calls)
    ensures Settle(s, w, t, turn, calls).0.owner == w.owner && Settle(s, w, t, turn, calls).0.messages == w.messages
  {
    hide RunCalls, Approvals.RequestAll;
    SettleShape(s, w, t, turn, calls);
    forall w': World, decisions | w'.owner == w.owner ensures RunCalls(s, w', t, turn, calls, decisions).0.owner == w.owner {
      RunCallsKeys(s, w', t, turn, calls, decisions);
    }
  }

  lemma {:induction false} DriveKeys(s: Setup, w: World, t: Turn, iteration: nat)
    requires t.session in w.messages
    ensures var w1 := Drive(s, w, t, iteration).0; w1.owner == w.owner && w1.messages.Keys == w.messages.Keys
    decreases t.scope.maxIterations - iteration
  {
    hide Settle, Append, Calls;
    if iteration < t.scope.maxIterations {
      match s.model(w.modelCalls) {
        case Raises(_) =>
        case Response(content, stop) =>
          var m := Message(Assistant, content);
          var w1 := Append(Asked(w, t.session), t.session, m);
          AppendKeys(Asked(w, t.session), t.session, m);
          if stop == ToolUse && Calls(content) != [] {
            CallsAreCalls(content);
            SettleKeys(s, w1, t, |Messages(w, t.session)|, Calls(content));
            var (w2, settlement) := Settle(s, w1, t, |Messages(w, t.session)|, Calls(content));
            if settlement.Ready? {
              AppendKeys(w2, t.session, Message(User, settlement.results));
              DriveKeys(s, Append(w2, t.session, Message(User, settlement.results)), t, iteration + 1);
            }
          }
      }
    }
  }

  lemma {:induction false} ScheduleShape(s: Setup, w: World, actions: seq<Action>)
    requires ModelSpeaks(s) && ShapeOk(w) && w.owner.Keys == w.messages.Keys && Patient(s, w, actions)
    ensures ShapeOk(ExecuteAll(s, w, actions))
    decreases |actions|
  {
    hide Apply, ShapeOk;
    if actions != [] {
      ApplyShape(s, w, actions[0]);
      KeysShape(s, w, actions[0]);
      ScheduleShape(s, Apply(s, w, actions[0]), actions[1..]);
    }
  }

  /**
   * In every session, at every point, each turn that calls tools is directly followed by its answers, one
   * for each call in order, unless it is the last turn and its calls are held.
   */
  lemma {:induction false} CallsAreAnswered(s: Setup, actions: seq<Action>, session: nat, i: nat)
    requires ModelSpeaks(s) && Patient(s, NEW, actions)
    requires var w := ExecuteAll(s, NEW, actions);
      session in w.messages && i < |w.messages[session]| && Calls(w.messages[session][i].content) != []
    ensures var history := ExecuteAll(s, NEW, actions).messages[session];
      && history[i].role == Assistant
      && (i + 1 < |history| ==> Answers(history[i + 1], Calls(history[i].content)))
      && (i + 1 == |history| ==> HeldCalls(history) == Calls(history[i].content))
  {
    hide ExecuteAll, Closed, Answers, Calls;
    assert ShapeOk(NEW);
    ScheduleShape(s, NEW, actions);
    var history := ExecuteAll(s, NEW, actions).messages[session];
    if Closed(history) {
      ClosedMeans(history, i);
    } else if i + 1 < |history| {
      ClosedMeans(history[..|history| - 1], i);
    }
  }
}
