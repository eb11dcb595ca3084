/** What one request leaves behind: a first-success walk over the eligible candidates, one usage row for each call. */
module GatewayWalk {
  import opened Basics
  import opened Routing
  import opened Availability
  import opened Gateway

  // ---------------------------------------------------------------------------------------------
  // Reading a stretch of the log

  function Calls(log: seq<Event>): seq<Event> { Filter((e: Event) => e.Invoked?, log) }

  function Rows(log: seq<Event>): seq<Event> { Filter((e: Event) => e.Row?, log) }

  function Sleep(log: seq<Event>): nat {
    if log == [] then 0 else (if log[0].Slept? then log[0].ms else 0) + Sleep(log[1..])
  }

  lemma {:induction false} SleepJoin(a: seq<Event>, b: seq<Event>)
    ensures Sleep(a + b) == Sleep(a) + Sleep(b)
  {
    if a == [] {
      assert a + b == b;
    } else {
      assert (a + b)[1..] == a[1..] + b;
      SleepJoin(a[1..], b);
    }
  }

  lemma CallsJoin(a: seq<Event>, b: seq<Event>)
    ensures Calls(a + b) == Calls(a) + Calls(b) && Rows(a + b) == Rows(a) + Rows(b)
  {
    FilterAppend((e: Event) => e.Invoked?, a, b);
    FilterAppend((e: Event) => e.Row?, a, b);
  }

  /** The row of a call, and its number. */
  predicate RowOf(row: Event, call: Event, number: nat, succeeded: bool) {
    && call.Invoked? && row == Row(call.tenant, call.candidate, number, succeeded, call.key.Some?)
  }

  /** One row for each call, in order, numbered on from `before`; only a last row can be a success. */
  ghost predicate Tallied(log: seq<Event>, before: nat, success: bool) {
    var calls, rows := Calls(log), Rows(log);
    && |rows| == |calls|
    && (success ==> rows != [])
    && forall i :: 0 <= i < |rows| ==> RowOf(rows[i], calls[i], before + i + 1, success && i == |rows| - 1)
  }

  lemma TalliedJoin(a: seq<Event>, b: seq<Event>, before: nat, success: bool)
    requires Tallied(a, before, false) && Tallied(b, before + |Calls(a)|, success)
    ensures Tallied(a + b, before, success)
  {
    hide Calls, Rows, RowOf;
    CallsJoin(a, b);
    var calls, rows := Calls(a + b), Rows(a + b);
    forall i | 0 <= i < |rows| ensures RowOf(rows[i], calls[i], before + i + 1, success && i == |rows| - 1) {
      if i < |Rows(a)| {
        assert rows[i] == Rows(a)[i] && calls[i] == Calls(a)[i];
      } else {
        assert rows[i] == Rows(b)[i - |Rows(a)|] && calls[i] == Calls(b)[i - |Rows(a)|];
      }
    }
  }

  /** Nothing but calls of this candidate, and what they leave. */
  ghost predicate About(log: seq<Event>, tenant: string, c: Candidate) {
    forall e :: e in log ==> e.Slept? || (!e.Skipped? && e.tenant == tenant && e.candidate == c)
  }

  predicate Retryable(s: Setup, call: nat) {
    !s.provider(call).Answers? && AsFailure(s.provider(call)).retryable
  }

  /** Keys are asked for at all: the tenant brought some, and there is a vault. */
  predicate Asks(s: Setup, own: set<string>) { own != {} && s.modelKeys.Some? }

  /** A call goes out with the answer to its own ask, the n-th: for its tenant and its provider. */
  predicate KeyAnswered(s: Setup, own: set<string>, call: Event, n: nat) {
    && call.Invoked?
    && (!Asks(s, own) ==> call.key == None)
    && (Asks(s, own) ==>
          s.modelKeys.value.resolve(n, call.tenant, call.candidate.provider) == if call.key.Some? then Key(call.key.value) else NoKey)
  }

  /** Every call goes out with the answer to its own ask, one after another from `first` on. */
  ghost predicate KeysAnswered(s: Setup, own: set<string>, log: seq<Event>, first: nat) {
    var calls := Calls(log);
    forall i :: 0 <= i < |calls| ==> KeyAnswered(s, own, calls[i], first + i)
  }

  /** How many asks there have been after so many calls. */
  function AskedFor(s: Setup, own: set<string>, first: nat, calls: nat): nat { if Asks(s, own) then first + calls else first }

  lemma KeysJoin(s: Setup, own: set<string>, a: seq<Event>, b: seq<Event>, first: nat)
    requires KeysAnswered(s, own, a, first) && KeysAnswered(s, own, b, AskedFor(s, own, first, |Calls(a)|))
    ensures KeysAnswered(s, own, a + b, first)
  {
    hide Calls;
    CallsJoin(a, b);
    var calls := Calls(a + b);
    forall i | 0 <= i < |calls| ensures KeyAnswered(s, own, calls[i], first + i) {
      if i < |Calls(a)| {
        assert calls[i] == Calls(a)[i];
      } else {
        assert calls[i] == Calls(b)[i - |Calls(a)|];
        assert KeyAnswered(s, own, calls[i], AskedFor(s, own, first, |Calls(a)|) + (i - |Calls(a)|));
      }
    }
  }

  // ---------------------------------------------------------------------------------------------
  // One attempt

  /** What one attempt may add to the log. */
  ghost predicate TryAdds(s: Setup, w: World, tenant: string, c: Candidate, own: set<string>, number: nat, w1: World, tried: Tried, added: seq<Event>)
    requires number >= 1
  {
    && w1.log == w.log + added
    && Tallied(added, number - 1, tried.Over? && tried.how.Answered?)
    && About(added, tenant, c)
    && Sleep(added) == 0
    && w1.calls == w.calls + |Calls(added)| && KeysAnswered(s, own, added, w.keys)
    && (tried != Over(Threw) ==> w1.keys == AskedFor(s, own, w.keys, |Calls(added)|))
    && |Calls(added)| <= 1 && (Calls(added) == [] ==> added == [])
    && (tried == Over(Threw) || |Calls(added)| == 1)
    && (tried == Over(Threw) && Calls(added) != [] ==> !s.provider(w.calls).Answers? && !Retryable(s, w.calls))
    && (tried.Over? && tried.how.Answered? ==> s.provider(w.calls) == Answers(tried.how.text))
    && (tried.Again? || tried.how.Moved? ==> Retryable(s, w.calls))
  }

  lemma Push(log: seq<Event>, e: Event)
    ensures Calls(log + [e]) == Calls(log) + (if e.Invoked? then [e] else [])
    ensures Rows(log + [e]) == Rows(log) + (if e.Row? then [e] else [])
    ensures Sleep(log + [e]) == Sleep(log) + (if e.Slept? then e.ms else 0)
  {
    CallsJoin(log, [e]);
    SleepJoin(log, [e]);
    FilterOne((e: Event) => e.Invoked?, e);
    FilterOne((e: Event) => e.Row?, e);
    assert Sleep([e][1..]) == 0;
  }

  lemma Empty()
    ensures Calls([]) == [] && Rows([]) == [] && Sleep([]) == 0
  {}

  /** A call, its row, and in between or after at most a recovery or a fault. */
  lemma OneCall(call: Event, row: Event, other: Event, recovered: bool, number: nat)
    requires number >= 1 && RowOf(row, call, number, recovered)
    requires other.Recovered? || other.Failed?
    ensures Tallied([call, other, row], number - 1, recovered) && Calls([call, other, row]) == [call] && Sleep([call, other, row]) == 0
    ensures Tallied([call, row], number - 1, recovered) && Calls([call, row]) == [call] && Sleep([call, row]) == 0
    ensures Tallied([call, row, other], number - 1, recovered) && Calls([call, row, other]) == [call] && Sleep([call, row, other]) == 0
  {
    hide Calls, Rows, Sleep;
    Empty();
    Push([], call);
    assert [] + [call] == [call] && [call] + [row] == [call, row] && [call] + [other] == [call, other];
    assert [call, row] + [other] == [call, row, other] && [call, other] + [row] == [call, other, row];
    Push([call], row);
    Push([call], other);
    Push([call, row], other);
    Push([call, other], row);
  }

  lemma Nothing(s: Setup, own: set<string>, before: nat, first: nat, tenant: string, c: Candidate)
    ensures Tallied([], before, false) && About([], tenant, c) && Sleep([]) == 0 && Calls([]) == [] && KeysAnswered(s, own, [], first)
  {}

  lemma {:induction false} KeyForIs(s: Setup, w: World, tenant: string, c: Candidate, own: set<string>)
    ensures var (w1, key) := KeyFor(s, w, tenant, c.provider, own);
      && w1.(keys := w.keys) == w && w1.keys == AskedFor(s, own, w.keys, 1)
      && (key.Some? ==> KeyAnswered(s, own, Invoked(tenant, c, w1.time, key.value), w.keys))
  {}

  lemma CallAnswered(s: Setup, own: set<string>, call: Event, log: seq<Event>, first: nat)
    requires call.Invoked? && Calls(log) == [call] && KeyAnswered(s, own, call, first)
    ensures KeysAnswered(s, own, log, first)
  {
    hide KeyAnswered, Calls;
  }

  lemma {:induction false} ChecksAreSilent(s: Setup, w: World, tenant: string, c: Candidate)
    ensures var w1 := Check(s, w, tenant, c).0; w1.log == w.log && w1.calls == w.calls && w1.keys == w.keys && w1.lists == w.lists
  {}

  lemma {:induction false} RememberIs(s: Setup, w: World, tenant: string, c: Candidate, f: Failure)
    ensures var w1 := Remember(s, w, tenant, c, f);
      && w1.calls == w.calls && w1.keys == w.keys
      && |w1.log| == |w.log| + 1 && w1.log == w.log + [w1.log[|w.log|]]
      && w1.log[|w.log|].Failed? && w1.log[|w.log|].tenant == tenant && w1.log[|w.log|].candidate == c
  {}

  lemma {:induction false} TryTrace(s: Setup, w: World, tenant: string, c: Candidate, own: set<string>, number: nat)
    returns (added: seq<Event>)
    requires number >= 1
    ensures var (w1, tried) := Try(s, w, tenant, c, own, number); TryAdds(s, w, tenant, c, own, number, w1, tried, added)
  {
    hide KeyFor, Check, Remember, Tallied, Calls, Rows, Sleep, KeyAnswered, KeysAnswered;
    KeyForIs(s, w, tenant, c, own);
    var (w1, key) := KeyFor(s, w, tenant, c.provider, own);
    if key.None? {
      Nothing(s, own, number - 1, w.keys, tenant, c);
      added := [];
      assert w.log + added == w.log;
      return;
    }
    var call := Invoked(tenant, c, w1.time, key.value);
    var w2 := Call(w1, tenant, c, key.value);
    match s.provider(w1.calls) {
      case Answers(text) =>
        var row := Row(tenant, c, number, true, key.value.Some?);
        OneCall(call, row, Recovered(tenant, c), true, number);
        added := [call, Recovered(tenant, c), row];
        CallAnswered(s, own, call, added, w.keys);
        assert w.log + [call] + [Recovered(tenant, c)] + [row] == w.log + added;
      case o =>
        var f, row := AsFailure(o), Row(tenant, c, number, false, key.value.Some?);
        var w3 := Logged(w2, row);
        OneCall(call, row, Recovered(tenant, c), false, number);
        added := [call, row];
        CallAnswered(s, own, call, added, w.keys);
        assert w3.log == w.log + added;
        if f.retryable {
          RememberIs(s, w3, tenant, c, f);
          var w4 := Remember(s, w3, tenant, c, f);
          var fault := w4.log[|w3.log|];
          OneCall(call, row, fault, false, number);
          added := [call, row, fault];
          CallAnswered(s, own, call, added, w.keys);
          assert w4.log == w.log + added;
          ChecksAreSilent(s, w4, tenant, c);
          var (w5, blocked) := Check(s, w4, tenant, c);
          assert Try(s, w, tenant, c, own, number) ==
            if f.kind == CredentialFault then (w4, Over(Moved)) else (w5, if blocked.Some? then Over(Moved) else Again);
        }
    }
  }

  // ---------------------------------------------------------------------------------------------
  // The attempts at one candidate

  /** Every call of the stretch but the last failed in a way worth retrying; the last one decides. */
  ghost predicate FirstSuccess(s: Setup, first: nat, n: nat, how: Attempted) {
    && (forall i :: first <= i < first + n - 1 ==> Retryable(s, i))
    && match how
       case Answered(text) => n >= 1 && s.provider(first + n - 1) == Answers(text)
       case Threw => n >= 1 ==> !s.provider(first + n - 1).Answers?
       case Moved => n >= 1 ==> Retryable(s, first + n - 1)
  }

  ghost predicate TriesAdd(s: Setup, w: World, tenant: string, c: Candidate, own: set<string>, attempt: nat, attempts: nat,
                           w1: World, n: nat, how: Attempted, added: seq<Event>)
    requires attempt >= 1
  {
    && w1.log == w.log + added
    && Tallied(added, attempts, how.Answered?)
    && About(added, tenant, c)
    && w1.calls == w.calls + |Calls(added)| && KeysAnswered(s, own, added, w.keys)
    && (!how.Threw? ==> w1.keys == AskedFor(s, own, w.keys, |Calls(added)|))
    && FirstSuccess(s, w.calls, |Calls(added)|, how)
    && (how.Moved? ==> n == attempts + |Calls(added)| && |Calls(added)| >= 1)
    && (Calls(added) == [] ==> added == [])
    && |Calls(added)| + attempt <= s.config.attemptsPerModel + 1
    && Sleep(added) + 250 * Power(attempt - 1) <= 250 * Power(s.config.attemptsPerModel - 1)
  }

  lemma {:induction false} AboutJoin(a: seq<Event>, b: seq<Event>, tenant: string, c: Candidate)
    requires About(a, tenant, c) && About(b, tenant, c)
    ensures About(a + b, tenant, c)
  {}

  lemma {:induction false} PowerGrows(a: nat, b: nat)
    requires a <= b
    ensures Power(a) <= Power(b)
  {
    if a < b { PowerGrows(a, b - 1); }
  }

  lemma FirstSuccessJoin(s: Setup, first: nat, n: nat, m: nat, how: Attempted)
    requires FirstSuccess(s, first, n, Moved) && FirstSuccess(s, first + n, m, how)
    ensures FirstSuccess(s, first, n + m, how)
  {}

  lemma SleptIs(s: Setup, own: set<string>, ms: nat, before: nat, first: nat, tenant: string, c: Candidate)
    ensures Tallied([Slept(ms)], before, false) && About([Slept(ms)], tenant, c) && Sleep([Slept(ms)]) == ms
    ensures Calls([Slept(ms)]) == [] && KeysAnswered(s, own, [Slept(ms)], first)
  {
    hide Calls, Rows, Sleep;
    Empty();
    Push([], Slept(ms));
    assert [] + [Slept(ms)] == [Slept(ms)];
  }

  lemma {:induction false} TriesTrace(s: Setup, w: World, tenant: string, c: Candidate, own: set<string>, attempt: nat, attempts: nat)
    returns (added: seq<Event>)
    requires 1 <= attempt <= s.config.attemptsPerModel
    ensures var (w1, n, how) := Tries(s, w, tenant, c, own, attempt, attempts);
      TriesAdd(s, w, tenant, c, own, attempt, attempts, w1, n, how, added)
    decreases s.config.attemptsPerModel - attempt
  {
    hide Try, Tallied, Calls, Rows, Sleep, KeysAnswered, About, Power, Retryable, FirstSuccess;
    PowerGrows(attempt - 1, s.config.attemptsPerModel - 1);
    added := TryTrace(s, w, tenant, c, own, attempts + 1);
    var (w1, tried) := Try(s, w, tenant, c, own, attempts + 1);
    OneIsFirst(s, w.calls, |Calls(added)|, if tried.Again? then Moved else tried.how);
    if tried.Again? && attempt < s.config.attemptsPerModel {
      var pause := Slept(Backoff(attempt));
      var w2 := Logged(w1, pause);
      var rest := TriesTrace(s, w2, tenant, c, own, attempt + 1, attempts + 1);
      var first := added;
      added := first + ([pause] + rest);
      assert w1.log + [pause] + rest == w.log + added;
      SleptIs(s, own, pause.ms, attempts + 1, w1.keys, tenant, c);
      TracesJoin(s, own, [pause], rest, attempts + 1, w1.keys,
        Tries(s, w2, tenant, c, own, attempt + 1, attempts + 1).2.Answered?);
      TracesJoin(s, own, first, [pause] + rest, attempts, w.keys,
        Tries(s, w2, tenant, c, own, attempt + 1, attempts + 1).2.Answered?);
      AboutJoin([pause], rest, tenant, c);
      AboutJoin(first, [pause] + rest, tenant, c);
      FirstSuccessJoin(s, w.calls, 1, |Calls(rest)|, Tries(s, w2, tenant, c, own, attempt + 1, attempts + 1).2);
      PowerStep(attempt);
    }
  }

  lemma PowerStep(k: nat)
    requires k >= 1
    ensures Power(k) == 2 * Power(k - 1)
  {}

  lemma OneIsFirst(s: Setup, first: nat, n: nat, how: Attempted)
    requires n <= 1 && (how.Threw? || n == 1)
    requires how.Threw? && n == 1 ==> !s.provider(first).Answers?
    requires how.Answered? ==> s.provider(first) == Answers(how.text)
    requires how.Moved? ==> Retryable(s, first)
    ensures FirstSuccess(s, first, n, how)
  {}

  lemma TracesJoin(s: Setup, own: set<string>, a: seq<Event>, b: seq<Event>, before: nat, first: nat, success: bool)
    requires Tallied(a, before, false) && Tallied(b, before + |Calls(a)|, success)
    requires KeysAnswered(s, own, a, first) && KeysAnswered(s, own, b, AskedFor(s, own, first, |Calls(a)|))
    ensures Tallied(a + b, before, success) && KeysAnswered(s, own, a + b, first)
    ensures Calls(a + b) == Calls(a) + Calls(b) && Sleep(a + b) == Sleep(a) + Sleep(b)
  {
    hide Tallied, Calls, Rows, Sleep, KeysAnswered;
    TalliedJoin(a, b, before, success);
    CallsJoin(a, b);
    SleepJoin(a, b);
    KeysJoin(s, own, a, b, first);
  }

  // ---------------------------------------------------------------------------------------------
  // The walk

  /** The most a candidate's attempts may wait in all. */
  function MostSleep(attemptsPerModel: nat): nat
    requires attemptsPerModel >= 1
  {
    PowerGrows(0, attemptsPerModel - 1);
    250 * (Power(attemptsPerModel - 1) - 1)
  }

  /** A candidate is skipped, or called at least once and no more often than configured. */
  ghost predicate Visit(attemptsPerModel: nat, log: seq<Event>, tenant: string, c: Candidate)
    requires attemptsPerModel >= 1
  {
    || (|log| == 1 && log[0].Skipped? && log[0].tenant == tenant && log[0].candidate == c)
    || (About(log, tenant, c) && 1 <= |Calls(log)| <= attemptsPerModel && Sleep(log) <= MostSleep(attemptsPerModel))
  }

  /** The candidates are visited in order: all of them, or only the first few when the walk stops early. */
  ghost predicate Follows(attemptsPerModel: nat, log: seq<Event>, tenant: string, candidates: seq<Candidate>, whole: bool)
    requires attemptsPerModel >= 1
    decreases |candidates|
  {
    || (log == [] && (candidates == [] || !whole))
    || (&& candidates != []
        && exists m :: 0 <= m <= |log| && Visit(attemptsPerModel, log[..m], tenant, candidates[0])
                       && Follows(attemptsPerModel, log[m..], tenant, candidates[1..], whole))
  }

  function How(result: Completed): Attempted {
    match result case Response(text) => Answered(text) case Raised => Threw case Exhausted(_) => Moved
  }

  ghost predicate WalkAdds(s: Setup, w: World, tenant: string, candidates: seq<Candidate>, own: set<string>, attempts: nat,
                           w1: World, result: Completed, added: seq<Event>) {
    && w1.log == w.log + added
    && Tallied(added, attempts, result.Response?)
    && w1.calls == w.calls + |Calls(added)| && KeysAnswered(s, own, added, w.keys)
    && FirstSuccess(s, w.calls, |Calls(added)|, How(result))
    && (result.Exhausted? ==> result.attempts == attempts + |Calls(added)|)
    && Follows(s.config.attemptsPerModel, added, tenant, candidates, result.Exhausted?)
  }

  lemma FollowsVisit(attemptsPerModel: nat, first: seq<Event>, rest: seq<Event>, tenant: string, candidates: seq<Candidate>, whole: bool)
    requires attemptsPerModel >= 1 && candidates != [] && Visit(attemptsPerModel, first, tenant, candidates[0])
    requires Follows(attemptsPerModel, rest, tenant, candidates[1..], whole)
    ensures Follows(attemptsPerModel, first + rest, tenant, candidates, whole)
  {
    hide Visit;
    var log, m := first + rest, |first|;
    assert log[..m] == first && log[m..] == rest;
  }

  lemma SkipIs(s: Setup, own: set<string>, skip: Event, before: nat, asked: nat, first: nat)
    requires skip.Skipped?
    ensures Tallied([skip], before, false) && Calls([skip]) == [] && Sleep([skip]) == 0 && KeysAnswered(s, own, [skip], asked)
    ensures FirstSuccess(s, first, 0, Moved) && Visit(s.config.attemptsPerModel, [skip], skip.tenant, skip.candidate)
  {
    hide Calls, Rows, Sleep, Retryable;
    Empty();
    Push([], skip);
    assert [] + [skip] == [skip];
  }

  lemma TriesVisit(s: Setup, log: seq<Event>, tenant: string, c: Candidate)
    requires About(log, tenant, c) && 1 <= |Calls(log)| <= s.config.attemptsPerModel
    requires Sleep(log) + 250 * Power(0) <= 250 * Power(s.config.attemptsPerModel - 1)
    ensures Visit(s.config.attemptsPerModel, log, tenant, c)
  {
    assert Power(0) == 1;
  }

  lemma {:induction false} WalkTrace(s: Setup, w: World, tenant: string, candidates: seq<Candidate>, own: set<string>, attempts: nat)
    returns (added: seq<Event>)
    ensures var (w1, result) := Walk(s, w, tenant, candidates, own, attempts);
      WalkAdds(s, w, tenant, candidates, own, attempts, w1, result, added)
    decreases |candidates|
  {
    hide Check, Tries, Tallied, Calls, Rows, Sleep, KeysAnswered, FirstSuccess, Follows, Visit, About, Power;
    if candidates == [] {
      added := [];
      WalkedNowhere(s, w, tenant, own, attempts);
      return;
    }
    ChecksAreSilent(s, w, tenant, candidates[0]);
    var (w1, blocked) := Check(s, w, tenant, candidates[0]);
    if blocked.Some? {
      var skip := Skipped(tenant, candidates[0], w1.time, blocked.value);
      var rest := WalkTrace(s, Logged(w1, skip), tenant, candidates[1..], own, attempts);
      SkipIs(s, own, skip, attempts, w.keys, w.calls);
      added := [skip] + rest;
      WalkJoin(s, w, Logged(w1, skip), tenant, candidates, own, attempts, attempts, [skip], rest);
      return;
    }
    added := TriesTrace(s, w1, tenant, candidates[0], own, 1, attempts);
    var (w2, n, how) := Tries(s, w1, tenant, candidates[0], own, 1, attempts);
    if Calls(added) != [] {
      TriesVisit(s, added, tenant, candidates[0]);
    }
    if how.Moved? {
      var rest := WalkTrace(s, w2, tenant, candidates[1..], own, n);
      WalkJoin(s, w, w2, tenant, candidates, own, attempts, n, added, rest);
      added := added + rest;
    } else {
      StopsHere(s.config.attemptsPerModel, added, tenant, candidates);
    }
  }

  lemma StopsHere(attemptsPerModel: nat, log: seq<Event>, tenant: string, candidates: seq<Candidate>)
    requires attemptsPerModel >= 1 && candidates != [] && (log != [] ==> Visit(attemptsPerModel, log, tenant, candidates[0]))
    ensures Follows(attemptsPerModel, log, tenant, candidates, false)
  {
    hide Visit;
    if log != [] {
      assert Follows(attemptsPerModel, [], tenant, candidates[1..], false);
      FollowsVisit(attemptsPerModel, log, [], tenant, candidates, false);
      assert log + [] == log;
    }
  }

  lemma WalkedNowhere(s: Setup, w: World, tenant: string, own: set<string>, attempts: nat)
    ensures WalkAdds(s, w, tenant, [], own, attempts, w, Exhausted(attempts), [])
  {
    assert w.log + [] == w.log;
  }

  /** A visit that led on, and the walk over the rest. */
  lemma WalkJoin(s: Setup, w: World, mid: World, tenant: string, candidates: seq<Candidate>, own: set<string>, attempts: nat, n: nat,
                 first: seq<Event>, rest: seq<Event>)
    requires candidates != [] && mid.log == w.log + first && mid.calls == w.calls + |Calls(first)| && mid.keys == AskedFor(s, own, w.keys, |Calls(first)|)
    requires Tallied(first, attempts, false) && KeysAnswered(s, own, first, w.keys) && n == attempts + |Calls(first)|
    requires FirstSuccess(s, w.calls, |Calls(first)|, Moved) && Visit(s.config.attemptsPerModel, first, tenant, candidates[0])
    requires var (w1, result) := Walk(s, mid, tenant, candidates[1..], own, n);
      WalkAdds(s, mid, tenant, candidates[1..], own, n, w1, result, rest)
    ensures var (w1, result) := Walk(s, mid, tenant, candidates[1..], own, n);
      WalkAdds(s, w, tenant, candidates, own, attempts, w1, result, first + rest)
  {
    hide Walk, Tallied, Calls, Rows, Sleep, KeysAnswered, FirstSuccess, Follows, Visit;
    var (w1, result) := Walk(s, mid, tenant, candidates[1..], own, n);
    assert w.log + first + rest == w.log + (first + rest);
    TracesJoin(s, own, first, rest, attempts, w.keys, result.Response?);
    FirstSuccessJoin(s, w.calls, |Calls(first)|, |Calls(rest)|, How(result));
    FollowsVisit(s.config.attemptsPerModel, first, rest, tenant, candidates, result.Exhausted?);
  }

  // ---------------------------------------------------------------------------------------------
  // What follows from the order of the visits

  /** A walk calls only its candidates, no more often and with no more waiting than the configuration allows. */
  lemma {:induction false} FollowsBounds(attemptsPerModel: nat, log: seq<Event>, tenant: string, candidates: seq<Candidate>, whole: bool)
    requires attemptsPerModel >= 1 && Follows(attemptsPerModel, log, tenant, candidates, whole)
    ensures |Calls(log)| <= |candidates| * attemptsPerModel
    ensures Sleep(log) <= |candidates| * MostSleep(attemptsPerModel)
    ensures forall e :: e in log && !e.Slept? ==> e.tenant == tenant && e.candidate in candidates
    decreases |candidates|
  {
    hide Calls, Sleep, MostSleep, Follows, Visit;
    Empty();
    if log != [] {
      var m := FollowsFirst(attemptsPerModel, log, tenant, candidates, whole);
      var first, rest := log[..m], log[m..];
      FollowsBounds(attemptsPerModel, rest, tenant, candidates[1..], whole);
      VisitBounds(attemptsPerModel, first, tenant, candidates[0]);
      assert first + rest == log;
      CallsJoin(first, rest);
      SleepJoin(first, rest);
      Distribute(|candidates|, attemptsPerModel);
      Distribute(|candidates|, MostSleep(attemptsPerModel));
    }
  }

  lemma Distribute(n: nat, k: nat)
    requires n >= 1
    ensures n * k == k + (n - 1) * k
  {}

  lemma FollowsFirst(attemptsPerModel: nat, log: seq<Event>, tenant: string, candidates: seq<Candidate>, whole: bool) returns (m: nat)
    requires attemptsPerModel >= 1 && Follows(attemptsPerModel, log, tenant, candidates, whole) && log != []
    ensures candidates != [] && m <= |log| && Visit(attemptsPerModel, log[..m], tenant, candidates[0])
    ensures Follows(attemptsPerModel, log[m..], tenant, candidates[1..], whole)
  {
    hide Visit;
    m :| 0 <= m <= |log| && Visit(attemptsPerModel, log[..m], tenant, candidates[0])
      && Follows(attemptsPerModel, log[m..], tenant, candidates[1..], whole);
  }

  lemma VisitBounds(attemptsPerModel: nat, log: seq<Event>, tenant: string, c: Candidate)
    requires attemptsPerModel >= 1 && Visit(attemptsPerModel, log, tenant, c)
    ensures |Calls(log)| <= attemptsPerModel && Sleep(log) <= MostSleep(attemptsPerModel)
    ensures forall e :: e in log && !e.Slept? ==> e.tenant == tenant && e.candidate == c
  {
    hide Calls, Rows, Sleep, MostSleep;
    if |log| == 1 && log[0].Skipped? {
      Empty();
      Push([], log[0]);
      assert [] + [log[0]] == log;
    }
  }

  // ---------------------------------------------------------------------------------------------
  // The theorems, for one request from any state

  /** The candidates a request may use: those of its task, kept to the providers a tenant brought keys for. */
  ghost predicate MayUse(s: Setup, task: Task, own: set<string>, c: Candidate)
    requires Accepted(s.config)
  {
    && c in CandidatesFor(s.config, task)
    && (own != {} ==> c.provider in own)
    && (task == Sensitive ==> c.tier == Premium)
  }

  lemma EligibleMayBeUsed(s: Setup, task: Task, own: set<string>, c: Candidate)
    requires Accepted(s.config)
    ensures c in Eligible(CandidatesFor(s.config, task), own) <==> MayUse(s, task, own, c)
  {
    var all, route := CandidatesFor(s.config, task), s.config.routes(task);
    if c in all {
      var i :| 0 <= i < |all| && all[i] == c;
      assert route[i] in route;
    }
  }

  /**
   * A request is a first-success walk: every call is of a candidate it may use and leaves its own row,
   * numbered from one, with the success last; the first call that is not a retryable failure decides the
   * answer; and calls and waiting stay within what the configuration allows.
   */
  lemma {:induction false} CompleteWalks(s: Setup, w: World, tenant: string, task: Task) returns (added: seq<Event>)
    requires Accepted(s.config)
    ensures var (w1, result) := Complete(s, w, tenant, task);
      var own, a := OwnProviders(s, w, tenant).1, s.config.attemptsPerModel;
      && w1.log == w.log + added
      && (own.None? ==> added == [] && result.Raised?)
      && (own.Some? ==>
            var n := |Eligible(CandidatesFor(s.config, task), own.value)|;
            && Tallied(added, 0, result.Response?)
            && FirstSuccess(s, w.calls, |Calls(added)|, How(result))
            && (result.Exhausted? ==> result.attempts == |Calls(added)|)
            && |Calls(added)| <= n * a && Sleep(added) <= n * (250 * (Power(a - 1) - 1))
            && KeysAnswered(s, own.value, added, w.keys)
            && (forall e :: e in added && !e.Slept? ==> e.tenant == tenant && MayUse(s, task, own.value, e.candidate))
            && (n == 0 ==> added == [] && result == Exhausted(0)))
  {
    hide Walk, Tallied, Calls, Rows, Sleep, KeysAnswered, FirstSuccess, Eligible, CandidatesFor, Accepted, MayUse, Power;
    var (w0, own) := OwnProviders(s, w, tenant);
    if own.None? {
      added := [];
      assert w.log + [] == w.log;
      return;
    }
    var candidates := Eligible(CandidatesFor(s.config, task), own.value);
    added := WalkTrace(s, w0, tenant, candidates, own.value, 0);
    FollowsBounds(s.config.attemptsPerModel, added, tenant, candidates, Walk(s, w0, tenant, candidates, own.value, 0).1.Exhausted?);
    forall e | e in added && !e.Slept? ensures MayUse(s, task, own.value, e.candidate) {
      EligibleMayBeUsed(s, task, own.value, e.candidate);
    }
    if candidates == [] {
      NowhereToGo(s, w0, tenant, own.value);
      assert added == [] by { assert |w0.log + added| == |w0.log|; }
    }
  }

  lemma NowhereToGo(s: Setup, w: World, tenant: string, own: set<string>)
    ensures Walk(s, w, tenant, [], own, 0) == (w, Exhausted(0))
  {}

  /**
   * A tenant with keys of its own is called only on providers it brought one for, and each call goes out with the
   * answer to its own ask, for that tenant and that provider: on the tenant's key if there is one, else on the
   * platform's.
   */
  lemma {:induction false} OwnKeysPay(s: Setup, w: World, tenant: string, task: Task)
    requires Accepted(s.config) && s.modelKeys.Some? && OwnProviders(s, w, tenant).1.Some? && OwnProviders(s, w, tenant).1.value != {}
    ensures var w1, own := Complete(s, w, tenant, task).0, OwnProviders(s, w, tenant).1.value;
      && w.log <= w1.log
      && var calls := Calls(w1.log[|w.log|..]);
      && forall i :: 0 <= i < |calls| ==>
           && calls[i].Invoked? && calls[i].tenant == tenant && calls[i].candidate.provider in own
           && var answer := s.modelKeys.value.resolve(w.keys + i, tenant, calls[i].candidate.provider);
           && !answer.Unsealable? && calls[i].key == (if answer.Key? then Some(answer.key) else None)
  {
    hide Complete, Tallied, Calls, Rows, Sleep, FirstSuccess, Eligible, CandidatesFor, Accepted, OwnProviders, Power;
    var added := CompleteWalks(s, w, tenant, task);
    var w1, own := Complete(s, w, tenant, task).0, OwnProviders(s, w, tenant).1.value;
    assert added == w1.log[|w.log|..];
    var calls := Calls(added);
    forall i | 0 <= i < |calls|
      ensures calls[i].Invoked? && calls[i].tenant == tenant && calls[i].candidate.provider in own && KeyAnswered(s, own, calls[i], w.keys + i)
    {
      CallsAreIn(added, i);
      assert MayUse(s, task, own, calls[i].candidate);
    }
  }

  lemma CallsAreIn(log: seq<Event>, i: nat)
    requires i < |Calls(log)|
    ensures Calls(log)[i] in log && Calls(log)[i].Invoked?
  {
    assert Calls(log)[i] in Calls(log);
  }

  // ---------------------------------------------------------------------------------------------
  // Whether a tenant's own keys pay for everything

  /** The vault says the same of a tenant's keys however often it is asked. */
  ghost predicate Steady(s: Setup, tenant: string, keys: string -> KeyAnswer) {
    s.modelKeys.Some? && forall n: nat, provider :: s.modelKeys.value.resolve(n, tenant, provider) == keys(provider)
  }

  /** Going through the candidates, none has its key gone unless one before it has a key that cannot be unsealed. */
  predicate NoneGoneFirst(keys: string -> KeyAnswer, candidates: seq<Candidate>) {
    candidates == [] ||
    match keys(candidates[0].provider)
    case Key(_) => NoneGoneFirst(keys, candidates[1..])
    case NoKey => false
    case Unsealable => true
  }

  /** Every call between the two logs is made on a key of the tenant's. */
  ghost predicate OnOwnKeys(before: seq<Event>, after: seq<Event>) {
    before <= after && forall i :: |before| <= i < |after| && after[i].Invoked? ==> after[i].key.Some?
  }

  lemma OnOwnKeysJoin(a: seq<Event>, b: seq<Event>, c: seq<Event>)
    requires OnOwnKeys(a, b) && OnOwnKeys(b, c)
    ensures OnOwnKeys(a, c)
  {
    forall i | |a| <= i < |c| && c[i].Invoked? ensures c[i].key.Some? {
      if i < |b| { assert b[i] == c[i]; }
    }
  }

  lemma {:induction false} TryPays(s: Setup, w: World, tenant: string, c: Candidate, own: set<string>, number: nat, keys: string -> KeyAnswer)
    requires Steady(s, tenant, keys) && own != {} && !keys(c.provider).NoKey?
    ensures var (w1, tried) := Try(s, w, tenant, c, own, number);
      OnOwnKeys(w.log, w1.log) && (keys(c.provider).Unsealable? ==> tried == Over(Threw))
  {
    hide Check, Remember;
    var (w1, key) := KeyFor(s, w, tenant, c.provider, own);
    if key.Some? {
      assert key.value.Some?;
      var w2 := Call(w1, tenant, c, key.value);
      if !s.provider(w1.calls).Answers? {
        var f, w3 := AsFailure(s.provider(w1.calls)), Logged(w2, Row(tenant, c, number, false, true));
        RememberIs(s, w3, tenant, c, f);
        ChecksAreSilent(s, Remember(s, w3, tenant, c, f), tenant, c);
      }
    }
  }

  lemma {:induction false} TriesPay(s: Setup, w: World, tenant: string, c: Candidate, own: set<string>, attempt: nat, attempts: nat,
                                    keys: string -> KeyAnswer)
    requires Steady(s, tenant, keys) && own != {} && !keys(c.provider).NoKey? && 1 <= attempt <= s.config.attemptsPerModel
    ensures var (w1, _, how) := Tries(s, w, tenant, c, own, attempt, attempts);
      OnOwnKeys(w.log, w1.log) && (keys(c.provider).Unsealable? ==> how == Threw)
    decreases s.config.attemptsPerModel - attempt
  {
    hide Try, Steady;
    TryPays(s, w, tenant, c, own, attempts + 1, keys);
    var (w1, tried) := Try(s, w, tenant, c, own, attempts + 1);
    if tried.Again? && attempt < s.config.attemptsPerModel {
      var w2 := Logged(w1, Slept(Backoff(attempt)));
      TriesPay(s, w2, tenant, c, own, attempt + 1, attempts + 1, keys);
      OnOwnKeysJoin(w.log, w1.log, w2.log);
      OnOwnKeysJoin(w.log, w2.log, Tries(s, w2, tenant, c, own, attempt + 1, attempts + 1).0.log);
    }
  }

  // Memory along the walk

  /** Whatever is remembered of a candidate, the tenant has a key that can be used there. */
  ghost predicate RemembersUsable(w: World, tenant: string, c: Candidate, keys: string -> KeyAnswer) {
    ProviderScope(c.provider) in w.memories || CredentialScope(tenant, c.reference) in w.memories ==> keys(c.provider).Key?
  }

  ghost predicate AllUsable(w: World, tenant: string, candidates: seq<Candidate>, keys: string -> KeyAnswer) {
    && (forall c :: c in candidates ==> RemembersUsable(w, tenant, c, keys))
    && (forall c, c' :: c in candidates && c' in candidates && c.reference == c'.reference ==> c == c')
  }

  /** The second world remembers no more than the first, but for one candidate. */
  predicate RemembersFewer(before: World, after: World, tenant: string, c: Candidate) {
    after.memories.Keys <= before.memories.Keys + {ProviderScope(c.provider), CredentialScope(tenant, c.reference)}
  }

  lemma {:induction false} CheckRemembers(s: Setup, w: World, tenant: string, c: Candidate)
    ensures var (w1, blocked) := Check(s, w, tenant, c);
      && w1.memories.Keys == w.memories.Keys
      && (blocked.Some? ==> ProviderScope(c.provider) in w.memories || CredentialScope(tenant, c.reference) in w.memories)
  {}

  lemma {:induction false} TryRemembers(s: Setup, w: World, tenant: string, c: Candidate, own: set<string>, number: nat)
    ensures RemembersFewer(w, Try(s, w, tenant, c, own, number).0, tenant, c)
  {
    hide Check, ProviderScope, CredentialScope;
    var (w1, key) := KeyFor(s, w, tenant, c.provider, own);
    if key.Some? && !s.provider(w1.calls).Answers? {
      var f, w2 := AsFailure(s.provider(w1.calls)), Call(w1, tenant, c, key.value);
      CheckRemembers(s, Remember(s, Logged(w2, Row(tenant, c, number, false, key.value.Some?)), tenant, c, f), tenant, c);
    }
  }

  lemma {:induction false} TriesRemember(s: Setup, w: World, tenant: string, c: Candidate, own: set<string>, attempt: nat, attempts: nat)
    requires 1 <= attempt <= s.config.attemptsPerModel
    ensures RemembersFewer(w, Tries(s, w, tenant, c, own, attempt, attempts).0, tenant, c)
    decreases s.config.attemptsPerModel - attempt
  {
    hide Try, ProviderScope, CredentialScope;
    TryRemembers(s, w, tenant, c, own, attempts + 1);
    var (w1, tried) := Try(s, w, tenant, c, own, attempts + 1);
    if tried.Again? && attempt < s.config.attemptsPerModel {
      TriesRemember(s, Logged(w1, Slept(Backoff(attempt))), tenant, c, own, attempt + 1, attempts + 1);
    }
  }

  /** A candidate the tenant has a key for leaves only usable memories behind. */
  lemma UsableAfter(w: World, w1: World, tenant: string, candidates: seq<Candidate>, keys: string -> KeyAnswer)
    requires candidates != [] && AllUsable(w, tenant, candidates, keys)
    requires w1.memories.Keys == w.memories.Keys || (keys(candidates[0].provider).Key? && RemembersFewer(w, w1, tenant, candidates[0]))
    ensures AllUsable(w1, tenant, candidates[1..], keys)
  {
    var first := candidates[0];
    forall c | c in candidates[1..] ensures RemembersUsable(w1, tenant, c, keys) {
      hide ProviderScope, CredentialScope;
      assert RemembersUsable(w, tenant, c, keys);
      ScopesApart(tenant, first, c);
    }
  }

  lemma ScopesApart(tenant: string, a: Candidate, b: Candidate)
    ensures ProviderScope(a.provider) != CredentialScope(tenant, b.reference)
    ensures CredentialScope(tenant, a.reference) != ProviderScope(b.provider)
    ensures ProviderScope(a.provider) == ProviderScope(b.provider) ==> a.provider == b.provider
    ensures CredentialScope(tenant, a.reference) == CredentialScope(tenant, b.reference) ==> a.reference == b.reference
  {
    ScopeKinds(a.provider, tenant, b.reference);
    ScopeKinds(b.provider, tenant, a.reference);
    if ProviderScope(a.provider) == ProviderScope(b.provider) { ProviderScopesDiffer(a.provider, b.provider); }
    CredentialScopesCollide(tenant, a.reference, tenant, b.reference);
  }

  // The two directions

  lemma {:induction false} WalkPays(s: Setup, w: World, tenant: string, candidates: seq<Candidate>, own: set<string>, attempts: nat,
                                    keys: string -> KeyAnswer)
    requires Steady(s, tenant, keys) && own != {} && NoneGoneFirst(keys, candidates) && AllUsable(w, tenant, candidates, keys)
    ensures OnOwnKeys(w.log, Walk(s, w, tenant, candidates, own, attempts).0.log)
    decreases |candidates|
  {
    hide Check, Tries, Steady, OnOwnKeys, AllUsable, RemembersFewer;
    if candidates == [] {
      NothingAdded(w.log);
      return;
    }
    var c, rest := candidates[0], candidates[1..];
    ChecksAreSilent(s, w, tenant, c);
    CheckRemembers(s, w, tenant, c);
    var (w1, blocked) := Check(s, w, tenant, c);
    if blocked.Some? {
      var w2 := Logged(w1, Skipped(tenant, c, w1.time, blocked.value));
      OneAdded(w.log, Skipped(tenant, c, w1.time, blocked.value));
      BlockedIsUsable(w, tenant, candidates, keys);
      UsableAfter(w, w2, tenant, candidates, keys);
      WalkPays(s, w2, tenant, rest, own, attempts, keys);
      OnOwnKeysJoin(w.log, w2.log, Walk(s, w2, tenant, rest, own, attempts).0.log);
    } else {
      TriesPay(s, w1, tenant, c, own, 1, attempts, keys);
      TriesRemember(s, w1, tenant, c, own, 1, attempts);
      var (w2, n, how) := Tries(s, w1, tenant, c, own, 1, attempts);
      if how.Moved? {
        FewerOfSame(w, w1, w2, tenant, c);
        UsableAfter(w, w2, tenant, candidates, keys);
        WalkPays(s, w2, tenant, rest, own, n, keys);
        OnOwnKeysJoin(w.log, w2.log, Walk(s, w2, tenant, rest, own, n).0.log);
      }
    }
  }

  lemma NothingAdded(log: seq<Event>)
    ensures OnOwnKeys(log, log)
  {}

  lemma OneAdded(log: seq<Event>, e: Event)
    requires e.Invoked? ==> e.key.Some?
    ensures OnOwnKeys(log, log + [e])
  {}

  lemma BlockedIsUsable(w: World, tenant: string, candidates: seq<Candidate>, keys: string -> KeyAnswer)
    requires candidates != [] && AllUsable(w, tenant, candidates, keys)
    requires var c := candidates[0]; ProviderScope(c.provider) in w.memories || CredentialScope(tenant, c.reference) in w.memories
    ensures keys(candidates[0].provider).Key?
  {
    assert RemembersUsable(w, tenant, candidates[0], keys);
  }

  lemma FewerOfSame(w: World, w1: World, w2: World, tenant: string, c: Candidate)
    requires w1.memories.Keys == w.memories.Keys && RemembersFewer(w1, w2, tenant, c)
    ensures RemembersFewer(w, w2, tenant, c)
  {}

  /** A provider that refuses every key. */
  function RefusesKeys(): nat -> Outcome { (_: nat) => Raises(true, Some(CredentialFault), None) }

  /** It is given every candidate's key once. */
  lemma {:induction false} RefusedOnce(s: Setup, w: World, tenant: string, c: Candidate, own: set<string>, attempts: nat, keys: string -> KeyAnswer)
    requires Steady(s, tenant, keys) && own != {} && !keys(c.provider).Unsealable? && s.provider == RefusesKeys()
    ensures var (w1, n, how) := Tries(s, w, tenant, c, own, 1, attempts);
      how == Moved && w.log < w1.log && w1.log[|w.log|].Invoked? && (w1.log[|w.log|].key.None? <==> keys(c.provider).NoKey?)
  {
    hide Check, ScopeFor, RecordFault;
    var (w1, key) := KeyFor(s, w, tenant, c.provider, own);
    assert s.modelKeys.value.resolve(w.keys, tenant, c.provider) == keys(c.provider);
    assert s.provider(w1.calls) == Raises(true, Some(CredentialFault), None);
    assert Try(s, w, tenant, c, own, attempts + 1).1 == Over(Moved);
  }

  lemma {:induction false} GoneShows(s: Setup, w: World, tenant: string, candidates: seq<Candidate>, own: set<string>, attempts: nat,
                                     keys: string -> KeyAnswer)
    requires Steady(s, tenant, keys) && own != {} && s.provider == RefusesKeys()
    requires !NoneGoneFirst(keys, candidates) && AllUsable(w, tenant, candidates, keys)
    ensures !OnOwnKeys(w.log, Walk(s, w, tenant, candidates, own, attempts).0.log)
    decreases |candidates|
  {
    hide Check, Tries, Steady, OnOwnKeys, AllUsable, RemembersFewer, RefusesKeys;
    var c, rest := candidates[0], candidates[1..];
    ChecksAreSilent(s, w, tenant, c);
    CheckRemembers(s, w, tenant, c);
    var (w1, blocked) := Check(s, w, tenant, c);
    if blocked.Some? {
      var w2 := Logged(w1, Skipped(tenant, c, w1.time, blocked.value));
      BlockedIsUsable(w, tenant, candidates, keys);
      UsableAfter(w, w2, tenant, candidates, keys);
      GoneShows(s, w2, tenant, rest, own, attempts, keys);
      var added := WalkTrace(s, w2, tenant, rest, own, attempts);
      OwnKeysBehind(w.log, w2.log, w2.log + added);
    } else {
      RefusedOnce(s, w1, tenant, c, own, attempts, keys);
      TriesRemember(s, w1, tenant, c, own, 1, attempts);
      var (w2, n, how) := Tries(s, w1, tenant, c, own, 1, attempts);
      var added := WalkTrace(s, w2, tenant, rest, own, n);
      if keys(c.provider).NoKey? {
        PlatformCallShows(w.log, w2.log, added);
      } else {
        FewerOfSame(w, w1, w2, tenant, c);
        UsableAfter(w, w2, tenant, candidates, keys);
        GoneShows(s, w2, tenant, rest, own, n, keys);
        OwnKeysBehind(w.log, w2.log, w2.log + added);
      }
    }
  }

  lemma OwnKeysBehind(a: seq<Event>, b: seq<Event>, c: seq<Event>)
    requires a <= b && b <= c && !OnOwnKeys(b, c)
    ensures !OnOwnKeys(a, c)
  {}

  lemma PlatformCallShows(a: seq<Event>, b: seq<Event>, added: seq<Event>)
    requires a < b && b[|a|].Invoked? && b[|a|].key.None?
    ensures !OnOwnKeys(a, b + added)
  {
    assert (b + added)[|a|] == b[|a|];
  }

  lemma {:induction false} ResolvedOnce(config: Config, route: seq<string>)
    requires Accepted(config) && forall r :: r in route ==> r in config.models
    ensures forall c, c' :: c in ResolveAll(config, route) && c' in ResolveAll(config, route) && c.reference == c'.reference ==> c == c'
  {}

  /**
   * With a vault that says the same of a tenant's keys however often it is asked, and no fault remembered but where
   * the tenant has a key: whatever the providers do, every call is on the tenant's own keys, exactly when no
   * candidate's key is gone before one that cannot be unsealed.
   */
  lemma {:induction false} OwnKeysPayForAllIff(s: Setup, w: World, tenant: string, task: Task, keys: string -> KeyAnswer)
    requires Accepted(s.config) && Steady(s, tenant, keys)
    requires OwnProviders(s, w, tenant).1.Some? && OwnProviders(s, w, tenant).1.value != {}
    requires forall c :: c in Eligible(CandidatesFor(s.config, task), OwnProviders(s, w, tenant).1.value) ==> RemembersUsable(w, tenant, c, keys)
    ensures NoneGoneFirst(keys, Eligible(CandidatesFor(s.config, task), OwnProviders(s, w, tenant).1.value)) <==>
      forall provider :: OnOwnKeys(w.log, Complete(s.(provider := provider), w, tenant, task).0.log)
  {
    hide Walk, Eligible, CandidatesFor, Accepted, OnOwnKeys, NoneGoneFirst, RemembersUsable, RefusesKeys;
    var (w1, listed) := OwnProviders(s, w, tenant);
    var own := listed.value;
    var candidates := Eligible(CandidatesFor(s.config, task), own);
    assert AllUsable(w1, tenant, candidates, keys) by {
      UsableFromTheStart(s, w, w1, tenant, task, own, keys);
    }
    if NoneGoneFirst(keys, candidates) {
      forall provider ensures OnOwnKeys(w.log, Complete(s.(provider := provider), w, tenant, task).0.log) {
        var s' := s.(provider := provider);
        assert OwnProviders(s', w, tenant) == (w1, listed);
        WalkPays(s', w1, tenant, candidates, own, 0, keys);
      }
    } else {
      var s' := s.(provider := RefusesKeys());
      assert OwnProviders(s', w, tenant) == (w1, listed);
      GoneShows(s', w1, tenant, candidates, own, 0, keys);
      assert !OnOwnKeys(w.log, Complete(s.(provider := RefusesKeys()), w, tenant, task).0.log);
    }
  }

  lemma UsableFromTheStart(s: Setup, w: World, w1: World, tenant: string, task: Task, own: set<string>, keys: string -> KeyAnswer)
    requires Accepted(s.config) && w1.memories == w.memories
    requires forall c :: c in Eligible(CandidatesFor(s.config, task), own) ==> RemembersUsable(w, tenant, c, keys)
    ensures AllUsable(w1, tenant, Eligible(CandidatesFor(s.config, task), own), keys)
  {
    var candidates := Eligible(CandidatesFor(s.config, task), own);
    forall c | c in candidates ensures RemembersUsable(w1, tenant, c, keys) {
      assert RemembersUsable(w, tenant, c, keys);
    }
    ResolvedOnce(s.config, s.config.routes(task));
  }

  /** A key that went between being listed and being used: the call goes out on the platform's. */
  function KeyGone(): Setup {
    Setup(
      Config(map["p" := ProviderEntry(Anthropic, None)], map["m" := ModelEntry("p", "m", Premium)], (_: Task) => ["m"], None, 1),
      Policy(3, 15000, 300000),
      (_: nat) => 0,
      (_: nat) => Answers("hello"),
      Some(ModelKeys((_: nat, _: string) => Names({"p"}), (_: nat, _: string, _: string) => NoKey)))
  }

  lemma PlatformCanPay()
    ensures Accepted(KeyGone().config)
    ensures var (w1, result) := Complete(KeyGone(), New(KeyGone()), "t", Simple);
      && OwnProviders(KeyGone(), New(KeyGone()), "t").1 == Some({"p"})
      && Invoked("t", Candidate("m", "p", "m", Premium), 0, None) in w1.log
  {
    var s, c := KeyGone(), Candidate("m", "p", "m", Premium);
    assert CandidatesFor(s.config, Simple) == [c];
    var own := {"p"};
    FilterOne((c: Candidate) => c.provider in own, c);
    var w0 := OwnProviders(s, New(s), "t").0;
    assert Eligible([c], own) == [c];
    var w1 := Check(s, w0, "t", c).0;
    var w2 := Try(s, w1, "t", c, own, 1).0;
    assert w2.log == [Invoked("t", c, 0, None), Recovered("t", c), Row("t", c, 1, true, false)];
    assert Tries(s, w1, "t", c, own, 1, 0) == (w2, 1, Answered("hello"));
    assert Invoked("t", c, 0, None) == w2.log[0];
  }
}
