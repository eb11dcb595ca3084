/**
 * What follows a provider's answer: which row, which fault and which wait, read off the providers' outcomes and the log.
 */
module GatewayAnswers {
  import opened Basics
  import opened Routing
  import opened Availability
  import opened Gateway
  import opened GatewaySafety

  /** How many calls went out before this one: which of the providers' outcomes it came to. */
  function CallsBefore(log: seq<Event>, k: nat): nat
    requires k <= |log|
  {
    if k == 0 then 0 else CallsBefore(log, k - 1) + if log[k - 1].Invoked? then 1 else 0
  }

  /** An outcome worth another try, and what it says of the fault: whose it is, and when to return. */
  ghost predicate Transient(o: Outcome, kind: Kind, retryAfterMs: Option<int>) {
    match o
    case Answers(_) => false
    case Raises(retryable, given, wait) => retryable && retryAfterMs == wait && kind == if given.Some? then given.value else ProviderFault
    case Throws(timedOut) => timedOut && kind == ProviderFault && retryAfterMs == None
  }

  predicate RowAt(log: seq<Event>, k: nat, call: Event, succeeded: bool)
    requires call.Invoked?
  {
    k < |log| && log[k].Row? && log[k].tenant == call.tenant && log[k].candidate == call.candidate && log[k].succeeded == succeeded
  }

  /** A call, and what it leaves: a recovery and a success; or a failure, and its fault if it is worth another try. */
  ghost predicate Followed(s: Setup, log: seq<Event>, k: nat)
    requires k < |log| && log[k].Invoked?
  {
    var e, o := log[k], s.provider(CallsBefore(log, k));
    && (o.Answers? ==> k + 2 < |log| && log[k + 1] == Recovered(e.tenant, e.candidate) && RowAt(log, k + 2, e, true))
    && (!o.Answers? ==> RowAt(log, k + 1, e, false))
    && (forall kind, wait :: Transient(o, kind, wait) ==> FaultAt(log, k + 2, e, kind, wait))
  }

  /** The fault of a call, and what it was told. */
  ghost predicate FaultAt(log: seq<Event>, j: nat, call: Event, kind: Kind, wait: Option<int>)
    requires call.Invoked?
  {
    && j < |log| && log[j].Failed? && log[j].tenant == call.tenant && log[j].candidate == call.candidate
    && log[j].fault.kind == kind && log[j].fault.retryAfterMs == wait && call.at <= log[j].fault.now
  }

  /** Faults and recoveries come of calls. */
  ghost predicate ComesOf(s: Setup, log: seq<Event>, j: nat)
    requires j < |log|
  {
    && (log[j].Failed? ==>
          && j >= 2 && log[j - 2].Invoked?
          && Transient(s.provider(CallsBefore(log, j - 2)), log[j].fault.kind, log[j].fault.retryAfterMs))
    && (log[j].Recovered? ==> j >= 1 && log[j - 1].Invoked? && s.provider(CallsBefore(log, j - 1)).Answers?)
  }

  ghost predicate Explained(s: Setup, w: World) {
    && w.calls == CallsBefore(w.log, |w.log|)
    && w.time <= s.clock(w.ticks)
    && (forall k :: 0 <= k < |w.log| && w.log[k].Invoked? ==> Followed(s, w.log, k))
    && (forall j :: 0 <= j < |w.log| ==> ComesOf(s, w.log, j))
  }

  lemma {:induction false} CallsBeforePrefix(a: seq<Event>, b: seq<Event>, k: nat)
    requires k <= |a| && a <= b
    ensures CallsBefore(b, k) == CallsBefore(a, k)
  {
    if k > 0 { CallsBeforePrefix(a, b, k - 1); }
  }

  lemma FollowedStays(s: Setup, a: seq<Event>, b: seq<Event>, k: nat)
    requires k < |a| && a[k].Invoked? && Followed(s, a, k) && a <= b
    ensures Followed(s, b, k)
  {
    hide Transient;
    CallsBeforePrefix(a, b, k);
    forall kind, wait | Transient(s.provider(CallsBefore(b, k)), kind, wait) ensures FaultAt(b, k + 2, b[k], kind, wait) {
      assert FaultAt(a, k + 2, a[k], kind, wait);
    }
  }

  lemma ComesOfStays(s: Setup, a: seq<Event>, b: seq<Event>, j: nat)
    requires j < |a| && ComesOf(s, a, j) && a <= b
    ensures ComesOf(s, b, j)
  {
    hide Transient;
    if a[j].Failed? { CallsBeforePrefix(a, b, j - 2); }
    if a[j].Recovered? { CallsBeforePrefix(a, b, j - 1); }
  }

  /** An event that comes of no call. */
  lemma QuietExplained(s: Setup, w: World, w1: World, e: Event)
    requires Explained(s, w) && (e.Slept? || e.Skipped?) && w1.log == w.log + [e] && w1.calls == w.calls && w1.time <= s.clock(w1.ticks)
    ensures Explained(s, w1)
  {
    hide Followed, ComesOf;
    CallsBeforePrefix(w.log, w1.log, |w.log|);
    forall k | 0 <= k < |w1.log| && w1.log[k].Invoked? ensures Followed(s, w1.log, k) { FollowedStays(s, w.log, w1.log, k); }
    forall j | 0 <= j < |w1.log| ensures ComesOf(s, w1.log, j) {
      if j < |w.log| { ComesOfStays(s, w.log, w1.log, j); } else { QuietComesOfNothing(s, w1.log, j); }
    }
  }

  lemma QuietComesOfNothing(s: Setup, log: seq<Event>, j: nat)
    requires j < |log| && !log[j].Failed? && !log[j].Recovered?
    ensures ComesOf(s, log, j)
  {}

  lemma TimeExplained(s: Setup, w: World, w1: World)
    requires Explained(s, w) && w1.log == w.log && w1.calls == w.calls && w1.time <= s.clock(w1.ticks)
    ensures Explained(s, w1)
  {
    hide Followed, ComesOf;
  }

  /** One call and what it left behind it. */
  lemma CallExplained(s: Setup, w: World, w1: World, added: seq<Event>)
    requires Explained(s, w) && w1.log == w.log + added && w1.calls == w.calls + 1 && w1.time <= s.clock(w1.ticks)
    requires 2 <= |added| <= 3 && added[0].Invoked? && (forall i :: 1 <= i < |added| ==> !added[i].Invoked?)
    requires Followed(s, w1.log, |w.log|) && forall j :: |w.log| <= j < |w1.log| ==> ComesOf(s, w1.log, j)
    ensures Explained(s, w1)
  {
    hide Followed, ComesOf;
    CountAdded(w.log, added);
    forall k | 0 <= k < |w1.log| && w1.log[k].Invoked? ensures Followed(s, w1.log, k) {
      if k < |w.log| { FollowedStays(s, w.log, w1.log, k); } else { assert added[k - |w.log|].Invoked?; }
    }
    forall j | 0 <= j < |w1.log| ensures ComesOf(s, w1.log, j) {
      if j < |w.log| { ComesOfStays(s, w.log, w1.log, j); }
    }
  }

  lemma CountAdded(log: seq<Event>, added: seq<Event>)
    requires 2 <= |added| <= 3 && added[0].Invoked? && (forall i :: 1 <= i < |added| ==> !added[i].Invoked?)
    ensures CallsBefore(log + added, |log + added|) == CallsBefore(log, |log|) + 1
    ensures CallsBefore(log + added, |log|) == CallsBefore(log, |log|)
  {
    var all := log + added;
    CallsBeforePrefix(log, all, |log|);
    assert all[|log|] == added[0] && all[|log| + 1] == added[1];
    assert CallsBefore(all, |log| + 1) == CallsBefore(log, |log|) + 1;
    assert CallsBefore(all, |log| + 2) == CallsBefore(log, |log|) + 1;
    if |added| == 3 { assert all[|log| + 2] == added[2]; }
  }

  // ---------------------------------------------------------------------------------------------
  // One attempt

  /** What an attempt adds to the log: nothing, or a call and what its outcome asks for. */
  ghost predicate Adds(s: Setup, w: World, w1: World, tenant: string, c: Candidate, added: seq<Event>) {
    && w1.log == w.log + added && w1.time <= s.clock(w1.ticks)
    && if added == [] then w1.calls == w.calls
       else
         && w1.calls == w.calls + 1
         && added[0].Invoked? && added[0].tenant == tenant && added[0].candidate == c
         && AddsFor(s.provider(w.calls), added)
  }

  ghost predicate AddsFor(o: Outcome, added: seq<Event>)
    requires added != [] && added[0].Invoked?
  {
    var e := added[0];
    || (o.Answers? && |added| == 3 && added[1] == Recovered(e.tenant, e.candidate) && RowAt(added, 2, e, true))
    || (!o.Answers? && |added| == 2 && RowAt(added, 1, e, false) && forall kind, wait :: !Transient(o, kind, wait))
    || (&& !o.Answers? && |added| == 3 && RowAt(added, 1, e, false) && added[2].Failed?
        && Transient(o, added[2].fault.kind, added[2].fault.retryAfterMs)
        && FaultAt(added, 2, e, added[2].fault.kind, added[2].fault.retryAfterMs))
  }

  lemma {:induction false} RememberAdds(s: Setup, w: World, tenant: string, c: Candidate, f: Failure)
    requires Monotone(s) && w.time <= s.clock(w.ticks)
    ensures var w1 := Remember(s, w, tenant, c, f);
      && w1.calls == w.calls && w1.time <= s.clock(w1.ticks)
      && |w1.log| == |w.log| + 1 && w1.log == w.log + [w1.log[|w.log|]]
      && var e := w1.log[|w.log|];
      && e.Failed? && e.tenant == tenant && e.candidate == c
      && e.fault.kind == f.kind && e.fault.retryAfterMs == f.retryAfterMs && w.time <= e.fault.now
  {
    assert s.clock(w.ticks) <= s.clock(w.ticks + 1);
  }

  lemma {:induction false} CheckTakesTime(s: Setup, w: World, tenant: string, c: Candidate)
    requires Monotone(s)
    ensures var w1 := Check(s, w, tenant, c).0; w1.log == w.log && w1.calls == w.calls && w1.time <= s.clock(w1.ticks)
  {
    assert s.clock(w.ticks) <= s.clock(w.ticks + 1);
  }

  /** How a failure reads an outcome. */
  lemma FailureReads(o: Outcome)
    requires !o.Answers?
    ensures var f := AsFailure(o);
      && (f.retryable ==> Transient(o, f.kind, f.retryAfterMs))
      && (!f.retryable ==> forall kind, wait :: !Transient(o, kind, wait))
  {}

  lemma {:induction false} TryAdds(s: Setup, w: World, tenant: string, c: Candidate, own: set<string>, number: nat) returns (added: seq<Event>)
    requires Monotone(s) && w.time <= s.clock(w.ticks)
    ensures var (w1, tried) := Try(s, w, tenant, c, own, number);
      && Adds(s, w, w1, tenant, c, added)
      && (tried.Again? || tried == Over(Moved) ==> |added| == 3 && added[2].Failed? && (tried.Again? ==> added[2].fault.kind != CredentialFault))
  {
    hide Check, Remember, AsFailure, Transient, FaultAt;
    var (w1, key) := KeyFor(s, w, tenant, c.provider, own);
    if key.None? {
      added := [];
      assert w.log + [] == w.log;
      return;
    }
    var call := Invoked(tenant, c, w1.time, key.value);
    var w2 := Call(w1, tenant, c, key.value);
    match s.provider(w1.calls) {
      case Answers(text) =>
        added := [call, Recovered(tenant, c), Row(tenant, c, number, true, key.value.Some?)];
        assert w.log + [call] + [added[1]] + [added[2]] == w.log + added;
      case o =>
        FailureReads(o);
        var f, row := AsFailure(o), Row(tenant, c, number, false, key.value.Some?);
        var w3 := Logged(w2, row);
        added := [call, row];
        assert w3.log == w.log + added;
        if f.retryable {
          RememberAdds(s, w3, tenant, c, f);
          var w4 := Remember(s, w3, tenant, c, f);
          var fault := w4.log[|w3.log|];
          added := [call, row, fault];
          assert w4.log == w.log + added;
          CheckTakesTime(s, w4, tenant, c);
          FaultIs(added, call, f.kind, f.retryAfterMs);
          assert Try(s, w, tenant, c, own, number).0 == if f.kind == CredentialFault then w4 else Check(s, w4, tenant, c).0;
        }
    }
  }

  lemma FaultIs(added: seq<Event>, call: Event, kind: Kind, wait: Option<int>)
    requires |added| == 3 && call.Invoked? && added[2].Failed? && added[2].tenant == call.tenant && added[2].candidate == call.candidate
    requires added[2].fault.kind == kind && added[2].fault.retryAfterMs == wait && call.at <= added[2].fault.now
    ensures FaultAt(added, 2, call, kind, wait)
  {}

  lemma AddedIsFollowed(s: Setup, w: World, w1: World, tenant: string, c: Candidate, added: seq<Event>)
    requires Explained(s, w) && Adds(s, w, w1, tenant, c, added) && added != []
    ensures w1.log[|w.log|].Invoked? && Followed(s, w1.log, |w.log|)
  {
    hide Transient, ComesOf;
    CallsBeforePrefix(w.log, w1.log, |w.log|);
    var n, o := |w.log|, s.provider(w.calls);
    assert forall i :: 0 <= i < |added| ==> w1.log[n + i] == added[i];
    if o.Answers? { NothingTransient(o); }
    if |added| == 3 && added[2].Failed? {
      forall kind, wait | Transient(o, kind, wait) ensures FaultAt(w1.log, n + 2, added[0], kind, wait) {
        OneReading(o, kind, wait, added[2].fault.kind, added[2].fault.retryAfterMs);
      }
    }
  }

  lemma AddedComesOf(s: Setup, w: World, w1: World, tenant: string, c: Candidate, added: seq<Event>, j: nat)
    requires Explained(s, w) && Adds(s, w, w1, tenant, c, added) && added != [] && |w.log| <= j < |w1.log|
    ensures ComesOf(s, w1.log, j)
  {
    hide Transient, FaultAt, Followed;
    CallsBeforePrefix(w.log, w1.log, |w.log|);
    var n := |w.log|;
    assert w1.log[j] == added[j - n];
    if j > n { assert w1.log[j - 1] == added[j - n - 1]; }
    if j > n + 1 { assert w1.log[j - 2] == added[j - n - 2]; }
  }

  lemma OneReading(o: Outcome, kind: Kind, wait: Option<int>, kind': Kind, wait': Option<int>)
    requires Transient(o, kind, wait) && Transient(o, kind', wait')
    ensures kind == kind' && wait == wait'
  {}

  lemma NothingTransient(o: Outcome)
    requires o.Answers?
    ensures forall kind, wait :: !Transient(o, kind, wait)
  {}

  lemma {:induction false} TryExplained(s: Setup, w: World, tenant: string, c: Candidate, own: set<string>, number: nat)
    requires Monotone(s) && Explained(s, w)
    ensures Explained(s, Try(s, w, tenant, c, own, number).0)
  {
    hide Try, Followed, ComesOf, AddsFor, Monotone;
    var w1 := Try(s, w, tenant, c, own, number).0;
    var added := TryAdds(s, w, tenant, c, own, number);
    if added == [] {
      assert w1.log == w.log;
      TimeExplained(s, w, w1);
    } else {
      AddedIsFollowed(s, w, w1, tenant, c, added);
      forall j | |w.log| <= j < |w1.log| ensures ComesOf(s, w1.log, j) { AddedComesOf(s, w, w1, tenant, c, added, j); }
      AddedIsOneCall(s.provider(w.calls), added);
      CallExplained(s, w, w1, added);
    }
  }

  lemma AddedIsOneCall(o: Outcome, added: seq<Event>)
    requires added != [] && added[0].Invoked? && AddsFor(o, added)
    ensures 2 <= |added| <= 3 && forall i :: 1 <= i < |added| ==> !added[i].Invoked?
  {}

  // ---------------------------------------------------------------------------------------------
  // Whole requests

  lemma {:induction false} TriesExplained(s: Setup, w: World, tenant: string, c: Candidate, own: set<string>, attempt: nat, attempts: nat)
    requires Monotone(s) && Explained(s, w) && attempt >= 1
    ensures Explained(s, Tries(s, w, tenant, c, own, attempt, attempts).0)
    decreases s.config.attemptsPerModel + 1 - attempt
  {
    hide Try, Explained, Monotone, Backoff;
    if attempt <= s.config.attemptsPerModel {
      TryExplained(s, w, tenant, c, own, attempts + 1);
      var (w1, tried) := Try(s, w, tenant, c, own, attempts + 1);
      if tried.Again? && attempt < s.config.attemptsPerModel {
        var w2 := Logged(w1, Slept(Backoff(attempt)));
        InTime(s, w1);
        QuietExplained(s, w1, w2, Slept(Backoff(attempt)));
        TriesExplained(s, w2, tenant, c, own, attempt + 1, attempts + 1);
      }
    }
  }

  lemma InTime(s: Setup, w: World)
    requires Explained(s, w)
    ensures w.time <= s.clock(w.ticks)
  {}

  lemma {:induction false} WalkExplained(s: Setup, w: World, tenant: string, candidates: seq<Candidate>, own: set<string>, attempts: nat)
    requires Monotone(s) && Explained(s, w)
    ensures Explained(s, Walk(s, w, tenant, candidates, own, attempts).0)
    decreases |candidates|
  {
    hide Check, Tries, Explained, Monotone;
    if candidates != [] {
      CheckTakesTime(s, w, tenant, candidates[0]);
      var (w1, blocked) := Check(s, w, tenant, candidates[0]);
      TimeExplained(s, w, w1);
      if blocked.Some? {
        var skip := Skipped(tenant, candidates[0], w1.time, blocked.value);
        QuietExplained(s, w1, Logged(w1, skip), skip);
        WalkExplained(s, Logged(w1, skip), tenant, candidates[1..], own, attempts);
      } else {
        TriesExplained(s, w1, tenant, candidates[0], own, 1, attempts);
        var (w2, n, r) := Tries(s, w1, tenant, candidates[0], own, 1, attempts);
        if r.Moved? { WalkExplained(s, w2, tenant, candidates[1..], own, n); }
      }
    }
  }

  lemma {:induction false} AllExplained(s: Setup, w: World, requests: seq<Request>)
    requires Accepted(s.config) && Monotone(s) && Explained(s, w)
    ensures Explained(s, CompleteAll(s, w, requests))
    decreases |requests|
  {
    hide Walk, Explained, Accepted, Monotone, Eligible, CandidatesFor;
    if requests != [] {
      var tenant, task := requests[0].tenant, requests[0].task;
      var (w1, own) := OwnProviders(s, w, tenant);
      InTime(s, w);
      TimeExplained(s, w, w1);
      if own.Some? { WalkExplained(s, w1, tenant, Eligible(CandidatesFor(s.config, task), own.value), own.value, 0); }
      AllExplained(s, Complete(s, w, tenant, task).0, requests[1..]);
    }
  }

  lemma ExplainedFromTheStart(s: Setup, requests: seq<Request>)
    requires Accepted(s.config) && Monotone(s)
    ensures Explained(s, CompleteAll(s, New(s), requests))
  {
    hide CompleteAll, Accepted;
    assert Explained(s, New(s));
    AllExplained(s, New(s), requests);
  }

  // ---------------------------------------------------------------------------------------------
  // The theorems

  /**
   * Over any requests, the n-th call is followed by what the provider's n-th outcome asks for: an answer by a recovery and
   * the row of a success, anything else by the row of a failure; and a failure worth another try by a fault that carries
   * the kind and the Retry-After the provider gave, and none for a timeout.
   */
  lemma CallsAreFollowed(s: Setup, requests: seq<Request>, k: nat)
    requires Accepted(s.config) && Monotone(s)
    requires k < |CompleteAll(s, New(s), requests).log| && CompleteAll(s, New(s), requests).log[k].Invoked?
    ensures Followed(s, CompleteAll(s, New(s), requests).log, k)
  {
    hide CompleteAll, Accepted, Monotone, Followed, ComesOf;
    ExplainedFromTheStart(s, requests);
  }

  /** And nothing is charged or forgiven without such a call. */
  lemma FaultsComeOfCalls(s: Setup, requests: seq<Request>, j: nat)
    requires Accepted(s.config) && Monotone(s) && j < |CompleteAll(s, New(s), requests).log|
    ensures ComesOf(s, CompleteAll(s, New(s), requests).log, j)
  {
    hide CompleteAll, Accepted, Monotone, Followed, ComesOf;
    ExplainedFromTheStart(s, requests);
  }

  /** The call this one keeps waiting: of the same key if the key is at fault, of the same provider otherwise. */
  predicate SameScope(kind: Kind, a: Event, b: Event)
    requires a.Invoked? && b.Invoked?
  {
    if kind == CredentialFault then a.tenant == b.tenant && a.candidate.reference == b.candidate.reference
    else a.candidate.provider == b.candidate.provider
  }

  /** The scope of a call's fault. */
  function ScopeOf(kind: Kind, call: Event): string
    requires call.Invoked?
  {
    if kind == CredentialFault then CredentialScope(call.tenant, call.candidate.reference) else ProviderScope(call.candidate.provider)
  }

  /**
   * A provider that says when to return is not called before: neither it, nor, if it is the key that is at fault, that key;
   * at once for a key, for a provider from the configured number of faults in a row on.
   */
  lemma RetryAfterIsKept(s: Setup, requests: seq<Request>, j: nat, k: nat, kind: Kind, wait: int)
    requires Accepted(s.config) && Monotone(s)
    requires var log := CompleteAll(s, New(s), requests).log;
      && j < k < |log| && log[j].Invoked? && log[k].Invoked? && SameScope(kind, log[j], log[k])
      && Transient(s.provider(CallsBefore(log, j)), kind, Some(wait))
      && j + 2 < |log|
      && (kind == CredentialFault || Streak(log[..j + 2], ScopeOf(kind, log[j])) + 1 >= Max(1, s.policy.faultsBeforeSkipping))
    ensures var log := CompleteAll(s, New(s), requests).log; log[j].at + wait <= log[k].at
  {
    hide CompleteAll, Accepted, Transient, Streak, CallsBefore, ProviderScope, CredentialScope, Monotone;
    var log := CompleteAll(s, New(s), requests).log;
    CallsAreFollowed(s, requests, j);
    assert FaultAt(log, j + 2, log[j], kind, Some(wait));
    WaitsDouble(s, requests, j + 2);
    ScopeKinds(log[j].candidate.provider, log[j].tenant, log[j].candidate.reference);
    assert Blamed(log[j + 2]) == ScopeOf(kind, log[j]);
    assert log[j + 2].until == Some(log[j + 2].fault.now + wait);
    assert k > j + 2 by { FollowedByNoCall(s, log, j, kind, Some(wait)); }
    NeverCalledWhileWaiting(s, requests, j + 2, k);
  }

  lemma FollowedByNoCall(s: Setup, log: seq<Event>, j: nat, kind: Kind, wait: Option<int>)
    requires j < |log| && log[j].Invoked? && Followed(s, log, j) && Transient(s.provider(CallsBefore(log, j)), kind, wait)
    ensures j + 2 < |log| && !log[j + 1].Invoked? && !log[j + 2].Invoked?
  {
    assert FaultAt(log, j + 2, log[j], kind, wait);
  }

  // ---------------------------------------------------------------------------------------------
  // How long a candidate is tried, and why a request gives up

  /** Round by round: a call, its row, its fault, and a pause that doubles. */
  ghost predicate Rounds(added: seq<Event>, attempt: nat)
    requires attempt >= 1
    decreases |added|
  {
    if |added| <= 3 then forall e :: e in added ==> !e.Slept?
    else
      && added[0].Invoked? && added[1].Row? && added[2].Failed? && added[2].fault.kind != CredentialFault
      && added[3] == Slept(250 * Power(attempt - 1))
      && Rounds(added[4..], attempt + 1)
  }

  /** A provider whose wait was just not begun is not held back, nor is the key. */
  lemma NotHeldBack(s: Setup, w: World, tenant: string, c: Candidate, f: Failure)
    requires Monotone(s) && Ready(w, tenant, c) && w.time <= s.clock(w.ticks) && f.kind != CredentialFault
    requires var w1 := Remember(s, w, tenant, c, f); |w1.log| == |w.log| + 1 && w1.log[|w.log|].Failed? && w1.log[|w.log|].until.None?
    ensures Check(s, Remember(s, w, tenant, c, f), tenant, c).1.None?
  {
    hide Faulted, ProviderScope, CredentialScope;
    GatewaySafety.ScopesApart(c.provider, tenant, c.reference);
    assert s.clock(w.ticks) <= s.clock(w.ticks + 1);
  }

  lemma {:induction false} TryLeaves(s: Setup, w: World, tenant: string, c: Candidate, own: set<string>, number: nat)
    requires Monotone(s) && Ready(w, tenant, c) && w.time <= s.clock(w.ticks)
    requires Try(s, w, tenant, c, own, number).1 == Over(Moved)
    ensures var w1 := Try(s, w, tenant, c, own, number).0;
      && w1.log != [] && var last := w1.log[|w1.log| - 1];
      && last.Failed? && (last.fault.kind == CredentialFault || last.until.Some?)
  {
    hide Check, Remember, AsFailure, ProviderScope, CredentialScope;
    var (w1, key) := KeyFor(s, w, tenant, c.provider, own);
    var f := AsFailure(s.provider(w1.calls));
    var w3 := Logged(Call(w1, tenant, c, key.value), Row(tenant, c, number, false, key.value.Some?));
    assert Ready(w3, tenant, c);
    RememberAdds(s, w3, tenant, c, f);
    var w4 := Remember(s, w3, tenant, c, f);
    CheckTakesTime(s, w4, tenant, c);
    if f.kind != CredentialFault && w4.log[|w3.log|].until.None? {
      NotHeldBack(s, w3, tenant, c, f);
    }
  }

  /**
   * A candidate is called again after a pause that doubles from a quarter of a second, until it answers or is used up:
   * it is left earlier only for a fault of the key or for a wait its provider was just given.
   */
  lemma {:induction false} CandidatesAreTried(s: Setup, w: World, tenant: string, c: Candidate, own: set<string>, attempt: nat, attempts: nat)
    requires Monotone(s) && Explained(s, w) && Inv(s, w) && Ready(w, tenant, c) && 1 <= attempt <= s.config.attemptsPerModel
    ensures var (w1, n, how) := Tries(s, w, tenant, c, own, attempt, attempts);
      && w.log <= w1.log && Rounds(w1.log[|w.log|..], attempt)
      && w.calls <= w1.calls
      && (how.Moved? && w1.calls - w.calls <= s.config.attemptsPerModel - attempt ==>
            w1.log != [] && var last := w1.log[|w1.log| - 1]; last.Failed? && (last.fault.kind == CredentialFault || last.until.Some?))
    decreases s.config.attemptsPerModel - attempt
  {
    hide Try, Explained, Monotone, Inv, Ready, AddsFor, Power;
    InTime(s, w);
    var added := TryAdds(s, w, tenant, c, own, attempts + 1);
    TryExplained(s, w, tenant, c, own, attempts + 1);
    TryKeeps(s, w, tenant, c, own, attempts + 1);
    var (w1, tried) := Try(s, w, tenant, c, own, attempts + 1);
    assert w1.log[|w.log|..] == added;
    if added != [] { AddedIsOneCall(s.provider(w.calls), added); ThreeAreARound(s.provider(w.calls), added, attempt); }
    if tried == Over(Moved) { TryLeaves(s, w, tenant, c, own, attempts + 1); }
    if tried.Again? && attempt < s.config.attemptsPerModel {
      var pause := Slept(Backoff(attempt));
      var w2 := Logged(w1, pause);
      InTime(s, w1);
      QuietExplained(s, w1, w2, pause);
      RowKeeps(s, w1, pause);
      ReadyLogged(s, w1, pause, tenant, c);
      CandidatesAreTried(s, w2, tenant, c, own, attempt + 1, attempts + 1);
      var end := Tries(s, w2, tenant, c, own, attempt + 1, attempts + 1).0;
      MoreRounds(s.provider(w.calls), added, pause, end.log[|w2.log|..], attempt);
      assert end.log[|w.log|..] == added + [pause] + end.log[|w2.log|..];
    }
  }

  lemma ThreeAreARound(o: Outcome, added: seq<Event>, attempt: nat)
    requires attempt >= 1 && added != [] && added[0].Invoked? && AddsFor(o, added)
    ensures Rounds(added, attempt)
  {
    hide Transient;
  }

  lemma MoreRounds(o: Outcome, added: seq<Event>, pause: Event, rest: seq<Event>, attempt: nat)
    requires attempt >= 1 && |added| == 3 && added[0].Invoked? && AddsFor(o, added) && added[2].Failed? && added[2].fault.kind != CredentialFault
    requires pause == Slept(250 * Power(attempt - 1)) && Rounds(rest, attempt + 1)
    ensures Rounds(added + [pause] + rest, attempt)
  {
    hide Transient, Power;
    var all := added + [pause] + rest;
    assert all[4..] == rest;
    assert added[1].Row?;
  }

  ghost predicate Hopeless(o: Outcome) { !o.Answers? && forall kind, wait :: !Transient(o, kind, wait) }

  /** The last call of the log failed in a way that is not worth another try. */
  ghost predicate EndsBadly(s: Setup, w: World) {
    && |w.log| >= 2 && w.calls >= 1 && w.log[|w.log| - 2].Invoked? && w.log[|w.log| - 1].Row? && !w.log[|w.log| - 1].succeeded
    && Hopeless(s.provider(w.calls - 1))
  }

  /** The last key asked for could not be unsealed. */
  ghost predicate EndsSealed(s: Setup, w: World, tenant: string, candidates: seq<Candidate>) {
    && s.modelKeys.Some? && w.keys >= 1
    && exists c :: c in candidates && s.modelKeys.value.resolve(w.keys - 1, tenant, c.provider).Unsealable?
  }

  lemma {:induction false} TryRaises(s: Setup, w: World, tenant: string, c: Candidate, own: set<string>, number: nat)
    requires Try(s, w, tenant, c, own, number).1 == Over(Threw)
    ensures var w1 := Try(s, w, tenant, c, own, number).0; EndsBadly(s, w1) || EndsSealed(s, w1, tenant, [c])
  {
    hide Check, Remember, AsFailure, Transient;
    var (w1, key) := KeyFor(s, w, tenant, c.provider, own);
    if key.None? {
      assert c in [c];
    } else {
      FailureReads(s.provider(w1.calls));
    }
  }

  lemma {:induction false} TriesRaise(s: Setup, w: World, tenant: string, c: Candidate, own: set<string>, attempt: nat, attempts: nat)
    requires attempt >= 1 && Tries(s, w, tenant, c, own, attempt, attempts).2.Threw?
    ensures var w1 := Tries(s, w, tenant, c, own, attempt, attempts).0; EndsBadly(s, w1) || EndsSealed(s, w1, tenant, [c])
    decreases s.config.attemptsPerModel + 1 - attempt
  {
    hide Try, EndsBadly, EndsSealed;
    if attempt <= s.config.attemptsPerModel {
      var (w1, tried) := Try(s, w, tenant, c, own, attempts + 1);
      if tried == Over(Threw) {
        TryRaises(s, w, tenant, c, own, attempts + 1);
      } else if tried.Again? && attempt < s.config.attemptsPerModel {
        TriesRaise(s, Logged(w1, Slept(Backoff(attempt))), tenant, c, own, attempt + 1, attempts + 1);
      }
    }
  }

  lemma {:induction false} WalkRaises(s: Setup, w: World, tenant: string, candidates: seq<Candidate>, own: set<string>, attempts: nat)
    requires Walk(s, w, tenant, candidates, own, attempts).1.Raised?
    ensures var w1 := Walk(s, w, tenant, candidates, own, attempts).0; EndsBadly(s, w1) || EndsSealed(s, w1, tenant, candidates)
    decreases |candidates|
  {
    hide Check, Tries, EndsBadly;
    var (w1, blocked) := Check(s, w, tenant, candidates[0]);
    if blocked.Some? {
      WalkRaises(s, Logged(w1, Skipped(tenant, candidates[0], w1.time, blocked.value)), tenant, candidates[1..], own, attempts);
    } else {
      var (w2, n, r) := Tries(s, w1, tenant, candidates[0], own, 1, attempts);
      if r.Threw? { TriesRaise(s, w1, tenant, candidates[0], own, 1, attempts); }
      if r.Moved? { WalkRaises(s, w2, tenant, candidates[1..], own, n); }
    }
  }

  /**
   * A request is given up without trying every candidate only when the vault cannot be read, a key cannot be unsealed, or
   * a provider fails in a way that is not worth another try.
   */
  lemma RaisesOnlyFor(s: Setup, w: World, tenant: string, task: Task)
    requires Accepted(s.config) && Complete(s, w, tenant, task).1.Raised?
    ensures var (w1, own) := OwnProviders(s, w, tenant);
      var end := Complete(s, w, tenant, task).0;
      || (s.modelKeys.Some? && s.modelKeys.value.providers(w.lists, tenant).Unreadable? && end == w1)
      || EndsBadly(s, end)
      || (own.Some? && EndsSealed(s, end, tenant, Eligible(CandidatesFor(s.config, task), own.value)))
  {
    hide Walk, Eligible, CandidatesFor, Accepted, EndsBadly, EndsSealed;
    var (w1, own) := OwnProviders(s, w, tenant);
    if own.Some? { WalkRaises(s, w1, tenant, Eligible(CandidatesFor(s.config, task), own.value), own.value, 0); }
  }

  // ---------------------------------------------------------------------------------------------
  // Whose keys count

  /**
   * The providers a tenant brought keys for decide its candidates, all but the embedding provider: a tenant that brought
   * no other key may use every candidate of the task, any other only those of the providers it brought keys for.
   */
  lemma OwnKeysDecide(s: Setup, w: World, tenant: string, task: Task, c: Candidate)
    requires Accepted(s.config) && s.modelKeys.Some? && s.modelKeys.value.providers(w.lists, tenant).Names?
    ensures OwnProviders(s, w, tenant).1.Some?
    ensures var brought := s.modelKeys.value.providers(w.lists, tenant).providers;
      c in Eligible(CandidatesFor(s.config, task), OwnProviders(s, w, tenant).1.value) <==>
        && c in CandidatesFor(s.config, task)
        && ((forall name :: name in brought ==> s.config.embedding == Some(name)) || (c.provider in brought && s.config.embedding != Some(c.provider)))
  {
    hide Accepted, CandidatesFor;
    var brought, own := s.modelKeys.value.providers(w.lists, tenant).providers, OwnProviders(s, w, tenant).1.value;
    forall name ensures name in own <==> name in brought && s.config.embedding != Some(name) {}
    assert own == {} <==> forall name :: name in brought ==> s.config.embedding == Some(name) by {
      if own == {} {
        forall name | name in brought ensures s.config.embedding == Some(name) { assert name !in own; }
      }
    }
  }
}
