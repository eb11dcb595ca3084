/** What holds over every sequence of requests, whatever the providers answer and however time passes. */
module GatewaySafety {
  import opened Basics
  import opened Routing
  import opened Availability
  import opened Gateway

  // ---------------------------------------------------------------------------------------------
  // What the log says about a scope, independent of any memory

  /** The scope a fault was charged to. */
  function Blamed(e: Event): string
    requires e.Failed?
  {
    ScopeFor(e.tenant, e.candidate, e.fault.kind)
  }

  predicate Charged(e: Event, scope: string) { e.Failed? && Blamed(e) == scope }

  predicate Concerns(e: Event, scope: string)
    requires !e.Row? && !e.Slept?
  {
    scope == ProviderScope(e.candidate.provider) || scope == CredentialScope(e.tenant, e.candidate.reference)
  }

  predicate Cleared(e: Event, scope: string) {
    e.Recovered? && Concerns(e, scope)
  }

  /** Faults charged to the scope since anything of it last succeeded. */
  function Streak(log: seq<Event>, scope: string): nat {
    if log == [] then 0
    else
      var last, front := log[|log| - 1], log[..|log| - 1];
      if Cleared(last, scope) then 0 else if Charged(last, scope) then Streak(front, scope) + 1 else Streak(front, scope)
  }

  /** What the last of those faults said about how long to wait. */
  function LastUntil(log: seq<Event>, scope: string): Option<int> {
    if log == [] then None
    else
      var last, front := log[|log| - 1], log[..|log| - 1];
      if Cleared(last, scope) then None else if Charged(last, scope) then last.until else LastUntil(front, scope)
  }

  function TripsAt(policy: Policy, scope: string): nat {
    if IsCredentialScope(scope) then 1 else Max(1, policy.faultsBeforeSkipping)
  }

  /** The n-th fault in a row holds the scope back once the threshold is reached, for a wait that doubles. */
  function Trip(policy: Policy, scope: string, n: nat, fault: Fault): Option<int> {
    var t := TripsAt(policy, scope);
    if n < t then None
    else Some(fault.now + (if fault.retryAfterMs.Some? then fault.retryAfterMs.value else CooldownAfter(policy, n - t)))
  }

  // ---------------------------------------------------------------------------------------------
  // The invariant

  ghost predicate Monotone(s: Setup) {
    forall i: nat, j: nat :: i <= j ==> s.clock(i) <= s.clock(j)
  }

  /** The memory of a scope is what the log says. */
  ghost predicate MemoryOk(s: Setup, w: World, scope: string) {
    var n, t := Streak(w.log, scope), TripsAt(s.policy, scope);
    && (scope in w.memories <==> n > 0)
    && (scope in w.memories ==>
          var m := w.memories[scope];
          && m.consecutiveFaults == n
          && m.until == LastUntil(w.log, scope)
          && (m.until.Some? <==> n >= t)
          && m.cooldownMs == CooldownAfter(s.policy, if n >= t then n - t else 0)
          && (m.probing ==> m.until.Some?))
  }

  /** No wait is forgotten before it is over. */
  ghost predicate WaitsKept(w: World, j: nat)
    requires j < |w.log|
  {
    Waits(w.log[j]) ==>
      var u, scope := w.log[j].until.value, Blamed(w.log[j]);
      u <= w.time || (scope in w.memories && w.memories[scope].until.Some? && u <= w.memories[scope].until.value)
  }

  predicate Waits(e: Event) { e.Failed? && e.until.Some? }

  /** No wait given out before stands in the way of a call. */
  ghost predicate WaitedFor(log: seq<Event>, k: nat)
    requires k < |log| && log[k].Invoked?
  {
    forall j :: 0 <= j < k && Waits(log[j]) && Concerns(log[k], Blamed(log[j])) ==> log[j].until.value <= log[k].at
  }

  /** A skip is owed to the last wait of a scope it concerns. */
  ghost predicate HeldBack(log: seq<Event>, k: nat)
    requires k < |log| && log[k].Skipped?
  {
    log[k].at < log[k].held && exists scope :: Concerns(log[k], scope) && LastUntil(log[..k], scope) == Some(log[k].held)
  }

  ghost predicate EventOk(s: Setup, log: seq<Event>, k: nat)
    requires k < |log|
  {
    var e, before := log[k], log[..k];
    && (e.Failed? ==>
          var scope := Blamed(e);
          e.until == Trip(s.policy, scope, Streak(before, scope) + 1, e.fault))
    && (e.Invoked? ==> WaitedFor(log, k))
    && (e.Skipped? ==> HeldBack(log, k))
  }

  ghost predicate Inv(s: Setup, w: World) {
    && Monotone(s)
    && w.time <= s.clock(w.ticks)
    && (forall scope :: MemoryOk(s, w, scope))
    && (forall j :: 0 <= j < |w.log| ==> WaitsKept(w, j))
    && (forall k :: 0 <= k < |w.log| ==> EventOk(s, w.log, k))
  }

  /** A scope that was just found open: its wait, if it had one, is over, and a probe is out. */
  ghost predicate Open(w: World, scope: string) {
    scope in w.memories && w.memories[scope].until.Some? ==> w.memories[scope].probing && w.memories[scope].until.value <= w.time
  }

  ghost predicate Ready(w: World, tenant: string, c: Candidate) {
    Open(w, ProviderScope(c.provider)) && Open(w, CredentialScope(tenant, c.reference))
  }

  // ---------------------------------------------------------------------------------------------
  // One step at a time

  lemma EventsStay(s: Setup, log: seq<Event>, e: Event)
    requires forall k :: 0 <= k < |log| ==> EventOk(s, log, k)
    requires EventOk(s, log + [e], |log|)
    ensures forall k :: 0 <= k < |log + [e]| ==> EventOk(s, log + [e], k)
  {
    hide Streak, LastUntil, Trip, Concerns;
    forall k | 0 <= k < |log| ensures EventOk(s, log + [e], k) {
      assert (log + [e])[..k] == log[..k];
      assert EventOk(s, log, k);
      assert forall j :: 0 <= j <= k ==> (log + [e])[j] == log[j];
    }
  }

  lemma Push(log: seq<Event>, e: Event, scope: string)
    ensures Streak(log + [e], scope) ==
      if Cleared(e, scope) then 0 else if Charged(e, scope) then Streak(log, scope) + 1 else Streak(log, scope)
    ensures LastUntil(log + [e], scope) ==
      if Cleared(e, scope) then None else if Charged(e, scope) then e.until else LastUntil(log, scope)
  {
    assert (log + [e])[..|log|] == log;
  }

  /** The world moved without the memories' waits: time passed, or a probe went out. */
  lemma {:induction false} SameLogKeeps(s: Setup, w: World, w': World)
    requires Inv(s, w) && w'.log == w.log && w.time <= w'.time <= s.clock(w'.ticks)
    requires w'.memories.Keys == w.memories.Keys
    requires forall scope :: scope in w.memories ==>
      var m, m' := w.memories[scope], w'.memories[scope];
      m'.(probing := false) == m.(probing := false) && (m'.probing ==> m.probing || m.until.Some?)
    ensures Inv(s, w')
  {
    hide Streak, LastUntil, EventOk, CooldownAfter, ScopeFor;
    forall scope ensures MemoryOk(s, w', scope) {
      assert MemoryOk(s, w, scope);
    }
    forall j | 0 <= j < |w'.log| ensures WaitsKept(w', j) {
      assert WaitsKept(w, j);
    }
  }

  ghost predicate Waited(log: seq<Event>, tenant: string, c: Candidate, held: int) {
    LastUntil(log, ProviderScope(c.provider)) == Some(held) || LastUntil(log, CredentialScope(tenant, c.reference)) == Some(held)
  }

  lemma {:induction false} CheckKeeps(s: Setup, w: World, tenant: string, c: Candidate)
    requires Inv(s, w)
    ensures var (w1, blocked) := Check(s, w, tenant, c);
      && Inv(s, w1) && w1.log == w.log
      && (blocked.None? ==> Ready(w1, tenant, c))
      && (blocked.Some? ==> w1.time < blocked.value && Waited(w.log, tenant, c, blocked.value))
  {
    hide Streak, LastUntil, EventOk, CooldownAfter, ScopeFor, WaitsKept, ProviderScope, CredentialScope;
    var (w1, blocked) := Check(s, w, tenant, c);
    assert s.clock(w.ticks) <= s.clock(w.ticks + 1);
    var p, k := ProviderScope(c.provider), CredentialScope(tenant, c.reference);
    SameLogKeeps(s, w, w1);
    assert MemoryOk(s, w, p) && MemoryOk(s, w, k);
    ScopesApart(c.provider, tenant, c.reference);
  }

  lemma ScopesApart(provider: string, tenant: string, reference: string)
    ensures ProviderScope(provider) != CredentialScope(tenant, reference)
  {
    ScopeKinds(provider, tenant, reference);
  }

  /** An event that changes no memory. */
  lemma {:induction false} LogKeeps(s: Setup, w: World, e: Event)
    requires Inv(s, w) && !e.Failed? && !e.Recovered? && EventOk(s, w.log + [e], |w.log|)
    ensures Inv(s, Logged(w, e))
    ensures forall tenant, c :: Ready(w, tenant, c) ==> Ready(Logged(w, e), tenant, c)
  {
    hide Streak, LastUntil, EventOk, CooldownAfter, ScopeFor;
    var w' := Logged(w, e);
    EventsStay(s, w.log, e);
    forall scope ensures MemoryOk(s, w', scope) {
      assert MemoryOk(s, w, scope);
      Push(w.log, e, scope);
    }
    forall j | 0 <= j < |w'.log| ensures WaitsKept(w', j) {
      if j < |w.log| { assert WaitsKept(w, j); }
    }
  }

  lemma QuietEvent(s: Setup, log: seq<Event>, e: Event)
    requires e.Row? || e.Slept?
    ensures EventOk(s, log + [e], |log|)
  {}

  lemma {:induction false} SkipKeeps(s: Setup, w: World, tenant: string, c: Candidate, held: int)
    requires Inv(s, w) && w.time < held
    requires Waited(w.log, tenant, c, held)
    ensures Inv(s, Logged(w, Skipped(tenant, c, w.time, held)))
  {
    hide Streak, LastUntil, ProviderScope, CredentialScope, Inv;
    var e := Skipped(tenant, c, w.time, held);
    var p := ProviderScope(c.provider);
    var scope := if LastUntil(w.log, p) == Some(held) then p else CredentialScope(tenant, c.reference);
    assert (w.log + [e])[..|w.log|] == w.log;
    assert Concerns(e, scope);
    LogKeeps(s, w, e);
  }

  lemma {:induction false} CallKeeps(s: Setup, w: World, tenant: string, c: Candidate, key: Option<string>)
    requires Inv(s, w) && Ready(w, tenant, c)
    ensures Inv(s, Call(w, tenant, c, key)) && Ready(Call(w, tenant, c, key), tenant, c)
  {
    hide Streak, LastUntil, EventOk, CooldownAfter, ScopeFor, ProviderScope, CredentialScope, MemoryOk;
    var e, w1 := Invoked(tenant, c, w.time, key), w.(calls := w.calls + 1);
    forall j | 0 <= j < |w.log| && Waits(w.log[j]) && Concerns(e, Blamed(w.log[j]))
      ensures w.log[j].until.value <= w.time
    {
      assert WaitsKept(w, j);
    }
    InvokedOk(s, w.log, e);
    forall scope ensures MemoryOk(s, w1, scope) {
      assert MemoryOk(s, w, scope);
      SameMemory(s, w, w1, scope);
    }
    assert forall j :: 0 <= j < |w.log| ==> WaitsKept(w, j) ==> WaitsKept(w1, j);
    LogKeeps(s, w1, e);
  }

  lemma SameMemory(s: Setup, w: World, w': World, scope: string)
    requires MemoryOk(s, w, scope) && w'.memories == w.memories && w'.log == w.log
    ensures MemoryOk(s, w', scope)
  {}

  lemma InvokedOk(s: Setup, log: seq<Event>, e: Event)
    requires e.Invoked?
    requires forall j :: 0 <= j < |log| && Waits(log[j]) && Concerns(e, Blamed(log[j])) ==> log[j].until.value <= e.at
    ensures EventOk(s, log + [e], |log|)
  {
    hide Concerns, ScopeFor, Streak, LastUntil;
    assert forall j :: 0 <= j < |log| ==> (log + [e])[j] == log[j];
  }

  /** What one more fault makes of a memory that agrees with the log. */
  lemma FaultedAgrees(policy: Policy, scope: string, n: nat, before: Option<Memory>, fault: Fault)
    requires IsCredentialScope(scope) <==> fault.kind == CredentialFault
    requires before.Some? <==> n > 0
    requires before.Some? ==>
      var m, t := before.value, TripsAt(policy, scope);
      && m.consecutiveFaults == n && (m.until.Some? <==> n >= t) && (m.probing <==> m.until.Some?)
      && m.cooldownMs == CooldownAfter(policy, if n >= t then n - t else 0)
    ensures var m, t := Faulted(policy, before, fault), TripsAt(policy, scope);
      && m.consecutiveFaults == n + 1 && !m.probing
      && m.until == Trip(policy, scope, n + 1, fault)
      && m.cooldownMs == CooldownAfter(policy, if n + 1 >= t then n + 1 - t else 0)
  {
    hide CooldownAfter, IsCredentialScope;
    var t := TripsAt(policy, scope);
    if n >= t {
      CooldownDoubles(policy, n - t);
    }
    assert CooldownAfter(policy, 0) == policy.cooldownMs by { NoProbes(policy); }
  }

  lemma NoProbes(policy: Policy)
    ensures CooldownAfter(policy, 0) == policy.cooldownMs
  {}

  lemma {:induction false} RememberKeeps(s: Setup, w: World, tenant: string, c: Candidate, f: Failure)
    requires Inv(s, w) && Ready(w, tenant, c)
    ensures Inv(s, Remember(s, w, tenant, c, f))
  {
    hide Streak, LastUntil, EventOk, CooldownAfter, Faulted, Trip, ProviderScope, CredentialScope, TripsAt;
    var w', scope := Remember(s, w, tenant, c, f), ScopeFor(tenant, c, f.kind);
    var fault := Fault(f.kind, s.clock(w.ticks), f.retryAfterMs);
    var e := w'.log[|w.log|];
    assert e == Failed(tenant, c, fault, w'.memories[scope].until);
    ScopeKinds(c.provider, tenant, c.reference);
    assert MemoryOk(s, w, scope) && Open(w, scope);
    FaultedAgrees(s.policy, scope, Streak(w.log, scope), At(w.memories, scope), fault);
    TripIs(s.policy, scope, Streak(w.log, scope) + 1, fault);
    FailedOk(s, w.log, e);
    EventsStay(s, w.log, e);
    forall other ensures MemoryOk(s, w', other) {
      assert MemoryOk(s, w, other);
      Push(w.log, e, other);
    }
    assert s.clock(w.ticks) <= s.clock(w.ticks + 1);
    forall j | 0 <= j < |w'.log| ensures WaitsKept(w', j) {
      if j < |w.log| { assert WaitsKept(w, j); }
    }
  }

  lemma TripIs(policy: Policy, scope: string, n: nat, fault: Fault)
    ensures Trip(policy, scope, n, fault).Some? <==> n >= TripsAt(policy, scope)
  {}

  lemma FailedOk(s: Setup, log: seq<Event>, e: Event)
    requires e.Failed?
    requires var scope := Blamed(e); e.until == Trip(s.policy, scope, Streak(log, scope) + 1, e.fault)
    ensures EventOk(s, log + [e], |log|)
  {
    hide ScopeFor, Streak, Trip, LastUntil, Concerns, Blamed, WaitedFor, HeldBack;
    var all := log + [e];
    assert all[|log|] == e && all[..|log|] == log;
  }

  lemma {:induction false} ForgetKeeps(s: Setup, w: World, tenant: string, c: Candidate)
    requires Inv(s, w) && Ready(w, tenant, c)
    ensures Inv(s, Forget(w, tenant, c))
  {
    hide Streak, LastUntil, EventOk, CooldownAfter, ProviderScope, CredentialScope, TripsAt;
    var w', e := Forget(w, tenant, c), Recovered(tenant, c);
    RecoveredOk(s, w.log, e);
    EventsStay(s, w.log, e);
    forall scope ensures MemoryOk(s, w', scope) {
      assert MemoryOk(s, w, scope);
      Push(w.log, e, scope);
    }
    forall j | 0 <= j < |w'.log| ensures WaitsKept(w', j) {
      if j < |w.log| { assert WaitsKept(w, j); }
    }
  }

  lemma RecoveredOk(s: Setup, log: seq<Event>, e: Event)
    requires e.Recovered?
    ensures EventOk(s, log + [e], |log|)
  {}

  lemma {:induction false} KeyKeeps(s: Setup, w: World, tenant: string, provider: string, own: set<string>)
    requires Inv(s, w)
    ensures var w1 := KeyFor(s, w, tenant, provider, own).0;
      Inv(s, w1) && w1.memories == w.memories && w1.time == w.time && w1.log == w.log && w1.ticks == w.ticks && w1.calls == w.calls
  {
    hide EventOk, MemoryOk;
    var w1 := KeyFor(s, w, tenant, provider, own).0;
    forall scope ensures MemoryOk(s, w1, scope) {
      assert MemoryOk(s, w, scope);
      SameMemory(s, w, w1, scope);
    }
    forall j | 0 <= j < |w1.log| ensures WaitsKept(w1, j) {
      assert WaitsKept(w, j);
    }
  }

  // ---------------------------------------------------------------------------------------------
  // Whole requests

  lemma {:induction false} TryKeeps(s: Setup, w: World, tenant: string, c: Candidate, own: set<string>, number: nat)
    requires Inv(s, w) && Ready(w, tenant, c)
    ensures var (w1, tried) := Try(s, w, tenant, c, own, number); Inv(s, w1) && (tried.Again? ==> Ready(w1, tenant, c))
  {
    hide Inv, Ready, KeyFor, Call, Forget, Remember, Check, Logged;
    KeyKeeps(s, w, tenant, c.provider, own);
    var (w1, key) := KeyFor(s, w, tenant, c.provider, own);
    if key.Some? {
      ReadyStays(w, w1, tenant, c);
      CallKeeps(s, w1, tenant, c, key.value);
      var w2 := Call(w1, tenant, c, key.value);
      match s.provider(w1.calls) {
        case Answers(text) =>
          ForgetKeeps(s, w2, tenant, c);
          RowKeeps(s, Forget(w2, tenant, c), Row(tenant, c, number, true, key.value.Some?));
        case o =>
          var f, row := AsFailure(o), Row(tenant, c, number, false, key.value.Some?);
          RowKeeps(s, w2, row);
          if f.retryable {
            ReadyLogged(s, w2, row, tenant, c);
            RememberKeeps(s, Logged(w2, row), tenant, c, f);
            var w4 := Remember(s, Logged(w2, row), tenant, c, f);
            CheckKeeps(s, w4, tenant, c);
            var (w5, blocked) := Check(s, w4, tenant, c);
            if f.kind != CredentialFault {
              assert Try(s, w, tenant, c, own, number) == (w5, if blocked.Some? then Over(Moved) else Again);
            }
          }
      }
    }
  }

  lemma {:induction false} TriesKeeps(s: Setup, w: World, tenant: string, c: Candidate, own: set<string>, attempt: nat, attempts: nat)
    requires Inv(s, w) && Ready(w, tenant, c) && attempt >= 1
    ensures Inv(s, Tries(s, w, tenant, c, own, attempt, attempts).0)
    decreases s.config.attemptsPerModel + 1 - attempt
  {
    hide Inv, Ready, Try, Logged, Backoff;
    if attempt <= s.config.attemptsPerModel {
      TryKeeps(s, w, tenant, c, own, attempts + 1);
      var (w1, tried) := Try(s, w, tenant, c, own, attempts + 1);
      if tried.Again? && attempt < s.config.attemptsPerModel {
        RowKeeps(s, w1, Slept(Backoff(attempt)));
        ReadyLogged(s, w1, Slept(Backoff(attempt)), tenant, c);
        TriesKeeps(s, Logged(w1, Slept(Backoff(attempt))), tenant, c, own, attempt + 1, attempts + 1);
      }
    }
  }

  lemma ReadyStays(w: World, w': World, tenant: string, c: Candidate)
    requires Ready(w, tenant, c) && w'.memories == w.memories && w'.time == w.time
    ensures Ready(w', tenant, c)
  {}

  lemma ReadyLogged(s: Setup, w: World, e: Event, tenant: string, c: Candidate)
    requires Ready(w, tenant, c)
    ensures Ready(Logged(w, e), tenant, c)
  {}

  lemma RowKeeps(s: Setup, w: World, e: Event)
    requires Inv(s, w) && (e.Row? || e.Slept?)
    ensures Inv(s, Logged(w, e))
  {
    hide Inv, EventOk, Ready;
    QuietEvent(s, w.log, e);
    LogKeeps(s, w, e);
  }

  lemma {:induction false} WalkKeeps(s: Setup, w: World, tenant: string, candidates: seq<Candidate>, own: set<string>, attempts: nat)
    requires Inv(s, w)
    ensures Inv(s, Walk(s, w, tenant, candidates, own, attempts).0)
    decreases |candidates|
  {
    hide Inv, Ready, Check, Tries, LastUntil, ProviderScope, CredentialScope, Logged;
    if candidates != [] {
      CheckKeeps(s, w, tenant, candidates[0]);
      var (w1, blocked) := Check(s, w, tenant, candidates[0]);
      if blocked.Some? {
        SkipKeeps(s, w1, tenant, candidates[0], blocked.value);
        WalkKeeps(s, Logged(w1, Skipped(tenant, candidates[0], w1.time, blocked.value)), tenant, candidates[1..], own, attempts);
      } else {
        TriesKeeps(s, w1, tenant, candidates[0], own, 1, attempts);
        var (w2, n, r) := Tries(s, w1, tenant, candidates[0], own, 1, attempts);
        if r.Moved? {
          WalkKeeps(s, w2, tenant, candidates[1..], own, n);
        }
      }
    }
  }

  lemma {:induction false} CompleteKeeps(s: Setup, w: World, tenant: string, task: Task)
    requires Accepted(s.config) && Inv(s, w)
    ensures Inv(s, Complete(s, w, tenant, task).0)
  {
    hide Walk, Eligible, CandidatesFor, EventOk, MemoryOk, Accepted;
    var (w1, own) := OwnProviders(s, w, tenant);
    forall scope ensures MemoryOk(s, w1, scope) {
      assert MemoryOk(s, w, scope);
      SameMemory(s, w, w1, scope);
    }
    forall j | 0 <= j < |w1.log| ensures WaitsKept(w1, j) {
      assert WaitsKept(w, j);
    }
    if own.Some? {
      WalkKeeps(s, w1, tenant, Eligible(CandidatesFor(s.config, task), own.value), own.value, 0);
    }
  }

  lemma {:induction false} RunKeeps(s: Setup, w: World, requests: seq<Request>)
    requires Accepted(s.config) && Inv(s, w)
    ensures Inv(s, CompleteAll(s, w, requests))
    decreases |requests|
  {
    hide Inv, Complete, Accepted;
    if requests != [] {
      CompleteKeeps(s, w, requests[0].tenant, requests[0].task);
      RunKeeps(s, Complete(s, w, requests[0].tenant, requests[0].task).0, requests[1..]);
    }
  }

  lemma {:induction false} FromTheStart(s: Setup, requests: seq<Request>)
    requires Accepted(s.config) && Monotone(s)
    ensures Inv(s, CompleteAll(s, New(s), requests))
  {
    hide CompleteAll, Accepted, Monotone;
    assert Inv(s, New(s));
    RunKeeps(s, New(s), requests);
  }

  // ---------------------------------------------------------------------------------------------
  // The theorems

  /** No provider is called before a wait it was given is over, for any tenant; nor a key before its own. */
  lemma {:induction false} NeverCalledWhileWaiting(s: Setup, requests: seq<Request>, j: nat, k: nat)
    requires Accepted(s.config) && Monotone(s)
    requires var log := CompleteAll(s, New(s), requests).log;
      && j < k < |log| && log[j].Failed? && log[j].until.Some? && log[k].Invoked?
      && (if log[j].fault.kind == CredentialFault
          then log[k].tenant == log[j].tenant && log[k].candidate.reference == log[j].candidate.reference
          else log[k].candidate.provider == log[j].candidate.provider)
    ensures var log := CompleteAll(s, New(s), requests).log; log[j].until.value <= log[k].at
  {
    hide CompleteAll, Accepted, ProviderScope, CredentialScope, MemoryOk, Streak, LastUntil;
    FromTheStart(s, requests);
    assert EventOk(s, CompleteAll(s, New(s), requests).log, k);
  }

  /** The n-th fault in a row of a scope says how long it waits: not at all below the threshold, then doubling to a ceiling. */
  lemma {:induction false} WaitsDouble(s: Setup, requests: seq<Request>, k: nat)
    requires Accepted(s.config) && Monotone(s)
    requires k < |CompleteAll(s, New(s), requests).log| && CompleteAll(s, New(s), requests).log[k].Failed?
    ensures var log := CompleteAll(s, New(s), requests).log;
      var e, scope := log[k], Blamed(log[k]);
      e.until == Trip(s.policy, scope, Streak(log[..k], scope) + 1, e.fault)
  {
    hide CompleteAll, Accepted, Concerns, MemoryOk, Streak, LastUntil, Trip, ScopeFor;
    FromTheStart(s, requests);
    assert EventOk(s, CompleteAll(s, New(s), requests).log, k);
  }

  /** A provider that keeps failing and says nothing of when to return is left alone for the doubled wait. */
  lemma {:induction false} CallsAreSpaced(s: Setup, requests: seq<Request>, j: nat, k: nat)
    requires Accepted(s.config) && Monotone(s)
    requires var log := CompleteAll(s, New(s), requests).log;
      && j < k < |log| && log[j].Failed? && log[k].Invoked? && log[j].fault.kind != CredentialFault
      && log[j].fault.retryAfterMs.None? && log[k].candidate.provider == log[j].candidate.provider
    ensures var log := CompleteAll(s, New(s), requests).log;
      var t := Max(1, s.policy.faultsBeforeSkipping);
      var faults := Streak(log[..j], ProviderScope(log[k].candidate.provider)) + 1;
      faults >= t ==> log[k].at >= log[j].fault.now + CooldownAfter(s.policy, faults - t)
  {
    hide CompleteAll, Accepted, Streak, CooldownAfter, ProviderScope, Monotone;
    var log := CompleteAll(s, New(s), requests).log;
    ScopeKinds(log[j].candidate.provider, "", "");
    WaitsDouble(s, requests, j);
    if log[j].until.Some? {
      NeverCalledWhileWaiting(s, requests, j, k);
    }
  }

  /** The last fault charged to a scope, with no recovery since. */
  ghost predicate IsLast(log: seq<Event>, scope: string, j: nat)
    requires j < |log|
  {
    Charged(log[j], scope) && forall i :: j < i < |log| ==> !Cleared(log[i], scope) && !Charged(log[i], scope)
  }

  /** The fault a wait comes from, when a scope still waits. */
  lemma {:induction false} LastUntilMeans(log: seq<Event>, scope: string)
    requires LastUntil(log, scope).Some?
    ensures exists j :: 0 <= j < |log| && IsLast(log, scope, j) && log[j].until == LastUntil(log, scope)
  {
    var last, front := log[|log| - 1], log[..|log| - 1];
    if Charged(last, scope) {
      assert IsLast(log, scope, |log| - 1);
    } else {
      LastUntilMeans(front, scope);
      var j :| 0 <= j < |front| && IsLast(front, scope, j) && front[j].until == LastUntil(front, scope);
      forall i | j < i < |log| ensures !Cleared(log[i], scope) && !Charged(log[i], scope) {
        if i < |front| { assert log[i] == front[i]; }
      }
      assert log[j] == front[j] && IsLast(log, scope, j);
    }
  }

  /** The fault that holds a candidate back: the provider's, for any tenant, or one of the same key. */
  ghost predicate HeldBy(fault: Event, skip: Event)
    requires fault.Failed? && skip.Skipped?
  {
    if fault.fault.kind == CredentialFault then
      || (fault.tenant == skip.tenant && fault.candidate.reference == skip.candidate.reference)
      || Slides(fault.tenant, fault.candidate.reference, skip.tenant, skip.candidate.reference)
      || Slides(skip.tenant, skip.candidate.reference, fault.tenant, fault.candidate.reference)
    else fault.candidate.provider == skip.candidate.provider
  }

  /**
   * A candidate is skipped only for a fault that is not over and not recovered from, charged to its provider
   * or to its own key. Keys of two tenants are taken for one another exactly when their ids slide across a colon.
   */
  lemma {:induction false} SkippedOnlyForItsOwnFaults(s: Setup, requests: seq<Request>, k: nat)
    requires Accepted(s.config) && Monotone(s)
    requires k < |CompleteAll(s, New(s), requests).log| && CompleteAll(s, New(s), requests).log[k].Skipped?
    ensures var log := CompleteAll(s, New(s), requests).log;
      && log[k].at < log[k].held
      && exists j :: 0 <= j < k && log[j].Failed? && HeldBy(log[j], log[k]) && log[j].until == Some(log[k].held)
                     && IsLast(log[..k], Blamed(log[j]), j)
  {
    hide CompleteAll, Accepted, MemoryOk, Streak, LastUntil, ProviderScope, CredentialScope, Monotone, WaitsKept, HeldBy, Blamed, Cleared;
    FromTheStart(s, requests);
    var log := CompleteAll(s, New(s), requests).log;
    assert EventOk(s, log, k);
    var scope :| Concerns(log[k], scope) && LastUntil(log[..k], scope) == Some(log[k].held);
    LastUntilMeans(log[..k], scope);
    var j :| 0 <= j < k && IsLast(log[..k], scope, j) && log[..k][j].until == LastUntil(log[..k], scope);
    assert log[..k][j] == log[j];
    ChargedHolds(log[j], log[k], scope);
  }

  lemma ChargedHolds(fault: Event, skip: Event, scope: string)
    requires Charged(fault, scope) && skip.Skipped? && Concerns(skip, scope)
    ensures HeldBy(fault, skip)
  {
    hide ProviderScope, CredentialScope, Slides;
    ScopesApart(fault.candidate.provider, skip.tenant, skip.candidate.reference);
    ScopesApart(skip.candidate.provider, fault.tenant, fault.candidate.reference);
    CredentialScopesCollide(fault.tenant, fault.candidate.reference, skip.tenant, skip.candidate.reference);
    if fault.fault.kind != CredentialFault {
      ProviderScopesDiffer(fault.candidate.provider, skip.candidate.provider);
    }
  }

  // ---------------------------------------------------------------------------------------------
  // Recovery

  /** The last thing logged is the row of a success, and nothing is held against its provider or its key. */
  ghost predicate Healthy(w: World, tenant: string) {
    && w.log != [] && w.log[|w.log| - 1].Row? && w.log[|w.log| - 1].succeeded
    && ProviderScope(w.log[|w.log| - 1].candidate.provider) !in w.memories
    && CredentialScope(tenant, w.log[|w.log| - 1].candidate.reference) !in w.memories
  }

  lemma {:induction false} TriesRecover(s: Setup, w: World, tenant: string, c: Candidate, own: set<string>, attempt: nat, attempts: nat)
    requires attempt >= 1
    ensures var (w1, n, how) := Tries(s, w, tenant, c, own, attempt, attempts); how.Answered? ==> Healthy(w1, tenant)
    decreases s.config.attemptsPerModel + 1 - attempt
  {
    hide KeyFor, Check, Remember, ProviderScope, CredentialScope;
    if attempt <= s.config.attemptsPerModel {
      var (w1, tried) := Try(s, w, tenant, c, own, attempts + 1);
      if tried.Again? && attempt < s.config.attemptsPerModel {
        TriesRecover(s, Logged(w1, Slept(Backoff(attempt))), tenant, c, own, attempt + 1, attempts + 1);
      }
    }
  }

  lemma {:induction false} WalkRecovers(s: Setup, w: World, tenant: string, candidates: seq<Candidate>, own: set<string>, attempts: nat)
    ensures var (w1, result) := Walk(s, w, tenant, candidates, own, attempts); result.Response? ==> Healthy(w1, tenant)
    decreases |candidates|
  {
    hide Check, Tries, Healthy;
    if candidates != [] {
      var (w1, blocked) := Check(s, w, tenant, candidates[0]);
      if blocked.Some? {
        WalkRecovers(s, Logged(w1, Skipped(tenant, candidates[0], w1.time, blocked.value)), tenant, candidates[1..], own, attempts);
      } else {
        TriesRecover(s, w1, tenant, candidates[0], own, 1, attempts);
        var (w2, n, r) := Tries(s, w1, tenant, candidates[0], own, 1, attempts);
        if r.Moved? {
          WalkRecovers(s, w2, tenant, candidates[1..], own, n);
        }
      }
    }
  }

  /** An answer clears what was remembered of the provider that gave it and of the key it was given to. */
  lemma SuccessForgets(s: Setup, w: World, tenant: string, task: Task)
    requires Accepted(s.config)
    ensures var (w1, result) := Complete(s, w, tenant, task); result.Response? ==> Healthy(w1, tenant)
  {
    hide Walk, Eligible, CandidatesFor, Healthy, Accepted;
    var (w1, own) := OwnProviders(s, w, tenant);
    if own.Some? {
      WalkRecovers(s, w1, tenant, Eligible(CandidatesFor(s.config, task), own.value), own.value, 0);
    }
  }
}
