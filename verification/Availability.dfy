/** Remembering what is broken, after `src/models/availability.ts`. Times are milliseconds. */
module Availability {
  import opened Basics

  datatype Kind = ProviderFault | CredentialFault | RequestFault

  datatype Policy = Policy(faultsBeforeSkipping: int, cooldownMs: nat, maxCooldownMs: nat)

  datatype Memory = Memory(consecutiveFaults: nat, cooldownMs: nat, until: Option<int>, kind: Kind, probing: bool)

  datatype Fault = Fault(kind: Kind, now: int, retryAfterMs: Option<int>)

  type Memories = map<string, Memory>

  /** Why a scope is to be skipped: until when. A cooldown that has passed lets the caller through as a probe. */
  function Blocked(memories: Memories, scope: string, now: int): (Memories, Option<int>) {
    if scope !in memories || memories[scope].until.None? then (memories, None)
    else if now >= memories[scope].until.value then (memories[scope := memories[scope].(probing := true)], None)
    else (memories, memories[scope].until)
  }

  function Threshold(policy: Policy, kind: Kind): int {
    if kind == CredentialFault then 1 else policy.faultsBeforeSkipping
  }

  function Faulted(policy: Policy, before: Option<Memory>, fault: Fault): Memory {
    var memory := if before.Some? then before.value else Memory(0, policy.cooldownMs, None, fault.kind, false);
    var cooldown := if memory.probing then Min(memory.cooldownMs * 2, policy.maxCooldownMs) else memory.cooldownMs;
    var faults := memory.consecutiveFaults + 1;
    var wait := if fault.retryAfterMs.Some? then fault.retryAfterMs.value else cooldown;
    Memory(faults, cooldown, if faults >= Threshold(policy, fault.kind) then Some(fault.now + wait) else memory.until, fault.kind, false)
  }

  function At(memories: Memories, scope: string): Option<Memory> {
    if scope in memories then Some(memories[scope]) else None
  }

  function RecordFault(policy: Policy, memories: Memories, scope: string, fault: Fault): Memories {
    memories[scope := Faulted(policy, At(memories, scope), fault)]
  }

  function RecordSuccess(memories: Memories, scope: string): Memories {
    memories - {scope}
  }

  /** The answers to callers that check a scope one after another, with no fault and no success in between. */
  function Checks(memories: Memories, scope: string, times: seq<int>): seq<Option<int>> {
    if times == [] then []
    else
      var (after, answer) := Blocked(memories, scope, times[0]);
      [answer] + Checks(after, scope, times[1..])
  }

  /**
   * A probe that is out holds nobody back: each caller is answered as if it were the only one, so all that find
   * the wait over are let through, and none of the others.
   */
  lemma {:induction false} ProbesAreNotCounted(memories: Memories, scope: string, times: seq<int>)
    ensures |Checks(memories, scope, times)| == |times|
    ensures forall i :: 0 <= i < |times| ==>
      (Checks(memories, scope, times)[i].None? <==>
        scope !in memories || memories[scope].until.None? || times[i] >= memories[scope].until.value)
  {
    if times != [] {
      var after := Blocked(memories, scope, times[0]).0;
      ProbesAreNotCounted(after, scope, times[1..]);
      var later := Checks(after, scope, times[1..]);
      forall i | 1 <= i < |times|
        ensures Checks(memories, scope, times)[i] == later[i - 1]
      {}
    }
  }

  /** The note that a probe is out changes no answer. */
  lemma ProbingIsNotRead(memories: Memories, scope: string, now: int, probing: bool)
    requires scope in memories
    ensures Blocked(memories[scope := memories[scope].(probing := probing)], scope, now).1 == Blocked(memories, scope, now).1
  {}

  // ---------------------------------------------------------------------------------------------
  // Scopes

  function ProviderScope(provider: string): string { "provider:" + provider }

  function CredentialScope(tenant: string, reference: string): string { "credential:" + tenant + ":" + reference }

  /** The tenant and model of one scope slide into those of another across a colon. */
  ghost predicate Slides(tenant: string, reference: string, tenant': string, reference': string) {
    exists x :: tenant' == tenant + ":" + x && reference == x + ":" + reference'
  }

  lemma ShorterTenant(tenant: string, reference: string, tenant': string, reference': string)
    requires tenant + ":" + reference == tenant' + ":" + reference' && |tenant| <= |tenant'|
    ensures (tenant == tenant' && reference == reference') || Slides(tenant, reference, tenant', reference')
  {
    var s := tenant + ":" + reference;
    assert tenant == s[..|tenant|] && tenant' == (tenant' + ":" + reference')[..|tenant'|];
    if |tenant| == |tenant'| {
      assert reference == s[|tenant| + 1..] && reference' == (tenant' + ":" + reference')[|tenant'| + 1..];
    } else {
      var x := tenant'[|tenant| + 1..];
      assert tenant'[|tenant|] == s[|tenant|] == ':';
      assert tenant' == tenant + ":" + x;
      assert reference == s[|tenant| + 1..] == x + ":" + reference';
    }
  }

  lemma SlideCollides(tenant: string, reference: string, tenant': string, reference': string)
    requires Slides(tenant, reference, tenant', reference')
    ensures CredentialScope(tenant, reference) == CredentialScope(tenant', reference')
  {
    var x :| tenant' == tenant + ":" + x && reference == x + ":" + reference';
    assert tenant + ":" + reference == tenant' + ":" + reference';
    CredentialTail(tenant, reference);
    CredentialTail(tenant', reference');
  }

  lemma CredentialTail(tenant: string, reference: string)
    ensures CredentialScope(tenant, reference) == "credential:" + (tenant + ":" + reference)
  {}

  /** Exactly when two keys share a memory. */
  lemma CredentialScopesCollide(tenant: string, reference: string, tenant': string, reference': string)
    ensures CredentialScope(tenant, reference) == CredentialScope(tenant', reference') <==>
      || (tenant == tenant' && reference == reference')
      || Slides(tenant, reference, tenant', reference')
      || Slides(tenant', reference', tenant, reference)
  {
    var prefix := "credential:";
    CredentialTail(tenant, reference);
    CredentialTail(tenant', reference');
    if CredentialScope(tenant, reference) == CredentialScope(tenant', reference') {
      assert tenant + ":" + reference == CredentialScope(tenant, reference)[|prefix|..];
      assert tenant' + ":" + reference' == CredentialScope(tenant', reference')[|prefix|..];
      if |tenant| <= |tenant'| {
        ShorterTenant(tenant, reference, tenant', reference');
      } else {
        ShorterTenant(tenant', reference', tenant, reference);
      }
    }
    if Slides(tenant, reference, tenant', reference') { SlideCollides(tenant, reference, tenant', reference'); }
    if Slides(tenant', reference', tenant, reference) { SlideCollides(tenant', reference', tenant, reference); }
  }

  /** Two tenants can share a memory: nothing forbids a colon in an id. */
  lemma TenantsCanCollide()
    ensures CredentialScope("a", "b:c") == CredentialScope("a:b", "c")
  {
    assert CredentialScope("a", "b:c") == "credential:a:b:c";
    assert CredentialScope("a:b", "c") == "credential:a:b:c";
  }

  lemma ProviderScopesDiffer(provider: string, provider': string)
    requires ProviderScope(provider) == ProviderScope(provider')
    ensures provider == provider'
  {
    assert provider == ProviderScope(provider)[|"provider:"|..];
    assert provider' == ProviderScope(provider')[|"provider:"|..];
  }

  predicate IsCredentialScope(scope: string) { scope != [] && scope[0] == 'c' }

  lemma ScopeKinds(provider: string, tenant: string, reference: string)
    ensures !IsCredentialScope(ProviderScope(provider)) && IsCredentialScope(CredentialScope(tenant, reference))
  {
    assert ProviderScope(provider)[0] == 'p';
    assert CredentialScope(tenant, reference)[0] == 'c';
  }

  // ---------------------------------------------------------------------------------------------
  // Cooldowns

  function Power(k: nat): nat { if k == 0 then 1 else 2 * Power(k - 1) }

  /** The wait after `probes` failed probes. */
  function CooldownAfter(policy: Policy, probes: nat): nat {
    if probes == 0 then policy.cooldownMs else Min(policy.cooldownMs * Power(probes), policy.maxCooldownMs)
  }

  lemma CooldownDoubles(policy: Policy, probes: nat)
    ensures Min(CooldownAfter(policy, probes) * 2, policy.maxCooldownMs) == CooldownAfter(policy, probes + 1)
  {
    assert policy.cooldownMs * Power(probes + 1) == (policy.cooldownMs * Power(probes)) * 2 by {
      assert Power(probes + 1) == 2 * Power(probes);
    }
  }

  /** The closed form, from the first wait on, exactly when the first wait respects the ceiling. */
  lemma CooldownIsCapped(policy: Policy)
    ensures (forall k: nat :: CooldownAfter(policy, k) == Min(policy.cooldownMs * Power(k), policy.maxCooldownMs)) <==>
      policy.cooldownMs <= policy.maxCooldownMs
  {
    assert policy.cooldownMs * Power(0) == policy.cooldownMs;
    if policy.cooldownMs > policy.maxCooldownMs {
      assert CooldownAfter(policy, 0) != Min(policy.cooldownMs * Power(0), policy.maxCooldownMs);
    }
  }

  // ---------------------------------------------------------------------------------------------
  // The memory itself

  class InMemoryAvailability {
    var memories: Memories
    const policy: Policy

    constructor (policy: Policy)
      ensures memories == map[] && this.policy == policy
    {
      this.policy := policy;
      memories := map[];
    }

    method IsBlocked(scope: string, now: int) returns (until: Option<int>)
      modifies this
      ensures (memories, until) == Blocked(old(memories), scope, now)
    {
      if scope !in memories || memories[scope].until.None? {
        return None;
      }
      var memory := memories[scope];
      if now >= memory.until.value {
        memories := memories[scope := memory.(probing := true)];
        return None;
      }
      if memory.probing {
        return memory.until;
      }
      return memory.until;
    }

    method Fail(scope: string, fault: Fault)
      modifies this
      ensures memories == RecordFault(policy, old(memories), scope, fault)
    {
      var memory := if scope in memories then memories[scope] else Memory(0, policy.cooldownMs, None, fault.kind, false);
      if memory.probing {
        memory := memory.(cooldownMs := Min(memory.cooldownMs * 2, policy.maxCooldownMs));
      }
      memory := memory.(probing := false, consecutiveFaults := memory.consecutiveFaults + 1, kind := fault.kind);
      if memory.consecutiveFaults >= Threshold(policy, fault.kind) {
        var wait := if fault.retryAfterMs.Some? then fault.retryAfterMs.value else memory.cooldownMs;
        memory := memory.(until := Some(fault.now + wait));
      }
      memories := memories[scope := memory];
    }

    method Succeed(scope: string)
      modifies this
      ensures memories == RecordSuccess(old(memories), scope)
    {
      memories := memories - {scope};
    }
  }
}
