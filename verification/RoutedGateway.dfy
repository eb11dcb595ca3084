/**
 * The gateway as the program has it: nested loops over candidates and attempts, and an availability memory
 * changed in place. `Complete` is tied to the walk of `Gateway`.
 */
module RoutedGateway {
  import opened Basics
  import opened Routing
  import opened Availability
  import opened Spec = Gateway

  class RoutedGateway {
    const config: Config
    const availability: InMemoryAvailability
    const clock: nat -> int
    const provider: nat -> Outcome
    const modelKeys: Option<ModelKeys>
    var ticks: nat
    var time: int
    var calls: nat
    var lists: nat
    var keys: nat
    ghost var log: seq<Event>

    ghost function Setting(): Setup { Setup(config, availability.policy, clock, provider, modelKeys) }

    ghost function Now(): World
      reads this, availability
    {
      World(availability.memories, ticks, time, calls, lists, keys, log)
    }

    constructor (config: Config, policy: Policy, clock: nat -> int, provider: nat -> Outcome, modelKeys: Option<ModelKeys>)
      ensures Setting() == Setup(config, policy, clock, provider, modelKeys) && Now() == New(Setting()) && fresh(availability)
    {
      this.config, this.clock, this.provider, this.modelKeys := config, clock, provider, modelKeys;
      availability := new InMemoryAvailability(policy);
      ticks, time, calls, lists, keys, log := 0, clock(0), 0, 0, 0, [];
    }

    method ReadClock()
      modifies this`ticks, this`time
      ensures Now() == Tick(Setting(), old(Now()))
    {
      time := clock(ticks);
      ticks := ticks + 1;
    }

    method Unavailable(c: Candidate, tenant: string) returns (held: Option<int>)
      modifies this`ticks, this`time, availability
      ensures (Now(), held) == Check(Setting(), old(Now()), tenant, c)
    {
      ReadClock();
      held := availability.IsBlocked(ProviderScope(c.provider), time);
      if held.None? {
        held := availability.IsBlocked(CredentialScope(tenant, c.reference), time);
      }
    }

    method Remember(c: Candidate, tenant: string, failure: Failure)
      modifies this`ticks, this`time, this`log, availability
      ensures Now() == Spec.Remember(Setting(), old(Now()), tenant, c, failure)
    {
      var scope := if failure.kind == CredentialFault then CredentialScope(tenant, c.reference) else ProviderScope(c.provider);
      ReadClock();
      availability.Fail(scope, Fault(failure.kind, time, failure.retryAfterMs));
      log := log + [Failed(tenant, c, Fault(failure.kind, time, failure.retryAfterMs), availability.memories[scope].until)];
    }

    method TenantKey(tenant: string, providerName: string, own: set<string>) returns (key: Option<Option<string>>)
      modifies this`keys
      ensures (Now(), key) == KeyFor(Setting(), old(Now()), tenant, providerName, own)
    {
      if own == {} || modelKeys.None? {
        return Some(None);
      }
      var answer := modelKeys.value.resolve(keys, tenant, providerName);
      keys := keys + 1;
      match answer {
        case Key(key) => return Some(Some(key));
        case NoKey => return Some(None);
        case Unsealable => return None;
      }
    }

    method Record(tenant: string, c: Candidate, attempts: nat, succeeded: bool, paidByTenant: bool)
      modifies this`log
      ensures Now() == Logged(old(Now()), Row(tenant, c, attempts, succeeded, paidByTenant))
    {
      log := log + [Row(tenant, c, attempts, succeeded, paidByTenant)];
    }

    method Invoke(c: Candidate, tenant: string, key: Option<string>) returns (outcome: Outcome)
      modifies this`calls, this`log
      ensures Now() == Call(old(Now()), tenant, c, key) && outcome == provider(old(calls))
    {
      outcome := provider(calls);
      calls := calls + 1;
      log := log + [Invoked(tenant, c, time, key)];
    }

    /** One attempt: what it settled, if it settled anything. */
    method TryOnce(c: Candidate, tenant: string, own: set<string>, number: nat) returns (tried: Tried)
      modifies this`ticks, this`time, this`calls, this`keys, this`log, availability
      ensures (Now(), tried) == Spec.Try(Setting(), old(Now()), tenant, c, own, number)
    {
      hide Check, Spec.Remember, KeyFor;
      var key := TenantKey(tenant, c.provider, own);
      if key.None? {
        return Over(Threw);
      }
      var outcome := Invoke(c, tenant, key.value);
      if outcome.Answers? {
        availability.Succeed(ProviderScope(c.provider));
        availability.Succeed(CredentialScope(tenant, c.reference));
        log := log + [Recovered(tenant, c)];
        Record(tenant, c, number, true, key.value.Some?);
        return Over(Answered(outcome.text));
      }
      var failure := AsFailure(outcome);
      Record(tenant, c, number, false, key.value.Some?);
      if !failure.retryable {
        return Over(Threw);
      }
      Remember(c, tenant, failure);
      if failure.kind == CredentialFault {
        return Over(Moved);
      }
      var held := Unavailable(c, tenant);
      return if held.Some? then Over(Moved) else Again;
    }

    method OwnProviders(tenant: string) returns (own: Option<set<string>>)
      modifies this`lists
      ensures (Now(), own) == Spec.OwnProviders(Setting(), old(Now()), tenant)
    {
      if modelKeys.None? {
        return Some({});
      }
      var brought := modelKeys.value.providers(lists, tenant);
      lists := lists + 1;
      if brought.Unreadable? {
        return None;
      }
      return Some(if config.embedding.Some? then brought.providers - {config.embedding.value} else brought.providers);
    }

    /** The attempts at one candidate; None when the candidate is used up and the next one may be tried. */
    method Attempts(c: Candidate, tenant: string, own: set<string>, before: nat) returns (attempts: nat, how: Attempted)
      modifies this`ticks, this`time, this`calls, this`keys, this`log, availability
      ensures (Now(), attempts, how) == Tries(Setting(), old(Now()), tenant, c, own, 1, before)
    {
      hide Spec.Try;
      attempts := before;
      for attempt := 1 to config.attemptsPerModel + 1
        invariant Tries(Setting(), old(Now()), tenant, c, own, 1, before) == Tries(Setting(), Now(), tenant, c, own, attempt, attempts)
      {
        attempts := attempts + 1;
        var tried := TryOnce(c, tenant, own, attempts);
        if tried.Over? {
          return attempts, tried.how;
        }
        if attempt < config.attemptsPerModel {
          log := log + [Slept(Backoff(attempt))];
        } else {
          return attempts, Moved;
        }
      }
      return attempts, Moved;
    }

    method Complete(tenant: string, task: Task) returns (result: Completed)
      requires Accepted(config)
      modifies this`ticks, this`time, this`calls, this`lists, this`keys, this`log, availability
      ensures (Now(), result) == Spec.Complete(Setting(), old(Now()), tenant, task)
    {
      hide Accepted, Tries, Check;
      var own := OwnProviders(tenant);
      if own.None? {
        return Raised;
      }
      var candidates := Eligible(CandidatesFor(config, task), own.value);
      ghost var start := Now();
      var attempts := 0;
      for i := 0 to |candidates|
        invariant Walk(Setting(), start, tenant, candidates, own.value, 0) == Walk(Setting(), Now(), tenant, candidates[i..], own.value, attempts)
      {
        assert candidates[i..][0] == candidates[i] && candidates[i..][1..] == candidates[i + 1..];
        var held := Unavailable(candidates[i], tenant);
        if held.Some? {
          log := log + [Skipped(tenant, candidates[i], time, held.value)];
          continue;
        }
        var how;
        attempts, how := Attempts(candidates[i], tenant, own.value, attempts);
        if how.Answered? {
          return Response(how.text);
        }
        if how.Threw? {
          return Raised;
        }
      }
      return Exhausted(attempts);
    }
  }
}
