/**
 * The gateway's walk over its candidates, after `src/models/routed-gateway.ts`: skip what is broken, retry
 * what is transient, fall back, and leave one usage row for each call.
 *
 * The clock, the providers and the key vault are parameters, indexed by how often they were asked.
 */
module Gateway {
  import opened Basics
  import opened Routing
  import opened Availability

  /** What a provider call comes to; an error that is not the gateway's own is retryable when it is a timeout. */
  datatype Outcome =
    | Answers(text: string)
    | Raises(retryable: bool, kind: Option<Kind>, retryAfterMs: Option<int>)
    | Throws(timedOut: bool)

  datatype KeyAnswer = Key(key: string) | NoKey | Unsealable

  datatype Brought = Names(providers: set<string>) | Unreadable

  /** What the vault answers a tenant, the n-th time it is asked: the providers it brought a key for, and the key for one. */
  datatype ModelKeys = ModelKeys(providers: (nat, string) -> Brought, resolve: (nat, string, string) -> KeyAnswer)

  datatype Setup = Setup(
    config: Config,
    policy: Policy,
    clock: nat -> int,
    provider: nat -> Outcome,
    modelKeys: Option<ModelKeys>)

  /** `at` is the last reading of the clock: the moment itself is no earlier. */
  datatype Event =
    | Skipped(tenant: string, candidate: Candidate, at: int, held: int)
    | Invoked(tenant: string, candidate: Candidate, at: int, key: Option<string>)
    | Row(tenant: string, candidate: Candidate, attempts: nat, succeeded: bool, paidByTenant: bool)
    | Failed(tenant: string, candidate: Candidate, fault: Fault, until: Option<int>)
    | Recovered(tenant: string, candidate: Candidate)
    | Slept(ms: nat)

  datatype World = World(memories: Memories, ticks: nat, time: int, calls: nat, lists: nat, keys: nat, log: seq<Event>)

  function New(s: Setup): World { World(map[], 0, s.clock(0), 0, 0, 0, []) }

  datatype Failure = Failure(retryable: bool, kind: Kind, retryAfterMs: Option<int>)

  function AsFailure(o: Outcome): Failure
    requires !o.Answers?
  {
    var retryable := if o.Raises? then o.retryable else o.timedOut;
    var sane := if retryable then ProviderFault else RequestFault;
    match o
    case Raises(_, kind, retryAfterMs) => Failure(retryable, if kind.Some? then kind.value else sane, retryAfterMs)
    case Throws(_) => Failure(retryable, sane, None)
  }

  function ScopeFor(tenant: string, c: Candidate, kind: Kind): string {
    if kind == CredentialFault then CredentialScope(tenant, c.reference) else ProviderScope(c.provider)
  }

  function Logged(w: World, e: Event): World { w.(log := w.log + [e]) }

  function Tick(s: Setup, w: World): World { w.(ticks := w.ticks + 1, time := s.clock(w.ticks)) }

  /** Whichever memory holds this candidate back: the provider's or the key's. */
  function Check(s: Setup, w: World, tenant: string, c: Candidate): (World, Option<int>) {
    var w1 := Tick(s, w);
    var (m1, byProvider) := Blocked(w.memories, ProviderScope(c.provider), w1.time);
    if byProvider.Some? then (w1.(memories := m1), byProvider)
    else
      var (m2, byKey) := Blocked(m1, CredentialScope(tenant, c.reference), w1.time);
      (w1.(memories := m2), byKey)
  }

  /** Charge the failure to whoever it belongs to. */
  function Remember(s: Setup, w: World, tenant: string, c: Candidate, f: Failure): World {
    var w1, scope := Tick(s, w), ScopeFor(tenant, c, f.kind);
    var fault := Fault(f.kind, w1.time, f.retryAfterMs);
    var m := RecordFault(s.policy, w.memories, scope, fault);
    Logged(w1.(memories := m), Failed(tenant, c, fault, m[scope].until))
  }

  function Forget(w: World, tenant: string, c: Candidate): World {
    Logged(w.(memories := RecordSuccess(RecordSuccess(w.memories, ProviderScope(c.provider)), CredentialScope(tenant, c.reference))),
      Recovered(tenant, c))
  }

  /** The tenant's key for one provider, unsealed when it is about to be used; None when unsealing raises. */
  function KeyFor(s: Setup, w: World, tenant: string, provider: string, own: set<string>): (World, Option<Option<string>>) {
    if own == {} || s.modelKeys.None? then (w, Some(None))
    else
      (w.(keys := w.keys + 1),
        match s.modelKeys.value.resolve(w.keys, tenant, provider)
        case Key(key) => Some(Some(key))
        case NoKey => Some(None)
        case Unsealable => None)
  }

  datatype Attempted = Answered(text: string) | Threw | Moved

  function Call(w: World, tenant: string, c: Candidate, key: Option<string>): World {
    Logged(w.(calls := w.calls + 1), Invoked(tenant, c, w.time, key))
  }

  function Backoff(attempt: nat): nat
    requires attempt >= 1
  {
    250 * Power(attempt - 1)
  }

  /** One attempt is the last one at this candidate, or it may be tried again. */
  datatype Tried = Over(how: Attempted) | Again

  function Try(s: Setup, w: World, tenant: string, c: Candidate, own: set<string>, number: nat): (World, Tried) {
    var (w1, key) := KeyFor(s, w, tenant, c.provider, own);
    if key.None? then (w1, Over(Threw))
    else
      var w2 := Call(w1, tenant, c, key.value);
      match s.provider(w1.calls)
      case Answers(text) => (Logged(Forget(w2, tenant, c), Row(tenant, c, number, true, key.value.Some?)), Over(Answered(text)))
      case o =>
        var f, w3 := AsFailure(o), Logged(w2, Row(tenant, c, number, false, key.value.Some?));
        if !f.retryable then (w3, Over(Threw))
        else
          var w4 := Remember(s, w3, tenant, c, f);
          if f.kind == CredentialFault then (w4, Over(Moved))
          else
            var (w5, blocked) := Check(s, w4, tenant, c);
            (w5, if blocked.Some? then Over(Moved) else Again)
  }

  /** The attempts at one candidate, from `attempt` on; `attempts` counts across candidates. */
  function Tries(s: Setup, w: World, tenant: string, c: Candidate, own: set<string>, attempt: nat, attempts: nat): (World, nat, Attempted)
    requires attempt >= 1
    decreases s.config.attemptsPerModel + 1 - attempt
  {
    if attempt > s.config.attemptsPerModel then (w, attempts, Moved)
    else
      var (w1, tried) := Try(s, w, tenant, c, own, attempts + 1);
      if tried.Over? then (w1, attempts + 1, tried.how)
      else if attempt < s.config.attemptsPerModel then
        Tries(s, Logged(w1, Slept(Backoff(attempt))), tenant, c, own, attempt + 1, attempts + 1)
      else (w1, attempts + 1, Moved)
  }

  datatype Completed = Response(text: string) | Raised | Exhausted(attempts: nat)

  function Walk(s: Setup, w: World, tenant: string, candidates: seq<Candidate>, own: set<string>, attempts: nat): (World, Completed)
    decreases |candidates|
  {
    if candidates == [] then (w, Exhausted(attempts))
    else
      var (w1, blocked) := Check(s, w, tenant, candidates[0]);
      if blocked.Some? then
        Walk(s, Logged(w1, Skipped(tenant, candidates[0], w1.time, blocked.value)), tenant, candidates[1..], own, attempts)
      else
        var (w2, n, r) := Tries(s, w1, tenant, candidates[0], own, 1, attempts);
        match r
        case Answered(text) => (w2, Response(text))
        case Threw => (w2, Raised)
        case Moved => Walk(s, w2, tenant, candidates[1..], own, n)
  }

  /** The completion providers a tenant brought a key for; None when the vault cannot be read. */
  function OwnProviders(s: Setup, w: World, tenant: string): (World, Option<set<string>>) {
    if s.modelKeys.None? then (w, Some({}))
    else
      (w.(lists := w.lists + 1),
        match s.modelKeys.value.providers(w.lists, tenant)
        case Names(providers) => Some(if s.config.embedding.Some? then providers - {s.config.embedding.value} else providers)
        case Unreadable => None)
  }

  function Eligible(all: seq<Candidate>, own: set<string>): seq<Candidate> {
    if own == {} then all else Filter((c: Candidate) => c.provider in own, all)
  }

  function Complete(s: Setup, w: World, tenant: string, task: Task): (World, Completed)
    requires Accepted(s.config)
  {
    var (w1, own) := OwnProviders(s, w, tenant);
    if own.None? then (w1, Raised)
    else Walk(s, w1, tenant, Eligible(CandidatesFor(s.config, task), own.value), own.value, 0)
  }

  datatype Request = Request(tenant: string, task: Task)

  function CompleteAll(s: Setup, w: World, requests: seq<Request>): World
    requires Accepted(s.config)
    decreases |requests|
  {
    if requests == [] then w else CompleteAll(s, Complete(s, w, requests[0].tenant, requests[0].task).0, requests[1..])
  }
}
