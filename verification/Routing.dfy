/** Which model serves which kind of work, after `src/models/routing.ts`. */
module Routing {
  import opened Basics

  datatype Task = RoutingTask | Simple | Reasoning | Sensitive

  datatype Tier = Cheap | Premium

  datatype Adapter = OpenAiCompatible | Anthropic

  datatype ProviderEntry = ProviderEntry(kind: Adapter, baseUrl: Option<string>)

  datatype ModelEntry = ModelEntry(provider: string, model: string, tier: Tier)

  type Attempts = n: nat | 1 <= n <= 5 witness 1

  /** A configuration whose fields have their shapes; `routes` has an entry for every task. */
  datatype Config = Config(
    providers: map<string, ProviderEntry>,
    models: map<string, ModelEntry>,
    routes: Task -> seq<string>,
    embedding: Option<string>,
    attemptsPerModel: Attempts)

  datatype Refusal = UndeclaredProvider | MissingBaseUrl | EmbeddingIsACompletionProvider | UnknownModel | CheapForSensitive

  datatype Candidate = Candidate(reference: string, provider: string, model: string, tier: Tier)

  // ---------------------------------------------------------------------------------------------
  // What is refused

  /** What is wrong with one model. */
  function ModelRefusal(config: Config, entry: ModelEntry): Option<Refusal> {
    if entry.provider !in config.providers then Some(UndeclaredProvider)
    else if config.providers[entry.provider].kind.OpenAiCompatible? && config.providers[entry.provider].baseUrl.None? then Some(MissingBaseUrl)
    else None
  }

  /** What is wrong with one entry of a route. */
  function EntryRefusal(config: Config, task: Task, reference: string): Option<Refusal> {
    if reference !in config.models then Some(UnknownModel)
    else if task == Sensitive && config.models[reference].tier == Cheap then Some(CheapForSensitive)
    else None
  }

  function RouteRefusal(config: Config, task: Task, route: seq<string>): Option<Refusal> {
    if route == [] then None
    else if EntryRefusal(config, task, route[0]).Some? then EntryRefusal(config, task, route[0])
    else RouteRefusal(config, task, route[1..])
  }

  function RoutesRefusal(config: Config, tasks: seq<Task>): Option<Refusal> {
    if tasks == [] then None
    else if RouteRefusal(config, tasks[0], config.routes(tasks[0])).Some? then RouteRefusal(config, tasks[0], config.routes(tasks[0]))
    else RoutesRefusal(config, tasks[1..])
  }

  const TASKS := [RoutingTask, Simple, Reasoning, Sensitive]

  /** The models are looked at in the order the file lists them. */
  function ModelsRefusal(config: Config, order: seq<string>): Option<Refusal>
    requires forall r :: r in order ==> r in config.models
  {
    if order == [] then None
    else if ModelRefusal(config, config.models[order[0]]).Some? then ModelRefusal(config, config.models[order[0]])
    else ModelsRefusal(config, order[1..])
  }

  function Parse(config: Config, order: seq<string>): Result<Config, Refusal>
    requires forall r :: r in order <==> r in config.models
  {
    if ModelsRefusal(config, order).Some? then Err(ModelsRefusal(config, order).value)
    else if config.embedding.Some? && config.embedding.value in config.providers then Err(EmbeddingIsACompletionProvider)
    else if RoutesRefusal(config, TASKS).Some? then Err(RoutesRefusal(config, TASKS).value)
    else Ok(config)
  }

  // ---------------------------------------------------------------------------------------------
  // What an accepted configuration guarantees

  /** Every rule at once, independent of the order anything is looked at. */
  ghost predicate Accepted(config: Config) {
    && (forall r :: r in config.models ==>
          && config.models[r].provider in config.providers
          && (config.providers[config.models[r].provider].kind.OpenAiCompatible? ==> config.providers[config.models[r].provider].baseUrl.Some?))
    && (config.embedding.Some? ==> config.embedding.value !in config.providers)
    && (forall task, r :: r in config.routes(task) ==> r in config.models && (task == Sensitive ==> config.models[r].tier == Premium))
  }

  lemma {:induction false} ModelsRefusalNone(config: Config, order: seq<string>)
    requires forall r :: r in order ==> r in config.models
    ensures ModelsRefusal(config, order).None? <==> forall r :: r in order ==> ModelRefusal(config, config.models[r]).None?
  {
    if order != [] {
      ModelsRefusalNone(config, order[1..]);
    }
  }

  lemma {:induction false} RouteRefusalNone(config: Config, task: Task, route: seq<string>)
    ensures RouteRefusal(config, task, route).None? <==> forall r :: r in route ==> EntryRefusal(config, task, r).None?
  {
    if route != [] {
      RouteRefusalNone(config, task, route[1..]);
    }
  }

  lemma {:induction false} RoutesRefusalNone(config: Config, tasks: seq<Task>)
    ensures RoutesRefusal(config, tasks).None? <==> forall task :: task in tasks ==> RouteRefusal(config, task, config.routes(task)).None?
  {
    hide RouteRefusal;
    if tasks != [] {
      RoutesRefusalNone(config, tasks[1..]);
    }
  }

  /** Parsing accepts exactly the configurations that keep every rule. */
  lemma ParseIffAccepted(config: Config, order: seq<string>)
    requires forall r :: r in order <==> r in config.models
    ensures Parse(config, order).Ok? <==> Accepted(config)
    ensures Parse(config, order).Ok? ==> Parse(config, order).value == config
  {
    hide ModelsRefusal, RouteRefusal, RoutesRefusal;
    ModelsRefusalNone(config, order);
    RoutesRefusalNone(config, TASKS);
    forall task: Task ensures task in TASKS {
      assert TASKS[0] == RoutingTask && TASKS[1] == Simple && TASKS[2] == Reasoning && TASKS[3] == Sensitive;
      match task case RoutingTask => case Simple => case Reasoning => case Sensitive =>
    }
    forall task ensures RouteRefusal(config, task, config.routes(task)).None? <==>
                        forall r :: r in config.routes(task) ==> EntryRefusal(config, task, r).None? {
      RouteRefusalNone(config, task, config.routes(task));
    }
  }

  // ---------------------------------------------------------------------------------------------
  // Candidates

  function Resolve(config: Config, reference: string): Candidate
    requires reference in config.models
  {
    var entry := config.models[reference];
    Candidate(reference, entry.provider, entry.model, entry.tier)
  }

  function ResolveAll(config: Config, route: seq<string>): (all: seq<Candidate>)
    requires forall r :: r in route ==> r in config.models
    ensures |all| == |route| && forall i :: 0 <= i < |route| ==> all[i] == Resolve(config, route[i])
  {
    if route == [] then [] else [Resolve(config, route[0])] + ResolveAll(config, route[1..])
  }

  /** First choice, then fallbacks. */
  function CandidatesFor(config: Config, task: Task): seq<Candidate>
    requires Accepted(config)
  {
    ResolveAll(config, config.routes(task))
  }

  /** A task's candidates are the models its route names, in its order, each as it is configured. */
  lemma CandidatesAre(config: Config, task: Task, i: nat)
    requires Accepted(config)
    ensures |CandidatesFor(config, task)| == |config.routes(task)|
    ensures i < |config.routes(task)| ==>
      var reference, c := config.routes(task)[i], CandidatesFor(config, task)[i];
      && reference in config.models && c.reference == reference && c.provider == config.models[reference].provider
      && c.model == config.models[reference].model && c.tier == config.models[reference].tier
      && (task == Sensitive ==> c.tier == Premium)
  {
    if i < |config.routes(task)| { assert config.routes(task)[i] in config.routes(task); }
  }
}
