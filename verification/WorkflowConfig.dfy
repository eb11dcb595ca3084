/** The semantic checks on a declared workflow, after `src/workflows/workflow-config.ts`. */
module WorkflowConfig {
  import opened Basics
  import Text
  import Template

  datatype Step = Step(id: string, agent: string, prompt: string, approve: bool)

  datatype Config = Config(id: string, steps: seq<Step>)

  datatype ConfigError =
    | DuplicateStep(id: string)
    | UnknownName(step: string, name: string)
    | NotEarlier(step: string, target: string)

  const STEPS := "steps."

  function Ids(steps: seq<Step>): set<string> {
    set step | step in steps :: step.id
  }

  /** A prompt may ask for the run's input and for the answer of a step that runs earlier. */
  predicate Allowed(name: string, earlier: set<string>) {
    name == "input" || (Text.StartsWith(name, STEPS) && name[|STEPS|..] in earlier)
  }

  ghost predicate WellFormed(steps: seq<Step>) {
    forall i :: 0 <= i < |steps| ==> StepOk(steps[i], Ids(steps[..i]))
  }

  ghost predicate StepOk(step: Step, earlier: set<string>) {
    && step.id !in earlier
    && forall name :: name in Template.Names(step.prompt) ==> Allowed(name, earlier)
  }

  /** What each refusal says about the step it was raised for. */
  ghost predicate Explains(error: ConfigError, step: Step, earlier: set<string>) {
    match error
    case DuplicateStep(id) => id == step.id && id in earlier
    case UnknownName(id, name) =>
      id == step.id && name in Template.Names(step.prompt) && name != "input" && !Text.StartsWith(name, STEPS)
    case NotEarlier(id, target) =>
      id == step.id && STEPS + target in Template.Names(step.prompt) && target !in earlier
  }

  /** Everything before step `i` is fine and `error` is what is wrong with step `i`. */
  ghost predicate FirstBad(steps: seq<Step>, i: nat, error: ConfigError)
    requires i < |steps|
  {
    WellFormed(steps[..i]) && Explains(error, steps[i], Ids(steps[..i]))
  }

  lemma IdsPush(steps: seq<Step>, i: nat)
    requires i < |steps|
    ensures Ids(steps[..i + 1]) == Ids(steps[..i]) + {steps[i].id}
  {
    assert steps[..i + 1] == steps[..i] + [steps[i]];
    assert steps[..i + 1][i] == steps[i];
    assert forall step :: step in steps[..i + 1] <==> step in steps[..i] || step == steps[i];
  }

  lemma IdsAreDistinct(steps: seq<Step>, i: nat, j: nat)
    requires WellFormed(steps) && i < j < |steps|
    ensures steps[i].id != steps[j].id
  {
    assert steps[..j][i] == steps[i];
    assert steps[i].id in Ids(steps[..j]);
  }

  /** Accepts a configuration exactly when it is well formed, and otherwise says what is wrong with its first bad step. */
  method Parse(config: Config) returns (r: Result<Config, ConfigError>)
    ensures r.Ok? <==> WellFormed(config.steps)
    ensures r.Ok? ==> r.value == config
    ensures r.Err? ==> exists i :: 0 <= i < |config.steps| && FirstBad(config.steps, i, r.error)
  {
    var earlier: set<string> := {};
    var i := 0;
    while i < |config.steps|
      invariant 0 <= i <= |config.steps|
      invariant earlier == Ids(config.steps[..i])
      invariant forall j :: 0 <= j < i ==> StepOk(config.steps[j], Ids(config.steps[..j]))
    {
      var step := config.steps[i];
      assert WellFormed(config.steps[..i]) by {
        forall j | 0 <= j < i ensures StepOk(config.steps[..i][j], Ids(config.steps[..i][..j])) {
          assert config.steps[..i][..j] == config.steps[..j];
        }
      }
      var refused := CheckStep(step, earlier);
      if refused.Some? {
        assert !StepOk(config.steps[i], Ids(config.steps[..i]));
        assert FirstBad(config.steps, i, refused.value);
        return Err(refused.value);
      }
      IdsPush(config.steps, i);
      earlier := earlier + {step.id};
      i := i + 1;
    }
    return Ok(config);
  }

  /** The checks on one step. */
  method CheckStep(step: Step, earlier: set<string>) returns (refused: Option<ConfigError>)
    ensures refused.None? <==> StepOk(step, earlier)
    ensures refused.Some? ==> Explains(refused.value, step, earlier)
  {
    hide Template.Names, Text.StartsWith;
    if step.id in earlier {
      return Some(DuplicateStep(step.id));
    }
    var names := Template.References(step.prompt);
    var i := 0;
    while i < |names|
      invariant 0 <= i <= |names|
      invariant forall j :: 0 <= j < i ==> Allowed(names[j], earlier)
    {
      var name := names[i];
      assert name in Template.Names(step.prompt);
      if name != "input" {
        if !Text.StartsWith(name, STEPS) {
          return Some(UnknownName(step.id, name));
        }
        BehindSteps(name);
        var target := name[|STEPS|..];
        if target !in earlier {
          return Some(NotEarlier(step.id, target));
        }
      }
      i := i + 1;
    }
    forall name | name in Template.Names(step.prompt) ensures Allowed(name, earlier) {
      assert name in names;
    }
    return None;
  }

  lemma BehindSteps(name: string)
    requires Text.StartsWith(name, STEPS)
    ensures |STEPS| <= |name| && name == STEPS + name[|STEPS|..]
  {}

  /** The agents a workflow names that nobody registered; empty means it can run. */
  method MissingAgents(config: Config, known: set<string>) returns (missing: set<string>)
    ensures missing == (set step | step in config.steps && step.agent !in known :: step.agent)
  {
    missing := {};
    for i := 0 to |config.steps|
      invariant missing == set step | step in config.steps[..i] && step.agent !in known :: step.agent
    {
      assert config.steps[..i + 1] == config.steps[..i] + [config.steps[i]];
      assert forall step :: step in config.steps[..i + 1] <==> step in config.steps[..i] || step == config.steps[i];
      if config.steps[i].agent !in known {
        missing := missing + {config.steps[i].agent};
      }
    }
    assert config.steps[..|config.steps|] == config.steps;
  }
}
