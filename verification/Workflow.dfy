/**
 * The workflow engine as a state machine, after `src/workflows/workflow-runner.ts` and
 * `src/workflows/in-memory-workflow-run-store.ts`.
 *
 * `World` is everything the engine reads and writes. What it cannot decide itself is a parameter:
 * the agent answers from `Setup.agent`, indexed by the number of agent calls made so far, so a
 * statement about every `Setup` is a statement about every behaviour of the agents.
 */
module Workflow {
  import opened Basics
  import Text
  import Template
  import opened WorkflowConfig
  import Approvals

  datatype RunStatus = Running | Awaiting | Completed | Failed

  datatype StepStatus = InProgress | Waiting | Done | Broken | Skipped

  /** What a paused step waits for: its own gate, or the agent's write gate. */
  datatype Wait = OnStep | OnTool

  datatype Cause =
    | MissingName(name: string)
    | AgentThrew(message: string)
    | Declined(reason: string)
    | NoSession
    | NoQueue
    | QueueRefused

  datatype Run = Run(id: nat, tenant: string, workflow: string, input: string, status: RunStatus, error: Option<Cause>)

  datatype StepRow = StepRow(
    stepId: string,
    agent: string,
    session: Option<nat>,
    prompt: string,
    output: Option<string>,
    status: StepStatus,
    awaiting: Option<Wait>,
    approval: Option<nat>,
    error: Option<Cause>)

  /** How a turn of an agent ends: with an answer, held by the agent's own write gate, or with an exception. */
  datatype AgentOutcome = Answered(text: string) | Held | Threw(message: string)

  datatype Event =
    | AgentRan(run: nat, step: string, session: nat, prompt: string)
    | AgentResumed(run: nat, step: string, session: nat)
    | Decided(approval: nat, status: Approvals.Status)

  datatype Setup = Setup(workflows: map<string, Config>, hasQueue: bool, agent: nat -> AgentOutcome)

  datatype World = World(
    runs: map<nat, Run>,
    steps: map<nat, seq<StepRow>>,
    nextRun: nat,
    queue: Approvals.Queue,
    sessions: nat,
    calls: nat,
    log: seq<Event>)

  const NEW := World(map[], map[], 0, Approvals.EMPTY, 0, 0, [])

  // ---------------------------------------------------------------------------------------------
  // The run store

  function StepIndex(rows: seq<StepRow>, stepId: string): (i: nat)
    ensures i <= |rows|
    ensures i < |rows| ==> rows[i].stepId == stepId
    ensures forall j :: 0 <= j < i ==> rows[j].stepId != stepId
  {
    if rows == [] || rows[0].stepId == stepId then 0 else 1 + StepIndex(rows[1..], stepId)
  }

  function FindStep(rows: seq<StepRow>, stepId: string): Option<StepRow> {
    var i := StepIndex(rows, stepId);
    if i < |rows| then Some(rows[i]) else None
  }

  function Or<T>(a: Option<T>, b: Option<T>): Option<T> { if a.Some? then a else b }

  /** A new state for a step keeps the session and the output the old one had, unless it brings its own. */
  function Merge(existing: Option<StepRow>, row: StepRow): StepRow {
    if existing.None? then row
    else row.(session := Or(row.session, existing.value.session), output := Or(row.output, existing.value.output))
  }

  /** One row per step: replaced in place, or added at the end. */
  function Upsert(rows: seq<StepRow>, row: StepRow): seq<StepRow> {
    var i := StepIndex(rows, row.stepId);
    var merged := Merge(FindStep(rows, row.stepId), row);
    if i < |rows| then rows[i := merged] else rows + [merged]
  }

  function Rows(w: World, run: nat): seq<StepRow> {
    if run in w.steps then w.steps[run] else []
  }

  function RecordStep(w: World, run: nat, row: StepRow): World {
    w.(steps := w.steps[run := Upsert(Rows(w, run), row)])
  }

  function SetStatus(w: World, run: nat, status: RunStatus, error: Option<Cause>): World {
    if run !in w.runs then w
    else w.(runs := w.runs[run := w.runs[run].(
      status := status,
      error := if status == Completed || status == Failed then error else None)])
  }

  // ---------------------------------------------------------------------------------------------
  // The runner

  /** What a prompt can quote: the run's input, and the output of every finished step. */
  function Quotable(input: string, rows: seq<StepRow>): map<string, string> {
    if rows == [] then map["input" := input]
    else
      var last := rows[|rows| - 1];
      var before := Quotable(input, rows[..|rows| - 1]);
      if last.status == Done && last.output.Some? then before[STEPS + last.stepId := last.output.value] else before
  }

  datatype Outcome = Finished | Paused | Rejected(cause: Cause) | Raised(cause: Cause)

  datatype GateAnswer = Go | Stop(outcome: Outcome)

  /** The step's own decision is filed under the run and the step. */
  function GateCall(run: nat, step: string): string { Text.Decimal(run) + ":" + step }

  function RowFor(step: Step, prompt: string, status: StepStatus): StepRow {
    StepRow(step.id, step.agent, None, prompt, None, status, None, None, None)
  }

  function GateRequest(run: Run, step: Step, session: nat, prompt: string): Approvals.Request {
    Approvals.Request(run.tenant, session, GateCall(run.id, step.id), "workflow." + step.id, prompt)
  }

  /** Ask a person, or read the answer they already gave. */
  function Gate(s: Setup, w: World, run: Run, step: Step, prompt: string, previous: Option<StepRow>): (World, GateAnswer) {
    if !s.hasQueue then (w, Stop(Raised(NoQueue)))
    else if previous.Some? && previous.value.status == Waiting && previous.value.approval.Some? then
      match Approvals.Lookup(w.queue, run.tenant, previous.value.approval.value)
      case None => (w, Stop(Paused))
      case Some(approval) =>
        if approval.status == Approvals.Pending then (w, Stop(Paused))
        else if approval.status == Approvals.Rejected then
          var cause := Declined(if approval.reason.Some? then approval.reason.value else "a person declined this step");
          var row := RowFor(step, prompt, Skipped).(approval := Some(approval.id), error := Some(cause));
          (RecordStep(w, run.id, row), Stop(Rejected(cause)))
        else (w, Go)
    else Ask(w, run, step, prompt)
  }

  /** The workflow's gate goes into the queue under a session of its own, and the step waits. */
  function Ask(w: World, run: Run, step: Step, prompt: string): (World, GateAnswer) {
    var session := w.sessions + 1;
    var request := GateRequest(run, step, session, prompt);
    var asked := Approvals.RequestAll(w.queue, [request]);
    Approvals.RequestAppends(w.queue, [request]);
    if asked.refused.Some? then (w.(sessions := session, queue := asked.queue), Stop(Raised(QueueRefused)))
    else
      var row := RowFor(step, prompt, Waiting).(
        session := Some(session), awaiting := Some(OnStep), approval := Some(asked.created[0].id));
      (RecordStep(w, run.id, row).(sessions := session, queue := asked.queue), Stop(Paused))
  }

  /** What a turn produced, written down. */
  function Settle(w: World, run: Run, step: Step, prompt: string, session: nat, outcome: AgentOutcome): (World, Outcome) {
    match outcome
    case Threw(message) => (w, Raised(AgentThrew(message)))
    case Held =>
      var row := RowFor(step, prompt, Waiting).(session := Some(session), awaiting := Some(OnTool));
      (RecordStep(w, run.id, row), Paused)
    case Answered(text) =>
      var row := RowFor(step, prompt, Done).(session := Some(session), output := Some(text));
      (RecordStep(w, run.id, row), Finished)
  }

  /** A session of its own, a row that says the step is running, and the agent is called. */
  function Opened(w: World, run: Run, step: Step, prompt: string): World {
    var session := w.sessions + 1;
    var row := RowFor(step, prompt, InProgress).(session := Some(session));
    RecordStep(w, run.id, row).(
      sessions := session,
      calls := w.calls + 1,
      log := w.log + [AgentRan(run.id, step.id, session, prompt)])
  }

  function Launch(s: Setup, w: World, run: Run, step: Step, prompt: string): (World, Outcome) {
    Settle(Opened(w, run, step, prompt), run, step, prompt, w.sessions + 1, s.agent(w.calls))
  }

  /** The turn held inside the step is called again, in the session it was held in. */
  function Reopened(w: World, run: Run, step: Step, session: nat): World {
    w.(calls := w.calls + 1, log := w.log + [AgentResumed(run.id, step.id, session)])
  }

  function Continue(s: Setup, w: World, run: Run, step: Step, prompt: string, session: nat): (World, Outcome) {
    Settle(Reopened(w, run, step, session), run, step, prompt, session, s.agent(w.calls))
  }

  predicate HeldByAgent(previous: Option<StepRow>) {
    previous.Some? && previous.value.status == Waiting && previous.value.awaiting == Some(OnTool)
  }

  function TakeStep(s: Setup, w: World, run: Run, step: Step): (World, Outcome) {
    var previous := FindStep(Rows(w, run.id), step.id);
    match Template.Render(step.prompt, Quotable(run.input, Rows(w, run.id)))
    case Err(name) => (w, Raised(MissingName(name)))
    case Ok(prompt) =>
      if HeldByAgent(previous) then
        if previous.value.session.None? then (w, Raised(NoSession))
        else Continue(s, w, run, step, prompt, previous.value.session.value)
      else if step.approve then
        var (w1, answer) := Gate(s, w, run, step, prompt, previous);
        if answer.Stop? then (w1, answer.outcome) else Launch(s, w1, run, step, prompt)
      else Launch(s, w, run, step, prompt)
  }

  function FailedRow(step: Step, previous: Option<StepRow>, cause: Cause): StepRow {
    RowFor(step, if previous.Some? then previous.value.prompt else step.prompt, Broken).(error := Some(cause))
  }

  /** The world after a step that ended the walk. */
  function Stopped(w: World, run: Run, step: Step, previous: Option<StepRow>, outcome: Outcome): World {
    match outcome
    case Raised(cause) =>
      SetStatus(RecordStep(w, run.id, FailedRow(step, previous, cause)), run.id, Failed, Some(cause))
    case Paused => SetStatus(w, run.id, Awaiting, None)
    case Rejected(cause) => SetStatus(w, run.id, Failed, Some(cause))
    case Finished => w
  }

  predicate IsDone(w: World, run: nat, step: Step) {
    var previous := FindStep(Rows(w, run), step.id);
    previous.Some? && previous.value.status == Done
  }

  /** Walk the steps from `i` on, over those already done. */
  function Drive(s: Setup, w: World, config: Config, run: Run, i: nat): World
    decreases |config.steps| - i
  {
    if i >= |config.steps| then SetStatus(w, run.id, Completed, None)
    else if IsDone(w, run.id, config.steps[i]) then Drive(s, w, config, run, i + 1)
    else
      var (w1, outcome) := TakeStep(s, w, run, config.steps[i]);
      if outcome.Finished? then Drive(s, w1, config, run, i + 1)
      else Stopped(w1, run, config.steps[i], FindStep(Rows(w, run.id), config.steps[i].id), outcome)
  }

  lemma DriveUnfolds(s: Setup, w: World, config: Config, run: Run, i: nat)
    requires i < |config.steps| && !IsDone(w, run.id, config.steps[i])
    ensures var (w1, outcome) := TakeStep(s, w, run, config.steps[i]);
      Drive(s, w, config, run, i) ==
        if outcome.Finished? then Drive(s, w1, config, run, i + 1) else Stopped(w1, run, config.steps[i], FindStep(Rows(w, run.id), config.steps[i].id), outcome)
  {}

  lemma DriveSkips(s: Setup, w: World, config: Config, run: Run, i: nat)
    requires i < |config.steps| && IsDone(w, run.id, config.steps[i])
    ensures Drive(s, w, config, run, i) == Drive(s, w, config, run, i + 1)
  {}

  lemma DriveEnds(s: Setup, w: World, config: Config, run: Run)
    ensures Drive(s, w, config, run, |config.steps|) == SetStatus(w, run.id, Completed, None)
  {}

  predicate CanStart(s: Setup, workflow: string, agents: set<string>) {
    && workflow in s.workflows
    && (forall step :: step in s.workflows[workflow].steps ==> step.agent in agents)
    && (s.hasQueue || forall step :: step in s.workflows[workflow].steps ==> !step.approve)
  }

  function Begin(w: World, tenant: string, workflow: string, input: string): World {
    w.(runs := w.runs[w.nextRun := Run(w.nextRun, tenant, workflow, input, Running, None)],
       steps := w.steps[w.nextRun := []],
       nextRun := w.nextRun + 1)
  }

  function Start(s: Setup, w: World, tenant: string, workflow: string, input: string, agents: set<string>): World {
    if !CanStart(s, workflow, agents) then w
    else
      var w1 := Begin(w, tenant, workflow, input);
      Drive(s, w1, s.workflows[workflow], w1.runs[w.nextRun], 0)
  }

  function Resume(s: Setup, w: World, tenant: string, run: nat): World {
    if run !in w.runs || w.runs[run].tenant != tenant then w
    else if w.runs[run].status == Completed || w.runs[run].status == Failed then w
    else if w.runs[run].workflow !in s.workflows then w
    else Drive(s, w, s.workflows[w.runs[run].workflow], w.runs[run], 0)
  }

  /** A person decides, in the queue. */
  function DecideOn(w: World, tenant: string, id: nat, status: Approvals.Status, who: string, reason: Option<string>): World
    requires status != Approvals.Pending
  {
    if Approvals.CanDecide(w.queue, tenant, id)
    then w.(queue := Approvals.Decided(w.queue, tenant, id, status, who, reason), log := w.log + [Decided(id, status)])
    else w
  }

  /** What callers can do; the agents that exist may change between calls. */
  datatype Action =
    | DoStart(tenant: string, workflow: string, input: string, agents: set<string>)
    | DoResume(tenant: string, run: nat)
    | DoDecide(tenant: string, approval: nat, status: Approvals.Status, who: string, reason: Option<string>)

  function Apply(s: Setup, w: World, a: Action): World {
    match a
    case DoStart(tenant, workflow, input, agents) => Start(s, w, tenant, workflow, input, agents)
    case DoResume(tenant, run) => Resume(s, w, tenant, run)
    case DoDecide(tenant, id, status, who, reason) =>
      if status == Approvals.Pending then w else DecideOn(w, tenant, id, status, who, reason)
  }

  function Execute(s: Setup, w: World, actions: seq<Action>): World
    decreases |actions|
  {
    if actions == [] then w else Execute(s, Apply(s, w, actions[0]), actions[1..])
  }
}
