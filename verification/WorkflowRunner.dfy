/**
 * The runner as the program has it: objects that read and write the stores step by step. Each method is
 * tied to the transition of `Workflow` it carries out, so what is proved of the transitions holds of it.
 */
module WorkflowRunner {
  import opened Basics
  import Template
  import opened WorkflowConfig
  import Approvals
  import opened Workflow

  // ---------------------------------------------------------------------------------------------
  // Rows by step, the way the runner keeps them while it walks

  ghost predicate Distinct(rows: seq<StepRow>) {
    forall i, j :: 0 <= i < j < |rows| ==> rows[i].stepId != rows[j].stepId
  }

  function ById(rows: seq<StepRow>): map<string, StepRow> {
    if rows == [] then map[] else ById(rows[..|rows| - 1])[rows[|rows| - 1].stepId := rows[|rows| - 1]]
  }

  lemma {:induction false} ByIdIs(rows: seq<StepRow>, id: string)
    requires Distinct(rows)
    ensures id in ById(rows) <==> FindStep(rows, id).Some?
    ensures id in ById(rows) ==> FindStep(rows, id) == Some(ById(rows)[id])
  {
    if rows != [] {
      ByIdIs(rows[..|rows| - 1], id);
      var i, j := StepIndex(rows, id), StepIndex(rows[..|rows| - 1], id);
      if j < |rows| - 1 {
        assert rows[j].stepId == id;
      }
    }
  }

  lemma UpsertDistinct(rows: seq<StepRow>, row: StepRow)
    requires Distinct(rows)
    ensures Distinct(Upsert(rows, row))
    ensures FindStep(Upsert(rows, row), row.stepId) == Some(Merge(FindStep(rows, row.stepId), row))
    ensures forall id :: id != row.stepId ==> FindStep(Upsert(rows, row), id) == FindStep(rows, id)
  {
    var i, after := StepIndex(rows, row.stepId), Upsert(rows, row);
    assert forall j :: 0 <= j < |rows| ==> after[j].stepId == rows[j].stepId;
    assert after[i].stepId == row.stepId;
    assert StepIndex(after, row.stepId) == i;
    forall id | id != row.stepId ensures FindStep(after, id) == FindStep(rows, id) {
      var j, k := StepIndex(after, id), StepIndex(rows, id);
      if k < |rows| {
        assert after[k] == rows[k];
      }
    }
  }

  predicate HasAnswer(row: StepRow) { row.status == Done && row.output.Some? }

  /** The finished step a name quotes. */
  predicate Quotes(done: map<string, StepRow>, name: string) {
    STEPS <= name && name[|STEPS|..] in done && HasAnswer(done[name[|STEPS|..]])
  }

  function Names(done: map<string, StepRow>): set<string> {
    set id | id in done && HasAnswer(done[id]) :: STEPS + id
  }

  lemma NamesAreQuotes(done: map<string, StepRow>, name: string)
    ensures name in Names(done) <==> Quotes(done, name)
  {
    if name in Names(done) {
      var id :| id in done && HasAnswer(done[id]) && STEPS + id == name;
      assert name[|STEPS|..] == id;
    }
    if Quotes(done, name) {
      assert STEPS + name[|STEPS|..] == name;
    }
  }

  /** What `{{...}}` can be filled with, from the rows by step. */
  function ValuesOf(input: string, done: map<string, StepRow>): map<string, string> {
    map["input" := input] +
    map name | name in Names(done) && Quotes(done, name) :: done[name[|STEPS|..]].output.value
  }

  lemma ValuesAt(input: string, done: map<string, StepRow>, name: string)
    ensures name in ValuesOf(input, done) <==> name == "input" || Quotes(done, name)
    ensures Quotes(done, name) ==> ValuesOf(input, done)[name] == done[name[|STEPS|..]].output.value
    ensures name == "input" ==> ValuesOf(input, done)[name] == input
  {
    hide Names;
    NamesAreQuotes(done, name);
    NamesAreQuotes(done, "input");
    assert "input"[0] != STEPS[0];
  }

  lemma QuotesPush(done: map<string, StepRow>, id: string, row: StepRow, name: string)
    requires id !in done
    ensures Quotes(done[id := row], name) <==> Quotes(done, name) || (name == STEPS + id && HasAnswer(row))
    ensures Quotes(done, name) ==> name != STEPS + id
  {
    assert (STEPS + id)[|STEPS|..] == id;
    if STEPS <= name {
      assert name == STEPS + name[|STEPS|..];
    }
  }

  lemma ValuesPush(input: string, done: map<string, StepRow>, id: string, row: StepRow)
    requires id !in done
    ensures ValuesOf(input, done[id := row]) ==
      if HasAnswer(row) then ValuesOf(input, done)[STEPS + id := row.output.value] else ValuesOf(input, done)
  {
    hide ValuesOf, Quotes;
    var a := ValuesOf(input, done[id := row]);
    var b := if HasAnswer(row) then ValuesOf(input, done)[STEPS + id := row.output.value] else ValuesOf(input, done);
    forall name ensures name in a <==> name in b
      ensures name in a ==> a[name] == b[name]
    {
      ValuesPushAt(input, done, id, row, name);
    }
  }

  lemma ValuesPushAt(input: string, done: map<string, StepRow>, id: string, row: StepRow, name: string)
    requires id !in done
    ensures var a := ValuesOf(input, done[id := row]);
      var b := if HasAnswer(row) then ValuesOf(input, done)[STEPS + id := row.output.value] else ValuesOf(input, done);
      (name in a <==> name in b) && (name in a ==> a[name] == b[name])
  {
    hide ValuesOf;
    ValuesAt(input, done, name);
    ValuesAt(input, done[id := row], name);
    QuotesPush(done, id, row, name);
    assert (STEPS + id)[|STEPS|..] == id;
    assert "input"[0] != (STEPS + id)[0];
  }

  lemma ValuesOfNothing(input: string)
    ensures ValuesOf(input, map[]) == map["input" := input]
  {}

  function Except(done: map<string, StepRow>, ids: set<string>): map<string, StepRow> {
    map id | id in done && id !in ids :: done[id]
  }

  lemma {:induction false} ValuesAreQuotable(input: string, rows: seq<StepRow>)
    requires Distinct(rows)
    ensures ValuesOf(input, ById(rows)) == Quotable(input, rows)
  {
    if rows != [] {
      var front, last := rows[..|rows| - 1], rows[|rows| - 1];
      ValuesAreQuotable(input, front);
      ByIdIs(front, last.stepId);
      ValuesPush(input, ById(front), last.stepId, last);
    }
  }

  // ---------------------------------------------------------------------------------------------
  // The run store

  class InMemoryWorkflowRunStore {
    var runs: map<nat, Run>
    var steps: map<nat, seq<StepRow>>
    var next: nat

    ghost predicate Valid()
      reads this
    {
      && steps.Keys == runs.Keys
      && next !in runs
      && (forall run :: run in runs ==> run < next && runs[run].id == run)
      && forall run :: run in steps ==> Distinct(steps[run])
    }

    constructor ()
      ensures Valid() && runs == map[] && steps == map[] && next == 0
    {
      runs, steps, next := map[], map[], 0;
    }

    method Start(tenant: string, workflow: string, input: string) returns (run: Run)
      requires Valid()
      modifies this
      ensures Valid()
      ensures run == Run.Run(old(next), tenant, workflow, input, Running, None)
      ensures runs == old(runs)[run.id := run] && steps == old(steps)[run.id := []] && next == old(next) + 1
    {
      run := Run.Run(next, tenant, workflow, input, Running, None);
      runs := runs[run.id := run];
      steps := steps[run.id := []];
      next := next + 1;
    }

    method Find(tenant: string, id: nat) returns (run: Option<Run>)
      ensures run == if id in runs && runs[id].tenant == tenant then Some(runs[id]) else None
    {
      if id in runs && runs[id].tenant == tenant {
        return Some(runs[id]);
      }
      return None;
    }

    /** None stands for the error raised when the run is not this tenant's. */
    method SetStatus(tenant: string, id: nat, status: RunStatus, error: Option<Cause>) returns (run: Option<Run>)
      requires Valid()
      modifies this
      ensures Valid() && steps == old(steps) && next == old(next)
      ensures id in old(runs) && old(runs)[id].tenant == tenant ==>
        && run.Some?
        && runs == old(runs)[id := run.value]
        && run.value == old(runs)[id].(status := status, error := if status == Completed || status == Failed then error else None)
      ensures !(id in old(runs) && old(runs)[id].tenant == tenant) ==> run.None? && runs == old(runs)
    {
      if id !in runs || runs[id].tenant != tenant {
        return None;
      }
      var finished := status == Completed || status == Failed;
      var updated := runs[id].(status := status, error := if finished then error else None);
      runs := runs[id := updated];
      return Some(updated);
    }

    method RecordStep(tenant: string, id: nat, row: StepRow) returns (recorded: Option<StepRow>)
      requires Valid()
      modifies this
      ensures Valid() && runs == old(runs) && next == old(next)
      ensures id in old(runs) && old(runs)[id].tenant == tenant ==>
        && recorded == Some(Merge(FindStep(old(steps)[id], row.stepId), row))
        && steps == old(steps)[id := Upsert(old(steps)[id], row)]
      ensures !(id in old(runs) && old(runs)[id].tenant == tenant) ==> recorded.None? && steps == old(steps)
    {
      if id !in runs || runs[id].tenant != tenant {
        return None;
      }
      var rows := steps[id];
      UpsertDistinct(rows, row);
      var i := StepIndex(rows, row.stepId);
      var existing := if i < |rows| then Some(rows[i]) else None;
      var step := Merge(existing, row);
      steps := steps[id := if i < |rows| then rows[i := step] else rows + [step]];
      return Some(step);
    }

    method Steps(tenant: string, id: nat) returns (rows: seq<StepRow>)
      requires Valid()
      ensures rows == if id in runs && runs[id].tenant == tenant then steps[id] else []
    {
      if id !in runs || runs[id].tenant != tenant {
        return [];
      }
      return steps[id];
    }
  }

  // ---------------------------------------------------------------------------------------------
  // The runner

  class WorkflowRunner {
    const workflows: map<string, Config>
    const store: InMemoryWorkflowRunStore
    const approvals: Approvals.InMemoryApprovalStore?
    const agent: nat -> AgentOutcome
    /** How many sessions were created, and how many turns agents were asked for. */
    var sessions: nat
    var calls: nat
    ghost var log: seq<Event>

    ghost function Setting(): Setup {
      Setup(workflows, approvals != null, agent)
    }

    ghost function Now(): World
      reads this, store, approvals
    {
      World(store.runs, store.steps, store.next,
        if approvals == null then Approvals.EMPTY else approvals.Contents(), sessions, calls, log)
    }

    ghost predicate Valid()
      reads store
    {
      store.Valid()
    }

    /** The run is in the store, under its own tenant. */
    ghost predicate Owns(run: Run)
      reads store
    {
      run.id in store.runs && store.runs[run.id].tenant == run.tenant
    }

    constructor (workflows: map<string, Config>, withQueue: bool, agent: nat -> AgentOutcome)
      ensures Valid() && Now() == NEW && Setting() == Setup(workflows, withQueue, agent)
      ensures fresh(store) && (approvals != null ==> fresh(approvals))
    {
      this.workflows, this.agent := workflows, agent;
      store := new InMemoryWorkflowRunStore();
      if withQueue {
        var queue := new Approvals.InMemoryApprovalStore();
        approvals := queue;
      } else {
        approvals := null;
      }
      sessions, calls, log := 0, 0, [];
    }

    method CreateSession() returns (session: nat)
      modifies this`sessions
      ensures session == sessions == old(sessions) + 1
    {
      sessions := sessions + 1;
      session := sessions;
    }

    /** The call into the agent: its answer is not the runner's to choose. */
    method CallAgent(ghost event: Event) returns (reply: AgentOutcome)
      modifies this`calls, this`log
      ensures reply == agent(old(calls)) && calls == old(calls) + 1 && log == old(log) + [event]
    {
      reply := agent(calls);
      calls := calls + 1;
      log := log + [event];
    }

    method Values(input: string, done: map<string, StepRow>, ghost rows: seq<StepRow>) returns (values: map<string, string>)
      requires Distinct(rows) && done == ById(rows)
      ensures values == Quotable(input, rows)
    {
      hide ValuesOf, Quotable;
      values := map["input" := input];
      var rest := done.Keys;
      ValuesOfNothing(input);
      assert Except(done, rest) == map[];
      while rest != {}
        invariant rest <= done.Keys
        invariant values == ValuesOf(input, Except(done, rest))
        decreases |rest|
      {
        var id :| id in rest;
        ValuesPush(input, Except(done, rest), id, done[id]);
        assert Except(done, rest)[id := done[id]] == Except(done, rest - {id});
        if HasAnswer(done[id]) {
          values := values[STEPS + id := done[id].output.value];
        }
        rest := rest - {id};
      }
      assert Except(done, rest) == done;
      ValuesAreQuotable(input, rows);
    }

    /** Write down what a turn produced. */
    method Record(run: Run, step: Step, prompt: string, session: nat, reply: AgentOutcome)
      returns (outcome: Outcome, recorded: StepRow)
      requires Valid() && Owns(run) && !reply.Threw?
      modifies store
      ensures Valid() && Owns(run) && store.runs == old(store.runs)
      ensures (Now(), outcome) == Settle(old(Now()), run, step, prompt, session, reply)
      ensures FindStep(store.steps[run.id], step.id) == Some(recorded)
    {
      UpsertDistinct(store.steps[run.id], SettledAs(step, prompt, session, reply));
      if reply.Held? {
        var row := RowFor(step, prompt, Waiting).(session := Some(session), awaiting := Some(OnTool));
        var written := store.RecordStep(run.tenant, run.id, row);
        return Paused, written.value;
      }
      var row := RowFor(step, prompt, Done).(session := Some(session), output := Some(reply.text));
      var written := store.RecordStep(run.tenant, run.id, row);
      return Finished, written.value;
    }

    ghost function SettledAs(step: Step, prompt: string, session: nat, reply: AgentOutcome): StepRow
      requires !reply.Threw?
    {
      if reply.Held? then RowFor(step, prompt, Waiting).(session := Some(session), awaiting := Some(OnTool))
      else RowFor(step, prompt, Done).(session := Some(session), output := Some(reply.text))
    }

    /** Ask a person, or read the answer they already gave. */
    method Gate(run: Run, step: Step, prompt: string, previous: Option<StepRow>) returns (answer: GateAnswer)
      requires Valid() && Owns(run)
      modifies this`sessions, store, approvals
      ensures Valid() && Owns(run) && store.runs == old(store.runs)
      ensures (Now(), answer) == Workflow.Gate(Setting(), old(Now()), run, step, prompt, previous)
    {
      hide Workflow.Ask;
      if approvals == null {
        return Stop(Raised(NoQueue));
      }
      if previous.Some? && previous.value.status == Waiting && previous.value.approval.Some? {
        var approval := approvals.Find(run.tenant, previous.value.approval.value);
        if approval.None? || approval.value.status == Approvals.Pending {
          return Stop(Paused);
        }
        if approval.value.status == Approvals.Rejected {
          var reason := if approval.value.reason.Some? then approval.value.reason.value else "a person declined this step";
          var row := RowFor(step, prompt, Skipped).(approval := Some(approval.value.id), error := Some(Declined(reason)));
          var _ := store.RecordStep(run.tenant, run.id, row);
          return Stop(Rejected(Declined(reason)));
        }
        return Go;
      }
      answer := Ask(run, step, prompt);
    }

    /** Put the step's gate in the queue, under a session of its own, and wait. */
    method Ask(run: Run, step: Step, prompt: string) returns (answer: GateAnswer)
      requires Valid() && Owns(run) && approvals != null
      modifies this`sessions, store, approvals
      ensures Valid() && Owns(run) && store.runs == old(store.runs)
      ensures (Now(), answer) == Workflow.Ask(old(Now()), run, step, prompt)
    {
      var session := CreateSession();
      var request := GateRequest(run, step, session, prompt);
      Approvals.RequestAppends(old(Now()).queue, [request]);
      var asked := approvals.Request([request]);
      if asked.Err? {
        return Stop(Raised(QueueRefused));
      }
      var row := RowFor(step, prompt, Waiting).(
        session := Some(session), awaiting := Some(OnStep), approval := Some(asked.value[0].id));
      var _ := store.RecordStep(run.tenant, run.id, row);
      return Stop(Paused);
    }

    /** A session of the step's own, a row that says it is running, and the turn. */
    method Launch(run: Run, step: Step, prompt: string) returns (outcome: Outcome, recorded: Option<StepRow>)
      requires Valid() && Owns(run)
      modifies this`sessions, this`calls, this`log, store
      ensures Valid() && Owns(run) && store.runs == old(store.runs)
      ensures (Now(), outcome) == Workflow.Launch(Setting(), old(Now()), run, step, prompt)
      ensures outcome.Finished? ==> recorded.Some? && FindStep(store.steps[run.id], step.id) == recorded
    {
      var session := CreateSession();
      var _ := store.RecordStep(run.tenant, run.id, RowFor(step, prompt, InProgress).(session := Some(session)));
      var reply := CallAgent(AgentRan(run.id, step.id, session, prompt));
      assert Now() == Opened(old(Now()), run, step, prompt);
      if reply.Threw? {
        return Raised(AgentThrew(reply.message)), None;
      }
      var written;
      outcome, written := Record(run, step, prompt, session, reply);
      recorded := Some(written);
    }

    /** One step: its prompt, its gate, its turn, and what came out. */
    method TakeStep(run: Run, step: Step, previous: Option<StepRow>, done: map<string, StepRow>)
      returns (outcome: Outcome, recorded: Option<StepRow>)
      requires Valid() && Owns(run) && done == ById(store.steps[run.id])
      requires previous == FindStep(store.steps[run.id], step.id)
      modifies this`sessions, this`calls, this`log, store, approvals
      ensures Valid() && Owns(run) && store.runs == old(store.runs)
      ensures (Now(), outcome) == Workflow.TakeStep(Setting(), old(Now()), run, step)
      ensures outcome.Finished? ==> recorded.Some? && FindStep(store.steps[run.id], step.id) == recorded
    {
      hide Template.Render, Workflow.Gate, Workflow.Launch, Settle;
      recorded := None;
      var values := Values(run.input, done, store.steps[run.id]);
      var rendered := Template.Render(step.prompt, values);
      if rendered.Err? {
        return Raised(MissingName(rendered.error)), None;
      }
      var prompt := rendered.value;
      if HeldByAgent(previous) {
        if previous.value.session.None? {
          return Raised(NoSession), None;
        }
        var session := previous.value.session.value;
        var reply := CallAgent(AgentResumed(run.id, step.id, session));
        assert Now() == Reopened(old(Now()), run, step, session);
        if reply.Threw? {
          assert Settle(Now(), run, step, prompt, session, reply) == (Now(), Raised(AgentThrew(reply.message))) by {
            ThrownSettles(Now(), run, step, prompt, session, reply);
          }
          return Raised(AgentThrew(reply.message)), None;
        }
        var written;
        outcome, written := Record(run, step, prompt, session, reply);
        return outcome, Some(written);
      }
      if step.approve {
        var answer := Gate(run, step, prompt, previous);
        if answer.Stop? {
          GateNeverFinishes(Setting(), old(Now()), run, step, prompt, previous);
          return answer.outcome, None;
        }
      }
      outcome, recorded := Launch(run, step, prompt);
    }

    /** The ends of a walk that are not the end of the workflow. */
    method EndWalk(run: Run, step: Step, previous: Option<StepRow>, outcome: Outcome) returns (detail: Option<Run>)
      requires Valid() && Owns(run) && !outcome.Finished?
      modifies store
      ensures Valid() && Owns(run)
      ensures Now() == Stopped(old(Now()), run, step, previous, outcome)
      ensures detail == Some(store.runs[run.id])
    {
      match outcome {
        case Raised(cause) =>
          var _ := store.RecordStep(run.tenant, run.id, FailedRow(step, previous, cause));
          detail := store.SetStatus(run.tenant, run.id, Failed, Some(cause));
        case Paused =>
          detail := store.SetStatus(run.tenant, run.id, Awaiting, None);
        case Rejected(cause) =>
          detail := store.SetStatus(run.tenant, run.id, Failed, Some(cause));
      }
    }

    /** Take a step and keep its row for the steps after it. */
    method StepOn(run: Run, step: Step, previous: Option<StepRow>, before: map<string, StepRow>)
      returns (outcome: Outcome, done: map<string, StepRow>)
      requires Valid() && Owns(run) && before == ById(store.steps[run.id])
      requires previous == FindStep(store.steps[run.id], step.id)
      modifies this`sessions, this`calls, this`log, store, approvals
      ensures Valid() && Owns(run) && store.runs == old(store.runs)
      ensures (Now(), outcome) == Workflow.TakeStep(Setting(), old(Now()), run, step)
      ensures outcome.Finished? ==> done == ById(store.steps[run.id])
    {
      hide Workflow.TakeStep, FindStep, ById, Distinct;
      StepTouchesOne(Setting(), Now(), run, step);
      ghost var rows := store.steps[run.id];
      var recorded;
      done := before;
      outcome, recorded := TakeStep(run, step, previous, done);
      if outcome.Finished? {
        ByIdChange(rows, store.steps[run.id], step.id);
        done := done[step.id := recorded.value];
      }
    }

    /** Walk the steps from wherever the run got to. */
    method Drive(config: Config, run: Run) returns (detail: Option<Run>)
      requires Valid() && Owns(run)
      modifies this`sessions, this`calls, this`log, store, approvals
      ensures Valid() && Owns(run)
      ensures Now() == Workflow.Drive(Setting(), old(Now()), config, run, 0)
      ensures detail == Some(store.runs[run.id])
    {
      hide Workflow.TakeStep, Workflow.Drive, Stopped, Upsert, Template.Render, Quotable, FindStep, Distinct, ById, Merge;
      var rows := store.Steps(run.tenant, run.id);
      var done := Index(rows);
      var i := 0;
      while i < |config.steps|
        invariant 0 <= i <= |config.steps|
        invariant Valid() && Owns(run) && store.runs == old(store.runs)
        invariant done == ById(store.steps[run.id])
        invariant Workflow.Drive(Setting(), old(Now()), config, run, 0) == Workflow.Drive(Setting(), Now(), config, run, i)
      {
        var step := config.steps[i];
        ByIdIs(store.steps[run.id], step.id);
        var previous := if step.id in done then Some(done[step.id]) else None;
        if previous.Some? && previous.value.status == Done {
          DriveSkips(Setting(), Now(), config, run, i);
          i := i + 1;
          continue;
        }
        DriveUnfolds(Setting(), Now(), config, run, i);
        var outcome;
        outcome, done := StepOn(run, step, previous, done);
        if !outcome.Finished? {
          detail := EndWalk(run, step, previous, outcome);
          return;
        }
        i := i + 1;
      }
      DriveEnds(Setting(), Now(), config, run);
      detail := store.SetStatus(run.tenant, run.id, Completed, None);
    }

    /** The rows by step. */
    method Index(rows: seq<StepRow>) returns (done: map<string, StepRow>)
      ensures done == ById(rows)
    {
      done := map[];
      for i := 0 to |rows|
        invariant done == ById(rows[..i])
      {
        assert rows[..i + 1][..i] == rows[..i];
        done := done[rows[i].stepId := rows[i]];
      }
      assert rows[..|rows|] == rows;
    }

    /** Begin a run and carry it as far as it goes; None when the workflow cannot be started. */
    method Start(tenant: string, workflow: string, input: string, agents: set<string>) returns (run: Option<Run>)
      requires Valid()
      modifies this`sessions, this`calls, this`log, store, approvals
      ensures Valid()
      ensures Now() == Workflow.Start(Setting(), old(Now()), tenant, workflow, input, agents)
      ensures run.Some? <==> CanStart(Setting(), workflow, agents)
    {
      if workflow !in workflows {
        return None;
      }
      var config := workflows[workflow];
      var missing := MissingAgents(config, agents);
      if missing != {} {
        assert exists step :: step in config.steps && step.agent !in agents;
        return None;
      }
      forall step | step in config.steps ensures step.agent in agents {
        assert step.agent !in missing;
      }
      if approvals == null && exists i :: 0 <= i < |config.steps| && config.steps[i].approve {
        return None;
      }
      var started := store.Start(tenant, workflow, input);
      assert Now() == Begin(old(Now()), tenant, workflow, input);
      run := Drive(config, started);
    }

    /** Continue a run that was waiting; one that has finished comes back unchanged. */
    method Resume(tenant: string, id: nat) returns (run: Option<Run>)
      requires Valid()
      modifies this`sessions, this`calls, this`log, store, approvals
      ensures Valid()
      ensures Now() == Workflow.Resume(Setting(), old(Now()), tenant, id)
    {
      var found := store.Find(tenant, id);
      if found.None? || found.value.status == Completed || found.value.status == Failed {
        return found;
      }
      if found.value.workflow !in workflows {
        return None;
      }
      run := Drive(workflows[found.value.workflow], found.value);
    }

    /** A person deciding in the queue the runner shares; the runner itself is not called. */
    method Decide(tenant: string, id: nat, status: Approvals.Status, who: string, reason: Option<string>)
      requires Valid() && approvals != null && status != Approvals.Pending
      modifies this`log, approvals
      ensures Valid()
      ensures Now() == DecideOn(old(Now()), tenant, id, status, who, reason)
    {
      var ok := approvals.Decide(tenant, id, status, who, reason);
      if ok {
        log := log + [Decided(id, status)];
      }
    }
  }

  lemma ThrownSettles(w: World, run: Run, step: Step, prompt: string, session: nat, reply: AgentOutcome)
    requires reply.Threw?
    ensures Settle(w, run, step, prompt, session, reply) == (w, Raised(AgentThrew(reply.message)))
  {}

  lemma GateNeverFinishes(s: Setup, w: World, run: Run, step: Step, prompt: string, previous: Option<StepRow>)
    ensures var answer := Gate(s, w, run, step, prompt, previous).1; answer.Stop? ==> !answer.outcome.Finished?
  {}

  lemma ByIdChange(before: seq<StepRow>, after: seq<StepRow>, id: string)
    requires Distinct(before) && Distinct(after)
    requires FindStep(after, id).Some?
    requires forall other :: other != id ==> FindStep(after, other) == FindStep(before, other)
    ensures ById(after) == ById(before)[id := FindStep(after, id).value]
  {
    var a, b := ById(after), ById(before)[id := FindStep(after, id).value];
    forall other ensures other in a <==> other in b
      ensures other in a ==> a[other] == b[other]
    {
      ByIdIs(before, other);
      ByIdIs(after, other);
    }
  }

  /** Of this run, only the row of this step may differ. */
  ghost predicate TouchesOne(w: World, w1: World, run: nat, id: string) {
    && run in w1.steps && Distinct(w1.steps[run])
    && run in w.steps
    && forall other :: other != id ==> FindStep(w1.steps[run], other) == FindStep(w.steps[run], other)
  }

  lemma RecordTouchesOne(w: World, run: nat, row: StepRow)
    requires run in w.steps && Distinct(w.steps[run])
    ensures TouchesOne(w, RecordStep(w, run, row), run, row.stepId)
  {
    UpsertDistinct(w.steps[run], row);
  }

  lemma SettleTouchesOne(w: World, run: Run, step: Step, prompt: string, session: nat, reply: AgentOutcome)
    requires run.id in w.steps && Distinct(w.steps[run.id])
    ensures TouchesOne(w, Settle(w, run, step, prompt, session, reply).0, run.id, step.id)
  {
    match reply {
      case Threw(_) =>
      case Held =>
        RecordTouchesOne(w, run.id, RowFor(step, prompt, Waiting).(session := Some(session), awaiting := Some(OnTool)));
      case Answered(text) =>
        RecordTouchesOne(w, run.id, RowFor(step, prompt, Done).(session := Some(session), output := Some(text)));
    }
  }

  lemma LaunchTouchesOne(s: Setup, w: World, run: Run, step: Step, prompt: string)
    requires run.id in w.steps && Distinct(w.steps[run.id])
    ensures TouchesOne(w, Launch(s, w, run, step, prompt).0, run.id, step.id)
  {
    hide Settle, FindStep;
    RecordTouchesOne(w, run.id, RowFor(step, prompt, InProgress).(session := Some(w.sessions + 1)));
    SettleTouchesOne(Opened(w, run, step, prompt), run, step, prompt, w.sessions + 1, s.agent(w.calls));
  }

  lemma GateTouchesOne(s: Setup, w: World, run: Run, step: Step, prompt: string, previous: Option<StepRow>)
    requires run.id in w.steps && Distinct(w.steps[run.id])
    ensures TouchesOne(w, Gate(s, w, run, step, prompt, previous).0, run.id, step.id)
  {
    hide FindStep, Distinct;
    forall row: StepRow | row.stepId == step.id ensures TouchesOne(w, RecordStep(w, run.id, row), run.id, step.id) {
      RecordTouchesOne(w, run.id, row);
    }
  }

  /** Working on a step changes no other row of the run. */
  lemma StepTouchesOne(s: Setup, w: World, run: Run, step: Step)
    requires run.id in w.steps && Distinct(w.steps[run.id])
    ensures TouchesOne(w, TakeStep(s, w, run, step).0, run.id, step.id)
  {
    hide Distinct, Template.Render, Settle, Launch, Gate;
    var previous := FindStep(Rows(w, run.id), step.id);
    match Template.Render(step.prompt, Quotable(run.input, Rows(w, run.id))) {
      case Err(_) =>
      case Ok(prompt) =>
        if HeldByAgent(previous) {
          if previous.value.session.Some? {
            var session := previous.value.session.value;
            SettleTouchesOne(Reopened(w, run, step, session), run, step, prompt, session, s.agent(w.calls));
          }
        } else if step.approve {
          GateTouchesOne(s, w, run, step, prompt, previous);
          LaunchTouchesOne(s, Gate(s, w, run, step, prompt, previous).0, run, step, prompt);
        } else {
          LaunchTouchesOne(s, w, run, step, prompt);
        }
    }
  }
}
