/**
 * Over whole schedules: which decision a gated step goes ahead on, and which prompt the row of a failed step shows.
 * The invariant here stands beside the one of `WorkflowSafety`.
 */
module WorkflowGates {
  import opened Basics
  import Text
  import Template
  import opened WorkflowConfig
  import Approvals
  import opened Workflow
  import opened WorkflowSafety

  // ---------------------------------------------------------------------------------------------
  // Gates and their decisions

  lemma GateCallIsOnes(run: nat, step: string, run': nat, step': string)
    requires GateCall(run, step) == GateCall(run', step')
    ensures run == run' && step == step'
  {
    Text.NumeralsSplit(Text.Decimal(run), Text.Decimal(run'), step, step', ':');
    Text.DecimalInjective(run, run');
  }

  /** An approval belongs to row `i` of a run. */
  ghost predicate GateOf(w: World, a: Approvals.Approval, run: nat, i: nat) {
    run in w.steps && i < |w.steps[run]| && a.toolCallId == GateCall(run, w.steps[run][i].stepId)
  }

  ghost predicate IsGate(w: World, a: Approvals.Approval) {
    exists run: nat, i: nat :: GateOf(w, a, run, i)
  }

  ghost predicate OneRowEach(rows: seq<Approvals.Approval>) {
    forall q, q' :: 0 <= q < q' < |rows| ==> rows[q].toolCallId != rows[q'].toolCallId
  }

  /** The row a decision on the log was taken on. */
  ghost predicate DecisionOn(e: Event, a: Approvals.Approval) {
    e.Decided? && a.id == e.approval && a.status == e.status && a.status != Approvals.Pending
  }

  ghost predicate OnRecord(w: World, e: Event) {
    exists q :: 0 <= q < |w.queue.rows| && DecisionOn(e, w.queue.rows[q])
  }

  ghost predicate DecidedOnce(log: seq<Event>) {
    forall j, k :: 0 <= j < k < |log| && log[j].Decided? && log[k].Decided? ==> log[j].approval != log[k].approval
  }

  /** A step has one row in the queue and no more, and a row one decision and no more. */
  ghost predicate GatesOk(w: World) {
    && (forall q :: 0 <= q < |w.queue.rows| ==> IsGate(w, w.queue.rows[q]))
    && OneRowEach(w.queue.rows)
    && (forall j :: 0 <= j < |w.log| && w.log[j].Decided? ==> OnRecord(w, w.log[j]))
    && DecidedOnce(w.log)
  }

  // ---------------------------------------------------------------------------------------------
  // Prompts of failed steps

  predicate IsContinuation(e: Event, run: nat, step: string) { e.AgentResumed? && e.run == run && e.step == step }

  predicate Continued(log: seq<Event>, run: nat, step: string) {
    exists k :: 0 <= k < |log| && IsContinuation(log[k], run, step)
  }

  /** A failed step shows the prompt it was sent when it had a row before the call that failed, else its template. */
  ghost predicate PromptOk(step: Step, input: string, before: seq<StepRow>, row: StepRow, log: seq<Event>, run: nat) {
    && (row.status == Broken ==>
          var rendered := Template.Render(step.prompt, Quotable(input, before));
          rendered.Ok? && row.prompt == if step.approve || Continued(log, run, step.id) then rendered.value else step.prompt)
    && (row.status == Waiting && row.awaiting == Some(OnStep) ==> step.approve)
  }

  ghost predicate PromptsOk(s: Setup, w: World, run: nat) {
    && run in w.runs && run in w.steps && w.runs[run].workflow in s.workflows && |w.steps[run]| <= |StepsOf(s, w, run)|
    && forall i :: 0 <= i < |w.steps[run]| ==>
         PromptOk(StepsOf(s, w, run)[i], w.runs[run].input, w.steps[run][..i], w.steps[run][i], w.log, run)
  }

  ghost predicate Also(s: Setup, w: World) {
    GatesOk(w) && forall run :: run in w.runs ==> PromptsOk(s, w, run)
  }

  // ---------------------------------------------------------------------------------------------
  // What keeps the gates

  /** Rows of runs keep their places and their steps. */
  ghost predicate RowsKept(w: World, w1: World) {
    forall run :: run in w.steps ==>
      && run in w1.steps && |w.steps[run]| <= |w1.steps[run]|
      && forall i :: 0 <= i < |w.steps[run]| ==> w1.steps[run][i].stepId == w.steps[run][i].stepId
  }

  lemma GateStays(w: World, w1: World, a: Approvals.Approval, b: Approvals.Approval)
    requires IsGate(w, a) && RowsKept(w, w1) && b.toolCallId == a.toolCallId
    ensures IsGate(w1, b)
  {
    var run: nat, i: nat :| GateOf(w, a, run, i);
    assert GateOf(w1, b, run, i);
  }

  lemma RecordStays(w: World, w1: World, e: Event)
    requires OnRecord(w, e) && Approvals.Extends(w.queue, w1.queue)
    ensures OnRecord(w1, e)
  {
    var q :| 0 <= q < |w.queue.rows| && DecisionOn(e, w.queue.rows[q]);
    assert w1.queue.rows[q] == w.queue.rows[q];
  }

  /** No decision is taken, and the queue stays as it is or gets a row for a gate that has none. */
  lemma GatesStay(w: World, w1: World)
    requires GatesOk(w) && RowsKept(w, w1) && Approvals.Extends(w.queue, w1.queue)
    requires w.log <= w1.log && forall k :: |w.log| <= k < |w1.log| ==> !w1.log[k].Decided?
    requires |w1.queue.rows| <= |w.queue.rows| + 1
    requires |w1.queue.rows| > |w.queue.rows| ==>
      var a := w1.queue.rows[|w.queue.rows|];
      IsGate(w1, a) && forall q :: 0 <= q < |w.queue.rows| ==> w.queue.rows[q].toolCallId != a.toolCallId
    ensures GatesOk(w1)
  {
    hide IsGate, OnRecord, RowsKept;
    forall q | 0 <= q < |w1.queue.rows| ensures IsGate(w1, w1.queue.rows[q]) {
      if q < |w.queue.rows| { GateStays(w, w1, w.queue.rows[q], w1.queue.rows[q]); }
    }
    forall j | 0 <= j < |w1.log| && w1.log[j].Decided? ensures OnRecord(w1, w1.log[j]) {
      RecordStays(w, w1, w.log[j]);
    }
  }

  /** A step without a row has no gate in the queue. */
  lemma NoGateYet(s: Setup, w: World, run: nat, i: nat, a: Approvals.Approval)
    requires SetupOk(s) && RunOnRecord(s, w, run) && |w.steps[run]| <= i < |StepsOf(s, w, run)|
    requires IsGate(w, a)
    ensures a.toolCallId != GateCall(run, StepsOf(s, w, run)[i].id)
  {
    hide Template.Render, Quotable;
    var other: nat, n: nat :| GateOf(w, a, other, n);
    if other == run {
      assert RowOk(StepsOf(s, w, run)[n], w.runs[run].input, w.steps[run][..n], w.steps[run][n]);
      IdsAreDistinct(StepsOf(s, w, run), n, i);
    }
    if a.toolCallId == GateCall(run, StepsOf(s, w, run)[i].id) {
      GateCallIsOnes(other, w.steps[other][n].stepId, run, StepsOf(s, w, run)[i].id);
    }
  }

  // ---------------------------------------------------------------------------------------------
  // What one step of a run may do

  /** Nothing is decided; at most one event is logged, and it is of this step. */
  ghost predicate Logs(w: World, w1: World, e: Event) { w1.log == w.log + [e] && w1.queue == w.queue }

  /** The gate is put in the queue, or waits, or is read; or the agent is started, or called again. */
  ghost predicate Moves(w: World, w1: World, run: nat, step: Step, previous: Option<StepRow>, outcome: Outcome) {
    || (&& previous.None? && step.approve && w1.log == w.log && !outcome.Raised?
        && |w1.queue.rows| == |w.queue.rows| + 1 && w1.queue.rows[|w.queue.rows|].toolCallId == GateCall(run, step.id))
    || (step.approve && w1.log == w.log && w1.queue == w.queue && !outcome.Raised?)
    || (&& !HeldByAgent(previous) && (step.approve ==> previous.Some?)
        && exists session, prompt :: Logs(w, w1, AgentRan(run, step.id, session, prompt)))
    || (HeldByAgent(previous) && exists session :: Logs(w, w1, AgentResumed(run, step.id, session)))
  }

  lemma LaunchLogs(s: Setup, w: World, run: Run, step: Step, prompt: string)
    ensures Logs(w, Launch(s, w, run, step, prompt).0, AgentRan(run.id, step.id, w.sessions + 1, prompt))
  {}

  lemma ContinueLogs(s: Setup, w: World, run: Run, step: Step, prompt: string, session: nat)
    ensures Logs(w, Continue(s, w, run, step, prompt, session).0, AgentResumed(run.id, step.id, session))
  {}

  lemma GateMoves(s: Setup, w: World, run: Run, step: Step, prompt: string, previous: Option<StepRow>)
    requires QueueOk(w) && s.hasQueue && step.approve
    requires previous.Some? ==> previous.value.status == Waiting && previous.value.approval.Some?
    ensures var (w1, answer) := Gate(s, w, run, step, prompt, previous);
      if answer.Go? then w1 == w && previous.Some? else Moves(w, w1, run.id, step, previous, answer.outcome)
  {
    hide QueueOk, Approvals.RequestAll, Approvals.Lookup, Ask;
    if previous.None? {
      AskIs(w, run, step, prompt);
      var w1 := Ask(w, run, step, prompt).0;
      var a := Approvals.NewRow(w.queue.clock + 1, GateRequest(run, step, w.sessions + 1, prompt));
      assert w1.log == w.log;
      assert w1.queue.rows == w.queue.rows + [a] && a.toolCallId == GateCall(run.id, step.id);
    }
  }

  lemma TakeStepMoves(s: Setup, w: World, run: Run, i: nat)
    requires ReadyAt(s, w, run, i)
    ensures var step := StepsOf(s, w, run.id)[i];
      var (w1, outcome) := TakeStep(s, w, run, step);
      Moves(w, w1, run.id, step, Existing(w, run.id, i), outcome)
  {
    hide LogOk, QueueOk, RowOk, Quotable, Gate, Launch, Continue, Moves, Template.Render;
    var step, previous := StepsOf(s, w, run.id)[i], Existing(w, run.id, i);
    ReadyPrompt(s, w, run, i);
    assert RunOnRecord(s, w, run.id);
    if previous.Some? { OpenRow(s, w, run.id, i); }
    var prompt := Template.Render(step.prompt, Quotable(run.input, Rows(w, run.id))).value;
    if HeldByAgent(previous) {
      HeldHasSession(w.steps[run.id][i], step, run.input, w.steps[run.id][..i]);
      ContinueLogs(s, w, run, step, prompt, previous.value.session.value);
      MovesOn(w, Continue(s, w, run, step, prompt, previous.value.session.value).0, run.id, step, previous,
        Continue(s, w, run, step, prompt, previous.value.session.value).1, previous.value.session.value);
    } else {
      if step.approve {
        assert step in StepsOf(s, w, run.id);
        GateMoves(s, w, run, step, prompt, previous);
      }
      LaunchLogs(s, w, run, step, prompt);
      if !step.approve || Gate(s, w, run, step, prompt, previous).1.Go? {
        MovesOff(w, Launch(s, w, run, step, prompt).0, run.id, step, previous, Launch(s, w, run, step, prompt).1, w.sessions + 1, prompt);
      }
    }
  }

  lemma HeldHasSession(row: StepRow, step: Step, input: string, before: seq<StepRow>)
    requires RowOk(step, input, before, row) && row.status == Waiting && row.awaiting == Some(OnTool)
    ensures row.session.Some?
  {}

  lemma MovesOn(w: World, w1: World, run: nat, step: Step, previous: Option<StepRow>, outcome: Outcome, session: nat)
    requires HeldByAgent(previous) && Logs(w, w1, AgentResumed(run, step.id, session))
    ensures Moves(w, w1, run, step, previous, outcome)
  {}

  lemma MovesOff(w: World, w1: World, run: nat, step: Step, previous: Option<StepRow>, outcome: Outcome, session: nat, prompt: string)
    requires !HeldByAgent(previous) && (step.approve ==> previous.Some?) && Logs(w, w1, AgentRan(run, step.id, session, prompt))
    ensures Moves(w, w1, run, step, previous, outcome)
  {}

  // ---------------------------------------------------------------------------------------------
  // One step keeps the invariant

  lemma RowsHaveIds(s: Setup, w: World, run: nat)
    requires RunOnRecord(s, w, run)
    ensures forall j :: 0 <= j < |w.steps[run]| ==> w.steps[run][j].stepId == StepsOf(s, w, run)[j].id
  {
    hide Quotable, Template.Render, GateRowOk, StartOk;
    forall j | 0 <= j < |w.steps[run]| ensures w.steps[run][j].stepId == StepsOf(s, w, run)[j].id {
      assert RowOk(StepsOf(s, w, run)[j], w.runs[run].input, w.steps[run][..j], w.steps[run][j]);
    }
  }

  lemma SteppedKeepsRows(s: Setup, w: World, w1: World, run: Run, i: nat)
    requires ReadyAt(s, w, run, i) && Stepped(s, w, w1, run.id, i) && |w1.steps[run.id]| == i + 1
    ensures RowsKept(w, w1) && w1.steps[run.id][i].stepId == StepsOf(s, w, run.id)[i].id
  {
    hide LogOk, QueueOk, RowsOk, GateRowOk, StartOk, Grows;
    assert RunOnRecord(s, w, run.id) && RunOnRecord(s, w1, run.id);
    RowsHaveIds(s, w, run.id);
    RowsHaveIds(s, w1, run.id);
  }

  lemma StepKeepsGates(s: Setup, w: World, w1: World, run: Run, i: nat, outcome: Outcome)
    requires ReadyAt(s, w, run, i) && Stepped(s, w, w1, run.id, i) && |w1.steps[run.id]| == i + 1
    requires Moves(w, w1, run.id, StepsOf(s, w, run.id)[i], Existing(w, run.id, i), outcome) && GatesOk(w)
    ensures GatesOk(w1)
  {
    hide LogOk, QueueOk, RunOnRecord, OnRecord, OneRowEach, DecidedOnce;
    SteppedKeepsRows(s, w, w1, run, i);
    if |w1.queue.rows| > |w.queue.rows| {
      var a := w1.queue.rows[|w.queue.rows|];
      assert GateOf(w1, a, run.id, i);
      forall q | 0 <= q < |w.queue.rows| ensures w.queue.rows[q].toolCallId != a.toolCallId {
        assert RunOnRecord(s, w, run.id);
        NoGateYet(s, w, run.id, i, w.queue.rows[q]);
      }
    }
    GatesStay(w, w1);
  }

  lemma PromptsStay(s: Setup, w: World, w1: World, run: nat)
    requires PromptsOk(s, w, run) && run in w1.runs && run in w1.steps && w1.steps[run] == w.steps[run]
    requires w1.runs[run].workflow == w.runs[run].workflow && w1.runs[run].input == w.runs[run].input
    requires forall step :: Continued(w1.log, run, step) <==> Continued(w.log, run, step)
    ensures PromptsOk(s, w1, run)
  {
    hide Continued, Template.Render, Quotable;
    forall i | 0 <= i < |w1.steps[run]|
      ensures PromptOk(StepsOf(s, w1, run)[i], w1.runs[run].input, w1.steps[run][..i], w1.steps[run][i], w1.log, run)
    {
      assert PromptOk(StepsOf(s, w, run)[i], w.runs[run].input, w.steps[run][..i], w.steps[run][i], w.log, run);
    }
  }

  /** One more event makes a continuation only of its own step. */
  lemma ContinuedBy(log: seq<Event>, e: Event, run: nat, step: string)
    ensures Continued(log + [e], run, step) <==> Continued(log, run, step) || IsContinuation(e, run, step)
  {
    var all := log + [e];
    assert all[|log|] == e;
    if k :| 0 <= k < |log| && IsContinuation(log[k], run, step) { assert IsContinuation(all[k], run, step); }
  }

  lemma MovesContinue(w: World, w1: World, run: nat, step: Step, previous: Option<StepRow>, outcome: Outcome, other: nat, id: string)
    requires Moves(w, w1, run, step, previous, outcome)
    ensures other != run || id != step.id || !HeldByAgent(previous) ==> (Continued(w1.log, other, id) <==> Continued(w.log, other, id))
    ensures HeldByAgent(previous) && outcome.Raised? ==> Continued(w1.log, run, step.id)
    ensures outcome.Raised? ==> Ran(w1.log, run, step.id) || Continued(w1.log, run, step.id)
    ensures !step.approve ==> Ran(w1.log, run, step.id) || Continued(w1.log, run, step.id)
    ensures outcome.Raised? && step.approve ==> previous.Some?
  {
    hide Continued;
    if |w1.log| > |w.log| {
      var e := w1.log[|w.log|];
      assert w1.log == w.log + [e];
      ContinuedBy(w.log, e, other, id);
      ContinuedBy(w.log, e, run, step.id);
      assert e.AgentRan? ==> IsRun(w1.log[|w.log|], run, step.id);
    }
  }

  /** What is called again was started. */
  lemma ContinuedRan(s: Setup, w: World, run: nat, step: string)
    requires LogOk(s, w) && Continued(w.log, run, step)
    ensures Ran(w.log, run, step)
  {
    var k :| 0 <= k < |w.log| && IsContinuation(w.log[k], run, step);
    assert ResumeOk(w.log, k);
    var j :| 0 <= j < k && IsRun(w.log[j], w.log[k].run, w.log[k].step) && w.log[j].session == w.log[k].session;
    assert IsRun(w.log[j], run, step);
  }

  /** A step that was started, or called again, does not wait for its gate. */
  lemma StartedIsNoGate(s: Setup, w: World, run: nat, i: nat)
    requires Consistent(s, w) && run in w.runs && i < |StepsOf(s, w, run)| && i < |w.steps[run]|
    requires Ran(w.log, run, StepsOf(s, w, run)[i].id) || Continued(w.log, run, StepsOf(s, w, run)[i].id)
    ensures Ran(w.log, run, StepsOf(s, w, run)[i].id)
    ensures Launched(w.steps[run][i]) || w.steps[run][i].status == Broken
  {
    hide QueueOk, RunOnRecord;
    var id := StepsOf(s, w, run)[i].id;
    if Continued(w.log, run, id) { ContinuedRan(s, w, run, id); }
    var j :| 0 <= j < |w.log| && IsRun(w.log[j], run, id);
    StartIsRow(s, w, run, i, j);
  }

  lemma StepKeepsPrompts(s: Setup, w: World, w1: World, run: Run, i: nat, outcome: Outcome)
    requires ReadyAt(s, w, run, i) && Stepped(s, w, w1, run.id, i) && EndsAs(w1.steps[run.id], i, outcome)
    requires Moves(w, w1, run.id, StepsOf(s, w, run.id)[i], Existing(w, run.id, i), outcome)
    ensures PromptsOk(s, w1, run.id)
  {
    hide LogOk, QueueOk, Quotable, Template.Render, Grows, Moves, RowsOk, GateRowOk, StartOk, Continued, Ran, PromptOk;
    assert RunOnRecord(s, w1, run.id);
    var steps, rows := StepsOf(s, w1, run.id), w1.steps[run.id];
    MovesContinue(w, w1, run.id, steps[i], Existing(w, run.id, i), outcome, run.id, steps[i].id);
    if !steps[i].approve { StartedIsNoGate(s, w1, run.id, i); }
    assert |rows| <= |steps| by { NoMoreRows(s, w1, run.id); }
    forall j | 0 <= j < |rows| ensures PromptOk(steps[j], w1.runs[run.id].input, rows[..j], rows[j], w1.log, run.id) {
      if j < i { assert rows[j] == rows[..i][j] == w.steps[run.id][..i][j] == w.steps[run.id][j]; }
      NothingToShow(steps[j], w1.runs[run.id].input, rows[..j], rows[j], w1.log, run.id);
    }
  }

  lemma NoMoreRows(s: Setup, w: World, run: nat)
    requires RunOnRecord(s, w, run)
    ensures |w.steps[run]| <= |StepsOf(s, w, run)|
  {}

  lemma NothingToShow(step: Step, input: string, before: seq<StepRow>, row: StepRow, log: seq<Event>, run: nat)
    requires row.status != Broken && (!step.approve && row.status == Waiting ==> row.awaiting != Some(OnStep))
    ensures PromptOk(step, input, before, row, log, run)
  {}

  /** What the row of a step says if the call of its agent throws. */
  lemma FailedPrompt(s: Setup, w: World, w1: World, run: Run, i: nat, outcome: Outcome)
    requires ReadyAt(s, w, run, i) && PromptsOk(s, w, run.id) && outcome.Raised?
    requires Moves(w, w1, run.id, StepsOf(s, w, run.id)[i], Existing(w, run.id, i), outcome)
    ensures var step := StepsOf(s, w, run.id)[i];
      PromptOk(step, run.input, w.steps[run.id][..i], FailedRow(step, Existing(w, run.id, i), outcome.cause), w1.log, run.id)
  {
    hide LogOk, QueueOk, Quotable, Template.Render, Moves, RowOk, Continued, Ran, RowsOk;
    var step, rows, previous := StepsOf(s, w, run.id)[i], w.steps[run.id], Existing(w, run.id, i);
    assert RunOnRecord(s, w, run.id);
    ReadyPrompt(s, w, run, i);
    WaitingQuotesNothing(run.input, rows, i);
    MovesContinue(w, w1, run.id, step, previous, outcome, run.id, step.id);
    if previous.Some? {
      OpenRow(s, w, run.id, i);
      assert PromptOk(step, run.input, rows[..i], rows[i], w.log, run.id);
    } else {
      NotStartedYet(s, w, run.id, i);
      if Continued(w.log, run.id, step.id) { ContinuedRan(s, w, run.id, step.id); }
    }
  }

  lemma StepKeepsAlso(s: Setup, w: World, run: Run, i: nat)
    requires ReadyAt(s, w, run, i) && Also(s, w)
    ensures var (w1, outcome) := TakeStep(s, w, run, StepsOf(s, w, run.id)[i]); Also(s, w1)
  {
    hide LogOk, QueueOk, RunOnRecord, GatesOk, PromptsOk, Moves, Continued, TakeStep, Grows;
    var step := StepsOf(s, w, run.id)[i];
    var (w1, outcome) := TakeStep(s, w, run, step);
    TakeStepKeeps(s, w, run, i);
    TakeStepMoves(s, w, run, i);
    StepKeepsGates(s, w, w1, run, i, outcome);
    StepKeepsPrompts(s, w, w1, run, i, outcome);
    forall other | other in w1.runs && other != run.id ensures PromptsOk(s, w1, other) {
      assert other in w.steps by { assert RunOnRecord(s, w, other); RecordedHasRows(s, w, other); }
      forall id ensures Continued(w1.log, other, id) <==> Continued(w.log, other, id) {
        MovesContinue(w, w1, run.id, step, Existing(w, run.id, i), outcome, other, id);
      }
      PromptsStay(s, w, w1, other);
    }
  }

  lemma RecordedHasRows(s: Setup, w: World, run: nat)
    requires RunOnRecord(s, w, run)
    ensures run in w.steps
  {}

  // ---------------------------------------------------------------------------------------------
  // A run, and every schedule of calls

  lemma StatusKeepsAlso(s: Setup, w: World, run: nat, status: RunStatus, error: Option<Cause>)
    requires Also(s, w)
    ensures Also(s, SetStatus(w, run, status, error))
  {
    hide PromptOk;
    var w1 := SetStatus(w, run, status, error);
    SameQueue(w, w1);
    assert GatesOk(w1) by { GatesStay(w, w1); }
    forall other | other in w1.runs ensures PromptsOk(s, w1, other) {
      assert PromptsOk(s, w, other);
      PromptsStay(s, w, w1, other);
    }
  }

  lemma SameQueue(w: World, w1: World)
    requires w1.queue == w.queue
    ensures Approvals.Extends(w.queue, w1.queue)
  {}

  /** The row that is written when the call of an agent threw. */
  lemma FailureKeepsAlso(s: Setup, w: World, run: nat, i: nat, row: StepRow)
    requires OpenAt(s, w, run, i) && Also(s, w) && |w.steps[run]| == i + 1
    requires row.stepId == StepsOf(s, w, run)[i].id && row.status == Broken
    requires PromptOk(StepsOf(s, w, run)[i], w.runs[run].input, w.steps[run][..i], row, w.log, run)
    ensures Also(s, RecordStep(w, run, row))
  {
    hide LogOk, QueueOk, RowsOk, Template.Render, Quotable, Continued, GatesOk, PromptOk, GateRowOk, StartOk;
    var w1 := RecordStep(w, run, row);
    assert RunOnRecord(s, w, run);
    UpsertAtEnd(s, w, run, i, row);
    var merged := Merge(Some(w.steps[run][i]), row);
    assert w1.steps[run] == w.steps[run][..i] + [merged];
    SameQueue(w, w1);
    RowsHaveIds(s, w, run);
    assert GatesOk(w1) by { RecordKeepsGates(w, w1, run, i, merged); }
    forall other | other in w1.runs ensures PromptsOk(s, w1, other) {
      assert PromptsOk(s, w, other);
      if other == run {
        SamePrompt(StepsOf(s, w, run)[i], w.runs[run].input, w.steps[run][..i], row, merged, w.log, run);
        FailureKeepsPrompts(s, w, w1, run, i, merged);
      } else {
        PromptsStay(s, w, w1, other);
      }
    }
  }

  lemma SamePrompt(step: Step, input: string, before: seq<StepRow>, row: StepRow, merged: StepRow, log: seq<Event>, run: nat)
    requires PromptOk(step, input, before, row, log, run) && row.status == merged.status == Broken && row.prompt == merged.prompt
    ensures PromptOk(step, input, before, merged, log, run)
  {}

  lemma RecordKeepsGates(w: World, w1: World, run: nat, i: nat, row: StepRow)
    requires GatesOk(w) && run in w.steps && |w.steps[run]| == i + 1 && w.steps[run][i].stepId == row.stepId
    requires w1.steps == w.steps[run := w.steps[run][..i] + [row]] && w1.queue == w.queue && w1.log == w.log
    ensures GatesOk(w1)
  {
    SameQueue(w, w1);
    GatesStay(w, w1);
  }

  lemma FailureKeepsPrompts(s: Setup, w: World, w1: World, run: nat, i: nat, row: StepRow)
    requires PromptsOk(s, w, run) && |w.steps[run]| == i + 1
    requires w1.runs == w.runs && w1.log == w.log && w1.steps == w.steps[run := w.steps[run][..i] + [row]]
    requires PromptOk(StepsOf(s, w, run)[i], w.runs[run].input, w.steps[run][..i], row, w.log, run)
    ensures PromptsOk(s, w1, run)
  {
    hide PromptOk;
    var rows, rows1 := w.steps[run], w1.steps[run];
    forall j | 0 <= j < |rows1| ensures PromptOk(StepsOf(s, w1, run)[j], w1.runs[run].input, rows1[..j], rows1[j], w1.log, run) {
      assert rows1[..j] == rows[..j];
      assert j < i ==> rows1[j] == rows[j];
    }
  }

  lemma StoppedKeepsAlso(s: Setup, w: World, run: Run, i: nat)
    requires ReadyAt(s, w, run, i) && OthersSettled(s, w, run.id) && Also(s, w)
    requires var outcome := TakeStep(s, w, run, StepsOf(s, w, run.id)[i]).1; !outcome.Finished?
    ensures var step := StepsOf(s, w, run.id)[i];
      var (w1, outcome) := TakeStep(s, w, run, step);
      Also(s, Stopped(w1, run, step, Existing(w, run.id, i), outcome))
  {
    hide LogOk, QueueOk, RunOnRecord, GatesOk, PromptOk, Moves, TakeStep, Grows, SetStatus, RecordStep;
    var step := StepsOf(s, w, run.id)[i];
    var (w1, outcome) := TakeStep(s, w, run, step);
    TakeStepKeeps(s, w, run, i);
    StepKeepsAlso(s, w, run, i);
    if outcome.Raised? {
      TakeStepMoves(s, w, run, i);
      StepEnds(s, w, w1, run, i, outcome);
      FailedPrompt(s, w, w1, run, i, outcome);
      var row := FailedRow(step, Existing(w, run.id, i), outcome.cause);
      FailureKeepsAlso(s, w1, run.id, i, row);
      StatusKeepsAlso(s, RecordStep(w1, run.id, row), run.id, Failed, Some(outcome.cause));
    } else if outcome.Paused? {
      StatusKeepsAlso(s, w1, run.id, Awaiting, None);
    } else {
      StatusKeepsAlso(s, w1, run.id, Failed, Some(outcome.cause));
    }
  }

  lemma {:induction false} DriveKeepsAlso(s: Setup, w: World, config: Config, run: Run, i: nat)
    requires Walkable(s, w, run, i) && config.steps == StepsOf(s, w, run.id) && Also(s, w)
    ensures Also(s, Drive(s, w, config, run, i))
    decreases |config.steps| - i
  {
    hide TakeStep, Inv, OnlyRun, Stopped, Also;
    if i == |config.steps| {
      DriveEnds(s, w, config, run);
      StatusKeepsAlso(s, w, run.id, Completed, None);
      return;
    }
    WalkCase(s, w, run, i);
    if i < |w.steps[run.id]| && w.steps[run.id][i].status == Done {
      DriveSkips(s, w, config, run, i);
      DriveKeepsAlso(s, w, config, run, i + 1);
      return;
    }
    DriveUnfolds(s, w, config, run, i);
    DriveOne(s, w, config, run, i);
    var (w1, outcome) := TakeStep(s, w, run, config.steps[i]);
    if outcome.Finished? {
      StepKeepsAlso(s, w, run, i);
      DriveKeepsAlso(s, w1, config, run, i + 1);
    } else {
      StoppedKeepsAlso(s, w, run, i);
    }
  }

  lemma BeginKeepsAlso(s: Setup, w: World, tenant: string, workflow: string, input: string, agents: set<string>)
    requires Inv(s, w) && Also(s, w) && CanStart(s, workflow, agents)
    ensures Also(s, Begin(w, tenant, workflow, input))
  {
    hide Consistent, PromptOk;
    var w1 := Begin(w, tenant, workflow, input);
    FreshRun(s, w);
    SameQueue(w, w1);
    assert GatesOk(w1) by { GatesStay(w, w1); }
    forall run | run in w1.runs ensures PromptsOk(s, w1, run) {
      if run != w.nextRun {
        assert PromptsOk(s, w, run);
        PromptsStay(s, w, w1, run);
      }
    }
  }

  lemma StartKeepsAlso(s: Setup, w: World, tenant: string, workflow: string, input: string, agents: set<string>)
    requires Inv(s, w) && Also(s, w)
    ensures Also(s, Start(s, w, tenant, workflow, input, agents))
  {
    hide Consistent, Drive, Walkable, Also;
    if CanStart(s, workflow, agents) {
      var w1 := Begin(w, tenant, workflow, input);
      BeginKeeps(s, w, tenant, workflow, input, agents);
      BeginKeepsAlso(s, w, tenant, workflow, input, agents);
      DriveKeepsAlso(s, w1, s.workflows[workflow], w1.runs[w.nextRun], 0);
    }
  }

  lemma ResumeKeepsAlso(s: Setup, w: World, tenant: string, run: nat)
    requires Inv(s, w) && Also(s, w)
    ensures Also(s, Resume(s, w, tenant, run))
  {
    hide Drive, Resume, Inv, Consistent, Walkable, Also;
    ResumeIs(s, w, tenant, run);
    if Resume(s, w, tenant, run) != w {
      ResumeWalks(s, w, run);
      DriveKeepsAlso(s, w, s.workflows[w.runs[run].workflow], w.runs[run], 0);
    }
  }

  lemma DecideKeepsGates(w: World, tenant: string, id: nat, status: Approvals.Status, who: string, reason: Option<string>)
    requires QueueOk(w) && GatesOk(w) && status != Approvals.Pending
    ensures GatesOk(DecideOn(w, tenant, id, status, who, reason))
  {
    hide IsGate, OnRecord;
    var w1 := DecideOn(w, tenant, id, status, who, reason);
    if Approvals.CanDecide(w.queue, tenant, id) {
      Approvals.DecideKeeps(w.queue, tenant, id, status, who, reason);
      var i := Approvals.IndexOf(w.queue.rows, id);
      assert w1.log == w.log + [Decided(id, status)];
      forall q | 0 <= q < |w1.queue.rows| ensures IsGate(w1, w1.queue.rows[q]) {
        GateStays(w, w1, w.queue.rows[q], w1.queue.rows[q]);
      }
      forall j | 0 <= j < |w.log| && w.log[j].Decided?
        ensures OnRecord(w1, w1.log[j]) && w.log[j].approval != id
      {
        RecordStays(w, w1, w.log[j]);
        PendingIsUndecided(w, i, w.log[j]);
      }
      assert OnRecord(w1, Decided(id, status)) by { RecordedAt(w1, i, Decided(id, status)); }
    }
  }

  lemma RecordedAt(w: World, i: nat, e: Event)
    requires i < |w.queue.rows| && DecisionOn(e, w.queue.rows[i])
    ensures OnRecord(w, e)
  {}

  lemma PendingIsUndecided(w: World, i: nat, e: Event)
    requires Approvals.Sound(w.queue) && i < |w.queue.rows| && w.queue.rows[i].status == Approvals.Pending
    requires OnRecord(w, e)
    ensures e.approval != w.queue.rows[i].id
  {
    var q :| 0 <= q < |w.queue.rows| && DecisionOn(e, w.queue.rows[q]);
  }

  lemma DecideKeepsAlso(s: Setup, w: World, tenant: string, id: nat, status: Approvals.Status, who: string, reason: Option<string>)
    requires Inv(s, w) && Also(s, w) && status != Approvals.Pending
    ensures Also(s, DecideOn(w, tenant, id, status, who, reason))
  {
    hide LogOk, QueueOk, RunOnRecord, GatesOk, PromptOk, DecideOn, Continued;
    var w1 := DecideOn(w, tenant, id, status, who, reason);
    DecideKeepsGates(w, tenant, id, status, who, reason);
    DecideChanges(w, tenant, id, status, who, reason);
    if w1 != w {
      forall run | run in w1.runs ensures PromptsOk(s, w1, run) {
        assert PromptsOk(s, w, run);
        forall step ensures Continued(w1.log, run, step) <==> Continued(w.log, run, step) {
          ContinuedBy(w.log, Decided(id, status), run, step);
        }
        PromptsStay(s, w, w1, run);
      }
    }
  }

  lemma {:induction false} ExecuteKeepsAlso(s: Setup, w: World, actions: seq<Action>)
    requires Inv(s, w) && Also(s, w)
    ensures Inv(s, Execute(s, w, actions)) && Also(s, Execute(s, w, actions))
    decreases |actions|
  {
    hide Inv, Also, Start, Resume, DecideOn, KeepsRuns;
    if actions != [] {
      ApplyKeeps(s, w, actions[0]);
      match actions[0] {
        case DoStart(tenant, workflow, input, agents) => StartKeepsAlso(s, w, tenant, workflow, input, agents);
        case DoResume(tenant, run) => ResumeKeepsAlso(s, w, tenant, run);
        case DoDecide(tenant, id, status, who, reason) =>
          if status != Approvals.Pending { DecideKeepsAlso(s, w, tenant, id, status, who, reason); }
      }
      ExecuteKeepsAlso(s, Apply(s, w, actions[0]), actions[1..]);
    }
  }

  /** Both invariants hold after every schedule. */
  lemma EveryScheduleKeepsAlso(s: Setup, actions: seq<Action>)
    requires SetupOk(s)
    ensures Inv(s, Execute(s, NEW, actions)) && Also(s, Execute(s, NEW, actions))
  {
    assert Inv(s, NEW) && Also(s, NEW);
    ExecuteKeepsAlso(s, NEW, actions);
  }

  // ---------------------------------------------------------------------------------------------
  // The theorems

  /** A decision on the gate of a step, by its place in the log. */
  ghost predicate Decides(w: World, j: nat, run: nat, step: string) {
    && j < |w.log| && w.log[j].Decided?
    && exists q :: 0 <= q < |w.queue.rows| && DecisionOn(w.log[j], w.queue.rows[q]) && w.queue.rows[q].toolCallId == GateCall(run, step)
  }

  lemma DecidedOnceOnly(w: World, j: nat, k: nat, run: nat, step: string)
    requires GatesOk(w) && Decides(w, j, run, step) && Decides(w, k, run, step)
    ensures j == k
  {
    hide IsGate, OnRecord;
    var q :| 0 <= q < |w.queue.rows| && DecisionOn(w.log[j], w.queue.rows[q]) && w.queue.rows[q].toolCallId == GateCall(run, step);
    var q' :| 0 <= q' < |w.queue.rows| && DecisionOn(w.log[k], w.queue.rows[q']) && w.queue.rows[q'].toolCallId == GateCall(run, step);
    assert q == q';
  }

  lemma ApprovalDecides(w: World, k: nat, run: Run, step: string, prompt: string) returns (j: nat)
    requires ApprovedBefore(w, k, run, step, prompt)
    ensures j < k && Decides(w, j, run.id, step) && (w.log[j].status == Approvals.Approved || w.log[j].status == Approvals.ChangesRequested)
  {
    var j', q :| 0 <= j' < k && j' < |w.log| && 0 <= q < |w.queue.rows| && Approves(w.log[j'], w.queue.rows[q], run, step, prompt);
    assert DecisionOn(w.log[j'], w.queue.rows[q]);
    j := j';
  }

  /**
   * The gate of a step is decided once at most. Where its agent was started, it was decided before; and a person
   * had approved it then exactly when the decision on its gate is not to ask for changes.
   */
  lemma GatedStartsAreApprovedIff(s: Setup, actions: seq<Action>, k: nat, i: nat)
    requires SetupOk(s)
    requires var w := Execute(s, NEW, actions);
      && k < |w.log| && w.log[k].AgentRan?
      && w.log[k].run in w.runs && w.runs[w.log[k].run].workflow in s.workflows
      && i < |StepsOf(s, w, w.log[k].run)| && StepsOf(s, w, w.log[k].run)[i].id == w.log[k].step
      && StepsOf(s, w, w.log[k].run)[i].approve
    ensures var w := Execute(s, NEW, actions);
      var run, step := w.log[k].run, w.log[k].step;
      && (exists j: nat :: j < k && Decides(w, j, run, step))
      && (forall j: nat, j': nat :: Decides(w, j, run, step) && Decides(w, j', run, step) ==> j == j')
      && ((exists j: nat :: j < k && Decides(w, j, run, step) && w.log[j].status == Approvals.Approved)
          <==> forall j: nat :: Decides(w, j, run, step) ==> w.log[j].status != Approvals.ChangesRequested)
  {
    hide Execute, GatesOk, Inv, PromptsOk, ApprovedBefore, Decides, RunOnRecord;
    var w := Execute(s, NEW, actions);
    var run, step := w.log[k].run, w.log[k].step;
    EveryScheduleKeepsAlso(s, actions);
    GatedStepsAreDecidedFirst(s, actions, k, i);
    assert w.runs[run].id == run by { RunKnowsItself(s, w, run); }
    var j := ApprovalDecides(w, k, w.runs[run], step, w.log[k].prompt);
    forall a: nat, b: nat | Decides(w, a, run, step) && Decides(w, b, run, step) ensures a == b {
      DecidedOnceOnly(w, a, b, run, step);
    }
  }

  lemma RunKnowsItself(s: Setup, w: World, run: nat)
    requires Inv(s, w) && run in w.runs
    ensures w.runs[run].id == run
  {
    assert RunOnRecord(s, w, run);
  }

  /** A gate lets its step go exactly when the approval it waits for is there, and neither pending nor rejected. */
  lemma GoIff(s: Setup, w: World, run: Run, step: Step, prompt: string, previous: Option<StepRow>)
    requires s.hasQueue
    ensures Gate(s, w, run, step, prompt, previous).1.Go? <==>
      && previous.Some? && previous.value.status == Waiting && previous.value.approval.Some?
      && var found := Approvals.Lookup(w.queue, run.tenant, previous.value.approval.value);
      && found.Some? && found.value.status != Approvals.Pending && found.value.status != Approvals.Rejected
  {
    hide Approvals.RequestAll, Approvals.Lookup;
  }

  /**
   * Which prompt the row of a failed step shows, whatever the agents answer and whenever people decide: the one
   * its agent was sent, exactly when the step had a row before the call that failed, which is when it is gated or
   * its agent was called again; otherwise the template as it was declared.
   */
  lemma FailedStepsShow(s: Setup, actions: seq<Action>, run: nat, i: nat)
    requires SetupOk(s)
    requires var w := Execute(s, NEW, actions); run in w.runs && i < |Rows(w, run)| && Rows(w, run)[i].status == Broken
    ensures var w := Execute(s, NEW, actions);
      && w.runs[run].workflow in s.workflows && i < |StepsOf(s, w, run)|
      && var step := StepsOf(s, w, run)[i];
      var rendered := Template.Render(step.prompt, Quotable(w.runs[run].input, Rows(w, run)[..i]));
      && rendered.Ok?
      && Rows(w, run)[i].prompt == if step.approve || Continued(w.log, run, step.id) then rendered.value else step.prompt
  {
    hide Execute, GatesOk, Inv, Template.Render, Quotable, Continued;
    EveryScheduleKeepsAlso(s, actions);
    var w := Execute(s, NEW, actions);
    assert PromptsOk(s, w, run);
    assert PromptOk(StepsOf(s, w, run)[i], w.runs[run].input, w.steps[run][..i], w.steps[run][i], w.log, run);
  }

  // ---------------------------------------------------------------------------------------------
  // Two schedules

  /** One workflow of one step, whose agent always ends its turn the same way. */
  function OneStep(prompt: string, approve: bool, outcome: AgentOutcome): Setup {
    Setup(map["w" := Config("w", [Step("a", "m", prompt, approve)])], true, (_: nat) => outcome)
  }

  function Begun(input: string): World { Begin(NEW, "t", "w", input) }

  lemma PlainPrompt(values: map<string, string>)
    ensures Template.Render("x", values) == Ok("x") && Template.Names("x") == {}
  {
    var t := "x";
    assert Template.Pieces(t, 1) == [];
    var pieces := Template.Pieces(t, 0);
    assert pieces == [Template.Plain('x')];
    assert pieces[1..] == [];
    assert Template.Fill(pieces[1..], values) == Ok("");
    assert ['x'] + "" == "x";
  }

  lemma OneStepIsOk(prompt: string, approve: bool, outcome: AgentOutcome)
    requires forall name :: name in Template.Names(prompt) ==> name == "input"
    ensures SetupOk(OneStep(prompt, approve, outcome)) && CanStart(OneStep(prompt, approve, outcome), "w", {"m"})
  {
    hide Template.Names;
  }

  const WAITS := StepRow("a", "m", Some(1), "x", None, Waiting, Some(OnStep), Some(1), None)

  function Held(status: Approvals.Status, who: Option<string>): Approvals.Approval {
    Approvals.Approval(1, "t", 1, GateCall(0, "a"), "workflow.a", "x", status, who, None)
  }

  /** After the start: the step waits, its gate is in the queue. */
  function Waits(): World {
    World(map[0 := Run(0, "t", "w", "", Awaiting, None)], map[0 := [WAITS]], 1, Approvals.Queue([Held(Approvals.Pending, None)], 1), 1, 0, [])
  }

  /** Asked for the gate of its only step, the run waits. */
  lemma AskingWaits(s: Setup)
    requires s == OneStep("x", true, Answered("ok"))
    ensures var w, step := Begun(""), s.workflows["w"].steps[0];
      var (w1, answer) := Ask(w, w.runs[0], step, "x");
      answer == Stop(Paused) && SetStatus(w1, 0, Awaiting, None) == Waits()
  {
    hide Text.Decimal, Approvals.RequestAll, Ask;
    var w, step := Begun(""), s.workflows["w"].steps[0];
    var run := w.runs[0];
    AskIs(w, run, step, "x");
    assert Rows(w, 0) == [];
    assert Upsert([], GateWait(w, step, "x")) == [] + [WAITS] == [WAITS];
    assert "workflow." + "a" == "workflow.a";
    assert Approvals.EMPTY.rows + [Held(Approvals.Pending, None)] == [Held(Approvals.Pending, None)];
    var w1 := SetStatus(Ask(w, run, step, "x").0, 0, Awaiting, None);
    assert w1.runs == Waits().runs && w1.steps == Waits().steps && w1.queue == Waits().queue;
  }

  lemma StartWaits(s: Setup)
    requires s == OneStep("x", true, Answered("ok"))
    ensures Start(s, NEW, "t", "w", "", {"m"}) == Waits()
  {
    hide Template.Render, Template.Names, Text.Decimal, Quotable, Ask, SetStatus, Launch, Continue;
    PlainPrompt(Quotable("", []));
    OneStepIsOk("x", true, Answered("ok"));
    var w, config := Begun(""), s.workflows["w"];
    var run, step := w.runs[0], config.steps[0];
    assert Rows(w, 0) == [];
    DriveUnfolds(s, w, config, run, 0);
    AskingWaits(s);
  }

  function ChangesAsked(): World {
    Waits().(queue := Approvals.Queue([Held(Approvals.ChangesRequested, Some("p"))], 2), log := [Decided(1, Approvals.ChangesRequested)])
  }

  lemma DecideAsksForChanges()
    ensures DecideOn(Waits(), "t", 1, Approvals.ChangesRequested, "p", None) == ChangesAsked()
  {
    hide Text.Decimal;
    var q := Waits().queue;
    assert Approvals.IndexOf(q.rows, 1) == 0;
    assert q.rows[0 := Held(Approvals.ChangesRequested, Some("p"))] == [Held(Approvals.ChangesRequested, Some("p"))];
    assert [] + [Decided(1, Approvals.ChangesRequested)] == [Decided(1, Approvals.ChangesRequested)];
  }

  lemma ChangesGo(s: Setup)
    requires s == OneStep("x", true, Answered("ok"))
    ensures var w := ChangesAsked(); Gate(s, w, w.runs[0], s.workflows["w"].steps[0], "x", Some(WAITS)) == (w, Go)
  {
    hide Ask, Text.Decimal, RecordStep;
    assert Approvals.IndexOf(ChangesAsked().queue.rows, 1) == 0;
  }

  lemma ResumeGoesAhead(s: Setup)
    requires s == OneStep("x", true, Answered("ok"))
    ensures Resume(s, ChangesAsked(), "t", 0).log == [Decided(1, Approvals.ChangesRequested), AgentRan(0, "a", 2, "x")]
    ensures Resume(s, ChangesAsked(), "t", 0).queue == ChangesAsked().queue
  {
    hide Template.Render, Text.Decimal, Quotable, Gate, Launch, Stopped, Continue, SetStatus;
    var w, config := ChangesAsked(), s.workflows["w"];
    var run, step := w.runs[0], config.steps[0];
    PlainPrompt(Quotable("", [WAITS]));
    assert FindStep(Rows(w, 0), "a") == Some(WAITS);
    DriveUnfolds(s, w, config, run, 0);
    ChangesGo(s);
    LaunchLogs(s, w, run, step, "x");
    assert TakeStep(s, w, run, step) == Launch(s, w, run, step, "x");
    var w1 := Launch(s, w, run, step, "x").0;
    assert Launch(s, w, run, step, "x").1 == Finished by { LaunchFinishes(s, w, run, step, "x"); }
    DriveEnds(s, w1, config, run);
    StatusKeepsTheRest(w1, 0, Completed);
    assert w.log + [AgentRan(0, "a", 2, "x")] == [Decided(1, Approvals.ChangesRequested), AgentRan(0, "a", 2, "x")];
  }

  lemma LaunchFinishes(s: Setup, w: World, run: Run, step: Step, prompt: string)
    requires s.agent(w.calls).Answered?
    ensures Launch(s, w, run, step, prompt).1 == Finished
  {}

  lemma StatusKeepsTheRest(w: World, run: nat, status: RunStatus)
    ensures var w1 := SetStatus(w, run, status, None); w1.log == w.log && w1.queue == w.queue
  {}

  /** A gated step is started, a person asks for changes, the run is resumed: the agent is started all the same. */
  lemma ChangesRequestedGoesAhead()
    ensures var s := OneStep("x", true, Answered("ok"));
      var w := Execute(s, NEW, [DoStart("t", "w", "", {"m"}), DoDecide("t", 1, Approvals.ChangesRequested, "p", None), DoResume("t", 0)]);
      && SetupOk(s)
      && w.log == [Decided(1, Approvals.ChangesRequested), AgentRan(0, "a", 2, "x")]
      && Decides(w, 0, 0, "a")
  {
    hide Start, Resume, DecideOn, Template.Names;
    var s := OneStep("x", true, Answered("ok"));
    var start, decide, resume := DoStart("t", "w", "", {"m"}), DoDecide("t", 1, Approvals.ChangesRequested, "p", None), DoResume("t", 0);
    PlainPrompt(map[]);
    OneStepIsOk("x", true, Answered("ok"));
    StartWaits(s);
    DecideAsksForChanges();
    ResumeGoesAhead(s);
    var w := Resume(s, ChangesAsked(), "t", 0);
    assert Execute(s, w, []) == w;
    assert [resume][1..] == [] && [decide, resume][1..] == [resume] && [start, decide, resume][1..] == [decide, resume];
    assert Execute(s, ChangesAsked(), [resume]) == w;
    assert Execute(s, Waits(), [decide, resume]) == w;
    assert DecisionOn(w.log[0], w.queue.rows[0]);
  }

  const QUOTES := "{{input}}"

  lemma QuotesTheInput(input: string)
    ensures Template.Render(QUOTES, map["input" := input]) == Ok(input) && Template.Names(QUOTES) == {"input"}
  {
    var t := QUOTES;
    assert t[0..2] == "{{" && t[7..9] == "}}" && t[2..7] == "input";
    assert Template.SkipSpaces(t, 2) == 2;
    assert Template.SkipName(t, 7) == 7;
    assert Template.SkipName(t, 5) == 7;
    assert Template.SkipName(t, 3) == 7;
    assert Template.SkipSpaces(t, 7) == 7;
    assert Template.MatchAt(t, 0) == Some(Template.Placeholder("input", 9));
    var hole := Template.Hole("input", t[0..9]);
    assert Template.Pieces(t, 9) == [];
    var pieces := Template.Pieces(t, 0);
    assert pieces == [hole];
    assert pieces[1..] == [];
    assert Template.Fill(pieces[1..], map["input" := input]) == Ok("");
    assert input + "" == input;
    assert pieces[0] == hole;
  }

  const BROKE := StepRow("a", "m", Some(1), QUOTES, None, Broken, None, None, Some(AgentThrew("down")))

  lemma LaunchBreaks(s: Setup)
    requires s == OneStep(QUOTES, false, Threw("down"))
    ensures var w, step := Begun("hello"), s.workflows["w"].steps[0];
      var (w1, outcome) := Launch(s, w, w.runs[0], step, "hello");
      && outcome == Raised(AgentThrew("down")) && w1.log == [AgentRan(0, "a", 1, "hello")]
      && Rows(Stopped(w1, w.runs[0], step, None, outcome), 0) == [BROKE]
      && Stopped(w1, w.runs[0], step, None, outcome).log == w1.log
  {
    var w, step := Begun("hello"), s.workflows["w"].steps[0];
    var run := w.runs[0];
    assert Rows(w, 0) == [];
    LaunchLogs(s, w, run, step, "hello");
    var w1 := Launch(s, w, run, step, "hello").0;
    var row := RowFor(step, "hello", InProgress).(session := Some(1));
    assert w1.steps[0] == [] + [row] == [row];
    assert StepIndex([row], "a") == 0;
    assert [row][0 := BROKE] == [BROKE];
    assert [] + [AgentRan(0, "a", 1, "hello")] == [AgentRan(0, "a", 1, "hello")];
  }

  /** An ungated step whose agent throws at once: it was sent the input, and its row shows the template. */
  lemma AFirstFailureShowsTheTemplate()
    ensures var s := OneStep(QUOTES, false, Threw("down"));
      var w := Execute(s, NEW, [DoStart("t", "w", "hello", {"m"})]);
      && SetupOk(s)
      && w.log == [AgentRan(0, "a", 1, "hello")]
      && Rows(w, 0) == [BROKE] && BROKE.prompt == QUOTES != "hello"
  {
    hide Template.Render, Template.Names, Launch, Stopped;
    var s := OneStep(QUOTES, false, Threw("down"));
    QuotesTheInput("hello");
    OneStepIsOk(QUOTES, false, Threw("down"));
    var w, config := Begun("hello"), s.workflows["w"];
    var run, step := w.runs[0], config.steps[0];
    assert Rows(w, 0) == [];
    assert Quotable("hello", []) == map["input" := "hello"];
    DriveUnfolds(s, w, config, run, 0);
    assert TakeStep(s, w, run, step) == Launch(s, w, run, step, "hello");
    LaunchBreaks(s);
    var start := DoStart("t", "w", "hello", {"m"});
    assert [start][1..] == [];
    assert Execute(s, NEW, [start]) == Start(s, NEW, "t", "w", "hello", {"m"});
  }
}
