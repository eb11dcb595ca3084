/** What every reachable state of the workflow engine satisfies. */
module WorkflowSafety {
  import opened Basics
  import Template
  import opened WorkflowConfig
  import Approvals
  import opened Workflow

  // ---------------------------------------------------------------------------------------------
  // The invariant

  /** A configuration the loader accepted. */
  ghost predicate SetupOk(s: Setup) {
    forall id :: id in s.workflows ==> WellFormed(s.workflows[id].steps)
  }

  function StepsOf(s: Setup, w: World, run: nat): seq<Step>
    requires run in w.runs && w.runs[run].workflow in s.workflows
  {
    s.workflows[w.runs[run].workflow].steps
  }

  /** The turn of this step has been started. */
  predicate Launched(row: StepRow) {
    row.status == InProgress || row.status == Done || (row.status == Waiting && row.awaiting == Some(OnTool))
  }

  /** Row `i` of a run: whose it is, what it may hold, and that its prompt is the template with its holes filled. */
  ghost predicate RowOk(step: Step, input: string, before: seq<StepRow>, row: StepRow) {
    && row.stepId == step.id
    && row.agent == step.agent
    && (row.status == Done ==> row.output.Some?)
    && (row.status != Broken ==> Template.Render(step.prompt, Quotable(input, before)) == Ok(row.prompt))
    && (row.error.Some? ==> row.error.value.AgentThrew? || row.error.value.Declined?)
    && (Launched(row) ==> row.session.Some?)
    && (row.status == Waiting ==> row.awaiting.Some?)
    && (row.status == Waiting && row.awaiting == Some(OnStep) ==> row.approval.Some?)
    && (row.status == Waiting && row.awaiting == Some(OnTool) ==> row.approval.None?)
  }

  /** The rows of a run follow the configuration, and all but the last are done. */
  ghost predicate RowsOk(steps: seq<Step>, input: string, rows: seq<StepRow>) {
    && |rows| <= |steps|
    && (forall i :: 0 <= i < |rows| ==> RowOk(steps[i], input, rows[..i], rows[i]))
    && (forall i :: 0 <= i < |rows| - 1 ==> rows[i].status == Done)
  }

  predicate Ran(log: seq<Event>, run: nat, step: string) {
    exists k :: 0 <= k < |log| && IsRun(log[k], run, step)
  }

  predicate IsRun(e: Event, run: nat, step: string) {
    e.AgentRan? && e.run == run && e.step == step
  }

  /** A decision for this step was taken before position `k` of the log, was not a rejection, and was taken on this very prompt. */
  ghost predicate ApprovedBefore(w: World, k: nat, run: Run, step: string, prompt: string) {
    exists j, q :: 0 <= j < k && j < |w.log| && 0 <= q < |w.queue.rows| && Approves(w.log[j], w.queue.rows[q], run, step, prompt)
  }

  ghost predicate Approves(e: Event, a: Approvals.Approval, run: Run, step: string, prompt: string) {
    && e == Decided(a.id, a.status)
    && (a.status == Approvals.Approved || a.status == Approvals.ChangesRequested)
    && a.tenant == run.tenant
    && a.toolCallId == GateCall(run.id, step)
    && a.input == prompt
  }

  /** The step a start of an agent belongs to is on record, with the session it was started in. */
  ghost predicate RunOk(s: Setup, w: World, k: nat)
    requires k < |w.log| && w.log[k].AgentRan?
  {
    var e := w.log[k];
    && e.run in w.runs
    && w.runs[e.run].workflow in s.workflows
    && exists i :: 0 <= i < |Rows(w, e.run)| && i < |StepsOf(s, w, e.run)| && RunIsRow(s, w, k, i)
  }

  ghost predicate RunIsRow(s: Setup, w: World, k: nat, i: nat)
    requires k < |w.log| && w.log[k].AgentRan? && w.log[k].run in w.runs && w.runs[w.log[k].run].workflow in s.workflows
    requires i < |Rows(w, w.log[k].run)| && i < |StepsOf(s, w, w.log[k].run)|
  {
    var e, row := w.log[k], Rows(w, w.log[k].run)[i];
    && row.stepId == e.step
    && row.session == Some(e.session)
    && (Launched(row) || row.status == Broken)
    && (StepsOf(s, w, e.run)[i].approve ==> ApprovedBefore(w, k, w.runs[e.run], e.step, e.prompt))
  }

  ghost predicate ResumeOk(log: seq<Event>, k: nat)
    requires k < |log| && log[k].AgentResumed?
  {
    exists j :: 0 <= j < k && IsRun(log[j], log[k].run, log[k].step) && log[j].session == log[k].session
  }

  ghost predicate LogOk(s: Setup, w: World) {
    && (forall j, k :: 0 <= j < k < |w.log| && w.log[k].AgentRan? ==> !IsRun(w.log[j], w.log[k].run, w.log[k].step))
    && (forall k :: 0 <= k < |w.log| && w.log[k].AgentRan? ==> RunOk(s, w, k))
    && (forall k :: 0 <= k < |w.log| && w.log[k].AgentResumed? ==> ResumeOk(w.log, k))
  }

  /** The row of the queue a step waits for. */
  ghost predicate GateRowOk(w: World, run: Run, row: StepRow) {
    row.status == Waiting && row.awaiting == Some(OnStep) && row.approval.Some? ==>
      exists q :: 0 <= q < |w.queue.rows| && GateRow(w.queue.rows[q], run, row)
  }

  ghost predicate GateRow(a: Approvals.Approval, run: Run, row: StepRow) {
    && row.approval == Some(a.id)
    && a.tenant == run.tenant
    && a.toolCallId == GateCall(run.id, row.stepId)
    && a.input == row.prompt
  }

  /** A step whose turn is on record as started was started once, in the session on record. */
  ghost predicate StartOk(w: World, run: nat, row: StepRow) {
    Launched(row) && row.session.Some? ==> AgentRan(run, row.stepId, row.session.value, row.prompt) in w.log
  }

  ghost predicate QueueOk(w: World) {
    && Approvals.Sound(w.queue)
    && (forall q :: 0 <= q < |w.queue.rows| ==> w.queue.rows[q].session <= w.sessions)
    && (forall q :: 0 <= q < |w.queue.rows| && w.queue.rows[q].status != Approvals.Pending ==>
          Decided(w.queue.rows[q].id, w.queue.rows[q].status) in w.log)
  }

  ghost predicate RunOnRecord(s: Setup, w: World, run: nat) {
    && run in w.runs
    && run in w.steps
    && run < w.nextRun
    && w.runs[run].id == run
    && w.runs[run].workflow in s.workflows
    && (s.hasQueue || forall step :: step in StepsOf(s, w, run) ==> !step.approve)
    && RowsOk(StepsOf(s, w, run), w.runs[run].input, w.steps[run])
    && (forall i :: 0 <= i < |w.steps[run]| ==> GateRowOk(w, w.runs[run], w.steps[run][i]))
    && (forall i :: 0 <= i < |w.steps[run]| ==> StartOk(w, run, w.steps[run][i]))
  }

  /** Everything but the status of the runs. */
  ghost predicate Consistent(s: Setup, w: World) {
    && SetupOk(s)
    && w.steps.Keys == w.runs.Keys
    && (forall run :: run in w.runs ==> w.runs[run].workflow in s.workflows)
    && (forall run :: run in w.runs ==> RunOnRecord(s, w, run))
    && LogOk(s, w)
    && QueueOk(w)
  }

  /** How many leading steps are done. */
  function DoneCount(rows: seq<StepRow>): (n: nat)
    ensures n <= |rows|
  {
    if rows != [] && rows[|rows| - 1].status != Done then |rows| - 1 else |rows|
  }

  /** The status of a run says exactly where its rows stand. */
  ghost predicate StatusOk(status: RunStatus, error: Option<Cause>, steps: seq<Step>, rows: seq<StepRow>) {
    var m := DoneCount(rows);
    match status
    case Running => false
    case Awaiting => |rows| == m + 1 && rows[m].status == Waiting && error.None?
    case Completed => m == |rows| == |steps| && error.None?
    case Failed => |rows| == m + 1 && (rows[m].status == Broken || rows[m].status == Skipped) && error.Some? && error == rows[m].error
  }

  ghost predicate Settled(s: Setup, w: World, run: nat) {
    && run in w.runs
    && w.runs[run].workflow in s.workflows
    && StatusOk(w.runs[run].status, w.runs[run].error, StepsOf(s, w, run), Rows(w, run))
  }

  /** The invariant between two calls. */
  ghost predicate Inv(s: Setup, w: World) {
    && Consistent(s, w)
    && forall run :: run in w.runs ==> Settled(s, w, run)
  }

  // ---------------------------------------------------------------------------------------------
  // What a prompt can quote

  lemma {:induction false} QuotableKeys(input: string, rows: seq<StepRow>)
    requires forall i :: 0 <= i < |rows| ==> rows[i].status == Done && rows[i].output.Some?
    ensures Quotable(input, rows).Keys == {"input"} + set i | 0 <= i < |rows| :: STEPS + rows[i].stepId
  {
    if rows != [] {
      QuotableKeys(input, rows[..|rows| - 1]);
      var n := |rows| - 1;
      assert (set i | 0 <= i < |rows| :: STEPS + rows[i].stepId)
          == (set i | 0 <= i < n :: STEPS + rows[..n][i].stepId) + {STEPS + rows[n].stepId};
    }
  }

  lemma EarlierStepsAreQuotable(steps: seq<Step>, input: string, rows: seq<StepRow>, name: string)
    requires |rows| <= |steps|
    requires forall j :: 0 <= j < |rows| ==> rows[j].stepId == steps[j].id && rows[j].status == Done && rows[j].output.Some?
    requires Allowed(name, Ids(steps[..|rows|]))
    ensures name in Quotable(input, rows)
  {
    QuotableKeys(input, rows);
    if name != "input" {
      var step :| step in steps[..|rows|] && step.id == name[|STEPS|..];
      var j :| 0 <= j < |rows| && steps[j] == step;
      assert name == STEPS + rows[j].stepId;
    }
  }

  /** With every earlier step done, no accepted prompt asks for a name that is missing. */
  lemma AcceptedPromptsRender(steps: seq<Step>, input: string, rows: seq<StepRow>)
    requires WellFormed(steps) && |rows| < |steps|
    requires forall j :: 0 <= j < |rows| ==> rows[j].stepId == steps[j].id && rows[j].status == Done && rows[j].output.Some?
    ensures Template.Render(steps[|rows|].prompt, Quotable(input, rows)).Ok?
  {
    assert StepOk(steps[|rows|], Ids(steps[..|rows|]));
    forall name | name in Template.Names(steps[|rows|].prompt) ensures name in Quotable(input, rows) {
      EarlierStepsAreQuotable(steps, input, rows, name);
    }
    Template.RenderTotal(steps[|rows|].prompt, Quotable(input, rows));
  }

  // ---------------------------------------------------------------------------------------------
  // One change of one step

  /** The log and the queue only grow, and decisions taken are final. */
  ghost predicate Grows(w: World, w': World) {
    w.log <= w'.log && Approvals.Extends(w.queue, w'.queue) && w.sessions <= w'.sessions
  }

  lemma GrowsTransitive(a: World, b: World, c: World)
    requires Grows(a, b) && Grows(b, c)
    ensures Grows(a, c)
  {
    Approvals.ExtendsTransitive(a.queue, b.queue, c.queue);
  }

  lemma GateRowGrows(w: World, w': World, run: Run, row: StepRow)
    requires GateRowOk(w, run, row) && Grows(w, w')
    ensures GateRowOk(w', run, row)
  {
    if row.status == Waiting && row.awaiting == Some(OnStep) && row.approval.Some? {
      var q :| 0 <= q < |w.queue.rows| && GateRow(w.queue.rows[q], run, row);
      assert GateRow(w'.queue.rows[q], run, row);
    }
  }

  lemma ApprovedGrows(w: World, w': World, k: nat, run: Run, step: string, prompt: string)
    requires ApprovedBefore(w, k, run, step, prompt) && Grows(w, w')
    ensures ApprovedBefore(w', k, run, step, prompt)
  {
    var j, q :| 0 <= j < k && j < |w.log| && 0 <= q < |w.queue.rows| && Approves(w.log[j], w.queue.rows[q], run, step, prompt);
    assert Approves(w'.log[j], w'.queue.rows[q], run, step, prompt);
  }

  lemma StepIndexIs(s: Setup, w: World, run: nat, i: nat)
    requires SetupOk(s) && RunOnRecord(s, w, run) && i < |w.steps[run]|
    ensures StepIndex(w.steps[run], StepsOf(s, w, run)[i].id) == i
    ensures forall j :: 0 <= j < |w.steps[run]| && w.steps[run][j].stepId == StepsOf(s, w, run)[i].id ==> j == i
  {
    var steps, rows := StepsOf(s, w, run), w.steps[run];
    forall j | 0 <= j < |rows| && j != i ensures rows[j].stepId != steps[i].id {
      assert RowOk(steps[j], w.runs[run].input, rows[..j], rows[j]);
      IdsAreDistinct(steps, Min(i, j), Max(i, j));
    }
    assert RowOk(steps[i], w.runs[run].input, rows[..i], rows[i]);
  }

  /** The step about to be worked on has either no row, or the last one. */
  lemma UpsertAtEnd(s: Setup, w: World, run: nat, i: nat, row: StepRow)
    requires SetupOk(s) && RunOnRecord(s, w, run)
    requires i < |StepsOf(s, w, run)| && i <= |w.steps[run]| <= i + 1
    requires row.stepId == StepsOf(s, w, run)[i].id
    ensures var rows := w.steps[run];
      var existing := if i < |rows| then Some(rows[i]) else None;
      FindStep(rows, row.stepId) == existing && Upsert(rows, row) == rows[..i] + [Merge(existing, row)]
  {
    var steps, rows := StepsOf(s, w, run), w.steps[run];
    if i < |rows| {
      StepIndexIs(s, w, run, i);
    } else {
      forall j | 0 <= j < |rows| ensures rows[j].stepId != row.stepId {
        assert RowOk(steps[j], w.runs[run].input, rows[..j], rows[j]);
        IdsAreDistinct(steps, j, i);
      }
    }
  }

  /** What one change does: row `i` of one run becomes `row`, and at most one event is logged. */
  ghost predicate Changes(w: World, w': World, run: nat, i: nat, row: StepRow) {
    && run in w.steps && i <= |w.steps[run]| <= i + 1
    && w'.runs == w.runs && w'.nextRun == w.nextRun
    && w'.steps == w.steps[run := w.steps[run][..i] + [row]]
    && Grows(w, w')
    && |w'.log| <= |w.log| + 1
  }

  /** A step whose turn was started before stays started, in the same session. */
  ghost predicate KeepsStart(w: World, run: nat, i: nat, step: string, row: StepRow)
    requires run in w.steps
  {
    Ran(w.log, run, step) ==>
      i < |w.steps[run]| && (Launched(row) || row.status == Broken) && row.session == w.steps[run][i].session
  }

  /** The event logged with a change: the start of this step, its first; or its continuation. */
  ghost predicate EventOk(s: Setup, w: World, w': World, run: nat, step: Step, row: StepRow)
    requires run in w.runs
  {
    |w'.log| > |w.log| ==>
      var e := w'.log[|w.log|];
      || (e.AgentResumed? && ResumeOk(w'.log, |w.log|))
      || (&& IsRun(e, run, step.id)
          && !Ran(w.log, run, step.id)
          && Launched(row)
          && row.session == Some(e.session)
          && (step.approve ==> ApprovedBefore(w', |w.log|, w.runs[run], step.id, e.prompt)))
  }

  lemma ChangeKeepsOther(s: Setup, w: World, w': World, run: nat, i: nat, row: StepRow, other: nat)
    requires RunOnRecord(s, w, other) && other != run && Changes(w, w', run, i, row)
    ensures RunOnRecord(s, w', other)
  {
    hide RowsOk;
    forall j | 0 <= j < |w'.steps[other]|
      ensures GateRowOk(w', w'.runs[other], w'.steps[other][j]) && StartOk(w', other, w'.steps[other][j])
    {
      GateRowGrows(w, w', w.runs[other], w.steps[other][j]);
    }
  }

  lemma ChangedRowsOk(steps: seq<Step>, input: string, rows: seq<StepRow>, i: nat, row: StepRow)
    requires RowsOk(steps, input, rows) && i < |steps| && i <= |rows| <= i + 1
    requires forall j :: 0 <= j < i ==> rows[j].status == Done
    requires RowOk(steps[i], input, rows[..i], row)
    ensures RowsOk(steps, input, rows[..i] + [row])
  {
    hide RowOk;
    var rows' := rows[..i] + [row];
    forall j | 0 <= j < |rows'| ensures RowOk(steps[j], input, rows'[..j], rows'[j]) {
      assert rows'[..j] == rows[..j];
    }
  }

  lemma ChangeKeepsItsRun(s: Setup, w: World, w': World, run: nat, i: nat, row: StepRow)
    requires RunOnRecord(s, w, run)
    requires Changes(w, w', run, i, row) && i < |StepsOf(s, w, run)|
    requires forall j :: 0 <= j < i ==> w.steps[run][j].status == Done
    requires RowOk(StepsOf(s, w, run)[i], w.runs[run].input, w.steps[run][..i], row)
    requires GateRowOk(w', w.runs[run], row) && StartOk(w', run, row)
    ensures RunOnRecord(s, w', run)
  {
    hide RowsOk, RowOk;
    ChangedRowsOk(StepsOf(s, w, run), w.runs[run].input, w.steps[run], i, row);
    forall j | 0 <= j < |w'.steps[run]|
      ensures GateRowOk(w', w'.runs[run], w'.steps[run][j]) && StartOk(w', run, w'.steps[run][j])
    {
      if j < i {
        GateRowGrows(w, w', w.runs[run], w.steps[run][j]);
      }
    }
  }

  lemma ChangeKeepsRun(s: Setup, w: World, w': World, run: nat, i: nat, row: StepRow, k: nat)
    requires Consistent(s, w) && run in w.runs && k < |w.log| && w.log[k].AgentRan?
    requires Changes(w, w', run, i, row) && i < |StepsOf(s, w, run)|
    requires row.stepId == StepsOf(s, w, run)[i].id
    requires KeepsStart(w, run, i, StepsOf(s, w, run)[i].id, row)
    ensures RunOk(s, w', k)
  {
    var e := w.log[k];
    var n :| 0 <= n < |Rows(w, e.run)| && n < |StepsOf(s, w, e.run)| && RunIsRow(s, w, k, n);
    if StepsOf(s, w, e.run)[n].approve {
      ApprovedGrows(w, w', k, w.runs[e.run], e.step, e.prompt);
    }
    assert RunOnRecord(s, w, e.run);
    assert RowOk(StepsOf(s, w, e.run)[n], w.runs[e.run].input, w.steps[e.run][..n], w.steps[e.run][n]);
    if e.run == run && n == i {
      assert IsRun(w.log[k], run, StepsOf(s, w, run)[i].id);
    }
    assert RunIsRow(s, w', k, n);
  }

  lemma ChangeStartsOnce(w: World, w': World)
    requires forall j, k :: 0 <= j < k < |w.log| && w.log[k].AgentRan? ==> !IsRun(w.log[j], w.log[k].run, w.log[k].step)
    requires w.log <= w'.log && |w'.log| <= |w.log| + 1
    requires |w'.log| > |w.log| && w'.log[|w.log|].AgentRan? ==> !Ran(w.log, w'.log[|w.log|].run, w'.log[|w.log|].step)
    ensures forall j, k :: 0 <= j < k < |w'.log| && w'.log[k].AgentRan? ==> !IsRun(w'.log[j], w'.log[k].run, w'.log[k].step)
  {
    forall j, k | 0 <= j < k < |w'.log| && w'.log[k].AgentRan?
      ensures !IsRun(w'.log[j], w'.log[k].run, w'.log[k].step)
    {
      assert w'.log[j] == w.log[j];
      assert k < |w.log| ==> w'.log[k] == w.log[k];
    }
  }

  lemma ResumeGrows(w: World, w': World, k: nat)
    requires k < |w.log| && w.log[k].AgentResumed? && ResumeOk(w.log, k) && w.log <= w'.log
    ensures ResumeOk(w'.log, k)
  {
    var j :| 0 <= j < k && IsRun(w.log[j], w.log[k].run, w.log[k].step) && w.log[j].session == w.log[k].session;
    assert IsRun(w'.log[j], w'.log[k].run, w'.log[k].step);
  }

  lemma NewRunIsOk(s: Setup, w: World, w': World, run: nat, i: nat, row: StepRow)
    requires Consistent(s, w) && run in w.runs
    requires Changes(w, w', run, i, row) && i < |StepsOf(s, w, run)|
    requires row.stepId == StepsOf(s, w, run)[i].id
    requires EventOk(s, w, w', run, StepsOf(s, w, run)[i], row)
    requires |w'.log| > |w.log| && w'.log[|w.log|].AgentRan?
    ensures RunOk(s, w', |w.log|)
  {
    assert RunOnRecord(s, w, run);
    assert w'.steps[run][i] == row;
    assert RunIsRow(s, w', |w.log|, i);
  }

  lemma ChangedRunIsOk(s: Setup, w: World, w': World, run: nat, i: nat, row: StepRow, k: nat)
    requires Consistent(s, w) && run in w.runs
    requires Changes(w, w', run, i, row) && i < |StepsOf(s, w, run)|
    requires row.stepId == StepsOf(s, w, run)[i].id
    requires KeepsStart(w, run, i, StepsOf(s, w, run)[i].id, row)
    requires EventOk(s, w, w', run, StepsOf(s, w, run)[i], row)
    requires k < |w'.log| && w'.log[k].AgentRan?
    ensures RunOk(s, w', k)
  {
    if k == |w.log| {
      NewRunIsOk(s, w, w', run, i, row);
    } else {
      ChangeKeepsRun(s, w, w', run, i, row, k);
    }
  }

  lemma ChangedResumeIsOk(w: World, w': World, k: nat)
    requires w.log <= w'.log && |w'.log| <= |w.log| + 1
    requires |w'.log| > |w.log| && w'.log[|w.log|].AgentResumed? ==> ResumeOk(w'.log, |w.log|)
    requires forall j :: 0 <= j < |w.log| && w.log[j].AgentResumed? ==> ResumeOk(w.log, j)
    requires k < |w'.log| && w'.log[k].AgentResumed?
    ensures ResumeOk(w'.log, k)
  {
    if k < |w.log| {
      ResumeGrows(w, w', k);
    }
  }

  lemma ChangeKeepsLog(s: Setup, w: World, w': World, run: nat, i: nat, row: StepRow)
    requires Consistent(s, w) && run in w.runs
    requires Changes(w, w', run, i, row) && i < |StepsOf(s, w, run)|
    requires row.stepId == StepsOf(s, w, run)[i].id
    requires KeepsStart(w, run, i, StepsOf(s, w, run)[i].id, row)
    requires EventOk(s, w, w', run, StepsOf(s, w, run)[i], row)
    ensures LogOk(s, w')
  {
    forall k | 0 <= k < |w'.log| && w'.log[k].AgentRan? ensures RunOk(s, w', k) {
      ChangedRunIsOk(s, w, w', run, i, row, k);
    }
    forall k | 0 <= k < |w'.log| && w'.log[k].AgentResumed? ensures ResumeOk(w'.log, k) {
      ChangedResumeIsOk(w, w', k);
    }
    ChangeStartsOnce(w, w');
  }

  lemma ChangeKeeps(s: Setup, w: World, w': World, run: nat, i: nat, row: StepRow)
    requires Consistent(s, w) && run in w.runs
    requires Changes(w, w', run, i, row) && i < |StepsOf(s, w, run)|
    requires forall j :: 0 <= j < i ==> w.steps[run][j].status == Done
    requires RowOk(StepsOf(s, w, run)[i], w.runs[run].input, w.steps[run][..i], row)
    requires GateRowOk(w', w.runs[run], row) && StartOk(w', run, row)
    requires KeepsStart(w, run, i, StepsOf(s, w, run)[i].id, row)
    requires EventOk(s, w, w', run, StepsOf(s, w, run)[i], row)
    requires QueueOk(w')
    ensures Consistent(s, w')
  {
    hide LogOk, QueueOk, RunOnRecord, GateRowOk, StartOk, KeepsStart, Quotable, Template.Render;
    forall other | other in w'.runs ensures RunOnRecord(s, w', other) {
      if other == run {
        ChangeKeepsItsRun(s, w, w', run, i, row);
      } else {
        ChangeKeepsOther(s, w, w', run, i, row, other);
      }
    }
    ChangeKeepsLog(s, w, w', run, i, row);
  }

  // ---------------------------------------------------------------------------------------------
  // One step of a run

  /** Step `i` of the run is the one being worked on. */
  ghost predicate OpenAt(s: Setup, w: World, run: nat, i: nat) {
    && Consistent(s, w)
    && run in w.runs
    && i < |StepsOf(s, w, run)|
    && i <= |w.steps[run]| <= i + 1
    && (forall j :: 0 <= j < i ==> w.steps[run][j].status == Done)
    && (i < |w.steps[run]| ==> w.steps[run][i].status == Waiting || w.steps[run][i].status == InProgress)
  }

  /** How the rows of a run look after step `i` ended in a given way. */
  ghost predicate EndsAs(rows: seq<StepRow>, i: nat, outcome: Outcome) {
    && |rows| == i + 1
    && match outcome
       case Finished => rows[i].status == Done
       case Paused => rows[i].status == Waiting
       case Rejected(cause) => rows[i].status == Skipped && rows[i].error == Some(cause)
       case Raised(cause) => cause.AgentThrew? && (rows[i].status == Waiting || rows[i].status == InProgress)
  }

  /** What working on step `i` leaves alone: every other run, and the steps before. */
  ghost predicate Stepped(s: Setup, w: World, w': World, run: nat, i: nat) {
    && Consistent(s, w')
    && Grows(w, w')
    && w'.runs == w.runs
    && w'.nextRun == w.nextRun
    && run in w.steps && run in w'.steps
    && i <= |w.steps[run]| && i <= |w'.steps[run]| && w'.steps[run][..i] == w.steps[run][..i]
    && (forall other :: other in w.steps && other != run ==> other in w'.steps && w'.steps[other] == w.steps[other])
  }

  lemma SteppedTransitive(s: Setup, a: World, b: World, c: World, run: nat, i: nat)
    requires Stepped(s, a, b, run, i) && Stepped(s, b, c, run, i)
    ensures Stepped(s, a, c, run, i)
  {
    GrowsTransitive(a, b, c);
  }

  /** The run a caller holds: the store may have changed its status meanwhile, nothing else. */
  ghost predicate Holds(w: World, run: Run) {
    && run.id in w.runs
    && w.runs[run.id].id == run.id
    && w.runs[run.id].tenant == run.tenant
    && w.runs[run.id].workflow == run.workflow
    && w.runs[run.id].input == run.input
  }

  lemma NoChangeGrows(w: World, w': World)
    requires w'.queue == w.queue && w.log <= w'.log && w.sessions <= w'.sessions
    ensures Grows(w, w')
    ensures QueueOk(w) ==> QueueOk(w')
  {}

  function Existing(w: World, run: nat, i: nat): Option<StepRow> {
    if run in w.steps && i < |w.steps[run]| then Some(w.steps[run][i]) else None
  }

  lemma RecordChanges(s: Setup, w: World, run: nat, i: nat, row: StepRow)
    requires SetupOk(s) && QueueOk(w) && RunOnRecord(s, w, run)
    requires i < |StepsOf(s, w, run)| && i <= |w.steps[run]| <= i + 1
    requires row.stepId == StepsOf(s, w, run)[i].id
    ensures var w1 := RecordStep(w, run, row);
      && Changes(w, w1, run, i, Merge(Existing(w, run, i), row))
      && QueueOk(w1)
      && w1.steps[run] == w.steps[run][..i] + [Merge(Existing(w, run, i), row)]
  {
    UpsertAtEnd(s, w, run, i, row);
    NoChangeGrows(w, RecordStep(w, run, row));
  }

  lemma ChangeIsAStep(s: Setup, w: World, w': World, run: nat, i: nat, row: StepRow)
    requires Consistent(s, w') && Changes(w, w', run, i, row)
    ensures Stepped(s, w, w', run, i)
  {}

  /** Writing down a new state of the open step. */
  lemma RecordKeeps(s: Setup, w: World, run: nat, i: nat, row: StepRow)
    requires OpenAt(s, w, run, i) && row.stepId == StepsOf(s, w, run)[i].id
    requires var merged := Merge(Existing(w, run, i), row);
      && RowOk(StepsOf(s, w, run)[i], w.runs[run].input, w.steps[run][..i], merged)
      && GateRowOk(w, w.runs[run], merged)
      && StartOk(w, run, merged)
      && KeepsStart(w, run, i, row.stepId, merged)
    ensures var w1 := RecordStep(w, run, row);
      && Stepped(s, w, w1, run, i)
      && w1.steps[run] == w.steps[run][..i] + [Merge(Existing(w, run, i), row)]
  {
    hide LogOk, QueueOk, RowOk, KeepsStart, Stepped;
    var w1, merged := RecordStep(w, run, row), Merge(Existing(w, run, i), row);
    RecordChanges(s, w, run, i, row);
    ChangeKeeps(s, w, w1, run, i, merged);
    ChangeIsAStep(s, w, w1, run, i, merged);
  }

  /** The row of the open step, once its turn was started. */
  ghost predicate LaunchedAt(w: World, run: nat, i: nat, session: nat, prompt: string) {
    && run in w.steps && |w.steps[run]| == i + 1
    && Launched(w.steps[run][i])
    && w.steps[run][i].session == Some(session)
    && w.steps[run][i].prompt == prompt
  }

  function SettledRow(step: Step, prompt: string, session: nat, outcome: AgentOutcome): StepRow
    requires !outcome.Threw?
  {
    if outcome.Held? then RowFor(step, prompt, Waiting).(session := Some(session), awaiting := Some(OnTool))
    else RowFor(step, prompt, Done).(session := Some(session), output := Some(outcome.text))
  }

  lemma SettledRowIsOk(s: Setup, w: World, run: nat, i: nat, session: nat, prompt: string, outcome: AgentOutcome)
    requires OpenAt(s, w, run, i) && LaunchedAt(w, run, i, session, prompt) && !outcome.Threw?
    ensures var step := StepsOf(s, w, run)[i];
      var merged := Merge(Existing(w, run, i), SettledRow(step, prompt, session, outcome));
      && RowOk(step, w.runs[run].input, w.steps[run][..i], merged)
      && GateRowOk(w, w.runs[run], merged)
      && StartOk(w, run, merged)
      && KeepsStart(w, run, i, step.id, merged)
  {
    assert RunOnRecord(s, w, run);
    var step, rows := StepsOf(s, w, run)[i], w.steps[run];
    assert RowOk(step, w.runs[run].input, rows[..i], rows[i]);
    assert StartOk(w, run, rows[i]);
  }

  lemma SettleKeeps(s: Setup, w: World, run: Run, i: nat, prompt: string, session: nat, outcome: AgentOutcome)
    requires OpenAt(s, w, run.id, i) && LaunchedAt(w, run.id, i, session, prompt)
    ensures var (w1, o) := Settle(w, run, StepsOf(s, w, run.id)[i], prompt, session, outcome);
      Stepped(s, w, w1, run.id, i) && EndsAs(w1.steps[run.id], i, o)
  {
    if outcome.Threw? {
      NoChangeGrows(w, w);
    } else {
      var step := StepsOf(s, w, run.id)[i];
      SettledRowIsOk(s, w, run.id, i, session, prompt, outcome);
      RecordKeeps(s, w, run.id, i, SettledRow(step, prompt, session, outcome));
    }
  }

  /** A turn that failed: the row keeps its session, and says why. */
  lemma FailKeeps(s: Setup, w: World, run: nat, i: nat, previous: Option<StepRow>, cause: Cause)
    requires OpenAt(s, w, run, i) && |w.steps[run]| == i + 1 && cause.AgentThrew?
    ensures var w1 := RecordStep(w, run, FailedRow(StepsOf(s, w, run)[i], previous, cause));
      && Stepped(s, w, w1, run, i)
      && |w1.steps[run]| == i + 1 && w1.steps[run][i].status == Broken && w1.steps[run][i].error == Some(cause)
  {
    hide LogOk, QueueOk, Quotable, Template.Render;
    assert RunOnRecord(s, w, run);
    RecordKeeps(s, w, run, i, FailedRow(StepsOf(s, w, run)[i], previous, cause));
  }

  /** A start of step `i` on the log is on record as row `i`. */
  lemma StartIsRow(s: Setup, w: World, run: nat, i: nat, k: nat)
    requires Consistent(s, w) && run in w.runs && i < |StepsOf(s, w, run)|
    requires k < |w.log| && IsRun(w.log[k], run, StepsOf(s, w, run)[i].id)
    ensures i < |w.steps[run]| && RunIsRow(s, w, k, i)
  {
    assert RunOk(s, w, k);
    var n :| 0 <= n < |Rows(w, run)| && n < |StepsOf(s, w, run)| && RunIsRow(s, w, k, n);
    assert RunOnRecord(s, w, run);
    assert RowOk(StepsOf(s, w, run)[n], w.runs[run].input, w.steps[run][..n], w.steps[run][n]);
    if n != i {
      IdsAreDistinct(StepsOf(s, w, run), Min(n, i), Max(n, i));
    }
  }

  /** A step with no row, or one that only waits for its own gate, has not been started. */
  lemma NotStartedYet(s: Setup, w: World, run: nat, i: nat)
    requires OpenAt(s, w, run, i)
    requires i < |w.steps[run]| ==> !Launched(w.steps[run][i])
    ensures !Ran(w.log, run, StepsOf(s, w, run)[i].id)
  {
    if Ran(w.log, run, StepsOf(s, w, run)[i].id) {
      var k :| 0 <= k < |w.log| && IsRun(w.log[k], run, StepsOf(s, w, run)[i].id);
      StartIsRow(s, w, run, i, k);
    }
  }

  /** What the walk holds when it comes to step `i`: nothing started for it, or a turn that is held. */
  ghost predicate ReadyAt(s: Setup, w: World, run: Run, i: nat) {
    && OpenAt(s, w, run.id, i)
    && Holds(w, run)
    && (i < |w.steps[run.id]| ==> w.steps[run.id][i].status == Waiting)
  }

  ghost predicate Prompted(s: Setup, w: World, run: Run, i: nat, prompt: string)
    requires ReadyAt(s, w, run, i)
  {
    && Template.Render(StepsOf(s, w, run.id)[i].prompt, Quotable(run.input, w.steps[run.id][..i])) == Ok(prompt)
    && (i < |w.steps[run.id]| ==> w.steps[run.id][i].prompt == prompt)
  }

  lemma OpenedChanges(s: Setup, w: World, run: Run, i: nat, prompt: string)
    requires ReadyAt(s, w, run, i)
    ensures var step := StepsOf(s, w, run.id)[i];
      var row := Merge(Existing(w, run.id, i), RowFor(step, prompt, InProgress).(session := Some(w.sessions + 1)));
      var w1 := Opened(w, run, step, prompt);
      && Changes(w, w1, run.id, i, row)
      && QueueOk(w1)
      && row.status == InProgress && row.session == Some(w.sessions + 1) && row.prompt == prompt
      && StartOk(w1, run.id, row)
      && LaunchedAt(w1, run.id, i, w.sessions + 1, prompt)
  {
    hide LogOk, RowsOk, Template.Render, Quotable;
    var step := StepsOf(s, w, run.id)[i];
    var row := RowFor(step, prompt, InProgress).(session := Some(w.sessions + 1));
    assert RunOnRecord(s, w, run.id);
    UpsertAtEnd(s, w, run.id, i, row);
    var w1 := Opened(w, run, step, prompt);
    assert w1.log[|w.log|] == AgentRan(run.id, step.id, w.sessions + 1, prompt);
    NoChangeGrows(w, w1);
  }

  lemma OpenedKeeps(s: Setup, w: World, run: Run, i: nat, prompt: string)
    requires ReadyAt(s, w, run, i) && Prompted(s, w, run, i, prompt)
    requires i < |w.steps[run.id]| ==> !Launched(w.steps[run.id][i])
    requires StepsOf(s, w, run.id)[i].approve ==>
      ApprovedBefore(w, |w.log|, w.runs[run.id], StepsOf(s, w, run.id)[i].id, prompt)
    ensures var w1 := Opened(w, run, StepsOf(s, w, run.id)[i], prompt);
      && Stepped(s, w, w1, run.id, i)
      && OpenAt(s, w1, run.id, i)
      && LaunchedAt(w1, run.id, i, w.sessions + 1, prompt)
  {
    hide LogOk, QueueOk, RunOnRecord, RowsOk, ApprovedBefore, Template.Render, Quotable;
    var step := StepsOf(s, w, run.id)[i];
    var row := Merge(Existing(w, run.id, i), RowFor(step, prompt, InProgress).(session := Some(w.sessions + 1)));
    var w1 := Opened(w, run, step, prompt);
    OpenedChanges(s, w, run, i, prompt);
    NotStartedYet(s, w, run.id, i);
    if step.approve {
      ApprovedGrows(w, w1, |w.log|, w.runs[run.id], step.id, prompt);
    }
    ChangeKeeps(s, w, w1, run.id, i, row);
    ChangeIsAStep(s, w, w1, run.id, i, row);
  }

  lemma LaunchKeeps(s: Setup, w: World, run: Run, i: nat, prompt: string)
    requires ReadyAt(s, w, run, i) && Prompted(s, w, run, i, prompt)
    requires i < |w.steps[run.id]| ==> !Launched(w.steps[run.id][i])
    requires StepsOf(s, w, run.id)[i].approve ==>
      ApprovedBefore(w, |w.log|, w.runs[run.id], StepsOf(s, w, run.id)[i].id, prompt)
    ensures var (w1, o) := Launch(s, w, run, StepsOf(s, w, run.id)[i], prompt);
      Stepped(s, w, w1, run.id, i) && EndsAs(w1.steps[run.id], i, o)
  {
    hide LogOk, QueueOk, RunOnRecord, Settle, Opened, ApprovedBefore;
    var step := StepsOf(s, w, run.id)[i];
    var w1 := Opened(w, run, step, prompt);
    OpenedKeeps(s, w, run, i, prompt);
    SettleKeeps(s, w1, run, i, prompt, w.sessions + 1, s.agent(w.calls));
    SteppedTransitive(s, w, w1, Launch(s, w, run, step, prompt).0, run.id, i);
  }

  lemma ReopenedKeeps(s: Setup, w: World, run: Run, i: nat, session: nat)
    requires ReadyAt(s, w, run, i) && |w.steps[run.id]| == i + 1
    requires Launched(w.steps[run.id][i]) && w.steps[run.id][i].session == Some(session)
    ensures var w1 := Reopened(w, run, StepsOf(s, w, run.id)[i], session);
      Stepped(s, w, w1, run.id, i) && w1.steps == w.steps
  {
    hide LogOk, Quotable, Template.Render, Stepped;
    var step, rows := StepsOf(s, w, run.id)[i], w.steps[run.id];
    var w1 := Reopened(w, run, step, session);
    assert RunOnRecord(s, w, run.id);
    assert RowOk(step, run.input, rows[..i], rows[i]);
    assert rows == rows[..i] + [rows[i]];
    NoChangeGrows(w, w1);
    var j :| 0 <= j < |w.log| && w.log[j] == AgentRan(run.id, step.id, session, rows[i].prompt);
    assert IsRun(w1.log[j], run.id, step.id);
    assert ResumeOk(w1.log, |w.log|);
    GateRowGrows(w, w1, w.runs[run.id], rows[i]);
    ChangeKeeps(s, w, w1, run.id, i, rows[i]);
    ChangeIsAStep(s, w, w1, run.id, i, rows[i]);
  }

  lemma ContinueKeeps(s: Setup, w: World, run: Run, i: nat, prompt: string, session: nat)
    requires ReadyAt(s, w, run, i) && LaunchedAt(w, run.id, i, session, prompt)
    ensures var (w1, o) := Continue(s, w, run, StepsOf(s, w, run.id)[i], prompt, session);
      Stepped(s, w, w1, run.id, i) && EndsAs(w1.steps[run.id], i, o)
  {
    var step := StepsOf(s, w, run.id)[i];
    var w1 := Reopened(w, run, step, session);
    ReopenedKeeps(s, w, run, i, session);
    SettleKeeps(s, w1, run, i, prompt, session, s.agent(w.calls));
    SteppedTransitive(s, w, w1, Continue(s, w, run, step, prompt, session).0, run.id, i);
  }

  lemma GateIsOnTheLog(w: World, run: Run, row: StepRow, q: nat)
    requires QueueOk(w) && q < |w.queue.rows| && GateRow(w.queue.rows[q], run, row)
    ensures Approvals.Lookup(w.queue, run.tenant, row.approval.value) == Some(w.queue.rows[q])
    ensures w.queue.rows[q].status == Approvals.Approved || w.queue.rows[q].status == Approvals.ChangesRequested ==>
      ApprovedBefore(w, |w.log|, run, row.stepId, row.prompt)
  {
    Approvals.FindIsTheRow(w.queue, q);
    var a := w.queue.rows[q];
    if a.status != Approvals.Pending {
      var j :| 0 <= j < |w.log| && w.log[j] == Decided(a.id, a.status);
      if a.status != Approvals.Rejected {
        assert Approves(w.log[j], w.queue.rows[q], run, row.stepId, row.prompt);
      }
    }
  }

  /** The gate a step waits for is in the queue, where the runner finds it. */
  lemma GateIsInTheQueue(w: World, run: Run, row: StepRow)
    requires QueueOk(w) && GateRowOk(w, run, row)
    requires row.status == Waiting && row.awaiting == Some(OnStep) && row.approval.Some?
    ensures var found := Approvals.Lookup(w.queue, run.tenant, row.approval.value);
      && found.Some?
      && (found.value.status == Approvals.Approved || found.value.status == Approvals.ChangesRequested ==>
            ApprovedBefore(w, |w.log|, run, row.stepId, row.prompt))
  {
    var q :| 0 <= q < |w.queue.rows| && GateRow(w.queue.rows[q], run, row);
    GateIsOnTheLog(w, run, row, q);
  }

  lemma OpenRow(s: Setup, w: World, run: nat, i: nat)
    requires OpenAt(s, w, run, i) && i < |w.steps[run]|
    ensures RowOk(StepsOf(s, w, run)[i], w.runs[run].input, w.steps[run][..i], w.steps[run][i])
    ensures GateRowOk(w, w.runs[run], w.steps[run][i]) && StartOk(w, run, w.steps[run][i])
    ensures w.steps[run][i].status == Waiting ==>
      Launched(w.steps[run][i]) || (w.steps[run][i].awaiting == Some(OnStep) && w.steps[run][i].approval.Some?)
  {
    assert RunOnRecord(s, w, run);
    var row := w.steps[run][i];
    if row.status == Waiting {
      assert row.awaiting.value == OnStep || row.awaiting.value == OnTool;
    }
  }

  lemma GoIs(s: Setup, w: World, run: Run, step: Step, prompt: string, previous: Option<StepRow>)
    requires Gate(s, w, run, step, prompt, previous).1.Go?
    ensures Gate(s, w, run, step, prompt, previous).0 == w
    ensures previous.Some? && previous.value.status == Waiting && previous.value.approval.Some?
    ensures var found := Approvals.Lookup(w.queue, run.tenant, previous.value.approval.value);
      found.Some? && (found.value.status == Approvals.Approved || found.value.status == Approvals.ChangesRequested)
  {}

  /** An answer that lets the step run was given by a person, on the prompt that will be sent, and was not a rejection. */
  lemma GoMeansApproved(s: Setup, w: World, run: Run, i: nat, prompt: string)
    requires ReadyAt(s, w, run, i) && Prompted(s, w, run, i, prompt) && s.hasQueue
    requires i < |w.steps[run.id]| ==> !Launched(w.steps[run.id][i])
    requires Gate(s, w, run, StepsOf(s, w, run.id)[i], prompt, Existing(w, run.id, i)).1.Go?
    ensures Gate(s, w, run, StepsOf(s, w, run.id)[i], prompt, Existing(w, run.id, i)).0 == w
    ensures ApprovedBefore(w, |w.log|, w.runs[run.id], StepsOf(s, w, run.id)[i].id, prompt)
  {
    GoIs(s, w, run, StepsOf(s, w, run.id)[i], prompt, Existing(w, run.id, i));
    OpenRow(s, w, run.id, i);
    GateIsInTheQueue(w, w.runs[run.id], w.steps[run.id][i]);
  }

  lemma DeclineKeeps(s: Setup, w: World, run: Run, i: nat, prompt: string, row: StepRow)
    requires ReadyAt(s, w, run, i) && Prompted(s, w, run, i, prompt) && |w.steps[run.id]| == i + 1
    requires !Launched(w.steps[run.id][i])
    requires row.error.Some? && row.error.value.Declined?
    requires row == RowFor(StepsOf(s, w, run.id)[i], prompt, Skipped).(approval := row.approval, error := row.error)
    ensures var w1 := RecordStep(w, run.id, row);
      Stepped(s, w, w1, run.id, i) && EndsAs(w1.steps[run.id], i, Rejected(row.error.value))
  {
    hide LogOk, QueueOk, RowsOk, Quotable, Template.Render;
    NotStartedYet(s, w, run.id, i);
    RecordKeeps(s, w, run.id, i, row);
  }

  /** A session nobody else has cannot have a decision on file, so the request is granted. */
  lemma GateRequestIsGranted(w: World, request: Approvals.Request)
    requires QueueOk(w) && request.session == w.sessions + 1
    ensures var asked := Approvals.RequestAll(w.queue, [request]);
      && asked.refused.None?
      && asked.queue == Approvals.Queue(w.queue.rows + [Approvals.NewRow(w.queue.clock + 1, request)], w.queue.clock + 1)
      && asked.created == [Approvals.NewRow(w.queue.clock + 1, request)]
      && Approvals.Sound(asked.queue) && Approvals.Extends(w.queue, asked.queue)
  {
    Approvals.RequestAppends(w.queue, [request]);
    Approvals.FreshRequestsAreAllCreated(w.queue, [request]);
    Approvals.RequestKeeps(w.queue, [request]);
  }

  function GateWait(w: World, step: Step, prompt: string): StepRow {
    RowFor(step, prompt, Waiting).(
      session := Some(w.sessions + 1), awaiting := Some(OnStep), approval := Some(w.queue.clock + 1))
  }

  /** What asking a person changes. */
  lemma AskIs(w: World, run: Run, step: Step, prompt: string)
    requires QueueOk(w)
    ensures var approval := Approvals.NewRow(w.queue.clock + 1, GateRequest(run, step, w.sessions + 1, prompt));
      var (w1, answer) := Ask(w, run, step, prompt);
      && answer == Stop(Paused)
      && w1 == RecordStep(w, run.id, GateWait(w, step, prompt)).(
           sessions := w.sessions + 1, queue := Approvals.Queue(w.queue.rows + [approval], w.queue.clock + 1))
      && QueueOk(w1)
      && Grows(w, w1)
      && w1.queue.rows[|w.queue.rows|] == approval
  {
    GateRequestIsGranted(w, GateRequest(run, step, w.sessions + 1, prompt));
  }

  /** The world after a step's gate was put in the queue. */
  lemma AskChanges(s: Setup, w: World, run: Run, i: nat, prompt: string)
    requires SetupOk(s) && QueueOk(w) && RunOnRecord(s, w, run.id) && Holds(w, run)
    requires i < |StepsOf(s, w, run.id)| && i <= |w.steps[run.id]| <= i + 1
    ensures var step := StepsOf(s, w, run.id)[i];
      var row := Merge(Existing(w, run.id, i), GateWait(w, step, prompt));
      Asked(w, Ask(w, run, step, prompt).0, run, i, step, prompt, row)
  {
    var step := StepsOf(s, w, run.id)[i];
    AskIs(w, run, step, prompt);
    UpsertAtEnd(s, w, run.id, i, GateWait(w, step, prompt));
    var w1, merged := Ask(w, run, step, prompt).0, Merge(Existing(w, run.id, i), GateWait(w, step, prompt));
    assert GateRow(w1.queue.rows[|w.queue.rows|], w.runs[run.id], merged);
  }

  ghost predicate Asked(w: World, w1: World, run: Run, i: nat, step: Step, prompt: string, row: StepRow)
    requires run.id in w.runs
  {
    && Changes(w, w1, run.id, i, row)
    && w1.log == w.log
    && row.stepId == step.id
    && row.agent == step.agent
    && row.prompt == prompt
    && row.status == Waiting && row.awaiting == Some(OnStep) && row.approval.Some? && row.error.None?
    && GateRowOk(w1, w.runs[run.id], row)
  }

  lemma AskKeeps(s: Setup, w: World, run: Run, i: nat, prompt: string)
    requires ReadyAt(s, w, run, i) && Prompted(s, w, run, i, prompt)
    requires i < |w.steps[run.id]| ==> !Launched(w.steps[run.id][i])
    ensures var (w1, answer) := Ask(w, run, StepsOf(s, w, run.id)[i], prompt);
      answer == Stop(Paused) && Stepped(s, w, w1, run.id, i) && EndsAs(w1.steps[run.id], i, Paused)
  {
    hide LogOk, QueueOk, RowsOk, Quotable;
    var step := StepsOf(s, w, run.id)[i];
    var w1, row := Ask(w, run, step, prompt).0, Merge(Existing(w, run.id, i), GateWait(w, step, prompt));
    AskIs(w, run, step, prompt);
    AskChanges(s, w, run, i, prompt);
    NotStartedYet(s, w, run.id, i);
    ChangeKeeps(s, w, w1, run.id, i, row);
    ChangeIsAStep(s, w, w1, run.id, i, row);
  }

  lemma GateKeeps(s: Setup, w: World, run: Run, i: nat, prompt: string)
    requires ReadyAt(s, w, run, i) && Prompted(s, w, run, i, prompt) && s.hasQueue
    requires i < |w.steps[run.id]| ==> !Launched(w.steps[run.id][i])
    ensures var (w1, answer) := Gate(s, w, run, StepsOf(s, w, run.id)[i], prompt, Existing(w, run.id, i));
      if answer.Go? then w1 == w && ApprovedBefore(w, |w.log|, w.runs[run.id], StepsOf(s, w, run.id)[i].id, prompt)
      else Stepped(s, w, w1, run.id, i) && EndsAs(w1.steps[run.id], i, answer.outcome)
  {
    hide LogOk, QueueOk, RunOnRecord, RowsOk, Prompted, ApprovedBefore, Approvals.RequestAll, Ask;
    var step := StepsOf(s, w, run.id)[i];
    var (w1, answer) := Gate(s, w, run, step, prompt, Existing(w, run.id, i));
    if answer.Go? {
      GoMeansApproved(s, w, run, i, prompt);
    } else if i < |w.steps[run.id]| && w.steps[run.id][i].approval.Some? {
      if answer.outcome.Rejected? {
        var row := w1.steps[run.id][i];
        var approval := Approvals.Lookup(w.queue, run.tenant, w.steps[run.id][i].approval.value).value;
        DeclineKeeps(s, w, run, i, prompt,
          RowFor(step, prompt, Skipped).(approval := Some(approval.id), error := Some(answer.outcome.cause)));
      } else {
        NoChangeGrows(w, w);
      }
    } else {
      AskKeeps(s, w, run, i, prompt);
    }
  }

  /** A step that only waits adds nothing to what can be quoted. */
  lemma WaitingQuotesNothing(input: string, rows: seq<StepRow>, i: nat)
    requires i <= |rows| <= i + 1
    requires i < |rows| ==> rows[i].status == Waiting
    ensures Quotable(input, rows) == Quotable(input, rows[..i])
  {
    if i < |rows| {
      assert rows[..|rows| - 1] == rows[..i];
    } else {
      assert rows[..i] == rows;
    }
  }

  lemma EarlierStepsAnswered(s: Setup, w: World, run: nat, i: nat, j: nat)
    requires OpenAt(s, w, run, i) && j < i
    ensures var row := w.steps[run][..i][j];
      row.stepId == StepsOf(s, w, run)[j].id && row.status == Done && row.output.Some?
  {
    assert RunOnRecord(s, w, run);
    assert RowOk(StepsOf(s, w, run)[j], w.runs[run].input, w.steps[run][..j], w.steps[run][j]);
  }

  /** Rendering is total, and a step asked for again gets the prompt it had. */
  lemma ReadyPrompt(s: Setup, w: World, run: Run, i: nat)
    requires ReadyAt(s, w, run, i)
    ensures var step := StepsOf(s, w, run.id)[i];
      && FindStep(Rows(w, run.id), step.id) == Existing(w, run.id, i)
      && Template.Render(step.prompt, Quotable(run.input, Rows(w, run.id))).Ok?
      && Prompted(s, w, run, i, Template.Render(step.prompt, Quotable(run.input, Rows(w, run.id))).value)
  {
    var steps, rows := StepsOf(s, w, run.id), w.steps[run.id];
    assert RunOnRecord(s, w, run.id);
    UpsertAtEnd(s, w, run.id, i, RowFor(steps[i], "", InProgress));
    WaitingQuotesNothing(run.input, rows, i);
    assert i < |rows| ==> RowOk(steps[i], run.input, rows[..i], rows[i]);
    forall j | 0 <= j < i
      ensures rows[..i][j].stepId == steps[j].id && rows[..i][j].status == Done && rows[..i][j].output.Some?
    {
      EarlierStepsAnswered(s, w, run.id, i, j);
    }
    AcceptedPromptsRender(steps, run.input, rows[..i]);
  }

  lemma TakeStepKeeps(s: Setup, w: World, run: Run, i: nat)
    requires ReadyAt(s, w, run, i)
    ensures var (w1, o) := TakeStep(s, w, run, StepsOf(s, w, run.id)[i]);
      Stepped(s, w, w1, run.id, i) && EndsAs(w1.steps[run.id], i, o)
  {
    hide LogOk, QueueOk, Quotable, Gate, Launch, Continue, Stepped, EndsAs, ApprovedBefore;
    var step, rows := StepsOf(s, w, run.id)[i], w.steps[run.id];
    ReadyPrompt(s, w, run, i);
    var prompt := Template.Render(step.prompt, Quotable(run.input, Rows(w, run.id))).value;
    assert RunOnRecord(s, w, run.id);
    assert i < |rows| ==> RowOk(step, run.input, rows[..i], rows[i]);
    if HeldByAgent(Existing(w, run.id, i)) {
      ContinueKeeps(s, w, run, i, prompt, rows[i].session.value);
    } else if step.approve {
      assert step in StepsOf(s, w, run.id);
      GateKeeps(s, w, run, i, prompt);
      if Gate(s, w, run, step, prompt, Existing(w, run.id, i)).1.Go? {
        LaunchKeeps(s, w, run, i, prompt);
      }
    } else {
      LaunchKeeps(s, w, run, i, prompt);
    }
  }

  // ---------------------------------------------------------------------------------------------
  // A run, and every schedule of calls

  /** Every other run has settled. */
  ghost predicate OthersSettled(s: Setup, w: World, run: nat) {
    forall other :: other in w.runs && other != run ==> Settled(s, w, other)
  }

  /** Where a walk may begin: the steps before `i` are done, and what follows has not begun or waits. */
  ghost predicate Walkable(s: Setup, w: World, run: Run, i: nat) {
    && Consistent(s, w)
    && Holds(w, run)
    && OthersSettled(s, w, run.id)
    && i <= |StepsOf(s, w, run.id)|
    && i <= |w.steps[run.id]|
    && (forall j :: 0 <= j < i ==> w.steps[run.id][j].status == Done)
    && (forall j :: i <= j < |w.steps[run.id]| ==> w.steps[run.id][j].status == Done || w.steps[run.id][j].status == Waiting)
  }

  /** What one call leaves alone. */
  ghost predicate OnlyRun(w: World, w': World, run: nat) {
    && Grows(w, w')
    && w'.nextRun == w.nextRun
    && w'.runs.Keys == w.runs.Keys
    && (forall other :: other in w.runs && other != run ==> w'.runs[other] == w.runs[other])
    && (forall other :: other in w.steps && other != run ==> other in w'.steps && w'.steps[other] == w.steps[other])
  }

  lemma SteppedSettles(s: Setup, w: World, w': World, run: nat, i: nat)
    requires Stepped(s, w, w', run, i) && OthersSettled(s, w, run)
    ensures OthersSettled(s, w', run)
  {
    forall other | other in w'.runs && other != run ensures Settled(s, w', other) {
      assert Settled(s, w, other);
    }
  }

  /** Changing the status of a run changes nothing else. */
  lemma StatusKeeps(s: Setup, w: World, run: nat, status: RunStatus, error: Option<Cause>)
    requires Consistent(s, w) && run in w.runs && OthersSettled(s, w, run)
    requires status == Completed || status == Failed || error.None?
    requires StatusOk(status, error, StepsOf(s, w, run), w.steps[run])
    ensures var w1 := SetStatus(w, run, status, error); Inv(s, w1) && OnlyRun(w, w1, run)
  {
    hide LogOk, QueueOk, RunOnRecord, StatusOk;
    var w1 := SetStatus(w, run, status, error);
    NoChangeGrows(w, w1);
    StatusKeepsRecords(s, w, run, status, error);
    StatusKeepsLog(s, w, run, status, error);
    forall other | other in w1.runs ensures Settled(s, w1, other) {
      if other != run { assert Settled(s, w, other); }
    }
  }

  lemma StatusKeepsRecords(s: Setup, w: World, run: nat, status: RunStatus, error: Option<Cause>)
    requires Consistent(s, w) && run in w.runs
    ensures var w1 := SetStatus(w, run, status, error); forall other :: other in w1.runs ==> RunOnRecord(s, w1, other)
  {
    var w1 := SetStatus(w, run, status, error);
    forall other | other in w1.runs ensures RunOnRecord(s, w1, other) {
      assert RunOnRecord(s, w, other);
      forall i | 0 <= i < |w1.steps[other]|
        ensures GateRowOk(w1, w1.runs[other], w1.steps[other][i]) && StartOk(w1, other, w1.steps[other][i])
      {
        StatusKeepsGate(w, w1, w.runs[other], w1.runs[other], w.steps[other][i]);
      }
    }
  }

  lemma StatusKeepsGate(w: World, w1: World, run: Run, run1: Run, row: StepRow)
    requires GateRowOk(w, run, row) && w1.queue == w.queue && run1.id == run.id && run1.tenant == run.tenant
    ensures GateRowOk(w1, run1, row)
  {
    if row.status == Waiting && row.awaiting == Some(OnStep) && row.approval.Some? {
      var q :| 0 <= q < |w.queue.rows| && GateRow(w.queue.rows[q], run, row);
      assert GateRow(w1.queue.rows[q], run1, row);
    }
  }

  lemma StatusKeepsLog(s: Setup, w: World, run: nat, status: RunStatus, error: Option<Cause>)
    requires Consistent(s, w) && run in w.runs
    ensures LogOk(s, SetStatus(w, run, status, error))
  {
    var w1 := SetStatus(w, run, status, error);
    forall k | 0 <= k < |w1.log| && w1.log[k].AgentRan? ensures RunOk(s, w1, k) {
      StatusKeepsRun(s, w, run, status, error, k);
    }
  }

  lemma StatusKeepsRun(s: Setup, w: World, run: nat, status: RunStatus, error: Option<Cause>, k: nat)
    requires run in w.runs && k < |w.log| && w.log[k].AgentRan? && RunOk(s, w, k)
    ensures RunOk(s, SetStatus(w, run, status, error), k)
  {
    var w1, e := SetStatus(w, run, status, error), w.log[k];
    var n :| 0 <= n < |Rows(w, e.run)| && n < |StepsOf(s, w, e.run)| && RunIsRow(s, w, k, n);
    if StepsOf(s, w, e.run)[n].approve {
      var j, q :| 0 <= j < k && j < |w.log| && 0 <= q < |w.queue.rows|
        && Approves(w.log[j], w.queue.rows[q], w.runs[e.run], e.step, e.prompt);
      assert Approves(w1.log[j], w1.queue.rows[q], w1.runs[e.run], e.step, e.prompt);
    }
    assert RunIsRow(s, w1, k, n);
  }

  lemma OnlyRunTransitive(a: World, b: World, c: World, run: nat)
    requires OnlyRun(a, b, run) && OnlyRun(b, c, run)
    ensures OnlyRun(a, c, run)
  {
    GrowsTransitive(a, b, c);
  }

  lemma SteppedIsOnlyRun(s: Setup, w: World, w': World, run: nat, i: nat)
    requires Stepped(s, w, w', run, i)
    ensures OnlyRun(w, w', run)
  {}

  /** The walk is either past a finished step, or ready to work on the next one. */
  lemma WalkCase(s: Setup, w: World, run: Run, i: nat)
    requires Walkable(s, w, run, i) && i < |StepsOf(s, w, run.id)|
    ensures FindStep(Rows(w, run.id), StepsOf(s, w, run.id)[i].id) == Existing(w, run.id, i)
    ensures if i < |w.steps[run.id]| && w.steps[run.id][i].status == Done then Walkable(s, w, run, i + 1)
      else ReadyAt(s, w, run, i)
  {
    assert RunOnRecord(s, w, run.id);
    if i < |w.steps[run.id]| {
      StepIndexIs(s, w, run.id, i);
    } else {
      UpsertAtEnd(s, w, run.id, i, RowFor(StepsOf(s, w, run.id)[i], "", InProgress));
    }
  }

  /** What a step's end means for the run. */
  lemma StepEnds(s: Setup, w: World, w1: World, run: Run, i: nat, outcome: Outcome)
    requires ReadyAt(s, w, run, i) && OthersSettled(s, w, run.id)
    requires Stepped(s, w, w1, run.id, i) && EndsAs(w1.steps[run.id], i, outcome)
    ensures OthersSettled(s, w1, run.id)
    ensures outcome.Finished? ==> Walkable(s, w1, run, i + 1)
    ensures outcome.Paused? ==> StatusOk(Awaiting, None, StepsOf(s, w1, run.id), w1.steps[run.id])
    ensures outcome.Rejected? ==> StatusOk(Failed, Some(outcome.cause), StepsOf(s, w1, run.id), w1.steps[run.id])
    ensures outcome.Raised? ==> OpenAt(s, w1, run.id, i)
  {
    hide LogOk, QueueOk, RowOk, GateRowOk, StartOk, Grows, Settled;
    SteppedSettles(s, w, w1, run.id, i);
    var rows := w1.steps[run.id];
    forall j | 0 <= j < i ensures rows[j].status == Done {
      assert rows[j] == rows[..i][j] == w.steps[run.id][..i][j] == w.steps[run.id][j];
    }
  }

  lemma StatusAfter(s: Setup, w: World, w1: World, run: nat, status: RunStatus, error: Option<Cause>)
    requires Consistent(s, w1) && run in w1.runs && OthersSettled(s, w1, run) && OnlyRun(w, w1, run)
    requires status == Completed || status == Failed || error.None?
    requires StatusOk(status, error, StepsOf(s, w1, run), w1.steps[run])
    ensures var w2 := SetStatus(w1, run, status, error); Inv(s, w2) && OnlyRun(w, w2, run)
  {
    StatusKeeps(s, w1, run, status, error);
    OnlyRunTransitive(w, w1, SetStatus(w1, run, status, error), run);
  }

  lemma FailedStepKeeps(s: Setup, w: World, w1: World, run: nat, i: nat, previous: Option<StepRow>, cause: Cause)
    requires OpenAt(s, w1, run, i) && |w1.steps[run]| == i + 1 && cause.AgentThrew?
    requires OthersSettled(s, w1, run) && OnlyRun(w, w1, run)
    ensures var w2 := RecordStep(w1, run, FailedRow(StepsOf(s, w1, run)[i], previous, cause));
      && Consistent(s, w2) && run in w2.runs && OthersSettled(s, w2, run) && OnlyRun(w, w2, run)
      && StatusOk(Failed, Some(cause), StepsOf(s, w2, run), w2.steps[run])
  {
    hide LogOk, QueueOk, RunOnRecord, RowsOk, OnlyRun, OthersSettled;
    var w2 := RecordStep(w1, run, FailedRow(StepsOf(s, w1, run)[i], previous, cause));
    FailKeeps(s, w1, run, i, previous, cause);
    SteppedSettles(s, w1, w2, run, i);
    SteppedIsOnlyRun(s, w1, w2, run, i);
    OnlyRunTransitive(w, w1, w2, run);
  }

  lemma RaisedKeeps(s: Setup, w: World, w1: World, run: nat, i: nat, previous: Option<StepRow>, cause: Cause)
    requires OpenAt(s, w1, run, i) && |w1.steps[run]| == i + 1 && cause.AgentThrew?
    requires OthersSettled(s, w1, run) && OnlyRun(w, w1, run)
    ensures var w2 := RecordStep(w1, run, FailedRow(StepsOf(s, w1, run)[i], previous, cause));
      var w3 := SetStatus(w2, run, Failed, Some(cause));
      Inv(s, w3) && OnlyRun(w, w3, run)
  {
    FailedStepKeeps(s, w, w1, run, i, previous, cause);
    StatusAfter(s, w, RecordStep(w1, run, FailedRow(StepsOf(s, w1, run)[i], previous, cause)), run, Failed, Some(cause));
  }

  lemma WalkDone(s: Setup, w: World, run: Run)
    requires Holds(w, run) && run.id in w.steps && Walkable(s, w, run, |w.steps[run.id]|)
    requires |w.steps[run.id]| == |StepsOf(s, w, run.id)|
    ensures var w1 := SetStatus(w, run.id, Completed, None); Inv(s, w1) && OnlyRun(w, w1, run.id)
  {
    NoChangeGrows(w, w);
    StatusAfter(s, w, w, run.id, Completed, None);
  }

  lemma StopKeeps(s: Setup, w: World, w1: World, run: Run, i: nat, outcome: Outcome)
    requires ReadyAt(s, w, run, i) && OthersSettled(s, w, run.id)
    requires Stepped(s, w, w1, run.id, i) && EndsAs(w1.steps[run.id], i, outcome) && !outcome.Finished?
    ensures var w2 := Stopped(w1, run, StepsOf(s, w, run.id)[i], Existing(w, run.id, i), outcome); Inv(s, w2) && OnlyRun(w, w2, run.id)
  {
    hide LogOk, QueueOk, RunOnRecord, OthersSettled, Inv, OnlyRun, StatusOk;
    StepEnds(s, w, w1, run, i, outcome);
    SteppedIsOnlyRun(s, w, w1, run.id, i);
    if outcome.Raised? {
      var step := StepsOf(s, w, run.id)[i];
      RaisedKeeps(s, w, w1, run.id, i, Existing(w, run.id, i), outcome.cause);
    } else if outcome.Paused? {
      StatusAfter(s, w, w1, run.id, Awaiting, None);
    } else {
      StatusAfter(s, w, w1, run.id, Failed, Some(outcome.cause));
    }
  }

  /** One step of the walk. */
  lemma DriveOne(s: Setup, w: World, config: Config, run: Run, i: nat)
    requires ReadyAt(s, w, run, i) && OthersSettled(s, w, run.id)
    requires config.steps == StepsOf(s, w, run.id)
    ensures var (w1, outcome) := TakeStep(s, w, run, config.steps[i]);
      if outcome.Finished? then Walkable(s, w1, run, i + 1) && OnlyRun(w, w1, run.id) && w1.runs == w.runs
      else var w2 := Stopped(w1, run, config.steps[i], Existing(w, run.id, i), outcome); Inv(s, w2) && OnlyRun(w, w2, run.id)
  {
    var (w1, outcome) := TakeStep(s, w, run, config.steps[i]);
    TakeStepKeeps(s, w, run, i);
    if outcome.Finished? {
      StepEnds(s, w, w1, run, i, outcome);
      SteppedIsOnlyRun(s, w, w1, run.id, i);
    } else {
      StopKeeps(s, w, w1, run, i, outcome);
    }
  }

  lemma {:induction false} DriveKeeps(s: Setup, w: World, config: Config, run: Run, i: nat)
    requires Walkable(s, w, run, i) && config.steps == StepsOf(s, w, run.id)
    ensures Inv(s, Drive(s, w, config, run, i)) && OnlyRun(w, Drive(s, w, config, run, i), run.id)
    decreases |config.steps| - i
  {
    hide TakeStep, Inv, OnlyRun, Stopped;
    var end := Drive(s, w, config, run, i);
    if i == |config.steps| {
      assert end == SetStatus(w, run.id, Completed, None);
      assert RunOnRecord(s, w, run.id);
      WalkDone(s, w, run);
      return;
    }
    WalkCase(s, w, run, i);
    if i < |w.steps[run.id]| && w.steps[run.id][i].status == Done {
      assert end == Drive(s, w, config, run, i + 1);
      DriveKeeps(s, w, config, run, i + 1);
      return;
    }
    DriveUnfolds(s, w, config, run, i);
    DriveOne(s, w, config, run, i);
    var (w1, outcome) := TakeStep(s, w, run, config.steps[i]);
    if outcome.Finished? {
      assert end == Drive(s, w1, config, run, i + 1);
      DriveKeeps(s, w1, config, run, i + 1);
      OnlyRunTransitive(w, w1, end, run.id);
    } else {
      assert end == Stopped(w1, run, config.steps[i], Existing(w, run.id, i), outcome);
    }
  }

  // ---------------------------------------------------------------------------------------------
  // Every schedule of calls

  lemma BeginKeepsRecord(s: Setup, w: World, tenant: string, workflow: string, input: string, agents: set<string>, run: nat)
    requires Inv(s, w) && CanStart(s, workflow, agents)
    requires run in Begin(w, tenant, workflow, input).runs
    ensures RunOnRecord(s, Begin(w, tenant, workflow, input), run)
  {
    hide LogOk, QueueOk, Quotable, Template.Render;
    var w1 := Begin(w, tenant, workflow, input);
    if run != w.nextRun {
      assert RunOnRecord(s, w, run);
      forall i | 0 <= i < |w1.steps[run]|
        ensures GateRowOk(w1, w1.runs[run], w1.steps[run][i]) && StartOk(w1, run, w1.steps[run][i])
      {
        StatusKeepsGate(w, w1, w.runs[run], w1.runs[run], w.steps[run][i]);
      }
    }
  }

  lemma BeginKeepsRun(s: Setup, w: World, tenant: string, workflow: string, input: string, k: nat)
    requires Inv(s, w) && k < |w.log| && w.log[k].AgentRan?
    ensures RunOk(s, Begin(w, tenant, workflow, input), k)
  {
    hide QueueOk, RowsOk;
    var w1, e := Begin(w, tenant, workflow, input), w.log[k];
    assert RunOk(s, w, k);
    assert RunOnRecord(s, w, e.run);
    var n :| 0 <= n < |Rows(w, e.run)| && n < |StepsOf(s, w, e.run)| && RunIsRow(s, w, k, n);
    if StepsOf(s, w, e.run)[n].approve {
      var j, q :| 0 <= j < k && j < |w.log| && 0 <= q < |w.queue.rows|
        && Approves(w.log[j], w.queue.rows[q], w.runs[e.run], e.step, e.prompt);
      assert Approves(w1.log[j], w1.queue.rows[q], w1.runs[e.run], e.step, e.prompt);
    }
    assert RunIsRow(s, w1, k, n);
  }

  lemma BeginKeeps(s: Setup, w: World, tenant: string, workflow: string, input: string, agents: set<string>)
    requires Inv(s, w) && CanStart(s, workflow, agents)
    ensures var w1 := Begin(w, tenant, workflow, input); Walkable(s, w1, w1.runs[w.nextRun], 0)
  {
    hide QueueOk, RunOnRecord;
    var w1 := Begin(w, tenant, workflow, input);
    forall run | run in w1.runs ensures RunOnRecord(s, w1, run) {
      BeginKeepsRecord(s, w, tenant, workflow, input, agents, run);
    }
    forall k | 0 <= k < |w1.log| && w1.log[k].AgentRan? ensures RunOk(s, w1, k) {
      BeginKeepsRun(s, w, tenant, workflow, input, k);
    }
    assert QueueOk(w) == QueueOk(w1) by { NoChangeGrows(w, w1); NoChangeGrows(w1, w); }
    forall other | other in w1.runs && other != w.nextRun ensures Settled(s, w1, other) {
      assert Settled(s, w, other);
    }
  }

  lemma DecideKeepsLog(s: Setup, w: World, w1: World, e: Event)
    requires LogOk(s, w) && Grows(w, w1) && w1.log == w.log + [e] && e.Decided?
    requires w1.runs == w.runs && w1.steps == w.steps
    ensures LogOk(s, w1)
  {
    forall k | 0 <= k < |w1.log| && w1.log[k].AgentRan? ensures RunOk(s, w1, k) {
      DecideKeepsRun(s, w, w1, k);
    }
    forall k | 0 <= k < |w1.log| && w1.log[k].AgentResumed? ensures ResumeOk(w1.log, k) {
      ChangedResumeIsOk(w, w1, k);
    }
    ChangeStartsOnce(w, w1);
  }

  lemma DecideKeepsRun(s: Setup, w: World, w1: World, k: nat)
    requires Grows(w, w1) && w1.runs == w.runs && w1.steps == w.steps
    requires k < |w.log| && w.log[k].AgentRan? && RunOk(s, w, k)
    ensures RunOk(s, w1, k)
  {
    var e := w.log[k];
    var n :| 0 <= n < |Rows(w, e.run)| && n < |StepsOf(s, w, e.run)| && RunIsRow(s, w, k, n);
    if StepsOf(s, w, e.run)[n].approve {
      ApprovedGrows(w, w1, k, w.runs[e.run], e.step, e.prompt);
    }
    assert RunIsRow(s, w1, k, n);
  }

  lemma DecideKeepsQueue(w: World, tenant: string, id: nat, status: Approvals.Status, who: string, reason: Option<string>)
    requires QueueOk(w) && status != Approvals.Pending
    ensures var w1 := DecideOn(w, tenant, id, status, who, reason); QueueOk(w1) && Grows(w, w1)
  {
    Approvals.DecideKeeps(w.queue, tenant, id, status, who, reason);
    var w1 := DecideOn(w, tenant, id, status, who, reason);
    if w1 != w {
      var i := Approvals.IndexOf(w.queue.rows, id);
      assert w1.log[|w.log|] == Decided(id, status);
      forall q | 0 <= q < |w1.queue.rows| && w1.queue.rows[q].status != Approvals.Pending
        ensures Decided(w1.queue.rows[q].id, w1.queue.rows[q].status) in w1.log
      {
        if q != i {
          assert Decided(w.queue.rows[q].id, w.queue.rows[q].status) in w.log;
        }
      }
    }
  }

  lemma DecideKeeps(s: Setup, w: World, tenant: string, id: nat, status: Approvals.Status, who: string, reason: Option<string>)
    requires Inv(s, w) && status != Approvals.Pending
    ensures Inv(s, DecideOn(w, tenant, id, status, who, reason))
    ensures Grows(w, DecideOn(w, tenant, id, status, who, reason))
  {
    hide LogOk, QueueOk, RowsOk, StatusOk, DecideOn;
    var w1 := DecideOn(w, tenant, id, status, who, reason);
    DecideKeepsQueue(w, tenant, id, status, who, reason);
    DecideChanges(w, tenant, id, status, who, reason);
    if w1 != w {
      DecideKeepsLog(s, w, w1, Decided(id, status));
      forall run | run in w1.runs ensures RunOnRecord(s, w1, run) && Settled(s, w1, run) {
        assert RunOnRecord(s, w, run) && Settled(s, w, run);
        forall i | 0 <= i < |w1.steps[run]|
          ensures GateRowOk(w1, w1.runs[run], w1.steps[run][i]) && StartOk(w1, run, w1.steps[run][i])
        {
          GateRowGrows(w, w1, w.runs[run], w.steps[run][i]);
        }
      }
    }
  }

  lemma DecideChanges(w: World, tenant: string, id: nat, status: Approvals.Status, who: string, reason: Option<string>)
    requires status != Approvals.Pending
    ensures var w1 := DecideOn(w, tenant, id, status, who, reason);
      w1 == w || (w1.runs == w.runs && w1.steps == w.steps && w1.nextRun == w.nextRun && w1.log == w.log + [Decided(id, status)])
  {}

  /** What a run looks like from outside: finished runs do not change, and tenants, inputs and workflows never do. */
  ghost predicate KeepsRuns(w: World, w1: World) {
    && Grows(w, w1)
    && (forall run :: run in w.runs ==> run in w1.runs)
    && (forall run :: run in w.runs && (w.runs[run].status == Completed || w.runs[run].status == Failed) ==>
          w1.runs[run] == w.runs[run] && Rows(w1, run) == Rows(w, run))
  }

  lemma StartKeeps(s: Setup, w: World, tenant: string, workflow: string, input: string, agents: set<string>)
    requires Inv(s, w)
    ensures var w1 := Start(s, w, tenant, workflow, input, agents); Inv(s, w1) && KeepsRuns(w, w1)
  {
    hide Consistent, Drive, Walkable;
    if CanStart(s, workflow, agents) {
      var w1 := Begin(w, tenant, workflow, input);
      var run := w1.runs[w.nextRun];
      assert w.nextRun !in w.runs by { FreshRun(s, w); }
      BeginKeeps(s, w, tenant, workflow, input, agents);
      DriveKeeps(s, w1, s.workflows[workflow], run, 0);
      NoChangeGrows(w, w1);
      GrowsTransitive(w, w1, Drive(s, w1, s.workflows[workflow], run, 0));
    } else {
      NoChangeGrows(w, w);
    }
  }

  lemma FreshRun(s: Setup, w: World)
    requires Consistent(s, w)
    ensures w.nextRun !in w.runs && w.steps.Keys == w.runs.Keys
  {
    assert w.nextRun in w.runs ==> RunOnRecord(s, w, w.nextRun);
  }

  lemma ResumeIs(s: Setup, w: World, tenant: string, run: nat)
    requires Inv(s, w)
    ensures var w1 := Resume(s, w, tenant, run);
      || w1 == w
      || (&& run in w.runs && w.runs[run].status == Awaiting && w.runs[run].workflow in s.workflows
          && w1 == Drive(s, w, s.workflows[w.runs[run].workflow], w.runs[run], 0))
  {
    hide Drive, LogOk, QueueOk, RunOnRecord;
    if run in w.runs {
      assert Settled(s, w, run);
    }
  }

  lemma ResumeKeeps(s: Setup, w: World, tenant: string, run: nat)
    requires Inv(s, w)
    ensures var w1 := Resume(s, w, tenant, run); Inv(s, w1) && KeepsRuns(w, w1)
  {
    hide Drive, Resume, Inv, Consistent, Walkable;
    var w1 := Resume(s, w, tenant, run);
    ResumeIs(s, w, tenant, run);
    if w1 == w {
      NoChangeGrows(w, w);
    } else {
      ResumeWalks(s, w, run);
      DriveKeeps(s, w, s.workflows[w.runs[run].workflow], w.runs[run], 0);
    }
  }

  lemma ResumeWalks(s: Setup, w: World, run: nat)
    requires Inv(s, w) && run in w.runs && w.runs[run].status == Awaiting
    ensures w.runs[run].id == run && w.steps.Keys == w.runs.Keys
    ensures Walkable(s, w, w.runs[run], 0)
  {
    hide LogOk, QueueOk, RowOk;
    assert Settled(s, w, run);
    assert RunOnRecord(s, w, run);
  }

  /** One call keeps the invariant. */
  lemma ApplyKeeps(s: Setup, w: World, a: Action)
    requires Inv(s, w)
    ensures Inv(s, Apply(s, w, a)) && KeepsRuns(w, Apply(s, w, a))
  {
    hide Inv, Start, Resume, DecideOn;
    match a {
      case DoStart(tenant, workflow, input, agents) => StartKeeps(s, w, tenant, workflow, input, agents);
      case DoResume(tenant, run) => ResumeKeeps(s, w, tenant, run);
      case DoDecide(tenant, id, status, who, reason) =>
        NoChangeGrows(w, w);
        if status != Approvals.Pending {
          DecideKeeps(s, w, tenant, id, status, who, reason);
          DecideChanges(w, tenant, id, status, who, reason);
        }
    }
  }

  lemma KeepsRunsTransitive(a: World, b: World, c: World)
    requires KeepsRuns(a, b) && KeepsRuns(b, c)
    ensures KeepsRuns(a, c)
  {
    GrowsTransitive(a, b, c);
  }

  lemma {:induction false} ExecuteKeeps(s: Setup, w: World, actions: seq<Action>)
    requires Inv(s, w)
    ensures Inv(s, Execute(s, w, actions)) && KeepsRuns(w, Execute(s, w, actions))
    decreases |actions|
  {
    hide Inv, KeepsRuns, Apply;
    if actions == [] {
      assert KeepsRuns(w, w) by { KeepsRunsReflexive(w); }
    } else {
      var w1 := Apply(s, w, actions[0]);
      ApplyKeeps(s, w, actions[0]);
      ExecuteKeeps(s, w1, actions[1..]);
      KeepsRunsTransitive(w, w1, Execute(s, w1, actions[1..]));
    }
  }

  lemma KeepsRunsReflexive(w: World)
    ensures KeepsRuns(w, w)
  {
    NoChangeGrows(w, w);
  }

  /** Every reachable state satisfies the invariant. */
  lemma EveryScheduleKeeps(s: Setup, actions: seq<Action>)
    requires SetupOk(s)
    ensures Inv(s, Execute(s, NEW, actions))
  {
    assert Inv(s, NEW);
    ExecuteKeeps(s, NEW, actions);
  }

  // ---------------------------------------------------------------------------------------------
  // The theorems

  /**
   * Rendering is total: whatever the agents answer and whenever people decide, no step of an accepted
   * workflow ever meets a placeholder without a value, and the prompt of every step that has not failed
   * is its template filled with the run's input and the outputs of the steps before it.
   */
  lemma RenderingIsTotal(s: Setup, actions: seq<Action>, run: nat, i: nat)
    requires SetupOk(s)
    requires var w := Execute(s, NEW, actions); run in w.runs && i < |Rows(w, run)|
    ensures var w := Execute(s, NEW, actions);
      var row := Rows(w, run)[i];
      && w.runs[run].workflow in s.workflows && i < |StepsOf(s, w, run)|
      && (row.error.Some? ==> row.error.value.AgentThrew? || row.error.value.Declined?)
      && (row.status != Broken ==>
            Template.Render(StepsOf(s, w, run)[i].prompt, Quotable(w.runs[run].input, Rows(w, run)[..i])) == Ok(row.prompt))
  {
    hide LogOk, QueueOk, Execute;
    EveryScheduleKeeps(s, actions);
    var w := Execute(s, NEW, actions);
    assert RunOnRecord(s, w, run);
    assert RowOk(StepsOf(s, w, run)[i], w.runs[run].input, w.steps[run][..i], w.steps[run][i]);
  }

  /**
   * Where a run stands: its done steps are a prefix of the workflow; it waits exactly when the first step
   * not done waits, is completed exactly when every step is done, and has failed exactly when the first
   * step not done broke or was declined.
   */
  lemma RunsStandWhereTheirStepsDo(s: Setup, actions: seq<Action>, run: nat)
    requires SetupOk(s)
    requires run in Execute(s, NEW, actions).runs
    ensures var w := Execute(s, NEW, actions);
      var rows, m, status := Rows(w, run), DoneCount(Rows(w, run)), w.runs[run].status;
      && w.runs[run].workflow in s.workflows
      && m <= |rows| <= m + 1 && |rows| <= |StepsOf(s, w, run)|
      && (forall i :: 0 <= i < |rows| ==> rows[i].stepId == StepsOf(s, w, run)[i].id && (rows[i].status == Done <==> i < m))
      && (status == Awaiting <==> m < |rows| && rows[m].status == Waiting)
      && (status == Completed <==> m == |StepsOf(s, w, run)|)
      && (status == Failed <==> m < |rows| && (rows[m].status == Broken || rows[m].status == Skipped))
      && status != Running
  {
    hide Consistent, RowsOk, StatusOk, Execute;
    EveryScheduleKeeps(s, actions);
    var w := Execute(s, NEW, actions);
    SettledRun(s, w, run);
    StandingMeans(w.runs[run].status, w.runs[run].error, StepsOf(s, w, run), w.runs[run].input, Rows(w, run));
  }

  lemma SettledRun(s: Setup, w: World, run: nat)
    requires Inv(s, w) && run in w.runs
    ensures w.runs[run].workflow in s.workflows
    ensures RowsOk(StepsOf(s, w, run), w.runs[run].input, Rows(w, run))
    ensures StatusOk(w.runs[run].status, w.runs[run].error, StepsOf(s, w, run), Rows(w, run))
  {
    hide LogOk, QueueOk, RowsOk, StatusOk;
    assert RunOnRecord(s, w, run) && Settled(s, w, run);
  }

  lemma StandingMeans(status: RunStatus, error: Option<Cause>, steps: seq<Step>, input: string, rows: seq<StepRow>)
    requires RowsOk(steps, input, rows) && StatusOk(status, error, steps, rows)
    ensures var m := DoneCount(rows);
      && m <= |rows| <= m + 1 && |rows| <= |steps|
      && (forall i :: 0 <= i < |rows| ==> rows[i].stepId == steps[i].id && (rows[i].status == Done <==> i < m))
      && (status == Awaiting <==> m < |rows| && rows[m].status == Waiting)
      && (status == Completed <==> m == |steps|)
      && (status == Failed <==> m < |rows| && (rows[m].status == Broken || rows[m].status == Skipped))
      && status != Running
  {
    hide Quotable, Template.Render;
    forall i | 0 <= i < |rows| ensures rows[i].stepId == steps[i].id && (rows[i].status == Done <==> i < DoneCount(rows)) {
      assert RowOk(steps[i], input, rows[..i], rows[i]);
    }
  }

  /** A finished run is final: nothing that is called later changes it or its steps. */
  lemma FinishedIsFinal(s: Setup, before: seq<Action>, after: seq<Action>, run: nat)
    requires SetupOk(s)
    requires var w := Execute(s, NEW, before);
      run in w.runs && (w.runs[run].status == Completed || w.runs[run].status == Failed)
    ensures var w, w' := Execute(s, NEW, before), Execute(s, NEW, before + after);
      run in w'.runs && w'.runs[run] == w.runs[run] && Rows(w', run) == Rows(w, run)
  {
    hide Inv;
    EveryScheduleKeeps(s, before);
    ExecuteKeeps(s, Execute(s, NEW, before), after);
    ExecuteAppend(s, NEW, before, after);
  }

  lemma {:induction false} ExecuteAppend(s: Setup, w: World, a: seq<Action>, b: seq<Action>)
    ensures Execute(s, w, a + b) == Execute(s, Execute(s, w, a), b)
    decreases |a|
  {
    hide Apply;
    if a == [] {
      assert a + b == b;
    } else {
      assert (a + b)[1..] == a[1..] + b;
      ExecuteAppend(s, Apply(s, w, a[0]), a[1..], b);
    }
  }

  /** A step's agent is started at most once; a turn it held is only ever continued, in the session it was started in. */
  lemma AgentsAreStartedOnce(s: Setup, actions: seq<Action>, j: nat, k: nat)
    requires SetupOk(s)
    requires j < |Execute(s, NEW, actions).log| && k < |Execute(s, NEW, actions).log|
    ensures var log := Execute(s, NEW, actions).log;
      && (log[j].AgentRan? && log[k].AgentRan? && log[j].run == log[k].run && log[j].step == log[k].step ==> j == k)
      && (log[k].AgentResumed? ==> exists i :: 0 <= i < k && IsRun(log[i], log[k].run, log[k].step) && log[i].session == log[k].session)
  {
    hide Execute, QueueOk, RunOnRecord, RunOk;
    EveryScheduleKeeps(s, actions);
    var w := Execute(s, NEW, actions);
    if w.log[k].AgentResumed? {
      assert ResumeOk(w.log, k);
    }
    if j < k && w.log[k].AgentRan? {
      assert !IsRun(w.log[j], w.log[k].run, w.log[k].step);
    } else if k < j && w.log[j].AgentRan? {
      assert !IsRun(w.log[k], w.log[j].run, w.log[j].step);
    }
  }

  /**
   * A gated step reaches its agent only after a person decided it, and not to decline it; what the person
   * was shown is the very prompt the agent was sent.
   */
  lemma GatedStepsAreDecidedFirst(s: Setup, actions: seq<Action>, k: nat, i: nat)
    requires SetupOk(s)
    requires var w := Execute(s, NEW, actions);
      && k < |w.log| && w.log[k].AgentRan?
      && w.log[k].run in w.runs && w.runs[w.log[k].run].workflow in s.workflows
      && i < |StepsOf(s, w, w.log[k].run)| && StepsOf(s, w, w.log[k].run)[i].id == w.log[k].step
      && StepsOf(s, w, w.log[k].run)[i].approve
    ensures var w := Execute(s, NEW, actions);
      ApprovedBefore(w, k, w.runs[w.log[k].run], w.log[k].step, w.log[k].prompt)
  {
    hide Execute, QueueOk, LogOk, RunOnRecord;
    EveryScheduleKeeps(s, actions);
    var w := Execute(s, NEW, actions);
    StartIsRow(s, w, w.log[k].run, i, k);
  }
}
