/**
 * What the rows of a run say against what its agents did: outputs are answers, failures are what was thrown, a
 * declined step carries the reason given, and what an agent is sent quotes the answers before it.
 */
module WorkflowAnswers {
  import opened Basics
  import Template
  import opened WorkflowConfig
  import Approvals
  import opened Workflow
  import opened WorkflowSafety
  import Gates = WorkflowGates

  // ---------------------------------------------------------------------------------------------
  // Calls of agents, by their place in the log

  predicate IsCall(e: Event) { e.AgentRan? || e.AgentResumed? }

  predicate IsCallOf(e: Event, run: nat, step: string) { IsCall(e) && e.run == run && e.step == step }

  /** How many calls were made before this one: which of the agents' outcomes it came to. */
  function CallsBefore(log: seq<Event>, k: nat): nat
    requires k <= |log|
  {
    if k == 0 then 0 else CallsBefore(log, k - 1) + if IsCall(log[k - 1]) then 1 else 0
  }

  ghost predicate EndedAt(s: Setup, log: seq<Event>, k: nat, run: nat, step: string, outcome: AgentOutcome) {
    && k < |log| && IsCallOf(log[k], run, step)
    && (forall j :: k < j < |log| ==> !IsCallOf(log[j], run, step))
    && s.agent(CallsBefore(log, k)) == outcome
  }

  /** The last call of the agent of this step came to this. */
  ghost predicate LastEnded(s: Setup, log: seq<Event>, run: nat, step: string, outcome: AgentOutcome) {
    exists k: nat :: EndedAt(s, log, k, run, step, outcome)
  }

  /** A row says what the last call of its agent came to. */
  ghost predicate RowTells(s: Setup, log: seq<Event>, run: nat, row: StepRow) {
    && (row.status == Done ==> row.output.Some? && LastEnded(s, log, run, row.stepId, Answered(row.output.value)))
    && (row.status == Waiting && row.awaiting == Some(OnTool) ==> LastEnded(s, log, run, row.stepId, Held))
    && (row.status == Broken ==>
          row.error.Some? && row.error.value.AgentThrew? && LastEnded(s, log, run, row.stepId, Threw(row.error.value.message)))
  }

  /** A declined step names the approval a person rejected, and the reason given, if one was. */
  ghost predicate RowDeclined(q: Approvals.Queue, run: nat, row: StepRow) {
    row.status == Skipped ==> exists n :: 0 <= n < |q.rows| && Declines(q.rows[n], run, row)
  }

  ghost predicate Declines(a: Approvals.Approval, run: nat, row: StepRow) {
    && a.status == Approvals.Rejected && a.toolCallId == GateCall(run, row.stepId) && row.approval == Some(a.id)
    && row.error == Some(Declined(if a.reason.Some? then a.reason.value else "a person declined this step"))
  }

  /** What an agent was sent is its step's template, filled with the run's input and the answers before it. */
  ghost predicate SentIsFilled(s: Setup, w: World, k: nat)
    requires k < |w.log| && w.log[k].AgentRan?
  {
    var e := w.log[k];
    && e.run in w.runs && e.run in w.steps && w.runs[e.run].workflow in s.workflows
    && exists i :: 0 <= i < |w.steps[e.run]| && i < |StepsOf(s, w, e.run)| && FilledAt(s, w, k, i)
  }

  ghost predicate FilledAt(s: Setup, w: World, k: nat, i: nat)
    requires k < |w.log| && w.log[k].AgentRan?
    requires w.log[k].run in w.runs && w.log[k].run in w.steps && w.runs[w.log[k].run].workflow in s.workflows
    requires i < |w.steps[w.log[k].run]| && i < |StepsOf(s, w, w.log[k].run)|
  {
    var e := w.log[k];
    && StepsOf(s, w, e.run)[i].id == e.step
    && Template.Render(StepsOf(s, w, e.run)[i].prompt, Quotable(w.runs[e.run].input, w.steps[e.run][..i])) == Ok(e.prompt)
  }

  ghost predicate RunTells(s: Setup, w: World, run: nat) {
    run in w.steps && forall i :: 0 <= i < |w.steps[run]| ==>
      RowTells(s, w.log, run, w.steps[run][i]) && RowDeclined(w.queue, run, w.steps[run][i])
  }

  ghost predicate Tells(s: Setup, w: World) {
    && w.calls == CallsBefore(w.log, |w.log|)
    && (forall run :: run in w.runs ==> RunTells(s, w, run))
    && (forall k :: 0 <= k < |w.log| && w.log[k].AgentRan? ==> SentIsFilled(s, w, k))
  }

  // ---------------------------------------------------------------------------------------------
  // Logs that grow

  lemma {:induction false} CallsBeforePrefix(a: seq<Event>, b: seq<Event>, k: nat)
    requires k <= |a| && a <= b
    ensures CallsBefore(b, k) == CallsBefore(a, k)
  {
    if k > 0 { CallsBeforePrefix(a, b, k - 1); }
  }

  lemma {:induction false} NoMoreCalls(a: seq<Event>, b: seq<Event>)
    requires a <= b && forall j :: |a| <= j < |b| ==> !IsCall(b[j])
    ensures CallsBefore(b, |b|) == CallsBefore(a, |a|)
    decreases |b|
  {
    if |b| == |a| {
      assert a == b;
    } else {
      var front := b[..|b| - 1];
      NoMoreCalls(a, front);
      CallsBeforePrefix(front, b, |front|);
    }
  }

  lemma EndedStays(s: Setup, a: seq<Event>, b: seq<Event>, run: nat, step: string, outcome: AgentOutcome)
    requires LastEnded(s, a, run, step, outcome) && a <= b && forall j :: |a| <= j < |b| ==> !IsCallOf(b[j], run, step)
    ensures LastEnded(s, b, run, step, outcome)
  {
    var k: nat :| EndedAt(s, a, k, run, step, outcome);
    CallsBeforePrefix(a, b, k);
    assert EndedAt(s, b, k, run, step, outcome);
  }

  lemma RowStays(s: Setup, a: seq<Event>, b: seq<Event>, run: nat, row: StepRow)
    requires RowTells(s, a, run, row) && a <= b && forall j :: |a| <= j < |b| ==> !IsCallOf(b[j], run, row.stepId)
    ensures RowTells(s, b, run, row)
  {
    hide LastEnded, IsCallOf;
    if row.status == Done { EndedStays(s, a, b, run, row.stepId, Answered(row.output.value)); }
    if row.status == Waiting && row.awaiting == Some(OnTool) { EndedStays(s, a, b, run, row.stepId, Held); }
    if row.status == Broken { EndedStays(s, a, b, run, row.stepId, Threw(row.error.value.message)); }
  }

  lemma DeclinedStays(a: Approvals.Queue, b: Approvals.Queue, run: nat, row: StepRow)
    requires RowDeclined(a, run, row) && Approvals.Extends(a, b)
    ensures RowDeclined(b, run, row)
  {
    if row.status == Skipped {
      var n :| 0 <= n < |a.rows| && Declines(a.rows[n], run, row);
      assert b.rows[n] == a.rows[n];
    }
  }

  lemma FilledStays(s: Setup, w: World, w1: World, k: nat)
    requires k < |w.log| && w.log[k].AgentRan? && SentIsFilled(s, w, k) && w.log <= w1.log
    requires var run := w.log[k].run;
      && run in w1.runs && run in w1.steps && w1.runs[run].workflow == w.runs[run].workflow && w1.runs[run].input == w.runs[run].input
      && |w.steps[run]| <= |w1.steps[run]| && forall i :: 0 <= i < |w.steps[run]| ==> w1.steps[run][..i] == w.steps[run][..i]
    ensures SentIsFilled(s, w1, k)
  {
    var run := w.log[k].run;
    var i :| 0 <= i < |w.steps[run]| && i < |StepsOf(s, w, run)| && FilledAt(s, w, k, i);
    assert FilledAt(s, w1, k, i);
  }

  // ---------------------------------------------------------------------------------------------
  // One step of a run

  lemma {:induction false} UpsertFinds(rows: seq<StepRow>, row: StepRow)
    ensures FindStep(Upsert(rows, row), row.stepId) == Some(Merge(FindStep(rows, row.stepId), row))
  {
    var i, after := StepIndex(rows, row.stepId), Upsert(rows, row);
    var j := StepIndex(after, row.stepId);
    assert after[i].stepId == row.stepId;
    assert forall n :: 0 <= n < i ==> after[n] == rows[n];
    assert j == i;
  }

  /** What an outcome of an agent makes of the walk and of its row. */
  ghost predicate CallSays(outcome: AgentOutcome, o: Outcome, row: Option<StepRow>) {
    match outcome
    case Answered(text) => o == Finished && row.Some? && row.value.status == Done && row.value.output == Some(text)
    case Held => o == Paused && row.Some? && row.value.status == Waiting && row.value.awaiting == Some(OnTool)
    case Threw(message) => o == Raised(AgentThrew(message))
  }

  lemma SettleSays(w: World, run: Run, step: Step, prompt: string, session: nat, outcome: AgentOutcome)
    ensures var (w1, o) := Settle(w, run, step, prompt, session, outcome);
      && w1.log == w.log && w1.calls == w.calls && w1.queue == w.queue
      && CallSays(outcome, o, FindStep(Rows(w1, run.id), step.id))
  {
    hide Upsert, StepIndex;
    if outcome.Held? {
      UpsertFinds(Rows(w, run.id), RowFor(step, prompt, Waiting).(session := Some(session), awaiting := Some(OnTool)));
    } else if outcome.Answered? {
      UpsertFinds(Rows(w, run.id), RowFor(step, prompt, Done).(session := Some(session), output := Some(outcome.text)));
    }
  }

  /** One call of this step's agent, and what it came to. */
  ghost predicate Calls(s: Setup, w: World, w1: World, e: Event, o: Outcome, row: Option<StepRow>) {
    w1.log == w.log + [e] && w1.calls == w.calls + 1 && w1.queue == w.queue && CallSays(s.agent(w.calls), o, row)
  }

  lemma LaunchSays(s: Setup, w: World, run: Run, step: Step, prompt: string)
    ensures var (w1, o) := Launch(s, w, run, step, prompt);
      Calls(s, w, w1, AgentRan(run.id, step.id, w.sessions + 1, prompt), o, FindStep(Rows(w1, run.id), step.id))
  {
    hide Settle, Upsert;
    SettleSays(Opened(w, run, step, prompt), run, step, prompt, w.sessions + 1, s.agent(w.calls));
  }

  lemma ContinueSays(s: Setup, w: World, run: Run, step: Step, prompt: string, session: nat)
    ensures var (w1, o) := Continue(s, w, run, step, prompt, session);
      Calls(s, w, w1, AgentResumed(run.id, step.id, session), o, FindStep(Rows(w1, run.id), step.id))
  {
    hide Settle, Upsert;
    SettleSays(Reopened(w, run, step, session), run, step, prompt, session, s.agent(w.calls));
  }

  /** The gate calls nobody: the step waits for it, or was declined. */
  ghost predicate Stays(w: World, w1: World, run: nat, o: Outcome, row: Option<StepRow>) {
    && w1.log == w.log && w1.calls == w.calls && !o.Raised? && !o.Finished? && row.Some?
    && ((row.value.status == Waiting && row.value.awaiting == Some(OnStep))
        || (row.value.status == Skipped && RowDeclined(w1.queue, run, row.value)))
  }

  lemma GateSays(s: Setup, w: World, run: Run, step: Step, prompt: string, previous: Option<StepRow>)
    requires QueueOk(w) && s.hasQueue && previous == FindStep(Rows(w, run.id), step.id)
    requires previous.Some? ==>
      && previous.value.status == Waiting && previous.value.awaiting == Some(OnStep) && previous.value.stepId == step.id
      && exists q :: 0 <= q < |w.queue.rows| && GateRow(w.queue.rows[q], run, previous.value)
    ensures var (w1, answer) := Gate(s, w, run, step, prompt, previous);
      if answer.Go? then w1 == w else Stays(w, w1, run.id, answer.outcome, FindStep(Rows(w1, run.id), step.id))
  {
    hide QueueOk, Approvals.RequestAll, Approvals.Lookup, Ask, Upsert;
    if previous.None? {
      AskIs(w, run, step, prompt);
      UpsertFinds(Rows(w, run.id), GateWait(w, step, prompt));
    } else {
      var q :| 0 <= q < |w.queue.rows| && GateRow(w.queue.rows[q], run, previous.value);
      GateIsOnTheLog(w, run, previous.value, q);
      var a := w.queue.rows[q];
      if a.status == Approvals.Rejected {
        var cause := Declined(if a.reason.Some? then a.reason.value else "a person declined this step");
        var row := RowFor(step, prompt, Skipped).(approval := Some(a.id), error := Some(cause));
        UpsertFinds(Rows(w, run.id), row);
        assert Declines(w.queue.rows[q], run.id, Merge(previous, row));
      }
    }
  }

  /** What one step does: its gate, or one call of its agent, sent the filled template. */
  ghost predicate StepSays(s: Setup, w: World, w1: World, run: Run, step: Step, rendered: Result<string, string>, o: Outcome, row: Option<StepRow>) {
    || Stays(w, w1, run.id, o, row)
    || exists e :: IsCallOf(e, run.id, step.id) && (e.AgentRan? ==> rendered == Ok(e.prompt)) && Calls(s, w, w1, e, o, row)
  }

  lemma TakeStepSays(s: Setup, w: World, run: Run, i: nat)
    requires ReadyAt(s, w, run, i)
    ensures var step := StepsOf(s, w, run.id)[i];
      var (w1, o) := TakeStep(s, w, run, step);
      StepSays(s, w, w1, run, step, Template.Render(step.prompt, Quotable(run.input, w.steps[run.id][..i])), o, FindStep(Rows(w1, run.id), step.id))
  {
    hide LogOk, QueueOk, RowOk, Quotable, Gate, Launch, Continue, Stays, Calls, Template.Render, Approvals.Lookup;
    var step, previous := StepsOf(s, w, run.id)[i], Existing(w, run.id, i);
    ReadyPrompt(s, w, run, i);
    assert RunOnRecord(s, w, run.id);
    var prompt := Template.Render(step.prompt, Quotable(run.input, Rows(w, run.id))).value;
    if previous.Some? { OpenRow(s, w, run.id, i); }
    if HeldByAgent(previous) {
      HeldSession(w.steps[run.id][i], step, run.input, w.steps[run.id][..i]);
      var session := previous.value.session.value;
      ContinueSays(s, w, run, step, prompt, session);
      SaysByCall(s, w, Continue(s, w, run, step, prompt, session).0, run, step, Ok(prompt), Continue(s, w, run, step, prompt, session).1,
        FindStep(Rows(Continue(s, w, run, step, prompt, session).0, run.id), step.id), AgentResumed(run.id, step.id, session));
    } else {
      LaunchSays(s, w, run, step, prompt);
      SaysByCall(s, w, Launch(s, w, run, step, prompt).0, run, step, Ok(prompt), Launch(s, w, run, step, prompt).1,
        FindStep(Rows(Launch(s, w, run, step, prompt).0, run.id), step.id), AgentRan(run.id, step.id, w.sessions + 1, prompt));
      if step.approve {
        assert step in StepsOf(s, w, run.id);
        if previous.Some? { WaitsAtGate(s, w, run, i); }
        GateSays(s, w, run, step, prompt, previous);
        var (w1, answer) := Gate(s, w, run, step, prompt, previous);
        assert TakeStep(s, w, run, step) == if answer.Stop? then (w1, answer.outcome) else Launch(s, w, run, step, prompt);
      } else {
        assert TakeStep(s, w, run, step) == Launch(s, w, run, step, prompt);
      }
    }
  }

  lemma HeldSession(row: StepRow, step: Step, input: string, before: seq<StepRow>)
    requires RowOk(step, input, before, row) && row.status == Waiting && row.awaiting == Some(OnTool)
    ensures row.session.Some?
  {}

  lemma WaitsAtGate(s: Setup, w: World, run: Run, i: nat)
    requires ReadyAt(s, w, run, i) && i < |w.steps[run.id]| && !HeldByAgent(Some(w.steps[run.id][i]))
    ensures var row := w.steps[run.id][i];
      && row.status == Waiting && row.awaiting == Some(OnStep) && row.stepId == StepsOf(s, w, run.id)[i].id
      && exists q :: 0 <= q < |w.queue.rows| && GateRow(w.queue.rows[q], run, row)
  {
    hide LogOk, QueueOk, Quotable, Template.Render;
    OpenRow(s, w, run.id, i);
    var row := w.steps[run.id][i];
    var q :| 0 <= q < |w.queue.rows| && GateRow(w.queue.rows[q], w.runs[run.id], row);
    assert GateRow(w.queue.rows[q], run, row);
  }

  lemma SaysByCall(s: Setup, w: World, w1: World, run: Run, step: Step, rendered: Result<string, string>, o: Outcome, row: Option<StepRow>, e: Event)
    requires IsCallOf(e, run.id, step.id) && (e.AgentRan? ==> rendered == Ok(e.prompt)) && Calls(s, w, w1, e, o, row)
    ensures StepSays(s, w, w1, run, step, rendered, o, row)
  {}

  // ---------------------------------------------------------------------------------------------
  // One step keeps what the rows say

  /** The row a step leaves behind, where a caller finds it. */
  lemma RowIsLast(s: Setup, w: World, w1: World, run: Run, i: nat)
    requires ReadyAt(s, w, run, i) && Stepped(s, w, w1, run.id, i) && |w1.steps[run.id]| == i + 1
    ensures FindStep(Rows(w1, run.id), StepsOf(s, w, run.id)[i].id) == Some(w1.steps[run.id][i])
    ensures w1.steps[run.id][i].stepId == StepsOf(s, w, run.id)[i].id
    ensures forall j :: 0 <= j < i ==> w1.steps[run.id][j] == w.steps[run.id][j] && w1.steps[run.id][j].stepId != StepsOf(s, w, run.id)[i].id
  {
    hide LogOk, QueueOk, RowsOk, GateRowOk, StartOk, Grows;
    assert RunOnRecord(s, w1, run.id);
    StepIndexIs(s, w1, run.id, i);
    forall j | 0 <= j < i ensures w1.steps[run.id][j] == w.steps[run.id][j] {
      assert w1.steps[run.id][..i][j] == w.steps[run.id][..i][j];
    }
  }

  /** What a step's end leaves of its own row: an answer, a wait, a refusal; after a throw, what was thrown. */
  ghost predicate EndTells(s: Setup, w1: World, run: nat, row: StepRow, o: Outcome) {
    if o.Raised? then o.cause.AgentThrew? && LastEnded(s, w1.log, run, row.stepId, Threw(o.cause.message))
    else RowTells(s, w1.log, run, row) && RowDeclined(w1.queue, run, row)
  }

  lemma CallTells(s: Setup, w: World, w1: World, run: nat, e: Event, o: Outcome, row: StepRow)
    requires w.calls == CallsBefore(w.log, |w.log|) && IsCallOf(e, run, row.stepId) && Calls(s, w, w1, e, o, Some(row))
    ensures EndTells(s, w1, run, row, o) && w1.calls == CallsBefore(w1.log, |w1.log|)
  {
    CallsBeforePrefix(w.log, w1.log, |w.log|);
    assert w1.log[|w.log|] == e;
    assert EndedAt(s, w1.log, |w.log|, run, row.stepId, s.agent(w.calls));
  }

  lemma SaidTells(s: Setup, w: World, w1: World, run: Run, step: Step, rendered: Result<string, string>, o: Outcome, row: StepRow)
    requires w.calls == CallsBefore(w.log, |w.log|) && row.stepId == step.id
    requires StepSays(s, w, w1, run, step, rendered, o, Some(row))
    ensures EndTells(s, w1, run.id, row, o) && w1.calls == CallsBefore(w1.log, |w1.log|) && w.log <= w1.log
    ensures forall j :: |w.log| <= j < |w1.log| ==> IsCallOf(w1.log[j], run.id, step.id)
  {
    hide EndTells, CallSays, Stays;
    if Stays(w, w1, run.id, o, Some(row)) {
      GateTells(s, w, w1, run.id, o, row);
      GatesLogNothing(w, w1, run.id, o, Some(row));
    } else {
      var e :| IsCallOf(e, run.id, step.id) && (e.AgentRan? ==> rendered == Ok(e.prompt)) && Calls(s, w, w1, e, o, Some(row));
      CallTells(s, w, w1, run.id, e, o, row);
    }
  }

  ghost predicate StepTold(s: Setup, w: World, w1: World, run: nat, i: nat, id: string, o: Outcome) {
    && run in w1.steps && |w1.steps[run]| == i + 1
    && EndTells(s, w1, run, w1.steps[run][i], o)
    && w1.calls == CallsBefore(w1.log, |w1.log|)
    && w.log <= w1.log
    && (forall j :: |w.log| <= j < |w1.log| ==> IsCallOf(w1.log[j], run, id))
  }

  lemma StepTells(s: Setup, w: World, run: Run, i: nat)
    requires ReadyAt(s, w, run, i) && Tells(s, w)
    ensures var step := StepsOf(s, w, run.id)[i];
      var (w1, o) := TakeStep(s, w, run, step); StepTold(s, w, w1, run.id, i, step.id, o)
  {
    hide LogOk, QueueOk, RunOnRecord, TakeStep, RunTells, StepSays, EndTells, Template.Render, Quotable, Grows, CallsBefore, IsCallOf, SentIsFilled;
    var step := StepsOf(s, w, run.id)[i];
    var (w1, o) := TakeStep(s, w, run, step);
    TakeStepKeeps(s, w, run, i);
    TakeStepSays(s, w, run, i);
    RowIsLast(s, w, w1, run, i);
    SaidTells(s, w, w1, run, step, Template.Render(step.prompt, Quotable(run.input, w.steps[run.id][..i])), o, w1.steps[run.id][i]);
  }

  lemma GateTells(s: Setup, w: World, w1: World, run: nat, o: Outcome, row: StepRow)
    requires Stays(w, w1, run, o, Some(row)) && w.calls == CallsBefore(w.log, |w.log|)
    ensures EndTells(s, w1, run, row, o) && w1.calls == CallsBefore(w1.log, |w1.log|)
  {}

  /** The starts on the log, after a step. */
  lemma StepFills(s: Setup, w: World, run: Run, i: nat, k: nat)
    requires ReadyAt(s, w, run, i) && Tells(s, w)
    requires var w1 := TakeStep(s, w, run, StepsOf(s, w, run.id)[i]).0; k < |w1.log| && w1.log[k].AgentRan?
    ensures SentIsFilled(s, TakeStep(s, w, run, StepsOf(s, w, run.id)[i]).0, k)
  {
    hide LogOk, QueueOk, RunOnRecord, TakeStep, RunTells, Template.Render, Quotable, Stays;
    var step := StepsOf(s, w, run.id)[i];
    var (w1, o) := TakeStep(s, w, run, step);
    TakeStepKeeps(s, w, run, i);
    if k < |w.log| {
      var other := w.log[k].run;
      assert SentIsFilled(s, w, k);
      assert other == run.id ==> forall n :: 0 <= n < |w.steps[other]| ==> w1.steps[other][..n] == w.steps[other][..n] by {
        if other == run.id { PrefixesStay(w.steps[other], w1.steps[other], i); }
      }
      FilledStays(s, w, w1, k);
    } else {
      TakeStepSays(s, w, run, i);
      RowIsLast(s, w, w1, run, i);
      assert !Stays(w, w1, run.id, o, FindStep(Rows(w1, run.id), step.id)) by { GatesLogNothing(w, w1, run.id, o, FindStep(Rows(w1, run.id), step.id)); }
      assert w1.steps[run.id][..i] == w.steps[run.id][..i];
      assert FilledAt(s, w1, k, i);
    }
  }

  lemma GatesLogNothing(w: World, w1: World, run: nat, o: Outcome, row: Option<StepRow>)
    ensures Stays(w, w1, run, o, row) ==> w1.log == w.log
  {}

  lemma PrefixesStay(a: seq<StepRow>, b: seq<StepRow>, i: nat)
    requires i <= |a| <= i + 1 && |b| == i + 1 && b[..i] == a[..i]
    ensures forall n :: 0 <= n < |a| ==> b[..n] == a[..n]
  {
    forall n | 0 <= n < |a| ensures b[..n] == a[..n] {
      assert b[..n] == b[..i][..n] && a[..n] == a[..i][..n];
    }
  }

  /** The other runs, and the steps before, say what they said. */
  lemma OthersTell(s: Setup, w: World, run: Run, i: nat, other: nat)
    requires ReadyAt(s, w, run, i) && Tells(s, w) && other in w.runs && other != run.id
    ensures RunTells(s, TakeStep(s, w, run, StepsOf(s, w, run.id)[i]).0, other)
  {
    hide LogOk, QueueOk, RunOnRecord, TakeStep, RowTells, RowDeclined, EndTells, SentIsFilled;
    var w1 := TakeStep(s, w, run, StepsOf(s, w, run.id)[i]).0;
    TakeStepKeeps(s, w, run, i);
    StepTells(s, w, run, i);
    assert RunTells(s, w, other);
    forall j | 0 <= j < |w1.steps[other]| ensures RowTells(s, w1.log, other, w1.steps[other][j]) && RowDeclined(w1.queue, other, w1.steps[other][j]) {
      RowStays(s, w.log, w1.log, other, w.steps[other][j]);
      DeclinedStays(w.queue, w1.queue, other, w.steps[other][j]);
    }
  }

  lemma EarlierTell(s: Setup, w: World, run: Run, i: nat, j: nat)
    requires ReadyAt(s, w, run, i) && Tells(s, w) && j < i
    ensures var w1 := TakeStep(s, w, run, StepsOf(s, w, run.id)[i]).0; RowAtTells(s, w1, run.id, j)
  {
    hide LogOk, QueueOk, RunOnRecord, TakeStep, RowTells, RowDeclined, EndTells, SentIsFilled, Approvals.Extends, CallsBefore;
    var w1 := TakeStep(s, w, run, StepsOf(s, w, run.id)[i]).0;
    TakeStepKeeps(s, w, run, i);
    StepTells(s, w, run, i);
    RowIsLast(s, w, w1, run, i);
    TellsAt(s, w, run.id, j);
    RowStays(s, w.log, w1.log, run.id, w.steps[run.id][j]);
    DeclinedStays(w.queue, w1.queue, run.id, w.steps[run.id][j]);
  }

  ghost predicate RowAtTells(s: Setup, w: World, run: nat, j: nat) {
    run in w.steps && j < |w.steps[run]| && RowTells(s, w.log, run, w.steps[run][j]) && RowDeclined(w.queue, run, w.steps[run][j])
  }

  lemma TellsAt(s: Setup, w: World, run: nat, j: nat)
    requires RunTells(s, w, run) && j < |w.steps[run]|
    ensures RowTells(s, w.log, run, w.steps[run][j]) && RowDeclined(w.queue, run, w.steps[run][j])
  {}

  /** The world after a step, but for the row of a step whose agent threw. */
  ghost predicate TellsBut(s: Setup, w: World, run: nat, i: nat) {
    && w.calls == CallsBefore(w.log, |w.log|)
    && (forall other :: other in w.runs && other != run ==> RunTells(s, w, other))
    && run in w.steps && |w.steps[run]| == i + 1
    && (forall j :: 0 <= j < i ==> RowAtTells(s, w, run, j))
    && (forall k :: 0 <= k < |w.log| && w.log[k].AgentRan? ==> SentIsFilled(s, w, k))
  }

  lemma StepTellsBut(s: Setup, w: World, run: Run, i: nat)
    requires ReadyAt(s, w, run, i) && Tells(s, w)
    ensures var (w1, o) := TakeStep(s, w, run, StepsOf(s, w, run.id)[i]);
      && TellsBut(s, w1, run.id, i) && EndTells(s, w1, run.id, w1.steps[run.id][i], o)
      && (!o.Raised? ==> Tells(s, w1))
  {
    hide LogOk, QueueOk, RunOnRecord, TakeStep, RowTells, RowDeclined, SentIsFilled, LastEnded, CallsBefore;
    var (w1, o) := TakeStep(s, w, run, StepsOf(s, w, run.id)[i]);
    TakeStepKeeps(s, w, run, i);
    StepTells(s, w, run, i);
    forall other | other in w1.runs && other != run.id ensures RunTells(s, w1, other) {
      OthersTell(s, w, run, i, other);
    }
    forall j | 0 <= j < i ensures RowAtTells(s, w1, run.id, j) {
      EarlierTell(s, w, run, i, j);
    }
    forall k | 0 <= k < |w1.log| && w1.log[k].AgentRan? ensures SentIsFilled(s, w1, k) {
      StepFills(s, w, run, i, k);
    }
    if !o.Raised? { LastTells(s, w1, run.id, i); }
  }

  lemma LastTells(s: Setup, w: World, run: nat, i: nat)
    requires TellsBut(s, w, run, i) && RowTells(s, w.log, run, w.steps[run][i]) && RowDeclined(w.queue, run, w.steps[run][i])
    ensures Tells(s, w)
  {
    hide RowTells, RowDeclined, SentIsFilled, CallsBefore;
    forall j | 0 <= j < |w.steps[run]| ensures RowTells(s, w.log, run, w.steps[run][j]) && RowDeclined(w.queue, run, w.steps[run][j]) {
      assert j < i ==> RowAtTells(s, w, run, j);
    }
  }

  // ---------------------------------------------------------------------------------------------
  // A run, and every schedule of calls

  lemma StatusTells(s: Setup, w: World, run: nat, status: RunStatus, error: Option<Cause>)
    requires Tells(s, w)
    ensures Tells(s, SetStatus(w, run, status, error))
  {
    hide RowTells, RowDeclined;
    var w1 := SetStatus(w, run, status, error);
    forall k | 0 <= k < |w1.log| && w1.log[k].AgentRan? ensures SentIsFilled(s, w1, k) {
      assert SentIsFilled(s, w, k);
      FilledStays(s, w, w1, k);
    }
    forall other | other in w1.runs ensures RunTells(s, w1, other) {
      assert RunTells(s, w, other);
    }
  }

  /** The row that is written when the call of an agent threw. */
  lemma FailureTells(s: Setup, w: World, run: nat, i: nat, previous: Option<StepRow>, message: string)
    requires OpenAt(s, w, run, i) && TellsBut(s, w, run, i) && LastEnded(s, w.log, run, StepsOf(s, w, run)[i].id, Threw(message))
    ensures Tells(s, RecordStep(w, run, FailedRow(StepsOf(s, w, run)[i], previous, AgentThrew(message))))
  {
    hide LogOk, QueueOk, RowsOk, GateRowOk, StartOk, RowTells, RowDeclined, LastEnded, CallsBefore, Template.Render, Quotable;
    var row := FailedRow(StepsOf(s, w, run)[i], previous, AgentThrew(message));
    var w1 := RecordStep(w, run, row);
    assert RunOnRecord(s, w, run);
    UpsertAtEnd(s, w, run, i, row);
    var merged := Merge(Some(w.steps[run][i]), row);
    assert w1.steps[run] == w.steps[run][..i] + [merged];
    BrokenTells(s, w, run, merged, message);
    forall k | 0 <= k < |w1.log| && w1.log[k].AgentRan? ensures SentIsFilled(s, w1, k) {
      assert SentIsFilled(s, w, k);
      if w.log[k].run == run { PrefixesStay(w.steps[run], w1.steps[run], i); }
      FilledStays(s, w, w1, k);
    }
    forall other | other in w1.runs && other != run ensures RunTells(s, w1, other) {
      assert RunTells(s, w, other);
    }
    forall j | 0 <= j < i ensures RowAtTells(s, w1, run, j) {
      assert RowAtTells(s, w, run, j);
    }
    LastTells(s, w1, run, i);
  }

  lemma BrokenTells(s: Setup, w: World, run: nat, row: StepRow, message: string)
    requires row.status == Broken && row.error == Some(AgentThrew(message)) && LastEnded(s, w.log, run, row.stepId, Threw(message))
    ensures RowTells(s, w.log, run, row) && RowDeclined(w.queue, run, row)
  {}

  lemma StoppedTells(s: Setup, w: World, run: Run, i: nat)
    requires ReadyAt(s, w, run, i) && OthersSettled(s, w, run.id) && Tells(s, w)
    requires !TakeStep(s, w, run, StepsOf(s, w, run.id)[i]).1.Finished?
    ensures var step := StepsOf(s, w, run.id)[i];
      var (w1, outcome) := TakeStep(s, w, run, step);
      Tells(s, Stopped(w1, run, step, Existing(w, run.id, i), outcome))
  {
    hide LogOk, QueueOk, RunOnRecord, TakeStep, SetStatus, RecordStep, Tells, TellsBut, RowTells, LastEnded;
    var step := StepsOf(s, w, run.id)[i];
    var (w1, o) := TakeStep(s, w, run, step);
    TakeStepKeeps(s, w, run, i);
    StepTellsBut(s, w, run, i);
    if o.Raised? {
      StepEnds(s, w, w1, run, i, o);
      RowIsLast(s, w, w1, run, i);
      var row := FailedRow(step, Existing(w, run.id, i), o.cause);
      FailureTells(s, w1, run.id, i, Existing(w, run.id, i), o.cause.message);
      StatusTells(s, RecordStep(w1, run.id, row), run.id, Failed, Some(o.cause));
    } else if o.Paused? {
      StatusTells(s, w1, run.id, Awaiting, None);
    } else {
      StatusTells(s, w1, run.id, Failed, Some(o.cause));
    }
  }

  lemma {:induction false} DriveTells(s: Setup, w: World, config: Config, run: Run, i: nat)
    requires Walkable(s, w, run, i) && config.steps == StepsOf(s, w, run.id) && Tells(s, w)
    ensures Tells(s, Drive(s, w, config, run, i))
    decreases |config.steps| - i
  {
    hide TakeStep, Inv, OnlyRun, Stopped, Tells;
    if i == |config.steps| {
      DriveEnds(s, w, config, run);
      StatusTells(s, w, run.id, Completed, None);
      return;
    }
    WalkCase(s, w, run, i);
    if i < |w.steps[run.id]| && w.steps[run.id][i].status == Done {
      DriveSkips(s, w, config, run, i);
      DriveTells(s, w, config, run, i + 1);
      return;
    }
    DriveUnfolds(s, w, config, run, i);
    DriveOne(s, w, config, run, i);
    var (w1, outcome) := TakeStep(s, w, run, config.steps[i]);
    if outcome.Finished? {
      StepTellsBut(s, w, run, i);
      DriveTells(s, w1, config, run, i + 1);
    } else {
      StoppedTells(s, w, run, i);
    }
  }

  lemma BeginTells(s: Setup, w: World, tenant: string, workflow: string, input: string)
    requires Inv(s, w) && Tells(s, w)
    ensures Tells(s, Begin(w, tenant, workflow, input))
  {
    hide Consistent, RowTells, RowDeclined;
    var w1 := Begin(w, tenant, workflow, input);
    FreshRun(s, w);
    forall k | 0 <= k < |w1.log| && w1.log[k].AgentRan? ensures SentIsFilled(s, w1, k) {
      assert SentIsFilled(s, w, k);
      FilledStays(s, w, w1, k);
    }
    forall run | run in w1.runs ensures RunTells(s, w1, run) {
      assert run != w.nextRun ==> RunTells(s, w, run);
    }
  }

  lemma StartTells(s: Setup, w: World, tenant: string, workflow: string, input: string, agents: set<string>)
    requires Inv(s, w) && Tells(s, w)
    ensures Tells(s, Start(s, w, tenant, workflow, input, agents))
  {
    hide Consistent, Drive, Walkable, Tells;
    if CanStart(s, workflow, agents) {
      var w1 := Begin(w, tenant, workflow, input);
      BeginKeeps(s, w, tenant, workflow, input, agents);
      BeginTells(s, w, tenant, workflow, input);
      DriveTells(s, w1, s.workflows[workflow], w1.runs[w.nextRun], 0);
    }
  }

  lemma ResumeTells(s: Setup, w: World, tenant: string, run: nat)
    requires Inv(s, w) && Tells(s, w)
    ensures Tells(s, Resume(s, w, tenant, run))
  {
    hide Drive, Resume, Inv, Consistent, Walkable, Tells;
    ResumeIs(s, w, tenant, run);
    if Resume(s, w, tenant, run) != w {
      ResumeWalks(s, w, run);
      DriveTells(s, w, s.workflows[w.runs[run].workflow], w.runs[run], 0);
    }
  }

  lemma DecideTells(s: Setup, w: World, tenant: string, id: nat, status: Approvals.Status, who: string, reason: Option<string>)
    requires Inv(s, w) && Tells(s, w) && status != Approvals.Pending
    ensures Tells(s, DecideOn(w, tenant, id, status, who, reason))
  {
    hide LogOk, QueueOk, RunOnRecord, RowTells, RowDeclined, DecideOn, CallsBefore;
    var w1 := DecideOn(w, tenant, id, status, who, reason);
    DecideKeeps(s, w, tenant, id, status, who, reason);
    DecideChanges(w, tenant, id, status, who, reason);
    if w1 != w {
      NoMoreCalls(w.log, w1.log);
      assert w1.calls == w.calls by { DecideCallsNobody(w, tenant, id, status, who, reason); }
      forall k | 0 <= k < |w1.log| && w1.log[k].AgentRan? ensures SentIsFilled(s, w1, k) {
        assert SentIsFilled(s, w, k);
        FilledStays(s, w, w1, k);
      }
      forall run | run in w1.runs ensures RunTells(s, w1, run) {
        assert RunTells(s, w, run);
        forall j | 0 <= j < |w1.steps[run]| ensures RowTells(s, w1.log, run, w1.steps[run][j]) && RowDeclined(w1.queue, run, w1.steps[run][j]) {
          RowStays(s, w.log, w1.log, run, w.steps[run][j]);
          DeclinedStays(w.queue, w1.queue, run, w.steps[run][j]);
        }
      }
    }
  }

  lemma DecideCallsNobody(w: World, tenant: string, id: nat, status: Approvals.Status, who: string, reason: Option<string>)
    requires status != Approvals.Pending
    ensures DecideOn(w, tenant, id, status, who, reason).calls == w.calls
  {}

  lemma {:induction false} ExecuteTells(s: Setup, w: World, actions: seq<Action>)
    requires Inv(s, w) && Tells(s, w)
    ensures Inv(s, Execute(s, w, actions)) && Tells(s, Execute(s, w, actions))
    decreases |actions|
  {
    hide Inv, Tells, Start, Resume, DecideOn, KeepsRuns;
    if actions != [] {
      ApplyKeeps(s, w, actions[0]);
      match actions[0] {
        case DoStart(tenant, workflow, input, agents) => StartTells(s, w, tenant, workflow, input, agents);
        case DoResume(tenant, run) => ResumeTells(s, w, tenant, run);
        case DoDecide(tenant, id, status, who, reason) =>
          if status != Approvals.Pending { DecideTells(s, w, tenant, id, status, who, reason); }
      }
      ExecuteTells(s, Apply(s, w, actions[0]), actions[1..]);
    }
  }

  lemma EveryScheduleTells(s: Setup, actions: seq<Action>)
    requires SetupOk(s)
    ensures Inv(s, Execute(s, NEW, actions)) && Tells(s, Execute(s, NEW, actions))
  {
    assert Inv(s, NEW) && Tells(s, NEW);
    ExecuteTells(s, NEW, actions);
  }

  // ---------------------------------------------------------------------------------------------
  // What a prompt quotes

  lemma {:induction false} QuotableValues(input: string, rows: seq<StepRow>)
    requires forall i :: 0 <= i < |rows| ==> rows[i].status == Done && rows[i].output.Some?
    requires forall i, j :: 0 <= i < j < |rows| ==> rows[i].stepId != rows[j].stepId
    ensures "input" in Quotable(input, rows) && Quotable(input, rows)["input"] == input
    ensures forall i :: 0 <= i < |rows| ==>
      STEPS + rows[i].stepId in Quotable(input, rows) && Quotable(input, rows)[STEPS + rows[i].stepId] == rows[i].output.value
  {
    if rows != [] {
      var n := |rows| - 1;
      QuotableValues(input, rows[..n]);
      NameIsNotInput(rows[n].stepId);
      forall i | 0 <= i < n ensures STEPS + rows[i].stepId != STEPS + rows[n].stepId {
        NamesDiffer(rows[i].stepId, rows[n].stepId);
        assert rows[..n][i] == rows[i];
      }
    }
  }

  lemma NameIsNotInput(id: string)
    ensures STEPS + id != "input"
  {
    assert (STEPS + id)[0] == 's' && "input"[0] == 'i';
  }

  lemma NamesDiffer(a: string, b: string)
    ensures STEPS + a == STEPS + b ==> a == b
  {
    assert a == (STEPS + a)[|STEPS|..] && b == (STEPS + b)[|STEPS|..];
  }

  /** What a name in a prompt stands for: the run's input, or the answer the agent of an earlier step gave. */
  ghost predicate Quotes(s: Setup, w: World, run: nat, i: nat, name: string, text: string)
    requires run in w.runs && w.runs[run].workflow in s.workflows && i < |StepsOf(s, w, run)|
  {
    || (name == "input" && text == w.runs[run].input)
    || exists j :: 0 <= j < i && name == STEPS + StepsOf(s, w, run)[j].id && LastEnded(s, w.log, run, StepsOf(s, w, run)[j].id, Answered(text))
  }

  ghost predicate Quoted(s: Setup, w: World, run: nat, i: nat, piece: Template.Piece, part: string)
    requires run in w.runs && w.runs[run].workflow in s.workflows && i < |StepsOf(s, w, run)|
  {
    match piece
    case Plain(c) => part == [c]
    case Hole(name, _) => Quotes(s, w, run, i, name, part)
  }

  lemma EarlierRow(s: Setup, w: World, run: nat, i: nat, j: nat)
    requires SetupOk(s) && RunOnRecord(s, w, run) && RunTells(s, w, run) && j < i < |w.steps[run]|
    ensures var row := w.steps[run][j];
      && row.stepId == StepsOf(s, w, run)[j].id && row.status == Done && row.output.Some?
      && LastEnded(s, w.log, run, row.stepId, Answered(row.output.value))
  {
    hide LastEnded, Template.Render, Quotable, GateRowOk, StartOk, RowDeclined;
    assert RowOk(StepsOf(s, w, run)[j], w.runs[run].input, w.steps[run][..j], w.steps[run][j]);
    TellsAt(s, w, run, j);
  }

  /** A value in the map a prompt is rendered from is one a prompt may quote. */
  lemma ValuesAreQuotes(s: Setup, w: World, run: nat, i: nat, name: string)
    requires SetupOk(s) && RunOnRecord(s, w, run) && RunTells(s, w, run) && i < |w.steps[run]|
    requires name in Quotable(w.runs[run].input, w.steps[run][..i])
    ensures i < |StepsOf(s, w, run)| && Quotes(s, w, run, i, name, Quotable(w.runs[run].input, w.steps[run][..i])[name])
  {
    hide RowsOk, LastEnded, GateRowOk, StartOk, RunTells, Quotable;
    var rows, input := w.steps[run][..i], w.runs[run].input;
    assert |w.steps[run]| <= |StepsOf(s, w, run)| by { RowsFit(s, w, run); }
    forall j | 0 <= j < i
      ensures rows[j].stepId == StepsOf(s, w, run)[j].id && rows[j].status == Done && rows[j].output.Some?
      ensures LastEnded(s, w.log, run, rows[j].stepId, Answered(rows[j].output.value))
    {
      EarlierRow(s, w, run, i, j);
    }
    forall a, b | 0 <= a < b < i ensures rows[a].stepId != rows[b].stepId {
      IdsAreDistinct(StepsOf(s, w, run), a, b);
    }
    QuotableKeys(input, rows);
    QuotableValues(input, rows);
  }

  lemma RowsFit(s: Setup, w: World, run: nat)
    requires RunOnRecord(s, w, run)
    ensures |w.steps[run]| <= |StepsOf(s, w, run)|
  {}

  // ---------------------------------------------------------------------------------------------
  // The theorems

  /**
   * What a run shows is what happened, after every schedule: the output of a finished step is the answer its agent
   * last gave, a step that waits on a tool was held by its agent, a failed one says what its agent threw, and a
   * declined one names the approval that was rejected and the reason given.
   */
  lemma RowsSayWhatHappened(s: Setup, actions: seq<Action>, run: nat, i: nat)
    requires SetupOk(s)
    requires var w := Execute(s, NEW, actions); run in w.runs && i < |Rows(w, run)|
    ensures var w := Execute(s, NEW, actions);
      RowTells(s, w.log, run, Rows(w, run)[i]) && RowDeclined(w.queue, run, Rows(w, run)[i])
  {
    hide Execute, Inv, RowTells, RowDeclined, SentIsFilled;
    EveryScheduleTells(s, actions);
    var w := Execute(s, NEW, actions);
    assert RunTells(s, w, run);
    TellsAt(s, w, run, i);
  }

  /**
   * What an agent is sent, after every schedule: its step's template, piece by piece, with the run's input and the
   * last answers of the agents of earlier steps in the holes.
   */
  lemma AgentsAreSentTheAnswers(s: Setup, actions: seq<Action>, k: nat) returns (i: nat, parts: seq<string>)
    requires SetupOk(s)
    requires var w := Execute(s, NEW, actions); k < |w.log| && w.log[k].AgentRan?
    ensures var w := Execute(s, NEW, actions);
      var e := w.log[k];
      && e.run in w.runs && w.runs[e.run].workflow in s.workflows
      && i < |StepsOf(s, w, e.run)| && StepsOf(s, w, e.run)[i].id == e.step
      && var pieces := Template.Pieces(StepsOf(s, w, e.run)[i].prompt, 0);
      && |parts| == |pieces| && (forall n :: 0 <= n < |pieces| ==> Quoted(s, w, e.run, i, pieces[n], parts[n]))
      && e.prompt == Flatten(parts)
  {
    hide Execute, LogOk, QueueOk, RowsOk, RunTells, Quotes, Template.Fill, Template.Pieces, Quotable, GateRowOk, StartOk, CallsBefore;
    EveryScheduleTells(s, actions);
    var w := Execute(s, NEW, actions);
    assert SentIsFilled(s, w, k);
    var run := w.log[k].run;
    i :| 0 <= i < |w.steps[run]| && i < |StepsOf(s, w, run)| && FilledAt(s, w, k, i);
    assert RunOnRecord(s, w, run) && RunTells(s, w, run);
    var values := Quotable(w.runs[run].input, w.steps[run][..i]);
    var pieces := Template.Pieces(StepsOf(s, w, run)[i].prompt, 0);
    parts := Template.FillIs(pieces, values);
    forall n | 0 <= n < |pieces| ensures Quoted(s, w, run, i, pieces[n], parts[n]) {
      assert Template.FillsPiece(pieces[n], values, parts[n]);
      if pieces[n].Hole? { ValuesAreQuotes(s, w, run, i, pieces[n].name); }
    }
  }

  // ---------------------------------------------------------------------------------------------
  // Runs are what they were started as

  /** Whose run it is, of which workflow and on which input. */
  predicate SameRun(a: Run, b: Run) { a.id == b.id && a.tenant == b.tenant && a.workflow == b.workflow && a.input == b.input }

  ghost predicate RunsKept(w: World, w1: World) {
    w.nextRun <= w1.nextRun && forall run :: run in w.runs ==> run in w1.runs && SameRun(w.runs[run], w1.runs[run])
  }

  lemma TakeStepKeepsRuns(s: Setup, w: World, run: Run, step: Step)
    ensures var w1 := TakeStep(s, w, run, step).0; w1.runs == w.runs && w1.nextRun == w.nextRun
  {
    hide Template.Render, Quotable, Approvals.RequestAll, Approvals.Lookup, Upsert, StepIndex;
  }

  lemma {:induction false} DriveKeepsRuns(s: Setup, w: World, config: Config, run: Run, i: nat)
    ensures RunsKept(w, Drive(s, w, config, run, i)) && Drive(s, w, config, run, i).nextRun == w.nextRun
    decreases |config.steps| - i
  {
    hide TakeStep, IsDone, Upsert;
    if i < |config.steps| {
      if IsDone(w, run.id, config.steps[i]) {
        DriveKeepsRuns(s, w, config, run, i + 1);
      } else {
        TakeStepKeepsRuns(s, w, run, config.steps[i]);
        DriveUnfolds(s, w, config, run, i);
        var (w1, outcome) := TakeStep(s, w, run, config.steps[i]);
        if outcome.Finished? { DriveKeepsRuns(s, w1, config, run, i + 1); }
      }
    }
  }

  lemma ApplyKeepsRuns(s: Setup, w: World, a: Action)
    requires Inv(s, w)
    ensures RunsKept(w, Apply(s, w, a))
  {
    hide Drive, Consistent, CanStart;
    match a {
      case DoStart(tenant, workflow, input, agents) =>
        FreshRun(s, w);
        if CanStart(s, workflow, agents) {
          var w1 := Begin(w, tenant, workflow, input);
          DriveKeepsRuns(s, w1, StartConfig(s, workflow, agents), w1.runs[w.nextRun], 0);
        }
      case DoResume(tenant, run) =>
        if Resume(s, w, tenant, run) != w { DriveKeepsRuns(s, w, s.workflows[w.runs[run].workflow], w.runs[run], 0); }
      case DoDecide(tenant, id, status, who, reason) =>
        if status != Approvals.Pending { DecideChanges(w, tenant, id, status, who, reason); }
    }
  }

  function StartConfig(s: Setup, workflow: string, agents: set<string>): Config
    requires CanStart(s, workflow, agents)
  {
    s.workflows[workflow]
  }

  lemma {:induction false} ExecuteKeepsRuns(s: Setup, w: World, actions: seq<Action>)
    requires Inv(s, w)
    ensures RunsKept(w, Execute(s, w, actions))
    decreases |actions|
  {
    hide Apply, Inv;
    if actions != [] {
      ApplyKeeps(s, w, actions[0]);
      ApplyKeepsRuns(s, w, actions[0]);
      ExecuteKeepsRuns(s, Apply(s, w, actions[0]), actions[1..]);
    }
  }

  /**
   * A start is a run of that tenant, workflow and input, whatever is called later; it is refused, and nothing is
   * changed, exactly when the workflow is unknown, one of its agents is, or a step waits for a person and no queue is wired.
   */
  lemma StartsAreRuns(s: Setup, before: seq<Action>, tenant: string, workflow: string, input: string, agents: set<string>, after: seq<Action>)
    requires SetupOk(s)
    ensures var w := Execute(s, NEW, before);
      var start := [DoStart(tenant, workflow, input, agents)];
      var begun, end := Execute(s, NEW, before + start), Execute(s, NEW, before + start + after);
      if workflow in s.workflows
        && (forall step :: step in s.workflows[workflow].steps ==> step.agent in agents && (step.approve ==> s.hasQueue))
      then w.nextRun !in w.runs && w.nextRun in end.runs && SameRun(end.runs[w.nextRun], Run(w.nextRun, tenant, workflow, input, Running, None))
      else begun == w
  {
    hide Drive, Inv, Consistent, RunsKept, SameRun;
    var w, start := Execute(s, NEW, before), DoStart(tenant, workflow, input, agents);
    EveryScheduleKeeps(s, before);
    EveryScheduleKeeps(s, before + [start]);
    ExecuteAppend(s, NEW, before, [start]);
    ExecuteAppend(s, NEW, before + [start], after);
    assert [start][1..] == [];
    assert Execute(s, w, [start]) == Start(s, w, tenant, workflow, input, agents);
    if CanStart(s, workflow, agents) {
      assert w.nextRun !in w.runs by { assert Consistent(s, w) by { InvIsConsistent(s, w); } FreshRun(s, w); }
      var w1 := Begin(w, tenant, workflow, input);
      DriveKeepsRuns(s, w1, s.workflows[workflow], w1.runs[w.nextRun], 0);
      ExecuteKeepsRuns(s, Execute(s, NEW, before + [start]), after);
      KeptRun(w1, Execute(s, NEW, before + [start]), Execute(s, NEW, before + [start] + after), w.nextRun);
      assert SameRun(w1.runs[w.nextRun], Run(w.nextRun, tenant, workflow, input, Running, None)) by { SameAsItself(w1.runs[w.nextRun]); }
      SameRunTransitive(Run(w.nextRun, tenant, workflow, input, Running, None), Execute(s, NEW, before + [start] + after).runs[w.nextRun]);
    }
  }

  lemma InvIsConsistent(s: Setup, w: World)
    requires Inv(s, w)
    ensures Consistent(s, w)
  {}

  lemma KeptRun(a: World, b: World, c: World, run: nat)
    requires RunsKept(a, b) && RunsKept(b, c) && run in a.runs
    ensures run in c.runs && SameRun(a.runs[run], c.runs[run])
  {
    assert SameRun(b.runs[run], c.runs[run]);
  }

  lemma SameAsItself(run: Run)
    ensures SameRun(run, run)
  {}

  lemma SameRunTransitive(a: Run, b: Run)
    requires SameRun(a, b)
    ensures SameRun(b, a)
  {}

  // ---------------------------------------------------------------------------------------------
  // What a resumption does

  lemma {:induction false} DriveToTheFirst(s: Setup, w: World, config: Config, run: Run, i: nat, m: nat)
    requires i <= m < |config.steps| && forall j :: i <= j < m ==> IsDone(w, run.id, config.steps[j])
    ensures Drive(s, w, config, run, i) == Drive(s, w, config, run, m)
    decreases m - i
  {
    hide IsDone;
    if i < m {
      DriveSkips(s, w, config, run, i);
      DriveToTheFirst(s, w, config, run, i + 1, m);
    }
  }

  /** What working on the step a run waits at does, by what it waits for and what was decided. */
  ghost predicate Acts(w: World, w1: World, run: nat, m: nat, row: StepRow, a: Option<Approvals.Approval>) {
    && (a.Some? && a.value.status == Approvals.Pending ==> w1 == w)
    && (a.Some? && a.value.status == Approvals.Rejected ==>
          && run in w1.runs && w1.runs[run].status == Failed
          && run in w1.steps && m < |w1.steps[run]| && w1.steps[run][m].status == Skipped && w1.log == w.log)
    && (a.Some? && (a.value.status == Approvals.Approved || a.value.status == Approvals.ChangesRequested) ==>
          |w1.log| > |w.log| && w.log <= w1.log && IsRun(w1.log[|w.log|], run, row.stepId) && w1.log[|w.log|].prompt == row.prompt)
    && (a.None? ==>
          |w1.log| > |w.log| && w.log <= w1.log && row.session.Some? && w1.log[|w.log|] == AgentResumed(run, row.stepId, row.session.value))
  }

  /** The approval a waiting step is held by; None when its agent holds it. */
  ghost predicate HeldBy(w: World, run: Run, row: StepRow, a: Option<Approvals.Approval>) {
    if row.awaiting == Some(OnStep) then a.Some? && a.value in w.queue.rows && GateRow(a.value, run, row) else a.None?
  }

  lemma WaitingRowActs(s: Setup, w: World, run: Run, m: nat, a: Option<Approvals.Approval>)
    requires ReadyAt(s, w, run, m) && m < |w.steps[run.id]| && HeldBy(w, run, w.steps[run.id][m], a)
    requires a.Some? ==> StepsOf(s, w, run.id)[m].approve
    ensures var step := StepsOf(s, w, run.id)[m];
      var (w1, o) := TakeStep(s, w, run, step);
      var row := w.steps[run.id][m];
      && (a.Some? && a.value.status == Approvals.Pending ==> w1 == w && o == Paused)
      && (a.Some? && a.value.status == Approvals.Rejected ==> o.Rejected? && w1.log == w.log)
      && (a.Some? && (a.value.status == Approvals.Approved || a.value.status == Approvals.ChangesRequested) ==>
            w1.log == w.log + [AgentRan(run.id, step.id, w.sessions + 1, row.prompt)])
      && (a.None? ==> row.session.Some? && w1.log == w.log + [AgentResumed(run.id, step.id, row.session.value)])
  {
    hide LogOk, QueueOk, RowOk, Quotable, Launch, Continue, Calls, Template.Render, Approvals.Lookup, Ask;
    var step, row := StepsOf(s, w, run.id)[m], w.steps[run.id][m];
    var rendered := Template.Render(step.prompt, Quotable(run.input, w.steps[run.id][..m]));
    ReadyPrompt(s, w, run, m);
    assert RunOnRecord(s, w, run.id);
    OpenRow(s, w, run.id, m);
    var prompt := Template.Render(step.prompt, Quotable(run.input, Rows(w, run.id))).value;
    if a.None? {
      HeldSession(row, step, run.input, w.steps[run.id][..m]);
      ContinueSays(s, w, run, step, prompt, row.session.value);
      assert Calls(s, w, Continue(s, w, run, step, prompt, row.session.value).0, AgentResumed(run.id, step.id, row.session.value),
        Continue(s, w, run, step, prompt, row.session.value).1,
        FindStep(Rows(Continue(s, w, run, step, prompt, row.session.value).0, run.id), step.id));
      CallsLog(s, w, Continue(s, w, run, step, prompt, row.session.value).0, AgentResumed(run.id, step.id, row.session.value),
        Continue(s, w, run, step, prompt, row.session.value).1,
        FindStep(Rows(Continue(s, w, run, step, prompt, row.session.value).0, run.id), step.id));
    } else {
      var q :| 0 <= q < |w.queue.rows| && w.queue.rows[q] == a.value;
      GateIsOnTheLog(w, run, row, q);
      assert step in StepsOf(s, w, run.id);
      GateReads(s, w, run, step, prompt, row, q);
      LaunchSays(s, w, run, step, prompt);
      CallsLog(s, w, Launch(s, w, run, step, prompt).0, AgentRan(run.id, step.id, w.sessions + 1, prompt), Launch(s, w, run, step, prompt).1,
        FindStep(Rows(Launch(s, w, run, step, prompt).0, run.id), step.id));
    }
  }

  /** A decided gate, read. */
  lemma GateReads(s: Setup, w: World, run: Run, step: Step, prompt: string, row: StepRow, q: nat)
    requires s.hasQueue && q < |w.queue.rows| && row.status == Waiting && row.approval.Some?
    requires Approvals.Lookup(w.queue, run.tenant, row.approval.value) == Some(w.queue.rows[q])
    ensures var (w1, answer) := Gate(s, w, run, step, prompt, Some(row));
      && (w.queue.rows[q].status == Approvals.Pending ==> w1 == w && answer == Stop(Paused))
      && (w.queue.rows[q].status == Approvals.Rejected ==> answer.Stop? && answer.outcome.Rejected? && w1.log == w.log)
      && (w.queue.rows[q].status == Approvals.Approved || w.queue.rows[q].status == Approvals.ChangesRequested ==> w1 == w && answer == Go)
  {
    hide Approvals.Lookup, Approvals.RequestAll, Upsert;
  }

  lemma CallsLog(s: Setup, w: World, w1: World, e: Event, o: Outcome, row: Option<StepRow>)
    requires Calls(s, w, w1, e, o, row)
    ensures w1.log == w.log + [e]
  {}

  /** What a run awaits, on record. */
  lemma AwaitedRow(s: Setup, w: World, run: nat) returns (m: nat, a: Option<Approvals.Approval>)
    requires Inv(s, w) && Gates.Also(s, w) && run in w.runs && w.runs[run].status == Awaiting
    ensures m == DoneCount(Rows(w, run)) && Walkable(s, w, w.runs[run], 0) && w.runs[run].id == run
    ensures run in w.steps && |w.steps[run]| == m + 1 && w.steps[run][m].status == Waiting && w.runs[run].error.None?
    ensures m < |StepsOf(s, w, run)| && forall j :: 0 <= j < m ==> w.steps[run][j].status == Done
    ensures HeldBy(w, w.runs[run], w.steps[run][m], a) && (a.Some? ==> StepsOf(s, w, run)[m].approve)
  {
    hide LogOk, QueueOk, Template.Render, Quotable, Gates.GatesOk, Gates.Continued;
    ResumeWalks(s, w, run);
    assert Settled(s, w, run) && RunOnRecord(s, w, run);
    m := DoneCount(Rows(w, run));
    var row := w.steps[run][m];
    assert RowOk(StepsOf(s, w, run)[m], w.runs[run].input, w.steps[run][..m], row);
    assert Gates.PromptsOk(s, w, run);
    assert Gates.PromptOk(StepsOf(s, w, run)[m], w.runs[run].input, w.steps[run][..m], row, w.log, run);
    if row.awaiting == Some(OnStep) {
      assert GateRowOk(w, w.runs[run], row);
      var q :| 0 <= q < |w.queue.rows| && GateRow(w.queue.rows[q], w.runs[run], row);
      a := Some(w.queue.rows[q]);
    } else {
      a := None;
    }
  }

  lemma ReadyAtTheFirst(s: Setup, w: World, run: Run, i: nat, m: nat)
    requires Walkable(s, w, run, i) && i <= m < |StepsOf(s, w, run.id)| && |w.steps[run.id]| == m + 1
    requires w.steps[run.id][m].status == Waiting && forall j :: 0 <= j < m ==> w.steps[run.id][j].status == Done
    ensures ReadyAt(s, w, run, m) && OthersSettled(s, w, run.id)
    ensures forall j :: i <= j < m ==> IsDone(w, run.id, StepsOf(s, w, run.id)[j])
    ensures !IsDone(w, run.id, StepsOf(s, w, run.id)[m])
    decreases m - i
  {
    hide LogOk, QueueOk, RunOnRecord, Settled;
    WalkCase(s, w, run, i);
    if i < m {
      assert IsDone(w, run.id, StepsOf(s, w, run.id)[i]);
      ReadyAtTheFirst(s, w, run, i + 1, m);
    }
  }

  /**
   * A resumed run acts on what it waits for, in every reachable state: while its gate is undecided nothing changes;
   * declined, the run fails at that step and nobody is called; decided otherwise, the step's agent is started, with
   * the prompt the person saw; held by its agent, the agent is called again in the same session.
   */
  lemma ResumptionsAct(s: Setup, actions: seq<Action>, run: nat)
    requires SetupOk(s)
    requires var w := Execute(s, NEW, actions); run in w.runs && w.runs[run].status == Awaiting
    ensures var w := Execute(s, NEW, actions);
      var w1, m := Resume(s, w, w.runs[run].tenant, run), DoneCount(Rows(w, run));
      && m < |Rows(w, run)|
      && exists a :: HeldBy(w, w.runs[run], Rows(w, run)[m], a) && Acts(w, w1, run, m, Rows(w, run)[m], a)
  {
    hide Execute, Inv, Drive, Consistent, TakeStep, Walkable, HeldBy, Acts;
    EveryScheduleKeeps(s, actions);
    Gates.EveryScheduleKeepsAlso(s, actions);
    var w := Execute(s, NEW, actions);
    var m, a := AwaitedRow(s, w, run);
    ResumptionActs(s, w, run, m, a);
  }

  lemma ResumptionActs(s: Setup, w: World, run: nat, m: nat, a: Option<Approvals.Approval>)
    requires run in w.runs && w.runs[run].status == Awaiting && w.runs[run].error.None? && w.runs[run].id == run
    requires w.runs[run].workflow in s.workflows && Walkable(s, w, w.runs[run], 0)
    requires run in w.steps && |w.steps[run]| == m + 1 && w.steps[run][m].status == Waiting
    requires m < |StepsOf(s, w, run)| && forall j :: 0 <= j < m ==> w.steps[run][j].status == Done
    requires HeldBy(w, w.runs[run], w.steps[run][m], a) && (a.Some? ==> StepsOf(s, w, run)[m].approve)
    ensures Acts(w, Resume(s, w, w.runs[run].tenant, run), run, m, w.steps[run][m], a)
  {
    hide Drive, Consistent, TakeStep, HeldBy, Settled, OthersSettled, Inv, Acts, ReadyAt;
    ReadyAtTheFirst(s, w, w.runs[run], 0, m);
    DriveToTheFirst(s, w, s.workflows[w.runs[run].workflow], w.runs[run], 0, m);
    DriveActs(s, w, run, m, a);
  }

  lemma DriveActs(s: Setup, w: World, run: nat, m: nat, a: Option<Approvals.Approval>)
    requires run in w.runs && w.runs[run].status == Awaiting && w.runs[run].error.None? && w.runs[run].id == run
    requires w.runs[run].workflow in s.workflows && ReadyAt(s, w, w.runs[run], m) && OthersSettled(s, w, run)
    requires m < |w.steps[run]| && HeldBy(w, w.runs[run], w.steps[run][m], a) && !IsDone(w, run, StepsOf(s, w, run)[m])
    requires a.Some? ==> StepsOf(s, w, run)[m].approve
    ensures Acts(w, Drive(s, w, s.workflows[w.runs[run].workflow], w.runs[run], m), run, m, w.steps[run][m], a)
  {
    hide Drive, Consistent, TakeStep, HeldBy, Settled, Stopped, OthersSettled, Inv;
    var config, step := s.workflows[w.runs[run].workflow], StepsOf(s, w, run)[m];
    DriveUnfolds(s, w, config, w.runs[run], m);
    WaitingRowActs(s, w, w.runs[run], m, a);
    DriveOne(s, w, config, w.runs[run], m);
    TakeStepKeeps(s, w, w.runs[run], m);
    ReadyPrompt(s, w, w.runs[run], m);
    var (w1, o) := TakeStep(s, w, w.runs[run], step);
    if o.Finished? {
      DriveKeeps(s, w1, config, w.runs[run], m + 1);
    } else {
      StoppedShows(s, w, w1, w.runs[run], m, o);
    }
  }

  /** What the store shows after a step that ended the walk without a throw. */
  lemma StoppedShows(s: Setup, w: World, w1: World, run: Run, m: nat, o: Outcome)
    requires Stepped(s, w, w1, run.id, m) && EndsAs(w1.steps[run.id], m, o) && run.id in w.runs
    requires !o.Finished?
    ensures var w2 := Stopped(w1, run, StepsOf(s, w, run.id)[m], Existing(w, run.id, m), o);
      && w2.log == w1.log
      && (o.Paused? && w1 == w && w.runs[run.id].status == Awaiting && w.runs[run.id].error.None? ==> w2 == w)
      && (o.Rejected? ==> run.id in w2.runs && w2.runs[run.id].status == Failed && run.id in w2.steps && m < |w2.steps[run.id]| && w2.steps[run.id][m].status == Skipped)
  {
    hide Upsert, Consistent;
  }
}
