/**
 * The export queue, after `src/telemetry/otlp-trace-recorder.ts`. A flush is a loop that sends a batch, waits
 * for the answer and goes on while anything is queued; several may wait at once, and spans keep arriving.
 * Spans are named by the order in which they are accepted.
 */
module ExportQueue {
  import opened Basics

  datatype Setup = Setup(maxBatch: nat, maxQueue: nat)

  /** A flush waiting for the answer to a batch; `closing` when the recorder stops exporting at its end. */
  datatype Flight = Flight(batch: seq<nat>, closing: bool)

  datatype World = World(
    accepted: nat,
    queue: seq<nat>,
    flights: seq<Flight>,
    sent: seq<seq<nat>>,
    delivered: seq<nat>,
    dropped: seq<nat>,
    reported: nat,
    timer: bool,
    closed: bool)

  const NEW := World(0, [], [], [], [], [], 0, false, false)

  // ---------------------------------------------------------------------------------------------
  // Steps

  /** One turn of a flush loop: take a batch, or be done. */
  function Turn(s: Setup, w: World, closing: bool): World {
    if w.queue == [] then w.(closed := w.closed || closing)
    else
      var n := Min(s.maxBatch, |w.queue|);
      w.(queue := w.queue[n..], flights := w.flights + [Flight(w.queue[..n], closing)], sent := w.sent + [w.queue[..n]])
  }

  function Flush(s: Setup, w: World, closing: bool): World { Turn(s, w.(timer := false), closing) }

  /** The newest span stays; the oldest make room. */
  function Pushed(s: Setup, w: World): World {
    var queue := w.queue + [w.accepted];
    var over := Max(|queue| - s.maxQueue, 0);
    w.(accepted := w.accepted + 1, queue := queue[over..], dropped := w.dropped + queue[..over], reported := w.reported + over)
  }

  function Enqueue(s: Setup, w: World): World {
    if w.closed then w
    else
      var w1 := Pushed(s, w);
      if |w1.queue| >= s.maxBatch then Flush(s, w1, false) else w1.(timer := true)
  }

  /** What an answer does before the loop goes on. */
  function Landed(w: World, k: nat, ok: bool): World
    requires k < |w.flights|
  {
    var flight, w1 := w.flights[k], w.(flights := w.flights[..k] + w.flights[k + 1..]);
    if ok then w1.(delivered := w1.delivered + flight.batch)
    else w1.(dropped := w1.dropped + flight.batch, reported := w1.reported + |flight.batch|)
  }

  /** The collector answers a batch, and the loop that sent it goes on. */
  function Settle(s: Setup, w: World, k: nat, ok: bool): World
    requires k < |w.flights|
  {
    Turn(s, Landed(w, k, ok), w.flights[k].closing)
  }

  datatype Step = Record | TimerFires | FlushCalled | CloseCalled | Answered(flight: nat, ok: bool)

  function Apply(s: Setup, w: World, step: Step): World {
    match step
    case Record => Enqueue(s, w)
    case TimerFires => if w.timer then Flush(s, w, false) else w
    case FlushCalled => Flush(s, w, false)
    case CloseCalled => Flush(s, w, true)
    case Answered(k, ok) => if k < |w.flights| then Settle(s, w, k, ok) else w
  }

  function Run(s: Setup, w: World, steps: seq<Step>): World
    decreases |steps|
  {
    if steps == [] then w else Run(s, Apply(s, w, steps[0]), steps[1..])
  }

  // ---------------------------------------------------------------------------------------------
  // The invariant

  function Carried(flights: seq<Flight>): seq<nat> {
    if flights == [] then [] else flights[0].batch + Carried(flights[1..])
  }

  /** Where every span is, counted. */
  function Spans(w: World): multiset<nat> {
    multiset(w.queue) + multiset(Carried(w.flights)) + multiset(w.delivered) + multiset(w.dropped)
  }

  function UpTo(n: nat): seq<nat> { seq(n, i => i) }

  ghost predicate Ascending(s: seq<nat>, bound: nat) {
    && (forall i, j :: 0 <= i < j < |s| ==> s[i] < s[j])
    && forall i :: 0 <= i < |s| ==> s[i] < bound
  }

  ghost predicate Inv(s: Setup, w: World) {
    && Spans(w) == multiset(UpTo(w.accepted))
    && Ascending(Flatten(w.sent) + w.queue, w.accepted)
    && |w.queue| <= Min(s.maxQueue, s.maxBatch - 1)
    && |w.dropped| == w.reported
    && (w.queue != [] ==> w.timer || w.flights != [])
    && (forall f :: f in w.flights ==> f.batch != [] && |f.batch| <= s.maxBatch && f.batch in w.sent)
  }

  lemma {:induction false} CarriedAppend(a: seq<Flight>, b: seq<Flight>)
    ensures Carried(a + b) == Carried(a) + Carried(b)
  {
    if a == [] {
      assert a + b == b;
    } else {
      assert (a + b)[1..] == a[1..] + b;
      CarriedAppend(a[1..], b);
    }
  }

  lemma CarriedOne(f: Flight)
    ensures Carried([f]) == f.batch
  {
    assert [f][1..] == [];
    assert Carried([f][1..]) == [];
  }

  lemma CarriedPush(a: seq<Flight>, f: Flight)
    ensures Carried(a + [f]) == Carried(a) + f.batch
  {
    CarriedAppend(a, [f]);
    CarriedOne(f);
  }

  lemma CarriedDrop(flights: seq<Flight>, k: nat)
    requires k < |flights|
    ensures multiset(Carried(flights)) == multiset(Carried(flights[..k] + flights[k + 1..])) + multiset(flights[k].batch)
  {
    var a, f, b := flights[..k], flights[k], flights[k + 1..];
    assert flights == a + ([f] + b);
    CarriedAppend(a, [f] + b);
    CarriedAppend([f], b);
    CarriedOne(f);
    CarriedAppend(a, b);
  }

  /** What a turn of a flush needs: the invariant, but for the queue's guard. */
  ghost predicate Loose(s: Setup, w: World) {
    && Spans(w) == multiset(UpTo(w.accepted))
    && Ascending(Flatten(w.sent) + w.queue, w.accepted)
    && |w.queue| <= Min(s.maxQueue, s.maxBatch)
    && |w.dropped| == w.reported
    && (forall f :: f in w.flights ==> f.batch != [] && |f.batch| <= s.maxBatch && f.batch in w.sent)
  }

  lemma TurnKeeps(s: Setup, w: World, closing: bool)
    requires s.maxBatch >= 1 && Loose(s, w)
    ensures Inv(s, Turn(s, w, closing)) && Turn(s, w, closing).queue == []
  {
    hide Ascending, Spans, Flatten;
    var w' := Turn(s, w, closing);
    if w.queue == [] {
      SameSpans(w, w');
    } else {
      var n := Min(s.maxBatch, |w.queue|);
      TurnMoves(w, n, closing, w');
      FlattenPush(w.sent, w.queue[..n]);
      assert Flatten(w'.sent) + w'.queue == Flatten(w.sent) + w.queue by {
        Regroup(Flatten(w.sent), w.queue, n);
      }
      forall f | f in w'.flights ensures f.batch != [] && |f.batch| <= s.maxBatch && f.batch in w'.sent {
        if f !in w.flights { assert f == w'.flights[|w.flights|] && w'.sent[|w.sent|] == f.batch; }
      }
    }
  }

  lemma Regroup(a: seq<nat>, b: seq<nat>, n: nat)
    requires n <= |b|
    ensures a + b[..n] + b[n..] == a + b && multiset(b) == multiset(b[..n]) + multiset(b[n..])
  {
    assert b == b[..n] + b[n..];
  }

  lemma SameSpans(w: World, w': World)
    requires w'.queue == w.queue && w'.flights == w.flights && w'.delivered == w.delivered && w'.dropped == w.dropped
    ensures Spans(w') == Spans(w)
  {}

  /** A batch moves from the queue into flight. */
  lemma TurnMoves(w: World, n: nat, closing: bool, w': World)
    requires n <= |w.queue| && w'.queue == w.queue[n..] && w'.flights == w.flights + [Flight(w.queue[..n], closing)]
    requires w'.delivered == w.delivered && w'.dropped == w.dropped
    ensures Spans(w') == Spans(w)
  {
    CarriedPush(w.flights, Flight(w.queue[..n], closing));
    Regroup([], w.queue, n);
  }

  lemma UpToPush(n: nat)
    ensures multiset(UpTo(n + 1)) == multiset(UpTo(n)) + multiset{n}
  {
    assert UpTo(n + 1) == UpTo(n) + [n];
  }

  lemma PushKeeps(s: Setup, w: World)
    requires s.maxBatch >= 1 && Inv(s, w)
    ensures Loose(s, Pushed(s, w))
  {
    hide Ascending, Spans, Flatten, UpTo, Carried;
    var over := Max(|w.queue| + 1 - s.maxQueue, 0);
    PushMoves(s, w);
    StillAscending(Flatten(w.sent), w.queue, w.accepted, over);
  }

  lemma PushMoves(s: Setup, w: World)
    requires Spans(w) == multiset(UpTo(w.accepted))
    ensures Spans(Pushed(s, w)) == multiset(UpTo(w.accepted + 1))
  {
    hide UpTo, Carried;
    var queue := w.queue + [w.accepted];
    var over := Max(|queue| - s.maxQueue, 0);
    UpToPush(w.accepted);
    Regroup([], queue, over);
    assert multiset(queue) == multiset(w.queue) + multiset{w.accepted};
    Moved(multiset(w.queue), multiset(queue[..over]), multiset(queue[over..]), multiset(Carried(w.flights)),
      multiset(w.delivered), multiset(w.dropped), w.accepted);
    assert multiset(w.dropped + queue[..over]) == multiset(w.dropped) + multiset(queue[..over]);
  }

  lemma Moved(queue: multiset<nat>, first: multiset<nat>, rest: multiset<nat>, carried: multiset<nat>,
              delivered: multiset<nat>, dropped: multiset<nat>, next: nat)
    requires queue + multiset{next} == first + rest
    ensures rest + carried + delivered + (dropped + first) == queue + carried + delivered + dropped + multiset{next}
  {
    forall x ensures (rest + carried + delivered + (dropped + first))[x] == (queue + carried + delivered + dropped + multiset{next})[x] {
      assert (queue + multiset{next})[x] == (first + rest)[x];
    }
  }

  lemma StillAscending(sent: seq<nat>, queue: seq<nat>, next: nat, over: nat)
    requires Ascending(sent + queue, next) && over <= |queue| + 1
    ensures Ascending(sent + (queue + [next])[over..], next + 1)
  {
    var before, after := sent + queue + [next], sent + (queue + [next])[over..];
    forall i, j | 0 <= i < j < |after| ensures after[i] < after[j] {
      var i' := if i < |sent| then i else i + over;
      var j' := if j < |sent| then j else j + over;
      assert after[i] == before[i'] && after[j] == before[j'];
    }
    forall i | 0 <= i < |after| ensures after[i] < next + 1 {
      assert after[i] == before[if i < |sent| then i else i + over];
    }
  }

  lemma StepKeeps(s: Setup, w: World, step: Step)
    requires s.maxBatch >= 1 && Inv(s, w)
    ensures Inv(s, Apply(s, w, step))
  {
    hide Turn, Spans, Ascending, Pushed;
    match step {
      case Record =>
        if !w.closed {
          PushKeeps(s, w);
          var w1 := Pushed(s, w);
          if |w1.queue| >= s.maxBatch {
            assert Loose(s, w1.(timer := false)) by { TimerIsLoose(s, w1, false); }
            TurnKeeps(s, w1.(timer := false), false);
          } else {
            assert Loose(s, w1.(timer := true)) by { TimerIsLoose(s, w1, true); }
          }
        }
      case Answered(k, ok) =>
        if k < |w.flights| {
          AnswerKeeps(s, w, k, ok);
        }
      case _ =>
        assert Loose(s, w.(timer := false)) by { TimerIsLoose(s, w, false); }
        TurnKeeps(s, w.(timer := false), false);
        TurnKeeps(s, w.(timer := false), true);
    }
  }

  lemma TimerIsLoose(s: Setup, w: World, timer: bool)
    requires Loose(s, w)
    ensures Loose(s, w.(timer := timer))
  {
    hide Ascending;
  }

  lemma LandedMoves(w: World, k: nat, ok: bool)
    requires k < |w.flights|
    ensures Spans(Landed(w, k, ok)) == Spans(w)
  {
    hide Carried;
    CarriedDrop(w.flights, k);
  }

  lemma AnswerKeeps(s: Setup, w: World, k: nat, ok: bool)
    requires s.maxBatch >= 1 && Inv(s, w) && k < |w.flights|
    ensures Inv(s, Settle(s, w, k, ok))
  {
    hide Turn, Ascending, Spans, Carried, Flatten, UpTo;
    LandedMoves(w, k, ok);
    var w2 := Landed(w, k, ok);
    assert forall f :: f in w2.flights ==> f in w.flights;
    assert Settle(s, w, k, ok) == Turn(s, w2, w.flights[k].closing);
    TurnKeeps(s, w2, w.flights[k].closing);
  }

  lemma {:induction false} RunKeeps(s: Setup, w: World, steps: seq<Step>)
    requires s.maxBatch >= 1 && Inv(s, w)
    ensures Inv(s, Run(s, w, steps))
    decreases |steps|
  {
    hide Inv, Apply;
    if steps != [] {
      StepKeeps(s, w, steps[0]);
      RunKeeps(s, Apply(s, w, steps[0]), steps[1..]);
    }
  }

  lemma StartsOk(s: Setup)
    requires s.maxBatch >= 1
    ensures Inv(s, NEW)
  {
    assert UpTo(0) == [];
  }

  // ---------------------------------------------------------------------------------------------
  // The theorems, over any interleaving

  /** Every accepted span is queued, in flight, delivered or reported dropped: one of them, once. */
  lemma EverySpanIsSomewhereOnce(s: Setup, steps: seq<Step>, span: nat)
    requires s.maxBatch >= 1 && span < Run(s, NEW, steps).accepted
    ensures var w := Run(s, NEW, steps);
      && multiset(w.queue)[span] + multiset(Carried(w.flights))[span] + multiset(w.delivered)[span] + multiset(w.dropped)[span] == 1
      && |w.dropped| == w.reported
  {
    hide Run, Ascending;
    StartsOk(s);
    RunKeeps(s, NEW, steps);
    var w := Run(s, NEW, steps);
    Once(w.accepted, span);
    assert Spans(w)[span] == 1;
  }

  lemma {:induction false} Once(n: nat, i: nat)
    requires i < n
    ensures multiset(UpTo(n))[i] == 1
  {
    UpToPush(n - 1);
    if i < n - 1 {
      Once(n - 1, i);
    } else {
      assert n - 1 !in UpTo(n - 1);
    }
  }

  /** Batches go out in the order the spans came, and no span goes out twice; what is queued is newer than what was sent. */
  lemma BatchesAreInOrder(s: Setup, steps: seq<Step>, i: nat, j: nat)
    requires s.maxBatch >= 1
    requires var w := Run(s, NEW, steps); i < j < |Flatten(w.sent) + w.queue|
    ensures var w := Run(s, NEW, steps); (Flatten(w.sent) + w.queue)[i] < (Flatten(w.sent) + w.queue)[j]
  {
    hide Run, Spans;
    StartsOk(s);
    RunKeeps(s, NEW, steps);
  }

  /** The queue never holds more than its limit, nor a whole batch, and what it holds is on its way to being flushed. */
  lemma QueueIsBounded(s: Setup, steps: seq<Step>)
    requires s.maxBatch >= 1
    ensures var w := Run(s, NEW, steps);
      && |w.queue| <= Min(s.maxQueue, s.maxBatch - 1)
      && (w.queue != [] ==> w.timer || w.flights != [])
  {
    hide Run, Spans, Ascending;
    StartsOk(s);
    RunKeeps(s, NEW, steps);
  }

  /** What a loop of a flush does with the queue it finds: it sends the oldest spans, a batch of them, or is done. */
  ghost predicate TakesTheOldest(s: Setup, queue: seq<nat>, before: World, after: World, closing: bool) {
    if queue == [] then
      after.queue == [] && after.flights == before.flights && after.sent == before.sent && after.closed == (before.closed || closing)
    else
      && |after.flights| == |before.flights| + 1 && after.flights[..|before.flights|] == before.flights
      && var batch := after.flights[|before.flights|].batch;
      && after.flights[|before.flights|].closing == closing && after.sent == before.sent + [batch]
      && queue == batch + after.queue && 1 <= |batch| <= s.maxBatch && (|batch| < s.maxBatch ==> after.queue == [])
      && after.closed == before.closed
  }

  /**
   * What each step does, in every reachable state: spans are delivered exactly by a good answer to their batch, and given up
   * exactly by a bad one or, the oldest first, by a span for which there is no room; once closed nothing is accepted.
   */
  lemma StepsDecide(s: Setup, w: World, step: Step)
    requires s.maxBatch >= 1 && Inv(s, w)
    ensures var w1 := Apply(s, w, step);
      match step
      case Record =>
        if w.closed then w1 == w
        else
          && w1.accepted == w.accepted + 1 && w1.delivered == w.delivered
          && w1.dropped == w.dropped + (if |w.queue| < s.maxQueue then [] else [(w.queue + [w.accepted])[0]])
          && var queue := if |w.queue| < s.maxQueue then w.queue + [w.accepted] else (w.queue + [w.accepted])[1..];
          && if |queue| >= s.maxBatch then TakesTheOldest(s, queue, w, w1, false) && !w1.timer
             else w1.queue == queue && w1.flights == w.flights && w1.sent == w.sent && w1.timer
      case Answered(k, ok) =>
        if k >= |w.flights| then w1 == w
        else
          var flight, landed := w.flights[k], w.(flights := w.flights[..k] + w.flights[k + 1..]);
          && w1.accepted == w.accepted
          && w1.delivered == w.delivered + (if ok then flight.batch else [])
          && w1.dropped == w.dropped + (if ok then [] else flight.batch)
          && w1.reported == w.reported + (if ok then 0 else |flight.batch|)
          && TakesTheOldest(s, w.queue, landed, w1, flight.closing)
      case TimerFires =>
        w1.accepted == w.accepted && w1.delivered == w.delivered && w1.dropped == w.dropped
        && if w.timer then TakesTheOldest(s, w.queue, w, w1, false) && !w1.timer else w1 == w
      case FlushCalled => w1.accepted == w.accepted && w1.delivered == w.delivered && w1.dropped == w.dropped && TakesTheOldest(s, w.queue, w, w1, false)
      case CloseCalled => w1.accepted == w.accepted && w1.delivered == w.delivered && w1.dropped == w.dropped && TakesTheOldest(s, w.queue, w, w1, true)
  {
    hide Spans, Ascending, Flatten, TakesTheOldest, Turn;
    match step {
      case Record =>
        if !w.closed {
          var queue := w.queue + [w.accepted];
          assert queue[0..] == queue && queue[..0] == [];
          TurnTakes(s, Pushed(s, w).(timer := false), false);
          TakesFrom(s, Pushed(s, w).queue, Pushed(s, w).(timer := false), w, Apply(s, w, step), false);
        }
      case Answered(k, ok) =>
        if k < |w.flights| {
          var landed := w.(flights := w.flights[..k] + w.flights[k + 1..]);
          TurnTakes(s, Landed(w, k, ok), w.flights[k].closing);
          TakesFrom(s, w.queue, Landed(w, k, ok), landed, Apply(s, w, step), w.flights[k].closing);
        }
      case TimerFires =>
        TurnTakes(s, w.(timer := false), false);
        TakesFrom(s, w.queue, w.(timer := false), w, Flush(s, w, false), false);
      case FlushCalled =>
        TurnTakes(s, w.(timer := false), false);
        TakesFrom(s, w.queue, w.(timer := false), w, Flush(s, w, false), false);
      case CloseCalled =>
        TurnTakes(s, w.(timer := false), true);
        TakesFrom(s, w.queue, w.(timer := false), w, Flush(s, w, true), true);
    }
  }

  lemma TurnTakes(s: Setup, w: World, closing: bool)
    requires s.maxBatch >= 1
    ensures var w1 := Turn(s, w, closing);
      && TakesTheOldest(s, w.queue, w, w1, closing) && w1.accepted == w.accepted
      && w1.delivered == w.delivered && w1.dropped == w.dropped && w1.reported == w.reported && w1.timer == w.timer
  {
    assert w.queue != [] ==> w.queue == w.queue[..Min(s.maxBatch, |w.queue|)] + w.queue[Min(s.maxBatch, |w.queue|)..];
  }

  lemma TakesFrom(s: Setup, queue: seq<nat>, a: World, b: World, after: World, closing: bool)
    requires a.flights == b.flights && a.sent == b.sent && a.closed == b.closed
    ensures TakesTheOldest(s, queue, a, after, closing) <==> TakesTheOldest(s, queue, b, after, closing)
  {}

  // ---------------------------------------------------------------------------------------------
  // The recorder's own fields

  class OtlpQueue {
    const setup: Setup
    var queue: seq<nat>
    var timer: bool
    var closed: bool
    var reported: nat
    var accepted: nat
    var flights: seq<Flight>
    ghost var sent: seq<seq<nat>>
    ghost var delivered: seq<nat>
    ghost var dropped: seq<nat>

    ghost function Now(): World
      reads this
    {
      World(accepted, queue, flights, sent, delivered, dropped, reported, timer, closed)
    }

    constructor (setup: Setup)
      ensures this.setup == setup && Now() == NEW
    {
      this.setup := setup;
      queue, timer, closed, reported, accepted, flights := [], false, false, 0, 0, [];
      sent, delivered, dropped := [], [], [];
    }

    /** What a flush does each time round its loop. */
    method TakeBatch(closing: bool)
      modifies this
      ensures Now() == Turn(setup, old(Now()), closing)
    {
      if |queue| == 0 {
        closed := closed || closing;
        return;
      }
      var n := Min(setup.maxBatch, |queue|);
      var batch := queue[..n];
      queue := queue[n..];
      flights := flights + [Flight(batch, closing)];
      sent := sent + [batch];
    }

    method StartFlush(closing: bool)
      modifies this
      ensures Now() == Flush(setup, old(Now()), closing)
    {
      timer := false;
      TakeBatch(closing);
    }

    method Push()
      modifies this
      ensures Now() == Enqueue(setup, old(Now()))
    {
      if closed {
        return;
      }
      queue := queue + [accepted];
      accepted := accepted + 1;
      ghost var whole := queue;
      if |queue| > setup.maxQueue {
        var over := |queue| - setup.maxQueue;
        dropped := dropped + queue[..over];
        queue := queue[over..];
        reported := reported + over;
      }
      assert Now() == Pushed(setup, old(Now())) by {
        if |whole| <= setup.maxQueue { assert whole[0..] == whole && old(dropped) + whole[..0] == old(dropped); }
      }
      if |queue| >= setup.maxBatch {
        StartFlush(false);
        return;
      }
      timer := true;
    }

    method Answer(k: nat, ok: bool)
      requires k < |flights|
      modifies this
      ensures Now() == Settle(setup, old(Now()), k, ok)
    {
      var flight := flights[k];
      flights := flights[..k] + flights[k + 1..];
      if ok {
        delivered := delivered + flight.batch;
      } else {
        dropped := dropped + flight.batch;
        reported := reported + |flight.batch|;
      }
      TakeBatch(flight.closing);
    }
  }
}
