/** The fan-out/fan-in pipeline that both analyses run on: a dispatcher, a
    buffered work channel, workers that each read through an or-done stage, an
    unbuffered result channel, a closer that waits for the workers, and an
    aggregator (option-b/internal/pipeline/route_risk.go:137-180 and 339-360,
    intercept.go:138-183).

    Every channel operation of every goroutine is a step of its own, except that
    a send on an unbuffered channel and its receive are one. Steps interleave in
    any order, and the context may be cancelled at any moment. */
module FanOut {

  datatype Dispatcher = Feeding | Leaving | Gone

  /** The or-done stage of one worker; once closed, so is its output channel. */
  datatype OrDone<W> = Receiving | Sending(item: W) | Closed

  /** A worker waits for work, holds a finished score, or has left. */
  datatype Worker<W> = Ranging | Holding(work: W) | Finished

  datatype Lane<W> = Lane(orDone: OrDone<W>, worker: Worker<W>)

  datatype Pipeline<W> = Pipeline(
    cap: nat,
    todo: seq<W>,
    dispatcher: Dispatcher,
    buffer: seq<W>,
    workClosed: bool,
    lanes: seq<Lane<W>>,
    wg: int,
    resultClosed: bool,
    collected: seq<W>,
    aggregating: bool,
    dropped: seq<W>,
    cancelled: bool)

  /** What can happen in a lane: its stage takes an item or closes, an item passes
      from the stage to the worker, a score is collected, or the worker leaves. */
  datatype LaneStep = Receive | OrDoneLeaves | HandOver | Deliver | WorkerLeaves

  datatype Step =
    | Feed | DispatcherLeaves | CloseWork | InLane(lane: nat, step: LaneStep) | CloseResults | AggregatorLeaves | Cancel

  function FreshLanes<W>(workers: nat): seq<Lane<W>> {
    seq(workers, _ => Lane(Receiving, Ranging))
  }

  function NewPipeline<W>(works: seq<W>, cap: nat, workers: nat): Pipeline<W> {
    Pipeline(cap, works, Feeding, [], false, FreshLanes(workers), workers, false, [], true, [], false)
  }

  predicate LaneEnabled<W>(p: Pipeline<W>, l: Lane<W>, s: LaneStep) {
    match s
    case Receive => l.orDone.Receiving? && p.buffer != []
    case OrDoneLeaves =>
      || (l.orDone.Receiving? && (p.cancelled || (p.workClosed && p.buffer == [])))
      || (l.orDone.Sending? && p.cancelled)
    case HandOver => l.orDone.Sending? && l.worker.Ranging?
    case Deliver => l.worker.Holding? && p.aggregating
    case WorkerLeaves => (l.worker.Ranging? && l.orDone.Closed?) || (l.worker.Holding? && p.cancelled)
  }

  function LaneAfter<W>(p: Pipeline<W>, l: Lane<W>, s: LaneStep): Lane<W>
    requires LaneEnabled(p, l, s)
  {
    match s
    case Receive => l.(orDone := Sending(p.buffer[0]))
    case OrDoneLeaves => l.(orDone := Closed)
    case HandOver => Lane(Receiving, Holding(l.orDone.item))
    case Deliver => l.(worker := Ranging)
    case WorkerLeaves => l.(worker := Finished)
  }

  /** The item a goroutine gives up when it leaves. */
  function GivenUp<W>(l: Lane<W>, s: LaneStep): seq<W> {
    if s.OrDoneLeaves? && l.orDone.Sending? then [l.orDone.item]
    else if s.WorkerLeaves? && l.worker.Holding? then [l.worker.work]
    else []
  }

  function BufferAfter<W>(p: Pipeline<W>, l: Lane<W>, s: LaneStep): seq<W>
    requires LaneEnabled(p, l, s)
  {
    if s.Receive? then p.buffer[1..] else p.buffer
  }

  function Delivered<W>(p: Pipeline<W>, l: Lane<W>, s: LaneStep): seq<W>
    requires LaneEnabled(p, l, s)
  {
    if s.Deliver? then [l.worker.work] else []
  }

  predicate Enabled<W>(p: Pipeline<W>, s: Step) {
    match s
    case Feed => p.dispatcher == Feeding && p.todo != [] && |p.buffer| < p.cap
    case DispatcherLeaves => p.dispatcher == Feeding && (p.todo == [] || p.cancelled)
    case CloseWork => p.dispatcher == Leaving
    case InLane(i, step) => i < |p.lanes| && LaneEnabled(p, p.lanes[i], step)
    case CloseResults => p.wg == 0 && !p.resultClosed
    case AggregatorLeaves => p.aggregating && p.resultClosed
    case Cancel => !p.cancelled
  }

  function Do<W>(p: Pipeline<W>, s: Step): Pipeline<W>
    requires Enabled(p, s)
  {
    match s
    case Feed => p.(todo := p.todo[1..], buffer := p.buffer + [p.todo[0]])
    case DispatcherLeaves => p.(dispatcher := Leaving)
    case CloseWork => p.(dispatcher := Gone, workClosed := true)
    case InLane(i, step) =>
      var l := p.lanes[i];
      p.(lanes := p.lanes[i := LaneAfter(p, l, step)],
         buffer := BufferAfter(p, l, step),
         collected := p.collected + Delivered(p, l, step),
         dropped := p.dropped + GivenUp(l, step),
         wg := if step.WorkerLeaves? then p.wg - 1 else p.wg)
    case CloseResults => p.(resultClosed := true)
    case AggregatorLeaves => p.(aggregating := false)
    case Cancel => p.(cancelled := true)
  }

  // ----- runs ----------------------------------------------------------------

  function StateAfter<W(==)>(p: Pipeline<W>, steps: seq<Step>): Pipeline<W> {
    if steps == [] then p
    else
      var q := StateAfter(p, steps[..|steps| - 1]);
      if Enabled(q, steps[|steps| - 1]) then Do(q, steps[|steps| - 1]) else q
  }

  predicate IsRun<W(==)>(p: Pipeline<W>, steps: seq<Step>) {
    steps == [] || (IsRun(p, steps[..|steps| - 1]) && Enabled(StateAfter(p, steps[..|steps| - 1]), steps[|steps| - 1]))
  }

  // ----- what is held where --------------------------------------------------

  /** How often `w` is held in the lanes. */
  function Held<W(==)>(lanes: seq<Lane<W>>, w: W): nat {
    if lanes == [] then 0 else Held(lanes[..|lanes| - 1], w) + HeldIn(lanes[|lanes| - 1], w)
  }

  function HeldIn<W(==)>(lane: Lane<W>, w: W): nat {
    (if lane.orDone == Sending(w) then 1 else 0) + (if lane.worker == Holding(w) then 1 else 0)
  }

  function Unfinished<W>(lanes: seq<Lane<W>>): nat {
    if lanes == [] then 0 else Unfinished(lanes[..|lanes| - 1]) + Busy(lanes[|lanes| - 1])
  }

  function Busy<W>(lane: Lane<W>): nat {
    if lane.worker.Finished? then 0 else 1
  }

  lemma {:induction false} LaneChanges<W>(lanes: seq<Lane<W>>, i: nat, lane: Lane<W>, w: W)
    requires i < |lanes|
    ensures Held(lanes[i := lane], w) + HeldIn(lanes[i], w) == Held(lanes, w) + HeldIn(lane, w)
  {
    hide HeldIn;
    var n := |lanes| - 1;
    if i < n {
      LaneChanges(lanes[..n], i, lane, w);
      assert lanes[i := lane][..n] == lanes[..n][i := lane];
    } else {
      assert lanes[i := lane][..n] == lanes[..n];
    }
  }

  lemma {:induction false} BusyChanges<W>(lanes: seq<Lane<W>>, i: nat, lane: Lane<W>)
    requires i < |lanes|
    ensures Unfinished(lanes[i := lane]) + Busy(lanes[i]) == Unfinished(lanes) + Busy(lane)
  {
    hide Busy;
    var n := |lanes| - 1;
    if i < n {
      BusyChanges(lanes[..n], i, lane);
      assert lanes[i := lane][..n] == lanes[..n][i := lane];
    } else {
      assert lanes[i := lane][..n] == lanes[..n];
    }
  }

  lemma {:induction false} NoneUnfinished<W>(lanes: seq<Lane<W>>)
    ensures Unfinished(lanes) == 0 <==> forall i | 0 <= i < |lanes| :: lanes[i].worker.Finished?
  {
    if lanes != [] { NoneUnfinished(lanes[..|lanes| - 1]); }
  }

  lemma {:induction false} NothingHeld<W>(lanes: seq<Lane<W>>, w: W)
    requires forall i | 0 <= i < |lanes| :: !lanes[i].orDone.Sending? && !lanes[i].worker.Holding?
    ensures Held(lanes, w) == 0
  {
    if lanes != [] { NothingHeld(lanes[..|lanes| - 1], w); }
  }

  lemma {:induction false} NewLanes<W>(n: nat)
    ensures Unfinished(FreshLanes<W>(n)) == n && Lively(FreshLanes<W>(n)) == 2 * n
  {
    if n > 0 {
      NewLanes<W>(n - 1);
      assert FreshLanes<W>(n)[..n - 1] == FreshLanes<W>(n - 1);
    }
  }

  // ----- the invariant -------------------------------------------------------

  /** Nothing is lost and nothing is invented. */
  ghost predicate Conserves<W(!new)>(works: seq<W>, p: Pipeline<W>) {
    forall w :: Copies(p, w) == multiset(works)[w]
  }

  /** How often `w` is left to dispatch, buffered, held, collected or dropped. */
  function Copies<W(==)>(p: Pipeline<W>, w: W): nat {
    multiset(p.todo)[w] + multiset(p.buffer)[w] + Held(p.lanes, w) + multiset(p.collected)[w] + multiset(p.dropped)[w]
  }

  /** An or-done stage closes when there is no more work, a worker leaves when its
      stage is closed; before that only if the context is cancelled. */
  predicate LaneOk<W>(p: Pipeline<W>, lane: Lane<W>) {
    && (lane.orDone.Closed? ==> p.cancelled || (p.workClosed && p.buffer == []))
    && (lane.worker.Finished? ==> p.cancelled || lane.orDone.Closed?)
  }

  predicate Orderly<W>(p: Pipeline<W>) {
    && (p.workClosed <==> p.dispatcher == Gone)
    && (p.dispatcher != Feeding ==> p.todo == [] || p.cancelled)
    && |p.buffer| <= p.cap
    && (p.resultClosed ==> p.wg == 0)
    && (!p.aggregating ==> p.resultClosed)
    && (p.dropped != [] ==> p.cancelled)
    && forall i | 0 <= i < |p.lanes| :: LaneOk(p, p.lanes[i])
  }

  ghost predicate Inv<W(!new)>(works: seq<W>, p: Pipeline<W>) {
    Conserves(works, p) && Orderly(p) && p.wg == Unfinished(p.lanes)
  }

  /** A lane passes on or gives up what it takes. */
  lemma LaneConserves<W>(p: Pipeline<W>, l: Lane<W>, s: LaneStep, w: W)
    requires LaneEnabled(p, l, s)
    ensures HeldIn(l, w) + multiset(p.buffer)[w]
         == HeldIn(LaneAfter(p, l, s), w) + multiset(BufferAfter(p, l, s))[w]
            + multiset(Delivered(p, l, s))[w] + multiset(GivenUp(l, s))[w]
  {
    if s.Receive? {
      assert p.buffer == [p.buffer[0]] + p.buffer[1..];
    }
  }

  lemma CopiesNext<W>(p: Pipeline<W>, s: Step, w: W)
    requires Enabled(p, s)
    ensures Copies(Do(p, s), w) == Copies(p, w)
  {
    if s.InLane? {
      LaneConserves(p, p.lanes[s.lane], s.step, w);
      LaneChanges(p.lanes, s.lane, LaneAfter(p, p.lanes[s.lane], s.step), w);
    } else if s.Feed? {
      assert p.todo == [p.todo[0]] + p.todo[1..];
    }
    hide Held, HeldIn, LaneAfter, BufferAfter, Delivered, GivenUp, LaneEnabled;
  }

  lemma LaneOkNext<W>(p: Pipeline<W>, l: Lane<W>, s: LaneStep)
    requires LaneEnabled(p, l, s) && LaneOk(p, l)
    ensures LaneOk(p.(buffer := BufferAfter(p, l, s)), LaneAfter(p, l, s))
    ensures GivenUp(l, s) != [] ==> p.cancelled
    ensures |BufferAfter(p, l, s)| <= |p.buffer|
    ensures Busy(LaneAfter(p, l, s)) == Busy(l) - if s.WorkerLeaves? then 1 else 0
  {}

  lemma OrderlyNext<W>(p: Pipeline<W>, s: Step)
    requires Orderly(p) && Enabled(p, s) && p.wg == Unfinished(p.lanes)
    ensures Orderly(Do(p, s)) && Do(p, s).wg == Unfinished(Do(p, s).lanes)
  {
    var q := Do(p, s);
    if s.InLane? {
      var l := p.lanes[s.lane];
      LaneOkNext(p, l, s.step);
      BusyChanges(p.lanes, s.lane, LaneAfter(p, l, s.step));
    }
    hide Unfinished, Busy, LaneAfter, BufferAfter, Delivered, GivenUp, LaneEnabled;
  }

  lemma {:induction false} InvHolds<W(!new)>(works: seq<W>, cap: nat, workers: nat, steps: seq<Step>)
    requires IsRun(NewPipeline(works, cap, workers), steps)
    ensures Inv(works, StateAfter(NewPipeline(works, cap, workers), steps))
  {
    var start := NewPipeline(works, cap, workers);
    if steps == [] {
      NewLanes<W>(workers);
      forall w: W ensures Held(start.lanes, w) == 0 {
        NothingHeld(start.lanes, w);
      }
    } else {
      var init, last := steps[..|steps| - 1], steps[|steps| - 1];
      InvHolds(works, cap, workers, init);
      hide Orderly, NewPipeline, Copies, Do, Enabled;
      forall w: W ensures Copies(StateAfter(start, steps), w) == Copies(StateAfter(start, init), w) {
        CopiesNext(StateAfter(start, init), last, w);
      }
      OrderlyNext(StateAfter(start, init), last);
    }
  }

  // ----- theorems ------------------------------------------------------------

  /** Whoever is about to send finds the channel open. */
  lemma NoSendOnClosedChannel<W(!new)>(works: seq<W>, cap: nat, workers: nat, steps: seq<Step>)
    requires IsRun(NewPipeline(works, cap, workers), steps)
    ensures var p := StateAfter(NewPipeline(works, cap, workers), steps);
            && (p.dispatcher == Feeding ==> !p.workClosed)
            && (forall i | 0 <= i < |p.lanes| && p.lanes[i].worker.Holding? :: !p.resultClosed)
            && p.wg >= 0
  {
    InvHolds(works, cap, workers, steps);
    NoneUnfinished(StateAfter(NewPipeline(works, cap, workers), steps).lanes);
    hide NewPipeline, Conserves;
  }

  /** All goroutines have returned. */
  predicate Terminated<W>(p: Pipeline<W>) {
    && p.dispatcher == Gone && p.resultClosed && !p.aggregating
    && forall i | 0 <= i < |p.lanes| :: p.lanes[i] == Lane(Closed, Finished)
  }

  /** Deadlock freedom: as long as any goroutine is left, one of them can move,
      without waiting for a cancellation. */
  lemma SomethingCanMove<W(!new)>(works: seq<W>, p: Pipeline<W>) returns (s: Step)
    requires Inv(works, p) && p.cap > 0 && |p.lanes| > 0 && !Terminated(p)
    ensures s != Cancel && Enabled(p, s)
  {
    hide Conserves, Held;
    NoneUnfinished(p.lanes);
    if p.dispatcher == Leaving {
      s := CloseWork;
    } else if p.dispatcher == Feeding && (p.todo == [] || p.cancelled) {
      s := DispatcherLeaves;
    } else if p.dispatcher == Feeding && |p.buffer| < p.cap {
      s := Feed;
    } else if i :| 0 <= i < |p.lanes| && p.lanes[i] != Lane(Closed, Finished) {
      s := LaneCanMove(p, i);
    } else if !p.resultClosed {
      s := CloseResults;
    } else {
      s := AggregatorLeaves;
    }
  }

  lemma LaneCanMove<W>(p: Pipeline<W>, i: nat) returns (s: Step)
    requires Orderly(p) && p.wg == Unfinished(p.lanes) && p.cap > 0
    requires i < |p.lanes| && p.lanes[i] != Lane(Closed, Finished)
    requires p.dispatcher == Feeding ==> p.buffer != []
    requires p.dispatcher != Leaving
    ensures s != Cancel && Enabled(p, s)
  {
    NoneUnfinished(p.lanes);
    hide Unfinished;
    var lane := p.lanes[i];
    assert LaneOk(p, lane);
    var step :=
      if lane.orDone.Receiving? then (if p.buffer != [] then Receive else OrDoneLeaves)
      else if lane.worker.Holding? then Deliver
      else if lane.orDone.Sending? then (if lane.worker.Ranging? then HandOver else OrDoneLeaves)
      else WorkerLeaves;
    s := InLane(i, step);
  }

  /** How many steps are left at most. */
  function Measure<W>(p: Pipeline<W>): int {
    4 * |p.todo| + 3 * |p.buffer| + Lively(p.lanes)
    + (match p.dispatcher { case Feeding => 2 case Leaving => 1 case Gone => 0 })
    + (if p.resultClosed then 0 else 1) + (if p.aggregating then 1 else 0) + (if p.cancelled then 0 else 1)
  }

  function LaneMeasure<W>(lane: Lane<W>): nat {
    (match lane.orDone { case Receiving => 1 case Sending(_) => 3 case Closed => 0 })
    + (match lane.worker { case Ranging => 1 case Holding(_) => 2 case Finished => 0 })
  }

  function Lively<W>(lanes: seq<Lane<W>>): nat {
    if lanes == [] then 0 else Lively(lanes[..|lanes| - 1]) + LaneMeasure(lanes[|lanes| - 1])
  }

  lemma {:induction false} LivelyChanges<W>(lanes: seq<Lane<W>>, i: nat, lane: Lane<W>)
    requires i < |lanes|
    ensures Lively(lanes[i := lane]) + LaneMeasure(lanes[i]) == Lively(lanes) + LaneMeasure(lane)
  {
    hide LaneMeasure;
    var n := |lanes| - 1;
    if i < n {
      LivelyChanges(lanes[..n], i, lane);
      assert lanes[i := lane][..n] == lanes[..n][i := lane];
    } else {
      assert lanes[i := lane][..n] == lanes[..n];
    }
  }

  lemma LaneStepCounts<W>(p: Pipeline<W>, l: Lane<W>, s: LaneStep)
    requires LaneEnabled(p, l, s)
    ensures 3 * |BufferAfter(p, l, s)| + LaneMeasure(LaneAfter(p, l, s)) < 3 * |p.buffer| + LaneMeasure(l)
  {}

  lemma EveryStepCounts<W>(p: Pipeline<W>, s: Step)
    requires Enabled(p, s)
    ensures Measure(Do(p, s)) < Measure(p)
  {
    if s.InLane? {
      LaneStepCounts(p, p.lanes[s.lane], s.step);
      LivelyChanges(p.lanes, s.lane, LaneAfter(p, p.lanes[s.lane], s.step));
    }
    hide Lively, LaneMeasure, LaneAfter, BufferAfter, Delivered, GivenUp, LaneEnabled;
  }

  /** No run is longer than this, whatever the scheduling. */
  lemma {:induction false} RunsAreShort<W(!new)>(works: seq<W>, cap: nat, workers: nat, steps: seq<Step>)
    requires IsRun(NewPipeline(works, cap, workers), steps)
    ensures 0 <= Measure(StateAfter(NewPipeline(works, cap, workers), steps)) <= 4 * |works| + 2 * workers + 5 - |steps|
  {
    var start := NewPipeline(works, cap, workers);
    if steps == [] {
      NewLanes<W>(workers);
    } else {
      hide NewPipeline;
      RunsAreShort(works, cap, workers, steps[..|steps| - 1]);
      EveryStepCounts(StateAfter(start, steps[..|steps| - 1]), steps[|steps| - 1]);
    }
  }

  /** When the aggregator is through, it has one score per work item, or, if the
      context was cancelled, for part of them. When all goroutines have returned,
      every item was collected, given up, or left in the buffer or undispatched. */
  lemma OneScorePerWorkItem<W(!new)>(works: seq<W>, cap: nat, workers: nat, steps: seq<Step>)
    requires IsRun(NewPipeline(works, cap, workers), steps) && workers > 0
    ensures var p := StateAfter(NewPipeline(works, cap, workers), steps);
            && multiset(p.collected) <= multiset(works)
            && (!p.aggregating && !p.cancelled ==> multiset(p.collected) == multiset(works) && Terminated(p))
            && (Terminated(p) ==>
                  multiset(p.collected) + multiset(p.dropped) + multiset(p.buffer) + multiset(p.todo)
                  == multiset(works))
  {
    InvHolds(works, cap, workers, steps);
    LanesStay(works, cap, workers, steps);
    var p := StateAfter(NewPipeline(works, cap, workers), steps);
    hide IsRun, NewPipeline, StateAfter, Held;
    forall w: W ensures multiset(p.collected)[w] <= multiset(works)[w] {
      assert Copies(p, w) == multiset(works)[w];
    }
    if !p.aggregating && !p.cancelled {
      NoneUnfinished(p.lanes);
      assert LaneOk(p, p.lanes[0]);
      forall i | 0 <= i < |p.lanes| ensures p.lanes[i] == Lane(Closed, Finished) {
        assert LaneOk(p, p.lanes[i]);
      }
      assert p.todo == [] && p.buffer == [] && p.dropped == [];
    }
    if Terminated(p) {
      forall w: W
        ensures multiset(p.collected)[w] + multiset(p.dropped)[w] + multiset(p.buffer)[w] + multiset(p.todo)[w]
            == multiset(works)[w]
      {
        NothingHeld(p.lanes, w);
        assert Copies(p, w) == multiset(works)[w];
      }
    }
  }

  lemma {:induction false} LanesStay<W(!new)>(works: seq<W>, cap: nat, workers: nat, steps: seq<Step>)
    requires IsRun(NewPipeline(works, cap, workers), steps)
    ensures var p := StateAfter(NewPipeline(works, cap, workers), steps); |p.lanes| == workers && p.cap == cap
  {
    if steps != [] {
      var init, last := steps[..|steps| - 1], steps[|steps| - 1];
      hide NewPipeline, Do, Enabled;
      LanesStay(works, cap, workers, init);
      SameLanes(StateAfter(NewPipeline(works, cap, workers), init), last);
    }
  }

  lemma SameLanes<W>(p: Pipeline<W>, s: Step)
    requires Enabled(p, s)
    ensures |Do(p, s).lanes| == |p.lanes| && Do(p, s).cap == p.cap
  {}

  /** Every run can be continued until all goroutines have returned, whether the
      context has been cancelled or not. */
  lemma {:induction false} RunsCanFinish<W(!new)>(
      works: seq<W>, cap: nat, workers: nat, steps: seq<Step>)
    returns (all: seq<Step>)
    requires IsRun(NewPipeline(works, cap, workers), steps) && cap > 0 && workers > 0
    ensures IsRun(NewPipeline(works, cap, workers), all) && steps <= all
    ensures Terminated(StateAfter(NewPipeline(works, cap, workers), all))
    ensures StateAfter(NewPipeline(works, cap, workers), all).cancelled
        == StateAfter(NewPipeline(works, cap, workers), steps).cancelled
    decreases Measure(StateAfter(NewPipeline(works, cap, workers), steps))
  {
    var start := NewPipeline(works, cap, workers);
    var p := StateAfter(start, steps);
    InvHolds(works, cap, workers, steps);
    LanesStay(works, cap, workers, steps);
    RunsAreShort(works, cap, workers, steps);
    hide NewPipeline, Inv, Terminated, Measure;
    if Terminated(p) {
      all := steps;
    } else {
      var s := SomethingCanMove(works, p);
      assert (steps + [s])[..|steps|] == steps;
      assert IsRun(start, steps + [s]) && StateAfter(start, steps + [s]) == Do(p, s);
      EveryStepCounts(p, s);
      RunsAreShort(works, cap, workers, steps + [s]);
      all := RunsCanFinish(works, cap, workers, steps + [s]);
    }
  }
}
