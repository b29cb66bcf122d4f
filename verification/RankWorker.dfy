/** One rank of the ranked training run: a training step from backward to the averaged gradients under
    each of the seven reducer policies, with the counters it reports. */
module RankWorkers {
  import opened Vectors
  import opened BucketRanges
  import opened Reducers
  import opened Readiness
  import opened RankPlan

  // ----- counters ---------------------------------------------------------------------------

  datatype StepCounters = StepCounters(collectives: nat, gradientScales: nat, reduction: BucketStats)

  datatype Totals = Totals(
    collectives: nat, gradientScales: nat, buckets: nat, packCopies: nat, unpackCopies: nat, gradientViews: nat,
    planReuses: nat, overlapSteps: nat, overlappedBuckets: nat, bucketScales: nat,
    gatherCalls: nat, descriptorCopies: nat, descriptorBytes: nat)
  {
    function Plus(t: Totals): Totals {
      Totals(collectives + t.collectives, gradientScales + t.gradientScales, buckets + t.buckets,
             packCopies + t.packCopies, unpackCopies + t.unpackCopies, gradientViews + t.gradientViews,
             planReuses + t.planReuses, overlapSteps + t.overlapSteps, overlappedBuckets + t.overlappedBuckets,
             bucketScales + t.bucketScales, gatherCalls + t.gatherCalls,
             descriptorCopies + t.descriptorCopies, descriptorBytes + t.descriptorBytes)
    }
  }

  const NoTotals := Totals(0, 0, 0, 0, 0, 0, 0, 0, 0, 0, 0, 0, 0)

  function AsTotals(step: StepCounters): Totals {
    var r := step.reduction;
    Totals(step.collectives, step.gradientScales, r.buckets, r.packCopies, r.unpackCopies, r.gradientViews,
           When(r.planReused, 1), When(r.overlapEnabled, 1), r.overlappedBuckets, r.weightScales,
           r.gatherCalls, r.descriptorCopies, r.descriptorBytes)
  }

  function TotalOf(steps: seq<StepCounters>): Totals {
    if steps == [] then NoTotals else TotalOf(steps[..|steps| - 1]).Plus(AsTotals(steps[|steps| - 1]))
  }

  function StorageOf(reducer: Reducer): Storage {
    match reducer
    case PersistentBucket => Copied
    case GatherWeightedOverlap => Gathered
    case BucketViews => Views
    case OverlapViews => Views
    case BucketWeightedOverlap => Views
    case _ => Temporary
  }

  /** The prediction for step `k` of a run with `parameters` tensors in `buckets` buckets. */
  function ExpectedStep(reducer: Reducer, parameters: nat, buckets: nat, scale: real, k: nat): StepCounters {
    StepCounters(
      if reducer.PerParameter? then parameters else buckets,
      When(scale != 1.0 && !reducer.WeighsInReducer(), parameters),
      if reducer.PerParameter? then NoBucketStats
      else ExpectedBucketStats(StorageOf(reducer), parameters, buckets, if reducer.WeighsInReducer() then scale else 1.0,
                               reducer.UsesPlan() && k > 0, reducer.Overlaps() && k > 0))
  }

  function ExpectedSteps(reducer: Reducer, parameters: nat, buckets: nat, scale: real, n: nat): (steps: seq<StepCounters>)
    ensures |steps| == n
  {
    seq(n, k requires 0 <= k < n => ExpectedStep(reducer, parameters, buckets, scale, k))
  }

  // ----- facts about the overlapped step ------------------------------------------------------

  lemma ScaleAllOne(g: Gradient)
    ensures ScaleAll(1.0, g) == g
  {
    forall i | 0 <= i < |g| ensures ScaleAll(1.0, g)[i] == g[i] {
      ScaleOne(g[i]);
    }
  }

  lemma LaunchedJoin(layout: Layout, g: Gradient, from: nat, middle: nat, to: nat)
    requires layout.Valid() && |g| == |layout.counts|
    requires to <= middle <= from <= |layout.ranges|
    ensures Launched(layout, g, from, middle) + Launched(layout, g, middle, to) == Launched(layout, g, from, to)
  {
  }

  /** The gradients of all parameters in `marked` are final. */
  predicate FinalOn(marked: set<nat>, current: Gradient, final: Gradient) {
    |current| == |final| && forall i :: i in marked && i < |final| ==> current[i] == final[i]
  }

  /** A complete bucket only packs gradients that are final. */
  lemma CompleteBucketIsFinal(layout: Layout, progress: seq<RangeProgress>, marked: set<nat>, b: nat,
                              current: Gradient, final: Gradient, scale: real)
    requires layout.Valid() && AllTracked(layout.ranges, progress, marked)
    requires b < |layout.ranges| && progress[b].remaining == 0
    requires |final| == |layout.counts| && FinalOn(marked, current, final)
    ensures layout.Pack(b, ScaleAll(scale, current)) == layout.Pack(b, ScaleAll(scale, final))
  {
    var range := layout.ranges[b];
    assert Tracks(range, progress[b], marked);
    UnreadyZero(progress[b].ready);
    var p, q := ScaleAll(scale, current)[range.first..range.end], ScaleAll(scale, final)[range.first..range.end];
    forall l | 0 <= l < |p| ensures p[l] == q[l] {
      assert progress[b].ready[l];
    }
    assert p == q;
  }

  lemma LaunchedAreFinal(layout: Layout, progress: seq<RangeProgress>, marked: set<nat>, from: nat, to: nat,
                         current: Gradient, final: Gradient, scale: real)
    requires layout.Valid() && AllTracked(layout.ranges, progress, marked) && CompleteFrom(progress, to)
    requires to <= from <= |layout.ranges|
    requires |final| == |layout.counts| && FinalOn(marked, current, final)
    ensures Launched(layout, ScaleAll(scale, current), from, to) == Launched(layout, ScaleAll(scale, final), from, to)
  {
    forall j | 0 <= j < from - to
      ensures Launched(layout, ScaleAll(scale, current), from, to)[j] == Launched(layout, ScaleAll(scale, final), from, to)[j]
    {
      CompleteBucketIsFinal(layout, progress, marked, from - 1 - j, current, final, scale);
    }
  }

  /** The buckets launched before and after a gradient arrived together carry final contents. */
  lemma WireExtends(layout: Layout, progress: seq<RangeProgress>, marked: set<nat>, before: nat, next: nat,
                    current: Gradient, final: Gradient, scale: real, base: seq<Vector>)
    requires layout.Valid() && AllTracked(layout.ranges, progress, marked) && CompleteFrom(progress, next)
    requires next <= before <= |layout.ranges|
    requires |final| == |layout.counts| && FinalOn(marked, current, final)
    ensures base + Launched(layout, ScaleAll(scale, final), |layout.ranges|, before)
        + Launched(layout, ScaleAll(scale, current), before, next)
      == base + Launched(layout, ScaleAll(scale, final), |layout.ranges|, next)
  {
    LaunchedAreFinal(layout, progress, marked, before, next, current, final, scale);
    LaunchedJoin(layout, ScaleAll(scale, final), |layout.ranges|, before, next);
  }

  lemma FinalAfterArrival(marked: set<nat>, current: Gradient, local: Gradient, index: nat, scale: real)
    requires index < |local| && index !in marked && FinalOn(marked, current, ScaleAll(scale, local))
    ensures FinalOn(marked + {index}, current[index := local[index]][index := Scale(scale, local[index])], ScaleAll(scale, local))
  {
  }

  /** Once every parameter is marked, every bucket has been enqueued. */
  lemma AllMarkedAllEnqueued(layout: Layout, progress: seq<RangeProgress>, marked: set<nat>, next: nat)
    requires layout.Valid() && AllTracked(layout.ranges, progress, marked) && Frontier(layout.ranges, progress, next)
    requires forall i: nat :: i < |layout.counts| ==> i in marked
    ensures next == 0
  {
    if next > 0 {
      assert Tracks(layout.ranges[next - 1], progress[next - 1], marked);
      UnreadyZero(progress[next - 1].ready);
    }
  }

  /** With one parameter missing, its bucket alone is incomplete. */
  lemma OneOpenBucket(layout: Layout, progress: seq<RangeProgress>, missing: nat, last: nat, b: nat)
    requires layout.Valid() && last < |layout.ranges| && Holds(layout.ranges[last], missing) && b < |layout.ranges|
    requires AllTracked(layout.ranges, progress, UpTo(|layout.counts|) - {missing})
    ensures progress[b].remaining == 0 <==> b != last
  {
    var range := layout.ranges[b];
    assert Tracks(range, progress[b], UpTo(|layout.counts|) - {missing});
    UnreadyZero(progress[b].ready);
    if b == last {
      assert !progress[b].ready[missing - range.first];
    } else if b < last {
      RangesOrdered(layout.counts, layout.ranges, |layout.counts|, b, last);
    } else {
      RangesOrdered(layout.counts, layout.ranges, |layout.counts|, last, b);
    }
  }

  /** Just before the last gradient arrives, the plan has enqueued the buckets behind the one still open:
      the audit counts all other buckets as early, and overstates the overlap by the index of the open bucket. */
  lemma AuditOverstatesOverlap(layout: Layout, order: seq<nat>, rows: seq<AuditRow>, progress: seq<RangeProgress>,
                               next: nat, last: nat)
    requires layout.Valid() && layout.counts != [] && ReadyOrder(order, |layout.counts|)
    requires Audited(order, layout.ranges, rows)
    requires last < |layout.ranges| && Holds(layout.ranges[last], order[|order| - 1])
    requires AllTracked(layout.ranges, progress, Elems(order[..|order| - 1])) && Frontier(layout.ranges, progress, next)
    ensures EarlyRows(rows) == (|layout.ranges| - next) + last
  {
    EarlyBuckets(layout.counts, order, layout.ranges, rows);
    AllButLast(order, |layout.counts|);
    forall b | 0 <= b < |layout.ranges| ensures progress[b].remaining == 0 <==> b != last {
      OneOpenBucket(layout, progress, order[|order| - 1], last, b);
    }
    EarlyEnqueues(layout.ranges, progress, next, last);
  }

  function Flags(range: BucketRange, marked: set<nat>): (flags: seq<bool>)
    requires range.first <= range.end
    ensures |flags| == range.end - range.first
    ensures forall l :: 0 <= l < |flags| ==> (flags[l] <==> range.first + l in marked)
  {
    seq(range.end - range.first, l requires 0 <= l < range.end - range.first => range.first + l in marked)
  }

  /** The readiness the plan has recorded when the parameters in `marked` are ready. */
  function ProgressAfter(ranges: seq<BucketRange>, marked: set<nat>): (progress: seq<RangeProgress>)
    requires forall b :: 0 <= b < |ranges| ==> ranges[b].first <= ranges[b].end
    ensures AllTracked(ranges, progress, marked)
  {
    seq(|ranges|, b requires 0 <= b < |ranges| =>
      RangeProgress(Unready(Flags(ranges[b], marked)), Flags(ranges[b], marked)))
  }

  /** For every layout with at least two buckets there is a ready order under which nothing is enqueued before
      the last gradient, although the audit counts all buckets but one as early. */
  lemma OverstatementHappens(layout: Layout) returns (order: seq<nat>, progress: seq<RangeProgress>, next: nat, last: nat)
    requires layout.Valid() && |layout.ranges| >= 2
    ensures ReadyOrder(order, |layout.counts|) && layout.counts != []
    ensures last < |layout.ranges| && Holds(layout.ranges[last], order[|order| - 1]) && last == |layout.ranges| - 1 > 0
    ensures AllTracked(layout.ranges, progress, Elems(order[..|order| - 1])) && Frontier(layout.ranges, progress, next)
    ensures |layout.ranges| - next == 0
  {
    var n := |layout.counts|;
    last, next := |layout.ranges| - 1, |layout.ranges|;
    assert layout.ranges[last].end == n;
    order := seq(n, k requires 0 <= k < n => k);
    AllButLast(order, n);
    progress := ProgressAfter(layout.ranges, Elems(order[..n - 1]));
    OneOpenBucket(layout, progress, n - 1, last, last);
  }

  // ----- composing the two weights --------------------------------------------------------------

  lemma OneWeight(outer: real, inner: real, g: Gradient)
    requires outer == 1.0 || inner == 1.0
    ensures ScaleAll(outer, ScaleAll(inner, g)) == ScaleAll(if outer == 1.0 then inner else outer, g)
  {
    if outer == 1.0 {
      ScaleAllOne(ScaleAll(inner, g));
    } else {
      ScaleAllOne(g);
    }
  }

  /** The first `i` gradients come from `done`, the others from `before`. */
  predicate Spliced(current: Gradient, done: Gradient, before: Gradient, i: nat) {
    && |current| == |done| == |before|
    && (forall k :: 0 <= k < i && k < |done| ==> current[k] == done[k])
    && (forall k :: i <= k < |done| ==> current[k] == before[k])
  }

  lemma SpliceStep(current: Gradient, done: Gradient, before: Gradient, i: nat)
    requires Spliced(current, done, before, i) && i < |done|
    ensures current[i] == before[i]
    ensures Spliced(current[i := done[i]], done, before, i + 1)
  {
  }

  lemma PrefixGrows(base: seq<Vector>, g: Gradient, i: nat)
    requires i < |g|
    ensures base + g[..i] + [g[i]] == base + g[..i + 1]
  {
  }

  lemma LaunchedIsPayloads(layout: Layout, reducer: Reducer, g: Gradient)
    requires layout.Valid() && |g| == |layout.counts| && !reducer.PerParameter?
    ensures Launched(layout, g, |layout.ranges|, 0) == layout.Payloads(reducer, true, g)
  {
  }

  lemma ExtendSteps(reducer: Reducer, parameters: nat, buckets: nat, scale: real, n: nat)
    ensures ExpectedSteps(reducer, parameters, buckets, scale, n) + [ExpectedStep(reducer, parameters, buckets, scale, n)]
      == ExpectedSteps(reducer, parameters, buckets, scale, n + 1)
  {
  }

  class RankWorker {
    const reducer: Reducer
    const tokenWeighted: bool
    const scale: real
    const maximumBytes: nat
    ghost const layout: Layout
    const communicator: RankCommunicator
    const parameters: Parameters
    const plan: RankGradientBucketPlan
    var readyScales: nat
    var steps: seq<StepCounters>
    var totals: Totals

    ghost predicate Configured() {
      && scale > 0.0 && (!tokenWeighted ==> scale == 1.0)
      && layout.counts != [] && Greedy(layout.counts, ElementLimit(maximumBytes), layout.ranges)
      && (reducer.PerParameter? || maximumBytes >= 4)
      && parameters.counts == layout.counts
    }

    /** What the plan of this rank must be bound to. */
    ghost function Bound(): Contract {
      Contract(communicator.endpoint, parameters, maximumBytes, StorageOf(reducer), layout)
    }

    ghost predicate Valid()
      reads this, plan, parameters
    {
      && Configured()
      && plan.Valid() && !plan.active
      && (plan.initialized <==> reducer.UsesPlan() && steps != [])
      && (plan.initialized ==> plan.Binding() == Bound())
      && |parameters.gradients| == |layout.counts|
      && steps == ExpectedSteps(reducer, |layout.counts|, |layout.ranges|, scale, |steps|)
      && totals == TotalOf(steps)
    }

    /** Weight applied to a gradient tensor itself, in the ready hook or after backward. */
    function TensorScale(): real {
      if reducer.WeighsInReducer() then 1.0 else scale
    }

    /** Weight handed to the bucket reduction. */
    function ReducerScale(): real {
      if reducer.WeighsInReducer() then scale else 1.0
    }

    lemma ScalesCompose(g: Gradient)
      ensures ScaleAll(ReducerScale(), ScaleAll(TensorScale(), g)) == ScaleAll(scale, g)
    {
      OneWeight(ReducerScale(), TensorScale(), g);
    }

    constructor (reducer: Reducer, counts: seq<nat>, maximumBytes: nat, tokenWeighted: bool, scale: real,
                 endpoint: Endpoint, ghost ranges: seq<BucketRange>)
      requires counts != [] && Greedy(counts, ElementLimit(maximumBytes), ranges)
      requires scale > 0.0 && (!tokenWeighted ==> scale == 1.0)
      requires reducer.PerParameter? || maximumBytes >= 4
      ensures Valid() && steps == [] && communicator.issued == []
      ensures this.reducer == reducer && this.scale == scale && layout == Layout(counts, ranges)
      ensures communicator.endpoint == endpoint && fresh(communicator) && fresh(parameters) && fresh(plan)
    {
      this.reducer, this.maximumBytes, this.tokenWeighted, this.scale := reducer, maximumBytes, tokenWeighted, scale;
      layout := Layout(counts, ranges);
      communicator := new RankCommunicator(endpoint);
      parameters := new Parameters(counts, seq(|counts|, _ => []));
      plan := new RankGradientBucketPlan();
      readyScales, steps, totals := 0, [], NoTotals;
    }

    /** The gradient-ready hook. Outside an overlapped step it does nothing. */
    method GradientReady(index: nat) returns (ok: bool)
      requires Configured() && plan.Valid() && |parameters.gradients| == |layout.counts|
      requires plan.active ==> plan.Binding() == Bound() && plan.localScale == ReducerScale()
      requires plan.active ==> index < |layout.counts| && index !in plan.marked
      requires plan.active ==> |parameters.gradients[index]| == layout.counts[index]
      modifies this`readyScales, communicator, parameters, plan
      ensures ok && plan.Valid() && plan.initialized == old(plan.initialized) && plan.Binding() == old(plan.Binding())
      ensures plan.active == old(plan.active) && plan.localScale == old(plan.localScale)
      ensures parameters.gradients == if plan.active
        then old(parameters.gradients)[index := Scale(TensorScale(), old(parameters.gradients)[index])]
        else old(parameters.gradients)
      ensures readyScales == old(readyScales) + When(plan.active && TensorScale() != 1.0, 1)
      ensures plan.active ==>
        && plan.marked == old(plan.marked) + {index} && plan.next <= old(plan.next) <= |layout.ranges|
        && communicator.issued == old(communicator.issued)
             + Launched(layout, ScaleAll(ReducerScale(), parameters.gradients), old(plan.next), plan.next)
      ensures !plan.active ==> communicator.issued == old(communicator.issued)
    {
      if !plan.active {
        return true;
      }
      if tokenWeighted && !reducer.WeighsInReducer() && scale != 1.0 {
        parameters.gradients := parameters.gradients[index := Scale(scale, parameters.gradients[index])];
        readyScales := readyScales + 1;
      } else {
        ScaleOne(parameters.gradients[index]);
      }
      var outcome := plan.MarkParameterReady(communicator, parameters, index);
      ok := outcome.Marked?;
    }

    /** Inside an overlapped backward: the gradients in `marked` are final and weighted, and exactly the
        complete buckets behind the frontier are on the wire, with final contents. */
    ghost predicate Arriving(local: Gradient, marked: set<nat>, arrived: nat, base: seq<Vector>)
      reads this, plan, parameters, communicator
    {
      && Configured() && plan.Valid() && plan.active
      && plan.Binding() == Bound() && plan.localScale == ReducerScale() && plan.next <= |layout.ranges|
      && plan.marked == marked
      && Shaped(layout.counts, local)
      && FinalOn(marked, parameters.gradients, ScaleAll(TensorScale(), local))
      && readyScales == When(TensorScale() != 1.0, arrived)
      && communicator.issued
           == base + Launched(layout, ScaleAll(ReducerScale(), ScaleAll(TensorScale(), local)), |layout.ranges|, plan.next)
    }

    /** Backward of an overlapped step: gradients become final in the order `order`; until then a parameter
        may hold anything. All buckets are on the wire at the end, with final weighted gradients only. */
    method BackwardOverlapped(local: Gradient, unfinished: Gradient, order: seq<nat>)
      requires Configured() && plan.Valid() && plan.active && plan.marked == {} && readyScales == 0
      requires plan.Binding() == Bound() && plan.next == |layout.ranges| && plan.localScale == ReducerScale()
      requires Shaped(layout.counts, local) && |unfinished| == |layout.counts| && ReadyOrder(order, |layout.counts|)
      modifies this`readyScales, communicator, parameters, plan
      ensures Arriving(local, UpTo(|layout.counts|), |layout.counts|, old(communicator.issued))
    {
      parameters.gradients := unfinished;
      for k := 0 to |order|
        invariant Arriving(local, Elems(order[..k]), k, old(communicator.issued))
      {
        ElemsGrow(order, k);
        GradientArrives(local, order[k], Elems(order[..k]), k, old(communicator.issued));
      }
      assert order[..|order|] == order;
      ReadyOrderCovers(order, |layout.counts|);
    }

    /** One gradient becomes final and its hook runs. */
    method GradientArrives(local: Gradient, index: nat, ghost marked: set<nat>, ghost arrived: nat, ghost base: seq<Vector>)
      requires Arriving(local, marked, arrived, base)
      requires index < |layout.counts| && index !in marked
      modifies this`readyScales, communicator, parameters, plan
      ensures Arriving(local, marked + {index}, arrived + 1, base)
    {
      ghost var final := ScaleAll(TensorScale(), local);
      ghost var before := plan.next;
      FinalAfterArrival(marked, parameters.gradients, local, index, TensorScale());
      parameters.gradients := parameters.gradients[index := local[index]];
      var _ := GradientReady(index);
      WireExtends(layout, plan.progress, plan.marked, before, plan.next, parameters.gradients, final, ReducerScale(), base);
    }

    /** When every gradient has arrived, the step has issued its payloads. */
    lemma AllArrived(local: Gradient, base: seq<Vector>)
      requires Arriving(local, UpTo(|layout.counts|), |layout.counts|, base) && !reducer.PerParameter?
      ensures plan.next == 0
      ensures communicator.issued == base + layout.Payloads(reducer, true, ScaleAll(scale, local))
    {
      AllMarkedAllEnqueued(layout, plan.progress, plan.marked, plan.next);
      LaunchedIsPayloads(layout, reducer, ScaleAll(ReducerScale(), ScaleAll(TensorScale(), local)));
      ScalesCompose(local);
    }

    // ----- the synchronous step -----------------------------------------------------------------

    /** Backward outside an overlapped step: hooks fire but do nothing. */
    method BackwardSynchronous(local: Gradient, unfinished: Gradient, order: seq<nat>)
      requires Configured() && plan.Valid() && !plan.active
      requires Shaped(layout.counts, local) && |unfinished| == |layout.counts| && ReadyOrder(order, |layout.counts|)
      modifies this`readyScales, communicator, parameters, plan
      ensures plan.Valid() && !plan.active && plan.initialized == old(plan.initialized) && plan.Binding() == old(plan.Binding())
      ensures parameters.gradients == local
      ensures readyScales == old(readyScales) && communicator.issued == old(communicator.issued)
    {
      parameters.gradients := unfinished;
      for k := 0 to |order|
        invariant plan.Valid() && !plan.active
        invariant plan.initialized == old(plan.initialized) && plan.Binding() == old(plan.Binding())
        invariant FinalOn(Elems(order[..k]), parameters.gradients, local)
        invariant readyScales == old(readyScales) && communicator.issued == old(communicator.issued)
      {
        ElemsGrow(order, k);
        parameters.gradients := parameters.gradients[order[k] := local[order[k]]];
        var _ := GradientReady(order[k]);
      }
      assert order[..|order|] == order;
      ReadyOrderCovers(order, |layout.counts|);
    }

    /** Weights every gradient once after backward. */
    method WeightAll()
      requires |parameters.gradients| == |layout.counts| == |parameters.counts|
      modifies this`readyScales, parameters
      ensures parameters.gradients == ScaleAll(scale, old(parameters.gradients))
      ensures readyScales == old(readyScales) + |layout.counts|
    {
      ghost var weighted := ScaleAll(scale, parameters.gradients);
      for i := 0 to |parameters.counts|
        invariant Spliced(parameters.gradients, weighted, old(parameters.gradients), i)
        invariant readyScales == old(readyScales) + i
      {
        SpliceStep(parameters.gradients, weighted, old(parameters.gradients), i);
        parameters.gradients := parameters.gradients[i := Scale(scale, parameters.gradients[i])];
        readyScales := readyScales + 1;
      }
    }

    /** One collective per parameter, in parameter order. */
    method ReducePerParameter(results: seq<Vector>) returns (collectives: nat)
      requires Shaped(layout.counts, parameters.gradients) && Shaped(layout.counts, results)
      modifies communicator, parameters
      ensures communicator.issued == old(communicator.issued) + old(parameters.gradients)
      ensures parameters.gradients == results
      ensures collectives == |layout.counts|
    {
      collectives := 0;
      ghost var local, base := parameters.gradients, communicator.issued;
      for i := 0 to |parameters.gradients|
        invariant communicator.issued == base + local[..i]
        invariant Spliced(parameters.gradients, results, local, i)
        invariant collectives == i
      {
        SpliceStep(parameters.gradients, results, local, i);
        PrefixGrows(base, local, i);
        ScaleOne(parameters.gradients[i]);
        var _ := communicator.EnqueueAllReduceAverage(parameters.gradients[i], 1.0);
        parameters.gradients := parameters.gradients[i := results[i]];
        collectives := collectives + 1;
      }
      assert local[..|local|] == local;
    }

    /** The synchronous reduction under the policy of the run. */
    method ReduceSynchronous(results: seq<Vector>) returns (ok: bool, collectives: nat, stats: BucketStats)
      requires Configured() && plan.Valid() && !plan.active
      requires reducer.Overlaps() ==> !plan.initialized
      requires plan.initialized ==> plan.Binding() == Bound()
      requires Shaped(layout.counts, parameters.gradients) && layout.Fits(reducer, false, results)
      modifies communicator, parameters, plan
      ensures ok && plan.Valid() && !plan.active
      ensures plan.initialized == (old(plan.initialized) || reducer.UsesPlan())
      ensures reducer.UsesPlan() ==> plan.Binding() == Bound()
      ensures !reducer.UsesPlan() ==> plan.Binding() == old(plan.Binding())
      ensures communicator.issued == old(communicator.issued)
        + layout.Payloads(reducer, false, ScaleAll(ReducerScale(), old(parameters.gradients)))
      ensures parameters.gradients == layout.Deliver(reducer, false, results)
      ensures collectives == if reducer.PerParameter? then |layout.counts| else |layout.ranges|
      ensures stats == if reducer.PerParameter? then NoBucketStats
        else ExpectedBucketStats(StorageOf(reducer), |layout.counts|, |layout.ranges|, ReducerScale(),
                                 reducer.UsesPlan() && old(plan.initialized), false)
    {
      ok, stats := true, NoBucketStats;
      if reducer.PerParameter? {
        ScaleAllOne(parameters.gradients);
        collectives := ReducePerParameter(results);
      } else if reducer.Bucket? {
        var ranges := PackRanges(parameters.counts, ElementLimit(maximumBytes));
        GreedyUnique(layout.counts, ElementLimit(maximumBytes), ranges, layout.ranges);
        stats := ReduceRanges(communicator, parameters, Layout(parameters.counts, ranges), Temporary, false,
                              ReducerScale(), results);
        collectives := stats.buckets;
      } else {
        ok, stats := plan.AllReduce(communicator, parameters, maximumBytes, StorageOf(reducer), ReducerScale(), layout, results);
        collectives := stats.buckets;
      }
    }

    // ----- one training step --------------------------------------------------------------------

    /** Whether the next step overlaps: an overlap policy runs its first step synchronously. */
    predicate OverlapsNext()
      reads this
    {
      reducer.Overlaps() && steps != []
    }

    /** Backward and the weighting of the gradients themselves, with the check that every gradient was
        weighted exactly as often as the mode asks for. */
    method Produce(local: Gradient, unfinished: Gradient, order: seq<nat>, overlap: bool) returns (ok: bool)
      requires Valid() && overlap == OverlapsNext()
      requires Shaped(layout.counts, local) && |unfinished| == |layout.counts| && ReadyOrder(order, |layout.counts|)
      modifies this`readyScales, communicator, parameters, plan
      ensures ok && plan.Valid() && plan.initialized == old(plan.initialized) && plan.Binding() == old(plan.Binding())
      ensures plan.active == overlap
      ensures readyScales == When(TensorScale() != 1.0, |layout.counts|)
      ensures overlap ==> plan.next == 0 && plan.localScale == ReducerScale()
      ensures |parameters.gradients| == |layout.counts|
      ensures overlap ==>
        communicator.issued == old(communicator.issued) + layout.Payloads(reducer, true, ScaleAll(scale, local))
      ensures !overlap ==>
        && communicator.issued == old(communicator.issued)
        && parameters.gradients == ScaleAll(TensorScale(), local)
    {
      readyScales := 0;
      if overlap {
        ok := plan.BeginOverlapStep(communicator, parameters, ReducerScale());
        ghost var base := communicator.issued;
        BackwardOverlapped(local, unfinished, order);
        AllArrived(local, base);
      } else {
        BackwardSynchronous(local, unfinished, order);
        ScaleAllOne(local);
        if tokenWeighted && !reducer.WeighsInReducer() && scale != 1.0 {
          WeightAll();
        }
      }
      var expected := if tokenWeighted && scale != 1.0 && !reducer.WeighsInReducer() then |parameters.counts| else 0;
      ok := readyScales == expected;
    }

    /** The counter checks after the reduction. */
    predicate CountersPass(stats: BucketStats) {
      && stats.weightScales == (if reducer.BucketWeightedOverlap? && tokenWeighted && scale != 1.0 then stats.buckets else 0)
      && stats.gatherCalls == stats.descriptorCopies == (if reducer.GatherWeightedOverlap? then stats.buckets else 0)
      && (reducer.GatherWeightedOverlap? <==> stats.descriptorBytes != 0)
    }

    lemma PredictedCountersPass(k: nat)
      requires Configured()
      ensures CountersPass(ExpectedStep(reducer, |layout.counts|, |layout.ranges|, scale, k).reduction)
    {
    }

    /** Completes the reduction: of an overlapped step, or from scratch. */
    method Reduce(overlap: bool, local: Gradient, results: seq<Vector>, ghost k: nat)
      returns (ok: bool, collectives: nat, stats: BucketStats)
      requires Configured() && plan.Valid() && plan.active == overlap
      requires plan.initialized <==> reducer.UsesPlan() && k > 0
      requires plan.initialized ==> plan.Binding() == Bound()
      requires overlap == (reducer.Overlaps() && k > 0)
      requires Shaped(layout.counts, local)
      requires overlap ==> |parameters.gradients| == |layout.counts| && plan.next == 0 && plan.localScale == ReducerScale()
      requires !overlap ==> parameters.gradients == ScaleAll(TensorScale(), local)
      requires layout.Fits(reducer, overlap, results)
      modifies communicator, parameters, plan
      ensures ok && plan.Valid() && !plan.active
      ensures plan.initialized <==> reducer.UsesPlan()
      ensures plan.initialized ==> plan.Binding() == Bound()
      ensures overlap ==> communicator.issued == old(communicator.issued)
      ensures !overlap ==>
        communicator.issued == old(communicator.issued) + layout.Payloads(reducer, false, ScaleAll(scale, local))
      ensures parameters.gradients == layout.Deliver(reducer, overlap, results)
      ensures StepCounters(collectives, When(TensorScale() != 1.0, |layout.counts|), stats)
        == ExpectedStep(reducer, |layout.counts|, |layout.ranges|, scale, k)
    {
      if overlap {
        ok, stats := plan.FinishOverlapStep(parameters, results);
        collectives := stats.buckets;
      } else {
        ScalesCompose(local);
        ok, collectives, stats := ReduceSynchronous(results);
      }
    }

    /** One step. Under every policy the rank puts exactly its weighted gradients on the wire, adopts exactly
        what the collectives deliver, never trips one of its own checks, and reports the predicted counters. */
    method RunStep(local: Gradient, unfinished: Gradient, order: seq<nat>, results: seq<Vector>) returns (ok: bool)
      requires Valid()
      requires Shaped(layout.counts, local) && |unfinished| == |layout.counts| && ReadyOrder(order, |layout.counts|)
      requires layout.Fits(reducer, OverlapsNext(), results)
      modifies this, communicator, parameters, plan
      ensures ok && Valid()
      ensures |steps| == old(|steps|) + 1
      ensures communicator.issued
        == old(communicator.issued) + layout.Payloads(reducer, old(OverlapsNext()), ScaleAll(scale, local))
      ensures parameters.gradients == layout.Deliver(reducer, old(OverlapsNext()), results)
    {
      var overlap := reducer.Overlaps() && plan.initialized;
      var weighted := Produce(local, unfinished, order, overlap);
      var collectives, stats;
      ok, collectives, stats := Reduce(overlap, local, results, |steps|);
      PredictedCountersPass(|steps|);
      ok := weighted && ok && CountersPass(stats);
      Record(StepCounters(collectives, readyScales, stats));
    }

    method Record(step: StepCounters)
      requires steps == ExpectedSteps(reducer, |layout.counts|, |layout.ranges|, scale, |steps|)
      requires step == ExpectedStep(reducer, |layout.counts|, |layout.ranges|, scale, |steps|)
      requires totals == TotalOf(steps)
      modifies this`steps, this`totals
      ensures |steps| == old(|steps|) + 1
      ensures steps == ExpectedSteps(reducer, |layout.counts|, |layout.ranges|, scale, |steps|)
      ensures totals == TotalOf(steps)
    {
      ExtendSteps(reducer, |layout.counts|, |layout.ranges|, scale, |steps|);
      ghost var before := steps;
      steps := steps + [step];
      assert steps[..|steps| - 1] == before;
      totals := totals.Plus(AsTotals(step));
    }
  }
}
