/** The persistent gradient bucket plan of one rank: synchronous reduction of all buckets, and the
    overlapped step in which buckets are enqueued while backward is still producing gradients. */
module RankPlan {
  import opened Vectors
  import opened BucketRanges
  import opened Reducers
  import GatherScale

  /** A device descriptor is a pointer and two 64-bit offsets. */
  function DescriptorBytes(parameters: nat): nat {
    24 * parameters
  }

  /** A bucket of `bytes` bytes holds this many 32-bit elements. */
  function ElementLimit(bytes: nat): nat {
    bytes / 4
  }

  datatype Endpoint = Endpoint(rank: nat, worldSize: nat, device: nat)

  /** What a rank has put on the wire: its contribution to every collective, in issue order. */
  class RankCommunicator {
    const endpoint: Endpoint
    var issued: seq<Vector>

    constructor (endpoint: Endpoint)
      ensures issued == [] && this.endpoint == endpoint
    {
      this.endpoint, issued := endpoint, [];
    }

    method EnqueueAllReduceAverage(v: Vector, localScale: real) returns (ok: bool)
      modifies this
      ensures ok == (localScale > 0.0)
      ensures issued == if ok then old(issued) + [Scale(localScale, v)] else old(issued)
    {
      if localScale <= 0.0 {
        return false;
      }
      var contribution := v;
      if localScale != 1.0 {
        contribution := Scale(localScale, v);
      } else {
        ScaleOne(v);
      }
      issued := issued + [contribution];
      ok := true;
    }
  }

  /** The gradients of the model parameters of one rank. */
  class Parameters {
    const counts: seq<nat>
    var gradients: Gradient

    constructor (counts: seq<nat>, gradients: Gradient)
      ensures this.counts == counts && this.gradients == gradients
    {
      this.counts, this.gradients := counts, gradients;
    }
  }

  function Sizes(gradients: Gradient): (sizes: seq<nat>)
    ensures |sizes| == |gradients| && forall i :: 0 <= i < |gradients| ==> sizes[i] == |gradients[i]|
  {
    seq(|gradients|, i requires 0 <= i < |gradients| => |gradients[i]|)
  }

  // ----- one bucket -----------------------------------------------------------------------

  method PackBucket(range: BucketRange, gradients: Gradient) returns (bucket: Vector)
    requires range.first <= range.end <= |gradients|
    ensures bucket == Flatten(gradients[range.first..range.end])
  {
    bucket := [];
    for i := range.first to range.end
      invariant bucket == Flatten(gradients[range.first..i])
    {
      assert gradients[range.first..i + 1] == gradients[range.first..i] + [gradients[i]];
      FlattenAppend(gradients[range.first..i], [gradients[i]]);
      assert Flatten([gradients[i]]) == gradients[i] + Flatten([]) == gradients[i];
      bucket := bucket + gradients[i];
    }
  }

  method GatherBucket(range: BucketRange, gradients: Gradient, scale: real) returns (bucket: Vector)
    requires range.first <= range.end <= |gradients|
    ensures bucket == Scale(scale, Flatten(gradients[range.first..range.end]))
  {
    ghost var g := gradients[range.first..range.end];
    var descriptors := GatherScale.BuildDescriptors(gradients[range.first..range.end]);
    var elements := 0;
    if descriptors != [] {
      elements := descriptors[|descriptors| - 1].end;
      GatherScale.PrefixStep(g, |g| - 1);
      assert g[..|g| - 1 + 1] == g;
    }
    var storage := new real[elements];
    GatherScale.Launch(descriptors, storage, scale, g);
    bucket := storage[..];
  }

  /** Fills one bucket and enqueues it. The weight is applied once: by the gather or by the collective. */
  method EnqueueBucket(communicator: RankCommunicator, layout: Layout, b: nat, gradients: Gradient, gather: bool,
                       scale: real)
    returns (ok: bool)
    requires layout.Valid() && b < |layout.ranges| && |gradients| == |layout.counts|
    requires scale > 0.0
    modifies communicator
    ensures ok
    ensures communicator.issued == old(communicator.issued) + [layout.Pack(b, ScaleAll(scale, gradients))]
  {
    var range := layout.ranges[b];
    ghost var g := gradients[range.first..range.end];
    ScaleFlatten(scale, g);
    assert ScaleAll(scale, g) == ScaleAll(scale, gradients)[range.first..range.end];
    if gather {
      var bucket := GatherBucket(range, gradients, scale);
      ScaleOne(bucket);
      ok := communicator.EnqueueAllReduceAverage(bucket, 1.0);
    } else {
      var bucket := PackBucket(range, gradients);
      ok := communicator.EnqueueAllReduceAverage(bucket, scale);
    }
  }

  /** The averaged bucket becomes the gradients of its parameters; the others keep theirs. */
  method AdoptBucket(layout: Layout, b: nat, byBucket: seq<Vector>, parameters: Parameters)
    requires layout.Valid() && b < |layout.ranges| == |byBucket| && |parameters.gradients| == |layout.counts|
    requires forall k :: 0 <= k < |layout.ranges| ==> layout.BucketFits(k, byBucket[k])
    requires parameters.gradients[..layout.Before(b)] == layout.Unpack(b, byBucket)
    modifies parameters
    ensures |parameters.gradients| == |layout.counts|
    ensures parameters.gradients[..layout.Before(b + 1)] == layout.Unpack(b + 1, byBucket)
    ensures parameters.gradients[layout.Before(b + 1)..] == old(parameters.gradients[layout.Before(b + 1)..])
  {
    var range := layout.ranges[b];
    var slices := Split(layout.counts[range.first..range.end], byBucket[b]);
    parameters.gradients := parameters.gradients[..range.first] + slices + parameters.gradients[range.end..];
  }

  // ----- counters of one reduction ----------------------------------------------------------

  datatype BucketStats = BucketStats(
    buckets: nat, packCopies: nat, unpackCopies: nat, gradientViews: nat,
    persistent: bool, planReused: bool, overlapEnabled: bool, overlappedBuckets: nat,
    weightScales: nat, gatherCalls: nat, descriptorCopies: nat, descriptorBytes: nat)

  const NoBucketStats := BucketStats(0, 0, 0, 0, false, false, false, 0, 0, 0, 0, 0)

  datatype Storage = Temporary | Copied | Views | Gathered
  {
    predicate Persistent() { !Temporary? }
    predicate HasViews() { Views? || Gathered? }
  }

  function When(condition: bool, n: nat): nat {
    if condition then n else 0
  }

  /** What a reduction of `parameters` tensors in `buckets` buckets must report. */
  function ExpectedBucketStats(storage: Storage, parameters: nat, buckets: nat, scale: real, reused: bool,
                               overlapped: bool): BucketStats {
    BucketStats(
      buckets,
      When(!storage.Gathered?, parameters),
      When(!storage.HasViews(), parameters),
      When(storage.HasViews(), parameters),
      storage.Persistent(), reused, overlapped,
      When(overlapped, buckets),
      When(!storage.Gathered? && scale != 1.0, buckets),
      When(storage.Gathered?, buckets),
      When(storage.Gathered?, buckets),
      When(storage.Gathered?, DescriptorBytes(parameters)))
  }

  /** The buckets before `b` have been reduced and handed out; the rest is untouched. */
  ghost predicate ReducedUpTo(layout: Layout, b: nat, scale: real, local: Gradient, byBucket: seq<Vector>,
                              gradients: Gradient, issued: seq<Vector>)
    requires layout.Valid() && b <= |layout.ranges| == |byBucket| && |local| == |layout.counts|
    requires forall k :: 0 <= k < |layout.ranges| ==> layout.BucketFits(k, byBucket[k])
  {
    && |gradients| == |layout.counts|
    && gradients[layout.Before(b)..] == local[layout.Before(b)..]
    && gradients[..layout.Before(b)] == layout.Unpack(b, byBucket)
    && issued == layout.Payloads(Bucket, false, ScaleAll(scale, local))[..b]
  }

  method ReduceBucket(communicator: RankCommunicator, parameters: Parameters, layout: Layout, b: nat, gather: bool,
                      scale: real, byBucket: seq<Vector>, ghost local: Gradient, ghost base: seq<Vector>, ghost issued: seq<Vector>)
    requires layout.Valid() && b < |layout.ranges| == |byBucket| && |local| == |layout.counts| && scale > 0.0
    requires forall k :: 0 <= k < |layout.ranges| ==> layout.BucketFits(k, byBucket[k])
    requires ReducedUpTo(layout, b, scale, local, byBucket, parameters.gradients, issued)
    requires communicator.issued == base + issued
    modifies communicator, parameters
    ensures communicator.issued == base + (issued + [layout.Pack(b, ScaleAll(scale, local))])
    ensures ReducedUpTo(layout, b + 1, scale, local, byBucket, parameters.gradients,
                        issued + [layout.Pack(b, ScaleAll(scale, local))])
  {
    SameWindow(scale, parameters.gradients, local, layout.ranges[b]);
    var _ := EnqueueBucket(communicator, layout, b, parameters.gradients, gather, scale);
    AdoptBucket(layout, b, byBucket, parameters);
  }

  /** Reduces the buckets one after the other, in ascending order. */
  method ReduceRanges(communicator: RankCommunicator, parameters: Parameters, layout: Layout, storage: Storage,
                      reused: bool, scale: real, results: seq<Vector>)
    returns (stats: BucketStats)
    requires layout.Valid() && |parameters.gradients| == |layout.counts| && scale > 0.0
    requires layout.Fits(Bucket, false, results)
    modifies communicator, parameters
    ensures communicator.issued
      == old(communicator.issued) + layout.Payloads(Bucket, false, ScaleAll(scale, old(parameters.gradients)))
    ensures parameters.gradients == layout.Deliver(Bucket, false, results)
    ensures stats == ExpectedBucketStats(storage, |layout.counts|, |layout.ranges|, scale, reused, false)
  {
    stats := NoBucketStats.(persistent := storage.Persistent(), planReused := reused,
                            gradientViews := When(storage.HasViews(), |layout.counts|));
    ghost var local, base := parameters.gradients, communicator.issued;
    ghost var issued := [];
    var byBucket := layout.ByBucket(false, results);
    for b := 0 to |layout.ranges|
      invariant communicator.issued == base + issued
      invariant ReducedUpTo(layout, b, scale, local, byBucket, parameters.gradients, issued)
      invariant stats == CountedUpTo(layout, storage, b, scale, reused)
    {
      ReduceBucket(communicator, parameters, layout, b, storage.Gathered?, scale, byBucket, local, base, issued);
      issued := issued + [layout.Pack(b, ScaleAll(scale, local))];
      CountStep(layout, storage, b, scale, reused);
      stats := CountBucket(stats, storage, layout.ranges[b].end - layout.ranges[b].first, scale);
    }
    assert parameters.gradients[..|layout.counts|] == parameters.gradients;
  }

  /** The counters after `b` buckets. */
  function CountedUpTo(layout: Layout, storage: Storage, b: nat, scale: real, reused: bool): BucketStats
    requires layout.Valid() && b <= |layout.ranges|
  {
    ExpectedBucketStats(storage, layout.Before(b), b, scale, reused, false)
      .(gradientViews := When(storage.HasViews(), |layout.counts|))
  }

  lemma CountStep(layout: Layout, storage: Storage, b: nat, scale: real, reused: bool)
    requires layout.Valid() && b < |layout.ranges|
    ensures CountBucket(CountedUpTo(layout, storage, b, scale, reused), storage,
                        layout.ranges[b].end - layout.ranges[b].first, scale)
      == CountedUpTo(layout, storage, b + 1, scale, reused)
  {
  }

  function CountBucket(stats: BucketStats, storage: Storage, size: nat, scale: real): BucketStats {
    var counted := stats.(buckets := stats.buckets + 1);
    if storage.Gathered? then
      counted.(gatherCalls := stats.gatherCalls + 1,
               descriptorCopies := stats.descriptorCopies + 1,
               descriptorBytes := stats.descriptorBytes + DescriptorBytes(size))
    else
      counted.(packCopies := stats.packCopies + size,
               unpackCopies := stats.unpackCopies + When(!storage.HasViews(), size),
               weightScales := stats.weightScales + When(scale != 1.0, 1))
  }

  lemma SameWindow(scale: real, g: Gradient, h: Gradient, range: BucketRange)
    requires |g| == |h| && range.first <= range.end <= |g|
    requires g[range.first..] == h[range.first..]
    ensures ScaleAll(scale, g)[range.first..range.end] == ScaleAll(scale, h)[range.first..range.end]
  {
    forall i | range.first <= i < range.end ensures g[i] == h[i] {
      assert g[range.first..][i - range.first] == h[range.first..][i - range.first];
    }
  }

  /** The counters of the views of `views` parameters, on top of `stats`. */
  function CountViews(stats: BucketStats, storage: Storage, views: nat): BucketStats {
    stats.(gradientViews := stats.gradientViews + views,
           packCopies := stats.packCopies + When(!storage.Gathered?, views),
           descriptorBytes := stats.descriptorBytes + When(storage.Gathered?, DescriptorBytes(views)))
  }

  lemma CountViewsStep(stats: BucketStats, storage: Storage, views: nat, more: nat)
    ensures CountViews(CountViews(stats, storage, views), storage, more) == CountViews(stats, storage, views + more)
  {
  }

  method CountRange(ghost before: BucketStats, counted: BucketStats, layout: Layout, storage: Storage, b: nat)
    returns (stats: BucketStats)
    requires layout.Valid() && b < |layout.ranges|
    requires counted == CountViews(before, storage, layout.Before(b))
    ensures stats == CountViews(before, storage, layout.Before(b + 1))
  {
    var size := layout.ranges[b].end - layout.ranges[b].first;
    CountViewsStep(before, storage, layout.Before(b), size);
    stats := CountViews(counted, storage, size);
  }

  ghost predicate AdoptedUpTo(layout: Layout, b: nat, byBucket: seq<Vector>, gradients: Gradient) {
    && layout.Valid() && b <= |layout.ranges| == |byBucket| && |gradients| == |layout.counts|
    && (forall k :: 0 <= k < |layout.ranges| ==> layout.BucketFits(k, byBucket[k]))
    && gradients[..layout.Before(b)] == layout.Unpack(b, byBucket)
  }

  lemma AdoptedAll(layout: Layout, results: seq<Vector>, gradients: Gradient)
    requires layout.Valid() && layout.Fits(OverlapViews, true, results)
    requires AdoptedUpTo(layout, |layout.ranges|, layout.ByBucket(true, results), gradients)
    ensures gradients == layout.Deliver(OverlapViews, true, results)
  {
    assert gradients[..|layout.counts|] == gradients;
  }

  method AdoptViews(parameters: Parameters, layout: Layout, storage: Storage, results: seq<Vector>, before: BucketStats)
    returns (stats: BucketStats)
    requires layout.Valid() && layout.Fits(OverlapViews, true, results)
    requires |parameters.gradients| == |layout.counts|
    modifies parameters
    ensures parameters.gradients == layout.Deliver(OverlapViews, true, results)
    ensures stats == CountViews(before, storage, |layout.counts|)
  {
    stats := before;
    var byBucket := layout.ByBucket(true, results);
    for b := 0 to |layout.ranges|
      invariant AdoptedUpTo(layout, b, byBucket, parameters.gradients)
      invariant stats == CountViews(before, storage, layout.Before(b))
    {
      AdoptBucket(layout, b, byBucket, parameters);
      stats := CountRange(before, stats, layout, storage, b);
    }
    AdoptedAll(layout, results, parameters.gradients);
  }

  // ----- readiness of one bucket ------------------------------------------------------------

  datatype RangeProgress = RangeProgress(remaining: nat, ready: seq<bool>)

  function Unready(ready: seq<bool>): nat {
    if ready == [] then 0 else (if ready[0] then 0 else 1) + Unready(ready[1..])
  }

  lemma {:induction false} UnreadyAfterMark(ready: seq<bool>, k: nat)
    requires k < |ready| && !ready[k]
    ensures Unready(ready[k := true]) == Unready(ready) - 1
  {
    if k > 0 {
      assert ready[k := true][1..] == ready[1..][k - 1 := true];
      UnreadyAfterMark(ready[1..], k - 1);
    } else {
      assert ready[k := true][1..] == ready[1..];
    }
  }

  lemma {:induction false} UnreadyZero(ready: seq<bool>)
    ensures Unready(ready) == 0 <==> forall k :: 0 <= k < |ready| ==> ready[k]
  {
    if ready != [] {
      UnreadyZero(ready[1..]);
      if forall k :: 0 <= k < |ready| ==> ready[k] {
        assert forall k :: 0 <= k < |ready| - 1 ==> ready[1..][k];
      } else if ready[0] {
        var k :| 0 <= k < |ready| && !ready[k];
        assert !ready[1..][k - 1];
      }
    }
  }

  lemma {:induction false} UnreadyFresh(n: nat)
    ensures Unready(seq(n, _ => false)) == n
  {
    if n > 0 {
      assert seq(n, _ => false)[1..] == seq(n - 1, _ => false);
      UnreadyFresh(n - 1);
    }
  }

  /** The flags of a range say which of its parameters are in `marked`. */
  predicate Tracks(range: BucketRange, progress: RangeProgress, marked: set<nat>) {
    && range.first <= range.end
    && |progress.ready| == range.end - range.first
    && progress.remaining == Unready(progress.ready)
    && forall l :: 0 <= l < |progress.ready| ==> (progress.ready[l] <==> range.first + l in marked)
  }

  predicate AllTracked(ranges: seq<BucketRange>, progress: seq<RangeProgress>, marked: set<nat>) {
    && |progress| == |ranges|
    && forall b :: 0 <= b < |ranges| ==> Tracks(ranges[b], progress[b], marked)
  }

  function MarkLocal(progress: seq<RangeProgress>, b: nat, local: nat): seq<RangeProgress>
    requires b < |progress| && local < |progress[b].ready| && progress[b].remaining > 0
  {
    progress[b := RangeProgress(progress[b].remaining - 1, progress[b].ready[local := true])]
  }

  lemma MarkKeepsTracks(counts: seq<nat>, ranges: seq<BucketRange>, progress: seq<RangeProgress>, marked: set<nat>,
                        b: nat, index: nat)
    requires Consecutive(counts, ranges, 0, |counts|) && AllTracked(ranges, progress, marked)
    requires b < |ranges| && ranges[b].first <= index < ranges[b].end && index !in marked
    ensures var local := index - ranges[b].first;
      && !progress[b].ready[local] && progress[b].remaining > 0
      && AllTracked(ranges, MarkLocal(progress, b, local), marked + {index})
  {
    var local := index - ranges[b].first;
    assert Tracks(ranges[b], progress[b], marked);
    UnreadyAfterMark(progress[b].ready, local);
    forall k | 0 <= k < |ranges| ensures Tracks(ranges[k], MarkLocal(progress, b, local)[k], marked + {index}) {
      assert Tracks(ranges[k], progress[k], marked);
      if k < b {
        RangesOrdered(counts, ranges, |counts|, k, b);
      } else if k > b {
        RangesOrdered(counts, ranges, |counts|, b, k);
      }
    }
  }

  predicate CompleteFrom(progress: seq<RangeProgress>, next: nat) {
    forall b :: next <= b < |progress| ==> progress[b].remaining == 0
  }

  lemma CompleteStep(progress: seq<RangeProgress>, next: nat)
    requires 0 < next <= |progress| && CompleteFrom(progress, next) && progress[next - 1].remaining == 0
    ensures CompleteFrom(progress, next - 1)
  {
  }

  lemma MarkKeepsComplete(progress: seq<RangeProgress>, next: nat, b: nat, local: nat)
    requires b < |progress| && local < |progress[b].ready| && progress[b].remaining > 0
    requires CompleteFrom(progress, next)
    ensures CompleteFrom(MarkLocal(progress, b, local), next)
  {
  }

  /** Buckets are enqueued from the last one down, as soon as they and all later ones are complete. */
  predicate Frontier(ranges: seq<BucketRange>, progress: seq<RangeProgress>, next: nat) {
    && |progress| == |ranges|
    && next <= |ranges|
    && CompleteFrom(progress, next)
    && (next > 0 ==> progress[next - 1].remaining > 0)
  }

  /** Contents of the buckets `from - 1` down to `to`. */
  function Launched(layout: Layout, g: Gradient, from: nat, to: nat): (p: seq<Vector>)
    requires layout.Valid() && |g| == |layout.counts|
    requires to <= from <= |layout.ranges|
    ensures |p| == from - to
  {
    seq(from - to, j requires 0 <= j < from - to => layout.Pack(from - 1 - j, g))
  }

  lemma LaunchedStep(layout: Layout, g: Gradient, from: nat, to: nat)
    requires layout.Valid() && |g| == |layout.counts|
    requires to < from <= |layout.ranges|
    ensures Launched(layout, g, from, to + 1) + [layout.Pack(to, g)] == Launched(layout, g, from, to)
  {
  }

  /** When one bucket alone is incomplete, exactly the buckets behind it have been enqueued. */
  lemma EarlyEnqueues(ranges: seq<BucketRange>, progress: seq<RangeProgress>, next: nat, last: nat)
    requires Frontier(ranges, progress, next)
    requires last < |ranges| && progress[last].remaining > 0
    requires forall b :: 0 <= b < |ranges| && b != last ==> progress[b].remaining == 0
    ensures |ranges| - next == |ranges| - 1 - last
  {
  }

  /** Nothing is ready at the beginning of a step. */
  method FreshProgress(ranges: seq<BucketRange>) returns (progress: seq<RangeProgress>)
    requires forall b :: 0 <= b < |ranges| ==> ranges[b].first < ranges[b].end
    ensures AllTracked(ranges, progress, {}) && Frontier(ranges, progress, |ranges|)
  {
    progress := [];
    for b := 0 to |ranges|
      invariant |progress| == b
      invariant forall k :: 0 <= k < b ==> Tracks(ranges[k], progress[k], {}) && progress[k].remaining > 0
    {
      var size := ranges[b].end - ranges[b].first;
      UnreadyFresh(size);
      progress := progress + [RangeProgress(size, seq(size, _ => false))];
    }
  }

  datatype ReadyOutcome = NotActive | OutOfRange | Duplicate | InvalidGradient | Marked

  /** What a plan is bound to from its first use on. */
  datatype Contract = Contract(endpoint: Endpoint, parameters: Parameters?, maximumBytes: nat, storage: Storage, layout: Layout)

  class RankGradientBucketPlan {
    var initialized: bool
    var endpoint: Endpoint
    var bound: Parameters?
    var maximumBytes: nat
    var storage: Storage
    var counts: seq<nat>
    var ranges: seq<BucketRange>
    var active: bool
    var progress: seq<RangeProgress>
    var next: nat
    var enqueued: nat
    var localScale: real
    ghost var marked: set<nat>

    ghost predicate Valid()
      reads this
    {
      && (initialized ==> Greedy(counts, ElementLimit(maximumBytes), ranges))
      && (active ==>
        && initialized && storage.HasViews() && localScale > 0.0
        && Frontier(ranges, progress, next)
        && enqueued == |ranges| - next
        && AllTracked(ranges, progress, marked))
    }

    function CurrentLayout(): (layout: Layout)
      reads this`counts, this`ranges
    {
      Layout(counts, ranges)
    }

    function Binding(): Contract
      reads this`endpoint, this`bound, this`maximumBytes, this`storage, this`counts, this`ranges
    {
      Contract(endpoint, bound, maximumBytes, storage, CurrentLayout())
    }

    constructor ()
      ensures Valid() && !initialized && !active
    {
      initialized, active := false, false;
      endpoint, bound, maximumBytes, storage, counts := Endpoint(0, 0, 0), null, 0, Temporary, [];
      ranges, progress, next, enqueued, localScale := [], [], 0, 0, 1.0;
      marked := {};
    }

    /** The plan can start an overlapped step: it is bound to this endpoint and these parameters, and idle. */
    predicate CanBegin(communicator: RankCommunicator, parameters: Parameters, scale: real)
      reads this
    {
      && initialized && storage.HasViews() && !active && scale > 0.0
      && endpoint == communicator.endpoint && bound == parameters
    }

    method BeginOverlapStep(communicator: RankCommunicator, parameters: Parameters, scale: real) returns (ok: bool)
      requires Valid()
      modifies this`active, this`localScale, this`next, this`enqueued, this`progress, this`marked
      ensures Valid() && initialized == old(initialized) && Binding() == old(Binding())
      ensures ok == (initialized && storage.HasViews() && !old(active) && scale > 0.0
                     && communicator.endpoint == endpoint && parameters == bound)
      ensures ok ==> active && marked == {} && next == |ranges| && localScale == scale
      ensures !ok ==> active == old(active) && marked == old(marked) && next == old(next)
    {
      ok := CanBegin(communicator, parameters, scale);
      if ok {
        Begin(scale);
      }
    }

    method Begin(scale: real)
      requires initialized && storage.HasViews() && scale > 0.0 && Greedy(counts, ElementLimit(maximumBytes), ranges)
      modifies this`active, this`localScale, this`next, this`enqueued, this`progress, this`marked
      ensures Valid() && active && marked == {} && next == |ranges| && localScale == scale
    {
      var unready := FreshProgress(ranges);
      progress, next, enqueued, marked := unready, |ranges|, 0, {};
      active, localScale := true, scale;
    }

    method FindRange(index: nat) returns (b: nat)
      requires Valid() && initialized
      ensures b <= |ranges|
      ensures index < |counts| <==> b < |ranges|
      ensures b < |ranges| ==> ranges[b].first <= index < ranges[b].end
    {
      b := 0;
      while b < |ranges| && !(ranges[b].first <= index < ranges[b].end)
        invariant b <= |ranges|
        invariant forall k :: 0 <= k < b ==> !(ranges[k].first <= index < ranges[k].end)
      {
        b := b + 1;
      }
      if index < |counts| {
        var holder := Covered(counts, ranges, |counts|, index);
      }
    }

    ghost function Readiness(gradients: Gradient, index: nat): ReadyOutcome
      reads this
      requires |gradients| == |counts|
    {
      if !active then NotActive
      else if index >= |counts| then OutOfRange
      else if index in marked then Duplicate
      else if |gradients[index]| != counts[index] then InvalidGradient
      else Marked
    }

    method CheckReady(gradients: Gradient, index: nat) returns (outcome: ReadyOutcome, b: nat)
      requires Valid() && |gradients| == |counts|
      ensures outcome == Readiness(gradients, index)
      ensures outcome.Marked? ==> b < |ranges| && ranges[b].first <= index < ranges[b].end
    {
      b := 0;
      if !active {
        return NotActive, b;
      }
      b := FindRange(index);
      if b == |ranges| {
        return OutOfRange, b;
      }
      assert Tracks(ranges[b], progress[b], marked);
      if progress[b].ready[index - ranges[b].first] {
        return Duplicate, b;
      }
      if |gradients[index]| != counts[index] {
        return InvalidGradient, b;
      }
      outcome := Marked;
    }

    /** The ready hook of parameter `index`: enqueues every bucket that has become complete behind the frontier. */
    method MarkParameterReady(communicator: RankCommunicator, parameters: Parameters,
                              index: nat) returns (outcome: ReadyOutcome)
      requires Valid() && parameters.counts == counts && |parameters.gradients| == |counts|
      modifies this, communicator
      ensures Valid() && initialized == old(initialized) && Binding() == old(Binding())
      ensures active == old(active) && localScale == old(localScale)
      ensures outcome == old(Readiness(parameters.gradients, index))
      ensures outcome.Marked? ==>
        && CurrentLayout().Valid()
        && marked == old(marked) + {index}
        && next <= old(next) <= |ranges|
        && communicator.issued == old(communicator.issued)
             + Launched(CurrentLayout(), ScaleAll(localScale, parameters.gradients), old(next), next)
      ensures !outcome.Marked? ==>
        marked == old(marked) && next == old(next) && communicator.issued == old(communicator.issued)
    {
      var b;
      outcome, b := CheckReady(parameters.gradients, index);
      if !outcome.Marked? {
        return;
      }
      Advance(communicator, parameters.gradients, b, index);
    }

    method Advance(communicator: RankCommunicator, gradients: Gradient, b: nat, index: nat)
      requires Valid() && active && |gradients| == |counts|
      requires b < |ranges| && ranges[b].first <= index < ranges[b].end && index !in marked
      modifies this`progress, this`marked, this`next, this`enqueued, communicator
      ensures Valid() && CurrentLayout().Valid()
      ensures marked == old(marked) + {index}
      ensures next <= old(next) <= |ranges|
      ensures communicator.issued == old(communicator.issued)
        + Launched(CurrentLayout(), ScaleAll(localScale, gradients), old(next), next)
    {
      MarkOne(b, index);
      EnqueueComplete(communicator, gradients);
    }

    /** Records that parameter `index`, of bucket `b`, is ready. */
    method MarkOne(b: nat, index: nat)
      requires Greedy(counts, ElementLimit(maximumBytes), ranges) && AllTracked(ranges, progress, marked) && CompleteFrom(progress, next)
      requires b < |ranges| && ranges[b].first <= index < ranges[b].end && index !in marked
      modifies this`progress, this`marked
      ensures AllTracked(ranges, progress, marked) && CompleteFrom(progress, next)
      ensures marked == old(marked) + {index}
    {
      MarkKeepsTracks(counts, ranges, progress, marked, b, index);
      MarkKeepsComplete(progress, next, b, index - ranges[b].first);
      progress := MarkLocal(progress, b, index - ranges[b].first);
      marked := marked + {index};
    }

    method EnqueueComplete(communicator: RankCommunicator, gradients: Gradient)
      requires initialized && active && storage.HasViews() && Greedy(counts, ElementLimit(maximumBytes), ranges) && localScale > 0.0
      requires next <= |ranges| && enqueued == |ranges| - next
      requires AllTracked(ranges, progress, marked)
      requires CompleteFrom(progress, next)
      requires |gradients| == |counts|
      modifies this`next, this`enqueued, communicator
      ensures Valid() && next <= old(next) && CurrentLayout().Valid()
      ensures communicator.issued == old(communicator.issued)
        + Launched(CurrentLayout(), ScaleAll(localScale, gradients), old(next), next)
    {
      ghost var base, from := communicator.issued, next;
      while next > 0 && progress[next - 1].remaining == 0
        invariant next <= from && enqueued == |ranges| - next && CompleteFrom(progress, next)
        invariant communicator.issued
          == base + Launched(CurrentLayout(), ScaleAll(localScale, gradients), from, next)
      {
        EnqueueNext(communicator, gradients, base, from);
      }
    }

    method EnqueueNext(communicator: RankCommunicator, gradients: Gradient, ghost base: seq<Vector>, ghost from: nat)
      requires initialized && Greedy(counts, ElementLimit(maximumBytes), ranges) && localScale > 0.0 && |gradients| == |counts|
      requires 0 < next <= from <= |ranges| == |progress| && CompleteFrom(progress, next) && progress[next - 1].remaining == 0
      requires communicator.issued == base + Launched(CurrentLayout(), ScaleAll(localScale, gradients), from, next)
      modifies this`next, this`enqueued, communicator
      ensures next == old(next) - 1 && enqueued == old(enqueued) + 1 && CompleteFrom(progress, next)
      ensures communicator.issued == base + Launched(CurrentLayout(), ScaleAll(localScale, gradients), from, next)
    {
      CompleteStep(progress, next);
      LaunchedStep(CurrentLayout(), ScaleAll(localScale, gradients), from, next - 1);
      var _ := EnqueueBucket(communicator, CurrentLayout(), next - 1, gradients, storage.Gathered?, localScale);
      enqueued := enqueued + 1;
      next := next - 1;
    }

    /** Closes the step: succeeds exactly when every bucket was enqueued, and leaves the averaged views. */
    method FinishOverlapStep(parameters: Parameters, results: seq<Vector>) returns (ok: bool, stats: BucketStats)
      requires Valid() && parameters.counts == counts && |parameters.gradients| == |counts|
      requires active ==> CurrentLayout().Valid() && CurrentLayout().Fits(OverlapViews, true, results)
      modifies this, parameters
      ensures Valid() && initialized == old(initialized) && Binding() == old(Binding())
      ensures ok == (old(active) && old(next) == 0)
      ensures ok ==> !active && stats == ExpectedBucketStats(storage, |counts|, |ranges|, old(localScale), true, true)
      ensures ok ==> parameters.gradients == CurrentLayout().Deliver(OverlapViews, true, results)
      ensures !ok ==> active == old(active) && parameters.gradients == old(parameters.gradients)
    {
      stats := NoBucketStats;
      if !active || next != 0 || enqueued != |ranges| {
        return false, stats;
      }
      stats := stats.(buckets := |ranges|, persistent := true, planReused := true,
                      overlapEnabled := true, overlappedBuckets := enqueued);
      if storage.Gathered? {
        stats := stats.(gatherCalls := |ranges|, descriptorCopies := |ranges|);
      } else {
        stats := stats.(weightScales := if localScale == 1.0 then 0 else |ranges|);
      }
      stats := AdoptViews(parameters, CurrentLayout(), storage, results, stats);
      active, localScale := false, 1.0;
      ok := true;
    }

    /** Binds a fresh plan, and compares a bound one field by field. */
    method Bind(communicator: RankCommunicator, parameters: Parameters, maximumBytes: nat, storage: Storage, layout: Layout)
      returns (ok: bool)
      requires Valid() && Greedy(layout.counts, ElementLimit(maximumBytes), layout.ranges)
      modifies this
      ensures Valid() && active == old(active) && initialized
      ensures ok == (old(initialized) ==>
        old(Binding()) == Contract(communicator.endpoint, parameters, maximumBytes, storage, layout))
      ensures ok ==> Binding() == Contract(communicator.endpoint, parameters, maximumBytes, storage, layout)
      ensures !ok ==> Binding() == old(Binding())
    {
      if initialized {
        if endpoint != communicator.endpoint || bound != parameters || this.maximumBytes != maximumBytes || this.storage != storage {
          return false;
        }
        return ranges == layout.ranges && counts == layout.counts;
      }
      initialized, endpoint, bound := true, communicator.endpoint, parameters;
      this.maximumBytes, this.storage, counts, ranges := maximumBytes, storage, layout.counts, layout.ranges;
      ok := true;
    }

    /** The synchronous reduction through the plan: binds the plan on first use; later uses must come from the
        same endpoint, with the same parameters, limit, storage and gradient sizes. */
    method AllReduce(communicator: RankCommunicator, parameters: Parameters, maximumBytes: nat, storage: Storage, scale: real,
                     ghost layout: Layout, results: seq<Vector>)
      returns (ok: bool, stats: BucketStats)
      requires Valid() && Shaped(layout.counts, parameters.gradients)
      requires Greedy(layout.counts, ElementLimit(maximumBytes), layout.ranges) && layout.Fits(Bucket, false, results)
      modifies this, communicator, parameters
      ensures Valid() && active == old(active)
      ensures ok == (maximumBytes >= 4 && scale > 0.0 && (old(initialized) && layout.counts != [] ==>
        old(Binding()) == Contract(communicator.endpoint, parameters, maximumBytes, storage, layout)))
      ensures !ok ==>
        && initialized == old(initialized) && Binding() == old(Binding())
        && communicator.issued == old(communicator.issued)
        && parameters.gradients == old(parameters.gradients)
      ensures ok ==>
        && initialized == (old(initialized) || layout.counts != [])
        && communicator.issued
             == old(communicator.issued) + layout.Payloads(Bucket, false, ScaleAll(scale, old(parameters.gradients)))
        && parameters.gradients == layout.Deliver(Bucket, false, results)
      ensures ok && layout.counts != [] ==>
        && Binding() == Contract(communicator.endpoint, parameters, maximumBytes, storage, layout)
        && stats == ExpectedBucketStats(storage, |counts|, |ranges|, scale, old(initialized), false)
    {
      ok, stats := maximumBytes >= 4 && scale > 0.0, NoBucketStats;
      if ok && parameters.gradients != [] {
        var reused := initialized;
        ok := BindTo(communicator, parameters, maximumBytes, storage, layout);
        if ok {
          stats := ReduceRanges(communicator, parameters, CurrentLayout(), storage, reused, scale, results);
        }
      }
    }

    /** Lays the gradients out afresh and binds the plan to the outcome, or compares it with the binding. */
    method BindTo(communicator: RankCommunicator, parameters: Parameters, maximumBytes: nat, storage: Storage,
                  ghost layout: Layout)
      returns (ok: bool)
      requires Valid() && Shaped(layout.counts, parameters.gradients)
      requires Greedy(layout.counts, ElementLimit(maximumBytes), layout.ranges)
      modifies this
      ensures Valid() && active == old(active) && initialized
      ensures ok == (old(initialized) ==>
        old(Binding()) == Contract(communicator.endpoint, parameters, maximumBytes, storage, layout))
      ensures ok ==> Binding() == Contract(communicator.endpoint, parameters, maximumBytes, storage, layout)
      ensures !ok ==> Binding() == old(Binding())
    {
      var sizes := Sizes(parameters.gradients);
      assert sizes == layout.counts;
      var expected := PackRanges(sizes, ElementLimit(maximumBytes));
      GreedyUnique(sizes, ElementLimit(maximumBytes), expected, layout.ranges);
      ok := Bind(communicator, parameters, maximumBytes, storage, Layout(sizes, expected));
    }
  }
}
