/** What the seven reducer policies put on the wire and what they hand back, as values. */
module Reducers {
  import opened Vectors
  import opened BucketRanges

  datatype Reducer =
    | PerParameter
    | Bucket
    | PersistentBucket
    | BucketViews
    | OverlapViews
    | BucketWeightedOverlap
    | GatherWeightedOverlap
  {
    predicate WeighsInReducer() { BucketWeightedOverlap? || GatherWeightedOverlap? }
    predicate Overlaps() { OverlapViews? || WeighsInReducer() }
    predicate UsesPlan() { !PerParameter? && !Bucket? }
  }

  /** The parameters of the model and the buckets they are packed into. */
  datatype Layout = Layout(counts: seq<nat>, ranges: seq<BucketRange>) {
    predicate Valid() { Consecutive(counts, ranges, 0, |counts|) }

    function Steps(reducer: Reducer): nat {
      if reducer.PerParameter? then |counts| else |ranges|
    }

    /** Number of parameters in the first `b` buckets. */
    function Before(b: nat): nat
      requires b <= |ranges|
    {
      if b == 0 then 0 else ranges[b - 1].end
    }

    /** The bucket that collective `j` of a step carries: overlapping steps go from the last bucket down. */
    function BucketOf(overlap: bool, j: nat): nat
      requires j < |ranges|
    {
      if overlap then |ranges| - 1 - j else j
    }

    /** The contents of bucket `b`. */
    function Pack(b: nat, g: Gradient): Vector
      requires Valid() && |g| == |counts| && b < |ranges|
    {
      Flatten(g[ranges[b].first..ranges[b].end])
    }

    /** The contributions of one rank to the collectives of one step, in issue order,
        for gradients that already carry their weight. */
    function Payloads(reducer: Reducer, overlap: bool, g: Gradient): (p: seq<Vector>)
      requires Valid() && |g| == |counts|
      ensures |p| == Steps(reducer)
    {
      if reducer.PerParameter? then g
      else seq(|ranges|, j requires 0 <= j < |ranges| => Pack(BucketOf(overlap, j), g))
    }

    /** The collective results sorted by bucket. */
    function ByBucket(overlap: bool, results: seq<Vector>): (s: seq<Vector>)
      requires |results| == |ranges|
      ensures |s| == |ranges|
      ensures forall b :: 0 <= b < |ranges| ==> s[b] == results[BucketOf(overlap, b)]
    {
      seq(|ranges|, b requires 0 <= b < |ranges| => results[BucketOf(overlap, b)])
    }

    /** The results have the lengths of the payloads they replace. */
    predicate Fits(reducer: Reducer, overlap: bool, results: seq<Vector>)
      requires Valid()
    {
      && |results| == Steps(reducer)
      && if reducer.PerParameter? then Shaped(counts, results)
         else forall b :: 0 <= b < |ranges| ==> BucketFits(b, ByBucket(overlap, results)[b])
    }

    predicate BucketFits(b: nat, v: Vector)
      requires Valid() && b < |ranges|
    {
      |v| == Sum(counts[ranges[b].first..ranges[b].end])
    }

    /** Unpack the first `k` buckets. */
    function Unpack(k: nat, byBucket: seq<Vector>): (g: Gradient)
      requires Valid() && k <= |ranges| == |byBucket|
      requires forall b :: 0 <= b < |ranges| ==> BucketFits(b, byBucket[b])
      ensures |g| == Before(k)
    {
      if k == 0 then []
      else Unpack(k - 1, byBucket) + Split(counts[ranges[k - 1].first..ranges[k - 1].end], byBucket[k - 1])
    }

    /** The gradients a rank holds after the collectives of a step returned `results`. */
    function Deliver(reducer: Reducer, overlap: bool, results: seq<Vector>): (g: Gradient)
      requires Valid() && Fits(reducer, overlap, results)
      ensures |g| == |counts|
    {
      if reducer.PerParameter? then results else Unpack(|ranges|, ByBucket(overlap, results))
    }
  }

  /** The payload lists of all ranks for one step. */
  function AllPayloads(layout: Layout, reducer: Reducer, overlap: bool, ws: seq<Gradient>): (ps: seq<seq<Vector>>)
    requires layout.Valid() && SameShape(layout.counts, ws)
    ensures |ps| == |ws|
    ensures forall r :: 0 <= r < |ws| ==> ps[r] == layout.Payloads(reducer, overlap, ws[r])
  {
    seq(|ws|, r requires 0 <= r < |ws| => layout.Payloads(reducer, overlap, ws[r]))
  }

  /** What the averaging collectives return when every rank contributed its payloads. */
  function Collect(layout: Layout, reducer: Reducer, overlap: bool, ws: seq<Gradient>): (results: seq<Vector>)
    requires layout.Valid() && |ws| > 0 && SameShape(layout.counts, ws)
    ensures |results| == layout.Steps(reducer)
  {
    PayloadsUniform(layout, reducer, overlap, ws);
    seq(layout.Steps(reducer), j requires 0 <= j < layout.Steps(reducer) =>
      Average(Pick(AllPayloads(layout, reducer, overlap, ws), j)))
  }

  lemma BucketWindow(layout: Layout, b: nat, ws: seq<Gradient>)
    requires layout.Valid() && b < |layout.ranges| && SameShape(layout.counts, ws)
    ensures var f, e := layout.ranges[b].first, layout.ranges[b].end;
      && SameShape(layout.counts[f..e], Window(ws, f, e))
      && (|ws| > 0 ==> AverageAll(layout.counts[f..e], Window(ws, f, e)) == AverageAll(layout.counts, ws)[f..e])
  {
    var f, e := layout.ranges[b].first, layout.ranges[b].end;
    if |ws| > 0 {
      forall i | 0 <= i < e - f
        ensures AverageAll(layout.counts[f..e], Window(ws, f, e))[i] == AverageAll(layout.counts, ws)[f..e][i]
      {
        assert Pick(Window(ws, f, e), i) == Pick(ws, f + i);
      }
    }
  }

  lemma PayloadsUniform(layout: Layout, reducer: Reducer, overlap: bool, ws: seq<Gradient>)
    requires layout.Valid() && SameShape(layout.counts, ws)
    ensures forall j {:trigger Pick(AllPayloads(layout, reducer, overlap, ws), j)} :: 0 <= j < layout.Steps(reducer) ==>
      var column := Pick(AllPayloads(layout, reducer, overlap, ws), j);
      Uniform(column, if |ws| == 0 then 0 else |column[0]|)
  {
    forall j {:trigger Pick(AllPayloads(layout, reducer, overlap, ws), j)} | 0 <= j < layout.Steps(reducer)
      ensures var column := Pick(AllPayloads(layout, reducer, overlap, ws), j);
        Uniform(column, if |ws| == 0 then 0 else |column[0]|)
    {
      if !reducer.PerParameter? {
        PayloadColumn(layout, reducer, overlap, ws, j);
      }
    }
  }

  /** Column `j` of the payloads is the packed window of its bucket. */
  lemma PayloadColumn(layout: Layout, reducer: Reducer, overlap: bool, ws: seq<Gradient>, j: nat)
    requires layout.Valid() && SameShape(layout.counts, ws)
    requires !reducer.PerParameter? && j < |layout.ranges|
    ensures var range := layout.ranges[layout.BucketOf(overlap, j)];
      && Pick(AllPayloads(layout, reducer, overlap, ws), j) == FlattenEach(Window(ws, range.first, range.end))
      && Uniform(FlattenEach(Window(ws, range.first, range.end)), Sum(layout.counts[range.first..range.end]))
  {
    var b := layout.BucketOf(overlap, j);
    var range := layout.ranges[b];
    BucketWindow(layout, b, ws);
    FlattenEachUniform(layout.counts[range.first..range.end], Window(ws, range.first, range.end));
  }

  /** The result of the collective that carries bucket `b` is the packed average of the bucket. */
  lemma BucketResult(layout: Layout, reducer: Reducer, overlap: bool, ws: seq<Gradient>, b: nat)
    requires layout.Valid() && |ws| > 0 && SameShape(layout.counts, ws)
    requires !reducer.PerParameter? && b < |layout.ranges|
    ensures layout.ByBucket(overlap, Collect(layout, reducer, overlap, ws))[b]
      == layout.Pack(b, AverageAll(layout.counts, ws))
    ensures layout.BucketFits(b, layout.Pack(b, AverageAll(layout.counts, ws)))
  {
    var range := layout.ranges[b];
    var j := layout.BucketOf(overlap, b);
    PayloadsUniform(layout, reducer, overlap, ws);
    PayloadColumn(layout, reducer, overlap, ws, j);
    BucketWindow(layout, b, ws);
    AverageFlatten(layout.counts[range.first..range.end], Window(ws, range.first, range.end));
    FlattenLength(layout.counts[range.first..range.end], AverageAll(layout.counts, ws)[range.first..range.end]);
  }

  lemma SliceJoin(g: Gradient, first: nat, end: nat)
    requires first <= end <= |g|
    ensures g[..first] + g[first..end] == g[..end]
  {
  }

  lemma {:induction false} UnpackPacked(layout: Layout, byBucket: seq<Vector>, g: Gradient, k: nat)
    requires layout.Valid() && Shaped(layout.counts, g) && k <= |layout.ranges| == |byBucket|
    requires forall b :: 0 <= b < |layout.ranges| ==> layout.BucketFits(b, byBucket[b])
    requires forall b :: 0 <= b < |layout.ranges| ==> byBucket[b] == layout.Pack(b, g)
    ensures layout.Unpack(k, byBucket) == g[..layout.Before(k)]
  {
    if k > 0 {
      UnpackPacked(layout, byBucket, g, k - 1);
      var range := layout.ranges[k - 1];
      SplitFlatten(layout.counts[range.first..range.end], g[range.first..range.end]);
      SliceJoin(g, range.first, range.end);
    }
  }

  /** Every policy, overlapping or not, leaves on every rank the parameter by parameter average of the
      weighted local gradients. */
  lemma ReducerIndependence(layout: Layout, reducer: Reducer, overlap: bool, ws: seq<Gradient>)
    requires layout.Valid() && |ws| > 0 && SameShape(layout.counts, ws)
    ensures layout.Fits(reducer, overlap, Collect(layout, reducer, overlap, ws))
    ensures layout.Deliver(reducer, overlap, Collect(layout, reducer, overlap, ws)) == AverageAll(layout.counts, ws)
  {
    var results := Collect(layout, reducer, overlap, ws);
    var g := AverageAll(layout.counts, ws);
    if reducer.PerParameter? {
      forall i | 0 <= i < |layout.counts| ensures results[i] == g[i] {
        assert Pick(AllPayloads(layout, reducer, overlap, ws), i) == Pick(ws, i);
      }
    } else {
      var byBucket := layout.ByBucket(overlap, results);
      forall b | 0 <= b < |layout.ranges|
        ensures layout.BucketFits(b, byBucket[b]) && byBucket[b] == layout.Pack(b, g)
      {
        BucketResult(layout, reducer, overlap, ws, b);
      }
      UnpackPacked(layout, byBucket, g, |layout.ranges|);
    }
  }
}
