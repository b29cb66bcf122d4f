/** Greedy packing of consecutive parameters into buckets, and its optimality. */
module BucketRanges {
  import opened Basics

  datatype BucketRange = BucketRange(first: nat, end: nat, elements: nat)

  /** Number of elements in the first `k` parameters. */
  function Prefix(counts: seq<nat>, k: nat): nat
    requires k <= |counts|
  {
    if k == 0 then 0 else Prefix(counts, k - 1) + counts[k - 1]
  }

  lemma {:induction false} PrefixMonotone(counts: seq<nat>, i: nat, j: nat)
    requires i <= j <= |counts|
    ensures Prefix(counts, i) <= Prefix(counts, j)
  {
    if i < j {
      PrefixMonotone(counts, i, j - 1);
    }
  }

  /** Elements of the parameters `[first, end)`. */
  function Elements(counts: seq<nat>, first: nat, end: nat): nat
    requires first <= end <= |counts|
  {
    PrefixMonotone(counts, first, end);
    Prefix(counts, end) - Prefix(counts, first)
  }

  /** A bucket is admissible when it fits the limit or holds a single parameter. */
  predicate Admissible(counts: seq<nat>, limit: nat, first: nat, end: nat)
    requires first <= end <= |counts|
  {
    first < end && (end == first + 1 || Elements(counts, first, end) <= limit)
  }

  /** Consecutive non-empty buckets from parameter `from` up to parameter `to`. */
  predicate Consecutive(counts: seq<nat>, ranges: seq<BucketRange>, from: nat, to: nat)
    requires to <= |counts|
  {
    && (ranges == [] ==> from == to)
    && (ranges != [] ==> ranges[0].first == from && ranges[|ranges| - 1].end == to)
    && (forall b :: 0 <= b < |ranges| ==> ranges[b].first < ranges[b].end <= |counts|)
    && (forall b :: 0 < b < |ranges| ==> ranges[b - 1].end == ranges[b].first)
  }

  predicate AllAdmissible(counts: seq<nat>, limit: nat, ranges: seq<BucketRange>) {
    forall b :: 0 <= b < |ranges| ==>
      && ranges[b].first <= ranges[b].end <= |counts|
      && Admissible(counts, limit, ranges[b].first, ranges[b].end)
      && ranges[b].elements == Elements(counts, ranges[b].first, ranges[b].end)
  }

  /** A partition of all parameters into admissible consecutive buckets. */
  predicate Partition(counts: seq<nat>, limit: nat, ranges: seq<BucketRange>) {
    Consecutive(counts, ranges, 0, |counts|) && AllAdmissible(counts, limit, ranges)
  }

  /** No bucket but the last was closed while the next parameter still had room: the bucket is full,
      or adding the next parameter would exceed the limit. */
  predicate Saturated(counts: seq<nat>, limit: nat, range: BucketRange)
    requires range.first <= range.end <= |counts|
  {
    range.end < |counts| ==>
      || Elements(counts, range.first, range.end) >= limit
      || Elements(counts, range.first, range.end + 1) > limit
  }

  /** A bucket closes at the first place where it is full or the next parameter does not fit. */
  predicate Eager(counts: seq<nat>, limit: nat, range: BucketRange)
    requires range.first <= range.end <= |counts|
  {
    && Saturated(counts, limit, range)
    && forall e :: range.first < e < range.end ==> Elements(counts, range.first, e) < limit
  }

  /** The packing of the parameters before `to`, every bucket closed eagerly. */
  predicate Packed(counts: seq<nat>, limit: nat, ranges: seq<BucketRange>, to: nat) {
    && to <= |counts|
    && Consecutive(counts, ranges, 0, to)
    && AllAdmissible(counts, limit, ranges)
    && forall b :: 0 <= b < |ranges| ==> Eager(counts, limit, ranges[b])
  }

  predicate Greedy(counts: seq<nat>, limit: nat, ranges: seq<BucketRange>) {
    Packed(counts, limit, ranges, |counts|)
  }

  lemma PackedAppend(counts: seq<nat>, limit: nat, ranges: seq<BucketRange>, r: BucketRange)
    requires r.first < r.end <= |counts|
    requires Packed(counts, limit, ranges, r.first)
    requires Admissible(counts, limit, r.first, r.end) && Eager(counts, limit, r)
    requires r.elements == Elements(counts, r.first, r.end)
    ensures Packed(counts, limit, ranges + [r], r.end)
  {
  }

  method PackRanges(counts: seq<nat>, limit: nat) returns (ranges: seq<BucketRange>)
    ensures Greedy(counts, limit, ranges)
  {
    ranges := [];
    var first := 0;
    while first < |counts|
      invariant Packed(counts, limit, ranges, first)
    {
      var end := first;
      var total := 0;
      while end < |counts|
        invariant first <= end <= |counts|
        invariant total == Elements(counts, first, end)
        invariant end > first ==> Admissible(counts, limit, first, end)
        invariant forall e :: first < e <= end ==> Elements(counts, first, e) < limit
      {
        var count := counts[end];
        if end != first && total + count > limit {
          break;
        }
        total := total + count;
        end := end + 1;
        if total >= limit {
          break;
        }
      }
      PackedAppend(counts, limit, ranges, BucketRange(first, end, total));
      ranges := ranges + [BucketRange(first, end, total)];
      first := end;
    }
  }

  // ----- what greediness means ----------------------------------------------------------

  lemma ClosesAtOnePlace(counts: seq<nat>, limit: nat, p: BucketRange, q: BucketRange)
    requires p.first == q.first && p.first < p.end <= |counts| && q.first < q.end <= |counts|
    requires Eager(counts, limit, p) && Admissible(counts, limit, q.first, q.end)
    requires forall e :: q.first < e < q.end ==> Elements(counts, q.first, e) < limit
    ensures q.end <= p.end
  {
    if p.end < q.end {
      PrefixMonotone(counts, p.end + 1, q.end);
    }
  }

  lemma {:induction false} GreedyAgree(counts: seq<nat>, limit: nat, p: seq<BucketRange>, q: seq<BucketRange>, k: nat)
    requires Greedy(counts, limit, p) && Greedy(counts, limit, q)
    requires k <= |p| && k <= |q|
    ensures forall b :: 0 <= b < k ==> p[b] == q[b]
  {
    if k > 0 {
      GreedyAgree(counts, limit, p, q, k - 1);
      var a, b := p[k - 1], q[k - 1];
      assert a.first == b.first by {
        if k > 1 {
          assert p[k - 2] == q[k - 2];
        }
      }
      ClosesAtOnePlace(counts, limit, a, b);
      ClosesAtOnePlace(counts, limit, b, a);
    }
  }

  /** The packing is determined: there is exactly one greedy packing. */
  lemma GreedyUnique(counts: seq<nat>, limit: nat, p: seq<BucketRange>, q: seq<BucketRange>)
    requires Greedy(counts, limit, p) && Greedy(counts, limit, q)
    ensures p == q
  {
    if |p| <= |q| {
      GreedyAgree(counts, limit, p, q, |p|);
      EndsTogether(counts, p, q);
    } else {
      GreedyAgree(counts, limit, q, p, |q|);
      EndsTogether(counts, q, p);
    }
  }

  /** Only the last bucket can reach the last parameter. */
  lemma NotLast(counts: seq<nat>, ranges: seq<BucketRange>, to: nat, b: nat)
    requires to <= |counts| && Consecutive(counts, ranges, 0, to)
    requires b + 1 < |ranges|
    ensures ranges[b].end < |counts|
  {
    assert ranges[b].end == ranges[b + 1].first < ranges[b + 1].end;
  }

  lemma EndsTogether(counts: seq<nat>, p: seq<BucketRange>, q: seq<BucketRange>)
    requires Consecutive(counts, p, 0, |counts|) && Consecutive(counts, q, 0, |counts|)
    requires |p| <= |q| && forall b :: 0 <= b < |p| ==> p[b] == q[b]
    ensures p == q
  {
    if 0 < |p| < |q| {
      NotLast(counts, q, |counts|, |p| - 1);
    }
  }

  // ----- when the greedy packing is minimal ----------------------------------------------------------------

  /** A bucket that is exactly full is followed by a bucket without a single element. */
  predicate WastesBucket(limit: nat, ranges: seq<BucketRange>, b: nat)
    requires b + 1 < |ranges|
  {
    ranges[b].elements == limit && ranges[b + 1].elements == 0
  }

  ghost predicate Minimal(counts: seq<nat>, limit: nat, ranges: seq<BucketRange>) {
    forall other :: Partition(counts, limit, other) ==> |ranges| <= |other|
  }

  /** The greedy packing has consumed as much as the other one, up to empty tensors behind a full bucket. */
  predicate Ahead(counts: seq<nat>, limit: nat, g: BucketRange, o: BucketRange)
    requires g.first <= g.end <= |counts| && o.first <= o.end <= |counts|
  {
    || o.end <= g.end
    || (Elements(counts, g.first, g.end) == limit && Elements(counts, g.end, o.end) == 0)
  }

  /** If the greedy bucket starts no earlier, and ends earlier, it is full and the other bucket only adds
      empty tensors. */
  lemma LaterStart(counts: seq<nat>, limit: nat, g: BucketRange, o: BucketRange)
    requires g.first < g.end <= |counts| && o.first < o.end <= |counts|
    requires Eager(counts, limit, g) && Admissible(counts, limit, o.first, o.end)
    requires o.first <= g.first
    ensures Ahead(counts, limit, g, o)
  {
    if g.end < o.end {
      PrefixMonotone(counts, o.first, g.first);
      PrefixMonotone(counts, g.first, g.end);
      PrefixMonotone(counts, g.end, g.end + 1);
      PrefixMonotone(counts, g.end + 1, o.end);
    }
  }

  /** The same when the greedy bucket starts with the empty tensors that the other packing has placed already. */
  lemma EmptyStart(counts: seq<nat>, limit: nat, g: BucketRange, o: BucketRange)
    requires g.first < g.end <= |counts| && o.first < o.end <= |counts|
    requires Eager(counts, limit, g) && Admissible(counts, limit, o.first, o.end)
    requires g.first <= o.first && Elements(counts, g.first, o.first) == 0
    requires Elements(counts, g.first, g.end) > 0
    ensures Ahead(counts, limit, g, o)
  {
    if g.end <= o.first {
      PrefixMonotone(counts, g.end, o.first);
    } else if g.end < o.end {
      PrefixMonotone(counts, o.first, g.end);
      PrefixMonotone(counts, g.end + 1, o.end);
    }
  }

  /** Unless a full bucket is followed by an empty one, the greedy packing stays ahead bucket by bucket. */
  lemma {:induction false} StaysAhead(counts: seq<nat>, limit: nat, greedy: seq<BucketRange>,
                                      other: seq<BucketRange>, k: nat)
    requires Greedy(counts, limit, greedy) && Partition(counts, limit, other)
    requires forall b :: 0 <= b < |greedy| - 1 ==> !WastesBucket(limit, greedy, b)
    requires k < |greedy| && k < |other|
    ensures Ahead(counts, limit, greedy[k], other[k])
  {
    var g, o := greedy[k], other[k];
    if k == 0 {
      LaterStart(counts, limit, g, o);
    } else {
      StaysAhead(counts, limit, greedy, other, k - 1);
      assert !WastesBucket(limit, greedy, k - 1);
      if other[k - 1].end <= greedy[k - 1].end {
        LaterStart(counts, limit, g, o);
      } else {
        EmptyStart(counts, limit, g, o);
      }
    }
  }

  lemma NotWastefulIsMinimal(counts: seq<nat>, limit: nat, greedy: seq<BucketRange>, other: seq<BucketRange>)
    requires Greedy(counts, limit, greedy) && Partition(counts, limit, other)
    requires forall b :: 0 <= b < |greedy| - 1 ==> !WastesBucket(limit, greedy, b)
    ensures |greedy| <= |other|
  {
    if |other| < |greedy| && other != [] {
      var k := |other| - 1;
      StaysAhead(counts, limit, greedy, other, k);
      NotLast(counts, greedy, |counts|, k);
      assert !WastesBucket(limit, greedy, k);
      PrefixMonotone(counts, greedy[k + 1].end, |counts|);
    }
  }

  /** A full bucket and the empty one behind it can be one bucket. */
  lemma MergeWasted(counts: seq<nat>, limit: nat, ranges: seq<BucketRange>, b: nat) returns (merged: seq<BucketRange>)
    requires Partition(counts, limit, ranges)
    requires b + 1 < |ranges| && WastesBucket(limit, ranges, b)
    ensures Partition(counts, limit, merged) && |merged| == |ranges| - 1
  {
    var whole := BucketRange(ranges[b].first, ranges[b + 1].end, limit);
    merged := ranges[..b] + [whole] + ranges[b + 2..];
    MergedAdmissible(counts, limit, ranges, b, whole, merged);
  }

  lemma MergedAdmissible(counts: seq<nat>, limit: nat, ranges: seq<BucketRange>, b: nat, whole: BucketRange,
                         merged: seq<BucketRange>)
    requires Partition(counts, limit, ranges)
    requires b + 1 < |ranges| && WastesBucket(limit, ranges, b) && |merged| == |ranges| - 1
    requires whole == BucketRange(ranges[b].first, ranges[b + 1].end, limit)
    requires forall k :: 0 <= k < b ==> merged[k] == ranges[k]
    requires merged[b] == whole
    requires forall k :: b < k < |merged| ==> merged[k] == ranges[k + 1]
    ensures Partition(counts, limit, merged)
  {
    assert ranges[b].end == ranges[b + 1].first;
    forall k | 0 < k < |merged| ensures merged[k - 1].end == merged[k].first {
      assert k > b ==> ranges[k].end == ranges[k + 1].first;
      assert ranges[k - 1].end == ranges[k].first;
    }
    assert Admissible(counts, limit, whole.first, whole.end);
  }

  /** The greedy packing uses the fewest buckets exactly when no exactly full bucket is followed by a bucket of
      empty tensors. */
  lemma GreedyMinimalIff(counts: seq<nat>, limit: nat, greedy: seq<BucketRange>)
    requires Greedy(counts, limit, greedy)
    ensures Minimal(counts, limit, greedy) <==> forall b :: 0 <= b < |greedy| - 1 ==> !WastesBucket(limit, greedy, b)
  {
    if forall b :: 0 <= b < |greedy| - 1 ==> !WastesBucket(limit, greedy, b) {
      forall other | Partition(counts, limit, other) ensures |greedy| <= |other| {
        NotWastefulIsMinimal(counts, limit, greedy, other);
      }
    } else {
      var b :| 0 <= b < |greedy| - 1 && WastesBucket(limit, greedy, b);
      var merged := MergeWasted(counts, limit, greedy, b);
    }
  }

  predicate Positive(counts: seq<nat>) {
    forall i :: 0 <= i < |counts| ==> counts[i] > 0
  }

  /** With positive element counts, no admissible partition uses fewer buckets. */
  lemma GreedyIsOptimal(counts: seq<nat>, limit: nat, greedy: seq<BucketRange>, other: seq<BucketRange>)
    requires Positive(counts)
    requires Greedy(counts, limit, greedy) && Partition(counts, limit, other)
    ensures |greedy| <= |other|
  {
    forall b | 0 <= b < |greedy| - 1 ensures !WastesBucket(limit, greedy, b) {
      PrefixMonotone(counts, greedy[b + 1].first + 1, greedy[b + 1].end);
    }
    GreedyMinimalIff(counts, limit, greedy);
  }

  /** An empty tensor behind a full bucket opens a bucket that a better partition does not need,
      at every positive limit. */
  lemma EmptyTensorBreaksOptimality(limit: nat) returns (counts: seq<nat>, greedy: seq<BucketRange>)
    requires limit > 0
    ensures Greedy(counts, limit, greedy) && !Minimal(counts, limit, greedy)
  {
    counts := [limit, 0];
    var a, b := BucketRange(0, 1, limit), BucketRange(1, 2, 0);
    assert Prefix(counts, 1) == Prefix(counts, 0) + counts[0];
    assert Prefix(counts, 2) == Prefix(counts, 1) + counts[1];
    PackedAppend(counts, limit, [], a);
    PackedAppend(counts, limit, [] + [a], b);
    greedy := [] + [a] + [b];
    assert WastesBucket(limit, greedy, 0);
    GreedyMinimalIff(counts, limit, greedy);
  }

  function TotalElements(ranges: seq<BucketRange>): nat {
    if ranges == [] then 0 else TotalElements(ranges[..|ranges| - 1]) + ranges[|ranges| - 1].elements
  }

  lemma {:induction false} ElementsConserved(counts: seq<nat>, limit: nat, ranges: seq<BucketRange>, to: nat)
    requires to <= |counts|
    requires Consecutive(counts, ranges, 0, to) && AllAdmissible(counts, limit, ranges)
    ensures TotalElements(ranges) == Prefix(counts, to)
  {
    if ranges != [] {
      var rest := ranges[..|ranges| - 1];
      var last := ranges[|ranges| - 1];
      ElementsConserved(counts, limit, rest, last.first);
    }
  }

  /** The bucket that holds parameter `i`; there is exactly one. */
  lemma {:induction false} Covered(counts: seq<nat>, ranges: seq<BucketRange>, to: nat, i: nat) returns (b: nat)
    requires to <= |counts| && i < to
    requires Consecutive(counts, ranges, 0, to)
    ensures b < |ranges| && ranges[b].first <= i < ranges[b].end
  {
    var last := ranges[|ranges| - 1];
    if last.first <= i {
      b := |ranges| - 1;
    } else {
      b := Covered(counts, ranges[..|ranges| - 1], last.first, i);
    }
  }

  lemma {:induction false} RangesOrdered(counts: seq<nat>, ranges: seq<BucketRange>, to: nat, a: nat, b: nat)
    requires to <= |counts|
    requires Consecutive(counts, ranges, 0, to)
    requires a < b < |ranges|
    ensures ranges[a].end <= ranges[b].first
  {
    if a + 1 < b {
      RangesOrdered(counts, ranges, to, a, b - 1);
    }
  }

  // ----- fixed-size chunking ------------------------------------------------------------

  function ChunkTotal(chunks: seq<nat>): nat {
    if chunks == [] then 0 else ChunkTotal(chunks[..|chunks| - 1]) + chunks[|chunks| - 1]
  }

  /** After `n` chunks: the sum is `total` or as much of it as `n` full chunks hold. */
  predicate Chunked(chunks: seq<nat>, total: nat, size: nat, offset: nat) {
    && (offset <= total ==> ChunkTotal(chunks) == offset && forall k :: 0 <= k < |chunks| ==> chunks[k] == size)
    && (offset > total ==>
      && ChunkTotal(chunks) == total && chunks != [] && offset - total < size
      && (forall k :: 0 <= k < |chunks| - 1 ==> chunks[k] == size)
      && chunks[|chunks| - 1] == size - (offset - total))
  }

  lemma NextChunk(chunks: seq<nat>, total: nat, size: nat, offset: nat)
    requires size > 0 && offset < total && Chunked(chunks, total, size, offset)
    ensures Chunked(chunks + [if size <= total - offset then size else total - offset], total, size, offset + size)
  {
    var more := chunks + [if size <= total - offset then size else total - offset];
    assert more[..|chunks|] == chunks;
  }

  /** Fixed-size chunking of a payload: full chunks, a remainder at most, and ceil(total / size) of them. */
  method Chunks(total: nat, size: nat) returns (chunks: seq<nat>)
    requires size > 0
    ensures ChunkTotal(chunks) == total
    ensures forall k :: 0 <= k < |chunks| - 1 ==> chunks[k] == size
    ensures chunks != [] ==> 0 < chunks[|chunks| - 1] <= size
    ensures |chunks| == (total + size - 1) / size
  {
    chunks := [];
    var offset := 0;
    while offset < total
      invariant offset == |chunks| * size && (chunks != [] ==> offset < total + size)
      invariant chunks != [] ==> 0 < chunks[|chunks| - 1] <= size
      invariant Chunked(chunks, total, size, offset)
      decreases total + size - offset
    {
      NextChunk(chunks, total, size, offset);
      MulStep(|chunks|, size);
      chunks := chunks + [if size <= total - offset then size else total - offset];
      offset := offset + size;
    }
    CeilingFromBounds(total, size, |chunks|);
  }

  lemma CeilingFromBounds(total: nat, size: nat, n: nat)
    requires size > 0
    requires total <= n * size < total + size
    ensures n == (total + size - 1) / size
  {
    QuotientUnique(total + size - 1, size, n);
  }

  lemma QuotientUnique(x: nat, size: nat, n: nat)
    requires size > 0
    requires n * size <= x < (n + 1) * size
    ensures n == x / size
  {
    var q := x / size;
    assert q * size <= x < (q + 1) * size;
    if n < q {
      Scaled(n + 1, q, size);
    }
    if q < n {
      Scaled(q + 1, n, size);
    }
  }
}
