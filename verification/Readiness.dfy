/** Which buckets complete before backward ends: the analysis of a gradient ready order. */
module Readiness {
  import opened Basics
  import opened BucketRanges

  /** Every one of `n` parameters becomes ready exactly once. */
  predicate ReadyOrder(order: seq<nat>, n: nat) {
    && |order| == n
    && (forall k :: 0 <= k < n ==> order[k] < n)
    && Distinct(order)
  }

  predicate Distinct(order: seq<nat>) {
    forall j, k :: 0 <= j < k < |order| ==> order[j] != order[k]
  }

  function Elems(order: seq<nat>): set<nat> {
    if order == [] then {} else Elems(order[..|order| - 1]) + {order[|order| - 1]}
  }

  lemma {:induction false} ElemsMember(order: seq<nat>, x: nat)
    ensures x in Elems(order) <==> x in order
  {
    if order != [] {
      ElemsMember(order[..|order| - 1], x);
    }
  }

  lemma ElemsGrow(order: seq<nat>, k: nat)
    requires k < |order|
    ensures Elems(order[..k + 1]) == Elems(order[..k]) + {order[k]}
    ensures Distinct(order) ==> order[k] !in Elems(order[..k])
  {
    assert order[..k + 1][..k] == order[..k];
    ElemsMember(order[..k], order[k]);
  }

  lemma {:induction false} ElemsCount(order: seq<nat>, k: nat)
    requires Distinct(order) && k <= |order|
    ensures |Elems(order[..k])| == k
  {
    if k > 0 {
      ElemsCount(order, k - 1);
      ElemsGrow(order, k - 1);
    }
  }

  /** The parameters below `n`. */
  function UpTo(n: nat): (s: set<nat>)
    ensures forall i: nat :: i in s <==> i < n
  {
    if n == 0 then {} else UpTo(n - 1) + {n - 1}
  }

  lemma {:induction false} UpToCount(n: nat)
    ensures |UpTo(n)| == n
  {
    if n > 0 {
      UpToCount(n - 1);
    }
  }

  /** A ready order leaves no parameter out. */
  lemma ReadyOrderCovers(order: seq<nat>, n: nat)
    requires ReadyOrder(order, n)
    ensures Elems(order) == UpTo(n)
  {
    assert order[..n] == order;
    ElemsCount(order, n);
    UpToCount(n);
    forall x | x in Elems(order) ensures x in UpTo(n) {
      ElemsMember(order, x);
    }
    SubsetOfSameSize(Elems(order), UpTo(n));
  }

  /** Before the last position all parameters but the last one are ready. */
  lemma AllButLast(order: seq<nat>, n: nat)
    requires ReadyOrder(order, n) && n > 0
    ensures Elems(order[..n - 1]) == UpTo(n) - {order[n - 1]}
  {
    ReadyOrderCovers(order, n);
    ElemsGrow(order, n - 1);
    assert order[..n - 1 + 1] == order;
  }

  predicate Holds(range: BucketRange, i: nat) {
    range.first <= i < range.end
  }

  /** The last parameter of the bucket becomes ready at position `c`. */
  predicate CompletesAt(order: seq<nat>, range: BucketRange, c: nat) {
    && c < |order| && Holds(range, order[c])
    && forall k :: c < k < |order| ==> !Holds(range, order[k])
  }

  predicate BeginsAt(order: seq<nat>, range: BucketRange, c: nat) {
    && c < |order| && Holds(range, order[c])
    && forall k :: 0 <= k < c ==> !Holds(range, order[k])
  }

  datatype AuditRow = AuditRow(range: BucketRange, firstReady: nat, completion: nat, early: bool)

  predicate RowFor(order: seq<nat>, range: BucketRange, row: AuditRow) {
    && row.range == range
    && BeginsAt(order, range, row.firstReady)
    && CompletesAt(order, range, row.completion)
    && row.early == (row.completion < |order| - 1)
  }

  function EarlyRows(rows: seq<AuditRow>): nat {
    if rows == [] then 0 else EarlyRows(rows[..|rows| - 1]) + if rows[|rows| - 1].early then 1 else 0
  }

  predicate Audited(order: seq<nat>, ranges: seq<BucketRange>, rows: seq<AuditRow>) {
    && |rows| == |ranges|
    && forall b :: 0 <= b < |ranges| ==> RowFor(order, ranges[b], rows[b])
  }

  /** Position of every parameter in the ready order. */
  predicate Inverse(order: seq<nat>, positions: map<nat, nat>) {
    && (forall k :: 0 <= k < |order| ==> order[k] in positions && positions[order[k]] == k)
    && (forall i :: i in positions ==> positions[i] < |order| && order[positions[i]] == i)
  }

  method Positions(order: seq<nat>) returns (positions: map<nat, nat>)
    requires Distinct(order)
    ensures Inverse(order, positions)
  {
    positions := map[];
    for k := 0 to |order|
      invariant forall j :: 0 <= j < k ==> order[j] in positions && positions[order[j]] == j
      invariant forall i :: i in positions ==> positions[i] < k && order[positions[i]] == i
    {
      positions := positions[order[k] := k];
    }
  }

  /** Least and greatest position of the parameters of one bucket. */
  method Extremes(order: seq<nat>, positions: map<nat, nat>, range: BucketRange) returns (least: nat, greatest: nat)
    requires Inverse(order, positions) && range.first < range.end
    requires forall i :: Holds(range, i) ==> i in positions
    ensures BeginsAt(order, range, least) && CompletesAt(order, range, greatest)
  {
    least, greatest := positions[range.first], positions[range.first];
    for i := range.first + 1 to range.end
      invariant least < |order| && Holds(range, order[least])
      invariant greatest < |order| && Holds(range, order[greatest])
      invariant forall j :: range.first <= j < i ==> least <= positions[j] <= greatest
    {
      if positions[i] < least {
        least := positions[i];
      }
      if positions[i] > greatest {
        greatest := positions[i];
      }
    }
    forall k | 0 <= k < |order| && Holds(range, order[k]) ensures least <= k <= greatest {
      assert positions[order[k]] == k;
    }
  }

  /** The whole analysis: one row per bucket, and all buckets but one are ready before backward ends. */
  method Audit(counts: seq<nat>, limit: nat, order: seq<nat>) returns (rows: seq<AuditRow>, early: nat)
    requires ReadyOrder(order, |counts|)
    ensures exists ranges :: Greedy(counts, limit, ranges) && Audited(order, ranges, rows)
    ensures early == EarlyRows(rows)
    ensures counts != [] ==> early == |rows| - 1
  {
    var positions := Positions(order);
    var ranges := PackRanges(counts, limit);
    rows, early := [], 0;
    for b := 0 to |ranges|
      invariant Audited(order, ranges[..b], rows)
      invariant early == EarlyRows(rows)
    {
      AllHavePositions(counts, order, positions, ranges[b]);
      var least, greatest := Extremes(order, positions, ranges[b]);
      var row := AuditRow(ranges[b], least, greatest, greatest < |order| - 1);
      ghost var before := rows;
      rows := rows + [row];
      assert rows[..|rows| - 1] == before;
      early := early + if row.early then 1 else 0;
    }
    assert ranges[..|ranges|] == ranges;
    if counts != [] {
      EarlyBuckets(counts, order, ranges, rows);
    }
  }

  lemma AllHavePositions(counts: seq<nat>, order: seq<nat>, positions: map<nat, nat>, range: BucketRange)
    requires ReadyOrder(order, |counts|) && Inverse(order, positions) && range.end <= |counts|
    ensures forall i :: Holds(range, i) ==> i in positions
  {
    ReadyOrderCovers(order, |counts|);
    forall i | Holds(range, i) ensures i in positions {
      ElemsMember(order, i);
    }
  }

  /** All buckets but one are ready before backward ends, whatever the order. */
  lemma EarlyBuckets(counts: seq<nat>, order: seq<nat>, ranges: seq<BucketRange>, rows: seq<AuditRow>)
    requires counts != [] && ReadyOrder(order, |counts|)
    requires Consecutive(counts, ranges, 0, |counts|) && Audited(order, ranges, rows)
    ensures EarlyRows(rows) == |rows| - 1
  {
    var last := Covered(counts, ranges, |counts|, order[|order| - 1]);
    OneLateBucket(counts, order, ranges, rows, last);
    EarlyAllButOne(rows, last);
  }

  /** Buckets complete at pairwise different positions. */
  lemma CompletionsDiffer(counts: seq<nat>, order: seq<nat>, ranges: seq<BucketRange>, rows: seq<AuditRow>, a: nat, b: nat)
    requires Consecutive(counts, ranges, 0, |counts|) && Audited(order, ranges, rows)
    requires a < b < |ranges|
    ensures rows[a].completion != rows[b].completion
  {
    RangesOrdered(counts, ranges, |counts|, a, b);
    assert RowFor(order, ranges[a], rows[a]) && RowFor(order, ranges[b], rows[b]);
  }

  /** The bucket of the last ready parameter, and no other, completes at the final position. */
  lemma OneLateBucket(counts: seq<nat>, order: seq<nat>, ranges: seq<BucketRange>, rows: seq<AuditRow>, last: nat)
    requires Consecutive(counts, ranges, 0, |counts|) && Audited(order, ranges, rows)
    requires order != [] && last < |ranges| && Holds(ranges[last], order[|order| - 1])
    ensures forall b :: 0 <= b < |rows| ==> (rows[b].early <==> b != last)
  {
    forall b | 0 <= b < |rows| ensures rows[b].early <==> b != last {
      assert RowFor(order, ranges[b], rows[b]) && RowFor(order, ranges[last], rows[last]);
      if b < last {
        CompletionsDiffer(counts, order, ranges, rows, b, last);
      } else if last < b {
        CompletionsDiffer(counts, order, ranges, rows, last, b);
      }
    }
  }

  lemma {:induction false} AllEarly(rows: seq<AuditRow>)
    requires forall b :: 0 <= b < |rows| ==> rows[b].early
    ensures EarlyRows(rows) == |rows|
  {
    if rows != [] {
      AllEarly(rows[..|rows| - 1]);
    }
  }

  lemma {:induction false} EarlyAllButOne(rows: seq<AuditRow>, last: nat)
    requires last < |rows|
    requires forall b :: 0 <= b < |rows| ==> (rows[b].early <==> b != last)
    ensures EarlyRows(rows) == |rows| - 1
  {
    if last == |rows| - 1 {
      AllEarly(rows[..last]);
    } else {
      EarlyAllButOne(rows[..|rows| - 1], last);
    }
  }

  /** The order in which backward visits the parameters of a plain stack of layers. */
  predicate Reversed(order: seq<nat>) {
    forall k :: 0 <= k < |order| ==> order[k] == |order| - 1 - k
  }

  /** Under reverse order a bucket completes with its first parameter, so later buckets complete earlier. */
  lemma ReverseCompletions(counts: seq<nat>, order: seq<nat>, ranges: seq<BucketRange>, rows: seq<AuditRow>, a: nat, b: nat)
    requires Consecutive(counts, ranges, 0, |counts|) && Audited(order, ranges, rows)
    requires |order| == |counts| && Reversed(order) && a < b < |ranges|
    ensures rows[a].completion == |order| - 1 - ranges[a].first
    ensures rows[b].completion < rows[a].completion
  {
    RangesOrdered(counts, ranges, |counts|, a, b);
    forall r | r == a || r == b ensures rows[r].completion == |order| - 1 - ranges[r].first {
      assert RowFor(order, ranges[r], rows[r]);
      assert Holds(ranges[r], order[|order| - 1 - ranges[r].first]);
    }
  }
}
