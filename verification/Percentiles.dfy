/** Interpolated percentiles and the comparison of complete tensor files. */
module Percentiles {
  import opened Basics

  // ----- percentiles -----------------------------------------------------------------------------------------

  predicate Sorted(v: seq<real>) {
    forall j, k :: 0 <= j < k < |v| ==> v[j] <= v[k]
  }

  /** Two sorted arrangements of the same values are equal. */
  lemma {:induction false} SortedUnique(a: seq<real>, b: seq<real>)
    requires Sorted(a) && Sorted(b) && multiset(a) == multiset(b)
    ensures a == b
    decreases |a|
  {
    assert |a| == |multiset(a)| && |b| == |multiset(b)|;
    if a != [] {
      var n := |a| - 1;
      LastIsGreatest(a, b);
      LastIsGreatest(b, a);
      DropLast(a);
      DropLast(b);
      SortedUnique(a[..n], b[..n]);
    }
  }

  lemma DropLast(a: seq<real>)
    requires a != []
    ensures a == a[..|a| - 1] + [a[|a| - 1]]
    ensures multiset(a[..|a| - 1]) == multiset(a) - multiset{a[|a| - 1]}
  {
    assert a == a[..|a| - 1] + [a[|a| - 1]];
  }

  lemma LastIsGreatest(a: seq<real>, b: seq<real>)
    requires Sorted(a) && a != [] && b != [] && multiset(a) == multiset(b)
    ensures b[|b| - 1] <= a[|a| - 1]
  {
    assert b[|b| - 1] in multiset(b);
    assert b[|b| - 1] in multiset(a);
    var k :| 0 <= k < |a| && a[k] == b[|b| - 1];
  }

  method Sort(values: seq<real>) returns (v: seq<real>)
    ensures Sorted(v) && multiset(v) == multiset(values)
  {
    v := [];
    for i := 0 to |values|
      invariant Sorted(v) && multiset(v) == multiset(values[..i])
    {
      var k: nat := |v|;
      while k > 0 && v[k - 1] > values[i]
        invariant k <= |v| && forall j: nat :: k <= j < |v| ==> v[j] > values[i]
      {
        k := k - 1;
      }
      InsertSorted(v, k, values[i]);
      assert values[..i + 1] == values[..i] + [values[i]];
      v := v[..k] + [values[i]] + v[k..];
    }
    assert values[..|values|] == values;
  }

  lemma InsertSorted(v: seq<real>, k: nat, x: real)
    requires Sorted(v) && k <= |v| && (k > 0 ==> v[k - 1] <= x)
    requires forall j: nat :: k <= j < |v| ==> v[j] > x
    ensures Sorted(v[..k] + [x] + v[k..])
    ensures multiset(v[..k] + [x] + v[k..]) == multiset(v) + multiset([x])
  {
    Halves(v, k);
    SameItems(v[..k], v[k..], x);
    StillSorted(v, k, x);
  }

  lemma SameItems(front: seq<real>, back: seq<real>, x: real)
    ensures multiset(front + [x] + back) == multiset(front + back) + multiset([x])
  {
  }

  lemma {:induction false} StillSorted(v: seq<real>, k: nat, x: real)
    requires Sorted(v) && k <= |v| && (k > 0 ==> v[k - 1] <= x)
    requires forall j: nat :: k <= j < |v| ==> v[j] > x
    ensures Sorted(v[..k] + [x] + v[k..])
  {
    var w := v[..k] + [x] + v[k..];
    forall a, b | 0 <= a < b < |w| ensures w[a] <= w[b] {
      assert w[a] == if a < k then v[a] else if a == k then x else v[a - 1];
      assert w[b] == if b < k then v[b] else if b == k then x else v[b - 1];
    }
  }

  lemma Halves(v: seq<real>, k: nat)
    requires k <= |v|
    ensures v[..k] + v[k..] == v
  {
  }

  function Blend(a: real, b: real, fraction: real): real {
    a * (1.0 - fraction) + b * fraction
  }

  /** Linear interpolation between the neighbours of a position. */
  function Interpolate(v: seq<real>, position: real): real
    requires 0.0 <= position <= (|v| - 1) as real
  {
    var lower := position.Floor;
    var upper := if position == lower as real then lower else lower + 1;
    Blend(v[lower], v[upper], position - lower as real)
  }

  predicate Accepted(values: seq<real>, quantile: real) {
    values != [] && 0.0 <= quantile <= 1.0
  }

  /** The possibly fractional index of a quantile among `n` values. */
  function Position(n: nat, quantile: real): real {
    quantile * (n - 1) as real
  }

  lemma PositionsInOrder(n: nat, p: real, q: real)
    requires n > 0 && 0.0 <= p <= q <= 1.0
    ensures 0.0 <= Position(n, p) <= Position(n, q) <= (n - 1) as real
  {
    var m := (n - 1) as real;
    AtMost(0.0, p, m);
    AtMost(p, q, m);
    AtMost(q, 1.0, m);
  }

  lemma AtMost(a: real, b: real, m: real)
    requires a <= b && m >= 0.0
    ensures a * m <= b * m
  {
  }

  /** The percentile of sorted values. */
  function PercentileOf(v: seq<real>, quantile: real): real
    requires Accepted(v, quantile)
  {
    PositionsInOrder(|v|, quantile, quantile);
    Interpolate(v, Position(|v|, quantile))
  }

  /** The result does not depend on the order of the values: it is the percentile of any sorted arrangement. */
  method Percentile(values: seq<real>, quantile: real) returns (r: Option<real>)
    ensures r.Some? <==> Accepted(values, quantile)
    ensures r.Some? ==> forall v :: Sorted(v) && v != [] && multiset(v) == multiset(values) ==>
      r.value == PercentileOf(v, quantile)
  {
    if values == [] || quantile < 0.0 || quantile > 1.0 {
      return None;
    }
    var v := Sort(values);
    assert |v| == |multiset(v)| == |multiset(values)| == |values|;
    var value := AtQuantile(v, quantile);
    forall w | Sorted(w) && w != [] && multiset(w) == multiset(values) ensures value == PercentileOf(w, quantile) {
      SortedUnique(w, v);
    }
    r := Some(value);
  }

  method AtQuantile(v: seq<real>, quantile: real) returns (value: real)
    requires Accepted(v, quantile)
    ensures value == PercentileOf(v, quantile)
  {
    PositionsInOrder(|v|, quantile, quantile);
    value := AtPosition(v, Position(|v|, quantile));
  }

  method AtPosition(v: seq<real>, position: real) returns (value: real)
    requires 0.0 <= position <= (|v| - 1) as real
    ensures value == Interpolate(v, position)
  {
    FloorBounds(position, |v| - 1);
    var lower := position.Floor;
    var upper := if position == lower as real then lower else lower + 1;
    value := Blend(v[lower], v[upper], position - lower as real);
  }

  /** A mixture of two values lies between them. */
  lemma Mixture(a: real, b: real, f: real) returns (m: real)
    requires a <= b && 0.0 <= f <= 1.0
    ensures m == Blend(a, b, f) && a <= m <= b
  {
    m := Blend(a, b, f);
    MixtureMonotone(a, b, 0.0, f);
    MixtureMonotone(a, b, f, 1.0);
    assert Blend(a, b, 0.0) == a && Blend(a, b, 1.0) == b;
  }

  lemma MixtureMonotone(a: real, b: real, f: real, g: real)
    requires a <= b && f <= g
    ensures Blend(a, b, f) <= Blend(a, b, g)
  {
    AtMost(f, g, b - a);
    assert a * (1.0 - f) + b * f == a + f * (b - a);
    assert a * (1.0 - g) + b * g == a + g * (b - a);
  }

  lemma FloorBounds(position: real, n: nat)
    requires 0.0 <= position <= n as real
    ensures 0 <= position.Floor <= n && position.Floor as real <= position < position.Floor as real + 1.0
    ensures position != position.Floor as real ==> position.Floor < n
  {
  }

  /** An interpolated value lies between the neighbours it is interpolated from. */
  lemma BetweenNeighbours(v: seq<real>, position: real)
    requires Sorted(v) && v != [] && 0.0 <= position <= (|v| - 1) as real
    ensures 0 <= position.Floor < |v| && v[position.Floor] <= Interpolate(v, position)
    ensures position.Floor + 1 < |v| ==> Interpolate(v, position) <= v[position.Floor + 1]
    ensures position.Floor + 1 == |v| ==> Interpolate(v, position) == v[position.Floor]
  {
    FloorBounds(position, |v| - 1);
    var lower := position.Floor;
    var fraction := position - lower as real;
    if fraction != 0.0 {
      var _ := Mixture(v[lower], v[lower + 1], fraction);
    }
  }

  /** Percentiles lie between the extremes. */
  lemma PercentileBounded(v: seq<real>, position: real)
    requires Sorted(v) && v != [] && 0.0 <= position <= (|v| - 1) as real
    ensures v[0] <= Interpolate(v, position) <= v[|v| - 1]
  {
    BetweenNeighbours(v, position);
  }

  lemma PositionsMonotone(v: seq<real>, x: real, y: real)
    requires Sorted(v) && v != [] && 0.0 <= x <= y <= (|v| - 1) as real
    ensures Interpolate(v, x) <= Interpolate(v, y)
  {
    FloorBounds(x, |v| - 1);
    FloorBounds(y, |v| - 1);
    BetweenNeighbours(v, x);
    BetweenNeighbours(v, y);
    if x.Floor == y.Floor {
      var lower := x.Floor;
      if y != lower as real {
        SamePiece(v, lower, x, y);
      }
    } else {
      assert x.Floor + 1 <= y.Floor;
    }
  }

  lemma SamePiece(v: seq<real>, lower: nat, x: real, y: real)
    requires Sorted(v) && lower + 1 < |v| && 0.0 <= x <= y <= (|v| - 1) as real
    requires x.Floor == y.Floor == lower && y != lower as real
    ensures Interpolate(v, x) <= Interpolate(v, y)
  {
    var f, g := x - lower as real, y - lower as real;
    MixtureMonotone(v[lower], v[lower + 1], f, g);
  }

  /** A greater quantile gives a greater percentile, and all lie between the extremes. */
  lemma PercentileMonotone(v: seq<real>, p: real, q: real)
    requires Sorted(v) && v != [] && 0.0 <= p <= q <= 1.0
    ensures v[0] <= PercentileOf(v, p) <= PercentileOf(v, q) <= v[|v| - 1]
  {
    PositionsInOrder(|v|, p, q);
    var x, y := Position(|v|, p), Position(|v|, q);
    PercentileBounded(v, x);
    PercentileBounded(v, y);
    PositionsMonotone(v, x, y);
  }

  // ----- comparison ---------------------------------------------------------------------------------------------

  type Tensors = map<string, seq<real>>

  function Distance(x: real, y: real): real {
    if x < y then y - x else x - y
  }

  /** Greatest absolute difference and sum of squared differences of two lists of the same length. */
  datatype Measure = Measure(maximum: real, squared: real, count: nat)

  function Add(m: Measure, d: real): Measure {
    Measure(if d > m.maximum then d else m.maximum, m.squared + d * d, m.count + 1)
  }

  function Compared(m: Measure, a: seq<real>, b: seq<real>, n: nat): Measure
    requires n <= |a| && n <= |b|
  {
    if n == 0 then m else Add(Compared(m, a, b, n - 1), Distance(a[n - 1], b[n - 1]))
  }

  predicate SameShape(a: Tensors, b: Tensors, order: seq<string>) {
    forall k :: 0 <= k < |order| ==> order[k] in a && order[k] in b && |a[order[k]]| == |b[order[k]]|
  }

  function ComparedAll(a: Tensors, b: Tensors, order: seq<string>, n: nat): Measure
    requires n <= |order| && SameShape(a, b, order)
  {
    if n == 0 then Measure(0.0, 0.0, 0)
    else Compared(ComparedAll(a, b, order, n - 1), a[order[n - 1]], b[order[n - 1]], |a[order[n - 1]]|)
  }

  /** `order` lists the tensors of the baseline once each. */
  ghost predicate Lists(order: seq<string>, a: Tensors) {
    && (forall j, k :: 0 <= j < k < |order| ==> order[j] != order[k])
    && (forall name :: name in a <==> name in order)
  }

  /** Compares two files. It succeeds exactly when they hold the same names with the same lengths and there is
      something to compare. */
  method Compare(a: Tensors, b: Tensors, order: seq<string>) returns (ok: bool, m: Measure)
    requires Lists(order, a)
    ensures ok <==> a.Keys == b.Keys && SameShape(a, b, order) && ComparedAll(a, b, order, |order|).count > 0
    ensures ok ==> m == ComparedAll(a, b, order, |order|)
  {
    ok, m := true, Measure(0.0, 0.0, 0);
    if |a| != |b| {
      assert a.Keys != b.Keys;
      return false, m;
    }
    for k := 0 to |order|
      invariant SameShape(a, b, order[..k])
      invariant m == ComparedAll(a, b, order[..k], k)
    {
      var name := order[k];
      if name !in b || |a[name]| != |b[name]| {
        assert !SameShape(a, b, order);
        return false, m;
      }
      ghost var before := m;
      for i := 0 to |a[name]|
        invariant m == Compared(before, a[name], b[name], i)
      {
        m := Add(m, Distance(a[name][i], b[name][i]));
      }
      OneMore(a, b, order, k);
    }
    assert order[..|order|] == order;
    SameKeys(a, b, order);
    ok := m.count > 0;
  }

  lemma OneMore(a: Tensors, b: Tensors, order: seq<string>, k: nat)
    requires k < |order| && SameShape(a, b, order[..k]) && order[k] in a && order[k] in b && |a[order[k]]| == |b[order[k]]|
    ensures SameShape(a, b, order[..k + 1])
    ensures ComparedAll(a, b, order[..k + 1], k + 1)
      == Compared(ComparedAll(a, b, order[..k], k), a[order[k]], b[order[k]], |a[order[k]]|)
  {
    PrefixCompared(a, b, order[..k + 1], order[..k], k);
  }

  lemma {:induction false} PrefixCompared(a: Tensors, b: Tensors, x: seq<string>, y: seq<string>, n: nat)
    requires n <= |x| && n <= |y| && x[..n] == y[..n] && SameShape(a, b, x) && SameShape(a, b, y)
    ensures ComparedAll(a, b, x, n) == ComparedAll(a, b, y, n)
  {
    if n > 0 {
      assert x[n - 1] == x[..n][n - 1] == y[..n][n - 1] == y[n - 1];
      assert x[..n - 1] == x[..n][..n - 1] == y[..n - 1];
      PrefixCompared(a, b, x, y, n - 1);
    }
  }

  lemma SameKeys(a: Tensors, b: Tensors, order: seq<string>)
    requires Lists(order, a) && |a| == |b| && SameShape(a, b, order)
    ensures a.Keys == b.Keys
  {
    assert a.Keys <= b.Keys;
    assert |a.Keys| == |a| && |b.Keys| == |b|;
    SubsetOfSameSize(a.Keys, b.Keys);
  }

  lemma {:induction false} DistanceSymmetric(m: Measure, a: seq<real>, b: seq<real>, n: nat)
    requires n <= |a| && n <= |b|
    ensures Compared(m, a, b, n) == Compared(m, b, a, n)
  {
    if n > 0 {
      DistanceSymmetric(m, a, b, n - 1);
    }
  }

  /** Comparing the other way round gives the same maximum and the same mean square. */
  lemma {:induction false} ComparisonSymmetric(a: Tensors, b: Tensors, order: seq<string>, n: nat)
    requires n <= |order| && SameShape(a, b, order) && SameShape(b, a, order)
    ensures ComparedAll(a, b, order, n) == ComparedAll(b, a, order, n)
    decreases n
  {
    if n > 0 {
      ComparisonSymmetric(a, b, order, n - 1);
      DistanceSymmetric(ComparedAll(a, b, order, n - 1), a[order[n - 1]], b[order[n - 1]], |a[order[n - 1]]|);
    }
  }

  /** The mean square is at most the square of the maximum. */
  predicate MeanBelowMaximum(m: Measure) {
    m.maximum >= 0.0 && 0.0 <= m.squared <= m.count as real * (m.maximum * m.maximum)
  }

  lemma AddKeepsBound(m: Measure, d: real)
    requires MeanBelowMaximum(m) && d >= 0.0
    ensures MeanBelowMaximum(Add(m, d))
  {
    var next := Add(m, d);
    var before, after := m.maximum * m.maximum, next.maximum * next.maximum;
    Squares(m.maximum, next.maximum);
    Squares(d, next.maximum);
    Squares(0.0, d);
    var count := m.count as real;
    AtMost(before, after, count);
    assert next.count as real == count + 1.0;
    assert (count + 1.0) * after == count * after + after;
  }

  lemma Squares(x: real, y: real)
    requires 0.0 <= x <= y
    ensures 0.0 <= x * x <= y * y
  {
    AtMost(x, y, x);
    AtMost(x, y, y);
    AtMost(0.0, x, x);
  }

  lemma {:induction false} ComparedBound(m: Measure, a: seq<real>, b: seq<real>, n: nat)
    requires n <= |a| && n <= |b| && MeanBelowMaximum(m)
    ensures MeanBelowMaximum(Compared(m, a, b, n))
  {
    if n > 0 {
      ComparedBound(m, a, b, n - 1);
      AddKeepsBound(Compared(m, a, b, n - 1), Distance(a[n - 1], b[n - 1]));
    }
  }

  /** The root mean square of a comparison never exceeds its maximum. */
  lemma {:induction false} RootMeanSquareBelowMaximum(a: Tensors, b: Tensors, order: seq<string>, n: nat)
    requires n <= |order| && SameShape(a, b, order)
    ensures MeanBelowMaximum(ComparedAll(a, b, order, n))
    decreases n
  {
    if n > 0 {
      RootMeanSquareBelowMaximum(a, b, order, n - 1);
      ComparedBound(ComparedAll(a, b, order, n - 1), a[order[n - 1]], b[order[n - 1]], |a[order[n - 1]]|);
    }
  }
}
