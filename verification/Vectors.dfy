/** Exact real vectors and the three tensor operations the ranked reducers are built from:
    scaling, concatenation of parameter gradients, and the averaging all-reduce. */
module Vectors {

  type Vector = seq<real>

  /** One gradient vector per parameter. */
  type Gradient = seq<Vector>

  function Scale(c: real, v: Vector): (r: Vector)
    ensures |r| == |v|
  {
    if v == [] then [] else [c * v[0]] + Scale(c, v[1..])
  }

  lemma {:induction false} ScaleAt(c: real, v: Vector, i: nat)
    requires i < |v|
    ensures Scale(c, v)[i] == c * v[i]
  {
    if i > 0 {
      ScaleAt(c, v[1..], i - 1);
    }
  }

  lemma {:induction false} ScaleOne(v: Vector)
    ensures Scale(1.0, v) == v
  {
    if v != [] {
      ScaleOne(v[1..]);
    }
  }

  function ScaleAll(c: real, g: Gradient): (r: Gradient)
    ensures |r| == |g|
    ensures forall i :: 0 <= i < |g| ==> r[i] == Scale(c, g[i])
  {
    seq(|g|, i requires 0 <= i < |g| => Scale(c, g[i]))
  }

  /** `g` holds one vector of the stated length per parameter. */
  predicate Shaped(counts: seq<nat>, g: Gradient) {
    |g| == |counts| && forall i :: 0 <= i < |counts| ==> |g[i]| == counts[i]
  }

  /** Concatenation: what packing a range of gradients into one buffer produces. */
  function Flatten(g: Gradient): Vector {
    if g == [] then [] else g[0] + Flatten(g[1..])
  }

  function Sum(counts: seq<nat>): nat {
    if counts == [] then 0 else counts[0] + Sum(counts[1..])
  }

  lemma {:induction false} FlattenLength(counts: seq<nat>, g: Gradient)
    requires Shaped(counts, g)
    ensures |Flatten(g)| == Sum(counts)
  {
    if g != [] {
      FlattenLength(counts[1..], g[1..]);
    }
  }

  lemma {:induction false} FlattenAppend(a: Gradient, b: Gradient)
    ensures Flatten(a + b) == Flatten(a) + Flatten(b)
  {
    if a == [] {
      assert a + b == b;
    } else {
      assert (a + b)[1..] == a[1..] + b;
      FlattenAppend(a[1..], b);
    }
  }

  /** Consecutive slices of the stated lengths: what the parameter views of a bucket are. */
  function Split(counts: seq<nat>, v: Vector): (g: Gradient)
    requires |v| == Sum(counts)
    ensures Shaped(counts, g)
  {
    if counts == [] then [] else [v[..counts[0]]] + Split(counts[1..], v[counts[0]..])
  }

  lemma {:induction false} SplitFlatten(counts: seq<nat>, g: Gradient)
    requires Shaped(counts, g)
    ensures |Flatten(g)| == Sum(counts)
    ensures Split(counts, Flatten(g)) == g
  {
    FlattenLength(counts, g);
    if g != [] {
      SplitFlatten(counts[1..], g[1..]);
      assert Flatten(g)[..counts[0]] == g[0];
      assert Flatten(g)[counts[0]..] == Flatten(g[1..]);
    }
  }

  lemma {:induction false} ScaleFlatten(c: real, g: Gradient)
    ensures Scale(c, Flatten(g)) == Flatten(ScaleAll(c, g))
  {
    if g != [] {
      ScaleFlatten(c, g[1..]);
      assert ScaleAll(c, g)[1..] == ScaleAll(c, g[1..]);
      ScaleAppend(c, g[0], Flatten(g[1..]));
    }
  }

  lemma ScaleAppend(c: real, v: Vector, w: Vector)
    ensures Scale(c, v + w) == Scale(c, v) + Scale(c, w)
  {
    var a, b := Scale(c, v + w), Scale(c, v) + Scale(c, w);
    forall i | 0 <= i < |a| ensures a[i] == b[i] {
      ScaleAt(c, v + w, i);
      if i < |v| {
        ScaleAt(c, v, i);
      } else {
        ScaleAt(c, w, i - |v|);
      }
    }
  }

  // ----- averaging all-reduce -----------------------------------------------------------

  /** Every rank contributes a vector of `n` elements. */
  predicate Uniform(vs: seq<Vector>, n: nat) {
    forall r :: 0 <= r < |vs| ==> |vs[r]| == n
  }

  function Column(vs: seq<Vector>, i: nat): real
    requires forall r :: 0 <= r < |vs| ==> i < |vs[r]|
  {
    if vs == [] then 0.0 else vs[0][i] + Column(vs[1..], i)
  }

  /** The element-wise sum over the ranks divided by the number of ranks. */
  function Average(vs: seq<Vector>): (a: Vector)
    requires |vs| > 0 && Uniform(vs, |vs[0]|)
    ensures |a| == |vs[0]|
    ensures forall i :: 0 <= i < |a| ==> a[i] == Column(vs, i) / |vs| as real
  {
    seq(|vs[0]|, i requires 0 <= i < |vs[0]| => Column(vs, i) / |vs| as real)
  }

  /** One gradient per rank, all of the same shape. */
  predicate SameShape(counts: seq<nat>, gs: seq<Gradient>) {
    forall r :: 0 <= r < |gs| ==> Shaped(counts, gs[r])
  }

  /** The contributions of all ranks to parameter `i`. */
  function Pick(gs: seq<Gradient>, i: nat): (vs: seq<Vector>)
    requires forall r :: 0 <= r < |gs| ==> i < |gs[r]|
    ensures |vs| == |gs|
    ensures forall r :: 0 <= r < |gs| ==> vs[r] == gs[r][i]
  {
    seq(|gs|, r requires 0 <= r < |gs| => gs[r][i])
  }

  /** Parameter by parameter average over the ranks: the meaning every reducer must deliver. */
  function AverageAll(counts: seq<nat>, gs: seq<Gradient>): (g: Gradient)
    requires |gs| > 0 && SameShape(counts, gs)
    ensures Shaped(counts, g)
    ensures forall i :: 0 <= i < |counts| ==> g[i] == Average(Pick(gs, i))
  {
    seq(|counts|, i requires 0 <= i < |counts| => Average(Pick(gs, i)))
  }

  function FlattenEach(gs: seq<Gradient>): (vs: seq<Vector>)
    ensures |vs| == |gs|
    ensures forall r :: 0 <= r < |gs| ==> vs[r] == Flatten(gs[r])
  {
    seq(|gs|, r requires 0 <= r < |gs| => Flatten(gs[r]))
  }

  /** The gradients restricted to the parameters `[first, end)`. */
  function Window(gs: seq<Gradient>, first: nat, end: nat): (ws: seq<Gradient>)
    requires forall r :: 0 <= r < |gs| ==> first <= end <= |gs[r]|
    ensures |ws| == |gs|
    ensures forall r :: 0 <= r < |gs| ==> ws[r] == gs[r][first..end]
  {
    seq(|gs|, r requires 0 <= r < |gs| => gs[r][first..end])
  }

  lemma {:induction false} ColumnShift(vs: seq<Vector>, ws: seq<Vector>, i: nat, j: nat)
    requires |vs| == |ws|
    requires forall r :: 0 <= r < |vs| ==> i < |vs[r]| && j < |ws[r]| && vs[r][i] == ws[r][j]
    ensures Column(vs, i) == Column(ws, j)
  {
    if vs != [] {
      ColumnShift(vs[1..], ws[1..], i, j);
    }
  }

  lemma FlattenEachUniform(counts: seq<nat>, gs: seq<Gradient>)
    requires SameShape(counts, gs)
    ensures Uniform(FlattenEach(gs), Sum(counts))
  {
    forall r | 0 <= r < |gs| ensures |FlattenEach(gs)[r]| == Sum(counts) {
      FlattenLength(counts, gs[r]);
    }
  }

  lemma AverageAllTail(counts: seq<nat>, gs: seq<Gradient>)
    requires |gs| > 0 && SameShape(counts, gs) && counts != []
    ensures SameShape(counts[1..], Window(gs, 1, |counts|))
    ensures AverageAll(counts, gs)[1..] == AverageAll(counts[1..], Window(gs, 1, |counts|))
  {
    var tails := Window(gs, 1, |counts|);
    forall i | 0 <= i < |counts| - 1
      ensures AverageAll(counts, gs)[1..][i] == AverageAll(counts[1..], tails)[i]
    {
      assert Pick(gs, i + 1) == Pick(tails, i);
    }
  }

  /** Component `i` of the averaged packed buffers, head parameter or the rest. */
  lemma AverageFlattenAt(counts: seq<nat>, gs: seq<Gradient>, i: nat)
    requires |gs| > 0 && SameShape(counts, gs) && counts != []
    requires Uniform(FlattenEach(gs), Sum(counts)) && i < Sum(counts)
    requires Uniform(FlattenEach(Window(gs, 1, |counts|)), Sum(counts[1..]))
    ensures Column(FlattenEach(gs), i)
      == if i < counts[0] then Column(Pick(gs, 0), i) else Column(FlattenEach(Window(gs, 1, |counts|)), i - counts[0])
  {
    var tails := Window(gs, 1, |counts|);
    if i < counts[0] {
      ColumnShift(FlattenEach(gs), Pick(gs, 0), i, i);
    } else {
      forall r | 0 <= r < |gs| ensures FlattenEach(gs)[r][i] == FlattenEach(tails)[r][i - counts[0]] {
        assert gs[r][1..] == tails[r];
      }
      ColumnShift(FlattenEach(gs), FlattenEach(tails), i, i - counts[0]);
    }
  }

  /** Averaging packed buffers is packing the averages. */
  lemma {:induction false} AverageFlatten(counts: seq<nat>, gs: seq<Gradient>)
    requires |gs| > 0 && SameShape(counts, gs)
    ensures Uniform(FlattenEach(gs), Sum(counts))
    ensures Average(FlattenEach(gs)) == Flatten(AverageAll(counts, gs))
  {
    FlattenEachUniform(counts, gs);
    FlattenLength(counts, AverageAll(counts, gs));
    var a, b := Average(FlattenEach(gs)), Flatten(AverageAll(counts, gs));
    if counts != [] {
      var tails := Window(gs, 1, |counts|);
      AverageAllTail(counts, gs);
      FlattenEachUniform(counts[1..], tails);
      AverageFlatten(counts[1..], tails);
      forall i | 0 <= i < |a| ensures a[i] == b[i] {
        AverageFlattenAt(counts, gs, i);
      }
    }
  }
}
