/** The fused gather-and-scale kernel: every destination element finds its source tensor by a
    binary search over the descriptors. */
module GatherScale {
  import opened Vectors

  datatype Descriptor = Descriptor(source: Vector, begin: nat, end: nat)

  /** Descriptor `k` places gradient `k` directly behind the gradients before it. */
  predicate Describes(descriptors: seq<Descriptor>, g: Gradient) {
    && |descriptors| == |g|
    && forall k :: 0 <= k < |g| ==>
      && descriptors[k].source == g[k]
      && descriptors[k].begin == |Flatten(g[..k])|
      && descriptors[k].end == descriptors[k].begin + |g[k]|
  }

  lemma {:induction false} PrefixStep(g: Gradient, k: nat)
    requires k < |g|
    ensures Flatten(g[..k + 1]) == Flatten(g[..k]) + g[k]
  {
    assert g[..k + 1] == g[..k] + [g[k]];
    FlattenAppend(g[..k], [g[k]]);
    assert Flatten([g[k]]) == g[k] + Flatten([]) == g[k];
  }

  method BuildDescriptors(g: Gradient) returns (descriptors: seq<Descriptor>)
    ensures Describes(descriptors, g)
  {
    descriptors := [];
    var offset := 0;
    for k := 0 to |g|
      invariant offset == |Flatten(g[..k])|
      invariant Describes(descriptors, g[..k])
    {
      var begin := offset;
      offset := offset + |g[k]|;
      PrefixStep(g, k);
      ghost var before := descriptors;
      descriptors := descriptors + [Descriptor(g[k], begin, offset)];
      forall j | 0 <= j < k + 1
        ensures descriptors[j].source == g[..k + 1][j]
        ensures descriptors[j].begin == |Flatten(g[..k + 1][..j])|
        ensures descriptors[j].end == descriptors[j].begin + |g[..k + 1][j]|
      {
        assert g[..k + 1][..j] == g[..j];
        if j < k {
          assert g[..k][..j] == g[..j];
          assert descriptors[j] == before[j] && g[..k][j] == g[j];
        }
      }
    }
    assert g[..|g|] == g;
  }

  /** Element `index` of the concatenation lives in the gradient whose window contains it. */
  lemma FlattenAt(g: Gradient, k: nat, index: nat)
    requires k < |g|
    requires |Flatten(g[..k])| <= index < |Flatten(g[..k])| + |g[k]|
    ensures index < |Flatten(g)|
    ensures Flatten(g)[index] == g[k][index - |Flatten(g[..k])|]
  {
    PrefixStep(g, k);
    assert g == g[..k + 1] + g[k + 1..];
    FlattenAppend(g[..k + 1], g[k + 1..]);
  }

  /** One thread of the kernel. */
  method GatherElement(descriptors: seq<Descriptor>, index: nat, scale: real, ghost g: Gradient) returns (value: real)
    requires Describes(descriptors, g) && descriptors != []
    requires index < |Flatten(g)|
    ensures value == scale * Flatten(g)[index]
  {
    var first, count := 0, |descriptors|;
    assert Flatten(g[..0]) == [];
    while count > 1
      invariant 0 < count && first + count <= |descriptors|
      invariant descriptors[first].begin <= index
      invariant first + count < |descriptors| ==> index < descriptors[first + count].begin
    {
      var step := count / 2;
      var candidate := first + step;
      if index >= descriptors[candidate].begin {
        first := candidate;
        count := count - step;
      } else {
        count := step;
      }
    }
    PrefixStep(g, first);
    if first + 1 == |g| {
      assert g[..first + 1] == g;
    }
    FlattenAt(g, first, index);
    value := descriptors[first].source[index - descriptors[first].begin] * scale;
  }

  /** Every destination element is written once; together they are the scaled concatenation. */
  method Launch(descriptors: seq<Descriptor>, bucket: array<real>, scale: real, ghost g: Gradient)
    requires Describes(descriptors, g)
    requires bucket.Length == |Flatten(g)|
    modifies bucket
    ensures bucket[..] == Scale(scale, Flatten(g))
  {
    if |descriptors| == 0 || bucket.Length == 0 {
      assert bucket[..] == Scale(scale, Flatten(g));
      return;
    }
    for index := 0 to bucket.Length
      invariant forall i :: 0 <= i < index ==> bucket[i] == scale * Flatten(g)[i]
    {
      bucket[index] := GatherElement(descriptors, index, scale, g);
    }
    forall i | 0 <= i < bucket.Length ensures bucket[i] == Scale(scale, Flatten(g))[i] {
      ScaleAt(scale, Flatten(g), i);
    }
  }
}
