/** A causal layered network and its key/value cache: every layer sees the keys and values of the current
    and the earlier positions only, which is what makes them reusable. */
module Network {
  import opened Vectors

  /** One transformer block. The projections and the attention with its residuals and feed-forward part are
      uninterpreted; `attend` gets the hidden state and position of the current token and the keys and
      values of all positions up to it. */
  datatype Block = Block(
    key: (Vector, nat) -> Vector,
    value: (Vector, nat) -> Vector,
    attend: (Vector, nat, seq<Vector>, seq<Vector>) -> Vector)

  datatype Model = Model(
    vocabulary: nat, contextLimit: nat,
    embed: int -> Vector, blocks: seq<Block>, head: Vector -> Vector)
  {
    ghost predicate Valid() {
      vocabulary > 0 && forall h :: |head(h)| == vocabulary
    }
  }

  /** Hidden state of position `i` on entry to layer `l`. */
  function Hidden(net: Model, tokens: seq<int>, l: nat, i: nat): Vector
    requires l <= |net.blocks| && i < |tokens|
    decreases l, 0
  {
    if l == 0 then net.embed(tokens[i])
    else net.blocks[l - 1].attend(Hidden(net, tokens, l - 1, i), i,
                                  Keys(net, tokens, l - 1, i + 1), Values(net, tokens, l - 1, i + 1))
  }

  /** Keys of the first `n` positions in layer `l`. */
  function Keys(net: Model, tokens: seq<int>, l: nat, n: nat): (ks: seq<Vector>)
    requires l < |net.blocks| && n <= |tokens|
    ensures |ks| == n
    decreases l, 1
  {
    seq(n, k requires 0 <= k < n => net.blocks[l].key(Hidden(net, tokens, l, k), k))
  }

  function Values(net: Model, tokens: seq<int>, l: nat, n: nat): (vs: seq<Vector>)
    requires l < |net.blocks| && n <= |tokens|
    ensures |vs| == n
    decreases l, 1
  {
    seq(n, k requires 0 <= k < n => net.blocks[l].value(Hidden(net, tokens, l, k), k))
  }

  /** Logits for the token after `tokens`. */
  function Logits(net: Model, tokens: seq<int>): Vector
    requires tokens != []
  {
    net.head(Hidden(net, tokens, |net.blocks|, |tokens| - 1))
  }

  /** A position does not see what comes after it. */
  lemma {:induction false} Causal(net: Model, a: seq<int>, b: seq<int>, l: nat, i: nat)
    requires l <= |net.blocks| && i < |a| && i < |b| && a[..i + 1] == b[..i + 1]
    ensures Hidden(net, a, l, i) == Hidden(net, b, l, i)
    decreases l
  {
    assert a[i] == a[..i + 1][i] == b[..i + 1][i] == b[i];
    if l > 0 {
      var below := l - 1;
      forall k | 0 <= k < i + 1 ensures Hidden(net, a, below, k) == Hidden(net, b, below, k) {
        assert a[..k + 1] == a[..i + 1][..k + 1];
        assert b[..k + 1] == b[..i + 1][..k + 1];
        Causal(net, a, b, below, k);
      }
      assert Keys(net, a, below, i + 1) == Keys(net, b, below, i + 1);
      assert Values(net, a, below, i + 1) == Values(net, b, below, i + 1);
    }
  }

  // ----- the cache --------------------------------------------------------------------------------------

  /** The number type a cached layer is stored in. */
  datatype CacheType = Float32 | BFloat16
  {
    function Size(): nat { if Float32? then 4 else 2 }
  }

  datatype LayerState = LayerState(keys: seq<Vector>, values: seq<Vector>)

  /** The cached layer is what a full forward pass over `tokens` would compute for it. */
  predicate Caches(net: Model, tokens: seq<int>, l: nat, state: LayerState)
    requires l < |net.blocks|
  {
    state.keys == Keys(net, tokens, l, |tokens|) && state.values == Values(net, tokens, l, |tokens|)
  }

  predicate RowCaches(net: Model, tokens: seq<int>, row: seq<LayerState>) {
    |row| == |net.blocks| && forall l :: 0 <= l < |row| ==> Caches(net, tokens, l, row[l])
  }

  function EmptyRow(layers: nat): (row: seq<LayerState>)
    ensures |row| == layers && forall l :: 0 <= l < layers ==> row[l] == LayerState([], [])
  {
    seq(layers, _ => LayerState([], []))
  }

  lemma EmptyRowCaches(net: Model)
    ensures RowCaches(net, [], EmptyRow(|net.blocks|))
  {
  }

  lemma CachesExtend(net: Model, tokens: seq<int>, token: int, l: nat, state: LayerState)
    requires l < |net.blocks| && Caches(net, tokens, l, state)
    ensures var h := Hidden(net, tokens + [token], l, |tokens|);
      Caches(net, tokens + [token], l,
             LayerState(state.keys + [net.blocks[l].key(h, |tokens|)], state.values + [net.blocks[l].value(h, |tokens|)]))
  {
    var longer := tokens + [token];
    forall k | 0 <= k < |tokens| ensures Hidden(net, tokens, l, k) == Hidden(net, longer, l, k) {
      assert tokens[..k + 1] == longer[..k + 1];
      Causal(net, tokens, longer, l, k);
    }
  }

  /** One token through all layers of one row: stores its keys and values and attends to the cache. */
  method ForwardCachedRow(net: Model, row: seq<LayerState>, position: nat, token: int, ghost tokens: seq<int>)
    returns (next: seq<LayerState>, logits: Vector)
    requires RowCaches(net, tokens, row) && position == |tokens|
    ensures RowCaches(net, tokens + [token], next)
    ensures logits == Logits(net, tokens + [token])
  {
    ghost var longer := tokens + [token];
    var hidden := net.embed(token);
    next := [];
    for l := 0 to |net.blocks|
      invariant hidden == Hidden(net, longer, l, position)
      invariant |next| == l && forall k :: 0 <= k < l ==> Caches(net, longer, k, next[k])
    {
      var block := net.blocks[l];
      CachesExtend(net, tokens, token, l, row[l]);
      var state := LayerState(row[l].keys + [block.key(hidden, position)], row[l].values + [block.value(hidden, position)]);
      next := next + [state];
      hidden := block.attend(hidden, position, state.keys, state.values);
    }
    logits := net.head(hidden);
  }

  /** All positions through one layer. */
  method ForwardLayer(net: Model, tokens: seq<int>, l: nat, hidden: seq<Vector>) returns (state: LayerState,
                      next: seq<Vector>)
    requires l < |net.blocks| && |hidden| == |tokens|
    requires forall i :: 0 <= i < |tokens| ==> hidden[i] == Hidden(net, tokens, l, i)
    ensures Caches(net, tokens, l, state)
    ensures |next| == |tokens| && forall i :: 0 <= i < |tokens| ==> next[i] == Hidden(net, tokens, l + 1, i)
  {
    var block := net.blocks[l];
    var keys, values := [], [];
    for i := 0 to |tokens|
      invariant keys == Keys(net, tokens, l, i) && values == Values(net, tokens, l, i)
    {
      keys := keys + [block.key(hidden[i], i)];
      values := values + [block.value(hidden[i], i)];
    }
    state := LayerState(keys, values);
    next := [];
    for i := 0 to |tokens|
      invariant |next| == i && forall k :: 0 <= k < i ==> next[k] == Hidden(net, tokens, l + 1, k)
    {
      assert keys[..i + 1] == Keys(net, tokens, l, i + 1);
      assert values[..i + 1] == Values(net, tokens, l, i + 1);
      next := next + [block.attend(hidden[i], i, keys[..i + 1], values[..i + 1])];
    }
  }

  /** The whole sequence through all layers: what prefill stores and what an uncached step recomputes. */
  method ForwardFull(net: Model, tokens: seq<int>) returns (row: seq<LayerState>, logits: Vector)
    requires tokens != []
    ensures RowCaches(net, tokens, row)
    ensures logits == Logits(net, tokens)
  {
    var hidden := [];
    for i := 0 to |tokens|
      invariant |hidden| == i && forall k :: 0 <= k < i ==> hidden[k] == Hidden(net, tokens, 0, k)
    {
      hidden := hidden + [net.embed(tokens[i])];
    }
    row := [];
    for l := 0 to |net.blocks|
      invariant |hidden| == |tokens| && forall i :: 0 <= i < |tokens| ==> hidden[i] == Hidden(net, tokens, l, i)
      invariant |row| == l && forall k :: 0 <= k < l ==> Caches(net, tokens, k, row[k])
    {
      var state;
      state, hidden := ForwardLayer(net, tokens, l, hidden);
      row := row + [state];
    }
    logits := net.head(hidden[|tokens| - 1]);
  }

  // ----- choosing a token ---------------------------------------------------------------------------------

  /** The first maximum, as a device argmax and a host search both pick it. */
  function Argmax(logits: Vector): (k: nat)
    requires logits != []
    ensures k < |logits|
    ensures forall j :: 0 <= j < |logits| ==> logits[j] <= logits[k]
    ensures forall j :: 0 <= j < k ==> logits[j] < logits[k]
  {
    if |logits| == 1 then 0
    else
      var k := Argmax(logits[..|logits| - 1]);
      if logits[|logits| - 1] > logits[k] then |logits| - 1 else k
  }

  method FirstMaximum(logits: Vector) returns (k: nat)
    requires logits != []
    ensures k == Argmax(logits)
  {
    k := 0;
    for i := 1 to |logits|
      invariant k == Argmax(logits[..i])
    {
      assert logits[..i + 1][..i] == logits[..i];
      if logits[i] > logits[k] {
        k := i;
      }
    }
    assert logits[..|logits|] == logits;
  }
}
