/** Greedy decoding with and without a key/value cache. */
module Decoding {
  import opened Basics
  import opened Vectors
  import opened Network

  /** The tokens greedy decoding appends to `prompt`. */
  function Generate(net: Model, prompt: seq<int>, n: nat): (suffix: seq<int>)
    requires net.Valid() && prompt != []
    ensures |suffix| == n
  {
    if n == 0 then []
    else
      var before := Generate(net, prompt, n - 1);
      before + [Argmax(Logits(net, prompt + before))]
  }

  lemma {:induction false} GeneratePrefix(net: Model, prompt: seq<int>, k: nat, n: nat)
    requires net.Valid() && prompt != [] && k <= n
    ensures Generate(net, prompt, n)[..k] == Generate(net, prompt, k)
    decreases n
  {
    if k < n {
      GeneratePrefix(net, prompt, k, n - 1);
      assert Generate(net, prompt, n)[..k] == Generate(net, prompt, n - 1)[..k];
    }
  }

  // ----- the batched cache ----------------------------------------------------------------------------------

  class KVCache {
    const capacity: nat
    const batch: nat
    const types: seq<CacheType>
    var rows: seq<seq<LayerState>>
    var position: nat
    /** The tokens each row has seen. */
    ghost var seen: seq<seq<int>>

    ghost predicate Valid(net: Model)
      reads this
    {
      && |rows| == |seen| == batch
      && position <= capacity
      && forall r :: 0 <= r < batch ==> |seen[r]| == position && RowCaches(net, seen[r], rows[r])
    }

    constructor (net: Model, types: seq<CacheType>, capacity: nat, batch: nat)
      ensures Valid(net) && position == 0
      ensures this.types == types && this.capacity == capacity && this.batch == batch
    {
      this.types, this.capacity, this.batch := types, capacity, batch;
      rows := seq(batch, _ => EmptyRow(|net.blocks|));
      position := 0;
      seen := seq(batch, _ => []);
      EmptyRowCaches(net);
    }

    /** One token per row. Fails when the cache is full or larger than the model context. */
    method ForwardCached(net: Model, tokens: seq<int>) returns (ok: bool, logits: seq<Vector>)
      requires Valid(net) && |tokens| == batch
      modifies this
      ensures Valid(net)
      ensures ok == (old(position) < capacity <= net.contextLimit)
      ensures ok ==> position == old(position) + 1 && |logits| == batch
      ensures ok ==> forall r :: 0 <= r < batch ==>
        seen[r] == old(seen[r]) + [tokens[r]] && logits[r] == Logits(net, seen[r])
      ensures !ok ==> position == old(position) && seen == old(seen)
    {
      logits := [];
      if capacity > net.contextLimit || position >= capacity {
        return false, logits;
      }
      var next: seq<seq<LayerState>> := [];
      ghost var longer: seq<seq<int>> := [];
      for r := 0 to batch
        invariant rows == old(rows) && seen == old(seen) && position == old(position)
        invariant |next| == |longer| == |logits| == r
        invariant forall k :: 0 <= k < r ==>
          longer[k] == seen[k] + [tokens[k]] && RowCaches(net, longer[k], next[k]) && logits[k] == Logits(net, longer[k])
      {
        var row, l := ForwardCachedRow(net, rows[r], position, tokens[r], seen[r]);
        next, longer, logits := next + [row], longer + [seen[r] + [tokens[r]]], logits + [l];
      }
      rows, seen, position := next, longer, position + 1;
      ok := true;
    }

    /** A whole prompt per row into an empty cache. */
    method PrefillCached(net: Model, prompts: seq<seq<int>>, length: nat) returns (ok: bool, logits: seq<Vector>)
      requires Valid(net) && |prompts| == batch
      requires forall r :: 0 <= r < batch ==> |prompts[r]| == length
      modifies this
      ensures Valid(net)
      ensures ok == (0 < length <= capacity <= net.contextLimit && old(position) == 0)
      ensures ok ==> position == length && |logits| == batch && seen == prompts
      ensures ok ==> forall r :: 0 <= r < batch ==> logits[r] == Logits(net, prompts[r])
      ensures !ok ==> position == old(position) && seen == old(seen) && logits == []
    {
      logits := [];
      if length == 0 || position != 0 || length > capacity || capacity > net.contextLimit {
        return false, logits;
      }
      var next: seq<seq<LayerState>> := [];
      for r := 0 to batch
        invariant |next| == |logits| == r
        invariant forall k :: 0 <= k < r ==> RowCaches(net, prompts[k], next[k]) && logits[k] == Logits(net, prompts[k])
      {
        var row, l := ForwardFull(net, prompts[r]);
        next, logits := next + [row], logits + [l];
      }
      rows, seen, position := next, prompts, length;
      ok := true;
    }
  }

  predicate AllAre<T(==)>(xs: seq<T>, x: T) {
    forall k :: 0 <= k < |xs| ==> xs[k] == x
  }

  function Repeat<T(==)>(n: nat, x: T): (xs: seq<T>)
    ensures |xs| == n && AllAre(xs, x)
  {
    seq(n, _ => x)
  }

  /** A decoding state: every row of the cache has seen `tokens`, and the logits continue them. */
  ghost predicate Prepared(net: Model, cache: KVCache, tokens: seq<int>, logits: seq<Vector>)
    reads cache
  {
    && net.Valid() && cache.Valid(net) && cache.batch > 0
    && tokens != [] && cache.position == |tokens|
    && |logits| == cache.batch
    && AllAre(cache.seen, tokens) && AllAre(logits, Logits(net, tokens))
  }

  /** Fills a new cache with the prompt, at once or token by token; both leave the same state. */
  method PrepareCached(net: Model, prompt: seq<int>, types: seq<CacheType>, capacity: nat, batch: nat, full: bool)
    returns (ok: bool, cache: KVCache, logits: seq<Vector>)
    requires net.Valid() && batch > 0
    ensures fresh(cache) && cache.capacity == capacity && cache.batch == batch && cache.types == types
    ensures prompt != [] ==> ok == (|prompt| <= capacity <= net.contextLimit)
    ensures prompt == [] ==> ok == !full && logits == []
    ensures ok && prompt != [] ==> Prepared(net, cache, prompt, logits)
  {
    cache := new KVCache(net, types, capacity, batch);
    logits := [];
    if full {
      ok, logits := cache.PrefillCached(net, Repeat(batch, prompt), |prompt|);
    } else {
      ok := true;
      var k := 0;
      while k < |prompt| && ok
        invariant k <= |prompt| && cache.Valid(net)
        invariant ok ==> cache.position == k && AllAre(cache.seen, prompt[..k])
        invariant ok && k > 0 ==> |logits| == batch && AllAre(logits, Logits(net, prompt[..k]))
        invariant ok ==> k <= capacity && (k > 0 ==> capacity <= net.contextLimit)
        invariant !ok ==> !(|prompt| <= capacity <= net.contextLimit)
        invariant k == 0 ==> ok && logits == []
      {
        assert prompt[..k + 1] == prompt[..k] + [prompt[k]];
        ok, logits := cache.ForwardCached(net, Repeat(batch, prompt[k]));
        k := k + 1;
      }
      assert prompt[..|prompt|] == prompt;
    }
  }

  // ----- decoding -----------------------------------------------------------------------------------------

  /** How the driver continues a prepared state: by its own choices, by its own choices but recording only
      what follows the first one, or by given inputs. */
  datatype Mode = Generation | Steady | Forced(inputs: seq<int>)

  /** Tokens fed to the network in the first `k` calls. */
  function Fed(net: Model, prompt: seq<int>, mode: Mode, k: nat): (fed: seq<int>)
    requires net.Valid() && prompt != [] && (mode.Forced? ==> k <= |mode.inputs|)
    ensures |fed| == k
  {
    if mode.Forced? then mode.inputs[..k] else Generate(net, prompt, k)
  }

  /** The token recorded in iteration `g`. */
  function Recorded(net: Model, prompt: seq<int>, mode: Mode, g: nat): int
    requires net.Valid() && prompt != [] && (mode.Forced? ==> g < |mode.inputs|)
  {
    Argmax(Logits(net, prompt + Fed(net, prompt, mode, if mode.Generation? then g else g + 1)))
  }

  function Suffix(net: Model, prompt: seq<int>, mode: Mode, n: nat): (suffix: seq<int>)
    requires net.Valid() && prompt != [] && (mode.Forced? ==> |mode.inputs| == n)
    ensures |suffix| == n
    ensures forall g :: 0 <= g < n ==> suffix[g] == Recorded(net, prompt, mode, g)
  {
    seq(n, g requires 0 <= g < n => Recorded(net, prompt, mode, g))
  }

  lemma GenerateAt(net: Model, prompt: seq<int>, g: nat, n: nat)
    requires net.Valid() && prompt != [] && g < n
    ensures Generate(net, prompt, n)[g] == Argmax(Logits(net, prompt + Generate(net, prompt, g)))
  {
    GeneratePrefix(net, prompt, g + 1, n);
    assert Generate(net, prompt, n)[g] == Generate(net, prompt, n)[..g + 1][g];
  }

  /** Generation records the greedy continuation; steady mode records one more token and drops the first. */
  lemma SuffixIsGreedy(net: Model, prompt: seq<int>, n: nat)
    requires net.Valid() && prompt != []
    ensures Suffix(net, prompt, Generation, n) == Generate(net, prompt, n)
    ensures Suffix(net, prompt, Steady, n) == Generate(net, prompt, n + 1)[1..]
  {
    var greedy, steady := Generate(net, prompt, n), Generate(net, prompt, n + 1)[1..];
    forall g | 0 <= g < n ensures greedy[g] == Recorded(net, prompt, Generation, g) {
      GenerateAt(net, prompt, g, n);
    }
    forall g | 0 <= g < n ensures steady[g] == Recorded(net, prompt, Steady, g) {
      GenerateAt(net, prompt, g + 1, n + 1);
    }
  }

  /** Forcing the tokens that generation chooses reproduces steady mode. */
  lemma ForcedByOwnChoices(net: Model, prompt: seq<int>, n: nat)
    requires net.Valid() && prompt != []
    ensures Suffix(net, prompt, Forced(Generate(net, prompt, n)), n) == Suffix(net, prompt, Steady, n)
  {
    forall g | 0 <= g < n
      ensures Suffix(net, prompt, Forced(Generate(net, prompt, n)), n)[g] == Suffix(net, prompt, Steady, n)[g]
    {
      GeneratePrefix(net, prompt, g + 1, n);
    }
  }

  /** Calls of the cached forward pass after preparation. */
  function Calls(mode: Mode, n: nat): nat {
    if mode.Generation? then (if n == 0 then 0 else n - 1) else n
  }

  method SelectAll(net: Model, logits: seq<Vector>) returns (tokens: seq<int>)
    requires forall r :: 0 <= r < |logits| ==> logits[r] != []
    ensures |tokens| == |logits| && forall r :: 0 <= r < |logits| ==> tokens[r] == Argmax(logits[r])
  {
    tokens := [];
    for r := 0 to |logits|
      invariant |tokens| == r && forall k :: 0 <= k < r ==> tokens[k] == Argmax(logits[k])
    {
      var token := FirstMaximum(logits[r]);
      tokens := tokens + [token];
    }
  }

  /** Feeds one token to every row of a prepared state. */
  method Feed(net: Model, cache: KVCache, tokens: seq<int>, ghost before: seq<int>, ghost token: int, previous: seq<Vector>)
    returns (ok: bool, logits: seq<Vector>)
    requires Prepared(net, cache, before, previous)
    requires |tokens| == cache.batch && AllAre(tokens, token)
    modifies cache
    ensures ok == (|before| < cache.capacity <= net.contextLimit)
    ensures cache.Valid(net) && (ok ==> Prepared(net, cache, before + [token], logits))
  {
    ok, logits := cache.ForwardCached(net, tokens);
  }

  /** Every row recorded the tokens of the mode. */
  ghost predicate Recording(net: Model, prompt: seq<int>, mode: Mode, batch: nat, history: seq<seq<int>>) {
    && net.Valid() && prompt != [] && (mode.Forced? ==> |history| <= |mode.inputs|)
    && forall k :: 0 <= k < |history| ==> |history[k]| == batch && AllAre(history[k], Recorded(net, prompt, mode, k))
  }

  lemma RecordingGrows(net: Model, prompt: seq<int>, mode: Mode, batch: nat, history: seq<seq<int>>, next: seq<int>)
    requires Recording(net, prompt, mode, batch, history) && (mode.Forced? ==> |history| < |mode.inputs|)
    requires |next| == batch && AllAre(next, Recorded(net, prompt, mode, |history|))
    ensures Recording(net, prompt, mode, batch, history + [next])
  {
  }

  /** The check that identical rows stayed identical, which passes, and the extraction of row 0. */
  method Extract(net: Model, history: seq<seq<int>>, batch: nat, mode: Mode,
                 ghost prompt: seq<int>) returns (ok: bool, suffix: seq<int>)
    requires batch > 0 && Recording(net, prompt, mode, batch, history)
    requires mode.Forced? ==> |mode.inputs| == |history|
    ensures ok && suffix == Suffix(net, prompt, mode, |history|)
  {
    ok, suffix := true, [];
    for g := 0 to |history|
      invariant ok && |suffix| == g && forall k :: 0 <= k < g ==> suffix[k] == Recorded(net, prompt, mode, k)
    {
      var next := history[g][0];
      if next < 0 || (!mode.Forced? && exists r :: 0 <= r < batch && history[g][r] != next) {
        return false, suffix;
      }
      suffix := suffix + [next];
    }
  }

  /** Iterations completed by the forward calls of the loop head. */
  function CalledAt(mode: Mode, g: nat, n: nat): nat {
    if mode.Generation? && g == n && n > 0 then n - 1 else g
  }

  /** The loop head before iteration `g`: the cache holds the prompt and everything fed so far, and in steady
      mode the next input is already chosen. */
  ghost predicate AtIteration(net: Model, cache: KVCache, prompt: seq<int>, mode: Mode, g: nat, n: nat,
                              logits: seq<Vector>, next: seq<int>)
    requires net.Valid() && prompt != [] && g <= n && (mode.Forced? ==> |mode.inputs| == n)
    reads cache
  {
    && Prepared(net, cache, prompt + Fed(net, prompt, mode, CalledAt(mode, g, n)), logits)
    && (mode.Steady? ==> |next| == cache.batch && AllAre(next, Recorded(net, prompt, Generation, g)))
  }

  lemma FedGrows(net: Model, prompt: seq<int>, mode: Mode, g: nat)
    requires net.Valid() && prompt != [] && (mode.Forced? ==> g < |mode.inputs|)
    ensures prompt + Fed(net, prompt, mode, g)
        + [if mode.Forced? then mode.inputs[g] else Recorded(net, prompt, Generation, g)]
      == prompt + Fed(net, prompt, mode, g + 1)
  {
  }

  method Iterate(net: Model, cache: KVCache, before: seq<Vector>, chosen: seq<int>, g: nat, n: nat, mode: Mode,
                 ghost prompt: seq<int>)
    returns (ok: bool, logits: seq<Vector>, next: seq<int>, calls: nat)
    requires net.Valid() && prompt != [] && g < n && (mode.Forced? ==> |mode.inputs| == n)
    requires AtIteration(net, cache, prompt, mode, g, n, before, chosen) == true
    modifies cache
    ensures calls == CalledAt(mode, g + 1, n) - CalledAt(mode, g, n) || !ok
    ensures ok == (CalledAt(mode, g + 1, n) == g || |prompt| + g < cache.capacity <= net.contextLimit)
    ensures ok ==> AtIteration(net, cache, prompt, mode, g + 1, n, logits, next) == true
    ensures ok ==> |next| == cache.batch && AllAre(next, Recorded(net, prompt, mode, g))
  {
    ok, logits, next, calls := true, before, chosen, 0;
    FedGrows(net, prompt, mode, g);
    ghost var fed := prompt + Fed(net, prompt, mode, g);
    if !mode.Generation? {
      if mode.Forced? {
        next := Repeat(cache.batch, mode.inputs[g]);
      }
      ok, logits := Feed(net, cache, next, fed, next[0], logits);
      if !ok {
        return;
      }
      calls := 1;
    }
    next := SelectAll(net, logits);
    if mode.Generation? && g + 1 < n {
      ok, logits := Feed(net, cache, next, fed, next[0], logits);
      calls := 1;
    }
  }

  /** Decodes `n` tokens. It succeeds exactly when the cache has room for the calls it makes; it records the
      suffix of the mode, and the rows never diverge. */
  method DecodeCached(net: Model, cache: KVCache, prepared: seq<Vector>, n: nat, mode: Mode, ghost prompt: seq<int>)
    returns (ok: bool, suffix: seq<int>, calls: nat)
    requires Prepared(net, cache, prompt, prepared)
    requires mode.Forced? ==> |mode.inputs| == n
    modifies cache
    ensures ok == (Calls(mode, n) == 0 || |prompt| + Calls(mode, n) <= cache.capacity <= net.contextLimit)
    ensures ok ==> suffix == Suffix(net, prompt, mode, n) && calls == Calls(mode, n)
    ensures ok ==> cache.Valid(net) && cache.position == |prompt| + Calls(mode, n)
  {
    var next := [];
    assert prompt + Fed(net, prompt, mode, 0) == prompt;
    if mode.Steady? {
      next := SelectAll(net, prepared);
    }
    var history;
    ok, history, calls := DecodeTokens(net, cache, prepared, next, n, mode, prompt);
    suffix := [];
    if ok {
      ok, suffix := Extract(net, history, cache.batch, mode, prompt);
    }
  }

  method DecodeTokens(net: Model, cache: KVCache, prepared: seq<Vector>, chosen: seq<int>, n: nat, mode: Mode,
                      ghost prompt: seq<int>)
    returns (ok: bool, history: seq<seq<int>>, calls: nat)
    requires net.Valid() && prompt != [] && (mode.Forced? ==> |mode.inputs| == n)
    requires AtIteration(net, cache, prompt, mode, 0, n, prepared, chosen) == true
    modifies cache
    ensures ok == (Calls(mode, n) == 0 || |prompt| + Calls(mode, n) <= cache.capacity <= net.contextLimit)
    ensures ok ==> |history| == n && Recording(net, prompt, mode, cache.batch, history) && calls == Calls(mode, n)
    ensures ok ==> cache.Valid(net) && cache.batch > 0 && cache.position == |prompt| + Calls(mode, n)
  {
    var logits, next := prepared, chosen;
    ok, history, calls := true, [], 0;
    for g := 0 to n
      invariant ok && calls == CalledAt(mode, g, n)
      invariant AtIteration(net, cache, prompt, mode, g, n, logits, next) == true
      invariant calls > 0 ==> |prompt| + calls <= cache.capacity <= net.contextLimit
      invariant |history| == g && Recording(net, prompt, mode, cache.batch, history) == true
    {
      var called;
      ok, logits, next, called := Iterate(net, cache, logits, next, g, n, mode, prompt);
      if !ok {
        return;
      }
      calls := calls + called;
      RecordingGrows(net, prompt, mode, cache.batch, history, next);
      history := history + [next];
    }
  }

  // ----- without a cache ------------------------------------------------------------------------------------

  /** One step: every row is recomputed from its whole sequence, which must fit the context of the model. */
  method UncachedStep(net: Model, sequences: seq<seq<int>>) returns (ok: bool, grown: seq<seq<int>>, selected: seq<int>)
    requires net.Valid() && sequences != [] && forall r :: 0 <= r < |sequences| ==> sequences[r] != []
    ensures ok == (|sequences[0]| <= net.contextLimit)
    ensures ok ==> |grown| == |selected| == |sequences|
    ensures ok ==> forall r :: 0 <= r < |sequences| ==>
      selected[r] == Argmax(Logits(net, sequences[r])) && grown[r] == sequences[r] + [selected[r]]
  {
    ok, grown, selected := true, [], [];
    if |sequences[0]| > net.contextLimit {
      return false, grown, selected;
    }
    for r := 0 to |sequences|
      invariant |grown| == |selected| == r
      invariant forall k :: 0 <= k < r ==>
        selected[k] == Argmax(Logits(net, sequences[k])) && grown[k] == sequences[k] + [selected[k]]
    {
      var _, logits := ForwardFull(net, sequences[r]);
      var token := FirstMaximum(logits);
      grown, selected := grown + [sequences[r] + [token]], selected + [token];
    }
  }

  /** Identical rows stay identical and grow by the greedy continuation, as far as the context reaches. */
  method DecodeUncached(net: Model, sequences: seq<seq<int>>, n: nat, ghost prompt: seq<int>)
    returns (ok: bool, grown: seq<seq<int>>, suffix: seq<int>, calls: nat)
    requires net.Valid() && prompt != [] && sequences != [] && AllAre(sequences, prompt)
    ensures ok == (n == 0 || |prompt| + n - 1 <= net.contextLimit)
    ensures ok ==> suffix == Generate(net, prompt, n) && calls == n
    ensures ok ==> |grown| == |sequences| && AllAre(grown, prompt + suffix)
  {
    ok, grown, suffix, calls := true, sequences, [], 0;
    assert prompt + suffix == prompt;
    for g := 0 to n
      invariant ok && (g == 0 || |prompt| + g - 1 <= net.contextLimit)
      invariant calls == g
      invariant suffix == Generate(net, prompt, g)
      invariant |grown| == |sequences| && AllAre(grown, prompt + suffix)
    {
      var selected;
      assert |grown[0]| == |prompt| + g;
      ok, grown, selected := UncachedStep(net, grown);
      if !ok {
        return;
      }
      calls := calls + 1;
      Associative(prompt, suffix, [selected[0]]);
      suffix := suffix + [selected[0]];
    }
    ok := forall r :: 0 < r < |grown| ==> grown[r] == grown[0];
  }

  lemma {:induction false} GenerateAppend(net: Model, prompt: seq<int>, k: nat, n: nat)
    requires net.Valid() && prompt != []
    ensures Generate(net, prompt, k + n) == Generate(net, prompt, k) + Generate(net, prompt + Generate(net, prompt, k), n)
    decreases n
  {
    if n > 0 {
      GenerateAppend(net, prompt, k, n - 1);
      var first := Generate(net, prompt, k);
      var more := Generate(net, prompt + first, n - 1);
      Associative(prompt, first, more);
      Associative(first, more, [Argmax(Logits(net, prompt + first + more))]);
    }
  }

  /** Steady mode is generation after one unrecorded token. */
  lemma SteadyIsNext(net: Model, prompt: seq<int>, n: nat)
    requires net.Valid() && prompt != []
    ensures Suffix(net, prompt, Steady, n) == Generate(net, prompt + [Argmax(Logits(net, prompt))], n)
  {
    SuffixIsGreedy(net, prompt, n);
    GenerateAppend(net, prompt, 1, n);
    var first := Argmax(Logits(net, prompt));
    assert prompt + Generate(net, prompt, 0) == prompt;
    assert Generate(net, prompt, 1) == Generate(net, prompt, 0) + [first] == [first];
    assert ([first] + Generate(net, prompt + [first], n))[1..] == Generate(net, prompt + [first], n);
  }

  /** The uncached driver: steady mode takes one unrecorded step first, which is not part of the timed calls. */
  method GenerateUncached(net: Model, prompt: seq<int>, batch: nat, n: nat, steady: bool)
    returns (ok: bool, suffix: seq<int>, calls: nat)
    requires net.Valid() && prompt != [] && batch > 0 && n > 0
    ensures ok == (|prompt| + Calls(if steady then Steady else Generation, n) <= net.contextLimit)
    ensures ok ==> suffix == Suffix(net, prompt, if steady then Steady else Generation, n) && calls == n
  {
    var sequences := Repeat(batch, prompt);
    ghost var known := prompt;
    suffix, calls := [], 0;
    if steady {
      SteadyIsNext(net, prompt, n);
      var selected;
      ok, sequences, selected := UncachedStep(net, sequences);
      if !ok {
        return;
      }
      known := prompt + [Argmax(Logits(net, prompt))];
    } else {
      SuffixIsGreedy(net, prompt, n);
    }
    ok, sequences, suffix, calls := DecodeUncached(net, sequences, n, known);
  }

  /** The cached driver for one run: prepares, then decodes. It agrees with the uncached driver token by
      token, for either kind of prefill, and fails exactly when the cache is too small. */
  method GenerateCached(net: Model, prompt: seq<int>, types: seq<CacheType>, capacity: nat, batch: nat, full: bool,
                        n: nat, mode: Mode)
    returns (ok: bool, suffix: seq<int>, cache: KVCache, calls: nat)
    requires net.Valid() && batch > 0 && prompt != [] && (mode.Forced? ==> |mode.inputs| == n)
    ensures fresh(cache) && cache.capacity == capacity && cache.batch == batch && cache.types == types
    ensures ok == (|prompt| + Calls(mode, n) <= capacity <= net.contextLimit)
    ensures ok ==> suffix == Suffix(net, prompt, mode, n) && calls == Calls(mode, n)
    ensures ok ==> cache.Valid(net) && cache.position == |prompt| + calls
  {
    var logits;
    suffix, calls := [], 0;
    ok, cache, logits := PrepareCached(net, prompt, types, capacity, batch, full);
    if ok {
      ok, suffix, calls := DecodeCached(net, cache, logits, n, mode, prompt);
    }
  }

  /** Runs both drivers, the cached one with the capacity the program chooses, prompt plus new tokens. Where the
      cached driver succeeds the other does too, with the same tokens; the uncached one alone succeeds exactly in
      generation mode when the last token would just fill the context. */
  method CompareDrivers(net: Model, prompt: seq<int>, types: seq<CacheType>, batch: nat, full: bool, n: nat, steady: bool)
    returns (cached: bool, one: seq<int>, uncached: bool, two: seq<int>)
    requires net.Valid() && prompt != [] && batch > 0 && n > 0
    ensures cached ==> uncached && one == two
    ensures uncached && !cached <==> !steady && |prompt| + n == net.contextLimit + 1
  {
    var mode := if steady then Steady else Generation;
    var cache, calls, recomputed;
    cached, one, cache, calls := GenerateCached(net, prompt, types, |prompt| + n, batch, full, n, mode);
    uncached, two, recomputed := GenerateUncached(net, prompt, batch, n, steady);
  }

  // ----- repeated measurement ---------------------------------------------------------------------------------

  /** The number of row forward passes the driver reports for its timed phase. */
  function MeasuredForwardSteps(steady: bool, cached: bool, suffix: nat, steps: nat, batch: nat): nat {
    if steady || !cached then suffix * steps * batch
    else (if suffix == 0 then 0 else suffix - 1) * steps * batch
  }

  lemma OneMoreStep(calls: nat, steps: nat, batch: nat)
    ensures calls * steps * batch + calls * batch == calls * (steps + 1) * batch
  {
    assert calls * (steps + 1) == calls * steps + calls;
    Distribute(calls * steps, calls, batch);
  }

  lemma Distribute(a: nat, b: nat, c: nat)
    ensures a * c + b * c == (a + b) * c
  {
  }

  /** Repeats the cached run `steps` times: the results never change, and the forward passes made are the
      reported ones. */
  method MeasureCached(net: Model, prompt: seq<int>, types: seq<CacheType>, capacity: nat, batch: nat, full: bool,
                       n: nat, mode: Mode, steps: nat)
    returns (ok: bool, suffix: seq<int>, rowForwards: nat)
    requires net.Valid() && batch > 0 && prompt != [] && n > 0 && (mode.Forced? ==> |mode.inputs| == n)
    requires |prompt| + n <= capacity <= net.contextLimit
    ensures ok
    ensures steps > 0 ==> suffix == Suffix(net, prompt, mode, n)
    ensures rowForwards == MeasuredForwardSteps(!mode.Generation?, true, n, steps, batch)
  {
    ok, suffix, rowForwards := true, [], 0;
    for iteration := 0 to steps
      invariant ok
      invariant iteration > 0 ==> suffix == Suffix(net, prompt, mode, n)
      invariant rowForwards == Calls(mode, n) * iteration * batch
    {
      var done, current, cache, calls := GenerateCached(net, prompt, types, capacity, batch, full, n, mode);
      if !done || (iteration != 0 && current != suffix) {
        return false, suffix, rowForwards;
      }
      OneMoreStep(calls, iteration, batch);
      rowForwards := rowForwards + calls * batch;
      suffix := current;
    }
  }

  /** Repeats the uncached run `steps` times, with the same reported number of forward passes; it fails exactly when
      there is something to repeat and the texts outgrow the context. */
  method MeasureUncached(net: Model, prompt: seq<int>, batch: nat, n: nat, steady: bool, steps: nat)
    returns (ok: bool, suffix: seq<int>, rowForwards: nat)
    requires net.Valid() && batch > 0 && prompt != [] && n > 0
    ensures ok == (steps == 0 || |prompt| + Calls(if steady then Steady else Generation, n) <= net.contextLimit)
    ensures ok && steps > 0 ==> suffix == Suffix(net, prompt, if steady then Steady else Generation, n)
    ensures ok ==> rowForwards == MeasuredForwardSteps(steady, false, n, steps, batch)
  {
    ok, suffix, rowForwards := true, [], 0;
    for iteration := 0 to steps
      invariant ok
      invariant iteration > 0 ==>
        && suffix == Suffix(net, prompt, if steady then Steady else Generation, n)
        && |prompt| + Calls(if steady then Steady else Generation, n) <= net.contextLimit
      invariant rowForwards == n * iteration * batch
    {
      var done, current, calls := GenerateUncached(net, prompt, batch, n, steady);
      if !done || (iteration != 0 && current != suffix) {
        return false, suffix, rowForwards;
      }
      OneMoreStep(calls, iteration, batch);
      rowForwards := rowForwards + calls * batch;
      suffix := current;
    }
  }

  // ----- memory accounting --------------------------------------------------------------------------------------

  datatype CacheBytes = CacheBytes(actual: nat, active: nat, float32: nat, bfloat16: nat, float32Layers: nat, bfloat16Layers: nat)

  /** Bytes of one key or value tensor over `tokens` positions. */
  function TensorBytes(elementsPerToken: nat, tokens: nat, size: nat): nat {
    elementsPerToken * tokens * size
  }

  lemma BytesMonotone(elementsPerToken: nat, a: nat, b: nat, size: nat)
    requires a <= b
    ensures TensorBytes(elementsPerToken, a, size) <= TensorBytes(elementsPerToken, b, size)
  {
    assert elementsPerToken * a <= elementsPerToken * b;
    Scaled(elementsPerToken * a, elementsPerToken * b, size);
  }

  /** The storage of `layers` layers filled to `tokens` positions. */
  function StoredBytes(types: seq<CacheType>, elementsPerToken: nat, tokens: nat): nat {
    if types == [] then 0
    else StoredBytes(types[..|types| - 1], elementsPerToken, tokens)
         + 2 * TensorBytes(elementsPerToken, tokens, types[|types| - 1].Size())
  }

  /** Adds up the layers of a cache. The parts by type make up the whole, and the active part never exceeds
      the allocation. */
  method AccountBytes(net: Model, cache: KVCache, elementsPerToken: nat) returns (bytes: CacheBytes)
    requires cache.Valid(net)
    ensures bytes.float32 + bytes.bfloat16 == bytes.actual
    ensures bytes.float32Layers + bytes.bfloat16Layers == |cache.types|
    ensures bytes.active <= bytes.actual
    ensures cache.position > 0 ==> bytes.actual == StoredBytes(cache.types, elementsPerToken, cache.capacity)
    ensures bytes.active == StoredBytes(cache.types, elementsPerToken, cache.position)
  {
    bytes := CacheBytes(0, 0, 0, 0, 0, 0);
    for l := 0 to |cache.types|
      invariant bytes.float32 + bytes.bfloat16 == bytes.actual
      invariant bytes.float32Layers + bytes.bfloat16Layers == l
      invariant bytes.active <= bytes.actual
      invariant cache.position > 0 ==> bytes.actual == StoredBytes(cache.types[..l], elementsPerToken, cache.capacity)
      invariant bytes.active == StoredBytes(cache.types[..l], elementsPerToken, cache.position)
    {
      var kind := cache.types[l];
      assert cache.types[..l + 1][..l] == cache.types[..l];
      BytesMonotone(elementsPerToken, cache.position, cache.capacity, kind.Size());
      if kind.Float32? {
        bytes := bytes.(float32Layers := bytes.float32Layers + 1);
      } else {
        bytes := bytes.(bfloat16Layers := bytes.bfloat16Layers + 1);
      }
      if cache.position > 0 {
        var reserved := 2 * TensorBytes(elementsPerToken, cache.capacity, kind.Size());
        var active := 2 * TensorBytes(elementsPerToken, cache.position, kind.Size());
        bytes := bytes.(actual := bytes.actual + reserved, active := bytes.active + active);
        if kind.Float32? {
          bytes := bytes.(float32 := bytes.float32 + reserved);
        } else {
          bytes := bytes.(bfloat16 := bytes.bfloat16 + reserved);
        }
      }
    }
    assert cache.types[..|cache.types|] == cache.types;
  }
}
