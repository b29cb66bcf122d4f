/** Generation requests and what a request yields when it is served alone. */
module Requests {
  import opened Basics
  import opened Vectors
  import opened Network

  datatype Config = Config(
    maxNewTokens: int, temperature: real, topK: int, seed: int, stopTokens: seq<int>,
    cacheType: CacheType, layerTypes: seq<CacheType>)
  {
    predicate Greedy() { temperature == 0.0 || topK == 1 }
  }

  /** The network, whether it runs on an accelerator, and the random draw, which maps logits and a generator
      state to a token and the next state. */
  datatype Engine = Engine(net: Model, device: bool, draw: (Vector, real, int, int) -> (nat, int))
  {
    ghost predicate Valid() {
      net.Valid() && forall l, t, k, g :: l != [] ==> draw(l, t, k, g).0 < |l|
    }
  }

  /** Greedy requests take the first maximum and leave their generator alone. */
  function Select(engine: Engine, config: Config, logits: Vector, rng: int): (choice: (nat, int))
    requires logits != []
  {
    if config.Greedy() then (Argmax(logits), rng) else engine.draw(logits, config.temperature, config.topK, rng)
  }

  predicate InVocabulary(net: Model, tokens: seq<int>) {
    forall k :: 0 <= k < |tokens| ==> 0 <= tokens[k] < net.vocabulary
  }

  predicate Unique(tokens: seq<int>) {
    forall j, k :: 0 <= j < k < |tokens| ==> tokens[j] != tokens[k]
  }

  /** What generation and the schedulers both ask of a request. */
  predicate WellFormed(net: Model, prompt: seq<int>, config: Config) {
    && prompt != [] && config.maxNewTokens >= 0
    && |prompt| + config.maxNewTokens <= net.contextLimit
    && InVocabulary(net, prompt) && Unique(config.stopTokens) && InVocabulary(net, config.stopTokens)
  }

  predicate SamplingOk(net: Model, config: Config) {
    config.temperature >= 0.0 && 0 <= config.topK <= net.vocabulary
  }

  /** The checks a request has to pass to enter a scheduler. */
  predicate Acceptable(net: Model, prompt: seq<int>, config: Config) {
    WellFormed(net, prompt, config) && SamplingOk(net, config)
  }

  /** The cache types of the layers: one for all, or one per layer. */
  function PolicyOf(net: Model, config: Config): Option<seq<CacheType>> {
    if config.layerTypes == [] then Some(seq(|net.blocks|, _ => config.cacheType))
    else if |config.layerTypes| == |net.blocks| then Some(config.layerTypes)
    else None
  }

  /** On an accelerator a greedy choice does not look at the sampling settings. */
  predicate LooksAtSettings(engine: Engine, config: Config) {
    !(engine.device && config.Greedy())
  }

  /** The checks of plain generation: a request for no tokens passes whatever its cache and sampling settings,
      and sampling settings matter only where a token is sampled with them. */
  predicate Generable(engine: Engine, prompt: seq<int>, config: Config) {
    && WellFormed(engine.net, prompt, config)
    && (config.maxNewTokens > 0 ==>
      && PolicyOf(engine.net, config).Some?
      && (LooksAtSettings(engine, config) ==> SamplingOk(engine.net, config)))
  }

  // ----- the isolated result --------------------------------------------------------------------------------

  datatype Progress = Progress(generated: seq<int>, rng: int)

  /** The first `k` tokens, ignoring stop tokens. */
  function After(engine: Engine, prompt: seq<int>, config: Config, k: nat): (p: Progress)
    requires engine.Valid() && prompt != []
    ensures |p.generated| == k
  {
    if k == 0 then Progress([], config.seed)
    else
      var p := After(engine, prompt, config, k - 1);
      var (token, rng) := Select(engine, config, Logits(engine.net, prompt + p.generated), p.rng);
      Progress(p.generated + [token], rng)
  }

  /** Final number of tokens of a request that has produced `k` tokens and is still running. */
  function FinalLength(engine: Engine, prompt: seq<int>, config: Config, k: nat): (n: nat)
    requires engine.Valid() && prompt != []
    ensures n >= k
    decreases config.maxNewTokens - k
  {
    if k >= config.maxNewTokens then k
    else if After(engine, prompt, config, k + 1).generated[k] in config.stopTokens then k + 1
    else FinalLength(engine, prompt, config, k + 1)
  }

  /** The tokens of a request that is served alone. */
  function Isolated(engine: Engine, prompt: seq<int>, config: Config): seq<int>
    requires engine.Valid() && prompt != []
  {
    After(engine, prompt, config, FinalLength(engine, prompt, config, 0)).generated
  }

  lemma {:induction false} AfterPrefix(engine: Engine, prompt: seq<int>, config: Config, k: nat, n: nat)
    requires engine.Valid() && prompt != [] && k <= n
    ensures After(engine, prompt, config, n).generated[..k] == After(engine, prompt, config, k).generated
    decreases n
  {
    if k < n {
      AfterPrefix(engine, prompt, config, k, n - 1);
      assert After(engine, prompt, config, n).generated[..k] == After(engine, prompt, config, n - 1).generated[..k];
    }
  }

  lemma {:induction false} FinalLengthBound(engine: Engine, prompt: seq<int>, config: Config, k: nat)
    requires engine.Valid() && prompt != [] && k <= config.maxNewTokens
    ensures FinalLength(engine, prompt, config, k) <= config.maxNewTokens
    decreases config.maxNewTokens - k
  {
    if k < config.maxNewTokens {
      FinalLengthBound(engine, prompt, config, k + 1);
    }
  }

  /** An isolated result is never longer than asked for, and a stop token can only be its last token. */
  lemma {:induction false} StopsAtFirstStop(engine: Engine, prompt: seq<int>, config: Config, k: nat, j: nat)
    requires engine.Valid() && prompt != [] && k <= j
    requires j + 1 < FinalLength(engine, prompt, config, k)
    ensures After(engine, prompt, config, j + 1).generated[j] !in config.stopTokens
    decreases config.maxNewTokens - k
  {
    if k < config.maxNewTokens && k < j {
      StopsAtFirstStop(engine, prompt, config, k + 1, j);
    }
  }

  lemma IsolatedShape(engine: Engine, prompt: seq<int>, config: Config)
    requires engine.Valid() && prompt != [] && config.maxNewTokens >= 0
    ensures var tokens := Isolated(engine, prompt, config);
      && |tokens| <= config.maxNewTokens
      && (forall j :: 0 <= j < |tokens| - 1 ==> tokens[j] !in config.stopTokens)
      && (|tokens| < config.maxNewTokens ==> tokens != [] && tokens[|tokens| - 1] in config.stopTokens)
  {
    FinalLengthBound(engine, prompt, config, 0);
    var n := FinalLength(engine, prompt, config, 0);
    forall j: nat | j + 1 < n ensures Isolated(engine, prompt, config)[j] !in config.stopTokens {
      StopsAtFirstStop(engine, prompt, config, 0, j);
      AfterPrefix(engine, prompt, config, j + 1, n);
      assert Isolated(engine, prompt, config)[j] == Isolated(engine, prompt, config)[..j + 1][j];
    }
    ShortMeansStopped(engine, prompt, config, 0);
  }

  lemma {:induction false} ShortMeansStopped(engine: Engine, prompt: seq<int>, config: Config, k: nat)
    requires engine.Valid() && prompt != [] && k <= config.maxNewTokens
    ensures var n := FinalLength(engine, prompt, config, k);
      n < config.maxNewTokens ==> n > 0 && After(engine, prompt, config, n).generated[n - 1] in config.stopTokens
    decreases config.maxNewTokens - k
  {
    if k < config.maxNewTokens {
      ShortMeansStopped(engine, prompt, config, k + 1);
    }
  }

  // ----- serving one request alone ----------------------------------------------------------------------------

  method ChooseToken(engine: Engine, config: Config, logits: Vector, rng: int) returns (ok: bool, token: nat, next: int)
    requires logits != []
    ensures ok == (LooksAtSettings(engine, config) ==> SamplingOk(engine.net, config))
    ensures ok ==> (token, next) == Select(engine, config, logits, rng)
  {
    ok, token, next := true, 0, rng;
    if engine.device && config.Greedy() {
      token := FirstMaximum(logits);
    } else {
      ok, token, next := SampleToken(engine, config, logits, rng);
    }
  }

  /** The host path: checks the settings, then takes the first maximum or draws. */
  method SampleToken(engine: Engine, config: Config, logits: Vector, rng: int) returns (ok: bool, token: nat, next: int)
    requires logits != []
    ensures ok == SamplingOk(engine.net, config)
    ensures ok ==> (token, next) == Select(engine, config, logits, rng)
  {
    ok, token, next := true, 0, rng;
    if config.temperature < 0.0 || config.topK < 0 || config.topK > engine.net.vocabulary {
      ok := false;
    } else if config.Greedy() {
      token := FirstMaximum(logits);
    } else {
      var choice := engine.draw(logits, config.temperature, config.topK, rng);
      token, next := choice.0, choice.1;
    }
  }

  method CheckWellFormed(net: Model, prompt: seq<int>, config: Config) returns (ok: bool)
    ensures ok == WellFormed(net, prompt, config)
  {
    if prompt == [] || config.maxNewTokens < 0 || |prompt| + config.maxNewTokens > net.contextLimit {
      return false;
    }
    var promptOk := CheckTokens(net, prompt);
    var stopsOk := CheckTokens(net, config.stopTokens);
    var unique := CheckUnique(config.stopTokens);
    ok := promptOk && stopsOk && unique;
  }

  method ValidateRequest(net: Model, prompt: seq<int>, config: Config) returns (ok: bool)
    ensures ok == Acceptable(net, prompt, config)
  {
    ok := CheckWellFormed(net, prompt, config);
    if config.temperature < 0.0 || config.topK < 0 || config.topK > net.vocabulary {
      ok := false;
    }
  }

  method CheckTokens(net: Model, tokens: seq<int>) returns (ok: bool)
    ensures ok == InVocabulary(net, tokens)
  {
    for k := 0 to |tokens|
      invariant InVocabulary(net, tokens[..k])
    {
      if tokens[k] < 0 || tokens[k] >= net.vocabulary {
        return false;
      }
      assert tokens[..k + 1] == tokens[..k] + [tokens[k]];
    }
    assert tokens[..|tokens|] == tokens;
    ok := true;
  }

  method CheckUnique(tokens: seq<int>) returns (ok: bool)
    ensures ok == Unique(tokens)
  {
    for k := 0 to |tokens|
      invariant Unique(tokens[..k])
    {
      if tokens[k] in tokens[..k] {
        return false;
      }
      assert tokens[..k + 1] == tokens[..k] + [tokens[k]];
    }
    assert tokens[..|tokens|] == tokens;
    ok := true;
  }

  /** Generation of one request with a cache of its own. */
  method GenerateAlone(engine: Engine, prompt: seq<int>, config: Config) returns (ok: bool, tokens: seq<int>)
    requires engine.Valid()
    ensures ok == Generable(engine, prompt, config)
    ensures ok ==> tokens == prompt + Isolated(engine, prompt, config)
  {
    tokens := prompt;
    ok := CheckWellFormed(engine.net, prompt, config);
    if !ok {
      return;
    }
    if config.maxNewTokens == 0 {
      assert prompt + [] == prompt;
      return;
    }
    if config.layerTypes != [] && |config.layerTypes| != |engine.net.blocks| {
      return false, tokens;
    }
    var row, logits := ForwardFull(engine.net, prompt);
    var rng := config.seed;
    var generated: seq<int> := [];
    assert prompt + generated == prompt;
    for k := 0 to config.maxNewTokens
      invariant ok && (k > 0 ==> Generable(engine, prompt, config))
      invariant Progress(generated, rng) == After(engine, prompt, config, k)
      invariant FinalLength(engine, prompt, config, k) == FinalLength(engine, prompt, config, 0)
      invariant k < config.maxNewTokens ==>
        RowCaches(engine.net, prompt + generated, row) && logits == Logits(engine.net, prompt + generated)
    {
      var token, next;
      ok, token, next := ChooseToken(engine, config, logits, rng);
      if !ok {
        return;
      }
      ghost var before := generated;
      generated, rng := generated + [token], next;
      assert prompt + before + [token] == prompt + generated;
      if token in config.stopTokens {
        return ok, prompt + generated;
      }
      if k + 1 < config.maxNewTokens {
        row, logits := ForwardCachedRow(engine.net, row, |prompt| + k, token, prompt + before);
      }
    }
    tokens := prompt + generated;
  }
}
