/** The loop that feeds requests to the continuous scheduler as they arrive, and the benchmark drivers. */
module Arrivals {
  import opened Basics
  import opened Network
  import opened Requests
  import opened Scheduler

  datatype Work = Work(prompt: seq<int>, config: Config, arrival: int)
  {
    /** The clock tick at which the driver submits the request. */
    function Tick(): nat { if arrival < 0 then 0 else arrival }
  }

  // ----- who has been submitted ---------------------------------------------------------------------------------

  /** `ids[i]` is zero or one more than the position of request `i` in the table. */
  predicate Tracks(work: seq<Work>, ids: seq<nat>, requests: seq<Request>) {
    && |ids| == |work|
    && (forall i :: 0 <= i < |ids| && ids[i] != 0 ==>
      && ids[i] <= |requests|
      && requests[ids[i] - 1].prompt == work[i].prompt && requests[ids[i] - 1].config == work[i].config)
    && (forall k :: 0 <= k < |requests| ==> !requests[k].state.Cancelled?)
  }

  /** At clock `clock`, with the requests before `k` looked at in this tick. */
  predicate Submitted(work: seq<Work>, ids: seq<nat>, clock: nat, k: nat) {
    && |ids| == |work|
    && forall i :: 0 <= i < |ids| ==>
      (ids[i] != 0 <==> work[i].Tick() < clock || (work[i].Tick() == clock && i < k))
  }

  predicate Before(a: (nat, nat), b: (nat, nat)) {
    a.0 < b.0 || (a.0 == b.0 && a.1 < b.1)
  }

  /** The submissions so far, in order of tick and index, each at its own tick and before `(clock, k)`. */
  predicate Logged(work: seq<Work>, log: seq<(nat, nat)>, clock: nat, k: nat) {
    && (forall j :: 0 <= j < |log| ==>
      log[j].1 < |work| && log[j].0 == work[log[j].1].Tick() && Before(log[j], (clock, k)))
    && (forall j, l :: 0 <= j < l < |log| ==> Before(log[j], log[l]))
    && (forall i :: 0 <= i < |work| && Before((work[i].Tick(), i), (clock, k)) ==> (work[i].Tick(), i) in log)
  }

  lemma LogAppend(work: seq<Work>, log: seq<(nat, nat)>, clock: nat, k: nat)
    requires Logged(work, log, clock, k) && k < |work|
    ensures work[k].Tick() == clock ==> Logged(work, log + [(clock, k)], clock, k + 1)
    ensures work[k].Tick() != clock ==> Logged(work, log, clock, k + 1)
  {
  }

  lemma LogNextTick(work: seq<Work>, log: seq<(nat, nat)>, clock: nat)
    requires Logged(work, log, clock, |work|)
    ensures Logged(work, log, clock + 1, 0)
  {
  }

  // ----- termination ----------------------------------------------------------------------------------------------

  /** Tokens the requests that have not been submitted will ask for. */
  function Waiting(work: seq<Work>, ids: seq<nat>): nat
    requires |ids| == |work|
  {
    if work == [] then 0
    else Waiting(work[..|work| - 1], ids[..|work| - 1])
         + if ids[|work| - 1] == 0 && work[|work| - 1].config.maxNewTokens > 0 then work[|work| - 1].config.maxNewTokens else 0
  }

  lemma {:induction false} WaitingUpdate(work: seq<Work>, ids: seq<nat>, i: nat, id: nat)
    requires |ids| == |work| && i < |work| && ids[i] == 0 && id != 0 && work[i].config.maxNewTokens >= 0
    ensures Waiting(work, ids[i := id]) + work[i].config.maxNewTokens == Waiting(work, ids)
  {
    var n := |work| - 1;
    if i == n {
      assert ids[i := id][..n] == ids[..n];
    } else {
      assert ids[i := id][..n] == ids[..n][i := id];
      WaitingUpdate(work[..n], ids[..n], i, id);
    }
  }

  function LastTick(work: seq<Work>): (t: nat)
    ensures forall i :: 0 <= i < |work| ==> work[i].Tick() <= t
  {
    if work == [] then 0
    else
      var rest := LastTick(work[..|work| - 1]);
      if work[|work| - 1].Tick() > rest then work[|work| - 1].Tick() else rest
  }

  function TicksLeft(work: seq<Work>, clock: nat): nat {
    if clock > LastTick(work) then 0 else LastTick(work) + 1 - clock
  }

  // ----- the driver -------------------------------------------------------------------------------------------------

  /** A scheduler with this cache policy takes the request, if its cache is large enough. */
  predicate Servable(net: Model, policy: seq<CacheType>, item: Work) {
    Acceptable(net, item.prompt, item.config) && PolicyOf(net, item.config) == Some(policy)
  }

  predicate Fits(net: Model, policy: seq<CacheType>, capacity: nat, item: Work) {
    Servable(net, policy, item) && |item.prompt| + item.config.maxNewTokens <= capacity
  }

  predicate AllServable(net: Model, policy: seq<CacheType>, work: seq<Work>) {
    forall i :: 0 <= i < |work| ==> Servable(net, policy, work[i])
  }

  predicate AllFit(net: Model, policy: seq<CacheType>, capacity: nat, work: seq<Work>) {
    forall i :: 0 <= i < |work| ==> Fits(net, policy, capacity, work[i])
  }

  lemma AppendLeft(requests: seq<Request>, request: Request)
    ensures TotalLeft(requests + [request]) == TotalLeft(requests) + Left(request)
  {
    assert (requests + [request])[..|requests|] == requests;
  }

  lemma TracksOn(work: seq<Work>, ids: seq<nat>, before: seq<Request>, now: seq<Request>)
    requires Tracks(work, ids, before) && Continues(before, now)
    ensures Tracks(work, ids, now)
  {
  }

  lemma TracksMore(work: seq<Work>, ids: seq<nat>, requests: seq<Request>, i: nat)
    requires Tracks(work, ids, requests) && i < |work|
    ensures Tracks(work, ids[i := |requests| + 1], requests + [Fresh(work[i].prompt, work[i].config)])
  {
  }

  lemma SubmittedMore(work: seq<Work>, ids: seq<nat>, clock: nat, k: nat, id: nat)
    requires Submitted(work, ids, clock, k) && k < |work| && id != 0
    ensures ids[k] == 0 && work[k].arrival <= clock <==> work[k].Tick() == clock
    ensures work[k].Tick() == clock ==> Submitted(work, ids[k := id], clock, k + 1)
    ensures work[k].Tick() != clock ==> Submitted(work, ids, clock, k + 1)
  {
  }

  /** The requests submitted so far ask for the cache types of the scheduler. */
  predicate Matching(net: Model, policy: seq<CacheType>, work: seq<Work>, ids: seq<nat>) {
    |ids| == |work| && forall i :: 0 <= i < |ids| && ids[i] != 0 ==> PolicyOf(net, work[i].config) == Some(policy)
  }

  /** Where the driver stands: the table matches the identifiers, and the log holds the submissions so far. */
  ghost predicate Feeding(work: seq<Work>, ids: seq<nat>, requests: seq<Request>, log: seq<(nat, nat)>, clock: nat, k: nat) {
    Tracks(work, ids, requests) && Submitted(work, ids, clock, k) && Logged(work, log, clock, k)
  }

  /** Looks at one request in one tick. */
  method SubmitOne(scheduler: ContinuousScheduler, work: seq<Work>, ids: seq<nat>, clock: nat, i: nat,
                   ghost log: seq<(nat, nat)>)
    returns (ok: bool, now: seq<nat>, ghost longer: seq<(nat, nat)>)
    requires scheduler.Valid() && i < |work| && Feeding(work, ids, scheduler.requests, log, clock, i)
    requires Matching(scheduler.engine.net, scheduler.policy, work, ids)
    modifies scheduler
    ensures scheduler.Valid()
    ensures !ok ==> !Fits(scheduler.engine.net, scheduler.policy, scheduler.capacity, work[i])
    ensures ok ==> Feeding(work, now, scheduler.requests, longer, clock, i + 1)
    ensures ok ==> Matching(scheduler.engine.net, scheduler.policy, work, now)
    ensures ok ==> Waiting(work, now) + TotalLeft(scheduler.requests) == Waiting(work, ids) + old(TotalLeft(scheduler.requests))
  {
    ok, now, longer := true, ids, log;
    LogAppend(work, log, clock, i);
    SubmittedMore(work, ids, clock, i, |scheduler.requests| + 1);
    if ids[i] == 0 && work[i].arrival <= clock {
      TracksMore(work, ids, scheduler.requests, i);
      AppendLeft(scheduler.requests, Fresh(work[i].prompt, work[i].config));
      var id := scheduler.Submit(work[i].prompt, work[i].config);
      if id == 0 {
        return false, now, longer;
      }
      WaitingUpdate(work, ids, i, id);
      now := ids[i := id];
      longer := log + [(clock, i)];
    }
  }

  /** Submits everything that is due. */
  method SubmitDue(scheduler: ContinuousScheduler, work: seq<Work>, ids: seq<nat>, clock: nat, ghost log: seq<(nat, nat)>)
    returns (ok: bool, now: seq<nat>, ghost longer: seq<(nat, nat)>)
    requires scheduler.Valid() && Feeding(work, ids, scheduler.requests, log, clock, 0)
    requires Matching(scheduler.engine.net, scheduler.policy, work, ids)
    modifies scheduler
    ensures scheduler.Valid()
    ensures !ok ==> !AllFit(scheduler.engine.net, scheduler.policy, scheduler.capacity, work)
    ensures ok ==> Feeding(work, now, scheduler.requests, longer, clock + 1, 0)
    ensures ok ==> Matching(scheduler.engine.net, scheduler.policy, work, now)
    ensures ok ==> Waiting(work, now) + TotalLeft(scheduler.requests) == Waiting(work, ids) + old(TotalLeft(scheduler.requests))
  {
    ok, now, longer := true, ids, log;
    for i := 0 to |work|
      invariant ok && scheduler.Valid() && Feeding(work, now, scheduler.requests, longer, clock, i)
      invariant Matching(scheduler.engine.net, scheduler.policy, work, now)
      invariant Waiting(work, now) + TotalLeft(scheduler.requests) == Waiting(work, ids) + old(TotalLeft(scheduler.requests))
    {
      ok, now, longer := SubmitOne(scheduler, work, now, clock, i, longer);
      if !ok {
        return;
      }
    }
    LogNextTick(work, longer, clock);
  }

  /** Every request was submitted exactly once, at its arrival tick, in order of tick and index. */
  predicate InOrder(work: seq<Work>, log: seq<(nat, nat)>) {
    && (forall j :: 0 <= j < |log| ==> log[j].1 < |work| && log[j].0 == work[log[j].1].Tick())
    && (forall j, l :: 0 <= j < l < |log| ==> Before(log[j], log[l]))
    && (forall i :: 0 <= i < |work| ==> (work[i].Tick(), i) in log)
  }

  lemma AllSubmitted(work: seq<Work>, ids: seq<nat>, requests: seq<Request>, log: seq<(nat, nat)>, clock: nat)
    requires Feeding(work, ids, requests, log, clock, 0) && forall i :: 0 <= i < |ids| ==> ids[i] != 0
    ensures InOrder(work, log)
  {
  }

  lemma SomeoneLeft(work: seq<Work>, ids: seq<nat>, clock: nat)
    requires Submitted(work, ids, clock, 0) && exists i :: 0 <= i < |ids| && ids[i] == 0
    ensures clock <= LastTick(work)
  {
  }

  function Measure(work: seq<Work>, ids: seq<nat>, clock: nat, left: nat): nat
    requires |ids| == |work|
  {
    TicksLeft(work, clock) + Waiting(work, ids) + left
  }

  /** A turn brings the end nearer: the clock moves on, or everything is submitted and some token is produced. */
  lemma TurnDecreases(work: seq<Work>, ids: seq<nat>, now: seq<nat>, clock: nat, left: nat, submitted: nat, after: nat)
    requires Submitted(work, ids, clock, 0) && Submitted(work, now, clock + 1, 0)
    requires Waiting(work, now) + submitted == Waiting(work, ids) + left
    requires after <= submitted && (submitted > 0 ==> after < submitted)
    requires (exists i :: 0 <= i < |ids| && ids[i] == 0) || left > 0
    ensures Measure(work, now, clock + 1, after) < Measure(work, ids, clock, left)
  {
    if exists i :: 0 <= i < |ids| && ids[i] == 0 {
      SomeoneLeft(work, ids, clock);
    } else {
      NobodyWaits(work, ids);
      NobodyWaits(work, now);
    }
  }

  /** One turn of the arrival loop. */
  method Turn(scheduler: ContinuousScheduler, work: seq<Work>, ids: seq<nat>, clock: nat, active: bool,
              ghost log: seq<(nat, nat)>)
    returns (ok: bool, now: seq<nat>, still: bool, ghost longer: seq<(nat, nat)>)
    requires scheduler.Valid() && Feeding(work, ids, scheduler.requests, log, clock, 0)
    requires Matching(scheduler.engine.net, scheduler.policy, work, ids)
    requires active == !AllIdle(scheduler.requests) && ((exists i :: 0 <= i < |ids| && ids[i] == 0) || active)
    modifies scheduler
    ensures scheduler.Valid()
    ensures !ok ==> !AllFit(scheduler.engine.net, scheduler.policy, scheduler.capacity, work)
    ensures ok ==> Matching(scheduler.engine.net, scheduler.policy, work, now)
    ensures ok ==> Feeding(work, now, scheduler.requests, longer, clock + 1, 0) && still == !AllIdle(scheduler.requests)
    ensures ok ==>
      Measure(work, now, clock + 1, TotalLeft(scheduler.requests)) < Measure(work, ids, clock, old(TotalLeft(scheduler.requests)))
  {
    still := active;
    NothingLeft(scheduler.engine, scheduler.capacity, scheduler.requests);
    ok, now, longer := SubmitDue(scheduler, work, ids, clock, log);
    if !ok {
      return;
    }
    NothingLeft(scheduler.engine, scheduler.capacity, scheduler.requests);
    ghost var submitted := scheduler.requests;
    scheduler.Step();
    TracksOn(work, now, submitted, scheduler.requests);
    TurnDecreases(work, ids, now, clock, old(TotalLeft(scheduler.requests)), TotalLeft(submitted), TotalLeft(scheduler.requests));
    still := exists i :: 0 <= i < |scheduler.requests| && scheduler.requests[i].Active();
  }

  lemma {:induction false} NobodyWaits(work: seq<Work>, ids: seq<nat>)
    requires |ids| == |work| && forall i :: 0 <= i < |ids| ==> ids[i] != 0
    ensures Waiting(work, ids) == 0
  {
    if work != [] {
      NobodyWaits(work[..|work| - 1], ids[..|work| - 1]);
    }
  }

  /** The arrival loop. It ends. It fails exactly when some request is unacceptable or does not fit; otherwise
      it submits every request exactly once, at its arrival tick, in order of tick and index, and every request
      gets its isolated tokens, for any number of slots and any arrivals. */
  method RunContinuous(engine: Engine, work: seq<Work>, slots: nat, capacity: nat, batchPrefill: bool, policy: seq<CacheType>)
    returns (ok: bool, generated: seq<seq<int>>, ghost log: seq<(nat, nat)>)
    requires engine.Valid() && slots > 0 && capacity <= engine.net.contextLimit
    ensures ok == AllFit(engine.net, policy, capacity, work)
    ensures ok ==> InOrder(work, log)
    ensures ok ==> |generated| == |work|
    ensures ok ==> forall i :: 0 <= i < |work| ==> generated[i] == Isolated(engine, work[i].prompt, work[i].config)
  {
    var scheduler := new ContinuousScheduler(engine, slots, capacity, batchPrefill, policy);
    var ids: seq<nat> := seq(|work|, _ => 0);
    var clock := 0;
    var active := false;
    ok, generated, log := true, [], [];
    while (exists i :: 0 <= i < |ids| && ids[i] == 0) || active
      invariant ok && scheduler.Valid()
      invariant scheduler.engine == engine && scheduler.capacity == capacity && scheduler.policy == policy
      invariant active == !AllIdle(scheduler.requests)
      invariant Feeding(work, ids, scheduler.requests, log, clock, 0) && Matching(engine.net, policy, work, ids)
      decreases Measure(work, ids, clock, TotalLeft(scheduler.requests))
    {
      ok, ids, active, log := Turn(scheduler, work, ids, clock, active, log);
      if !ok {
        return;
      }
      clock := clock + 1;
    }
    AllSubmitted(work, ids, scheduler.requests, log, clock);
    generated := Collect(scheduler, work, ids);
  }

  /** Reads the results of a table in which every request is finished. */
  method Collect(scheduler: ContinuousScheduler, work: seq<Work>, ids: seq<nat>) returns (generated: seq<seq<int>>)
    requires scheduler.Valid() && AllIdle(scheduler.requests) && Tracks(work, ids, scheduler.requests)
    requires Matching(scheduler.engine.net, scheduler.policy, work, ids) && forall i :: 0 <= i < |ids| ==> ids[i] != 0
    ensures AllFit(scheduler.engine.net, scheduler.policy, scheduler.capacity, work)
    ensures |generated| == |work|
    ensures forall i :: 0 <= i < |work| ==> generated[i] == Isolated(scheduler.engine, work[i].prompt, work[i].config)
  {
    generated := [];
    for i := 0 to |work|
      invariant |generated| == i
      invariant forall k :: 0 <= k < i ==>
        && Fits(scheduler.engine.net, scheduler.policy, scheduler.capacity, work[k])
        && generated[k] == Isolated(scheduler.engine, work[k].prompt, work[k].config)
    {
      FinishedRequest(scheduler, ids[i] - 1);
      generated := generated + [scheduler.requests[ids[i] - 1].generated];
    }
  }

  lemma FinishedRequest(scheduler: ContinuousScheduler, k: nat)
    requires scheduler.Valid() && AllIdle(scheduler.requests) && k < |scheduler.requests|
    requires !scheduler.requests[k].state.Cancelled?
    ensures var request := scheduler.requests[k];
      && Acceptable(scheduler.engine.net, request.prompt, request.config)
      && |request.prompt| + request.config.maxNewTokens <= scheduler.capacity
      && request.generated == Isolated(scheduler.engine, request.prompt, request.config)
  {
    assert OnTrack(scheduler.engine, scheduler.capacity, scheduler.requests[k]);
  }

  /** The driver: sizes the cache for its longest request and runs the arrival loop. It succeeds exactly when
      the cache types fit the layers and every request is servable; slots, arrivals and batching of prefills
      leave no trace in the result. */
  method RunOfficial(engine: Engine, work: seq<Work>, slots: nat, batchPrefill: bool, policy: seq<CacheType>)
    returns (ok: bool, generated: seq<seq<int>>)
    requires engine.Valid() && slots > 0
    ensures ok == (|policy| == |engine.net.blocks| && AllServable(engine.net, policy, work))
    ensures ok ==> |generated| == |work|
    ensures ok ==> forall i :: 0 <= i < |work| ==> generated[i] == Isolated(engine, work[i].prompt, work[i].config)
  {
    var capacity: nat := 0;
    for i := 0 to |work|
      invariant forall k :: 0 <= k < i ==> |work[k].prompt| + work[k].config.maxNewTokens <= capacity
      invariant capacity == 0 || exists k :: 0 <= k < i && |work[k].prompt| + work[k].config.maxNewTokens == capacity
    {
      if |work[i].prompt| + work[i].config.maxNewTokens > capacity {
        capacity := |work[i].prompt| + work[i].config.maxNewTokens;
      }
    }
    if capacity > engine.net.contextLimit || |policy| != |engine.net.blocks| {
      return false, [];
    }
    if capacity == 0 {
      capacity := engine.net.contextLimit;
    }
    FitsIffServable(engine.net, policy, capacity, work);
    ghost var log;
    ok, generated, log := RunContinuous(engine, work, slots, capacity, batchPrefill, policy);
  }

  lemma FitsIffServable(net: Model, policy: seq<CacheType>, capacity: nat, work: seq<Work>)
    requires forall k :: 0 <= k < |work| ==> |work[k].prompt| + work[k].config.maxNewTokens <= capacity
    ensures AllFit(net, policy, capacity, work) <==> AllServable(net, policy, work)
  {
    if AllFit(net, policy, capacity, work) {
      forall i | 0 <= i < |work| ensures Servable(net, policy, work[i]) {
        assert Fits(net, policy, capacity, work[i]);
      }
    }
  }

  predicate AllGenerable(engine: Engine, work: seq<Work>) {
    forall i :: 0 <= i < |work| ==> Generable(engine, work[i].prompt, work[i].config)
  }

  /** One request after the other, each with a cache of its own: the same results where both accept. */
  method RunSequential(engine: Engine, work: seq<Work>) returns (ok: bool, generated: seq<seq<int>>)
    requires engine.Valid()
    ensures ok == AllGenerable(engine, work)
    ensures ok ==> |generated| == |work|
    ensures ok ==> forall i :: 0 <= i < |work| ==> generated[i] == Isolated(engine, work[i].prompt, work[i].config)
  {
    ok, generated := true, [];
    for i := 0 to |work|
      invariant ok && |generated| == i
      invariant forall k :: 0 <= k < i ==>
        && Generable(engine, work[k].prompt, work[k].config)
        && generated[k] == Isolated(engine, work[k].prompt, work[k].config)
    {
      var tokens;
      ok, tokens := GenerateAlone(engine, work[i].prompt, work[i].config);
      if !ok {
        return;
      }
      generated := generated + [tokens[|work[i].prompt|..]];
    }
  }

  /** A setting of the request that only a scheduler looks at is wrong: sampling settings that no token is sampled
      with, or cache types that differ from the scheduler's or are never used. */
  predicate Overlooked(engine: Engine, policy: seq<CacheType>, item: Work) {
    var config := item.config;
    if !SamplingOk(engine.net, config) then
      config.maxNewTokens == 0 || (!LooksAtSettings(engine, config) && PolicyOf(engine.net, config).Some?)
    else
      PolicyOf(engine.net, config) != Some(policy)
      && (config.maxNewTokens == 0 || PolicyOf(engine.net, config).Some?)
  }

  /** Plain generation takes everything a scheduler takes, and beyond that exactly the well-formed requests with
      an overlooked setting. */
  lemma GenerableBeyondServable(engine: Engine, policy: seq<CacheType>, item: Work)
    ensures Servable(engine.net, policy, item) ==> Generable(engine, item.prompt, item.config)
    ensures Generable(engine, item.prompt, item.config) && !Servable(engine.net, policy, item)
      <==> WellFormed(engine.net, item.prompt, item.config) && Overlooked(engine, policy, item)
  {
  }

  /** The first `n` requests of the scheduler are the first `n` items of the workload, and were taken. */
  ghost predicate Enlisted(scheduler: ContinuousScheduler, work: seq<Work>, n: nat)
    reads scheduler
  {
    && scheduler.Valid() && n <= |work| && |scheduler.requests| == n
    && forall k :: 0 <= k < n ==>
      && scheduler.requests[k].prompt == work[k].prompt && scheduler.requests[k].config == work[k].config
      && !scheduler.requests[k].state.Cancelled? && Servable(scheduler.engine.net, scheduler.policy, work[k])
  }

  /** Submits the whole workload at once and runs until nothing is left. The cache is as large as the context, so
      the run succeeds exactly when the cache types fit the layers and every request is servable. */
  method RunSubmitAll(engine: Engine, work: seq<Work>, slots: nat, batchPrefill: bool, policy: seq<CacheType>)
    returns (ok: bool, generated: seq<seq<int>>)
    requires engine.Valid() && slots > 0
    ensures ok == (|policy| == |engine.net.blocks| && AllServable(engine.net, policy, work))
    ensures ok ==> |generated| == |work|
    ensures ok ==> forall i :: 0 <= i < |work| ==> generated[i] == Isolated(engine, work[i].prompt, work[i].config)
  {
    ok, generated := |policy| == |engine.net.blocks|, [];
    if !ok {
      return;
    }
    var scheduler := new ContinuousScheduler(engine, slots, engine.net.contextLimit, batchPrefill, policy);
    for i := 0 to |work|
      invariant scheduler.engine == engine && scheduler.policy == policy && scheduler.capacity == engine.net.contextLimit
      invariant Enlisted(scheduler, work, i) && fresh(scheduler)
    {
      var id := scheduler.Submit(work[i].prompt, work[i].config);
      if id == 0 {
        return false, [];
      }
    }
    var _ := scheduler.RunUntilIdle(-1);
    generated := ReadResults(scheduler, work);
  }

  /** Reads the results when every request is finished. */
  method ReadResults(scheduler: ContinuousScheduler, work: seq<Work>) returns (generated: seq<seq<int>>)
    requires Enlisted(scheduler, work, |work|) && AllIdle(scheduler.requests)
    ensures |generated| == |work|
    ensures forall i :: 0 <= i < |work| ==> generated[i] == Isolated(scheduler.engine, work[i].prompt, work[i].config)
  {
    generated := [];
    for i := 0 to |work|
      invariant |generated| == i
      invariant forall k :: 0 <= k < i ==> generated[k] == Isolated(scheduler.engine, work[k].prompt, work[k].config)
    {
      FinishedRequest(scheduler, i);
      generated := generated + [scheduler.requests[i].generated];
    }
  }

  /** Runs a workload one request at a time, all at once, and through the arrival loop. Both schedulers accept the
      same workloads, and the sequential driver accepts these too, all with the same tokens; it alone accepts exactly
      when every request is servable or has a setting that it overlooks, and at least one is of the second kind. */
  method RunAllWays(engine: Engine, work: seq<Work>, slots: nat, batchPrefill: bool, policy: seq<CacheType>)
    returns (sequential: bool, one: seq<seq<int>>, continuous: bool, two: seq<seq<int>>, arriving: bool, three: seq<seq<int>>)
    requires engine.Valid() && slots > 0 && |policy| == |engine.net.blocks|
    ensures continuous == arriving
    ensures continuous ==> sequential && one == two == three
    ensures sequential && !continuous <==>
      && (exists i :: 0 <= i < |work| && Overlooked(engine, policy, work[i]))
      && (forall i :: 0 <= i < |work| ==>
        Servable(engine.net, policy, work[i])
        || (WellFormed(engine.net, work[i].prompt, work[i].config) && Overlooked(engine, policy, work[i])))
  {
    sequential, one := RunSequential(engine, work);
    continuous, two := RunSubmitAll(engine, work, slots, batchPrefill, policy);
    arriving, three := RunOfficial(engine, work, slots, batchPrefill, policy);
    forall i | 0 <= i < |work|
      ensures Servable(engine.net, policy, work[i]) ==> Generable(engine, work[i].prompt, work[i].config)
      ensures Generable(engine, work[i].prompt, work[i].config) && !Servable(engine.net, policy, work[i])
        <==> WellFormed(engine.net, work[i].prompt, work[i].config) && Overlooked(engine, policy, work[i])
    {
      GenerableBeyondServable(engine, policy, work[i]);
    }
  }
}
