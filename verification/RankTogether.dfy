/** All ranks of one run side by side: the workers of all ranks, each stepping its own copy of the training
    state, put exactly the traffic of the protocol on the wire and stay on the common sequence of states. */
module RankTogether {
  import opened Vectors
  import opened Reducers
  import opened Training
  import opened BucketRanges
  import opened Readiness
  import opened RankPlan
  import opened RankWorkers
  import RankProtocol
  import opened RankSimulation

  type RunConfig = RankProtocol.RunConfig

  /** How backward proceeds on one rank in one step: what the parameters hold until their gradient is final,
      and the order in which the gradients become final. */
  datatype Arrival = Arrival(unfinished: Gradient, order: seq<nat>)
  {
    predicate Covers(parameters: nat) {
      |unfinished| == parameters && ReadyOrder(order, parameters)
    }
  }

  ghost function Objects(worker: RankWorker): set<object> {
    {worker, worker.communicator, worker.parameters, worker.plan}
  }

  ghost function Footprint(workers: seq<RankWorker>): (s: set<object>)
    ensures forall r :: 0 <= r < |workers| ==> Objects(workers[r]) <= s
  {
    if workers == [] then {}
    else
      var n := |workers| - 1;
      assert forall r :: 0 <= r < n ==> workers[r] == workers[..n][r];
      Footprint(workers[..n]) + Objects(workers[n])
  }

  ghost predicate Separate(v: RankWorker, w: RankWorker) {
    v != w && v.communicator != w.communicator && v.parameters != w.parameters && v.plan != w.plan
  }

  ghost predicate Apart(workers: seq<RankWorker>) {
    forall p, q :: 0 <= p < |workers| && 0 <= q < |workers| && p != q ==> Separate(workers[p], workers[q])
  }

  /** The worker has taken `n` steps under the common layout and policy. */
  ghost predicate Stands(worker: RankWorker, layout: Layout, reducer: Reducer, scale: real, n: nat)
    reads worker, worker.plan, worker.parameters
  {
    && worker.Valid() && worker.layout == layout && worker.reducer == reducer
    && worker.scale == scale && |worker.steps| == n
  }

  function Weighted(scales: seq<real>, locals: seq<Gradient>): (ws: seq<Gradient>)
    requires |scales| == |locals|
    ensures |ws| == |locals| && forall r :: 0 <= r < |locals| ==> ws[r] == ScaleAll(scales[r], locals[r])
  {
    seq(|locals|, r requires 0 <= r < |locals| => ScaleAll(scales[r], locals[r]))
  }

  /** The worker has just finished step `n`: it contributed `payloads` after `base` and holds `gradients`. */
  ghost predicate Stepped(worker: RankWorker, layout: Layout, reducer: Reducer, scale: real, n: nat,
                          base: seq<Vector>, payloads: seq<Vector>, gradients: Gradient)
    reads worker, worker.communicator, worker.parameters, worker.plan
  {
    && Stands(worker, layout, reducer, scale, n + 1)
    && worker.communicator.issued == base + payloads
    && worker.parameters.gradients == gradients
  }

  /** Where a rank is in the middle of step `n`: it has `finished` the step, or not begun it. */
  ghost predicate Midway(worker: RankWorker, layout: Layout, reducer: Reducer, scale: real, n: nat,
                         base: seq<Vector>, payloads: seq<Vector>, gradients: Gradient, finished: bool)
    reads worker, worker.communicator, worker.parameters, worker.plan
  {
    if finished then Stepped(worker, layout, reducer, scale, n, base, payloads, gradients)
    else Stands(worker, layout, reducer, scale, n) && worker.communicator.issued == base
  }

  /** The collectives deliver `mean`. */
  ghost predicate Returns(layout: Layout, reducer: Reducer, overlap: bool, results: seq<Vector>, mean: Gradient) {
    layout.Valid() && layout.Fits(reducer, overlap, results) && mean == layout.Deliver(reducer, overlap, results)
  }

  method StepOne(layout: Layout, reducer: Reducer, scale: real, n: nat, worker: RankWorker, local: Gradient,
                 arrival: Arrival, results: seq<Vector>,
                 ghost base: seq<Vector>, ghost payloads: seq<Vector>, ghost mean: Gradient)
    returns (ok: bool)
    requires layout.Valid() && Shaped(layout.counts, local) && arrival.Covers(|layout.counts|)
    requires Midway(worker, layout, reducer, scale, n, base, payloads, mean, false) == true
    requires payloads == layout.Payloads(reducer, reducer.Overlaps() && n > 0, ScaleAll(scale, local))
    requires Returns(layout, reducer, reducer.Overlaps() && n > 0, results, mean) == true
    modifies worker, worker.communicator, worker.parameters, worker.plan
    ensures ok
    ensures Midway(worker, layout, reducer, scale, n, base, payloads, mean, true) == true
  {
    ok := worker.RunStep(local, arrival.unfinished, arrival.order, results);
  }

  ghost function Issued(workers: seq<RankWorker>): (issued: seq<seq<Vector>>)
    reads Footprint(workers)
    ensures |issued| == |workers| && forall r :: 0 <= r < |workers| ==> issued[r] == workers[r].communicator.issued
  {
    seq(|workers|, r reads Footprint(workers) requires 0 <= r < |workers| => workers[r].communicator.issued)
  }

  /** Rank `r` takes its step; the others stay where they are. */
  method StepAt(layout: Layout, reducer: Reducer, scales: seq<real>, n: nat, workers: seq<RankWorker>, r: nat,
                local: Gradient, arrival: Arrival, results: seq<Vector>,
                ghost base: seq<seq<Vector>>, ghost payloads: seq<seq<Vector>>, ghost mean: Gradient)
    returns (ok: bool)
    requires r < |workers| == |scales| == |base| == |payloads| && Apart(workers)
    requires layout.Valid() && Shaped(layout.counts, local) && arrival.Covers(|layout.counts|)
    requires payloads[r] == layout.Payloads(reducer, reducer.Overlaps() && n > 0, ScaleAll(scales[r], local))
    requires Returns(layout, reducer, reducer.Overlaps() && n > 0, results, mean) == true
    requires forall q :: 0 <= q < |workers| ==>
      Midway(workers[q], layout, reducer, scales[q], n, base[q], payloads[q], mean, q < r) == true
    modifies workers[r], workers[r].communicator, workers[r].parameters, workers[r].plan
    ensures ok
    ensures forall q :: 0 <= q < |workers| ==>
      Midway(workers[q], layout, reducer, scales[q], n, base[q], payloads[q], mean, q < r + 1) == true
  {
    assert Midway(workers[r], layout, reducer, scales[r], n, base[r], payloads[r], mean, r < r) == true;
    ok := StepOne(layout, reducer, scales[r], n, workers[r], local, arrival, results, base[r], payloads[r], mean);
    forall q | 0 <= q < |workers|
      ensures Midway(workers[q], layout, reducer, scales[q], n, base[q], payloads[q], mean, q < r + 1) == true
    {
      if q != r {
        assert Separate(workers[q], workers[r]);
        assert unchanged(workers[q], workers[q].communicator, workers[q].parameters, workers[q].plan);
      }
    }
  }

  /** One step of all ranks. The collectives return the averages of what the ranks contribute. */
  method StepTogether(layout: Layout, reducer: Reducer, scales: seq<real>, n: nat, workers: seq<RankWorker>,
                      locals: seq<Gradient>, arrivals: seq<Arrival>)
    returns (ok: bool)
    requires layout.Valid() && workers != [] && Apart(workers)
    requires |workers| == |scales| == |locals| == |arrivals| && SameShape(layout.counts, locals)
    requires forall r :: 0 <= r < |workers| ==> Stands(workers[r], layout, reducer, scales[r], n) == true
    requires forall r :: 0 <= r < |workers| ==> arrivals[r].Covers(|layout.counts|)
    modifies Footprint(workers)
    ensures ok && SameShape(layout.counts, Weighted(scales, locals))
    ensures forall r :: 0 <= r < |workers| ==>
      Stepped(workers[r], layout, reducer, scales[r], n, old(workers[r].communicator.issued),
              layout.Payloads(reducer, reducer.Overlaps() && n > 0, Weighted(scales, locals)[r]),
              AverageAll(layout.counts, Weighted(scales, locals))) == true
  {
    var overlap := reducer.Overlaps() && n > 0;
    var weighted := Weighted(scales, locals);
    var results := Collect(layout, reducer, overlap, weighted);
    ReducerIndependence(layout, reducer, overlap, weighted);
    ghost var base, mean := Issued(workers), AverageAll(layout.counts, weighted);
    ghost var payloads := AllPayloads(layout, reducer, overlap, weighted);
    ok := true;
    for r := 0 to |workers|
      invariant ok
      invariant forall q :: 0 <= q < |workers| ==>
        Midway(workers[q], layout, reducer, scales[q], n, base[q], payloads[q], mean, q < r) == true
    {
      ok := StepAt(layout, reducer, scales, n, workers, r, locals[r], arrivals[r], results, base, payloads, mean);
    }
    forall r | 0 <= r < |workers|
      ensures Stepped(workers[r], layout, reducer, scales[r], n, old(workers[r].communicator.issued),
                      layout.Payloads(reducer, overlap, weighted[r]), mean) == true
    {
      assert Midway(workers[r], layout, reducer, scales[r], n, base[r], payloads[r], mean, r < |workers|);
    }
  }

  /** The gradients every rank holds. */
  function Held(workers: seq<RankWorker>): (held: seq<Gradient>)
    reads Footprint(workers)
    ensures |held| == |workers| && forall r :: 0 <= r < |workers| ==> held[r] == workers[r].parameters.gradients
  {
    seq(|workers|, r reads Footprint(workers) requires 0 <= r < |workers| => workers[r].parameters.gradients)
  }

  /** Every rank updates its own state with the gradients it holds. */
  function UpdateAll(cfg: RunConfig, states: seq<TrainState>, held: seq<Gradient>): (next: seq<TrainState>)
    requires |states| == |held|
    ensures |next| == |states|
    ensures forall r :: 0 <= r < |states| ==> next[r] == cfg.trainer.Step(states[r], held[r], cfg.context)
  {
    seq(|states|, r requires 0 <= r < |states| => cfg.trainer.Step(states[r], held[r], cfg.context))
  }

  function Scales(cfg: RunConfig): (scales: seq<real>)
    ensures |scales| == cfg.World()
    ensures forall r :: 0 <= r < cfg.World() ==> scales[r] == RankScale(cfg.tokenWeighted, cfg.Tokens(), r)
  {
    seq(cfg.World(), r requires 0 <= r < cfg.World() => RankScale(cfg.tokenWeighted, cfg.Tokens(), r))
  }

  function MeanGradients(cfg: RunConfig, states: seq<TrainState>): (gs: seq<Gradient>)
    requires cfg.Valid() && |states| == cfg.World()
    ensures |gs| == cfg.World() && SameShape(cfg.layout.counts, gs)
    ensures forall r :: 0 <= r < cfg.World() ==>
      gs[r] == cfg.trainer.MeanGradient(states[r].parameters, cfg.batches[r], cfg.Tokens()[r])
  {
    seq(cfg.World(), r requires 0 <= r < cfg.World() =>
      cfg.trainer.MeanGradient(states[r].parameters, cfg.batches[r], cfg.Tokens()[r]))
  }

  /** The payloads that the protocol assigns to rank `r`, step by step. */
  ghost function PayloadBlocks(cfg: RunConfig, start: TrainState, r: nat): (blocks: seq<seq<Vector>>)
    requires cfg.Valid() && r < cfg.World()
    ensures |blocks| == cfg.steps && forall s :: 0 <= s < cfg.steps ==> blocks[s] == StepPayloads(cfg, start, r, s)
  {
    seq(cfg.steps, s requires 0 <= s < cfg.steps => StepPayloads(cfg, start, r, s))
  }

  /** All of them for the first `n` steps. */
  ghost function Wire(cfg: RunConfig, start: TrainState, r: nat, n: nat): seq<Vector>
    requires cfg.Valid() && r < cfg.World() && n <= cfg.steps
  {
    Joined(PayloadBlocks(cfg, start, r), n)
  }

  ghost predicate Ensemble(cfg: RunConfig, workers: seq<RankWorker>, n: nat)
    reads Footprint(workers)
  {
    && |workers| == cfg.World() && Apart(workers)
    && forall r :: 0 <= r < |workers| ==> Stands(workers[r], cfg.layout, cfg.reducer, Scales(cfg)[r], n)
  }

  /** In the common state of step `s`, the weighted gradients are the ones of the protocol. */
  lemma WeightedAreLocals(cfg: RunConfig, states: seq<TrainState>, state: TrainState)
    requires cfg.Valid() && |states| == cfg.World() && forall r :: 0 <= r < cfg.World() ==> states[r] == state
    ensures Weighted(Scales(cfg), MeanGradients(cfg, states)) == Locals(cfg, state)
  {
  }

  /** Rank `r` after `s` steps: it holds the common state and has contributed what the protocol says. */
  ghost predicate InStep(cfg: RunConfig, start: TrainState, worker: RankWorker, state: TrainState, r: nat, s: nat,
                         base: seq<Vector>)
    reads worker, worker.communicator, worker.parameters, worker.plan
  {
    && cfg.Valid() && r < cfg.World() && s <= cfg.steps
    && Stands(worker, cfg.layout, cfg.reducer, Scales(cfg)[r], s)
    && state == Lockstep(cfg, start, s)
    && worker.communicator.issued == base + Wire(cfg, start, r, s)
  }

  ghost predicate AllInStep(cfg: RunConfig, start: TrainState, workers: seq<RankWorker>, states: seq<TrainState>, s: nat,
                            base: seq<seq<Vector>>)
    reads Footprint(workers)
  {
    && cfg.Valid() && s <= cfg.steps && Apart(workers) && |workers| == |states| == |base| == cfg.World()
    && forall r :: 0 <= r < cfg.World() ==> InStep(cfg, start, workers[r], states[r], r, s, base[r])
  }

  predicate AllCover(cfg: RunConfig, arrivals: seq<Arrival>) {
    |arrivals| == cfg.World() && forall r :: 0 <= r < cfg.World() ==> arrivals[r].Covers(|cfg.layout.counts|)
  }

  lemma WireNext(cfg: RunConfig, start: TrainState, r: nat, s: nat, base: seq<Vector>)
    requires cfg.Valid() == true && r < cfg.World() && s < cfg.steps
    ensures base + Wire(cfg, start, r, s + 1) == base + Wire(cfg, start, r, s) + StepPayloads(cfg, start, r, s)
  {
  }

  lemma LockstepNext(cfg: RunConfig, start: TrainState, s: nat)
    requires cfg.Valid()
    ensures var state := Lockstep(cfg, start, s);
      Lockstep(cfg, start, s + 1) == cfg.trainer.Step(state, AverageAll(cfg.layout.counts, Locals(cfg, state)), cfg.context)
  {
  }

  /** What step `s` adds for one rank. */
  lemma StepsOn(cfg: RunConfig, start: TrainState, worker: RankWorker, r: nat, s: nat, state: TrainState,
                before: seq<Vector>, payloads: seq<Vector>, mean: Gradient, base: seq<Vector>)
    requires cfg.Valid() == true && r < cfg.World() && s < cfg.steps && before + payloads == base + Wire(cfg, start, r, s + 1)
    requires Stepped(worker, cfg.layout, cfg.reducer, Scales(cfg)[r], s, before, payloads, mean)
    requires state == Lockstep(cfg, start, s + 1)
    ensures InStep(cfg, start, worker, state, r, s + 1, base)
  {
  }

  /** All ranks have the common state and the common history when they begin step `s`. */
  ghost predicate AllAt(cfg: RunConfig, start: TrainState, states: seq<TrainState>, s: nat,
                        before: seq<seq<Vector>>, base: seq<seq<Vector>>)
  {
    && cfg.Valid() && s < cfg.steps && |states| == |before| == |base| == cfg.World()
    && forall r :: 0 <= r < cfg.World() ==>
         states[r] == Lockstep(cfg, start, s) && before[r] == base[r] + Wire(cfg, start, r, s)
  }

  ghost predicate AllStand(cfg: RunConfig, workers: seq<RankWorker>, s: nat)
    reads Footprint(workers)
  {
    && |workers| == cfg.World()
    && forall r :: 0 <= r < cfg.World() ==> Stands(workers[r], cfg.layout, cfg.reducer, Scales(cfg)[r], s)
  }

  /** All ranks have finished step `s` with the weighted gradients `ws`. */
  ghost predicate AllStepped(cfg: RunConfig, workers: seq<RankWorker>, s: nat, before: seq<seq<Vector>>, ws: seq<Gradient>)
    reads Footprint(workers)
  {
    && cfg.Valid() && |workers| == |before| == |ws| == cfg.World() && SameShape(cfg.layout.counts, ws)
    && forall r :: 0 <= r < cfg.World() ==>
         Stepped(workers[r], cfg.layout, cfg.reducer, Scales(cfg)[r], s, before[r],
                 cfg.layout.Payloads(cfg.reducer, cfg.OverlapAt(s), ws[r]), AverageAll(cfg.layout.counts, ws))
  }

  lemma AllEnter(cfg: RunConfig, start: TrainState, workers: seq<RankWorker>, states: seq<TrainState>, s: nat,
                 base: seq<seq<Vector>>)
    requires AllInStep(cfg, start, workers, states, s, base) == true && s < cfg.steps
    ensures AllStand(cfg, workers, s) == true && AllAt(cfg, start, states, s, Issued(workers), base) == true
  {
    forall r | 0 <= r < cfg.World()
      ensures Stands(workers[r], cfg.layout, cfg.reducer, Scales(cfg)[r], s) == true
      ensures states[r] == Lockstep(cfg, start, s) && workers[r].communicator.issued == base[r] + Wire(cfg, start, r, s)
    {
      assert InStep(cfg, start, workers[r], states[r], r, s, base[r]);
    }
  }

  lemma AllStepOn(cfg: RunConfig, start: TrainState, s: nat, workers: seq<RankWorker>, states: seq<TrainState>,
                  before: seq<seq<Vector>>, ws: seq<Gradient>, base: seq<seq<Vector>>)
    requires AllAt(cfg, start, states, s, before, base) && AllStepped(cfg, workers, s, before, ws) && Apart(workers)
    requires ws == Locals(cfg, Lockstep(cfg, start, s))
    ensures AllInStep(cfg, start, workers, UpdateAll(cfg, states, Held(workers)), s + 1, base) == true
  {
    LockstepNext(cfg, start, s);
    var next := UpdateAll(cfg, states, Held(workers));
    forall r | 0 <= r < cfg.World() ensures InStep(cfg, start, workers[r], next[r], r, s + 1, base[r]) == true {
      WireNext(cfg, start, r, s, base[r]);
      StepsOn(cfg, start, workers[r], r, s, next[r], before[r], StepPayloads(cfg, start, r, s),
              AverageAll(cfg.layout.counts, ws), base[r]);
    }
  }

  /** Every rank computes its gradient from its own state, steps, and updates its state. */
  method StepAndUpdate(cfg: RunConfig, s: nat, workers: seq<RankWorker>, states: seq<TrainState>, arrivals: seq<Arrival>)
    returns (ok: bool, next: seq<TrainState>)
    requires cfg.Valid() && Apart(workers) && |states| == cfg.World() && AllCover(cfg, arrivals)
    requires AllStand(cfg, workers, s)
    modifies Footprint(workers)
    ensures ok
    ensures AllStepped(cfg, workers, s, old(Issued(workers)), Weighted(Scales(cfg), MeanGradients(cfg, states))) == true
    ensures next == UpdateAll(cfg, states, Held(workers))
  {
    ok := StepTogether(cfg.layout, cfg.reducer, Scales(cfg), s, workers, MeanGradients(cfg, states), arrivals);
    next := UpdateAll(cfg, states, Held(workers));
  }

  /** One training step of all ranks. */
  method TrainStep(cfg: RunConfig, ghost start: TrainState, s: nat, workers: seq<RankWorker>, states: seq<TrainState>,
                   arrivals: seq<Arrival>, ghost base: seq<seq<Vector>>)
    returns (ok: bool, next: seq<TrainState>)
    requires s < cfg.steps && AllCover(cfg, arrivals) == true
    requires AllInStep(cfg, start, workers, states, s, base) == true
    modifies Footprint(workers)
    ensures ok && AllInStep(cfg, start, workers, next, s + 1, base) == true
  {
    ghost var before, ws := Issued(workers), Weighted(Scales(cfg), MeanGradients(cfg, states));
    AllEnter(cfg, start, workers, states, s, base);
    WeightedAreLocals(cfg, states, Lockstep(cfg, start, s));
    ok, next := StepAndUpdate(cfg, s, workers, states, arrivals);
    AllStepOn(cfg, start, s, workers, states, before, ws, base);
  }

  function Copies(state: TrainState, n: nat): (states: seq<TrainState>)
    ensures |states| == n && forall r :: 0 <= r < n ==> states[r] == state
  {
    seq(n, _ => state)
  }

  lemma AllBegin(cfg: RunConfig, start: TrainState, workers: seq<RankWorker>)
    requires cfg.Valid() == true && Ensemble(cfg, workers, 0) == true
    ensures AllInStep(cfg, start, workers, Copies(start, cfg.World()), 0, Issued(workers)) == true
  {
    forall r | 0 <= r < cfg.World() ensures InStep(cfg, start, workers[r], start, r, 0, workers[r].communicator.issued) == true {
      assert workers[r].communicator.issued + Wire(cfg, start, r, 0) == workers[r].communicator.issued;
    }
  }

  // ----- the whole run ----------------------------------------------------------------------------------------

  /** The common states, and what every rank has contributed by then, as plain values: the loop over the steps
      need not look at how they come about. */
  datatype Trail = Trail(states: seq<TrainState>, wires: seq<seq<seq<Vector>>>)
  {
    predicate Reaches(r: nat, s: nat) {
      s < |states| && r < |wires| && s < |wires[r]|
    }
  }

  ghost predicate IsTrail(cfg: RunConfig, start: TrainState, trail: Trail) {
    && cfg.Valid()
    && (forall r: nat, s: nat {:trigger trail.Reaches(r, s)} :: r < cfg.World() && s <= cfg.steps ==> trail.Reaches(r, s))
    && (forall s: nat {:trigger Lockstep(cfg, start, s)} :: s <= cfg.steps ==>
          s < |trail.states| && trail.states[s] == Lockstep(cfg, start, s))
    && (forall r: nat, s: nat {:trigger Wire(cfg, start, r, s)} :: r < cfg.World() && s <= cfg.steps ==>
          trail.Reaches(r, s) && trail.wires[r][s] == Wire(cfg, start, r, s))
  }

  ghost function TrailOf(cfg: RunConfig, start: TrainState): (trail: Trail)
    requires cfg.Valid()
    ensures IsTrail(cfg, start, trail)
  {
    Trail(seq(cfg.steps + 1, s requires 0 <= s <= cfg.steps => Lockstep(cfg, start, s)),
          seq(cfg.World(), r requires 0 <= r < cfg.World() =>
            seq(cfg.steps + 1, s requires 0 <= s <= cfg.steps => Wire(cfg, start, r, s))))
  }

  ghost predicate OnTrail(cfg: RunConfig, trail: Trail, worker: RankWorker, state: TrainState, r: nat, s: nat,
                          base: seq<Vector>)
    reads worker, worker.communicator, worker.parameters, worker.plan
  {
    && r < cfg.World() && trail.Reaches(r, s)
    && Stands(worker, cfg.layout, cfg.reducer, Scales(cfg)[r], s)
    && state == trail.states[s] && worker.communicator.issued == base + trail.wires[r][s]
  }

  ghost predicate AllOnTrail(cfg: RunConfig, trail: Trail, workers: seq<RankWorker>, states: seq<TrainState>, s: nat,
                             base: seq<seq<Vector>>)
    reads Footprint(workers)
  {
    && Apart(workers) && |workers| == |states| == |base| == cfg.World()
    && forall r :: 0 <= r < cfg.World() ==> OnTrail(cfg, trail, workers[r], states[r], r, s, base[r])
  }

  lemma TrailMeans(cfg: RunConfig, start: TrainState, trail: Trail, workers: seq<RankWorker>, states: seq<TrainState>,
                   s: nat, base: seq<seq<Vector>>)
    requires IsTrail(cfg, start, trail) && s <= cfg.steps
    ensures AllOnTrail(cfg, trail, workers, states, s, base) == AllInStep(cfg, start, workers, states, s, base)
  {
    if |workers| == |states| == |base| == cfg.World() {
      forall r | 0 <= r < cfg.World()
        ensures OnTrail(cfg, trail, workers[r], states[r], r, s, base[r])
          == InStep(cfg, start, workers[r], states[r], r, s, base[r])
      {
        OneTrailMeans(cfg, start, trail, workers[r], states[r], r, s, base[r]);
      }
    }
  }

  lemma OneTrailMeans(cfg: RunConfig, start: TrainState, trail: Trail, worker: RankWorker, state: TrainState, r: nat,
                      s: nat, base: seq<Vector>)
    requires IsTrail(cfg, start, trail) && r < cfg.World() && s <= cfg.steps
    ensures OnTrail(cfg, trail, worker, state, r, s, base) == InStep(cfg, start, worker, state, r, s, base)
  {
    assert trail.Reaches(r, s);
    assert trail.states[s] == Lockstep(cfg, start, s) && trail.wires[r][s] == Wire(cfg, start, r, s);
  }

  /** A run of all ranks: every rank contributes what the protocol says, and all hold the common state. */
  method TrainTogether(cfg: RunConfig, start: TrainState, workers: seq<RankWorker>, schedule: seq<seq<Arrival>>)
    returns (ok: bool, states: seq<TrainState>)
    requires cfg.Valid() == true && Ensemble(cfg, workers, 0) == true
    requires |schedule| == cfg.steps && forall s :: 0 <= s < cfg.steps ==> AllCover(cfg, schedule[s]) == true
    modifies Footprint(workers)
    ensures ok && AllInStep(cfg, start, workers, states, cfg.steps, old(Issued(workers))) == true
  {
    ghost var base, trail := Issued(workers), TrailOf(cfg, start);
    states := Copies(start, cfg.World());
    AllBegin(cfg, start, workers);
    TrailMeans(cfg, start, trail, workers, states, 0, base);
    ok, states := TrainAll(cfg, start, trail, workers, states, schedule, base);
    TrailMeans(cfg, start, trail, workers, states, cfg.steps, base);
  }

  method TrainAll(cfg: RunConfig, ghost start: TrainState, ghost trail: Trail, workers: seq<RankWorker>,
                  initial: seq<TrainState>, schedule: seq<seq<Arrival>>, ghost base: seq<seq<Vector>>)
    returns (ok: bool, states: seq<TrainState>)
    requires IsTrail(cfg, start, trail) == true && AllOnTrail(cfg, trail, workers, initial, 0, base) == true
    requires |schedule| == cfg.steps && forall s :: 0 <= s < cfg.steps ==> AllCover(cfg, schedule[s]) == true
    modifies Footprint(workers)
    ensures ok && AllOnTrail(cfg, trail, workers, states, cfg.steps, base) == true
  {
    ok, states := true, initial;
    for s := 0 to cfg.steps
      invariant ok && AllOnTrail(cfg, trail, workers, states, s, base) == true
    {
      ok, states := TrailStep(cfg, start, trail, s, workers, states, schedule[s], base);
    }
  }

  method TrailStep(cfg: RunConfig, ghost start: TrainState, ghost trail: Trail, s: nat, workers: seq<RankWorker>,
                   states: seq<TrainState>, arrivals: seq<Arrival>, ghost base: seq<seq<Vector>>)
    returns (ok: bool, next: seq<TrainState>)
    requires s < cfg.steps && AllCover(cfg, arrivals) == true
    requires IsTrail(cfg, start, trail) == true && AllOnTrail(cfg, trail, workers, states, s, base) == true
    modifies Footprint(workers)
    ensures ok && AllOnTrail(cfg, trail, workers, next, s + 1, base) == true
  {
    TrailMeans(cfg, start, trail, workers, states, s, base);
    ok, next := TrainStep(cfg, start, s, workers, states, arrivals, base);
    TrailMeans(cfg, start, trail, workers, next, s + 1, base);
  }

  function Values(sent: seq<RankProtocol.Contribution>): (values: seq<Vector>)
    ensures |values| == |sent| && forall k :: 0 <= k < |sent| ==> values[k] == sent[k].value
  {
    seq(|sent|, k requires 0 <= k < |sent| => sent[k].value)
  }

  lemma ValuesJoin(a: seq<RankProtocol.Contribution>, b: seq<RankProtocol.Contribution>)
    ensures Values(a + b) == Values(a) + Values(b)
  {
  }

  lemma {:induction false} ValuesJoined(blocks: seq<seq<RankProtocol.Contribution>>, payloads: seq<seq<Vector>>, n: nat)
    requires n <= |blocks| == |payloads|
    requires forall s :: 0 <= s < |blocks| ==> Values(blocks[s]) == payloads[s]
    ensures Values(Joined(blocks, n)) == Joined(payloads, n)
  {
    if n > 0 {
      ValuesJoined(blocks, payloads, n - 1);
      ValuesJoin(Joined(blocks, n - 1), blocks[n - 1]);
    }
  }

  /** Between the token count and the barrier, the protocol's script of a rank is the traffic of its worker. */
  lemma WireIsScript(cfg: RunConfig, start: TrainState, r: nat)
    requires cfg.Valid() && r < cfg.World()
    ensures Values(Script(cfg, start, r))
      == [[cfg.Tokens()[r] as real]] + Wire(cfg, start, r, cfg.steps) + [[1.0]]
  {
    var blocks := GradientBlocks(cfg, start, r);
    forall s | 0 <= s < cfg.steps ensures Values(blocks[s]) == PayloadBlocks(cfg, start, r)[s] {
      ValuesLabelled(s, StepPayloads(cfg, start, r, s));
    }
    ValuesJoined(blocks, PayloadBlocks(cfg, start, r), cfg.steps);
    ValuesFramed([cfg.Tokens()[r] as real], Joined(blocks, cfg.steps), [1.0]);
  }

  lemma ValuesLabelled(s: nat, payloads: seq<Vector>)
    ensures Values(Labelled(s, payloads)) == payloads
  {
  }

  lemma ValuesFramed(tokens: Vector, sent: seq<RankProtocol.Contribution>, barrier: Vector)
    ensures Values(Framed(RankProtocol.Contribution(RankProtocol.TokenCount, tokens), sent,
                          RankProtocol.Contribution(RankProtocol.Barrier, barrier)))
      == [tokens] + Values(sent) + [barrier]
  {
  }

  /** One more worker, new and therefore apart from the others. */
  lemma ApartAppend(workers: seq<RankWorker>, worker: RankWorker)
    requires Apart(workers) && Objects(worker) !! Footprint(workers)
    ensures Apart(workers + [worker]) && Footprint(workers + [worker]) == Footprint(workers) + Objects(worker)
  {
    var more := workers + [worker];
    assert more[..|workers|] == workers;
    forall p, q | 0 <= p < |more| && 0 <= q < |more| && p != q ensures Separate(more[p], more[q]) {
      assert p < |workers| ==> Objects(workers[p]) <= Footprint(workers);
      assert q < |workers| ==> Objects(workers[q]) <= Footprint(workers);
    }
  }

  ghost predicate Launched(cfg: RunConfig, worker: RankWorker, r: nat)
    reads worker, worker.plan, worker.parameters, worker.communicator
  {
    && r < cfg.World() && Stands(worker, cfg.layout, cfg.reducer, Scales(cfg)[r], 0)
    && worker.communicator.issued == [] && worker.communicator.endpoint == Endpoint(r, cfg.World(), r)
  }

  method LaunchWorker(cfg: RunConfig, maximumBytes: nat, r: nat, ghost others: set<object>) returns (worker: RankWorker)
    requires cfg.Valid() && r < cfg.World() && Greedy(cfg.layout.counts, ElementLimit(maximumBytes), cfg.layout.ranges)
    requires cfg.reducer.PerParameter? || maximumBytes >= 4
    ensures fresh(Objects(worker)) && Objects(worker) !! others && Launched(cfg, worker, r) == true
  {
    UnitScale(cfg.tokenWeighted, cfg.Tokens(), r);
    worker := new RankWorker(cfg.reducer, cfg.layout.counts, maximumBytes, cfg.tokenWeighted, Scales(cfg)[r],
                             Endpoint(r, cfg.World(), r), cfg.layout.ranges);
  }

  /** A worker for every rank. */
  method LaunchWorkers(cfg: RunConfig, maximumBytes: nat) returns (workers: seq<RankWorker>)
    requires cfg.Valid() && Greedy(cfg.layout.counts, ElementLimit(maximumBytes), cfg.layout.ranges)
    requires cfg.reducer.PerParameter? || maximumBytes >= 4
    ensures fresh(Footprint(workers)) && Ensemble(cfg, workers, 0)
    ensures forall r :: 0 <= r < cfg.World() ==> Launched(cfg, workers[r], r)
  {
    workers := [];
    for r := 0 to cfg.World()
      invariant |workers| == r && fresh(Footprint(workers)) && Apart(workers)
      invariant forall q :: 0 <= q < r ==> Launched(cfg, workers[q], q) == true
    {
      var worker := LaunchWorker(cfg, maximumBytes, r, Footprint(workers));
      ApartAppend(workers, worker);
      workers := workers + [worker];
    }
  }
}
