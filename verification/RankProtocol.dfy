/** The ranked training run as a transition system: W ranks that agree on a communicator through a file,
    average their token counts, train in lockstep through collectives that complete only when every rank
    has contributed, and publish one checkpoint. */
module RankProtocol {
  import opened Basics
  import opened Vectors
  import opened Reducers
  import opened Training

  /** What a checkpoint records about the experiment besides the training state. */
  datatype Contract = Contract(modelConfig: string, dataConfig: string, rngState: string)

  datatype Saved = Saved(contract: Contract, state: TrainState)

  datatype RunConfig = RunConfig(
    trainer: Trainer, layout: Layout, reducer: Reducer, tokenWeighted: bool,
    batches: seq<seq<Row>>, context: nat, steps: nat,
    seeded: TrainState, contract: Contract,
    resumeFrom: Option<string>, checkpointTo: Option<string>, injectFailure: bool, freshId: nat)
  {
    function World(): nat { |batches| }

    function Tokens(): (tokens: seq<nat>)
      ensures |tokens| == World()
      ensures forall r :: 0 <= r < World() ==> tokens[r] == |batches[r]| * context
    {
      seq(|batches|, r requires 0 <= r < |batches| => |batches[r]| * context)
    }

    ghost predicate Valid() {
      && trainer.Valid() && layout.Valid() && layout.counts == trainer.counts && layout.counts != []
      && World() > 0 && steps > 0
      && (forall r :: 0 <= r < World() ==> Tokens()[r] > 0)
      && (injectFailure ==> checkpointTo.Some?)
    }

    /** Gradient collectives per step. */
    function Width(): nat
    {
      layout.Steps(reducer)
    }

    /** The plan exists after the first step of this process, so only later steps overlap. */
    predicate OverlapAt(s: nat) {
      reducer.Overlaps() && s > 0
    }

    /** After the `j`-th enqueue of step `s` the rank synchronizes before it goes on. */
    predicate Blocks(s: nat, j: nat) {
      j == Width() || (!reducer.PerParameter? && !OverlapAt(s))
    }

    /** The state the run starts from, if the checkpoint to resume exists and has the same contract. */
    function Start(checkpoints: map<string, Saved>): Option<TrainState> {
      match resumeFrom
      case None => Some(seeded)
      case Some(name) =>
        if name in checkpoints && checkpoints[name].contract == contract then Some(checkpoints[name].state) else None
    }
  }

  // ----- states and moves -----------------------------------------------------------------------

  datatype Label = TokenCount | Grad(step: nat, index: nat) | Barrier

  datatype Contribution = Contribution(kind: Label, value: Vector)

  datatype Reason = IdTimeout | Uneven | ContractChanged | Diverged | Injected | ReadyTimeout | Unverified

  datatype Pc =
    | RemoveId | PublishId | AwaitId
    | EnterJoin(id: nat) | InJoin | InTokens
    | Sending(s: nat, j: nat)
    | Waiting(s: nat, j: nat)
    | EnterBarrier | InBarrier
    | Saving | RemovingReady | PublishingReady | AwaitReady | Verifying
    | Done | Failed(reason: Reason)
  {
    predicate Joins() { RemoveId? || PublishId? || AwaitId? || EnterJoin? || InJoin? || InTokens? }
  }

  datatype Rank = Rank(pc: Pc, joined: Option<nat>, sent: seq<Contribution>, scale: real, train: TrainState)

  datatype Files = Files(idFile: Option<nat>, readyFile: Option<nat>, checkpoints: map<string, Saved>)

  datatype State = State(ranks: seq<Rank>, files: Files)

  function Initial(cfg: RunConfig, files: Files): (st: State)
    ensures |st.ranks| == cfg.World()
  {
    State(seq(cfg.World(), r => Rank(if r == 0 then RemoveId else AwaitId, None, [], 1.0, cfg.seeded)), files)
  }

  /** Collective number `k - 1` has been enqueued by every rank. */
  predicate AllSent(st: State, k: nat) {
    forall q :: 0 <= q < |st.ranks| ==> |st.ranks[q].sent| >= k
  }

  predicate AllJoined(st: State, id: Option<nat>) {
    forall q :: 0 <= q < |st.ranks| ==> st.ranks[q].joined == id
  }

  /** What the ranks contributed to collective number `k`. */
  function Inputs(st: State, k: nat): (vs: seq<Vector>)
    ensures |vs| == |st.ranks|
    ensures forall q :: 0 <= q < |st.ranks| && k < |st.ranks[q].sent| ==> vs[q] == st.ranks[q].sent[k].value
  {
    seq(|st.ranks|, q requires 0 <= q < |st.ranks| =>
      if k < |st.ranks[q].sent| then st.ranks[q].sent[k].value else [])
  }

  /** The averaging collective. Buffers of different lengths are outside its contract. */
  function AverageOf(vs: seq<Vector>): Vector {
    if |vs| > 0 && Uniform(vs, |vs[0]|) then Average(vs) else []
  }

  /** Results of the `n` collectives from number `base` on. */
  function Results(st: State, base: nat, n: nat): (results: seq<Vector>)
    ensures |results| == n
    ensures forall j :: 0 <= j < n ==> results[j] == AverageOf(Inputs(st, base + j))
  {
    seq(n, j requires 0 <= j < n => AverageOf(Inputs(st, base + j)))
  }

  datatype Effect = Effect(rank: Rank, files: Files)

  function After(st: State, r: nat, effect: Effect): State
    requires r < |st.ranks|
  {
    State(st.ranks[r := effect.rank], effect.files)
  }

  function Send(me: Rank, kind: Label, value: Vector, pc: Pc): Rank {
    me.(pc := pc, sent := me.sent + [Contribution(kind, value)])
  }

  /** The weighted local gradient of rank `r`. */
  ghost function Own(cfg: RunConfig, r: nat, me: Rank): (g: Gradient)
    requires cfg.Valid() && r < cfg.World()
    ensures Shaped(cfg.layout.counts, g)
  {
    ScaleAll(me.scale, cfg.trainer.MeanGradient(me.train.parameters, cfg.batches[r], cfg.Tokens()[r]))
  }

  ghost function OwnPayloads(cfg: RunConfig, r: nat, me: Rank, s: nat): (p: seq<Vector>)
    requires cfg.Valid() && r < cfg.World()
    ensures |p| == cfg.Width()
  {
    cfg.layout.Payloads(cfg.reducer, cfg.OverlapAt(s), Own(cfg, r, me))
  }

  /** The token collective is complete: equal-only mode rejects, a resumed run restores. */
  function Gate(cfg: RunConfig, st: State, r: nat, average: Vector): Rank
    requires cfg.Valid() && |st.ranks| == cfg.World() && r < cfg.World()
  {
    var me := st.ranks[r];
    if average == [] || (!cfg.tokenWeighted && cfg.Tokens()[r] as real != average[0]) then me.(pc := Failed(Uneven))
    else
      match cfg.Start(st.files.checkpoints)
      case None => me.(pc := Failed(ContractChanged))
      case Some(start) =>
        me.(pc := Sending(0, 0), train := start,
            scale := if cfg.tokenWeighted && average[0] > 0.0 then cfg.Tokens()[r] as real / average[0] else 1.0)
  }

  /** All collectives of step `s` are complete: adopt the averaged gradients and update. */
  function FinishStep(cfg: RunConfig, me: Rank, s: nat, results: seq<Vector>): Rank
    requires cfg.Valid()
  {
    var overlap := cfg.OverlapAt(s);
    var gradient := if cfg.layout.Fits(cfg.reducer, overlap, results)
                    then cfg.layout.Deliver(cfg.reducer, overlap, results) else [];
    var train := cfg.trainer.Step(me.train, gradient, cfg.context);
    me.(train := train, pc :=
      if s + 1 < cfg.steps then Sending(s + 1, 0)
      else if train.optimizer.step != train.globalStep then Failed(Diverged)
      else if cfg.checkpointTo.Some? then EnterBarrier
      else Done)
  }

  function Verify(cfg: RunConfig, st: State, me: Rank): Rank {
    var name := if cfg.checkpointTo.Some? then cfg.checkpointTo.value else "";
    if name in st.files.checkpoints
      && st.files.checkpoints[name].state.globalStep == me.train.globalStep
      && st.files.checkpoints[name].state.optimizer.step == me.train.optimizer.step
      && st.files.checkpoints[name].state.dataCursor == me.train.dataCursor
    then me.(pc := Done)
    else me.(pc := Failed(Unverified))
  }

  /** Agreeing on the communicator and on the token counts. */
  function MoveJoining(cfg: RunConfig, st: State, r: nat): Option<Effect>
    requires cfg.Valid() && |st.ranks| == cfg.World() && r < cfg.World()
  {
    var me, files := st.ranks[r], st.files;
    match me.pc
    case RemoveId => Some(Effect(me.(pc := PublishId), files.(idFile := None)))
    case PublishId => Some(Effect(me.(pc := EnterJoin(cfg.freshId)), files.(idFile := Some(cfg.freshId))))
    case AwaitId => if files.idFile.Some? then Some(Effect(me.(pc := EnterJoin(files.idFile.value)), files)) else None
    case EnterJoin(id) => Some(Effect(me.(pc := InJoin, joined := Some(id)), files))
    case InJoin =>
      if AllJoined(st, me.joined) then Some(Effect(Send(me, TokenCount, [cfg.Tokens()[r] as real], InTokens), files)) else None
    case InTokens =>
      if AllSent(st, |me.sent|) then Some(Effect(Gate(cfg, st, r, AverageOf(Inputs(st, 0))), files)) else None
    case _ => None
  }

  /** Number of the first collective of the step that ends with the last contribution of `me`. */
  function StepBase(cfg: RunConfig, me: Rank): nat {
    if |me.sent| < cfg.Width() then 0 else |me.sent| - cfg.Width()
  }

  /** After a synchronization the rank sends on, or finishes the step. */
  function Proceed(cfg: RunConfig, st: State, me: Rank, s: nat, j: nat): Rank
    requires cfg.Valid()
  {
    if j < cfg.Width() then me.(pc := Sending(s, j))
    else FinishStep(cfg, me, s, Results(st, StepBase(cfg, me), cfg.Width()))
  }

  /** The gradient collectives of one step. */
  ghost function MoveTraining(cfg: RunConfig, st: State, r: nat): Option<Effect>
    requires cfg.Valid() && |st.ranks| == cfg.World() && r < cfg.World()
  {
    var me, files := st.ranks[r], st.files;
    match me.pc
    case Sending(s, j) =>
      if j < cfg.Width()
      then Some(Effect(Send(me, Grad(s, j), OwnPayloads(cfg, r, me, s)[j],
                            if cfg.Blocks(s, j + 1) then Waiting(s, j + 1) else Sending(s, j + 1)), files))
      else None
    case Waiting(s, j) => if AllSent(st, |me.sent|) then Some(Effect(Proceed(cfg, st, me, s, j), files)) else None
    case _ => None
  }

  /** The final barrier and the publication of the checkpoint. */
  function MoveClosing(cfg: RunConfig, st: State, r: nat): Option<Effect>
    requires |st.ranks| == cfg.World() && r < cfg.World()
  {
    var me, files := st.ranks[r], st.files;
    match me.pc
    case EnterBarrier => Some(Effect(Send(me, Barrier, [1.0], InBarrier), files))
    case InBarrier =>
      if AllSent(st, |me.sent|) then Some(Effect(me.(pc := if r == 0 then Saving else AwaitReady), files)) else None
    case Saving =>
      if cfg.injectFailure || cfg.checkpointTo.None? then Some(Effect(me.(pc := Failed(Injected)), files))
      else Some(Effect(me.(pc := RemovingReady),
                       files.(checkpoints := files.checkpoints[cfg.checkpointTo.value := Saved(cfg.contract, me.train)])))
    case RemovingReady => Some(Effect(me.(pc := PublishingReady), files.(readyFile := None)))
    case PublishingReady => Some(Effect(me.(pc := Verifying), files.(readyFile := Some(me.train.globalStep))))
    case AwaitReady =>
      if files.readyFile == Some(me.train.globalStep) then Some(Effect(me.(pc := Verifying), files)) else None
    case Verifying => Some(Effect(Verify(cfg, st, me), files))
    case _ => None
  }

  /** One move of rank `r`, if it is not blocked. */
  ghost function Move(cfg: RunConfig, st: State, r: nat): Option<Effect>
    requires cfg.Valid() && |st.ranks| == cfg.World() && r < cfg.World()
  {
    if st.ranks[r].pc.Sending? || st.ranks[r].pc.Waiting? then MoveTraining(cfg, st, r)
    else if st.ranks[r].pc.Joins() then MoveJoining(cfg, st, r)
    else MoveClosing(cfg, st, r)
  }

  /** A wait for a file may run out of time instead. */
  function GiveUp(me: Rank): Rank {
    match me.pc
    case AwaitId => me.(pc := Failed(IdTimeout))
    case AwaitReady => me.(pc := Failed(ReadyTimeout))
    case _ => me
  }

  datatype Event = Run(r: nat) | Timeout(r: nat)

  ghost function Apply(cfg: RunConfig, st: State, event: Event): (next: State)
    requires cfg.Valid() && |st.ranks| == cfg.World()
    ensures |next.ranks| == cfg.World()
  {
    if event.r >= cfg.World() then st
    else
      match event
      case Run(r) =>
        var move := Move(cfg, st, r);
        if move.Some? then After(st, r, move.value) else st
      case Timeout(r) => After(st, r, Effect(GiveUp(st.ranks[r]), st.files))
  }

  /** A run: any interleaving of moves and timeouts. */
  ghost function Execute(cfg: RunConfig, st: State, events: seq<Event>): (end: State)
    requires cfg.Valid() && |st.ranks| == cfg.World()
    ensures |end.ranks| == cfg.World()
  {
    if events == [] then st
    else Apply(cfg, Execute(cfg, st, events[..|events| - 1]), events[|events| - 1])
  }
}
