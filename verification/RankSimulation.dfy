/** Every run of the ranked protocol simulates single-process training on the concatenated batch. */
module RankSimulation {
  import opened Basics
  import opened Vectors
  import opened Reducers
  import opened Training
  import opened RankProtocol
  import opened RankControl

  // ----- the common sequence of collectives -------------------------------------------------------

  /** The weighted local gradient of rank `r` in a given state. */
  ghost function Local(cfg: RunConfig, state: TrainState, r: nat): (g: Gradient)
    requires cfg.Valid() && r < cfg.World()
    ensures Shaped(cfg.layout.counts, g)
  {
    ScaleAll(RankScale(cfg.tokenWeighted, cfg.Tokens(), r),
             cfg.trainer.MeanGradient(state.parameters, cfg.batches[r], cfg.Tokens()[r]))
  }

  ghost function Locals(cfg: RunConfig, state: TrainState): (gs: seq<Gradient>)
    requires cfg.Valid()
    ensures |gs| == cfg.World() && SameShape(cfg.layout.counts, gs)
    ensures forall r :: 0 <= r < cfg.World() ==> gs[r] == Local(cfg, state, r)
  {
    seq(cfg.World(), r requires 0 <= r < cfg.World() => Local(cfg, state, r))
  }

  /** The state every rank holds after `s` steps. */
  ghost function Lockstep(cfg: RunConfig, start: TrainState, s: nat): TrainState
    requires cfg.Valid()
  {
    if s == 0 then start
    else
      var state := Lockstep(cfg, start, s - 1);
      cfg.trainer.Step(state, AverageAll(cfg.layout.counts, Locals(cfg, state)), cfg.context)
  }

  ghost function StepPayloads(cfg: RunConfig, start: TrainState, q: nat, s: nat): (p: seq<Vector>)
    requires cfg.Valid() && q < cfg.World()
    ensures |p| == cfg.Width()
  {
    cfg.layout.Payloads(cfg.reducer, cfg.OverlapAt(s), Local(cfg, Lockstep(cfg, start, s), q))
  }

  function Labelled(s: nat, payloads: seq<Vector>): (c: seq<Contribution>)
    ensures |c| == |payloads|
    ensures forall j :: 0 <= j < |payloads| ==> c[j] == Contribution(Grad(s, j), payloads[j])
  {
    seq(|payloads|, j requires 0 <= j < |payloads| => Contribution(Grad(s, j), payloads[j]))
  }

  /** The gradient contributions of rank `q`, step by step. */
  ghost function GradientBlocks(cfg: RunConfig, start: TrainState, q: nat): (blocks: seq<seq<Contribution>>)
    requires cfg.Valid() && q < cfg.World()
    ensures |blocks| == cfg.steps && FixedWidth(blocks, cfg.Width())
    ensures forall s :: 0 <= s < cfg.steps ==> blocks[s] == Labelled(s, StepPayloads(cfg, start, q, s))
  {
    seq(cfg.steps, s requires 0 <= s < cfg.steps => Labelled(s, StepPayloads(cfg, start, q, s)))
  }

  predicate FixedWidth<T>(blocks: seq<seq<T>>, width: nat) {
    forall s :: 0 <= s < |blocks| ==> |blocks[s]| == width
  }

  function Joined<T>(blocks: seq<seq<T>>, n: nat): seq<T>
    requires n <= |blocks|
  {
    if n == 0 then [] else Joined(blocks, n - 1) + blocks[n - 1]
  }

  lemma {:induction false} JoinedLength<T>(blocks: seq<seq<T>>, width: nat, n: nat)
    requires n <= |blocks| && FixedWidth(blocks, width)
    ensures |Joined(blocks, n)| == Offset(width, n)
  {
    if n > 0 {
      JoinedLength(blocks, width, n - 1);
    }
  }

  lemma {:induction false} JoinedAt<T>(blocks: seq<seq<T>>, width: nat, n: nat, s: nat, j: nat)
    requires s < n <= |blocks| && FixedWidth(blocks, width) && j < width
    ensures Offset(width, s) + j < |Joined(blocks, n)|
    ensures Joined(blocks, n)[Offset(width, s) + j] == blocks[s][j]
  {
    JoinedLength(blocks, width, n - 1);
    if s < n - 1 {
      JoinedAt(blocks, width, n - 1, s, j);
    }
  }

  function Framed<T>(head: T, body: seq<T>, tail: T): seq<T> {
    [head] + body + [tail]
  }

  lemma FramedAt<T>(head: T, blocks: seq<seq<T>>, tail: T, width: nat, n: nat, s: nat, j: nat)
    requires s < n <= |blocks| && FixedWidth(blocks, width) && j < width
    ensures |Framed(head, Joined(blocks, n), tail)| == Offset(width, n) + 2
    ensures 1 + Offset(width, s) + j < 1 + Offset(width, n)
    ensures Framed(head, Joined(blocks, n), tail)[1 + Offset(width, s) + j] == blocks[s][j]
  {
    JoinedLength(blocks, width, n);
    JoinedAt(blocks, width, n, s, j);
  }

  /** Everything rank `q` contributes in a complete run. */
  ghost function Script(cfg: RunConfig, start: TrainState, q: nat): (c: seq<Contribution>)
    requires cfg.Valid() && q < cfg.World()
    ensures |c| == Base(cfg, cfg.steps) + 1
  {
    JoinedLength(GradientBlocks(cfg, start, q), cfg.Width(), cfg.steps);
    Framed(Contribution(TokenCount, [cfg.Tokens()[q] as real]),
           Joined(GradientBlocks(cfg, start, q), cfg.steps),
           Contribution(Barrier, [1.0]))
  }

  lemma ScriptAt(cfg: RunConfig, start: TrainState, q: nat, s: nat, j: nat)
    requires cfg.Valid() && q < cfg.World() && s < cfg.steps && j < cfg.Width()
    ensures Base(cfg, s) + j < Base(cfg, cfg.steps)
    ensures Script(cfg, start, q)[Base(cfg, s) + j] == Contribution(Grad(s, j), StepPayloads(cfg, start, q, s)[j])
  {
    var blocks := GradientBlocks(cfg, start, q);
    assert blocks[s][j] == Contribution(Grad(s, j), StepPayloads(cfg, start, q, s)[j]);
    FramedAt(Contribution(TokenCount, [cfg.Tokens()[q] as real]), blocks, Contribution(Barrier, [1.0]),
             cfg.Width(), cfg.steps, s, j);
  }

  lemma ScriptEnds(cfg: RunConfig, start: TrainState, q: nat)
    requires cfg.Valid() && q < cfg.World()
    ensures Script(cfg, start, q)[0] == Contribution(TokenCount, [cfg.Tokens()[q] as real])
    ensures Script(cfg, start, q)[Base(cfg, cfg.steps)] == Contribution(Barrier, [1.0])
  {
    JoinedLength(GradientBlocks(cfg, start, q), cfg.Width(), cfg.steps);
  }

  // ----- the invariant ------------------------------------------------------------------------------

  /** The rank has passed the token count check and restored its state. */
  predicate PastGate(pc: Pc) {
    match pc
    case Failed(reason) => reason != IdTimeout && reason != Uneven && reason != ContractChanged
    case _ => !pc.Joins()
  }

  /** Steps the rank has completed. */
  function Completed(cfg: RunConfig, pc: Pc): nat {
    match pc
    case Sending(s, _) => s
    case Waiting(s, _) => s
    case _ => cfg.steps
  }

  predicate Accepts(cfg: RunConfig, r: nat)
    requires r < cfg.World()
  {
    cfg.tokenWeighted || !Rejects(cfg.Tokens(), r)
  }

  /** The rank was admitted and has trained for `s` steps. */
  ghost predicate Trained(cfg: RunConfig, start: TrainState, files: Files, rank: Rank, r: nat, s: nat)
    requires cfg.Valid() && r < cfg.World()
  {
    && cfg.Start(files.checkpoints) == Some(start)
    && Accepts(cfg, r)
    && rank.scale == RankScale(cfg.tokenWeighted, cfg.Tokens(), r)
    && rank.train == Lockstep(cfg, start, s)
  }

  ghost predicate RankFollows(cfg: RunConfig, start: TrainState, files: Files, rank: Rank, r: nat)
    requires cfg.Valid() && r < cfg.World()
  {
    && rank.sent <= Script(cfg, start, r)
    && (PastGate(rank.pc) ==> Trained(cfg, start, files, rank, r, Completed(cfg, rank.pc)))
    && (rank.pc == Failed(Uneven) ==> !Accepts(cfg, r))
    && (rank.pc == Failed(ContractChanged) ==> Accepts(cfg, r) && cfg.Start(files.checkpoints).None?)
    && (rank.pc == Failed(Diverged) ==> rank.train.optimizer.step != rank.train.globalStep)
  }

  /** The checkpoint files after rank 0 saved. */
  ghost function AfterSave(cfg: RunConfig, start: TrainState, files: Files): map<string, Saved>
    requires cfg.Valid()
  {
    if cfg.checkpointTo.None? then files.checkpoints
    else files.checkpoints[cfg.checkpointTo.value := Saved(cfg.contract, Lockstep(cfg, start, cfg.steps))]
  }

  /** How far rank 0 has come in publishing the checkpoint. */
  datatype Phase = Untouched | Stored | Withdrawn | Announced

  function PhaseOf(cfg: RunConfig, pc: Pc): Phase {
    match pc
    case RemovingReady => Stored
    case PublishingReady => Withdrawn
    case Verifying => Announced
    case Failed(reason) => if reason == Unverified then Announced else Untouched
    case Done => if cfg.checkpointTo.Some? then Announced else Untouched
    case _ => Untouched
  }

  /** The files are what rank 0 has made of the initial `files`. */
  ghost predicate FilesIn(cfg: RunConfig, start: TrainState, files: Files, phase: Phase, now: Files)
    requires cfg.Valid()
  {
    match phase
    case Untouched => SameCheckpoints(now, files)
    case Stored => now.checkpoints == AfterSave(cfg, start, files) && now.readyFile == files.readyFile
    case Withdrawn => now.checkpoints == AfterSave(cfg, start, files) && now.readyFile == None
    case Announced =>
      && now.checkpoints == AfterSave(cfg, start, files)
      && now.readyFile == Some(Lockstep(cfg, start, cfg.steps).globalStep)
  }

  predicate SameCheckpoints(now: Files, before: Files) {
    now.checkpoints == before.checkpoints && now.readyFile == before.readyFile
  }

  ghost predicate Follows(cfg: RunConfig, start: TrainState, files: Files, st: State) {
    && cfg.Valid() && Counted(cfg, st)
    && (forall r :: 0 <= r < cfg.World() ==> RankFollows(cfg, start, files, st.ranks[r], r))
    && FilesIn(cfg, start, files, PhaseOf(cfg, st.ranks[0].pc), st.files)
  }

  /** The state the run starts from, or the seeded one if there is nothing to resume. */
  function StartOr(cfg: RunConfig, files: Files): TrainState {
    match cfg.Start(files.checkpoints)
    case Some(start) => start
    case None => cfg.seeded
  }

  lemma InitialFollows(cfg: RunConfig, files: Files)
    requires cfg.Valid()
    ensures Follows(cfg, StartOr(cfg, files), files, Initial(cfg, files))
  {
    InitialCounted(cfg, files);
    forall r | 0 <= r < cfg.World()
      ensures RankFollows(cfg, StartOr(cfg, files), files, Initial(cfg, files).ranks[r], r)
    {
      NewcomerFollows(cfg, StartOr(cfg, files), files, Initial(cfg, files).ranks[r], r);
    }
  }

  lemma NewcomerFollows(cfg: RunConfig, start: TrainState, files: Files, rank: Rank, r: nat)
    requires cfg.Valid() && r < cfg.World() && rank.sent == [] && rank.pc.Joins()
    ensures RankFollows(cfg, start, files, rank, r)
  {
  }

  // ----- the token collective --------------------------------------------------------------------------

  function TokenVectors(tokens: seq<nat>): (vs: seq<Vector>)
    ensures |vs| == |tokens|
    ensures forall q :: 0 <= q < |tokens| ==> vs[q] == [tokens[q] as real]
  {
    seq(|tokens|, q requires 0 <= q < |tokens| => [tokens[q] as real])
  }

  lemma {:induction false} TokenColumn(tokens: seq<nat>)
    ensures Column(TokenVectors(tokens), 0) == Sum(tokens) as real
  {
    if tokens != [] {
      assert TokenVectors(tokens)[1..] == TokenVectors(tokens[1..]);
      TokenColumn(tokens[1..]);
    }
  }

  lemma TokensAveraged(cfg: RunConfig, start: TrainState, files: Files, st: State)
    requires Follows(cfg, start, files, st) && AllSent(st, 1)
    ensures AverageOf(Inputs(st, 0)) == [AverageTokens(cfg.Tokens())]
  {
    var tokens := cfg.Tokens();
    forall q | 0 <= q < cfg.World() ensures Inputs(st, 0)[q] == TokenVectors(tokens)[q] {
      assert RankFollows(cfg, start, files, st.ranks[q], q);
      ScriptEnds(cfg, start, q);
    }
    assert Inputs(st, 0) == TokenVectors(tokens);
    TokenColumn(tokens);
    assert Average(TokenVectors(tokens)) == [AverageTokens(tokens)];
  }

  // ----- the gradient collectives -----------------------------------------------------------------------

  lemma ResultsAreCollected(cfg: RunConfig, start: TrainState, files: Files, st: State, s: nat)
    requires Follows(cfg, start, files, st) && s < cfg.steps && AllSent(st, Base(cfg, s + 1))
    ensures Results(st, Base(cfg, s), cfg.Width())
      == Collect(cfg.layout, cfg.reducer, cfg.OverlapAt(s), Locals(cfg, Lockstep(cfg, start, s)))
  {
    var ws := Locals(cfg, Lockstep(cfg, start, s));
    var payloads := AllPayloads(cfg.layout, cfg.reducer, cfg.OverlapAt(s), ws);
    PayloadsUniform(cfg.layout, cfg.reducer, cfg.OverlapAt(s), ws);
    forall j | 0 <= j < cfg.Width()
      ensures Inputs(st, Base(cfg, s) + j) == Pick(payloads, j)
    {
      forall q | 0 <= q < cfg.World() ensures Inputs(st, Base(cfg, s) + j)[q] == Pick(payloads, j)[q] {
        ContributionAt(cfg, start, files, st, s, j, q);
      }
    }
  }

  lemma ContributionAt(cfg: RunConfig, start: TrainState, files: Files, st: State, s: nat, j: nat, q: nat)
    requires Follows(cfg, start, files, st) && s < cfg.steps && AllSent(st, Base(cfg, s + 1))
    requires j < cfg.Width() && q < cfg.World()
    ensures Inputs(st, Base(cfg, s) + j)[q] == StepPayloads(cfg, start, q, s)[j]
  {
    assert RankFollows(cfg, start, files, st.ranks[q], q);
    ScriptAt(cfg, start, q, s, j);
  }

  /** The results of step `s` deliver the average of the local gradients. */
  lemma ResultsDeliver(cfg: RunConfig, start: TrainState, files: Files, st: State, s: nat)
    requires Follows(cfg, start, files, st) && s < cfg.steps && AllSent(st, Base(cfg, s + 1))
    ensures var results := Results(st, Base(cfg, s), cfg.Width());
      && cfg.layout.Fits(cfg.reducer, cfg.OverlapAt(s), results)
      && cfg.layout.Deliver(cfg.reducer, cfg.OverlapAt(s), results)
           == AverageAll(cfg.layout.counts, Locals(cfg, Lockstep(cfg, start, s)))
  {
    ResultsAreCollected(cfg, start, files, st, s);
    ReducerIndependence(cfg.layout, cfg.reducer, cfg.OverlapAt(s), Locals(cfg, Lockstep(cfg, start, s)));
  }

  lemma FinishTrain(cfg: RunConfig, start: TrainState, me: Rank, s: nat, results: seq<Vector>)
    requires cfg.Valid() && me.train == Lockstep(cfg, start, s)
    requires cfg.layout.Fits(cfg.reducer, cfg.OverlapAt(s), results)
    requires cfg.layout.Deliver(cfg.reducer, cfg.OverlapAt(s), results)
      == AverageAll(cfg.layout.counts, Locals(cfg, Lockstep(cfg, start, s)))
    ensures FinishStep(cfg, me, s, results).train == Lockstep(cfg, start, s + 1)
  {
  }

  lemma WaitingTrain(cfg: RunConfig, start: TrainState, files: Files, me: Rank, r: nat, s: nat)
    requires cfg.Valid() && r < cfg.World() && RankFollows(cfg, start, files, me, r)
    requires me.pc == Waiting(s, cfg.Width())
    ensures me.train == Lockstep(cfg, start, s)
  {
  }

  /** Completing a step is one step of the common training state. */
  lemma StepAdvances(cfg: RunConfig, start: TrainState, files: Files, st: State, r: nat, s: nat)
    requires Follows(cfg, start, files, st) && r < cfg.World() && s < cfg.steps
    requires st.ranks[r].pc == Waiting(s, cfg.Width()) && AllSent(st, Base(cfg, s + 1))
    ensures FinishStep(cfg, st.ranks[r], s, Results(st, Base(cfg, s), cfg.Width())).train == Lockstep(cfg, start, s + 1)
  {
    assert RankFollows(cfg, start, files, st.ranks[r], r);
    WaitingTrain(cfg, start, files, st.ranks[r], r, s);
    ResultsDeliver(cfg, start, files, st, s);
    FinishTrain(cfg, start, st.ranks[r], s, Results(st, Base(cfg, s), cfg.Width()));
  }

  // ----- preservation -------------------------------------------------------------------------------------

  lemma ExtendPrefix<T>(sent: seq<T>, script: seq<T>, item: T)
    requires sent <= script && |sent| < |script| && script[|sent|] == item
    ensures sent + [item] <= script
  {
  }

  lemma PublishingIsSynced(cfg: RunConfig, pc: Pc)
    requires PhaseOf(cfg, pc) != Untouched
    ensures Synced(cfg, pc) == Base(cfg, cfg.steps) + 1
  {
  }

  /** Before the end of training rank 0 has not touched the checkpoint. */
  lemma CheckpointsUntouched(cfg: RunConfig, start: TrainState, files: Files, st: State, r: nat)
    requires Follows(cfg, start, files, st) && r < cfg.World() && |st.ranks[r].sent| <= Base(cfg, cfg.steps)
    ensures PhaseOf(cfg, st.ranks[0].pc) == Untouched && SameCheckpoints(st.files, files)
  {
    assert RankCounted(cfg, st, 0);
    if PhaseOf(cfg, st.ranks[0].pc) != Untouched {
      PublishingIsSynced(cfg, st.ranks[0].pc);
    }
  }

  lemma GateFollows(cfg: RunConfig, start: TrainState, files: Files, st: State, r: nat)
    requires Follows(cfg, start, files, st) && r < cfg.World()
    requires st.ranks[r].pc == InTokens && AllSent(st, 1) && start == StartOr(cfg, files)
    ensures RankFollows(cfg, start, files, Gate(cfg, st, r, AverageOf(Inputs(st, 0))), r)
  {
    assert RankCounted(cfg, st, r);
    assert RankFollows(cfg, start, files, st.ranks[r], r);
    TokensAveraged(cfg, start, files, st);
    CheckpointsUntouched(cfg, start, files, st, r);
    GateDecides(cfg, start, files, st, r);
  }

  lemma GateDecides(cfg: RunConfig, start: TrainState, files: Files, st: State, r: nat)
    requires cfg.Valid() && |st.ranks| == cfg.World() && r < cfg.World()
    requires st.ranks[r].sent <= Script(cfg, start, r)
    requires st.files.checkpoints == files.checkpoints && start == StartOr(cfg, files)
    ensures RankFollows(cfg, start, files, Gate(cfg, st, r, [AverageTokens(cfg.Tokens())]), r)
  {
    var average, _, _ := AverageTokensPositive(cfg.Tokens());
    var next := Gate(cfg, st, r, [average]);
    GateCases(cfg, st, r, average);
    if next.pc == Sending(0, 0) {
      assert Trained(cfg, start, files, next, r, 0);
    }
  }

  /** The three outcomes of the gate. */
  lemma GateCases(cfg: RunConfig, st: State, r: nat, average: real)
    requires cfg.Valid() && |st.ranks| == cfg.World() && r < cfg.World()
    requires average == AverageTokens(cfg.Tokens()) > 0.0
    ensures var next := Gate(cfg, st, r, [average]);
      && next.sent == st.ranks[r].sent
      && (!Accepts(cfg, r) ==> next.pc == Failed(Uneven))
      && (Accepts(cfg, r) && cfg.Start(st.files.checkpoints).None? ==> next.pc == Failed(ContractChanged))
      && (Accepts(cfg, r) && cfg.Start(st.files.checkpoints).Some? ==>
            && next.pc == Sending(0, 0) && next.train == cfg.Start(st.files.checkpoints).value
            && next.scale == RankScale(cfg.tokenWeighted, cfg.Tokens(), r))
  {
  }

  lemma JoiningFollows(cfg: RunConfig, start: TrainState, files: Files, st: State, r: nat)
    requires Follows(cfg, start, files, st) && r < cfg.World() && MoveJoining(cfg, st, r).Some?
    requires start == StartOr(cfg, files)
    ensures RankFollows(cfg, start, files, MoveJoining(cfg, st, r).value.rank, r)
  {
    assert RankCounted(cfg, st, r);
    assert RankFollows(cfg, start, files, st.ranks[r], r);
    ScriptEnds(cfg, start, r);
    if st.ranks[r].pc.InTokens? {
      GateFollows(cfg, start, files, st, r);
    } else if st.ranks[r].pc.InJoin? {
      ExtendPrefix(st.ranks[r].sent, Script(cfg, start, r), Contribution(TokenCount, [cfg.Tokens()[r] as real]));
    }
  }

  lemma SendingFollows(cfg: RunConfig, start: TrainState, files: Files, st: State, r: nat, s: nat, j: nat)
    requires Follows(cfg, start, files, st) && r < cfg.World() && st.ranks[r].pc == Sending(s, j)
    ensures s < cfg.steps && j < cfg.Width()
    ensures st.ranks[r].sent + [Contribution(Grad(s, j), OwnPayloads(cfg, r, st.ranks[r], s)[j])] <= Script(cfg, start, r)
  {
    assert RankCounted(cfg, st, r);
    assert RankFollows(cfg, start, files, st.ranks[r], r);
    ScriptAt(cfg, start, r, s, j);
    assert OwnPayloads(cfg, r, st.ranks[r], s) == StepPayloads(cfg, start, r, s);
    ExtendPrefix(st.ranks[r].sent, Script(cfg, start, r), Contribution(Grad(s, j), StepPayloads(cfg, start, r, s)[j]));
  }

  lemma FinishFollows(cfg: RunConfig, start: TrainState, files: Files, me: Rank, r: nat, s: nat, results: seq<Vector>)
    requires cfg.Valid() && r < cfg.World() && s < cfg.steps && me.pc == Waiting(s, cfg.Width())
    requires RankFollows(cfg, start, files, me, r)
    requires FinishStep(cfg, me, s, results).train == Lockstep(cfg, start, s + 1)
    ensures RankFollows(cfg, start, files, FinishStep(cfg, me, s, results), r)
  {
    FinishPc(cfg, me, s, results);
    Carry(cfg, start, files, me, FinishStep(cfg, me, s, results), r);
  }

  lemma FinishPc(cfg: RunConfig, me: Rank, s: nat, results: seq<Vector>)
    requires cfg.Valid() && s < cfg.steps
    ensures var pc := FinishStep(cfg, me, s, results).pc;
      Completed(cfg, pc) == s + 1 && PastGate(pc)
  {
  }

  /** A rank that sends nothing keeps following when its state matches its new program counter. */
  lemma Carry(cfg: RunConfig, start: TrainState, files: Files, me: Rank, next: Rank, r: nat)
    requires cfg.Valid() && r < cfg.World() && RankFollows(cfg, start, files, me, r)
    requires next.sent == me.sent && PastGate(me.pc) && PastGate(next.pc) && next.scale == me.scale
    requires next.train == Lockstep(cfg, start, Completed(cfg, next.pc))
    requires next.pc == Failed(Diverged) ==> next.train.optimizer.step != next.train.globalStep
    ensures RankFollows(cfg, start, files, next, r)
  {
  }

  lemma ClosingPc(cfg: RunConfig, st: State, r: nat)
    requires |st.ranks| == cfg.World() && r < cfg.World() && MoveClosing(cfg, st, r).Some?
    ensures PastGate(st.ranks[r].pc) && Completed(cfg, st.ranks[r].pc) == cfg.steps
    ensures var next := MoveClosing(cfg, st, r).value.rank;
      && PastGate(next.pc) && Completed(cfg, next.pc) == cfg.steps
      && next.scale == st.ranks[r].scale && next.train == st.ranks[r].train
      && next.sent == if st.ranks[r].pc.EnterBarrier? then st.ranks[r].sent + [Contribution(Barrier, [1.0])] else st.ranks[r].sent
  {
  }

  lemma ProceedIs(cfg: RunConfig, st: State, me: Rank, s: nat, j: nat, base: nat)
    requires cfg.Valid() && |me.sent| == base + j && j <= cfg.Width()
    ensures j < cfg.Width() ==> Proceed(cfg, st, me, s, j) == me.(pc := Sending(s, j))
    ensures j == cfg.Width() ==> Proceed(cfg, st, me, s, j) == FinishStep(cfg, me, s, Results(st, base, cfg.Width()))
  {
    if j == cfg.Width() {
      assert StepBase(cfg, me) == base;
    }
  }

  lemma WaitingMove(cfg: RunConfig, st: State, r: nat, s: nat, j: nat)
    requires cfg.Valid() && |st.ranks| == cfg.World() && r < cfg.World()
    requires st.ranks[r].pc == Waiting(s, j) && MoveTraining(cfg, st, r).Some?
    ensures AllSent(st, |st.ranks[r].sent|)
    ensures MoveTraining(cfg, st, r).value.rank == Proceed(cfg, st, st.ranks[r], s, j)
  {
  }

  lemma WaitingFollows(cfg: RunConfig, start: TrainState, files: Files, st: State, r: nat, s: nat, j: nat)
    requires Follows(cfg, start, files, st) && r < cfg.World() && st.ranks[r].pc == Waiting(s, j)
    requires MoveTraining(cfg, st, r).Some?
    ensures RankFollows(cfg, start, files, MoveTraining(cfg, st, r).value.rank, r)
  {
    assert RankCounted(cfg, st, r);
    WaitingMove(cfg, st, r, s, j);
    var me := st.ranks[r];
    ProceedIs(cfg, st, me, s, j, Base(cfg, s));
    assert RankFollows(cfg, start, files, me, r);
    if j == cfg.Width() {
      assert Base(cfg, s + 1) == Base(cfg, s) + j;
      StepAdvances(cfg, start, files, st, r, s);
      FinishFollows(cfg, start, files, me, r, s, Results(st, Base(cfg, s), cfg.Width()));
    } else {
      Carry(cfg, start, files, me, me.(pc := Sending(s, j)), r);
    }
  }

  lemma TrainingFollows(cfg: RunConfig, start: TrainState, files: Files, st: State, r: nat)
    requires Follows(cfg, start, files, st) && r < cfg.World() && MoveTraining(cfg, st, r).Some?
    ensures RankFollows(cfg, start, files, MoveTraining(cfg, st, r).value.rank, r)
  {
    match st.ranks[r].pc
    case Sending(s, j) => {
      SendingFollows(cfg, start, files, st, r, s, j);
      assert RankFollows(cfg, start, files, st.ranks[r], r);
    }
    case Waiting(s, j) => {
      WaitingFollows(cfg, start, files, st, r, s, j);
    }
  }

  lemma ClosingFollows(cfg: RunConfig, start: TrainState, files: Files, st: State, r: nat)
    requires cfg.Valid() && |st.ranks| == cfg.World() && r < cfg.World() && MoveClosing(cfg, st, r).Some?
    requires |st.ranks[r].sent| == SentCount(cfg, st.ranks[r].pc) && RankFollows(cfg, start, files, st.ranks[r], r)
    ensures RankFollows(cfg, start, files, MoveClosing(cfg, st, r).value.rank, r)
  {
    ClosingPc(cfg, st, r);
    var me, next := st.ranks[r], MoveClosing(cfg, st, r).value.rank;
    if me.pc.EnterBarrier? {
      ScriptEnds(cfg, start, r);
      ExtendPrefix(me.sent, Script(cfg, start, r), Contribution(Barrier, [1.0]));
      Carry(cfg, start, files, me.(sent := next.sent), next, r);
    } else {
      Carry(cfg, start, files, me, next, r);
    }
  }

  lemma MoveFollows(cfg: RunConfig, start: TrainState, files: Files, st: State, r: nat)
    requires Follows(cfg, start, files, st) && r < cfg.World() && Move(cfg, st, r).Some?
    requires start == StartOr(cfg, files)
    ensures RankFollows(cfg, start, files, Move(cfg, st, r).value.rank, r)
  {
    var pc := st.ranks[r].pc;
    if pc.Sending? || pc.Waiting? {
      TrainingFollows(cfg, start, files, st, r);
    } else if pc.Joins() {
      JoiningFollows(cfg, start, files, st, r);
    } else {
      assert RankCounted(cfg, st, r);
      assert RankFollows(cfg, start, files, st.ranks[r], r);
      ClosingFollows(cfg, start, files, st, r);
    }
  }

  /** Rank 0 goes through the phases one by one, and a phase says what happened to the files. */
  predicate PhaseStep(cfg: RunConfig, train: TrainState, phase: Phase, now: Files, phase': Phase, now': Files) {
    || (phase' == phase && SameCheckpoints(now', now))
    || (phase == Untouched && phase' == Stored && now'.readyFile == now.readyFile && cfg.checkpointTo.Some?
        && now'.checkpoints == now.checkpoints[cfg.checkpointTo.value := Saved(cfg.contract, train)])
    || (phase == Stored && phase' == Withdrawn && now'.checkpoints == now.checkpoints && now'.readyFile == None)
    || (phase == Withdrawn && phase' == Announced && now'.checkpoints == now.checkpoints
        && now'.readyFile == Some(train.globalStep))
  }

  lemma PhaseStepFiles(cfg: RunConfig, start: TrainState, files: Files, train: TrainState, phase: Phase,
                       now: Files, phase': Phase, now': Files)
    requires cfg.Valid() && FilesIn(cfg, start, files, phase, now)
    requires phase' == phase || train == Lockstep(cfg, start, cfg.steps)
    requires PhaseStep(cfg, train, phase, now, phase', now')
    ensures FilesIn(cfg, start, files, phase', now')
  {
  }

  lemma TrainingFiles(cfg: RunConfig, st: State, r: nat)
    requires cfg.Valid() && |st.ranks| == cfg.World() && r < cfg.World() && MoveTraining(cfg, st, r).Some?
    ensures MoveTraining(cfg, st, r).value.files == st.files
    ensures PhaseOf(cfg, MoveTraining(cfg, st, r).value.rank.pc) == Untouched
  {
  }

  lemma JoiningFiles(cfg: RunConfig, st: State, r: nat)
    requires cfg.Valid() && |st.ranks| == cfg.World() && r < cfg.World() && MoveJoining(cfg, st, r).Some?
    ensures SameCheckpoints(MoveJoining(cfg, st, r).value.files, st.files)
    ensures PhaseOf(cfg, MoveJoining(cfg, st, r).value.rank.pc) == Untouched
  {
  }

  lemma ClosingFiles(cfg: RunConfig, st: State)
    requires |st.ranks| == cfg.World() && 0 < cfg.World() && MoveClosing(cfg, st, 0).Some?
    requires Placed(cfg, 0, st.ranks[0].pc)
    ensures var effect := MoveClosing(cfg, st, 0).value;
      PhaseStep(cfg, st.ranks[0].train, PhaseOf(cfg, st.ranks[0].pc), st.files, PhaseOf(cfg, effect.rank.pc), effect.files)
  {
  }

  lemma OthersKeepFiles(cfg: RunConfig, st: State, r: nat)
    requires |st.ranks| == cfg.World() && 0 < r < cfg.World() && Placed(cfg, r, st.ranks[r].pc)
    requires MoveClosing(cfg, st, r).Some?
    ensures MoveClosing(cfg, st, r).value.files == st.files
  {
  }

  lemma ClosingFilesFollow(cfg: RunConfig, start: TrainState, files: Files, st: State)
    requires cfg.Valid() && |st.ranks| == cfg.World() && MoveClosing(cfg, st, 0).Some?
    requires Placed(cfg, 0, st.ranks[0].pc) && RankFollows(cfg, start, files, st.ranks[0], 0)
    requires FilesIn(cfg, start, files, PhaseOf(cfg, st.ranks[0].pc), st.files)
    ensures var effect := MoveClosing(cfg, st, 0).value;
      FilesIn(cfg, start, files, PhaseOf(cfg, effect.rank.pc), effect.files)
  {
    var me, effect := st.ranks[0], MoveClosing(cfg, st, 0).value;
    ClosingFiles(cfg, st);
    ClosingPc(cfg, st, 0);
    PhaseStepFiles(cfg, start, files, me.train, PhaseOf(cfg, me.pc), st.files, PhaseOf(cfg, effect.rank.pc), effect.files);
  }

  /** Rank 0 writes files only while publishing; the other ranks never do. */
  lemma MoveFiles(cfg: RunConfig, start: TrainState, files: Files, st: State, r: nat)
    requires Follows(cfg, start, files, st) && r < cfg.World() && Move(cfg, st, r).Some?
    ensures var next := After(st, r, Move(cfg, st, r).value);
      FilesIn(cfg, start, files, PhaseOf(cfg, next.ranks[0].pc), next.files)
  {
    assert RankCounted(cfg, st, r);
    assert RankFollows(cfg, start, files, st.ranks[r], r);
    var pc := st.ranks[r].pc;
    if pc.Sending? || pc.Waiting? {
      TrainingFiles(cfg, st, r);
    } else if pc.Joins() {
      JoiningFiles(cfg, st, r);
    } else if r == 0 {
      ClosingFilesFollow(cfg, start, files, st);
    } else {
      OthersKeepFiles(cfg, st, r);
    }
  }

  lemma TimeoutFollows(cfg: RunConfig, start: TrainState, files: Files, st: State, r: nat)
    requires Follows(cfg, start, files, st) && r < cfg.World()
    ensures RankFollows(cfg, start, files, GiveUp(st.ranks[r]), r)
    ensures r == 0 ==> GiveUp(st.ranks[r]) == st.ranks[r]
  {
    assert RankCounted(cfg, st, r);
    assert RankFollows(cfg, start, files, st.ranks[r], r);
  }

  lemma EffectFollows(cfg: RunConfig, start: TrainState, files: Files, st: State, r: nat, effect: Effect)
    requires Follows(cfg, start, files, st) && r < cfg.World()
    requires Counted(cfg, After(st, r, effect)) && RankFollows(cfg, start, files, effect.rank, r)
    requires FilesIn(cfg, start, files, PhaseOf(cfg, After(st, r, effect).ranks[0].pc), effect.files)
    ensures Follows(cfg, start, files, After(st, r, effect))
  {
    var next := After(st, r, effect);
    forall q | 0 <= q < cfg.World() ensures RankFollows(cfg, start, files, next.ranks[q], q) {
      if q != r {
        assert RankFollows(cfg, start, files, st.ranks[q], q);
      }
    }
  }

  lemma ApplyFollows(cfg: RunConfig, start: TrainState, files: Files, st: State, event: Event)
    requires Follows(cfg, start, files, st) && start == StartOr(cfg, files)
    ensures Follows(cfg, start, files, Apply(cfg, st, event))
  {
    ApplyKeepsCounted(cfg, st, event);
    if event.r < cfg.World() {
      match event
      case Run(r) => {
        if Move(cfg, st, r).Some? {
          MoveFollows(cfg, start, files, st, r);
          MoveFiles(cfg, start, files, st, r);
          EffectFollows(cfg, start, files, st, r, Move(cfg, st, r).value);
        }
      }
      case Timeout(r) => {
        TimeoutFollows(cfg, start, files, st, r);
        EffectFollows(cfg, start, files, st, r, Effect(GiveUp(st.ranks[r]), st.files));
      }
    }
  }

  lemma {:induction false} RunFollows(cfg: RunConfig, start: TrainState, files: Files, st: State, events: seq<Event>)
    requires Follows(cfg, start, files, st) && start == StartOr(cfg, files)
    ensures Follows(cfg, start, files, Execute(cfg, st, events))
  {
    if events != [] {
      RunFollows(cfg, start, files, st, events[..|events| - 1]);
      ApplyFollows(cfg, start, files, Execute(cfg, st, events[..|events| - 1]), events[|events| - 1]);
    }
  }
}
