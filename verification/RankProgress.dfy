/** Progress of the ranked protocol: no deadlock, and a measure that bounds the number of moves. */
module RankProgress {
  import opened Basics
  import opened Vectors
  import opened Reducers
  import opened Training
  import opened RankProtocol
  import opened RankControl
  import opened RankSimulation
  import opened RankTheorems
  import opened RankPublication

  // ----- the measure ------------------------------------------------------------------------------------

  function StepsLeft(cfg: RunConfig, s: nat): nat
    decreases if s < cfg.steps then cfg.steps - s else 0
  {
    if s >= cfg.steps then 7 else 2 * cfg.Width() + StepsLeft(cfg, s + 1)
  }

  /** Moves a rank can still make. */
  function MovesLeft(cfg: RunConfig, pc: Pc): nat {
    match pc
    case RemoveId => StepsLeft(cfg, 0) + 5
    case PublishId => StepsLeft(cfg, 0) + 4
    case AwaitId => StepsLeft(cfg, 0) + 4
    case EnterJoin(_) => StepsLeft(cfg, 0) + 3
    case InJoin => StepsLeft(cfg, 0) + 2
    case InTokens => StepsLeft(cfg, 0) + 1
    case Sending(s, j) => 2 * (if j < cfg.Width() then cfg.Width() - j else 0) + StepsLeft(cfg, s + 1)
    case Waiting(s, j) => 2 * (if j < cfg.Width() then cfg.Width() - j else 0) + 1 + StepsLeft(cfg, s + 1)
    case EnterBarrier => 6
    case InBarrier => 5
    case Saving => 4
    case RemovingReady => 3
    case PublishingReady => 2
    case AwaitReady => 2
    case Verifying => 1
    case Done => 0
    case Failed(_) => 0
  }

  lemma JoiningDecreases(cfg: RunConfig, st: State, r: nat)
    requires cfg.Valid() && |st.ranks| == cfg.World() && r < cfg.World() && MoveJoining(cfg, st, r).Some?
    ensures MovesLeft(cfg, MoveJoining(cfg, st, r).value.rank.pc) < MovesLeft(cfg, st.ranks[r].pc)
  {
    if st.ranks[r].pc.InTokens? {
      GatePc(cfg, st, r, AverageOf(Inputs(st, 0)));
    }
  }

  lemma GatePc(cfg: RunConfig, st: State, r: nat, average: Vector)
    requires cfg.Valid() && |st.ranks| == cfg.World() && r < cfg.World()
    ensures MovesLeft(cfg, Gate(cfg, st, r, average).pc) <= StepsLeft(cfg, 0)
  {
  }

  lemma SendingMove(cfg: RunConfig, st: State, r: nat, s: nat, j: nat)
    requires cfg.Valid() && |st.ranks| == cfg.World() && r < cfg.World()
    requires st.ranks[r].pc == Sending(s, j) && MoveTraining(cfg, st, r).Some?
    ensures j < cfg.Width()
    ensures MoveTraining(cfg, st, r).value.rank.pc == if cfg.Blocks(s, j + 1) then Waiting(s, j + 1) else Sending(s, j + 1)
  {
  }

  lemma TrainingDecreases(cfg: RunConfig, st: State, r: nat)
    requires cfg.Valid() && |st.ranks| == cfg.World() && r < cfg.World() && MoveTraining(cfg, st, r).Some?
    requires RankCounted(cfg, st, r)
    ensures MovesLeft(cfg, MoveTraining(cfg, st, r).value.rank.pc) < MovesLeft(cfg, st.ranks[r].pc)
  {
    match st.ranks[r].pc
    case Sending(s, j) => {
      SendingMove(cfg, st, r, s, j);
      PcDecreases(cfg, s, j);
    }
    case Waiting(s, j) => {
      WaitingMove(cfg, st, r, s, j);
      ProceedIs(cfg, st, st.ranks[r], s, j, Base(cfg, s));
      PcDecreases(cfg, s, j);
      FinishPcDecreases(cfg, st.ranks[r], s, Results(st, Base(cfg, s), cfg.Width()));
    }
  }

  lemma PcDecreases(cfg: RunConfig, s: nat, j: nat)
    ensures j < cfg.Width() ==> MovesLeft(cfg, Waiting(s, j + 1)) < MovesLeft(cfg, Sending(s, j))
    ensures j + 1 < cfg.Width() ==> MovesLeft(cfg, Sending(s, j + 1)) < MovesLeft(cfg, Sending(s, j))
    ensures j < cfg.Width() ==> MovesLeft(cfg, Sending(s, j)) < MovesLeft(cfg, Waiting(s, j))
    ensures j >= cfg.Width() ==> StepsLeft(cfg, s + 1) < MovesLeft(cfg, Waiting(s, j))
  {
  }

  lemma FinishPcDecreases(cfg: RunConfig, me: Rank, s: nat, results: seq<Vector>)
    requires cfg.Valid() && s < cfg.steps
    ensures MovesLeft(cfg, FinishStep(cfg, me, s, results).pc) <= StepsLeft(cfg, s + 1)
  {
  }

  lemma ClosingDecreases(cfg: RunConfig, st: State, r: nat)
    requires |st.ranks| == cfg.World() && r < cfg.World() && MoveClosing(cfg, st, r).Some?
    ensures MovesLeft(cfg, MoveClosing(cfg, st, r).value.rank.pc) < MovesLeft(cfg, st.ranks[r].pc)
  {
  }

  lemma MoveDecreases(cfg: RunConfig, st: State, r: nat)
    requires cfg.Valid() && Counted(cfg, st) && r < cfg.World() && Move(cfg, st, r).Some?
    ensures MovesLeft(cfg, Move(cfg, st, r).value.rank.pc) < MovesLeft(cfg, st.ranks[r].pc)
  {
    assert RankCounted(cfg, st, r);
    var pc := st.ranks[r].pc;
    if pc.Sending? || pc.Waiting? {
      TrainingDecreases(cfg, st, r);
    } else if pc.Joins() {
      JoiningDecreases(cfg, st, r);
    } else {
      ClosingDecreases(cfg, st, r);
    }
  }

  function TotalLeft(cfg: RunConfig, ranks: seq<Rank>): nat {
    if ranks == [] then 0 else MovesLeft(cfg, ranks[0].pc) + TotalLeft(cfg, ranks[1..])
  }

  lemma {:induction false} TotalAfter(cfg: RunConfig, ranks: seq<Rank>, r: nat, rank: Rank)
    requires r < |ranks|
    ensures TotalLeft(cfg, ranks[r := rank]) + MovesLeft(cfg, ranks[r].pc) == TotalLeft(cfg, ranks) + MovesLeft(cfg, rank.pc)
  {
    if r == 0 {
      assert ranks[0 := rank][1..] == ranks[1..];
    } else {
      assert ranks[r := rank][1..] == ranks[1..][r - 1 := rank];
      TotalAfter(cfg, ranks[1..], r - 1, rank);
    }
  }

  // ----- joining ------------------------------------------------------------------------------------------

  /** Every identifier in circulation is the one rank 0 creates. */
  predicate OneId(cfg: RunConfig, st: State) {
    && |st.ranks| > 0
    && (st.files.idFile.Some? ==> st.files.idFile.value == cfg.freshId)
    && (forall r :: 0 <= r < |st.ranks| && st.ranks[r].pc.EnterJoin? ==> st.ranks[r].pc.id == cfg.freshId)
    && (forall r :: 0 <= r < |st.ranks| && st.ranks[r].joined.Some? ==> st.ranks[r].joined.value == cfg.freshId)
    && (st.files.idFile.None? ==> st.ranks[0].pc == RemoveId || st.ranks[0].pc == PublishId)
  }

  /** A rank has joined exactly when it is past the attempt. */
  predicate JoinRecorded(rank: Rank) {
    match rank.pc
    case RemoveId => rank.joined.None?
    case PublishId => rank.joined.None?
    case AwaitId => rank.joined.None?
    case EnterJoin(_) => rank.joined.None?
    case Failed(reason) => reason == IdTimeout || rank.joined.Some?
    case _ => rank.joined.Some?
  }

  predicate JoinsRecorded(st: State) {
    forall r :: 0 <= r < |st.ranks| ==> JoinRecorded(st.ranks[r])
  }

  lemma MoveKeepsJoins(cfg: RunConfig, st: State, r: nat)
    requires cfg.Valid() && |st.ranks| == cfg.World() && r < cfg.World() && Move(cfg, st, r).Some?
    requires OneId(cfg, st) && JoinsRecorded(st) && Placed(cfg, r, st.ranks[r].pc)
    ensures var next := After(st, r, Move(cfg, st, r).value);
      OneId(cfg, next) && JoinsRecorded(next)
  {
    var pc := st.ranks[r].pc;
    assert JoinRecorded(st.ranks[r]);
    if pc.Sending? || pc.Waiting? {
      TrainingKeepsJoins(cfg, st, r);
    } else if pc.Joins() {
      JoiningKeepsJoins(cfg, st, r);
    } else {
      ClosingKeepsJoins(cfg, st, r);
    }
  }

  /** The mover neither touches the identifier nor its own record. */
  predicate JoinUntouched(st: State, r: nat, effect: Effect)
    requires r < |st.ranks|
  {
    && effect.files.idFile == st.files.idFile && effect.rank.joined == st.ranks[r].joined
    && JoinRecorded(effect.rank) && !effect.rank.pc.EnterJoin?
    && st.ranks[r].pc != RemoveId && st.ranks[r].pc != PublishId
  }

  lemma UntouchedKeepsJoins(cfg: RunConfig, st: State, r: nat, effect: Effect)
    requires r < |st.ranks| && JoinUntouched(st, r, effect) && OneId(cfg, st) && JoinsRecorded(st)
    ensures OneId(cfg, After(st, r, effect)) && JoinsRecorded(After(st, r, effect))
  {
  }

  lemma TrainingKeepsJoins(cfg: RunConfig, st: State, r: nat)
    requires cfg.Valid() && |st.ranks| == cfg.World() && r < cfg.World() && MoveTraining(cfg, st, r).Some?
    requires OneId(cfg, st) && JoinsRecorded(st)
    ensures var next := After(st, r, MoveTraining(cfg, st, r).value);
      OneId(cfg, next) && JoinsRecorded(next)
  {
    assert JoinRecorded(st.ranks[r]);
    TrainingUntouched(cfg, st, r);
    UntouchedKeepsJoins(cfg, st, r, MoveTraining(cfg, st, r).value);
  }

  lemma TrainingUntouched(cfg: RunConfig, st: State, r: nat)
    requires cfg.Valid() && |st.ranks| == cfg.World() && r < cfg.World() && MoveTraining(cfg, st, r).Some?
    requires JoinRecorded(st.ranks[r])
    ensures JoinUntouched(st, r, MoveTraining(cfg, st, r).value)
  {
  }

  lemma ClosingKeepsJoins(cfg: RunConfig, st: State, r: nat)
    requires |st.ranks| == cfg.World() && r < cfg.World() && MoveClosing(cfg, st, r).Some?
    requires OneId(cfg, st) && JoinsRecorded(st)
    ensures var next := After(st, r, MoveClosing(cfg, st, r).value);
      OneId(cfg, next) && JoinsRecorded(next)
  {
    assert JoinRecorded(st.ranks[r]);
    assert JoinUntouched(st, r, MoveClosing(cfg, st, r).value);
    UntouchedKeepsJoins(cfg, st, r, MoveClosing(cfg, st, r).value);
  }

  lemma JoiningKeepsJoins(cfg: RunConfig, st: State, r: nat)
    requires cfg.Valid() && |st.ranks| == cfg.World() && r < cfg.World() && MoveJoining(cfg, st, r).Some?
    requires OneId(cfg, st) && JoinsRecorded(st) && Placed(cfg, r, st.ranks[r].pc)
    ensures var next := After(st, r, MoveJoining(cfg, st, r).value);
      OneId(cfg, next) && JoinsRecorded(next)
  {
    assert JoinRecorded(st.ranks[r]);
    if st.ranks[r].pc.InTokens? {
      GateUntouched(cfg, st, r, AverageOf(Inputs(st, 0)));
      UntouchedKeepsJoins(cfg, st, r, MoveJoining(cfg, st, r).value);
    } else if st.ranks[r].pc.InJoin? {
      UntouchedKeepsJoins(cfg, st, r, MoveJoining(cfg, st, r).value);
    }
  }

  lemma GateUntouched(cfg: RunConfig, st: State, r: nat, average: Vector)
    requires cfg.Valid() && |st.ranks| == cfg.World() && r < cfg.World()
    requires st.ranks[r].pc.InTokens? && JoinRecorded(st.ranks[r])
    ensures JoinUntouched(st, r, Effect(Gate(cfg, st, r, average), st.files))
  {
  }

  // ----- healthy runs ---------------------------------------------------------------------------------------

  /** Every rank is admitted, the state to start from exists and is consistent, and no identifier of an earlier
      run is lying around. */
  ghost predicate Sane(cfg: RunConfig, files: Files) {
    && cfg.Valid()
    && (forall r :: 0 <= r < cfg.World() ==> Accepts(cfg, r))
    && cfg.Start(files.checkpoints).Some?
    && StartOr(cfg, files).optimizer.step == StartOr(cfg, files).globalStep
    && (files.idFile.Some? ==> files.idFile.value == cfg.freshId)
  }

  /** Moreover no failure is injected, and the ready file does not name the final step already. */
  ghost predicate Healthy(cfg: RunConfig, files: Files) {
    && Sane(cfg, files) && !cfg.injectFailure
    && files.readyFile != Some(FinalStep(cfg, files))
  }

  predicate NoneFailed(st: State) {
    forall r :: 0 <= r < |st.ranks| ==> !st.ranks[r].pc.Failed?
  }

  ghost predicate Alive(cfg: RunConfig, files: Files, st: State) {
    && Follows(cfg, StartOr(cfg, files), files, st)
    && OneId(cfg, st) && JoinsRecorded(st) && NoneFailed(st)
  }

  /** The reasons a rank that is following the script can have for giving up. */
  lemma FailureHasCause(cfg: RunConfig, files: Files, rank: Rank, r: nat)
    requires Sane(cfg, files) && r < cfg.World()
    requires RankFollows(cfg, StartOr(cfg, files), files, rank, r) && Placed(cfg, r, rank.pc)
    requires rank.pc.Failed?
    ensures rank.pc.reason in {IdTimeout, ReadyTimeout, Unverified, Injected}
  {
    LockstepCounters(cfg, StartOr(cfg, files), cfg.steps);
    assert Accepts(cfg, r);
  }

  lemma MovesDoNotTimeOut(cfg: RunConfig, st: State, r: nat)
    requires cfg.Valid() && |st.ranks| == cfg.World() && r < cfg.World() && Move(cfg, st, r).Some?
    ensures Move(cfg, st, r).value.rank.pc !in {Failed(IdTimeout), Failed(ReadyTimeout)}
  {
    var pc := st.ranks[r].pc;
    if pc.InTokens? {
      GateDoesNotTimeOut(cfg, st, r, AverageOf(Inputs(st, 0)));
    } else if pc.Sending? || pc.Waiting? {
      TrainingFiles(cfg, st, r);
      TrainingDoesNotTimeOut(cfg, st, r);
    }
  }

  lemma GateDoesNotTimeOut(cfg: RunConfig, st: State, r: nat, average: Vector)
    requires cfg.Valid() && |st.ranks| == cfg.World() && r < cfg.World()
    ensures Gate(cfg, st, r, average).pc !in {Failed(IdTimeout), Failed(ReadyTimeout)}
  {
  }

  lemma TrainingDoesNotTimeOut(cfg: RunConfig, st: State, r: nat)
    requires cfg.Valid() && |st.ranks| == cfg.World() && r < cfg.World() && MoveTraining(cfg, st, r).Some?
    ensures MoveTraining(cfg, st, r).value.rank.pc !in {Failed(IdTimeout), Failed(ReadyTimeout)}
  {
  }

  /** A move keeps the run alive unless it is a failed verification or the injected failure. */
  lemma MoveKeepsAlive(cfg: RunConfig, files: Files, st: State, r: nat)
    requires Sane(cfg, files) && Alive(cfg, files, st) && r < cfg.World()
    requires Move(cfg, st, r).Some? && Move(cfg, st, r).value.rank.pc !in {Failed(Unverified), Failed(Injected)}
    ensures Alive(cfg, files, After(st, r, Move(cfg, st, r).value))
  {
    var effect := Move(cfg, st, r).value;
    assert RankCounted(cfg, st, r);
    ApplyFollows(cfg, StartOr(cfg, files), files, st, Run(r));
    assert RankCounted(cfg, After(st, r, effect), r);
    assert RankFollows(cfg, StartOr(cfg, files), files, After(st, r, effect).ranks[r], r);
    MoveKeepsJoins(cfg, st, r);
    if effect.rank.pc.Failed? {
      FailureHasCause(cfg, files, effect.rank, r);
      MovesDoNotTimeOut(cfg, st, r);
    }
  }

  // ----- no deadlock ------------------------------------------------------------------------------------------

  predicate AllDone(st: State) {
    forall r :: 0 <= r < |st.ranks| ==> st.ranks[r].pc == Done
  }

  lemma {:induction false} LeastSent(ranks: seq<Rank>) returns (m: nat)
    requires |ranks| > 0
    ensures m < |ranks| && forall q :: 0 <= q < |ranks| ==> |ranks[m].sent| <= |ranks[q].sent|
  {
    if |ranks| == 1 {
      m := 0;
    } else {
      var k := LeastSent(ranks[1..]);
      m := if |ranks[0].sent| <= |ranks[1..][k].sent| then 0 else k + 1;
      forall q | 0 <= q < |ranks| ensures |ranks[m].sent| <= |ranks[q].sent| {
        assert q > 0 ==> ranks[q] == ranks[1..][q - 1];
      }
    }
  }

  /** While identifiers are missing, rank 0 or a rank about to join can move. */
  lemma SomeoneJoins(cfg: RunConfig, files: Files, st: State, q: nat) returns (e: nat)
    requires Alive(cfg, files, st) && q < cfg.World()
    requires st.ranks[q].pc.Joins() && !st.ranks[q].pc.InTokens?
    ensures e < cfg.World() && st.ranks[e].pc.Joins() && Move(cfg, st, e).Some?
  {
    assert RankCounted(cfg, st, q) && RankCounted(cfg, st, 0);
    if st.files.idFile.None? {
      e := 0;
    } else if !st.ranks[q].pc.InJoin? || AllJoined(st, st.ranks[q].joined) {
      e := q;
    } else {
      e :| 0 <= e < cfg.World() && st.ranks[e].joined != st.ranks[q].joined;
      NotJoinedMoves(cfg, files, st, q, e);
    }
  }

  lemma NotJoinedMoves(cfg: RunConfig, files: Files, st: State, q: nat, e: nat)
    requires Alive(cfg, files, st) && q < cfg.World() && e < cfg.World() && st.files.idFile.Some?
    requires st.ranks[q].pc.InJoin? && st.ranks[e].joined != st.ranks[q].joined
    ensures st.ranks[e].pc.Joins() && Move(cfg, st, e).Some?
  {
    assert JoinRecorded(st.ranks[q]) && JoinRecorded(st.ranks[e]);
  }

  /** A rank that nobody is behind can move, unless it waits for the ready file. */
  lemma HindmostMoves(cfg: RunConfig, files: Files, st: State, q: nat) returns (e: nat)
    requires Alive(cfg, files, st) && q < cfg.World()
    requires AllSent(st, |st.ranks[q].sent|) && !st.ranks[q].pc.Done? && !st.ranks[q].pc.AwaitReady?
    ensures e < cfg.World() && Move(cfg, st, e).Some?
    ensures e == q || st.ranks[e].pc.Joins()
  {
    assert RankCounted(cfg, st, q);
    var pc := st.ranks[q].pc;
    if pc.Joins() && !pc.InTokens? {
      e := SomeoneJoins(cfg, files, st, q);
    } else {
      e := q;
      if pc.Sending? || pc.Waiting? {
        TrainingEnabled(cfg, st, q);
      }
    }
  }

  lemma TrainingEnabled(cfg: RunConfig, st: State, q: nat)
    requires cfg.Valid() && |st.ranks| == cfg.World() && q < cfg.World() && RankCounted(cfg, st, q)
    requires AllSent(st, |st.ranks[q].sent|) && (st.ranks[q].pc.Sending? || st.ranks[q].pc.Waiting?)
    ensures MoveTraining(cfg, st, q).Some?
  {
  }

  lemma SentCountMaximal(cfg: RunConfig, r: nat, pc: Pc)
    requires cfg.Valid() && Placed(cfg, r, pc)
    ensures SentCount(cfg, pc) <= Base(cfg, cfg.steps) + if cfg.checkpointTo.Some? then 1 else 0
  {
    match pc
    case Sending(s, j) => { BaseStep(cfg, s, cfg.steps, j); }
    case Waiting(s, j) => { BaseStep(cfg, s, cfg.steps, j - 1); }
    case _ => {}
  }

  lemma FullySentPcs(cfg: RunConfig, r: nat, pc: Pc)
    requires cfg.Valid() && Placed(cfg, r, pc) && !pc.Failed?
    requires SentCount(cfg, pc) > Base(cfg, cfg.steps)
    ensures pc.InBarrier? || pc.Saving? || pc.RemovingReady? || pc.PublishingReady? || pc.AwaitReady? || pc.Verifying? || pc.Done?
  {
    match pc
    case Sending(s, j) => { BaseStep(cfg, s, cfg.steps, j); }
    case Waiting(s, j) => { BaseStep(cfg, s, cfg.steps, j - 1); }
    case _ => {}
  }

  /** A rank that waits for the ready file is released once rank 0 has published. */
  lemma WaiterMoves(cfg: RunConfig, files: Files, st: State, q: nat) returns (e: nat)
    requires Alive(cfg, files, st) && q < cfg.World()
    requires AllSent(st, |st.ranks[q].sent|) && st.ranks[q].pc.AwaitReady?
    ensures e < cfg.World() && Move(cfg, st, e).Some? && (e == q || e == 0)
  {
    assert RankCounted(cfg, st, q) && RankCounted(cfg, st, 0);
    assert RankFollows(cfg, StartOr(cfg, files), files, st.ranks[q], q);
    FullySentPcs(cfg, 0, st.ranks[0].pc);
    if st.ranks[0].pc.Verifying? || st.ranks[0].pc.Done? {
      e := q;
    } else {
      SentCountMaximal(cfg, 0, st.ranks[0].pc);
      e := 0;
    }
  }

  lemma DoneMeansAllCaughtUp(cfg: RunConfig, st: State, m: nat, q: nat)
    requires cfg.Valid() && Counted(cfg, st) && m < cfg.World() && q < cfg.World()
    requires st.ranks[m].pc.Done? && AllSent(st, |st.ranks[m].sent|)
    ensures AllSent(st, |st.ranks[q].sent|)
  {
    assert RankCounted(cfg, st, m) && RankCounted(cfg, st, q);
    SentCountMaximal(cfg, q, st.ranks[q].pc);
  }

  /** As long as some rank is not done, some rank can move. */
  lemma NoDeadlock(cfg: RunConfig, files: Files, st: State) returns (e: nat)
    requires Alive(cfg, files, st) && !AllDone(st)
    ensures e < cfg.World() && Move(cfg, st, e).Some?
  {
    var m := LeastSent(st.ranks);
    if st.ranks[m].pc.Done? {
      var q :| 0 <= q < cfg.World() && st.ranks[q].pc != Done;
      DoneMeansAllCaughtUp(cfg, st, m, q);
      m := q;
    }
    if st.ranks[m].pc.AwaitReady? {
      e := WaiterMoves(cfg, files, st, m);
    } else {
      e := HindmostMoves(cfg, files, st, m);
    }
  }
}
