/** The injected failure of rank 0: what the other ranks can report although nothing was published. */
module RankFailure {
  import opened Basics
  import opened Training
  import opened RankProtocol
  import opened RankControl
  import opened RankSimulation
  import opened RankTheorems
  import opened RankPublication
  import opened RankProgress
  import opened RankRuns

  /** The checkpoint file of an earlier run carries the three counters this run will end with. */
  predicate StaleCheckpointMatches(cfg: RunConfig, files: Files) {
    && cfg.checkpointTo.Some? && cfg.checkpointTo.value in files.checkpoints
    && var left, start := files.checkpoints[cfg.checkpointTo.value].state, StartOr(cfg, files);
      && left.globalStep == FinalStep(cfg, files)
      && left.optimizer.step == start.optimizer.step + cfg.steps
      && left.dataCursor == start.dataCursor + cfg.steps * cfg.context
  }

  /** A rank that left its wait was misled by the ready file, and one that is done by the checkpoint too. */
  predicate OnlyStale(cfg: RunConfig, files: Files, pc: Pc) {
    && (PhaseOf(cfg, pc) == Announced ==> files.readyFile == Some(FinalStep(cfg, files)))
    && (pc == Done ==> StaleCheckpointMatches(cfg, files))
  }

  predicate AllStale(cfg: RunConfig, files: Files, st: State) {
    forall r :: 0 <= r < |st.ranks| ==> OnlyStale(cfg, files, st.ranks[r].pc)
  }

  /** Rank 0 never gets beyond its failure, so it leaves the files as they were. */
  lemma FilesUntouched(cfg: RunConfig, files: Files, st: State)
    requires cfg.Valid() && cfg.injectFailure && Counted(cfg, st)
    requires FilesIn(cfg, StartOr(cfg, files), files, PhaseOf(cfg, st.ranks[0].pc), st.files)
    ensures SameCheckpoints(st.files, files)
  {
    assert RankCounted(cfg, st, 0);
    InjectedStaysQuiet(cfg, st.ranks[0].pc);
  }

  /** Verification against the untouched file succeeds exactly when the old checkpoint has the counters. */
  lemma VerifiesOldFile(cfg: RunConfig, files: Files, st: State, me: Rank)
    requires cfg.Valid() && cfg.checkpointTo.Some? && st.files.checkpoints == files.checkpoints
    requires me.train == Lockstep(cfg, StartOr(cfg, files), cfg.steps)
    ensures Verify(cfg, st, me).pc == Done <==> StaleCheckpointMatches(cfg, files)
    ensures Verify(cfg, st, me).pc == Done || Verify(cfg, st, me).pc == Failed(Unverified)
  {
    LockstepCounters(cfg, StartOr(cfg, files), cfg.steps);
  }

  /** A rank at the end of the run has finished training. */
  ghost predicate TrainedAtEnd(cfg: RunConfig, files: Files, me: Rank)
    requires cfg.Valid()
  {
    me.pc.Verifying? || me.pc.AwaitReady? ==> me.train == Lockstep(cfg, StartOr(cfg, files), cfg.steps)
  }

  lemma ClosingStaysStale(cfg: RunConfig, files: Files, st: State, r: nat)
    requires cfg.Valid() && cfg.injectFailure && |st.ranks| == cfg.World() && r < cfg.World()
    requires Placed(cfg, r, st.ranks[r].pc) && TrainedAtEnd(cfg, files, st.ranks[r]) && SameCheckpoints(st.files, files)
    requires MoveClosing(cfg, st, r).Some? && OnlyStale(cfg, files, st.ranks[r].pc)
    ensures OnlyStale(cfg, files, MoveClosing(cfg, st, r).value.rank.pc)
  {
    var me := st.ranks[r];
    if me.pc.Verifying? {
      VerifiesOldFile(cfg, files, st, me);
    } else if me.pc.AwaitReady? {
      LockstepCounters(cfg, StartOr(cfg, files), cfg.steps);
    } else {
      OtherClosingIsQuiet(cfg, st, r);
    }
  }

  lemma OtherClosingIsQuiet(cfg: RunConfig, st: State, r: nat)
    requires |st.ranks| == cfg.World() && r < cfg.World() && Placed(cfg, r, st.ranks[r].pc) && cfg.injectFailure
    requires MoveClosing(cfg, st, r).Some? && !st.ranks[r].pc.Verifying? && !st.ranks[r].pc.AwaitReady?
    ensures var pc := MoveClosing(cfg, st, r).value.rank.pc;
      PhaseOf(cfg, pc) == Untouched && pc != Done
  {
  }

  lemma MoveStaysStale(cfg: RunConfig, files: Files, st: State, r: nat)
    requires cfg.Valid() && cfg.injectFailure && |st.ranks| == cfg.World() && r < cfg.World()
    requires Placed(cfg, r, st.ranks[r].pc) && TrainedAtEnd(cfg, files, st.ranks[r]) && SameCheckpoints(st.files, files)
    requires Move(cfg, st, r).Some? && OnlyStale(cfg, files, st.ranks[r].pc)
    ensures OnlyStale(cfg, files, Move(cfg, st, r).value.rank.pc)
  {
    var pc := st.ranks[r].pc;
    if pc.Sending? || pc.Waiting? {
      TrainingFiles(cfg, st, r);
    } else if pc.Joins() {
      JoiningFiles(cfg, st, r);
    } else {
      ClosingStaysStale(cfg, files, st, r);
    }
  }

  /** What a move of rank `r` needs to know. */
  lemma BeforeMove(cfg: RunConfig, files: Files, st: State, r: nat)
    requires cfg.Valid() && cfg.injectFailure && Reachable(cfg, files, st) && r < cfg.World()
    ensures |st.ranks| == cfg.World() && Placed(cfg, r, st.ranks[r].pc)
    ensures TrainedAtEnd(cfg, files, st.ranks[r]) && SameCheckpoints(st.files, files)
  {
    ReachableFollows(cfg, files, st);
    FilesUntouched(cfg, files, st);
    assert RankCounted(cfg, st, r) && RankFollows(cfg, StartOr(cfg, files), files, st.ranks[r], r);
  }

  lemma ApplyStaysStale(cfg: RunConfig, files: Files, st: State, event: Event)
    requires cfg.Valid() && cfg.injectFailure && Reachable(cfg, files, st) && AllStale(cfg, files, st)
    ensures AllStale(cfg, files, Apply(cfg, st, event))
  {
    if event.r < cfg.World() {
      BeforeMove(cfg, files, st, event.r);
      assert OnlyStale(cfg, files, st.ranks[event.r].pc);
      if event.Run? && Move(cfg, st, event.r).Some? {
        MoveStaysStale(cfg, files, st, event.r);
      } else if event.Timeout? {
        GivingUpIsQuiet(cfg, files, st.ranks[event.r]);
      }
    }
  }

  lemma GivingUpIsQuiet(cfg: RunConfig, files: Files, me: Rank)
    requires OnlyStale(cfg, files, me.pc)
    ensures OnlyStale(cfg, files, GiveUp(me).pc)
  {
  }

  lemma {:induction false} RunStaysStale(cfg: RunConfig, files: Files, events: seq<Event>)
    requires cfg.Valid() && cfg.injectFailure
    ensures AllStale(cfg, files, Execute(cfg, Initial(cfg, files), events))
    decreases |events|
  {
    if events != [] {
      var before := events[..|events| - 1];
      RunStaysStale(cfg, files, before);
      ApplyStaysStale(cfg, files, Execute(cfg, Initial(cfg, files), before), events[|events| - 1]);
    }
  }

  lemma ReachableStale(cfg: RunConfig, files: Files, st: State)
    requires cfg.Valid() && cfg.injectFailure && Reachable(cfg, files, st)
    ensures AllStale(cfg, files, st)
  {
    var events :| st == Execute(cfg, Initial(cfg, files), events);
    RunStaysStale(cfg, files, events);
  }

  /** Under the injected failure rank 0 is never done, the checkpoints and the ready file stay as they were, and
      a rank can only report a verified checkpoint if both were left over from an earlier run and match. */
  lemma InjectedFailureVerifiesOnlyStale(cfg: RunConfig, files: Files, st: State, r: nat)
    requires cfg.Valid() && cfg.injectFailure && Reachable(cfg, files, st) && r < cfg.World()
    ensures SameCheckpoints(st.files, files)
    ensures st.ranks[r].pc == Done ==>
      r != 0 && files.readyFile == Some(FinalStep(cfg, files)) && StaleCheckpointMatches(cfg, files)
  {
    InjectedFailureLeavesFiles(cfg, files, st);
    DoneIsStale(cfg, files, st, r);
  }

  lemma InjectedFailureLeavesFiles(cfg: RunConfig, files: Files, st: State)
    requires cfg.Valid() && cfg.injectFailure && Reachable(cfg, files, st)
    ensures SameCheckpoints(st.files, files) && Counted(cfg, st)
  {
    ReachableFollows(cfg, files, st);
    FilesUntouched(cfg, files, st);
  }

  lemma DoneIsStale(cfg: RunConfig, files: Files, st: State, r: nat)
    requires cfg.Valid() && cfg.injectFailure && Reachable(cfg, files, st) && r < cfg.World() && Counted(cfg, st)
    ensures st.ranks[r].pc == Done ==>
      r != 0 && files.readyFile == Some(FinalStep(cfg, files)) && StaleCheckpointMatches(cfg, files)
  {
    ReachableStale(cfg, files, st);
    assert OnlyStale(cfg, files, st.ranks[r].pc);
    if st.ranks[r].pc == Done {
      RankZeroIsNotDone(cfg, st, r);
    }
  }

  lemma RankZeroIsNotDone(cfg: RunConfig, st: State, r: nat)
    requires Counted(cfg, st) && cfg.injectFailure && r < cfg.World() && st.ranks[r].pc == Done
    ensures r != 0
  {
    assert RankCounted(cfg, st, r);
  }

  /** The run in which rank 1 reports the old checkpoint as this run's: it leaves its wait early and finds the
      counters it expects. */
  lemma StaleCheckpointVerifies(cfg: RunConfig, files: Files) returns (events: seq<Event>)
    requires Sane(cfg, files) && cfg.World() > 1
    requires files.readyFile == Some(FinalStep(cfg, files)) && StaleCheckpointMatches(cfg, files)
    ensures var end := Execute(cfg, Initial(cfg, files), events);
      end.ranks[1].pc == Done && end.files.checkpoints == files.checkpoints
  {
    var st := Initial(cfg, files);
    var early := StaleReadyBreaksSafety(cfg, files);
    var near := Execute(cfg, st, early);
    VerifiesOldFile(cfg, files, near, near.ranks[1]);
    ExecuteAppend(cfg, st, early, [Run(1)]);
    ExecuteOne(cfg, near, Run(1));
    events := early + [Run(1)];
  }

  ghost predicate CanVerify(cfg: RunConfig, files: Files)
    requires cfg.Valid()
  {
    exists st, r :: Reachable(cfg, files, st) && 0 <= r < cfg.World() && st.ranks[r].pc == Done
  }

  /** Although rank 0 fails before it publishes anything, some run lets a rank report a verified checkpoint
      exactly when the ready file already names the final step and the checkpoint already has its counters. */
  lemma InjectedFailureCondition(cfg: RunConfig, files: Files)
    requires Sane(cfg, files) && cfg.injectFailure && cfg.World() > 1
    ensures CanVerify(cfg, files)
      <==> files.readyFile == Some(FinalStep(cfg, files)) && StaleCheckpointMatches(cfg, files)
  {
    if files.readyFile == Some(FinalStep(cfg, files)) && StaleCheckpointMatches(cfg, files) {
      var events := StaleCheckpointVerifies(cfg, files);
      var end := Execute(cfg, Initial(cfg, files), events);
      assert Reachable(cfg, files, end) && end.ranks[1].pc == Done;
    } else if CanVerify(cfg, files) {
      var st, r :| Reachable(cfg, files, st) && 0 <= r < cfg.World() && st.ranks[r].pc == Done;
      InjectedFailureVerifiesOnlyStale(cfg, files, st, r);
    }
  }
}
