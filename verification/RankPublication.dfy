/** Publication of the checkpoint: when a peer may leave its wait, and what it then finds. */
module RankPublication {
  import opened Basics
  import opened Vectors
  import opened Training
  import opened RankProtocol
  import opened RankControl
  import opened RankSimulation
  import opened RankTheorems

  lemma {:induction false} LockstepCounters(cfg: RunConfig, start: TrainState, s: nat)
    requires cfg.Valid()
    ensures var state := Lockstep(cfg, start, s);
      && state.globalStep == start.globalStep + s
      && state.optimizer.step == start.optimizer.step + s
      && state.dataCursor == start.dataCursor + s * cfg.context
  {
    if s > 0 {
      LockstepCounters(cfg, start, s - 1);
      assert s * cfg.context == (s - 1) * cfg.context + cfg.context;
    }
  }

  /** The step the ready file announces at the end of the run. */
  function FinalStep(cfg: RunConfig, files: Files): nat {
    StartOr(cfg, files).globalStep + cfg.steps
  }

  /** The rank has left its wait (or, as rank 0, has published). */
  predicate LeftWait(cfg: RunConfig, st: State, r: nat)
    requires r < |st.ranks|
  {
    PhaseOf(cfg, st.ranks[r].pc) == Announced
  }

  predicate Held(cfg: RunConfig, st: State) {
    && |st.ranks| > 0
    && (forall r :: 0 <= r < |st.ranks| && LeftWait(cfg, st, r) ==> LeftWait(cfg, st, 0))
    && (forall r :: 0 <= r < |st.ranks| ==> st.ranks[r].pc != Failed(Unverified))
  }

  /** A ready file that names the final step was written by rank 0 of this run. */
  lemma ReadyIsFresh(cfg: RunConfig, start: TrainState, files: Files, phase: Phase, now: Files)
    requires cfg.Valid() && FilesIn(cfg, start, files, phase, now)
    requires files.readyFile != Some(Lockstep(cfg, start, cfg.steps).globalStep)
    requires now.readyFile == Some(Lockstep(cfg, start, cfg.steps).globalStep)
    ensures phase == Announced
  {
  }

  lemma PublishedVerifies(cfg: RunConfig, start: TrainState, files: Files, st: State, me: Rank)
    requires cfg.Valid() && cfg.checkpointTo.Some? && FilesIn(cfg, start, files, Announced, st.files)
    requires me.train == Lockstep(cfg, start, cfg.steps)
    ensures Verify(cfg, st, me).pc == Done
  {
  }

  lemma ClosingHolds(cfg: RunConfig, start: TrainState, files: Files, st: State, r: nat)
    requires Follows(cfg, start, files, st) && Held(cfg, st) && r < cfg.World()
    requires MoveClosing(cfg, st, r).Some?
    requires files.readyFile != Some(Lockstep(cfg, start, cfg.steps).globalStep)
    ensures var pc := MoveClosing(cfg, st, r).value.rank.pc;
      && pc != Failed(Unverified)
      && (LeftWait(cfg, st, r) ==> PhaseOf(cfg, pc) == Announced)
      && (PhaseOf(cfg, pc) == Announced ==> r == 0 || LeftWait(cfg, st, 0))
  {
    assert RankCounted(cfg, st, r);
    assert RankFollows(cfg, start, files, st.ranks[r], r);
    var me := st.ranks[r];
    if me.pc.Verifying? {
      assert LeftWait(cfg, st, r);
      PublishedVerifies(cfg, start, files, st, me);
    } else if me.pc.AwaitReady? {
      ReadyIsFresh(cfg, start, files, PhaseOf(cfg, st.ranks[0].pc), st.files);
    } else {
      OtherClosing(cfg, st, r);
    }
  }

  lemma OtherClosing(cfg: RunConfig, st: State, r: nat)
    requires |st.ranks| == cfg.World() && r < cfg.World() && Placed(cfg, r, st.ranks[r].pc)
    requires MoveClosing(cfg, st, r).Some? && !st.ranks[r].pc.Verifying? && !st.ranks[r].pc.AwaitReady?
    ensures var pc := MoveClosing(cfg, st, r).value.rank.pc;
      && pc != Failed(Unverified) && !LeftWait(cfg, st, r)
      && (PhaseOf(cfg, pc) == Announced ==> r == 0)
  {
  }

  lemma TrainingHolds(cfg: RunConfig, st: State, r: nat)
    requires cfg.Valid() && |st.ranks| == cfg.World() && r < cfg.World() && MoveTraining(cfg, st, r).Some?
    ensures PhaseOf(cfg, MoveTraining(cfg, st, r).value.rank.pc) == Untouched
    ensures MoveTraining(cfg, st, r).value.rank.pc != Failed(Unverified)
    ensures !LeftWait(cfg, st, r)
  {
  }

  lemma JoiningHolds(cfg: RunConfig, st: State, r: nat)
    requires cfg.Valid() && |st.ranks| == cfg.World() && r < cfg.World() && MoveJoining(cfg, st, r).Some?
    ensures PhaseOf(cfg, MoveJoining(cfg, st, r).value.rank.pc) == Untouched
    ensures MoveJoining(cfg, st, r).value.rank.pc != Failed(Unverified)
    ensures !LeftWait(cfg, st, r)
  {
  }

  lemma MoveHolds(cfg: RunConfig, start: TrainState, files: Files, st: State, r: nat)
    requires Follows(cfg, start, files, st) && Held(cfg, st) && r < cfg.World() && Move(cfg, st, r).Some?
    requires files.readyFile != Some(Lockstep(cfg, start, cfg.steps).globalStep)
    ensures Held(cfg, After(st, r, Move(cfg, st, r).value))
  {
    var pc := st.ranks[r].pc;
    if pc.Sending? || pc.Waiting? {
      TrainingHolds(cfg, st, r);
    } else if pc.Joins() {
      JoiningHolds(cfg, st, r);
    } else {
      ClosingHolds(cfg, start, files, st, r);
    }
    EffectHolds(cfg, st, r, Move(cfg, st, r).value);
  }

  lemma EffectHolds(cfg: RunConfig, st: State, r: nat, effect: Effect)
    requires Held(cfg, st) && r < |st.ranks| && effect.rank.pc != Failed(Unverified)
    requires LeftWait(cfg, st, r) ==> PhaseOf(cfg, effect.rank.pc) == Announced
    requires PhaseOf(cfg, effect.rank.pc) == Announced ==> r == 0 || LeftWait(cfg, st, 0)
    ensures Held(cfg, After(st, r, effect))
  {
    var next := After(st, r, effect);
    forall q | 0 <= q < |next.ranks| && LeftWait(cfg, next, q) ensures LeftWait(cfg, next, 0) {
      if q != r {
        assert LeftWait(cfg, st, q);
      }
    }
  }

  lemma GiveUpHolds(cfg: RunConfig, st: State, r: nat)
    requires Held(cfg, st) && r < |st.ranks|
    ensures Held(cfg, After(st, r, Effect(GiveUp(st.ranks[r]), st.files)))
  {
    var me := GiveUp(st.ranks[r]);
    assert me == st.ranks[r] || (me.pc.Failed? && me.pc != Failed(Unverified));
    assert me == st.ranks[r] ==> PhaseOf(cfg, me.pc) == PhaseOf(cfg, st.ranks[r].pc);
    assert LeftWait(cfg, st, r) ==> LeftWait(cfg, st, 0);
    EffectHolds(cfg, st, r, Effect(me, st.files));
  }

  lemma ApplyHolds(cfg: RunConfig, start: TrainState, files: Files, st: State, event: Event)
    requires Follows(cfg, start, files, st) && Held(cfg, st)
    requires files.readyFile != Some(Lockstep(cfg, start, cfg.steps).globalStep)
    ensures Held(cfg, Apply(cfg, st, event))
  {
    if event.r < cfg.World() {
      match event
      case Run(r) => {
        if Move(cfg, st, r).Some? {
          MoveHolds(cfg, start, files, st, r);
        }
      }
      case Timeout(r) => {
        GiveUpHolds(cfg, st, r);
      }
    }
  }

  lemma {:induction false} RunHolds(cfg: RunConfig, start: TrainState, files: Files, st: State, events: seq<Event>)
    requires Follows(cfg, start, files, st) && Held(cfg, st) && start == StartOr(cfg, files)
    requires files.readyFile != Some(Lockstep(cfg, start, cfg.steps).globalStep)
    ensures Held(cfg, Execute(cfg, st, events))
  {
    if events != [] {
      RunHolds(cfg, start, files, st, events[..|events| - 1]);
      RunFollows(cfg, start, files, st, events[..|events| - 1]);
      ApplyHolds(cfg, start, files, Execute(cfg, st, events[..|events| - 1]), events[|events| - 1]);
    }
  }

  lemma InitialHeld(cfg: RunConfig, files: Files)
    requires cfg.Valid()
    ensures Held(cfg, Initial(cfg, files))
  {
    forall r | 0 <= r < cfg.World() ensures !LeftWait(cfg, Initial(cfg, files), r) {}
  }

  lemma ReachableHeld(cfg: RunConfig, files: Files, st: State)
    requires cfg.Valid() && Reachable(cfg, files, st)
    requires files.readyFile != Some(FinalStep(cfg, files))
    ensures Held(cfg, st)
  {
    var events :| st == Execute(cfg, Initial(cfg, files), events);
    var start := StartOr(cfg, files);
    LockstepCounters(cfg, start, cfg.steps);
    InitialFollows(cfg, files);
    InitialHeld(cfg, files);
    RunHolds(cfg, start, files, Initial(cfg, files), events);
  }

  /** Once rank 0 has published, the checkpoint holds the reference state of the final step, and every rank
      has finished training. */
  lemma SavedByRankZero(cfg: RunConfig, files: Files, st: State)
    requires cfg.Valid() && Reachable(cfg, files, st) && LeftWait(cfg, st, 0)
    ensures Sum(cfg.Tokens()) > 0 && cfg.checkpointTo.Some? && cfg.checkpointTo.value in st.files.checkpoints
    ensures st.files.checkpoints[cfg.checkpointTo.value]
      == Saved(cfg.contract, ReferenceRun(cfg, StartOr(cfg, files), cfg.steps))
    ensures AllSent(st, Base(cfg, cfg.steps) + 1)
    ensures !cfg.injectFailure
  {
    var start := StartOr(cfg, files);
    ReachableFollows(cfg, files, st);
    assert RankCounted(cfg, st, 0) && RankFollows(cfg, start, files, st.ranks[0], 0);
    PublishingIsSynced(cfg, st.ranks[0].pc);
    RanksSimulateReference(cfg, files, st, 0);
  }

  /** If the ready file did not already name this run's final step, a rank leaves its wait only after rank 0
      has saved the reference state of the final step and every rank has finished training; what it then
      loads verifies. */
  lemma PublicationSafety(cfg: RunConfig, files: Files, st: State, r: nat)
    requires cfg.Valid() && Reachable(cfg, files, st) && r < cfg.World()
    requires files.readyFile != Some(FinalStep(cfg, files)) && LeftWait(cfg, st, r)
    ensures st.ranks[r].pc != Failed(Unverified)
    ensures Sum(cfg.Tokens()) > 0 && cfg.checkpointTo.Some? && cfg.checkpointTo.value in st.files.checkpoints
    ensures st.files.checkpoints[cfg.checkpointTo.value]
      == Saved(cfg.contract, ReferenceRun(cfg, StartOr(cfg, files), cfg.steps))
    ensures AllSent(st, Base(cfg, cfg.steps) + 1)
    ensures !cfg.injectFailure
  {
    ReachableHeld(cfg, files, st);
    SavedByRankZero(cfg, files, st);
  }

  /** With the injected failure of rank 0 no rank ever reports a verified checkpoint. */
  lemma InjectedFailureNeverVerifies(cfg: RunConfig, files: Files, st: State, r: nat)
    requires cfg.Valid() && Reachable(cfg, files, st) && r < cfg.World()
    requires cfg.injectFailure && files.readyFile != Some(FinalStep(cfg, files))
    ensures st.ranks[r].pc != Verifying && st.ranks[r].pc != Done
    ensures SameCheckpoints(st.files, files)
  {
    ReachableFollows(cfg, files, st);
    assert RankCounted(cfg, st, 0);
    InjectedStaysQuiet(cfg, st.ranks[0].pc);
    ReachableHeld(cfg, files, st);
    NobodyLeft(cfg, st, r);
  }

  lemma NobodyLeft(cfg: RunConfig, st: State, r: nat)
    requires Held(cfg, st) && r < |st.ranks| && !LeftWait(cfg, st, 0) && cfg.checkpointTo.Some?
    ensures st.ranks[r].pc != Verifying && st.ranks[r].pc != Done
  {
    assert !LeftWait(cfg, st, r);
  }

  lemma InjectedStaysQuiet(cfg: RunConfig, pc: Pc)
    requires Placed(cfg, 0, pc) && cfg.injectFailure && cfg.checkpointTo.Some?
    ensures PhaseOf(cfg, pc) == Untouched
  {
  }
}
