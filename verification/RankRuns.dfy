/** Whole runs of the ranked protocol: fair runs finish, leftovers of earlier runs break them, and a resumed
    run ends where an uninterrupted one does. */
module RankRuns {
  import opened Basics
  import opened Vectors
  import opened BucketRanges
  import opened Reducers
  import opened Training
  import opened RankProtocol
  import opened RankControl
  import opened RankSimulation
  import opened RankTheorems
  import opened RankPublication
  import opened RankProgress

  lemma {:induction false} ExecuteAppend(cfg: RunConfig, st: State, a: seq<Event>, b: seq<Event>)
    requires cfg.Valid() && |st.ranks| == cfg.World()
    ensures Execute(cfg, st, a + b) == Execute(cfg, Execute(cfg, st, a), b)
  {
    if b == [] {
      assert a + b == a;
    } else {
      assert (a + b)[..|a + b| - 1] == a + b[..|b| - 1];
      ExecuteAppend(cfg, st, a, b[..|b| - 1]);
    }
  }

  // ----- fair runs finish -----------------------------------------------------------------------------------

  /** A round lets every rank run at least once, in any order, and nobody loses patience. */
  predicate Round(cfg: RunConfig, events: seq<Event>) {
    && (forall r :: 0 <= r < cfg.World() ==> Run(r) in events)
    && (forall k :: 0 <= k < |events| ==> events[k].Run?)
  }

  ghost predicate Sound(cfg: RunConfig, files: Files, st: State) {
    Healthy(cfg, files) && Alive(cfg, files, st) && Held(cfg, st)
  }

  lemma InitialSound(cfg: RunConfig, files: Files)
    requires Healthy(cfg, files)
    ensures Sound(cfg, files, Initial(cfg, files))
  {
    InitialAlive(cfg, files);
    InitialHeld(cfg, files);
  }

  lemma InitialAlive(cfg: RunConfig, files: Files)
    requires Sane(cfg, files)
    ensures Alive(cfg, files, Initial(cfg, files))
  {
    InitialFollows(cfg, files);
    InitialJoins(cfg, files);
  }

  lemma InitialJoins(cfg: RunConfig, files: Files)
    requires cfg.World() > 0 && (files.idFile.Some? ==> files.idFile.value == cfg.freshId)
    ensures OneId(cfg, Initial(cfg, files)) && JoinsRecorded(Initial(cfg, files)) && NoneFailed(Initial(cfg, files))
  {
  }

  lemma MoveKeepsSound(cfg: RunConfig, files: Files, st: State, r: nat)
    requires Sound(cfg, files, st) && r < cfg.World() && Move(cfg, st, r).Some?
    ensures var next := After(st, r, Move(cfg, st, r).value);
      Sound(cfg, files, next) && TotalLeft(cfg, next.ranks) < TotalLeft(cfg, st.ranks)
  {
    SoundMoveHolds(cfg, files, st, r);
    MoveKeepsAlive(cfg, files, st, r);
    MoveLowersTotal(cfg, st, r);
  }

  /** In a healthy run neither the verification nor, by injection, rank 0 fails. */
  lemma SoundMoveHolds(cfg: RunConfig, files: Files, st: State, r: nat)
    requires Sound(cfg, files, st) && r < cfg.World() && Move(cfg, st, r).Some?
    ensures Held(cfg, After(st, r, Move(cfg, st, r).value))
    ensures Move(cfg, st, r).value.rank.pc !in {Failed(Unverified), Failed(Injected)}
  {
    FreshReadyFile(cfg, files);
    MoveHolds(cfg, StartOr(cfg, files), files, st, r);
    MoveIsVerified(cfg, st, r);
  }

  lemma FreshReadyFile(cfg: RunConfig, files: Files)
    requires Healthy(cfg, files)
    ensures files.readyFile != Some(Lockstep(cfg, StartOr(cfg, files), cfg.steps).globalStep)
  {
    LockstepCounters(cfg, StartOr(cfg, files), cfg.steps);
  }

  lemma MoveIsVerified(cfg: RunConfig, st: State, r: nat)
    requires cfg.Valid() && !cfg.injectFailure && Counted(cfg, st) && r < cfg.World() && Move(cfg, st, r).Some?
    requires Held(cfg, After(st, r, Move(cfg, st, r).value))
    ensures Move(cfg, st, r).value.rank.pc !in {Failed(Unverified), Failed(Injected)}
  {
    HeldIsVerified(cfg, After(st, r, Move(cfg, st, r).value), r);
    MoveKeepsCount(cfg, st, r);
  }

  lemma HeldIsVerified(cfg: RunConfig, st: State, r: nat)
    requires Held(cfg, st) && r < |st.ranks|
    ensures st.ranks[r].pc != Failed(Unverified)
  {
  }

  lemma OneEvent(cfg: RunConfig, files: Files, st: State, event: Event)
    requires Sound(cfg, files, st) && event.Run?
    ensures Sound(cfg, files, Apply(cfg, st, event))
    ensures Apply(cfg, st, event) == st || TotalLeft(cfg, Apply(cfg, st, event).ranks) < TotalLeft(cfg, st.ranks)
    ensures event.r < cfg.World() && Move(cfg, st, event.r).Some? ==> Apply(cfg, st, event) != st
  {
    if event.r < cfg.World() && Move(cfg, st, event.r).Some? {
      MoveKeepsSound(cfg, files, st, event.r);
    }
  }

  lemma {:induction false} RunKeepsSound(cfg: RunConfig, files: Files, st: State, events: seq<Event>)
    requires Sound(cfg, files, st) && forall k :: 0 <= k < |events| ==> events[k].Run?
    ensures Sound(cfg, files, Execute(cfg, st, events))
    decreases |events|
  {
    if events != [] {
      var before, last := events[..|events| - 1], events[|events| - 1];
      RunKeepsSound(cfg, files, st, before);
      OneEvent(cfg, files, Execute(cfg, st, before), last);
    }
  }

  /** Whatever part of a round has run: either nothing could move, or the measure went down. */
  lemma {:induction false} RoundSoFar(cfg: RunConfig, files: Files, st: State, events: seq<Event>)
    requires Sound(cfg, files, st) && forall k :: 0 <= k < |events| ==> events[k].Run?
    ensures var end := Execute(cfg, st, events);
      end == st || TotalLeft(cfg, end.ranks) < TotalLeft(cfg, st.ranks)
    ensures Execute(cfg, st, events) == st ==> NothingMoves(cfg, st, events)
    decreases |events|
  {
    if events != [] {
      var before, last := events[..|events| - 1], events[|events| - 1];
      RoundSoFar(cfg, files, st, before);
      RunKeepsSound(cfg, files, st, before);
      OneEvent(cfg, files, Execute(cfg, st, before), last);
      if Execute(cfg, st, events) == st {
        NothingMovesAppend(cfg, st, before, last);
        assert before + [last] == events;
      }
    }
  }

  /** None of these events finds a rank that can move. */
  ghost predicate NothingMoves(cfg: RunConfig, st: State, events: seq<Event>)
    requires cfg.Valid() && |st.ranks| == cfg.World()
  {
    forall k :: 0 <= k < |events| && events[k].r < cfg.World() ==> Move(cfg, st, events[k].r).None?
  }

  lemma NothingMovesAppend(cfg: RunConfig, st: State, before: seq<Event>, last: Event)
    requires cfg.Valid() && |st.ranks| == cfg.World() && NothingMoves(cfg, st, before)
    requires last.r < cfg.World() ==> Move(cfg, st, last.r).None?
    ensures NothingMoves(cfg, st, before + [last])
  {
  }

  lemma RoundProgresses(cfg: RunConfig, files: Files, st: State, events: seq<Event>)
    requires Sound(cfg, files, st) && Round(cfg, events) && !AllDone(st)
    ensures Sound(cfg, files, Execute(cfg, st, events))
    ensures TotalLeft(cfg, Execute(cfg, st, events).ranks) < TotalLeft(cfg, st.ranks)
  {
    RoundSoFar(cfg, files, st, events);
    RunKeepsSound(cfg, files, st, events);
    var e := NoDeadlock(cfg, files, st);
    assert Run(e) in events;
    var k :| 0 <= k < |events| && events[k] == Run(e);
    assert events[k].r < cfg.World();
  }

  lemma DoneStays(cfg: RunConfig, st: State, event: Event)
    requires cfg.Valid() && |st.ranks| == cfg.World() && AllDone(st)
    ensures Apply(cfg, st, event) == st
  {
    if event.r < cfg.World() {
      assert st.ranks[event.r].pc == Done;
      assert st.ranks[event.r := st.ranks[event.r]] == st.ranks;
    }
  }

  lemma {:induction false} DoneForGood(cfg: RunConfig, st: State, events: seq<Event>)
    requires cfg.Valid() && |st.ranks| == cfg.World() && AllDone(st)
    ensures Execute(cfg, st, events) == st
  {
    if events != [] {
      DoneForGood(cfg, st, events[..|events| - 1]);
      DoneStays(cfg, st, events[|events| - 1]);
    }
  }

  lemma {:induction false} RoundsFinish(cfg: RunConfig, files: Files, st: State, rounds: seq<seq<Event>>)
    requires Sound(cfg, files, st)
    requires forall k :: 0 <= k < |rounds| ==> Round(cfg, rounds[k])
    requires TotalLeft(cfg, st.ranks) <= |rounds|
    ensures Sound(cfg, files, Execute(cfg, st, Concat(rounds))) && AllDone(Execute(cfg, st, Concat(rounds)))
    decreases |rounds|
  {
    if AllDone(st) {
      DoneForGood(cfg, st, Concat(rounds));
    } else if rounds == [] {
      MeasureSpent(cfg, files, st);
    } else {
      RoundProgresses(cfg, files, st, rounds[0]);
      RoundsFinish(cfg, files, Execute(cfg, st, rounds[0]), rounds[1..]);
      ExecuteAppend(cfg, st, rounds[0], Concat(rounds[1..]));
    }
  }

  lemma MeasureSpent(cfg: RunConfig, files: Files, st: State)
    requires Sound(cfg, files, st) && TotalLeft(cfg, st.ranks) == 0
    ensures AllDone(st)
  {
    if !AllDone(st) {
      NothingLeft(cfg, st.ranks);
      var e := NoDeadlock(cfg, files, st);
      MoveDecreases(cfg, st, e);
    }
  }

  lemma {:induction false} NothingLeft(cfg: RunConfig, ranks: seq<Rank>)
    requires TotalLeft(cfg, ranks) == 0
    ensures forall r :: 0 <= r < |ranks| ==> MovesLeft(cfg, ranks[r].pc) == 0
  {
    if ranks != [] {
      NothingLeft(cfg, ranks[1..]);
    }
  }

  /** Every healthy run that keeps giving each rank a turn finishes on all ranks, with the reference state
      everywhere and, if requested, the published checkpoint of that state. */
  lemma FairRunsFinish(cfg: RunConfig, files: Files, rounds: seq<seq<Event>>) returns (end: State)
    requires Healthy(cfg, files)
    requires forall k :: 0 <= k < |rounds| ==> Round(cfg, rounds[k])
    requires TotalLeft(cfg, Initial(cfg, files).ranks) <= |rounds|
    ensures end == Execute(cfg, Initial(cfg, files), Concat(rounds)) && AllDone(end)
    ensures Sum(cfg.Tokens()) > 0
    ensures forall r :: 0 <= r < cfg.World() ==> end.ranks[r].train == ReferenceRun(cfg, StartOr(cfg, files), cfg.steps)
    ensures cfg.checkpointTo.Some? ==>
      && cfg.checkpointTo.value in end.files.checkpoints
      && end.files.checkpoints[cfg.checkpointTo.value]
           == Saved(cfg.contract, ReferenceRun(cfg, StartOr(cfg, files), cfg.steps))
  {
    InitialSound(cfg, files);
    RoundsFinish(cfg, files, Initial(cfg, files), rounds);
    end := Execute(cfg, Initial(cfg, files), Concat(rounds));
    assert Reachable(cfg, files, end);
    FinishedRun(cfg, files, end);
  }

  lemma FinishedRun(cfg: RunConfig, files: Files, end: State)
    requires cfg.Valid() && Reachable(cfg, files, end) && AllDone(end)
    ensures Sum(cfg.Tokens()) > 0
    ensures forall r :: 0 <= r < cfg.World() ==> end.ranks[r].train == ReferenceRun(cfg, StartOr(cfg, files), cfg.steps)
    ensures cfg.checkpointTo.Some? ==>
      && cfg.checkpointTo.value in end.files.checkpoints
      && end.files.checkpoints[cfg.checkpointTo.value]
           == Saved(cfg.contract, ReferenceRun(cfg, StartOr(cfg, files), cfg.steps))
  {
    forall r | 0 <= r < cfg.World()
      ensures Sum(cfg.Tokens()) > 0 && end.ranks[r].train == ReferenceRun(cfg, StartOr(cfg, files), cfg.steps)
    {
      RanksSimulateReference(cfg, files, end, r);
    }
    assert Sum(cfg.Tokens()) > 0 by {
      RanksSimulateReference(cfg, files, end, 0);
    }
    if cfg.checkpointTo.Some? {
      assert LeftWait(cfg, end, 0);
      SavedByRankZero(cfg, files, end);
    }
  }

  // ----- resuming -------------------------------------------------------------------------------------------

  /** Two runs of the same training task; policy, layout, step count and file names may differ. */
  ghost predicate SameTask(a: RunConfig, b: RunConfig) {
    && a.trainer == b.trainer && a.batches == b.batches && a.context == b.context
    && a.seeded == b.seeded && a.contract == b.contract
  }

  /** `k` steps with a checkpoint, then a new process group that resumes from it for `m` steps, end in the
      same training state as one uninterrupted run of `k + m` steps: although the first resumed step reduces
      synchronously where the uninterrupted run overlaps, and whatever the policies of the three runs. */
  lemma ResumeEqualsUninterrupted(first: RunConfig, second: RunConfig, whole: RunConfig,
                                  filesA: Files, endA: State, filesB: Files, endB: State, filesC: Files, endC: State,
                                  rank: nat, name: string)
    requires first.Valid() && second.Valid() && whole.Valid()
    requires SameTask(first, second) && SameTask(first, whole) && whole.steps == first.steps + second.steps
    requires first.resumeFrom == None && first.checkpointTo == Some(name)
    requires second.resumeFrom == Some(name) && whole.resumeFrom == None
    requires Reachable(first, filesA, endA) && AllDone(endA)
    requires filesB.checkpoints == endA.files.checkpoints
    requires Reachable(second, filesB, endB) && rank < second.World() && endB.ranks[rank].pc == Done
    requires Reachable(whole, filesC, endC) && endC.ranks[rank].pc == Done
    ensures endB.ranks[rank].train == endC.ranks[rank].train
  {
    FinishedRun(first, filesA, endA);
    ResumeStart(first, second, filesB, name);
    RanksSimulateReference(second, filesB, endB, rank);
    RanksSimulateReference(whole, filesC, endC, rank);
    EndsMeet(first, second, whole);
  }

  /** The references of the three runs fit together. */
  lemma EndsMeet(first: RunConfig, second: RunConfig, whole: RunConfig)
    requires first.Valid() && second.Valid() && whole.Valid() && Sum(first.Tokens()) > 0
    requires SameTask(first, second) && SameTask(first, whole) && whole.steps == first.steps + second.steps
    ensures Sum(second.Tokens()) > 0 && Sum(whole.Tokens()) > 0
    ensures ReferenceRun(second, ReferenceRun(first, first.seeded, first.steps), second.steps)
      == ReferenceRun(whole, first.seeded, whole.steps)
  {
    SameReference(first, second, ReferenceRun(first, first.seeded, first.steps), second.steps);
    SameReference(first, whole, first.seeded, whole.steps);
    ReferenceResumes(first.trainer, first.seeded, Concat(first.batches), Sum(first.Tokens()), first.context,
                     first.steps, second.steps);
  }

  lemma ResumeStart(first: RunConfig, second: RunConfig, files: Files, name: string)
    requires first.Valid() && SameTask(first, second) && second.resumeFrom == Some(name) && Sum(first.Tokens()) > 0
    requires name in files.checkpoints
    requires files.checkpoints[name] == Saved(first.contract, ReferenceRun(first, first.seeded, first.steps))
    ensures StartOr(second, files) == ReferenceRun(first, first.seeded, first.steps)
  {
  }

  /** The reference does not depend on the policy of the run. */
  lemma SameReference(a: RunConfig, b: RunConfig, start: TrainState, n: nat)
    requires a.Valid() && b.Valid() && Sum(a.Tokens()) > 0
    requires a.trainer == b.trainer && a.batches == b.batches && a.context == b.context
    ensures a.Tokens() == b.Tokens() && ReferenceRun(a, start, n) == ReferenceRun(b, start, n)
  {
  }

  // ----- files left over from an earlier run --------------------------------------------------------------

  /** Rank 1 holds an identifier that rank 0 did not create, and nobody has got past joining. */
  predicate Misled(cfg: RunConfig, st: State, stale: nat) {
    && |st.ranks| == cfg.World() > 1
    && (st.ranks[1].pc == EnterJoin(stale) || (st.ranks[1].pc == InJoin && st.ranks[1].joined == Some(stale)))
    && (st.ranks[0].joined.Some? ==> st.ranks[0].joined.value == cfg.freshId)
    && (st.ranks[0].pc.EnterJoin? ==> st.ranks[0].pc.id == cfg.freshId)
    && (st.ranks[0].pc.RemoveId? || st.ranks[0].pc.PublishId? || st.ranks[0].pc.EnterJoin? || st.ranks[0].pc.InJoin?)
    && (st.ranks[0].pc.InJoin? ==> st.ranks[0].joined.Some?)
    && (st.ranks[1].pc.EnterJoin? ==> st.ranks[1].joined.None?)
    && (forall r :: 0 <= r < |st.ranks| ==> Stuck(st.ranks[r]))
  }

  predicate Stuck(rank: Rank) {
    && rank.sent == []
    && (rank.pc == Failed(IdTimeout) || (rank.pc.Joins() && !rank.pc.InTokens?))
    && (rank.pc.InJoin? ==> rank.joined.Some?)
  }

  lemma MisledMove(cfg: RunConfig, st: State, stale: nat, r: nat)
    requires cfg.Valid() && Misled(cfg, st, stale) && stale != cfg.freshId && r < cfg.World()
    requires MoveJoining(cfg, st, r).Some? && !st.ranks[r].pc.InJoin?
    ensures Misled(cfg, After(st, r, MoveJoining(cfg, st, r).value), stale)
  {
    assert Stuck(st.ranks[r]);
  }

  lemma MisledStays(cfg: RunConfig, st: State, stale: nat, event: Event)
    requires cfg.Valid() && Misled(cfg, st, stale) && stale != cfg.freshId
    ensures Misled(cfg, Apply(cfg, st, event), stale)
  {
    if event.r < cfg.World() {
      assert Stuck(st.ranks[event.r]);
      if st.ranks[event.r].pc.InJoin? {
        assert !AllJoined(st, st.ranks[event.r].joined);
      } else if event.Run? && st.ranks[event.r].pc.Joins() && MoveJoining(cfg, st, event.r).Some? {
        MisledMove(cfg, st, stale, event.r);
      }
    }
  }

  lemma {:induction false} MisledForever(cfg: RunConfig, st: State, stale: nat, events: seq<Event>)
    requires cfg.Valid() && Misled(cfg, st, stale) && stale != cfg.freshId
    ensures Misled(cfg, Execute(cfg, st, events), stale)
  {
    if events != [] {
      MisledForever(cfg, st, stale, events[..|events| - 1]);
      MisledStays(cfg, Execute(cfg, st, events[..|events| - 1]), stale, events[|events| - 1]);
    }
  }

  /** An identifier file left over from an earlier run can hang the whole group: if rank 1 reads it before
      rank 0 removes it, no rank ever contributes to any collective, whatever happens afterwards. */
  lemma StaleIdHangs(cfg: RunConfig, files: Files, events: seq<Event>)
    requires cfg.Valid() && cfg.World() > 1
    requires files.idFile.Some? && files.idFile.value != cfg.freshId
    ensures var end := Execute(cfg, Initial(cfg, files), [Run(1)] + events);
      forall r :: 0 <= r < cfg.World() ==> end.ranks[r].sent == [] && end.ranks[r].pc != Done
  {
    var start := Initial(cfg, files);
    ExecuteAppend(cfg, start, [Run(1)], events);
    assert Execute(cfg, start, []) == start;
    var misled := Execute(cfg, start, [Run(1)]);
    assert [Run(1)][..0] == [];
    assert misled == Apply(cfg, start, Run(1));
    assert Misled(cfg, misled, files.idFile.value);
    MisledForever(cfg, misled, files.idFile.value, events);
    var end := Execute(cfg, misled, events);
    forall r | 0 <= r < cfg.World() ensures end.ranks[r].sent == [] && end.ranks[r].pc != Done {
      assert Stuck(end.ranks[r]);
    }
  }

  /** Before publication: no rank has passed its wait and rank 0 has not left the barrier. */
  ghost predicate BeforePublication(cfg: RunConfig, files: Files, st: State) {
    Sane(cfg, files) && Alive(cfg, files, st) && AllEarly(cfg, st)
  }

  predicate AllEarly(cfg: RunConfig, st: State) {
    && cfg.checkpointTo.Some? && |st.ranks| == cfg.World() > 1
    && (forall r :: 0 <= r < |st.ranks| ==> EarlyPc(st.ranks[r].pc))
  }

  predicate EarlyPc(pc: Pc) {
    pc.Joins() || pc.Sending? || pc.Waiting? || pc.EnterBarrier? || pc.InBarrier? || pc.AwaitReady?
  }

  /** Until rank 1 waits for the ready file, some rank other than rank 0 at the barrier can move. */
  lemma SomeoneApproaches(cfg: RunConfig, files: Files, st: State) returns (e: nat)
    requires Alive(cfg, files, st) && AllEarly(cfg, st) && !st.ranks[1].pc.AwaitReady?
    ensures e < cfg.World() && Move(cfg, st, e).Some?
    ensures !st.ranks[e].pc.AwaitReady? && (st.ranks[e].pc.InBarrier? ==> e != 0)
  {
    var m := LeastSent(st.ranks);
    assert EarlyPc(st.ranks[m].pc);
    if st.ranks[m].pc.AwaitReady? || (m == 0 && st.ranks[m].pc.InBarrier?) {
      PeerLeavesBarrier(cfg, st, m);
      e := 1;
    } else {
      e := HindmostMoves(cfg, files, st, m);
    }
  }

  /** When nobody is behind the barrier, rank 1 can go on to its wait. */
  lemma PeerLeavesBarrier(cfg: RunConfig, st: State, m: nat)
    requires cfg.Valid() && Counted(cfg, st) && AllEarly(cfg, st) && !st.ranks[1].pc.AwaitReady? && m < cfg.World()
    requires AllSent(st, |st.ranks[m].sent|) && (st.ranks[m].pc.AwaitReady? || st.ranks[m].pc.InBarrier?)
    ensures st.ranks[1].pc.InBarrier? && Move(cfg, st, 1).Some?
  {
    assert EarlyPc(st.ranks[1].pc);
    assert RankCounted(cfg, st, m) && RankCounted(cfg, st, 1);
    FullySentPcs(cfg, 1, st.ranks[1].pc);
  }

  lemma ApproachStaysEarly(cfg: RunConfig, st: State, e: nat)
    requires cfg.Valid() && |st.ranks| == cfg.World() && e < cfg.World() && Move(cfg, st, e).Some?
    requires cfg.checkpointTo.Some? && EarlyPc(st.ranks[e].pc)
    requires !st.ranks[e].pc.AwaitReady? && (st.ranks[e].pc.InBarrier? ==> e != 0)
    ensures var pc := Move(cfg, st, e).value.rank.pc;
      (EarlyPc(pc) || pc.Failed?) && pc !in {Failed(Unverified), Failed(Injected)}
  {
    var pc := st.ranks[e].pc;
    if pc.Sending? || pc.Waiting? {
      ApproachTraining(cfg, st, e);
    } else if pc.InTokens? {
      ApproachGate(cfg, st, e, AverageOf(Inputs(st, 0)));
    }
  }

  lemma ApproachTraining(cfg: RunConfig, st: State, e: nat)
    requires cfg.Valid() && |st.ranks| == cfg.World() && e < cfg.World() && MoveTraining(cfg, st, e).Some?
    requires cfg.checkpointTo.Some?
    ensures var pc := MoveTraining(cfg, st, e).value.rank.pc;
      EarlyPc(pc) || pc == Failed(Diverged)
  {
  }

  lemma ApproachGate(cfg: RunConfig, st: State, e: nat, average: Vector)
    requires cfg.Valid() && |st.ranks| == cfg.World() && e < cfg.World()
    ensures var pc := Gate(cfg, st, e, average).pc;
      EarlyPc(pc) || pc == Failed(Uneven) || pc == Failed(ContractChanged)
  {
  }

  lemma ExecuteOne(cfg: RunConfig, st: State, event: Event)
    requires cfg.Valid() && |st.ranks| == cfg.World()
    ensures Execute(cfg, st, [event]) == Apply(cfg, st, event)
  {
    assert [event][..0] == [];
    assert Execute(cfg, st, []) == st;
  }

  lemma ApproachStep(cfg: RunConfig, files: Files, st: State) returns (event: Event)
    requires BeforePublication(cfg, files, st) && !st.ranks[1].pc.AwaitReady?
    ensures BeforePublication(cfg, files, Apply(cfg, st, event))
    ensures TotalLeft(cfg, Apply(cfg, st, event).ranks) < TotalLeft(cfg, st.ranks)
  {
    var e := SomeoneApproaches(cfg, files, st);
    event := Run(e);
    assert EarlyPc(st.ranks[e].pc);
    ApproachStaysEarly(cfg, st, e);
    MoveKeepsAlive(cfg, files, st, e);
    StaysEarly(cfg, st, e, Move(cfg, st, e).value);
    MoveLowersTotal(cfg, st, e);
  }

  lemma MoveLowersTotal(cfg: RunConfig, st: State, e: nat)
    requires cfg.Valid() && Counted(cfg, st) && e < cfg.World() && Move(cfg, st, e).Some?
    ensures TotalLeft(cfg, Apply(cfg, st, Run(e)).ranks) < TotalLeft(cfg, st.ranks)
  {
    MoveDecreases(cfg, st, e);
    TotalAfter(cfg, st.ranks, e, Move(cfg, st, e).value.rank);
  }

  lemma StaysEarly(cfg: RunConfig, st: State, e: nat, effect: Effect)
    requires AllEarly(cfg, st) && e < cfg.World()
    requires NoneFailed(After(st, e, effect)) && (EarlyPc(effect.rank.pc) || effect.rank.pc.Failed?)
    ensures AllEarly(cfg, After(st, e, effect))
  {
    var next := After(st, e, effect);
    assert next.ranks[e] == effect.rank && !next.ranks[e].pc.Failed?;
  }

  /** Everybody but rank 0 can get as far as the wait for the ready file while rank 0 stays at the barrier. */
  lemma Approach(cfg: RunConfig, files: Files, st: State) returns (events: seq<Event>)
    requires BeforePublication(cfg, files, st)
    ensures BeforePublication(cfg, files, Execute(cfg, st, events))
    ensures Execute(cfg, st, events).ranks[1].pc.AwaitReady?
    decreases TotalLeft(cfg, st.ranks)
  {
    if st.ranks[1].pc.AwaitReady? {
      return [];
    }
    var event := ApproachStep(cfg, files, st);
    var rest := Approach(cfg, files, Apply(cfg, st, event));
    events := [event] + rest;
    ExecuteAppend(cfg, st, [event], rest);
    ExecuteOne(cfg, st, event);
  }

  /** Before publication the files are untouched, and a rank that waits has finished training. */
  lemma NearPublication(cfg: RunConfig, files: Files, near: State)
    requires BeforePublication(cfg, files, near) && near.ranks[1].pc.AwaitReady?
    ensures SameCheckpoints(near.files, files)
    ensures near.ranks[1].train == Lockstep(cfg, StartOr(cfg, files), cfg.steps)
  {
    EarlyIsUntouched(cfg, near.ranks[0].pc);
    assert FilesIn(cfg, StartOr(cfg, files), files, Untouched, near.files);
    assert RankFollows(cfg, StartOr(cfg, files), files, near.ranks[1], 1);
  }

  lemma EarlyIsUntouched(cfg: RunConfig, pc: Pc)
    requires EarlyPc(pc)
    ensures PhaseOf(cfg, pc) == Untouched
  {
  }

  lemma LeavesEarly(cfg: RunConfig, files: Files, near: State)
    requires cfg.Valid() && AllEarly(cfg, near) && near.ranks[1].pc.AwaitReady?
    requires SameCheckpoints(near.files, files) && files.readyFile == Some(FinalStep(cfg, files))
    requires near.ranks[1].train == Lockstep(cfg, StartOr(cfg, files), cfg.steps)
    ensures var end := Apply(cfg, near, Run(1));
      && LeftWait(cfg, end, 1) && !LeftWait(cfg, end, 0) && end.files.checkpoints == files.checkpoints
      && end.ranks[1].pc == Verifying && end.ranks[1].train == Lockstep(cfg, StartOr(cfg, files), cfg.steps)
  {
    assert EarlyPc(near.ranks[0].pc);
    LockstepCounters(cfg, StartOr(cfg, files), cfg.steps);
  }

  /** A ready file left over from an earlier run that names the same step defeats the wait: some run lets
      rank 1 leave it although rank 0 has saved nothing. */
  lemma StaleReadyBreaksSafety(cfg: RunConfig, files: Files) returns (events: seq<Event>)
    requires Sane(cfg, files) && cfg.checkpointTo.Some? && cfg.World() > 1
    requires files.readyFile == Some(FinalStep(cfg, files))
    ensures var end := Execute(cfg, Initial(cfg, files), events);
      && LeftWait(cfg, end, 1) && !LeftWait(cfg, end, 0) && end.files.checkpoints == files.checkpoints
      && end.ranks[1].pc == Verifying && end.ranks[1].train == Lockstep(cfg, StartOr(cfg, files), cfg.steps)
  {
    var st := Initial(cfg, files);
    InitialAlive(cfg, files);
    events := Approach(cfg, files, st);
    var near := Execute(cfg, st, events);
    NearPublication(cfg, files, near);
    LeavesEarly(cfg, files, near);
    ExecuteAppend(cfg, st, events, [Run(1)]);
    ExecuteOne(cfg, near, Run(1));
    events := events + [Run(1)];
  }

  /** In some run a rank leaves its wait before rank 0 has published. */
  ghost predicate CanLeaveEarly(cfg: RunConfig, files: Files)
    requires cfg.Valid()
  {
    exists st, r :: Reachable(cfg, files, st) && 0 <= r < cfg.World() && LeftWait(cfg, st, r) && !LeftWait(cfg, st, 0)
  }

  /** The wait is safe exactly when the ready file does not already name the final step. */
  lemma ReadyFileCondition(cfg: RunConfig, files: Files)
    requires Sane(cfg, files) && cfg.checkpointTo.Some? && cfg.World() > 1
    ensures CanLeaveEarly(cfg, files) <==> files.readyFile == Some(FinalStep(cfg, files))
  {
    if files.readyFile == Some(FinalStep(cfg, files)) {
      var events := StaleReadyBreaksSafety(cfg, files);
      var end := Execute(cfg, Initial(cfg, files), events);
      assert Reachable(cfg, files, end);
    } else if CanLeaveEarly(cfg, files) {
      var st, r :| Reachable(cfg, files, st) && 0 <= r < cfg.World() && LeftWait(cfg, st, r) && !LeftWait(cfg, st, 0);
      ReachableHeld(cfg, files, st);
    }
  }

  predicate Patient(events: seq<Event>) {
    forall k :: 0 <= k < |events| ==> events[k].Run?
  }

  /** Some run without a timeout gets into a state from which no continuation finishes. */
  ghost predicate CanHang(cfg: RunConfig, files: Files)
    requires cfg.Valid()
  {
    exists events :: Patient(events) && Doomed(cfg, Execute(cfg, Initial(cfg, files), events))
  }

  ghost predicate Doomed(cfg: RunConfig, st: State)
    requires cfg.Valid() && |st.ranks| == cfg.World()
  {
    forall events :: !AllDone(Execute(cfg, st, events))
  }

  function OneRound(n: nat): (round: seq<Event>)
    ensures |round| == n && forall r :: 0 <= r < n ==> round[r] == Run(r)
  {
    seq(n, r requires 0 <= r < n => Run(r))
  }

  lemma SoundCanFinish(cfg: RunConfig, files: Files, st: State) returns (events: seq<Event>)
    requires Sound(cfg, files, st)
    ensures AllDone(Execute(cfg, st, events))
  {
    var rounds := seq(TotalLeft(cfg, st.ranks), _ => OneRound(cfg.World()));
    forall k | 0 <= k < |rounds| ensures Round(cfg, rounds[k]) {
      forall r | 0 <= r < cfg.World() ensures Run(r) in rounds[k] {
        assert rounds[k][r] == Run(r);
      }
    }
    RoundsFinish(cfg, files, st, rounds);
    events := Concat(rounds);
  }

  /** The bootstrap is safe exactly when no identifier of an earlier run is lying around. */
  lemma IdFileCondition(cfg: RunConfig, files: Files)
    requires Healthy(cfg, files.(idFile := None)) && cfg.World() > 1
    ensures CanHang(cfg, files) <==> files.idFile.Some? && files.idFile.value != cfg.freshId
  {
    var start := Initial(cfg, files);
    if files.idFile.Some? && files.idFile.value != cfg.freshId {
      var misled := Execute(cfg, start, [Run(1)]);
      forall events ensures !AllDone(Execute(cfg, misled, events)) {
        StaleIdHangs(cfg, files, events);
        ExecuteAppend(cfg, start, [Run(1)], events);
        assert Execute(cfg, misled, events).ranks[0].pc != Done;
      }
      assert Patient([Run(1)]) && Doomed(cfg, misled);
    } else if CanHang(cfg, files) {
      var events :| Patient(events) && Doomed(cfg, Execute(cfg, start, events));
      InitialSound(cfg, files);
      RunKeepsSound(cfg, files, start, events);
      var rest := SoundCanFinish(cfg, files, Execute(cfg, start, events));
    }
  }

  /** Healthy runs exist for every world size and number of steps, so the results above are not empty. */
  lemma HealthyRunsExist(world: nat, steps: nat) returns (cfg: RunConfig, files: Files)
    requires world > 0 && steps > 0
    ensures cfg.World() == world && cfg.steps == steps && cfg.checkpointTo.Some? && Healthy(cfg, files)
  {
    var trainer := Trainer([1], (p: Gradient, row: Row) => [[0.0]],
                           (p: Gradient, o: OptimizerState, g: Gradient) => (p, o.first, o.second));
    var layout := Layout([1], [BucketRange(0, 1, 1)]);
    var seeded := TrainState([[0.0]], OptimizerState(0, [[0.0]], [[0.0]]), 0, 0);
    cfg := RunConfig(trainer, layout, OverlapViews, true, seq(world, _ => [Row([0], [0])]), 1, steps,
                     seeded, Contract("", "", ""), None, Some("checkpoint"), false, 0);
    files := Files(None, None, map[]);
    assert trainer.Valid() by {
      forall p, row ensures Shaped([1], trainer.rowGradient(p, row)) {
        assert trainer.rowGradient(p, row) == [[0.0]];
      }
    }
  }
}
