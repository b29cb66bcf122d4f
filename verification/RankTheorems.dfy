/** What the invariants say about every run of the ranked protocol. */
module RankTheorems {
  import opened Basics
  import opened Vectors
  import opened Reducers
  import opened Training
  import opened RankProtocol
  import opened RankControl
  import opened RankSimulation

  // ----- training computes the reference ------------------------------------------------------------

  /** Some run of the configuration from some files reaches `st`. */
  ghost predicate Reachable(cfg: RunConfig, files: Files, st: State)
    requires cfg.Valid()
  {
    exists events :: st == Execute(cfg, Initial(cfg, files), events)
  }

  lemma ReachableFollows(cfg: RunConfig, files: Files, st: State)
    requires cfg.Valid() && Reachable(cfg, files, st)
    ensures Follows(cfg, StartOr(cfg, files), files, st)
  {
    var events :| st == Execute(cfg, Initial(cfg, files), events);
    InitialFollows(cfg, files);
    RunFollows(cfg, StartOr(cfg, files), files, Initial(cfg, files), events);
  }

  lemma AcceptedScale(cfg: RunConfig, r: nat)
    requires cfg.Valid() && r < cfg.World() && Accepts(cfg, r)
    ensures AverageTokens(cfg.Tokens()) > 0.0
    ensures RankScale(cfg.tokenWeighted, cfg.Tokens(), r) == cfg.Tokens()[r] as real / AverageTokens(cfg.Tokens())
  {
    var average, _, _ := AverageTokensPositive(cfg.Tokens());
    QuotientOne(cfg.Tokens()[r] as real, average);
  }

  lemma LocalsAreWeighted(cfg: RunConfig, state: TrainState)
    requires cfg.Valid() && forall r :: 0 <= r < cfg.World() ==> Accepts(cfg, r)
    ensures AverageTokens(cfg.Tokens()) > 0.0
    ensures Locals(cfg, state)
      == WeightedLocals(cfg.trainer, state.parameters, cfg.batches, cfg.Tokens(), AverageTokens(cfg.Tokens()))
  {
    AcceptedScale(cfg, 0);
    var average := AverageTokens(cfg.Tokens());
    forall r | 0 <= r < cfg.World()
      ensures Local(cfg, state, r) == WeightedLocal(cfg.trainer, state.parameters, cfg.batches[r], cfg.Tokens()[r], average)
    {
      AcceptedScale(cfg, r);
    }
  }

  /** Single-process training on the concatenated batch. */
  ghost function ReferenceRun(cfg: RunConfig, start: TrainState, n: nat): TrainState
    requires cfg.Valid() && Sum(cfg.Tokens()) > 0
  {
    Reference(cfg.trainer, start, Concat(cfg.batches), Sum(cfg.Tokens()), cfg.context, n)
  }

  /** When every rank is admitted, lockstep training is reference training. */
  lemma {:induction false} LockstepIsReference(cfg: RunConfig, start: TrainState, n: nat)
    requires cfg.Valid() && forall r :: 0 <= r < cfg.World() ==> Accepts(cfg, r)
    ensures Sum(cfg.Tokens()) > 0
    ensures Lockstep(cfg, start, n) == ReferenceRun(cfg, start, n)
  {
    GlobalMean(cfg.trainer, start.parameters, cfg.batches, cfg.Tokens());
    if n > 0 {
      LockstepIsReference(cfg, start, n - 1);
      var state := Lockstep(cfg, start, n - 1);
      LocalsAreWeighted(cfg, state);
      GlobalMean(cfg.trainer, state.parameters, cfg.batches, cfg.Tokens());
    }
  }

  lemma WidthPositive(cfg: RunConfig)
    requires cfg.Valid()
    ensures cfg.Width() > 0
  {
  }

  lemma ManySentPastGate(cfg: RunConfig, pc: Pc)
    requires SentCount(cfg, pc) >= 2
    ensures PastGate(pc)
  {
  }

  lemma CompletedIsSynced(cfg: RunConfig, pc: Pc)
    requires PastGate(pc)
    ensures Synced(cfg, pc) >= Base(cfg, Completed(cfg, pc))
  {
  }

  /** A rank that completed a step has seen every rank admitted. */
  lemma StepMeansAdmitted(cfg: RunConfig, files: Files, st: State, r: nat, q: nat)
    requires cfg.Valid() && Reachable(cfg, files, st) && r < cfg.World() && q < cfg.World()
    requires PastGate(st.ranks[r].pc) && Completed(cfg, st.ranks[r].pc) > 0
    ensures Accepts(cfg, q)
  {
    ReachableFollows(cfg, files, st);
    assert RankCounted(cfg, st, q);
    JoinedByAll(cfg, st, r, q);
    WidthPositive(cfg);
    OffsetMonotone(cfg.Width(), 1, Completed(cfg, st.ranks[r].pc));
    assert Offset(cfg.Width(), 1) == Offset(cfg.Width(), 0) + cfg.Width();
    ManySentPastGate(cfg, st.ranks[q].pc);
    assert RankFollows(cfg, StartOr(cfg, files), files, st.ranks[q], q);
  }

  /** In every run, under every policy and both weighting modes, a rank that completed `n` steps holds
      exactly the parameters, moments and counters of the reference after `n` steps. */
  lemma RanksSimulateReference(cfg: RunConfig, files: Files, st: State, r: nat)
    requires cfg.Valid() && Reachable(cfg, files, st) && r < cfg.World() && PastGate(st.ranks[r].pc)
    ensures Sum(cfg.Tokens()) > 0
    ensures cfg.Start(files.checkpoints) == Some(StartOr(cfg, files))
    ensures st.ranks[r].train == ReferenceRun(cfg, StartOr(cfg, files), Completed(cfg, st.ranks[r].pc))
  {
    ReachableFollows(cfg, files, st);
    assert RankFollows(cfg, StartOr(cfg, files), files, st.ranks[r], r);
    var n := Completed(cfg, st.ranks[r].pc);
    var _, _, _ := AverageTokensPositive(cfg.Tokens());
    if n > 0 {
      forall q | 0 <= q < cfg.World() ensures Accepts(cfg, q) {
        StepMeansAdmitted(cfg, files, st, r, q);
      }
      LockstepIsReference(cfg, StartOr(cfg, files), n);
    }
  }

  // ----- lockstep ---------------------------------------------------------------------------------------

  predicate SameKinds(a: seq<Contribution>, b: seq<Contribution>) {
    forall i :: 0 <= i < |a| && i < |b| ==> a[i].kind == b[i].kind
  }

  lemma {:induction false} JoinedKinds(a: seq<seq<Contribution>>, b: seq<seq<Contribution>>, width: nat, n: nat)
    requires n <= |a| && n <= |b| && FixedWidth(a, width) && FixedWidth(b, width)
    requires forall s :: 0 <= s < n ==> SameKinds(a[s], b[s])
    ensures |Joined(a, n)| == |Joined(b, n)| && SameKinds(Joined(a, n), Joined(b, n))
  {
    if n > 0 {
      JoinedKinds(a, b, width, n - 1);
    }
  }

  lemma FramedKinds(a: seq<Contribution>, b: seq<Contribution>, head: Contribution, head': Contribution, tail: Contribution)
    requires |a| == |b| && SameKinds(a, b) && head.kind == head'.kind
    ensures SameKinds(Framed(head, a, tail), Framed(head', b, tail))
  {
  }

  lemma PrefixKinds(a: seq<Contribution>, b: seq<Contribution>, x: seq<Contribution>, y: seq<Contribution>)
    requires a <= x && b <= y && SameKinds(x, y)
    ensures SameKinds(a, b)
  {
  }

  lemma ScriptKinds(cfg: RunConfig, start: TrainState, q: nat, r: nat)
    requires cfg.Valid() && q < cfg.World() && r < cfg.World()
    ensures SameKinds(Script(cfg, start, q), Script(cfg, start, r))
  {
    var a, b := GradientBlocks(cfg, start, q), GradientBlocks(cfg, start, r);
    JoinedKinds(a, b, cfg.Width(), cfg.steps);
    FramedKinds(Joined(a, cfg.steps), Joined(b, cfg.steps),
                Contribution(TokenCount, [cfg.Tokens()[q] as real]), Contribution(TokenCount, [cfg.Tokens()[r] as real]),
                Contribution(Barrier, [1.0]));
  }

  /** The collectives two ranks have joined are prefixes of one sequence, so no collective ever mixes
      contributions to different ones. */
  lemma CollectivesInLockstep(cfg: RunConfig, files: Files, st: State, q: nat, r: nat)
    requires cfg.Valid() && Reachable(cfg, files, st) && q < cfg.World() && r < cfg.World()
    ensures SameKinds(st.ranks[q].sent, st.ranks[r].sent)
  {
    ReachableFollows(cfg, files, st);
    var start := StartOr(cfg, files);
    assert RankFollows(cfg, start, files, st.ranks[q], q) && RankFollows(cfg, start, files, st.ranks[r], r);
    ScriptKinds(cfg, start, q, r);
    PrefixKinds(st.ranks[q].sent, st.ranks[r].sent, Script(cfg, start, q), Script(cfg, start, r));
  }

  /** A rank that completed `n` steps has been joined by every rank in every collective of those steps. */
  lemma NoRankRunsAhead(cfg: RunConfig, files: Files, st: State, r: nat, q: nat, s: nat, j: nat)
    requires cfg.Valid() && Reachable(cfg, files, st) && r < cfg.World() && q < cfg.World()
    requires PastGate(st.ranks[r].pc) && s < Completed(cfg, st.ranks[r].pc) && j < cfg.Width()
    ensures Base(cfg, s) + j < |st.ranks[q].sent| && st.ranks[q].sent[Base(cfg, s) + j].kind == Grad(s, j)
  {
    ReachableFollows(cfg, files, st);
    JoinedByAll(cfg, st, r, q);
    BaseStep(cfg, s, Completed(cfg, st.ranks[r].pc), j);
    FollowsAt(cfg, StartOr(cfg, files), files, st, q, s, j);
  }

  lemma BaseStep(cfg: RunConfig, s: nat, n: nat, j: nat)
    requires s < n && j < cfg.Width()
    ensures Base(cfg, s) + j < Base(cfg, n)
  {
    OffsetMonotone(cfg.Width(), s + 1, n);
  }

  lemma JoinedByAll(cfg: RunConfig, st: State, r: nat, q: nat)
    requires Counted(cfg, st) && r < cfg.World() && q < cfg.World() && PastGate(st.ranks[r].pc)
    ensures Completed(cfg, st.ranks[r].pc) <= cfg.steps
    ensures Base(cfg, Completed(cfg, st.ranks[r].pc)) <= |st.ranks[q].sent|
  {
    assert RankCounted(cfg, st, r);
    CompletedIsSynced(cfg, st.ranks[r].pc);
    CompletedInRange(cfg, r, st.ranks[r].pc);
  }

  lemma FollowsAt(cfg: RunConfig, start: TrainState, files: Files, st: State, q: nat, s: nat, j: nat)
    requires Follows(cfg, start, files, st) && q < cfg.World() && s < cfg.steps && j < cfg.Width()
    requires Base(cfg, s) + j < |st.ranks[q].sent|
    ensures st.ranks[q].sent[Base(cfg, s) + j].kind == Grad(s, j)
  {
    assert RankFollows(cfg, start, files, st.ranks[q], q);
    ScriptAt(cfg, start, q, s, j);
  }

  lemma CompletedInRange(cfg: RunConfig, r: nat, pc: Pc)
    requires Placed(cfg, r, pc) && PastGate(pc)
    ensures Completed(cfg, pc) <= cfg.steps
  {
  }

  // ----- the equal-only gate ----------------------------------------------------------------------------

  /** If the token counts differ, equal-only mode never lets a gradient collective complete: a rank that is
      not admitted joins none of them, whatever the other ranks do. */
  lemma UnevenNeverTrains(cfg: RunConfig, files: Files, st: State)
    requires cfg.Valid() && Reachable(cfg, files, st)
    requires !cfg.tokenWeighted && exists r :: 0 <= r < cfg.World() && cfg.Tokens()[r] != cfg.Tokens()[0]
    ensures !AllSent(st, Base(cfg, 0) + 1)
    ensures forall r :: 0 <= r < cfg.World() && PastGate(st.ranks[r].pc) ==> Completed(cfg, st.ranks[r].pc) == 0
  {
    GateIffUneven(cfg.Tokens());
    var q :| 0 <= q < cfg.World() && Rejects(cfg.Tokens(), q);
    ReachableFollows(cfg, files, st);
    assert RankCounted(cfg, st, q) && RankFollows(cfg, StartOr(cfg, files), files, st.ranks[q], q);
    if |st.ranks[q].sent| >= 2 {
      ManySentPastGate(cfg, st.ranks[q].pc);
    }
    forall r | 0 <= r < cfg.World() && PastGate(st.ranks[r].pc) ensures Completed(cfg, st.ranks[r].pc) == 0 {
      if Completed(cfg, st.ranks[r].pc) > 0 {
        StepMeansAdmitted(cfg, files, st, r, q);
      }
    }
  }

  /** The gate has decided about the rank. */
  predicate Judged(pc: Pc) {
    PastGate(pc) || pc == Failed(Uneven) || pc == Failed(ContractChanged)
  }

  /** Of the ranks the gate has judged, exactly those give up there whose own count, in equal-only mode, is not
      the mean; and then the counts are not all equal. */
  lemma RejectionsAreExact(cfg: RunConfig, files: Files, st: State, r: nat)
    requires cfg.Valid() && Reachable(cfg, files, st) && r < cfg.World() && Judged(st.ranks[r].pc)
    ensures st.ranks[r].pc == Failed(Uneven) <==> !cfg.tokenWeighted && Rejects(cfg.Tokens(), r)
    ensures st.ranks[r].pc == Failed(Uneven) ==> exists q :: 0 <= q < cfg.World() && cfg.Tokens()[q] != cfg.Tokens()[0]
  {
    ReachableFollows(cfg, files, st);
    assert RankFollows(cfg, StartOr(cfg, files), files, st.ranks[r], r);
    GateIffUneven(cfg.Tokens());
  }
}
