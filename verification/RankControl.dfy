/** Control invariants of the ranked protocol: how many collectives each rank has joined, and what every
    rank must have joined before another one goes on. */
module RankControl {
  import opened Basics
  import opened Vectors
  import opened Reducers
  import opened RankProtocol

  function Offset(width: nat, s: nat): nat {
    if s == 0 then 0 else Offset(width, s - 1) + width
  }

  lemma {:induction false} OffsetMonotone(width: nat, s: nat, t: nat)
    requires s <= t
    ensures Offset(width, s) <= Offset(width, t)
  {
    if s < t {
      OffsetMonotone(width, s, t - 1);
    }
  }

  /** Contributions of a rank before its step `s`: the token count and `s` steps of gradients. */
  function Base(cfg: RunConfig, s: nat): nat {
    1 + Offset(cfg.Width(), s)
  }

  /** Contributions made by a rank at `pc`. */
  function SentCount(cfg: RunConfig, pc: Pc): nat {
    match pc
    case InTokens => 1
    case Sending(s, j) => Base(cfg, s) + j
    case Waiting(s, j) => Base(cfg, s) + j
    case EnterBarrier => Base(cfg, cfg.steps)
    case InBarrier => Base(cfg, cfg.steps) + 1
    case Saving => Base(cfg, cfg.steps) + 1
    case RemovingReady => Base(cfg, cfg.steps) + 1
    case PublishingReady => Base(cfg, cfg.steps) + 1
    case AwaitReady => Base(cfg, cfg.steps) + 1
    case Verifying => Base(cfg, cfg.steps) + 1
    case Done => Base(cfg, cfg.steps) + if cfg.checkpointTo.Some? then 1 else 0
    case Failed(reason) =>
      (match reason
       case IdTimeout => 0
       case Uneven => 1
       case ContractChanged => 1
       case Diverged => Base(cfg, cfg.steps)
       case _ => Base(cfg, cfg.steps) + 1)
    case _ => 0
  }

  /** Contributions that every rank must have made when one rank is at `pc`. */
  function Synced(cfg: RunConfig, pc: Pc): nat {
    match pc
    case InTokens => 0
    case Sending(s, j) => Base(cfg, s)
    case Waiting(s, j) => Base(cfg, s)
    case InBarrier => Base(cfg, cfg.steps)
    case _ => SentCount(cfg, pc)
  }

  /** Only rank 0 publishes, only the others wait for files; steps and collectives stay in range. */
  predicate Placed(cfg: RunConfig, r: nat, pc: Pc) {
    match pc
    case RemoveId => r == 0
    case PublishId => r == 0
    case AwaitId => r != 0
    case EnterJoin(id) => r == 0 ==> id == cfg.freshId
    case Sending(s, j) => s < cfg.steps && j < cfg.Width()
    case Waiting(s, j) => s < cfg.steps && 0 < j <= cfg.Width() && cfg.Blocks(s, j)
    case EnterBarrier => cfg.checkpointTo.Some?
    case InBarrier => cfg.checkpointTo.Some?
    case Saving => r == 0 && cfg.checkpointTo.Some?
    case RemovingReady => r == 0 && cfg.checkpointTo.Some? && !cfg.injectFailure
    case PublishingReady => r == 0 && cfg.checkpointTo.Some? && !cfg.injectFailure
    case AwaitReady => r != 0 && cfg.checkpointTo.Some?
    case Verifying => cfg.checkpointTo.Some? && (r == 0 ==> !cfg.injectFailure)
    case Done => r == 0 ==> !cfg.injectFailure
    case Failed(reason) =>
      (match reason
       case IdTimeout => r != 0
       case Injected => r == 0 && cfg.checkpointTo.Some? && cfg.injectFailure
       case ReadyTimeout => r != 0 && cfg.checkpointTo.Some?
       case Unverified => cfg.checkpointTo.Some? && (r == 0 ==> !cfg.injectFailure)
       case _ => true)
    case _ => true
  }

  /** Rank `r` of a state that is consistent with its program counter. */
  predicate RankCounted(cfg: RunConfig, st: State, r: nat)
    requires r < |st.ranks|
  {
    var me := st.ranks[r];
    Placed(cfg, r, me.pc) && |me.sent| == SentCount(cfg, me.pc) && AllSent(st, Synced(cfg, me.pc))
  }

  predicate Counted(cfg: RunConfig, st: State) {
    && |st.ranks| == cfg.World()
    && forall r :: 0 <= r < |st.ranks| ==> RankCounted(cfg, st, r)
  }

  lemma InitialCounted(cfg: RunConfig, files: Files)
    ensures Counted(cfg, Initial(cfg, files))
  {
  }

  /** A move keeps the mover consistent, and what it newly relies on has been sent by all. */
  predicate MoveConsistent(cfg: RunConfig, st: State, r: nat, rank: Rank)
    requires r < |st.ranks|
  {
    && Placed(cfg, r, rank.pc)
    && |rank.sent| == SentCount(cfg, rank.pc)
    && |rank.sent| >= |st.ranks[r].sent|
    && AllSent(st, Synced(cfg, rank.pc))
  }

  lemma JoiningKeepsCount(cfg: RunConfig, st: State, r: nat)
    requires cfg.Valid() && |st.ranks| == cfg.World() && r < cfg.World() && RankCounted(cfg, st, r)
    requires MoveJoining(cfg, st, r).Some?
    ensures MoveConsistent(cfg, st, r, MoveJoining(cfg, st, r).value.rank)
  {
    if st.ranks[r].pc.InTokens? {
      GateControl(cfg, st, r, AverageOf(Inputs(st, 0)));
    }
  }

  lemma GateControl(cfg: RunConfig, st: State, r: nat, average: Vector)
    requires cfg.Valid() && |st.ranks| == cfg.World() && r < cfg.World()
    requires |st.ranks[r].sent| == 1 && AllSent(st, 1)
    ensures MoveConsistent(cfg, st, r, Gate(cfg, st, r, average))
  {
  }

  lemma TrainingKeepsCount(cfg: RunConfig, st: State, r: nat)
    requires cfg.Valid() && |st.ranks| == cfg.World() && r < cfg.World() && RankCounted(cfg, st, r)
    requires MoveTraining(cfg, st, r).Some?
    ensures MoveConsistent(cfg, st, r, MoveTraining(cfg, st, r).value.rank)
  {
    var me := st.ranks[r];
    if me.pc.Waiting? {
      var s, j := me.pc.s, me.pc.j;
      if j == cfg.Width() {
        assert Base(cfg, s + 1) == |me.sent|;
        FinishControl(cfg, st, r, s);
      }
    }
  }

  lemma ClosingKeepsCount(cfg: RunConfig, st: State, r: nat)
    requires cfg.Valid() && |st.ranks| == cfg.World() && r < cfg.World() && RankCounted(cfg, st, r)
    requires MoveClosing(cfg, st, r).Some?
    ensures MoveConsistent(cfg, st, r, MoveClosing(cfg, st, r).value.rank)
  {
  }

  lemma MoveKeepsCount(cfg: RunConfig, st: State, r: nat)
    requires cfg.Valid() && Counted(cfg, st) && r < cfg.World() && Move(cfg, st, r).Some?
    ensures MoveConsistent(cfg, st, r, Move(cfg, st, r).value.rank)
  {
    assert RankCounted(cfg, st, r);
    if st.ranks[r].pc.Sending? || st.ranks[r].pc.Waiting? {
      TrainingKeepsCount(cfg, st, r);
    } else if st.ranks[r].pc.Joins() {
      JoiningKeepsCount(cfg, st, r);
    } else {
      ClosingKeepsCount(cfg, st, r);
    }
  }

  lemma FinishControl(cfg: RunConfig, st: State, r: nat, s: nat)
    requires cfg.Valid() && |st.ranks| == cfg.World() && r < cfg.World()
    requires s < cfg.steps && |st.ranks[r].sent| == Base(cfg, s + 1) && AllSent(st, Base(cfg, s + 1))
    ensures forall results {:trigger FinishStep(cfg, st.ranks[r], s, results)} ::
      MoveConsistent(cfg, st, r, FinishStep(cfg, st.ranks[r], s, results))
  {
  }

  lemma EffectKeepsCounted(cfg: RunConfig, st: State, r: nat, effect: Effect)
    requires Counted(cfg, st) && r < cfg.World() && MoveConsistent(cfg, st, r, effect.rank)
    ensures Counted(cfg, After(st, r, effect))
    ensures forall q :: 0 <= q < cfg.World() ==> |After(st, r, effect).ranks[q].sent| >= |st.ranks[q].sent|
  {
    var next := After(st, r, effect);
    forall q | 0 <= q < cfg.World() ensures RankCounted(cfg, next, q) {
      assert RankCounted(cfg, st, q);
    }
  }

  lemma ApplyKeepsCounted(cfg: RunConfig, st: State, event: Event)
    requires cfg.Valid() && Counted(cfg, st)
    ensures Counted(cfg, Apply(cfg, st, event))
  {
    if event.r < cfg.World() {
      assert RankCounted(cfg, st, event.r);
      match event
      case Run(r) => {
        if Move(cfg, st, r).Some? {
          MoveKeepsCount(cfg, st, r);
          EffectKeepsCounted(cfg, st, r, Move(cfg, st, r).value);
        }
      }
      case Timeout(r) => {
        EffectKeepsCounted(cfg, st, r, Effect(GiveUp(st.ranks[r]), st.files));
      }
    }
  }

  lemma {:induction false} RunKeepsCounted(cfg: RunConfig, st: State, events: seq<Event>)
    requires cfg.Valid() && Counted(cfg, st)
    ensures Counted(cfg, Execute(cfg, st, events))
  {
    if events != [] {
      RunKeepsCounted(cfg, st, events[..|events| - 1]);
      ApplyKeepsCounted(cfg, Execute(cfg, st, events[..|events| - 1]), events[|events| - 1]);
    }
  }
}
