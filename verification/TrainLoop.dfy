/** The single-device training loop with its checkpoint in the middle. */
module TrainLoop {
  import opened Basics
  import opened Vectors
  import opened Training

  /** `n` optimizer steps on one fixed batch. This loop never moves the data cursor. */
  ghost function After(trainer: Trainer, start: TrainState, rows: seq<Row>, tokens: nat, n: nat): TrainState
    requires trainer.Valid() && tokens > 0
  {
    Reference(trainer, start, rows, tokens, 0, n)
  }

  class Session {
    const trainer: Trainer
    const rows: seq<Row>
    const tokens: nat
    var parameters: Gradient
    var optimizer: OptimizerState
    var globalStep: nat
    var dataCursor: nat

    ghost predicate Valid()
    {
      trainer.Valid() && tokens > 0
    }

    function State(): TrainState
      reads this
    {
      TrainState(parameters, optimizer, globalStep, dataCursor)
    }

    constructor (trainer: Trainer, rows: seq<Row>, tokens: nat, state: TrainState)
      requires trainer.Valid() && tokens > 0
      ensures Valid() && State() == state
      ensures this.trainer == trainer && this.rows == rows && this.tokens == tokens
    {
      this.trainer, this.rows, this.tokens := trainer, rows, tokens;
      parameters, optimizer, globalStep, dataCursor := state.parameters, state.optimizer, state.globalStep, state.dataCursor;
    }

    /** Gradient and optimizer step; the experiment counter is the business of the caller. */
    method RunStep()
      requires Valid()
      modifies this`parameters, this`optimizer
      ensures State() == trainer.Step(old(State()), trainer.MeanGradient(old(parameters), rows, tokens), 0)
        .(globalStep := old(globalStep))
    {
      var gradient := trainer.MeanGradient(parameters, rows, tokens);
      optimizer := optimizer.(step := optimizer.step + 1);
      var (p, first, second) := trainer.update(parameters, optimizer, gradient);
      parameters, optimizer := p, OptimizerState(optimizer.step, first, second);
    }

    /** Warm-up steps train without being counted. */
    method WarmUp(count: nat)
      requires Valid()
      modifies this`parameters, this`optimizer
      ensures State() == After(trainer, old(State()), rows, tokens, count).(globalStep := old(globalStep))
    {
      for k := 0 to count
        invariant State() == After(trainer, old(State()), rows, tokens, k).(globalStep := old(globalStep))
      {
        RunStep();
      }
    }

    /** The timed loop: `steps` counted steps, and a checkpoint of the state after `checkpointAfter` of them. */
    method Run(warmup: nat, steps: nat, checkpointAfter: nat) returns (saved: Option<TrainState>)
      requires Valid() && checkpointAfter <= steps
      modifies this
      ensures var warm := After(trainer, old(State()), rows, tokens, warmup).(globalStep := old(globalStep));
        && State() == After(trainer, warm, rows, tokens, steps)
        && saved == if checkpointAfter == 0 then None else Some(After(trainer, warm, rows, tokens, checkpointAfter))
    {
      saved := None;
      WarmUp(warmup);
      ghost var warm := State();
      for iteration := 0 to steps
        invariant State() == After(trainer, warm, rows, tokens, iteration)
        invariant saved == if 0 < checkpointAfter <= iteration
          then Some(After(trainer, warm, rows, tokens, checkpointAfter)) else None
      {
        RunStep();
        globalStep := globalStep + 1;
        if checkpointAfter == iteration + 1 {
          saved := Some(State());
        }
      }
    }
  }

  /** Resuming from the checkpoint in the middle for the remaining steps ends where the whole run ends:
      parameters, moments, step count of the optimizer, global step and data cursor. */
  lemma MiddleCheckpointResumes(trainer: Trainer, start: TrainState, rows: seq<Row>, tokens: nat, k: nat, steps: nat)
    requires trainer.Valid() && tokens > 0 && k <= steps
    ensures After(trainer, After(trainer, start, rows, tokens, k), rows, tokens, steps - k)
      == After(trainer, start, rows, tokens, steps)
  {
    ReferenceResumes(trainer, start, rows, tokens, 0, k, steps - k);
  }

  /** Two sessions: one runs through and leaves a checkpoint after `k` steps; the other is restored from that
      checkpoint and runs the remaining steps. They end in the same state. */
  method ResumeFromMiddle(trainer: Trainer, start: TrainState, rows: seq<Row>, tokens: nat, k: nat, steps: nat)
    returns (whole: Session, resumed: Session)
    requires trainer.Valid() && tokens > 0 && 0 < k <= steps
    ensures fresh(whole) && fresh(resumed) && whole != resumed
    ensures resumed.State() == whole.State() == After(trainer, start, rows, tokens, steps)
  {
    whole := new Session(trainer, rows, tokens, start);
    var saved := whole.Run(0, steps, k);
    resumed := new Session(trainer, rows, tokens, saved.value);
    var _ := resumed.Run(0, steps - k, 0);
    MiddleCheckpointResumes(trainer, start, rows, tokens, k, steps);
  }

  /** With warm-up the optimizer would be ahead of the experiment: the two counters of a checkpoint agree
      exactly when there was none, which is why saving and resuming forbid it. */
  lemma WarmupDiverges(trainer: Trainer, start: TrainState, rows: seq<Row>, tokens: nat, warmup: nat, n: nat)
    requires trainer.Valid() && tokens > 0 && start.optimizer.step == start.globalStep
    ensures var warm := After(trainer, start, rows, tokens, warmup).(globalStep := start.globalStep);
      var end := After(trainer, warm, rows, tokens, n);
      end.optimizer.step == end.globalStep <==> warmup == 0
  {
    ReferenceCounters(trainer, start, rows, tokens, 0, warmup);
    ReferenceCounters(trainer, After(trainer, start, rows, tokens, warmup).(globalStep := start.globalStep), rows, tokens, 0, n);
  }
}
