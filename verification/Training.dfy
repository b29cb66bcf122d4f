/** Single-process reference training and the weighting that lets ranks reproduce it. */
module Training {
  import opened Basics
  import opened Vectors

  /** One row of a token batch: a sequence of inputs and of targets. */
  datatype Row = Row(inputs: seq<int>, targets: seq<int>)

  /** AdamW moments with the step count that drives the bias corrections. */
  datatype OptimizerState = OptimizerState(step: nat, first: Gradient, second: Gradient)

  datatype TrainState = TrainState(parameters: Gradient, optimizer: OptimizerState, globalStep: nat, dataCursor: nat)

  /** The network and the optimizer, both left uninterpreted: the summed loss gradient of one row, and the
      new parameters and moments for an averaged gradient. */
  datatype Trainer = Trainer(
    counts: seq<nat>,
    rowGradient: (Gradient, Row) -> Gradient,
    update: (Gradient, OptimizerState, Gradient) -> (Gradient, Gradient, Gradient))
  {
    ghost predicate Valid() {
      forall p, row :: Shaped(counts, rowGradient(p, row))
    }

    function RowGradients(p: Gradient, rows: seq<Row>): (gs: seq<Gradient>)
      requires Valid()
      ensures |gs| == |rows| && SameShape(counts, gs)
      ensures forall k :: 0 <= k < |rows| ==> gs[k] == rowGradient(p, rows[k])
    {
      seq(|rows|, k requires 0 <= k < |rows| => rowGradient(p, rows[k]))
    }

    /** Gradient of the mean loss over all `tokens` tokens of a batch. */
    function MeanGradient(p: Gradient, rows: seq<Row>, tokens: nat): (g: Gradient)
      requires Valid() && tokens > 0
      ensures Shaped(counts, g)
    {
      ScaleAll(1.0 / tokens as real, Total(counts, RowGradients(p, rows)))
    }

    /** One optimizer step: the step count advances before it is used. */
    function Step(state: TrainState, gradient: Gradient, context: nat): TrainState {
      var optimizer := state.optimizer.(step := state.optimizer.step + 1);
      var (parameters, first, second) := update(state.parameters, optimizer, gradient);
      TrainState(parameters, OptimizerState(optimizer.step, first, second),
                 state.globalStep + 1, state.dataCursor + context)
    }
  }

  /** Element-wise sum of gradients. */
  function Total(counts: seq<nat>, gs: seq<Gradient>): (g: Gradient)
    requires SameShape(counts, gs)
    ensures Shaped(counts, g)
    ensures forall i, j :: 0 <= i < |counts| && 0 <= j < counts[i] ==> g[i][j] == Column(Pick(gs, i), j)
  {
    seq(|counts|, i requires 0 <= i < |counts| =>
      seq(counts[i], j requires 0 <= j < counts[i] => Column(Pick(gs, i), j)))
  }

  function Concat<T>(lists: seq<seq<T>>): seq<T> {
    if lists == [] then [] else lists[0] + Concat(lists[1..])
  }

  /** The token count all-reduce: the mean number of tokens per rank. */
  function AverageTokens(tokens: seq<nat>): real
    requires |tokens| > 0
  {
    Sum(tokens) as real / |tokens| as real
  }

  // ----- linear algebra of the weighting ------------------------------------------------

  /** Every gradient has a component `j` of parameter `i`. */
  predicate HasCell(gs: seq<Gradient>, i: nat, j: nat) {
    forall r :: 0 <= r < |gs| ==> i < |gs[r]| && j < |gs[r][i]|
  }

  function CellSum(gs: seq<Gradient>, i: nat, j: nat): real
    requires HasCell(gs, i, j)
  {
    if gs == [] then 0.0 else gs[0][i][j] + CellSum(gs[1..], i, j)
  }

  lemma {:induction false} CellSumIsColumn(gs: seq<Gradient>, i: nat, j: nat)
    requires HasCell(gs, i, j)
    ensures CellSum(gs, i, j) == Column(Pick(gs, i), j)
  {
    if gs != [] {
      CellSumIsColumn(gs[1..], i, j);
      assert Pick(gs, i)[1..] == Pick(gs[1..], i);
    }
  }

  lemma {:induction false} CellSumAppend(a: seq<Gradient>, b: seq<Gradient>, i: nat, j: nat)
    requires HasCell(a, i, j) && HasCell(b, i, j)
    ensures HasCell(a + b, i, j)
    ensures CellSum(a + b, i, j) == CellSum(a, i, j) + CellSum(b, i, j)
  {
    if a == [] {
      assert a + b == b;
    } else {
      assert (a + b)[1..] == a[1..] + b;
      CellSumAppend(a[1..], b, i, j);
    }
  }

  ghost function LocalTotals(trainer: Trainer, p: Gradient, batches: seq<seq<Row>>): (totals: seq<Gradient>)
    requires trainer.Valid()
    ensures |totals| == |batches| && SameShape(trainer.counts, totals)
  {
    if batches == [] then []
    else [Total(trainer.counts, trainer.RowGradients(p, batches[0]))] + LocalTotals(trainer, p, batches[1..])
  }

  /** The summed gradient of the concatenated batch is the sum of the summed gradients of its parts. */
  lemma {:induction false} TotalOfParts(trainer: Trainer, p: Gradient, batches: seq<seq<Row>>, i: nat, j: nat)
    requires trainer.Valid() && i < |trainer.counts| && j < trainer.counts[i]
    ensures CellSum(LocalTotals(trainer, p, batches), i, j)
      == CellSum(trainer.RowGradients(p, Concat(batches)), i, j)
  {
    if batches == [] {
      assert trainer.RowGradients(p, Concat(batches)) == [];
    } else {
      var head, tail := trainer.RowGradients(p, batches[0]), trainer.RowGradients(p, Concat(batches[1..]));
      assert trainer.RowGradients(p, Concat(batches)) == head + tail;
      CellSumAppend(head, tail, i, j);
      CellSumIsColumn(head, i, j);
      TotalOfParts(trainer, p, batches[1..], i, j);
      assert LocalTotals(trainer, p, batches)[1..] == LocalTotals(trainer, p, batches[1..]);
    }
  }

  lemma Quotient(a: real, b: real)
    requires b != 0.0
    ensures a / b * b == a
  {
  }

  lemma Cancel(y: real, z: real, c: real)
    requires c != 0.0 && y * c == z * c
    ensures y == z
  {
    assert (y - z) * c == 0.0;
  }

  lemma SameProduct(a: real, b: real, c: real)
    requires b == c
    ensures a * b == a * c
  {
  }

  /** Named so that sums of products are compared as whole facts. */
  predicate Scales(c: real, a: real, b: real) {
    c * a == b
  }

  lemma Distributes(c: real, a: real, b: real, x: real, y: real) returns (ab: real, xy: real)
    requires Scales(c, a, x) && Scales(c, b, y)
    ensures ab == a + b && xy == x + y && Scales(c, ab, xy)
  {
    ab, xy := a + b, x + y;
  }

  lemma Associates(a: real, b: real, c: real)
    ensures a * (b * c) == (a * b) * c == (b * a) * c
  {
  }

  lemma Regroup(a: real, b: real, c: real, d: real)
    requires b * a == d
    ensures a * (b * c) == d * c
  {
    Associates(a, b, c);
    assert (b * a) * c == d * c;
  }

  /** A weight `tokens / average` undoes the division by the local token count. */
  lemma WeightTimesMean(tokens: real, average: real, s: real) returns (weighted: real)
    requires tokens > 0.0 && average > 0.0
    ensures weighted == tokens / average * (1.0 / tokens * s)
    ensures average * weighted == s
  {
    var w, inverse := tokens / average, 1.0 / tokens;
    Quotient(tokens, average);
    Quotient(1.0, tokens);
    var mean := inverse * s;
    weighted := w * mean;
    Regroup(average, w, mean, tokens);
    Regroup(tokens, inverse, s, 1.0);
  }

  lemma SameMean(x: real, y: real, world: real, average: real, total: real, weighted: real, s: real)
    requires total > 0.0 && average * world == total
    requires x * world == weighted && average * weighted == s && y * total == s
    ensures x == y
  {
    SameProduct(x, total, average * world);
    Associates(x, average, world);
    Associates(average, x, world);
    SameProduct(average, x * world, weighted);
    Cancel(x, y, total);
  }

  /** A rank's contribution: its mean gradient times its token weight. */
  ghost function WeightedLocal(trainer: Trainer, p: Gradient, rows: seq<Row>, tokens: nat, average: real): (g: Gradient)
    requires trainer.Valid() && tokens > 0 && average > 0.0
    ensures Shaped(trainer.counts, g)
  {
    ScaleAll(tokens as real / average, trainer.MeanGradient(p, rows, tokens))
  }

  ghost function WeightedLocals(trainer: Trainer, p: Gradient, batches: seq<seq<Row>>, tokens: seq<nat>,
                                average: real): (gs: seq<Gradient>)
    requires trainer.Valid() && |batches| == |tokens| && average > 0.0
    requires forall r :: 0 <= r < |tokens| ==> tokens[r] > 0
    ensures |gs| == |batches| && SameShape(trainer.counts, gs)
    ensures forall r :: 0 <= r < |batches| ==> gs[r] == WeightedLocal(trainer, p, batches[r], tokens[r], average)
  {
    seq(|batches|, r requires 0 <= r < |batches| => WeightedLocal(trainer, p, batches[r], tokens[r], average))
  }

  lemma AverageTokensPositive(tokens: seq<nat>) returns (average: real, world: real, total: real)
    requires |tokens| > 0 && forall r :: 0 <= r < |tokens| ==> tokens[r] > 0
    ensures |tokens| as real == world && Sum(tokens) > 0 && Sum(tokens) as real == total
    ensures average == AverageTokens(tokens) > 0.0
    ensures average * world == total
  {
    assert tokens[0] > 0;
    world, total := |tokens| as real, Sum(tokens) as real;
    average := total / world;
    PositiveQuotient(total, world);
  }

  lemma PositiveQuotient(a: real, b: real)
    requires a > 0.0 && b > 0.0
    ensures a / b > 0.0 && a / b * b == a
  {
    Quotient(a, b);
  }

  lemma ShapedHasCell(counts: seq<nat>, gs: seq<Gradient>, i: nat, j: nat)
    requires SameShape(counts, gs) && i < |counts| && j < counts[i]
    ensures HasCell(gs, i, j)
  {
  }

  /** One rank: its weighted mean gradient times the average token count is its summed gradient. */
  lemma WeightedAt(trainer: Trainer, p: Gradient, rows: seq<Row>, tokens: nat, average: real, i: nat, j: nat)
    returns (weighted: real, sum: real)
    requires trainer.Valid() && tokens > 0 && average > 0.0
    requires i < |trainer.counts| && j < trainer.counts[i]
    ensures weighted == WeightedLocal(trainer, p, rows, tokens, average)[i][j]
    ensures sum == Total(trainer.counts, trainer.RowGradients(p, rows))[i][j]
    ensures Scales(average, weighted, sum)
  {
    var total := Total(trainer.counts, trainer.RowGradients(p, rows))[i];
    sum := total[j];
    weighted := WeightTimesMean(tokens as real, average, sum);
    ScaleAt(1.0 / tokens as real, total, j);
    ScaleAt(tokens as real / average, Scale(1.0 / tokens as real, total), j);
  }

  lemma CellSumCons(gs: seq<Gradient>, i: nat, j: nat) returns (head: real, rest: real)
    requires HasCell(gs, i, j) && gs != []
    ensures HasCell(gs[1..], i, j)
    ensures head == gs[0][i][j] && rest == CellSum(gs[1..], i, j) && CellSum(gs, i, j) == head + rest
  {
    head, rest := gs[0][i][j], CellSum(gs[1..], i, j);
  }

  lemma WeightedTail(trainer: Trainer, p: Gradient, batches: seq<seq<Row>>, tokens: seq<nat>, average: real)
    requires trainer.Valid() && |batches| == |tokens| > 0 && average > 0.0
    requires forall q :: 0 <= q < |tokens| ==> tokens[q] > 0
    ensures WeightedLocals(trainer, p, batches, tokens, average)[1..]
      == WeightedLocals(trainer, p, batches[1..], tokens[1..], average)
  {
  }

  lemma {:induction false} WeightedSum(trainer: Trainer, p: Gradient, batches: seq<seq<Row>>, tokens: seq<nat>,
                                       average: real, i: nat, j: nat)
    returns (weighted: real, sum: real)
    requires trainer.Valid() && |batches| == |tokens| && average > 0.0
    requires forall q :: 0 <= q < |tokens| ==> tokens[q] > 0
    requires i < |trainer.counts| && j < trainer.counts[i]
    ensures HasCell(WeightedLocals(trainer, p, batches, tokens, average), i, j)
    ensures weighted == CellSum(WeightedLocals(trainer, p, batches, tokens, average), i, j)
    ensures sum == CellSum(LocalTotals(trainer, p, batches), i, j)
    ensures Scales(average, weighted, sum)
  {
    var ws, totals := WeightedLocals(trainer, p, batches, tokens, average), LocalTotals(trainer, p, batches);
    ShapedHasCell(trainer.counts, ws, i, j);
    ShapedHasCell(trainer.counts, totals, i, j);
    if batches == [] {
      return 0.0, 0.0;
    }
    var w, s := WeightedAt(trainer, p, batches[0], tokens[0], average, i, j);
    weighted, sum := WeightedSum(trainer, p, batches[1..], tokens[1..], average, i, j);
    WeightedTail(trainer, p, batches, tokens, average);
    var _, _ := CellSumCons(ws, i, j);
    var _, _ := CellSumCons(totals, i, j);
    weighted, sum := Distributes(average, w, weighted, s, sum);
  }

  lemma AverageAt(counts: seq<nat>, gs: seq<Gradient>, world: real, sum: real, i: nat, j: nat) returns (x: real)
    requires |gs| > 0 && |gs| as real == world && SameShape(counts, gs) && i < |counts| && j < counts[i]
    requires HasCell(gs, i, j) && sum == CellSum(gs, i, j)
    ensures x == AverageAll(counts, gs)[i][j]
    ensures x * world == sum
  {
    CellSumIsColumn(gs, i, j);
    x := AverageAll(counts, gs)[i][j];
    assert AverageAll(counts, gs)[i] == Average(Pick(gs, i));
    assert x == sum / world;
    Quotient(sum, world);
  }

  lemma MeanGradientAt(trainer: Trainer, p: Gradient, rows: seq<Row>, tokens: nat, total: real, sum: real, i: nat,
                       j: nat) returns (y: real)
    requires trainer.Valid() && tokens > 0 && tokens as real == total && i < |trainer.counts| && j < trainer.counts[i]
    requires HasCell(trainer.RowGradients(p, rows), i, j) && sum == CellSum(trainer.RowGradients(p, rows), i, j)
    ensures y == trainer.MeanGradient(p, rows, tokens)[i][j]
    ensures y * total == sum
  {
    CellSumIsColumn(trainer.RowGradients(p, rows), i, j);
    y := trainer.MeanGradient(p, rows, tokens)[i][j];
    var inverse := 1.0 / total;
    ScaleAt(inverse, Total(trainer.counts, trainer.RowGradients(p, rows))[i], j);
    assert y == inverse * sum;
    Quotient(1.0, total);
    Associates(total, inverse, sum);
  }

  lemma GlobalMeanAt(trainer: Trainer, p: Gradient, batches: seq<seq<Row>>, tokens: seq<nat>, average: real,
                     world: real, total: real, i: nat, j: nat)
    requires trainer.Valid() && |batches| == |tokens| > 0
    requires forall r :: 0 <= r < |tokens| ==> tokens[r] > 0
    requires i < |trainer.counts| && j < trainer.counts[i]
    requires |tokens| as real == world && Sum(tokens) > 0 && Sum(tokens) as real == total
    requires average > 0.0 && average * world == total
    ensures AverageAll(trainer.counts, WeightedLocals(trainer, p, batches, tokens, average))[i][j]
      == trainer.MeanGradient(p, Concat(batches), Sum(tokens))[i][j]
  {
    var weighted, sum := WeightedSum(trainer, p, batches, tokens, average, i, j);
    TotalOfParts(trainer, p, batches, i, j);
    var x := AverageAt(trainer.counts, WeightedLocals(trainer, p, batches, tokens, average), world, weighted, i, j);
    var y := MeanGradientAt(trainer, p, Concat(batches), Sum(tokens), total, sum, i, j);
    SameMean(x, y, world, average, total, weighted, sum);
  }

  /** Averaging the token-weighted local mean gradients gives the mean gradient of the global batch. */
  lemma GlobalMean(trainer: Trainer, p: Gradient, batches: seq<seq<Row>>, tokens: seq<nat>)
    requires trainer.Valid() && |batches| == |tokens| > 0
    requires forall r :: 0 <= r < |tokens| ==> tokens[r] > 0
    ensures Sum(tokens) > 0 && AverageTokens(tokens) > 0.0
    ensures AverageAll(trainer.counts, WeightedLocals(trainer, p, batches, tokens, AverageTokens(tokens)))
      == trainer.MeanGradient(p, Concat(batches), Sum(tokens))
  {
    var average, world, total := AverageTokensPositive(tokens);
    var a := AverageAll(trainer.counts, WeightedLocals(trainer, p, batches, tokens, average));
    var b := trainer.MeanGradient(p, Concat(batches), Sum(tokens));
    forall i | 0 <= i < |trainer.counts| ensures a[i] == b[i] {
      assert |a[i]| == |b[i]| == trainer.counts[i];
      forall j | 0 <= j < trainer.counts[i] ensures a[i][j] == b[i][j] {
        GlobalMeanAt(trainer, p, batches, tokens, average, world, total, i, j);
      }
    }
  }

  // ----- losses -------------------------------------------------------------------------

  function TotalLoss(loss: Row -> real, rows: seq<Row>): real {
    if rows == [] then 0.0 else loss(rows[0]) + TotalLoss(loss, rows[1..])
  }

  function MeanLoss(loss: Row -> real, rows: seq<Row>): real
    requires rows != []
  {
    TotalLoss(loss, rows) / |rows| as real
  }

  /** What the launcher sums up: every rank's mean loss times its number of rows. */
  function WeightedLosses(loss: Row -> real, batches: seq<seq<Row>>): real
    requires forall r :: 0 <= r < |batches| ==> batches[r] != []
  {
    if batches == [] then 0.0
    else MeanLoss(loss, batches[0]) * |batches[0]| as real + WeightedLosses(loss, batches[1..])
  }

  function RowCounts(batches: seq<seq<Row>>): (counts: seq<nat>)
    ensures |counts| == |batches| && forall r :: 0 <= r < |batches| ==> counts[r] == |batches[r]|
  {
    seq(|batches|, r requires 0 <= r < |batches| => |batches[r]|)
  }

  lemma {:induction false} TotalLossJoin(loss: Row -> real, a: seq<Row>, b: seq<Row>)
    ensures TotalLoss(loss, a + b) == TotalLoss(loss, a) + TotalLoss(loss, b)
  {
    if a == [] {
      assert a + b == b;
    } else {
      assert (a + b)[0] == a[0] && (a + b)[1..] == a[1..] + b;
      TotalLossJoin(loss, a[1..], b);
    }
  }

  lemma MeanTimesCount(total: real, count: real)
    requires count > 0.0
    ensures total / count * count == total
  {
  }

  lemma {:induction false} LossesAddUp(loss: Row -> real, batches: seq<seq<Row>>)
    requires forall r :: 0 <= r < |batches| ==> batches[r] != []
    ensures WeightedLosses(loss, batches) == TotalLoss(loss, Concat(batches))
    ensures Sum(RowCounts(batches)) == |Concat(batches)|
  {
    if batches != [] {
      LossesAddUp(loss, batches[1..]);
      TotalLossJoin(loss, batches[0], Concat(batches[1..]));
      MeanTimesCount(TotalLoss(loss, batches[0]), |batches[0]| as real);
      assert RowCounts(batches)[1..] == RowCounts(batches[1..]);
    }
  }

  /** The mean of the ranks' losses, weighted by their rows, is the mean loss of the global batch. */
  lemma GlobalLoss(loss: Row -> real, batches: seq<seq<Row>>)
    requires batches != [] && forall r :: 0 <= r < |batches| ==> batches[r] != []
    ensures Concat(batches) != []
    ensures WeightedLosses(loss, batches) / Sum(RowCounts(batches)) as real == MeanLoss(loss, Concat(batches))
  {
    LossesAddUp(loss, batches);
    assert Concat(batches) == batches[0] + Concat(batches[1..]);
  }

  // ----- the reference run --------------------------------------------------------------

  /** State after `n` steps of single-process training on one fixed batch. */
  ghost function Reference(trainer: Trainer, start: TrainState, rows: seq<Row>, tokens: nat, context: nat,
                           n: nat): TrainState
    requires trainer.Valid() && tokens > 0
  {
    if n == 0 then start
    else
      var state := Reference(trainer, start, rows, tokens, context, n - 1);
      trainer.Step(state, trainer.MeanGradient(state.parameters, rows, tokens), context)
  }

  /** Stopping after `k` steps and continuing for `m` more is the same as running `k + m` steps. */
  lemma {:induction false} ReferenceResumes(trainer: Trainer, start: TrainState, rows: seq<Row>, tokens: nat,
                                            context: nat, k: nat, m: nat)
    requires trainer.Valid() && tokens > 0
    ensures Reference(trainer, Reference(trainer, start, rows, tokens, context, k), rows, tokens, context, m)
      == Reference(trainer, start, rows, tokens, context, k + m)
  {
    if m > 0 {
      ReferenceResumes(trainer, start, rows, tokens, context, k, m - 1);
    }
  }

  /** The experiment counters advance with the optimizer. */
  lemma {:induction false} ReferenceCounters(trainer: Trainer, start: TrainState, rows: seq<Row>, tokens: nat,
                                             context: nat, n: nat)
    requires trainer.Valid() && tokens > 0
    ensures var state := Reference(trainer, start, rows, tokens, context, n);
      && state.globalStep == start.globalStep + n
      && state.optimizer.step == start.optimizer.step + n
      && state.dataCursor == start.dataCursor + n * context
  {
    if n > 0 {
      ReferenceCounters(trainer, start, rows, tokens, context, n - 1);
      assert n * context == (n - 1) * context + context;
    }
  }

  // ----- the equal-only gate ------------------------------------------------------------

  /** In equal-only mode a rank rejects when its token count is not the mean. */
  predicate Rejects(tokens: seq<nat>, r: nat)
    requires r < |tokens|
  {
    tokens[r] as real != AverageTokens(tokens)
  }

  lemma {:induction false} SumAgrees(ns: seq<nat>, value: nat)
    requires forall r :: 0 <= r < |ns| ==> ns[r] == value
    ensures Sum(ns) == |ns| * value
  {
    if ns != [] {
      SumAgrees(ns[1..], value);
      MulStep(|ns| - 1, value);
    }
  }

  lemma QuotientIs(total: real, world: real, value: real)
    requires world > 0.0
    ensures total == world * value <==> value == total / world
  {
    var q := total / world;
    assert q * world == total;
    if total == world * value {
      Cancel(q, value, world);
    }
  }

  /** Some rank rejects exactly when the token counts are not all equal. */
  lemma GateIffUneven(tokens: seq<nat>)
    requires |tokens| > 0
    ensures (exists r :: 0 <= r < |tokens| && Rejects(tokens, r))
      <==> (exists r :: 0 <= r < |tokens| && tokens[r] != tokens[0])
  {
    QuotientIs(Sum(tokens) as real, |tokens| as real, tokens[0] as real);
    if forall r :: 0 <= r < |tokens| ==> tokens[r] == tokens[0] {
      SumAgrees(tokens, tokens[0]);
      assert Sum(tokens) as real == |tokens| as real * tokens[0] as real;
      assert forall r :: 0 <= r < |tokens| ==> !Rejects(tokens, r);
    } else {
      var r :| 0 <= r < |tokens| && tokens[r] != tokens[0];
      assert Rejects(tokens, 0) || Rejects(tokens, r);
    }
  }

  /** A rank can pass the gate although the counts are uneven: its own count is the mean. */
  lemma MeanRankPasses(low: nat, spread: nat)
    requires spread > 0
    ensures var tokens := [low, low + spread, low + 2 * spread];
      !Rejects(tokens, 1) && Rejects(tokens, 0) && Rejects(tokens, 2)
  {
    var tokens := [low, low + spread, low + 2 * spread];
    assert tokens[1..] == [low + spread, low + 2 * spread];
    assert tokens[1..][1..] == [low + 2 * spread];
    assert Sum(tokens[1..][1..]) == low + 2 * spread + Sum([]);
    assert Sum(tokens) == 3 * (low + spread);
    QuotientIs(Sum(tokens) as real, 3.0, tokens[1] as real);
    QuotientIs(Sum(tokens) as real, 3.0, tokens[0] as real);
    QuotientIs(Sum(tokens) as real, 3.0, tokens[2] as real);
  }

  // ----- the weight of a rank ------------------------------------------------------------

  /** Token weight of rank `r`: one unless the run is token-weighted. */
  function RankScale(tokenWeighted: bool, tokens: seq<nat>, r: nat): real
    requires r < |tokens|
  {
    if tokenWeighted && AverageTokens(tokens) > 0.0 then tokens[r] as real / AverageTokens(tokens) else 1.0
  }

  lemma QuotientOne(a: real, b: real)
    requires a > 0.0 && b > 0.0
    ensures a / b > 0.0
    ensures a / b == 1.0 <==> a == b
  {
    PositiveQuotient(a, b);
  }

  lemma UnitScale(tokenWeighted: bool, tokens: seq<nat>, r: nat)
    requires r < |tokens| && forall q :: 0 <= q < |tokens| ==> tokens[q] > 0
    ensures RankScale(tokenWeighted, tokens, r) > 0.0
    ensures RankScale(tokenWeighted, tokens, r) == 1.0 <==> !tokenWeighted || !Rejects(tokens, r)
  {
    var average, _, _ := AverageTokensPositive(tokens);
    QuotientOne(tokens[r] as real, average);
  }
}
