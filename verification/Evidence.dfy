/** The closed forms by which the evidence scripts check the counters of a ranked run. */
module Evidence {
  import opened Basics
  import opened Vectors
  import opened Reducers
  import opened RankPlan
  import opened RankWorkers
  import opened Training

  // ----- totals over the steps of one rank ------------------------------------------------------

  function Times(n: nat, t: Totals): Totals {
    Totals(n * t.collectives, n * t.gradientScales, n * t.buckets, n * t.packCopies, n * t.unpackCopies,
           n * t.gradientViews, n * t.planReuses, n * t.overlapSteps, n * t.overlappedBuckets, n * t.bucketScales,
           n * t.gatherCalls, n * t.descriptorCopies, n * t.descriptorBytes)
  }

  lemma TimesStep(n: nat, t: Totals)
    ensures Times(n, t).Plus(t) == Times(n + 1, t)
  {
    MulStep(n, t.collectives);
    MulStep(n, t.gradientScales);
    MulStep(n, t.buckets);
    MulStep(n, t.packCopies);
    MulStep(n, t.unpackCopies);
    MulStep(n, t.gradientViews);
    MulStep(n, t.planReuses);
    MulStep(n, t.overlapSteps);
    MulStep(n, t.overlappedBuckets);
    MulStep(n, t.bucketScales);
    MulStep(n, t.gatherCalls);
    MulStep(n, t.descriptorCopies);
    MulStep(n, t.descriptorBytes);
  }

  lemma PlusAssociates(a: Totals, b: Totals, c: Totals)
    ensures a.Plus(b).Plus(c) == a.Plus(b.Plus(c))
  {
  }

  /** Every step after the first reports the same counters. */
  lemma {:induction false} TotalsOfRun(reducer: Reducer, parameters: nat, buckets: nat, scale: real, n: nat)
    requires n > 0
    ensures TotalOf(ExpectedSteps(reducer, parameters, buckets, scale, n))
      == AsTotals(ExpectedStep(reducer, parameters, buckets, scale, 0))
           .Plus(Times(n - 1, AsTotals(ExpectedStep(reducer, parameters, buckets, scale, 1))))
  {
    var first, later := AsTotals(ExpectedStep(reducer, parameters, buckets, scale, 0)),
                        AsTotals(ExpectedStep(reducer, parameters, buckets, scale, 1));
    var steps := ExpectedSteps(reducer, parameters, buckets, scale, n);
    var before := ExpectedSteps(reducer, parameters, buckets, scale, n - 1);
    assert steps[..n - 1] == before;
    if n == 1 {
      assert before == [];
      assert Times(0, later) == NoTotals;
    } else {
      TotalsOfRun(reducer, parameters, buckets, scale, n - 1);
      TimesStep(n - 2, later);
      PlusAssociates(first, Times(n - 2, later), later);
      assert steps[n - 1] == ExpectedStep(reducer, parameters, buckets, scale, n - 1);
    }
  }

  /** A counter over `n` steps when all steps but perhaps the first agree. */
  function Accumulated(n: nat, first: nat, later: nat): nat
    requires n > 0
  {
    if first == later then n * later else first + (n - 1) * later
  }

  lemma FirstPlusRest(n: nat, first: nat, later: nat)
    requires n > 0
    ensures first + (n - 1) * later == Accumulated(n, first, later)
  {
    MulStep(n - 1, later);
  }

  lemma AccumulatedTotals(reducer: Reducer, parameters: nat, buckets: nat, scale: real, n: nat)
    requires n > 0
    ensures var t := TotalOf(ExpectedSteps(reducer, parameters, buckets, scale, n));
      var first, later := AsTotals(ExpectedStep(reducer, parameters, buckets, scale, 0)),
                          AsTotals(ExpectedStep(reducer, parameters, buckets, scale, 1));
      && t.collectives == Accumulated(n, first.collectives, later.collectives)
      && t.packCopies == Accumulated(n, first.packCopies, later.packCopies)
      && t.unpackCopies == Accumulated(n, first.unpackCopies, later.unpackCopies)
      && t.gradientViews == Accumulated(n, first.gradientViews, later.gradientViews)
      && t.planReuses == Accumulated(n, first.planReuses, later.planReuses)
      && t.overlapSteps == Accumulated(n, first.overlapSteps, later.overlapSteps)
      && t.overlappedBuckets == Accumulated(n, first.overlappedBuckets, later.overlappedBuckets)
      && t.gradientScales == Accumulated(n, first.gradientScales, later.gradientScales)
      && t.bucketScales == Accumulated(n, first.bucketScales, later.bucketScales)
      && t.gatherCalls == Accumulated(n, first.gatherCalls, later.gatherCalls)
      && t.descriptorCopies == Accumulated(n, first.descriptorCopies, later.descriptorCopies)
      && t.descriptorBytes == Accumulated(n, first.descriptorBytes, later.descriptorBytes)
  {
    var first, later := AsTotals(ExpectedStep(reducer, parameters, buckets, scale, 0)),
                        AsTotals(ExpectedStep(reducer, parameters, buckets, scale, 1));
    TotalsOfRun(reducer, parameters, buckets, scale, n);
    FirstPlusRest(n, first.collectives, later.collectives);
    FirstPlusRest(n, first.packCopies, later.packCopies);
    FirstPlusRest(n, first.unpackCopies, later.unpackCopies);
    FirstPlusRest(n, first.gradientViews, later.gradientViews);
    FirstPlusRest(n, first.planReuses, later.planReuses);
    FirstPlusRest(n, first.overlapSteps, later.overlapSteps);
    FirstPlusRest(n, first.overlappedBuckets, later.overlappedBuckets);
    FirstPlusRest(n, first.gradientScales, later.gradientScales);
    FirstPlusRest(n, first.bucketScales, later.bucketScales);
    FirstPlusRest(n, first.gatherCalls, later.gatherCalls);
    FirstPlusRest(n, first.descriptorCopies, later.descriptorCopies);
    FirstPlusRest(n, first.descriptorBytes, later.descriptorBytes);
  }

  /** The collectives, plan reuses and overlaps of a run of `n` steps, as the scripts predict them. */
  lemma PlanTotals(reducer: Reducer, parameters: nat, buckets: nat, scale: real, n: nat)
    requires n > 0
    ensures var t := TotalOf(ExpectedSteps(reducer, parameters, buckets, scale, n));
      && t.collectives == n * (if reducer.PerParameter? then parameters else buckets)
      && t.planReuses == When(reducer.UsesPlan(), n - 1)
      && t.overlapSteps == When(reducer.Overlaps(), n - 1)
      && t.overlappedBuckets == When(reducer.Overlaps(), (n - 1) * buckets)
  {
    AccumulatedTotals(reducer, parameters, buckets, scale, n);
  }

  /** The scalings of a run of `n` steps, as the scripts predict them. */
  lemma ScaleTotals(reducer: Reducer, parameters: nat, buckets: nat, scale: real, n: nat)
    requires n > 0
    ensures var t := TotalOf(ExpectedSteps(reducer, parameters, buckets, scale, n));
      && t.gradientScales == When(scale != 1.0 && !reducer.WeighsInReducer(), n * parameters)
      && t.bucketScales == When(scale != 1.0 && reducer.BucketWeightedOverlap?, n * buckets)
  {
    AccumulatedTotals(reducer, parameters, buckets, scale, n);
    EqualScales(reducer, parameters, buckets, scale, 0);
    EqualScales(reducer, parameters, buckets, scale, 1);
    EqualSteps(n, parameters);
    EqualSteps(n, buckets);
  }

  /** Scalings do not depend on the step. */
  lemma EqualScales(reducer: Reducer, parameters: nat, buckets: nat, scale: real, k: nat)
    ensures var step := AsTotals(ExpectedStep(reducer, parameters, buckets, scale, k));
      && step.gradientScales == When(scale != 1.0 && !reducer.WeighsInReducer(), parameters)
      && step.bucketScales == When(scale != 1.0 && reducer.BucketWeightedOverlap?, buckets)
  {
  }

  lemma EqualSteps(n: nat, c: nat)
    requires n > 0
    ensures Accumulated(n, c, c) == n * c && Accumulated(n, 0, 0) == 0
  {
  }

  /** The gathers of a run of `n` steps, as the scripts predict them. */
  lemma GatherTotals(reducer: Reducer, parameters: nat, buckets: nat, scale: real, n: nat)
    requires n > 0
    ensures var t := TotalOf(ExpectedSteps(reducer, parameters, buckets, scale, n));
      && t.gatherCalls == t.descriptorCopies == When(reducer.GatherWeightedOverlap?, n * buckets)
      && t.descriptorBytes == When(reducer.GatherWeightedOverlap?, n * DescriptorBytes(parameters))
  {
    AccumulatedTotals(reducer, parameters, buckets, scale, n);
    EqualSteps(n, buckets);
    EqualSteps(n, DescriptorBytes(parameters));
  }

  /** The policies that leave the gradients as views of the reduced buckets. */
  predicate LeavesViews(reducer: Reducer) {
    reducer.BucketViews? || reducer.Overlaps()
  }

  /** The copies into and out of the buckets and the views over a run of `n` steps, as the scripts predict them:
      a gradient is copied out of its bucket exactly when it does not stay there as a view. */
  lemma CopyTotals(reducer: Reducer, parameters: nat, buckets: nat, scale: real, n: nat)
    requires n > 0
    ensures var t := TotalOf(ExpectedSteps(reducer, parameters, buckets, scale, n));
      && t.packCopies == When(!reducer.PerParameter? && !reducer.GatherWeightedOverlap?, n * parameters)
      && t.gradientViews == When(LeavesViews(reducer), n * parameters)
      && t.unpackCopies + t.gradientViews == When(!reducer.PerParameter?, n * parameters)
  {
    AccumulatedTotals(reducer, parameters, buckets, scale, n);
    EqualSteps(n, parameters);
  }

  function Repeat(value: nat, n: nat): (s: seq<nat>)
    ensures |s| == n && forall k :: 0 <= k < n ==> s[k] == value
  {
    seq(n, _ => value)
  }

  function Each(steps: seq<StepCounters>, counter: StepCounters -> nat): (s: seq<nat>)
    ensures |s| == |steps| && forall k :: 0 <= k < |steps| ==> s[k] == counter(steps[k])
  {
    seq(|steps|, k requires 0 <= k < |steps| => counter(steps[k]))
  }

  /** The per-step lists: plan reuse and overlap start with the second step. */
  lemma StepLists(reducer: Reducer, parameters: nat, buckets: nat, scale: real, n: nat)
    requires n > 0
    ensures var steps := ExpectedSteps(reducer, parameters, buckets, scale, n);
      && Each(steps, (s: StepCounters) => When(s.reduction.planReused, 1))
           == [0] + Repeat(When(reducer.UsesPlan(), 1), n - 1)
      && Each(steps, (s: StepCounters) => When(s.reduction.overlapEnabled, 1))
           == [0] + Repeat(When(reducer.Overlaps(), 1), n - 1)
      && Each(steps, (s: StepCounters) => s.reduction.overlappedBuckets)
           == [0] + Repeat(When(reducer.Overlaps(), buckets), n - 1)
  {
  }

  // ----- over the ranks ---------------------------------------------------------------------------

  /** Tensor scalings a rank performs in a run of `n` steps. */
  function GradientScales(reducer: Reducer, parameters: nat, buckets: nat, tokenWeighted: bool, tokens: seq<nat>,
                          r: nat, n: nat): nat
    requires r < |tokens|
  {
    TotalOf(ExpectedSteps(reducer, parameters, buckets, RankScale(tokenWeighted, tokens, r), n)).gradientScales
  }

  /** The script's prediction of the same number, which looks at the policy of the run only for the maximum. */
  function ScriptRankTotal(parameters: nat, tokenWeighted: bool, tokens: seq<nat>, r: nat, n: nat): nat
    requires r < |tokens|
  {
    if tokenWeighted && tokens[r] as real != AverageTokens(tokens) then parameters * n else 0
  }

  lemma PositiveProduct(a: nat, b: nat)
    requires a > 0 && b > 0
    ensures a * b == b * a > 0
  {
  }

  /** The per-rank list of the script is right except for the two policies that weigh in the reducer, and
      there it is wrong exactly for the ranks that carry a weight. */
  lemma ScriptRankTotalsRight(reducer: Reducer, parameters: nat, buckets: nat, tokenWeighted: bool,
                              tokens: seq<nat>, r: nat, n: nat)
    requires r < |tokens| && (forall q :: 0 <= q < |tokens| ==> tokens[q] > 0) && n > 0 && parameters > 0
    ensures GradientScales(reducer, parameters, buckets, tokenWeighted, tokens, r, n)
        == ScriptRankTotal(parameters, tokenWeighted, tokens, r, n)
      <==> !(reducer.WeighsInReducer() && tokenWeighted && Rejects(tokens, r))
  {
    UnitScale(tokenWeighted, tokens, r);
    ScaleTotals(reducer, parameters, buckets, RankScale(tokenWeighted, tokens, r), n);
    PositiveProduct(parameters, n);
  }

  function Maximum(ns: seq<nat>): (m: nat)
    ensures forall k :: 0 <= k < |ns| ==> ns[k] <= m
    ensures ns != [] ==> m in ns
  {
    if ns == [] then 0 else
      var rest := Maximum(ns[1..]);
      assert forall k :: 0 < k < |ns| ==> ns[k] == ns[1..][k - 1];
      if ns[0] >= rest then ns[0] else rest
  }

  /** A scaling that costs each weighted rank `c` has maximum `c` exactly when the token counts differ. */
  lemma MaximumOverRanks(scales: seq<nat>, tokens: seq<nat>, weighted: bool, c: nat)
    requires |scales| == |tokens| > 0 && forall q :: 0 <= q < |tokens| ==> tokens[q] > 0
    requires forall r :: 0 <= r < |tokens| ==> scales[r] == When(weighted && Rejects(tokens, r), c)
    ensures Maximum(scales) == When(weighted && (exists r :: 0 <= r < |tokens| && tokens[r] != tokens[0]), c)
  {
    GateIffUneven(tokens);
  }

  /** Tensor scalings per rank in step `k`. */
  function StepScales(reducer: Reducer, parameters: nat, buckets: nat, tokenWeighted: bool, tokens: seq<nat>,
                      k: nat): (s: seq<nat>)
    ensures |s| == |tokens|
    ensures forall r :: 0 <= r < |tokens| ==>
      s[r] == ExpectedStep(reducer, parameters, buckets, RankScale(tokenWeighted, tokens, r), k).gradientScales
  {
    seq(|tokens|, r requires 0 <= r < |tokens| =>
      ExpectedStep(reducer, parameters, buckets, RankScale(tokenWeighted, tokens, r), k).gradientScales)
  }

  /** The maximum over the ranks is the tensor count exactly when the token counts differ. */
  lemma MaximumStepScales(reducer: Reducer, parameters: nat, buckets: nat, tokenWeighted: bool, tokens: seq<nat>, k: nat)
    requires |tokens| > 0 && forall q :: 0 <= q < |tokens| ==> tokens[q] > 0
    ensures Maximum(StepScales(reducer, parameters, buckets, tokenWeighted, tokens, k))
      == When(tokenWeighted && !reducer.WeighsInReducer() && (exists r :: 0 <= r < |tokens| && tokens[r] != tokens[0]),
              parameters)
  {
    var scales := StepScales(reducer, parameters, buckets, tokenWeighted, tokens, k);
    forall r | 0 <= r < |tokens|
      ensures scales[r] == When(tokenWeighted && !reducer.WeighsInReducer() && Rejects(tokens, r), parameters)
    {
      UnitScale(tokenWeighted, tokens, r);
    }
    MaximumOverRanks(scales, tokens, tokenWeighted && !reducer.WeighsInReducer(), parameters);
  }

  /** Bucket scalings per rank in step `k`. */
  function StepBucketScales(reducer: Reducer, parameters: nat, buckets: nat, tokenWeighted: bool, tokens: seq<nat>,
                            k: nat): (s: seq<nat>)
    ensures |s| == |tokens|
    ensures forall r :: 0 <= r < |tokens| ==>
      s[r] == AsTotals(ExpectedStep(reducer, parameters, buckets, RankScale(tokenWeighted, tokens, r), k)).bucketScales
  {
    seq(|tokens|, r requires 0 <= r < |tokens| =>
      AsTotals(ExpectedStep(reducer, parameters, buckets, RankScale(tokenWeighted, tokens, r), k)).bucketScales)
  }

  /** The maximum over the ranks is the bucket count exactly for the policy that scales buckets, on uneven counts. */
  lemma MaximumBucketScales(reducer: Reducer, parameters: nat, buckets: nat, tokenWeighted: bool, tokens: seq<nat>,
                            k: nat)
    requires |tokens| > 0 && forall q :: 0 <= q < |tokens| ==> tokens[q] > 0
    ensures Maximum(StepBucketScales(reducer, parameters, buckets, tokenWeighted, tokens, k))
      == When(tokenWeighted && reducer.BucketWeightedOverlap? && (exists r :: 0 <= r < |tokens| && tokens[r] != tokens[0]),
              buckets)
  {
    var scales := StepBucketScales(reducer, parameters, buckets, tokenWeighted, tokens, k);
    forall r | 0 <= r < |tokens|
      ensures scales[r] == When(tokenWeighted && reducer.BucketWeightedOverlap? && Rejects(tokens, r), buckets)
    {
      UnitScale(tokenWeighted, tokens, r);
      EqualScales(reducer, parameters, buckets, RankScale(tokenWeighted, tokens, r), k);
    }
    MaximumOverRanks(scales, tokens, tokenWeighted && reducer.BucketWeightedOverlap?, buckets);
  }
}
