/** The synthetic token batches: the global batch of the reference is the concatenation of the local ones. */
module Batches {
  import opened Basics
  import opened Training
  import BucketRanges

  /** The network shape matters only through its vocabulary; eight tokens mean the tiny model. */
  function FirstToken(vocabulary: nat, rank: nat, index: nat): (token: nat)
    requires vocabulary > 0
    ensures token < vocabulary
  {
    if vocabulary == 8 then
      if rank == 0 then index % 8
      else if rank == 1 then (if index < 4 then 3 - index else 0)
      else (rank * 3 + index * 5 + 1) % 8
    else (rank * 97 + index * 13 + 7) % vocabulary
  }

  /** Targets follow the inputs by one, except for the second row of the tiny model. */
  function FirstTarget(vocabulary: nat, rank: nat, index: nat): nat
    requires vocabulary > 0
  {
    if vocabulary == 8 && rank == 0 then (index + 1) % 4
    else if vocabulary == 8 && rank == 1 then (if index < 3 then 2 - index else 3)
    else (FirstToken(vocabulary, rank, index) + 1) % vocabulary
  }

  function MoreToken(vocabulary: nat, rank: nat, row: nat, index: nat): nat
    requires vocabulary > 0
  {
    (rank * 97 + row * 53 + index * 13 + 7) % vocabulary
  }

  /** Row `row` of the batch of one rank. */
  function RowOf(vocabulary: nat, context: nat, rank: nat, row: nat): (r: Row)
    requires vocabulary > 0
    ensures |r.inputs| == |r.targets| == context
  {
    if row == 0 then
      Row(seq(context, i requires 0 <= i < context => FirstToken(vocabulary, rank, i)),
          seq(context, i requires 0 <= i < context => FirstTarget(vocabulary, rank, i)))
    else
      Row(seq(context, i requires 0 <= i < context => MoreToken(vocabulary, rank, row, i)),
          seq(context, i requires 0 <= i < context => (MoreToken(vocabulary, rank, row, i) + 1) % vocabulary))
  }

  function RowsOf(vocabulary: nat, context: nat, rank: nat, rows: nat): (rs: seq<Row>)
    requires vocabulary > 0
    ensures |rs| == rows
  {
    seq(rows, k requires 0 <= k < rows => RowOf(vocabulary, context, rank, k))
  }

  /** The rows one after the other, as the flat token buffers hold them. */
  function FlatInputs(rows: seq<Row>): seq<int> {
    if rows == [] then [] else FlatInputs(rows[..|rows| - 1]) + rows[|rows| - 1].inputs
  }

  function FlatTargets(rows: seq<Row>): seq<int> {
    if rows == [] then [] else FlatTargets(rows[..|rows| - 1]) + rows[|rows| - 1].targets
  }

  lemma {:induction false} FlatAppend(a: seq<Row>, b: seq<Row>)
    ensures FlatInputs(a + b) == FlatInputs(a) + FlatInputs(b)
    ensures FlatTargets(a + b) == FlatTargets(a) + FlatTargets(b)
    decreases |b|
  {
    if b == [] {
      assert a + b == a;
    } else {
      var n := |b| - 1;
      assert (a + b)[..|a + b| - 1] == a + b[..n];
      FlatAppend(a, b[..n]);
      Associative(FlatInputs(a), FlatInputs(b[..n]), b[n].inputs);
      Associative(FlatTargets(a), FlatTargets(b[..n]), b[n].targets);
    }
  }

  lemma {:induction false} FlatLength(context: nat, rows: seq<Row>)
    requires forall k :: 0 <= k < |rows| ==> |rows[k].inputs| == |rows[k].targets| == context
    ensures |FlatInputs(rows)| == |FlatTargets(rows)| == |rows| * context
  {
    if rows != [] {
      FlatLength(context, rows[..|rows| - 1]);
      MulStep(|rows| - 1, context);
    }
  }

  method LocalBatch(vocabulary: nat, context: nat, rank: nat, rows: nat) returns (inputs: seq<int>, targets: seq<int>)
    requires vocabulary > 0 && rows > 0
    ensures inputs == FlatInputs(RowsOf(vocabulary, context, rank, rows))
    ensures targets == FlatTargets(RowsOf(vocabulary, context, rank, rows))
  {
    var first := RowOf(vocabulary, context, rank, 0);
    inputs, targets := first.inputs, first.targets;
    OneRow(vocabulary, context, rank);
    for row := 1 to rows
      invariant inputs == FlatInputs(RowsOf(vocabulary, context, rank, row))
      invariant targets == FlatTargets(RowsOf(vocabulary, context, rank, row))
    {
      var moreInputs, moreTargets := [], [];
      ghost var expected := RowOf(vocabulary, context, rank, row);
      for index := 0 to context
        invariant moreInputs == expected.inputs[..index] && moreTargets == expected.targets[..index]
      {
        var token := MoreToken(vocabulary, rank, row, index);
        moreInputs, moreTargets := moreInputs + [token], moreTargets + [(token + 1) % vocabulary];
      }
      NextRow(vocabulary, context, rank, row);
      inputs, targets := inputs + moreInputs, targets + moreTargets;
    }
  }

  lemma OneRow(vocabulary: nat, context: nat, rank: nat)
    requires vocabulary > 0
    ensures FlatInputs(RowsOf(vocabulary, context, rank, 1)) == RowOf(vocabulary, context, rank, 0).inputs
    ensures FlatTargets(RowsOf(vocabulary, context, rank, 1)) == RowOf(vocabulary, context, rank, 0).targets
  {
    assert RowsOf(vocabulary, context, rank, 1)[..0] == [];
  }

  lemma NextRow(vocabulary: nat, context: nat, rank: nat, row: nat)
    requires vocabulary > 0
    ensures var before, after := RowsOf(vocabulary, context, rank, row), RowsOf(vocabulary, context, rank, row + 1);
      var r := RowOf(vocabulary, context, rank, row);
      && FlatInputs(after) == FlatInputs(before) + r.inputs
      && FlatTargets(after) == FlatTargets(before) + r.targets
  {
    assert RowsOf(vocabulary, context, rank, row + 1)[..row] == RowsOf(vocabulary, context, rank, row);
  }

  /** The batches of all ranks. */
  function LocalRows(vocabulary: nat, context: nat, rankRows: seq<nat>): (batches: seq<seq<Row>>)
    requires vocabulary > 0
    ensures |batches| == |rankRows|
    ensures forall r :: 0 <= r < |rankRows| ==> batches[r] == RowsOf(vocabulary, context, r, rankRows[r])
  {
    seq(|rankRows|, r requires 0 <= r < |rankRows| => RowsOf(vocabulary, context, r, rankRows[r]))
  }

  lemma {:induction false} ConcatStep<T>(lists: seq<seq<T>>, k: nat)
    requires k < |lists|
    ensures Concat(lists[..k + 1]) == Concat(lists[..k]) + lists[k]
    decreases k
  {
    if k == 0 {
      assert lists[..1][1..] == [] && lists[..0] == [];
      assert Concat(lists[..1]) == lists[0] + Concat([]);
    } else {
      assert lists[..k + 1][1..] == lists[1..][..k] && lists[..k][1..] == lists[1..][..k - 1];
      ConcatStep(lists[1..], k - 1);
    }
  }

  /** The batch of the reference is the concatenation of the batches of the ranks, row by row. */
  method GlobalBatch(vocabulary: nat, context: nat, rankRows: seq<nat>) returns (inputs: seq<int>,
                     targets: seq<int>, rows: nat)
    requires vocabulary > 0 && context > 0 && forall r :: 0 <= r < |rankRows| ==> rankRows[r] > 0
    ensures inputs == FlatInputs(Concat(LocalRows(vocabulary, context, rankRows)))
    ensures targets == FlatTargets(Concat(LocalRows(vocabulary, context, rankRows)))
    ensures rows == |Concat(LocalRows(vocabulary, context, rankRows))|
  {
    inputs, targets := [], [];
    ghost var batches := LocalRows(vocabulary, context, rankRows);
    for rank := 0 to |rankRows|
      invariant inputs == FlatInputs(Concat(batches[..rank])) && targets == FlatTargets(Concat(batches[..rank]))
    {
      var rankInputs, rankTargets := LocalBatch(vocabulary, context, rank, rankRows[rank]);
      ConcatStep(batches, rank);
      FlatAppend(Concat(batches[..rank]), batches[rank]);
      inputs, targets := inputs + rankInputs, targets + rankTargets;
    }
    assert batches[..|rankRows|] == batches;
    RowsAreWide(context, batches);
    FlatLength(context, Concat(batches));
    WholeRows(|Concat(batches)|, context);
    rows := |inputs| / context;
  }

  lemma {:induction false} RowsAreWide(context: nat, batches: seq<seq<Row>>)
    requires forall r, k :: 0 <= r < |batches| && 0 <= k < |batches[r]| ==>
      |batches[r][k].inputs| == |batches[r][k].targets| == context
    ensures forall k :: 0 <= k < |Concat(batches)| ==> |Concat(batches)[k].inputs| == |Concat(batches)[k].targets| == context
  {
    if batches != [] {
      assert forall k :: 0 <= k < |batches[0]| ==> |batches[0][k].inputs| == |batches[0][k].targets| == context;
      RowsAreWide(context, batches[1..]);
    }
  }

  lemma WholeRows(n: nat, context: nat)
    requires context > 0
    ensures n * context / context == n
  {
    MulStep(n, context);
    BucketRanges.QuotientUnique(n * context, context, n);
  }
}
