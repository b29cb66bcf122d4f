/** The arithmetic of the evidence: grouping of trace durations, comparison of tensor files, percentiles. */
module Statistics {
  import opened Basics

  // ----- grouping -------------------------------------------------------------------------------------------

  datatype Call = Call(name: string, begin: int, end: int)

  datatype Group = Group(name: string, durations: seq<nat>)
  {
    function Total(): nat { Sum(durations) }
  }

  function Sum(ns: seq<nat>): nat {
    if ns == [] then 0 else Sum(ns[..|ns| - 1]) + ns[|ns| - 1]
  }

  function TotalCalls(groups: seq<Group>): nat {
    if groups == [] then 0 else TotalCalls(groups[..|groups| - 1]) + |groups[|groups| - 1].durations|
  }

  function TotalDuration(groups: seq<Group>): nat {
    if groups == [] then 0 else TotalDuration(groups[..|groups| - 1]) + groups[|groups| - 1].Total()
  }

  /** Durations of the calls of one name, in order. */
  function DurationsOf(calls: seq<Call>, name: string): seq<nat>
    requires forall k :: 0 <= k < |calls| ==> calls[k].begin <= calls[k].end
  {
    if calls == [] then []
    else
      var last := calls[|calls| - 1];
      DurationsOf(calls[..|calls| - 1], name) + if last.name == name then [last.end - last.begin] else []
  }

  function AllDurations(calls: seq<Call>): nat
    requires forall k :: 0 <= k < |calls| ==> calls[k].begin <= calls[k].end
  {
    if calls == [] then 0
    else AllDurations(calls[..|calls| - 1]) + (calls[|calls| - 1].end - calls[|calls| - 1].begin)
  }

  predicate Ordered(calls: seq<Call>) {
    forall k :: 0 <= k < |calls| ==> calls[k].begin <= calls[k].end
  }

  function NamesIn(calls: seq<Call>): set<string> {
    if calls == [] then {} else NamesIn(calls[..|calls| - 1]) + {calls[|calls| - 1].name}
  }

  function GroupNames(groups: seq<Group>): set<string> {
    if groups == [] then {} else GroupNames(groups[..|groups| - 1]) + {groups[|groups| - 1].name}
  }

  lemma {:induction false} GroupListed(groups: seq<Group>, k: nat)
    requires k < |groups|
    ensures groups[k].name in GroupNames(groups)
  {
    if k < |groups| - 1 {
      GroupListed(groups[..|groups| - 1], k);
    }
  }

  lemma {:induction false} GroupWithName(groups: seq<Group>, name: string) returns (k: nat)
    requires name in GroupNames(groups)
    ensures k < |groups| && groups[k].name == name
  {
    k := |groups| - 1;
    if groups[k].name != name {
      k := GroupWithName(groups[..k], name);
    }
  }

  /** One group per name that occurs, holding exactly the durations of that name. */
  predicate GroupsOf(calls: seq<Call>, groups: seq<Group>)
    requires Ordered(calls)
  {
    && (forall j, k :: 0 <= j < k < |groups| ==> groups[j].name != groups[k].name)
    && (forall k :: 0 <= k < |groups| ==> groups[k].durations == DurationsOf(calls, groups[k].name))
    && GroupNames(groups) == NamesIn(calls)
  }

  method FindGroup(groups: seq<Group>, name: string) returns (k: nat)
    ensures k <= |groups| && (k < |groups| ==> groups[k].name == name)
    ensures k == |groups| ==> forall j :: 0 <= j < |groups| ==> groups[j].name != name
  {
    k := 0;
    while k < |groups| && groups[k].name != name
      invariant k <= |groups| && forall j :: 0 <= j < k ==> groups[j].name != name
    {
      k := k + 1;
    }
  }

  lemma {:induction false} TotalsUpdate(groups: seq<Group>, k: nat, d: nat)
    requires k < |groups|
    ensures var more := groups[k := Grown(groups[k], d)];
      TotalCalls(more) == TotalCalls(groups) + 1 && TotalDuration(more) == TotalDuration(groups) + d
  {
    var n := |groups| - 1;
    var grown := Grown(groups[k], d);
    assert grown.durations[..|grown.durations| - 1] == groups[k].durations;
    if k == n {
      assert groups[k := grown][..n] == groups[..n];
    } else {
      assert groups[k := grown][..n] == groups[..n][k := grown];
      TotalsUpdate(groups[..n], k, d);
    }
  }

  lemma TotalsAppend(groups: seq<Group>, group: Group)
    ensures TotalCalls(groups + [group]) == TotalCalls(groups) + |group.durations|
    ensures TotalDuration(groups + [group]) == TotalDuration(groups) + group.Total()
  {
    assert (groups + [group])[..|groups|] == groups;
  }

  lemma {:induction false} AbsentHasNoDurations(calls: seq<Call>, name: string)
    requires Ordered(calls) && name !in NamesIn(calls)
    ensures DurationsOf(calls, name) == []
  {
    if calls != [] {
      AbsentHasNoDurations(calls[..|calls| - 1], name);
    }
  }

  lemma {:induction false} NamesAfterUpdate(groups: seq<Group>, k: nat, group: Group)
    requires k < |groups| && group.name == groups[k].name
    ensures GroupNames(groups[k := group]) == GroupNames(groups)
  {
    var n := |groups| - 1;
    if k == n {
      assert groups[k := group][..n] == groups[..n];
    } else {
      assert groups[k := group][..n] == groups[..n][k := group];
      NamesAfterUpdate(groups[..n], k, group);
    }
  }

  lemma DurationsStep(calls: seq<Call>, call: Call, name: string)
    requires Ordered(calls + [call])
    ensures Ordered(calls) && call.begin <= call.end
    ensures DurationsOf(calls + [call], name)
      == DurationsOf(calls, name) + if call.name == name then [call.end - call.begin] else []
    ensures NamesIn(calls + [call]) == NamesIn(calls) + {call.name}
  {
    var more := calls + [call];
    assert more[..|calls|] == calls && more[|calls|] == call;
    assert forall k :: 0 <= k < |calls| ==> calls[k] == more[k];
  }

  function Grown(group: Group, d: nat): Group {
    group.(durations := group.durations + [d])
  }

  lemma GrowGroup(calls: seq<Call>, call: Call, groups: seq<Group>, k: nat)
    requires Ordered(calls) && call.begin <= call.end && GroupsOf(calls, groups)
    requires k < |groups| && groups[k].name == call.name
    ensures Ordered(calls + [call])
    ensures GroupsOf(calls + [call], groups[k := Grown(groups[k], call.end - call.begin)])
  {
    var more := groups[k := Grown(groups[k], call.end - call.begin)];
    forall j | 0 <= j < |more| ensures more[j].durations == DurationsOf(calls + [call], more[j].name) {
      DurationsStep(calls, call, more[j].name);
    }
    DurationsStep(calls, call, call.name);
    NamesAfterUpdate(groups, k, Grown(groups[k], call.end - call.begin));
    GroupListed(groups, k);
  }

  lemma OpenGroup(calls: seq<Call>, call: Call, groups: seq<Group>)
    requires Ordered(calls) && call.begin <= call.end && GroupsOf(calls, groups)
    requires forall j :: 0 <= j < |groups| ==> groups[j].name != call.name
    ensures Ordered(calls + [call])
    ensures GroupsOf(calls + [call], groups + [Group(call.name, [call.end - call.begin])])
  {
    DurationsStep(calls, call, call.name);
    OpenedDurations(calls, call, groups, groups + [Group(call.name, [call.end - call.begin])]);
    NamesAppend(groups, Group(call.name, [call.end - call.begin]));
  }

  lemma NamesAppend(groups: seq<Group>, group: Group)
    ensures GroupNames(groups + [group]) == GroupNames(groups) + {group.name}
  {
    assert (groups + [group])[..|groups|] == groups;
  }

  /** Every group, and the one just opened, holds the durations of its name. */
  lemma OpenedDurations(calls: seq<Call>, call: Call, groups: seq<Group>, more: seq<Group>)
    requires Ordered(calls) && Ordered(calls + [call]) && call.begin <= call.end && GroupsOf(calls, groups)
    requires forall j :: 0 <= j < |groups| ==> groups[j].name != call.name
    requires more == groups + [Group(call.name, [call.end - call.begin])]
    ensures forall j :: 0 <= j < |more| ==> more[j].durations == DurationsOf(calls + [call], more[j].name)
  {
    if call.name in GroupNames(groups) {
      var k := GroupWithName(groups, call.name);
    }
    AbsentHasNoDurations(calls, call.name);
    forall j | 0 <= j < |more| ensures more[j].durations == DurationsOf(calls + [call], more[j].name) {
      DurationsStep(calls, call, more[j].name);
    }
  }

  /** Adds one call to its group, or opens a group for it. */
  method AddCall(ghost calls: seq<Call>, call: Call, groups: seq<Group>) returns (more: seq<Group>)
    requires Ordered(calls) && call.begin <= call.end && GroupsOf(calls, groups)
    ensures Ordered(calls + [call]) && GroupsOf(calls + [call], more)
    ensures TotalCalls(more) == TotalCalls(groups) + 1
    ensures TotalDuration(more) == TotalDuration(groups) + (call.end - call.begin)
  {
    var d: nat := call.end - call.begin;
    var k := FindGroup(groups, call.name);
    if k < |groups| {
      GrowGroup(calls, call, groups, k);
      TotalsUpdate(groups, k, d);
      more := groups[k := Grown(groups[k], d)];
    } else {
      OpenGroup(calls, call, groups);
      TotalsAppend(groups, Group(call.name, [d]));
      assert Sum([d]) == Sum([d][..0]) + d;
      more := groups + [Group(call.name, [d])];
    }
  }

  predicate Descending(groups: seq<Group>) {
    forall j, k :: 0 <= j < k < |groups| ==> groups[j].Total() >= groups[k].Total()
  }

  predicate SameTotals(a: seq<Group>, b: seq<Group>) {
    TotalCalls(a) == TotalCalls(b) && TotalDuration(a) == TotalDuration(b)
  }

  /** Sorts by total duration, largest first; equal totals keep their order. */
  method SortDescending(groups: seq<Group>) returns (sorted: seq<Group>)
    ensures multiset(sorted) == multiset(groups) && Descending(sorted)
    ensures SameTotals(sorted, groups)
  {
    sorted := [];
    for i := 0 to |groups|
      invariant multiset(sorted) == multiset(groups[..i]) && Descending(sorted)
      invariant SameTotals(sorted, groups[..i])
    {
      assert groups[..i + 1] == groups[..i] + [groups[i]];
      TotalsAppend(groups[..i], groups[i]);
      sorted := Insert(sorted, groups[i]);
    }
    assert groups[..|groups|] == groups;
  }

  method Insert(sorted: seq<Group>, group: Group) returns (more: seq<Group>)
    requires Descending(sorted)
    ensures multiset(more) == multiset(sorted + [group]) && Descending(more)
    ensures TotalCalls(more) == TotalCalls(sorted) + |group.durations|
    ensures TotalDuration(more) == TotalDuration(sorted) + group.Total()
  {
    var k: nat := |sorted|;
    while k > 0 && sorted[k - 1].Total() < group.Total()
      invariant k <= |sorted| && forall j: nat :: k <= j < |sorted| ==> sorted[j].Total() < group.Total()
    {
      k := k - 1;
    }
    Inserted(sorted, k, group);
    more := sorted[..k] + [group] + sorted[k..];
  }

  lemma {:induction false} Inserted(sorted: seq<Group>, k: nat, group: Group)
    requires Descending(sorted) && k <= |sorted|
    requires k > 0 ==> sorted[k - 1].Total() >= group.Total()
    requires forall j: nat :: k <= j < |sorted| ==> sorted[j].Total() < group.Total()
    ensures var more := sorted[..k] + [group] + sorted[k..];
      && multiset(more) == multiset(sorted + [group]) && Descending(more)
      && TotalCalls(more) == TotalCalls(sorted) + |group.durations|
      && TotalDuration(more) == TotalDuration(sorted) + group.Total()
  {
    var front, back := sorted[..k], sorted[k..];
    Halves(sorted, k);
    InsertedTotals(front, back, group);
    StillDescending(sorted, k, group);
    SameItems(front, back, group);
  }

  lemma Halves(sorted: seq<Group>, k: nat)
    requires k <= |sorted|
    ensures sorted[..k] + sorted[k..] == sorted
  {
  }

  lemma InsertedTotals(front: seq<Group>, back: seq<Group>, group: Group)
    ensures TotalCalls(front + [group] + back) == TotalCalls(front + back) + |group.durations|
    ensures TotalDuration(front + [group] + back) == TotalDuration(front + back) + group.Total()
  {
    TotalsAppend(front, group);
    TotalsConcat(front, back);
    TotalsConcat(front + [group], back);
  }

  lemma SameItems(front: seq<Group>, back: seq<Group>, group: Group)
    ensures multiset(front + [group] + back) == multiset(front + back + [group])
  {
  }

  lemma {:induction false} StillDescending(sorted: seq<Group>, k: nat, group: Group)
    requires Descending(sorted) && k <= |sorted|
    requires k > 0 ==> sorted[k - 1].Total() >= group.Total()
    requires forall j: nat :: k <= j < |sorted| ==> sorted[j].Total() < group.Total()
    ensures Descending(sorted[..k] + [group] + sorted[k..])
  {
  }

  lemma {:induction false} TotalsConcat(a: seq<Group>, b: seq<Group>)
    ensures TotalCalls(a + b) == TotalCalls(a) + TotalCalls(b)
    ensures TotalDuration(a + b) == TotalDuration(a) + TotalDuration(b)
    decreases |b|
  {
    if b == [] {
      assert a + b == a;
    } else {
      var n := |b| - 1;
      assert (a + b)[..|a + b| - 1] == a + b[..n];
      TotalsConcat(a, b[..n]);
    }
  }

  lemma CallsStep(calls: seq<Call>, c: nat)
    requires c < |calls| && Ordered(calls[..c])
    ensures Ordered(calls[..c + 1]) <==> calls[c].begin <= calls[c].end
    ensures calls[..c + 1] == calls[..c] + [calls[c]]
    ensures Ordered(calls[..c + 1]) ==> AllDurations(calls[..c + 1]) == AllDurations(calls[..c]) + (calls[c].end - calls[c].begin)
  {
    assert calls[..c + 1] == calls[..c] + [calls[c]];
    assert calls[..c + 1][..c] == calls[..c];
  }

  predicate Grouped(calls: seq<Call>, groups: seq<Group>) {
    && Ordered(calls) && GroupsOf(calls, groups)
    && TotalCalls(groups) == |calls| && TotalDuration(groups) == AllDurations(calls)
  }

  /** Collects the groups in order of first occurrence. */
  method Collect(calls: seq<Call>) returns (ok: bool, groups: seq<Group>)
    ensures ok == Ordered(calls)
    ensures ok ==> GroupsOf(calls, groups) && TotalCalls(groups) == |calls| && TotalDuration(groups) == AllDurations(calls)
  {
    ok, groups := true, [];
    for c := 0 to |calls|
      invariant Grouped(calls[..c], groups)
    {
      CallsStep(calls, c);
      if calls[c].end < calls[c].begin {
        assert !Ordered(calls);
        return false, groups;
      }
      groups := AddCall(calls[..c], calls[c], groups);
    }
    assert calls[..|calls|] == calls;
  }

  /** Groups a trace. It fails exactly when some duration is negative; otherwise the groups partition the
      calls by name, no call and no duration is lost, and they come out largest first. */
  method Aggregate(calls: seq<Call>) returns (ok: bool, rows: seq<Group>)
    ensures ok == Ordered(calls)
    ensures ok ==> Descending(rows) && TotalCalls(rows) == |calls| && TotalDuration(rows) == AllDurations(calls)
    ensures ok ==> exists groups :: GroupsOf(calls, groups) && multiset(rows) == multiset(groups)
  {
    var groups;
    ok, groups := Collect(calls);
    rows := [];
    if ok {
      rows := SortDescending(groups);
    }
  }

  predicate Within(ns: seq<nat>, low: nat, high: nat) {
    forall k :: 0 <= k < |ns| ==> low <= ns[k] <= high
  }

  /** The mean lies between the extremes. */
  lemma {:induction false} MeanBetween(ns: seq<nat>, low: nat, high: nat)
    requires Within(ns, low, high)
    ensures |ns| * low <= Sum(ns) <= |ns| * high
  {
    if ns != [] {
      MeanBetween(ns[..|ns| - 1], low, high);
      MulStep(|ns| - 1, low);
      MulStep(|ns| - 1, high);
    }
  }

  /** Shares of the groups in per cent. */
  function Shares(groups: seq<Group>, total: nat): real {
    if groups == [] || total == 0 then 0.0
    else Shares(groups[..|groups| - 1], total) + 100.0 * groups[|groups| - 1].Total() as real / total as real
  }

  lemma {:induction false} SharesOf(groups: seq<Group>, total: nat, inverse: real) returns (sum: real)
    requires total > 0 && inverse == 100.0 / total as real
    ensures sum == TotalDuration(groups) as real
    ensures Shares(groups, total) == inverse * sum
  {
    if groups == [] {
      sum := 0.0;
    } else {
      var n := |groups| - 1;
      var before := SharesOf(groups[..n], total, inverse);
      var last := groups[n].Total() as real;
      ShareStep(last, total as real, inverse);
      Distribute(inverse, before, last);
      sum := before + last;
    }
  }

  lemma ShareStep(x: real, total: real, inverse: real)
    requires total > 0.0 && inverse == 100.0 / total
    ensures 100.0 * x / total == inverse * x
  {
    assert inverse * total == 100.0;
    assert (inverse * x) * total == (inverse * total) * x;
  }

  lemma Distribute(c: real, x: real, y: real)
    ensures c * (x + y) == c * x + c * y
  {
  }

  /** The shares of a trace with a positive total add up to one hundred. */
  lemma SharesAddUp(groups: seq<Group>)
    requires TotalDuration(groups) > 0
    ensures Shares(groups, TotalDuration(groups)) == 100.0
  {
    var total := TotalDuration(groups);
    var sum := SharesOf(groups, total, 100.0 / total as real);
    assert 100.0 / sum * sum == 100.0;
  }
}
