/** The continuous batch scheduler: a fixed number of cache slots, refilled as requests finish. Whatever the
    slots and the arrivals, every request gets the tokens it would get alone. */
module Scheduler {
  import opened Basics
  import opened Vectors
  import opened Network
  import opened Requests

  datatype RequestState = Pending | Decoding(slot: nat) | Completed | Cancelled

  datatype Request = Request(prompt: seq<int>, config: Config, generated: seq<int>, rng: int, state: RequestState)
  {
    function Text(): seq<int> { prompt + generated }
    predicate Active() { state.Pending? || state.Decoding? }
  }

  /** A cache row with the logits of its next token, and the request that owns it, if any. */
  datatype Slot = Slot(owner: int, row: seq<LayerState>, position: nat, logits: Vector)
  {
    predicate Free() { owner < 0 }
  }

  // ----- the invariant --------------------------------------------------------------------------------------

  /** The request has made the choices it would have made alone, and knows when to stop. */
  ghost predicate OnTrack(engine: Engine, capacity: nat, request: Request) {
    && engine.Valid() && Acceptable(engine.net, request.prompt, request.config)
    && |request.prompt| + request.config.maxNewTokens <= capacity
    && Progress(request.generated, request.rng) == After(engine, request.prompt, request.config, |request.generated|)
    && (request.state.Pending? ==> request.generated == [])
    && (request.Active() ==>
      && |request.generated| < request.config.maxNewTokens
      && FinalLength(engine, request.prompt, request.config, |request.generated|)
           == FinalLength(engine, request.prompt, request.config, 0))
    && (request.state.Completed? ==> request.generated == Isolated(engine, request.prompt, request.config))
    && (request.state.Cancelled? ==> request.generated <= Isolated(engine, request.prompt, request.config))
  }

  /** The slot continues the text of its owner. */
  ghost predicate SlotServes(net: Model, requests: seq<Request>, s: nat, slot: Slot) {
    && |slot.logits| == net.vocabulary
    && (!slot.Free() ==>
      && slot.owner < |requests| && requests[slot.owner].state == Decoding(s)
      && requests[slot.owner].prompt != []
      && RowCaches(net, requests[slot.owner].Text(), slot.row)
      && slot.position == |requests[slot.owner].Text()|
      && slot.logits == Logits(net, requests[slot.owner].Text()))
  }

  /** The owner has just been given `token`, which the cache row has not seen yet. */
  ghost predicate SlotLags(net: Model, requests: seq<Request>, s: nat, slot: Slot, token: int) {
    && |slot.logits| == net.vocabulary
    && 0 <= slot.owner < |requests| && requests[slot.owner].state == Decoding(s)
    && requests[slot.owner].prompt != []
    && exists before :: requests[slot.owner].Text() == before + [token] && Covers(net, before, slot)
  }

  ghost predicate Covers(net: Model, text: seq<int>, slot: Slot) {
    RowCaches(net, text, slot.row) && slot.position == |text|
  }

  ghost predicate SlotOk(net: Model, requests: seq<Request>, s: nat, slot: Slot, lag: int) {
    if lag < 0 then SlotServes(net, requests, s, slot) else SlotLags(net, requests, s, slot, lag)
  }

  /** A decoding request owns the slot it says. */
  predicate Placed(slots: seq<Slot>, i: nat, request: Request) {
    request.state.Decoding? ==> request.state.slot < |slots| && slots[request.state.slot].owner == i
  }

  /** All requests are on track; slot `s` is up to date, or behind by the token `lags[s]`. */
  ghost predicate Mixed(engine: Engine, capacity: nat, requests: seq<Request>, slots: seq<Slot>, lags: seq<int>) {
    && engine.Valid() && |lags| == |slots|
    && (forall i :: 0 <= i < |requests| ==> OnTrack(engine, capacity, requests[i]) && Placed(slots, i, requests[i]))
    && (forall s :: 0 <= s < |slots| ==> SlotOk(engine.net, requests, s, slots[s], lags[s]))
  }

  function NoLag(n: nat): (lags: seq<int>)
    ensures |lags| == n && forall s :: 0 <= s < n ==> lags[s] == -1
  {
    seq(n, _ => -1)
  }

  ghost predicate Consistent(engine: Engine, capacity: nat, requests: seq<Request>, slots: seq<Slot>) {
    Mixed(engine, capacity, requests, slots, NoLag(|slots|))
  }

  /** Tokens an active request may still produce. */
  function Left(request: Request): nat {
    if request.Active() && |request.generated| < request.config.maxNewTokens
    then request.config.maxNewTokens - |request.generated| else 0
  }

  function TotalLeft(requests: seq<Request>): nat {
    if requests == [] then 0 else TotalLeft(requests[..|requests| - 1]) + Left(requests[|requests| - 1])
  }

  lemma {:induction false} TotalLeftUpdate(requests: seq<Request>, i: nat, request: Request)
    requires i < |requests|
    ensures TotalLeft(requests[i := request]) + Left(requests[i]) == TotalLeft(requests) + Left(request)
  {
    var n := |requests| - 1;
    if i == n {
      assert requests[i := request][..n] == requests[..n];
    } else {
      assert requests[i := request][..n] == requests[..n][i := request];
      TotalLeftUpdate(requests[..n], i, request);
    }
  }

  lemma LeftZero(engine: Engine, capacity: nat, request: Request)
    requires OnTrack(engine, capacity, request)
    ensures Left(request) == 0 <==> !request.Active()
  {
  }

  predicate AllIdle(requests: seq<Request>) {
    forall i :: 0 <= i < |requests| ==> !requests[i].Active()
  }

  lemma {:induction false} TotalLeftZero(requests: seq<Request>)
    requires forall i :: 0 <= i < |requests| ==> (Left(requests[i]) == 0 <==> !requests[i].Active())
    ensures TotalLeft(requests) == 0 <==> AllIdle(requests)
  {
    if requests != [] {
      var n := |requests| - 1;
      TotalLeftZero(requests[..n]);
      assert AllIdle(requests) ==> AllIdle(requests[..n]);
      assert AllIdle(requests[..n]) && !requests[n].Active() ==> AllIdle(requests);
    }
  }

  lemma NothingLeft(engine: Engine, capacity: nat, requests: seq<Request>)
    requires forall i :: 0 <= i < |requests| ==> OnTrack(engine, capacity, requests[i])
    ensures TotalLeft(requests) == 0 <==> AllIdle(requests)
  {
    forall i | 0 <= i < |requests| ensures Left(requests[i]) == 0 <==> !requests[i].Active() {
      LeftZero(engine, capacity, requests[i]);
    }
    TotalLeftZero(requests);
  }

  // ----- steps on one request -----------------------------------------------------------------------------------

  /** What a chosen token does to its request. */
  function Advance(request: Request, token: int, rng: int): Request {
    var grown := request.(generated := request.generated + [token], rng := rng);
    if token in request.config.stopTokens || |grown.generated| == request.config.maxNewTokens
    then grown.(state := Completed) else grown
  }

  lemma AdvanceOnTrack(engine: Engine, capacity: nat, request: Request, token: int, rng: int)
    requires OnTrack(engine, capacity, request) && request.state.Decoding?
    requires request.Text() != [] && (token, rng) == NextChoice(engine, request)
    ensures OnTrack(engine, capacity, Advance(request, token, rng))
    ensures Left(Advance(request, token, rng)) < Left(request)
  {
    var prompt, config, k := request.prompt, request.config, |request.generated|;
    var next := Advance(request, token, rng);
    assert Progress(next.generated, rng) == After(engine, prompt, config, k + 1);
    assert next.generated[k] == token;
    var n := FinalLength(engine, prompt, config, k);
    if token in config.stopTokens {
      assert n == k + 1;
    } else {
      assert n == FinalLength(engine, prompt, config, k + 1);
    }
  }

  /** The choice the request makes next, served alone or not. */
  ghost function NextChoice(engine: Engine, request: Request): (choice: (int, int))
    requires engine.Valid() && request.Text() != []
  {
    Select(engine, request.config, Logits(engine.net, request.Text()), request.rng)
  }

  lemma PrefixOfIsolated(engine: Engine, capacity: nat, request: Request)
    requires OnTrack(engine, capacity, request) && request.Active()
    ensures request.generated <= Isolated(engine, request.prompt, request.config)
  {
    AfterPrefix(engine, request.prompt, request.config, |request.generated|,
                FinalLength(engine, request.prompt, request.config, |request.generated|));
  }

  // ----- steps on the table of requests and slots -----------------------------------------------------------------

  /** Replacing a request and the slot it owns keeps everything else in place. */
  lemma ReplaceBoth(engine: Engine, capacity: nat, requests: seq<Request>, slots: seq<Slot>, lags: seq<int>,
                    i: nat, request: Request, s: nat, slot: Slot, lag: int)
    requires Mixed(engine, capacity, requests, slots, lags)
    requires i < |requests| && s < |slots| && OnTrack(engine, capacity, request)
    requires slots[s].owner == i || (slots[s].Free() && !requests[i].state.Decoding?)
    requires (request.state == Decoding(s) && slot.owner == i) || (!request.state.Decoding? && slot.Free())
    requires SlotOk(engine.net, requests[i := request], s, slot, lag)
    ensures Mixed(engine, capacity, requests[i := request], slots[s := slot], lags[s := lag])
  {
    RequestsStay(engine, capacity, requests, slots, lags, i, request, s, slot);
    SlotsStay(engine, capacity, requests, slots, lags, i, request, s, slot);
  }

  lemma RequestsStay(engine: Engine, capacity: nat, requests: seq<Request>, slots: seq<Slot>, lags: seq<int>,
                     i: nat, request: Request, s: nat, slot: Slot)
    requires Mixed(engine, capacity, requests, slots, lags)
    requires i < |requests| && s < |slots| && OnTrack(engine, capacity, request)
    requires slots[s].owner == i || slots[s].Free()
    requires (request.state == Decoding(s) && slot.owner == i) || (!request.state.Decoding? && slot.Free())
    ensures var rs, ss := requests[i := request], slots[s := slot];
      forall k :: 0 <= k < |rs| ==> OnTrack(engine, capacity, rs[k]) && Placed(ss, k, rs[k])
  {
    var rs, ss := requests[i := request], slots[s := slot];
    forall k | 0 <= k < |rs| ensures OnTrack(engine, capacity, rs[k]) && Placed(ss, k, rs[k]) {
      assert k != i ==> OnTrack(engine, capacity, requests[k]) && Placed(slots, k, requests[k]);
    }
  }

  lemma SlotsStay(engine: Engine, capacity: nat, requests: seq<Request>, slots: seq<Slot>, lags: seq<int>,
                  i: nat, request: Request, s: nat, slot: Slot)
    requires Mixed(engine, capacity, requests, slots, lags) && i < |requests| && s < |slots|
    requires slots[s].owner == i || (slots[s].Free() && !requests[i].state.Decoding?)
    ensures var rs, ss := requests[i := request], slots[s := slot];
      forall t :: 0 <= t < |ss| && t != s ==> SlotOk(engine.net, rs, t, ss[t], lags[t])
  {
    var rs, ss := requests[i := request], slots[s := slot];
    assert Placed(slots, i, requests[i]);
    forall t | 0 <= t < |ss| && t != s ensures SlotOk(engine.net, rs, t, ss[t], lags[t]) {
      assert SlotOk(engine.net, requests, t, slots[t], lags[t]);
    }
  }

  /** Updating a slot that stays with its owner. */
  lemma ReplaceSlot(engine: Engine, capacity: nat, requests: seq<Request>, slots: seq<Slot>, lags: seq<int>,
                    s: nat, slot: Slot, lag: int)
    requires Mixed(engine, capacity, requests, slots, lags)
    requires s < |slots| && slot.owner == slots[s].owner && SlotOk(engine.net, requests, s, slot, lag)
    ensures Mixed(engine, capacity, requests, slots[s := slot], lags[s := lag])
  {
    forall k | 0 <= k < |requests| ensures OnTrack(engine, capacity, requests[k]) && Placed(slots[s := slot], k, requests[k]) {
      assert Placed(slots, k, requests[k]);
    }
    var after := slots[s := slot];
    forall t | 0 <= t < |slots| ensures SlotOk(engine.net, requests, t, after[t], lags[s := lag][t]) {
      assert t != s ==> SlotOk(engine.net, requests, t, slots[t], lags[t]);
    }
  }

  class ContinuousScheduler {
    const engine: Engine
    const maxSlots: nat
    const capacity: nat
    const batchPrefill: bool
    const policy: seq<CacheType>
    var requests: seq<Request>
    var slots: seq<Slot>

    ghost predicate Valid()
      reads this
    {
      && |slots| == maxSlots > 0
      && capacity <= engine.net.contextLimit
      && Consistent(engine, capacity, requests, slots)
    }

    constructor (engine: Engine, maxSlots: nat, capacity: nat, batchPrefill: bool, policy: seq<CacheType>)
      requires engine.Valid() && maxSlots > 0 && capacity <= engine.net.contextLimit
      ensures Valid() && requests == []
      ensures this.engine == engine && this.maxSlots == maxSlots && this.capacity == capacity && this.policy == policy
    {
      this.engine, this.maxSlots, this.capacity, this.batchPrefill := engine, maxSlots, capacity, batchPrefill;
      this.policy := policy;
      requests := [];
      slots := seq(maxSlots, _ => Slot(-1, EmptyRow(|engine.net.blocks|), 0, seq(engine.net.vocabulary, _ => 0.0)));
    }

    /** Requests this scheduler takes: acceptable ones that ask for its own cache types and fit its cache. */
    predicate Takes(prompt: seq<int>, config: Config) {
      && Acceptable(engine.net, prompt, config) && PolicyOf(engine.net, config) == Some(policy)
      && |prompt| + config.maxNewTokens <= capacity
    }

    /** Accepts a request, or refuses it without any effect. The identifier is one more than its index. */
    method Submit(prompt: seq<int>, config: Config) returns (id: nat)
      requires Valid()
      modifies this
      ensures Valid() && slots == old(slots)
      ensures id == if Takes(prompt, config) then |requests| else 0
      ensures id == 0 ==> requests == old(requests)
      ensures Takes(prompt, config) ==> id > 0
      ensures id > 0 ==> requests == old(requests) + [Fresh(prompt, config)]
    {
      var ok := ValidateRequest(engine.net, prompt, config);
      if !ok || PolicyOf(engine.net, config) != Some(policy) || |prompt| + config.maxNewTokens > capacity {
        return 0;
      }
      FreshOnTrack(engine, capacity, prompt, config);
      AppendRequest(engine, capacity, requests, slots, Fresh(prompt, config));
      requests := requests + [Fresh(prompt, config)];
      id := |requests|;
    }

    // ----- admission ----------------------------------------------------------------------------------------

    /** The free slots, in order. */
    method FreeSlots() returns (free: seq<nat>)
      requires |slots| == maxSlots
      ensures ListsFree(slots, free)
    {
      free := [];
      for s := 0 to maxSlots
        invariant Ascending(free)
        invariant forall k :: 0 <= k < |free| ==> free[k] < s && slots[free[k]].Free()
        invariant forall t :: 0 <= t < s && slots[t].Free() ==> t in free
      {
        if slots[s].Free() {
          free := free + [s];
        }
      }
    }

    /** The requests to admit next: the first pending one and, when prefills are batched, others with a prompt
        of the same length, as many as there are free slots. */
    method NextAdmissions(room: nat) returns (indices: seq<nat>)
      requires room > 0
      ensures Ascending(indices) && |indices| <= room
      ensures forall k :: 0 <= k < |indices| ==> indices[k] < |requests| && requests[indices[k]].state.Pending?
      ensures indices == [] ==> NonePending(requests)
      ensures indices != [] ==> forall i :: 0 <= i < indices[0] ==> !requests[i].state.Pending?
      ensures !batchPrefill ==> |indices| <= 1
      ensures forall k :: 0 <= k < |indices| ==> |requests[indices[k]].prompt| == |requests[indices[0]].prompt|
    {
      indices := [];
      var limit := if batchPrefill then room else 1;
      for i := 0 to |requests|
        invariant Ascending(indices) && |indices| <= limit
        invariant forall k :: 0 <= k < |indices| ==> indices[k] < i && requests[indices[k]].state.Pending?
        invariant indices == [] ==> forall j :: 0 <= j < i ==> !requests[j].state.Pending?
        invariant indices != [] ==> forall j :: 0 <= j < indices[0] ==> !requests[j].state.Pending?
        invariant forall k :: 0 <= k < |indices| ==> |requests[indices[k]].prompt| == |requests[indices[0]].prompt|
      {
        if requests[i].state.Pending? && |indices| < limit
          && (indices == [] || |requests[i].prompt| == |requests[indices[0]].prompt|) {
          indices := indices + [i];
        }
      }
    }

    /** Prefills one pending request into a free slot. */
    method Admit(i: nat, s: nat)
      requires Valid() && i < |requests| && requests[i].state.Pending? && s < maxSlots && slots[s].Free()
      modifies this
      ensures Valid() && |requests| == old(|requests|)
      ensures requests == old(requests)[i := old(requests)[i].(state := Decoding(s))]
      ensures !slots[s].Free() && forall t :: 0 <= t < maxSlots && t != s ==> slots[t] == old(slots)[t]
      ensures TotalLeft(requests) == old(TotalLeft(requests))
    {
      var request := requests[i].(state := Decoding(s));
      assert OnTrack(engine, capacity, requests[i]);
      var row, logits := ForwardFull(engine.net, request.prompt);
      assert request.Text() == request.prompt;
      var slot := Slot(i, row, |request.prompt|, logits);
      ReplaceBoth(engine, capacity, requests, slots, NoLag(|slots|), i, request, s, slot, -1);
      assert NoLag(|slots|)[s := -1] == NoLag(|slots|);
      TotalLeftUpdate(requests, i, request);
      requests, slots := requests[i := request], slots[s := slot];
    }

    /** Fills free slots until there are none, or no request is pending. */
    method AdmitPending()
      requires Valid()
      modifies this
      ensures Valid() && Continues(old(requests), requests)
      ensures TotalLeft(requests) == old(TotalLeft(requests))
      ensures NoneFree(slots) || NonePending(requests)
    {
      var free: seq<nat> := FreeSlots();
      while free != []
        invariant Valid() && Continues(old(requests), requests)
        invariant TotalLeft(requests) == old(TotalLeft(requests))
        invariant ListsFree(slots, free)
        decreases PendingCount(requests)
      {
        var indices := NextAdmissions(|free|);
        if indices == [] {
          break;
        }
        AdmitAll(indices, free);
        free := FreeSlots();
      }
    }

    method AdmitAll(indices: seq<nat>, free: seq<nat>)
      requires Valid() && Ascending(indices) && Ascending(free) && 0 < |indices| <= |free|
      requires StillPending(requests, indices, 0) && StillFree(slots, free, 0)
      modifies this
      ensures Valid() && Continues(old(requests), requests)
      ensures TotalLeft(requests) == old(TotalLeft(requests))
      ensures PendingCount(requests) < old(PendingCount(requests))
    {
      ghost var start := requests;
      for k := 0 to |indices|
        invariant Valid() == true && Continues(start, requests) == true
        invariant TotalLeft(requests) == TotalLeft(start) && PendingCount(requests) + k == PendingCount(start)
        invariant StillPending(requests, indices, k) && StillFree(slots, free, k)
      {
        AdmitNext(indices, free, k, start);
      }
    }

    method AdmitNext(indices: seq<nat>, free: seq<nat>, k: nat, ghost start: seq<Request>)
      requires Valid() == true && Ascending(indices) && Ascending(free) && k < |indices| <= |free|
      requires StillPending(requests, indices, k) && StillFree(slots, free, k) && Continues(start, requests)
      modifies this
      ensures Valid() == true && Continues(start, requests) == true
      ensures TotalLeft(requests) == old(TotalLeft(requests)) && PendingCount(requests) + 1 == old(PendingCount(requests))
      ensures StillPending(requests, indices, k + 1) && StillFree(slots, free, k + 1)
    {
      ghost var before, owned := requests, slots;
      PendingUpdate(requests, indices[k], requests[indices[k]].(state := Decoding(free[k])));
      Admit(indices[k], free[k]);
      StillPendingAfter(before, requests, indices, k);
      StillFreeAfter(owned, slots, free, k);
      ContinuesFurther(start, before, requests);
    }

    // ----- one step -----------------------------------------------------------------------------------------

    /** The next token of every occupied slot. When all its owners are greedy, one batched argmax does it. */
    method SelectTokens() returns (selected: seq<(int, int)>)
      requires Valid()
      ensures Chosen(engine, requests, slots, selected, 0)
    {
      var allGreedy := forall s :: 0 <= s < maxSlots && !slots[s].Free() ==> requests[slots[s].owner].config.Greedy();
      selected := [];
      for s := 0 to maxSlots
        invariant |selected| == s
        invariant forall t :: 0 <= t < s && !slots[t].Free() ==> ChosenFor(engine, requests, slots[t], selected[t])
      {
        var choice := SelectSlot(s, allGreedy);
        selected := selected + [choice];
      }
    }

    method SelectSlot(s: nat, allGreedy: bool) returns (choice: (int, int))
      requires Valid() && s < maxSlots
      requires allGreedy && !slots[s].Free() ==> slots[s].owner < |requests| && requests[slots[s].owner].config.Greedy()
      ensures !slots[s].Free() ==> ChosenFor(engine, requests, slots[s], choice)
    {
      assert SlotOk(engine.net, requests, s, slots[s], -1);
      choice := (-1, 0);
      if allGreedy {
        var token := FirstMaximum(slots[s].logits);
        choice := (token, if slots[s].Free() then 0 else requests[slots[s].owner].rng);
      } else if !slots[s].Free() {
        var request := requests[slots[s].owner];
        assert OnTrack(engine, capacity, request);
        var _, token, rng := SampleToken(engine, request.config, slots[s].logits, request.rng);
        choice := (token, rng);
      }
    }

    /** Hands the chosen token to the owner of a slot; a finished request gives its slot back. */
    method Accept(s: nat, token: int, rng: int, lags: seq<int>) returns (next: seq<int>)
      requires |slots| == maxSlots && Mixed(engine, capacity, requests, slots, lags)
      requires s < maxSlots && !slots[s].Free() && lags[s] < 0 && token >= 0
      requires slots[s].owner < |requests| && requests[slots[s].owner].Text() != []
      requires (token, rng) == NextChoice(engine, requests[slots[s].owner])
      modifies this
      ensures |slots| == maxSlots && Mixed(engine, capacity, requests, slots, next)
      ensures Continues(old(requests), requests)
      ensures TotalLeft(requests) < old(TotalLeft(requests))
      ensures requests == old(requests)[old(slots)[s].owner := requests[old(slots)[s].owner]]
      ensures slots == old(slots)[s := slots[s]] && next == lags[s := next[s]]
    {
      var i := slots[s].owner;
      AcceptKeeps(engine, capacity, requests, slots, lags, s, token, rng);
      var request := Advance(requests[i], token, rng);
      var slot := slots[s];
      if request.state.Completed? {
        slot := Slot(-1, EmptyRow(|engine.net.blocks|), 0, slot.logits);
        next := lags[s := -1];
      } else {
        next := lags[s := token];
      }
      requests, slots := requests[i := request], slots[s := slot];
    }

    /** Brings the survivors up to date: one cached forward pass per surviving row. */
    method FeedSurvivors(lags: seq<int>)
      requires |slots| == maxSlots > 0 && capacity <= engine.net.contextLimit
      requires Mixed(engine, capacity, requests, slots, lags)
      modifies this`slots
      ensures Valid()
    {
      ghost var behind := lags;
      for s := 0 to maxSlots
        invariant |slots| == maxSlots && Mixed(engine, capacity, requests, slots, behind)
        invariant forall t :: 0 <= t < s ==> behind[t] < 0
        invariant forall t :: s <= t < maxSlots ==> behind[t] == lags[t]
      {
        if lags[s] >= 0 {
          var slot := slots[s];
          assert SlotOk(engine.net, requests, s, slot, lags[s]);
          ghost var before :| requests[slot.owner].Text() == before + [lags[s]] && Covers(engine.net, before, slot);
          var row, logits := ForwardCachedRow(engine.net, slot.row, slot.position, lags[s], before);
          slot := slot.(row := row, position := slot.position + 1, logits := logits);
          ReplaceSlot(engine, capacity, requests, slots, behind, s, slot, -1);
          behind := behind[s := -1];
          slots := slots[s := slot];
        }
      }
      UpToDate(engine, capacity, requests, slots, behind);
    }

    /** One scheduler step. Every request stays on the way to its isolated result, and work gets done whenever
        there is some. */
    method Step()
      requires Valid()
      modifies this
      ensures Valid() && Continues(old(requests), requests)
      ensures AllIdle(old(requests)) ==> requests == old(requests) && slots == old(slots)
      ensures !AllIdle(old(requests)) ==> TotalLeft(requests) < old(TotalLeft(requests))
    {
      var idle := forall i :: 0 <= i < |requests| ==> !requests[i].Active();
      if idle {
        return;
      }
      NothingLeft(engine, capacity, requests);
      AdmitPending();
      NothingLeft(engine, capacity, requests);
      ghost var admitted := requests;
      ServeOccupied();
      ContinuesFurther(old(requests), admitted, requests);
    }

    /** Chooses a token for every occupied slot, hands it out and brings the survivors up to date. */
    method ServeOccupied()
      requires Valid() && !AllIdle(requests) && (NoneFree(slots) || NonePending(requests))
      modifies this
      ensures Valid() && Continues(old(requests), requests)
      ensures TotalLeft(requests) < old(TotalLeft(requests))
    {
      var selected := SelectTokens();
      ghost var busy := SomeoneWorks(engine, capacity, requests, slots);
      NobodyAccepted(engine, capacity, requests, slots, selected);
      var lags := AcceptAll(selected, busy);
      FeedSurvivors(lags);
    }

    /** Repeats steps until no request is active, or `maximum` steps have been made (no limit if it is -1). */
    method RunUntilIdle(maximum: int) returns (ok: bool)
      requires Valid()
      modifies this
      ensures Valid() && Continues(old(requests), requests)
      ensures ok == (maximum >= -1 && AllIdle(requests))
      ensures maximum == -1 || maximum >= old(TotalLeft(requests)) ==> ok
    {
      if maximum < -1 {
        return false;
      }
      var executed := 0;
      var idle := forall i :: 0 <= i < |requests| ==> !requests[i].Active();
      while !idle && (maximum < 0 || executed < maximum)
        invariant Valid() && Continues(old(requests), requests)
        invariant idle == AllIdle(requests)
        invariant executed >= 0 && TotalLeft(requests) + executed <= old(TotalLeft(requests))
        decreases TotalLeft(requests)
      {
        ghost var before := requests;
        Step();
        ContinuesFurther(old(requests), before, requests);
        executed := executed + 1;
        idle := forall i :: 0 <= i < |requests| ==> !requests[i].Active();
      }
      NothingLeft(engine, capacity, requests);
      ok := idle;
    }

    /** Cancels a request that is still active; all others keep what they have. */
    method Cancel(id: nat) returns (cancelled: bool)
      requires Valid() && 0 < id <= |requests|
      modifies this
      ensures Valid() && |requests| == old(|requests|)
      ensures cancelled == old(requests)[id - 1].Active()
      ensures requests == if cancelled then old(requests)[id - 1 := old(requests)[id - 1].(state := Cancelled)] else old(requests)
    {
      var i := id - 1;
      var request := requests[i];
      if !request.Active() {
        return false;
      }
      assert OnTrack(engine, capacity, request) && Placed(slots, i, request);
      PrefixOfIsolated(engine, capacity, request);
      if request.state.Decoding? {
        var s := request.state.slot;
        var slot := Slot(-1, EmptyRow(|engine.net.blocks|), 0, slots[s].logits);
        assert SlotOk(engine.net, requests, s, slots[s], -1);
        ReplaceBoth(engine, capacity, requests, slots, NoLag(|slots|), i, request.(state := Cancelled), s, slot, -1);
        assert NoLag(|slots|)[s := -1] == NoLag(|slots|);
        slots := slots[s := slot];
      } else {
        ReplacePending(engine, capacity, requests, slots, i, request.(state := Cancelled));
      }
      requests := requests[i := request.(state := Cancelled)];
      cancelled := true;
    }

    /** What a completed request has generated is what it would have generated alone, whatever shared the
        slots with it; a cancelled request has a prefix of that. */
    lemma ServedAsIfAlone(i: nat)
      requires Valid() && i < |requests|
      ensures requests[i].prompt != []
      ensures requests[i].state.Completed? ==>
        requests[i].generated == Isolated(engine, requests[i].prompt, requests[i].config)
      ensures requests[i].generated <= Isolated(engine, requests[i].prompt, requests[i].config)
    {
      assert OnTrack(engine, capacity, requests[i]);
      if requests[i].Active() {
        PrefixOfIsolated(engine, capacity, requests[i]);
      }
    }

    method AcceptAll(selected: seq<(int, int)>, ghost busy: nat) returns (lags: seq<int>)
      requires |slots| == maxSlots && busy < maxSlots && !slots[busy].Free()
      requires AcceptedUpTo(engine, capacity, requests, slots, requests, slots, NoLag(maxSlots), selected, 0) == true
      modifies this
      ensures AcceptedUpTo(engine, capacity, old(requests), old(slots), requests, slots, lags, selected, maxSlots) == true
      ensures TotalLeft(requests) < old(TotalLeft(requests))
    {
      lags := NoLag(maxSlots);
      ghost var start, owned, before := requests, slots, TotalLeft(requests);
      for s := 0 to maxSlots
        // Compared as a whole: nothing inside it needs a look here.
        invariant AcceptedUpTo(engine, capacity, start, owned, requests, slots, lags, selected, s) == true
        invariant TotalLeft(requests) <= before && (s > busy ==> TotalLeft(requests) < before)
      {
        ghost var left := TotalLeft(requests);
        lags := AcceptSlot(s, selected, lags, start, owned);
        assert s == busy ==> TotalLeft(requests) < left;
      }
    }

    method AcceptSlot(s: nat, selected: seq<(int, int)>, lags: seq<int>, ghost start: seq<Request>, ghost owned: seq<Slot>)
      returns (next: seq<int>)
      requires |owned| == maxSlots && s < maxSlots
      requires AcceptedUpTo(engine, capacity, start, owned, requests, slots, lags, selected, s) == true
      modifies this
      ensures AcceptedUpTo(engine, capacity, start, owned, requests, slots, next, selected, s + 1) == true
      ensures TotalLeft(requests) <= old(TotalLeft(requests))
      ensures !owned[s].Free() ==> TotalLeft(requests) < old(TotalLeft(requests))
    {
      next := lags;
      if !slots[s].Free() {
        next := AcceptOwned(s, selected, lags, start, owned);
      }
    }

    method AcceptOwned(s: nat, selected: seq<(int, int)>, lags: seq<int>, ghost start: seq<Request>, ghost owned: seq<Slot>)
      returns (next: seq<int>)
      requires |owned| == maxSlots && s < maxSlots && s < |slots| && !slots[s].Free()
      requires AcceptedUpTo(engine, capacity, start, owned, requests, slots, lags, selected, s) == true
      modifies this
      ensures AcceptedUpTo(engine, capacity, start, owned, requests, slots, next, selected, s + 1) == true
      ensures TotalLeft(requests) < old(TotalLeft(requests))
    {
      ghost var before := requests;
      OwnerUnique(engine, capacity, requests, slots, lags, s);
      next := Accept(s, selected[s].0, selected[s].1, lags);
      ContinuesFurther(start, before, requests);
      ChosenStays(engine, before, old(slots), selected, s, owned[s].owner, requests[owned[s].owner], slots[s]);
    }
  }

  /** Slots before `s` have had their turn; the others are as they were. */
  ghost predicate AcceptedUpTo(engine: Engine, capacity: nat, start: seq<Request>, owned: seq<Slot>, requests: seq<Request>,
                               slots: seq<Slot>, lags: seq<int>, selected: seq<(int, int)>, s: nat)
  {
    && |slots| == |owned| && Mixed(engine, capacity, requests, slots, lags)
    && (forall t :: s <= t < |slots| ==> lags[t] == -1 && slots[t] == owned[t])
    && Chosen(engine, requests, slots, selected, s)
    && Continues(start, requests)
  }

  /** The choice is the next one of the owner of the slot. */
  ghost predicate ChosenFor(engine: Engine, requests: seq<Request>, slot: Slot, choice: (int, int)) {
    && engine.Valid() && 0 <= slot.owner < |requests| && requests[slot.owner].Text() != []
    && choice == NextChoice(engine, requests[slot.owner])
    && choice.0 >= 0
  }

  ghost predicate Chosen(engine: Engine, requests: seq<Request>, slots: seq<Slot>, selected: seq<(int, int)>, from: nat) {
    && |selected| == |slots|
    && forall s :: from <= s < |slots| && !slots[s].Free() ==> ChosenFor(engine, requests, slots[s], selected[s])
  }

  predicate ListsFree(slots: seq<Slot>, free: seq<nat>) {
    && Ascending(free)
    && (forall k :: 0 <= k < |free| ==> free[k] < |slots| && slots[free[k]].Free())
    && (forall s :: 0 <= s < |slots| && slots[s].Free() ==> s in free)
  }

  predicate StillPending(requests: seq<Request>, indices: seq<nat>, k: nat) {
    forall j :: k <= j < |indices| ==> indices[j] < |requests| && requests[indices[j]].state.Pending?
  }

  predicate StillFree(slots: seq<Slot>, free: seq<nat>, k: nat) {
    forall j :: k <= j < |free| ==> free[j] < |slots| && slots[free[j]].Free()
  }

  lemma StillPendingAfter(before: seq<Request>, now: seq<Request>, indices: seq<nat>, k: nat)
    requires Ascending(indices) && k < |indices| && StillPending(before, indices, k) && |now| == |before|
    requires forall i :: 0 <= i < |before| && i != indices[k] ==> now[i] == before[i]
    ensures StillPending(now, indices, k + 1)
  {
  }

  lemma StillFreeAfter(before: seq<Slot>, now: seq<Slot>, free: seq<nat>, k: nat)
    requires Ascending(free) && k < |free| && StillFree(before, free, k) && |now| == |before|
    requires forall t :: 0 <= t < |before| && t != free[k] ==> now[t] == before[t]
    ensures StillFree(now, free, k + 1)
  {
  }

  predicate NoneFree(slots: seq<Slot>) {
    forall s :: 0 <= s < |slots| ==> !slots[s].Free()
  }

  predicate NonePending(requests: seq<Request>) {
    forall i :: 0 <= i < |requests| ==> !requests[i].state.Pending?
  }

  predicate Ascending(xs: seq<nat>) {
    forall j, k :: 0 <= j < k < |xs| ==> xs[j] < xs[k]
  }

  function PendingCount(requests: seq<Request>): nat {
    if requests == [] then 0
    else PendingCount(requests[..|requests| - 1]) + if requests[|requests| - 1].state.Pending? then 1 else 0
  }

  lemma {:induction false} PendingUpdate(requests: seq<Request>, i: nat, request: Request)
    requires i < |requests| && requests[i].state.Pending? && !request.state.Pending?
    ensures PendingCount(requests[i := request]) == PendingCount(requests) - 1
  {
    var n := |requests| - 1;
    if i == n {
      assert requests[i := request][..n] == requests[..n];
    } else {
      assert requests[i := request][..n] == requests[..n][i := request];
      PendingUpdate(requests[..n], i, request);
    }
  }

  /** The same requests, each at least as far as before. */
  predicate Continues(before: seq<Request>, now: seq<Request>) {
    && |now| == |before|
    && forall i :: 0 <= i < |before| ==>
      && now[i].prompt == before[i].prompt && now[i].config == before[i].config
      && before[i].generated <= now[i].generated
      && (before[i].state.Cancelled? ==> now[i] == before[i])
      && (now[i].state.Cancelled? ==> before[i].state.Cancelled?)
  }

  /** A new request; one that asks for nothing is complete at once. */
  function Fresh(prompt: seq<int>, config: Config): Request {
    Request(prompt, config, [], config.seed, if config.maxNewTokens == 0 then Completed else Pending)
  }

  lemma FreshOnTrack(engine: Engine, capacity: nat, prompt: seq<int>, config: Config)
    requires engine.Valid() && Acceptable(engine.net, prompt, config) && |prompt| + config.maxNewTokens <= capacity
    ensures OnTrack(engine, capacity, Fresh(prompt, config))
  {
  }

  lemma AppendRequest(engine: Engine, capacity: nat, requests: seq<Request>, slots: seq<Slot>, request: Request)
    requires Consistent(engine, capacity, requests, slots)
    requires OnTrack(engine, capacity, request) && !request.state.Decoding?
    ensures Consistent(engine, capacity, requests + [request], slots)
    ensures TotalLeft(requests + [request]) == TotalLeft(requests) + Left(request)
  {
    forall s | 0 <= s < |slots| ensures SlotServes(engine.net, requests + [request], s, slots[s]) {
      assert SlotOk(engine.net, requests, s, slots[s], -1);
    }
    assert (requests + [request])[..|requests|] == requests;
  }

  /** If nothing lags the table is consistent. */
  lemma UpToDate(engine: Engine, capacity: nat, requests: seq<Request>, slots: seq<Slot>, lags: seq<int>)
    requires Mixed(engine, capacity, requests, slots, lags) && forall s :: 0 <= s < |lags| ==> lags[s] < 0
    ensures Consistent(engine, capacity, requests, slots)
  {
    forall s | 0 <= s < |slots| ensures SlotOk(engine.net, requests, s, slots[s], NoLag(|slots|)[s]) {
      assert SlotOk(engine.net, requests, s, slots[s], lags[s]);
    }
  }

  lemma ContinuesFurther(a: seq<Request>, b: seq<Request>, c: seq<Request>)
    requires Continues(a, b) && Continues(b, c)
    ensures Continues(a, c)
  {
  }

  /** When there is work, some slot is occupied after admission. */
  lemma SomeoneWorks(engine: Engine, capacity: nat, requests: seq<Request>, slots: seq<Slot>) returns (s: nat)
    requires Consistent(engine, capacity, requests, slots) && |slots| > 0
    requires !AllIdle(requests) && (NoneFree(slots) || NonePending(requests))
    ensures s < |slots| && !slots[s].Free()
  {
    if NoneFree(slots) {
      s := 0;
    } else {
      var i :| 0 <= i < |requests| && requests[i].Active();
      assert Placed(slots, i, requests[i]);
      s := requests[i].state.slot;
    }
  }

  /** No two slots serve the same request. */
  lemma OwnerUnique(engine: Engine, capacity: nat, requests: seq<Request>, slots: seq<Slot>, lags: seq<int>, s: nat)
    requires Mixed(engine, capacity, requests, slots, lags) && s < |slots| && !slots[s].Free()
    ensures slots[s].owner < |requests|
    ensures forall t :: 0 <= t < |slots| && t != s && !slots[t].Free() ==> slots[t].owner != slots[s].owner
  {
    assert SlotOk(engine.net, requests, s, slots[s], lags[s]);
    forall t | 0 <= t < |slots| && t != s && !slots[t].Free() ensures slots[t].owner != slots[s].owner {
      assert SlotOk(engine.net, requests, t, slots[t], lags[t]);
    }
  }

  lemma OwnerFacts(engine: Engine, capacity: nat, requests: seq<Request>, slots: seq<Slot>, lags: seq<int>, s: nat)
    requires Mixed(engine, capacity, requests, slots, lags) && s < |slots| && !slots[s].Free() && lags[s] < 0
    ensures slots[s].owner < |requests| && OnTrack(engine, capacity, requests[slots[s].owner])
    ensures requests[slots[s].owner].state == Decoding(s) && Covers(engine.net, requests[slots[s].owner].Text(), slots[s])
    ensures |slots[s].logits| == engine.net.vocabulary
  {
    assert SlotOk(engine.net, requests, s, slots[s], lags[s]);
  }

  /** The slot of an owner that goes on lags by the token it was given. */
  lemma OwnerLags(net: Model, requests: seq<Request>, s: nat, slot: Slot, token: int, rng: int)
    requires 0 <= slot.owner < |requests| && requests[slot.owner].state == Decoding(s) && requests[slot.owner].prompt != []
    requires Covers(net, requests[slot.owner].Text(), slot) && |slot.logits| == net.vocabulary
    requires Advance(requests[slot.owner], token, rng).state == Decoding(s)
    ensures SlotLags(net, requests[slot.owner := Advance(requests[slot.owner], token, rng)], s, slot, token)
  {
    var before := requests[slot.owner].Text();
    assert Advance(requests[slot.owner], token, rng).Text() == before + [token];
  }

  lemma OneContinues(requests: seq<Request>, i: nat, request: Request)
    requires i < |requests| && requests[i].state.Decoding? && !request.state.Cancelled?
    requires request.prompt == requests[i].prompt && request.config == requests[i].config
    requires requests[i].generated <= request.generated
    ensures Continues(requests, requests[i := request])
  {
  }

  /** Handing a token to the owner of slot `s` leaves a consistent table: the owner is done and the slot
      released, or the slot lags by the token. */
  lemma AcceptKeeps(engine: Engine, capacity: nat, requests: seq<Request>, slots: seq<Slot>, lags: seq<int>,
                    s: nat, token: int, rng: int)
    requires Mixed(engine, capacity, requests, slots, lags)
    requires s < |slots| && !slots[s].Free() && lags[s] < 0 && token >= 0
    requires slots[s].owner < |requests| && requests[slots[s].owner].Text() != []
    requires (token, rng) == NextChoice(engine, requests[slots[s].owner])
    ensures var i := slots[s].owner;
      var request := Advance(requests[i], token, rng);
      && TotalLeft(requests[i := request]) < TotalLeft(requests)
      && Continues(requests, requests[i := request])
      && if request.state.Completed?
         then Mixed(engine, capacity, requests[i := request],
                    slots[s := Slot(-1, EmptyRow(|engine.net.blocks|), 0, slots[s].logits)], lags[s := -1])
         else Mixed(engine, capacity, requests[i := request], slots[s := slots[s]], lags[s := token])
  {
    var slot := slots[s];
    var i := slot.owner;
    OwnerFacts(engine, capacity, requests, slots, lags, s);
    var request := Advance(requests[i], token, rng);
    AdvanceOnTrack(engine, capacity, requests[i], token, rng);
    TotalLeftUpdate(requests, i, request);
    OneContinues(requests, i, request);
    if request.state.Completed? {
      ReplaceBoth(engine, capacity, requests, slots, lags, i, request, s,
                  Slot(-1, EmptyRow(|engine.net.blocks|), 0, slot.logits), -1);
    } else {
      OwnerLags(engine.net, requests, s, slot, token, rng);
      ReplaceBoth(engine, capacity, requests, slots, lags, i, request, s, slot, token);
    }
  }

  lemma ChosenStays(engine: Engine, requests: seq<Request>, slots: seq<Slot>, selected: seq<(int, int)>, s: nat,
                    i: int, request: Request, slot: Slot)
    requires Chosen(engine, requests, slots, selected, s) && s < |slots| && 0 <= i < |requests|
    requires forall t :: 0 <= t < |slots| && t != s && !slots[t].Free() ==> slots[t].owner != i
    ensures Chosen(engine, requests[i := request], slots[s := slot], selected, s + 1)
  {
  }

  lemma ReplacePending(engine: Engine, capacity: nat, requests: seq<Request>, slots: seq<Slot>, i: nat, request: Request)
    requires Consistent(engine, capacity, requests, slots)
    requires i < |requests| && requests[i].state.Pending? && !request.state.Decoding? && OnTrack(engine, capacity, request)
    ensures Consistent(engine, capacity, requests[i := request], slots)
  {
    forall s | 0 <= s < |slots| ensures SlotOk(engine.net, requests[i := request], s, slots[s], NoLag(|slots|)[s]) {
      assert SlotOk(engine.net, requests, s, slots[s], NoLag(|slots|)[s]);
    }
  }

  lemma NobodyAccepted(engine: Engine, capacity: nat, requests: seq<Request>, slots: seq<Slot>, selected: seq<(int, int)>)
    requires Consistent(engine, capacity, requests, slots) && Chosen(engine, requests, slots, selected, 0)
    ensures AcceptedUpTo(engine, capacity, requests, slots, requests, slots, NoLag(|slots|), selected, 0)
  {
  }
}
