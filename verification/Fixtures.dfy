/** Preparing and validating pinned model fixtures: sharded weight sets, their index, and the manifest. */
module Fixtures {
  import opened Basics

  /** One tensor of a weight file: its name and its number of elements. */
  datatype TensorInfo = TensorInfo(name: string, elements: nat)

  function Names(tensors: seq<TensorInfo>): set<string> {
    if tensors == [] then {} else Names(tensors[..|tensors| - 1]) + {tensors[|tensors| - 1].name}
  }

  lemma {:induction false} NameOf(tensors: seq<TensorInfo>, k: nat)
    requires k < |tensors|
    ensures tensors[k].name in Names(tensors)
  {
    if k < |tensors| - 1 {
      NameOf(tensors[..|tensors| - 1], k);
    }
  }

  predicate Unique(tensors: seq<TensorInfo>) {
    forall j, k :: 0 <= j < k < |tensors| ==> tensors[j].name != tensors[k].name
  }

  function Parameters(tensors: seq<TensorInfo>): nat {
    if tensors == [] then 0 else Parameters(tensors[..|tensors| - 1]) + tensors[|tensors| - 1].elements
  }

  lemma {:induction false} ParametersAppend(a: seq<TensorInfo>, b: seq<TensorInfo>)
    ensures Parameters(a + b) == Parameters(a) + Parameters(b)
    decreases |b|
  {
    if b == [] {
      assert a + b == a;
    } else {
      assert (a + b)[..|a + b| - 1] == a + b[..|b| - 1];
      ParametersAppend(a, b[..|b| - 1]);
    }
  }

  /** The readable weight files of a directory. */
  type Store = map<string, seq<TensorInfo>>

  predicate WellFormed(store: Store) {
    forall shard :: shard in store ==> Unique(store[shard])
  }

  /** The shards an index names, each once, in some order. */
  ghost predicate Lists(order: seq<string>, index: map<string, string>) {
    && (forall j, k :: 0 <= j < k < |order| ==> order[j] != order[k])
    && (forall s :: s in index.Values <==> s in order)
  }

  /** No tensor name occurs in two of the first `n` shards. */
  predicate Disjoint(store: Store, order: seq<string>, n: nat)
    requires n <= |order| && AllPresent(store, order)
  {
    forall j, k :: 0 <= j < k < n ==> Names(store[order[j]]) !! Names(store[order[k]])
  }

  predicate AllPresent(store: Store, order: seq<string>) {
    forall k :: 0 <= k < |order| ==> order[k] in store
  }

  /** All tensors of the first `n` shards. */
  function Union(store: Store, order: seq<string>, n: nat): seq<TensorInfo>
    requires n <= |order| && AllPresent(store, order)
  {
    if n == 0 then [] else Union(store, order, n - 1) + store[order[n - 1]]
  }

  /** The shard of every tensor of the first `n` shards. */
  function IndexOf(store: Store, order: seq<string>, n: nat): (index: map<string, string>)
    requires n <= |order| && AllPresent(store, order)
    ensures index.Keys == Names(Union(store, order, n))
  {
    if n == 0 then map[]
    else
      NamesAppend(Union(store, order, n - 1), store[order[n - 1]]);
      IndexOf(store, order, n - 1) + Placement(store[order[n - 1]], order[n - 1])
  }

  function Placement(tensors: seq<TensorInfo>, shard: string): (m: map<string, string>)
    ensures m.Keys == Names(tensors)
  {
    map n | n in Names(tensors) :: shard
  }

  /** Over disjoint shards that is the membership relation. */
  lemma {:induction false} IndexIsMembership(store: Store, order: seq<string>, n: nat, name: string, k: nat)
    requires n <= |order| && AllPresent(store, order) && Disjoint(store, order, n)
    requires k < n && (forall i, j :: 0 <= i < j < |order| ==> order[i] != order[j])
    ensures name in Names(store[order[k]]) <==> name in IndexOf(store, order, n) && IndexOf(store, order, n)[name] == order[k]
  {
    var last, before := store[order[n - 1]], IndexOf(store, order, n - 1);
    if k < n - 1 {
      IndexIsMembership(store, order, n - 1, name, k);
      assert Names(store[order[k]]) !! Names(last);
    } else if name in before && name !in Names(last) {
      var j := OnlyEarlier(store, order, n - 1, name);
      assert order[j] != order[n - 1];
    }
  }

  lemma {:induction false} OnlyEarlier(store: Store, order: seq<string>, n: nat, name: string) returns (j: nat)
    requires n <= |order| && AllPresent(store, order) && name in IndexOf(store, order, n)
    ensures j < n && IndexOf(store, order, n)[name] == order[j]
    decreases n
  {
    IndexStep(store, order, n, name);
    if name in Names(store[order[n - 1]]) {
      j := n - 1;
    } else {
      j := OnlyEarlier(store, order, n - 1, name);
    }
  }

  lemma IndexStep(store: Store, order: seq<string>, n: nat, name: string)
    requires 0 < n <= |order| && AllPresent(store, order) && name in IndexOf(store, order, n)
    ensures name in Names(store[order[n - 1]]) ==> IndexOf(store, order, n)[name] == order[n - 1]
    ensures name !in Names(store[order[n - 1]]) ==>
      name in IndexOf(store, order, n - 1) && IndexOf(store, order, n)[name] == IndexOf(store, order, n - 1)[name]
  {
  }

  lemma {:induction false} NamesAppend(a: seq<TensorInfo>, b: seq<TensorInfo>)
    ensures Names(a + b) == Names(a) + Names(b)
    decreases |b|
  {
    if b == [] {
      assert a + b == a;
    } else {
      assert (a + b)[..|a + b| - 1] == a + b[..|b| - 1];
      NamesAppend(a, b[..|b| - 1]);
    }
  }

  /** Sum of the parameters of the first `n` shards. */
  function ShardParameters(store: Store, order: seq<string>, n: nat): nat
    requires n <= |order| && AllPresent(store, order)
  {
    if n == 0 then 0 else ShardParameters(store, order, n - 1) + Parameters(store[order[n - 1]])
  }

  lemma {:induction false} CountIsSum(store: Store, order: seq<string>, n: nat)
    requires n <= |order| && AllPresent(store, order)
    ensures Parameters(Union(store, order, n)) == ShardParameters(store, order, n)
  {
    if n > 0 {
      CountIsSum(store, order, n - 1);
      ParametersAppend(Union(store, order, n - 1), store[order[n - 1]]);
    }
  }

  // ----- inspecting a sharded weight set ------------------------------------------------------------------------

  lemma PlacementStep(actual: map<string, string>, found: seq<TensorInfo>, k: nat, shard: string)
    requires k < |found|
    ensures (actual + Placement(found[..k], shard))[found[k].name := shard] == actual + Placement(found[..k + 1], shard)
    ensures Names(found[..k + 1]) == Names(found[..k]) + {found[k].name}
  {
    assert found[..k + 1][..k] == found[..k];
  }

  /** Adds the tensors of one shard, unless one of them is known already. */
  method AddShard(shard: string, found: seq<TensorInfo>, tensors: seq<TensorInfo>, actual: map<string, string>)
    returns (ok: bool, more: seq<TensorInfo>, longer: map<string, string>)
    requires Unique(found) && actual.Keys == Names(tensors)
    ensures ok <==> Names(found) !! Names(tensors)
    ensures ok ==> more == tensors + found && longer == actual + Placement(found, shard)
  {
    ok, more, longer := true, tensors, actual;
    for k := 0 to |found|
      invariant Names(found[..k]) !! Names(tensors)
      invariant more == tensors + found[..k]
      invariant longer == actual + Placement(found[..k], shard)
    {
      PlacementStep(actual, found, k, shard);
      if found[k].name in longer {
        FreshName(found, k);
        NameOf(found, k);
        return false, more, longer;
      }
      more := more + [found[k]];
      longer := longer[found[k].name := shard];
    }
    assert found[..|found|] == found;
  }

  lemma {:induction false} NameAt(tensors: seq<TensorInfo>, name: string) returns (k: nat)
    requires name in Names(tensors)
    ensures k < |tensors| && tensors[k].name == name
  {
    var n := |tensors| - 1;
    if tensors[n].name == name {
      k := n;
    } else {
      k := NameAt(tensors[..n], name);
    }
  }

  lemma FreshName(found: seq<TensorInfo>, k: nat)
    requires Unique(found) && k < |found|
    ensures found[k].name !in Names(found[..k])
  {
    if found[k].name in Names(found[..k]) {
      var j := NameAt(found[..k], found[k].name);
    }
  }

  lemma {:induction false} OverlapShows(store: Store, order: seq<string>, n: nat)
    requires n < |order| && AllPresent(store, order) && Disjoint(store, order, n)
    ensures Disjoint(store, order, n + 1) <==> Names(store[order[n]]) !! Names(Union(store, order, n))
  {
    var last, earlier := Names(store[order[n]]), Names(Union(store, order, n));
    if last !! earlier {
      forall j | 0 <= j < n ensures Names(store[order[j]]) !! last {
        NamesInUnion(store, order, n, j);
      }
    } else {
      var name :| name in last && name in earlier;
      UnionNames(store, order, n, name);
      var k :| 0 <= k < n && name in Names(store[order[k]]);
      assert !(Names(store[order[k]]) !! last);
    }
  }

  lemma NamesInUnion(store: Store, order: seq<string>, n: nat, k: nat)
    requires k < n <= |order| && AllPresent(store, order)
    ensures Names(store[order[k]]) <= Names(Union(store, order, n))
  {
    forall name | name in Names(store[order[k]]) ensures name in Names(Union(store, order, n)) {
      UnionNames(store, order, n, name);
    }
  }

  lemma {:induction false} UnionNames(store: Store, order: seq<string>, n: nat, name: string)
    requires n <= |order| && AllPresent(store, order)
    ensures name in Names(Union(store, order, n)) <==> exists k :: 0 <= k < n && name in Names(store[order[k]])
  {
    if n > 0 {
      UnionNames(store, order, n - 1, name);
      NamesAppend(Union(store, order, n - 1), store[order[n - 1]]);
    }
  }

  lemma {:induction false} DisjointPrefix(store: Store, order: seq<string>, n: nat)
    requires n <= |order| && AllPresent(store, order) && !Disjoint(store, order, n)
    ensures !Disjoint(store, order, |order|)
  {
  }

  /** Inspects a sharded weight set. It is accepted exactly when every shard the index names is there, no
      tensor occurs in two of them, and the index is the map from tensors to shards; its parameter count is
      then the sum over the shards. */
  method InspectWeightSet(store: Store, index: map<string, string>, order: seq<string>) returns (r: Option<seq<TensorInfo>>)
    requires WellFormed(store) && Lists(order, index)
    ensures r.Some? <==>
      && index != map[] && AllPresent(store, order) && Disjoint(store, order, |order|)
      && index == IndexOf(store, order, |order|)
    ensures r.Some? ==> r.value == Union(store, order, |order|) && Parameters(r.value) == ShardParameters(store, order, |order|)
  {
    if index == map[] {
      return None;
    }
    var present := CheckPresent(store, order);
    if !present {
      return None;
    }
    var disjoint, tensors, actual := Combine(store, order);
    if !disjoint {
      return None;
    }
    CountIsSum(store, order, |order|);
    SameMaps(index, actual);
    if index.Keys != actual.Keys || exists n :: n in index && index[n] != actual[n] {
      return None;
    }
    return Some(tensors);
  }

  /** Collects the shards one after the other, until a tensor occurs twice. */
  method Combine(store: Store, order: seq<string>) returns (ok: bool, tensors: seq<TensorInfo>, actual: map<string, string>)
    requires WellFormed(store) && AllPresent(store, order)
    ensures ok == Disjoint(store, order, |order|)
    ensures ok ==> tensors == Union(store, order, |order|) && actual == IndexOf(store, order, |order|)
  {
    ok, tensors, actual := true, [], map[];
    for n := 0 to |order|
      invariant ok && Disjoint(store, order, n)
      invariant tensors == Union(store, order, n) && actual == IndexOf(store, order, n)
    {
      OverlapShows(store, order, n);
      assert Unique(store[order[n]]);
      ok, tensors, actual := AddShard(order[n], store[order[n]], tensors, actual);
      if !ok {
        DisjointPrefix(store, order, n + 1);
        return;
      }
    }
  }

  lemma SameMaps(a: map<string, string>, b: map<string, string>)
    ensures a == b <==> a.Keys == b.Keys && forall n :: n in a && n in b ==> a[n] == b[n]
  {
    if a.Keys == b.Keys && forall n :: n in a && n in b ==> a[n] == b[n] {
      assert forall n :: n in a <==> n in a.Keys;
    }
  }

  method CheckPresent(store: Store, order: seq<string>) returns (ok: bool)
    ensures ok == AllPresent(store, order)
  {
    for k := 0 to |order|
      invariant forall j :: 0 <= j < k ==> order[j] in store
    {
      if order[k] !in store {
        return false;
      }
    }
    ok := true;
  }

  // ----- the manifest -----------------------------------------------------------------------------------------------

  datatype Path = Path(directory: string, name: string)

  /** The map of a weight index from tensors to shards, and the shards it names in the order they are read. */
  datatype Index = Index(shards: map<string, string>, order: seq<string>)

  /** What the tool sees of the disk: which files exist, where a path leads after following links, and, behind the
      links, what the readable weight files and weight indices contain. */
  datatype Disk = Disk(files: set<Path>, tensors: map<Path, seq<TensorInfo>>, indices: map<Path, Index>,
                       resolve: Path -> Path)

  ghost predicate Readable(disk: Disk) {
    && (forall p :: p in disk.tensors ==> disk.tensors[p] != [] && Unique(disk.tensors[p]))
    && (forall p :: p in disk.indices ==> Lists(disk.indices[p].order, disk.indices[p].shards))
  }

  function ReadTensors(disk: Disk, p: Path): Option<seq<TensorInfo>> {
    if p in disk.files && disk.resolve(p) in disk.tensors then Some(disk.tensors[disk.resolve(p)]) else None
  }

  /** The shards of a directory that can be read. */
  function ShardsOf(disk: Disk, directory: string, order: seq<string>): (store: Store)
    ensures Readable(disk) ==> WellFormed(store)
  {
    map shard | shard in order && ReadTensors(disk, Path(directory, shard)).Some?
      :: ReadTensors(disk, Path(directory, shard)).value
  }

  /** The tensors of a sharded weight set, if index and shards agree. */
  function ShardedSet(store: Store, index: Index): Option<seq<TensorInfo>> {
    if index.shards != map[] && AllPresent(store, index.order) && Disjoint(store, index.order, |index.order|)
      && index.shards == IndexOf(store, index.order, |index.order|)
    then Some(Union(store, index.order, |index.order|)) else None
  }

  /** The weight set of a directory: one file, or an index with its shards. */
  function WeightsOf(disk: Disk, directory: string): Option<seq<TensorInfo>> {
    var single, index := Path(directory, "model.safetensors"), Path(directory, "model.safetensors.index.json");
    if single in disk.files then ReadTensors(disk, single)
    else if index !in disk.files || disk.resolve(index) !in disk.indices then None
    else
      var i := disk.indices[disk.resolve(index)];
      ShardedSet(ShardsOf(disk, directory, i.order), i)
  }

  method InspectDirectory(disk: Disk, directory: string) returns (r: Option<seq<TensorInfo>>)
    requires Readable(disk)
    ensures r == WeightsOf(disk, directory)
  {
    var single, index := Path(directory, "model.safetensors"), Path(directory, "model.safetensors.index.json");
    if single in disk.files {
      return ReadTensors(disk, single);
    }
    if index !in disk.files || disk.resolve(index) !in disk.indices {
      return None;
    }
    var i := disk.indices[disk.resolve(index)];
    r := InspectWeightSet(ShardsOf(disk, directory, i.order), i.shards, i.order);
  }

  datatype Row = Row(id: string, revision: string, license: string, family: string,
                     stored: nat, runtime: nat, tensors: nat)

  datatype Manifest = Manifest(
    name: string, revision: string, license: string, family: string,
    parameters: nat, runtime: nat, stored: nat, loaded: nat,
    config: Path, weights: Path, vocab: Path, merges: Path)

  /** Rows are found under their own name, and never promise more parameters at run time than are stored. */
  predicate ValidRegistry(registry: map<string, Row>) {
    registry != map[] && forall id :: id in registry ==>
      registry[id].id == id && 0 < registry[id].runtime <= registry[id].stored
  }

  /** The entry of one model: everything is looked up again from the two directories. */
  function PrepareOne(disk: Disk, row: Row, model: string, tokenizer: string): Option<Manifest> {
    var config, vocab, merges := Path(model, "config.json"), Path(tokenizer, "vocab.json"), Path(tokenizer, "merges.txt");
    if config !in disk.files || vocab !in disk.files || merges !in disk.files then None
    else Entry(disk, row, model, config, vocab, merges, WeightsOf(disk, model))
  }

  function Entry(disk: Disk, row: Row, model: string, config: Path, vocab: Path, merges: Path,
                 weights: Option<seq<TensorInfo>>): Option<Manifest>
  {
    match weights
    case None => None
    case Some(tensors) =>
      if Parameters(tensors) != row.stored || |tensors| != row.tensors then None
      else Some(Manifest(row.id, row.revision, row.license, row.family,
                         row.runtime, row.runtime, Parameters(tensors), |tensors|,
                         disk.resolve(config), disk.resolve(WeightEntry(disk, model)), disk.resolve(vocab), disk.resolve(merges)))
  }

  method PrepareModel(disk: Disk, row: Row, model: string, tokenizer: string) returns (r: Option<Manifest>)
    requires Readable(disk)
    ensures r == PrepareOne(disk, row, model, tokenizer)
  {
    var config, vocab, merges := Path(model, "config.json"), Path(tokenizer, "vocab.json"), Path(tokenizer, "merges.txt");
    if config !in disk.files || vocab !in disk.files || merges !in disk.files {
      return None;
    }
    var weights := InspectDirectory(disk, model);
    r := Entry(disk, row, model, config, vocab, merges, weights);
  }

  function WeightEntry(disk: Disk, model: string): Path {
    if Path(model, "model.safetensors") in disk.files then Path(model, "model.safetensors")
    else Path(model, "model.safetensors.index.json")
  }

  function EntryOf(disk: Disk, registry: map<string, Row>, roots: map<string, (string, string)>,
                   id: string): Option<Manifest>
    requires id in registry
  {
    if id !in roots then None else PrepareOne(disk, registry[id], roots[id].0, roots[id].1)
  }

  predicate AllKnown(registry: map<string, Row>, ids: seq<string>) {
    && (forall k :: 0 <= k < |ids| ==> ids[k] in registry)
    && (forall j, k :: 0 <= j < k < |ids| ==> ids[j] != ids[k])
  }

  method Prepare(disk: Disk, registry: map<string, Row>, roots: map<string, (string, string)>, selected: seq<string>)
    returns (r: Option<seq<Manifest>>)
    requires Readable(disk)
    ensures r.Some? <==>
      AllKnown(registry, selected) && forall k :: 0 <= k < |selected| ==> EntryOf(disk, registry, roots, selected[k]).Some?
    ensures r.Some? ==>
      |r.value| == |selected| && forall k :: 0 <= k < |selected| ==>
        Some(r.value[k]) == EntryOf(disk, registry, roots, selected[k])
  {
    if !AllKnown(registry, selected) {
      return None;
    }
    var models: seq<Manifest> := [];
    for k := 0 to |selected|
      invariant |models| == k
      invariant forall j :: 0 <= j < k ==> EntryOf(disk, registry, roots, selected[j]) == Some(models[j])
    {
      var id, entry := selected[k], None;
      if id in roots {
        entry := PrepareModel(disk, registry[id], roots[id].0, roots[id].1);
      }
      if entry.None? {
        return None;
      }
      models := models + [entry.value];
    }
    return Some(models);
  }

  /** The entry equals one prepared afresh from the directories of its configuration and vocabulary. */
  predicate Current(disk: Disk, registry: map<string, Row>, model: Manifest) {
    && model.name in registry
    && PrepareOne(disk, registry[model.name],
                  disk.resolve(model.config).directory, disk.resolve(model.vocab).directory) == Some(model)
  }

  method CheckCurrent(disk: Disk, registry: map<string, Row>, model: Manifest) returns (current: bool)
    requires Readable(disk)
    ensures current == Current(disk, registry, model)
  {
    if model.name !in registry {
      return false;
    }
    var again := PrepareModel(disk, registry[model.name], disk.resolve(model.config).directory,
                              disk.resolve(model.vocab).directory);
    current := again == Some(model);
  }

  method Validate(disk: Disk, registry: map<string, Row>, models: seq<Manifest>) returns (ok: bool)
    requires ValidRegistry(registry) && Readable(disk)
    ensures ok <==> UniqueNames(models, |models|) && forall k :: 0 <= k < |models| ==> Current(disk, registry, models[k])
  {
    var seen: set<string> := {};
    for k := 0 to |models|
      invariant seen == NamesBefore(models, k) && UniqueNames(models, k)
      invariant forall j :: 0 <= j < k ==> Current(disk, registry, models[j])
    {
      UniqueStep(models, k);
      var current := CheckCurrent(disk, registry, models[k]);
      if models[k].name in seen || !current {
        return false;
      }
      seen := seen + {models[k].name};
    }
    ok := true;
  }

  /** No two of the first `n` models have the same name. */
  predicate UniqueNames(models: seq<Manifest>, n: nat)
    requires n <= |models|
  {
    forall j, k :: 0 <= j < k < n ==> models[j].name != models[k].name
  }

  lemma UniqueStep(models: seq<Manifest>, n: nat)
    requires n < |models| && UniqueNames(models, n)
    ensures UniqueNames(models, n + 1) <==> models[n].name !in NamesBefore(models, n)
    ensures models[n].name in NamesBefore(models, n) ==> !UniqueNames(models, |models|)
  {
    SeenBefore(models, n, models[n].name);
  }

  function NamesBefore(models: seq<Manifest>, n: nat): set<string>
    requires n <= |models|
  {
    if n == 0 then {} else NamesBefore(models, n - 1) + {models[n - 1].name}
  }

  lemma {:induction false} SeenBefore(models: seq<Manifest>, n: nat, name: string)
    requires n <= |models|
    ensures name in NamesBefore(models, n) <==> exists j :: 0 <= j < n && models[j].name == name
  {
    if n > 0 {
      SeenBefore(models, n - 1, name);
    }
  }

  // ----- when a prepared manifest validates -----------------------------------------------------------------

  /** Following links twice leads no further than following them once. */
  ghost predicate Settled(disk: Disk) {
    forall p :: disk.resolve(disk.resolve(p)) == disk.resolve(p)
  }

  /** The file is found under the same name in the other directory, and is the same file. */
  predicate SameFile(disk: Disk, there: Path, here: Path) {
    there in disk.files && disk.resolve(there) == disk.resolve(here)
  }

  /** The weight set of the other directory is entered by the same file and has the same counts. */
  predicate SameWeights(disk: Disk, there: string, here: string) {
    && WeightsOf(disk, there).Some? && WeightsOf(disk, here).Some?
    && Parameters(WeightsOf(disk, there).value) == Parameters(WeightsOf(disk, here).value)
    && |WeightsOf(disk, there).value| == |WeightsOf(disk, here).value|
    && disk.resolve(WeightEntry(disk, there)) == disk.resolve(WeightEntry(disk, here))
  }

  /** The directories that validation recovers from the recorded configuration and vocabulary hold the same
      fixture as the directories it was prepared from. */
  predicate Recoverable(disk: Disk, model: string, tokenizer: string) {
    var config, vocab := Path(model, "config.json"), Path(tokenizer, "vocab.json");
    var model', tokenizer' := disk.resolve(config).directory, disk.resolve(vocab).directory;
    && SameFile(disk, Path(model', "config.json"), config)
    && SameFile(disk, Path(tokenizer', "vocab.json"), vocab)
    && SameFile(disk, Path(tokenizer', "merges.txt"), Path(tokenizer, "merges.txt"))
    && SameWeights(disk, model', model)
  }

  /** What a prepared entry records, and that it was prepared under its own name. */
  lemma PreparedEntry(disk: Disk, registry: map<string, Row>, roots: map<string, (string, string)>, id: string)
    requires ValidRegistry(registry) && id in registry && EntryOf(disk, registry, roots, id).Some?
    ensures var model := EntryOf(disk, registry, roots, id).value;
      && id in roots && model.name == id && model.runtime <= model.stored
      && model.config == disk.resolve(Path(roots[id].0, "config.json"))
      && model.vocab == disk.resolve(Path(roots[id].1, "vocab.json"))
  {
  }

  /** An entry that was prepared validates on the unchanged disk exactly when its directories can be recovered. */
  lemma PreparedIsCurrentIff(disk: Disk, registry: map<string, Row>, roots: map<string, (string, string)>, id: string)
    requires ValidRegistry(registry) && Settled(disk) && id in registry && EntryOf(disk, registry, roots, id).Some?
    ensures id in roots
    ensures Current(disk, registry, EntryOf(disk, registry, roots, id).value)
      <==> Recoverable(disk, roots[id].0, roots[id].1)
  {
    PreparedEntry(disk, registry, roots, id);
    var model := EntryOf(disk, registry, roots, id).value;
    var row, here, there := registry[id], roots[id].0, disk.resolve(model.config).directory;
    var again := PrepareOne(disk, row, there, disk.resolve(model.vocab).directory);
    assert disk.resolve(model.config) == model.config && disk.resolve(model.vocab) == model.vocab;
    if Recoverable(disk, here, roots[id].1) {
      assert again == Some(model);
    }
  }

  method PrepareThenValidate(disk: Disk, registry: map<string, Row>, roots: map<string, (string, string)>, selected: seq<string>)
    returns (prepared: bool, valid: bool)
    requires ValidRegistry(registry) && Readable(disk) && Settled(disk)
    ensures prepared <==>
      AllKnown(registry, selected) && forall k :: 0 <= k < |selected| ==> EntryOf(disk, registry, roots, selected[k]).Some?
    ensures prepared ==> forall k :: 0 <= k < |selected| ==> selected[k] in roots
    ensures prepared ==>
      (valid <==> forall k :: 0 <= k < |selected| ==> Recoverable(disk, roots[selected[k]].0, roots[selected[k]].1))
  {
    valid := false;
    var models := Prepare(disk, registry, roots, selected);
    prepared := models.Some?;
    if prepared {
      forall k | 0 <= k < |selected|
        ensures selected[k] in roots && models.value[k].name == selected[k]
        ensures Current(disk, registry, models.value[k]) <==> Recoverable(disk, roots[selected[k]].0, roots[selected[k]].1)
      {
        PreparedEntry(disk, registry, roots, selected[k]);
        PreparedIsCurrentIff(disk, registry, roots, selected[k]);
      }
      valid := Validate(disk, registry, models.value);
    }
  }

  // ----- links ------------------------------------------------------------------------------------------------

  /** Every file of the directory is the file of that name in `target`: the directory is a link to it, or a
      relative name for it, and no file in it is a link itself. */
  ghost predicate LeadsTo(disk: Disk, directory: string, target: string) {
    forall name :: disk.resolve(Path(directory, name)) == Path(target, name)
  }

  /** A file is there when the file it leads to is. */
  ghost predicate Coherent(disk: Disk) {
    Settled(disk) && forall p :: p in disk.files <==> disk.resolve(p) in disk.files
  }

  lemma SameRead(disk: Disk, directory: string, target: string, name: string)
    requires Coherent(disk) && LeadsTo(disk, directory, target) && LeadsTo(disk, target, target)
    ensures Path(directory, name) in disk.files <==> Path(target, name) in disk.files
    ensures disk.resolve(Path(directory, name)) == disk.resolve(Path(target, name)) == Path(target, name)
    ensures ReadTensors(disk, Path(directory, name)) == ReadTensors(disk, Path(target, name))
  {
  }

  /** A directory has the weight set of the directory it leads to. */
  lemma SameFilesSameWeights(disk: Disk, directory: string, target: string)
    requires Coherent(disk) && LeadsTo(disk, directory, target) && LeadsTo(disk, target, target)
    ensures WeightsOf(disk, directory) == WeightsOf(disk, target)
    ensures disk.resolve(WeightEntry(disk, directory)) == disk.resolve(WeightEntry(disk, target))
  {
    SameRead(disk, directory, target, "model.safetensors");
    SameRead(disk, directory, target, "model.safetensors.index.json");
    var index := disk.resolve(Path(target, "model.safetensors.index.json"));
    if index in disk.indices {
      var order := disk.indices[index].order;
      forall shard | shard in order ensures ReadTensors(disk, Path(directory, shard)) == ReadTensors(disk, Path(target, shard)) {
        SameRead(disk, directory, target, shard);
      }
      assert ShardsOf(disk, directory, order) == ShardsOf(disk, target, order);
    }
  }

  lemma TargetIsItself(disk: Disk, directory: string, target: string)
    requires Settled(disk) && LeadsTo(disk, directory, target)
    ensures LeadsTo(disk, target, target)
  {
    forall name ensures disk.resolve(Path(target, name)) == Path(target, name) {
      assert disk.resolve(disk.resolve(Path(directory, name))) == disk.resolve(Path(directory, name));
    }
  }

  /** Links to whole directories, and relative directories, do no harm. */
  lemma DirectoryLinksAreSafe(disk: Disk, row: Row, model: string, tokenizer: string, model': string, tokenizer': string)
    requires Coherent(disk) && PrepareOne(disk, row, model, tokenizer).Some?
    requires LeadsTo(disk, model, model') && LeadsTo(disk, tokenizer, tokenizer')
    ensures Recoverable(disk, model, tokenizer)
  {
    TargetIsItself(disk, model, model');
    TargetIsItself(disk, tokenizer, tokenizer');
    SameRead(disk, model, model', "config.json");
    SameRead(disk, tokenizer, tokenizer', "vocab.json");
    SameRead(disk, tokenizer, tokenizer', "merges.txt");
    SameFilesSameWeights(disk, model, model');
  }

  /** Links to single files do: a configuration, a vocabulary or a merge list that is a link out of its directory
      makes the manifest stale, unless the whole fixture is found behind the link. */
  lemma LinkedFileIsStale(disk: Disk, registry: map<string, Row>, roots: map<string, (string, string)>, id: string)
    requires ValidRegistry(registry) && Settled(disk) && id in registry && EntryOf(disk, registry, roots, id).Some?
    requires id in roots
    requires var model', tokenizer' := disk.resolve(Path(roots[id].0, "config.json")).directory,
                                       disk.resolve(Path(roots[id].1, "vocab.json")).directory;
      || WeightsOf(disk, model').None?
      || Path(tokenizer', "merges.txt") !in disk.files
      || disk.resolve(Path(tokenizer', "merges.txt")) != disk.resolve(Path(roots[id].1, "merges.txt"))
    ensures !Current(disk, registry, EntryOf(disk, registry, roots, id).value)
  {
    PreparedIsCurrentIff(disk, registry, roots, id);
  }
}
