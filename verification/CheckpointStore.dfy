/** The checkpoint files of the ranked protocol as bytes: what the protocol keeps as a map from names to saved states
    is what the byte format of the checkpoints writes and reads. */
module CheckpointStore {
  import opened Basics
  import opened Vectors
  import opened Codecs
  import opened CheckpointFile
  import Training
  import RankProtocol

  /** The files by name. */
  type FileStore = map<string, seq<byte>>

  /** The numbers that 32-bit patterns stand for. */
  type Numbers = nat -> real

  function Text(name: Name): (s: string)
    ensures |s| == |name| && forall i :: 0 <= i < |name| ==> s[i] == name[i] as int as char
  {
    seq(|name|, i requires 0 <= i < |name| => name[i] as int as char)
  }

  /** Different byte strings read as different strings, so the contracts may be compared either way. */
  lemma TextInjective(a: Name, b: Name)
    requires Text(a) == Text(b)
    ensures a == b
  {
    forall i | 0 <= i < |a| ensures a[i] == b[i] {
      assert Text(a)[i] == Text(b)[i];
    }
  }

  function Values(numbers: Numbers, tensors: seq<Tensor>): (g: Gradient)
    ensures |g| == |tensors|
  {
    seq(|tensors|, i requires 0 <= i < |tensors| =>
      seq(|tensors[i].bits|, j requires 0 <= j < |tensors[i].bits| => numbers(tensors[i].bits[j])))
  }

  function Unnamed(parameters: seq<(Name, Tensor)>): (tensors: seq<Tensor>)
    ensures |tensors| == |parameters|
  {
    seq(|parameters|, i requires 0 <= i < |parameters| => parameters[i].1)
  }

  /** What a checkpoint means to the protocol. */
  function Meaning(numbers: Numbers, c: Checkpoint): RankProtocol.Saved {
    RankProtocol.Saved(
      RankProtocol.Contract(Text(c.modelConfig), Text(c.dataConfig), Text(c.rngState)),
      Training.TrainState(
        Values(numbers, Unnamed(c.parameters)),
        Training.OptimizerState(c.moments.step, Values(numbers, c.moments.first), Values(numbers, c.moments.second)),
        c.globalStep, c.dataCursor))
  }

  /** What a file means, if it loads. */
  function FileMeaning(numbers: Numbers, file: seq<byte>): Option<RankProtocol.Saved> {
    match Load(file)
    case Refused => None
    case Loaded(_, c) => Some(Meaning(numbers, c))
  }

  function Reader(numbers: Numbers): seq<byte> -> Option<RankProtocol.Saved> {
    file => FileMeaning(numbers, file)
  }

  /** The files that can be read, by what is read. */
  function ReadAll<V>(store: FileStore, read: seq<byte> -> Option<V>): map<string, V> {
    map name | name in store && read(store[name]).Some? :: read(store[name]).value
  }

  lemma ReplaceFile<V>(store: FileStore, read: seq<byte> -> Option<V>, name: string, file: seq<byte>, value: V)
    requires read(file) == Some(value)
    ensures ReadAll(store[name := file], read) == ReadAll(store, read)[name := value]
  {
  }

  /** The protocol's view of the files: those that load, by what they mean. */
  function Meanings(numbers: Numbers, store: FileStore): map<string, RankProtocol.Saved> {
    ReadAll(store, Reader(numbers))
  }

  /** The condition under which a saved checkpoint loads again. */
  predicate Durable(c: Checkpoint) {
    Nameable(c.parameters) && Payload(FormatVersion).valid(c) && |Payload(FormatVersion).write(c)| < Power(8)
  }

  /** Writing the file of a durable checkpoint is storing its meaning; every other file keeps its own. */
  lemma SavingStores(numbers: Numbers, store: FileStore, name: string, c: Checkpoint)
    requires Durable(c)
    ensures Save(c).Written?
    ensures Meanings(numbers, store[name := Save(c).file]) == Meanings(numbers, store)[name := Meaning(numbers, c)]
  {
    SaveThenLoad(c);
    ReplaceFile(store, Reader(numbers), name, Save(c).file, Meaning(numbers, c));
  }

  /** The move in which rank 0 saves, on bytes: the file it writes is the one entry the protocol replaces. */
  lemma SavingMove(cfg: RankProtocol.RunConfig, st: RankProtocol.State, numbers: Numbers, store: FileStore, c: Checkpoint)
    requires cfg.Valid() && |st.ranks| == cfg.World() && st.ranks[0].pc == RankProtocol.Saving
    requires !cfg.injectFailure && cfg.checkpointTo.Some? && st.files.checkpoints == Meanings(numbers, store)
    requires Durable(c) && Meaning(numbers, c) == RankProtocol.Saved(cfg.contract, st.ranks[0].train)
    ensures Save(c).Written?
    ensures var next := RankProtocol.Apply(cfg, st, RankProtocol.Run(0));
      next.files.checkpoints == Meanings(numbers, store[cfg.checkpointTo.value := Save(c).file])
  {
    SavingStores(numbers, store, cfg.checkpointTo.value, c);
    SavingEffect(cfg, st);
  }

  lemma SavingEffect(cfg: RankProtocol.RunConfig, st: RankProtocol.State)
    requires cfg.Valid() && |st.ranks| == cfg.World() && st.ranks[0].pc == RankProtocol.Saving
    requires !cfg.injectFailure && cfg.checkpointTo.Some?
    ensures RankProtocol.Apply(cfg, st, RankProtocol.Run(0)).files.checkpoints
      == st.files.checkpoints[cfg.checkpointTo.value := RankProtocol.Saved(cfg.contract, st.ranks[0].train)]
  {
  }

  /** What a run reads from the file it resumes. */
  function StartFrom(cfg: RankProtocol.RunConfig, numbers: Numbers, store: FileStore): Option<Training.TrainState> {
    match cfg.resumeFrom
    case None => Some(cfg.seeded)
    case Some(name) =>
      if name !in store then None
      else
        match FileMeaning(numbers, store[name])
        case None => None
        case Some(saved) => if saved.contract == cfg.contract then Some(saved.state) else None
  }

  /** Reading the file and asking the protocol's map agree. */
  lemma StartReadsFile(cfg: RankProtocol.RunConfig, numbers: Numbers, store: FileStore)
    ensures cfg.Start(Meanings(numbers, store)) == StartFrom(cfg, numbers, store)
  {
  }

  lemma StartAfter(cfg: RankProtocol.RunConfig, checkpoints: map<string, RankProtocol.Saved>, name: string,
                   saved: RankProtocol.Saved)
    requires cfg.resumeFrom == Some(name)
    ensures cfg.Start(checkpoints[name := saved]) == if saved.contract == cfg.contract then Some(saved.state) else None
  {
  }

  /** A run that resumes from the file of a durable checkpoint starts from the state it was saved with exactly when
      the three contract strings are its own. */
  lemma ResumeFromFile(cfg: RankProtocol.RunConfig, numbers: Numbers, store: FileStore, name: string, c: Checkpoint)
    requires Durable(c) && cfg.resumeFrom == Some(name)
    ensures Save(c).Written?
    ensures StartFrom(cfg, numbers, store[name := Save(c).file])
      == if Meaning(numbers, c).contract == cfg.contract then Some(Meaning(numbers, c).state) else None
  {
    SavingStores(numbers, store, name, c);
    StartReadsFile(cfg, numbers, store[name := Save(c).file]);
    StartAfter(cfg, Meanings(numbers, store), name, Meaning(numbers, c));
  }
}
