/** The checkpoint file: its byte format, and the exact condition under which a saved state loads again. */
module CheckpointFile {
  import opened Codecs

  /** Floating point elements travel as their 32-bit patterns. */
  datatype Tensor = Tensor(shape: seq<nat>, bits: seq<nat>)

  type Name = seq<byte>

  datatype OptimizerConfig = OptimizerConfig(
    learningRate: nat, beta1: nat, beta2: nat, epsilon: nat, weightDecay: nat, momentPrecision: nat)

  datatype Moments = Moments(step: nat, first: seq<Tensor>, second: seq<Tensor>)

  datatype Checkpoint = Checkpoint(
    globalStep: nat, dataCursor: nat, rngState: Name, modelConfig: Name, dataConfig: Name,
    parameters: seq<(Name, Tensor)>, config: OptimizerConfig, moments: Moments)

  const SignedLimit: nat := 0x8000_0000_0000_0000
  const MaxItems: nat := 1_000_000

  /** Number of elements of a shape, or a negative number when a dimension is negative or a product overflows. */
  function Elements(shape: seq<nat>): int {
    if shape == [] then 1
    else
      var before := Elements(shape[..|shape| - 1]);
      var last := shape[|shape| - 1];
      if before < 0 || last >= SignedLimit || before * last >= SignedLimit then -1 else before * last
  }

  /** The outermost stride times its dimension: the same product taken from the last dimension on, which can
      overflow although a dimension in front is zero. */
  function Strides(shape: seq<nat>): int {
    if shape == [] then 1
    else
      var inner := Strides(shape[1..]);
      if inner < 0 || shape[0] >= SignedLimit || inner * shape[0] >= SignedLimit then -1 else inner * shape[0]
  }

  /** A tensor of this shape with this many elements can be built. */
  predicate Buildable(shape: seq<nat>, elements: nat) {
    Elements(shape) == elements && Strides(shape) >= 0
  }

  // ----- the records ----------------------------------------------------------------------------------------

  function ByteCodec(): Codec<byte> {
    Codec((x: byte) => [x], (b: seq<byte>) => if b == [] then Fail else Ok(b[0], b[1..]), (x: byte) => true)
  }

  lemma ByteFaithful()
    ensures Faithful(ByteCodec())
  {
    var c := ByteCodec();
    forall v, rest | c.valid(v) ensures c.read(c.write(v) + rest) == Ok(v, rest) {
      assert (c.write(v) + rest)[1..] == rest;
    }
  }

  function Text(): Codec<Name> { Sequence(ByteCodec(), Power(8)) }

  function TensorCodec(): Codec<Tensor> {
    Mapped(Pair(Sequence(Integer(8), 64), Sequence(Integer(4), Power(8))),
           (t: Tensor) => (t.shape, t.bits),
           (p: (seq<nat>, seq<nat>)) => Tensor(p.0, p.1),
           (p: (seq<nat>, seq<nat>)) => Buildable(p.0, |p.1|))
  }

  lemma TensorFaithful()
    ensures Faithful(TensorCodec())
  {
    IntegerFaithful(8);
    IntegerFaithful(4);
    SequenceFaithful(Integer(8), 64);
    SequenceFaithful(Integer(4), Power(8));
    var c := Pair(Sequence(Integer(8), 64), Sequence(Integer(4), Power(8)));
    PairFaithful(Sequence(Integer(8), 64), Sequence(Integer(4), Power(8)));
    MappedFaithful(c, (t: Tensor) => (t.shape, t.bits), (p: (seq<nat>, seq<nat>)) => Tensor(p.0, p.1),
                   (p: (seq<nat>, seq<nat>)) => Buildable(p.0, |p.1|));
  }

  /** The first format version has no moment precision; it means full precision. */
  function PrecisionCodec(version: nat): Codec<nat> {
    if version >= 2 then Mapped(Integer(4), (n: nat) => n, (n: nat) => n, (n: nat) => n <= 1)
    else Codec((n: nat) => [], (b: seq<byte>) => Ok(0, b), (n: nat) => n == 0)
  }

  lemma PrecisionFaithful(version: nat)
    ensures Faithful(PrecisionCodec(version))
  {
    IntegerFaithful(4);
    if version >= 2 {
      MappedFaithful(Integer(4), (n: nat) => n, (n: nat) => n, (n: nat) => n <= 1);
    } else {
      var c := PrecisionCodec(version);
      forall v: nat, rest | c.valid(v) ensures c.read(c.write(v) + rest) == Ok(v, rest) {
        assert [] + rest == rest;
      }
      forall b | c.read(b).Ok? ensures c.valid(c.read(b).value) && b == c.write(c.read(b).value) + c.read(b).rest {
        assert [] + b == b;
      }
    }
  }

  type Rates = (nat, (nat, (nat, (nat, nat))))

  function RatesCodec(): Codec<Rates> {
    Pair(Integer(4), Pair(Integer(4), Pair(Integer(4), Pair(Integer(4), Integer(4)))))
  }

  function ConfigCodec(version: nat): Codec<OptimizerConfig> {
    Mapped(Pair(RatesCodec(), PrecisionCodec(version)),
           (c: OptimizerConfig) => ((c.learningRate, (c.beta1, (c.beta2, (c.epsilon, c.weightDecay)))), c.momentPrecision),
           (p: (Rates, nat)) => OptimizerConfig(p.0.0, p.0.1.0, p.0.1.1.0, p.0.1.1.1.0, p.0.1.1.1.1, p.1),
           (p: (Rates, nat)) => true)
  }

  lemma ConfigFaithful(version: nat)
    ensures Faithful(ConfigCodec(version))
  {
    IntegerFaithful(4);
    PrecisionFaithful(version);
    PairFaithful(Integer(4), Integer(4));
    PairFaithful(Integer(4), Pair(Integer(4), Integer(4)));
    PairFaithful(Integer(4), Pair(Integer(4), Pair(Integer(4), Integer(4))));
    PairFaithful(Integer(4), Pair(Integer(4), Pair(Integer(4), Pair(Integer(4), Integer(4)))));
    PairFaithful(RatesCodec(), PrecisionCodec(version));
    MappedFaithful(
      Pair(RatesCodec(), PrecisionCodec(version)),
      (c: OptimizerConfig) => ((c.learningRate, (c.beta1, (c.beta2, (c.epsilon, c.weightDecay)))), c.momentPrecision),
      (p: (Rates, nat)) => OptimizerConfig(p.0.0, p.0.1.0, p.0.1.1.0, p.0.1.1.1.0, p.0.1.1.1.1, p.1),
      (p: (Rates, nat)) => true);
  }

  function Tensors(): Codec<seq<Tensor>> { Sequence(TensorCodec(), MaxItems) }

  function MomentsCodec(): Codec<Moments> {
    Mapped(Pair(Integer(8), Pair(Tensors(), Tensors())),
           (m: Moments) => (m.step, (m.first, m.second)),
           (p: (nat, (seq<Tensor>, seq<Tensor>))) => Moments(p.0, p.1.0, p.1.1),
           (p: (nat, (seq<Tensor>, seq<Tensor>))) => true)
  }

  lemma MomentsFaithful()
    ensures Faithful(MomentsCodec())
  {
    IntegerFaithful(8);
    TensorFaithful();
    SequenceFaithful(TensorCodec(), MaxItems);
    PairFaithful(Tensors(), Tensors());
    PairFaithful(Integer(8), Pair(Tensors(), Tensors()));
    MappedFaithful(Pair(Integer(8), Pair(Tensors(), Tensors())),
                   (m: Moments) => (m.step, (m.first, m.second)),
                   (p: (nat, (seq<Tensor>, seq<Tensor>))) => Moments(p.0, p.1.0, p.1.1),
                   (p: (nat, (seq<Tensor>, seq<Tensor>))) => true);
  }

  function Parameters(): Codec<seq<(Name, Tensor)>> { Sequence(Pair(Text(), TensorCodec()), MaxItems) }

  type Experiment = (nat, (nat, (Name, (Name, Name))))
  type Training = (seq<(Name, Tensor)>, (OptimizerConfig, Moments))

  function ExperimentCodec(): Codec<Experiment> {
    Pair(Integer(8), Pair(Integer(8), Pair(Text(), Pair(Text(), Text()))))
  }

  function TrainingCodec(version: nat): Codec<Training> {
    Pair(Parameters(), Pair(ConfigCodec(version), MomentsCodec()))
  }

  /** Everything behind the header. */
  function Payload(version: nat): Codec<Checkpoint> {
    Mapped(Pair(ExperimentCodec(), TrainingCodec(version)),
           (c: Checkpoint) => ((c.globalStep, (c.dataCursor, (c.rngState, (c.modelConfig, c.dataConfig)))),
                               (c.parameters, (c.config, c.moments))),
           (p: (Experiment, Training)) => Checkpoint(p.0.0, p.0.1.0, p.0.1.1.0, p.0.1.1.1.0, p.0.1.1.1.1,
                                                     p.1.0, p.1.1.0, p.1.1.1),
           (p: (Experiment, Training)) => true)
  }

  lemma TextFaithful()
    ensures Faithful(Text())
  {
    ByteFaithful();
    SequenceFaithful(ByteCodec(), Power(8));
  }

  lemma ExperimentFaithful()
    ensures Faithful(ExperimentCodec())
  {
    IntegerFaithful(8);
    TextFaithful();
    PairFaithful(Text(), Text());
    PairFaithful(Text(), Pair(Text(), Text()));
    PairFaithful(Integer(8), Pair(Text(), Pair(Text(), Text())));
    PairFaithful(Integer(8), Pair(Integer(8), Pair(Text(), Pair(Text(), Text()))));
  }

  lemma TrainingFaithful(version: nat)
    ensures Faithful(TrainingCodec(version))
  {
    TextFaithful();
    TensorFaithful();
    ConfigFaithful(version);
    MomentsFaithful();
    PairFaithful(Text(), TensorCodec());
    SequenceFaithful(Pair(Text(), TensorCodec()), MaxItems);
    PairFaithful(ConfigCodec(version), MomentsCodec());
    PairFaithful(Parameters(), Pair(ConfigCodec(version), MomentsCodec()));
  }

  /** The payload format is faithful in both versions. */
  lemma PayloadFaithful(version: nat)
    ensures Faithful(Payload(version))
  {
    ExperimentFaithful();
    TrainingFaithful(version);
    PairFaithful(ExperimentCodec(), TrainingCodec(version));
    MappedFaithful(
      Pair(ExperimentCodec(), TrainingCodec(version)),
      (c: Checkpoint) => ((c.globalStep, (c.dataCursor, (c.rngState, (c.modelConfig, c.dataConfig)))),
                          (c.parameters, (c.config, c.moments))),
      (p: (Experiment, Training)) => Checkpoint(p.0.0, p.0.1.0, p.0.1.1.0, p.0.1.1.1.0, p.0.1.1.1.1, p.1.0, p.1.1.0, p.1.1.1),
      (p: (Experiment, Training)) => true);
  }

  // ----- the file -------------------------------------------------------------------------------------------

  const Magic: seq<byte> := [77, 76, 76, 77, 67, 75, 80, 84]
  const EndianMarker: nat := 0x0102_0304
  const FormatVersion: nat := 2

  /** Exclusive or of two bytes. */
  function Xor(a: nat, b: byte): (c: nat)
    requires a < 256
    ensures c < 256
  {
    ((a as bv8) ^ (b as int as bv8)) as nat
  }

  /** 64-bit FNV-1a hash. */
  function Checksum(payload: seq<byte>): (h: nat)
    ensures h < 0x1_0000_0000_0000_0000
  {
    if payload == [] then 14695981039346656037
    else
      var h := Checksum(payload[..|payload| - 1]);
      (h - h % 256 + Xor(h % 256, payload[|payload| - 1])) * 1099511628211 % 0x1_0000_0000_0000_0000
  }

  function Header(version: nat, payload: seq<byte>): (b: seq<byte>)
    ensures |b| == 24
  {
    LittleEndian(version, 4) + LittleEndian(EndianMarker, 4) + LittleEndian(|payload|, 8)
    + LittleEndian(Checksum(payload), 8)
  }

  function Frame(version: nat, payload: seq<byte>): seq<byte> {
    Magic + Header(version, payload) + payload
  }

  function FileOf(version: nat, c: Checkpoint): seq<byte> {
    Frame(version, Payload(version).write(c))
  }

  datatype Result<T> = Loaded(version: nat, value: T) | Refused

  function VersionOf(file: seq<byte>): nat
    requires |file| >= 32
  {
    FromLittleEndian(file[8..12])
  }

  /** The checks of the header. */
  predicate Framed(file: seq<byte>) {
    && |file| >= 32 && file[..8] == Magic
    && 0 < VersionOf(file) <= FormatVersion
    && FromLittleEndian(file[12..16]) == EndianMarker
    && FromLittleEndian(file[16..24]) == |file| - 32
    && FromLittleEndian(file[24..32]) == Checksum(file[32..])
  }

  /** Reads a payload to its last byte. */
  function ReadWhole<T>(p: Codec<T>, version: nat, payload: seq<byte>): Result<T> {
    var r := p.read(payload);
    if r.Ok? && r.rest == [] then Loaded(version, r.value) else Refused
  }

  /** Reads a file: every check of the header, then the payload to its last byte. */
  function Load(file: seq<byte>): Result<Checkpoint> {
    if Framed(file) then ReadWhole(Payload(VersionOf(file)), VersionOf(file), file[32..]) else Refused
  }

  /** Names are unique and not empty, or saving refuses. */
  predicate Nameable(parameters: seq<(Name, Tensor)>) {
    && (forall k :: 0 <= k < |parameters| ==> parameters[k].0 != [])
    && (forall j, k :: 0 <= j < k < |parameters| ==> parameters[j].0 != parameters[k].0)
  }

  datatype Outcome = Written(file: seq<byte>) | NotWritten

  function Save(c: Checkpoint): Outcome {
    if Nameable(c.parameters) then Written(FileOf(FormatVersion, c)) else NotWritten
  }

  lemma PowersOf256()
    ensures Power(4) == 0x1_0000_0000 && Power(8) == 0x1_0000_0000_0000_0000
  {
    assert Power(4) == 256 * (256 * (256 * (256 * Power(0))));
    assert Power(8) == 256 * (256 * (256 * (256 * Power(4))));
  }

  lemma Sections(m: seq<byte>, a: seq<byte>, b: seq<byte>, c: seq<byte>, d: seq<byte>, p: seq<byte>)
    requires |m| == 8 && |a| == 4 && |b| == 4 && |c| == 8 && |d| == 8
    ensures var file := m + (a + b + c + d) + p;
      && |file| == 32 + |p| && file[..8] == m && file[32..] == p
      && file[8..12] == a && file[12..16] == b && file[16..24] == c && file[24..32] == d
  {
    var h := a + b + c + d;
    var file := m + h + p;
    assert h[..4] == a && h[4..8] == b && h[8..16] == c && h[16..24] == d;
    assert file[8..12] == h[..4] && file[12..16] == h[4..8] && file[16..24] == h[8..16] && file[24..32] == h[16..24];
  }

  lemma FromSections(file: seq<byte>)
    requires |file| >= 32
    ensures file == file[..8] + (file[8..12] + file[12..16] + file[16..24] + file[24..32]) + file[32..]
  {
  }

  /** The header checks accept exactly the frames. */
  lemma FramesExactly(file: seq<byte>, version: nat, payload: seq<byte>)
    ensures (Framed(file) && VersionOf(file) == version && file[32..] == payload) <==>
      (0 < version <= FormatVersion && |payload| < Power(8) && file == Frame(version, payload))
  {
    PowersOf256();
    var size, sum := |payload|, Checksum(payload);
    if Framed(file) && VersionOf(file) == version && file[32..] == payload {
      LittleEndianWritten(file[8..12]);
      LittleEndianWritten(file[12..16]);
      LittleEndianWritten(file[16..24]);
      LittleEndianWritten(file[24..32]);
      FromSections(file);
    }
    if 0 < version <= FormatVersion && |payload| < Power(8) && file == Frame(version, payload) {
      Sections(Magic, LittleEndian(version, 4), LittleEndian(EndianMarker, 4), LittleEndian(size, 8),
               LittleEndian(sum, 8), payload);
      LittleEndianRead(version, 4);
      LittleEndianRead(EndianMarker, 4);
      LittleEndianRead(size, 8);
      LittleEndianRead(sum, 8);
    }
  }

  lemma WholeExactly<T(!new)>(p: Codec<T>, version: nat, payload: seq<byte>, v: T)
    requires Faithful(p)
    ensures ReadWhole(p, version, payload) == Loaded(version, v) <==> p.valid(v) && payload == p.write(v)
  {
    assert p.write(v) + [] == p.write(v);
    var r := p.read(payload);
    if r.Ok? {
      assert payload == p.write(r.value) + r.rest;
    }
  }

  /** A file loads to a checkpoint exactly when it is the file of that checkpoint in one of the two versions
      and the checkpoint is within the limits of the reader. Nothing else loads, and nothing loads as
      something else. */
  lemma LoadsExactly(file: seq<byte>, version: nat, c: Checkpoint)
    ensures Load(file) == Loaded(version, c) <==>
      && 0 < version <= FormatVersion && Payload(version).valid(c)
      && |Payload(version).write(c)| < Power(8) && file == FileOf(version, c)
  {
    PayloadFaithful(version);
    var p := Payload(version);
    FramesExactly(file, version, p.write(c));
    if Framed(file) && VersionOf(file) == version {
      WholeExactly(p, version, file[32..], c);
    }
  }

  /** Saving and loading gives the state back exactly when its names are unique and not empty and it is
      within the limits of the reader. */
  lemma SaveThenLoad(c: Checkpoint)
    ensures (Save(c).Written? && Load(Save(c).file) == Loaded(FormatVersion, c)) <==>
      Nameable(c.parameters) && Payload(FormatVersion).valid(c) && |Payload(FormatVersion).write(c)| < Power(8)
  {
    if Nameable(c.parameters) {
      LoadsExactly(FileOf(FormatVersion, c), FormatVersion, c);
    }
  }

  /** A tensor of more than 64 dimensions can be saved but never loaded. */
  lemma DeepTensorsAreLost(c: Checkpoint, k: nat)
    requires k < |c.parameters| && |c.parameters[k].1.shape| > 64 && Nameable(c.parameters)
    ensures Save(c).Written? && Load(Save(c).file) != Loaded(FormatVersion, c)
  {
    SaveThenLoad(c);
    ParametersValid(c, FormatVersion);
    ItemValid(Pair(Text(), TensorCodec()), MaxItems, c.parameters, k);
    SecondValid(Text(), TensorCodec(), c.parameters[k]);
    ShallowTensor(c.parameters[k].1);
  }

  lemma ParametersValid(c: Checkpoint, version: nat)
    ensures Payload(version).valid(c) ==> Parameters().valid(c.parameters)
  {
  }

  lemma ItemValid<T>(c: Codec<T>, limit: nat, xs: seq<T>, k: nat)
    requires k < |xs|
    ensures Sequence(c, limit).valid(xs) ==> c.valid(xs[k])
  {
    assert Sequence(c, limit).valid(xs) ==> AllValid(c, xs);
  }

  lemma SecondValid<A, B>(a: Codec<A>, b: Codec<B>, v: (A, B))
    ensures Pair(a, b).valid(v) ==> b.valid(v.1)
  {
  }

  lemma ShallowTensor(t: Tensor)
    ensures TensorCodec().valid(t) ==> |t.shape| <= 64
  {
  }

  /** An empty tensor whose other dimensions overflow has zero elements but no strides, and is refused. */
  lemma HugeEmptyTensorsAreRefused(a: nat, b: nat)
    requires 0 < a < SignedLimit && b < SignedLimit && a * b >= SignedLimit
    ensures Elements([0, a, b]) == 0
    ensures !TensorCodec().valid(Tensor([0, a, b], []))
  {
    assert [0, a, b][..2] == [0, a] && [0, a][..1] == [0] && [0][..0] == [];
    assert Elements([0]) == 0 && Elements([0, a]) == 0;
    assert [0, a, b][1..] == [a, b] && [a, b][1..] == [b] && [b][1..] == [];
    assert Strides([]) == 1 && Strides([b]) == b;
    assert Strides([a, b]) == -1;
    assert Strides([0, a, b]) == -1;
  }
}
