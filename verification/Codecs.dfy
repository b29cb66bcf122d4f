/** Writers and readers of binary records, and what it means that they belong together. */
module Codecs {
  import opened Basics

  newtype byte = x: int | 0 <= x < 256

  datatype Read<T> = Ok(value: T, rest: seq<byte>) | Fail

  /** A writer, the reader that goes with it, and the values the reader accepts. */
  datatype Codec<!T> = Codec(write: T -> seq<byte>, read: seq<byte> -> Read<T>, valid: T -> bool)

  /** Reading what was written gives the value and leaves the rest alone; and whatever is read was written
      exactly so. The second half makes the format canonical: no two inputs mean the same. */
  ghost predicate Faithful<T(!new)>(c: Codec<T>) {
    && (forall v, rest :: c.valid(v) ==> c.read(c.write(v) + rest) == Ok(v, rest))
    && (forall b :: c.read(b).Ok? ==> c.valid(c.read(b).value) && b == c.write(c.read(b).value) + c.read(b).rest)
  }

  // ----- integers -----------------------------------------------------------------------------------------

  function Power(width: nat): nat {
    if width == 0 then 1 else 256 * Power(width - 1)
  }

  /** `width` bytes, least significant first. */
  function LittleEndian(n: nat, width: nat): (b: seq<byte>)
    ensures |b| == width
  {
    if width == 0 then [] else [(n % 256) as byte] + LittleEndian(n / 256, width - 1)
  }

  function FromLittleEndian(b: seq<byte>): (n: nat)
  {
    if b == [] then 0 else b[0] as nat + 256 * FromLittleEndian(b[1..])
  }

  lemma {:induction false} LittleEndianRead(n: nat, width: nat)
    requires n < Power(width)
    ensures FromLittleEndian(LittleEndian(n, width)) == n
  {
    if width > 0 {
      LittleEndianRead(n / 256, width - 1);
      assert LittleEndian(n, width)[1..] == LittleEndian(n / 256, width - 1);
    }
  }

  lemma {:induction false} LittleEndianWritten(b: seq<byte>)
    ensures FromLittleEndian(b) < Power(|b|)
    ensures LittleEndian(FromLittleEndian(b), |b|) == b
  {
    if b != [] {
      LittleEndianWritten(b[1..]);
    }
  }

  function Integer(width: nat): Codec<nat> {
    Codec((n: nat) => LittleEndian(n, width),
          (b: seq<byte>) => if |b| < width then Fail else Ok(FromLittleEndian(b[..width]), b[width..]),
          (n: nat) => n < Power(width))
  }

  lemma IntegerFaithful(width: nat)
    ensures Faithful(Integer(width))
  {
    var c := Integer(width);
    forall v: nat, rest | c.valid(v) ensures c.read(c.write(v) + rest) == Ok(v, rest) {
      LittleEndianRead(v, width);
      assert (c.write(v) + rest)[..width] == c.write(v);
    }
    forall b | c.read(b).Ok? ensures c.valid(c.read(b).value) && b == c.write(c.read(b).value) + c.read(b).rest {
      LittleEndianWritten(b[..width]);
    }
  }

  // ----- combinations -----------------------------------------------------------------------------------------

  function Pair<A, B>(a: Codec<A>, b: Codec<B>): Codec<(A, B)> {
    Codec((v: (A, B)) => a.write(v.0) + b.write(v.1),
          (bytes: seq<byte>) =>
            match a.read(bytes)
            case Fail => Fail
            case Ok(x, rest) => (match b.read(rest)
                                 case Fail => Fail
                                 case Ok(y, last) => Ok((x, y), last)),
          (v: (A, B)) => a.valid(v.0) && b.valid(v.1))
  }

  lemma PairFaithful<A(!new), B(!new)>(a: Codec<A>, b: Codec<B>)
    requires Faithful(a) && Faithful(b)
    ensures Faithful(Pair(a, b))
  {
    var c := Pair(a, b);
    forall v, rest | c.valid(v) ensures c.read(c.write(v) + rest) == Ok(v, rest) {
      assert c.write(v) + rest == a.write(v.0) + (b.write(v.1) + rest);
    }
    forall bytes | c.read(bytes).Ok?
      ensures c.valid(c.read(bytes).value) && bytes == c.write(c.read(bytes).value) + c.read(bytes).rest
    {
      var first := a.read(bytes);
      var second := b.read(first.rest);
      assert bytes == a.write(first.value) + (b.write(second.value) + second.rest);
    }
  }

  /** Values of another shape, with a check: `view` and `make` are inverse on the values that pass. */
  function Mapped<A, B>(c: Codec<A>, view: B -> A, make: A -> B, ok: A -> bool): Codec<B> {
    Codec((v: B) => c.write(view(v)),
          (bytes: seq<byte>) =>
            match c.read(bytes)
            case Fail => Fail
            case Ok(x, rest) => if ok(x) then Ok(make(x), rest) else Fail,
          (v: B) => c.valid(view(v)) && ok(view(v)))
  }

  lemma MappedFaithful<A(!new), B(!new)>(c: Codec<A>, view: B -> A, make: A -> B, ok: A -> bool)
    requires Faithful(c)
    requires forall v :: ok(view(v)) ==> make(view(v)) == v
    requires forall x :: ok(x) ==> view(make(x)) == x
    ensures Faithful(Mapped(c, view, make, ok))
  {
  }

  // ----- sequences ------------------------------------------------------------------------------------------

  function WriteAll<T>(c: Codec<T>, xs: seq<T>): seq<byte> {
    if xs == [] then [] else c.write(xs[0]) + WriteAll(c, xs[1..])
  }

  function ReadAll<T>(c: Codec<T>, n: nat, b: seq<byte>): Read<seq<T>> {
    if n == 0 then Ok([], b)
    else match c.read(b)
      case Fail => Fail
      case Ok(x, rest) => (match ReadAll(c, n - 1, rest)
                           case Fail => Fail
                           case Ok(xs, last) => Ok([x] + xs, last))
  }

  predicate AllValid<T>(c: Codec<T>, xs: seq<T>) {
    forall k :: 0 <= k < |xs| ==> c.valid(xs[k])
  }

  lemma {:induction false} ReadWritten<T(!new)>(c: Codec<T>, xs: seq<T>, rest: seq<byte>)
    requires Faithful(c) && AllValid(c, xs)
    ensures ReadAll(c, |xs|, WriteAll(c, xs) + rest) == Ok(xs, rest)
    decreases |xs|
  {
    if xs != [] {
      ReadWritten(c, xs[1..], rest);
      assert WriteAll(c, xs) + rest == c.write(xs[0]) + (WriteAll(c, xs[1..]) + rest);
      assert c.valid(xs[0]) && [xs[0]] + xs[1..] == xs;
    } else {
      assert WriteAll(c, xs) + rest == rest;
    }
  }

  lemma {:induction false} WrittenRead<T(!new)>(c: Codec<T>, n: nat, b: seq<byte>)
    requires Faithful(c) && ReadAll(c, n, b).Ok?
    ensures var r := ReadAll(c, n, b);
      |r.value| == n && AllValid(c, r.value) && b == WriteAll(c, r.value) + r.rest
    decreases n
  {
    if n > 0 {
      var first := c.read(b);
      WrittenRead(c, n - 1, first.rest);
      var others := ReadAll(c, n - 1, first.rest);
      assert ([first.value] + others.value)[1..] == others.value;
      assert b == c.write(first.value) + (WriteAll(c, others.value) + others.rest);
    }
  }

  /** A 64-bit count, at most `limit`, and that many items. */
  function Sequence<T>(c: Codec<T>, limit: nat): Codec<seq<T>> {
    Codec((xs: seq<T>) => Integer(8).write(|xs|) + WriteAll(c, xs),
          (b: seq<byte>) => ReadCounted(c, limit, Integer(8).read(b)),
          (xs: seq<T>) => |xs| <= limit && Integer(8).valid(|xs|) && AllValid(c, xs))
  }

  function ReadCounted<T>(c: Codec<T>, limit: nat, count: Read<nat>): Read<seq<T>> {
    if count.Fail? || count.value > limit then Fail else ReadAll(c, count.value, count.rest)
  }

  lemma SequenceReads<T(!new)>(c: Codec<T>, limit: nat, xs: seq<T>, rest: seq<byte>)
    requires Faithful(c) && Faithful(Integer(8)) && Sequence(c, limit).valid(xs)
    ensures Sequence(c, limit).read(Sequence(c, limit).write(xs) + rest) == Ok(xs, rest)
  {
    var count := Integer(8).write(|xs|);
    ReadWritten(c, xs, rest);
    Associative(count, WriteAll(c, xs), rest);
    var n: nat := |xs|;
    assert Integer(8).valid(n);
    assert Integer(8).read(count + (WriteAll(c, xs) + rest)) == Ok(n, WriteAll(c, xs) + rest);
  }

  lemma SequenceWrites<T(!new)>(c: Codec<T>, limit: nat, b: seq<byte>)
    requires Faithful(c) && Faithful(Integer(8)) && Sequence(c, limit).read(b).Ok?
    ensures var r := Sequence(c, limit).read(b);
      Sequence(c, limit).valid(r.value) && b == Sequence(c, limit).write(r.value) + r.rest
  {
    var count := Integer(8).read(b);
    WrittenRead(c, count.value, count.rest);
    var r := ReadAll(c, count.value, count.rest);
    Associative(Integer(8).write(count.value), WriteAll(c, r.value), r.rest);
  }

  lemma SequenceFaithful<T(!new)>(c: Codec<T>, limit: nat)
    requires Faithful(c)
    ensures Faithful(Sequence(c, limit))
  {
    IntegerFaithful(8);
    var s := Sequence(c, limit);
    forall xs, rest | s.valid(xs) ensures s.read(s.write(xs) + rest) == Ok(xs, rest) {
      SequenceReads(c, limit, xs, rest);
    }
    forall b | s.read(b).Ok? ensures s.valid(s.read(b).value) && b == s.write(s.read(b).value) + s.read(b).rest {
      SequenceWrites(c, limit, b);
    }
  }
}
