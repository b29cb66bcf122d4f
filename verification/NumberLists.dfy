/** The printer and parser of number lists, and the contract strings that a checkpoint has to match. */
module NumberLists {
  import opened Basics

  const Wide: nat := 0x1_0000_0000_0000_0000

  predicate IsDigit(c: char) { '0' <= c <= '9' }

  predicate IsSpace(c: char) { c == ' ' || '\t' <= c <= '\r' }

  predicate AllDigits(s: string) {
    forall k :: 0 <= k < |s| ==> IsDigit(s[k])
  }

  function DigitsValue(s: string): nat
    requires AllDigits(s)
  {
    if s == [] then 0 else 10 * DigitsValue(s[..|s| - 1]) + (s[|s| - 1] as int - '0' as int)
  }

  function SkipSpaces(s: string): string {
    if s != [] && IsSpace(s[0]) then SkipSpaces(s[1..]) else s
  }

  /** One unsigned 64-bit number: blanks and a sign are accepted in front, a minus sign wraps around, and
      nothing may follow the digits. */
  function Number(s: string): Option<nat> {
    var t := SkipSpaces(s);
    var signed := t != [] && (t[0] == '+' || t[0] == '-');
    var digits := if signed then t[1..] else t;
    if digits == [] || !AllDigits(digits) then None
    else
      var value := DigitsValue(digits);
      if value >= Wide then None
      else if t[0] == '-' && value != 0 then Some(Wide - value)
      else Some(value)
  }

  /** Decimal notation. */
  function Decimal(n: nat): (s: string)
    ensures s != [] && AllDigits(s)
  {
    if n < 10 then [('0' as int + n) as char]
    else Decimal(n / 10) + [('0' as int + n % 10) as char]
  }

  lemma {:induction false} DecimalValue(n: nat)
    ensures DigitsValue(Decimal(n)) == n
  {
    var s := Decimal(n);
    if n >= 10 {
      DecimalValue(n / 10);
      assert s[..|s| - 1] == Decimal(n / 10);
    } else {
      assert s[..|s| - 1] == [];
    }
  }

  lemma {:induction false} NumberOfDecimal(n: nat)
    requires n < Wide
    ensures Number(Decimal(n)) == Some(n)
  {
    DecimalValue(n);
    assert IsDigit(Decimal(n)[0]);
  }

  // ----- lists --------------------------------------------------------------------------------------------

  /** Position of the first `c` from `from` on, or the length of the string. */
  function Find(s: string, c: char, from: nat): (k: nat)
    requires from <= |s|
    ensures from <= k <= |s| && (forall j :: from <= j < k ==> s[j] != c) && (k < |s| ==> s[k] == c)
    decreases |s| - from
  {
    if from < |s| && s[from] != c then Find(s, c, from + 1) else from
  }

  predicate Lacks(s: string, c: char) {
    forall k :: 0 <= k < |s| ==> s[k] != c
  }

  /** The part before the first delimiter is determined. */
  lemma FindDelimiter(a: string, x: string, c: char)
    requires Lacks(a, c)
    ensures Find(a, c, 0) == |a|
    ensures Find(a + [c] + x, c, 0) == |a|
    ensures (a + [c] + x)[..|a|] == a && (a + [c] + x)[|a| + 1..] == x
  {
    var s := a + [c] + x;
    var k := Find(s, c, 0);
    assert s[|a|] == c;
    forall j | 0 <= j < |a| ensures s[j] != c {
      assert s[j] == a[j];
    }
  }

  /** The numbers between the commas; an empty token or anything that is not a number invalidates the list. */
  function ListOf(s: string): Option<seq<nat>>
    decreases |s|
  {
    var k := Find(s, ',', 0);
    Prepend(Number(s[..k]), if k == |s| then Some([]) else ListOf(s[k + 1..]))
  }

  function Prepend(head: Option<nat>, rest: Option<seq<nat>>): Option<seq<nat>> {
    if head.None? || rest.None? then None else Some([head.value] + rest.value)
  }

  function PrependAll(numbers: seq<nat>, rest: Option<seq<nat>>): Option<seq<nat>> {
    if rest.None? then None else Some(numbers + rest.value)
  }

  lemma PrependMore(numbers: seq<nat>, head: Option<nat>, rest: Option<seq<nat>>)
    ensures head.Some? ==> PrependAll(numbers, Prepend(head, rest)) == PrependAll(numbers + [head.value], rest)
    ensures head.None? ==> PrependAll(numbers, Prepend(head, rest)) == None
    ensures PrependAll([], rest) == rest
  {
    if head.Some? && rest.Some? {
      assert numbers + ([head.value] + rest.value) == numbers + [head.value] + rest.value;
    }
    assert rest.Some? ==> [] + rest.value == rest.value;
  }

  method NumberList(value: string) returns (result: Option<seq<nat>>)
    ensures result == ListOf(value)
  {
    var numbers: seq<nat> := [];
    var first := 0;
    StartList(value);
    while true
      invariant Reading(value, numbers, first) == true
      decreases |value| - first
    {
      var token, separator := NextNumber(value, numbers, first);
      if token.None? {
        return None;
      }
      numbers := numbers + [token.value];
      if separator == |value| {
        return Some(numbers);
      }
      first := separator + 1;
    }
  }

  method NextNumber(value: string, ghost numbers: seq<nat>, first: nat) returns (token: Option<nat>, separator: nat)
    requires Reading(value, numbers, first) == true
    ensures first <= separator <= |value|
    ensures token.None? ==> ListOf(value) == None
    ensures token.Some? && separator == |value| ==> ListOf(value) == Some(numbers + [token.value])
    ensures token.Some? && separator < |value| ==> Reading(value, numbers + [token.value], separator + 1) == true
  {
    separator := NextComma(value, first);
    token := Number(value[first..separator]);
    TakeToken(value, first, separator, numbers);
  }

  /** The numbers read so far and the rest of the string make up the list. */
  predicate Reading(value: string, numbers: seq<nat>, first: nat) {
    first <= |value| && ListOf(value) == PrependAll(numbers, ListOf(value[first..]))
  }

  lemma {:induction false} StartList(value: string)
    ensures Reading(value, [], 0)
  {
    assert value[0..] == value;
    PrependMore([], None, ListOf(value));
  }

  /** What one token contributes to the list. */
  lemma {:induction false} TakeToken(value: string, first: nat, separator: nat, numbers: seq<nat>)
    requires Reading(value, numbers, first) == true && separator == Find(value, ',', first)
    ensures var token := Number(value[first..separator]);
      if token.None? then ListOf(value) == None
      else if separator == |value| then ListOf(value) == Some(numbers + [token.value])
      else Reading(value, numbers + [token.value], separator + 1) == true
  {
    var token := Number(value[first..separator]);
    var rest := if separator == |value| then Some([]) else ListOf(value[separator + 1..]);
    FirstToken(value, first, separator);
    PrependMore(numbers, token, rest);
    if token.Some? {
      assert numbers + [token.value] + [] == numbers + [token.value];
    }
  }

  method NextComma(value: string, first: nat) returns (separator: nat)
    requires first <= |value|
    ensures separator == Find(value, ',', first)
  {
    separator := first;
    while separator < |value| && value[separator] != ','
      invariant first <= separator <= |value|
      invariant Find(value, ',', first) == Find(value, ',', separator)
    {
      separator := separator + 1;
    }
  }

  lemma {:induction false} FindShift(s: string, c: char, first: nat, from: nat)
    requires first <= from <= |s|
    ensures Find(s[first..], c, from - first) == Find(s, c, from) - first
    decreases |s| - from
  {
    if from < |s| && s[from] != c {
      FindShift(s, c, first, from + 1);
    }
  }

  lemma {:induction false} FirstToken(s: string, first: nat, separator: nat)
    requires first <= |s| && separator == Find(s, ',', first)
    ensures ListOf(s[first..])
      == Prepend(Number(s[first..separator]), if separator == |s| then Some([]) else ListOf(s[separator + 1..]))
  {
    FindShift(s, ',', first, first);
    assert s[first..][..separator - first] == s[first..separator];
    if separator < |s| {
      assert s[first..][separator - first + 1..] == s[separator + 1..];
    }
  }

  /** The printed form. */
  function Render(values: seq<nat>): string {
    if values == [] then ""
    else if |values| == 1 then Decimal(values[0])
    else Decimal(values[0]) + "," + Render(values[1..])
  }

  lemma {:induction false} RenderAppend(values: seq<nat>, n: nat)
    requires values != []
    ensures Render(values + [n]) == Render(values) + "," + Decimal(n)
  {
    if |values| == 1 {
      assert (values + [n])[1..] == [n];
    } else {
      assert (values + [n])[1..] == values[1..] + [n];
      RenderAppend(values[1..], n);
      Regroup(Decimal(values[0]) + ",", Render(values[1..]), ",", Decimal(n));
    }
  }

  lemma Regroup(a: string, b: string, c: string, d: string)
    ensures a + (b + c + d) == a + b + c + d
  {
  }

  method NumberListString(values: seq<nat>) returns (result: string)
    ensures result == Render(values)
  {
    result := "";
    for index := 0 to |values|
      invariant result == Render(values[..index])
    {
      assert values[..index + 1] == values[..index] + [values[index]];
      if index != 0 {
        RenderAppend(values[..index], values[index]);
        result := result + ",";
      }
      result := result + Decimal(values[index]);
    }
    assert values[..|values|] == values;
  }

  predicate Fits(values: seq<nat>) {
    forall k :: 0 <= k < |values| ==> values[k] < Wide
  }

  lemma DigitsLack(digits: string, c: char)
    requires AllDigits(digits) && !IsDigit(c)
    ensures Lacks(digits, c)
  {
  }

  /** Parsing what was printed gives the list back, exactly when there is something to print. */
  lemma {:induction false} RoundTrip(values: seq<nat>)
    requires Fits(values)
    ensures ListOf(Render(values)) == (if values == [] then None else Some(values))
  {
    if values != [] {
      var head := Decimal(values[0]);
      NumberOfDecimal(values[0]);
      DigitsLack(head, ',');
      FindDelimiter(head, Render(values[1..]), ',');
      if |values| > 1 {
        RoundTrip(values[1..]);
        assert [values[0]] + values[1..] == values;
      } else {
        assert head[..|head|] == head && [values[0]] + [] == values;
      }
    }
  }

  lemma RenderInjective(a: seq<nat>, b: seq<nat>)
    requires Fits(a) && Fits(b) && Render(a) == Render(b)
    ensures a == b
  {
    RoundTrip(a);
    RoundTrip(b);
  }

  lemma DecimalInjective(a: nat, b: nat)
    requires Decimal(a) == Decimal(b)
    ensures a == b
  {
    DecimalValue(a);
    DecimalValue(b);
  }

  /** A blank in front of a number is skipped. */
  lemma {:induction false} BlankIsSkipped(d: string)
    requires d != [] && IsDigit(d[0])
    ensures SkipSpaces(" " + d) == SkipSpaces(d) == d
    ensures Number(" " + d) == Number(d)
  {
    assert (" " + d)[1..] == d;
  }

  /** A list is also read back from other spellings: a blank in front of a number is accepted. */
  lemma {:induction false} OtherSpellings(n: nat)
    requires n < Wide
    ensures ListOf(" " + Decimal(n)) == Some([n]) && Render([n]) != " " + Decimal(n)
  {
    var s := " " + Decimal(n);
    assert IsDigit(Decimal(n)[0]);
    NumberOfDecimal(n);
    BlankIsSkipped(Decimal(n));
    DigitsLack(Decimal(n), ',');
    FindDelimiter(s, "", ',');
    assert s[..|s|] == s && [n] + [] == [n];
    assert Render([n])[0] != s[0];
  }

  // ----- contract strings ------------------------------------------------------------------------------------

  lemma Delimited(a: string, x: string, b: string, y: string, d: char)
    requires Lacks(a, d) && Lacks(b, d) && a + [d] + x == b + [d] + y
    ensures a == b && x == y
  {
    FindDelimiter(a, x, d);
    FindDelimiter(b, y, d);
  }

  lemma {:induction false} RenderLacks(values: seq<nat>)
    ensures Lacks(Render(values), ':')
  {
    if |values| > 1 {
      RenderLacks(values[1..]);
    }
  }

  datatype DataConfig = DataConfig(context: nat, world: nat, rows: seq<nat>, weighting: string)

  /** The label of a field and its value, up to the next delimiter. */
  function Field(name: string, value: string): string {
    name + value
  }

  function DataConfigString(c: DataConfig): string {
    "ranked-synthetic" + ":" + (Field("context=", Decimal(c.context)) + ":" + (Field("world=", Decimal(c.world)) + ":"
      + (Field("rows=", Render(c.rows)) + ":" + Field("weighting=", c.weighting))))
  }

  lemma FieldInjective(name: string, a: string, x: string, b: string, y: string)
    requires Lacks(name, ':') && Lacks(a, ':') && Lacks(b, ':')
    requires Field(name, a) + ":" + x == Field(name, b) + ":" + y
    ensures a == b && x == y
  {
    Delimited(Field(name, a), x, Field(name, b), y, ':');
    assert Field(name, a)[|name|..] == a && Field(name, b)[|name|..] == b;
  }

  /** A checkpoint whose data configuration matches was written for the same context, world size, rows and
      weighting. */
  lemma DataConfigInjective(a: DataConfig, b: DataConfig)
    requires Fits(a.rows) && Fits(b.rows)
    requires DataConfigString(a) == DataConfigString(b)
    ensures a == b
  {
    var a3, b3 := Field("weighting=", a.weighting), Field("weighting=", b.weighting);
    var a2, b2 := Field("rows=", Render(a.rows)) + ":" + a3, Field("rows=", Render(b.rows)) + ":" + b3;
    var a1, b1 := Field("world=", Decimal(a.world)) + ":" + a2, Field("world=", Decimal(b.world)) + ":" + b2;
    Delimited("ranked-synthetic", Field("context=", Decimal(a.context)) + ":" + a1,
              "ranked-synthetic", Field("context=", Decimal(b.context)) + ":" + b1, ':');
    FieldInjective("context=", Decimal(a.context), a1, Decimal(b.context), b1);
    FieldInjective("world=", Decimal(a.world), a2, Decimal(b.world), b2);
    RenderLacks(a.rows);
    RenderLacks(b.rows);
    FieldInjective("rows=", Render(a.rows), a3, Render(b.rows), b3);
    DecimalInjective(a.context, b.context);
    DecimalInjective(a.world, b.world);
    RenderInjective(a.rows, b.rows);
    assert a3[|"weighting="|..] == a.weighting && b3[|"weighting="|..] == b.weighting;
  }

  /** The same for the generator state, which is the seed. */
  lemma SeedInjective(a: nat, b: nat)
    requires "seed=" + Decimal(a) == "seed=" + Decimal(b)
    ensures a == b
  {
    assert ("seed=" + Decimal(a))[5..] == Decimal(a);
    assert ("seed=" + Decimal(b))[5..] == Decimal(b);
    DecimalInjective(a, b);
  }
}
