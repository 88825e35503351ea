/** The formatting helper of concatenation calls: `v2s`, which renders one
    dynamically typed value as text, and `writeToBf`, which joins the
    renderings of a call's values with single spaces. Go's `interface{}`
    argument becomes the closed sum type `Value`. */
module Values {
  import opened Wrappers
  import opened Text

  /** Go's signed integer types (`int` is 64 bits wide). */
  datatype SignedKind = Int | Int8 | Int16 | Int32 | Int64

  /** Go's unsigned integer types (`uint` is 64 bits wide). */
  datatype UnsignedKind = Uint | Uint8 | Uint16 | Uint32 | Uint64

  /** A value handed to a concatenation call. `Opaque` stands for every
      case whose text comes from code outside this model (an `error`'s
      message, a float's shortest decimal, a byte slice read as a string,
      and the `%v` default); it carries that text. */
  datatype Value =
    | Nil
    | Bool(b: bool)
    | Str(s: string)
    | Signed(sk: SignedKind, i: int)
    | Unsigned(uk: UnsignedKind, u: nat)
    | Opaque(text: string)

  const TwoTo63: int := 0x8000_0000_0000_0000
  const TwoTo64: int := 0x1_0000_0000_0000_0000
  const MaxInt64: int := TwoTo63 - 1

  /** Go's conversion `int(value)` of a 64-bit unsigned value: the low
      64 bits read as two's complement, so values above MaxInt64 wrap to
      negative numbers. */
  function UintToInt(u: nat): (r: int)
    ensures -TwoTo63 <= r <= MaxInt64
    ensures (r - u) % TwoTo64 == 0
    ensures u < TwoTo64 ==> (r < 0 <==> u > MaxInt64)
  {
    var low := u % TwoTo64;
    if low <= MaxInt64 then low else low - TwoTo64
  }

  /** `v2s`: the text a concatenation call prints for one value. `int64`
      passes through `strconv.FormatInt(value, 10)`, `uint64` through
      `strconv.FormatUint(value, 10)`, and every other integer kind through
      `strconv.Itoa` after `int(value)`; `FormatInt` and `Itoa` give the
      same text. */
  function ToText(v: Value): (r: string)
    ensures v.Nil? ==> r == ""
    ensures v.Bool? ==> (r == "true" <==> v.b) && (r == "false" <==> !v.b)
    ensures v.Str? ==> r == v.s
    ensures v.Opaque? ==> r == v.text
    ensures v.Signed? ==> IsCanonicalDecimal(r) && (r[0] == '-' <==> v.i < 0)
    ensures v.Unsigned? ==> IsCanonicalDecimal(r)
    ensures v.Unsigned? && v.uk != Uint ==> r[0] != '-'
  {
    match v
    case Nil => ""
    case Bool(b) => if b then "true" else "false"
    case Str(s) => s
    case Signed(_, i) => Itoa(i)
    case Unsigned(k, u) =>
      (match k
       case Uint => Itoa(UintToInt(u))
       case Uint64 => NatText(u)
       case _ => Itoa(u))
    case Opaque(text) => text
  }

  /** 2^(bits - 1) for a signed kind of that width. */
  function SignedLimit(k: SignedKind): int
  {
    match k
    case Int8 => 0x80
    case Int16 => 0x8000
    case Int32 => 0x8000_0000
    case _ => TwoTo63
  }

  /** 2^bits for an unsigned kind of that width. */
  function UnsignedLimit(k: UnsignedKind): int
  {
    match k
    case Uint8 => 0x100
    case Uint16 => 0x1_0000
    case Uint32 => 0x1_0000_0000
    case _ => TwoTo64
  }

  /** Go's integer kinds hold only the values of their width: two's
      complement for the signed kinds, 0 up to 2^bits - 1 for the unsigned
      ones. The `Value` datatype itself admits any integer. */
  predicate InKindRange(v: Value)
  {
    match v
    case Signed(k, i) => -SignedLimit(k) <= i < SignedLimit(k)
    case Unsigned(k, u) => u < UnsignedLimit(k)
    case _ => true
  }

  /** For the values a Go `uint` can hold, `int(value)` is the value itself
      up to MaxInt64 and the value minus 2^64 above it; every other
      in-range integer prints as its own value. */
  lemma InRangeIntegerText(v: Value)
    requires v.Signed? || v.Unsigned?
    requires InKindRange(v)
    ensures v.Signed? ==> ParseInt(ToText(v)) == Some(v.i)
    ensures v.Unsigned? && v.uk != Uint ==> ParseInt(ToText(v)) == Some(v.u)
    ensures v.Unsigned? && v.uk == Uint ==>
      ParseInt(ToText(v)) == Some(if v.u <= MaxInt64 then v.u else v.u - TwoTo64)
  {
    ToTextIntegerRoundTrip(v);
  }

  /** Integer text reads back as the integer's value; a `uint` reads back
      as its wrapped `int` value. */
  lemma ToTextIntegerRoundTrip(v: Value)
    requires v.Signed? || v.Unsigned?
    ensures v.Signed? ==> ParseInt(ToText(v)) == Some(v.i)
    ensures v.Unsigned? && v.uk != Uint ==> ParseInt(ToText(v)) == Some(v.u)
    ensures v.Unsigned? && v.uk == Uint ==> ParseInt(ToText(v)) == Some(UintToInt(v.u))
  {
    match v
    case Signed(_, i) => ItoaRoundTrip(i);
    case Unsigned(k, u) =>
      if k == Uint {
        ItoaRoundTrip(UintToInt(u));
      } else if k == Uint64 {
        NatTextRoundTrip(u);
      } else {
        ItoaRoundTrip(u);
      }
  }

  /** A `uint` above MaxInt64 prints as a negative number, while the same
      value as `uint64` prints unchanged. */
  lemma UintAboveMaxIntPrintsNegative(u: nat)
    requires MaxInt64 < u < TwoTo64
    ensures ToText(Unsigned(Uint, u))[0] == '-'
    ensures ToText(Unsigned(Uint64, u))[0] != '-'
  {
  }

  /** The largest `uint` prints "-1". */
  lemma LargestUintPrintsMinusOne()
    ensures ToText(Unsigned(Uint, TwoTo64 - 1)) == "-1"
  {
    assert UintToInt(TwoTo64 - 1) == -1;
    assert NatText(1) == "1";
  }

  /** The texts of a call's values, in order. */
  function Texts(vs: seq<Value>): seq<string>
  {
    seq(|vs|, k requires 0 <= k < |vs| => ToText(vs[k]))
  }

  /** The body of the first n + 1 values extends that of the first n. */
  lemma JoinValuesStep(vs: seq<Value>, n: nat)
    requires n < |vs|
    ensures JoinValues(vs[..n + 1]) == JoinValues(vs[..n]) + (if n > 0 then " " else "") + ToText(vs[n])
  {
    TextsPrefix(vs, n);
    JoinSnoc(Texts(vs[..n]), ToText(vs[n]), ' ');
  }

  lemma TextsPrefix(vs: seq<Value>, n: nat)
    requires n < |vs|
    ensures Texts(vs[..n + 1]) == Texts(vs[..n]) + [ToText(vs[n])]
  {
    var a := Texts(vs[..n + 1]);
    var b := Texts(vs[..n]) + [ToText(vs[n])];
    assert |a| == |b|;
    forall k | 0 <= k < |a|
      ensures a[k] == b[k]
    {
    }
  }

  /** The body of a concatenation call: the values' texts separated by
      single spaces. */
  function JoinValues(vs: seq<Value>): string
  {
    Join(Texts(vs), ' ')
  }

  /** The body of n values holds their texts and exactly n - 1 spaces
      between them, starting with the first text and ending with the last,
      so no space is written before the first text or after the last; no
      values give "". */
  lemma JoinValuesShape(vs: seq<Value>)
    ensures |vs| == 0 ==> JoinValues(vs) == ""
    ensures |vs| > 0 ==> |JoinValues(vs)| == TotalLength(Texts(vs)) + |vs| - 1
    ensures |vs| > 0 ==> ToText(vs[0]) <= JoinValues(vs)
    ensures |vs| > 0 ==> var r := JoinValues(vs);
      r[|r| - |ToText(vs[|vs| - 1])|..] == ToText(vs[|vs| - 1])
  {
    JoinShape(Texts(vs), ' ');
  }

  /** When no value's text holds a space, splitting the body at spaces
      gives back the texts one by one. */
  lemma JoinValuesSplits(vs: seq<Value>)
    requires |vs| > 0
    requires forall k :: 0 <= k < |vs| ==> ' ' !in ToText(vs[k])
    ensures Split(JoinValues(vs), ' ') == Texts(vs)
  {
    SplitJoin(Texts(vs), ' ');
  }

  /** The values "a", 1 and true join to "a 1 true". */
  lemma JoinValuesExample()
    ensures JoinValues([Str("a"), Signed(Int, 1), Bool(true)]) == "a 1 true"
  {
    TextsExample();
    JoinExample();
  }

  /** A value with empty text still gets its separating space: nil
      followed by "x" joins to " x". */
  lemma JoinValuesEmptyFirst()
    ensures JoinValues([Nil, Str("x")]) == " x"
  {
    var ts := Texts([Nil, Str("x")]);
    assert ts == [""] + ["x"];
    JoinSnoc([""], "x", ' ');
  }

  lemma TextsExample()
    ensures Texts([Str("a"), Signed(Int, 1), Bool(true)]) == ["a", "1", "true"]
  {
    assert ToText(Signed(Int, 1)) == "1";
  }

  lemma JoinExample()
    ensures Join(["a", "1", "true"], ' ') == "a 1 true"
  {
    assert ["a", "1", "true"] == ["a", "1"] + ["true"];
    assert ["a", "1"] == ["a"] + ["1"];
    JoinSnoc(["a"], "1", ' ');
    JoinSnoc(["a", "1"], "true", ' ');
  }

  /** `writeToBf`: appends the values' texts to a buffer, writing a space
      before every value but the first. */
  method WriteToBuffer(buf: string, vs: seq<Value>) returns (out: string)
    ensures out == buf + JoinValues(vs)
  {
    out := buf;
    var n := 0;
    while n < |vs|
      invariant 0 <= n <= |vs|
      invariant out == buf + JoinValues(vs[..n])
    {
      JoinValuesStep(vs, n);
      if n > 0 {
        out := out + " ";
      }
      out := out + ToText(vs[n]);
      n := n + 1;
    }
    assert vs[..n] == vs;
  }
}
