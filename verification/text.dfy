/** The small pieces of Go's `strings` and `strconv` packages the logger
    relies on: upper-casing a level name, base-10 integer text, and joining
    with a one-character separator. Each comes with an independent partner
    (a parser, a splitter) so that its result can be characterised. */
module Text {
  import opened Wrappers

  // ---------------------------------------------------------------------
  // Upper-casing (strings.ToUpper)
  // ---------------------------------------------------------------------

  /** Upper case of one rune. ASCII letters map to ASCII capitals; the two
      non-ASCII runes whose Unicode upper case is ASCII (dotless i and long
      s) map to 'I' and 'S'. Every other rune is kept: its upper case, if
      any, is non-ASCII and so never changes which level name matches. */
  function UpperChar(c: char): char
  {
    if 'a' <= c <= 'z' then (c as int - 32) as char
    else if c == '\U{0131}' then 'I'
    else if c == '\U{017F}' then 'S'
    else c
  }

  /** strings.ToUpper: upper-cases rune by rune, keeping the length. */
  function ToUpper(s: string): (r: string)
    ensures |r| == |s|
    ensures forall i :: 0 <= i < |s| ==> r[i] == UpperChar(s[i])
    ensures forall i :: 0 <= i < |r| ==> UpperChar(r[i]) == r[i]
  {
    if |s| == 0 then [] else [UpperChar(s[0])] + ToUpper(s[1..])
  }

  /** Upper-casing twice is upper-casing once. */
  lemma ToUpperIdempotent(s: string)
    ensures ToUpper(ToUpper(s)) == ToUpper(s)
  {
  }

  /** Two strings whose runes agree up to case upper-case to the same text. */
  lemma ToUpperEqualFold(x: string, y: string)
    requires |x| == |y|
    requires forall i :: 0 <= i < |x| ==> UpperChar(x[i]) == UpperChar(y[i])
    ensures ToUpper(x) == ToUpper(y)
  {
  }

  // ---------------------------------------------------------------------
  // Base-10 integer text (strconv.Itoa, FormatInt, FormatUint)
  // ---------------------------------------------------------------------

  predicate IsDigit(c: char) { '0' <= c <= '9' }

  predicate AllDigits(s: string) { forall i :: 0 <= i < |s| ==> IsDigit(s[i]) }

  function DigitChar(d: nat): (c: char)
    requires d < 10
    ensures IsDigit(c)
  {
    (48 + d) as char
  }

  function DigitValue(c: char): (d: nat)
    requires IsDigit(c)
    ensures d < 10
  {
    c as int - 48
  }

  /** Decimal digits of a natural number, most significant first. */
  function NatText(n: nat): (r: string)
    ensures |r| > 0
    ensures AllDigits(r)
    ensures r[0] == '0' <==> n == 0
    ensures n == 0 ==> r == "0"
  {
    if n < 10 then [DigitChar(n)] else NatText(n / 10) + [DigitChar(n % 10)]
  }

  /** Value of a string of decimal digits (the empty string reads as 0). */
  function ParseNat(s: string): nat
    requires AllDigits(s)
  {
    if |s| == 0 then 0 else ParseNat(s[..|s| - 1]) * 10 + DigitValue(s[|s| - 1])
  }

  lemma {:induction false} NatTextRoundTrip(n: nat)
    ensures ParseNat(NatText(n)) == n
  {
    if n >= 10 {
      var t := NatText(n / 10);
      var r := t + [DigitChar(n % 10)];
      assert r[..|r| - 1] == t;
      NatTextRoundTrip(n / 10);
    }
  }

  /** Canonical decimal text: an optional '-', then digits with no leading
      zero, and no "-0". */
  predicate IsCanonicalDecimal(s: string)
  {
    if |s| > 0 && s[0] == '-' then
      |s| > 1 && AllDigits(s[1..]) && s[1] != '0'
    else
      |s| > 0 && AllDigits(s) && (s[0] == '0' ==> s == "0")
  }

  /** strconv.Itoa and strconv.FormatInt(_, 10). */
  function Itoa(i: int): (r: string)
    ensures IsCanonicalDecimal(r)
    ensures r[0] == '-' <==> i < 0
  {
    if i < 0 then "-" + NatText(-i) else NatText(i)
  }

  /** Reads canonical or non-canonical decimal text back; None when the
      text is not an optional '-' followed by at least one digit. */
  function ParseInt(s: string): Option<int>
  {
    if |s| > 0 && s[0] == '-' then
      if |s| > 1 && AllDigits(s[1..]) then Some(-(ParseNat(s[1..]) as int)) else None
    else if |s| > 0 && AllDigits(s) then Some(ParseNat(s))
    else None
  }

  lemma ItoaRoundTrip(i: int)
    ensures ParseInt(Itoa(i)) == Some(i)
  {
    if i < 0 {
      NatTextRoundTrip(-i);
      assert Itoa(i)[1..] == NatText(-i);
    } else {
      NatTextRoundTrip(i);
    }
  }

  /** Different integers have different text. */
  lemma ItoaInjective(i: int, j: int)
    requires Itoa(i) == Itoa(j)
    ensures i == j
  {
    ItoaRoundTrip(i);
    ItoaRoundTrip(j);
  }

  // ---------------------------------------------------------------------
  // Bytes read as a string (Go's string(p))
  // ---------------------------------------------------------------------

  /** Go's `byte`. */
  type Byte = x: int | 0 <= x < 0x100

  /** Go's `string(p)` for a byte slice: a Go string is a sequence of bytes,
      so the conversion keeps every byte, valid UTF-8 or not. A string built
      from raw bytes carries each byte as the character with the same code. */
  function BytesText(p: seq<Byte>): (r: string)
    ensures |r| == |p|
    ensures forall i :: 0 <= i < |r| ==> r[i] as int < 0x100
  {
    seq(|p|, i requires 0 <= i < |p| => p[i] as char)
  }

  /** The bytes a string of byte-sized characters stands for. */
  function TextBytes(s: string): (p: seq<Byte>)
    requires forall i :: 0 <= i < |s| ==> s[i] as int < 0x100
    ensures |p| == |s|
  {
    seq(|s|, i requires 0 <= i < |s| => s[i] as int)
  }

  /** Reading bytes as a string loses nothing: the bytes can be read back. */
  lemma BytesTextRoundTrip(p: seq<Byte>)
    ensures TextBytes(BytesText(p)) == p
  {
    var r := TextBytes(BytesText(p));
    assert |r| == |p|;
    forall i | 0 <= i < |p|
      ensures r[i] == p[i]
    {
    }
  }

  // ---------------------------------------------------------------------
  // Joining and splitting on a one-character separator
  // ---------------------------------------------------------------------

  function TotalLength(parts: seq<string>): nat
  {
    if |parts| == 0 then 0 else TotalLength(parts[..|parts| - 1]) + |parts[|parts| - 1]|
  }

  /** The parts with exactly one separator between neighbours: none before
      the first part, none after the last, and "" for no parts. */
  function Join(parts: seq<string>, sep: char): string
  {
    if |parts| == 0 then []
    else if |parts| == 1 then parts[0]
    else Join(parts[..|parts| - 1], sep) + [sep] + parts[|parts| - 1]
  }

  /** A join is as long as its parts plus one separator per gap, begins
      with the first part and ends with the last, so no separator comes
      before the first part or after the last (an empty first or last part
      still lets the join begin or end with a separator); no parts join to
      "". */
  lemma {:induction false} JoinShape(parts: seq<string>, sep: char)
    ensures |parts| == 0 ==> Join(parts, sep) == []
    ensures |parts| > 0 ==> |Join(parts, sep)| == TotalLength(parts) + |parts| - 1
    ensures |parts| > 0 ==> parts[0] <= Join(parts, sep)
    ensures |parts| > 0 ==> var r := Join(parts, sep);
      r[|r| - |parts[|parts| - 1]|..] == parts[|parts| - 1]
  {
    if |parts| > 1 {
      var init := parts[..|parts| - 1];
      JoinShape(init, sep);
      assert init[0] == parts[0];
    }
  }

  /** Appending one part adds a separator only when parts were already there. */
  lemma JoinSnoc(parts: seq<string>, last: string, sep: char)
    ensures Join(parts + [last], sep) == if |parts| == 0 then last else Join(parts, sep) + [sep] + last
  {
    assert (parts + [last])[..|parts|] == parts;
  }

  function Count(s: string, c: char): nat
  {
    if |s| == 0 then 0 else Count(s[..|s| - 1], c) + (if s[|s| - 1] == c then 1 else 0)
  }

  /** The fields of `s` between occurrences of `sep` (strings.Split). */
  function Split(s: string, sep: char): (r: seq<string>)
    ensures |r| == Count(s, sep) + 1
    ensures forall k :: 0 <= k < |r| ==> sep !in r[k]
  {
    if |s| == 0 then [[]]
    else
      var init := Split(s[..|s| - 1], sep);
      var c := s[|s| - 1];
      if c == sep then init + [[]]
      else init[..|init| - 1] + [init[|init| - 1] + [c]]
  }

  lemma {:induction false} SplitNoSeparator(s: string, sep: char)
    requires sep !in s
    ensures Split(s, sep) == [s]
  {
    if |s| > 0 {
      SplitNoSeparator(s[..|s| - 1], sep);
      assert s[..|s| - 1] + [s[|s| - 1]] == s;
    }
  }

  lemma {:induction false} SplitAppendField(a: string, sep: char, b: string)
    requires sep !in b
    ensures Split(a + [sep] + b, sep) == Split(a, sep) + [b]
  {
    var s := a + [sep] + b;
    if |b| == 0 {
      assert s[..|s| - 1] == a;
    } else {
      var b' := b[..|b| - 1];
      assert s[..|s| - 1] == a + [sep] + b';
      SplitAppendField(a, sep, b');
      assert b' + [b[|b| - 1]] == b;
    }
  }

  /** Splitting undoes joining when no part contains the separator. */
  lemma {:induction false} SplitJoin(parts: seq<string>, sep: char)
    requires |parts| > 0
    requires forall k :: 0 <= k < |parts| ==> sep !in parts[k]
    ensures Split(Join(parts, sep), sep) == parts
  {
    if |parts| == 1 {
      SplitNoSeparator(parts[0], sep);
    } else {
      var init := parts[..|parts| - 1];
      SplitJoin(init, sep);
      SplitAppendField(Join(init, sep), sep, parts[|parts| - 1]);
      assert init + [parts[|parts| - 1]] == parts;
    }
  }

  /** Joining is injective on separator-free parts. */
  lemma JoinInjective(xs: seq<string>, ys: seq<string>, sep: char)
    requires |xs| > 0 && |ys| > 0
    requires forall k :: 0 <= k < |xs| ==> sep !in xs[k]
    requires forall k :: 0 <= k < |ys| ==> sep !in ys[k]
    requires Join(xs, sep) == Join(ys, sep)
    ensures xs == ys
  {
    SplitJoin(xs, sep);
    SplitJoin(ys, sep);
  }
}
