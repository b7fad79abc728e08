// The C string handling the firmware relies on: decimal printing (printf %i,
// Serial.print), the subset of sscanf the command parsers use, strncmp
// prefixes, strchr and strtok. Bytes are modelled as characters.
module Text {
  import opened Common

  predicate IsDigit(c: char) { '0' <= c <= '9' }

  predicate IsSpace(c: char)
  {
    c == ' ' || c == '\t' || c == '\n' || c == '\r' || c == '\U{B}' || c == '\U{C}'
  }

  predicate AllDigits(s: string) { forall i :: 0 <= i < |s| ==> IsDigit(s[i]) }

  function DigitValue(c: char): (d: nat)
    requires IsDigit(c)
    ensures d < 10
  { (c as int) - 48 }

  function DigitChar(d: nat): (c: char)
    requires d < 10
    ensures IsDigit(c) && DigitValue(c) == d
  { (48 + d) as char }

  /** Decimal text of a natural number, most significant digit first. */
  function NatToDec(n: nat): (s: string)
    ensures |s| >= 1 && AllDigits(s)
    decreases n
  {
    if n < 10 then [DigitChar(n)] else NatToDec(n / 10) + [DigitChar(n % 10)]
  }

  /** Decimal text of an integer, with a leading '-' when negative. */
  function IntToDec(x: int): (s: string)
    ensures |s| >= 1 && (IsDigit(s[0]) || s[0] == '-')
  {
    if x < 0 then "-" + NatToDec(-x) else NatToDec(x)
  }

  /** The number a string of digits denotes. */
  function DecValue(s: string): nat
    requires AllDigits(s)
    decreases |s|
  {
    if s == [] then 0 else 10 * DecValue(s[..|s| - 1]) + DigitValue(s[|s| - 1])
  }

  lemma {:induction false} DecValueOfNatToDec(n: nat)
    ensures DecValue(NatToDec(n)) == n
    decreases n
  {
    if n >= 10 {
      var s := NatToDec(n);
      assert s[..|s| - 1] == NatToDec(n / 10);
      DecValueOfNatToDec(n / 10);
    }
  }

  /** Length of the leading run of digits. */
  function DigitRun(s: string): (k: nat)
    ensures k <= |s|
    ensures forall i :: 0 <= i < k ==> IsDigit(s[i])
    ensures k < |s| ==> !IsDigit(s[k])
    decreases |s|
  {
    if s != [] && IsDigit(s[0]) then 1 + DigitRun(s[1..]) else 0
  }

  /** Length of the leading run of white space. */
  function SpaceRun(s: string): (k: nat)
    ensures k <= |s|
    ensures forall i :: 0 <= i < k ==> IsSpace(s[i])
    ensures k < |s| ==> !IsSpace(s[k])
    decreases |s|
  {
    if s != [] && IsSpace(s[0]) then 1 + SpaceRun(s[1..]) else 0
  }

  predicate NotDigitStart(s: string) { s == [] || !IsDigit(s[0]) }

  lemma {:induction false} DigitRunOfDigits(d: string, rest: string)
    requires AllDigits(d) && NotDigitStart(rest)
    ensures DigitRun(d + rest) == |d|
    decreases |d|
  {
    if d != [] {
      assert (d + rest)[1..] == d[1..] + rest;
      DigitRunOfDigits(d[1..], rest);
    }
  }

  datatype Parsed = Parsed(value: int, rest: string)

  /**
   * strtol / strtoul on decimal text: leading white space is skipped, one
   * optional sign is taken, and at least one digit must follow.
   */
  function ParseInteger(s: string): (r: Option<Parsed>)
    ensures r.Some? ==> |r.value.rest| < |s|
    ensures r.Some? ==> exists k :: 0 <= k < |s| && IsDigit(s[k])
  {
    var t := s[SpaceRun(s)..];
    var signed := |t| > 0 && (t[0] == '-' || t[0] == '+');
    var u := if signed then t[1..] else t;
    var k := DigitRun(u);
    if k == 0 then None
    else
      assert IsDigit(u[0]) && u[0] == s[|s| - |u|];
      var magnitude: int := DecValue(u[..k]);
      Some(Parsed(if signed && t[0] == '-' then -magnitude else magnitude, u[k..]))
  }

  /** Printing an integer and parsing it back gives the integer and the text after it. */
  lemma {:induction false} ParseIntegerOfDec(x: int, rest: string)
    requires NotDigitStart(rest)
    ensures ParseInteger(IntToDec(x) + rest) == Some(Parsed(x, rest))
  {
    var d := NatToDec(Abs(x));
    DecValueOfNatToDec(Abs(x));
    if x < 0 {
      assert IntToDec(x) + rest == "-" + (d + rest);
      ParseSigned(d, rest);
      assert -(DecValue(d) as int) == x;
    } else {
      assert IntToDec(x) == d;
      ParseUnsigned(d, rest);
    }
  }

  /** A minus sign, digits and a non-digit tail parse as the negated digits. */
  lemma ParseSigned(d: string, rest: string)
    requires d != [] && AllDigits(d) && NotDigitStart(rest)
    ensures ParseInteger("-" + (d + rest)) == Some(Parsed(-(DecValue(d) as int), rest))
  {
    var s := "-" + (d + rest);
    assert SpaceRun(s) == 0;
    assert s[0..] == s;
    assert s[1..] == d + rest;
    ParseDigits(d, rest);
  }

  /** Digits and a non-digit tail parse as the digits. */
  lemma ParseUnsigned(d: string, rest: string)
    requires d != [] && AllDigits(d) && NotDigitStart(rest)
    ensures ParseInteger(d + rest) == Some(Parsed(DecValue(d), rest))
  {
    var s := d + rest;
    assert IsDigit(s[0]);
    assert SpaceRun(s) == 0;
    assert s[0..] == s;
    ParseDigits(d, rest);
  }

  /** The digits and the text after them, as ParseInteger splits them. */
  lemma ParseDigits(d: string, rest: string)
    requires AllDigits(d) && NotDigitStart(rest)
    ensures DigitRun(d + rest) == |d| && (d + rest)[..|d|] == d && (d + rest)[|d|..] == rest
  {
    DigitRunOfDigits(d, rest);
    assert (d + rest)[..|d|] == d;
  }

  // ---------------------------------------------------------------------------
  // sscanf

  /** The conversions the firmware uses: %hhi/%hhd, %hhu and %d/%i. */
  datatype Conv = Int8Conv | Uint8Conv | Int32Conv

  /** A format string: literal text and conversions. */
  datatype Piece = Lit(text: string) | Num(conv: Conv)

  /**
   * The value stored for a parsed number: strtol saturates at the 32-bit long
   * range and the store into a char truncates; strtoul saturates at ULONG_MAX
   * and negates negative input modulo 2^32.
   */
  function Convert(c: Conv, v: int): (r: int)
    ensures c == Int8Conv ==> -128 <= r < 128
    ensures c == Uint8Conv ==> 0 <= r < 256
    ensures c == Int32Conv ==> IsInt32(r)
  {
    match c
    case Int8Conv => WrapInt8(Saturate32(v))
    case Uint8Conv => if Abs(v) > 0xFFFF_FFFF then 255 else WrapUint8(v)
    case Int32Conv => Saturate32(v)
  }

  function NumCount(fmt: seq<Piece>): nat
    decreases |fmt|
  {
    if fmt == [] then 0 else (if fmt[0].Num? then 1 else 0) + NumCount(fmt[1..])
  }

  /**
   * sscanf: the values of the conversions that succeeded, in order. Literal text
   * must match exactly; the first mismatch or failed conversion ends the scan.
   * The return value of sscanf is the length of the result (an early end of input,
   * which sscanf reports as EOF, also yields fewer values than conversions).
   */
  function Scan(s: string, fmt: seq<Piece>): (vals: seq<int>)
    ensures |vals| <= NumCount(fmt)
    decreases |fmt|
  {
    if fmt == [] then []
    else match fmt[0]
      case Lit(t) => if t <= s then Scan(s[|t|..], fmt[1..]) else []
      case Num(c) =>
        match ParseInteger(s)
        case None => []
        case Some(p) => [Convert(c, p.value)] + Scan(p.rest, fmt[1..])
  }

  /** printf of a format with the given values (decimal conversions). */
  function Render(fmt: seq<Piece>, vals: seq<int>): string
    decreases |fmt|
  {
    if fmt == [] then ""
    else match fmt[0]
      case Lit(t) => t + Render(fmt[1..], vals)
      case Num(_) => if vals == [] then "" else IntToDec(vals[0]) + Render(fmt[1..], vals[1..])
  }

  /** Every conversion is followed by the end of the format or by a non-digit literal. */
  predicate WellSeparated(fmt: seq<Piece>)
  {
    forall i :: 0 <= i < |fmt| - 1 && fmt[i].Num? ==>
      fmt[i + 1].Lit? && fmt[i + 1].text != [] && !IsDigit(fmt[i + 1].text[0])
  }

  /** One value per conversion, each within the range its conversion stores. */
  predicate Representable(fmt: seq<Piece>, vals: seq<int>)
    decreases |fmt|
  {
    if fmt == [] then vals == []
    else if fmt[0].Lit? then Representable(fmt[1..], vals)
    else vals != [] && Convert(fmt[0].conv, vals[0]) == vals[0] && Representable(fmt[1..], vals[1..])
  }

  lemma {:induction false} RenderStartsWithLit(fmt: seq<Piece>, vals: seq<int>)
    requires fmt != [] && fmt[0].Lit?
    ensures fmt[0].text <= Render(fmt, vals)
  {
  }

  lemma {:induction false} WellSeparatedTail(fmt: seq<Piece>)
    requires fmt != [] && WellSeparated(fmt)
    ensures WellSeparated(fmt[1..])
  {
    var rest := fmt[1..];
    forall i | 0 <= i < |rest| - 1 && rest[i].Num?
      ensures rest[i + 1].Lit? && rest[i + 1].text != [] && !IsDigit(rest[i + 1].text[0])
    {
      assert fmt[i + 1] == rest[i] && fmt[i + 2] == rest[i + 1];
    }
  }

  lemma {:induction false} ScanLitStep(fmt: seq<Piece>, vals: seq<int>, tail: string)
    requires fmt != [] && fmt[0].Lit?
    ensures Scan(Render(fmt, vals) + tail, fmt) == Scan(Render(fmt[1..], vals) + tail, fmt[1..])
  {
    var t := fmt[0].text;
    var r := Render(fmt[1..], vals) + tail;
    assert Render(fmt, vals) + tail == t + r;
    assert t <= t + r && (t + r)[|t|..] == r;
  }

  lemma {:induction false} ScanNumStep(fmt: seq<Piece>, vals: seq<int>, tail: string)
    requires fmt != [] && fmt[0].Num? && vals != [] && Convert(fmt[0].conv, vals[0]) == vals[0]
    requires NotDigitStart(Render(fmt[1..], vals[1..]) + tail)
    ensures Scan(Render(fmt, vals) + tail, fmt) == [vals[0]] + Scan(Render(fmt[1..], vals[1..]) + tail, fmt[1..])
  {
    var r := Render(fmt[1..], vals[1..]) + tail;
    assert Render(fmt, vals) + tail == IntToDec(vals[0]) + r;
    ParseIntegerOfDec(vals[0], r);
  }

  /** sscanf reads back exactly the values printf wrote with the same format. */
  lemma {:induction false} ScanRender(fmt: seq<Piece>, vals: seq<int>, tail: string)
    requires WellSeparated(fmt) && Representable(fmt, vals)
    requires fmt == [] || fmt[|fmt| - 1].Lit? || NotDigitStart(tail)
    ensures Scan(Render(fmt, vals) + tail, fmt) == vals
    decreases |fmt|
  {
    if fmt != [] {
      WellSeparatedTail(fmt);
      if fmt[0].Lit? {
        ScanLitStep(fmt, vals, tail);
        ScanRender(fmt[1..], vals, tail);
      } else {
        if fmt[1..] != [] {
          RenderStartsWithLit(fmt[1..], vals[1..]);
        }
        ScanNumStep(fmt, vals, tail);
        ScanRender(fmt[1..], vals[1..], tail);
      }
    }
  }

  // ---------------------------------------------------------------------------
  // C strings

  /** The C string a buffer holds: everything before the first NUL. */
  function CStr(s: string): (r: string)
    ensures r <= s && '\0' !in r
    ensures |r| < |s| ==> s[|r|] == '\0'
    ensures '\0' !in s ==> r == s
    decreases |s|
  {
    if s == [] || s[0] == '\0' then [] else [s[0]] + CStr(s[1..])
  }

  /** strchr: the first position of `c`. */
  function Find(s: string, c: char): (r: Option<nat>)
    ensures r.Some? ==> r.value < |s| && s[r.value] == c && c !in s[..r.value]
    ensures r.None? ==> c !in s
    decreases |s|
  {
    if s == [] then None
    else if s[0] == c then Some(0)
    else match Find(s[1..], c)
      case None => None
      case Some(k) => assert s[..k + 1] == [s[0]] + s[1..][..k]; Some(k + 1)
  }

  /** Position of the first `c`, or the length when there is none. */
  function Until(s: string, c: char): (k: nat)
    ensures k <= |s| && c !in s[..k]
    ensures k < |s| ==> s[k] == c
  {
    match Find(s, c) case None => assert s[..|s|] == s; |s| case Some(k) => k
  }

  /** strtok: the maximal non-empty runs of characters other than `sep`. */
  function Tokens(s: string, sep: char): (ts: seq<string>)
    ensures forall i :: 0 <= i < |ts| ==> ts[i] != [] && sep !in ts[i]
    decreases |s|
  {
    if s == [] then []
    else if s[0] == sep then Tokens(s[1..], sep)
    else
      var k := Until(s, sep);
      [s[..k]] + Tokens(s[k..], sep)
  }

  /** The pieces joined with one separator between neighbours. */
  function Join(ts: seq<string>, sep: char): string
    decreases |ts|
  {
    if ts == [] then [] else if |ts| == 1 then ts[0] else ts[0] + [sep] + Join(ts[1..], sep)
  }

  predicate Tokenizable(ts: seq<string>, sep: char)
  {
    forall i :: 0 <= i < |ts| ==> ts[i] != [] && sep !in ts[i]
  }

  lemma {:induction false} UntilOfPrefix(t: string, more: string, sep: char)
    requires sep !in t && (more == [] || more[0] == sep)
    ensures Until(t + more, sep) == |t|
  {
    var s := t + more;
    assert s[..|t|] == t;
    if more != [] {
      assert s[|t|] == sep;
    }
  }

  /** Splitting joined non-empty, separator-free pieces gives the pieces back. */
  lemma {:induction false} TokensOfJoin(ts: seq<string>, sep: char)
    requires Tokenizable(ts, sep)
    ensures Tokens(Join(ts, sep), sep) == ts
    decreases |ts|
  {
    if ts != [] {
      var s := Join(ts, sep);
      if |ts| == 1 {
        UntilOfPrefix(ts[0], [], sep);
        assert s == ts[0] + [];
        assert s[|ts[0]|..] == [];
      } else {
        var more := [sep] + Join(ts[1..], sep);
        assert s == ts[0] + more;
        UntilOfPrefix(ts[0], more, sep);
        assert s[..|ts[0]|] == ts[0];
        assert s[|ts[0]|..] == more;
        assert more[1..] == Join(ts[1..], sep);
        TokensOfJoin(ts[1..], sep);
      }
    }
  }
}
