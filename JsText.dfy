/**
 * The three pieces of JavaScript's standard library whose exact behaviour the
 * controller depends on: `parseInt` with its radix omitted (used on the
 * rate-limit headers), the conversion of an integral Number to its decimal
 * text (used in the rate-limited message), and `Array.prototype.join` (used on
 * the provider's error list).
 */
module JsText {
  import opened Wrappers

  /** The characters `parseInt` skips before the number: WhiteSpace and LineTerminator. */
  predicate IsWhiteSpace(c: char) {
    || c == '\t' || c == '\n' || c == '\U{000B}' || c == '\U{000C}' || c == '\r'
    || c == ' ' || c == '\U{00A0}' || c == '\U{1680}' || ('\U{2000}' <= c <= '\U{200A}')
    || c == '\U{2028}' || c == '\U{2029}' || c == '\U{202F}' || c == '\U{205F}'
    || c == '\U{3000}' || c == '\U{FEFF}'
  }

  predicate IsDecimalDigit(c: char) {
    '0' <= c <= '9'
  }

  /** `s` without its leading white space. */
  function TrimStart(s: string): (t: string)
    ensures |t| <= |s| && t == s[|s| - |t|..]
    ensures t == [] || !IsWhiteSpace(t[0])
    ensures forall i :: 0 <= i < |s| - |t| ==> IsWhiteSpace(s[i])
  {
    if |s| > 0 && IsWhiteSpace(s[0]) then TrimStart(s[1..]) else s
  }

  /** The value of a digit character in radices up to 36 (letters of either case). */
  function DigitValue(c: char): (d: Option<nat>)
    ensures d.Some? ==> d.value < 36
    ensures IsDecimalDigit(c) ==> d == Some(c as int - '0' as int)
  {
    if '0' <= c <= '9' then Some(c as int - '0' as int)
    else if 'a' <= c <= 'z' then Some(c as int - 'a' as int + 10)
    else if 'A' <= c <= 'Z' then Some(c as int - 'A' as int + 10)
    else None
  }

  predicate IsDigitIn(c: char, radix: nat) {
    DigitValue(c).Some? && DigitValue(c).value < radix
  }

  /** The longest prefix of `s` made of digits of `radix`. */
  function DigitRun(s: string, radix: nat): (z: string)
    ensures |z| <= |s| && z == s[..|z|]
    ensures forall i :: 0 <= i < |z| ==> IsDigitIn(z[i], radix)
    ensures |z| < |s| ==> !IsDigitIn(s[|z|], radix)
  {
    if |s| > 0 && IsDigitIn(s[0], radix) then [s[0]] + DigitRun(s[1..], radix) else []
  }

  /** The number a string of `radix` digits denotes, most significant digit first. */
  function ValueOf(z: string, radix: nat): nat {
    if z == [] then 0
    else
      var high: nat := ValueOf(z[..|z| - 1], radix);
      var low: nat := DigitValue(z[|z| - 1]).GetOr(0);
      high * radix + low
  }

  /**
   * The digits `parseInt` reads once white space and sign are gone: a `0x` or
   * `0X` prefix selects radix 16, otherwise radix 10, and the number is the
   * longest run of digits that follows; without any digit the result is NaN.
   */
  function ParseUnsigned(u: string): Option<nat> {
    var hex := |u| >= 2 && u[0] == '0' && (u[1] == 'x' || u[1] == 'X');
    var radix := if hex then 16 else 10;
    var z := DigitRun(if hex then u[2..] else u, radix);
    if z == [] then None else Some(ValueOf(z, radix))
  }

  /** What `parseInt` reads after the white space: one optional sign, then the digits. */
  function ParseSigned(t: string): (r: Option<int>)
    ensures r.Some? ==> |t| > 0
    ensures r.Some? && r.value < 0 ==> t[0] == '-'
  {
    var negative := |t| > 0 && t[0] == '-';
    var u := if |t| > 0 && (t[0] == '-' || t[0] == '+') then t[1..] else t;
    match ParseUnsigned(u)
    case None => None
    case Some(v) =>
      var w: int := v;
      Some(if negative then -w else w)
  }

  /**
   * `parseInt(s)` with no radix argument; `None` is NaN. Leading white space is
   * skipped and one sign is accepted before the digits. The sign of a zero
   * result is not modelled (-0 and 0 are both 0).
   */
  function ParseInt(s: string): (r: Option<int>)
    ensures r.Some? ==> |TrimStart(s)| > 0
    ensures r.Some? && r.value < 0 ==> TrimStart(s)[0] == '-'
  {
    ParseSigned(TrimStart(s))
  }

  function DigitChar(d: nat): (c: char)
    requires d < 10
    ensures IsDecimalDigit(c) && DigitValue(c) == Some(d)
  {
    ('0' as int + d) as char
  }

  /** The decimal text of a natural number, without leading zeros. */
  function NatToString(n: nat): (s: string)
    ensures |s| >= 1
    ensures forall i :: 0 <= i < |s| ==> IsDecimalDigit(s[i])
    ensures (s[0] == '0') == (n == 0)
    ensures n == 0 ==> s == "0"
  {
    if n < 10 then [DigitChar(n)] else NatToString(n / 10) + [DigitChar(n % 10)]
  }

  /** The text a template literal produces for an integral Number. */
  function IntToString(n: int): (t: string)
    ensures |t| >= 1 && (t[0] == '-' <==> n < 0)
    ensures forall i :: (if n < 0 then 1 else 0) <= i < |t| ==> IsDecimalDigit(t[i])
  {
    if n < 0 then "-" + NatToString(-n) else NatToString(n)
  }

  /** `parts.join(sep)`. */
  function Join(parts: seq<string>, sep: string): (r: string)
    ensures parts == [] ==> r == ""
    ensures |parts| > 0 ==> parts[0] <= r
    ensures |parts| > 1 ==> |r| >= |parts[0]| + |sep|
  {
    if |parts| == 0 then ""
    else if |parts| == 1 then parts[0]
    else parts[0] + sep + Join(parts[1..], sep)
  }

  /** Text that ends a number for `parseInt`: nothing more, or a character that is no digit and no `x`. */
  predicate EndsNumber(rest: string) {
    rest == [] || (!IsDecimalDigit(rest[0]) && rest[0] != 'x' && rest[0] != 'X')
  }

  lemma {:induction false} ValueOfNatToString(n: nat)
    ensures ValueOf(NatToString(n), 10) == n
  {
    var s := NatToString(n);
    if n >= 10 {
      assert s[..|s| - 1] == NatToString(n / 10);
      ValueOfNatToString(n / 10);
    }
  }

  lemma {:induction false} DigitRunStops(z: string, rest: string, radix: nat)
    requires forall i :: 0 <= i < |z| ==> IsDigitIn(z[i], radix)
    requires rest == [] || !IsDigitIn(rest[0], radix)
    ensures DigitRun(z + rest, radix) == z
  {
    if z != [] {
      assert (z + rest)[1..] == z[1..] + rest;
      DigitRunStops(z[1..], rest, radix);
    }
  }

  lemma ParseUnsignedOfNatToString(m: nat, rest: string)
    requires EndsNumber(rest)
    ensures ParseUnsigned(NatToString(m) + rest) == Some(m)
  {
    var d := NatToString(m);
    var u := d + rest;
    assert u[0] == d[0];
    assert !(|u| >= 2 && u[0] == '0' && (u[1] == 'x' || u[1] == 'X')) by {
      if m == 0 {
        assert |u| >= 2 ==> u[1] == rest[0];
      }
    }
    assert rest == [] || !IsDigitIn(rest[0], 10);
    DigitRunStops(d, rest, 10);
    assert DigitRun(u, 10) == d;
    ValueOfNatToString(m);
    assert ValueOf(d, 10) == m;
  }

  lemma ParseIntOfSigned(s: string, negative: bool, u: string, v: nat)
    requires s == (if negative then "-" else "") + u
    requires |u| > 0 && IsDecimalDigit(u[0])
    requires ParseUnsigned(u) == Some(v)
    ensures ParseInt(s) == Some(if negative then -(v as int) else v as int)
  {
    if negative {
      assert s[0] == '-' && s[1..] == u;
    } else {
      assert s == u && IsDecimalDigit(s[0]);
    }
    TrimStartStops(s);
    assert ParseSigned(s) == Some(if negative then -(v as int) else v as int);
  }

  lemma TrimStartStops(s: string)
    requires |s| > 0 && (s[0] == '-' || IsDecimalDigit(s[0]))
    ensures TrimStart(s) == s
  {
    assert !IsWhiteSpace(s[0]);
  }

  function Abs(n: int): nat {
    if n < 0 then -n else n
  }

  lemma IntToStringSplit(n: int, rest: string)
    ensures IntToString(n) + rest == (if n < 0 then "-" else "") + (NatToString(Abs(n)) + rest)
    ensures IsDecimalDigit((NatToString(Abs(n)) + rest)[0])
  {
  }

  /** Reading back the text of an integer, followed by text that ends the number, gives the integer. */
  lemma ParseIntOfIntToString(n: int, rest: string)
    requires EndsNumber(rest)
    ensures ParseInt(IntToString(n) + rest) == Some(n)
  {
    IntToStringSplit(n, rest);
    ParseUnsignedOfNatToString(Abs(n), rest);
    ParseIntOfSigned(IntToString(n) + rest, n < 0, NatToString(Abs(n)) + rest, Abs(n));
  }

  /** The text of an integer reads back as that integer. */
  lemma IntToStringRoundTrip(n: int)
    ensures ParseInt(IntToString(n)) == Some(n)
  {
    ParseIntOfIntToString(n, "");
    assert IntToString(n) + "" == IntToString(n);
  }

  /** A join is empty exactly when there is nothing to join or a single empty part. */
  lemma JoinEmptyIff(parts: seq<string>, sep: string)
    requires sep != ""
    ensures Join(parts, sep) == "" <==> parts == [] || parts == [""]
  {
  }
}
