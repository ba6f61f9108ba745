/** The two number conversions the pages rely on: the global `parseInt` with no
    radix argument (ClassDetails reads its route parameter with it) and the
    decimal form of an integer that a template literal produces (the timetable
    builds the detail page's path with it). `None` stands for `NaN`. */
module JsNumber {
  import opened Wrappers

  /** ECMAScript StrWhiteSpaceChar: the WhiteSpace and LineTerminator code points. */
  predicate IsStrWhiteSpace(c: char)
  {
    c == '\t' || c == '\U{000B}' || c == '\U{000C}' || c == ' ' || c == '\U{00A0}' || c == '\U{FEFF}'
    || c == '\U{1680}' || ('\U{2000}' <= c <= '\U{200A}') || c == '\U{202F}' || c == '\U{205F}'
    || c == '\U{3000}' || c == '\n' || c == '\r' || c == '\U{2028}' || c == '\U{2029}'
  }

  /** Drops the leading white space of `s`. */
  function TrimStart(s: string): (r: string)
    ensures |r| <= |s| && r == s[|s| - |r|..]
    ensures r == [] || !IsStrWhiteSpace(r[0])
  {
    if s != [] && IsStrWhiteSpace(s[0]) then TrimStart(s[1..]) else s
  }

  /** The value of `c` as a digit in any radix up to 36 (letters in either case), or -1. */
  function DigitValue(c: char): (v: int)
    ensures -1 <= v < 36
  {
    if '0' <= c <= '9' then c as int - '0' as int
    else if 'a' <= c <= 'z' then c as int - 'a' as int + 10
    else if 'A' <= c <= 'Z' then c as int - 'A' as int + 10
    else -1
  }

  predicate IsDigit(c: char, radix: nat)
  {
    0 <= DigitValue(c) < radix
  }

  /** The longest prefix of `s` made of digits of the given radix. */
  function DigitPrefix(s: string, radix: nat): (z: string)
    ensures |z| <= |s| && z == s[..|z|]
    ensures forall i :: 0 <= i < |z| ==> IsDigit(z[i], radix)
    ensures |z| < |s| ==> !IsDigit(s[|z|], radix)
  {
    if s != [] && IsDigit(s[0], radix) then [s[0]] + DigitPrefix(s[1..], radix) else []
  }

  /** The value of a digit string, most significant digit first. */
  function DigitsValue(ds: string, radix: nat): int
    requires forall i :: 0 <= i < |ds| ==> IsDigit(ds[i], radix)
  {
    if ds == [] then 0
    else DigitsValue(ds[..|ds| - 1], radix) * radix + DigitValue(ds[|ds| - 1])
  }

  /** `parseInt(s)`: skip leading white space, take an optional sign, then an optional
      `0x`/`0X` prefix that selects radix 16 (radix 10 otherwise), then the longest run of
      digits; no digit at all gives `NaN`. */
  function ParseInt(s: string): Option<int>
  {
    ParseTrimmed(TrimStart(s))
  }

  /** What `parseInt` does once the leading white space is gone: an optional sign. */
  function ParseTrimmed(t: string): Option<int>
  {
    var negative := t != [] && t[0] == '-';
    var u := if t != [] && (t[0] == '-' || t[0] == '+') then t[1..] else t;
    match ParseMagnitude(u)
    case None => None
    case Some(v) => Some(if negative then -v else v)
  }

  /** What `parseInt` does after the sign: an optional hexadecimal prefix, then the digits. */
  function ParseMagnitude(u: string): Option<int>
  {
    var hex := |u| >= 2 && u[0] == '0' && (u[1] == 'x' || u[1] == 'X');
    var radix := if hex then 16 else 10;
    var z := DigitPrefix(if hex then u[2..] else u, radix);
    if z == [] then None else Some(DigitsValue(z, radix))
  }

  /** The decimal digit for `d`. */
  function DecimalDigit(d: int): (c: char)
    requires 0 <= d < 10
    ensures IsDigit(c, 10) && DigitValue(c) == d
  {
    (d + '0' as int) as char
  }

  /** The decimal numeral of `n`, without leading zeros. */
  function NatToDecimal(n: nat): (s: string)
    ensures s != [] && forall i :: 0 <= i < |s| ==> IsDigit(s[i], 10)
    ensures |s| > 1 ==> s[0] != '0'
    ensures DigitsValue(s, 10) == n
  {
    if n < 10 then [DecimalDigit(n)]
    else
      var s := NatToDecimal(n / 10) + [DecimalDigit(n % 10)];
      assert s[..|s| - 1] == NatToDecimal(n / 10);
      s
  }

  /** `${n}` for an integer `n`: a minus sign for negative numbers, then the decimal numeral. */
  function IntToString(n: int): (s: string)
    ensures s != [] && (s[0] == '-' || IsDigit(s[0], 10))
  {
    if n < 0 then "-" + NatToDecimal(-n) else NatToDecimal(n)
  }

  /** Leading white space never changes what `parseInt` reads. */
  lemma {:induction false} ParseIntSkipsWhiteSpace(ws: string, s: string)
    requires forall i :: 0 <= i < |ws| ==> IsStrWhiteSpace(ws[i])
    ensures ParseInt(ws + s) == ParseInt(s)
  {
    TrimStartSkips(ws, s);
  }

  lemma {:induction false} TrimStartSkips(ws: string, s: string)
    requires forall i :: 0 <= i < |ws| ==> IsStrWhiteSpace(ws[i])
    ensures TrimStart(ws + s) == TrimStart(s)
  {
    if ws != [] {
      assert (ws + s)[0] == ws[0] && IsStrWhiteSpace(ws[0]);
      assert TrimStart(ws + s) == TrimStart((ws + s)[1..]);
      assert (ws + s)[1..] == ws[1..] + s;
      TrimStartSkips(ws[1..], s);
    } else {
      assert ws + s == s;
    }
  }

  lemma {:induction false} DigitPrefixStops(ds: string, rest: string, radix: nat)
    requires forall i :: 0 <= i < |ds| ==> IsDigit(ds[i], radix)
    requires rest == [] || !IsDigit(rest[0], radix)
    ensures DigitPrefix(ds + rest, radix) == ds
  {
    if ds != [] {
      assert (ds + rest)[1..] == ds[1..] + rest;
      DigitPrefixStops(ds[1..], rest, radix);
    }
  }

  lemma SignOrDigitIsNotWhiteSpace(c: char)
    requires c == '-' || IsDigit(c, 10)
    ensures !IsStrWhiteSpace(c)
  {
  }

  lemma {:induction false} MagnitudeOfDecimal(m: nat, rest: string)
    requires rest == [] || (!IsDigit(rest[0], 10) && (m == 0 ==> rest[0] != 'x' && rest[0] != 'X'))
    ensures ParseMagnitude(NatToDecimal(m) + rest) == Some(m)
  {
    var ds := NatToDecimal(m);
    var u := ds + rest;
    DigitPrefixStops(ds, rest, 10);
    if |u| >= 2 && u[0] == '0' {
      assert |ds| == 1;
      assert m == 0;
      assert u[1] == rest[0];
    }
  }

  lemma {:induction false} ParseNonNegative(m: nat, rest: string)
    requires rest == [] || (!IsDigit(rest[0], 10) && (m == 0 ==> rest[0] != 'x' && rest[0] != 'X'))
    ensures ParseInt(NatToDecimal(m) + rest) == Some(m)
  {
    var s := NatToDecimal(m) + rest;
    SignOrDigitIsNotWhiteSpace(s[0]);
    assert TrimStart(s) == s;
    MagnitudeOfDecimal(m, rest);
  }

  lemma {:induction false} ParseNegative(m: nat, rest: string)
    requires rest == [] || (!IsDigit(rest[0], 10) && (m == 0 ==> rest[0] != 'x' && rest[0] != 'X'))
    ensures ParseInt("-" + (NatToDecimal(m) + rest)) == Some(-(m as int))
  {
    var u := NatToDecimal(m) + rest;
    var s := "-" + u;
    assert s[0] == '-' && s[1..] == u;
    SignOrDigitIsNotWhiteSpace(s[0]);
    assert TrimStart(s) == s;
    MagnitudeOfDecimal(m, rest);
    assert ParseTrimmed(s) == Some(-(m as int));
  }

  /** `parseInt` reads back the decimal form of every integer, whatever follows it,
      as long as what follows neither continues the numeral nor, after the numeral `0`,
      makes a `0x` prefix. */
  lemma {:induction false} ParseIntOfDecimal(n: int, rest: string)
    requires rest == [] || (!IsDigit(rest[0], 10) && (n == 0 ==> rest[0] != 'x' && rest[0] != 'X'))
    ensures ParseInt(IntToString(n) + rest) == Some(n)
  {
    var s := IntToString(n) + rest;
    if n < 0 {
      var m: nat := -n;
      var t := "-" + (NatToDecimal(m) + rest);
      assert s == t;
      ParseNegative(m, rest);
      assert ParseInt(t) == Some(n);
    } else {
      var m: nat := n;
      var t := NatToDecimal(m) + rest;
      assert s == t;
      ParseNonNegative(m, rest);
      assert ParseInt(t) == Some(n);
    }
  }

  /** `parseInt` reads back the decimal form of every integer. */
  lemma {:induction false} ParseIntRoundTrip(n: int)
    ensures ParseInt(IntToString(n)) == Some(n)
  {
    ParseIntOfDecimal(n, []);
    assert IntToString(n) + [] == IntToString(n);
  }
}
