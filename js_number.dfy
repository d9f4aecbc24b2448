/**
 * The JavaScript number built-ins the screens rely on, on exact numbers:
 * `Math.round`, `parseInt(value, 10)` and the decimal rendering `String(n)`
 * of a non-negative integer.
 */
module JsNumber {
  import opened Wrappers

  /** `Math.round(x)`: the nearest integer, a tie going towards +infinity. */
  function Round(x: real): (r: int)
    ensures r as real - 0.5 <= x < r as real + 0.5
  {
    (x + 0.5).Floor
  }

  /** The white space and line terminators `parseInt` skips before the number. */
  predicate IsWhiteSpace(c: char)
  {
    c == ' ' || c == '\t' || c == '\n' || c == '\r' || c == '\U{000B}' || c == '\U{000C}'
    || c == '\U{00A0}' || c == '\U{1680}' || ('\U{2000}' <= c <= '\U{200A}')
    || c == '\U{2028}' || c == '\U{2029}' || c == '\U{202F}' || c == '\U{205F}'
    || c == '\U{3000}' || c == '\U{FEFF}'
  }

  predicate IsDigit(c: char)
  {
    '0' <= c <= '9'
  }

  function DigitValue(c: char): nat
    requires IsDigit(c)
  {
    c as int - '0' as int
  }

  function DigitChar(d: nat): (c: char)
    requires d < 10
    ensures IsDigit(c) && DigitValue(c) == d
  {
    ('0' as int + d) as char
  }

  /** Every character of `p` is white space. */
  predicate AllWhiteSpace(p: string)
  {
    forall i :: 0 <= i < |p| ==> IsWhiteSpace(p[i])
  }

  lemma AllWhiteSpaceCons(c: char, p: string)
    requires IsWhiteSpace(c) && AllWhiteSpace(p)
    ensures AllWhiteSpace([c] + p)
  {
    assert forall i :: 1 <= i < |p| + 1 ==> ([c] + p)[i] == p[i - 1];
  }

  /** Cutting `s` at `k` is the same as cutting its tail at `k - 1`. */
  lemma SplitAfterFirst<T>(s: seq<T>, k: nat)
    requires 1 <= k <= |s|
    ensures s[..k] == [s[0]] + s[1..][..k - 1]
    ensures s[k..] == s[1..][k - 1..]
  {
  }

  /** The input with its leading white space removed. */
  function TrimStart(s: string): (r: string)
    ensures |r| <= |s| && r == s[|s| - |r|..]
    ensures r == [] || !IsWhiteSpace(r[0])
    ensures AllWhiteSpace(s[..|s| - |r|])
    ensures s != [] && !IsWhiteSpace(s[0]) ==> r == s
  {
    if s != [] && IsWhiteSpace(s[0]) then
      var t := s[1..];
      var r := TrimStart(t);
      var k := |s| - |r|;
      SplitAfterFirst(s, k);
      assert |t| - |r| == k - 1;
      AllWhiteSpaceCons(s[0], t[..k - 1]);
      r
    else
      assert s[..0] == [];
      s
  }

  /** The longest prefix of `s` made of decimal digits. */
  function DigitPrefix(s: string): (r: string)
    ensures |r| <= |s| && r == s[..|r|]
    ensures forall i :: 0 <= i < |r| ==> IsDigit(r[i])
    ensures |r| == |s| || !IsDigit(s[|r|])
  {
    if s != [] && IsDigit(s[0]) then [s[0]] + DigitPrefix(s[1..]) else []
  }

  /** The value of a string of decimal digits, most significant first. */
  function DigitsValue(ds: string): nat
    requires forall i :: 0 <= i < |ds| ==> IsDigit(ds[i])
  {
    if ds == [] then 0 else DigitsValue(ds[..|ds| - 1]) * 10 + DigitValue(ds[|ds| - 1])
  }

  /**
   * `parseInt(s, 10)`: skip leading white space, read an optional sign and
   * then as many decimal digits as follow; NaN (here None) when there is no digit.
   * Whatever follows the digits is ignored.
   */
  function ParseInt(s: string): (r: Option<int>)
    ensures TrimStart(s) == [] ==> r.None?
  {
    ParseSigned(TrimStart(s))
  }

  /** The number at the start of `t`: an optional sign, then at least one digit. */
  function ParseSigned(t: string): (r: Option<int>)
    ensures r.None? <==> DigitPrefix(Unsigned(t)) == []
    ensures r.Some? && t[0] == '-' ==> r.value == -(DigitsValue(DigitPrefix(Unsigned(t))) as int)
    ensures r.Some? && t[0] != '-' ==> r.value == DigitsValue(DigitPrefix(Unsigned(t)))
  {
    var ds := DigitPrefix(Unsigned(t));
    if ds == [] then None
    else
      var v: int := DigitsValue(ds);
      if t[0] == '-' then Some(-v) else Some(v)
  }

  /** The text after an optional leading sign. */
  function Unsigned(t: string): (u: string)
    ensures t != [] && (t[0] == '-' || t[0] == '+') ==> u == t[1..]
    ensures t == [] || (t[0] != '-' && t[0] != '+') ==> u == t
  {
    if t != [] && (t[0] == '-' || t[0] == '+') then t[1..] else t
  }

  /** `String(n)` for a non-negative integer: its decimal digits, no leading zero. */
  function DecimalString(n: nat): (s: string)
    ensures s != [] && forall i :: 0 <= i < |s| ==> IsDigit(s[i])
    ensures n > 0 ==> s[0] != '0'
    ensures |s| > 1 ==> s[0] != '0'
  {
    if n < 10 then [DigitChar(n)] else DecimalString(n / 10) + [DigitChar(n % 10)]
  }

  lemma {:induction false} DecimalStringValue(n: nat)
    ensures DigitsValue(DecimalString(n)) == n
  {
    var s := DecimalString(n);
    if n >= 10 {
      assert s[..|s| - 1] == DecimalString(n / 10);
      DecimalStringValue(n / 10);
    }
  }

  /** White space before the number does not change what `parseInt` reads. */
  lemma ParseIntSkipsWhiteSpace(c: char, s: string)
    requires IsWhiteSpace(c)
    ensures ParseInt([c] + s) == ParseInt(s)
  {
  }

  /** Any run of white space before the number does not change what `parseInt` reads. */
  lemma {:induction false} ParseIntSkipsPadding(pad: string, s: string)
    requires AllWhiteSpace(pad)
    ensures ParseInt(pad + s) == ParseInt(s)
  {
    if pad != [] {
      assert pad + s == [pad[0]] + (pad[1..] + s);
      assert AllWhiteSpace(pad[1..]) by {
        assert forall i :: 0 <= i < |pad| - 1 ==> pad[1..][i] == pad[i + 1];
      }
      ParseIntSkipsWhiteSpace(pad[0], pad[1..] + s);
      ParseIntSkipsPadding(pad[1..], s);
    } else {
      assert pad + s == s;
    }
  }

  /** The longest digit prefix of digits followed by a non-digit is those digits. */
  lemma {:induction false} DigitPrefixStops(ds: string, rest: string)
    requires forall i :: 0 <= i < |ds| ==> IsDigit(ds[i])
    requires rest == [] || !IsDigit(rest[0])
    ensures DigitPrefix(ds + rest) == ds
  {
    if ds != [] {
      assert (ds + rest)[1..] == ds[1..] + rest;
      DigitPrefixStops(ds[1..], rest);
    } else {
      assert ds + rest == rest;
    }
  }

  /**
   * Parsing the decimal rendering of a non-negative integer gives that
   * integer back, whatever non-digit text follows it.
   */
  lemma ParseIntDecimalString(n: nat, rest: string)
    requires rest == [] || !IsDigit(rest[0])
    ensures ParseInt(DecimalString(n) + rest) == Some(n)
  {
    var s := DecimalString(n);
    assert (s + rest)[0] == s[0];
    assert !IsWhiteSpace(s[0]) && s[0] != '-' && s[0] != '+';
    DigitPrefixStops(s, rest);
    DecimalStringValue(n);
  }

  /** Text that does not start with white space is parsed as it stands. */
  lemma ParseIntUntrimmed(t: string)
    requires t != [] && !IsWhiteSpace(t[0])
    ensures ParseInt(t) == ParseSigned(t)
  {
  }

  lemma TailAfterFirst<T>(c: T, a: seq<T>, b: seq<T>)
    ensures ([c] + a + b)[0] == c && ([c] + a + b)[1..] == a + b
  {
  }

  /** After a minus sign, the digits read give the negated value. */
  lemma ParseIntMinus(t: string, ds: string)
    requires t != [] && t[0] == '-'
    requires ds != [] && DigitPrefix(t[1..]) == ds
    ensures ParseInt(t) == Some(-(DigitsValue(ds) as int))
  {
    ParseIntUntrimmed(t);
  }

  /** A minus sign, digits and then a non-digit read as the negated digits. */
  lemma ParseIntMinusDigits(ds: string, rest: string)
    requires ds != [] && forall i :: 0 <= i < |ds| ==> IsDigit(ds[i])
    requires rest == [] || !IsDigit(rest[0])
    ensures ParseInt(['-'] + ds + rest) == Some(-(DigitsValue(ds) as int))
  {
    TailAfterFirst('-', ds, rest);
    DigitPrefixStops(ds, rest);
    ParseIntMinus(['-'] + ds + rest, ds);
  }

  /** A minus sign before the decimal rendering of `n` reads as `-n`. */
  lemma ParseIntNegative(n: nat, rest: string)
    requires rest == [] || !IsDigit(rest[0])
    ensures ParseInt(['-'] + DecimalString(n) + rest) == Some(-(n as int))
  {
    DecimalStringValue(n);
    ParseIntMinusDigits(DecimalString(n), rest);
  }
}
