/**
 * The JavaScript string and number semantics the hydration pipeline leans on: loose equality
 * between a card attribute and a numeric id, `parseInt(x, 10)`, `String.prototype.indexOf`,
 * `trim`, truthiness and `||` on optional strings.
 *
 * Text is `seq<char>`; every position counts one character, which is one UTF-16 code unit for
 * text in the Basic Multilingual Plane (U+FFFC, the object replacement character, included).
 */
module Js {
  import opened Wrappers

  /** A JSON scalar from a card payload: attributes declared as strings may arrive as numbers. */
  datatype Scalar = Num(n: int) | Str(s: string)

  predicate IsDigit(c: char) { '0' <= c <= '9' }

  predicate AllDigits(s: string) { forall i | 0 <= i < |s| :: IsDigit(s[i]) }

  /** The WhiteSpace and LineTerminator code points that `String.prototype.trim` strips. */
  predicate IsSpace(c: char) {
    c == '\t' || c == '\n' || c == '\U{B}' || c == '\U{C}' || c == '\r' || c == ' '
    || c == '\U{A0}' || c == '\U{1680}' || ('\U{2000}' <= c <= '\U{200A}')
    || c == '\U{2028}' || c == '\U{2029}' || c == '\U{202F}' || c == '\U{205F}'
    || c == '\U{3000}' || c == '\U{FEFF}'
  }

  function DigitValue(c: char): nat
    requires IsDigit(c)
  {
    (c as int) - ('0' as int)
  }

  function DigitChar(d: nat): (c: char)
    requires d < 10
    ensures IsDigit(c) && DigitValue(c) == d
  {
    (('0' as int) + d) as char
  }

  /** The value of a run of decimal digits, most significant first. */
  function DigitsValue(s: string): nat
    requires AllDigits(s)
  {
    if s == [] then 0 else DigitsValue(s[..|s| - 1]) * 10 + DigitValue(s[|s| - 1])
  }

  /** The shortest decimal numeral of `n`. */
  function NatToDigits(n: nat): (r: string)
    ensures |r| > 0 && AllDigits(r)
    ensures DigitsValue(r) == n
    ensures n >= 10 ==> r[0] != '0'
  {
    if n < 10 then [DigitChar(n)]
    else
      var r := NatToDigits(n / 10) + [DigitChar(n % 10)];
      assert r[..|r| - 1] == NatToDigits(n / 10);
      r
  }

  /** `String(n)` for an integer `n`. */
  function IntToString(n: int): (r: string)
    ensures |r| > 0
    ensures n >= 0 ==> AllDigits(r) && DigitsValue(r) == n
    ensures n < 0 ==> r[0] == '-' && AllDigits(r[1..]) && DigitsValue(r[1..]) == -n
  {
    if n < 0 then "-" + NatToDigits(-n) else NatToDigits(n)
  }

  /** The longest prefix of `s` made of decimal digits. */
  function DigitPrefix(s: string): (r: string)
    ensures |r| <= |s| && r == s[..|r|] && AllDigits(r)
    ensures |r| == |s| || !IsDigit(s[|r|])
  {
    if s == [] || !IsDigit(s[0]) then []
    else
      var t := DigitPrefix(s[1..]);
      assert s[1..][..|t|] == s[1..|t| + 1];
      [s[0]] + t
  }

  /** `s` without its leading whitespace. */
  function TrimStart(s: string): (r: string)
    ensures |r| <= |s| && r == s[|s| - |r|..]
    ensures forall k | 0 <= k < |s| - |r| :: IsSpace(s[k])
    ensures r == [] || !IsSpace(r[0])
  {
    if s != [] && IsSpace(s[0]) then TrimStart(s[1..]) else s
  }

  /** `s` without its trailing whitespace. */
  function TrimEnd(s: string): (r: string)
    ensures |r| <= |s| && r == s[..|r|]
    ensures forall k | |r| <= k < |s| :: IsSpace(s[k])
    ensures r == [] || !IsSpace(r[|r| - 1])
  {
    if s != [] && IsSpace(s[|s| - 1]) then TrimEnd(s[..|s| - 1]) else s
  }

  /** `String.prototype.trim`. */
  function Trim(s: string): string {
    TrimEnd(TrimStart(s))
  }

  /** Splits an optional leading sign off a numeral: the sign's factor and the rest. */
  function SplitSign(t: string): (int, string) {
    if |t| > 0 && t[0] == '-' then (-1, t[1..])
    else if |t| > 0 && t[0] == '+' then (1, t[1..])
    else (1, t)
  }

  /**
   * `parseInt(s, 10)` on a string: leading whitespace, an optional sign, then the longest run
   * of decimal digits; `None` stands for NaN (no digit at all).
   */
  function ParseIntString(s: string): Option<int> {
    var (sign, rest) := SplitSign(TrimStart(s));
    var digits := DigitPrefix(rest);
    if digits == [] then None else Some(sign * DigitsValue(digits))
  }

  /** `parseInt(x, 10)` on a card attribute; a number is first turned into its numeral. */
  function ParseInt(x: Scalar): Option<int> {
    match x
    case Num(n) => Some(n)
    case Str(s) => ParseIntString(s)
  }

  /**
   * `Number(s)` restricted to decimal integer literals: surrounding whitespace is ignored, the
   * empty string is 0, anything else that is not an optionally signed digit run is NaN (`None`).
   */
  function ToNumber(s: string): Option<int> {
    var t := Trim(s);
    if t == [] then Some(0)
    else
      var (sign, rest) := SplitSign(t);
      if rest != [] && AllDigits(rest) then Some(sign * DigitsValue(rest)) else None
  }

  /** `x == n` with JavaScript's loose equality, `n` a number. */
  predicate LooseEquals(x: Scalar, n: int) {
    match x
    case Num(m) => m == n
    case Str(s) => ToNumber(s) == Some(n)
  }

  predicate OccursAt(hay: string, needle: string, j: nat) {
    j + |needle| <= |hay| && hay[j..j + |needle|] == needle
  }

  /** `hay.indexOf(needle, from)`, with `None` for -1. */
  function IndexOfFrom(hay: string, needle: string, from: nat): (r: Option<nat>)
    requires from <= |hay|
    decreases |hay| - from
    ensures r.Some? ==> from <= r.value && OccursAt(hay, needle, r.value)
    ensures r.Some? ==> forall j | from <= j < r.value :: !OccursAt(hay, needle, j)
    ensures r.None? ==> forall j | from <= j <= |hay| :: !OccursAt(hay, needle, j)
  {
    if OccursAt(hay, needle, from) then Some(from)
    else if from == |hay| then None
    else IndexOfFrom(hay, needle, from + 1)
  }

  /** `hay.indexOf(needle)`. */
  function IndexOf(hay: string, needle: string): Option<nat> {
    IndexOfFrom(hay, needle, 0)
  }

  predicate StartsWith(s: string, prefix: string) {
    |prefix| <= |s| && s[..|prefix|] == prefix
  }

  predicate EndsWith(s: string, suffix: string) {
    |suffix| <= |s| && s[|s| - |suffix|..] == suffix
  }

  /** A string in a boolean context: null, undefined and "" are false. */
  predicate Truthy(s: Option<string>) {
    s.Some? && s.value != ""
  }

  /** `a || b` on two optional strings. */
  function OrElse(a: Option<string>, b: Option<string>): (r: Option<string>)
    ensures Truthy(a) ==> r == a
    ensures !Truthy(a) ==> r == b
  {
    if Truthy(a) then a else b
  }

  /** `String.prototype.toLowerCase` on ASCII letters. */
  function AsciiLower(s: string): (r: string)
    ensures |r| == |s|
    ensures forall i | 0 <= i < |s| ::
      r[i] == if 'A' <= s[i] <= 'Z' then (s[i] as int + 32) as char else s[i]
  {
    seq(|s|, i requires 0 <= i < |s| => if 'A' <= s[i] <= 'Z' then (s[i] as int + 32) as char else s[i])
  }

  // ---------------------------------------------------------------------------------------
  // Round trips between numerals and numbers

  lemma {:induction false} DigitsValueOfDigitPrefix(s: string)
    requires AllDigits(s)
    ensures DigitPrefix(s) == s
  {
    if s != [] {
      DigitsValueOfDigitPrefix(s[1..]);
    }
  }

  lemma {:induction false} NumeralHasNoSpace(s: string)
    requires |s| > 0 && (IsDigit(s[0]) || s[0] == '-')
    ensures TrimStart(s) == s
  {
  }

  /** `parseInt(String(n), 10) == n`: the ids the pipeline writes as strings read back as themselves. */
  lemma ParseIntOfIntToString(n: int)
    ensures ParseIntString(IntToString(n)) == Some(n)
  {
    var s := IntToString(n);
    NumeralHasNoSpace(s);
    if n < 0 {
      assert SplitSign(s) == (-1, s[1..]);
      DigitsValueOfDigitPrefix(s[1..]);
    } else {
      assert SplitSign(s) == (1, s);
      DigitsValueOfDigitPrefix(s);
    }
  }

  lemma {:induction false} TrimEndOfNumeral(s: string)
    requires |s| > 0 && IsDigit(s[|s| - 1])
    ensures TrimEnd(s) == s
  {
  }

  /** `String(n) == n` under loose equality. */
  lemma LooseEqualsIntToString(n: int)
    ensures LooseEquals(Str(IntToString(n)), n)
  {
    var s := IntToString(n);
    NumeralHasNoSpace(s);
    assert IsDigit(s[|s| - 1]);
    TrimEndOfNumeral(s);
    assert Trim(s) == s;
    if n < 0 {
      assert SplitSign(s) == (-1, s[1..]);
    } else {
      assert SplitSign(s) == (1, s);
    }
  }

  /** `hay.indexOf(prefix) === 0` holds exactly when `hay` starts with `prefix`. */
  lemma IndexOfZeroIffPrefix(hay: string, prefix: string)
    ensures IndexOf(hay, prefix) == Some(0) <==> StartsWith(hay, prefix)
  {
  }
}
