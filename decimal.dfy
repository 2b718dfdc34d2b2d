/**
 * Decimal text for integers: `str(n)` and the ASCII part of the grammar that
 * Python's `int(text)` accepts (surrounding whitespace as `int` skips it, an
 * optional sign, digits with single underscores between them), with the
 * 4300-digit limit CPython 3.11 and later put on the conversion by default.
 */
module Decimal {
  import opened Wrappers
  import opened Text

  function DigitChar(d: nat): (c: char)
    requires d < 10
    ensures IsAsciiDigit(c)
  {
    ('0' as int + d) as char
  }

  function DigitValue(c: char): (d: nat)
    requires IsAsciiDigit(c)
    ensures d < 10 && DigitChar(d) == c
  {
    c as int - '0' as int
  }

  predicate AllDigits(s: string) {
    forall i :: 0 <= i < |s| ==> IsAsciiDigit(s[i])
  }

  /** `str(n)` for a non-negative `n`. */
  function NatToString(n: nat): (s: string)
    ensures |s| > 0 && AllDigits(s)
  {
    if n < 10 then [DigitChar(n)] else NatToString(n / 10) + [DigitChar(n % 10)]
  }

  /** `str(n)`. */
  function IntToString(n: int): (s: string)
    ensures |s| > 0 && IsAsciiDigit(s[|s| - 1])
    ensures n < 0 <==> s[0] == '-'
    ensures n >= 0 ==> AllDigits(s)
  {
    if n < 0 then "-" + NatToString(-n) else NatToString(n)
  }

  /** The number a string of decimal digits denotes, most significant first. */
  function ValueOf(s: string): nat
    requires AllDigits(s)
  {
    if s == [] then 0 else ValueOf(s[..|s| - 1]) * 10 + DigitValue(s[|s| - 1])
  }

  /** Digits, optionally grouped by single underscores, starting and ending with a digit. */
  predicate WellFormedDigits(t: string) {
    |t| > 0 && IsAsciiDigit(t[0]) && IsAsciiDigit(t[|t| - 1])
    && (forall i :: 0 <= i < |t| ==> IsAsciiDigit(t[i]) || t[i] == '_')
    && (forall i :: 0 <= i < |t| - 1 ==> t[i] == '_' ==> t[i + 1] != '_')
  }

  function DropUnderscores(t: string): (r: string)
    ensures (forall i :: 0 <= i < |t| ==> IsAsciiDigit(t[i]) || t[i] == '_') ==> AllDigits(r)
  {
    if t == [] then []
    else (if t[0] == '_' then [] else [t[0]]) + DropUnderscores(t[1..])
  }

  /** The default of `sys.get_int_max_str_digits()`: `int` refuses more digits than this. */
  const MaxStrDigits: nat := 4300

  function ParseDigits(t: string): Option<nat> {
    if WellFormedDigits(t) && |DropUnderscores(t)| <= MaxStrDigits then Some(ValueOf(DropUnderscores(t)))
    else None
  }

  /** `int(s)`: `None` where Python raises `ValueError`. */
  function ParseInt(s: string): Option<int> {
    var t := Strip(s, IntSpace);
    if |t| > 0 && (t[0] == '+' || t[0] == '-') then
      match ParseDigits(t[1..])
      case Some(n) => Some(if t[0] == '-' then -(n as int) else n)
      case None => None
    else
      ParseDigits(t)
  }

  /** `int` ignores the whitespace it skips around the number. */
  lemma ParseIntSurrounding(w1: string, s: string, w2: string)
    requires IntSpace.All(w1) && IntSpace.All(w2)
    ensures ParseInt(w1 + s + w2) == ParseInt(s)
  {
    StripSurrounding(w1, s, w2, IntSpace);
  }

  /** `int` rejects a number that starts or ends with one of U+001C to U+001F, which `str.strip` would remove. */
  lemma ParseIntKeepsSeparators(c: char, s: string)
    requires '\U{1C}' <= c <= '\U{1F}'
    ensures ParseInt([c] + s) == None
    ensures ParseInt(s + [c]) == None
  {
    assert LStrip([c] + s, IntSpace) == [c] + s;
    RStripKeepsHead([c] + s, IntSpace);
    assert RStrip(s + [c], IntSpace) == s + [c];
    LStripKeepsLast(s + [c], IntSpace);
  }

  lemma {:induction false} ValueOfNatToString(n: nat)
    ensures ValueOf(NatToString(n)) == n
  {
    var s := NatToString(n);
    if n >= 10 {
      assert s[..|s| - 1] == NatToString(n / 10);
      ValueOfNatToString(n / 10);
    } else {
      assert s[..|s| - 1] == [];
    }
  }

  lemma {:induction false} DropNoUnderscores(t: string)
    requires AllDigits(t)
    ensures DropUnderscores(t) == t
  {
    if t != [] {
      DropNoUnderscores(t[1..]);
    }
  }

  lemma ParseNatToString(n: nat)
    requires |NatToString(n)| <= MaxStrDigits
    ensures ParseDigits(NatToString(n)) == Some(n)
  {
    var s := NatToString(n);
    assert WellFormedDigits(s);
    DropNoUnderscores(s);
    ValueOfNatToString(n);
  }

  /**
   * `int(str(n)) == n` for every `n` that `str` can print: `str` raises the
   * same `ValueError` beyond `MaxStrDigits` digits.
   */
  lemma ParseIntToString(n: int)
    requires |NatToString(if n < 0 then -n else n)| <= MaxStrDigits
    ensures ParseInt(IntToString(n)) == Some(n)
  {
    var s := IntToString(n);
    assert Strip(s, IntSpace) == s by {
      assert !IntSpace.Has(s[0]);
      assert !IntSpace.Has(s[|s| - 1]);
    }
    if n < 0 {
      assert s[1..] == NatToString(-n);
      ParseNatToString(-n);
    } else {
      ParseNatToString(n);
    }
  }

  /** Distinct integers print differently. */
  lemma IntToStringInjective(a: int, b: int)
    requires IntToString(a) == IntToString(b)
    ensures a == b
  {
    var s := IntToString(a);
    if a < 0 {
      assert s[1..] == NatToString(-a) == NatToString(-b);
      ValueOfNatToString(-a);
      ValueOfNatToString(-b);
    } else {
      ValueOfNatToString(a);
      ValueOfNatToString(b);
    }
  }

  /** `int` refuses a run of more than `MaxStrDigits` digits, whatever its value. */
  lemma ParseTooManyDigits(t: string)
    requires AllDigits(t) && |t| > MaxStrDigits
    ensures ParseInt(t) == None
  {
    assert Strip(t, IntSpace) == t by {
      assert !IntSpace.Has(t[0]);
      assert !IntSpace.Has(t[|t| - 1]);
    }
    DropNoUnderscores(t);
  }
}
