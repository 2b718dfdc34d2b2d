/**
 * The string operations of Python's `str` that the password code relies on:
 * `lower()`, `strip()`, `startswith` (the regex anchor `^`) and substring
 * search. Letter case is ASCII only; whitespace is the full set Python's
 * `str.isspace` accepts, less four control characters where `int()` strips.
 */
module Text {

  predicate IsAsciiLower(c: char) { 'a' <= c <= 'z' }

  predicate IsAsciiUpper(c: char) { 'A' <= c <= 'Z' }

  predicate IsAsciiDigit(c: char) { '0' <= c <= '9' }

  /** The characters for which Python's `str.isspace()` holds. */
  predicate IsSpace(c: char) {
    ('\t' <= c <= '\r') || ('\U{1C}' <= c <= ' ') || c == '\U{85}' || c == '\U{A0}' || c == '\U{1680}'
    || ('\U{2000}' <= c <= '\U{200A}') || c == '\U{2028}' || c == '\U{2029}' || c == '\U{202F}'
    || c == '\U{205F}' || c == '\U{3000}'
  }

  /**
   * The whitespace a strip removes. `str.strip()` removes every `str.isspace`
   * character. `int()` skips the same ones around a number except U+001C to
   * U+001F: CPython maps non-ASCII whitespace to a space and then skips only
   * tab, line feed, vertical tab, form feed, carriage return and space.
   */
  datatype Whitespace = StripSpace | IntSpace {
    predicate Has(c: char) {
      IsSpace(c) && (this == StripSpace || !('\U{1C}' <= c <= '\U{1F}'))
    }

    predicate All(s: string) {
      forall i :: 0 <= i < |s| ==> Has(s[i])
    }
  }

  function LowerChar(c: char): (r: char)
    ensures IsAsciiUpper(c) ==> IsAsciiLower(r) && r as int == c as int + 32
    ensures !IsAsciiUpper(c) ==> r == c
  {
    if IsAsciiUpper(c) then (c as int + 32) as char else c
  }

  /** `s.lower()`, restricted to ASCII letters. */
  function Lower(s: string): (r: string)
    ensures |r| == |s|
  {
    seq(|s|, i requires 0 <= i < |s| => LowerChar(s[i]))
  }

  /** `s.lstrip()` for the whitespace `ws`. */
  function LStrip(s: string, ws: Whitespace): (r: string)
    ensures |r| <= |s|
  {
    if |s| > 0 && ws.Has(s[0]) then LStrip(s[1..], ws) else s
  }

  /** `s.rstrip()` for the whitespace `ws`. */
  function RStrip(s: string, ws: Whitespace): (r: string)
    ensures |r| <= |s|
  {
    if |s| > 0 && ws.Has(s[|s| - 1]) then RStrip(s[..|s| - 1], ws) else s
  }

  /** `s.strip()` for the whitespace `ws`. */
  function Strip(s: string, ws: Whitespace): string {
    RStrip(LStrip(s, ws), ws)
  }

  /** `s.startswith(p)`, also what the regex `^p` finds for a literal `p`. */
  predicate StartsWith(s: string, p: string) {
    |p| <= |s| && s[..|p|] == p
  }

  /** `p in s`, also what `re.search(p, s)` finds for a literal `p`. */
  predicate Contains(s: string, p: string) {
    exists i :: 0 <= i <= |s| - |p| && OccursAt(s, p, i)
  }

  /** `p` occurs in `s` starting at index `i`. */
  predicate OccursAt(s: string, p: string, i: int) {
    0 <= i && i + |p| <= |s| && s[i..i + |p|] == p
  }

  lemma LowerIdempotent(s: string)
    ensures Lower(Lower(s)) == Lower(s)
  {
  }

  lemma LowerAppend(a: string, b: string)
    ensures Lower(a + b) == Lower(a) + Lower(b)
  {
  }

  lemma LowerAllSpace(w: string, ws: Whitespace)
    requires ws.All(w)
    ensures Lower(w) == w
  {
  }

  lemma {:induction false} LStripAllSpace(w: string, ws: Whitespace)
    requires ws.All(w)
    ensures LStrip(w, ws) == []
  {
    if |w| > 0 {
      LStripAllSpace(w[1..], ws);
    }
  }

  /** Leading whitespace is dropped whatever follows it. */
  lemma {:induction false} LStripSpacePrefix(w: string, s: string, ws: Whitespace)
    requires ws.All(w)
    ensures LStrip(w + s, ws) == LStrip(s, ws)
  {
    if |w| > 0 {
      assert (w + s)[1..] == w[1..] + s;
      LStripSpacePrefix(w[1..], s, ws);
    } else {
      assert w + s == s;
    }
  }

  /** Trailing whitespace is dropped whatever precedes it. */
  lemma {:induction false} RStripSpaceSuffix(s: string, w: string, ws: Whitespace)
    requires ws.All(w)
    ensures RStrip(s + w, ws) == RStrip(s, ws)
  {
    if |w| > 0 {
      assert (s + w)[..|s + w| - 1] == s + w[..|w| - 1];
      RStripSpaceSuffix(s, w[..|w| - 1], ws);
    } else {
      assert s + w == s;
    }
  }

  /** Left-stripping a string with a non-space character leaves what follows it untouched. */
  lemma {:induction false} LStripAppend(s: string, t: string, ws: Whitespace)
    requires !ws.All(s)
    ensures LStrip(s + t, ws) == LStrip(s, ws) + t
  {
    assert |s| > 0;
    if ws.Has(s[0]) {
      assert (s + t)[1..] == s[1..] + t;
      LStripAppend(s[1..], t, ws);
    }
  }

  /** Right-stripping keeps a first character that is not whitespace. */
  lemma {:induction false} RStripKeepsHead(s: string, ws: Whitespace)
    requires |s| > 0 && !ws.Has(s[0])
    ensures |RStrip(s, ws)| > 0 && RStrip(s, ws)[0] == s[0]
  {
    if ws.Has(s[|s| - 1]) {
      RStripKeepsHead(s[..|s| - 1], ws);
    }
  }

  /** Left-stripping keeps a last character that is not whitespace. */
  lemma {:induction false} LStripKeepsLast(s: string, ws: Whitespace)
    requires |s| > 0 && !ws.Has(s[|s| - 1])
    ensures |LStrip(s, ws)| > 0 && LStrip(s, ws)[|LStrip(s, ws)| - 1] == s[|s| - 1]
  {
    if ws.Has(s[0]) {
      LStripKeepsLast(s[1..], ws);
    }
  }

  /** `strip()` ignores any whitespace added on either side. */
  lemma StripSurrounding(w1: string, s: string, w2: string, ws: Whitespace)
    requires ws.All(w1) && ws.All(w2)
    ensures Strip(w1 + s + w2, ws) == Strip(s, ws)
  {
    assert w1 + s + w2 == w1 + (s + w2);
    LStripSpacePrefix(w1, s + w2, ws);
    if ws.All(s) {
      assert ws.All(s + w2);
      LStripAllSpace(s + w2, ws);
      LStripAllSpace(s, ws);
    } else {
      LStripAppend(s, w2, ws);
      RStripSpaceSuffix(LStrip(s, ws), w2, ws);
    }
  }
}
