/**
 * The password generator. `secrets.choice` and `SystemRandom().shuffle` are
 * modelled as nondeterministic choices (`:|`): every proof below holds
 * whichever character or swap index the random source picks.
 */
module Generator {
  import opened Wrappers
  import opened CharClasses

  /** The `ValueError`s `generate_password` raises. */
  datatype GenError =
    | LengthBelowOne                                   // "Lenght must be atleast 1"
    | NoCategoryChosen                                 // "No category chosen"
    | TooShortForCategories(length: int, needed: nat)  // "The length {length} is to short for ... ({needed}) ..."

  /** `[s]` when the category is enabled, else nothing. */
  function IfEnabled(enabled: bool, s: string): seq<string> {
    if enabled then [s] else []
  }

  /** The class strings of the enabled categories, in the order lowercase, uppercase, digits, symbols. */
  function EnabledClasses(useUpper: bool, useLower: bool, useDigits: bool, useSymbols: bool): seq<string> {
    IfEnabled(useLower, AsciiLowercase) + IfEnabled(useUpper, AsciiUppercase)
    + IfEnabled(useDigits, Digits) + IfEnabled(useSymbols, GeneratorSymbols)
  }

  /** The number of enabled categories, so of mandatory characters. */
  function CategoryCount(useUpper: bool, useLower: bool, useDigits: bool, useSymbols: bool): nat {
    |EnabledClasses(useUpper, useLower, useDigits, useSymbols)|
  }

  function Concat(parts: seq<string>): string {
    if parts == [] then "" else parts[0] + Concat(parts[1..])
  }

  /** The charset `build_charset` returns: the enabled class strings, concatenated in canonical order. */
  function Charset(useUpper: bool, useLower: bool, useDigits: bool, useSymbols: bool): string {
    Concat(EnabledClasses(useUpper, useLower, useDigits, useSymbols))
  }

  /** `m` holds one character of each class of `classes`, position by position. */
  predicate OneFromEach(m: seq<char>, classes: seq<string>) {
    |m| == |classes| && forall k :: 0 <= k < |m| ==> m[k] in classes[k]
  }

  /** `build_charset`: grows the charset one enabled category at a time. */
  method BuildCharset(useUpper: bool := true, useLower: bool := true, useDigits: bool := true,
                      useSymbols: bool := true) returns (charset: string)
    ensures charset == Charset(useUpper, useLower, useDigits, useSymbols)
  {
    ghost var parts: seq<string> := [];
    charset := "";
    if useLower {
      ConcatAppend(parts, AsciiLowercase);
      charset, parts := charset + AsciiLowercase, parts + [AsciiLowercase];
    }
    assert charset == Concat(parts) && parts == IfEnabled(useLower, AsciiLowercase);
    if useUpper {
      ConcatAppend(parts, AsciiUppercase);
      charset, parts := charset + AsciiUppercase, parts + [AsciiUppercase];
    }
    assert charset == Concat(parts);
    assert parts == IfEnabled(useLower, AsciiLowercase) + IfEnabled(useUpper, AsciiUppercase);
    if useDigits {
      ConcatAppend(parts, Digits);
      charset, parts := charset + Digits, parts + [Digits];
    }
    assert charset == Concat(parts);
    assert parts == IfEnabled(useLower, AsciiLowercase) + IfEnabled(useUpper, AsciiUppercase) + IfEnabled(useDigits, Digits);
    if useSymbols {
      ConcatAppend(parts, GeneratorSymbols);
      charset, parts := charset + GeneratorSymbols, parts + [GeneratorSymbols];
    }
    assert charset == Concat(parts);
    assert parts == EnabledClasses(useUpper, useLower, useDigits, useSymbols);
  }

  /** `secrets.choice(s)`: some character of `s`, which one is left open. */
  method Choice(s: string) returns (c: char)
    requires |s| > 0
    ensures c in s
  {
    var k :| 0 <= k < |s|;
    c := s[k];
  }

  /** `[secrets.choice(charset) for _ in range(n)]`. */
  method DrawFiller(charset: string, n: nat) returns (remaining: seq<char>)
    requires n > 0 ==> |charset| > 0
    ensures |remaining| == n
    ensures forall i :: 0 <= i < n ==> remaining[i] in charset
  {
    remaining := [];
    for i := 0 to n
      invariant |remaining| == i
      invariant forall j :: 0 <= j < i ==> remaining[j] in charset
    {
      var c := Choice(charset);
      remaining := remaining + [c];
    }
  }

  /** `SystemRandom().shuffle(a)`: Fisher-Yates, swapping each `a[i]` with some `a[j]`, `j <= i`, from the end down. */
  method Shuffle(a: array<char>)
    modifies a
    ensures multiset(a[..]) == old(multiset(a[..]))
  {
    var i := a.Length - 1;
    while i > 0
      invariant multiset(a[..]) == old(multiset(a[..]))
    {
      var j :| 0 <= j <= i;
      a[i], a[j] := a[j], a[i];
      i := i - 1;
    }
  }

  /** The mandatory draws: one `secrets.choice` from each enabled category's own class string, in canonical order. */
  method DrawMandatory(useUpper: bool, useLower: bool, useDigits: bool, useSymbols: bool) returns (chosen: seq<char>)
    ensures OneFromEach(chosen, EnabledClasses(useUpper, useLower, useDigits, useSymbols))
  {
    ghost var classes: seq<string> := [];
    chosen := [];
    if useLower {
      var c := Choice(AsciiLowercase);
      chosen, classes := chosen + [c], classes + [AsciiLowercase];
    }
    assert OneFromEach(chosen, classes) && classes == IfEnabled(useLower, AsciiLowercase);
    if useUpper {
      var c := Choice(AsciiUppercase);
      chosen, classes := chosen + [c], classes + [AsciiUppercase];
    }
    assert OneFromEach(chosen, classes);
    assert classes == IfEnabled(useLower, AsciiLowercase) + IfEnabled(useUpper, AsciiUppercase);
    if useDigits {
      var c := Choice(Digits);
      chosen, classes := chosen + [c], classes + [Digits];
    }
    assert OneFromEach(chosen, classes);
    assert classes == IfEnabled(useLower, AsciiLowercase) + IfEnabled(useUpper, AsciiUppercase) + IfEnabled(useDigits, Digits);
    if useSymbols {
      var c := Choice(GeneratorSymbols);
      chosen, classes := chosen + [c], classes + [GeneratorSymbols];
    }
    assert OneFromEach(chosen, classes);
    assert classes == EnabledClasses(useUpper, useLower, useDigits, useSymbols);
  }

  /**
   * `generate_password`. On success it also yields, as ghost outputs, the
   * mandatory characters and the filler characters it drew before shuffling.
   */
  method GeneratePassword(length: int := 16, useUpper: bool := true, useLower: bool := true,
                          useDigits: bool := true, useSymbols: bool := true)
    returns (r: Result<string, GenError>, ghost mandatory: seq<char>, ghost filler: seq<char>)
    ensures length < 1 ==> r == Failure(LengthBelowOne)
    ensures length >= 1 && CategoryCount(useUpper, useLower, useDigits, useSymbols) == 0 ==>
      r == Failure(NoCategoryChosen)
    ensures 1 <= length < CategoryCount(useUpper, useLower, useDigits, useSymbols) ==>
      r == Failure(TooShortForCategories(length, CategoryCount(useUpper, useLower, useDigits, useSymbols)))
    ensures r.Success? <==> 1 <= length && 0 < CategoryCount(useUpper, useLower, useDigits, useSymbols) <= length
    ensures r.Success? ==> |r.value| == length
    ensures r.Success? ==> OneFromEach(mandatory, EnabledClasses(useUpper, useLower, useDigits, useSymbols))
    ensures r.Success? ==> |filler| == length - |mandatory|
    ensures r.Success? ==> forall i :: 0 <= i < |filler| ==> filler[i] in Charset(useUpper, useLower, useDigits, useSymbols)
    ensures r.Success? ==> multiset(r.value) == multiset(mandatory + filler)
    ensures r.Success? && useLower ==> Covers(r.value, AsciiLowercase)
    ensures r.Success? && useUpper ==> Covers(r.value, AsciiUppercase)
    ensures r.Success? && useDigits ==> Covers(r.value, Digits)
    ensures r.Success? && useSymbols ==> Covers(r.value, GeneratorSymbols)
    ensures r.Success? ==> forall i :: 0 <= i < |r.value| ==> r.value[i] in Charset(useUpper, useLower, useDigits, useSymbols)
  {
    mandatory, filler := [], [];
    if length < 1 {
      return Failure(LengthBelowOne), [], [];
    }
    var charset := BuildCharset(useUpper, useLower, useDigits, useSymbols);
    CharsetEmpty(useUpper, useLower, useDigits, useSymbols);
    if charset == "" {
      return Failure(NoCategoryChosen), [], [];
    }
    var chosen := DrawMandatory(useUpper, useLower, useDigits, useSymbols);
    ghost var classes := EnabledClasses(useUpper, useLower, useDigits, useSymbols);
    mandatory := chosen;
    if length < |chosen| {
      return Failure(TooShortForCategories(length, |chosen|)), mandatory, [];
    }
    var remaining := DrawFiller(charset, length - |chosen|);
    filler := remaining;
    var passwordList := chosen + remaining;
    var a := new char[|passwordList|](i requires 0 <= i < |passwordList| => passwordList[i]);
    assert a[..] == passwordList;
    Shuffle(a);
    r := Success(a[..]);
    EnabledClassesMembers(useUpper, useLower, useDigits, useSymbols);
    forall k | 0 <= k < |classes|
      ensures Covers(r.value, classes[k])
    {
      MandatoryCovers(r.value, mandatory, filler, classes, k);
    }
    WithinCharset(r.value, mandatory, filler, classes);
  }

  lemma {:induction false} ConcatAppend(parts: seq<string>, s: string)
    ensures Concat(parts + [s]) == Concat(parts) + s
  {
    if parts == [] {
      assert [] + [s] == [s];
      assert Concat([s]) == s + Concat([]);
    } else {
      assert (parts + [s])[1..] == parts[1..] + [s];
      ConcatAppend(parts[1..], s);
    }
  }

  /** A character is in the concatenation exactly when some part holds it. */
  lemma {:induction false} ConcatMember(parts: seq<string>, c: char)
    ensures c in Concat(parts) <==> exists k :: 0 <= k < |parts| && c in parts[k]
  {
    if parts != [] {
      ConcatMember(parts[1..], c);
      if exists k :: 0 <= k < |parts[1..]| && c in parts[1..][k] {
        var k :| 0 <= k < |parts[1..]| && c in parts[1..][k];
        assert c in parts[k + 1];
      }
      if exists k :: 0 <= k < |parts| && c in parts[k] {
        var k :| 0 <= k < |parts| && c in parts[k];
        if k > 0 {
          assert c in parts[1..][k - 1];
        }
      }
    }
  }

  /** Which class strings are enabled. */
  lemma EnabledClassesMembers(useUpper: bool, useLower: bool, useDigits: bool, useSymbols: bool)
    ensures AsciiLowercase in EnabledClasses(useUpper, useLower, useDigits, useSymbols) <==> useLower
    ensures AsciiUppercase in EnabledClasses(useUpper, useLower, useDigits, useSymbols) <==> useUpper
    ensures Digits in EnabledClasses(useUpper, useLower, useDigits, useSymbols) <==> useDigits
    ensures GeneratorSymbols in EnabledClasses(useUpper, useLower, useDigits, useSymbols) <==> useSymbols
  {
  }

  /** `build_charset` is empty exactly when every category is disabled. */
  lemma CharsetEmpty(useUpper: bool, useLower: bool, useDigits: bool, useSymbols: bool)
    ensures Charset(useUpper, useLower, useDigits, useSymbols) == "" <==>
      CategoryCount(useUpper, useLower, useDigits, useSymbols) == 0
    ensures CategoryCount(useUpper, useLower, useDigits, useSymbols) == 0 <==>
      !useUpper && !useLower && !useDigits && !useSymbols
  {
    var parts := EnabledClasses(useUpper, useLower, useDigits, useSymbols);
    if parts != [] {
      assert parts[0][0] in parts[0];
      ConcatMember(parts, parts[0][0]);
    }
  }

  /** A character is in the charset exactly when it belongs to an enabled category. */
  lemma CharsetMember(useUpper: bool, useLower: bool, useDigits: bool, useSymbols: bool, c: char)
    ensures c in Charset(useUpper, useLower, useDigits, useSymbols) <==>
      (useLower && c in AsciiLowercase) || (useUpper && c in AsciiUppercase)
      || (useDigits && c in Digits) || (useSymbols && c in GeneratorSymbols)
  {
    var parts := EnabledClasses(useUpper, useLower, useDigits, useSymbols);
    ConcatMember(parts, c);
    EnabledClassesMembers(useUpper, useLower, useDigits, useSymbols);
    if exists k :: 0 <= k < |parts| && c in parts[k] {
      var k :| 0 <= k < |parts| && c in parts[k];
      assert parts[k] in parts;
    }
  }

  /** Whatever is shuffled, each mandatory character still lands in the password. */
  lemma MandatoryCovers(pw: string, m: seq<char>, f: seq<char>, classes: seq<string>, k: nat)
    requires OneFromEach(m, classes) && multiset(pw) == multiset(m + f) && k < |classes|
    ensures Covers(pw, classes[k])
  {
    assert (m + f)[k] == m[k];
    assert m[k] in multiset(pw);
    var i :| 0 <= i < |pw| && pw[i] == m[k];
  }

  /** Mandatory characters come from the enabled classes and filler from the charset, so the whole password does. */
  lemma WithinCharset(pw: string, m: seq<char>, f: seq<char>, classes: seq<string>)
    requires OneFromEach(m, classes)
    requires forall i :: 0 <= i < |f| ==> f[i] in Concat(classes)
    requires multiset(pw) == multiset(m + f)
    ensures forall i :: 0 <= i < |pw| ==> pw[i] in Concat(classes)
  {
    forall i | 0 <= i < |pw|
      ensures pw[i] in Concat(classes)
    {
      assert pw[i] in multiset(m + f);
      var j :| 0 <= j < |m + f| && (m + f)[j] == pw[i];
      ConcatMember(classes, pw[i]);
      if j < |m| {
        assert pw[i] in classes[j];
      } else {
        assert pw[i] == f[j - |m|];
      }
    }
  }
}
