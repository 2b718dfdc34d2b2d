/**
 * `PasswordValidator`: five independent checks that each add one point or one
 * issue, where only the length check decides `valid`; and the search for
 * well-known weak patterns.
 */
module PasswordValidation {
  import opened Text
  import opened Decimal
  import opened CharClasses
  import opened Checklist

  /** The `results` dictionary of `validate_strength`. */
  datatype ValidationReport = ValidationReport(valid: bool, score: int, issues: seq<string>)

  /** The length issue, naming the minimum length. */
  function LengthIssue(minLength: int): string {
    "Password must be at least " + IntToString(minLength) + " chars"
  }

  const MissingLowercase := "Missing lowercase (a-z)"
  const MissingUppercase := "Missing uppercase (A-Z)"
  const MissingNumbers := "Missing numbers (0-9)"
  const MissingSpecial := "Missing special chars"

  /** The issue of each check, in the order the checks run. */
  function IssueTexts(minLength: int): seq<string> {
    [LengthIssue(minLength), MissingLowercase, MissingUppercase, MissingNumbers, MissingSpecial]
  }

  /** Whether each check passes, in the order the checks run. */
  function Checks(password: string, minLength: int): seq<bool> {
    [ |password| >= minLength, HasClass(password, Lowercase), HasClass(password, Uppercase),
      HasClass(password, Digit), HasClass(password, SpecialChar) ]
  }

  /** The issues `validate_strength` lists. */
  function Issues(password: string, minLength: int): seq<string> {
    (if |password| < minLength then [LengthIssue(minLength)] else [])
    + (if HasClass(password, Lowercase) then [] else [MissingLowercase])
    + (if HasClass(password, Uppercase) then [] else [MissingUppercase])
    + (if HasClass(password, Digit) then [] else [MissingNumbers])
    + (if HasClass(password, SpecialChar) then [] else [MissingSpecial])
  }

  /** The score `validate_strength` gives. */
  function Score(password: string, minLength: int): int {
    (if |password| < minLength then 0 else 1)
    + (if HasClass(password, Lowercase) then 1 else 0)
    + (if HasClass(password, Uppercase) then 1 else 0)
    + (if HasClass(password, Digit) then 1 else 0)
    + (if HasClass(password, SpecialChar) then 1 else 0)
  }

  /**
   * The report `validate_strength` returns. Only the length decides `valid`;
   * every check earns a point or lists an issue, never both.
   */
  function Validation(password: string, minLength: int): (r: ValidationReport)
    ensures r.valid <==> |password| >= minLength
    ensures 0 <= r.score <= 5
    ensures r.score + |r.issues| == 5
    ensures r.score == PassCount(Checks(password, minLength), 0)
    ensures r.issues == Failed(IssueTexts(minLength), Checks(password, minLength))
  {
    var checks := Checks(password, minLength);
    PassCountOfFive(checks);
    FailedOfFive(IssueTexts(minLength), checks);
    PassedPlusFailed(IssueTexts(minLength), checks, 0);
    ValidationReport(|password| >= minLength, Score(password, minLength), Issues(password, minLength))
  }

  /** A weak-pattern regex: `^text` or a plain `text`. */
  datatype Pattern = Prefix(text: string) | Anywhere(text: string) {
    /** What `re.search` finds for the pattern. */
    predicate FoundIn(s: string) {
      match this
      case Prefix(t) => StartsWith(s, t)
      case Anywhere(t) => Contains(s, t)
    }
  }

  /** `^123`, `password`, `qwerty`, `abc123`, in that order. */
  const CommonPatterns: seq<Pattern> := [Prefix("123"), Anywhere("password"), Anywhere("qwerty"), Anywhere("abc123")]

  /** Some weak pattern occurs in the lower-cased password. */
  predicate HasCommonPattern(password: string) {
    exists k :: 0 <= k < |CommonPatterns| && CommonPatterns[k].FoundIn(Lower(password))
  }

  class PasswordValidator {
    var minLength: int

    constructor (minLength: int := 8)
      ensures this.minLength == minLength
    {
      this.minLength := minLength;
    }

    /** `validate_strength`: the five checks update the report one after another. */
    method ValidateStrength(password: string) returns (results: ValidationReport)
      ensures results == Validation(password, minLength)
    {
      results := ValidationReport(true, 0, []);
      if |password| < minLength {
        results := results.(valid := false, issues := results.issues + [LengthIssue(minLength)]);
      } else {
        results := results.(score := results.score + 1);
      }
      var found := AnyOf(password, Lowercase);
      if !found {
        results := results.(issues := results.issues + [MissingLowercase]);
      } else {
        results := results.(score := results.score + 1);
      }
      assert results.issues == (if |password| < minLength then [LengthIssue(minLength)] else [])
        + (if HasClass(password, Lowercase) then [] else [MissingLowercase]);
      found := AnyOf(password, Uppercase);
      if !found {
        results := results.(issues := results.issues + [MissingUppercase]);
      } else {
        results := results.(score := results.score + 1);
      }
      assert results.issues == (if |password| < minLength then [LengthIssue(minLength)] else [])
        + (if HasClass(password, Lowercase) then [] else [MissingLowercase])
        + (if HasClass(password, Uppercase) then [] else [MissingUppercase]);
      found := AnyOf(password, Digit);
      if !found {
        results := results.(issues := results.issues + [MissingNumbers]);
      } else {
        results := results.(score := results.score + 1);
      }
      assert results.issues == (if |password| < minLength then [LengthIssue(minLength)] else [])
        + (if HasClass(password, Lowercase) then [] else [MissingLowercase])
        + (if HasClass(password, Uppercase) then [] else [MissingUppercase])
        + (if HasClass(password, Digit) then [] else [MissingNumbers]);
      found := AnyOf(password, SpecialChar);
      if !found {
        results := results.(issues := results.issues + [MissingSpecial]);
      } else {
        results := results.(score := results.score + 1);
      }
    }

    /** `check_common_patterns`: tries the patterns in order and stops at the first that matches. */
    method CheckCommonPatterns(password: string) returns (found: bool)
      ensures found == HasCommonPattern(password)
    {
      for i := 0 to |CommonPatterns|
        invariant forall k :: 0 <= k < i ==> !CommonPatterns[k].FoundIn(Lower(password))
      {
        if CommonPatterns[i].FoundIn(Lower(password)) {
          return true;
        }
      }
      return false;
    }
  }

  /** The length issue names the minimum: different minimums give different texts. */
  lemma LengthIssueNamesMinLength(a: int, b: int)
    requires LengthIssue(a) == LengthIssue(b)
    ensures a == b
  {
    var head := "Password must be at least ";
    var sa, sb := IntToString(a), IntToString(b);
    assert LengthIssue(a)[|head|..|head| + |sa|] == sa;
    assert LengthIssue(b)[|head|..|head| + |sb|] == sb;
    assert |sa| == |sb|;
    IntToStringInjective(a, b);
  }

  lemma IssueTextsDistinct(minLength: int)
    ensures Distinct(IssueTexts(minLength))
  {
    var texts := IssueTexts(minLength);
    assert texts[0][0] == 'P';
  }

  /** Each issue is listed exactly when its check fails. */
  lemma IssuesSpec(password: string, minLength: int)
    ensures LengthIssue(minLength) in Validation(password, minLength).issues <==> |password| < minLength
    ensures MissingLowercase in Validation(password, minLength).issues <==> !HasClass(password, Lowercase)
    ensures MissingUppercase in Validation(password, minLength).issues <==> !HasClass(password, Uppercase)
    ensures MissingNumbers in Validation(password, minLength).issues <==> !HasClass(password, Digit)
    ensures MissingSpecial in Validation(password, minLength).issues <==> !HasClass(password, SpecialChar)
  {
    var texts, checks := IssueTexts(minLength), Checks(password, minLength);
    IssueTextsDistinct(minLength);
    FailedMember(texts, checks, 0);
    FailedMember(texts, checks, 1);
    FailedMember(texts, checks, 2);
    FailedMember(texts, checks, 3);
    FailedMember(texts, checks, 4);
  }

  /** When two checks fail, the earlier check's issue is listed first. */
  lemma IssuesInOrder(password: string, minLength: int, a: nat, b: nat)
    requires a < b < 5 && !Checks(password, minLength)[a] && !Checks(password, minLength)[b]
    ensures exists i, j ::
      (0 <= i < j < |Validation(password, minLength).issues| &&
       Validation(password, minLength).issues[i] == IssueTexts(minLength)[a] &&
       Validation(password, minLength).issues[j] == IssueTexts(minLength)[b])
  {
    var r := Validation(password, minLength);
    assert r.issues == Failed(IssueTexts(minLength), Checks(password, minLength));
    FailedInCheckOrder(IssueTexts(minLength), Checks(password, minLength), a, b);
  }

  /** A long enough password with all four classes gets full marks and no issue. */
  lemma FullMarks(password: string, minLength: int)
    requires |password| >= minLength
    requires HasClass(password, Lowercase) && HasClass(password, Uppercase)
    requires HasClass(password, Digit) && HasClass(password, SpecialChar)
    ensures Validation(password, minLength) == ValidationReport(true, 5, [])
  {
    assert Issues(password, minLength) == [];
  }

  /** `validate_strength("Abcdef1!")` gives score 5, no issue, and `valid`. */
  lemma FullMarksExample()
    ensures Validation("Abcdef1!", 8) == ValidationReport(true, 5, [])
  {
    var good := "Abcdef1!";
    assert Uppercase.Has(good[0]);
    assert Lowercase.Has(good[1]);
    assert Digit.Has(good[6]);
    assert SpecialChar.Has(good[7]);
    FullMarks(good, 8);
  }

  /** `validate_strength("short")` is not valid and lists the length issue for 8. */
  lemma TooShortExample()
    ensures !Validation("short", 8).valid
    ensures "Password must be at least 8 chars" in Validation("short", 8).issues
  {
    assert IntToString(8) == "8";
    assert LengthIssue(8) == "Password must be at least 8 chars";
    IssuesSpec("short", 8);
  }

  /** The weak patterns, written out: a `123` prefix, or `password`, `qwerty` or `abc123` anywhere, ignoring case. */
  lemma CommonPatternsSpec(password: string)
    ensures HasCommonPattern(password) <==>
      StartsWith(Lower(password), "123") || Contains(Lower(password), "password")
      || Contains(Lower(password), "qwerty") || Contains(Lower(password), "abc123")
  {
    var s := Lower(password);
    assert CommonPatterns[0].FoundIn(s) == StartsWith(s, "123");
    assert CommonPatterns[1].FoundIn(s) == Contains(s, "password");
    assert CommonPatterns[2].FoundIn(s) == Contains(s, "qwerty");
    assert CommonPatterns[3].FoundIn(s) == Contains(s, "abc123");
  }

  /** The pattern search does not depend on letter case. */
  lemma CommonPatternsIgnoreCase(password: string)
    ensures HasCommonPattern(Lower(password)) == HasCommonPattern(password)
  {
    LowerIdempotent(password);
  }

  /** `MyPassword123` has a weak pattern; `Xk9#mQ2z` has none. */
  lemma CommonPatternExamples()
    ensures HasCommonPattern("MyPassword123")
    ensures !HasCommonPattern("Xk9#mQ2z")
  {
    var hit := Lower("MyPassword123");
    assert hit == "mypassword123";
    assert OccursAt(hit, "password", 2);
    assert CommonPatterns[1].FoundIn(hit);
    var miss := Lower("Xk9#mQ2z");
    assert miss == "xk9#mq2z";
    CommonPatternsSpec("Xk9#mQ2z");
    assert miss[0] != '1';
    assert miss[0..8][0] == miss[0] != 'p';
    forall i | 0 <= i <= 2
      ensures !OccursAt(miss, "qwerty", i) && !OccursAt(miss, "abc123", i)
    {
      assert miss[i..i + 6][0] == miss[i];
      assert miss[i] in "xk9";
    }
  }
}
