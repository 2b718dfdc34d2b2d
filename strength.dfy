/**
 * The strength engine: the alphabet-size heuristic, the entropy estimate, the
 * label ladder and the report with its recommendations. `math.log2` and
 * `round(e, 2)` are passed in as `log2` and `round2`: only the entropy's zero
 * cases and the label's thresholds are stated exactly.
 */
module Strength {
  import opened Text
  import opened CharClasses
  import opened Checklist

  /** What `charset_size` returns: 26, 26, 10 and 20 for each of the four classes the password shows. */
  function AlphabetSize(password: string): (n: nat)
    ensures n <= 82
    ensures n == 0 <==> !HasClass(password, Lowercase) && !HasClass(password, Uppercase)
                        && !HasClass(password, Digit) && !HasClass(password, PunctuationMark)
  {
    (if HasClass(password, Lowercase) then 26 else 0)
    + (if HasClass(password, Uppercase) then 26 else 0)
    + (if HasClass(password, Digit) then 10 else 0)
    + (if HasClass(password, PunctuationMark) then 20 else 0)
  }

  /** `charset_size`: adds each class's weight as the scan finds the class. */
  method CharsetSize(password: string) returns (size: int)
    ensures size == AlphabetSize(password)
  {
    size := 0;
    var found := AnyOf(password, Lowercase);
    if found {
      size := size + 26;
    }
    found := AnyOf(password, Uppercase);
    if found {
      size := size + 26;
    }
    found := AnyOf(password, Digit);
    if found {
      size := size + 10;
    }
    found := AnyOf(password, PunctuationMark);
    if found {
      size := size + 20;
    }
  }

  /** The empty password and a whitespace-only password show no class. */
  lemma AlphabetSizeZero(password: string)
    requires StripSpace.All(password)
    ensures AlphabetSize(password) == 0
  {
    forall i | 0 <= i < |password|
      ensures !PunctuationMark.Has(password[i])
    {
      if password[i] in Punctuation {
        PunctuationIsVisibleAscii(password[i]);
      }
    }
  }

  /** `entropy_bits`, with `math.log2` as the parameter `log2`. */
  function EntropyBits(password: string, log2: nat -> real): (e: real)
    ensures password == "" ==> e == 0.0
    ensures AlphabetSize(password) == 0 ==> e == 0.0
    ensures AlphabetSize(password) > 0 ==> e == |password| as real * log2(AlphabetSize(password))
  {
    if password == "" then 0.0
    else
      var size := AlphabetSize(password);
      if size <= 0 then 0.0 else |password| as real * log2(size)
  }

  /** The estimate is never negative when `log2` is not negative from 1 on. */
  lemma EntropyNonNegative(password: string, log2: nat -> real)
    requires forall n: nat :: n >= 1 ==> log2(n) >= 0.0
    ensures EntropyBits(password, log2) >= 0.0
  {
    var size := AlphabetSize(password);
    if size > 0 {
      assert log2(size) >= 0.0;
    }
  }

  /** `entropy_bits("aaaa")` credits the 26 lowercase letters: `4 * log2(26)`. */
  lemma EntropyOfLowercaseRun(log2: nat -> real)
    ensures EntropyBits("aaaa", log2) == 4.0 * log2(26)
  {
    var p := "aaaa";
    assert Lowercase.Has(p[0]);
    assert !HasClass(p, Uppercase) && !HasClass(p, Digit);
    assert !HasClass(p, PunctuationMark) by {
      forall i | 0 <= i < |p|
        ensures !PunctuationMark.Has(p[i])
      {
        assert p[i] == 'a';
      }
    }
  }

  datatype Label = Weak | Fair | Strong | VeryStrong {
    /** The label text the report carries. */
    function Name(): string {
      match this
      case Weak => "Weak"
      case Fair => "Fair"
      case Strong => "Strong"
      case VeryStrong => "Very strong"
    }

    /** Position on the ladder, weakest first. */
    function Rank(): nat {
      match this
      case Weak => 0
      case Fair => 1
      case Strong => 2
      case VeryStrong => 3
    }
  }

  /** `strength_label`: the half-open bands below 28, [28, 36), [36, 60) and from 60 on. */
  function StrengthLabel(entropy: real): (rating: Label)
    ensures rating == Weak <==> entropy < 28.0
    ensures rating == Fair <==> 28.0 <= entropy < 36.0
    ensures rating == Strong <==> 36.0 <= entropy < 60.0
    ensures rating == VeryStrong <==> 60.0 <= entropy
  {
    if entropy < 28.0 then Weak
    else if entropy < 36.0 then Fair
    else if entropy < 60.0 then Strong
    else VeryStrong
  }

  /** More entropy never gives a weaker label. */
  lemma StrengthLabelMonotone(a: real, b: real)
    requires a <= b
    ensures StrengthLabel(a).Rank() <= StrengthLabel(b).Rank()
  {
  }

  /** The recommendation texts, in the order their checks run. */
  const Hints: seq<string> := [
    "Make password longer (at least 8 characters).",
    "Include lowercase letters (a-z).",
    "Include uppercase letters (A-Z).",
    "Include digits (0-9).",
    "Include symbols (e.g. !@#)."
  ]

  /** For each hint, whether the password already meets it. */
  function HintChecks(password: string): (passed: seq<bool>)
    ensures |passed| == |Hints|
  {
    [ |password| >= 8, HasClass(password, Lowercase), HasClass(password, Uppercase),
      HasClass(password, Digit), HasClass(password, PunctuationMark) ]
  }

  /** The `recommendations` list of the report. */
  function Recommendations(password: string): seq<string> {
    (if |password| >= 8 then [] else [Hints[0]])
    + (if HasClass(password, Lowercase) then [] else [Hints[1]])
    + (if HasClass(password, Uppercase) then [] else [Hints[2]])
    + (if HasClass(password, Digit) then [] else [Hints[3]])
    + (if HasClass(password, PunctuationMark) then [] else [Hints[4]])
  }

  datatype StrengthReport = StrengthReport(entropyBits: real, rating: Label, recommendations: seq<string>)

  /** The `recs` part of `assess_password`: one check after another, appending the hint of each that fails. */
  method CollectRecommendations(password: string) returns (recs: seq<string>)
    ensures recs == Recommendations(password)
  {
    recs := [];
    var ok := |password| >= 8;
    if !ok {
      recs := recs + [Hints[0]];
    }
    assert recs == (if |password| >= 8 then [] else [Hints[0]]);
    ok := AnyOf(password, Lowercase);
    if !ok {
      recs := recs + [Hints[1]];
    }
    assert recs == (if |password| >= 8 then [] else [Hints[0]]) + (if HasClass(password, Lowercase) then [] else [Hints[1]]);
    ok := AnyOf(password, Uppercase);
    if !ok {
      recs := recs + [Hints[2]];
    }
    assert recs == (if |password| >= 8 then [] else [Hints[0]]) + (if HasClass(password, Lowercase) then [] else [Hints[1]]) + (if HasClass(password, Uppercase) then [] else [Hints[2]]);
    ok := AnyOf(password, Digit);
    if !ok {
      recs := recs + [Hints[3]];
    }
    assert recs == (if |password| >= 8 then [] else [Hints[0]]) + (if HasClass(password, Lowercase) then [] else [Hints[1]]) + (if HasClass(password, Uppercase) then [] else [Hints[2]]) + (if HasClass(password, Digit) then [] else [Hints[3]]);
    ok := AnyOf(password, PunctuationMark);
    if !ok {
      recs := recs + [Hints[4]];
    }
  }

  /**
   * `assess_password`. The label comes from the unrounded estimate; only the
   * reported `entropyBits` goes through `round2`.
   */
  method AssessPassword(password: string, log2: nat -> real, round2: real -> real) returns (report: StrengthReport)
    ensures report.entropyBits == round2(EntropyBits(password, log2))
    ensures report.rating == StrengthLabel(EntropyBits(password, log2))
    ensures report.recommendations == Recommendations(password)
  {
    var e := EntropyBits(password, log2);
    var rating := StrengthLabel(e);
    var recs := CollectRecommendations(password);
    report := StrengthReport(round2(e), rating, recs);
  }

  /** The recommendations are the hints of the failed checks, in the sense of `Checklist`. */
  lemma RecommendationsAreFailedHints(password: string)
    ensures Recommendations(password) == Failed(Hints, HintChecks(password))
  {
    FailedOfFive(Hints, HintChecks(password));
  }

  /** Each hint is listed exactly when its check fails; at most five are listed. */
  lemma RecommendationsSpec(password: string)
    ensures Hints[0] in Recommendations(password) <==> |password| < 8
    ensures Hints[1] in Recommendations(password) <==> !HasClass(password, Lowercase)
    ensures Hints[2] in Recommendations(password) <==> !HasClass(password, Uppercase)
    ensures Hints[3] in Recommendations(password) <==> !HasClass(password, Digit)
    ensures Hints[4] in Recommendations(password) <==> !HasClass(password, PunctuationMark)
    ensures |Recommendations(password)| <= 5
  {
    RecommendationsAreFailedHints(password);
    var passed := HintChecks(password);
    assert Distinct(Hints);
    FailedMember(Hints, passed, 0);
    FailedMember(Hints, passed, 1);
    FailedMember(Hints, passed, 2);
    FailedMember(Hints, passed, 3);
    FailedMember(Hints, passed, 4);
    PassedPlusFailed(Hints, passed, 0);
  }

  /** No recommendation exactly when the password has 8 characters or more and all four classes. */
  lemma NoRecommendations(password: string)
    ensures Recommendations(password) == [] <==>
      |password| >= 8 && HasClass(password, Lowercase) && HasClass(password, Uppercase)
      && HasClass(password, Digit) && HasClass(password, PunctuationMark)
  {
    RecommendationsAreFailedHints(password);
    var passed := HintChecks(password);
    FailedEmpty(Hints, passed);
    assert (forall j :: 0 <= j < |passed| ==> passed[j]) <==>
      passed[0] && passed[1] && passed[2] && passed[3] && passed[4];
  }

  /** When two checks fail, the earlier check's hint is listed first. */
  lemma RecommendationsInOrder(password: string, a: nat, b: nat)
    requires a < b < |Hints| && !HintChecks(password)[a] && !HintChecks(password)[b]
    ensures exists i, j ::
      (0 <= i < j < |Recommendations(password)| &&
       Recommendations(password)[i] == Hints[a] && Recommendations(password)[j] == Hints[b])
  {
    RecommendationsAreFailedHints(password);
    FailedInCheckOrder(Hints, HintChecks(password), a, b);
  }
}
