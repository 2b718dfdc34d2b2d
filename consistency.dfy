/**
 * How the generator's output fares under the two independent checkers:
 * the strength assessment counts every generator symbol as punctuation,
 * while the validator's special-character set lacks `~`.
 */
module Consistency {
  import opened CharClasses
  import Strength
  import PasswordValidation

  /** A password covering all four generator categories draws at most the length hint. */
  lemma CoveredPasswordHints(pw: string)
    requires Covers(pw, AsciiLowercase) && Covers(pw, AsciiUppercase)
    requires Covers(pw, Digits) && Covers(pw, GeneratorSymbols)
    ensures Strength.Recommendations(pw) == if |pw| >= 8 then [] else [Strength.Hints[0]]
  {
    var i0 :| 0 <= i0 < |pw| && pw[i0] in AsciiLowercase;
    LowercaseIsLower(pw[i0]);
    var i1 :| 0 <= i1 < |pw| && pw[i1] in AsciiUppercase;
    UppercaseIsUpper(pw[i1]);
    var i2 :| 0 <= i2 < |pw| && pw[i2] in Digits;
    DigitsAreDigit(pw[i2]);
    var i3 :| 0 <= i3 < |pw| && pw[i3] in GeneratorSymbols;
    GeneratorSymbolsArePunctuation(pw[i3]);
    assert HasClass(pw, Lowercase) && HasClass(pw, Uppercase);
    assert HasClass(pw, Digit) && HasClass(pw, PunctuationMark);
  }

  /**
   * Under the validator the same password scores full marks exactly when it is long
   * enough and holds a special character, which its generator symbol need not be.
   */
  lemma CoveredPasswordScore(pw: string, minLength: int)
    requires Covers(pw, AsciiLowercase) && Covers(pw, AsciiUppercase) && Covers(pw, Digits)
    ensures PasswordValidation.Validation(pw, minLength).score >= 3
    ensures PasswordValidation.Validation(pw, minLength).score == 5
            <==> |pw| >= minLength && HasClass(pw, SpecialChar)
  {
    var i0 :| 0 <= i0 < |pw| && pw[i0] in AsciiLowercase;
    LowercaseIsLower(pw[i0]);
    var i1 :| 0 <= i1 < |pw| && pw[i1] in AsciiUppercase;
    UppercaseIsUpper(pw[i1]);
    var i2 :| 0 <= i2 < |pw| && pw[i2] in Digits;
    DigitsAreDigit(pw[i2]);
    assert HasClass(pw, Lowercase) && HasClass(pw, Uppercase) && HasClass(pw, Digit);
  }

  /** `"abcdeF1~"` covers every generator category, so the generator could produce it. */
  lemma TildeOnlyPasswordCovers()
    ensures Covers("abcdeF1~", AsciiLowercase) && Covers("abcdeF1~", AsciiUppercase)
    ensures Covers("abcdeF1~", Digits) && Covers("abcdeF1~", GeneratorSymbols)
  {
    var pw := "abcdeF1~";
    assert pw[0] in AsciiLowercase && pw[5] in AsciiUppercase;
    assert pw[6] in Digits && pw[7] in GeneratorSymbols;
  }

  /** The strength assessment has no hint for `"abcdeF1~"`. */
  lemma TildeOnlyPasswordHints()
    ensures Strength.Recommendations("abcdeF1~") == []
  {
    TildeOnlyPasswordCovers();
    CoveredPasswordHints("abcdeF1~");
  }

  /** The validator finds no special character in `"abcdeF1~"` and takes a point off. */
  lemma TildeOnlyPasswordValidation()
    ensures PasswordValidation.Validation("abcdeF1~", 8)
            == PasswordValidation.ValidationReport(true, 4, [PasswordValidation.MissingSpecial])
  {
    var pw := "abcdeF1~";
    assert HasClass(pw, Lowercase) by { assert Lowercase.Has(pw[0]); }
    assert HasClass(pw, Uppercase) by { assert Uppercase.Has(pw[5]); }
    assert HasClass(pw, Digit) by { assert Digit.Has(pw[6]); }
    assert !HasClass(pw, SpecialChar) by {
      forall i | 0 <= i < |pw| ensures !SpecialChar.Has(pw[i]) { }
    }
  }
}
