/**
 * The character classes of the three source files. The generator draws from
 * four class strings; the strength engine detects classes with `str.islower`,
 * `str.isupper`, `str.isdigit` and `string.punctuation`; the validator with the
 * regex classes `[a-z]`, `[A-Z]`, `\d` and its own special-character class.
 * The three symbol sets differ, and the lemmas at the end say how.
 */
module CharClasses {
  import opened Text

  /** `string.ascii_lowercase`. */
  const AsciiLowercase: string := "abcdefghijklmnopqrstuvwxyz"

  /** `string.ascii_uppercase`. */
  const AsciiUppercase: string := "ABCDEFGHIJKLMNOPQRSTUVWXYZ"

  /** `string.digits`. */
  const Digits: string := "0123456789"

  /** The symbol literal the generator uses, both for the charset and for the mandatory symbol. */
  const GeneratorSymbols: string := "!@#$%&*()-_+=~[]{}<>?"

  /** The members of the validator's class `[!@#$%^&*()_+\-=\[\]{}|;:,.<>?]`. */
  const ValidatorSpecials: string := "!@#$%^&*()_+-=[]{}|;:,.<>?"

  /** `string.punctuation`, used by the strength engine. */
  const Punctuation: string := "!\"#$%&'()*+,-./:;<=>?@[\\]^_`{|}~"

  /** A class a password is scanned for. */
  datatype CharClass = Lowercase | Uppercase | Digit | PunctuationMark | SpecialChar {
    predicate Has(c: char) {
      match this
      case Lowercase => IsAsciiLower(c)
      case Uppercase => IsAsciiUpper(c)
      case Digit => IsAsciiDigit(c)
      case PunctuationMark => c in Punctuation
      case SpecialChar => c in ValidatorSpecials
    }
  }

  /** `any(cls(c) for c in s)`, equally `re.search(cls, s)` for a one-character class. */
  predicate HasClass(s: string, cls: CharClass) {
    exists i :: 0 <= i < |s| && cls.Has(s[i])
  }

  /** The left-to-right scan behind `any(...)` and `re.search`, stopping at the first hit. */
  method AnyOf(s: string, cls: CharClass) returns (found: bool)
    ensures found == HasClass(s, cls)
  {
    for i := 0 to |s|
      invariant forall k :: 0 <= k < i ==> !cls.Has(s[k])
    {
      if cls.Has(s[i]) {
        return true;
      }
    }
    return false;
  }

  /** Some character of `s` is one of those of the string `cls`. */
  predicate Covers(s: string, cls: string) {
    exists i :: 0 <= i < |s| && s[i] in cls
  }

  lemma LowercaseIsLower(c: char)
    ensures c in AsciiLowercase <==> Lowercase.Has(c)
  {
  }

  lemma UppercaseIsUpper(c: char)
    ensures c in AsciiUppercase <==> Uppercase.Has(c)
  {
  }

  lemma DigitsAreDigit(c: char)
    ensures c in Digits <==> Digit.Has(c)
  {
  }

  /** Punctuation is visible ASCII, so never whitespace. */
  lemma PunctuationIsVisibleAscii(c: char)
    requires c in Punctuation
    ensures '!' <= c <= '~'
  {
  }

  /** Every generator symbol is punctuation to the strength engine. */
  lemma GeneratorSymbolsArePunctuation(c: char)
    requires c in GeneratorSymbols
    ensures PunctuationMark.Has(c)
  {
  }

  /** `~` is the one generator symbol outside the validator's special class. */
  lemma TildeOutsideSpecials(c: char)
    requires c in GeneratorSymbols
    ensures SpecialChar.Has(c) <==> c != '~'
  {
  }
}
