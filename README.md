# Simple password generator, modelled in Dafny

This project models the core of a small command-line password generator:

- the **generator** (`build_charset`, `generate_password`), which builds a
  character set from four categories, draws one mandatory character from each
  enabled category, fills up to the requested length from the whole set and
  shuffles the result;
- the **strength engine** (`charset_size`, `entropy_bits`, `strength_label`,
  `assess_password`), which estimates entropy from the character classes a
  password shows, labels it and lists improvement hints;
- the **password validator** (`PasswordValidator` with its `min_length` field,
  `validate_strength`, `check_common_patterns`), which scores a password on five
  fixed checks and looks for weak patterns;
- the **input validator** (`validate_integer`, `validate_boolean`), which turns
  user input into numbers and yes/no answers.

Module layout:

| file | module | role |
|---|---|---|
| `wrappers.dfy` | `Wrappers` | `Option` and `Result` |
| `text.dfy` | `Text` | ASCII letter case, `str.lower`, the whitespace `str.strip` and `int()` remove, substring search |
| `decimal.dfy` | `Decimal` | `str(n)` and `int(s)` for base-10 integers, with the 4300-digit limit and the round trip between them |
| `char_classes.dfy` | `CharClasses` | the class strings, the three symbol sets, the `any(...)` scan |
| `checklist.dfy` | `Checklist` | the shared shape "run fixed checks in order, list the message of each failed one" |
| `generator.dfy` | `Generator` | `generator.py`, imperative: a loop for the filler, Fisher-Yates on an array |
| `strength.dfy` | `Strength` | `strength.py`: specification functions plus the scanning methods |
| `password_validator.dfy` | `PasswordValidation` | `password_validator.py`: the `PasswordValidator` class over specification functions |
| `input_validator.dfy` | `InputValidation` | `input_validator.py`: pure functions |
| `consistency.dfy` | `Consistency` | how generator output fares under the strength engine and the validator |

Randomness (`secrets.choice`, `SystemRandom().shuffle`) is modelled as
nondeterministic choice, so every property of `GeneratePassword` holds for every
possible draw. `math.log2` and `round(e, 2)` are parameters of the strength
model; the zero cases of the entropy and the label thresholds are exact.

Two behaviours of the code are worth knowing:

- Not only the empty password gets character-set size 0: any password with no
  lowercase, uppercase, digit or punctuation character (for example only
  spaces) gets size 0 and entropy 0.0; `Strength.AlphabetSizeZero` states this
  for whitespace.
- The code has three symbol sets: the generator's `!@#$%&*()-_+=~[]{}<>?`,
  `string.punctuation` in the strength engine, and the validator's regex class
  `!@#$%^&*()_+-=[]{}|;:,.<>?`. The model keeps all three;
  `CharClasses.TildeOutsideSpecials` and the `Consistency` lemmas show the
  effect: a generated password whose only symbol is `~` satisfies the strength
  engine but misses the validator's special character check.

## Model

| member | source | states |
|---|---|---|
| `Generator.BuildCharset` | src/password_gen/generator.py:4-14 | the charset is the enabled class strings concatenated in the order lowercase, uppercase, digits, symbols |
| `Generator.CharsetMember` | src/password_gen/generator.py:4-14 | a character is in the charset exactly when it belongs to an enabled category |
| `Generator.CharsetEmpty` | src/password_gen/generator.py:4-14 | the charset is empty exactly when no category is enabled |
| `Generator.EnabledClassesMembers` | src/password_gen/generator.py:24-31 | each category's class string is among the mandatory classes exactly when its flag is set |
| `Generator.Choice` | src/password_gen/generator.py:25 | `secrets.choice` returns some character of its non-empty argument |
| `Generator.DrawMandatory` | src/password_gen/generator.py:23-31 | one character from each enabled category's class, in category order |
| `Generator.DrawFiller` | src/password_gen/generator.py:36 | exactly `n` characters, each from the charset |
| `Generator.Shuffle` | src/password_gen/generator.py:39 | the shuffle permutes the list: its multiset of characters is unchanged |
| `Generator.GeneratePassword` | src/password_gen/generator.py:16-40 | the three errors in the source's order (length below 1, no category, length below the category count); success exactly otherwise; the result has the requested length, is a permutation of the mandatory and filler draws, covers every enabled category and uses only charset characters |
| `Generator.MandatoryCovers` | src/password_gen/generator.py:38-40 | after any shuffle the password still holds a character of each enabled category |
| `Generator.WithinCharset` | src/password_gen/generator.py:36-40 | every character of a shuffled password built from mandatory and filler draws lies in the charset |
| `CharClasses.AnyOf` | src/password_gen/strength.py:9 | the `any(...)` scan is true exactly when some character of the password is in the class |
| `CharClasses.PunctuationIsVisibleAscii` | src/password_gen/strength.py:16-17 | every `string.punctuation` character is visible ASCII |
| `CharClasses.GeneratorSymbolsArePunctuation` | src/password_gen/generator.py:13 | every generator symbol is punctuation for the strength engine |
| `CharClasses.TildeOutsideSpecials` | src/password_gen/validators/password_validator.py:54 | a generator symbol is one of the validator's special characters exactly when it is not `~` |
| `Strength.AlphabetSize` | src/password_gen/strength.py:4-19 | the size is at most 82 and is 0 exactly when the password shows none of the four classes |
| `Strength.CharsetSize` | src/password_gen/strength.py:4-19 | the method adds 26, 26, 10 and 20 per class found, giving `AlphabetSize` |
| `Strength.AlphabetSizeZero` | src/password_gen/strength.py:4-19 | an empty or whitespace-only password gives size 0 |
| `Strength.EntropyBits` | src/password_gen/strength.py:21-27 | 0.0 for the empty password and for size 0, otherwise length times `log2(size)` |
| `Strength.EntropyNonNegative` | src/password_gen/strength.py:21-27 | the estimate is never negative when `log2` is non-negative from 1 on |
| `Strength.EntropyOfLowercaseRun` | src/password_gen/strength.py:21-27 | `"aaaa"` has entropy `4 * log2(26)` |
| `Strength.StrengthLabel` | src/password_gen/strength.py:29-36 | each label holds exactly on its half-open band: below 28, [28, 36), [36, 60), from 60 |
| `Strength.StrengthLabelMonotone` | src/password_gen/strength.py:29-36 | more entropy never gives a weaker label |
| `Strength.CollectRecommendations` | src/password_gen/strength.py:41-51 | the method appends the hints of the failing checks in check order |
| `Strength.AssessPassword` | src/password_gen/strength.py:38-55 | the report carries the rounded estimate, the label of the unrounded estimate and the recommendations |
| `Strength.RecommendationsAreFailedHints` | src/password_gen/strength.py:41-51 | the recommendations are exactly the hints of the failed checks, in check order |
| `Strength.RecommendationsSpec` | src/password_gen/strength.py:42-51 | each hint is listed exactly when its check fails; at most five hints |
| `Strength.NoRecommendations` | src/password_gen/strength.py:42-51 | no hint exactly when the password has at least 8 characters and all four classes |
| `Strength.RecommendationsInOrder` | src/password_gen/strength.py:42-51 | of two failing checks, the earlier one's hint comes first |
| `PasswordValidation.PasswordValidator.constructor` | src/password_gen/validators/password_validator.py:12-13 | the validator keeps the given minimum length, 8 by default |
| `PasswordValidation.Validation` | src/password_gen/validators/password_validator.py:15-59 | valid exactly when the length reaches the minimum; score between 0 and 5; score plus number of issues is 5; score counts the passed checks and the issues are the failed checks' messages in order |
| `PasswordValidation.PasswordValidator.ValidateStrength` | src/password_gen/validators/password_validator.py:15-59 | the method's step-by-step updates of the result give `Validation` for the validator's minimum length |
| `PasswordValidation.LengthIssueNamesMinLength` | src/password_gen/validators/password_validator.py:34 | the length message determines the minimum length it names |
| `PasswordValidation.IssueTextsDistinct` | src/password_gen/validators/password_validator.py:34-55 | the five issue messages are pairwise different |
| `PasswordValidation.IssuesSpec` | src/password_gen/validators/password_validator.py:31-57 | each issue is listed exactly when its check fails |
| `PasswordValidation.IssuesInOrder` | src/password_gen/validators/password_validator.py:31-57 | of two failing checks, the earlier one's issue comes first |
| `PasswordValidation.FullMarks` | src/password_gen/validators/password_validator.py:31-57 | a long enough password with all four classes is valid with score 5 and no issues |
| `PasswordValidation.FullMarksExample` | src/password_gen/validators/password_validator.py:15-59 | `"Abcdef1!"` with minimum 8 gives valid, score 5, no issues |
| `PasswordValidation.TooShortExample` | src/password_gen/validators/password_validator.py:32-34 | `"short"` with minimum 8 is invalid and reports "Password must be at least 8 chars" |
| `PasswordValidation.PasswordValidator.CheckCommonPatterns` | src/password_gen/validators/password_validator.py:61-81 | the loop returns true exactly when one of the four patterns matches the lowercased password |
| `PasswordValidation.CommonPatternsSpec` | src/password_gen/validators/password_validator.py:71-81 | a pattern is found exactly when the lowercased password starts with `123` or contains `password`, `qwerty` or `abc123` |
| `PasswordValidation.CommonPatternsIgnoreCase` | src/password_gen/validators/password_validator.py:79 | the check gives the same answer for a password and its lowercase form |
| `PasswordValidation.CommonPatternExamples` | src/password_gen/validators/password_validator.py:71-81 | `"MyPassword123"` is flagged and `"Xk9#mQ2z"` is not |
| `InputValidation.ValidateInteger` | src/password_gen/validators/input_validator.py:9-22 | a result is the parsed number and lies within the given bounds; no result exactly when parsing fails or a bound is violated |
| `InputValidation.ValidateIntegerOfPrinted` | src/password_gen/validators/input_validator.py:12-19 | the printed form of a number of at most 4300 digits validates to that number exactly when it is within the bounds |
| `InputValidation.ValidateIntegerRejectsSeparators` | src/password_gen/validators/input_validator.py:11-22 | a U+001C to U+001F character before or after the number gives no result, since `int()` does not skip it |
| `InputValidation.ValidateIntegerRejectsLongInput` | src/password_gen/validators/input_validator.py:11-22 | more than 4300 digits give no result, whatever the bounds |
| `InputValidation.ValidateIntegerIgnoresSurroundingSpace` | src/password_gen/validators/input_validator.py:12 | whitespace that `int()` skips, around the input, does not change the result |
| `InputValidation.ValidateBoolean` | src/password_gen/validators/input_validator.py:25-34 | true exactly for `y`, `yes`, `true`, `1`; false exactly for `n`, `no`, `false`, `0`; none otherwise, all after lowercasing and stripping |
| `InputValidation.ValidateBooleanIgnoresCase` | src/password_gen/validators/input_validator.py:27 | the answer is the same for an input and its lowercase form |
| `InputValidation.ValidateBooleanIgnoresSurroundingSpace` | src/password_gen/validators/input_validator.py:27 | whitespace around the input does not change the answer |
| `InputValidation.ValidateBooleanYes` | src/password_gen/validators/input_validator.py:27-29 | `" Yes\n"` is true |
| `InputValidation.ValidateBooleanZeroAndMaybe` | src/password_gen/validators/input_validator.py:27-34 | `"0"` is false and `"maybe"` is neither |
| `Decimal.ParseIntToString` | src/password_gen/validators/input_validator.py:12 | `int(str(n)) == n` for every integer of at most 4300 digits, which is every integer `str` prints |
| `Decimal.ParseIntKeepsSeparators` | src/password_gen/validators/input_validator.py:12 | `int()` rejects a number with a U+001C to U+001F character at either end |
| `Decimal.ParseTooManyDigits` | src/password_gen/validators/input_validator.py:12 | `int()` rejects a run of more than 4300 digits |
| `Decimal.IntToStringInjective` | src/password_gen/validators/password_validator.py:34 | different integers print differently |
| `Decimal.ParseIntSurrounding` | src/password_gen/validators/input_validator.py:12 | `int()` ignores the whitespace it skips (tab to carriage return, space and non-ASCII whitespace) around the number |
| `Text.StripSurrounding` | src/password_gen/validators/input_validator.py:27 | `strip` removes any whitespace added at both ends |
| `Text.LowerIdempotent` | src/password_gen/validators/input_validator.py:27 | lowercasing twice is lowercasing once |
| `Checklist.FailedMember` | src/password_gen/validators/password_validator.py:31-57 | with distinct messages, a message is listed exactly when its check fails |
| `Checklist.PassedPlusFailed` | src/password_gen/validators/password_validator.py:31-57 | passed checks plus listed failures make up all checks |
| `Checklist.FailedInCheckOrder` | src/password_gen/validators/password_validator.py:31-57 | failures are listed in check order |
| `Checklist.FailedEmpty` | src/password_gen/strength.py:42-51 | nothing is listed exactly when every check passes |
| `Consistency.CoveredPasswordHints` | src/password_gen/strength.py:42-51 | a password covering the four generator categories draws at most the length hint |
| `Consistency.CoveredPasswordScore` | src/password_gen/validators/password_validator.py:31-57 | such a password scores at least 3, and 5 exactly when long enough and holding a validator special character |
| `Consistency.TildeOnlyPasswordCovers` | src/password_gen/generator.py:13 | `"abcdeF1~"` covers all four generator categories |
| `Consistency.TildeOnlyPasswordHints` | src/password_gen/strength.py:42-51 | the strength engine has no hint for `"abcdeF1~"` |
| `Consistency.TildeOnlyPasswordValidation` | src/password_gen/validators/password_validator.py:54-57 | the validator gives `"abcdeF1~"` score 4 and the single issue "Missing special chars" |

## Left out

- `main.py`, `utils.py` and `logging_config.py`: the command-line loop, prompts, clipboard and logging are I/O around the core and are not part of this model.
- The `print` calls in `validate_integer` and `validate_boolean`: only the returned value is modelled; the printed messages are not.
- The texts of the generator's `ValueError`s are represented by the `GenError` constructors and their arguments, not by the formatted strings.
- Generator.GeneratePassword: the uniformity and unpredictability of `secrets` are not modelled; the draws are arbitrary choices, so the contract holds for every outcome but says nothing about their distribution.
- Strength.EntropyBits: `math.log2` is a parameter and floating-point arithmetic is treated as exact real arithmetic.
- Strength.AssessPassword: `round(e, 2)` is a parameter, so the reported value is stated only as that function of the exact estimate.
- CharClasses.AnyOf: `str.islower`, `str.isupper`, `str.isdigit` and the regex `\d` also accept non-ASCII letters and digits; the model recognises ASCII only.
- Text.Lower: `str.lower` is modelled on ASCII letters only; other characters are unchanged.
- Decimal.ParseInt: `int()` also accepts non-ASCII decimal digits; the model accepts ASCII digits, an optional sign, single underscores between digits and the whitespace `int()` skips around them. The digit limit is fixed at CPython's default of 4300; older Pythons without the limit and a changed `sys.set_int_max_str_digits` setting are not modelled.
- Decimal.IntToString: `str(n)`, and the f-string in the length issue, raise `ValueError` for more than 4300 digits; the model prints every integer, so `Decimal.ParseIntToString` and `InputValidation.ValidateIntegerOfPrinted` are stated only for numbers `str` can print, and a `min_length` that long is not modelled as an error.
- `None` passed as the password or the input string (the source raises `TypeError` or `AttributeError`) is excluded by the types.
