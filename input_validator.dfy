/**
 * `InputValidator`: two static, side-effect-free conversions of user input.
 * `None` stands for the `None` they return after printing a message.
 */
module InputValidation {
  import opened Wrappers
  import opened Text
  import opened Decimal

  /** `validate_integer`: parse with `int(value)`, then apply whichever bounds are given. */
  function ValidateInteger(value: string, minVal: Option<int> := None, maxVal: Option<int> := None): (r: Option<int>)
    ensures r.Some? ==> ParseInt(value) == Some(r.value)
    ensures r.Some? ==> (minVal.Some? ==> minVal.value <= r.value) && (maxVal.Some? ==> r.value <= maxVal.value)
    ensures r.None? <==> ParseInt(value).None?
                         || (minVal.Some? && ParseInt(value).value < minVal.value)
                         || (maxVal.Some? && ParseInt(value).value > maxVal.value)
  {
    match ParseInt(value)
    case None => None
    case Some(num) =>
      if minVal.Some? && num < minVal.value then None
      else if maxVal.Some? && num > maxVal.value then None
      else Some(num)
  }

  /**
   * The printed form of a number comes back as that number, exactly when it is
   * within the bounds; `str` prints at most `MaxStrDigits` digits.
   */
  lemma ValidateIntegerOfPrinted(n: int, minVal: Option<int>, maxVal: Option<int>)
    requires |NatToString(if n < 0 then -n else n)| <= MaxStrDigits
    ensures ValidateInteger(IntToString(n), minVal, maxVal) ==
      if (minVal.Some? && n < minVal.value) || (maxVal.Some? && n > maxVal.value) then None else Some(n)
  {
    ParseIntToString(n);
  }

  /** Whitespace that `int` skips, around the input, changes nothing. */
  lemma ValidateIntegerIgnoresSurroundingSpace(w1: string, value: string, w2: string, minVal: Option<int>, maxVal: Option<int>)
    requires IntSpace.All(w1) && IntSpace.All(w2)
    ensures ValidateInteger(w1 + value + w2, minVal, maxVal) == ValidateInteger(value, minVal, maxVal)
  {
    ParseIntSurrounding(w1, value, w2);
  }

  /** A U+001C to U+001F character next to the number makes the input invalid, though `str.strip` would remove it. */
  lemma ValidateIntegerRejectsSeparators(c: char, value: string, minVal: Option<int>, maxVal: Option<int>)
    requires '\U{1C}' <= c <= '\U{1F}'
    ensures ValidateInteger([c] + value, minVal, maxVal) == None
    ensures ValidateInteger(value + [c], minVal, maxVal) == None
  {
    ParseIntKeepsSeparators(c, value);
  }

  /** More than `MaxStrDigits` digits make the input invalid, whatever the bounds. */
  lemma ValidateIntegerRejectsLongInput(value: string, minVal: Option<int>, maxVal: Option<int>)
    requires AllDigits(value) && |value| > MaxStrDigits
    ensures ValidateInteger(value, minVal, maxVal) == None
  {
    ParseTooManyDigits(value);
  }

  const TrueTokens: seq<string> := ["y", "yes", "true", "1"]

  const FalseTokens: seq<string> := ["n", "no", "false", "0"]

  /** `value.lower().strip()`. */
  function Normalize(value: string): string {
    Strip(Lower(value), StripSpace)
  }

  /** `validate_boolean`. */
  function ValidateBoolean(value: string): (r: Option<bool>)
    ensures r == Some(true) <==> Normalize(value) in TrueTokens
    ensures r == Some(false) <==> Normalize(value) in FalseTokens
    ensures r == None <==> Normalize(value) !in TrueTokens && Normalize(value) !in FalseTokens
  {
    var v := Normalize(value);
    if v in TrueTokens then Some(true)
    else if v in FalseTokens then Some(false)
    else None
  }

  /** Letter case does not matter. */
  lemma ValidateBooleanIgnoresCase(value: string)
    ensures ValidateBoolean(Lower(value)) == ValidateBoolean(value)
  {
    LowerIdempotent(value);
  }

  /** Whitespace around the input does not matter. */
  lemma ValidateBooleanIgnoresSurroundingSpace(w1: string, value: string, w2: string)
    requires StripSpace.All(w1) && StripSpace.All(w2)
    ensures ValidateBoolean(w1 + value + w2) == ValidateBoolean(value)
  {
    LowerAppend(w1, value);
    LowerAppend(w1 + value, w2);
    LowerAllSpace(w1, StripSpace);
    LowerAllSpace(w2, StripSpace);
    StripSurrounding(w1, Lower(value), w2, StripSpace);
  }

  /** `" Yes\n"` reads as true. */
  lemma ValidateBooleanYes()
    ensures ValidateBoolean(" Yes\n") == Some(true)
  {
    var yes := "Yes";
    assert Lower(yes)[0] == 'y' && Lower(yes)[1] == 'e' && Lower(yes)[2] == 's';
    assert Lower(yes) == "yes";
    assert Strip("yes", StripSpace) == "yes" by {
      assert LStrip("yes", StripSpace) == "yes";
      assert RStrip("yes", StripSpace) == "yes";
    }
    assert " Yes\n" == " " + yes + "\n";
    ValidateBooleanIgnoresSurroundingSpace(" ", yes, "\n");
  }

  /** `"0"` reads as false and `"maybe"` as neither. */
  lemma ValidateBooleanZeroAndMaybe()
    ensures ValidateBoolean("0") == Some(false)
    ensures ValidateBoolean("maybe") == None
  {
    assert Lower("0") == "0" && Strip("0", StripSpace) == "0";
    var maybe := "maybe";
    assert Lower(maybe) == maybe by {
      forall i | 0 <= i < |maybe| ensures Lower(maybe)[i] == maybe[i] { }
    }
    assert Strip(maybe, StripSpace) == maybe by {
      assert LStrip(maybe, StripSpace) == maybe;
      assert RStrip(maybe, StripSpace) == maybe;
    }
  }
}
