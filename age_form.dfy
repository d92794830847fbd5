/**
 * The age form of `AgeInput.tsx`: the typed text is read with `parseInt`
 * and accepted only inside the supported range.
 */
module AgeForm {
  import opened Wrappers
  import opened JsText
  import opened JsNumber

  const MinAge: int := 6
  const MaxAge: int := 17
  const AgeRangeMessage: string := "Please enter an age between 6 and 17."

  /** The age a submission hands on, if any: the parsed number when it is a number in range. */
  function AgeOutcome(text: string): (r: Option<int>)
    ensures r.Some? <==> ParseInt(text).Num? && MinAge <= ParseInt(text).value <= MaxAge
    ensures r.Some? ==> r.value == ParseInt(text).value && MinAge <= r.value <= MaxAge
  {
    var ageNum := ParseInt(text);
    if ageNum.NaN? || ageNum.value < MinAge || ageNum.value > MaxAge then None else Some(ageNum.value)
  }

  /**
   * Every way of writing a supported age is accepted with that age:
   * leading white space, then the numeral, then anything not starting with
   * a digit (such as a fractional part).
   */
  lemma AcceptsWrittenAge(ws: string, n: nat, rest: string)
    requires forall i :: 0 <= i < |ws| ==> IsJsSpace(ws[i])
    requires MinAge <= n <= MaxAge
    requires rest == [] || !IsDigit(rest[0])
    ensures AgeOutcome(ws + Decimal(n) + rest) == Some(n)
  {
    assert ws + Decimal(n) + rest == ws + (Decimal(n) + rest);
    ParseIntSkipsSpace(ws, Decimal(n) + rest);
    ParseIntOfDecimal(n, rest);
  }

  /** A numeral outside the range, with or without a minus sign, is refused. */
  lemma RejectsOutOfRange(n: nat, rest: string)
    requires n < MinAge || n > MaxAge
    requires rest == [] || !IsDigit(rest[0])
    ensures AgeOutcome(Decimal(n) + rest) == None
    ensures n > 0 ==> AgeOutcome("-" + Decimal(n) + rest) == None
  {
    ParseIntOfDecimal(n, rest);
    ParseIntOfNegativeDecimal(n, rest);
  }

  /** Text without a digit is refused. */
  lemma RejectsNonNumeric(text: string)
    requires forall i :: 0 <= i < |text| ==> !IsDigit(text[i])
    ensures AgeOutcome(text) == None
  {
    ParseIntNoDigits(text);
  }

  /** The form's two state hooks. */
  class AgeInputForm {
    var age: string
    var error: string

    constructor()
      ensures age == "" && error == ""
    {
      age := "";
      error := "";
    }

    /** The input's `onChange`. */
    method SetAge(text: string)
      modifies this
      ensures age == text && error == old(error)
    {
      age := text;
    }

    /**
     * `handleSubmit`: an accepted age clears the message and is handed to
     * `onAgeSubmit` once; anything else shows the range message and hands
     * nothing on.
     */
    method HandleSubmit() returns (submitted: Option<int>)
      modifies this
      ensures submitted == AgeOutcome(age) && age == old(age)
      ensures submitted.Some? ==> error == "" && MinAge <= submitted.value <= MaxAge
      ensures submitted.None? ==> error == AgeRangeMessage
    {
      var ageNum := ParseInt(age);
      if ageNum.NaN? || ageNum.value < 6 || ageNum.value > 17 {
        error := AgeRangeMessage;
        return None;
      }
      error := "";
      submitted := Some(ageNum.value);
    }
  }
}
