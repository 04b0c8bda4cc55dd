/** The guess input (src/components/game/NumberInput.tsx): the digit-only
    change filter, the range check on submit and the placeholder range. */
module NumberInput {
  import opened Text

  /** `handleChange`: the text is forwarded to `onChange` only when it
      matches `^\d*$`. */
  function Forwarded(input: string): (r: Option<string>)
    ensures r.Some? <==> IsDigits(input)
    ensures r.Some? ==> r.value == input
  {
    if IsDigits(input) then Some(input) else None
  }

  /** `handleSubmit`'s guard: `Number(value)` must be a number in
      `[min, max]`; that number is what is submitted. */
  function Submitted(value: string, min: int, max: int): (r: Option<int>)
    ensures r.Some? ==> min <= r.value <= max
    ensures r.Some? <==> NumberOf(value).Some? && min <= NumberOf(value).value <= max
    ensures r.Some? ==> r == NumberOf(value)
  {
    match NumberOf(value)
    case None => None
    case Some(n) => if n < min || n > max then None else Some(n)
  }

  /** The value the digit filter forwarded is submitted as its decimal value
      when that lies in range. */
  lemma SubmitReadsDigits(value: string, min: int, max: int)
    requires Forwarded(value) == Some(value) && value != ""
    ensures Submitted(value, min, max) ==
            (if min <= DecimalValue(value) <= max then Some(DecimalValue(value)) else None)
  {
  }

  /** `actualMin || min`: the window bound unless it is undefined or 0. */
  function DisplayedBound(actual: Option<int>, fallback: int): (r: int)
    ensures (actual.Some? && actual.value != 0) ==> r == actual.value
    ensures (actual.None? || actual.value == 0) ==> r == fallback
  {
    if actual.Some? && actual.value != 0 then actual.value else fallback
  }

  /** Whether the submit button is disabled. */
  function SubmitDisabled(disabled: bool, value: string): (r: bool)
    ensures r <==> disabled || value == ""
  {
    disabled || |value| == 0
  }

  /** The input's one piece of state: whether it is shaking after a
      rejected submit. */
  class GuessInput {
    var isShaking: bool

    constructor ()
      ensures !isShaking
    {
      isShaking := false;
    }

    /** `handleSubmit`: returns the number passed to `onSubmit`, if any;
        a rejected value starts the shake instead. */
    method HandleSubmit(value: string, min: int, max: int) returns (submitted: Option<int>)
      modifies this
      ensures submitted == Submitted(value, min, max)
      ensures submitted.None? ==> isShaking
      ensures submitted.Some? ==> isShaking == old(isShaking)
    {
      var numberValue := NumberOf(value);
      if numberValue.None? || numberValue.value < min || numberValue.value > max {
        isShaking := true;
        return None;
      }
      submitted := numberValue;
    }
  }
}
