/**
 * One question on the respondent's screen: answering forwards the value and
 * clears any error; validating a required question with no real answer
 * shows "This field is required".
 */
module SurveyQuestion {
  import opened Wrappers
  import opened Strings

  const RequiredMessage := "This field is required"

  /** `!response || response.trim() === ''` for a text or option answer. */
  predicate Missing(response: Option<string>) {
    response.None? || IsBlank(response.value)
  }

  /** The verdict of `validateResponse` and the error it leaves. */
  function Validate(required: bool, response: Option<string>): (r: (bool, string))
    ensures r.0 <==> !(required && Missing(response))
    ensures r.1 == if r.0 then "" else RequiredMessage
  {
    if required && Missing(response) then (false, RequiredMessage) else (true, "")
  }

  /** An answer of only white space is refused exactly like no answer. */
  lemma BlankLikeMissing(required: bool, s: string)
    requires AllSpace(s)
    ensures Validate(required, Some(s)) == Validate(required, None)
    ensures Validate(required, Some("")) == Validate(required, None)
  {
    BlankIffAllSpace(s);
    BlankIffAllSpace("");
  }

  /** A question that is not required accepts anything. */
  lemma OptionalAlwaysValid(response: Option<string>)
    ensures Validate(false, response) == (true, "")
  {
  }

  class QuestionView {
    const required: bool
    var validationError: string

    constructor(required: bool)
      ensures this.required == required && validationError == ""
    {
      this.required := required;
      validationError := "";
    }

    method ValidateResponse(response: Option<string>) returns (ok: bool)
      modifies this
      ensures (ok, validationError) == Validate(required, response)
    {
      if required && Missing(response) {
        validationError := RequiredMessage;
        return false;
      }
      validationError := "";
      return true;
    }

    /** `handleTextResponse`: the text goes to `onResponse` and the error clears. */
    method HandleTextResponse(text: string) returns (forwarded: string)
      modifies this
      ensures forwarded == text && validationError == ""
    {
      forwarded := text;
      if validationError != "" {
        validationError := "";
      }
    }

    /** `handleRadioResponse`: the option goes to `onResponse` and the error clears. */
    method HandleRadioResponse(option: string) returns (forwarded: string)
      modifies this
      ensures forwarded == option && validationError == ""
    {
      forwarded := option;
      if validationError != "" {
        validationError := "";
      }
    }
  }
}
