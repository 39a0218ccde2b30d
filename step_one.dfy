/**
  The first wizard step's own blur check: a hand-written cascade over the
  four identity fields, whose message replaces that one field's entry in the
  step's local error record.
 */
module StepOne {
  import opened JsText
  import opened Patterns
  import opened FormTypes
  import opened QuoteSteps

  /**
    The message key a blur on `name` with text `value` produces: the first
    matching case of the cascade, or `""` when none matches.
   */
  function BlurMessage(name: Key, value: string): string {
    if IsBlank(value) then "required"
    else if name == Email && !EmailMatches(value) then "invalidEmail"
    else if name == Phone && !DigitsPhoneMatches(value) then "invalidPhone"
    else if name == CompanyNameSupplier && |value| < 2 then "companyTooShort"
    else if name == Name && |value| < 2 then "nameTooShort"
    else ""
  }

  /** What the cascade accepts, stated field by field on its own. */
  predicate Acceptable(name: Key, value: string) {
    if name == Email then EmailMatches(value)
    else if name == Phone then DigitsPhoneMatches(value)
    else if name == CompanyNameSupplier || name == Name then !IsBlank(value) && |value| >= 2
    else !IsBlank(value)
  }

  /**
    Blank text is reported as required before anything else; otherwise an
    e-mail that does not match the address pattern is invalid, a phone that
    does not match `^\+?\d{7,15}$` is invalid, and a company or name shorter
    than two characters (counted untrimmed) is too short. The message is empty
    exactly when the value is acceptable. Digits in a name are not refused.
   */
  lemma BlurMessageSpec(name: Key, value: string)
    ensures BlurMessage(name, value) == "required" <==> IsBlank(value)
    ensures BlurMessage(name, value) == "" <==> Acceptable(name, value)
    ensures !IsBlank(value) && name == Email && !EmailMatches(value) ==> BlurMessage(name, value) == "invalidEmail"
    ensures !IsBlank(value) && name == Phone && !DigitsPhoneMatches(value) ==> BlurMessage(name, value) == "invalidPhone"
    ensures !IsBlank(value) && name == CompanyNameSupplier && |value| < 2 ==> BlurMessage(name, value) == "companyTooShort"
    ensures !IsBlank(value) && name == Name && |value| < 2 ==> BlurMessage(name, value) == "nameTooShort"
    ensures name == Name && |value| >= 2 && !IsBlank(value) ==> BlurMessage(name, value) == ""
  {
    if name == Email && EmailMatches(value) {
      EmailMatchIsNotBlank(value);
    }
    if name == Phone && DigitsPhoneMatches(value) {
      DigitsPhoneIsNotBlank(value);
    }
  }

  /**
    On e-mail and phone the blur check and the page's step-one check agree:
    the blur clears the message exactly when the step-one record has no entry
    for that field. On the name the blur is stricter: a one-character name
    passes the page but not the blur.
   */
  lemma BlurAgreesWithStepOne(name: string, email: string, phone: string)
    ensures BlurMessage(Email, email) == "" <==> "email" !in StepOneErrors(name, email, phone)
    ensures BlurMessage(Phone, phone) == "" <==> "phone" !in StepOneErrors(name, email, phone)
    ensures BlurMessage(Name, name) == "" ==> "name" !in StepOneErrors(name, email, phone)
    ensures |name| == 1 && !IsBlank(name) ==> BlurMessage(Name, name) == "nameTooShort" && "name" !in StepOneErrors(name, email, phone)
  {
    BlurMessageSpec(Email, email);
    BlurMessageSpec(Phone, phone);
    BlurMessageSpec(Name, name);
    StepOneGate(name, email, phone);
  }

  /** The step's local error record, one entry per identity field. */
  class StepOneForm {
    var errors: map<Key, string>

    /** The four entries start empty. */
    constructor()
      ensures errors == map[Name := "", Email := "", Phone := "", CompanyNameSupplier := ""]
    {
      errors := map[Name := "", Email := "", Phone := "", CompanyNameSupplier := ""];
    }

    /** `handleBlur`: only the blurred field's entry changes, to the cascade's message. */
    method HandleBlur(name: Key, value: string)
      modifies this
      ensures errors == old(errors)[name := BlurMessage(name, value)]
    {
      var message := "";
      if IsBlank(value) {
        message := "required";
      } else if name == Email && !EmailMatches(value) {
        message := "invalidEmail";
      } else if name == Phone && !DigitsPhoneMatches(value) {
        message := "invalidPhone";
      } else if name == CompanyNameSupplier && |value| < 2 {
        message := "companyTooShort";
      } else if name == Name && |value| < 2 {
        message := "nameTooShort";
      }
      assert message == BlurMessage(name, value);
      errors := errors[name := message];
    }
  }
}
