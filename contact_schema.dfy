/**
  The contact form's schema: one ordered check list per field, every
  failing check reporting its message in order.
 */
module ContactSchema {
  import opened Wrappers
  import opened JsText
  import opened Patterns
  import opened ZodString

  /** The contact form's fields, in the order the form record declares them. */
  datatype ContactField = NameField | EmailField | PhoneField | CompanyField | MessageField

  const ContactFields: seq<ContactField> := [NameField, EmailField, PhoneField, CompanyField, MessageField]

  const ContactNameChecks: seq<Check> := [MinLength(2, "nameTooShort"), NoDigit("nameContainsNumbers")]
  const ContactEmailChecks: seq<Check> := [EmailShape("invalidEmail")]
  const ContactPhoneChecks: seq<Check> := [MinLength(8, "invalidPhone"), PhoneShape("invalidPhone"), SomeDigit("invalidPhone")]
  /** The company rule; the field itself is optional. */
  const ContactCompanyChecks: seq<Check> := [MinLength(2, "companyTooShort"), NoDigit("companyContainsNumbers")]
  const ContactMessageChecks: seq<Check> := [MinLength(10, "messageTooShort")]

  function FieldChecks(f: ContactField): seq<Check> {
    match f
    case NameField => ContactNameChecks
    case EmailField => ContactEmailChecks
    case PhoneField => ContactPhoneChecks
    case CompanyField => ContactCompanyChecks
    case MessageField => ContactMessageChecks
  }

  /**
    A name, and likewise a company, reports first that it is shorter than two
    characters, then that it holds a digit.
   */
  lemma NameAndCompanyRules(s: string, isEmail: EmailRecogniser)
    ensures FirstFailure(ContactNameChecks, s, isEmail) ==
      if |s| < 2 then Some("nameTooShort") else if ContainsDigit(s) then Some("nameContainsNumbers") else None
    ensures FirstFailure(ContactCompanyChecks, s, isEmail) ==
      if |s| < 2 then Some("companyTooShort") else if ContainsDigit(s) then Some("companyContainsNumbers") else None
  {
    assert ContactNameChecks[1..][1..] == [] && ContactCompanyChecks[1..][1..] == [];
    assert FailingMessages(ContactNameChecks[1..], s, isEmail) == if ContainsDigit(s) then ["nameContainsNumbers"] else [];
    assert FailingMessages(ContactCompanyChecks[1..], s, isEmail) == if ContainsDigit(s) then ["companyContainsNumbers"] else [];
  }

  /**
    A phone passes exactly when it matches `^\+?[0-9\s-]{8,}$` and holds a
    digit; every failure reports `invalidPhone`.
   */
  lemma ContactPhoneRule(s: string, isEmail: EmailRecogniser)
    ensures FirstFailure(ContactPhoneChecks, s, isEmail).None? <==> SchemaPhoneMatches(s) && ContainsDigit(s)
    ensures FirstFailure(ContactPhoneChecks, s, isEmail).Some? ==> FirstFailure(ContactPhoneChecks, s, isEmail) == Some("invalidPhone")
  {
    var c := ContactPhoneChecks;
    if SchemaPhoneMatches(s) {
      assert |AfterOptionalPlus(s)| <= |s|;
    }
    FirstFailureIsEarliest(c, s, isEmail);
    assert c[0] == MinLength(8, "invalidPhone") && c[1] == PhoneShape("invalidPhone") && c[2] == SomeDigit("invalidPhone");
    assert forall i :: 0 <= i < |c| ==> c[i].message == "invalidPhone";
  }

  /** The e-mail reports `invalidEmail` exactly when the recogniser refuses it; the message needs ten characters. */
  lemma EmailAndMessageRules(s: string, isEmail: EmailRecogniser)
    ensures FirstFailure(ContactEmailChecks, s, isEmail) == if isEmail(s) then None else Some("invalidEmail")
    ensures FirstFailure(ContactMessageChecks, s, isEmail) == if |s| < 10 then Some("messageTooShort") else None
  {
    assert ContactEmailChecks[1..] == [] && ContactMessageChecks[1..] == [];
  }
}
