/**
  The contact page: its field check, its input filter, and the form state
  that blur and submit update. Sending is the `sendEmail` action, whose mail
  relay verdict is a parameter.
 */
module ContactPage {
  import opened Wrappers
  import opened JsText
  import opened Patterns
  import opened ZodString
  import opened ContactSchema
  import opened Actions

  // ---------------------------------------------------------------- the form record

  function Read(d: ContactPost, f: ContactField): string {
    match f
    case NameField => d.name
    case EmailField => d.email
    case PhoneField => d.phone
    case CompanyField => d.company
    case MessageField => d.message
  }

  /** `{ ...d, [f]: v }`. */
  function Write(d: ContactPost, f: ContactField, v: string): (r: ContactPost)
    ensures Read(r, f) == v
    ensures forall g :: g != f ==> Read(r, g) == Read(d, g)
  {
    match f
    case NameField => d.(name := v)
    case EmailField => d.(email := v)
    case PhoneField => d.(phone := v)
    case CompanyField => d.(company := v)
    case MessageField => d.(message := v)
  }

  const EmptyPost: ContactPost := ContactPost("", "", "", "", "")

  // ---------------------------------------------------------------- validateField

  /**
    `validateField`: an empty value is fine for the company, too short for the
    message and required elsewhere; a phone with a character outside `+`,
    digits, white space and `-` is invalid; a name or company with a digit
    reports that; otherwise the field's schema reports its first failure.
   */
  function ValidateField(f: ContactField, value: string, isEmail: EmailRecogniser): Option<string> {
    if value == "" then
      if f == CompanyField then None else Some(if f == MessageField then "messageTooShort" else "required")
    else if f == PhoneField && !PhoneCharsMatch(value) then Some("invalidPhone")
    else if (f == NameField || f == CompanyField) && ContainsDigit(value) then
      Some(if f == NameField then "nameContainsNumbers" else "companyContainsNumbers")
    else FirstFailure(FieldChecks(f), value, isEmail)
  }

  /** What the field's schema accepts on its own, with the company allowed to stay empty. */
  predicate FieldAccepted(f: ContactField, value: string, isEmail: EmailRecogniser) {
    (f == CompanyField && value == "")
    || (value != "" && forall i :: 0 <= i < |FieldChecks(f)| ==> Passes(FieldChecks(f)[i], value, isEmail))
  }

  /**
    The hand-written steps only anticipate the schema: a field passes exactly
    when its schema accepts it. An empty value reports `required`, except
    that the message reports `messageTooShort` and the company nothing.
   */
  lemma ValidateFieldSpec(f: ContactField, value: string, isEmail: EmailRecogniser)
    ensures ValidateField(f, value, isEmail).None? <==> FieldAccepted(f, value, isEmail)
    ensures value == "" ==>
      ValidateField(f, value, isEmail) == if f == CompanyField then None else Some(if f == MessageField then "messageTooShort" else "required")
    ensures f == PhoneField && value != "" && !PhoneCharsMatch(value) ==> ValidateField(f, value, isEmail) == Some("invalidPhone")
    ensures f == NameField && value != "" && ContainsDigit(value) ==> ValidateField(f, value, isEmail) == Some("nameContainsNumbers")
    ensures f == CompanyField && value != "" && ContainsDigit(value) ==> ValidateField(f, value, isEmail) == Some("companyContainsNumbers")
  {
    var c := FieldChecks(f);
    FirstFailureIsEarliest(c, value, isEmail);
    if f == PhoneField && value != "" && !PhoneCharsMatch(value) {
      assert c[1] == PhoneShape("invalidPhone");
      if SchemaPhoneMatches(value) {
        SchemaPhoneHasPhoneChars(value);
      }
    }
    if (f == NameField || f == CompanyField) && value != "" && ContainsDigit(value) {
      assert !Passes(c[1], value, isEmail);
    }
  }

  /**
    A record every field check passes meets each server rule but the phone
    pattern, which the server spells differently: with that one too, the
    server accepts the post.
   */
  lemma ClientChecksCoverServer(d: ContactPost, isEmail: EmailRecogniser, phoneOk: PhonePattern)
    requires forall f :: ValidateField(f, Read(d, f), isEmail).None?
    ensures |d.name| >= 2 && isEmail(d.email) && |d.message| >= 10
    ensures |d.company| == 0 || |d.company| >= 2
    ensures phoneOk(d.phone) ==> ServerAccepts(d, isEmail, phoneOk)
  {
    assert ValidateField(NameField, Read(d, NameField), isEmail).None?;
    ValidateFieldSpec(NameField, d.name, isEmail);
    assert Passes(FieldChecks(NameField)[0], d.name, isEmail);
    assert ValidateField(EmailField, Read(d, EmailField), isEmail).None?;
    ValidateFieldSpec(EmailField, d.email, isEmail);
    assert Passes(FieldChecks(EmailField)[0], d.email, isEmail);
    assert ValidateField(CompanyField, Read(d, CompanyField), isEmail).None?;
    ValidateFieldSpec(CompanyField, d.company, isEmail);
    if d.company != "" {
      assert Passes(FieldChecks(CompanyField)[0], d.company, isEmail);
    }
    assert ValidateField(MessageField, Read(d, MessageField), isEmail).None?;
    ValidateFieldSpec(MessageField, d.message, isEmail);
    assert Passes(FieldChecks(MessageField)[0], d.message, isEmail);
  }

  /**
    The page's phone checks do not imply the server's expression: eight
    digits followed by `-` (such as `12345678-`) pass every page check, and
    a server expression that only accepts phones ending in a digit (as
    `([-]?[\s]?[0-9])+$` does) refuses them.
   */
  lemma PhoneGapWithServer(d: ContactPost, isEmail: EmailRecogniser, phoneOk: PhonePattern)
    requires |d.phone| == 9 && d.phone[8] == '-'
    requires forall i :: 0 <= i < 8 ==> IsDigit(d.phone[i])
    requires forall s :: phoneOk(s) ==> s != [] && IsDigit(s[|s| - 1])
    ensures ValidateField(PhoneField, d.phone, isEmail).None?
    ensures |d.name| >= 2 && isEmail(d.email) ==> ServerFirstIssue(d, isEmail, phoneOk) == Some(InvalidPattern)
  {
    DashEndedPhonePasses(d.phone, isEmail);
    assert !phoneOk(d.phone);
  }

  lemma DashEndedPhonePasses(p: string, isEmail: EmailRecogniser)
    requires |p| == 9 && p[8] == '-'
    requires forall i :: 0 <= i < 8 ==> IsDigit(p[i])
    ensures ValidateField(PhoneField, p, isEmail).None?
  {
    assert AfterOptionalPlus(p) == p;
    assert forall i :: 0 <= i < |p| ==> IsPhoneChar(p[i]);
    assert IsDigit(p[0]);
    var c := FieldChecks(PhoneField);
    assert Passes(c[0], p, isEmail) && Passes(c[1], p, isEmail) && Passes(c[2], p, isEmail);
    ValidateFieldSpec(PhoneField, p, isEmail);
  }

  // ---------------------------------------------------------------- handleInputChange

  /** A character the phone input keeps: a digit, white space, `-` or `+`. */
  predicate PhoneInputChar(c: char) { IsDigit(c) || IsSpace(c) || c == '-' || c == '+' }

  /** `value.replace(/[^\d\s-+]/g, "")`. */
  function Sanitize(s: string): (r: string)
    ensures |r| <= |s|
    ensures forall i :: 0 <= i < |r| ==> PhoneInputChar(r[i])
  {
    if s == [] then [] else (if PhoneInputChar(s[0]) then [s[0]] else []) + Sanitize(s[1..])
  }

  /** A value of kept characters only passes the filter unchanged. */
  lemma {:induction false} SanitizeKeepsClean(s: string)
    requires forall i :: 0 <= i < |s| ==> PhoneInputChar(s[i])
    ensures Sanitize(s) == s
  {
    if s != [] {
      SanitizeKeepsClean(s[1..]);
      assert s == [s[0]] + s[1..];
    }
  }

  /** Filtering a concatenation filters each part: the kept characters keep their order. */
  lemma {:induction false} SanitizeAppend(a: string, b: string)
    ensures Sanitize(a + b) == Sanitize(a) + Sanitize(b)
  {
    if a == [] {
      assert a + b == b;
    } else {
      assert (a + b)[0] == a[0];
      assert (a + b)[1..] == a[1..] + b;
      SanitizeAppend(a[1..], b);
    }
  }

  /** One character is kept exactly when it is a digit, white space, `-` or `+`. */
  lemma SanitizeChar(c: char)
    ensures PhoneInputChar(c) ==> Sanitize([c]) == [c]
    ensures !PhoneInputChar(c) ==> Sanitize([c]) == []
  {
    assert [c][1..] == [];
  }

  /** `"1a2"` becomes `"12"`: a dropped character leaves its neighbours in place. */
  lemma SanitizeDropsLetter()
    ensures Sanitize("1a2") == "12"
  {
    assert "1a2" == "1" + "a" + "2";
    SanitizeAppend("1" + "a", "2");
    SanitizeAppend("1", "a");
    SanitizeChar('1');
    SanitizeChar('a');
    SanitizeChar('2');
  }

  /**
    `handleInputChange`: a phone is filtered and the change dropped when a `+`
    remains anywhere but first; a digit typed into the name or company drops
    the change; any other change writes the field as typed.
   */
  function InputChanged(d: ContactPost, f: ContactField, value: string): ContactPost {
    if f == PhoneField && value != "" then
      var clean := Sanitize(value);
      if IndexOf(clean, '+') > 0 then d else Write(d, PhoneField, clean)
    else if (f == NameField || f == CompanyField) && ContainsDigit(value) then d
    else Write(d, f, value)
  }

  /**
    An input change touches its own field only. A stored phone holds only
    kept characters and, when it holds a `+`, starts with one; a clean phone
    whose only `+` leads is stored as typed. A name or company never takes a
    digit, and every other change is stored as typed.
   */
  lemma InputChangedSpec(d: ContactPost, f: ContactField, value: string)
    ensures forall g :: g != f ==> Read(InputChanged(d, f, value), g) == Read(d, g)
    ensures f == PhoneField && InputChanged(d, f, value) != d ==>
      var p := InputChanged(d, f, value).phone;
      (forall i :: 0 <= i < |p| ==> PhoneInputChar(p[i])) && ('+' in p ==> p[0] == '+')
    ensures f == PhoneField && value != "" ==>
      InputChanged(d, f, value).phone == (if IndexOf(Sanitize(value), '+') > 0 then d.phone else Sanitize(value))
    ensures f == PhoneField && (forall i :: 0 <= i < |value| ==> PhoneInputChar(value[i])) && IndexOf(value, '+') <= 0 ==>
      InputChanged(d, f, value).phone == value
    ensures (f == NameField || f == CompanyField) && ContainsDigit(value) ==> InputChanged(d, f, value) == d
    ensures (f == NameField || f == CompanyField) && !ContainsDigit(value) ==> Read(InputChanged(d, f, value), f) == value
    ensures f == EmailField || f == MessageField ==> Read(InputChanged(d, f, value), f) == value
  {
    if f == PhoneField && value != "" {
      var clean := Sanitize(value);
      if forall i :: 0 <= i < |value| ==> PhoneInputChar(value[i]) {
        SanitizeKeepsClean(value);
      }
      if IndexOf(clean, '+') <= 0 && '+' in clean {
        assert IndexOf(clean, '+') == 0;
      }
    }
  }

  /** `+1+2` is kept because its first `+` leads; `1+2` is refused. */
  lemma PlusPlacement(d: ContactPost)
    ensures InputChanged(d, PhoneField, "+1+2").phone == "+1+2"
    ensures InputChanged(d, PhoneField, "1+2") == d
  {
    assert Sanitize("+1+2") == "+1+2" by {
      SanitizeKeepsClean("+1+2");
    }
    assert Sanitize("1+2") == "1+2" by {
      SanitizeKeepsClean("1+2");
    }
    assert IndexOf("1+2", '+') == 1 by {
      assert "1+2"[1..] == "+2";
    }
  }

  /** A name free of digits stays free of digits whatever is typed into any field. */
  lemma NameNeverTakesDigits(d: ContactPost, f: ContactField, value: string)
    requires !ContainsDigit(d.name)
    ensures !ContainsDigit(InputChanged(d, f, value).name)
  {
    InputChangedSpec(d, f, value);
    assert Read(InputChanged(d, f, value), NameField) == InputChanged(d, f, value).name;
  }

  // ---------------------------------------------------------------- the form state

  /** Where an error is shown: beside a field, or above the form. */
  datatype ErrorSlot = FieldSlot(field: ContactField) | FormSlot

  /** The field errors after a check: a failure is written, a pass removes the entry. */
  function SetFieldError(errors: map<ErrorSlot, string>, f: ContactField, e: Option<string>): map<ErrorSlot, string> {
    match e
    case None => errors - {FieldSlot(f)}
    case Some(m) => errors[FieldSlot(f) := m]
  }

  /** The errors of the fields listed, as the submit loop collects them. */
  function ErrorsOver(fields: seq<ContactField>, d: ContactPost, isEmail: EmailRecogniser): map<ErrorSlot, string> {
    if fields == [] then map[]
    else
      var f := fields[|fields| - 1];
      SetFieldError(ErrorsOver(fields[..|fields| - 1], d, isEmail), f, ValidateField(f, Read(d, f), isEmail))
  }

  /** The collected errors are exactly the failing fields' messages, and nothing for the form. */
  lemma {:induction false} ErrorsOverSpec(fields: seq<ContactField>, d: ContactPost, isEmail: EmailRecogniser)
    ensures FormSlot !in ErrorsOver(fields, d, isEmail)
    ensures forall f :: FieldSlot(f) in ErrorsOver(fields, d, isEmail) <==> f in fields && ValidateField(f, Read(d, f), isEmail).Some?
    ensures forall f :: FieldSlot(f) in ErrorsOver(fields, d, isEmail) ==>
      ErrorsOver(fields, d, isEmail)[FieldSlot(f)] == ValidateField(f, Read(d, f), isEmail).value
  {
    if fields != [] {
      var init := fields[..|fields| - 1];
      ErrorsOverSpec(init, d, isEmail);
      assert fields == init + [fields[|fields| - 1]];
    }
  }

  /** Every field is listed. */
  lemma FieldListed(f: ContactField)
    ensures f in ContactFields
  {
    match f
    case NameField => assert ContactFields[0] == f;
    case EmailField => assert ContactFields[1] == f;
    case PhoneField => assert ContactFields[2] == f;
    case CompanyField => assert ContactFields[3] == f;
    case MessageField => assert ContactFields[4] == f;
  }

  /** The submit check finds no error exactly when every field passes. */
  lemma SubmitErrorsEmptyIff(d: ContactPost, isEmail: EmailRecogniser)
    ensures ErrorsOver(ContactFields, d, isEmail) == map[] <==> forall f :: ValidateField(f, Read(d, f), isEmail).None?
  {
    ErrorsOverSpec(ContactFields, d, isEmail);
    var e := ErrorsOver(ContactFields, d, isEmail);
    if e == map[] {
      forall f ensures ValidateField(f, Read(d, f), isEmail).None? {
        FieldListed(f);
        assert FieldSlot(f) !in e;
      }
    } else {
      var s :| s in e;
      assert s.FieldSlot?;
    }
  }

  const AllTouched: set<ContactField> := {NameField, EmailField, PhoneField, CompanyField, MessageField}

  class ContactForm {
    var data: ContactPost
    var errors: map<ErrorSlot, string>
    var touched: set<ContactField>
    var success: bool

    /** Every field starts empty, untouched and without error. */
    constructor()
      ensures data == EmptyPost && errors == map[] && touched == {} && !success
    {
      data := EmptyPost;
      errors := map[];
      touched := {};
      success := false;
    }

    /** The error a field shows: only once it has been touched. */
    function ShownError(f: ContactField): (r: Option<string>)
      reads this
      ensures r.Some? ==> f in touched && FieldSlot(f) in errors
    {
      if f in touched && FieldSlot(f) in errors then Some(errors[FieldSlot(f)]) else None
    }

    /** `handleInputChange`. */
    method HandleInputChange(f: ContactField, value: string)
      modifies this
      ensures data == InputChanged(old(data), f, value)
      ensures errors == old(errors) && touched == old(touched) && success == old(success)
    {
      if f == PhoneField && value != "" {
        var clean := Sanitize(value);
        if IndexOf(clean, '+') > 0 {
          return;
        }
        data := Write(data, PhoneField, clean);
        return;
      }
      if (f == NameField || f == CompanyField) && ContainsDigit(value) {
        return;
      }
      data := Write(data, f, value);
    }

    /** `handleBlur`: the field becomes touched and its error is its check's verdict on the current value. */
    method HandleBlur(f: ContactField, isEmail: EmailRecogniser)
      modifies this
      ensures touched == old(touched) + {f}
      ensures errors == SetFieldError(old(errors), f, ValidateField(f, Read(old(data), f), isEmail))
      ensures data == old(data) && success == old(success)
    {
      var error := ValidateField(f, Read(data, f), isEmail);
      touched := touched + {f};
      errors := SetFieldError(errors, f, error);
    }

    /**
      `handleSubmit`: check every field in record order; with any error, show
      all of them on every field and send nothing. Otherwise send, and either
      start over on success or show the action's error above the form.
     */
    method HandleSubmit(env: Env, isEmail: EmailRecogniser, phoneOk: PhonePattern, relayAccepts: bool) returns (sent: Option<Mail>)
      modifies this
      ensures var failing := ErrorsOver(ContactFields, old(data), isEmail);
        failing != map[] ==>
          && sent.None?
          && errors == failing && touched == AllTouched
          && data == old(data) && success == old(success)
      ensures var failing := ErrorsOver(ContactFields, old(data), isEmail);
        var (result, mail) := SendEmail(old(data), env, isEmail, phoneOk, relayAccepts);
        failing == map[] ==>
          && sent == mail
          && (result == Success ==> data == EmptyPost && errors == map[] && touched == {} && success)
          && (result.Failure? ==> data == old(data) && errors == map[FormSlot := result.error] && !success && touched == old(touched))
    {
      var newErrors, hasErrors := CollectErrors(isEmail);
      if hasErrors {
        errors := newErrors;
        touched := AllTouched;
        sent := None;
        return;
      }
      var (result, mail) := SendEmail(data, env, isEmail, phoneOk, relayAccepts);
      sent := mail;
      if result.Failure? {
        ShowFormError(result.error);
      } else {
        StartOver();
      }
    }

    /** The submit loop: every field's check, in record order, collecting the failures. */
    method CollectErrors(isEmail: EmailRecogniser) returns (newErrors: map<ErrorSlot, string>, hasErrors: bool)
      ensures newErrors == ErrorsOver(ContactFields, data, isEmail)
      ensures hasErrors <==> newErrors != map[]
    {
      newErrors := map[];
      hasErrors := false;
      var i := 0;
      while i < |ContactFields|
        invariant 0 <= i <= |ContactFields|
        invariant newErrors == ErrorsOver(ContactFields[..i], data, isEmail)
        invariant hasErrors <==> newErrors != map[]
      {
        var f := ContactFields[i];
        var error := ValidateField(f, Read(data, f), isEmail);
        assert ContactFields[..i + 1][..i] == ContactFields[..i];
        if error.Some? {
          newErrors := newErrors[FieldSlot(f) := error.value];
          hasErrors := true;
          assert FieldSlot(f) in newErrors;
        } else {
          ErrorsOverSpec(ContactFields[..i], data, isEmail);
          assert f !in ContactFields[..i];
          assert newErrors - {FieldSlot(f)} == newErrors;
        }
        i := i + 1;
      }
      assert ContactFields[..i] == ContactFields;
    }

    /** A refused send: the action's message shows above the form; the answers stay. */
    method ShowFormError(message: string)
      modifies this
      ensures errors == map[FormSlot := message] && !success
      ensures data == old(data) && touched == old(touched)
    {
      errors := map[FormSlot := message];
      success := false;
    }

    /** A sent message: the form starts over, with the success notice. */
    method StartOver()
      modifies this
      ensures data == EmptyPost && errors == map[] && touched == {} && success
    {
      errors := map[];
      touched := {};
      success := true;
      data := EmptyPost;
    }
  }
}
