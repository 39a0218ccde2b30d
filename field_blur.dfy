/**
  The blur handler the second step's components share: the blurred field is
  parsed on its own, as a one-key record, against a quote schema, and the
  field's entry in the component's local error map is set to the first
  message about that field, set to `""` when the failed parse says nothing
  about it, or deleted when the parse succeeds.
 */
module FieldBlur {
  import opened Wrappers
  import opened FormTypes
  import opened ZodString
  import opened QuoteSchema

  /** What a blur does to the field's entry: `Some(m)` writes `m`, `None` deletes the entry. */
  function BlurOutcome(schema: Schema, name: Key, value: string, isEmail: EmailRecogniser): Option<string> {
    OutcomeOf(Parse(schema, OneKey(name, value), isEmail), name)
  }

  /** The entry a list of issues leaves for `name`: its first message, `""`, or none when the list is empty. */
  function OutcomeOf(issues: seq<Issue>, name: Key): Option<string> {
    if issues == [] then None
    else
      var about := MessagesAt(issues, name);
      Some(if about != [] then about[0] else "")
  }

  /** The error map after a blur. Every other field's entry is left as it was. */
  function BlurUpdate(errors: map<Key, string>, schema: Schema, name: Key, value: string, isEmail: EmailRecogniser): (r: map<Key, string>)
    ensures forall k :: k != name ==> (k in r <==> k in errors) && (k in r ==> r[k] == errors[k])
    ensures name in r <==> Parse(schema, OneKey(name, value), isEmail) != []
  {
    match BlurOutcome(schema, name, value, isEmail)
    case None => errors - {name}
    case Some(m) => errors[name := m]
  }

  /**
    A one-key record never passes the base or the sea schema, so a blur
    never deletes the entry: a field that is fine ends up with `""`.
   */
  lemma BlurNeverDeletes(errors: map<Key, string>, name: Key, value: string, isEmail: EmailRecogniser)
    ensures BlurOutcome(BaseQuote, name, value, isEmail).Some?
    ensures BlurOutcome(SeaFreight, name, value, isEmail).Some?
    ensures name in BlurUpdate(errors, BaseQuote, name, value, isEmail)
    ensures name in BlurUpdate(errors, SeaFreight, name, value, isEmail)
  {
    OneKeyAborts(name, value, isEmail);
  }

  /** The message a blur writes, written as the first failing check of a text rule. */
  function TextBlurMessage(checks: seq<Check>, value: string, isEmail: EmailRecogniser): string {
    match FirstFailure(checks, value, isEmail)
    case Some(m) => m
    case None => ""
  }

  /**
    Blurring a field the base schema declares as text writes the first
    failing check of that field's rule, or `""` when every check passes.
   */
  lemma BaseTextBlur(i: int, value: string, isEmail: EmailRecogniser)
    requires 0 <= i < |BaseFields| && BaseFields[i].1.Text?
    ensures BlurOutcome(BaseQuote, BaseFields[i].0, value, isEmail)
      == Some(TextBlurMessage(BaseFields[i].1.checks, value, isEmail))
  {
    var k := BaseFields[i].0;
    var d := OneKey(k, value);
    BaseDistinct();
    MessagesAtParse(BaseQuote, d, isEmail, i);
    OneKeyAborts(k, value, isEmail);
    assert Get(d, k) == Str(value);
  }

  /**
    Blurring a field the sea schema declares as optional text writes `""`
    whatever its text: the optional rule accepts any text, and the
    shared-container refinements are skipped because the one-key record
    aborts on the missing keys.
   */
  lemma SeaOptionalBlur(i: int, value: string, isEmail: EmailRecogniser)
    requires 0 <= i < |SeaFields| && SeaFields[i].1 == OptionalText
    ensures BlurOutcome(SeaFreight, SeaFields[i].0, value, isEmail) == Some("")
  {
    var k := SeaFields[i].0;
    var d := OneKey(k, value);
    SeaDistinct();
    MessagesAtParse(SeaFreight, d, isEmail, i);
    OneKeyAborts(k, value, isEmail);
    assert Get(d, k) == Str(value);
  }

  /** Blurring a field the base schema does not declare writes `""`: no issue is about it. */
  lemma BaseUndeclaredBlur(name: Key, value: string, isEmail: EmailRecogniser)
    requires forall i :: 0 <= i < |BaseFields| ==> BaseFields[i].0 != name
    ensures BlurOutcome(BaseQuote, name, value, isEmail) == Some("")
  {
    MessagesAtParseUndeclared(BaseQuote, OneKey(name, value), isEmail, name);
    OneKeyAborts(name, value, isEmail);
  }

  /** A component's local error map, keyed by field. */
  class ErrorMap {
    var errors: map<Key, string>

    /** The map starts empty. */
    constructor()
      ensures errors == map[]
    {
      errors := map[];
    }

    /** `handleBlur`: parse the one-key record and set, clear or delete the field's entry. */
    method HandleBlur(schema: Schema, name: Key, value: string, isEmail: EmailRecogniser)
      modifies this
      ensures errors == BlurUpdate(old(errors), schema, name, value, isEmail)
    {
      var issues := Parse(schema, OneKey(name, value), isEmail);
      if issues != [] {
        var about := MessagesAt(issues, name);
        errors := errors[name := if about != [] then about[0] else ""];
      } else {
        errors := errors - {name};
      }
    }
  }
}
