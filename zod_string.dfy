/**
  String rules as the validation library applies them: a rule is an ordered
  list of checks, every failing check contributes its message in declaration
  order, and a caller that keeps one message keeps the first.
 */
module ZodString {
  import opened Wrappers
  import opened JsText
  import opened Patterns

  /**
    The library's e-mail recogniser. Its exact expression is internal to the
    library, so every operation that uses it takes it as a parameter.
   */
  type EmailRecogniser = string -> bool

  datatype Check =
    | MinLength(n: nat, message: string)   // `.min(n, message)`
    | EmailShape(message: string)          // `.email(message)`
    | PhoneShape(message: string)          // `.regex(/^\+?[0-9\s-]{8,}$/, message)`
    | NoDigit(message: string)             // `.refine(val => !/\d/.test(val), message)`
    | SomeDigit(message: string)           // `.refine(val => /\d/.test(val), message)`

  predicate Passes(c: Check, s: string, isEmail: EmailRecogniser) {
    match c
    case MinLength(n, _) => |s| >= n
    case EmailShape(_) => isEmail(s)
    case PhoneShape(_) => SchemaPhoneMatches(s)
    case NoDigit(_) => !ContainsDigit(s)
    case SomeDigit(_) => ContainsDigit(s)
  }

  /** The messages of the failing checks, in declaration order. */
  function FailingMessages(checks: seq<Check>, s: string, isEmail: EmailRecogniser): (r: seq<string>)
    ensures |r| <= |checks|
    ensures r == [] <==> forall i :: 0 <= i < |checks| ==> Passes(checks[i], s, isEmail)
    ensures forall m :: m in r ==> exists i :: 0 <= i < |checks| && checks[i].message == m && !Passes(checks[i], s, isEmail)
  {
    if checks == [] then []
    else
      var rest := FailingMessages(checks[1..], s, isEmail);
      assert forall i :: 1 <= i < |checks| ==> checks[i] == checks[1..][i - 1];
      if Passes(checks[0], s, isEmail) then rest else [checks[0].message] + rest
  }

  /**
    Checks run one after the other and each adds its own message: the
    messages of two lists of checks are those of the first followed by those
    of the second, and a single check adds its message exactly when it fails.
   */
  lemma {:induction false} FailingMessagesAppend(a: seq<Check>, b: seq<Check>, s: string, isEmail: EmailRecogniser)
    ensures FailingMessages(a + b, s, isEmail) == FailingMessages(a, s, isEmail) + FailingMessages(b, s, isEmail)
    ensures |a| == 1 ==> FailingMessages(a, s, isEmail) == (if Passes(a[0], s, isEmail) then [] else [a[0].message])
  {
    if a == [] {
      assert a + b == b;
    } else {
      assert (a + b)[0] == a[0];
      assert (a + b)[1..] == a[1..] + b;
      FailingMessagesAppend(a[1..], b, s, isEmail);
    }
  }

  /** Every failing check contributes its message. */
  lemma {:induction false} FailingMessagesComplete(checks: seq<Check>, s: string, isEmail: EmailRecogniser, i: int)
    requires 0 <= i < |checks| && !Passes(checks[i], s, isEmail)
    ensures checks[i].message in FailingMessages(checks, s, isEmail)
  {
    if i > 0 {
      assert checks[1..][i - 1] == checks[i];
      FailingMessagesComplete(checks[1..], s, isEmail, i - 1);
    }
  }

  /** The message a caller that keeps one issue shows: the first failing check's. */
  function FirstFailure(checks: seq<Check>, s: string, isEmail: EmailRecogniser): Option<string> {
    var ms := FailingMessages(checks, s, isEmail);
    if ms == [] then None else Some(ms[0])
  }

  /** The first failure is the message of the earliest check that fails, and every check before it passes. */
  lemma {:induction false} FirstFailureIsEarliest(checks: seq<Check>, s: string, isEmail: EmailRecogniser)
    ensures FirstFailure(checks, s, isEmail).None? <==> forall i :: 0 <= i < |checks| ==> Passes(checks[i], s, isEmail)
    ensures FirstFailure(checks, s, isEmail).Some? ==>
      exists i :: 0 <= i < |checks| && !Passes(checks[i], s, isEmail)
        && FirstFailure(checks, s, isEmail).value == checks[i].message
        && forall j :: 0 <= j < i ==> Passes(checks[j], s, isEmail)
  {
    if checks != [] {
      FirstFailureIsEarliest(checks[1..], s, isEmail);
      if !Passes(checks[0], s, isEmail) {
        assert FirstFailure(checks, s, isEmail).value == checks[0].message;
      } else if FirstFailure(checks, s, isEmail).Some? {
        var i :| 0 <= i < |checks[1..]| && !Passes(checks[1..][i], s, isEmail)
          && FirstFailure(checks[1..], s, isEmail).value == checks[1..][i].message
          && forall j :: 0 <= j < i ==> Passes(checks[1..][j], s, isEmail);
        assert forall j :: 1 <= j < i + 1 ==> checks[j] == checks[1..][j - 1];
        assert checks[i + 1] == checks[1..][i];
      }
    }
  }

  /** `.min(1, required).min(n, tooShort)`: the two-level length rule. */
  function LengthRule(required: string, tooShort: string, n: nat): seq<Check> {
    [MinLength(1, required), MinLength(n, tooShort)]
  }

  /**
    Under a two-level length rule with `n >= 1`, the empty text reports the
    required message, a text shorter than `n` the short one, anything else
    passes.
   */
  lemma LengthRuleFirstFailure(required: string, tooShort: string, n: nat, s: string, isEmail: EmailRecogniser)
    requires n >= 1
    ensures s == "" ==> FirstFailure(LengthRule(required, tooShort, n), s, isEmail) == Some(required)
    ensures 0 < |s| < n ==> FirstFailure(LengthRule(required, tooShort, n), s, isEmail) == Some(tooShort)
    ensures |s| >= n ==> FirstFailure(LengthRule(required, tooShort, n), s, isEmail) == None
  {
    var c := LengthRule(required, tooShort, n);
    assert c[1..] == [MinLength(n, tooShort)];
    assert c[1..][1..] == [];
    assert FailingMessages(c[1..], s, isEmail) == (if |s| >= n then [] else [tooShort]);
  }
}
