/**
  The checks the quote wizard runs before leaving a step: the hand-written
  step-one checks, the first-message-per-field reduction of a parse, the
  choice of the step-two schema and the filter that waives the pickup address
  under `FOB`.
 */
module QuoteSteps {
  import opened Wrappers
  import opened JsText
  import opened Patterns
  import opened FormTypes
  import opened ZodString
  import opened QuoteSchema

  // ---------------------------------------------------------------- step one

  /**
    The step-one error record: `name` when the name is blank, `email` when the
    address is blank or does not match the address pattern, `phone` when the
    phone is blank or does not match `^\+?\d{7,15}$`.
   */
  function StepOneErrors(name: string, email: string, phone: string): map<string, string> {
    var withName := if IsBlank(name) then map["name" := "nameTooShort"] else map[];
    var withEmail := if IsBlank(email) || !EmailMatches(email) then withName["email" := "invalidEmail"] else withName;
    if IsBlank(phone) || !DigitsPhoneMatches(phone) then withEmail["phone" := "invalidPhone"] else withEmail
  }

  /**
    Step one passes exactly when the name is not blank, the e-mail matches
    the address pattern and the phone matches the digit pattern; the blank
    tests on e-mail and phone never decide anything, since both patterns
    reject blank text.
   */
  lemma StepOneGate(name: string, email: string, phone: string)
    ensures "name" in StepOneErrors(name, email, phone) <==> IsBlank(name)
    ensures "email" in StepOneErrors(name, email, phone) <==> !EmailMatches(email)
    ensures "phone" in StepOneErrors(name, email, phone) <==> !DigitsPhoneMatches(phone)
    ensures StepOneErrors(name, email, phone).Keys <= {"name", "email", "phone"}
    ensures StepOneErrors(name, email, phone) == map[] <==>
      !IsBlank(name) && EmailMatches(email) && DigitsPhoneMatches(phone)
    ensures forall k :: k in StepOneErrors(name, email, phone) ==>
      StepOneErrors(name, email, phone)[k] == (if k == "name" then "nameTooShort" else if k == "email" then "invalidEmail" else "invalidPhone")
  {
    if EmailMatches(email) { EmailMatchIsNotBlank(email); }
    if DigitsPhoneMatches(phone) { DigitsPhoneIsNotBlank(phone); }
    var e := StepOneErrors(name, email, phone);
    if e == map[] {
      assert "name" !in e && "email" !in e && "phone" !in e;
    }
  }

  /** `validateStepOne`: fills the error record field by field and reports whether it stayed empty. */
  method ValidateStepOne(name: string, email: string, phone: string) returns (errors: map<string, string>, ok: bool)
    ensures errors == StepOneErrors(name, email, phone)
    ensures ok <==> errors == map[]
    ensures ok <==> !IsBlank(name) && EmailMatches(email) && DigitsPhoneMatches(phone)
  {
    errors := map[];
    if IsBlank(name) {
      errors := errors["name" := "nameTooShort"];
    }
    ghost var withName := errors;
    if IsBlank(email) || !EmailMatches(email) {
      errors := errors["email" := "invalidEmail"];
    }
    ghost var withEmail := errors;
    if IsBlank(phone) || !DigitsPhoneMatches(phone) {
      errors := errors["phone" := "invalidPhone"];
    }
    assert withName == if IsBlank(name) then map["name" := "nameTooShort"] else map[];
    assert withEmail == if IsBlank(email) || !EmailMatches(email) then withName["email" := "invalidEmail"] else withName;
    StepOneGate(name, email, phone);
    ok := |errors| == 0;
  }

  // ---------------------------------------------------------------- first message per field

  predicate HasPath(entries: seq<(Key, string)>, k: Key) {
    exists j :: 0 <= j < |entries| && entries[j].0 == k
  }

  /**
    The first message of every key that has issues, in the order in which the
    keys first occur: each issue is kept unless its key was seen before.
   */
  function FirstPerPath(issues: seq<Issue>): seq<(Key, string)>
    decreases |issues|
  {
    if issues == [] then []
    else
      var prefix := FirstPerPath(issues[..|issues| - 1]);
      var last := issues[|issues| - 1];
      if HasPath(prefix, last.path) then prefix else prefix + [(last.path, last.message)]
  }

  /** The reference reading: the message of the earliest issue about `k`. */
  function FirstMessage(issues: seq<Issue>, k: Key): Option<string> {
    if issues == [] then None
    else if issues[0].path == k then Some(issues[0].message)
    else FirstMessage(issues[1..], k)
  }

  lemma {:induction false} FirstMessageSnoc(issues: seq<Issue>, x: Issue, k: Key)
    ensures FirstMessage(issues + [x], k) ==
      if FirstMessage(issues, k).Some? then FirstMessage(issues, k)
      else if x.path == k then Some(x.message) else None
  {
    if issues == [] {
      assert issues + [x] == [x];
    } else {
      assert (issues + [x])[1..] == issues[1..] + [x];
      FirstMessageSnoc(issues[1..], x, k);
    }
  }

  lemma {:induction false} FirstMessageNoneIff(issues: seq<Issue>, k: Key)
    ensures FirstMessage(issues, k).None? <==> forall i :: 0 <= i < |issues| ==> issues[i].path != k
  {
    if issues != [] {
      FirstMessageNoneIff(issues[1..], k);
      assert forall i :: 1 <= i < |issues| ==> issues[i] == issues[1..][i - 1];
    }
  }

  lemma HasPathSnoc(entries: seq<(Key, string)>, e: (Key, string), k: Key)
    ensures HasPath(entries + [e], k) <==> HasPath(entries, k) || e.0 == k
  {
    var r := entries + [e];
    if HasPath(r, k) {
      var j :| 0 <= j < |r| && r[j].0 == k;
      if j < |entries| { assert entries[j] == r[j]; }
    }
    if HasPath(entries, k) {
      var j :| 0 <= j < |entries| && entries[j].0 == k;
      assert r[j] == entries[j];
    }
    assert r[|entries|] == e;
  }

  /** The reduction keeps exactly the keys that have issues. */
  lemma {:induction false} FirstPerPathKeys(issues: seq<Issue>, k: Key)
    ensures HasPath(FirstPerPath(issues), k) <==> FirstMessage(issues, k).Some?
    decreases |issues|
  {
    if issues != [] {
      var init := issues[..|issues| - 1];
      var last := issues[|issues| - 1];
      assert issues == init + [last];
      FirstPerPathKeys(init, k);
      FirstPerPathKeys(init, last.path);
      FirstMessageSnoc(init, last, k);
      HasPathSnoc(FirstPerPath(init), (last.path, last.message), k);
    }
  }

  /** The reduction keeps each key once. */
  lemma {:induction false} FirstPerPathDistinct(issues: seq<Issue>)
    ensures forall i, j :: 0 <= i < j < |FirstPerPath(issues)| ==> FirstPerPath(issues)[i].0 != FirstPerPath(issues)[j].0
    decreases |issues|
  {
    if issues != [] {
      var init := issues[..|issues| - 1];
      FirstPerPathDistinct(init);
    }
  }

  /** What the reduction keeps for a key is that key's earliest message. */
  lemma {:induction false} FirstPerPathMessages(issues: seq<Issue>)
    ensures forall i :: 0 <= i < |FirstPerPath(issues)| ==>
      FirstMessage(issues, FirstPerPath(issues)[i].0) == Some(FirstPerPath(issues)[i].1)
    decreases |issues|
  {
    if issues != [] {
      var init := issues[..|issues| - 1];
      var last := issues[|issues| - 1];
      assert issues == init + [last];
      FirstPerPathMessages(init);
      FirstPerPathKeys(init, last.path);
      var prefix := FirstPerPath(init);
      var r := FirstPerPath(issues);
      forall i | 0 <= i < |r| ensures FirstMessage(issues, r[i].0) == Some(r[i].1) {
        FirstMessageSnoc(init, last, r[i].0);
        if i < |prefix| {
          assert r[i] == prefix[i];
        }
      }
    }
  }

  /**
    The reduction keeps each key once, in the order of the key's first issue;
    it keeps exactly the keys that have issues; and what it keeps for a key is
    that key's earliest message.
   */
  lemma FirstPerPathSpec(issues: seq<Issue>)
    ensures forall i, j :: 0 <= i < j < |FirstPerPath(issues)| ==> FirstPerPath(issues)[i].0 != FirstPerPath(issues)[j].0
    ensures forall i, j :: 0 <= i < j < |FirstPerPath(issues)| ==>
      0 <= FirstAt(issues, FirstPerPath(issues)[i].0) < FirstAt(issues, FirstPerPath(issues)[j].0)
    ensures forall k :: HasPath(FirstPerPath(issues), k) <==> FirstMessage(issues, k).Some?
    ensures forall k :: FirstMessage(issues, k).Some? <==> exists i :: 0 <= i < |issues| && issues[i].path == k
    ensures forall i :: 0 <= i < |FirstPerPath(issues)| ==>
      FirstMessage(issues, FirstPerPath(issues)[i].0) == Some(FirstPerPath(issues)[i].1)
  {
    FirstPerPathDistinct(issues);
    FirstPerPathOrder(issues);
    FirstPerPathMessages(issues);
    forall k ensures HasPath(FirstPerPath(issues), k) <==> FirstMessage(issues, k).Some? {
      FirstPerPathKeys(issues, k);
    }
    forall k ensures FirstMessage(issues, k).Some? <==> exists i :: 0 <= i < |issues| && issues[i].path == k {
      FirstMessageNoneIff(issues, k);
    }
  }

  /** The position of the earliest issue about `k`, or -1 when none is. */
  function FirstAt(issues: seq<Issue>, k: Key): (r: int)
    ensures -1 <= r < |issues|
    ensures r == -1 <==> forall i :: 0 <= i < |issues| ==> issues[i].path != k
    ensures r >= 0 ==> issues[r].path == k && forall i :: 0 <= i < r ==> issues[i].path != k
  {
    if issues == [] then -1
    else if issues[0].path == k then 0
    else
      var p := FirstAt(issues[1..], k);
      assert forall i :: 1 <= i < |issues| ==> issues[i] == issues[1..][i - 1];
      if p == -1 then -1 else p + 1
  }

  lemma FirstAtSnoc(issues: seq<Issue>, x: Issue, k: Key)
    ensures FirstAt(issues + [x], k) ==
      if FirstAt(issues, k) >= 0 then FirstAt(issues, k)
      else if x.path == k then |issues| else -1
  {
    var s := issues + [x];
    assert forall i :: 0 <= i < |issues| ==> s[i] == issues[i];
    assert s[|issues|] == x;
  }

  /**
    The reduction lists the keys in the order of their first issue: an entry
    before another is about a key whose earliest issue comes first.
   */
  lemma {:induction false} FirstPerPathOrder(issues: seq<Issue>)
    ensures forall i :: 0 <= i < |FirstPerPath(issues)| ==> FirstAt(issues, FirstPerPath(issues)[i].0) >= 0
    ensures forall i, j :: 0 <= i < j < |FirstPerPath(issues)| ==>
      FirstAt(issues, FirstPerPath(issues)[i].0) < FirstAt(issues, FirstPerPath(issues)[j].0)
    decreases |issues|
  {
    if issues != [] {
      var init := issues[..|issues| - 1];
      var last := issues[|issues| - 1];
      assert issues == init + [last];
      FirstPerPathOrder(init);
      var prefix := FirstPerPath(init);
      var r := FirstPerPath(issues);
      forall i | 0 <= i < |prefix| ensures FirstAt(issues, prefix[i].0) == FirstAt(init, prefix[i].0) {
        FirstAtSnoc(init, last, prefix[i].0);
      }
      if r != prefix {
        assert !HasPath(prefix, last.path);
        FirstPerPathKeys(init, last.path);
        FirstMessageNoneIff(init, last.path);
        FirstAtSnoc(init, last, last.path);
        assert r == prefix + [(last.path, last.message)];
        assert FirstAt(issues, r[|prefix|].0) == |init|;
        assert forall i :: 0 <= i < |prefix| ==> r[i] == prefix[i];
      }
    }
  }

  /** The earliest message about a key is the first of the messages at that key. */
  lemma {:induction false} FirstMessageAt(issues: seq<Issue>, k: Key)
    ensures FirstMessage(issues, k) == if MessagesAt(issues, k) == [] then None else Some(MessagesAt(issues, k)[0])
  {
    if issues != [] {
      FirstMessageAt(issues[1..], k);
    }
  }

  /**
    The reduction holds an entry for `k` exactly when some issue is about `k`,
    and that entry carries the first message about `k`.
   */
  lemma EntryFor(issues: seq<Issue>, k: Key)
    ensures MessagesAt(issues, k) != [] ==> (k, MessagesAt(issues, k)[0]) in FirstPerPath(issues)
    ensures MessagesAt(issues, k) == [] ==> forall e :: e in FirstPerPath(issues) ==> e.0 != k
  {
    FirstMessageAt(issues, k);
    FirstPerPathKeys(issues, k);
    FirstPerPathMessages(issues);
    var r := FirstPerPath(issues);
    if MessagesAt(issues, k) != [] {
      var j :| 0 <= j < |r| && r[j].0 == k;
      assert r[j] == (k, MessagesAt(issues, k)[0]);
    } else {
      forall e | e in r ensures e.0 != k {
        var j :| 0 <= j < |r| && r[j] == e;
        assert HasPath(r, e.0);
      }
    }
  }

  /** The reduction as the step-two check writes it: a loop that records an issue unless its key was seen. */
  method CollectFirstPerPath(issues: seq<Issue>) returns (entries: seq<(Key, string)>)
    ensures entries == FirstPerPath(issues)
  {
    var seen: set<Key> := {};
    entries := [];
    var i := 0;
    while i < |issues|
      invariant 0 <= i <= |issues|
      invariant entries == FirstPerPath(issues[..i])
      invariant forall k :: k in seen <==> HasPath(entries, k)
    {
      var err := issues[i];
      assert issues[..i + 1][..i] == issues[..i];
      assert issues[..i + 1][i] == err;
      if err.path !in seen {
        seen := seen + {err.path};
        var before := entries;
        entries := entries + [(err.path, err.message)];
        forall k ensures k in seen <==> HasPath(entries, k) {
          HasPathSnoc(before, (err.path, err.message), k);
        }
      }
      i := i + 1;
    }
    assert issues[..|issues|] == issues;
  }

  /** The messages of the kept entries, in order. */
  function EntryMessages(entries: seq<(Key, string)>): (r: seq<string>)
    ensures |r| == |entries|
    ensures forall i :: 0 <= i < |r| ==> r[i] == entries[i].1
  {
    seq(|entries|, i requires 0 <= i < |entries| => entries[i].1)
  }

  // ---------------------------------------------------------------- step two

  /** The step-two schema: the sea schema for sea freight, the base schema for anything else. */
  function BranchSchema(serviceType: Option<Service>): Schema {
    if serviceType == Some(Sea) then SeaFreight else BaseQuote
  }

  /** The entries left after dropping those about key `k`. */
  function WithoutPath(entries: seq<(Key, string)>, k: Key): (r: seq<(Key, string)>)
    ensures forall e :: e in r <==> e in entries && e.0 != k
    ensures |r| <= |entries|
  {
    if entries == [] then []
    else (if entries[0].0 == k then [] else [entries[0]]) + WithoutPath(entries[1..], k)
  }

  /** Under the `FOB` term the pickup address is waived: its entries are dropped. */
  function FobFilter(entries: seq<(Key, string)>, d: Data): seq<(Key, string)> {
    if Get(d, ShippingTerm) == Str("FOB") then WithoutPath(entries, ExactPickupAddress) else entries
  }

  /** `validateStepTwo`: the first message per key of the step-two schema's parse. */
  method ValidateStepTwo(serviceType: Option<Service>, d: Data, isEmail: EmailRecogniser) returns (errors: seq<(Key, string)>)
    ensures errors == FirstPerPath(Parse(BranchSchema(serviceType), d, isEmail))
  {
    var issues := Parse(BranchSchema(serviceType), d, isEmail);
    if issues == [] {
      return [];
    }
    errors := CollectFirstPerPath(issues);
  }

  /**
    After the `FOB` filter no entry is about the pickup address, and every
    other entry survives; under any other term nothing is dropped.
   */
  lemma FobFilterSpec(entries: seq<(Key, string)>, d: Data)
    ensures Get(d, ShippingTerm) == Str("FOB") ==> forall e :: e in FobFilter(entries, d) <==> e in entries && e.0 != ExactPickupAddress
    ensures Get(d, ShippingTerm) != Str("FOB") ==> FobFilter(entries, d) == entries
  {
  }

  /** The step-two entries are empty exactly when the step-two schema accepts the record. */
  lemma StepTwoEmptyIff(serviceType: Option<Service>, d: Data, isEmail: EmailRecogniser)
    ensures FirstPerPath(Parse(BranchSchema(serviceType), d, isEmail)) == [] <==> Parse(BranchSchema(serviceType), d, isEmail) == []
  {
    var issues := Parse(BranchSchema(serviceType), d, isEmail);
    if issues != [] {
      FirstPerPathKeys(issues, issues[0].path);
    }
  }

  /** What the step-two check reports: the first message per key of the step-two parse, after the `FOB` filter. */
  function StepTwoFindings(serviceType: Option<Service>, d: Data, isEmail: EmailRecogniser): seq<(Key, string)> {
    FobFilter(FirstPerPath(Parse(BranchSchema(serviceType), d, isEmail)), d)
  }

  /**
    With no pickup address, the step-two check reports `Required` for it
    exactly when the shipping term is not `FOB`, for either schema; under
    `FOB` it reports nothing about the pickup address at all.
   */
  lemma PickupRequiredUnlessFob(serviceType: Option<Service>, d: Data, isEmail: EmailRecogniser)
    requires Get(d, ExactPickupAddress) == Undefined
    ensures (ExactPickupAddress, "Required") in StepTwoFindings(serviceType, d, isEmail) <==> Get(d, ShippingTerm) != Str("FOB")
    ensures Get(d, ShippingTerm) == Str("FOB") ==> forall e :: e in StepTwoFindings(serviceType, d, isEmail) ==> e.0 != ExactPickupAddress
  {
    var issues := Parse(BranchSchema(serviceType), d, isEmail);
    PickupMissingIsRequired(serviceType, d, isEmail);
    EntryFor(issues, ExactPickupAddress);
    FobFilterSpec(FirstPerPath(issues), d);
  }

  /** Either step-two schema reports a missing pickup address first as `Required`. */
  lemma PickupMissingIsRequired(serviceType: Option<Service>, d: Data, isEmail: EmailRecogniser)
    requires Get(d, ExactPickupAddress) == Undefined
    ensures MessagesAt(Parse(BranchSchema(serviceType), d, isEmail), ExactPickupAddress) != []
    ensures MessagesAt(Parse(BranchSchema(serviceType), d, isEmail), ExactPickupAddress)[0] == "Required"
  {
    if BranchSchema(serviceType) == SeaFreight {
      SeaPickupAddress(d, isEmail);
    } else {
      BasePickupAddress(d, isEmail);
    }
  }

  /**
    For sea freight in a shared container whose keys all passed their type
    checks, a missing or one-character package count is reported by the
    step-two check, whatever the shipping term.
   */
  /** When every field other than `k` is accepted, every field issue is about `k`. */
  lemma {:induction false} FieldIssuesOnlyAt(fields: seq<(Key, Rule)>, d: Data, isEmail: EmailRecogniser, k: Key)
    requires forall i :: 0 <= i < |fields| && fields[i].0 != k ==> Accepts(fields[i].1, Get(d, fields[i].0), isEmail)
    ensures forall x :: x in FieldIssues(fields, d, isEmail) ==> x.path == k
  {
    if fields != [] {
      assert forall i :: 1 <= i < |fields| ==> fields[i] == fields[1..][i - 1];
      FieldIssuesOnlyAt(fields[1..], d, isEmail, k);
      var (k0, rule) := fields[0];
      var ms := FieldOutcome(rule, Get(d, k0), isEmail).messages;
      assert k0 != k ==> ms == [];
      forall x | x in Tag(k0, ms) ensures x.path == k {
        var j :| 0 <= j < |Tag(k0, ms)| && Tag(k0, ms)[j] == x;
      }
    }
  }

  /**
    Under `FOB` with no pickup address the sea parse aborts on that address,
    so the shared-container refinements are never run; the `FOB` filter then
    drops the only finding. A sea `LCL` record whose other fields pass its
    type checks therefore leaves step two with nothing reported, whatever its
    package count, dimensions and weight.
   */
  lemma FobSkipsLclFindings(d: Data, isEmail: EmailRecogniser)
    requires Get(d, ShippingTerm) == Str("FOB") && Get(d, ExactPickupAddress) == Undefined
    requires forall i :: 0 <= i < |SeaFields| && SeaFields[i].0 != ExactPickupAddress ==>
      Accepts(SeaFields[i].1, Get(d, SeaFields[i].0), isEmail)
    ensures Aborted(SeaFields, d, isEmail)
    ensures StepTwoFindings(Some(Sea), d, isEmail) == []
  {
    SeaExtendsBase();
    BasePositions();
    assert SeaFields[10] == (ExactPickupAddress, Text(PickupChecks));
    assert FieldOutcome(SeaFields[10].1, Get(d, SeaFields[10].0), isEmail).aborted;
    var issues := Parse(SeaFreight, d, isEmail);
    assert issues == FieldIssues(SeaFields, d, isEmail);
    FieldIssuesOnlyAt(SeaFields, d, isEmail, ExactPickupAddress);
    var entries := FirstPerPath(issues);
    FirstPerPathSpec(issues);
    forall e | e in entries ensures e.0 == ExactPickupAddress {
      var j :| 0 <= j < |entries| && entries[j] == e;
      assert HasPath(entries, e.0);
      var i :| 0 <= i < |issues| && issues[i].path == e.0;
      assert issues[i] in issues;
    }
    FobFilterSpec(entries, d);
  }

  lemma SeaLclNeedsPackages(d: Data, isEmail: EmailRecogniser)
    requires IsSeaLcl(d)
    requires !Aborted(SeaFields, d, isEmail)
    requires !Holds(SeaRefinements[0], d)
    ensures HasPath(StepTwoFindings(Some(Sea), d, isEmail), NumberOfPackages)
  {
    var issues := Parse(SeaFreight, d, isEmail);
    SeaDistinct();
    assert SeaFields[8].0 == NumberOfPackages;
    MessagesAtParse(SeaFreight, d, isEmail, 8);
    var first := [Issue(NumberOfPackages, "numberOfPackagesRequired")];
    assert RefinementIssues(SeaRefinements, d) == first + RefinementIssues(SeaRefinements[1..], d);
    MessagesAtAppend(first, RefinementIssues(SeaRefinements[1..], d), NumberOfPackages);
    assert MessagesAt(issues, NumberOfPackages) != [];
    EntryFor(issues, NumberOfPackages);
    var e := (NumberOfPackages, MessagesAt(issues, NumberOfPackages)[0]);
    FobFilterSpec(FirstPerPath(issues), d);
    var r := StepTwoFindings(Some(Sea), d, isEmail);
    assert e in r;
    var j :| 0 <= j < |r| && r[j] == e;
  }
}
