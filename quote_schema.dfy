/**
  The quote schemas as ordered rule tables, and what parsing a record against
  them reports.

  An object rule checks its keys in declaration order; each key contributes
  the messages of its rule. A missing required value, a value of the wrong
  type or a value outside an enumeration stops that key with one message and
  marks the whole object aborted; failing string checks only make it dirty.
  The object's own refinements run only when it did not abort. Keys the
  schema does not declare are ignored.
 */
module QuoteSchema {
  import opened Wrappers
  import opened JsText
  import opened Patterns
  import opened FormTypes
  import opened ZodString

  datatype Rule =
    | Text(checks: seq<Check>)                                    // `z.string()` with checks
    | OptionalText                                                // `z.string().optional()`
    | OneOf(options: seq<string>, requiredError: Option<string>)  // `z.enum(options)`
    | OptionalOneOf(options: seq<string>)                         // `z.enum(options).optional()`
    | OptionalNumber                                              // `z.number().optional()`

  /** What one key contributes: its messages, and whether it stopped the object. */
  datatype Outcome = Outcome(messages: seq<string>, aborted: bool)

  /** The options of an enumeration as its messages list them: quoted, joined by ` | `. */
  function OptionsText(options: seq<string>): string {
    Join(seq(|options|, i requires 0 <= i < |options| => "'" + options[i] + "'"), " | ")
  }

  function WrongType(expected: string, v: JsValue): string {
    "Expected " + expected + ", received " + TypeName(v)
  }

  /** Whether a value satisfies a rule, stated on its own. */
  predicate Accepts(rule: Rule, v: JsValue, isEmail: EmailRecogniser) {
    match rule
    case Text(checks) => v.Str? && forall i :: 0 <= i < |checks| ==> Passes(checks[i], v.s, isEmail)
    case OptionalText => v.Undefined? || v.Str?
    case OneOf(options, _) => v.Str? && v.s in options
    case OptionalOneOf(options) => v.Undefined? || (v.Str? && v.s in options)
    case OptionalNumber => v.Undefined? || v.Num?
  }

  function EnumOutcome(options: seq<string>, requiredError: Option<string>, v: JsValue): Outcome {
    if v.Undefined? then Outcome([if requiredError.Some? then requiredError.value else "Required"], true)
    else if !v.Str? then Outcome([WrongType(OptionsText(options), v)], true)
    else if v.s in options then Outcome([], false)
    else Outcome(["Invalid enum value. Expected " + OptionsText(options) + ", received '" + v.s + "'"], true)
  }

  /**
    What a rule reports for a value. It reports nothing exactly when the value
    satisfies the rule; a stop carries exactly one message; a missing value
    stops exactly the required rules.
   */
  function FieldOutcome(rule: Rule, v: JsValue, isEmail: EmailRecogniser): (o: Outcome)
    ensures o.messages == [] <==> Accepts(rule, v, isEmail)
    ensures o.aborted ==> |o.messages| == 1
    ensures v.Undefined? ==> (o.aborted <==> rule.Text? || rule.OneOf?)
  {
    match rule
    case Text(checks) =>
      if v.Undefined? then Outcome(["Required"], true)
      else if v.Str? then Outcome(FailingMessages(checks, v.s, isEmail), false)
      else Outcome([WrongType("string", v)], true)
    case OptionalText =>
      if v.Undefined? || v.Str? then Outcome([], false) else Outcome([WrongType("string", v)], true)
    case OneOf(options, requiredError) => EnumOutcome(options, requiredError, v)
    case OptionalOneOf(options) =>
      if v.Undefined? then Outcome([], false) else EnumOutcome(options, None, v)
    case OptionalNumber =>
      if v.Undefined? || v.Num? then Outcome([], false) else Outcome([WrongType("number", v)], true)
  }

  /** A reported problem: the key it is about and its message. */
  datatype Issue = Issue(path: Key, message: string)

  /**
    An object-level check of the sea schema: when the record is sea freight in
    a shared container (`LCL`), the value at `path` must be truthy and, when
    `longerThan` is given, longer than that many characters.
   */
  datatype Refinement = LclRefinement(path: Key, longerThan: Option<nat>, message: string)

  predicate IsSeaLcl(d: Data) {
    Get(d, ServiceType) == Str("sea") && Get(d, EquipmentNeeded) == Str("LCL")
  }

  predicate Holds(r: Refinement, d: Data) {
    var v := Get(d, r.path);
    !IsSeaLcl(d) || (Truthy(v) && (r.longerThan.None? || (v.Str? && |v.s| > r.longerThan.value)))
  }

  datatype Schema = Schema(fields: seq<(Key, Rule)>, refinements: seq<Refinement>)

  /** The messages of one key, each tagged with that key. */
  function Tag(k: Key, ms: seq<string>): (r: seq<Issue>)
    ensures |r| == |ms|
    ensures forall i :: 0 <= i < |r| ==> r[i] == Issue(k, ms[i])
  {
    seq(|ms|, i requires 0 <= i < |ms| => Issue(k, ms[i]))
  }

  function FieldIssues(fields: seq<(Key, Rule)>, d: Data, isEmail: EmailRecogniser): seq<Issue> {
    if fields == [] then []
    else
      var (k, rule) := fields[0];
      Tag(k, FieldOutcome(rule, Get(d, k), isEmail).messages) + FieldIssues(fields[1..], d, isEmail)
  }

  predicate Aborted(fields: seq<(Key, Rule)>, d: Data, isEmail: EmailRecogniser) {
    exists i :: 0 <= i < |fields| && FieldOutcome(fields[i].1, Get(d, fields[i].0), isEmail).aborted
  }

  function RefinementIssues(refs: seq<Refinement>, d: Data): seq<Issue> {
    if refs == [] then []
    else
      var first := if Holds(refs[0], d) then [] else [Issue(refs[0].path, refs[0].message)];
      first + RefinementIssues(refs[1..], d)
  }

  /** `schema.safeParse(d)`: the issues reported, in order; the parse succeeds when there are none. */
  function Parse(schema: Schema, d: Data, isEmail: EmailRecogniser): seq<Issue> {
    FieldIssues(schema.fields, d, isEmail)
      + (if Aborted(schema.fields, d, isEmail) then [] else RefinementIssues(schema.refinements, d))
  }

  /** The messages of the issues about key `k`, in order. */
  function MessagesAt(issues: seq<Issue>, k: Key): seq<string> {
    if issues == [] then []
    else (if issues[0].path == k then [issues[0].message] else []) + MessagesAt(issues[1..], k)
  }

  predicate DistinctKeys(fields: seq<(Key, Rule)>) {
    forall i, j :: 0 <= i < j < |fields| ==> fields[i].0 != fields[j].0
  }

  // ---------------------------------------------------------------- general facts

  lemma {:induction false} MessagesAtAppend(a: seq<Issue>, b: seq<Issue>, k: Key)
    ensures MessagesAt(a + b, k) == MessagesAt(a, k) + MessagesAt(b, k)
  {
    if a != [] {
      MessagesAtAppend(a[1..], b, k);
      assert (a + b)[0] == a[0];
      assert (a + b)[1..] == a[1..] + b;
    } else {
      assert a + b == b;
    }
  }

  lemma {:induction false} MessagesAtTag(k: Key, ms: seq<string>, k': Key)
    ensures MessagesAt(Tag(k, ms), k') == if k == k' then ms else []
  {
    if ms != [] {
      MessagesAtTag(k, ms[1..], k');
      assert Tag(k, ms)[1..] == Tag(k, ms[1..]);
    }
  }

  /** The field issues are empty exactly when every key's rule accepts its value. */
  lemma {:induction false} FieldIssuesEmptyIff(fields: seq<(Key, Rule)>, d: Data, isEmail: EmailRecogniser)
    ensures FieldIssues(fields, d, isEmail) == [] <==>
      forall i :: 0 <= i < |fields| ==> Accepts(fields[i].1, Get(d, fields[i].0), isEmail)
  {
    if fields != [] {
      FieldIssuesEmptyIff(fields[1..], d, isEmail);
      assert forall i :: 1 <= i < |fields| ==> fields[i] == fields[1..][i - 1];
    }
  }

  /** The refinement issues are empty exactly when every refinement holds. */
  lemma {:induction false} RefinementIssuesEmptyIff(refs: seq<Refinement>, d: Data)
    ensures RefinementIssues(refs, d) == [] <==> forall i :: 0 <= i < |refs| ==> Holds(refs[i], d)
  {
    if refs != [] {
      RefinementIssuesEmptyIff(refs[1..], d);
      assert forall i :: 1 <= i < |refs| ==> refs[i] == refs[1..][i - 1];
    }
  }

  /**
    A parse succeeds exactly when every key's rule accepts its value and every
    refinement holds: an aborted object never succeeds, so skipping its
    refinements loses no failure.
   */
  lemma ParseSucceedsIff(schema: Schema, d: Data, isEmail: EmailRecogniser)
    ensures Parse(schema, d, isEmail) == [] <==>
      (forall i :: 0 <= i < |schema.fields| ==> Accepts(schema.fields[i].1, Get(d, schema.fields[i].0), isEmail))
      && (forall i :: 0 <= i < |schema.refinements| ==> Holds(schema.refinements[i], d))
  {
    FieldIssuesEmptyIff(schema.fields, d, isEmail);
    RefinementIssuesEmptyIff(schema.refinements, d);
    if Aborted(schema.fields, d, isEmail) {
      var i :| 0 <= i < |schema.fields| && FieldOutcome(schema.fields[i].1, Get(d, schema.fields[i].0), isEmail).aborted;
      assert !Accepts(schema.fields[i].1, Get(d, schema.fields[i].0), isEmail);
    }
  }

  /** The issues about a declared key are the messages of its rule for its value. */
  lemma {:induction false} MessagesAtField(fields: seq<(Key, Rule)>, d: Data, isEmail: EmailRecogniser, i: int)
    requires DistinctKeys(fields)
    requires 0 <= i < |fields|
    ensures MessagesAt(FieldIssues(fields, d, isEmail), fields[i].0)
      == FieldOutcome(fields[i].1, Get(d, fields[i].0), isEmail).messages
  {
    var k := fields[i].0;
    var head := Tag(fields[0].0, FieldOutcome(fields[0].1, Get(d, fields[0].0), isEmail).messages);
    MessagesAtAppend(head, FieldIssues(fields[1..], d, isEmail), k);
    MessagesAtTag(fields[0].0, FieldOutcome(fields[0].1, Get(d, fields[0].0), isEmail).messages, k);
    if i == 0 {
      MessagesAtUndeclared(fields[1..], d, isEmail, k);
    } else {
      MessagesAtField(fields[1..], d, isEmail, i - 1);
    }
  }

  /** A key the rules do not declare has no issues among the field issues. */
  lemma {:induction false} MessagesAtUndeclared(fields: seq<(Key, Rule)>, d: Data, isEmail: EmailRecogniser, k: Key)
    requires forall i :: 0 <= i < |fields| ==> fields[i].0 != k
    ensures MessagesAt(FieldIssues(fields, d, isEmail), k) == []
  {
    if fields != [] {
      var head := Tag(fields[0].0, FieldOutcome(fields[0].1, Get(d, fields[0].0), isEmail).messages);
      MessagesAtAppend(head, FieldIssues(fields[1..], d, isEmail), k);
      MessagesAtTag(fields[0].0, FieldOutcome(fields[0].1, Get(d, fields[0].0), isEmail).messages, k);
      MessagesAtUndeclared(fields[1..], d, isEmail, k);
    }
  }

  /**
    The issues a parse reports about a declared key: its rule's messages, then
    (when the object did not abort) the refinement messages at that key.
   */
  lemma MessagesAtParse(schema: Schema, d: Data, isEmail: EmailRecogniser, i: int)
    requires DistinctKeys(schema.fields)
    requires 0 <= i < |schema.fields|
    ensures MessagesAt(Parse(schema, d, isEmail), schema.fields[i].0)
      == FieldOutcome(schema.fields[i].1, Get(d, schema.fields[i].0), isEmail).messages
        + (if Aborted(schema.fields, d, isEmail) then []
           else MessagesAt(RefinementIssues(schema.refinements, d), schema.fields[i].0))
  {
    var k := schema.fields[i].0;
    var extra := if Aborted(schema.fields, d, isEmail) then [] else RefinementIssues(schema.refinements, d);
    MessagesAtAppend(FieldIssues(schema.fields, d, isEmail), extra, k);
    MessagesAtField(schema.fields, d, isEmail, i);
  }

  /** An undeclared key only receives refinement messages, and none when the object aborted. */
  lemma MessagesAtParseUndeclared(schema: Schema, d: Data, isEmail: EmailRecogniser, k: Key)
    requires forall i :: 0 <= i < |schema.fields| ==> schema.fields[i].0 != k
    ensures MessagesAt(Parse(schema, d, isEmail), k)
      == if Aborted(schema.fields, d, isEmail) then [] else MessagesAt(RefinementIssues(schema.refinements, d), k)
  {
    var extra := if Aborted(schema.fields, d, isEmail) then [] else RefinementIssues(schema.refinements, d);
    MessagesAtAppend(FieldIssues(schema.fields, d, isEmail), extra, k);
    MessagesAtUndeclared(schema.fields, d, isEmail, k);
  }

  /**
    A key declared once, at position `i`, that no refinement is about gets
    exactly its rule's messages.
   */
  lemma MessagesAtDeclared(schema: Schema, d: Data, isEmail: EmailRecogniser, i: int, k: Key, rule: Rule)
    requires DistinctKeys(schema.fields)
    requires 0 <= i < |schema.fields| && schema.fields[i] == (k, rule)
    requires forall j :: 0 <= j < |schema.refinements| ==> schema.refinements[j].path != k
    ensures MessagesAt(Parse(schema, d, isEmail), k) == FieldOutcome(rule, Get(d, k), isEmail).messages
  {
    MessagesAtParse(schema, d, isEmail, i);
    RefinementMessagesElsewhere(schema.refinements, d, k);
  }

  /** Rules whose keys sit at the positions `pos` gives them declare no key twice. */
  lemma PositionedKeysAreDistinct(fields: seq<(Key, Rule)>, pos: Key -> int)
    requires forall i :: 0 <= i < |fields| ==> pos(fields[i].0) == i
    ensures DistinctKeys(fields)
  {
  }

  // ---------------------------------------------------------------- the field rules

  const NameChecks: seq<Check> := [MinLength(1, "nameRequired"), MinLength(2, "nameTooShort"), NoDigit("nameContainsNumbers")]

  /** The e-mail shape is checked before the length, so it reports first. */
  const EmailChecks: seq<Check> := [EmailShape("invalidEmail"), MinLength(1, "emailRequired")]

  const PhoneChecks: seq<Check> := [MinLength(1, "phoneRequired"), MinLength(8, "invalidPhone"), PhoneShape("invalidPhone"), SomeDigit("invalidPhone")]

  const OriginChecks: seq<Check> := LengthRule("originAddressRequired", "originAddressTooShort", 3)
  const DestinationChecks: seq<Check> := LengthRule("destinationAddressRequired", "destinationAddressTooShort", 3)
  const CompanyChecks: seq<Check> := LengthRule("companyNameSupplierRequired", "companyNameTooShort", 2)
  const DescriptionChecks: seq<Check> := LengthRule("descriptionOfGoodsRequired", "descriptionOfGoodsTooShort", 6)
  const PackagesChecks: seq<Check> := LengthRule("numberOfPackagesRequired", "numberOfPackagesTooShort", 2)
  const PickupChecks: seq<Check> := LengthRule("exactPickupAddressRequired", "exactPickupAddressTooShort", 6)
  const WeightChecks: seq<Check> := [MinLength(1, "weightValueRequired")]
  const DimensionsChecks: seq<Check> := LengthRule("cargoDimensionsRequired", "cargoDimensionsTooShort", 3)

  const ServiceOptions: seq<string> := ["air", "sea", "land"]

  /**
    A name reports, first, that it is required when empty, too short when one
    character long, and that it contains numbers when it holds a digit.
   */
  lemma NameFirstFailure(s: string, isEmail: EmailRecogniser)
    ensures FirstFailure(NameChecks, s, isEmail) ==
      if s == "" then Some("nameRequired")
      else if |s| < 2 then Some("nameTooShort")
      else if ContainsDigit(s) then Some("nameContainsNumbers")
      else None
  {
    var c := NameChecks;
    assert c[1..][1..][1..] == [];
    assert FailingMessages(c[1..][1..], s, isEmail) == if ContainsDigit(s) then ["nameContainsNumbers"] else [];
    assert FailingMessages(c[1..], s, isEmail)
      == (if |s| >= 2 then [] else ["nameTooShort"]) + FailingMessages(c[1..][1..], s, isEmail);
  }

  /**
    An e-mail reports the shape failure before the emptiness failure, so an
    empty address the recogniser rejects reports `invalidEmail` first.
   */
  lemma EmailMessages(s: string, isEmail: EmailRecogniser)
    ensures FailingMessages(EmailChecks, s, isEmail)
      == (if isEmail(s) then [] else ["invalidEmail"]) + (if s == "" then ["emailRequired"] else [])
    ensures s == "" && !isEmail("") ==> FirstFailure(EmailChecks, s, isEmail) == Some("invalidEmail")
  {
    var c := EmailChecks;
    assert c[1..][1..] == [];
    assert FailingMessages(c[1..], s, isEmail) == if s == "" then ["emailRequired"] else [];
  }

  /**
    A phone passes exactly when it matches `^\+?[0-9\s-]{8,}$` and holds a
    digit (the length check is then implied). Empty reports `phoneRequired`
    first; every other failure reports only `invalidPhone`.
   */
  lemma PhoneMessages(s: string, isEmail: EmailRecogniser)
    ensures FailingMessages(PhoneChecks, s, isEmail) == [] <==> SchemaPhoneMatches(s) && ContainsDigit(s)
    ensures s == "" ==> FirstFailure(PhoneChecks, s, isEmail) == Some("phoneRequired")
    ensures s != "" ==> forall m :: m in FailingMessages(PhoneChecks, s, isEmail) ==> m == "invalidPhone"
  {
    var c := PhoneChecks;
    var ms := FailingMessages(c, s, isEmail);
    assert c[0] == MinLength(1, "phoneRequired") && c[1] == MinLength(8, "invalidPhone");
    assert c[2] == PhoneShape("invalidPhone") && c[3] == SomeDigit("invalidPhone");
    if SchemaPhoneMatches(s) {
      assert |AfterOptionalPlus(s)| <= |s|;
    }
    if s == "" {
      assert !Passes(c[0], s, isEmail);
      assert ms == [c[0].message] + FailingMessages(c[1..], s, isEmail);
    } else {
      forall m | m in ms ensures m == "invalidPhone" {
        var i :| 0 <= i < |c| && c[i].message == m && !Passes(c[i], s, isEmail);
        assert i != 0;
      }
    }
  }

  // ---------------------------------------------------------------- the schemas

  /** `BaseQuoteOptionalSchema`: the contact and description fields only. */
  const OptionalFields: seq<(Key, Rule)> := [
    (Name, Text(NameChecks)),
    (Email, Text(EmailChecks)),
    (Phone, Text(PhoneChecks)),
    (OriginAddress, Text(OriginChecks)),
    (DestinationAddress, Text(DestinationChecks)),
    (AdditionalInfo, OptionalText),
    (CompanyNameSupplier, Text(CompanyChecks)),
    (DescriptionOfGoods, Text(DescriptionChecks))
  ]

  const BaseQuoteOptional: Schema := Schema(OptionalFields, [])

  function OptionalPos(k: Key): int {
    match k
    case Name => 0
    case Email => 1
    case Phone => 2
    case OriginAddress => 3
    case DestinationAddress => 4
    case AdditionalInfo => 5
    case CompanyNameSupplier => 6
    case DescriptionOfGoods => 7
    case _ => -1
  }

  /** `BaseQuoteSchema`, in declaration order. */
  const BaseFields: seq<(Key, Rule)> := [
    (Name, Text(NameChecks)),
    (Email, Text(EmailChecks)),
    (Phone, Text(PhoneChecks)),
    (OriginAddress, Text(OriginChecks)),
    (DestinationAddress, Text(DestinationChecks)),
    (ServiceType, OneOf(ServiceOptions, Some("serviceTypeRequired"))),
    (AdditionalInfo, OptionalText),
    (CompanyNameSupplier, Text(CompanyChecks)),
    (NumberOfPackages, Text(PackagesChecks)),
    (ShippingTerm, OptionalOneOf(ShippingTerms)),
    (ExactPickupAddress, Text(PickupChecks)),
    (DescriptionOfGoods, Text(DescriptionChecks)),
    (CargoGaugeType, OptionalOneOf(GaugeTypes)),
    (ContainerCapacity, OptionalNumber),
    (WeightValue, Text(WeightChecks)),
    (CargoDimensions, Text(DimensionsChecks))
  ]

  const BaseQuote: Schema := Schema(BaseFields, [])

  function BasePos(k: Key): int {
    match k
    case Name => 0
    case Email => 1
    case Phone => 2
    case OriginAddress => 3
    case DestinationAddress => 4
    case ServiceType => 5
    case AdditionalInfo => 6
    case CompanyNameSupplier => 7
    case NumberOfPackages => 8
    case ShippingTerm => 9
    case ExactPickupAddress => 10
    case DescriptionOfGoods => 11
    case CargoGaugeType => 12
    case ContainerCapacity => 13
    case WeightValue => 14
    case CargoDimensions => 15
    case _ => -1
  }

  /**
    `SeaFreightSchema`: the base rules with the package, dimension and weight
    rules overridden in place by optional text, and the equipment rule added
    last, followed by the three shared-container refinements.
   */
  const SeaFields: seq<(Key, Rule)> :=
    BaseFields[8 := (NumberOfPackages, OptionalText)][14 := (WeightValue, OptionalText)][15 := (CargoDimensions, OptionalText)]
    + [(EquipmentNeeded, OneOf(EquipmentCodes, None))]

  const SeaRefinements: seq<Refinement> := [
    LclRefinement(NumberOfPackages, Some(1), "numberOfPackagesRequired"),
    LclRefinement(CargoDimensions, Some(2), "cargoDimensionsRequired"),
    LclRefinement(WeightValue, None, "weightValueRequired")
  ]

  const SeaFreight: Schema := Schema(SeaFields, SeaRefinements)

  function SeaPos(k: Key): int {
    if k == EquipmentNeeded then 16 else BasePos(k)
  }

  /** Every key of each schema sits at the position its position function gives, so no key is declared twice. */
  lemma OptionalDistinct()
    ensures DistinctKeys(OptionalFields)
  {
    assert forall i :: 0 <= i < |OptionalFields| ==> OptionalPos(OptionalFields[i].0) == i;
    PositionedKeysAreDistinct(OptionalFields, OptionalPos);
  }

  lemma BaseDistinct()
    ensures DistinctKeys(BaseFields)
  {
    BasePositions();
    PositionedKeysAreDistinct(BaseFields, BasePos);
  }

  lemma SeaDistinct()
    ensures DistinctKeys(SeaFields)
  {
    BasePositions();
    SeaExtendsBase();
    forall i | 0 <= i < |SeaFields| ensures SeaPos(SeaFields[i].0) == i {
      if i < 16 {
        assert SeaFields[i].0 == BaseFields[i].0;
      }
    }
    PositionedKeysAreDistinct(SeaFields, SeaPos);
  }

  /** Each base key sits at the position `BasePos` gives it. */
  lemma BasePositions()
    ensures |BaseFields| == 16
    ensures forall i :: 0 <= i < |BaseFields| ==> BasePos(BaseFields[i].0) == i
  {
  }

  /** A key's position in a schema is where it is declared, and a key without one is not declared. */
  lemma PositionFinds(fields: seq<(Key, Rule)>, pos: Key -> int, k: Key)
    requires forall i :: 0 <= i < |fields| ==> pos(fields[i].0) == i
    ensures (0 <= pos(k) < |fields| && fields[pos(k)].0 == k) || forall i :: 0 <= i < |fields| ==> fields[i].0 != k
  {
  }

  /**
    The sea schema has the base keys at the same positions, the three cargo
    keys relaxed to optional text, the equipment key added, and only the three
    shared-container refinements.
   */
  lemma SeaExtendsBase()
    ensures |SeaFields| == 17
    ensures forall i :: 0 <= i < 16 && i != 8 && i != 14 && i != 15 ==> SeaFields[i] == BaseFields[i]
    ensures SeaFields[8] == (NumberOfPackages, OptionalText)
    ensures SeaFields[14] == (WeightValue, OptionalText) && SeaFields[15] == (CargoDimensions, OptionalText)
    ensures SeaFields[16] == (EquipmentNeeded, OneOf(EquipmentCodes, None))
  {
  }

  // ---------------------------------------------------------------- what the schemas promise

  /**
    The optional-context schema reports only about the three identity fields,
    the two addresses, the company, the description of goods and (when it is
    not text) the additional information: nothing about the service type, the
    pickup address or the cargo.
   */
  lemma OptionalSchemaScope(d: Data, isEmail: EmailRecogniser, k: Key)
    requires k != Name && k != Email && k != Phone && k != OriginAddress && k != DestinationAddress
    requires k != CompanyNameSupplier && k != DescriptionOfGoods
    ensures MessagesAt(Parse(BaseQuoteOptional, d, isEmail), k) == [] <==>
      k != AdditionalInfo || Get(d, AdditionalInfo).Undefined? || Get(d, AdditionalInfo).Str?
  {
    if k == AdditionalInfo {
      OptionalDistinct();
      MessagesAtParse(BaseQuoteOptional, d, isEmail, 5);
    } else {
      OptionalUndeclared(k);
      MessagesAtParseUndeclared(BaseQuoteOptional, d, isEmail, k);
    }
  }

  lemma OptionalUndeclared(k: Key)
    requires k != Name && k != Email && k != Phone && k != OriginAddress && k != DestinationAddress
    requires k != CompanyNameSupplier && k != DescriptionOfGoods && k != AdditionalInfo
    ensures forall i :: 0 <= i < |OptionalFields| ==> OptionalFields[i].0 != k
  {
    assert forall i :: 0 <= i < |OptionalFields| ==> OptionalPos(OptionalFields[i].0) == i;
  }

  /** A key without a base position is not declared by the base schema. */
  lemma BaseUndeclared(k: Key)
    requires BasePos(k) == -1
    ensures forall i :: 0 <= i < |BaseFields| ==> BaseFields[i].0 != k
  {
    BasePositions();
  }

  /** The base schema requires a service type among `air`, `sea` and `land`; a missing one reports `serviceTypeRequired`. */
  lemma BaseServiceType(d: Data, isEmail: EmailRecogniser)
    ensures MessagesAt(Parse(BaseQuote, d, isEmail), ServiceType) == [] <==>
      Get(d, ServiceType).Str? && Get(d, ServiceType).s in ServiceOptions
    ensures Get(d, ServiceType) == Undefined ==> MessagesAt(Parse(BaseQuote, d, isEmail), ServiceType) == ["serviceTypeRequired"]
  {
    BaseDistinct();
    MessagesAtDeclared(BaseQuote, d, isEmail, 5, ServiceType, OneOf(ServiceOptions, Some("serviceTypeRequired")));
  }

  /**
    The base schema requires a pickup address of at least six characters,
    whatever the shipping term: its issues depend on the pickup value alone.
   */
  lemma BasePickupAddress(d: Data, isEmail: EmailRecogniser)
    ensures MessagesAt(Parse(BaseQuote, d, isEmail), ExactPickupAddress)
      == FieldOutcome(Text(PickupChecks), Get(d, ExactPickupAddress), isEmail).messages
    ensures Get(d, ExactPickupAddress) == Undefined ==> MessagesAt(Parse(BaseQuote, d, isEmail), ExactPickupAddress) == ["Required"]
  {
    BaseDistinct();
    MessagesAtDeclared(BaseQuote, d, isEmail, 10, ExactPickupAddress, Text(PickupChecks));
  }

  /** The sea schema keeps the base schema's pickup rule, and no refinement is about the pickup address. */
  lemma SeaPickupAddress(d: Data, isEmail: EmailRecogniser)
    ensures MessagesAt(Parse(SeaFreight, d, isEmail), ExactPickupAddress)
      == FieldOutcome(Text(PickupChecks), Get(d, ExactPickupAddress), isEmail).messages
  {
    SeaDistinct();
    SeaExtendsBase();
    MessagesAtDeclared(SeaFreight, d, isEmail, 10, ExactPickupAddress, Text(PickupChecks));
  }

  /** The shipping term may be missing; when present it must be `EXW` or `FOB`. */
  lemma BaseShippingTerm(d: Data, isEmail: EmailRecogniser)
    ensures MessagesAt(Parse(BaseQuote, d, isEmail), ShippingTerm) == [] <==>
      Get(d, ShippingTerm).Undefined? || (Get(d, ShippingTerm).Str? && Get(d, ShippingTerm).s in ShippingTerms)
  {
    BaseDistinct();
    MessagesAtDeclared(BaseQuote, d, isEmail, 9, ShippingTerm, OptionalOneOf(ShippingTerms));
  }

  /** Refinements report nothing about a key none of them is about. */
  lemma {:induction false} RefinementMessagesElsewhere(refs: seq<Refinement>, d: Data, k: Key)
    requires forall i :: 0 <= i < |refs| ==> refs[i].path != k
    ensures MessagesAt(RefinementIssues(refs, d), k) == []
  {
    if refs != [] {
      var first := if Holds(refs[0], d) then [] else [Issue(refs[0].path, refs[0].message)];
      MessagesAtAppend(first, RefinementIssues(refs[1..], d), k);
      RefinementMessagesElsewhere(refs[1..], d, k);
    }
  }

  /** The sea schema requires `equipmentNeeded` to be one of the nine container codes. */
  lemma SeaEquipment(d: Data, isEmail: EmailRecogniser)
    ensures MessagesAt(Parse(SeaFreight, d, isEmail), EquipmentNeeded) == [] <==>
      Get(d, EquipmentNeeded).Str? && Get(d, EquipmentNeeded).s in EquipmentCodes
  {
    SeaDistinct();
    SeaExtendsBase();
    MessagesAtDeclared(SeaFreight, d, isEmail, 16, EquipmentNeeded, OneOf(EquipmentCodes, None));
  }

  /** Every code of the nine is the code of a container type. */
  lemma EquipmentCodesAreCodes()
    ensures forall i :: 0 <= i < |EquipmentCodes| ==> EquipmentCodes[i] == EquipmentCode(AllEquipment[i])
  {
  }

  /** Unless the record is sea freight in a shared container, no refinement can fail. */
  lemma SeaRefinementsOnlyForLcl(d: Data)
    requires !IsSeaLcl(d)
    ensures RefinementIssues(SeaRefinements, d) == []
  {
    RefinementIssuesEmptyIff(SeaRefinements, d);
  }

  /**
    For sea freight in a shared container, the refinements demand more than
    one package character, more than two dimension characters and a weight, at
    those keys and with their `Required` messages.
   */
  lemma SeaLclRefinements(d: Data)
    requires IsSeaLcl(d)
    ensures RefinementIssues(SeaRefinements, d) ==
      (if Truthy(Get(d, NumberOfPackages)) && Get(d, NumberOfPackages).Str? && |Get(d, NumberOfPackages).s| > 1 then []
       else [Issue(NumberOfPackages, "numberOfPackagesRequired")])
      + (if Truthy(Get(d, CargoDimensions)) && Get(d, CargoDimensions).Str? && |Get(d, CargoDimensions).s| > 2 then []
         else [Issue(CargoDimensions, "cargoDimensionsRequired")])
      + (if Truthy(Get(d, WeightValue)) then [] else [Issue(WeightValue, "weightValueRequired")])
  {
    var r := SeaRefinements;
    assert r[1..][1..][1..] == [];
    assert RefinementIssues(r[1..][1..], d)
      == if Holds(r[2], d) then [] else [Issue(WeightValue, "weightValueRequired")];
    assert RefinementIssues(r[1..], d)
      == (if Holds(r[1], d) then [] else [Issue(CargoDimensions, "cargoDimensionsRequired")]) + RefinementIssues(r[1..][1..], d);
  }

  // ---------------------------------------------------------------- one-key records

  /** The record a blur handler parses: just the blurred field with its text. */
  function OneKey(k: Key, value: string): Data {
    map[k := Str(value)]
  }

  /**
    A one-key record never satisfies the base or sea schema: some other
    required key is missing, so the parse aborts with a `Required` issue.
   */
  lemma OneKeyAborts(k: Key, value: string, isEmail: EmailRecogniser)
    ensures Aborted(BaseFields, OneKey(k, value), isEmail)
    ensures Aborted(SeaFields, OneKey(k, value), isEmail)
    ensures Parse(BaseQuote, OneKey(k, value), isEmail) != []
    ensures Parse(SeaFreight, OneKey(k, value), isEmail) != []
  {
    var d := OneKey(k, value);
    var i := if k == Name then 1 else 0;
    assert Get(d, BaseFields[i].0) == Undefined;
    assert FieldOutcome(BaseFields[i].1, Get(d, BaseFields[i].0), isEmail).aborted;
    assert SeaFields[i] == BaseFields[i];
    ParseSucceedsIff(BaseQuote, d, isEmail);
    ParseSucceedsIff(SeaFreight, d, isEmail);
  }
}
