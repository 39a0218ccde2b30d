/**
  The quote wizard page: three steps (contact details, shipment, review),
  the checks that guard leaving a step, the two confirmation dialogs, the
  handlers that write answers, and submission.

  The page's state is the class `Page`; each handler is proved to move it as
  the matching transition function on `Wizard` values says, and the lemmas
  state what the transitions promise.

  `nextStep` reads the step it was rendered with and then queues updates of
  the step. Leaving step one queues one increment; a clean step two queues
  two (one inside the step-two branch and the one every pass ends with), each
  clamped to the last step; on the review step the one increment is clamped
  away.
 */
module QuotePage {
  import opened Wrappers
  import opened JsText
  import opened Patterns
  import opened FormTypes
  import opened ZodString
  import opened QuoteSchema
  import opened QuoteSteps
  import opened StepThree

  const MaxSteps: int := 3

  /** `Math.min(step + 1, maxSteps)`. */
  function Forward(step: int): int {
    if step + 1 < MaxSteps then step + 1 else MaxSteps
  }

  /** `Math.max(step - 1, 1)`. */
  function Back(step: int): int {
    if step - 1 > 1 then step - 1 else 1
  }

  /** The page state. `errors` holds the step-one messages or the form error. */
  datatype Wizard = Wizard(
    step: int,
    serviceType: Option<Service>,
    data: Data,
    errors: map<string, string>,
    stepTwoErrors: seq<string>,
    confirmingReset: bool,
    errorModalOpen: bool,
    confirmationErrors: seq<(Key, string)>,
    success: bool)

  predicate Valid(w: Wizard) {
    1 <= w.step <= MaxSteps
  }

  function Initial(initialData: Data): Wizard {
    Wizard(1, None, initialData, map[], [], false, false, [], false)
  }

  // ---------------------------------------------------------------- moving between steps

  /**
    `validateStepOne`, as `nextStep` runs it: whether it passes, and the state
    it leaves. A name, e-mail or phone that is not text makes `trim` throw:
    the check fails and nothing changes.
   */
  predicate StepOnePasses(w: Wizard) {
    var name, email, phone := Get(w.data, Name), Get(w.data, Email), Get(w.data, Phone);
    name.Str? && email.Str? && phone.Str? && StepOneErrors(name.s, email.s, phone.s) == map[]
  }

  function StepOneChecked(w: Wizard): Wizard {
    var name, email, phone := Get(w.data, Name), Get(w.data, Email), Get(w.data, Phone);
    if name.Str? && email.Str? && phone.Str? then w.(errors := StepOneErrors(name.s, email.s, phone.s)) else w
  }

  /**
    The step-two branch of `nextStep`: whether it lets the final increment
    happen, and the state it leaves. A clean optional context clears the
    messages; then a clean step-two check already moves one step on, and
    findings open the dialog instead.
   */
  predicate StepTwoPasses(w: Wizard, isEmail: EmailRecogniser) {
    Parse(BaseQuoteOptional, w.data, isEmail) == [] && StepTwoFindings(w.serviceType, w.data, isEmail) == []
  }

  function StepTwoChecked(w: Wizard, isEmail: EmailRecogniser): Wizard {
    var optional := Parse(BaseQuoteOptional, w.data, isEmail);
    if optional != [] then w.(stepTwoErrors := EntryMessages(FirstPerPath(optional)))
    else
      var findings := StepTwoFindings(w.serviceType, w.data, isEmail);
      if findings == [] then w.(stepTwoErrors := [], step := Forward(w.step))
      else w.(stepTwoErrors := [], errorModalOpen := true, confirmationErrors := findings)
  }

  /** `nextStep`: the check of the step the page shows, then (when it passes) one more step on. */
  function Next(w: Wizard, isEmail: EmailRecogniser): Wizard {
    if w.step == 1 then
      if StepOnePasses(w) then StepOneChecked(w).(step := Forward(w.step)) else StepOneChecked(w)
    else if w.step == 2 then
      var checked := StepTwoChecked(w, isEmail);
      if StepTwoPasses(w, isEmail) then checked.(step := Forward(checked.step)) else checked
    else
      w.(step := Forward(w.step))
  }

  /** `prevStep`. */
  function Prev(w: Wizard): Wizard {
    w.(step := Back(w.step))
  }

  /** `ErrorConfirmationContinue`: go on despite the step-two findings. */
  function ContinueDespiteErrors(w: Wizard): Wizard {
    w.(step := Forward(w.step), errorModalOpen := false)
  }

  /** `CloseErorrConfirmation`. */
  function CloseErrorModal(w: Wizard): Wizard {
    w.(errorModalOpen := false)
  }

  // ---------------------------------------------------------------- resetting step two

  /** `handleResetStep2`: ask for confirmation. */
  function RequestReset(w: Wizard): Wizard {
    w.(confirmingReset := true)
  }

  /** The record after a confirmed reset: the initial answers, keeping the contact details, with no shipping term. */
  function ResetData(d: Data, initialData: Data): Data {
    initialData[Name := Get(d, Name)][Email := Get(d, Email)][Phone := Get(d, Phone)]
      [CompanyNameSupplier := Get(d, CompanyNameSupplier)][ShippingTerm := Str("")]
  }

  /** `confirmReset`. */
  function ConfirmReset(w: Wizard, initialData: Data): Wizard {
    w.(data := ResetData(w.data, initialData), serviceType := None, confirmingReset := false)
  }

  /** `cancelReset`. */
  function CancelReset(w: Wizard): Wizard {
    w.(confirmingReset := false)
  }

  // ---------------------------------------------------------------- writing answers

  /** `handleInputChange`: a text input writes its value under its name. */
  function InputChange(w: Wizard, k: Key, value: string): Wizard {
    w.(data := w.data[k := Str(value)])
  }

  /** The answers a service selection clears. `packages` is cleared to the empty text. */
  const ClearedByService: set<Key> := {
    DeliveryUrgency, EquipmentNeeded, Temperature, TemperatureUnit, CargoInGauge,
    CargoDimensions, DimensionsUnit, ContainerCapacity, WeightValue, WeightUnit
  }

  function SelectedServiceData(d: Data, t: Option<Service>): Data {
    d[ServiceType := ServiceValue(t)][DeliveryUrgency := Undefined][EquipmentNeeded := Undefined]
      [Temperature := Undefined][TemperatureUnit := Undefined][CargoInGauge := Undefined]
      [CargoDimensions := Undefined][DimensionsUnit := Undefined][Packages := Str("")]
      [ContainerCapacity := Undefined][WeightValue := Undefined][WeightUnit := Undefined]
  }

  /** `handleServiceTypeSelect`. */
  function SelectServiceType(w: Wizard, t: Option<Service>): Wizard {
    w.(serviceType := t, data := SelectedServiceData(w.data, t))
  }

  /** `handleShippingTermChange`. */
  function ChangeShippingTerm(w: Wizard, t: Term): Wizard {
    w.(data := w.data[ShippingTerm := Str(TermName(t))])
  }

  /** `handleCargoTypeChange`. */
  function ChangeCargoType(w: Wizard, c: Cargo): Wizard {
    w.(data := w.data[CargoType := Str(CargoName(c))])
  }

  /** `handleDimensionsChange`. */
  function ChangeDimensions(w: Wizard, value: string, unit: LengthUnit): Wizard {
    w.(data := w.data[CargoDimensions := Str(value)][DimensionsUnit := Str(LengthUnitName(unit))])
  }

  /** `handleWeightChange`. */
  function ChangeWeight(w: Wizard, value: string, unit: MassUnit): Wizard {
    w.(data := w.data[WeightValue := Str(value)][WeightUnit := Str(MassUnitName(unit))])
  }

  // ---------------------------------------------------------------- submitting

  /** What the page hands to `sendQuote`: the service name and the mail body. */
  datatype QuoteRequest = QuoteRequest(serviceType: string, body: string)

  /** One body line: the label key in bold and the value in capitals. */
  function MailLine(k: Key, s: string): string {
    "<p><strong>" + LabelKey(k) + "</strong> " + ToUpper(s) + "</p > "
  }

  /** The body lines of `keys`; `None` when a value is not text, where `toUpperCase` throws. */
  function MailLines(keys: seq<Key>, d: Data): Option<seq<string>> {
    if keys == [] then Some([])
    else
      var v := Get(d, keys[0]);
      var rest := MailLines(keys[1..], d);
      if !v.Str? || rest.None? then None else Some([MailLine(keys[0], v.s)] + rest.value)
  }

  /** The request `handleSubmit` sends, or `None` when building it throws. */
  function SubmitRequest(w: Wizard): Option<QuoteRequest> {
    RequestFor(w.data, w.serviceType)
  }

  function RequestFor(d: Data, serviceType: Option<Service>): Option<QuoteRequest> {
    var lines := MailLines(ShownKeys(d), d);
    if lines.None? || serviceType.None? then None
    else Some(QuoteRequest(ServiceName(serviceType.value), Join(lines.value, "\n\t")))
  }

  /**
    `handleSubmit`. The action's answer is not read: once the request is
    handed over the page reports success and starts again from the initial
    answers; a throw while building it sets the form error.
   */
  function Submit(w: Wizard, initialData: Data): Wizard {
    if SubmitRequest(w).Some? then
      w.(success := true, serviceType := None, step := 1, data := initialData, errors := map[])
    else
      w.(errors := map["form" := "errorMessage"], success := false)
  }

  // ---------------------------------------------------------------- what the transitions promise

  /** `nextStep` keeps the step between the first and the last. */
  lemma NextStaysInRange(w: Wizard, isEmail: EmailRecogniser)
    requires Valid(w)
    ensures Valid(Next(w, isEmail))
  {
    if w.step == 1 {
    } else if w.step == 2 {
    }
  }

  /** So do going back, continuing past the findings, submitting and resetting. */
  lemma MovesStayInRange(w: Wizard, initialData: Data)
    requires Valid(w)
    ensures Valid(Prev(w)) && Valid(ContinueDespiteErrors(w))
    ensures Valid(Submit(w, initialData)) && Valid(ConfirmReset(w, initialData))
  {
  }

  /** Going back undoes going forward below the last step, and going forward undoes going back above the first. */
  lemma BackUndoesForward(step: int)
    ensures 1 <= step < MaxSteps ==> Back(Forward(step)) == step
    ensures 1 < step <= MaxSteps ==> Forward(Back(step)) == step
    ensures Forward(MaxSteps) == MaxSteps && Back(1) == 1
  {
  }

  /**
    Leaving step one with text contact fields: the step-one error record is
    replaced, the answers stay, and the wizard moves to step two exactly when
    the name is not blank, the e-mail matches the address pattern and the
    phone the digit pattern.
   */
  lemma StepOneAdvance(w: Wizard, isEmail: EmailRecogniser)
    requires w.step == 1
    requires Get(w.data, Name).Str? && Get(w.data, Email).Str? && Get(w.data, Phone).Str?
    ensures Next(w, isEmail).errors == StepOneErrors(Get(w.data, Name).s, Get(w.data, Email).s, Get(w.data, Phone).s)
    ensures Next(w, isEmail).data == w.data
    ensures Next(w, isEmail).step == 2 <==>
      !IsBlank(Get(w.data, Name).s) && EmailMatches(Get(w.data, Email).s) && DigitsPhoneMatches(Get(w.data, Phone).s)
    ensures Next(w, isEmail).step != 2 ==> Next(w, isEmail).step == 1
  {
    var e := StepOneErrors(Get(w.data, Name).s, Get(w.data, Email).s, Get(w.data, Phone).s);
    StepOneGate(Get(w.data, Name).s, Get(w.data, Email).s, Get(w.data, Phone).s);
    assert StepOneChecked(w) == w.(errors := e);
    assert Next(w, isEmail) == if e == map[] then w.(errors := e, step := 2) else w.(errors := e);
  }

  /** A contact field that is not text makes leaving step one throw: nothing changes. */
  lemma StepOneNeedsText(w: Wizard, isEmail: EmailRecogniser)
    requires w.step == 1
    requires !(Get(w.data, Name).Str? && Get(w.data, Email).Str? && Get(w.data, Phone).Str?)
    ensures Next(w, isEmail) == w
  {
  }

  /**
    Step two, first gate: when the optional-context parse reports issues, the
    wizard stays, shows one message per reported key (the first), and nothing
    else changes.
   */
  lemma StepTwoOptionalGate(w: Wizard, isEmail: EmailRecogniser)
    requires w.step == 2
    requires Parse(BaseQuoteOptional, w.data, isEmail) != []
    ensures Next(w, isEmail) == w.(stepTwoErrors := EntryMessages(FirstPerPath(Parse(BaseQuoteOptional, w.data, isEmail))))
    ensures Next(w, isEmail).stepTwoErrors != []
    ensures var entries := FirstPerPath(Parse(BaseQuoteOptional, w.data, isEmail));
      && |Next(w, isEmail).stepTwoErrors| == |entries|
      && forall i :: 0 <= i < |entries| ==>
        FirstMessage(Parse(BaseQuoteOptional, w.data, isEmail), entries[i].0) == Some(Next(w, isEmail).stepTwoErrors[i])
    ensures var optional := Parse(BaseQuoteOptional, w.data, isEmail);
      var entries := FirstPerPath(optional);
      forall i, j :: 0 <= i < j < |entries| ==> 0 <= FirstAt(optional, entries[i].0) < FirstAt(optional, entries[j].0)
  {
    var optional := Parse(BaseQuoteOptional, w.data, isEmail);
    FirstPerPathKeys(optional, optional[0].path);
    FirstPerPathMessages(optional);
    FirstPerPathOrder(optional);
  }

  /**
    Step two, second gate: when the optional-context parse is clean, the
    messages are cleared and the wizard goes to the review step exactly when
    the step-two check reports nothing; otherwise the findings dialog opens
    with those findings and the wizard stays.
   */
  lemma StepTwoAdvance(w: Wizard, isEmail: EmailRecogniser)
    requires w.step == 2
    requires Parse(BaseQuoteOptional, w.data, isEmail) == []
    ensures Next(w, isEmail).stepTwoErrors == [] && Next(w, isEmail).data == w.data
    ensures Next(w, isEmail).step == 3 <==> StepTwoFindings(w.serviceType, w.data, isEmail) == []
    ensures StepTwoFindings(w.serviceType, w.data, isEmail) != [] ==>
      && Next(w, isEmail).step == 2
      && Next(w, isEmail).errorModalOpen
      && Next(w, isEmail).confirmationErrors == StepTwoFindings(w.serviceType, w.data, isEmail)
  {
  }

  /** Outside `FOB`, a clean optional context leads to the review step exactly when the step-two schema accepts the record. */
  lemma StepTwoAdvanceOutsideFob(w: Wizard, isEmail: EmailRecogniser)
    requires w.step == 2
    requires Parse(BaseQuoteOptional, w.data, isEmail) == []
    requires Get(w.data, ShippingTerm) != Str("FOB")
    ensures Next(w, isEmail).step == 3 <==> Parse(BranchSchema(w.serviceType), w.data, isEmail) == []
  {
    StepTwoAdvance(w, isEmail);
    StepTwoEmptyIff(w.serviceType, w.data, isEmail);
  }

  /**
    A missing pickup address holds the wizard on step two, with `Required`
    for it among the findings, unless the term is `FOB`; under `FOB` the
    findings never mention it.
   */
  lemma PickupGate(w: Wizard, isEmail: EmailRecogniser)
    requires w.step == 2
    requires Parse(BaseQuoteOptional, w.data, isEmail) == []
    requires Get(w.data, ExactPickupAddress) == Undefined
    ensures Get(w.data, ShippingTerm) != Str("FOB") ==>
      Next(w, isEmail).step == 2 && (ExactPickupAddress, "Required") in Next(w, isEmail).confirmationErrors
    ensures Get(w.data, ShippingTerm) == Str("FOB") ==>
      Next(w, isEmail).step == 3 || forall e :: e in Next(w, isEmail).confirmationErrors ==> e.0 != ExactPickupAddress
  {
    PickupRequiredUnlessFob(w.serviceType, w.data, isEmail);
  }

  /**
    Sea freight in a shared container without a usable package count cannot
    pass step two unconfirmed: the findings name the package count.
   */
  lemma SeaLclPackagesGate(w: Wizard, isEmail: EmailRecogniser)
    requires w.step == 2 && w.serviceType == Some(Sea)
    requires Parse(BaseQuoteOptional, w.data, isEmail) == []
    requires IsSeaLcl(w.data) && !Aborted(SeaFields, w.data, isEmail) && !Holds(SeaRefinements[0], w.data)
    ensures Next(w, isEmail).step == 2 && Next(w, isEmail).errorModalOpen
    ensures HasPath(Next(w, isEmail).confirmationErrors, NumberOfPackages)
  {
    SeaLclNeedsPackages(w.data, isEmail);
  }

  /**
    The package gate has a way round it: sea freight in a shared container
    under `FOB` with no pickup address and every other field passing its
    type checks reaches the review step with no package count at all, and
    no dialog, because the aborted parse skips the refinements.
   */
  lemma FobSkipsLcl(w: Wizard, isEmail: EmailRecogniser)
    requires w.step == 2 && w.serviceType == Some(Sea)
    requires Parse(BaseQuoteOptional, w.data, isEmail) == []
    requires IsSeaLcl(w.data) && Get(w.data, NumberOfPackages) == Undefined
    requires Get(w.data, ShippingTerm) == Str("FOB") && Get(w.data, ExactPickupAddress) == Undefined
    requires forall i :: 0 <= i < |SeaFields| && SeaFields[i].0 != ExactPickupAddress ==>
      Accepts(SeaFields[i].1, Get(w.data, SeaFields[i].0), isEmail)
    ensures !Holds(SeaRefinements[0], w.data)
    ensures Next(w, isEmail).step == 3 && Next(w, isEmail).data == w.data
  {
    FobSkipsLclFindings(w.data, isEmail);
    StepTwoAdvance(w, isEmail);
  }

  /**
    Findings never trap the user: from a step two whose optional context is
    clean, one press of next reaches the review step, or opens the dialog
    whose continue button does, with the answers unchanged.
   */
  lemma FindingsCanBeOverridden(w: Wizard, isEmail: EmailRecogniser)
    requires w.step == 2
    requires Parse(BaseQuoteOptional, w.data, isEmail) == []
    ensures var n := Next(w, isEmail);
      || n.step == 3
      || (n.errorModalOpen && ContinueDespiteErrors(n).step == 3 && ContinueDespiteErrors(n).data == w.data)
  {
  }

  /** On the review step, next changes nothing (submission is the form's own handler). */
  lemma ReviewNextIsInert(w: Wizard, isEmail: EmailRecogniser)
    requires w.step == MaxSteps
    ensures Next(w, isEmail) == w
  {
  }

  /**
    A confirmed reset keeps the contact details, empties the shipping term,
    takes every other answer from the initial record, drops the service and
    leaves the step where it was; doing it twice is doing it once.
   */
  lemma ConfirmResetSpec(w: Wizard, initialData: Data)
    ensures var r := ConfirmReset(w, initialData);
      && (forall k :: k in {Name, Email, Phone, CompanyNameSupplier} ==> Get(r.data, k) == Get(w.data, k))
      && Get(r.data, ShippingTerm) == Str("")
      && (forall k :: k !in {Name, Email, Phone, CompanyNameSupplier, ShippingTerm} ==> Get(r.data, k) == Get(initialData, k))
      && r.serviceType == None && r.step == w.step && !r.confirmingReset
    ensures ConfirmReset(ConfirmReset(w, initialData), initialData) == ConfirmReset(w, initialData)
  {
  }

  /**
    Choosing a service records it in both places, clears the answers that
    belong to a service, empties `packages`, and keeps every other answer.
   */
  lemma SelectServiceSpec(w: Wizard, t: Option<Service>)
    ensures SelectServiceType(w, t).serviceType == t
    ensures Get(SelectServiceType(w, t).data, ServiceType) == ServiceValue(t)
    ensures forall k :: k in ClearedByService ==> Get(SelectServiceType(w, t).data, k) == Undefined
    ensures Get(SelectServiceType(w, t).data, Packages) == Str("")
    ensures forall k :: k !in ClearedByService && k != Packages && k != ServiceType ==>
      Get(SelectServiceType(w, t).data, k) == Get(w.data, k)
  {
  }

  /** After choosing a service, none of the cleared answers, nor `packages`, is in the review list. */
  lemma SelectServiceClearsReview(w: Wizard, t: Option<Service>)
    ensures forall k :: k in ShownKeys(SelectServiceType(w, t).data) ==> k !in ClearedByService && k != Packages
  {
    var d := SelectServiceType(w, t).data;
    SelectServiceSpec(w, t);
    ShownKeysSpec(d);
  }

  /** Choosing the same service twice is choosing it once. */
  lemma SelectServiceIdempotent(w: Wizard, t: Option<Service>)
    ensures SelectServiceType(SelectServiceType(w, t), t) == SelectServiceType(w, t)
  {
  }

  /** The answer setters write exactly their keys and leave every other answer and the step alone. */
  lemma SettersTouchOnlyTheirKeys(w: Wizard, k: Key, value: string, term: Term, c: Cargo, lu: LengthUnit, mu: MassUnit)
    ensures Get(InputChange(w, k, value).data, k) == Str(value)
    ensures forall j :: j != k ==> Get(InputChange(w, k, value).data, j) == Get(w.data, j)
    ensures Get(ChangeShippingTerm(w, term).data, ShippingTerm).s in ShippingTerms
    ensures Get(ChangeCargoType(w, c).data, CargoType).s in ["general", "hazardous"]
    ensures forall j :: j != CargoDimensions && j != DimensionsUnit ==> Get(ChangeDimensions(w, value, lu).data, j) == Get(w.data, j)
    ensures forall j :: j != WeightValue && j != WeightUnit ==> Get(ChangeWeight(w, value, mu).data, j) == Get(w.data, j)
    ensures InputChange(w, k, value).step == w.step && ChangeDimensions(w, value, lu).step == w.step
  {
  }

  lemma {:induction false} MailLinesSpec(keys: seq<Key>, d: Data)
    ensures MailLines(keys, d).Some? <==> forall i :: 0 <= i < |keys| ==> Get(d, keys[i]).Str?
    ensures MailLines(keys, d).Some? ==>
      && |MailLines(keys, d).value| == |keys|
      && forall i :: 0 <= i < |keys| ==> MailLines(keys, d).value[i] == MailLine(keys[i], Get(d, keys[i]).s)
  {
    if keys != [] {
      MailLinesSpec(keys[1..], d);
      assert forall i :: 1 <= i < |keys| ==> keys[i] == keys[1..][i - 1];
    }
  }

  /**
    The mail repeats the review list: a request is built exactly when a
    service is chosen and every reviewed value is text, and its body is one
    line per review row, in review order, with the row's label and the value
    in capitals.
   */
  lemma SubmitFollowsReview(w: Wizard)
    ensures SubmitRequest(w).Some? <==>
      w.serviceType.Some? && forall i :: 0 <= i < |ReviewRows(w.data)| ==> ReviewRows(w.data)[i].value.Str?
    ensures SubmitRequest(w).Some? ==>
      && SubmitRequest(w).value.serviceType == ServiceName(w.serviceType.value)
      && exists lines: seq<string> ::
        && |lines| == |ReviewRows(w.data)|
        && SubmitRequest(w).value.body == Join(lines, "\n\t")
        && forall i :: 0 <= i < |lines| ==>
          lines[i] == "<p><strong>" + ReviewRows(w.data)[i].labelKey + "</strong> " + ToUpper(ReviewRows(w.data)[i].value.s) + "</p > "
  {
    var keys := ShownKeys(w.data);
    var rows := ReviewRows(w.data);
    MailLinesSpec(keys, w.data);
    RowsForShow(keys, w.data);
    if SubmitRequest(w).Some? {
      var lines := MailLines(keys, w.data).value;
      assert forall i :: 0 <= i < |lines| ==>
        lines[i] == "<p><strong>" + rows[i].labelKey + "</strong> " + ToUpper(rows[i].value.s) + "</p > ";
    }
  }

  /**
    A container capacity, which the sea area stores as a number, makes the
    body throw as soon as it is non-zero: such a quote always ends with the
    form error and keeps its answers.
   */
  lemma CapacityBlocksSubmit(w: Wizard, initialData: Data)
    requires Get(w.data, ContainerCapacity).Num? && Get(w.data, ContainerCapacity).n != 0
    ensures SubmitRequest(w) == None
    ensures Submit(w, initialData).errors == map["form" := "errorMessage"]
    ensures Submit(w, initialData).data == w.data && !Submit(w, initialData).success
  {
    NameSortRanks();
    assert NameSort[19] == ContainerCapacity;
    ShownKeysSpec(w.data);
    var keys := ShownKeys(w.data);
    var i :| 0 <= i < |keys| && keys[i] == ContainerCapacity;
    MailLinesSpec(keys, w.data);
  }

  /**
    A handed-over request always ends in the success state on step one with
    the initial answers and no service, whatever the mail relay does; a
    request that could not be built leaves the answers and the step as they
    were and shows the form error.
   */
  lemma SubmitOutcome(w: Wizard, initialData: Data)
    ensures SubmitRequest(w).Some? ==>
      Submit(w, initialData) == w.(success := true, serviceType := None, step := 1, data := initialData, errors := map[])
    ensures SubmitRequest(w).None? ==>
      && Submit(w, initialData).data == w.data && Submit(w, initialData).step == w.step
      && Submit(w, initialData).errors == map["form" := "errorMessage"] && !Submit(w, initialData).success
    ensures w.serviceType.None? ==> SubmitRequest(w).None?
  {
  }

  // ---------------------------------------------------------------- the page

  /** The page component: its state variables, and one method per handler. */
  class Page {
    var currentStep: int
    var serviceType: Option<Service>
    var data: Data
    var errors: map<string, string>
    var stepTwoErrors: seq<string>
    var isConfirmingReset: bool
    var isErrorConfirmationOpen: bool
    var confirmationErrors: seq<(Key, string)>
    var success: bool
    const initialData: Data
    const isEmail: EmailRecogniser

    ghost function State(): Wizard
      reads this
    {
      Wizard(currentStep, serviceType, data, errors, stepTwoErrors, isConfirmingReset,
        isErrorConfirmationOpen, confirmationErrors, success)
    }

    ghost predicate Ready()
      reads this
    {
      Valid(State())
    }

    constructor (initialData: Data, isEmail: EmailRecogniser)
      ensures State() == Initial(initialData) && Ready()
      ensures this.initialData == initialData && this.isEmail == isEmail
    {
      this.initialData := initialData;
      this.isEmail := isEmail;
      currentStep := 1;
      serviceType := None;
      data := initialData;
      errors := map[];
      stepTwoErrors := [];
      isConfirmingReset := false;
      isErrorConfirmationOpen := false;
      confirmationErrors := [];
      success := false;
    }

    /** `validateStepOne`. */
    method CheckStepOne() returns (passed: bool)
      modifies this
      ensures passed == StepOnePasses(old(State()))
      ensures State() == StepOneChecked(old(State()))
    {
      var name, email, phone := Get(data, Name), Get(data, Email), Get(data, Phone);
      if !(name.Str? && email.Str? && phone.Str?) {
        return false;
      }
      var stepErrors, ok := ValidateStepOne(name.s, email.s, phone.s);
      errors := stepErrors;
      passed := ok;
    }

    /** The step-two branch of `nextStep`. */
    method CheckStepTwo() returns (passed: bool)
      modifies this
      ensures passed == StepTwoPasses(old(State()), isEmail)
      ensures State() == StepTwoChecked(old(State()), isEmail)
    {
      var optional := Parse(BaseQuoteOptional, data, isEmail);
      if optional != [] {
        var entries := CollectFirstPerPath(optional);
        stepTwoErrors := EntryMessages(entries);
        return false;
      }
      stepTwoErrors := [];
      var found := ValidateStepTwo(serviceType, data, isEmail);
      found := FobFilter(found, data);
      if found != [] {
        isErrorConfirmationOpen := true;
        confirmationErrors := found;
        return false;
      }
      currentStep := Forward(currentStep);
      passed := true;
    }

    method NextStep()
      requires Ready()
      modifies this
      ensures State() == Next(old(State()), isEmail) && Ready()
    {
      NextStaysInRange(State(), isEmail);
      if currentStep == 1 {
        var passed := CheckStepOne();
        if !passed {
          return;
        }
      } else if currentStep == 2 {
        var passed := CheckStepTwo();
        if !passed {
          return;
        }
      }
      currentStep := Forward(currentStep);
    }

    method PrevStep()
      requires Ready()
      modifies this
      ensures State() == Prev(old(State())) && Ready()
    {
      currentStep := Back(currentStep);
    }

    method ErrorConfirmationContinue()
      requires Ready()
      modifies this
      ensures State() == ContinueDespiteErrors(old(State())) && Ready()
    {
      currentStep := Forward(currentStep);
      isErrorConfirmationOpen := false;
    }

    method CloseErrorConfirmation()
      modifies this
      ensures State() == CloseErrorModal(old(State()))
    {
      isErrorConfirmationOpen := false;
    }

    method HandleResetStep2()
      modifies this
      ensures State() == RequestReset(old(State()))
    {
      isConfirmingReset := true;
    }

    method ConfirmResetStep2()
      modifies this
      ensures State() == ConfirmReset(old(State()), initialData)
    {
      data := ResetData(data, initialData);
      serviceType := None;
      isConfirmingReset := false;
    }

    method CancelResetStep2()
      modifies this
      ensures State() == CancelReset(old(State()))
    {
      isConfirmingReset := false;
    }

    method HandleInputChange(k: Key, value: string)
      modifies this
      ensures State() == InputChange(old(State()), k, value)
    {
      data := data[k := Str(value)];
    }

    method HandleServiceTypeSelect(t: Option<Service>)
      modifies this
      ensures State() == SelectServiceType(old(State()), t)
    {
      serviceType := t;
      data := SelectedServiceData(data, t);
    }

    method HandleShippingTermChange(t: Term)
      modifies this
      ensures State() == ChangeShippingTerm(old(State()), t)
    {
      data := data[ShippingTerm := Str(TermName(t))];
    }

    method HandleCargoTypeChange(c: Cargo)
      modifies this
      ensures State() == ChangeCargoType(old(State()), c)
    {
      data := data[CargoType := Str(CargoName(c))];
    }

    method HandleDimensionsChange(value: string, unit: LengthUnit)
      modifies this
      ensures State() == ChangeDimensions(old(State()), value, unit)
    {
      data := data[CargoDimensions := Str(value)][DimensionsUnit := Str(LengthUnitName(unit))];
    }

    method HandleWeightChange(value: string, unit: MassUnit)
      modifies this
      ensures State() == ChangeWeight(old(State()), value, unit)
    {
      data := data[WeightValue := Str(value)][WeightUnit := Str(MassUnitName(unit))];
    }

    /** `handleSubmit`: returns the request handed to `sendQuote`, if one was built. */
    method HandleSubmit() returns (request: Option<QuoteRequest>)
      requires Ready()
      modifies this
      ensures request == SubmitRequest(old(State()))
      ensures State() == Submit(old(State()), initialData) && Ready()
    {
      request := RequestFor(data, serviceType);
      if request.None? {
        FlagSubmitError();
      } else {
        ResetAfterSubmit();
      }
    }

    /** The success branch of `handleSubmit`: the wizard starts over on the first step. */
    method ResetAfterSubmit()
      modifies this
      ensures State() == old(State()).(success := true, serviceType := None, step := 1, data := initialData, errors := map[])
    {
      errors := map[];
      success := true;
      serviceType := None;
      currentStep := 1;
      data := initialData;
    }

    /** The failure branch of `handleSubmit`: the form-level error is shown. */
    method FlagSubmitError()
      modifies this
      ensures State() == old(State()).(errors := map["form" := "errorMessage"], success := false)
    {
      errors := map["form" := "errorMessage"];
      success := false;
    }
  }
}
