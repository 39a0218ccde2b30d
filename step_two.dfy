/**
  The second wizard step: which parts of the form it shows for the choices
  made so far, and what its blur handler reports for the pickup address and
  the description of goods (both parsed against the base schema).
 */
module StepTwo {
  import opened Wrappers
  import opened FormTypes
  import opened ZodString
  import opened QuoteSchema
  import opened QuoteSteps
  import opened FieldBlur

  /** The parts of the step that may be shown. */
  datatype Part =
    | PickupAddressInput     // the exact pickup address
    | CargoTypeChoice        // general or hazardous cargo
    | ServiceTypeChoice      // air, sea or land
    | ServiceArea            // the chosen service's own fields
    | AddressInputs          // origin and destination
    | DescriptionInputs      // description of goods and additional information
    | Navigation             // previous, reset and next

  /** The parts shown for a record. */
  function ShownParts(d: Data): set<Part> {
    var term := Get(d, ShippingTerm);
    (if term == Str("EXW") then {PickupAddressInput, CargoTypeChoice} else {})
    + (if term == Str("FOB") then {CargoTypeChoice} else {})
    + (if Truthy(term) then {ServiceTypeChoice, DescriptionInputs, Navigation} else {})
    + (if Truthy(term) && Truthy(Get(d, ServiceType)) then {ServiceArea, AddressInputs} else {})
  }

  /**
    The pickup input shows only under `EXW`; the cargo type shows under both
    terms; the service choice, descriptions and buttons need a shipping term;
    the service area and addresses need a service type as well.
   */
  lemma ShownPartsSpec(d: Data)
    ensures PickupAddressInput in ShownParts(d) <==> Get(d, ShippingTerm) == Str("EXW")
    ensures CargoTypeChoice in ShownParts(d) <==> Get(d, ShippingTerm) == Str("EXW") || Get(d, ShippingTerm) == Str("FOB")
    ensures Navigation in ShownParts(d) <==> Truthy(Get(d, ShippingTerm))
    ensures ServiceTypeChoice in ShownParts(d) <==> Navigation in ShownParts(d)
    ensures DescriptionInputs in ShownParts(d) <==> Navigation in ShownParts(d)
    ensures ServiceArea in ShownParts(d) <==> Truthy(Get(d, ShippingTerm)) && Truthy(Get(d, ServiceType))
    ensures AddressInputs in ShownParts(d) <==> ServiceArea in ShownParts(d)
    ensures PickupAddressInput in ShownParts(d) ==> Navigation in ShownParts(d)
  {
  }

  /**
    When the next button shows and the cargo choice shows but the pickup
    input does not, the term is `FOB`, so the step's findings hold nothing
    about the hidden pickup address.
   */
  lemma HiddenPickupNeverBlocks(serviceType: Option<Service>, d: Data, isEmail: EmailRecogniser)
    requires Navigation in ShownParts(d) && CargoTypeChoice in ShownParts(d)
    requires PickupAddressInput !in ShownParts(d)
    ensures Get(d, ShippingTerm) == Str("FOB")
    ensures !HasPath(StepTwoFindings(serviceType, d, isEmail), ExactPickupAddress)
  {
    ShownPartsSpec(d);
    FobFilterSpec(FirstPerPath(Parse(BranchSchema(serviceType), d, isEmail)), d);
  }

  /**
    A blur on the pickup address reports it required when empty, too short
    below six characters, and nothing from six on.
   */
  lemma PickupBlur(value: string, isEmail: EmailRecogniser)
    ensures value == "" ==> BlurOutcome(BaseQuote, ExactPickupAddress, value, isEmail) == Some("exactPickupAddressRequired")
    ensures 0 < |value| < 6 ==> BlurOutcome(BaseQuote, ExactPickupAddress, value, isEmail) == Some("exactPickupAddressTooShort")
    ensures |value| >= 6 ==> BlurOutcome(BaseQuote, ExactPickupAddress, value, isEmail) == Some("")
  {
    assert BaseFields[10] == (ExactPickupAddress, Text(PickupChecks));
    BaseTextBlur(10, value, isEmail);
    LengthRuleFirstFailure("exactPickupAddressRequired", "exactPickupAddressTooShort", 6, value, isEmail);
  }

  /**
    A blur on the description of goods reports it required when empty, too
    short below six characters, and nothing from six on.
   */
  lemma DescriptionBlur(value: string, isEmail: EmailRecogniser)
    ensures value == "" ==> BlurOutcome(BaseQuote, DescriptionOfGoods, value, isEmail) == Some("descriptionOfGoodsRequired")
    ensures 0 < |value| < 6 ==> BlurOutcome(BaseQuote, DescriptionOfGoods, value, isEmail) == Some("descriptionOfGoodsTooShort")
    ensures |value| >= 6 ==> BlurOutcome(BaseQuote, DescriptionOfGoods, value, isEmail) == Some("")
  {
    assert BaseFields[11] == (DescriptionOfGoods, Text(DescriptionChecks));
    BaseTextBlur(11, value, isEmail);
    LengthRuleFirstFailure("descriptionOfGoodsRequired", "descriptionOfGoodsTooShort", 6, value, isEmail);
  }
}
