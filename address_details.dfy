/**
  The address inputs of the second step: origin and destination, each
  checked on blur against the base schema on its own.
 */
module AddressDetails {
  import opened Wrappers
  import opened FormTypes
  import opened ZodString
  import opened QuoteSchema
  import opened FieldBlur

  /**
    A blur on the origin reports it required when empty, too short below
    three characters, and `""` from three on: the one-key record still fails
    on the other keys, so the entry is cleared rather than deleted.
   */
  lemma OriginBlur(value: string, isEmail: EmailRecogniser)
    ensures value == "" ==> BlurOutcome(BaseQuote, OriginAddress, value, isEmail) == Some("originAddressRequired")
    ensures 0 < |value| < 3 ==> BlurOutcome(BaseQuote, OriginAddress, value, isEmail) == Some("originAddressTooShort")
    ensures |value| >= 3 ==> BlurOutcome(BaseQuote, OriginAddress, value, isEmail) == Some("")
  {
    assert BaseFields[3] == (OriginAddress, Text(OriginChecks));
    BaseTextBlur(3, value, isEmail);
    LengthRuleFirstFailure("originAddressRequired", "originAddressTooShort", 3, value, isEmail);
  }

  /** The destination is checked like the origin, with its own message keys. */
  lemma DestinationBlur(value: string, isEmail: EmailRecogniser)
    ensures value == "" ==> BlurOutcome(BaseQuote, DestinationAddress, value, isEmail) == Some("destinationAddressRequired")
    ensures 0 < |value| < 3 ==> BlurOutcome(BaseQuote, DestinationAddress, value, isEmail) == Some("destinationAddressTooShort")
    ensures |value| >= 3 ==> BlurOutcome(BaseQuote, DestinationAddress, value, isEmail) == Some("")
  {
    assert BaseFields[4] == (DestinationAddress, Text(DestinationChecks));
    BaseTextBlur(4, value, isEmail);
    LengthRuleFirstFailure("destinationAddressRequired", "destinationAddressTooShort", 3, value, isEmail);
  }
}
