/**
  The air-freight area: the delivery-urgency choice and its blur handler,
  which parses against the base schema.
 */
module AirArea {
  import opened Wrappers
  import opened FormTypes
  import opened ZodString
  import opened QuoteSchema
  import opened FieldBlur

  /** Choosing an urgency writes its name to `deliveryUrgency` and nothing else. */
  function SelectUrgency(d: Data, u: Urgency): (r: Data)
    ensures Get(r, DeliveryUrgency) == Str(UrgencyName(u))
    ensures forall k :: k != DeliveryUrgency ==> Get(r, k) == Get(d, k)
    ensures r.Keys == d.Keys + {DeliveryUrgency}
  {
    d[DeliveryUrgency := Str(UrgencyName(u))]
  }

  /**
    The base schema declares no `deliveryUrgency`, and the urgency buttons
    report no field name, so a blur from them writes `""`: the urgency's
    entry never holds a message.
   */
  lemma UrgencyBlurIsSilent(errors: map<Key, string>, name: Key, value: string, isEmail: EmailRecogniser)
    requires name == DeliveryUrgency || name == Unnamed
    requires DeliveryUrgency in errors ==> errors[DeliveryUrgency] == ""
    ensures BlurOutcome(BaseQuote, name, value, isEmail) == Some("")
    ensures var r := BlurUpdate(errors, BaseQuote, name, value, isEmail);
      DeliveryUrgency in r ==> r[DeliveryUrgency] == ""
  {
    BaseUndeclared(name);
    BaseUndeclaredBlur(name, value, isEmail);
  }
}
