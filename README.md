# Freight quote wizard and contact form, modelled in Dafny

This project models the client and server logic of a freight-forwarding site.
It covers two flows:

- **The three-step quote wizard.**
  - Step 1 is contact details: the `StepOne` blur cascade and the page's `validateStepOne`.
  - Step 2 is the shipping choices, with the following parts:
    - the fields it shows for the shipping term and the service type;
    - the blur handlers of its components;
    - the sea area's record updates;
    - the air area's urgency setter;
    - two gates: the optional-context schema, then the service's schema with the `FOB` filter, and a findings dialog that the user may override.
  - Step 3 is the review list in `nameSort` order, followed by submission through `sendQuote`.
  - The wizard keeps its step within 1..3. Its answer record is reset by the confirmed step-two reset and by a successful submission.
- **The contact form.** This covers:
  - the field check `validateField`;
  - the input filter that strips a phone and refuses digits in a name or company;
  - the blur and touched bookkeeping;
  - the submit loop that collects every field's error before `sendEmail` is called;
  - the server action, with its own schema, recipients, subject and HTML body.

The capacity gauge's keyboard control is modelled too. Arrow keys step the value, and the arrows are mirrored for Arabic. Home and End jump to the ends, and the value is clamped to 0..100.

## How the model is organised

| module | models |
|---|---|
| `Wrappers`, `JsText`, `Patterns` | `Option`, JavaScript's string operations (`trim`, `toUpperCase`, `join`, `replace`, `indexOf`, `\d`, `\s`), and the regular expressions the forms spell out |
| `FormTypes` | The answer record (`Key`, `JsValue`, `Data`), the enumerations, `shippingTerms` and `nameSort` |
| `ZodString`, `QuoteSchema` | The schema library's string checks and object parse, and the three quote schemas as ordered rule tables |
| `QuoteSteps`, `QuotePage` | `validateStepOne`, the first-message-per-field reduction, `validateStepTwo` and the `FOB` filter. Also the page as a class `Page`, whose methods are specified by pure transitions on a `Wizard` value |
| `StepOne`, `StepTwo`, `StepThree`, `FieldBlur`, `AddressDetails`, `CargoDetails`, `AirArea`, `SeaArea` | The step components. The four identical blur handlers share the class `FieldBlur.ErrorMap` |
| `ContactSchema`, `ContactPage`, `Actions` | The contact schema, the contact page as a class `ContactForm`, and both server actions |
| `GaugeButton` | The gauge's keyboard handler, as a class `Gauge` |

Message and label keys are modelled as strings and are not translated. Numbers in the answer record are integers.

The e-mail recogniser of the schema library is a parameter of type `string -> bool`, and so is the server's phone expression. The same goes for the mail relay's verdict (`relayAccepts`), the environment (`Env`) and the initial answer record.

The parse models what the library does with missing and mistyped values:

- A missing required value gives `Required`, and the object parse is then aborted.
- A value of the wrong type gives "Expected …, received …", and also aborts.
- An enumeration mismatch gives the library's enum message, and also aborts.
- Failing string checks are all reported, in declaration order.
- The object's refinements run only when the parse was not aborted.

These rules are what make every one-key blur parse fail: `QuoteSchema.OneKeyAborts`.

## Model

| member | source | states |
|---|---|---|
| QuotePage.NextStaysInRange | app/quote/page.tsx:256-297 | `nextStep` keeps the step within 1..3 |
| QuotePage.MovesStayInRange | app/quote/page.tsx:299-305 | `prevStep`, continuing past the findings, submitting and the confirmed reset all keep the step within 1..3 |
| QuotePage.BackUndoesForward | app/quote/page.tsx:292-305 | `max(step-1, 1)` undoes `min(step+1, 3)` below the last step and vice versa above the first; both clamp at the ends |
| QuotePage.StepOneAdvance | app/quote/page.tsx:244-260 | With text contact fields, the errors record is replaced by the step-one record and the answers stay. The step becomes 2 iff the name is not blank, the e-mail matches the address pattern and the phone matches `^\+?\d{7,15}$`; otherwise it stays 1 |
| QuotePage.StepOneNeedsText | app/quote/page.tsx:246-249 | A contact field that is not text makes `.trim()` throw, so nothing changes |
| QuotePage.StepTwoOptionalGate | app/quote/page.tsx:203-217 | When the optional-context parse reports issues, the step stays and only `stepTwoErrors` changes. It then holds exactly one message per reported field, that field's first, in order of first occurrence, and is non-empty |
| QuotePage.StepTwoAdvance | app/quote/page.tsx:262-281 | After a clean optional parse, `stepTwoErrors` is cleared. The step becomes 3 iff the filtered step-two findings are empty; otherwise the step stays 2 and the dialog opens holding exactly those findings |
| QuotePage.StepTwoAdvanceOutsideFob | app/quote/page.tsx:223-241 | Outside `FOB`, step two is left iff the service's schema (sea for sea freight, base otherwise) accepts the record |
| QuotePage.PickupGate | app/quote/page.tsx:267-269 | A missing pickup address blocks step two with `(exactPickupAddress, Required)` among the findings unless the term is `FOB`. Under `FOB` no finding is about it |
| QuotePage.SeaLclPackagesGate | app/quote/page.tsx:223-281 | Sea freight in `LCL` with no usable package count, whose sea fields all pass their type checks, is held on step two, and the dialog's findings name `numberOfPackages` |
| QuotePage.FobSkipsLcl | app/quote/page.tsx:223-281 | Sea freight in `LCL` under `FOB` with no pickup address, and every other sea field accepted, reaches step 3 with the answers unchanged, even with no package count |
| QuoteSteps.FobSkipsLclFindings | app/quote/schema.ts:55-128 | Under `FOB` with no pickup address and every other sea field accepted, the sea parse aborts, so its refinements are skipped, and the step-two findings are empty |
| QuotePage.FindingsCanBeOverridden | app/quote/page.tsx:87-95 | With a clean optional parse, one press of next reaches step 3, or opens the dialog whose continue reaches step 3 with the answers unchanged |
| QuotePage.ReviewNextIsInert | app/quote/page.tsx:365-374 | On the review step, `nextStep` (the review's submit button) changes nothing |
| QuotePage.ConfirmResetSpec | app/quote/page.tsx:311-327 | The confirmed reset keeps name, e-mail, phone and company, and sets the shipping term to `""`. Every other answer comes from the initial record. The service becomes null, the step stays and the dialog closes. The reset is idempotent |
| QuotePage.SelectServiceSpec | app/quote/page.tsx:108-128 | Choosing a service stores it both in the page state and in `data.serviceType`. It sets the ten service-dependent answers to `undefined` and `packages` to `""`, and keeps every other answer |
| QuotePage.SelectServiceClearsReview | app/quote/page.tsx:108-128 | After choosing a service, no cleared answer and no `packages` appears in the review list |
| QuotePage.SelectServiceIdempotent | app/quote/page.tsx:108-128 | Choosing the same service twice is the same as choosing it once |
| QuotePage.SettersTouchOnlyTheirKeys | app/quote/page.tsx:99-156 | The input, shipping-term, cargo-type, dimension and weight setters write their own keys only and leave the step alone; the term and cargo type are always one of their options |
| QuotePage.MailLinesSpec | app/quote/page.tsx:169-174 | The mail lines exist iff every listed value is text, and then there is one line per key, in order |
| QuotePage.SubmitFollowsReview | app/quote/page.tsx:169-177 | A request is built iff a service is chosen and every review value is text. Its body is the review rows, in review order, each as a label line with the value upper-cased, joined by `\n\t` |
| QuotePage.CapacityBlocksSubmit | app/quote/page.tsx:169-199 | A non-zero numeric container capacity makes `toUpperCase` throw, so the submission ends in the form error with the answers kept |
| QuotePage.SubmitOutcome | app/quote/page.tsx:176-199 | Once the request is handed over, the page always resets to step 1, with the initial answers, no service and the success flag, whatever the relay answers. Otherwise the form error shows and the answers and step stay. No service means no request |
| QuotePage.Page.constructor | app/quote/page.tsx:80-84 | The page starts on step 1 with the initial answers, no service, no errors and both dialogs closed |
| QuotePage.Page.CheckStepOne | app/quote/page.tsx:244-254 | `validateStepOne` returns whether step one passes and makes the state of its step-one transition |
| QuotePage.Page.CheckStepTwo | app/quote/page.tsx:262-281 | The step-two branch of `nextStep`: optional gate, collected findings, `FOB` filter, then dialog or advance |
| QuotePage.Page.NextStep | app/quote/page.tsx:256-297 | The new state is `Next` of the old state, and the step stays within range |
| QuotePage.Page.PrevStep | app/quote/page.tsx:299-305 | The new state is `Prev` of the old state |
| QuotePage.Page.ErrorConfirmationContinue | app/quote/page.tsx:87-95 | Advances the step (clamped) and closes the findings dialog |
| QuotePage.Page.CloseErrorConfirmation | app/quote/page.tsx:96-98 | Only closes the findings dialog |
| QuotePage.Page.HandleResetStep2 | app/quote/page.tsx:307-309 | Only opens the reset dialog |
| QuotePage.Page.ConfirmResetStep2 | app/quote/page.tsx:311-327 | The new state is `ConfirmReset` of the old state (see `ConfirmResetSpec`) |
| QuotePage.Page.CancelResetStep2 | app/quote/page.tsx:329-331 | Only closes the reset dialog |
| QuotePage.Page.HandleInputChange | app/quote/page.tsx:99-106 | Writes the typed text under the input's name |
| QuotePage.Page.HandleServiceTypeSelect | app/quote/page.tsx:108-128 | The new state is `SelectServiceType` of the old state (see `SelectServiceSpec`) |
| QuotePage.Page.HandleShippingTermChange | app/quote/page.tsx:130-135 | Writes the chosen term |
| QuotePage.Page.HandleCargoTypeChange | app/quote/page.tsx:137-142 | Writes the chosen cargo type |
| QuotePage.Page.HandleDimensionsChange | app/quote/page.tsx:144-149 | Writes the dimensions and their unit |
| QuotePage.Page.HandleWeightChange | app/quote/page.tsx:151-156 | Writes the weight and its unit |
| QuotePage.Page.HandleSubmit | app/quote/page.tsx:158-201 | Returns the request handed to `sendQuote`, if one was built. The new state is `Submit` of the old state |
| QuotePage.Page.ResetAfterSubmit | app/quote/page.tsx:182-190 | Sets success, clears the errors, drops the service, and returns to step 1 with the initial answers |
| QuotePage.Page.FlagSubmitError | app/quote/page.tsx:193-199 | Shows the form-level `errorMessage` and clears success |
| QuoteSteps.StepOneGate | app/quote/page.tsx:244-250 | The error keys are exactly `name` (blank name), `email` (no pattern match) and `phone` (no pattern match), each with its message key. The record is empty iff all three pass, and the blank tests on e-mail and phone never decide anything |
| QuoteSteps.ValidateStepOne | app/quote/page.tsx:244-254 | The record filled field by field is the step-one record, and `ok` holds iff it is empty |
| QuoteSteps.FirstPerPathSpec | app/quote/page.tsx:228-237 | The reduced list holds each field once, in the order of each field's first issue. It holds exactly the fields with issues and gives each field its earliest message |
| QuoteSteps.FirstPerPathOrder | app/quote/page.tsx:228-237 | An entry that comes before another is about a field whose first issue comes earlier, as the `Map`'s insertion order gives |
| QuoteSteps.EntryFor | app/quote/page.tsx:228-237 | A field with issues has the entry (field, first message); a field without issues has no entry |
| QuoteSteps.CollectFirstPerPath | app/quote/page.tsx:228-237 | The `forEach` over the issues, with its seen-set, returns exactly the first-message-per-field list |
| QuoteSteps.EntryMessages | app/quote/page.tsx:206-212 | One message per entry, in order |
| QuoteSteps.WithoutPath | app/quote/page.tsx:269 | Drops exactly the entries about the given field |
| QuoteSteps.ValidateStepTwo | app/quote/page.tsx:223-241 | Returns the first message per field of the service's schema parse, and `[]` when it succeeds |
| QuoteSteps.FobFilterSpec | app/quote/page.tsx:269 | Under `FOB`, exactly the pickup-address entries are removed; under any other term nothing is |
| QuoteSteps.StepTwoEmptyIff | app/quote/page.tsx:227-240 | The step-two list is empty iff the service's schema accepts the record |
| QuoteSteps.PickupRequiredUnlessFob | app/quote/page.tsx:267-269 | With no pickup address, `(exactPickupAddress, Required)` is a finding iff the term is not `FOB`, under either schema |
| QuoteSteps.PickupMissingIsRequired | app/quote/schema.ts:55-57 | Under either step-two schema, a missing pickup address is reported, and its first message is `Required` |
| QuoteSteps.SeaLclNeedsPackages | app/quote/schema.ts:94-105 | For sea freight in `LCL` that passes its type checks, a short or missing package count is always a finding, whatever the term |
| QuoteSchema.FieldOutcome | app/quote/schema.ts:30-63 | A rule reports nothing iff the value satisfies it. A stop carries one message. A missing value stops exactly the required rules |
| QuoteSchema.ParseSucceedsIff | app/quote/schema.ts:79-128 | A parse succeeds iff every declared field's rule accepts its value and every refinement holds |
| QuoteSchema.MessagesAtParse | app/quote/schema.ts:30-63 | The issues about a declared field are its rule's messages, then the refinement messages at that field (unless the parse was aborted) |
| QuoteSchema.MessagesAtParseUndeclared | app/quote/schema.ts:30-63 | An undeclared field gets only refinement messages, and none when the parse was aborted |
| QuoteSchema.NameFirstFailure | app/quote/schema.ts:7-11 | `""` gives nameRequired, one character gives nameTooShort, a digit gives nameContainsNumbers, anything else passes |
| QuoteSchema.EmailMessages | app/quote/schema.ts:12 | The shape failure is reported before the emptiness failure, so an empty address reports invalidEmail first |
| QuoteSchema.PhoneMessages | app/quote/schema.ts:13-20 | A phone passes iff it matches `^\+?[0-9\s-]{8,}$` and holds a digit. Empty reports phoneRequired first; every other failure is invalidPhone |
| QuoteSchema.OptionalDistinct | app/quote/schema.ts:6-26 | The optional-context schema declares no field twice |
| QuoteSchema.BaseDistinct | app/quote/schema.ts:30-63 | The base schema declares no field twice |
| QuoteSchema.SeaDistinct | app/quote/schema.ts:79-93 | The sea schema declares no field twice |
| QuoteSchema.SeaExtendsBase | app/quote/schema.ts:79-93 | The sea schema is the base schema with packages, weight and dimensions relaxed to optional text, and `equipmentNeeded` added |
| QuoteSchema.OptionalSchemaScope | app/quote/schema.ts:6-26 | The optional-context parse says nothing about any field outside the seven it checks, except a non-text `additionalInfo` |
| QuoteSchema.BaseServiceType | app/quote/schema.ts:47 | The service type must be air, sea or land; a missing one reports serviceTypeRequired |
| QuoteSchema.BasePickupAddress | app/quote/schema.ts:55-57 | The pickup address's issues depend on its value alone, whatever the term; a missing one reports Required |
| QuoteSchema.BaseShippingTerm | app/quote/schema.ts:54 | The term may be missing; when present it must be EXW or FOB |
| QuoteSchema.SeaPickupAddress | app/quote/schema.ts:79-93 | The sea schema keeps the base pickup rule unchanged: its pickup issues are that rule's messages alone |
| QuoteSchema.SeaEquipment | app/quote/schema.ts:80-90 | `equipmentNeeded` must be one of the nine container codes |
| QuoteSchema.EquipmentCodesAreCodes | app/types/formState.tsx:44 | The nine codes are the codes of the nine container types, in order |
| QuoteSchema.SeaRefinementsOnlyForLcl | app/quote/schema.ts:94-128 | Unless the record is sea freight in `LCL`, no refinement fails |
| QuoteSchema.SeaLclRefinements | app/quote/schema.ts:94-128 | For sea freight in `LCL`, the refinements require packages longer than 1, dimensions longer than 2 and a weight, reported at those fields with their Required keys |
| QuoteSchema.OneKeyAborts | app/quote/schema.ts:30-63 | A one-field record never passes the base or sea schema: another required field is missing, so the parse is aborted |
| ZodString.FailingMessages | app/quote/schema.ts:7-25 | The list is empty iff all checks pass, and every message in it is that of a failing check |
| ZodString.FailingMessagesAppend | app/quote/schema.ts:7-25 | The checks run one after the other: the messages of two check lists are those of the first followed by those of the second, and one check adds its message iff it fails |
| ZodString.FailingMessagesComplete | app/quote/schema.ts:7-25 | Every failing check contributes its message |
| ZodString.FirstFailureIsEarliest | app/quote/schema.ts:7-25 | The first message kept is that of the earliest failing check, and every earlier check passes |
| ZodString.LengthRuleFirstFailure | app/quote/schema.ts:21-25 | `.min(1, required).min(n, tooShort)`: empty gives required, shorter than n gives tooShort, otherwise it passes |
| JsText.BlankIffAllSpace | components/StepOne.tsx:19 | `!value.trim()` holds iff the value is all white space |
| JsText.IndexOf | app/contact/page.tsx:100 | `indexOf` gives the first position of the character, or -1 iff it is absent |
| JsText.ReplaceAllRemoves | actions/index.tsx:97 | After `replace(/\n/g, "<br>")` no line break is left, and text without one is unchanged |
| JsText.ReplaceAllAppend | actions/index.tsx:97 | The replacement works part by part: replacing in a concatenation is replacing in each part |
| JsText.ReplaceAllChar | actions/index.tsx:97 | Each line break becomes the replacement, and any other character stays as it is |
| JsText.ToUpper | app/quote/page.tsx:172 | Upper-casing keeps the length |
| Patterns.EmailMatchIsNotBlank | app/quote/page.tsx:247 | A matching e-mail is never blank |
| Patterns.DigitsPhoneIsNotBlank | app/quote/page.tsx:249 | A matching phone is never blank |
| Patterns.SchemaPhoneHasPhoneChars | app/contact/page.tsx:59-68 | What the schema's phone expression accepts, the page's character pre-check accepts too |
| FormTypes.NameSortRanks | app/types/formState.tsx:173-203 | `nameSort` has 29 keys, each at its own position |
| FormTypes.NameSortDistinct | app/types/formState.tsx:173-203 | `nameSort` lists no key twice |
| FormTypes.NameSortOmits | app/types/formState.tsx:173-203 | `nameSort` does not list the two addresses, `serviceType` or `numberOfPackages` |
| FormTypes.NameSortPrefix | app/types/formState.tsx:173-203 | `nameSort` starts name, email, phone, companyNameSupplier, shippingTerm, exactPickupAddress, and lists `packages` |
| FormTypes.RankedOmitsLater | app/types/formState.tsx:173-203 | A list of 29 keys whose i-th key has rank i omits the two addresses, `numberOfPackages` and `serviceType` |
| FormTypes.ShownAmongMembers | components/StepThree.tsx:11 | The filter keeps exactly the keys with a truthy value |
| FormTypes.ShownAmongOrdered | components/StepThree.tsx:11 | The filter keeps the order of its list |
| FormTypes.ShownKeysSpec | components/StepThree.tsx:11 | The shown keys are exactly the truthy `nameSort` keys, in `nameSort` order, and never the addresses |
| StepThree.RowsFor | components/StepThree.tsx:11-17 | One row per key, in order |
| StepThree.RowsForShow | components/StepThree.tsx:11-17 | The i-th row shows the i-th key's stored value under that key's label |
| StepThree.ReviewRowsSpec | components/StepThree.tsx:11-17 | There is a row for a key iff `nameSort` lists it and its value is truthy. Rows are in `nameSort` order. Each row shows the stored value under its key's label, with `shippingTerms` as the label for the shipping term |
| StepOne.BlurMessageSpec | components/StepOne.tsx:16-31 | Blank text is `required`, before any other check. Then come invalidEmail, invalidPhone (for `^\+?\d{7,15}$`), companyTooShort and nameTooShort (under two characters, untrimmed). The message is `""` iff the value is acceptable, and digits in a name are allowed |
| StepOne.BlurAgreesWithStepOne | components/StepOne.tsx:19-30 | On e-mail and phone the blur clears iff the page's step-one check passes. A one-character name fails the blur but passes the page |
| StepOne.StepOneForm.constructor | components/StepOne.tsx:9-14 | The four entries start as `""` |
| StepOne.StepOneForm.HandleBlur | components/StepOne.tsx:16-33 | Only the blurred field's entry changes, to the cascade's message |
| FieldBlur.BlurUpdate | components/StepTwo.tsx:41-60 | Only the blurred field's entry may change. It is present afterwards iff the one-field parse failed |
| FieldBlur.BlurNeverDeletes | components/StepTwo.tsx:44-58 | Against either quote schema a blur never deletes the entry: a valid field ends up as `""` |
| FieldBlur.BaseTextBlur | components/StepTwo.tsx:44-52 | Blurring a text field of the base schema writes the message of its first failing check, or `""` |
| FieldBlur.SeaOptionalBlur | components/cargo-details.tsx:45-56 | Blurring an optional-text field of the sea schema writes `""`, whatever was typed |
| FieldBlur.BaseUndeclaredBlur | components/forms/AirServiceSpecificArea.tsx:22-33 | Blurring a field the base schema does not declare writes `""` |
| FieldBlur.ErrorMap.constructor | components/StepTwo.tsx:39 | The error map starts empty |
| FieldBlur.ErrorMap.HandleBlur | components/StepTwo.tsx:41-60 | Sets the entry to the first message about the field, to `""` when the failed parse says nothing about it, or deletes it on success |
| StepTwo.ShownPartsSpec | components/StepTwo.tsx:71-179 | The pickup input shows only under EXW, and the cargo-type choice under EXW and FOB. The service choice, descriptions and buttons need a term; the service area and addresses need a service too |
| StepTwo.HiddenPickupNeverBlocks | components/StepTwo.tsx:71-102 | When the buttons and the cargo choice show but the pickup input does not, the term is FOB, and the step-two findings say nothing about the pickup address |
| StepTwo.PickupBlur | components/StepTwo.tsx:41-60 | Pickup address on blur: empty gives Required, under 6 characters TooShort, otherwise `""` |
| StepTwo.DescriptionBlur | components/StepTwo.tsx:41-60 | Description of goods on blur: empty gives Required, under 6 characters TooShort, otherwise `""` |
| AddressDetails.OriginBlur | components/address-details.tsx:19-39 | Origin on blur: empty gives originAddressRequired, 1-2 characters originAddressTooShort, 3 or more `""` |
| AddressDetails.DestinationBlur | components/address-details.tsx:19-39 | Destination on blur: the same thresholds with its own keys |
| CargoDetails.HandleBlur | components/cargo-details.tsx:42-65 | The shared blur update against the sea schema iff the service is `"sea"`, the base schema otherwise |
| CargoDetails.SeaCargoBlurIsSilent | components/cargo-details.tsx:45-57 | Under sea, a blur on packages, dimensions or weight always writes `""` |
| CargoDetails.OtherCargoBlur | components/cargo-details.tsx:45-57 | Under any other service, packages need 2 characters, dimensions 3, and the weight only needs to be present, each with its Required/TooShort key |
| AirArea.SelectUrgency | components/forms/AirServiceSpecificArea.tsx:56-63 | Choosing an urgency writes `deliveryUrgency` and nothing else |
| AirArea.UrgencyBlurIsSilent | components/forms/AirServiceSpecificArea.tsx:18-41 | A blur from the unnamed urgency buttons, or on `deliveryUrgency`, writes `""`, so the urgency never shows a message |
| SeaArea.SelectEquipmentSpec | components/forms/SeaServiceSpecificArea.tsx:28-49 | Choosing a container writes its code. Temperature and unit are kept only for REEF. Open-top sets gauge `in`, capacity 0 and no dimensions; every other container clears gauge and capacity and keeps the dimensions. Nothing else changes |
| SeaArea.SelectEquipmentIdempotent | components/forms/SeaServiceSpecificArea.tsx:28-49 | Choosing the same container twice is choosing it once |
| SeaArea.SelectEquipmentCapacityFalsy | components/forms/SeaServiceSpecificArea.tsx:45-46 | After a container choice the capacity is falsy, so it is neither reviewed nor mailed |
| SeaArea.SelectGaugeSpec | components/forms/SeaServiceSpecificArea.tsx:100-109 | The gauge is written. `in` sets capacity 0 and clears the dimensions, while `out` keeps both. Nothing else changes |
| SeaArea.SetCapacity | components/forms/SeaServiceSpecificArea.tsx:127-131 | The gauge writes only the capacity |
| SeaArea.SetTemperature | components/forms/SeaServiceSpecificArea.tsx:75-84 | The temperature input writes only the temperature and its unit |
| SeaArea.ShownAfterEquipment | components/forms/SeaServiceSpecificArea.tsx:70-164 | After a container choice, the temperature control shows iff REEF, the gauge choice iff open-top, and the cargo details iff LCL. Capacity and dimensions never show |
| SeaArea.ShownAfterGauge | components/forms/SeaServiceSpecificArea.tsx:90-151 | On an open top, capacity and dimensions show iff the gauge is `out` |
| ContactSchema.NameAndCompanyRules | app/contact/schema.ts:4-21 | Name and company: under two characters gives TooShort, then a digit gives ContainsNumbers |
| ContactSchema.ContactPhoneRule | app/contact/schema.ts:9-16 | A phone passes iff it matches `^\+?[0-9\s-]{8,}$` and holds a digit; every failure is invalidPhone |
| ContactSchema.EmailAndMessageRules | app/contact/schema.ts:8-22 | The e-mail fails with invalidEmail iff the recogniser refuses it; a message under ten characters is messageTooShort |
| ContactPage.Write | app/contact/page.tsx:118-124 | Writes one field and keeps the others |
| ContactPage.ValidateFieldSpec | app/contact/page.tsx:42-91 | A field passes iff its schema accepts it (an empty company passes). Empty gives `required`, except `messageTooShort` for the message. A phone with a stray character gives invalidPhone, and a digit in a name or company gives ContainsNumbers |
| ContactPage.ClientChecksCoverServer | actions/index.tsx:43-55 | A post every page check passes meets the server's name, e-mail, company and message rules. With the server phone expression as well, the server accepts it |
| ContactPage.PhoneGapWithServer | actions/index.tsx:44 | Eight digits followed by `-` pass every page check. A server expression that accepts only phones ending in a digit, as this one does, refuses them with `Invalid` |
| ContactPage.Sanitize | app/contact/page.tsx:98 | The stripped phone keeps only digits, white space, `-` and `+`, and is no longer than the input |
| ContactPage.SanitizeAppend | app/contact/page.tsx:98 | Stripping works part by part, so the kept characters survive in their order |
| ContactPage.SanitizeChar | app/contact/page.tsx:98 | One character is kept iff it is a digit, white space, `-` or `+` |
| ContactPage.SanitizeDropsLetter | app/contact/page.tsx:98 | `"1a2"` becomes `"12"` |
| ContactPage.SanitizeKeepsClean | app/contact/page.tsx:98 | A value with no stray character is left unchanged |
| ContactPage.InputChangedSpec | app/contact/page.tsx:93-125 | A change touches its own field only. A non-empty phone is stored as its stripped form unless that form holds `+` after the front; then the change is dropped. A stored phone is clean and holds `+` only in front. A digit in a name or company drops the change; every other change is stored as typed |
| ContactPage.PlusPlacement | app/contact/page.tsx:97-102 | `+1+2` is kept and `1+2` is refused |
| ContactPage.NameNeverTakesDigits | app/contact/page.tsx:113-116 | A digit-free name stays digit-free whatever is typed |
| ContactPage.ErrorsOverSpec | app/contact/page.tsx:145-155 | The submit loop's errors are exactly the failing fields' messages, with nothing for the form |
| ContactPage.SubmitErrorsEmptyIff | app/contact/page.tsx:145-157 | Submission is blocked iff some field fails its check |
| ContactPage.ContactForm.constructor | app/contact/page.tsx:28-40 | Empty fields, no errors, nothing touched, no success |
| ContactPage.ContactForm.ShownError | app/contact/page.tsx:263 | An error shows only for a touched field that has one |
| ContactPage.ContactForm.HandleInputChange | app/contact/page.tsx:93-125 | The data becomes `InputChanged` of the old data (see `InputChangedSpec`); nothing else changes |
| ContactPage.ContactForm.HandleBlur | app/contact/page.tsx:127-139 | The field becomes touched and its entry becomes the check's verdict on the current value; nothing else changes |
| ContactPage.ContactForm.HandleSubmit | app/contact/page.tsx:141-199 | With field errors: shows them all, marks every field touched and sends nothing. Otherwise it sends. On success it starts over empty; on a refusal it shows the action's message above the form and keeps the answers |
| ContactPage.ContactForm.CollectErrors | app/contact/page.tsx:145-155 | The loop collects exactly `ErrorsOver` of all fields, and `hasErrors` holds iff that is non-empty |
| ContactPage.ContactForm.ShowFormError | app/contact/page.tsx:170-176 | Only the form-level error shows; the answers stay |
| ContactPage.ContactForm.StartOver | app/contact/page.tsx:177-190 | Empty answers, no errors, nothing touched, success |
| Actions.SendQuoteSpec | actions/index.tsx:7-37 | The mail goes to `EMAIL_USER`, and the subject is "New Quote Request - " + SERVICE + " Freight". The body follows the heading unchanged. The result is success iff the relay accepts, and the fixed error text otherwise |
| Actions.QuoteSubjectSeparates | actions/index.tsx:21 | Services whose upper-cased names differ get different subjects |
| Actions.ServerFirstIssue | actions/index.tsx:43-72 | There is no issue iff the server schema accepts the post |
| Actions.RecipientsSpec | actions/index.tsx:88 | Both addresses, joined by ", ", with an unset or empty one dropped |
| Actions.ContactHtmlSpec | actions/index.tsx:90-97 | The body ends with the message paragraph, `<p>` + the message with each line break replaced by `<br>` + `</p>`. Its text has no line break left and equals the message when it had none. The company line is empty iff no company was given |
| Actions.MessageParagraphBreaks | actions/index.tsx:97 | A two-line message becomes one paragraph whose lines are joined by `<br>` |
| Actions.SendEmailSpec | actions/index.tsx:59-110 | A mail is composed iff the server schema accepts the post. Success needs that and the relay. A refusal carries the first issue's message |
| Actions.ServerIssueOrder | actions/index.tsx:43-72 | The first issue comes from the first failing field in declaration order. A short name outranks everything, and a one-character company reports "Invalid input" |
| GaugeButton.Clamp | components/GaugeButton.tsx:139 | The result lies within 0..100 and equals the input inside that range |
| GaugeButton.KeyTargetBounds | components/GaugeButton.tsx:121-143 | Exactly the four keys are handled. Each lands within 0..100; Home lands on 0 and End on 100 |
| GaugeButton.ArabicMirrorsArrows | components/GaugeButton.tsx:124-129 | Under Arabic each arrow does what the other arrow does under English |
| GaugeButton.ArrowsUndoEachOther | components/GaugeButton.tsx:124-129 | Inside the range, the forward arrow adds one step and the backward arrow takes it away again |
| GaugeButton.Gauge.constructor | components/GaugeButton.tsx:17-18 | The local value is the given value; the step defaults to 5 |
| GaugeButton.Gauge.SyncValue | components/GaugeButton.tsx:36-38 | The local value follows the given value |
| GaugeButton.Gauge.HandleKeyDown | components/GaugeButton.tsx:121-143 | The reported value is the key's clamped target, and the local value becomes that same value. An ignored key reports nothing and changes nothing |

## Left out

- Translation: `t` is the identity on message and label keys. The language only matters to the gauge.
- `isSubmitting` on both pages: a flag the forms only display.
- Browser effects: `window.scrollTo`, `form.reset()`, `event.preventDefault()` and rendering in general. This includes:
  - that the review step's submit button is a form submit button, so it triggers both `nextStep` (inert there) and `handleSubmit`;
  - that the Previous buttons of steps 2 and 3 (components/StepTwo.tsx:172, components/StepThree.tsx:26) have no `type="button"` and sit in the page's `<form onSubmit={handleSubmit}>` (app/quote/page.tsx:418). So pressing Previous, or Enter in a step-2 text field, also submits the form. With a service chosen, that sends the quote and resets to step 1; without one it shows the form error. `QuotePage.Page.PrevStep` models only `prevStep`;
  - the layout of the two dialogs.
- The quote page's initial answer record is not part of this model. It is a parameter.
- Mail transport (the transporter, credentials, `await`) is not modelled. The relay's verdict is a parameter. `sendQuote`'s answer is ignored by the page, exactly as in the source. On the quote page the send is taken never to throw, so the `catch` of its `handleSubmit` is reached only by the `toUpperCase` failure.
- `QuotePage.SeaLclPackagesGate`: holds only when no sea field aborts the parse. Under `FOB` the pickup input is hidden, so the pickup address can be missing. Its required rule (app/quote/schema.ts:55-57) then aborts the sea parse, the library skips the shared-container refinements (app/quote/schema.ts:94-128), and the `FOB` filter (app/quote/page.tsx:269) drops the only finding. Such a record reaches review with no package count, dimensions or weight. `QuotePage.FobSkipsLcl` proves this, and the model keeps the source's behaviour.
- The schema library's e-mail recogniser is a parameter, because its exact pattern is internal to the library.
- The server's phone expression (actions/index.tsx:44) is a parameter as well. This is a choice of scope: the expression is written out in the source, but it is not interpreted here. So `ContactPage.ClientChecksCoverServer` holds the phone only on condition that the expression accepts it. `ContactPage.PhoneGapWithServer` shows the gap this hides: a phone such as `12345678-` passes every page check, yet the server refuses it with `Invalid`, because its expression must end in a digit.
- `JsText.ToUpper`: does not model `toUpperCase` beyond ASCII letters; other characters are kept.
- Numbers in the answer record are modelled as integers, not floating point.
- String lengths: the schema library's `.min(n)` and `value.length` in components/StepOne.tsx:25-30 count UTF-16 code units, while the model counts characters. A character outside the Basic Multilingual Plane counts as two in the source and as one here. For example, a name made of one emoji passes `.min(2)` in app/contact/schema.ts:6, but the model reports `nameTooShort`.
- The gauge's mouse and touch geometry, dragging, window listeners and 50 ms debounce of `onChange` are not modelled. The keyboard handler is modelled with `onChange` called directly.
- `components/address-details.tsx` reads its values from a `formSatate` property (line 12), but its caller passes `data`, and its props type (app/types/formState.tsx:164-171) has no `formSatate`.
  - So as written, the render reads `.data` of `undefined` at line 51. That is a TypeError while rendering, or a type error at build time.
  - This happens whenever a service type is chosen, because StepTwo then renders `AddressDetails` (components/StepTwo.tsx:125-129). None of the later step-two parts, or step 3 with a service, can then be reached.
  - The model follows the JSX conditions as if the component received `data`: `StepTwo.ShownPartsSpec`, `QuotePage.SelectServiceSpec` and the members after them describe the intended page.
  - Only the component's blur handler is modelled.
- The cargo-details weight and dimension inputs hand `(value, unit)` to the page. This is modelled by `QuotePage.ChangeWeight` and `QuotePage.ChangeDimensions`. An absent dimensions handler (a no-op) is not modelled.
- The contact page's `invalidInput` fallback cannot be reached, because every check throws a schema error. The `unexpectedError` branch of its submit covers a send that throws, and the modelled action never throws. Neither is modelled.
- A contact field error of `undefined` is modelled as the absence of the entry.
- The land-freight area, the service-area dispatch and the selector components are not part of this model. Neither are the temperature, weight and dimension inputs: they are presentational or pass values through.
- `ContactPage.ContactForm.HandleSubmit`: posts the form's data as the state holds it. The browser's own serialisation of the form fields is not modelled.
