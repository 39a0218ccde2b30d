/**
  The cargo inputs shared by the air and sea areas: weight, dimensions and
  number of packages. Their blur handler parses against the sea schema when
  the area says the service is sea freight, and against the base schema
  otherwise.
 */
module CargoDetails {
  import opened Wrappers
  import opened FormTypes
  import opened ZodString
  import opened QuoteSchema
  import opened FieldBlur

  /** The schema a blur is parsed against, chosen by the area's service name. */
  function CargoSchema(serviceType: string): Schema {
    if serviceType == "sea" then SeaFreight else BaseQuote
  }

  /** `handleBlur`: the shared blur update, against the schema the service name selects. */
  method HandleBlur(form: ErrorMap, serviceType: string, name: Key, value: string, isEmail: EmailRecogniser)
    modifies form
    ensures form.errors == BlurUpdate(old(form.errors), CargoSchema(serviceType), name, value, isEmail)
  {
    var schema := if serviceType == "sea" then SeaFreight else BaseQuote;
    form.HandleBlur(schema, name, value, isEmail);
  }

  /**
    Under sea freight the three cargo fields are optional text and the
    shared-container refinements never run on a one-key record, so a blur
    on any of them writes `""`, whatever was typed.
   */
  lemma SeaCargoBlurIsSilent(value: string, isEmail: EmailRecogniser)
    ensures BlurOutcome(CargoSchema("sea"), NumberOfPackages, value, isEmail) == Some("")
    ensures BlurOutcome(CargoSchema("sea"), CargoDimensions, value, isEmail) == Some("")
    ensures BlurOutcome(CargoSchema("sea"), WeightValue, value, isEmail) == Some("")
  {
    SeaExtendsBase();
    SeaOptionalBlur(8, value, isEmail);
    SeaOptionalBlur(14, value, isEmail);
    SeaOptionalBlur(15, value, isEmail);
  }

  /**
    Under any other service the base rules apply: packages need two
    characters, dimensions three, and the weight only needs to be present.
   */
  lemma OtherCargoBlur(serviceType: string, value: string, isEmail: EmailRecogniser)
    requires serviceType != "sea"
    ensures value == "" ==> BlurOutcome(CargoSchema(serviceType), NumberOfPackages, value, isEmail) == Some("numberOfPackagesRequired")
    ensures |value| == 1 ==> BlurOutcome(CargoSchema(serviceType), NumberOfPackages, value, isEmail) == Some("numberOfPackagesTooShort")
    ensures |value| >= 2 ==> BlurOutcome(CargoSchema(serviceType), NumberOfPackages, value, isEmail) == Some("")
    ensures value == "" ==> BlurOutcome(CargoSchema(serviceType), CargoDimensions, value, isEmail) == Some("cargoDimensionsRequired")
    ensures 0 < |value| < 3 ==> BlurOutcome(CargoSchema(serviceType), CargoDimensions, value, isEmail) == Some("cargoDimensionsTooShort")
    ensures |value| >= 3 ==> BlurOutcome(CargoSchema(serviceType), CargoDimensions, value, isEmail) == Some("")
    ensures BlurOutcome(CargoSchema(serviceType), WeightValue, value, isEmail) == Some(if value == "" then "weightValueRequired" else "")
  {
    assert BaseFields[8] == (NumberOfPackages, Text(PackagesChecks));
    assert BaseFields[14] == (WeightValue, Text(WeightChecks));
    assert BaseFields[15] == (CargoDimensions, Text(DimensionsChecks));
    BaseTextBlur(8, value, isEmail);
    BaseTextBlur(14, value, isEmail);
    BaseTextBlur(15, value, isEmail);
    LengthRuleFirstFailure("numberOfPackagesRequired", "numberOfPackagesTooShort", 2, value, isEmail);
    LengthRuleFirstFailure("cargoDimensionsRequired", "cargoDimensionsTooShort", 3, value, isEmail);
    assert WeightChecks[1..] == [];
  }
}
