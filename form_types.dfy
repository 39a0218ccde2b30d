/**
  The shapes of the quote form's answers: the field names, the JavaScript
  values a field can hold, the fixed enumerations and the `nameSort` order in
  which answers are reviewed and mailed.
 */
module FormTypes {
  import opened Wrappers

  /**
    A field name of the quote answer record. The first twenty-nine
    constructors are declared in `nameSort` order; the rest are the fields the
    handlers also write. `Unnamed` is the empty name an element without a
    `name` attribute reports on blur.
   */
  datatype Key =
    | Name | Email | Phone | CompanyNameSupplier | ShippingTerm | ExactPickupAddress
    | TypeOfService | IsGeneral | IsHazardous | DeliveryUrgency | EquipmentNeeded
    | Temperature | TemperatureUnit | CargoInGauge | CargoDimensions | DimensionsUnit
    | UnloadingAssistance | LoadingAssistance | Packages | ContainerCapacity
    | CargoGaugeType | CargoType | WeightValue | WeightUnit | Value | Weight
    | Dimensions | DescriptionOfGoods | AdditionalInfo
    | OriginAddress | DestinationAddress | Description | ServiceType | NumberOfPackages
    | Unnamed

  /** The property name the record uses for a key. */
  function KeyName(k: Key): string {
    match k
    case Name => "name"
    case Email => "email"
    case Phone => "phone"
    case CompanyNameSupplier => "companyNameSupplier"
    case ShippingTerm => "shippingTerm"
    case ExactPickupAddress => "exactPickupAddress"
    case TypeOfService => "typeOfService"
    case IsGeneral => "isGeneral"
    case IsHazardous => "isHazardous"
    case DeliveryUrgency => "deliveryUrgency"
    case EquipmentNeeded => "equipmentNeeded"
    case Temperature => "temperature"
    case TemperatureUnit => "temperatureUnit"
    case CargoInGauge => "cargoInGauge"
    case CargoDimensions => "cargoDimensions"
    case DimensionsUnit => "dimensionsUnit"
    case UnloadingAssistance => "unloadingAssistance"
    case LoadingAssistance => "loadingAssistance"
    case Packages => "packages"
    case ContainerCapacity => "containerCapacity"
    case CargoGaugeType => "cargoGaugeType"
    case CargoType => "cargoType"
    case WeightValue => "weightValue"
    case WeightUnit => "weightUnit"
    case Value => "value"
    case Weight => "weight"
    case Dimensions => "dimensions"
    case DescriptionOfGoods => "descriptionOfGoods"
    case AdditionalInfo => "additionalInfo"
    case OriginAddress => "originAddress"
    case DestinationAddress => "destinationAddress"
    case Description => "description"
    case ServiceType => "serviceType"
    case NumberOfPackages => "numberOfPackages"
    case Unnamed => ""
  }

  /** The position of a key in declaration order; the keys of `nameSort` come first. */
  function Rank(k: Key): nat {
    match k
    case Name => 0
    case Email => 1
    case Phone => 2
    case CompanyNameSupplier => 3
    case ShippingTerm => 4
    case ExactPickupAddress => 5
    case TypeOfService => 6
    case IsGeneral => 7
    case IsHazardous => 8
    case DeliveryUrgency => 9
    case EquipmentNeeded => 10
    case Temperature => 11
    case TemperatureUnit => 12
    case CargoInGauge => 13
    case CargoDimensions => 14
    case DimensionsUnit => 15
    case UnloadingAssistance => 16
    case LoadingAssistance => 17
    case Packages => 18
    case ContainerCapacity => 19
    case CargoGaugeType => 20
    case CargoType => 21
    case WeightValue => 22
    case WeightUnit => 23
    case Value => 24
    case Weight => 25
    case Dimensions => 26
    case DescriptionOfGoods => 27
    case AdditionalInfo => 28
    case OriginAddress => 29
    case DestinationAddress => 30
    case Description => 31
    case ServiceType => 32
    case NumberOfPackages => 33
    case Unnamed => 34
  }

  /** A JavaScript value as the answer record holds it (numbers here are whole). */
  datatype JsValue = Undefined | Null | Str(s: string) | Num(n: int) | Bool(b: bool)

  /** `!!v`. */
  predicate Truthy(v: JsValue) {
    match v
    case Undefined => false
    case Null => false
    case Str(s) => s != ""
    case Num(n) => n != 0
    case Bool(b) => b
  }

  /** `typeof`-style name of a value's type, as validation messages spell it. */
  function TypeName(v: JsValue): string {
    match v
    case Undefined => "undefined"
    case Null => "null"
    case Str(_) => "string"
    case Num(_) => "number"
    case Bool(_) => "boolean"
  }

  /** The answer record. A key that is absent reads as `undefined`. */
  type Data = map<Key, JsValue>

  function Get(d: Data, k: Key): JsValue {
    if k in d then d[k] else Undefined
  }

  /** The freight modes. The selection itself may be `null`, which is `None`. */
  datatype Service = Air | Sea | Land

  function ServiceName(s: Service): string {
    match s
    case Air => "air"
    case Sea => "sea"
    case Land => "land"
  }

  /** The value a service selection stores in the record: its name, or `null`. */
  function ServiceValue(s: Option<Service>): JsValue {
    match s
    case None => Null
    case Some(t) => Str(ServiceName(t))
  }

  /** The two shipping terms, as the selector offers them. */
  datatype Term = Exw | Fob

  function TermName(t: Term): string {
    match t
    case Exw => "EXW"
    case Fob => "FOB"
  }

  /** `shippingTerms`. */
  const ShippingTerms: seq<string> := ["EXW", "FOB"]

  /** The sea-freight container types. */
  datatype Equipment = Lcl | Ft20 | Ft40 | Hc20 | Hc40 | Reef20 | Reef40 | OpenTop20 | OpenTop40

  function EquipmentCode(e: Equipment): string {
    match e
    case Lcl => "LCL"
    case Ft20 => "20ft"
    case Ft40 => "40ft"
    case Hc20 => "20HC"
    case Hc40 => "40HC"
    case Reef20 => "20REEF"
    case Reef40 => "40REEF"
    case OpenTop20 => "20OT"
    case OpenTop40 => "40OT"
  }

  const AllEquipment: seq<Equipment> := [Lcl, Ft20, Ft40, Hc20, Hc40, Reef20, Reef40, OpenTop20, OpenTop40]

  /** The nine codes `equipmentNeeded` may hold, in the order they are offered. */
  const EquipmentCodes: seq<string> := ["LCL", "20ft", "40ft", "20HC", "40HC", "20REEF", "40REEF", "20OT", "40OT"]

  predicate IsReefer(e: Equipment) { e == Reef20 || e == Reef40 }

  predicate IsOpenTop(e: Equipment) { e == OpenTop20 || e == OpenTop40 }

  /** Whether an open-top cargo fits inside the container. */
  datatype Gauge = InGauge | OutOfGauge

  function GaugeName(g: Gauge): string {
    match g
    case InGauge => "in"
    case OutOfGauge => "out"
  }

  const GaugeTypes: seq<string> := ["in", "out"]

  datatype Cargo = General | Hazardous

  function CargoName(c: Cargo): string {
    match c
    case General => "general"
    case Hazardous => "hazardous"
  }

  datatype LengthUnit = Cm | Inch | Metre | Foot

  function LengthUnitName(u: LengthUnit): string {
    match u
    case Cm => "cm"
    case Inch => "in"
    case Metre => "m"
    case Foot => "ft"
  }

  datatype MassUnit = Kg | Lb | Ton

  function MassUnitName(u: MassUnit): string {
    match u
    case Kg => "kg"
    case Lb => "lb"
    case Ton => "ton"
  }

  datatype TemperatureScale = Celsius | Fahrenheit

  function TemperatureScaleName(u: TemperatureScale): string {
    match u
    case Celsius => "C"
    case Fahrenheit => "F"
  }

  datatype Urgency = Standard | Express | Priority

  function UrgencyName(u: Urgency): string {
    match u
    case Standard => "standard"
    case Express => "express"
    case Priority => "priority"
  }

  /** `nameSort`: the order in which answers are reviewed and mailed. */
  const NameSort: seq<Key> := [
    Name, Email, Phone, CompanyNameSupplier, ShippingTerm, ExactPickupAddress,
    TypeOfService, IsGeneral, IsHazardous, DeliveryUrgency, EquipmentNeeded,
    Temperature, TemperatureUnit, CargoInGauge, CargoDimensions, DimensionsUnit,
    UnloadingAssistance, LoadingAssistance, Packages, ContainerCapacity,
    CargoGaugeType, CargoType, WeightValue, WeightUnit, Value, Weight,
    Dimensions, DescriptionOfGoods, AdditionalInfo
  ]

  /** Each key of `nameSort` sits at its own rank, so none is repeated. */
  lemma NameSortRanks()
    ensures |NameSort| == 29
    ensures forall i :: 0 <= i < |NameSort| ==> Rank(NameSort[i]) == i
  {
    NameSortRanksIn0To10();
    NameSortRanksIn10To20();
    NameSortRanksIn20To29();
  }

  /** The ranks of `nameSort`, checked a third of the list at a time. */
  lemma NameSortRanksIn0To10()
    ensures forall i :: 0 <= i < 10 ==> Rank(NameSort[i]) == i
  {
  }

  lemma NameSortRanksIn10To20()
    ensures forall i :: 10 <= i < 20 ==> Rank(NameSort[i]) == i
  {
  }

  lemma NameSortRanksIn20To29()
    ensures |NameSort| == 29
    ensures forall i :: 20 <= i < 29 ==> Rank(NameSort[i]) == i
  {
  }

  /** `nameSort` lists no key twice. */
  lemma NameSortDistinct()
    ensures forall i, j :: 0 <= i < j < |NameSort| ==> NameSort[i] != NameSort[j]
  {
    NameSortRanks();
    forall i, j | 0 <= i < j < |NameSort| ensures NameSort[i] != NameSort[j] {
      assert Rank(NameSort[i]) == i && Rank(NameSort[j]) == j;
    }
  }

  /** The two addresses, `serviceType` and `numberOfPackages` are not in `nameSort`. */
  lemma NameSortOmits()
    ensures OriginAddress !in NameSort && DestinationAddress !in NameSort
    ensures NumberOfPackages !in NameSort && ServiceType !in NameSort
  {
    NameSortRanks();
    RankedOmitsLater(NameSort);
  }

  /**
    A list of 29 keys whose i-th key has rank i holds none of the keys ranked
    29 and later.
   */
  lemma RankedOmitsLater(keys: seq<Key>)
    requires |keys| == 29
    requires forall i :: 0 <= i < |keys| ==> Rank(keys[i]) == i
    ensures OriginAddress !in keys && DestinationAddress !in keys
    ensures NumberOfPackages !in keys && ServiceType !in keys
  {
    forall k | k in keys ensures Rank(k) < 29 {
      var i :| 0 <= i < |keys| && keys[i] == k;
      assert Rank(keys[i]) == i;
    }
  }

  /** `nameSort` begins with the identity and shipping keys, and lists `packages`. */
  lemma NameSortPrefix()
    ensures NameSort[..6] == [Name, Email, Phone, CompanyNameSupplier, ShippingTerm, ExactPickupAddress]
    ensures Packages in NameSort
  {
    assert NameSort[18] == Packages;
  }

  /** The keys of `nameSort` whose value is truthy, in `nameSort` order. */
  function ShownKeys(d: Data): seq<Key> {
    ShownAmong(NameSort, d)
  }

  function ShownAmong(keys: seq<Key>, d: Data): seq<Key> {
    if keys == [] then []
    else (if Truthy(Get(d, keys[0])) then [keys[0]] else []) + ShownAmong(keys[1..], d)
  }

  /** Filtering keeps exactly the keys with a truthy value. */
  lemma {:induction false} ShownAmongMembers(keys: seq<Key>, d: Data)
    ensures forall k :: k in ShownAmong(keys, d) <==> k in keys && Truthy(Get(d, k))
  {
    if keys != [] {
      ShownAmongMembers(keys[1..], d);
      assert keys == [keys[0]] + keys[1..];
    }
  }

  /** Filtering keeps the rank order of a rank-ordered list. */
  lemma {:induction false} ShownAmongOrdered(keys: seq<Key>, d: Data)
    requires forall i, j :: 0 <= i < j < |keys| ==> Rank(keys[i]) < Rank(keys[j])
    ensures forall i, j :: 0 <= i < j < |ShownAmong(keys, d)| ==>
      Rank(ShownAmong(keys, d)[i]) < Rank(ShownAmong(keys, d)[j])
  {
    if keys != [] {
      ShownAmongOrdered(keys[1..], d);
      ShownAmongMembers(keys[1..], d);
      var rest := ShownAmong(keys[1..], d);
      forall k | k in rest ensures Rank(keys[0]) < Rank(k) {
        var j :| 0 <= j < |keys[1..]| && keys[1..][j] == k;
        assert keys[j + 1] == k;
      }
    }
  }

  /**
    The shown keys are exactly the `nameSort` keys with a truthy value, in
    `nameSort` order, without repeats.
   */
  lemma ShownKeysSpec(d: Data)
    ensures forall k :: k in ShownKeys(d) <==> k in NameSort && Truthy(Get(d, k))
    ensures forall i, j :: 0 <= i < j < |ShownKeys(d)| ==> Rank(ShownKeys(d)[i]) < Rank(ShownKeys(d)[j])
    ensures forall k :: k in ShownKeys(d) ==> k != OriginAddress && k != DestinationAddress
  {
    NameSortRanks();
    NameSortOmits();
    ShownAmongMembers(NameSort, d);
    ShownAmongOrdered(NameSort, d);
  }

  /** The translation key a review row or mail line is labelled with. */
  function LabelKey(k: Key): string {
    if k == ShippingTerm then "shippingTerms" else KeyName(k)
  }
}
