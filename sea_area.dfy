/**
  The sea-freight area: the record updates its container, gauge, capacity
  and temperature controls make, and which of its controls it shows.
 */
module SeaArea {
  import opened FormTypes

  /**
    Choosing a container writes its code. Only refrigerated containers keep
    the temperature and its unit (otherwise the temperature becomes `""` and
    the unit `undefined`); open-top containers start in gauge with capacity 0
    and no dimensions, every other container clears gauge and capacity and
    keeps the dimensions.
   */
  function SelectEquipment(d: Data, e: Equipment): Data {
    var chosen := d[EquipmentNeeded := Str(EquipmentCode(e))];
    var temperature := if IsReefer(e) then chosen else chosen[Temperature := Str("")][TemperatureUnit := Undefined];
    if IsOpenTop(e) then temperature[CargoGaugeType := Str("in")][ContainerCapacity := Num(0)][CargoDimensions := Str("")]
    else temperature[CargoGaugeType := Undefined][ContainerCapacity := Undefined]
  }

  /** The five keys a container choice may touch besides its own. */
  predicate EquipmentDependent(k: Key) {
    k == Temperature || k == TemperatureUnit || k == CargoGaugeType || k == ContainerCapacity || k == CargoDimensions
  }

  /** Each key a container choice touches, read back; every other key is left alone. */
  lemma SelectEquipmentSpec(d: Data, e: Equipment)
    ensures Get(SelectEquipment(d, e), EquipmentNeeded) == Str(EquipmentCode(e))
    ensures Get(SelectEquipment(d, e), Temperature) == if IsReefer(e) then Get(d, Temperature) else Str("")
    ensures Get(SelectEquipment(d, e), TemperatureUnit) == if IsReefer(e) then Get(d, TemperatureUnit) else Undefined
    ensures Get(SelectEquipment(d, e), CargoGaugeType) == if IsOpenTop(e) then Str("in") else Undefined
    ensures Get(SelectEquipment(d, e), ContainerCapacity) == if IsOpenTop(e) then Num(0) else Undefined
    ensures Get(SelectEquipment(d, e), CargoDimensions) == if IsOpenTop(e) then Str("") else Get(d, CargoDimensions)
    ensures forall k :: k != EquipmentNeeded && !EquipmentDependent(k) ==> Get(SelectEquipment(d, e), k) == Get(d, k)
  {
    SelectEquipmentFrame(d, e);
  }

  /** A container choice leaves every key but its own and the five dependent ones alone. */
  lemma SelectEquipmentFrame(d: Data, e: Equipment)
    ensures forall k :: k != EquipmentNeeded && !EquipmentDependent(k) ==> Get(SelectEquipment(d, e), k) == Get(d, k)
  {
    var chosen := d[EquipmentNeeded := Str(EquipmentCode(e))];
    var temperature := if IsReefer(e) then chosen else chosen[Temperature := Str("")][TemperatureUnit := Undefined];
    forall k | k != EquipmentNeeded && !EquipmentDependent(k) ensures Get(SelectEquipment(d, e), k) == Get(d, k) {
      assert Get(temperature, k) == Get(d, k);
      if IsOpenTop(e) {
        assert SelectEquipment(d, e) == temperature[CargoGaugeType := Str("in")][ContainerCapacity := Num(0)][CargoDimensions := Str("")];
      } else {
        assert SelectEquipment(d, e) == temperature[CargoGaugeType := Undefined][ContainerCapacity := Undefined];
      }
    }
  }

  /** Choosing the same container twice is the same as choosing it once. */
  lemma SelectEquipmentIdempotent(d: Data, e: Equipment)
    ensures SelectEquipment(SelectEquipment(d, e), e) == SelectEquipment(d, e)
  {
  }

  /**
    After a container choice the capacity is falsy (0 or `undefined`), so it
    neither shows in the review nor reaches the mail.
   */
  lemma SelectEquipmentCapacityFalsy(d: Data, e: Equipment)
    ensures !Truthy(Get(SelectEquipment(d, e), ContainerCapacity))
  {
  }

  /** Choosing a gauge writes it; in gauge also resets capacity to 0 and clears the dimensions. */
  function SelectGauge(d: Data, g: Gauge): Data {
    var chosen := d[CargoGaugeType := Str(GaugeName(g))];
    if g == InGauge then chosen[ContainerCapacity := Num(0)][CargoDimensions := Str("")] else chosen
  }

  lemma SelectGaugeSpec(d: Data, g: Gauge)
    ensures Get(SelectGauge(d, g), CargoGaugeType) == Str(GaugeName(g))
    ensures Get(SelectGauge(d, g), ContainerCapacity) == if g == InGauge then Num(0) else Get(d, ContainerCapacity)
    ensures Get(SelectGauge(d, g), CargoDimensions) == if g == InGauge then Str("") else Get(d, CargoDimensions)
    ensures forall k :: k != CargoGaugeType && k != ContainerCapacity && k != CargoDimensions ==> Get(SelectGauge(d, g), k) == Get(d, k)
  {
  }

  /** The capacity gauge writes the capacity and nothing else. */
  function SetCapacity(d: Data, value: int): (r: Data)
    ensures Get(r, ContainerCapacity) == Num(value)
    ensures forall k :: k != ContainerCapacity ==> Get(r, k) == Get(d, k)
  {
    d[ContainerCapacity := Num(value)]
  }

  /** The temperature input writes the temperature and its unit together. */
  function SetTemperature(d: Data, value: string, unit: TemperatureScale): (r: Data)
    ensures Get(r, Temperature) == Str(value) && Get(r, TemperatureUnit) == Str(TemperatureScaleName(unit))
    ensures forall k :: k != Temperature && k != TemperatureUnit ==> Get(r, k) == Get(d, k)
  {
    d[Temperature := Str(value)][TemperatureUnit := Str(TemperatureScaleName(unit))]
  }

  /** The controls of the area below the container choice. */
  datatype SeaPart = TemperatureControl | GaugeChoice | CapacityGauge | DimensionsControl | CargoDetailsForm

  function ShownSeaParts(d: Data): set<SeaPart> {
    var code := Get(d, EquipmentNeeded);
    var openTop := code == Str("20OT") || code == Str("40OT");
    var outOfGauge := Get(d, CargoGaugeType) == Str("out");
    (if Truthy(code) && code != Str("LCL") then
       (if code == Str("20REEF") || code == Str("40REEF") then {TemperatureControl} else {})
       + (if openTop then {GaugeChoice} else {})
       + (if openTop && outOfGauge then {CapacityGauge, DimensionsControl} else {})
     else {})
    + (if code == Str("LCL") then {CargoDetailsForm} else {})
  }

  /** Which codes the area tests for: refrigerated, open-top and the shared container. */
  lemma EquipmentCodeClasses(e: Equipment)
    ensures (EquipmentCode(e) == "20REEF" || EquipmentCode(e) == "40REEF") <==> IsReefer(e)
    ensures (EquipmentCode(e) == "20OT" || EquipmentCode(e) == "40OT") <==> IsOpenTop(e)
    ensures EquipmentCode(e) == "LCL" <==> e == Lcl
    ensures EquipmentCode(e) != ""
  {
  }

  /**
    Right after a container choice, the temperature control shows exactly for
    refrigerated containers, the gauge choice exactly for open-top ones, the
    cargo details exactly for the shared container, and the capacity and
    dimensions controls not at all, since an open top starts in gauge.
   */
  lemma ShownAfterEquipment(d: Data, e: Equipment)
    ensures TemperatureControl in ShownSeaParts(SelectEquipment(d, e)) <==> IsReefer(e)
    ensures GaugeChoice in ShownSeaParts(SelectEquipment(d, e)) <==> IsOpenTop(e)
    ensures CargoDetailsForm in ShownSeaParts(SelectEquipment(d, e)) <==> e == Lcl
    ensures CapacityGauge !in ShownSeaParts(SelectEquipment(d, e))
    ensures DimensionsControl !in ShownSeaParts(SelectEquipment(d, e))
  {
    SelectEquipmentSpec(d, e);
    EquipmentCodeClasses(e);
  }

  /** On an open-top container, choosing out of gauge brings up the capacity and dimensions controls; in gauge hides them. */
  lemma ShownAfterGauge(d: Data, e: Equipment, g: Gauge)
    requires IsOpenTop(e)
    ensures CapacityGauge in ShownSeaParts(SelectGauge(SelectEquipment(d, e), g)) <==> g == OutOfGauge
    ensures DimensionsControl in ShownSeaParts(SelectGauge(SelectEquipment(d, e), g)) <==> g == OutOfGauge
    ensures GaugeChoice in ShownSeaParts(SelectGauge(SelectEquipment(d, e), g))
  {
    SelectEquipmentSpec(d, e);
    SelectGaugeSpec(SelectEquipment(d, e), g);
  }
}
