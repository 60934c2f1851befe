/** Temperature sensor entities: the reading filter with its change counter, the unit,
    and the sensors setup creates (temperature_sensors.py). */
module TemperatureSensors {
  import opened Wrappers
  import Text

  const MinTemperature: real := -50.0
  const MaxTemperature: real := 100.0
  /** A change larger than this counts as a significant change. */
  const ChangeThreshold: real := 0.1
  /** The change counter is reset once it exceeds this. */
  const MaxChangeCount: nat := 10
  const Celsius: string := "°C"

  /** What the value getter gives on one read. */
  datatype Reading = NoValue | GetterRaised | NotNumeric | Numeric(x: real)

  /** What the unit getter is: absent, raising, or returning a unit (possibly None). */
  datatype UnitGetter = NoUnitGetter | UnitGetterRaises | UnitGetterReturns(unit: Option<string>)

  function Abs(x: real): real {
    if x < 0.0 then -x else x
  }

  /** Whether a reading is accepted: a number from -50 to 100 inclusive. */
  predicate Accepted(r: Reading) {
    r.Numeric? && MinTemperature <= r.x <= MaxTemperature
  }

  /** The change counter after one significant change: one more, back to zero once that
      makes it exceed ten. */
  function CountChange(count: nat): (c: nat)
    requires count <= MaxChangeCount
    ensures c <= MaxChangeCount && c == (count + 1) % (MaxChangeCount + 1)
  {
    if count + 1 > MaxChangeCount then 0 else count + 1
  }

  /** The change counter after accepting x: a significant change from the previous
      accepted value counts, any other reading leaves the counter alone. */
  function NextChangeCount(last: Option<real>, count: nat, x: real): (c: nat)
    requires count <= MaxChangeCount
    ensures c <= MaxChangeCount
    ensures last.None? || Abs(x - last.value) <= ChangeThreshold ==> c == count
    ensures last.Some? && Abs(x - last.value) > ChangeThreshold ==> c == (count + 1) % (MaxChangeCount + 1)
  {
    if last.Some? && Abs(x - last.value) > ChangeThreshold then CountChange(count) else count
  }

  /** The counter after n significant changes, starting from `count`. */
  function AfterChanges(count: nat, n: nat): (c: nat)
    requires count <= MaxChangeCount
    ensures c <= MaxChangeCount
  {
    if n == 0 then count else CountChange(AfterChanges(count, n - 1))
  }

  /** The counter counts significant changes modulo eleven: the eleventh change after a
      reset brings it back to zero. */
  lemma {:induction false} AfterChangesModulo(count: nat, n: nat)
    requires count <= MaxChangeCount
    ensures AfterChanges(count, n) == (count + n) % (MaxChangeCount + 1)
  {
    if n > 0 {
      AfterChangesModulo(count, n - 1);
    }
  }

  /** `native_unit_of_measurement`: the unit getter's result when there is a getter and
      it does not raise, otherwise Celsius. */
  function NativeUnit(getter: UnitGetter): (u: Option<string>)
    ensures getter.UnitGetterReturns? ==> u == getter.unit
    ensures !getter.UnitGetterReturns? ==> u == Some(Celsius)
  {
    match getter
    case UnitGetterReturns(unit) => unit
    case _ => Some(Celsius)
  }

  /** `TemperatureSensor`: a sensor entity that filters its readings. */
  class TemperatureSensor {
    const key: string
    const name: string
    const zone: int
    var lastValue: Option<real>
    var valueChangeCount: nat

    ghost predicate Valid()
      reads this
    {
      valueChangeCount <= MaxChangeCount
    }

    constructor (key: string, name: string, zone: int)
      ensures Valid()
      ensures this.key == key && this.name == name && this.zone == zone
      ensures lastValue == None && valueChangeCount == 0
    {
      this.key := key;
      this.name := name;
      this.zone := zone;
      lastValue := None;
      valueChangeCount := 0;
    }

    /** `native_value`: None for a missing, failing, non-numeric or out-of-range reading,
        which leaves the sensor as it was; an accepted reading is returned, remembered,
        and moves the change counter. */
    method NativeValue(reading: Reading) returns (v: Option<real>)
      requires Valid()
      modifies this
      ensures Valid()
      ensures v.Some? <==> Accepted(reading)
      ensures !Accepted(reading) ==> unchanged(this)
      ensures Accepted(reading) ==>
        && v == Some(reading.x) && lastValue == v
        && valueChangeCount == NextChangeCount(old(lastValue), old(valueChangeCount), reading.x)
    {
      if !reading.Numeric? {
        return None;
      }
      var value := reading.x;
      if value < MinTemperature || value > MaxTemperature {
        return None;
      }
      if lastValue.Some? {
        if Abs(value - lastValue.value) > ChangeThreshold {
          valueChangeCount := valueChangeCount + 1;
          if valueChangeCount > MaxChangeCount {
            valueChangeCount := 0;
          }
        }
      }
      lastValue := Some(value);
      return Some(value);
    }
  }

  // ---------------------------------------------------------------- setup

  datatype SystemType = Galevo | Bsb | Velis | OtherSystem

  /** What setup learns from the device: its name, system type and zones, which water
      heater attributes it has, and which of the optional readings exist and are not
      None. */
  datatype Device = Device(
    name: string,
    systemType: SystemType,
    zoneNumbers: seq<int>,
    hasWaterHeaterCurrent: bool,
    hasWaterHeaterTarget: bool,
    hasWaterHeaterMinimum: bool,
    hasWaterHeaterMaximum: bool,
    hasOutside: bool,
    hasChFlow: bool,
    hasChReturn: bool,
    hasChFlowSetpoint: bool,
    hasProcReq: bool)

  /** A sensor setup creates: its key, display name and zone (0 for device-wide ones). */
  datatype SensorSpec = SensorSpec(key: string, name: string, zone: int)

  /** The four sensors of one zone: current, target, comfort and economy temperature. */
  function ZoneSensors(deviceName: string, z: int): (s: seq<SensorSpec>)
    ensures |s| == 4 && forall i :: 0 <= i < 4 ==> s[i].zone == z
  {
    var n := Text.IntToString(z);
    [ SensorSpec("zone_" + n + "_current_temperature", deviceName + " Zone " + n + " Current Temperature", z),
      SensorSpec("zone_" + n + "_target_temperature", deviceName + " Zone " + n + " Target Temperature", z),
      SensorSpec("zone_" + n + "_comfort_temperature", deviceName + " Zone " + n + " Comfort Temperature", z),
      SensorSpec("zone_" + n + "_economy_temperature", deviceName + " Zone " + n + " Economy Temperature", z) ]
  }

  function AllZoneSensors(deviceName: string, zones: seq<int>): (s: seq<SensorSpec>)
    ensures |s| == 4 * |zones|
  {
    if zones == [] then [] else AllZoneSensors(deviceName, zones[..|zones| - 1]) + ZoneSensors(deviceName, zones[|zones| - 1])
  }

  function Count(b: bool): nat {
    if b then 1 else 0
  }

  function Optional(present: bool, s: SensorSpec): (o: seq<SensorSpec>)
    ensures |o| == Count(present)
  {
    if present then [s] else []
  }

  function WaterHeaterSensors(d: Device): seq<SensorSpec> {
    if d.systemType != Velis then []
    else
      Optional(d.hasWaterHeaterCurrent,
        SensorSpec("water_heater_current_temperature", d.name + " Water Heater Current Temperature", 0))
      + Optional(d.hasWaterHeaterTarget,
        SensorSpec("water_heater_target_temperature", d.name + " Water Heater Target Temperature", 0))
      + Optional(d.hasWaterHeaterMinimum,
        SensorSpec("water_heater_minimum_temperature", d.name + " Water Heater Minimum Temperature", 0))
      + Optional(d.hasWaterHeaterMaximum,
        SensorSpec("water_heater_maximum_temperature", d.name + " Water Heater Maximum Temperature", 0))
  }

  function HeatingCircuitSensors(d: Device): seq<SensorSpec> {
    Optional(d.hasOutside, SensorSpec("outside_temperature", d.name + " Outside Temperature", 0))
    + Optional(d.hasChFlow, SensorSpec("ch_flow_temperature", d.name + " CH Flow Temperature", 0))
    + Optional(d.hasChReturn, SensorSpec("ch_return_temperature", d.name + " CH Return Temperature", 0))
    + Optional(d.hasChFlowSetpoint,
        SensorSpec("ch_flow_setpoint_temperature", d.name + " CH Flow Setpoint Temperature", 0))
    + Optional(d.systemType == Velis && d.hasProcReq,
        SensorSpec("proc_req_temperature", d.name + " Process Request Temperature", 0))
  }

  /** Every sensor `async_setup_entry` creates for a device, in creation order. */
  function PlannedSensors(d: Device): seq<SensorSpec> {
    (if d.systemType == Galevo || d.systemType == Bsb then AllZoneSensors(d.name, d.zoneNumbers) else [])
    + WaterHeaterSensors(d) + HeatingCircuitSensors(d)
  }

  /** How many sensors setup creates: four per zone on GALEVO and BSB systems, one per
      water-heater attribute on VELIS systems, and one per optional reading. */
  lemma PlannedSensorCount(d: Device)
    ensures |PlannedSensors(d)| ==
      (if d.systemType == Galevo || d.systemType == Bsb then 4 * |d.zoneNumbers| else 0)
      + (if d.systemType == Velis then
           Count(d.hasWaterHeaterCurrent) + Count(d.hasWaterHeaterTarget)
           + Count(d.hasWaterHeaterMinimum) + Count(d.hasWaterHeaterMaximum) + Count(d.hasProcReq)
         else 0)
      + Count(d.hasOutside) + Count(d.hasChFlow) + Count(d.hasChReturn) + Count(d.hasChFlowSetpoint)
  {
    var velis := d.systemType == Velis;
    assert |WaterHeaterSensors(d)| == if velis then
      Count(d.hasWaterHeaterCurrent) + Count(d.hasWaterHeaterTarget)
      + Count(d.hasWaterHeaterMinimum) + Count(d.hasWaterHeaterMaximum)
      else 0;
    assert |HeatingCircuitSensors(d)| ==
      Count(d.hasOutside) + Count(d.hasChFlow) + Count(d.hasChReturn) + Count(d.hasChFlowSetpoint)
      + Count(velis && d.hasProcReq);
  }

  /** `async_setup_entry`. `device` is None when there is no coordinator or it has no
      device; then nothing is created. Entities are added only when at least one sensor
      was created. */
  method SetupEntry(device: Option<Device>) returns (sensors: seq<SensorSpec>, added: bool)
    ensures device.None? ==> sensors == [] && !added
    ensures device.Some? ==> sensors == PlannedSensors(device.value)
    ensures added <==> sensors != []
  {
    if device.None? {
      return [], false;
    }
    var d := device.value;
    sensors := [];
    if d.systemType == Galevo || d.systemType == Bsb {
      var i := 0;
      while i < |d.zoneNumbers|
        invariant 0 <= i <= |d.zoneNumbers|
        invariant sensors == AllZoneSensors(d.name, d.zoneNumbers[..i])
      {
        assert d.zoneNumbers[..i + 1][..i] == d.zoneNumbers[..i];
        sensors := sensors + ZoneSensors(d.name, d.zoneNumbers[i]);
        i := i + 1;
      }
      assert d.zoneNumbers[..i] == d.zoneNumbers;
    }
    sensors := sensors + WaterHeaterSensors(d) + HeatingCircuitSensors(d);
    added := sensors != [];
  }
}
