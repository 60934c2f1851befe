/** The thermostat entity: its HVAC mode and action decision tables, icon, unique id,
    temperature setting, and the thermostats setup creates (climate.py). */
module Climate {
  import opened Wrappers
  import Text

  datatype HvacMode = ModeOff | ModeHeat | ModeCool | ModeAuto
  datatype HvacAction = ActionOff | ActionHeating | ActionCooling | ActionIdle

  /** What the device reports for the plant and for this thermostat's zone. */
  datatype Readings = Readings(
    plantHeat: bool,      // is_plant_in_heat_mode
    plantCool: bool,      // is_plant_in_cool_mode
    zoneManual: bool,     // is_zone_in_manual_mode(zone)
    zoneTimeProgram: bool, // is_zone_in_time_program_mode(zone)
    flameOn: bool)        // bool(is_flame_on_value)

  /** `hvac_mode`: OFF unless the plant heats or cools; a manual zone gives HEAT or COOL,
      a time-programmed one AUTO, and the cooling check, made second, wins. */
  function HvacModeOf(d: Readings): (m: HvacMode)
    ensures !d.plantHeat && !d.plantCool ==> m == ModeOff
    ensures !d.zoneManual && !d.zoneTimeProgram ==> m == ModeOff
    ensures d.plantCool && d.zoneManual ==> m == ModeCool
    ensures d.plantHeat && !d.plantCool && d.zoneManual ==> m == ModeHeat
    ensures (d.plantHeat || d.plantCool) && !d.zoneManual && d.zoneTimeProgram ==> m == ModeAuto
  {
    var heat :=
      if d.plantHeat then
        if d.zoneManual then ModeHeat else if d.zoneTimeProgram then ModeAuto else ModeOff
      else ModeOff;
    if d.plantCool then
      if d.zoneManual then ModeCool else if d.zoneTimeProgram then ModeAuto else heat
    else heat
  }

  /** Read the other way: each mode names the readings that produce it. */
  lemma HvacModeCases(d: Readings)
    ensures HvacModeOf(d) == ModeHeat <==> d.plantHeat && !d.plantCool && d.zoneManual
    ensures HvacModeOf(d) == ModeCool <==> d.plantCool && d.zoneManual
    ensures HvacModeOf(d) == ModeAuto <==> (d.plantHeat || d.plantCool) && !d.zoneManual && d.zoneTimeProgram
    ensures HvacModeOf(d) == ModeOff <==>
      (!d.plantHeat && !d.plantCool) || (!d.zoneManual && !d.zoneTimeProgram)
  {
  }

  /** `hvac_action`: OFF unless the plant heats or cools; otherwise HEATING or COOLING
      while the flame is on and IDLE while it is off, cooling mode winning over heating. */
  function HvacActionOf(d: Readings): (a: HvacAction)
    ensures !d.plantHeat && !d.plantCool ==> a == ActionOff
    ensures (d.plantHeat || d.plantCool) && !d.flameOn ==> a == ActionIdle
    ensures d.plantCool && d.flameOn ==> a == ActionCooling
    ensures d.plantHeat && !d.plantCool && d.flameOn ==> a == ActionHeating
  {
    var heat := if d.plantHeat then (if d.flameOn then ActionHeating else ActionIdle) else ActionOff;
    if d.plantCool then (if d.flameOn then ActionCooling else ActionIdle) else heat
  }

  /** `icon`. */
  function Icon(plantHeat: bool): (s: string)
    ensures s == "mdi:radiator" <==> plantHeat
    ensures !plantHeat ==> s == "mdi:radiator-off"
  {
    if plantHeat then "mdi:radiator" else "mdi:radiator-off"
  }

  /** `unique_id`: the gateway, an underscore, the zone number. */
  function UniqueId(gateway: string, zone: int): (s: string)
    ensures |s| > |gateway| + 1 && s[..|gateway| + 1] == gateway + "_"
    ensures s[|gateway| + 1..] == Text.IntToString(zone)
  {
    gateway + "_" + Text.IntToString(zone)
  }

  /** Thermostats of different zones on one gateway have different unique ids. */
  lemma UniqueIdDistinguishesZones(gateway: string, z1: int, z2: int)
    ensures UniqueId(gateway, z1) == UniqueId(gateway, z2) ==> z1 == z2
  {
    if UniqueId(gateway, z1) == UniqueId(gateway, z2) {
      Text.IntToStringInjective(z1, z2);
    }
  }

  /** The one device command a thermostat sends; the temperature is forwarded as given,
      None included. */
  datatype Command = SetComfortTemp(temperature: Option<real>, zone: int)

  const AttrTemperature: string := "temperature"

  /** `async_set_temperature`: `temperature` is the keyword argument, None when the key is
      absent and Some(v) when it is passed, v being None for an explicit `None`. Without
      the key a ValueError is raised and no command is sent; with it, the value is sent
      unchecked as the comfort temperature of this thermostat's own zone. */
  function SetTemperature(zone: int, temperature: Option<Option<real>>): (r: Result<Command, string>)
    ensures r.Err? <==> temperature.None?
    ensures r.Err? ==> r.error == "Missing parameter " + AttrTemperature
    ensures r.Ok? ==> r.value.zone == zone && Some(r.value.temperature) == temperature
  {
    match temperature
    case None => Err("Missing parameter " + AttrTemperature)
    case Some(t) => Ok(SetComfortTemp(t, zone))
  }

  // ---------------------------------------------------------------- setup

  /** One climate description and whether its coordinator and device are present and
      offer the description's features. */
  datatype Candidate = Candidate(key: string, coordinator: string, usable: bool)

  datatype Thermostat = Thermostat(zone: int, coordinator: string, description: string)

  /** The thermostats of one usable description: one per zone number, in order. */
  function PerZone(c: Candidate, zones: seq<int>): (ts: seq<Thermostat>)
    ensures |ts| == |zones|
    ensures forall i :: 0 <= i < |ts| ==> ts[i] == Thermostat(zones[i], c.coordinator, c.key)
  {
    if zones == [] then [] else [Thermostat(zones[0], c.coordinator, c.key)] + PerZone(c, zones[1..])
  }

  /** The thermostats `async_setup_entry` creates, description by description. */
  function Planned(cs: seq<Candidate>, zones: seq<int>): seq<Thermostat> {
    if cs == [] then []
    else Planned(cs[..|cs| - 1], zones) + (if cs[|cs| - 1].usable then PerZone(cs[|cs| - 1], zones) else [])
  }

  function UsableCount(cs: seq<Candidate>): (n: nat)
    ensures n <= |cs|
  {
    if cs == [] then 0 else UsableCount(cs[..|cs| - 1]) + (if cs[|cs| - 1].usable then 1 else 0)
  }

  /** Exactly one thermostat per zone for each usable description. */
  lemma {:induction false} PlannedCount(cs: seq<Candidate>, zones: seq<int>)
    ensures |Planned(cs, zones)| == UsableCount(cs) * |zones|
  {
    if cs != [] {
      var n := |cs| - 1;
      PlannedCount(cs[..n], zones);
      var m := UsableCount(cs[..n]);
      assert (m + 1) * |zones| == m * |zones| + |zones|;
    }
  }

  /** Every thermostat created belongs to a usable description and to one of the
      device's zones. */
  lemma {:induction false} PlannedFromUsable(cs: seq<Candidate>, zones: seq<int>, t: Thermostat)
    requires t in Planned(cs, zones)
    ensures t.zone in zones
    ensures exists c :: c in cs && c.usable && c.key == t.description && c.coordinator == t.coordinator
  {
    var n := |cs| - 1;
    if t in Planned(cs[..n], zones) {
      PlannedFromUsable(cs[..n], zones, t);
      var c :| c in cs[..n] && c.usable && c.key == t.description && c.coordinator == t.coordinator;
      assert c in cs;
    } else {
      assert cs[n] in cs;
    }
  }

  /** Every zone of every usable description gets its thermostat. */
  lemma {:induction false} PlannedCovers(cs: seq<Candidate>, zones: seq<int>, i: nat, j: nat)
    requires i < |cs| && cs[i].usable && j < |zones|
    ensures Thermostat(zones[j], cs[i].coordinator, cs[i].key) in Planned(cs, zones)
  {
    var n := |cs| - 1;
    if i < n {
      assert cs[..n][i] == cs[i];
      PlannedCovers(cs[..n], zones, i, j);
    } else {
      assert PerZone(cs[n], zones)[j] == Thermostat(zones[j], cs[i].coordinator, cs[i].key);
    }
  }

  /** `async_setup_entry`: for each description whose coordinator, device and features
      are there, one thermostat per zone number; the list is then added. */
  method SetupEntry(cs: seq<Candidate>, zones: seq<int>) returns (climates: seq<Thermostat>)
    ensures climates == Planned(cs, zones)
  {
    climates := [];
    var i := 0;
    while i < |cs|
      invariant 0 <= i <= |cs|
      invariant climates == Planned(cs[..i], zones)
    {
      assert cs[..i + 1][..i] == cs[..i];
      if cs[i].usable {
        var c := cs[i];
        var row := [];
        var j := 0;
        while j < |zones|
          invariant 0 <= j <= |zones|
          invariant row == PerZone(c, zones)[..j]
        {
          assert PerZone(c, zones)[..j + 1] == row + [Thermostat(zones[j], c.coordinator, c.key)];
          row := row + [Thermostat(zones[j], c.coordinator, c.key)];
          j := j + 1;
        }
        assert row == PerZone(c, zones);
        climates := climates + row;
      }
      i := i + 1;
    }
    assert cs[..i] == cs;
  }
}
