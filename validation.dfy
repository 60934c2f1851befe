/** The value validators of the integration and their fall-back getters (validation.py). */
module Validation {
  import opened Wrappers
  import Text

  /** An argument as Python's `int()` or `float()` sees it: None, a value the conversion
      rejects (shown as its `str()`), or one it converts. How strings and other types are
      converted is not part of this model. */
  datatype Raw<T> = Null | Unconvertible(shown: string) | Converted(v: T)

  /** The `ValidationError`s the validators raise. */
  datatype ValidationError =
    | NameNotNonEmptyString
    | NameInvalidCharacters
    | NameTooLong
    | TemperatureNotNumber(shownTemperature: string)
    | TemperatureOutOfRange(minTemp: real, maxTemp: real, temperature: real)
    | ZoneNotNumber(shownZone: string)
    | ZoneOutOfRange(zone: int)
    | ScanIntervalNotNumber(shownInterval: string)
    | ScanIntervalOutOfRange(interval: int)

  /** `str()` of an argument the conversion did not accept. */
  function Shown<T>(x: Raw<T>): string
    requires !x.Converted?
  {
    if x.Null? then "None" else x.shown
  }

  /** The message of an error whose text does not depend on how a float is printed. */
  function Message(e: ValidationError): (m: Option<string>)
    ensures m.None? <==> e.TemperatureOutOfRange?
  {
    match e
    case NameNotNonEmptyString => Some("Device name must be a non-empty string")
    case NameInvalidCharacters => Some("Device name contains invalid characters")
    case NameTooLong => Some("Device name must be 50 characters or less")
    case ZoneNotNumber(x) => Some("Zone must be a number, got: " + x)
    case ZoneOutOfRange(z) => Some("Zone must be between 0 and 10, got: " + Text.IntToString(z))
    case ScanIntervalNotNumber(x) => Some("Scan interval must be a number, got: " + x)
    case ScanIntervalOutOfRange(n) =>
      Some("Scan interval must be between 30 and 3600 seconds, got: " + Text.IntToString(n))
    case TemperatureNotNumber(x) => Some("Temperature must be a number, got: " + x)
    case TemperatureOutOfRange(_, _, _) => None
  }

  const MaxDeviceNameLength: nat := 50
  const MinZone: int := 0
  const MaxZone: int := 10
  const MinScanInterval: int := 30
  const MaxScanInterval: int := 3600
  const DefaultMinTemp: real := -50.0
  const DefaultMaxTemp: real := 100.0

  const DefaultDeviceName: string := "Unknown Device"
  const DefaultTemperature: real := 20.0
  const DefaultZone: int := 0
  const DefaultScanInterval: int := 180

  /** One character of DEVICE_NAME_PATTERN's class: an ASCII letter or digit, whitespace,
      '-' or '_'. */
  predicate NameChar(c: char) {
    ('a' <= c <= 'z') || ('A' <= c <= 'Z') || ('0' <= c <= '9') || Text.IsSpace(c) || c == '-' || c == '_'
  }

  /** DEVICE_NAME_PATTERN: one or more characters of the class, anchored at both ends. */
  predicate MatchesDeviceNamePattern(s: string) {
    |s| >= 1 && forall i :: 0 <= i < |s| ==> NameChar(s[i])
  }

  /** `validate_device_name`. `None` stands for any argument that is not a string. The
      checks run in order: a non-empty string, the pattern, then the length before
      stripping; an accepted name is returned stripped. */
  function ValidateDeviceName(name: Option<string>): (r: Result<string, ValidationError>)
    ensures r.Ok? <==>
      name.Some? && name.value != "" && MatchesDeviceNamePattern(name.value) && |name.value| <= MaxDeviceNameLength
    ensures r.Ok? ==> r.value == Text.Strip(name.value)
    ensures r == Err(NameNotNonEmptyString) <==> name.None? || name.value == ""
    ensures r == Err(NameInvalidCharacters) <==>
      name.Some? && name.value != "" && !MatchesDeviceNamePattern(name.value)
    ensures r == Err(NameTooLong) <==>
      name.Some? && MatchesDeviceNamePattern(name.value) && |name.value| > MaxDeviceNameLength
  {
    if name.None? || name.value == "" then Err(NameNotNonEmptyString)
    else if !MatchesDeviceNamePattern(name.value) then Err(NameInvalidCharacters)
    else if |name.value| > MaxDeviceNameLength then Err(NameTooLong)
    else Ok(Text.Strip(name.value))
  }

  /** An accepted name is at most 50 characters of the pattern's class, has no
      whitespace at either end, and is accepted again unchanged when it is not empty. */
  lemma ValidatedNameIsStable(name: string)
    requires ValidateDeviceName(Some(name)).Ok?
    ensures var v := ValidateDeviceName(Some(name)).value;
      && |v| <= MaxDeviceNameLength
      && (forall i :: 0 <= i < |v| ==> NameChar(v[i]))
      && (v != "" ==> !Text.IsSpace(v[0]) && !Text.IsSpace(v[|v| - 1]))
      && (v != "" ==> ValidateDeviceName(Some(v)) == Ok(v))
  {
    var v := Text.Strip(name);
    var i := Text.SkipSpace(name, 0);
    assert forall k :: 0 <= k < |v| ==> v[k] == name[i + k];
    Text.StripIdempotent(name);
  }

  /** A name made only of whitespace passes every check and strips to the empty string. */
  lemma WhitespaceNameValidatesToEmpty(name: string)
    requires 1 <= |name| <= MaxDeviceNameLength
    requires forall i :: 0 <= i < |name| ==> Text.IsSpace(name[i])
    ensures ValidateDeviceName(Some(name)) == Ok("")
  {
    Text.StripAllSpace(name);
  }

  /** `validate_temperature` with bounds `minTemp` and `maxTemp` (inclusive). */
  function ValidateTemperature(temp: Raw<real>, minTemp: real, maxTemp: real): (r: Result<real, ValidationError>)
    ensures r.Ok? <==> temp.Converted? && minTemp <= temp.v <= maxTemp
    ensures r.Ok? ==> r.value == temp.v
    ensures !temp.Converted? ==> r == Err(TemperatureNotNumber(Shown(temp)))
    ensures temp.Converted? && !r.Ok? ==> r == Err(TemperatureOutOfRange(minTemp, maxTemp, temp.v))
  {
    match temp
    case Converted(t) =>
      if minTemp <= t <= maxTemp then Ok(t) else Err(TemperatureOutOfRange(minTemp, maxTemp, t))
    case _ => Err(TemperatureNotNumber(Shown(temp)))
  }

  /** `validate_zone_number`: zones 0 to 10. */
  function ValidateZoneNumber(zone: Raw<int>): (r: Result<int, ValidationError>)
    ensures r.Ok? <==> zone.Converted? && MinZone <= zone.v <= MaxZone
    ensures r.Ok? ==> r.value == zone.v
    ensures !zone.Converted? ==> r == Err(ZoneNotNumber(Shown(zone)))
    ensures zone.Converted? && !r.Ok? ==> r == Err(ZoneOutOfRange(zone.v))
  {
    match zone
    case Converted(z) => if MinZone <= z <= MaxZone then Ok(z) else Err(ZoneOutOfRange(z))
    case _ => Err(ZoneNotNumber(Shown(zone)))
  }

  /** `validate_scan_interval`: 30 seconds to one hour. */
  function ValidateScanInterval(interval: Raw<int>): (r: Result<int, ValidationError>)
    ensures r.Ok? <==> interval.Converted? && MinScanInterval <= interval.v <= MaxScanInterval
    ensures r.Ok? ==> r.value == interval.v
    ensures !interval.Converted? ==> r == Err(ScanIntervalNotNumber(Shown(interval)))
    ensures interval.Converted? && !r.Ok? ==> r == Err(ScanIntervalOutOfRange(interval.v))
  {
    match interval
    case Converted(n) =>
      if MinScanInterval <= n <= MaxScanInterval then Ok(n) else Err(ScanIntervalOutOfRange(n))
    case _ => Err(ScanIntervalNotNumber(Shown(interval)))
  }

  /** `safe_get_device_name`: the "name" entry of the device data is `entry` (`None` when
      the key is missing, `Some(None)` when its value is not a string). A missing key
      falls back to `default`, which is then validated like any name; an empty or
      non-string name, or one that fails validation, gives `default`. */
  function SafeGetDeviceName(entry: Option<Option<string>>, default: string): (r: string)
    ensures var name := if entry.None? then Some(default) else entry.value;
      r == (if name.Some? && name.value != "" && ValidateDeviceName(name).Ok?
            then ValidateDeviceName(name).value else default)
  {
    var name := if entry.None? then Some(default) else entry.value;
    if name.None? || name.value == "" then default
    else
      match ValidateDeviceName(name)
      case Ok(v) => v
      case Err(_) => default
  }

  /** With the default fall-back, the name obtained is either "Unknown Device" or an
      accepted name, stripped. */
  lemma SafeDeviceNameIsUsable(entry: Option<Option<string>>)
    ensures var r := SafeGetDeviceName(entry, DefaultDeviceName);
      r == DefaultDeviceName
      || (entry.Some? && entry.value.Some? && ValidateDeviceName(entry.value) == Ok(r))
  {
    assert MatchesDeviceNamePattern(DefaultDeviceName);
    Text.StripTrimmed(DefaultDeviceName);
  }

  /** `safe_get_temperature`: `default` for None or for a value that fails validation. */
  function SafeGetTemperature(value: Raw<real>, default: real, minTemp: real, maxTemp: real): (r: real)
    ensures value.Null? ==> r == default
    ensures !value.Null? ==>
      r == (if ValidateTemperature(value, minTemp, maxTemp).Ok? then value.v else default)
  {
    if value.Null? then default
    else
      match ValidateTemperature(value, minTemp, maxTemp)
      case Ok(t) => t
      case Err(_) => default
  }

  /** `safe_get_zone_number`: `default` for None or for a value that fails validation. */
  function SafeGetZoneNumber(value: Raw<int>, default: int): (r: int)
    ensures value.Null? ==> r == default
    ensures !value.Null? ==> r == (if ValidateZoneNumber(value).Ok? then value.v else default)
  {
    if value.Null? then default
    else
      match ValidateZoneNumber(value)
      case Ok(z) => z
      case Err(_) => default
  }

  /** `safe_get_scan_interval`: `default` for None or for a value that fails validation. */
  function SafeGetScanInterval(value: Raw<int>, default: int): (r: int)
    ensures value.Null? ==> r == default
    ensures !value.Null? ==> r == (if ValidateScanInterval(value).Ok? then value.v else default)
  {
    if value.Null? then default
    else
      match ValidateScanInterval(value)
      case Ok(n) => n
      case Err(_) => default
  }

  /** With their default fall-backs, the safe getters always produce a value their
      validator accepts: the defaults 20.0, 0 and 180 lie inside their ranges. */
  lemma SafeGettersStayInRange(t: Raw<real>, z: Raw<int>, n: Raw<int>)
    ensures var temp := SafeGetTemperature(t, DefaultTemperature, DefaultMinTemp, DefaultMaxTemp);
      ValidateTemperature(Converted(temp), DefaultMinTemp, DefaultMaxTemp) == Ok(temp)
    ensures var zone := SafeGetZoneNumber(z, DefaultZone);
      ValidateZoneNumber(Converted(zone)) == Ok(zone)
    ensures var interval := SafeGetScanInterval(n, DefaultScanInterval);
      ValidateScanInterval(Converted(interval)) == Ok(interval)
  {
  }

  /** `ConfigValidator`: its error list is only ever cleared. */
  class ConfigValidator {
    var errors: seq<string>

    ghost predicate Valid()
      reads this
    {
      errors == []
    }

    constructor ()
      ensures Valid()
    {
      errors := [];
    }

    /** The clearing `validate_config` and `validate_service_data` do on entry. */
    method ClearErrors()
      modifies this`errors
      ensures Valid()
    {
      errors := [];
    }

    /** `errors`: a copy of the list, which is always empty. */
    function Errors(): (e: seq<string>)
      reads this
      requires Valid()
      ensures e == []
    {
      errors
    }

    /** `has_errors`: never true. */
    function HasErrors(): (b: bool)
      reads this
      requires Valid()
      ensures !b
    {
      |errors| > 0
    }
  }
}
