/** Setting up one config entry: configuration check, connection with retries, device
    initialisation, the coordinator plan, and how failures are reported to Home
    Assistant (__init__.py). */
module Setup {
  import opened Wrappers
  import opened ApiManager
  import opened OptimizedCoordinator

  /** An exception escaping a setup step: ConfigEntryNotReady, ConfigEntryAuthFailed, or
      any other exception (shown by its text). */
  datatype Failure = EntryNotReady(message: string) | EntryAuthFailed(message: string) | OtherError(text: string)

  /** What `async_setup_entry` does in the end: returns True, re-raises
      ConfigEntryAuthFailed, or raises a message-less ConfigEntryNotReady chained to the
      exception that stopped setup. */
  datatype EntryOutcome = SetUp | AuthFailedReRaised(message: string) | NotReadyFrom(cause: Failure)

  /** The `except` clauses of `async_setup_entry`. */
  function ReportFailure(f: Failure): (r: EntryOutcome)
    ensures !r.SetUp?
    ensures r.AuthFailedReRaised? <==> f.EntryAuthFailed?
    ensures f.EntryAuthFailed? ==> r.message == f.message
    ensures !f.EntryAuthFailed? ==> r == NotReadyFrom(f)
  {
    if f.EntryAuthFailed? then AuthFailedReRaised(f.message) else NotReadyFrom(f)
  }

  // ---------------------------------------------------------------- configuration

  /** The entry's device data: its gateway entry (None when absent) and how many other
      entries it holds. */
  datatype DeviceData = DeviceData(gateway: Option<string>, otherKeys: nat)

  /** The kind of mapping the entry's data is: a plain `dict`, or another mapping, such as
      the read-only mapping proxy Home Assistant gives, shown by the `str()` of its type. */
  datatype Container = PlainDict | OtherMapping(typeText: string)

  /** What setup reads of a config entry's data: the kind of mapping it is, how the
      configuration schema judges the four configured keys (username, password, API URL,
      user agent), with the schema's error text when it rejects them, and the data under
      the "device" key, None when there is no such key. */
  datatype EntryData = EntryData(container: Container, credentials: Result<(), string>, device: Option<DeviceData>)

  /** `entry.data.get("device")` is truthy: the key is there and its dictionary is not
      empty. */
  predicate HasDevice(e: EntryData) {
    e.device.Some? && (e.device.value.gateway.Some? || e.device.value.otherKeys > 0)
  }

  /** A validated configuration: its device data, None when it has no "device" key. */
  datatype Config = Config(device: Option<DeviceData>)

  const ValidationFailedPrefix: string := "Configuration validation failed: "
  const ExtraKeysMessage: string := "extra keys not allowed @ data['device']"
  const NotADictPrefix: string := "Configuration must be a dictionary, got: "

  /** `validate_config_entry` as written. Data that is not a plain `dict` is rejected
      first, with a ValidationError not wrapped in the schema's prefix. The configuration
      schema lists only the four configured keys and does not allow extra ones, so it
      rejects the "device" key, and what it returns holds the four keys alone. The
      schema's error is wrapped as a ValidationError; when the credentials fail as well,
      their text is the one shown. */
  function ValidateEntryAsWritten(e: EntryData): (r: Result<Config, string>)
    ensures r.Ok? <==> e.container.PlainDict? && e.credentials.Ok? && e.device.None?
    ensures r.Ok? ==> r.value.device.None?
    ensures e.container.OtherMapping? ==> r == Err(NotADictPrefix + e.container.typeText)
    ensures e.container.PlainDict? && e.credentials.Ok? && e.device.Some? ==>
      r == Err(ValidationFailedPrefix + ExtraKeysMessage)
  {
    if e.container.OtherMapping? then Err(NotADictPrefix + e.container.typeText)
    else if e.credentials.Err? then Err(ValidationFailedPrefix + e.credentials.error)
    else if e.device.Some? then Err(ValidationFailedPrefix + ExtraKeysMessage)
    else Ok(Config(None))
  }

  /** `validate_config_entry` as evidently intended: any mapping is taken as a
      dictionary, and the schema checks the four configured keys and lets the device data
      through unchanged. */
  function ValidateEntry(e: EntryData): (r: Result<Config, string>)
    ensures r.Ok? <==> e.credentials.Ok?
    ensures r.Ok? ==> r.value.device == e.device
    ensures r.Err? ==> r.error == ValidationFailedPrefix + e.credentials.error
  {
    if e.credentials.Err? then Err(ValidationFailedPrefix + e.credentials.error)
    else Ok(Config(e.device))
  }

  /** `_validate_and_prepare_config`: `validated` is what the validator gives for the
      entry's data (the ValidationError's text when it raises); the device check reads the
      entry's data itself, not the validated configuration. */
  function ValidateAndPrepareConfig(validated: Result<Config, string>, e: EntryData): (r: Result<Config, Failure>)
    ensures r.Ok? <==> validated.Ok? && HasDevice(e)
    ensures r.Ok? ==> r.value == validated.value
    ensures validated.Err? ==> r == Err(EntryNotReady(ValidationFailedPrefix + validated.error))
    ensures validated.Ok? && !HasDevice(e) ==> r == Err(EntryNotReady("Missing device configuration"))
  {
    if validated.Err? then Err(EntryNotReady(ValidationFailedPrefix + validated.error))
    else if !HasDevice(e) then Err(EntryNotReady("Missing device configuration"))
    else Ok(validated.value)
  }

  /** As written, no entry gets past the configuration check: data that is not a plain
      `dict` fails validation at once, an entry without device data fails the device
      check, and one with it fails validation. Setup therefore always ends in
      ConfigEntryNotReady before any connection is tried. */
  lemma ConfigNeverPreparedAsWritten(e: EntryData)
    ensures ValidateAndPrepareConfig(ValidateEntryAsWritten(e), e).Err?
    ensures ValidateAndPrepareConfig(ValidateEntryAsWritten(e), e).error.EntryNotReady?
    ensures e.container.OtherMapping? ==>
      ValidateAndPrepareConfig(ValidateEntryAsWritten(e), e)
        == Err(EntryNotReady(ValidationFailedPrefix + (NotADictPrefix + e.container.typeText)))
    ensures e.container.PlainDict? && e.credentials.Ok? && HasDevice(e) ==>
      ValidateAndPrepareConfig(ValidateEntryAsWritten(e), e)
        == Err(EntryNotReady(ValidationFailedPrefix + (ValidationFailedPrefix + ExtraKeysMessage)))
  {
  }

  /** With the intended validator, an entry passes the configuration check exactly when
      its credentials are accepted and it has device data, and the configuration then
      carries that device data. */
  lemma ConfigPrepared(e: EntryData)
    ensures ValidateAndPrepareConfig(ValidateEntry(e), e).Ok? <==> e.credentials.Ok? && HasDevice(e)
    ensures ValidateAndPrepareConfig(ValidateEntry(e), e).Ok? ==>
      ValidateAndPrepareConfig(ValidateEntry(e), e).value.device == e.device
  {
  }

  // ---------------------------------------------------------------- connection

  const MaxConnectAttempts: nat := 3
  const ConnectFailedMessage: string := "Failed to connect to Ariston API"

  /** What one `async_connect` call does: a truthy response, a falsy one, or a raise. */
  datatype ConnectResponse = Truthy | Falsy | ConnectRaises(error: string)

  /** Whether one of the three attempts gets a truthy response. */
  predicate Connects(connect: nat -> ConnectResponse) {
    exists a: nat | a < MaxConnectAttempts :: connect(a).Truthy?
  }

  /** How the connection step ends, attempt a doing connect(a): connected when one of
      the three attempts answers truthily; otherwise the third attempt's exception when
      it raised, and ConfigEntryAuthFailed when it did not. A raise on the first or
      second attempt only moves on to the next one. */
  function ConnectionResult(connect: nat -> ConnectResponse): (r: Result<(), Failure>)
    ensures r.Ok? <==> Connects(connect)
    ensures r == Err(EntryAuthFailed(ConnectFailedMessage)) <==>
      !Connects(connect) && !connect(MaxConnectAttempts - 1).ConnectRaises?
  {
    if Connects(connect) then Ok(())
    else if connect(MaxConnectAttempts - 1).ConnectRaises? then Err(OtherError(connect(MaxConnectAttempts - 1).error))
    else Err(EntryAuthFailed(ConnectFailedMessage))
  }

  /** `_establish_connection`: at most three attempts, stopping at the first truthy
      response. */
  method EstablishConnection(connect: nat -> ConnectResponse) returns (r: Result<(), Failure>, attempts: nat)
    ensures r == ConnectionResult(connect)
    ensures 1 <= attempts <= MaxConnectAttempts
    ensures forall a :: 0 <= a < attempts - 1 ==> !connect(a).Truthy?
    ensures r.Ok? <==> connect(attempts - 1).Truthy?
    ensures !r.Ok? ==> attempts == MaxConnectAttempts
  {
    attempts := 0;
    var attempt: nat := 0;
    while attempt < MaxConnectAttempts
      invariant attempt <= MaxConnectAttempts && attempts == attempt
      invariant forall a :: 0 <= a < attempt ==> !connect(a).Truthy?
      invariant attempt == MaxConnectAttempts ==> !connect(MaxConnectAttempts - 1).ConnectRaises?
    {
      attempts := attempt + 1;
      match connect(attempt) {
        case Truthy =>
          assert connect(attempt).Truthy?;
          return Ok(()), attempts;
        case Falsy =>
        case ConnectRaises(e) =>
          if attempt == MaxConnectAttempts - 1 {
            assert forall a: nat :: a < MaxConnectAttempts ==> !connect(a).Truthy?;
            return Err(OtherError(e)), attempts;
          }
      }
      attempt := attempt + 1;
    }
    r := Err(EntryAuthFailed(ConnectFailedMessage));
  }

  /** A raise on the first two attempts is not fatal: three raises end in the third
      one's exception, and a raise followed by a truthy answer connects. */
  lemma ConnectRetriesAfterRaise(connect: nat -> ConnectResponse)
    ensures (forall a: nat :: a < MaxConnectAttempts ==> connect(a).ConnectRaises?) ==>
      ConnectionResult(connect) == Err(OtherError(connect(2).error))
    ensures connect(0).ConnectRaises? && connect(1).Truthy? ==> ConnectionResult(connect) == Ok(())
  {
    if connect(0).ConnectRaises? && connect(1).Truthy? {
      assert connect(1).Truthy?;
    }
  }

  // ---------------------------------------------------------------- device

  /** What setup uses of the device `async_hello` returns. */
  datatype Device = Device(name: string, hasMetering: bool)

  /** What one `async_hello` call does: return a device, return None, or raise. */
  datatype HelloResponse = HelloDevice(device: Device) | HelloNone | HelloRaises(error: string)

  /** `_initialize_device`: `gateway` is the device data's gateway entry and `hello(gw)`
      what the client's `async_hello` does for it; its exception leaves the step
      unchanged. The features fetch that follows is not part of the result: a failure
      there is only logged. */
  function InitializeDevice(gateway: Option<string>, hello: string -> HelloResponse): (r: Result<Device, Failure>)
    ensures r.Ok? <==> gateway.Some? && gateway.value != "" && hello(gateway.value).HelloDevice?
    ensures r.Ok? ==> r.value == hello(gateway.value).device
    ensures gateway.None? || gateway.value == "" ==> r == Err(EntryNotReady("Missing device gateway information"))
    ensures gateway.Some? && gateway.value != "" && hello(gateway.value).HelloNone? ==>
      r == Err(EntryNotReady("Failed to initialize device"))
    ensures gateway.Some? && gateway.value != "" && hello(gateway.value).HelloRaises? ==>
      r == Err(OtherError(hello(gateway.value).error))
  {
    if gateway.None? || gateway.value == "" then Err(EntryNotReady("Missing device gateway information"))
    else
      match hello(gateway.value)
      case HelloNone => Err(EntryNotReady("Failed to initialize device"))
      case HelloRaises(e) => Err(OtherError(e))
      case HelloDevice(d) => Ok(d)
  }

  // ---------------------------------------------------------------- coordinators

  /** The keys the coordinators are stored under. */
  datatype CoordinatorNames = CoordinatorNames(main: string, busErrors: string, energy: string)

  /** The entry's polling options, defaults already applied: seconds, seconds, minutes. */
  datatype Intervals = Intervals(scanSeconds: int, busErrorsSeconds: int, energyMinutes: int)

  /** `_setup_coordinators`: a manager with the main coordinator (state and features
      batched), the bus-errors coordinator, and, only for a device with metering, the
      energy coordinator polled every `energyMinutes` minutes; the manager is then
      started. */
  method SetupCoordinators(device: Device, names: CoordinatorNames, intervals: Intervals)
    returns (m: SmartCoordinatorManager, main: BatchedDeviceDataUpdateCoordinator,
             bus: BatchedDeviceDataUpdateCoordinator, energy: Option<BatchedDeviceDataUpdateCoordinator>)
    ensures fresh(m) && fresh(m.apiManager) && m.Valid() && m.isRunning
    ensures m.deviceName == device.name
    ensures m.apiManager.cache == map[] && m.apiManager.callStats == ZeroStats()
    ensures main.callTypes == [StateUpdate, Features] && main.coordinatorName == names.main
    ensures main.updateIntervalMs == intervals.scanSeconds * 1000
    ensures bus.callTypes == [BusErrors] && bus.coordinatorName == names.busErrors
    ensures bus.updateIntervalMs == intervals.busErrorsSeconds * 1000
    ensures energy.Some? <==> device.hasMetering
    ensures energy.Some? ==>
      && energy.value.callTypes == [EnergyData] && energy.value.coordinatorName == names.energy
      && energy.value.updateIntervalMs == intervals.energyMinutes * 60 * 1000
    ensures m.coordinators ==
      if energy.Some? then map[names.main := main][names.busErrors := bus][names.energy := energy.value]
      else map[names.main := main][names.busErrors := bus]
    ensures m.tasks == m.coordinators
  {
    m := new SmartCoordinatorManager(device.name);
    main := m.AddCoordinator(names.main, intervals.scanSeconds, [StateUpdate, Features]);
    bus := m.AddCoordinator(names.busErrors, intervals.busErrorsSeconds, [BusErrors]);
    energy := None;
    if device.hasMetering {
      var e := m.AddCoordinator(names.energy, intervals.energyMinutes * 60, [EnergyData]);
      energy := Some(e);
    }
    m.Start();
  }

  // ---------------------------------------------------------------- entry

  /** The gateway entry of a configuration's device data; None as well for a
      configuration without device data, which the configuration check has ruled out by
      the time it is read. */
  function Gateway(c: Config): (g: Option<string>)
    ensures c.device.Some? ==> g == c.device.value.gateway
  {
    if c.device.Some? then c.device.value.gateway else None
  }

  /** The exception that stops setup of entry `e`, if any, steps taken in order. `later`
      is the text of an exception raised after the coordinators are set up (initial
      refresh, platform forwarding, listener or services), None when they all pass. */
  function SetupFailure(e: EntryData, connect: nat -> ConnectResponse, hello: string -> HelloResponse,
                        later: Option<string>): Option<Failure>
  {
    var config := ValidateAndPrepareConfig(ValidateEntry(e), e);
    var connection := ConnectionResult(connect);
    if config.Err? then Some(config.error)
    else if connection.Err? then Some(connection.error)
    else
      var device := InitializeDevice(Gateway(config.value), hello);
      if device.Err? then Some(device.error)
      else if later.Some? then Some(OtherError(later.value))
      else None
  }

  /** Only the connection step can end setup with ConfigEntryAuthFailed, and it does so
      exactly when the configuration passes, no attempt answered truthily and the last
      one did not raise. Every other stop is reported as ConfigEntryNotReady. */
  lemma {:induction false} AuthFailureOnlyFromConnection(e: EntryData, connect: nat -> ConnectResponse,
      hello: string -> HelloResponse, later: Option<string>)
    ensures var f := SetupFailure(e, connect, hello, later);
      && (f.Some? && f.value.EntryAuthFailed? <==>
            e.credentials.Ok? && HasDevice(e) && !Connects(connect) && !connect(MaxConnectAttempts - 1).ConnectRaises?)
      && (f.Some? && !f.value.EntryAuthFailed? ==> ReportFailure(f.value) == NotReadyFrom(f.value))
  {
    var connection := ConnectionResult(connect);
    if connection.Err? && connection.error.EntryAuthFailed? {
      assert connection == Err(EntryAuthFailed(ConnectFailedMessage));
    }
  }

  /** An entry with accepted credentials and a gateway, whose connection and device
      initialisation succeed and whose later steps pass, is set up; the device setup
      uses is the one the client returned for the entry's gateway. */
  lemma SetupSucceeds(e: EntryData, connect: nat -> ConnectResponse, hello: string -> HelloResponse)
    requires e.credentials.Ok? && e.device.Some? && e.device.value.gateway.Some?
    requires e.device.value.gateway.value != "" && hello(e.device.value.gateway.value).HelloDevice?
    requires Connects(connect)
    ensures SetupFailure(e, connect, hello, None).None?
  {
  }

  /** `async_setup_entry`: the steps in order, the first exception stopping setup and
      being reported as the `except` clauses say. */
  method AsyncSetupEntry(e: EntryData, connect: nat -> ConnectResponse, hello: string -> HelloResponse,
                         names: CoordinatorNames, intervals: Intervals, later: Option<string>)
    returns (r: EntryOutcome, manager: Option<SmartCoordinatorManager>)
    ensures var f := SetupFailure(e, connect, hello, later);
      && (r.SetUp? <==> f.None?)
      && (f.Some? ==> r == ReportFailure(f.value))
    ensures manager.Some? <==>
      e.credentials.Ok? && HasDevice(e) && Connects(connect) && InitializeDevice(e.device.value.gateway, hello).Ok?
    ensures manager.Some? ==> fresh(manager.value) && manager.value.Valid() && manager.value.isRunning
  {
    manager := None;
    var config := ValidateAndPrepareConfig(ValidateEntry(e), e);
    if config.Err? {
      return ReportFailure(config.error), manager;
    }
    var connection, _ := EstablishConnection(connect);
    if connection.Err? {
      return ReportFailure(connection.error), manager;
    }
    var device := InitializeDevice(Gateway(config.value), hello);
    if device.Err? {
      return ReportFailure(device.error), manager;
    }
    var m, _, _, _ := SetupCoordinators(device.value, names, intervals);
    manager := Some(m);
    if later.Some? {
      return ReportFailure(OtherError(later.value)), manager;
    }
    r := SetUp;
  }
}
