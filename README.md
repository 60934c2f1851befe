# Ariston integration core, modelled in Dafny

This project models the core of a Home Assistant integration for Ariston heating
systems. The core has these parts:

- `APICallManager`. It is the per-device gate every API call goes through. It keeps a
  result cache with a time to live per call kind, and a three-state circuit breaker
  (CLOSED, OPEN, HALF_OPEN). It runs a bounded retry loop with exponential backoff and
  jitter, and keeps per-kind success, failure and cache-hit counters.
- The coordinators that poll the device:
  - the single-kind coordinator next to the manager;
  - the batching coordinator and the `SmartCoordinatorManager` that owns them;
  - the older retrying `DeviceDataUpdateCoordinator`.
- The value validators and their fall-back getters.
- The entities: the thermostat's HVAC decision tables, the temperature sensor's reading
  filter, the properties every entity shares, and the sensors and thermostats setup
  creates.
- The logger's keyword context.
- Setting up a config entry. The steps are the configuration check, the connection with
  three attempts, device initialisation and the coordinator plan. Failures are reported
  as `ConfigEntryAuthFailed` or `ConfigEntryNotReady`.

## How the model is built

- Clock readings are parameters, in integer milliseconds. One reading `now` stands for every `datetime.now()` of a `call_with_retry` before its retry loop (breaker gate, cache lookup, batching check, rate limit), and the time after the rate-limit sleep is exactly `now` plus the sleep.
- A device method is a function from the attempt number to what that attempt does.
- Sleeps are returned as recorded delays.
- Backoff jitter is an arbitrary choice inside its range.
- Objects whose fields the code updates are Dafny classes. Their methods carry
  `modifies` clauses, and each method is proved against a pure specification:
  - `LookupCache` for the cache;
  - `BreakerGate`, `RecordFailure` and `ResetBreaker` for the breaker;
  - `Bump` for the statistics;
  - `CallContract` for a whole `call_with_retry`, over the manager's state before and after;
  - `RetryContract` for the retry loop;
  - `Recorded` and `SuccessCount` for the batch results loop;
  - `UpdateAll` for the logger context;
  - `Planned` and `PlannedSensors` for entity setup;
  - `ConnectionResult` for the connection loop.

Properties proved beside the operations include:

- The breaker invariant, and the breaker opening after exactly five failures.
- A value stored in the cache is returned until its time to live runs out.
- `total_calls` grows by exactly one per call that passes the breaker, except on the
  batching branch.
- Counted over sequences of changes, the temperature change counter is a count
  modulo 11.
- Backoff delays double with each attempt.
- Unique ids differ between zones.

Points where the code's behaviour is easy to misread:

- The manager has no HTTP 429 handling and no cooldown.
- The batching branch of `call_with_retry` is modelled as written. It is taken only for
  a kind with a recorded call time, and only that branch records one. So a manager that
  starts with no call times never batches.
- When every batched call fails, `_async_batched_update` raises inside its own `try`
  block. Its own handler catches the exception and counts the failure a second time.
  The model keeps that increment of two.

## Model

| member | source | states |
|---|---|---|
| ApiManager.TtlMs | custom_components/ariston/api_manager.py:65-69 | The time to live of each kind: 30 s, 5 min, 10 min, 1 h, and 0 for a user action, which is never served from the cache |
| ApiManager.MaxRetries | custom_components/ariston/api_manager.py:233-242 | The retries after the first attempt per kind: 3, 2, 2, 1 and 5 for a user action |
| ApiManager.BaseDelay | custom_components/ariston/api_manager.py:244-253 | The first backoff delay per kind: 1, 2, 2, 3 and 0.5 s |
| ApiManager.RetryContract | custom_components/ariston/api_manager.py:180-231 | The retry loop's promise: at most MaxRetries+1 attempts, every earlier one raised, the result is the last attempt's, a final raise means every attempt was used, and one jittered base·2^a delay between attempts |
| ApiManager.ValueOf | custom_components/ariston/api_manager.py:364-374 | The value a successful call result carries: the cached payload, the returned value, or the batched loop's value |
| ApiManager.LookupCache | custom_components/ariston/api_manager.py:115-133 | No other kind's entry is removed or changed. Only the looked-up entry can go, and a lookup that does not expire it leaves the cache unchanged |
| ApiManager.LookupHitIff | custom_components/ariston/api_manager.py:115-133 | A lookup hits exactly when the entry exists, is within its TTL and holds a value, and then returns the stored data |
| ApiManager.ExpiredEntryRemoved | custom_components/ariston/api_manager.py:123-129 | An expired entry is a miss and is deleted, and every other entry stays |
| ApiManager.CacheRoundTrip | custom_components/ariston/api_manager.py:115-141 | A value cached at t is returned by any lookup from t to t + TTL |
| ApiManager.BreakerGate | custom_components/ariston/api_manager.py:255-270 | The gate specification: CLOSED and HALF_OPEN admit; OPEN admits and moves to HALF_OPEN only once more than the recovery timeout has passed since the last failure |
| ApiManager.RecordFailure | custom_components/ariston/api_manager.py:272-283 | A failure adds one to the count, records the time, and opens the breaker at five |
| ApiManager.ResetBreaker | custom_components/ariston/api_manager.py:285-290 | A reset closes the breaker and zeroes the count, keeping the last failure time |
| ApiManager.BreakerInvPreserved | custom_components/ariston/api_manager.py:255-290 | Gate, failure and reset preserve the invariant: CLOSED iff fewer than five failures, and not CLOSED implies a failure time |
| ApiManager.GateRefusesOnlyWhenOpen | custom_components/ariston/api_manager.py:255-270 | Only OPEN refuses, and a refusal leaves the breaker unchanged. HALF_OPEN admits. OPEN admits iff more than the recovery timeout has passed |
| ApiManager.HalfOpenFailureReopens | custom_components/ariston/api_manager.py:262-283 | Leaving OPEN does not reset the count, so the first failure in HALF_OPEN reopens the breaker |
| ApiManager.ThresholdOpensBreaker | custom_components/ariston/api_manager.py:272-283 | From CLOSED, n failures add n to the count, and the breaker is OPEN iff the count reaches five |
| ApiManager.StaysOpen | custom_components/ariston/api_manager.py:272-283 | Further failures keep an OPEN breaker OPEN and keep counting |
| ApiManager.Bump | custom_components/ariston/api_manager.py:86-113 | Counting a call moves exactly the named counter of its kind by one, leaves the kind's other two counters and every other kind alone, and moves total_calls by exactly one |
| ApiManager.TotalCallsUpdate | custom_components/ariston/api_manager.py:303-318 | Replacing one kind's counters moves total_calls by the difference of their totals |
| ApiManager.ZeroStats | custom_components/ariston/api_manager.py:61-69 | The initial statistics hold every kind, with total_calls 0 |
| ApiManager.CallContractCounts | custom_components/ariston/api_manager.py:71-113 | After any call, total_calls has grown by one unless the call was refused or batched. Only a batched call records a call time, and only for a kind that had one, so with no call times none is batched |
| ApiManager.BatchedCallSpacing | custom_components/ariston/api_manager.py:154-178 | A batched call records, for its kind alone, the clock after its sleep: two seconds after the previous call time, or the clock itself when that is already past |
| ApiManager.CallContractRetry | custom_components/ariston/api_manager.py:71-113 | A call that was made or batched obeys the retry contract with its outcome. A refusal or a cache hit invokes nothing |
| ApiManager.APICallManager.constructor | custom_components/ariston/api_manager.py:39-69 | Starts with an empty cache, no call times, zeroed statistics, and the breaker CLOSED with no failures |
| ApiManager.APICallManager.IsCircuitBreakerClosed | custom_components/ariston/api_manager.py:255-270 | The answer and the new breaker state are those of the gate specification |
| ApiManager.APICallManager.HandleCallFailure | custom_components/ariston/api_manager.py:272-283 | The new breaker is `RecordFailure` of the old one, and the invariant is kept |
| ApiManager.APICallManager.ResetCircuitBreaker | custom_components/ariston/api_manager.py:285-290 | The new breaker is `ResetBreaker` of the old one |
| ApiManager.APICallManager.GetCachedResult | custom_components/ariston/api_manager.py:115-133 | The result and the new cache are those of `LookupCache` |
| ApiManager.APICallManager.CacheResult | custom_components/ariston/api_manager.py:135-141 | Stores the value with its timestamp under its kind and nothing else |
| ApiManager.APICallManager.ShouldBatchCall | custom_components/ariston/api_manager.py:143-152 | Batches iff the kind is not a user action and its call time was recorded less than 5 s ago. Nothing is batched when no call time is recorded |
| ApiManager.RateLimitSleepMs | custom_components/ariston/api_manager.py:168-178 | No sleep without a call time or when it is 2 s or more back. Otherwise the sleep ends exactly 2 s after that call time |
| ApiManager.APICallManager.RateLimitCall | custom_components/ariston/api_manager.py:168-178 | Sleeps as `RateLimitSleepMs` says and records the time after the sleep for the kind alone |
| ApiManager.APICallManager.ExecuteCallWithRetry | custom_components/ariston/api_manager.py:180-231 | At most MaxRetries+1 attempts. The earlier ones all raised, the result is the last attempt's, a final raise means every attempt was used, and each gap has a jittered base·2^a delay |
| ApiManager.APICallManager.MakeCall | custom_components/ariston/api_manager.py:97-113 | Obeys the retry contract. Success caches the value (not for user actions), counts it and resets the breaker. Failure counts it and records one breaker failure |
| ApiManager.APICallManager.UncachedCall | custom_components/ariston/api_manager.py:93-113 | Batches iff `_should_batch_call` says so. A batched call returns its rate-limit sleep, records the clock after it as the kind's call time, obeys the retry contract and changes no cache, statistics or breaker. Otherwise the success and failure effects of `MakeCall` |
| ApiManager.APICallManager.ConsultCache | custom_components/ariston/api_manager.py:86-87 | A forced refresh or a user action skips the cache: no hit, cache untouched. Otherwise the hit and the new cache are those of `LookupCache` |
| ApiManager.APICallManager.AdmittedCall | custom_components/ariston/api_manager.py:85-113 | `AdmittedContract` from the old to the new state: a cache hit iff not forced, not a user action, and the lookup hits; a hit moves only the cached counter; otherwise the batching (sleep and recorded call time), success and failure effects of `AfterMiss` |
| ApiManager.APICallManager.CallWithRetry | custom_components/ariston/api_manager.py:71-113 | `CallContract` from the old to the new state: refused iff the gate refuses, and then nothing changes; otherwise the admitted call's cache-hit, batching (sleep and recorded call time), success and failure effects, starting from the breaker the gate left |
| ApiManager.APICallManager.ClearCache | custom_components/ariston/api_manager.py:292-301 | Drops one kind's entry, or every entry |
| ApiManager.APICallManager.ForceRefreshAll | custom_components/ariston/api_manager.py:320-323 | Empties the cache |
| ApiManager.APICallManager.GetCallStats | custom_components/ariston/api_manager.py:303-318 | Reports total_calls as the sum of all counters, the cache size, the breaker state, the failure count and the per-kind counters as the call breakdown |
| ApiManager.OptimizedDeviceDataUpdateCoordinator.constructor | custom_components/ariston/api_manager.py:329-350 | Interval in ms, no failures, no success, not updating |
| ApiManager.OptimizedDeviceDataUpdateCoordinator.AsyncUpdate | custom_components/ariston/api_manager.py:351-381 | Skips when already updating. Otherwise the manager call obeys `CallContract`. The update succeeds iff that call gave a value, and then returns that value. A failure raises "Failed to update {name}: " with the breaker message, "API call failed: " and the cause, or the batched exception's text |
| ApiManager.OptimizedDeviceDataUpdateCoordinator.Conclude | custom_components/ariston/api_manager.py:364-381 | A value resets the failure count, records the success time and is returned as the data. An exception adds one failure and becomes the "Failed to update {name}: " message for its cause |
| ApiManager.OptimizedDeviceDataUpdateCoordinator.IsAvailable | custom_components/ariston/api_manager.py:393-403 | Available iff a success lies less than two update intervals back |
| OptimizedCoordinator.SuccessCount | custom_components/ariston/optimized_coordinator.py:74-81 | The number of values among the results, at most the number of results |
| OptimizedCoordinator.SuccessCountCases | custom_components/ariston/optimized_coordinator.py:74-88 | The count is 0 iff no result is a value, and equals the number of results iff every one is |
| OptimizedCoordinator.Recorded | custom_components/ariston/optimized_coordinator.py:74-81 | The results loop never removes a stored kind |
| OptimizedCoordinator.RecordedKeys | custom_components/ariston/optimized_coordinator.py:74-81 | A kind is stored iff it was stored before or one of its calls succeeded |
| OptimizedCoordinator.RecordedValue | custom_components/ariston/optimized_coordinator.py:74-81 | The stored value is that of the kind's last successful call |
| OptimizedCoordinator.RecordedUntouched | custom_components/ariston/optimized_coordinator.py:74-81 | A kind with no successful call keeps its stored value |
| OptimizedCoordinator.CountedCalls | custom_components/ariston/optimized_coordinator.py:64-71 | How many gathered results the manager counted, at most one per result |
| OptimizedCoordinator.CountedCallsAll | custom_components/ariston/optimized_coordinator.py:64-71 | Every gathered result is counted when none was refused or batched |
| OptimizedCoordinator.ContractFromDevice | custom_components/ariston/optimized_coordinator.py:110-117 | A value or exception that a call answered under `CallContract` was produced by an invocation of the device method |
| OptimizedCoordinator.GatheredStep | custom_components/ariston/optimized_coordinator.py:64-71 | One more call that obeys `CallContract` from the last state extends the chain of gathered calls |
| OptimizedCoordinator.GatheredCounts | custom_components/ariston/optimized_coordinator.py:64-71 | Along a chain of gathered calls, total_calls grows by the counted calls |
| OptimizedCoordinator.BatchedDeviceDataUpdateCoordinator.constructor | custom_components/ariston/optimized_coordinator.py:23-48 | Stores the shared manager, the kinds and the interval. Starts with no results and no failures |
| OptimizedCoordinator.BatchedDeviceDataUpdateCoordinator.ExecuteSingleCall | custom_components/ariston/optimized_coordinator.py:110-117 | The call obeys `CallContract` without a forced refresh, from the manager's old state to its new one. So what comes back was produced by the device method, and total_calls moves by one unless the call was refused or batched |
| OptimizedCoordinator.BatchedDeviceDataUpdateCoordinator.GatherCalls | custom_components/ariston/optimized_coordinator.py:64-71 | One result per configured kind, in order. Each call obeys `CallContract` from the state the previous call left, the first from the old state and the last ending in the new one. total_calls grows by the counted calls |
| OptimizedCoordinator.BatchedDeviceDataUpdateCoordinator.ProcessResults | custom_components/ariston/optimized_coordinator.py:74-81 | The stored results become `Recorded` of the old ones, and the count is `SuccessCount` |
| OptimizedCoordinator.BatchedDeviceDataUpdateCoordinator.BatchedUpdate | custom_components/ariston/optimized_coordinator.py:54-108 | Skips when already updating. Otherwise the calls are gathered in order, each under `CallContract`. Any value resets the failure count and reports the successful and total counts. No value adds two to the failure count and raises the all-failed message |
| OptimizedCoordinator.BatchedDeviceDataUpdateCoordinator.IsAvailable | custom_components/ariston/optimized_coordinator.py:129-139 | Available iff a success lies less than two update intervals back |
| OptimizedCoordinator.BatchedDeviceDataUpdateCoordinator.GetResult | custom_components/ariston/optimized_coordinator.py:146-148 | The stored value of a kind, or None for a kind never stored |
| OptimizedCoordinator.BatchedDeviceDataUpdateCoordinator.ForceRefresh | custom_components/ariston/optimized_coordinator.py:150-157 | Drops the kind's cached result, or all of them |
| OptimizedCoordinator.SmartCoordinatorManager.constructor | custom_components/ariston/optimized_coordinator.py:163-170 | A fresh manager with an empty cache and zeroed statistics, no coordinators, not running |
| OptimizedCoordinator.SmartCoordinatorManager.AddCoordinator | custom_components/ariston/optimized_coordinator.py:172-188 | Stores a new coordinator on the shared manager under its name, with its kinds and interval. Tasks are untouched |
| OptimizedCoordinator.SmartCoordinatorManager.Start | custom_components/ariston/optimized_coordinator.py:190-201 | When not running, starts one task per coordinator. When already running, changes nothing |
| OptimizedCoordinator.SmartCoordinatorManager.Stop | custom_components/ariston/optimized_coordinator.py:203-217 | Not running and no tasks |
| OptimizedCoordinator.SmartCoordinatorManager.GetCoordinator | custom_components/ariston/optimized_coordinator.py:236-238 | The coordinator under the name, or None when there is none |
| OptimizedCoordinator.SmartCoordinatorManager.GetApiStats | custom_components/ariston/optimized_coordinator.py:240-242 | The shared manager's statistics: its total_calls, cache size, breaker state, failure count and per-kind counters |
| OptimizedCoordinator.SmartCoordinatorManager.ForceRefreshAll | custom_components/ariston/optimized_coordinator.py:244-248 | The shared cache ends empty |
| Coordinator.AttemptTrace | custom_components/ariston/coordinator.py:55-116 | The retry loop's trace: one to four attempts, every earlier one raised, a final raise only at the fourth, and the 5·2^a s sleep after each failed attempt but the fourth |
| Coordinator.BackoffSeconds | custom_components/ariston/coordinator.py:95-104 | A backoff sleep is at least 5 s |
| Coordinator.BackoffDoubles | custom_components/ariston/coordinator.py:22-25 | The first sleep is 5 s, and each later one is twice the previous |
| Coordinator.AllFailuresTrace | tests/test_coordinator.py:71-83 | When every attempt fails: four attempts, with sleeps of 5, 10 and 20 s |
| Coordinator.TwoFailuresThenSuccessTrace | tests/test_coordinator.py:59-69 | Two failures and then a success: three attempts, with sleeps of 5 and 10 s |
| Coordinator.AllAttemptsMessageText | custom_components/ariston/coordinator.py:113 | The final error reads "Failed to update {name} after 4 attempts" |
| Coordinator.DeviceDataUpdateCoordinator.constructor | custom_components/ariston/coordinator.py:31-53 | Interval in ms, no failures, no success, not updating |
| Coordinator.DeviceDataUpdateCoordinator.UpdateWithRetry | custom_components/ariston/coordinator.py:55-116 | Skips when updating. Succeeds iff one of the four attempts returns, and the attempt trace holds. Each failed attempt adds one to the failure count, and success resets it |
| Coordinator.DeviceDataUpdateCoordinator.IsAvailable | custom_components/ariston/coordinator.py:118-137 | Never before a success, never at five or more consecutive failures, otherwise iff the last success lies within two intervals |
| Coordinator.DeviceDataUpdateCoordinator.ForceUpdate | custom_components/ariston/coordinator.py:159-171 | Refused while updating, changing nothing. Otherwise true iff an attempt succeeds. Success resets the failure count and records the success time. Failure adds four failures and keeps the last success. The attempt time is recorded either way |
| Validation.Message | custom_components/ariston/validation.py:115-162 | Each error's message text. Only the temperature range message, which prints floats, has none |
| Validation.ValidateDeviceName | custom_components/ariston/validation.py:115-126 | Accepted iff a non-empty string matching the pattern with at most 50 characters. Each error iff its check is the first to fail. The result is stripped |
| Validation.ValidatedNameIsStable | custom_components/ariston/validation.py:115-126 | An accepted name has at most 50 pattern characters, no outer whitespace, and, when not empty, validates to itself |
| Validation.WhitespaceNameValidatesToEmpty | custom_components/ariston/validation.py:115-126 | A whitespace-only name is accepted and becomes "" |
| Validation.ValidateTemperature | custom_components/ariston/validation.py:128-138 | Accepted iff it converts and lies within the bounds inclusive. Otherwise the matching error |
| Validation.ValidateZoneNumber | custom_components/ariston/validation.py:140-150 | Accepted iff it converts and lies in 0..10. Otherwise the matching error |
| Validation.ValidateScanInterval | custom_components/ariston/validation.py:152-162 | Accepted iff it converts and lies in 30..3600. Otherwise the matching error |
| Validation.SafeGetDeviceName | custom_components/ariston/validation.py:186-196 | The validated name, or the default for a missing, empty, non-string or invalid name |
| Validation.SafeDeviceNameIsUsable | custom_components/ariston/validation.py:186-196 | With the standard default, the result is "Unknown Device" or the validated form of the given name |
| Validation.SafeGetTemperature | custom_components/ariston/validation.py:199-208 | The value if it validates, otherwise the default |
| Validation.SafeGetZoneNumber | custom_components/ariston/validation.py:211-220 | The value if it validates, otherwise the default |
| Validation.SafeGetScanInterval | custom_components/ariston/validation.py:223-232 | The value if it validates, otherwise the default |
| Validation.SafeGettersStayInRange | custom_components/ariston/validation.py:199-232 | With the standard defaults, every safe getter yields a value its validator accepts |
| Validation.ConfigValidator.constructor | custom_components/ariston/validation.py:78-80 | Starts with no errors |
| Validation.ConfigValidator.ClearErrors | custom_components/ariston/validation.py:84 | The error list is empty afterwards |
| Validation.ConfigValidator.Errors | custom_components/ariston/validation.py:164-167 | The error list, which is always empty |
| Validation.ConfigValidator.HasErrors | custom_components/ariston/validation.py:169-171 | Always false |
| Climate.HvacModeOf | custom_components/ariston/climate.py:127-155 | OFF unless the plant heats or cools. Manual gives HEAT or COOL, with COOL winning. A time program gives AUTO |
| Climate.HvacModeCases | custom_components/ariston/climate.py:132-143 | Each mode iff its readings, in both directions |
| Climate.HvacActionOf | custom_components/ariston/climate.py:159-175 | OFF unless the plant heats or cools. With the flame off, IDLE. With the flame on, COOLING in cool mode, otherwise HEATING |
| Climate.Icon | custom_components/ariston/climate.py:78-83 | "mdi:radiator" iff the plant heats, otherwise "mdi:radiator-off" |
| Climate.UniqueId | custom_components/ariston/climate.py:73-76 | The gateway, "_", then the zone's digits |
| Climate.UniqueIdDistinguishesZones | custom_components/ariston/climate.py:73-76 | Different zones give different ids |
| Climate.SetTemperature | custom_components/ariston/climate.py:188-203 | Error iff the temperature key is absent, with the ValueError text. Otherwise it sends the given value, None included, as the comfort temperature of the own zone |
| Climate.Planned | custom_components/ariston/climate.py:25-53 | The thermostats setup creates: for each usable description in order, one per zone |
| Climate.PerZone | custom_components/ariston/climate.py:31-51 | One thermostat per zone, in zone order |
| Climate.PlannedCount | custom_components/ariston/climate.py:25-53 | The number of usable descriptions times the number of zones |
| Climate.PlannedFromUsable | custom_components/ariston/climate.py:25-53 | Every thermostat comes from a usable description and one of the zones |
| Climate.PlannedCovers | custom_components/ariston/climate.py:25-53 | Every zone of every usable description gets its thermostat |
| Climate.SetupEntry | custom_components/ariston/climate.py:25-53 | The created list equals the plan |
| TemperatureSensors.CountChange | custom_components/ariston/temperature_sensors.py:72-82 | One significant change: the counter plus one, modulo 11 |
| TemperatureSensors.NextChangeCount | custom_components/ariston/temperature_sensors.py:72-83 | The counter moves only on a change of more than 0.1 from a previous value, wraps to 0 past 10, and stays ≤ 10 |
| TemperatureSensors.AfterChanges | custom_components/ariston/temperature_sensors.py:72-82 | n significant changes in a row, each the step `NextChangeCount` takes, keep the counter at most 10 |
| TemperatureSensors.AfterChangesModulo | custom_components/ariston/temperature_sensors.py:72-83 | After n significant changes the counter is (count + n) mod 11 |
| TemperatureSensors.NativeUnit | custom_components/ariston/temperature_sensors.py:91-100 | The getter's unit if it returns one, otherwise °C |
| TemperatureSensors.TemperatureSensor.constructor | custom_components/ariston/temperature_sensors.py:25-50 | No last value, and the counter at 0 |
| TemperatureSensors.TemperatureSensor.NativeValue | custom_components/ariston/temperature_sensors.py:52-89 | A value iff the reading is a number in -50..100. A rejected reading changes nothing. An accepted one is stored and moves the counter |
| TemperatureSensors.ZoneSensors | custom_components/ariston/temperature_sensors.py:119-163 | Four sensors for the zone |
| TemperatureSensors.AllZoneSensors | custom_components/ariston/temperature_sensors.py:119-163 | Four sensors per zone |
| TemperatureSensors.PlannedSensors | custom_components/ariston/temperature_sensors.py:103-275 | The sensors setup creates: zone sensors on GALEVO/BSB, water-heater sensors on VELIS, and one sensor per optional reading present |
| TemperatureSensors.PlannedSensorCount | custom_components/ariston/temperature_sensors.py:103-275 | The count: four per zone on GALEVO/BSB, one per present water-heater reading on VELIS, one per optional reading |
| TemperatureSensors.SetupEntry | custom_components/ariston/temperature_sensors.py:103-275 | Nothing without a device. Otherwise the planned sensors, added iff there are any |
| Entity.UniqueId | custom_components/ariston/entity.py:107-118 | "gateway-name", plus "-zone" iff the zone is not 0 |
| Entity.UniqueIdDistinguishesZones | custom_components/ariston/entity.py:107-118 | Same gateway and name with different zones give different ids |
| Entity.Model | custom_components/ariston/entity.py:61-72 | The model text for each case of water-heater type and model number, and "Unknown Model" on error |
| Entity.Collected | custom_components/ariston/entity.py:74-105 | The attributes the entries contribute, in order, a later entry with the same key replacing an earlier one |
| Entity.CollectedKeys | custom_components/ariston/entity.py:74-105 | An attribute is present iff some entry with that key has a method returning a value |
| Entity.CollectedValue | custom_components/ariston/entity.py:74-105 | The attribute holds the last such entry's value |
| Entity.NothingCollected | custom_components/ariston/entity.py:74-105 | No attributes iff no entry contributes |
| Entity.ExtraStateAttributes | custom_components/ariston/entity.py:74-105 | None without extra states or when nothing is collected. Otherwise the collected map |
| Entity.Available | custom_components/ariston/entity.py:120-127 | Iff there is a coordinator, it is available, and its last update succeeded |
| LoggingConfig.Update | custom_components/ariston/logging_config.py:82-84 | An existing key keeps its place, and a new key is appended |
| LoggingConfig.UpdateLookup | custom_components/ariston/logging_config.py:82-84 | After storing k: k maps to the new value, other keys keep theirs, and keys stay distinct |
| LoggingConfig.UpdateAll | custom_components/ariston/logging_config.py:82-84 | Existing keys keep their positions |
| LoggingConfig.UpdateAllUntouched | custom_components/ariston/logging_config.py:82-84 | A key not updated keeps its value |
| LoggingConfig.UpdateAllLast | custom_components/ariston/logging_config.py:82-84 | An updated key takes the value of its last mention |
| LoggingConfig.UpdateAllDistinct | custom_components/ariston/logging_config.py:82-84 | Keys stay distinct |
| LoggingConfig.Pairs | custom_components/ariston/logging_config.py:95 | One "k=v" per entry, in order |
| LoggingConfig.AristonLogger.constructor | custom_components/ariston/logging_config.py:77-80 | Named "ariston.{name}", with an empty context |
| LoggingConfig.AristonLogger.SetContext | custom_components/ariston/logging_config.py:82-84 | The context becomes `UpdateAll` of the old one, and keys stay distinct |
| LoggingConfig.AristonLogger.ClearContext | custom_components/ariston/logging_config.py:86-88 | The context is empty, and formatting is then the identity |
| LoggingConfig.AristonLogger.FormatMessage | custom_components/ariston/logging_config.py:90-96 | The message is unchanged iff the context is empty. It always ends with the message. Otherwise it is the bracketed "k=v" pairs, joined by a bar between spaces, then a space and the message |
| LoggingConfig.GetLogger | custom_components/ariston/logging_config.py:142-144 | A fresh logger with an empty context, whose formatting is the identity |
| Setup.ReportFailure | custom_components/ariston/__init__.py:124-128 | ConfigEntryAuthFailed is re-raised unchanged. Anything else becomes ConfigEntryNotReady |
| Setup.ValidateEntryAsWritten | custom_components/ariston/validation.py:23-100 | As written, data that is not a plain dict is rejected first with "Configuration must be a dictionary, got: …". Otherwise the schema accepts an entry iff its credentials pass and it has no "device" key, and its output has no device data |
| Setup.ValidateEntry | custom_components/ariston/validation.py:23-100 | As intended, any mapping is taken as a dict and accepted iff the credentials pass, with the device data carried through, and the ValidationError text otherwise |
| Setup.ValidateAndPrepareConfig | custom_components/ariston/__init__.py:131-144 | OK iff the config validates and the entry has device data, giving the validated config. Otherwise the NotReady message of the first failed check, with the validator's text prefixed once more |
| Setup.ConfigNeverPreparedAsWritten | custom_components/ariston/__init__.py:131-144 | With the validator as written, every entry fails the configuration check with NotReady: a non-dict mapping with the not-a-dictionary text, and a dict holding device data with the extra-keys text |
| Setup.ConfigPrepared | custom_components/ariston/__init__.py:131-144 | With the intended validator, the check passes iff the credentials pass and device data is present, and the config carries that device data |
| Setup.ConnectionResult | custom_components/ariston/__init__.py:147-181 | Connected iff one of three attempts is truthy. AuthFailed iff none is and the third did not raise |
| Setup.EstablishConnection | custom_components/ariston/__init__.py:147-181 | Equals `ConnectionResult`, stops at the first truthy attempt, and makes three attempts on failure |
| Setup.ConnectRetriesAfterRaise | custom_components/ariston/__init__.py:156-173 | Raises on attempts 1–2 are swallowed. Three raises end in the third exception |
| Setup.InitializeDevice | custom_components/ariston/__init__.py:184-212 | The device iff the gateway is present and the client returns one. NotReady with its message for a missing gateway or a None device, and the client's exception unchanged when `async_hello` raises |
| Setup.SetupCoordinators | custom_components/ariston/__init__.py:215-274 | Main [STATE_UPDATE, FEATURES], bus [BUS_ERRORS], energy [ENERGY_DATA] at minutes×60 only with metering. All share one manager, which is then running |
| Setup.SetupFailure | custom_components/ariston/__init__.py:92-128 | The first setup step to fail, in the order configuration check, connection, device initialisation, then the later steps |
| Setup.AuthFailureOnlyFromConnection | custom_components/ariston/__init__.py:92-128 | Setup ends in AuthFailed iff the connection did. Every other failure becomes NotReady |
| Setup.SetupSucceeds | custom_components/ariston/__init__.py:92-128 | An entry with accepted credentials and a gateway, a connection and a device is set up when the later steps pass |
| Setup.AsyncSetupEntry | custom_components/ariston/__init__.py:92-128 | Succeeds iff no step fails. Otherwise the first failure, mapped as `ReportFailure` says |

## Findings

| source | as written | input that shows it | evidently intended | confidence | as-written member | corrected member |
|---|---|---|---|---|---|---|
| custom_components/ariston/validation.py:23-100 | `validate_config` rejects data that is not a plain `dict`, and Home Assistant passes `entry.data` as a read-only mapping proxy. The configuration schema is a plain `vol.Schema` over the four configured keys, so it also rejects any other key and returns only those keys. `_validate_and_prepare_config` (`__init__.py`:131-144) validates the whole entry data and then requires its "device" key, so every entry fails one of these checks and setup always ends in ConfigEntryNotReady | Entry data as a mapping proxy: rejected with "Configuration must be a dictionary, got: <class 'mappingproxy'>". As a plain dict with valid credentials and device data holding a gateway: rejected with "extra keys not allowed @ data['device']". The same dict without the "device" key: "Missing device configuration" | The entry data is taken as a dict and the schema lets the device data through, so an entry with valid credentials and device data passes and setup can go on to connect | not executed; read from `validate_config`, the schema's definition and voluptuous's default of rejecting extra keys | Setup.ConfigNeverPreparedAsWritten | Setup.SetupSucceeds |

## Left out

- Concurrency. `asyncio.gather` is modelled as the calls made one after the other, and
  `_run_coordinator`'s endless polling task and its sleeps are not modelled. A started
  task is recorded as the coordinator it polls.
- `_get_update_method` in both coordinator files. The device accessor is a parameter of
  each update.
- Device accessors and the `ariston` client library. Their behaviour is the attempt
  function given to each call.
- Logging calls, `setup_logging`, the log-level wrappers and the dictionary
  configuration. These are library I/O.
- The voluptuous schemas, `validate_config`, `validate_service_data` and
  `validate_config_entry`. Of the configuration schema only what setup depends on is
  modelled: whether the data is a plain dict, whether the four configured keys pass
  (an input, with the error text), and
  what happens to the "device" key (`Setup.ValidateEntryAsWritten`, `Setup.ValidateEntry`).
  When several schema errors occur, the text shown is taken to be the credentials' one.
- `Setup.AsyncSetupEntry`: it uses the intended validator `Setup.ValidateEntry`, which
  passes the device data through. As written, no entry gets past the configuration
  check (see Findings), so the connection, device and coordinator steps it models are
  unreachable in the code as it stands. The `KeyError` that `config["device"]` raises at
  lines 175 and 186 of `__init__.py` on the schema's output as written is not modelled,
  because the intended configuration always holds the device data there.
- How Python's `int()` and `float()` convert strings. A value is given as not
  convertible (with its `str()`) or converted.
- Floating point:
  - NaN and infinity are not modelled;
  - temperatures and delays are exact reals;
  - `Validation.Message` has no text for the temperature range error, whose text prints
    floats.
- The id-based fallback of `unique_id` in entity.py, which uses the object's memory
  address.
- `device_info` in entity.py, which only reads device attributes.
- The `KeyError` that climate setup raises for a description whose coordinator is
  missing. The description is then counted as not usable.
- const.py is not part of this model. Coordinator names and option defaults are inputs
  of `Setup.SetupCoordinators`.
- `Setup.SetupCoordinators`: the initial `async_update` of each coordinator is not
  modelled. Any exception raised by it or by the later platform and service steps is
  the `later` input of `Setup.AsyncSetupEntry`.
- `hass.data` bookkeeping in setup.
- The entity_descriptions files and the test runner.
