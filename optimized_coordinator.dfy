/** The batching coordinator and the manager that owns one APICallManager and several
    batching coordinators (optimized_coordinator.py). */
module OptimizedCoordinator {
  import opened Wrappers
  import opened ApiManager

  // ---------------------------------------------------------------- gathered results

  /** success_count of `_async_batched_update`: how many gathered results are values. */
  function SuccessCount(results: seq<CallResult>): (n: nat)
    ensures n <= |results|
  {
    if results == [] then 0
    else SuccessCount(results[..|results| - 1]) + (if Succeeded(results[|results| - 1]) then 1 else 0)
  }

  /** No value at all exactly when the count is zero, and only values exactly when the
      count is the number of results. */
  lemma {:induction false} SuccessCountCases(results: seq<CallResult>)
    ensures SuccessCount(results) == 0 <==> forall i :: 0 <= i < |results| ==> !Succeeded(results[i])
    ensures SuccessCount(results) == |results| <==> forall i :: 0 <= i < |results| ==> Succeeded(results[i])
  {
    if results != [] {
      var n := |results| - 1;
      SuccessCountCases(results[..n]);
      assert forall i :: 0 <= i < n ==> results[..n][i] == results[i];
    }
  }

  /** `_update_results` after the results loop has walked `kinds` and `results` in order:
      every value is stored under its kind, a later one replacing an earlier one, and
      an exception leaves the entry as it was. */
  function Recorded(stored: map<CallType, Option<Payload>>, kinds: seq<CallType>, results: seq<CallResult>)
    : (m: map<CallType, Option<Payload>>)
    requires |kinds| == |results|
    ensures stored.Keys <= m.Keys
  {
    if kinds == [] then stored
    else
      var n := |kinds| - 1;
      var before := Recorded(stored, kinds[..n], results[..n]);
      if Succeeded(results[n]) then before[kinds[n] := ValueOf(results[n])] else before
  }

  /** A kind is recorded exactly when it was recorded before or one of its calls
      succeeded. */
  lemma {:induction false} RecordedKeys(stored: map<CallType, Option<Payload>>, kinds: seq<CallType>,
                                        results: seq<CallResult>, k: CallType)
    requires |kinds| == |results|
    ensures k in Recorded(stored, kinds, results) <==>
      k in stored || exists i :: 0 <= i < |kinds| && kinds[i] == k && Succeeded(results[i])
  {
    if kinds != [] {
      var n := |kinds| - 1;
      RecordedKeys(stored, kinds[..n], results[..n], k);
      if exists i :: 0 <= i < |kinds| && kinds[i] == k && Succeeded(results[i]) {
        var i :| 0 <= i < |kinds| && kinds[i] == k && Succeeded(results[i]);
        if i < n {
          assert kinds[..n][i] == k && Succeeded(results[..n][i]);
        }
      }
      if exists i :: 0 <= i < n && kinds[..n][i] == k && Succeeded(results[..n][i]) {
        var i :| 0 <= i < n && kinds[..n][i] == k && Succeeded(results[..n][i]);
        assert kinds[i] == k && Succeeded(results[i]);
      }
    }
  }

  /** The stored value of a kind is the value of its last successful call. */
  lemma {:induction false} RecordedValue(stored: map<CallType, Option<Payload>>, kinds: seq<CallType>,
                                         results: seq<CallResult>, k: CallType, i: nat)
    requires |kinds| == |results|
    requires i < |kinds| && kinds[i] == k && Succeeded(results[i])
    requires forall j :: i < j < |kinds| && kinds[j] == k ==> !Succeeded(results[j])
    ensures k in Recorded(stored, kinds, results)
    ensures Recorded(stored, kinds, results)[k] == ValueOf(results[i])
  {
    var n := |kinds| - 1;
    if i < n {
      assert kinds[..n][i] == k && Succeeded(results[..n][i]);
      forall j | i < j < n && kinds[..n][j] == k
        ensures !Succeeded(results[..n][j])
      {
        assert kinds[j] == k;
      }
      RecordedValue(stored, kinds[..n], results[..n], k, i);
    }
  }

  /** A kind with no successful call keeps its stored value. */
  lemma {:induction false} RecordedUntouched(stored: map<CallType, Option<Payload>>, kinds: seq<CallType>,
                                             results: seq<CallResult>, k: CallType)
    requires |kinds| == |results|
    requires k in stored
    requires forall j :: 0 <= j < |kinds| && kinds[j] == k ==> !Succeeded(results[j])
    ensures Recorded(stored, kinds, results)[k] == stored[k]
  {
    if kinds != [] {
      var n := |kinds| - 1;
      forall j | 0 <= j < n && kinds[..n][j] == k
        ensures !Succeeded(results[..n][j])
      {
        assert kinds[j] == k;
      }
      RecordedUntouched(stored, kinds[..n], results[..n], k);
    }
  }

  // ---------------------------------------------------------------- device inputs

  /** What the environment supplies for one call of a batch: the device method
      `_get_update_method` picks for the kind, and the clock readings when the call is
      entered and when its retry loop has finished. */
  datatype DeviceCall = DeviceCall(op: nat -> Outcome, start: int, end: int)

  /** A gathered result is accounted for by the device: a returned value or a raised
      exception that reached the coordinator was produced by one invocation of the
      device method. */
  ghost predicate FromDevice(op: nat -> Outcome, r: CallResult) {
    && (r.Called? ==> exists n: nat :: op(n) == Returned(r.value))
    && (r.CallFailed? ==> exists n: nat :: op(n) == Raised(r.cause))
    && (r.Batched? ==> exists n: nat :: op(n) == r.outcome)
  }

  /** How many of the gathered results were counted in the manager's statistics: all of
      them but those the breaker refused and those that went through the batching
      branch. */
  function CountedCalls(results: seq<CallResult>): (n: nat)
    ensures n <= |results|
  {
    if results == [] then 0
    else
      var last := results[|results| - 1];
      CountedCalls(results[..|results| - 1]) + (if last.BreakerOpen? || last.Batched? then 0 else 1)
  }

  /** When no call was refused or batched, every call was counted. */
  lemma {:induction false} CountedCallsAll(results: seq<CallResult>)
    requires forall i :: 0 <= i < |results| ==> !results[i].BreakerOpen? && !results[i].Batched?
    ensures CountedCalls(results) == |results|
  {
    if results != [] {
      var n := |results| - 1;
      assert forall i :: 0 <= i < n ==> results[..n][i] == results[i];
      CountedCallsAll(results[..n]);
    }
  }

  /** A call that `call_with_retry` answered as its contract says accounts for its result
      with the device method. */
  lemma ContractFromDevice(k: CallType, op: nat -> Outcome, forceRefresh: bool, now: int, done: int,
                           r: CallResult, invocations: nat, delays: seq<real>, s0: ManagerState, s1: ManagerState)
    requires CallContract(k, op, forceRefresh, now, done, r, invocations, delays, s0, s1)
    ensures FromDevice(op, r)
  {
    CallContractRetry(k, op, forceRefresh, now, done, r, invocations, delays, s0, s1);
    if r.Called? {
      assert op(invocations - 1) == Returned(r.value);
    } else if r.CallFailed? {
      assert op(invocations - 1) == Raised(r.cause);
    } else if r.Batched? {
      assert op(invocations - 1) == r.outcome;
    }
  }

  /** The gathering step as a chain of manager states: the i-th call, of kind kinds[i]
      through device call calls[i], took the manager from states[i] to states[i + 1] as
      `call_with_retry` promises, with the given invocations and delays. */
  ghost predicate GatheredInOrder(kinds: seq<CallType>, calls: seq<DeviceCall>, gathered: seq<CallResult>,
                                  invocations: seq<nat>, delays: seq<seq<real>>, states: seq<ManagerState>)
  {
    && |kinds| == |calls| == |gathered| == |invocations| == |delays| == |states| - 1
    && forall i :: 0 <= i < |gathered| ==>
         CallContract(kinds[i], calls[i].op, false, calls[i].start, calls[i].end,
                      gathered[i], invocations[i], delays[i], states[i], states[i + 1])
  }

  /** The chain grows by one call that took the manager from the last state to s. */
  lemma GatheredStep(kinds: seq<CallType>, calls: seq<DeviceCall>, gathered: seq<CallResult>,
                     invocations: seq<nat>, delays: seq<seq<real>>, states: seq<ManagerState>,
                     k: CallType, c: DeviceCall, r: CallResult, n: nat, d: seq<real>, s: ManagerState)
    requires GatheredInOrder(kinds, calls, gathered, invocations, delays, states)
    requires CallContract(k, c.op, false, c.start, c.end, r, n, d, states[|gathered|], s)
    ensures GatheredInOrder(kinds + [k], calls + [c], gathered + [r], invocations + [n], delays + [d], states + [s])
  {
    var i := |gathered|;
    forall j | 0 <= j <= i
      ensures CallContract((kinds + [k])[j], (calls + [c])[j].op, false, (calls + [c])[j].start, (calls + [c])[j].end,
                           (gathered + [r])[j], (invocations + [n])[j], (delays + [d])[j], (states + [s])[j], (states + [s])[j + 1])
    {
      if j < i {
        assert (states + [s])[j + 1] == states[j + 1];
      }
    }
  }

  /** Along the chain, total_calls grows by the counted calls. */
  lemma {:induction false} GatheredCounts(kinds: seq<CallType>, calls: seq<DeviceCall>, gathered: seq<CallResult>,
                                          invocations: seq<nat>, delays: seq<seq<real>>, states: seq<ManagerState>)
    requires GatheredInOrder(kinds, calls, gathered, invocations, delays, states)
    requires AllKinds(states[0].stats)
    ensures AllKinds(states[|gathered|].stats)
    ensures TotalCalls(states[|gathered|].stats) == TotalCalls(states[0].stats) + CountedCalls(gathered)
  {
    var i := |gathered|;
    if i > 0 {
      var n := i - 1;
      GatheredPrefix(kinds, calls, gathered, invocations, delays, states, n);
      GatheredCounts(kinds[..n], calls[..n], gathered[..n], invocations[..n], delays[..n], states[..n + 1]);
      CallContractCounts(kinds[n], calls[n].op, false, calls[n].start, calls[n].end,
        gathered[n], invocations[n], delays[n], states[n], states[n + 1]);
    }
  }

  /** A prefix of the chain is a chain. */
  lemma GatheredPrefix(kinds: seq<CallType>, calls: seq<DeviceCall>, gathered: seq<CallResult>,
                       invocations: seq<nat>, delays: seq<seq<real>>, states: seq<ManagerState>, n: nat)
    requires GatheredInOrder(kinds, calls, gathered, invocations, delays, states)
    requires n <= |gathered|
    ensures GatheredInOrder(kinds[..n], calls[..n], gathered[..n], invocations[..n], delays[..n], states[..n + 1])
  {
    forall j | 0 <= j < n
      ensures CallContract(kinds[..n][j], calls[..n][j].op, false, calls[..n][j].start, calls[..n][j].end,
                           gathered[..n][j], invocations[..n][j], delays[..n][j], states[..n + 1][j], states[..n + 1][j + 1])
    {
      assert states[..n + 1][j + 1] == states[j + 1];
    }
  }

  /** What `_async_batched_update` returns or raises. */
  datatype BatchOutcome =
    | BatchSkipped
    | BatchSucceeded(successfulCalls: nat, totalCalls: nat, results: map<CallType, Option<Payload>>)
    | BatchFailed(message: string)

  const AllFailedMessage: string := "Batched update failed: All batched calls failed"

  // ---------------------------------------------------------------- coordinator

  /** `BatchedDeviceDataUpdateCoordinator`: polls several call kinds of one device
      through a shared APICallManager. */
  class BatchedDeviceDataUpdateCoordinator {
    const deviceName: string
    const coordinatorName: string
    const apiManager: APICallManager
    const callTypes: seq<CallType>
    const updateIntervalMs: int
    var consecutiveFailures: nat
    var lastSuccessfulUpdate: Option<int>
    var lastUpdateAttempt: Option<int>
    var isUpdating: bool
    var updateResults: map<CallType, Option<Payload>>

    constructor (deviceName: string, scanIntervalSeconds: int, coordinatorName: string,
                 apiManager: APICallManager, callTypes: seq<CallType>)
      ensures this.deviceName == deviceName && this.coordinatorName == coordinatorName
      ensures this.apiManager == apiManager && this.callTypes == callTypes
      ensures updateIntervalMs == scanIntervalSeconds * 1000
      ensures consecutiveFailures == 0 && lastSuccessfulUpdate == None && lastUpdateAttempt == None
      ensures !isUpdating && updateResults == map[]
    {
      this.deviceName := deviceName;
      this.coordinatorName := coordinatorName;
      this.apiManager := apiManager;
      this.callTypes := callTypes;
      updateIntervalMs := scanIntervalSeconds * 1000;
      consecutiveFailures := 0;
      lastSuccessfulUpdate := None;
      lastUpdateAttempt := None;
      isUpdating := false;
      updateResults := map[];
    }

    /** `_execute_single_call`: one kind through the manager, never forcing a refresh. The
        ghost results are the invocations and delays of the call's retry loop. */
    method ExecuteSingleCall(k: CallType, call: DeviceCall)
      returns (r: CallResult, ghost invocations: nat, ghost delays: seq<real>)
      requires apiManager.Valid()
      modifies apiManager
      ensures apiManager.Valid()
      ensures CallContract(k, call.op, false, call.start, call.end, r, invocations, delays,
        old(apiManager.Snapshot()), apiManager.Snapshot())
      ensures FromDevice(call.op, r)
      ensures TotalCalls(apiManager.callStats)
        == TotalCalls(old(apiManager.callStats)) + (if r.BreakerOpen? || r.Batched? then 0 else 1)
    {
      var n, ds;
      r, n, ds := apiManager.CallWithRetry(k, call.op, false, call.start, call.end);
      invocations, delays := n, ds;
      ContractFromDevice(k, call.op, false, call.start, call.end, r, n, ds,
        old(apiManager.Snapshot()), apiManager.Snapshot());
      CallContractCounts(k, call.op, false, call.start, call.end, r, n, ds,
        old(apiManager.Snapshot()), apiManager.Snapshot());
    }

    /** The gathering step: one call per configured kind, in the configured order, each
        starting from the manager state the previous one left. */
    method GatherCalls(calls: seq<DeviceCall>)
      returns (gathered: seq<CallResult>, ghost invocations: seq<nat>, ghost delays: seq<seq<real>>,
               ghost states: seq<ManagerState>)
      requires |calls| == |callTypes|
      requires apiManager.Valid()
      modifies apiManager
      ensures apiManager.Valid()
      ensures GatheredInOrder(callTypes, calls, gathered, invocations, delays, states)
      ensures states[0] == old(apiManager.Snapshot()) && states[|gathered|] == apiManager.Snapshot()
      ensures forall i :: 0 <= i < |gathered| ==> FromDevice(calls[i].op, gathered[i])
      ensures TotalCalls(apiManager.callStats) == TotalCalls(old(apiManager.callStats)) + CountedCalls(gathered)
    {
      gathered, invocations, delays, states := [], [], [], [apiManager.Snapshot()];
      var i := 0;
      while i < |callTypes|
        invariant 0 <= i <= |callTypes| && |gathered| == i
        invariant apiManager.Valid()
        invariant GatheredInOrder(callTypes[..i], calls[..i], gathered, invocations, delays, states)
        invariant states[0] == old(apiManager.Snapshot()) && states[i] == apiManager.Snapshot()
      {
        var r, n, ds := ExecuteSingleCall(callTypes[i], calls[i]);
        GatheredStep(callTypes[..i], calls[..i], gathered, invocations, delays, states,
          callTypes[i], calls[i], r, n, ds, apiManager.Snapshot());
        assert callTypes[..i + 1] == callTypes[..i] + [callTypes[i]] && calls[..i + 1] == calls[..i] + [calls[i]];
        gathered, invocations, delays, states := gathered + [r], invocations + [n], delays + [ds],
          states + [apiManager.Snapshot()];
        i := i + 1;
      }
      assert callTypes[..i] == callTypes && calls[..i] == calls;
      GatheredCounts(callTypes, calls, gathered, invocations, delays, states);
      forall j | 0 <= j < |gathered| ensures FromDevice(calls[j].op, gathered[j]) {
        ContractFromDevice(callTypes[j], calls[j].op, false, calls[j].start, calls[j].end,
          gathered[j], invocations[j], delays[j], states[j], states[j + 1]);
      }
    }

    /** The results loop: stores every value under its kind and counts the values. */
    method ProcessResults(gathered: seq<CallResult>) returns (successCount: nat)
      requires |gathered| == |callTypes|
      modifies this`updateResults
      ensures updateResults == Recorded(old(updateResults), callTypes, gathered)
      ensures successCount == SuccessCount(gathered)
    {
      successCount := 0;
      var i := 0;
      while i < |gathered|
        invariant 0 <= i <= |gathered|
        invariant updateResults == Recorded(old(updateResults), callTypes[..i], gathered[..i])
        invariant successCount == SuccessCount(gathered[..i])
      {
        assert callTypes[..i + 1][..i] == callTypes[..i];
        assert gathered[..i + 1][..i] == gathered[..i];
        if Succeeded(gathered[i]) {
          updateResults := updateResults[callTypes[i] := ValueOf(gathered[i])];
          successCount := successCount + 1;
        }
        i := i + 1;
      }
      assert callTypes[..i] == callTypes;
      assert gathered[..i] == gathered;
    }

    /** `_async_batched_update`, entered at `now`; `done` is the clock reading once every
        call has finished. The all-failed exception is raised inside the try block and
        caught by its own handler, so that path adds two to the failure count. */
    method BatchedUpdate(calls: seq<DeviceCall>, now: int, done: int)
      returns (r: BatchOutcome, gathered: seq<CallResult>, ghost invocations: seq<nat>,
               ghost delays: seq<seq<real>>, ghost states: seq<ManagerState>)
      requires |calls| == |callTypes|
      requires apiManager.Valid()
      modifies this, apiManager
      ensures apiManager.Valid()
      ensures old(isUpdating) ==> r == BatchSkipped && unchanged(this) && unchanged(apiManager)
      ensures !old(isUpdating) ==>
        && !isUpdating && lastUpdateAttempt == Some(now)
        && |gathered| == |callTypes|
        && GatheredInOrder(callTypes, calls, gathered, invocations, delays, states)
        && states[0] == old(apiManager.Snapshot()) && states[|gathered|] == apiManager.Snapshot()
        && (forall i :: 0 <= i < |gathered| ==> FromDevice(calls[i].op, gathered[i]))
        && updateResults == Recorded(old(updateResults), callTypes, gathered)
      ensures !old(isUpdating) && SuccessCount(gathered) > 0 ==>
        && r == BatchSucceeded(SuccessCount(gathered), |callTypes|, updateResults)
        && consecutiveFailures == 0 && lastSuccessfulUpdate == Some(done)
      ensures !old(isUpdating) && SuccessCount(gathered) == 0 ==>
        && r == BatchFailed(AllFailedMessage)
        && consecutiveFailures == old(consecutiveFailures) + 2
        && lastSuccessfulUpdate == old(lastSuccessfulUpdate)
    {
      gathered := [];
      if isUpdating {
        return BatchSkipped, gathered, [], [], [];
      }
      isUpdating := true;
      lastUpdateAttempt := Some(now);
      gathered, invocations, delays, states := GatherCalls(calls);
      var successCount := ProcessResults(gathered);
      if successCount > 0 {
        consecutiveFailures := 0;
        lastSuccessfulUpdate := Some(done);
        r := BatchSucceeded(successCount, |callTypes|, updateResults);
      } else {
        // raise UpdateFailed("All batched calls failed"), then the handler of the same try
        consecutiveFailures := consecutiveFailures + 1;
        consecutiveFailures := consecutiveFailures + 1;
        r := BatchFailed(AllFailedMessage);
      }
      isUpdating := false;
    }

    /** `is_available`: a success less than two update intervals ago. */
    function IsAvailable(now: int): (b: bool)
      reads this
      ensures b <==> lastSuccessfulUpdate.Some? && now - lastSuccessfulUpdate.value < 2 * updateIntervalMs
    {
      match lastSuccessfulUpdate
      case None => false
      case Some(t) => now - t < 2 * updateIntervalMs
    }

    /** `get_result`: the stored value of a kind; a kind never stored and a kind whose
        stored value is None both read as None. */
    function GetResult(k: CallType): (v: Option<Payload>)
      reads this
      ensures k !in updateResults ==> v == None
      ensures k in updateResults ==> v == updateResults[k]
    {
      if k in updateResults then updateResults[k] else None
    }

    /** `force_refresh`: drops one kind's cached result, or every cached result. */
    method ForceRefresh(k: Option<CallType>)
      modifies apiManager`cache
      ensures k.Some? ==> apiManager.cache == old(apiManager.cache) - {k.value}
      ensures k.None? ==> apiManager.cache == map[]
    {
      apiManager.ClearCache(k);
    }
  }

  // ---------------------------------------------------------------- manager

  /** `SmartCoordinatorManager`: one APICallManager shared by named batching
      coordinators, and the names whose polling task is running (with the coordinator
      that task polls). */
  class SmartCoordinatorManager {
    const deviceName: string
    const apiManager: APICallManager
    var coordinators: map<string, BatchedDeviceDataUpdateCoordinator>
    var tasks: map<string, BatchedDeviceDataUpdateCoordinator>
    var isRunning: bool

    /** Every coordinator, and every coordinator a task polls, shares this manager's
        APICallManager; tasks exist only while running, and only for added names. */
    ghost predicate Valid()
      reads this, apiManager
    {
      && apiManager.Valid()
      && (forall n :: n in coordinators ==> coordinators[n].apiManager == apiManager)
      && (forall n :: n in tasks ==> tasks[n].apiManager == apiManager)
      && tasks.Keys <= coordinators.Keys
      && (!isRunning ==> tasks == map[])
    }

    constructor (deviceName: string)
      ensures Valid() && fresh(apiManager)
      ensures this.deviceName == deviceName
      ensures apiManager.cache == map[] && apiManager.callStats == ZeroStats()
      ensures coordinators == map[] && tasks == map[] && !isRunning
    {
      this.deviceName := deviceName;
      apiManager := new APICallManager();
      coordinators := map[];
      tasks := map[];
      isRunning := false;
    }

    /** `add_coordinator`: a new coordinator on the shared APICallManager, stored under
        its name (replacing one of the same name; a running task keeps polling the
        coordinator it was started with). */
    method AddCoordinator(name: string, scanIntervalSeconds: int, callTypes: seq<CallType>)
      returns (c: BatchedDeviceDataUpdateCoordinator)
      requires Valid()
      modifies this`coordinators
      ensures Valid() && fresh(c)
      ensures c.apiManager == apiManager && c.callTypes == callTypes && c.coordinatorName == name
      ensures c.deviceName == deviceName && c.updateIntervalMs == scanIntervalSeconds * 1000
      ensures coordinators == old(coordinators)[name := c]
      ensures tasks == old(tasks)
    {
      c := new BatchedDeviceDataUpdateCoordinator(deviceName, scanIntervalSeconds, name, apiManager, callTypes);
      coordinators := coordinators[name := c];
    }

    /** `start`: when not yet running, one polling task per added coordinator. */
    method Start()
      requires Valid()
      modifies this`isRunning, this`tasks
      ensures Valid() && isRunning
      ensures old(isRunning) ==> tasks == old(tasks)
      ensures !old(isRunning) ==> tasks == coordinators
    {
      if isRunning {
        return;
      }
      isRunning := true;
      var pending := coordinators.Keys;
      while pending != {}
        invariant isRunning && pending <= coordinators.Keys
        invariant tasks == map n | n in coordinators.Keys - pending :: coordinators[n]
        decreases pending
      {
        var n :| n in pending;
        tasks := tasks[n := coordinators[n]];
        pending := pending - {n};
      }
      assert coordinators.Keys - pending == coordinators.Keys;
    }

    /** `stop`: when running, every task is cancelled and forgotten. */
    method Stop()
      requires Valid()
      modifies this`isRunning, this`tasks
      ensures Valid() && !isRunning && tasks == map[]
    {
      if !isRunning {
        return;
      }
      isRunning := false;
      tasks := map[];
    }

    /** `get_coordinator`. */
    function GetCoordinator(name: string): (c: Option<BatchedDeviceDataUpdateCoordinator>)
      reads this
      ensures c.Some? <==> name in coordinators
      ensures c.Some? ==> c.value == coordinators[name]
    {
      if name in coordinators then Some(coordinators[name]) else None
    }

    /** `get_api_stats`: the shared manager's statistics. */
    function GetApiStats(): (s: CallStats)
      reads this, apiManager
      requires Valid()
      ensures s.totalCalls == TotalCalls(apiManager.callStats) && s.cacheSize == |apiManager.cache|
      ensures s.breakerState == apiManager.breakerState && s.failureCount == apiManager.failureCount
      ensures s.breakdown == apiManager.callStats
    {
      apiManager.GetCallStats()
    }

    /** `force_refresh_all`: the shared cache is emptied, then each coordinator empties
        it again. */
    method ForceRefreshAll()
      requires Valid()
      modifies apiManager`cache
      ensures Valid()
      ensures apiManager.cache == map[]
    {
      apiManager.ForceRefreshAll();
      var pending := coordinators.Values;
      while pending != {}
        invariant apiManager.cache == map[]
        invariant pending <= coordinators.Values
        decreases pending
      {
        var c :| c in pending;
        assert c.apiManager == apiManager;
        c.ForceRefresh(None);
        pending := pending - {c};
      }
    }
  }
}
