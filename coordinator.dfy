/** The polling coordinator with retry and exponential backoff (coordinator.py). */
module Coordinator {
  import opened Wrappers
  import Text
  import opened Powers

  const MaxRetries: nat := 3
  const RetryDelaySeconds: nat := 5
  const MaxConsecutiveFailures: nat := 5

  /** The sleep after failed attempt a (counted from 0), in seconds: the base delay
      multiplied by the backoff multiplier, 2, once per earlier attempt. */
  function BackoffSeconds(a: nat): (d: nat)
    ensures d >= RetryDelaySeconds
  {
    RetryDelaySeconds * Pow2(a)
  }

  /** Each retry waits twice as long as the one before, starting at five seconds. */
  lemma BackoffDoubles(a: nat)
    ensures BackoffSeconds(0) == 5
    ensures BackoffSeconds(a + 1) == 2 * BackoffSeconds(a)
  {
  }

  /** One call of the device's update method: it returned, or it raised. */
  datatype Step = Done | Threw(error: string)

  /** What `_async_update_with_retry` returns or raises. */
  datatype UpdateOutcome = UpdateSkipped | UpdateSucceeded | UpdateFailedAll(message: string)

  /** The exception text once every attempt has failed. */
  function AllAttemptsFailedMessage(deviceName: string): string {
    "Failed to update " + deviceName + " after " + Text.NatToString(MaxRetries + 1) + " attempts"
  }

  /** Whether one of the attempts the loop makes returns. */
  ghost predicate SomeAttemptSucceeds(op: nat -> Step) {
    exists a: nat :: a <= MaxRetries && op(a).Done?
  }

  /** The attempts made and the sleeps between them: every attempt before the last
      raised, each failed attempt except the fourth is followed by its backoff sleep, and
      the loop stops at the first return or after the fourth attempt. */
  ghost predicate AttemptTrace(op: nat -> Step, attempts: nat, delays: seq<nat>) {
    && 1 <= attempts <= MaxRetries + 1
    && (forall a: nat :: a < attempts - 1 ==> op(a).Threw?)
    && (op(attempts - 1).Threw? ==> attempts == MaxRetries + 1)
    && |delays| == attempts - 1
    && (forall a :: 0 <= a < |delays| ==> delays[a] == BackoffSeconds(a))
  }

  /** When every attempt fails the loop makes four attempts and sleeps 5, 10 and 20
      seconds between them. */
  lemma AllFailuresTrace(op: nat -> Step, attempts: nat, delays: seq<nat>)
    requires AttemptTrace(op, attempts, delays) && !SomeAttemptSucceeds(op)
    ensures attempts == 4 && delays == [5, 10, 20]
  {
    assert op(attempts - 1).Threw?;
    BackoffDoubles(0);
    BackoffDoubles(1);
  }

  /** Two failures and then a return: three attempts, sleeps of 5 and 10 seconds. */
  lemma TwoFailuresThenSuccessTrace(op: nat -> Step, attempts: nat, delays: seq<nat>)
    requires AttemptTrace(op, attempts, delays)
    requires op(0).Threw? && op(1).Threw? && op(2).Done?
    ensures attempts == 3 && delays == [5, 10]
  {
    BackoffDoubles(0);
  }

  /** The exception names the device and the four attempts. */
  lemma AllAttemptsMessageText(deviceName: string)
    ensures AllAttemptsFailedMessage(deviceName) == "Failed to update " + deviceName + " after 4 attempts"
  {
    assert Text.NatToString(4) == "4";
  }

  /** `DeviceDataUpdateCoordinator`: polls one device method with retries. */
  class DeviceDataUpdateCoordinator {
    const deviceName: string
    const updateIntervalMs: int
    var consecutiveFailures: nat
    var lastSuccessfulUpdate: Option<int>
    var lastUpdateAttempt: Option<int>
    var isUpdating: bool

    constructor (deviceName: string, scanIntervalSeconds: int)
      ensures this.deviceName == deviceName && updateIntervalMs == scanIntervalSeconds * 1000
      ensures consecutiveFailures == 0 && lastSuccessfulUpdate == None && lastUpdateAttempt == None
      ensures !isUpdating
    {
      this.deviceName := deviceName;
      updateIntervalMs := scanIntervalSeconds * 1000;
      consecutiveFailures := 0;
      lastSuccessfulUpdate := None;
      lastUpdateAttempt := None;
      isUpdating := false;
    }

    /** `_async_update_with_retry`, entered at `now`; op(a) is what attempt a of the
        device method does and `done` is the clock reading when it first returns. Each
        failed attempt adds one to the failure count; a return resets it. */
    method UpdateWithRetry(op: nat -> Step, now: int, done: int)
      returns (r: UpdateOutcome, attempts: nat, delays: seq<nat>)
      modifies this
      ensures old(isUpdating) ==> r == UpdateSkipped && attempts == 0 && unchanged(this)
      ensures !old(isUpdating) ==>
        && !isUpdating && lastUpdateAttempt == Some(now)
        && AttemptTrace(op, attempts, delays)
        && (r.UpdateSucceeded? <==> SomeAttemptSucceeds(op))
        && (r.UpdateSucceeded? ==> consecutiveFailures == 0 && lastSuccessfulUpdate == Some(done))
        && (!r.UpdateSucceeded? ==>
              && r == UpdateFailedAll(AllAttemptsFailedMessage(deviceName))
              && attempts == MaxRetries + 1
              && consecutiveFailures == old(consecutiveFailures) + MaxRetries + 1
              && lastSuccessfulUpdate == old(lastSuccessfulUpdate))
    {
      attempts, delays := 0, [];
      if isUpdating {
        return UpdateSkipped, attempts, delays;
      }
      isUpdating := true;
      lastUpdateAttempt := Some(now);
      var attempt: nat := 0;
      while attempt < MaxRetries + 1
        invariant attempt <= MaxRetries + 1 && attempts == attempt
        invariant forall a: nat :: a < attempt ==> op(a).Threw?
        invariant |delays| == (if attempt <= MaxRetries then attempt else MaxRetries)
        invariant forall a :: 0 <= a < |delays| ==> delays[a] == BackoffSeconds(a)
        invariant consecutiveFailures == old(consecutiveFailures) + attempt
        invariant isUpdating && lastUpdateAttempt == Some(now)
        invariant lastSuccessfulUpdate == old(lastSuccessfulUpdate)
      {
        attempts := attempt + 1;
        if op(attempt).Done? {
          consecutiveFailures := 0;
          lastSuccessfulUpdate := Some(done);
          isUpdating := false;
          return UpdateSucceeded, attempts, delays;
        }
        consecutiveFailures := consecutiveFailures + 1;
        if attempt < MaxRetries {
          delays := delays + [BackoffSeconds(attempt)];
        }
        attempt := attempt + 1;
      }
      isUpdating := false;
      r := UpdateFailedAll(AllAttemptsFailedMessage(deviceName));
    }

    /** `is_available`: never before a success, never at five or more consecutive
        failures, otherwise a success less than two update intervals ago. */
    function IsAvailable(now: int): (b: bool)
      reads this
      ensures lastSuccessfulUpdate.None? ==> !b
      ensures consecutiveFailures >= MaxConsecutiveFailures ==> !b
      ensures lastSuccessfulUpdate.Some? && consecutiveFailures < MaxConsecutiveFailures ==>
        (b <==> now - lastSuccessfulUpdate.value < 2 * updateIntervalMs)
    {
      if lastSuccessfulUpdate.None? then false
      else if consecutiveFailures >= MaxConsecutiveFailures then false
      else now - lastSuccessfulUpdate.value < 2 * updateIntervalMs
    }

    /** `force_update`: refused while an update runs; otherwise true exactly when the
        update succeeds. */
    method ForceUpdate(op: nat -> Step, now: int, done: int) returns (b: bool)
      modifies this
      ensures old(isUpdating) ==> !b && unchanged(this)
      ensures !old(isUpdating) ==>
        && !isUpdating && lastUpdateAttempt == Some(now)
        && (b <==> SomeAttemptSucceeds(op))
        && (b ==> consecutiveFailures == 0 && lastSuccessfulUpdate == Some(done))
        && (!b ==> consecutiveFailures == old(consecutiveFailures) + MaxRetries + 1
                   && lastSuccessfulUpdate == old(lastSuccessfulUpdate))
    {
      if isUpdating {
        return false;
      }
      var r, _, _ := UpdateWithRetry(op, now, done);
      b := r.UpdateSucceeded?;
    }
  }
}
