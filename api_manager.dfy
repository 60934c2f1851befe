/** The per-device API call gate of the Ariston integration: a result cache with a TTL per
    call kind, a three-state circuit breaker, a bounded retry loop with exponential backoff
    and jitter, per-kind call counters, and cache clearing. Clock readings are parameters
    (integer milliseconds); the device accessor is a function from the attempt number to
    what that attempt does; sleeps are returned as recorded delays (seconds, as `real`). */
module ApiManager {
  import opened Wrappers
  import opened Powers

  /** The kind of an API call: the cache key and the key of every per-kind table. */
  datatype CallType = StateUpdate | BusErrors | EnergyData | Features | UserAction

  datatype BreakerState = Closed | Open | HalfOpen

  /** An opaque domain payload produced by a device accessor. */
  datatype Payload = Payload(body: string)

  /** What one invocation of a device accessor does: return a value (Python `None` is
      `Returned(None)`) or raise an exception with the given text. */
  datatype Outcome = Returned(value: Option<Payload>) | Raised(message: string)

  datatype CacheEntry = CacheEntry(data: Option<Payload>, timestamp: int)

  datatype Counters = Counters(success: nat, failure: nat, cached: nat)

  /** How `call_with_retry` ends. `BreakerOpen` and `CallFailed` are the two `UpdateFailed`
      exceptions it raises (the latter with text "API call failed: " + cause); `Batched` is the
      batching branch, which first sleeps `sleptMs` for the rate limit and then hands back
      whatever the retry loop produced, an exception included, without wrapping it. */
  datatype CallResult =
    | FromCache(payload: Payload)
    | Called(value: Option<Payload>)
    | BreakerOpen
    | CallFailed(cause: string)
    | Batched(outcome: Outcome, sleptMs: int)

  /** Whether a result of `call_with_retry` is a value rather than an exception: a cache
      hit, a call that returned, or a batched call whose retry loop returned. */
  predicate Succeeded(r: CallResult) {
    r.FromCache? || r.Called? || (r.Batched? && r.outcome.Returned?)
  }

  /** The value a successful result carries. */
  function ValueOf(r: CallResult): (v: Option<Payload>)
    requires Succeeded(r)
    ensures r.FromCache? ==> v == Some(r.payload)
    ensures r.Called? ==> v == r.value
    ensures r.Batched? ==> r.outcome == Returned(v)
  {
    match r
    case FromCache(p) => Some(p)
    case Called(v) => v
    case Batched(o, _) => o.value
  }

  const MaxFailures: nat := 5
  const RecoveryTimeoutMs: int := 120_000
  const MinCallIntervalMs: int := 2_000
  const BatchWindowMs: int := 5_000
  const BreakerOpenMessage: string := "Circuit breaker is open - too many recent failures"
  const CallFailedPrefix: string := "API call failed: "

  /** Time to live of a cached result, in milliseconds. */
  function TtlMs(k: CallType): (t: nat)
    ensures t == 0 <==> k == UserAction
  {
    match k
    case StateUpdate => 30_000
    case BusErrors => 300_000
    case EnergyData => 600_000
    case Features => 3_600_000
    case UserAction => 0
  }

  /** Retries after the first attempt. */
  function MaxRetries(k: CallType): nat {
    match k
    case StateUpdate => 3
    case BusErrors => 2
    case EnergyData => 2
    case Features => 1
    case UserAction => 5
  }

  /** First backoff delay, in seconds. */
  function BaseDelay(k: CallType): real {
    match k
    case StateUpdate => 1.0
    case BusErrors => 2.0
    case EnergyData => 2.0
    case Features => 3.0
    case UserAction => 0.5
  }

  /** The delay slept after failed attempt `a`: base * 2^a, moved by a jitter factor in
      (-5 %, +5 %] and floored at zero. */
  ghost predicate BackoffDelay(k: CallType, a: nat, d: real) {
    var nominal := BaseDelay(k) * Pow2(a) as real;
    0.0 <= d && nominal * 0.95 < d <= nominal * 1.05
  }

  /** What the retry loop promises for kind `k`: the attempts before the last all raised,
      the result is the last attempt's outcome, a raise at the end means every attempt was
      used, and one backoff delay was slept between consecutive attempts. */
  ghost predicate RetryContract(k: CallType, op: nat -> Outcome, r: Outcome, invocations: nat, delays: seq<real>) {
    && 1 <= invocations <= MaxRetries(k) + 1
    && (forall i :: 0 <= i < invocations - 1 ==> op(i).Raised?)
    && r == op(invocations - 1)
    && (r.Raised? ==> invocations == MaxRetries(k) + 1)
    && |delays| == invocations - 1
    && (forall a :: 0 <= a < |delays| ==> BackoffDelay(k, a, delays[a]))
  }

  // ---------------------------------------------------------------- cache

  datatype Lookup = Lookup(hit: Option<Payload>, cache: map<CallType, CacheEntry>)

  /** `_get_cached_result`: a missing entry is a miss; an entry older than its TTL is
      deleted and is a miss; otherwise the stored data is returned (a stored `None`
      reads as a miss but stays in the cache). */
  function LookupCache(cache: map<CallType, CacheEntry>, k: CallType, now: int): (r: Lookup)
    ensures r.cache.Keys <= cache.Keys
    ensures forall j :: j in r.cache ==> r.cache[j] == cache[j]
    ensures forall j :: j != k ==> (j in r.cache <==> j in cache)
    ensures !(k in cache && now - cache[k].timestamp > TtlMs(k)) ==> r.cache == cache
  {
    if k !in cache then Lookup(None, cache)
    else if now - cache[k].timestamp > TtlMs(k) then Lookup(None, cache - {k})
    else Lookup(cache[k].data, cache)
  }

  lemma LookupHitIff(cache: map<CallType, CacheEntry>, k: CallType, now: int)
    ensures var r := LookupCache(cache, k, now);
      (r.hit.Some? <==> k in cache && now - cache[k].timestamp <= TtlMs(k) && cache[k].data.Some?)
      && (r.hit.Some? ==> r.hit == cache[k].data)
  {
  }

  /** An expired entry is removed, and it is the only one removed. */
  lemma ExpiredEntryRemoved(cache: map<CallType, CacheEntry>, k: CallType, now: int)
    requires k in cache && now - cache[k].timestamp > TtlMs(k)
    ensures var r := LookupCache(cache, k, now);
      r.hit == None && r.cache.Keys == cache.Keys - {k}
      && forall j :: j in cache && j != k ==> j in r.cache && r.cache[j] == cache[j]
  {
  }

  /** A value stored at time t is returned by every lookup up to t + TTL. */
  lemma CacheRoundTrip(cache: map<CallType, CacheEntry>, k: CallType, p: Payload, t: int, now: int)
    requires t <= now <= t + TtlMs(k)
    ensures LookupCache(cache[k := CacheEntry(Some(p), t)], k, now).hit == Some(p)
  {
  }

  // ---------------------------------------------------------------- breaker

  datatype CircuitBreaker = CircuitBreaker(state: BreakerState, failures: nat, lastFailure: Option<int>)

  /** What the breaker fields can hold: the state is CLOSED exactly while fewer than five
      failures are on record, and a breaker that is not CLOSED has seen a failure. */
  ghost predicate BreakerInv(b: CircuitBreaker) {
    && (b.state == Closed <==> b.failures < MaxFailures)
    && (b.state != Closed ==> b.lastFailure.Some?)
  }

  datatype Gate = Gate(admit: bool, breaker: CircuitBreaker)

  /** `_is_circuit_breaker_closed`: CLOSED and HALF_OPEN admit; OPEN admits, moving to
      HALF_OPEN, only once strictly more than the recovery timeout has passed. */
  function BreakerGate(b: CircuitBreaker, now: int): Gate {
    match b.state
    case Closed => Gate(true, b)
    case HalfOpen => Gate(true, b)
    case Open =>
      if b.lastFailure.Some? && now - b.lastFailure.value > RecoveryTimeoutMs
      then Gate(true, b.(state := HalfOpen))
      else Gate(false, b)
  }

  /** `_handle_call_failure`. */
  function RecordFailure(b: CircuitBreaker, t: int): (r: CircuitBreaker)
    ensures r.failures == b.failures + 1 && r.lastFailure == Some(t)
    ensures r.state == (if r.failures >= MaxFailures then Open else b.state)
  {
    var n := b.failures + 1;
    CircuitBreaker(if n >= MaxFailures then Open else b.state, n, Some(t))
  }

  /** `_reset_circuit_breaker`. */
  function ResetBreaker(b: CircuitBreaker): (r: CircuitBreaker)
    ensures r.state == Closed && r.failures == 0 && r.lastFailure == b.lastFailure
  {
    b.(state := Closed, failures := 0)
  }

  lemma BreakerInvPreserved(b: CircuitBreaker, now: int, t: int)
    requires BreakerInv(b)
    ensures BreakerInv(BreakerGate(b, now).breaker)
    ensures BreakerInv(RecordFailure(b, t))
    ensures BreakerInv(ResetBreaker(b))
  {
  }

  /** A refused call leaves the breaker as it was; HALF_OPEN admits every call. */
  lemma GateRefusesOnlyWhenOpen(b: CircuitBreaker, now: int)
    ensures !BreakerGate(b, now).admit ==> b.state == Open && BreakerGate(b, now).breaker == b
    ensures b.state == HalfOpen ==> BreakerGate(b, now).admit
    ensures b.state == Open && b.lastFailure.Some? ==>
      (BreakerGate(b, now).admit <==> now - b.lastFailure.value > RecoveryTimeoutMs)
  {
  }

  /** The failure counter is not reset on the way to HALF_OPEN, so the first failure there
      reopens the breaker at once. */
  lemma {:induction false} HalfOpenFailureReopens(b: CircuitBreaker, now: int, t: int)
    requires BreakerInv(b) && b.state == Open
    requires BreakerGate(b, now).admit
    ensures BreakerGate(b, now).breaker.state == HalfOpen
    ensures RecordFailure(BreakerGate(b, now).breaker, t).state == Open
  {
    assert b.failures >= MaxFailures;
  }

  /** The breaker after a run of failures recorded at the given times. */
  function FailMany(b: CircuitBreaker, times: seq<int>): (r: CircuitBreaker)
    decreases |times|
  {
    if times == [] then b else FailMany(RecordFailure(b, times[0]), times[1..])
  }

  /** From a CLOSED breaker with a clean count, n failures in a row leave n failures on
      record, and the breaker is OPEN exactly when n reaches five. */
  lemma {:induction false} ThresholdOpensBreaker(b: CircuitBreaker, times: seq<int>)
    requires b.state == Closed && b.failures < MaxFailures
    ensures FailMany(b, times).failures == b.failures + |times|
    ensures FailMany(b, times).state == Open <==> b.failures + |times| >= MaxFailures
    decreases |times|
  {
    if times != [] {
      var b' := RecordFailure(b, times[0]);
      if b'.state == Closed {
        ThresholdOpensBreaker(b', times[1..]);
      } else {
        StaysOpen(b', times[1..]);
      }
    }
  }

  lemma {:induction false} StaysOpen(b: CircuitBreaker, times: seq<int>)
    requires b.state == Open
    ensures FailMany(b, times).state == Open
    ensures FailMany(b, times).failures == b.failures + |times|
    decreases |times|
  {
    if times != [] {
      StaysOpen(RecordFailure(b, times[0]), times[1..]);
    }
  }

  // ---------------------------------------------------------------- statistics

  datatype CallStats = CallStats(
    totalCalls: nat,
    breakerState: BreakerState,
    failureCount: nat,
    cacheSize: nat,
    breakdown: map<CallType, Counters>)

  function CountersTotal(c: Counters): nat {
    c.success + c.failure + c.cached
  }

  ghost predicate AllKinds(stats: map<CallType, Counters>) {
    forall k: CallType :: k in stats
  }

  /** total_calls of `get_call_stats`: every counter of every kind, summed. */
  function TotalCalls(stats: map<CallType, Counters>): nat
    requires AllKinds(stats)
  {
    CountersTotal(stats[StateUpdate]) + CountersTotal(stats[BusErrors])
    + CountersTotal(stats[EnergyData]) + CountersTotal(stats[Features])
    + CountersTotal(stats[UserAction])
  }

  /** The three counters `call_with_retry` keeps per kind. */
  datatype Counter = SuccessCounter | FailureCounter | CachedCounter

  /** One more call of kind k counted under c: that counter moves by one, no other kind's
      counters move, and total_calls grows by exactly one. */
  function Bump(stats: map<CallType, Counters>, k: CallType, c: Counter): (r: map<CallType, Counters>)
    requires AllKinds(stats)
    ensures AllKinds(r) && TotalCalls(r) == TotalCalls(stats) + 1
    ensures forall j :: j != k ==> r[j] == stats[j]
    ensures CountersTotal(r[k]) == CountersTotal(stats[k]) + 1
    ensures r[k].success == stats[k].success + (if c == SuccessCounter then 1 else 0)
    ensures r[k].failure == stats[k].failure + (if c == FailureCounter then 1 else 0)
    ensures r[k].cached == stats[k].cached + (if c == CachedCounter then 1 else 0)
  {
    var n := stats[k];
    var r := stats[k := match c
      case SuccessCounter => n.(success := n.success + 1)
      case FailureCounter => n.(failure := n.failure + 1)
      case CachedCounter => n.(cached := n.cached + 1)];
    TotalCallsUpdate(stats, k, r[k]);
    r
  }

  /** Replacing one kind's counters moves total_calls by the difference. */
  lemma TotalCallsUpdate(stats: map<CallType, Counters>, k: CallType, c: Counters)
    requires AllKinds(stats)
    ensures AllKinds(stats[k := c])
    ensures TotalCalls(stats[k := c]) == TotalCalls(stats) - CountersTotal(stats[k]) + CountersTotal(c)
  {
    match k
    case StateUpdate =>
    case BusErrors =>
    case EnergyData =>
    case Features =>
    case UserAction =>
  }

  /** A map with an entry at each of the five kinds holds every kind. */
  lemma FiveKinds<V>(m: map<CallType, V>)
    requires StateUpdate in m && BusErrors in m && EnergyData in m && Features in m && UserAction in m
    ensures forall k: CallType :: k in m
  {
    forall k: CallType ensures k in m {
      match k
      case StateUpdate =>
      case BusErrors =>
      case EnergyData =>
      case Features =>
      case UserAction =>
    }
  }

  function ZeroStats(): (m: map<CallType, Counters>)
    ensures AllKinds(m) && TotalCalls(m) == 0
  {
    var z := Counters(0, 0, 0);
    var m := map[StateUpdate := z, BusErrors := z, EnergyData := z, Features := z, UserAction := z];
    assert m[StateUpdate] == z && m[BusErrors] == z && m[EnergyData] == z && m[Features] == z && m[UserAction] == z;
    FiveKinds(m);
    m
  }

  /** The sleep of `_rate_limit_call` for kind k at clock `now`: none for a kind with no
      recorded call time or with one at least two seconds back, otherwise exactly until
      two seconds after that call time. */
  function RateLimitSleepMs(last: map<CallType, int>, k: CallType, now: int): (s: int)
    ensures s >= 0
    ensures s > 0 <==> k in last && now - last[k] < MinCallIntervalMs
    ensures s > 0 ==> now + s == last[k] + MinCallIntervalMs
  {
    if k in last && now - last[k] < MinCallIntervalMs then MinCallIntervalMs - (now - last[k]) else 0
  }

  /** The effects of `call_with_retry` once the cache has missed or was skipped, from the
      state (cache0, stats0, breaker0, last0) to (cache1, stats1, breaker1, last1):
      - the call is batched exactly when `batch` says so; a batched call first sleeps as
        `RateLimitSleepMs` says, records the clock after that sleep as the kind's call time
        (the other kinds' times stay), obeys the retry contract and changes no cache,
        statistics or breaker;
      - otherwise no call time is recorded and the call obeys the retry contract;
      - success caches the value (not for a user action), counts it and closes the breaker;
      - failure counts it and records one breaker failure at `done`. */
  ghost predicate AfterMiss(k: CallType, op: nat -> Outcome, now: int, done: int, batch: bool,
                            r: CallResult, invocations: nat, delays: seq<real>,
                            cache0: map<CallType, CacheEntry>, stats0: map<CallType, Counters>,
                            breaker0: CircuitBreaker, last0: map<CallType, int>,
                            cache1: map<CallType, CacheEntry>, stats1: map<CallType, Counters>,
                            breaker1: CircuitBreaker, last1: map<CallType, int>)
  {
    && AllKinds(stats0)
    && (r.Batched? || r.Called? || r.CallFailed?)
    && (r.Batched? <==> batch)
    && (r.Batched? ==>
        && RetryContract(k, op, r.outcome, invocations, delays)
        && r.sleptMs == RateLimitSleepMs(last0, k, now)
        && last1 == last0[k := now + r.sleptMs]
        && cache1 == cache0 && stats1 == stats0 && breaker1 == breaker0)
    && (!r.Batched? ==>
        && last1 == last0
        && RetryContract(k, op, if r.Called? then Returned(r.value) else Raised(r.cause), invocations, delays))
    && (r.Called? ==>
        && cache1 == (if k == UserAction then cache0 else cache0[k := CacheEntry(r.value, done)])
        && stats1 == Bump(stats0, k, SuccessCounter)
        && breaker1 == ResetBreaker(breaker0))
    && (r.CallFailed? ==>
        && cache1 == cache0
        && stats1 == Bump(stats0, k, FailureCounter)
        && breaker1 == RecordFailure(breaker0, done))
  }

  /** The fields of an APICallManager that `call_with_retry` reads and writes. */
  datatype ManagerState = ManagerState(
    cache: map<CallType, CacheEntry>,
    stats: map<CallType, Counters>,
    breaker: CircuitBreaker,
    lastCall: map<CallType, int>)

  /** `call_with_retry` once the breaker has admitted the call, from s0 to s1: the cache is
      consulted unless the refresh is forced or the kind is a user action; a hit answers
      with the cached value and moves only the kind's cached counter; otherwise the
      effects are those of `AfterMiss`, starting from the cache the lookup left. */
  ghost predicate AdmittedContract(k: CallType, op: nat -> Outcome, forceRefresh: bool, now: int, done: int,
                                   r: CallResult, invocations: nat, delays: seq<real>,
                                   s0: ManagerState, s1: ManagerState)
  {
    var consult := !forceRefresh && k != UserAction;
    var lookup := LookupCache(s0.cache, k, now);
    && AllKinds(s0.stats)
    && !r.BreakerOpen?
    && (r.FromCache? <==> consult && lookup.hit.Some?)
    && (r.FromCache? ==>
        && invocations == 0 && Some(r.payload) == lookup.hit
        && s1 == s0.(stats := Bump(s0.stats, k, CachedCounter)))
    && (!r.FromCache? ==>
        AfterMiss(k, op, now, done, k != UserAction && k in s0.lastCall && now - s0.lastCall[k] < BatchWindowMs,
          r, invocations, delays,
          if consult then lookup.cache else s0.cache, s0.stats, s0.breaker, s0.lastCall,
          s1.cache, s1.stats, s1.breaker, s1.lastCall))
  }

  /** What `call_with_retry` promises, from manager state s0 to s1: the breaker gate comes
      first, and a refused call changes nothing and invokes nothing; an admitted call
      starts from the breaker the gate left and obeys `AdmittedContract`. */
  ghost predicate CallContract(k: CallType, op: nat -> Outcome, forceRefresh: bool, now: int, done: int,
                               r: CallResult, invocations: nat, delays: seq<real>,
                               s0: ManagerState, s1: ManagerState)
  {
    var gate := BreakerGate(s0.breaker, now);
    && AllKinds(s0.stats)
    && (r.BreakerOpen? <==> !gate.admit)
    && (r.BreakerOpen? ==> invocations == 0 && delays == [] && s1 == s0)
    && (gate.admit ==>
        AdmittedContract(k, op, forceRefresh, now, done, r, invocations, delays, s0.(breaker := gate.breaker), s1))
  }

  /** Every call past the breaker except the batching branch is counted exactly once; only
      the batching branch records a call time, and only for a kind that had one, so a
      manager with no call time on record never batches. */
  lemma CallContractCounts(k: CallType, op: nat -> Outcome, forceRefresh: bool, now: int, done: int,
                           r: CallResult, invocations: nat, delays: seq<real>,
                           s0: ManagerState, s1: ManagerState)
    requires CallContract(k, op, forceRefresh, now, done, r, invocations, delays, s0, s1)
    ensures AllKinds(s1.stats)
    ensures TotalCalls(s1.stats) == TotalCalls(s0.stats) + (if r.BreakerOpen? || r.Batched? then 0 else 1)
    ensures r.Batched? ==> k in s0.lastCall && s1.stats == s0.stats
    ensures !r.Batched? ==> s1.lastCall == s0.lastCall
    ensures s0.lastCall == map[] ==> !r.Batched? && s1.lastCall == map[]
  {
  }

  /** The batching branch keeps calls of a kind at least two seconds apart: the call time
      it records is two seconds after the previous one, or the clock when that is already
      past; no other kind's call time changes. */
  lemma BatchedCallSpacing(k: CallType, op: nat -> Outcome, forceRefresh: bool, now: int, done: int,
                           r: CallResult, invocations: nat, delays: seq<real>,
                           s0: ManagerState, s1: ManagerState)
    requires CallContract(k, op, forceRefresh, now, done, r, invocations, delays, s0, s1)
    requires r.Batched?
    ensures k in s0.lastCall && k in s1.lastCall
    ensures s1.lastCall[k] == now + r.sleptMs
    ensures s1.lastCall[k] == (if now - s0.lastCall[k] < MinCallIntervalMs then s0.lastCall[k] + MinCallIntervalMs else now)
    ensures s1.lastCall[k] >= s0.lastCall[k] + MinCallIntervalMs
    ensures forall j :: j != k ==> (j in s1.lastCall <==> j in s0.lastCall)
    ensures forall j :: j != k && j in s0.lastCall ==> s1.lastCall[j] == s0.lastCall[j]
  {
  }

  /** A call that was made, batched or not, obeys the retry contract; so every value or
      exception that comes back was produced by an invocation of the device method. */
  lemma CallContractRetry(k: CallType, op: nat -> Outcome, forceRefresh: bool, now: int, done: int,
                          r: CallResult, invocations: nat, delays: seq<real>,
                          s0: ManagerState, s1: ManagerState)
    requires CallContract(k, op, forceRefresh, now, done, r, invocations, delays, s0, s1)
    ensures r.Called? ==> RetryContract(k, op, Returned(r.value), invocations, delays)
    ensures r.CallFailed? ==> RetryContract(k, op, Raised(r.cause), invocations, delays)
    ensures r.Batched? ==> RetryContract(k, op, r.outcome, invocations, delays)
    ensures r.BreakerOpen? || r.FromCache? ==> invocations == 0
  {
  }

  class APICallManager {
    var cache: map<CallType, CacheEntry>
    var lastCallTime: map<CallType, int>
    var breakerState: BreakerState
    var failureCount: nat
    var lastFailureTime: Option<int>
    var callStats: map<CallType, Counters>

    function Breaker(): CircuitBreaker
      reads this`breakerState, this`failureCount, this`lastFailureTime
    {
      CircuitBreaker(breakerState, failureCount, lastFailureTime)
    }

    ghost predicate Valid()
      reads this
    {
      AllKinds(callStats) && BreakerInv(Breaker())
    }

    function Snapshot(): ManagerState
      reads this
    {
      ManagerState(cache, callStats, Breaker(), lastCallTime)
    }

    constructor ()
      ensures Valid()
      ensures cache == map[] && lastCallTime == map[] && callStats == ZeroStats()
      ensures Breaker() == CircuitBreaker(Closed, 0, None)
    {
      cache := map[];
      lastCallTime := map[];
      breakerState := Closed;
      failureCount := 0;
      lastFailureTime := None;
      callStats := ZeroStats();
    }

    /** `_is_circuit_breaker_closed`, which moves OPEN to HALF_OPEN while it checks. */
    method IsCircuitBreakerClosed(now: int) returns (admit: bool)
      requires Valid()
      modifies this`breakerState
      ensures Valid()
      ensures Gate(admit, Breaker()) == BreakerGate(old(Breaker()), now)
    {
      BreakerInvPreserved(Breaker(), now, now);
      if breakerState == Closed {
        return true;
      }
      if breakerState == Open {
        if lastFailureTime.Some? && now - lastFailureTime.value > RecoveryTimeoutMs {
          breakerState := HalfOpen;
          return true;
        }
        return false;
      }
      return true;
    }

    /** `_handle_call_failure` at clock reading t. */
    method HandleCallFailure(t: int)
      requires Valid()
      modifies this`failureCount, this`lastFailureTime, this`breakerState
      ensures Valid()
      ensures Breaker() == RecordFailure(old(Breaker()), t)
    {
      BreakerInvPreserved(Breaker(), t, t);
      failureCount := failureCount + 1;
      lastFailureTime := Some(t);
      if failureCount >= MaxFailures {
        breakerState := Open;
      }
    }

    /** `_reset_circuit_breaker`. */
    method ResetCircuitBreaker()
      requires Valid()
      modifies this`failureCount, this`breakerState
      ensures Valid()
      ensures Breaker() == ResetBreaker(old(Breaker()))
    {
      breakerState := Closed;
      failureCount := 0;
    }

    /** `_get_cached_result` at clock reading `now`. */
    method GetCachedResult(k: CallType, now: int) returns (hit: Option<Payload>)
      modifies this`cache
      ensures Lookup(hit, cache) == LookupCache(old(cache), k, now)
    {
      if k !in cache {
        return None;
      }
      var entry := cache[k];
      if now - entry.timestamp > TtlMs(k) {
        cache := cache - {k};
        return None;
      }
      return entry.data;
    }

    /** `_cache_result` at clock reading t. */
    method CacheResult(k: CallType, v: Option<Payload>, t: int)
      modifies this`cache
      ensures cache == old(cache)[k := CacheEntry(v, t)]
    {
      cache := cache[k := CacheEntry(v, t)];
    }

    /** `_should_batch_call`: only a kind with a recorded call time less than the batch
        window ago is batched, so with no call time on record nothing ever is. */
    function ShouldBatchCall(k: CallType, now: int): (b: bool)
      reads this`lastCallTime
      ensures b <==> k != UserAction && k in lastCallTime && now - lastCallTime[k] < BatchWindowMs
      ensures lastCallTime == map[] ==> !b
    {
      if k == UserAction then false
      else if k !in lastCallTime then false
      else now - lastCallTime[k] < BatchWindowMs
    }

    /** `_rate_limit_call`: sleeps until two seconds have passed since the kind's recorded
        call time, then records the clock reading after the sleep. This is the only write
        of `lastCallTime`. */
    method RateLimitCall(k: CallType, now: int) returns (sleepMs: int)
      modifies this`lastCallTime
      ensures sleepMs == RateLimitSleepMs(old(lastCallTime), k, now)
      ensures lastCallTime == old(lastCallTime)[k := now + sleepMs]
    {
      sleepMs := 0;
      if k in lastCallTime {
        var since := now - lastCallTime[k];
        if since < MinCallIntervalMs {
          sleepMs := MinCallIntervalMs - since;
        }
      }
      lastCallTime := lastCallTime[k := now + sleepMs];
    }

    /** `_execute_call_with_retry`: at most MaxRetries(k) + 1 invocations, the first value
        returned is the result, the last exception is re-raised when every attempt fails,
        and a jittered backoff delay is slept after every failed attempt but the last. */
    method ExecuteCallWithRetry(k: CallType, op: nat -> Outcome)
      returns (r: Outcome, invocations: nat, delays: seq<real>)
      ensures RetryContract(k, op, r, invocations, delays)
    {
      var maxRetries := MaxRetries(k);
      var baseDelay := BaseDelay(k);
      var lastException: Option<string> := None;
      delays := [];
      var attempt: nat := 0;
      while attempt < maxRetries + 1
        invariant attempt <= maxRetries + 1
        invariant forall i :: 0 <= i < attempt ==> op(i).Raised?
        invariant attempt > 0 ==> lastException == Some(op(attempt - 1).message)
        invariant |delays| == (if attempt <= maxRetries then attempt else maxRetries)
        invariant forall a :: 0 <= a < |delays| ==> BackoffDelay(k, a, delays[a])
      {
        var outcome := op(attempt);
        if outcome.Returned? {
          return outcome, attempt + 1, delays;
        }
        lastException := Some(outcome.message);
        if attempt < maxRetries {
          var delay := baseDelay * Pow2(attempt) as real;
          var jitter: real :| -delay * 0.05 < jitter <= delay * 0.05;
          var total := if delay + jitter < 0.0 then 0.0 else delay + jitter;
          delays := delays + [total];
        }
        attempt := attempt + 1;
      }
      return Raised(lastException.value), maxRetries + 1, delays;
    }

    /** The part of `call_with_retry` after the cache: run the retry loop; on success cache
        the value unless the kind is a user action, count the success and close the breaker;
        on failure count it and record one breaker failure at `done`. */
    method MakeCall(k: CallType, op: nat -> Outcome, done: int)
      returns (r: CallResult, invocations: nat, delays: seq<real>)
      requires Valid()
      modifies this`cache, this`callStats, this`failureCount, this`lastFailureTime, this`breakerState
      ensures Valid()
      ensures r.Called? || r.CallFailed?
      ensures RetryContract(k, op, if r.Called? then Returned(r.value) else Raised(r.cause), invocations, delays)
      ensures r.Called? ==>
        && cache == (if k == UserAction then old(cache) else old(cache)[k := CacheEntry(r.value, done)])
        && callStats == Bump(old(callStats), k, SuccessCounter)
        && Breaker() == ResetBreaker(old(Breaker()))
      ensures r.CallFailed? ==>
        && cache == old(cache)
        && callStats == Bump(old(callStats), k, FailureCounter)
        && Breaker() == RecordFailure(old(Breaker()), done)
    {
      var o;
      o, invocations, delays := ExecuteCallWithRetry(k, op);
      if o.Returned? {
        if k != UserAction {
          CacheResult(k, o.value, done);
        }
        callStats := Bump(callStats, k, SuccessCounter);
        ResetCircuitBreaker();
        r := Called(o.value);
      } else {
        callStats := Bump(callStats, k, FailureCounter);
        HandleCallFailure(done);
        r := CallFailed(o.message);
      }
    }

    /** The tail of `call_with_retry` once the cache has missed: batch the call when
        `_should_batch_call` says so (rate limit, then the retry loop, nothing counted),
        otherwise make it. */
    method UncachedCall(k: CallType, op: nat -> Outcome, now: int, done: int)
      returns (r: CallResult, invocations: nat, delays: seq<real>)
      requires Valid()
      modifies this`cache, this`callStats, this`failureCount, this`lastFailureTime,
        this`breakerState, this`lastCallTime
      ensures Valid()
      ensures AfterMiss(k, op, now, done, old(ShouldBatchCall(k, now)), r, invocations, delays,
        old(cache), old(callStats), old(Breaker()), old(lastCallTime),
        cache, callStats, Breaker(), lastCallTime)
    {
      if ShouldBatchCall(k, now) {
        var sleepMs := RateLimitCall(k, now);
        var o;
        o, invocations, delays := ExecuteCallWithRetry(k, op);
        r := Batched(o, sleepMs);
      } else {
        r, invocations, delays := MakeCall(k, op, done);
      }
    }

    /** `call_with_retry` once the breaker has let the call through: consult the cache
        (unless forced or a user action), then batch or make the call. */
    method AdmittedCall(k: CallType, op: nat -> Outcome, forceRefresh: bool, now: int, done: int)
      returns (r: CallResult, invocations: nat, delays: seq<real>)
      requires Valid()
      modifies this`cache, this`callStats, this`failureCount, this`lastFailureTime,
        this`breakerState, this`lastCallTime
      ensures Valid()
      ensures AdmittedContract(k, op, forceRefresh, now, done, r, invocations, delays, old(Snapshot()), Snapshot())
    {
      invocations, delays := 0, [];
      var hit := ConsultCache(k, forceRefresh, now);
      if hit.Some? {
        callStats := Bump(callStats, k, CachedCounter);
        return FromCache(hit.value), invocations, delays;
      }
      r, invocations, delays := UncachedCall(k, op, now, done);
    }

    /** The cache step of `call_with_retry`: skipped for a forced refresh and for a user
        action, otherwise `_get_cached_result`. */
    method ConsultCache(k: CallType, forceRefresh: bool, now: int) returns (hit: Option<Payload>)
      modifies this`cache
      ensures hit == (if !forceRefresh && k != UserAction then LookupCache(old(cache), k, now).hit else None)
      ensures cache == (if !forceRefresh && k != UserAction then LookupCache(old(cache), k, now).cache else old(cache))
    {
      hit := None;
      if !forceRefresh && k != UserAction {
        hit := GetCachedResult(k, now);
      }
    }

    /** `call_with_retry` for kind `k`, entered at clock reading `now`; `done` is the clock
        reading once the retry loop has finished (the cache timestamp and the failure time). */
    method CallWithRetry(k: CallType, op: nat -> Outcome, forceRefresh: bool, now: int, done: int)
      returns (r: CallResult, invocations: nat, delays: seq<real>)
      requires Valid()
      modifies this
      ensures Valid()
      ensures CallContract(k, op, forceRefresh, now, done, r, invocations, delays, old(Snapshot()), Snapshot())
    {
      var admit := IsCircuitBreakerClosed(now);
      if !admit {
        return BreakerOpen, 0, [];
      }
      r, invocations, delays := AdmittedCall(k, op, forceRefresh, now, done);
    }

    /** `clear_cache`: one kind's entry, or every entry when no kind is given. */
    method ClearCache(k: Option<CallType>)
      modifies this`cache
      ensures k.Some? ==> cache == old(cache) - {k.value}
      ensures k.None? ==> cache == map[]
    {
      if k.Some? {
        if k.value in cache {
          cache := cache - {k.value};
        }
      } else {
        cache := map[];
      }
    }

    /** `force_refresh_all`: drops every cached result. */
    method ForceRefreshAll()
      modifies this`cache
      ensures cache == map[]
    {
      ClearCache(None);
    }

    /** `get_call_stats`. */
    function GetCallStats(): (s: CallStats)
      reads this
      requires Valid()
      ensures s.totalCalls == TotalCalls(callStats) && s.cacheSize == |cache|
      ensures s.breakerState == breakerState && s.failureCount == failureCount
      ensures s.breakdown == callStats
    {
      CallStats(TotalCalls(callStats), breakerState, failureCount, |cache|, callStats)
    }
  }

  /** What `async_update` of the single-kind coordinator returns or raises. */
  datatype UpdateResult = Skipped | Updated(data: Option<Payload>) | UpdateFailed(message: string)

  /** `OptimizedDeviceDataUpdateCoordinator`: one call kind polled through a shared
      APICallManager. */
  class OptimizedDeviceDataUpdateCoordinator {
    const deviceName: string
    const callType: CallType
    const apiManager: APICallManager
    const updateIntervalMs: int
    var consecutiveFailures: nat
    var lastSuccessfulUpdate: Option<int>
    var lastUpdateAttempt: Option<int>
    var isUpdating: bool

    constructor (deviceName: string, scanIntervalSeconds: int, callType: CallType, apiManager: APICallManager)
      ensures this.deviceName == deviceName && this.callType == callType && this.apiManager == apiManager
      ensures updateIntervalMs == scanIntervalSeconds * 1000
      ensures consecutiveFailures == 0 && lastSuccessfulUpdate == None && lastUpdateAttempt == None && !isUpdating
    {
      this.deviceName := deviceName;
      this.callType := callType;
      this.apiManager := apiManager;
      updateIntervalMs := scanIntervalSeconds * 1000;
      consecutiveFailures := 0;
      lastSuccessfulUpdate := None;
      lastUpdateAttempt := None;
      isUpdating := false;
    }

    /** `async_update`, entered at `now`; `done` is the clock reading after the call. The
        ghost results are what `call_with_retry` did: its result, and the invocations and
        delays of its retry loop. A value is returned with the data the call produced; an
        exception is re-raised as "Failed to update {name}: " and the exception's text. */
    method AsyncUpdate(op: nat -> Outcome, now: int, done: int)
      returns (r: UpdateResult, ghost res: CallResult, ghost invocations: nat, ghost delays: seq<real>)
      requires apiManager.Valid()
      modifies this, apiManager
      ensures apiManager.Valid()
      ensures old(isUpdating) ==> r == Skipped && unchanged(this) && unchanged(apiManager)
      ensures !old(isUpdating) ==>
        && !isUpdating && lastUpdateAttempt == Some(now) && !r.Skipped?
        && CallContract(callType, op, false, now, done, res, invocations, delays,
             old(apiManager.Snapshot()), apiManager.Snapshot())
        && (r.Updated? <==> Succeeded(res))
      ensures r.Updated? ==>
        r.data == ValueOf(res) && consecutiveFailures == 0 && lastSuccessfulUpdate == Some(done)
      ensures r.UpdateFailed? ==>
        consecutiveFailures == old(consecutiveFailures) + 1 && lastSuccessfulUpdate == old(lastSuccessfulUpdate)
      ensures !old(isUpdating) && res.BreakerOpen? ==>
        r == UpdateFailed("Failed to update " + deviceName + ": " + BreakerOpenMessage)
      ensures !old(isUpdating) && res.CallFailed? ==>
        r == UpdateFailed("Failed to update " + deviceName + ": " + CallFailedPrefix + res.cause)
      ensures !old(isUpdating) && res.Batched? && res.outcome.Raised? ==>
        r == UpdateFailed("Failed to update " + deviceName + ": " + res.outcome.message)
    {
      if isUpdating {
        return Skipped, BreakerOpen, 0, [];
      }
      isUpdating := true;
      lastUpdateAttempt := Some(now);
      var result, n, ds := apiManager.CallWithRetry(callType, op, false, now, done);
      res, invocations, delays := result, n, ds;
      r := Conclude(result, done);
      isUpdating := false;
    }

    /** The end of the `try` of `async_update`: a value resets the failure count and
        records the success time; an exception adds one failure and is re-raised with the
        device name. */
    method Conclude(result: CallResult, done: int) returns (r: UpdateResult)
      modifies this`consecutiveFailures, this`lastSuccessfulUpdate
      ensures r.Updated? <==> Succeeded(result)
      ensures r.Updated? ==>
        r.data == ValueOf(result) && consecutiveFailures == 0 && lastSuccessfulUpdate == Some(done)
      ensures !r.Updated? ==>
        r.UpdateFailed? && consecutiveFailures == old(consecutiveFailures) + 1
        && lastSuccessfulUpdate == old(lastSuccessfulUpdate)
      ensures result.BreakerOpen? ==> r == UpdateFailed("Failed to update " + deviceName + ": " + BreakerOpenMessage)
      ensures result.CallFailed? ==>
        r == UpdateFailed("Failed to update " + deviceName + ": " + CallFailedPrefix + result.cause)
      ensures result.Batched? && result.outcome.Raised? ==>
        r == UpdateFailed("Failed to update " + deviceName + ": " + result.outcome.message)
    {
      if Succeeded(result) {
        consecutiveFailures := 0;
        lastSuccessfulUpdate := Some(done);
        r := Updated(ValueOf(result));
      } else {
        var err := match result
          case BreakerOpen => BreakerOpenMessage
          case CallFailed(cause) => CallFailedPrefix + cause
          case Batched(o, _) => o.message;
        consecutiveFailures := consecutiveFailures + 1;
        r := UpdateFailed("Failed to update " + deviceName + ": " + err);
      }
    }

    /** `is_available`: a success less than two update intervals ago. */
    function IsAvailable(now: int): (b: bool)
      reads this
      ensures lastSuccessfulUpdate.None? ==> !b
      ensures lastSuccessfulUpdate.Some? ==> (b <==> now - lastSuccessfulUpdate.value < 2 * updateIntervalMs)
    {
      match lastSuccessfulUpdate
      case None => false
      case Some(t) => now - t < 2 * updateIntervalMs
    }
  }
}
