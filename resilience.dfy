/** The resilience executor of `src/utils/resilience.ts`: an endpoint gate
    that decides whether latency and failures are injected, the injected
    failure itself, a bounded retry loop with capped exponential backoff, and
    the configuration merge used by the React hook.

    Sleeping is not performed: the delays the source would wait are returned
    as a sequence. `Math.random()` draws are parameters of type `Unit`. */
module Resilience {
  import opened Wrappers
  import opened Strings

  /** A draw of `Math.random()`: a real number in [0, 1). */
  type Unit = r: real | 0.0 <= r < 1.0 witness 0.0

  datatype ResilienceConfig = ResilienceConfig(
    latencyMin: int,
    latencyMax: int,
    errorRate: real,
    enabledEndpoints: seq<string>,
    retryAttempts: int,
    baseRetryDelay: int)

  const DefaultResilienceConfig := ResilienceConfig(
    300, 1200, 0.15, ["/book", "/cancel", "booking", "cancellation"], 3, 1000)

  /** The messages of the injected failures, in the source's order. */
  const SimulatedErrorMessages: seq<string> := [
    "Network timeout occurred",
    "Service temporarily unavailable",
    "Internal server error",
    "Rate limit exceeded",
    "Database connection failed"]

  // ---------------------------------------------------------------------
  // Endpoint gate

  /** `config.enabledEndpoints.some(e => name.toLowerCase().includes(e.toLowerCase()))`. */
  predicate IsEnabledOperation(name: string, config: ResilienceConfig)
  {
    exists i :: 0 <= i < |config.enabledEndpoints| &&
      Contains(Lower(name), Lower(config.enabledEndpoints[i]))
  }

  // ---------------------------------------------------------------------
  // One attempt under `withResilience`

  /** The random draws one `withResilience` call makes: the latency, the
      failure decision and the choice of message. */
  datatype Draws = Draws(latency: Unit, failure: Unit, pick: Unit)

  /** The latency `simulateLatency` would sleep: `random * (max - min) + min`. */
  function Latency(config: ResilienceConfig, d: Unit): real
  {
    d * ((config.latencyMax - config.latencyMin) as real) + config.latencyMin as real
  }

  /** `simulateRandomFailure`: throws when the draw is below the error rate. */
  function SimulatedFailure(config: ResilienceConfig, failure: Unit, pick: Unit): (r: Option<Error>)
    ensures r.Some? <==> failure < config.errorRate
    ensures r.Some? ==> exists k :: 0 <= k < |SimulatedErrorMessages| &&
                          r.value == Error("Simulated API Error: " + SimulatedErrorMessages[k])
  {
    if failure < config.errorRate then
      var k := (pick * 5.0).Floor;
      assert 0 <= k < 5;
      Some(Error("Simulated API Error: " + SimulatedErrorMessages[k]))
    else None
  }

  /** What one call of `withResilience(operation, name, config)` does:
      whether it was gated, the latency it asked for, whether it invoked the
      operation, and its outcome. `op` is the outcome the operation would
      have if invoked. */
  datatype Attempt<T> = Attempt(gated: bool, latency: Option<real>, invoked: bool, outcome: Result<T>)

  function WithResilience<T>(op: Result<T>, name: string, config: ResilienceConfig, d: Draws): (a: Attempt<T>)
    ensures a.gated == IsEnabledOperation(name, config)
    ensures !a.gated ==> a.latency.None? && a.invoked && a.outcome == op
    ensures a.gated ==> a.latency == Some(Latency(config, d.latency))
    ensures a.gated && d.failure < config.errorRate ==> !a.invoked && a.outcome.Fail? && a.outcome.error.Error?
    ensures a.gated && d.failure >= config.errorRate ==> a.invoked && a.outcome == op
  {
    if !IsEnabledOperation(name, config) then Attempt(false, None, true, op)
    else
      var latency := Some(Latency(config, d.latency));
      match SimulatedFailure(config, d.failure, d.pick)
      case Some(e) => Attempt(true, latency, false, Fail(e))
      case None => Attempt(true, latency, true, op)
  }

  // ---------------------------------------------------------------------
  // Retry with capped exponential backoff

  /** The options object of `withRetry`; `None` is an absent key. */
  datatype RetryOptions = RetryOptions(
    maxAttempts: Option<int>,
    baseDelay: Option<int>,
    maxDelay: Option<int>,
    exponentialBase: Option<int>)

  const NoRetryOptions := RetryOptions(None, None, None, None)

  /** The options after the destructuring defaults of `withRetry`. */
  datatype RetryPolicy = RetryPolicy(maxAttempts: int, baseDelay: int, maxDelay: int, exponentialBase: int)

  function OrDefault(o: Option<int>, d: int): (r: int)
    ensures r == if o.Some? then o.value else d
  {
    match o
    case Some(v) => v
    case None => d
  }

  function ResolveRetry(o: RetryOptions): (p: RetryPolicy)
    ensures o.maxAttempts.None? ==> p.maxAttempts == 3
    ensures o.baseDelay.None? ==> p.baseDelay == 1000
    ensures o.maxDelay.None? ==> p.maxDelay == 5000
    ensures o.exponentialBase.None? ==> p.exponentialBase == 2
    ensures o.maxAttempts.Some? ==> p.maxAttempts == o.maxAttempts.value
    ensures o.baseDelay.Some? ==> p.baseDelay == o.baseDelay.value
    ensures o.maxDelay.Some? ==> p.maxDelay == o.maxDelay.value
    ensures o.exponentialBase.Some? ==> p.exponentialBase == o.exponentialBase.value
  {
    RetryPolicy(
      OrDefault(o.maxAttempts, 3),
      OrDefault(o.baseDelay, 1000),
      OrDefault(o.maxDelay, 5000),
      OrDefault(o.exponentialBase, 2))
  }

  function Pow(b: int, e: nat): int
  {
    if e == 0 then 1 else b * Pow(b, e - 1)
  }

  function Min(a: int, b: int): (m: int)
    ensures m <= a && m <= b && (m == a || m == b)
  {
    if a <= b then a else b
  }

  /** The wait after failed attempt `attempt` (counted from 1). */
  function BackoffDelay(p: RetryPolicy, attempt: int): (d: int)
    requires attempt >= 1
    ensures d <= p.maxDelay
  {
    Min(p.baseDelay * Pow(p.exponentialBase, attempt - 1), p.maxDelay)
  }

  /** The waits after the first `n` failed attempts, in order. */
  function Schedule(p: RetryPolicy, n: nat): (s: seq<int>)
    ensures |s| == n
    ensures forall k :: 0 <= k < n ==> s[k] == BackoffDelay(p, k + 1)
  {
    if n == 0 then [] else Schedule(p, n - 1) + [BackoffDelay(p, n)]
  }

  /** The index of the first successful call among calls `k .. n-1`. */
  function FirstOkFrom<T>(fn: nat -> Result<T>, k: nat, n: int): (r: Option<nat>)
    decreases n - k
    ensures r.Some? ==> k <= r.value < n && fn(r.value).Ok? &&
                        forall j :: k <= j < r.value ==> fn(j).Fail?
    ensures r.None? ==> forall j :: k <= j < n ==> fn(j).Fail?
  {
    if k >= n then None
    else if fn(k).Ok? then Some(k)
    else FirstOkFrom(fn, k + 1, n)
  }

  function Max0(n: int): nat
  {
    if n < 0 then 0 else n
  }

  /** `withRetry(fn, options)`. Call `k` (counted from 0) of `fn` has outcome
      `fn(k)`. Returns the outcome, the number of calls made and the waits
      requested between them. */
  method WithRetry<T>(fn: nat -> Result<T>, options: RetryOptions)
    returns (r: Result<T>, calls: nat, waits: seq<int>)
    ensures var p := ResolveRetry(options);
            calls <= Max0(p.maxAttempts) &&
            (forall k :: 0 <= k < calls - 1 ==> fn(k).Fail?) &&
            match FirstOkFrom(fn, 0, p.maxAttempts)
            case Some(k) =>
              calls == k + 1 && r == fn(k) && waits == Schedule(p, k)
            case None =>
              calls == Max0(p.maxAttempts) &&
              r == (if p.maxAttempts >= 1 then fn(p.maxAttempts - 1) else Fail(NotAnError)) &&
              waits == Schedule(p, Max0(p.maxAttempts - 1))
  {
    var p := ResolveRetry(options);
    var lastError: Error := NotAnError;
    var attempt := 1;
    calls, waits := 0, [];
    while attempt <= p.maxAttempts
      invariant 1 <= attempt && (p.maxAttempts >= 1 ==> attempt <= p.maxAttempts)
      invariant p.maxAttempts < 1 ==> attempt == 1
      invariant attempt == 1 ==> lastError == NotAnError
      invariant calls == attempt - 1
      invariant forall k :: 0 <= k < attempt - 1 ==> fn(k).Fail?
      invariant FirstOkFrom(fn, 0, p.maxAttempts) == FirstOkFrom(fn, attempt - 1, p.maxAttempts)
      invariant waits == Schedule(p, attempt - 1)
      decreases p.maxAttempts - attempt
    {
      var outcome := fn(attempt - 1);
      calls := calls + 1;
      if outcome.Ok? {
        return outcome, calls, waits;
      }
      lastError := outcome.error;
      if attempt == p.maxAttempts {
        return Fail(lastError), calls, waits;
      }
      waits := waits + [BackoffDelay(p, attempt)];
      attempt := attempt + 1;
    }
    r := Fail(lastError);
  }

  /** `withResilienceAndRetry(operation, name, retryOptions, config)`: each
      retry attempt `k` is one `withResilience` call with draws `draws(k)`
      around an operation whose outcome, if invoked, is `op(k)`. */
  function ResilientAttempt<T>(op: nat -> Result<T>, name: string, config: ResilienceConfig,
                               draws: nat -> Draws): nat -> Result<T>
  {
    (k: nat) => WithResilience(op(k), name, config, draws(k)).outcome
  }

  method WithResilienceAndRetry<T>(op: nat -> Result<T>, name: string, options: RetryOptions,
                                   config: ResilienceConfig, draws: nat -> Draws)
    returns (r: Result<T>, calls: nat, waits: seq<int>)
    ensures var p := ResolveRetry(options);
            calls <= Max0(p.maxAttempts) && waits == Schedule(p, Max0(calls - 1))
    ensures !IsEnabledOperation(name, config) ==>
            var p := ResolveRetry(options);
            match FirstOkFrom(op, 0, p.maxAttempts)
            case Some(k) => calls == k + 1 && r == op(k)
            case None => calls == Max0(p.maxAttempts) &&
                         r == (if p.maxAttempts >= 1 then op(p.maxAttempts - 1) else Fail(NotAnError))
    ensures var p := ResolveRetry(options);
            var attempt := ResilientAttempt(op, name, config, draws);
            match FirstOkFrom(attempt, 0, p.maxAttempts)
            case Some(k) => calls == k + 1 && r == op(k) &&
                            (IsEnabledOperation(name, config) ==> draws(k).failure >= config.errorRate)
            case None => calls == Max0(p.maxAttempts) && r.Fail? &&
                         (p.maxAttempts >= 1 ==> r == attempt(p.maxAttempts - 1))
    ensures IsEnabledOperation(name, config) && (forall k :: draws(k).failure < config.errorRate) ==>
            r.Fail? && calls == Max0(ResolveRetry(options).maxAttempts)
  {
    var attempt := ResilientAttempt(op, name, config, draws);
    r, calls, waits := WithRetry(attempt, options);
    var p := ResolveRetry(options);
    var first := FirstOkFrom(attempt, 0, p.maxAttempts);
    if first.Some? {
      AttemptOk(op, name, config, draws, first.value);
    }
    if !IsEnabledOperation(name, config) {
      UngatedAttemptIsOperation(op, name, config, draws, 0, p.maxAttempts);
    } else if forall k :: draws(k).failure < config.errorRate {
      assert forall k :: attempt(k).Fail?;
    }
  }

  /** A resilient attempt succeeds exactly when no failure was injected
      into it and the operation succeeded, and its result is then the
      operation's. */
  lemma AttemptOk<T>(op: nat -> Result<T>, name: string, config: ResilienceConfig,
                     draws: nat -> Draws, k: nat)
    ensures ResilientAttempt(op, name, config, draws)(k).Ok? <==>
            (IsEnabledOperation(name, config) ==> draws(k).failure >= config.errorRate) && op(k).Ok?
    ensures ResilientAttempt(op, name, config, draws)(k).Ok? ==> ResilientAttempt(op, name, config, draws)(k) == op(k)
  {
    var a := WithResilience(op(k), name, config, draws(k));
    assert ResilientAttempt(op, name, config, draws)(k) == a.outcome;
  }

  /** When the gate does not match, the resilient attempt is the operation. */
  lemma {:induction false} UngatedAttemptIsOperation<T>(op: nat -> Result<T>, name: string,
      config: ResilienceConfig, draws: nat -> Draws, k: nat, n: int)
    requires !IsEnabledOperation(name, config)
    ensures FirstOkFrom(ResilientAttempt(op, name, config, draws), k, n) == FirstOkFrom(op, k, n)
    ensures forall j :: ResilientAttempt(op, name, config, draws)(j) == op(j)
    decreases n - k
  {
    if k < n {
      UngatedAttemptIsOperation(op, name, config, draws, k + 1, n);
    }
  }

  // ---------------------------------------------------------------------
  // Properties of the backoff schedule

  lemma {:induction false} PowMonotone(b: int, e: nat)
    requires b >= 1
    ensures 1 <= Pow(b, e) <= Pow(b, e + 1)
  {
    if e > 0 {
      PowMonotone(b, e - 1);
    }
  }

  /** With a base of at least 1 and a non-negative base delay, the waits
      never decrease and never exceed the cap. */
  lemma BackoffMonotone(p: RetryPolicy, attempt: int)
    requires attempt >= 1 && p.exponentialBase >= 1 && p.baseDelay >= 0
    ensures BackoffDelay(p, attempt) <= BackoffDelay(p, attempt + 1) <= p.maxDelay
  {
    PowMonotone(p.exponentialBase, attempt - 1);
    assert p.baseDelay * Pow(p.exponentialBase, attempt - 1)
        <= p.baseDelay * Pow(p.exponentialBase, attempt);
  }

  /** Under the default options a call that always fails is made three
      times, and the two waits between the calls are 1000 and 2000. */
  lemma DefaultScheduleOnTotalFailure()
    ensures ResolveRetry(NoRetryOptions) == RetryPolicy(3, 1000, 5000, 2)
    ensures Schedule(ResolveRetry(NoRetryOptions), 2) == [1000, 2000]
  {
  }

  /** The booking and cancellation services' options (3 attempts, 1000 base,
      5000 cap, default base 2) give the same waits: 1000 then 2000. */
  lemma ServiceScheduleOnTotalFailure()
    ensures Schedule(ResolveRetry(RetryOptions(Some(3), Some(1000), Some(5000), None)), 2) == [1000, 2000]
  {
  }

  lemma DefaultEndpointsLower()
    ensures forall i :: 0 <= i < |DefaultResilienceConfig.enabledEndpoints| ==>
              Lower(DefaultResilienceConfig.enabledEndpoints[i]) == DefaultResilienceConfig.enabledEndpoints[i]
  {
    LowerNoUpper("/book");
    LowerNoUpper("/cancel");
    LowerNoUpper("booking");
    LowerNoUpper("cancellation");
  }

  /** Under the default endpoints a name is not gated when its lower-case
      form has no '/' and lacks a letter that both "booking" and
      "cancellation" contain. */
  lemma DefaultGateMissingChars(name: string, c: char)
    requires '/' !in Lower(name) && c !in Lower(name)
    requires c in "booking" && c in "cancellation"
    ensures !IsEnabledOperation(name, DefaultResilienceConfig)
  {
    DefaultEndpointsLower();
    MissingCharNotContained(Lower(name), "/book", '/');
    MissingCharNotContained(Lower(name), "/cancel", '/');
    MissingCharNotContained(Lower(name), "booking", c);
    MissingCharNotContained(Lower(name), "cancellation", c);
  }

  /** An occurrence of an endpoint in the lower-cased name opens the gate. */
  lemma GateAt(name: string, config: ResilienceConfig, i: nat, k: nat)
    requires i < |config.enabledEndpoints|
    requires OccursAt(Lower(name), Lower(config.enabledEndpoints[i]), k)
    ensures IsEnabledOperation(name, config)
  {
    ContainsAt(Lower(name), Lower(config.enabledEndpoints[i]), k);
  }

  /** Under the default endpoints the hotel booking and cancellation
      operation names are gated. */
  lemma DefaultGateHotelWrites()
    ensures IsEnabledOperation("hotel-booking", DefaultResilienceConfig)
    ensures IsEnabledOperation("hotel-cancellation", DefaultResilienceConfig)
  {
    HotelBookingGated();
    HotelCancellationGated();
  }

  lemma HotelBookingGated()
    ensures IsEnabledOperation("hotel-booking", DefaultResilienceConfig)
  {
    DefaultEndpointsLower();
    LowerNoUpper("hotel-booking");
    assert "hotel-booking"[6..13] == "booking";
    GateAt("hotel-booking", DefaultResilienceConfig, 2, 6);
  }

  lemma HotelCancellationGated()
    ensures IsEnabledOperation("hotel-cancellation", DefaultResilienceConfig)
  {
    DefaultEndpointsLower();
    LowerNoUpper("hotel-cancellation");
    assert "hotel-cancellation"[6..18] == "cancellation";
    GateAt("hotel-cancellation", DefaultResilienceConfig, 3, 6);
  }

  /** Under the default endpoints the flight service names and the hotel
      search name are not gated: no latency or failure is injected there. */
  lemma DefaultGateOthers()
    ensures !IsEnabledOperation("bookFlight", DefaultResilienceConfig)
    ensures !IsEnabledOperation("cancelFlight", DefaultResilienceConfig)
    ensures !IsEnabledOperation("hotel-search", DefaultResilienceConfig)
  {
    BookFlightUngated();
    CancelFlightUngated();
    HotelSearchUngated();
  }

  lemma BookFlightUngated()
    ensures !IsEnabledOperation("bookFlight", DefaultResilienceConfig)
  {
    assert Lower("bookFlight") == "bookflight";
    DefaultGateMissingChars("bookFlight", 'n');
  }

  lemma CancelFlightUngated()
    ensures !IsEnabledOperation("cancelFlight", DefaultResilienceConfig)
  {
    assert Lower("cancelFlight") == "cancelflight";
    DefaultGateMissingChars("cancelFlight", 'o');
  }

  lemma HotelSearchUngated()
    ensures !IsEnabledOperation("hotel-search", DefaultResilienceConfig)
  {
    LowerNoUpper("hotel-search");
    DefaultGateMissingChars("hotel-search", 'n');
  }

  // ---------------------------------------------------------------------
  // `useResilience`: configuration merge

  /** A `Partial<ResilienceConfig>`; `None` is an absent key. */
  datatype PartialConfig = PartialConfig(
    latencyRange: Option<(int, int)>,
    errorRate: Option<real>,
    enabledEndpoints: Option<seq<string>>,
    retryAttempts: Option<int>,
    baseRetryDelay: Option<int>)

  /** `{ ...DEFAULT_RESILIENCE_CONFIG, ...config }`. */
  function MergeConfig(c: Option<PartialConfig>): (r: ResilienceConfig)
    ensures c.None? ==> r == DefaultResilienceConfig
    ensures c.Some? && c.value.latencyRange.Some? ==> (r.latencyMin, r.latencyMax) == c.value.latencyRange.value
    ensures c.Some? && c.value.latencyRange.None? ==> r.latencyMin == 300 && r.latencyMax == 1200
    ensures c.Some? && c.value.errorRate.Some? ==> r.errorRate == c.value.errorRate.value
    ensures c.Some? && c.value.errorRate.None? ==> r.errorRate == DefaultResilienceConfig.errorRate
    ensures c.Some? && c.value.enabledEndpoints.Some? ==> r.enabledEndpoints == c.value.enabledEndpoints.value
    ensures c.Some? && c.value.enabledEndpoints.None? ==> r.enabledEndpoints == DefaultResilienceConfig.enabledEndpoints
    ensures c.Some? && c.value.retryAttempts.Some? ==> r.retryAttempts == c.value.retryAttempts.value
    ensures c.Some? && c.value.retryAttempts.None? ==> r.retryAttempts == 3
    ensures c.Some? && c.value.baseRetryDelay.Some? ==> r.baseRetryDelay == c.value.baseRetryDelay.value
    ensures c.Some? && c.value.baseRetryDelay.None? ==> r.baseRetryDelay == 1000
  {
    match c
    case None => DefaultResilienceConfig
    case Some(pc) =>
      var d := DefaultResilienceConfig;
      ResilienceConfig(
        if pc.latencyRange.Some? then pc.latencyRange.value.0 else d.latencyMin,
        if pc.latencyRange.Some? then pc.latencyRange.value.1 else d.latencyMax,
        if pc.errorRate.Some? then pc.errorRate.value else d.errorRate,
        if pc.enabledEndpoints.Some? then pc.enabledEndpoints.value else d.enabledEndpoints,
        OrDefault(pc.retryAttempts, d.retryAttempts),
        OrDefault(pc.baseRetryDelay, d.baseRetryDelay))
  }

  /** The retry options `executeWithResilience` passes: attempts and base
      delay from the merged configuration, the cap and base left to the
      defaults of `withRetry`. */
  function ExecutorRetryOptions(config: ResilienceConfig): (o: RetryOptions)
    ensures ResolveRetry(o) ==
            RetryPolicy(config.retryAttempts, config.baseRetryDelay, 5000, 2)
  {
    RetryOptions(Some(config.retryAttempts), Some(config.baseRetryDelay), None, None)
  }

  /** Without overrides the hook retries exactly like a bare `withRetry`. */
  lemma HookDefaultsMatchRetryDefaults()
    ensures ResolveRetry(ExecutorRetryOptions(MergeConfig(None))) == ResolveRetry(NoRetryOptions)
  {
  }

  /** `executeWithResilience(operation, name)` of the hook. */
  method ExecuteWithResilience<T>(partial: Option<PartialConfig>, op: nat -> Result<T>, name: string,
                                  draws: nat -> Draws)
    returns (r: Result<T>, calls: nat, waits: seq<int>)
    ensures var config := MergeConfig(partial);
            calls <= Max0(config.retryAttempts) &&
            waits == Schedule(RetryPolicy(config.retryAttempts, config.baseRetryDelay, 5000, 2), Max0(calls - 1))
    ensures var config := MergeConfig(partial);
            var attempt := ResilientAttempt(op, name, config, draws);
            match FirstOkFrom(attempt, 0, config.retryAttempts)
            case Some(k) => calls == k + 1 && r == op(k)
            case None => calls == Max0(config.retryAttempts) && r.Fail?
    ensures (!IsEnabledOperation(name, MergeConfig(partial)) && op(0).Ok? &&
             MergeConfig(partial).retryAttempts >= 1) ==> calls == 1 && r == op(0)
  {
    var config := MergeConfig(partial);
    r, calls, waits := WithResilienceAndRetry(op, name, ExecutorRetryOptions(config), config, draws);
  }
}
