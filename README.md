# Health aggregation and cache of rust-actuator, modelled in Dafny

The actuator crate answers a health query by running one probe for each
configured `HealthChecker`. It turns each probe result into a `HealthInfo`
record, collects the records into a map keyed by checker key, and reports the
AND of `success` over the mandatory entries. Before it does so it looks at a
cache cell (`Health`: a timestamp and a map). If the cell's age is within
`cache_duration`, the query returns the stored map together with `true`.

The model has three files:

- `wrappers.dfy` (module `Wrappers`): `Option`, plus `Completion` (a value or
  a panic) and `Unwrap`.
- `health_check.dfy` (module `HealthCheck`): the values and pure functions.
  - The configuration and record types.
  - Durations and instants, in nanoseconds.
  - `Age` and `Fresh`: the freshness test of `get_from_cache`.
  - `Await`: one `async move` block.
  - `JoinAll`: `join_all`.
  - `Collect`: collecting into a `HashMap`.
  - `Verdict`: the mandatory-only AND.
  - `Aggregate` and `Answer`: what aggregation and the query compute.
  - The lemmas about all of these.
- `actuator.dfy` (module `Actuator`): the classes.
  - `Health`: the cache cell.
  - `InnerHealth`: `new`, `get_from_cache`, `get_health_and_cache_if_success`
    (a loop that pushes one task per checker) and `get`.
  - `Actuator`: `new` and `health`.
  - Each method is proved against the functions of `HealthCheck`.

How the outside world is represented:

- The clock (`SystemTime::now()`) is the parameter `now`.
- The probe callables are replaced by `outcomes`, one outcome per checker in
  checker order. `outcomes[i]` is what the future of `checkers[i].func`
  yields.
- The concurrent `join_all` becomes a sequential computation.
  `join_all` yields results in input order, so the records are the same.

Behaviour the model keeps exactly as the code has it:

- **A passing probe panics.** The record's `error` is
  `result.err().unwrap().details`, and that unwraps `None` when the probe
  succeeded (actuator/src/lib.rs:208). So a query that misses the cache
  panics as soon as any probe passes (`AggregatePanicsIffPass`,
  `MixedScenarioPanics`). A completed aggregation therefore holds only
  failed entries. Its verdict is true exactly when no entry is mandatory
  (`AggregateVerdict`). The model writes no empty-string default for
  `error`.
- **Nothing writes the cache after construction.** No method has a
  `modifies` clause. Despite its name, `GetHealthAndCacheIfSuccess` stores
  nothing.
- **The initial stamp is `UNIX_EPOCH`, not a "never computed" marker.** So a
  new cache counts as fresh when `now` is within `cache_duration` of the
  epoch (`InitialStateAnswer`).
- **`timeout` is never read** (`TimeoutUnused`).
- **A cache hit reports `true`**, whatever the stored entries say
  (`CacheHitReportsTrue`).
- **Duplicate checker keys are not rejected.** The later checker's record
  replaces the earlier one (`CollectLastWins`). This can hide a failing
  mandatory entry (`ShadowedFailureIgnored`).

The code has no step that publishes a result to the cache, no per-probe
timeout, no "never computed" marker of infinite age and no rejection of
duplicate keys. The model has none of these either.

In the model, time is measured in nanoseconds:

- `Duration` runs from 0 to `Duration::MAX`, which is `u64::MAX` seconds plus
  999 999 999 nanoseconds.
- `Instant` covers the range of a Unix `SystemTime`: a signed 64-bit second
  count with a nanosecond part.
- Within that range, `duration_since` never overflows.

## Model

| member | source | states |
|---|---|---|
| `HealthCheck.Age` | actuator/src/lib.rs:188-189 | The age is `now - stamp` when the clock is at or past the stamp, and `Duration::MAX` when it is behind. |
| `HealthCheck.ClockBehindStamp` | actuator/src/lib.rs:188-189 | When the clock is behind the stamp, the cache is fresh if and only if `cache_duration` is `Duration::MAX`. |
| `HealthCheck.FreshWithinWindow` | actuator/src/lib.rs:186-194 | When the clock is not behind the stamp, the cache is fresh if and only if `now <= stamp + cache_duration`. |
| `HealthCheck.FreshEarlier` | actuator/src/lib.rs:188-189 | If the cache is fresh at some time, it is fresh at every earlier time not behind the stamp. |
| `Wrappers.Unwrap` | actuator/src/lib.rs:208 | `Option::unwrap` panics if and only if the option is `None`; otherwise it yields the contained value. |
| `HealthCheck.ErrOf` | actuator/src/lib.rs:208 | `Result::err` gives a value if and only if the probe failed, and that value is the probe's own `ActuatorError`. |
| `HealthCheck.Await` | actuator/src/lib.rs:202-210 | Awaiting a task panics if and only if its probe passed. Otherwise the record copies the checker's key and mandatory flag, sets `success` to whether the probe passed, and sets `error` to the failure's details. |
| `HealthCheck.JoinAll` | actuator/src/lib.rs:212 | The join completes if and only if every task completes. The result then holds one record per task, in task order, each the result of awaiting that task. |
| `HealthCheck.Collect` | actuator/src/lib.rs:213-215 | Every entry of the collected map is stored under its own record's key. |
| `HealthCheck.CollectKeys` | actuator/src/lib.rs:213-215 | The collected map's keys are exactly the keys of the records. |
| `HealthCheck.CollectLastWins` | actuator/src/lib.rs:213-215 | The last record with a given key is the value the map keeps for that key. |
| `HealthCheck.CollectEntry` | actuator/src/lib.rs:213-215 | Every map entry is the last record with its key. |
| `HealthCheck.Verdict` | actuator/src/lib.rs:216-219 | The verdict is true if and only if every mandatory entry of the map has `success`. So it is true when there is no mandatory entry. |
| `HealthCheck.MandatoryFailureFails` | actuator/src/lib.rs:216-219 | One mandatory entry without success makes the verdict false. |
| `HealthCheck.OptionalEntryIgnored` | actuator/src/lib.rs:216-219 | Adding or replacing an optional entry, under a key with no mandatory entry, never changes the verdict. |
| `HealthCheck.VerdictOfDistinct` | actuator/src/lib.rs:212-219 | With distinct keys, the verdict of the collected map is the AND of `success` over the mandatory records. |
| `HealthCheck.ShadowedFailureIgnored` | actuator/src/lib.rs:213-219 | Example: a failing mandatory record followed by an optional record under the same key gives a true verdict. |
| `HealthCheck.AggregatePanicsIffPass` | actuator/src/lib.rs:202-212 | Aggregation panics if and only if some probe passed. |
| `HealthCheck.AggregateEntries` | actuator/src/lib.rs:196-221 | When every probe failed, aggregation completes. Its map's keys are exactly the checker keys. The last checker with each key supplies that key's entry, built from the checker's key and flag, `success = false`, and the failure's details. |
| `HealthCheck.AggregateVerdict` | actuator/src/lib.rs:196-221 | A completed aggregation holds only unsuccessful entries. Its verdict is true if and only if no key's last checker is mandatory. |
| `HealthCheck.CacheHitReportsTrue` | actuator/src/lib.rs:223-225 | On a fresh cache the answer is the stored map with `true`, even though the stored map's own verdict is false. |
| `HealthCheck.RepeatedQueriesAgree` | actuator/src/lib.rs:223-228 | Two queries against the same stored state with the same freshness agree, given the same probe outcomes. |
| `HealthCheck.TimeoutUnused` | actuator/src/lib.rs:44 | Changing the configured `timeout` never changes an answer. |
| `HealthCheck.InitialStateAnswer` | actuator/src/lib.rs:176-194 | A new cell (stamp `UNIX_EPOCH`, empty map) answers the empty map with `true` exactly when `now` is within `cache_duration` of the epoch, or is before the epoch with `cache_duration = Duration::MAX`. Otherwise it aggregates. |
| `HealthCheck.MixedScenarioPanics` | actuator/src/lib.rs:202-212 | Example: a passing mandatory "db" probe with an optional "cache" probe failing "conn refused" makes aggregation panic. |
| `HealthCheck.FailingScenario` | actuator/src/lib.rs:196-221 | Example: "db" (mandatory) and "cache" (optional) both failing give both entries with their details and verdict `false`. |
| `Actuator.Health.constructor` | actuator/src/lib.rs:179-182 | The cell starts stamped `UNIX_EPOCH` with an empty map. |
| `Actuator.InnerHealth.constructor` | actuator/src/lib.rs:176-184 | `cfg` is `cfg.health` unchanged. The new cell is stamped `UNIX_EPOCH` and holds an empty map. |
| `Actuator.InnerHealth.GetFromCache` | actuator/src/lib.rs:186-194 | Returns `Some` exactly when the age of the stored stamp is within `cache_duration`, and then holds the stored map itself. |
| `Actuator.InnerHealth.GetHealthAndCacheIfSuccess` | actuator/src/lib.rs:196-221 | The loop of pushes builds one task per checker, in order, and the result equals `Aggregate`. The result panics if and only if some probe passed. On completion the map's keys are the checker keys. Nothing is stored. |
| `Actuator.InnerHealth.Get` | actuator/src/lib.rs:223-228 | The answer is the stored map with `true` on a fresh cache, and the aggregation otherwise. The cell is not changed. |
| `Actuator.Actuator.constructor` | actuator/src/lib.rs:232-239 | Keeps the configuration and builds `InnerHealth` from it, with a new cell stamped `UNIX_EPOCH` and holding an empty map. |
| `Actuator.Actuator.Health` | actuator/src/lib.rs:249-251 | Answers what the inner `get` answers on the current cell. |

## Left out

- Concurrency: the `join_all` fan-out, the `RwLock`, and `Arc`/`Rc` sharing. Probes are given outcomes, and the fan-out is sequential, in input order, which is the order `join_all` returns. Lock poisoning cannot happen because no code path writes the cell.
- The probe callables (`HealthChecker.func`) and the clock are outside the model. They become the `outcomes` and `now` parameters.
- Probe timeouts: `HealthConfig.timeout` is never read, so the model has no timeout failure. Every probe future is assumed to resolve. In the Rust code a probe that never resolves hangs the query, because `join_all` has no deadline; the model cannot express that.
- `Config.endpoints` and `Endpoint`, `ping`, `info`, `env` and `Info::new`: these are data accessors, environment lookups and clock reads, with no logic.
- `metrics`: system-information calls and a floating-point CPU figure.
- `shutdown` and `thread_dump`: process exit and backtrace capture, which are foreign calls.
- The `Display` and `Default` impls of `ActuatorError`: message formatting only.
- actuator/src/env.rs: thin wrappers over environment-variable reads with an empty default.
