/** The stateful side of the actuator's health engine: the lock-guarded cache
    cell `Health`, `InnerHealth` with its cache lookup, aggregation and query,
    and the `Actuator` facade. No method here has a `modifies` clause: after
    construction nothing writes the cache, exactly as in `lib.rs`. */
module Actuator {
  import opened Wrappers
  import opened HealthCheck

  /** `Health`, the cell behind `Arc<RwLock<..>>`: when the cached map was
      computed and the map itself. */
  class Health {
    var lastCheckStamp: Instant
    var data: map<string, HealthInfo>

    /** The cell `InnerHealth::new` creates: stamped `UNIX_EPOCH`, empty. */
    constructor ()
      ensures lastCheckStamp == UnixEpoch && data == map[]
    {
      lastCheckStamp := UnixEpoch;
      data := map[];
    }
  }

  /** `InnerHealth`: the health configuration and the shared cache cell. */
  class InnerHealth {
    const cfg: HealthConfig
    const health: Health

    /** `InnerHealth::new`: copies `cfg.health` and starts from an empty cell
        stamped `UNIX_EPOCH`. */
    constructor (cfg: Config)
      ensures this.cfg == cfg.health
      ensures fresh(health) && health.lastCheckStamp == UnixEpoch && health.data == map[]
    {
      this.cfg := cfg.health;
      health := new Health();
    }

    /** `get_from_cache`, with the clock reading `SystemTime::now()` passed in
        as `now`: the stored map when its age is within the cache duration. */
    method GetFromCache(now: Instant) returns (r: Option<map<string, HealthInfo>>)
      ensures r.Some? <==> Age(now, health.lastCheckStamp) <= cfg.cacheDuration
      ensures r.Some? ==> r.value == health.data
    {
      if Age(now, health.lastCheckStamp) <= cfg.cacheDuration {
        r := Some(health.data);
      } else {
        r := None;
      }
    }

    /** `get_health_and_cache_if_success`, with `outcomes[i]` the result the
        future of `cfg.checkers[i].func` yields. One task is pushed per
        checker, in order; then all are awaited, collected by key and judged.
        Despite its name it stores nothing. */
    method GetHealthAndCacheIfSuccess(outcomes: seq<ProbeOutcome>) returns (r: Completion<Report>)
      requires |outcomes| == |cfg.checkers|
      ensures r == Aggregate(cfg.checkers, outcomes)
      ensures r.Panic? <==> !AllFailed(outcomes)
      ensures r.Done? ==> r.value.data.Keys == CheckerKeys(cfg.checkers)
    {
      var tasks: seq<Task> := [];
      for i := 0 to |cfg.checkers|
        invariant |tasks| == i
        invariant forall j | 0 <= j < i :: tasks[j] == Spawn(cfg.checkers[j], outcomes[j])
      {
        var checker := cfg.checkers[i];
        var fut := outcomes[i];
        tasks := tasks + [Task(checker.key, checker.isMandatory, fut)];
      }
      assert tasks == Tasks(cfg.checkers, outcomes);
      var results := JoinAll(tasks);
      match results {
        case Panic =>
          r := Panic;
        case Done(infos) =>
          var newData := Collect(infos);
          var ok := Verdict(newData);
          r := Done(Report(newData, ok));
      }
      AggregatePanicsIffPass(cfg.checkers, outcomes);
      if r.Done? {
        AggregateEntries(cfg.checkers, outcomes);
      }
    }

    /** `InnerHealth::get`: a cache hit answers the stored map with `true`, a
        miss answers a fresh aggregation. */
    method Get(now: Instant, outcomes: seq<ProbeOutcome>) returns (r: Completion<Report>)
      requires |outcomes| == |cfg.checkers|
      ensures r == Answer(cfg, health.lastCheckStamp, health.data, now, outcomes)
    {
      var cached := GetFromCache(now);
      match cached {
        case Some(data) =>
          r := Done(Report(data, true));
        case None =>
          r := GetHealthAndCacheIfSuccess(outcomes);
      }
    }
  }

  /** `Actuator`, reduced to what the health endpoint uses. */
  class Actuator {
    const cfg: Config
    const health: InnerHealth

    /** `Actuator::new`: keeps the configuration and builds `InnerHealth` from it. */
    constructor (cfg: Config)
      ensures this.cfg == cfg && fresh(health) && fresh(health.health)
      ensures health.cfg == cfg.health
      ensures health.health.lastCheckStamp == UnixEpoch && health.health.data == map[]
    {
      this.cfg := cfg;
      health := new InnerHealth(cfg);
    }

    /** `Actuator::health`: delegates to `InnerHealth::get`. */
    method Health(now: Instant, outcomes: seq<ProbeOutcome>) returns (r: Completion<Report>)
      requires |outcomes| == |health.cfg.checkers|
      ensures r == Answer(health.cfg, health.health.lastCheckStamp, health.health.data, now, outcomes)
    {
      r := health.Get(now, outcomes);
    }
  }
}
