/** The value side of the actuator's health engine: configuration, probe
    outcomes, the per-probe records, the cache freshness test, the awaiting of
    all probe tasks, the map of records keyed by probe key and the overall
    verdict. Time is counted in nanoseconds. */
module HealthCheck {
  import opened Wrappers

  const NanosPerSecond: nat := 1_000_000_000

  /** `Duration::MAX`: `u64::MAX` seconds and 999_999_999 nanoseconds. */
  const MaxDuration: nat := 0xFFFF_FFFF_FFFF_FFFF * NanosPerSecond + (NanosPerSecond - 1)

  /** A `std::time::Duration`, in nanoseconds. */
  type Duration = d: nat | d <= MaxDuration

  /** The range of a `SystemTime` on a Unix host: a signed 64-bit second count
      and a nanosecond part, relative to `UNIX_EPOCH`. */
  const MinInstant: int := -0x8000_0000_0000_0000 * NanosPerSecond
  const MaxInstant: int := 0x7FFF_FFFF_FFFF_FFFF * NanosPerSecond + (NanosPerSecond - 1)

  /** A `SystemTime`, in nanoseconds after `UNIX_EPOCH`. */
  type Instant = t: int | MinInstant <= t <= MaxInstant

  const UnixEpoch: Instant := 0

  /** `ActuatorError`, the failure a probe reports. */
  datatype ActuatorError = ActuatorError(details: string)

  /** What awaiting a probe's future yields: `Result<(), ActuatorError>`. */
  datatype ProbeOutcome = Pass | Fail(err: ActuatorError)

  /** `HealthChecker`. Its `func` is not a field here: the outcome each call of
      it yields is supplied beside the checker list. */
  datatype HealthChecker = HealthChecker(key: string, isMandatory: bool)

  /** `HealthConfig`. `timeout` is carried but never read, as in `lib.rs`. */
  datatype HealthConfig = HealthConfig(cacheDuration: Duration, timeout: Duration, checkers: seq<HealthChecker>)

  /** The part of `Config` the health engine reads (the endpoint list is left out). */
  datatype Config = Config(env: string, name: string, port: bv16, version: string, health: HealthConfig)

  /** `HealthInfo`, the record built for one probe. */
  datatype HealthInfo = HealthInfo(key: string, isMandatory: bool, success: bool, error: string)

  /** What a health query returns: the records keyed by probe key and the
      overall verdict (the pair `(Rc<HashMap<String, HealthInfo>>, bool)`). */
  datatype Report = Report(data: map<string, HealthInfo>, ok: bool)

  /** The state of one `async move` block pushed onto `tasks`: the captured
      key and flag and the probe's future, here its eventual outcome. */
  datatype Task = Task(key: string, isMandatory: bool, fut: ProbeOutcome)

  // ---------------------------------------------------------------------------
  // Cache freshness

  /** `now.duration_since(stamp).unwrap_or_else(|_| Duration::MAX)`: the
      elapsed time, or the largest duration when the clock is behind the stamp. */
  function Age(now: Instant, stamp: Instant): (age: Duration)
    ensures stamp <= now ==> age + stamp == now
    ensures now < stamp ==> age == MaxDuration
  {
    if stamp <= now then now - stamp else MaxDuration
  }

  /** The test `get_from_cache` makes before it hands out the stored map. */
  predicate Fresh(now: Instant, stamp: Instant, cacheDuration: Duration)
  {
    Age(now, stamp) <= cacheDuration
  }

  /** A clock behind the stamp sees the cache as fresh only when the cache
      duration is itself `Duration::MAX`. */
  lemma ClockBehindStamp(now: Instant, stamp: Instant, cacheDuration: Duration)
    requires now < stamp
    ensures Fresh(now, stamp, cacheDuration) <==> cacheDuration == MaxDuration
  {
  }

  /** With the clock at or after the stamp, the cache is fresh exactly while
      no more than `cacheDuration` nanoseconds have passed. */
  lemma FreshWithinWindow(now: Instant, stamp: Instant, cacheDuration: Duration)
    requires stamp <= now
    ensures Fresh(now, stamp, cacheDuration) <==> now <= stamp + cacheDuration
  {
  }

  /** Freshness is lost once and for all: fresh at a later time implies fresh
      at every earlier time that is not behind the stamp. */
  lemma FreshEarlier(earlier: Instant, later: Instant, stamp: Instant, cacheDuration: Duration)
    requires stamp <= earlier <= later
    requires Fresh(later, stamp, cacheDuration)
    ensures Fresh(earlier, stamp, cacheDuration)
  {
  }

  // ---------------------------------------------------------------------------
  // One probe

  /** `Result::err`. */
  function ErrOf(outcome: ProbeOutcome): (r: Option<ActuatorError>)
    ensures r.Some? <==> outcome.Fail?
    ensures r.Some? ==> r.value == outcome.err
  {
    match outcome
    case Pass => None
    case Fail(e) => Some(e)
  }

  /** The `async move` block for one checker, as it is created in the loop. */
  function Spawn(checker: HealthChecker, fut: ProbeOutcome): Task
  {
    Task(checker.key, checker.isMandatory, fut)
  }

  /** Awaiting one task: the record takes `success: result.is_ok()` and
      `error: result.err().unwrap().details`, so a passing probe panics at the
      `unwrap`. */
  function Await(t: Task): (r: Completion<HealthInfo>)
    ensures r.Panic? <==> t.fut.Pass?
    ensures r.Done? ==> r.value.key == t.key && r.value.isMandatory == t.isMandatory
    ensures r.Done? ==> r.value.success == t.fut.Pass? && r.value.error == t.fut.err.details
  {
    var success := t.fut.Pass?;
    match Unwrap(ErrOf(t.fut))
    case Panic => Panic
    case Done(e) => Done(HealthInfo(t.key, t.isMandatory, success, e.details))
  }

  // ---------------------------------------------------------------------------
  // All probes

  /** The `tasks` vector the loop of `get_health_and_cache_if_success` builds. */
  function Tasks(checkers: seq<HealthChecker>, outcomes: seq<ProbeOutcome>): seq<Task>
    requires |outcomes| == |checkers|
  {
    seq(|checkers|, i requires 0 <= i < |checkers| => Spawn(checkers[i], outcomes[i]))
  }

  /** `join_all(tasks).await`: every task is awaited, the results come back in
      input order, and a panic in any task unwinds through the join. */
  function JoinAll(tasks: seq<Task>): (r: Completion<seq<HealthInfo>>)
    ensures r.Done? <==> forall i | 0 <= i < |tasks| :: Await(tasks[i]).Done?
    ensures r.Done? ==> |r.value| == |tasks|
    ensures r.Done? ==> forall i | 0 <= i < |tasks| :: Await(tasks[i]) == Done(r.value[i])
  {
    if tasks == [] then Done([])
    else
      match Await(tasks[0])
      case Panic => Panic
      case Done(first) =>
        match JoinAll(tasks[1..])
        case Panic => Panic
        case Done(rest) => Done([first] + rest)
  }

  /** The keys of a list of records. */
  function KeysOf(infos: seq<HealthInfo>): set<string>
  {
    set i | 0 <= i < |infos| :: infos[i].key
  }

  /** `infos[i]` is the last record in the list with its key. */
  predicate LastWithKey(infos: seq<HealthInfo>, i: nat)
    requires i < |infos|
  {
    forall j | i < j < |infos| :: infos[j].key != infos[i].key
  }

  /** `.map(|info| (info.key.clone(), info)).collect()` into a `HashMap`:
      the records are inserted in list order, so a later record replaces an
      earlier one under the same key (see `CollectKeys` and `CollectLastWins`). */
  function Collect(infos: seq<HealthInfo>): (m: map<string, HealthInfo>)
    ensures forall k | k in m :: m[k].key == k
  {
    if infos == [] then map[]
    else
      var last := infos[|infos| - 1];
      Collect(infos[..|infos| - 1])[last.key := last]
  }

  /** The collected map has exactly the keys of the records. */
  lemma {:induction false} CollectKeys(infos: seq<HealthInfo>)
    ensures Collect(infos).Keys == KeysOf(infos)
  {
    if infos != [] {
      var n := |infos|;
      var prefix := infos[..n - 1];
      CollectKeys(prefix);
      forall k | k in KeysOf(infos) ensures k in KeysOf(prefix) + {infos[n - 1].key} {
        var i :| 0 <= i < n && infos[i].key == k;
        if i < n - 1 { assert prefix[i] == infos[i]; }
      }
      forall k | k in KeysOf(prefix) ensures k in KeysOf(infos) {
        var i :| 0 <= i < n - 1 && prefix[i].key == k;
        assert infos[i] == prefix[i];
      }
    }
  }

  /** The last record with a given key is the one the map keeps. */
  lemma {:induction false} CollectLastWins(infos: seq<HealthInfo>, i: nat)
    requires i < |infos| && LastWithKey(infos, i)
    ensures infos[i].key in Collect(infos) && Collect(infos)[infos[i].key] == infos[i]
  {
    var n := |infos|;
    if i < n - 1 {
      var prefix := infos[..n - 1];
      assert LastWithKey(prefix, i) by {
        forall j | i < j < n - 1 ensures prefix[j].key != prefix[i].key {
          assert prefix[j] == infos[j];
        }
      }
      CollectLastWins(prefix, i);
      assert infos[n - 1].key != infos[i].key;
    }
  }

  /** Every entry of the collected map is the last record with its key. */
  lemma {:induction false} CollectEntry(infos: seq<HealthInfo>, k: string)
    requires k in Collect(infos)
    ensures exists i | 0 <= i < |infos| :: infos[i].key == k && LastWithKey(infos, i) && Collect(infos)[k] == infos[i]
  {
    CollectKeys(infos);
    var i :| 0 <= i < |infos| && infos[i].key == k;
    while !LastWithKey(infos, i)
      invariant 0 <= i < |infos| && infos[i].key == k
      decreases |infos| - i
    {
      var next :| i < next < |infos| && infos[next].key == k;
      i := next;
    }
    CollectLastWins(infos, i);
  }

  /** `.values().filter(|info| info.is_mandatory).all(|info| info.success)`. */
  function Verdict(m: map<string, HealthInfo>): (ok: bool)
    ensures ok <==> forall k | k in m && m[k].isMandatory :: m[k].success
  {
    forall info | info in m.Values && info.isMandatory :: info.success
  }

  /** One mandatory entry without success makes the verdict false. */
  lemma MandatoryFailureFails(m: map<string, HealthInfo>, k: string)
    requires k in m && m[k].isMandatory && !m[k].success
    ensures !Verdict(m)
  {
  }

  /** Adding or replacing an optional entry, where the key held no mandatory
      entry, leaves the verdict as it was. */
  lemma OptionalEntryIgnored(m: map<string, HealthInfo>, info: HealthInfo)
    requires !info.isMandatory
    requires info.key in m ==> !m[info.key].isMandatory
    ensures Verdict(m[info.key := info]) == Verdict(m)
  {
    var m' := m[info.key := info];
    if Verdict(m) {
      forall k | k in m' && m'[k].isMandatory ensures m'[k].success {
        assert k != info.key && m'[k] == m[k];
      }
    } else {
      var k :| k in m && m[k].isMandatory && !m[k].success;
      assert k != info.key && m'[k] == m[k];
    }
  }

  /** Over records with distinct keys, the verdict is the AND of `success`
      over the mandatory records. */
  lemma {:induction false} VerdictOfDistinct(infos: seq<HealthInfo>)
    requires forall i, j | 0 <= i < j < |infos| :: infos[i].key != infos[j].key
    ensures Verdict(Collect(infos)) <==> forall i | 0 <= i < |infos| && infos[i].isMandatory :: infos[i].success
  {
    var m := Collect(infos);
    forall i | 0 <= i < |infos| ensures infos[i].key in m && m[infos[i].key] == infos[i] {
      CollectLastWins(infos, i);
    }
    CollectKeys(infos);
    forall k | k in m ensures exists i | 0 <= i < |infos| :: infos[i].key == k && m[k] == infos[i] {
      var i :| 0 <= i < |infos| && infos[i].key == k;
    }
  }

  /** With a repeated key, a failing mandatory record is hidden by a later
      optional record under the same key: the verdict is true. */
  lemma ShadowedFailureIgnored()
    ensures Verdict(Collect([HealthInfo("db", true, false, "down"), HealthInfo("db", false, false, "slow")]))
  {
    var infos := [HealthInfo("db", true, false, "down"), HealthInfo("db", false, false, "slow")];
    CollectLastWins(infos, 1);
    CollectKeys(infos);
    assert KeysOf(infos) == {"db"};
    assert Collect(infos) == map["db" := infos[1]];
  }

  // ---------------------------------------------------------------------------
  // Aggregation and the health query

  /** A probe outcome list in which every probe failed. */
  predicate AllFailed(outcomes: seq<ProbeOutcome>)
  {
    forall i | 0 <= i < |outcomes| :: outcomes[i].Fail?
  }

  /** The keys of the configured checkers. */
  function CheckerKeys(checkers: seq<HealthChecker>): set<string>
  {
    set i | 0 <= i < |checkers| :: checkers[i].key
  }

  /** `checkers[i]` is the last checker with its key. */
  predicate LastChecker(checkers: seq<HealthChecker>, i: nat)
    requires i < |checkers|
  {
    forall j | i < j < |checkers| :: checkers[j].key != checkers[i].key
  }

  /** What `get_health_and_cache_if_success` computes from one outcome per
      checker. */
  function Aggregate(checkers: seq<HealthChecker>, outcomes: seq<ProbeOutcome>): Completion<Report>
    requires |outcomes| == |checkers|
  {
    match JoinAll(Tasks(checkers, outcomes))
    case Panic => Panic
    case Done(results) =>
      var newData := Collect(results);
      Done(Report(newData, Verdict(newData)))
  }

  /** Aggregation panics exactly when some probe passed. */
  lemma AggregatePanicsIffPass(checkers: seq<HealthChecker>, outcomes: seq<ProbeOutcome>)
    requires |outcomes| == |checkers|
    ensures Aggregate(checkers, outcomes).Panic? <==> !AllFailed(outcomes)
  {
    var tasks := Tasks(checkers, outcomes);
    assert forall i | 0 <= i < |tasks| :: tasks[i].fut == outcomes[i];
  }

  /** When every probe failed, the report holds exactly one entry per checker
      key, the entry of the last checker with that key, built from that
      checker and its failure's details. */
  lemma {:induction false} AggregateEntries(checkers: seq<HealthChecker>, outcomes: seq<ProbeOutcome>)
    requires |outcomes| == |checkers|
    requires AllFailed(outcomes)
    ensures Aggregate(checkers, outcomes).Done?
    ensures Aggregate(checkers, outcomes).value.data.Keys == CheckerKeys(checkers)
    ensures forall i | 0 <= i < |checkers| && LastChecker(checkers, i) ::
      Aggregate(checkers, outcomes).value.data[checkers[i].key]
        == HealthInfo(checkers[i].key, checkers[i].isMandatory, false, outcomes[i].err.details)
  {
    AggregatePanicsIffPass(checkers, outcomes);
    var tasks := Tasks(checkers, outcomes);
    var infos := JoinAll(tasks).value;
    assert |infos| == |checkers|;
    forall i | 0 <= i < |checkers|
      ensures infos[i] == HealthInfo(checkers[i].key, checkers[i].isMandatory, false, outcomes[i].err.details)
    {
      assert tasks[i] == Spawn(checkers[i], outcomes[i]);
      assert Await(tasks[i]) == Done(infos[i]);
    }
    CollectKeys(infos);
    assert KeysOf(infos) == CheckerKeys(checkers);
    forall i | 0 <= i < |checkers| && LastChecker(checkers, i)
      ensures Collect(infos)[checkers[i].key] == infos[i]
    {
      assert LastWithKey(infos, i);
      CollectLastWins(infos, i);
    }
  }

  /** The verdict a completed aggregation reports is true exactly when no
      entry of its map belongs to a mandatory checker: every entry is a
      failure, because a passing probe never gets that far. */
  lemma AggregateVerdict(checkers: seq<HealthChecker>, outcomes: seq<ProbeOutcome>)
    requires |outcomes| == |checkers|
    requires Aggregate(checkers, outcomes).Done?
    ensures forall k | k in Aggregate(checkers, outcomes).value.data :: !Aggregate(checkers, outcomes).value.data[k].success
    ensures Aggregate(checkers, outcomes).value.ok
      <==> forall i | 0 <= i < |checkers| && LastChecker(checkers, i) :: !checkers[i].isMandatory
  {
    AggregatePanicsIffPass(checkers, outcomes);
    AggregateEntries(checkers, outcomes);
    var data := Aggregate(checkers, outcomes).value.data;
    forall k | k in data ensures !data[k].success && data[k].isMandatory == checkers[LastIndexOf(checkers, k)].isMandatory {
      var i := LastIndexOf(checkers, k);
    }
    forall i | 0 <= i < |checkers| && LastChecker(checkers, i)
      ensures checkers[i].key in data && data[checkers[i].key].isMandatory == checkers[i].isMandatory
    {
    }
  }

  /** The index of the last checker with key `k`. */
  function LastIndexOf(checkers: seq<HealthChecker>, k: string): (i: nat)
    requires k in CheckerKeys(checkers)
    ensures i < |checkers| && checkers[i].key == k && LastChecker(checkers, i)
  {
    var last := checkers[|checkers| - 1];
    if last.key == k then |checkers| - 1
    else
      assert k in CheckerKeys(checkers[..|checkers| - 1]) by {
        var j :| 0 <= j < |checkers| && checkers[j].key == k;
        assert checkers[..|checkers| - 1][j] == checkers[j];
      }
      LastIndexOf(checkers[..|checkers| - 1], k)
  }

  /** What `InnerHealth::get` answers, given the stored stamp and map: a fresh
      cache gives the stored map with `true`, anything else runs aggregation.
      The probes are run only on a miss. */
  function Answer(cfg: HealthConfig, lastCheckStamp: Instant, data: map<string, HealthInfo>,
                  now: Instant, outcomes: seq<ProbeOutcome>): Completion<Report>
    requires |outcomes| == |cfg.checkers|
  {
    if Fresh(now, lastCheckStamp, cfg.cacheDuration) then Done(Report(data, true))
    else Aggregate(cfg.checkers, outcomes)
  }

  /** A cache hit reports `true` even when the stored map holds a failed
      mandatory entry; the probe outcomes play no part. */
  lemma CacheHitReportsTrue(cfg: HealthConfig, lastCheckStamp: Instant, data: map<string, HealthInfo>,
                            now: Instant, outcomes: seq<ProbeOutcome>, k: string)
    requires |outcomes| == |cfg.checkers|
    requires Fresh(now, lastCheckStamp, cfg.cacheDuration)
    requires k in data && data[k].isMandatory && !data[k].success
    ensures Answer(cfg, lastCheckStamp, data, now, outcomes) == Done(Report(data, true))
    ensures !Verdict(data)
  {
  }

  /** Two queries against the same stored state agree: either both are hits
      and return the stored map, or both are misses and, given the same probe
      outcomes, return the same aggregation. */
  lemma RepeatedQueriesAgree(cfg: HealthConfig, lastCheckStamp: Instant, data: map<string, HealthInfo>,
                             now1: Instant, now2: Instant, outcomes: seq<ProbeOutcome>)
    requires |outcomes| == |cfg.checkers|
    requires Fresh(now1, lastCheckStamp, cfg.cacheDuration) == Fresh(now2, lastCheckStamp, cfg.cacheDuration)
    ensures Answer(cfg, lastCheckStamp, data, now1, outcomes) == Answer(cfg, lastCheckStamp, data, now2, outcomes)
  {
  }

  /** The configured `timeout` never changes an answer. */
  lemma TimeoutUnused(cfg: HealthConfig, timeout: Duration, lastCheckStamp: Instant, data: map<string, HealthInfo>,
                      now: Instant, outcomes: seq<ProbeOutcome>)
    requires |outcomes| == |cfg.checkers|
    ensures Answer(cfg.(timeout := timeout), lastCheckStamp, data, now, outcomes)
      == Answer(cfg, lastCheckStamp, data, now, outcomes)
  {
  }

  /** The state a new `InnerHealth` starts in (stamp `UNIX_EPOCH`, empty map)
      answers an empty map with `true` exactly when `now` is within
      `cacheDuration` of the epoch (or, before the epoch, when the duration is
      `Duration::MAX`); otherwise it aggregates. */
  lemma InitialStateAnswer(cfg: HealthConfig, now: Instant, outcomes: seq<ProbeOutcome>)
    requires |outcomes| == |cfg.checkers|
    ensures Answer(cfg, UnixEpoch, map[], now, outcomes)
      == if (0 <= now && now <= cfg.cacheDuration) || (now < 0 && cfg.cacheDuration == MaxDuration)
         then Done(Report(map[], true))
         else Aggregate(cfg.checkers, outcomes)
  {
  }

  /** A config with a passing mandatory "db" probe and an optional "cache"
      probe failing with "conn refused": the query panics on a miss. */
  lemma MixedScenarioPanics()
    ensures Aggregate([HealthChecker("db", true), HealthChecker("cache", false)],
                      [Pass, Fail(ActuatorError("conn refused"))]) == Panic
  {
    AggregatePanicsIffPass([HealthChecker("db", true), HealthChecker("cache", false)],
                           [Pass, Fail(ActuatorError("conn refused"))]);
  }

  /** Both probes failing: the mandatory "db" failure makes the verdict false
      and each entry carries its failure's details. */
  lemma FailingScenario()
    ensures Aggregate([HealthChecker("db", true), HealthChecker("cache", false)],
                      [Fail(ActuatorError("timeout")), Fail(ActuatorError("conn refused"))])
      == Done(Report(map["db" := HealthInfo("db", true, false, "timeout"),
                         "cache" := HealthInfo("cache", false, false, "conn refused")], false))
  {
    var checkers := [HealthChecker("db", true), HealthChecker("cache", false)];
    var outcomes := [Fail(ActuatorError("timeout")), Fail(ActuatorError("conn refused"))];
    AggregateEntries(checkers, outcomes);
    assert LastChecker(checkers, 0) && LastChecker(checkers, 1);
    assert CheckerKeys(checkers) == {"db", "cache"};
    var data := Aggregate(checkers, outcomes).value.data;
    assert data == map["db" := HealthInfo("db", true, false, "timeout"),
                       "cache" := HealthInfo("cache", false, false, "conn refused")];
    MandatoryFailureFails(data, "db");
  }
}
