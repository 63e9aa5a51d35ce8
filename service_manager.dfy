/**
  The ServiceManagerMiu plugin: it reads six job settings out of its
  configuration, registers one scheduled job per non-empty setting with the
  host, and, on hosts above v2.5.1, removes the host's own built-in copies
  of those jobs. The host (its scheduler, its configuration store and
  the job callables) is outside the model: what the plugin asks of it is
  returned as a list of `HostCall`s.
*/
module ServiceManager {
  import opened Wrappers
  import opened Builtins
  import opened Version

  /**
    The host version from which built-in jobs are registered under a plugin
    prefix. The plugin removes them only on hosts strictly above it, so a
    v2.5.1 host (with any build number) keeps its built-in copies; see
    `MigrationBoundary`.
  */
  const MigrationVersion: string := "v2.5.1"

  /** The components of `MigrationVersion`. */
  const MigrationParts: seq<nat> := [2, 5, 1]

  /** `is_version_greater_than(app_version, "v2.5.1")`, stated on the parsed components. */
  function MigrationGreater(appVersion: string): (r: Option<bool>)
    ensures r.None? <==> Parse(appVersion).None?
    ensures r == Some(true) ==> !SameParts(Parse(appVersion).value, MigrationParts)
  {
    match Parse(appVersion)
    case Some(parts) => Some(PartsGreater(parts, MigrationParts))
    case None => None
  }

  /**
    The boundary of the migration test: v2.5.1 itself, with or without a build
    suffix, is not above v2.5.1, so `init_plugin` schedules no removal there.
  */
  lemma MigrationBoundary(s: string, build: string)
    requires s == MigrationVersion || s == MigrationVersion + "-" + build
    ensures MigrationGreater(s) == Some(false)
  {
    if s == MigrationVersion {
      ParseV251(s);
    } else {
      ParseV251Build(s, build);
    }
    PartsIrreflexive(MigrationParts);
  }

  /** Comparing with the migration version is comparing with its components. */
  lemma MigrationComparison(appVersion: string, target: string)
    requires target == MigrationVersion
    ensures VersionGreater(appVersion, target) == MigrationGreater(appVersion)
  {
    ParseV251(target);
  }

  /** The built-in jobs are removed this many seconds after start-up. */
  const RemovalDelaySeconds: nat := 30

  /** The plugin id under which the host keeps its built-in jobs. */
  const SystemPluginId: string := "None"

  /** The jobs the plugin can take over from the host. */
  datatype JobId = SitedataRefresh | SubscribeSearch | ClearCache | RandomWallpager | SubscribeTmdb | MediaserverSync

  /** The id under which a job is registered and removed. */
  function Key(j: JobId): string {
    match j
    case SitedataRefresh => "sitedata_refresh"
    case SubscribeSearch => "subscribe_search"
    case ClearCache => "clear_cache"
    case RandomWallpager => "random_wallpager"
    case SubscribeTmdb => "subscribe_tmdb"
    case MediaserverSync => "mediaserver_sync"
  }

  /** The jobs in the order the plugin registers (and removes) them. */
  const ServiceOrder: seq<JobId> :=
    [SitedataRefresh, SubscribeSearch, ClearCache, RandomWallpager, SubscribeTmdb, MediaserverSync]

  /** The plugin's private attributes, as one value. */
  datatype Settings = Settings(
    enabled: PyValue,
    resetAndDisable: PyValue,
    sitedataRefresh: PyValue,
    subscribeSearch: PyValue,
    clearCache: PyValue,
    randomWallpager: PyValue,
    subscribeTmdb: PyValue,
    mediaserverSync: PyValue)

  /** The class-level defaults of the attributes. */
  const Defaults: Settings :=
    Settings(PyBool(false), PyBool(false), PyStr(""), PyStr(""), PyStr(""), PyStr(""), PyStr(""), PyStr(""))

  /** The host callable a job runs; the callables themselves are not modelled. */
  datatype Job = RefreshUserdatas | SearchSubscriptions | ClearSchedulerCache | TrendingWallpapers | CheckSubscriptions | SyncMediaServer

  /** A cron trigger built from the setting's expression, or an interval in hours. */
  datatype Trigger = Cron(expression: PyValue) | Interval(hours: int)

  /** One job descriptor of `get_service`. */
  datatype Service = Service(id: string, name: string, trigger: Trigger, func: Job, funcKwargs: map<string, string>)

  /** What the plugin asks of the host. */
  datatype HostCall =
    | StartRemovalTimer(delaySeconds: nat)
    | UpdateConfig(config: map<string, PyValue>)
    | InitScheduler
    | RemovePluginJob(pid: string, jobId: string)

  /** How `init_plugin` ended: nothing to do, done, or a version string that Python's `int` rejects. */
  datatype InitOutcome = Skipped | Initialized(removalScheduled: bool) | VersionError

  /** `config.get(key, default)`. */
  function Get(config: map<string, PyValue>, key: string, default: PyValue): PyValue {
    if key in config then config[key] else default
  }

  /**
    The attributes `init_plugin` reads out of a configuration dictionary: each
    job setting from the key its job is registered under (`None` when absent),
    the two flags defaulting to `False`.
  */
  function Load(config: map<string, PyValue>): (r: Settings)
    ensures forall j :: SettingOf(r, j) == Get(config, Key(j), PyNone)
    ensures "enabled" !in config ==> !Truthy(r.enabled)
    ensures "reset_and_disable" !in config ==> !Truthy(r.resetAndDisable)
  {
    Settings(
      Get(config, "enabled", PyBool(false)),
      Get(config, "reset_and_disable", PyBool(false)),
      Get(config, "sitedata_refresh", PyNone),
      Get(config, "subscribe_search", PyNone),
      Get(config, "clear_cache", PyNone),
      Get(config, "random_wallpager", PyNone),
      Get(config, "subscribe_tmdb", PyNone),
      Get(config, "mediaserver_sync", PyNone))
  }

  /** The setting that configures the job `j`. */
  function SettingOf(st: Settings, j: JobId): PyValue {
    match j
    case SitedataRefresh => st.sitedataRefresh
    case SubscribeSearch => st.subscribeSearch
    case ClearCache => st.clearCache
    case RandomWallpager => st.randomWallpager
    case SubscribeTmdb => st.subscribeTmdb
    case MediaserverSync => st.mediaserverSync
  }

  /** A job is wanted when its setting is non-empty; subscription search also needs the host's SUBSCRIBE_SEARCH. */
  predicate Configured(st: Settings, searchEnabled: bool, j: JobId) {
    Truthy(SettingOf(st, j)) && (j == SubscribeSearch ==> searchEnabled)
  }

  /** `[x]` when `wanted`, nothing otherwise: one row of the registration table. */
  function Selected<T>(wanted: bool, x: T): seq<T> {
    if wanted then [x] else []
  }

  /** The jobs of `jobs` that are configured, in their order. */
  function FilterConfigured(jobs: seq<JobId>, st: Settings, searchEnabled: bool): (r: seq<JobId>)
    ensures |r| <= |jobs|
    ensures forall i :: 0 <= i < |r| ==> r[i] in jobs && Configured(st, searchEnabled, r[i])
  {
    if jobs == [] then []
    else
      var last := jobs[|jobs| - 1];
      FilterConfigured(jobs[..|jobs| - 1], st, searchEnabled) + Selected(Configured(st, searchEnabled, last), last)
  }

  /** `max(int(self._subscribe_tmdb or 1), 1)`, or 1 where `int` raises ValueError or TypeError. */
  function TmdbHours(v: PyValue): (h: int)
    ensures h >= 1
    ensures Truthy(v) && IntOf(v).Some? && IntOf(v).value >= 1 ==> h == IntOf(v).value
    ensures !(Truthy(v) && IntOf(v).Some? && IntOf(v).value >= 1) ==> h == 1
  {
    var w := if Truthy(v) then v else PyInt(1);
    match IntOf(w)
    case Some(n) => if n >= 1 then n else 1
    case None => 1
  }

  /**
    The descriptor `get_service` registers for the job `j`: its display name
    and host callable, an id equal to the one the job is removed by, a trigger
    taken from the job's own setting (the metadata refresh as an interval of
    at least one hour), and an argument only for subscription search.
  */
  function ServiceFor(st: Settings, j: JobId): (r: Service)
    ensures r.id == Key(j)
    ensures j != SubscribeTmdb ==> r.trigger == Cron(SettingOf(st, j))
    ensures j == SubscribeTmdb ==> r.trigger.Interval? && r.trigger.hours >= 1
    ensures r.funcKwargs == if j == SubscribeSearch then map["state" := "R"] else map[]
  {
    match j
    case SitedataRefresh => Service("sitedata_refresh", "站点数据刷新", Cron(st.sitedataRefresh), RefreshUserdatas, map[])
    case SubscribeSearch => Service("subscribe_search", "订阅搜索补全", Cron(st.subscribeSearch), SearchSubscriptions, map["state" := "R"])
    case ClearCache => Service("clear_cache", "缓存清理", Cron(st.clearCache), ClearSchedulerCache, map[])
    case RandomWallpager => Service("random_wallpager", "壁纸缓存", Cron(st.randomWallpager), TrendingWallpapers, map[])
    case SubscribeTmdb => Service("subscribe_tmdb", "订阅元数据更新", Interval(TmdbHours(st.subscribeTmdb)), CheckSubscriptions, map[])
    case MediaserverSync => Service("mediaserver_sync", "媒体服务器同步", Cron(st.mediaserverSync), SyncMediaServer, map[])
  }

  /** One descriptor per job, in order. */
  function ServicesFor(st: Settings, jobs: seq<JobId>): seq<Service> {
    seq(|jobs|, i requires 0 <= i < |jobs| => ServiceFor(st, jobs[i]))
  }

  /** The ids of a list of descriptors. */
  function Ids(services: seq<Service>): (r: seq<string>)
    ensures |r| == |services| && forall i :: 0 <= i < |r| ==> r[i] == services[i].id
  {
    if services == [] then [] else [services[0].id] + Ids(services[1..])
  }

  /** The ids of a list of jobs. */
  function Keys(jobs: seq<JobId>): (r: seq<string>)
    ensures |r| == |jobs| && forall i :: 0 <= i < |r| ==> r[i] == Key(jobs[i])
  {
    if jobs == [] then [] else [Key(jobs[0])] + Keys(jobs[1..])
  }

  /** The list `_remove_system_services` builds: the configured jobs, in registration order. */
  function RemovalJobs(st: Settings, searchEnabled: bool): (r: seq<JobId>)
    ensures |r| <= |ServiceOrder|
    ensures forall i :: 0 <= i < |r| ==> Configured(st, searchEnabled, r[i])
  {
    FilterConfigured(ServiceOrder, st, searchEnabled)
  }

  /**
    The list `get_service` returns: nothing while the plugin is disabled,
    otherwise one descriptor for each job `_remove_system_services` removes,
    in the same order, each with the trigger its setting describes.
  */
  function ServicesOf(st: Settings, searchEnabled: bool): (r: seq<Service>)
    ensures !Truthy(st.enabled) ==> r == []
    ensures Truthy(st.enabled) ==> |r| == |RemovalJobs(st, searchEnabled)|
  {
    if !Truthy(st.enabled) then [] else ServicesFor(st, RemovalJobs(st, searchEnabled))
  }

  /**
    `get_service` registers nothing while the plugin is disabled; otherwise
    exactly the jobs `_remove_system_services` removes, in the same order,
    each with the descriptor of its row.
  */
  lemma RegisteredJobs(st: Settings, searchEnabled: bool)
    ensures Ids(ServicesOf(st, searchEnabled)) == if Truthy(st.enabled) then Keys(RemovalJobs(st, searchEnabled)) else []
    ensures Truthy(st.enabled) ==>
      |ServicesOf(st, searchEnabled)| == |RemovalJobs(st, searchEnabled)| &&
      forall i :: 0 <= i < |RemovalJobs(st, searchEnabled)| ==> ServicesOf(st, searchEnabled)[i] == ServiceFor(st, RemovalJobs(st, searchEnabled)[i])
  {
    if Truthy(st.enabled) {
      var jobs, services := RemovalJobs(st, searchEnabled), ServicesOf(st, searchEnabled);
      forall i | 0 <= i < |jobs| ensures Ids(services)[i] == Keys(jobs)[i] {
        assert services[i] == ServiceFor(st, jobs[i]);
      }
    }
  }

  /** Appending a job to the table extends the selection by that job when it is configured. */
  lemma FilterAppend(jobs: seq<JobId>, j: JobId, st: Settings, searchEnabled: bool)
    ensures FilterConfigured(jobs + [j], st, searchEnabled)
      == FilterConfigured(jobs, st, searchEnabled) + Selected(Configured(st, searchEnabled, j), j)
  {
    assert (jobs + [j])[..|jobs|] == jobs;
  }

  /** One more row of the table: the descriptor of job `j` is appended exactly when the row is selected. */
  lemma RegistrationStep(st: Settings, jobs: seq<JobId>, wanted: bool, j: JobId)
    ensures ServicesFor(st, jobs + Selected(wanted, j)) == ServicesFor(st, jobs) + Selected(wanted, ServiceFor(st, j))
  {
  }

  predicate Distinct<T(==)>(xs: seq<T>) {
    forall i, j :: 0 <= i < j < |xs| ==> xs[i] != xs[j]
  }

  /**
    The selection written out row by row: sitedata_refresh, subscribe_search
    (only with SUBSCRIBE_SEARCH), clear_cache, random_wallpager,
    subscribe_tmdb, mediaserver_sync, each when its setting is non-empty.
  */
  lemma RemovalTable(st: Settings, searchEnabled: bool)
    ensures RemovalJobs(st, searchEnabled)
      == [] + Selected(Truthy(st.sitedataRefresh), SitedataRefresh)
         + Selected(searchEnabled && Truthy(st.subscribeSearch), SubscribeSearch)
         + Selected(Truthy(st.clearCache), ClearCache)
         + Selected(Truthy(st.randomWallpager), RandomWallpager)
         + Selected(Truthy(st.subscribeTmdb), SubscribeTmdb)
         + Selected(Truthy(st.mediaserverSync), MediaserverSync)
  {
    var p0: seq<JobId> := [];
    var p1 := p0 + [SitedataRefresh];
    var p2 := p1 + [SubscribeSearch];
    var p3 := p2 + [ClearCache];
    var p4 := p3 + [RandomWallpager];
    var p5 := p4 + [SubscribeTmdb];
    var p6 := p5 + [MediaserverSync];
    assert p6 == ServiceOrder;
    FilterAppend(p0, SitedataRefresh, st, searchEnabled);
    FilterAppend(p1, SubscribeSearch, st, searchEnabled);
    FilterAppend(p2, ClearCache, st, searchEnabled);
    FilterAppend(p3, RandomWallpager, st, searchEnabled);
    FilterAppend(p4, SubscribeTmdb, st, searchEnabled);
    FilterAppend(p5, MediaserverSync, st, searchEnabled);
  }

  /** What an enabled plugin registers, written out row by row. */
  lemma RegisteredTable(st: Settings, searchEnabled: bool)
    requires Truthy(st.enabled)
    ensures ServicesOf(st, searchEnabled)
      == [] + Selected(Truthy(st.sitedataRefresh), ServiceFor(st, SitedataRefresh))
         + Selected(searchEnabled && Truthy(st.subscribeSearch), ServiceFor(st, SubscribeSearch))
         + Selected(Truthy(st.clearCache), ServiceFor(st, ClearCache))
         + Selected(Truthy(st.randomWallpager), ServiceFor(st, RandomWallpager))
         + Selected(Truthy(st.subscribeTmdb), ServiceFor(st, SubscribeTmdb))
         + Selected(Truthy(st.mediaserverSync), ServiceFor(st, MediaserverSync))
  {
    RemovalTable(st, searchEnabled);
    var p0: seq<JobId> := [];
    var p1 := p0 + Selected(Truthy(st.sitedataRefresh), SitedataRefresh);
    var p2 := p1 + Selected(searchEnabled && Truthy(st.subscribeSearch), SubscribeSearch);
    var p3 := p2 + Selected(Truthy(st.clearCache), ClearCache);
    var p4 := p3 + Selected(Truthy(st.randomWallpager), RandomWallpager);
    var p5 := p4 + Selected(Truthy(st.subscribeTmdb), SubscribeTmdb);
    var p6 := p5 + Selected(Truthy(st.mediaserverSync), MediaserverSync);
    assert p6 == RemovalJobs(st, searchEnabled);
    assert ServicesFor(st, p0) == [];
    RegistrationStep(st, p0, Truthy(st.sitedataRefresh), SitedataRefresh);
    RegistrationStep(st, p1, searchEnabled && Truthy(st.subscribeSearch), SubscribeSearch);
    RegistrationStep(st, p2, Truthy(st.clearCache), ClearCache);
    RegistrationStep(st, p3, Truthy(st.randomWallpager), RandomWallpager);
    RegistrationStep(st, p4, Truthy(st.subscribeTmdb), SubscribeTmdb);
    RegistrationStep(st, p5, Truthy(st.mediaserverSync), MediaserverSync);
  }

  /** Filtering keeps exactly the configured jobs. */
  lemma {:induction false} FilterConfiguredMembers(jobs: seq<JobId>, st: Settings, searchEnabled: bool, j: JobId)
    ensures j in FilterConfigured(jobs, st, searchEnabled) <==> j in jobs && Configured(st, searchEnabled, j)
  {
    if jobs != [] {
      var init := jobs[..|jobs| - 1];
      FilterConfiguredMembers(init, st, searchEnabled, j);
      assert jobs == init + [jobs[|jobs| - 1]];
      assert j in jobs <==> j in init || j == jobs[|jobs| - 1];
    }
  }

  /** Filtering a list without duplicates gives a list without duplicates. */
  lemma {:induction false} FilterConfiguredDistinct(jobs: seq<JobId>, st: Settings, searchEnabled: bool)
    requires Distinct(jobs)
    ensures Distinct(FilterConfigured(jobs, st, searchEnabled))
  {
    if jobs != [] {
      var init, last := jobs[..|jobs| - 1], jobs[|jobs| - 1];
      FilterConfiguredDistinct(init, st, searchEnabled);
      FilterConfiguredMembers(init, st, searchEnabled, last);
      assert last !in init by {
        forall k | 0 <= k < |init| ensures init[k] != last {
          assert init[k] == jobs[k];
        }
      }
    }
  }

  /** Different jobs are registered under different ids. */
  lemma KeyInjective(a: JobId, b: JobId)
    ensures Key(a) == Key(b) <==> a == b
  {
    if a != b {
      assert Key(a)[..3] != Key(b)[..3] || Key(a)[3..] != Key(b)[3..];
    }
  }

  /**
    The jobs registered (and the built-in jobs removed) are exactly those whose
    setting is non-empty, subscription search only when the host enables it,
    each at most once, under pairwise different ids.
  */
  lemma ConfiguredJobs(st: Settings, searchEnabled: bool)
    ensures forall j :: j in RemovalJobs(st, searchEnabled) <==> Configured(st, searchEnabled, j)
    ensures Distinct(RemovalJobs(st, searchEnabled))
    ensures Distinct(Keys(RemovalJobs(st, searchEnabled)))
  {
    assert Distinct(ServiceOrder);
    forall j ensures j in RemovalJobs(st, searchEnabled) <==> Configured(st, searchEnabled, j) {
      FilterConfiguredMembers(ServiceOrder, st, searchEnabled, j);
      assert j in ServiceOrder by {
        match j
        case SitedataRefresh => assert ServiceOrder[0] == j;
        case SubscribeSearch => assert ServiceOrder[1] == j;
        case ClearCache => assert ServiceOrder[2] == j;
        case RandomWallpager => assert ServiceOrder[3] == j;
        case SubscribeTmdb => assert ServiceOrder[4] == j;
        case MediaserverSync => assert ServiceOrder[5] == j;
      }
    }
    FilterConfiguredDistinct(ServiceOrder, st, searchEnabled);
    var jobs := RemovalJobs(st, searchEnabled);
    forall a, b | 0 <= a < b < |jobs| ensures Keys(jobs)[a] != Keys(jobs)[b] {
      KeyInjective(jobs[a], jobs[b]);
    }
  }

  /** How `init_plugin` ends on a non-empty configuration that loads into `st`. */
  function InitOutcomeOf(st: Settings, appVersion: string): (r: InitOutcome)
    ensures r != Skipped
    ensures r == VersionError ==> Truthy(st.enabled)
    ensures r == Initialized(true) ==> Truthy(st.enabled) && MigrationGreater(appVersion) == Some(true)
  {
    if !Truthy(st.enabled) then Initialized(false)
    else match MigrationGreater(appVersion)
      case None => VersionError
      case Some(above) => Initialized(above)
  }

  /** The attributes once the reset flag has been acted on. */
  function AfterReset(st: Settings): (r: Settings)
    ensures Truthy(st.resetAndDisable) ==> !Truthy(r.enabled) && !Truthy(r.resetAndDisable)
    ensures !Truthy(st.resetAndDisable) ==> r == st
    ensures forall j :: SettingOf(r, j) == SettingOf(st, j)
  {
    if Truthy(st.resetAndDisable) then st.(enabled := PyBool(false), resetAndDisable := PyBool(false)) else st
  }

  /** The configuration once the reset flag has been acted on. */
  function ResetConfig(config: map<string, PyValue>): (r: map<string, PyValue>)
    ensures Truthy(Get(config, "reset_and_disable", PyBool(false))) ==>
      && r.Keys == config.Keys + {"enabled", "reset_and_disable"}
      && r["enabled"] == PyBool(false) && r["reset_and_disable"] == PyBool(false)
    ensures !Truthy(Get(config, "reset_and_disable", PyBool(false))) ==> r == config
    ensures forall k :: k in config && k != "enabled" && k != "reset_and_disable" ==> k in r && r[k] == config[k]
  {
    if Truthy(Get(config, "reset_and_disable", PyBool(false))) then
      config["enabled" := PyBool(false)]["reset_and_disable" := PyBool(false)]
    else config
  }

  /** What `init_plugin` asks of the host: the removal timer, then saving the configuration and re-initialising the scheduler. */
  function InitCalls(removal: bool, reset: bool, saved: map<string, PyValue>): (r: seq<HostCall>)
    ensures |r| == (if removal then 1 else 0) + (if reset then 2 else 0)
    ensures removal <==> |r| > 0 && r[0] == StartRemovalTimer(RemovalDelaySeconds)
    ensures reset <==> |r| >= 2 && r[|r| - 2] == UpdateConfig(saved) && r[|r| - 1] == InitScheduler
  {
    var timer := if removal then [StartRemovalTimer(RemovalDelaySeconds)] else [];
    if reset then timer + [UpdateConfig(saved), InitScheduler] else timer
  }

  /** On an invalid host version nothing is scheduled; removal is scheduled exactly when enabled on a host above v2.5.1. */
  lemma InitOutcomeCases(st: Settings, appVersion: string)
    ensures InitOutcomeOf(st, appVersion) == VersionError <==> Truthy(st.enabled) && Parse(appVersion).None?
    ensures InitOutcomeOf(st, appVersion).Initialized? ==>
      (InitOutcomeOf(st, appVersion).removalScheduled <==>
         Truthy(st.enabled) && VersionGreater(appVersion, MigrationVersion) == Some(true))
  {
    MigrationComparison(appVersion, MigrationVersion);
  }

  /**
    After a reset the plugin is disabled, its reset flag is cleared, it
    registers no job of its own, and acting on the flag again changes
    nothing. A removal timer started by the same `init_plugin` call still
    runs (`InitCalls(true, true, _)` starts it before the reset): the
    host's built-in jobs are then removed and nothing replaces them.
  */
  lemma ResetDisables(st: Settings, searchEnabled: bool)
    requires Truthy(st.resetAndDisable)
    ensures !Truthy(AfterReset(st).enabled) && !Truthy(AfterReset(st).resetAndDisable)
    ensures ServicesOf(AfterReset(st), searchEnabled) == []
    ensures AfterReset(AfterReset(st)) == AfterReset(st)
  {
  }

  /**
    The configuration saved by a reset loads back into the attributes the
    reset left behind: every other setting is kept, both flags are false.
  */
  lemma ResetConfigLoads(config: map<string, PyValue>)
    ensures Load(ResetConfig(config)) == AfterReset(Load(config))
  {
    if Truthy(Get(config, "reset_and_disable", PyBool(false))) {
      var saved := config["enabled" := PyBool(false)]["reset_and_disable" := PyBool(false)];
      assert Get(saved, "sitedata_refresh", PyNone) == Get(config, "sitedata_refresh", PyNone);
      assert Get(saved, "subscribe_search", PyNone) == Get(config, "subscribe_search", PyNone);
      assert Get(saved, "clear_cache", PyNone) == Get(config, "clear_cache", PyNone);
      assert Get(saved, "random_wallpager", PyNone) == Get(config, "random_wallpager", PyNone);
      assert Get(saved, "subscribe_tmdb", PyNone) == Get(config, "subscribe_tmdb", PyNone);
      assert Get(saved, "mediaserver_sync", PyNone) == Get(config, "mediaserver_sync", PyNone);
    }
  }

  class ServiceManagerMiu {
    var enabled: PyValue
    var resetAndDisable: PyValue
    var sitedataRefresh: PyValue
    var subscribeSearch: PyValue
    var clearCache: PyValue
    var randomWallpager: PyValue
    var subscribeTmdb: PyValue
    var mediaserverSync: PyValue

    /** The attributes as one value. */
    function State(): Settings
      reads this
    {
      Settings(enabled, resetAndDisable, sitedataRefresh, subscribeSearch,
               clearCache, randomWallpager, subscribeTmdb, mediaserverSync)
    }

    constructor ()
      ensures State() == Defaults
    {
      enabled, resetAndDisable := PyBool(false), PyBool(false);
      sitedataRefresh, subscribeSearch, clearCache := PyStr(""), PyStr(""), PyStr("");
      randomWallpager, subscribeTmdb, mediaserverSync := PyStr(""), PyStr(""), PyStr("");
    }

    /**
      `init_plugin(config)`: an empty configuration changes nothing. Otherwise
      every attribute is loaded; when enabled, the removal of the built-in jobs
      is scheduled if the host version is above v2.5.1 (a version that does
      not parse aborts here); and the reset flag, when set, switches the
      plugin off, clears itself, writes both back into the configuration,
      saves it and re-initialises the scheduler.
    */
    method InitPlugin(config: map<string, PyValue>, appVersion: string)
      returns (outcome: InitOutcome, newConfig: map<string, PyValue>, calls: seq<HostCall>)
      modifies this
      ensures |config| == 0 ==> outcome == Skipped && newConfig == config && calls == [] && State() == old(State())
      ensures |config| > 0 ==> outcome == InitOutcomeOf(Load(config), appVersion)
      ensures outcome == VersionError ==> State() == Load(config) && newConfig == config && calls == []
      ensures outcome.Initialized? ==>
        && State() == AfterReset(Load(config))
        && newConfig == ResetConfig(config)
        && calls == InitCalls(outcome.removalScheduled, Truthy(Load(config).resetAndDisable), newConfig)
    {
      newConfig, calls := config, [];
      if |config| == 0 {
        return Skipped, newConfig, calls;
      }
      enabled := Get(config, "enabled", PyBool(false));
      resetAndDisable := Get(config, "reset_and_disable", PyBool(false));
      sitedataRefresh := Get(config, "sitedata_refresh", PyNone);
      subscribeSearch := Get(config, "subscribe_search", PyNone);
      clearCache := Get(config, "clear_cache", PyNone);
      randomWallpager := Get(config, "random_wallpager", PyNone);
      subscribeTmdb := Get(config, "subscribe_tmdb", PyNone);
      mediaserverSync := Get(config, "mediaserver_sync", PyNone);
      ghost var loaded := State();
      assert loaded == Load(config);

      outcome := Initialized(false);
      if Truthy(enabled) {
        var greater := AboveMigrationVersion(appVersion);
        if greater.None? {
          return VersionError, newConfig, calls;
        }
        if greater.value {
          calls := [StartRemovalTimer(RemovalDelaySeconds)];
          outcome := Initialized(true);
        }
      }

      assert outcome == InitOutcomeOf(loaded, appVersion);
      assert calls == InitCalls(outcome.removalScheduled, false, config);

      if Truthy(resetAndDisable) {
        enabled := PyBool(false);
        resetAndDisable := PyBool(false);
        newConfig := newConfig["enabled" := PyBool(false)];
        newConfig := newConfig["reset_and_disable" := PyBool(false)];
        calls := calls + [UpdateConfig(newConfig), InitScheduler];
        assert newConfig == ResetConfig(config);
        assert State() == AfterReset(loaded);
      } else {
        assert newConfig == ResetConfig(config);
      }
    }

    /**
      The test `init_plugin` makes of the host version:
      `is_version_greater_than(APP_VERSION, "v2.5.1")`.
    */
    static method AboveMigrationVersion(appVersion: string) returns (r: Option<bool>)
      ensures r == MigrationGreater(appVersion)
    {
      var target := MigrationVersion;
      r := IsVersionGreaterThan(appVersion, target);
      MigrationComparison(appVersion, target);
    }

    /** `get_state()`: whether the plugin is switched on; while it is off it registers no job. */
    function GetState(): (r: bool)
      reads this
      ensures r <==> Truthy(enabled)
      ensures !r ==> forall searchEnabled: bool :: ServicesOf(State(), searchEnabled) == []
    {
      Truthy(enabled)
    }

    /** `get_service()`, given the host's SUBSCRIBE_SEARCH setting. */
    method GetService(searchEnabled: bool) returns (services: seq<Service>)
      ensures services == ServicesOf(State(), searchEnabled)
    {
      if !Truthy(enabled) {
        return [];
      }
      ghost var st := State();
      ghost var expected: seq<Service> := [];
      services := [];
      if Truthy(sitedataRefresh) {
        services := services + [Service("sitedata_refresh", "站点数据刷新", Cron(sitedataRefresh), RefreshUserdatas, map[])];
      }
      expected := expected + Selected(Truthy(st.sitedataRefresh), ServiceFor(st, SitedataRefresh));
      assert services == expected;
      if searchEnabled && Truthy(subscribeSearch) {
        services := services + [Service("subscribe_search", "订阅搜索补全", Cron(subscribeSearch), SearchSubscriptions, map["state" := "R"])];
      }
      expected := expected + Selected(searchEnabled && Truthy(st.subscribeSearch), ServiceFor(st, SubscribeSearch));
      assert services == expected;
      if Truthy(clearCache) {
        services := services + [Service("clear_cache", "缓存清理", Cron(clearCache), ClearSchedulerCache, map[])];
      }
      expected := expected + Selected(Truthy(st.clearCache), ServiceFor(st, ClearCache));
      assert services == expected;
      if Truthy(randomWallpager) {
        services := services + [Service("random_wallpager", "壁纸缓存", Cron(randomWallpager), TrendingWallpapers, map[])];
      }
      expected := expected + Selected(Truthy(st.randomWallpager), ServiceFor(st, RandomWallpager));
      assert services == expected;
      if Truthy(subscribeTmdb) {
        var hours := TmdbHours(subscribeTmdb);
        services := services + [Service("subscribe_tmdb", "订阅元数据更新", Interval(hours), CheckSubscriptions, map[])];
      }
      expected := expected + Selected(Truthy(st.subscribeTmdb), ServiceFor(st, SubscribeTmdb));
      assert services == expected;
      if Truthy(mediaserverSync) {
        services := services + [Service("mediaserver_sync", "媒体服务器同步", Cron(mediaserverSync), SyncMediaServer, map[])];
      }
      expected := expected + Selected(Truthy(st.mediaserverSync), ServiceFor(st, MediaserverSync));
      assert services == expected;
      RegisteredTable(st, searchEnabled);
    }

    /**
      The list `_remove_system_services()` builds, given the host's
      SUBSCRIBE_SEARCH setting: the configured jobs, in registration order.
    */
    method ServicesToRemove(searchEnabled: bool) returns (servicesToRemove: seq<JobId>)
      ensures servicesToRemove == RemovalJobs(State(), searchEnabled)
    {
      ghost var st := State();
      ghost var expected: seq<JobId> := [];
      servicesToRemove := [];
      if Truthy(sitedataRefresh) {
        servicesToRemove := servicesToRemove + [SitedataRefresh];
      }
      expected := expected + Selected(Truthy(st.sitedataRefresh), SitedataRefresh);
      assert servicesToRemove == expected;
      if searchEnabled && Truthy(subscribeSearch) {
        servicesToRemove := servicesToRemove + [SubscribeSearch];
      }
      expected := expected + Selected(searchEnabled && Truthy(st.subscribeSearch), SubscribeSearch);
      assert servicesToRemove == expected;
      if Truthy(clearCache) {
        servicesToRemove := servicesToRemove + [ClearCache];
      }
      expected := expected + Selected(Truthy(st.clearCache), ClearCache);
      assert servicesToRemove == expected;
      if Truthy(randomWallpager) {
        servicesToRemove := servicesToRemove + [RandomWallpager];
      }
      expected := expected + Selected(Truthy(st.randomWallpager), RandomWallpager);
      assert servicesToRemove == expected;
      if Truthy(subscribeTmdb) {
        servicesToRemove := servicesToRemove + [SubscribeTmdb];
      }
      expected := expected + Selected(Truthy(st.subscribeTmdb), SubscribeTmdb);
      assert servicesToRemove == expected;
      if Truthy(mediaserverSync) {
        servicesToRemove := servicesToRemove + [MediaserverSync];
      }
      expected := expected + Selected(Truthy(st.mediaserverSync), MediaserverSync);
      assert servicesToRemove == expected;
      RemovalTable(st, searchEnabled);
    }

    /**
      `_remove_system_services()`, given the host's SUBSCRIBE_SEARCH setting:
      one `remove_plugin_job` call per configured job, in registration order.
    */
    method RemoveSystemServices(searchEnabled: bool) returns (calls: seq<HostCall>)
      ensures |calls| == |RemovalJobs(State(), searchEnabled)|
      ensures forall i :: 0 <= i < |calls| ==> calls[i] == RemovePluginJob(SystemPluginId, Key(RemovalJobs(State(), searchEnabled)[i]))
    {
      var servicesToRemove := ServicesToRemove(searchEnabled);
      calls := [];
      for i := 0 to |servicesToRemove|
        invariant |calls| == i
        invariant forall k :: 0 <= k < i ==> calls[k] == RemovePluginJob(SystemPluginId, Key(servicesToRemove[k]))
      {
        calls := calls + [RemovePluginJob(SystemPluginId, Key(servicesToRemove[i]))];
      }
    }

    /**
      `is_version_greater_than(current_version, target_version)`: strips the
      `v`s and the build suffix, parses the components, pads the shorter list
      with zeros and compares left to right; `None` where a component is not
      a number.
    */
    static method IsVersionGreaterThan(currentVersion: string, targetVersion: string) returns (r: Option<bool>)
      ensures r == VersionGreater(currentVersion, targetVersion)
    {
      var current := Core(currentVersion);
      var target := Core(targetVersion);
      var parsedCurrent := ParseParts(Split(current, '.'));
      var parsedTarget := ParseParts(Split(target, '.'));
      if parsedCurrent.None? || parsedTarget.None? {
        return None;
      }
      var currentParts, targetParts := parsedCurrent.value, parsedTarget.value;

      var maxLen := Max(|currentParts|, |targetParts|);
      currentParts := currentParts + Zeros(maxLen - |currentParts|);
      targetParts := targetParts + Zeros(maxLen - |targetParts|);
      assert currentParts == Pad(parsedCurrent.value, maxLen) && targetParts == Pad(parsedTarget.value, maxLen);

      for i := 0 to maxLen
        invariant forall j :: 0 <= j < i ==> currentParts[j] == targetParts[j]
        invariant LexGreater(currentParts, targetParts) == LexGreater(currentParts[i..], targetParts[i..])
      {
        if currentParts[i] > targetParts[i] {
          return Some(true);
        } else if currentParts[i] < targetParts[i] {
          return Some(false);
        }
        assert currentParts[i..][1..] == currentParts[i + 1..];
        assert targetParts[i..][1..] == targetParts[i + 1..];
      }
      return Some(false);
    }
  }
}
