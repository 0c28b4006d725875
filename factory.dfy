/**
 * The Infinispan cache factory of the eXo kernel: it builds the container's main cache
 * manager from a configuration template, keeps the creator tables, the region -> custom
 * template table and the global configuration -> manager table, and routes every cache
 * request to a manager, a normalised configuration and a creator.
 *
 * Managers live in the factory's engine state `engine`, addressed by index; the main
 * manager is index `MainManager`. The table of managers maps a global configuration to an
 * index. What `createCache` does is first given as the function `CreateCacheSpec` on an
 * abstract `FactoryState`; the class method `CreateCache` is proved to do exactly that.
 */
module Factory {
  import opened Wrappers
  import opened Engine
  import opened Errors
  import opened Creators
  import Params

  /** What a cache request carries: region name, config class, implementation name and two flags. */
  datatype CacheConfig = CacheConfig(
    name: string,
    configClass: string,
    implementation: Option<string>,
    distributed: bool,
    replicated: bool)

  function KeyOf(config: CacheConfig): CreatorKey {
    CreatorKey(config.configClass, config.implementation)
  }

  /**
   * What the chosen creator does with the request (its code is not part of this model). The
   * creator and the supplier share one configuration object, so a creator may adjust it before
   * calling the supplier; `adjusted` is that object as the creator leaves it when it calls.
   * The creator builds a cache holding the supplier without calling it, calls the supplier
   * while building the cache, calls it and then throws, or throws without calling it.
   */
  datatype CreatorBehaviour =
    | KeepsSupplier
    | CallsSupplier(adjusted: EngineConfig)
    | SuppliesThenThrows(adjusted: EngineConfig)
    | Throws

  /** The creator calls the supplier while `createCache` runs. */
  predicate Supplies(b: CreatorBehaviour) {
    b.CallsSupplier? || b.SuppliesThenThrows?
  }

  /**
   * The lazy supplier handed to the creator: which manager and which region. The
   * configuration it defines is the shared object as it stands when it is called.
   */
  datatype Supplier = Supplier(manager: nat, region: string)

  /** The cache `createCache` returns. */
  datatype Handle =
    | DistributedCache(request: CacheConfig)
    | CreatedCache(
        creator: CreatorChoice,
        request: CacheConfig,
        conf: EngineConfig,
        supplier: Supplier,
        fetched: Option<EngineCache>)

  /**
   * What the factory is constructed with and never changes: the container name, the
   * configuration manager's template loader, the JGroups loader, and whether a distributed
   * cache manager was given.
   */
  datatype Environment = Environment(
    ctxName: string,
    loader: string -> TemplateLoad,
    jgroups: GlobalConfig -> JGroupsOutcome,
    hasDistributed: bool)

  /** The factory's mutable state: the creator tables, region -> template, global config -> manager, and the managers. */
  datatype FactoryState = FactoryState(
    creators: CreatorTables,
    templates: map<string, string>,
    managers: map<GlobalConfig, nat>,
    engine: seq<Manager>)

  /** The result of one `createCache` and the state after it. */
  datatype Step = Step(result: Result<Handle, FactoryError>, after: FactoryState)

  /** The manager built from a custom template and, on success, the state it is registered in. */
  datatype Chosen = Chosen(manager: nat, state: FactoryState)

  const MainManager: nat := 0
  const WakeUpInterval := 60000

  /**
   * The factory's invariant: the main manager exists, every entry of the manager table
   * names a manager whose global configuration is the entry's key, and every manager the
   * factory holds was started exactly once.
   */
  ghost predicate Inv(st: FactoryState) {
    ManagersValid(st.managers, st.engine)
  }

  ghost predicate ManagersValid(managers: map<GlobalConfig, nat>, engine: seq<Manager>) {
    && |engine| > 0
    && (forall g :: g in managers ==> managers[g] < |engine| && engine[managers[g]].global == g)
    && (forall i :: 0 <= i < |engine| ==> engine[i].starts == 1)
  }

  /**
   * `configureCacheManager` with `configureJGroups`: the manager name always gets
   * `"_" + ctxName`; the cluster name gets `"-" + ctxName` only when a JGroups configuration
   * was loaded; a failing JGroups load throws.
   */
  function ConfigureCacheManager(gc: GlobalConfig, ctxName: string, jg: JGroupsOutcome): (r: Result<GlobalConfig, FactoryError>)
    ensures r.Err? <==> jg == JGroupsFailed
    ensures r.Err? ==> r.error == JGroupsConfigCannotBeLoaded
    ensures r.Ok? ==> r.value.managerName == gc.managerName + "_" + ctxName && r.value.settings == gc.settings
    ensures r.Ok? && jg == JGroupsLoaded ==> r.value.clusterName == gc.clusterName + "-" + ctxName
    ensures r.Ok? && jg == NoJGroups ==> r.value.clusterName == gc.clusterName
  {
    match jg
    case JGroupsFailed => Err(JGroupsConfigCannotBeLoaded)
    case JGroupsLoaded =>
      Ok(gc.(clusterName := gc.clusterName + "-" + ctxName, managerName := gc.managerName + "_" + ctxName))
    case NoJGroups => Ok(gc.(managerName := gc.managerName + "_" + ctxName))
  }

  /** The extra rename a new custom-template manager gets: `"_" + region + "_" + ctxName`. It always changes the config. */
  function RenameForRegion(gc: GlobalConfig, region: string, ctxName: string): (r: GlobalConfig)
    ensures r.managerName == gc.managerName + "_" + region + "_" + ctxName
    ensures r != gc
    ensures r.(managerName := gc.managerName) == gc
  {
    gc.(managerName := gc.managerName + "_" + region + "_" + ctxName)
  }

  /**
   * `initCacheManager`: read the template, build a manager from it, configure its global
   * configuration and start it. Each failure names the template and leaves no manager.
   */
  function InitCacheManager(template: string, env: Environment): (r: Result<Manager, FactoryError>)
    ensures env.loader(template) == Unreadable ==> r == Err(TemplateCannotBeLoaded(template))
    ensures env.loader(template) == Missing ==> r == Err(TemplateNotFound(template))
    ensures env.loader(template) == Malformed ==> r == Err(ManagerCannotBeInitialized(template))
    ensures r.Ok? <==> env.loader(template).Found? && env.jgroups(env.loader(template).global) != JGroupsFailed
    ensures env.loader(template).Found? && env.jgroups(env.loader(template).global) == JGroupsFailed ==>
      r == Err(JGroupsConfigCannotBeLoaded)
    ensures r.Ok? ==>
      && r.value.starts == 1
      && r.value.regions == map[]
      && r.value.defaultConfig == env.loader(template).defaults
      && Ok(r.value.global) == ConfigureCacheManager(env.loader(template).global, env.ctxName, env.jgroups(env.loader(template).global))
  {
    match env.loader(template)
    case Unreadable => Err(TemplateCannotBeLoaded(template))
    case Missing => Err(TemplateNotFound(template))
    case Malformed => Err(ManagerCannotBeInitialized(template))
    case Found(built, defaults) =>
      match ConfigureCacheManager(built, env.ctxName, env.jgroups(built))
      case Err(e) => Err(e)
      case Ok(gc) => Ok(Start(Built(gc, defaults)))
  }

  /** A configuration with eviction off, no entry limit, entries that never expire, and the fixed sweep interval. */
  ghost predicate Normalised(c: EngineConfig) {
    && c.batching
    && c.eviction == NoEviction
    && c.maxEntries == -1
    && c.lifespan == -1
    && c.maxIdle == -1
    && c.wakeUpInterval == WakeUpInterval
  }

  /** `resetConfiguration`: normalise eviction and expiration; clustering and every other option are kept. */
  function ResetConfiguration(c: EngineConfig): (r: EngineConfig)
    ensures Normalised(r)
    ensures r.mode == c.mode && r.settings == c.settings
  {
    c.(batching := true, eviction := NoEviction, maxEntries := -1, lifespan := -1, maxIdle := -1,
       wakeUpInterval := WakeUpInterval)
  }

  /** The default path's configuration: the template default, forced to `Local` unless the cache is replicated. */
  function DefaultPathConfig(base: EngineConfig, replicated: bool): (r: EngineConfig)
    ensures r.mode == (if replicated then base.mode else Local)
    ensures r.(mode := base.mode) == base
  {
    if replicated then base else base.(mode := Local)
  }

  /**
   * Calling the supplier while the shared configuration object holds `conf`: define
   * `(region, conf)` on its manager, then get that manager's cache for the region. No other
   * manager changes and the invariant is kept.
   */
  function SupplySpec(st: FactoryState, s: Supplier, conf: EngineConfig): (r: (EngineCache, FactoryState))
    requires s.manager < |st.engine|
    ensures r.0 == EngineCache(s.manager, s.region, conf)
    ensures r.1.engine == st.engine[s.manager := Define(st.engine[s.manager], s.region, conf)]
    ensures r.1.(engine := st.engine) == st
    ensures Inv(st) ==> Inv(r.1)
  {
    var m := Define(st.engine[s.manager], s.region, conf);
    (EngineCache(s.manager, s.region, m.regions[s.region]), st.(engine := st.engine[s.manager := m]))
  }

  /**
   * The custom-template branch of `createCache` up to the choice of manager: build a manager
   * from the template, configure its global configuration, and reuse the manager the table
   * holds for that configuration; when there is none, rename the new manager, start it and
   * register it under the renamed configuration.
   */
  function CustomManager(env: Environment, st: FactoryState, region: string, location: string): (r: Result<Chosen, FactoryError>)
    requires Inv(st)
    ensures env.loader(location) == Unreadable ==> r == Err(TemplateStreamFailed(location))
    ensures env.loader(location) == Missing || env.loader(location) == Malformed ==>
      r == Err(ManagerConstructionFailed(location))
    ensures env.loader(location).Found? && env.jgroups(env.loader(location).global) == JGroupsFailed ==>
      r == Err(JGroupsConfigCannotBeLoaded)
    ensures r.Ok? <==> env.loader(location).Found? && env.jgroups(env.loader(location).global) != JGroupsFailed
    ensures r.Ok? ==> r.value.manager < |r.value.state.engine| && Inv(r.value.state)
  {
    match env.loader(location)
    case Unreadable => Err(TemplateStreamFailed(location))
    case Missing => Err(ManagerConstructionFailed(location))
    case Malformed => Err(ManagerConstructionFailed(location))
    case Found(built, defaults) =>
      match ConfigureCacheManager(built, env.ctxName, env.jgroups(built))
      case Err(e) => Err(e)
      case Ok(gc) =>
        if gc in st.managers then Ok(Chosen(st.managers[gc], st))
        else
          var renamed := RenameForRegion(gc, region, env.ctxName);
          var id := |st.engine|;
          Ok(Chosen(id, st.(engine := st.engine + [Start(Built(renamed, defaults))],
                            managers := st.managers[renamed := id])))
  }

  /**
   * The common tail of `createCache`: choose the creator and let it build the cache from
   * `conf` with a supplier for the chosen manager. Only the supplier changes the engine
   * state; a creator that throws fails wrapped, whether or not it called the supplier first.
   */
  function Finish(st: FactoryState, config: CacheConfig, manager: nat, conf: EngineConfig, behaviour: CreatorBehaviour): (r: Step)
    requires manager < |st.engine|
    ensures r.after.managers == st.managers && r.after.creators == st.creators && r.after.templates == st.templates
    ensures r.result.Err? <==> behaviour.Throws? || behaviour.SuppliesThenThrows?
    ensures r.result.Err? ==> r.result.error == CacheInitFailed(config.name, CreatorFailed)
    ensures Supplies(behaviour) ==> r.after == SupplySpec(st, Supplier(manager, config.name), behaviour.adjusted).1
    ensures !Supplies(behaviour) ==> r.after == st
    ensures r.result.Ok? ==>
      && r.result.value.CreatedCache?
      && r.result.value.conf == conf
      && r.result.value.creator == ResolveCreator(st.creators, KeyOf(config))
      && r.result.value.supplier == Supplier(manager, config.name)
  {
    var choice := ResolveCreator(st.creators, KeyOf(config));
    var supplier := Supplier(manager, config.name);
    match behaviour
    case Throws => Step(Err(CacheInitFailed(config.name, CreatorFailed)), st)
    case KeepsSupplier => Step(Ok(CreatedCache(choice, config, conf, supplier, None)), st)
    case CallsSupplier(adjusted) =>
      var supplied := SupplySpec(st, supplier, adjusted);
      Step(Ok(CreatedCache(choice, config, conf, supplier, Some(supplied.0))), supplied.1)
    case SuppliesThenThrows(adjusted) =>
      var supplied := SupplySpec(st, supplier, adjusted);
      Step(Err(CacheInitFailed(config.name, CreatorFailed)), supplied.1)
  }

  /**
   * `createCache`: a custom template registered for the region wins; otherwise a distributed
   * request goes to the distributed cache manager; otherwise the main manager's default
   * configuration is used. Every failure is wrapped with the region's name.
   */
  function CreateCacheSpec(env: Environment, st: FactoryState, config: CacheConfig, behaviour: CreatorBehaviour): (r: Step)
    requires Inv(st)
    ensures Inv(r.after)
    ensures r.after.creators == st.creators && r.after.templates == st.templates
    ensures r.result.Err? ==> r.result.error.CacheInitFailed? && r.result.error.region == config.name
    ensures r.result.Ok? && r.result.value.DistributedCache? <==>
      config.name !in st.templates && config.distributed && env.hasDistributed
  {
    var region := config.name;
    if region in st.templates then
      match CustomManager(env, st, region, st.templates[region])
      case Err(e) => Step(Err(CacheInitFailed(region, e)), st)
      case Ok(chosen) =>
        var conf := ResetConfiguration(chosen.state.engine[chosen.manager].defaultConfig);
        Finish(chosen.state, config, chosen.manager, conf, behaviour)
    else if config.distributed then
      if env.hasDistributed then Step(Ok(DistributedCache(config)), st)
      else Step(Err(CacheInitFailed(region, DistributedCacheManagerUndefined)), st)
    else
      var conf := ResetConfiguration(DefaultPathConfig(st.engine[MainManager].defaultConfig, config.replicated));
      Finish(st, config, MainManager, conf, behaviour)
  }

  class ExoCacheFactory {
    const ctxName: string
    const loader: string -> TemplateLoad
    const jgroups: GlobalConfig -> JGroupsOutcome
    const hasDistributed: bool

    var configTypeCreators: map<string, Creator>
    var implCreators: map<string, Creator>
    var cacheNameConfig: map<string, string>
    var managers: map<GlobalConfig, nat>
    var engine: seq<Manager>

    function Env(): Environment {
      Environment(ctxName, loader, jgroups, hasDistributed)
    }

    function Tables(): CreatorTables
      reads this
    {
      CreatorTables(configTypeCreators, implCreators)
    }

    function State(): FactoryState
      reads this
    {
      FactoryState(Tables(), cacheNameConfig, managers, engine)
    }

    ghost predicate Valid()
      reads this`managers, this`engine
    {
      ManagersValid(managers, engine)
    }

    /** The factory around a started main manager, registered under its global configuration. */
    constructor (ctxName: string, loader: string -> TemplateLoad, jgroups: GlobalConfig -> JGroupsOutcome,
                 hasDistributed: bool, main: Manager)
      requires main.starts == 1
      ensures Valid()
      ensures Env() == Environment(ctxName, loader, jgroups, hasDistributed)
      ensures State() == FactoryState(NoCreators, map[], map[main.global := MainManager], [main])
    {
      this.ctxName := ctxName;
      this.loader := loader;
      this.jgroups := jgroups;
      this.hasDistributed := hasDistributed;
      configTypeCreators := map[];
      implCreators := map[];
      cacheNameConfig := map[];
      engine := [main];
      managers := map[main.global := MainManager];
    }

    /**
     * `addCreator`: record each creator under its config type and then under each of its
     * implementation names, in list order; a null implementation set throws.
     */
    method AddCreator(creators: seq<Creator>) returns (outcome: Outcome<FactoryError>)
      requires Valid()
      modifies this`configTypeCreators, this`implCreators
      ensures Valid()
      ensures Registration(Tables(), outcome) == RegisterCreators(old(Tables()), creators)
    {
      var i := 0;
      while i < |creators|
        invariant 0 <= i <= |creators|
        invariant Valid()
        invariant RegisterCreators(Tables(), creators[i..]) == RegisterCreators(old(Tables()), creators)
      {
        var creator := creators[i];
        ghost var start := Tables();
        assert creators[i..][0] == creator && creators[i..][1..] == creators[i + 1..];
        configTypeCreators := configTypeCreators[creator.expectedType := creator];
        if creator.implementations.None? {
          return Fail(NullImplementations);
        }
        var all := creator.implementations.value;
        AddAliases(all, creator);
        assert Tables() == CreatorTables(start.byType[creator.expectedType := creator], start.byImpl + Aliases(all, creator));
        assert RegisterCreators(start, creators[i..]) == RegisterCreators(Tables(), creators[i + 1..]);
        i := i + 1;
      }
      return Pass;
    }

    /** The inner loop of `addCreator`: record `creator` under each name in `all`. */
    method AddAliases(all: set<string>, creator: Creator)
      modifies this`implCreators
      ensures implCreators == old(implCreators) + Aliases(all, creator)
    {
      var remaining := all;
      while remaining != {}
        invariant remaining <= all
        invariant implCreators == old(implCreators) + Aliases(all - remaining, creator)
        decreases remaining
      {
        var imp :| imp in remaining;
        assert Aliases(all - (remaining - {imp}), creator) == Aliases(all - remaining, creator)[imp := creator];
        implCreators := implCreators[imp := creator];
        remaining := remaining - {imp};
      }
      assert all - remaining == all;
    }

    /** `addConfig`: merge region -> template entries, later ones overwriting equal keys. */
    method AddConfig(configs: map<string, string>)
      requires Valid()
      modifies this`cacheNameConfig
      ensures Valid()
      ensures cacheNameConfig == old(cacheNameConfig) + configs
      ensures forall region :: region in configs ==> cacheNameConfig[region] == configs[region]
      ensures forall region :: region in old(cacheNameConfig) && region !in configs ==>
        cacheNameConfig[region] == old(cacheNameConfig)[region]
    {
      cacheNameConfig := cacheNameConfig + configs;
    }

    /** Call a supplier while the shared configuration holds `conf`: define the region on its manager and fetch the cache. */
    method Supply(s: Supplier, conf: EngineConfig) returns (cache: EngineCache)
      requires Valid() && s.manager < |engine|
      modifies this`engine
      ensures Valid()
      ensures (cache, State()) == SupplySpec(old(State()), s, conf)
    {
      var m := Define(engine[s.manager], s.region, conf);
      engine := engine[s.manager := m];
      cache := EngineCache(s.manager, s.region, m.regions[s.region]);
    }

    /** `createCache`, proved to do what `CreateCacheSpec` says. */
    method CreateCache(config: CacheConfig, behaviour: CreatorBehaviour) returns (r: Result<Handle, FactoryError>)
      requires Valid()
      modifies this`managers, this`engine
      ensures Valid()
      ensures Step(r, State()) == CreateCacheSpec(Env(), old(State()), config, behaviour)
    {
      var region := config.name;
      var manager: nat;
      var conf: EngineConfig;
      if region in cacheNameConfig {
        var customConfig := cacheNameConfig[region];
        var load := loader(customConfig);
        if load.Unreadable? {
          return Err(CacheInitFailed(region, TemplateStreamFailed(customConfig)));
        } else if !load.Found? {
          return Err(CacheInitFailed(region, ManagerConstructionFailed(customConfig)));
        }
        var configured := ConfigureCacheManager(load.global, ctxName, jgroups(load.global));
        if configured.Err? {
          return Err(CacheInitFailed(region, configured.error));
        }
        var gc := configured.value;
        if gc in managers {
          manager := managers[gc];
        } else {
          gc := RenameForRegion(gc, region, ctxName);
          manager := |engine|;
          engine := engine + [Start(Built(gc, load.defaults))];
          managers := managers[gc := manager];
        }
        assert State() == CustomManager(Env(), old(State()), region, customConfig).value.state;
        conf := engine[manager].defaultConfig;
      } else if config.distributed {
        if !hasDistributed {
          return Err(CacheInitFailed(region, DistributedCacheManagerUndefined));
        }
        return Ok(DistributedCache(config));
      } else {
        manager := MainManager;
        conf := engine[manager].defaultConfig;
        if !config.replicated {
          conf := conf.(mode := Local);
        }
      }
      conf := ResetConfiguration(conf);
      var creator := ResolveCreator(Tables(), KeyOf(config));
      var supplier := Supplier(manager, region);
      match behaviour {
        case Throws =>
          r := Err(CacheInitFailed(region, CreatorFailed));
        case KeepsSupplier =>
          r := Ok(CreatedCache(creator, config, conf, supplier, None));
        case CallsSupplier(adjusted) =>
          var cache := Supply(supplier, adjusted);
          r := Ok(CreatedCache(creator, config, conf, supplier, Some(cache)));
        case SuppliesThenThrows(adjusted) =>
          var _ := Supply(supplier, adjusted);
          r := Err(CacheInitFailed(region, CreatorFailed));
      }
    }
  }

  /**
   * The constructor taking the template location: a missing location throws before any
   * manager exists; otherwise the main manager is initialised and registered under its
   * configured global configuration, as the only entry of the manager table.
   */
  method NewFactory(ctxName: string, template: Option<string>, loader: string -> TemplateLoad,
                    jgroups: GlobalConfig -> JGroupsOutcome, hasDistributed: bool)
    returns (r: Result<ExoCacheFactory, FactoryError>)
    ensures r.Ok? <==>
      template.Some? && InitCacheManager(template.value, Environment(ctxName, loader, jgroups, hasDistributed)).Ok?
    ensures template.None? ==> r == Err(ParameterNotSet(CacheConfigTemplateKey))
    ensures template.Some? && InitCacheManager(template.value, Environment(ctxName, loader, jgroups, hasDistributed)).Err? ==>
      r == Err(InitCacheManager(template.value, Environment(ctxName, loader, jgroups, hasDistributed)).error)
    ensures r.Ok? ==>
      && template.Some?
      && var main := InitCacheManager(template.value, Environment(ctxName, loader, jgroups, hasDistributed));
      && main.Ok?
      && fresh(r.value)
      && r.value.Valid()
      && r.value.Env() == Environment(ctxName, loader, jgroups, hasDistributed)
      && r.value.State() == FactoryState(NoCreators, map[], map[main.value.global := MainManager], [main.value])
  {
    if template.None? {
      return Err(ParameterNotSet(CacheConfigTemplateKey));
    }
    var main := InitCacheManager(template.value, Environment(ctxName, loader, jgroups, hasDistributed));
    if main.Err? {
      return Err(main.error);
    }
    var f := new ExoCacheFactory(ctxName, loader, jgroups, hasDistributed, main.value);
    return Ok(f);
  }

  /** The constructor taking init parameters: the template location is `getValueParam(params, "cache.config.template")`. */
  method NewFactoryFromParams(ctxName: string, params: Option<Params.InitParams>, loader: string -> TemplateLoad,
                              jgroups: GlobalConfig -> JGroupsOutcome, hasDistributed: bool)
    returns (r: Result<ExoCacheFactory, FactoryError>)
    ensures var template := Params.GetValueParam(params, CacheConfigTemplateKey);
      r.Ok? <==> template.Some? && InitCacheManager(template.value, Environment(ctxName, loader, jgroups, hasDistributed)).Ok?
    ensures Params.GetValueParam(params, CacheConfigTemplateKey).None? ==> r == Err(ParameterNotSet(CacheConfigTemplateKey))
    ensures var template := Params.GetValueParam(params, CacheConfigTemplateKey);
      template.Some? && InitCacheManager(template.value, Environment(ctxName, loader, jgroups, hasDistributed)).Err? ==>
      r == Err(InitCacheManager(template.value, Environment(ctxName, loader, jgroups, hasDistributed)).error)
    ensures r.Ok? ==>
      && var template := Params.GetValueParam(params, CacheConfigTemplateKey);
      && template.Some?
      && var main := InitCacheManager(template.value, Environment(ctxName, loader, jgroups, hasDistributed));
      && main.Ok?
      && fresh(r.value)
      && r.value.Valid()
      && r.value.Env() == Environment(ctxName, loader, jgroups, hasDistributed)
      && r.value.State() == FactoryState(NoCreators, map[], map[main.value.global := MainManager], [main.value])
  {
    r := NewFactory(ctxName, Params.GetValueParam(params, CacheConfigTemplateKey), loader, jgroups, hasDistributed);
  }
}
