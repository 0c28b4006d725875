/**
 * The part of the cache engine (Infinispan 5) that the factory relies on, reduced to values.
 *
 * A global configuration and a cache configuration are plain values: copying one is the
 * engine's `clone()`, and every change the factory makes to a configuration builds a new value,
 * so a configuration that a manager owns can never be changed through a copy.
 * Equality of `GlobalConfig` values is structural; it is the key the factory deduplicates
 * managers by.
 */
module Engine {

  /** Clustering mode of a cache configuration. */
  datatype CacheMode =
    | Local
    | ReplSync | ReplAsync
    | InvalidationSync | InvalidationAsync
    | DistSync | DistAsync

  /** Eviction strategy of a cache configuration; `NoEviction` is the engine's `NONE`. */
  datatype EvictionStrategy = NoEviction | Unordered | Fifo | Lru | Lirs

  /**
   * Cache-level configuration. `settings` stands for every other option of the
   * engine's configuration, which the factory never reads or changes.
   */
  datatype EngineConfig = EngineConfig(
    mode: CacheMode,
    batching: bool,
    eviction: EvictionStrategy,
    maxEntries: int,
    lifespan: int,
    maxIdle: int,
    wakeUpInterval: int,
    settings: string)

  /**
   * Manager-level configuration: the manager's JMX name, the transport cluster name and,
   * in `settings`, every other manager-level option.
   */
  datatype GlobalConfig = GlobalConfig(managerName: string, clusterName: string, settings: string)

  /**
   * An engine cache manager: its global configuration, its default cache configuration,
   * how many times `start()` was called on it, and the configurations defined per region.
   */
  datatype Manager = Manager(
    global: GlobalConfig,
    defaultConfig: EngineConfig,
    starts: nat,
    regions: map<string, EngineConfig>)

  /** The engine cache of `region` obtained from the manager at index `manager`. */
  datatype EngineCache = EngineCache(manager: nat, region: string, config: EngineConfig)

  /**
   * What reading and parsing a configuration template at some location gives:
   * - `Found`: the stream was read and a manager could be built from it (not yet started);
   * - `Malformed`: the stream was read but building a manager from it threw;
   * - `Missing`: the configuration manager returned no stream;
   * - `Unreadable`: the configuration manager threw while opening the stream.
   */
  datatype TemplateLoad =
    | Found(global: GlobalConfig, defaults: EngineConfig)
    | Malformed
    | Missing
    | Unreadable

  /** What loading the JGroups configuration of a global configuration gives. */
  datatype JGroupsOutcome = JGroupsLoaded | NoJGroups | JGroupsFailed

  /** A manager built from a template, before `start()`. */
  function Built(global: GlobalConfig, defaults: EngineConfig): (m: Manager)
    ensures m.starts == 0 && m.regions == map[]
  {
    Manager(global, defaults, 0, map[])
  }

  /** `start()` on a manager. */
  function Start(m: Manager): (r: Manager)
    ensures r.starts == m.starts + 1
    ensures r.(starts := m.starts) == m
  {
    m.(starts := m.starts + 1)
  }

  /** The manager after `defineConfiguration(region, conf)`. */
  function Define(m: Manager, region: string, conf: EngineConfig): (r: Manager)
    ensures r.regions.Keys == m.regions.Keys + {region} && r.regions[region] == conf
    ensures forall other :: other in m.regions && other != region ==> r.regions[other] == m.regions[other]
    ensures r.(regions := m.regions) == m
  {
    m.(regions := m.regions[region := conf])
  }
}
