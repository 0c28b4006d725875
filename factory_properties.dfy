/** What `createCache` and the manager-naming steps guarantee, proved of the functions that specify them. */
module FactoryProperties {
  import opened Wrappers
  import opened Engine
  import opened Errors
  import opened Creators
  import opened Factory

  /**
   * A custom template registered for the region decides the route: the distributed and
   * replicated flags of the request change neither the outcome, nor the configuration, nor
   * the manager, nor the resulting state; no distributed cache is ever returned.
   */
  lemma CustomTemplateIgnoresFlags(env: Environment, st: FactoryState, config: CacheConfig, b: CreatorBehaviour,
                                   distributed: bool, replicated: bool)
    requires Inv(st) && config.name in st.templates
    ensures var s1 := CreateCacheSpec(env, st, config, b);
      var other := config.(distributed := distributed, replicated := replicated);
      var s2 := CreateCacheSpec(env, st, other, b);
      && s1.after == s2.after
      && (s1.result.Err? ==> s2.result == s1.result)
      && (s1.result.Ok? ==> s1.result.value.CreatedCache? && s2.result == Ok(s1.result.value.(request := other)))
  {
  }

  /**
   * Without a custom template, a distributed request goes to the distributed cache manager
   * when there is one, and otherwise fails naming the region; either way nothing changes.
   */
  lemma DistributedRequest(env: Environment, st: FactoryState, config: CacheConfig, b: CreatorBehaviour)
    requires Inv(st) && config.name !in st.templates && config.distributed
    ensures CreateCacheSpec(env, st, config, b) ==
      if env.hasDistributed then Step(Ok(DistributedCache(config)), st)
      else Step(Err(CacheInitFailed(config.name, DistributedCacheManagerUndefined)), st)
  {
  }

  /**
   * Without a custom template and without the distributed flag, the cache goes on the main
   * manager with a copy of its default configuration, forced to `Local` exactly when the
   * request is not replicated; no manager is added and no default configuration changes.
   */
  lemma DefaultPath(env: Environment, st: FactoryState, config: CacheConfig, b: CreatorBehaviour)
    requires Inv(st) && config.name !in st.templates && !config.distributed
    ensures var s := CreateCacheSpec(env, st, config, b);
      && s.after.managers == st.managers
      && |s.after.engine| == |st.engine|
      && (forall i :: 0 <= i < |st.engine| ==> s.after.engine[i].defaultConfig == st.engine[i].defaultConfig)
      && (s.result.Ok? ==>
           && s.result.value.CreatedCache?
           && s.result.value.supplier.manager == MainManager
           && s.result.value.conf.mode == (if config.replicated then st.engine[MainManager].defaultConfig.mode else Local)
           && s.result.value.conf.settings == st.engine[MainManager].defaultConfig.settings)
  {
  }

  /**
   * The custom path fails, and does not fall back to another path, when the region's template
   * cannot be read, built or configured; the cause is wrapped with the region and nothing is
   * registered.
   */
  lemma CustomTemplateFailures(env: Environment, st: FactoryState, config: CacheConfig, b: CreatorBehaviour)
    requires Inv(st) && config.name in st.templates
    ensures var location := st.templates[config.name];
      var load := env.loader(location);
      var s := CreateCacheSpec(env, st, config, b);
      && (load == Unreadable ==> s == Step(Err(CacheInitFailed(config.name, TemplateStreamFailed(location))), st))
      && (load == Missing || load == Malformed ==>
            s == Step(Err(CacheInitFailed(config.name, ManagerConstructionFailed(location))), st))
      && (load.Found? && env.jgroups(load.global) == JGroupsFailed ==>
            s == Step(Err(CacheInitFailed(config.name, JGroupsConfigCannotBeLoaded)), st))
  {
  }

  /**
   * Dedup hit on the custom path: when the manager table already holds the configured
   * global configuration of the template, that manager is used, no manager is added or
   * started, and the table is unchanged.
   */
  lemma CustomPathReusesManager(env: Environment, st: FactoryState, config: CacheConfig, b: CreatorBehaviour)
    requires Inv(st) && config.name in st.templates
    requires var load := env.loader(st.templates[config.name]);
      && load.Found?
      && var gc := ConfigureCacheManager(load.global, env.ctxName, env.jgroups(load.global));
      && gc.Ok? && gc.value in st.managers
    ensures var load := env.loader(st.templates[config.name]);
      var gc := ConfigureCacheManager(load.global, env.ctxName, env.jgroups(load.global)).value;
      var s := CreateCacheSpec(env, st, config, b);
      && s.after.managers == st.managers
      && |s.after.engine| == |st.engine|
      && (forall i :: 0 <= i < |st.engine| ==>
            s.after.engine[i].starts == st.engine[i].starts && s.after.engine[i].global == st.engine[i].global)
      && (s.result.Ok? ==>
            && s.result.value.supplier.manager == st.managers[gc]
            && s.result.value.conf == ResetConfiguration(st.engine[st.managers[gc]].defaultConfig))
  {
  }

  /**
   * Dedup miss on the custom path: the new manager is renamed with the region and the
   * container, started once, appended, and registered under the renamed configuration,
   * even when the creator then throws.
   */
  lemma CustomPathRegistersNewManager(env: Environment, st: FactoryState, config: CacheConfig, b: CreatorBehaviour)
    requires Inv(st) && config.name in st.templates
    requires var load := env.loader(st.templates[config.name]);
      && load.Found?
      && var gc := ConfigureCacheManager(load.global, env.ctxName, env.jgroups(load.global));
      && gc.Ok? && gc.value !in st.managers
    ensures var load := env.loader(st.templates[config.name]);
      var gc := ConfigureCacheManager(load.global, env.ctxName, env.jgroups(load.global)).value;
      var renamed := RenameForRegion(gc, config.name, env.ctxName);
      var s := CreateCacheSpec(env, st, config, b);
      && s.after.managers == st.managers[renamed := |st.engine|]
      && |s.after.engine| == |st.engine| + 1
      && s.after.engine[|st.engine|].global == renamed
      && s.after.engine[|st.engine|].starts == 1
      && s.after.engine[|st.engine|].defaultConfig == load.defaults
      && (s.result.Ok? ==>
            s.result.value.supplier.manager == |st.engine|
            && s.result.value.conf == ResetConfiguration(load.defaults))
  {
  }

  /**
   * One `createCache` adds at most one manager and one table entry, never removes a table
   * key, never restarts, renames or reconfigures an existing manager, and leaves the creator
   * and template tables alone.
   */
  lemma AtMostOneNewManager(env: Environment, st: FactoryState, config: CacheConfig, b: CreatorBehaviour)
    requires Inv(st)
    ensures var s := CreateCacheSpec(env, st, config, b);
      && |st.engine| <= |s.after.engine| <= |st.engine| + 1
      && st.managers.Keys <= s.after.managers.Keys
      && |s.after.managers| <= |st.managers| + 1
      && s.after.creators == st.creators
      && s.after.templates == st.templates
      && ManagersKept(st, s.after)
  {
    var region := config.name;
    if region in st.templates {
      var chosen := CustomManager(env, st, region, st.templates[region]);
      if chosen.Ok? {
        CustomManagerAddsAtMostOne(env, st, region, st.templates[region]);
        var c := chosen.value;
        FinishKeepsManagers(c.state, config, c.manager, ResetConfiguration(c.state.engine[c.manager].defaultConfig), b);
      }
    } else if !config.distributed {
      var conf := ResetConfiguration(DefaultPathConfig(st.engine[MainManager].defaultConfig, config.replicated));
      FinishKeepsManagers(st, config, MainManager, conf, b);
    }
  }

  /** Every manager of `st` is still in `after`, neither restarted, renamed nor reconfigured. */
  ghost predicate ManagersKept(st: FactoryState, after: FactoryState) {
    && |st.engine| <= |after.engine|
    && forall i :: 0 <= i < |st.engine| ==>
         && after.engine[i].starts == st.engine[i].starts
         && after.engine[i].global == st.engine[i].global
         && after.engine[i].defaultConfig == st.engine[i].defaultConfig
  }

  /** The custom-template branch adds at most one manager and one table key, and changes no existing manager. */
  lemma CustomManagerAddsAtMostOne(env: Environment, st: FactoryState, region: string, location: string)
    requires Inv(st)
    ensures var r := CustomManager(env, st, region, location);
      r.Ok? ==>
        && |r.value.state.engine| <= |st.engine| + 1
        && st.managers.Keys <= r.value.state.managers.Keys
        && |r.value.state.managers| <= |st.managers| + 1
        && r.value.state.creators == st.creators
        && r.value.state.templates == st.templates
        && ManagersKept(st, r.value.state)
  {
    var r := CustomManager(env, st, region, location);
    if r.Ok? && r.value.state.managers != st.managers {
      var load := env.loader(location);
      var gc := ConfigureCacheManager(load.global, env.ctxName, env.jgroups(load.global)).value;
      var renamed := RenameForRegion(gc, region, env.ctxName);
      assert r.value.state.managers == st.managers[renamed := |st.engine|];
      MapUpdateSize(st.managers, renamed, |st.engine|);
    }
  }

  /** Handing the request to the creator changes no table and no manager other than by defining a region. */
  lemma FinishKeepsManagers(st: FactoryState, config: CacheConfig, manager: nat, conf: EngineConfig, b: CreatorBehaviour)
    requires manager < |st.engine|
    ensures var after := Finish(st, config, manager, conf, b).after;
      && after.managers == st.managers
      && |after.engine| == |st.engine|
      && after.creators == st.creators
      && after.templates == st.templates
      && ManagersKept(st, after)
  {
  }

  lemma MapUpdateSize<K, V>(m: map<K, V>, k: K, v: V)
    ensures |m[k := v]| <= |m| + 1
  {
    if k in m {
      assert m[k := v].Keys == m.Keys;
    } else {
      assert m[k := v].Keys == m.Keys + {k};
    }
  }

  /**
   * What the creator is given: the configuration is normalised (eviction off, no limits,
   * no expiration, fixed sweep interval), the creator is the one the tables resolve for
   * the request, and the supplier names the request's region and an existing manager.
   */
  lemma CreatorSeesNormalisedConfig(env: Environment, st: FactoryState, config: CacheConfig, b: CreatorBehaviour)
    requires Inv(st)
    ensures var s := CreateCacheSpec(env, st, config, b);
      s.result.Ok? && s.result.value.CreatedCache? ==>
        && Normalised(s.result.value.conf)
        && s.result.value.creator == ResolveCreator(st.creators, KeyOf(config))
        && s.result.value.supplier.region == config.name
        && s.result.value.supplier.manager < |s.after.engine|
  {
  }

  /**
   * Every failure of `createCache` is `CacheInitFailed` naming the region, with the message
   * "The cache '<region>' could not be initialized"; a failure before the creator was
   * called leaves the state as it was.
   */
  lemma FailuresAreWrapped(env: Environment, st: FactoryState, config: CacheConfig, b: CreatorBehaviour)
    requires Inv(st)
    ensures var s := CreateCacheSpec(env, st, config, b);
      s.result.Err? ==>
        && s.result.error.CacheInitFailed?
        && s.result.error.region == config.name
        && (s.result.error.cause != CreatorFailed ==> s.after == st)
    ensures var s := CreateCacheSpec(env, st, config, b);
      s.result.Err? ==> Message(s.result.error) == Some("The cache '" + config.name + "' could not be initialized")
  {
  }

  /**
   * The supplier is lazy: unless the creator calls it, no region is defined on any manager,
   * and a manager added by the call has no region defined.
   */
  lemma NoRegionUntilSupplied(env: Environment, st: FactoryState, config: CacheConfig, b: CreatorBehaviour)
    requires Inv(st) && !Supplies(b)
    ensures var s := CreateCacheSpec(env, st, config, b);
      && (forall i :: 0 <= i < |st.engine| ==> s.after.engine[i].regions == st.engine[i].regions)
      && (forall i :: |st.engine| <= i < |s.after.engine| ==> s.after.engine[i].regions == map[])
  {
  }

  /**
   * Calling the supplier is the only difference between a creator that calls it and one that
   * keeps it: the region is defined on the chosen manager with the shared configuration as the
   * creator left it, and the fetched cache is that manager's cache for the region. A creator
   * that leaves the configuration as it was handed over gets the normalised one defined.
   */
  lemma SupplierDefinesRegion(env: Environment, st: FactoryState, config: CacheConfig, adjusted: EngineConfig)
    requires Inv(st)
    ensures var lazy := CreateCacheSpec(env, st, config, KeepsSupplier);
      var eager := CreateCacheSpec(env, st, config, CallsSupplier(adjusted));
      && (lazy.result.Err? ==> eager == lazy)
      && (lazy.result.Ok? && lazy.result.value.DistributedCache? ==> eager == lazy)
      && (lazy.result.Ok? && lazy.result.value.CreatedCache? ==>
            var sup := lazy.result.value.supplier;
            && sup.manager < |lazy.after.engine|
            && eager.after == SupplySpec(lazy.after, sup, adjusted).1
            && eager.after.engine[sup.manager].regions == lazy.after.engine[sup.manager].regions[config.name := adjusted]
            && eager.result == Ok(lazy.result.value.(fetched := Some(EngineCache(sup.manager, config.name, adjusted)))))
  {
  }

  /**
   * A creator that calls the supplier and then throws: `createCache` fails wrapped, and the
   * region stays defined exactly as if the creator had returned normally.
   */
  lemma SupplyThenThrowKeepsRegion(env: Environment, st: FactoryState, config: CacheConfig, adjusted: EngineConfig)
    requires Inv(st)
    ensures var eager := CreateCacheSpec(env, st, config, CallsSupplier(adjusted));
      var failing := CreateCacheSpec(env, st, config, SuppliesThenThrows(adjusted));
      && failing.after == eager.after
      && (eager.result.Ok? && eager.result.value.CreatedCache? ==>
            failing.result == Err(CacheInitFailed(config.name, CreatorFailed)))
      && (eager.result.Err? || eager.result.value.DistributedCache? ==> failing.result == eager.result)
  {
  }

  /**
   * The dedup key is looked up before the region rename and stored after it, so a second
   * request whose custom template is the same never finds the manager the first one
   * registered: it builds and starts another. For the same region both managers carry the
   * same global configuration and the table keeps only the second.
   */
  lemma SameTemplateTwiceStartsTwoManagers(env: Environment, st: FactoryState, c1: CacheConfig, c2: CacheConfig,
                                           b1: CreatorBehaviour, b2: CreatorBehaviour)
    requires Inv(st) && c1.name in st.templates && c2.name in st.templates
    requires st.templates[c1.name] == st.templates[c2.name]
    requires var load := env.loader(st.templates[c1.name]);
      && load.Found?
      && var gc := ConfigureCacheManager(load.global, env.ctxName, env.jgroups(load.global));
      && gc.Ok? && gc.value !in st.managers
    ensures var s1 := CreateCacheSpec(env, st, c1, b1).after;
      Inv(s1) &&
      var s2 := CreateCacheSpec(env, s1, c2, b2).after;
      && |s2.engine| == |st.engine| + 2
      && s2.engine[|st.engine|].starts == 1
      && s2.engine[|st.engine| + 1].starts == 1
      && (c1.name == c2.name ==>
            && s2.engine[|st.engine|].global == s2.engine[|st.engine| + 1].global
            && s2.managers[s2.engine[|st.engine|].global] == |st.engine| + 1)
  {
    var load := env.loader(st.templates[c1.name]);
    var gc := ConfigureCacheManager(load.global, env.ctxName, env.jgroups(load.global)).value;
    CustomPathRegistersNewManager(env, st, c1, b1);
    var s1 := CreateCacheSpec(env, st, c1, b1).after;
    AtMostOneNewManager(env, st, c1, b1);
    assert gc != RenameForRegion(gc, c1.name, env.ctxName);
    assert gc !in s1.managers;
    CustomPathRegistersNewManager(env, s1, c2, b2);
  }

  /** `a + x == a + y` only when `x == y`. */
  lemma SuffixCancel(a: string, x: string, y: string)
    requires a + x == a + y
    ensures x == y
  {
    assert x == (a + x)[|a|..];
    assert y == (a + y)[|a|..];
  }

  /** `x + s + t == y + s + t` only when `x == y`. */
  lemma PrefixCancel(x: string, y: string, s: string, t: string)
    requires x + s + t == y + s + t
    ensures x == y
  {
    assert |x| == |y|;
    assert x == (x + s + t)[..|x|];
    assert y == (y + s + t)[..|y|];
  }

  /**
   * Containers do not collide: the same global configuration configured for two differently
   * named containers gives two different configurations.
   */
  lemma ConfigureSeparatesContainers(gc: GlobalConfig, ctx1: string, ctx2: string, jg: JGroupsOutcome)
    requires ctx1 != ctx2 && jg != JGroupsFailed
    ensures ConfigureCacheManager(gc, ctx1, jg).value != ConfigureCacheManager(gc, ctx2, jg).value
  {
    if ConfigureCacheManager(gc, ctx1, jg).value == ConfigureCacheManager(gc, ctx2, jg).value {
      assert (gc.managerName + "_") + ctx1 == (gc.managerName + "_") + ctx2;
      SuffixCancel(gc.managerName + "_", ctx1, ctx2);
    }
  }

  /**
   * Configuring keeps distinct configurations distinct, so the dedup key of two templates is
   * equal after configuring exactly when it was equal before.
   */
  lemma ConfigureIsInjective(g1: GlobalConfig, g2: GlobalConfig, ctxName: string, jg: JGroupsOutcome)
    requires jg != JGroupsFailed
    ensures ConfigureCacheManager(g1, ctxName, jg) == ConfigureCacheManager(g2, ctxName, jg) <==> g1 == g2
  {
    var r1 := ConfigureCacheManager(g1, ctxName, jg).value;
    var r2 := ConfigureCacheManager(g2, ctxName, jg).value;
    if r1 == r2 {
      PrefixCancel(g1.managerName, g2.managerName, "_", ctxName);
      if jg == JGroupsLoaded {
        PrefixCancel(g1.clusterName, g2.clusterName, "-", ctxName);
      }
    }
  }

  /** Two regions sharing a template get managers with different names. */
  lemma RenameSeparatesRegions(gc: GlobalConfig, region1: string, region2: string, ctxName: string)
    requires region1 != region2
    ensures RenameForRegion(gc, region1, ctxName) != RenameForRegion(gc, region2, ctxName)
  {
    var n1 := RenameForRegion(gc, region1, ctxName).managerName;
    var n2 := RenameForRegion(gc, region2, ctxName).managerName;
    if n1 == n2 {
      PrefixCancel(gc.managerName + "_" + region1, gc.managerName + "_" + region2, "_", ctxName);
      SuffixCancel(gc.managerName + "_", region1, region2);
    }
  }

  /** A configuration is left as it is by `resetConfiguration` exactly when it is already normalised. */
  lemma ResetFixesExactlyNormalised(c: EngineConfig)
    ensures ResetConfiguration(c) == c <==> Normalised(c)
  {
  }
}
