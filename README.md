# Infinispan cache factory of the eXo kernel, modelled in Dafny

This project models `ExoCacheFactoryImpl`, the factory the eXo kernel uses to create named
caches ("regions") on top of Infinispan 5. The factory is built inside one container and takes the
container's name. It builds the container's main cache manager from the configuration template
named by the `cache.config.template` init parameter. It keeps four tables:

- config class → creator, filled by `addCreator`;
- implementation name → creator, filled by `addCreator`;
- region → custom template location, filled by `addConfig`;
- global configuration → cache manager.

Each `createCache` request goes to one of three paths:

- **custom:** the region has a template registered in `addConfig`. A manager is built from that template and deduplicated by its global configuration;
- **distributed:** the request is distributed. It goes to the distributed cache manager;
- **default:** every other request uses the main manager's default configuration, forced to `LOCAL` unless the cache is replicated.

The chosen configuration is then normalised: eviction off, no entry limit, no expiration, a
60000 ms sweep interval. It goes to the creator chosen for the request, together with a lazy
supplier. The supplier defines the region on the chosen manager and fetches its cache. Every
failure is wrapped as "The cache '<region>' could not be initialized".

Layout:

- `wrappers.dfy`: `Option`, `Result`, `Outcome`.
- `engine.dfy`: the engine reduced to values.
  - Cache and global configurations are datatypes. Copying one is `clone()`.
  - A manager holds its global configuration, its default configuration, its `start()` count and its defined regions.
  - Loading a template gives one of Found / Malformed / Missing / Unreadable.
  - Loading JGroups gives one of Loaded / None / Failed.
- `errors.dfy`: the exceptions as a datatype, with the messages the factory writes itself.
- `params.dfy`: `getValueParam`, with Java's `String.trim()` written out.
- `creators.dfy`: the two creator tables, `addCreator` as a function over the creator list, and `getExoCacheCreator`.
- `factory.dfy`: the naming steps, `initCacheManager`, `resetConfiguration`, and `createCache` as the function `CreateCacheSpec`.
  - It also holds the class `ExoCacheFactory`.
  - The class's fields are the four tables plus the engine state: the managers, addressed by index, with the main manager at index 0.
  - Its methods `AddCreator`, `CreateCache` and `Supply` are proved to do what the functions `RegisterCreators`, `CreateCacheSpec` and `SupplySpec` say. `AddConfig` states `putAll` directly, key by key, against the old table.
  - `NewFactory` and `NewFactoryFromParams` are the constructors, which can throw.
- `factory_properties.dfy`: the properties of `createCache`, proved of `CreateCacheSpec`: routing, dedup, at most one new manager per call, normalisation, laziness of the supplier, error wrapping, and naming.

Points where the code behaves differently from what a reader might expect; the model follows the code:

- The custom template is checked before the distributed flag (`ExoCacheFactoryImpl.java:293` before `:342`). A region with a custom template therefore never goes to the distributed cache manager. On the custom path the replicated flag is ignored too (`FactoryProperties.CustomTemplateIgnoresFlags`).
- The dedup lookup uses the configured global configuration. A new manager is stored after the extra `"_" + region + "_" + ctx` rename (`:312` vs `:318-322`). A later request whose custom template is the same therefore never finds that manager: it builds and starts another one. For the same region, both managers carry the same name, and the table keeps only the second (`FactoryProperties.SameTemplateTwiceStartsTwoManagers`). Dedup hits only when a template's configured global configuration equals a key already stored, for instance the main manager's.
- When the creator throws after a new custom manager was registered, the manager stays registered and started. Nothing is rolled back (`FactoryProperties.FailuresAreWrapped` keeps the state unchanged only for failures before the creator). The same holds for a region the creator had the supplier define before it threw (`FactoryProperties.SupplyThenThrowKeepsRegion`).
- A distributed request without a distributed cache manager fails with a `NullPointerException`, wrapped like every other failure.
- The creator and the supplier share one configuration object (`:370`, `:383`). A creator can therefore change the normalised configuration before it calls the supplier, and the region is defined with the configuration as the creator left it. The model gives that configuration as the `adjusted` part of `CallsSupplier` and `SuppliesThenThrows`.

## Model

| member | source | states |
|---|---|---|
| Params.TrimStart | exo.kernel.component.ext.cache.impl.infinispan.v5/src/main/java/org/exoplatform/services/cache/impl/infinispan/ExoCacheFactoryImpl.java:454 | the result is a suffix of the input; every dropped character is at most U+0020; the result is empty or starts with a character above U+0020 |
| Params.TrimEnd | exo.kernel.component.ext.cache.impl.infinispan.v5/src/main/java/org/exoplatform/services/cache/impl/infinispan/ExoCacheFactoryImpl.java:454 | the result is a prefix of the input; every dropped character is at most U+0020; the result is empty or ends with a character above U+0020 |
| Params.Trim | exo.kernel.component.ext.cache.impl.infinispan.v5/src/main/java/org/exoplatform/services/cache/impl/infinispan/ExoCacheFactoryImpl.java:454 | `trim()` returns a slice of the input with only blanks around it, and the slice neither starts nor ends with a blank |
| Params.TrimEmptyIffBlank | exo.kernel.component.ext.cache.impl.infinispan.v5/src/main/java/org/exoplatform/services/cache/impl/infinispan/ExoCacheFactoryImpl.java:454 | trimming gives the empty string exactly when every character is blank |
| Params.GetValueParam | exo.kernel.component.ext.cache.impl.infinispan.v5/src/main/java/org/exoplatform/services/cache/impl/infinispan/ExoCacheFactoryImpl.java:446-459 | null exactly when the params are null, the parameter is missing, its value is null, or the value is blank throughout; otherwise the trimmed, non-empty value |
| Creators.RegisterCreators | exo.kernel.component.ext.cache.impl.infinispan.v5/src/main/java/org/exoplatform/services/cache/impl/infinispan/ExoCacheFactoryImpl.java:415-431 | registering never removes a key from either creator table |
| Creators.RegisterFailsIffNullSet | exo.kernel.component.ext.cache.impl.infinispan.v5/src/main/java/org/exoplatform/services/cache/impl/infinispan/ExoCacheFactoryImpl.java:418-430 | `addCreator` throws exactly when some creator's implementation set is null, and then it throws `NullPointerException` |
| Creators.RegisterByTypeLastWins | exo.kernel.component.ext.cache.impl.infinispan.v5/src/main/java/org/exoplatform/services/cache/impl/infinispan/ExoCacheFactoryImpl.java:418-420 | after a registration that does not throw, each config type maps to the last creator in list order that expects it; a type no creator expects keeps its earlier entry, or stays absent |
| Creators.RegisterByImplLastWins | exo.kernel.component.ext.cache.impl.infinispan.v5/src/main/java/org/exoplatform/services/cache/impl/infinispan/ExoCacheFactoryImpl.java:421-429 | after a registration that does not throw, each implementation name maps to the last creator claiming it; a name no set contains keeps its entry, so empty sets add no aliases |
| Creators.RegisterStopsAtNullSet | exo.kernel.component.ext.cache.impl.infinispan.v5/src/main/java/org/exoplatform/services/cache/impl/infinispan/ExoCacheFactoryImpl.java:418-425 | at the first null set, the earlier creators stay fully registered and the offending creator stays registered under its config type; its aliases and every later creator are not registered |
| Creators.ResolveCreator | exo.kernel.component.ext.cache.impl.infinispan.v5/src/main/java/org/exoplatform/services/cache/impl/infinispan/ExoCacheFactoryImpl.java:464-483 | the config-class entry wins, then the implementation-name entry; the default creator is chosen exactly when neither exists; a chosen plugin is one held in the tables |
| Creators.NoCreatorsResolvesToDefault | exo.kernel.component.ext.cache.impl.infinispan.v5/src/main/java/org/exoplatform/services/cache/impl/infinispan/ExoCacheFactoryImpl.java:464-478 | with no creators registered, every request gets the default creator |
| Creators.ResolveAfterRegister | exo.kernel.component.ext.cache.impl.infinispan.v5/src/main/java/org/exoplatform/services/cache/impl/infinispan/ExoCacheFactoryImpl.java:464-483 | after registering, a request whose class a creator expects gets the last such creator; a request whose class matches nothing gets the last creator claiming its implementation name |
| Factory.ConfigureCacheManager | exo.kernel.component.ext.cache.impl.infinispan.v5/src/main/java/org/exoplatform/services/cache/impl/infinispan/ExoCacheFactoryImpl.java:237-261 | the manager name always gets `"_" + ctx`; the cluster name gets `"-" + ctx` exactly when JGroups was loaded and is unchanged otherwise; a failing JGroups load throws |
| Factory.RenameForRegion | exo.kernel.component.ext.cache.impl.infinispan.v5/src/main/java/org/exoplatform/services/cache/impl/infinispan/ExoCacheFactoryImpl.java:318-319 | the new manager name is `name + "_" + region + "_" + ctx`; nothing else changes, and the configuration always differs from the original |
| Factory.InitCacheManager | exo.kernel.component.ext.cache.impl.infinispan.v5/src/main/java/org/exoplatform/services/cache/impl/infinispan/ExoCacheFactoryImpl.java:172-229 | a loader exception, a missing stream or a construction failure each give an error naming the template, and a failing JGroups load gives its own error; success happens exactly when the template is found and JGroups does not fail; the manager is then configured, started once and has no regions |
| Factory.ResetConfiguration | exo.kernel.component.ext.cache.impl.infinispan.v5/src/main/java/org/exoplatform/services/cache/impl/infinispan/ExoCacheFactoryImpl.java:488-492 | the result is normalised (eviction NONE, maxEntries -1, lifespan -1, maxIdle -1, wakeUpInterval 60000); the clustering mode and the other options are kept |
| Factory.DefaultPathConfig | exo.kernel.component.ext.cache.impl.infinispan.v5/src/main/java/org/exoplatform/services/cache/impl/infinispan/ExoCacheFactoryImpl.java:359-364 | the copy is forced to `LOCAL` exactly when the request is not replicated; nothing else differs from the template default |
| Factory.SupplySpec | exo.kernel.component.ext.cache.impl.infinispan.v5/src/main/java/org/exoplatform/services/cache/impl/infinispan/ExoCacheFactoryImpl.java:380-386 | calling the supplier defines the region, with the shared configuration as it stands at the call, on its manager only, and returns that manager's cache for the region; the invariant is kept |
| Factory.CustomManager | exo.kernel.component.ext.cache.impl.infinispan.v5/src/main/java/org/exoplatform/services/cache/impl/infinispan/ExoCacheFactoryImpl.java:306-324 | the custom path fails exactly when the template cannot be read (the loader's exception), built (missing stream or construction failure) or configured (JGroups failure), each with its own cause; otherwise it chooses a manager the state holds and keeps the invariant |
| Factory.ExoCacheFactory.constructor | exo.kernel.component.ext.cache.impl.infinispan.v5/src/main/java/org/exoplatform/services/cache/impl/infinispan/ExoCacheFactoryImpl.java:152-166 | the creator and template tables start empty; the manager table has one entry, the main manager's global configuration mapped to the main manager |
| Factory.ExoCacheFactory.AddCreator | exo.kernel.component.ext.cache.impl.infinispan.v5/src/main/java/org/exoplatform/services/cache/impl/infinispan/ExoCacheFactoryImpl.java:415-431 | the nested loops leave the tables, and the thrown or normal return, exactly as `RegisterCreators` gives them; no other field changes |
| Factory.ExoCacheFactory.AddAliases | exo.kernel.component.ext.cache.impl.infinispan.v5/src/main/java/org/exoplatform/services/cache/impl/infinispan/ExoCacheFactoryImpl.java:426-429 | every name in the set is mapped to the creator and every other entry is kept |
| Factory.ExoCacheFactory.AddConfig | exo.kernel.component.ext.cache.impl.infinispan.v5/src/main/java/org/exoplatform/services/cache/impl/infinispan/ExoCacheFactoryImpl.java:437-441 | `putAll`: the given entries overwrite equal keys, other entries are unchanged, no other field changes |
| Factory.ExoCacheFactory.Supply | exo.kernel.component.ext.cache.impl.infinispan.v5/src/main/java/org/exoplatform/services/cache/impl/infinispan/ExoCacheFactoryImpl.java:373-401 | the supplier's effect on the engine state and its result are those of `SupplySpec` |
| Factory.ExoCacheFactory.CreateCache | exo.kernel.component.ext.cache.impl.infinispan.v5/src/main/java/org/exoplatform/services/cache/impl/infinispan/ExoCacheFactoryImpl.java:284-409 | the result and the new tables and managers are exactly those of `CreateCacheSpec`; the invariant is kept |
| Factory.NewFactory | exo.kernel.component.ext.cache.impl.infinispan.v5/src/main/java/org/exoplatform/services/cache/impl/infinispan/ExoCacheFactoryImpl.java:152-166 | construction succeeds exactly when the template is set and the main manager can be initialised; a null template throws before any manager exists; an init failure is passed on; on success the manager table holds exactly the main manager, started once, under its configured global configuration |
| Factory.NewFactoryFromParams | exo.kernel.component.ext.cache.impl.infinispan.v5/src/main/java/org/exoplatform/services/cache/impl/infinispan/ExoCacheFactoryImpl.java:146-150 | the template is `getValueParam(params, "cache.config.template")`; construction succeeds exactly when that is set and the main manager can be initialised; a null template throws; an init failure is passed on; on success the state is that of the main constructor |
| Errors.Message | exo.kernel.component.ext.cache.impl.infinispan.v5/src/main/java/org/exoplatform/services/cache/impl/infinispan/ExoCacheFactoryImpl.java:186-206 | the factory writes its own message for the missing parameter (`:160`), the three template failures, the missing distributed manager (`:347-348`), the null implementation set (`:424`) and the wrapper (`:406`); the message is absent exactly for a JGroups failure, a custom template's load or construction failure, and the creator's own exception |
| Errors.MessageNamesSubject | exo.kernel.component.ext.cache.impl.infinispan.v5/src/main/java/org/exoplatform/services/cache/impl/infinispan/ExoCacheFactoryImpl.java:406 | the wrapper's message carries the region right after "The cache '", and the missing-parameter message (`:160`) carries the parameter name |
| Factory.Finish | exo.kernel.component.ext.cache.impl.infinispan.v5/src/main/java/org/exoplatform/services/cache/impl/infinispan/ExoCacheFactoryImpl.java:366-402 | the creator step changes no table; the cache is created and the result is an `Ok` handle with the resolved creator, the reset configuration and a supplier for the chosen manager and region, unless the creator throws, and then the failure is wrapped; the engine state changes exactly when the creator calls the supplier, and then as the supplier defines |
| Factory.CreateCacheSpec | exo.kernel.component.ext.cache.impl.infinispan.v5/src/main/java/org/exoplatform/services/cache/impl/infinispan/ExoCacheFactoryImpl.java:284-409 | `createCache` keeps the invariant and leaves the creator and template tables alone; every failure is wrapped naming the region; a distributed cache is returned exactly when the region has no custom template, the request is distributed and a distributed manager exists |
| FactoryProperties.SupplyThenThrowKeepsRegion | exo.kernel.component.ext.cache.impl.infinispan.v5/src/main/java/org/exoplatform/services/cache/impl/infinispan/ExoCacheFactoryImpl.java:370-407 | a creator that calls the supplier and then throws leaves the region defined exactly as a creator that returns, and `createCache` fails wrapped as a creator failure |
| FactoryProperties.CustomTemplateIgnoresFlags | exo.kernel.component.ext.cache.impl.infinispan.v5/src/main/java/org/exoplatform/services/cache/impl/infinispan/ExoCacheFactoryImpl.java:293-342 | the distributed and replicated flags change nothing on the custom path; a region with a custom template never gets a distributed cache |
| FactoryProperties.DistributedRequest | exo.kernel.component.ext.cache.impl.infinispan.v5/src/main/java/org/exoplatform/services/cache/impl/infinispan/ExoCacheFactoryImpl.java:342-352 | without a custom template, a distributed request returns the distributed cache, or fails naming the region when there is no distributed manager; the state is unchanged either way |
| FactoryProperties.DefaultPath | exo.kernel.component.ext.cache.impl.infinispan.v5/src/main/java/org/exoplatform/services/cache/impl/infinispan/ExoCacheFactoryImpl.java:353-365 | on the main manager, the copy's mode is `LOCAL` unless the request is replicated, and then it is the template's mode; no manager is added and no default configuration changes |
| FactoryProperties.CustomTemplateFailures | exo.kernel.component.ext.cache.impl.infinispan.v5/src/main/java/org/exoplatform/services/cache/impl/infinispan/ExoCacheFactoryImpl.java:293-341 | a region whose template cannot be read, built or configured fails with that cause wrapped with the region, takes no other path, and leaves the state unchanged (:306-310, :406) |
| FactoryProperties.CustomPathReusesManager | exo.kernel.component.ext.cache.impl.infinispan.v5/src/main/java/org/exoplatform/services/cache/impl/infinispan/ExoCacheFactoryImpl.java:312-324 | on a dedup hit the existing manager is used, and the creator gets that manager's default configuration, cloned and reset; nothing is added or started, and the manager table is unchanged |
| FactoryProperties.CustomPathRegistersNewManager | exo.kernel.component.ext.cache.impl.infinispan.v5/src/main/java/org/exoplatform/services/cache/impl/infinispan/ExoCacheFactoryImpl.java:313-323 | on a miss, the new manager is renamed `name_region_ctx`, started once and stored under the renamed configuration; the creator gets its normalised default configuration |
| FactoryProperties.AtMostOneNewManager | exo.kernel.component.ext.cache.impl.infinispan.v5/src/main/java/org/exoplatform/services/cache/impl/infinispan/ExoCacheFactoryImpl.java:306-324 | one call adds at most one manager and one table entry and removes no key; existing managers are not restarted, renamed or reconfigured; the creator and template tables are untouched |
| FactoryProperties.CustomManagerAddsAtMostOne | exo.kernel.component.ext.cache.impl.infinispan.v5/src/main/java/org/exoplatform/services/cache/impl/infinispan/ExoCacheFactoryImpl.java:306-324 | the custom branch alone adds at most one manager and one key, and leaves existing managers as they were |
| FactoryProperties.FinishKeepsManagers | exo.kernel.component.ext.cache.impl.infinispan.v5/src/main/java/org/exoplatform/services/cache/impl/infinispan/ExoCacheFactoryImpl.java:366-402 | handing the request to the creator adds no manager and changes no table; managers change only by region definitions |
| FactoryProperties.CreatorSeesNormalisedConfig | exo.kernel.component.ext.cache.impl.infinispan.v5/src/main/java/org/exoplatform/services/cache/impl/infinispan/ExoCacheFactoryImpl.java:366-370 | the creator gets a normalised configuration; it is the creator the tables resolve for the request; the supplier names the request's region and an existing manager |
| FactoryProperties.FailuresAreWrapped | exo.kernel.component.ext.cache.impl.infinispan.v5/src/main/java/org/exoplatform/services/cache/impl/infinispan/ExoCacheFactoryImpl.java:404-407 | every failure is `ExoCacheInitException("The cache '<region>' could not be initialized", cause)`; a failure before the creator leaves the state unchanged |
| FactoryProperties.NoRegionUntilSupplied | exo.kernel.component.ext.cache.impl.infinispan.v5/src/main/java/org/exoplatform/services/cache/impl/infinispan/ExoCacheFactoryImpl.java:370-402 | unless the creator calls the supplier, with or without throwing afterwards, no manager gets a region definition |
| FactoryProperties.SupplierDefinesRegion | exo.kernel.component.ext.cache.impl.infinispan.v5/src/main/java/org/exoplatform/services/cache/impl/infinispan/ExoCacheFactoryImpl.java:380-386 | calling the supplier is the only difference between a creator that calls it and one that keeps it: the region is defined on the chosen manager with the configuration as the creator left it, and that manager's cache for the region is returned |
| FactoryProperties.SameTemplateTwiceStartsTwoManagers | exo.kernel.component.ext.cache.impl.infinispan.v5/src/main/java/org/exoplatform/services/cache/impl/infinispan/ExoCacheFactoryImpl.java:308-322 | two requests with the same custom template start two managers, because the lookup key is not the renamed key; for one region both carry the same configuration and the table keeps the second |
| FactoryProperties.ConfigureSeparatesContainers | exo.kernel.component.ext.cache.impl.infinispan.v5/src/main/java/org/exoplatform/services/cache/impl/infinispan/ExoCacheFactoryImpl.java:242 | one template configured for two differently named containers gives two different global configurations |
| FactoryProperties.ConfigureIsInjective | exo.kernel.component.ext.cache.impl.infinispan.v5/src/main/java/org/exoplatform/services/cache/impl/infinispan/ExoCacheFactoryImpl.java:237-261 | for one container and one JGroups outcome, configured global configurations are equal exactly when the originals are |
| FactoryProperties.RenameSeparatesRegions | exo.kernel.component.ext.cache.impl.infinispan.v5/src/main/java/org/exoplatform/services/cache/impl/infinispan/ExoCacheFactoryImpl.java:318-319 | two regions renamed from one configuration get different manager names |
| FactoryProperties.ResetFixesExactlyNormalised | exo.kernel.component.ext.cache.impl.infinispan.v5/src/main/java/org/exoplatform/services/cache/impl/infinispan/ExoCacheFactoryImpl.java:488-492 | `resetConfiguration` leaves a configuration unchanged exactly when it is already normalised |

## Left out

- Privileged execution (`SecurityHelper.doPrivilegedExceptionAction`) and the unwrapping of `PrivilegedActionException`. Each action is modelled as a direct step that may fail with its own cause.
- Logging, and the `MBeanServerLookup` set on the global configuration. They are side effects only, or engine-internal; the lookup is not a field of `GlobalConfig`.
- Infinispan itself: stream parsing, `DefaultCacheManager` construction, `start()`, `defineConfiguration`, `getCache` and `GlobalConfiguration.equals`.
  - A template location is given to an oracle `loader` whose result is Found / Malformed / Missing / Unreadable.
  - On the custom path a missing stream counts as a failure to build the manager.
  - `start()`, `defineConfiguration` and `getCache` are taken never to fail.
  - Equality of global configurations is structural over manager name, cluster name and the other settings.
- Factory.ResetConfiguration: `invocationBatching()` is taken, as in Infinispan 5's fluent API, to switch batching on, so the model sets `batching` to true. `Normalised` includes `batching`, so `FactoryProperties.CreatorSeesNormalisedConfig` and `FactoryProperties.ResetFixesExactlyNormalised` rest on this reading. Under it, a configuration normalised in every other field but with batching off is changed by the reset.
- `Utils.loadJGroupsConfig` is an oracle returning loaded / none / failed. Any change it makes to transport properties is not modelled.
- `DistributedExoCache` and `DistributedCacheManager`: only "a distributed cache is returned for the request" is modelled.
- The creator's `create` is external code. The parameter `CreatorBehaviour` says whether it keeps the supplier, calls it, calls it and then throws, or throws. When it calls the supplier, it also gives the configuration the shared object then holds. The handle it builds is the value it was given.
- A supplier the creator keeps and calls after `createCache` returns is modelled by `Factory.ExoCacheFactory.Supply`, given the configuration the shared object holds at that call. The model does not track the shared object itself (aliasing). Changes the creator makes to it are visible only through the configuration passed to the supplier.
- The manager built from a custom template and discarded on a dedup hit is not kept in the engine state. It is never started.
- `plugin.getCreators()` returning null makes `addCreator` throw a `NullPointerException` (`:418`). The model takes the creator list as a sequence and does not model that case.
- A region that `addConfig` maps to a null template takes the default or distributed path, because `customConfig != null` is checked (`:293`). The model's region-to-template map holds only non-null templates, so it does not express that case.
- Null elements in implementation sets, and a null key in the implementation table, are not modelled. A null implementation name on a request is `None` and matches no alias.
- Concurrency: the tables are unsynchronised `HashMap`s and the model is sequential.
- `PortalContainerCreator.java` (servlet bootstrap glue) and `IDGeneratorService.java` (an interface without behaviour) are not part of this model.
