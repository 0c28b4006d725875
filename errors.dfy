/** The exceptions the factory raises or lets through, as values. */
module Errors {
  import opened Wrappers

  /** The init parameter that names the main configuration template. */
  const CacheConfigTemplateKey := "cache.config.template"

  const ParameterPrefix := "The parameter '"
  const CacheInitPrefix := "The cache '"

  datatype FactoryError =
    /** No template parameter was given (a `RuntimeException`). */
    | ParameterNotSet(key: string)
    /** The main template's stream could not be opened. */
    | TemplateCannotBeLoaded(location: string)
    /** The main template's stream does not exist. */
    | TemplateNotFound(location: string)
    /** No manager could be built from the main template. */
    | ManagerCannotBeInitialized(location: string)
    /** Loading the JGroups configuration threw. */
    | JGroupsConfigCannotBeLoaded
    /** Opening a custom template's stream threw; the loader's exception is let through. */
    | TemplateStreamFailed(location: string)
    /** No manager could be built from a custom template (or its stream was missing). */
    | ManagerConstructionFailed(location: string)
    /** A distributed cache was asked for and no distributed cache manager was given (a `NullPointerException`). */
    | DistributedCacheManagerUndefined
    /** A creator's set of implementations was null (a `NullPointerException`). */
    | NullImplementations
    /** The creator threw while building the cache. */
    | CreatorFailed
    /** The wrapper every failure of `createCache` surfaces as. */
    | CacheInitFailed(region: string, cause: FactoryError)

  /** The exception message where the factory writes one itself; `None` where the message comes from elsewhere. */
  function Message(e: FactoryError): (r: Option<string>)
    ensures r.None? <==>
      e.JGroupsConfigCannotBeLoaded? || e.TemplateStreamFailed? || e.ManagerConstructionFailed? || e.CreatorFailed?
  {
    match e
    case ParameterNotSet(key) =>
      Some(ParameterPrefix + key + "' must be set")
    case TemplateCannotBeLoaded(location) =>
      Some("The configuration of the CacheManager cannot be loaded from '" + location + "'")
    case TemplateNotFound(location) =>
      Some("The configuration of the CacheManager cannot be found at '" + location + "'")
    case ManagerCannotBeInitialized(location) =>
      Some("Cannot initialize the CacheManager corresponding to the configuration '" + location + "'")
    case DistributedCacheManagerUndefined =>
      Some("The DistributedCacheManager has not been defined in the configuration,"
        + " please configure it at root container level if you want to use a distributed cache.")
    case NullImplementations => Some("The set of implementations cannot be null")
    case CacheInitFailed(region, _) =>
      Some(CacheInitPrefix + region + "' could not be initialized")
    case _ => None
  }

  /** The wrapper's message names the region, and the missing-parameter message names the parameter. */
  lemma MessageNamesSubject(e: FactoryError)
    requires e.CacheInitFailed? || e.ParameterNotSet?
    ensures var m := Message(e).value;
      && (e.CacheInitFailed? ==>
            |m| >= |CacheInitPrefix| + |e.region| && m[|CacheInitPrefix|..|CacheInitPrefix| + |e.region|] == e.region)
      && (e.ParameterNotSet? ==>
            |m| >= |ParameterPrefix| + |e.key| && m[|ParameterPrefix|..|ParameterPrefix| + |e.key|] == e.key)
  {
    if e.CacheInitFailed? {
      Framed(CacheInitPrefix, e.region, "' could not be initialized");
    } else {
      Framed(ParameterPrefix, e.key, "' must be set");
    }
  }

  /** The middle of `a + b + c` is `b`. */
  lemma Framed(a: string, b: string, c: string)
    ensures |a + b + c| == |a| + |b| + |c|
    ensures (a + b + c)[|a|..|a| + |b|] == b
  {
    assert (a + b + c)[|a|..|a| + |b|] == (a + b)[|a|..];
  }
}
