/**
 * A route's configuration with its construction-time defaults, and the matching rule
 * `Route::matchUri` over scheme, method and path prefixes.
 */
module Routes {
  import opened Wrappers
  import opened Php
  import opened Http

  const PROTOCOL_HTTP := "http"
  const PROTOCOL_HTTPS := "https"

  /** The configuration array given to the route constructor; None is a missing key. */
  datatype RouteSpec = RouteSpec(
    protocols: Option<seq<string>>,
    methods: Option<seq<string>>,
    hosts: Option<seq<string>>,
    paths: Option<seq<string>>,
    regexPriority: Option<int>,
    stripPath: Option<bool>,
    preserveHost: Option<bool>)

  /** The stored configuration once the defaults are merged in. */
  datatype RouteConfig = RouteConfig(
    protocols: seq<string>,
    methods: seq<string>,
    hosts: seq<string>,
    paths: seq<string>,
    regexPriority: int,
    stripPath: bool,
    preserveHost: bool)

  /**
   * The array union `$config += defaults`: a supplied key keeps its value, a missing
   * key takes the default.
   */
  function RouteConfigOf(spec: RouteSpec): (c: RouteConfig)
    ensures spec.protocols.Some? ==> c.protocols == spec.protocols.value
    ensures spec.protocols.None? ==> c.protocols == [PROTOCOL_HTTP, PROTOCOL_HTTPS]
    ensures spec.methods.Some? ==> c.methods == spec.methods.value
    ensures spec.methods.None? ==> c.methods == []
    ensures spec.hosts.Some? ==> c.hosts == spec.hosts.value
    ensures spec.hosts.None? ==> c.hosts == []
    ensures spec.paths.Some? ==> c.paths == spec.paths.value
    ensures spec.paths.None? ==> c.paths == []
    ensures spec.regexPriority.Some? ==> c.regexPriority == spec.regexPriority.value
    ensures spec.regexPriority.None? ==> c.regexPriority == 0
    ensures spec.stripPath.Some? ==> c.stripPath == spec.stripPath.value
    ensures spec.stripPath.None? ==> c.stripPath
    ensures spec.preserveHost.Some? ==> c.preserveHost == spec.preserveHost.value
    ensures spec.preserveHost.None? ==> !c.preserveHost
  {
    RouteConfig(
      spec.protocols.GetOr([PROTOCOL_HTTP, PROTOCOL_HTTPS]),
      spec.methods.GetOr([]),
      spec.hosts.GetOr([]),
      spec.paths.GetOr([]),
      spec.regexPriority.GetOr(0),
      spec.stripPath.GetOr(true),
      spec.preserveHost.GetOr(false))
  }

  /**
   * The index of the first prefix, in stored order, with which `path` starts
   * (`strpos($path, $prefix) === 0`).
   */
  function FirstPrefix(path: string, prefixes: seq<string>): (r: Option<nat>)
    ensures r.Some? ==> r.value < |prefixes| && prefixes[r.value] <= path
    ensures r.Some? ==> forall j :: 0 <= j < r.value ==> !(prefixes[j] <= path)
    ensures r.None? <==> forall j :: 0 <= j < |prefixes| ==> !(prefixes[j] <= path)
    decreases |prefixes|
  {
    if prefixes == [] then None
    else if prefixes[0] <= path then Some(0)
    else match FirstPrefix(path, prefixes[1..])
      case None => None
      case Some(k) => Some(k + 1)
  }

  /** `matchUri`: the scheme check, then the method check, then the first-prefix path check. */
  predicate MatchUri(c: RouteConfig, verb: string, uri: Uri) {
    if Truthy(uri.scheme) && uri.scheme !in c.protocols then false
    else if c.methods != [] && verb !in c.methods then false
    else FirstPrefix(uri.path, c.paths).Some?
  }

  /** A route matches exactly when all three conjuncts hold. */
  lemma MatchUriConjunction(c: RouteConfig, verb: string, uri: Uri)
    ensures MatchUri(c, verb, uri) <==>
      && (Truthy(uri.scheme) ==> uri.scheme in c.protocols)
      && (c.methods != [] ==> verb in c.methods)
      && (exists j :: 0 <= j < |c.paths| && c.paths[j] <= uri.path)
  {
    if FirstPrefix(uri.path, c.paths).Some? {
      var j := FirstPrefix(uri.path, c.paths).value;
      assert 0 <= j < |c.paths| && c.paths[j] <= uri.path;
    }
  }

  /** A route without paths never matches, whatever its methods or hosts. */
  lemma NoPathsNeverMatch(c: RouteConfig, verb: string, uri: Uri)
    requires c.paths == []
    ensures !MatchUri(c, verb, uri)
  {
  }

  /** A request that carries a scheme is rejected by a route with no protocols. */
  lemma EmptyProtocolsRejectSchemes(c: RouteConfig, verb: string, uri: Uri)
    requires c.protocols == [] && Truthy(uri.scheme)
    ensures !MatchUri(c, verb, uri)
  {
  }

  /** An empty method list accepts every method. */
  lemma EmptyMethodsAcceptAnyMethod(c: RouteConfig, verb: string, other: string, uri: Uri)
    requires c.methods == []
    ensures MatchUri(c, verb, uri) == MatchUri(c, other, uri)
  {
  }

  /** Host patterns and the regex priority play no part in matching. */
  lemma HostsAndPriorityIgnored(c: RouteConfig, hosts: seq<string>, priority: int, verb: string, uri: Uri)
    ensures MatchUri(c.(hosts := hosts, regexPriority := priority), verb, uri) == MatchUri(c, verb, uri)
  {
  }
}
