/**
 * The configuration objects: routes owned by services, targets owned by upstreams, each
 * child holding a mutable back-reference to its owner. They live in one module because
 * those references are mutual.
 */
module Model {
  import opened Wrappers
  import opened Errors
  import opened Http
  import opened Routes
  import opened Services
  import opened Upstreams
  import opened Targets

  class Route {
    const config: RouteConfig
    var service: Service?

    /** Merges the defaults into the given configuration; the service is optional. */
    constructor (spec: RouteSpec, service: Service?)
      ensures config == RouteConfigOf(spec)
      ensures this.service == service
    {
      config := RouteConfigOf(spec);
      this.service := service;
    }

    /** Replaces the back-reference and returns the same route. */
    method SetService(s: Service) returns (self: Route)
      modifies this
      ensures service == s
      ensures self == this
    {
      service := s;
      self := this;
    }
  }

  class Service {
    const config: ServiceConfig
    var routes: seq<Route>

    /** Stores a validated configuration and attaches the given routes in order. */
    constructor (config: ServiceConfig, routes: seq<Route>)
      modifies set r | r in routes
      ensures this.config == config
      ensures this.routes == routes
      ensures forall r :: r in routes ==> r.service == this
    {
      this.config := config;
      this.routes := [];
      new;
      var i := 0;
      while i < |routes|
        invariant 0 <= i <= |routes|
        invariant this.routes == routes[..i]
        invariant forall j :: 0 <= j < i ==> routes[j].service == this
        modifies this, set r | r in routes
      {
        var _ := AddRoute(routes[i]);
        i := i + 1;
      }
    }

    /**
     * `Service::__construct`, which throws: validation first, then the routes are
     * attached; a failed validation leaves the routes untouched.
     */
    static method Create(spec: ServiceSpec, routes: seq<Route>) returns (res: Result<Service, ConfigError>)
      modifies set r | r in routes
      ensures res.Failure? <==> ServiceConfigOf(spec).Failure?
      ensures res.Failure? ==> res.error == ServiceConfigOf(spec).error
      ensures res.Failure? ==> forall r :: r in routes ==> r.service == old(r.service)
      ensures res.Success? ==> fresh(res.value)
      ensures res.Success? ==> res.value.config == ServiceConfigOf(spec).value
      ensures res.Success? ==> res.value.routes == routes
      ensures res.Success? ==> forall r :: r in routes ==> r.service == res.value
    {
      var c := ServiceConfigOf(spec);
      if c.Failure? {
        return Failure(c.error);
      }
      var s := new Service(c.value, routes);
      return Success(s);
    }

    /** Appends the route and points its back-reference at this service. */
    method AddRoute(r: Route) returns (self: Service)
      modifies this, r
      ensures routes == old(routes) + [r]
      ensures r.service == this
      ensures self == this
    {
      var bound := r.SetService(this);
      routes := routes + [bound];
      self := this;
    }
  }

  class Upstream {
    const config: UpstreamConfig
    var targets: seq<Target>

    /** Stores the targets as given; their back-references are not set. */
    constructor (config: UpstreamConfig, targets: seq<Target>)
      ensures this.config == config
      ensures this.targets == targets
    {
      this.config := config;
      this.targets := targets;
    }

    /** `Upstream::__construct`, which throws: the name is validated first. */
    static method Create(spec: UpstreamSpec, targets: seq<Target>) returns (res: Result<Upstream, ConfigError>)
      ensures res.Failure? <==> UpstreamConfigOf(spec).Failure?
      ensures res.Failure? ==> res.error == UpstreamConfigOf(spec).error
      ensures res.Success? ==> fresh(res.value)
      ensures res.Success? ==> res.value.config == UpstreamConfigOf(spec).value
      ensures res.Success? ==> res.value.targets == targets
    {
      var c := UpstreamConfigOf(spec);
      if c.Failure? {
        return Failure(c.error);
      }
      var u := new Upstream(c.value, targets);
      return Success(u);
    }

    /** Appends the target and points its back-reference at this upstream. */
    method AddTarget(t: Target) returns (self: Upstream)
      modifies this, t
      ensures targets == old(targets) + [t]
      ensures t.upstream == this
      ensures self == this
    {
      var bound := t.SetUpstream(this);
      targets := targets + [bound];
      self := this;
    }

    /**
     * What one call of `detectTarget` may do: in `none` mode the stored list is permuted and
     * its new head returned; in `ip` mode the list is kept and the address picks the index;
     * any other mode fails and keeps the list.
     */
    twostate predicate Detected(req: Request, new res: Result<Target, ProxyError>)
      reads this
    {
      if config.hashOn == HASH_NONE then
        && multiset(targets) == multiset(old(targets))
        && res == (if targets == [] then Failure(NoTargets) else Success(targets[0]))
      else if config.hashOn == HASH_IP then
        && targets == old(targets)
        && res == SelectByIp(targets, req.remoteAddr)
      else
        && targets == old(targets)
        && res == Failure(UnsupportedHashMode(config.hashOn))
    }

    /** Selects a target by the hash mode; `none` shuffles the stored list in place. */
    method DetectTarget(req: Request) returns (res: Result<Target, ProxyError>)
      modifies this
      ensures Detected(req, res)
    {
      if config.hashOn == HASH_NONE {
        // shuffle(): some permutation, with no claim about which
        var shuffled: seq<Target> :| multiset(shuffled) == multiset(targets);
        targets := shuffled;
        if targets == [] {
          res := Failure(NoTargets);
        } else {
          res := Success(targets[0]);
        }
      } else if config.hashOn == HASH_IP {
        res := SelectByIp(targets, req.remoteAddr);
      } else {
        res := Failure(UnsupportedHashMode(config.hashOn));
      }
    }
  }

  class Target {
    const target: string
    const weight: int
    var upstream: Upstream?

    /** Normalises the address and defaults the weight to 100. */
    constructor (spec: TargetSpec, upstream: Upstream?)
      ensures target == NormaliseTarget(spec.target)
      ensures weight == (if spec.weight.Some? then spec.weight.value else DEFAULT_WEIGHT)
      ensures this.upstream == upstream
    {
      target := NormaliseTarget(spec.target);
      weight := spec.weight.GetOr(DEFAULT_WEIGHT);
      this.upstream := upstream;
    }

    function GetHost(): (host: string) {
      HostOf(target)
    }

    /** The port of the address; the fallback argument is accepted and not used. */
    function GetPort(defaultPort: int): (port: int) {
      PortOf(target)
    }

    /** Replaces the back-reference and returns the same target. */
    method SetUpstream(u: Upstream) returns (self: Target)
      modifies this
      ensures upstream == u
      ensures self == this
    {
      upstream := u;
      self := this;
    }
  }

  /** The port never depends on the fallback passed to `getPort`. */
  lemma GetPortIgnoresDefault(t: Target, a: int, b: int)
    ensures t.GetPort(a) == t.GetPort(b)
  {
  }

  /** With one target, `none` mode always selects it. */
  lemma {:induction false} SingleTargetPermutation(s: seq<Target>, t: Target)
    requires multiset(s) == multiset([t])
    ensures s == [t]
  {
    assert |s| == |multiset(s)| == 1;
    assert s[0] in multiset(s);
  }
}
