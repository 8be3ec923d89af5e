/**
 * The proxy middleware: route detection over the registered services, upstream lookup and
 * target selection, the outbound request rewrite and the response rewrite, with the
 * transport left as an abstract `dispatch` function.
 */
module Proxy {
  import opened Wrappers
  import opened Php
  import opened Errors
  import opened Http
  import opened Routes
  import opened Services
  import opened Upstreams
  import opened Targets
  import opened Model

  /** The token appended to `Via`. */
  const HEADER_VIA := "woody"

  /** The hop-by-hop headers dropped from both the outbound request and the response, in removal order. */
  const HeadersToRemove: seq<string> := ["Connection", "Content-Length", "Keep-Alive", "TE", "Transfer-Encoding"]

  const HopByHop: set<string> := set n | n in HeadersToRemove

  /**
   * The path once the route prefix is stripped: the first stored prefix the path starts with
   * is cut off once; a remainder that is falsy ("" or "0") becomes "".
   */
  function StripRoutePrefix(path: string, prefixes: seq<string>): (stripped: string) {
    match FirstPrefix(path, prefixes)
    case None => path
    case Some(k) =>
      var rest := path[|prefixes[k]|..];
      if Truthy(rest) then rest else ""
  }

  /** The outbound path: stripped when the route says so, then prefixed by a truthy service path. */
  function OutboundPath(path: string, rc: RouteConfig, sc: ServiceConfig): (outPath: string) {
    var stripped := if rc.stripPath then StripRoutePrefix(path, rc.paths) else path;
    if Truthy(sc.path) then sc.path + stripped else stripped
  }

  /** The request `prepareRequest` builds for the given route configuration, service and target address. */
  function PreparedRequest(req: Request, rc: RouteConfig, sc: ServiceConfig, target: string): (out: Request) {
    var uri := req.uri.(scheme := sc.protocol);
    var uri' := if rc.preserveHost then uri else uri.(host := HostOf(target), port := Some(PortOf(target)));
    var headers := if rc.preserveHost then req.headers else req.headers - {"Host"};
    req.(uri := uri'.(path := OutboundPath(req.uri.path, rc, sc)), headers := headers - HopByHop)
  }

  /** The new `Via` line: the old line, ", " when the old line is truthy, then "<version> woody". */
  function ViaValue(previous: string, protocolVersion: string): (via: string) {
    previous + (if Truthy(previous) then ", " else "") + protocolVersion + " " + HEADER_VIA
  }

  /** The response `postHandle` returns. */
  function PostHandled(resp: Response): (out: Response) {
    var headers := resp.headers - HopByHop;
    resp.(headers := headers["Via" := [ViaValue(HeaderLine(headers, "Via"), resp.protocolVersion)]])
  }

  /** Removes the hop-by-hop headers one name at a time, as both rewrite loops do. */
  method WithoutHopByHop(headers: Headers) returns (r: Headers)
    ensures r == headers - HopByHop
  {
    r := headers;
    for i := 0 to |HeadersToRemove|
      invariant r == headers - (set n | n in HeadersToRemove[..i])
    {
      assert HeadersToRemove[..i + 1] == HeadersToRemove[..i] + [HeadersToRemove[i]];
      r := r - {HeadersToRemove[i]};
    }
    assert HeadersToRemove[..|HeadersToRemove|] == HeadersToRemove;
  }

  class ProxyMiddleware {
    /** The transport collaborator: sends a prepared request, and returns a response or a failure. */
    const dispatch: Request -> Result<Response, TransportFailure>
    var services: seq<Service>
    var upstreams: seq<Upstream>

    constructor (dispatch: Request -> Result<Response, TransportFailure>)
      ensures this.dispatch == dispatch
      ensures services == [] && upstreams == []
    {
      this.dispatch := dispatch;
      services := [];
      upstreams := [];
    }

    /** Registers a service after the ones already registered. */
    method AddService(s: Service) returns (self: ProxyMiddleware)
      modifies this
      ensures services == old(services) + [s]
      ensures upstreams == old(upstreams)
      ensures self == this
    {
      services := services + [s];
      self := this;
    }

    /** Registers an upstream after the ones already registered. */
    method AddUpstream(u: Upstream) returns (self: ProxyMiddleware)
      modifies this
      ensures upstreams == old(upstreams) + [u]
      ensures services == old(services)
      ensures self == this
    {
      upstreams := upstreams + [u];
      self := this;
    }

    /** Route `ri` of service `si` exists and accepts the request. */
    ghost predicate RouteMatchesAt(req: Request, si: int, ri: int)
      reads this, services
    {
      && 0 <= si < |services| && 0 <= ri < |services[si].routes|
      && MatchUri(services[si].routes[ri].config, req.verb, req.uri)
    }

    /** Route `ri` of service `si` accepts the request and no route before it, in scan order, does. */
    ghost predicate IsFirstMatch(req: Request, si: int, ri: int)
      reads this, services
    {
      && RouteMatchesAt(req, si, ri)
      && (forall i, j :: 0 <= i < si && 0 <= j < |services[i].routes| ==> !RouteMatchesAt(req, i, j))
      && (forall j :: 0 <= j < ri ==> !RouteMatchesAt(req, si, j))
    }

    ghost predicate NoRouteMatches(req: Request)
      reads this, services
    {
      forall i, j :: 0 <= i < |services| && 0 <= j < |services[i].routes| ==> !RouteMatchesAt(req, i, j)
    }

    /** The first route, over services in registration order and then their routes, that matches. */
    method DetectRoute(req: Request) returns (res: Result<Route, ProxyError>, ghost si: nat, ghost ri: nat)
      ensures res.Success? ==> IsFirstMatch(req, si, ri) && res.value == services[si].routes[ri]
      ensures res.Failure? ==> res.error == RouteNotFound && NoRouteMatches(req)
    {
      var i := 0;
      while i < |services|
        invariant 0 <= i <= |services|
        invariant forall i', j :: 0 <= i' < i && 0 <= j < |services[i'].routes| ==> !RouteMatchesAt(req, i', j)
      {
        var routes := services[i].routes;
        var j := 0;
        while j < |routes|
          invariant 0 <= j <= |routes|
          invariant forall j' :: 0 <= j' < j ==> !RouteMatchesAt(req, i, j')
        {
          if MatchUri(routes[j].config, req.verb, req.uri) {
            return Success(routes[j]), i, j;
          }
          j := j + 1;
        }
        i := i + 1;
      }
      return Failure(RouteNotFound), 0, 0;
    }

    /** Upstream `k` is the first registered upstream named `host`. */
    ghost predicate IsFirstUpstreamFor(host: string, k: int)
      reads this
    {
      && 0 <= k < |upstreams| && upstreams[k].config.name == host
      && forall j :: 0 <= j < k ==> upstreams[j].config.name != host
    }

    ghost predicate NoUpstreamFor(host: string)
      reads this
    {
      forall j :: 0 <= j < |upstreams| ==> upstreams[j].config.name != host
    }

    /**
     * Delegates to the first upstream whose name is the route's service host; fails when no
     * upstream has that name or the route has no service.
     */
    method DetectTarget(route: Route, req: Request) returns (res: Result<Target, ProxyError>, ghost k: nat)
      modifies set u | u in upstreams
      ensures route.service == null ==>
        res == Failure(NoServiceBound) && forall u :: u in upstreams ==> u.targets == old(u.targets)
      ensures route.service != null && NoUpstreamFor(route.service.config.host) ==>
        res == Failure(UpstreamNotFound) && forall u :: u in upstreams ==> u.targets == old(u.targets)
      ensures route.service != null && !NoUpstreamFor(route.service.config.host) ==>
        && IsFirstUpstreamFor(route.service.config.host, k)
        && upstreams[k].Detected(req, res)
        && forall u :: u in upstreams && u != upstreams[k] ==> u.targets == old(u.targets)
    {
      if route.service == null {
        return Failure(NoServiceBound), 0;
      }
      var host := route.service.config.host;
      var i := 0;
      while i < |upstreams|
        invariant 0 <= i <= |upstreams|
        invariant forall j :: 0 <= j < i ==> upstreams[j].config.name != host
      {
        if host == upstreams[i].config.name {
          res := upstreams[i].DetectTarget(req);
          return res, i;
        }
        i := i + 1;
      }
      return Failure(UpstreamNotFound), 0;
    }

    /**
     * The outbound request: scheme override, host and port substitution unless the host is
     * preserved, route-prefix strip, service-path prefix, hop-by-hop removal.
     */
    method PrepareRequest(req: Request, route: Route, target: Target) returns (out: Request)
      requires route.service != null
      ensures out == PreparedRequest(req, route.config, route.service.config, target.target)
    {
      var service := route.service;
      var request := req;

      var uri := request.uri.(scheme := service.config.protocol);

      if !route.config.preserveHost {
        var port := service.config.port;
        uri := uri.(host := target.GetHost(), port := Some(target.GetPort(port)));
        request := request.(headers := request.headers - {"Host"});
      }

      var path := uri.path;
      if route.config.stripPath {
        var paths := route.config.paths;
        var i := 0;
        while i < |paths|
          invariant 0 <= i <= |paths|
          invariant path == uri.path
          invariant forall j :: 0 <= j < i ==> !(paths[j] <= path)
        {
          if paths[i] <= path {
            FirstPrefixIsFirst(path, paths, i);
            var rest := path[|paths[i]|..];
            path := if Truthy(rest) then rest else "";
            break;
          }
          i := i + 1;
        }
      }

      if Truthy(service.config.path) {
        path := service.config.path + path;
      }
      uri := uri.(path := path);

      var headers := WithoutHopByHop(request.headers);
      out := request.(headers := headers, uri := uri);
    }

    /** Drops the hop-by-hop headers and appends this proxy to `Via`. */
    method PostHandle(resp: Response) returns (out: Response)
      ensures out == PostHandled(resp)
    {
      var headers := WithoutHopByHop(resp.headers);
      var response := resp.(headers := headers);
      var via := HeaderLine(response.headers, "Via");
      via := via + (if Truthy(via) then ", " else "") + response.protocolVersion + " " + HEADER_VIA;
      out := response.(headers := response.headers["Via" := [via]]);
    }

    /**
     * Route detection, target selection and the request rewrite, in that order. The ghost
     * outputs name the first matching route (`si`, `ri`), the upstream asked for a target
     * (`k`) and what that upstream answered (`selection`).
     */
    method PreHandle(req: Request)
      returns (res: Result<Request, ProxyError>, ghost si: nat, ghost ri: nat, ghost k: nat,
               ghost selection: Result<Target, ProxyError>)
      modifies set u | u in upstreams
      ensures NoRouteMatches(req) <==> res == Failure(RouteNotFound)
      ensures res.Failure? ==> !res.error.Transport?
      ensures NoRouteMatches(req) ==> forall u :: u in upstreams ==> u.targets == old(u.targets)
      ensures !NoRouteMatches(req) ==>
        && IsFirstMatch(req, si, ri)
        && var route := services[si].routes[ri];
           if route.service == null then
             && res == Failure(NoServiceBound)
             && forall u :: u in upstreams ==> u.targets == old(u.targets)
           else if NoUpstreamFor(route.service.config.host) then
             && res == Failure(UpstreamNotFound)
             && forall u :: u in upstreams ==> u.targets == old(u.targets)
           else
             && IsFirstUpstreamFor(route.service.config.host, k)
             && upstreams[k].Detected(req, selection)
             && (forall u :: u in upstreams && u != upstreams[k] ==> u.targets == old(u.targets))
             && res == match selection
                       case Failure(e) => Failure(e)
                       case Success(t) => Success(PreparedRequest(req, route.config, route.service.config, t.target))
    {
      var r;
      r, si, ri := DetectRoute(req);
      if r.Failure? {
        return Failure(r.error), si, ri, 0, Failure(r.error);
      }
      var matched := r.value;
      var t;
      t, k := DetectTarget(matched, req);
      selection := t;
      if t.Failure? {
        return Failure(t.error), si, ri, k, selection;
      }
      var prepared := PrepareRequest(req, matched, t.value);
      res := Success(prepared);
    }

    /**
     * The whole pipeline: prepare, dispatch, rewrite the response. A failure before dispatch
     * means the transport is never asked; a transport failure is passed on unchanged. The
     * ghost outputs are those of `PreHandle`, and `prepared` is the request handed to the
     * transport, if any.
     */
    method Process(req: Request)
      returns (res: Result<Response, ProxyError>, ghost si: nat, ghost ri: nat, ghost k: nat,
               ghost selection: Result<Target, ProxyError>, ghost prepared: Option<Request>)
      modifies set u | u in upstreams
      ensures NoRouteMatches(req) ==>
        && res == Failure(RouteNotFound) && prepared.None?
        && forall u :: u in upstreams ==> u.targets == old(u.targets)
      ensures !NoRouteMatches(req) ==>
        && IsFirstMatch(req, si, ri)
        && var route := services[si].routes[ri];
           if route.service == null then
             && res == Failure(NoServiceBound) && prepared.None?
             && forall u :: u in upstreams ==> u.targets == old(u.targets)
           else if NoUpstreamFor(route.service.config.host) then
             && res == Failure(UpstreamNotFound) && prepared.None?
             && forall u :: u in upstreams ==> u.targets == old(u.targets)
           else
             && IsFirstUpstreamFor(route.service.config.host, k)
             && upstreams[k].Detected(req, selection)
             && (forall u :: u in upstreams && u != upstreams[k] ==> u.targets == old(u.targets))
             && (selection.Failure? ==> res == Failure(selection.error) && prepared.None?)
             && (selection.Success? ==>
                   prepared == Some(PreparedRequest(req, route.config, route.service.config, selection.value.target)))
      ensures prepared.None? ==> res.Failure? && !res.error.Transport?
      ensures prepared.Some? ==>
        res == match dispatch(prepared.value)
               case Success(r) => Success(PostHandled(r))
               case Failure(e) => Failure(Transport(e))
    {
      var pre;
      pre, si, ri, k, selection := PreHandle(req);
      if pre.Failure? {
        return Failure(pre.error), si, ri, k, selection, None;
      }
      prepared := Some(pre.value);
      var response := dispatch(pre.value);
      if response.Failure? {
        return Failure(Transport(response.error)), si, ri, k, selection, prepared;
      }
      var out := PostHandle(response.value);
      res := Success(out);
    }
  }

  /** A prefix at index `k` with no matching prefix before it is the one `FirstPrefix` finds. */
  lemma FirstPrefixIsFirst(path: string, prefixes: seq<string>, k: nat)
    requires k < |prefixes| && prefixes[k] <= path
    requires forall j :: 0 <= j < k ==> !(prefixes[j] <= path)
    ensures FirstPrefix(path, prefixes) == Some(k)
  {
  }

  /** With strip-path, exactly the first matching prefix is removed, once. */
  lemma StripRemovesFirstPrefix(path: string, prefixes: seq<string>, k: nat)
    requires k < |prefixes| && prefixes[k] <= path
    requires forall j :: 0 <= j < k ==> !(prefixes[j] <= path)
    ensures Truthy(path[|prefixes[k]|..]) ==> prefixes[k] + StripRoutePrefix(path, prefixes) == path
    ensures !Truthy(path[|prefixes[k]|..]) ==> StripRoutePrefix(path, prefixes) == ""
  {
    FirstPrefixIsFirst(path, prefixes, k);
    assert path == prefixes[k] + path[|prefixes[k]|..];
  }

  /** A path that starts with none of the prefixes is not stripped. */
  lemma StripWithoutMatchKeepsPath(path: string, prefixes: seq<string>)
    requires forall j :: 0 <= j < |prefixes| ==> !(prefixes[j] <= path)
    ensures StripRoutePrefix(path, prefixes) == path
  {
  }

  /** Stripping and prefixing on concrete paths, including the falsy "0" remainder. */
  lemma StripExamples()
    ensures StripRoutePrefix("/v1/users/5", ["/v1/users"]) == "/5"
    ensures StripRoutePrefix("/v1/users", ["/v1/users"]) == ""
    ensures StripRoutePrefix("/v10", ["/v1"]) == ""
    ensures StripRoutePrefix("/v1/x", ["/v2", "/v1", "/v"]) == "/x"
  {
    StripRemovesFirstPrefix("/v1/users/5", ["/v1/users"], 0);
    StripRemovesFirstPrefix("/v1/users", ["/v1/users"], 0);
    StripRemovesFirstPrefix("/v10", ["/v1"], 0);
    var v2: string, path: string := "/v2", "/v1/x";
    assert path[2] != v2[2];
    StripRemovesFirstPrefix("/v1/x", ["/v2", "/v1", "/v"], 1);
  }

  /** A truthy service path is prepended to the already stripped path; otherwise nothing is. */
  lemma ServicePathPrepended(path: string, rc: RouteConfig, sc: ServiceConfig)
    ensures Truthy(sc.path) ==>
      OutboundPath(path, rc, sc) == sc.path + (if rc.stripPath then StripRoutePrefix(path, rc.paths) else path)
    ensures !Truthy(sc.path) ==>
      OutboundPath(path, rc, sc) == (if rc.stripPath then StripRoutePrefix(path, rc.paths) else path)
    ensures !rc.stripPath && !Truthy(sc.path) ==> OutboundPath(path, rc, sc) == path
  {
  }

  /** Service path "/api" after stripping "/v1/users" from "/v1/users/5" gives "/api/5". */
  lemma OutboundPathExample(rc: RouteConfig, sc: ServiceConfig)
    requires rc.stripPath && rc.paths == ["/v1/users"] && sc.path == "/api"
    ensures OutboundPath("/v1/users/5", rc, sc) == "/api/5"
  {
    StripExamples();
  }

  /** The outbound scheme is the service protocol, whatever the inbound scheme was. */
  lemma PreparedSchemeIsServiceProtocol(req: Request, rc: RouteConfig, sc: ServiceConfig, target: string)
    ensures PreparedRequest(req, rc, sc, target).uri.scheme == sc.protocol
  {
  }

  /** Host and port come from the target and `Host` is dropped, unless the host is preserved. */
  lemma PreparedHostAndPort(req: Request, rc: RouteConfig, sc: ServiceConfig, target: string)
    ensures var out := PreparedRequest(req, rc, sc, target);
      !rc.preserveHost ==>
        out.uri.host == HostOf(target) && out.uri.port == Some(PortOf(target)) && "Host" !in out.headers
    ensures var out := PreparedRequest(req, rc, sc, target);
      rc.preserveHost ==>
        && out.uri.host == req.uri.host && out.uri.port == req.uri.port
        && ("Host" in out.headers <==> "Host" in req.headers)
        && ("Host" in req.headers ==> out.headers["Host"] == req.headers["Host"])
  {
  }

  /**
   * The hop-by-hop headers are absent from the outbound request; every other header is kept
   * with its values, except `Host` when the host is not preserved.
   */
  lemma PreparedHeaders(req: Request, rc: RouteConfig, sc: ServiceConfig, target: string)
    ensures var out := PreparedRequest(req, rc, sc, target);
      forall n :: n in HopByHop ==> n !in out.headers
    ensures var out := PreparedRequest(req, rc, sc, target);
      forall n :: n in req.headers && n !in HopByHop && (rc.preserveHost || n != "Host") ==>
        n in out.headers && out.headers[n] == req.headers[n]
    ensures PreparedRequest(req, rc, sc, target).headers.Keys <= req.headers.Keys
  {
  }

  /** The rewrite touches only the URI's scheme, host, port and path and the headers. */
  lemma PreparedKeepsTheRest(req: Request, rc: RouteConfig, sc: ServiceConfig, target: string)
    ensures var out := PreparedRequest(req, rc, sc, target);
      && out.verb == req.verb && out.body == req.body && out.remoteAddr == req.remoteAddr
      && out.uri.query == req.uri.query
  {
  }

  /** The `Via` line is the old one plus "<version> woody", comma-separated when the old one is truthy. */
  lemma ViaAccumulates(previous: string, protocolVersion: string)
    ensures previous == "" ==> ViaValue(previous, protocolVersion) == protocolVersion + " woody"
    ensures Truthy(previous) ==>
      ViaValue(previous, protocolVersion) == previous + ", " + protocolVersion + " woody"
  {
  }

  /**
   * The response rewrite drops the hop-by-hop headers, sets exactly one `Via` value, and keeps
   * every other header, the status, the protocol version and the body.
   */
  lemma PostHandledHeaders(resp: Response)
    ensures var out := PostHandled(resp);
      && (forall n :: n in HopByHop ==> n !in out.headers)
      && out.headers["Via"] == [ViaValue(HeaderLine(resp.headers, "Via"), resp.protocolVersion)]
      && out.headers.Keys == (resp.headers.Keys - HopByHop) + {"Via"}
      && (forall n :: n in resp.headers && n !in HopByHop && n != "Via" ==> out.headers[n] == resp.headers[n])
      && out.status == resp.status && out.protocolVersion == resp.protocolVersion && out.body == resp.body
  {
    assert "Via" !in HopByHop;
  }

  /** A first hop gets a single "1.1 woody" entry; a second hop appends after a comma. */
  lemma ViaExamples(resp: Response)
    requires resp.protocolVersion == "1.1"
    ensures "Via" !in resp.headers ==> PostHandled(resp).headers["Via"] == ["1.1 woody"]
    ensures "Via" in resp.headers && resp.headers["Via"] == ["1.0 edge"] ==>
      PostHandled(resp).headers["Via"] == ["1.0 edge, 1.1 woody"]
  {
    PostHandledHeaders(resp);
    var h := resp.headers - HopByHop;
    if "Via" !in resp.headers {
      assert HeaderLine(h, "Via") == "";
      assert ViaValue("", "1.1") == "1.1 woody";
    }
    if "Via" in resp.headers && resp.headers["Via"] == ["1.0 edge"] {
      assert HeaderLine(h, "Via") == "1.0 edge";
      assert ViaValue("1.0 edge", "1.1") == "1.0 edge, 1.1 woody";
    }
  }
}
