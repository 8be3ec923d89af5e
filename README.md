# Woody proxy middleware: routing, selection and rewrite

This project models the core of a small PHP reverse proxy (a PSR-15 middleware). A request
is matched against the routes of the registered services; the matched route's service host
names an upstream; the upstream picks one of its targets; the request is rewritten for that
target (scheme, host and port, path, hop-by-hop headers) and handed to a transport; the
transport's response has its hop-by-hop headers dropped and this proxy appended to `Via`.

The model works on HTTP data: a method, a URI split into scheme, host, port, path and
query, a header map from canonical names to values, the client address as `ip2long` would
give it, and the response's protocol version. The transport is the abstract function
`dispatch(request)`, which yields a response or a transport failure.

Layout:

- `wrappers.dfy`, `errors.dfy`: `Option`/`Result`, configuration errors and per-request errors.
- `php.dfy`: the PHP behaviour the rules depend on: truthiness (`""` and `"0"` are false),
  `empty()`, `strpos` with one character, `explode`/`implode` and `intval`.
- `http.dfy`: URI, request, response, header line.
- `routes.dfy`, `services.dfy`, `upstreams.dfy`, `targets.dfy`: each model class's
  configuration array (a `*Spec` with a `None` for each missing key), its constructor's
  defaults and checks, and its pure rules (`matchUri`, `ip` selection, `host:port` parsing).
- `model.dfy`: the classes `Route`, `Service`, `Upstream`, `Target`, whose back-references
  and child lists are updated in place (one module, because the references are mutual).
- `proxy.dfy`: the `ProxyMiddleware` class and the functions that specify its rewrites.

Behaviours of the code that the model keeps on purpose:

- A route with an empty `paths` list never matches.
- A path stripped to `""` or `"0"` becomes `""`, not `/`.
- `Target::getPort` ignores its fallback argument.
- `none` mode permutes the upstream's stored target list.
- `getConnectTimeout` reads `connect_timeout` and `getHashOnCookiePath` reads `cookie_path`.
  Neither key is ever defaulted. Reading a missing key fails in PHP, and the model gives `None`.
- The `Via` separator depends on PHP truthiness. An old value `"0"` gets no comma.
- A target whose first `:` is at index 0 still gets `:80` appended, so its host is `""`.
- A matched route with no service back-reference fails with `NoServiceBound`. In PHP this is
  the type error of `getService()` returning null. `PrepareRequest` therefore requires a bound
  route, which its only caller guarantees.
- An upstream with no targets fails with `NoTargets` in both modes. In `none` mode `reset()`
  returns `false` where a target must be returned. In `ip` mode the modulo is by zero.
- The route constructor does not check that `hosts`, `paths` or `methods` is set, though
  src/Model/RouteInterface.php:26, :34 and :42 ask for at least one of them. A route with
  only `hosts` or `methods` can therefore never match.
- The target constructor never fails: a missing or empty target is normalised to `":80"` before
  its emptiness check.
- Without preserve-host the `Host` header is removed and its regeneration is left to the HTTP
  library's `withUri`. The doc-comment at src/Model/RouteInterface.php:68-71 says the upstream
  `Host` becomes the service's host; the code's URI carries the target's host instead.

## Model

Definitions with no contract of their own are specified by the rows that name them.
`Routes.MatchUri` is `Route::matchUri` (src/Model/Route.php:130-150). `Targets.HostOf` and
`Targets.PortOf` are `Target::getHost` and `Target::getPort` (src/Model/Target.php:58-74).
`Model.Target.GetHost` and `Model.Target.GetPort` are the same getters on the stored address
(src/Model/Target.php:58-74). `Services.GetConnectTimeout` is `Service::getConnectTimeout`
(src/Model/Service.php:114-117), and `Upstreams.GetHashOnCookiePath` is
`Upstream::getHashOnCookiePath` (src/Model/Upstream.php:118-121).
`Php.IntVal` is the `intval` call at src/Model/Target.php:73. `Model.Upstream.Detected` holds for the
outcomes `detectTarget` allows (src/Model/Upstream.php:146-164). `Proxy.StripRoutePrefix`,
`Proxy.OutboundPath` and `Proxy.PreparedRequest` give the path strip, the outbound path and the
whole request that `prepareRequest` builds (src/ProxyMiddleware.php:205-244).
`Proxy.ViaValue` and `Proxy.PostHandled` give the new `Via` line and the response that
`postHandle` returns (src/ProxyMiddleware.php:146-157).

| member | source | states |
|---|---|---|
| `Php.IndexOf` | src/Model/Target.php:35 | `strpos` with one character: the index of the first occurrence, with no occurrence before it; `None` exactly when the character is absent |
| `Php.Split` | src/Model/Target.php:60 | `explode`: at least one piece, and no piece contains the separator |
| `Php.JoinSplit` | src/Model/Target.php:60 | imploding the pieces of an explode gives back the string |
| `Php.SplitJoin` | src/Model/Target.php:71 | exploding an implode of separator-free pieces gives back the pieces |
| `Php.IntValOfDigits` | src/Model/Target.php:73 | `intval` of a string of digits is its decimal value |
| `Php.IntValStopsAtNonDigit` | src/Model/Target.php:73 | `intval` reads digits up to the first non-digit |
| `Php.IntValNonNumeric` | src/Model/Target.php:73 | text that starts with neither whitespace, a sign nor a digit has `intval` 0 |
| `Routes.RouteConfigOf` | src/Model/Route.php:36-47 | each key keeps its supplied value. Missing keys get the defaults: protocols `[http, https]`, methods/hosts/paths `[]`, regex_priority `0`, strip_path `true`, preserve_host `false` |
| `Routes.FirstPrefix` | src/Model/Route.php:143-147 | the index of the first stored prefix the path starts with, no earlier one doing so; `None` exactly when none does |
| `Routes.MatchUriConjunction` | src/Model/Route.php:130-150 | `matchUri` holds iff three checks pass: a truthy scheme is a strict member of `protocols`, a non-empty `methods` contains the method, and some path is a prefix of the URI path |
| `Routes.NoPathsNeverMatch` | src/Model/Route.php:143-149 | with empty `paths` no request matches |
| `Routes.EmptyProtocolsRejectSchemes` | src/Model/Route.php:133-135 | with empty `protocols` every request carrying a scheme is rejected |
| `Routes.EmptyMethodsAcceptAnyMethod` | src/Model/Route.php:138-140 | with empty `methods` the method does not affect the result |
| `Routes.HostsAndPriorityIgnored` | src/Model/Route.php:130-150 | `hosts` and `regex_priority` never affect the result |
| `Services.ServiceConfigOf` | src/Model/Service.php:35-54 | fails iff protocol, host or port is empty in PHP's sense. The first empty key, in that order, is the one reported. On success each key keeps its supplied value. Missing keys get the defaults: name/path `''`, retries 5, the three timeouts 60000 |
| `Services.ConnectTimeoutNotDefaulted` | src/Model/Service.php:114-117 | the connect-timeout getter has a value iff `connect_timeout` was supplied, while `connection_timeout` always has one (supplied or 60000) |
| `Upstreams.UpstreamConfigOf` | src/Model/Upstream.php:41-55 | fails iff the name is empty. On success each key keeps its supplied value. Missing keys get the defaults: slots 10000, hash modes `none`, names `''`, cookie path `/` |
| `Upstreams.CookiePathGetterIgnoresDefault` | src/Model/Upstream.php:118-121 | the cookie-path getter has no value without `cookie_path`, even though `hash_on_cookie_path` defaults to `/` |
| `Upstreams.IpIndex` | src/Model/Upstream.php:156-157 | the index is below the count and congruent to the address modulo the count; an invalid address gives 0 |
| `Upstreams.SelectByIp` | src/Model/Upstream.php:154-159 | fails iff there are no targets. Otherwise the result is the target at the address' index, so it is a member of the list |
| `Upstreams.IpMappingDependsOnCount` | src/Model/Upstream.php:157 | for two different target counts some address maps to different indices |
| `Targets.NormaliseTarget` | src/Model/Target.php:35-41 | the address always contains `:` and is never empty. `:80` is appended exactly when the input has no `:` or its first `:` is at index 0. Otherwise the input is kept as given |
| `Targets.HostAndPortAroundFirstColon` | src/Model/Target.php:58-74 | the host is the text before the first `:`. The port is `intval` of the text between the first and second `:` |
| `Targets.ColonFreeTargetGetsPort80` | src/Model/Target.php:35-37 | a colon-free `h` becomes `h:80`, with host `h` and port 80 |
| `Targets.HostPortRoundTrip` | src/Model/Target.php:35-74 | for `h:p` (`h` non-empty and colon-free, `p` digits) the address is kept, `getHost() + ":" + p` is the address, and the port is the value of `p` |
| `Targets.PortOfNonNumeric` | src/Model/Target.php:68-74 | for `h:p` with colon-free `h` and `p`, where `p` does not start like a number (for example `h:abc`), the port is 0 |
| `Targets.LeadingColonTarget` | src/Model/Target.php:35-37 | an address starting with `:` still gets `:80` appended, and its host is empty |
| `Targets.MissingTargetIsDefaultPort` | src/Model/Target.php:35-41 | a missing target becomes `":80"`, so the emptiness check cannot fire |
| `Model.Route.constructor` | src/Model/Route.php:34-51 | stores the defaulted configuration and the optional service |
| `Model.Route.SetService` | src/Model/Route.php:112-125 | replaces the back-reference and returns the same route |
| `Model.Service.constructor` | src/Model/Service.php:56-61 | stores the configuration. The routes are attached in order, each pointing back at this service |
| `Model.Service.Create` | src/Model/Service.php:33-61 | fails exactly as the validation does, leaving the routes untouched. Otherwise the new service holds the routes in order, each bound to it |
| `Model.Service.AddRoute` | src/Model/Service.php:138-151 | the route list gains the route at its end and nothing else changes. The route's service becomes this one |
| `Model.Upstream.constructor` | src/Model/Upstream.php:55-56 | stores the targets as given, without setting their back-references |
| `Model.Upstream.Create` | src/Model/Upstream.php:39-57 | fails exactly when the name is empty. Otherwise it stores the targets as given |
| `Model.Upstream.AddTarget` | src/Model/Upstream.php:128-141 | the target list gains the target at its end. The target's upstream becomes this one |
| `Model.Upstream.DetectTarget` | src/Model/Upstream.php:146-164 | `none`: the stored list becomes a permutation of itself and its new head is returned (empty list fails). `ip`: the list is kept and the address' index is returned. Any other mode fails with no fallback |
| `Model.Target.constructor` | src/Model/Target.php:29-45 | normalises the address. The weight is the one supplied, otherwise 100 |
| `Model.Target.SetUpstream` | src/Model/Target.php:87-92 | replaces the back-reference and returns the same target |
| `Model.GetPortIgnoresDefault` | src/Model/Target.php:68-74 | the port does not depend on the fallback argument |
| `Model.SingleTargetPermutation` | src/Model/Upstream.php:149-152 | a permutation of a one-target list is that list, so `none` mode returns the only target |
| `Proxy.WithoutHopByHop` | src/ProxyMiddleware.php:239-241 | removing the listed headers one by one removes exactly the hop-by-hop set |
| `Proxy.ProxyMiddleware.constructor` | src/ProxyMiddleware.php:63-67 | keeps the transport. No service or upstream is registered yet |
| `Proxy.ProxyMiddleware.AddService` | src/ProxyMiddleware.php:84-89 | appends the service and leaves the upstreams unchanged |
| `Proxy.ProxyMiddleware.AddUpstream` | src/ProxyMiddleware.php:96-101 | appends the upstream and leaves the services unchanged |
| `Proxy.ProxyMiddleware.DetectRoute` | src/ProxyMiddleware.php:164-176 | returns the first matching route, scanning services in order and then their routes in order. Fails with `RouteNotFound` exactly when no route matches |
| `Proxy.ProxyMiddleware.DetectTarget` | src/ProxyMiddleware.php:184-196 | delegates to the first upstream named like the route's service host, and every other upstream is unchanged. Fails with `UpstreamNotFound`, changing nothing, when there is none |
| `Proxy.ProxyMiddleware.PrepareRequest` | src/ProxyMiddleware.php:205-244 | the outbound request is `PreparedRequest` of the route, its service and the target address |
| `Proxy.ProxyMiddleware.PostHandle` | src/ProxyMiddleware.php:146-157 | the response is `PostHandled` of the transport's response |
| `Proxy.ProxyMiddleware.PreHandle` | src/ProxyMiddleware.php:133-139 | fails with `RouteNotFound` iff no route matches, and then no upstream changes. Otherwise the first matching route decides the rest. Without a service it fails with `NoServiceBound`. Without an upstream named like the service host it fails with `UpstreamNotFound`, changing nothing. Otherwise the first such upstream selects as `Detected` says, and no other upstream changes. Its failure is passed on, and its target yields `PreparedRequest` for that route |
| `Proxy.ProxyMiddleware.Process` | src/ProxyMiddleware.php:109-126 | the same case split as `PreHandle`. The transport is called exactly when a route, an upstream and a target were found, and then with `PreparedRequest` for the first matching route and the selected target. Every earlier failure leaves the transport uncalled. The transport's response is rewritten by `PostHandled`, and a transport failure is passed on unchanged |
| `Proxy.StripRemovesFirstPrefix` | src/ProxyMiddleware.php:221-230 | exactly the first matching prefix is removed, once. A falsy remainder becomes `''` |
| `Proxy.StripWithoutMatchKeepsPath` | src/ProxyMiddleware.php:221-230 | with no matching prefix the path is unchanged |
| `Proxy.StripExamples` | src/ProxyMiddleware.php:224-227 | `/v1/users/5` becomes `/5`. `/v1/users` and `/v10` become `''`. The first matching prefix in stored order wins |
| `Proxy.ServicePathPrepended` | src/ProxyMiddleware.php:233-236 | a truthy service path is prepended to the stripped path, and a falsy one adds nothing |
| `Proxy.OutboundPathExample` | src/ProxyMiddleware.php:221-236 | service path `/api` after stripping `/v1/users` turns `/v1/users/5` into `/api/5` |
| `Proxy.PreparedSchemeIsServiceProtocol` | src/ProxyMiddleware.php:210-211 | the outbound scheme is the service protocol |
| `Proxy.PreparedHostAndPort` | src/ProxyMiddleware.php:214-218 | without preserve-host: the host and port are the target's, and `Host` is removed. With preserve-host: the host, the port and `Host` are untouched |
| `Proxy.PreparedHeaders` | src/ProxyMiddleware.php:239-241 | the hop-by-hop headers are absent. Every other header is kept as it was, except `Host` when the host is not preserved |
| `Proxy.PreparedKeepsTheRest` | src/ProxyMiddleware.php:205-244 | the method, body, query and client address are unchanged |
| `Proxy.ViaAccumulates` | src/ProxyMiddleware.php:153-156 | with no old value the result is `"<version> woody"`. With a truthy old value it is `old, <version> woody` |
| `Proxy.PostHandledHeaders` | src/ProxyMiddleware.php:146-157 | the hop-by-hop headers are dropped and `Via` has exactly one value. Every other header, the status, the version and the body are kept |
| `Proxy.ViaExamples` | src/ProxyMiddleware.php:153-156 | a first hop gives `1.1 woody`. An existing `1.0 edge` becomes `1.0 edge, 1.1 woody` |

## Left out

- The transports (src/Driver/): network I/O, coroutines, the HTTP client and cookie jars. They become the abstract `dispatch` function.
- Logging and timing in `process`: `microtime` and the logger have no effect on the result.
- The interfaces (src/Model/*Interface.php) hold declarations only. Behaviour their comments describe and the classes lack (weighted selection, port and weight overrides) is not modelled.
- The randomness of `shuffle`: it is an arbitrary permutation, with no claim about its distribution.
- `ip2long` parsing: the request carries its result, a natural below 2^32, or `None` when the address is missing or invalid. `None` gives index 0.
- The case-insensitive lookup of `remote_addr` and of header names: the model uses canonical names.
- URI parsing and PSR-7 URI normalisation (default-port dropping, port range checks): the model works on URI parts.
- The automatic regeneration of `Host` inside `withUri`.
- PHP's loose `==` between the service host and the upstream name: the model uses string equality.
- `strpos` with an empty needle is taken with PHP 8 semantics (it matches at 0), which is what a prefix check gives.
- Php.IntValOfDigits, Php.IntValStopsAtNonDigit, Php.IntVal: `intval` on exponent notation (`"1e3"` is 1000 in PHP and 1 here) and its saturation at `PHP_INT_MAX` are not modelled. Only leading whitespace, sign and digits are. A port is at most five digits in practice.
- PHP type coercion of configuration values: each key has a single type in the model (strings, integers, booleans, string lists).
- Target arrays with non-sequential keys: target lists are sequences.
- The stored-but-unused fields (hosts, regex priority, slots, weight, retries, timeouts, fallback, header and cookie fields) are kept as data, with no behaviour.
- `isEnabled` always returns true.
- The simple getters (`getName`, `getProtocols`, `getRoutes`, `getTargets`, `getService`, `getWeight`, `getTarget` and the like): they are field reads of the stored configuration or object.
