/** The failures the proxy core can raise, at configuration time and per request. */
module Errors {
  import opened Wrappers

  /** An `InvalidArgumentException` thrown by a model constructor: the named key is missing or empty. */
  datatype ConfigError = MissingValue(key: string)

  /** What the transport collaborator reports when it cannot produce a response. */
  datatype TransportFailure = TransportFailure(message: string, code: Option<int>)

  /** A per-request failure of the pipeline. */
  datatype ProxyError =
    | RouteNotFound                         // no route of any service matches
    | UpstreamNotFound                      // no upstream is named like the route's service host
    | UnsupportedHashMode(mode: string)     // an upstream hash mode other than `none` and `ip`
    | NoTargets                             // selection over an upstream with no target
    | NoServiceBound                        // the matched route has no service back-reference
    | Transport(failure: TransportFailure)  // propagated unchanged from the transport
}
