/**
 * The HTTP messages the proxy rewrites, reduced to what its rules look at: method, URI parts,
 * a header map from canonical names to values, the client address and the protocol version.
 */
module Http {
  import opened Wrappers
  import Php

  /** What `ip2long` yields for a valid IPv4 address: a natural below 2^32. */
  type Ip2Long = x: int | 0 <= x < 0x1_0000_0000

  /** A header multimap, keyed by canonical header name. */
  type Headers = map<string, seq<string>>

  datatype Uri = Uri(scheme: string, host: string, port: Option<int>, path: string, query: string)

  /**
   * An inbound server request. `remoteAddr` is `ip2long` of the `remote_addr` server
   * parameter, or None when that parameter is missing or not a valid address.
   */
  datatype Request = Request(verb: string, uri: Uri, headers: Headers, remoteAddr: Option<Ip2Long>, body: string)

  datatype Response = Response(status: int, protocolVersion: string, headers: Headers, body: string)

  /** PSR-7 `getHeaderLine`: the values of a header joined by ", ", or "" when it is absent. */
  function HeaderLine(h: Headers, name: string): (line: string) {
    if name in h then Php.Join(h[name], ", ") else ""
  }
}
