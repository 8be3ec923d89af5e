/** An upstream's configuration, its validation and defaults, and `ip`-mode target selection. */
module Upstreams {
  import opened Wrappers
  import opened Php
  import opened Errors
  import opened Http

  const HASH_NONE := "none"
  const HASH_IP := "ip"
  const HASH_HEADER := "header"
  const HASH_COOKIE := "cookie"

  const DEFAULT_SLOTS := 10000
  const DEFAULT_COOKIE_PATH := "/"

  /** The configuration array given to the upstream constructor; None is a missing key. */
  datatype UpstreamSpec = UpstreamSpec(
    name: Option<string>,
    slots: Option<int>,
    hashOn: Option<string>,
    hashFallback: Option<string>,
    hashOnHeader: Option<string>,
    hashFallbackHeader: Option<string>,
    hashOnCookie: Option<string>,
    hashOnCookiePath: Option<string>,
    cookiePath: Option<string>)

  /**
   * The stored configuration. `cookiePath` is the `cookie_path` key read by the cookie-path
   * getter; it is never defaulted (the defaulted key is `hash_on_cookie_path`).
   */
  datatype UpstreamConfig = UpstreamConfig(
    name: string,
    slots: int,
    hashOn: string,
    hashFallback: string,
    hashOnHeader: string,
    hashFallbackHeader: string,
    hashOnCookie: string,
    hashOnCookiePath: string,
    cookiePath: Option<string>)

  /** The upstream constructor: the name must not be empty; every other key is defaulted. */
  function UpstreamConfigOf(spec: UpstreamSpec): (r: Result<UpstreamConfig, ConfigError>)
    ensures r.Failure? <==> EmptyString(spec.name)
    ensures r.Failure? ==> r.error == MissingValue("name")
    ensures r.Success? ==>
      && r.value.name == spec.name.value && Truthy(r.value.name)
      && r.value.slots == (if spec.slots.Some? then spec.slots.value else DEFAULT_SLOTS)
      && r.value.hashOn == (if spec.hashOn.Some? then spec.hashOn.value else HASH_NONE)
      && r.value.hashFallback == (if spec.hashFallback.Some? then spec.hashFallback.value else HASH_NONE)
      && r.value.hashOnHeader == (if spec.hashOnHeader.Some? then spec.hashOnHeader.value else "")
      && r.value.hashFallbackHeader == (if spec.hashFallbackHeader.Some? then spec.hashFallbackHeader.value else "")
      && r.value.hashOnCookie == (if spec.hashOnCookie.Some? then spec.hashOnCookie.value else "")
      && r.value.hashOnCookiePath == (if spec.hashOnCookiePath.Some? then spec.hashOnCookiePath.value else DEFAULT_COOKIE_PATH)
      && r.value.cookiePath == spec.cookiePath
  {
    if EmptyString(spec.name) then Failure(MissingValue("name"))
    else Success(UpstreamConfig(
      spec.name.value,
      spec.slots.GetOr(DEFAULT_SLOTS),
      spec.hashOn.GetOr(HASH_NONE),
      spec.hashFallback.GetOr(HASH_NONE),
      spec.hashOnHeader.GetOr(""),
      spec.hashFallbackHeader.GetOr(""),
      spec.hashOnCookie.GetOr(""),
      spec.hashOnCookiePath.GetOr(DEFAULT_COOKIE_PATH),
      spec.cookiePath))
  }

  /** `getHashOnCookiePath`: reads `cookie_path`; None stands for the failing read of a missing key. */
  function GetHashOnCookiePath(c: UpstreamConfig): (path: Option<string>) {
    c.cookiePath
  }

  /** The defaulted `hash_on_cookie_path` is never what the cookie-path getter returns. */
  lemma CookiePathGetterIgnoresDefault(spec: UpstreamSpec)
    requires UpstreamConfigOf(spec).Success? && spec.cookiePath.None?
    ensures GetHashOnCookiePath(UpstreamConfigOf(spec).value).None?
    ensures spec.hashOnCookiePath.None? ==> UpstreamConfigOf(spec).value.hashOnCookiePath == DEFAULT_COOKIE_PATH
  {
  }

  /**
   * `ip2long($ip) % count`: an invalid or missing address is `false`, which counts as 0.
   * The address is non-negative and the count positive, so PHP's truncating `%` agrees with Dafny's.
   */
  function IpIndex(ip: Option<Ip2Long>, n: nat): (k: nat)
    requires n > 0
    ensures k < n
    ensures ip.None? ==> k == 0
    ensures ip.Some? ==> exists q: nat :: ip.value == q * n + k
  {
    if ip.None? then 0
    else
      var v := ip.value;
      assert v == (v / n) * n + v % n;
      v % n
  }

  /**
   * `ip`-mode selection: the target at the address' index. An empty list fails (the
   * modulo by zero).
   */
  function SelectByIp<T>(targets: seq<T>, ip: Option<Ip2Long>): (r: Result<T, ProxyError>)
    ensures r.Failure? <==> targets == []
    ensures r.Failure? ==> r.error == NoTargets
    ensures r.Success? ==> r.value in targets && r.value == targets[IpIndex(ip, |targets|)]
  {
    if targets == [] then Failure(NoTargets) else Success(targets[IpIndex(ip, |targets|)])
  }

  /**
   * The address-to-index mapping depends on the target count: for two different counts
   * some address lands on different indices.
   */
  lemma IpMappingDependsOnCount(n: nat, m: nat)
    requires 0 < n < m < 0x1_0000_0000
    ensures exists ip: Ip2Long :: IpIndex(Some(ip), n) != IpIndex(Some(ip), m)
  {
    var ip: Ip2Long := n;
    assert IpIndex(Some(ip), n) == 0;
    assert IpIndex(Some(ip), m) == n;
  }
}
