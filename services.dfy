/** A service's configuration: constructor validation and defaults, and its getters. */
module Services {
  import opened Wrappers
  import opened Php
  import opened Errors

  /** The configuration array given to the service constructor; None is a missing key. */
  datatype ServiceSpec = ServiceSpec(
    name: Option<string>,
    protocol: Option<string>,
    host: Option<string>,
    port: Option<int>,
    path: Option<string>,
    retries: Option<int>,
    connectionTimeout: Option<int>,
    connectTimeout: Option<int>,
    writeTimeout: Option<int>,
    readTimeout: Option<int>)

  /**
   * The stored configuration. `connectTimeout` is the `connect_timeout` key, which has no
   * default (the defaulted key is `connection_timeout`), so it stays optional.
   */
  datatype ServiceConfig = ServiceConfig(
    name: string,
    protocol: string,
    host: string,
    port: int,
    path: string,
    retries: int,
    connectionTimeout: int,
    connectTimeout: Option<int>,
    writeTimeout: int,
    readTimeout: int)

  const DEFAULT_RETRIES := 5
  const DEFAULT_TIMEOUT := 60000

  /**
   * The service constructor's checks and defaults: protocol, host and port must not be
   * empty in PHP's sense, checked in that order; the other keys are defaulted.
   */
  function ServiceConfigOf(spec: ServiceSpec): (r: Result<ServiceConfig, ConfigError>)
    ensures r.Failure? <==> EmptyString(spec.protocol) || EmptyString(spec.host) || EmptyInt(spec.port)
    ensures EmptyString(spec.protocol) ==> r == Failure(MissingValue("protocol"))
    ensures !EmptyString(spec.protocol) && EmptyString(spec.host) ==> r == Failure(MissingValue("host"))
    ensures !EmptyString(spec.protocol) && !EmptyString(spec.host) && EmptyInt(spec.port) ==>
      r == Failure(MissingValue("port"))
    ensures r.Success? ==>
      && r.value.protocol == spec.protocol.value && Truthy(r.value.protocol)
      && r.value.host == spec.host.value && Truthy(r.value.host)
      && r.value.port == spec.port.value && r.value.port != 0
      && r.value.name == (if spec.name.Some? then spec.name.value else "")
      && r.value.path == (if spec.path.Some? then spec.path.value else "")
      && r.value.retries == (if spec.retries.Some? then spec.retries.value else DEFAULT_RETRIES)
      && r.value.connectionTimeout == (if spec.connectionTimeout.Some? then spec.connectionTimeout.value else DEFAULT_TIMEOUT)
      && r.value.writeTimeout == (if spec.writeTimeout.Some? then spec.writeTimeout.value else DEFAULT_TIMEOUT)
      && r.value.readTimeout == (if spec.readTimeout.Some? then spec.readTimeout.value else DEFAULT_TIMEOUT)
      && r.value.connectTimeout == spec.connectTimeout
  {
    if EmptyString(spec.protocol) then Failure(MissingValue("protocol"))
    else if EmptyString(spec.host) then Failure(MissingValue("host"))
    else if EmptyInt(spec.port) then Failure(MissingValue("port"))
    else Success(ServiceConfig(
      spec.name.GetOr(""),
      spec.protocol.value,
      spec.host.value,
      spec.port.value,
      spec.path.GetOr(""),
      spec.retries.GetOr(DEFAULT_RETRIES),
      spec.connectionTimeout.GetOr(DEFAULT_TIMEOUT),
      spec.connectTimeout,
      spec.writeTimeout.GetOr(DEFAULT_TIMEOUT),
      spec.readTimeout.GetOr(DEFAULT_TIMEOUT)))
  }

  /**
   * `getConnectTimeout`: reads `connect_timeout`; None stands for the failing read of a
   * missing key (a null where an int must be returned).
   */
  function GetConnectTimeout(c: ServiceConfig): (timeout: Option<int>) {
    c.connectTimeout
  }

  /**
   * The timeout getter is defined only when `connect_timeout` was supplied, although
   * `connection_timeout` always has a value.
   */
  lemma ConnectTimeoutNotDefaulted(spec: ServiceSpec)
    requires ServiceConfigOf(spec).Success?
    ensures GetConnectTimeout(ServiceConfigOf(spec).value).Some? <==> spec.connectTimeout.Some?
    ensures ServiceConfigOf(spec).value.connectionTimeout == spec.connectionTimeout.GetOr(DEFAULT_TIMEOUT)
  {
  }
}
