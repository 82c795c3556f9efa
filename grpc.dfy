/**
 * The client side of the firewall service: building the endpoint, and the calls that
 * fall back to a default answer when the service does not answer in time.
 */
module Grpc {
  import opened Types
  import opened Decimal

  /**
   * A remote call as the caller observes it: how many milliseconds it takes to
   * complete, and what it completes with.
   */
  datatype RemoteCall<T> = RemoteCall(latency: nat, result: Result<T>)

  /** The call is still running when the timeout, if any, expires. */
  predicate TimedOut<T>(call: RemoteCall<T>, timeout: Option<u64>)
  {
    timeout.Some? && call.latency > timeout.value
  }

  /**
   * Awaits the call. Without a timeout, or when the call completes within it, this is
   * the call's own result, error included; a call still running when the timeout
   * expires is abandoned and `default` is returned as a success.
   */
  function WaitUntilTimeout<T>(call: RemoteCall<T>, timeout: Option<u64>, default: T): (r: Result<T>)
    ensures !TimedOut(call, timeout) ==> r == call.result
    ensures TimedOut(call, timeout) ==> r == Ok(default)
  {
    match timeout
    case Some(t) => if call.latency <= t then call.result else Ok(default)
    case None => call.result
  }

  /** How long the caller waits, in milliseconds. */
  function WaitTime<T>(call: RemoteCall<T>, timeout: Option<u64>): (w: nat)
    ensures w <= call.latency
    ensures timeout.Some? ==> w <= timeout.value
    ensures !TimedOut(call, timeout) ==> w == call.latency
  {
    if TimedOut(call, timeout) then timeout.value else call.latency
  }

  /** An error reaches the caller only when the call itself failed in time. */
  lemma ErrorsComeFromTheCall<T>(call: RemoteCall<T>, timeout: Option<u64>, default: T)
    ensures WaitUntilTimeout(call, timeout, default).Err? <==> call.result.Err? && !TimedOut(call, timeout)
    ensures WaitUntilTimeout(call, timeout, default).Err? ==> WaitUntilTimeout(call, timeout, default) == call.result
  {
  }

  /** A longer timeout only lets more of the call's own result through. */
  lemma LongerTimeoutKeepsResult<T>(call: RemoteCall<T>, t1: u64, t2: u64, default: T)
    requires t1 <= t2
    requires WaitUntilTimeout(call, Some(t1), default) == call.result
    requires call.result != Ok(default)
    ensures WaitUntilTimeout(call, Some(t2), default) == call.result
  {
  }

  /**
   * The service's view of a TCP connection. Its other fields stay at their default
   * values in the fallback answer, so only the connection is modelled.
   */
  datatype TcpInfo<C> = TcpInfo(connection: Option<C>)
  datatype TcpResponse<C> = TcpResponse(tcpInfo: Option<TcpInfo<C>>)

  /** The answer to a request or response check: a firewall policy. */
  datatype AppGuardResponse = AppGuardResponse(policy: FirewallPolicy)

  /**
   * Reports a TCP connection. The fallback answer echoes the reported connection back,
   * so a timed-out call still describes the connection it was asked about.
   */
  function HandleTcpConnection<C>(call: RemoteCall<TcpResponse<C>>, timeout: Option<u64>, connection: C)
    : (r: Result<TcpResponse<C>>)
    ensures !TimedOut(call, timeout) ==> r == call.result
    ensures TimedOut(call, timeout) ==>
              && r.Ok? && r.value.tcpInfo.Some? && r.value.tcpInfo.value.connection == Some(connection)
  {
    WaitUntilTimeout(call, timeout, TcpResponse(Some(TcpInfo(Some(connection)))))
  }

  /**
   * Checks an HTTP request or response. The fallback answer carries the default policy,
   * so a timed-out call is decided by the defaults.
   */
  function HandlePolicyCall(call: RemoteCall<AppGuardResponse>, timeout: Option<u64>, defaultPolicy: FirewallPolicy)
    : (r: Result<AppGuardResponse>)
    ensures !TimedOut(call, timeout) ==> r == call.result
    ensures TimedOut(call, timeout) ==> r == Ok(AppGuardResponse(defaultPolicy))
  {
    WaitUntilTimeout(call, timeout, AppGuardResponse(defaultPolicy))
  }

  /** The URL scheme: `https` exactly when TLS is on. */
  function Scheme(tls: bool): string
  {
    if tls then "https" else "http"
  }

  /** The endpoint URL `scheme://host:port`. */
  function EndpointUrl(tls: bool, host: string, port: u16): string
  {
    Scheme(tls) + "://" + host + ":" + Format(port)
  }

  /** The index of the last colon of `s`, or -1 when it has none. */
  function LastColon(s: string): (i: int)
    ensures -1 <= i < |s|
    ensures i >= 0 ==> s[i] == ':'
    ensures forall j :: i < j < |s| ==> s[j] != ':'
  {
    if s == [] then -1
    else if s[|s| - 1] == ':' then |s| - 1
    else LastColon(s[..|s| - 1])
  }

  /** The URL's parts: whether it is `https`, its host, and its port. */
  function ParseEndpointUrl(url: string): Option<(bool, string, u16)>
  {
    var tls := |url| >= 8 && url[..8] == "https://";
    if !tls && !(|url| >= 7 && url[..7] == "http://") then None
    else
      var rest := if tls then url[8..] else url[7..];
      var c := LastColon(rest);
      if c < 0 then None
      else
        match ParseU16(rest[c + 1..])
        case Ok(port) => Some((tls, rest[..c], port))
        case Err(_) => None
  }

  /** Splitting `host:tail` at its last colon gives back the host and the tail. */
  lemma SplitAtLastColon(host: string, tail: string)
    requires ':' !in tail
    ensures var rest := host + ":" + tail;
            && LastColon(rest) == |host|
            && rest[..|host|] == host
            && rest[|host| + 1..] == tail
  {
    var rest := host + ":" + tail;
    assert rest[|host|] == ':';
    assert rest[..|host|] == host;
    assert rest[|host| + 1..] == tail;
  }

  /** Behind the scheme prefix, `https://` is recognised exactly when TLS is on. */
  lemma SchemePrefix(tls: bool, rest: string)
    ensures var url := Scheme(tls) + "://" + rest;
            && ((|url| >= 8 && url[..8] == "https://") <==> tls)
            && (tls ==> url[8..] == rest)
            && (!tls ==> |url| >= 7 && url[..7] == "http://" && url[7..] == rest)
  {
    var url := Scheme(tls) + "://" + rest;
    if tls {
      assert url[..8] == "https://";
      assert url[8..] == rest;
    } else {
      assert url[4] == ':';
      assert url[..7] == "http://";
      assert url[7..] == rest;
    }
  }

  /** The endpoint URL is the scheme prefix followed by `host:port`. */
  lemma EndpointUrlShape(tls: bool, host: string, port: u16)
    ensures EndpointUrl(tls, host, port) == Scheme(tls) + "://" + (host + ":" + Format(port))
  {
  }

  /**
   * The endpoint URL determines its parts: parsing it gives back the scheme choice,
   * the host (which may itself contain colons) and the port.
   */
  lemma EndpointUrlRoundTrip(tls: bool, host: string, port: u16)
    ensures ParseEndpointUrl(EndpointUrl(tls, host, port)) == Some((tls, host, port))
  {
    EndpointUrlShape(tls, host, port);
    SchemePrefix(tls, host + ":" + Format(port));
    FormatHasNoColon(port);
    SplitAtLastColon(host, Format(port));
    FormatParseRoundTrip(port);
  }

  /** The URL begins with `https://` exactly when TLS is on, and with `http://` otherwise. */
  lemma SchemeFollowsTls(tls: bool, host: string, port: u16)
    ensures var url := EndpointUrl(tls, host, port);
            (|url| >= 8 && url[..8] == "https://") <==> tls
    ensures !tls ==> EndpointUrl(tls, host, port)[..7] == "http://"
  {
    EndpointUrlShape(tls, host, port);
    SchemePrefix(tls, host + ":" + Format(port));
  }

  const ConnectTimeoutSecs: nat := 10

  /** A configured channel to the service. */
  datatype Endpoint = Endpoint(url: string, connectTimeoutSecs: nat, tlsConfigured: bool)

  /**
   * Builds and connects the client. `uriError` is the channel builder's verdict on a
   * URL (its error, if it refuses it), `tlsError` the failure, if any, of installing the
   * TLS configuration, and `connectError` the failure, if any, of connecting.
   */
  method NewAppGuardClient(host: string, port: u16, tls: bool, uriError: string -> Option<string>,
                           tlsError: Option<string>, connectError: Option<string>)
    returns (r: Result<Endpoint>)
    ensures uriError(EndpointUrl(tls, host, port)).Some? ==> r == Err(uriError(EndpointUrl(tls, host, port)).value)
    ensures uriError(EndpointUrl(tls, host, port)).None? && tls && tlsError.Some? ==> r == Err(tlsError.value)
    ensures uriError(EndpointUrl(tls, host, port)).None? && (!tls || tlsError.None?) && connectError.Some? ==>
              r == Err(connectError.value)
    ensures r.Ok? <==> uriError(EndpointUrl(tls, host, port)).None? && (!tls || tlsError.None?) && connectError.None?
    ensures r.Ok? ==> r.value == Endpoint(EndpointUrl(tls, host, port), ConnectTimeoutSecs, tls)
  {
    var url := EndpointUrl(tls, host, port);
    var refused := uriError(url);
    if refused.Some? {
      return Err(refused.value);
    }
    var endpoint := Endpoint(url, ConnectTimeoutSecs, false);
    if tls {
      if tlsError.Some? {
        return Err(tlsError.value);
      }
      endpoint := endpoint.(tlsConfigured := true);
    }
    if connectError.Some? {
      return Err(connectError.value);
    }
    return Ok(endpoint);
  }
}
