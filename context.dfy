/**
 * The shared context handed to every request handler: the token provider, the firewall
 * defaults and the decision cache; and the start-up sequence that builds it.
 */
module Contexts {
  import opened Types
  import opened DecisionCache
  import opened TokenProviders
  import opened Storage
  import opened Decimal

  /** The abstract value of a context: current token, firewall defaults, cache value. */
  datatype ContextView = ContextView(token: Option<string>, defaults: FirewallDefaults, cache: CacheView)

  class Context {
    const tokenProvider: TokenProvider
    var firewallDefaults: FirewallDefaults
    var cache: Cache

    function View(): ContextView
      reads this, tokenProvider, cache
    {
      ContextView(tokenProvider.token, firewallDefaults, cache.View())
    }

    /**
     * A context over `tokenProvider` with default firewall defaults and an empty cache
     * built from them (so inactive).
     */
    constructor (tokenProvider: TokenProvider)
      ensures this.tokenProvider == tokenProvider && fresh(cache)
      ensures firewallDefaults == FirewallDefaults.Default()
      ensures cache.View() == Fresh(FirewallDefaults.Default()) && !cache.active && cache.entries == map[]
    {
      this.tokenProvider := tokenProvider;
      firewallDefaults := FirewallDefaults.Default();
      cache := new Cache(FirewallDefaults.Default());
    }
  }

  /** The environment variables read at start-up. */
  const ControlServiceAddr: string := "CONTROL_SERVICE_ADDR"
  const ControlServicePort: string := "CONTROL_SERVICE_PORT"
  const InstallationCodeVar: string := "INSTALLATION_CODE"

  /** The message of reading an environment variable that is not set. */
  const VarNotPresent: string := "environment variable not found"

  const CodeNotSet: string := "Installation code not set"

  /**
   * The control service's host and port from the environment: both variables must be
   * set, the host is taken as is and the port must parse as a 16-bit number.
   */
  function ServiceAddress(env: map<string, string>): (r: Result<(string, u16)>)
    ensures ControlServiceAddr !in env ==> r == Err(VarNotPresent)
    ensures ControlServiceAddr in env && ControlServicePort !in env ==> r == Err(VarNotPresent)
    ensures ControlServiceAddr in env && ControlServicePort in env ==>
              (r.Ok? <==> ParseU16(env[ControlServicePort]).Ok?)
    ensures r.Ok? ==> r.value == (env[ControlServiceAddr], ParseU16(env[ControlServicePort]).value)
    ensures r.Err? && ControlServiceAddr in env && ControlServicePort in env ==>
              r.error == ParseU16(env[ControlServicePort]).error
  {
    if ControlServiceAddr !in env then Err(VarNotPresent)
    else if ControlServicePort !in env then Err(VarNotPresent)
    else
      match ParseU16(env[ControlServicePort])
      case Ok(port) => Ok((env[ControlServiceAddr], port))
      case Err(e) => Err(e)
  }

  /**
   * The installation code: the environment's if set, else the stored one, else the
   * error "Installation code not set".
   */
  function ResolveInstallationCode(env: map<string, string>, stored: map<Secret, string>): (r: Result<string>)
    ensures InstallationCodeVar in env ==> r == Ok(env[InstallationCodeVar])
    ensures InstallationCodeVar !in env && InstallationCode in stored ==> r == Ok(stored[InstallationCode])
    ensures r.Err? <==> InstallationCodeVar !in env && InstallationCode !in stored
    ensures r.Err? ==> r.error == CodeNotSet
  {
    if InstallationCodeVar in env then Ok(env[InstallationCodeVar])
    else if InstallationCode in stored then Ok(stored[InstallationCode])
    else Err(CodeNotSet)
  }

  /** A poll that observes this delivered value finds a usable token. */
  predicate Ready(o: Option<string>)
  {
    o.Some? && o.value != ""
  }

  /** The index of the first delivery that is a non-empty token, or `|ds|` when none is. */
  function FirstReady(ds: seq<Option<string>>): (i: nat)
    ensures i <= |ds|
    ensures i < |ds| ==> Ready(ds[i])
    ensures forall j :: 0 <= j < i ==> !Ready(ds[j])
  {
    if ds == [] then 0
    else if Ready(ds[0]) then 0
    else 1 + FirstReady(ds[1..])
  }

  /** The outcome of start-up; `Waiting` is a start-up still polling for its first token. */
  datatype Startup = Started(context: Context) | Failed(error: string) | Waiting

  /**
   * Builds the context. `env` is the process environment; `connectError` is the
   * failure, if any, of connecting to the control service; `defaultsRequest` answers the
   * firewall-defaults request made with a token. The control stream started meanwhile
   * runs concurrently: `deliveries[i]` is the token it delivered, if any, during the
   * i-th one-second sleep of the polling loop.
   */
  method NewContext(env: map<string, string>, connectError: Option<string>, store: SecretStore,
                    deliveries: seq<Option<string>>, defaultsRequest: string -> Result<FirewallDefaults>)
    returns (r: Startup)
    modifies store
    ensures ServiceAddress(env).Err? ==>
              r == Failed(ServiceAddress(env).error) && store.values == old(store.values)
    ensures ServiceAddress(env).Ok? && connectError.Some? ==>
              r == Failed(connectError.value) && store.values == old(store.values)
    ensures ServiceAddress(env).Ok? && connectError.None? && !store.usable ==>
              r == Failed(InitFailure) && store.values == old(store.values)
    ensures ServiceAddress(env).Ok? && connectError.None? && store.usable ==>
              var code := ResolveInstallationCode(env, old(store.values));
              && (code.Err? ==> r == Failed(CodeNotSet) && store.values == old(store.values))
              && (code.Ok? ==> store.values == Written(old(store.values), store.refusedWrites, InstallationCode, code.value))
              && (code.Ok? && InstallationCode in store.refusedWrites ==> r == Failed(StoreFailure))
              && (code.Ok? && InstallationCode !in store.refusedWrites ==>
                    var i := FirstReady(deliveries);
                    && (i == |deliveries| ==> r == Waiting)
                    && (i < |deliveries| && defaultsRequest(deliveries[i].value).Err? ==>
                          r == Failed(defaultsRequest(deliveries[i].value).error))
                    && (i < |deliveries| && defaultsRequest(deliveries[i].value).Ok? ==>
                          && r.Started?
                          && fresh(r.context) && fresh(r.context.tokenProvider) && fresh(r.context.cache)
                          && r.context.View() == ContextView(deliveries[i], defaultsRequest(deliveries[i].value).value,
                                                             Fresh(FirewallDefaults.Default()))))
  {
    var address := ServiceAddress(env);
    if address.Err? {
      return Failed(address.error);
    }
    if connectError.Some? {
      return Failed(connectError.value);
    }

    var init := store.Init();
    if init.Err? {
      return Failed(init.error);
    }

    var code := if InstallationCodeVar in env then Ok(env[InstallationCodeVar]) else Err(VarNotPresent);
    if code.Err? {
      code := match store.Get(InstallationCode)
              case Some(c) => Ok(c)
              case None => Err(CodeNotSet);
    }
    if code.Err? {
      return Failed(code.error);
    }
    var written := store.Set(InstallationCode, code.value);
    if written.Err? {
      return Failed(written.error);
    }

    var tokenProvider := new TokenProvider();
    var ctx := new Context(tokenProvider);

    var i := 0;
    var token := UnwrapOrEmpty(tokenProvider.Get());
    while token == ""
      invariant 0 <= i <= |deliveries|
      invariant token == UnwrapOrEmpty(tokenProvider.token)
      invariant token == "" ==> forall j :: 0 <= j < i ==> !Ready(deliveries[j])
      invariant token != "" ==> 0 < i && tokenProvider.token == deliveries[i - 1]
      invariant token != "" ==> forall j :: 0 <= j < i - 1 ==> !Ready(deliveries[j])
      invariant ctx.tokenProvider == tokenProvider && fresh(tokenProvider) && fresh(ctx) && fresh(ctx.cache)
      invariant ctx.firewallDefaults == FirewallDefaults.Default()
      invariant ctx.cache.View() == Fresh(FirewallDefaults.Default())
      invariant store.values == Written(old(store.values), store.refusedWrites, InstallationCode, code.value)
      decreases |deliveries| - i
    {
      if i == |deliveries| {
        return Waiting;
      }
      // one-second sleep, during which the control stream may deliver a token
      if deliveries[i].Some? {
        tokenProvider.Update(deliveries[i].value);
      }
      i := i + 1;
      token := UnwrapOrEmpty(tokenProvider.Get());
    }
    assert Ready(deliveries[i - 1]);
    assert FirstReady(deliveries) == i - 1;

    var defaults := defaultsRequest(token);
    if defaults.Err? {
      return Failed(defaults.error);
    }
    ctx.firewallDefaults := defaults.value;
    return Started(ctx);
  }
}
