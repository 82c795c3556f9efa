/**
 * The commands the control stream executes against the shared context. Each returns
 * success or an error; both commands modelled here always succeed.
 */
module Commands {
  import opened Types
  import opened DecisionCache
  import opened Contexts

  /** Hands a pushed token to the token provider. */
  class UpdateTokenCommand {
    const context: Context
    const token: string

    constructor (context: Context, token: string)
      ensures this.context == context && this.token == token
    {
      this.context := context;
      this.token := token;
    }

    /**
     * The provider now holds exactly the received token; the defaults and the cache are
     * untouched, and the command succeeds.
     */
    method Execute() returns (r: Result<()>)
      modifies context.tokenProvider
      ensures r == Ok(())
      ensures context.tokenProvider.token == Some(token)
      ensures context.View() == old(context.View()).(token := Some(token))
    {
      context.tokenProvider.Update(token);
      r := Ok(());
    }
  }

  /** Replaces the firewall defaults and rebuilds the cache from them. */
  class SetFirewallDefaultsCommand {
    const context: Context
    const defaults: FirewallDefaults

    constructor (context: Context, defaults: FirewallDefaults)
      ensures this.context == context && this.defaults == defaults
    {
      this.context := context;
      this.defaults := defaults;
    }

    /**
     * The defaults are now the pushed ones and the cache is a new, empty cache built
     * from them, so no decision cached before can be returned; the token is untouched,
     * and the command succeeds.
     */
    method Execute() returns (r: Result<()>)
      modifies context
      ensures r == Ok(())
      ensures context.firewallDefaults == defaults
      ensures fresh(context.cache) && context.cache.active == defaults.cache && context.cache.entries == map[]
      ensures context.View() == old(context.View()).(defaults := defaults, cache := Fresh(defaults))
      ensures forall k :: context.cache.Get(k) == None
    {
      context.firewallDefaults := defaults;
      context.cache := new Cache(defaults);
      r := Ok(());
    }
  }
}
