/**
 * The holder of the current session token. Its source file is not part of this model:
 * the agent uses only that `update` replaces the token and that `get` returns the
 * current value, absent until the first update.
 */
module TokenProviders {
  import opened Types

  class TokenProvider {
    var token: Option<string>

    /** A new provider holds no token. */
    constructor ()
      ensures token == None
    {
      token := None;
    }

    /** The current token, without waiting. */
    function Get(): (r: Option<string>)
      reads this
      ensures r == token
    {
      token
    }

    /** Replaces the token wholesale; the next `Get` observes it. */
    method Update(t: string)
      modifies this
      ensures token == Some(t)
      ensures Get() == Some(t)
    {
      token := Some(t);
    }
  }
}
