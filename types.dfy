/**
 * Values shared by every part of the agent: optional values, results carrying an
 * error message, the firewall policy outcome and the server-pushed firewall defaults,
 * and the three secrets kept by the secret store.
 */
module Types {

  datatype Option<+T> = None | Some(value: T)

  /** The outcome of a fallible operation; errors carry the message the source reports. */
  datatype Result<+T> = Ok(value: T) | Err(error: string)

  /** Unsigned integers of the widths the source uses. */
  type u16 = x: nat | x < 0x1_0000
  type u64 = x: nat | x < 0x1_0000_0000_0000_0000

  /** The decision of the remote firewall service for one request. */
  datatype FirewallPolicy = Allow | Deny

  /**
   * The firewall defaults pushed by the control service: the timeout for decision
   * calls (milliseconds), the policy applied when a call times out, and whether the
   * decision cache is enabled.
   */
  datatype FirewallDefaults = FirewallDefaults(timeout: u64, policy: FirewallPolicy, cache: bool)
  {
    /**
     * The message's default value: every field at its zero. The policy enum's zero
     * value is taken to be `Allow`.
     */
    static function Default(): (d: FirewallDefaults)
      ensures d.timeout == 0 && !d.cache
      ensures d.policy == Allow
    {
      FirewallDefaults(0, Allow, false)
    }
  }

  /** The secrets the secret store keeps for the device. */
  datatype Secret = AppId | AppSecret | InstallationCode

  /** Replaces an absent string by the empty string, as `unwrap_or_default` does. */
  function UnwrapOrEmpty(o: Option<string>): (s: string)
    ensures o.Some? ==> s == o.value
    ensures o.None? ==> s == ""
  {
    match o
    case Some(v) => v
    case None => ""
  }
}
