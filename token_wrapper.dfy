/**
 * A session token as a JWT string together with its decoded claims, and the local
 * expiry test with its five-minute margin. Decoding is done by a library that is not
 * part of this model; it is a parameter.
 *
 * As written, the test counts a token as expired only once the margin has passed
 * after its claimed expiry, a grace period rather than a safety margin. `IsExpired`
 * models the test as written; `IsExpiredEarly` is the test with the margin applied
 * before the expiry.
 */
module TokenWrappers {
  import opened Types

  /** The margin, in seconds, between the claimed expiry and the time the test uses. */
  const ExpirationMargin: nat := 60 * 5

  /** The decoded claims; only the expiry time (seconds since the epoch) is used. */
  datatype Token = Token(exp: u64)

  datatype TokenWrapper = TokenWrapper(jwt: string, info: Token)

  /**
   * Wraps `jwt` with its decoded claims. It fails exactly when decoding fails, with the
   * decoder's message, and keeps the JWT text unchanged.
   */
  function FromJwt(jwt: string, decode: string -> Result<Token>): (r: Result<TokenWrapper>)
    ensures r.Ok? <==> decode(jwt).Ok?
    ensures r.Ok? ==> r.value.jwt == jwt && r.value.info == decode(jwt).value
    ensures r.Err? ==> r.error == decode(jwt).error
  {
    match decode(jwt)
    case Ok(info) => Ok(TokenWrapper(jwt, info))
    case Err(e) => Err(e)
  }

  /** The number of distinct unsigned 64-bit values. */
  const U64Modulus: nat := 0x1_0000_0000_0000_0000

  /**
   * Whether the token is expired at time `now` (seconds since the epoch): its expiry
   * lies no later than the margin before `now`. The margin is subtracted from `now` in
   * unsigned 64-bit arithmetic, which wraps around for a clock earlier than the margin.
   */
  function IsExpired(w: TokenWrapper, now: u64): (expired: bool)
    ensures now >= ExpirationMargin ==> (expired <==> w.info.exp + ExpirationMargin <= now)
    ensures now < ExpirationMargin ==> (expired <==> w.info.exp <= U64Modulus + now - ExpirationMargin)
  {
    var cutoff := (now - ExpirationMargin) % U64Modulus;
    w.info.exp <= cutoff
  }

  /** Once expired, a token stays expired at every later time. */
  lemma ExpiryIsMonotone(w: TokenWrapper, now: u64, later: u64)
    requires ExpirationMargin <= now <= later
    requires IsExpired(w, now)
    ensures IsExpired(w, later)
  {
  }

  /**
   * With a clock past the margin, a token is not expired until the margin has passed
   * after its claimed expiry.
   */
  lemma ValidBeforeMargin(w: TokenWrapper, now: u64)
    requires now >= ExpirationMargin
    requires now < w.info.exp + ExpirationMargin
    ensures !IsExpired(w, now)
  {
  }

  /** As written, a token whose claimed expiry has passed still counts as valid. */
  lemma AcceptsLapsedToken()
    ensures var w := TokenWrapper("", Token(1000));
            && w.info.exp < 1200 && !IsExpired(w, 1200)
  {
  }

  /**
   * The test with the margin applied before the claimed expiry: a token counts as
   * expired from the margin before its expiry on.
   */
  function IsExpiredEarly(w: TokenWrapper, now: u64): (expired: bool)
    ensures expired <==> now >= w.info.exp - ExpirationMargin
  {
    w.info.exp <= now + ExpirationMargin
  }

  /**
   * A token the corrected test accepts cannot lapse within the margin, a lapsed token
   * is always expired, and expiry is monotone at every clock.
   */
  lemma EarlyExpiryKeepsMargin(w: TokenWrapper, now: u64, later: u64)
    requires now <= later
    ensures !IsExpiredEarly(w, now) ==> now + ExpirationMargin < w.info.exp
    ensures w.info.exp <= now ==> IsExpiredEarly(w, now)
    ensures IsExpiredEarly(w, now) ==> IsExpiredEarly(w, later)
  {
  }
}
