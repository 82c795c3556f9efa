/**
 * Authentication of an approved device: it reads back both stored credentials and
 * sends them in one Authentication message.
 */
module Authenticate {
  import opened Types
  import opened Messages
  import opened Storage

  const AppIdNotSet: string := "AppId not set"
  const AppSecretNotSet: string := "AppSecret not set"

  /**
   * The Authentication message for the stored secrets. The application id is looked up
   * first, so a store missing both reports the missing id.
   */
  function AuthenticationMessage(values: map<Secret, string>): (r: Result<ClientMessage>)
    ensures AppId !in values ==> r == Err(AppIdNotSet)
    ensures AppId in values && AppSecret !in values ==> r == Err(AppSecretNotSet)
    ensures r.Ok? <==> AppId in values && AppSecret in values
    ensures r.Ok? ==> r.value.Authentication? && r.value.appId == values[AppId] && r.value.appSecret == values[AppSecret]
  {
    if AppId !in values then Err(AppIdNotSet)
    else if AppSecret !in values then Err(AppSecretNotSet)
    else Ok(Authentication(values[AppId], values[AppSecret]))
  }

  /**
   * Sends the Authentication message. A missing credential is reported and nothing is
   * sent; a send failure is reported. The store is only read.
   */
  method SendAuthenticate(outbound: OutboundChannel, store: SecretStore) returns (r: Result<()>)
    modifies outbound
    ensures AuthenticationMessage(store.values).Err? ==>
              r == Err(AuthenticationMessage(store.values).error) && outbound.sent == old(outbound.sent)
    ensures AuthenticationMessage(store.values).Ok? ==>
              && (r.Ok? <==> old(outbound.Open()))
              && (r.Err? ==> r.error == SendFailure)
              && outbound.sent == if old(outbound.Open()) then old(outbound.sent) + [AuthenticationMessage(store.values).value]
                                  else old(outbound.sent)
  {
    var appId := store.Get(AppId);
    if appId.None? {
      return Err(AppIdNotSet);
    }
    var appSecret := store.Get(AppSecret);
    if appSecret.None? {
      return Err(AppSecretNotSet);
    }
    r := outbound.Send(Authentication(appId.value, appSecret.value));
  }
}
