/**
 * The authorization handshake: the device sends one authorization request, then reads
 * the stream, ignoring heartbeats, until the service approves (storing whatever
 * credentials it supplies) or rejects the device; anything else ends it with an error.
 */
module Authorization {
  import opened Types
  import opened Messages
  import opened Storage

  datatype Verdict = Approved | Rejected

  const Category: string := "AppGuard Client"
  const UuidUnavailable: string := "Failed to retrieve device UUID"
  const EmptyMessage: string := "Server sent an empty message"
  const EmptyPayload: string := "Malformed message (empty payload)"
  const UnexpectedMessage: string := "Unexpected message"

  /** The authorization request for a device with identifier `uuid`. */
  function Request(uuid: string, installationCode: string): ClientMessage
  {
    AuthorizationRequest(uuid, installationCode, Category, "", "")
  }

  /** The only payload the handshake passes over. */
  predicate IsKeepalive(p: ServerPayload)
  {
    p.Heartbeat?
  }

  /**
   * Stores the credentials an approval carries: the application id first, then the
   * application secret, each only when present. A refused write ends the storing with
   * an error; what was stored before it stays stored.
   */
  function StoreCredentials(values: map<Secret, string>, refused: set<Secret>, data: DeviceAuthorizedData)
    : (out: (Result<()>, map<Secret, string>))
    ensures out.0.Ok? <==> (data.appId.Some? ==> AppId !in refused) && (data.appSecret.Some? ==> AppSecret !in refused)
    ensures out.0.Err? ==> out.0.error == StoreFailure
    ensures InstallationCode in out.1 <==> InstallationCode in values
    ensures InstallationCode in values ==> out.1[InstallationCode] == values[InstallationCode]
    ensures data.appId.Some? && AppId !in refused ==> AppId in out.1 && out.1[AppId] == data.appId.value
    ensures data.appId.None? || AppId in refused ==>
              (AppId in out.1 <==> AppId in values) && (AppId in values ==> out.1[AppId] == values[AppId])
    ensures data.appSecret.Some? && out.0.Ok? ==> AppSecret in out.1 && out.1[AppSecret] == data.appSecret.value
    ensures data.appSecret.None? || AppSecret in refused || (data.appId.Some? && AppId in refused) ==>
              (AppSecret in out.1 <==> AppSecret in values) && (AppSecret in values ==> out.1[AppSecret] == values[AppSecret])
  {
    if data.appId.Some? && AppId in refused then (Err(StoreFailure), values)
    else
      var afterId := if data.appId.Some? then values[AppId := data.appId.value] else values;
      if data.appSecret.Some? && AppSecret in refused then (Err(StoreFailure), afterId)
      else (Ok(()), if data.appSecret.Some? then afterId[AppSecret := data.appSecret.value] else afterId)
  }

  /** Where the handshake ends: its result, the next read position, the stored secrets. */
  datatype HandshakeEnd = HandshakeEnd(result: Result<Verdict>, pos: nat, values: map<Secret, string>)

  /** How the handshake ends on the read at `i`, which is not a heartbeat. */
  function Decide(items: seq<StreamItem>, i: nat, values: map<Secret, string>, refused: set<Secret>): HandshakeEnd
    requires !Skipped(ItemAt(items, i), IsKeepalive)
  {
    match ItemAt(items, i)
    case Err(e) => HandshakeEnd(Err(e), i + 1, values)
    case Ok(None) => HandshakeEnd(Err(EmptyMessage), i + 1, values)
    case Ok(Some(ServerMessage(None))) => HandshakeEnd(Err(EmptyPayload), i + 1, values)
    case Ok(Some(ServerMessage(Some(p)))) =>
      match p
      case DeviceAuthorized(data) =>
        var (stored, after) := StoreCredentials(values, refused, data);
        HandshakeEnd(if stored.Ok? then Ok(Approved) else Err(stored.error), i + 1, after)
      case AuthorizationRejected => HandshakeEnd(Ok(Rejected), i + 1, values)
      case _ => HandshakeEnd(Err(UnexpectedMessage), i + 1, values)
  }

  /** How the handshake ends when it starts reading at `pos`. */
  function Handshake(items: seq<StreamItem>, pos: nat, values: map<Secret, string>, refused: set<Secret>): HandshakeEnd
  {
    Decide(items, FirstStop(items, pos, IsKeepalive), values, refused)
  }

  /**
   * How authorization ends: without a device identifier, or when the request cannot be
   * sent, before anything is read; otherwise as the handshake says.
   */
  function Authorize(uuid: Option<string>, open: bool, items: seq<StreamItem>, pos: nat,
                     values: map<Secret, string>, refused: set<Secret>): HandshakeEnd
  {
    if uuid.None? then HandshakeEnd(Err(UuidUnavailable), pos, values)
    else if !open then HandshakeEnd(Err(SendFailure), pos, values)
    else Handshake(items, pos, values, refused)
  }

  /**
   * Runs the handshake. `uuid` is the device identifier the hardware lookup found, if
   * any. Without one, nothing is sent. Otherwise exactly one authorization request is
   * sent before anything is read, and the handshake ends as `Handshake` says.
   */
  method AwaitAuthorization(inbound: InboundStream, outbound: OutboundChannel, store: SecretStore,
                            uuid: Option<string>, installationCode: string)
    returns (r: Result<Verdict>)
    modifies inbound, outbound, store
    ensures outbound.sent == if uuid.Some? && old(outbound.Open()) then old(outbound.sent) + [Request(uuid.value, installationCode)]
                             else old(outbound.sent)
    ensures var e := Authorize(uuid, old(outbound.Open()), inbound.items, old(inbound.pos), old(store.values), store.refusedWrites);
            r == e.result && inbound.pos == e.pos && store.values == e.values
  {
    if uuid.None? {
      return Err(UuidUnavailable);
    }
    var sent := outbound.Send(Request(uuid.value, installationCode));
    if sent.Err? {
      return Err(sent.error);
    }

    ghost var start := inbound.pos;
    ghost var items := inbound.items;
    while true
      invariant inbound.items == items && start <= inbound.pos
      invariant forall j :: start <= j < inbound.pos ==> Skipped(ItemAt(items, j), IsKeepalive)
      invariant store.values == old(store.values)
      invariant outbound.sent == old(outbound.sent) + [Request(uuid.value, installationCode)]
      decreases |items| - inbound.pos
    {
      var item := inbound.Message();
      if !Skipped(item, IsKeepalive) {
        FirstStopIs(items, start, IsKeepalive, inbound.pos - 1);
      }
      if item.Err? {
        return Err(item.error);
      }
      if item.value.None? {
        return Err(EmptyMessage);
      }
      if item.value.value.message.None? {
        return Err(EmptyPayload);
      }
      match item.value.value.message.value {
        case DeviceAuthorized(data) =>
          if data.appId.Some? {
            var w := store.Set(AppId, data.appId.value);
            if w.Err? {
              return Err(w.error);
            }
          }
          if data.appSecret.Some? {
            var w := store.Set(AppSecret, data.appSecret.value);
            if w.Err? {
              return Err(w.error);
            }
          }
          return Ok(Approved);
        case AuthorizationRejected =>
          return Ok(Rejected);
        case Heartbeat =>
          // keep-alive while the service decides
        case _ =>
          return Err(UnexpectedMessage);
      }
    }
  }

  /** A heartbeat in front of the decisive message does not change how the handshake ends. */
  lemma {:induction false} HeartbeatIsIgnored(items: seq<StreamItem>, pos: nat, values: map<Secret, string>, refused: set<Secret>)
    requires Skipped(ItemAt(items, pos), IsKeepalive)
    ensures Handshake(items, pos, values, refused) == Handshake(items, pos + 1, values, refused)
  {
    FirstStopIs(items, pos + 1, IsKeepalive, FirstStop(items, pos, IsKeepalive));
  }

  /** A rejection leaves the stored secrets as they were. */
  lemma RejectionKeepsStorage(items: seq<StreamItem>, pos: nat, values: map<Secret, string>, refused: set<Secret>)
    requires Handshake(items, pos, values, refused).result == Ok(Rejected)
    ensures Handshake(items, pos, values, refused).values == values
    ensures ItemAt(items, Handshake(items, pos, values, refused).pos - 1) == Ok(Some(ServerMessage(Some(AuthorizationRejected))))
  {
  }

  /**
   * An approval comes from a `DeviceAuthorized` message after heartbeats only, and its
   * credentials are then exactly those stored.
   */
  lemma ApprovalStoresCredentials(items: seq<StreamItem>, pos: nat, values: map<Secret, string>, refused: set<Secret>)
    requires Handshake(items, pos, values, refused).result == Ok(Approved)
    ensures var e := Handshake(items, pos, values, refused);
            && pos < e.pos && HasPayload(ItemAt(items, e.pos - 1))
            && PayloadOf(ItemAt(items, e.pos - 1)).DeviceAuthorized?
            && (forall j :: pos <= j < e.pos - 1 ==> Skipped(ItemAt(items, j), IsKeepalive))
            && var data := PayloadOf(ItemAt(items, e.pos - 1)).data;
            && e.values == StoreCredentials(values, refused, data).1
            && (data.appId.Some? ==> e.values[AppId] == data.appId.value)
            && (data.appSecret.Some? ==> e.values[AppSecret] == data.appSecret.value)
  {
  }

  /**
   * Every message other than an approval, a rejection or a heartbeat ends the handshake
   * with "Unexpected message", and so do reads that deliver no message or no payload,
   * with their own errors.
   */
  lemma OtherReadsFail(items: seq<StreamItem>, pos: nat, values: map<Secret, string>, refused: set<Secret>)
    ensures var i := FirstStop(items, pos, IsKeepalive);
            var e := Handshake(items, pos, values, refused);
            && (ItemAt(items, i).Err? ==> e.result == Err(ItemAt(items, i).error))
            && (ItemAt(items, i) == Ok(None) ==> e.result == Err(EmptyMessage))
            && (ItemAt(items, i) == Ok(Some(ServerMessage(None))) ==> e.result == Err(EmptyPayload))
            && (HasPayload(ItemAt(items, i)) && !PayloadOf(ItemAt(items, i)).DeviceAuthorized?
                && !PayloadOf(ItemAt(items, i)).AuthorizationRejected? ==>
                  e.result == Err(UnexpectedMessage) && e.values == values)
  {
  }

  /** An approval carrying both credentials, with a backend accepting writes, stores both. */
  lemma ApprovalScenario(values: map<Secret, string>)
    ensures var items := [Ok(Some(ServerMessage(Some(DeviceAuthorized(DeviceAuthorizedData(Some("A"), Some("S")))))))];
            var e := Handshake(items, 0, values, {});
            && e.result == Ok(Approved)
            && e.values == values[AppId := "A"][AppSecret := "S"]
  {
  }

  /** A rejection after a heartbeat ends the handshake with `Rejected` and stores nothing. */
  lemma RejectionScenario(values: map<Secret, string>)
    ensures var items := [Ok(Some(ServerMessage(Some(Heartbeat)))), Ok(Some(ServerMessage(Some(AuthorizationRejected))))];
            var e := Handshake(items, 0, values, {});
            && e.result == Ok(Rejected) && e.values == values && e.pos == 2
  {
  }
}
