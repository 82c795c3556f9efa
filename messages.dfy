/**
 * The messages of the control stream and the two ends of the stream as the agent sees
 * them: an inbound sequence of read results and an outbound queue of sent messages.
 */
module Messages {
  import opened Types

  /** Messages the device sends. */
  datatype ClientMessage =
    | AuthorizationRequest(uuid: string, code: string, category: string, deviceType: string, targetOs: string)
    | Authentication(appId: string, appSecret: string)

  /** The credentials an approval may carry; either may be absent. */
  datatype DeviceAuthorizedData = DeviceAuthorizedData(appId: Option<string>, appSecret: Option<string>)

  /** The payloads the control service sends. */
  datatype ServerPayload =
    | DeviceAuthorized(data: DeviceAuthorizedData)
    | AuthorizationRejected
    | Heartbeat
    | UpdateTokenCommand(token: string)
    | SetFirewallDefaults(defaults: FirewallDefaults)
    | DeviceDeauthorized

  /** An envelope, whose payload may be missing. */
  datatype ServerMessage = ServerMessage(message: Option<ServerPayload>)

  /**
   * The result of one read of the inbound stream: a transport error, the end of the
   * stream (`Ok(None)`), or a message.
   */
  type StreamItem = Result<Option<ServerMessage>>

  /** The read at position `i`: past the recorded items the stream has ended. */
  function ItemAt(items: seq<StreamItem>, i: nat): StreamItem
  {
    if i < |items| then items[i] else Ok(None)
  }

  /** The payload of a read that delivered a well-formed message. */
  predicate HasPayload(item: StreamItem)
  {
    item.Ok? && item.value.Some? && item.value.value.message.Some?
  }

  function PayloadOf(item: StreamItem): ServerPayload
    requires HasPayload(item)
  {
    item.value.value.message.value
  }

  /** The read delivered a payload that `skip` passes over. */
  predicate Skipped(item: StreamItem, skip: ServerPayload -> bool)
  {
    HasPayload(item) && skip(PayloadOf(item))
  }

  /** The position of the first read at or after `pos` that `skip` does not pass over. */
  function FirstStop(items: seq<StreamItem>, pos: nat, skip: ServerPayload -> bool): (i: nat)
    ensures pos <= i
    ensures !Skipped(ItemAt(items, i), skip)
    ensures forall j :: pos <= j < i ==> Skipped(ItemAt(items, j), skip)
    decreases |items| - pos
  {
    if !Skipped(ItemAt(items, pos), skip) then pos else FirstStop(items, pos + 1, skip)
  }

  /** A position reached over skipped reads only, at a read not skipped, is the first stop. */
  lemma FirstStopIs(items: seq<StreamItem>, pos: nat, skip: ServerPayload -> bool, i: nat)
    requires pos <= i && !Skipped(ItemAt(items, i), skip)
    requires forall j :: pos <= j < i ==> Skipped(ItemAt(items, j), skip)
    ensures FirstStop(items, pos, skip) == i
  {
  }

  /** The inbound half of the stream: the reads it will deliver, and how many were made. */
  class InboundStream {
    const items: seq<StreamItem>
    var pos: nat

    constructor (items: seq<StreamItem>)
      ensures this.items == items && pos == 0
    {
      this.items := items;
      pos := 0;
    }

    /** Reads the next item. */
    method Message() returns (r: StreamItem)
      modifies this
      ensures r == ItemAt(items, old(pos))
      ensures pos == old(pos) + 1
    {
      r := ItemAt(items, pos);
      pos := pos + 1;
    }
  }

  /** The message of a send on a closed channel. */
  const SendFailure: string := "Channel closed"

  /**
   * The outbound half of the stream: what was sent, and how many messages the receiver
   * takes before it goes away (from then on, every send is refused).
   */
  class OutboundChannel {
    var sent: seq<ClientMessage>
    const accepts: nat

    constructor (accepts: nat)
      ensures sent == [] && this.accepts == accepts
    {
      sent := [];
      this.accepts := accepts;
    }

    /** The receiver is still there. */
    predicate Open()
      reads this
    {
      |sent| < accepts
    }

    /** Queues `m` while the receiver is there; afterwards the channel refuses it. */
    method Send(m: ClientMessage) returns (r: Result<()>)
      modifies this
      ensures r.Ok? <==> old(Open())
      ensures r.Err? ==> r.error == SendFailure
      ensures sent == if old(Open()) then old(sent) + [m] else old(sent)
    {
      if |sent| < accepts {
        sent := sent + [m];
        r := Ok(());
      } else {
        r := Err(SendFailure);
      }
    }
  }
}
