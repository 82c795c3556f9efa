/**
 * The control stream: connect, wait for authorization, authenticate, then execute the
 * service's commands one after the other until the stream ends.
 */
module ControlChannel {
  import opened Types
  import opened Messages
  import opened Storage
  import opened DecisionCache
  import opened Contexts
  import opened Commands
  import opened Authorization
  import opened Authenticate
  import opened CacheKeys

  /**
   * How the command loop ends: the stream closed (a failed read ends the loop
   * normally), an error, or the unimplemented transition after de-authorization.
   */
  datatype StreamEnd = Closed | Errored(error: string) | Aborted

  const MalformedMessage: string := "Malformed message"
  const RejectedError: string := "Auhtorization has been rejected"

  /** The payloads the loop executes and then keeps reading. */
  predicate IsCommand(p: ServerPayload)
  {
    p.UpdateTokenCommand? || p.Heartbeat? || p.SetFirewallDefaults?
  }

  /**
   * The effect of a command on the context: a pushed token replaces the token, pushed
   * defaults replace the defaults and rebuild the cache, a heartbeat changes nothing.
   * Payloads that are not commands have no effect here.
   */
  function Execute(v: ContextView, p: ServerPayload): ContextView
  {
    match p
    case UpdateTokenCommand(t) => v.(token := Some(t))
    case SetFirewallDefaults(d) => v.(defaults := d, cache := Fresh(d))
    case _ => v
  }

  /** The effect of the reads in `[from, until)`, executed in order. */
  function Run(v: ContextView, items: seq<StreamItem>, from: nat, until: nat): ContextView
    decreases until - from
  {
    if until <= from then v
    else
      var item := ItemAt(items, until - 1);
      var before := Run(v, items, from, until - 1);
      if HasPayload(item) then Execute(before, PayloadOf(item)) else before
  }

  /** The token of the last token command among the reads in `[from, until)`, if any. */
  function LastToken(items: seq<StreamItem>, from: nat, until: nat): Option<string>
    decreases until - from
  {
    if until <= from then None
    else
      var item := ItemAt(items, until - 1);
      if HasPayload(item) && PayloadOf(item).UpdateTokenCommand? then Some(PayloadOf(item).token)
      else LastToken(items, from, until - 1)
  }

  /** The defaults of the last defaults command among the reads in `[from, until)`, if any. */
  function LastDefaults(items: seq<StreamItem>, from: nat, until: nat): Option<FirewallDefaults>
    decreases until - from
  {
    if until <= from then None
    else
      var item := ItemAt(items, until - 1);
      if HasPayload(item) && PayloadOf(item).SetFirewallDefaults? then Some(PayloadOf(item).defaults)
      else LastDefaults(items, from, until - 1)
  }

  /** The secrets after de-authorization: the id and then the secret deleted, refusals ignored. */
  function Deauthorized(values: map<Secret, string>, refused: set<Secret>): map<Secret, string>
  {
    Deleted(Deleted(values, refused, AppId), refused, AppSecret)
  }

  /** Where the command loop ends: how, the next read position, the context, the secrets. */
  datatype DispatchEnd = DispatchEnd(end: StreamEnd, pos: nat, view: ContextView, values: map<Secret, string>)

  /** How the loop ends on the read at `i`, which is not a command, with context `v`. */
  function Finish(items: seq<StreamItem>, i: nat, v: ContextView, values: map<Secret, string>, refused: set<Secret>)
    : DispatchEnd
    requires !Skipped(ItemAt(items, i), IsCommand)
  {
    var item := ItemAt(items, i);
    if item.Err? then DispatchEnd(Closed, i + 1, v, values)
    else if !HasPayload(item) then DispatchEnd(Errored(MalformedMessage), i + 1, v, values)
    else if PayloadOf(item).DeviceDeauthorized? then DispatchEnd(Aborted, i + 1, v, Deauthorized(values, refused))
    else DispatchEnd(Errored(UnexpectedMessage), i + 1, v, values)
  }

  /**
   * How the command loop ends when it starts reading at `pos` with context `v`: it
   * executes every command up to the first read that is not one.
   */
  function Dispatch(items: seq<StreamItem>, pos: nat, v: ContextView, values: map<Secret, string>, refused: set<Secret>)
    : DispatchEnd
  {
    var stop := FirstStop(items, pos, IsCommand);
    Finish(items, stop, Run(v, items, pos, stop), values, refused)
  }

  /**
   * Reads and executes commands until the stream ends. A failed read closes the loop
   * normally; a read without a message or a payload, and an approval or rejection,
   * end it with an error; de-authorization deletes both credentials and aborts.
   */
  method ReceiveCommands(ctx: Context, inbound: InboundStream, store: SecretStore) returns (end: StreamEnd)
    modifies ctx, ctx.tokenProvider, inbound, store
    ensures var d := Dispatch(inbound.items, old(inbound.pos), old(ctx.View()), old(store.values), store.refusedDeletes);
            end == d.end && inbound.pos == d.pos && ctx.View() == d.view && store.values == d.values
  {
    ghost var start := inbound.pos;
    ghost var items := inbound.items;
    ghost var v0 := ctx.View();
    while true
      invariant inbound.items == items && start <= inbound.pos
      invariant forall j :: start <= j < inbound.pos ==> Skipped(ItemAt(items, j), IsCommand)
      invariant ctx.View() == Run(v0, items, start, inbound.pos)
      invariant store.values == old(store.values)
      decreases |items| - inbound.pos
    {
      var item := inbound.Message();
      if !Skipped(item, IsCommand) {
        FirstStopIs(items, start, IsCommand, inbound.pos - 1);
      }
      if item.Err? {
        return Closed;
      }
      if item.value.None? || item.value.value.message.None? {
        return Errored(MalformedMessage);
      }
      match item.value.value.message.value {
        case UpdateTokenCommand(token) =>
          var cmd := new UpdateTokenCommand(ctx, token);
          var res := cmd.Execute();
          if res.Err? {
            // the failure is only logged
          }
        case Heartbeat =>
          // the heartbeat command does nothing
        case DeviceDeauthorized =>
          var _ := store.Delete(AppId);
          var _ := store.Delete(AppSecret);
          return Aborted;
        case AuthorizationRejected =>
          return Errored(UnexpectedMessage);
        case DeviceAuthorized(_) =>
          return Errored(UnexpectedMessage);
        case SetFirewallDefaults(defaults) =>
          var cmd := new SetFirewallDefaultsCommand(ctx, defaults);
          var res := cmd.Execute();
          if res.Err? {
            // the failure is only logged
          }
      }
    }
  }

  /**
   * The whole control stream. `connectError` is the failure, if any, of opening the
   * stream; `uuid` is the device identifier the hardware lookup found, if any.
   */
  method ControlStream(ctx: Context, inbound: InboundStream, outbound: OutboundChannel, store: SecretStore,
                       connectError: Option<string>, uuid: Option<string>, installationCode: string)
    returns (end: StreamEnd)
    modifies ctx, ctx.tokenProvider, inbound, outbound, store
    ensures connectError.Some? ==>
              && end == Errored(connectError.value) && ctx.View() == old(ctx.View())
              && outbound.sent == old(outbound.sent) && inbound.pos == old(inbound.pos)
              && store.values == old(store.values)
    ensures connectError.None? ==>
              var e := Authorize(uuid, old(outbound.Open()), inbound.items, old(inbound.pos), old(store.values),
                                 store.refusedWrites);
              var requested := if uuid.Some? then old(outbound.sent) + [Request(uuid.value, installationCode)]
                               else old(outbound.sent);
              && (e.result.Err? ==>
                    && end == Errored(e.result.error) && ctx.View() == old(ctx.View())
                    && inbound.pos == e.pos && store.values == e.values
                    && outbound.sent == (if uuid.Some? && old(outbound.Open()) then requested else old(outbound.sent)))
              && (e.result == Ok(Rejected) ==>
                    && end == Errored(RejectedError) && ctx.View() == old(ctx.View())
                    && inbound.pos == e.pos && store.values == e.values
                    && outbound.sent == requested)
              && (e.result == Ok(Approved) && AuthenticationMessage(e.values).Err? ==>
                    && end == Errored(AuthenticationMessage(e.values).error) && ctx.View() == old(ctx.View())
                    && inbound.pos == e.pos && store.values == e.values
                    && outbound.sent == requested)
              && (e.result == Ok(Approved) && AuthenticationMessage(e.values).Ok? && |requested| >= outbound.accepts ==>
                    && end == Errored(SendFailure) && ctx.View() == old(ctx.View())
                    && inbound.pos == e.pos && store.values == e.values
                    && outbound.sent == requested)
              && (e.result == Ok(Approved) && AuthenticationMessage(e.values).Ok? && |requested| < outbound.accepts ==>
                    && outbound.sent == requested + [AuthenticationMessage(e.values).value]
                    && var d := Dispatch(inbound.items, e.pos, old(ctx.View()), e.values, store.refusedDeletes);
                    && end == d.end && inbound.pos == d.pos && ctx.View() == d.view && store.values == d.values)
  {
    if connectError.Some? {
      return Errored(connectError.value);
    }
    var verdict := AwaitAuthorization(inbound, outbound, store, uuid, installationCode);
    if verdict.Err? {
      return Errored(verdict.error);
    }
    if verdict.value == Rejected {
      return Errored(RejectedError);
    }
    var authenticated := SendAuthenticate(outbound, store);
    if authenticated.Err? {
      return Errored(authenticated.error);
    }
    end := ReceiveCommands(ctx, inbound, store);
  }

  /**
   * Commands take effect in order: the token is the last pushed one, the defaults the
   * last pushed ones, and the cache is rebuilt from them; what was not pushed stays.
   */
  lemma {:induction false} RunEffect(v: ContextView, items: seq<StreamItem>, from: nat, until: nat)
    ensures var r := Run(v, items, from, until);
            var t := LastToken(items, from, until);
            var d := LastDefaults(items, from, until);
            (&& r.token == (if t.Some? then t else v.token)
             && r.defaults == (if d.Some? then d.value else v.defaults)
             && r.cache == (if d.Some? then Fresh(d.value) else v.cache))
    decreases until - from
  {
    if until > from {
      RunEffect(v, items, from, until - 1);
    }
  }

  /**
   * After the command loop, the token is the last one pushed before the loop stopped
   * and the defaults are the last ones pushed; with no such command they are as before.
   */
  lemma LoopKeepsLastPushed(items: seq<StreamItem>, pos: nat, v: ContextView, values: map<Secret, string>, refused: set<Secret>)
    ensures var stop := FirstStop(items, pos, IsCommand);
            var d := Dispatch(items, pos, v, values, refused);
            && d.pos == stop + 1
            && d.view.token == (if LastToken(items, pos, stop).Some? then LastToken(items, pos, stop) else v.token)
            && d.view.defaults == (if LastDefaults(items, pos, stop).Some? then LastDefaults(items, pos, stop).value
                                   else v.defaults)
  {
    RunEffect(v, items, pos, FirstStop(items, pos, IsCommand));
  }

  /**
   * Once defaults were pushed, the cache answers nothing: every decision cached before
   * the last push is gone.
   */
  lemma PushedDefaultsClearCache(items: seq<StreamItem>, pos: nat, v: ContextView, values: map<Secret, string>,
                                 refused: set<Secret>, key: CacheKey)
    requires LastDefaults(items, pos, FirstStop(items, pos, IsCommand)).Some?
    ensures Lookup(Dispatch(items, pos, v, values, refused).view.cache, key) == None
    ensures Dispatch(items, pos, v, values, refused).view.cache.active ==
              LastDefaults(items, pos, FirstStop(items, pos, IsCommand)).value.cache
  {
    RunEffect(v, items, pos, FirstStop(items, pos, IsCommand));
  }

  /** A heartbeat between commands changes nothing: dropping it gives the same outcome. */
  lemma {:induction false} HeartbeatChangesNothing(v: ContextView, items: seq<StreamItem>, from: nat, k: nat, until: nat)
    requires from <= k < until && ItemAt(items, k) == Ok(Some(ServerMessage(Some(Heartbeat))))
    ensures Run(v, items, from, until) == Run(Run(v, items, from, k), items, k + 1, until)
    decreases until
  {
    if until - 1 > k {
      HeartbeatChangesNothing(v, items, from, k, until - 1);
    }
  }

  /**
   * The loop ends exactly as the first non-command read says: closed on a failed read,
   * aborted with both credentials deleted on de-authorization, and with an error
   * otherwise; only de-authorization touches the stored secrets.
   */
  lemma DispatchEnds(items: seq<StreamItem>, pos: nat, v: ContextView, values: map<Secret, string>, refused: set<Secret>)
    ensures var stop := FirstStop(items, pos, IsCommand);
            var item := ItemAt(items, stop);
            var d := Dispatch(items, pos, v, values, refused);
            && (d.end == Closed <==> item.Err?)
            && (d.end == Aborted <==> HasPayload(item) && PayloadOf(item).DeviceDeauthorized?)
            && (d.end == Errored(MalformedMessage) <==> item.Ok? && !HasPayload(item))
            && (d.end == Errored(UnexpectedMessage) <==>
                  HasPayload(item) && (PayloadOf(item).DeviceAuthorized? || PayloadOf(item).AuthorizationRejected?))
            && d.values == (if d.end == Aborted then Deauthorized(values, refused) else values)
  {
  }

  /** De-authorization leaves no deletable credential behind, and never touches the installation code. */
  lemma DeauthorizationDeletesCredentials(values: map<Secret, string>, refused: set<Secret>)
    ensures AppId !in refused ==> AppId !in Deauthorized(values, refused)
    ensures AppSecret !in refused ==> AppSecret !in Deauthorized(values, refused)
    ensures InstallationCode in Deauthorized(values, refused) <==> InstallationCode in values
  {
  }

  /** Two pushed tokens, then a stream failure: the loop closes holding the second token. */
  lemma TokenScenario(v: ContextView)
    ensures var items := [Ok(Some(ServerMessage(Some(UpdateTokenCommand("t1"))))),
                          Ok(Some(ServerMessage(Some(Heartbeat)))),
                          Ok(Some(ServerMessage(Some(UpdateTokenCommand("t2"))))),
                          Err("reset")];
            var d := Dispatch(items, 0, v, map[], {});
            && d.end == Closed && d.pos == 4 && d.view == v.(token := Some("t2"))
  {
    var items := [Ok(Some(ServerMessage(Some(UpdateTokenCommand("t1"))))),
                  Ok(Some(ServerMessage(Some(Heartbeat)))),
                  Ok(Some(ServerMessage(Some(UpdateTokenCommand("t2"))))),
                  Err("reset")];
    FirstStopIs(items, 0, IsCommand, 3);
  }
}
