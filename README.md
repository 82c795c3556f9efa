# AppGuard device agent: authentication and control core, in Dafny

This project models the device side of AppGuard. The agent protects a web application
and asks a remote firewall service what to do with each request. The model covers:

- **Decision cache.** Firewall decisions are cached per request fingerprint. The cache
  is switched on or off once, when it is built from the firewall defaults.
- **Start-up.** The shared context is built from the environment, the secret store and
  the first session token. It holds the token provider, the firewall defaults and the
  cache.
- **Control stream.** The device sends one authorization request and waits for the
  verdict, ignoring heartbeats. On approval it stores the credentials, authenticates
  with them, and then handles the pushed messages in stream order. Three are commands
  that keep the loop going: a new session token; new firewall defaults, which also
  rebuild the cache; and a heartbeat, which does nothing. De-authorization deletes the
  credentials and ends the loop, and every other message ends it with an error.
- **Token expiry.** As written, a token counts as expired only once five minutes have
  passed after its claimed expiry (see "## Findings").
- **Firewall-service client.** The agent builds the service endpoint URL. Its calls
  fall back to a default answer when the service does not reply within the timeout.

Objects whose fields the source updates in place are classes with `modifies` clauses:
- the cache, the context, the token provider;
- the stream ends and the secret store, which stand for the environment.

The two commands are classes too. Their own fields never change: executing a command
writes the fields of the context it holds.

The loops of the source are methods with loops:
- the token polling in start-up;
- the authorization wait;
- the command loop.

The port is parsed with the standard library's `u16` parser (context.rs:25) and written
into the URL with its decimal formatting (grpc.rs:20). The `Decimal` module models these
two library routines, so that the URL round trip can be proved.

Each loop method is proved against a pure function of its inputs (`FirstReady`,
`Handshake`/`Authorize`, `Dispatch`), and the lemmas prove the source's promises about
those functions.

Everything outside the agent is a parameter:
- the stream (a sequence of read results, and how many messages the receiving end
  takes before it goes away);
- the secret store (a map, plus the secrets whose writes, and those whose deletions,
  its backend refuses);
- the clock (a number);
- the JWT decoder and the hardware UUID lookup;
- connection failures;
- the latency of remote calls.

## Model

| member | source | states |
|---|---|---|
| Types.FirewallDefaults.Default | client_authentication/src/context.rs:48 | The initial defaults have a zero timeout, caching switched off, and the policy `Allow` (taken as the enum's zero value). |
| Types.UnwrapOrEmpty | client_authentication/src/context.rs:54 | An absent token reads as the empty string; a present one reads as itself. |
| CacheKeys.KeyEqualityIsStructural | client_authentication/src/cache_key.rs:4-12 | Two keys are equal if and only if all six components are equal. |
| CacheKeys.FromEntriesContents | client_authentication/src/cache_key.rs:8-9 | The query and header maps hold exactly the inserted names, each bound to its own value, when the names are distinct. |
| CacheKeys.FromEntriesOrderIndependent | client_authentication/src/cache_key.rs:8-9 | The same distinct-named entries in any insertion order give the same ordered map. |
| CacheKeys.KeyIgnoresArrivalOrder | client_authentication/src/cache_key.rs:4-12 | Requests whose query parameters and headers arrive in different orders, but are otherwise the same, get the same key. |
| DecisionCache.Cache.constructor | client_authentication/src/cache.rs:10-15 | A new cache has no entries, and it is active exactly when the defaults enable caching. |
| DecisionCache.Cache.Get | client_authentication/src/cache.rs:17-23 | An inactive cache answers nothing. An active cache answers exactly its entry for the key, or nothing. |
| DecisionCache.Cache.Insert | client_authentication/src/cache.rs:25-29 | An active cache binds the key to the policy; an inactive cache stays unchanged. Other keys and the active flag never change. |
| DecisionCache.FreshIsEmpty | client_authentication/src/cache.rs:10-15 | A freshly built cache answers nothing. |
| DecisionCache.InactiveAnswersNothing | client_authentication/src/cache.rs:17-23 | An inactive cache answers nothing, whatever its entries hold. |
| DecisionCache.InactiveIgnoresInsert | client_authentication/src/cache.rs:25-29 | Inserting into an inactive cache changes nothing. |
| DecisionCache.GetAfterInsert | client_authentication/src/cache.rs:17-29 | After an insert, an active cache answers the inserted policy for that key and its previous answer for every other key; the flag stays the same. |
| DecisionCache.InsertOverwrites | client_authentication/src/cache.rs:25-29 | A second insert on the same key replaces the first. |
| DecisionCache.StoreAllLookup | client_authentication/src/cache.rs:17-29 | After a sequence of inserts, an active cache answers the last decision made for the key (or what it held before); an inactive one answers nothing. |
| DecisionCache.FreshForgetsEarlierDecisions | client_authentication/src/control_channel/commands/set_firewall_defaults_command.rs:20 | A cache rebuilt from new defaults answers only decisions inserted after the rebuild. |
| TokenProviders.TokenProvider.constructor | client_authentication/src/context.rs:43 | A new token provider holds no token. |
| TokenProviders.TokenProvider.Get | client_authentication/src/context.rs:54-57 | Reading the provider returns its current token and changes nothing; what an update makes it return is stated by `TokenProviders.TokenProvider.Update`. |
| TokenProviders.TokenProvider.Update | client_authentication/src/control_channel/commands/update_token_command.rs:19 | An update replaces the token wholesale, and the next read observes it. |
| TokenWrappers.FromJwt | client_authentication/src/token_wrapper.rs:13-16 | Wrapping fails exactly when decoding fails, with the decoder's error. Otherwise it keeps the JWT text unchanged with its decoded claims. |
| TokenWrappers.IsExpired | client_authentication/src/token_wrapper.rs:18-24 | A token is expired if and only if its expiry plus 300 seconds is at most the current time. The unsigned 64-bit wrap-around for a clock below 300 is given explicitly. |
| TokenWrappers.ExpiryIsMonotone | client_authentication/src/token_wrapper.rs:18-24 | For clocks of at least 300 seconds, a token expired at some time is expired at every later time. Below 300 the wrapped subtraction breaks this, so the lemma requires it. |
| TokenWrappers.ValidBeforeMargin | client_authentication/src/token_wrapper.rs:18-24 | For clocks of at least 300 seconds, a token is not expired before 300 seconds have passed after its claimed expiry. |
| TokenWrappers.AcceptsLapsedToken | client_authentication/src/token_wrapper.rs:23 | As written, a token with expiry 1000 still counts as valid at time 1200, after it lapsed. |
| TokenWrappers.IsExpiredEarly | client_authentication/src/token_wrapper.rs:23 | The corrected test: a token counts as expired from 300 seconds before its claimed expiry on. Its properties are stated by `TokenWrappers.EarlyExpiryKeepsMargin`. |
| TokenWrappers.EarlyExpiryKeepsMargin | client_authentication/src/token_wrapper.rs:4 | Under the corrected test, an accepted token stays valid for at least the margin, a lapsed token is always expired, and expiry is monotone at every clock. |
| Storage.SecretStore.Init | client_authentication/src/context.rs:31 | Initialisation succeeds exactly when the backend is usable. |
| Storage.SecretStore.Get | client_authentication/src/control_channel/send_authenticate.rs:7-15 | A lookup returns the stored value if there is one, and nothing otherwise. |
| Storage.SecretStore.Set | client_authentication/src/context.rs:41 | A write succeeds exactly when the backend accepts writes of that secret. The store then holds the new value; a refused write changes nothing. |
| Storage.SecretStore.Delete | client_authentication/src/control_channel/mod.rs:112-113 | A deletion succeeds exactly when the backend accepts deletions of that secret, independently of writes. The secret is then gone; a refused deletion changes nothing. |
| Messages.InboundStream.Message | client_authentication/src/control_channel/await_authorization.rs:45-50 | Each read returns the next read result of the stream, in order; past the end, the stream has ended. |
| Messages.OutboundChannel.Send | client_authentication/src/control_channel/await_authorization.rs:37-42 | A send appends exactly the message while the receiver is still there. Once it has gone away, after any number of accepted messages, every send is refused with an error. |
| Messages.FirstStop | client_authentication/src/control_channel/await_authorization.rs:44-77 | The loops stop at the least position, at or after the start, whose read is not passed over; every read before it is. |
| Messages.FirstStopIs | client_authentication/src/control_channel/await_authorization.rs:44-77 | Any position reached over passed-over reads only, whose own read is not passed over, is that first stop. |
| Decimal.Format | src/grpc.rs:20 | The decimal text of a port is non-empty and all digits. |
| Decimal.AccumulateValue | client_authentication/src/context.rs:25 | The step-by-step overflow check fails exactly when the text is not all digits or its value exceeds 65535; otherwise the result is the text's value. |
| Decimal.ParseU16Accepts | client_authentication/src/context.rs:25 | Port parsing accepts exactly an optional `+` followed by one or more digits whose value is at most 65535, and then yields that value. |
| Decimal.ValueOfFormat | src/grpc.rs:20 | The decimal text of a number reads back as that number. |
| Decimal.FormatParseRoundTrip | client_authentication/src/context.rs:25 | Parsing the decimal text of any 16-bit port gives the port back. |
| Decimal.FormatHasNoColon | src/grpc.rs:20 | The decimal text of a port contains no colon. |
| Contexts.Context.constructor | client_authentication/src/context.rs:45-50 | A new context starts with the default firewall defaults and an empty cache built from them (so inactive). |
| Contexts.ServiceAddress | client_authentication/src/context.rs:23-25 | A missing address or port variable is an error. Otherwise the address is the host as given and the port as parsed, and a port that fails to parse fails with the parser's error. |
| Contexts.ResolveInstallationCode | client_authentication/src/context.rs:33-40 | The code is the environment's if set, else the stored one. If neither exists the result is "Installation code not set". |
| Contexts.FirstReady | client_authentication/src/context.rs:54-58 | The polling ends at the first observation of a non-empty token: every earlier observation found none. |
| Contexts.NewContext | client_authentication/src/context.rs:22-67 | The failures come in the source's order: configuration, connection, storage start-up, installation code, write-back. The resolved code is written back. Polling stops at the first non-empty token. The context then holds that token, the service's defaults and an empty, inactive cache. |
| Commands.UpdateTokenCommand.constructor | client_authentication/src/control_channel/commands/update_token_command.rs:9-11 | The command holds the context and exactly the received token. |
| Commands.UpdateTokenCommand.Execute | client_authentication/src/control_channel/commands/update_token_command.rs:15-21 | The provider then holds exactly the received token. The defaults and cache are untouched, and the command succeeds. |
| Commands.SetFirewallDefaultsCommand.constructor | client_authentication/src/control_channel/commands/set_firewall_defaults_command.rs:11-13 | The command holds the context and exactly the pushed defaults. |
| Commands.SetFirewallDefaultsCommand.Execute | client_authentication/src/control_channel/commands/set_firewall_defaults_command.rs:17-22 | The defaults then equal the pushed ones, and the cache is a new empty cache built from them, so it answers nothing. The token is untouched, and the command succeeds. |
| Authorization.StoreCredentials | client_authentication/src/control_channel/await_authorization.rs:58-67 | Each credential is stored only when present, the id before the secret. A refused write is an error that keeps what was stored before it. Absent credentials and the installation code are unchanged. |
| Authorization.AwaitAuthorization | client_authentication/src/control_channel/await_authorization.rs:14-77 | Without a device UUID, nothing is sent. Otherwise exactly one request (the installation code, category "AppGuard Client", empty type and OS) is sent before any read. The result, read position and stored secrets are then as `Authorize` says. |
| Authorization.HeartbeatIsIgnored | client_authentication/src/control_channel/await_authorization.rs:72-74 | A heartbeat in front of the decisive message does not change how the handshake ends. |
| Authorization.RejectionKeepsStorage | client_authentication/src/control_channel/await_authorization.rs:69-71 | A rejection comes from a rejection message and leaves storage untouched. |
| Authorization.ApprovalStoresCredentials | client_authentication/src/control_channel/await_authorization.rs:58-67 | An approval comes from an approval message after heartbeats only, and the present credentials are then stored. |
| Authorization.OtherReadsFail | client_authentication/src/control_channel/await_authorization.rs:45-75 | A stream error, an empty message or an empty payload is an error. So is any other message, which ends with "Unexpected message" and leaves storage untouched. |
| Authorization.ApprovalScenario | client_authentication/src/control_channel/await_authorization.rs:58-67 | An approval carrying both credentials stores both. |
| Authorization.RejectionScenario | client_authentication/src/control_channel/await_authorization.rs:69-74 | A heartbeat followed by a rejection yields `Rejected` after two reads, with storage untouched. |
| Authenticate.AuthenticationMessage | client_authentication/src/control_channel/send_authenticate.rs:7-22 | A missing id gives "AppId not set", checked first. A missing secret gives "AppSecret not set". Otherwise the message carries exactly the stored id and secret. |
| Authenticate.SendAuthenticate | client_authentication/src/control_channel/send_authenticate.rs:6-30 | If a credential is missing, nothing is sent. If both exist, exactly that message is sent, and a send failure is returned. Storage is only read. |
| ControlChannel.ReceiveCommands | client_authentication/src/control_channel/mod.rs:89-136 | The command loop ends, and leaves the context and stored secrets, as `Dispatch` says. |
| ControlChannel.ControlStream | client_authentication/src/control_channel/mod.rs:58-136 | A connection failure or an authorization error ends the stream with that error. On an authorization error, the request was sent exactly when there is a device UUID and the channel was open, and nothing else was sent. A rejection ends it with "Auhtorization has been rejected" before any Authentication message. A missing credential ends it with that error. So does a refused Authentication send, when the receiver went away after the request, and then no command runs. After approval and authentication the command loop runs as `Dispatch` says. |
| ControlChannel.RunEffect | client_authentication/src/control_channel/mod.rs:89-134 | Commands take effect in stream order. The token is the last pushed one and the defaults the last pushed ones, with the cache rebuilt from them; what was not pushed stays. |
| ControlChannel.LoopKeepsLastPushed | client_authentication/src/control_channel/mod.rs:89-134 | After the loop, the token and defaults are the last ones pushed before it stopped, and the next read follows the stopping read. |
| ControlChannel.PushedDefaultsClearCache | client_authentication/src/control_channel/mod.rs:123-131 | Once defaults were pushed, the cache answers nothing, and its flag is that of the last pushed defaults. |
| ControlChannel.HeartbeatChangesNothing | client_authentication/src/control_channel/mod.rs:103-108 | A heartbeat between commands has no effect on the context. |
| ControlChannel.DispatchEnds | client_authentication/src/control_channel/mod.rs:89-122 | The loop closes normally exactly on a failed read. It aborts exactly on de-authorization. It fails with "Malformed message" exactly on a read without message or payload, and with "Unexpected message" exactly on an approval or rejection. Only de-authorization touches storage. |
| ControlChannel.DeauthorizationDeletesCredentials | client_authentication/src/control_channel/mod.rs:110-115 | De-authorization removes the id and the secret wherever the backend allows, and never touches the installation code. |
| ControlChannel.TokenScenario | client_authentication/src/control_channel/mod.rs:96-101 | Two pushed tokens around a heartbeat, then a stream failure: the loop closes holding the second token. |
| Grpc.WaitUntilTimeout | src/grpc.rs:92-104 | Without a timeout, or when the call completes within it, the result is the call's own, errors included. A call still running at the timeout yields the default as a success. |
| Grpc.WaitTime | src/grpc.rs:94-100 | The caller never waits longer than the timeout, nor longer than the call takes. |
| Grpc.ErrorsComeFromTheCall | src/grpc.rs:92-104 | An error reaches the caller if and only if the call itself failed in time, and it is the call's error. |
| Grpc.LongerTimeoutKeepsResult | src/grpc.rs:94-100 | A call answered within a timeout is also answered within any longer one. |
| Grpc.HandleTcpConnection | src/grpc.rs:35-52 | A timed-out report is answered with TCP info that echoes the reported connection; otherwise the service's answer is returned. |
| Grpc.HandlePolicyCall | src/grpc.rs:54-86 | A timed-out request or response check is answered with the default policy; otherwise the service's answer is returned. |
| Grpc.EndpointUrlRoundTrip | src/grpc.rs:18-20 | The endpoint URL determines its parts: parsing it gives back the TLS choice, the host (even one containing colons) and the port. |
| Grpc.SchemeFollowsTls | src/grpc.rs:18-20 | The URL begins with `https://` exactly when TLS is on, and with `http://` otherwise. |
| Grpc.NewAppGuardClient | src/grpc.rs:13-33 | The failures come in order: a refused URL, then (only with TLS) a refused TLS configuration, then a failed connection. On success the endpoint has the URL, a 10-second connect timeout, and TLS configured exactly when TLS is on. |

## Left out

- The secret store's backend, the token provider's own code, the hardware UUID lookup, JWT decoding, the clock, and the remote service's connections are not part of this model. Each is a parameter or a stand-in class with the behaviour the agent relies on.
- The error texts for a refused store operation ("Secret store operation failed"), an unusable store ("Secret store unavailable") and a closed channel ("Channel closed") are stand-ins, because the code producing them is not part of this model.
- Concurrency and locking are not modelled. The control stream that start-up spawns runs during start-up's one-second sleeps; `Contexts.NewContext` takes the token it delivers during each sleep as its `deliveries` input.
- Contexts.NewContext: returns `Waiting` when the deliveries run out, where the source polls forever.
- Contexts.NewContext: only token deliveries of the concurrent control stream are modelled during start-up. A defaults push arriving then would rebuild the cache (possibly active) before start-up overwrites the defaults; the contract's empty, inactive cache holds only without such a push.
- Storage.SecretStore: whether the backend refuses a write or a deletion is fixed per secret for the whole run; a backend that fails intermittently is not modelled.
- Contexts.NewContext: the context is built with a `Cache` rather than the hash map that context.rs:17 and 49 declare. set_firewall_defaults_command.rs:20 stores a `Cache` in the same field, so the field is taken to be a cache. Start-up overwrites the defaults but, unlike the command, does not rebuild the cache.
- Contexts.ServiceAddress: reading an environment variable also fails on a non-Unicode value; environment values here are strings, so that case does not arise.
- Tasks spawned after authentication, the heartbeat task and the login call, as well as the framework middleware and their request conversions, are not part of this model.
- `ControlChannel.ControlStream` takes the three parameters that `await_authorization` declares. The call at mod.rs:73 passes a fourth argument, the device type, which the request never uses.
- `HeartbeatCommand`, whose file is not part of this model, is taken to do nothing and succeed.
- ControlChannel.ReceiveCommands: a failing command is only logged and the loop continues; both commands always succeed, so that branch is never taken.
- ControlChannel.ReceiveCommands: the `todo!()` after de-authorization is the `Aborted` outcome rather than a panic.
- The "Auhtorization" spelling in the rejection error is kept as the source writes it.
- The firewall policy's integer wire encoding (`as i32`) and the protocol messages' fields other than those used are not modelled. In the TCP fallback answer, the other fields are at their defaults.
- Grpc.HandlePolicyCall: one function models both `handle_http_request` and `handle_http_response`, which differ only in the request type they forward.
- Grpc.WaitUntilTimeout: a call completing exactly at the timeout counts as completing in time, and timing is in whole milliseconds.
- Types.FirewallDefaults.Default: the protocol definition of the firewall policy enum is not part of this model; its zero value is taken to be `Allow`.
- TokenWrappers.IsExpired: models release-build arithmetic, where the subtraction wraps for a clock below 300 seconds; a debug build panics instead.
- The query and header maps are ordered maps in the source. Here they are Dafny maps, which have no order, so the key is independent of insertion order by construction. `CacheKeys.FromEntries` models building them from pairs.
- `CacheKey` is declared in both cache.rs:33-41 and cache_key.rs:4-12; one datatype models both.

## Findings

| source | as written | input that shows it | evidently intended | confidence | as-written member | corrected member |
|---|---|---|---|---|---|---|
| client_authentication/src/token_wrapper.rs:23 | `exp <= now - 300`: a token counts as expired only 300 seconds after its claimed expiry | expiry 1000, clock 1200: the lapsed token counts as valid | `exp <= now + 300`: a token counts as expired from 300 seconds before its expiry, so it is refreshed before the service rejects it | medium, not executed | TokenWrappers.AcceptsLapsedToken | TokenWrappers.EarlyExpiryKeepsMargin |
