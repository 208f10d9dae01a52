# alexa-ws-connect, modelled in Dafny

alexa-ws-connect lets a microcontroller act as an Alexa smart-home device. A
device keeps a WebSocket open to a hub. An Alexa skill's Lambda forwards each
directive to the server. The server passes it to the device, collects the
answer and replies to Alexa. Events the device raises on its own are posted
to the Alexa event gateway. This project models both ends of that path:

- **json.dfy, module `Json`**: JSON values. It also covers the JavaScript semantics the server
  relies on: property access that may be `undefined` or throw a TypeError,
  truthiness, and `String(x)`.
- **store.dfy, module `Store`** (server/db.ts): the client table as a map held by a `Db` class. It has
  lookup, the token check, the full-record put, the oauth-only update and
  the hex access token.
- **hub.dfy, module `Wss`** (server/wss.ts): the connection gate on the query string. It
  also has the emitter's listener table (Node's `on`, `removeListener`, `once`
  and `emit`), the listener names derived from SHA-256, the per-connection
  send handlers, the message classifier and the ping tick. All of it is
  gathered in a `Hub` class whose methods are proved against functions on
  its state.
- **router.dfy, module `Alexa`** (server/alexa.ts): `verifyRequest`, `messageRouter`, account
  linking, the token refresh policy, the device-event transform, and the
  start and end of the discovery and default correlations.
- **correlation.dfy, module `Correlation`**: runs of the hub under arbitrary event traces. A
  trace mixes device messages, timer expiries, ping ticks, socket state
  changes, connections, disconnections and other directives starting.
  These runs show that each directive is answered at most
  once, and that discovery answers with exactly what arrived in its window.
- **sdk.dfy, module `Sdk`** (sdk/arduino/AlexaWs.cpp): the device library. It covers the
  connection URL, routing of an incoming message to a callback, the
  response frame, and the serial log gated by the debug flag.
- **thermostat.dfy, module `Thermostat`** (sdk/arduino/AlexaWsThermostat.cpp): the thermostat's settings, its
  directive handling, and the StateReport, Response and discovery
  documents.
- **lambda.dfy, module `Lambda`** (lambda/index.js): the choice of bearer token, the user
  fallback and the forwarded envelope.
- **endtoend.dfy, module `EndToEnd`**: how the parts fit together:
  - the SDK's URL passes the gate;
  - a stamped directive reaches the device's callback under its request id;
  - the device's frame reaches the waiting listener;
  - what the Lambda forwards is routed and admitted as its namespace says.

External services and library internals are parameters. This covers:

- the time in seconds;
- uuids;
- random bytes;
- the decoded JWT claims;
- the answers from Amazon's token and profile endpoints and from the event gateway, each `None` when the call fails;
- the value the thermostat's temperature getter returns.

SHA-256 is a symbolic, injective function of its preimage. Timers are
explicit events: `Expire` is the 5000 ms default timeout and `WindowEnd`
is the 2000 ms discovery window. A run ends at the first device message
whose handler throws, because nothing in the server catches it and the
process exits. Request ids are uuids, so the traces start no second
directive under the id being followed.

## Model

| member | source | states |
|---|---|---|
| Store.GetClient | server/db.ts:59-74 | `null` exactly when no item is stored under the id, otherwise that item |
| Store.GetClientAndVerify | server/db.ts:76-84 | an unknown id is a TypeError (the missing record is dereferenced); otherwise the record exactly when its access token equals the presented one, else `null` |
| Store.PutClient | server/db.ts:26-35 | the put stores the record under its id, adds that id to the keys and keeps every other record |
| Store.PutClientThenGet | server/db.ts:26-35 | after `addClient` the id reads back the whole new record, other ids are unaffected, and records stay keyed by their id |
| Store.SetOauthTokens | server/db.ts:40-54 | the oauth update keeps the key set and every record under another id |
| Store.SetOauthTokensKeepsIdentity | server/db.ts:40-54 | the oauth update sets the three oauth attributes from the argument and keeps `clientId`, `accessToken`, the key set and every other record |
| Store.VerifySurvivesOauthUpdate | server/db.ts:40-54 | a device token's verification outcome is the same before and after an oauth update |
| Store.HexRoundTrip | server/db.ts:86-89 | the hex encoding decodes back to the bytes it came from |
| Store.GenerateRandomAccessToken | server/db.ts:86-89 | 64 lowercase hex characters that decode to the 32 random bytes |
| Store.Db.AddClient | server/db.ts:26-35 | stores the whole record under its id, replacing any earlier one, and returns it |
| Store.Db.UpdateClientOauthAccessToken | server/db.ts:40-54 | the table becomes the oauth-only update of the keyed record |
| Wss.Sha256Injective | server/wss.ts:119-130 | equal digests have equal preimages |
| Wss.DigestIsNotError | server/wss.ts:119-130 | no listener name is `error`, so sending never takes the emitter's error path |
| Wss.ClientListenerInjective | server/wss.ts:119-121 | distinct accounts get distinct account listener names |
| Wss.OwnListenersDistinct | server/wss.ts:119-130 | a connection's two listener names differ |
| Wss.ListenerNamesCollide | server/wss.ts:119-130 | the account name of `x-y` equals the device name of (`x`, `y`), so the two name spaces are not disjoint |
| Wss.Split | server/wss.ts:29 | splitting a query at `&` yields at least one piece, and the whole string when it has no `&` |
| Wss.SplitAfterPiece | server/wss.ts:29 | a piece without separator followed by a separator splits off as the first piece |
| Wss.AfterCharPrefix | server/wss.ts:29 | the first occurrence of a character divides a string into what precedes and follows it |
| Wss.Param | server/wss.ts:29 | an absent key is `undefined`, a key given once is its string value |
| Wss.VerifyClient | server/wss.ts:28-48 | rejected without a store lookup when a parameter is missing or falsy; accepted exactly when `getClientAndVerify` yields a client, which travels with the request together with the device id; the upgrade stalls exactly when the lookup throws |
| Wss.AddListener | server/wss.ts:104-105 | `on` appends the handler under its name and changes no other name |
| Wss.RemoveListener | server/wss.ts:110-111 | `removeListener` drops one registration of the handler if present, leaves the table as it was otherwise, and touches no other name |
| Wss.RemoveLastCount | server/wss.ts:110-111 | the registrations that remain are the old ones less one copy of the handler |
| Wss.RemoveListenerSubset | server/wss.ts:110-111 | removal never adds a handler |
| Wss.RemoveAllListeners | server/alexa.ts:144 | no listener is left under the name, and other names are unchanged |
| Wss.RemoveAfterAdd | server/wss.ts:104-111 | removing a handler just added restores the table |
| Wss.RemovePastLater | server/wss.ts:104-111 | removing an earlier handler leaves a later one registered |
| Wss.RegisterThenRemove | server/wss.ts:104-111 | registering two handlers and removing both restores the table, even when the two names coincide |
| Wss.EmitUnregistered | server/wss.ts:137-149 | emitting a name nobody listens to changes nothing |
| Wss.FireRelays | server/wss.ts:91-102 | running send handlers appends exactly one frame per handler whose socket is OPEN, in registration order, and nothing else |
| Wss.SendReachesListeners | server/wss.ts:137-149 | a send writes the message to exactly the open sockets registered under the name |
| Wss.ConnectThenClose | server/wss.ts:104-112 | connecting then closing leaves the listener table as before, stops the pings and writes no frame |
| Wss.PingTickAsWritten | server/wss.ts:63-67 | the tick as written pings every socket whose interval runs and marks it OPEN |
| Wss.PingReopensSocket | server/wss.ts:63-67 | a socket that is no longer OPEN gets frames again after one tick as written |
| Wss.PingTick | server/wss.ts:63-67 | the tick as intended pings only an OPEN socket and changes no state |
| Wss.Classify | server/wss.ts:70-88 | non-JSON is dropped; `null` throws; a truthy `requestId` makes a reply keyed by its string with `data.response`; otherwise a request with `context` and `event` is a device event; else ignored |
| Wss.ReceivedRouting | server/wss.ts:70-88 | a reply never relays; a device event relays with the connection's client id, stored token and device id; dropped and ignored messages change nothing |
| Wss.FireKeepsRelays | server/wss.ts:81-83 | emitting a reply never relays and never changes sockets |
| Wss.Hub.constructor | server/wss.ts:14-23 | a new hub has no listener, socket, frame, relay, discovery, timeout or reply |
| Wss.Hub.On | server/wss.ts:104-105 | the hub's table gains exactly the handler |
| Wss.Hub.RemoveAll | server/alexa.ts:144 | the hub's table loses all handlers of the name |
| Wss.Hub.Invoke | server/wss.ts:91-102 | one handler runs as `Invoked` says |
| Wss.Hub.Emit | server/wss.ts:83 | the loop over the listener snapshot yields the state and the thrown flag of `Emitted` |
| Wss.Hub.HandleConnection | server/wss.ts:53-113 | the hub state becomes `Connected` |
| Wss.Hub.OnMessage | server/wss.ts:70-88 | the hub state and thrown flag become those of `Received` |
| Wss.Hub.OnClose | server/wss.ts:108-112 | the hub state becomes `Closed` |
| Wss.Hub.SetReadyState | server/wss.ts:91-102 | the socket library moves one socket to a new `readyState`, and nothing else changes |
| Wss.Hub.Ping | server/wss.ts:63-67 | a tick changes nothing and pings only an OPEN socket |
| Wss.Hub.SendToClient | server/wss.ts:137-139 | the hub state becomes the emit under the account name |
| Wss.Hub.SendToDevice | server/wss.ts:147-149 | the hub state becomes the emit under the device name |
| Alexa.VerifyRequest | server/alexa.ts:16-35 | denied without header or with a bad signature; admitted exactly when the decoded user has a truthy `user_id` or the namespace is `Alexa.Authorization`, with the decoded user attached; hangs when the claims are `null` or the namespace cannot be read |
| Alexa.RouteOf | server/alexa.ts:42-64 | 400 exactly when the namespace cannot be read, then authorization, discovery or default by strict comparison |
| Alexa.RoutedBodyHasRequest | server/alexa.ts:46-51 | a routed body has `request.directive.header` |
| Alexa.AdmittedAuthorizationHasNamespace | server/alexa.ts:26-29 | a request admitted without a user is an authorization directive |
| Alexa.ReplyMessageId | server/alexa.ts:117 | the reply message id ends in `r` |
| Alexa.Stamp | server/alexa.ts:133-135 | stamping sets `requestId` and `requestTime` and keeps every other member of the request |
| Alexa.LinkStoresTokens | server/alexa.ts:93-111 | linking stores the grant's tokens and expiry under the user id, keeps an existing access token or sets a fresh hex one, and leaves other records alone |
| Alexa.Authorized | server/alexa.ts:71-125 | a failure leaves the table unchanged; success exactly when both upstream calls answer and the profile has a string `user_id`, then the reply is `AcceptGrant.Response` with message id + `r` and the table is the link |
| Alexa.HandleAuthorization | server/alexa.ts:71-125 | the store and the reply are as `Authorized` says |
| Alexa.Refreshed | server/alexa.ts:222-223 | a refresh replaces the access token and expiry and keeps the id, device token and refresh token |
| Alexa.RefreshGatewayToken | server/alexa.ts:203-227 | no change when more than 120 s remain; otherwise a failed grant call is an upstream error, a `null` grant a TypeError, and any other grant persists and returns the refreshed record |
| Alexa.NeedsRefreshMonotone | server/alexa.ts:210 | a token due for refresh stays due later |
| Alexa.RefreshSettles | server/alexa.ts:203-227 | after a refresh granting at least 120 s, a second refresh at the same instant does nothing |
| Alexa.RefreshKeepsCredentials | server/alexa.ts:203-227 | a refresh keeps the device token and refresh token, and stores the record it returns |
| Alexa.TransformEvent | server/alexa.ts:249-260 | succeeds exactly when `event` is an object whose `header` is an object or an array (a truthy message id can only be read from an object); every failure is a TypeError |
| Alexa.TransformEventContents | server/alexa.ts:249-260 | the endpoint is overwritten with the device id and bearer token, an existing message id is kept and a missing one generated (an array header stays as it was), everything else is as it arrived |
| Alexa.HandleDeviceEvent | server/alexa.ts:232-274 | nothing is posted for an unknown device token or an unlinked account; a post stores the refreshed table, is authorised by the refreshed token and carries the transformed payload; a linked account whose refresh and transform succeed is posted |
| Alexa.PostedEventCarriesToken | server/alexa.ts:232-274 | the post's bearer is the stored access token after any refresh, and the stored device token is kept |
| Alexa.HandleDiscovery | server/alexa.ts:132-170 | the hub state becomes `DiscoveryStarted`, which answers 500 with the error handler's JSON body when `req.user.user_id` cannot be read |
| Alexa.OnDiscoveryWindowEnd | server/alexa.ts:143-163 | the hub state becomes `DiscoveryClosed` |
| Alexa.HandleDefault | server/alexa.ts:177-197 | the hub state becomes `DefaultStarted`, which answers 500 with the error handler's JSON body when `req.user.user_id` or the directive's `endpoint.endpointId` cannot be read |
| Alexa.OnDefaultTimeout | server/alexa.ts:186-190 | the hub state becomes `DefaultExpired` |
| Alexa.MessageRouter | server/alexa.ts:42-64 | 400 changes nothing; authorization answers as `Authorized` without touching the hub; discovery and default defer the answer and start their correlation without touching the store |
| Correlation.RepliesForAppend | server/alexa.ts:162-195 | the replies for an id grow only by replies for that id |
| Correlation.ListenerNamesAreDigests | server/wss.ts:119-130 | listener names are digests, never request ids |
| Correlation.FireFrame | server/wss.ts:83 | handlers other than the request's own leave everything of the request alone |
| Correlation.DiscoverFrame | server/alexa.ts:132-170 | a discovery directive under another id leaves the request's listeners, timer, window and replies unchanged |
| Correlation.DirectFrame | server/alexa.ts:177-197 | a default directive under another id leaves the request's listeners, timer, window and replies unchanged |
| Correlation.StepFrame | server/wss.ts:70-112 | an event not aimed at the request, a ping tick as written, a socket state change or another directive starting included, leaves the request's listeners, timer, window and replies unchanged |
| Correlation.DefaultStep | server/alexa.ts:186-196 | a waiting default request is answered 503 on expiry or 200 with the first reply, and once settled stays settled with the same replies |
| Correlation.DefaultTrace | server/alexa.ts:186-196 | along any trace without a second directive under the id, a default request stays waiting or settled, settled requests gain no reply, and an expiry the run reaches settles it |
| Correlation.SendKeepsFresh | server/alexa.ts:184 | sending a directive leaves an unused request id unused |
| Correlation.DefaultAnsweredOnce | server/alexa.ts:177-197 | a default directive gets at most one HTTP answer, and exactly one once the run reaches its timer expiry |
| Correlation.NullFrameSilences | server/wss.ts:70-82 | a `null` frame from any device ends the run, so a waiting directive is never answered |
| Correlation.AnyDeviceCanAnswer | server/wss.ts:81-83 | a reply from any connection carrying the id answers a waiting request with 200 and the reply's `response` |
| Correlation.DiscoveryStep | server/alexa.ts:141-169 | an open window collects the truthy responses delivered under its id, and a closed one collects nothing more |
| Correlation.DiscoveryTrace | server/alexa.ts:141-169 | along any trace a discovery window stays open, or shut with its answer sent, under the same message id |
| Correlation.HarvestTrace | server/alexa.ts:165-169 | along any trace the window's endpoints grow by exactly the truthy responses the run delivers under its id while it is open, up to a crash |
| Correlation.ShutTrace | server/alexa.ts:143-163 | a shut window stays shut and collects nothing more |
| Correlation.DiscoveryTraceCloses | server/alexa.ts:143-163 | a run that reaches the window-end event ends with the window shut and answered |
| Correlation.DiscoveryAnsweredOnce | server/alexa.ts:132-170 | discovery answers at most once, and after its window with `Discover.Response`, message id + `r`, and the truthy responses of the window in arrival order; stated for a directive whose `user_id` can be read, the other case being the 500 answer of `DiscoveryStarted` |
| Sdk.ConnectUrl | sdk/arduino/AlexaWs.cpp:32-34 | the URL starts with `/?client_id=` and is the three values plus 37 fixed characters |
| Sdk.RouteMessageAsWritten | sdk/arduino/AlexaWs.cpp:77-92 | as written, every parsed object reaches a callback |
| Sdk.RouteWithoutRequestIdDispatches | sdk/arduino/AlexaWs.cpp:78-82 | an object without `requestId` reaches the event callback with an empty id |
| Sdk.RouteMessage | sdk/arduino/AlexaWs.cpp:77-92 | only a message with a request id is dispatched, to the discovery callback exactly when the namespace is `Alexa.Discovery`, carrying that id; where it dispatches it agrees with the code as written |
| Sdk.ParseIncomingMessage | sdk/arduino/AlexaWs.cpp:65-75 | only a parsed object is routed |
| Sdk.AlexaWs.constructor | sdk/arduino/AlexaWs.cpp:11-19 | both callbacks unset, debug off, host `alexa.iot.oz.nu`, port 443 over SSL, no device id, URL, frame or log line |
| Sdk.AlexaWs.Log | sdk/arduino/AlexaWs.cpp:128-142 | a line reaches the serial port only in debug mode, and nothing else changes |
| Sdk.AlexaWs.Connect | sdk/arduino/AlexaWs.cpp:21-47 | stores the device id, opens the credential URL and logs the six connection lines when debugging |
| Sdk.AlexaWs.OnDiscovery | sdk/arduino/AlexaWs.cpp:110-113 | sets only the discovery callback |
| Sdk.AlexaWs.OnEvent | sdk/arduino/AlexaWs.cpp:115-118 | sets only the event callback |
| Sdk.AlexaWs.SendResponse | sdk/arduino/AlexaWs.cpp:94-108 | writes exactly one frame `{requestId, response}` with the id it was given |
| Sdk.AlexaWs.Debug | sdk/arduino/AlexaWs.cpp:124-126 | sets the debug flag only |
| Thermostat.Int32 | sdk/arduino/AlexaWsThermostat.cpp:57 | the target is narrowed to a 32-bit `int`: in range, equal modulo 2^32, unchanged when it fits |
| Thermostat.VariantInt | sdk/arduino/AlexaWsThermostat.cpp:57 | an integer that fits is read as itself, anything but a number or a boolean as 0 |
| Thermostat.DirectiveOf | sdk/arduino/AlexaWsThermostat.cpp:37-53 | the directive is chosen by exact comparison of `directive.header.name` |
| Thermostat.Applied | sdk/arduino/AlexaWsThermostat.cpp:56-75 | a setter directive changes only its own setting to the payload value; other directives change nothing |
| Thermostat.ReportCarriesSettings | sdk/arduino/AlexaWsThermostat.cpp:77-134 | a report reads back as the reading, target and mode it was built from, under its name and the device's endpoint id |
| Thermostat.ReportEchoesRequest | sdk/arduino/AlexaWsThermostat.cpp:116-125 | the message id is the request's plus `-r`, and a string correlation token is echoed |
| Thermostat.Handled | sdk/arduino/AlexaWsThermostat.cpp:36-54 | settings follow `Applied`; an unhandled name answers `{"error":"Unhandled Event"}`; a handled one without a temperature getter is undefined behaviour, otherwise a report of the new settings named `StateReport` or `Response` |
| Thermostat.SetterIsConfirmed | sdk/arduino/AlexaWsThermostat.cpp:40-46 | the answer to a setter directive reports the requested value and the other setting as before |
| Thermostat.ReportStateIsReadOnly | sdk/arduino/AlexaWsThermostat.cpp:37-38 | ReportState leaves the settings alone, so repeating it gives the same answer |
| Thermostat.SetterIdempotent | sdk/arduino/AlexaWsThermostat.cpp:56-75 | repeating a directive leaves the settings as one application left them |
| Thermostat.DiscoveryMatchesReports | sdk/arduino/AlexaWsThermostat.cpp:127-171 | discovery announces the endpoint id the reports carry, and the controller supports exactly the properties a report gives in its namespace |
| Thermostat.SupportedOfThermostat | sdk/arduino/AlexaWsThermostat.cpp:152-159 | the controller lists `targetSetpoint` and `thermostatMode`, in that order |
| Thermostat.AlexaWsThermostat.constructor | sdk/arduino/AlexaWsThermostat.cpp:10-24 | no callback registered, mode `OFF`, temperatures 0, the default manufacturer and description, and a fresh SDK object in its initial state |
| Thermostat.AlexaWsThermostat.Create | sdk/arduino/AlexaWsThermostat.cpp:26-30 | names the device and binds both SDK callbacks to the thermostat's handlers, logging the two callback lines in debug mode; nothing else changes |
| Thermostat.AlexaWsThermostat.OnGetCurrentTemperature | sdk/arduino/AlexaWsThermostat.cpp:181-183 | sets that callback's flag to the argument, and every other field keeps its value |
| Thermostat.AlexaWsThermostat.OnSetTargetTemperature | sdk/arduino/AlexaWsThermostat.cpp:185-187 | sets that callback's flag to the argument, and every other field keeps its value |
| Thermostat.AlexaWsThermostat.OnGetTargetTemperature | sdk/arduino/AlexaWsThermostat.cpp:189-191 | sets that callback's flag to the argument, and every other field keeps its value |
| Thermostat.AlexaWsThermostat.OnSetMode | sdk/arduino/AlexaWsThermostat.cpp:193-195 | sets that callback's flag to the argument, and every other field keeps its value |
| Thermostat.AlexaWsThermostat.OnGetMode | sdk/arduino/AlexaWsThermostat.cpp:197-199 | sets that callback's flag to the argument, and every other field keeps its value |
| Thermostat.AlexaWsThermostat.HandleDiscoveryEvent | sdk/arduino/AlexaWsThermostat.cpp:32-34 | the answer is the discovery document of the device |
| Thermostat.AlexaWsThermostat.SetTarget | sdk/arduino/AlexaWsThermostat.cpp:56-62 | stores the requested target and calls the setter with it only if one is registered; no other field changes |
| Thermostat.AlexaWsThermostat.SetMode | sdk/arduino/AlexaWsThermostat.cpp:64-75 | stores the requested mode and calls the setter with it only if one is registered; no other field changes |
| Thermostat.AlexaWsThermostat.HandleChangeEvent | sdk/arduino/AlexaWsThermostat.cpp:36-54 | the settings and the answer are those of `Handled`, only the directive's own setter callback is called, and no other field changes |
| Thermostat.AlexaWsThermostat.Receive | sdk/arduino/AlexaWs.cpp:65-92 | the frame is logged in debug mode; an unrouted message changes nothing else; a routed one is answered by the bound handler in one frame under its request id, with its log lines; an unset callback is undefined behaviour; only the settings, setter calls, frames and log change |
| Lambda.BearerToken | lambda/index.js:11-20 | discovery takes the payload scope token, authorization none, every other namespace the endpoint scope token; an unreadable namespace throws |
| Lambda.UserFor | lambda/index.js:23-31 | the profile is looked up only for a truthy token, otherwise the user is `{user_id: null}` |
| Lambda.Forwarded | lambda/index.js:33-40 | the forwarded body is `{request}`, the claims are `{user}`, valid for 300 s; it fails exactly when the token cannot be read or its profile lookup fails |
| Lambda.Handler | lambda/index.js:5-45 | Alexa receives the server's answer unchanged |
| Lambda.AuthorizationNeedsNoProfile | lambda/index.js:15-17 | an authorization directive is forwarded with the null user without a profile lookup |
| EndToEnd.DeviceUrlAccepted | sdk/arduino/AlexaWs.cpp:32-34 | for credentials without URL separators or characters `querystring` decodes, the SDK's URL with the account's credentials is accepted as that client and device; a wrong token is refused; an unknown id stalls |
| EndToEnd.ConnectQuery | server/wss.ts:29 | for credentials without URL separators or characters `querystring` decodes, the SDK's URL parses to exactly the three credentials |
| EndToEnd.ResponseFrameClassified | sdk/arduino/AlexaWs.cpp:98-107 | the SDK's frame is read by the hub as the reply to its request id with the device's response; without an id it is ignored |
| EndToEnd.StampedDirectiveDispatched | server/alexa.ts:179-184 | a stamped directive reaches the device's callback under the hub's request id, by its namespace |
| EndToEnd.ForwardedNamespace | lambda/index.js:33-37 | the server reads the namespace the Lambda switched on |
| EndToEnd.ForwardedAdmission | lambda/index.js:23-38 | the server admits a forwarded authorization directive, and any other directive exactly when the profile names a user; a token-less directive is denied |
| EndToEnd.ForwardedRoute | lambda/index.js:11-20 | the server's route for a forwarded directive is the one its namespace names |

## Left out

- I/O and logging:
  - the Express, helmet and HTTP plumbing, the portal and `server/api/auth.ts`;
  - console output;
  - the Serial formatting of the log's printf variants, beyond the substituted text.
- External calls become parameters:
  - DynamoDB becomes a map;
  - the token, profile and gateway calls are answers or `None`;
  - JWT signing and verification become the decoded claims;
  - `uuid` and `crypto.randomBytes` are parameters;
  - SHA-256 is a symbolic injective function.
- Wss.VerifyClient: `url.parse` is modelled as the text after the first `?` and before a `#`, and `querystring.parse` as splitting at `&` and the first `=`. Percent-decoding, `+` as space and the key limit are not modelled. A parameter given more than once is an array in Node. A repeated `client_id` or `client_token` reaches the store lookup as that array, so the upgrade stalls or is refused, as the model has it. A repeated `device_id` stays an array in `req.$deviceId`; the model carries it on as its comma-joined string instead. The listener names join it in the same way, so the only visible difference is the `endpointId` posted to the event gateway.
- Timers: `setTimeout`, `setInterval` and `clearTimeout` are explicit events or a set of pending timeouts. Real time and ping frames on the wire are not modelled. The correlation lemmas take traces in which no second directive starts under the followed request id (`Unique`), because uuids are taken to be fresh.
- Concurrency: interleavings of the asynchronous handlers (two refreshes of one account, say) are not modelled. The model runs each handler to completion.
- Store.SetOauthTokens: a DynamoDB update for a missing key would create a partial item. The model leaves the table unchanged, which the callers never reach with a missing key.
- Thermostat.VariantInt: ArduinoJson parses a numeric string as a number; the model reads every string as 0. Fractional temperatures are not modelled, because JSON numbers are integers here. The 16-bit `int` of AVR boards is not modelled.
- Thermostat.ReportStateResponse: a request without `requestTime` makes ArduinoJson emit an undefined value, which serialises as nothing. The model writes `null`.
- Sdk.AlexaWs.SendResponse: the serialiser (`printTo`) is not modelled. The logged text stands for it, and the frame is the JSON value itself.
- Sdk.AlexaWs.Connect: the socket library's `begin`/`beginSSL`, reconnect interval and extra headers are not modelled. The URL is recorded.
- Thermostat.AlexaWsThermostat.SetMode: the `new char[]` copy that is never freed is memory management, not modelled.
- Sdk.Handler: callbacks are the two handlers the SDK ships, the thermostat's discovery and change handlers, because arbitrary user callbacks cannot be modelled.
- Wss.Hub.Emit: a listener that throws mid-emit is not modelled, because the modelled listeners do not throw.
- Alexa.TransformEvent: an array-valued `header` takes the new message id, which the array's JSON text leaves out; the model keeps the array as it was, which is what the gateway receives.
- Correlation.StepFrame: a directive that starts under the followed request id itself is excluded (`Restarts`), because request ids are fresh uuids; every other event, other directives included, is covered.
- Correlation.Run: a device message whose handler throws (`null`, or a reply under the id `error` while nothing listens for `error`) ends the Node process. The model ends the run there (`Correlation.Run`), so the correlation lemmas speak of the run up to that message, and every request still waiting then is never answered (`Correlation.NullFrameSilences`). Restarting the server is not modelled.
- Json.Get: a member name given twice reads as the first occurrence. `JSON.parse` on the server keeps the last; ArduinoJson on the device finds the first. The server-side model therefore differs for documents with duplicate names.
- Wss.Hub.Ping: follows the corrected test (`Wss.PingTick`), not the assignment as written; the as-written tick is `Wss.PingTickAsWritten`, and the correlation traces step with that one.
- Sdk.ParseIncomingMessage: routes through the corrected `Sdk.RouteMessage`, so a message without `requestId` is not dispatched; the code as written dispatches it (`Sdk.RouteMessageAsWritten`).
- Thermostat.AlexaWsThermostat.Receive: follows `Sdk.ParseIncomingMessage`, so it is the corrected SDK routing, not the code as written.

## Findings

| source | as written | input that shows it | evidently intended | confidence | as-written member | corrected member |
|---|---|---|---|---|---|---|
| sdk/arduino/AlexaWs.cpp:78-82 | `if (requestId)` tests an Arduino `String`, which is true whenever its buffer exists, so a message without `requestId` is still dispatched with an empty id | the frame `{}`, or any device-bound message without `requestId`, runs the event callback and its setters | dispatch only messages that carry a request id | medium, not executed | Sdk.RouteMessageAsWritten | Sdk.RouteMessage |
| server/wss.ts:64 | `if (ws.readyState = 1)` assigns, so every ping tick marks the socket OPEN | a socket in CLOSING (2) whose `close` event has not yet fired; after one tick its send handlers write to it again | `ws.readyState === 1`, a test that changes nothing | medium (the effect depends on `readyState` being writable in the socket library), not executed | Wss.PingTickAsWritten | Wss.PingTick |

The as-written halves are exhibited by Sdk.RouteWithoutRequestIdDispatches and Wss.PingReopensSocket. The SDK model routes through Sdk.RouteMessage. The hub's `Ping` method follows Wss.PingTick. The correlation traces step with Wss.PingTickAsWritten, and their frame lemmas hold under it.
