/**
 * The directive handling of server/alexa.ts: admission of requests from the
 * skill function, routing by namespace, account linking, discovery and
 * default directives correlated through the hub, and the relay of device
 * events to the event gateway with its token refresh.
 *
 * HTTP calls to the identity provider and the gateway, the clock, fresh
 * request ids and random bytes are parameters: an upstream call is given as
 * its decoded answer, `None` when it fails.
 */
module Alexa {
  import opened Json
  import opened Store
  import opened Wss

  // ---------------------------------------------------------------------
  // Admission and routing

  /** `req.body.request.directive.header.namespace`. */
  function Namespace(body: Json): Access
  {
    Path(Val(body), ["request", "directive", "header", "namespace"])
  }

  /**
   * The outcome of `verifyRequest`: the request goes on with `req.user`
   * set, is refused with 401, or the evaluation throws inside the token
   * callback and the request is never answered.
   */
  datatype Admission = Admit(user: Access) | Deny | Hang

  /** `decoded.user && decoded.user.user_id`. */
  predicate HasUser(decoded: Json)
  {
    var user := Prop(Val(decoded), "user");
    Truthy(user) && Truthy(Prop(user, "user_id"))
  }

  /**
   * `verifyRequest`. `jwtHeader` is the `x-alexa-jwt` header; `decoded` is
   * what verification against the shared secret yields, `None` when the
   * signature does not verify.
   */
  function VerifyRequest(jwtHeader: Access, decoded: Option<Json>, body: Json): (r: Admission)
    ensures !Truthy(jwtHeader) || decoded.None? ==> r == Deny
    ensures r.Admit? <==>
      Truthy(jwtHeader) && decoded.Some? && decoded.value != JNull &&
      (HasUser(decoded.value) || Namespace(body) == Val(JStr("Alexa.Authorization")))
    ensures r.Admit? ==> r.user == Prop(Val(decoded.value), "user")
    ensures r.Hang? <==>
      Truthy(jwtHeader) && decoded.Some? &&
      (decoded.value == JNull || (!HasUser(decoded.value) && Namespace(body).Thrown?))
  {
    if !Truthy(jwtHeader) then Deny
    else match decoded
      case None => Deny
      case Some(d) =>
        var user := Prop(Val(d), "user");
        if user.Thrown? then Hang
        else if HasUser(d) then Admit(user)
        else
          var ns := Namespace(body);
          if ns.Thrown? then Hang
          else if ns == Val(JStr("Alexa.Authorization")) then Admit(user)
          else Deny
  }

  datatype Route = BadRequest | ToAuthorization | ToDiscovery | ToDefault

  /** `messageRouter`: 400 when the namespace cannot be read, then a strict switch. */
  function RouteOf(body: Json): (r: Route)
    ensures r == BadRequest <==> Namespace(body).Thrown?
    ensures r == ToAuthorization <==> Namespace(body) == Val(JStr("Alexa.Authorization"))
    ensures r == ToDiscovery <==> Namespace(body) == Val(JStr("Alexa.Discovery"))
  {
    var ns := Namespace(body);
    if ns.Thrown? then BadRequest
    else if ns == Val(JStr("Alexa.Authorization")) then ToAuthorization
    else if ns == Val(JStr("Alexa.Discovery")) then ToDiscovery
    else ToDefault
  }

  /** A routed request carries a `request` object with a `directive` and its `header`. */
  lemma RoutedBodyHasRequest(body: Json)
    requires RouteOf(body) != BadRequest
    ensures Prop(Val(body), "request").Val? && Prop(Val(body), "request").v.JObj?
    ensures Prop(Prop(Val(body), "request"), "directive").Val?
    ensures Prop(Prop(Prop(Val(body), "request"), "directive"), "header").Val?
  {
    var a1 := Prop(Val(body), "request");
    var a2 := Prop(a1, "directive");
    var a3 := Prop(a2, "header");
    assert Namespace(body) == Prop(a3, "namespace");
  }

  /** Every request the router lets through was routed. */
  lemma AdmittedAuthorizationHasNamespace(jwtHeader: Access, decoded: Option<Json>, body: Json)
    requires VerifyRequest(jwtHeader, decoded, body).Admit?
    requires !HasUser(decoded.value)
    ensures RouteOf(body) == ToAuthorization
  {
  }

  /** `req.body.request`. */
  function RequestOf(body: Json): Json
  {
    match Prop(Val(body), "request")
    case Val(r) => r
    case Undefined => JNull
    case Thrown => JNull
  }

  /** The response id: the directive's `messageId` with "r" appended. */
  function ReplyMessageId(body: Json): (id: string)
    ensures |id| > 0 && id[|id| - 1] == 'r'
  {
    ToJsString(Path(Val(body), ["request", "directive", "header", "messageId"])) + "r"
  }

  /** `req.body.request.requestId` and `requestTime` are set before forwarding. */
  function Stamp(request: Json, requestId: string, requestTime: string): (r: Json)
    ensures request.JObj? ==>
      Get(r, "requestId") == Some(JStr(requestId)) && Get(r, "requestTime") == Some(JStr(requestTime)) &&
      forall k :: k != "requestId" && k != "requestTime" ==> Get(r, k) == Get(request, k)
  {
    if request.JObj? then
      var r := Put(Put(request, "requestId", JStr(requestId)), "requestTime", JStr(requestTime));
      GetPut(request, "requestId", JStr(requestId));
      GetPutOther(Put(request, "requestId", JStr(requestId)), "requestTime", JStr(requestTime), "requestId");
      GetPut(Put(request, "requestId", JStr(requestId)), "requestTime", JStr(requestTime));
      assert forall k :: k != "requestId" && k != "requestTime" ==> Get(r, k) == Get(request, k) by {
        forall k | k != "requestId" && k != "requestTime"
          ensures Get(r, k) == Get(request, k)
        {
          GetPutOther(request, "requestId", JStr(requestId), k);
          GetPutOther(Put(request, "requestId", JStr(requestId)), "requestTime", JStr(requestTime), k);
        }
      }
      r
    else request
  }

  /** The `AcceptGrant.Response` header, message id first. */
  function Header(messageId: string, namespace: string, name: string): Json
  {
    JObj([("messageId", JStr(messageId)), ("namespace", JStr(namespace)),
          ("name", JStr(name)), ("payloadVersion", JStr("3"))])
  }

  /** The `AcceptGrant.Response` event. */
  function AcceptGrantResponse(messageId: string): Json
  {
    JObj([("event", JObj([
      ("header", Header(messageId, "Alexa.Authorization", "AcceptGrant.Response")),
      ("payload", JObj([]))]))])
  }

  /** The `Discover.Response` event carrying the collected endpoints; its header names the message id last. */
  function DiscoverResponse(messageId: string, endpoints: seq<Json>): Json
  {
    JObj([("event", JObj([
      ("header", JObj([("namespace", JStr("Alexa.Discovery")), ("name", JStr("Discover.Response")),
                       ("payloadVersion", JStr("3")), ("messageId", JStr(messageId))])),
      ("payload", JObj([("endpoints", JArr(endpoints))]))]))])
  }

  // ---------------------------------------------------------------------
  // Account linking

  /** A string member of an upstream answer; anything else is stored as absent. */
  function StringField(a: Access): Option<string>
  {
    if a.Val? && a.v.JStr? then Some(a.v.s) else None
  }

  /**
   * `moment().add(expires_in, 'seconds')`: a missing or non-numeric
   * `expires_in` adds nothing.
   */
  function ExpiresAt(now: int, expiresIn: Access): int
  {
    now + (if expiresIn.Val? && expiresIn.v.JNum? then expiresIn.v.n else 0)
  }

  /**
   * The store after linking account `uid` with the tokens of `auth`: an
   * existing record gets the three oauth attributes, a new one is created
   * with a fresh device access token.
   */
  function Link(t: Table, uid: string, auth: Json, now: int, random: seq<byte>): (r: Table)
    requires |random| == 32
  {
    var access := StringField(Prop(Val(auth), "access_token"));
    var refresh := StringField(Prop(Val(auth), "refresh_token"));
    var expires := Some(ExpiresAt(now, Prop(Val(auth), "expires_in")));
    match GetClient(t, uid)
    case Some(client) =>
      SetOauthTokens(t, client.(oauthAccessToken := access, oauthRefreshToken := refresh, tokenExpires := expires))
    case None =>
      PutClient(t, Client(uid, GenerateRandomAccessToken(random), access, refresh, expires))
  }

  /**
   * Linking stores the upstream tokens under the account, keeps the device
   * access token of a known account, gives a new account a 64-digit hex
   * token, and touches no other account.
   */
  lemma LinkStoresTokens(t: Table, uid: string, auth: Json, now: int, random: seq<byte>, other: string)
    requires Keyed(t) && |random| == 32
    ensures uid in Link(t, uid, auth, now, random) && Keyed(Link(t, uid, auth, now, random))
    ensures Link(t, uid, auth, now, random)[uid].oauthAccessToken == StringField(Prop(Val(auth), "access_token"))
    ensures Link(t, uid, auth, now, random)[uid].oauthRefreshToken == StringField(Prop(Val(auth), "refresh_token"))
    ensures Link(t, uid, auth, now, random)[uid].tokenExpires == Some(ExpiresAt(now, Prop(Val(auth), "expires_in")))
    ensures uid in t ==> Link(t, uid, auth, now, random)[uid].accessToken == t[uid].accessToken
    ensures uid !in t ==> Link(t, uid, auth, now, random)[uid].accessToken == GenerateRandomAccessToken(random)
    ensures other != uid ==> GetClient(Link(t, uid, auth, now, random), other) == GetClient(t, other)
  {
  }

  /** `req.body.request.directive.payload.grant.code`. */
  function GrantCode(body: Json): Access
  {
    Path(Val(body), ["request", "directive", "payload", "grant", "code"])
  }

  /** `req.body.request.directive.payload.grantee.token`. */
  function GranteeToken(body: Json): Access
  {
    Path(Val(body), ["request", "directive", "payload", "grantee", "token"])
  }

  /**
   * `user.user_id` of the profile answer, if the store accepts it as a key:
   * a non-empty string.
   */
  function ProfileId(profile: Json): Option<string>
  {
    var uid := Prop(Val(profile), "user_id");
    if uid.Val? && uid.v.JStr? && uid.v.s != "" then Some(uid.v.s) else None
  }

  /**
   * `handleAuthorization`: exchanges the grant code, reads the user profile,
   * links the account and answers `AcceptGrant.Response`. `auth` and
   * `profile` are the decoded answers of the token and profile endpoints.
   * A failure rejects the handler's promise: the store is unchanged and no
   * response is sent.
   */
  function Authorized(t: Table, body: Json, auth: Option<Json>, profile: Option<Json>, now: int, random: seq<byte>): (r: (Table, Result<Json>))
    requires |random| == 32
    ensures r.1.Err? ==> r.0 == t
    ensures r.1.Ok? <==>
      !GrantCode(body).Thrown? && auth.Some? && !GranteeToken(body).Thrown? && profile.Some? &&
      ProfileId(profile.value).Some? && auth.value != JNull
    ensures r.1.Ok? ==>
      r.1.value == AcceptGrantResponse(ReplyMessageId(body)) &&
      r.0 == Link(t, ProfileId(profile.value).value, auth.value, now, random)
    ensures r.1 == Err(UpstreamError) ==> auth.None? || profile.None?
  {
    if GrantCode(body).Thrown? then (t, Err(TypeError))
    else match auth
      case None => (t, Err(UpstreamError))
      case Some(a) =>
        if GranteeToken(body).Thrown? then (t, Err(TypeError))
        else match profile
          case None => (t, Err(UpstreamError))
          case Some(p) =>
            if Prop(Val(p), "user_id").Thrown? then (t, Err(TypeError))
            else match ProfileId(p)
              case None => (t, Err(StoreError))
              case Some(uid) =>
                // `auth.access_token` is read after the lookup
                if a == JNull then (t, Err(TypeError))
                else (Link(t, uid, a, now, random), Ok(AcceptGrantResponse(ReplyMessageId(body))))
  }

  method HandleAuthorization(db: Db, body: Json, auth: Option<Json>, profile: Option<Json>, now: int, random: seq<byte>)
    returns (reply: Result<Json>)
    requires |random| == 32
    modifies db
    ensures (db.table, reply) == Authorized(old(db.table), body, auth, profile, now, random)
  {
    if GrantCode(body).Thrown? || auth.None? { return Authorized(db.table, body, auth, profile, now, random).1; }
    if GranteeToken(body).Thrown? || profile.None? { return Authorized(db.table, body, auth, profile, now, random).1; }
    var p := profile.value;
    if Prop(Val(p), "user_id").Thrown? || ProfileId(p).None? || auth.value == JNull {
      return Authorized(db.table, body, auth, profile, now, random).1;
    }
    var uid := ProfileId(p).value;
    var a := auth.value;
    var access := StringField(Prop(Val(a), "access_token"));
    var refresh := StringField(Prop(Val(a), "refresh_token"));
    var expires := Some(ExpiresAt(now, Prop(Val(a), "expires_in")));
    match GetClient(db.table, uid) {
      case Some(client) =>
        db.UpdateClientOauthAccessToken(client.(oauthAccessToken := access, oauthRefreshToken := refresh, tokenExpires := expires));
      case None =>
        var _ := db.AddClient(Client(uid, GenerateRandomAccessToken(random), access, refresh, expires));
    }
    reply := Ok(AcceptGrantResponse(ReplyMessageId(body)));
  }

  // ---------------------------------------------------------------------
  // Gateway token refresh

  /** Seconds until the gateway token expires; with no expiry the token expires now. */
  function SecondsLeft(c: Client, now: int): int
  {
    match c.tokenExpires
    case Some(e) => e - now
    case None => 0
  }

  /** `refreshAlexaGatewayToken` refreshes when fewer than 120 seconds are left. */
  predicate NeedsRefresh(c: Client, now: int)
  {
    SecondsLeft(c, now) < 120
  }

  /** The client after a refresh: new access token and expiry, same refresh token. */
  function Refreshed(c: Client, now: int, auth: Json): (r: Client)
    ensures r.clientId == c.clientId && r.accessToken == c.accessToken
    ensures r.oauthRefreshToken == c.oauthRefreshToken
    ensures r.oauthAccessToken == StringField(Prop(Val(auth), "access_token"))
    ensures SecondsLeft(r, now) == ExpiresAt(0, Prop(Val(auth), "expires_in"))
  {
    c.(oauthAccessToken := StringField(Prop(Val(auth), "access_token")),
       tokenExpires := Some(ExpiresAt(now, Prop(Val(auth), "expires_in"))))
  }

  /**
   * `refreshAlexaGatewayToken(client)`: the store and the client object
   * afterwards. `auth` is the answer of the token endpoint, consulted only
   * when a refresh is due.
   */
  function RefreshGatewayToken(t: Table, c: Client, now: int, auth: Option<Json>): (r: Result<(Table, Client)>)
    ensures !NeedsRefresh(c, now) ==> r == Ok((t, c))
    ensures NeedsRefresh(c, now) && auth.None? ==> r == Err(UpstreamError)
    ensures r.Ok? && NeedsRefresh(c, now) ==> r.value.1.oauthRefreshToken == c.oauthRefreshToken
    ensures r.Ok? ==> r.value.0 == SetOauthTokens(t, r.value.1) || r.value.0 == t
    ensures NeedsRefresh(c, now) && auth.Some? && auth.value != JNull ==>
      r == Ok((SetOauthTokens(t, Refreshed(c, now, auth.value)), Refreshed(c, now, auth.value)))
    ensures NeedsRefresh(c, now) && auth == Some(JNull) ==> r == Err(TypeError)
  {
    if !NeedsRefresh(c, now) then Ok((t, c))
    else match auth
      case None => Err(UpstreamError)
      case Some(a) =>
        if a == JNull then Err(TypeError)
        else
          var c' := Refreshed(c, now, a);
          Ok((SetOauthTokens(t, c'), c'))
  }

  /** A token that needs refreshing still needs it later: the decision is monotone in time. */
  lemma NeedsRefreshMonotone(c: Client, now: int, later: int)
    requires now <= later && NeedsRefresh(c, now)
    ensures NeedsRefresh(c, later)
  {
  }

  /** A refresh that grants at least 120 seconds leaves nothing to refresh at that instant. */
  lemma RefreshSettles(t: Table, c: Client, now: int, auth: Json)
    requires auth != JNull && NeedsRefresh(c, now)
    requires Prop(Val(auth), "expires_in").Val? && Prop(Val(auth), "expires_in").v.JNum?
    requires Prop(Val(auth), "expires_in").v.n >= 120
    ensures RefreshGatewayToken(t, c, now, Some(auth)).Ok?
    ensures !NeedsRefresh(RefreshGatewayToken(t, c, now, Some(auth)).value.1, now)
    ensures RefreshGatewayToken(RefreshGatewayToken(t, c, now, Some(auth)).value.0,
                                RefreshGatewayToken(t, c, now, Some(auth)).value.1, now, None) ==
            Ok(RefreshGatewayToken(t, c, now, Some(auth)).value)
  {
  }

  /** A refresh keeps the stored device access token and the stored refresh token. */
  lemma RefreshKeepsCredentials(t: Table, c: Client, now: int, auth: Option<Json>)
    requires Keyed(t) && c.clientId in t && t[c.clientId] == c
    requires RefreshGatewayToken(t, c, now, auth).Ok?
    ensures c.clientId in RefreshGatewayToken(t, c, now, auth).value.0
    ensures RefreshGatewayToken(t, c, now, auth).value.0[c.clientId].accessToken == c.accessToken
    ensures RefreshGatewayToken(t, c, now, auth).value.0[c.clientId].oauthRefreshToken == c.oauthRefreshToken
    ensures RefreshGatewayToken(t, c, now, auth).value.0[c.clientId] == RefreshGatewayToken(t, c, now, auth).value.1
  {
  }

  // ---------------------------------------------------------------------
  // Device events

  /** `payload.event.endpoint`: the device id and the gateway bearer token. */
  function Endpoint(deviceId: string, token: Option<string>): Json
  {
    JObj([("endpointId", JStr(deviceId)),
          ("scope", JObj([("type", JStr("BearerToken"))] +
                         // `JSON.stringify` leaves out an undefined token
                         (if token.Some? then [("token", JStr(token.value))] else [])))])
  }

  /**
   * The transformation of an event payload: a fresh `messageId` when the
   * header has no truthy one, and the endpoint set. Missing `event` or
   * `header` throws; so does writing a property of a primitive value, as the
   * compiled module runs in strict mode. An array header takes the new
   * property, which its JSON text then leaves out.
   */
  function TransformEvent(payload: Json, deviceId: string, token: Option<string>, messageId: string): (r: Result<Json>)
    ensures r.Err? ==> r.fault == TypeError
    ensures var event := Prop(Val(payload), "event");
      var header := Prop(event, "header");
      r.Ok? <==>
        payload.JObj? && event.Val? && event.v.JObj? && header.Val? &&
        (Truthy(Prop(header, "messageId")) || header.v.JArr? || header.v.JObj?)
  {
    var event := Prop(Val(payload), "event");
    var header := Prop(event, "header");
    var mid := Prop(header, "messageId");
    if mid.Thrown? then Err(TypeError)
    else if !Truthy(mid) && !header.v.JObj? && !header.v.JArr? then Err(TypeError)
    else
      // an array takes the property, but its JSON text leaves it out
      var event' := Put(Put(event.v, "header", NewHeader(header, messageId)), "endpoint", Endpoint(deviceId, token));
      Ok(Put(payload, "event", event'))
  }

  /** The header `TransformEvent` writes back: an array, or one with a truthy message id, stays as it was. */
  function NewHeader(header: Access, messageId: string): Json
    requires header.Val? && (Truthy(Prop(header, "messageId")) || header.v.JArr? || header.v.JObj?)
  {
    if Truthy(Prop(header, "messageId")) || header.v.JArr? then header.v else Put(header.v, "messageId", JStr(messageId))
  }

  lemma TransformEventShape(payload: Json, deviceId: string, token: Option<string>, messageId: string)
    requires TransformEvent(payload, deviceId, token, messageId).Ok?
    ensures var event := Prop(Val(payload), "event");
      var header := Prop(event, "header");
      payload.JObj? && event.Val? && event.v.JObj? && header.Val? &&
      (Truthy(Prop(header, "messageId")) || header.v.JArr? || header.v.JObj?) &&
      TransformEvent(payload, deviceId, token, messageId).value ==
        Put(payload, "event", Put(Put(event.v, "header", NewHeader(header, messageId)), "endpoint", Endpoint(deviceId, token)))
  {
  }

  /** What the three writes of `TransformEvent` leave readable, written out on the values. */
  lemma PutEventContents(payload: Json, header: Access, event: Json, ep: Json, messageId: string, k: string, k2: string)
    requires payload.JObj? && event.JObj? && header.Val?
    requires Truthy(Prop(header, "messageId")) || header.v.JArr? || header.v.JObj?
    ensures
      var e1 := Put(event, "header", NewHeader(header, messageId));
      var p := Put(payload, "event", Put(e1, "endpoint", ep));
      var mid := Prop(header, "messageId");
      Prop(Prop(Val(p), "event"), "endpoint") == Val(ep) &&
      Prop(Prop(Prop(Val(p), "event"), "header"), "messageId") ==
        (if Truthy(mid) || header.v.JArr? then mid else Val(JStr(messageId))) &&
      (k != "event" ==> Prop(Val(p), k) == Prop(Val(payload), k)) &&
      (k2 != "header" && k2 != "endpoint" ==> Prop(Prop(Val(p), "event"), k2) == Prop(Val(event), k2))
  {
    var mid := Prop(header, "messageId");
    var header' := NewHeader(header, messageId);
    var e1 := Put(event, "header", header');
    var event' := Put(e1, "endpoint", ep);
    GetPut(payload, "event", event');
    GetPut(e1, "endpoint", ep);
    GetPutOther(e1, "endpoint", ep, "header");
    GetPut(event, "header", header');
    if !Truthy(mid) && !header.v.JArr? {
      GetPut(header.v, "messageId", JStr(messageId));
    }
    if k != "event" {
      GetPutOther(payload, "event", event', k);
    }
    if k2 != "header" && k2 != "endpoint" {
      GetPutOther(e1, "endpoint", ep, k2);
      GetPutOther(event, "header", header', k2);
    }
  }

  /**
   * A transformed payload keeps a truthy message id or gets the fresh one
   * (an array header stays as it was), carries the endpoint, and is
   * otherwise the payload that arrived.
   */
  lemma TransformEventContents(payload: Json, deviceId: string, token: Option<string>, messageId: string, k: string, k2: string)
    requires TransformEvent(payload, deviceId, token, messageId).Ok?
    ensures
      var p := TransformEvent(payload, deviceId, token, messageId).value;
      var event := Prop(Val(payload), "event");
      var mid := Path(Val(payload), ["event", "header", "messageId"]);
      Prop(Prop(Val(p), "event"), "endpoint") == Val(Endpoint(deviceId, token)) &&
      Path(Val(p), ["event", "header", "messageId"]) ==
        (if Truthy(mid) || Prop(event, "header").v.JArr? then mid else Val(JStr(messageId))) &&
      (k != "event" ==> Prop(Val(p), k) == Prop(Val(payload), k)) &&
      (k2 != "header" && k2 != "endpoint" ==> Prop(Prop(Val(p), "event"), k2) == Prop(event, k2))
  {
    var p := TransformEvent(payload, deviceId, token, messageId).value;
    var event := Prop(Val(payload), "event");
    var header := Prop(event, "header");
    TransformEventShape(payload, deviceId, token, messageId);
    PutEventContents(payload, header, event.v, Endpoint(deviceId, token), messageId, k, k2);
    assert Path(Val(payload), ["event", "header", "messageId"]) == Prop(header, "messageId");
    assert Path(Val(p), ["event", "header", "messageId"]) == Prop(Prop(Prop(Val(p), "event"), "header"), "messageId");
  }

  /** A request to the event gateway: the bearer credential and the JSON body. */
  datatype Post = Post(bearer: Option<string>, body: Json)

  datatype DeviceEventOutcome =
    | ClientNotFound
    | SkillNotLinked
    | Posted(table: Table, post: Post)
    | Aborted(table: Table, fault: Fault)

  /**
   * `handleDeviceEvent(clientId, accessToken, deviceId, payload)`. `auth` is
   * the answer of the token endpoint should a refresh be due, `messageId`
   * the fresh id should the event lack one.
   */
  function HandleDeviceEvent(t: Table, clientId: string, accessToken: string, deviceId: string, payload: Json,
                             now: int, auth: Option<Json>, messageId: string): (r: DeviceEventOutcome)
    ensures r == ClientNotFound <==> GetClientAndVerify(t, clientId, accessToken) == Ok(None)
    ensures r == SkillNotLinked <==>
      clientId in t && t[clientId].accessToken == accessToken && !Truthy(OptionalString(t[clientId].oauthAccessToken))
    ensures r.Posted? ==>
      clientId in t && t[clientId].accessToken == accessToken && Truthy(OptionalString(t[clientId].oauthAccessToken))
    ensures r.Aborted? && clientId !in t ==> r.table == t && r.fault == TypeError
    ensures r.Posted? ==>
      var refreshed := RefreshGatewayToken(t, t[clientId], now, auth);
      refreshed.Ok? && r.table == refreshed.value.0 && r.post.bearer == refreshed.value.1.oauthAccessToken &&
      TransformEvent(payload, deviceId, r.post.bearer, messageId) == Ok(r.post.body)
    ensures clientId in t && t[clientId].accessToken == accessToken && Truthy(OptionalString(t[clientId].oauthAccessToken)) &&
            RefreshGatewayToken(t, t[clientId], now, auth).Ok? &&
            TransformEvent(payload, deviceId, RefreshGatewayToken(t, t[clientId], now, auth).value.1.oauthAccessToken, messageId).Ok?
            ==> r.Posted?
  {
    match GetClientAndVerify(t, clientId, accessToken)
    case Err(f) => Aborted(t, f)
    case Ok(None) => ClientNotFound
    case Ok(Some(client)) =>
      if !Truthy(OptionalString(client.oauthAccessToken)) then SkillNotLinked
      else match RefreshGatewayToken(t, client, now, auth)
        case Err(f) => Aborted(t, f)
        case Ok((t', client')) =>
          match TransformEvent(payload, deviceId, client'.oauthAccessToken, messageId)
          case Err(f) => Aborted(t', f)
          case Ok(body) => Posted(t', Post(client'.oauthAccessToken, body))
  }

  /** An optional string as JavaScript sees it: absent is `undefined`. */
  function OptionalString(o: Option<string>): Access
  {
    if o.Some? then Val(JStr(o.value)) else Undefined
  }

  /**
   * What reaches the gateway: the endpoint names the device and carries the
   * same bearer token the request is authorised with, and that token is the
   * stored one, not due for refresh, unless a refresh was due and the token
   * endpoint answered.
   */
  lemma PostedEventCarriesToken(t: Table, clientId: string, accessToken: string, deviceId: string, payload: Json,
                                now: int, auth: Option<Json>, messageId: string)
    requires Keyed(t)
    requires HandleDeviceEvent(t, clientId, accessToken, deviceId, payload, now, auth, messageId).Posted?
    ensures
      var r := HandleDeviceEvent(t, clientId, accessToken, deviceId, payload, now, auth, messageId);
      Prop(Prop(Val(r.post.body), "event"), "endpoint") == Val(Endpoint(deviceId, r.post.bearer)) &&
      clientId in r.table && r.table[clientId].oauthAccessToken == r.post.bearer &&
      r.table[clientId].accessToken == t[clientId].accessToken &&
      (!NeedsRefresh(t[clientId], now) ==> r.table == t && r.post.bearer == t[clientId].oauthAccessToken) &&
      (NeedsRefresh(t[clientId], now) ==>
         (auth.Some? && r.post.bearer == StringField(Prop(Val(auth.value), "access_token"))))
  {
    var client := t[clientId];
    var Ok((t', client')) := RefreshGatewayToken(t, client, now, auth);
    RefreshKeepsCredentials(t, client, now, auth);
    TransformEventContents(payload, deviceId, client'.oauthAccessToken, messageId, "", "");
  }

  // ---------------------------------------------------------------------
  // Directives correlated through the hub

  /** The body the error handler of server/app.ts sends for a handler that threw, with status 500. */
  const InternalServerError: Json :=
    JObj([("error", JStr("Internal Server Error")), ("message", JStr("Internal Server Error"))])

  /**
   * `handleDiscovery` up to its return: the stamped request goes out to
   * every device of the account, the 2000 ms window opens, and a collector
   * listens under the request id. Reading `req.user.user_id` throws when
   * there is no user, and the framework answers 500.
   */
  function DiscoveryStarted(s: HubState, body: Json, user: Access, requestId: string, requestTime: string): HubState
  {
    var request := Stamp(RequestOf(body), requestId, requestTime);
    var uid := Prop(user, "user_id");
    if uid.Thrown? then s.(replies := s.replies + [Reply(requestId, 500, Some(InternalServerError))])
    else
      var s1 := SentToClient(s, ToJsString(uid), request);
      s1.(discoveries := s1.discoveries[requestId := Discovery(ReplyMessageId(body), [], true)],
          listeners := AddListener(s1.listeners, requestId, Collect(requestId)))
  }

  /** The discovery timer: stop listening and answer with what was collected. */
  function DiscoveryClosed(s: HubState, requestId: string): HubState
  {
    if requestId !in s.discoveries || !s.discoveries[requestId].open then s
    else
      var d := s.discoveries[requestId];
      s.(listeners := RemoveAllListeners(s.listeners, requestId),
         discoveries := s.discoveries[requestId := d.(open := false)],
         replies := s.replies + [Reply(requestId, 200, Some(DiscoverResponse(d.messageId, d.endpoints)))])
  }

  /**
   * `handleDefault` up to its return: the stamped request goes to the one
   * device the directive names, the 5000 ms timer starts, and a one-shot
   * listener waits under the request id. A directive without an endpoint
   * makes the argument evaluation throw, answered with 500.
   */
  function DefaultStarted(s: HubState, body: Json, user: Access, requestId: string, requestTime: string): HubState
  {
    var request := Stamp(RequestOf(body), requestId, requestTime);
    var uid := Prop(user, "user_id");
    var eid := Path(Val(request), ["directive", "endpoint", "endpointId"]);
    if uid.Thrown? || eid.Thrown? then s.(replies := s.replies + [Reply(requestId, 500, Some(InternalServerError))])
    else
      var s1 := SentToDevice(s, ToJsString(uid), ToJsString(eid), request);
      s1.(timeouts := s1.timeouts + {requestId},
          listeners := AddListener(s1.listeners, requestId, Once(requestId)))
  }

  /** The default timer: stop listening and answer 503. A cleared timer does not fire. */
  function DefaultExpired(s: HubState, requestId: string): HubState
  {
    if requestId !in s.timeouts then s
    else
      s.(listeners := RemoveAllListeners(s.listeners, requestId),
         timeouts := s.timeouts - {requestId},
         replies := s.replies + [Reply(requestId, 503, None)])
  }

  method HandleDiscovery(hub: Hub, body: Json, user: Access, requestId: string, requestTime: string)
    modifies hub
    ensures hub.State() == DiscoveryStarted(old(hub.State()), body, user, requestId, requestTime)
  {
    var request := Stamp(RequestOf(body), requestId, requestTime);
    var uid := Prop(user, "user_id");
    if uid.Thrown? {
      hub.replies := hub.replies + [Reply(requestId, 500, Some(InternalServerError))];
      return;
    }
    hub.SendToClient(ToJsString(uid), request);
    hub.discoveries := hub.discoveries[requestId := Discovery(ReplyMessageId(body), [], true)];
    hub.On(requestId, Collect(requestId));
  }

  method OnDiscoveryWindowEnd(hub: Hub, requestId: string)
    modifies hub
    ensures hub.State() == DiscoveryClosed(old(hub.State()), requestId)
  {
    if requestId !in hub.discoveries || !hub.discoveries[requestId].open {
      return;
    }
    var d := hub.discoveries[requestId];
    hub.RemoveAll(requestId);
    hub.discoveries := hub.discoveries[requestId := d.(open := false)];
    hub.replies := hub.replies + [Reply(requestId, 200, Some(DiscoverResponse(d.messageId, d.endpoints)))];
  }

  method HandleDefault(hub: Hub, body: Json, user: Access, requestId: string, requestTime: string)
    modifies hub
    ensures hub.State() == DefaultStarted(old(hub.State()), body, user, requestId, requestTime)
  {
    var request := Stamp(RequestOf(body), requestId, requestTime);
    var uid := Prop(user, "user_id");
    var eid := Path(Val(request), ["directive", "endpoint", "endpointId"]);
    if uid.Thrown? || eid.Thrown? {
      hub.replies := hub.replies + [Reply(requestId, 500, Some(InternalServerError))];
      return;
    }
    hub.SendToDevice(ToJsString(uid), ToJsString(eid), request);
    hub.timeouts := hub.timeouts + {requestId};
    hub.On(requestId, Once(requestId));
  }

  method OnDefaultTimeout(hub: Hub, requestId: string)
    modifies hub
    ensures hub.State() == DefaultExpired(old(hub.State()), requestId)
  {
    if requestId !in hub.timeouts {
      return;
    }
    hub.RemoveAll(requestId);
    hub.timeouts := hub.timeouts - {requestId};
    hub.replies := hub.replies + [Reply(requestId, 503, None)];
  }

  /** What the router answers at once; `Deferred` answers arrive in the hub's replies. */
  datatype Answer = Answered(status: int, body: Option<Json>) | Deferred | Unanswered

  /**
   * `messageRouter`, with everything its handlers consult given as
   * parameters.
   */
  method MessageRouter(db: Db, hub: Hub, body: Json, user: Access, requestId: string, requestTime: string,
                       auth: Option<Json>, profile: Option<Json>, now: int, random: seq<byte>)
    returns (answer: Answer)
    requires |random| == 32
    modifies db, hub
    ensures RouteOf(body) == BadRequest ==> answer == Answered(400, None) && unchanged(db, hub)
    ensures RouteOf(body) == ToAuthorization ==>
      var (t, r) := Authorized(old(db.table), body, auth, profile, now, random);
      db.table == t && unchanged(hub) &&
      answer == (if r.Ok? then Answered(200, Some(r.value)) else Unanswered)
    ensures RouteOf(body) == ToDiscovery ==>
      answer == Deferred && unchanged(db) &&
      hub.State() == DiscoveryStarted(old(hub.State()), body, user, requestId, requestTime)
    ensures RouteOf(body) == ToDefault ==>
      answer == Deferred && unchanged(db) &&
      hub.State() == DefaultStarted(old(hub.State()), body, user, requestId, requestTime)
  {
    match RouteOf(body)
    case BadRequest =>
      answer := Answered(400, None);
    case ToAuthorization =>
      var r := HandleAuthorization(db, body, auth, profile, now, random);
      answer := if r.Ok? then Answered(200, Some(r.value)) else Unanswered;
    case ToDiscovery =>
      HandleDiscovery(hub, body, user, requestId, requestTime);
      answer := Deferred;
    case ToDefault =>
      HandleDefault(hub, body, user, requestId, requestTime);
      answer := Deferred;
  }
}
