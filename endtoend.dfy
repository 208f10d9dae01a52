/**
 * How the parts fit together: the URL the SDK connects with passes the
 * hub's upgrade gate, a directive the hub stamps reaches the device's
 * callback under its request id, the device's answer frame reaches the
 * listener waiting for that id, and what the Lambda forwards is routed and
 * admitted by the server as the directive's namespace says.
 */
module EndToEnd {
  import opened Json
  import opened Store
  import Wss
  import Alexa
  import Sdk
  import Lambda

  /**
   * A query value the SDK can put in its URL unescaped and the hub reads
   * back unchanged: non-empty, no separator of the URL inside, and none of
   * the characters `querystring.parse` decodes (`+` to a space, `%xx`).
   */
  predicate Plain(s: string)
  {
    s != "" && '&' !in s && '=' !in s && '#' !in s && '?' !in s && '+' !in s && '%' !in s && ' ' !in s
  }

  /** One `key=value` piece of a query string is read back as that key and value. */
  lemma PairOf(key: string, value: string)
    requires '=' !in key
    ensures Wss.SplitPair(key + "=" + value) == (key, value)
  {
    Wss.AfterCharPrefix(key, '=', value);
  }

  /** The SDK's URL is `/`, `?` and the three `key=value` pieces joined by `&`. */
  lemma ConnectUrlShape(clientId: string, clientToken: string, deviceId: string)
    ensures Sdk.ConnectUrl(clientId, clientToken, deviceId) ==
      "/" + ['?'] + (("client_id=" + clientId) + "&" + (("client_token=" + clientToken) + "&" + ("device_id=" + deviceId)))
  {
  }

  /** The query component of the SDK's URL: everything after its `?`. */
  lemma ConnectUrlQuery(clientId: string, clientToken: string, deviceId: string)
    requires Plain(clientId) && Plain(clientToken) && Plain(deviceId)
    ensures Wss.QueryOf(Sdk.ConnectUrl(clientId, clientToken, deviceId)) ==
      ("client_id=" + clientId) + "&" + (("client_token=" + clientToken) + "&" + ("device_id=" + deviceId))
  {
    var rest := ("client_id=" + clientId) + "&" + (("client_token=" + clientToken) + "&" + ("device_id=" + deviceId));
    ConnectUrlShape(clientId, clientToken, deviceId);
    assert '#' !in rest;
    Wss.AfterCharPrefix("/", '?', rest);
  }

  /** Three pieces without `&` joined by `&` split back into those pieces. */
  lemma SplitThree(p1: string, p2: string, p3: string)
    requires '&' !in p1 && '&' !in p2 && '&' !in p3
    ensures Wss.Split(p1 + "&" + (p2 + "&" + p3), '&') == [p1, p2, p3]
  {
    Wss.SplitAfterPiece(p1, p2 + "&" + p3, '&');
    Wss.SplitAfterPiece(p2, p3, '&');
  }

  /** Adding a `key=value` piece records the value under the key, after any earlier ones. */
  lemma AddPieceOf(m: Wss.Query, key: string, value: string)
    requires '=' !in key
    ensures Wss.AddPiece(m, key + "=" + value) == m[key := (if key in m then m[key] else []) + [value]]
  {
    PairOf(key, value);
    assert |key + "=" + value| > 0;
  }

  /** The three credential pieces parse to one value per key. */
  lemma AddCredentialPieces(clientId: string, clientToken: string, deviceId: string)
    requires Plain(clientId) && Plain(clientToken) && Plain(deviceId)
    ensures Wss.AddPieces(map[], ["client_id=" + clientId, "client_token=" + clientToken, "device_id=" + deviceId]) ==
      map["client_id" := [clientId], "client_token" := [clientToken], "device_id" := [deviceId]]
  {
    var p1 := "client_id=" + clientId;
    var p2 := "client_token=" + clientToken;
    var p3 := "device_id=" + deviceId;
    assert p1 == "client_id" + "=" + clientId;
    assert p2 == "client_token" + "=" + clientToken;
    assert p3 == "device_id" + "=" + deviceId;
    var m0: Wss.Query := map[];
    AddPieceOf(m0, "client_id", clientId);
    assert "client_id" !in m0 && [] + [clientId] == [clientId];
    var m1 := map["client_id" := [clientId]];
    assert Wss.AddPiece(m0, p1) == m1;
    AddPieceOf(m1, "client_token", clientToken);
    assert "client_token" !in m1 && [] + [clientToken] == [clientToken];
    var m2 := m1["client_token" := [clientToken]];
    assert Wss.AddPiece(m1, p2) == m2;
    AddPieceOf(m2, "device_id", deviceId);
    assert "device_id" !in m2 && [] + [deviceId] == [deviceId];
    var m3 := m2["device_id" := [deviceId]];
    assert Wss.AddPiece(m2, p3) == m3;
    assert [p1, p2, p3][1..] == [p2, p3];
    assert [p2, p3][1..] == [p3];
    assert Wss.AddPieces(m0, [p1, p2, p3]) == Wss.AddPieces(m1, [p2, p3]);
    assert Wss.AddPieces(m1, [p2, p3]) == Wss.AddPieces(m2, [p3]);
    assert Wss.AddPieces(m2, [p3]) == Wss.AddPieces(m3, []);
  }

  /** The query of the SDK's URL parses to exactly the three credentials. */
  lemma ConnectQuery(clientId: string, clientToken: string, deviceId: string)
    requires Plain(clientId) && Plain(clientToken) && Plain(deviceId)
    ensures Wss.ParseQuery(Wss.QueryOf(Sdk.ConnectUrl(clientId, clientToken, deviceId))) ==
      map["client_id" := [clientId], "client_token" := [clientToken], "device_id" := [deviceId]]
  {
    ConnectUrlQuery(clientId, clientToken, deviceId);
    SplitThree("client_id=" + clientId, "client_token=" + clientToken, "device_id=" + deviceId);
    AddCredentialPieces(clientId, clientToken, deviceId);
  }

  /**
   * The gate and the SDK agree: a device connecting with the credentials
   * its account holds is accepted, as that client and under the device id
   * it gave; a wrong token is refused; an unknown client id stalls the
   * upgrade.
   */
  lemma DeviceUrlAccepted(clientId: string, clientToken: string, deviceId: string, t: Table)
    requires Plain(clientId) && Plain(clientToken) && Plain(deviceId)
    ensures var url := Sdk.ConnectUrl(clientId, clientToken, deviceId);
      Wss.VerifyClient(url, t) ==
        if clientId !in t then Wss.Stalled
        else if t[clientId].accessToken == clientToken then Wss.Accepted(t[clientId], deviceId)
        else Wss.Rejected
  {
    var url := Sdk.ConnectUrl(clientId, clientToken, deviceId);
    ConnectQuery(clientId, clientToken, deviceId);
    assert Wss.QueryParam(url, "client_id") == Val(JStr(clientId));
    assert Wss.QueryParam(url, "client_token") == Val(JStr(clientToken));
    assert Wss.QueryParam(url, "device_id") == Val(JStr(deviceId));
  }

  /**
   * The frame `sendResponse` writes is taken by the hub as the answer to
   * the request id it carries, with the device's response as the value;
   * without a request id the hub drops it.
   */
  lemma ResponseFrameClassified(requestId: string, response: Json)
    ensures requestId != "" ==>
      Wss.Classify(Some(Sdk.ResponseFrame(requestId, response))) ==
        Wss.Response(requestId, requestId == "error", Some(response))
    ensures requestId == "" ==> Wss.Classify(Some(Sdk.ResponseFrame(requestId, response))) == Wss.Ignored
  {
    var f := Sdk.ResponseFrame(requestId, response);
    Sdk.MemberAt(f, 0);
    Sdk.MemberAt(f, 1);
    assert Prop(Val(f), "requestId") == Val(JStr(requestId));
    assert Prop(Val(f), "response") == Val(response);
    assert Get(f, "request") == None;
  }

  /**
   * A directive stamped by the hub reaches the device's callback under the
   * hub's request id, and in the callback its namespace selects.
   */
  lemma StampedDirectiveDispatched(request: Json, requestId: string, requestTime: string)
    requires request.JObj? && requestId != ""
    ensures var d := Sdk.RouteMessage(Alexa.Stamp(request, requestId, requestTime));
      d != Sdk.NoDispatch && d.requestId == requestId &&
      (d.ToDiscoveryCallback? <==>
        Sdk.MemberPath(Some(request), ["directive", "header", "namespace"]) == Some(JStr("Alexa.Discovery")))
  {
    var stamped := Alexa.Stamp(request, requestId, requestTime);
    assert Get(stamped, "directive") == Get(request, "directive");
    Sdk.MemberPathStep(Some(stamped), "directive", ["header", "namespace"]);
    Sdk.MemberPathStep(Some(request), "directive", ["header", "namespace"]);
  }

  /** Forwarding wraps the directive, so the server reads the namespace the Lambda switched on. */
  lemma ForwardedNamespace(request: Json, profile: Option<Json>)
    requires Lambda.Forwarded(request, profile).Ok?
    ensures Alexa.Namespace(Lambda.Forwarded(request, profile).value.body) == Lambda.DirectiveNamespace(request)
    ensures !Alexa.Namespace(Lambda.Forwarded(request, profile).value.body).Thrown?
  {
    var body := Lambda.Forwarded(request, profile).value.body;
    assert Prop(Val(body), "request") == Val(request);
    assert Alexa.Namespace(body) == Path(Prop(Val(body), "request"), ["directive", "header", "namespace"]);
  }

  /**
   * The server admits what the Lambda forwards, once the signed claim
   * verifies: an authorization directive always, any other directive
   * exactly when the profile names a user; a directive without a token is
   * refused.
   */
  lemma ForwardedAdmission(request: Json, profile: Option<Json>, jwtHeader: string)
    requires Lambda.Forwarded(request, profile).Ok? && jwtHeader != ""
    ensures var f := Lambda.Forwarded(request, profile).value;
      var a := Alexa.VerifyRequest(Val(JStr(jwtHeader)), Some(f.claims), f.body);
      (Lambda.DirectiveNamespace(request) == Val(JStr("Alexa.Authorization")) ==> a == Alexa.Admit(Val(Lambda.NoUser))) &&
      (Lambda.DirectiveNamespace(request) != Val(JStr("Alexa.Authorization")) ==>
        (a.Admit? <==> Truthy(Lambda.BearerToken(request)) && Alexa.HasUser(f.claims)) &&
        (!Truthy(Lambda.BearerToken(request)) ==> a == Alexa.Deny))
  {
    var f := Lambda.Forwarded(request, profile).value;
    ForwardedNamespace(request, profile);
    assert Prop(Val(f.claims), "user") == Val(Lambda.UserFor(Lambda.BearerToken(request), profile).value);
    if !Truthy(Lambda.BearerToken(request)) {
      assert Prop(Val(Lambda.NoUser), "user_id") == Val(JNull);
      assert !Alexa.HasUser(f.claims);
    }
  }

  /** The route the server takes for a forwarded directive is the one its namespace names. */
  lemma ForwardedRoute(request: Json, profile: Option<Json>)
    requires Lambda.Forwarded(request, profile).Ok?
    ensures var r := Alexa.RouteOf(Lambda.Forwarded(request, profile).value.body);
      r != Alexa.BadRequest &&
      (r == Alexa.ToAuthorization <==> Lambda.DirectiveNamespace(request) == Val(JStr("Alexa.Authorization"))) &&
      (r == Alexa.ToDiscovery <==> Lambda.DirectiveNamespace(request) == Val(JStr("Alexa.Discovery")))
  {
    ForwardedNamespace(request, profile);
  }
}
