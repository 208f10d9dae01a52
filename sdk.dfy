/**
 * The device side of the gateway, sdk/arduino/AlexaWs.cpp: connecting to the
 * hub, routing incoming directives to the registered callback, and wrapping
 * the callback's answer as a `{requestId, response}` frame.
 *
 * ArduinoJson never throws: reading a member of a missing or non-object
 * value yields an undefined variant, modelled as `None`.
 */
module Sdk {
  import opened Json

  /** `variant[key]` in ArduinoJson: undefined unless the variant is an object with that key. */
  function Member(v: Option<Json>, key: string): (r: Option<Json>)
    ensures r.Some? ==> v.Some? && Get(v.value, key) == r
  {
    if v.Some? then Get(v.value, key) else None
  }

  /** `variant[k1][k2]...`. */
  function MemberPath(v: Option<Json>, keys: seq<string>): Option<Json>
    decreases keys
  {
    if keys == [] then v else MemberPath(Member(v, keys[0]), keys[1..])
  }

  /** A member of an object is found under its key when no earlier member has that key. */
  lemma MemberAt(o: Json, i: nat)
    requires o.JObj? && i < |o.members|
    requires forall j :: 0 <= j < i ==> o.members[j].0 != o.members[i].0
    ensures Member(Some(o), o.members[i].0) == Some(o.members[i].1)
  {
    LookupAt(o.members, i);
  }

  lemma MemberPathStep(v: Option<Json>, key: string, keys: seq<string>)
    ensures MemberPath(v, [key] + keys) == MemberPath(Member(v, key), keys)
  {
    assert ([key] + keys)[1..] == keys;
  }

  /**
   * `String s = variant`: a string as itself, a number or boolean printed,
   * an undefined variant as the empty string.
   */
  function VariantString(v: Option<Json>): string
  {
    match v
    case Some(JStr(s)) => s
    case Some(JNum(n)) => IntToString(n)
    case Some(JBool(b)) => if b then "true" else "false"
    case _ => ""
  }

  /** `"/?client_id=" + id + "&client_token=" + token + "&device_id=" + device`, unescaped. */
  function ConnectUrl(clientId: string, clientToken: string, deviceId: string): (url: string)
    ensures |url| == 37 + |clientId| + |clientToken| + |deviceId|
    ensures url[..12] == "/?client_id="
  {
    "/?client_id=" + clientId + "&client_token=" + clientToken + "&device_id=" + deviceId
  }

  /** Which callback `routeMessage` calls, and with which request id. */
  datatype Dispatch = NoDispatch | ToDiscoveryCallback(requestId: string) | ToEventCallback(requestId: string)

  /**
   * `routeMessage` as written. The guard `if (requestId)` tests an Arduino
   * `String`, which converts to true whenever its buffer is allocated, so
   * every parsed object is dispatched, with the empty request id when the
   * message has none.
   */
  function RouteMessageAsWritten(req: Json): (r: Dispatch)
    ensures r != NoDispatch
  {
    var requestId := VariantString(Member(Some(req), "requestId"));
    if MemberPath(Some(req), ["directive", "header", "namespace"]) == Some(JStr("Alexa.Discovery"))
    then ToDiscoveryCallback(requestId)
    else ToEventCallback(requestId)
  }

  /** A message without a request id still reaches the event callback. */
  lemma RouteWithoutRequestIdDispatches()
    ensures RouteMessageAsWritten(JObj([])) == ToEventCallback("")
  {
  }

  /**
   * `routeMessage` as intended: only a message with a request id is
   * dispatched; `Alexa.Discovery` (compared as a string) goes to the
   * discovery callback, everything else to the event callback.
   */
  function RouteMessage(req: Json): (r: Dispatch)
    ensures r == NoDispatch <==> VariantString(Member(Some(req), "requestId")) == ""
    ensures r.ToDiscoveryCallback? <==>
      VariantString(Member(Some(req), "requestId")) != "" &&
      MemberPath(Some(req), ["directive", "header", "namespace"]) == Some(JStr("Alexa.Discovery"))
    ensures r != NoDispatch ==> r.requestId == VariantString(Member(Some(req), "requestId"))
    ensures r != NoDispatch ==> r == RouteMessageAsWritten(req)
  {
    var requestId := VariantString(Member(Some(req), "requestId"));
    if requestId == "" then NoDispatch
    else if MemberPath(Some(req), ["directive", "header", "namespace"]) == Some(JStr("Alexa.Discovery"))
    then ToDiscoveryCallback(requestId)
    else ToEventCallback(requestId)
  }

  /** The frame `sendResponse` writes. */
  function ResponseFrame(requestId: string, response: Json): Json
  {
    JObj([("requestId", JStr(requestId)), ("response", response)])
  }

  /**
   * `parseIncomingMessage`: `parseObject` succeeds only on a JSON object;
   * anything else is dropped. `payload` is the text as parsed, `None` when
   * it is not JSON.
   */
  function ParseIncomingMessage(payload: Option<Json>): (r: Dispatch)
    ensures !(payload.Some? && payload.value.JObj?) ==> r == NoDispatch
    ensures payload.Some? && payload.value.JObj? ==> r == RouteMessage(payload.value)
  {
    if payload.Some? && payload.value.JObj? then RouteMessage(payload.value) else NoDispatch
  }

  /** The handlers the SDK ships: the thermostat's two request handlers. */
  datatype Handler = ThermostatDiscovery | ThermostatChange

  /** A callback slot: `NULL`, or bound to a handler. */
  datatype Callback = Unset | Bound(handler: Handler)

  /** Every field of an `AlexaWs` object, as one value. */
  datatype SdkState = SdkState(
    deviceId: Option<string>, host: string, port: int, useSsl: bool, debug: bool,
    cbEvent: Callback, cbDiscoveryEvent: Callback, url: Option<string>, sent: seq<Json>, serial: seq<string>)

  class AlexaWs {
    var deviceId: Option<string>
    var host: string
    var port: int
    var useSsl: bool
    var debug: bool
    var cbEvent: Callback
    var cbDiscoveryEvent: Callback
    /** The URL the socket client was asked to open, once `connect` has run. */
    var url: Option<string>
    /** The text frames written on the socket. */
    var sent: seq<Json>
    /** The lines written to the serial port. */
    var serial: seq<string>

    function State(): SdkState
      reads this
    {
      SdkState(deviceId, host, port, useSsl, debug, cbEvent, cbDiscoveryEvent, url, sent, serial)
    }

    constructor ()
      ensures cbEvent == Unset && cbDiscoveryEvent == Unset && !debug
      ensures host == "alexa.iot.oz.nu" && port == 443 && useSsl
      ensures deviceId == None && url == None && sent == [] && serial == []
    {
      cbEvent, cbDiscoveryEvent, debug := Unset, Unset, false;
      host, port, useSsl := "alexa.iot.oz.nu", 443, true;
      deviceId, url, sent, serial := None, None, [], [];
    }

    /** `log`: a line reaches the serial port only in debug mode. */
    method Log(line: string)
      modifies this
      ensures State() == old(State()).(serial := old(serial) + (if debug then [line] else []))
    {
      if debug {
        serial := serial + [line];
      }
    }

    method Debug(on: bool)
      modifies this
      ensures debug == on
      ensures deviceId == old(deviceId) && url == old(url) && sent == old(sent) && serial == old(serial)
      ensures cbEvent == old(cbEvent) && cbDiscoveryEvent == old(cbDiscoveryEvent)
      ensures host == old(host) && port == old(port) && useSsl == old(useSsl)
    {
      debug := on;
    }

    /** `connect`: remembers the device id and opens the socket at the credential URL. */
    method Connect(clientId: string, clientToken: string, device: string)
      modifies this
      ensures deviceId == Some(device)
      ensures url == Some(ConnectUrl(clientId, clientToken, device))
      ensures serial == old(serial) + (if debug then ConnectLog(host, port, clientId, clientToken, device) else [])
      ensures sent == old(sent) && debug == old(debug)
      ensures cbEvent == old(cbEvent) && cbDiscoveryEvent == old(cbDiscoveryEvent)
      ensures host == old(host) && port == old(port) && useSsl == old(useSsl)
    {
      var lines := ConnectLog(host, port, clientId, clientToken, device);
      var i := 0;
      while i < |lines|
        invariant 0 <= i <= |lines|
        invariant serial == old(serial) + (if debug then lines[..i] else [])
        invariant deviceId == old(deviceId) && url == old(url) && sent == old(sent) && debug == old(debug)
        invariant cbEvent == old(cbEvent) && cbDiscoveryEvent == old(cbDiscoveryEvent)
        invariant host == old(host) && port == old(port) && useSsl == old(useSsl)
      {
        Log(lines[i]);
        assert lines[..i + 1] == lines[..i] + [lines[i]];
        i := i + 1;
      }
      assert lines[..|lines|] == lines;
      deviceId := Some(device);
      url := Some(ConnectUrl(clientId, clientToken, device));
    }

    method OnDiscovery(cb: Callback)
      modifies this
      ensures cbDiscoveryEvent == cb && cbEvent == old(cbEvent)
      ensures serial == old(serial) + (if debug then ["Setting discovery callback"] else [])
      ensures deviceId == old(deviceId) && url == old(url) && sent == old(sent) && debug == old(debug)
      ensures host == old(host) && port == old(port) && useSsl == old(useSsl)
    {
      Log("Setting discovery callback");
      cbDiscoveryEvent := cb;
    }

    method OnEvent(cb: Callback)
      modifies this
      ensures cbEvent == cb && cbDiscoveryEvent == old(cbDiscoveryEvent)
      ensures serial == old(serial) + (if debug then ["Setting event callback"] else [])
      ensures deviceId == old(deviceId) && url == old(url) && sent == old(sent) && debug == old(debug)
      ensures host == old(host) && port == old(port) && useSsl == old(useSsl)
    {
      Log("Setting event callback");
      cbEvent := cb;
    }

    /** `sendResponse`: exactly one frame, carrying the request id it was given. */
    method SendResponse(requestId: string, response: Json)
      modifies this
      ensures State() == old(State()).(sent := old(sent) + [ResponseFrame(requestId, response)],
        serial := old(serial) + (if debug then ["Sending Response", FrameText(requestId, response)] else []))
    {
      Log("Sending Response");
      Log(FrameText(requestId, response));
      sent := sent + [ResponseFrame(requestId, response)];
    }
  }

  /** The lines `connect` logs, with the format arguments filled in. */
  function ConnectLog(host: string, port: int, clientId: string, clientToken: string, deviceId: string): seq<string>
  {
    ["Starting connection...",
     "Alexa Host: " + host + "\n",
     "Alexa Port: " + IntToString(port) + "\n",
     "Alexa Client ID: " + clientId + "\n",
     "Alexa Client Token: " + clientToken + "\n",
     "Alexa Device ID: " + deviceId + "\n"]
  }

  /**
   * The logged text of a frame. The serialiser itself is not modelled; the
   * line stands for `root.printTo(responsePayload)`.
   */
  function FrameText(requestId: string, response: Json): string
  {
    "{\"requestId\":\"" + requestId + "\",\"response\":...}"
  }
}
