/**
 * The thermostat device type of the SDK, sdk/arduino/AlexaWsThermostat.cpp:
 * it answers discovery with its capabilities, applies the two setter
 * directives to its target temperature and mode, and answers every handled
 * directive with a state report.
 *
 * The callbacks a sketch registers are modelled by what can be observed of
 * them: whether each one is set, the value the temperature getter returns
 * (a parameter of the call that reads it), and the calls made to the two
 * setters, recorded in order.
 */
module Thermostat {
  import opened Json
  import opened Sdk

  /** `int` on the 32-bit boards: a wider JSON integer is truncated to its low 32 bits. */
  function Int32(n: int): (r: int)
    ensures -0x8000_0000 <= r < 0x8000_0000
    ensures -0x8000_0000 <= n < 0x8000_0000 ==> r == n
    ensures (r - n) % 0x1_0000_0000 == 0
  {
    (n + 0x8000_0000) % 0x1_0000_0000 - 0x8000_0000
  }

  /** `int x = variant`: integers narrowed to `int`, booleans as 1 or 0, anything else 0. */
  function VariantInt(v: Option<Json>): (r: int)
    ensures v.Some? && v.value.JNum? && -0x8000_0000 <= v.value.n < 0x8000_0000 ==> r == v.value.n
    ensures !(v.Some? && (v.value.JNum? || v.value.JBool?)) ==> r == 0
  {
    match v
    case Some(JNum(n)) => Int32(n)
    case Some(JBool(b)) => if b then 1 else 0
    case _ => 0
  }

  /** The directives `handleChangeEvent` tells apart by `directive.header.name`. */
  datatype Directive = ReportState | SetTargetTemperature | SetThermostatMode | Unhandled

  function DirectiveOf(request: Json): (d: Directive)
    ensures d == ReportState <==> MemberPath(Some(request), ["directive", "header", "name"]) == Some(JStr("ReportState"))
    ensures d == SetTargetTemperature <==> MemberPath(Some(request), ["directive", "header", "name"]) == Some(JStr("SetTargetTemperature"))
    ensures d == SetThermostatMode <==> MemberPath(Some(request), ["directive", "header", "name"]) == Some(JStr("SetThermostatMode"))
  {
    var name := MemberPath(Some(request), ["directive", "header", "name"]);
    if name == Some(JStr("ReportState")) then ReportState
    else if name == Some(JStr("SetTargetTemperature")) then SetTargetTemperature
    else if name == Some(JStr("SetThermostatMode")) then SetThermostatMode
    else Unhandled
  }

  /** The settings a thermostat keeps between directives. */
  datatype Settings = Settings(target: int, mode: string)

  /** `setTargetTemperature` and `setMode`: what a directive makes of the settings. */
  function Applied(request: Json, s: Settings): (r: Settings)
    ensures DirectiveOf(request) == SetTargetTemperature ==>
      r == s.(target := VariantInt(MemberPath(Some(request), ["directive", "payload", "targetSetpoint", "value"])))
    ensures DirectiveOf(request) == SetThermostatMode ==>
      r == s.(mode := VariantString(MemberPath(Some(request), ["directive", "payload", "thermostatMode", "value"])))
    ensures DirectiveOf(request) == ReportState || DirectiveOf(request) == Unhandled ==> r == s
  {
    match DirectiveOf(request)
    case SetTargetTemperature =>
      s.(target := VariantInt(MemberPath(Some(request), ["directive", "payload", "targetSetpoint", "value"])))
    case SetThermostatMode =>
      s.(mode := VariantString(MemberPath(Some(request), ["directive", "payload", "thermostatMode", "value"])))
    case _ => s
  }

  /** A `char*` written into a document: the text, or `null` when the pointer is unset. */
  function CString(s: Option<string>): Json
  {
    if s.Some? then JStr(s.value) else JNull
  }

  /** A copied variant; a missing one is written as `null`. */
  function Copied(v: Option<Json>): Json
  {
    if v.Some? then v.value else JNull
  }

  function Celsius(t: int): Json
  {
    JObj([("value", JNum(t)), ("scale", JStr("CELSIUS"))])
  }

  /** One entry of `context.properties`. */
  function Property(namespace: string, name: string, time: Json, value: Json): Json
  {
    JObj([("namespace", JStr(namespace)), ("name", JStr(name)),
          ("uncertaintyInMilliseconds", JNum(1000)), ("timeOfSample", time), ("value", value)])
  }

  /** `event.header` of a state report: the message id is the request's with `-r` appended. */
  function ReportHeader(namespace: string, name: string, request: Json): Json
  {
    var messageId := VariantString(MemberPath(Some(request), ["directive", "header", "messageId"])) + "-r";
    var token := MemberPath(Some(request), ["directive", "header", "correlationToken"]);
    JObj([("namespace", JStr(namespace)), ("name", JStr(name)), ("payloadVersion", JStr("3")),
          ("messageId", JStr(messageId))] +
         (if token.Some? && token.value.JStr? then [("correlationToken", token.value)] else []))
  }

  /** `reportStateResponse`, written into the empty response object the SDK hands over. */
  function ReportStateResponse(namespace: string, name: string, request: Json, deviceId: Option<string>,
                               reading: int, s: Settings): Json
  {
    JObj([
      ("context", JObj([("properties", JArr(ReportProperties(request, reading, s)))])),
      ("event", JObj([
        ("header", ReportHeader(namespace, name, request)),
        ("endpoint", JObj([("endpointId", CString(deviceId))])),
        ("payload", JObj([]))]))])
  }

  /** The answer to a directive the thermostat does not handle. */
  const UnhandledResponse := JObj([("error", JStr("Unhandled Event"))])

  /**
   * What a reader of a state report learns: the temperature, the target
   * and the mode, from the three entries of `context.properties`.
   */
  function Reported(response: Json): Option<(int, int, string)>
  {
    match MemberPath(Some(response), ["context", "properties"])
    case Some(JArr(ps)) =>
      if |ps| == 3 then
        match (MemberPath(Some(ps[0]), ["value", "value"]), MemberPath(Some(ps[1]), ["value", "value"]),
               Member(Some(ps[2]), "value"))
        case (Some(JNum(c)), Some(JNum(t)), Some(JStr(m))) => Some((c, t, m))
        case _ => None
      else None
    case _ => None
  }

  /** The three entries of `context.properties` in a state report. */
  function ReportProperties(request: Json, reading: int, s: Settings): seq<Json>
  {
    var time := Copied(Member(Some(request), "requestTime"));
    [Property("Alexa.TemperatureSensor", "temperature", time, Celsius(reading)),
     Property("Alexa.ThermostatController", "targetSetpoint", time, Celsius(s.target)),
     Property("Alexa.ThermostatController", "thermostatMode", time, JStr(s.mode))]
  }

  lemma PropertyMembers(namespace: string, name: string, time: Json, value: Json)
    ensures Member(Some(Property(namespace, name, time, value)), "namespace") == Some(JStr(namespace))
    ensures Member(Some(Property(namespace, name, time, value)), "name") == Some(JStr(name))
    ensures Member(Some(Property(namespace, name, time, value)), "value") == Some(value)
  {
    var p := Property(namespace, name, time, value);
    MemberAt(p, 0);
    MemberAt(p, 1);
    MemberAt(p, 4);
  }

  lemma CelsiusValue(namespace: string, name: string, time: Json, t: int)
    ensures MemberPath(Some(Property(namespace, name, time, Celsius(t))), ["value", "value"]) == Some(JNum(t))
  {
    PropertyMembers(namespace, name, time, Celsius(t));
    MemberAt(Celsius(t), 0);
    MemberPathStep(Some(Property(namespace, name, time, Celsius(t))), "value", ["value"]);
    MemberPathStep(Some(Celsius(t)), "value", []);
  }

  /** The `context` part of a state report. */
  lemma ReportContext(namespace: string, name: string, request: Json, deviceId: Option<string>,
                      reading: int, s: Settings)
    ensures Member(Some(ReportStateResponse(namespace, name, request, deviceId, reading, s)), "context") ==
      Some(JObj([("properties", JArr(ReportProperties(request, reading, s)))]))
  {
    MemberAt(ReportStateResponse(namespace, name, request, deviceId, reading, s), 0);
  }

  /** The `event` part of a state report. */
  lemma ReportEvent(namespace: string, name: string, request: Json, deviceId: Option<string>,
                    reading: int, s: Settings)
    ensures Member(Some(ReportStateResponse(namespace, name, request, deviceId, reading, s)), "event") ==
      Some(JObj([("header", ReportHeader(namespace, name, request)),
        ("endpoint", JObj([("endpointId", CString(deviceId))])), ("payload", JObj([]))]))
  {
    MemberAt(ReportStateResponse(namespace, name, request, deviceId, reading, s), 1);
  }

  lemma ReportPropertiesAt(namespace: string, name: string, request: Json, deviceId: Option<string>,
                           reading: int, s: Settings)
    ensures MemberPath(Some(ReportStateResponse(namespace, name, request, deviceId, reading, s)), ["context", "properties"]) ==
      Some(JArr(ReportProperties(request, reading, s)))
  {
    var r := ReportStateResponse(namespace, name, request, deviceId, reading, s);
    var context := JObj([("properties", JArr(ReportProperties(request, reading, s)))]);
    ReportContext(namespace, name, request, deviceId, reading, s);
    MemberAt(context, 0);
    MemberPathStep(Some(r), "context", ["properties"]);
    MemberPathStep(Some(context), "properties", []);
  }

  lemma ReportHeaderAt(namespace: string, name: string, request: Json, deviceId: Option<string>,
                       reading: int, s: Settings)
    ensures MemberPath(Some(ReportStateResponse(namespace, name, request, deviceId, reading, s)), ["event", "header"]) ==
      Some(ReportHeader(namespace, name, request))
  {
    var r := ReportStateResponse(namespace, name, request, deviceId, reading, s);
    var event := JObj([("header", ReportHeader(namespace, name, request)),
      ("endpoint", JObj([("endpointId", CString(deviceId))])), ("payload", JObj([]))]);
    ReportEvent(namespace, name, request, deviceId, reading, s);
    MemberAt(event, 0);
    MemberPathStep(Some(r), "event", ["header"]);
    MemberPathStep(Some(event), "header", []);
  }

  lemma ReportEndpointAt(namespace: string, name: string, request: Json, deviceId: Option<string>,
                         reading: int, s: Settings)
    ensures MemberPath(Some(ReportStateResponse(namespace, name, request, deviceId, reading, s)), ["event", "endpoint", "endpointId"]) ==
      Some(CString(deviceId))
  {
    var r := ReportStateResponse(namespace, name, request, deviceId, reading, s);
    var endpoint := JObj([("endpointId", CString(deviceId))]);
    var event := JObj([("header", ReportHeader(namespace, name, request)), ("endpoint", endpoint), ("payload", JObj([]))]);
    ReportEvent(namespace, name, request, deviceId, reading, s);
    MemberAt(event, 1);
    MemberAt(endpoint, 0);
    MemberPathStep(Some(r), "event", ["endpoint", "endpointId"]);
    MemberPathStep(Some(event), "endpoint", ["endpointId"]);
    MemberPathStep(Some(endpoint), "endpointId", []);
  }

  /** Where the parts of a state report sit. */
  lemma ReportLayout(namespace: string, name: string, request: Json, deviceId: Option<string>,
                     reading: int, s: Settings)
    ensures var r := ReportStateResponse(namespace, name, request, deviceId, reading, s);
      MemberPath(Some(r), ["context", "properties"]) == Some(JArr(ReportProperties(request, reading, s))) &&
      MemberPath(Some(r), ["event", "header"]) == Some(ReportHeader(namespace, name, request)) &&
      MemberPath(Some(r), ["event", "endpoint", "endpointId"]) == Some(CString(deviceId))
  {
    ReportPropertiesAt(namespace, name, request, deviceId, reading, s);
    ReportHeaderAt(namespace, name, request, deviceId, reading, s);
    ReportEndpointAt(namespace, name, request, deviceId, reading, s);
  }

  /** A state report carries the reading and the settings it was built from, under its own name and endpoint. */
  lemma ReportCarriesSettings(namespace: string, name: string, request: Json, deviceId: Option<string>,
                              reading: int, s: Settings)
    ensures Reported(ReportStateResponse(namespace, name, request, deviceId, reading, s)) == Some((reading, s.target, s.mode))
    ensures MemberPath(Some(ReportStateResponse(namespace, name, request, deviceId, reading, s)),
                       ["event", "endpoint", "endpointId"]) == Some(CString(deviceId))
    ensures MemberPath(Some(ReportStateResponse(namespace, name, request, deviceId, reading, s)),
                       ["event", "header", "name"]) == Some(JStr(name))
  {
    var r := ReportStateResponse(namespace, name, request, deviceId, reading, s);
    var time := Copied(Member(Some(request), "requestTime"));
    ReportLayout(namespace, name, request, deviceId, reading, s);
    CelsiusValue("Alexa.TemperatureSensor", "temperature", time, reading);
    CelsiusValue("Alexa.ThermostatController", "targetSetpoint", time, s.target);
    PropertyMembers("Alexa.ThermostatController", "thermostatMode", time, JStr(s.mode));
    HeaderMembers(namespace, name, request);
    MemberPathStep(Some(r), "event", ["header", "name"]);
    MemberPathStep(Some(r), "event", ["header"]);
    MemberPathStep(Member(Some(r), "event"), "header", ["name"]);
    MemberPathStep(Member(Some(r), "event"), "header", []);
    MemberPathStep(Some(ReportHeader(namespace, name, request)), "name", []);
  }

  lemma HeaderIdentity(namespace: string, name: string, request: Json)
    ensures var h := ReportHeader(namespace, name, request);
      Member(Some(h), "name") == Some(JStr(name)) &&
      Member(Some(h), "messageId") ==
        Some(JStr(VariantString(MemberPath(Some(request), ["directive", "header", "messageId"])) + "-r"))
  {
    var h := ReportHeader(namespace, name, request);
    MemberAt(h, 1);
    MemberAt(h, 3);
  }

  lemma HeaderToken(namespace: string, name: string, request: Json)
    ensures var h := ReportHeader(namespace, name, request);
      var token := MemberPath(Some(request), ["directive", "header", "correlationToken"]);
      token.Some? && token.value.JStr? ==> Member(Some(h), "correlationToken") == token
  {
    var token := MemberPath(Some(request), ["directive", "header", "correlationToken"]);
    if token.Some? && token.value.JStr? {
      MemberAt(ReportHeader(namespace, name, request), 4);
    }
  }

  lemma HeaderMembers(namespace: string, name: string, request: Json)
    ensures var h := ReportHeader(namespace, name, request);
      Member(Some(h), "name") == Some(JStr(name)) &&
      Member(Some(h), "messageId") ==
        Some(JStr(VariantString(MemberPath(Some(request), ["directive", "header", "messageId"])) + "-r"))
    ensures var h := ReportHeader(namespace, name, request);
      var token := MemberPath(Some(request), ["directive", "header", "correlationToken"]);
      token.Some? && token.value.JStr? ==> Member(Some(h), "correlationToken") == token
  {
    HeaderIdentity(namespace, name, request);
    HeaderToken(namespace, name, request);
  }

  /** The request's message id comes back with `-r` appended; a string correlation token is echoed. */
  lemma ReportEchoesRequest(namespace: string, name: string, request: Json, deviceId: Option<string>,
                            reading: int, s: Settings)
    ensures MemberPath(Some(ReportStateResponse(namespace, name, request, deviceId, reading, s)),
                       ["event", "header", "messageId"]) ==
      Some(JStr(VariantString(MemberPath(Some(request), ["directive", "header", "messageId"])) + "-r"))
    ensures var token := MemberPath(Some(request), ["directive", "header", "correlationToken"]);
      token.Some? && token.value.JStr? ==>
        MemberPath(Some(ReportStateResponse(namespace, name, request, deviceId, reading, s)),
                   ["event", "header", "correlationToken"]) == token
  {
    var r := ReportStateResponse(namespace, name, request, deviceId, reading, s);
    var h := ReportHeader(namespace, name, request);
    ReportLayout(namespace, name, request, deviceId, reading, s);
    HeaderMembers(namespace, name, request);
    MemberPathStep(Some(r), "event", ["header"]);
    MemberPathStep(Member(Some(r), "event"), "header", []);
    MemberPathStep(Some(r), "event", ["header", "messageId"]);
    MemberPathStep(Member(Some(r), "event"), "header", ["messageId"]);
    MemberPathStep(Some(h), "messageId", []);
    MemberPathStep(Some(r), "event", ["header", "correlationToken"]);
    MemberPathStep(Member(Some(r), "event"), "header", ["correlationToken"]);
    MemberPathStep(Some(h), "correlationToken", []);
  }

  /**
   * `handleChangeEvent` on settings `s`: the new settings and the response.
   * `reading` is what the temperature getter returns, `None` when no getter
   * is registered; building a report then calls through a null callback.
   * A setter directive changes the settings before the report is built.
   */
  function Handled(request: Json, deviceId: Option<string>, s: Settings, reading: Option<int>): (r: (Settings, Result<Json>))
    ensures r.0 == Applied(request, s)
    ensures r.1.Err? <==> reading.None? && DirectiveOf(request) != Unhandled
    ensures r.1.Err? ==> r.1.fault == UndefinedBehaviour
    ensures DirectiveOf(request) == Unhandled ==> r.1 == Ok(UnhandledResponse)
    ensures r.1.Ok? && DirectiveOf(request) != Unhandled ==>
      Reported(r.1.value) == Some((reading.value, r.0.target, r.0.mode)) &&
      MemberPath(Some(r.1.value), ["event", "header", "name"]) ==
        Some(JStr(if DirectiveOf(request) == ReportState then "StateReport" else "Response"))
  {
    var next := Applied(request, s);
    var d := DirectiveOf(request);
    if d == Unhandled then (next, Ok(UnhandledResponse))
    else if reading.None? then (next, Err(UndefinedBehaviour))
    else
      var name := if d == ReportState then "StateReport" else "Response";
      ReportCarriesSettings("Alexa", name, request, deviceId, reading.value, next);
      (next, Ok(ReportStateResponse("Alexa", name, request, deviceId, reading.value, next)))
  }

  /** A report after a setter directive confirms the value the directive asked for, as the device stores it. */
  lemma SetterIsConfirmed(request: Json, deviceId: Option<string>, s: Settings, reading: int)
    ensures Handled(request, deviceId, s, Some(reading)).1.Ok?
    ensures DirectiveOf(request) == SetTargetTemperature ==>
      Reported(Handled(request, deviceId, s, Some(reading)).1.value) ==
        Some((reading, VariantInt(MemberPath(Some(request), ["directive", "payload", "targetSetpoint", "value"])), s.mode))
    ensures DirectiveOf(request) == SetThermostatMode ==>
      Reported(Handled(request, deviceId, s, Some(reading)).1.value) ==
        Some((reading, s.target, VariantString(MemberPath(Some(request), ["directive", "payload", "thermostatMode", "value"]))))
  {
  }

  /** Reporting state is read-only: a second report answers with the same settings. */
  lemma ReportStateIsReadOnly(request: Json, deviceId: Option<string>, s: Settings, reading: Option<int>)
    requires DirectiveOf(request) == ReportState
    ensures Handled(request, deviceId, s, reading).0 == s
    ensures Handled(request, deviceId, Handled(request, deviceId, s, reading).0, reading) ==
      Handled(request, deviceId, s, reading)
  {
  }

  /** A setter directive repeated leaves the settings as the first one left them. */
  lemma SetterIdempotent(request: Json, s: Settings)
    ensures Applied(request, Applied(request, s)) == Applied(request, s)
  {
  }

  /** `properties` of the thermostat controller: the two supported properties, both reported and retrievable. */
  function ControllerProperties(): Json
  {
    JObj([("supported", JArr([JObj([("name", JStr("targetSetpoint"))]), JObj([("name", JStr("thermostatMode"))])])),
          ("proactivelyReported", JBool(true)), ("retrievable", JBool(true))])
  }

  function ThermostatCapability(): Json
  {
    JObj([
      ("type", JStr("AlexaInterface")), ("interface", JStr("Alexa.ThermostatController")), ("version", JStr("3")),
      ("properties", ControllerProperties()),
      ("configuration", JObj([
        ("supportsScheduling", JBool(false)),
        ("supportedModes", JArr([JStr("HEAT"), JStr("COOL"), JStr("AUTO"), JStr("OFF")]))]))])
  }

  /** `discoveryResponse`, written into the empty response object the SDK hands over. */
  function DiscoveryResponse(deviceId: Option<string>, deviceName: Option<string>,
                             manufacturerName: string, description: string): Json
  {
    JObj([
      ("endpointId", CString(deviceId)), ("friendlyName", CString(deviceName)),
      ("manufacturerName", JStr(manufacturerName)), ("description", JStr(description)),
      ("displayCategories", JArr([JStr("THERMOSTAT")])),
      ("capabilities", JArr([
        ThermostatCapability(),
        JObj([("type", JStr("AlexaInterface")), ("interface", JStr("Alexa.TemperatureSensor")),
              ("version", JStr("3"))])]))])
  }

  /** The names a capability lists under `properties.supported`. */
  function Supported(capability: Json): seq<Json>
  {
    match MemberPath(Some(capability), ["properties", "supported"])
    case Some(JArr(items)) => seq(|items|, i requires 0 <= i < |items| => Copied(Member(Some(items[i]), "name")))
    case _ => []
  }

  /** The names of the report's properties in one namespace, in order. */
  function NamesIn(properties: seq<Json>, namespace: string): seq<Json>
  {
    if properties == [] then []
    else
      (if Member(Some(properties[0]), "namespace") == Some(JStr(namespace))
       then [Copied(Member(Some(properties[0]), "name"))] else []) +
      NamesIn(properties[1..], namespace)
  }

  /**
   * Discovery and state reports agree: the device is announced under the
   * endpoint id its reports carry, and the thermostat controller supports
   * exactly the properties a report gives in that namespace.
   */
  lemma DiscoveryMatchesReports(deviceId: Option<string>, deviceName: Option<string>, manufacturerName: string,
                                description: string, namespace: string, name: string, request: Json,
                                reading: int, s: Settings)
    ensures var d := DiscoveryResponse(deviceId, deviceName, manufacturerName, description);
      var r := ReportStateResponse(namespace, name, request, deviceId, reading, s);
      Member(Some(d), "endpointId") == MemberPath(Some(r), ["event", "endpoint", "endpointId"]) &&
      MemberPath(Some(r), ["context", "properties"]).Some? &&
      MemberPath(Some(r), ["context", "properties"]).value.JArr? &&
      Supported(ThermostatCapability()) ==
        NamesIn(MemberPath(Some(r), ["context", "properties"]).value.items, "Alexa.ThermostatController")
  {
    ReportLayout(namespace, name, request, deviceId, reading, s);
    ThermostatNamesOfReport(request, reading, s);
    SupportedOfThermostat();
    MemberAt(DiscoveryResponse(deviceId, deviceName, manufacturerName, description), 0);
  }

  lemma ThermostatNamesOfReport(request: Json, reading: int, s: Settings)
    ensures NamesIn(ReportProperties(request, reading, s), "Alexa.ThermostatController") ==
      [JStr("targetSetpoint"), JStr("thermostatMode")]
  {
    var time := Copied(Member(Some(request), "requestTime"));
    var ps := ReportProperties(request, reading, s);
    var ns := "Alexa.ThermostatController";
    assert NamesIn(ps[2..], ns) == [JStr("thermostatMode")] by {
      PropertyMembers(ns, "thermostatMode", time, JStr(s.mode));
      assert ps[2..][1..] == [];
    }
    assert NamesIn(ps[1..], ns) == [JStr("targetSetpoint"), JStr("thermostatMode")] by {
      PropertyMembers(ns, "targetSetpoint", time, Celsius(s.target));
      assert ps[1..][1..] == ps[2..];
    }
    PropertyMembers("Alexa.TemperatureSensor", "temperature", time, Celsius(reading));
  }

  /** The supported list sits at `properties.supported`. */
  lemma CapabilitySupported()
    ensures MemberPath(Some(ThermostatCapability()), ["properties", "supported"]) ==
      Some(ControllerProperties().members[0].1)
  {
    var c := ThermostatCapability();
    var props := ControllerProperties();
    MemberAt(c, 3);
    MemberAt(props, 0);
    MemberPathStep(Some(c), "properties", ["supported"]);
    MemberPathStep(Some(props), "supported", []);
  }

  lemma SupportedOfThermostat()
    ensures Supported(ThermostatCapability()) == [JStr("targetSetpoint"), JStr("thermostatMode")]
  {
    var items := ControllerProperties().members[0].1.items;
    CapabilitySupported();
    var r := Supported(ThermostatCapability());
    assert |r| == 2;
    assert r[0] == JStr("targetSetpoint") by { MemberAt(items[0], 0); }
    assert r[1] == JStr("thermostatMode") by { MemberAt(items[1], 0); }
  }

  /** The thermostat a sketch owns, with the SDK connection it drives. */
  /** Every field of an `AlexaWsThermostat` object but its SDK connection, as one value. */
  datatype ThermostatState = ThermostatState(
    deviceName: Option<string>, manufacturerName: string, description: string,
    currentTemperature: int, targetTemperature: int, currentMode: string,
    hasGetCurrentTemperature: bool, hasSetTargetTemperature: bool, hasGetTargetTemperature: bool,
    hasSetMode: bool, hasGetMode: bool,
    setTargetCalls: seq<int>, setModeCalls: seq<string>)

  /** The serial lines logged for an incoming frame, in debug mode only. */
  function Incoming(debug: bool, text: string): seq<string>
  {
    if debug then ["Incoming Request", text] else []
  }

  /** The serial lines logged for an answer sent, in debug mode only. */
  function Outgoing(debug: bool, requestId: string, answer: Json): seq<string>
  {
    if debug then ["Sending Response", FrameText(requestId, answer)] else []
  }

  class AlexaWsThermostat {
    const alexa: AlexaWs
    var deviceName: Option<string>
    var manufacturerName: string
    var description: string
    var currentTemperature: int
    var targetTemperature: int
    var currentMode: string
    /** Which of the five callbacks are set. */
    var hasGetCurrentTemperature: bool
    var hasSetTargetTemperature: bool
    var hasGetTargetTemperature: bool
    var hasSetMode: bool
    var hasGetMode: bool
    /** The arguments the two setter callbacks were called with, in order. */
    var setTargetCalls: seq<int>
    var setModeCalls: seq<string>

    function Current(): Settings
      reads this
    {
      Settings(targetTemperature, currentMode)
    }

    function State(): ThermostatState
      reads this
    {
      ThermostatState(deviceName, manufacturerName, description, currentTemperature, targetTemperature, currentMode,
                      hasGetCurrentTemperature, hasSetTargetTemperature, hasGetTargetTemperature, hasSetMode, hasGetMode,
                      setTargetCalls, setModeCalls)
    }

    constructor ()
      ensures fresh(alexa)
      ensures alexa.cbEvent == Unset && alexa.cbDiscoveryEvent == Unset && alexa.deviceId == None
      ensures alexa.sent == [] && !alexa.debug
      ensures alexa.host == "alexa.iot.oz.nu" && alexa.port == 443 && alexa.useSsl && alexa.url == None && alexa.serial == []
      ensures Current() == Settings(0, "OFF") && currentTemperature == 0 && deviceName == None
      ensures manufacturerName == "AlexaWs Thermostat" && description == "AlexaWs Thermostat Controller"
      ensures !hasGetCurrentTemperature && !hasSetTargetTemperature && !hasGetTargetTemperature
      ensures !hasSetMode && !hasGetMode
      ensures setTargetCalls == [] && setModeCalls == []
    {
      alexa := new AlexaWs();
      deviceName := None;
      manufacturerName, description := "AlexaWs Thermostat", "AlexaWs Thermostat Controller";
      currentTemperature, targetTemperature, currentMode := 0, 0, "OFF";
      hasGetCurrentTemperature, hasSetTargetTemperature, hasGetTargetTemperature := false, false, false;
      hasSetMode, hasGetMode := false, false;
      setTargetCalls, setModeCalls := [], [];
    }

    /** `create`: names the device and binds both SDK callbacks to the thermostat's handlers. */
    method Create(name: string)
      modifies this, alexa
      ensures State() == old(State()).(deviceName := Some(name))
      ensures alexa.State() == old(alexa.State()).(
        cbDiscoveryEvent := Bound(ThermostatDiscovery), cbEvent := Bound(ThermostatChange),
        serial := old(alexa.serial) + (if alexa.debug then ["Setting discovery callback", "Setting event callback"] else []))
    {
      deviceName := Some(name);
      alexa.OnDiscovery(Bound(ThermostatDiscovery));
      alexa.OnEvent(Bound(ThermostatChange));
    }

    method OnGetCurrentTemperature(registered: bool)
      modifies this
      ensures State() == old(State()).(hasGetCurrentTemperature := registered)
    {
      hasGetCurrentTemperature := registered;
    }

    method OnSetTargetTemperature(registered: bool)
      modifies this
      ensures State() == old(State()).(hasSetTargetTemperature := registered)
    {
      hasSetTargetTemperature := registered;
    }

    method OnGetTargetTemperature(registered: bool)
      modifies this
      ensures State() == old(State()).(hasGetTargetTemperature := registered)
    {
      hasGetTargetTemperature := registered;
    }

    method OnSetMode(registered: bool)
      modifies this
      ensures State() == old(State()).(hasSetMode := registered)
    {
      hasSetMode := registered;
    }

    method OnGetMode(registered: bool)
      modifies this
      ensures State() == old(State()).(hasGetMode := registered)
    {
      hasGetMode := registered;
    }

    /** `handleDiscoveryEvent`: the discovery answer; the request is not looked at. */
    method HandleDiscoveryEvent(request: Json) returns (response: Json)
      ensures response == DiscoveryResponse(alexa.deviceId, deviceName, manufacturerName, description)
    {
      response := DiscoveryResponse(alexa.deviceId, deviceName, manufacturerName, description);
    }

    /** `setTargetTemperature`: stores the requested target and passes it to the setter callback, if set. */
    method SetTarget(request: Json)
      modifies this
      ensures targetTemperature == VariantInt(MemberPath(Some(request), ["directive", "payload", "targetSetpoint", "value"]))
      ensures setTargetCalls == old(setTargetCalls) + (if hasSetTargetTemperature then [targetTemperature] else [])
      ensures State() == old(State()).(targetTemperature := targetTemperature, setTargetCalls := setTargetCalls)
    {
      targetTemperature := VariantInt(MemberPath(Some(request), ["directive", "payload", "targetSetpoint", "value"]));
      if hasSetTargetTemperature {
        setTargetCalls := setTargetCalls + [targetTemperature];
      }
    }

    /** `setMode`: stores a copy of the requested mode and passes it to the setter callback, if set. */
    method SetMode(request: Json)
      modifies this
      ensures currentMode == VariantString(MemberPath(Some(request), ["directive", "payload", "thermostatMode", "value"]))
      ensures setModeCalls == old(setModeCalls) + (if hasSetMode then [currentMode] else [])
      ensures State() == old(State()).(currentMode := currentMode, setModeCalls := setModeCalls)
    {
      currentMode := VariantString(MemberPath(Some(request), ["directive", "payload", "thermostatMode", "value"]));
      if hasSetMode {
        setModeCalls := setModeCalls + [currentMode];
      }
    }

    /** The setter a directive names, if any, applied to the settings. */
    method Apply(request: Json, d: Directive)
      requires d == DirectiveOf(request)
      modifies this
      ensures Current() == Applied(request, old(Current()))
      ensures setTargetCalls == old(setTargetCalls) +
        (if d == SetTargetTemperature && hasSetTargetTemperature then [targetTemperature] else [])
      ensures setModeCalls == old(setModeCalls) +
        (if d == SetThermostatMode && hasSetMode then [currentMode] else [])
      ensures State() == old(State()).(targetTemperature := targetTemperature, currentMode := currentMode,
                                       setTargetCalls := setTargetCalls, setModeCalls := setModeCalls)
    {
      if d == SetTargetTemperature {
        SetTarget(request);
      } else if d == SetThermostatMode {
        SetMode(request);
      }
    }

    /**
     * `handleChangeEvent`: applies the directive and answers as `Handled`
     * says. `reading` is what the temperature getter returns when called.
     */
    method HandleChangeEvent(request: Json, reading: int) returns (r: Result<Json>)
      modifies this
      ensures var h := Handled(request, alexa.deviceId, old(Current()),
                               if hasGetCurrentTemperature then Some(reading) else None);
        Current() == h.0 && r == h.1
      ensures setTargetCalls == old(setTargetCalls) +
        (if DirectiveOf(request) == SetTargetTemperature && hasSetTargetTemperature then [targetTemperature] else [])
      ensures setModeCalls == old(setModeCalls) +
        (if DirectiveOf(request) == SetThermostatMode && hasSetMode then [currentMode] else [])
      ensures State() == old(State()).(targetTemperature := targetTemperature, currentMode := currentMode,
                                       setTargetCalls := setTargetCalls, setModeCalls := setModeCalls)
    {
      var d := DirectiveOf(request);
      if d == Unhandled {
        r := Ok(UnhandledResponse);
        return;
      }
      Apply(request, d);
      if !hasGetCurrentTemperature {
        r := Err(UndefinedBehaviour);
        return;
      }
      var name := if d == ReportState then "StateReport" else "Response";
      r := Ok(ReportStateResponse("Alexa", name, request, alexa.deviceId, reading, Current()));
    }

    /**
     * `parseIncomingMessage` followed by `routeMessage`, with the SDK's
     * callbacks bound as `create` binds them: logs the payload, hands a
     * parsed object with a request id to the callback its namespace selects,
     * and sends the callback's answer under that request id. `text` is the
     * frame as received and `payload` what it parses to. A null callback
     * is undefined behaviour.
     */
    method Receive(text: string, payload: Option<Json>, reading: int) returns (r: Result<()>)
      modifies this, alexa
      ensures ParseIncomingMessage(payload) == NoDispatch ==>
        r == Ok(()) && alexa.sent == old(alexa.sent) && State() == old(State())
      ensures ParseIncomingMessage(payload).ToDiscoveryCallback? && old(alexa.cbDiscoveryEvent) == Bound(ThermostatDiscovery) ==>
        var answer := DiscoveryResponse(alexa.deviceId, deviceName, manufacturerName, description);
        r == Ok(()) && alexa.sent == old(alexa.sent) + [ResponseFrame(ParseIncomingMessage(payload).requestId, answer)] &&
        alexa.serial == old(alexa.serial) + Incoming(alexa.debug, text) + Outgoing(alexa.debug, ParseIncomingMessage(payload).requestId, answer) &&
        State() == old(State())
      ensures ParseIncomingMessage(payload).ToEventCallback? && old(alexa.cbEvent) == Bound(ThermostatChange) ==>
        var h := Handled(payload.value, alexa.deviceId, old(Current()),
                         if hasGetCurrentTemperature then Some(reading) else None);
        var d := DirectiveOf(payload.value);
        Current() == h.0 &&
        (r.Ok? <==> h.1.Ok?) &&
        (h.1.Ok? ==>
           alexa.sent == old(alexa.sent) + [ResponseFrame(ParseIncomingMessage(payload).requestId, h.1.value)] &&
           alexa.serial == old(alexa.serial) + Incoming(alexa.debug, text) +
             Outgoing(alexa.debug, ParseIncomingMessage(payload).requestId, h.1.value)) &&
        setTargetCalls == old(setTargetCalls) + (if d == SetTargetTemperature && hasSetTargetTemperature then [targetTemperature] else []) &&
        setModeCalls == old(setModeCalls) + (if d == SetThermostatMode && hasSetMode then [currentMode] else [])
      ensures ParseIncomingMessage(payload).ToEventCallback? && old(alexa.cbEvent) == Unset ==> r == Err(UndefinedBehaviour)
      ensures ParseIncomingMessage(payload).ToDiscoveryCallback? && old(alexa.cbDiscoveryEvent) == Unset ==> r == Err(UndefinedBehaviour)
      ensures r.Err? ==> alexa.sent == old(alexa.sent)
      ensures State() == old(State()).(targetTemperature := targetTemperature, currentMode := currentMode,
                                       setTargetCalls := setTargetCalls, setModeCalls := setModeCalls)
      ensures alexa.State() == old(alexa.State()).(sent := alexa.sent, serial := alexa.serial)
      ensures alexa.sent == old(alexa.sent) ==>
        alexa.serial == old(alexa.serial) + Incoming(alexa.debug, text)
    {
      LogIncoming(text);
      r := Route(ParseIncomingMessage(payload), payload, reading);
    }

    /** The two lines `parseIncomingMessage` logs before it parses. */
    method LogIncoming(text: string)
      modifies alexa
      ensures alexa.State() == old(alexa.State()).(serial := old(alexa.serial) + Incoming(alexa.debug, text))
    {
      alexa.Log("Incoming Request");
      alexa.Log(text);
    }

    /** `routeMessage` once the frame is logged: the callback slot the dispatch names answers, if it is set. */
    method Route(dispatch: Dispatch, payload: Option<Json>, reading: int) returns (r: Result<()>)
      requires dispatch != NoDispatch ==> payload.Some?
      modifies this, alexa
      ensures dispatch == NoDispatch ==> r == Ok(()) && alexa.State() == old(alexa.State()) && State() == old(State())
      ensures dispatch.ToDiscoveryCallback? && old(alexa.cbDiscoveryEvent) == Unset ==> r == Err(UndefinedBehaviour)
      ensures dispatch.ToEventCallback? && old(alexa.cbEvent) == Unset ==> r == Err(UndefinedBehaviour)
      ensures dispatch != NoDispatch ==>
        var callback := if dispatch.ToDiscoveryCallback? then old(alexa.cbDiscoveryEvent) else old(alexa.cbEvent);
        callback.Bound? ==>
        (callback.handler == ThermostatDiscovery ==>
          var answer := DiscoveryResponse(alexa.deviceId, deviceName, manufacturerName, description);
          r == Ok(()) && State() == old(State()) &&
          alexa.sent == old(alexa.sent) + [ResponseFrame(dispatch.requestId, answer)] &&
          alexa.serial == old(alexa.serial) + Outgoing(alexa.debug, dispatch.requestId, answer)) &&
        (callback.handler == ThermostatChange ==>
          var h := Handled(payload.value, alexa.deviceId, old(Current()), if hasGetCurrentTemperature then Some(reading) else None);
          var d := DirectiveOf(payload.value);
          Current() == h.0 && (r.Ok? <==> h.1.Ok?) &&
          (h.1.Ok? ==>
             alexa.sent == old(alexa.sent) + [ResponseFrame(dispatch.requestId, h.1.value)] &&
             alexa.serial == old(alexa.serial) + Outgoing(alexa.debug, dispatch.requestId, h.1.value)) &&
          setTargetCalls == old(setTargetCalls) + (if d == SetTargetTemperature && hasSetTargetTemperature then [targetTemperature] else []) &&
          setModeCalls == old(setModeCalls) + (if d == SetThermostatMode && hasSetMode then [currentMode] else []))
      ensures r.Err? ==> alexa.sent == old(alexa.sent) && alexa.serial == old(alexa.serial)
      ensures State() == old(State()).(targetTemperature := targetTemperature, currentMode := currentMode,
                                       setTargetCalls := setTargetCalls, setModeCalls := setModeCalls)
      ensures alexa.State() == old(alexa.State()).(sent := alexa.sent, serial := alexa.serial)
    {
      if dispatch == NoDispatch {
        return Ok(());
      }
      var callback := if dispatch.ToDiscoveryCallback? then alexa.cbDiscoveryEvent else alexa.cbEvent;
      if callback == Unset {
        return Err(UndefinedBehaviour);
      }
      r := Answer(callback.handler, dispatch.requestId, payload.value, reading);
    }

    /** The handler a callback slot is bound to answers `request`, and the answer goes out under `requestId`. */
    method Answer(handler: Handler, requestId: string, request: Json, reading: int) returns (r: Result<()>)
      modifies this, alexa
      ensures handler == ThermostatDiscovery ==>
        var answer := DiscoveryResponse(alexa.deviceId, deviceName, manufacturerName, description);
        r == Ok(()) && State() == old(State()) &&
        alexa.sent == old(alexa.sent) + [ResponseFrame(requestId, answer)] &&
        alexa.serial == old(alexa.serial) + Outgoing(alexa.debug, requestId, answer)
      ensures handler == ThermostatChange ==>
        var h := Handled(request, alexa.deviceId, old(Current()), if hasGetCurrentTemperature then Some(reading) else None);
        var d := DirectiveOf(request);
        Current() == h.0 && (r.Ok? <==> h.1.Ok?) &&
        (h.1.Ok? ==>
           alexa.sent == old(alexa.sent) + [ResponseFrame(requestId, h.1.value)] &&
           alexa.serial == old(alexa.serial) + Outgoing(alexa.debug, requestId, h.1.value)) &&
        setTargetCalls == old(setTargetCalls) + (if d == SetTargetTemperature && hasSetTargetTemperature then [targetTemperature] else []) &&
        setModeCalls == old(setModeCalls) + (if d == SetThermostatMode && hasSetMode then [currentMode] else [])
      ensures r.Err? ==> alexa.sent == old(alexa.sent) && alexa.serial == old(alexa.serial)
      ensures State() == old(State()).(targetTemperature := targetTemperature, currentMode := currentMode,
                                       setTargetCalls := setTargetCalls, setModeCalls := setModeCalls)
      ensures alexa.State() == old(alexa.State()).(sent := alexa.sent, serial := alexa.serial)
    {
      if handler == ThermostatDiscovery {
        r := AnswerDiscovery(requestId, request);
      } else {
        r := AnswerChange(requestId, request, reading);
      }
    }

    /** The discovery handler's answer, sent under `requestId`. */
    method AnswerDiscovery(requestId: string, request: Json) returns (r: Result<()>)
      modifies alexa
      ensures var answer := DiscoveryResponse(alexa.deviceId, deviceName, manufacturerName, description);
        r == Ok(()) &&
        alexa.State() == old(alexa.State()).(sent := old(alexa.sent) + [ResponseFrame(requestId, answer)],
                                             serial := old(alexa.serial) + Outgoing(alexa.debug, requestId, answer))
    {
      var answer := HandleDiscoveryEvent(request);
      alexa.SendResponse(requestId, answer);
      r := Ok(());
    }

    /** The change handler's answer, sent under `requestId` unless it is undefined behaviour. */
    method AnswerChange(requestId: string, request: Json, reading: int) returns (r: Result<()>)
      modifies this, alexa
      ensures var h := Handled(request, alexa.deviceId, old(Current()), if hasGetCurrentTemperature then Some(reading) else None);
        var d := DirectiveOf(request);
        Current() == h.0 && (r.Ok? <==> h.1.Ok?) &&
        (h.1.Ok? ==>
           alexa.State() == old(alexa.State()).(sent := old(alexa.sent) + [ResponseFrame(requestId, h.1.value)],
                                                serial := old(alexa.serial) + Outgoing(alexa.debug, requestId, h.1.value))) &&
        setTargetCalls == old(setTargetCalls) + (if d == SetTargetTemperature && hasSetTargetTemperature then [targetTemperature] else []) &&
        setModeCalls == old(setModeCalls) + (if d == SetThermostatMode && hasSetMode then [currentMode] else [])
      ensures r.Err? ==> alexa.State() == old(alexa.State())
      ensures State() == old(State()).(targetTemperature := targetTemperature, currentMode := currentMode,
                                       setTargetCalls := setTargetCalls, setModeCalls := setModeCalls)
    {
      var response := HandleChangeEvent(request, reading);
      if response.Err? {
        return Err(response.fault);
      }
      alexa.SendResponse(requestId, response.value);
      r := Ok(());
    }
  }
}
