/**
 * The connection hub of server/wss.ts: the upgrade gate, the event emitter
 * that indexes live device sockets under hashed listener names, the handling
 * of messages from devices, and teardown on close.
 *
 * The emitter is one table from event name to the list of its listeners.
 * Device sockets, the correlation listeners that server/alexa.ts registers on
 * the same emitter, and the state those listeners close over (the discovery
 * `endpoints` arrays, the pending 5000 ms timers, the HTTP responses they
 * send) are all held here, because an `emit` runs them.
 */
module Wss {
  import opened Json
  import opened Store

  // ---------------------------------------------------------------------
  // Listener names

  /**
   * SHA-256 as a symbolic digest of its preimage. Only injectivity matters
   * to the hub, and that is all this model of it offers.
   */
  function Sha256(preimage: string): (digest: string)
    ensures |digest| == |preimage| + 8
  {
    "sha256(" + preimage + ")"
  }

  lemma Sha256Injective(a: string, b: string)
    ensures Sha256(a) == Sha256(b) ==> a == b
  {
    if Sha256(a) == Sha256(b) {
      assert |a| == |b|;
      forall i | 0 <= i < |a|
        ensures a[i] == b[i]
      {
        assert Sha256(a)[7 + i] == a[i];
        assert Sha256(b)[7 + i] == b[i];
      }
    }
  }

  /** A digest is never the event name `error`, so sending on one never throws. */
  lemma DigestIsNotError(preimage: string)
    ensures Sha256(preimage) != "error"
  {
  }

  /** `getClientListener`: the broadcast name of an account. */
  function ClientListener(clientId: string): string
  {
    Sha256("client-" + clientId)
  }

  /** `getDeviceListener`: the unicast name of one device of an account. */
  function DeviceListener(clientId: string, deviceId: string): string
  {
    Sha256("client-" + clientId + "-" + deviceId)
  }

  /** Distinct accounts have distinct broadcast names. */
  lemma ClientListenerInjective(a: string, b: string)
    ensures ClientListener(a) == ClientListener(b) ==> a == b
  {
    Sha256Injective("client-" + a, "client-" + b);
    if ClientListener(a) == ClientListener(b) {
      assert a == ("client-" + a)[7..];
      assert b == ("client-" + b)[7..];
    }
  }

  /** One connection's two names never coincide: the unicast preimage is longer. */
  lemma OwnListenersDistinct(clientId: string, deviceId: string)
    ensures ClientListener(clientId) != DeviceListener(clientId, deviceId)
  {
  }

  /**
   * The names are not disjoint in general: the broadcast name of account
   * "x-y" is the unicast name of device "y" of account "x".
   */
  lemma ListenerNamesCollide()
    ensures ClientListener("x-y") == DeviceListener("x", "y")
  {
    assert "client-" + "x-y" == "client-" + "x" + "-" + "y";
  }

  // ---------------------------------------------------------------------
  // Query string of the upgrade request

  /** The query component as `url.parse` finds it: after the first '?', up to a '#'. */
  function QueryOf(url: string): string
  {
    var path := BeforeChar(url, '#');
    AfterChar(path, '?')
  }

  /** The prefix of `s` before the first `c` (all of `s` when there is none). */
  function BeforeChar(s: string, c: char): (r: string)
    ensures c !in s ==> r == s
    ensures c !in r
  {
    if s == [] then [] else if s[0] == c then [] else [s[0]] + BeforeChar(s[1..], c)
  }

  /** The suffix of `s` after the first `c` (empty when there is none). */
  function AfterChar(s: string, c: char): (r: string)
  {
    if s == [] then [] else if s[0] == c then s[1..] else AfterChar(s[1..], c)
  }

  /** The pieces of `s` between the separators; `s` without separator is one piece. */
  function Split(s: string, sep: char): (r: seq<string>)
    ensures |r| >= 1
    ensures sep !in s ==> r == [s]
  {
    if s == [] then [""]
    else if s[0] == sep then [""] + Split(s[1..], sep)
    else
      var rest := Split(s[1..], sep);
      assert s == [s[0]] + s[1..];
      [[s[0]] + rest[0]] + rest[1..]
  }

  lemma {:induction false} SplitAfterPiece(x: string, y: string, sep: char)
    requires sep !in x
    ensures Split(x + [sep] + y, sep) == [x] + Split(y, sep)
  {
    if x != [] {
      var w := x + [sep] + y;
      assert w[0] == x[0] && w[0] != sep;
      assert w[1..] == x[1..] + [sep] + y;
      SplitAfterPiece(x[1..], y, sep);
      assert x == [x[0]] + x[1..];
    } else {
      assert (x + [sep] + y)[1..] == y;
    }
  }

  /** A piece `key=value` splits at its first '='; a piece without one has an empty value. */
  function SplitPair(piece: string): (string, string)
  {
    (BeforeChar(piece, '='), AfterChar(piece, '='))
  }

  lemma {:induction false} AfterCharPrefix(x: string, c: char, y: string)
    requires c !in x
    ensures AfterChar(x + [c] + y, c) == y
    ensures BeforeChar(x + [c] + y, c) == x
  {
    if x != [] {
      assert (x + [c] + y)[1..] == x[1..] + [c] + y;
      AfterCharPrefix(x[1..], c, y);
    } else {
      assert (x + [c] + y)[1..] == y;
    }
  }

  type Query = map<string, seq<string>>

  /** `querystring.parse`: every value of a repeated key, in order; empty pieces are skipped. */
  function ParseQuery(q: string): Query
  {
    AddPieces(map[], Split(q, '&'))
  }

  function AddPieces(m: Query, pieces: seq<string>): Query
    decreases |pieces|
  {
    if pieces == [] then m else AddPieces(AddPiece(m, pieces[0]), pieces[1..])
  }

  function AddPiece(m: Query, piece: string): Query
  {
    if piece == [] then m
    else
      var (k, v) := SplitPair(piece);
      m[k := (if k in m then m[k] else []) + [v]]
  }

  /** `qs.key`: absent is `undefined`, one value a string, several values an array. */
  function Param(qs: Query, key: string): (r: Access)
    ensures key !in qs ==> r == Undefined
    ensures key in qs && |qs[key]| == 1 ==> r == Val(JStr(qs[key][0]))
  {
    if key !in qs then Undefined
    else if |qs[key]| == 1 then Val(JStr(qs[key][0]))
    else Val(JArr(seq(|qs[key]|, i requires 0 <= i < |qs[key]| => JStr(qs[key][i]))))
  }

  function QueryParam(url: string, key: string): Access
  {
    Param(ParseQuery(QueryOf(url)), key)
  }

  /** The three parameters a device must present. */
  predicate HasCredentials(url: string)
  {
    Truthy(QueryParam(url, "client_id")) && Truthy(QueryParam(url, "client_token")) &&
    Truthy(QueryParam(url, "device_id"))
  }

  /**
   * The outcome of `verifyClient`. On acceptance the resolved client and the
   * device id travel with the upgrade request (`req.$client`,
   * `req.$deviceId`). `Stalled` is the case where `getClientAndVerify` throws:
   * the async verifier rejects and the callback is never called, so the
   * upgrade neither completes nor is refused.
   */
  datatype GateDecision = Accepted(client: Client, deviceId: string) | Rejected | Stalled

  function VerifyClient(url: string, t: Table): (r: GateDecision)
    ensures !HasCredentials(url) ==> r == Rejected
    ensures r.Accepted? <==>
      HasCredentials(url) &&
      QueryParam(url, "client_id").v.JStr? && QueryParam(url, "client_token").v.JStr? &&
      GetClientAndVerify(t, QueryParam(url, "client_id").v.s, QueryParam(url, "client_token").v.s).Ok? &&
      GetClientAndVerify(t, QueryParam(url, "client_id").v.s, QueryParam(url, "client_token").v.s).value.Some?
    ensures r.Accepted? ==>
      var id := QueryParam(url, "client_id").v.s;
      id in t && r.client == t[id] &&
      Val(JStr(r.client.accessToken)) == QueryParam(url, "client_token") &&
      r.deviceId == ToJsString(QueryParam(url, "device_id"))
    ensures r.Stalled? <==>
      HasCredentials(url) &&
      (!QueryParam(url, "client_id").v.JStr? || QueryParam(url, "client_id").v.s !in t)
  {
    var id := QueryParam(url, "client_id");
    var token := QueryParam(url, "client_token");
    var device := QueryParam(url, "device_id");
    if !Truthy(id) || !Truthy(token) || !Truthy(device) then Rejected
    // a repeated client_id is a list, which the store refuses as a key
    else if !id.v.JStr? then Stalled
    // a repeated client_token is a list, never strictly equal to the stored string
    else if !token.v.JStr? then (if id.v.s in t then Rejected else Stalled)
    else match GetClientAndVerify(t, id.v.s, token.v.s)
      case Err(_) => Stalled
      case Ok(None) => Rejected
      case Ok(Some(client)) => Accepted(client, ToJsString(device))
  }

  // ---------------------------------------------------------------------
  // The event emitter

  type ConnId = nat

  /**
   * The listeners registered on the hub's emitter: the two per-connection
   * send handlers of `handleConnection`, the discovery collector (an `on`
   * listener) and the default handler's one-shot (`once`) listener.
   */
  datatype Listener =
    | ClientRelay(conn: ConnId)
    | DeviceRelay(conn: ConnId)
    | Collect(requestId: string)
    | Once(requestId: string)

  type ListenerTable = map<string, seq<Listener>>

  /** The emitter never keeps a name with no listeners. */
  ghost predicate NoEmpty(t: ListenerTable)
  {
    forall n :: n in t ==> t[n] != []
  }

  function Listeners(t: ListenerTable, name: string): seq<Listener>
  {
    if name in t then t[name] else []
  }

  /** `on(name, l)`: appends. */
  function AddListener(t: ListenerTable, name: string, l: Listener): (r: ListenerTable)
    ensures Listeners(r, name) == Listeners(t, name) + [l]
    ensures forall n :: n != name ==> Listeners(r, n) == Listeners(t, n)
  {
    t[name := Listeners(t, name) + [l]]
  }

  /** The list without the last occurrence of `l`. */
  function RemoveLast(q: seq<Listener>, l: Listener): (r: seq<Listener>)
    ensures |r| == if l in q then |q| - 1 else |q|
  {
    if q == [] then []
    else if q[|q| - 1] == l then q[..|q| - 1]
    else
      assert q == q[..|q| - 1] + [q[|q| - 1]];
      RemoveLast(q[..|q| - 1], l) + [q[|q| - 1]]
  }

  /** Exactly one occurrence of the listener goes. */
  lemma {:induction false} RemoveLastCount(q: seq<Listener>, l: Listener)
    ensures multiset(RemoveLast(q, l)) == multiset(q) - multiset{l}
  {
    if q != [] {
      var init, last := q[..|q| - 1], q[|q| - 1];
      assert q == init + [last];
      assert multiset(q) == multiset(init) + multiset{last};
      if last != l {
        RemoveLastCount(init, l);
      }
    }
  }

  /**
   * `removeListener(name, l)`: removes the most recently added occurrence of
   * `l` and drops the name once it has no listener left; a listener that is
   * not registered is a no-op.
   */
  function RemoveListener(t: ListenerTable, name: string, l: Listener): (r: ListenerTable)
    ensures l in Listeners(t, name) ==> |Listeners(r, name)| == |Listeners(t, name)| - 1
    ensures l !in Listeners(t, name) ==> r == t
    ensures forall n :: n != name ==> Listeners(r, n) == Listeners(t, n)
    ensures NoEmpty(t) ==> NoEmpty(r)
  {
    if name !in t || l !in t[name] then t
    else
      var q := RemoveLast(t[name], l);
      if q == [] then t - {name} else t[name := q]
  }

  /** Removal never adds a listener under the name. */
  lemma RemoveListenerSubset(t: ListenerTable, name: string, l: Listener, x: Listener)
    ensures x in Listeners(RemoveListener(t, name, l), name) ==> x in Listeners(t, name)
  {
    if name in t && l in t[name] {
      RemoveLastCount(t[name], l);
      var q := RemoveLast(t[name], l);
      if x in q {
        assert multiset(q)[x] > 0;
      }
    }
  }

  /** `removeAllListeners(name)`. */
  function RemoveAllListeners(t: ListenerTable, name: string): (r: ListenerTable)
    ensures Listeners(r, name) == []
    ensures forall n :: n != name ==> Listeners(r, n) == Listeners(t, n)
    ensures NoEmpty(t) ==> NoEmpty(r)
  {
    t - {name}
  }

  lemma RemoveLastAppended(q: seq<Listener>, l: Listener)
    ensures RemoveLast(q + [l], l) == q
  {
    assert (q + [l])[..|q + [l]| - 1] == q;
  }

  lemma RemoveLastPastOther(q: seq<Listener>, l: Listener, other: Listener)
    requires other != l
    ensures RemoveLast(q + [l] + [other], l) == q + [other]
  {
    var w := q + [l] + [other];
    assert w[..|w| - 1] == q + [l];
    RemoveLastAppended(q, l);
  }

  /** Removing the listener just added undoes the addition. */
  lemma RemoveAfterAdd(t: ListenerTable, n: string, l: Listener)
    requires NoEmpty(t)
    ensures RemoveListener(AddListener(t, n, l), n, l) == t
  {
    var q := Listeners(t, n);
    var t1 := t[n := q + [l]];
    assert AddListener(t, n, l) == t1;
    assert l in t1[n];
    RemoveLastAppended(q, l);
    if q == [] {
      assert n !in t;
      assert t1 - {n} == t;
    } else {
      assert t1[n := q] == t;
    }
  }

  /** One addition slips past another under the same name and a different listener. */
  lemma RemovePastLater(t: ListenerTable, n: string, l1: Listener, l2: Listener)
    requires l1 != l2
    ensures RemoveListener(AddListener(AddListener(t, n, l1), n, l2), n, l1) == AddListener(t, n, l2)
  {
    var q := Listeners(t, n);
    var t2 := AddListener(AddListener(t, n, l1), n, l2);
    assert t2 == t[n := q + [l1] + [l2]];
    assert l1 in t2[n];
    RemoveLastPastOther(q, l1, l2);
  }

  /**
   * Registering two distinct listeners and then removing them leaves the
   * table exactly as it was, whether or not the two names coincide.
   */
  lemma RegisterThenRemove(t: ListenerTable, n1: string, l1: Listener, n2: string, l2: Listener)
    requires NoEmpty(t) && l1 != l2
    ensures RemoveListener(RemoveListener(AddListener(AddListener(t, n1, l1), n2, l2), n1, l1), n2, l2) == t
  {
    if n1 == n2 {
      RemovePastLater(t, n1, l1, l2);
      RemoveAfterAdd(t, n2, l2);
    } else {
      var t2 := AddListener(t, n2, l2);
      assert AddListener(AddListener(t, n1, l1), n2, l2) == AddListener(t2, n1, l1);
      RemoveAfterAdd(t2, n1, l1);
      RemoveAfterAdd(t, n2, l2);
    }
  }

  // ---------------------------------------------------------------------
  // Hub state

  /**
   * A device socket: the client and device id the gate attached, the
   * socket's `readyState` (1 is OPEN), and whether the 10 s ping interval is
   * still running.
   */
  datatype Socket = Socket(client: Client, deviceId: string, readyState: int, pinging: bool)

  /** A text frame written to a socket (`JSON.stringify(data)`; `None` is `undefined`). */
  datatype Frame = Frame(conn: ConnId, data: Option<Json>)

  /** A call of `handleDeviceEvent` made by a socket's message handler. */
  datatype Relay = Relay(clientId: string, accessToken: string, deviceId: string, request: Json)

  /** The closure state of one discovery request: the response id and the collected endpoints. */
  datatype Discovery = Discovery(messageId: string, endpoints: seq<Json>, open: bool)

  /** An HTTP response sent for a correlated request (`res.json` is status 200). */
  datatype Reply = Reply(requestId: string, status: int, body: Option<Json>)

  datatype HubState = HubState(
    listeners: ListenerTable,
    sockets: map<ConnId, Socket>,
    outbox: seq<Frame>,
    relays: seq<Relay>,
    discoveries: map<string, Discovery>,
    timeouts: set<string>,
    replies: seq<Reply>)

  predicate TruthyValue(arg: Option<Json>)
  {
    arg.Some? && Truthy(Val(arg.value))
  }

  /** A send handler: writes the frame only while the socket is OPEN. */
  function Relayed(s: HubState, conn: ConnId, arg: Option<Json>): HubState
  {
    if conn in s.sockets && s.sockets[conn].readyState == 1
    then s.(outbox := s.outbox + [Frame(conn, arg)])
    else s
  }

  /** What one listener does when `name` is emitted with `arg`. */
  function Invoked(s: HubState, name: string, l: Listener, arg: Option<Json>): HubState
  {
    match l
    case ClientRelay(c) => Relayed(s, c, arg)
    case DeviceRelay(c) => Relayed(s, c, arg)
    case Collect(r) =>
      // `if (response) endpoints.push(response)`
      if TruthyValue(arg) && r in s.discoveries
      then s.(discoveries := s.discoveries[r := s.discoveries[r].(endpoints := s.discoveries[r].endpoints + [arg.value])])
      else s
    case Once(r) =>
      // the once wrapper removes itself, then the handler clears its timer and answers
      s.(listeners := RemoveListener(s.listeners, name, l),
         timeouts := s.timeouts - {r},
         replies := s.replies + [Reply(r, 200, arg)])
  }

  /** Running a snapshot of listeners in order. */
  function Fire(s: HubState, name: string, ls: seq<Listener>, arg: Option<Json>): HubState
    decreases |ls|
  {
    if ls == [] then s else Invoked(Fire(s, name, ls[..|ls| - 1], arg), name, ls[|ls| - 1], arg)
  }

  /**
   * `emit(name, arg)`: runs the listeners registered at the time of the call.
   * An `error` event with no listener throws, reported by the second
   * component.
   */
  function Emitted(s: HubState, name: string, arg: Option<Json>, errorType: bool): (HubState, bool)
  {
    var snapshot := Listeners(s.listeners, name);
    if errorType && snapshot == [] then (s, true) else (Fire(s, name, snapshot, arg), false)
  }

  /** Emitting a name nobody listens to changes nothing. */
  lemma EmitUnregistered(s: HubState, name: string, arg: Option<Json>)
    requires name !in s.listeners
    ensures Emitted(s, name, arg, false) == (s, false)
  {
  }

  predicate IsRelay(l: Listener)
  {
    l.ClientRelay? || l.DeviceRelay?
  }

  /** The frames a list of send handlers writes: one per handler whose socket is OPEN. */
  function Frames(ls: seq<Listener>, sockets: map<ConnId, Socket>, arg: Option<Json>): seq<Frame>
    requires forall i :: 0 <= i < |ls| ==> IsRelay(ls[i])
  {
    if ls == [] then []
    else
      assert IsRelay(ls[|ls| - 1]);
      var c := ls[|ls| - 1].conn;
      Frames(ls[..|ls| - 1], sockets, arg) +
      (if c in sockets && sockets[c].readyState == 1 then [Frame(c, arg)] else [])
  }

  /** Send handlers only write frames: nothing but the outbox changes. */
  lemma {:induction false} FireRelays(s: HubState, name: string, ls: seq<Listener>, arg: Option<Json>)
    requires forall i :: 0 <= i < |ls| ==> IsRelay(ls[i])
    ensures Fire(s, name, ls, arg) == s.(outbox := s.outbox + Frames(ls, s.sockets, arg))
  {
    if ls != [] {
      FireRelays(s, name, ls[..|ls| - 1], arg);
    }
  }

  /**
   * A send reaches exactly the handlers registered under the name, in
   * registration order, writing to each socket that is OPEN.
   */
  lemma SendReachesListeners(s: HubState, name: string, msg: Json)
    requires forall i :: 0 <= i < |Listeners(s.listeners, name)| ==> IsRelay(Listeners(s.listeners, name)[i])
    ensures Emitted(s, name, Some(msg), false).0 ==
      s.(outbox := s.outbox + Frames(Listeners(s.listeners, name), s.sockets, Some(msg)))
  {
    FireRelays(s, name, Listeners(s.listeners, name), Some(msg));
  }

  /** `sendToClient`: emits the message under the account's broadcast name. */
  function SentToClient(s: HubState, clientId: string, msg: Json): HubState
  {
    Emitted(s, ClientListener(clientId), Some(msg), ClientListener(clientId) == "error").0
  }

  /** `sendToDevice`: emits the message under the device's unicast name. */
  function SentToDevice(s: HubState, clientId: string, deviceId: string, msg: Json): HubState
  {
    Emitted(s, DeviceListener(clientId, deviceId), Some(msg), DeviceListener(clientId, deviceId) == "error").0
  }

  // ---------------------------------------------------------------------
  // Connections

  /**
   * `handleConnection`: the socket is OPEN, its ping interval runs, and one
   * send handler is registered under each of its two names.
   */
  function Connected(s: HubState, conn: ConnId, client: Client, deviceId: string): HubState
  {
    s.(sockets := s.sockets[conn := Socket(client, deviceId, 1, true)],
       listeners := AddListener(AddListener(s.listeners, ClientListener(client.clientId), ClientRelay(conn)),
                                DeviceListener(client.clientId, deviceId), DeviceRelay(conn)))
  }

  /**
   * The socket's `close` handler: the ping interval is cleared and the two
   * send handlers are removed. The socket itself is CLOSED (3) by then.
   */
  function Closed(s: HubState, conn: ConnId): HubState
    requires conn in s.sockets
  {
    var sock := s.sockets[conn];
    s.(sockets := s.sockets[conn := sock.(readyState := 3, pinging := false)],
       listeners := RemoveListener(RemoveListener(s.listeners, ClientListener(sock.client.clientId), ClientRelay(conn)),
                                   DeviceListener(sock.client.clientId, sock.deviceId), DeviceRelay(conn)))
  }

  /** Opening and then closing a connection leaves the listener table as it was. */
  lemma ConnectThenClose(s: HubState, conn: ConnId, client: Client, deviceId: string)
    requires NoEmpty(s.listeners)
    ensures Closed(Connected(s, conn, client, deviceId), conn).listeners == s.listeners
    ensures !Closed(Connected(s, conn, client, deviceId), conn).sockets[conn].pinging
    ensures Closed(Connected(s, conn, client, deviceId), conn).outbox == s.outbox
  {
    RegisterThenRemove(s.listeners, ClientListener(client.clientId), ClientRelay(conn),
                       DeviceListener(client.clientId, deviceId), DeviceRelay(conn));
  }

  /**
   * One tick of the ping interval as written: the test `ws.readyState = 1`
   * is an assignment, so every tick marks the socket OPEN and pings it,
   * whatever state the socket library had put it in. The second component
   * says whether a ping was sent.
   */
  function PingTickAsWritten(s: HubState, conn: ConnId): (r: (HubState, bool))
    ensures r.1 <==> conn in s.sockets && s.sockets[conn].pinging
    ensures r.1 ==> conn in r.0.sockets && r.0.sockets[conn].readyState == 1
  {
    if conn in s.sockets && s.sockets[conn].pinging
    then (s.(sockets := s.sockets[conn := s.sockets[conn].(readyState := 1)]), true)
    else (s, false)
  }

  /**
   * A socket that is no longer OPEN (CLOSING, before its `close` event)
   * receives no frames, but one tick of the interval as written reopens its
   * send handlers.
   */
  lemma PingReopensSocket(s: HubState, conn: ConnId, arg: Option<Json>)
    requires conn in s.sockets && s.sockets[conn].pinging && s.sockets[conn].readyState != 1
    ensures Relayed(s, conn, arg) == s
    ensures Relayed(PingTickAsWritten(s, conn).0, conn, arg).outbox == s.outbox + [Frame(conn, arg)]
  {
  }

  /** The tick as intended (`ws.readyState === 1`): a ping for an OPEN socket, and no change of state. */
  function PingTick(s: HubState, conn: ConnId): (r: (HubState, bool))
    ensures r.0 == s
    ensures r.1 <==> conn in s.sockets && s.sockets[conn].pinging && s.sockets[conn].readyState == 1
  {
    (s, conn in s.sockets && s.sockets[conn].pinging && s.sockets[conn].readyState == 1)
  }

  /** How the message handler reads a device message. */
  datatype Inbound =
    | NotJson                                                  // `JSON.parse` threw: dropped
    | Response(name: string, errorType: bool, response: Option<Json>)  // has a truthy `requestId`
    | DeviceEvent(request: Json)                               // `request.context` and `request.event`
    | Ignored                                                  // any other shape
    | Crash                                                    // `data` is `null`: reading `requestId` throws

  function Classify(payload: Option<Json>): (r: Inbound)
    ensures payload.None? <==> r == NotJson
    ensures r.Crash? <==> payload == Some(JNull)
    ensures r.Response? <==>
      payload.Some? && payload.value != JNull && Truthy(Prop(Val(payload.value), "requestId"))
    ensures r.Response? ==>
      var id := Prop(Val(payload.value), "requestId");
      r.name == ToJsString(id) && r.errorType == (id == Val(JStr("error"))) &&
      r.response == ValueOf(Prop(Val(payload.value), "response"))
    ensures r.DeviceEvent? ==>
      var req := Prop(Val(payload.value), "request");
      !Truthy(Prop(Val(payload.value), "requestId")) && req == Val(r.request) &&
      Truthy(req) && Truthy(Prop(req, "context")) && Truthy(Prop(req, "event"))
    ensures r.Ignored? ==>
      var req := Prop(Val(payload.value), "request");
      !(Truthy(req) && Truthy(Prop(req, "context")) && Truthy(Prop(req, "event")))
  {
    match payload
    case None => NotJson
    case Some(data) =>
      var id := Prop(Val(data), "requestId");
      if id.Thrown? then Crash
      else if Truthy(id) then Response(ToJsString(id), id == Val(JStr("error")), ValueOf(Prop(Val(data), "response")))
      else
        var req := Prop(Val(data), "request");
        if Truthy(req) && Truthy(Prop(req, "context")) && Truthy(Prop(req, "event"))
        then DeviceEvent(req.v)
        else Ignored
  }

  /**
   * The socket's `message` handler; the second component says that it threw
   * (a `null` message, or an `error` reply with no `error` listener).
   */
  function Received(s: HubState, conn: ConnId, payload: Option<Json>): (HubState, bool)
    requires conn in s.sockets
  {
    var sock := s.sockets[conn];
    match Classify(payload)
    case Response(name, errorType, response) => Emitted(s, name, response, errorType)
    case DeviceEvent(request) =>
      (s.(relays := s.relays + [Relay(sock.client.clientId, sock.client.accessToken, sock.deviceId, request)]), false)
    case Crash => (s, true)
    case NotJson => (s, false)
    case Ignored => (s, false)
  }

  /** A correlation reply is emitted and never relayed; anything else emits nothing. */
  lemma ReceivedRouting(s: HubState, conn: ConnId, payload: Option<Json>)
    requires conn in s.sockets
    ensures Classify(payload).Response? ==> Received(s, conn, payload).0.relays == s.relays
    ensures !Classify(payload).Response? ==>
      var s' := Received(s, conn, payload).0;
      s'.listeners == s.listeners && s'.outbox == s.outbox && s'.replies == s.replies &&
      s'.discoveries == s.discoveries && s'.timeouts == s.timeouts
    ensures Classify(payload).DeviceEvent? ==>
      var sock := s.sockets[conn];
      Received(s, conn, payload).0.relays ==
        s.relays + [Relay(sock.client.clientId, sock.client.accessToken, sock.deviceId, Classify(payload).request)]
    ensures Classify(payload).NotJson? || Classify(payload).Ignored? ==> Received(s, conn, payload) == (s, false)
  {
    if Classify(payload).Response? {
      var Response(name, e, resp) := Classify(payload);
      var snapshot := Listeners(s.listeners, name);
      if !(e && snapshot == []) {
        FireKeepsRelays(s, name, snapshot, resp);
      }
    }
  }

  lemma {:induction false} FireKeepsRelays(s: HubState, name: string, ls: seq<Listener>, arg: Option<Json>)
    ensures Fire(s, name, ls, arg).relays == s.relays
    ensures Fire(s, name, ls, arg).sockets == s.sockets
  {
    if ls != [] {
      FireKeepsRelays(s, name, ls[..|ls| - 1], arg);
    }
  }

  // ---------------------------------------------------------------------
  // The hub object

  class Hub {
    var listeners: ListenerTable
    var sockets: map<ConnId, Socket>
    var outbox: seq<Frame>
    var relays: seq<Relay>
    var discoveries: map<string, Discovery>
    var timeouts: set<string>
    var replies: seq<Reply>

    function State(): HubState
      reads this
    {
      HubState(listeners, sockets, outbox, relays, discoveries, timeouts, replies)
    }

    constructor ()
      ensures State() == HubState(map[], map[], [], [], map[], {}, [])
    {
      listeners, sockets, outbox, relays := map[], map[], [], [];
      discoveries, timeouts, replies := map[], {}, [];
    }

    method On(name: string, l: Listener)
      modifies this
      ensures State() == old(State()).(listeners := AddListener(old(listeners), name, l))
    {
      listeners := AddListener(listeners, name, l);
    }

    method RemoveAll(name: string)
      modifies this
      ensures State() == old(State()).(listeners := RemoveAllListeners(old(listeners), name))
    {
      listeners := RemoveAllListeners(listeners, name);
    }

    method Invoke(name: string, l: Listener, arg: Option<Json>)
      modifies this
      ensures State() == Invoked(old(State()), name, l, arg)
    {
      match l
      case ClientRelay(c) =>
        if c in sockets && sockets[c].readyState == 1 { outbox := outbox + [Frame(c, arg)]; }
      case DeviceRelay(c) =>
        if c in sockets && sockets[c].readyState == 1 { outbox := outbox + [Frame(c, arg)]; }
      case Collect(r) =>
        if TruthyValue(arg) && r in discoveries {
          discoveries := discoveries[r := discoveries[r].(endpoints := discoveries[r].endpoints + [arg.value])];
        }
      case Once(r) =>
        listeners := RemoveListener(listeners, name, l);
        timeouts := timeouts - {r};
        replies := replies + [Reply(r, 200, arg)];
    }

    method Emit(name: string, arg: Option<Json>, errorType: bool) returns (thrown: bool)
      modifies this
      ensures (State(), thrown) == Emitted(old(State()), name, arg, errorType)
    {
      var snapshot := Listeners(listeners, name);
      if errorType && snapshot == [] {
        return true;
      }
      var i := 0;
      while i < |snapshot|
        invariant 0 <= i <= |snapshot|
        invariant State() == Fire(old(State()), name, snapshot[..i], arg)
      {
        Invoke(name, snapshot[i], arg);
        assert snapshot[..i + 1][..i] == snapshot[..i];
        i := i + 1;
      }
      assert snapshot[..|snapshot|] == snapshot;
      thrown := false;
    }

    method HandleConnection(conn: ConnId, client: Client, deviceId: string)
      requires conn !in sockets
      modifies this
      ensures State() == Connected(old(State()), conn, client, deviceId)
    {
      sockets := sockets[conn := Socket(client, deviceId, 1, true)];
      On(ClientListener(client.clientId), ClientRelay(conn));
      On(DeviceListener(client.clientId, deviceId), DeviceRelay(conn));
    }

    method OnMessage(conn: ConnId, payload: Option<Json>) returns (thrown: bool)
      requires conn in sockets
      modifies this
      ensures (State(), thrown) == Received(old(State()), conn, payload)
    {
      var sock := sockets[conn];
      match Classify(payload)
      case Response(name, errorType, response) =>
        thrown := Emit(name, response, errorType);
      case DeviceEvent(request) =>
        relays := relays + [Relay(sock.client.clientId, sock.client.accessToken, sock.deviceId, request)];
        thrown := false;
      case Crash =>
        thrown := true;
      case NotJson =>
        thrown := false;
      case Ignored =>
        thrown := false;
    }

    method OnClose(conn: ConnId)
      requires conn in sockets
      modifies this
      ensures State() == Closed(old(State()), conn)
    {
      var sock := sockets[conn];
      sockets := sockets[conn := sock.(readyState := 3, pinging := false)];
      listeners := RemoveListener(listeners, ClientListener(sock.client.clientId), ClientRelay(conn));
      listeners := RemoveListener(listeners, DeviceListener(sock.client.clientId, sock.deviceId), DeviceRelay(conn));
    }

    /** The socket library moves a socket between CONNECTING, OPEN, CLOSING and CLOSED. */
    method SetReadyState(conn: ConnId, readyState: int)
      requires conn in sockets
      modifies this
      ensures State() == old(State()).(sockets := old(sockets)[conn := old(sockets)[conn].(readyState := readyState)])
    {
      sockets := sockets[conn := sockets[conn].(readyState := readyState)];
    }

    /** One tick of a connection's ping interval, with the test as intended. */
    method Ping(conn: ConnId) returns (pinged: bool)
      ensures (State(), pinged) == PingTick(State(), conn)
    {
      pinged := conn in sockets && sockets[conn].pinging && sockets[conn].readyState == 1;
    }

    method SendToClient(clientId: string, message: Json)
      modifies this
      ensures State() == SentToClient(old(State()), clientId, message)
    {
      var _ := Emit(ClientListener(clientId), Some(message), ClientListener(clientId) == "error");
    }

    method SendToDevice(clientId: string, deviceId: string, message: Json)
      modifies this
      ensures State() == SentToDevice(old(State()), clientId, deviceId, message)
    {
      var _ := Emit(DeviceListener(clientId, deviceId), Some(message), DeviceListener(clientId, deviceId) == "error");
    }
  }
}
