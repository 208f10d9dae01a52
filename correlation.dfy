/**
 * Request/response correlation across the hub. A discovery or default
 * directive waits on the hub's emitter under a fresh request id; what
 * happens next is a run of events: device messages, the timers, devices
 * connecting and disconnecting, ping ticks, socket state changes and other
 * directives arriving. These lemmas follow one request id through any such
 * run. A message whose handler throws ends the process, and with it the run.
 */
module Correlation {
  import opened Json
  import opened Store
  import opened Wss
  import opened Alexa

  /** What can happen to the hub while a directive waits. */
  datatype Event =
    | Deliver(conn: ConnId, payload: Option<Json>)   // a message on a socket
    | Expire(requestId: string)                        // the 5000 ms default timer
    | WindowEnd(requestId: string)                     // the 2000 ms discovery timer
    | Connect(conn: ConnId, client: Client, deviceId: string)
    | Close(conn: ConnId)
    | Tick(conn: ConnId)                               // the 10000 ms ping interval, as written
    | Transition(conn: ConnId, readyState: int)        // the socket library moves a socket to another state
    | Discover(body: Json, user: Access, requestId: string, time: string)   // a discovery directive arrives
    | Direct(body: Json, user: Access, requestId: string, time: string)     // a default directive arrives

  function Step(s: HubState, e: Event): HubState
  {
    match e
    case Deliver(c, p) => if c in s.sockets then Received(s, c, p).0 else s
    case Expire(r) => DefaultExpired(s, r)
    case WindowEnd(r) => DiscoveryClosed(s, r)
    case Connect(c, client, d) => if c in s.sockets then s else Connected(s, c, client, d)
    case Close(c) => if c in s.sockets then Closed(s, c) else s
    case Tick(c) => PingTickAsWritten(s, c).0
    case Transition(c, n) => if c in s.sockets then s.(sockets := s.sockets[c := s.sockets[c].(readyState := n)]) else s
    case Discover(body, user, r, time) => DiscoveryStarted(s, body, user, r, time)
    case Direct(body, user, r, time) => DefaultStarted(s, body, user, r, time)
  }

  /**
   * The socket's message handler throws: nothing in the server catches it,
   * so the process ends there.
   */
  predicate Crashes(s: HubState, e: Event)
  {
    e.Deliver? && e.conn in s.sockets && Received(s, e.conn, e.payload).1
  }

  /** The hub after a run of events; the run ends at the first crash. */
  function Run(s: HubState, trace: seq<Event>): HubState
    decreases |trace|
  {
    if trace == [] || Crashes(s, trace[0]) then s else Run(Step(s, trace[0]), trace[1..])
  }

  /** `e` happens in the run before any crash. */
  predicate Reaches(s: HubState, trace: seq<Event>, e: Event)
    decreases |trace|
  {
    trace != [] && !Crashes(s, trace[0]) && (trace[0] == e || Reaches(Step(s, trace[0]), trace[1..], e))
  }

  /**
   * A directive arrives under `rid` again. Request ids are fresh uuids, so
   * the lemmas below consider runs without this.
   */
  predicate Restarts(e: Event, rid: string)
  {
    (e.Discover? || e.Direct?) && e.requestId == rid
  }

  predicate Unique(trace: seq<Event>, rid: string)
  {
    forall i :: 0 <= i < |trace| ==> !Restarts(trace[i], rid)
  }

  lemma UniqueRest(trace: seq<Event>, rid: string)
    requires trace != [] && Unique(trace, rid)
    ensures !Restarts(trace[0], rid) && Unique(trace[1..], rid)
  {
    assert forall i :: 0 <= i < |trace[1..]| ==> trace[1..][i] == trace[i + 1];
  }

  /** The replies sent for one request id, in order. */
  function RepliesFor(rs: seq<Reply>, rid: string): seq<Reply>
    decreases |rs|
  {
    if rs == [] then []
    else
      var last := rs[|rs| - 1];
      RepliesFor(rs[..|rs| - 1], rid) + (if last.requestId == rid then [last] else [])
  }

  lemma RepliesForAppend(rs: seq<Reply>, x: Reply, rid: string)
    ensures RepliesFor(rs + [x], rid) == RepliesFor(rs, rid) + (if x.requestId == rid then [x] else [])
  {
    assert (rs + [x])[..|rs|] == rs;
  }

  /** Listener names derived from credentials are digests. */
  predicate IsDigest(name: string)
  {
    |name| >= 7 && name[..7] == "sha256("
  }

  lemma ListenerNamesAreDigests(clientId: string, deviceId: string)
    ensures IsDigest(ClientListener(clientId)) && IsDigest(DeviceListener(clientId, deviceId))
  {
    assert ClientListener(clientId)[..7] == "sha256(";
    assert DeviceListener(clientId, deviceId)[..7] == "sha256(";
  }

  /**
   * The request id is not a digest, and its two listeners are registered
   * nowhere but under the request id itself.
   */
  ghost predicate Confined(s: HubState, rid: string)
  {
    !IsDigest(rid) &&
    forall n :: n != rid ==> Once(rid) !in Listeners(s.listeners, n) && Collect(rid) !in Listeners(s.listeners, n)
  }

  /** Nothing is left that could still answer the request. */
  ghost predicate Quiet(s: HubState, rid: string)
  {
    Once(rid) !in Listeners(s.listeners, rid) && Collect(rid) !in Listeners(s.listeners, rid) &&
    rid !in s.timeouts && (rid in s.discoveries ==> !s.discoveries[rid].open)
  }

  /** The event is aimed at the request id. */
  predicate Touches(s: HubState, e: Event, rid: string)
  {
    match e
    case Deliver(c, p) => c in s.sockets && Classify(p).Response? && Classify(p).name == rid
    case Expire(r) => r == rid
    case WindowEnd(r) => r == rid
    case Connect(_, _, _) => false
    case Close(_) => false
    case Tick(_) => false
    case Transition(_, _) => false
    case Discover(_, _, r, _) => r == rid
    case Direct(_, _, r, _) => r == rid
  }

  /**
   * `f` leaves alone everything that belongs to the request: its replies,
   * timer, discovery and the sockets; listeners change only under `n`, and
   * there only by removal.
   */
  ghost predicate Untouched(s: HubState, f: HubState, n: string, rid: string)
  {
    RepliesFor(f.replies, rid) == RepliesFor(s.replies, rid) &&
    (rid in f.timeouts <==> rid in s.timeouts) &&
    (rid in f.discoveries <==> rid in s.discoveries) &&
    (rid in s.discoveries ==> f.discoveries[rid] == s.discoveries[rid]) &&
    f.sockets == s.sockets &&
    (forall m :: m != n ==> Listeners(f.listeners, m) == Listeners(s.listeners, m)) &&
    (forall x :: x in Listeners(f.listeners, n) ==> x in Listeners(s.listeners, n))
  }

  /** Another request's `once` listener answers that request only. */
  lemma OnceFrame(s: HubState, n: string, r: string, arg: Option<Json>, rid: string)
    requires r != rid
    ensures Untouched(s, Invoked(s, n, Once(r), arg), n, rid)
  {
    var f := Invoked(s, n, Once(r), arg);
    assert f.replies == s.replies + [Reply(r, 200, arg)];
    RepliesForAppend(s.replies, Reply(r, 200, arg), rid);
    forall x | x in Listeners(f.listeners, n)
      ensures x in Listeners(s.listeners, n)
    {
      RemoveListenerSubset(s.listeners, n, Once(r), x);
    }
  }

  /** One listener that is not the request's own leaves everything of the request alone. */
  lemma InvokedFrame(s: HubState, n: string, l: Listener, arg: Option<Json>, rid: string)
    requires l != Once(rid) && l != Collect(rid)
    ensures Untouched(s, Invoked(s, n, l, arg), n, rid)
  {
    match l
    case Once(r) => OnceFrame(s, n, r, arg, rid);
    case Collect(r) =>
    case ClientRelay(c) =>
      assert Invoked(s, n, l, arg).listeners == s.listeners;
    case DeviceRelay(c) =>
      assert Invoked(s, n, l, arg).listeners == s.listeners;
  }

  lemma {:induction false} FireFrame(s: HubState, n: string, ls: seq<Listener>, arg: Option<Json>, rid: string)
    requires Once(rid) !in ls && Collect(rid) !in ls
    ensures Untouched(s, Fire(s, n, ls, arg), n, rid)
  {
    if ls != [] {
      var init := ls[..|ls| - 1];
      assert ls == init + [ls[|ls| - 1]];
      FireFrame(s, n, init, arg, rid);
      InvokedFrame(Fire(s, n, init, arg), n, ls[|ls| - 1], arg, rid);
    }
  }

  /**
   * `f` is `s` as far as the request is concerned: still confined, the same
   * replies, timer and discovery, and no listener added under its id (none
   * changed at all when `exact`).
   */
  ghost predicate Framed(s: HubState, f: HubState, rid: string, exact: bool)
  {
    Confined(f, rid) &&
    RepliesFor(f.replies, rid) == RepliesFor(s.replies, rid) &&
    (rid in f.timeouts <==> rid in s.timeouts) &&
    (rid in f.discoveries <==> rid in s.discoveries) &&
    (rid in s.discoveries ==> f.discoveries[rid] == s.discoveries[rid]) &&
    (forall x :: x in Listeners(f.listeners, rid) ==> x in Listeners(s.listeners, rid)) &&
    (exact ==> Listeners(f.listeners, rid) == Listeners(s.listeners, rid))
  }

  lemma DeliverFrame(s: HubState, c: ConnId, p: Option<Json>, rid: string)
    requires Confined(s, rid) && c in s.sockets
    requires !Touches(s, Deliver(c, p), rid) || Quiet(s, rid)
    ensures Framed(s, Received(s, c, p).0, rid, !Touches(s, Deliver(c, p), rid))
  {
    ReceivedRouting(s, c, p);
    match Classify(p)
    case Response(n, et, resp) =>
      var snapshot := Listeners(s.listeners, n);
      if !(et && snapshot == []) {
        FireFrame(s, n, snapshot, resp, rid);
      }
    case DeviceEvent(_) =>
    case NotJson =>
    case Ignored =>
    case Crash =>
  }

  lemma ExpireFrame(s: HubState, r: string, rid: string)
    requires Confined(s, rid) && (r != rid || Quiet(s, rid))
    ensures Framed(s, DefaultExpired(s, r), rid, r != rid)
  {
    if r != rid && r in s.timeouts {
      RepliesForAppend(s.replies, Reply(r, 503, None), rid);
    }
  }

  lemma WindowEndFrame(s: HubState, r: string, rid: string)
    requires Confined(s, rid) && (r != rid || Quiet(s, rid))
    ensures Framed(s, DiscoveryClosed(s, r), rid, r != rid)
  {
    if r != rid && r in s.discoveries && s.discoveries[r].open {
      var d := s.discoveries[r];
      RepliesForAppend(s.replies, Reply(r, 200, Some(DiscoverResponse(d.messageId, d.endpoints))), rid);
    }
  }

  lemma ConnectFrame(s: HubState, c: ConnId, client: Client, d: string, rid: string)
    requires Confined(s, rid)
    ensures Framed(s, Connected(s, c, client, d), rid, true)
  {
    ListenerNamesAreDigests(client.clientId, d);
  }

  lemma CloseFrame(s: HubState, c: ConnId, rid: string)
    requires Confined(s, rid) && c in s.sockets
    ensures Framed(s, Closed(s, c), rid, true)
  {
    var f := Closed(s, c);
    var sock := s.sockets[c];
    ListenerNamesAreDigests(sock.client.clientId, sock.deviceId);
    var n1 := ClientListener(sock.client.clientId);
    var n2 := DeviceListener(sock.client.clientId, sock.deviceId);
    var t1 := RemoveListener(s.listeners, n1, ClientRelay(c));
    forall m, x | x in Listeners(f.listeners, m)
      ensures x in Listeners(s.listeners, m)
    {
      RemoveListenerSubset(t1, n2, DeviceRelay(c), x);
      RemoveListenerSubset(s.listeners, n1, ClientRelay(c), x);
    }
  }

  /** Sending a directive to the devices under a digest name leaves another request as it was. */
  lemma SendFrame(s: HubState, name: string, msg: Json, rid: string)
    requires Confined(s, rid) && IsDigest(name)
    ensures var f := Emitted(s, name, Some(msg), name == "error").0;
      Untouched(s, f, name, rid) && Confined(f, rid)
  {
    FireFrame(s, name, Listeners(s.listeners, name), Some(msg), rid);
  }

  /** A socket's state changes, whatever moves it: only the sockets change. */
  lemma SocketsFrame(s: HubState, f: HubState, rid: string)
    requires Confined(s, rid) && f == s.(sockets := f.sockets)
    ensures Framed(s, f, rid, true)
  {
  }

  /** Another discovery opens its own window and listens under its own id only. */
  lemma DiscoverFrame(s: HubState, body: Json, user: Access, r: string, time: string, rid: string)
    requires Confined(s, rid) && r != rid
    ensures Framed(s, DiscoveryStarted(s, body, user, r, time), rid, true)
  {
    var uid := Prop(user, "user_id");
    if uid.Thrown? {
      RepliesForAppend(s.replies, Reply(r, 500, Some(InternalServerError)), rid);
    } else {
      ListenerNamesAreDigests(ToJsString(uid), "");
      SendFrame(s, ClientListener(ToJsString(uid)), Stamp(RequestOf(body), r, time), rid);
    }
  }

  /** Another default directive waits under its own id only. */
  lemma DirectFrame(s: HubState, body: Json, user: Access, r: string, time: string, rid: string)
    requires Confined(s, rid) && r != rid
    ensures Framed(s, DefaultStarted(s, body, user, r, time), rid, true)
  {
    var request := Stamp(RequestOf(body), r, time);
    var uid := Prop(user, "user_id");
    var eid := Path(Val(request), ["directive", "endpoint", "endpointId"]);
    if uid.Thrown? || eid.Thrown? {
      RepliesForAppend(s.replies, Reply(r, 500, Some(InternalServerError)), rid);
    } else {
      ListenerNamesAreDigests(ToJsString(uid), ToJsString(eid));
      SendFrame(s, DeviceListener(ToJsString(uid), ToJsString(eid)), request, rid);
    }
  }

  /** A device message, as one step of a run. */
  lemma DeliverStepFrame(s: HubState, e: Event, rid: string)
    requires e.Deliver? && Confined(s, rid)
    requires !Touches(s, e, rid) || Quiet(s, rid)
    ensures Framed(s, Step(s, e), rid, !Touches(s, e, rid))
  {
    if e.conn in s.sockets { DeliverFrame(s, e.conn, e.payload, rid); }
  }

  /** A timer firing, as one step of a run. */
  lemma TimerStepFrame(s: HubState, e: Event, rid: string)
    requires (e.Expire? || e.WindowEnd?) && Confined(s, rid)
    requires !Touches(s, e, rid) || Quiet(s, rid)
    ensures Framed(s, Step(s, e), rid, !Touches(s, e, rid))
  {
    if e.Expire? { ExpireFrame(s, e.requestId, rid); } else { WindowEndFrame(s, e.requestId, rid); }
  }

  /** A device connecting or disconnecting, as one step of a run. */
  lemma ConnectionStepFrame(s: HubState, e: Event, rid: string)
    requires (e.Connect? || e.Close?) && Confined(s, rid)
    ensures Framed(s, Step(s, e), rid, !Touches(s, e, rid))
  {
    if e.Connect? {
      if e.conn !in s.sockets { ConnectFrame(s, e.conn, e.client, e.deviceId, rid); }
    } else {
      if e.conn in s.sockets { CloseFrame(s, e.conn, rid); }
    }
  }

  /** A ping tick or a socket state change, as one step of a run. */
  lemma SocketStepFrame(s: HubState, e: Event, rid: string)
    requires (e.Tick? || e.Transition?) && Confined(s, rid)
    ensures Framed(s, Step(s, e), rid, !Touches(s, e, rid))
  {
    SocketsFrame(s, Step(s, e), rid);
  }

  /** Another directive starting, as one step of a run. */
  lemma DirectiveStepFrame(s: HubState, e: Event, rid: string)
    requires (e.Discover? || e.Direct?) && Confined(s, rid) && !Restarts(e, rid)
    ensures Framed(s, Step(s, e), rid, !Touches(s, e, rid))
  {
    if e.Discover? {
      DiscoverFrame(s, e.body, e.user, e.requestId, e.time, rid);
    } else {
      DirectFrame(s, e.body, e.user, e.requestId, e.time, rid);
    }
  }

  /**
   * An event that is not aimed at the request, or any event but a restart
   * once the request is quiet, changes nothing about the request.
   */
  lemma StepFrame(s: HubState, e: Event, rid: string)
    requires Confined(s, rid) && !Restarts(e, rid)
    requires !Touches(s, e, rid) || Quiet(s, rid)
    ensures Framed(s, Step(s, e), rid, !Touches(s, e, rid))
  {
    if e.Deliver? {
      DeliverStepFrame(s, e, rid);
    } else if e.Expire? || e.WindowEnd? {
      TimerStepFrame(s, e, rid);
    } else if e.Connect? || e.Close? {
      ConnectionStepFrame(s, e, rid);
    } else if e.Tick? || e.Transition? {
      SocketStepFrame(s, e, rid);
    } else {
      DirectiveStepFrame(s, e, rid);
    }
  }

  // ---------------------------------------------------------------------
  // Default directives: one answer, at most

  /** A default directive waiting for its device. */
  ghost predicate Waiting(s: HubState, rid: string)
  {
    Confined(s, rid) && Listeners(s.listeners, rid) == [Once(rid)] &&
    rid in s.timeouts && rid !in s.discoveries && RepliesFor(s.replies, rid) == []
  }

  /** A directive that has had its one answer. */
  ghost predicate Settled(s: HubState, rid: string)
  {
    Confined(s, rid) && Quiet(s, rid) && rid !in s.discoveries && |RepliesFor(s.replies, rid)| == 1
  }

  /** A default directive still waiting, or already answered. */
  ghost predicate Pending(s: HubState, rid: string)
  {
    Waiting(s, rid) || Settled(s, rid)
  }

  /** Once answered, a directive stays answered, with the same replies. */
  lemma SettledStep(s: HubState, e: Event, rid: string)
    requires Settled(s, rid) && !Restarts(e, rid)
    ensures Settled(Step(s, e), rid) && RepliesFor(Step(s, e).replies, rid) == RepliesFor(s.replies, rid)
  {
    StepFrame(s, e, rid);
  }

  /** A reply carrying the id is taken by the `once` listener and answers 200 with its response. */
  lemma WaitingDeliver(s: HubState, c: ConnId, p: Option<Json>, rid: string)
    requires Waiting(s, rid) && Touches(s, Deliver(c, p), rid)
    ensures Settled(Step(s, Deliver(c, p)), rid)
    ensures RepliesFor(Step(s, Deliver(c, p)).replies, rid) == [Reply(rid, 200, Classify(p).response)]
  {
    var Response(n, et, resp) := Classify(p);
    ReceivedRouting(s, c, p);
    assert Listeners(s.listeners, rid)[..0] == [];
    var f := Invoked(s, rid, Once(rid), resp);
    assert Fire(s, rid, [Once(rid)], resp) == f;
    assert RemoveLast([Once(rid)], Once(rid)) == [];
    assert Listeners(f.listeners, rid) == [];
    RepliesForAppend(s.replies, Reply(rid, 200, resp), rid);
  }

  /** The timer of a waiting directive answers 503. */
  lemma WaitingExpire(s: HubState, rid: string)
    requires Waiting(s, rid)
    ensures Settled(Step(s, Expire(rid)), rid)
    ensures RepliesFor(Step(s, Expire(rid)).replies, rid) == [Reply(rid, 503, None)]
  {
    RepliesForAppend(s.replies, Reply(rid, 503, None), rid);
  }

  /** A waiting directive goes on waiting for any event not aimed at it. */
  lemma WaitingStep(s: HubState, e: Event, rid: string)
    requires Waiting(s, rid) && !Restarts(e, rid)
    ensures Pending(Step(s, e), rid)
    ensures e == Expire(rid) ==> RepliesFor(Step(s, e).replies, rid) == [Reply(rid, 503, None)]
    ensures e.Deliver? && Touches(s, e, rid) ==>
      RepliesFor(Step(s, e).replies, rid) == [Reply(rid, 200, Classify(e.payload).response)]
    ensures !Touches(s, e, rid) ==> Waiting(Step(s, e), rid)
  {
    if !Touches(s, e, rid) {
      StepFrame(s, e, rid);
    } else {
      match e
      case Deliver(c, p) => WaitingDeliver(s, c, p, rid);
      case Expire(r) => WaitingExpire(s, rid);
      case WindowEnd(r) =>
    }
  }

  /**
   * A waiting directive is answered by the first reply carrying its id,
   * from whichever socket, with that reply's `response`, or by the timer
   * with 503; once answered, nothing answers it again.
   */
  lemma DefaultStep(s: HubState, e: Event, rid: string)
    requires Pending(s, rid) && !Restarts(e, rid)
    ensures Pending(Step(s, e), rid)
    ensures Settled(s, rid) ==> Settled(Step(s, e), rid) && RepliesFor(Step(s, e).replies, rid) == RepliesFor(s.replies, rid)
    ensures Waiting(s, rid) && e == Expire(rid) ==> RepliesFor(Step(s, e).replies, rid) == [Reply(rid, 503, None)]
    ensures Waiting(s, rid) && e.Deliver? && Touches(s, e, rid) ==>
      RepliesFor(Step(s, e).replies, rid) == [Reply(rid, 200, Classify(e.payload).response)]
    ensures Waiting(s, rid) && Settled(Step(s, e), rid) ==> Touches(s, e, rid)
  {
    if Settled(s, rid) {
      SettledStep(s, e, rid);
    } else {
      WaitingStep(s, e, rid);
      if !Touches(s, e, rid) {
        assert !Settled(Step(s, e), rid) by { assert Waiting(Step(s, e), rid); }
      }
    }
  }

  lemma {:induction false} DefaultTrace(s: HubState, trace: seq<Event>, rid: string)
    requires Pending(s, rid) && Unique(trace, rid)
    ensures Pending(Run(s, trace), rid)
    ensures Settled(s, rid) ==> RepliesFor(Run(s, trace).replies, rid) == RepliesFor(s.replies, rid)
    ensures Reaches(s, trace, Expire(rid)) ==> Settled(Run(s, trace), rid)
    decreases |trace|
  {
    if trace != [] && !Crashes(s, trace[0]) {
      UniqueRest(trace, rid);
      DefaultStep(s, trace[0], rid);
      DefaultTrace(Step(s, trace[0]), trace[1..], rid);
    }
  }

  /** A request id never seen by the hub. */
  ghost predicate Fresh(s: HubState, rid: string)
  {
    !IsDigest(rid) && Listeners(s.listeners, rid) == [] && rid !in s.timeouts && rid !in s.discoveries &&
    RepliesFor(s.replies, rid) == [] &&
    forall n :: Once(rid) !in Listeners(s.listeners, n) && Collect(rid) !in Listeners(s.listeners, n)
  }

  /** Sending to a device or an account leaves a fresh request id fresh. */
  lemma SendKeepsFresh(s: HubState, name: string, msg: Json, rid: string)
    requires Fresh(s, rid) && IsDigest(name)
    ensures Fresh(Emitted(s, name, Some(msg), name == "error").0, rid)
  {
    var snapshot := Listeners(s.listeners, name);
    FireFrame(s, name, snapshot, Some(msg), rid);
    var f := Fire(s, name, snapshot, Some(msg));
    assert forall n :: n != name ==> Listeners(f.listeners, n) == Listeners(s.listeners, n);
    assert Listeners(f.listeners, rid) == [];
  }

  /**
   * A default directive gets at most one answer, whatever the devices send,
   * however they come and go and whatever other directives arrive, and
   * exactly one once its timer has fired before any crash.
   */
  lemma DefaultAnsweredOnce(s: HubState, body: Json, user: Access, rid: string, time: string, trace: seq<Event>)
    requires Fresh(s, rid) && Unique(trace, rid)
    ensures |RepliesFor(Run(DefaultStarted(s, body, user, rid, time), trace).replies, rid)| <= 1
    ensures Reaches(DefaultStarted(s, body, user, rid, time), trace, Expire(rid)) ==>
      |RepliesFor(Run(DefaultStarted(s, body, user, rid, time), trace).replies, rid)| == 1
  {
    var s0 := DefaultStarted(s, body, user, rid, time);
    var request := Stamp(RequestOf(body), rid, time);
    var uid := Prop(user, "user_id");
    var eid := Path(Val(request), ["directive", "endpoint", "endpointId"]);
    if uid.Thrown? || eid.Thrown? {
      RepliesForAppend(s.replies, Reply(rid, 500, Some(InternalServerError)), rid);
      assert Settled(s0, rid);
    } else {
      var name := DeviceListener(ToJsString(uid), ToJsString(eid));
      ListenerNamesAreDigests(ToJsString(uid), ToJsString(eid));
      SendKeepsFresh(s, name, request, rid);
      assert Waiting(s0, rid);
    }
    DefaultTrace(s0, trace, rid);
  }

  /**
   * A `null` frame from any connected device ends the process: a directive
   * still waiting is never answered, whatever would have followed.
   */
  lemma NullFrameSilences(s: HubState, c: ConnId, rid: string, trace: seq<Event>)
    requires Waiting(s, rid) && c in s.sockets
    ensures RepliesFor(Run(s, [Deliver(c, Some(JNull))] + trace).replies, rid) == []
  {
    assert Crashes(s, Deliver(c, Some(JNull)));
  }

  /** So does a reply under the id `"error"` while nothing listens for errors. */
  lemma ErrorReplyCrashes(s: HubState, c: ConnId, response: Json)
    requires c in s.sockets && Listeners(s.listeners, "error") == []
    ensures Crashes(s, Deliver(c, Some(JObj([("requestId", JStr("error")), ("response", response)]))))
  {
  }

  /**
   * The hub does not tie a reply to the account the directive was sent to:
   * a waiting directive takes the answer of any connected device that
   * names its request id.
   */
  lemma AnyDeviceCanAnswer(s: HubState, rid: string, conn: ConnId, payload: Option<Json>)
    requires Waiting(s, rid) && conn in s.sockets
    requires Classify(payload).Response? && Classify(payload).name == rid
    ensures RepliesFor(Step(s, Deliver(conn, payload)).replies, rid) == [Reply(rid, 200, Classify(payload).response)]
  {
    DefaultStep(s, Deliver(conn, payload), rid);
  }

  // ---------------------------------------------------------------------
  // Discovery: the window collects, then answers once

  /** A discovery window that is still open. */
  ghost predicate Open(s: HubState, rid: string)
  {
    Confined(s, rid) && Listeners(s.listeners, rid) == [Collect(rid)] &&
    rid !in s.timeouts && rid in s.discoveries && s.discoveries[rid].open &&
    RepliesFor(s.replies, rid) == []
  }

  /** A window that has closed and answered with what it collected. */
  ghost predicate Shut(s: HubState, rid: string)
  {
    Confined(s, rid) && Quiet(s, rid) && rid in s.discoveries &&
    var d := s.discoveries[rid];
    RepliesFor(s.replies, rid) == [Reply(rid, 200, Some(DiscoverResponse(d.messageId, d.endpoints)))]
  }

  /** The window is either still open or shut with its answer sent. */
  ghost predicate WindowOf(s: HubState, rid: string)
  {
    Open(s, rid) || Shut(s, rid)
  }

  /** What an event adds to an open window: a truthy response carrying its id. */
  function Picked(s: HubState, e: Event, rid: string): seq<Json>
  {
    if e.Deliver? && e.conn in s.sockets && Classify(e.payload).Response? && Classify(e.payload).name == rid &&
       TruthyValue(Classify(e.payload).response) && rid in s.discoveries && s.discoveries[rid].open
    then [Classify(e.payload).response.value]
    else []
  }

  /** A shut window stays shut and collects nothing. */
  lemma ShutStep(s: HubState, e: Event, rid: string)
    requires Shut(s, rid) && !Restarts(e, rid)
    ensures Shut(Step(s, e), rid) && Picked(s, e, rid) == []
    ensures Step(s, e).discoveries[rid] == s.discoveries[rid]
  {
    StepFrame(s, e, rid);
  }

  /** A response carrying the id is collected by the open window. */
  lemma OpenDeliver(s: HubState, c: ConnId, p: Option<Json>, rid: string)
    requires Open(s, rid) && Touches(s, Deliver(c, p), rid)
    ensures Open(Step(s, Deliver(c, p)), rid)
    ensures rid in Step(s, Deliver(c, p)).discoveries
    ensures Step(s, Deliver(c, p)).discoveries[rid] ==
      s.discoveries[rid].(endpoints := s.discoveries[rid].endpoints + Picked(s, Deliver(c, p), rid))
  {
    var Response(n, et, resp) := Classify(p);
    ReceivedRouting(s, c, p);
    assert Listeners(s.listeners, rid)[..0] == [];
    assert Fire(s, rid, [Collect(rid)], resp) == Invoked(s, rid, Collect(rid), resp);
  }

  /** The window-end timer answers with what the window collected, and shuts it. */
  lemma OpenWindowEnd(s: HubState, rid: string)
    requires Open(s, rid)
    ensures Shut(Step(s, WindowEnd(rid)), rid) && Picked(s, WindowEnd(rid), rid) == []
    ensures rid in Step(s, WindowEnd(rid)).discoveries
    ensures Step(s, WindowEnd(rid)).discoveries[rid].messageId == s.discoveries[rid].messageId
    ensures Step(s, WindowEnd(rid)).discoveries[rid].endpoints == s.discoveries[rid].endpoints
  {
    var d := s.discoveries[rid];
    RepliesForAppend(s.replies, Reply(rid, 200, Some(DiscoverResponse(d.messageId, d.endpoints))), rid);
  }

  /** An open window meets an event. */
  lemma OpenStep(s: HubState, e: Event, rid: string)
    requires Open(s, rid) && !Restarts(e, rid)
    ensures WindowOf(Step(s, e), rid)
    ensures rid in Step(s, e).discoveries
    ensures Step(s, e).discoveries[rid].messageId == s.discoveries[rid].messageId
    ensures Step(s, e).discoveries[rid].endpoints == s.discoveries[rid].endpoints + Picked(s, e, rid)
    ensures e == WindowEnd(rid) ==> Shut(Step(s, e), rid)
  {
    if !Touches(s, e, rid) {
      StepFrame(s, e, rid);
      assert Picked(s, e, rid) == [];
    } else {
      match e
      case Deliver(c, p) => OpenDeliver(s, c, p, rid);
      case Expire(r) =>
      case WindowEnd(r) => OpenWindowEnd(s, rid);
    }
  }

  lemma DiscoveryStep(s: HubState, e: Event, rid: string)
    requires WindowOf(s, rid) && !Restarts(e, rid)
    ensures WindowOf(Step(s, e), rid)
    ensures rid in Step(s, e).discoveries
    ensures Step(s, e).discoveries[rid].messageId == s.discoveries[rid].messageId
    ensures Step(s, e).discoveries[rid].endpoints == s.discoveries[rid].endpoints + Picked(s, e, rid)
    ensures Shut(s, rid) ==> Shut(Step(s, e), rid) && Picked(s, e, rid) == []
    ensures e == WindowEnd(rid) ==> Shut(Step(s, e), rid)
  {
    if Shut(s, rid) {
      ShutStep(s, e, rid);
    } else {
      OpenStep(s, e, rid);
    }
  }

  /** Everything a run adds to the window, event by event. */
  function Harvest(s: HubState, trace: seq<Event>, rid: string): seq<Json>
    decreases |trace|
  {
    if trace == [] || Crashes(s, trace[0]) then [] else Picked(s, trace[0], rid) + Harvest(Step(s, trace[0]), trace[1..], rid)
  }

  lemma {:induction false} DiscoveryTrace(s: HubState, trace: seq<Event>, rid: string)
    requires WindowOf(s, rid) && Unique(trace, rid)
    ensures var f := Run(s, trace);
      WindowOf(f, rid) && rid in f.discoveries && f.discoveries[rid].messageId == s.discoveries[rid].messageId
    decreases |trace|
  {
    if trace != [] && !Crashes(s, trace[0]) {
      UniqueRest(trace, rid);
      DiscoveryStep(s, trace[0], rid);
      DiscoveryTrace(Step(s, trace[0]), trace[1..], rid);
    }
  }

  /** The endpoints a discovery has collected so far. */
  function Endpoints(s: HubState, rid: string): seq<Json>
  {
    if rid in s.discoveries then s.discoveries[rid].endpoints else []
  }

  lemma EndpointsStep(s: HubState, e: Event, rid: string)
    requires WindowOf(s, rid) && !Restarts(e, rid)
    ensures WindowOf(Step(s, e), rid)
    ensures Endpoints(Step(s, e), rid) == Endpoints(s, rid) + Picked(s, e, rid)
  {
    DiscoveryStep(s, e, rid);
  }

  /** One step of a run that does not crash, as `Run` and `Harvest` take it. */
  lemma HarvestCons(s: HubState, trace: seq<Event>, rid: string)
    requires trace != [] && !Crashes(s, trace[0])
    ensures Run(s, trace) == Run(Step(s, trace[0]), trace[1..])
    ensures Harvest(s, trace, rid) == Picked(s, trace[0], rid) + Harvest(Step(s, trace[0]), trace[1..], rid)
  {
  }

  /** Along any run, the window's endpoints grow by exactly the harvest of the run. */
  lemma {:induction false} HarvestTrace(s: HubState, trace: seq<Event>, rid: string)
    requires WindowOf(s, rid) && Unique(trace, rid)
    ensures Endpoints(Run(s, trace), rid) == Endpoints(s, rid) + Harvest(s, trace, rid)
    decreases |trace|
  {
    if trace != [] && !Crashes(s, trace[0]) {
      UniqueRest(trace, rid);
      var t, rest := Step(s, trace[0]), trace[1..];
      var p := Picked(s, trace[0], rid);
      HarvestCons(s, trace, rid);
      EndpointsStep(s, trace[0], rid);
      HarvestTrace(t, rest, rid);
      assert (Endpoints(s, rid) + p) + Harvest(t, rest, rid) == Endpoints(s, rid) + (p + Harvest(t, rest, rid));
    }
  }

  /** A shut window stays shut along any run and collects nothing more. */
  lemma {:induction false} ShutTrace(s: HubState, trace: seq<Event>, rid: string)
    requires Shut(s, rid) && Unique(trace, rid)
    ensures Harvest(s, trace, rid) == [] && Shut(Run(s, trace), rid)
    decreases |trace|
  {
    if trace != [] && !Crashes(s, trace[0]) {
      UniqueRest(trace, rid);
      var t, rest := Step(s, trace[0]), trace[1..];
      DiscoveryStep(s, trace[0], rid);
      ShutTrace(t, rest, rid);
    }
  }

  /** Once the window-end timer has fired in a run before any crash, the window is shut at its end. */
  lemma {:induction false} DiscoveryTraceCloses(s: HubState, trace: seq<Event>, rid: string)
    requires WindowOf(s, rid) && Unique(trace, rid)
    requires Reaches(s, trace, WindowEnd(rid))
    ensures Shut(Run(s, trace), rid)
    decreases |trace|
  {
    var t, rest := Step(s, trace[0]), trace[1..];
    UniqueRest(trace, rid);
    DiscoveryStep(s, trace[0], rid);
    assert Run(s, trace) == Run(t, rest);
    if trace[0] == WindowEnd(rid) {
      ShutTrace(t, rest, rid);
    } else {
      DiscoveryTraceCloses(t, rest, rid);
    }
  }

  /**
   * A discovery answers at most once; once its window has closed before
   * any crash it has answered `Discover.Response` with the truthy responses
   * that arrived under its id while the window was open, in order of
   * arrival. Responses arriving later change nothing.
   */
  lemma DiscoveryAnsweredOnce(s: HubState, body: Json, user: Access, rid: string, time: string, trace: seq<Event>)
    requires Fresh(s, rid) && !Prop(user, "user_id").Thrown? && Unique(trace, rid)
    ensures var s0 := DiscoveryStarted(s, body, user, rid, time);
      var f := Run(s0, trace);
      |RepliesFor(f.replies, rid)| <= 1 &&
      rid in f.discoveries && f.discoveries[rid].endpoints == Harvest(s0, trace, rid) &&
      (Reaches(s0, trace, WindowEnd(rid)) ==>
        RepliesFor(f.replies, rid) == [Reply(rid, 200, Some(DiscoverResponse(ReplyMessageId(body), Harvest(s0, trace, rid))))])
  {
    var s0 := DiscoveryStarted(s, body, user, rid, time);
    var request := Stamp(RequestOf(body), rid, time);
    var uid := Prop(user, "user_id");
    var name := ClientListener(ToJsString(uid));
    ListenerNamesAreDigests(ToJsString(uid), "");
    SendKeepsFresh(s, name, request, rid);
    assert Open(s0, rid);
    DiscoveryTrace(s0, trace, rid);
    HarvestTrace(s0, trace, rid);
    if Reaches(s0, trace, WindowEnd(rid)) {
      DiscoveryTraceCloses(s0, trace, rid);
    }
  }
}
