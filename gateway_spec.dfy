/**
 * A functional reference model of the `Gateway` class (gateway.py). A `Session` holds
 * every instance field the class reads or writes, together with the observable world
 * around it: the frames written to the socket (`wire`), the persistent cache, the
 * payloads handed to the high-level event sink (`delivered`), and two scripts that say
 * how the network answers the next writes and connection attempts.
 *
 * Each operation returns the new session and whether it completed (`Pass`) or raised
 * (`Fail`). The coroutines are run one after the other, as they would be if every
 * `await` resumed at once; the class in gateway.dfy is proved to follow these functions.
 */
module GatewaySpec {
  import opened Wrappers
  import opened Json
  import opened GatewayProtocol

  /** The `_websocket` object: whether it is still open (`not closed`) and its `close_code`. */
  datatype Socket = Socket(open: bool, closeCode: Option<int>)

  /** The heartbeat fields of `__init__`. */
  datatype Beat = Beat(
    intervalMs: Json,         // `heartbeat_ms`
    ackSeen: bool,            // `last_heartbeat_ack is not None`
    sent: bool,               // `last_heartbeat_sent is not None`
    running: bool,            // the current `heartbeat_repeater` is running
    orphans: nat              // earlier repeaters that were replaced while running
  )

  /** What lies outside the gateway: what it writes, stores and delivers, and how the network behaves. */
  datatype World = World(
    wire: seq<Outbound>,              // everything written to a socket, oldest first
    cache: map<string, Json>,         // the store behind `cache_set_dict`
    delivered: seq<Json>,             // payloads passed to `gateway_events.message_create`
    writes: seq<Option<int>>,         // next writes: None succeeds, Some(c) finds the socket closed with code c
    connects: seq<ConnectResult>      // next connection attempts
  )

  datatype Session = Session(
    closed: bool,
    identified: bool,
    token: Json,
    gatewayUrl: Option<string>,
    sessionId: Json,
    lastSequence: Option<int>,
    beat: Beat,
    sendQueue: seq<Outbound>,
    websocket: Option<Socket>,        // None until `start` connects
    world: World
  )

  /** The new session, and whether the operation completed or raised. */
  datatype Step = Step(st: Session, out: Outcome<Error>)

  /**
   * What is fixed when the gateway is built: `json.dumps` of a frame and
   * `platform.system()`, which the model leaves to the environment, and the
   * `gateway_intents` sent with IDENTIFY.
   */
  datatype Config = Config(encode: Frame -> string, osName: string, intents: nat)

  /** The state `__init__` leaves, given the cache on disk and the network's behaviour. */
  function Initial(cache: map<string, Json>, writes: seq<Option<int>>, connects: seq<ConnectResult>): (s: Session)
    ensures s.closed && !s.identified && s.sessionId == JNull && s.sendQueue == []
    ensures s.websocket.None? && s.lastSequence.None? && !s.beat.ackSeen && !s.beat.running
    ensures !s.beat.sent && s.beat.orphans == 0
    ensures s.token == JNull && s.gatewayUrl.None?
    ensures s.world.wire == [] && s.world.delivered == [] && s.world.cache == cache
    ensures s.world.writes == writes && s.world.connects == connects
  {
    Session(true, false, JNull, None, JNull, None, Beat(JNull, false, false, false, 0), [],
            None, World([], cache, [], writes, connects))
  }

  /** `not self._websocket.closed`, for a socket that exists. */
  predicate SocketOpen(s: Session)
  {
    s.websocket.Some? && s.websocket.value.open
  }

  /** `send` writes instead of queueing: not closed, and a socket that is open. */
  predicate Live(s: Session)
  {
    !s.closed && SocketOpen(s)
  }

  /** The number of writes in a script that will find the socket closed. */
  function Failures(w: seq<Option<int>>): nat
  {
    if w == [] then 0 else (if w[0].Some? then 1 else 0) + Failures(w[1..])
  }

  /** The outcome of the next write; an exhausted script lets every write succeed. */
  function NextWrite(s: Session): Option<int>
  {
    if s.world.writes == [] then None else s.world.writes[0]
  }

  function RestWrites(s: Session): seq<Option<int>>
  {
    if s.world.writes == [] then [] else s.world.writes[1..]
  }

  /** A write that succeeds: its outcome is consumed and the item reaches the wire. */
  function Written(s: Session, item: Outbound): Session
  {
    s.(world := s.world.(writes := RestWrites(s), wire := s.world.wire + [item]))
  }

  /** The outcome of the next connection attempt; an exhausted script always connects. */
  function NextConnect(s: Session): ConnectResult
  {
    if s.world.connects == [] then Connected else s.world.connects[0]
  }

  function RestConnects(s: Session): seq<ConnectResult>
  {
    if s.world.connects == [] then [] else s.world.connects[1..]
  }

  /** The session's data fields: what the send and reconnect paths never change. */
  predicate SessionDataKept(a: Session, b: Session)
  {
    a.token == b.token && a.gatewayUrl == b.gatewayUrl && a.sessionId == b.sessionId
    && a.lastSequence == b.lastSequence && a.beat.intervalMs == b.beat.intervalMs
    && a.beat.ackSeen == b.beat.ackSeen && a.beat.sent == b.beat.sent
    && a.beat.orphans == b.beat.orphans && a.world.cache == b.world.cache
    && a.world.delivered == b.world.delivered
  }

  /**
   * What every operation on the send path keeps: the data fields, a wire that only
   * grows, `identified` and the heartbeat timer that can only be switched off, a socket
   * that does not go away, and no write failure that is not consumed.
   */
  predicate SendPathKeeps(a: Session, b: Session)
  {
    SessionDataKept(a, b) && a.world.wire <= b.world.wire
    && (b.identified ==> a.identified) && (b.beat.running ==> a.beat.running)
    && (a.websocket.Some? ==> b.websocket.Some?)
    && Failures(b.world.writes) <= Failures(a.world.writes)
  }

  /** `_resume`'s check of the close code: invalid sequence or session timed out. */
  predicate ForcesReidentify(s: Session)
  {
    s.websocket.Some? && s.websocket.value.closeCode.Some? && s.websocket.value.closeCode.value in ReidentifyCodes
  }

  /** `data if type(data) == str else json.dumps(data)`. */
  function Serialise(item: Outbound, cfg: Config): string
  {
    match item
    case Str(text) => text
    case Obj(f) => cfg.encode(f)
  }

  // ---------------------------------------------------------------------------
  // Closing

  /**
   * `disconnect(code)`: marks the gateway closed and stops the current repeater; then
   * closes the socket if it is open. With no socket it raises; the socket library
   * refuses a close code it does not recognise and leaves the socket open.
   */
  function Disconnect(s: Session, code: int): (r: Step)
    ensures r.st == s.(closed := true, beat := s.beat.(running := false), websocket := r.st.websocket)
    ensures r.out == Pass <==> s.websocket.Some? && (!s.websocket.value.open || ValidCloseCode(code))
    ensures s.websocket.None? ==> r.out == Fail(NoSocket) && r.st.websocket.None?
    ensures SocketOpen(r.st) <==> SocketOpen(s) && !ValidCloseCode(code)
    ensures r.st.websocket != s.websocket ==> r.st.websocket == Some(Socket(false, Some(code)))
  {
    var s1 := s.(closed := true, beat := s.beat.(running := false));
    match s.websocket
    case None => Step(s1, Fail(NoSocket))
    case Some(ws) =>
      if !ws.open then Step(s1, Pass)
      else if ValidCloseCode(code) then Step(s1.(websocket := Some(Socket(false, Some(code)))), Pass)
      else Step(s1, Fail(InvalidCloseCode))
  }

  /**
   * The loop `while self._websocket.closed` of `_resume`: a `gaierror` is retried, any
   * other failure propagates. A new, open socket replaces the old one only on success.
   */
  function Reconnect(s: Session): (r: Step)
    requires s.websocket.Some?
    ensures r.st == s.(websocket := r.st.websocket, world := s.world.(connects := r.st.world.connects))
    ensures r.out.Pass? <==> SocketOpen(r.st)
    ensures r.out.Fail? ==> r.st.websocket == s.websocket
                            && (r.out.error == ConnectRefused || r.out.error == HandshakeRejected)
    ensures r.st.websocket == s.websocket || r.st.websocket == Some(Socket(true, None))
    ensures SocketOpen(s) ==> r == Step(s, Pass)
    decreases |s.world.connects|
  {
    if s.websocket.value.open then Step(s, Pass)
    else
      var s1 := s.(world := s.world.(connects := RestConnects(s)));
      match NextConnect(s)
      case Connected => Step(s1.(websocket := Some(Socket(true, None))), Pass)
      case Unresolved => Reconnect(s1)
      case Refused => Step(s1, Fail(ConnectRefused))
      case Rejected => Step(s1, Fail(HandshakeRejected))
  }

  // ---------------------------------------------------------------------------
  // The send and recovery path: send -> _handle_close_event -> _resume -> send

  /**
   * `send(item)`. While the gateway is not live the item itself is queued. Otherwise it
   * is serialised and written; a write that finds the socket closed queues the text
   * and enters `_handle_close_event`, which reconnects and drains the queue.
   */
  function Send(s: Session, item: Outbound, cfg: Config): (r: Step)
    ensures SendPathKeeps(s, r.st)
    ensures !Live(s) ==> r == Step(s.(sendQueue := s.sendQueue + [item]), Pass)
    ensures Live(s) && NextWrite(s).None? ==> r == Step(Written(s, item), Pass)
    ensures Live(s) && r.out.Pass? ==> Live(r.st) && |r.st.sendQueue| <= |s.sendQueue|
    decreases Failures(s.world.writes), 0, 0
  {
    if !Live(s) then Step(s.(sendQueue := s.sendQueue + [item]), Pass)
    else
      match NextWrite(s)
      case None => Step(Written(s, item), Pass)
      case Some(code) => HandleClose(WriteFailed(s, Serialise(item, cfg), code), cfg)
  }

  /** The state a write that found the socket closed with `code` leaves: the text is queued. */
  function WriteFailed(s: Session, text: string, code: int): Session
  {
    s.(websocket := Some(Socket(false, Some(code))), sendQueue := s.sendQueue + [Str(text)],
       world := s.world.(writes := RestWrites(s)))
  }

  /**
   * `_handle_close_event`: a gateway that is not yet closed is disconnected with the
   * normal closure code first; then `_resume` runs.
   */
  function HandleClose(s: Session, cfg: Config): (r: Step)
    ensures SendPathKeeps(s, r.st)
    ensures r.out.Pass? ==> Live(r.st) && r.st.sendQueue == []
    ensures r.out.Pass? ==> !r.st.beat.running || s.closed
    decreases Failures(s.world.writes), 4, 0
  {
    if !s.closed then
      var d := Disconnect(s, NormalClosure);
      if d.out.Fail? then d else Resume(d.st, cfg)
    else Resume(s, cfg)
  }

  /**
   * `_resume`: the RESUME frame is built from the session as it is on entry; a close
   * code of 4007 or 4009 forces a new IDENTIFY later; the socket is reconnected; the
   * gateway is reopened, RESUME is sent, and the queue is drained front first.
   */
  function Resume(s: Session, cfg: Config): (r: Step)
    ensures SendPathKeeps(s, r.st)
    ensures s.websocket.None? ==> r == Step(s, Fail(NoSocket))
    ensures r.out.Pass? ==> Live(r.st) && r.st.sendQueue == []
    ensures ForcesReidentify(s) ==> !r.st.identified
    decreases Failures(s.world.writes), 3, 0
  {
    if s.websocket.None? then Step(s, Fail(NoSocket))
    else
      var packet := ResumeFrame(s.token, s.sessionId, s.lastSequence);
      var s1 := if ForcesReidentify(s) then s.(identified := false) else s;
      var c := Reconnect(s1);
      if c.out.Fail? then c
      else
        var re := Reopen(c.st, packet, cfg);
        KeepsTransitive(s, c.st, re.st);
        re
  }

  /** The rest of `_resume` once the socket is open: reopen, send RESUME, drain the queue. */
  function Reopen(s: Session, packet: Frame, cfg: Config): (r: Step)
    requires SocketOpen(s)
    ensures SendPathKeeps(s, r.st)
    ensures r.out.Pass? ==> Live(r.st) && r.st.sendQueue == []
    decreases Failures(s.world.writes), 2, 0
  {
    var s2 := s.(closed := false);
    var sent := Send(s2, Obj(packet), cfg);
    if sent.out.Fail? then sent
    else
      var dr := Drain(sent.st, cfg);
      KeepsTransitive(s, sent.st, dr.st);
      dr
  }

  lemma KeepsTransitive(a: Session, b: Session, c: Session)
    requires SendPathKeeps(a, b) && SendPathKeeps(b, c)
    ensures SendPathKeeps(a, c)
  {
    assert c.world.wire[..|a.world.wire|] == c.world.wire[..|b.world.wire|][..|a.world.wire|];
  }

  /** `while self.send_queue: await self.send(self.send_queue.pop(0))`. */
  function Drain(s: Session, cfg: Config): (r: Step)
    requires Live(s)
    ensures SendPathKeeps(s, r.st)
    ensures r.out.Pass? ==> Live(r.st) && r.st.sendQueue == []
    decreases Failures(s.world.writes), 1, |s.sendQueue|
  {
    if s.sendQueue == [] then Step(s, Pass)
    else
      var r1 := Send(s.(sendQueue := s.sendQueue[1..]), s.sendQueue[0], cfg);
      if r1.out.Fail? then r1 else Drain(r1.st, cfg)
  }

  // ---------------------------------------------------------------------------
  // Heartbeat and handshake

  /**
   * `_heartbeat(onetime)`, with the close code used when no ACK was ever received as a
   * parameter. The periodic call without an ACK starts `disconnect` and `_resume` as
   * separate tasks, whose errors never reach the caller.
   */
  function HeartbeatWith(s: Session, onetime: bool, noAckCode: int, cfg: Config): (r: Step)
    ensures !onetime && !s.beat.ackSeen ==> r.out == Pass && !r.st.beat.running
    ensures onetime || s.beat.ackSeen ==> r.st.beat.sent
    ensures r.st.lastSequence == s.lastSequence && r.st.sessionId == s.sessionId
    ensures r.st.beat.ackSeen == s.beat.ackSeen && r.st.beat.intervalMs == s.beat.intervalMs
  {
    if !onetime && !s.beat.ackSeen then
      var d := Disconnect(s, noAckCode);
      var res := Resume(d.st, cfg);
      Step(res.st, Pass)
    else Send(s.(beat := s.beat.(sent := true)), Obj(HeartbeatFrame(s.lastSequence)), cfg)
  }

  /** `_heartbeat` with a close code the socket library accepts in place of `'123'`. */
  function Heartbeat(s: Session, onetime: bool, cfg: Config): (r: Step)
    ensures onetime || s.beat.ackSeen ==> r.st.beat.sent
    ensures r.st.lastSequence == s.lastSequence && r.st.beat.ackSeen == s.beat.ackSeen
    ensures r.st.beat.intervalMs == s.beat.intervalMs
  {
    HeartbeatWith(s, onetime, HeartbeatFailureCode, cfg)
  }

  /** `_identify`: send IDENTIFY with every intent, then mark the gateway identified. */
  function Identify(s: Session, cfg: Config): (r: Step)
    ensures r.out.Pass? ==> r.st.identified
    ensures SessionDataKept(s, r.st) && s.world.wire <= r.st.world.wire
  {
    var r1 := Send(s, Obj(IdentifyFrame(s.token, cfg.intents, cfg.osName)), cfg);
    if r1.out.Fail? then r1 else Step(r1.st.(identified := true), Pass)
  }

  // ---------------------------------------------------------------------------
  // Inbound frames

  /**
   * The HELLO handler: record the interval, then start heartbeating and identify.
   */
  function Hello(s: Session, d: Json, cfg: Config): (r: Step)
    ensures Lookup(d, "heartbeat_interval").None? ==> r == Step(s, Fail(MalformedPayload))
    ensures Lookup(d, "heartbeat_interval").Some? ==> r.st.beat.intervalMs == Lookup(d, "heartbeat_interval").value
    ensures r.out.Pass? ==> r.st.identified && r.st.beat.sent
    ensures r.st.lastSequence == s.lastSequence && r.st.beat.ackSeen == s.beat.ackSeen
  {
    match Lookup(d, "heartbeat_interval")
    case None => Step(s, Fail(MalformedPayload))
    case Some(v) =>
      var s1 := s.(beat := s.beat.(intervalMs := v));
      if !IsNumeric(v) then Step(s1, Fail(MalformedPayload)) else BeginHeartbeat(s1, cfg)
  }

  /** HELLO once the interval is recorded: send one heartbeat, then start the repeater. */
  function BeginHeartbeat(s: Session, cfg: Config): (r: Step)
    ensures r.st.beat.intervalMs == s.beat.intervalMs && r.st.lastSequence == s.lastSequence
    ensures r.st.beat.ackSeen == s.beat.ackSeen
    ensures r.out.Pass? ==> r.st.identified && r.st.beat.sent
  {
    var hb := Heartbeat(s, true, cfg);
    if hb.out.Fail? then hb else StartRepeater(hb.st, cfg)
  }

  /**
   * A new repeater replaces the current one, which keeps running if it was (an orphan);
   * then IDENTIFY is sent if the gateway is not yet identified.
   */
  function StartRepeater(s: Session, cfg: Config): (r: Step)
    ensures r.st.beat.intervalMs == s.beat.intervalMs && r.st.lastSequence == s.lastSequence
    ensures r.st.beat.sent == s.beat.sent && r.st.beat.ackSeen == s.beat.ackSeen
    ensures r.out.Pass? ==> r.st.identified
    ensures s.identified ==> r.out.Pass? && r.st.beat.running
    ensures r.st.beat.orphans == s.beat.orphans + (if s.beat.running then 1 else 0)
  {
    var s1 := s.(beat := s.beat.(running := true, orphans := s.beat.orphans + (if s.beat.running then 1 else 0)));
    if s1.identified then Step(s1, Pass) else Identify(s1, cfg)
  }

  /** `_handle_event`, routed on the event name `t`. */
  function HandleEvent(s: Session, f: Frame): (r: Step)
    ensures r.st == s.(sessionId := r.st.sessionId,
                       world := s.world.(cache := r.st.world.cache, delivered := r.st.world.delivered))
    ensures r.st.world.delivered == s.world.delivered + (if f.t == Some("MESSAGE_CREATE") then [f.d] else [])
    ensures r.out.Fail? <==> f.t == Some("READY") && Lookup(f.d, "session_id").None?
    ensures r.st.sessionId != s.sessionId ==> f.t == Some("READY")
    ensures f.t != Some("READY") && f.t != Some("MESSAGE_CREATE") ==> r == Step(s, Pass)
  {
    match EventHandlerFor(f.t)
    case ReadyEvent => Ready(s, f.d)
    case ResumedEvent => Step(s, Pass)
    case MessageCreateEvent => Step(s.(world := s.world.(delivered := s.world.delivered + [f.d])), Pass)
    case UnknownEvent => Step(s, Pass)
  }

  /** READY: the session id is recorded and the whole payload goes into the cache. */
  function Ready(s: Session, d: Json): (r: Step)
    ensures r.out.Fail? <==> Lookup(d, "session_id").None?
    ensures r.out.Fail? ==> r == Step(s, Fail(MalformedPayload))
    ensures r.out.Pass? ==> r.st == s.(sessionId := d.fields["session_id"],
                                       world := s.world.(cache := s.world.cache + d.fields))
  {
    match Lookup(d, "session_id")
    case None => Step(s, Fail(MalformedPayload))
    case Some(id) => Step(s.(sessionId := id, world := s.world.(cache := s.world.cache + d.fields)), Pass)
  }

  /**
   * `_handle_message`: `last_sequence` takes the frame's `s` before any handler runs,
   * then the opcode table picks the handler.
   */
  function HandleMessage(s: Session, f: Frame, cfg: Config): (r: Step)
    ensures r.st.lastSequence == f.s
    ensures HandlerFor(f.op) == UnhandledOp ==> r == Step(s.(lastSequence := f.s), Pass)
    ensures r.st.beat.ackSeen <==> s.beat.ackSeen || f.op == 11
  {
    var s1 := s.(lastSequence := f.s);
    match HandlerFor(f.op)
    case DispatchOp => HandleEvent(s1, f)
    case HeartbeatRequestOp => Heartbeat(s1, true, cfg)
    case InvalidSessionOp =>
      if Truthy(f.d) then
        var id := Identify(s1, cfg);
        assert id.st.lastSequence == f.s; id
      else Step(s1, Fail(InvalidSession))
    case HelloOp =>
      Hello(s1, f.d, cfg)
    case HeartbeatAckOp =>
      var s2 := s1.(beat := s1.beat.(ackSeen := true));
      if s2.beat.sent then Step(s2, Pass) else Step(s2, Fail(NoHeartbeatSent))
    case UnhandledOp => Step(s1, Pass)
  }

  /** The handler for opcode 7, which the opcode table does not list. */
  function ReconnectRequest(s: Session, cfg: Config): (r: Step)
    ensures s.websocket.None? ==> r.out == Fail(NoSocket)
    ensures r.out.Pass? ==> Live(r.st) && !r.st.identified && r.st.sendQueue == []
  {
    var d := Disconnect(s, NormalClosure);
    if d.out.Fail? then d else Resume(d.st.(identified := false), cfg)
  }

  // ---------------------------------------------------------------------------
  // The run loop, start-up and the timer

  /** What the socket yields to `recv`: a decoded frame, or the close of the connection. */
  datatype Inbound = Received(f: Frame) | PeerClosed(code: int)

  /**
   * One iteration of `_runloop` on a live gateway: a closed connection, or an `OSError`
   * out of the handler, goes to `_handle_close_event`. Any other error ends the loop's
   * task.
   */
  function RunStep(s: Session, ev: Inbound, cfg: Config): (r: Step)
    requires Live(s)
    ensures ev.PeerClosed? && r.out.Pass? ==> Live(r.st) && r.st.sendQueue == []
    ensures ev.Received? ==> r.st.lastSequence == ev.f.s
    ensures ev.Received? ==>
              (HandleMessage(s, ev.f, cfg).out.Pass? || !IsOSError(HandleMessage(s, ev.f, cfg).out.error))
              ==> r == HandleMessage(s, ev.f, cfg)
  {
    match ev
    case PeerClosed(code) => HandleClose(s.(websocket := Some(Socket(false, Some(code)))), cfg)
    case Received(f) =>
      var h := HandleMessage(s, f, cfg);
      if h.out.Fail? && IsOSError(h.out.error) then
        var c := HandleClose(h.st, cfg);
        assert c.st.lastSequence == f.s;
        c
      else h
  }

  /**
   * The loop `while not self._websocket.closed and not self.closed`, fed by the frames
   * `recv` returns in turn; it ends when the gateway stops being live, when a handler
   * raises an error it does not catch, or when no more frames arrive.
   */
  function Loop(s: Session, events: seq<Inbound>, cfg: Config): (r: Step)
    ensures s.websocket.None? ==> r == Step(s, Fail(NoSocket))
    ensures s.websocket.Some? && (events == [] || !Live(s)) ==> r == Step(s, Pass)
    decreases |events|
  {
    if s.websocket.None? then Step(s, Fail(NoSocket))
    else if !Live(s) || events == [] then Step(s, Pass)
    else
      var r1 := RunStep(s, events[0], cfg);
      if r1.out.Fail? then r1 else Loop(r1.st, events[1..], cfg)
  }

  /** `_runloop`: the gateway is reopened, then the loop runs. */
  function RunLoop(s: Session, events: seq<Inbound>, cfg: Config): (r: Step)
    ensures SocketOpen(s) && events == [] ==> r == Step(s.(closed := false), Pass) && Live(r.st)
  {
    Loop(s.(closed := false), events, cfg)
  }

  /**
   * `start(token, url)`: nothing when the gateway is open; otherwise the token and the
   * full URL are stored and a socket is opened. The run loop then reopens the gateway.
   */
  function Start(s: Session, token: string, url: string): (r: Step)
    ensures !s.closed ==> r == Step(s, Pass)
    ensures s.closed ==> r.st.token == JStr(token) && r.st.gatewayUrl == Some(url + "/?v=8&encoding=json")
    ensures s.closed && r.out.Pass? ==> r.st.websocket == Some(Socket(true, None))
    ensures r.out.Fail? ==> r.st.websocket == s.websocket
    ensures r.st.closed == s.closed && r.st.sendQueue == s.sendQueue && r.st.world.wire == s.world.wire
    ensures r.st.identified == s.identified
  {
    if !s.closed then Step(s, Pass)
    else
      var s1 := s.(token := JStr(token), gatewayUrl := Some(url + UrlSuffix()),
                   world := s.world.(connects := RestConnects(s)));
      match NextConnect(s)
      case Connected => Step(s1.(websocket := Some(Socket(true, None))), Pass)
      case Unresolved => Step(s1, Fail(DnsFailure))
      case Refused => Step(s1, Fail(ConnectRefused))
      case Rejected => Step(s1, Fail(HandshakeRejected))
  }

  /** A repeater fires: the periodic heartbeat, `_heartbeat(onetime=False)`. */
  function Tick(s: Session, cfg: Config): (r: Step)
    ensures !s.beat.running && s.beat.orphans == 0 ==> r == Step(s, Pass)
    ensures (s.beat.running || s.beat.orphans > 0) && s.beat.ackSeen ==> r.st.beat.sent
  {
    if s.beat.running || s.beat.orphans > 0 then Heartbeat(s, false, cfg) else Step(s, Pass)
  }
}
