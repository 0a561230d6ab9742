/**
 * What the gateway promises, stated over the reference model: the order in which a
 * drain and a resume write, the re-identify rule of `_resume`, the heartbeat branches,
 * the HELLO handshake, the routing of inbound frames, and `start`.
 *
 * "No failures ahead" means that every coming write succeeds (`Failures(..) == 0`) and
 * that no connection attempt fails for a reason `_resume` does not retry.
 */
module GatewayProperties {
  import opened Wrappers
  import opened Json
  import opened GatewayProtocol
  import opened GatewaySpec

  /** Every coming connection attempt either connects or fails to resolve the host. */
  predicate OnlyRetriedFailures(cs: seq<ConnectResult>)
  {
    forall i :: 0 <= i < |cs| ==> cs[i] == Connected || cs[i] == Unresolved
  }

  /** The RESUME frame `_resume` sends for this session. */
  function ResumeOf(s: Session): Outbound
  {
    Obj(ResumeFrame(s.token, s.sessionId, s.lastSequence))
  }

  // ---------------------------------------------------------------------------
  // Reconnecting

  /** Without a failure that is not retried, the reconnect loop ends with an open socket. */
  lemma {:induction false} ReconnectSucceeds(s: Session)
    requires s.websocket.Some? && OnlyRetriedFailures(s.world.connects)
    ensures var r := Reconnect(s);
            r.out == Pass && SocketOpen(r.st) && OnlyRetriedFailures(r.st.world.connects)
            && (!SocketOpen(s) && s.world.connects != [] ==> |r.st.world.connects| < |s.world.connects|)
    decreases |s.world.connects|
  {
    if !SocketOpen(s) && NextConnect(s) == Unresolved {
      var s1 := s.(world := s.world.(connects := RestConnects(s)));
      assert forall i :: 0 <= i < |s1.world.connects| ==> s1.world.connects[i] == s.world.connects[i + 1];
      ReconnectSucceeds(s1);
    }
  }

  /** `k` failures to resolve the host, then a connection: the loop tries exactly `k + 1` times. */
  lemma {:induction false} ReconnectRetries(s: Session, k: nat)
    requires s.websocket.Some? && !SocketOpen(s) && k < |s.world.connects|
    requires forall i :: 0 <= i < k ==> s.world.connects[i] == Unresolved
    requires s.world.connects[k] == Connected
    ensures Reconnect(s) == Step(s.(websocket := Some(Socket(true, None)),
                                    world := s.world.(connects := s.world.connects[k + 1..])), Pass)
    decreases k
  {
    if k > 0 {
      var s1 := s.(world := s.world.(connects := RestConnects(s)));
      assert s1.world.connects[k - 1..][1..] == s.world.connects[k + 1..];
      ReconnectRetries(s1, k - 1);
      assert s1.world.connects[k..] == s.world.connects[k + 1..];
    }
  }

  // ---------------------------------------------------------------------------
  // Sending, draining and resuming

  /** While the gateway is not live, `send` queues the item itself at the back and writes nothing. */
  lemma SendWhileDown(s: Session, item: Outbound, cfg: Config)
    requires !Live(s)
    ensures var r := Send(s, item, cfg);
            r.out == Pass && r.st.sendQueue == s.sendQueue + [item] && r.st.world.wire == s.world.wire
            && r.st == s.(sendQueue := r.st.sendQueue)
  {
  }

  /** With no failures ahead, a write on a live gateway succeeds and leaves none ahead. */
  lemma WriteSucceeds(s: Session, item: Outbound, cfg: Config)
    requires Live(s) && Failures(s.world.writes) == 0
    ensures Send(s, item, cfg) == Step(Written(s, item), Pass)
    ensures Failures(Written(s, item).world.writes) == 0
  {
  }

  /** With no failures ahead, the drain writes the whole queue front first and empties it. */
  lemma {:induction false} DrainInOrder(s: Session, cfg: Config)
    requires Live(s) && Failures(s.world.writes) == 0
    ensures var r := Drain(s, cfg);
            r.out == Pass && r.st.sendQueue == [] && r.st.world.wire == s.world.wire + s.sendQueue
            && Failures(r.st.world.writes) == 0
            && r.st == s.(sendQueue := [], world := s.world.(wire := r.st.world.wire, writes := r.st.world.writes))
    decreases |s.sendQueue|
  {
    if s.sendQueue != [] {
      var s1 := s.(sendQueue := s.sendQueue[1..]);
      WriteSucceeds(s1, s.sendQueue[0], cfg);
      var next := Written(s1, s.sendQueue[0]);
      assert Drain(s, cfg) == Drain(next, cfg);
      DrainInOrder(next, cfg);
      assert s.world.wire + [s.sendQueue[0]] + s.sendQueue[1..] == s.world.wire + s.sendQueue;
    }
  }

  /**
   * `_resume` with no failures ahead: RESUME, carrying the token, session id and sequence
   * of the session on entry, then the queue in its original order. The gateway ends live
   * with an empty queue, and `identified` is cleared exactly when the close code was
   * 4007 or 4009.
   */
  lemma ResumeWithoutFailures(s: Session, cfg: Config)
    requires s.websocket.Some? && Failures(s.world.writes) == 0
    requires SocketOpen(s) || OnlyRetriedFailures(s.world.connects)
    ensures var r := Resume(s, cfg);
            r.out == Pass && Live(r.st) && r.st.sendQueue == []
            && r.st.world.wire == s.world.wire + [ResumeOf(s)] + s.sendQueue
            && r.st.identified == (s.identified && !ForcesReidentify(s))
            && SessionDataKept(s, r.st) && r.st.beat.running == s.beat.running
            && (!SocketOpen(s) && s.world.connects != [] ==> |r.st.world.connects| < |s.world.connects|)
            && (SocketOpen(s) ==> r.st.world.connects == s.world.connects && r.st.websocket == s.websocket)
  {
    var s1 := if ForcesReidentify(s) then s.(identified := false) else s;
    if !SocketOpen(s) {
      ReconnectSucceeds(s1);
    }
    var c := Reconnect(s1);
    var s2 := c.st.(closed := false);
    WriteSucceeds(s2, ResumeOf(s), cfg);
    var sent := Written(s2, ResumeOf(s));
    DrainInOrder(sent, cfg);
    assert Resume(s, cfg) == Reopen(c.st, ResumeOf(s).f, cfg) == Drain(sent, cfg);
  }

  /**
   * A write that finds the socket closed: the serialised item is queued behind
   * everything already waiting, the gateway disconnects and resumes. With no failures
   * ahead the item is written last, after RESUME and the older queue.
   */
  lemma FailedWriteRequeues(s: Session, item: Outbound, code: int, cfg: Config)
    requires Live(s) && NextWrite(s) == Some(code)
    requires Failures(RestWrites(s)) == 0 && OnlyRetriedFailures(s.world.connects)
    ensures var r := Send(s, item, cfg);
            r.out == Pass && Live(r.st) && r.st.sendQueue == []
            && r.st.world.wire == s.world.wire + [ResumeOf(s)] + s.sendQueue + [Str(Serialise(item, cfg))]
            && r.st.identified == (s.identified && code !in ReidentifyCodes)
            && !r.st.beat.running
  {
    var s1 := WriteFailed(s, Serialise(item, cfg), code);
    var d := Disconnect(s1, NormalClosure);
    assert d.out == Pass;
    ResumeWithoutFailures(d.st, cfg);
    assert Send(s, item, cfg) == HandleClose(s1, cfg) == Resume(d.st, cfg);
    assert s.world.wire + [ResumeOf(s)] + (s.sendQueue + [Str(Serialise(item, cfg))])
        == s.world.wire + [ResumeOf(s)] + s.sendQueue + [Str(Serialise(item, cfg))];
  }

  // ---------------------------------------------------------------------------
  // Heartbeats

  /** A one-shot heartbeat on a live gateway writes `{op: 1, d: last_sequence}` and nothing else. */
  lemma OneShotHeartbeatWrites(s: Session, cfg: Config)
    requires Live(s) && NextWrite(s).None?
    ensures Heartbeat(s, true, cfg)
         == Step(Written(s.(beat := s.beat.(sent := true)), Obj(HeartbeatFrame(s.lastSequence))), Pass)
  {
  }

  /**
   * The periodic heartbeat when no ACK was ever received writes no heartbeat: the
   * gateway is closed with code 4000, the timer is stopped, and `_resume` reconnects and
   * sends RESUME and the queue.
   */
  lemma HeartbeatWithoutAck(s: Session, cfg: Config)
    requires Live(s) && !s.beat.ackSeen
    requires Failures(s.world.writes) == 0 && OnlyRetriedFailures(s.world.connects)
    ensures var r := Heartbeat(s, false, cfg);
            r.out == Pass && Live(r.st) && !r.st.beat.running
            && r.st.world.wire == s.world.wire + [ResumeOf(s)] + s.sendQueue && r.st.sendQueue == []
            && r.st.beat.sent == s.beat.sent && r.st.identified == s.identified
            && (s.world.connects != [] ==> |r.st.world.connects| < |s.world.connects|)
  {
    var d := Disconnect(s, HeartbeatFailureCode);
    assert d.st == s.(closed := true, beat := s.beat.(running := false), websocket := Some(Socket(false, Some(4000))));
    ResumeWithoutFailures(d.st, cfg);
  }

  /** A repeater tick is the periodic heartbeat; with an ACK seen it always writes op 1. */
  lemma TickAfterAck(s: Session, cfg: Config)
    requires s.beat.running && s.beat.ackSeen && Live(s) && NextWrite(s).None?
    ensures Tick(s, cfg)
         == Step(Written(s.(beat := s.beat.(sent := true)), Obj(HeartbeatFrame(s.lastSequence))), Pass)
  {
  }

  // ---------------------------------------------------------------------------
  // Inbound frames

  /** Opcodes outside the table, 7 (RECONNECT) among them, change nothing but `last_sequence`. */
  lemma UnhandledOpcodes(s: Session, f: Frame, cfg: Config)
    requires f.op !in {0, 1, 9, 10, 11}
    ensures HandleMessage(s, f, cfg) == Step(s.(lastSequence := f.s), Pass)
    ensures f.op == 7 ==> HandlerFor(f.op) == UnhandledOp
  {
  }

  /**
   * HELLO on a live gateway with no failures ahead: the interval is recorded, one
   * heartbeat carrying the frame's sequence is written, the repeater is (re)started,
   * and IDENTIFY follows exactly when the gateway was not identified.
   */
  lemma HelloHandshake(s: Session, f: Frame, cfg: Config)
    requires f.op == 10 && Lookup(f.d, "heartbeat_interval").Some? && IsNumeric(f.d.fields["heartbeat_interval"])
    requires Live(s) && Failures(s.world.writes) == 0
    ensures var r := HandleMessage(s, f, cfg);
            r.out == Pass && Live(r.st) && r.st.identified && r.st.beat.running
            && r.st.beat.intervalMs == f.d.fields["heartbeat_interval"] && r.st.beat.sent
            && r.st.world.wire == s.world.wire + [Obj(HeartbeatFrame(f.s))]
                          + (if s.identified then [] else [Obj(IdentifyFrame(s.token, cfg.intents, cfg.osName))])
            && r.st.sendQueue == s.sendQueue
            && r.st.beat.orphans == s.beat.orphans + (if s.beat.running then 1 else 0)
  {
    assert HandleMessage(s, f, cfg) == Hello(s.(lastSequence := f.s), f.d, cfg);
    HelloOnLiveGateway(s.(lastSequence := f.s), f.d, cfg);
  }

  lemma HelloOnLiveGateway(s: Session, d: Json, cfg: Config)
    requires Lookup(d, "heartbeat_interval").Some? && IsNumeric(d.fields["heartbeat_interval"])
    requires Live(s) && Failures(s.world.writes) == 0
    ensures var r := Hello(s, d, cfg);
            r.out == Pass && Live(r.st) && r.st.identified && r.st.beat.running
            && r.st.beat.intervalMs == d.fields["heartbeat_interval"] && r.st.beat.sent
            && r.st.world.wire == s.world.wire + [Obj(HeartbeatFrame(s.lastSequence))]
                          + (if s.identified then [] else [Obj(IdentifyFrame(s.token, cfg.intents, cfg.osName))])
            && r.st.sendQueue == s.sendQueue
            && r.st.beat.orphans == s.beat.orphans + (if s.beat.running then 1 else 0)
  {
    var a := AfterHelloHeartbeat(s, d.fields["heartbeat_interval"]);
    HelloStartsTimer(s, d, cfg);
    if !s.identified {
      IdentifyOnLiveGateway(a, cfg);
    }
  }

  /** The session after HELLO's heartbeat and the new repeater, before any IDENTIFY. */
  function AfterHelloHeartbeat(s: Session, v: Json): Session
  {
    Written(s, Obj(HeartbeatFrame(s.lastSequence))).(
      beat := s.beat.(intervalMs := v, sent := true, running := true,
                      orphans := s.beat.orphans + (if s.beat.running then 1 else 0)))
  }

  lemma HelloStartsTimer(s: Session, d: Json, cfg: Config)
    requires Lookup(d, "heartbeat_interval").Some? && IsNumeric(d.fields["heartbeat_interval"])
    requires Live(s) && NextWrite(s).None?
    ensures var a := AfterHelloHeartbeat(s, d.fields["heartbeat_interval"]);
            Hello(s, d, cfg) == if s.identified then Step(a, Pass) else Identify(a, cfg)
  {
    var v := d.fields["heartbeat_interval"];
    var s1 := s.(beat := s.beat.(intervalMs := v));
    OneShotHeartbeatWrites(s1, cfg);
    var hb := Heartbeat(s1, true, cfg);
    assert hb.out.Pass? && !hb.st.identified == !s.identified;
    var s2 := hb.st.(beat := hb.st.beat.(running := true,
                     orphans := hb.st.beat.orphans + (if hb.st.beat.running then 1 else 0)));
    assert s2 == AfterHelloHeartbeat(s, v);
    assert Hello(s, d, cfg) == BeginHeartbeat(s1, cfg);
  }

  /** `_identify` on a live gateway whose next write succeeds. */
  lemma IdentifyOnLiveGateway(s: Session, cfg: Config)
    requires Live(s) && NextWrite(s).None?
    ensures Identify(s, cfg)
         == Step(Written(s, Obj(IdentifyFrame(s.token, cfg.intents, cfg.osName))).(identified := true), Pass)
  {
  }

  /** READY records the session id and stores the whole payload in the cache. */
  lemma ReadyRecordsSession(s: Session, f: Frame, cfg: Config)
    requires f.op == 0 && f.t == Some("READY") && Lookup(f.d, "session_id").Some?
    ensures HandleMessage(s, f, cfg)
         == Step(s.(lastSequence := f.s, sessionId := f.d.fields["session_id"],
                    world := s.world.(cache := s.world.cache + f.d.fields)), Pass)
  {
  }

  /** MESSAGE_CREATE hands its payload, unchanged, to the event sink. */
  lemma MessageCreateDelivers(s: Session, f: Frame, cfg: Config)
    requires f.op == 0 && f.t == Some("MESSAGE_CREATE")
    ensures HandleMessage(s, f, cfg)
         == Step(s.(lastSequence := f.s, world := s.world.(delivered := s.world.delivered + [f.d])), Pass)
  {
  }

  /** A resumable INVALID SESSION writes IDENTIFY and marks the gateway identified. */
  lemma ResumableInvalidSession(s: Session, f: Frame, cfg: Config)
    requires f.op == 9 && Truthy(f.d) && Live(s) && NextWrite(s).None?
    ensures HandleMessage(s, f, cfg)
         == Step(Written(s.(lastSequence := f.s), Obj(IdentifyFrame(s.token, cfg.intents, cfg.osName))).(identified := true), Pass)
  {
  }

  /**
   * A non-resumable INVALID SESSION raises `ConnectionError`, an `OSError`, which the run
   * loop catches: the gateway is closed with the normal code and resumes, sending RESUME
   * with the session id it was just told is invalid.
   */
  lemma InvalidSessionResumes(s: Session, f: Frame, cfg: Config)
    requires f.op == 9 && !Truthy(f.d) && Live(s)
    requires Failures(s.world.writes) == 0 && OnlyRetriedFailures(s.world.connects)
    ensures var r := RunStep(s, Received(f), cfg);
            r.out == Pass && Live(r.st) && r.st.sendQueue == [] && r.st.identified == s.identified
            && r.st.world.wire == s.world.wire + [Obj(ResumeFrame(s.token, s.sessionId, f.s))] + s.sendQueue
  {
    var s1 := s.(lastSequence := f.s);
    assert HandleMessage(s, f, cfg) == Step(s1, Fail(InvalidSession));
    var d := Disconnect(s1, NormalClosure);
    assert d.st.websocket == Some(Socket(false, Some(1000)));
    ResumeWithoutFailures(d.st, cfg);
  }

  /**
   * The peer closes the connection: the gateway disconnects and resumes; a close code
   * of 4007 or 4009 clears `identified`, any other code keeps it.
   */
  lemma PeerCloseResumes(s: Session, code: int, cfg: Config)
    requires Live(s) && Failures(s.world.writes) == 0 && OnlyRetriedFailures(s.world.connects)
    ensures var r := RunStep(s, PeerClosed(code), cfg);
            r.out == Pass && Live(r.st) && r.st.sendQueue == [] && !r.st.beat.running
            && r.st.identified == (s.identified && code != 4007 && code != 4009)
            && r.st.world.wire == s.world.wire + [ResumeOf(s)] + s.sendQueue
  {
    var s1 := s.(websocket := Some(Socket(false, Some(code))));
    var d := Disconnect(s1, NormalClosure);
    assert d.st == s1.(closed := true, beat := s1.beat.(running := false));
    ResumeWithoutFailures(d.st, cfg);
  }

  /**
   * An explicit `disconnect` made while the run loop waits in `recv` does not end the
   * session: the close makes `recv` raise `ConnectionClosed`, which the loop hands to
   * `_handle_close_event`, and that resumes whether or not the gateway is closed.
   * A disconnect made while the loop is inside a handler, or after it has ended, does.
   */
  lemma DisconnectIsNotTerminal(s: Session, code: int, cfg: Config)
    requires Live(s) && ValidCloseCode(code)
    requires Failures(s.world.writes) == 0 && OnlyRetriedFailures(s.world.connects)
    ensures var d := Disconnect(s, code);
            d.out == Pass && d.st.closed && !SocketOpen(d.st)
    ensures var r := HandleClose(Disconnect(s, code).st, cfg);
            r.out == Pass && Live(r.st) && r.st.sendQueue == [] && !r.st.beat.running
            && r.st.identified == (s.identified && code !in ReidentifyCodes)
            && r.st.world.wire == s.world.wire + [ResumeOf(s)] + s.sendQueue
  {
    var d := Disconnect(s, code);
    assert d.st == s.(closed := true, beat := s.beat.(running := false),
                      websocket := Some(Socket(false, Some(code))));
    ResumeWithoutFailures(d.st, cfg);
  }

  /** HEARTBEAT REQUEST (opcode 1) on a live gateway writes one heartbeat carrying the frame's sequence. */
  lemma HeartbeatRequestWrites(s: Session, f: Frame, cfg: Config)
    requires f.op == 1 && Live(s) && NextWrite(s).None?
    ensures HandleMessage(s, f, cfg)
         == Step(Written(s.(lastSequence := f.s, beat := s.beat.(sent := true)), Obj(HeartbeatFrame(f.s))), Pass)
  {
    OneShotHeartbeatWrites(s.(lastSequence := f.s), cfg);
  }

  /**
   * HEARTBEAT ACK (opcode 11) records the ACK and changes nothing else. Before any
   * heartbeat was sent, the latency `last_heartbeat_ack - None` raises `TypeError`.
   */
  lemma HeartbeatAckRecorded(s: Session, f: Frame, cfg: Config)
    requires f.op == 11
    ensures HandleMessage(s, f, cfg)
         == Step(s.(lastSequence := f.s, beat := s.beat.(ackSeen := true)),
                 if s.beat.sent then Pass else Fail(NoHeartbeatSent))
  {
  }

  /** An ACK that arrives before any heartbeat ends the run loop: its `TypeError` is not caught. */
  lemma EarlyAckEndsLoop(s: Session, f: Frame, rest: seq<Inbound>, cfg: Config)
    requires Live(s) && f.op == 11 && !s.beat.sent
    ensures Loop(s, [Received(f)] + rest, cfg)
         == Step(s.(lastSequence := f.s, beat := s.beat.(ackSeen := true)), Fail(NoHeartbeatSent))
  {
    HeartbeatAckRecorded(s, f, cfg);
    assert ([Received(f)] + rest)[0] == Received(f);
  }

  /** The ACK is what arms the periodic heartbeat: after it, a tick writes a heartbeat. */
  lemma AckArmsTick(s: Session, f: Frame, cfg: Config)
    requires f.op == 11 && s.beat.sent && s.beat.running && Live(s) && NextWrite(s).None?
    ensures var a := HandleMessage(s, f, cfg);
            a.out == Pass && Tick(a.st, cfg) == Step(Written(a.st, Obj(HeartbeatFrame(f.s))), Pass)
  {
    HeartbeatAckRecorded(s, f, cfg);
    var a := HandleMessage(s, f, cfg).st;
    TickAfterAck(a, cfg);
    assert a.(beat := a.beat.(sent := true)) == a;
  }

  /** A MESSAGE_CREATE dispatch. */
  predicate IsMessageCreate(ev: Inbound)
    ensures IsMessageCreate(ev) ==> ev.Received?
  {
    ev.Received? && ev.f.op == 0 && ev.f.t == Some("MESSAGE_CREATE")
  }

  function Payloads(events: seq<Inbound>): seq<Json>
    requires forall i :: 0 <= i < |events| ==> IsMessageCreate(events[i])
  {
    if events == [] then []
    else
      assert IsMessageCreate(events[0]);
      [events[0].f.d] + Payloads(events[1..])
  }

  /**
   * The run loop hands MESSAGE_CREATE payloads to the event sink one by one, in the
   * order they arrive, and keeps the gateway live.
   */
  lemma {:induction false} MessagesDeliveredInOrder(s: Session, events: seq<Inbound>, cfg: Config)
    requires Live(s) && forall i :: 0 <= i < |events| ==> IsMessageCreate(events[i])
    ensures var r := Loop(s, events, cfg);
            r.out == Pass && Live(r.st) && r.st.world.delivered == s.world.delivered + Payloads(events)
            && r.st.world.wire == s.world.wire && r.st.sendQueue == s.sendQueue
    decreases |events|
  {
    if events != [] {
      var r1 := RunStep(s, events[0], cfg);
      assert r1.st == s.(lastSequence := events[0].f.s,
                         world := s.world.(delivered := s.world.delivered + [events[0].f.d]));
      assert forall i :: 0 <= i < |events[1..]| ==> events[1..][i] == events[i + 1];
      MessagesDeliveredInOrder(r1.st, events[1..], cfg);
      assert s.world.delivered + [events[0].f.d] + Payloads(events[1..]) == s.world.delivered + Payloads(events);
    }
  }

  // ---------------------------------------------------------------------------
  // Start-up

  /** From the initial state, `start` connects with the token and the versioned URL, and the run loop opens the gateway. */
  lemma StartFromInitial(cache: map<string, Json>, writes: seq<Option<int>>, token: string, url: string, cfg: Config)
    ensures var r := Start(Initial(cache, writes, [Connected]), token, url);
            r.out == Pass && r.st.token == JStr(token) && r.st.gatewayUrl == Some(url + "/?v=8&encoding=json")
            && Live(RunLoop(r.st, [], cfg).st)
  {
  }
}
