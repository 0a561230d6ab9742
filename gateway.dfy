/**
 * The `Gateway` class of gateway.py, with its fields updated in place. Every method is
 * proved to leave the object in the state, and to return the outcome, that the
 * reference model in gateway_spec.dfy gives for the state it started from; what the
 * source promises is proved about that model in gateway_properties.dfy.
 *
 * The heartbeat fields of `__init__` are kept together in `beat`, and `_websocket` is
 * `None` or a socket that is open or closed with a code. `world` stands for what lies
 * outside the object: the frames written, the cache, the event sink, and the scripts
 * that say how the network answers the next writes and connection attempts.
 */
module GatewayClient {
  import opened Wrappers
  import opened Json
  import opened GatewayProtocol
  import GS = GatewaySpec

  class Gateway {
    var closed: bool
    var identified: bool
    var token: Json
    var gatewayUrl: Option<string>
    var sessionId: Json
    var lastSequence: Option<int>
    var beat: GS.Beat
    var sendQueue: seq<Outbound>
    var websocket: Option<GS.Socket>
    var world: GS.World

    /** `json.dumps` of a frame, `platform.system()`, and `gateway_intents`. */
    const encode: Frame -> string
    const osName: string
    const gatewayIntents: nat

    ghost function State(): GS.Session
      reads this
    {
      GS.Session(closed, identified, token, gatewayUrl, sessionId, lastSequence, beat, sendQueue, websocket, world)
    }

    function Cfg(): GS.Config
    {
      GS.Config(encode, osName, gatewayIntents)
    }

    /** `__init__`: closed, not identified, no session, no socket, nothing queued. */
    constructor (cache: map<string, Json>, writes: seq<Option<int>>, connects: seq<ConnectResult>,
                 encode: Frame -> string, osName: string)
      ensures State() == GS.Initial(cache, writes, connects)
      ensures Cfg() == GS.Config(encode, osName, AllIntents())
    {
      closed, identified := true, false;
      token, gatewayUrl, sessionId, lastSequence := JNull, None, JNull, None;
      beat := GS.Beat(JNull, false, false, false, 0);
      sendQueue, websocket := [], None;
      world := GS.World([], cache, [], writes, connects);
      this.encode, this.osName, gatewayIntents := encode, osName, AllIntents();
    }

    /** Consumes the outcome of the next write. */
    method NextWrite() returns (result: Option<int>)
      modifies this`world
      ensures result == GS.NextWrite(old(State()))
      ensures world == old(world).(writes := GS.RestWrites(old(State())))
    {
      if world.writes == [] {
        result := None;
      } else {
        result := world.writes[0];
        world := world.(writes := world.writes[1..]);
      }
    }

    /** Consumes the outcome of the next connection attempt. */
    method NextConnect() returns (result: ConnectResult)
      modifies this`world
      ensures result == GS.NextConnect(old(State()))
      ensures world == old(world).(connects := GS.RestConnects(old(State())))
    {
      if world.connects == [] {
        result := Connected;
      } else {
        result := world.connects[0];
        world := world.(connects := world.connects[1..]);
      }
    }

    method Start(token: string, url: string) returns (out: Outcome<Error>)
      modifies this
      ensures GS.Step(State(), out) == GS.Start(old(State()), token, url)
    {
      if !closed {
        return Pass;
      }
      this.token := JStr(token);
      gatewayUrl := Some(url + UrlSuffix());
      var attempt := NextConnect();
      match attempt
      case Connected =>
        websocket := Some(GS.Socket(true, None));
        out := Pass;
      case Unresolved => out := Fail(DnsFailure);
      case Refused => out := Fail(ConnectRefused);
      case Rejected => out := Fail(HandshakeRejected);
    }

    /** `_runloop`, receiving `events` in turn. */
    method RunLoop(events: seq<GS.Inbound>) returns (out: Outcome<Error>)
      modifies this
      ensures GS.Step(State(), out) == GS.RunLoop(old(State()), events, Cfg())
    {
      closed := false;
      var i := 0;
      while i < |events| && websocket.Some? && websocket.value.open && !closed
        invariant 0 <= i <= |events|
        invariant GS.Loop(State(), events[i..], Cfg()) == GS.RunLoop(old(State()), events, Cfg())
        decreases |events| - i
      {
        out := RunStep(events[i]);
        if out.Fail? {
          return;
        }
        i := i + 1;
      }
      if websocket.None? {
        return Fail(NoSocket);
      }
      out := Pass;
    }

    /** One iteration of the run loop's body. */
    method RunStep(ev: GS.Inbound) returns (out: Outcome<Error>)
      requires GS.Live(State())
      modifies this
      ensures GS.Step(State(), out) == GS.RunStep(old(State()), ev, Cfg())
    {
      match ev
      case PeerClosed(code) =>
        websocket := Some(GS.Socket(false, Some(code)));
        out := HandleCloseEvent();
      case Received(f) =>
        out := HandleMessage(f);
        if out.Fail? && IsOSError(out.error) {
          out := HandleCloseEvent();
        }
    }

    method Send(item: Outbound) returns (out: Outcome<Error>)
      modifies this
      ensures GS.Step(State(), out) == GS.Send(old(State()), item, Cfg())
      decreases GS.Failures(world.writes), 0, 0
    {
      if closed || websocket.None? || !websocket.value.open {
        sendQueue := sendQueue + [item];
        return Pass;
      }
      ghost var s0 := State();
      var text := match item case Str(t) => t case Obj(f) => encode(f);
      var result := NextWrite();
      match result
      case None =>
        world := world.(wire := world.wire + [item]);
        out := Pass;
      case Some(code) =>
        assert GS.Failures(world.writes) < GS.Failures(s0.world.writes);
        out := WriteFailed(text, code);
    }

    /** A write found the socket closed: the text is queued and `_handle_close_event` runs. */
    method WriteFailed(text: string, code: int) returns (out: Outcome<Error>)
      modifies this
      ensures GS.Step(State(), out)
           == GS.HandleClose(old(State()).(websocket := Some(GS.Socket(false, Some(code))),
                                           sendQueue := old(sendQueue) + [Str(text)]), Cfg())
      decreases GS.Failures(world.writes), 5, 0
    {
      websocket := Some(GS.Socket(false, Some(code)));
      sendQueue := sendQueue + [Str(text)];
      out := HandleCloseEvent();
    }

    method Disconnect(code: int) returns (out: Outcome<Error>)
      modifies this
      ensures GS.Step(State(), out) == GS.Disconnect(old(State()), code)
    {
      closed := true;
      beat := beat.(running := false);
      if websocket.None? {
        return Fail(NoSocket);
      }
      if websocket.value.open {
        if !ValidCloseCode(code) {
          return Fail(InvalidCloseCode);
        }
        websocket := Some(GS.Socket(false, Some(code)));
      }
      out := Pass;
    }

    method HandleCloseEvent() returns (out: Outcome<Error>)
      modifies this
      ensures GS.Step(State(), out) == GS.HandleClose(old(State()), Cfg())
      decreases GS.Failures(world.writes), 4, 0
    {
      if !closed {
        out := Disconnect(NormalClosure);
        if out.Fail? {
          return;
        }
      }
      out := Resume();
    }

    method Resume() returns (out: Outcome<Error>)
      modifies this
      ensures GS.Step(State(), out) == GS.Resume(old(State()), Cfg())
      decreases GS.Failures(world.writes), 3, 1
    {
      if websocket.None? {
        return Fail(NoSocket);
      }
      var packet := ResumeFrame(token, sessionId, lastSequence);
      var code := websocket.value.closeCode;
      if code.Some? && code.value in ReidentifyCodes {
        identified := false;
      }
      out := ReconnectAndReopen(packet);
    }

    /** `_resume` once the RESUME frame is built: reconnect, then reopen and drain. */
    method ReconnectAndReopen(packet: Frame) returns (out: Outcome<Error>)
      requires websocket.Some?
      modifies this
      ensures var c := GS.Reconnect(old(State()));
              GS.Step(State(), out) == if c.out.Fail? then c else GS.Reopen(c.st, packet, Cfg())
      decreases GS.Failures(world.writes), 3, 0
    {
      out := Reconnect();
      if out.Fail? {
        return;
      }
      out := Reopen(packet);
    }

    /** The loop `while self._websocket.closed` of `_resume`. */
    method Reconnect() returns (out: Outcome<Error>)
      requires websocket.Some?
      modifies this
      ensures GS.Step(State(), out) == GS.Reconnect(old(State()))
    {
      while !websocket.value.open
        invariant websocket.Some?
        invariant GS.Reconnect(State()) == GS.Reconnect(old(State()))
        decreases |world.connects| + (if websocket.value.open then 0 else 1)
      {
        ghost var before := State();
        var attempt := NextConnect();
        match attempt
        case Connected =>
          websocket := Some(GS.Socket(true, None));
          assert GS.Reconnect(before) == GS.Step(State(), Pass);
        case Unresolved =>
          assert GS.Reconnect(before) == GS.Reconnect(State());
        case Refused =>
          assert GS.Reconnect(before) == GS.Step(State(), Fail(ConnectRefused));
          return Fail(ConnectRefused);
        case Rejected =>
          assert GS.Reconnect(before) == GS.Step(State(), Fail(HandshakeRejected));
          return Fail(HandshakeRejected);
      }
      out := Pass;
    }

    /** The tail of `_resume`: reopen, send RESUME, then drain the queue front first. */
    method Reopen(packet: Frame) returns (out: Outcome<Error>)
      requires websocket.Some? && websocket.value.open
      modifies this
      ensures GS.Step(State(), out) == GS.Reopen(old(State()), packet, Cfg())
      decreases GS.Failures(world.writes), 2, 0
    {
      ghost var s0 := State();
      closed := false;
      out := Send(Obj(packet));
      if out.Fail? {
        return;
      }
      assert GS.Reopen(s0, packet, Cfg()) == GS.Drain(State(), Cfg());
      out := DrainQueue();
    }

    /** `while self.send_queue: await self.send(self.send_queue.pop(0))`. */
    method DrainQueue() returns (out: Outcome<Error>)
      requires GS.Live(State())
      modifies this
      ensures GS.Step(State(), out) == GS.Drain(old(State()), Cfg())
      decreases GS.Failures(world.writes), 1, 0
    {
      while sendQueue != []
        invariant GS.Live(State())
        invariant GS.Drain(State(), Cfg()) == GS.Drain(old(State()), Cfg())
        invariant GS.Failures(world.writes) <= GS.Failures(old(world.writes))
        decreases GS.Failures(world.writes), |sendQueue|
      {
        ghost var before := State();
        var item := sendQueue[0];
        sendQueue := sendQueue[1..];
        out := Send(item);
        assert GS.Drain(before, Cfg()) == if out.Fail? then GS.Step(State(), out) else GS.Drain(State(), Cfg());
        if out.Fail? {
          return;
        }
      }
      out := Pass;
    }

    /** `_heartbeat(onetime)`. */
    method Heartbeat(onetime: bool) returns (out: Outcome<Error>)
      modifies this
      ensures GS.Step(State(), out) == GS.Heartbeat(old(State()), onetime, Cfg())
    {
      if !onetime && !beat.ackSeen {
        var closing := Disconnect(HeartbeatFailureCode);
        var resuming := Resume();
        return Pass;
      }
      beat := beat.(sent := true);
      out := Send(Obj(HeartbeatFrame(lastSequence)));
    }

    /** A repeater fires. */
    method Tick() returns (out: Outcome<Error>)
      modifies this
      ensures GS.Step(State(), out) == GS.Tick(old(State()), Cfg())
    {
      if beat.running || beat.orphans > 0 {
        out := Heartbeat(false);
      } else {
        out := Pass;
      }
    }

    method Identify() returns (out: Outcome<Error>)
      modifies this
      ensures GS.Step(State(), out) == GS.Identify(old(State()), Cfg())
    {
      out := Send(Obj(IdentifyFrame(token, gatewayIntents, osName)));
      if out.Pass? {
        identified := true;
      }
    }

    method HandleMessage(f: Frame) returns (out: Outcome<Error>)
      modifies this
      ensures GS.Step(State(), out) == GS.HandleMessage(old(State()), f, Cfg())
    {
      lastSequence := f.s;
      match HandlerFor(f.op)
      case DispatchOp =>
        out := HandleEvent(f);
      case HeartbeatRequestOp =>
        out := Heartbeat(true);
      case InvalidSessionOp =>
        if Truthy(f.d) {
          out := Identify();
        } else {
          out := Fail(InvalidSession);
        }
      case HelloOp =>
        out := HandleHello(f.d);
      case HeartbeatAckOp =>
        beat := beat.(ackSeen := true);
        out := if beat.sent then Pass else Fail(NoHeartbeatSent);
      case UnhandledOp =>
        out := Pass;
    }

    /** The HELLO handler. */
    method HandleHello(d: Json) returns (out: Outcome<Error>)
      modifies this
      ensures GS.Step(State(), out) == GS.Hello(old(State()), d, Cfg())
    {
      var interval := Lookup(d, "heartbeat_interval");
      if interval.None? {
        return Fail(MalformedPayload);
      }
      beat := beat.(intervalMs := interval.value);
      if !IsNumeric(interval.value) {
        return Fail(MalformedPayload);
      }
      out := BeginHeartbeat();
    }

    /** HELLO once the interval is recorded: one heartbeat, then the repeater. */
    method BeginHeartbeat() returns (out: Outcome<Error>)
      modifies this
      ensures GS.Step(State(), out) == GS.BeginHeartbeat(old(State()), Cfg())
    {
      out := Heartbeat(true);
      if out.Fail? {
        return;
      }
      out := StartRepeater();
    }

    /** `RepeatedTimer(...)` and `start()`, then `_identify` unless identified. */
    method StartRepeater() returns (out: Outcome<Error>)
      modifies this
      ensures GS.Step(State(), out) == GS.StartRepeater(old(State()), Cfg())
    {
      beat := beat.(running := true, orphans := beat.orphans + (if beat.running then 1 else 0));
      if identified {
        return Pass;
      }
      out := Identify();
    }

    method HandleEvent(f: Frame) returns (out: Outcome<Error>)
      modifies this
      ensures GS.Step(State(), out) == GS.HandleEvent(old(State()), f)
    {
      match EventHandlerFor(f.t)
      case ReadyEvent =>
        var id := Lookup(f.d, "session_id");
        if id.None? {
          return Fail(MalformedPayload);
        }
        sessionId := id.value;
        world := world.(cache := world.cache + f.d.fields);
        out := Pass;
      case ResumedEvent =>
        out := Pass;
      case MessageCreateEvent =>
        world := world.(delivered := world.delivered + [f.d]);
        out := Pass;
      case UnknownEvent =>
        out := Pass;
    }

    /** The handler for opcode 7, which the opcode table does not reach. */
    method HandleReconnectRequest() returns (out: Outcome<Error>)
      modifies this
      ensures GS.Step(State(), out) == GS.ReconnectRequest(old(State()), Cfg())
    {
      out := Disconnect(NormalClosure);
      if out.Fail? {
        return;
      }
      identified := false;
      out := Resume();
    }
  }
}
