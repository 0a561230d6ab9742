/**
 * Four places where gateway.py, as written, does something its authors evidently did
 * not intend. Each is modelled here as written, with a lemma that exhibits the
 * behaviour; the reference model in gateway_spec.dfy uses the intended behaviour.
 *
 * - Line 166 calls `_handle_close_event()` without its required `error` argument:
 *   `SendAsWritten`, `MissingArgumentStrands`.
 * - Lines 167-168 index the item as a dict and look its opcode up in the name table
 *   after every write: `SendLogLine`, `ResentStringRaises`.
 * - Line 224 passes `'123'` to `disconnect`, a close code the socket library refuses:
 *   `HeartbeatAsWritten`.
 * - Lines 307-308 hand the gateway itself to the repeater as an extra argument, so
 *   every periodic call receives a truthy `onetime`: `TickAsWritten`.
 */
module GatewayFindings {
  import opened Wrappers
  import opened Json
  import opened Decimal
  import opened GatewayProtocol
  import opened GatewaySpec
  import opened GatewayProperties

  /** The debug line after a write: `data["op"]` and `self.opcodes[data["op"]]`. */
  function SendLogLine(item: Outbound): (r: Result<string, Error>)
    ensures r.Err? <==> item.Str? || item.f.op !in OpcodeNames
    ensures item.Str? ==> r == Err(NotSubscriptable)
    ensures r.Ok? ==> r.value == "SENT: op[" + IntToString(item.f.op) + "] (" + OpcodeNames[item.f.op] + ")"
  {
    match item
    case Str(_) => Err(NotSubscriptable)
    case Obj(f) =>
      if f.op in OpcodeNames then Ok("SENT: op[" + IntToString(f.op) + "] (" + OpcodeNames[f.op] + ")")
      else Err(UnknownOpcodeName)
  }

  /**
   * `send` as written. A failed write queues the text and then raises `TypeError` at the
   * call of `_handle_close_event`, so nothing disconnects or resumes; a successful
   * write is followed by the log line, which raises for a re-sent string.
   */
  function SendAsWritten(s: Session, item: Outbound, cfg: Config): (r: Step)
    ensures !Live(s) ==> r == Send(s, item, cfg)
    ensures Live(s) && NextWrite(s).Some? ==> r.out == Fail(MissingArgument) && !Live(r.st) && !r.st.closed
    ensures Live(s) && NextWrite(s).None? ==> r.st == Send(s, item, cfg).st
    ensures r.out.Fail? ==> r.st.world.connects == s.world.connects
  {
    if !Live(s) then Step(s.(sendQueue := s.sendQueue + [item]), Pass)
    else
      match NextWrite(s)
      case None =>
        (match SendLogLine(item)
         case Ok(_) => Step(Written(s, item), Pass)
         case Err(e) => Step(Written(s, item), Fail(e)))
      case Some(code) => Step(WriteFailed(s, Serialise(item, cfg), code), Fail(MissingArgument))
  }

  /**
   * As written, a failed write leaves the gateway stranded: not closed, its socket
   * closed, the item queued, no reconnection attempted, and the caller gets a
   * `TypeError`. Every later `send` only queues. When the failing `send` came from the
   * run loop's own handler, that error ends the loop, and nothing resumes the gateway.
   */
  lemma MissingArgumentStrands(s: Session, item: Outbound, code: int, cfg: Config, later: Outbound)
    requires Live(s) && NextWrite(s) == Some(code)
    ensures var r := SendAsWritten(s, item, cfg);
            r.out == Fail(MissingArgument) && !r.st.closed && !SocketOpen(r.st)
            && r.st.sendQueue == s.sendQueue + [Str(Serialise(item, cfg))]
            && r.st.world.wire == s.world.wire && r.st.world.connects == s.world.connects
            && SendAsWritten(r.st, later, cfg).st.world.wire == s.world.wire
  {
  }

  /** As written, re-sending a queued string writes it and then raises, ending the caller's loop. */
  lemma ResentStringRaises(s: Session, text: string, cfg: Config)
    requires Live(s) && NextWrite(s).None?
    ensures SendAsWritten(s, Str(text), cfg)
         == Step(Written(s, Str(text)), Fail(NotSubscriptable))
    ensures Send(s, Str(text), cfg).out == Pass
  {
  }

  /**
   * `_heartbeat` as written, with `'123'` as the close code when no ACK was received.
   * That branch is reachable only by a direct `_heartbeat()` call, or once the repeater
   * of lines 307-308 passes a false `onetime`: every call in gateway.py passes a truthy one.
   * Outside that branch it behaves as the corrected heartbeat.
   */
  function HeartbeatAsWritten(s: Session, onetime: bool, cfg: Config): (r: Step)
    ensures onetime || s.beat.ackSeen ==> r == Heartbeat(s, onetime, cfg)
  {
    HeartbeatWith(s, onetime, AsWrittenNoAckCode, cfg)
  }

  /**
   * Because the library refuses 123, the no-ACK branch as written never closes the
   * socket and never attempts a connection, even when the gateway is already closed.
   */
  lemma NoAckKeepsSocket(s: Session, cfg: Config)
    requires !s.beat.ackSeen && SocketOpen(s) && Failures(s.world.writes) == 0
    ensures var r := HeartbeatAsWritten(s, false, cfg);
            r.out == Pass && r.st.websocket == s.websocket && r.st.world.connects == s.world.connects
  {
    ResumeWithoutFailures(Disconnect(s, AsWrittenNoAckCode).st, cfg);
  }

  /**
   * As written, the socket library refuses code 123, so the connection the missing ACK
   * condemned is never closed: `_resume` finds the socket open, makes no connection
   * attempt and sends RESUME and the queue over that same connection.
   */
  lemma NoAckCloseCodeRefused(s: Session, cfg: Config)
    requires Live(s) && !s.beat.ackSeen && Failures(s.world.writes) == 0
    ensures !ValidCloseCode(AsWrittenNoAckCode) && ValidCloseCode(HeartbeatFailureCode)
    ensures var r := HeartbeatAsWritten(s, false, cfg);
            r.out == Pass && Live(r.st) && r.st.websocket == s.websocket
            && r.st.world.connects == s.world.connects
            && r.st.world.wire == s.world.wire + [ResumeOf(s)] + s.sendQueue
  {
    var d := Disconnect(s, AsWrittenNoAckCode);
    assert d.st == s.(closed := true, beat := s.beat.(running := false));
    ResumeWithoutFailures(d.st, cfg);
  }

  /**
   * A repeater as written: `RepeatedTimer(interval, self._heartbeat, self, ...)` calls
   * the bound method with the gateway as `onetime`, and a `Gateway` is truthy.
   */
  function TickAsWritten(s: Session, cfg: Config): (r: Step)
    ensures !s.beat.running && s.beat.orphans == 0 ==> r == Step(s, Pass)
    ensures s.beat.running || s.beat.orphans > 0 ==> r.st.beat.sent
  {
    var gatewayIsTruthy := true;
    if s.beat.running || s.beat.orphans > 0 then HeartbeatAsWritten(s, gatewayIsTruthy, cfg) else Step(s, Pass)
  }

  /**
   * As written, the timer never notices a missing ACK: it writes a heartbeat on every
   * tick, where the intended periodic call reconnects instead.
   */
  lemma TimerNeverChecksAck(s: Session, cfg: Config)
    requires s.beat.running && !s.beat.ackSeen && Live(s)
    requires Failures(s.world.writes) == 0 && OnlyRetriedFailures(s.world.connects)
    ensures TickAsWritten(s, cfg)
         == Step(Written(s.(beat := s.beat.(sent := true)), Obj(HeartbeatFrame(s.lastSequence))), Pass)
    ensures Tick(s, cfg).st.world.wire == s.world.wire + [ResumeOf(s)] + s.sendQueue
  {
    OneShotHeartbeatWrites(s, cfg);
    HeartbeatWithoutAck(s, cfg);
  }
}
