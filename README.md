# Entropy-API gateway, modelled in Dafny

This project models the core of Entropy-API, a small Python client for the Discord
API:

- **The gateway session state machine.** This is the `Gateway` class of
  `entropyapi/gateway.py`. It starts a session and sends frames, queueing them while
  the connection is down. It disconnects, and it resumes after a close: reconnect,
  RESUME, then drain the queue. It heartbeats, identifies, and routes inbound frames
  by opcode and by event name.
- **`fmt_time`** from `entropyapi/utils.py`. It writes a `timedelta` as
  `d:h:m:s:ms` and leaves out every zero field.
- **Request preparation in `HTTPClient.request`** from `entropyapi/httpclient.py`.
  This covers the method check, the body serialisation, the `Content-Type` and
  `Content-Length` defaults on the caller's header dictionary, and the status
  description with its `"???"` default.

The gateway is modelled twice:

- `gateway_spec.dfy` is a functional reference model. A `Session` value holds every
  field the class uses, together with the world around it:
  - the frames written to the socket (`wire`);
  - the cache behind `cache_set_dict`;
  - the payloads handed to `Gateway_Events.message_create` (`delivered`);
  - two scripts for the network's next answers. A write either succeeds or finds the
    socket closed with a given code. A connection attempt either connects, fails to
    resolve the host (`gaierror`, which `_resume` retries), fails with another
    `OSError`, or is rejected.
- `gateway.dfy` is the class `GatewayClient.Gateway`. Its fields are updated in place
  and its methods follow the Python methods statement by statement. Each method is
  proved to leave the object in the state the reference model gives, and to return
  the same outcome.

Each operation either completes or raises. The model represents this as
`Outcome<Error>`: `Pass`, or `Fail(e)` naming the Python exception.

The properties the source promises are proved about the reference model:

- in `gateway_properties.dfy`, the send, drain and resume order, the heartbeat and
  HELLO handshake, frame routing, and start-up;
- in `gateway_protocol.dfy`, the intents table;
- in `gateway_findings.dfy`, four places where the code as written departs from what
  it evidently intends.

Some constants are fixed here:

- The socket library accepts close codes 1000-1003 and 1007-1011, and 3000-4999.
  These are the codes that RFC 6455 section 7.4.1 lets an endpoint send, plus the
  registered and private range.
- `_heartbeat` closes with code `'123'`, which the library refuses. The corrected
  model uses 4000 in its place.

Several behaviours follow the code rather than the description of the system:

- A write that fails puts its item at the back of the queue, behind older items.
- No close code is treated as fatal.
- `identified` becomes true once the `send` of IDENTIFY returns, even when the frame was
  only queued, and not when READY arrives.
- RESUME is sent even when no session id was ever received.
- Every frame sets `last_sequence` to its `s`, null included. HELLO and HEARTBEAT ACK
  carry no `s`, so a sequence already seen is forgotten at the next HELLO or ACK, and
  later heartbeats and RESUME carry null (`GatewayProperties.HeartbeatAckRecorded`,
  `GatewayProperties.UnhandledOpcodes`).
- Close codes 4007 and 4009 only clear `identified`. The gateway still sends RESUME with
  the old `session_id` and `seq` rather than a fresh IDENTIFY, and `session_id` is never
  cleared.
- An explicit `disconnect` made while the run loop waits in `recv` does not end the
  session. The close makes `recv` raise `ConnectionClosed`, which the loop hands to
  `_handle_close_event`. That handler skips its own disconnect for a closed gateway but
  resumes unconditionally, so the gateway reconnects and sends RESUME and the queue
  (`GatewayProperties.DisconnectIsNotTerminal`). Otherwise the disconnect ends the
  session: when the loop was inside a handler, the `while` test at line 136 fails once the
  handler returns, and when the loop had already ended, nothing is listening.
- The opcode 7 handler exists but is not in the opcode table. As a result, RECONNECT
  reaches only the unhandled branch. The handler itself is modelled as
  `GatewaySpec.ReconnectRequest`.

## Model

| member | source | states |
|---|---|---|
| `GatewayProtocol.HandlerFor` | entropyapi/gateway.py:323-331 | opcodes 0, 1, 9, 10 and 11 each reach their own handler, and every other opcode reaches `op_unhandled` |
| `GatewayProtocol.EventHandlerFor` | entropyapi/gateway.py:361-367 | READY, RESUMED and MESSAGE_CREATE each reach their own handler; any other name, or a null name, reaches `unknown_t` |
| `GatewayProtocol.IntentValuesArePowers` | entropyapi/gateway.py:63-79 | the intents table has fifteen entries, and the k-th one is `1 << k` |
| `GatewayProtocol.IntentsDistinct` | entropyapi/gateway.py:63-79 | no two intents share a name or a bit |
| `GatewayProtocol.SumOfConsecutivePowers` | entropyapi/gateway.py:80 | values `1 << base` to `1 << (base+n-1)` add up to `(1 << (base+n)) - (1 << base)` |
| `GatewayProtocol.AllIntentsValue` | entropyapi/gateway.py:80 | `intents['ALL']`, the sum of the table, is `2^15 - 1 = 32767` |
| `GatewayProtocol.UrlSuffix` | entropyapi/gateway.py:126 | the suffix `start` appends, with `API_VERSION` 8 and the json encoding, is `/?v=8&encoding=json` |
| `GatewayProtocol.HeartbeatFrame` | entropyapi/gateway.py:228-231 | a heartbeat is opcode 1, and its `d` is `last_sequence`: null exactly when the last frame received carried no `s`, and that frame's `s` otherwise |
| `GatewayProtocol.IdentifyFrame` | entropyapi/gateway.py:237-248 | IDENTIFY is opcode 2; its payload holds exactly `token`, `intents` and `properties`, carrying the token and the intents, and `properties` holds exactly `$os` (the OS name), `$browser` and `$device` (both `"entropy"`) |
| `GatewayProtocol.ResumeFrame` | entropyapi/gateway.py:188-195 | RESUME is opcode 6; its payload holds exactly `token`, `session_id` and `seq`, carrying the token, the session id and `last_sequence`, which is null exactly when the last frame received carried no `s` |
| `GatewaySpec.Initial` | entropyapi/gateway.py:91-113 | a new gateway is closed and not identified, with no token, URL, session id, socket, sequence, heartbeat sent, ACK, running or orphaned repeater, and an empty queue, wire and delivery log |
| `GatewaySpec.Disconnect` | entropyapi/gateway.py:170-182 | the gateway is marked closed and its repeater stopped, and nothing else changes except the socket. Without a socket it raises `AttributeError`. Otherwise it completes exactly when the socket was already closed or the library accepts the code. The socket ends open exactly when it was open and the code is refused. A socket that changes is the closed one carrying that code |
| `GatewaySpec.Reconnect` | entropyapi/gateway.py:199-207 | only the socket and the connection script change. An open socket is left alone. It completes exactly when it ends with an open socket, which is then a new one. It can fail only with a refused connection or a rejected handshake, never with a resolution failure. A failure leaves the old socket |
| `GatewaySpec.Send` | entropyapi/gateway.py:144-166 | while not live, the item itself is appended to the queue and nothing else changes. A successful write puts the item on the wire. Every path keeps the session data and only adds to the wire. A live send that completes leaves the gateway live with no longer a queue |
| `GatewaySpec.HandleClose` | entropyapi/gateway.py:252-265 | when it completes, the gateway is live with an empty queue; the repeater is stopped unless the gateway was already closed |
| `GatewaySpec.Resume` | entropyapi/gateway.py:184-215 | without a socket it raises and changes nothing. Close code 4007 or 4009 always leaves the gateway unidentified. When it completes, the gateway is live with an empty queue, and the session data is kept |
| `GatewaySpec.Reopen` | entropyapi/gateway.py:210-215 | reopening, RESUME and the drain keep the session data; when they complete, the gateway is live with an empty queue |
| `GatewaySpec.Drain` | entropyapi/gateway.py:214-215 | the drain keeps the session data and only adds to the wire; when it completes, the queue is empty and the gateway is live |
| `GatewaySpec.HeartbeatWith` | entropyapi/gateway.py:218-231 | a periodic call without an ACK completes and stops the repeater; every other call records that a heartbeat was sent. The sequence, session id, ACK and interval are never changed |
| `GatewaySpec.Heartbeat` | entropyapi/gateway.py:218-231 | with an accepted close code in place of `'123'`: a one-shot call, or any call after an ACK, records a heartbeat as sent. The sequence, the ACK and the interval are never changed |
| `GatewaySpec.Identify` | entropyapi/gateway.py:233-249 | IDENTIFY keeps the session data and only adds to the wire; when it completes, the gateway is identified |
| `GatewaySpec.Hello` | entropyapi/gateway.py:302-312 | a payload without `heartbeat_interval` raises and changes nothing. Otherwise the interval is recorded, and when HELLO completes the gateway is identified and a heartbeat was sent. The sequence and the ACK flag are untouched |
| `GatewaySpec.BeginHeartbeat` | entropyapi/gateway.py:306-312 | the one-shot heartbeat followed by the repeater leaves the gateway identified with a heartbeat sent. The interval, the sequence and the ACK flag are untouched |
| `GatewaySpec.StartRepeater` | entropyapi/gateway.py:307-312 | a repeater that was still running is counted as an orphan. The interval, the sequence, the sent-heartbeat flag and the ACK flag are untouched. An identified gateway completes at once with the new repeater running. Otherwise it completes only once identified |
| `GatewaySpec.HandleEvent` | entropyapi/gateway.py:333-367 | only the session id, cache and delivered payloads can change. MESSAGE_CREATE delivers exactly its payload. The call fails exactly for a READY without `session_id`. Only READY changes the session id, and RESUMED or an unknown name changes nothing |
| `GatewaySpec.Ready` | entropyapi/gateway.py:342-344 | READY fails exactly when the payload lacks `session_id`, and then changes nothing; otherwise it sets the session id and merges the payload into the cache |
| `GatewaySpec.HandleMessage` | entropyapi/gateway.py:267-331 | `last_sequence` always ends as the frame's `s`; an opcode outside the table changes nothing else; the ACK flag is set by opcode 11 and by nothing else |
| `GatewaySpec.ReconnectRequest` | entropyapi/gateway.py:283-287 | without a socket it raises; when it completes, the gateway is live, unidentified and has an empty queue |
| `GatewaySpec.RunStep` | entropyapi/gateway.py:136-142 | a peer close that is handled leaves the gateway live with an empty queue. A frame's outcome is the handler's, unless the handler raised an `OSError`, which is caught |
| `GatewaySpec.Loop` | entropyapi/gateway.py:136-142 | without a socket the receive loop raises; with no frames, or a gateway that is not live, it does nothing |
| `GatewaySpec.RunLoop` | entropyapi/gateway.py:133-142 | with an open socket and no frames, the run loop only reopens the gateway, which is then live |
| `GatewaySpec.Start` | entropyapi/gateway.py:115-130 | an open gateway is left as it is. Otherwise the token and the versioned URL are stored. On success the socket is a new open one; on failure the old socket is kept. The queue, the wire and `identified` are untouched |
| `GatewaySpec.Tick` | entropyapi/utils.py:87-95 | with no repeater running, orphans included, a tick does nothing; a tick after an ACK records a heartbeat as sent |
| `GatewayProperties.ReconnectSucceeds` | entropyapi/gateway.py:199-207 | when the network fails only by not resolving the host, the reconnect loop ends with an open socket and consumes at least one attempt |
| `GatewayProperties.ReconnectRetries` | entropyapi/gateway.py:199-207 | k resolution failures and then a success take exactly k+1 attempts and leave a new open socket |
| `GatewayProperties.SendWhileDown` | entropyapi/gateway.py:151-154 | while not live, `send` appends exactly that item to the queue, writes nothing and changes nothing else |
| `GatewayProperties.WriteSucceeds` | entropyapi/gateway.py:156-159 | on a live gateway with no write failures ahead, the item is written and no failure remains ahead |
| `GatewayProperties.DrainInOrder` | entropyapi/gateway.py:214-215 | with no write failures ahead, the drain writes the queue front first, in its original order, and empties it. Only the wire, the queue and the write script change |
| `GatewayProperties.ResumeWithoutFailures` | entropyapi/gateway.py:184-215 | with no failures ahead, the wire receives RESUME, built from the token, session id and sequence held on entry, followed by the queue in its original order. The gateway ends live with an empty queue and the session data kept. `identified` is cleared exactly for close codes 4007 and 4009 |
| `GatewayProperties.FailedWriteRequeues` | entropyapi/gateway.py:158-166 | a write that finds the socket closed queues the serialised item behind the older queue, disconnects and resumes. The wire then receives RESUME, the older queue and that item last. The repeater is stopped |
| `GatewayProperties.OneShotHeartbeatWrites` | entropyapi/gateway.py:227-231 | on a live gateway, a one-shot heartbeat writes exactly `{op: 1, d: last_sequence}` and records a heartbeat as sent |
| `GatewayProperties.HeartbeatWithoutAck` | entropyapi/gateway.py:222-226 | with no ACK ever received, a periodic heartbeat writes no heartbeat frame. The gateway is disconnected and resumed: RESUME and the queue are written, the repeater is stopped and the gateway ends live |
| `GatewayProperties.TickAfterAck` | entropyapi/gateway.py:222-231 | after an ACK, a tick writes one heartbeat frame and nothing else |
| `GatewayProperties.HeartbeatRequestWrites` | entropyapi/gateway.py:280-281 | HEARTBEAT REQUEST on a live gateway writes exactly one heartbeat, carrying the frame's own sequence, and records it as sent |
| `GatewayProperties.HeartbeatAckRecorded` | entropyapi/gateway.py:314-317 | HEARTBEAT ACK sets the ACK flag and the sequence and changes nothing else. Before any heartbeat was sent, the latency computation raises `TypeError` |
| `GatewayProperties.EarlyAckEndsLoop` | entropyapi/gateway.py:136-142 | an ACK that arrives before any heartbeat ends the run loop with that `TypeError`, because the loop catches only closes and `OSError` |
| `GatewayProperties.AckArmsTick` | entropyapi/gateway.py:222-231 | after an ACK to a sent heartbeat, the next tick of the repeater writes a heartbeat carrying the ACK frame's sequence |
| `GatewayProperties.DisconnectIsNotTerminal` | entropyapi/gateway.py:252-265 | an explicit `disconnect` with an accepted code closes the socket, and the close the waiting run loop then receives resumes the gateway. It ends live, with RESUME and then the queue written. `identified` is cleared exactly for 4007 and 4009 |
| `GatewayProperties.UnhandledOpcodes` | entropyapi/gateway.py:319-331 | every opcode outside 0, 1, 9, 10 and 11, RECONNECT (7) included, changes only `last_sequence` |
| `GatewayProperties.HelloHandshake` | entropyapi/gateway.py:302-312 | on a live gateway, HELLO records the interval and writes one heartbeat carrying the frame's sequence. It then starts the repeater, counting a replaced running one as an orphan. It writes IDENTIFY, with the token and `gateway_intents`, exactly when the gateway was not identified. The gateway ends identified, with the queue untouched |
| `GatewayProperties.HelloOnLiveGateway` | entropyapi/gateway.py:302-312 | the HELLO handler's effect on a live gateway: the same writes, in the same order, as `HelloHandshake` |
| `GatewayProperties.HelloStartsTimer` | entropyapi/gateway.py:306-312 | after HELLO's heartbeat and the new repeater, HELLO finishes at once if the gateway is identified, and otherwise continues with `_identify` |
| `GatewayProperties.IdentifyOnLiveGateway` | entropyapi/gateway.py:237-249 | on a live gateway, `_identify` writes exactly the IDENTIFY frame and marks the gateway identified |
| `GatewayProperties.ReadyRecordsSession` | entropyapi/gateway.py:342-344 | a READY dispatch sets the sequence and the session id, and stores the payload in the cache; nothing else changes |
| `GatewayProperties.MessageCreateDelivers` | entropyapi/gateway.py:349-350 | a MESSAGE_CREATE dispatch hands its payload unchanged to the event sink; nothing but the sequence changes |
| `GatewayProperties.ResumableInvalidSession` | entropyapi/gateway.py:289-294 | a resumable INVALID SESSION writes IDENTIFY and marks the gateway identified |
| `GatewayProperties.InvalidSessionResumes` | entropyapi/gateway.py:295-299 | a non-resumable INVALID SESSION raises an `OSError` that the run loop catches. The gateway disconnects and resumes with the session id it was just told is invalid |
| `GatewayProperties.PeerCloseResumes` | entropyapi/gateway.py:141-142 | a closed connection leads to a disconnect and a resume. Codes 4007 and 4009 clear `identified` and every other code keeps it. The wire receives RESUME and then the queue |
| `GatewayProperties.MessagesDeliveredInOrder` | entropyapi/gateway.py:136-139 | the run loop hands a stream of MESSAGE_CREATE payloads to the sink one by one, in arrival order, without writing anything |
| `GatewayProperties.StartFromInitial` | entropyapi/gateway.py:115-134 | from a new gateway, `start` stores the token and the versioned URL and connects, and the run loop then opens the gateway |
| `GatewayFindings.SendLogLine` | entropyapi/gateway.py:167-168 | the log line after a write raises for a re-sent string and for an opcode missing from the name table, and otherwise names the opcode |
| `GatewayFindings.SendAsWritten` | entropyapi/gateway.py:144-168 | as written, a failed write raises `TypeError` without reconnecting, and a successful write can still raise from its log line |
| `GatewayFindings.MissingArgumentStrands` | entropyapi/gateway.py:166 | as written, a failed write raises `TypeError` to the caller of `send`. The gateway is left not closed, with a closed socket and the item queued, and a later `send` only queues. When the failing `send` came from the run loop's own handler, the loop ends and nothing resumes; a run loop still waiting in `recv` would instead receive the close and resume |
| `GatewayFindings.ResentStringRaises` | entropyapi/gateway.py:164-168 | as written, re-sending a queued string writes it and then raises, whereas the corrected `send` completes |
| `GatewayFindings.HeartbeatAsWritten` | entropyapi/gateway.py:222-226 | as written, a one-shot call, or any call after an ACK, behaves as the corrected heartbeat |
| `GatewayFindings.NoAckKeepsSocket` | entropyapi/gateway.py:222-226 | as written, a periodic heartbeat without an ACK on an open socket, with no write failures ahead, completes but neither closes nor replaces the socket, and makes no connection attempt: the library refuses code 123 |
| `GatewayFindings.NoAckCloseCodeRefused` | entropyapi/gateway.py:224 | as written, the condemned connection is never closed. `_resume` makes no connection attempt and sends RESUME and the queue over the same socket |
| `GatewayFindings.TickAsWritten` | entropyapi/gateway.py:307-308 | as written, every tick receives a truthy `onetime`, so a running repeater always sends a heartbeat |
| `GatewayFindings.TimerNeverChecksAck` | entropyapi/gateway.py:307-308 | as written, a tick with no ACK writes a heartbeat, where the intended periodic call disconnects and resumes |
| `GatewayClient.Gateway.constructor` | entropyapi/gateway.py:91-113 | the new object is the initial session, and `gateway_intents` is `intents['ALL']` |
| `GatewayClient.Gateway.NextWrite` | entropyapi/gateway.py:159 | takes the next write outcome from the script and consumes it |
| `GatewayClient.Gateway.NextConnect` | entropyapi/gateway.py:202 | takes the next connection outcome from the script and consumes it |
| `GatewayClient.Gateway.Start` | entropyapi/gateway.py:115-130 | the object ends in the state of `GatewaySpec.Start` |
| `GatewayClient.Gateway.RunLoop` | entropyapi/gateway.py:133-142 | the receive loop ends in the state and outcome of `GatewaySpec.RunLoop`; its invariant is that the rest of the loop still reaches that result |
| `GatewayClient.Gateway.RunStep` | entropyapi/gateway.py:137-142 | one iteration ends as `GatewaySpec.RunStep` |
| `GatewayClient.Gateway.Send` | entropyapi/gateway.py:144-166 | the object ends in the state and outcome of `GatewaySpec.Send` |
| `GatewayClient.Gateway.WriteFailed` | entropyapi/gateway.py:161-166 | queueing the text after a failed write and handling the close ends as `GatewaySpec.HandleClose` |
| `GatewayClient.Gateway.Disconnect` | entropyapi/gateway.py:170-182 | ends as `GatewaySpec.Disconnect` |
| `GatewayClient.Gateway.HandleCloseEvent` | entropyapi/gateway.py:252-265 | ends as `GatewaySpec.HandleClose` |
| `GatewayClient.Gateway.Resume` | entropyapi/gateway.py:184-198 | ends as `GatewaySpec.Resume` |
| `GatewayClient.Gateway.ReconnectAndReopen` | entropyapi/gateway.py:199-215 | reconnecting and then reopening ends as the reference model's reconnect followed by its reopen |
| `GatewayClient.Gateway.Reconnect` | entropyapi/gateway.py:199-207 | the `while self._websocket.closed` loop ends as `GatewaySpec.Reconnect`; its invariant is that the rest of the loop still reaches that result |
| `GatewayClient.Gateway.Reopen` | entropyapi/gateway.py:210-215 | ends as `GatewaySpec.Reopen` |
| `GatewayClient.Gateway.DrainQueue` | entropyapi/gateway.py:214-215 | the `pop(0)` loop ends as `GatewaySpec.Drain`. Its invariants keep the gateway live and keep the remaining drain's result fixed |
| `GatewayClient.Gateway.Heartbeat` | entropyapi/gateway.py:218-231 | ends as `GatewaySpec.Heartbeat` |
| `GatewayClient.Gateway.Tick` | entropyapi/utils.py:87-95 | ends as `GatewaySpec.Tick` |
| `GatewayClient.Gateway.Identify` | entropyapi/gateway.py:233-249 | ends as `GatewaySpec.Identify` |
| `GatewayClient.Gateway.HandleMessage` | entropyapi/gateway.py:267-331 | ends as `GatewaySpec.HandleMessage` |
| `GatewayClient.Gateway.HandleHello` | entropyapi/gateway.py:302-312 | ends as `GatewaySpec.Hello` |
| `GatewayClient.Gateway.BeginHeartbeat` | entropyapi/gateway.py:306-312 | ends as `GatewaySpec.BeginHeartbeat` |
| `GatewayClient.Gateway.StartRepeater` | entropyapi/gateway.py:307-312 | ends as `GatewaySpec.StartRepeater` |
| `GatewayClient.Gateway.HandleEvent` | entropyapi/gateway.py:333-367 | ends as `GatewaySpec.HandleEvent` |
| `GatewayClient.Gateway.HandleReconnectRequest` | entropyapi/gateway.py:283-287 | ends as `GatewaySpec.ReconnectRequest` |
| `TimeFormat.FmtTime` | entropyapi/utils.py:6-23 | the output starts with a digit when not empty, and no number in it carries a sign, so a negative day count is hidden. What the text means is stated by `FmtTimeRoundTrip`, `FmtTimeEmptyIff` and `FmtTimeTrailingColon` |
| `TimeFormat.Components` | entropyapi/utils.py:13-17 | each field is within its bound (`ms < 1000`, `s`, `m < 60`, `h < 24`). The day count is `days`. `ms` is the number of whole milliseconds, and `h:m:s` add back up to `seconds` |
| `TimeFormat.FmtTimeRoundTrip` | entropyapi/utils.py:13-23 | reading the output back recovers every positive field in the order d, h, m, s, ms, and a day count that is not positive reads as absent |
| `TimeFormat.FmtTimeEmptyIff` | entropyapi/utils.py:18-23 | the output is empty exactly when no field is positive, so in particular a zero duration gives `""` |
| `TimeFormat.FmtTimeTrailingColon` | entropyapi/utils.py:18-23 | a non-empty output ends in `:` exactly when there is no millisecond field |
| `TimeFormat.ParseShownPart` | entropyapi/utils.py:18-22 | one shown field, `<n><suffix>`, is read back as exactly `n` |
| `Decimal.NatToStringRoundTrip` | entropyapi/utils.py:18-22 | the digits Python writes for a number read back as that number |
| `Decimal.NatToStringInjective` | entropyapi/utils.py:18-22 | different numbers are written with different digits |
| `Json.Lookup` | entropyapi/gateway.py:303 | indexing yields a value exactly for an object that holds the key, and the value is the object's field |
| `HttpRequest.AcceptedMethod` | entropyapi/httpclient.py:118 | a method is accepted when its upper-cased spelling is one of the seven listed, so an accepted spelling has 3 to 7 characters; `AcceptedMethodIgnoresCase` says the check ignores letter case |
| `HttpRequest.Upper` | entropyapi/httpclient.py:118 | the upper-cased method has the same length, and each letter is upper-cased in place |
| `HttpRequest.AcceptedMethodIgnoresCase` | entropyapi/httpclient.py:118 | two spellings that differ only in letter case are both accepted or both refused |
| `HttpRequest.UpperIdempotent` | entropyapi/httpclient.py:118-119 | upper-casing is idempotent, so the name shown in the error is refused too |
| `HttpRequest.SerialisedData` | entropyapi/httpclient.py:125 | a truthy non-string body is replaced by its serialisation, and a string or falsy body passes through unchanged |
| `HttpRequest.PreparedHeaders` | entropyapi/httpclient.py:126-130 | the keys are the old ones plus `Content-Length`, and `Content-Type` only for a truthy body. Existing values are never overwritten; the defaults are `application/json` and the body length in decimal, or `"0"` |
| `HttpRequest.ContentLengthReadsBack` | entropyapi/httpclient.py:129-130 | a defaulted `Content-Length` reads back as the number of characters of the body, or 0 |
| `HttpRequest.HeaderDict.constructor` | entropyapi/httpclient.py:126 | a fresh dictionary holds exactly the given entries |
| `HttpRequest.PrepareRequest` | entropyapi/httpclient.py:118-130 | a refused method raises `ValueError` naming it, and leaves the headers as they were. When accepted: the body is serialised as `SerialisedData` says; a non-empty caller dictionary is updated in place to `PreparedHeaders`; a missing or empty one is replaced by a fresh dictionary, and the caller's own is untouched |
| `HttpRequest.StatusText` | entropyapi/httpclient.py:147 | the description is the table entry for a known status, and `"???"` exactly for a status outside the table |

## Left out

- Concurrency. The coroutines run one after the other, as if every `await` resumed at
  once.
- The run-loop tasks that `start` and `_resume` create with `create_task`
  (`entropyapi/gateway.py:130`, `entropyapi/gateway.py:212`). The model runs a loop by
  calling `RunLoop` explicitly.
- The second loop that `_resume` starts. It is not modelled.
- The `ensure_future` calls of `_heartbeat`. They are modelled as a disconnect
  followed by a resume, whose errors never reach the caller.
- `RepeatedTimer` (`entropyapi/utils.py:70-106`). Its threads become a `running` flag,
  a count of orphaned repeaters that were replaced while still running, and an
  explicit `Tick`.
- Wall-clock time:
  - the timestamps of `datetime.now()` become the `ackSeen` and `sent` flags;
  - the latency and its `fmt_time` log line are left out;
  - the sleeps, including the random 1-5 s sleep before IDENTIFY, are dropped.
- Logging, and the file dump of unknown events (`entropyapi/gateway.py:354-359`). The
  log line of `send` is modelled only in `GatewayFindings.SendLogLine`.
- The websocket library:
  - a connection attempt is an entry of a script;
  - a write either succeeds or finds the socket closed with a code;
  - `recv` yields a decoded frame or a peer close;
  - malformed JSON from the peer and the `compression` option are left out.
- `json.dumps` and `platform.system()`. These are parameters, so nothing is assumed
  about the text a frame serialises to.
- JSON numbers. Only integers are modelled. The interval is used only to schedule the
  repeater.
- The cache module (`entropyapi/cache.py`). The cache is a map in the world of the
  session.
- `entropyapi/connection.py`. It is not part of this model.
- The rest of `HTTPClient.request`: the aiohttp session, the timeout, the call and the
  decoding of the response (`entropyapi/httpclient.py:120-121`,
  `entropyapi/httpclient.py:133-148`).
- The path and platform helpers of `entropyapi/utils.py`.
- GatewaySpec.Send: a socket whose writes keep failing makes `send`, `_handle_close_event`
  and `_resume` call each other without end. The write script is finite and an
  exhausted script succeeds, so in the model every `send` ends.
- GatewaySpec.Reconnect: a network that never stops failing to resolve the host keeps
  `_resume` looping forever. The connection script is finite and an exhausted script
  connects, so in the model the loop always ends.
- GatewaySpec.Loop: the run loop ends when the given frames run out, where `recv`
  would wait for more.
- GatewaySpec.Disconnect: after `close(code)`, the socket's `close_code` is taken to be
  `code`. The library actually takes it from the closing handshake.
- HttpRequest.Upper: upper-cases the ASCII letters only; `str.upper` also maps other
  Unicode letters.
- HttpRequest.AcceptedMethod: built on `Upper`, so it refuses spellings that Python
  accepts through non-ASCII letters, such as "poſt" (ſ becomes S) and "optıons" (ı
  becomes I).
- The other tables of `HTTPResponse` (`json_errors`). They are not modelled.

## Findings

| source | as written | input that shows it | evidently intended | confidence | as-written member | corrected member |
|---|---|---|---|---|---|---|
| entropyapi/gateway.py:166 | `_handle_close_event()` is called without its required `error` argument, so it raises `TypeError` | a live gateway whose next write finds the socket closed, for any item | pass the caught error on, so that the gateway disconnects and resumes | not executed | `GatewayFindings.MissingArgumentStrands` | `GatewaySpec.Send` |
| entropyapi/gateway.py:167-168 | the log line after every write reads `data["op"]` and `self.opcodes[data["op"]]` | re-sending a string that a failed write queued, or a frame whose opcode is missing from the name table | the log line describes whatever was sent without raising | not executed | `GatewayFindings.ResentStringRaises` | `GatewaySpec.Drain` |
| entropyapi/gateway.py:224 | `disconnect('123')` asks for close code 123, which the socket library refuses | a periodic heartbeat on an open socket with no ACK ever received. As written, no caller makes one: lines 281 and 306 pass `onetime=True`, and lines 307-308 pass the gateway, which is truthy. The branch is reached only by a direct `_heartbeat()` call, or once lines 307-308 are corrected | close with a code the library accepts, such as 4000, so that `_resume` reconnects | not executed | `GatewayFindings.NoAckCloseCodeRefused` | `GatewaySpec.Heartbeat` |
| entropyapi/gateway.py:307-308 | `RepeatedTimer(..., self._heartbeat, self, ...)` passes the gateway as `onetime`, which is truthy | any tick of a running repeater with no ACK ever received | the periodic call `_heartbeat()`, with `onetime` false, which checks for the ACK | not executed | `GatewayFindings.TimerNeverChecksAck` | `GatewaySpec.Tick` |

The corrected members have their intended behaviour proved:

- `GatewaySpec.Send`: by `GatewayProperties.FailedWriteRequeues`, the item is queued,
  and the gateway resumes and writes it.
- `GatewaySpec.Drain`: by `GatewayProperties.DrainInOrder`, the whole queue is written,
  strings included.
- `GatewaySpec.Heartbeat`: by `GatewayProperties.HeartbeatWithoutAck`, the gateway is
  closed with 4000 and resumed.
- `GatewaySpec.Tick`: by `GatewayFindings.TimerNeverChecksAck`, a tick without an ACK
  writes RESUME and the queue.
