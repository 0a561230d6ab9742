/**
 * The wire-level vocabulary of the gateway (gateway.py): frames, the opcode and event
 * routing tables, the intents bitmask, the frames the client builds, the close codes it
 * reacts to, and the errors its operations can raise.
 */
module GatewayProtocol {
  import opened Wrappers
  import opened Json
  import opened Decimal

  // ---------------------------------------------------------------------------
  // Frames

  /** A gateway frame: opcode, sequence number, event name and payload. */
  datatype Frame = Frame(op: int, s: Option<int>, t: Option<string>, d: Json)

  /**
   * An item handed to `send`: a frame (a `dict`), or text already serialised, which is
   * what `send` puts back in the queue when a write fails.
   */
  datatype Outbound = Obj(f: Frame) | Str(text: string)

  /** What the socket reports when a connection is attempted. */
  datatype ConnectResult =
    | Connected
    | Unresolved   // socket.gaierror: the only failure `_resume` retries
    | Refused      // any other OSError
    | Rejected     // a failure that is not an OSError, such as a refused handshake

  /** The errors the gateway's operations raise instead of completing. */
  datatype Error =
    | NoSocket          // AttributeError: `_websocket` is still None
    | InvalidCloseCode  // the socket library refuses to send this close code
    | DnsFailure        // socket.gaierror from `websockets.connect`
    | ConnectRefused    // another OSError from `websockets.connect`
    | HandshakeRejected // a non-OSError failure of `websockets.connect`
    | MalformedPayload  // KeyError or TypeError reading a payload field
    | NoHeartbeatSent   // TypeError: an ACK arrived before any heartbeat was sent
    | InvalidSession    // the ConnectionError raised for a non-resumable INVALID SESSION
    | MissingArgument   // TypeError: a required positional argument was not passed
    | NotSubscriptable  // TypeError: a string indexed as if it were a dict
    | UnknownOpcodeName // KeyError: an opcode missing from the name table

  /**
   * The errors the run loop's `except (websockets.ConnectionClosed, OSError)` catches:
   * `socket.gaierror` and `ConnectionError` are subclasses of `OSError`.
   */
  predicate IsOSError(e: Error)
  {
    e == DnsFailure || e == ConnectRefused || e == InvalidSession
  }

  // ---------------------------------------------------------------------------
  // Routing tables

  /** The keys of the opcode handler table of `_handle_message`, and the fallback. */
  datatype OpHandler = DispatchOp | HeartbeatRequestOp | InvalidSessionOp | HelloOp | HeartbeatAckOp | UnhandledOp

  const OpHandlers: map<int, OpHandler> := map[
    0 := DispatchOp,
    1 := HeartbeatRequestOp,
    9 := InvalidSessionOp,
    10 := HelloOp,
    11 := HeartbeatAckOp
  ]

  /** `handlers.get(data['op'], op_unhandled)`. */
  function HandlerFor(op: int): (h: OpHandler)
    ensures h == UnhandledOp <==> op !in {0, 1, 9, 10, 11}
    ensures op == 0 <==> h == DispatchOp
    ensures op == 1 <==> h == HeartbeatRequestOp
    ensures op == 9 <==> h == InvalidSessionOp
    ensures op == 10 <==> h == HelloOp
    ensures op == 11 <==> h == HeartbeatAckOp
  {
    if op in OpHandlers then OpHandlers[op] else UnhandledOp
  }

  /** The keys of the event handler table of `_handle_event`, and the fallback. */
  datatype EventHandler = ReadyEvent | ResumedEvent | MessageCreateEvent | UnknownEvent

  const EventHandlers: map<string, EventHandler> := map[
    "READY" := ReadyEvent,
    "RESUMED" := ResumedEvent,
    "MESSAGE_CREATE" := MessageCreateEvent
  ]

  /** `handlers.get(data['t'], unknown_t)`; a null event name is not a key. */
  function EventHandlerFor(t: Option<string>): (h: EventHandler)
    ensures h == ReadyEvent <==> t == Some("READY")
    ensures h == ResumedEvent <==> t == Some("RESUMED")
    ensures h == MessageCreateEvent <==> t == Some("MESSAGE_CREATE")
  {
    if t.Some? && t.value in EventHandlers then EventHandlers[t.value] else UnknownEvent
  }

  /** `Gateway.opcodes`, the names used when frames are logged. */
  const OpcodeNames: map<int, string> := map[
    0 := "DISPATCH",
    1 := "HEARTBEAT",
    2 := "IDENTIFY",
    3 := "STATUS UPDATE",
    4 := "VOICE STATUS UPDATE",
    6 := "RESUME",
    7 := "RECONNECT",
    8 := "REQUEST GUILD MEMBERS",
    9 := "INVALID SESSION",
    10 := "HELLO",
    11 := "HEARTBEAT ACK"
  ]

  // ---------------------------------------------------------------------------
  // Intents

  function Pow2(k: nat): (p: nat)
    ensures p >= 1
  {
    if k == 0 then 1 else 2 * Pow2(k - 1)
  }

  /** `x << k` on non-negative integers. */
  function Shl(x: nat, k: nat): nat
  {
    x * Pow2(k)
  }

  /** `Gateway.intents` before `'ALL'` is added, in declaration order. */
  const Intents: seq<(string, nat)> := [
    ("GUILDS", Shl(1, 0)),
    ("GUILD_MEMBERS", Shl(1, 1)),
    ("GUILD_BANS", Shl(1, 2)),
    ("GUILD_EMOJIS", Shl(1, 3)),
    ("GUILD_INTEGRATIONS", Shl(1, 4)),
    ("GUILD_WEBHOOKS", Shl(1, 5)),
    ("GUILD_INVITES", Shl(1, 6)),
    ("GUILD_VOICE_STATES", Shl(1, 7)),
    ("GUILD_PRESENCES", Shl(1, 8)),
    ("GUILD_MESSAGES", Shl(1, 9)),
    ("GUILD_MESSAGE_REACTIONS", Shl(1, 10)),
    ("GUILD_MESSAGE_TYPING", Shl(1, 11)),
    ("DIRECT_MESSAGES", Shl(1, 12)),
    ("DIRECT_MESSAGE_REACTIONS", Shl(1, 13)),
    ("DIRECT_MESSAGE_TYPING", Shl(1, 14))
  ]

  function SumValues(t: seq<(string, nat)>): nat
  {
    if t == [] then 0 else t[0].1 + SumValues(t[1..])
  }

  /** `intents['ALL'] = sum(intents.values())`, which is also `gateway_intents`. */
  function AllIntents(): nat
  {
    SumValues(Intents)
  }

  /** A table whose `k`-th value is `1 << (base + k)` sums to `(1 << (base + n)) - (1 << base)`. */
  lemma {:induction false} SumOfConsecutivePowers(t: seq<(string, nat)>, base: nat)
    requires forall k :: 0 <= k < |t| ==> t[k].1 == Pow2(base + k)
    ensures SumValues(t) + Pow2(base) == Pow2(base + |t|)
    decreases |t|
  {
    if t != [] {
      assert forall k :: 0 <= k < |t[1..]| ==> t[1..][k].1 == Pow2(base + 1 + k) by {
        forall k | 0 <= k < |t[1..]| ensures t[1..][k].1 == Pow2(base + 1 + k) {
          assert t[1..][k] == t[k + 1];
        }
      }
      SumOfConsecutivePowers(t[1..], base + 1);
    }
  }

  /** The intents table has fifteen entries, and the `k`-th is `1 << k`. */
  lemma IntentValuesArePowers()
    ensures |Intents| == 15
    ensures forall k :: 0 <= k < |Intents| ==> Intents[k].1 == Pow2(k)
  {
  }

  /** No two intents share a name or a bit. */
  lemma IntentsDistinct()
    ensures forall j, k :: 0 <= j < k < |Intents| ==> Intents[j].0 != Intents[k].0
    ensures forall j, k :: 0 <= j < k < |Intents| ==> Intents[j].1 != Intents[k].1
  {
    IntentValuesArePowers();
    forall j, k | 0 <= j < k < |Intents| ensures Intents[j].0 != Intents[k].0 {
      assert |Intents[j].0| != |Intents[k].0| || Intents[j].0[..8] != Intents[k].0[..8] || Intents[j].0 != Intents[k].0;
    }
    forall j, k | 0 <= j < k < |Intents| ensures Intents[j].1 != Intents[k].1 {
      Pow2StrictlyIncreasing(j, k);
    }
  }

  /** `intents['ALL']` is 32767: every bit below 2^15. */
  lemma AllIntentsValue()
    ensures AllIntents() + 1 == Pow2(15)
    ensures AllIntents() == 32767
  {
    IntentsSum();
    Pow2Fifteen();
  }

  lemma IntentsSum()
    ensures SumValues(Intents) + 1 == Pow2(15)
  {
    IntentValuesArePowers();
    SumOfConsecutivePowers(Intents, 0);
  }

  lemma Pow2Fifteen()
    ensures Pow2(15) == 32768
  {
    assert Pow2(1) == 2;
    assert Pow2(3) == 8;
    assert Pow2(5) == 32;
    assert Pow2(7) == 128;
    assert Pow2(9) == 512;
    assert Pow2(11) == 2048;
    assert Pow2(13) == 8192;
  }

  lemma {:induction false} Pow2StrictlyIncreasing(j: nat, k: nat)
    requires j < k
    ensures Pow2(j) < Pow2(k)
    decreases k
  {
    if j < k - 1 {
      Pow2StrictlyIncreasing(j, k - 1);
    }
  }

  // ---------------------------------------------------------------------------
  // Connection parameters, close codes and the frames the client builds

  const ApiVersion: nat := 8
  const EncodingName := "json"

  /** `f'/?v={API_VERSION}&encoding={self.encoding}'`, appended to the gateway URL by `start`. */
  function UrlSuffix(): (r: string)
    ensures r == "/?v=8&encoding=json"
  {
    "/?v=" + NatToString(ApiVersion) + "&encoding=" + EncodingName
  }

  /** `disconnect`'s default close code. */
  const NormalClosure := 1000

  /** The close codes after which `_resume` forces a fresh IDENTIFY: invalid sequence, session timed out. */
  const ReidentifyCodes: set<int> := {4007, 4009}

  /**
   * The close codes the socket library agrees to send: the codes of RFC 6455 section 7.4.1
   * that an endpoint may send, and the registered and private range 3000-4999.
   */
  predicate ValidCloseCode(code: int)
  {
    code in {1000, 1001, 1002, 1003, 1007, 1008, 1009, 1010, 1011} || 3000 <= code < 5000
  }

  /** The value `_heartbeat` passes to `disconnect` when no ACK was ever received: `'123'`. */
  const AsWrittenNoAckCode := 123

  /** The close code this model uses in its place: the first code of the private range. */
  const HeartbeatFailureCode := 4000

  /** `{'op': 1, 'd': self.last_sequence}`. */
  function HeartbeatFrame(lastSequence: Option<int>): (f: Frame)
    ensures f.op == 1 && f.s.None? && f.t.None?
    ensures f.d == JNull <==> lastSequence.None?
    ensures lastSequence.Some? ==> f.d == JInt(lastSequence.value)
  {
    Frame(1, None, None, OptInt(lastSequence))
  }

  /** The IDENTIFY frame of `_identify`; `osName` stands for `get_os()`. */
  function IdentifyFrame(token: Json, intents: nat, osName: string): (f: Frame)
    ensures f.op == 2 && f.s.None? && f.t.None?
    ensures Lookup(f.d, "token") == Some(token) && Lookup(f.d, "intents") == Some(JInt(intents))
    ensures f.d.JObj? && f.d.fields.Keys == {"token", "intents", "properties"}
    ensures Lookup(f.d, "properties").Some?
    ensures var p := Lookup(f.d, "properties").value;
              p.JObj? && p.fields.Keys == {"$os", "$browser", "$device"}
              && Lookup(p, "$os") == Some(JStr(osName))
              && Lookup(p, "$browser") == Some(JStr("entropy"))
              && Lookup(p, "$device") == Some(JStr("entropy"))
  {
    Frame(2, None, None, JObj(map[
      "token" := token,
      "intents" := JInt(intents),
      "properties" := JObj(map["$os" := JStr(osName), "$browser" := JStr("entropy"), "$device" := JStr("entropy")])
    ]))
  }

  /** The RESUME frame `_resume` builds from the session as it is on entry. */
  function ResumeFrame(token: Json, sessionId: Json, lastSequence: Option<int>): (f: Frame)
    ensures f.op == 6 && f.s.None? && f.t.None?
    ensures Lookup(f.d, "token") == Some(token) && Lookup(f.d, "session_id") == Some(sessionId)
    ensures f.d.JObj? && f.d.fields.Keys == {"token", "session_id", "seq"}
    ensures Lookup(f.d, "seq") == Some(OptInt(lastSequence))
    ensures Lookup(f.d, "seq").value == JNull <==> lastSequence.None?
  {
    Frame(6, None, None, JObj(map["token" := token, "session_id" := sessionId, "seq" := OptInt(lastSequence)]))
  }

  /** Python's `str` of an integer. */
  function IntToString(i: int): string
  {
    if i < 0 then "-" + NatToString(-i) else NatToString(i)
  }
}
