/** One socket (consumers.py) as a state machine: the state the three asyncio tasks of a connection
    share, and what each task does between two suspension points.

    Assumption: Channels dispatches serially, so the next event is handled only after the handler
    of the previous one has returned. */
module Socket {
  import opened Wrappers
  import opened Json
  import opened Delivery
  import Envelope

  // ---- configuration ----

  /** The settings and the connection scope a socket reads. `exp` is the token's expiry claim. */
  datatype Config = Config(
    sendQueueSize: int, maxReplay: int, heartbeatS: real, heartbeatTimeoutS: real, authorizeCacheS: real,
    resumable: bool, userId: string, exp: Option<real>)

  function Cap(cfg: Config): int { if cfg.sendQueueSize > 1 then cfg.sendQueueSize else 1 }

  function PongTimeout(cfg: Config): real { if cfg.heartbeatTimeoutS > 1.0 then cfg.heartbeatTimeoutS else 1.0 }

  function CacheWindow(cfg: Config): real { if cfg.authorizeCacheS > 0.0 then cfg.authorizeCacheS else 0.0 }

  predicate Beats(cfg: Config) { cfg.heartbeatS > 0.0 }

  predicate TokenExpired(cfg: Config, now: real) { cfg.exp.Some? && cfg.exp.value <= now }

  /** What the settings mean: floors of one place, one second and no time at all; a heartbeat only for a positive interval. */
  lemma SettingsMean(cfg: Config)
    ensures Cap(cfg) >= 1 && Cap(cfg) >= cfg.sendQueueSize && (Cap(cfg) == 1 || Cap(cfg) == cfg.sendQueueSize)
    ensures PongTimeout(cfg) >= 1.0 && PongTimeout(cfg) >= cfg.heartbeatTimeoutS
    ensures PongTimeout(cfg) == 1.0 || PongTimeout(cfg) == cfg.heartbeatTimeoutS
    ensures CacheWindow(cfg) >= 0.0 && CacheWindow(cfg) >= cfg.authorizeCacheS
    ensures CacheWindow(cfg) == 0.0 || CacheWindow(cfg) == cfg.authorizeCacheS
    ensures Beats(cfg) <==> cfg.heartbeatS > 0.0
  {
  }

  const DRAIN_TIMEOUT_S := 1.0
  const PROTOCOL_STRIKES := 3

  const CLOSE_PROTOCOL_ERROR := 4400
  const CLOSE_UNAUTHENTICATED := 4401
  const CLOSE_FORBIDDEN := 4403
  const CLOSE_STREAM_UNKNOWN := 4404
  const CLOSE_HEARTBEAT_TIMEOUT := 4408
  const CLOSE_REVOKED := 4410
  const CLOSE_OVERFLOW := 4413

  // ---- messages ----

  datatype Row = Row(seqNo: int, payload: map<string, Json>)

  /** What a socket queues for its client. */
  datatype Message =
    | EphemeralWelcome
    | Welcome(serverSeq: int)
    | Replay(row: Row)
    | ReplayDone(upToSeq: int)
    | Resync(gap: int, window: int, serverSeq: int)
    | Live(seqNo: Option<int>, payload: map<string, Json>)
    | Kick(reason: string)
    | Error(code: Envelope.ErrorCode)
    | Ping
    | Pong
    | Signal(dict: map<string, Json>)

  /** The journal number `send_frame` deduplicates by. */
  function SeqOf(m: Message): Option<int> {
    match m
    case Replay(row) => Some(row.seqNo)
    case Live(n, _) => n
    case _ => None
  }

  /** `dict.setdefault("stream", key)`. */
  function WithStream(dict: map<string, Json>, key: Option<string>): map<string, Json> {
    if "stream" in dict then dict else dict["stream" := if key.Some? then Str(key.value) else Null]
  }

  function FrameOf(m: Message, key: Option<string>): Envelope.Frame
    requires !m.Signal?
  {
    match m
    case EphemeralWelcome => Envelope.Frame(Envelope.Welcome, map["ephemeral" := Bool(true)], None, key)
    case Welcome(n) => Envelope.Frame(Envelope.Welcome, map["server_seq" := Int(n)], None, key)
    case Replay(row) => Envelope.Frame(Envelope.Replay, row.payload, Some(row.seqNo), key)
    case ReplayDone(n) => Envelope.Frame(Envelope.ReplayDone, map["up_to_seq" := Int(n)], None, key)
    case Resync(gap, window, n) =>
      Envelope.Frame(Envelope.Resync, map["gap" := Int(gap), "window" := Int(window), "server_seq" := Int(n)], None, key)
    case Live(n, payload) => Envelope.Frame(Envelope.Live, payload, n, key)
    case Kick(reason) => Envelope.Frame(Envelope.Kick, map["reason" := Str(reason)], None, key)
    case Error(code) => Envelope.Frame(Envelope.Error, Envelope.ErrorPayload(code), None, key)
    case Ping => Envelope.Frame(Envelope.Ping, map[], None, key)
    case Pong => Envelope.Frame(Envelope.Pong, map[], None, key)
  }

  /** What a queued message is on the wire of a socket serving `key`. */
  function WireForm(m: Message, key: Option<string>): Json {
    if m.Signal? then Object(WithStream(m.dict, key)) else Envelope.Encode(FrameOf(m, key))
  }

  function CodeOf(name: string): Option<Envelope.ErrorCode> {
    if name == "bad_envelope" then Some(Envelope.BadEnvelope)
    else if name == "bad_type" then Some(Envelope.BadType)
    else if name == "unauthorized" then Some(Envelope.Unauthorized)
    else None
  }

  function IntAt(payload: map<string, Json>, key: string): int {
    if key in payload && payload[key].Int? then payload[key].n else 0
  }

  function StrAt(payload: map<string, Json>, key: string): string {
    if key in payload && payload[key].Str? then payload[key].s else ""
  }

  /** The client's side of the wire: the message a frame carries; None for frames a server never sends. */
  function Read(f: Envelope.Frame): Option<Message> {
    match f.ftype
    case Welcome => Some(if "ephemeral" in f.payload then EphemeralWelcome else Welcome(IntAt(f.payload, "server_seq")))
    case Replay => if f.seqNo.Some? then Some(Replay(Row(f.seqNo.value, f.payload))) else None
    case ReplayDone => Some(ReplayDone(IntAt(f.payload, "up_to_seq")))
    case Resync =>
      Some(Resync(IntAt(f.payload, "gap"), IntAt(f.payload, "window"), IntAt(f.payload, "server_seq")))
    case Live => Some(Live(f.seqNo, f.payload))
    case Kick => Some(Kick(StrAt(f.payload, "reason")))
    case Error =>
      var code := CodeOf(StrAt(f.payload, "code"));
      if code.Some? then Some(Error(code.value)) else None
    case Ping => Some(Ping)
    case Pong => Some(Pong)
    case _ => None
  }

  /** Round trip over the wire: from every protocol message a client reads back that message, on the socket's own stream,
      numbered exactly as the dedup numbers it. */
  lemma ReadBack(m: Message, key: Option<string>)
    requires !m.Signal?
    ensures var r := Envelope.ParseFrame(WireForm(m, key));
      r.Success? && Read(r.value) == Some(m) && r.value.stream == key && r.value.seqNo == SeqOf(m) && !Envelope.IsSignal(r.value)
  {
    hide Envelope.ParseFrame, Envelope.Encode;
    Envelope.EncodeThenParse(FrameOf(m, key));
    PayloadKeys();
  }

  lemma PayloadKeys()
    ensures "ephemeral" != "server_seq" && "gap" != "window" && "gap" != "server_seq" && "window" != "server_seq"
    ensures "bad_envelope" != "bad_type" && "bad_type" != "unauthorized" && "bad_envelope" != "unauthorized"
  {
    assert |"ephemeral"| == 9 && |"server_seq"| == 10 && |"gap"| == 3 && |"window"| == 6;
    assert "bad_envelope"[0] == 'b' && |"bad_envelope"| == 12 && |"bad_type"| == 8 && "unauthorized"[0] == 'u';
  }

  /** A delivered signal reaches the wire with every field as the core wrote it and a stream, and a client that can
      read it reads a signal, never a protocol frame. */
  lemma SignalOnWire(valid: string -> bool, digest: string -> string, layerUp: bool, c: Call, key: Option<string>)
    requires var o := Perform(valid, digest, layerUp, c); o.Sent? && o.message.SignalMsg?
    ensures var dict := Perform(valid, digest, layerUp, c).message.frame;
      var onWire := WireForm(Signal(dict), key);
      && (forall k | k in dict :: k in onWire.fields && onWire.fields[k] == dict[k])
      && (forall k | k in onWire.fields && k !in dict :: k == "stream")
      && "stream" in onWire.fields
      && ("stream" !in dict ==> onWire.fields["stream"] == match key { case None => Null case Some(k) => Str(k) })
      && (Envelope.ParseFrame(onWire).Success? ==> Envelope.IsSignal(Envelope.ParseFrame(onWire).value))
  {
    var dict := Perform(valid, digest, layerUp, c).message.frame;
    assert Envelope.Get(WithStream(dict, key), "type") == Envelope.Get(dict, "type") by { TypeIsNotStream(); }
  }

  lemma TypeIsNotStream()
    ensures "type" != "stream"
  {
    assert |"type"| == 4;
  }

  /** What the dispatcher makes of a received message. `lastSeq` is None when the client's value is no integer. */
  datatype Inbound = GotMalformed | GotHello(lastSeq: Option<nat>) | GotPing | GotPong | GotUnaccepted

  /** `payload.get("last_seq") or 0`, converted and clamped; None when the conversion raises. */
  function LastSeq(payload: map<string, Json>): Option<nat> {
    var raw := Envelope.Get(payload, "last_seq");
    match ToInt(if Truthy(raw) then raw else Int(0))
    case None => None
    case Some(n) => Some(if n > 0 then n else 0)
  }

  /** The lookup of `receive_json`: parse, then find the handler. */
  function Classify(raw: Json): Inbound {
    match Envelope.ParseFrame(raw)
    case Failure(_) => GotMalformed
    case Success(f) =>
      match f.ftype
      case Hello => GotHello(LastSeq(f.payload))
      case Ping => GotPing
      case Pong => GotPong
      case _ => GotUnaccepted
  }

  /** The names of the three client frames are theirs alone. */
  lemma ClientNames(name: string)
    ensures Envelope.TypeOf(name).Hello? <==> name == "hello"
    ensures Envelope.TypeOf(name).Ping? <==> name == "ping"
    ensures Envelope.TypeOf(name).Pong? <==> name == "pong"
  {
    assert |"hello"| == 5 && |"ping"| == 4 && |"pong"| == 4 && "ping"[1] == 'i' && "pong"[1] == 'o';
  }

  /** What the server takes from a message: a rejected one is malformed; of the accepted ones a hello, a ping and a pong are
      known by their names, and every other type is not accepted. */
  lemma ClassifiedByName(raw: Json)
    ensures Classify(raw) == GotMalformed <==> Envelope.ParseFrame(raw).Failure?
    ensures Envelope.ParseFrame(raw).Success? ==>
      && raw.Object? && "type" in raw.fields && raw.fields["type"].Str?
      && var name := raw.fields["type"].s;
      && (Classify(raw).GotHello? <==> name == "hello")
      && (Classify(raw) == GotPing <==> name == "ping")
      && (Classify(raw) == GotPong <==> name == "pong")
      && (Classify(raw) == GotUnaccepted <==> name != "hello" && name != "ping" && name != "pong")
  {
    if Envelope.ParseFrame(raw).Success? {
      ClientNames(raw.fields["type"].s);
    }
  }

  /** `raw` is an accepted hello whose payload has `value` for `last_seq`; None when it has no payload or no such field. */
  predicate SaysHello(raw: Json, value: Option<Json>) {
    && Envelope.ParseFrame(raw).Success? && raw.Object? && "type" in raw.fields && raw.fields["type"] == Str("hello")
    && value == if "payload" in raw.fields && raw.fields["payload"].Object? && "last_seq" in raw.fields["payload"].fields
                then Some(raw.fields["payload"].fields["last_seq"]) else None
  }

  /** What the server takes from a hello: the client's own number when it is not negative, 0 for a negative, missing or
      falsy one, the truth value of a boolean, and nothing for a non-empty list or object. */
  lemma HelloSays(raw: Json, value: Option<Json>)
    requires SaysHello(raw, value)
    ensures value.None? || value == Some(Null) ==> Classify(raw) == GotHello(Some(0))
    ensures value.Some? && value.value.Int? ==> Classify(raw) == GotHello(Some(if value.value.n >= 0 then value.value.n else 0))
    ensures value == Some(Bool(true)) ==> Classify(raw) == GotHello(Some(1))
    ensures value in [Some(Bool(false)), Some(Str("")), Some(Float(0.0)), Some(List([])), Some(Object(map[]))] ==>
      Classify(raw) == GotHello(Some(0))
    ensures value.Some? && value.value.List? && value.value.items != [] ==> Classify(raw) == GotHello(None)
    ensures value.Some? && value.value.Object? && value.value.fields != map[] ==> Classify(raw) == GotHello(None)
    ensures forall n: int | value == Some(Str(Decimals(n))) :: Classify(raw) == GotHello(Some(if n >= 0 then n else 0))
    ensures forall x: real, n: nat | value == Some(Float(x)) && n as real <= x < (n + 1) as real ::
      Classify(raw) == GotHello(Some(n))
  {
    ClassifiedByName(raw);
    ClientNames("hello");
    forall n: int | value == Some(Str(Decimals(n))) ensures Classify(raw) == GotHello(Some(if n >= 0 then n else 0)) {
      IntOfDecimals(n);
    }
    forall x: real, n: nat | value == Some(Float(x)) && n as real <= x < (n + 1) as real
      ensures Classify(raw) == GotHello(Some(n))
    {
      TruncatesTowardZero(x);
    }
  }

  // ---- state ----

  /** Which code path called `close`. */
  datatype Closer = ByRefusal | ByOverflow | ByHeartbeat | ByDrain

  datatype Close = Close(code: int, via: Closer)

  /** Where the dispatcher is suspended. */
  datatype Dispatcher =
    | New
    | AuthorizingConnect(asked: real)
    | ConnectPresence(started: real)
    | Refused
    | Idle
    | AuthorizingHello(asked: real, hello: Option<nat>)
    | AwaitSeq(lastSeq: nat)
    | AwaitRows(lastSeq: nat, serverSeq: int)
    | Draining(code: int, started: real)
    | LeavingPresence
    | Gone

  /** Where the writer task is; `lost` is a message taken from the queue and never sent. */
  datatype Writer = NotStarted | Waiting | Sending(item: Message) | Stopped(lost: seq<Message>)

  /** Where the heartbeat task is. */
  datatype Heartbeat = Off | Sleeping(due: real) | Writing(since: real) | AwaitPong(due: real)

  datatype Verdict = Verdict(asked: real, allowed: bool)

  /** A hello given to its handler: when it was received, when handled, and how many verdicts were in by then. */
  datatype Handled = Handled(received: real, at: real, verdictsIn: nat)

  /** A presence write: when it sampled the clock and when it returned. */
  datatype Touch = Touch(sampled: real, landed: real)

  /** What sending touches: the dedup cursor, the closing flag and the bounded queue, with the logs of everything
      ever queued (`enq`), of everything the writer took from the queue (`taken`), of every `close` call, and of
      every `last_seq` a hello advanced the cursor to (`accepted`). */
  datatype Link = Link(
    maxSeqSent: int,
    closing: bool,
    outbox: seq<Message>,
    enq: seq<Message>,
    taken: seq<Message>,
    closes: seq<Close>,
    accepted: seq<int>)

  /** The state of a socket; `wire`, `verdicts`, `handled` and `touches` are logs. */
  datatype State = State(
    now: real,
    streamKey: Option<string>,
    joined: bool,
    strikes: nat,
    pongPending: bool,
    authorizedUntil: real,
    presenceSession: bool,
    link: Link,
    disp: Dispatcher,
    writer: Writer,
    hb: Heartbeat,
    wire: seq<Message>,
    verdicts: seq<Verdict>,
    handled: seq<Handled>,
    touches: seq<Touch>)

  const EMPTY_LINK := Link(0, false, [], [], [], [], [])

  function Init(start: real): State {
    State(start, None, false, 0, false, 0.0, false, EMPTY_LINK, New, NotStarted, Off, [], [], [], [])
  }

  // ---- outbound ----

  function CloseNow(l: Link, code: int, via: Closer): Link {
    l.(closes := l.closes + [Close(code, via)])
  }

  /** `_enqueue()`. */
  function Enqueue(cfg: Config, l: Link, m: Message): Link {
    if l.closing then l
    else if |l.outbox| < Cap(cfg) then l.(outbox := l.outbox + [m], enq := l.enq + [m])
    else CloseNow(l.(closing := true), CLOSE_OVERFLOW, ByOverflow)
  }

  /** `send_frame()`. */
  function SendFrame(cfg: Config, l: Link, m: Message): Link {
    if SeqOf(m).None? then Enqueue(cfg, l, m)
    else if SeqOf(m).value <= l.maxSeqSent then l
    else Enqueue(cfg, l.(maxSeqSent := SeqOf(m).value), m)
  }

  /** The replay loop of `on_hello`, run up to and including the last of `rows`. */
  function SendRows(cfg: Config, l: Link, rows: seq<Row>): Link {
    if rows == [] then l
    else SendFrame(cfg, SendRows(cfg, l, rows[..|rows| - 1]), Replay(rows[|rows| - 1]))
  }

  /** The replay burst and its REPLAY_DONE. */
  function SendReplay(cfg: Config, l: Link, rows: seq<Row>, serverSeq: int): Link {
    SendFrame(cfg, SendRows(cfg, l, rows), ReplayDone(serverSeq))
  }

  /** `_drain_then_close` up to its suspension on `join`. */
  function BeginDrain(s: State, l: Link, code: int): State {
    s.(link := l.(closing := true), disp := Draining(code, s.now))
  }

  // ---- inbound ----

  function OnHello(cfg: Config, s: State, lastSeq: Option<nat>): State {
    if !cfg.resumable then s.(disp := Idle, link := SendFrame(cfg, s.link, EphemeralWelcome))
    else match lastSeq
         case None => s.(disp := Idle, link := Enqueue(cfg, s.link, Error(Envelope.BadEnvelope)))
         case Some(n) => s.(disp := AwaitSeq(n))
  }

  /** Gives an authorized hello, received at `received`, to its handler. */
  function HandleHello(cfg: Config, s: State, received: real, lastSeq: Option<nat>): State {
    OnHello(cfg, s.(handled := s.handled + [Handled(received, s.now, |s.verdicts|)]), lastSeq)
  }

  /** The cursor advance of `on_hello`. */
  function RaiseTo(l: Link, lastSeq: nat): Link {
    l.(maxSeqSent := if l.maxSeqSent > lastSeq then l.maxSeqSent else lastSeq, accepted := l.accepted + [lastSeq])
  }

  function OnServerSeq(cfg: Config, s: State, lastSeq: nat, serverSeq: int): State {
    var raised := RaiseTo(SendFrame(cfg, s.link, Welcome(serverSeq)), lastSeq);
    var gap := serverSeq - lastSeq;
    if gap > cfg.maxReplay
    then s.(disp := Idle, link := SendFrame(cfg, raised, Resync(gap, cfg.maxReplay, serverSeq)))
    else s.(disp := AwaitRows(lastSeq, serverSeq), link := raised)
  }

  function OnRows(cfg: Config, s: State, rows: seq<Row>, serverSeq: int): State {
    s.(disp := Idle, link := SendReplay(cfg, s.link, rows, serverSeq))
  }

  /** `receive_json()`. */
  function ReceiveJson(cfg: Config, s: State, inbound: Inbound): State {
    match inbound
    case GotMalformed =>
      var struck := s.(strikes := s.strikes + 1);
      var told := Enqueue(cfg, s.link, Error(Envelope.BadEnvelope));
      if struck.strikes >= PROTOCOL_STRIKES then BeginDrain(struck, told, CLOSE_PROTOCOL_ERROR) else struck.(link := told)
    case GotHello(lastSeq) =>
      if s.now < s.authorizedUntil then HandleHello(cfg, s, s.now, lastSeq)
      else s.(disp := AuthorizingHello(s.now, lastSeq))
    case GotPing => s.(link := SendFrame(cfg, s.link, Pong))
    case GotPong => s.(pongPending := false)
    case GotUnaccepted => s.(link := Enqueue(cfg, s.link, Error(Envelope.BadType)))
  }

  function KickReason(reason: string): string { if reason == "" then "access_revoked" else reason }

  /** `realtime_signal()`, `realtime_frame()` and `realtime_revoke()`. */
  function OnGroup(cfg: Config, s: State, m: GroupMessage): State {
    match m
    case SignalMsg(_, dict) => if dict == map[] then s else s.(link := Enqueue(cfg, s.link, Signal(dict)))
    case FrameMsg(_, n, payload) => s.(link := SendFrame(cfg, s.link, Live(n, payload)))
    case RevokeMsg(_, target, reason) =>
      if target.Some? && target.value != cfg.userId then s
      else BeginDrain(s, SendFrame(cfg, s.link, Kick(KickReason(reason))), CLOSE_REVOKED)
  }

  // ---- lifecycle ----

  function Refuse(s: State, code: int): State {
    s.(disp := Refused, link := CloseNow(s.link, code, ByRefusal))
  }

  function OnConnect(s: State, authenticated: bool, key: Option<string>): State {
    if !authenticated then Refuse(s, CLOSE_UNAUTHENTICATED)
    else if key.None? then Refuse(s, CLOSE_STREAM_UNKNOWN)
    else s.(streamKey := key, disp := AuthorizingConnect(s.now))
  }

  /** The verdict for a question asked at `asked`, recorded in the cache and the log. */
  function Record(cfg: Config, s: State, asked: real, allowed: bool): State {
    s.(authorizedUntil := if allowed then asked + CacheWindow(cfg) else 0.0,
       verdicts := s.verdicts + [Verdict(asked, allowed)])
  }

  /** `_authorize_cached()` resumes with the authorizer's answer, and its caller goes on. */
  function OnVerdict(cfg: Config, s: State, allowed: bool): State
    requires s.disp.AuthorizingConnect? || s.disp.AuthorizingHello?
  {
    var known := Record(cfg, s, s.disp.asked, allowed);
    match s.disp
    case AuthorizingConnect(_) =>
      if allowed then known.(joined := true, presenceSession := true, disp := ConnectPresence(s.now))
      else Refuse(known, CLOSE_FORBIDDEN)
    case AuthorizingHello(asked, lastSeq) =>
      if allowed then HandleHello(cfg, known, asked, lastSeq)
      else BeginDrain(known, Enqueue(cfg, known.link, Error(Envelope.Unauthorized)), CLOSE_FORBIDDEN)
  }

  /** The presence write of `connect` or of `disconnect` has returned. */
  function OnPresence(cfg: Config, s: State, sampled: real): State {
    if s.disp.ConnectPresence?
    then s.(touches := s.touches + [Touch(sampled, s.now)], writer := Waiting, disp := Idle,
            hb := if Beats(cfg) then Sleeping(s.now + cfg.heartbeatS) else Off)
    else s.(disp := Gone)
  }

  function InFlight(w: Writer): seq<Message> {
    match w
    case Sending(item) => [item]
    case Stopped(lost) => lost
    case _ => []
  }

  function OnDisconnect(s: State): State {
    s.(link := s.link.(closing := true), hb := Off,
       writer := if s.writer.NotStarted? then NotStarted else Stopped(InFlight(s.writer)),
       presenceSession := false,
       disp := if s.presenceSession then LeavingPresence else Gone)
  }

  // ---- writer ----

  function Take(l: Link): Link
    requires l.outbox != []
  {
    l.(outbox := l.outbox[1..], taken := l.taken + [l.outbox[0]])
  }

  // ---- heartbeat ----

  function SendPing(cfg: Config, s: State): State {
    s.(pongPending := true, hb := AwaitPong(s.now + PongTimeout(cfg)), link := SendFrame(cfg, s.link, Ping))
  }

  /** The heartbeat loop closes the socket and ends. */
  function GiveUp(s: State, code: int): State {
    s.(hb := Off, link := CloseNow(s.link.(closing := true), code, ByHeartbeat))
  }

  function OnWake(cfg: Config, s: State): State {
    if s.link.closing then s.(hb := Off)
    else if TokenExpired(cfg, s.now) then GiveUp(s, CLOSE_UNAUTHENTICATED)
    else if s.presenceSession then s.(hb := Writing(s.now))
    else SendPing(cfg, s)
  }

  function OnDeadline(cfg: Config, s: State): State {
    if s.pongPending && !s.link.closing then GiveUp(s, CLOSE_HEARTBEAT_TIMEOUT)
    else s.(hb := Sleeping(s.now + cfg.heartbeatS))
  }

  // ---- events ----

  /** What resumes a task, with the value the awaited call returns. */
  datatype Event =
    | Connect(authenticated: bool, key: Option<string>)
    | Authorized(allowed: bool)
    | PresenceWritten(sampled: real)
    | Receive(inbound: Inbound)
    | Group(message: GroupMessage)
    | ServerSeq(serverSeq: int)
    | Rows(rows: seq<Row>)
    | DrainDone
    | DrainTimeout
    | Disconnect
    | WriterTake
    | WriterSent
    | WriterFailed
    | HbWake
    | HbWritten(sampled: real)
    | HbDeadline

  datatype Stamped = At(t: real, e: Event)

  /** `join` returns once every message taken from the queue is marked done and none is left. */
  predicate Drained(s: State) { s.link.outbox == [] && !s.writer.Sending? }

  predicate Enabled(s: State, ev: Stamped) {
    && s.now <= ev.t
    && match ev.e
       case Connect(_, _) => s.disp.New?
       case Authorized(_) => s.disp.AuthorizingConnect? || s.disp.AuthorizingHello?
       case PresenceWritten(x) => (s.disp.ConnectPresence? && s.disp.started <= x <= ev.t) || s.disp.LeavingPresence?
       case Receive(_) => s.disp.Idle?
       case Group(_) => s.disp.Idle?
       case ServerSeq(_) => s.disp.AwaitSeq?
       case Rows(_) => s.disp.AwaitRows?
       case DrainDone => s.disp.Draining? && Drained(s)
       case DrainTimeout => s.disp.Draining? && s.disp.started + DRAIN_TIMEOUT_S <= ev.t
       case Disconnect => s.disp.Idle? || s.disp.Refused?
       case WriterTake => s.writer.Waiting? && s.link.outbox != []
       case WriterSent => s.writer.Sending?
       case WriterFailed => s.writer.Sending?
       case HbWake => s.hb.Sleeping? && s.hb.due <= ev.t
       case HbWritten(x) => s.hb.Writing? && s.hb.since <= x <= ev.t
       case HbDeadline => s.hb.AwaitPong? && s.hb.due <= ev.t
  }

  /** One task runs from the suspension point `ev` resumes to its next one. */
  function Step(cfg: Config, before: State, ev: Stamped): State
    requires Enabled(before, ev)
  {
    var s := before.(now := ev.t);
    match ev.e
    case Connect(authenticated, key) => OnConnect(s, authenticated, key)
    case Authorized(allowed) => OnVerdict(cfg, s, allowed)
    case PresenceWritten(x) => OnPresence(cfg, s, x)
    case Receive(inbound) => ReceiveJson(cfg, s, inbound)
    case Group(m) => OnGroup(cfg, s, m)
    case ServerSeq(n) => OnServerSeq(cfg, s, s.disp.lastSeq, n)
    case Rows(rows) => OnRows(cfg, s, rows, s.disp.serverSeq)
    case DrainDone => s.(disp := Idle, link := CloseNow(s.link, s.disp.code, ByDrain))
    case DrainTimeout => s.(disp := Idle, link := CloseNow(s.link, s.disp.code, ByDrain))
    case Disconnect => OnDisconnect(s)
    case WriterTake => s.(writer := Sending(s.link.outbox[0]), link := Take(s.link))
    case WriterSent => s.(writer := Waiting, wire := s.wire + [s.writer.item])
    case WriterFailed => s.(writer := Stopped([s.writer.item]))
    case HbWake => OnWake(cfg, s)
    case HbWritten(x) => SendPing(cfg, s.(touches := s.touches + [Touch(x, s.now)]))
    case HbDeadline => OnDeadline(cfg, s)
  }
}
