/** Wire envelope v1 (envelope.py): frame types, building, parsing. */
module Envelope {
  import opened Wrappers
  import opened Json

  /** The eleven names the protocol owns, and every other name, which is a signal's. */
  datatype FrameType =
    | Hello | Ping | Pong
    | Welcome | Replay | ReplayDone | Live | Ephemeral | Resync | Kick | Error
    | Named(name: string)

  function NameOf(t: FrameType): string {
    match t
    case Hello => "hello"
    case Ping => "ping"
    case Pong => "pong"
    case Welcome => "welcome"
    case Replay => "replay"
    case ReplayDone => "replay_done"
    case Live => "live"
    case Ephemeral => "ephemeral"
    case Resync => "resync"
    case Kick => "kick"
    case Error => "error"
    case Named(name) => name
  }

  /** The type a wire name denotes: protocol names win over signal names. */
  function TypeOf(name: string): FrameType {
    if name == "hello" then Hello
    else if name == "ping" then Ping
    else if name == "pong" then Pong
    else if name == "welcome" then Welcome
    else if name == "replay" then Replay
    else if name == "replay_done" then ReplayDone
    else if name == "live" then Live
    else if name == "ephemeral" then Ephemeral
    else if name == "resync" then Resync
    else if name == "kick" then Kick
    else if name == "error" then Error
    else Named(name)
  }

  predicate IsProtocolName(name: string) { !TypeOf(name).Named? }

  /** A frame type as `TypeOf` yields it: a `Named` type does not shadow the protocol. */
  predicate Canonical(t: FrameType) { t.Named? ==> !IsProtocolName(t.name) }

  /** An envelope. `seqNo` is present exactly on journal frames. */
  datatype Frame = Frame(ftype: FrameType, payload: map<string, Json>, seqNo: Option<int>, stream: Option<string>)

  predicate IsSignal(f: Frame) { f.ftype.Named? }

  predicate IsJournal(f: Frame) { f.seqNo.Some? }

  datatype ErrorCode = BadEnvelope | BadType | Unauthorized

  function CodeName(code: ErrorCode): string {
    match code
    case BadEnvelope => "bad_envelope"
    case BadType => "bad_type"
    case Unauthorized => "unauthorized"
  }

  function ErrorPayload(code: ErrorCode): map<string, Json> { map["code" := Str(CodeName(code))] }

  /** `frame()`: the dictionary put on the wire. */
  function Encode(f: Frame): Json {
    var base := map["v" := Int(1), "type" := Str(NameOf(f.ftype)), "payload" := Object(f.payload)];
    var withSeq := if f.seqNo.Some? then base["seq" := Int(f.seqNo.value)] else base;
    Object(if f.stream.Some? then withSeq["stream" := Str(f.stream.value)] else withSeq)
  }

  datatype InvalidEnvelope =
    NotAnObject | UnsupportedVersion | MissingType | BadPayload | BadSeq | BadStream

  function Get(m: map<string, Json>, key: string): Json {
    if key in m then m[key] else Null
  }

  /** `parse_frame()`: validates in the order the code does. */
  function ParseFrame(raw: Json): Result<Frame, InvalidEnvelope> {
    if !raw.Object? then Failure(NotAnObject)
    else
      var m := raw.fields;
      var kind, payload, seqNo, stream := Get(m, "type"), Get(m, "payload"), Get(m, "seq"), Get(m, "stream");
      if !EqualsOne(Get(m, "v")) then Failure(UnsupportedVersion)
      else if !kind.Str? || kind.s == "" then Failure(MissingType)
      else if !payload.Null? && !payload.Object? then Failure(BadPayload)
      else if !seqNo.Null? && ToInt(seqNo).None? then Failure(BadSeq)
      else if !stream.Null? && !stream.Str? then Failure(BadStream)
      else Success(Frame(
        TypeOf(kind.s),
        if payload.Object? then payload.fields else map[],
        if seqNo.Null? then None else ToInt(seqNo),
        if stream.Str? then Some(stream.s) else None))
  }

  /** Every protocol name denotes its own type, so no two of the eleven share a name. */
  lemma TypeNames(t: FrameType)
    requires Canonical(t)
    ensures TypeOf(NameOf(t)) == t
  {
  }

  /** Round trip: what `frame()` builds, `parse_frame()` reads back unchanged. */
  lemma EncodeThenParse(f: Frame)
    requires Canonical(f.ftype) && NameOf(f.ftype) != ""
    ensures ParseFrame(Encode(f)) == Success(f)
  {
    TypeNames(f.ftype);
  }

  /** Every accepted envelope has a canonical form that parses to the same frame. */
  lemma ParseThenEncode(raw: Json)
    requires ParseFrame(raw).Success?
    ensures ParseFrame(Encode(ParseFrame(raw).value)) == ParseFrame(raw)
  {
    EncodeThenParse(ParseFrame(raw).value);
  }

  predicate Has(m: map<string, Json>, key: string) { key in m && m[key] != Null }

  /** What is accepted, exactly: an object of version 1 with a named type, whose payload, number and stream are each missing,
      null or of their own kind; and the frame says what the object says. */
  lemma AcceptedExactly(raw: Json)
    ensures ParseFrame(raw).Success? <==>
      && raw.Object?
      && var m := raw.fields;
      && "v" in m && (m["v"] == Int(1) || m["v"] == Float(1.0) || m["v"] == Bool(true))
      && "type" in m && m["type"].Str? && m["type"] != Str("")
      && (Has(m, "payload") ==> m["payload"].Object?)
      && (Has(m, "seq") ==> ToInt(m["seq"]).Some?)
      && (Has(m, "stream") ==> m["stream"].Str?)
    ensures ParseFrame(raw).Success? ==>
      var f, m := ParseFrame(raw).value, raw.fields;
      && NameOf(f.ftype) == m["type"].s
      && f.payload == (if Has(m, "payload") then m["payload"].fields else map[])
      && f.seqNo == (if Has(m, "seq") then ToInt(m["seq"]) else None)
      && f.stream == (if Has(m, "stream") then Some(m["stream"].s) else None)
  {
  }
}
