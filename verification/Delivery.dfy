/** The producer side of the fan-out (delivery.py): what each send call hands to the channel layer. */
module Delivery {
  import opened Wrappers
  import opened Json
  import opened Envelope
  import opened Streams

  /** The three group messages a socket can receive. */
  datatype GroupMessage =
    | SignalMsg(stream: string, frame: map<string, Json>)
    | FrameMsg(stream: string, seqNo: Option<int>, payload: map<string, Json>)
    | RevokeMsg(stream: string, userId: Option<string>, reason: string)

  /** `Sent` is a call to the layer's `group_send`, `NotSent` the answer False, `Raised` an escaping exception. */
  datatype Outcome = NotSent | Sent(group: string, message: GroupMessage) | Raised

  /** A send call made by a module. A journal call's number is whatever `int` is applied to, and its payload what `dict`
      makes of the argument: None when that raises. */
  datatype Call =
    | SendSignal(key: string, frame: Json)
    | SendJournal(key: string, seqNo: Json, payload: Option<map<string, Json>>)
    | SendRevoke(key: string, userId: Option<string>, reason: string)

  /** `_group_send()`: an absent layer, an illegal key and a failing layer all answer False. */
  function GroupSend(valid: string -> bool, digest: string -> string, layerUp: bool, key: string, m: GroupMessage): Outcome {
    if !layerUp then NotSent
    else match GroupName(valid, digest, key)
         case None => NotSent
         case Some(g) => Sent(g, m)
  }

  /** `deliver()`, `deliver_frame()` and `revoke()`. Asking whether a list or an object is in a frozenset
      raises TypeError, and `deliver` asks outside any `try`; so does `deliver_frame` convert its arguments. */
  function Perform(valid: string -> bool, digest: string -> string, layerUp: bool, c: Call): Outcome {
    match c
    case SendSignal(key, frame) =>
      if !frame.Object? then NotSent
      else
        var kind := Get(frame.fields, "type");
        if kind.List? || kind.Object? then Raised
        else if kind.Str? && IsProtocolName(kind.s) then NotSent
        else GroupSend(valid, digest, layerUp, key, SignalMsg(key, frame.fields))
    case SendJournal(key, n, payload) =>
      if ToInt(n).None? || payload.None? then Raised
      else GroupSend(valid, digest, layerUp, key, FrameMsg(key, ToInt(n), payload.value))
    case SendRevoke(key, user, reason) => GroupSend(valid, digest, layerUp, key, RevokeMsg(key, user, reason))
  }

  /** The best-effort promise "never raises" holds exactly for signals whose type can be hashed, for journal calls whose
      number and payload convert, and for every revocation. */
  lemma RaisesExactly(valid: string -> bool, digest: string -> string, layerUp: bool, c: Call)
    ensures Perform(valid, digest, layerUp, c).Raised? <==>
      || (c.SendSignal? && c.frame.Object? && "type" in c.frame.fields
          && (c.frame.fields["type"].List? || c.frame.fields["type"].Object?))
      || (c.SendJournal? && (ToInt(c.seqNo).None? || c.payload.None?))
  {
    if c.SendJournal? || c.SendRevoke? {
      assert GroupName(valid, digest, c.key).None? || GroupName(valid, digest, c.key).Some?;
    }
  }

  /** A signal frame that reaches the layer is read by a client, if at all, as a signal. */
  lemma SignalsStaySignals(valid: string -> bool, digest: string -> string, layerUp: bool, c: Call)
    requires var o := Perform(valid, digest, layerUp, c); o.Sent? && o.message.SignalMsg?
    ensures var f := ParseFrame(Object(Perform(valid, digest, layerUp, c).message.frame));
      f.Success? ==> IsSignal(f.value)
  {
  }

  /** The signal frame a call may send: an object whose type is hashable and no protocol name. */
  ghost predicate Sendable(frame: Json) {
    frame.Object? && match Get(frame.fields, "type")
                     case Str(name) => forall t: FrameType | !t.Named? :: NameOf(t) != name
                     case List(_) => false
                     case Object(_) => false
                     case _ => true
  }

  lemma ProtocolNames(name: string)
    ensures IsProtocolName(name) <==> exists t: FrameType :: !t.Named? && NameOf(t) == name
  {
    var t := TypeOf(name);
    assert NameOf(t) == name;
    forall u: FrameType | !u.Named? && NameOf(u) == name ensures IsProtocolName(name) {
      TypeNames(u);
    }
  }

  /** Best effort, exactly: a call reaches the layer if and only if the layer is up, the key is legal and the arguments are
      sendable; and then it is the call's own message, unchanged, to the group of the call's own key. */
  lemma SentExactly(valid: string -> bool, digest: string -> string, layerUp: bool, c: Call)
    ensures var o := Perform(valid, digest, layerUp, c);
      && (o.Sent? <==>
            layerUp && ParseKey(valid, c.key).Some?
            && match c
               case SendSignal(_, frame) => Sendable(frame)
               case SendJournal(_, n, payload) => ToInt(n).Some? && payload.Some?
               case SendRevoke(_, _, _) => true)
      && (o.Sent? ==>
            && Some(o.group) == GroupName(valid, digest, c.key)
            && match c
               case SendSignal(key, frame) => o.message == SignalMsg(key, frame.fields)
               case SendJournal(key, n, payload) => o.message == FrameMsg(key, ToInt(n), payload.value)
               case SendRevoke(key, user, reason) => o.message == RevokeMsg(key, user, reason))
  {
    if c.SendSignal? && c.frame.Object? {
      var kind := Get(c.frame.fields, "type");
      if kind.Str? {
        ProtocolNames(kind.s);
      }
    }
  }
}
