/** The consumer object itself: the fields the three tasks share, updated in place. Each method runs one task from
    a suspension point to its next one, in the order of the source's statements. The object remembers the states it has
    been in and the events that resumed it; `Valid` says that they are a run of the state machine, every method keeps it,
    and so what is proved of runs holds of the object's own fields. */
module Consumers {
  import opened Wrappers
  import opened Json
  import opened Delivery
  import opened Socket
  import opened Runs
  import Envelope

  /** What has happened on a socket so far. */
  datatype Logs = Logs(
    enq: seq<Message>, taken: seq<Message>, wire: seq<Message>, closes: seq<Close>, accepted: seq<int>,
    verdicts: seq<Verdict>, handled: seq<Handled>, touches: seq<Touch>)

  /** From `s` to `r`: the queue is bounded, the wire holds what was queued in order, journal frames ascend, and a closing
      socket stays closing and queues nothing. */
  predicate Orderly(cfg: Config, s: State, r: State) {
    && |r.link.outbox| <= Cap(cfg) && r.wire <= r.link.enq && Ascending(r.wire)
    && (s.link.closing ==> r.link.closing && r.link.enq == s.link.enq)
  }

  /** The history `tr`, `es` goes on from `past`, `events` by the one step `ev`, an orderly one. */
  predicate Continues(cfg: Config, past: seq<State>, events: seq<Stamped>, ev: Stamped, tr: seq<State>, es: seq<Stamped>) {
    && |past| == |events| + 1 && |tr| == |past| + 1 && past <= tr && es == events + [ev]
    && Orderly(cfg, past[|events|], tr[|es|])
  }

  /** What `receive_json` does with the frames that are neither malformed nor a hello. */
  lemma OtherReplies(cfg: Config, s: State)
    ensures ReceiveJson(cfg, s, GotPing) == s.(link := SendFrame(cfg, s.link, Pong))
    ensures ReceiveJson(cfg, s, GotPong) == s.(pongPending := false)
    ensures ReceiveJson(cfg, s, GotUnaccepted) == s.(link := Enqueue(cfg, s.link, Error(Envelope.BadType)))
  {
  }

  class StreamConsumer {
    const cfg: Config
    var streamKey: Option<string>
    var joined: bool
    var presenceSession: bool
    var maxSeqSent: int
    var protocolStrikes: nat
    var pongPending: bool
    var closing: bool
    var authorizedUntil: real
    var outbox: seq<Message>
    // where the three tasks are suspended
    var disp: Dispatcher
    var writer: Writer
    var hb: Heartbeat
    // the clock of the last step, and the logs
    var now: real
    ghost var log: Logs
    // every state so far, and what resumed the object in each of them
    ghost var tr: seq<State>
    ghost var es: seq<Stamped>

    ghost function LinkView(): Link
      reads this
    {
      Link(maxSeqSent, closing, outbox, log.enq, log.taken, log.closes, log.accepted)
    }

    ghost function View(): State
      reads this
    {
      State(now, streamKey, joined, protocolStrikes, pongPending, authorizedUntil, presenceSession, LinkView(),
            disp, writer, hb, log.wire, log.verdicts, log.handled, log.touches)
    }

    /** The object's history is a run, and the object is in its last state. */
    ghost predicate Valid()
      reads this
    {
      IsRun(cfg, tr, es) && tr[|es|] == View()
    }

    /** Puts the step about to be taken on the history. */
    ghost method Note(ev: Stamped)
      requires Valid() && Enabled(View(), ev)
      modifies this`tr, this`es
      ensures Continues(cfg, old(tr), old(es), ev, tr, es)
      ensures IsRun(cfg, tr, es) && |tr| == |es| + 1 && tr[|es|] == Step(cfg, View(), ev)
    {
      var s, r := View(), Step(cfg, View(), ev);
      RunExtends(cfg, tr, es, ev);
      tr, es := tr + [r], es + [ev];
      hide IsRun, Step, Enabled;
      FifoBackpressure(cfg, tr, es, |es|);
      JournalOrder(cfg, tr, es, |es|);
      if closing {
        ClosingIsFreeze(cfg, tr, es, |es| - 1, |es|);
      }
    }

    /** What the whole life of the object so far means for its fields now. */
    lemma LifeSoFar()
      requires Valid()
      ensures log.enq == log.wire + InFlight(writer) + outbox && |outbox| <= Cap(cfg)
      ensures Ascending(log.enq) && (!closing ==> IsPeak(maxSeqSent, log.enq, log.accepted))
      ensures protocolStrikes == Malformed(es, |es|) && (protocolStrikes >= PROTOCOL_STRIKES ==> closing)
      ensures forall i | 0 <= i < |log.handled| :: Fresh(cfg, log.verdicts, log.handled[i])
      ensures |log.closes| > 1 <==>
        exists i: nat, k: nat :: k < |es| && DrainSpan(tr, es, i, k) && Refuses(cfg, tr[i].link)
    {
      var n := |es|;
      assert |tr| == n + 1;
      hide IsRun, Fresh, DrainSpan, Refuses;
      FifoBackpressure(cfg, tr, es, n);
      JournalOrder(cfg, tr, es, n);
      StrikesCount(cfg, tr, es, n);
      ClosedTwiceExactly(cfg, tr, es, n);
      forall i: nat | i < |log.handled| ensures Fresh(cfg, log.verdicts, log.handled[i]) {
        AuthorizationFreshness(cfg, tr, es, n, i);
      }
    }

    /** Across any number of calls: an object that was closing still is, has queued nothing since, and every close but the
        first ended a drain. */
    twostate lemma StaysFrozen()
      requires old(Valid()) && Valid() && old(tr) <= tr && old(es) <= es && old(closing)
      ensures closing && log.enq == old(log.enq) && old(log.closes) <= log.closes
      ensures forall n | 0 < n < |log.closes| :: log.closes[n].via == ByDrain
    {
      assert tr[|old(es)|] == old(View());
      assert |tr| == |es| + 1;
      hide IsRun;
      ClosingIsFreeze(cfg, tr, es, |old(es)|, |es|);
    }

    constructor (cfg: Config, start: real)
      requires start >= 0.0
      ensures Valid() && View() == Init(start) && es == [] && this.cfg == cfg
    {
      this.cfg, now, streamKey, joined, presenceSession := cfg, start, None, false, false;
      maxSeqSent, protocolStrikes, pongPending, closing, authorizedUntil, outbox := 0, 0, false, false, 0.0, [];
      disp, writer, hb := New, NotStarted, Off;
      log := Logs([], [], [], [], [], [], [], []);
      tr, es := [Init(start)], [];
    }

    // ---- outbound ----

    method CloseSocket(code: int, via: Closer)
      modifies this`log
      ensures View() == old(View()).(link := CloseNow(old(LinkView()), code, via))
    {
      log := log.(closes := log.closes + [Close(code, via)]);
    }

    method Enqueue(m: Message)
      modifies this`closing, this`outbox, this`log
      ensures View() == old(View()).(link := Socket.Enqueue(cfg, old(LinkView()), m))
    {
      if closing {
        return;
      }
      if |outbox| < Cap(cfg) {
        outbox := outbox + [m];
        log := log.(enq := log.enq + [m]);
      } else {
        closing := true;
        CloseSocket(CLOSE_OVERFLOW, ByOverflow);
      }
    }

    method SendFrame(m: Message)
      modifies this`maxSeqSent, this`closing, this`outbox, this`log
      ensures View() == old(View()).(link := Socket.SendFrame(cfg, old(LinkView()), m))
    {
      var n := SeqOf(m);
      if n.Some? {
        if n.value <= maxSeqSent {
          return;
        }
        maxSeqSent := n.value;
      }
      Enqueue(m);
    }

    /** `_drain_then_close` up to its wait. */
    method DrainThenClose(code: int)
      modifies this`closing, this`disp
      ensures View() == BeginDrain(old(View()), old(LinkView()), code)
    {
      closing := true;
      disp := Draining(code, now);
    }

    // ---- lifecycle ----

    method Connect(t: real, authenticated: bool, key: Option<string>)
      requires Valid() && Enabled(View(), At(t, Event.Connect(authenticated, key)))
      modifies this
      ensures View() == Step(cfg, old(View()), At(t, Event.Connect(authenticated, key)))
      ensures Valid() && Continues(cfg, old(tr), old(es), At(t, Event.Connect(authenticated, key)), tr, es)
    {
      hide IsRun, Continues;
      Note(At(t, Event.Connect(authenticated, key)));
      now := t;
      if !authenticated {
        disp := Refused;
        CloseSocket(CLOSE_UNAUTHENTICATED, ByRefusal);
        return;
      }
      if key.None? {
        disp := Refused;
        CloseSocket(CLOSE_STREAM_UNKNOWN, ByRefusal);
        return;
      }
      streamKey := key;
      disp := AuthorizingConnect(t);
    }

    /** The first half of `_authorize_cached`, when a hello arrives: a warm verdict is used, otherwise the question is put. */
    method AuthorizeCached(lastSeq: Option<nat>) returns (allowed: bool)
      requires disp.Idle?
      modifies this`disp
      ensures allowed <==> now < authorizedUntil
      ensures disp == if allowed then old(disp) else AuthorizingHello(now, lastSeq)
    {
      allowed := now < authorizedUntil;
      if !allowed {
        disp := AuthorizingHello(now, lastSeq);
      }
    }

    /** The second half of `_authorize_cached`: the answer to the question put at `asked`. */
    method NoteVerdict(asked: real, allowed: bool)
      modifies this`authorizedUntil, this`log
      ensures View() == Record(cfg, old(View()), asked, allowed)
    {
      if allowed {
        authorizedUntil := asked + CacheWindow(cfg);
      } else {
        authorizedUntil := 0.0;
      }
      log := log.(verdicts := log.verdicts + [Verdict(asked, allowed)]);
    }

    /** The rest of `connect` up to its presence write, or the refusal. */
    method Admit(allowed: bool)
      modifies this`joined, this`presenceSession, this`disp, this`log
      ensures View() == if allowed then old(View()).(joined := true, presenceSession := true, disp := ConnectPresence(now))
        else Refuse(old(View()), CLOSE_FORBIDDEN)
    {
      if allowed {
        joined := true;
        presenceSession := true;
        disp := ConnectPresence(now);
      } else {
        disp := Refused;
        CloseSocket(CLOSE_FORBIDDEN, ByRefusal);
      }
    }

    method VerdictArrives(t: real, allowed: bool)
      requires Valid() && Enabled(View(), At(t, Authorized(allowed)))
      modifies this
      ensures View() == Step(cfg, old(View()), At(t, Authorized(allowed)))
      ensures Valid() && Continues(cfg, old(tr), old(es), At(t, Authorized(allowed)), tr, es)
    {
      hide OnConnect, OnPresence, Socket.ReceiveJson, OnGroup, OnServerSeq, OnRows, OnDisconnect, OnWake,
           Socket.SendPing, OnDeadline, Socket.Enqueue, HandleHello;
      hide IsRun, Continues;
      Note(At(t, Authorized(allowed)));
      now := t;
      NoteVerdict(disp.asked, allowed);
      if disp.AuthorizingConnect? {
        Admit(allowed);
      } else if allowed {
        OnHello(disp.asked, disp.hello);
      } else {
        Enqueue(Error(Envelope.Unauthorized));
        DrainThenClose(CLOSE_FORBIDDEN);
      }
    }

    /** The presence write of `connect` or of `disconnect` returns. */
    method PresenceReturns(t: real, sampled: real)
      requires Valid() && Enabled(View(), At(t, PresenceWritten(sampled)))
      modifies this
      ensures View() == Step(cfg, old(View()), At(t, PresenceWritten(sampled)))
      ensures Valid() && Continues(cfg, old(tr), old(es), At(t, PresenceWritten(sampled)), tr, es)
    {
      hide OnConnect, OnVerdict, Socket.ReceiveJson, OnGroup, OnServerSeq, OnRows, OnDisconnect, OnWake,
           Socket.SendPing, OnDeadline;
      hide IsRun, Continues;
      Note(At(t, PresenceWritten(sampled)));
      now := t;
      if disp.ConnectPresence? {
        log := log.(touches := log.touches + [Touch(sampled, t)]);
        writer := Waiting;
        if Beats(cfg) {
          hb := Sleeping(t + cfg.heartbeatS);
        } else {
          hb := Off;
        }
        disp := Idle;
      } else {
        disp := Gone;
      }
    }

    /** Cancels the heartbeat and the writer, which loses what it was sending. */
    method CancelTasks()
      modifies this`hb, this`writer
      ensures View() == old(View()).(hb := Off,
        writer := if old(writer).NotStarted? then NotStarted else Stopped(InFlight(old(writer))))
    {
      hb := Off;
      if !writer.NotStarted? {
        writer := Stopped(InFlight(writer));
      }
    }

    method Disconnect(t: real)
      requires Valid() && Enabled(View(), At(t, Event.Disconnect))
      modifies this
      ensures View() == Step(cfg, old(View()), At(t, Event.Disconnect))
      ensures Valid() && Continues(cfg, old(tr), old(es), At(t, Event.Disconnect), tr, es)
    {
      hide OnConnect, OnVerdict, OnPresence, Socket.ReceiveJson, OnGroup, OnServerSeq, OnRows, OnWake,
           Socket.SendPing, OnDeadline;
      hide IsRun, Continues, InFlight;
      Note(At(t, Event.Disconnect));
      now, closing := t, true;
      CancelTasks();
      if presenceSession {
        presenceSession := false;
        disp := LeavingPresence;
      } else {
        disp := Gone;
      }
    }

    // ---- inbound ----

    method OnHello(received: real, lastSeq: Option<nat>)
      modifies this`maxSeqSent, this`closing, this`outbox, this`disp, this`log
      ensures View() == HandleHello(cfg, old(View()), received, lastSeq)
    {
      log := log.(handled := log.handled + [Handled(received, now, |log.verdicts|)]);
      disp := Idle;
      if !cfg.resumable {
        SendFrame(EphemeralWelcome);
      } else if lastSeq.None? {
        Enqueue(Error(Envelope.BadEnvelope));
      } else {
        disp := AwaitSeq(lastSeq.value);
      }
    }

    /** A frame that is no envelope: answered, counted, and the third one drained away. */
    method Strike()
      modifies this`protocolStrikes, this`closing, this`outbox, this`disp, this`log
      ensures View() == Socket.ReceiveJson(cfg, old(View()), GotMalformed)
    {
      hide Socket.Enqueue;
      protocolStrikes := protocolStrikes + 1;
      Enqueue(Error(Envelope.BadEnvelope));
      if protocolStrikes >= PROTOCOL_STRIKES {
        DrainThenClose(CLOSE_PROTOCOL_ERROR);
      }
    }

    /** A hello is handled at once on a warm verdict; otherwise the authorizer is asked. */
    method HelloReceived(lastSeq: Option<nat>)
      requires disp.Idle?
      modifies this`maxSeqSent, this`closing, this`outbox, this`disp, this`log
      ensures View() == Socket.ReceiveJson(cfg, old(View()), GotHello(lastSeq))
    {
      hide HandleHello;
      var allowed := AuthorizeCached(lastSeq);
      if allowed {
        OnHello(now, lastSeq);
      }
    }

    method ReceiveJson(t: real, raw: Json)
      requires Valid() && Enabled(View(), At(t, Receive(Classify(raw))))
      modifies this
      ensures View() == Step(cfg, old(View()), At(t, Receive(Classify(raw))))
      ensures Valid() && Continues(cfg, old(tr), old(es), At(t, Receive(Classify(raw))), tr, es)
    {
      hide OnConnect, OnVerdict, OnPresence, Socket.ReceiveJson, OnGroup, OnServerSeq, OnRows, OnDisconnect, OnWake,
           Socket.SendPing, OnDeadline, HandleHello, Socket.Enqueue, Socket.SendFrame, Envelope.ParseFrame, LastSeq;
      hide IsRun, Continues;
      Note(At(t, Receive(Classify(raw))));
      now := t;
      OtherReplies(cfg, View());
      var parsed := Envelope.ParseFrame(raw);
      if parsed.Failure? {
        Strike();
        return;
      }
      match parsed.value.ftype
      case Hello => HelloReceived(LastSeq(parsed.value.payload));
      case Ping => SendFrame(Pong);
      case Pong => pongPending := false;
      case _ => Enqueue(Error(Envelope.BadType));
    }

    /** Moves the dedup cursor to what the client claims to hold. */
    method Advance(lastSeq: nat)
      modifies this`maxSeqSent, this`log
      ensures View() == old(View()).(link := RaiseTo(old(LinkView()), lastSeq))
    {
      if lastSeq > maxSeqSent {
        maxSeqSent := lastSeq;
      }
      log := log.(accepted := log.accepted + [lastSeq]);
    }

    /** `get_server_seq` returns. */
    method ServerSeqArrives(t: real, serverSeq: int)
      requires Valid() && Enabled(View(), At(t, ServerSeq(serverSeq)))
      modifies this
      ensures View() == Step(cfg, old(View()), At(t, ServerSeq(serverSeq)))
      ensures Valid() && Continues(cfg, old(tr), old(es), At(t, ServerSeq(serverSeq)), tr, es)
    {
      hide OnConnect, OnVerdict, OnPresence, Socket.ReceiveJson, OnGroup, OnRows, OnDisconnect, OnWake,
           Socket.SendPing, OnDeadline, Socket.SendFrame, RaiseTo;
      hide IsRun, Continues;
      Note(At(t, ServerSeq(serverSeq)));
      now := t;
      var lastSeq := disp.lastSeq;
      SendFrame(Welcome(serverSeq));
      Advance(lastSeq);
      if serverSeq - lastSeq > cfg.maxReplay {
        disp := Idle;
        SendFrame(Resync(serverSeq - lastSeq, cfg.maxReplay, serverSeq));
      } else {
        disp := AwaitRows(lastSeq, serverSeq);
      }
    }

    /** `get_replay_rows` returns: the replay loop and REPLAY_DONE. */
    method RowsArrive(t: real, rows: seq<Row>)
      requires Valid() && Enabled(View(), At(t, Rows(rows)))
      modifies this
      ensures View() == Step(cfg, old(View()), At(t, Rows(rows)))
      ensures Valid() && Continues(cfg, old(tr), old(es), At(t, Rows(rows)), tr, es)
    {
      hide OnConnect, OnVerdict, OnPresence, Socket.ReceiveJson, OnGroup, OnServerSeq, OnDisconnect, OnWake,
           Socket.SendPing, OnDeadline, Socket.SendFrame;
      hide IsRun, Continues;
      Note(At(t, Rows(rows)));
      now := t;
      var serverSeq := disp.serverSeq;
      for i := 0 to |rows|
        modifies this`maxSeqSent, this`closing, this`outbox, this`log
        invariant View() == old(View()).(now := t, link := SendRows(cfg, old(LinkView()), rows[..i]))
      {
        assert rows[..i + 1][..i] == rows[..i];
        SendFrame(Replay(rows[i]));
      }
      assert rows[..|rows|] == rows;
      disp := Idle;
      SendFrame(ReplayDone(serverSeq));
    }

    /** `realtime_signal`, `realtime_frame` and `realtime_revoke`. */
    method GroupEvent(t: real, message: GroupMessage)
      requires Valid() && Enabled(View(), At(t, Group(message)))
      modifies this
      ensures View() == Step(cfg, old(View()), At(t, Group(message)))
      ensures Valid() && Continues(cfg, old(tr), old(es), At(t, Group(message)), tr, es)
    {
      hide IsRun, Continues;
      Note(At(t, Group(message)));
      now := t;
      match message
      case SignalMsg(_, dict) =>
        if dict != map[] {
          Enqueue(Signal(dict));
        }
      case FrameMsg(_, n, payload) => SendFrame(Live(n, payload));
      case RevokeMsg(_, target, reason) =>
        if target.Some? && target.value != cfg.userId {
          return;
        }
        SendFrame(Kick(KickReason(reason)));
        DrainThenClose(CLOSE_REVOKED);
    }

    /** The wait of `_drain_then_close` ends, drained or timed out. */
    method DrainEnds(t: real, drained: bool)
      requires Valid() && Enabled(View(), At(t, if drained then DrainDone else DrainTimeout))
      modifies this
      ensures View() == Step(cfg, old(View()), At(t, if drained then DrainDone else DrainTimeout))
      ensures Valid() && Continues(cfg, old(tr), old(es), At(t, if drained then DrainDone else DrainTimeout), tr, es)
    {
      hide IsRun, Continues;
      Note(At(t, if drained then DrainDone else DrainTimeout));
      now := t;
      var code := disp.code;
      disp := Idle;
      CloseSocket(code, ByDrain);
    }

    // ---- the writer task ----

    method WriterTakes(t: real)
      requires Valid() && Enabled(View(), At(t, WriterTake))
      modifies this
      ensures View() == Step(cfg, old(View()), At(t, WriterTake))
      ensures Valid() && Continues(cfg, old(tr), old(es), At(t, WriterTake), tr, es)
    {
      hide OnConnect, OnVerdict, OnPresence, Socket.ReceiveJson, OnGroup, OnServerSeq, OnRows, OnDisconnect, OnWake,
           Socket.SendPing, OnDeadline;
      hide IsRun, Continues;
      Note(At(t, WriterTake));
      now := t;
      var item := outbox[0];
      outbox := outbox[1..];
      log := log.(taken := log.taken + [item]);
      writer := Sending(item);
    }

    method SendReturns(t: real, failed: bool)
      requires Valid() && Enabled(View(), At(t, if failed then WriterFailed else WriterSent))
      modifies this
      ensures View() == Step(cfg, old(View()), At(t, if failed then WriterFailed else WriterSent))
      ensures Valid() && Continues(cfg, old(tr), old(es), At(t, if failed then WriterFailed else WriterSent), tr, es)
    {
      hide IsRun, Continues;
      Note(At(t, if failed then WriterFailed else WriterSent));
      now := t;
      if failed {
        writer := Stopped([writer.item]);
      } else {
        log := log.(wire := log.wire + [writer.item]);
        writer := Waiting;
      }
    }

    // ---- the heartbeat task ----

    method SendPing()
      modifies this`pongPending, this`maxSeqSent, this`closing, this`outbox, this`hb, this`log
      ensures View() == Socket.SendPing(cfg, old(View()))
    {
      pongPending := true;
      SendFrame(Ping);
      hb := AwaitPong(now + PongTimeout(cfg));
    }

    method GiveUpOn(code: int)
      modifies this`closing, this`hb, this`log
      ensures View() == GiveUp(old(View()), code)
    {
      closing := true;
      CloseSocket(code, ByHeartbeat);
      hb := Off;
    }

    method HeartbeatWakes(t: real)
      requires Valid() && Enabled(View(), At(t, HbWake))
      modifies this
      ensures View() == Step(cfg, old(View()), At(t, HbWake))
      ensures Valid() && Continues(cfg, old(tr), old(es), At(t, HbWake), tr, es)
    {
      hide IsRun, Continues;
      Note(At(t, HbWake));
      now := t;
      if closing {
        hb := Off;
      } else if TokenExpired(cfg, t) {
        GiveUpOn(CLOSE_UNAUTHENTICATED);
      } else if presenceSession {
        hb := Writing(t);
      } else {
        SendPing();
      }
    }

    method HeartbeatTouched(t: real, sampled: real)
      requires Valid() && Enabled(View(), At(t, HbWritten(sampled)))
      modifies this
      ensures View() == Step(cfg, old(View()), At(t, HbWritten(sampled)))
      ensures Valid() && Continues(cfg, old(tr), old(es), At(t, HbWritten(sampled)), tr, es)
    {
      hide IsRun, Continues;
      Note(At(t, HbWritten(sampled)));
      now := t;
      log := log.(touches := log.touches + [Touch(sampled, t)]);
      SendPing();
    }

    method PongDeadlinePasses(t: real)
      requires Valid() && Enabled(View(), At(t, HbDeadline))
      modifies this
      ensures View() == Step(cfg, old(View()), At(t, HbDeadline))
      ensures Valid() && Continues(cfg, old(tr), old(es), At(t, HbDeadline), tr, es)
    {
      hide IsRun, Continues;
      Note(At(t, HbDeadline));
      now := t;
      if pongPending && !closing {
        GiveUpOn(CLOSE_HEARTBEAT_TIMEOUT);
      } else {
        hb := Sleeping(t + cfg.heartbeatS);
      }
    }
  }
}
