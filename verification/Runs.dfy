/** Whole runs of one socket, and what holds in every state a run reaches. */
module Runs {
  import opened Wrappers
  import opened Delivery
  import opened Socket
  import Envelope

  /** `tr` lists the states a socket goes through while `es` happens to it. */
  ghost predicate IsRun(cfg: Config, tr: seq<State>, es: seq<Stamped>) {
    && |tr| == |es| + 1
    && tr[0] == Init(tr[0].now) && tr[0].now >= 0.0
    && forall k | 0 <= k < |es| :: StepsAt(cfg, tr, es, k)
  }

  ghost predicate StepsAt(cfg: Config, tr: seq<State>, es: seq<Stamped>, k: nat)
    requires k < |es| && k + 1 < |tr|
  {
    Enabled(tr[k], es[k]) && tr[k + 1] == Step(cfg, tr[k], es[k])
  }

  /** A run goes on with any event that is enabled in its last state. */
  lemma RunExtends(cfg: Config, tr: seq<State>, es: seq<Stamped>, ev: Stamped)
    requires IsRun(cfg, tr, es) && Enabled(tr[|es|], ev)
    ensures IsRun(cfg, tr + [Step(cfg, tr[|es|], ev)], es + [ev])
  {
    hide Step, Enabled;
    var tr', es' := tr + [Step(cfg, tr[|es|], ev)], es + [ev];
    forall k | 0 <= k < |es'| ensures StepsAt(cfg, tr', es', k) {
      if k < |es| {
        assert StepsAt(cfg, tr, es, k);
      }
    }
  }

  // ---- the invariants ----

  /** Before the connection is usable: nothing queued, nothing running. */
  predicate Early(d: Dispatcher) { d.New? || d.AuthorizingConnect? || d.Refused? || d.ConnectPresence? }

  predicate Over(d: Dispatcher) { d.LeavingPresence? || d.Gone? }

  /** Between the end of `connect` and `disconnect`. */
  predicate Connected(s: State) { !Early(s.disp) && !Over(s.disp) }

  predicate Control(cfg: Config, s: State) {
    && (Early(s.disp) ==> s.writer.NotStarted? && s.hb.Off? && s.wire == [] && s.handled == [] && s.touches == [])
    && (Early(s.disp) ==> s.link == EMPTY_LINK.(closes := s.link.closes))
    && (Early(s.disp) && !s.disp.Refused? ==> s.link.closes == [])
    && (s.disp.ConnectPresence? || Connected(s) ==> s.joined && s.presenceSession)
    && (Early(s.disp) && !s.disp.ConnectPresence? ==> !s.joined && !s.presenceSession)
    && (Connected(s) ==> !s.writer.NotStarted?)
    && (s.disp.Draining? || Over(s.disp) ==> s.link.closing)
    && (Over(s.disp) ==> s.hb.Off? && (s.writer.NotStarted? || s.writer.Stopped?))
    && (Connected(s) && !s.link.closing && Beats(cfg) ==> !s.hb.Off?)
    && (!Beats(cfg) ==> s.hb.Off?)
  }

  /** The queue never holds more than `max(1, SEND_QUEUE_SIZE)`, and is what was queued and not yet taken. */
  predicate Bounded(cfg: Config, l: Link) {
    |l.outbox| <= Cap(cfg) && l.enq == l.taken + l.outbox
  }

  /** What the writer took is what is on the wire and at most one message in flight or lost. */
  predicate Fifo(s: State) {
    s.link.taken == s.wire + InFlight(s.writer) && |InFlight(s.writer)| <= 1
  }

  predicate IsJournal(m: Message) { SeqOf(m).Some? }

  /** REPLAY and LIVE messages carry strictly increasing numbers. */
  predicate Ascending(ms: seq<Message>) {
    forall i, j | 0 <= i < j < |ms| && IsJournal(ms[i]) && IsJournal(ms[j]) :: SeqOf(ms[i]).value < SeqOf(ms[j]).value
  }

  /** `n` is the largest of 0, the numbers queued and the numbers claimed. */
  predicate IsPeak(n: int, ms: seq<Message>, claimed: seq<int>) {
    Above(n, ms, claimed) && (n == 0 || n in claimed || exists i | 0 <= i < |ms| :: SeqOf(ms[i]) == Some(n))
  }

  predicate Above(n: int, ms: seq<Message>, claimed: seq<int>) {
    && 0 <= n
    && (forall i | 0 <= i < |ms| && IsJournal(ms[i]) :: SeqOf(ms[i]).value <= n)
    && (forall c | c in claimed :: c <= n)
  }

  /** Journal frames are queued in strictly increasing order, and while the link is open the cursor is exactly
      the largest number queued or claimed so far. */
  predicate Journal(l: Link) {
    && Ascending(l.enq)
    && Above(l.maxSeqSent, l.enq, l.accepted)
    && (!l.closing ==> IsPeak(l.maxSeqSent, l.enq, l.accepted))
  }

  /** The message that tells the client why the socket is about to be drained and closed with `code`. */
  predicate Explains(code: int, m: Message) {
    && (code == CLOSE_REVOKED ==> m.Kick?)
    && (code == CLOSE_PROTOCOL_ERROR ==> m == Error(Envelope.BadEnvelope))
    && (code == CLOSE_FORBIDDEN ==> m == Error(Envelope.Unauthorized))
  }

  predicate DrainCode(code: int) { code == CLOSE_REVOKED || code == CLOSE_PROTOCOL_ERROR || code == CLOSE_FORBIDDEN }

  predicate Explained(code: int, ms: seq<Message>) { ms != [] && Explains(code, ms[|ms| - 1]) }

  /** The first close of an accepted socket, and what had been queued by then. */
  predicate FirstClose(c: Close, ms: seq<Message>) {
    match c.via
    case ByRefusal => false
    case ByOverflow => c.code == CLOSE_OVERFLOW
    case ByHeartbeat => c.code == CLOSE_UNAUTHENTICATED || c.code == CLOSE_HEARTBEAT_TIMEOUT
    case ByDrain => DrainCode(c.code) && Explained(c.code, ms)
  }

  predicate Closes(s: State) {
    && (forall i | 0 < i < |s.link.closes| :: s.link.closes[i].via == ByDrain)
    && (s.joined && !s.link.closing ==> s.link.closes == [])
    && (s.link.closing && Connected(s) && !s.disp.Draining? ==> s.link.closes != [])
    && (s.disp.Draining? ==> DrainCode(s.disp.code))
    && (s.disp.Draining? && s.link.closes == [] ==> Explained(s.disp.code, s.link.enq))
    && (s.joined && s.link.closes != [] ==> FirstClose(s.link.closes[0], s.link.enq))
  }

  /** When the cached verdict stops being usable: `AUTHORIZE_CACHE_S` after it was asked for, if it was positive. */
  function CachedUntil(cfg: Config, verdicts: seq<Verdict>): real {
    if verdicts == [] || !verdicts[|verdicts| - 1].allowed then 0.0
    else verdicts[|verdicts| - 1].asked + CacheWindow(cfg)
  }

  /** The newest verdict known when the hello was handled was positive, and was asked for on receipt of that very
      hello or less than `AUTHORIZE_CACHE_S` before it. */
  predicate Fresh(cfg: Config, verdicts: seq<Verdict>, h: Handled) {
    && 0 < h.verdictsIn <= |verdicts|
    && var v := verdicts[h.verdictsIn - 1];
    && v.allowed && v.asked <= h.received <= h.at
    && (v.asked == h.received || h.received < v.asked + CacheWindow(cfg))
  }

  predicate Authority(cfg: Config, s: State) {
    && 0.0 <= s.now
    && s.authorizedUntil == CachedUntil(cfg, s.verdicts)
    && (forall i | 0 <= i < |s.verdicts| :: s.verdicts[i].asked <= s.now)
    && (s.disp.AuthorizingConnect? || s.disp.AuthorizingHello? ==> s.disp.asked <= s.now)
    && (forall i | 0 <= i < |s.handled| :: Fresh(cfg, s.verdicts, s.handled[i]))
  }

  predicate LinkInv(cfg: Config, l: Link) { Bounded(cfg, l) && Journal(l) }

  predicate Inv(cfg: Config, s: State) {
    Control(cfg, s) && LinkInv(cfg, s.link) && Fifo(s) && Closes(s) && Authority(cfg, s)
  }

  // ---- what the queueing primitives keep ----

  lemma EnqueueKeeps(cfg: Config, l: Link, m: Message)
    requires LinkInv(cfg, l) && !IsJournal(m)
    ensures LinkInv(cfg, Enqueue(cfg, l, m))
  {
    var r := Enqueue(cfg, l, m);
    if r.enq != l.enq {
      forall i | 0 <= i < |l.enq| ensures r.enq[i] == l.enq[i] { }
    }
  }

  lemma SendFrameKeeps(cfg: Config, l: Link, m: Message)
    requires LinkInv(cfg, l)
    ensures LinkInv(cfg, SendFrame(cfg, l, m))
  {
    var r := SendFrame(cfg, l, m);
    if r.enq != l.enq {
      assert IsJournal(m) ==> SeqOf(r.enq[|l.enq|]) == Some(r.maxSeqSent);
      forall i | 0 <= i < |l.enq| ensures r.enq[i] == l.enq[i] { }
    }
  }

  lemma {:induction false} SendRowsKeeps(cfg: Config, l: Link, rows: seq<Row>)
    requires LinkInv(cfg, l)
    ensures LinkInv(cfg, SendRows(cfg, l, rows))
  {
    if rows != [] {
      SendRowsKeeps(cfg, l, rows[..|rows| - 1]);
      SendFrameKeeps(cfg, SendRows(cfg, l, rows[..|rows| - 1]), Replay(rows[|rows| - 1]));
    }
  }

  lemma RaiseToKeeps(cfg: Config, l: Link, n: nat)
    requires LinkInv(cfg, l)
    ensures LinkInv(cfg, RaiseTo(l, n))
  {
    var r := RaiseTo(l, n);
    assert n in r.accepted;
    assert forall c | c in r.accepted :: c in l.accepted || c == n;
    assert forall c | c in l.accepted :: c in r.accepted;
  }

  /** Closing, logging a close and taking from the queue keep the link's invariants. */
  lemma ClosingKeeps(cfg: Config, l: Link)
    requires LinkInv(cfg, l)
    ensures LinkInv(cfg, l.(closing := true))
    ensures forall code, via :: LinkInv(cfg, CloseNow(l, code, via)) && LinkInv(cfg, CloseNow(l.(closing := true), code, via))
    ensures l.outbox != [] ==> LinkInv(cfg, Take(l))
  {
  }

  /** A closing link is frozen but for its cursor; an open one closes at most once, for overflow. */
  predicate Sends(l: Link, r: Link) {
    && (l.closing ==> r == l.(maxSeqSent := r.maxSeqSent))
    && (!l.closing ==> r.closes == l.closes + (if r.closing then [Close(CLOSE_OVERFLOW, ByOverflow)] else []))
    && l.enq <= r.enq && l.taken == r.taken && l.accepted == r.accepted
  }

  lemma {:induction false} SendRowsSends(cfg: Config, l: Link, rows: seq<Row>)
    ensures Sends(l, SendRows(cfg, l, rows))
  {
    if rows != [] {
      SendRowsSends(cfg, l, rows[..|rows| - 1]);
    }
  }

  // ---- every handler keeps every invariant ----

  lemma AdvanceKeeps(cfg: Config, s: State, t: real)
    requires Inv(cfg, s) && s.now <= t
    ensures Inv(cfg, s.(now := t))
  {
  }

  lemma ConnectKeeps(cfg: Config, s: State, authenticated: bool, key: Option<string>)
    requires Inv(cfg, s) && s.disp.New?
    ensures Inv(cfg, OnConnect(s, authenticated, key))
  {
  }

  /** A fresh hello may be logged and handled. */
  lemma HelloKeeps(cfg: Config, s: State, received: real, lastSeq: Option<nat>)
    requires Inv(cfg, s.(disp := Idle)) && s.disp.Idle?
    requires Fresh(cfg, s.verdicts, Handled(received, s.now, |s.verdicts|))
    ensures Inv(cfg, HandleHello(cfg, s, received, lastSeq))
  {
    hide LinkInv, Fresh;
    SendFrameKeeps(cfg, s.link, EphemeralWelcome);
    EnqueueKeeps(cfg, s.link, Error(Envelope.BadEnvelope));
  }

  lemma RecordKeeps(cfg: Config, s: State, asked: real, allowed: bool)
    requires Authority(cfg, s) && asked <= s.now
    ensures Authority(cfg, Record(cfg, s, asked, allowed))
    ensures allowed ==> Fresh(cfg, s.verdicts + [Verdict(asked, true)], Handled(asked, s.now, |s.verdicts| + 1))
  {
    var r := Record(cfg, s, asked, allowed);
    forall i | 0 <= i < |r.handled| ensures Fresh(cfg, r.verdicts, r.handled[i]) {
      assert Fresh(cfg, s.verdicts, s.handled[i]);
    }
  }

  /** Handling a hello leaves wherever the dispatcher was. */
  lemma HandleHelloFrom(cfg: Config, s: State, d: Dispatcher, received: real, lastSeq: Option<nat>)
    ensures HandleHello(cfg, s, received, lastSeq) == HandleHello(cfg, s.(disp := d), received, lastSeq)
  {
  }

  /** A hello whose question was answered with yes is fresh, and may be handled. */
  lemma AllowedHelloKeeps(cfg: Config, s: State)
    requires Inv(cfg, s) && s.disp.AuthorizingHello?
    ensures Inv(cfg, HandleHello(cfg, Record(cfg, s, s.disp.asked, true), s.disp.asked, s.disp.hello))
  {
    hide LinkInv, Fresh, HandleHello;
    RecordKeeps(cfg, s, s.disp.asked, true);
    var known := Record(cfg, s, s.disp.asked, true).(disp := Idle);
    HelloKeeps(cfg, known, s.disp.asked, s.disp.hello);
    HandleHelloFrom(cfg, known, s.disp, s.disp.asked, s.disp.hello);
  }

  lemma RefusedHelloKeeps(cfg: Config, s: State)
    requires Inv(cfg, s) && s.disp.AuthorizingHello?
    ensures Inv(cfg, OnVerdict(cfg, s, false))
  {
    hide LinkInv, Fresh;
    RecordKeeps(cfg, s, s.disp.asked, false);
    EnqueueKeeps(cfg, s.link, Error(Envelope.Unauthorized));
    ClosingKeeps(cfg, Enqueue(cfg, s.link, Error(Envelope.Unauthorized)));
  }

  lemma ConnectVerdictKeeps(cfg: Config, s: State, allowed: bool)
    requires Inv(cfg, s) && s.disp.AuthorizingConnect?
    ensures Inv(cfg, OnVerdict(cfg, s, allowed))
  {
    hide LinkInv, Fresh, HandleHello;
    RecordKeeps(cfg, s, s.disp.asked, allowed);
    ClosingKeeps(cfg, s.link);
  }

  lemma VerdictKeeps(cfg: Config, s: State, allowed: bool)
    requires Inv(cfg, s) && (s.disp.AuthorizingConnect? || s.disp.AuthorizingHello?)
    ensures Inv(cfg, OnVerdict(cfg, s, allowed))
  {
    hide Inv, HandleHello;
    if s.disp.AuthorizingConnect? {
      ConnectVerdictKeeps(cfg, s, allowed);
    } else if allowed {
      AllowedHelloKeeps(cfg, s);
    } else {
      RefusedHelloKeeps(cfg, s);
    }
  }

  lemma PresenceKeeps(cfg: Config, s: State, sampled: real)
    requires Inv(cfg, s) && (s.disp.ConnectPresence? || s.disp.LeavingPresence?)
    ensures Inv(cfg, OnPresence(cfg, s, sampled))
  {
  }

  /** A warm cache answers for a hello received now. */
  lemma WarmIsFresh(cfg: Config, s: State)
    requires Authority(cfg, s) && s.now < s.authorizedUntil
    ensures Fresh(cfg, s.verdicts, Handled(s.now, s.now, |s.verdicts|))
  {
  }

  /** A malformed frame is a strike, and the third one starts a drain that has just been explained. */
  lemma StrikeKeeps(cfg: Config, s: State)
    requires Inv(cfg, s) && s.disp.Idle?
    ensures Inv(cfg, ReceiveJson(cfg, s, GotMalformed))
  {
    hide LinkInv, Fresh;
    EnqueueKeeps(cfg, s.link, Error(Envelope.BadEnvelope));
    ClosingKeeps(cfg, Enqueue(cfg, s.link, Error(Envelope.BadEnvelope)));
  }

  lemma ReceiveKeeps(cfg: Config, s: State, inbound: Inbound)
    requires Inv(cfg, s) && s.disp.Idle?
    ensures Inv(cfg, ReceiveJson(cfg, s, inbound))
  {
    hide LinkInv, HandleHello, Fresh, Explains;
    match inbound
    case GotMalformed => StrikeKeeps(cfg, s);
    case GotHello(lastSeq) =>
      if s.now < s.authorizedUntil {
        WarmIsFresh(cfg, s);
        HelloKeeps(cfg, s, s.now, lastSeq);
      }
    case GotPing => SendFrameKeeps(cfg, s.link, Pong);
    case GotPong =>
    case GotUnaccepted => EnqueueKeeps(cfg, s.link, Error(Envelope.BadType));
  }

  lemma GroupKeeps(cfg: Config, s: State, m: GroupMessage)
    requires Inv(cfg, s) && s.disp.Idle?
    ensures Inv(cfg, OnGroup(cfg, s, m))
  {
    hide LinkInv;
    match m
    case SignalMsg(_, dict) => EnqueueKeeps(cfg, s.link, Signal(dict));
    case FrameMsg(_, n, payload) => SendFrameKeeps(cfg, s.link, Live(n, payload));
    case RevokeMsg(_, _, reason) =>
      SendFrameKeeps(cfg, s.link, Kick(KickReason(reason)));
      ClosingKeeps(cfg, SendFrame(cfg, s.link, Kick(KickReason(reason))));
  }

  lemma ServerSeqKeeps(cfg: Config, s: State, n: int)
    requires Inv(cfg, s) && s.disp.AwaitSeq?
    ensures Inv(cfg, OnServerSeq(cfg, s, s.disp.lastSeq, n))
  {
    hide LinkInv;
    var last := s.disp.lastSeq;
    SendFrameKeeps(cfg, s.link, Welcome(n));
    var raised := RaiseTo(SendFrame(cfg, s.link, Welcome(n)), last);
    RaiseToKeeps(cfg, SendFrame(cfg, s.link, Welcome(n)), last);
    SendFrameKeeps(cfg, raised, Resync(n - last, cfg.maxReplay, n));
  }

  lemma RowsKeep(cfg: Config, s: State, rows: seq<Row>)
    requires Inv(cfg, s) && s.disp.AwaitRows?
    ensures Inv(cfg, OnRows(cfg, s, rows, s.disp.serverSeq))
  {
    hide LinkInv, SendRows;
    SendRowsKeeps(cfg, s.link, rows);
    SendRowsSends(cfg, s.link, rows);
    SendFrameKeeps(cfg, SendRows(cfg, s.link, rows), ReplayDone(s.disp.serverSeq));
  }

  lemma DrainKeeps(cfg: Config, s: State)
    requires Inv(cfg, s) && s.disp.Draining?
    ensures Inv(cfg, s.(disp := Idle, link := CloseNow(s.link, s.disp.code, ByDrain)))
  {
    hide LinkInv;
    ClosingKeeps(cfg, s.link);
  }

  lemma DisconnectKeeps(cfg: Config, s: State)
    requires Inv(cfg, s) && (s.disp.Idle? || s.disp.Refused?)
    ensures Inv(cfg, OnDisconnect(s))
  {
    hide LinkInv;
    ClosingKeeps(cfg, s.link);
  }

  lemma WriterKeeps(cfg: Config, s: State)
    requires Inv(cfg, s)
    ensures s.writer.Waiting? && s.link.outbox != [] ==>
      Inv(cfg, s.(writer := Sending(s.link.outbox[0]), link := Take(s.link)))
    ensures s.writer.Sending? ==>
      Inv(cfg, s.(writer := Waiting, wire := s.wire + [s.writer.item])) && Inv(cfg, s.(writer := Stopped([s.writer.item])))
  {
    hide LinkInv;
    ClosingKeeps(cfg, s.link);
  }

  lemma WakeKeeps(cfg: Config, s: State)
    requires Inv(cfg, s) && s.hb.Sleeping?
    ensures Inv(cfg, OnWake(cfg, s))
  {
    hide LinkInv;
    ClosingKeeps(cfg, s.link);
    SendFrameKeeps(cfg, s.link, Ping);
  }

  lemma PingKeeps(cfg: Config, s: State)
    requires Inv(cfg, s) && s.hb.Writing?
    ensures Inv(cfg, SendPing(cfg, s))
  {
    hide LinkInv;
    SendFrameKeeps(cfg, s.link, Ping);
  }

  lemma DeadlineKeeps(cfg: Config, s: State)
    requires Inv(cfg, s) && s.hb.AwaitPong?
    ensures Inv(cfg, OnDeadline(cfg, s))
  {
    hide LinkInv;
    ClosingKeeps(cfg, s.link);
  }

  // ---- every state of every run ----

  lemma StepKeeps(cfg: Config, before: State, ev: Stamped)
    requires Enabled(before, ev) && Inv(cfg, before)
    ensures Inv(cfg, Step(cfg, before, ev))
  {
    hide Inv, OnConnect, OnVerdict, OnPresence, ReceiveJson, OnGroup, OnServerSeq, OnRows, CloseNow, OnDisconnect, Take;
    hide OnWake, SendPing, OnDeadline;
    var s := before.(now := ev.t);
    AdvanceKeeps(cfg, before, ev.t);
    match ev.e
    case Connect(authenticated, key) => ConnectKeeps(cfg, s, authenticated, key);
    case Authorized(allowed) => VerdictKeeps(cfg, s, allowed);
    case PresenceWritten(x) => PresenceKeeps(cfg, s, x);
    case Receive(inbound) => ReceiveKeeps(cfg, s, inbound);
    case Group(m) => GroupKeeps(cfg, s, m);
    case ServerSeq(n) => ServerSeqKeeps(cfg, s, n);
    case Rows(rows) => RowsKeep(cfg, s, rows);
    case DrainDone => DrainKeeps(cfg, s);
    case DrainTimeout => DrainKeeps(cfg, s);
    case Disconnect => DisconnectKeeps(cfg, s);
    case WriterTake => WriterKeeps(cfg, s);
    case WriterSent => WriterKeeps(cfg, s);
    case WriterFailed => WriterKeeps(cfg, s);
    case HbWake => WakeKeeps(cfg, s);
    case HbWritten(x) => TouchKeeps(cfg, s, x); PingKeeps(cfg, s.(touches := s.touches + [Touch(x, s.now)]));
    case HbDeadline => DeadlineKeeps(cfg, s);
  }

  lemma TouchKeeps(cfg: Config, s: State, x: real)
    requires Inv(cfg, s) && s.hb.Writing?
    ensures Inv(cfg, s.(touches := s.touches + [Touch(x, s.now)]))
  {
  }

  lemma InitInv(cfg: Config, start: real)
    requires start >= 0.0
    ensures Inv(cfg, Init(start))
  {
  }

  lemma {:induction false} Always(cfg: Config, tr: seq<State>, es: seq<Stamped>, k: nat)
    requires IsRun(cfg, tr, es) && k < |tr|
    ensures Inv(cfg, tr[k])
  {
    hide Step, Enabled, Inv;
    if k == 0 {
      InitInv(cfg, tr[0].now);
    } else {
      Always(cfg, tr, es, k - 1);
      assert StepsAt(cfg, tr, es, k - 1);
      StepKeeps(cfg, tr[k - 1], es[k - 1]);
    }
  }

  /** FIFO backpressure: in every state the queue is bounded, the wire log is a prefix of the log of everything
      queued, and what lies between them is at most one message in flight or lost, then the queue. */
  lemma FifoBackpressure(cfg: Config, tr: seq<State>, es: seq<Stamped>, k: nat)
    requires IsRun(cfg, tr, es) && k < |tr|
    ensures var s := tr[k];
      && |s.link.outbox| <= Cap(cfg)
      && s.wire <= s.link.enq
      && s.link.enq == s.wire + InFlight(s.writer) + s.link.outbox
      && |InFlight(s.writer)| <= 1
  {
    Always(cfg, tr, es, k);
  }

  /** Journal order: across any number of hellos, replays, live frames and races, REPLAY and LIVE frames are queued
      and written in strictly increasing order, and while the socket is not closing the cursor is exactly the
      largest of 0, the numbers queued and the numbers claimed by hellos. */
  lemma JournalOrder(cfg: Config, tr: seq<State>, es: seq<Stamped>, k: nat)
    requires IsRun(cfg, tr, es) && k < |tr|
    ensures Ascending(tr[k].link.enq) && Ascending(tr[k].wire)
    ensures !tr[k].link.closing ==> IsPeak(tr[k].link.maxSeqSent, tr[k].link.enq, tr[k].link.accepted)
  {
    Always(cfg, tr, es, k);
    FifoBackpressure(cfg, tr, es, k);
    var s := tr[k];
    assert forall i | 0 <= i < |s.wire| :: s.wire[i] == s.link.enq[i];
  }

  /** Authorization freshness: every hello that ever reached its handler rests on a positive verdict that was the
      newest one at that moment, asked for on receipt of that hello or within the cache window before it. */
  lemma AuthorizationFreshness(cfg: Config, tr: seq<State>, es: seq<Stamped>, k: nat, i: nat)
    requires IsRun(cfg, tr, es) && k < |tr| && i < |tr[k].handled|
    ensures Fresh(cfg, tr[k].verdicts, tr[k].handled[i])
  {
    Always(cfg, tr, es, k);
  }

  /** How many hellos are among the first `k` events: the ordinal of the newest. */
  function Hellos(es: seq<Stamped>, k: nat): nat
    requires k <= |es|
  {
    if k == 0 then 0 else Hellos(es, k - 1) + (if es[k - 1].e.Receive? && es[k - 1].e.inbound.GotHello? then 1 else 0)
  }

  /** The ordinals of the hellos given to their handler in the first `k` steps. */
  ghost function HandledHellos(tr: seq<State>, es: seq<Stamped>, k: nat): seq<nat>
    requires |tr| == |es| + 1 && k <= |es|
  {
    if k == 0 then []
    else HandledHellos(tr, es, k - 1) + (if |tr[k].handled| > |tr[k - 1].handled| then [Hellos(es, k)] else [])
  }

  /** A step handles the hello it receives, or the one that waits for a verdict; a refused one waits no longer. */
  predicate HelloStep(s: State, e: Event, r: State) {
    var handles := |r.handled| == |s.handled| + 1;
    && s.handled <= r.handled && (handles || r.handled == s.handled)
    && (e.Receive? && e.inbound.GotHello? ==> s.disp.Idle? && (handles <==> !r.disp.AuthorizingHello?))
    && (!(e.Receive? && e.inbound.GotHello?) && r.disp.AuthorizingHello? ==> s.disp.AuthorizingHello? && !handles)
    && (!(e.Receive? && e.inbound.GotHello?) && handles ==> s.disp.AuthorizingHello? && e == Authorized(true))
  }

  lemma HelloHandled(cfg: Config, s: State, received: real, lastSeq: Option<nat>)
    ensures var r := HandleHello(cfg, s, received, lastSeq);
      r.handled == s.handled + [Handled(received, s.now, |s.verdicts|)] && !r.disp.AuthorizingHello?
  {
  }

  lemma ReceiveHellos(cfg: Config, s: State, inbound: Inbound)
    requires s.disp.Idle?
    ensures HelloStep(s, Receive(inbound), ReceiveJson(cfg, s, inbound))
  {
    hide Enqueue, SendFrame, HandleHello;
    if inbound.GotHello? {
      HelloHandled(cfg, s, s.now, inbound.lastSeq);
    }
  }

  lemma VerdictHellos(cfg: Config, s: State, allowed: bool)
    requires s.disp.AuthorizingConnect? || s.disp.AuthorizingHello?
    ensures HelloStep(s, Authorized(allowed), OnVerdict(cfg, s, allowed))
  {
    hide Enqueue, HandleHello;
    if s.disp.AuthorizingHello? {
      HelloHandled(cfg, Record(cfg, s, s.disp.asked, allowed), s.disp.asked, s.disp.hello);
    }
  }

  lemma OthersHandleNone(cfg: Config, s: State, e: Event)
    ensures e.Group? && s.disp.Idle? ==> HelloStep(s, e, OnGroup(cfg, s, e.message))
    ensures e.HbWake? ==> HelloStep(s, e, OnWake(cfg, s))
    ensures e.HbWritten? ==> HelloStep(s, e, SendPing(cfg, s))
    ensures e.HbDeadline? ==> HelloStep(s, e, OnDeadline(cfg, s))
  {
    hide Enqueue, SendFrame, KickReason, TokenExpired, CloseNow;
  }

  lemma StepHellos(cfg: Config, before: State, ev: Stamped)
    requires Enabled(before, ev)
    ensures HelloStep(before, ev.e, Step(cfg, before, ev))
  {
    hide OnVerdict, ReceiveJson, OnGroup, SendFrame, SendReplay, OnWake, SendPing, OnDeadline, RaiseTo, CloseNow, Take;
    var s := before.(now := ev.t);
    match ev.e
    case Authorized(allowed) => VerdictHellos(cfg, s, allowed);
    case Receive(inbound) => ReceiveHellos(cfg, s, inbound);
    case Group(_) => OthersHandleNone(cfg, s, ev.e);
    case HbWake => OthersHandleNone(cfg, s, ev.e);
    case HbWritten(x) => OthersHandleNone(cfg, s.(touches := s.touches + [Touch(x, s.now)]), ev.e);
    case HbDeadline => OthersHandleNone(cfg, s, ev.e);
    case _ =>
  }

  predicate Increasing(ns: seq<nat>) { forall i, j | 0 <= i < j < |ns| :: ns[i] < ns[j] }

  /** Each entry of the log of handled hellos is one hello, in the order received, and none twice. */
  lemma {:induction false} HelloOnce(cfg: Config, tr: seq<State>, es: seq<Stamped>, k: nat)
    requires IsRun(cfg, tr, es) && k < |tr|
    ensures |HandledHellos(tr, es, k)| == |tr[k].handled| && Increasing(HandledHellos(tr, es, k))
    ensures forall n | n in HandledHellos(tr, es, k) :: n <= Hellos(es, k)
    ensures tr[k].disp.AuthorizingHello? ==> forall n | n in HandledHellos(tr, es, k) :: n < Hellos(es, k)
  {
    hide Step, Enabled;
    if k > 0 {
      HelloOnce(cfg, tr, es, k - 1);
      assert StepsAt(cfg, tr, es, k - 1);
      StepHellos(cfg, tr[k - 1], es[k - 1]);
      var before := HandledHellos(tr, es, k - 1);
      assert forall i | 0 <= i < |before| :: before[i] in before;
    }
  }

  lemma RefusalClears(cfg: Config, s: State, ev: Stamped)
    requires Enabled(s, ev) && s.disp.AuthorizingHello? && ev.e == Authorized(false)
    ensures var r := Step(cfg, s, ev);
      && r.authorizedUntil == 0.0 && r.link.closing && r.disp.Draining?
      && (r.link.enq == s.link.enq || r.link.enq == s.link.enq + [Error(Envelope.Unauthorized)])
  {
  }

  /** A negative verdict on a hello clears the cache and leaves the socket closing, and that hello is never handled: its
      ordinal is in the log of handled hellos of no later state. */
  lemma {:induction false} NegativeVerdict(cfg: Config, tr: seq<State>, es: seq<Stamped>, k: nat, later: nat)
    requires IsRun(cfg, tr, es) && k < later < |tr| && tr[k].disp.AuthorizingHello? && es[k].e == Authorized(false)
    ensures var r := tr[k + 1];
      && r.authorizedUntil == 0.0 && r.link.closing && r.disp.Draining?
      && (r.link.enq == tr[k].link.enq || r.link.enq == tr[k].link.enq + [Error(Envelope.Unauthorized)])
    ensures Hellos(es, k) !in HandledHellos(tr, es, later)
    ensures Hellos(es, k) <= Hellos(es, later) && (tr[later].disp.AuthorizingHello? ==> Hellos(es, k) < Hellos(es, later))
    decreases later
  {
    hide Step, Enabled;
    assert StepsAt(cfg, tr, es, k);
    RefusalClears(cfg, tr[k], es[k]);
    assert StepsAt(cfg, tr, es, later - 1);
    StepHellos(cfg, tr[later - 1], es[later - 1]);
    if later == k + 1 {
      HelloOnce(cfg, tr, es, k);
    } else {
      NegativeVerdict(cfg, tr, es, k, later - 1);
    }
  }

  // ---- closing ----

  /** A closing socket stays closing and queues nothing; only the end of a drain can call `close` again. */
  predicate Freezes(s: State, r: State) {
    s.link.closing ==>
      && r.link.closing && r.link.enq == s.link.enq
      && (r.link.closes == s.link.closes || (s.disp.Draining? && r.link.closes == s.link.closes + [Close(s.disp.code, ByDrain)]))
  }

  predicate OneMore(before: seq<Close>, after: seq<Close>) {
    before <= after && |after| == |before| + 1 && (after[|before|].via == ByOverflow || after[|before|].via == ByHeartbeat)
  }

  /** An overflow or heartbeat close happens only on the transition from open to closing. */
  predicate ClosesOnce(s: State, r: State) {
    !s.link.closing && s.joined ==>
      (r.link.closes == s.link.closes
       || (r.link.closing && OneMore(s.link.closes, r.link.closes)))
  }

  lemma SendingSends(cfg: Config, l: Link)
    ensures forall m :: Sends(l, Enqueue(cfg, l, m)) && Sends(l, SendFrame(cfg, l, m))
  {
  }

  lemma VerdictFreezes(cfg: Config, s: State, allowed: bool)
    requires Control(cfg, s) && (s.disp.AuthorizingConnect? || s.disp.AuthorizingHello?)
    ensures var r := OnVerdict(cfg, s, allowed); Freezes(s, r) && ClosesOnce(s, r)
  {
    hide Enqueue, SendFrame;
    SendingSends(cfg, s.link);
  }

  lemma ReceiveFreezes(cfg: Config, s: State, inbound: Inbound)
    ensures var r := ReceiveJson(cfg, s, inbound); Freezes(s, r) && ClosesOnce(s, r)
  {
    hide Enqueue, SendFrame;
    SendingSends(cfg, s.link);
  }

  lemma GroupFreezes(cfg: Config, s: State, m: GroupMessage)
    ensures var r := OnGroup(cfg, s, m); Freezes(s, r) && ClosesOnce(s, r)
  {
    hide Enqueue, SendFrame, KickReason;
    SendingSends(cfg, s.link);
  }

  lemma BackgroundFreezes(cfg: Config, s: State)
    ensures var r := OnWake(cfg, s); Freezes(s, r) && ClosesOnce(s, r)
    ensures var r := SendPing(cfg, s); Freezes(s, r) && ClosesOnce(s, r)
    ensures var r := OnDeadline(cfg, s); Freezes(s, r) && ClosesOnce(s, r)
  {
    hide Enqueue, SendFrame;
    SendingSends(cfg, s.link);
  }

  lemma RowsFreeze(cfg: Config, s: State, rows: seq<Row>, serverSeq: int)
    ensures var r := OnRows(cfg, s, rows, serverSeq); Freezes(s, r) && ClosesOnce(s, r)
  {
    SendRowsSends(cfg, s.link, rows);
    SendingSends(cfg, SendRows(cfg, s.link, rows));
  }

  lemma ServerSeqFreezes(cfg: Config, s: State, lastSeq: nat, n: int)
    ensures var r := OnServerSeq(cfg, s, lastSeq, n); Freezes(s, r) && ClosesOnce(s, r)
  {
    hide SendFrame;
    var welcomed := SendFrame(cfg, s.link, Welcome(n));
    SendingSends(cfg, s.link);
    SendingSends(cfg, RaiseTo(welcomed, lastSeq));
  }

  lemma LifecycleFreezes(cfg: Config, s: State, authenticated: bool, key: Option<string>, x: real)
    requires Control(cfg, s)
    ensures s.disp.New? ==> var r := OnConnect(s, authenticated, key); Freezes(s, r) && ClosesOnce(s, r)
    ensures var r := OnPresence(cfg, s, x); Freezes(s, r) && ClosesOnce(s, r)
    ensures var r := OnDisconnect(s); Freezes(s, r) && ClosesOnce(s, r)
  {
  }

  lemma StepFreezes(cfg: Config, before: State, ev: Stamped)
    requires Enabled(before, ev) && Control(cfg, before)
    ensures Freezes(before, Step(cfg, before, ev)) && ClosesOnce(before, Step(cfg, before, ev))
  {
    hide OnConnect, OnVerdict, OnPresence, ReceiveJson, OnGroup, OnServerSeq, OnRows, OnDisconnect, OnWake, SendPing, OnDeadline;
    var s := before.(now := ev.t);
    match ev.e
    case Connect(authenticated, key) => LifecycleFreezes(cfg, s, authenticated, key, 0.0);
    case Authorized(allowed) => VerdictFreezes(cfg, s, allowed);
    case PresenceWritten(x) => LifecycleFreezes(cfg, s, false, None, x);
    case Receive(inbound) => ReceiveFreezes(cfg, s, inbound);
    case Group(m) => GroupFreezes(cfg, s, m);
    case ServerSeq(n) => ServerSeqFreezes(cfg, s, s.disp.lastSeq, n);
    case Rows(rows) => RowsFreeze(cfg, s, rows, s.disp.serverSeq);
    case Disconnect => LifecycleFreezes(cfg, s, false, None, 0.0);
    case HbWake => BackgroundFreezes(cfg, s);
    case HbWritten(x) => BackgroundFreezes(cfg, s.(touches := s.touches + [Touch(x, s.now)]));
    case HbDeadline => BackgroundFreezes(cfg, s);
    case _ =>
  }

  lemma InvParts(cfg: Config, s: State)
    requires Inv(cfg, s)
    ensures Control(cfg, s) && Closes(s)
  {
  }

  /** Closing is a one-way freeze: once a socket is closing it stays so for the rest of the run and queues nothing
      more, and every close after the first is the end of a drain. */
  lemma {:induction false} ClosingIsFreeze(cfg: Config, tr: seq<State>, es: seq<Stamped>, i: nat, j: nat)
    requires IsRun(cfg, tr, es) && i <= j < |tr| && tr[i].link.closing
    ensures tr[j].link.closing && tr[j].link.enq == tr[i].link.enq && tr[i].link.closes <= tr[j].link.closes
    ensures forall n | 0 < n < |tr[j].link.closes| :: tr[j].link.closes[n].via == ByDrain
    decreases j
  {
    hide Step, Enabled, Inv, Control, ClosesOnce;
    Always(cfg, tr, es, j);
    InvParts(cfg, tr[j]);
    if i < j {
      ClosingIsFreeze(cfg, tr, es, i, j - 1);
      Always(cfg, tr, es, j - 1);
      InvParts(cfg, tr[j - 1]);
      assert StepsAt(cfg, tr, es, j - 1);
      StepFreezes(cfg, tr[j - 1], es[j - 1]);
    }
  }

  /** The heartbeat and overflow paths close an accepted socket only in the step that starts its closing. */
  lemma CloseOnTransition(cfg: Config, tr: seq<State>, es: seq<Stamped>, k: nat)
    requires IsRun(cfg, tr, es) && k < |es| && tr[k].joined && tr[k + 1].link.closes != tr[k].link.closes
    ensures if tr[k].link.closing
      then tr[k].disp.Draining? && tr[k + 1].link.closes == tr[k].link.closes + [Close(tr[k].disp.code, ByDrain)]
      else tr[k + 1].link.closing && OneMore(tr[k].link.closes, tr[k + 1].link.closes)
  {
    hide Step, Enabled, Inv, Control;
    Always(cfg, tr, es, k);
    InvParts(cfg, tr[k]);
    assert StepsAt(cfg, tr, es, k);
    StepFreezes(cfg, tr[k], es[k]);
  }

  /** Reasoned close: the first close of an accepted socket carries the code of the path that called it, and when it is
      4410, 4400 or 4403, the last message ever queued is the KICK, the `bad_envelope` error or the `unauthorized` error. */
  lemma ReasonedClose(cfg: Config, tr: seq<State>, es: seq<Stamped>, k: nat)
    requires IsRun(cfg, tr, es) && k < |tr| && tr[k].joined && tr[k].link.closes != []
    ensures FirstClose(tr[k].link.closes[0], tr[k].link.enq)
    ensures DrainCode(tr[k].link.closes[0].code) ==> Explained(tr[k].link.closes[0].code, tr[k].link.enq)
  {
    Always(cfg, tr, es, k);
  }

  // ---- protocol strikes ----

  /** How many of the first `k` events are malformed frames. */
  function Malformed(es: seq<Stamped>, k: nat): nat
    requires k <= |es|
  {
    if k == 0 then 0 else Malformed(es, k - 1) + (if es[k - 1].e == Receive(GotMalformed) then 1 else 0)
  }

  lemma StepStrikes(cfg: Config, s: State, ev: Stamped)
    requires Enabled(s, ev)
    ensures var r := Step(cfg, s, ev);
      && r.strikes == s.strikes + (if ev.e == Receive(GotMalformed) then 1 else 0)
      && (ev.e == Receive(GotMalformed) && r.strikes >= PROTOCOL_STRIKES ==>
            r.link.closing && r.disp == Draining(CLOSE_PROTOCOL_ERROR, ev.t))
  {
    hide ReceiveJson, OnVerdict, OnGroup, OnWake, SendPing, OnDeadline, SendFrame, SendReplay, RaiseTo, CloseNow, Take;
    var now := s.(now := ev.t);
    if ev.e.Receive? {
      ReceiveStrikes(cfg, now, ev.e.inbound);
    } else {
      OthersKeepStrikes(cfg, now, ev.e);
    }
  }

  lemma ReceiveStrikes(cfg: Config, s: State, inbound: Inbound)
    ensures var r := ReceiveJson(cfg, s, inbound);
      && r.strikes == s.strikes + (if inbound.GotMalformed? then 1 else 0)
      && (inbound.GotMalformed? && r.strikes >= PROTOCOL_STRIKES ==>
            r.link.closing && r.disp == Draining(CLOSE_PROTOCOL_ERROR, s.now))
  {
    hide Enqueue, SendFrame;
  }

  lemma OthersKeepStrikes(cfg: Config, s: State, e: Event)
    ensures e.Authorized? && (s.disp.AuthorizingConnect? || s.disp.AuthorizingHello?) ==>
      OnVerdict(cfg, s, e.allowed).strikes == s.strikes
    ensures e.Group? ==> OnGroup(cfg, s, e.message).strikes == s.strikes
    ensures OnWake(cfg, s).strikes == s.strikes && OnDeadline(cfg, s).strikes == s.strikes
    ensures forall ts :: SendPing(cfg, s.(touches := ts)).strikes == s.strikes
  {
    hide Enqueue, SendFrame, KickReason, TokenExpired, CloseNow;
  }

  /** Strikes are malformed frames, each counted once and never forgiven; with the third the socket is closing. */
  lemma {:induction false} StrikesCount(cfg: Config, tr: seq<State>, es: seq<Stamped>, k: nat)
    requires IsRun(cfg, tr, es) && k < |tr|
    ensures tr[k].strikes == Malformed(es, k)
    ensures Malformed(es, k) >= PROTOCOL_STRIKES ==> tr[k].link.closing
  {
    hide Step, Enabled, Inv, Control, ClosesOnce;
    if k > 0 {
      StrikesCount(cfg, tr, es, k - 1);
      Always(cfg, tr, es, k - 1);
      InvParts(cfg, tr[k - 1]);
      assert StepsAt(cfg, tr, es, k - 1);
      StepStrikes(cfg, tr[k - 1], es[k - 1]);
      StepFreezes(cfg, tr[k - 1], es[k - 1]);
    }
  }

  ghost predicate SendFailed(es: seq<Stamped>, k: nat)
    requires k <= |es|
  {
    exists j | 0 <= j < k :: es[j].e.WriterFailed?
  }

  lemma WriterMoves(cfg: Config, s: State, ev: Stamped)
    requires Enabled(s, ev) && Control(cfg, s)
    ensures var r := Step(cfg, s, ev);
      !Over(r.disp) ==>
        && !Over(s.disp)
        && (r.writer.Stopped? <==> s.writer.Stopped? || ev.e.WriterFailed?)
        && (r.writer.Stopped? ==> InFlight(r.writer) != [] || r.writer == s.writer)
  {
    hide ReceiveJson, OnGroup, OnVerdict, OnServerSeq, OnRows, OnWake, SendPing, OnDeadline;
    HandlersLeaveWriter(cfg, s.(now := ev.t), ev.e);
  }

  /** Only the writer's own events, the end of `connect` and the disconnect move the writer. */
  lemma HandlersLeaveWriter(cfg: Config, s: State, e: Event)
    ensures e.Authorized? && (s.disp.AuthorizingConnect? || s.disp.AuthorizingHello?) ==>
      var r := OnVerdict(cfg, s, e.allowed); r.writer == s.writer && !Over(r.disp)
    ensures e.Receive? ==> var r := ReceiveJson(cfg, s, e.inbound); r.writer == s.writer && (Over(r.disp) ==> Over(s.disp))
    ensures e.Group? ==> var r := OnGroup(cfg, s, e.message); r.writer == s.writer && (Over(r.disp) ==> Over(s.disp))
    ensures e.ServerSeq? && s.disp.AwaitSeq? ==> OnServerSeq(cfg, s, s.disp.lastSeq, e.serverSeq).writer == s.writer
    ensures e.Rows? && s.disp.AwaitRows? ==> OnRows(cfg, s, e.rows, s.disp.serverSeq).writer == s.writer
    ensures e.HbWake? ==> var r := OnWake(cfg, s); r.writer == s.writer && r.disp == s.disp
    ensures e.HbWritten? ==> forall ts :: var r := SendPing(cfg, s.(touches := ts)); r.writer == s.writer && r.disp == s.disp
    ensures e.HbDeadline? ==> var r := OnDeadline(cfg, s); r.writer == s.writer && r.disp == s.disp
  {
    hide Enqueue, SendFrame, SendReplay, KickReason, TokenExpired;
  }

  /** Until the disconnect, only a failed send stops the writer, and then exactly one message is lost in flight. */
  lemma {:induction false} FailureStopsWriter(cfg: Config, tr: seq<State>, es: seq<Stamped>, k: nat)
    requires IsRun(cfg, tr, es) && k < |tr| && !Over(tr[k].disp)
    ensures tr[k].writer.Stopped? <==> SendFailed(es, k)
    ensures tr[k].writer.Stopped? ==> InFlight(tr[k].writer) != []
  {
    hide Step, Enabled, Inv, Control;
    if k > 0 {
      Always(cfg, tr, es, k - 1);
      InvParts(cfg, tr[k - 1]);
      assert StepsAt(cfg, tr, es, k - 1);
      WriterMoves(cfg, tr[k - 1], es[k - 1]);
      if !Over(tr[k - 1].disp) {
        FailureStopsWriter(cfg, tr, es, k - 1);
      }
    }
  }

  /** When a drain completes before its timeout, the client has been sent everything ever queued if and only if no
      send had failed: a failing writer marks its message done, so `join` returns without it. */
  lemma DrainDelivers(cfg: Config, tr: seq<State>, es: seq<Stamped>, k: nat)
    requires IsRun(cfg, tr, es) && k < |es| && es[k].e.DrainDone?
    ensures tr[k].wire == tr[k].link.enq <==> !SendFailed(es, k)
  {
    assert StepsAt(cfg, tr, es, k);
    Always(cfg, tr, es, k);
    FailureStopsWriter(cfg, tr, es, k);
    var s := tr[k];
    assert s.link.enq == s.wire + InFlight(s.writer);
    assert InFlight(s.writer) == [] ==> s.wire == s.link.enq;
  }

  // ---- when a close is a repeat ----

  predicate EndsDrain(e: Event) { e.DrainDone? || e.DrainTimeout? }

  /** What `_enqueue` refuses: a message for a closing or full socket. */
  predicate Refuses(cfg: Config, l: Link) { l.closing || |l.outbox| >= Cap(cfg) }

  /** The drain ended by step k is the one begun by step i. */
  ghost predicate DrainSpan(tr: seq<State>, es: seq<Stamped>, i: nat, k: nat)
    requires |tr| == |es| + 1 && k < |es|
  {
    && i < k && EndsDrain(es[k].e) && tr[k].disp.Draining?
    && !tr[i].disp.Draining? && forall m | i < m <= k :: tr[m].disp == tr[i + 1].disp
  }

  /** A drain begins right after a message is queued or refused. */
  predicate Begins(cfg: Config, s: State, r: State) {
    r.disp.Draining? && !s.disp.Draining? ==>
      && Connected(s)
      && (s.link.closing ==> r.link.closes == s.link.closes)
      && (!s.link.closing ==> |r.link.closes| == |s.link.closes| + (if Refuses(cfg, s.link) then 1 else 0))
  }

  lemma ReceiveBegins(cfg: Config, s: State, inbound: Inbound)
    requires s.disp.Idle?
    ensures Begins(cfg, s, ReceiveJson(cfg, s, inbound))
  {
    hide SendFrame;
  }

  lemma GroupBegins(cfg: Config, s: State, m: GroupMessage)
    requires s.disp.Idle?
    ensures Begins(cfg, s, OnGroup(cfg, s, m))
  {
    hide KickReason;
  }

  lemma VerdictBegins(cfg: Config, s: State, allowed: bool)
    requires s.disp.AuthorizingConnect? || s.disp.AuthorizingHello?
    ensures Begins(cfg, s, OnVerdict(cfg, s, allowed))
  {
    hide SendFrame;
  }

  /** A drain goes on with its code and without a close until it ends, and then it closes once. */
  predicate DrainsOn(s: State, e: Event, r: State) {
    s.disp.Draining? ==>
      if EndsDrain(e) then r.disp.Idle? && r.link.closes == s.link.closes + [Close(s.disp.code, ByDrain)]
      else r.disp == s.disp && (s.link.closing ==> r.link.closes == s.link.closes)
  }

  lemma BackgroundDrains(cfg: Config, s: State, e: Event)
    requires !EndsDrain(e)
    ensures DrainsOn(s, e, OnWake(cfg, s)) && DrainsOn(s, e, SendPing(cfg, s)) && DrainsOn(s, e, OnDeadline(cfg, s))
    ensures var r := OnWake(cfg, s); r.disp == s.disp
    ensures var r := SendPing(cfg, s); r.disp == s.disp
    ensures var r := OnDeadline(cfg, s); r.disp == s.disp
  {
    hide TokenExpired;
  }

  lemma StepDrains(cfg: Config, before: State, ev: Stamped)
    requires Enabled(before, ev)
    ensures var r := Step(cfg, before, ev); Begins(cfg, before, r) && DrainsOn(before, ev.e, r)
  {
    hide OnVerdict, ReceiveJson, OnGroup, SendFrame, SendReplay, OnWake, SendPing, OnDeadline;
    var s := before.(now := ev.t);
    match ev.e
    case Authorized(allowed) => VerdictBegins(cfg, s, allowed);
    case Receive(inbound) => ReceiveBegins(cfg, s, inbound);
    case Group(m) => GroupBegins(cfg, s, m);
    case HbWake => BackgroundDrains(cfg, s, ev.e);
    case HbWritten(x) => BackgroundDrains(cfg, s.(touches := s.touches + [Touch(x, s.now)]), ev.e);
    case HbDeadline => BackgroundDrains(cfg, s, ev.e);
    case _ =>
  }

  lemma {:induction false} ClosesKeptInDrain(cfg: Config, tr: seq<State>, es: seq<Stamped>, i: nat, k: nat, m: nat)
    requires IsRun(cfg, tr, es) && k < |es| && DrainSpan(tr, es, i, k) && i < m <= k
    ensures tr[m].link.closes == tr[i + 1].link.closes
    decreases m
  {
    hide Step, Enabled, Inv, Begins;
    if m > i + 1 {
      ClosesKeptInDrain(cfg, tr, es, i, k, m - 1);
      Always(cfg, tr, es, m - 1);
      InvParts(cfg, tr[m - 1]);
      assert tr[m - 1].disp == tr[i + 1].disp && tr[k].disp == tr[i + 1].disp && tr[m].disp == tr[i + 1].disp;
      assert StepsAt(cfg, tr, es, m - 1);
      StepDrains(cfg, tr[m - 1], es[m - 1]);
    }
  }

  /** The close at the end of a drain repeats an earlier one exactly when `_enqueue` refused the message that was to
      explain it: the socket was closing, or its queue full, when the drain began. */
  lemma RepeatedClose(cfg: Config, tr: seq<State>, es: seq<Stamped>, i: nat, k: nat)
    requires IsRun(cfg, tr, es) && k < |es| && DrainSpan(tr, es, i, k)
    ensures |tr[k + 1].link.closes| > 1 <==> Refuses(cfg, tr[i].link)
  {
    hide Step, Enabled, Inv;
    assert tr[i + 1].disp == tr[k].disp;
    Always(cfg, tr, es, i);
    InvParts(cfg, tr[i]);
    assert StepsAt(cfg, tr, es, i);
    StepDrains(cfg, tr[i], es[i]);
    ClosesKeptInDrain(cfg, tr, es, i, k, k);
    assert StepsAt(cfg, tr, es, k);
    StepDrains(cfg, tr[k], es[k]);
  }

  /** The step that began the drain going on in state k. */
  lemma {:induction false} DrainBegun(cfg: Config, tr: seq<State>, es: seq<Stamped>, k: nat) returns (i: nat)
    requires IsRun(cfg, tr, es) && k < |tr| && tr[k].disp.Draining?
    ensures i < k && !tr[i].disp.Draining? && forall m | i < m <= k :: tr[m].disp == tr[i + 1].disp
  {
    hide Step, Enabled, Begins;
    assert k > 0;
    assert StepsAt(cfg, tr, es, k - 1);
    StepDrains(cfg, tr[k - 1], es[k - 1]);
    if tr[k - 1].disp.Draining? {
      i := DrainBegun(cfg, tr, es, k - 1);
    } else {
      i := k - 1;
    }
  }

  lemma UnjoinedCloses(cfg: Config, s: State, ev: Stamped)
    requires Enabled(s, ev) && Control(cfg, s) && !s.joined && !s.link.closing
    ensures var r := Step(cfg, s, ev);
      if s.disp.Refused? then r.link.closes == s.link.closes else s.link.closes == [] && |r.link.closes| <= 1
  {
    hide ReceiveJson, OnGroup, OnServerSeq, OnRows, OnWake, SendPing, OnDeadline;
  }

  /** A step to a second close ends a drain. */
  lemma OnlyDrainsRepeat(cfg: Config, s: State, ev: Stamped)
    requires Enabled(s, ev) && Control(cfg, s) && Closes(s) && |s.link.closes| <= 1 && |Step(cfg, s, ev).link.closes| > 1
    ensures s.disp.Draining? && EndsDrain(ev.e)
  {
    StepFreezes(cfg, s, ev);
    StepDrains(cfg, s, ev);
    if !s.joined && !s.link.closing {
      UnjoinedCloses(cfg, s, ev);
    }
    hide Step, Enabled, Control;
  }

  lemma {:induction false} SecondClose(cfg: Config, tr: seq<State>, es: seq<Stamped>, n: nat) returns (i: nat, k: nat)
    requires IsRun(cfg, tr, es) && n < |tr| && |tr[n].link.closes| > 1
    ensures k < n && DrainSpan(tr, es, i, k) && Refuses(cfg, tr[i].link)
  {
    hide Step, Enabled, Inv, Control, Refuses;
    assert n > 0;
    if |tr[n - 1].link.closes| > 1 {
      i, k := SecondClose(cfg, tr, es, n - 1);
    } else {
      k := n - 1;
      Always(cfg, tr, es, k);
      InvParts(cfg, tr[k]);
      assert StepsAt(cfg, tr, es, k);
      OnlyDrainsRepeat(cfg, tr[k], es[k]);
      i := DrainBegun(cfg, tr, es, k);
      RepeatedClose(cfg, tr, es, i, k);
    }
  }

  /** Closed at most once, exactly: a socket has been closed more than once if and only if some drain has ended that began
      when the socket was closing already or its queue was full. */
  lemma ClosedTwiceExactly(cfg: Config, tr: seq<State>, es: seq<Stamped>, n: nat)
    requires IsRun(cfg, tr, es) && n < |tr|
    ensures |tr[n].link.closes| > 1 <==> exists i: nat, k: nat :: k < n && DrainSpan(tr, es, i, k) && Refuses(cfg, tr[i].link)
  {
    hide Step, Enabled, Inv, Refuses;
    if |tr[n].link.closes| > 1 {
      var i, k := SecondClose(cfg, tr, es, n);
    }
    forall i: nat, k: nat | k < n && DrainSpan(tr, es, i, k) && Refuses(cfg, tr[i].link) ensures |tr[n].link.closes| > 1 {
      RepeatedClose(cfg, tr, es, i, k);
      Always(cfg, tr, es, k);
      InvParts(cfg, tr[k]);
      ClosingIsFreeze(cfg, tr, es, k, k + 1);
      ClosingIsFreeze(cfg, tr, es, k + 1, n);
    }
  }

  lemma KickedTwice(cfg: Config, s: State, stream: string, reason: string)
    requires s.disp.Idle? && !s.link.closing && s.link.closes == [] && |s.link.outbox| == Cap(cfg)
    ensures var kicked := At(s.now, Group(RevokeMsg(stream, None, reason)));
      && Enabled(s, kicked)
      && var late := At(s.now + DRAIN_TIMEOUT_S, DrainTimeout);
      && Enabled(Step(cfg, s, kicked), late)
      && Step(cfg, Step(cfg, s, kicked), late).link.closes ==
           [Close(CLOSE_OVERFLOW, ByOverflow), Close(CLOSE_REVOKED, ByDrain)]
  {
    hide KickReason;
  }

  lemma KickLost(cfg: Config, s: State, stream: string, reason: string)
    returns (s1: State, s2: State, s3: State, s4: State)
    requires s.disp.Idle? && !s.link.closing && s.link.closes == [] && s.writer.Waiting? && s.link.outbox == []
    ensures var es := LossEvents(s.now, stream, reason);
      && Enabled(s, es[0]) && s1 == Step(cfg, s, es[0])
      && Enabled(s1, es[1]) && s2 == Step(cfg, s1, es[1])
      && Enabled(s2, es[2]) && s3 == Step(cfg, s2, es[2])
      && Enabled(s3, es[3]) && s4 == Step(cfg, s3, es[3])
      && s4.wire == s.wire && s4.link.enq == s.link.enq + [Kick(KickReason(reason))]
      && s4.link.closes == [Close(CLOSE_REVOKED, ByDrain)]
  {
    hide KickReason;
    var es := LossEvents(s.now, stream, reason);
    s1 := Step(cfg, s, es[0]);
    s2 := Step(cfg, s1, es[1]);
    s3 := Step(cfg, s2, es[2]);
    s4 := Step(cfg, s3, es[3]);
  }

  /** A revocation, its KICK taken and lost by a failing send, and the drain that completes without it. */
  function LossEvents(t: real, stream: string, reason: string): seq<Stamped> {
    [At(t, Group(RevokeMsg(stream, None, reason))), At(t, WriterTake), At(t, WriterFailed), At(t, DrainDone)]
  }

  /** A completed drain can lose its message: any run that ends idle and open with an empty queue and a waiting writer goes
      on, by a revocation whose send fails, to a drain that completes and closes with 4410 while the KICK is on no wire. */
  lemma DrainWithoutKick(cfg: Config, tr: seq<State>, es: seq<Stamped>, stream: string, reason: string)
    returns (tr': seq<State>, es': seq<Stamped>)
    requires IsRun(cfg, tr, es)
    requires var s := tr[|es|]; s.disp.Idle? && !s.link.closing && s.writer.Waiting? && s.link.outbox == []
    ensures es' == es + LossEvents(tr[|es|].now, stream, reason) && IsRun(cfg, tr', es') && tr <= tr'
    ensures var r := tr'[|es'|];
      && r.wire == tr[|es|].wire && r.link.enq == tr[|es|].link.enq + [Kick(KickReason(reason))]
      && r.link.closes == [Close(CLOSE_REVOKED, ByDrain)]
  {
    var s, more := tr[|es|], LossEvents(tr[|es|].now, stream, reason);
    Always(cfg, tr, es, |es|);
    var s1, s2, s3, s4 := KickLost(cfg, s, stream, reason);
    hide IsRun, Step, Enabled, Inv, KickReason;
    RunExtends(cfg, tr, es, more[0]);
    RunExtends(cfg, tr + [s1], es + [more[0]], more[1]);
    RunExtends(cfg, tr + [s1] + [s2], es + [more[0]] + [more[1]], more[2]);
    RunExtends(cfg, tr + [s1] + [s2] + [s3], es + [more[0]] + [more[1]] + [more[2]], more[3]);
    tr', es' := tr + [s1] + [s2] + [s3] + [s4], es + [more[0]] + [more[1]] + [more[2]] + [more[3]];
  }

  /** `close` can be called twice: any run that ends in an idle, open socket with a full queue goes on, when the stream is
      revoked and the drain times out, to a state closed first for overflow and then with 4410. */
  lemma RevokeOfFullQueueClosesTwice(cfg: Config, tr: seq<State>, es: seq<Stamped>, stream: string, reason: string)
    returns (tr': seq<State>, es': seq<Stamped>)
    requires IsRun(cfg, tr, es)
    requires var s := tr[|es|]; s.disp.Idle? && !s.link.closing && |s.link.outbox| == Cap(cfg)
    ensures IsRun(cfg, tr', es') && tr <= tr' && |es'| == |es| + 2 && es' == es + es'[|es|..]
    ensures es'[|es|].e == Group(RevokeMsg(stream, None, reason)) && es'[|es| + 1].e.DrainTimeout?
    ensures tr'[|es'|].link.closes == [Close(CLOSE_OVERFLOW, ByOverflow), Close(CLOSE_REVOKED, ByDrain)]
  {
    var s := tr[|es|];
    Always(cfg, tr, es, |es|);
    KickedTwice(cfg, s, stream, reason);
    hide IsRun, Step, Enabled, Inv;
    var kicked, late := At(s.now, Group(RevokeMsg(stream, None, reason))), At(s.now + DRAIN_TIMEOUT_S, DrainTimeout);
    RunExtends(cfg, tr, es, kicked);
    tr', es' := tr + [Step(cfg, s, kicked)], es + [kicked];
    RunExtends(cfg, tr', es', late);
    tr', es' := tr' + [Step(cfg, tr'[|es'|], late)], es' + [late];
  }
}
