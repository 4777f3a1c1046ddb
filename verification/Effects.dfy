/** What a socket does, as a table: for every event what is queued, what is closed and where the tasks go next, written
    from the protocol and not from the handlers; and what follows for whole runs. */
module Effects {
  import opened Wrappers
  import opened Delivery
  import opened Socket
  import opened Runs
  import opened Catchup
  import Envelope

  // ---- the table ----

  /** The newest verdict is positive and was asked for within the cache window. */
  predicate Warm(cfg: Config, verdicts: seq<Verdict>, t: real) {
    verdicts != [] && verdicts[|verdicts| - 1].allowed && t < verdicts[|verdicts| - 1].asked + CacheWindow(cfg)
  }

  /** The hello that `ev` gives to its handler. */
  function HelloNow(cfg: Config, s: State, ev: Stamped): Option<Option<nat>> {
    match ev.e
    case Receive(GotHello(n)) => if Warm(cfg, s.verdicts, ev.t) then Some(n) else None
    case Authorized(true) => if s.disp.AuthorizingHello? then Some(s.disp.hello) else None
    case _ => None
  }

  /** A revocation is for a socket when it names no user or the socket's own. */
  predicate Concerns(cfg: Config, m: GroupMessage) {
    m.RevokeMsg? && (m.userId == None || m.userId == Some(cfg.userId))
  }

  /** What the protocol owes the client for `ev`. */
  function Owed(cfg: Config, s: State, ev: Stamped): seq<Message> {
    if HelloNow(cfg, s, ev).Some? then
      if !cfg.resumable then [EphemeralWelcome]
      else if HelloNow(cfg, s, ev).value.None? then [Error(Envelope.BadEnvelope)]
      else []
    else match ev.e
      case Receive(GotMalformed) => [Error(Envelope.BadEnvelope)]
      case Receive(GotPing) => [Pong]
      case Receive(GotUnaccepted) => [Error(Envelope.BadType)]
      case Authorized(allowed) => if s.disp.AuthorizingHello? && !allowed then [Error(Envelope.Unauthorized)] else []
      case Group(SignalMsg(_, dict)) => if dict == map[] then [] else [Signal(dict)]
      case Group(FrameMsg(_, n, payload)) => if n.Some? && n.value <= s.link.maxSeqSent then [] else [Live(n, payload)]
      case Group(RevokeMsg(_, _, reason)) =>
        if !Concerns(cfg, ev.e.message) then []
        else [Kick(if reason == "" then "access_revoked" else reason)]
      case ServerSeq(n) =>
        if !s.disp.AwaitSeq? then []
        else if n - s.disp.lastSeq > cfg.maxReplay then [Welcome(n), Resync(n - s.disp.lastSeq, cfg.maxReplay, n)]
        else [Welcome(n)]
      case Rows(rows) =>
        if s.disp.AwaitRows? then Replays(Passing(s.link.maxSeqSent, rows)) + [ReplayDone(s.disp.serverSeq)] else []
      case HbWritten(_) => [Ping]
      case _ => []
  }

  function Room(cfg: Config, l: Link): nat { if |l.outbox| < Cap(cfg) then Cap(cfg) - |l.outbox| else 0 }

  /** What of `owed` a link queues: nothing when it is closing, otherwise as much as there is room for. */
  function Fitting(cfg: Config, l: Link, owed: seq<Message>): seq<Message> {
    if l.closing then [] else if |owed| <= Room(cfg, l) then owed else owed[..Room(cfg, l)]
  }

  predicate Overflows(cfg: Config, l: Link, owed: seq<Message>) { !l.closing && |owed| > Room(cfg, l) }

  predicate Expired(cfg: Config, t: real) { cfg.exp.Some? && cfg.exp.value <= t }

  /** The code of the drain that `ev` begins. */
  function DrainOf(cfg: Config, s: State, e: Event): Option<int> {
    match e
    case Receive(GotMalformed) => if s.strikes >= 2 then Some(4400) else None
    case Authorized(false) => if s.disp.AuthorizingHello? then Some(4403) else None
    case Group(m) => if Concerns(cfg, m) then Some(4410) else None
    case _ => None
  }

  /** The closes that `ev` calls for. */
  function ClosesOwed(cfg: Config, s: State, ev: Stamped): seq<Close> {
    if Overflows(cfg, s.link, Owed(cfg, s, ev)) then [Close(4413, ByOverflow)]
    else match ev.e
      case Connect(authenticated, key) =>
        if !authenticated then [Close(4401, ByRefusal)] else if key.None? then [Close(4404, ByRefusal)] else []
      case Authorized(false) => if s.disp.AuthorizingConnect? then [Close(4403, ByRefusal)] else []
      case DrainDone => if s.disp.Draining? then [Close(s.disp.code, ByDrain)] else []
      case DrainTimeout => if s.disp.Draining? then [Close(s.disp.code, ByDrain)] else []
      case HbWake => if !s.link.closing && Expired(cfg, ev.t) then [Close(4401, ByHeartbeat)] else []
      case HbDeadline => if !s.link.closing && s.pongPending then [Close(4408, ByHeartbeat)] else []
      case _ => []
  }

  /** The events that set a socket closing. */
  predicate StartsClosing(cfg: Config, s: State, ev: Stamped) {
    || Overflows(cfg, s.link, Owed(cfg, s, ev)) || DrainOf(cfg, s, ev.e).Some? || ev.e.Disconnect?
    || (ev.e.HbWake? && Expired(cfg, ev.t)) || (ev.e.HbDeadline? && s.pongPending)
  }

  /** Where the dispatcher goes. */
  function NextPhase(cfg: Config, s: State, ev: Stamped): Dispatcher {
    if DrainOf(cfg, s, ev.e).Some? then Draining(DrainOf(cfg, s, ev.e).value, ev.t)
    else if HelloNow(cfg, s, ev).Some? then
      if cfg.resumable && HelloNow(cfg, s, ev).value.Some? then AwaitSeq(HelloNow(cfg, s, ev).value.value) else Idle
    else match ev.e
      case Connect(authenticated, key) => if authenticated && key.Some? then AuthorizingConnect(ev.t) else Refused
      case Authorized(allowed) => if allowed then ConnectPresence(ev.t) else Refused
      case PresenceWritten(_) => if s.disp.ConnectPresence? then Idle else Gone
      case Receive(GotHello(n)) => AuthorizingHello(ev.t, n)
      case ServerSeq(n) =>
        if s.disp.AwaitSeq? && n - s.disp.lastSeq <= cfg.maxReplay then AwaitRows(s.disp.lastSeq, n) else Idle
      case Rows(_) => Idle
      case DrainDone => Idle
      case DrainTimeout => Idle
      case Disconnect => if s.joined then LeavingPresence else Gone
      case _ => s.disp
  }

  /** Where the heartbeat goes. */
  function NextBeat(cfg: Config, s: State, ev: Stamped): Heartbeat {
    match ev.e
    case PresenceWritten(_) => if s.disp.ConnectPresence? && Beats(cfg) then Sleeping(ev.t + cfg.heartbeatS) else Off
    case Disconnect => Off
    case HbWake => if s.link.closing || Expired(cfg, ev.t) then Off else Writing(ev.t)
    case HbWritten(_) => AwaitPong(ev.t + PongTimeout(cfg))
    case HbDeadline => if s.pongPending && !s.link.closing then Off else Sleeping(ev.t + cfg.heartbeatS)
    case _ => s.hb
  }

  /** The link's column of the table. */
  predicate LinkAsOwed(cfg: Config, s: State, ev: Stamped, r: Link) {
    && r.enq == s.link.enq + Fitting(cfg, s.link, Owed(cfg, s, ev))
    && r.closes == s.link.closes + ClosesOwed(cfg, s, ev)
    && (r.closing <==> s.link.closing || StartsClosing(cfg, s, ev))
  }

  /** The tasks' columns of the table. */
  predicate TasksAsTold(cfg: Config, s: State, ev: Stamped, r: State) {
    && r.disp == NextPhase(cfg, s, ev)
    && r.hb == NextBeat(cfg, s, ev)
    && r.pongPending == (if ev.e.HbWritten? then true else s.pongPending && ev.e != Receive(GotPong))
    && r.streamKey == (if ev.e.Connect? && ev.e.authenticated && ev.e.key.Some? then ev.e.key else s.streamKey)
    && r.joined == (s.joined || (ev.e == Authorized(true) && s.disp.AuthorizingConnect?))
  }

  // ---- the link's column, handler by handler ----

  predicate Fits(cfg: Config, l: Link, r: Link, owed: seq<Message>) {
    && r.enq == l.enq + Fitting(cfg, l, owed)
    && r.closes == l.closes + (if Overflows(cfg, l, owed) then [Close(4413, ByOverflow)] else [])
    && (r.closing <==> l.closing || Overflows(cfg, l, owed))
  }

  lemma OneFits(cfg: Config, l: Link, m: Message)
    requires |l.outbox| <= Cap(cfg)
    ensures Fits(cfg, l, Enqueue(cfg, l, m), [m])
    ensures Fits(cfg, l, SendFrame(cfg, l, m), if SeqOf(m).Some? && SeqOf(m).value <= l.maxSeqSent then [] else [m])
  {
  }

  lemma HelloFits(cfg: Config, s: State, known: State, received: real, lastSeq: Option<nat>)
    requires |s.link.outbox| <= Cap(cfg) && known.link == s.link
    ensures Fits(cfg, s.link, HandleHello(cfg, known, received, lastSeq).link,
      if !cfg.resumable then [EphemeralWelcome] else if lastSeq.None? then [Error(Envelope.BadEnvelope)] else [])
  {
    hide Enqueue, SendFrame;
    OneFits(cfg, s.link, EphemeralWelcome);
    OneFits(cfg, s.link, Error(Envelope.BadEnvelope));
  }

  lemma WarmIsCached(cfg: Config, s: State)
    requires Authority(cfg, s)
    ensures Warm(cfg, s.verdicts, s.now) <==> s.now < s.authorizedUntil
  {
  }

  lemma HelloOwed(cfg: Config, s: State, lastSeq: Option<nat>)
    requires |s.link.outbox| <= Cap(cfg) && Authority(cfg, s)
    ensures LinkAsOwed(cfg, s, At(s.now, Receive(GotHello(lastSeq))), ReceiveJson(cfg, s, GotHello(lastSeq)).link)
  {
    hide Enqueue, SendFrame, HandleHello, Warm;
    WarmIsCached(cfg, s);
    HelloFits(cfg, s, s, s.now, lastSeq);
  }

  lemma ReceiveOwed(cfg: Config, s: State, inbound: Inbound)
    requires |s.link.outbox| <= Cap(cfg) && Authority(cfg, s)
    ensures LinkAsOwed(cfg, s, At(s.now, Receive(inbound)), ReceiveJson(cfg, s, inbound).link)
  {
    hide Enqueue, SendFrame, Authority;
    match inbound
    case GotMalformed => OneFits(cfg, s.link, Error(Envelope.BadEnvelope));
    case GotHello(lastSeq) => HelloOwed(cfg, s, lastSeq);
    case GotPing => OneFits(cfg, s.link, Pong);
    case GotPong =>
    case GotUnaccepted => OneFits(cfg, s.link, Error(Envelope.BadType));
  }

  lemma VerdictOwed(cfg: Config, s: State, allowed: bool)
    requires |s.link.outbox| <= Cap(cfg) && (s.disp.AuthorizingConnect? || s.disp.AuthorizingHello?)
    ensures LinkAsOwed(cfg, s, At(s.now, Authorized(allowed)), OnVerdict(cfg, s, allowed).link)
  {
    hide Enqueue, HandleHello;
    OneFits(cfg, s.link, Error(Envelope.Unauthorized));
    if s.disp.AuthorizingHello? && allowed {
      HelloFits(cfg, s, Record(cfg, s, s.disp.asked, true), s.disp.asked, s.disp.hello);
    }
  }

  lemma GroupOwed(cfg: Config, s: State, m: GroupMessage)
    requires |s.link.outbox| <= Cap(cfg)
    ensures LinkAsOwed(cfg, s, At(s.now, Group(m)), OnGroup(cfg, s, m).link)
  {
    hide Enqueue, SendFrame;
    match m
    case SignalMsg(_, dict) => OneFits(cfg, s.link, Signal(dict));
    case FrameMsg(_, n, payload) => OneFits(cfg, s.link, Live(n, payload));
    case RevokeMsg(_, _, reason) => OneFits(cfg, s.link, Kick(KickReason(reason)));
  }

  lemma TwoFit(cfg: Config, l: Link, lastSeq: nat, first: Message, second: Message)
    requires |l.outbox| <= Cap(cfg) && SeqOf(first).None? && SeqOf(second).None?
    ensures Fits(cfg, l, SendFrame(cfg, RaiseTo(SendFrame(cfg, l, first), lastSeq), second), [first, second])
    ensures Fits(cfg, l, RaiseTo(SendFrame(cfg, l, first), lastSeq), [first])
  {
  }

  lemma ServerSeqOwed(cfg: Config, s: State, n: int)
    requires |s.link.outbox| <= Cap(cfg) && s.disp.AwaitSeq?
    ensures LinkAsOwed(cfg, s, At(s.now, ServerSeq(n)), OnServerSeq(cfg, s, s.disp.lastSeq, n).link)
  {
    hide SendFrame, RaiseTo;
    TwoFit(cfg, s.link, s.disp.lastSeq, Welcome(n), Resync(n - s.disp.lastSeq, cfg.maxReplay, n));
  }

  lemma RowsOwed(cfg: Config, s: State, rows: seq<Row>)
    requires |s.link.outbox| <= Cap(cfg) && s.disp.AwaitRows?
    ensures LinkAsOwed(cfg, s, At(s.now, Rows(rows)), OnRows(cfg, s, rows, s.disp.serverSeq).link)
  {
    hide SendRows, SendFrame;
    var l, upTo := s.link, s.disp.serverSeq;
    if l.closing {
      SendRowsSends(cfg, l, rows);
      SendingSends(cfg, SendRows(cfg, l, rows));
    } else {
      ReplayOutcome(cfg, l, rows, upTo);
      var sent := Replays(Passing(l.maxSeqSent, rows));
      assert |sent| >= Room(cfg, l) ==> (sent + [ReplayDone(upTo)])[..Room(cfg, l)] == sent[..Room(cfg, l)];
      assert l.enq + (sent + [ReplayDone(upTo)]) == l.enq + sent + [ReplayDone(upTo)];
    }
  }

  lemma WakeOwed(cfg: Config, s: State)
    requires |s.link.outbox| <= Cap(cfg) && s.presenceSession
    ensures LinkAsOwed(cfg, s, At(s.now, HbWake), OnWake(cfg, s).link)
    ensures LinkAsOwed(cfg, s, At(s.now, HbDeadline), OnDeadline(cfg, s).link)
  {
    hide SendPing;
  }

  lemma PingOwed(cfg: Config, s: State, x: real)
    requires |s.link.outbox| <= Cap(cfg)
    ensures LinkAsOwed(cfg, s, At(s.now, HbWritten(x)), SendPing(cfg, s).link)
  {
    hide SendFrame;
    OneFits(cfg, s.link, Ping);
  }

  lemma LifecycleOwed(cfg: Config, s: State, e: Event)
    requires |s.link.outbox| <= Cap(cfg)
    ensures e.Connect? && s.disp.New? && !s.link.closing ==>
      LinkAsOwed(cfg, s, At(s.now, e), OnConnect(s, e.authenticated, e.key).link)
    ensures e.PresenceWritten? ==> LinkAsOwed(cfg, s, At(s.now, e), OnPresence(cfg, s, e.sampled).link)
    ensures e.Disconnect? ==> LinkAsOwed(cfg, s, At(s.now, e), OnDisconnect(s).link)
  {
  }

  lemma LinkColumn(cfg: Config, before: State, ev: Stamped)
    requires Enabled(before, ev) && Inv(cfg, before)
    ensures LinkAsOwed(cfg, before, ev, Step(cfg, before, ev).link)
  {
    hide OnConnect, OnVerdict, OnPresence, ReceiveJson, OnGroup, OnServerSeq, OnRows, OnDisconnect, OnWake, SendPing, OnDeadline;
    hide Inv;
    var s := before.(now := ev.t);
    AdvanceKeeps(cfg, before, ev.t);
    LinkFacts(cfg, s);
    match ev.e {
    case Connect(_, _) => LifecycleOwed(cfg, s, ev.e);
    case Authorized(allowed) => VerdictOwed(cfg, s, allowed);
    case PresenceWritten(_) => LifecycleOwed(cfg, s, ev.e);
    case Receive(inbound) => ReceiveOwed(cfg, s, inbound);
    case Group(m) => GroupOwed(cfg, s, m);
    case ServerSeq(n) => ServerSeqOwed(cfg, s, n);
    case Rows(rows) => RowsOwed(cfg, s, rows);
    case Disconnect => LifecycleOwed(cfg, s, ev.e);
    case HbWake => WakeOwed(cfg, s);
    case HbWritten(x) => PingOwed(cfg, s.(touches := s.touches + [Touch(x, s.now)]), x);
    case HbDeadline => WakeOwed(cfg, s);
    case _ =>
    }
    assert LinkAsOwed(cfg, s, ev, Step(cfg, before, ev).link);
    TableFrom(cfg, before, s, ev, Step(cfg, before, ev));
  }

  /** A running heartbeat and a connected dispatcher go with a counted session. */
  predicate Counted(s: State) {
    && (!s.hb.Off? ==> s.presenceSession) && (!Over(s.disp) ==> (s.presenceSession <==> s.joined))
    && (s.disp.LeavingPresence? ==> s.hb.Off?)
  }

  lemma LinkFacts(cfg: Config, s: State)
    requires Inv(cfg, s)
    ensures |s.link.outbox| <= Cap(cfg) && Authority(cfg, s) && Counted(s) && (s.disp.New? ==> !s.link.closing)
  {
  }

  /** The clock and the touches do not matter for the table. */
  lemma TableFrom(cfg: Config, before: State, s: State, ev: Stamped, r: State)
    requires s == before.(now := s.now, touches := s.touches)
    ensures LinkAsOwed(cfg, s, ev, r.link) ==> LinkAsOwed(cfg, before, ev, r.link)
    ensures TasksAsTold(cfg, s, ev, r) ==> TasksAsTold(cfg, before, ev, r)
  {
  }

  // ---- the tasks' columns, handler by handler ----

  lemma HelloTold(cfg: Config, s: State, known: State, received: real, lastSeq: Option<nat>)
    requires known == s.(authorizedUntil := known.authorizedUntil, verdicts := known.verdicts)
    ensures var r := HandleHello(cfg, known, received, lastSeq);
      && r.disp == (if cfg.resumable && lastSeq.Some? then AwaitSeq(lastSeq.value) else Idle)
      && r.hb == s.hb && r.pongPending == s.pongPending && r.streamKey == s.streamKey && r.joined == s.joined
  {
    hide Enqueue, SendFrame;
  }

  lemma ReceiveTold(cfg: Config, s: State, inbound: Inbound)
    requires s.disp.Idle? && Authority(cfg, s)
    ensures TasksAsTold(cfg, s, At(s.now, Receive(inbound)), ReceiveJson(cfg, s, inbound))
  {
    hide Enqueue, SendFrame, HandleHello, Warm;
    WarmIsCached(cfg, s);
    if inbound.GotHello? {
      HelloTold(cfg, s, s, s.now, inbound.lastSeq);
    }
  }

  lemma VerdictTold(cfg: Config, s: State, allowed: bool)
    requires s.disp.AuthorizingConnect? || s.disp.AuthorizingHello?
    ensures TasksAsTold(cfg, s, At(s.now, Authorized(allowed)), OnVerdict(cfg, s, allowed))
  {
    hide Enqueue, HandleHello;
    if s.disp.AuthorizingHello? && allowed {
      HelloTold(cfg, s, Record(cfg, s, s.disp.asked, true), s.disp.asked, s.disp.hello);
    }
  }

  lemma OthersTold(cfg: Config, s: State, e: Event)
    requires Counted(s)
    ensures e.Group? && s.disp.Idle? ==> TasksAsTold(cfg, s, At(s.now, e), OnGroup(cfg, s, e.message))
    ensures e.ServerSeq? && s.disp.AwaitSeq? ==> TasksAsTold(cfg, s, At(s.now, e), OnServerSeq(cfg, s, s.disp.lastSeq, e.serverSeq))
    ensures e.Rows? && s.disp.AwaitRows? ==> TasksAsTold(cfg, s, At(s.now, e), OnRows(cfg, s, e.rows, s.disp.serverSeq))
  {
    hide Enqueue, SendFrame, SendReplay, RaiseTo, KickReason;
  }

  lemma LifecycleTold(cfg: Config, s: State, e: Event)
    requires Counted(s)
    ensures e.Connect? && s.disp.New? ==> TasksAsTold(cfg, s, At(s.now, e), OnConnect(s, e.authenticated, e.key))
    ensures e.PresenceWritten? && (s.disp.ConnectPresence? || s.disp.LeavingPresence?) ==>
      TasksAsTold(cfg, s, At(s.now, e), OnPresence(cfg, s, e.sampled))
    ensures e.Disconnect? && (s.disp.Idle? || s.disp.Refused?) ==> TasksAsTold(cfg, s, At(s.now, e), OnDisconnect(s))
    ensures e.HbWake? && s.hb.Sleeping? ==> TasksAsTold(cfg, s, At(s.now, e), OnWake(cfg, s))
    ensures e.HbWritten? && s.hb.Writing? ==> TasksAsTold(cfg, s, At(s.now, e), SendPing(cfg, s))
    ensures e.HbDeadline? && s.hb.AwaitPong? ==> TasksAsTold(cfg, s, At(s.now, e), OnDeadline(cfg, s))
  {
    hide Enqueue, SendFrame;
  }

  lemma TaskColumns(cfg: Config, before: State, ev: Stamped)
    requires Enabled(before, ev) && Inv(cfg, before)
    ensures TasksAsTold(cfg, before, ev, Step(cfg, before, ev))
  {
    hide OnConnect, OnVerdict, OnPresence, ReceiveJson, OnGroup, OnServerSeq, OnRows, OnDisconnect, OnWake, SendPing, OnDeadline;
    hide Inv;
    var s := before.(now := ev.t);
    AdvanceKeeps(cfg, before, ev.t);
    LinkFacts(cfg, s);
    match ev.e {
    case Connect(_, _) => LifecycleTold(cfg, s, ev.e);
    case Authorized(allowed) => VerdictTold(cfg, s, allowed);
    case PresenceWritten(_) => LifecycleTold(cfg, s, ev.e);
    case Receive(inbound) => ReceiveTold(cfg, s, inbound);
    case Group(_) => OthersTold(cfg, s, ev.e);
    case ServerSeq(_) => OthersTold(cfg, s, ev.e);
    case Rows(_) => OthersTold(cfg, s, ev.e);
    case Disconnect => LifecycleTold(cfg, s, ev.e);
    case HbWake => LifecycleTold(cfg, s, ev.e);
    case HbWritten(x) =>
      var touched := s.(touches := s.touches + [Touch(x, s.now)]);
      LifecycleTold(cfg, touched, ev.e);
      TableFrom(cfg, s, touched, ev, Step(cfg, before, ev));
    case HbDeadline => LifecycleTold(cfg, s, ev.e);
    case _ =>
    }
    TableFrom(cfg, before, s, ev, Step(cfg, before, ev));
  }

  /** Every step of every run does exactly what the table says. */
  lemma StepByTable(cfg: Config, tr: seq<State>, es: seq<Stamped>, k: nat)
    requires IsRun(cfg, tr, es) && k < |es|
    ensures LinkAsOwed(cfg, tr[k], es[k], tr[k + 1].link) && TasksAsTold(cfg, tr[k], es[k], tr[k + 1])
  {
    hide Step, Enabled, Inv;
    Always(cfg, tr, es, k);
    assert StepsAt(cfg, tr, es, k);
    LinkColumn(cfg, tr[k], es[k]);
    TaskColumns(cfg, tr[k], es[k]);
  }

  // ---- what follows for whole runs ----

  /** Everything owed on the way to state k, as far as it fitted. */
  ghost function Paid(cfg: Config, tr: seq<State>, es: seq<Stamped>, k: nat): seq<Message>
    requires |tr| == |es| + 1 && k <= |es|
  {
    if k == 0 then [] else Paid(cfg, tr, es, k - 1) + Fitting(cfg, tr[k - 1].link, Owed(cfg, tr[k - 1], es[k - 1]))
  }

  ghost function Called(cfg: Config, tr: seq<State>, es: seq<Stamped>, k: nat): seq<Close>
    requires |tr| == |es| + 1 && k <= |es|
  {
    if k == 0 then [] else Called(cfg, tr, es, k - 1) + ClosesOwed(cfg, tr[k - 1], es[k - 1])
  }

  /** Nothing more and nothing less: in every state of every run, what was queued is what the events so far were owed, as
      far as it fitted, in order; and the closes are those they called for. */
  lemma {:induction false} QueuedAndClosedExactly(cfg: Config, tr: seq<State>, es: seq<Stamped>, k: nat)
    requires IsRun(cfg, tr, es) && k < |tr|
    ensures tr[k].link.enq == Paid(cfg, tr, es, k) && tr[k].link.closes == Called(cfg, tr, es, k)
  {
    hide Owed, ClosesOwed, Fitting, StartsClosing, Step, Enabled;
    if k > 0 {
      QueuedAndClosedExactly(cfg, tr, es, k - 1);
      StepByTable(cfg, tr, es, k - 1);
    }
  }

  // ---- admission ----

  /** A socket that waits for its connect verdict was authenticated and resolved its stream key. */
  lemma {:induction false} AskedBy(cfg: Config, tr: seq<State>, es: seq<Stamped>, k: nat) returns (i: nat)
    requires IsRun(cfg, tr, es) && k < |tr| && tr[k].disp.AuthorizingConnect?
    ensures i < k && es[i].e == Connect(true, tr[k].streamKey) && tr[k].streamKey.Some?
  {
    hide Step, Enabled, LinkAsOwed;
    assert k > 0;
    StepByTable(cfg, tr, es, k - 1);
    if es[k - 1].e.Connect? {
      i := k - 1;
    } else {
      i := AskedBy(cfg, tr, es, k - 1);
    }
  }

  /** A connect is the first event of a socket. */
  lemma ConnectIsFirst(cfg: Config, tr: seq<State>, es: seq<Stamped>, k: nat)
    requires IsRun(cfg, tr, es) && k < |es| && es[k].e.Connect?
    ensures tr[k].disp.New? && !tr[k].joined
  {
    Always(cfg, tr, es, k);
    assert StepsAt(cfg, tr, es, k);
  }

  /** Admission: a joined socket was authenticated, resolved the stream key it serves, and got a positive verdict on it. */
  lemma {:induction false} AdmittedByVerdict(cfg: Config, tr: seq<State>, es: seq<Stamped>, k: nat) returns (i: nat, j: nat)
    requires IsRun(cfg, tr, es) && k < |tr| && tr[k].joined
    ensures i < j < k && es[i].e == Connect(true, tr[k].streamKey) && tr[k].streamKey.Some?
    ensures tr[j].disp.AuthorizingConnect? && es[j].e == Authorized(true)
  {
    hide Step, Enabled, LinkAsOwed, NextPhase, NextBeat;
    assert k > 0;
    StepByTable(cfg, tr, es, k - 1);
    if es[k - 1].e.Connect? {
      ConnectIsFirst(cfg, tr, es, k - 1);
    }
    if tr[k - 1].joined {
      i, j := AdmittedByVerdict(cfg, tr, es, k - 1);
    } else {
      j := k - 1;
      i := AskedBy(cfg, tr, es, j);
    }
  }

  /** The code with which `e` turns a connecting socket away. */
  function Refusal(s: State, e: Event): Option<int> {
    match e
    case Connect(authenticated, key) => if !authenticated then Some(4401) else if key.None? then Some(4404) else None
    case Authorized(false) => if s.disp.AuthorizingConnect? then Some(4403) else None
    case _ => None
  }

  lemma RefusedStep(cfg: Config, s: State, ev: Stamped)
    requires Enabled(s, ev) && Control(cfg, s)
    ensures s.disp.Refused? ==> ev.e.Disconnect? && Step(cfg, s, ev).writer == s.writer
    ensures !(s.disp.Gone? && !s.joined && s.link.enq == [] && s.writer.NotStarted?)
    ensures Refusal(s, ev.e).Some? ==> s.link == EMPTY_LINK && !s.joined && Step(cfg, s, ev).writer.NotStarted?
  {
    hide ReceiveJson, OnGroup, OnServerSeq, OnRows, OnWake, SendPing, OnDeadline, HandleHello;
  }

  /** A socket refused for want of authentication, of a stream key or of a positive verdict is closed once, with 4401, 4404
      or 4403; in no later state is it joined or counted present, and nothing is ever queued for it. */
  lemma {:induction false} RefusedStaysOut(cfg: Config, tr: seq<State>, es: seq<Stamped>, k: nat, later: nat)
    requires IsRun(cfg, tr, es) && k < later < |tr| && Refusal(tr[k], es[k].e).Some?
    ensures var s := tr[later];
      && !s.joined && (s.disp.Refused? || s.disp.Gone?) && s.link.enq == [] && s.writer.NotStarted?
      && s.link.closes == [Close(Refusal(tr[k], es[k].e).value, ByRefusal)]
    decreases later
  {
    hide Step, Enabled, Inv, Control;
    StepByTable(cfg, tr, es, later - 1);
    Always(cfg, tr, es, later - 1);
    InvParts(cfg, tr[later - 1]);
    assert StepsAt(cfg, tr, es, later - 1);
    if later > k + 1 {
      RefusedStaysOut(cfg, tr, es, k, later - 1);
    }
    RefusedStep(cfg, tr[later - 1], es[later - 1]);
  }

  lemma {:induction false} StaysJoined(cfg: Config, tr: seq<State>, es: seq<Stamped>, j: nat, k: nat)
    requires IsRun(cfg, tr, es) && j < k < |tr| && tr[j].disp.AuthorizingConnect? && es[j].e == Authorized(true)
    ensures tr[k].joined
    decreases k
  {
    hide Step, Enabled, LinkAsOwed, NextPhase, NextBeat;
    StepByTable(cfg, tr, es, k - 1);
    if j < k - 1 {
      StaysJoined(cfg, tr, es, j, k - 1);
    }
  }

  /** Admission, exactly: a socket is joined from its positive connect verdict on, and only so. */
  lemma AdmissionExactly(cfg: Config, tr: seq<State>, es: seq<Stamped>, k: nat)
    requires IsRun(cfg, tr, es) && k < |tr|
    ensures tr[k].joined <==> exists j: nat :: j < k && tr[j].disp.AuthorizingConnect? && es[j].e == Authorized(true)
  {
    assert |tr| == |es| + 1;
    hide IsRun;
    if tr[k].joined {
      var i, j := AdmittedByVerdict(cfg, tr, es, k);
    }
    forall j: nat | j < k && tr[j].disp.AuthorizingConnect? && es[j].e == Authorized(true) ensures tr[k].joined {
      StaysJoined(cfg, tr, es, j, k);
    }
  }

  /** The cache, exactly: a hello is put to the authorizer if and only if the newest verdict is not positive or was asked for
      longer ago than the window. */
  lemma AsksExactly(cfg: Config, tr: seq<State>, es: seq<Stamped>, k: nat)
    requires IsRun(cfg, tr, es) && k < |es| && es[k].e.Receive? && es[k].e.inbound.GotHello?
    ensures tr[k + 1].disp.AuthorizingHello? <==> !Warm(cfg, tr[k].verdicts, es[k].t)
    ensures tr[k + 1].disp.AuthorizingHello? ==> tr[k + 1].disp == AuthorizingHello(es[k].t, es[k].e.inbound.lastSeq)
  {
    StepByTable(cfg, tr, es, k);
  }

  // ---- revocation ----

  /** A drain begins exactly on a revocation for this socket, on the third malformed frame of the run, or on a refused hello,
      and with the code of its cause. */
  lemma DrainBeginsExactly(cfg: Config, tr: seq<State>, es: seq<Stamped>, k: nat)
    requires IsRun(cfg, tr, es) && k < |es| && !tr[k].disp.Draining?
    ensures tr[k + 1].disp.Draining? <==>
      || (es[k].e.Group? && Concerns(cfg, es[k].e.message))
      || (es[k].e == Receive(GotMalformed) && Malformed(es, k + 1) >= 3)
      || (es[k].e == Authorized(false) && tr[k].disp.AuthorizingHello?)
    ensures tr[k + 1].disp.Draining? ==>
      tr[k + 1].disp == Draining(if es[k].e.Group? then 4410 else if es[k].e.Receive? then 4400 else 4403, es[k].t)
  {
    hide LinkAsOwed, NextBeat;
    StepByTable(cfg, tr, es, k);
    StrikesCount(cfg, tr, es, k);
  }

  lemma SparedStep(cfg: Config, s: State, ev: Stamped)
    requires Enabled(s, ev) && ev.e.Group? && ev.e.message.RevokeMsg? && !Concerns(cfg, ev.e.message)
    ensures Step(cfg, s, ev) == s.(now := ev.t)
  {
  }

  /** Revocation reaches its user and nobody else: one that names another user changes nothing of a socket; one that names
      this user or none begins the 4410 drain and, if the socket is open and has room, queues the KICK with its reason. */
  lemma RevocationExactly(cfg: Config, tr: seq<State>, es: seq<Stamped>, k: nat)
    requires IsRun(cfg, tr, es) && k < |es| && es[k].e.Group? && es[k].e.message.RevokeMsg?
    ensures var m, s, r := es[k].e.message, tr[k], tr[k + 1];
      if m.userId.Some? && m.userId.value != cfg.userId then r == s.(now := es[k].t)
      else
        && r.disp == Draining(4410, es[k].t) && r.link.closing
        && (!s.link.closing && |s.link.outbox| < Cap(cfg) ==>
              r.link.enq == s.link.enq + [Kick(if m.reason == "" then "access_revoked" else m.reason)])
  {
    StepByTable(cfg, tr, es, k);
    assert StepsAt(cfg, tr, es, k);
    if !Concerns(cfg, es[k].e.message) {
      SparedStep(cfg, tr[k], es[k]);
    }
    hide Step, Enabled;
  }

  // ---- the heartbeat ----

  /** Every beat of an open socket with room queues a PING; one without room closes the socket for overflow. */
  lemma PingGoesOut(cfg: Config, tr: seq<State>, es: seq<Stamped>, k: nat)
    requires IsRun(cfg, tr, es) && k < |es| && es[k].e.HbWritten? && !tr[k].link.closing
    ensures if |tr[k].link.outbox| < Cap(cfg)
      then tr[k + 1].link.enq == tr[k].link.enq + [Ping] && !tr[k + 1].link.closing
      else tr[k + 1].link.closing && tr[k + 1].link.closes == tr[k].link.closes + [Close(4413, ByOverflow)]
  {
    StepByTable(cfg, tr, es, k);
    FifoBackpressure(cfg, tr, es, k);
  }

  /** How early the next ping can be when the last one went out at `q`. */
  predicate Unhurried(cfg: Config, q: real, s: State) {
    && !Early(s.disp)
    && match s.hb
       case Off => true
       case Sleeping(due) => due >= q + PongTimeout(cfg) + cfg.heartbeatS
       case Writing(since) => since >= q + PongTimeout(cfg) + cfg.heartbeatS
       case AwaitPong(due) => due >= q + PongTimeout(cfg)
  }

  lemma UnhurriedStep(cfg: Config, q: real, s: State, ev: Stamped, r: State)
    requires TasksAsTold(cfg, s, ev, r) && Enabled(s, ev) && Unhurried(cfg, q, s) && !ev.e.HbWritten?
    ensures Unhurried(cfg, q, r)
  {
    hide Warm;
  }

  lemma {:induction false} StaysUnhurried(cfg: Config, tr: seq<State>, es: seq<Stamped>, j: nat, k: nat)
    requires IsRun(cfg, tr, es) && j < k < |tr| && es[j].e.HbWritten? && (forall i | j < i < k :: !es[i].e.HbWritten?)
    ensures Unhurried(cfg, es[j].t, tr[k])
    decreases k
  {
    hide Step, Enabled, Inv, Control, LinkAsOwed, TasksAsTold, Unhurried;
    StepByTable(cfg, tr, es, k - 1);
    assert StepsAt(cfg, tr, es, k - 1);
    if j == k - 1 {
      Always(cfg, tr, es, j);
      InvParts(cfg, tr[j]);
      PingStarts(cfg, tr[j], es[j], tr[k]);
    } else {
      StaysUnhurried(cfg, tr, es, j, k - 1);
      UnhurriedStep(cfg, es[j].t, tr[k - 1], es[k - 1], tr[k]);
    }
  }

  lemma PingStarts(cfg: Config, s: State, ev: Stamped, r: State)
    requires TasksAsTold(cfg, s, ev, r) && Enabled(s, ev) && Control(cfg, s) && ev.e.HbWritten?
    ensures Unhurried(cfg, ev.t, r)
  {
  }

  /** Pings keep their distance: two beats of a socket are at least `HEARTBEAT_S + max(1, HEARTBEAT_TIMEOUT_S)` apart. */
  lemma PingSpacing(cfg: Config, tr: seq<State>, es: seq<Stamped>, j: nat, k: nat)
    requires IsRun(cfg, tr, es) && j < k < |es| && es[j].e.HbWritten? && es[k].e.HbWritten?
    requires forall i | j < i < k :: !es[i].e.HbWritten?
    ensures es[k].t >= es[j].t + PongTimeout(cfg) + cfg.heartbeatS
  {
    StaysUnhurried(cfg, tr, es, j, k);
    assert StepsAt(cfg, tr, es, k);
    hide Step;
  }

  /** Where each close came from: the one event that called for it. */
  lemma {:induction false} CloseCause(cfg: Config, tr: seq<State>, es: seq<Stamped>, k: nat, n: nat) returns (j: nat)
    requires IsRun(cfg, tr, es) && k < |tr| && n < |tr[k].link.closes|
    ensures j < k && |tr[j].link.closes| <= n < |tr[j + 1].link.closes|
    ensures tr[k].link.closes[n] in ClosesOwed(cfg, tr[j], es[j])
  {
    hide Step, Enabled, TasksAsTold, ClosesOwed, Owed, Fitting, StartsClosing;
    assert k > 0;
    StepByTable(cfg, tr, es, k - 1);
    if n < |tr[k - 1].link.closes| {
      j := CloseCause(cfg, tr, es, k - 1, n);
    } else {
      j := k - 1;
    }
  }

  /** The heartbeat closes for two reasons only: 4401 at a wake-up after the token's expiry, 4408 at a deadline with the pong
      outstanding, each on an open socket; and such a wake-up always closes. */
  lemma HeartbeatCloses(cfg: Config, tr: seq<State>, es: seq<Stamped>, k: nat, n: nat) returns (j: nat)
    requires IsRun(cfg, tr, es) && k < |tr| && n < |tr[k].link.closes| && tr[k].link.closes[n].via.ByHeartbeat?
    ensures j < k && !tr[j].link.closing
    ensures var code := tr[k].link.closes[n].code;
      || (code == 4401 && es[j].e.HbWake? && cfg.exp.Some? && cfg.exp.value <= es[j].t)
      || (code == 4408 && es[j].e.HbDeadline? && tr[j].pongPending)
  {
    j := CloseCause(cfg, tr, es, k, n);
    hide IsRun, Owed;
  }

  /** The token is looked at on every wake-up: an open socket's wake-up closes it with 4401 if and only if the token has
      expired by then, and otherwise renews its presence. */
  lemma TokenChecked(cfg: Config, tr: seq<State>, es: seq<Stamped>, k: nat)
    requires IsRun(cfg, tr, es) && k < |es| && es[k].e.HbWake? && !tr[k].link.closing
    ensures if cfg.exp.Some? && cfg.exp.value <= es[k].t
      then tr[k + 1].link.closes == tr[k].link.closes + [Close(4401, ByHeartbeat)] && tr[k + 1].link.closing && tr[k + 1].hb.Off?
      else tr[k + 1].link.closes == tr[k].link.closes && !tr[k + 1].link.closing && tr[k + 1].hb == Writing(es[k].t)
  {
    StepByTable(cfg, tr, es, k);
  }

  // ---- leaving ----

  lemma OverStays(cfg: Config, s: State, ev: Stamped)
    requires Enabled(s, ev) && Control(cfg, s) && Over(s.disp)
    ensures s.disp.LeavingPresence? && ev.e.PresenceWritten?
    ensures Step(cfg, s, ev).wire == s.wire && Step(cfg, s, ev).touches == s.touches
  {
  }

  /** After its disconnect a socket is still: a counted session is uncounted by exactly one presence write, and nothing is
      sent, queued, closed or touched any more. */
  lemma {:induction false} DisconnectIsFinal(cfg: Config, tr: seq<State>, es: seq<Stamped>, k: nat, later: nat)
    requires IsRun(cfg, tr, es) && k < later < |tr| && es[k].e.Disconnect?
    ensures tr[k + 1].disp == (if tr[k].joined then LeavingPresence else Gone)
    ensures var s, r := tr[k + 1], tr[later];
      && Over(r.disp) && r.hb.Off? && r.wire == s.wire && r.link.enq == s.link.enq && r.link.closes == s.link.closes
      && r.touches == s.touches && s.link.closing
      && later <= k + 2 && (later == k + 2 ==> tr[k].joined && es[k + 1].e.PresenceWritten? && r.disp.Gone?)
    decreases later
  {
    hide Step, Enabled, Inv, Control, StartsClosing;
    StepByTable(cfg, tr, es, k);
    Always(cfg, tr, es, later);
    InvParts(cfg, tr[later]);
    if later > k + 1 {
      DisconnectIsFinal(cfg, tr, es, k, later - 1);
      StepByTable(cfg, tr, es, later - 1);
      Always(cfg, tr, es, later - 1);
      InvParts(cfg, tr[later - 1]);
      assert StepsAt(cfg, tr, es, later - 1);
      OverStays(cfg, tr[later - 1], es[later - 1]);
    }
  }
}
