/** Does a healthy socket stay live? The heartbeat's touches against the presence lease, and what check W006 says. */
module Continuity {
  import opened Wrappers
  import opened Socket
  import opened Runs
  import opened Presence
  import opened PresenceLease
  import PresenceRaces
  import opened Provenance
  import opened Timing
  import opened Delivery

  /** `check_presence_ttl`: silent when presence is enabled and, if there is a heartbeat, it beats below the TTL. */
  predicate W006Silent(ttl: int, heartbeatS: real) { ttl > 0 && (heartbeatS <= 0.0 || heartbeatS < ttl as real) }

  /** The longest time between the clock sample of one touch and the landing of the next. */
  function BeatPeriod(cfg: Config): real { cfg.heartbeatS + PongTimeout(cfg) }

  /** How late after its last touch an open socket's heartbeat can be. */
  predicate Renewing(cfg: Config, lag: real, s: State) {
    var h, pong := cfg.heartbeatS, PongTimeout(cfg);
    && s.touches != []
    && var last := s.touches[|s.touches| - 1].sampled;
    && last <= s.now
    && match s.hb
       case Off => true
       case Sleeping(due) => due <= last + h + pong + 2.0 * lag
       case Writing(since) => since <= last + h + pong + 3.0 * lag
       case AwaitPong(due) => due <= last + pong + lag
  }

  lemma RenewingStep(cfg: Config, lag: real, s: State, ev: Stamped)
    requires Enabled(s, ev) && lag >= 0.0 && Beats(cfg) && OnTime(s, lag, ev.t) && Control(cfg, s)
    requires Connected(s) && !s.link.closing ==> Renewing(cfg, lag, s)
    ensures var r := Step(cfg, s, ev); Connected(r) && !r.link.closing ==> Renewing(cfg, lag, r)
  {
    hide SendFrame;
    if !ev.e.HbWake? && !ev.e.HbWritten? && !ev.e.HbDeadline? {
      hide Step;
      DispatchFrame(cfg, s, ev);
      DisconnectStops(cfg, s, ev);
    }
  }

  lemma {:induction false} AlwaysRenewing(cfg: Config, lag: real, tr: seq<State>, es: seq<Stamped>, k: nat)
    requires IsRun(cfg, tr, es) && Prompt(lag, tr, es) && Beats(cfg) && k < |tr|
    ensures Connected(tr[k]) && !tr[k].link.closing ==> Renewing(cfg, lag, tr[k])
  {
    if k > 0 {
      AlwaysRenewing(cfg, lag, tr, es, k - 1);
      Always(cfg, tr, es, k - 1);
      assert StepsAt(cfg, tr, es, k - 1);
      RenewingStep(cfg, lag, tr[k - 1], es[k - 1]);
    }
  }

  /** `ops` holds, among the ordered writes of all of the user's sessions up to `t`, the touch of `sid` sampled at `at`
      and no disconnect of `sid` after it. */
  predicate Landed(ops: seq<Op>, sid: string, family: Option<string>, at: real, n: nat, t: real) {
    && Ordered(ops) && n < |ops| && ops[n] == Touching(sid, family, at) && ops[|ops| - 1].at <= t
    && forall i | n < i < |ops| :: ops[i].sid == sid ==> ops[i].Touching? && ops[i].family == family
  }

  lemma {:induction false} NotesKeep(ttl: int, ops: seq<Op>, sid: string, family: Option<string>, at: real, n: nat, t: real)
    requires Landed(ops, sid, family, at, n, t)
    ensures var l := Notes(ttl, ops);
      sid in l.sessions && l.sessions[sid].seen >= at && l.sessions[sid].family == FamilyOf(family)
  {
    var before := ops[..|ops| - 1];
    if n < |ops| - 1 {
      assert before[n] == ops[n];
      NotesKeep(ttl, before, sid, family, at, n, ops[|ops| - 1].at);
    }
  }

  /** A touch keeps its session live, for its family and for the unscoped question, until one TTL after its sample. */
  lemma TouchedIsLive(ttl: int, ops: seq<Op>, sid: string, family: Option<string>, at: real, n: nat, t: real)
    requires ttl > 0 && Landed(ops, sid, family, at, n, t) && t < at + ttl as real
    ensures Snapshot(Fetch(Slots(ttl, ops), t), None, t, ttl).live
    ensures Snapshot(Fetch(Slots(ttl, ops), t), FamilyOf(family), t, ttl).live
  {
    NotesKeep(ttl, ops, sid, family, at, n, t);
    var asked := FamilyOf(family);
    RefinesLedger(ttl, ops, t, None);
    RefinesLedger(ttl, ops, t, asked);
    var l := Notes(ttl, ops);
    assert sid in LiveIds(l.sessions, None, t, ttl) && sid in LiveIds(l.sessions, asked, t, ttl);
    assert !OnTheEdge(l.sessions, ttl, sid, t);
  }

  /** Lease continuity: when the beat period and the lags stay below PRESENCE_TTL_S, an open socket whose writes land is
      reported live at every instant between connect and the start of its closing, whatever else the user's other
      sessions write in between. */
  lemma LeaseContinuity(cfg: Config, lag: real, tr: seq<State>, es: seq<Stamped>, k: nat, t: real,
                        ttl: int, ops: seq<Op>, sid: string, family: Option<string>, n: nat)
    requires IsRun(cfg, tr, es) && Prompt(lag, tr, es) && Beats(cfg) && k < |es|
    requires Connected(tr[k]) && !tr[k].link.closing && tr[k].now <= t <= es[k].t
    requires BeatPeriod(cfg) + 4.0 * lag < ttl as real
    requires tr[k].touches != [] ==> Landed(ops, sid, family, tr[k].touches[|tr[k].touches| - 1].sampled, n, t)
    ensures Snapshot(Fetch(Slots(ttl, ops), t), None, t, ttl).live
    ensures Snapshot(Fetch(Slots(ttl, ops), t), FamilyOf(family), t, ttl).live
  {
    AlwaysRenewing(cfg, lag, tr, es, k);
    Always(cfg, tr, es, k);
    assert OnTime(tr[k], lag, es[k].t);
    TouchedIsLive(ttl, ops, sid, family, tr[k].touches[|tr[k].touches| - 1].sampled, n, t);
  }

  /** Lease continuity under races: with every presence write of the fleet split and interleaved, an open socket is live
      at every instant at which its last touch has landed undisturbed. */
  lemma LeaseUnderRaces(cfg: Config, lag: real, tr: seq<State>, es: seq<Stamped>, k: nat, ttl: int,
                        ws: seq<PresenceRaces.World>, acts: seq<PresenceRaces.Act>, landed: nat, n: nat,
                        sid: string, family: Option<string>)
    requires IsRun(cfg, tr, es) && Prompt(lag, tr, es) && Beats(cfg) && k < |es|
    requires Connected(tr[k]) && !tr[k].link.closing && BeatPeriod(cfg) + 4.0 * lag < ttl as real
    requires PresenceRaces.IsTrace(ttl, ws, acts) && landed < n < |ws| && tr[k].now <= ws[n].now <= es[k].t
    requires tr[k].touches != [] ==>
      var at := tr[k].touches[|tr[k].touches| - 1].sampled;
      && PresenceRaces.Lands(ws, acts, landed, sid, family, at)
      && PresenceRaces.Undisturbed(ws, acts, landed, n, sid, family, at)
    ensures Snapshot(Fetch(ws[n].slot, ws[n].now), None, ws[n].now, ttl).live
    ensures Snapshot(Fetch(ws[n].slot, ws[n].now), FamilyOf(family), ws[n].now, ttl).live
  {
    AlwaysRenewing(cfg, lag, tr, es, k);
    Always(cfg, tr, es, k);
    assert OnTime(tr[k], lag, es[k].t);
    PresenceRaces.UndisturbedIsLive(ttl, ws, acts, landed, n, sid, family, tr[k].touches[|tr[k].touches| - 1].sampled);
  }

  /** The touches of a run as the user's only presence writes. */
  function Alone(sid: string, family: Option<string>, touches: seq<Touch>): (ops: seq<Op>) {
    seq(|touches|, i requires 0 <= i < |touches| => Touching(sid, family, touches[i].sampled))
  }

  /** A socket accepted at time 0 whose presence write lands at once. */
  function Opened(cfg: Config, key: string): State {
    Init(0.0).(streamKey := Some(key), joined := true, authorizedUntil := CacheWindow(cfg), presenceSession := true,
               disp := Idle, writer := Waiting, hb := Sleeping(cfg.heartbeatS),
               verdicts := [Verdict(0.0, true)], touches := [Touch(0.0, 0.0)])
  }

  lemma Opening(cfg: Config, key: string) returns (s1: State, s2: State)
    requires Beats(cfg)
    ensures var s0 := Init(0.0);
      && Enabled(s0, At(0.0, Connect(true, Some(key)))) && s1 == Step(cfg, s0, At(0.0, Connect(true, Some(key))))
      && Enabled(s1, At(0.0, Authorized(true))) && s2 == Step(cfg, s1, At(0.0, Authorized(true)))
      && Enabled(s2, At(0.0, PresenceWritten(0.0))) && Step(cfg, s2, At(0.0, PresenceWritten(0.0))) == Opened(cfg, key)
      && s1.hb.Off? && s2.hb.Off? && s1.disp.AuthorizingConnect? && s2.disp == ConnectPresence(0.0)
  {
    s1 := Init(0.0).(streamKey := Some(key), disp := AuthorizingConnect(0.0));
    s2 := s1.(joined := true, authorizedUntil := CacheWindow(cfg), presenceSession := true, disp := ConnectPresence(0.0),
              verdicts := [Verdict(0.0, true)]);
  }

  /** One beat of an idle, open socket: wake-up, touch, ping, pong, deadline. */
  lemma OneBeat(cfg: Config, s: State, at: real) returns (woken: State, pinged: State, ponged: State, over: State)
    requires s.hb == Sleeping(at) && s.now <= at && s.disp.Idle? && s.presenceSession && s.link == EMPTY_LINK && cfg.exp.None?
    ensures Enabled(s, At(at, HbWake)) && woken == Step(cfg, s, At(at, HbWake)) && woken.hb == Writing(at) && woken.disp.Idle?
    ensures Enabled(woken, At(at, HbWritten(at))) && pinged == Step(cfg, woken, At(at, HbWritten(at)))
    ensures pinged.hb == AwaitPong(at + PongTimeout(cfg)) && pinged.disp.Idle?
    ensures Enabled(pinged, At(at, Receive(GotPong))) && ponged == Step(cfg, pinged, At(at, Receive(GotPong)))
    ensures ponged.hb == pinged.hb && ponged.disp.Idle?
    ensures var due := at + PongTimeout(cfg);
      && Enabled(ponged, At(due, HbDeadline)) && over == Step(cfg, ponged, At(due, HbDeadline))
      && over.now == due && over.hb == Sleeping(due + cfg.heartbeatS) && over.disp.Idle? && over.presenceSession
      && !over.link.closing && over.touches == s.touches + [Touch(at, at)]
  {
    woken := Step(cfg, s, At(at, HbWake));
    pinged := Step(cfg, woken, At(at, HbWritten(at)));
    ponged := Step(cfg, pinged, At(at, Receive(GotPong)));
    over := Step(cfg, ponged, At(at + PongTimeout(cfg), HbDeadline));
  }

  /** Of two touches at 0 and `h`, nothing is left one TTL after the second. */
  lemma AloneExpires(ttl: int, sid: string, family: Option<string>, h: real, t: real)
    requires 0 < ttl && 0.0 < h < ttl as real && h + ttl as real <= t
    ensures !Snapshot(Fetch(Slots(ttl, Alone(sid, family, [Touch(0.0, 0.0), Touch(h, h)])), t), None, t, ttl).live
  {
    var ops := Alone(sid, family, [Touch(0.0, 0.0), Touch(h, h)]);
    assert ops == [Touching(sid, family, 0.0), Touching(sid, family, h)];
    assert Slots(ttl, ops).value.expires == h + ttl as real;
  }

  /** W006 silence is not enough: for every setting with HEARTBEAT_S below PRESENCE_TTL_S but a beat period not below it,
      a punctual socket whose client answers its ping at once reads as not live at some instant of its life. */
  lemma W006Gap(cfg: Config, ttl: int, key: string, sid: string, family: Option<string>)
    returns (tr: seq<State>, es: seq<Stamped>, t: real)
    requires Beats(cfg) && W006Silent(ttl, cfg.heartbeatS) && cfg.exp.None? && BeatPeriod(cfg) >= ttl as real
    ensures IsRun(cfg, tr, es) && Prompt(0.0, tr, es) && |es| == 8
    ensures es[4].e.HbWritten? && PongHandled(es[5].e) && es[5].t == es[4].t
    ensures Connected(tr[7]) && !tr[7].link.closing && tr[7].now <= t <= es[7].t
    ensures !Snapshot(Fetch(Slots(ttl, Alone(sid, family, tr[7].touches)), t), None, t, ttl).live
  {
    hide Step, Enabled, Slots, Snapshot, Alone;
    var h, pong := cfg.heartbeatS, PongTimeout(cfg);
    var s3 := Opened(cfg, key);
    var s1, s2 := Opening(cfg, key);
    var s4, s5, s6, s7 := OneBeat(cfg, s3, h);
    var last := At(h + pong + h, HbWake);
    assert Enabled(s7, last) by { WakeEnabled(s7, last); }
    es := [At(0.0, Connect(true, Some(key))), At(0.0, Authorized(true)), At(0.0, PresenceWritten(0.0)),
           At(h, HbWake), At(h, HbWritten(h)), At(h, Receive(GotPong)), At(h + pong, HbDeadline), last];
    tr := [Init(0.0), s1, s2, s3, s4, s5, s6, s7, Step(cfg, s7, last)];
    t := if pong > ttl as real then h + pong else h + ttl as real;
    forall k | 0 <= k < 8 ensures StepsAt(cfg, tr, es, k) && OnTime(tr[k], 0.0, es[k].t) { }
    AloneExpires(ttl, sid, family, h, t);
    assert s7.touches == [Touch(0.0, 0.0), Touch(h, h)];
  }

  lemma WakeEnabled(s: State, ev: Stamped)
    requires s.hb.Sleeping? && s.hb.due <= ev.t && s.now <= ev.t && ev.e.HbWake?
    ensures Enabled(s, ev)
  {
  }

  /** Touches are sampled one after the other. */
  predicate TouchesOrdered(s: State) {
    && (forall i, j | 0 <= i < j < |s.touches| :: s.touches[i].sampled <= s.touches[j].sampled)
    && (forall i | 0 <= i < |s.touches| :: s.touches[i].sampled <= s.now)
    && (s.hb.Writing? ==> s.hb.since <= s.now && forall i | 0 <= i < |s.touches| :: s.touches[i].sampled <= s.hb.since)
  }

  lemma TouchesStep(cfg: Config, s: State, ev: Stamped)
    requires Enabled(s, ev) && Control(cfg, s) && TouchesOrdered(s)
    ensures TouchesOrdered(Step(cfg, s, ev))
  {
    if ev.e.HbWake? || ev.e.HbWritten? || ev.e.HbDeadline? {
      hide SendFrame, TokenExpired;
    } else {
      hide Step, Control;
      DispatchFrame(cfg, s, ev);
      DisconnectStops(cfg, s, ev);
      if ev.e.PresenceWritten? {
        OnlyConnectTouches(cfg, s, ev);
      }
    }
  }

  lemma OnlyConnectTouches(cfg: Config, s: State, ev: Stamped)
    requires Enabled(s, ev) && Control(cfg, s) && ev.e.PresenceWritten?
    ensures var r := Step(cfg, s, ev); r.touches == s.touches || (s.touches == [] && r.touches == [Touch(ev.e.sampled, ev.t)])
    ensures s.disp.ConnectPresence? ==> ev.e.sampled <= ev.t
    ensures !Step(cfg, s, ev).hb.Writing? || Step(cfg, s, ev).hb == s.hb
  {
  }

  lemma {:induction false} AlwaysOrdered(cfg: Config, tr: seq<State>, es: seq<Stamped>, k: nat)
    requires IsRun(cfg, tr, es) && k < |tr|
    ensures TouchesOrdered(tr[k])
  {
    hide Step, Enabled, Inv, Control;
    if k > 0 {
      AlwaysOrdered(cfg, tr, es, k - 1);
      Always(cfg, tr, es, k - 1);
      InvParts(cfg, tr[k - 1]);
      assert StepsAt(cfg, tr, es, k - 1);
      TouchesStep(cfg, tr[k - 1], es[k - 1]);
    }
  }

  predicate LiveAt(ttl: int, sid: string, family: Option<string>, touches: seq<Touch>, t: real) {
    Snapshot(Fetch(Slots(ttl, Alone(sid, family, touches)), t), None, t, ttl).live
  }

  /** At instant `t`, in state k of a punctual run, the socket is open. */
  ghost predicate OpenAt(cfg: Config, tr: seq<State>, es: seq<Stamped>, k: nat, t: real) {
    && IsRun(cfg, tr, es) && Prompt(0.0, tr, es) && k < |es|
    && Connected(tr[k]) && !tr[k].link.closing && tr[k].now <= t <= es[k].t
  }

  /** What W006 is to warn of never happens: on every punctual run an open socket, its user's only one, is always live. */
  ghost predicate HealthyStaysLive(cfg: Config, ttl: int, sid: string, family: Option<string>) {
    forall tr: seq<State>, es, k: nat, t :: OpenAt(cfg, tr, es, k, t) ==> LiveAt(ttl, sid, family, tr[k].touches, t)
  }

  /** A heartbeat that is not below the TTL lets the very first lease run out before its first beat. */
  lemma FirstLeaseLapses(cfg: Config, ttl: int, key: string, sid: string, family: Option<string>)
    returns (tr: seq<State>, es: seq<Stamped>)
    requires Beats(cfg) && 0.0 < ttl as real <= cfg.heartbeatS
    ensures OpenAt(cfg, tr, es, 3, ttl as real) && !LiveAt(ttl, sid, family, tr[3].touches, ttl as real)
  {
    hide Step, Enabled;
    var s3 := Opened(cfg, key);
    var s1, s2 := Opening(cfg, key);
    var wake := At(cfg.heartbeatS, HbWake);
    assert Enabled(s3, wake) by { WakeEnabled(s3, wake); }
    es := [At(0.0, Connect(true, Some(key))), At(0.0, Authorized(true)), At(0.0, PresenceWritten(0.0)), wake];
    tr := [Init(0.0), s1, s2, s3, Step(cfg, s3, wake)];
    forall k | 0 <= k < 4 ensures StepsAt(cfg, tr, es, k) && OnTime(tr[k], 0.0, es[k].t) { }
    var ops := Alone(sid, family, s3.touches);
    assert ops == [Touching(sid, family, 0.0)];
    assert Slots(ttl, ops).value.expires == ttl as real;
  }

  /** The settings that keep every healthy socket live, exactly: those whose whole beat period, not only HEARTBEAT_S, is below
      PRESENCE_TTL_S. */
  lemma W006Exactly(cfg: Config, ttl: int, sid: string, family: Option<string>)
    requires Beats(cfg) && ttl > 0 && cfg.exp.None?
    ensures HealthyStaysLive(cfg, ttl, sid, family) <==> BeatPeriod(cfg) < ttl as real
  {
    if BeatPeriod(cfg) < ttl as real {
      forall tr: seq<State>, es, k: nat, t | OpenAt(cfg, tr, es, k, t) ensures LiveAt(ttl, sid, family, tr[k].touches, t) {
        OpenIsLive(cfg, tr, es, k, t, ttl, sid, family);
      }
    } else if cfg.heartbeatS < ttl as real {
      var tr, es, t := W006Gap(cfg, ttl, "k", sid, family);
      assert OpenAt(cfg, tr, es, 7, t) && !LiveAt(ttl, sid, family, tr[7].touches, t);
    } else {
      var tr, es := FirstLeaseLapses(cfg, ttl, "k", sid, family);
    }
  }

  /** The verdict of W006: it never fires without cause, and what it misses is exactly a TTL above HEARTBEAT_S but not above
      the beat period. A disabled registry makes it fire and every user offline; a disabled heartbeat is not its business. */
  lemma W006Verdict(cfg: Config, ttl: int, sid: string, family: Option<string>)
    requires cfg.exp.None?
    ensures ttl > 0 && Beats(cfg) && !W006Silent(ttl, cfg.heartbeatS) ==> !HealthyStaysLive(cfg, ttl, sid, family)
    ensures ttl > 0 && Beats(cfg) ==>
      (W006Silent(ttl, cfg.heartbeatS) && !HealthyStaysLive(cfg, ttl, sid, family) <==>
         cfg.heartbeatS < ttl as real <= cfg.heartbeatS + PongTimeout(cfg))
    ensures ttl <= 0 ==> !W006Silent(ttl, cfg.heartbeatS)
    ensures ttl <= 0 ==> forall digest, store, up, working, user, asked, now ::
      !IsLive(digest, store, ttl, up, working, user, asked, now).live
    ensures ttl > 0 && !Beats(cfg) ==> W006Silent(ttl, cfg.heartbeatS)
  {
    hide HealthyStaysLive;
    if ttl > 0 && Beats(cfg) {
      W006Exactly(cfg, ttl, sid, family);
    }
  }

  lemma OpenIsLive(cfg: Config, tr: seq<State>, es: seq<Stamped>, k: nat, t: real, ttl: int, sid: string, family: Option<string>)
    requires OpenAt(cfg, tr, es, k, t) && Beats(cfg) && BeatPeriod(cfg) < ttl as real
    ensures LiveAt(ttl, sid, family, tr[k].touches, t)
  {
    assert |tr| == |es| + 1;
    hide IsRun, Prompt;
    AlwaysRenewing(cfg, 0.0, tr, es, k);
    AlwaysOrdered(cfg, tr, es, k);
    var ops, n := Alone(sid, family, tr[k].touches), |tr[k].touches| - 1;
    assert Landed(ops, sid, family, tr[k].touches[n].sampled, n, t);
    LeaseContinuity(cfg, 0.0, tr, es, k, t, ttl, ops, sid, family, n);
  }

  // ---- no heartbeat at all ----

  /** `check_heartbeat`: silent when there is a heartbeat. */
  predicate W003Silent(heartbeatS: real) { heartbeatS > 0.0 }

  /** The heartbeat closes nothing between `l` and `r`. */
  predicate Spared(l: Link, r: Link) { forall c | c in r.closes :: c in l.closes || !c.via.ByHeartbeat? }

  lemma SendingSpares(cfg: Config, l: Link)
    ensures forall m :: Spared(l, Enqueue(cfg, l, m)) && Spared(l, SendFrame(cfg, l, m))
  {
  }

  lemma HelloSpares(cfg: Config, s: State, received: real, lastSeq: Option<nat>)
    ensures Spared(s.link, HandleHello(cfg, s, received, lastSeq).link)
  {
    hide Enqueue, SendFrame;
    SendingSpares(cfg, s.link);
  }

  lemma ReceiveSpares(cfg: Config, s: State, inbound: Inbound)
    ensures Spared(s.link, ReceiveJson(cfg, s, inbound).link)
  {
    hide Enqueue, SendFrame, HandleHello;
    SendingSpares(cfg, s.link);
    if inbound.GotHello? {
      HelloSpares(cfg, s, s.now, inbound.lastSeq);
    }
  }

  lemma VerdictSpares(cfg: Config, s: State, allowed: bool)
    requires s.disp.AuthorizingConnect? || s.disp.AuthorizingHello?
    ensures Spared(s.link, OnVerdict(cfg, s, allowed).link)
  {
    hide Enqueue, HandleHello;
    SendingSpares(cfg, s.link);
    if s.disp.AuthorizingHello? {
      HelloSpares(cfg, Record(cfg, s, s.disp.asked, allowed), s.disp.asked, s.disp.hello);
    }
  }

  lemma GroupSpares(cfg: Config, s: State, m: GroupMessage)
    ensures Spared(s.link, OnGroup(cfg, s, m).link)
  {
    hide Enqueue, SendFrame, KickReason;
    SendingSpares(cfg, s.link);
  }

  lemma ServerSeqSpares(cfg: Config, s: State, lastSeq: nat, n: int)
    ensures Spared(s.link, OnServerSeq(cfg, s, lastSeq, n).link)
  {
    hide SendFrame;
    SendingSpares(cfg, s.link);
    SendingSpares(cfg, RaiseTo(SendFrame(cfg, s.link, Welcome(n)), lastSeq));
  }

  lemma RowsSpare(cfg: Config, s: State, rows: seq<Row>, serverSeq: int)
    ensures Spared(s.link, OnRows(cfg, s, rows, serverSeq).link)
  {
    SendRowsSends(cfg, s.link, rows);
    SendingSpares(cfg, SendRows(cfg, s.link, rows));
  }

  lemma StepSpares(cfg: Config, before: State, ev: Stamped)
    requires Enabled(before, ev) && before.hb.Off?
    ensures Spared(before.link, Step(cfg, before, ev).link)
  {
    hide OnVerdict, ReceiveJson, OnGroup, OnServerSeq, OnRows;
    var s := before.(now := ev.t);
    match ev.e
    case Authorized(allowed) => VerdictSpares(cfg, s, allowed);
    case Receive(inbound) => ReceiveSpares(cfg, s, inbound);
    case Group(m) => GroupSpares(cfg, s, m);
    case ServerSeq(n) => ServerSeqSpares(cfg, s, s.disp.lastSeq, n);
    case Rows(rows) => RowsSpare(cfg, s, rows, s.disp.serverSeq);
    case _ =>
  }

  /** What W003 warns of: without a heartbeat no ping is ever queued, neither a silent client nor an expired token is
      ever closed for, and the presence lease is written once and never renewed. */
  lemma {:induction false} NeverReaped(cfg: Config, tr: seq<State>, es: seq<Stamped>, k: nat)
    requires IsRun(cfg, tr, es) && k < |tr| && !W003Silent(cfg.heartbeatS)
    ensures tr[k].hb.Off? && |tr[k].touches| <= 1
    ensures forall c | c in tr[k].link.closes :: !c.via.ByHeartbeat?
    ensures forall i | 0 <= i < |tr[k].link.enq| :: !tr[k].link.enq[i].Ping?
  {
    hide Step, Inv, Control, HeartbeatFrame;
    Always(cfg, tr, es, k);
    InvParts(cfg, tr[k]);
    BeatlessControl(cfg, tr[k]);
    if k > 0 {
      NeverReaped(cfg, tr, es, k - 1);
      Always(cfg, tr, es, k - 1);
      InvParts(cfg, tr[k - 1]);
      BeatlessControl(cfg, tr[k - 1]);
      assert StepsAt(cfg, tr, es, k - 1);
      StepSpares(cfg, tr[k - 1], es[k - 1]);
      BeatlessStep(cfg, tr[k - 1], es[k - 1]);
    }
  }

  /** W003 fires, exactly: an open, connected socket is without a heartbeat if and only if the check is not silent. */
  lemma W003Exactly(cfg: Config, tr: seq<State>, es: seq<Stamped>, k: nat)
    requires IsRun(cfg, tr, es) && k < |tr| && Connected(tr[k]) && !tr[k].link.closing
    ensures tr[k].hb.Off? <==> !W003Silent(cfg.heartbeatS)
  {
    Always(cfg, tr, es, k);
  }

  lemma BeatlessControl(cfg: Config, s: State)
    requires Control(cfg, s) && !Beats(cfg)
    ensures s.hb.Off? && (s.disp.ConnectPresence? ==> s.touches == [])
  {
  }

  lemma BeatlessStep(cfg: Config, s: State, ev: Stamped)
    requires Enabled(s, ev) && s.hb.Off?
    ensures var r := Step(cfg, s, ev);
      && (r.touches == s.touches || (s.disp.ConnectPresence? && |r.touches| == |s.touches| + 1))
      && s.link.enq <= r.link.enq && forall i | |s.link.enq| <= i < |r.link.enq| :: !r.link.enq[i].Ping?
  {
    hide SendFrame;
    StepAdds(cfg, s, ev);
    DispatchFrame(cfg, s, ev);
    forall i | |s.link.enq| <= i < |Step(cfg, s, ev).link.enq| ensures !Step(cfg, s, ev).link.enq[i].Ping? {
      assert Caused(cfg, s, Step(cfg, s, ev).link.enq[i], ev.e);
    }
  }

  /** Hence, with W003 firing, a connected user reads as not live from one TTL after connecting. */
  lemma LapsesWithoutBeat(cfg: Config, tr: seq<State>, es: seq<Stamped>, k: nat,
                          ttl: int, sid: string, family: Option<string>, t: real)
    requires IsRun(cfg, tr, es) && k < |tr| && !W003Silent(cfg.heartbeatS) && ttl > 0 && tr[k].touches != []
    requires tr[k].touches[0].sampled + ttl as real <= t
    ensures !Snapshot(Fetch(Slots(ttl, Alone(sid, family, tr[k].touches)), t), None, t, ttl).live
  {
    NeverReaped(cfg, tr, es, k);
    var ops := Alone(sid, family, tr[k].touches);
    assert ops == [Touching(sid, family, tr[k].touches[0].sampled)];
    assert Slots(ttl, ops).value.expires == tr[k].touches[0].sampled + ttl as real;
  }
}
