/** Timed runs: what the heartbeat loop guarantees when every wake-up and presence write is at most `lag` late. */
module Timing {
  import opened Wrappers
  import opened Delivery
  import opened Socket
  import opened Runs
  import opened Effects

  /** No event overtakes a heartbeat wake-up, deadline, presence write or drain timeout that is more than `lag` overdue. */
  predicate OnTime(s: State, lag: real, t: real) {
    && (s.disp.ConnectPresence? ==> t <= s.disp.started + lag)
    && (s.disp.Draining? ==> t <= s.disp.started + DRAIN_TIMEOUT_S + lag)
    && match s.hb
       case Off => true
       case Sleeping(due) => t <= due + lag
       case Writing(since) => t <= since + lag
       case AwaitPong(due) => t <= due + lag
  }

  ghost predicate Prompt(lag: real, tr: seq<State>, es: seq<Stamped>) {
    lag >= 0.0 && |tr| == |es| + 1 && forall k | 0 <= k < |es| :: OnTime(tr[k], lag, es[k].t)
  }

  predicate PongHandled(e: Event) { e == Receive(GotPong) }

  // ---- how the heartbeat moves ----

  /** Dispatcher and writer events leave the heartbeat and the touches alone, but for `connect` and `disconnect`. */
  predicate HeartbeatFrame(cfg: Config, s: State, ev: Stamped, r: State) {
    && r.now == ev.t
    && (r.hb == s.hb || ev.e.Disconnect?
        || (ev.e.PresenceWritten? && s.disp.ConnectPresence? && (Beats(cfg) ==> r.hb == Sleeping(ev.t + cfg.heartbeatS))))
    && (r.pongPending == (s.pongPending && !PongHandled(ev.e)))
    && (!ev.e.PresenceWritten? ==> r.touches == s.touches)
    && (s.link.closing ==> r.link.closing)
    && (Connected(r) ==> Connected(s) || ev.e.PresenceWritten?)
    && (Connected(s) ==> Connected(r) || r.link.closing)
    && (ev.e.PresenceWritten? && Connected(r) ==>
          s.disp.ConnectPresence? && r.touches == s.touches + [Touch(ev.e.sampled, ev.t)])
  }

  lemma HelloFrame(cfg: Config, s: State, received: real, lastSeq: Option<nat>)
    ensures var r := HandleHello(cfg, s, received, lastSeq);
      && r.now == s.now && r.hb == s.hb && r.pongPending == s.pongPending && r.touches == s.touches
      && (s.link.closing ==> r.link.closing) && Connected(r)
  {
  }

  lemma VerdictFrame(cfg: Config, s: State, allowed: bool)
    requires s.disp.AuthorizingConnect? || s.disp.AuthorizingHello?
    ensures HeartbeatFrame(cfg, s, At(s.now, Authorized(allowed)), OnVerdict(cfg, s, allowed))
  {
    hide Enqueue, HandleHello;
    if s.disp.AuthorizingHello? {
      HelloFrame(cfg, Record(cfg, s, s.disp.asked, allowed), s.disp.asked, s.disp.hello);
    }
  }

  lemma GroupFrame(cfg: Config, s: State, m: GroupMessage)
    requires s.disp.Idle?
    ensures HeartbeatFrame(cfg, s, At(s.now, Group(m)), OnGroup(cfg, s, m))
  {
    hide Enqueue, SendFrame, KickReason;
    SendingSends(cfg, s.link);
  }

  lemma ReceiveFrame(cfg: Config, s: State, inbound: Inbound)
    requires s.disp.Idle?
    ensures HeartbeatFrame(cfg, s, At(s.now, Receive(inbound)), ReceiveJson(cfg, s, inbound))
  {
    hide Enqueue, SendFrame, HandleHello;
    SendingSends(cfg, s.link);
    if inbound.GotHello? {
      HelloFrame(cfg, s, s.now, inbound.lastSeq);
    }
  }

  lemma DispatchFrame(cfg: Config, before: State, ev: Stamped)
    requires Enabled(before, ev) && !ev.e.HbWake? && !ev.e.HbWritten? && !ev.e.HbDeadline?
    ensures HeartbeatFrame(cfg, before, ev, Step(cfg, before, ev))
  {
    hide OnVerdict, OnGroup, ReceiveJson, SendFrame, SendRows;
    var s := before.(now := ev.t);
    match ev.e
    case Authorized(allowed) => VerdictFrame(cfg, s, allowed);
    case Group(m) => GroupFrame(cfg, s, m);
    case Receive(inbound) => ReceiveFrame(cfg, s, inbound);
    case ServerSeq(_) => QueueFrame(cfg, s.link);
    case Rows(rows) => SendRowsSends(cfg, s.link, rows); QueueFrame(cfg, s.link); QueueFrame(cfg, SendRows(cfg, s.link, rows));
    case _ =>
  }

  lemma QueueFrame(cfg: Config, l: Link)
    ensures forall m :: l.closing ==> SendFrame(cfg, l, m).closing
    ensures forall m, n: nat, next :: l.closing ==> SendFrame(cfg, RaiseTo(SendFrame(cfg, l, m), n), next).closing
  {
  }

  /** Clock facts about a heartbeat in progress. */
  predicate Sane(cfg: Config, s: State) {
    match s.hb
    case Off => true
    case Sleeping(due) => due <= s.now + cfg.heartbeatS
    case Writing(since) => since <= s.now
    case AwaitPong(due) => due <= s.now + PongTimeout(cfg)
  }

  lemma StepSane(cfg: Config, s: State, ev: Stamped)
    requires Enabled(s, ev) && Sane(cfg, s)
    ensures Sane(cfg, Step(cfg, s, ev))
  {
    hide SendFrame;
    if !ev.e.HbWake? && !ev.e.HbWritten? && !ev.e.HbDeadline? {
      hide Step;
      DispatchFrame(cfg, s, ev);
      DisconnectStops(cfg, s, ev);
    }
  }

  lemma DisconnectStops(cfg: Config, s: State, ev: Stamped)
    requires Enabled(s, ev)
    ensures ev.e.Disconnect? ==> Step(cfg, s, ev).hb.Off? && Step(cfg, s, ev).link.closing
    ensures ev.e.PresenceWritten? && s.disp.ConnectPresence? && !Beats(cfg) ==> Step(cfg, s, ev).hb.Off?
  {
    hide OnVerdict, OnGroup, ReceiveJson, OnServerSeq, OnRows, OnWake, SendPing, OnDeadline;
  }

  lemma {:induction false} AlwaysSane(cfg: Config, tr: seq<State>, es: seq<Stamped>, k: nat)
    requires IsRun(cfg, tr, es) && k < |tr|
    ensures Sane(cfg, tr[k])
  {
    if k > 0 {
      AlwaysSane(cfg, tr, es, k - 1);
      assert StepsAt(cfg, tr, es, k - 1);
      StepSane(cfg, tr[k - 1], es[k - 1]);
    }
  }

  // ---- timed reaping ----

  /** Where an unanswered heartbeat can be when the last pong was handled at `p`. */
  predicate Unanswered(cfg: Config, lag: real, p: real, s: State) {
    var h, pong := cfg.heartbeatS, PongTimeout(cfg);
    match s.hb
    case Off => true
    case Sleeping(due) => due <= p + h + pong + lag
    case Writing(since) => since <= p + h + pong + 2.0 * lag
    case AwaitPong(due) => due <= p + h + 2.0 * pong + 3.0 * lag && (!s.pongPending ==> due <= p + pong)
  }

  lemma UnansweredStep(cfg: Config, lag: real, p: real, s: State, ev: Stamped)
    requires Enabled(s, ev) && lag >= 0.0 && Beats(cfg) && Connected(s) && s.presenceSession && !s.link.closing
    requires OnTime(s, lag, ev.t) && !PongHandled(ev.e) && Unanswered(cfg, lag, p, s)
    ensures var r := Step(cfg, s, ev); r.link.closing || Unanswered(cfg, lag, p, r)
  {
    hide SendFrame;
    if !ev.e.HbWake? && !ev.e.HbWritten? && !ev.e.HbDeadline? {
      hide Step;
      DispatchFrame(cfg, s, ev);
      DisconnectStops(cfg, s, ev);
    }
  }

  lemma SaneIsUnanswered(cfg: Config, lag: real, s: State)
    requires Sane(cfg, s) && lag >= 0.0 && Beats(cfg)
    ensures Unanswered(cfg, lag, s.now, s)
  {
  }

  lemma ConnectedHasSession(cfg: Config, s: State)
    requires Control(cfg, s) && Connected(s)
    ensures s.presenceSession
  {
  }

  /** From step m on: the socket is closing, or still connected with an unanswered heartbeat. */
  lemma {:induction false} StaysUnanswered(cfg: Config, lag: real, tr: seq<State>, es: seq<Stamped>, m: nat, k: nat)
    requires IsRun(cfg, tr, es) && Prompt(lag, tr, es) && Beats(cfg) && m <= k < |tr| && Connected(tr[m])
    requires forall i | m <= i < k :: !PongHandled(es[i].e)
    ensures tr[k].link.closing || (Connected(tr[k]) && Unanswered(cfg, lag, tr[m].now, tr[k]))
    decreases k
  {
    hide Step, Enabled, Inv, Control, OnTime, ClosesOnce;
    Always(cfg, tr, es, m);
    AlwaysSane(cfg, tr, es, m);
    if m == k {
      SaneIsUnanswered(cfg, lag, tr[m]);
    } else {
      hide Unanswered, Sane;
      StaysUnanswered(cfg, lag, tr, es, m, k - 1);
      Always(cfg, tr, es, k - 1);
      InvParts(cfg, tr[k - 1]);
      assert StepsAt(cfg, tr, es, k - 1);
      if tr[k - 1].link.closing {
        StepFreezes(cfg, tr[k - 1], es[k - 1]);
      } else {
        ConnectedHasSession(cfg, tr[k - 1]);
        UnansweredStep(cfg, lag, tr[m].now, tr[k - 1], es[k - 1]);
        StaysConnected(cfg, tr[k - 1], es[k - 1]);
      }
    }
  }

  lemma StaysConnected(cfg: Config, s: State, ev: Stamped)
    requires Enabled(s, ev) && Connected(s)
    ensures var r := Step(cfg, s, ev); Connected(r) || r.link.closing
  {
    hide SendFrame;
    if !ev.e.HbWake? && !ev.e.HbWritten? && !ev.e.HbDeadline? {
      hide Step;
      DispatchFrame(cfg, s, ev);
    }
  }

  /** Timed reaping of a silent client: if no pong is handled from step m on, then by `HEARTBEAT_S + 2 * max(1,
      HEARTBEAT_TIMEOUT_S)` (and four lags) after it the socket is closing. */
  lemma SilentClientIsReaped(cfg: Config, lag: real, tr: seq<State>, es: seq<Stamped>, m: nat, k: nat)
    requires IsRun(cfg, tr, es) && Prompt(lag, tr, es) && Beats(cfg) && m <= k < |es| && Connected(tr[m])
    requires forall i | m <= i < k :: !PongHandled(es[i].e)
    requires es[k].t > tr[m].now + cfg.heartbeatS + 2.0 * PongTimeout(cfg) + 4.0 * lag
    ensures tr[k].link.closing
  {
    StaysUnanswered(cfg, lag, tr, es, m, k);
    Always(cfg, tr, es, k);
    assert OnTime(tr[k], lag, es[k].t);
  }

  /** Where the heartbeat can be when the token has run out and its next wake-up will see it. */
  predicate Expiring(cfg: Config, lag: real, q: real, s: State) {
    var h, pong := cfg.heartbeatS, PongTimeout(cfg);
    match s.hb
    case Off => true
    case Sleeping(due) => due <= q + h + pong + 2.0 * lag
    case Writing(since) => since <= q
    case AwaitPong(due) => due <= q + pong + lag
  }

  lemma ExpiringStep(cfg: Config, lag: real, q: real, s: State, ev: Stamped)
    requires Enabled(s, ev) && lag >= 0.0 && Beats(cfg) && Connected(s) && !s.link.closing
    requires OnTime(s, lag, ev.t) && TokenExpired(cfg, ev.t) && Expiring(cfg, lag, q, s)
    ensures var r := Step(cfg, s, ev); r.link.closing || Expiring(cfg, lag, q, r)
  {
    hide SendFrame;
    if !ev.e.HbWake? && !ev.e.HbWritten? && !ev.e.HbDeadline? {
      hide Step;
      DispatchFrame(cfg, s, ev);
      DisconnectStops(cfg, s, ev);
    }
  }

  lemma {:induction false} StaysExpiring(cfg: Config, lag: real, tr: seq<State>, es: seq<Stamped>, m: nat, k: nat)
    requires IsRun(cfg, tr, es) && Prompt(lag, tr, es) && Beats(cfg) && m <= k < |tr| && Connected(tr[m])
    requires forall i | m <= i < k :: TokenExpired(cfg, es[i].t)
    ensures tr[k].link.closing || (Connected(tr[k]) && Expiring(cfg, lag, tr[m].now, tr[k]))
    decreases k
  {
    AlwaysSane(cfg, tr, es, m);
    if m < k {
      StaysExpiring(cfg, lag, tr, es, m, k - 1);
      Always(cfg, tr, es, k - 1);
      assert StepsAt(cfg, tr, es, k - 1);
      if tr[k - 1].link.closing {
        StepFreezes(cfg, tr[k - 1], es[k - 1]);
      } else {
        ExpiringStep(cfg, lag, tr[m].now, tr[k - 1], es[k - 1]);
        StaysConnected(cfg, tr[k - 1], es[k - 1]);
      }
    }
  }

  /** Timed reaping of an expired token: with m the last state of a connected socket before the expiry, the socket is
      closing by `HEARTBEAT_S + max(1, HEARTBEAT_TIMEOUT_S)` (and three lags) after the expiry. */
  lemma ExpiredTokenIsReaped(cfg: Config, lag: real, tr: seq<State>, es: seq<Stamped>, m: nat, k: nat)
    requires IsRun(cfg, tr, es) && Prompt(lag, tr, es) && Beats(cfg) && m <= k < |es| && Connected(tr[m])
    requires cfg.exp.Some? && tr[m].now <= cfg.exp.value && forall i | m <= i < |es| :: cfg.exp.value <= es[i].t
    requires es[k].t > cfg.exp.value + cfg.heartbeatS + PongTimeout(cfg) + 3.0 * lag
    ensures tr[k].link.closing
  {
    StaysExpiring(cfg, lag, tr, es, m, k);
    Always(cfg, tr, es, k);
    assert OnTime(tr[k], lag, es[k].t);
  }

  // ---- the pong deadline ----

  lemma PingStep(cfg: Config, s: State, ev: Stamped)
    requires Enabled(s, ev) && (!s.hb.Off? ==> s.presenceSession) && Step(cfg, s, ev).hb.AwaitPong?
    ensures var r := Step(cfg, s, ev);
      || (ev.e.HbWritten? && r.hb == AwaitPong(ev.t + PongTimeout(cfg)) && r.pongPending)
      || (s.hb == r.hb && !ev.e.HbWritten? && !ev.e.HbDeadline? && r.pongPending == (s.pongPending && !PongHandled(ev.e)))
  {
    hide SendFrame;
    if !ev.e.HbWake? && !ev.e.HbWritten? && !ev.e.HbDeadline? {
      DisconnectStops(cfg, s, ev);
      hide Step;
      DispatchFrame(cfg, s, ev);
    }
  }

  /** The ping whose deadline is pending at state k: its step, and whether a pong has been handled since. */
  lemma {:induction false} PingOf(cfg: Config, tr: seq<State>, es: seq<Stamped>, k: nat) returns (j: nat)
    requires IsRun(cfg, tr, es) && k < |tr| && tr[k].hb.AwaitPong?
    ensures j < k && es[j].e.HbWritten? && tr[k].hb.due == es[j].t + PongTimeout(cfg)
    ensures tr[k].pongPending <==> forall i | j < i < k :: !PongHandled(es[i].e)
    ensures forall i | j < i < k :: !es[i].e.HbDeadline?
  {
    hide Step, Inv, Enabled;
    assert k > 0;
    Always(cfg, tr, es, k - 1);
    assert StepsAt(cfg, tr, es, k - 1);
    HeartbeatHasSession(cfg, tr[k - 1]);
    PingStep(cfg, tr[k - 1], es[k - 1]);
    if es[k - 1].e.HbWritten? {
      j := k - 1;
    } else {
      j := PingOf(cfg, tr, es, k - 1);
    }
  }

  lemma HeartbeatHasSession(cfg: Config, s: State)
    requires Inv(cfg, s)
    ensures !s.hb.Off? ==> s.presenceSession
  {
  }

  lemma {:induction false} QueueGrows(cfg: Config, tr: seq<State>, es: seq<Stamped>, i: nat, k: nat)
    requires IsRun(cfg, tr, es) && i <= k < |tr|
    ensures tr[i].link.enq <= tr[k].link.enq
    decreases k
  {
    hide Step, Enabled, Owed;
    if i < k {
      QueueGrows(cfg, tr, es, i, k - 1);
      StepByTable(cfg, tr, es, k - 1);
    }
  }

  /** 4408 exactly: at the deadline of a ping, an open socket is closed with 4408 if and only if no pong was handled
      between that ping and its deadline; and that ping had been queued for the client. */
  lemma PongDeadline(cfg: Config, tr: seq<State>, es: seq<Stamped>, k: nat) returns (j: nat)
    requires IsRun(cfg, tr, es) && k < |es| && es[k].e.HbDeadline? && !tr[k].link.closing
    ensures j < k && es[j].e.HbWritten? && es[j].t + PongTimeout(cfg) <= es[k].t
    ensures (forall i | j < i < k :: !PongHandled(es[i].e)) <==> tr[k + 1].link.closing
    ensures tr[k + 1].link.closing ==>
      tr[k + 1].link.closes == tr[k].link.closes + [Close(CLOSE_HEARTBEAT_TIMEOUT, ByHeartbeat)]
    ensures tr[j + 1].link.enq == tr[j].link.enq + [Ping] && tr[j + 1].link.enq <= tr[k].link.enq
  {
    assert StepsAt(cfg, tr, es, k);
    j := PingOf(cfg, tr, es, k);
    hide Step, Enabled;
    if tr[j].link.closing { ClosingIsFreeze(cfg, tr, es, j, k); }
    if tr[j + 1].link.closing { ClosingIsFreeze(cfg, tr, es, j + 1, k); }
    PingGoesOut(cfg, tr, es, j);
    QueueGrows(cfg, tr, es, j + 1, k);
  }

  // ---- the bounded drain ----

  lemma DrainHolds(cfg: Config, s: State, ev: Stamped)
    requires Enabled(s, ev) && s.disp.Draining?
    ensures var r := Step(cfg, s, ev);
      r.disp == s.disp || ((ev.e.DrainDone? || ev.e.DrainTimeout?) && Close(s.disp.code, ByDrain) in r.link.closes)
  {
    hide OnConnect, OnVerdict, ReceiveJson, OnGroup, OnServerSeq, OnRows, OnDisconnect, SendFrame;
  }

  /** From the step after the drain began: it goes on, or its close has been called. */
  lemma {:induction false} DrainGoesOn(cfg: Config, tr: seq<State>, es: seq<Stamped>, i: nat, k: nat)
    requires IsRun(cfg, tr, es) && i <= k < |tr| && tr[i].disp.Draining?
    ensures tr[k].disp == tr[i].disp || Close(tr[i].disp.code, ByDrain) in tr[k].link.closes
    decreases k
  {
    if i < k {
      DrainGoesOn(cfg, tr, es, i, k - 1);
      Always(cfg, tr, es, i);
      ClosingIsFreeze(cfg, tr, es, i, k - 1);
      ClosingIsFreeze(cfg, tr, es, k - 1, k);
      assert StepsAt(cfg, tr, es, k - 1);
      if tr[k - 1].disp == tr[i].disp {
        DrainHolds(cfg, tr[k - 1], es[k - 1]);
      }
    }
  }

  /** Revoke to kick: one second (and a lag) after an idle socket handled a revocation meant for it, its 4410 close has
      been called, however slow the client reads. */
  lemma RevokedSocketIsClosed(cfg: Config, lag: real, tr: seq<State>, es: seq<Stamped>, i: nat, k: nat)
    requires IsRun(cfg, tr, es) && Prompt(lag, tr, es) && i < k < |es|
    requires es[i].e.Group? && es[i].e.message.RevokeMsg?
    requires es[i].e.message.userId == None || es[i].e.message.userId == Some(cfg.userId)
    requires es[k].t > es[i].t + 1.0 + lag
    ensures Close(CLOSE_REVOKED, ByDrain) in tr[k].link.closes
  {
    assert StepsAt(cfg, tr, es, i);
    assert tr[i + 1].disp == Draining(CLOSE_REVOKED, es[i].t);
    DrainGoesOn(cfg, tr, es, i + 1, k);
    assert OnTime(tr[k], lag, es[k].t);
  }

  /** A drain is given its full second: one that ends by its timeout has gone on that long. */
  lemma DrainIsPatient(cfg: Config, tr: seq<State>, es: seq<Stamped>, i: nat, k: nat)
    requires IsRun(cfg, tr, es) && k < |es| && DrainSpan(tr, es, i, k) && es[k].e.DrainTimeout?
    ensures es[k].t >= es[i].t + 1.0
  {
    DrainBeginsExactly(cfg, tr, es, i);
    assert tr[k].disp == tr[i + 1].disp;
    assert StepsAt(cfg, tr, es, k);
    hide Step;
  }
}
