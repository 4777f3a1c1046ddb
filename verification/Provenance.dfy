/** Where queued messages come from: each message a step queues is the answer to the event of that step. */
module Provenance {
  import opened Wrappers
  import opened Delivery
  import opened Socket
  import opened Runs
  import Envelope

  /** The `last_seq` of the hello that event `e` gives to its handler in state `s`. */
  function HelloGiven(s: State, e: Event): Option<Option<nat>> {
    if e.Receive? && e.inbound.GotHello? then Some(e.inbound.lastSeq)
    else if e == Authorized(true) && s.disp.AuthorizingHello? then Some(s.disp.hello)
    else None
  }

  /** `m` is what event `e` makes a socket queue in state `s`. */
  predicate Caused(cfg: Config, s: State, m: Message, e: Event) {
    match m
    case EphemeralWelcome => !cfg.resumable && HelloGiven(s, e).Some?
    case Welcome(n) => e == ServerSeq(n)
    case Resync(gap, window, n) =>
      e == ServerSeq(n) && s.disp.AwaitSeq? && gap == n - s.disp.lastSeq && gap > window && window == cfg.maxReplay
    case Replay(row) => e.Rows? && row in e.rows
    case ReplayDone(n) => e.Rows? && s.disp.AwaitRows? && n == s.disp.serverSeq
    case Live(n, payload) => e.Group? && e.message.FrameMsg? && e.message.seqNo == n && e.message.payload == payload
    case Signal(dict) => e.Group? && e.message.SignalMsg? && e.message.frame == dict
    case Kick(reason) =>
      && e.Group? && e.message.RevokeMsg? && reason == KickReason(e.message.reason)
      && (e.message.userId == None || e.message.userId == Some(cfg.userId))
    case Error(BadEnvelope) => e == Receive(GotMalformed) || (cfg.resumable && HelloGiven(s, e) == Some(None))
    case Error(BadType) => e == Receive(GotUnaccepted)
    case Error(Unauthorized) => e == Authorized(false) && s.disp.AuthorizingHello?
    case Ping => e.HbWake? || e.HbWritten?
    case Pong => e == Receive(GotPing)
  }

  /** The step from `l` to `r` queues only messages caused by `e`, and only a sequence answer claims a number. */
  predicate Adds(cfg: Config, s: State, l: Link, r: Link, e: Event) {
    && l.enq <= r.enq
    && (forall i | |l.enq| <= i < |r.enq| :: Caused(cfg, s, r.enq[i], e))
    && (!e.ServerSeq? ==> r.accepted == l.accepted)
    && l.maxSeqSent <= r.maxSeqSent
  }

  lemma SendAdds(cfg: Config, s: State, l: Link, e: Event)
    ensures forall m | Caused(cfg, s, m, e) :: Adds(cfg, s, l, SendFrame(cfg, l, m), e) && Adds(cfg, s, l, Enqueue(cfg, l, m), e)
    ensures forall m | Caused(cfg, s, m, e) :: Adds(cfg, s, l, SendFrame(cfg, l, m).(closing := true), e)
    ensures forall m | Caused(cfg, s, m, e) :: Adds(cfg, s, l, Enqueue(cfg, l, m).(closing := true), e)
  {
  }

  lemma {:induction false} RowsAdd(cfg: Config, s: State, l: Link, rows: seq<Row>, e: Event)
    requires e.Rows? && forall r | r in rows :: r in e.rows
    ensures Adds(cfg, s, l, SendRows(cfg, l, rows), e)
  {
    if rows != [] {
      assert rows[|rows| - 1] in rows;
      RowsAdd(cfg, s, l, rows[..|rows| - 1], e);
      SendAdds(cfg, s, SendRows(cfg, l, rows[..|rows| - 1]), e);
      assert Caused(cfg, s, Replay(rows[|rows| - 1]), e);
    }
  }

  /** `s` is the state in which the hello came or was answered, `known` what it is handled in. */
  lemma HelloAdds(cfg: Config, s: State, known: State, received: real, lastSeq: Option<nat>, e: Event)
    requires HelloGiven(s, e) == Some(lastSeq) && known.link == s.link
    ensures Adds(cfg, s, s.link, HandleHello(cfg, known, received, lastSeq).link, e)
  {
    hide Enqueue, SendFrame;
    SendAdds(cfg, s, s.link, e);
  }

  lemma ReceiveAdds(cfg: Config, s: State, inbound: Inbound)
    ensures Adds(cfg, s, s.link, ReceiveJson(cfg, s, inbound).link, Receive(inbound))
  {
    hide Enqueue, SendFrame, HandleHello;
    SendAdds(cfg, s, s.link, Receive(inbound));
    if inbound.GotHello? {
      HelloAdds(cfg, s, s, s.now, inbound.lastSeq, Receive(inbound));
    }
  }

  lemma VerdictAdds(cfg: Config, s: State, allowed: bool)
    requires s.disp.AuthorizingConnect? || s.disp.AuthorizingHello?
    ensures Adds(cfg, s, s.link, OnVerdict(cfg, s, allowed).link, Authorized(allowed))
  {
    hide Enqueue, SendFrame, HandleHello;
    SendAdds(cfg, s, s.link, Authorized(allowed));
    if s.disp.AuthorizingHello? && allowed {
      HelloAdds(cfg, s, Record(cfg, s, s.disp.asked, true), s.disp.asked, s.disp.hello, Authorized(true));
    }
  }

  lemma GroupAdds(cfg: Config, s: State, m: GroupMessage)
    ensures Adds(cfg, s, s.link, OnGroup(cfg, s, m).link, Group(m))
  {
    hide Enqueue, SendFrame, KickReason;
    SendAdds(cfg, s, s.link, Group(m));
  }

  lemma ServerSeqAdds(cfg: Config, s: State, n: int)
    requires s.disp.AwaitSeq?
    ensures Adds(cfg, s, s.link, OnServerSeq(cfg, s, s.disp.lastSeq, n).link, ServerSeq(n))
  {
    hide Enqueue, SendFrame;
    var e := ServerSeq(n);
    var welcomed := SendFrame(cfg, s.link, Welcome(n));
    SendAdds(cfg, s, s.link, e);
    SendAdds(cfg, s, RaiseTo(welcomed, s.disp.lastSeq), e);
    assert Caused(cfg, s, Welcome(n), e);
  }

  lemma BurstAdds(cfg: Config, s: State, rows: seq<Row>)
    requires s.disp.AwaitRows?
    ensures Adds(cfg, s, s.link, OnRows(cfg, s, rows, s.disp.serverSeq).link, Rows(rows))
  {
    RowsAdd(cfg, s, s.link, rows, Rows(rows));
    SendAdds(cfg, s, SendRows(cfg, s.link, rows), Rows(rows));
    assert Caused(cfg, s, ReplayDone(s.disp.serverSeq), Rows(rows));
  }

  lemma HeartbeatAdds(cfg: Config, s: State, e: Event)
    ensures e.HbWake? ==> Adds(cfg, s, s.link, OnWake(cfg, s).link, e)
    ensures e.HbWritten? ==> Adds(cfg, s, s.link, SendPing(cfg, s).link, e)
    ensures e.HbDeadline? ==> Adds(cfg, s, s.link, OnDeadline(cfg, s).link, e)
  {
    hide Enqueue, SendFrame, TokenExpired;
    SendAdds(cfg, s, s.link, e);
  }

  /** Only where the dispatcher waits matters for what an event causes. */
  lemma AddsFrom(cfg: Config, s: State, later: State, l: Link, r: Link, e: Event)
    requires Adds(cfg, later, l, r, e) && later.disp == s.disp
    ensures Adds(cfg, s, l, r, e)
  {
  }

  lemma StepAdds(cfg: Config, before: State, ev: Stamped)
    requires Enabled(before, ev)
    ensures Adds(cfg, before, before.link, Step(cfg, before, ev).link, ev.e)
  {
    hide OnVerdict, ReceiveJson, OnGroup, OnServerSeq, OnRows, OnWake, SendPing, OnDeadline, Caused;
    var s := before.(now := ev.t);
    match ev.e {
    case Authorized(allowed) => VerdictAdds(cfg, s, allowed);
    case Receive(inbound) => ReceiveAdds(cfg, s, inbound);
    case Group(m) => GroupAdds(cfg, s, m);
    case ServerSeq(n) => ServerSeqAdds(cfg, s, n);
    case Rows(rows) => BurstAdds(cfg, s, rows);
    case HbWake => HeartbeatAdds(cfg, s, ev.e);
    case HbWritten(x) =>
      var touched := s.(touches := s.touches + [Touch(x, s.now)]);
      HeartbeatAdds(cfg, touched, ev.e);
      AddsFrom(cfg, s, touched, s.link, Step(cfg, before, ev).link, ev.e);
    case HbDeadline => HeartbeatAdds(cfg, s, ev.e);
    case _ =>
    }
    AddsFrom(cfg, before, s, s.link, Step(cfg, before, ev).link, ev.e);
  }

  /** Every message ever queued on a run was caused by one of the run's events, in the state that event met. */
  lemma {:induction false} EveryMessageCaused(cfg: Config, tr: seq<State>, es: seq<Stamped>, k: nat, i: nat) returns (j: nat)
    requires IsRun(cfg, tr, es) && k < |tr| && i < |tr[k].link.enq|
    ensures j < k && Caused(cfg, tr[j], tr[k].link.enq[i], es[j].e) && |tr[j].link.enq| <= i < |tr[j + 1].link.enq|
  {
    hide Step, Enabled, Caused;
    assert k > 0;
    assert StepsAt(cfg, tr, es, k - 1);
    StepAdds(cfg, tr[k - 1], es[k - 1]);
    if i < |tr[k - 1].link.enq| {
      j := EveryMessageCaused(cfg, tr, es, k - 1, i);
    } else {
      j := k - 1;
    }
  }
}
