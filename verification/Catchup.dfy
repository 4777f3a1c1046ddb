/** The replay of `ResumableStreamConsumer.on_hello`: exactly when the burst fits the queue, and what it delivers. */
module Catchup {
  import opened Wrappers
  import opened Socket
  import opened Runs
  import opened Provenance

  // ---- which rows of a burst pass the dedup, and whether they fit ----

  /** The cursor after `send_frame` has seen `rows`. */
  function CursorAfter(cursor: int, rows: seq<Row>): int {
    if rows == [] then cursor
    else Max(CursorAfter(cursor, rows[..|rows| - 1]), rows[|rows| - 1].seqNo)
  }

  function Max(a: int, b: int): int { if a > b then a else b }

  /** The rows above everything before them: the ones `send_frame` does not drop. */
  function Passing(cursor: int, rows: seq<Row>): seq<Row> {
    if rows == [] then []
    else
      var before, last := rows[..|rows| - 1], rows[|rows| - 1];
      Passing(cursor, before) + (if last.seqNo > CursorAfter(cursor, before) then [last] else [])
  }

  function Replays(rows: seq<Row>): (ms: seq<Message>) {
    seq(|rows|, i requires 0 <= i < |rows| => Replay(rows[i]))
  }

  /** A link after queueing `ms`: all of them if they fit, otherwise as many as fit and an overflow close. */
  function Queued(cfg: Config, l: Link, cursor: int, ms: seq<Message>): Link
    requires |l.outbox| <= Cap(cfg)
  {
    var room := Cap(cfg) - |l.outbox|;
    var fit := if |ms| <= room then ms else ms[..room];
    var r := l.(maxSeqSent := cursor, outbox := l.outbox + fit, enq := l.enq + fit);
    if |ms| <= room then r else CloseNow(r.(closing := true), CLOSE_OVERFLOW, ByOverflow)
  }

  lemma QueuedSnoc(cfg: Config, l: Link, c: int, cursor: int, ms: seq<Message>, m: Message)
    requires |l.outbox| <= Cap(cfg) && !l.closing
    ensures Enqueue(cfg, Queued(cfg, l, c, ms).(maxSeqSent := cursor), m) == Queued(cfg, l, cursor, ms + [m])
  {
    var room := Cap(cfg) - |l.outbox|;
    if |ms| < room {
      assert l.outbox + (ms + [m]) == l.outbox + ms + [m] && l.enq + (ms + [m]) == l.enq + ms + [m];
    } else {
      assert (ms + [m])[..room] == ms[..room];
      assert |ms| == room ==> ms[..room] == ms;
    }
  }

  /** The replay loop queues exactly the passing rows, as far as they fit. */
  lemma {:induction false} BurstOutcome(cfg: Config, l: Link, rows: seq<Row>)
    requires |l.outbox| <= Cap(cfg) && !l.closing
    ensures SendRows(cfg, l, rows) == Queued(cfg, l, CursorAfter(l.maxSeqSent, rows), Replays(Passing(l.maxSeqSent, rows)))
  {
    var c := l.maxSeqSent;
    if rows == [] {
      assert l.outbox + [] == l.outbox && l.enq + [] == l.enq;
    } else {
      var before, last := rows[..|rows| - 1], rows[|rows| - 1];
      BurstOutcome(cfg, l, before);
      var ps := Passing(c, before);
      QueuedSnoc(cfg, l, CursorAfter(c, before), CursorAfter(c, rows), Replays(ps), Replay(last));
      assert Replays(ps + [last]) == Replays(ps) + [Replay(last)];
      assert ps + [] == ps;
    }
  }

  /** Exact replay overflow bound: the burst ends with REPLAY_DONE queued if and only if the queue length, the rows
      above the cursor and REPLAY_DONE itself fit `max(1, SEND_QUEUE_SIZE)`; otherwise the link is closing with 4413
      after exactly the rows that fit. */
  lemma ReplayOutcome(cfg: Config, l: Link, rows: seq<Row>, serverSeq: int)
    requires |l.outbox| <= Cap(cfg) && !l.closing
    ensures var r := SendReplay(cfg, l, rows, serverSeq);
      var sent := Replays(Passing(l.maxSeqSent, rows));
      var room := Cap(cfg) - |l.outbox|;
      if |sent| + 1 <= room
      then !r.closing && r.closes == l.closes && r.enq == l.enq + sent + [ReplayDone(serverSeq)]
      else r.closing && r.closes == l.closes + [Close(CLOSE_OVERFLOW, ByOverflow)] && r.enq == l.enq + sent[..room]
  {
    var c := CursorAfter(l.maxSeqSent, rows);
    var sent := Replays(Passing(l.maxSeqSent, rows));
    BurstOutcome(cfg, l, rows);
    QueuedSnoc(cfg, l, c, c, sent, ReplayDone(serverSeq));
    assert l.enq + (sent + [ReplayDone(serverSeq)]) == l.enq + sent + [ReplayDone(serverSeq)];
    var room := Cap(cfg) - |l.outbox|;
    assert |sent| >= room ==> (sent + [ReplayDone(serverSeq)])[..room] == sent[..room];
  }

  // ---- ascending rows ----

  predicate Sorted(rows: seq<Row>) { forall i, j | 0 <= i < j < |rows| :: rows[i].seqNo < rows[j].seqNo }

  /** The rows with a number above `after`. */
  function After(rows: seq<Row>, after: int): seq<Row> {
    if rows == [] then []
    else After(rows[..|rows| - 1], after) + (if rows[|rows| - 1].seqNo > after then [rows[|rows| - 1]] else [])
  }

  lemma {:induction false} AfterIsFilter(rows: seq<Row>, after: int)
    ensures forall r :: r in After(rows, after) <==> r in rows && r.seqNo > after
    ensures Sorted(rows) ==> Sorted(After(rows, after))
  {
    if rows != [] {
      var before, last := rows[..|rows| - 1], rows[|rows| - 1];
      AfterIsFilter(before, after);
      assert rows == before + [last];
      if Sorted(rows) {
        assert forall r | r in before :: r.seqNo < last.seqNo;
        assert forall i | 0 <= i < |After(before, after)| :: After(before, after)[i] in before;
      }
    }
  }

  /** Of an ascending burst, the rows that pass are exactly those above the cursor. */
  lemma {:induction false} PassingOfSorted(cursor: int, rows: seq<Row>)
    requires Sorted(rows)
    ensures Passing(cursor, rows) == After(rows, cursor)
    ensures CursorAfter(cursor, rows) ==
      (if rows != [] && rows[|rows| - 1].seqNo > cursor then rows[|rows| - 1].seqNo else cursor)
  {
    if rows != [] {
      PassingOfSorted(cursor, rows[..|rows| - 1]);
    }
  }

  // ---- the journal and its hooks ----

  /** `get_server_seq`: the highest persisted number. */
  function MaxSeq(journal: seq<Row>): int { if journal == [] then 0 else journal[|journal| - 1].seqNo }

  /** `get_replay_rows`: the first `limit` rows above `after`, ascending. */
  function Hook(journal: seq<Row>, after: int, limit: nat): (rows: seq<Row>) {
    var all := After(journal, after);
    if |all| <= limit then all else all[..limit]
  }

  /** Counting: the i-th row of an ascending list above `after` has a number of at least `after + 1 + i`. */
  lemma {:induction false} Dense(rows: seq<Row>, after: int, i: nat)
    requires Sorted(rows) && i < |rows| && (forall r | r in rows :: r.seqNo > after)
    ensures rows[i].seqNo >= after + 1 + i
  {
    if i > 0 {
      Dense(rows, after, i - 1);
    } else {
      assert rows[0] in rows;
    }
  }

  /** The window bounds the query without truncating it: every row in (after, upTo] is among the rows returned. */
  lemma HookReaches(journal: seq<Row>, after: int, limit: nat, upTo: int)
    requires Sorted(journal) && upTo - after <= limit
    ensures Sorted(Hook(journal, after, limit))
    ensures forall r :: r in Hook(journal, after, limit) ==> r in journal && r.seqNo > after
    ensures forall r | r in journal && after < r.seqNo <= upTo :: r in Hook(journal, after, limit)
  {
    AfterIsFilter(journal, after);
    var all := After(journal, after);
    forall r | r in journal && after < r.seqNo <= upTo ensures r in Hook(journal, after, limit) {
      var i :| 0 <= i < |all| && all[i] == r;
      Dense(all, after, i);
      assert |all| > limit ==> all[..limit][i] == r;
    }
  }

  /** What a replay from `after` delivers when the burst fits: of the rows the hook returned, exactly those above the
      cursor, ascending, then REPLAY_DONE; so of the journal rows in (after, upTo] only those at or below the cursor miss. */
  lemma ReplayDelivers(cfg: Config, l: Link, journal: seq<Row>, after: int, upTo: int, limit: nat)
    requires |l.outbox| <= Cap(cfg) && !l.closing && l.maxSeqSent >= after
    requires Sorted(journal) && upTo - after <= limit
    ensures var rows := Hook(journal, after, limit);
      var r := SendReplay(cfg, l, rows, upTo);
      !r.closing ==>
        var sent := After(rows, l.maxSeqSent);
        && r.enq == l.enq + Replays(sent) + [ReplayDone(upTo)]
        && Sorted(sent)
        && (forall row :: row in sent ==> row in journal && row.seqNo > l.maxSeqSent)
        && (forall row | row in journal && after < row.seqNo <= upTo :: row in sent <==> row.seqNo > l.maxSeqSent)
  {
    var rows := Hook(journal, after, limit);
    HookReaches(journal, after, limit, upTo);
    PassingOfSorted(l.maxSeqSent, rows);
    AfterIsFilter(rows, l.maxSeqSent);
    ReplayOutcome(cfg, l, rows, upTo);
  }

  /** The window can always be replayed into an empty queue exactly when SEND_QUEUE_SIZE exceeds MAX_REPLAY. */
  lemma WindowFitsQueue(cfg: Config, l: Link)
    requires l.outbox == [] && !l.closing && cfg.maxReplay >= 0
    ensures (forall rows, u :: Sorted(rows) && |rows| <= cfg.maxReplay ==> !SendReplay(cfg, l, rows, u).closing)
      <==> cfg.maxReplay < Cap(cfg)
  {
    forall rows, u | Sorted(rows) && |rows| <= cfg.maxReplay < Cap(cfg) ensures !SendReplay(cfg, l, rows, u).closing {
      ReplayOutcome(cfg, l, rows, u);
      PassingShrinks(l.maxSeqSent, rows);
    }
    var burst := seq(cfg.maxReplay, i requires 0 <= i < cfg.maxReplay => Row(l.maxSeqSent + 1 + i, map[]));
    if cfg.maxReplay >= Cap(cfg) {
      ReplayOutcome(cfg, l, burst, 0);
      PassingOfSorted(l.maxSeqSent, burst);
      AllAfter(burst, l.maxSeqSent);
      assert SendReplay(cfg, l, burst, 0).closing;
    }
  }

  lemma {:induction false} PassingShrinks(cursor: int, rows: seq<Row>)
    ensures |Passing(cursor, rows)| <= |rows|
  {
    if rows != [] {
      PassingShrinks(cursor, rows[..|rows| - 1]);
    }
  }

  lemma {:induction false} AllAfter(rows: seq<Row>, after: int)
    requires forall r | r in rows :: r.seqNo > after
    ensures After(rows, after) == rows
  {
    if rows != [] {
      var before, last := rows[..|rows| - 1], rows[|rows| - 1];
      assert last in rows;
      AllAfter(before, after);
      assert rows == before + [last];
    }
  }

  // ---- over runs ----

  /** Between the two hooks the dispatcher is suspended and nothing else moves the cursor. */
  lemma AwaitingRows(cfg: Config, s: State, ev: Stamped)
    requires Enabled(s, ev) && s.disp.AwaitRows? && !ev.e.Rows?
    ensures var r := Step(cfg, s, ev); r.disp == s.disp && r.link.maxSeqSent == s.link.maxSeqSent && r.streamKey == s.streamKey
  {
    hide ReceiveJson, OnGroup, OnVerdict, OnServerSeq, OnRows, OnPresence, OnConnect, OnDisconnect;
    hide OnWake, SendPing, OnDeadline;
    var now := s.(now := ev.t);
    HeartbeatLeavesCursor(cfg, now);
    if ev.e.HbWritten? {
      HeartbeatLeavesCursor(cfg, now.(touches := now.touches + [Touch(ev.e.sampled, ev.t)]));
    }
  }

  lemma HeartbeatLeavesCursor(cfg: Config, s: State)
    ensures forall r | r == OnWake(cfg, s) || r == SendPing(cfg, s) || r == OnDeadline(cfg, s) ::
      r.disp == s.disp && r.link.maxSeqSent == s.link.maxSeqSent && r.streamKey == s.streamKey
  {
  }

  lemma {:induction false} CursorHolds(cfg: Config, tr: seq<State>, es: seq<Stamped>, i: nat, j: nat)
    requires IsRun(cfg, tr, es) && i < j < |tr| && tr[i].disp.AwaitSeq? && es[i].e.ServerSeq? && tr[i + 1].disp.AwaitRows?
    requires forall m | i < m < j :: !es[m].e.Rows?
    ensures tr[j].disp == AwaitRows(tr[i].disp.lastSeq, es[i].e.serverSeq)
    ensures tr[j].link.maxSeqSent == Max(tr[i].link.maxSeqSent, tr[i].disp.lastSeq)
    ensures es[i].e.serverSeq - tr[i].disp.lastSeq <= cfg.maxReplay
    decreases j
  {
    assert StepsAt(cfg, tr, es, i);
    if j > i + 1 {
      CursorHolds(cfg, tr, es, i, j - 1);
      assert StepsAt(cfg, tr, es, j - 1);
      AwaitingRows(cfg, tr[j - 1], es[j - 1]);
    }
  }

  /** The resync verdict: rows are awaited exactly when the gap is within the window; otherwise, if there is room, the
      client is told the gap, the window and the server's number, and the socket stays open with nothing replayed. */
  lemma ResyncVerdict(cfg: Config, tr: seq<State>, es: seq<Stamped>, k: nat)
    requires IsRun(cfg, tr, es) && k < |es| && es[k].e.ServerSeq? && tr[k].disp.AwaitSeq?
    ensures var gap := es[k].e.serverSeq - tr[k].disp.lastSeq;
      && (tr[k + 1].disp.AwaitRows? <==> gap <= cfg.maxReplay)
      && (gap > cfg.maxReplay && !tr[k].link.closing && |tr[k].link.outbox| + 2 <= Cap(cfg) ==>
            && !tr[k + 1].link.closing && tr[k + 1].disp.Idle?
            && tr[k + 1].link.enq == tr[k].link.enq + [Welcome(es[k].e.serverSeq), Resync(gap, cfg.maxReplay, es[k].e.serverSeq)])
  {
    assert StepsAt(cfg, tr, es, k);
  }

  /** A step that neither waits for rows nor brings a server number replays nothing. */
  lemma ReplaysNothing(cfg: Config, s: State, ev: Stamped)
    requires Enabled(s, ev) && !s.disp.AwaitRows?
    ensures var l, r := s.link, Step(cfg, s, ev).link;
      l.enq <= r.enq && forall i | |l.enq| <= i < |r.enq| :: !r.enq[i].Replay? && !r.enq[i].ReplayDone?
    ensures !ev.e.ServerSeq? ==> !Step(cfg, s, ev).disp.AwaitRows?
  {
    var r := Step(cfg, s, ev).link;
    StepAdds(cfg, s, ev);
    forall i | |s.link.enq| <= i < |r.enq| ensures !r.enq[i].Replay? && !r.enq[i].ReplayDone? {
      assert Caused(cfg, s, r.enq[i], ev.e);
    }
    if !ev.e.ServerSeq? {
      OnlyServerSeqAwaits(cfg, s, ev);
    }
  }

  lemma OnlyServerSeqAwaits(cfg: Config, s: State, ev: Stamped)
    requires Enabled(s, ev) && !s.disp.AwaitRows? && !ev.e.ServerSeq?
    ensures !Step(cfg, s, ev).disp.AwaitRows?
  {
    hide Enqueue, SendFrame, KickReason, TokenExpired, CloseNow, Take;
  }

  /** No infinite rewind: after a gap wider than the window, nothing is replayed in any later state until another hello has
      asked for the server's number. */
  lemma {:induction false} ResyncReplaysNothing(cfg: Config, tr: seq<State>, es: seq<Stamped>, k: nat, later: nat)
    requires IsRun(cfg, tr, es) && k < later < |tr| && es[k].e.ServerSeq? && tr[k].disp.AwaitSeq?
    requires es[k].e.serverSeq - tr[k].disp.lastSeq > cfg.maxReplay && forall m | k < m < later :: !es[m].e.ServerSeq?
    ensures var before, after := tr[k].link.enq, tr[later].link.enq;
      before <= after && forall i | |before| <= i < |after| :: !after[i].Replay? && !after[i].ReplayDone?
    ensures !tr[later].disp.AwaitRows?
    decreases later
  {
    hide Step, Enabled;
    assert StepsAt(cfg, tr, es, later - 1);
    if later == k + 1 {
      ResyncVerdict(cfg, tr, es, k);
    } else {
      ResyncReplaysNothing(cfg, tr, es, k, later - 1);
    }
    ReplaysNothing(cfg, tr[later - 1], es[later - 1]);
  }

  /** Catch-up completeness. A hello asked for `get_server_seq` at step i, when `older` was the journal, and its rows
      arrived at step j from the journal `newer`, in which no row at or below that number is new. If the socket is
      not closing afterwards, every row the client was missing up to that number was queued, once and ascending,
      before REPLAY_DONE, except exactly those at or below the cursor that stood before the hello. */
  lemma CatchUp(cfg: Config, tr: seq<State>, es: seq<Stamped>, i: nat, j: nat, older: seq<Row>, newer: seq<Row>)
    requires IsRun(cfg, tr, es) && i < j < |es| && cfg.maxReplay >= 0
    requires tr[i].disp.AwaitSeq? && tr[i + 1].disp.AwaitRows? && (forall m | i < m < j :: !es[m].e.Rows?)
    requires Sorted(older) && Sorted(newer) && (forall r | r in older :: r in newer)
    requires es[i].e == ServerSeq(MaxSeq(older)) && (forall r | r in newer && r.seqNo <= MaxSeq(older) :: r in older)
    requires es[j].e == Rows(Hook(newer, tr[i].disp.lastSeq, cfg.maxReplay))
    ensures !tr[j + 1].link.closing ==>
      exists sent ::
        && tr[j + 1].link.enq == tr[j].link.enq + Replays(sent) + [ReplayDone(MaxSeq(older))]
        && Sorted(sent)
        && (forall row | row in older && row.seqNo > tr[i].disp.lastSeq :: row in sent <==> row.seqNo > tr[i].link.maxSeqSent)
        && (forall row | row in sent :: row in newer && row.seqNo > tr[i].disp.lastSeq)
  {
    var after, upTo := tr[i].disp.lastSeq, MaxSeq(older);
    CursorHolds(cfg, tr, es, i, j);
    Always(cfg, tr, es, j);
    assert StepsAt(cfg, tr, es, j);
    Always(cfg, tr, es, j + 1);
    if !tr[j + 1].link.closing {
      if tr[j].link.closing {
        ClosingIsFreeze(cfg, tr, es, j, j + 1);
      } else {
        var l := tr[j].link;
        ReplayDelivers(cfg, l, newer, after, upTo, cfg.maxReplay);
        var sent := After(Hook(newer, after, cfg.maxReplay), l.maxSeqSent);
        MaxSeqIsMax(older);
        assert tr[j + 1].link.enq == l.enq + Replays(sent) + [ReplayDone(upTo)];
      }
    }
  }

  lemma MaxSeqIsMax(journal: seq<Row>)
    requires Sorted(journal)
    ensures forall r | r in journal :: r.seqNo <= MaxSeq(journal)
  {
  }

  /** On a run: a burst that does not fit closes the socket with 4413 and REPLAY_DONE is never queued for it. */
  lemma OverflowEndsReplay(cfg: Config, tr: seq<State>, es: seq<Stamped>, k: nat, later: nat)
    requires IsRun(cfg, tr, es) && k < later < |tr| && es[k].e.Rows? && tr[k].disp.AwaitRows? && !tr[k].link.closing
    ensures var sent := Replays(Passing(tr[k].link.maxSeqSent, es[k].e.rows));
      var room := Cap(cfg) - |tr[k].link.outbox|;
      && room >= 0
      && (|sent| + 1 <= room ==>
            !tr[k + 1].link.closing && tr[k + 1].link.enq == tr[k].link.enq + sent + [ReplayDone(tr[k].disp.serverSeq)])
      && (|sent| + 1 > room ==>
            && tr[later].link.closing && tr[later].link.enq == tr[k].link.enq + sent[..room]
            && [Close(CLOSE_OVERFLOW, ByOverflow)] <= tr[later].link.closes)
  {
    Always(cfg, tr, es, k);
    assert StepsAt(cfg, tr, es, k);
    ReplayOutcome(cfg, tr[k].link, es[k].e.rows, tr[k].disp.serverSeq);
    var room := Cap(cfg) - |tr[k].link.outbox|;
    if |Passing(tr[k].link.maxSeqSent, es[k].e.rows)| + 1 > room {
      ClosingIsFreeze(cfg, tr, es, k + 1, later);
    }
  }
}
