/** Lossless resume: one client, the module's journal, and any number of sockets one after the other.

    Assumptions: the journal commits in ascending order and before its live frame is sent (store-first), the hooks
    answer for the journal at the moment they return, and every hello claims a prefix of the journal that the client
    holds completely; it may send any number of hellos and fetch rows over HTTP at any time. Hellos and everything the
    client reads are the JSON on the wire. Live frames may be dropped, repeated or reordered, and any socket may
    overflow, time out, be kicked or be abandoned at any moment. */
module Resume {
  import opened Wrappers
  import opened Delivery
  import opened Socket
  import opened Runs
  import opened Catchup
  import opened Provenance
  import opened Json
  import Envelope

  /** A hello that got its answer: what it claimed, the dedup cursor it met, how many messages had been queued before its
      WELCOME, and what earlier hellos of the socket had claimed. */
  datatype Greeting = Greeting(claim: nat, cursor: int, before: nat, claims: seq<int>)

  const NOBODY := Greeting(0, 0, 0, [])

  /** `read` counts the messages of the current socket's wire the client has consumed; `held` is every row it has seen;
      `claim` is what the client's newest hello on the current socket said, `greeting` the hello answered last and `dones`
      the hello each queued REPLAY_DONE answers, by position. */
  datatype World = World(
    journal: seq<Row>, held: set<Row>, sock: State, read: nat, claim: nat, greeting: Greeting, dones: map<nat, Greeting>)

  datatype Move =
    | Commit(row: Row)
    | Happens(ev: Stamped)
    | Hello(t: real, raw: Json, claim: nat)
    | ReadOne
    | Hydrate(rows: set<Row>)
    | Reconnect(start: real)

  function Start(start: real): World { World([], {}, Init(start), 0, 0, NOBODY, map[]) }

  /** The journal row a message carries. */
  function RowOf(m: Message): Option<Row> {
    match m
    case Replay(row) => Some(row)
    case Live(Some(n), payload) => Some(Row(n, payload))
    case _ => None
  }

  /** The journal row a client finds in a frame on the wire. */
  function RowRead(raw: Json): Option<Row> {
    match Envelope.ParseFrame(raw)
    case Failure(_) => None
    case Success(f) => if (f.ftype.Replay? || f.ftype.Live?) && f.seqNo.Some? then Some(Row(f.seqNo.value, f.payload)) else None
  }

  /** A signal wears no protocol name: `deliver` refuses those. */
  predicate Courteous(dict: map<string, Json>) {
    Envelope.Get(dict, "type").Str? ==> !Envelope.IsProtocolName(Envelope.Get(dict, "type").s)
  }

  /** On the wire a message carries the row it carries, and a courteous signal none. */
  lemma RowOnWire(m: Message, key: Option<string>)
    requires m.Signal? ==> Courteous(m.dict)
    ensures RowRead(WireForm(m, key)) == RowOf(m)
  {
    if m.Signal? {
      TypeIsNotStream();
      assert Envelope.Get(WithStream(m.dict, key), "type") == Envelope.Get(m.dict, "type");
    } else {
      ReadBack(m, key);
      hide Envelope.ParseFrame, WireForm;
    }
  }

  /** `raw` is a hello that claims everything up to `claim`; a client with nothing may leave the number out. */
  predicate Claims(raw: Json, claim: nat) {
    SaysHello(raw, Some(Int(claim))) || (claim == 0 && SaysHello(raw, None))
  }

  lemma ClaimRead(raw: Json, claim: nat)
    requires Claims(raw, claim)
    ensures Classify(raw) == GotHello(Some(claim))
  {
    HelloSays(raw, if SaysHello(raw, None) then None else Some(Int(claim)));
  }

  /** `p` ends a prefix of the journal that the client holds completely. */
  predicate CompletePrefix(journal: seq<Row>, held: set<Row>, p: int) {
    && (p == 0 || exists r | r in held :: r.seqNo == p)
    && forall i | 0 <= i < |journal| && journal[i].seqNo <= p :: journal[i] in held
  }

  predicate Allowed(cfg: Config, w: World, mv: Move) {
    match mv
    case Commit(row) => row.seqNo > MaxSeq(w.journal)
    case ReadOne => w.read < |w.sock.wire|
    case Hydrate(rows) => forall r | r in rows :: r in w.journal
    case Reconnect(start) => start >= 0.0
    case Happens(ev) => Occurs(cfg, w, ev) && !(ev.e.Receive? && ev.e.inbound.GotHello?)
    case Hello(t, raw, claim) =>
      && Enabled(w.sock, At(t, Receive(Classify(raw))))
      && Claims(raw, claim) && CompletePrefix(w.journal, w.held, claim)
  }

  predicate Occurs(cfg: Config, w: World, ev: Stamped) { Enabled(w.sock, ev) && Plausible(cfg, w, ev.e) }

  /** What the environment may answer: hooks read the journal, live frames come from it, hellos say what the client claims. */
  predicate Plausible(cfg: Config, w: World, e: Event) {
    && (e.ServerSeq? ==> e.serverSeq == MaxSeq(w.journal))
    && (e.Rows? && w.sock.disp.AwaitRows? ==> cfg.maxReplay >= 0 && e.rows == Hook(w.journal, w.sock.disp.lastSeq, cfg.maxReplay))
    && (e.Group? && e.message.FrameMsg? ==>
          e.message.seqNo.Some? && Row(e.message.seqNo.value, e.message.payload) in w.journal)
    && (e.Receive? && e.inbound.GotHello? ==>
          e.inbound.lastSeq == Some(w.claim) && CompletePrefix(w.journal, w.held, w.claim))
    && (e.Group? && e.message.SignalMsg? ==> Courteous(e.message.frame))
  }

  function Greeted(w: World, e: Event): Greeting {
    if e.ServerSeq? && w.sock.disp.AwaitSeq?
    then Greeting(w.claim, w.sock.link.maxSeqSent, |w.sock.link.enq|, w.sock.link.accepted)
    else w.greeting
  }

  function Finished(w: World, e: Event, r: Link): map<nat, Greeting> {
    if e.Rows? && |r.enq| > |w.sock.link.enq| && r.enq[|r.enq| - 1].ReplayDone?
    then w.dones[|r.enq| - 1 := w.greeting]
    else w.dones
  }

  function Serve(cfg: Config, w: World, ev: Stamped): World
    requires Enabled(w.sock, ev)
  {
    var r := Step(cfg, w.sock, ev);
    w.(sock := r, greeting := Greeted(w, ev.e), dones := Finished(w, ev.e, r.link))
  }

  function Next(cfg: Config, w: World, mv: Move): World
    requires Allowed(cfg, w, mv)
  {
    match mv
    case Commit(row) => w.(journal := w.journal + [row])
    case Happens(ev) => Serve(cfg, w, ev)
    case Hello(t, raw, claim) => Serve(cfg, w.(claim := claim), At(t, Receive(Classify(raw))))
    case ReadOne =>
      var row := RowRead(WireForm(w.sock.wire[w.read], w.sock.streamKey));
      w.(read := w.read + 1, held := if row.Some? then w.held + {row.value} else w.held)
    case Hydrate(rows) => w.(held := w.held + rows)
    case Reconnect(start) => w.(sock := Init(start), read := 0, claim := 0, greeting := NOBODY, dones := map[])
  }

  ghost predicate IsHistory(cfg: Config, ws: seq<World>, mvs: seq<Move>) {
    && cfg.resumable
    && |ws| == |mvs| + 1
    && ws[0] == Start(ws[0].sock.now) && ws[0].sock.now >= 0.0
    && forall k | 0 <= k < |mvs| :: MovesAt(cfg, ws, mvs, k)
  }

  ghost predicate MovesAt(cfg: Config, ws: seq<World>, mvs: seq<Move>, k: nat)
    requires k < |mvs| && k + 1 < |ws|
  {
    Allowed(cfg, ws[k], mvs[k]) && ws[k + 1] == Next(cfg, ws[k], mvs[k])
  }

  // ---- invariant ----

  predicate HelloPending(d: Dispatcher) { d.AuthorizingHello? || d.AwaitSeq? }

  /** Before any hello of the socket is answered, nothing is replayed. */
  predicate FirstOk(s: State) {
    s.link.accepted == [] ==> !s.disp.AwaitRows? && forall i | 0 <= i < |s.link.enq| :: !s.link.enq[i].Replay?
  }

  /** The cursor a hello met is the largest number queued or claimed before it. */
  predicate Rooted(g: Greeting, ms: seq<Message>) {
    && g.before <= |ms| && IsPeak(g.cursor, ms[..g.before], g.claims)
    && (g.claims == [] ==> forall i | 0 <= i < g.before :: !ms[i].Replay?)
  }

  predicate KnownRow(journal: seq<Row>, m: Message) {
    (RowOf(m).Some? ==> RowOf(m).value in journal) && (m.Signal? ==> Courteous(m.dict))
  }

  /** Above the claim and at or below the cursor the hello met: what the dedup drops. */
  predicate Skipped(g: Greeting, n: int) { g.claim < n <= g.cursor }

  /** Every row up to `upTo` is held or among `ms`, but for those the dedup skipped. */
  predicate Delivered(journal: seq<Row>, held: set<Row>, ms: seq<Message>, upTo: int, g: Greeting) {
    forall i | 0 <= i < |journal| && journal[i].seqNo <= upTo && !Skipped(g, journal[i].seqNo) ::
      journal[i] in held || exists j | 0 <= j < |ms| :: RowOf(ms[j]) == Some(journal[i])
  }

  /** A number that can end a complete prefix: 0 or the number of a journal row. */
  predicate Numbered(journal: seq<Row>, n: int) { n == 0 || exists i | 0 <= i < |journal| :: journal[i].seqNo == n }

  predicate Positive(journal: seq<Row>) { forall i | 0 <= i < |journal| :: journal[i].seqNo > 0 }

  predicate JournalOk(w: World) {
    && Sorted(w.journal) && Positive(w.journal)
    && (forall r | r in w.held :: r in w.journal)
    && (forall i | 0 <= i < |w.sock.link.enq| :: KnownRow(w.journal, w.sock.link.enq[i]))
  }

  predicate ReadOk(w: World) {
    w.read <= |w.sock.wire| && forall i | 0 <= i < w.read && RowOf(w.sock.wire[i]).Some? :: RowOf(w.sock.wire[i]).value in w.held
  }

  predicate HelloOk(cfg: Config, w: World) {
    var d, l, g := w.sock.disp, w.sock.link, w.greeting;
    && FirstOk(w.sock)
    && (d.AuthorizingHello? ==> d.hello == Some(w.claim) && CompletePrefix(w.journal, w.held, w.claim))
    && (d.AwaitSeq? ==> d.lastSeq == w.claim && CompletePrefix(w.journal, w.held, w.claim))
    && (d.AwaitRows? ==>
          && CompletePrefix(w.journal, w.held, d.lastSeq)
          && d.serverSeq <= MaxSeq(w.journal) && Numbered(w.journal, d.serverSeq)
          && d.serverSeq - d.lastSeq <= cfg.maxReplay
          && g.claim == d.lastSeq
          && (!l.closing ==> l.maxSeqSent == Max(g.cursor, g.claim) && Rooted(g, l.enq)))
  }

  /** What the REPLAY_DONE at position `i` promises has been delivered before it. */
  predicate DoneOk(journal: seq<Row>, held: set<Row>, enq: seq<Message>, dones: map<nat, Greeting>, i: nat)
    requires i < |enq| && enq[i].ReplayDone?
  {
    && i in dones && Rooted(dones[i], enq[..i])
    && enq[i].upToSeq <= MaxSeq(journal) && Numbered(journal, enq[i].upToSeq)
    && Delivered(journal, held, enq[..i], enq[i].upToSeq, dones[i])
  }

  predicate DonesOk(w: World) {
    var enq := w.sock.link.enq;
    forall i: nat | i < |enq| && enq[i].ReplayDone? :: DoneOk(w.journal, w.held, enq, w.dones, i)
  }

  predicate WorldInv(cfg: Config, w: World) {
    Inv(cfg, w.sock) && JournalOk(w) && ReadOk(w) && HelloOk(cfg, w) && DonesOk(w)
  }

  // ---- the client's and the journal's moves ----

  lemma SortedMax(journal: seq<Row>)
    requires Sorted(journal) && Positive(journal)
    ensures MaxSeq(journal) >= 0 && forall i | 0 <= i < |journal| :: journal[i].seqNo <= MaxSeq(journal)
  {
  }

  /** A complete prefix ends at or below the newest row, so later commits do not break it. */
  lemma PrefixStable(journal: seq<Row>, held: set<Row>, p: int, row: Row)
    requires Sorted(journal) && Positive(journal) && (forall r | r in held :: r in journal)
    requires CompletePrefix(journal, held, p) && row.seqNo > MaxSeq(journal)
    ensures CompletePrefix(journal + [row], held, p)
  {
    SortedMax(journal);
  }

  lemma DeliveredStable(journal: seq<Row>, held: set<Row>, ms: seq<Message>, upTo: int, g: Greeting, row: Row)
    requires Delivered(journal, held, ms, upTo, g) && upTo < row.seqNo
    ensures Delivered(journal + [row], held, ms, upTo, g)
  {
    var grown := journal + [row];
    forall i | 0 <= i < |grown| && grown[i].seqNo <= upTo && !Skipped(g, grown[i].seqNo)
      ensures grown[i] in held || exists j | 0 <= j < |ms| :: RowOf(ms[j]) == Some(grown[i])
    {
      assert grown[i] == journal[i];
    }
  }

  lemma NumberedStable(journal: seq<Row>, n: int, row: Row)
    requires Numbered(journal, n)
    ensures Numbered(journal + [row], n)
  {
    if n != 0 {
      var i :| 0 <= i < |journal| && journal[i].seqNo == n;
      assert (journal + [row])[i].seqNo == n;
    }
  }

  lemma CommitKeeps(cfg: Config, w: World, row: Row)
    requires WorldInv(cfg, w) && row.seqNo > MaxSeq(w.journal)
    ensures WorldInv(cfg, w.(journal := w.journal + [row]))
  {
    hide Inv, Rooted, FirstOk;
    SortedMax(w.journal);
    var grown := w.(journal := w.journal + [row]);
    assert JournalOk(grown) by { hide Numbered, Delivered, CompletePrefix; }
    assert HelloOk(cfg, grown) by {
      hide CompletePrefix, Numbered;
      var d := w.sock.disp;
      if d.AuthorizingHello? { PrefixStable(w.journal, w.held, d.hello.value, row); }
      if d.AwaitSeq? || d.AwaitRows? { PrefixStable(w.journal, w.held, d.lastSeq, row); }
      if d.AwaitRows? { NumberedStable(w.journal, d.serverSeq, row); }
    }
    var enq := w.sock.link.enq;
    forall i: nat | i < |enq| && enq[i].ReplayDone? ensures DoneOk(grown.journal, w.held, enq, w.dones, i) {
      assert DoneOk(w.journal, w.held, enq, w.dones, i);
      NumberedStable(w.journal, enq[i].upToSeq, row);
      DeliveredStable(w.journal, w.held, enq[..i], enq[i].upToSeq, w.dones[i], row);
    }
  }

  /** Holding more rows keeps every claim made about the held ones. */
  lemma HoldingMore(journal: seq<Row>, held: set<Row>, more: set<Row>, ms: seq<Message>, p: int, g: Greeting)
    requires held <= more
    ensures CompletePrefix(journal, held, p) ==> CompletePrefix(journal, more, p)
    ensures Delivered(journal, held, ms, p, g) ==> Delivered(journal, more, ms, p, g)
  {
  }

  lemma HoldKeeps(cfg: Config, w: World, more: set<Row>)
    requires WorldInv(cfg, w) && w.held <= more && (forall r | r in more :: r in w.journal)
    ensures WorldInv(cfg, w.(held := more))
  {
    hide Inv, Rooted, FirstOk, CompletePrefix, Delivered;
    var d, enq := w.sock.disp, w.sock.link.enq;
    if d.AuthorizingHello? { HoldingMore(w.journal, w.held, more, [], d.hello.value, NOBODY); }
    if d.AwaitSeq? || d.AwaitRows? { HoldingMore(w.journal, w.held, more, [], d.lastSeq, NOBODY); }
    forall i: nat | i < |enq| && enq[i].ReplayDone? ensures DoneOk(w.journal, more, enq, w.dones, i) {
      assert DoneOk(w.journal, w.held, enq, w.dones, i);
      HoldingMore(w.journal, w.held, more, enq[..i], enq[i].upToSeq, w.dones[i]);
    }
  }

  lemma ReadKeeps(cfg: Config, w: World)
    requires WorldInv(cfg, w) && w.read < |w.sock.wire|
    ensures WorldInv(cfg, Next(cfg, w, ReadOne))
  {
    hide Numbered, Delivered, CompletePrefix, Rooted, RowRead, WireForm, FirstOk;
    var r := Next(cfg, w, ReadOne);
    assert w.sock.wire[w.read] == w.sock.link.enq[w.read];
    assert KnownRow(w.journal, w.sock.link.enq[w.read]);
    RowOnWire(w.sock.wire[w.read], w.sock.streamKey);
    hide Inv;
    HoldKeeps(cfg, w, r.held);
    hide HelloOk, DonesOk, Courteous;
  }

  // ---- the socket's moves ----

  /** How a step moves the dispatcher into and along a resumable hello. */
  predicate Phases(cfg: Config, s: State, e: Event, r: State) {
    && (HelloPending(r.disp) || r.disp.AwaitRows? ==>
          || r.disp == s.disp
          || (e.Receive? && e.inbound.GotHello? && r.link == s.link
              && ((r.disp.AuthorizingHello? && r.disp.hello == e.inbound.lastSeq)
                  || (r.disp.AwaitSeq? && Some(r.disp.lastSeq) == e.inbound.lastSeq)))
          || (e.Authorized? && s.disp.AuthorizingHello? && r.link == s.link
              && r.disp.AwaitSeq? && Some(r.disp.lastSeq) == s.disp.hello)
          || (e.ServerSeq? && s.disp.AwaitSeq? && r.disp == AwaitRows(s.disp.lastSeq, e.serverSeq)
              && e.serverSeq - s.disp.lastSeq <= cfg.maxReplay))
    && s.wire <= r.wire
    && (s.link.closing ==> r.link.closing)
  }

  /** A resumable hello either claims a number and waits for the journal, or is refused at once. */
  lemma HelloPhases(cfg: Config, s: State, received: real, lastSeq: Option<nat>)
    requires cfg.resumable
    ensures var r := HandleHello(cfg, s, received, lastSeq);
      && r.wire == s.wire && (s.link.closing ==> r.link.closing)
      && ((lastSeq.Some? && r.disp == AwaitSeq(lastSeq.value) && r.link == s.link) || r.disp.Idle?)
  {
  }

  lemma ReceivePhases(cfg: Config, s: State, inbound: Inbound)
    requires cfg.resumable
    ensures Phases(cfg, s, Receive(inbound), ReceiveJson(cfg, s, inbound))
  {
    hide Enqueue, SendFrame, HandleHello;
    SendingSends(cfg, s.link);
    if inbound.GotHello? {
      HelloPhases(cfg, s, s.now, inbound.lastSeq);
    }
  }

  lemma VerdictPhases(cfg: Config, s: State, allowed: bool)
    requires cfg.resumable && (s.disp.AuthorizingConnect? || s.disp.AuthorizingHello?)
    ensures Phases(cfg, s, Authorized(allowed), OnVerdict(cfg, s, allowed))
  {
    hide Enqueue, HandleHello;
    if s.disp.AuthorizingHello? {
      HelloPhases(cfg, Record(cfg, s, s.disp.asked, allowed), s.disp.asked, s.disp.hello);
    }
  }

  lemma GroupPhases(cfg: Config, s: State, m: GroupMessage)
    ensures Phases(cfg, s, Group(m), OnGroup(cfg, s, m))
  {
    hide Enqueue, SendFrame, KickReason;
    SendingSends(cfg, s.link);
  }

  lemma SequencePhases(cfg: Config, s: State, e: Event)
    ensures e.ServerSeq? && s.disp.AwaitSeq? ==> Phases(cfg, s, e, OnServerSeq(cfg, s, s.disp.lastSeq, e.serverSeq))
    ensures e.Rows? && s.disp.AwaitRows? ==> Phases(cfg, s, e, OnRows(cfg, s, e.rows, s.disp.serverSeq))
  {
    if e.Rows? && s.disp.AwaitRows? {
      SendRowsSends(cfg, s.link, e.rows);
    }
  }

  lemma BackgroundPhases(cfg: Config, s: State, e: Event)
    ensures Phases(cfg, s, e, OnWake(cfg, s)) && Phases(cfg, s, e, SendPing(cfg, s)) && Phases(cfg, s, e, OnDeadline(cfg, s))
  {
    hide TokenExpired;
  }

  lemma StepPhases(cfg: Config, before: State, ev: Stamped)
    requires cfg.resumable && Enabled(before, ev)
    ensures Phases(cfg, before, ev.e, Step(cfg, before, ev))
  {
    hide ReceiveJson, OnVerdict, OnGroup, SendReplay, Enqueue, OnWake, SendPing, OnDeadline;
    var s := before.(now := ev.t);
    match ev.e
    case Receive(inbound) => ReceivePhases(cfg, s, inbound);
    case Authorized(allowed) => VerdictPhases(cfg, s, allowed);
    case Group(m) => GroupPhases(cfg, s, m);
    case ServerSeq(_) => SequencePhases(cfg, s, ev.e);
    case Rows(_) => SequencePhases(cfg, s, ev.e);
    case HbWake => BackgroundPhases(cfg, s, ev.e);
    case HbWritten(x) => BackgroundPhases(cfg, s.(touches := s.touches + [Touch(x, s.now)]), ev.e);
    case HbDeadline => BackgroundPhases(cfg, s, ev.e);
    case _ =>
  }

  /** Messages a plausible event makes the socket queue carry only journal rows. */
  lemma HappensKnown(cfg: Config, w: World, ev: Stamped)
    requires WorldInv(cfg, w) && Occurs(cfg, w, ev)
    ensures JournalOk(Serve(cfg, w, ev))
  {
    hide Step, Inv, ReadOk, HelloOk, DonesOk;
    var l, r := w.sock.link, Serve(cfg, w, ev).sock.link;
    StepAdds(cfg, w.sock, ev);
    forall i | 0 <= i < |r.enq| ensures KnownRow(w.journal, r.enq[i]) {
      if i < |l.enq| {
        assert r.enq[i] == l.enq[i];
      } else {
        assert Caused(cfg, w.sock, r.enq[i], ev.e);
        if ev.e.Rows? {
          AfterIsFilter(w.journal, w.sock.disp.lastSeq);
        }
      }
    }
  }

  lemma HappensRead(cfg: Config, w: World, ev: Stamped)
    requires cfg.resumable && ReadOk(w) && Occurs(cfg, w, ev)
    ensures ReadOk(Serve(cfg, w, ev))
  {
    hide Step;
    StepPhases(cfg, w.sock, ev);
  }

  lemma RootedGrows(g: Greeting, ms: seq<Message>, more: seq<Message>)
    requires Rooted(g, ms) && ms <= more
    ensures Rooted(g, more)
  {
    assert more[..g.before] == ms[..g.before];
    assert forall i | 0 <= i < |ms| :: more[i] == ms[i];
  }

  lemma FirstKept(cfg: Config, s: State, ev: Stamped)
    requires Enabled(s, ev) && FirstOk(s)
    ensures FirstOk(Step(cfg, s, ev))
  {
    hide Step;
    var r := Step(cfg, s, ev);
    StepAdds(cfg, s, ev);
    if ev.e.ServerSeq? {
      AnswerAccepts(cfg, s, ev);
    } else if r.link.accepted == [] {
      ReplaysNothing(cfg, s, ev);
      assert forall i | 0 <= i < |s.link.enq| :: r.link.enq[i] == s.link.enq[i];
    }
  }

  lemma AnswerAccepts(cfg: Config, s: State, ev: Stamped)
    requires Enabled(s, ev) && ev.e.ServerSeq?
    ensures Step(cfg, s, ev).link.accepted != []
  {
    hide SendFrame;
    SendingSends(cfg, s.link);
    SendingSends(cfg, RaiseTo(SendFrame(cfg, s.link, Welcome(ev.e.serverSeq)), s.disp.lastSeq));
  }

  lemma ServerSeqHello(cfg: Config, w: World, ev: Stamped)
    requires cfg.resumable && WorldInv(cfg, w) && Occurs(cfg, w, ev) && ev.e.ServerSeq?
    ensures HelloOk(cfg, Serve(cfg, w, ev))
  {
    hide CompletePrefix, IsPeak;
    var l, r := w.sock.link, Serve(cfg, w, ev).sock;
    StepAdds(cfg, w.sock, ev);
    FirstKept(cfg, w.sock, ev);
    SortedMax(w.journal);
    if r.disp.AwaitRows? && !r.link.closing {
      assert r.link.enq[..|l.enq|] == l.enq;
      assert forall i | 0 <= i < |l.enq| :: r.link.enq[i] == l.enq[i];
    }
  }

  /** Any other event leaves a waiting replay as it was, or starts no replay at all. */
  lemma OtherHello(cfg: Config, w: World, ev: Stamped)
    requires cfg.resumable && WorldInv(cfg, w) && Occurs(cfg, w, ev) && !ev.e.ServerSeq?
    ensures HelloOk(cfg, Serve(cfg, w, ev))
  {
    hide Step, CompletePrefix, Rooted, FirstOk, Inv;
    var s := w.sock;
    var r := Serve(cfg, w, ev).sock;
    StepAdds(cfg, s, ev);
    StepPhases(cfg, s, ev);
    FirstKept(cfg, s, ev);
    if r.disp.AwaitRows? {
      StillWaiting(cfg, s, ev);
      if !r.link.closing {
        RootedGrows(w.greeting, s.link.enq, r.link.enq);
      }
    }
  }

  lemma StillWaiting(cfg: Config, s: State, ev: Stamped)
    requires Enabled(s, ev) && Step(cfg, s, ev).disp.AwaitRows? && s.disp == Step(cfg, s, ev).disp
    ensures Step(cfg, s, ev).link.maxSeqSent == s.link.maxSeqSent
  {
    if !ev.e.Rows? {
      AwaitingRows(cfg, s, ev);
    } else {
      RowsEndHello(cfg, s, ev);
    }
  }

  lemma RowsEndHello(cfg: Config, s: State, ev: Stamped)
    requires Enabled(s, ev)
    ensures ev.e.Rows? ==> s.disp.AwaitRows? && Step(cfg, s, ev).disp.Idle?
  {
  }

  // ---- what REPLAY_DONE promises ----

  lemma DonesKept(cfg: Config, w: World, ev: Stamped)
    requires WorldInv(cfg, w) && Occurs(cfg, w, ev)
    requires var n := Serve(cfg, w, ev);
      forall i: nat | |w.sock.link.enq| <= i < |n.sock.link.enq| && n.sock.link.enq[i].ReplayDone? ::
        DoneOk(w.journal, w.held, n.sock.link.enq, n.dones, i)
    ensures DonesOk(Serve(cfg, w, ev))
  {
    hide Step, Rooted, Numbered, Delivered, Inv, HelloOk;
    StepAdds(cfg, w.sock, ev);
    var n, before := Serve(cfg, w, ev), w.sock.link.enq;
    var enq := n.sock.link.enq;
    forall i: nat | i < |enq| && enq[i].ReplayDone? ensures DoneOk(w.journal, w.held, enq, n.dones, i) {
      if i < |before| {
        assert DoneOk(w.journal, w.held, before, w.dones, i);
        assert enq[..i] == before[..i] && enq[i] == before[i];
      }
    }
  }

  lemma OtherDones(cfg: Config, w: World, ev: Stamped)
    requires WorldInv(cfg, w) && Occurs(cfg, w, ev) && !ev.e.Rows?
    ensures DonesOk(Serve(cfg, w, ev))
  {
    hide Step, Rooted, Numbered, Delivered, Inv, HelloOk, DonesOk;
    StepAdds(cfg, w.sock, ev);
    forall i | |w.sock.link.enq| <= i < |Step(cfg, w.sock, ev).link.enq|
      ensures !Step(cfg, w.sock, ev).link.enq[i].ReplayDone?
    {
      assert Caused(cfg, w.sock, Step(cfg, w.sock, ev).link.enq[i], ev.e);
    }
    DonesKept(cfg, w, ev);
  }

  /** The burst of a hello delivers every journal row up to the promised number, but for those its dedup skipped. */
  lemma BurstDelivers(cfg: Config, w: World, sent: seq<Row>, upTo: int)
    requires var d, l, g := w.sock.disp, w.sock.link, w.greeting;
      && JournalOk(w) && d.AwaitRows? && CompletePrefix(w.journal, w.held, d.lastSeq)
      && g.claim == d.lastSeq && l.maxSeqSent == Max(g.cursor, g.claim)
      && (forall row | row in w.journal && d.lastSeq < row.seqNo <= upTo :: row in sent <==> row.seqNo > l.maxSeqSent)
    ensures Delivered(w.journal, w.held, w.sock.link.enq + Replays(sent), upTo, w.greeting)
  {
    var enq := w.sock.link.enq;
    var ms := enq + Replays(sent);
    forall i | 0 <= i < |w.journal| && w.journal[i].seqNo <= upTo && !Skipped(w.greeting, w.journal[i].seqNo)
      ensures w.journal[i] in w.held || exists j | 0 <= j < |ms| :: RowOf(ms[j]) == Some(w.journal[i])
    {
      if w.journal[i].seqNo > w.sock.disp.lastSeq {
        assert w.journal[i] in sent;
        var j :| 0 <= j < |sent| && sent[j] == w.journal[i];
        assert RowOf(ms[|enq| + j]) == Some(w.journal[i]);
      }
    }
  }

  /** Either the burst did not get to its REPLAY_DONE, or it queued what was above the cursor and then that. */
  lemma RowsQueued(cfg: Config, w: World, ev: Stamped) returns (sent: seq<Row>, done: bool)
    requires WorldInv(cfg, w) && Occurs(cfg, w, ev) && ev.e.Rows?
    ensures var d, l, r := w.sock.disp, w.sock.link, Step(cfg, w.sock, ev).link;
      if done
      then !l.closing && r.enq == l.enq + Replays(sent) + [ReplayDone(d.serverSeq)]
        && (forall row | row in w.journal && d.lastSeq < row.seqNo <= d.serverSeq :: row in sent <==> row.seqNo > l.maxSeqSent)
      else l.enq <= r.enq && forall i | |l.enq| <= i < |r.enq| :: !r.enq[i].ReplayDone?
  {
    hide Rooted, Numbered, Delivered, CompletePrefix, DonesOk;
    var d, l := w.sock.disp, w.sock.link;
    var rows := Hook(w.journal, d.lastSeq, cfg.maxReplay);
    var r := SendReplay(cfg, l, rows, d.serverSeq);
    assert Step(cfg, w.sock, ev).link == r;
    hide Step;
    sent, done := After(rows, l.maxSeqSent), !r.closing;
    if l.closing {
      SendRowsSends(cfg, l, rows);
      done := false;
    } else {
      ReplayOutcome(cfg, l, rows, d.serverSeq);
      if !r.closing {
        ReplayDelivers(cfg, l, w.journal, d.lastSeq, d.serverSeq, cfg.maxReplay);
      }
    }
  }

  lemma RowsDones(cfg: Config, w: World, ev: Stamped)
    requires WorldInv(cfg, w) && Occurs(cfg, w, ev) && ev.e.Rows?
    ensures DonesOk(Serve(cfg, w, ev))
  {
    hide Step, Rooted, Numbered, Delivered, CompletePrefix, DonesOk, Inv, FirstOk;
    var l, r := w.sock.link, Step(cfg, w.sock, ev).link;
    var sent, done := RowsQueued(cfg, w, ev);
    if done {
      var at := |l.enq| + |sent|;
      assert r.enq[..at] == l.enq + Replays(sent);
      RootedGrows(w.greeting, l.enq, r.enq[..at]);
      BurstDelivers(cfg, w, sent, w.sock.disp.serverSeq);
      assert DoneOk(w.journal, w.held, r.enq, w.dones[at := w.greeting], at);
    }
    DonesKept(cfg, w, ev);
  }

  // ---- every history ----

  /** An idle socket waits for no hello, so the client may claim anew. */
  lemma ClaimKeeps(cfg: Config, w: World, claim: nat)
    requires WorldInv(cfg, w) && w.sock.disp.Idle?
    ensures WorldInv(cfg, w.(claim := claim))
  {
    hide Inv, FirstOk, Rooted, Delivered, Numbered, CompletePrefix;
  }

  lemma NextKeeps(cfg: Config, w: World, mv: Move)
    requires cfg.resumable && WorldInv(cfg, w) && Allowed(cfg, w, mv)
    ensures WorldInv(cfg, Next(cfg, w, mv))
  {
    match mv
    case Commit(row) => CommitKeeps(cfg, w, row);
    case ReadOne => ReadKeeps(cfg, w);
    case Hydrate(rows) => HoldKeeps(cfg, w, w.held + rows);
    case Reconnect(_) => hide Numbered, Delivered, CompletePrefix, Rooted;
    case Happens(ev) => HappensKeeps(cfg, w, ev);
    case Hello(t, raw, claim) =>
      ClaimRead(raw, claim);
      ClaimKeeps(cfg, w, claim);
      HappensKeeps(cfg, w.(claim := claim), At(t, Receive(Classify(raw))));
  }

  lemma HappensKeeps(cfg: Config, w: World, ev: Stamped)
    requires cfg.resumable && WorldInv(cfg, w) && Occurs(cfg, w, ev)
    ensures WorldInv(cfg, Serve(cfg, w, ev))
  {
    hide Step, Inv, JournalOk, ReadOk, HelloOk, DonesOk;
    assert Inv(cfg, w.sock);
    StepKeeps(cfg, w.sock, ev);
    HappensKnown(cfg, w, ev);
    HappensRead(cfg, w, ev);
    if ev.e.ServerSeq? { ServerSeqHello(cfg, w, ev); } else { OtherHello(cfg, w, ev); }
    if ev.e.Rows? { RowsDones(cfg, w, ev); } else { OtherDones(cfg, w, ev); }
  }

  lemma {:induction false} AlwaysWorld(cfg: Config, ws: seq<World>, mvs: seq<Move>, k: nat)
    requires IsHistory(cfg, ws, mvs) && k < |ws|
    ensures WorldInv(cfg, ws[k])
  {
    if k == 0 {
      hide Numbered, Delivered, CompletePrefix, Rooted;
    } else {
      AlwaysWorld(cfg, ws, mvs, k - 1);
      assert MovesAt(cfg, ws, mvs, k - 1);
      NextKeeps(cfg, ws[k - 1], mvs[k - 1]);
    }
  }

  /** The hello answered by the REPLAY_DONE the client is about to read. */
  function Answered(w: World): Greeting { if w.read in w.dones then w.dones[w.read] else NOBODY }

  predicate HoldsUpTo(w: World, u: int) { forall i | 0 <= i < |w.journal| && w.journal[i].seqNo <= u :: w.journal[i] in w.held }

  /** Exact resume. Whenever the client is about to read REPLAY_DONE{u}, over any number of sockets and hellos, it holds
      every journal row up to u if and only if it holds those above what the hello claimed and at or below the cursor the
      hello met; and that cursor is the largest number of 0, the REPLAY and LIVE frames before that WELCOME on this socket
      and the claims of its earlier hellos. */
  lemma ResumeExactly(cfg: Config, ws: seq<World>, mvs: seq<Move>, k: nat)
    requires IsHistory(cfg, ws, mvs) && k < |ws|
    requires var w := ws[k]; w.read < |w.sock.wire| && w.sock.wire[w.read].ReplayDone?
    ensures var w, g, u := ws[k], Answered(ws[k]), ws[k].sock.wire[ws[k].read].upToSeq;
      && Rooted(g, w.sock.wire[..w.read]) && Numbered(w.journal, u)
      && (HoldsUpTo(w, u) <==>
            forall i | 0 <= i < |w.journal| && w.journal[i].seqNo <= u && Skipped(g, w.journal[i].seqNo) :: w.journal[i] in w.held)
  {
    AlwaysWorld(cfg, ws, mvs, k);
    var w := ws[k];
    var enq := w.sock.link.enq;
    assert enq[..w.read] == w.sock.wire[..w.read] && enq[w.read] == w.sock.wire[w.read];
    assert DoneOk(w.journal, w.held, enq, w.dones, w.read);
    assert forall j | 0 <= j < w.read :: enq[..w.read][j] == w.sock.wire[j];
    hide Inv, Rooted, Numbered, HelloOk;
  }

  /** Lossless resume. If the hello claimed at least every number the socket had sent before its WELCOME and every number
      claimed before on this socket, then at REPLAY_DONE{u} the client holds every journal row up to u, and may claim u in
      its next hello, on this socket or another. */
  lemma LosslessResume(cfg: Config, ws: seq<World>, mvs: seq<Move>, k: nat)
    requires IsHistory(cfg, ws, mvs) && k < |ws|
    requires var w := ws[k]; w.read < |w.sock.wire| && w.sock.wire[w.read].ReplayDone?
    requires var w, g := ws[k], Answered(ws[k]);
      && (forall i | 0 <= i < g.before && i < |w.sock.wire| && IsJournal(w.sock.wire[i]) ::
            SeqOf(w.sock.wire[i]).value <= g.claim)
      && (forall c | c in g.claims :: c <= g.claim)
    ensures HoldsUpTo(ws[k], ws[k].sock.wire[ws[k].read].upToSeq)
    ensures CompletePrefix(ws[k].journal, ws[k].held, ws[k].sock.wire[ws[k].read].upToSeq)
  {
    var w, g := ws[k], Answered(ws[k]);
    ResumeExactly(cfg, ws, mvs, k);
    hide IsHistory;
    var sent := w.sock.wire[..w.read];
    assert g.cursor <= g.claim by {
      if g.cursor !in g.claims && g.cursor != 0 {
        var i :| 0 <= i < |sent[..g.before]| && SeqOf(sent[..g.before][i]) == Some(g.cursor);
        assert sent[..g.before][i] == w.sock.wire[i];
      }
    }
  }

  /** In particular: when it answers the first hello of a socket that sent no LIVE frame before the WELCOME. */
  lemma LosslessFirstHello(cfg: Config, ws: seq<World>, mvs: seq<Move>, k: nat)
    requires IsHistory(cfg, ws, mvs) && k < |ws|
    requires var w := ws[k]; w.read < |w.sock.wire| && w.sock.wire[w.read].ReplayDone?
    requires var w, g := ws[k], Answered(ws[k]);
      g.claims == [] && forall i | 0 <= i < g.before && i < |w.sock.wire| :: !w.sock.wire[i].Live?
    ensures HoldsUpTo(ws[k], ws[k].sock.wire[ws[k].read].upToSeq)
  {
    var w, g := ws[k], Answered(ws[k]);
    ResumeExactly(cfg, ws, mvs, k);
    assert forall i | 0 <= i < g.before :: w.sock.wire[..w.read][i] == w.sock.wire[i];
    LosslessResume(cfg, ws, mvs, k);
  }

  lemma {:induction false} NonePasses(cursor: int, rows: seq<Row>)
    requires forall r | r in rows :: r.seqNo <= cursor
    ensures Passing(cursor, rows) == [] && CursorAfter(cursor, rows) == cursor
  {
    if rows != [] {
      NonePasses(cursor, rows[..|rows| - 1]);
      assert rows[|rows| - 1] in rows;
    }
  }

  lemma EarlyLiveBurst(cfg: Config, l: Link, live: Row, rows: seq<Row>, upTo: int)
    requires !l.closing && 0 <= l.maxSeqSent < live.seqNo && |l.outbox| + 3 <= Cap(cfg)
    requires forall r | r in rows :: r.seqNo <= live.seqNo
    ensures
      var early := SendFrame(cfg, l, Live(Some(live.seqNo), live.payload));
      var greeted := RaiseTo(SendFrame(cfg, early, Welcome(upTo)), 0);
      SendReplay(cfg, greeted, rows, upTo).enq == l.enq + [Live(Some(live.seqNo), live.payload), Welcome(upTo), ReplayDone(upTo)]
  {
    var early := SendFrame(cfg, l, Live(Some(live.seqNo), live.payload));
    var greeted := RaiseTo(SendFrame(cfg, early, Welcome(upTo)), 0);
    NonePasses(live.seqNo, rows);
    ReplayOutcome(cfg, greeted, rows, upTo);
  }

  /** A live frame, a hello claiming nothing, and both hooks' answers, all at one instant. */
  function EarlyLiveEvents(t: real, stream: string, live: Row, rows: seq<Row>, upTo: int): seq<Stamped> {
    [At(t, Group(FrameMsg(stream, Some(live.seqNo), live.payload))), At(t, Receive(GotHello(Some(0)))),
     At(t, ServerSeq(upTo)), At(t, Rows(rows))]
  }

  lemma EarlyLiveSteps(cfg: Config, s: State, stream: string, live: Row, rows: seq<Row>, upTo: int)
    returns (s1: State, s2: State, s3: State, s4: State)
    requires cfg.resumable && s.disp.Idle? && s.now < s.authorizedUntil && upTo <= cfg.maxReplay
    ensures var es, l := EarlyLiveEvents(s.now, stream, live, rows, upTo), s.link;
      && Enabled(s, es[0]) && s1 == Step(cfg, s, es[0])
      && Enabled(s1, es[1]) && s2 == Step(cfg, s1, es[1])
      && Enabled(s2, es[2]) && s3 == Step(cfg, s2, es[2])
      && Enabled(s3, es[3]) && s4 == Step(cfg, s3, es[3])
      && s1.writer == s2.writer == s3.writer == s4.writer == s.writer
      && s2.disp == AwaitSeq(0) && s3.disp == AwaitRows(0, upTo)
      && var early := SendFrame(cfg, l, Live(Some(live.seqNo), live.payload));
      s4.link == SendReplay(cfg, RaiseTo(SendFrame(cfg, early, Welcome(upTo)), 0), rows, upTo)
  {
    hide SendFrame, SendReplay, RaiseTo;
    var es := EarlyLiveEvents(s.now, stream, live, rows, upTo);
    s1 := Step(cfg, s, es[0]);
    s2 := Step(cfg, s1, es[1]);
    s3 := Step(cfg, s2, es[2]);
    s4 := Step(cfg, s3, es[3]);
  }

  ghost predicate Reaches(cfg: Config, w: World) {
    exists ws, mvs :: IsHistory(cfg, ws, mvs) && ws[|mvs|] == w
  }

  lemma ReachesNext(cfg: Config, w: World, mv: Move)
    requires Reaches(cfg, w) && Allowed(cfg, w, mv)
    ensures Reaches(cfg, Next(cfg, w, mv))
  {
    hide Allowed, Next;
    var ws, mvs :| IsHistory(cfg, ws, mvs) && ws[|mvs|] == w;
    var ws', mvs' := ws + [Next(cfg, w, mv)], mvs + [mv];
    forall k | 0 <= k < |mvs'| ensures MovesAt(cfg, ws', mvs', k) {
      if k < |mvs| {
        assert MovesAt(cfg, ws, mvs, k);
      }
    }
    assert IsHistory(cfg, ws', mvs');
  }

  lemma ReachedInv(cfg: Config, w: World)
    requires Reaches(cfg, w)
    ensures WorldInv(cfg, w) && cfg.resumable
  {
    var ws, mvs :| IsHistory(cfg, ws, mvs) && ws[|mvs|] == w;
    AlwaysWorld(cfg, ws, mvs, |mvs|);
    hide WorldInv;
  }

  lemma SendOne(cfg: Config, w: World) returns (after: World)
    requires Reaches(cfg, w) && w.sock.writer.Waiting? && w.sock.link.outbox != []
    ensures Reaches(cfg, after) && after == w.(sock := after.sock) && after.sock.writer.Waiting?
    ensures after.sock.link.enq == w.sock.link.enq && after.sock.link.outbox == w.sock.link.outbox[1..]
  {
    var took := Next(cfg, w, Happens(At(w.sock.now, WriterTake)));
    ReachesNext(cfg, w, Happens(At(w.sock.now, WriterTake)));
    after := Next(cfg, took, Happens(At(w.sock.now, WriterSent)));
    ReachesNext(cfg, took, Happens(At(w.sock.now, WriterSent)));
    hide Reaches;
  }

  /** A waiting writer can put everything queued on the wire. */
  lemma {:induction false} Flush(cfg: Config, w: World) returns (after: World)
    requires Reaches(cfg, w) && w.sock.writer.Waiting?
    ensures Reaches(cfg, after) && after == w.(sock := after.sock)
    ensures after.sock.link.enq == w.sock.link.enq && after.sock.wire == w.sock.link.enq
    decreases |w.sock.link.outbox|
  {
    hide Reaches;
    if w.sock.link.outbox == [] {
      ReachedInv(cfg, w);
      after := w;
      assert w.sock.link.enq == w.sock.wire + InFlight(w.sock.writer) + w.sock.link.outbox;
    } else {
      var sent := SendOne(cfg, w);
      after := Flush(cfg, sent);
    }
  }

  /** The client can read on, and then holds nothing but what it held and what it read. */
  lemma {:induction false} ReadUpTo(cfg: Config, w: World, n: nat) returns (after: World)
    requires Reaches(cfg, w) && w.read <= n <= |w.sock.wire|
    ensures Reaches(cfg, after) && after == w.(read := n, held := after.held)
    ensures forall r | r in after.held :: r in w.held || exists j | w.read <= j < n :: RowOf(w.sock.wire[j]) == Some(r)
    decreases n - w.read
  {
    hide Reaches;
    if w.read == n {
      after := w;
    } else {
      ReachedInv(cfg, w);
      assert w.sock.wire[w.read] == w.sock.link.enq[w.read];
      assert KnownRow(w.journal, w.sock.link.enq[w.read]);
      RowOnWire(w.sock.wire[w.read], w.sock.streamKey);
      hide WorldInv, RowRead, WireForm;
      ReachesNext(cfg, w, ReadOne);
      after := ReadUpTo(cfg, Next(cfg, w, ReadOne), n);
    }
  }

  lemma Plausibly(cfg: Config, w: World, ev: Stamped) returns (after: World)
    requires Reaches(cfg, w) && Occurs(cfg, w, ev) && !ev.e.Receive?
    ensures Reaches(cfg, after) && after.sock == Step(cfg, w.sock, ev)
    ensures after.journal == w.journal && after.held == w.held && after.read == w.read
  {
    hide Reaches, Step, Enabled;
    ReachesNext(cfg, w, Happens(ev));
    after := Next(cfg, w, Happens(ev));
  }

  /** The client says hello without a number. */
  lemma SayHello(cfg: Config, w: World, t: real) returns (after: World)
    requires Reaches(cfg, w) && Enabled(w.sock, At(t, Receive(GotHello(Some(0))))) && CompletePrefix(w.journal, w.held, 0)
    ensures Reaches(cfg, after) && after.sock == Step(cfg, w.sock, At(t, Receive(GotHello(Some(0)))))
    ensures after.journal == w.journal && after.held == w.held && after.read == w.read
  {
    hide Reaches, Step, Enabled;
    var f := Envelope.Frame(Envelope.Hello, map[], None, None);
    var raw := Envelope.Encode(f);
    Envelope.EncodeThenParse(f);
    assert SaysHello(raw, None);
    ClaimRead(raw, 0);
    ReachesNext(cfg, w, Hello(t, raw, 0));
    after := Next(cfg, w, Hello(t, raw, 0));
  }

  /** The socket's part, in the client's world. */
  lemma EarlyLiveHappens(cfg: Config, w: World, stream: string, live: Row) returns (after: World)
    requires Reaches(cfg, w) && live in w.journal && live.seqNo == MaxSeq(w.journal) <= cfg.maxReplay
    requires var s := w.sock;
      && s.disp.Idle? && s.now < s.authorizedUntil && !s.link.closing && s.writer.Waiting?
      && s.link.maxSeqSent < live.seqNo && |s.link.outbox| + 3 <= Cap(cfg)
    ensures Reaches(cfg, after) && after.journal == w.journal && after.held == w.held && after.read == w.read
    ensures after.sock.writer.Waiting?
    ensures after.sock.link.enq ==
      w.sock.link.enq + [Live(Some(live.seqNo), live.payload), Welcome(live.seqNo), ReplayDone(live.seqNo)]
  {
    hide Reaches;
    ReachedInv(cfg, w);
    SortedMax(w.journal);
    var rows, upTo := Hook(w.journal, 0, cfg.maxReplay), live.seqNo;
    AfterIsFilter(w.journal, 0);
    var es := EarlyLiveEvents(w.sock.now, stream, live, rows, upTo);
    EarlyLiveBurst(cfg, w.sock.link, live, rows, upTo);
    var s1, s2, s3, s4 := EarlyLiveSteps(cfg, w.sock, stream, live, rows, upTo);
    hide Step, Inv, SendFrame, SendReplay, RaiseTo, Enabled, Hook, WorldInv;
    assert CompletePrefix(w.journal, w.held, 0);
    var w1 := Plausibly(cfg, w, es[0]);
    var w2 := SayHello(cfg, w1, w.sock.now);
    var w3 := Plausibly(cfg, w2, es[2]);
    after := Plausibly(cfg, w3, es[3]);
  }

  /** The dedup does lose rows. From any reachable world whose socket is idle, open, authorized and not behind, with the
      newest row not yet sent on it, the client can come to read REPLAY_DONE for that row without holding an older one that
      it did not hold before: the newest row's live frame comes first and raises the cursor over the older one. */
  lemma EarlyLiveLosesRows(cfg: Config, w: World, stream: string, live: Row, row: Row) returns (after: World)
    requires Reaches(cfg, w) && live in w.journal && live.seqNo == MaxSeq(w.journal) <= cfg.maxReplay
    requires row in w.journal && row != live && row !in w.held
    requires var s := w.sock;
      && s.disp.Idle? && s.now < s.authorizedUntil && !s.link.closing && s.writer.Waiting?
      && s.link.maxSeqSent < live.seqNo && |s.link.outbox| + 3 <= Cap(cfg)
      && forall j | w.read <= j < |s.link.enq| :: RowOf(s.link.enq[j]) != Some(row)
    ensures Reaches(cfg, after) && after.journal == w.journal && after.read < |after.sock.wire|
    ensures after.sock.wire[after.read] == ReplayDone(live.seqNo) && row.seqNo <= live.seqNo && row !in after.held
  {
    hide Reaches, Enabled;
    ReachedInv(cfg, w);
    SortedMax(w.journal);
    var replied := EarlyLiveHappens(cfg, w, stream, live);
    var flushed := Flush(cfg, replied);
    var done := |w.sock.link.enq| + 2;
    after := ReadUpTo(cfg, flushed, done);
    assert forall j | w.read <= j < |w.sock.link.enq| :: flushed.sock.wire[j] == w.sock.link.enq[j];
  }
}
