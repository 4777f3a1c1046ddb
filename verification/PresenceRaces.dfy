/** Presence as it runs: every touch and disconnect samples the clock, reads and writes back in three separate steps,
    threads interleave freely, and a thread may be lost between any two steps. One user's cache slot is modelled. */
module PresenceRaces {
  import opened Wrappers
  import opened Presence

  /** A write in progress: the operation with its clock sample, and what its `get` returned if it has run. */
  datatype Thread = Thread(op: Op, got: Option<Option<Stored>>)

  datatype World = World(now: real, slot: Option<Lease>, threads: map<nat, Thread>)

  datatype Act =
    | Tick(t: real)
    | Sample(tid: nat, op: Op)
    | GetDoc(tid: nat)
    | SetDoc(tid: nat)
    | Crash(tid: nat)

  /** What readers and writers see now. */
  function Visible(w: World): map<string, Entry> { Sessions(Fetch(w.slot, w.now)) }

  predicate May(w: World, a: Act) {
    match a
    case Tick(t) => w.now <= t
    case Sample(tid, op) => tid !in w.threads && op.at == w.now
    case GetDoc(tid) => tid in w.threads && w.threads[tid].got.None?
    case SetDoc(tid) => tid in w.threads && w.threads[tid].got.Some?
    case Crash(tid) => tid in w.threads
  }

  /** The document a thread writes back; None for a disconnect that found nothing. */
  function WriteBack(ttl: int, th: Thread): Option<Doc>
    requires th.got.Some?
  {
    match th.op
    case Touching(sid, family, at) => Some(TouchDoc(th.got.value, ttl, sid, family, at))
    case Leaving(sid, at) => LeaveDoc(th.got.value, ttl, sid, at)
  }

  function Do(ttl: int, w: World, a: Act): World
    requires May(w, a)
  {
    match a
    case Tick(t) => w.(now := t)
    case Sample(tid, op) => w.(threads := w.threads[tid := Thread(op, None)])
    case GetDoc(tid) => w.(threads := w.threads[tid := Thread(w.threads[tid].op, Some(Fetch(w.slot, w.now)))])
    case SetDoc(tid) =>
      var doc := WriteBack(ttl, w.threads[tid]);
      w.(threads := w.threads - {tid},
         slot := if doc.Some? then Some(Lease(Document(doc.value), w.now + ttl as real)) else w.slot)
    case Crash(tid) => w.(threads := w.threads - {tid})
  }

  /** `acts` lead from `ws[0]`, whatever that is, through `ws`. */
  ghost predicate Leads(ttl: int, ws: seq<World>, acts: seq<Act>) {
    && ttl > 0 && |ws| == |acts| + 1
    && forall k | 0 <= k < |acts| :: ActsAt(ttl, ws, acts, k)
  }

  ghost predicate IsTrace(ttl: int, ws: seq<World>, acts: seq<Act>) {
    Leads(ttl, ws, acts) && ws[0] == World(ws[0].now, None, map[])
  }

  ghost predicate ActsAt(ttl: int, ws: seq<World>, acts: seq<Act>, k: nat)
    requires k < |acts| && k + 1 < |ws|
  {
    May(ws[k], acts[k]) && ws[k + 1] == Do(ttl, ws[k], acts[k])
  }

  /** A read and a write back with nothing between them, at the instant of the sample, are the atomic write. */
  lemma UninterruptedIsAtomic(ttl: int, w: World, tid: nat)
    requires tid in w.threads && w.threads[tid].got.None? && w.threads[tid].op.at == w.now
    ensures var read := Do(ttl, w, GetDoc(tid));
      Do(ttl, read, SetDoc(tid)) == w.(threads := w.threads - {tid}, slot := Write(w.slot, ttl, w.threads[tid].op))
  {
    var read := Do(ttl, w, GetDoc(tid));
    assert read.threads - {tid} == w.threads - {tid};
  }

  // ---- soundness ----

  /** One of the first `k` acts is a touch of this session that sampled the clock at `e.seen`. */
  predicate Genuine(acts: seq<Act>, k: nat, sid: string, e: Entry)
    requires k <= |acts|
  {
    exists j | 0 <= j < k :: acts[j].Sample? && acts[j].op.Touching? && acts[j].op.sid == sid
      && acts[j].op.at == e.seen && FamilyOf(acts[j].op.family) == e.family
  }

  predicate AllGenuine(acts: seq<Act>, k: nat, now: real, sessions: map<string, Entry>)
    requires k <= |acts|
  {
    forall sid | sid in sessions :: sessions[sid].seen <= now && Genuine(acts, k, sid, sessions[sid])
  }

  predicate ThreadOk(acts: seq<Act>, k: nat, now: real, th: Thread)
    requires k <= |acts|
  {
    && th.op.at <= now
    && (th.op.Touching? ==> Genuine(acts, k, th.op.sid, Entry(th.op.at, FamilyOf(th.op.family))))
    && (th.got.Some? ==> AllGenuine(acts, k, now, Sessions(th.got.value)))
  }

  /** Every entry stored or in flight was put there by a genuine touch. */
  predicate Sound(acts: seq<Act>, k: nat, w: World)
    requires k <= |acts|
  {
    && (w.slot.Some? ==> AllGenuine(acts, k, w.now, Sessions(Some(w.slot.value.value))))
    && (forall tid | tid in w.threads :: ThreadOk(acts, k, w.now, w.threads[tid]))
  }

  lemma GenuineLater(acts: seq<Act>, k: nat, now: real, later: real, sessions: map<string, Entry>)
    requires k < |acts| && now <= later && AllGenuine(acts, k, now, sessions)
    ensures AllGenuine(acts, k + 1, later, sessions)
  {
    forall sid | sid in sessions ensures Genuine(acts, k + 1, sid, sessions[sid]) {
      assert Genuine(acts, k, sid, sessions[sid]);
    }
  }

  lemma ThreadLater(acts: seq<Act>, k: nat, now: real, later: real, th: Thread)
    requires k < |acts| && now <= later && ThreadOk(acts, k, now, th)
    ensures ThreadOk(acts, k + 1, later, th)
  {
    if th.got.Some? { GenuineLater(acts, k, now, later, Sessions(th.got.value)); }
  }

  lemma WriteBackSound(acts: seq<Act>, k: nat, ttl: int, now: real, th: Thread)
    requires k <= |acts| && ThreadOk(acts, k, now, th) && th.got.Some? && WriteBack(ttl, th).Some?
    ensures AllGenuine(acts, k, now, WriteBack(ttl, th).value.sessions)
  {
  }

  lemma DoSound(ttl: int, acts: seq<Act>, k: nat, w: World)
    requires k < |acts| && Sound(acts, k, w) && May(w, acts[k])
    ensures Sound(acts, k + 1, Do(ttl, w, acts[k]))
  {
    hide Genuine, AllGenuine;
    var a, r := acts[k], Do(ttl, w, acts[k]);
    if w.slot.Some? { GenuineLater(acts, k, w.now, r.now, Sessions(Some(w.slot.value.value))); }
    forall tid | tid in w.threads ensures ThreadOk(acts, k + 1, r.now, w.threads[tid]) {
      ThreadLater(acts, k, w.now, r.now, w.threads[tid]);
    }
    match a
    case Tick(_) =>
    case Sample(tid, op) => SampleGenuine(acts, k, op);
    case GetDoc(tid) => NothingGenuine(acts, k + 1, r.now);
    case SetDoc(tid) =>
      if WriteBack(ttl, w.threads[tid]).Some? { WriteBackSound(acts, k + 1, ttl, r.now, w.threads[tid]); }
    case Crash(_) =>
  }

  lemma SampleGenuine(acts: seq<Act>, k: nat, op: Op)
    requires k < |acts| && acts[k].Sample? && acts[k].op == op
    ensures op.Touching? ==> Genuine(acts, k + 1, op.sid, Entry(op.at, FamilyOf(op.family)))
  {
  }

  lemma NothingGenuine(acts: seq<Act>, k: nat, now: real)
    requires k <= |acts|
    ensures AllGenuine(acts, k, now, map[])
  {
  }

  lemma {:induction false} AlwaysSound(ttl: int, ws: seq<World>, acts: seq<Act>, k: nat)
    requires IsTrace(ttl, ws, acts) && k < |ws|
    ensures Sound(acts, k, ws[k])
  {
    if k > 0 {
      AlwaysSound(ttl, ws, acts, k - 1);
      assert ActsAt(ttl, ws, acts, k - 1);
      DoSound(ttl, acts, k - 1, ws[k - 1]);
    }
  }

  /** Interleaved soundness: whatever the interleaving, the expiries and the lost threads, every session counted live
      comes from a genuine touch of that session and family, sampled within the last TTL. */
  lemma LiveIsGenuine(ttl: int, ws: seq<World>, acts: seq<Act>, k: nat, family: Option<string>, sid: string) returns (j: nat)
    requires IsTrace(ttl, ws, acts) && k < |ws|
    requires sid in LiveIds(Visible(ws[k]), family, ws[k].now, ttl)
    ensures j < k && acts[j].Sample? && acts[j].op.Touching? && acts[j].op.sid == sid
    ensures family.None? || FamilyOf(acts[j].op.family) == family
    ensures ws[k].now - ttl as real <= acts[j].op.at <= ws[k].now
  {
    AlwaysSound(ttl, ws, acts, k);
    var e := Visible(ws[k])[sid];
    assert Genuine(acts, k, sid, e);
    j :| 0 <= j < k && acts[j].Sample? && acts[j].op.Touching? && acts[j].op.sid == sid
      && acts[j].op.at == e.seen && FamilyOf(acts[j].op.family) == e.family;
  }

  /** A user with no touch sampled within the last TTL always reads as not live, with no sessions. */
  lemma UntouchedIsOffline(ttl: int, ws: seq<World>, acts: seq<Act>, k: nat, family: Option<string>)
    requires IsTrace(ttl, ws, acts) && k < |ws|
    requires forall j | 0 <= j < k && acts[j].Sample? && acts[j].op.Touching? :: acts[j].op.at < ws[k].now - ttl as real
    ensures var a := Snapshot(Fetch(ws[k].slot, ws[k].now), family, ws[k].now, ttl); !a.live && a.sessions == 0
  {
    var live := LiveIds(Visible(ws[k]), family, ws[k].now, ttl);
    if live != {} {
      var sid :| sid in live;
      var j := LiveIsGenuine(ttl, ws, acts, k, family, sid);
      assert false;
    }
  }

  // ---- lost updates ----

  predicate Holds(w: World, sid: string, e: Entry) { sid in Visible(w) && Visible(w)[sid] == e }

  /** The step at which a thread now holding a document read it. */
  lemma {:induction false} GotAt(ttl: int, ws: seq<World>, acts: seq<Act>, k: nat, tid: nat) returns (g: nat)
    requires IsTrace(ttl, ws, acts) && k < |ws| && tid in ws[k].threads && ws[k].threads[tid].got.Some?
    ensures g < k && acts[g] == GetDoc(tid) && ws[k].threads[tid].got == Some(Fetch(ws[g].slot, ws[g].now))
  {
    assert k > 0;
    assert ActsAt(ttl, ws, acts, k - 1);
    if acts[k - 1] == GetDoc(tid) {
      g := k - 1;
    } else {
      g := GotAt(ttl, ws, acts, k - 1, tid);
    }
  }

  /** A slot outlives the sessions in it: when the cache drops the entry, every session in it has run out. */
  predicate Lasting(ttl: int, w: World) {
    && (w.slot.Some? ==> forall sid | sid in Sessions(Some(w.slot.value.value)) ::
          Sessions(Some(w.slot.value.value))[sid].seen + ttl as real <= w.slot.value.expires)
  }

  lemma AlwaysLasting(ttl: int, ws: seq<World>, acts: seq<Act>, k: nat)
    requires IsTrace(ttl, ws, acts) && k < |ws|
    ensures Lasting(ttl, ws[k])
  {
    if k > 0 {
      AlwaysLasting(ttl, ws, acts, k - 1);
      AlwaysSound(ttl, ws, acts, k - 1);
      assert ActsAt(ttl, ws, acts, k - 1);
      var w := ws[k - 1];
      if acts[k - 1].SetDoc? && WriteBack(ttl, w.threads[acts[k - 1].tid]).Some? {
        WriteBackSound(acts, k - 1, ttl, w.now, w.threads[acts[k - 1].tid]);
      }
    }
  }

  /** The writer at step k is the session's own disconnect, or had read the document before step `landed`. */
  predicate Overwrites(ws: seq<World>, acts: seq<Act>, k: nat, landed: nat, sid: string)
    requires landed < k < |acts| && k < |ws| && acts[k].SetDoc?
  {
    var tid := acts[k].tid;
    tid in ws[k].threads &&
      ((ws[k].threads[tid].op.Leaving? && ws[k].threads[tid].op.sid == sid)
       || exists g | 0 <= g < landed :: acts[g] == GetDoc(tid) && ws[k].threads[tid].got == Some(Fetch(ws[g].slot, ws[g].now)))
  }

  /** Lost updates come only from overlap. A touch of `sid` lands at step `landed`, and its entry stays visible until
      step k, at which the session leaves the document. Then its lease has run out, or its own disconnect writes, or
      the writer at k had read the document before the landing. */
  lemma LostOnlyByOverlap(ttl: int, ws: seq<World>, acts: seq<Act>, landed: nat, k: nat, sid: string, e: Entry)
    requires IsTrace(ttl, ws, acts) && landed < k < |acts|
    requires acts[landed].SetDoc? && forall i | landed < i <= k :: Holds(ws[i], sid, e)
    requires sid !in Visible(ws[k + 1])
    ensures ws[k + 1].now - e.seen >= ttl as real || (acts[k].SetDoc? && Overwrites(ws, acts, k, landed, sid))
  {
    AlwaysLasting(ttl, ws, acts, k);
    AlwaysSound(ttl, ws, acts, k);
    assert ActsAt(ttl, ws, acts, k);
    assert Holds(ws[k], sid, e);
    if acts[k].SetDoc? {
      var tid := acts[k].tid;
      var g := GotAt(ttl, ws, acts, k, tid);
      if g > landed {
        assert Holds(ws[g], sid, e);
        assert ThreadOk(acts, k, ws[k].now, ws[k].threads[tid]);
      }
    }
  }

  /** Between two worlds nobody else writes. */
  predicate QuietBetween(acts: seq<Act>, g: nat, s: nat) { forall i | g < i < s && i < |acts| :: !acts[i].SetDoc? }

  lemma {:induction false} QuietKeepsSlot(ttl: int, ws: seq<World>, acts: seq<Act>, g: nat, s: nat)
    requires IsTrace(ttl, ws, acts) && g < s < |ws| && QuietBetween(acts, g, s) && !acts[g].SetDoc?
    ensures ws[s].slot == ws[g].slot && ws[g].now <= ws[s].now
    decreases s
  {
    assert ActsAt(ttl, ws, acts, s - 1);
    if s > g + 1 {
      QuietKeepsSlot(ttl, ws, acts, g, s - 1);
    }
  }

  /** A touch that nobody overlaps restores its session and loses no other: everything visible just before its write
      whose lease had not run out at its clock sample is still there after it. */
  lemma QuietTouchRestores(ttl: int, ws: seq<World>, acts: seq<Act>, g: nat, s: nat, tid: nat)
    requires IsTrace(ttl, ws, acts) && g < s < |acts| && acts[g] == GetDoc(tid) && acts[s] == SetDoc(tid)
    requires QuietBetween(acts, g, s) && (forall i | g < i < s :: acts[i] != Crash(tid))
    ensures tid in ws[s].threads
    ensures var op := ws[s].threads[tid].op;
      op.Touching? ==>
        && Holds(ws[s + 1], op.sid, Entry(op.at, FamilyOf(op.family)))
        && forall sid | sid in Visible(ws[s]) && sid != op.sid && Alive(Visible(ws[s])[sid], op.at, ttl) ::
             Holds(ws[s + 1], sid, Visible(ws[s])[sid])
  {
    assert ActsAt(ttl, ws, acts, s);
    QuietKeepsSlot(ttl, ws, acts, g, s);
    OwnGet(ttl, ws, acts, g, s, tid);
  }

  lemma {:induction false} OwnGet(ttl: int, ws: seq<World>, acts: seq<Act>, g: nat, s: nat, tid: nat)
    requires IsTrace(ttl, ws, acts) && g < s < |ws| && acts[g] == GetDoc(tid)
    requires QuietBetween(acts, g, s) && forall i | g < i < s :: acts[i] != Crash(tid)
    ensures tid in ws[s].threads && ws[s].threads[tid].got == Some(Fetch(ws[g].slot, ws[g].now))
    decreases s
  {
    assert ActsAt(ttl, ws, acts, s - 1);
    if s > g + 1 {
      OwnGet(ttl, ws, acts, g, s - 1, tid);
    }
  }

  // ---- how long a touch lasts under races ----

  predicate Renewed(sessions: map<string, Entry>, sid: string, at: real, family: Option<string>) {
    sid in sessions && sessions[sid].seen >= at && sessions[sid].family == FamilyOf(family)
  }

  /** At step `landed` the touch of `sid` sampled at `at` is written. */
  predicate Lands(ws: seq<World>, acts: seq<Act>, landed: nat, sid: string, family: Option<string>, at: real)
    requires landed < |acts| && landed < |ws|
  {
    acts[landed].SetDoc? && acts[landed].tid in ws[landed].threads
    && ws[landed].threads[acts[landed].tid].op == Touching(sid, family, at)
  }

  /** This thread read the document after step `landed`. */
  predicate ReadSince(acts: seq<Act>, landed: nat, k: nat, tid: nat)
    requires k <= |acts|
  {
    exists g | landed < g < k :: acts[g] == GetDoc(tid)
  }

  /** Between `landed` and `k` only threads write that read after the landing, and of `sid` only later touches. */
  predicate Undisturbed(ws: seq<World>, acts: seq<Act>, landed: nat, k: nat, sid: string, family: Option<string>, at: real)
    requires k <= |acts| && k < |ws|
  {
    forall i | landed < i < k && acts[i].SetDoc? ::
      && acts[i].tid in ws[i].threads && ReadSince(acts, landed, i, acts[i].tid)
      && var op := ws[i].threads[acts[i].tid].op;
         op.sid == sid ==> op.Touching? && op.at >= at && FamilyOf(op.family) == FamilyOf(family)
  }

  function Kept(w: World): map<string, Entry> { if w.slot.Some? then Sessions(Some(w.slot.value.value)) else map[] }

  lemma WriteBackRenews(ttl: int, th: Thread, sid: string, family: Option<string>, at: real)
    requires th.got.Some? && Renewed(Sessions(th.got.value), sid, at, family) && th.op.at <= at + ttl as real
    requires th.op.sid == sid ==> th.op.Touching? && th.op.at >= at && FamilyOf(th.op.family) == FamilyOf(family)
    ensures WriteBack(ttl, th).Some? && Renewed(WriteBack(ttl, th).value.sessions, sid, at, family)
  {
  }

  lemma TouchRenews(ttl: int, th: Thread, sid: string, family: Option<string>, at: real)
    requires th.op == Touching(sid, family, at) && th.got.Some?
    ensures WriteBack(ttl, th).Some? && Renewed(WriteBack(ttl, th).value.sessions, sid, at, family)
  {
  }

  lemma {:induction false} RenewalLasts(ttl: int, ws: seq<World>, acts: seq<Act>, landed: nat, k: nat,
                                        sid: string, family: Option<string>, at: real)
    requires IsTrace(ttl, ws, acts) && landed < k < |ws| && Lands(ws, acts, landed, sid, family, at)
    requires Undisturbed(ws, acts, landed, k, sid, family, at) && ws[k].now < at + ttl as real
    ensures Renewed(Kept(ws[k]), sid, at, family)
    ensures forall tid | tid in ws[k].threads && ws[k].threads[tid].got.Some? && ReadSince(acts, landed, k, tid) ::
      Renewed(Sessions(ws[k].threads[tid].got.value), sid, at, family)
    decreases k
  {
    hide Genuine, AllGenuine, Alive, Prune, WriteBack;
    assert ActsAt(ttl, ws, acts, k - 1);
    AlwaysSound(ttl, ws, acts, k - 1);
    AlwaysLasting(ttl, ws, acts, k - 1);
    if k == landed + 1 {
      TouchRenews(ttl, ws[landed].threads[acts[landed].tid], sid, family, at);
    } else {
      var w, a := ws[k - 1], acts[k - 1];
      RenewalLasts(ttl, ws, acts, landed, k - 1, sid, family, at);
      assert Renewed(Sessions(Fetch(w.slot, w.now)), sid, at, family);
      if a.SetDoc? {
        assert ThreadOk(acts, k - 1, w.now, w.threads[a.tid]);
        WriteBackRenews(ttl, w.threads[a.tid], sid, family, at);
      }
      forall tid | tid in ws[k].threads && ws[k].threads[tid].got.Some? && ReadSince(acts, landed, k, tid)
        ensures Renewed(Sessions(ws[k].threads[tid].got.value), sid, at, family)
      {
        if a != GetDoc(tid) {
          assert ReadSince(acts, landed, k - 1, tid);
        }
      }
    }
  }

  /** Under any interleaving a landed touch keeps its session live, for its family and for the unscoped question, until one
      TTL after its sample, as long as no writer that had read before the landing, and no older write of the session,
      lands in between. */
  lemma UndisturbedIsLive(ttl: int, ws: seq<World>, acts: seq<Act>, landed: nat, k: nat,
                          sid: string, family: Option<string>, at: real)
    requires IsTrace(ttl, ws, acts) && landed < k < |ws| && Lands(ws, acts, landed, sid, family, at)
    requires Undisturbed(ws, acts, landed, k, sid, family, at) && ws[k].now < at + ttl as real
    ensures Snapshot(Fetch(ws[k].slot, ws[k].now), None, ws[k].now, ttl).live
    ensures Snapshot(Fetch(ws[k].slot, ws[k].now), FamilyOf(family), ws[k].now, ttl).live
  {
    RenewalLasts(ttl, ws, acts, landed, k, sid, family, at);
    AlwaysLasting(ttl, ws, acts, k);
    var w := ws[k];
    assert Renewed(Visible(w), sid, at, family);
    assert sid in LiveIds(Visible(w), None, w.now, ttl) && sid in LiveIds(Visible(w), FamilyOf(family), w.now, ttl);
  }

  // ---- when a session can come back ----

  /** The entry of `sid` a thread in flight is about to write: its own touch of `sid`, or what it read before, unless it
      is the disconnect of `sid` or would prune the entry. */
  function Carried(ttl: int, th: Thread, sid: string): Option<Entry> {
    if th.op.sid == sid then
      if th.op.Touching? then Some(Entry(th.op.at, FamilyOf(th.op.family))) else None
    else if th.got.Some? && sid in Sessions(th.got.value) && Alive(Sessions(th.got.value)[sid], th.op.at, ttl) then
      Some(Sessions(th.got.value)[sid])
    else None
  }

  /** What `w` may still show of `sid` without a new touch is among `entries`. */
  predicate Stems(ttl: int, w: World, sid: string, entries: set<Entry>) {
    && (sid in Visible(w) ==> Visible(w)[sid] in entries)
    && forall tid | tid in w.threads && Carried(ttl, w.threads[tid], sid).Some? ::
         Carried(ttl, w.threads[tid], sid).value in entries
  }

  predicate Touches(a: Act, sid: string) { a.Sample? && a.op.Touching? && a.op.sid == sid }

  /** The entries of `sid` in flight. */
  function InFlight(ttl: int, w: World, sid: string): set<Entry> {
    set tid | tid in w.threads && Carried(ttl, w.threads[tid], sid).Some? :: Carried(ttl, w.threads[tid], sid).value
  }

  lemma DoStems(ttl: int, w: World, a: Act, sid: string, entries: set<Entry>)
    requires ttl > 0 && May(w, a) && Stems(ttl, w, sid, entries) && !Touches(a, sid)
    ensures Stems(ttl, Do(ttl, w, a), sid, entries)
  {
  }

  lemma {:induction false} StaysStemming(ttl: int, ws: seq<World>, acts: seq<Act>, k: nat, sid: string, entries: set<Entry>)
    requires Leads(ttl, ws, acts) && k < |ws| && Stems(ttl, ws[0], sid, entries)
    requires forall i | 0 <= i < |acts| :: !Touches(acts[i], sid)
    ensures Stems(ttl, ws[k], sid, entries)
  {
    if k > 0 {
      StaysStemming(ttl, ws, acts, k - 1, sid, entries);
      assert ActsAt(ttl, ws, acts, k - 1);
      DoStems(ttl, ws[k - 1], acts[k - 1], sid, entries);
    }
  }

  /** Time does not run backwards. */
  lemma {:induction false} TimePasses(ttl: int, ws: seq<World>, acts: seq<Act>, k: nat)
    requires Leads(ttl, ws, acts) && k < |ws|
    ensures ws[0].now <= ws[k].now
  {
    if k > 0 {
      TimePasses(ttl, ws, acts, k - 1);
      assert ActsAt(ttl, ws, acts, k - 1);
    }
  }

  /** A session that is not visible shows again without a new touch only as an entry that was in flight. */
  lemma ReturnsOnlyCarried(ttl: int, ws: seq<World>, acts: seq<Act>, k: nat, sid: string)
    requires Leads(ttl, ws, acts) && k < |ws| && sid !in Visible(ws[0])
    requires forall i | 0 <= i < |acts| :: !Touches(acts[i], sid)
    requires sid in Visible(ws[k])
    ensures Visible(ws[k])[sid] in InFlight(ttl, ws[0], sid)
  {
    StaysStemming(ttl, ws, acts, k, sid, InFlight(ttl, ws[0], sid));
  }

  /** `sid` is counted live at the end of some continuation of `w` in which nobody touches it anew. */
  ghost predicate CanReturn(ttl: int, w: World, sid: string) {
    exists ws, acts :: ComesBack(ttl, w, sid, ws, acts)
  }

  ghost predicate ComesBack(ttl: int, w: World, sid: string, ws: seq<World>, acts: seq<Act>) {
    && Leads(ttl, ws, acts) && ws[0] == w && (forall i | 0 <= i < |acts| :: !Touches(acts[i], sid))
    && sid in LiveIds(Visible(ws[|acts|]), None, ws[|acts|].now, ttl)
  }

  /** Some thread in flight carries an entry of `sid` whose lease still runs. */
  predicate Overlapped(ttl: int, w: World, sid: string) { exists e | e in InFlight(ttl, w, sid) :: Alive(e, w.now, ttl) }

  /** Finishing the carrier at once shows what it carries. */
  lemma FinishCarrier(ttl: int, w: World, sid: string, tid: nat) returns (ws: seq<World>, acts: seq<Act>)
    requires ttl > 0 && tid in w.threads && Carried(ttl, w.threads[tid], sid).Some?
    ensures Leads(ttl, ws, acts) && ws[0] == w && (forall i | 0 <= i < |acts| :: acts[i] == GetDoc(tid) || acts[i] == SetDoc(tid))
    ensures ws[|acts|].now == w.now && Holds(ws[|acts|], sid, Carried(ttl, w.threads[tid], sid).value)
  {
    if w.threads[tid].got.Some? {
      acts := [SetDoc(tid)];
      ws := [w, Do(ttl, w, SetDoc(tid))];
    } else {
      var read := Do(ttl, w, GetDoc(tid));
      acts := [GetDoc(tid), SetDoc(tid)];
      ws := [w, read, Do(ttl, read, SetDoc(tid))];
    }
  }

  /** When a race over-counts: a session that is not visible can be counted live again without a new touch if and only
      if a thread in flight carries an entry of it whose lease still runs. */
  lemma ReturnsExactly(ttl: int, w: World, sid: string)
    requires ttl > 0 && sid !in Visible(w)
    ensures CanReturn(ttl, w, sid) <==> Overlapped(ttl, w, sid)
  {
    if CanReturn(ttl, w, sid) {
      var ws, acts :| ComesBack(ttl, w, sid, ws, acts);
      ReturnsOnlyCarried(ttl, ws, acts, |acts|, sid);
      TimePasses(ttl, ws, acts, |acts|);
      assert Alive(Visible(ws[|acts|])[sid], w.now, ttl);
    }
    if Overlapped(ttl, w, sid) {
      var e :| e in InFlight(ttl, w, sid) && Alive(e, w.now, ttl);
      var tid :| tid in w.threads && Carried(ttl, w.threads[tid], sid) == Some(e);
      var ws, acts := FinishCarrier(ttl, w, sid, tid);
      assert ComesBack(ttl, w, sid, ws, acts);
    }
  }

  /** Before step k the session was touched, or this thread read the document. */
  predicate Overlaps(acts: seq<Act>, k: nat, sid: string, tid: nat)
    requires k <= |acts|
  {
    (exists j | 0 <= j < k :: Touches(acts[j], sid)) || (exists g | 0 <= g < k :: acts[g] == GetDoc(tid))
  }

  /** On a trace: just after the write of a disconnect that found a document, its session is gone, and it can be counted
      again without a new touch if and only if a write that overlapped the disconnect carries it: a touch of the session
      sampled before, or another write that had read the document before. */
  lemma DisconnectedReturnsExactly(ttl: int, ws: seq<World>, acts: seq<Act>, k: nat, sid: string)
    requires IsTrace(ttl, ws, acts) && k < |acts| && acts[k].SetDoc? && acts[k].tid in ws[k].threads
    requires var th := ws[k].threads[acts[k].tid]; th.op.Leaving? && th.op.sid == sid && th.got.Some? && WriteBack(ttl, th).Some?
    ensures sid !in Visible(ws[k + 1])
    ensures CanReturn(ttl, ws[k + 1], sid) <==> Overlapped(ttl, ws[k + 1], sid)
    ensures forall tid | tid in ws[k + 1].threads && Carried(ttl, ws[k + 1].threads[tid], sid).Some? ::
      Overlaps(acts, k, sid, tid)
  {
    assert ActsAt(ttl, ws, acts, k);
    ReturnsExactly(ttl, ws[k + 1], sid);
    forall tid | tid in ws[k + 1].threads && Carried(ttl, ws[k + 1].threads[tid], sid).Some?
      ensures Overlaps(acts, k, sid, tid)
    {
      var th := ws[k].threads[tid];
      AlwaysSound(ttl, ws, acts, k);
      if th.op.sid == sid {
        assert Genuine(acts, k, sid, Entry(th.op.at, FamilyOf(th.op.family)));
        var j :| 0 <= j < k && acts[j].Sample? && acts[j].op.Touching? && acts[j].op.sid == sid;
        assert Touches(acts[j], sid);
      } else {
        var g := GotAt(ttl, ws, acts, k, tid);
      }
    }
  }

  /** One write sampled and read, but not yet written back. */
  lemma Reading(ttl: int, w: World, tid: nat, op: Op) returns (sampled: World, got: World)
    requires tid !in w.threads && op.at == w.now
    ensures May(w, Sample(tid, op)) && sampled == Do(ttl, w, Sample(tid, op))
    ensures May(sampled, GetDoc(tid)) && got == Do(ttl, sampled, GetDoc(tid))
    ensures got == w.(threads := w.threads[tid := Thread(op, Some(Fetch(w.slot, w.now)))])
  {
    sampled := Do(ttl, w, Sample(tid, op));
    got := Do(ttl, sampled, GetDoc(tid));
    assert got.threads == w.threads[tid := Thread(op, Some(Fetch(w.slot, w.now)))];
  }

  /** One write sampled, read and written back with nothing in between. */
  lemma Alone(ttl: int, w: World, tid: nat, op: Op) returns (sampled: World, got: World, written: World)
    requires tid !in w.threads && op.at == w.now
    ensures May(w, Sample(tid, op)) && sampled == Do(ttl, w, Sample(tid, op))
    ensures May(sampled, GetDoc(tid)) && got == Do(ttl, sampled, GetDoc(tid))
    ensures got.threads == w.threads[tid := Thread(op, Some(Fetch(w.slot, w.now)))]
    ensures May(got, SetDoc(tid)) && written == Do(ttl, got, SetDoc(tid))
    ensures written == World(w.now, Write(w.slot, ttl, op), w.threads)
  {
    sampled, got := Reading(ttl, w, tid, op);
    written := Do(ttl, got, SetDoc(tid));
    assert written.threads == w.threads;
  }

  /** The slot after the first touch, after the disconnect, and after the write back of the overlapping touch. */
  lemma Resurrected(ttl: int, t0: real, sid: string, touched: Option<Lease>, left: Option<Lease>, back: Option<Lease>)
    requires ttl > 0 && touched == Write(None, ttl, Touching(sid, None, t0)) && left == Write(touched, ttl, Leaving(sid, t0))
    requires back == Some(Lease(Document(TouchDoc(Fetch(touched, t0), ttl, sid, None, t0)), t0 + ttl as real))
    ensures LiveIds(Sessions(Fetch(left, t0)), None, t0, ttl) == {}
    ensures forall t | t0 <= t < t0 + ttl as real :: sid in LiveIds(Sessions(Fetch(back, t)), None, t, ttl)
  {
  }

  /** The other direction of error exists too: a heartbeat that read the document before its socket's disconnect landed
      writes the session back, and the disconnected session counts as live again until its lease runs out. */
  lemma DisconnectedComesBack(ttl: int, t0: real, sid: string) returns (ws: seq<World>, acts: seq<Act>)
    requires ttl > 0
    ensures IsTrace(ttl, ws, acts) && |acts| == 9
    ensures acts[7] == SetDoc(3) && ws[7].threads.Keys == {2, 3} && ws[7].threads[3].op == Leaving(sid, t0)
    ensures LiveIds(Visible(ws[8]), None, t0, ttl) == {}
    ensures forall t | t0 <= t < t0 + ttl as real :: sid in LiveIds(Sessions(Fetch(ws[9].slot, t)), None, t, ttl)
  {
    var w0 := World(t0, None, map[]);
    var w1, w2, w3 := Alone(ttl, w0, 1, Touching(sid, None, t0));
    var w4, w5 := Reading(ttl, w3, 2, Touching(sid, None, t0));
    var w6, w7, w8 := Alone(ttl, w5, 3, Leaving(sid, t0));
    assert w8.threads == map[2 := w5.threads[2]];
    var w9 := Do(ttl, w8, SetDoc(2));
    Resurrected(ttl, t0, sid, w3.slot, w8.slot, w9.slot);
    assert LiveIds(Visible(w8), None, t0, ttl) == {};
    hide May, Do, LiveIds, Write, Visible, Fetch, Sessions;
    acts := [Sample(1, Touching(sid, None, t0)), GetDoc(1), SetDoc(1), Sample(2, Touching(sid, None, t0)), GetDoc(2),
             Sample(3, Leaving(sid, t0)), GetDoc(3), SetDoc(3), SetDoc(2)];
    ws := [w0, w1, w2, w3, w4, w5, w6, w7, w8, w9];
    forall k | 0 <= k < 9 ensures ActsAt(ttl, ws, acts, k) { }
  }
}
