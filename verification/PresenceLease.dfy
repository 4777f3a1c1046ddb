/** Presence with atomic operations refines a registry that never prunes and never expires. */
module PresenceLease {
  import opened Wrappers
  import opened Presence

  function Slots(ttl: int, ops: seq<Op>): Option<Lease> {
    if ops == [] then None else Write(Slots(ttl, ops[..|ops| - 1]), ttl, ops[|ops| - 1])
  }

  /** The reference registry: what every session last said, and when the last counting write was. */
  datatype Ledger = Ledger(sessions: map<string, Entry>, lastWrite: Option<real>)

  /** The entry of a user lives for one TTL after the last write. */
  predicate EntryLives(l: Ledger, ttl: int, t: real) { l.lastWrite.Some? && t < l.lastWrite.value + ttl as real }

  function Note(l: Ledger, ttl: int, op: Op): Ledger {
    match op
    case Touching(sid, family, at) => Ledger(l.sessions[sid := Entry(at, FamilyOf(family))], Some(at))
    case Leaving(sid, at) => Ledger(l.sessions - {sid}, if EntryLives(l, ttl, at) then Some(at) else l.lastWrite)
  }

  function Notes(ttl: int, ops: seq<Op>): Ledger {
    if ops == [] then Ledger(map[], None) else Note(Notes(ttl, ops[..|ops| - 1]), ttl, ops[|ops| - 1])
  }

  predicate Ordered(ops: seq<Op>) { forall i, j | 0 <= i < j < |ops| :: ops[i].at <= ops[j].at }

  /** While the entry lives, the document holds ledger sessions only, and all of them whose lease has not run out. */
  predicate Agrees(slot: Option<Lease>, l: Ledger, ttl: int, t: real) {
    && (forall sid | sid in l.sessions :: l.lastWrite.Some? && l.sessions[sid].seen <= l.lastWrite.value)
    && (slot.None? <==> l.lastWrite.None?)
    && (slot.Some? ==>
          && l.lastWrite.value <= t
          && slot.value.expires == l.lastWrite.value + ttl as real
          && slot.value.value.Document?
          && slot.value.value.doc.lastSeen == l.lastWrite.value
          && (t < slot.value.expires ==> Covers(slot.value.value.doc.sessions, l.sessions, ttl, t)))
  }

  predicate Covers(doc: map<string, Entry>, all: map<string, Entry>, ttl: int, t: real) {
    && (forall sid | sid in doc :: sid in all && all[sid] == doc[sid])
    && (forall sid | sid in all :: sid in doc || all[sid].seen + ttl as real <= t)
  }

  lemma AgreesLater(slot: Option<Lease>, l: Ledger, ttl: int, t: real, later: real)
    requires Agrees(slot, l, ttl, t) && t <= later
    ensures Agrees(slot, l, ttl, later)
  {
  }

  lemma WriteAgrees(slot: Option<Lease>, l: Ledger, ttl: int, op: Op)
    requires ttl > 0 && Agrees(slot, l, ttl, op.at)
    ensures Agrees(Write(slot, ttl, op), Note(l, ttl, op), ttl, op.at)
  {
  }

  lemma {:induction false} AlwaysAgrees(ttl: int, ops: seq<Op>, t: real)
    requires ttl > 0 && Ordered(ops) && (ops != [] ==> ops[|ops| - 1].at <= t)
    ensures Agrees(Slots(ttl, ops), Notes(ttl, ops), ttl, t)
  {
    if ops != [] {
      var before, op := ops[..|ops| - 1], ops[|ops| - 1];
      AlwaysAgrees(ttl, before, op.at);
      WriteAgrees(Slots(ttl, before), Notes(ttl, before), ttl, op);
      AgreesLater(Slots(ttl, ops), Notes(ttl, ops), ttl, op.at, t);
    }
  }

  /** A session whose lease runs out exactly at `t`. */
  predicate OnTheEdge(sessions: map<string, Entry>, ttl: int, sid: string, t: real) {
    sid in sessions && sessions[sid].seen + ttl as real == t
  }

  /** The unscoped `last_seen` is the last write while the entry lives, and nothing after. (A write at epoch 0 is
      falsy in the code and reads as none.) */
  predicate LastSeenRight(a: Answer, l: Ledger, ttl: int, t: real) {
    && (EntryLives(l, ttl, t) && l.lastWrite.value != 0.0 ==> a.lastSeen == Some(l.lastWrite.value))
    && (!EntryLives(l, ttl, t) ==> a.lastSeen == None)
  }

  /** Presence refinement: pruning on write and the cache timeout are unobservable. At any read time after any ordered
      writes, for every family, the sessions counted are those of the ledger, save possibly some whose lease ends at
      that exact instant; and the unscoped `last_seen` is right. */
  lemma RefinesLedger(ttl: int, ops: seq<Op>, t: real, family: Option<string>)
    requires ttl > 0 && Ordered(ops) && (ops != [] ==> ops[|ops| - 1].at <= t)
    ensures var stored, l := Fetch(Slots(ttl, ops), t), Notes(ttl, ops);
      var counted, due := LiveIds(Sessions(stored), family, t, ttl), LiveIds(l.sessions, family, t, ttl);
      && counted <= due
      && (forall sid | sid in due && sid !in counted :: OnTheEdge(l.sessions, ttl, sid, t))
      && ((forall sid | sid in l.sessions :: !OnTheEdge(l.sessions, ttl, sid, t)) ==>
            Snapshot(stored, family, t, ttl).sessions == |due| && Snapshot(stored, family, t, ttl).live == (due != {}))
      && LastSeenRight(Snapshot(stored, None, t, ttl), l, ttl, t)
  {
    AlwaysAgrees(ttl, ops, t);
    var stored, l := Fetch(Slots(ttl, ops), t), Notes(ttl, ops);
    var counted, due := LiveIds(Sessions(stored), family, t, ttl), LiveIds(l.sessions, family, t, ttl);
    forall sid | sid in due && sid !in counted ensures OnTheEdge(l.sessions, ttl, sid, t) {
      assert l.sessions[sid].seen + ttl as real <= t;
    }
    if forall sid | sid in l.sessions :: !OnTheEdge(l.sessions, ttl, sid, t) {
      assert counted == due;
    }
    LastSeenIsLastWrite(stored, l, ttl, t);
  }

  lemma LastSeenIsLastWrite(stored: Option<Stored>, l: Ledger, ttl: int, t: real)
    requires stored.Some? <==> EntryLives(l, ttl, t)
    requires stored.Some? ==> (stored.value.Document? && stored.value.doc.lastSeen == l.lastWrite.value)
    requires stored.Some? ==> forall sid | sid in Sessions(stored) :: Sessions(stored)[sid].seen <= l.lastWrite.value
    ensures LastSeenRight(Snapshot(stored, None, t, ttl), l, ttl, t)
  {
    if EntryLives(l, ttl, t) && l.lastWrite.value != 0.0 {
      assert l.lastWrite.value in Candidates(stored, None);
    }
  }

  // ---- the last_seen of one family ----

  /** What pruning has dropped had run out by the last write; what it kept had not. */
  predicate PrunedAtWrite(slot: Option<Lease>, l: Ledger, ttl: int) {
    slot.Some? && l.lastWrite.Some? ==>
      var kept, last := Sessions(Some(slot.value.value)), l.lastWrite.value;
      && (forall sid | sid in l.sessions && sid !in kept :: l.sessions[sid].seen + ttl as real <= last)
      && (forall sid | sid in kept :: last <= kept[sid].seen + ttl as real)
  }

  lemma WritePrunes(slot: Option<Lease>, l: Ledger, ttl: int, op: Op)
    requires ttl > 0 && Agrees(slot, l, ttl, op.at) && PrunedAtWrite(slot, l, ttl)
    ensures PrunedAtWrite(Write(slot, ttl, op), Note(l, ttl, op), ttl)
  {
  }

  lemma {:induction false} AlwaysPruned(ttl: int, ops: seq<Op>)
    requires ttl > 0 && Ordered(ops)
    ensures PrunedAtWrite(Slots(ttl, ops), Notes(ttl, ops), ttl)
  {
    if ops != [] {
      var before, op := ops[..|ops| - 1], ops[|ops| - 1];
      AlwaysPruned(ttl, before);
      AlwaysAgrees(ttl, before, op.at);
      WritePrunes(Slots(ttl, before), Notes(ttl, before), ttl, op);
    }
  }

  /** When the sessions of a family were last seen, according to the ledger. */
  function SeenIn(l: Ledger, family: Option<string>): set<real> {
    set sid | sid in l.sessions && Matches(l.sessions[sid], family) :: l.sessions[sid].seen
  }

  /** The `last_seen` of a family is the newest one of the ledger while the entry lives and that session's lease had not run
      out by the last write, and none otherwise; where the lease ended exactly at the last write, it is one or the other. */
  lemma FamilyLastSeen(ttl: int, ops: seq<Op>, t: real, family: Option<string>)
    requires ttl > 0 && Ordered(ops) && (ops != [] ==> ops[|ops| - 1].at <= t) && family.Some?
    ensures var a, l := Snapshot(Fetch(Slots(ttl, ops), t), family, t, ttl), Notes(ttl, ops);
      if !EntryLives(l, ttl, t) || SeenIn(l, family) == {} then a.lastSeen == None
      else
        var newest, ran := Newest(SeenIn(l, family)), l.lastWrite.value - ttl as real;
        && (newest > ran && newest != 0.0 ==> a.lastSeen == Some(newest))
        && (newest < ran || newest == 0.0 ==> a.lastSeen == None)
        && (newest == ran ==> a.lastSeen == Some(newest) || a.lastSeen == None)
  {
    AlwaysAgrees(ttl, ops, t);
    AlwaysPruned(ttl, ops);
    var stored, l := Fetch(Slots(ttl, ops), t), Notes(ttl, ops);
    var seen, kept := SeenIn(l, family), Candidates(stored, family);
    if kept != {} {
      var m := Newest(kept);
      assert m in seen;
      var newest := Newest(seen);
      var sid :| sid in l.sessions && Matches(l.sessions[sid], family) && l.sessions[sid].seen == newest;
      if sid in Sessions(stored) {
        assert newest in kept;
      }
      assert m == newest;
    } else if seen != {} {
      var newest := Newest(seen);
      var sid :| sid in l.sessions && Matches(l.sessions[sid], family) && l.sessions[sid].seen == newest;
      assert sid !in Sessions(stored) by { assert newest !in kept; }
    }
  }
}
