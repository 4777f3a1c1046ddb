/** The presence registry (presence.py): a document per user in a cache with expiry times, rewritten whole on
    every touch and disconnect, and read through each session's own lease. */
module Presence {
  import opened Wrappers

  /** One session of a user: when it was last seen and which stream family it counts towards. */
  datatype Entry = Entry(seen: real, family: Option<string>)

  datatype Doc = Doc(sessions: map<string, Entry>, lastSeen: real)

  /** What the cache may hold under a key: a document, or something that is no mapping. */
  datatype Stored = Document(doc: Doc) | Junk

  datatype Lease = Lease(value: Stored, expires: real)

  /** `cache.get` at time `t`: an entry is gone from the instant it expires. */
  function Fetch(slot: Option<Lease>, t: real): Option<Stored> {
    if slot.Some? && t < slot.value.expires then Some(slot.value.value) else None
  }

  // ---- documents ----

  /** `_sessions()`. */
  function Sessions(stored: Option<Stored>): map<string, Entry> {
    if stored.Some? && stored.value.Document? then stored.value.doc.sessions else map[]
  }

  predicate Alive(e: Entry, now: real, ttl: int) { now - e.seen <= ttl as real }

  /** `_prune()`. */
  function Prune(sessions: map<string, Entry>, now: real, ttl: int): map<string, Entry> {
    map sid | sid in sessions && Alive(sessions[sid], now, ttl) :: sessions[sid]
  }

  /** `family or None`. */
  function FamilyOf(family: Option<string>): Option<string> { if family == Some("") then None else family }

  /** The document `_touch` writes back. */
  function TouchDoc(stored: Option<Stored>, ttl: int, sid: string, family: Option<string>, now: real): Doc {
    Doc(Prune(Sessions(stored), now, ttl)[sid := Entry(now, FamilyOf(family))], now)
  }

  /** The document `record_disconnect` writes back; None when there is no mapping to rewrite. */
  function LeaveDoc(stored: Option<Stored>, ttl: int, sid: string, now: real): Option<Doc> {
    if stored.Some? && stored.value.Document? then Some(Doc(Prune(Sessions(stored) - {sid}, now, ttl), now)) else None
  }

  // ---- writing ----

  /** One atomic write for one user, at the clock reading it samples. */
  datatype Op =
    | Touching(sid: string, family: Option<string>, at: real)
    | Leaving(sid: string, at: real)

  /** The user's cache slot after `op`. */
  function Write(slot: Option<Lease>, ttl: int, op: Op): Option<Lease> {
    match op
    case Touching(sid, family, at) =>
      Some(Lease(Document(TouchDoc(Fetch(slot, at), ttl, sid, family, at)), at + ttl as real))
    case Leaving(sid, at) =>
      match LeaveDoc(Fetch(slot, at), ttl, sid, at)
      case None => slot
      case Some(doc) => Some(Lease(Document(doc), at + ttl as real))
  }

  // ---- reading ----

  datatype Answer = Answer(live: bool, sessions: nat, lastSeen: Option<real>)

  const OFFLINE := Answer(false, 0, None)

  predicate Matches(e: Entry, family: Option<string>) { family.None? || e.family == family }

  /** The sessions of a family whose lease has not run out. */
  function LiveIds(sessions: map<string, Entry>, family: Option<string>, now: real, ttl: int): set<string> {
    set sid | sid in sessions && Matches(sessions[sid], family) && Alive(sessions[sid], now, ttl)
  }

  lemma {:induction false} HasNewest(xs: set<real>)
    requires xs != {}
    ensures exists m :: m in xs && forall x | x in xs :: x <= m
  {
    assert (forall y :: y !in xs) ==> xs == {};
    var y :| y in xs;
    var rest := xs - {y};
    if rest == {} {
      assert xs == {y};
      assert y in xs && forall x | x in xs :: x <= y;
    } else {
      HasNewest(rest);
      var m :| m in rest && forall x | x in rest :: x <= m;
      var top := if y > m then y else m;
      assert top in xs && forall x | x in xs :: x <= top by {
        forall x | x in xs ensures x <= top { assert x == y || x in rest; }
      }
    }
  }

  function Newest(xs: set<real>): real
    requires xs != {}
  {
    HasNewest(xs);
    var m :| m in xs && forall x | x in xs :: x <= m;
    m
  }

  /** What `_iso` makes of an epoch, kept as a number: None for a falsy one. */
  function Iso(epoch: real): Option<real> { if epoch == 0.0 then None else Some(epoch) }

  function Candidates(stored: Option<Stored>, family: Option<string>): set<real> {
    var sessions := Sessions(stored);
    (set sid | sid in sessions && Matches(sessions[sid], family) :: sessions[sid].seen)
    + (if family.None? && stored.Some? && stored.value.Document? && stored.value.doc.lastSeen != 0.0
       then {stored.value.doc.lastSeen} else {})
  }

  /** `_snapshot()`. */
  function Snapshot(stored: Option<Stored>, family: Option<string>, now: real, ttl: int): Answer {
    var live := LiveIds(Sessions(stored), family, now, ttl);
    var candidates := Candidates(stored, family);
    Answer(live != {}, |live|, if candidates == {} then None else Iso(Newest(candidates)))
  }

  // ---- keys ----

  predicate SafeChar(c: char) {
    ('A' <= c <= 'Z') || ('a' <= c <= 'z') || ('0' <= c <= '9') || c in "_.:@+-"
  }

  predicate SafeText(s: string) { 1 <= |s| <= 128 && forall i | 0 <= i < |s| :: SafeChar(s[i]) }

  /** `_SAFE_ID.match`: `$` also matches before a final newline. */
  predicate SafeId(s: string) { SafeText(s) || (s != "" && s[|s| - 1] == '\n' && SafeText(s[..|s| - 1])) }

  /** What goes undigested into a key stays within the character class, except that it may end in one newline. */
  lemma SafeIdEscapes(s: string)
    requires SafeId(s)
    ensures (exists i | 0 <= i < |s| :: !SafeChar(s[i])) <==> s[|s| - 1] == '\n'
    ensures forall i | 0 <= i < |s| - 1 :: SafeChar(s[i])
    ensures |s| <= 129
  {
    var body := s[..|s| - 1];
    if !SafeText(s) {
      assert forall i | 0 <= i < |s| - 1 :: s[i] == body[i];
    }
  }

  predicate Alphanumeric(c: char) { '0' <= c <= '9' || 'A' <= c <= 'Z' || 'a' <= c <= 'z' }

  /** An id travels undigested if and only if, but for one final newline, it is 1 to 128 characters that are alphanumeric or
      one of `_`, `.`, `:`, `@`, `+` and `-`. */
  lemma SafeIdExactly(s: string)
    ensures SafeId(s) <==>
      var body := if s != "" && s[|s| - 1] == '\n' then s[..|s| - 1] else s;
      && 1 <= |body| <= 128
      && forall i | 0 <= i < |body| :: Alphanumeric(body[i]) || body[i] in {'_', '.', ':', '@', '+', '-'}
  {
    if s != "" && s[|s| - 1] == '\n' {
      assert !SafeChar(s[|s| - 1]);
    }
  }

  const KEY_PREFIX := "stapel:realtime:presence:"

  /** `_key()`, with the truncated SHA-256 as the parameter `digest`. */
  function Key(digest: string -> string, id: string): string {
    KEY_PREFIX + (if SafeId(id) then id else "h." + digest(id))
  }

  /** Two users share a key exactly when they are the same, when two unsafe ids collide in the digest, or when a safe
      id spells out the digest form of an unsafe one. */
  lemma KeyCollisions(digest: string -> string, a: string, b: string)
    ensures Key(digest, a) == Key(digest, b) <==>
      || a == b
      || (!SafeId(a) && !SafeId(b) && digest(a) == digest(b))
      || (SafeId(a) && !SafeId(b) && a == "h." + digest(b))
      || (SafeId(b) && !SafeId(a) && b == "h." + digest(a))
  {
    var ta, tb := if SafeId(a) then a else "h." + digest(a), if SafeId(b) then b else "h." + digest(b);
    assert (KEY_PREFIX + ta)[|KEY_PREFIX|..] == ta && (KEY_PREFIX + tb)[|KEY_PREFIX|..] == tb;
    assert ("h." + digest(a))[2..] == digest(a) && ("h." + digest(b))[2..] == digest(b);
  }

  /** The form of a key: the fleet's prefix, then the id itself or `h.` and its digest. */
  lemma KeyForm(digest: string -> string, id: string)
    ensures var n := |"stapel:realtime:presence:"|;
      && |Key(digest, id)| >= n && Key(digest, id)[..n] == "stapel:realtime:presence:"
      && Key(digest, id)[n..] == if SafeId(id) then id else "h." + digest(id)
  {
  }

  /** A session touched with a family counts for that family and the unscoped question, one touched with none or the empty
      one for the unscoped question only. */
  lemma FamilyScope(stored: Option<Stored>, ttl: int, sid: string, family: Option<string>, now: real, asked: Option<string>)
    requires ttl >= 0
    ensures sid in LiveIds(TouchDoc(stored, ttl, sid, family, now).sessions, asked, now, ttl) <==>
      asked.None? || (family == asked && asked != Some(""))
  {
  }

  // ---- the registry ----

  type Store = map<string, Lease>

  function Slot(store: Store, key: string): Option<Lease> { if key in store then Some(store[key]) else None }

  /** `is_live()`. `up` says whether a connection could be opened, `working` whether the read raised. */
  function IsLive(digest: string -> string, store: Store, ttl: int, up: bool, working: bool,
                  user: Option<string>, family: Option<string>, now: real): Answer {
    if ttl <= 0 || user.None? || !up || !working then OFFLINE
    else Snapshot(Fetch(Slot(store, Key(digest, user.value)), now), family, now, ttl)
  }

  const MAX_BATCH := 100

  /** The ids that are not None, in order. */
  function Named(ids: seq<Option<string>>): seq<string> {
    if ids == [] then []
    else Named(ids[..|ids| - 1]) + (if ids[|ids| - 1].Some? then [ids[|ids| - 1].value] else [])
  }

  /** `cache.get_many`: the values found under `keys`, whatever order they are asked in. */
  function GetMany(store: Store, keys: seq<string>, now: real): map<string, Stored> {
    if keys == [] then map[]
    else
      var last, found := keys[|keys| - 1], GetMany(store, keys[..|keys| - 1], now);
      match Fetch(Slot(store, last), now)
      case None => found
      case Some(value) => found[last := value]
  }

  datatype TooMany = TooMany(given: nat)

  /** `live_batch()`; `order` is the list of deduplicated keys handed to `get_many`. */
  function LiveBatch(digest: string -> string, store: Store, ttl: int, up: bool, working: bool,
                     ids: seq<Option<string>>, order: seq<string>, family: Option<string>, now: real)
    : Result<map<string, Answer>, TooMany>
  {
    var named := Named(ids);
    if |named| > MAX_BATCH then Failure(TooMany(|named|))
    else if ttl <= 0 || !up || !working then Success(map id | id in named :: OFFLINE)
    else
      var docs := GetMany(store, order, now);
      Success(map id | id in named ::
        var key := Key(digest, id);
        Snapshot(if key in docs then Some(docs[key]) else None, family, now, ttl))
  }

  lemma {:induction false} GetManyFetches(store: Store, keys: seq<string>, now: real)
    ensures forall k :: k in GetMany(store, keys, now) <==> k in keys && Fetch(Slot(store, k), now).Some?
    ensures forall k | k in GetMany(store, keys, now) :: Some(GetMany(store, keys, now)[k]) == Fetch(Slot(store, k), now)
  {
    if keys != [] {
      GetManyFetches(store, keys[..|keys| - 1], now);
      assert keys == keys[..|keys| - 1] + [keys[|keys| - 1]];
    }
  }

  lemma {:induction false} NamedAre(ids: seq<Option<string>>)
    ensures forall id :: id in Named(ids) <==> Some(id) in ids
  {
    if ids != [] {
      NamedAre(ids[..|ids| - 1]);
      assert ids == ids[..|ids| - 1] + [ids[|ids| - 1]];
    }
  }

  /** Batch agrees with single reads: within the cap, at one cache snapshot and clock reading, the batch has exactly the
      ids that are not None and gives each the answer `is_live` gives, in whatever order the distinct keys are read;
      above the cap, counting duplicates, it raises. */
  lemma BatchAgrees(digest: string -> string, store: Store, ttl: int, up: bool, working: bool,
                    ids: seq<Option<string>>, order: seq<string>, family: Option<string>, now: real)
    requires forall k :: k in order <==> exists i | 0 <= i < |Named(ids)| :: k == Key(digest, Named(ids)[i])
    ensures var r := LiveBatch(digest, store, ttl, up, working, ids, order, family, now);
      && (r.Failure? <==> |Named(ids)| > 100)
      && (r.Success? ==>
            && (forall id :: id in r.value <==> Some(id) in ids)
            && (forall id | id in r.value :: r.value[id] == IsLive(digest, store, ttl, up, working, Some(id), family, now)))
  {
    NamedAre(ids);
    GetManyFetches(store, order, now);
    var named := Named(ids);
    forall id | id in named ensures Key(digest, id) in order {
      var i :| 0 <= i < |named| && named[i] == id;
    }
  }

  /** The writing side, as a shared store that the operations update in place. Each operation is atomic here. */
  class Registry {
    const digest: string -> string
    const ttl: int
    var store: Store

    constructor (digest: string -> string, ttl: int)
      ensures store == map[] && this.digest == digest && this.ttl == ttl
    {
      this.digest, this.ttl, store := digest, ttl, map[];
    }

    /** Whether a write is attempted at all. */
    predicate Writes(up: bool, user: Option<string>, sid: string) { ttl > 0 && user.Some? && sid != "" && up }

    /** `_touch()`, called by `record_connect` and `record_heartbeat`: this user's slot takes the write, no other changes. */
    method RecordTouch(up: bool, working: bool, user: Option<string>, sid: string, family: Option<string>, now: real)
      returns (written: bool)
      modifies this
      ensures written <==> Writes(up, user, sid) && working
      ensures written ==>
        var key := Key(digest, user.value);
        && Slot(store, key) == Write(Slot(old(store), key), ttl, Touching(sid, family, now))
        && forall k | k != key :: Slot(store, k) == Slot(old(store), k)
      ensures !written ==> store == old(store)
    {
      if ttl <= 0 || user.None? || sid == "" {
        return false;
      }
      if !up {
        return false;
      }
      var key := Key(digest, user.value);
      if !working {
        return false;
      }
      var sessions := Prune(Sessions(Fetch(Slot(store, key), now)), now, ttl);
      sessions := sessions[sid := Entry(now, FamilyOf(family))];
      store := store[key := Lease(Document(Doc(sessions, now)), now + ttl as real)];
      return true;
    }

    /** `record_disconnect()`: as above, but a slot without a document is left alone and False is returned. */
    method RecordDisconnect(up: bool, working: bool, user: Option<string>, sid: string, now: real) returns (written: bool)
      modifies this
      ensures written ==> Writes(up, user, sid) && working
      ensures Writes(up, user, sid) && working ==>
        var key := Key(digest, user.value);
        var found := Fetch(Slot(old(store), key), now);
        && (written <==> found.Some? && found.value.Document?)
        && Slot(store, key) == Write(Slot(old(store), key), ttl, Leaving(sid, now))
        && forall k | k != key :: Slot(store, k) == Slot(old(store), k)
      ensures !written ==> store == old(store)
    {
      if ttl <= 0 || user.None? || sid == "" {
        return false;
      }
      if !up {
        return false;
      }
      var key := Key(digest, user.value);
      if !working {
        return false;
      }
      var found := Fetch(Slot(store, key), now);
      if found.None? || !found.value.Document? {
        return false;
      }
      var sessions := Sessions(found);
      sessions := sessions - {sid};
      store := store[key := Lease(Document(Doc(Prune(sessions, now, ttl), now)), now + ttl as real)];
      return true;
    }
  }
}
