/** Many sockets behind the channel layer: which send call each delivered message came from.

    The layer is a best-effort multicast: a call that reaches it puts its message into the mailboxes of any
    subset of the sockets that joined the named group, and a socket handles its mailbox in order. */
module Fanout {
  import opened Wrappers
  import opened Json
  import opened Streams
  import opened Delivery
  import opened Socket
  import opened Runs
  import opened Provenance
  import opened Effects

  datatype Peer = Peer(cfg: Config, sock: State, mail: seq<GroupMessage>)

  datatype Fabric = Fabric(peers: map<nat, Peer>, calls: seq<Call>)

  /** The core's segment check and the truncated hash, fixed for the whole fleet. */
  datatype Naming = Naming(valid: string -> bool, digest: string -> string)

  datatype Act =
    | Open(id: nat, cfg: Config, start: real)
    | Emit(call: Call, layerUp: bool, receivers: set<nat>)
    | Run(id: nat, ev: Stamped)

  /** The group a socket joined. */
  function Joined(n: Naming, s: State): Option<string> {
    if s.joined && s.streamKey.Some? then GroupName(n.valid, n.digest, s.streamKey.value) else None
  }

  ghost predicate May(n: Naming, f: Fabric, a: Act) {
    match a
    case Open(id, _, start) => id !in f.peers && start >= 0.0
    case Emit(call, up, receivers) =>
      forall id | id in receivers ::
        && id in f.peers
        && Perform(n.valid, n.digest, up, call).Sent?
        && Joined(n, f.peers[id].sock) == Some(Perform(n.valid, n.digest, up, call).group)
    case Run(id, ev) =>
      && id in f.peers && Enabled(f.peers[id].sock, ev)
      && (ev.e.Group? ==> f.peers[id].mail != [] && f.peers[id].mail[0] == ev.e.message)
  }

  ghost function Do(n: Naming, f: Fabric, a: Act): Fabric
    requires May(n, f, a)
  {
    match a
    case Open(id, cfg, start) => f.(peers := f.peers[id := Peer(cfg, Init(start), [])])
    case Emit(call, up, receivers) =>
      Fabric(map id | id in f.peers ::
               (if id in receivers
                then f.peers[id].(mail := f.peers[id].mail + [Perform(n.valid, n.digest, up, call).message])
                else f.peers[id]),
             f.calls + [call])
    case Run(id, ev) =>
      var p := f.peers[id];
      f.(peers := f.peers[id := p.(sock := Step(p.cfg, p.sock, ev), mail := if ev.e.Group? then p.mail[1..] else p.mail)])
  }

  ghost predicate IsTrace(n: Naming, fs: seq<Fabric>, acts: seq<Act>) {
    && |fs| == |acts| + 1 && fs[0] == Fabric(map[], [])
    && forall k | 0 <= k < |acts| :: ActsAt(n, fs, acts, k)
  }

  ghost predicate ActsAt(n: Naming, fs: seq<Fabric>, acts: seq<Act>, k: nat)
    requires k < |acts| && k + 1 < |fs|
  {
    May(n, fs[k], acts[k]) && fs[k + 1] == Do(n, fs[k], acts[k])
  }

  /** The group message a call hands to the layer when it gets that far. */
  predicate HandsOut(c: Call, m: GroupMessage) {
    match c
    case SendSignal(key, frame) => frame.Object? && m == SignalMsg(key, frame.fields)
    case SendJournal(key, n, payload) => payload.Some? && ToInt(n).Some? && m == FrameMsg(key, ToInt(n), payload.value)
    case SendRevoke(key, user, reason) => m == RevokeMsg(key, user, reason)
  }

  /** What the socket of `user` queues for that message. */
  predicate Shows(user: string, c: Call, m: Message) {
    match m
    case Signal(dict) => c.SendSignal? && c.frame == Object(dict)
    case Live(n, payload) => c.SendJournal? && n.Some? && n == ToInt(c.seqNo) && Some(payload) == c.payload
    case Kick(reason) =>
      c.SendRevoke? && reason == KickReason(c.reason) && (c.userId == None || c.userId == Some(user))
    case _ => false
  }

  predicate FannedOut(m: Message) { m.Signal? || m.Live? || m.Kick? }

  /** No two stream keys in use share a group. */
  ghost predicate Separate(n: Naming, keys: set<string>) {
    forall a, b | a in keys && b in keys && GroupName(n.valid, n.digest, a).Some?
      && GroupName(n.valid, n.digest, a) == GroupName(n.valid, n.digest, b) :: a == b
  }

  /** Dot-free legal keys are separate when the digest separates the long ones of a module and no short key spells
      out a digest form. */
  lemma SeparateKeys(n: Naming, keys: set<string>)
    requires SegmentRule(n.valid) && DigestShape(n.digest)
    requires forall k | k in keys :: '.' !in k && ParseKey(n.valid, k).Some?
    requires forall a, b | a in keys && b in keys && Long(a) && Long(b) :: n.digest(a) == n.digest(b) ==> a == b
    requires forall a, b | a in keys && b in keys :: !SpellsDigest(n.digest, a, ParseKey(n.valid, b).value.moduleName, b)
    ensures Separate(n, keys)
  {
    forall a, b | a in keys && b in keys && GroupName(n.valid, n.digest, a) == GroupName(n.valid, n.digest, b) ensures a == b {
      GroupNameCollisions(n.valid, n.digest, a, b);
    }
  }

  /** Some call for `key` handed out `m`. */
  predicate SentFor(key: Option<string>, calls: seq<Call>, m: GroupMessage) {
    exists c | 0 <= c < |calls| :: Some(calls[c].key) == key && HandsOut(calls[c], m)
  }

  /** Some call for `key` is what `m` shows. */
  predicate ShownFor(user: string, key: Option<string>, calls: seq<Call>, m: Message) {
    exists c | 0 <= c < |calls| :: Some(calls[c].key) == key && Shows(user, calls[c], m)
  }

  /** Every message waiting for or queued by `p` came from one of `calls` naming the peer's own stream key. */
  predicate PeerOk(p: Peer, calls: seq<Call>) {
    var key, enq := p.sock.streamKey, p.sock.link.enq;
    && Inv(p.cfg, p.sock)
    && (!p.sock.joined ==> p.mail == [])
    && (forall i | 0 <= i < |enq| && FannedOut(enq[i]) :: p.sock.joined && ShownFor(p.cfg.userId, key, calls, enq[i]))
    && (forall i | 0 <= i < |p.mail| :: SentFor(key, calls, p.mail[i]))
  }

  lemma MoreCalls(user: string, key: Option<string>, calls: seq<Call>, call: Call)
    ensures forall m | SentFor(key, calls, m) :: SentFor(key, calls + [call], m)
    ensures forall m | ShownFor(user, key, calls, m) :: ShownFor(user, key, calls + [call], m)
    ensures forall m | Some(call.key) == key && HandsOut(call, m) :: SentFor(key, calls + [call], m)
  {
    var more := calls + [call];
    forall m | SentFor(key, calls, m) ensures SentFor(key, more, m) {
      var c :| 0 <= c < |calls| && Some(calls[c].key) == key && HandsOut(calls[c], m);
      assert more[c] == calls[c];
    }
    forall m | ShownFor(user, key, calls, m) ensures ShownFor(user, key, more, m) {
      var c :| 0 <= c < |calls| && Some(calls[c].key) == key && Shows(user, calls[c], m);
      assert more[c] == calls[c];
    }
    assert more[|calls|] == call;
  }

  lemma SentMessage(n: Naming, up: bool, call: Call)
    requires Perform(n.valid, n.digest, up, call).Sent?
    ensures HandsOut(call, Perform(n.valid, n.digest, up, call).message)
    ensures GroupName(n.valid, n.digest, call.key) == Some(Perform(n.valid, n.digest, up, call).group)
  {
  }

  /** The stream key and the group membership are fixed by `connect`. */
  lemma KeyFixed(cfg: Config, s: State, ev: Stamped)
    requires Enabled(s, ev) && Control(cfg, s)
    ensures var r := Step(cfg, s, ev);
      && (s.joined ==> r.joined && r.streamKey == s.streamKey)
      && (!s.joined ==> r.link.enq == s.link.enq)
      && (ev.e.Group? ==> s.joined)
  {
    hide Enqueue, SendFrame, SendReplay, TokenExpired, KickReason, RaiseTo;
  }

  lemma RunKeeps(p: Peer, calls: seq<Call>, ev: Stamped)
    requires PeerOk(p, calls) && Enabled(p.sock, ev) && (ev.e.Group? ==> p.mail != [] && p.mail[0] == ev.e.message)
    ensures PeerOk(p.(sock := Step(p.cfg, p.sock, ev), mail := if ev.e.Group? then p.mail[1..] else p.mail), calls)
  {
    hide Step, SentFor, ShownFor, Control, LinkInv, Closes, Authority;
    var l, r := p.sock.link, Step(p.cfg, p.sock, ev);
    StepKeeps(p.cfg, p.sock, ev);
    KeyFixed(p.cfg, p.sock, ev);
    StepAdds(p.cfg, p.sock, ev);
    forall i | 0 <= i < |r.link.enq| && FannedOut(r.link.enq[i])
      ensures r.joined && ShownFor(p.cfg.userId, r.streamKey, calls, r.link.enq[i])
    {
      if i < |l.enq| {
        assert r.link.enq[i] == l.enq[i];
      } else {
        assert Caused(p.cfg, p.sock, r.link.enq[i], ev.e);
        ShownFromSent(p.cfg, p.sock, p.sock.streamKey, calls, ev.e.message, r.link.enq[i]);
      }
    }
  }

  /** A message queued for a group message shows the call that sent it. */
  lemma ShownFromSent(cfg: Config, s: State, key: Option<string>, calls: seq<Call>, sent: GroupMessage, m: Message)
    requires SentFor(key, calls, sent) && Caused(cfg, s, m, Group(sent)) && FannedOut(m)
    ensures ShownFor(cfg.userId, key, calls, m)
  {
    var c :| 0 <= c < |calls| && Some(calls[c].key) == key && HandsOut(calls[c], sent);
    assert Shows(cfg.userId, calls[c], m);
  }

  /** Every key a socket serves or a call names. */
  ghost predicate InUse(f: Fabric, keys: set<string>) {
    && (forall id | id in f.peers && f.peers[id].sock.streamKey.Some? :: f.peers[id].sock.streamKey.value in keys)
    && (forall c | 0 <= c < |f.calls| :: f.calls[c].key in keys)
  }

  ghost predicate FabricOk(f: Fabric) { forall id | id in f.peers :: PeerOk(f.peers[id], f.calls) }

  lemma EmitKeeps(n: Naming, keys: set<string>, f: Fabric, a: Act)
    requires FabricOk(f) && a.Emit? && May(n, f, a) && InUse(Do(n, f, a), keys) && Separate(n, keys)
    ensures FabricOk(Do(n, f, a))
  {
    hide SentFor, ShownFor, Inv, HandsOut, Shows;
    var g := Do(n, f, a);
    assert g.calls[|f.calls|] == a.call;
    forall id | id in g.peers ensures PeerOk(g.peers[id], g.calls) {
      var p := f.peers[id];
      MoreCalls(p.cfg.userId, p.sock.streamKey, f.calls, a.call);
      assert PeerOk(p, g.calls);
      if id in a.receivers {
        SentMessage(n, a.layerUp, a.call);
        assert g.peers[id].sock == p.sock;
        assert p.sock.streamKey.value in keys && a.call.key in keys;
      }
    }
  }

  lemma {:induction false} AlwaysFabric(n: Naming, keys: set<string>, fs: seq<Fabric>, acts: seq<Act>, k: nat)
    requires IsTrace(n, fs, acts) && k < |fs| && Separate(n, keys) && forall i | 0 <= i < |fs| :: InUse(fs[i], keys)
    ensures FabricOk(fs[k])
  {
    if k > 0 {
      AlwaysFabric(n, keys, fs, acts, k - 1);
      assert ActsAt(n, fs, acts, k - 1);
      var a := acts[k - 1];
      match a
      case Open(_, _, _) =>
      case Emit(_, _, _) => EmitKeeps(n, keys, fs[k - 1], a);
      case Run(id, ev) => RunKeeps(fs[k - 1].peers[id], fs[k - 1].calls, ev);
    }
  }

  /** Stream isolation: over every run of any number of sockets whose stream keys have distinct groups, each signal,
      live frame and kick a socket ever queues shows a send call that named that socket's own stream key, and a kick one
      that named its user or nobody. */
  lemma StreamIsolation(n: Naming, keys: set<string>, fs: seq<Fabric>, acts: seq<Act>, k: nat, id: nat, i: nat)
    requires IsTrace(n, fs, acts) && k < |fs| && Separate(n, keys) && forall j | 0 <= j < |fs| :: InUse(fs[j], keys)
    requires id in fs[k].peers && i < |fs[k].peers[id].sock.link.enq| && FannedOut(fs[k].peers[id].sock.link.enq[i])
    ensures exists c | 0 <= c < |fs[k].calls| ::
      Some(fs[k].calls[c].key) == fs[k].peers[id].sock.streamKey
      && Shows(fs[k].peers[id].cfg.userId, fs[k].calls[c], fs[k].peers[id].sock.link.enq[i])
  {
    AlwaysFabric(n, keys, fs, acts, k);
    assert ShownFor(fs[k].peers[id].cfg.userId, fs[k].peers[id].sock.streamKey, fs[k].calls, fs[k].peers[id].sock.link.enq[i]);
  }

  /** The message that `c` has the socket of `user` queue, given its dedup cursor. */
  function Result(user: string, cursor: int, c: Call): Option<Message> {
    match c
    case SendSignal(_, frame) => if frame.Object? && frame.fields != map[] then Some(Signal(frame.fields)) else None
    case SendJournal(_, n, payload) =>
      if ToInt(n).Some? && payload.Some? && ToInt(n).value > cursor then Some(Live(ToInt(n), payload.value)) else None
    case SendRevoke(_, target, reason) => if target == None || target == Some(user) then Some(Kick(KickReason(reason))) else None
  }

  /** Delivery, forwards: when an open socket with room handles what a call handed out, it queues that call's signal, live
      frame or kick, unless the signal is empty, the number is not above its cursor or the kick is for another user; and
      then it queues nothing. */
  lemma HandledIsQueued(p: Peer, ev: Stamped, c: Call)
    requires Enabled(p.sock, ev) && Inv(p.cfg, p.sock) && ev.e.Group? && HandsOut(c, ev.e.message)
    requires !p.sock.link.closing && |p.sock.link.outbox| < Cap(p.cfg)
    ensures var l, r := p.sock.link, Step(p.cfg, p.sock, ev).link;
      match Result(p.cfg.userId, l.maxSeqSent, c)
      case None => r.enq == l.enq && !r.closing
      case Some(m) => r.enq == l.enq + [m] && Shows(p.cfg.userId, c, m)
  {
    LinkColumn(p.cfg, p.sock, ev);
    hide Step, Inv;
  }
}
