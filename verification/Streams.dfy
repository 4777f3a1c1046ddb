/** Stream keys and Channels group names (streams.py). The builder's segment check belongs to
    the core library: it is a parameter `valid`, and `SegmentRule` is what the model asks of it. */
module Streams {
  import opened Wrappers

  /** A legal segment is non-empty and has no colon. */
  ghost predicate SegmentRule(valid: string -> bool) {
    forall s :: valid(s) ==> s != "" && ':' !in s
  }

  datatype StreamKey = StreamKey(moduleName: string, scopeType: string, scopeId: string, topic: Option<string>)

  function Segments(k: StreamKey): seq<string> {
    [k.moduleName, k.scopeType, k.scopeId] + (if k.topic.Some? then [k.topic.value] else [])
  }

  /** Python's `":".join(parts)`. */
  function Join(parts: seq<string>): string
    requires parts != []
  {
    if |parts| == 1 then parts[0] else parts[0] + ":" + Join(parts[1..])
  }

  /** Python's `s.split(":")`. */
  function Split(s: string): (parts: seq<string>)
    ensures parts != []
  {
    if s == "" then [""]
    else
      var rest := Split(s[1..]);
      if s[0] == ':' then [""] + rest else [[s[0]] + rest[0]] + rest[1..]
  }

  /** The core's `stream_key()`; None stands for InvalidStreamKey. */
  function BuildKey(valid: string -> bool, k: StreamKey): Option<string> {
    if forall i | 0 <= i < |Segments(k)| :: valid(Segments(k)[i]) then Some(Join(Segments(k))) else None
  }

  /** `parse_stream_key()`. */
  function ParseKey(valid: string -> bool, key: string): Option<StreamKey> {
    if key == "" then None
    else
      var parts := Split(key);
      if |parts| != 3 && |parts| != 4 then None
      else
        var k := StreamKey(parts[0], parts[1], parts[2], if |parts| == 4 then Some(parts[3]) else None);
        if BuildKey(valid, k).None? then None else Some(k)
  }

  const MAX_GROUP_NAME := 90

  /** Python's `raw.replace(":", ".")`. */
  function Dots(s: string): (r: string) {
    seq(|s|, i requires 0 <= i < |s| => if s[i] == ':' then '.' else s[i])
  }

  predicate Long(key: string) { |Dots(key)| > MAX_GROUP_NAME }

  function DigestName(digest: string -> string, moduleName: string, raw: string): string {
    moduleName + ".h." + digest(raw)
  }

  /** `group_name()`, with the truncated SHA-256 as the parameter `digest`. */
  function GroupName(valid: string -> bool, digest: string -> string, key: string): Option<string> {
    match ParseKey(valid, key)
    case None => None
    case Some(k) => Some(if Long(key) then DigestName(digest, k.moduleName, key) else Dots(key))
  }

  /** What a truncated hexadecimal digest is made of. Nothing is assumed about collisions. */
  ghost predicate DigestShape(digest: string -> string) {
    forall s :: |digest(s)| == 40 && ':' !in digest(s) && '.' !in digest(s)
  }

  // ---- round trips ----

  lemma {:induction false} JoinOfSplit(s: string)
    ensures Join(Split(s)) == s
  {
    if s != "" {
      JoinOfSplit(s[1..]);
      var rest := Split(s[1..]);
      if s[0] == ':' {
        assert ([""] + rest)[1..] == rest;
      } else {
        assert ([[s[0]] + rest[0]] + rest[1..])[1..] == rest[1..];
      }
    }
  }

  lemma {:induction false} SplitOfColonFree(p: string)
    requires ':' !in p
    ensures Split(p) == [p]
  {
    if p != "" {
      SplitOfColonFree(p[1..]);
      assert p == [p[0]] + p[1..];
    }
  }

  lemma {:induction false} SplitAtColon(p: string, rest: string)
    requires ':' !in p
    ensures Split(p + ":" + rest) == [p] + Split(rest)
  {
    var s := p + ":" + rest;
    if p == "" {
      assert s[1..] == rest;
    } else {
      assert s[1..] == p[1..] + ":" + rest;
      SplitAtColon(p[1..], rest);
      assert p == [s[0]] + p[1..];
      assert ([p[1..]] + Split(rest))[1..] == Split(rest);
    }
  }

  lemma {:induction false} SplitOfJoin(parts: seq<string>)
    requires parts != [] && forall i | 0 <= i < |parts| :: ':' !in parts[i]
    ensures Split(Join(parts)) == parts
  {
    if |parts| == 1 {
      SplitOfColonFree(parts[0]);
    } else {
      SplitAtColon(parts[0], Join(parts[1..]));
      SplitOfJoin(parts[1..]);
    }
  }

  /** A key the builder prints is parsed back into the segments it was built from. */
  lemma ParseOfBuilt(valid: string -> bool, k: StreamKey)
    requires SegmentRule(valid) && BuildKey(valid, k).Some?
    ensures ParseKey(valid, BuildKey(valid, k).value) == Some(k)
  {
    var parts := Segments(k);
    assert forall i | 0 <= i < |parts| :: valid(parts[i]);
    SplitOfJoin(parts);
    assert parts[0] != "";
  }

  /** Every accepted key prints back to itself. */
  lemma PrintOfParsed(valid: string -> bool, key: string)
    requires ParseKey(valid, key).Some?
    ensures BuildKey(valid, ParseKey(valid, key).value) == Some(key)
  {
    JoinOfSplit(key);
    assert Segments(ParseKey(valid, key).value) == Split(key);
  }

  function Colons(s: string): nat {
    if s == "" then 0 else (if s[0] == ':' then 1 else 0) + Colons(s[1..])
  }

  lemma {:induction false} SplitCounts(s: string)
    ensures |Split(s)| == Colons(s) + 1
  {
    if s != "" {
      SplitCounts(s[1..]);
    }
  }

  /** Exactly the keys with two or three colons and only legal segments are accepted. */
  lemma AcceptedKeys(valid: string -> bool, key: string)
    requires SegmentRule(valid)
    ensures ParseKey(valid, key).Some? <==>
      2 <= Colons(key) <= 3 && forall i | 0 <= i < |Split(key)| :: valid(Split(key)[i])
  {
    SplitCounts(key);
    var parts := Split(key);
    if |parts| == 3 || |parts| == 4 {
      var k := StreamKey(parts[0], parts[1], parts[2], if |parts| == 4 then Some(parts[3]) else None);
      assert Segments(k) == parts;
    }
  }

  // ---- group names ----

  lemma DotsInjective(a: string, b: string)
    requires '.' !in a && '.' !in b
    ensures Dots(a) == Dots(b) <==> a == b
  {
    if Dots(a) == Dots(b) {
      assert |a| == |b|;
      forall i | 0 <= i < |a| ensures a[i] == b[i] {
        assert Dots(a)[i] == Dots(b)[i];
        assert a[i] in a && b[i] in b;
      }
    }
  }

  /** A short key that spells out the digest form of a long one. */
  predicate SpellsDigest(digest: string -> string, short: string, moduleName: string, long: string) {
    !Long(short) && Long(long) && short == moduleName + ":h:" + digest(long)
  }

  lemma ModuleIsPrefix(valid: string -> bool, key: string)
    requires SegmentRule(valid) && ParseKey(valid, key).Some?
    ensures var m := ParseKey(valid, key).value.moduleName;
      ':' !in m && valid(m) && |m| < |key| && m == key[..|m|] && key[|m|] == ':'
  {
    PrintOfParsed(valid, key);
    var k := ParseKey(valid, key).value;
    assert Segments(k)[0] == k.moduleName;
    assert key == k.moduleName + ":" + Join(Segments(k)[1..]);
  }

  lemma ShortMeetsDigest(valid: string -> bool, digest: string -> string, a: string, b: string)
    requires SegmentRule(valid) && DigestShape(digest)
    requires ParseKey(valid, a).Some? && ParseKey(valid, b).Some?
    requires '.' !in a && '.' !in b && !Long(a) && Long(b)
    ensures Dots(a) == DigestName(digest, ParseKey(valid, b).value.moduleName, b)
      <==> SpellsDigest(digest, a, ParseKey(valid, b).value.moduleName, b)
  {
    var m := ParseKey(valid, b).value.moduleName;
    ModuleIsPrefix(valid, b);
    var spelled := m + ":h:" + digest(b);
    assert '.' !in m by { assert forall c | c in m :: c in b; }
    assert Dots(spelled) == DigestName(digest, m, b);
    DotsInjective(a, spelled);
  }

  lemma DigestNamesAgree(digest: string -> string, m1: string, raw1: string, m2: string, raw2: string)
    requires DigestShape(digest)
    ensures DigestName(digest, m1, raw1) == DigestName(digest, m2, raw2)
      <==> m1 == m2 && digest(raw1) == digest(raw2)
  {
    var a, b := DigestName(digest, m1, raw1), DigestName(digest, m2, raw2);
    if a == b {
      assert a[..|a| - 43] == m1 && b[..|b| - 43] == m2;
      assert a[|a| - 40..] == digest(raw1) && b[|b| - 40..] == digest(raw2);
    }
  }

  /** Two dot-free stream keys share a group exactly when they are the same key, when two long keys of
      one module collide in the digest, or when a short key spells out a long key's digest form. */
  lemma GroupNameCollisions(valid: string -> bool, digest: string -> string, a: string, b: string)
    requires SegmentRule(valid) && DigestShape(digest)
    requires ParseKey(valid, a).Some? && ParseKey(valid, b).Some?
    requires '.' !in a && '.' !in b
    ensures var ma, mb := ParseKey(valid, a).value.moduleName, ParseKey(valid, b).value.moduleName;
      GroupName(valid, digest, a) == GroupName(valid, digest, b) <==>
        || a == b
        || (Long(a) && Long(b) && ma == mb && digest(a) == digest(b))
        || SpellsDigest(digest, a, mb, b)
        || SpellsDigest(digest, b, ma, a)
  {
    var ma, mb := ParseKey(valid, a).value.moduleName, ParseKey(valid, b).value.moduleName;
    if Long(a) && Long(b) {
      DigestNamesAgree(digest, ma, a, mb, b);
    } else if Long(b) {
      ShortMeetsDigest(valid, digest, a, b);
    } else if Long(a) {
      ShortMeetsDigest(valid, digest, b, a);
    } else {
      DotsInjective(a, b);
    }
  }

  lemma DotsConcat(a: string, b: string)
    ensures Dots(a + b) == Dots(a) + Dots(b)
  {
  }

  lemma DottedTail(a: string, b: string)
    ensures Dots(a + ":" + b) == Dots(a + "." + b)
  {
    assert a + ":" + b == a + (":" + b) && a + "." + b == a + ("." + b);
    DotsConcat(a, ":" + b);
    DotsConcat(a, "." + b);
    DotsConcat(":", b);
    DotsConcat(".", b);
    assert Dots(":") == Dots(".");
  }

  /** Without the dot-free hypothesis the group is not injective: whenever the core would allow a dotted
      scope id, a topic key and a topic-less key of different streams share a group. */
  lemma DottedSegmentsCollide(valid: string -> bool, digest: string -> string, k: StreamKey, dotted: StreamKey)
    requires SegmentRule(valid) && k.topic.Some? && dotted == k.(scopeId := k.scopeId + "." + k.topic.value, topic := None)
    requires BuildKey(valid, k).Some? && BuildKey(valid, dotted).Some?
    requires !Long(BuildKey(valid, k).value)
    ensures var a, b := BuildKey(valid, k).value, BuildKey(valid, dotted).value;
      a != b && GroupName(valid, digest, a).Some? && GroupName(valid, digest, a) == GroupName(valid, digest, b)
  {
    var a, b := BuildKey(valid, k).value, BuildKey(valid, dotted).value;
    ParseOfBuilt(valid, k);
    ParseOfBuilt(valid, dotted);
    var head := k.moduleName + ":" + k.scopeType + ":";
    assert a == head + (k.scopeId + ":" + k.topic.value) by {
      var last := [k.scopeId, k.topic.value];
      assert Segments(k)[1..][1..] == last && last[1..] == [k.topic.value];
      assert Join(last) == k.scopeId + ":" + k.topic.value;
      assert Join(Segments(k)[1..]) == k.scopeType + ":" + Join(last);
    }
    assert b == head + (k.scopeId + "." + k.topic.value) by {
      assert Segments(dotted)[1..][1..] == [dotted.scopeId];
      assert Join(Segments(dotted)[1..]) == k.scopeType + ":" + dotted.scopeId;
    }
    DotsConcat(head, k.scopeId + ":" + k.topic.value);
    DotsConcat(head, k.scopeId + "." + k.topic.value);
    DottedTail(k.scopeId, k.topic.value);
  }

  /** The form of a group name: a short key keeps its characters with dots for colons; a long one becomes its module, `.h.`
      and its digest. */
  lemma GroupNameForm(valid: string -> bool, digest: string -> string, key: string)
    requires ParseKey(valid, key).Some?
    ensures var g := GroupName(valid, digest, key).value;
      if |key| <= 90
      then |g| == |key| && forall i | 0 <= i < |key| :: g[i] == if key[i] == ':' then '.' else key[i]
      else g == ParseKey(valid, key).value.moduleName + ".h." + digest(key)
    ensures SegmentRule(valid) && DigestShape(digest) ==> ':' !in GroupName(valid, digest, key).value
  {
    assert |Dots(key)| == |key|;
    if SegmentRule(valid) && DigestShape(digest) {
      ModuleIsPrefix(valid, key);
    }
  }

  /** A group name never exceeds the ceiling when the module segment has at most 47 characters,
      and exceeds it for every long key of a longer module. */
  lemma GroupNameLength(valid: string -> bool, digest: string -> string, key: string)
    requires DigestShape(digest) && ParseKey(valid, key).Some?
    ensures |GroupName(valid, digest, key).value| <= MAX_GROUP_NAME
      <==> !Long(key) || |ParseKey(valid, key).value.moduleName| <= 47
  {
    var m := ParseKey(valid, key).value.moduleName;
    assert |DigestName(digest, m, key)| == |m| + 43;
  }
}
