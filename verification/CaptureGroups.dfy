/** Grouping frames into session candidates, one key's frames at a time. */
module CaptureGroups {
  import opened Wrappers
  import opened Sequences
  import opened CaptureDerivation

  /** A frame with the capture derived from its metadata. */
  datatype Frame = Frame(id: nat, capture: Capture)

  datatype StandingSession = StandingSession(key: string, ids: seq<nat>, framing: Option<nat>)

  /** A standing session among one key's frames, its members by position. */
  datatype Standing = Standing(members: seq<nat>, framing: Option<nat>)

  datatype Part = Part(members: seq<nat>, framing: Option<nat>)

  datatype Session = Session(key: string, ids: set<nat>, basis: Option<Basis>, framing: Option<nat>)

  ghost predicate DistinctFrames(frames: seq<Frame>) {
    forall i, j :: 0 <= i < j < |frames| ==> frames[i].id != frames[j].id
  }

  /** Frames of one key agree on their date basis and on being lights. */
  ghost predicate Coherent(frames: seq<Frame>) {
    forall f, g :: f in frames && g in frames && f.capture.key == g.capture.key ==> f.capture == g.capture
  }

  /** Derived captures are: their key says the rest. */
  lemma DerivedAreCoherent(c: Canon, metadata: seq<Metadata>, frames: seq<Frame>)
    requires Usual(c) && |metadata| == |frames|
    requires forall i :: 0 <= i < |frames| ==> frames[i].capture == CaptureOf(c, metadata[i])
    ensures Coherent(frames)
  {
    forall f, g | f in frames && g in frames && f.capture.key == g.capture.key ensures f.capture == g.capture {
      var i :| 0 <= i < |frames| && frames[i] == f;
      var j :| 0 <= j < |frames| && frames[j] == g;
      KeySaysBasisAndLight(c, metadata[i]);
      KeySaysBasisAndLight(c, metadata[j]);
    }
  }

  // ---- Splitting by framing ----

  /** The parts hold every position below `n`, each in one part. */
  ghost predicate Partition(parts: seq<Part>, n: nat) {
    && (forall p, m :: 0 <= p < |parts| && m in parts[p].members ==> m < n)
    && (forall m :: 0 <= m < n ==> InSome(parts, m))
    && (forall p, q, m :: 0 <= p < q < |parts| && m in parts[p].members ==> m !in parts[q].members)
  }

  ghost predicate InSome(parts: seq<Part>, m: nat) {
    exists p :: 0 <= p < |parts| && m in parts[p].members
  }

  type Split = (seq<Frame>, seq<Standing>) -> seq<Part>

  ghost predicate Splits(split: Split) {
    forall local, standing :: Partition(split(local, standing), |local|)
  }

  function Position(local: seq<Frame>, id: nat): (p: Option<nat>)
    ensures p.Some? ==> p.value < |local| && local[p.value].id == id
    ensures p.None? ==> forall i :: 0 <= i < |local| ==> local[i].id != id
  {
    if local == [] then None
    else if local[|local| - 1].id == id then Some(|local| - 1)
    else Position(local[..|local| - 1], id)
  }

  predicate AllHere(local: seq<Frame>, ids: seq<nat>) {
    forall k :: 0 <= k < |ids| ==> Position(local, ids[k]).Some?
  }

  function Positions(local: seq<Frame>, ids: seq<nat>): (p: seq<nat>)
    requires AllHere(local, ids)
    ensures |p| == |ids| && forall k :: 0 <= k < |ids| ==> p[k] < |local| && local[p[k]].id == ids[k]
  {
    seq(|ids|, k requires 0 <= k < |ids| && AllHere(local, ids) => Position(local, ids[k]).value)
  }

  function StandsHere(key: string, local: seq<Frame>): StandingSession -> Option<Standing> {
    (s: StandingSession) =>
      if s.key == key && AllHere(local, s.ids) then Some(Standing(Positions(local, s.ids), s.framing)) else None
  }

  method StandingIn(key: string, local: seq<Frame>, standing: seq<StandingSession>) returns (here: seq<Standing>)
    ensures here == Collected(StandsHere(key, local), standing)
  {
    var stands := StandsHere(key, local);
    here := [];
    for i := 0 to |standing|
      invariant here == Collected(stands, standing[..i])
    {
      assert standing[..i + 1][..i] == standing[..i];
      here := here + Listed(stands(standing[i]));
    }
    assert standing[..|standing|] == standing;
  }

  predicate IsHere(key: string, local: seq<Frame>, s: StandingSession, h: Standing) {
    && s.key == key && h.framing == s.framing && |h.members| == |s.ids|
    && forall k :: 0 <= k < |s.ids| ==> h.members[k] < |local| && local[h.members[k]].id == s.ids[k]
  }

  /** A standing session takes part exactly when its key is this one and every
      member is among its frames; then its members are those frames. */
  lemma StandingKeepsItsMembers(key: string, local: seq<Frame>, standing: seq<StandingSession>)
    ensures var here := Collected(StandsHere(key, local), standing);
      && (forall h :: h in here ==> exists i :: 0 <= i < |standing| && IsHere(key, local, standing[i], h))
      && (forall i :: 0 <= i < |standing| && standing[i].key == key && AllHere(local, standing[i].ids) ==>
            exists h :: h in here && IsHere(key, local, standing[i], h))
  {
    var stands := StandsHere(key, local);
    var here := Collected(stands, standing);
    MadeFrom(stands, standing);
    forall h | h in here ensures exists i :: 0 <= i < |standing| && IsHere(key, local, standing[i], h) {
      var i :| Makes(stands, standing, i, h);
      assert IsHere(key, local, standing[i], h);
    }
    forall i | 0 <= i < |standing| && standing[i].key == key && AllHere(local, standing[i].ids)
      ensures exists h :: h in here && IsHere(key, local, standing[i], h)
    {
      var h := stands(standing[i]).value;
      assert Makes(stands, standing, i, h) && IsHere(key, local, standing[i], h);
    }
  }

  // ---- Buckets ----

  datatype Bucket = Bucket(basis: Option<Basis>, lights: bool, members: seq<nat>)

  /** The places of one key's frames among the first `n`, in order. */
  function Members(frames: seq<Frame>, n: nat, key: string): (m: seq<nat>)
    requires n <= |frames|
    ensures forall i :: i in m <==> 0 <= i < n && frames[i].capture.key == key
    ensures forall a, b :: 0 <= a < b < |m| ==> m[a] < m[b]
  {
    if n == 0 then []
    else
      var before := Members(frames, n - 1, key);
      assert forall a :: 0 <= a < |before| ==> before[a] in before;
      before + if frames[n - 1].capture.key == key then [n - 1] else []
  }

  ghost predicate BucketHolds(frames: seq<Frame>, n: nat, b: Bucket, key: string)
    requires n <= |frames|
  {
    && b.members == Members(frames, n, key) && b.members != []
    && forall i :: i in b.members ==> frames[i].capture == Capture(key, b.basis, b.lights)
  }

  ghost predicate KeysListed(buckets: map<string, Bucket>, keys: seq<string>) {
    && (forall i, j :: 0 <= i < j < |keys| ==> keys[i] != keys[j])
    && (forall k :: k in keys <==> k in buckets)
  }

  /** Each key seen so far has one bucket, holding its frames. */
  ghost predicate BucketsHold(frames: seq<Frame>, n: nat, buckets: map<string, Bucket>)
    requires n <= |frames|
  {
    && (forall i :: 0 <= i < n ==> frames[i].capture.key in buckets)
    && (forall k :: k in buckets ==> BucketHolds(frames, n, buckets[k], k))
  }

  lemma NoMembers(frames: seq<Frame>, n: nat, key: string)
    requires n <= |frames|
    requires forall i :: 0 <= i < n ==> frames[i].capture.key != key
    ensures Members(frames, n, key) == []
  {
    if n > 0 {
      NoMembers(frames, n - 1, key);
    }
  }

  /** The bucket a frame is put in: its key's, or a new one. */
  function BucketFor(buckets: map<string, Bucket>, capture: Capture): Bucket {
    if capture.key in buckets then buckets[capture.key] else Bucket(capture.basis, capture.light, [])
  }

  lemma FilledHolds(frames: seq<Frame>, i: nat, b: Bucket, known: bool)
    requires i < |frames| && Coherent(frames)
    requires known ==> BucketHolds(frames, i, b, frames[i].capture.key)
    requires !known ==> b == Bucket(frames[i].capture.basis, frames[i].capture.light, [])
    requires !known ==> forall j :: 0 <= j < i ==> frames[j].capture.key != frames[i].capture.key
    ensures BucketHolds(frames, i + 1, b.(members := b.members + [i]), frames[i].capture.key)
  {
    if known {
      var first := b.members[0];
      assert first in b.members && frames[first] in frames && frames[i] in frames;
    } else {
      NoMembers(frames, i, frames[i].capture.key);
    }
  }

  lemma BucketsGrow(frames: seq<Frame>, i: nat, buckets: map<string, Bucket>, b: Bucket)
    requires i < |frames| && BucketsHold(frames, i, buckets)
    requires BucketHolds(frames, i + 1, b, frames[i].capture.key)
    ensures BucketsHold(frames, i + 1, buckets[frames[i].capture.key := b])
  {
    var key := frames[i].capture.key;
    forall k | k in buckets && k != key ensures BucketHolds(frames, i + 1, buckets[k], k) {
      assert BucketHolds(frames, i, buckets[k], k);
    }
  }

  method FillBuckets(frames: seq<Frame>) returns (buckets: map<string, Bucket>, keys: seq<string>)
    requires Coherent(frames)
    ensures BucketsHold(frames, |frames|, buckets) && KeysListed(buckets, keys)
  {
    buckets, keys := map[], [];
    for i := 0 to |frames|
      invariant BucketsHold(frames, i, buckets) && KeysListed(buckets, keys)
    {
      var capture := frames[i].capture;
      var bucket := BucketFor(buckets, capture);
      bucket := bucket.(members := bucket.members + [i]);
      OneMoreFrame(frames, i, buckets);
      KeyListed(buckets, keys, capture.key, bucket);
      keys := if capture.key in buckets then keys else keys + [capture.key];
      buckets := buckets[capture.key := bucket];
    }
  }

  lemma OneMoreFrame(frames: seq<Frame>, i: nat, buckets: map<string, Bucket>)
    requires i < |frames| && Coherent(frames) && BucketsHold(frames, i, buckets)
    ensures var capture, b := frames[i].capture, BucketFor(buckets, frames[i].capture);
      BucketsHold(frames, i + 1, buckets[capture.key := b.(members := b.members + [i])])
  {
    var capture, b := frames[i].capture, BucketFor(buckets, frames[i].capture);
    FilledHolds(frames, i, b, capture.key in buckets);
    BucketsGrow(frames, i, buckets, b.(members := b.members + [i]));
  }

  lemma KeyListed(buckets: map<string, Bucket>, keys: seq<string>, key: string, b: Bucket)
    requires KeysListed(buckets, keys)
    ensures KeysListed(buckets[key := b], if key in buckets then keys else keys + [key])
  {
  }

  // ---- Candidates ----

  predicate IsIn(f: Frame, s: Session, id: nat) {
    f.id == id && s.key == f.capture.key && s.basis == f.capture.basis
  }

  ghost predicate InOne(sessions: seq<Session>, id: nat) {
    exists s :: 0 <= s < |sessions| && id in sessions[s].ids
  }

  /** Some frame named is the one of this id, and its key and basis the session's. */
  ghost predicate IsNamed(frames: seq<Frame>, named: set<nat>, s: Session, id: nat) {
    exists i :: i in named && i < |frames| && IsIn(frames[i], s, id)
  }

  /** Candidates that hold exactly the frames named, each in one of them and
      under its own key and date basis. */
  ghost predicate Holds(frames: seq<Frame>, sessions: seq<Session>, named: set<nat>) {
    && (forall s, id :: 0 <= s < |sessions| && id in sessions[s].ids ==> IsNamed(frames, named, sessions[s], id))
    && (forall i :: i in named && i < |frames| ==> InOne(sessions, frames[i].id))
    && (forall s, t, id :: 0 <= s < t < |sessions| && id in sessions[s].ids ==> id !in sessions[t].ids)
  }

  /** One key's frames, as their own sequence. */
  method TakeLocal(frames: seq<Frame>, members: seq<nat>) returns (local: seq<Frame>)
    requires forall i :: i in members ==> i < |frames|
    ensures |local| == |members| && forall k :: 0 <= k < |members| ==> members[k] < |frames| && local[k] == frames[members[k]]
  {
    local := [];
    for k := 0 to |members|
      invariant |local| == k
      invariant forall j :: 0 <= j < k ==> members[j] < |frames| && local[j] == frames[members[j]]
    {
      assert members[k] in members;
      local := local + [frames[members[k]]];
    }
  }

  function CandidateOf(key: string, basis: Option<Basis>, local: seq<Frame>, part: Part): Session {
    Session(key, set m | m in part.members && m < |local| :: local[m].id, basis, part.framing)
  }

  /** A candidate for each part. */
  method Candidates(key: string, basis: Option<Basis>, local: seq<Frame>, parts: seq<Part>) returns (c: seq<Session>)
    ensures |c| == |parts| && forall p :: 0 <= p < |parts| ==> c[p] == CandidateOf(key, basis, local, parts[p])
  {
    c := [];
    for p := 0 to |parts|
      invariant |c| == p && forall q :: 0 <= q < p ==> c[q] == CandidateOf(key, basis, local, parts[q])
    {
      c := c + [CandidateOf(key, basis, local, parts[p])];
    }
  }

  ghost predicate IsLocal(frames: seq<Frame>, local: seq<Frame>, members: seq<nat>) {
    |local| == |members| && forall k :: 0 <= k < |members| ==> members[k] < |frames| && local[k] == frames[members[k]]
  }

  ghost predicate CandidatesFor(key: string, basis: Option<Basis>, local: seq<Frame>, parts: seq<Part>, c: seq<Session>) {
    |c| == |parts| && forall p :: 0 <= p < |parts| ==> c[p] == CandidateOf(key, basis, local, parts[p])
  }

  lemma CandidatesHold(frames: seq<Frame>, b: Bucket, key: string, local: seq<Frame>, parts: seq<Part>, c: seq<Session>)
    requires DistinctFrames(frames) && BucketHolds(frames, |frames|, b, key)
    requires IsLocal(frames, local, b.members) && Partition(parts, |local|) && CandidatesFor(key, b.basis, local, parts, c)
    ensures Holds(frames, c, set i | i in b.members)
  {
    var named := set i | i in b.members;
    forall s, id | 0 <= s < |c| && id in c[s].ids ensures IsNamed(frames, named, c[s], id) {
      var m :| m in parts[s].members && m < |local| && local[m].id == id;
      assert b.members[m] in b.members && IsIn(frames[b.members[m]], c[s], id);
    }
    forall i | i in named && i < |frames| ensures InOne(c, frames[i].id) {
      var m :| 0 <= m < |b.members| && b.members[m] == i;
      assert InSome(parts, m);
      var p :| 0 <= p < |parts| && m in parts[p].members;
      assert local[m].id in c[p].ids;
    }
    forall s, t, id | 0 <= s < t < |c| && id in c[s].ids ensures id !in c[t].ids {
      var m :| m in parts[s].members && m < |local| && local[m].id == id;
      forall n | n in parts[t].members && n < |local| ensures local[n].id != id {
        assert m != n && b.members[m] != b.members[n];
      }
    }
  }

  lemma HoldsTogether(frames: seq<Frame>, a: seq<Session>, b: seq<Session>, x: set<nat>, y: set<nat>)
    requires DistinctFrames(frames) && Holds(frames, a, x) && Holds(frames, b, y) && x !! y
    ensures Holds(frames, a + b, x + y)
  {
    var all := a + b;
    forall s, id | 0 <= s < |all| && id in all[s].ids ensures IsNamed(frames, x + y, all[s], id) {
      if s < |a| {
        assert IsNamed(frames, x, a[s], id);
      } else {
        assert IsNamed(frames, y, b[s - |a|], id);
      }
    }
    forall i | i in x + y && i < |frames| ensures InOne(all, frames[i].id) {
      if i in x {
        var s :| 0 <= s < |a| && frames[i].id in a[s].ids;
        assert all[s] == a[s];
      } else {
        var s :| 0 <= s < |b| && frames[i].id in b[s].ids;
        assert all[|a| + s] == b[s];
      }
    }
    forall s, t, id | 0 <= s < t < |all| && id in all[s].ids ensures id !in all[t].ids {
      if s < |a| <= t {
        assert IsNamed(frames, x, a[s], id);
        if id in b[t - |a|].ids {
          assert IsNamed(frames, y, b[t - |a|], id);
          NotBoth(frames, x, y, a[s], b[t - |a|], id);
        }
      }
    }
  }

  lemma NotBoth(frames: seq<Frame>, x: set<nat>, y: set<nat>, s: Session, t: Session, id: nat)
    requires DistinctFrames(frames) && x !! y
    ensures !(IsNamed(frames, x, s, id) && IsNamed(frames, y, t, id))
  {
    forall i, j | i in x && i < |frames| && IsIn(frames[i], s, id) && j in y && j < |frames|
      ensures !IsIn(frames[j], t, id)
    {
      assert i != j;
    }
  }

  /** All of one key's frames, as one part. */
  function WholePart(n: nat): seq<Part> {
    [Part(seq(n, k => k), None)]
  }

  lemma WholeIsPartition(n: nat)
    ensures Partition(WholePart(n), n)
  {
    forall m | 0 <= m < n ensures InSome(WholePart(n), m) {
      assert WholePart(n)[0].members[m] == m;
    }
  }

  function IdsOf(frames: seq<Frame>, members: seq<nat>): set<nat> {
    set i | i in members && i < |frames| :: frames[i].id
  }

  lemma WholeHoldsAll(frames: seq<Frame>, key: string, basis: Option<Basis>, members: seq<nat>, local: seq<Frame>)
    requires IsLocal(frames, local, members)
    ensures CandidateOf(key, basis, local, WholePart(|local|)[0]) == Session(key, IdsOf(frames, members), basis, None)
  {
    var c := CandidateOf(key, basis, local, WholePart(|local|)[0]);
    forall id | id in IdsOf(frames, members) ensures id in c.ids {
      var i :| i in members && i < |frames| && frames[i].id == id;
      var m :| 0 <= m < |members| && members[m] == i;
      assert WholePart(|local|)[0].members[m] == m && local[m].id == id;
    }
  }

  /** The lights of a key are its framing's parts, with the standing sessions
      that stand here. */
  ghost predicate SplitByFraming(frames: seq<Frame>, standing: seq<StandingSession>, split: Split, key: string, b: Bucket, c: seq<Session>) {
    exists local ::
      && IsLocal(frames, local, b.members)
      && CandidatesFor(key, b.basis, local, split(local, Collected(StandsHere(key, local), standing)), c)
  }

  /** One key's candidates: lights split by framing, others whole. */
  method GroupBucket(frames: seq<Frame>, standing: seq<StandingSession>, split: Split, key: string, b: Bucket)
    returns (c: seq<Session>)
    requires DistinctFrames(frames) && Splits(split) && BucketHolds(frames, |frames|, b, key)
    ensures Holds(frames, c, set i | i in b.members)
    ensures b.lights ==> SplitByFraming(frames, standing, split, key, b, c)
    ensures !b.lights ==> c == [Session(key, IdsOf(frames, b.members), b.basis, None)]
  {
    var local := TakeLocal(frames, b.members);
    WholeIsPartition(|local|);
    var parts := WholePart(|local|);
    if b.lights {
      var here := StandingIn(key, local, standing);
      parts := split(local, here);
    }
    c := Candidates(key, b.basis, local, parts);
    CandidatesHold(frames, b, key, local, parts, c);
    WholeHoldsAll(frames, key, b.basis, b.members, local);
  }

  /** The frame is no light, and all frames of its key are one session, under
      no framing. */
  ghost predicate KeptWhole(frames: seq<Frame>, sessions: seq<Session>, i: nat)
    requires i < |frames|
  {
    var key := frames[i].capture.key;
    Session(key, IdsOf(frames, Members(frames, |frames|, key)), frames[i].capture.basis, None) in sessions
  }

  ghost predicate OthersWhole(frames: seq<Frame>, sessions: seq<Session>, named: set<nat>) {
    forall i :: i in named && i < |frames| && !frames[i].capture.light ==> KeptWhole(frames, sessions, i)
  }

  lemma WholeGrows(frames: seq<Frame>, was: seq<Session>, c: seq<Session>, named: set<nat>, b: Bucket, key: string)
    requires OthersWhole(frames, was, named) && BucketHolds(frames, |frames|, b, key)
    requires !b.lights ==> c == [Session(key, IdsOf(frames, b.members), b.basis, None)]
    ensures OthersWhole(frames, was + c, named + set i | i in b.members)
  {
    forall i | i in named + (set i | i in b.members) && i < |frames| && !frames[i].capture.light
      ensures KeptWhole(frames, was + c, i)
    {
      if i in named { assert KeptWhole(frames, was, i); }
    }
  }

  function NamedBy(frames: seq<Frame>, keys: seq<string>): set<nat> {
    set i | 0 <= i < |frames| && frames[i].capture.key in keys
  }

  lemma NotBefore(keys: seq<string>, k: nat)
    requires k < |keys| && forall i, j :: 0 <= i < j < |keys| ==> keys[i] != keys[j]
    ensures keys[..k + 1] == keys[..k] + [keys[k]] && keys[k] !in keys[..k]
  {
  }

  lemma KeyAdds(frames: seq<Frame>, keys: seq<string>, key: string)
    requires key !in keys
    ensures var members := set i | i in Members(frames, |frames|, key);
      NamedBy(frames, keys + [key]) == NamedBy(frames, keys) + members && NamedBy(frames, keys) !! members
  {
  }

  /** Every frame is in a session, no id in two, and whatever a session holds
      is a frame of its key and date basis. */
  ghost predicate Grouped(frames: seq<Frame>, sessions: seq<Session>) {
    && (forall i :: 0 <= i < |frames| ==> InOne(sessions, frames[i].id))
    && (forall s, t, id :: 0 <= s < t < |sessions| && id in sessions[s].ids ==> id !in sessions[t].ids)
    && (forall s, id :: 0 <= s < |sessions| && id in sessions[s].ids ==>
          exists i :: 0 <= i < |frames| && IsIn(frames[i], sessions[s], id))
  }

  /** One key more: what its candidates add. */
  lemma OneMoreKey(frames: seq<Frame>, keys: seq<string>, k: nat, b: Bucket, was: seq<Session>, c: seq<Session>)
    requires DistinctFrames(frames) && k < |keys| && forall i, j :: 0 <= i < j < |keys| ==> keys[i] != keys[j]
    requires BucketHolds(frames, |frames|, b, keys[k])
    requires Holds(frames, was, NamedBy(frames, keys[..k])) && OthersWhole(frames, was, NamedBy(frames, keys[..k]))
    requires Holds(frames, c, set i | i in b.members)
    requires !b.lights ==> c == [Session(keys[k], IdsOf(frames, b.members), b.basis, None)]
    ensures Holds(frames, was + c, NamedBy(frames, keys[..k + 1])) && OthersWhole(frames, was + c, NamedBy(frames, keys[..k + 1]))
  {
    NotBefore(keys, k);
    KeyAdds(frames, keys[..k], keys[k]);
    WholeGrows(frames, was, c, NamedBy(frames, keys[..k]), b, keys[k]);
    HoldsTogether(frames, was, c, NamedBy(frames, keys[..k]), set i | i in b.members);
  }

  /** With every key done every frame is. */
  lemma AllNamed(frames: seq<Frame>, buckets: map<string, Bucket>, keys: seq<string>, sessions: seq<Session>)
    requires BucketsHold(frames, |frames|, buckets) && KeysListed(buckets, keys)
    requires Holds(frames, sessions, NamedBy(frames, keys)) && OthersWhole(frames, sessions, NamedBy(frames, keys))
    ensures Grouped(frames, sessions)
    ensures forall i :: 0 <= i < |frames| && !frames[i].capture.light ==> KeptWhole(frames, sessions, i)
  {
    forall i | 0 <= i < |frames| ensures i in NamedBy(frames, keys) && InOne(sessions, frames[i].id) {
      assert frames[i].capture.key in keys;
    }
    forall s, id | 0 <= s < |sessions| && id in sessions[s].ids
      ensures exists i :: 0 <= i < |frames| && IsIn(frames[i], sessions[s], id)
    {
      assert IsNamed(frames, NamedBy(frames, keys), sessions[s], id);
    }
  }

  /** The candidates partition the frames: every frame is in exactly one, with
      frames of its own key, under that key's date basis; frames that are no
      lights are kept whole, one candidate a key. */
  method GroupFrames(frames: seq<Frame>, standing: seq<StandingSession>, split: Split) returns (sessions: seq<Session>)
    requires DistinctFrames(frames) && Coherent(frames) && Splits(split)
    ensures Grouped(frames, sessions)
    ensures forall i :: 0 <= i < |frames| && !frames[i].capture.light ==> KeptWhole(frames, sessions, i)
  {
    var buckets, keys := FillBuckets(frames);
    sessions := [];
    for k := 0 to |keys|
      invariant Holds(frames, sessions, NamedBy(frames, keys[..k]))
      invariant OthersWhole(frames, sessions, NamedBy(frames, keys[..k]))
    {
      assert keys[k] in keys;
      var c := GroupBucket(frames, standing, split, keys[k], buckets[keys[k]]);
      OneMoreKey(frames, keys, k, buckets[keys[k]], sessions, c);
      sessions := sessions + c;
    }
    assert keys[..|keys|] == keys;
    AllNamed(frames, buckets, keys, sessions);
  }
}
