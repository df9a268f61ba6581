/** The location scan: an explicit-stack walk by path over a file system that
    may change between any two of its steps. What it could not observe it
    names as an incomplete scope, which the absence rule leaves alone. */
module InventoryWalk {
  import opened Wrappers

  type Name(==, !new) = string

  /** A path below the location root; the root itself is the empty path. */
  type Path = seq<Name>

  datatype Stamp = Stamp(device: nat, id: nat)

  /** What one no-follow metadata read finds; a `File` carries what must stay
      the same while its header is read, and whether it is a supported frame. */
  datatype Observed = Missing | Unreadable | Link | Folder(stamp: Stamp) | File(mark: nat, frame: bool)

  /** What reading a directory gives: nothing, or names, perhaps cut short. */
  datatype Listing = Refused | Names(names: seq<Name>, complete: bool)

  /** A folder the walk recorded, with one stamp for each folder on its path,
      its own last. */
  datatype Recorded = Recorded(path: Path, stamps: seq<Stamp>)

  /** A file the walk reports: what it was, the stamps of the folders above it, and the
      instant from which on it was checked, read and checked again. */
  datatype Found = Found(path: Path, mark: nat, stamps: seq<Stamp>, checked: nat)
  {
    /** The folder that holds it. */
    function Above(): Recorded
      requires path != []
    {
      Recorded(path[..|path| - 1], stamps)
    }

    function ReadAt(): nat { checked + |stamps| }

    function Again(): nat { ReadAt() + 3 }
  }

  datatype Halt = Canceled | RootLost | Failed

  /** What the file system answers at each instant. The walk's every read is
      at an instant of its own. */
  datatype World = World(
    root: Stamp,
    obs: (nat, Path) -> Observed,
    list: (nat, Path) -> Listing,
    header: (nat, Path) -> bool,
    fileId: (nat, Path) -> bool,
    same: nat -> bool)          // a full observation finds the location configured
  {
    /** A look at `q` finds a folder, and its stamp is the one given. */
    predicate Still(t: nat, q: Path, stamp: Stamp) {
      obs(t, q) == Folder(stamp)
    }

    predicate OnVolume(o: Observed) {
      o.Folder? && o.stamp.device == root.device
    }
  }

  predicate Below(q: Path, p: Path) {
    |q| <= |p| && p[..|q|] == q
  }

  // ---- What a file that stays put looks like ----

  predicate FolderThere(w: World, t: nat, q: Path) {
    w.obs(t, q).Unreadable? || w.OnVolume(w.obs(t, q))
  }

  predicate FrameThere(w: World, t: nat, p: Path) {
    w.obs(t, p).Unreadable? || (w.obs(t, p).File? && w.obs(t, p).frame)
  }

  predicate ListedThere(w: World, t: nat, q: Path, name: Name) {
    w.list(t, q).Names? && w.list(t, q).complete ==> name in w.list(t, q).names
  }

  /** A supported frame is at `p` at every instant, in folders of the root's
      volume. Any read of it or of a folder above it may fail, and any such
      folder may be replaced by another that holds it too. */
  ghost predicate StaysPut(w: World, p: Path) {
    && p != []
    && (forall t, i :: 0 <= i < |p| ==> FolderThere(w, t, p[..i]))
    && (forall t :: FrameThere(w, t, p))
    && (forall t, i :: 0 <= i < |p| ==> ListedThere(w, t, p[..i], p[i]))
  }

  /** A frame that stays put below the folder `q`. */
  ghost predicate ToFind(w: World, q: Path, p: Path) {
    StaysPut(w, p) && Below(q, p) && |q| < |p|
  }

  /** Read one after another from `from` on, the folders from the root down
      all carried their recorded stamps. */
  predicate Unchanged(w: World, f: Recorded, from: nat)
    requires |f.stamps| == |f.path| + 1
  {
    forall i :: 0 <= i <= |f.path| ==> w.Still(from + i, f.path[..i], f.stamps[i])
  }

  /** From `readAt` on, the entry's header is read, the entry is the one seen
      before and its file ID is learned. */
  predicate EntryReads(w: World, relative: Path, mark: nat, readAt: nat) {
    && w.header(readAt, relative)
    && w.obs(readAt + 1, relative) == File(mark, true)
    && w.fileId(readAt + 2, relative)
  }

  /** From `from` on, the walk finds the folders down to the entry unchanged,
      reads its header, finds the entry the one seen before, learns its file
      ID and finds the folders unchanged again. */
  predicate ReadsWhole(w: World, parent: Recorded, relative: Path, mark: nat, from: nat)
    requires |parent.stamps| == |parent.path| + 1
  {
    var readAt := from + |parent.stamps|;
    Unchanged(w, parent, from) && EntryReads(w, relative, mark, readAt) && Unchanged(w, parent, readAt + 3)
  }

  /** From `from` on, the walk finds the folders down to this one unchanged,
      reads all of its names and finds the folders unchanged again. */
  predicate ListsWhole(w: World, folder: Recorded, from: nat)
    requires |folder.stamps| == |folder.path| + 1
  {
    var listing := w.list(from + |folder.stamps|, folder.path);
    && Unchanged(w, folder, from)
    && listing.Names? && listing.complete
    && Unchanged(w, folder, from + |folder.stamps| + 1)
  }

  /** The file was seen, and then read whole below folders of the root's
      volume. */
  ghost predicate ReadChecked(w: World, f: Found) {
    && f.path != [] && |f.stamps| == |f.path|
    && f.stamps[0] == w.root
    && (forall i :: 0 <= i < |f.path| ==> f.stamps[i].device == w.root.device)
    && (exists seen: nat :: seen < f.checked && w.obs(seen, f.path) == File(f.mark, true))
    && ReadsWhole(w, f.Above(), f.path, f.mark, f.checked)
  }

  // ---- A quiet, readable tree ----

  predicate NamesAll(w: World, q: Path, names: seq<Name>, name: Name) {
    name in names <==> w.obs(0, q + [name]) != Missing
  }

  /** Nothing changes, every read succeeds, and a folder of the root's volume
      lists exactly what is in it. */
  ghost predicate Quiet(w: World) {
    && (forall t, q :: w.obs(t, q) == w.obs(0, q) && w.list(t, q) == w.list(0, q))
    && (forall t, q :: w.header(t, q) && w.fileId(t, q))
    && (forall t: nat :: w.same(t))
    && (forall q :: !w.obs(0, q).Unreadable?)
    && w.obs(0, []) == Folder(w.root)
    && (forall q :: w.OnVolume(w.obs(0, q)) ==> w.list(0, q).Names? && w.list(0, q).complete)
    && (forall q, name :: w.OnVolume(w.obs(0, q)) && w.list(0, q).Names? ==> NamesAll(w, q, w.list(0, q).names, name))
  }

  // ---- What a walk of a quiet tree takes ----

  function NamesOf(l: Listing): seq<Name> {
    if l.Names? then l.names else []
  }

  function Paths(folders: seq<Recorded>): seq<Path> {
    if folders == [] then [] else Paths(folders[..|folders| - 1]) + [folders[|folders| - 1].path]
  }

  /** The folders to enter among these entries of `q`, in order. */
  function FoldersIn(w: World, q: Path, names: seq<Name>): seq<Path> {
    if names == [] then []
    else
      var last := q + [names[|names| - 1]];
      FoldersIn(w, q, names[..|names| - 1]) + if w.OnVolume(w.obs(0, last)) then [last] else []
  }

  /** No folder lies more than `depth` levels below `q`. */
  ghost predicate NoDeeper(w: World, q: Path, depth: nat) {
    forall p :: Below(q, p) && |q| + depth < |p| ==> !w.OnVolume(w.obs(0, p))
  }

  /** How many directories lie at `q` or up to `depth` levels below, each as
      often as it is listed. */
  function Cost(w: World, q: Path, depth: nat): nat
    decreases depth, 1, 0
  {
    1 + if depth == 0 then 0 else CostAll(w, FoldersIn(w, q, NamesOf(w.list(0, q))), depth - 1)
  }

  function CostAll(w: World, folders: seq<Path>, depth: nat): nat
    decreases depth, 2, |folders|
  {
    if folders == [] then 0
    else CostAll(w, folders[..|folders| - 1], depth) + Cost(w, folders[|folders| - 1], depth)
  }

  /** What a folder takes when none is longer than `bottom` names. */
  function CostWithin(w: World, bottom: nat): Recorded -> nat {
    (f: Recorded) => if |f.path| <= bottom then Cost(w, f.path, bottom - |f.path|) else 0
  }

  function Total(stack: seq<Recorded>, cost: Recorded -> nat): nat {
    if stack == [] then 0 else Total(stack[..|stack| - 1], cost) + cost(stack[|stack| - 1])
  }

  predicate Within(stack: seq<Recorded>, q: Path, depth: nat) {
    forall i :: 0 <= i < |stack| ==> Below(q, stack[i].path) && |stack[i].path| <= |q| + depth
  }

  lemma {:induction false} TotalAdds(a: seq<Recorded>, b: seq<Recorded>, cost: Recorded -> nat)
    ensures Total(a + b, cost) == Total(a, cost) + Total(b, cost)
  {
    if b == [] {
      assert a + b == a;
    } else {
      assert (a + b)[..|a + b| - 1] == a + b[..|b| - 1];
      TotalAdds(a, b[..|b| - 1], cost);
    }
  }

  lemma TotalOfOne(f: Recorded, cost: Recorded -> nat)
    ensures Total([f], cost) == cost(f)
  {
    assert [f][..0] == [] && Total([], cost) == 0;
  }

  lemma {:induction false} TotalBackwards(s: seq<Recorded>, cost: Recorded -> nat)
    ensures Total(Backwards(s), cost) == Total(s, cost)
  {
    if s != [] {
      var front, last := s[..|s| - 1], s[|s| - 1];
      TotalBackwards(front, cost);
      TotalAdds([last], Backwards(front), cost);
      TotalAdds(front, [last], cost);
      assert s == front + [last];
    }
  }

  /** Folders of one level cost what their paths do. */
  lemma {:induction false} LevelCosts(w: World, folders: seq<Recorded>, bottom: nat, level: nat)
    requires level <= bottom && forall i :: 0 <= i < |folders| ==> |folders[i].path| == level
    ensures Total(folders, CostWithin(w, bottom)) == CostAll(w, Paths(folders), bottom - level)
  {
    if folders != [] {
      var front := folders[..|folders| - 1];
      LevelCosts(w, front, bottom, level);
      assert Paths(folders)[..|Paths(folders)| - 1] == Paths(front);
    }
  }

  lemma {:induction false} FoldersInAre(w: World, q: Path, names: seq<Name>, folders: seq<Recorded>)
    requires Paths(folders) == FoldersIn(w, q, names)
    ensures forall i :: 0 <= i < |folders| ==>
      |folders[i].path| == |q| + 1 && folders[i].path[..|q|] == q && w.OnVolume(w.obs(0, folders[i].path))
    decreases |names|
  {
    if names != [] {
      var last := q + [names[|names| - 1]];
      if w.OnVolume(w.obs(0, last)) {
        LastOfPaths(folders);
        FoldersInAre(w, q, names[..|names| - 1], folders[..|folders| - 1]);
      } else {
        FoldersInAre(w, q, names[..|names| - 1], folders);
      }
    } else {
      LastOfPaths(folders);
    }
  }

  lemma LastOfPaths(folders: seq<Recorded>)
    ensures |Paths(folders)| == |folders|
    ensures folders != [] ==>
      && Paths(folders)[|folders| - 1] == folders[|folders| - 1].path
      && Paths(folders)[..|folders| - 1] == Paths(folders[..|folders| - 1])
  {
    if folders != [] { LastOfPaths(folders[..|folders| - 1]); }
  }

  lemma ChildrenWithin(w: World, top: Path, children: seq<Recorded>, q: Path, depth: nat)
    requires Below(q, top) && NoDeeper(w, q, depth) && Paths(children) == FoldersIn(w, top, NamesOf(w.list(0, top)))
    ensures Within(children, q, depth) && (|top| >= |q| + depth ==> children == [])
    ensures forall i :: 0 <= i < |children| ==> |children[i].path| == |top| + 1
  {
    FoldersInAre(w, top, NamesOf(w.list(0, top)), children);
    forall i | 0 <= i < |children| ensures Below(q, children[i].path) && |children[i].path| <= |q| + depth {
      assert children[i].path[..|q|] == children[i].path[..|top|][..|q|];
    }
  }

  /** Listing a folder takes one, and what the folders in it take. */
  lemma EnteredCosts(w: World, top: Recorded, children: seq<Recorded>, q: Path, depth: nat)
    requires Below(q, top.path) && |top.path| <= |q| + depth && NoDeeper(w, q, depth)
    requires Paths(children) == FoldersIn(w, top.path, NamesOf(w.list(0, top.path)))
    ensures var cost := CostWithin(w, |q| + depth); cost(top) == 1 + Total(children, cost)
  {
    ChildrenWithin(w, top.path, children, q, depth);
    if |top.path| < |q| + depth {
      LevelCosts(w, children, |q| + depth, |top.path| + 1);
    }
  }

  lemma PoppedWithin(w: World, front: seq<Recorded>, top: Recorded, children: seq<Recorded>, q: Path, depth: nat)
    requires Within(front + [top], q, depth) && NoDeeper(w, q, depth)
    requires Paths(children) == FoldersIn(w, top.path, NamesOf(w.list(0, top.path)))
    ensures Within(front + Backwards(children), q, depth)
  {
    assert (front + [top])[|front|] == top && forall i :: 0 <= i < |front| ==> (front + [top])[i] == front[i];
    ChildrenWithin(w, top.path, children, q, depth);
  }

  /** The top of a stack gives way to folders that cost one less. */
  lemma TopReplaced(front: seq<Recorded>, top: Recorded, children: seq<Recorded>, cost: Recorded -> nat)
    requires cost(top) == 1 + Total(children, cost)
    ensures Total(front + [top], cost) == Total(front + Backwards(children), cost) + 1
  {
    TotalAdds(front, [top], cost);
    TotalOfOne(top, cost);
    TotalAdds(front, Backwards(children), cost);
    TotalBackwards(children, cost);
  }

  /** Listing the top of the stack takes one, and leaves what its folders
      take. */
  lemma TopEntered(w: World, stack: seq<Recorded>, children: seq<Recorded>, q: Path, depth: nat)
    requires stack != [] && NoDeeper(w, q, depth)
    requires var top := stack[|stack| - 1].path; Paths(children) == FoldersIn(w, top, NamesOf(w.list(0, top)))
    ensures forall left: nat :: Enough(w, stack, q, depth, left) ==>
      left > 0 && Enough(w, stack[..|stack| - 1] + Backwards(children), q, depth, left - 1)
  {
    forall left: nat | Enough(w, stack, q, depth, left)
      ensures left > 0 && Enough(w, stack[..|stack| - 1] + Backwards(children), q, depth, left - 1)
    {
      var front, top := stack[..|stack| - 1], stack[|stack| - 1];
      assert stack == front + [top];
      PoppedWithin(w, front, top, children, q, depth);
      EnteredCosts(w, top, children, q, depth);
      TopReplaced(front, top, children, CostWithin(w, |q| + depth));
    }
  }

  /** `left` listings are enough for what the stack holds. */
  predicate Enough(w: World, stack: seq<Recorded>, q: Path, depth: nat, left: nat) {
    Within(stack, q, depth) && left >= Total(stack, CostWithin(w, |q| + depth))
  }

  lemma NotSpent(w: World, stack: seq<Recorded>, q: Path, depth: nat, left: nat)
    requires stack != [] && Enough(w, stack, q, depth, left)
    ensures left > 0
  {
  }

  lemma EnoughForOne(w: World, f: Recorded, depth: nat, budget: nat)
    requires budget >= Cost(w, f.path, depth)
    ensures Enough(w, [f], f.path, depth, budget)
  {
    TotalOfOne(f, CostWithin(w, |f.path| + depth));
  }

  predicate IsFrame(o: Observed) {
    o.File? && o.frame
  }

  /** What a frame of the tree is: a supported file reached through real
      folders of the root's volume. */
  predicate FrameBelow(w: World, q: Path, rest: Path)
    decreases |rest|
  {
    if rest == [] then IsFrame(w.obs(0, q))
    else w.OnVolume(w.obs(0, q)) && FrameBelow(w, q + [rest[0]], rest[1..])
  }

  predicate FrameAt(w: World, p: Path) {
    p != [] && FrameBelow(w, [], p)
  }

  lemma {:induction false} FrameBelowIs(w: World, q: Path, rest: Path)
    ensures FrameBelow(w, q, rest) <==>
      IsFrame(w.obs(0, q + rest)) && forall i :: 0 <= i < |rest| ==> w.OnVolume(w.obs(0, q + rest[..i]))
    decreases |rest|
  {
    if rest == [] {
      assert q + rest == q;
    } else {
      var q', rest' := q + [rest[0]], rest[1..];
      FrameBelowIs(w, q', rest');
      assert q' + rest' == q + rest && q + rest[..0] == q;
      assert forall i :: 0 <= i < |rest'| ==> q' + rest'[..i] == q + rest[..i + 1];
      if FrameBelow(w, q, rest) {
        forall i | 0 <= i < |rest| ensures w.OnVolume(w.obs(0, q + rest[..i])) {
          if i > 0 { assert q' + rest'[..i - 1] == q + rest[..i]; }
        }
      }
    }
  }

  /** The definition read from the root down. */
  lemma FrameAtIs(w: World, p: Path)
    ensures FrameAt(w, p) <==> p != [] && IsFrame(w.obs(0, p)) && forall i :: 0 <= i < |p| ==> w.OnVolume(w.obs(0, p[..i]))
  {
    FrameBelowIs(w, [], p);
    assert [] + p == p && forall i :: 0 <= i < |p| ==> [] + p[..i] == p[..i];
  }

  /** On a quiet tree a frame stays put, and only a link, another volume or
      no frame at all is passed by. */
  lemma QuietFrameStaysPut(w: World, p: Path)
    requires Quiet(w) && FrameAt(w, p)
    ensures StaysPut(w, p)
  {
    FrameAtIs(w, p);
    forall t: nat, i | 0 <= i < |p| ensures ListedThere(w, t, p[..i], p[i]) && FolderThere(w, t, p[..i]) {
      assert w.OnVolume(w.obs(0, p[..i]));
      assert p[..i + 1] == p[..i] + [p[i]];
      assert w.obs(0, p[..i + 1]) != Missing by {
        if i + 1 < |p| { assert w.OnVolume(w.obs(0, p[..i + 1])); } else { assert p[..|p|] == p; }
      }
      assert NamesAll(w, p[..i], w.list(0, p[..i]).names, p[i]);
    }
    forall t: nat ensures FrameThere(w, t, p) {}
  }

  predicate PassedBy(w: World, q: Path) {
    !w.OnVolume(w.obs(0, q)) && !IsFrame(w.obs(0, q))
  }

  /** No frame lies at or below what a quiet walk passes by. */
  lemma PassedByHidesNone(w: World, incomplete: seq<Path>, p: Path)
    requires (forall q :: q in incomplete ==> PassedBy(w, q)) && FrameAt(w, p)
    ensures !Uncertain(incomplete, p)
  {
    FrameAtIs(w, p);
    forall i | 0 <= i < |incomplete| ensures !Below(incomplete[i], p) {
      var q := incomplete[i];
      assert PassedBy(w, q);
      if |q| < |p| { assert w.OnVolume(w.obs(0, p[..|q|])); } else if |q| == |p| { assert p[..|p|] == p; }
    }
  }

  lemma CheckedReadIsFrame(w: World, f: Found)
    requires Quiet(w) && ReadChecked(w, f)
    ensures FrameAt(w, f.path)
  {
    FrameAtIs(w, f.path);
    forall i | 0 <= i < |f.path| ensures w.OnVolume(w.obs(0, f.path[..i])) {
      assert f.Above().path[..i] == f.path[..i];
      assert w.Still(f.checked + i, f.Above().path[..i], f.stamps[i]);
    }
  }

  // ---- The walk ----

  ghost predicate Reported(files: seq<Found>, p: Path) {
    exists i :: 0 <= i < |files| && files[i].path == p
  }

  ghost predicate Uncertain(incomplete: seq<Path>, p: Path) {
    exists i :: 0 <= i < |incomplete| && Below(incomplete[i], p)
  }

  /** The folder at `q`, or one above it, is named uncertain. */
  ghost predicate NamedAbove(incomplete: seq<Path>, q: Path) {
    exists k :: 0 <= k <= |q| && q[..k] in incomplete
  }

  ghost predicate Awaited(stack: seq<Recorded>, p: Path) {
    exists i :: 0 <= i < |stack| && Below(stack[i].path, p) && |stack[i].path| < |p|
  }

  /** The file was found, or its place is uncertain. */
  ghost predicate Accounted(all: seq<Found>, incomplete: seq<Path>, p: Path) {
    Reported(all, p) || Uncertain(incomplete, p)
  }

  lemma AccountedGrows(all: seq<Found>, incomplete: seq<Path>, all': seq<Found>, incomplete': seq<Path>, p: Path)
    requires Accounted(all, incomplete, p) && all <= all' && incomplete <= incomplete'
    ensures Accounted(all', incomplete', p)
  {
    if Reported(all, p) {
      var i :| 0 <= i < |all| && all[i].path == p;
      assert all'[i].path == p;
    } else {
      var i :| 0 <= i < |incomplete| && Below(incomplete[i], p);
      assert Below(incomplete'[i], p);
    }
  }

  lemma UncertainBy(incomplete: seq<Path>, q: Path, p: Path)
    requires q in incomplete && Below(q, p)
    ensures Uncertain(incomplete, p)
  {
    var i :| 0 <= i < |incomplete| && incomplete[i] == q;
    assert Below(incomplete[i], p);
  }

  /** A recorded folder's stamps are of the root's volume, the root's own
      first. */
  ghost predicate Sound(w: World, f: Recorded) {
    && |f.stamps| == |f.path| + 1 && f.stamps[0] == w.root
    && (forall i :: 0 <= i < |f.stamps| ==> f.stamps[i].device == w.root.device)
    && (Quiet(w) ==> Unchanged(w, f, 0))
  }

  /** On a quiet tree a recorded folder reads the same at any time. */
  lemma QuietKeepsStill(w: World, f: Recorded, t: nat, k: nat)
    requires Sound(w, f) && k < |f.stamps|
    ensures Quiet(w) ==> w.Still(t, f.path[..k], f.stamps[k])
  {
    assert Quiet(w) ==> w.Still(0 + k, f.path[..k], f.stamps[k]);
  }

  class Walk {
    const w: World
    const batchSize: nat
    /** Whether anyone cancels the scan or refuses a batch. */
    const hindered: bool

    /** The instant of the next read. */
    var now: nat
    var pending: seq<Found>
    var pendingIssues: nat
    var files: seq<Found>
    var incomplete: seq<Path>
    /** The folders already named incomplete. */
    var excluded: set<Path>
    /** The files of each batch delivered so far. */
    var delivered: seq<seq<Found>>

    ghost predicate Valid()
      reads this
    {
      && (forall i :: 0 <= i < |files| ==> ReadChecked(w, files[i]))
      && (forall i :: 0 <= i < |pending| ==> ReadChecked(w, pending[i]))
      && (forall q :: q in excluded ==> q in incomplete)
      && files == Flat(delivered) && batchSize > 0
      && (Quiet(w) ==> forall q :: q in incomplete ==> PassedBy(w, q))
    }

    /** Every file found so far, delivered or pending. */
    ghost function All(): seq<Found>
      reads this
    {
      files + pending
    }

    constructor (w: World, batchSize: nat, hindered: bool)
      ensures Valid() && this.w == w && now == 0 && files == [] && pending == [] && incomplete == [] && delivered == []
      ensures this.hindered == hindered && pendingIssues == 0 && this.batchSize == if batchSize == 0 then 1 else batchSize
    {
      this.w, this.batchSize, this.hindered := w, if batchSize == 0 then 1 else batchSize, hindered;
      now, pending, pendingIssues, files, incomplete, excluded, delivered := 0, [], 0, [], [], {}, [];
    }

    /** A lost root was seen lost by the last look. */
    ghost predicate Caused(halt: Option<Halt>)
      reads this
    {
      halt == Some(RootLost) ==> now > 0 && (w.obs(now - 1, []) != Folder(w.root) || !w.same(now - 1))
    }

    /** A refusal or a cancel, if anyone hinders the scan. */
    method Hindered() returns (yes: bool)
      ensures !hindered ==> !yes
    {
      yes := *;
      yes := hindered && yes;
    }

    method Stat(q: Path) returns (o: Observed)
      modifies `now
      ensures now == old(now) + 1 && o == w.obs(old(now), q)
    {
      o := w.obs(now, q);
      now := now + 1;
    }

    /** The length of the shortest path down to `f` whose folder lost its
        stamp; `|f.stamps|` when all kept theirs. */
    method ChangedFolder(f: Recorded) returns (k: nat)
      requires Sound(w, f)
      modifies `now
      ensures k <= |f.stamps| && now > old(now)
      ensures k == |f.stamps| <==> Unchanged(w, f, old(now))
      ensures k == |f.stamps| ==> now == old(now) + k
      ensures k < |f.stamps| ==> !w.Still(old(now) + k, f.path[..k], f.stamps[k]) && !Quiet(w)
    {
      k := 0;
      while k < |f.stamps|
        invariant k <= |f.stamps| && now == old(now) + k
        invariant forall i :: 0 <= i < k ==> w.Still(old(now) + i, f.path[..i], f.stamps[i])
      {
        var _ := Stat(f.path[..k]);
        QuietKeepsStill(w, f, now - 1, k);
        if !w.Still(now - 1, f.path[..k], f.stamps[k]) {
          return;
        }
        k := k + 1;
      }
    }

    /** Name a path uncertain and record the issue. */
    method Exclude(q: Path)
      requires Valid() && (Quiet(w) ==> PassedBy(w, q))
      modifies `incomplete, `pendingIssues
      ensures Valid() && incomplete == old(incomplete) + [q]
    {
      incomplete := incomplete + [q];
      pendingIssues := pendingIssues + 1;
    }

    /** Name a folder uncertain once. */
    method ExcludeFolder(q: Path)
      requires Valid() && (Quiet(w) ==> PassedBy(w, q))
      modifies `incomplete, `pendingIssues, `excluded
      ensures Valid() && q in incomplete && old(incomplete) <= incomplete
      ensures incomplete == old(incomplete) || incomplete == old(incomplete) + [q]
    {
      if q !in excluded {
        Exclude(q);
        excluded := excluded + {q};
      }
    }

    /** A check of `parent` and all above it: if one lost its stamp, the
        topmost such is named uncertain. */
    method AboveChanged(parent: Recorded) returns (changed: bool)
      requires Valid() && Sound(w, parent)
      modifies `now, `incomplete, `pendingIssues, `excluded
      ensures Valid() && now > old(now) && old(incomplete) <= incomplete
      ensures changed <==> !Unchanged(w, parent, old(now))
      ensures changed ==> NamedAbove(incomplete, parent.path)
      ensures !changed ==> incomplete == old(incomplete) && pendingIssues == old(pendingIssues)
      ensures !changed ==> now == old(now) + |parent.stamps|
    {
      var k := ChangedFolder(parent);
      changed := k < |parent.stamps|;
      if changed {
        ExcludeFolder(parent.path[..k]);
      }
    }

    /** Read the header, look at the entry again and ask for its file ID. */
    method ReadEntry(relative: Path, mark: nat) returns (readable: bool)
      modifies `now
      ensures now == old(now) + 3
      ensures readable <==> EntryReads(w, relative, mark, old(now))
      ensures Quiet(w) && IsFrame(w.obs(0, relative)) && w.obs(0, relative).mark == mark ==> readable
    {
      var parsed := w.header(now, relative);
      now := now + 1;
      var after := Stat(relative);
      var identified := w.fileId(now, relative);
      now := now + 1;
      readable := parsed && after == File(mark, true) && identified;
    }

    /** Read a frame's header by path. It counts exactly if the entry is the
        one seen before and every folder above it is unchanged, before and
        after; otherwise its place is uncertain. */
    method Read(parent: Recorded, relative: Path, mark: nat, ghost seen: nat)
      requires Valid() && Sound(w, parent) && |relative| == |parent.path| + 1 && Below(parent.path, relative)
      requires seen < now && w.obs(seen, relative) == File(mark, true)
      modifies `now, `pending, `incomplete, `pendingIssues, `excluded
      ensures Valid() && now > old(now) && old(incomplete) <= incomplete
      ensures if ReadsWhole(w, parent, relative, mark, old(now))
              then && pending == old(pending) + [Found(relative, mark, parent.stamps, old(now))]
                   && incomplete == old(incomplete)
              else pending == old(pending) && Uncertain(incomplete, relative)
    {
      var found := Found(relative, mark, parent.stamps, now);
      var whole := ReadWhole(parent, relative, mark, seen);
      if whole {
        ReadIsChecked(w, parent, found, seen);
        Accept(found);
      }
    }

    /** A file to report. */
    method Accept(f: Found)
      requires Valid() && ReadChecked(w, f)
      modifies `pending
      ensures Valid() && pending == old(pending) + [f]
    {
      pending := pending + [f];
    }

    /** Check the folders above, read the header, and look again at the entry
        and the folders. */
    method ReadWhole(parent: Recorded, relative: Path, mark: nat, ghost seen: nat) returns (whole: bool)
      requires Valid() && Sound(w, parent) && |relative| == |parent.path| + 1 && Below(parent.path, relative)
      requires w.obs(seen, relative) == File(mark, true)
      modifies `now, `incomplete, `pendingIssues, `excluded
      ensures Valid() && now > old(now) && old(incomplete) <= incomplete
      ensures whole <==> ReadsWhole(w, parent, relative, mark, old(now))
      ensures if whole then incomplete == old(incomplete) else Uncertain(incomplete, relative)
    {
      var changed := AboveChanged(parent);
      if changed {
        UncertainAbove(incomplete, parent, relative);
        whole := false;
      } else {
        whole := ReadUnmoved(parent, relative, mark, seen);
      }
    }

    /** Read the header and look again at the entry and the folders above. */
    method ReadUnmoved(parent: Recorded, relative: Path, mark: nat, ghost seen: nat) returns (whole: bool)
      requires Valid() && Sound(w, parent) && |relative| == |parent.path| + 1 && Below(parent.path, relative)
      requires w.obs(seen, relative) == File(mark, true)
      modifies `now, `incomplete, `pendingIssues, `excluded
      ensures Valid() && now > old(now) && old(incomplete) <= incomplete
      ensures whole <==> EntryReads(w, relative, mark, old(now)) && Unchanged(w, parent, old(now) + 3)
      ensures if whole then incomplete == old(incomplete) else Uncertain(incomplete, relative)
    {
      whole := ReadEntry(relative, mark);
      if !whole {
        Exclude(relative);
        UncertainBy(incomplete, relative, relative);
        return;
      }
      var changed := AboveChanged(parent);
      if changed {
        UncertainAbove(incomplete, parent, relative);
        whole := false;
      }
    }

    /** Observe one entry: enter it, read it, pass it by or name it uncertain. */
    method Observe(parent: Recorded, name: Name) returns (child: Option<Recorded>)
      requires Valid() && Sound(w, parent)
      modifies `now, `pending, `incomplete, `pendingIssues, `excluded
      ensures Valid() && now > old(now) && old(incomplete) <= incomplete
      ensures pending == old(pending) + Gained(w, parent, name, old(now))
      ensures EntrySettled(w, w.obs(old(now), parent.path + [name]), parent, name, pending, incomplete, child)
      ensures w.OnVolume(w.obs(old(now), parent.path + [name])) ==>
                now == old(now) + 1 && incomplete == old(incomplete) && pendingIssues == old(pendingIssues)
    {
      var relative := parent.path + [name];
      ghost var seen := now;
      var o := Stat(relative);
      assert o == w.obs(seen, relative);
      child := None;
      match o
      case Missing | Unreadable | Link =>
        Exclude(relative);
      case Folder(stamp) =>
        if stamp.device == w.root.device {
          child := Some(Recorded(relative, parent.stamps + [stamp]));
        } else {
          Exclude(relative);
        }
      case File(mark, frame) =>
        if frame {
          Read(parent, relative, mark, seen);
          GainedIsReported(w, parent, name, seen, old(pending), pending);
        }
    }

    /** What was pending becomes one more delivered batch, unless a cancel or a
        replaced root stops it first. */
    method Flush() returns (halt: Option<Halt>)
      requires Valid()
      modifies `now, `pending, `pendingIssues, `files, `delivered
      ensures Valid() && now >= old(now) && All() == old(All()) && old(delivered) <= delivered
      ensures halt == Some(Canceled) ==> now == old(now)
      ensures halt != Some(Canceled) ==> now == old(now) + 1
      ensures halt == Some(RootLost) ==> w.obs(old(now), []) != Folder(w.root)
      ensures halt.None? || halt == Some(Failed) ==> w.obs(old(now), []) == Folder(w.root)
      ensures if halt.None? || halt == Some(Failed)
              then delivered == old(delivered) + [old(pending)] && pending == [] && pendingIssues == 0
              else delivered == old(delivered) && pending == old(pending) && pendingIssues == old(pendingIssues)
      ensures !hindered ==> halt == if w.obs(old(now), []) == Folder(w.root) then None else Some(RootLost)
    {
      var canceled := Hindered();
      if canceled {
        return Some(Canceled);
      }
      var root := Stat([]);
      if root != Folder(w.root) {
        return Some(RootLost);
      }
      Deliver();
      var refused := Hindered();
      halt := if refused then Some(Failed) else None;
    }

    method Deliver()
      requires Valid()
      modifies `pending, `pendingIssues, `files, `delivered
      ensures Valid() && files == old(All()) && All() == old(All())
      ensures delivered == old(delivered) + [old(pending)] && pending == [] && pendingIssues == 0
    {
      files, delivered := files + pending, delivered + [pending];
      assert delivered[..|delivered| - 1] == old(delivered);
      pending, pendingIssues := [], 0;
    }

    /** Visit one entry, delivering the batch when it is full. */
    method Visit(parent: Recorded, name: Name) returns (child: Option<Recorded>, halt: Option<Halt>)
      requires Valid() && Sound(w, parent)
      modifies `now, `pending, `incomplete, `pendingIssues, `excluded, `files, `delivered
      ensures Valid() && old(incomplete) <= incomplete && old(delivered) <= delivered
      ensures All() == old(All()) + Gained(w, parent, name, old(now))
      ensures EntrySettled(w, w.obs(old(now), parent.path + [name]), parent, name, All(), incomplete, child)
      ensures w.OnVolume(w.obs(old(now), parent.path + [name])) && old(|pending| + pendingIssues) < batchSize ==>
                halt.None? && now == old(now) + 1 && pending == old(pending) && pendingIssues == old(pendingIssues)
      ensures Caused(halt) && (halt.None? ==> |pending| + pendingIssues < batchSize)
      ensures !hindered && Quiet(w) ==> halt.None?
    {
      child := Observe(parent, name);
      SettledInAll(w, w.obs(old(now), parent.path + [name]), parent, name, files, pending, incomplete, child);
      halt := None;
      if |pending| + pendingIssues >= batchSize {
        halt := Flush();
      }
    }

    /** Names to visit, if any could be read. Where they may not be all there
        is, the folder is uncertain, or the scan over when it is the scope. */
    method List(folder: Recorded, isScope: bool) returns (names: Option<seq<Name>>, halt: Option<Halt>)
      requires Valid() && Sound(w, folder)
      modifies `now, `incomplete, `pendingIssues, `excluded
      ensures Valid() && now > old(now) && old(incomplete) <= incomplete
      ensures halt.None? ==> forall p :: ToFind(w, folder.path, p) ==>
                Uncertain(incomplete, p) || (names.Some? && p[|folder.path|] in names.value)
      ensures ListsWhole(w, folder, old(now)) ==>
                && halt.None? && names == Some(w.list(old(now) + |folder.stamps|, folder.path).names)
                && now == old(now) + 2 * |folder.stamps| + 1 && incomplete == old(incomplete)
                && pendingIssues == old(pendingIssues)
      ensures !ListsWhole(w, folder, old(now)) ==>
                if isScope then halt == Some(Failed) else halt.None? && Uncertain(incomplete, folder.path)
      ensures Quiet(w) ==> halt.None? && names == Some(NamesOf(w.list(0, folder.path)))
    {
      names, halt := None, None;
      ListedNames(w, folder, now + |folder.stamps|);
      QuietListsWhole(w, folder, now);
      var at, listing := ListOnce(folder);
      if at.Some? {
        if isScope {
          return None, Some(Failed);
        }
        ExcludeFolder(at.value);
        UncertainBelow(w, incomplete, folder, at.value);
      }
      if listing.Names? {
        names := Some(listing.names);
      }
    }

    /** Read a directory between two checks of the folders down to it: what
        is uncertain then, if anything, and what the listing is evidence of. */
    method ListOnce(folder: Recorded) returns (at: Option<Path>, listing: Listing)
      requires Sound(w, folder)
      modifies `now
      ensures now > old(now)
      ensures at.None? <==> ListsWhole(w, folder, old(now))
      ensures at.Some? ==> Below(at.value, folder.path)
      ensures at.None? ==> listing == w.list(old(now) + |folder.stamps|, folder.path)
      ensures at.None? ==> now == old(now) + 2 * |folder.stamps| + 1
    {
      var changed := ChangedFolder(folder);
      if changed < |folder.stamps| {
        return Some(folder.path[..changed]), Refused;
      }
      listing := w.list(now, folder.path);
      now := now + 1;
      changed := ChangedFolder(folder);
      if changed < |folder.stamps| {
        return Some(folder.path[..changed]), Refused;
      }
      at := if listing.Refused? || !listing.complete then Some(folder.path) else None;
      assert at.Some? ==> folder.path[..|folder.path|] == folder.path;
    }

    /** Visit every name, in order, gathering the folders to enter. */
    method VisitAll(directory: Recorded, names: seq<Name>) returns (children: seq<Recorded>, halt: Option<Halt>)
      requires Valid() && Sound(w, directory)
      modifies `now, `pending, `incomplete, `pendingIssues, `excluded, `files, `delivered
      ensures Valid() && old(All()) <= All() && old(incomplete) <= incomplete && old(delivered) <= delivered
      ensures forall i :: 0 <= i < |children| ==> Sound(w, children[i])
      ensures halt.None? ==> forall p :: ToFind(w, directory.path, p) && p[|directory.path|] in names ==>
                Accounted(All(), incomplete, p) || Awaited(children, p)
      ensures Caused(halt) && (!hindered && Quiet(w) ==> halt.None?)
      ensures Quiet(w) && halt.None? ==> Paths(children) == FoldersIn(w, directory.path, names)
    {
      children, halt := [], None;
      for i := 0 to |names|
        invariant Quiet(w) ==> Paths(children) == FoldersIn(w, directory.path, names[..i])
        invariant Valid() && old(All()) <= All() && old(incomplete) <= incomplete && old(delivered) <= delivered
        invariant forall j :: 0 <= j < |children| ==> Sound(w, children[j])
        invariant forall p :: ToFind(w, directory.path, p) && p[|directory.path|] in names[..i] ==>
                    Accounted(All(), incomplete, p) || Awaited(children, p)
      {
        var canceled := Hindered();
        if canceled {
          return children, Some(Canceled);
        }
        ghost var was, uncertain, before, seen := All(), incomplete, children, now;
        var child, stopped := Visit(directory, names[i]);
        if stopped.Some? {
          return children, stopped;
        }
        if child.Some? {
          assert w.obs(seen, directory.path + [names[i]]).Folder?;
          children := children + [child.value];
          ChildIsSound(w, seen, directory, names[i], child.value.stamps[|directory.stamps|]);
        }
        assert names[..i + 1][..i] == names[..i];
        OneMoreVisited(w, seen, directory, names, i, was, uncertain, before, All(), incomplete, child);
      }
      assert names[..|names|] == names;
    }

    /** Walk the tree below `scope` with an explicit stack, folders in listing
        order. `budget` is when the run described is canceled if it still
        goes on; a completed walk needed no more, and on a quiet tree of known
        depth it is known what is enough. */
    method Run(scope: Recorded, budget: nat, ghost depth: nat) returns (halt: Option<Halt>)
      requires Valid() && Sound(w, scope)
      modifies this
      ensures Valid() && old(delivered) <= delivered
      ensures halt.None? ==> pending == []
      ensures Caused(halt)
      ensures halt.None? ==> now > 1 && w.obs(now - 1, []) == Folder(w.root) && w.same(now - 2)
      ensures !hindered && Quiet(w) && NoDeeper(w, scope.path, depth) && budget >= Cost(w, scope.path, depth) ==> halt.None?
      ensures halt.None? ==> forall p :: ToFind(w, scope.path, p) ==> Accounted(files, incomplete, p)
    {
      halt := WalkAll(scope, budget, depth);
      if halt.None? {
        halt := Conclude();
      }
    }

    /** The loop over the stack. */
    method WalkAll(scope: Recorded, budget: nat, ghost depth: nat) returns (halt: Option<Halt>)
      requires Valid() && Sound(w, scope)
      modifies this
      ensures Valid() && old(delivered) <= delivered && Caused(halt)
      ensures !hindered && Quiet(w) && NoDeeper(w, scope.path, depth) && budget >= Cost(w, scope.path, depth) ==> halt.None?
      ensures halt.None? ==> forall p :: ToFind(w, scope.path, p) ==> Accounted(All(), incomplete, p)
    {
      var stack, left: nat := [scope], budget;
      ghost var enough := Quiet(w) && NoDeeper(w, scope.path, depth) && budget >= Cost(w, scope.path, depth);
      if enough { EnoughForOne(w, scope, depth, budget); }
      AllAwaited(w, scope);
      while stack != []
        invariant enough ==> Enough(w, stack, scope.path, depth, left)
        invariant Valid() && old(delivered) <= delivered
        invariant forall i :: 0 <= i < |stack| ==> Sound(w, stack[i])
        invariant forall p :: ToFind(w, scope.path, p) ==> Accounted(All(), incomplete, p) || Awaited(stack, p)
        decreases left
      {
        if enough { NotSpent(w, stack, scope.path, depth, left); }
        var canceled := Hindered();
        if canceled || left == 0 {
          return Some(Canceled);
        }
        left := left - 1;
        var rest, stopped := EnterTop(scope, stack, depth);
        if stopped.Some? {
          return stopped;
        }
        stack := rest;
      }
      NoneAwaited(w, scope.path, All(), incomplete);
      halt := None;
    }

    /** Enter the folder on top of the stack; those it holds take its place. */
    method EnterTop(scope: Recorded, stack: seq<Recorded>, ghost depth: nat)
      returns (rest: seq<Recorded>, halt: Option<Halt>)
      requires Valid() && stack != [] && forall i :: 0 <= i < |stack| ==> Sound(w, stack[i])
      requires forall p :: ToFind(w, scope.path, p) ==> Accounted(All(), incomplete, p) || Awaited(stack, p)
      modifies this
      ensures Valid() && old(delivered) <= delivered
      ensures forall i :: 0 <= i < |rest| ==> Sound(w, rest[i])
      ensures halt.None? ==> forall p :: ToFind(w, scope.path, p) ==> Accounted(All(), incomplete, p) || Awaited(rest, p)
      ensures Caused(halt) && (!hindered && Quiet(w) ==> halt.None?)
      ensures Quiet(w) && halt.None? && NoDeeper(w, scope.path, depth) ==>
                forall left: nat :: Enough(w, stack, scope.path, depth, left) ==>
                  left > 0 && Enough(w, rest, scope.path, depth, left - 1)
    {
      ghost var was, uncertain := All(), incomplete;
      var directory := stack[|stack| - 1];
      var children, stopped := Enter(directory, directory == scope);
      rest, halt := stack[..|stack| - 1] + Backwards(children), stopped;
      if halt.None? {
        StillSought(w, scope.path, stack, children, was, uncertain, All(), incomplete);
        if Quiet(w) && NoDeeper(w, scope.path, depth) {
          TopEntered(w, stack, children, scope.path, depth);
        }
      }
    }

    /** The walk is done: look at the location once more, and deliver what is
        left if anything is. */
    method Conclude() returns (halt: Option<Halt>)
      requires Valid()
      modifies `now, `pending, `pendingIssues, `files, `delivered
      ensures Valid() && old(delivered) <= delivered && All() == old(All())
      ensures Caused(halt) && (!hindered ==> halt.None? || halt == Some(RootLost))
      ensures halt.None? ==> pending == [] && now > 1 && w.obs(now - 1, []) == Folder(w.root) && w.same(now - 2)
      ensures !hindered && w.same(old(now)) && w.obs(old(now) + 1, []) == Folder(w.root) ==> halt.None?
    {
      var revalidated := w.same(now);
      now := now + 1;
      if !revalidated {
        return Some(RootLost);
      }
      if pending == [] && pendingIssues == 0 {
        var root := Stat([]);
        return if root == Folder(w.root) then None else Some(RootLost);
      }
      halt := Flush();
    }

    /** List one directory and visit what it holds. */
    method Enter(directory: Recorded, isScope: bool) returns (children: seq<Recorded>, halt: Option<Halt>)
      requires Valid() && Sound(w, directory)
      modifies this
      ensures Valid() && old(All()) <= All() && old(incomplete) <= incomplete && old(delivered) <= delivered
      ensures forall i :: 0 <= i < |children| ==> Sound(w, children[i])
      ensures halt.None? ==> forall p :: ToFind(w, directory.path, p) ==> Accounted(All(), incomplete, p) || Awaited(children, p)
      ensures Caused(halt) && (!hindered && Quiet(w) ==> halt.None?)
      ensures Quiet(w) && halt.None? ==> Paths(children) == FoldersIn(w, directory.path, NamesOf(w.list(0, directory.path)))
    {
      children := [];
      var names, stopped := List(directory, isScope);
      if stopped.Some? || names.None? {
        return children, stopped;
      }
      ghost var uncertain := incomplete;
      children, halt := VisitAll(directory, names.value);
      forall p | ToFind(w, directory.path, p) && Uncertain(uncertain, p) ensures Accounted(All(), incomplete, p) {
        AccountedGrows(All(), uncertain, All(), incomplete, p);
      }
    }

    /** The scope as recorded on the way down, if every step on it is a folder
        of the root's volume. */
    method EnterScope(scope: Path) returns (folder: Option<Recorded>)
      requires w.obs(0, []) == Folder(w.root)
      modifies `now
      ensures folder.Some? ==> folder.value.path == scope && Sound(w, folder.value)
      ensures Quiet(w) ==> (folder.Some? <==> ScopeThere(w, scope))
    {
      var at := Recorded([], [w.root]);
      for i := 0 to |scope|
        invariant Quiet(w) ==> forall k :: 0 < k <= i ==> w.OnVolume(w.obs(0, scope[..k]))
        invariant Sound(w, at) && at.path == scope[..i]
      {
        ghost var seen := now;
        assert scope[..i + 1] == at.path + [scope[i]];
        var o := Stat(at.path + [scope[i]]);
        if !w.OnVolume(o) {
          return None;
        }
        ChildIsSound(w, seen, at, scope[i], o.stamp);
        at := Recorded(at.path + [scope[i]], at.stamps + [o.stamp]);
      }
      assert scope[..|scope|] == scope;
      folder := Some(at);
    }

    /** The whole scan: walk the scope and report. A halted scan claims no
        complete scope and reports only what it delivered. */
    method Scan(scope: Path, budget: nat, ghost depth: nat) returns (s: Option<ScanReport>)
      requires Valid() && w.obs(0, []) == Folder(w.root) && incomplete == []
      modifies this
      ensures s.Some? ==>
                && s.value.files == Flat(delivered)
                && (forall i :: 0 <= i < |s.value.files| ==> ReadChecked(w, s.value.files[i]))
                && (s.value.halt.None? <==> s.value.complete == Some(scope))
                && (s.value.halt.Some? ==> s.value.complete.None? && scope in s.value.incomplete)
                && s.value.halt != Some(Failed)
                && (forall p :: ToFind(w, scope, p) ==> !MarkedAbsent(s.value, p))
                && (Quiet(w) && s.value.halt.None? ==> forall p :: FrameAt(w, p) && Below(scope, p) && |scope| < |p| ==> Reported(s.value.files, p))
      ensures s.Some? && s.value.complete.Some? ==> now > 1 && w.obs(now - 1, []) == Folder(w.root) && w.same(now - 2)
      ensures s.Some? ==> Caused(s.value.halt)
      ensures !hindered && Quiet(w) && ScopeThere(w, scope) && NoDeeper(w, scope, depth) && budget >= Cost(w, scope, depth) ==>
                s.Some? && s.value.halt.None? && s.value.complete == Some(scope)
    {
      var folder := EnterScope(scope);
      if folder.None? {
        return None;
      }
      var halt := Run(folder.value, budget, depth);
      if halt == Some(Failed) {
        return None;
      }
      if halt.None? {
        s := Some(ScanReport(files, incomplete, Some(scope), None));
        QuietScanFindsAll(w, scope, s.value);
      } else {
        s := Some(ScanReport(files, incomplete + [scope], None, halt));
      }
    }

    // ---- The two lookups that must agree with the scan ----

    /** What the entry at `relative` is by the walker's rules, looked up step
        by step from the root; unobserved when a folder above it changed. */
    method EntryAt(relative: Path) returns (e: Entry)
      requires w.obs(0, []) == Folder(w.root)
      modifies `now
      ensures Quiet(w) ==> (e == Frame <==> FrameAt(w, relative)) && e != Unobserved
    {
      if relative == [] {
        return Other;
      }
      var above, step := Recorded([], [w.root]), 0;
      var o := Stat(relative[..1]);
      QuietStep(w, relative, 0, now - 1);
      while step + 1 < |relative| && w.OnVolume(o)
        invariant step < |relative| && now > 0 && o == w.obs(now - 1, relative[..step + 1])
        invariant Sound(w, above) && above.path == relative[..step]
        invariant Quiet(w) ==> o == w.obs(0, relative[..step + 1])
        decreases |relative| - step
      {
        assert relative[..step + 1] == above.path + [relative[step]];
        ChildIsSound(w, now - 1, above, relative[step], o.stamp);
        above := Recorded(relative[..step + 1], above.stamps + [o.stamp]);
        step := step + 1;
        o := Stat(relative[..step + 1]);
        QuietStep(w, relative, step, now - 1);
      }
      e := EntryOf(w, o, step + 1 == |relative|);
      QuietStep(w, relative, step, now - 1);
      if step + 1 == |relative| { QuietVerdict(w, above, relative); }
      var changed := ChangedFolder(above);
      if changed < |above.stamps| {
        e := Unobserved;
      }
    }

    /** What one directory holds, unless a check before or after finds it or
        one above it changed; and whether nothing in it went unread. */
    method ListFolder(folder: Recorded) returns (r: Option<FolderListing>)
      requires Sound(w, folder)
      modifies `now
      ensures r.Some? ==> forall i :: 0 <= i < |r.value.folders| ==> Sound(w, r.value.folders[i])
      ensures Quiet(w) ==> r.Some? && ListsFrames(w, folder, r.value)
    {
      var changed := ChangedFolder(folder);
      if changed < |folder.stamps| {
        return None;
      }
      var listing := w.list(now, folder.path);
      QuietLists(w, folder, now);
      QuietNames(w, folder, now);
      now := now + 1;
      if listing.Refused? {
        return Some(FolderListing([], [], false, false));
      }
      var found := FolderListing([], [], listing.complete, true);
      for i := 0 to |listing.names|
        invariant forall k :: 0 <= k < |found.folders| ==> Sound(w, found.folders[k])
        invariant Quiet(w) ==> FramesSoFar(w, folder, found, listing.names[..i])
      {
        ghost var was, seen := found, now;
        var path := folder.path + [listing.names[i]];
        var o := Stat(path);
        if w.OnVolume(o) {
          ChildIsSound(w, seen, folder, listing.names[i], o.stamp);
          found := found.(folders := found.folders + [Recorded(path, folder.stamps + [o.stamp])]);
        } else if IsFrame(o) {
          found := found.(frames := found.frames + [path]);
        } else if o.Unreadable? {
          found := found.(complete := false);
        }
        if Quiet(w) { OneMoreListed(w, folder, was, found, listing.names, i, seen); }
      }
      assert listing.names[..|listing.names|] == listing.names;
      changed := ChangedFolder(folder);
      r := if changed < |folder.stamps| then None else Some(found);
    }

    /** Every frame below the root, without reading a header; the folders it
        could not list, or only in part, are named. */
    method FramePaths(budget: nat) returns (frames: seq<Path>, unlisted: seq<Path>, halt: Option<Halt>)
      requires w.obs(0, []) == Folder(w.root)
      modifies `now
      ensures Quiet(w) && halt.None? ==> unlisted == [] && forall p :: p in frames <==> FrameAt(w, p)
    {
      frames, unlisted, halt := [], [], None;
      var root := Stat([]);
      if root != Folder(w.root) {
        return frames, unlisted, Some(RootLost);
      }
      var pending, left := [Recorded([], [w.root])], budget;
      forall p | FrameAt(w, p) ensures Awaited(pending, p) { AwaitedLast(pending, p); }
      while pending != []
        invariant forall i :: 0 <= i < |pending| ==> Sound(w, pending[i])
        invariant Quiet(w) ==> unlisted == [] && forall p :: p in frames ==> FrameAt(w, p)
        invariant Quiet(w) ==> forall p :: FrameAt(w, p) ==> p in frames || Awaited(pending, p)
        decreases left
      {
        var canceled: bool := *;
        if canceled || left == 0 {
          return frames, unlisted, Some(Canceled);
        }
        left := left - 1;
        ghost var before, was := pending, frames;
        var folder := pending[|pending| - 1];
        pending := pending[..|pending| - 1];
        var listed := ListFolder(folder);
        if listed.Some? && !listed.value.readable && folder.path == [] {
          return frames, unlisted, Some(Failed);
        }
        if listed.Some? {
          frames, pending := frames + listed.value.frames, pending + listed.value.folders;
          if !listed.value.complete {
            unlisted := unlisted + [folder.path];
          }
          if Quiet(w) { ListedBelow(w, before, folder, listed.value, was); }
        }
      }
      root := Stat([]);
      halt := if root == Folder(w.root) then None else Some(RootLost);
    }
  }

  /** On a quiet tree, below folders that were recorded, the last read says
      whether the entry is a frame. */
  lemma QuietVerdict(w: World, above: Recorded, relative: Path)
    requires Sound(w, above) && relative != [] && above.path == relative[..|relative| - 1]
    ensures Quiet(w) ==> (FrameAt(w, relative) <==> IsFrame(w.obs(0, relative)))
  {
    FrameAtIs(w, relative);
    if Quiet(w) {
      forall i | 0 <= i < |relative| ensures w.OnVolume(w.obs(0, relative[..i])) {
        assert above.path[..i] == relative[..i] && w.Still(0 + i, above.path[..i], above.stamps[i]);
      }
    }
  }

  /** The frames and the folders to enter that one directory holds. */
  datatype FolderListing = FolderListing(frames: seq<Path>, folders: seq<Recorded>, complete: bool, readable: bool)

  ghost predicate FramesSoFar(w: World, folder: Recorded, l: FolderListing, names: seq<Name>) {
    && l.complete
    && (forall p :: p in l.frames ==> FrameAt(w, p))
    && (forall p :: FrameAt(w, p) && Below(folder.path, p) && |folder.path| < |p| && p[|folder.path|] in names ==>
          p in l.frames || Awaited(l.folders, p))
  }

  /** A directory's listing has its frames and awaits those further below. */
  ghost predicate ListsFrames(w: World, folder: Recorded, l: FolderListing) {
    && l.complete
    && (forall p :: p in l.frames ==> FrameAt(w, p))
    && (forall p :: FrameAt(w, p) && Below(folder.path, p) && |folder.path| < |p| ==> p in l.frames || Awaited(l.folders, p))
  }

  lemma QuietNames(w: World, folder: Recorded, t: nat)
    ensures Quiet(w) && w.list(t, folder.path).Names? ==>
      forall p :: FrameAt(w, p) && Below(folder.path, p) && |folder.path| < |p| ==> p[|folder.path|] in w.list(t, folder.path).names
  {
    if Quiet(w) && w.list(t, folder.path).Names? {
      forall p | FrameAt(w, p) && Below(folder.path, p) && |folder.path| < |p|
        ensures p[|folder.path|] in w.list(t, folder.path).names
      {
        QuietFrameStaysPut(w, p);
        FrameAtIs(w, p);
        assert w.OnVolume(w.obs(0, p[..|folder.path|]));
        assert ListedThere(w, t, p[..|folder.path|], p[|folder.path|]);
      }
    }
  }

  lemma OneMoreListed(w: World, folder: Recorded, was: FolderListing, l: FolderListing, names: seq<Name>, i: nat, seen: nat)
    requires Quiet(w) && Sound(w, folder) && i < |names| && FramesSoFar(w, folder, was, names[..i])
    requires var path := folder.path + [names[i]];
      var o := w.obs(seen, path);
      l == if w.OnVolume(o) then was.(folders := was.folders + [Recorded(path, folder.stamps + [o.stamp])])
           else if IsFrame(o) then was.(frames := was.frames + [path])
           else if o.Unreadable? then was.(complete := false)
           else was
    ensures FramesSoFar(w, folder, l, names[..i + 1])
  {
    var path := folder.path + [names[i]];
    assert w.obs(seen, path) == w.obs(0, path) && !w.obs(0, path).Unreadable?;
    if IsFrame(w.obs(0, path)) {
      assert path[..|path| - 1] == folder.path;
      QuietVerdict(w, folder, path);
    }
    forall p | FrameAt(w, p) && Below(folder.path, p) && |folder.path| < |p| && p[|folder.path|] in names[..i + 1]
      ensures p in l.frames || Awaited(l.folders, p)
    {
      if p[|folder.path|] in names[..i] {
        if p !in was.frames { AwaitedGrows(was.folders, l.folders, p); }
      } else {
        BelowByName(folder.path, p);
        FrameAtIs(w, p);
        if |path| < |p| {
          assert w.OnVolume(w.obs(0, p[..|path|]));
          AwaitedLast(l.folders, p);
        } else {
          assert p == path;
        }
      }
    }
  }

  lemma ListedBelow(w: World, before: seq<Recorded>, folder: Recorded, l: FolderListing, frames: seq<Path>)
    requires before != [] && folder == before[|before| - 1] && ListsFrames(w, folder, l)
    requires forall p :: FrameAt(w, p) ==> p in frames || Awaited(before, p)
    ensures forall p :: FrameAt(w, p) ==> p in frames + l.frames || Awaited(before[..|before| - 1] + l.folders, p)
  {
    forall p | FrameAt(w, p) && p !in frames && p !in l.frames
      ensures Awaited(before[..|before| - 1] + l.folders, p)
    {
      AwaitedInstead(before, l.folders, p);
    }
  }

  lemma AllAwaited(w: World, scope: Recorded)
    ensures forall p :: ToFind(w, scope.path, p) ==> Awaited([scope], p)
  {
    forall p | ToFind(w, scope.path, p) ensures Awaited([scope], p) { AwaitedLast([scope], p); }
  }

  lemma NoneAwaited(w: World, scope: Path, all: seq<Found>, incomplete: seq<Path>)
    requires forall p :: ToFind(w, scope, p) ==> Accounted(all, incomplete, p) || Awaited([], p)
    ensures forall p :: ToFind(w, scope, p) ==> Accounted(all, incomplete, p)
  {
  }

  /** What was sought below the scope is accounted for, or still awaited. */
  lemma StillSought(w: World, scope: Path, before: seq<Recorded>, children: seq<Recorded>,
                    was: seq<Found>, uncertain: seq<Path>, all: seq<Found>, incomplete: seq<Path>)
    requires before != [] && was <= all && uncertain <= incomplete
    requires forall p :: ToFind(w, scope, p) ==> Accounted(was, uncertain, p) || Awaited(before, p)
    requires forall p :: ToFind(w, before[|before| - 1].path, p) ==> Accounted(all, incomplete, p) || Awaited(children, p)
    ensures forall p :: ToFind(w, scope, p) ==>
      Accounted(all, incomplete, p) || Awaited(before[..|before| - 1] + Backwards(children), p)
  {
    forall p | ToFind(w, scope, p) && !Accounted(all, incomplete, p)
      ensures Awaited(before[..|before| - 1] + Backwards(children), p)
    {
      if Accounted(was, uncertain, p) { AccountedGrows(was, uncertain, all, incomplete, p); }
      BackwardsHolds(children);
      AwaitedInstead(before, Backwards(children), p);
    }
  }

  /** What an entry is to discovery. */
  datatype Entry = Frame | Directory | Other | Unobserved

  function EntryOf(w: World, o: Observed, last: bool): Entry {
    if o.Unreadable? then Unobserved
    else if !last then Other
    else if w.OnVolume(o) then Directory
    else if IsFrame(o) then Frame
    else Other
  }

  /** On a quiet tree, a step of the lookup that ends it decides it. */
  lemma QuietStep(w: World, relative: Path, step: nat, seen: nat)
    requires step < |relative|
    ensures Quiet(w) ==> w.obs(seen, relative[..step + 1]) == w.obs(0, relative[..step + 1]) && !w.obs(seen, relative[..step + 1]).Unreadable?
    ensures Quiet(w) && step + 1 < |relative| && !w.OnVolume(w.obs(0, relative[..step + 1])) ==> !FrameAt(w, relative)
    ensures relative[..|relative|] == relative
  {
    FrameAtIs(w, relative);
  }

  /** Every step down to the scope is a folder of the root's volume. */
  ghost predicate ScopeThere(w: World, scope: Path) {
    forall k :: 0 < k <= |scope| ==> w.OnVolume(w.obs(0, scope[..k]))
  }

  /** The scan's observation: the files, the scopes whose contents are
      uncertain and, unless it halted, the one scope it claims complete. */
  datatype ScanReport = ScanReport(files: seq<Found>, incomplete: seq<Path>, complete: Option<Path>, halt: Option<Halt>)

  /** The absence rule: a catalogued file below the complete scope, neither
      reported nor at or below an incomplete one, counts as absent. */
  ghost predicate MarkedAbsent(s: ScanReport, p: Path) {
    && s.complete.Some? && Below(s.complete.value, p)
    && !Reported(s.files, p) && !Uncertain(s.incomplete, p)
  }

  lemma QuietScanFindsAll(w: World, scope: Path, s: ScanReport)
    requires forall p :: ToFind(w, scope, p) ==> Accounted(s.files, s.incomplete, p)
    requires Quiet(w) ==> forall q :: q in s.incomplete ==> PassedBy(w, q)
    ensures Quiet(w) ==> forall p :: FrameAt(w, p) && Below(scope, p) && |scope| < |p| ==> Reported(s.files, p)
  {
    if Quiet(w) {
      forall p | FrameAt(w, p) && Below(scope, p) && |scope| < |p| ensures Reported(s.files, p) {
        QuietFrameStaysPut(w, p);
        assert ToFind(w, scope, p);
        PassedByHidesNone(w, s.incomplete, p);
      }
    }
  }

  /** A list from its last to its first. */
  function Backwards(s: seq<Recorded>): (r: seq<Recorded>)
    ensures |r| == |s| && forall i :: 0 <= i < |s| ==> r[i] == s[|s| - 1 - i]
  {
    if s == [] then [] else [s[|s| - 1]] + Backwards(s[..|s| - 1])
  }

  lemma BackwardsHolds(s: seq<Recorded>)
    ensures forall p :: Awaited(s, p) ==> Awaited(Backwards(s), p)
  {
    forall p | Awaited(s, p) ensures Awaited(Backwards(s), p) {
      var i :| 0 <= i < |s| && Below(s[i].path, p) && |s[i].path| < |p|;
      assert Backwards(s)[|s| - 1 - i] == s[i];
    }
  }

  /** What waited on the stack still does when the directory popped gives way
      to folders that hold what waited below it. */
  lemma AwaitedInstead(before: seq<Recorded>, folders: seq<Recorded>, p: Path)
    requires before != [] && Awaited(before, p)
    requires Below(before[|before| - 1].path, p) && |before[|before| - 1].path| < |p| ==> Awaited(folders, p)
    ensures Awaited(before[..|before| - 1] + folders, p)
  {
    var stack := before[..|before| - 1] + folders;
    var i :| 0 <= i < |before| && Below(before[i].path, p) && |before[i].path| < |p|;
    if i < |before| - 1 {
      assert stack[i] == before[i];
    } else {
      var k :| 0 <= k < |folders| && Below(folders[k].path, p) && |folders[k].path| < |p|;
      assert stack[|before| - 1 + k] == folders[k];
    }
  }

  lemma SettledInAll(w: World, o: Observed, parent: Recorded, name: Name, files: seq<Found>, pending: seq<Found>,
                     incomplete: seq<Path>, child: Option<Recorded>)
    requires EntrySettled(w, o, parent, name, pending, incomplete, child)
    ensures EntrySettled(w, o, parent, name, files + pending, incomplete, child)
  {
    var relative := parent.path + [name];
    if Reported(pending, relative) {
      var i :| 0 <= i < |pending| && pending[i].path == relative;
      assert (files + pending)[|files| + i].path == relative;
    }
  }

  lemma UncertainBelow(w: World, incomplete: seq<Path>, folder: Recorded, at: Path)
    requires at in incomplete && Below(at, folder.path)
    ensures forall p :: Below(folder.path, p) ==> Uncertain(incomplete, p)
  {
    forall p | Below(folder.path, p) ensures Uncertain(incomplete, p) {
      assert p[..|at|] == p[..|folder.path|][..|at|];
      UncertainBy(incomplete, at, p);
    }
  }

  lemma QuietLists(w: World, folder: Recorded, t: nat)
    requires Sound(w, folder)
    ensures Quiet(w) ==> w.list(t, folder.path).Names? && w.list(t, folder.path).complete
  {
    if Quiet(w) {
      var n := |folder.path|;
      assert folder.path[..n] == folder.path;
      assert w.Still(0 + n, folder.path[..n], folder.stamps[n]);
      assert w.OnVolume(w.obs(0, folder.path));
    }
  }

  lemma QuietListsWhole(w: World, folder: Recorded, from: nat)
    requires Sound(w, folder)
    ensures Quiet(w) ==> ListsWhole(w, folder, from)
  {
    QuietLists(w, folder, from + |folder.stamps|);
    forall i, t: nat | 0 <= i <= |folder.path| ensures Quiet(w) ==> w.Still(t, folder.path[..i], folder.stamps[i]) {
      QuietKeepsStill(w, folder, t, i);
    }
  }

  /** A full listing names what stays put below the folder. */
  lemma ListedNames(w: World, folder: Recorded, t: nat)
    ensures w.list(t, folder.path).Names? && w.list(t, folder.path).complete ==>
      forall p :: ToFind(w, folder.path, p) ==>
        p[|folder.path|] in w.list(t, folder.path).names
  {
    forall p | ToFind(w, folder.path, p)
      ensures ListedThere(w, t, folder.path, p[|folder.path|])
    {
      assert ListedThere(w, t, p[..|folder.path|], p[|folder.path|]);
    }
  }

  lemma ChildIsSound(w: World, seen: nat, parent: Recorded, name: Name, stamp: Stamp)
    requires Sound(w, parent) && w.obs(seen, parent.path + [name]) == Folder(stamp) && stamp.device == w.root.device
    ensures Sound(w, Recorded(parent.path + [name], parent.stamps + [stamp]))
  {
    var path, stamps := parent.path + [name], parent.stamps + [stamp];
    if Quiet(w) {
      forall i | 0 <= i <= |path| ensures w.Still(0 + i, path[..i], stamps[i]) {
        if i <= |parent.path| {
          assert path[..i] == parent.path[..i] && w.Still(0 + i, parent.path[..i], parent.stamps[i]);
        } else {
          assert path[..i] == path;
        }
      }
    }
  }

  lemma AwaitedGrows(stack: seq<Recorded>, stack': seq<Recorded>, p: Path)
    requires Awaited(stack, p) && stack <= stack'
    ensures Awaited(stack', p)
  {
    var i :| 0 <= i < |stack| && Below(stack[i].path, p) && |stack[i].path| < |p|;
    assert stack'[i] == stack[i];
  }

  lemma AwaitedLast(stack: seq<Recorded>, p: Path)
    requires stack != [] && Below(stack[|stack| - 1].path, p) && |stack[|stack| - 1].path| < |p|
    ensures Awaited(stack, p)
  {
  }

  lemma BelowByName(q: Path, p: Path)
    requires Below(q, p) && |q| < |p|
    ensures Below(q + [p[|q|]], p)
  {
    assert p[..|q| + 1] == p[..|q|] + [p[|q|]];
  }

  /** One read on the way to a frame that stays put fails, or finds a folder
      of the root's volume, or the frame itself. */
  lemma StaysPutSeen(w: World, p: Path, relative: Path, seen: nat)
    requires StaysPut(w, p) && Below(relative, p)
    ensures |relative| < |p| ==> w.obs(seen, relative).Unreadable? || w.OnVolume(w.obs(seen, relative))
    ensures |relative| == |p| ==> p == relative && FrameThere(w, seen, relative)
  {
    if |relative| < |p| {
      assert FolderThere(w, seen, p[..|relative|]);
    } else {
      assert p[..|p|] == p;
    }
  }

  /** What observing one entry leaves: a folder to enter, a frame found or
      its place uncertain, or the entry itself uncertain. */
  ghost predicate EntrySettled(w: World, o: Observed, parent: Recorded, name: Name, pending: seq<Found>,
                               incomplete: seq<Path>, child: Option<Recorded>)
  {
    var relative := parent.path + [name];
    match o
    case Missing | Unreadable | Link => child.None? && relative in incomplete
    case Folder(stamp) =>
      if w.OnVolume(o) then child == Some(Recorded(relative, parent.stamps + [stamp]))
      else child.None? && relative in incomplete
    case File(_, frame) =>
      child.None? && (frame ==> Reported(pending, relative) || Uncertain(incomplete, relative))
  }

  lemma EntryAccounts(w: World, seen: nat, parent: Recorded, name: Name, pending: seq<Found>,
                      incomplete: seq<Path>, child: Option<Recorded>, p: Path)
    requires EntrySettled(w, w.obs(seen, parent.path + [name]), parent, name, pending, incomplete, child)
    requires StaysPut(w, p) && Below(parent.path + [name], p)
    ensures Reported(pending, p) || Uncertain(incomplete, p)
         || (child.Some? && Below(child.value.path, p) && |child.value.path| < |p|)
  {
    var relative := parent.path + [name];
    StaysPutSeen(w, p, relative, seen);
    if relative in incomplete { UncertainBy(incomplete, relative, p); }
  }

  /** With the i-th name visited too, what stays put below the folder under one
      of the names so far is accounted for or awaited. */
  lemma OneMoreVisited(w: World, seen: nat, directory: Recorded, names: seq<Name>, i: nat,
                       was: seq<Found>, uncertain: seq<Path>, before: seq<Recorded>,
                       all: seq<Found>, incomplete: seq<Path>, child: Option<Recorded>)
    requires i < |names| && was <= all && uncertain <= incomplete
    requires forall p :: ToFind(w, directory.path, p) && p[|directory.path|] in names[..i] ==>
      Accounted(was, uncertain, p) || Awaited(before, p)
    requires EntrySettled(w, w.obs(seen, directory.path + [names[i]]), directory, names[i], all, incomplete, child)
    ensures var children := if child.Some? then before + [child.value] else before;
      forall p :: ToFind(w, directory.path, p) && p[|directory.path|] in names[..i + 1] ==>
        Accounted(all, incomplete, p) || Awaited(children, p)
  {
    var children := if child.Some? then before + [child.value] else before;
    forall p | ToFind(w, directory.path, p) && p[|directory.path|] in names[..i + 1]
      ensures Accounted(all, incomplete, p) || Awaited(children, p)
    {
      if p[|directory.path|] in names[..i] {
        if Accounted(was, uncertain, p) { AccountedGrows(was, uncertain, all, incomplete, p); }
        else { AwaitedGrows(before, children, p); }
      } else {
        BelowByName(directory.path, p);
        EntryAccounts(w, seen, directory, names[i], all, incomplete, child, p);
        if child.Some? && Below(child.value.path, p) && |child.value.path| < |p| { AwaitedLast(children, p); }
      }
    }
  }

  lemma UncertainAbove(incomplete: seq<Path>, parent: Recorded, relative: Path)
    requires Below(parent.path, relative)
    requires NamedAbove(incomplete, parent.path)
    ensures Uncertain(incomplete, relative)
  {
    var k :| 0 <= k <= |parent.path| && parent.path[..k] in incomplete;
    assert relative[..k] == relative[..|parent.path|][..k];
    UncertainBy(incomplete, parent.path[..k], relative);
  }

  lemma ReadIsChecked(w: World, parent: Recorded, f: Found, seen: nat)
    requires Sound(w, parent) && |f.path| == |parent.path| + 1 && Below(parent.path, f.path) && f.stamps == parent.stamps
    requires seen < f.checked && w.obs(seen, f.path) == File(f.mark, true)
    requires ReadsWhole(w, parent, f.path, f.mark, f.checked)
    ensures ReadChecked(w, f)
  {
    assert f.Above() == parent;
  }

  /** What observing an entry from `seen` on adds to the report: a frame that
      is read whole, and nothing else. */
  function Gained(w: World, parent: Recorded, name: Name, seen: nat): seq<Found>
    requires |parent.stamps| == |parent.path| + 1
  {
    var relative := parent.path + [name];
    var o := w.obs(seen, relative);
    if o.File? && o.frame && ReadsWhole(w, parent, relative, o.mark, seen + 1)
    then [Found(relative, o.mark, parent.stamps, seen + 1)]
    else []
  }

  lemma GainedIsReported(w: World, parent: Recorded, name: Name, seen: nat, was: seq<Found>, pending: seq<Found>)
    requires |parent.stamps| == |parent.path| + 1 && pending == was + Gained(w, parent, name, seen)
    ensures Gained(w, parent, name, seen) != [] ==> Reported(pending, parent.path + [name])
  {
    if Gained(w, parent, name, seen) != [] {
      assert pending[|was|].path == parent.path + [name];
    }
  }

  function Flat(batches: seq<seq<Found>>): seq<Found> {
    if batches == [] then [] else Flat(batches[..|batches| - 1]) + batches[|batches| - 1]
  }
}
