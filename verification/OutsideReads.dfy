/** Whether what the scan reports was read where it says: the folders of a path
    may be swapped for links while its header is read. */
module OutsideReads {
  import opened Wrappers
  import opened InventoryWalk

  /** What a name stands for in a directory; a link leads to a directory, or to
      none. */
  datatype Node = Nothing | Denied | LinkTo(dir: Option<Stamp>) | Dir(stamp: Stamp) | Plain(mark: nat, frame: bool)
  {
    /** The directory a path goes on from here, links followed. */
    function Onward(): Option<Stamp> {
      match this
      case Dir(stamp) => Some(stamp)
      case LinkTo(dir) => dir
      case _ => None
    }

    /** What a look at it that follows no link finds. */
    function Look(): Observed {
      match this
      case Nothing => Missing
      case Denied => Unreadable
      case LinkTo(_) => Link
      case Dir(stamp) => Folder(stamp)
      case Plain(mark, frame) => File(mark, frame)
    }
  }

  /** The directories behind the paths, at every instant. */
  datatype Tree = Tree(top: nat -> Node, entry: (nat, Stamp, Name) -> Node)
  {
    /** The entry `name` of what `at` leads to. */
    function Under(t: nat, at: Node, name: Name): Node {
      if at.Onward().Some? then entry(t, at.Onward().value, name) else Nothing
    }

    /** Every node a path goes through from `at`, one name after another. */
    function Way(t: nat, at: Node, rest: Path): (nodes: seq<Node>)
      ensures |nodes| == |rest| + 1
      decreases |rest|
    {
      [at] + if rest == [] then [] else Way(t, Under(t, at, rest[0]), rest[1..])
    }

    /** What a path names, links followed on the way but not at its end. */
    function At(t: nat, q: Path): Node
      decreases |q|
    {
      if q == [] then top(t) else Under(t, At(t, q[..|q| - 1]), q[|q| - 1])
    }
  }

  /** Looking at a path finds what the directories behind it hold. */
  ghost predicate Shows(w: World, tree: Tree) {
    forall t, q :: w.obs(t, q) == tree.At(t, q).Look()
  }

  /** The i-th node on the way is what the first i names come to. */
  lemma {:induction false} WayIs(tree: Tree, t: nat, from: Path, rest: Path, i: nat)
    requires i <= |rest|
    ensures tree.Way(t, tree.At(t, from), rest)[i] == tree.At(t, from + rest[..i])
    decreases |rest|
  {
    if i == 0 {
      assert from + rest[..0] == from;
    } else {
      AtNext(tree, t, from, rest[0]);
      WayIs(tree, t, from + [rest[0]], rest[1..], i - 1);
      OneFurther(from, rest, i);
    }
  }

  lemma AtNext(tree: Tree, t: nat, from: Path, name: Name)
    ensures tree.At(t, from + [name]) == tree.Under(t, tree.At(t, from), name)
  {
    assert (from + [name])[..|from|] == from;
  }

  lemma OneFurther(from: Path, rest: Path, i: nat)
    requires 0 < i <= |rest|
    ensures from + [rest[0]] + rest[1..][..i - 1] == from + rest[..i]
  {
    assert rest[..i] == [rest[0]] + rest[1..][..i - 1];
  }

  /** Reading the file's header, its path went through a link or through a
      folder other than those recorded, or got nowhere. */
  ghost predicate ReadOutside(tree: Tree, f: Found)
    requires |f.stamps| == |f.path|
  {
    var way := tree.Way(f.ReadAt(), tree.top(f.ReadAt()), f.path);
    exists i :: 0 <= i < |f.path| && way[i] != Dir(f.stamps[i])
  }

  /** The i-th folder above the file is the recorded one at `t`. */
  predicate InPlace(w: World, f: Found, i: nat, t: nat)
    requires |f.stamps| == |f.path| && i < |f.path|
  {
    w.Still(t, f.path[..i], f.stamps[i])
  }

  /** Looked at one by one when the header was read, some folder above the
      file was not the recorded one. */
  ghost predicate AwayAtRead(w: World, f: Found)
    requires |f.stamps| == |f.path|
  {
    exists i :: 0 <= i < |f.path| && !InPlace(w, f, i, f.ReadAt())
  }

  lemma WayOfFile(w: World, tree: Tree, f: Found, i: nat)
    requires Shows(w, tree) && |f.stamps| == |f.path| && i < |f.path|
    ensures tree.Way(f.ReadAt(), tree.top(f.ReadAt()), f.path)[i] == Dir(f.stamps[i]) <==> InPlace(w, f, i, f.ReadAt())
  {
    WayIs(tree, f.ReadAt(), [], f.path, i);
    assert [] + f.path[..i] == f.path[..i];
    assert w.obs(f.ReadAt(), f.path[..i]) == tree.At(f.ReadAt(), f.path[..i]).Look();
  }

  /** The path went elsewhere exactly when some folder above, looked at without
      following links, was not the recorded one. */
  lemma OutsideIsAway(w: World, tree: Tree, f: Found)
    requires Shows(w, tree) && |f.stamps| == |f.path|
    ensures ReadOutside(tree, f) <==> AwayAtRead(w, f)
  {
    forall i | 0 <= i < |f.path|
      ensures tree.Way(f.ReadAt(), tree.top(f.ReadAt()), f.path)[i] == Dir(f.stamps[i]) <==> InPlace(w, f, i, f.ReadAt())
    {
      WayOfFile(w, tree, f, i);
    }
  }

  /** Read inside, the file is the entry of its name in the last folder
      recorded. */
  lemma InsideIsTheEntry(tree: Tree, f: Found)
    requires f.path != [] && |f.stamps| == |f.path| && !ReadOutside(tree, f)
    ensures var n := |f.path| - 1;
      tree.At(f.ReadAt(), f.path) == tree.entry(f.ReadAt(), f.stamps[n], f.path[n])
  {
    var n := |f.path| - 1;
    WayIs(tree, f.ReadAt(), [], f.path, n);
    assert [] + f.path[..n] == f.path[..n];
  }

  /** The i-th folder above the file was there at the first check, away at the
      read and back at the second check. */
  predicate SwapUndone(w: World, f: Found, i: nat)
    requires |f.stamps| == |f.path| && i < |f.path|
  {
    InPlace(w, f, i, f.checked + i) && !InPlace(w, f, i, f.ReadAt()) && InPlace(w, f, i, f.Again() + i)
  }

  /** A folder above the file that is not the recorded one at some instant
      between its two checks is not the recorded one at the second. */
  ghost predicate NoSwapUndone(w: World, f: Found)
    requires |f.stamps| == |f.path|
  {
    forall i, t: nat | 0 <= i < |f.path| && f.checked + i <= t <= f.Again() + i ::
      !InPlace(w, f, i, t) ==> !InPlace(w, f, i, f.Again() + i)
  }

  lemma CheckedTwice(w: World, f: Found, i: nat)
    requires ReadChecked(w, f) && i < |f.path|
    ensures InPlace(w, f, i, f.checked + i) && InPlace(w, f, i, f.Again() + i)
  {
    var above := f.Above();
    assert above.path[..i] == f.path[..i];
    assert w.Still(f.checked + i, above.path[..i], above.stamps[i]) && w.Still(f.Again() + i, above.path[..i], above.stamps[i]);
  }

  lemma AwayExactly(w: World, f: Found)
    requires ReadChecked(w, f)
    ensures AwayAtRead(w, f) <==> exists i :: 0 <= i < |f.path| && SwapUndone(w, f, i)
  {
    if AwayAtRead(w, f) {
      var i :| 0 <= i < |f.path| && !InPlace(w, f, i, f.ReadAt());
      CheckedTwice(w, f, i);
      assert SwapUndone(w, f, i);
    }
  }

  /** What the walk reports was read outside, its path resolved through the
      links of the moment, exactly when a folder above it was swapped away for
      the read and swapped back before the second check. */
  lemma OutsideExactly(w: World, tree: Tree, f: Found)
    requires Shows(w, tree) && ReadChecked(w, f)
    ensures ReadOutside(tree, f) <==> exists i :: 0 <= i < |f.path| && SwapUndone(w, f, i)
  {
    OutsideIsAway(w, tree, f);
    AwayExactly(w, f);
  }

  /** If no swap above a reported file is undone between its two checks, every
      folder above it was the recorded one from the one check to the other. */
  lemma NoOutsideFile(w: World, f: Found)
    requires ReadChecked(w, f) && NoSwapUndone(w, f)
    ensures forall i, t: nat | 0 <= i < |f.path| && f.checked + i <= t <= f.Again() + i :: InPlace(w, f, i, t)
    ensures !AwayAtRead(w, f)
  {
    forall i, t: nat | 0 <= i < |f.path| && f.checked + i <= t <= f.Again() + i ensures InPlace(w, f, i, t) {
      CheckedTwice(w, f, i);
    }
  }

  /** Then the header read was that of the file's own entry in the folder
      recorded last. */
  lemma ReadIsTheEntry(w: World, tree: Tree, f: Found)
    requires Shows(w, tree) && ReadChecked(w, f) && NoSwapUndone(w, f)
    ensures var n := |f.path| - 1;
      !ReadOutside(tree, f) && tree.At(f.ReadAt(), f.path) == tree.entry(f.ReadAt(), f.stamps[n], f.path[n])
  {
    NoOutsideFile(w, f);
    OutsideIsAway(w, tree, f);
    InsideIsTheEntry(tree, f);
  }

  /** The folder `a` is a link to another directory just while the header of
      the file in it is read. */
  function SwappedTree(): Tree {
    var root, folder, other := Stamp(1, 0), Stamp(1, 1), Stamp(1, 2);
    Tree((t: nat) => Dir(root),
         (t: nat, dir: Stamp, name: Name) =>
           if dir == root && name == "a" then (if t == 12 then LinkTo(Some(other)) else Dir(folder))
           else if dir == folder && name == "b" then Plain(7, true)
           else if dir == other && name == "b" then Plain(8, true)
           else Nothing)
  }

  function SwappedOnce(): World {
    World(Stamp(1, 0),
          (t: nat, q: Path) => SwappedTree().At(t, q).Look(),
          (t: nat, q: Path) => Names(if q == [] then ["a"] else ["b"], true),
          (t: nat, q: Path) => true, (t: nat, q: Path) => true, (t: nat) => true)
  }

  lemma SwappedOnceShows()
    ensures Shows(SwappedOnce(), SwappedTree())
  {
  }

  /** What the walk finds there. */
  ghost predicate LooksSwapped(w: World) {
    && w.root == Stamp(1, 0)
    && (forall t: nat :: w.obs(t, []) == Folder(Stamp(1, 0)))
    && (forall t: nat :: w.obs(t, ["a"]) == if t == 12 then Link else Folder(Stamp(1, 1)))
    && (forall t: nat :: t != 12 ==> w.obs(t, ["a", "b"]) == File(7, true))
    && (forall t: nat :: w.list(t, []) == Names(["a"], true) && w.list(t, ["a"]) == Names(["b"], true))
    && (forall t, q :: w.header(t, q) && w.fileId(t, q))
  }

  lemma SwappedLooks()
    ensures LooksSwapped(SwappedOnce())
  {
    var w, tree := SwappedOnce(), SwappedTree();
    assert ["a"][..0] == [] && ["a", "b"][..1] == ["a"];
    forall t: nat
      ensures w.obs(t, ["a"]) == if t == 12 then Link else Folder(Stamp(1, 1))
      ensures t != 12 ==> w.obs(t, ["a", "b"]) == File(7, true)
    {
      assert tree.At(t, ["a"]) == tree.Under(t, tree.At(t, []), "a");
      assert tree.At(t, ["a", "b"]) == tree.Under(t, tree.At(t, ["a"]), "b");
    }
  }

  const Top := Recorded([], [Stamp(1, 0)])

  const Inside := Recorded(["a"], [Stamp(1, 0), Stamp(1, 1)])

  /** From the start on, the root holds the folder `a` alone. */
  ghost predicate HoldsFolder(w: World) {
    && w.root == Top.stamps[0] && Sound(w, Top) && ListsWhole(w, Top, 0) && w.list(1, Top.path).names == ["a"]
    && w.obs(3, Top.path + ["a"]) == Folder(Inside.stamps[1]) && w.OnVolume(w.obs(3, Top.path + ["a"]))
    && Inside.path == Top.path + ["a"] && Inside.stamps == Top.stamps + [Inside.stamps[1]]
    && Gained(w, Top, "a", 3) == []
  }

  /** And later, that folder holds the file `b` alone, which is reported as
      `f`. */
  ghost predicate HoldsFile(w: World, f: Found) {
    && Sound(w, Inside) && ListsWhole(w, Inside, 4) && w.list(6, Inside.path).names == ["b"]
    && Gained(w, Inside, "b", 9) == [f]
  }

  lemma SwappedIsNotQuiet(w: World)
    requires LooksSwapped(w)
    ensures !Quiet(w)
  {
    assert w.obs(12, ["a"]) != w.obs(0, ["a"]);
  }

  lemma SwappedHoldsFolder(w: World)
    requires LooksSwapped(w)
    ensures HoldsFolder(w)
  {
    SwappedIsNotQuiet(w);
    assert Top.path + ["a"] == ["a"];
  }

  lemma InsideUnchanged(w: World, from: nat)
    requires LooksSwapped(w) && from != 11
    ensures Unchanged(w, Inside, from)
  {
    assert Inside.path[..0] == [] && Inside.path[..1] == ["a"];
  }

  lemma SwappedHoldsFile(w: World, f: Found)
    requires LooksSwapped(w) && f == Found(Inside.path + ["b"], 7, Inside.stamps, 10)
    ensures HoldsFile(w, f)
  {
    SwappedIsNotQuiet(w);
    InsideUnchanged(w, 4);
    InsideUnchanged(w, 7);
    InsideUnchanged(w, 10);
    InsideUnchanged(w, 15);
    assert f.path == ["a", "b"];
  }

  lemma SwappedReadsOutside(f: Found)
    requires f == Found(Inside.path + ["b"], 7, Inside.stamps, 10)
    ensures Shows(SwappedOnce(), SwappedTree()) && ReadOutside(SwappedTree(), f)
    ensures SwappedTree().At(f.ReadAt(), f.path) == Plain(8, true)
  {
    var tree := SwappedTree();
    SwappedOnceShows();
    SwappedLooks();
    assert f.path == ["a", "b"] && f.path[..1] == ["a"] && ["a", "b"][..1] == ["a"];
    assert tree.At(12, ["a"]).LinkTo? by { assert tree.At(12, ["a"]) == tree.Under(12, tree.At(12, []), "a"); }
    WayOfFile(SwappedOnce(), tree, f, 1);
    assert tree.At(12, ["a", "b"]) == tree.Under(12, tree.At(12, ["a"]), "b");
  }

  /** The walk lists a folder of one name whole and visits what it names. */
  method FollowName(walk: Walk, folder: Recorded, name: Name, isScope: bool) returns (child: Option<Recorded>)
    requires walk.Valid() && Sound(walk.w, folder) && |walk.pending| + walk.pendingIssues < walk.batchSize
    requires ListsWhole(walk.w, folder, walk.now)
    requires walk.w.list(walk.now + |folder.stamps|, folder.path).names == [name]
    modifies walk
    ensures var seen := old(walk.now) + 2 * |folder.stamps| + 1;
      && walk.Valid() && walk.All() == old(walk.All()) + Gained(walk.w, folder, name, seen)
      && EntrySettled(walk.w, walk.w.obs(seen, folder.path + [name]), folder, name, walk.All(), walk.incomplete, child)
      && (walk.w.OnVolume(walk.w.obs(seen, folder.path + [name])) ==>
            walk.now == seen + 1 && walk.pending == old(walk.pending) && walk.pendingIssues == old(walk.pendingIssues))
  {
    var names, _ := walk.List(folder, isScope);
    assert names == Some([name]);
    var found, _ := walk.Visit(folder, names.value[0]);
    child := found;
  }

  method EnterFolder(w: World) returns (walk: Walk)
    requires HoldsFolder(w)
    ensures fresh(walk) && walk.w == w && walk.Valid() && walk.now == 4 && walk.All() == [] && walk.files == []
    ensures |walk.pending| + walk.pendingIssues < walk.batchSize
  {
    walk := new Walk(w, 10, false);
    var child := FollowName(walk, Top, "a", true);
    assert child == Some(Inside);
  }

  method ReportFile(walk: Walk, ghost f: Found) returns (delivered: bool)
    requires walk.Valid() && walk.now == 4 && walk.All() == [] && |walk.pending| + walk.pendingIssues < walk.batchSize
    requires HoldsFile(walk.w, f)
    modifies walk
    ensures walk.Valid() && walk.All() == [f]
    ensures delivered ==> walk.files == [f]
  {
    var _ := FollowName(walk, Inside, "b", false);
    var halt := walk.Flush();
    delivered := halt.None?;
  }

  /** A swap undone between the checks does slip through: the walk lists the
      root, enters the folder and reports the file in it, but the header it
      read is another file's, in the directory a link led to. */
  method UndoneSwapSlipsThrough() returns (walk: Walk, f: Found, delivered: bool)
    ensures walk.w == SwappedOnce() && walk.Valid() && walk.All() == [f] && |f.stamps| == |f.path|
    ensures Shows(walk.w, SwappedTree()) && ReadOutside(SwappedTree(), f)
    ensures f.mark == 7 && SwappedTree().At(f.ReadAt(), f.path) == Plain(8, true)
    ensures delivered ==> walk.files == [f]
  {
    f := Found(Inside.path + ["b"], 7, Inside.stamps, 10);
    SwappedLooks();
    SwappedHoldsFolder(SwappedOnce());
    SwappedHoldsFile(SwappedOnce(), f);
    SwappedReadsOutside(f);
    walk := EnterFolder(SwappedOnce());
    delivered := ReportFile(walk, f);
  }
}
