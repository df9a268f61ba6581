/** The files a user kept of a replaced View on their way to `View (kept)/`.
    A journal claim opens each move and a record closes it; neither a crash
    in between nor anyone else at work in the folders leaves a file
    unaccounted for. */
module KeptMoves {
  import opened Wrappers
  import opened KeptNames

  /** A kept file's path from inside the View, and one file. */
  datatype Rel = Rel(folder: string, name: string)

  type FileId(==, !new) = nat

  /** A journal claim: the name the file moves to and what the file is. */
  datatype KeptClaim = KeptClaim(to: Rel, evidence: FileId)

  /** What a crash leaves: the two folders, the claims in the journal, the
      leftovers recorded as moved, each with the name its claim gave, those
      recorded and named in the report, gone before they moved or not found
      where they went, and the files someone else removed. */
  datatype Ledger = Ledger(previous: map<Rel, FileId>, kept: map<Rel, FileId>,
                           claims: map<Rel, KeptClaim>, moved: map<Rel, Rel>,
                           missing: set<Rel>, unproven: set<Rel>, gone: set<Rel>)

  predicate Holds(origin: map<Rel, FileId>, l: Ledger, p: Rel, name: Rel)
    requires p in origin
  {
    name in l.kept && l.kept[name] == origin[p]
  }

  predicate AtClaim(origin: map<Rel, FileId>, l: Ledger, p: Rel)
    requires p in origin
  {
    p in l.claims && Holds(origin, l, p, l.claims[p].to)
  }

  predicate AtMoved(origin: map<Rel, FileId>, l: Ledger, p: Rel)
    requires p in origin
  {
    p in l.moved && Holds(origin, l, p, l.moved[p])
  }

  /** A kept file is at its old name, or at the kept name its open claim or
      its recorded move gives, unless someone else removed it. */
  predicate Somewhere(origin: map<Rel, FileId>, l: Ledger, p: Rel)
    requires p in origin
  {
    p in l.previous || AtClaim(origin, l, p) || AtMoved(origin, l, p) || p in l.gone
  }

  /** The file is accounted for, and what the journal and the report say of it
      is so: it is named missing only when someone else removed it. */
  predicate FileFits(origin: map<Rel, FileId>, l: Ledger, p: Rel) {
    && (p in origin ==> Somewhere(origin, l, p))
    && (p in l.previous ==>
          p in origin && l.previous[p] == origin[p] && p !in l.gone && p !in l.moved && origin[p] !in l.kept.Values)
    && (p in l.moved ==> p in origin && p !in l.claims && (AtMoved(origin, l, p) || p in l.gone))
    && (p in l.claims ==> p in origin && l.claims[p].evidence == origin[p])
    && (p in l.missing || p in l.unproven ==> p in l.gone)
  }

  ghost predicate Accounted(origin: map<Rel, FileId>, l: Ledger) {
    forall p: Rel :: FileFits(origin, l, p)
  }

  predicate OneFileEach(origin: map<Rel, FileId>) {
    forall p, q :: p in origin && q in origin && p != q ==> origin[p] != origin[q]
  }

  /** The kept name a claim or a record gives the file, which holds it. */
  predicate KeptAs(origin: map<Rel, FileId>, l: Ledger, p: Rel, name: Rel) {
    && p in origin && Holds(origin, l, p, name)
    && ((p in l.claims && l.claims[p].to == name) || (p in l.moved && l.moved[p] == name))
  }

  /** No two files share a kept name, whether claimed or recorded. */
  lemma KeptNamesDiffer(origin: map<Rel, FileId>, l: Ledger, p: Rel, q: Rel, n: Rel, m: Rel)
    requires OneFileEach(origin) && p != q && KeptAs(origin, l, p, n) && KeptAs(origin, l, q, m)
    ensures n != m
  {
  }

  /** Files that left `View (previous)/` are as many entries of
      `View (kept)/`: none was merged with or replaced by another. */
  lemma {:induction false} KeptHoldsAll(origin: map<Rel, FileId>, l: Ledger, left: set<Rel>) returns (names: set<Rel>)
    requires OneFileEach(origin) && Accounted(origin, l) && left <= origin.Keys - l.previous.Keys - l.gone
    ensures names <= l.kept.Keys && |names| == |left|
    ensures forall n :: n in names ==> exists p :: p in left && KeptAs(origin, l, p, n)
  {
    if left == {} {
      names := {};
    } else {
      var p :| p in left;
      var others := KeptHoldsAll(origin, l, left - {p});
      assert FileFits(origin, l, p);
      var n := if p in l.claims then l.claims[p].to else l.moved[p];
      assert KeptAs(origin, l, p, n);
      forall m | m in others ensures m != n {
        var q :| q in left - {p} && KeptAs(origin, l, q, m);
        KeptNamesDiffer(origin, l, p, q, n, m);
      }
      names := others + {n};
    }
  }

  // ---- Steps ----

  lemma ClaimKeeps(origin: map<Rel, FileId>, l: Ledger, p: Rel, claim: KeptClaim)
    requires Accounted(origin, l) && p in origin && p !in l.moved && claim.evidence == origin[p]
    requires p in l.previous || p in l.gone
    ensures Accounted(origin, l.(claims := l.claims[p := claim]))
  {
    var after := l.(claims := l.claims[p := claim]);
    forall q ensures FileFits(origin, after, q) {
      assert FileFits(origin, l, q);
    }
  }

  lemma MoveKeeps(origin: map<Rel, FileId>, l: Ledger, p: Rel)
    requires Accounted(origin, l) && OneFileEach(origin) && p in l.previous && p in l.claims && l.claims[p].to !in l.kept
    ensures Accounted(origin, l.(previous := l.previous - {p}, kept := l.kept[l.claims[p].to := l.previous[p]]))
  {
    var after := l.(previous := l.previous - {p}, kept := l.kept[l.claims[p].to := l.previous[p]]);
    assert FileFits(origin, l, p);
    assert after.kept.Values <= l.kept.Values + {origin[p]};
    forall q ensures FileFits(origin, after, q) {
      assert FileFits(origin, l, q);
    }
  }

  datatype Kept = Moved | Unproven | Missing | Failed

  /** What `ended` says of a file is so. */
  predicate Truthful(origin: map<Rel, FileId>, l: Ledger, p: Rel, ended: Kept)
    requires p in origin
  {
    match ended
    case Moved => p in l.claims && p !in l.previous && (AtClaim(origin, l, p) || p in l.gone)
    case Unproven | Missing => p in l.gone
    case Failed => p in l.previous || p in l.gone
  }

  function Recorded(l: Ledger, p: Rel, ended: Kept): Ledger
    requires ended.Moved? ==> p in l.claims
  {
    l.(moved := if ended.Moved? then l.moved[p := l.claims[p].to] else l.moved,
       missing := if ended.Missing? then l.missing + {p} else l.missing,
       unproven := if ended.Unproven? then l.unproven + {p} else l.unproven,
       claims := l.claims - {p})
  }

  lemma RecordKeeps(origin: map<Rel, FileId>, l: Ledger, p: Rel, ended: Kept)
    requires Accounted(origin, l) && p in origin && Truthful(origin, l, p, ended)
    ensures Accounted(origin, Recorded(l, p, ended))
  {
    var after := Recorded(l, p, ended);
    forall q ensures FileFits(origin, after, q) {
      assert FileFits(origin, l, q);
    }
  }

  // ---- What others may do ----

  lemma AddKeeps(origin: map<Rel, FileId>, l: Ledger, name: Rel, file: FileId)
    requires Accounted(origin, l) && name !in l.kept && file !in origin.Values
    ensures Accounted(origin, l.(kept := l.kept[name := file]))
  {
    var after := l.(kept := l.kept[name := file]);
    assert after.kept.Values <= l.kept.Values + {file};
    forall q ensures FileFits(origin, after, q) {
      assert FileFits(origin, l, q);
      assert q in origin ==> origin[q] in origin.Values;
    }
  }

  lemma RemoveKeeps(origin: map<Rel, FileId>, l: Ledger, p: Rel)
    requires Accounted(origin, l) && p in l.previous
    ensures Accounted(origin, l.(previous := l.previous - {p}, gone := l.gone + {p}))
  {
    var after := l.(previous := l.previous - {p}, gone := l.gone + {p});
    forall q ensures FileFits(origin, after, q) {
      assert FileFits(origin, l, q);
    }
  }

  /** The kept files of this identity. */
  ghost function Files(origin: map<Rel, FileId>, file: FileId): set<Rel> {
    set p | p in origin && origin[p] == file
  }

  lemma DropKeeps(origin: map<Rel, FileId>, l: Ledger, name: Rel)
    requires Accounted(origin, l) && name in l.kept
    ensures Accounted(origin, l.(kept := l.kept - {name}, gone := l.gone + Files(origin, l.kept[name])))
  {
    var after := l.(kept := l.kept - {name}, gone := l.gone + Files(origin, l.kept[name]));
    assert l.kept[name] in l.kept.Values && after.kept.Values <= l.kept.Values;
    forall q ensures FileFits(origin, after, q) {
      assert FileFits(origin, l, q);
    }
  }

  /** `View (kept)/` has what it had, but for what others took out of it. */
  ghost predicate Grew(was: map<Rel, FileId>, now: map<Rel, FileId>, touched: set<Rel>) {
    forall n :: n in was && n !in touched ==> n in now && now[n] == was[n]
  }

  /** No file of `origin` but `p` came into `View (kept)/`. */
  ghost predicate NoOtherKept(origin: map<Rel, FileId>, was: map<Rel, FileId>, now: map<Rel, FileId>, p: Rel) {
    forall q :: q in origin && q != p && origin[q] in now.Values ==> origin[q] in was.Values
  }

  /** How one try at a name went; a name taken meanwhile is tried no more. */
  datatype Try = Ended(ended: Kept) | Taken(tried: nat)

  class KeptFolder {
    /** The files the user kept, as they were when Apply began. */
    const origin: map<Rel, FileId>
    /** What a file's kind and bytes come to; different files may agree. */
    const digest: FileId -> nat

    var previous: map<Rel, FileId>
    var kept: map<Rel, FileId>
    var claims: map<Rel, KeptClaim>
    var missing: set<Rel>
    var unproven: set<Rel>
    /** Whether anyone else is at work in the folders, and whether the disk may
        refuse what this Apply asks. */
    const crowded: bool
    const faulty: bool
    ghost var moved: map<Rel, Rel>
    /** What others removed or replaced: kept files, and names in
        `View (kept)/`. */
    ghost var gone: set<Rel>
    ghost var touched: set<Rel>
    /** Every ledger a crash could have left so far. */
    ghost var trace: seq<Ledger>

    ghost function Current(): Ledger
      reads this
    {
      Ledger(previous, kept, claims, moved, missing, unproven, gone)
    }

    ghost predicate Valid()
      reads this
    {
      && OneFileEach(origin)
      && trace != [] && trace[|trace| - 1] == Current()
      && forall i :: 0 <= i < |trace| ==> Accounted(origin, trace[i])
    }

    /** `p` is under the kept name its claim gives, one of its tries. */
    ghost predicate MovedAs(p: Rel)
      reads this
    {
      && p in origin && p !in previous && AtClaim(origin, Current(), p)
      && claims[p].to.folder == p.folder
      && exists k :: 1 <= k <= MAX_NUMBER && claims[p].to.name == KeptName(p.name, k)
    }

    /** `p` is still to move, unless someone else removed it. */
    ghost predicate ToMove(p: Rel)
      reads this
    {
      p in origin && p !in moved && origin[p] !in kept.Values
    }

    /** The call dealt with `p` alone; the rest is as it was or others' work. */
    twostate predicate LeavesRest(p: Rel)
      reads this
    {
      && old(trace) <= trace && old(gone) <= gone && old(touched) <= touched
      && previous.Keys <= old(previous).Keys
      && (forall q :: q in old(previous) && q != p ==> q in previous || q in gone)
      && Grew(old(kept), kept, touched) && NoOtherKept(origin, old(kept), kept, p)
    }

    constructor (previous: map<Rel, FileId>, kept: map<Rel, FileId>, digest: FileId -> nat, crowded: bool, faulty: bool)
      requires OneFileEach(previous) && previous.Values !! kept.Values
      ensures Valid() && origin == previous && this.digest == digest && claims == map[] && moved == map[]
      ensures missing == {} && unproven == {} && gone == {} && this.crowded == crowded && this.faulty == faulty
      ensures this.previous == previous && this.kept == kept
    {
      origin, this.digest := previous, digest;
      this.previous, this.kept, claims, moved := previous, kept, map[], map[];
      missing, unproven, gone, touched := {}, {}, {}, {};
      this.crowded, this.faulty := crowded, faulty;
      trace := [Ledger(previous, kept, map[], map[], {}, {}, {})];
    }

    ghost method Take()
      requires OneFileEach(origin) && Accounted(origin, Current())
      requires forall i :: 0 <= i < |trace| ==> Accounted(origin, trace[i])
      modifies `trace
      ensures Valid() && trace == old(trace) + [Current()]
    {
      trace := trace + [Current()];
    }

    lemma ToMoveIsThere(p: Rel)
      requires Valid() && ToMove(p)
      ensures p in previous || p in gone
      ensures p in previous ==> previous[p] == origin[p]
    {
      assert FileFits(origin, Current(), p);
    }

    // ---- Others ----

    /** Someone adds a file to `View (kept)/`. */
    method AddKept(name: Rel, file: FileId, ghost p: Rel)
      requires Valid() && name !in kept && file !in origin.Values
      modifies `kept, `trace
      ensures Valid() && LeavesRest(p) && (old(ToMove(p)) ==> ToMove(p))
      ensures p in origin && origin[p] in kept.Values ==> origin[p] in old(kept).Values
    {
      AddKeeps(origin, Current(), name, file);
      kept := kept[name := file];
      assert kept.Values <= old(kept).Values + {file};
      assert p in origin ==> origin[p] in origin.Values;
      Take();
    }

    /** Someone removes a file from `View (previous)/`. */
    method RemovePrevious(q: Rel, ghost p: Rel)
      requires Valid() && q in previous
      modifies `previous, `gone, `trace
      ensures Valid() && LeavesRest(p) && (p in old(previous) ==> p in previous || p in gone)
    {
      RemoveKeeps(origin, Current(), q);
      previous, gone := previous - {q}, gone + {q};
      Take();
    }

    /** Someone removes an entry of `View (kept)/`. */
    method RemoveKept(name: Rel, ghost p: Rel)
      requires Valid() && name in kept
      modifies `kept, `gone, `touched, `trace
      ensures Valid() && LeavesRest(p) && (old(ToMove(p)) ==> ToMove(p))
      ensures p in origin && origin[p] in kept.Values ==> origin[p] in old(kept).Values
    {
      DropKeeps(origin, Current(), name);
      gone, touched := gone + Files(origin, kept[name]), touched + {name};
      kept := kept - {name};
      assert kept.Values <= old(kept).Values;
      Take();
    }

    /** Anyone may add, remove or replace files meanwhile, any number of
        times; a replacement is a removal and an addition. */
    method Interfere(ghost p: Rel)
      requires Valid()
      modifies `previous, `kept, `gone, `touched, `trace
      ensures Valid() && LeavesRest(p)
      ensures p in old(previous) ==> p in previous || p in gone
      ensures old(ToMove(p)) ==> ToMove(p)
      ensures p in origin && origin[p] in kept.Values ==> origin[p] in old(kept).Values
      ensures !crowded ==> Current() == old(Current())
    {
      var times: nat := *;
      if !crowded {
        times := 0;
      }
      while times > 0
        invariant !crowded ==> times == 0 && Current() == old(Current())
        invariant Valid() && LeavesRest(p)
        invariant p in old(previous) ==> p in previous || p in gone
        invariant old(ToMove(p)) ==> ToMove(p)
        invariant p in origin && origin[p] in kept.Values ==> origin[p] in old(kept).Values
      {
        times := times - 1;
        var name: Rel, file: FileId := *, *;
        if name in previous {
          RemovePrevious(name, p);
        } else if name in kept {
          RemoveKept(name, p);
        } else if file !in origin.Values {
          AddKept(name, file, p);
        }
      }
    }

    // ---- One move ----

    /** Nobody is in the way, and some name is free. */
    predicate Unhindered(kept: map<Rel, FileId>)
    {
      !faulty && !crowded && |kept| < MAX_NUMBER
    }

    /** Claim the move of `p` to `name`, replacing its earlier claim. */
    method Claim(p: Rel, name: Rel)
      requires Valid() && ToMove(p)
      modifies `claims, `trace
      ensures Valid() && old(trace) <= trace && claims == old(claims)[p := KeptClaim(name, origin[p])]
    {
      ToMoveIsThere(p);
      ClaimKeeps(origin, Current(), p, KeptClaim(name, origin[p]));
      claims := claims[p := KeptClaim(name, origin[p])];
      Take();
    }

    /** Rename the file to its claimed name unless that is taken, the file is
        gone, or the rename is refused. */
    method MoveEntry(p: Rel) returns (ok: bool)
      requires Valid() && p in claims && ToMove(p)
      modifies `previous, `kept, `trace
      ensures Valid() && old(trace) <= trace
      ensures ok ==> claims[p].to !in old(kept) && p in old(previous)
      ensures if ok then previous == old(previous) - {p} && kept == old(kept)[claims[p].to := origin[p]]
              else previous == old(previous) && kept == old(kept)
      ensures !faulty ==> ok == (p in old(previous) && claims[p].to !in old(kept))
    {
      var refused: bool := *;
      ok := p in previous && claims[p].to !in kept && !(faulty && refused);
      if ok {
        ToMoveIsThere(p);
        MoveKeeps(origin, Current(), p);
        kept, previous := kept[claims[p].to := previous[p]], previous - {p};
        Take();
      }
    }

    /** Move the file and prove that its kept name holds it; none when that
        name was taken meanwhile. */
    method MoveProven(p: Rel) returns (ended: Option<Kept>)
      requires Valid() && p in claims && ToMove(p)
      modifies `previous, `kept, `gone, `touched, `trace
      ensures Valid() && LeavesRest(p)
      ensures ended == Some(Moved) ==> AtClaim(origin, Current(), p) && p !in previous
      ensures ended == Some(Moved) ==> claims[p].to !in old(kept)
      ensures ended.Some? ==> Truthful(origin, Current(), p, ended.value)
      ensures ended.None? ==> ToMove(p)
      ensures ended.None? || ended == Some(Failed) ==>
                && kept == old(kept) && previous == old(previous) && p in previous
                && (ended.None? <==> claims[p].to in kept) && (ended == Some(Failed) ==> faulty)
      ensures !faulty && !crowded && p in old(previous) && claims[p].to !in old(kept) ==>
                && ended == Some(Moved) && previous == old(previous) - {p} && gone == old(gone)
                && kept == old(kept)[claims[p].to := origin[p]]
    {
      var ok := MoveEntry(p);
      if !ok {
        ToMoveIsThere(p);
        if p !in previous {
          return Some(Missing);
        }
        return if claims[p].to in kept then None else Some(Failed);
      }
      Interfere(p);
      var proven := claims[p].to in kept && kept[claims[p].to] == origin[p];
      LeftIsClaimedOrGone(p);
      ended := Some(if proven then Moved else Unproven);
    }

    lemma LeftIsClaimedOrGone(p: Rel)
      requires Valid() && p in origin && p in claims && p !in previous
      ensures AtClaim(origin, Current(), p) || p in gone
    {
      assert FileFits(origin, Current(), p);
    }

    /** The least free number from `number` on, if there is one; all those
        before it are taken. */
    method PrepareKept(p: Rel, number: nat) returns (found: bool, free: nat)
      requires 1 <= number <= MAX_NUMBER
      ensures number <= free <= MAX_NUMBER
      ensures found <==> Rel(p.folder, KeptName(p.name, free)) !in kept
      ensures forall k :: number <= k < free ==> Rel(p.folder, KeptName(p.name, k)) in kept
      ensures !found ==> free == MAX_NUMBER
      ensures number == 1 && |kept| < MAX_NUMBER ==> found
    {
      var taken := set n | n in kept.Keys && n.folder == p.folder :: n.name;
      TriesDiffer(p.name);
      FewerNames(kept.Keys, p.folder, taken);
      found, free := FirstFree(Tries(p.name), number, taken);
      forall k ensures Tries(p.name)(k) in taken <==> Rel(p.folder, KeptName(p.name, k)) in kept {
        assert Rel(p.folder, KeptName(p.name, k)) in kept ==> KeptName(p.name, k) in taken;
      }
    }

    /** Claim one kept name and try to move the file there; anyone may take
        the name, or the file, in between. */
    method ClaimAndMove(p: Rel, number: nat) returns (ended: Option<Kept>)
      requires Valid() && ToMove(p) && 1 <= number <= MAX_NUMBER
      modifies `previous, `kept, `gone, `touched, `claims, `trace
      ensures Valid() && LeavesRest(p) && claims - {p} == old(claims) - {p}
      ensures ended == Some(Moved) ==> MovedAs(p) && (claims[p].to !in old(kept) || claims[p].to in touched)
      ensures ended.Some? ==> Truthful(origin, Current(), p, ended.value)
      ensures ended.None? ==> ToMove(p)
      ensures !faulty && !crowded && p in old(previous) && Rel(p.folder, KeptName(p.name, number)) !in old(kept) ==>
                && ended == Some(Moved) && previous == old(previous) - {p} && gone == old(gone)
                && kept == old(kept)[Rel(p.folder, KeptName(p.name, number)) := origin[p]]
      ensures ended.None? ==> Rel(p.folder, KeptName(p.name, number)) in kept
      ensures ended == Some(Failed) ==> faulty && Rel(p.folder, KeptName(p.name, number)) !in kept
    {
      var to := Rel(p.folder, KeptName(p.name, number));
      Claim(p, to);
      Interfere(p);
      ended := MoveProven(p);
      assert claims[p].to == to;
    }

    /** Find the first free name numbered `number` or later, claim it and try
        to move the file there. */
    method TryMove(p: Rel, number: nat) returns (t: Try)
      requires Valid() && ToMove(p) && 1 <= number <= MAX_NUMBER
      modifies `previous, `kept, `gone, `touched, `claims, `trace
      ensures Valid() && LeavesRest(p) && claims - {p} == old(claims) - {p}
      ensures t == Ended(Moved) ==> MovedAs(p) && (claims[p].to !in old(kept) || claims[p].to in touched)
      ensures t.Ended? ==> Truthful(origin, Current(), p, t.ended)
      ensures t.Taken? ==> ToMove(p) && number <= t.tried < MAX_NUMBER && Rel(p.folder, KeptName(p.name, t.tried)) in kept
      ensures t == Ended(Failed) ==> faulty || Rel(p.folder, KeptName(p.name, MAX_NUMBER)) in kept
      ensures number == 1 && Unhindered(old(kept)) && p in old(previous) ==>
                && t == Ended(Moved) && previous == old(previous) - {p} && gone == old(gone) && |kept| == |old(kept)| + 1
    {
      ToMoveIsThere(p);
      if p !in previous {
        return Ended(Missing);
      }
      var unreadable: bool := *;
      var found, free := PrepareKept(p, number);
      if (faulty && unreadable) || !found {
        return Ended(Failed);
      }
      var ended := ClaimAndMove(p, free);
      ToMoveEnds(p);
      t := if ended.Some? then Ended(ended.value) else if free == MAX_NUMBER then Ended(Failed) else Taken(free);
    }

    lemma ToMoveEnds(p: Rel)
      requires Valid()
      ensures ToMove(p) ==> Truthful(origin, Current(), p, Failed)
    {
      if ToMove(p) { ToMoveIsThere(p); }
    }

    /** Move one kept file to the first free name, claiming the next number
        whenever the name is taken between the claim and the move. */
    method MoveOneKept(p: Rel) returns (ended: Kept)
      requires Valid() && ToMove(p)
      modifies `previous, `kept, `gone, `touched, `claims, `trace
      ensures Valid() && LeavesRest(p) && claims - {p} == old(claims) - {p}
      ensures ended == Moved ==> MovedAs(p) && (claims[p].to !in old(kept) || claims[p].to in touched)
      ensures Truthful(origin, Current(), p, ended)
      ensures ended == Failed ==> faulty || Rel(p.folder, KeptName(p.name, MAX_NUMBER)) in kept
      ensures Unhindered(old(kept)) && p in old(previous) ==>
                && ended == Moved && previous == old(previous) - {p} && gone == old(gone) && |kept| == |old(kept)| + 1
    {
      var number := 1;
      while true
        invariant number == 1 ==> Current() == old(Current())
        invariant number > 1 ==> !(Unhindered(old(kept)) && p in old(previous))
        invariant Valid() && LeavesRest(p) && ToMove(p) && claims - {p} == old(claims) - {p}
        invariant 1 <= number <= MAX_NUMBER
        decreases MAX_NUMBER - number
      {
        var t := TryMove(p, number);
        match t
        case Ended(e) => return e;
        case Taken(tried) => number := tried + 1;
      }
    }

    /** Record how the move of `p` ended: its claim goes, a file that left
        reads Moved, and one not at its kept name is named in the report. */
    method Record(p: Rel, ended: Kept)
      requires Valid() && p in origin && Truthful(origin, Current(), p, ended)
      modifies `claims, `moved, `missing, `unproven, `trace
      ensures Valid() && old(trace) <= trace && Current() == Recorded(old(Current()), p, ended)
    {
      RecordKeeps(origin, Current(), p, ended);
      if ended.Moved? {
        moved := moved[p := claims[p].to];
      }
      if ended.Missing? {
        missing := missing + {p};
      }
      if ended.Unproven? {
        unproven := unproven + {p};
      }
      claims := claims - {p};
      Take();
    }

    /** Move one kept file and record it; whether it is gone from
        `View (previous)/`. */
    method MoveAndRecord(p: Rel) returns (ended: Kept)
      requires Valid() && ToMove(p) && claims == map[]
      modifies this
      ensures Valid() && LeavesRest(p) && claims == map[]
      ensures moved.Keys == (if ended.Moved? then old(moved).Keys + {p} else old(moved).Keys)
      ensures missing == (if ended.Missing? then old(missing) + {p} else old(missing))
      ensures unproven == (if ended.Unproven? then old(unproven) + {p} else old(unproven))
      ensures ended.Failed? || p !in previous
      ensures Unhindered(old(kept)) && p in old(previous) ==>
                && ended == Moved && previous == old(previous) - {p} && gone == old(gone) && |kept| == |old(kept)| + 1
    {
      ended := MoveOneKept(p);
      assert claims - {p} == map[];
      Record(p, ended);
      GoneIsGone(p);
    }

    lemma GoneIsGone(p: Rel)
      requires Valid()
      ensures p in gone ==> p !in previous
    {
      assert FileFits(origin, Current(), p);
    }

    /** Move every kept file, recording each move right after it; whether all
        of them left for their kept names or were missing. Whatever happens
        to one, the others are tried, and each is at its recorded name, still
        in `View (previous)/`, or gone by someone else's doing. */
    method MoveKept(files: seq<Rel>) returns (all: bool)
      requires Valid() && claims == map[]
      requires forall p :: p in files <==> p in previous
      requires forall i, j :: 0 <= i < j < |files| ==> files[i] != files[j]
      modifies this
      ensures Valid() && old(trace) <= trace && claims == map[]
      ensures all <==> forall p :: p in files ==> p in moved || p in missing
      ensures all ==> previous == map[]
      ensures !all ==> exists p :: p in files && p !in moved && (p in previous || p in gone)
      ensures gone == {} ==> (all <==> forall p :: p in files ==> p !in previous)
      ensures forall p :: p in origin ==> p in previous || AtMoved(origin, Current(), p) || p in gone
      ensures missing + unproven <= gone
      ensures !faulty && !crowded && |old(kept)| + |files| <= MAX_NUMBER ==> all && gone == old(gone)
    {
      AllToMove();
      all := MoveEach(files);
      AllSettled();
      WhatStayed(files);
      RecordedAre(files, moved.Keys + missing);
      if all {
        NoneLeft(files, old(previous), previous);
      }
    }

    method MoveEach(files: seq<Rel>) returns (all: bool)
      requires Valid() && claims == map[]
      requires forall p :: p in files <==> p in previous
      requires forall i, j :: 0 <= i < j < |files| ==> files[i] != files[j]
      modifies this
      ensures Valid() && old(trace) <= trace && claims == map[] && previous.Keys <= old(previous).Keys
      ensures all <==> AllRecorded(files, |files|, moved.Keys + missing)
      ensures Easy(files, old(kept)) ==> all && gone == old(gone)
    {
      AllToMove();
      all := true;
      for i := 0 to |files|
        invariant Valid() && old(trace) <= trace && claims == map[] && previous.Keys <= old(previous).Keys
        invariant StillToMove(files, i) && (all <==> AllRecorded(files, i, moved.Keys + missing))
        invariant Easy(files, old(kept)) ==>
                    all && gone == old(gone) && |kept| == |old(kept)| + i && StillThere(files, i)
      {
        var left := MoveNext(files, i, old(kept));
        all := all && left;
      }
    }

    /** Move the i-th file; whether it left for its kept name or was missing. */
    method MoveNext(files: seq<Rel>, i: nat, ghost kept0: map<Rel, FileId>) returns (left: bool)
      requires Valid() && claims == map[] && i < |files|
      requires forall j, k :: 0 <= j < k < |files| ==> files[j] != files[k]
      requires StillToMove(files, i)
      modifies this
      ensures Valid() && old(trace) <= trace && claims == map[] && previous.Keys <= old(previous).Keys
      ensures StillToMove(files, i + 1)
      ensures AllRecorded(files, i + 1, moved.Keys + missing) <==> old(AllRecorded(files, i, moved.Keys + missing)) && left
      ensures Easy(files, kept0) && |old(kept)| == |kept0| + i && old(StillThere(files, i)) ==>
                left && gone == old(gone) && |kept| == |kept0| + i + 1 && StillThere(files, i + 1)
    {
      ghost var recorded := moved.Keys + missing;
      var ended := MoveAndRecord(files[i]);
      left := ended.Moved? || ended.Missing?;
      OneMoreRecorded(files, i, recorded, moved.Keys + missing, left);
    }

    /** The files from the i-th on are still to move and not recorded. */
    ghost predicate StillToMove(files: seq<Rel>, i: nat)
      reads this
    {
      forall j :: i <= j < |files| ==> ToMove(files[j]) && files[j] !in missing
    }

    ghost predicate StillThere(files: seq<Rel>, i: nat)
      reads this
    {
      forall j :: i <= j < |files| ==> files[j] in previous
    }

    /** Nobody is in the way of any of the files. */
    predicate Easy(files: seq<Rel>, kept: map<Rel, FileId>)
    {
      !faulty && !crowded && |kept| + |files| <= MAX_NUMBER
    }

    /** A file not recorded is still in `View (previous)/` or gone. */
    lemma WhatStayed(files: seq<Rel>)
      requires Valid() && claims == map[] && forall p :: p in files ==> p in origin
      ensures forall p :: p in files && p !in moved ==> p in previous || p in gone
      ensures forall p :: p in moved || p in missing ==> p !in previous
    {
      forall p | p in origin ensures p in moved || p in previous || p in gone {
        assert FileFits(origin, Current(), p);
      }
      forall p | p in moved || p in missing ensures p !in previous {
        assert FileFits(origin, Current(), p);
      }
    }

    lemma AllToMove()
      requires Valid()
      ensures forall p :: p in previous ==> ToMove(p) && p !in missing
    {
      forall p | p in previous ensures ToMove(p) && p !in missing {
        assert FileFits(origin, Current(), p);
      }
    }

    /** With no claim open, every file is where the journal says, or gone. */
    lemma AllSettled()
      requires Valid() && claims == map[]
      ensures forall p :: p in origin ==> p in previous || AtMoved(origin, Current(), p) || p in gone
      ensures missing + unproven <= gone
    {
      forall p | p in origin ensures p in previous || AtMoved(origin, Current(), p) || p in gone {
        assert FileFits(origin, Current(), p);
      }
      forall p | p in missing + unproven ensures p in gone {
        assert FileFits(origin, Current(), p);
      }
    }

    /** The claimed name holds an entry of the kind and bytes claimed. */
    predicate HoldsBytes(p: Rel)
      reads this
    {
      p in claims && claims[p].to in kept && digest(kept[claims[p].to]) == digest(claims[p].evidence)
    }

    /** Settle one claim an interruption left: Moved exactly when the file left
        and its claimed name holds its bytes. Another file of the same bytes
        passes for it only when someone else removed it. */
    method SettleKeptClaim(p: Rel) returns (left: bool)
      requires Valid() && p in claims
      modifies `claims, `moved, `missing, `unproven, `trace
      ensures Valid() && old(trace) <= trace && claims == old(claims) - {p} && missing == old(missing) && unproven == old(unproven)
      ensures left <==> p !in previous && old(HoldsBytes(p))
      ensures p in origin && (left ==> AtClaim(origin, old(Current()), p) || p in gone)
      ensures p in origin && p !in previous && AtClaim(origin, old(Current()), p) ==> left
      ensures moved == if left then old(moved)[p := old(claims)[p].to] else old(moved)
    {
      ClaimFits(p);
      left := p !in previous && HoldsBytes(p);
      Record(p, if left then Moved else Failed);
    }

    lemma ClaimFits(p: Rel)
      requires Valid() && p in claims
      ensures p in origin && claims[p].evidence == origin[p]
      ensures p in previous || AtClaim(origin, Current(), p) || p in gone
    {
      assert FileFits(origin, Current(), p);
    }

    /** Close every claim a crash left open, others at work in between: each
        becomes a record where its kept name holds the file, and is dropped
        where the file never left or is gone. */
    method SettleKeptClaims()
      requires Valid()
      modifies this
      ensures Valid() && old(trace) <= trace && claims == map[]
      ensures forall p :: p in origin ==> p in previous || AtMoved(origin, Current(), p) || p in gone
      ensures forall p :: p in old(claims) ==>
                (p in moved && moved[p] == old(claims)[p].to) || p in old(previous) || p in gone
      ensures missing == old(missing) && unproven == old(unproven)
    {
      while claims != map[]
        invariant Valid() && old(trace) <= trace && missing == old(missing) && unproven == old(unproven) && old(gone) <= gone
        invariant previous.Keys <= old(previous).Keys
        invariant forall p :: p in claims ==> p in old(claims) && claims[p] == old(claims)[p]
        invariant forall p :: p in old(claims) && p !in claims ==>
                    (p in moved && moved[p] == old(claims)[p].to) || p in old(previous) || p in gone
        decreases |claims|
      {
        var p :| p in claims;
        SettleNext(p);
      }
      AllSettled();
    }

    /** Others at work, then one claim settled. */
    method SettleNext(p: Rel)
      requires Valid() && p in claims
      modifies this
      ensures Valid() && old(trace) <= trace && claims == old(claims) - {p}
      ensures missing == old(missing) && unproven == old(unproven) && old(gone) <= gone
      ensures previous.Keys <= old(previous).Keys && (forall q :: q in old(moved) && q != p ==> q in moved && moved[q] == old(moved)[q])
      ensures (p in moved && moved[p] == old(claims)[p].to) || p in old(previous) || p in gone
    {
      Interfere(p);
      ClaimFits(p);
      var _ := SettleKeptClaim(p);
    }
  }

  /** The first `n` files are recorded. */
  ghost predicate AllRecorded(files: seq<Rel>, n: nat, recorded: set<Rel>) {
    n <= |files| && forall j :: 0 <= j < n ==> files[j] in recorded
  }

  lemma RecordedAre(files: seq<Rel>, recorded: set<Rel>)
    ensures AllRecorded(files, |files|, recorded) <==> forall p :: p in files ==> p in recorded
  {
    if AllRecorded(files, |files|, recorded) {
      forall p | p in files ensures p in recorded {
        var j :| 0 <= j < |files| && files[j] == p;
      }
    }
  }

  lemma OneMoreRecorded(files: seq<Rel>, i: nat, recorded: set<Rel>, recorded': set<Rel>, added: bool)
    requires i < |files| && (forall j, k :: 0 <= j < k < |files| ==> files[j] != files[k]) && files[i] !in recorded
    requires recorded' == if added then recorded + {files[i]} else recorded
    ensures AllRecorded(files, i + 1, recorded') <==> AllRecorded(files, i, recorded) && added
  {
    if AllRecorded(files, i + 1, recorded') {
      assert files[i] in recorded';
    }
  }

  /** A folder of `View (kept)/` holds no more names than the whole does. */
  lemma {:induction false} FewerNames(kept: set<Rel>, folder: string, taken: set<string>)
    requires taken == set n | n in kept && n.folder == folder :: n.name
    ensures |taken| <= |kept|
  {
    if kept != {} {
      var n :| n in kept;
      var rest := set m | m in kept - {n} && m.folder == folder :: m.name;
      FewerNames(kept - {n}, folder, rest);
      assert taken <= rest + {n.name};
      SubsetIsSmaller(taken, rest + {n.name});
    }
  }

  lemma NoneLeft(files: seq<Rel>, before: map<Rel, FileId>, after: map<Rel, FileId>)
    requires forall p :: p in files <==> p in before
    requires after.Keys <= before.Keys && forall p :: p in files ==> p !in after
    ensures after == map[]
  {
    assert after.Keys == {};
  }
}
