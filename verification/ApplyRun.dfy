/** One Apply as its process runs it. Every method takes only steps of the
    state machine, recorded in `trace`, so whatever point the process dies at,
    the folders and the journal are those of a state of that trace. */
module ApplyRun {
  import opened Wrappers
  import opened ApplySwap
  import opened ApplyReads
  import opened ApplyMoved
  import ApplyInputs

  /** How a call left the Apply: settled, or broken off with its journal
      unsettled for the next start. */
  datatype Report = Finished(outcome: Outcome) | BrokeOff

  /** One planned entry, by its place in the plan. */
  type Entry = nat

  ghost predicate Retires(s: State, s': State) {
    exists gone :: Retire(s, gone, s')
  }

  ghost predicate RetiresAt(t: seq<State>, k: nat) {
    k + 1 < |t| && Retires(t[k], t[k + 1])
  }

  /** Ended by one of these stops, or broken off. */
  predicate EndsAmong(r: Report, stops: set<Stop>) {
    match r
    case Finished(Applied) => false
    case Finished(Ended(stop)) => stop in stops
    case BrokeOff => true
  }

  class Apply {
    const oldView: Option<FolderId>
    const before: Inputs
    /** Whether the disk and the catalog may refuse what this process asks. */
    const faulty: bool
    /** What else may happen while it runs, each thing named by the end it
        brings; with Interrupted, the process may be closed. */
    const trouble: set<Stop>

    var disk: Disk
    var phase: Phase
    var build: Option<FolderId>
    var outcome: Option<Outcome>
    var catalog: Inputs
    var reservation: Option<Reservation>
    /** The entries placed in `View (building)/` so far. */
    var built: seq<Entry>

    ghost var whole: bool
    ghost var log: seq<Event>
    ghost var pc: Pc
    ghost var trace: seq<State>

    ghost function Current(): State
      reads this
    {
      State(disk, phase, oldView, build, outcome, catalog, before, reservation, whole, log, pc)
    }

    ghost predicate Valid()
      reads this
    {
      Run(trace) && trace[|trace| - 1] == Current()
    }

    /** The report tells how the Apply stands: settled with the right View in
        place, or broken off. */
    ghost predicate Ends(r: Report)
      reads this
    {
      match r
      case Finished(Applied) => pc.Done? && outcome == Some(Applied) && At(disk, View, build) && whole
      case Finished(Ended(stop)) => pc.Done? && outcome == Some(Ended(stop)) && OldInPlace(Current())
      case BrokeOff => pc.Dead?
    }

    /** No edit moved what the reviewed sheet was planned from. */
    predicate SheetStands(now: Inputs) {
      && now.revision == before.revision && now.basis == before.basis && now.corrected == before.corrected
      && now.notReady == before.notReady && now.generation == before.generation
    }

    /** What this Apply reserved, and this Apply holding the Project. */
    ghost predicate AsReserved(now: Inputs)
      reads this
    {
      && reservation.Some? && now.revision == reservation.value.revision && now.digest == reservation.value.digest
      && now.generation == reservation.value.generation && now.running
    }

    /** The report's cause: an Apply ends early, or breaks off, only over what
        may happen here. */
    ghost predicate Explained(r: Report)
      reads this
    {
      match r
      case Finished(Applied) => true
      case Finished(Ended(stop)) => stop in trouble || (faulty && (stop.AsideFailed? || stop.NotInstalled?))
      case BrokeOff => faulty || Interrupted in trouble
    }

    /** The old View was retired at some step from the n-th state on. */
    ghost predicate RetiredSince(n: nat)
      reads this
    {
      exists k: nat :: n <= k && RetiresAt(trace, k)
    }

    constructor (disk: Disk, catalog: Inputs, before: Inputs, faulty: bool, trouble: set<Stop>)
      requires Distinct(disk) && catalog.running
      ensures Valid() && pc == Start && this.disk == disk && this.catalog == catalog && this.before == before
      ensures this.faulty == faulty && this.trouble == trouble && outcome.None?
    {
      this.disk := disk;
      this.oldView := if View in disk then Some(disk[View]) else None;
      this.catalog := catalog;
      this.before := before;
      this.faulty := faulty;
      this.trouble := trouble;
      phase, build, outcome, reservation, built := Reserved, None, None, None, [];
      whole, log, pc := false, [], Start;
      trace := [State(disk, Reserved, if View in disk then Some(disk[View]) else None, None, None, catalog, before,
                      None, false, [], Start)];
    }

    // ---- Steps ----

    /** Record the step that led here: what changed since the last record,
        with the process now at `next`. */
    ghost method Take(next: Pc)
      requires Run(trace)
      requires Next(trace[|trace| - 1], Current().(pc := next))
      modifies `pc, `trace
      ensures Valid() && pc == next && trace == old(trace) + [Current()]
    {
      pc := next;
      RunExtends(trace, Current());
      trace := trace + [Current()];
    }

    /** The process stops here, its journal unsettled. */
    method BreakOff() returns (r: Report)
      requires Valid() && !pc.Done?
      modifies `pc, `trace
      ensures Valid() && old(trace) <= trace && pc == Dead && r == BrokeOff
    {
      assert Crash(Current(), Current().(pc := Dead));
      Take(Dead);
      r := BrokeOff;
    }

    /** A rename that replaces nothing. */
    method Rename(from: Slot, to: Slot) returns (ok: bool)
      modifies `disk
      ensures ok ==> CanMove(old(disk), from, to) && disk == Moved(old(disk), from, to)
      ensures !ok ==> disk == old(disk)
      ensures !faulty && CanMove(old(disk), from, to) ==> ok
    {
      var refused: bool := *;
      ok := from in disk && to !in disk && !(faulty && refused);
      if ok {
        disk := (disk - {from})[to := disk[from]];
      }
    }

    /** Whether a write to the catalog was refused. */
    method Refused() returns (refused: bool)
      ensures !faulty ==> !refused
    {
      refused := *;
      refused := faulty && refused;
    }

    /** Whether what brings this end happens now. */
    method Happens(stop: Stop) returns (so: bool)
      ensures so ==> stop in trouble
    {
      so := *;
      so := so && stop in trouble;
    }

    /** Anyone may commit to the catalog while Apply is not looking. */
    method Interfere()
      requires Valid()
      modifies `catalog, `pc, `trace
      ensures Valid() && pc == old(pc) && old(trace) <= trace
      ensures catalog.revision >= old(catalog.revision) && catalog.running == old(catalog.running)
      ensures CatalogMoved !in trouble ==> catalog == old(catalog)
    {
      var now: Inputs := *;
      var edited := Happens(CatalogMoved);
      if edited && now.revision >= catalog.revision && now.running == catalog.running {
        catalog := now;
        assert Edit(trace[|trace| - 1], now, Current());
        Take(pc);
      }
    }

    // ---- Ending before the new View is installed ----

    /** Clear what a canceled Apply built. */
    method ClearBuilding()
      requires Valid() && pc == Ending(Canceled)
      modifies `disk, `whole, `pc, `trace
      ensures Valid() && old(trace) <= trace && pc == Discarding(Canceled)
      ensures disk == old(disk) || disk == old(disk) - {NewBuild}
    {
      var gone: bool := *;
      if gone {
        disk := disk - {NewBuild};
      }
      whole := false;
      assert ClearBuilt(trace[|trace| - 1], gone, Current().(pc := Discarding(Canceled)));
      Take(Discarding(Canceled));
    }

    method EndRun(stop: Stop) returns (r: Report)
      requires Valid() && pc == Ending(stop)
      modifies `disk, `whole, `phase, `outcome, `catalog, `pc, `trace
      ensures Valid() && old(trace) <= trace
      ensures Ends(r) && (r == Finished(Ended(stop)) || r == BrokeOff)
      ensures !faulty ==> r.Finished?
      ensures disk - {NewBuild} == old(disk) - {NewBuild} && (!stop.Canceled? ==> disk == old(disk))
    {
      if stop.Canceled? {
        ClearBuilding();
      }
      r := SettleEnded(stop);
    }

    method SettleEnded(stop: Stop) returns (r: Report)
      requires Valid() && (pc == Discarding(stop) || (pc == Ending(stop) && !stop.Canceled?))
      modifies `phase, `outcome, `catalog, `pc, `trace
      ensures Valid() && old(trace) <= trace
      ensures Ends(r) && (r == Finished(Ended(stop)) || r == BrokeOff)
      ensures !faulty ==> r.Finished?
    {
      var refused := Refused();
      if refused {
        r := BreakOff();
        return;
      }
      phase, outcome, catalog := Settled, Some(Ended(stop)), catalog.(running := false);
      assert Discard(trace[|trace| - 1], Current().(pc := Done));
      Take(Done);
      SettledOutcome(trace, |trace| - 1);
      r := Finished(Ended(stop));
    }

    method Cancel() returns (r: Report)
      requires Valid() && (pc.Placing? || pc.Checked? || pc.Waiting?)
      modifies this
      ensures Valid() && old(trace) <= trace && Ends(r)
      ensures r == Finished(Ended(Canceled)) || r == BrokeOff
      ensures !faulty ==> r.Finished?
    {
      assert AskCancel(Current(), Current().(pc := Ending(Canceled)));
      Take(Ending(Canceled));
      r := EndRun(Canceled);
    }

    // ---- The swap ----

    /** Put the old View back. */
    method RestoreOldView(why: Stop) returns (ok: bool)
      requires Valid() && pc == Restoring(why)
      modifies `disk, `pc, `trace
      ensures Valid() && old(trace) <= trace
      ensures ok ==> pc == Ending(why) && OldInPlace(Current()) && disk - {View, Previous} == old(disk) - {View, Previous}
      ensures !ok ==> pc == Dead && disk == old(disk)
      ensures !faulty ==> ok
    {
      RestoringCanMove(trace);
      ok := Rename(Previous, View);
      var next := if ok then Ending(why) else Dead;
      assert RestoreOld(trace[|trace| - 1], ok, Current().(pc := next));
      Take(next);
    }

    /** The old View is now under `View (previous)/`, or the disk is as it was
        and the result says why: a tool that may hold on does, or the rename
        was refused. */
    method MoveAsideOnce(mayHold: bool) returns (attempt: Attempt)
      requires Valid() && (pc.Waiting? || (pc.Ready? && oldView.Some? && SwapReady(disk, oldView).None?))
      modifies `disk, `log, `pc, `trace
      ensures Valid() && old(trace) <= trace
      ensures attempt == AsideMoved ==> pc == Aside(old(pc).Waiting?)
      ensures attempt == AsideHeld ==> pc == Waiting && disk == old(disk)
      ensures attempt == AsideFail ==> pc == Ending(AsideFailed) && disk == old(disk)
      ensures attempt == AsideHeld ==> mayHold
      ensures attempt == AsideFail ==> faulty || !CanMove(old(disk), View, Previous)
    {
      var held: bool := *;
      held := held && mayHold;
      var ok := false;
      if !held {
        ok := Rename(View, Previous);
      }
      attempt := if ok then AsideMoved else if held then AsideHeld else AsideFail;
      if held {
        log := log + [ToolHeld];
      }
      var next := if ok then Aside(old(pc).Waiting?) else if held then Waiting else Ending(AsideFailed);
      assert MoveAside(trace[|trace| - 1], attempt, Current().(pc := next));
      Take(next);
    }

    /** None once the old View is aside and the journal says so; otherwise the
        report of an Apply that went no further. A tool lets go within `polls`
        tries in the run described, which only delays it. */
    method SetOldViewAside(polls: nat) returns (ended: Option<Report>)
      requires Valid() && pc.Ready? && oldView.Some? && SwapReady(disk, oldView).None?
      modifies this
      ensures Valid() && old(trace) <= trace
      ensures ended.None? ==> pc == Install
      ensures ended.Some? ==> Ends(ended.value) && ended.value != Finished(Ended(Interrupted))
      ensures ended.Some? ==> ended.value != Finished(Applied)
      ensures old(AsReserved(catalog)) && ended.Some? ==> Explained(ended.value)
    {
      var left := polls;
      var attempt := MoveAsideOnce(left > 0);
      var waited := attempt == AsideHeld;
      while attempt == AsideHeld
        invariant Valid() && old(trace) <= trace
        invariant attempt == AsideMoved ==> pc == Aside(waited)
        invariant attempt == AsideHeld ==> waited && pc == Waiting && left > 0 && CanMove(disk, View, Previous)
        invariant attempt == AsideFail ==> pc == Ending(AsideFailed) && faulty
        invariant catalog == old(catalog) && reservation == old(reservation)
        decreases left
      {
        ended := CutShort();
        if ended.Some? {
          return;
        }
        left := left - 1;
        attempt := MoveAsideOnce(left > 0);
      }
      if attempt == AsideFail {
        var r := EndRun(AsideFailed);
        return Some(r);
      }
      if waited {
        ended := AfterWait();
      } else {
        ended := RecordMovedAside();
      }
    }

    /** Between two tries the user may cancel, and the process may be closed. */
    method CutShort() returns (ended: Option<Report>)
      requires Valid() && pc.Waiting?
      modifies this
      ensures Valid() && old(trace) <= trace
      ensures ended.None? ==> Current() == old(Current())
      ensures ended.Some? ==> Ends(ended.value) && Explained(ended.value)
      ensures ended.Some? ==> ended.value == Finished(Ended(Canceled)) || ended.value == BrokeOff
    {
      var canceled := Happens(Canceled);
      if canceled {
        var r := Cancel();
        return Some(r);
      }
      var closed := Happens(Interrupted);
      if closed {
        var r := BreakOff();
        return Some(r);
      }
      ended := None;
    }

    method RecordMovedAside() returns (ended: Option<Report>)
      requires Valid() && (pc == Aside(false) || pc == Rechecked)
      modifies `phase, `pc, `trace
      ensures Valid() && old(trace) <= trace
      ensures if ended.None? then pc == Install else Ends(ended.value) && ended.value == BrokeOff
      ensures !faulty ==> ended.None?
    {
      var refused := Refused();
      if refused {
        var r := BreakOff();
        return Some(r);
      }
      phase := OldMoved;
      assert RecordOldMoved(trace[|trace| - 1], Current().(pc := Install));
      Take(Install);
      ended := None;
    }

    /** The journal takes the release and its phase together, or the process
        stops with neither. */
    method RecordWaitEnded() returns (ok: bool)
      requires Valid() && pc == Aside(true)
      modifies `phase, `pc, `trace
      ensures Valid() && old(trace) <= trace
      ensures pc == if ok then Recheck else Dead
      ensures !faulty ==> ok
    {
      var refused := Refused();
      if refused {
        var _ := BreakOff();
        return false;
      }
      phase := WaitingForRelease;
      assert RecordRelease(trace[|trace| - 1], Current().(pc := Recheck));
      Take(Recheck);
      ok := true;
    }

    /** Read the catalog after a wait, with the old View aside: go on only if
        it still holds what was reserved, else put the old View back. */
    method AfterWait() returns (ended: Option<Report>)
      requires Valid() && pc == Aside(true)
      modifies this
      ensures Valid() && old(trace) <= trace
      ensures if ended.None? then pc == Install else Ends(ended.value)
      ensures log == old(log) ==> ended == Some(BrokeOff)
      ensures log != old(log) ==> exists now ::
                && log == old(log) + [Read(now)]
                && (ended.None? || ended == Some(BrokeOff) || !AsReserved(now))
                && (ended.None? ==> AsReserved(now))
      ensures reservation == old(reservation)
      ensures log != old(log) ==>
                if NothingHeld(Current()) then ended == Some(Finished(Ended(CatalogMoved))) || ended == Some(BrokeOff)
                else ended.None? || ended == Some(BrokeOff)
      ensures !faulty ==> ended != Some(BrokeOff)
      ensures old(catalog.revision) > before.revision ==>
                ended == Some(Finished(Ended(CatalogMoved))) || ended == Some(BrokeOff)
      ensures old(AsReserved(catalog)) && CatalogMoved !in trouble ==> ended.None? || ended == Some(BrokeOff)
    {
      var recorded := RecordWaitEnded();
      if !recorded {
        return Some(BrokeOff);
      }
      ended := GoOnIfReserved();
    }

    /** With the wait's end recorded, the read and what follows it. */
    method GoOnIfReserved() returns (ended: Option<Report>)
      requires Valid() && pc.Recheck?
      modifies this
      ensures Valid() && old(trace) <= trace
      ensures if ended.None? then pc == Install else Ends(ended.value)
      ensures exists now ::
                && log == old(log) + [Read(now)] && now.revision >= old(catalog.revision)
                && (ended.None? || ended == Some(BrokeOff) || !AsReserved(now))
                && (ended.None? ==> AsReserved(now))
      ensures reservation == old(reservation)
      ensures if NothingHeld(Current()) then ended == Some(Finished(Ended(CatalogMoved))) || ended == Some(BrokeOff)
              else ended.None? || ended == Some(BrokeOff)
      ensures !faulty ==> ended != Some(BrokeOff)
      ensures old(catalog.revision) > before.revision ==> ended.Some?
      ensures old(AsReserved(catalog)) && CatalogMoved !in trouble ==> ended.None? || ended == Some(BrokeOff)
    {
      var held := StillReserved();
      if held {
        ended := RecordMovedAside();
      } else {
        var r := PutBackMoved();
        ended := Some(r);
      }
    }

    /** The catalog moved while the old View was aside: put it back and end. */
    method PutBackMoved() returns (r: Report)
      requires Valid() && pc == Restoring(CatalogMoved)
      modifies `disk, `whole, `phase, `outcome, `catalog, `pc, `trace
      ensures Valid() && old(trace) <= trace && Ends(r)
      ensures r == Finished(Ended(CatalogMoved)) || r == BrokeOff
      ensures !faulty ==> r.Finished?
    {
      var ok := RestoreOldView(CatalogMoved);
      if ok {
        r := EndRun(CatalogMoved);
      } else {
        r := BrokeOff;
      }
    }

    /** One more read on the log, and its answer, which decides where the
        process goes. */
    method StillReserved() returns (held: bool)
      requires Valid() && (pc.Built? || pc.Recheck?)
      modifies `catalog, `log, `pc, `trace
      ensures Valid() && old(trace) <= trace && catalog.revision >= old(catalog.revision)
      ensures reservation.Some? && log == old(log) + [Read(catalog)]
      ensures held <==> AsReserved(catalog)
      ensures reservation.value.revision == before.revision
      ensures CatalogMoved !in trouble ==> catalog == old(catalog)
      ensures pc == if old(pc).Built? then if held then Checked else Ending(CatalogMoved)
                    else if held then Rechecked else Restoring(CatalogMoved)
    {
      Interfere();
      ReadsReserved(trace);
      held := Holds(reservation.value, catalog);
      log := log + [Read(catalog)];
      var next := if old(pc).Built? then if held then Checked else Ending(CatalogMoved)
                  else if held then Rechecked else Restoring(CatalogMoved);
      if old(pc).Built? {
        assert CheckReserved(trace[|trace| - 1], Current().(pc := next));
      } else {
        assert CheckAgain(trace[|trace| - 1], Current().(pc := next));
      }
      Take(next);
    }

    /** Clear the way for the swap: why not, if something stands in it. A
        folder that could not be read stays whole. */
    method ClearTheWay() returns (stop: Option<Stop>)
      requires Valid() && pc.Checked?
      modifies `disk, `pc, `trace
      ensures Valid() && old(trace) <= trace
      ensures if stop.None? then pc == Ready else pc == Ending(stop.value) && !stop.value.Interrupted?
      ensures disk == old(disk) || disk == old(disk) - {Previous}
      ensures stop.Some? ==> stop.value in trouble
      ensures stop.Some? ==>
                match stop.value
                case PreviousUnreadable => disk == old(disk)
                case KeptNotMoved => true
                case PreviousAppeared => oldView.None? && Previous in disk
                case _ => false
      ensures stop.None? && Previous in disk ==> oldView.Some? && PreviousAppeared in trouble
    {
      var unreadable := Happens(PreviousUnreadable);
      var stuck := Happens(KeptNotMoved);
      var left := Happens(PreviousAppeared);
      stop := if unreadable then Some(PreviousUnreadable) else if stuck then Some(KeptNotMoved) else None;
      ghost var why := stop;
      var gone := !unreadable && !left;
      if gone {
        disk := disk - {Previous};
      }
      if stop.None? && oldView.None? && Previous in disk {
        stop := Some(PreviousAppeared);
      }
      var next := if stop.None? then Ready else Ending(stop.value);
      assert MakeWay(trace[|trace| - 1], gone, why, Current().(pc := next));
      Take(next);
    }

    /** Swap the verified build in: the catalog is read first, the old View
        moves aside, the new one takes its name, and the old one comes back
        if that fails. */
    method Swap(polls: nat) returns (r: Report)
      requires Valid() && pc.Built?
      modifies this
      ensures Valid() && old(trace) <= trace && Ends(r)
      ensures r == Finished(Ended(CatalogMoved)) ==> NothingHeld(Current())
      ensures NothingHeld(Current()) ==> r == Finished(Ended(CatalogMoved)) || r == BrokeOff
      ensures old(AsReserved(catalog)) ==> Explained(r)
      ensures old(catalog.revision) > before.revision ==>
                && disk == old(disk) && (r == Finished(Ended(CatalogMoved)) || r == BrokeOff)
                && (!faulty ==> r.Finished?)
    {
      var held := StillReserved();
      if held {
        r := SwapReserved(polls);
      } else {
        r := EndRun(CatalogMoved);
      }
      if r.Finished? {
        MovedMeansReadFailed(trace, |trace| - 1);
      }
    }

    method SwapReserved(polls: nat) returns (r: Report)
      requires Valid() && pc.Checked?
      modifies this
      ensures Valid() && old(trace) <= trace && Ends(r) && r != Finished(Ended(Interrupted))
      ensures old(AsReserved(catalog)) ==> Explained(r)
    {
      var canceled := Happens(Canceled);
      if canceled {
        r := Cancel();
        return;
      }
      var stop := ClearTheWay();
      if stop.Some? {
        r := EndRun(stop.value);
        return;
      }
      if oldView.Some? {
        var ended := SwapOut(polls);
        if ended.Some? {
          return ended.value;
        }
      }
      r := InstallBuilt();
    }

    /** Check the folders right before the swap and set the old View aside. */
    method SwapOut(polls: nat) returns (ended: Option<Report>)
      requires Valid() && pc.Ready? && oldView.Some?
      modifies this
      ensures Valid() && old(trace) <= trace
      requires Previous in disk ==> PreviousAppeared in trouble
      ensures if ended.None? then pc == Install else Ends(ended.value) && ended.value != Finished(Ended(Interrupted))
      ensures ended.Some? ==> ended.value != Finished(Applied)
      ensures old(AsReserved(catalog)) && ended.Some? ==> Explained(ended.value)
      ensures old(Previous in disk) ==> ended.Some?
    {
      ReadyToMove(trace);
      var projectGone := Happens(ProjectFolderReplaced);
      var viewGone := Happens(ViewReplaced);
      var refusal := if projectGone then Some(ProjectFolderReplaced)
                     else if viewGone then Some(ViewReplaced)
                     else SwapReady(disk, oldView);
      if refusal.None? {
        ended := SetOldViewAside(polls);
        return;
      }
      assert RefuseSwap(Current(), refusal.value, Current().(pc := Ending(refusal.value)));
      Take(Ending(refusal.value));
      var r := EndRun(refusal.value);
      ended := Some(r);
    }

    method RenameBuild() returns (installed: bool)
      requires Valid() && (pc.Install? || (pc.Ready? && oldView.None?))
      modifies this
      ensures Valid() && old(trace) <= trace
      ensures pc == if installed then Installed else if oldView.Some? then Restoring(NotInstalled) else Ending(NotInstalled)
      ensures !faulty ==> installed
    {
      InstallCanMove(trace);
      installed := Rename(NewBuild, View);
      var next := if installed then Installed else if oldView.Some? then Restoring(NotInstalled) else Ending(NotInstalled);
      assert InstallNew(trace[|trace| - 1], installed, Current().(pc := next));
      Take(next);
    }

    /** Rename the build to `View/` and finish, or put the old View back. */
    method InstallBuilt() returns (r: Report)
      requires Valid() && (pc.Install? || (pc.Ready? && oldView.None?))
      modifies this
      ensures Valid() && old(trace) <= trace && Ends(r)
      ensures r == Finished(Applied) || r == Finished(Ended(NotInstalled)) || r == BrokeOff
      ensures !faulty ==> r == Finished(Applied)
    {
      var installed := RenameBuild();
      if installed {
        r := FinishInstalled();
      } else {
        r := EndNotInstalled();
      }
    }

    /** Put the old View back, if there is one, and end. */
    method EndNotInstalled() returns (r: Report)
      requires Valid() && pc == if oldView.Some? then Restoring(NotInstalled) else Ending(NotInstalled)
      modifies this
      ensures Valid() && old(trace) <= trace && Ends(r)
      ensures r == Finished(Ended(NotInstalled)) || r == BrokeOff
    {
      var ok := true;
      if oldView.Some? {
        ok := RestoreOldView(NotInstalled);
      }
      if ok {
        r := EndRun(NotInstalled);
      } else {
        r := BrokeOff;
      }
    }

    /** Past an installed build no way leads back: Applied, or a break-off that
        recovery can only end as Applied. */
    method FinishInstalled() returns (r: Report)
      requires Valid() && pc.Installed?
      modifies this
      ensures Valid() && old(trace) <= trace && Ends(r)
      ensures r == Finished(Applied) || r == BrokeOff
      ensures !faulty ==> r.Finished?
    {
      var refused := Refused();
      if refused { r := BreakOff(); return; }
      if phase.Before(NewInstalled) {
        phase := NewInstalled;
      }
      assert RecordInstalled(trace[|trace| - 1], Current().(pc := Finishing));
      Take(Finishing);
      r := CommitAndRetire();
    }

    method CommitAndRetire() returns (r: Report)
      requires Valid() && pc.Finishing?
      modifies this
      ensures Valid() && old(trace) <= trace && Ends(r)
      ensures r == Finished(Applied) || r == BrokeOff
      ensures !faulty ==> r.Finished?
      ensures old(phase).RetiringPrevious? && r.Finished? ==> RetiredSince(|old(trace)| - 1)
    {
      FinishingPhase(trace);
      var ok := true;
      if phase.Before(ManifestCommitted) {
        ok := CommitManifest();
      }
      if ok && phase.Before(ForeignTransferred) {
        ok := MoveForeignFiles();
      }
      if !ok {
        return BrokeOff;
      }
      r := RetireOrSettle();
    }

    /** Retire the old View where a manifest was replaced, else only settle. */
    method RetireOrSettle() returns (r: Report)
      requires Valid() && pc.Finishing? && !phase.Before(ForeignTransferred)
      modifies this
      ensures Valid() && old(trace) <= trace && Ends(r)
      ensures r == Finished(Applied) || r == BrokeOff
      ensures !faulty ==> r.Finished?
      ensures old(phase).RetiringPrevious? && r.Finished? ==> RetiredSince(|old(trace)| - 1)
    {
      FinishingPhase(trace);
      var replacedOne: bool := *;
      if replacedOne || phase.RetiringPrevious? {
        r := RetireAndSettle();
      } else {
        r := SettleInstalled();
      }
    }

    method CommitManifest() returns (ok: bool)
      requires Valid() && pc.Finishing? && phase.Before(ManifestCommitted)
      modifies `phase, `catalog, `pc, `trace
      ensures Valid() && old(trace) <= trace
      ensures if ok then pc.Finishing? && phase == ManifestCommitted else pc.Dead?
      ensures !faulty ==> ok
    {
      var refused := Refused();
      if refused {
        var _ := BreakOff();
        return false;
      }
      var generation: nat := *;
      phase, catalog := ManifestCommitted, catalog.(generation := Some(generation));
      assert Commit(trace[|trace| - 1], generation, Current());
      Take(Finishing);
      ok := true;
    }

    method MoveForeignFiles() returns (ok: bool)
      requires Valid() && pc.Finishing? && phase == ManifestCommitted
      modifies `phase, `pc, `trace
      ensures Valid() && old(trace) <= trace
      ensures if ok then pc.Finishing? && phase == ForeignTransferred else pc.Dead?
      ensures !faulty ==> ok
    {
      var refused := Refused();
      if refused {
        var _ := BreakOff();
        return false;
      }
      phase := ForeignTransferred;
      assert MoveForeign(trace[|trace| - 1], Current());
      Take(Finishing);
      ok := true;
    }

    /** Retire what the old View left in `View (previous)/`, then settle. */
    method RetireAndSettle() returns (r: Report)
      requires Valid() && pc.Finishing? && (phase.ForeignTransferred? || phase.RetiringPrevious?)
      modifies this
      ensures Valid() && old(trace) <= trace && Ends(r)
      ensures r == Finished(Applied) || r == BrokeOff
      ensures !faulty ==> r.Finished?
      ensures r.Finished? ==> RetiredSince(|old(trace)| - 1)
    {
      var ok := true;
      if phase.Before(RetiringPrevious) {
        ok := RecordRetiring();
      }
      if !ok {
        return BrokeOff;
      }
      ghost var from := |trace| - 1;
      RetirePrevious();
      ghost var done := trace;
      r := SettleInstalled();
      StaysRetired(done, trace, from);
    }

    method RecordRetiring() returns (ok: bool)
      requires Valid() && pc.Finishing? && phase.ForeignTransferred?
      modifies `phase, `pc, `trace
      ensures Valid() && old(trace) <= trace
      ensures if ok then pc.Finishing? && phase == RetiringPrevious else pc.Dead?
      ensures !faulty ==> ok
    {
      var refused := Refused();
      if refused {
        var _ := BreakOff();
        return false;
      }
      phase := RetiringPrevious;
      assert StartRetiring(trace[|trace| - 1], Current());
      Take(Finishing);
      ok := true;
    }

    method RetirePrevious()
      requires Valid() && pc.Finishing? && phase.RetiringPrevious?
      modifies `disk, `pc, `trace
      ensures Valid() && old(trace) <= trace && pc.Finishing?
      ensures disk == old(disk) || disk == old(disk) - {Previous}
      ensures RetiredSince(|old(trace)| - 1) && |old(trace)| > 0
    {
      var gone: bool := *;
      if gone {
        disk := disk - {Previous};
      }
      assert Retire(trace[|trace| - 1], gone, Current());
      assert Retires(trace[|trace| - 1], Current());
      Take(Finishing);
      assert RetiresAt(trace, |old(trace)| - 1);
    }

    method SettleInstalled() returns (r: Report)
      requires Valid() && pc.Finishing? && (phase.ForeignTransferred? || phase.RetiringPrevious?)
      modifies this
      ensures Valid() && old(trace) <= trace && Ends(r)
      ensures r == Finished(Applied) || r == BrokeOff
      ensures !faulty ==> r.Finished?
    {
      var refused := Refused();
      if refused { r := BreakOff(); return; }
      phase, outcome, catalog := Settled, Some(Applied), catalog.(running := false);
      assert SettleApplied(trace[|trace| - 1], Current().(pc := Done));
      Take(Done);
      SettledOutcome(trace, |trace| - 1);
      r := Finished(Applied);
    }

    // ---- Building ----

    /** Run a reserved Apply: read what the reservation left, build, verify,
        swap and settle. */
    method RunReserved(entries: seq<Entry>, polls: nat) returns (r: Report)
      requires Valid() && pc.Start?
      modifies this
      ensures Valid() && old(trace) <= trace && Ends(r)
      ensures old(SheetStands(catalog)) ==> Explained(r)
      ensures old(SheetStands(catalog)) && !faulty && trouble == {} ==> r == Finished(Applied)
      ensures !old(SheetStands(catalog)) && CatalogMoved !in trouble ==> r == Finished(Ended(CatalogMoved)) || r == BrokeOff
    {
      ApplyInputs.RunsAtStart(trace, |trace| - 1);
      var unmoved := ReadReservation();
      if !unmoved {
        r := EndRun(CatalogMoved);
        return;
      }
      var stop := BuildBeside(entries);
      match stop
      case None => r := Swap(polls);
      case Some(ended) => r := ended;
    }

    /** Read what the reservation left: whether no edit landed since the
        sheet. */
    method ReadReservation() returns (unmoved: bool)
      requires Valid() && pc.Start?
      modifies `catalog, `reservation, `pc, `trace
      ensures Valid() && old(trace) <= trace
      ensures unmoved <==> SheetStands(catalog)
      ensures CatalogMoved !in trouble ==> catalog == old(catalog)
      ensures catalog.running == old(catalog.running)
      ensures unmoved ==> reservation == Some(Reservation(catalog.revision, catalog.digest, catalog.generation))
      ensures pc == if unmoved then Planned else Ending(CatalogMoved)
    {
      Interfere();
      StartIsUnreserved(trace);
      reservation := ReservationOf(before, catalog);
      unmoved := reservation.Some?;
      var next := if unmoved then Planned else Ending(CatalogMoved);
      assert ReadAfter(trace[|trace| - 1], Current().(pc := next));
      Take(next);
    }

    /** None once every entry is built and verified; otherwise the report of an
        Apply that ended with the old View untouched, or broke off. */
    method BuildBeside(entries: seq<Entry>) returns (ended: Option<Report>)
      requires Valid() && pc.Planned?
      modifies this
      ensures Valid() && old(trace) <= trace
      ensures if ended.None? then pc.Built? && built == entries else Ends(ended.value)
      ensures if ended.None? then catalog == old(catalog) && reservation == old(reservation) else Explained(ended.value)
      ensures ended.Some? ==> ended.value != Finished(Applied)
    {
      ended := SnapshotOriginals();
      if ended.None? {
        ended := MakeFolder();
      }
      if ended.None? {
        ended := PlaceEntries(entries);
      }
    }

    /** Verify the originals and record it. */
    method SnapshotOriginals() returns (ended: Option<Report>)
      requires Valid() && pc.Planned?
      modifies this
      ensures Valid() && old(trace) <= trace
      ensures if ended.None? then pc.Sourced? else Ends(ended.value)
      ensures if ended.None? then catalog == old(catalog) && reservation == old(reservation) else Explained(ended.value)
      ensures ended.Some? ==> ended.value == Finished(Ended(OriginalsUnverified)) || ended.value == BrokeOff
    {
      var unverified := Happens(OriginalsUnverified);
      var sourcesOk := !unverified;
      var refused := Refused();
      if sourcesOk && refused {
        var r := BreakOff();
        return Some(r);
      }
      if sourcesOk {
        phase := SourcesVerified;
      }
      var next := if sourcesOk then Sourced else Ending(OriginalsUnverified);
      assert VerifySources(trace[|trace| - 1], sourcesOk, Current().(pc := next));
      Take(next);
      if !sourcesOk {
        var r := EndRun(OriginalsUnverified);
        return Some(r);
      }
      ended := None;
    }

    /** Whatever stood at `View (building)/`, a new folder takes its name and
        its identity is in the journal. */
    method MakeFolder() returns (ended: Option<Report>)
      requires Valid() && pc.Sourced?
      modifies this
      ensures Valid() && old(trace) <= trace
      ensures if ended.None? then pc.Placing? else Ends(ended.value)
      ensures if ended.None? then catalog == old(catalog) && reservation == old(reservation) else Explained(ended.value)
      ensures ended.Some? ==> ended.value == Finished(Ended(BuildingNotCleared)) || ended.value == BrokeOff
    {
      if NewBuild in disk {
        var cleared := ClearOldBuilding();
        if !cleared {
          var r := EndRun(BuildingNotCleared);
          return Some(r);
        }
      }
      ended := MakeEmptyFolder();
    }

    method MakeEmptyFolder() returns (ended: Option<Report>)
      requires Valid() && pc.Sourced? && NewBuild !in disk
      modifies `disk, `phase, `build, `pc, `trace
      ensures Valid() && old(trace) <= trace
      ensures if ended.None? then pc.Placing? else Ends(ended.value)
      ensures !faulty ==> ended.None?
      ensures ended.Some? ==> ended.value == BrokeOff
    {
      SomeFolderIsNew(disk.Values + if oldView.Some? then {oldView.value} else {});
      var id: FolderId :| id !in disk.Values && oldView != Some(id);
      var refused := Refused();
      if refused {
        // The folder could not be made, or its identity could not be read.
        var r := BreakOff();
        return Some(r);
      }
      disk := disk[NewBuild := id];
      assert MakeBuilding(trace[|trace| - 1], id, Current().(pc := Made(id)));
      Take(Made(id));
      ended := RecordFolder(id);
    }

    /** Record the identity of the folder the build is made in. */
    method RecordFolder(id: FolderId) returns (ended: Option<Report>)
      requires Valid() && pc == Made(id)
      modifies `phase, `build, `pc, `trace
      ensures Valid() && old(trace) <= trace
      ensures if ended.None? then pc.Placing? else Ends(ended.value)
      ensures !faulty ==> ended.None?
      ensures ended.Some? ==> ended.value == BrokeOff
    {
      var refused := Refused();
      if refused {
        var r := BreakOff();
        return Some(r);
      }
      phase, build := Building, Some(id);
      assert RecordBuilding(trace[|trace| - 1], Current().(pc := Placing));
      Take(Placing);
      ended := None;
    }

    method ClearOldBuilding() returns (cleared: bool)
      requires Valid() && pc.Sourced? && NewBuild in disk
      modifies `disk, `pc, `trace
      ensures Valid() && old(trace) <= trace
      ensures if cleared then pc.Sourced? && NewBuild !in disk else pc == Ending(BuildingNotCleared)
      ensures !cleared ==> disk == old(disk) && BuildingNotCleared in trouble
    {
      var foreign := Happens(BuildingNotCleared);
      cleared := !foreign;
      if cleared {
        disk := disk - {NewBuild};
      }
      var next := if cleared then Sourced else Ending(BuildingNotCleared);
      assert ClearStray(trace[|trace| - 1], cleared, Current().(pc := next));
      Take(next);
    }

    /** Place the entries one by one, then verify them all; Cancel stops
        between two of them. */
    method PlaceEntries(entries: seq<Entry>) returns (ended: Option<Report>)
      requires Valid() && pc.Placing?
      modifies this
      ensures Valid() && old(trace) <= trace
      ensures if ended.None? then pc.Built? && built == entries else Ends(ended.value)
      ensures if ended.None? then catalog == old(catalog) && reservation == old(reservation) else Explained(ended.value)
      ensures ended.Some? ==> EndsAmong(ended.value, {Canceled, EntryNotPlaced, BuildUnverified, ViewUnreadable})
    {
      var stop: Option<Stop> := None;
      built := [];
      for placed := 0 to |entries|
        invariant Valid() && pc.Placing? && old(trace) <= trace
        invariant built == entries[..placed] && catalog == old(catalog) && reservation == old(reservation)
      {
        var canceled := Happens(Canceled);
        var unplaced := Happens(EntryNotPlaced);
        if canceled {
          var r := Cancel();
          return Some(r);
        }
        if unplaced {
          stop := Some(EntryNotPlaced);
          break;
        }
        built := built + [entries[placed]];
      }
      ended := VerifyPlaced(stop);
    }

    /** Verify the entries placed, unless one of them could not be, and record
        the build. */
    method VerifyPlaced(unplaced: Option<Stop>) returns (ended: Option<Report>)
      requires Valid() && pc.Placing? && (unplaced.None? || unplaced == Some(EntryNotPlaced))
      modifies this
      ensures Valid() && old(trace) <= trace
      requires unplaced.Some? ==> unplaced.value in trouble
      ensures if ended.None? then pc.Built? && unplaced.None? && built == old(built) else Ends(ended.value)
      ensures if ended.None? then catalog == old(catalog) && reservation == old(reservation) else Explained(ended.value)
      ensures unplaced.Some? ==> ended == Some(Finished(Ended(EntryNotPlaced))) || ended == Some(BrokeOff)
      ensures unplaced.None? && ended.Some? ==> EndsAmong(ended.value, {BuildUnverified, ViewUnreadable})
    {
      var wrong := Happens(BuildUnverified);
      var stop := if unplaced.None? && wrong then Some(BuildUnverified) else unplaced;
      whole := stop.None? || whole;
      var next := if stop.None? then Verified else Ending(stop.value);
      assert PlaceAll(trace[|trace| - 1], stop, Current().(pc := next));
      Take(next);
      if stop.Some? {
        var r := EndRun(stop.value);
        return Some(r);
      }
      ended := RecordBuilt();
    }

    /** Inventory the current View and record the verified build. */
    method RecordBuilt() returns (ended: Option<Report>)
      requires Valid() && pc.Verified?
      modifies this
      ensures ended.None? ==> built == old(built)
      ensures Valid() && old(trace) <= trace
      ensures if ended.None? then pc.Built? else Ends(ended.value)
      ensures if ended.None? then catalog == old(catalog) && reservation == old(reservation) else Explained(ended.value)
      ensures ended.Some? ==> ended.value == Finished(Ended(ViewUnreadable)) || ended.value == BrokeOff
    {
      var unreadable := Happens(ViewUnreadable);
      var readable := !unreadable;
      var refused := Refused();
      if readable && refused {
        var r := BreakOff();
        return Some(r);
      }
      TakeBuilt(readable);
      if readable {
        return None;
      }
      var r := EndRun(ViewUnreadable);
      ended := Some(r);
    }

    method TakeBuilt(readable: bool)
      requires Valid() && pc.Verified?
      modifies `phase, `pc, `trace
      ensures Valid() && old(trace) <= trace && pc == if readable then Built else Ending(ViewUnreadable)
    {
      if readable {
        phase := BuildVerified;
      }
      var next := if readable then Built else Ending(ViewUnreadable);
      assert RecordBuild(trace[|trace| - 1], readable, Current().(pc := next));
      Take(next);
    }

    // ---- Recovery ----

    /** After a crash: at most one rename, and a verdict the folders bear
        out. */
    method RecoverFolders() returns (v: Verdict)
      requires Valid() && pc.Dead?
      modifies `disk, `pc, `trace
      ensures Valid() && old(trace) <= trace && pc == PcAfter(v)
      ensures v == RecoveredInstalled ==> NewInPlace(Current())
      ensures v == RecoveredNot ==> OldInPlace(Current())
      ensures v == Stuck ==> disk == old(disk)
      ensures !faulty ==> v == if old(At(disk, View, build)) then RecoveredInstalled else RecoveredNot
    {
      RecoveryNeverStuck(trace);
      var plan := RecoverPlan(disk, phase, oldView, build);
      var ok := true;
      if plan.Rename? {
        ok := Rename(plan.from, plan.to);
        v := if ok then plan.done else Stuck;
      } else {
        v := plan.verdict;
      }
      assert Recover(trace[|trace| - 1], ok, Current().(pc := PcAfter(v)));
      Take(PcAfter(v));
    }

    /** The next start's run over a journal left unsettled: Applied when the
        build was `View/` already, else Interrupted, unless the disk or the
        catalog refuses and the journal waits on. */
    method RecoverApply() returns (r: Report)
      requires Valid() && pc.Dead?
      modifies this
      ensures Valid() && old(trace) <= trace && Ends(r)
      ensures !faulty ==> r == Finished(if old(At(disk, View, build)) then Applied else Ended(Interrupted))
    {
      var v := RecoverFolders();
      match v
      case RecoveredInstalled => r := FinishInstalled();
      case RecoveredNot => r := EndRun(Interrupted);
      case Stuck => r := BrokeOff;
    }
  }

  lemma RunExtends(t: seq<State>, s: State)
    requires Run(t) && Next(t[|t| - 1], s)
    ensures Run(t + [s])
  {
    forall i: nat ensures StepAt(t + [s], i) {
      assert StepAt(t, i);
    }
  }

  lemma StartIsUnreserved(t: seq<State>)
    requires Run(t) && t[|t| - 1].pc.Start?
    ensures t[|t| - 1].reservation.None?
  {
    RunKeepsInv(t, |t| - 1);
  }

  lemma ReadsReserved(t: seq<State>)
    requires Run(t) && (t[|t| - 1].pc.Built? || t[|t| - 1].pc.Recheck?)
    ensures t[|t| - 1].reservation.Some? && t[|t| - 1].reservation.value.revision == t[|t| - 1].before.revision
  {
    RunKeepsInv(t, |t| - 1);
  }

  lemma StaysRetired(t: seq<State>, longer: seq<State>, n: nat)
    requires t <= longer && exists k: nat :: n <= k && RetiresAt(t, k)
    ensures exists k: nat :: n <= k && RetiresAt(longer, k)
  {
    var k: nat :| n <= k && RetiresAt(t, k);
    assert RetiresAt(longer, k);
  }

  /** A new folder has an identity no other has. */
  lemma SomeFolderIsNew(ids: set<FolderId>)
    ensures exists id: FolderId :: id !in ids
  {
    var bound := Above(ids);
    assert bound !in ids;
  }

  ghost function Above(ids: set<FolderId>): (bound: nat)
    ensures forall id <- ids :: id < bound
  {
    if ids == {} then 0 else
      var id :| id in ids;
      assert ids == ids - {id} + {id};
      var rest := Above(ids - {id});
      if id < rest then rest else id + 1
  }

  /** Once the way is clear, the old View, if there is one, is still in
      place. */
  lemma ReadyToMove(t: seq<State>)
    requires Run(t) && t[|t| - 1].pc.Ready? && t[|t| - 1].oldView.Some?
    ensures At(t[|t| - 1].disk, View, t[|t| - 1].oldView)
  {
    RunKeepsInv(t, |t| - 1);
  }

  /** When its turn comes the build is there, and `View/` is free. */
  lemma InstallCanMove(t: seq<State>)
    requires Run(t) && (t[|t| - 1].pc.Install? || (t[|t| - 1].pc.Ready? && t[|t| - 1].oldView.None?))
    ensures CanMove(t[|t| - 1].disk, NewBuild, View)
  {
    RunKeepsInv(t, |t| - 1);
  }

  /** While the old View is aside its own name is free. */
  lemma RestoringCanMove(t: seq<State>)
    requires Run(t) && t[|t| - 1].pc.Restoring?
    ensures var s := t[|t| - 1];
      && CanMove(s.disk, Previous, View)
      && OldInPlace(s.(disk := Moved(s.disk, Previous, View)))
  {
    RunKeepsInv(t, |t| - 1);
  }

  lemma FinishingPhase(t: seq<State>)
    requires Run(t) && t[|t| - 1].pc.Finishing?
    ensures NewInstalled.Rank() <= t[|t| - 1].phase.Rank() < Settled.Rank()
  {
    RunKeepsInv(t, |t| - 1);
  }

  /** Wherever a run was cut, recovery knows what to do: the build is `View/`
      and stays there, or the old View comes back by a rename that has its
      source and a free name, or nothing moves. */
  lemma RecoveryNeverStuck(t: seq<State>)
    requires Run(t) && t[|t| - 1].pc.Dead?
    ensures var s := t[|t| - 1];
      match RecoverPlan(s.disk, s.phase, s.oldView, s.build)
      case Keep(RecoveredInstalled) => NewInPlace(s)
      case Keep(RecoveredNot) => OldInPlace(s) && !At(s.disk, View, s.build)
      case Keep(Stuck) => false
      case Rename(from, to, done) =>
        && from == Previous && to == View && done == RecoveredNot && s.oldView.Some?
        && CanMove(s.disk, Previous, View) && At(s.disk, Previous, s.oldView)
  {
    RunKeepsInv(t, |t| - 1);
  }
}
