/** What Apply's reads of the catalog compare, field by field: the read of what
    the reservation left against the reviewed sheet, and each later read
    against what the reservation left. */
module ApplyInputs {
  import opened Wrappers
  import opened ApplySwap
  import opened ApplyReads
  import opened ApplyMoved

  // ---- One reservation ----

  lemma BuildingStepReserves(s: State, s': State)
    requires BuildingStep(s, s') && s'.reservation != s.reservation
    ensures ReadAfter(s, s')
  {
    if ok :| VerifySources(s, ok, s') {}
    else if gone :| ClearStray(s, gone, s') {}
    else if stop :| PlaceAll(s, stop, s') {}
    else {}
  }

  lemma CheckingStepReservesNone(s: State, s': State)
    requires CheckingStep(s, s')
    ensures s'.reservation == s.reservation
  {
    if CheckReserved(s, s') {}
    else if gone, stop :| MakeWay(s, gone, stop, s') {}
    else if refusal :| RefuseSwap(s, refusal, s') {}
    else {}
  }

  lemma RenamingStepReservesNone(s: State, s': State)
    requires RenamingStep(s, s')
    ensures s'.reservation == s.reservation
  {
    if attempt :| MoveAside(s, attempt, s') {}
    else if ok :| InstallNew(s, ok, s') {}
    else {}
  }

  /** Only the read of what the reservation left reserves. */
  lemma OnlyReadReserves(s: State, s': State)
    requires Next(s, s') && s'.reservation != s.reservation
    ensures ReadAfter(s, s')
  {
    if BuildingStep(s, s') { BuildingStepReserves(s, s'); }
    else if CheckingStep(s, s') { CheckingStepReservesNone(s, s'); }
    else if RenamingStep(s, s') { RenamingStepReservesNone(s, s'); }
    else if SettlingStep(s, s') { SettlingStepReadsNothing(s, s'); }
    else { EnvironmentReservesNone(s, s'); }
  }

  lemma EnvironmentReservesNone(s: State, s': State)
    requires (exists now :: Edit(s, now, s')) || Crash(s, s') || (exists ok :: Recover(s, ok, s'))
    ensures s'.reservation == s.reservation
  {
    if now :| Edit(s, now, s') {}
    else if Crash(s, s') {}
    else {}
  }

  /** A reservation held was left by one read, and kept since. */
  lemma {:induction false} ReservedBy(t: seq<State>, i: nat) returns (r: nat)
    requires Run(t) && i < |t| && t[i].reservation.Some?
    ensures r < i && ReadAfter(t[r], t[r + 1]) && t[r + 1].reservation == t[i].reservation
    decreases i
  {
    StartsUnreserved(t);
    if i > 0 {
      assert Next(t[i - 1], t[i]) by { assert StepAt(t, i); }
      if t[i - 1].reservation == t[i].reservation {
        r := ReservedBy(t, i - 1);
      } else {
        OnlyReadReserves(t[i - 1], t[i]);
        r := i - 1;
      }
    }
  }

  lemma StartsUnreserved(t: seq<State>)
    requires Run(t)
    ensures t[0].reservation.None?
  {
    assert StepAt(t, 0);
  }

  /** The start is left once. */
  lemma {:induction false} StartIsLeft(t: seq<State>, i: nat, j: nat)
    requires Run(t) && i <= j < |t| && !t[i].pc.Start?
    ensures !t[j].pc.Start?
    decreases j - i
  {
    if i < j {
      StartIsLeft(t, i, j - 1);
      assert Next(t[j - 1], t[j]) by { assert StepAt(t, j); }
      NeverBackToStart(t[j - 1], t[j]);
    }
  }

  lemma NeverBackToStart(s: State, s': State)
    requires Next(s, s') && !s.pc.Start?
    ensures !s'.pc.Start?
  {
    if BuildingStep(s, s') { BuildingNeverStarts(s, s'); }
    else if CheckingStep(s, s') { CheckingNeverStarts(s, s'); }
    else if RenamingStep(s, s') { RenamingNeverStarts(s, s'); }
    else if SettlingStep(s, s') { SettlingStepReadsNothing(s, s'); }
    else if now :| Edit(s, now, s') {}
    else if Crash(s, s') {}
    else { var ok :| Recover(s, ok, s'); }
  }

  lemma BuildingNeverStarts(s: State, s': State)
    requires BuildingStep(s, s')
    ensures !s'.pc.Start?
  {
    if ok :| VerifySources(s, ok, s') {}
    else if gone :| ClearStray(s, gone, s') {}
    else if stop :| PlaceAll(s, stop, s') {}
    else {}
  }

  lemma CheckingNeverStarts(s: State, s': State)
    requires CheckingStep(s, s')
    ensures !s'.pc.Start?
  {
    if gone, stop :| MakeWay(s, gone, stop, s') {}
    else if refusal :| RefuseSwap(s, refusal, s') {}
    else {}
  }

  lemma RenamingNeverStarts(s: State, s': State)
    requires RenamingStep(s, s')
    ensures !s'.pc.Start?
  {
    if attempt :| MoveAside(s, attempt, s') {}
    else if ok :| InstallNew(s, ok, s') {}
    else {}
  }

  /** Until then this Apply holds the Project. */
  lemma {:induction false} RunsAtStart(t: seq<State>, i: nat)
    requires Run(t) && i < |t| && t[i].pc.Start?
    ensures t[i].catalog.running
  {
    assert StepAt(t, i);
    if i > 0 {
      if !t[i - 1].pc.Start? {
        NeverBackToStart(t[i - 1], t[i]);
      }
      RunsAtStart(t, i - 1);
      OnlyEditsAtStart(t[i - 1], t[i]);
    }
  }

  lemma OnlyEditsAtStart(s: State, s': State)
    requires Next(s, s') && s.pc.Start? && s'.pc.Start?
    ensures s'.catalog.running == s.catalog.running
  {
    if BuildingStep(s, s') { BuildingNeverStarts(s, s'); }
    else if CheckingStep(s, s') { CheckingNeverStarts(s, s'); }
    else if RenamingStep(s, s') { RenamingNeverStarts(s, s'); }
    else if SettlingStep(s, s') { SettlingStepReadsNothing(s, s'); }
    else if now :| Edit(s, now, s') {}
    else {}
  }

  /** What the reservation left is read once in a run. */
  lemma ReadAfterOnce(t: seq<State>, r: nat, q: nat)
    requires Run(t) && r + 1 < |t| && q + 1 < |t| && ReadAfter(t[r], t[r + 1]) && ReadAfter(t[q], t[q + 1])
    ensures r == q
  {
    if r < q { StartIsLeft(t, r + 1, q); }
    if q < r { StartIsLeft(t, q + 1, r); }
  }

  // ---- The read of what the reservation left ----

  /** It lets Apply go on exactly when all five parts an edit moves are those
      of the reviewed sheet; else Apply ends CatalogMoved. */
  lemma ReservedWhenUnmoved(s: State, s': State)
    requires ReadAfter(s, s')
    ensures var now, sheet := s.catalog, s.before;
      s'.pc == if && now.revision == sheet.revision && now.basis == sheet.basis && now.corrected == sheet.corrected
                  && now.notReady == sheet.notReady && now.generation == sheet.generation
               then Planned else Ending(CatalogMoved)
  {
  }

  /** What is reserved is what the catalog held then. */
  lemma ReservedIsRead(t: seq<State>, i: nat) returns (r: nat)
    requires Run(t) && i < |t| && t[i].reservation.Some?
    ensures r < i && ReadAfter(t[r], t[r + 1]) && t[r + 1].pc.Planned?
    ensures var now, held := t[r].catalog, t[i].reservation.value;
      held.revision == now.revision && held.digest == now.digest && held.generation == now.generation
  {
    r := ReservedBy(t, i);
    RunKeepsInv(t, r);
  }

  /** From a first read that finds any of the five moved, the build is never
      `View/` and Apply ends CatalogMoved, or Interrupted after a crash. */
  lemma MovedSheetEndsMoved(t: seq<State>, r: nat, i: nat)
    requires Run(t) && r < i < |t| && ReadAfter(t[r], t[r + 1])
    requires var now, sheet := t[r].catalog, t[r].before;
      || now.revision != sheet.revision || now.basis != sheet.basis || now.corrected != sheet.corrected
      || now.notReady != sheet.notReady || now.generation != sheet.generation
    ensures !At(t[i].disk, View, t[i].build)
    ensures t[i].outcome.Some? ==>
      && OldInPlace(t[i])
      && (t[i].outcome.value == Ended(CatalogMoved) || (t[i].outcome.value == Ended(Interrupted) && Crashed(t, r + 1, i)))
  {
    FailedReadEndsMoved(t, r + 1, i);
  }

  // ---- Every later read ----

  predicate LaterRead(s: State, s': State) {
    CheckReserved(s, s') || CheckAgain(s, s')
  }

  /** A later read lets Apply go on exactly when it finds the revision, the
      digest and the generation the first one found, and this Apply still
      running; else Apply is on its way to CatalogMoved. */
  lemma ReadDecides(t: seq<State>, r: nat, j: nat)
    requires Run(t) && r < j && j + 1 < |t| && ReadAfter(t[r], t[r + 1]) && LaterRead(t[j], t[j + 1])
    ensures var now, first := t[j].catalog, t[r].catalog;
      t[j + 1].pc == if && now.revision == first.revision && now.digest == first.digest
                        && now.generation == first.generation && now.running
                     then if t[j].pc.Built? then Checked else Rechecked
                     else if t[j].pc.Built? then Ending(CatalogMoved) else Restoring(CatalogMoved)
  {
    var q := ReservedIsRead(t, j);
    ReadAfterOnce(t, r, q);
  }

  lemma MovedReadFails(t: seq<State>, r: nat, j: nat)
    requires Run(t) && r < j && j + 1 < |t| && ReadAfter(t[r], t[r + 1]) && LaterRead(t[j], t[j + 1])
    requires var now, first := t[j].catalog, t[r].catalog;
      now.revision != first.revision || now.digest != first.digest || now.generation != first.generation || !now.running
    ensures FailingRead(t[j], t[j + 1])
  {
    var q := ReservedIsRead(t, j);
    ReadAfterOnce(t, r, q);
  }

  /** Whichever of them moved before a later read, from that read on the build
      is never `View/`, and Apply ends CatalogMoved with the old View in
      place, or Interrupted when a crash came between. */
  lemma MovedInputsEndMoved(t: seq<State>, r: nat, j: nat, i: nat)
    requires Run(t) && r < j < i < |t| && ReadAfter(t[r], t[r + 1]) && LaterRead(t[j], t[j + 1])
    requires var now, first := t[j].catalog, t[r].catalog;
      now.revision != first.revision || now.digest != first.digest || now.generation != first.generation || !now.running
    ensures !At(t[i].disk, View, t[i].build)
    ensures t[i].outcome.Some? ==>
      && OldInPlace(t[i])
      && (t[i].outcome.value == Ended(CatalogMoved) || (t[i].outcome.value == Ended(Interrupted) && Crashed(t, j + 1, i)))
  {
    MovedReadFails(t, r, j);
    FailedReadEndsMoved(t, j + 1, i);
  }

  /** Whenever the build is `View/`, the first read found the reviewed sheet's
      inputs, and the last one the revision, digest and generation the first
      had found, with this Apply running. */
  lemma InstalledIsReserved(t: seq<State>, i: nat) returns (r: nat, j: nat)
    requires Run(t) && i < |t| && At(t[i].disk, View, t[i].build)
    ensures r < j < i && ReadAfter(t[r], t[r + 1])
    ensures var first, sheet := t[r].catalog, t[r].before;
      && first.revision == sheet.revision && first.basis == sheet.basis && first.corrected == sheet.corrected
      && first.notReady == sheet.notReady && first.generation == sheet.generation
    ensures t[j + 1].log == t[j].log + [Read(t[j].catalog)] && forall k :: j < k <= i ==> t[k].log == t[j + 1].log
    ensures var now, first := t[j].catalog, t[r].catalog;
      now.revision == first.revision && now.digest == first.digest && now.generation == first.generation && now.running
  {
    j := InstalledAfterHeldRead(t, i);
    r := ReservedIsRead(t, j + 1);
    ReservedWhenUnmoved(t[r], t[r + 1]);
    FirstReadLogsNothing(t, r, j);
  }

  lemma FirstReadLogsNothing(t: seq<State>, r: nat, j: nat)
    requires r + 1 < |t| && j + 1 < |t| && ReadAfter(t[r], t[r + 1]) && |t[j + 1].log| == |t[j].log| + 1
    ensures r != j
  {
  }
}
