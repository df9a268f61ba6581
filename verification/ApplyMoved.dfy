/** What a read of the catalog that no longer holds does to the rest of a run,
    and the guard the catalog keeps over the journal's phase. */
module ApplyMoved {
  import opened Wrappers
  import opened ApplySwap
  import opened ApplyReads

  // ---- The journal's guard ----

  /** The catalog refuses a journal write that settles twice or goes back. */
  predicate ForwardRefuses(was: Phase, now: Phase) {
    was.Settled? || now.Rank() < was.Rank()
  }

  predicate WritesJournal(s: State, s': State) {
    s'.phase != s.phase || s'.build != s.build || s'.outcome != s.outcome
  }

  /** No step of any run writes the journal where the guard refuses it. */
  lemma GuardNeverRefuses(t: seq<State>, i: nat)
    requires Run(t) && 0 < i < |t|
    ensures WritesJournal(t[i - 1], t[i]) ==> !ForwardRefuses(t[i - 1].phase, t[i].phase)
  {
    RunShape(t, i);
    RunKeepsInv(t, i - 1);
    assert t[i - 1].phase.Settled? ==> t[i - 1].outcome.Some?;
  }

  // ---- A read that does not hold ----

  /** Nothing read from the catalog holds: the last read, be it that of what
      the reservation left or a later one, did not, or a crash came before
      there was any. */
  predicate NothingHeld(s: State) {
    if s.log == [] then s.reservation.None? && !s.pc.Start?
    else s.log[|s.log| - 1].Read? && !LastReadHeld(s.log, s.reservation)
  }

  /** The step reads the catalog, and it no longer is what was reviewed or
      reserved, whichever part of it moved. */
  predicate FailingRead(s: State, s': State) {
    || (ReadAfter(s, s') && ReservationOf(s.before, s.catalog).None?)
    || (CheckReserved(s, s') && !Holds(s.reservation.value, s.catalog))
    || (CheckAgain(s, s') && !Holds(s.reservation.value, s.catalog))
  }

  /** On the way to CatalogMoved, or there. */
  predicate Moving(s: State) {
    || s.pc == Ending(CatalogMoved) || s.pc == Restoring(CatalogMoved)
    || s.outcome == Some(Ended(CatalogMoved))
  }

  /** Stopped by a crash, or by the recovery after one. */
  predicate Interrupting(s: State) {
    s.pc.Dead? || s.pc == Ending(Interrupted) || s.outcome == Some(Ended(Interrupted))
  }

  /** After a read that failed Apply only ends; it ends CatalogMoved for no
      other reason. */
  predicate MovedFits(s: State) {
    && (NothingHeld(s) ==> Moving(s) || Interrupting(s))
    && (Moving(s) ==> NothingHeld(s))
    && (s.pc.Discarding? ==> s.pc.ended.Canceled?)
    && (s.outcome.Some? <==> s.pc.Done?)
  }

  lemma RecoverKeepsMoved(s: State, ok: bool, s': State)
    requires Inv(s) && MovedFits(s) && Recover(s, ok, s')
    ensures MovedFits(s')
  {
  }

  lemma BuildingStepKeepsMoved(s: State, s': State)
    requires Inv(s) && MovedFits(s) && BuildingStep(s, s')
    ensures MovedFits(s')
  {
    if ReadAfter(s, s') { ReadAfterKeepsMoved(s, s'); }
    else { LaterBuildingKeepsMoved(s, s'); }
  }

  lemma ReadAfterKeepsMoved(s: State, s': State)
    requires Inv(s) && MovedFits(s) && ReadAfter(s, s')
    ensures MovedFits(s')
  {
  }

  lemma PlacingKeepsMoved(s: State, s': State)
    requires MovedFits(s) && ((exists stop :: PlaceAll(s, stop, s')) || (exists readable :: RecordBuild(s, readable, s')))
    ensures MovedFits(s')
  {
  }

  lemma LaterBuildingKeepsMoved(s: State, s': State)
    requires MovedFits(s) && BuildingStep(s, s') && !ReadAfter(s, s')
    ensures MovedFits(s')
  {
    if ok :| VerifySources(s, ok, s') {}
    else if gone :| ClearStray(s, gone, s') {}
    else if id :| MakeBuilding(s, id, s') {}
    else if RecordBuilding(s, s') {}
    else { PlacingKeepsMoved(s, s'); }
  }

  lemma ReadKeepsMoved(s: State, s': State)
    requires MovedFits(s) && (CheckReserved(s, s') || CheckAgain(s, s'))
    ensures MovedFits(s')
  {
  }

  lemma MakeWayKeepsMoved(s: State, gone: bool, stop: Option<Stop>, s': State)
    requires MovedFits(s) && MakeWay(s, gone, stop, s')
    ensures MovedFits(s')
  {
  }

  lemma OtherCheckKeepsMoved(s: State, s': State)
    requires MovedFits(s)
    requires AskCancel(s, s') || (exists refusal :: RefuseSwap(s, refusal, s')) || RecordRelease(s, s') || RecordOldMoved(s, s')
    ensures MovedFits(s')
  {
  }

  lemma CheckingStepKeepsMoved(s: State, s': State)
    requires MovedFits(s) && CheckingStep(s, s')
    ensures MovedFits(s')
  {
    if CheckReserved(s, s') || CheckAgain(s, s') { ReadKeepsMoved(s, s'); }
    else if gone, stop :| MakeWay(s, gone, stop, s') { MakeWayKeepsMoved(s, gone, stop, s'); }
    else { OtherCheckKeepsMoved(s, s'); }
  }

  lemma RenamingStepKeepsMoved(s: State, s': State)
    requires MovedFits(s) && RenamingStep(s, s')
    ensures MovedFits(s')
  {
    if attempt :| MoveAside(s, attempt, s') {}
    else if ok :| InstallNew(s, ok, s') {}
    else {}
  }

  lemma DiscardKeepsMoved(s: State, s': State)
    requires MovedFits(s) && Discard(s, s')
    ensures MovedFits(s')
  {
  }

  /** With the build installed the last read held, and stays the last. */
  lemma FinishingStepKeepsMoved(s: State, s': State)
    requires MovedFits(s) && s.pc.Finishing? && s'.log == s.log && s'.reservation == s.reservation
    requires (s'.pc.Finishing? && s'.outcome == s.outcome) || (s'.pc.Done? && s'.outcome == Some(Applied))
    ensures MovedFits(s')
  {
  }

  lemma SettlingStepKeepsMoved(s: State, s': State)
    requires MovedFits(s) && SettlingStep(s, s')
    ensures MovedFits(s')
  {
    if RecordInstalled(s, s') {}
    else if gone :| ClearBuilt(s, gone, s') {}
    else if Discard(s, s') { DiscardKeepsMoved(s, s'); }
    else { FinishingStepKeepsMoved(s, s'); }
  }

  lemma StepKeepsMoved(s: State, s': State)
    requires Inv(s) && MovedFits(s) && Next(s, s')
    ensures MovedFits(s')
  {
    if now :| Edit(s, now, s') {}
    else if Crash(s, s') {}
    else if ok :| Recover(s, ok, s') { RecoverKeepsMoved(s, ok, s'); }
    else if BuildingStep(s, s') { BuildingStepKeepsMoved(s, s'); }
    else if CheckingStep(s, s') { CheckingStepKeepsMoved(s, s'); }
    else if RenamingStep(s, s') { RenamingStepKeepsMoved(s, s'); }
    else { SettlingStepKeepsMoved(s, s'); }
  }

  lemma {:induction false} RunKeepsMoved(t: seq<State>, i: nat)
    requires Run(t) && i < |t|
    ensures MovedFits(t[i])
  {
    if i > 0 {
      RunKeepsMoved(t, i - 1);
      RunKeepsInv(t, i - 1);
      assert Next(t[i - 1], t[i]) by { assert StepAt(t, i); }
      StepKeepsMoved(t[i - 1], t[i]);
    }
  }

  /** Of these steps only putting the old View back is left to take. */
  lemma OnlyRestores(s: State, s': State)
    requires MovedFits(s) && NothingHeld(s) && (BuildingStep(s, s') || CheckingStep(s, s') || RenamingStep(s, s'))
    ensures exists ok :: RestoreOld(s, ok, s')
  {
  }

  /** What failed stays the last read. */
  lemma NothingHeldStays(s: State, s': State)
    requires MovedFits(s) && NothingHeld(s) && Next(s, s')
    ensures NothingHeld(s')
  {
    if now :| Edit(s, now, s') {}
    else if Crash(s, s') {}
    else if ok :| Recover(s, ok, s') {}
    else if BuildingStep(s, s') || CheckingStep(s, s') || RenamingStep(s, s') { OnlyRestores(s, s'); }
    else { SettlingStepReadsNothing(s, s'); }
  }

  lemma SettlingStepReadsNothing(s: State, s': State)
    requires SettlingStep(s, s')
    ensures s'.log == s.log && s'.reservation == s.reservation && !s'.pc.Start?
  {
    if RecordInstalled(s, s') {}
    else if gone :| ClearBuilt(s, gone, s') {}
    else if gone :| Retire(s, gone, s') {}
    else {}
  }

  lemma FailingReadFails(s: State, s': State)
    requires Inv(s) && FailingRead(s, s')
    ensures NothingHeld(s') && Moving(s')
  {
  }

  // ---- The rest of the run ----

  ghost predicate Crashed(t: seq<State>, j: nat, i: nat) {
    exists k :: j <= k <= i && k < |t| && t[k].pc.Dead?
  }

  lemma {:induction false} FailedReadStaysLast(t: seq<State>, j: nat, i: nat)
    requires Run(t) && 0 < j <= i < |t| && FailingRead(t[j - 1], t[j])
    ensures NothingHeld(t[i]) && (Moving(t[i]) || Crashed(t, j, i))
    decreases i - j
  {
    if i == j {
      RunKeepsInv(t, j - 1);
      FailingReadFails(t[j - 1], t[j]);
    } else {
      FailedReadStaysLast(t, j, i - 1);
      RunKeepsMoved(t, i - 1);
      assert Next(t[i - 1], t[i]) by { assert StepAt(t, i); }
      NothingHeldStays(t[i - 1], t[i]);
      CrashedStays(t, j, i);
      if Moving(t[i - 1]) {
        MovingGoesOn(t[i - 1], t[i]);
      }
    }
  }

  lemma CrashedStays(t: seq<State>, j: nat, i: nat)
    requires j < i < |t|
    ensures Crashed(t, j, i - 1) || t[i].pc.Dead? ==> Crashed(t, j, i)
  {
  }

  /** Nothing but a crash turns Apply off the way to CatalogMoved. */
  lemma MovingGoesOn(s: State, s': State)
    requires MovedFits(s) && Moving(s) && Next(s, s')
    ensures Moving(s') || s'.pc.Dead?
  {
    if now :| Edit(s, now, s') {}
    else if Crash(s, s') {}
    else if ok :| Recover(s, ok, s') {}
    else if BuildingStep(s, s') || CheckingStep(s, s') || RenamingStep(s, s') { OnlyRestores(s, s'); }
    else { MovingSettles(s, s'); }
  }

  lemma MovingSettles(s: State, s': State)
    requires MovedFits(s) && Moving(s) && SettlingStep(s, s')
    ensures Moving(s')
  {
    if gone :| ClearBuilt(s, gone, s') {}
    else if Discard(s, s') {}
    else {}
  }

  lemma OldViewStays(s: State)
    requires Inv(s) && MovedFits(s) && NothingHeld(s)
    ensures !At(s.disk, View, s.build)
    ensures s.outcome.Some? ==> OldInPlace(s) && (s.outcome.value == Ended(CatalogMoved) || s.outcome.value == Ended(Interrupted))
  {
  }

  /** Once a read of the catalog does not hold, whatever moved in it, the
      build is never `View/`, and Apply ends CatalogMoved with the old View
      in place, or Interrupted when a crash came between. */
  lemma FailedReadEndsMoved(t: seq<State>, j: nat, i: nat)
    requires Run(t) && 0 < j <= i < |t| && FailingRead(t[j - 1], t[j])
    ensures !At(t[i].disk, View, t[i].build)
    ensures t[i].outcome.Some? ==>
      && OldInPlace(t[i])
      && (t[i].outcome.value == Ended(CatalogMoved) || (t[i].outcome.value == Ended(Interrupted) && Crashed(t, j, i)))
  {
    FailedReadStaysLast(t, j, i);
    RunKeepsInv(t, i);
    RunKeepsMoved(t, i);
    OldViewStays(t[i]);
  }

  lemma RestoringKeepsWhy(s: State, s': State)
    requires RenamingStep(s, s') && Moving(s')
    ensures Moving(s)
  {
    if attempt :| MoveAside(s, attempt, s') {}
    else if ok :| InstallNew(s, ok, s') {}
    else {}
  }

  lemma CheckingOnlyReads(s: State, s': State)
    requires CheckingStep(s, s') && !Moving(s) && Moving(s')
    ensures FailingRead(s, s')
  {
    if CheckReserved(s, s') {}
    else if CheckAgain(s, s') {}
    else { OtherChecksMoveNothing(s, s'); }
  }

  lemma OtherChecksMoveNothing(s: State, s': State)
    requires CheckingStep(s, s') && !CheckReserved(s, s') && !CheckAgain(s, s')
    ensures Moving(s') ==> Moving(s)
  {
    if gone, stop :| MakeWay(s, gone, stop, s') {}
    else if refusal :| RefuseSwap(s, refusal, s') {}
    else {}
  }

  lemma BuildingOnlyReads(s: State, s': State)
    requires BuildingStep(s, s') && !Moving(s) && Moving(s')
    ensures FailingRead(s, s')
  {
    if ReadAfter(s, s') {}
    else if ok :| VerifySources(s, ok, s') {}
    else if gone :| ClearStray(s, gone, s') {}
    else if stop :| PlaceAll(s, stop, s') {}
    else {}
  }

  lemma SettlingKeepsWhy(s: State, s': State)
    requires MovedFits(s) && SettlingStep(s, s') && Moving(s')
    ensures Moving(s)
  {
    if gone :| ClearBuilt(s, gone, s') {}
    else if Discard(s, s') {}
    else if RecordInstalled(s, s') {}
    else {}
  }

  /** Nothing but a failing read turns Apply onto the way to CatalogMoved. */
  lemma MovingStarts(s: State, s': State)
    requires MovedFits(s) && Next(s, s') && !Moving(s) && Moving(s')
    ensures FailingRead(s, s')
  {
    if BuildingStep(s, s') { BuildingOnlyReads(s, s'); }
    else if CheckingStep(s, s') { CheckingOnlyReads(s, s'); }
    else if RenamingStep(s, s') { RestoringKeepsWhy(s, s'); }
    else if SettlingStep(s, s') { SettlingKeepsWhy(s, s'); }
    else { EnvironmentMovesNothing(s, s'); }
  }

  lemma EnvironmentMovesNothing(s: State, s': State)
    requires (exists now :: Edit(s, now, s')) || Crash(s, s') || (exists ok :: Recover(s, ok, s'))
    ensures Moving(s') ==> Moving(s)
  {
    if now :| Edit(s, now, s') {}
    else if Crash(s, s') {}
    else {}
  }

  lemma {:induction false} MovingAfterFailedRead(t: seq<State>, i: nat) returns (j: nat)
    requires Run(t) && i < |t| && Moving(t[i])
    ensures 0 < j <= i && FailingRead(t[j - 1], t[j])
  {
    StartsOut(t);
    if i > 0 {
      RunKeepsMoved(t, i - 1);
      assert Next(t[i - 1], t[i]) by { assert StepAt(t, i); }
      if Moving(t[i - 1]) {
        j := MovingAfterFailedRead(t, i - 1);
      } else {
        MovingStarts(t[i - 1], t[i]);
        j := i;
      }
    }
  }

  lemma StartsOut(t: seq<State>)
    requires Run(t)
    ensures !Moving(t[0])
  {
    assert StepAt(t, 0);
  }

  /** An Apply that ended CatalogMoved read a catalog that had moved. */
  lemma MovedAfterFailedRead(t: seq<State>, i: nat) returns (j: nat)
    requires Run(t) && i < |t| && t[i].outcome == Some(Ended(CatalogMoved))
    ensures 0 < j <= i && FailingRead(t[j - 1], t[j])
  {
    j := MovingAfterFailedRead(t, i);
  }

  /** A settled Apply ended CatalogMoved only where nothing read holds, and
      where nothing does it ended so, or Interrupted. */
  lemma MovedMeansReadFailed(t: seq<State>, i: nat)
    requires Run(t) && i < |t| && t[i].outcome.Some?
    ensures t[i].outcome.value == Ended(CatalogMoved) ==> NothingHeld(t[i])
    ensures NothingHeld(t[i]) ==> t[i].outcome.value == Ended(CatalogMoved) || t[i].outcome.value == Ended(Interrupted)
  {
    RunKeepsInv(t, i);
    RunKeepsMoved(t, i);
  }

  // ---- An edit before a read ----

  predicate ReadsCatalog(s: State, s': State) {
    ReadAfter(s, s') || CheckReserved(s, s') || CheckAgain(s, s')
  }

  /** Every read after an edit of the Project fails. */
  lemma EditedReadFails(t: seq<State>, i: nat, j: nat)
    requires Run(t) && i < j < |t| && t[i].catalog.revision > t[i].before.revision && ReadsCatalog(t[j - 1], t[j])
    ensures FailingRead(t[j - 1], t[j])
  {
    RevisionOnlyGrows(t, i, j - 1);
    ReservedBeforeRead(t, j - 1);
  }

  lemma {:induction false} RevisionOnlyGrows(t: seq<State>, i: nat, j: nat)
    requires Run(t) && i <= j < |t|
    ensures t[i].catalog.revision <= t[j].catalog.revision && t[j].before == t[i].before
    decreases j - i
  {
    if i < j {
      RevisionOnlyGrows(t, i, j - 1);
      RunShape(t, j);
    }
  }
}
