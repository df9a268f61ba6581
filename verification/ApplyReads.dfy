/** What a run of Apply read before it installed anything, and what each of
    its steps may change. */
module ApplyReads {
  import opened Wrappers
  import opened ApplySwap

  // ---- Shape of one step ----

  /** At most one durable effect: a rename or a folder made or removed, or a
      journal write, or a commit to the catalog by someone else. */
  predicate OneEffect(s: State, s': State) {
    || s'.disk == s.disk
    || (s'.phase == s.phase && s'.build == s.build && s'.outcome == s.outcome && s'.catalog == s.catalog)
  }

  predicate Shape(s: State, s': State) {
    && OneEffect(s, s')
    && s.phase.Rank() <= s'.phase.Rank()
    && s'.before == s.before && s'.oldView == s.oldView
    && s.catalog.revision <= s'.catalog.revision
    && (s.build.Some? ==> s'.build == s.build)
    && (s.reservation.Some? ==> s'.reservation == s.reservation)
    && (s'.log == s.log || s'.log == s.log + [ToolHeld] || s'.log == s.log + [Read(s.catalog)])
    && (s.outcome.Some? ==> s'.outcome == s.outcome && s'.disk == s.disk && s'.phase == s.phase && s'.build == s.build)
  }

  /** The facts of the invariant a step's shape rests on. */
  predicate Placed(s: State) {
    && PhaseFits(s) && (s.outcome.Some? <==> s.pc.Done?)
    && (s.pc.Made? ==> s.build.None?) && (s.pc.Start? ==> s.reservation.None?)
  }

  lemma InvIsPlaced(s: State)
    requires Inv(s)
    ensures Placed(s)
  {
  }

  lemma EnvironmentStepShape(s: State, s': State)
    requires Placed(s) && ((exists now :: Edit(s, now, s')) || Crash(s, s') || (exists ok :: Recover(s, ok, s')))
    ensures Shape(s, s')
  {
    if now :| Edit(s, now, s') {}
    else if Crash(s, s') {}
    else {}
  }

  lemma ReadingStepShape(s: State, s': State)
    requires Placed(s) && (ReadAfter(s, s') || CheckReserved(s, s') || CheckAgain(s, s'))
    ensures Shape(s, s')
  {
    if ReadAfter(s, s') {}
    else if CheckReserved(s, s') {}
    else {}
  }

  lemma FolderStepShape(s: State, s': State)
    requires Placed(s) && ((exists gone :: ClearStray(s, gone, s')) || (exists id :: MakeBuilding(s, id, s')))
    ensures Shape(s, s')
  {
    if gone :| ClearStray(s, gone, s') {} else {}
  }

  lemma RecordingStepShape(s: State, s': State)
    requires Placed(s)
    requires (exists ok :: VerifySources(s, ok, s')) || RecordBuilding(s, s') || (exists readable :: RecordBuild(s, readable, s'))
    ensures Shape(s, s')
  {
    if ok :| VerifySources(s, ok, s') {}
    else if RecordBuilding(s, s') {}
    else {}
  }

  lemma PlacingStepShape(s: State, s': State)
    requires Placed(s) && exists stop :: PlaceAll(s, stop, s')
    ensures Shape(s, s')
  {
  }

  lemma BuildingStepShape(s: State, s': State)
    requires Placed(s) && BuildingStep(s, s')
    ensures Shape(s, s')
  {
    if ReadAfter(s, s') { ReadingStepShape(s, s'); }
    else if stop :| PlaceAll(s, stop, s') { PlacingStepShape(s, s'); }
    else if gone :| ClearStray(s, gone, s') { FolderStepShape(s, s'); }
    else if id :| MakeBuilding(s, id, s') { FolderStepShape(s, s'); }
    else { RecordingStepShape(s, s'); }
  }

  lemma StoppingStepShape(s: State, s': State)
    requires Placed(s)
    requires AskCancel(s, s') || (exists refusal :: RefuseSwap(s, refusal, s')) || (exists gone, stop :: MakeWay(s, gone, stop, s'))
    ensures Shape(s, s')
  {
    if AskCancel(s, s') {}
    else if refusal :| RefuseSwap(s, refusal, s') {}
    else {}
  }

  lemma AsideStepShape(s: State, s': State)
    requires Placed(s) && (RecordRelease(s, s') || RecordOldMoved(s, s'))
    ensures Shape(s, s')
  {
    if RecordRelease(s, s') {} else {}
  }

  lemma CheckingStepShape(s: State, s': State)
    requires Placed(s) && CheckingStep(s, s')
    ensures Shape(s, s')
  {
    if CheckReserved(s, s') || CheckAgain(s, s') { ReadingStepShape(s, s'); }
    else if RecordRelease(s, s') || RecordOldMoved(s, s') { AsideStepShape(s, s'); }
    else { StoppingStepShape(s, s'); }
  }

  lemma MoveAsideShape(s: State, s': State)
    requires Placed(s) && exists attempt :: MoveAside(s, attempt, s')
    ensures Shape(s, s')
  {
  }

  lemma RenamingStepShape(s: State, s': State)
    requires Placed(s) && RenamingStep(s, s')
    ensures Shape(s, s')
  {
    if attempt :| MoveAside(s, attempt, s') { MoveAsideShape(s, s'); }
    else if ok :| InstallNew(s, ok, s') {}
    else {}
  }

  lemma EndingStepShape(s: State, s': State)
    requires Placed(s) && (Discard(s, s') || SettleApplied(s, s') || exists gone :: ClearBuilt(s, gone, s'))
    ensures Shape(s, s')
  {
    if Discard(s, s') {}
    else if SettleApplied(s, s') {}
    else {}
  }

  lemma FinishingStepShape(s: State, s': State)
    requires Placed(s) && (RecordInstalled(s, s') || MoveForeign(s, s') || StartRetiring(s, s'))
    ensures Shape(s, s')
  {
    if RecordInstalled(s, s') {}
    else if MoveForeign(s, s') {}
    else {}
  }

  lemma CommittingStepShape(s: State, s': State)
    requires Placed(s) && ((exists generation :: Commit(s, generation, s')) || (exists gone :: Retire(s, gone, s')))
    ensures Shape(s, s')
  {
    if gone :| Retire(s, gone, s') {} else {}
  }

  lemma SettlingStepShape(s: State, s': State)
    requires Placed(s) && SettlingStep(s, s')
    ensures Shape(s, s')
  {
    if gone :| ClearBuilt(s, gone, s') { EndingStepShape(s, s'); }
    else if Discard(s, s') || SettleApplied(s, s') { EndingStepShape(s, s'); }
    else if RecordInstalled(s, s') || MoveForeign(s, s') || StartRetiring(s, s') { FinishingStepShape(s, s'); }
    else { CommittingStepShape(s, s'); }
  }

  lemma StepShape(s: State, s': State)
    requires Inv(s) && Next(s, s')
    ensures Shape(s, s')
  {
    InvIsPlaced(s);
    if BuildingStep(s, s') { BuildingStepShape(s, s'); }
    else if CheckingStep(s, s') { CheckingStepShape(s, s'); }
    else if RenamingStep(s, s') { RenamingStepShape(s, s'); }
    else if SettlingStep(s, s') { SettlingStepShape(s, s'); }
    else { EnvironmentStepShape(s, s'); }
  }

  lemma RunShape(t: seq<State>, i: nat)
    requires Run(t) && 0 < i < |t|
    ensures Shape(t[i - 1], t[i])
  {
    var s, s' := t[i - 1], t[i];
    assert Inv(s) by { RunKeepsInv(t, i - 1); }
    assert Next(s, s') by { assert StepAt(t, i); }
    StepShape(s, s');
  }

  lemma ReservedBeforeRead(t: seq<State>, i: nat)
    requires Run(t) && i < |t|
    ensures t[i].log != [] ==> t[i].reservation.Some?
    ensures t[i].reservation.Some? ==> t[i].reservation.value.revision == t[i].before.revision
  {
    RunKeepsInv(t, i);
  }

  // ---- Nothing is installed without a read that held ----

  /** Step `j` of the run reads the catalog, which still holds what was
      reserved. */
  predicate HeldReadAt(t: seq<State>, j: nat)
    requires j + 1 < |t|
  {
    && t[j + 1].log == t[j].log + [Read(t[j].catalog)]
    && t[j + 1].reservation.Some? && Holds(t[j + 1].reservation.value, t[j].catalog)
  }

  lemma StartsUnread(t: seq<State>)
    requires Run(t)
    ensures t[0].log == []
  {
    assert StepAt(t, 0);
  }

  lemma {:induction false} LastReadFound(t: seq<State>, i: nat) returns (j: nat)
    requires Run(t) && i < |t| && LastReadHeld(t[i].log, t[i].reservation)
    ensures j < i && HeldReadAt(t, j) && t[j + 1].log == t[i].log && t[j + 1].reservation == t[i].reservation
  {
    StartsUnread(t);
    if i > 0 {
      RunShape(t, i);
      ReservedBeforeRead(t, i - 1);
      if t[i].log == t[i - 1].log {
        j := LastReadFound(t, i - 1);
      } else {
        j := i - 1;
      }
    }
  }

  /** Whenever the build is `View/`, some earlier step read a catalog that
      held the reservation, and neither another read nor a wait for a tool
      came after it. */
  lemma InstalledAfterHeldRead(t: seq<State>, i: nat) returns (j: nat)
    requires Run(t) && i < |t| && At(t[i].disk, View, t[i].build)
    ensures j < i && HeldReadAt(t, j)
    ensures forall k :: j < k <= i ==> t[k].log == t[j + 1].log
  {
    RunKeepsInv(t, i);
    j := LastReadFound(t, i);
    LogOnlyGrows(t, j + 1, i);
  }

  lemma {:induction false} LogOnlyGrows(t: seq<State>, j: nat, i: nat)
    requires Run(t) && j <= i < |t|
    ensures |t[j].log| <= |t[i].log|
    ensures forall k :: j <= k <= i && t[j].log == t[i].log ==> t[k].log == t[i].log
    decreases i - j
  {
    if j < i {
      RunShape(t, i);
      LogOnlyGrows(t, j, i - 1);
    }
  }

  // ---- An edit before the last read keeps the old View ----

  /** The Project was edited since the reviewed sheet, and no read made after
      the last wait has let Apply go on. */
  predicate EditedUnread(s: State) {
    s.catalog.revision > s.before.revision && !LastReadHeld(s.log, s.reservation)
  }

  lemma {:induction false} EditedStaysUnread(t: seq<State>, i: nat, j: nat)
    requires Run(t) && i <= j < |t| && EditedUnread(t[i])
    ensures EditedUnread(t[j])
    decreases j - i
  {
    if i < j {
      EditedStaysUnread(t, i, j - 1);
      RunShape(t, j);
      ReservedBeforeRead(t, j - 1);
      ReservedBeforeRead(t, j);
    }
  }

  /** An edit committed before the read that would let Apply install is never
      overtaken: from then on the build is never `View/`, and if Apply
      settles it ends with the old View in place. */
  lemma EditKeepsOldView(t: seq<State>, i: nat, j: nat)
    requires Run(t) && i <= j < |t| && EditedUnread(t[i])
    ensures !At(t[j].disk, View, t[j].build)
    ensures t[j].outcome.Some? ==> !t[j].outcome.value.Applied? && OldInPlace(t[j])
  {
    EditedStaysUnread(t, i, j);
    RunKeepsInv(t, j);
  }
}
