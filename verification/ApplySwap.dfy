/** The swap of a Project's View as a state machine: two no-replace renames,
    each paired with a journal write, cut at any point by a crash or by an
    operation that fails.

    A state holds what survives a crash (the three folder names, the journal
    and the catalog) and where the running process stands. Every step is one
    rename, one journal write, one catalog read or one decision, so any state
    of a run is one the process can die in. */
module ApplySwap {
  import opened Wrappers

  // ---- Journal ----

  datatype Phase =
    | Reserved | SourcesVerified | Building | BuildVerified | WaitingForRelease
    | OldMoved | NewInstalled | ManifestCommitted | ForeignTransferred
    | RetiringPrevious | Settled
  {
    function Rank(): nat {
      match this
      case Reserved => 0
      case SourcesVerified => 1
      case Building => 2
      case BuildVerified => 3
      case WaitingForRelease => 4
      case OldMoved => 5
      case NewInstalled => 6
      case ManifestCommitted => 7
      case ForeignTransferred => 8
      case RetiringPrevious => 9
      case Settled => 10
    }

    predicate Before(other: Phase) {
      Rank() < other.Rank()
    }
  }

  /** Why an Apply ended with the old View in place. */
  datatype Stop =
    | Canceled | Interrupted | CatalogMoved | OriginalsUnverified | BuildingNotCleared
    | EntryNotPlaced | BuildUnverified | ViewUnreadable | PreviousUnreadable | KeptNotMoved
    | ProjectFolderReplaced | ViewReplaced | PreviousAppeared | AsideFailed | NotInstalled

  datatype Outcome = Applied | Ended(stop: Stop)

  // ---- Catalog ----

  /** What Apply reads from the catalog to learn whether it still builds the
      reviewed state. `running` says whether this Apply holds the Project. */
  datatype Inputs = Inputs(revision: nat, basis: int, corrected: int, notReady: int,
                           digest: int, generation: Option<nat>, running: bool)

  datatype Reservation = Reservation(revision: nat, digest: int, generation: Option<nat>)

  /** `Reserved::of`: compares all but the digest, which reserving itself
      changes. */
  function ReservationOf(before: Inputs, after: Inputs): Option<Reservation> {
    if && after.revision == before.revision && after.basis == before.basis
       && after.corrected == before.corrected && after.notReady == before.notReady
       && after.generation == before.generation
    then Some(Reservation(after.revision, after.digest, after.generation))
    else None
  }

  predicate Holds(r: Reservation, now: Inputs) {
    now.revision == r.revision && now.digest == r.digest && now.generation == r.generation && now.running
  }

  // ---- State ----

  type FolderId = nat

  datatype Slot = View | NewBuild | Previous

  type Disk = map<Slot, FolderId>

  predicate At(disk: Disk, slot: Slot, id: Option<FolderId>) {
    id.Some? && slot in disk && disk[slot] == id.value
  }

  /** Where the process running this Apply stands; Dead when none runs it. */
  datatype Pc =
    | Start | Planned | Sourced | Made(id: FolderId) | Placing | Verified | Built
    | Checked | Ready | Waiting | Aside(waited: bool) | Recheck | Rechecked | Install
    | Restoring(why: Stop) | Installed | Finishing | Ending(stop: Stop) | Discarding(ended: Stop)
    | Dead | Done

  /** What a run did that decides whether it may install. */
  datatype Event = Read(now: Inputs) | ToolHeld

  datatype State = State(
    disk: Disk,
    phase: Phase,
    oldView: Option<FolderId>,      // the identity `View/` had when the Project was reserved
    build: Option<FolderId>,    // the identity of the folder this Apply builds in
    outcome: Option<Outcome>,
    catalog: Inputs,
    before: Inputs,             // what the reviewed sheet was planned from
    reservation: Option<Reservation>,
    whole: bool,                // the build holds every verified entry
    log: seq<Event>,
    pc: Pc)

  /** The last read of the catalog held the reservation, and Apply has not
      waited for a tool since. */
  predicate LastReadHeld(log: seq<Event>, r: Option<Reservation>) {
    log != [] &&
    match log[|log| - 1]
    case Read(now) => r.Some? && Holds(r.value, now)
    case ToolHeld => false
  }

  function Moved(disk: Disk, from: Slot, to: Slot): Disk
    requires from in disk
  {
    (disk - {from})[to := disk[from]]
  }

  /** A rename that replaces nothing: it needs its source and a free name. */
  predicate CanMove(disk: Disk, from: Slot, to: Slot) {
    from in disk && to !in disk
  }

  function SwapReady(disk: Disk, oldView: Option<FolderId>): Option<Stop> {
    if !At(disk, View, oldView) then Some(ViewReplaced)
    else if Previous in disk then Some(PreviousAppeared)
    else None
  }

  // ---- Recovery ----

  datatype Verdict = RecoveredInstalled | RecoveredNot | Stuck

  /** What recovery renames, if anything: (source, target, verdict when it works). */
  datatype Recovery = Keep(verdict: Verdict) | Rename(from: Slot, to: Slot, done: Verdict)

  function RecoverPlan(disk: Disk, phase: Phase, oldView: Option<FolderId>, build: Option<FolderId>): Recovery {
    if phase.Before(BuildVerified) then Keep(RecoveredNot)
    else if At(disk, View, build) then Keep(RecoveredInstalled)
    else if !phase.Before(NewInstalled) then
      if View !in disk && At(disk, NewBuild, build) then Rename(NewBuild, View, RecoveredInstalled)
      else Keep(Stuck)
    else if View !in disk && At(disk, Previous, oldView) then Rename(Previous, View, RecoveredNot)
    else Keep(RecoveredNot)
  }

  function PcAfter(v: Verdict): Pc {
    match v
    case RecoveredInstalled => Installed
    case RecoveredNot => Ending(Interrupted)
    case Stuck => Dead
  }

  // ---- Steps ----
  //
  // Each step is a relation named after the operation that takes it. Where
  // the disk, a tool or the user decides, the decision is a parameter.

  function End(s: State, stop: Stop): State {
    s.(pc := Ending(stop))
  }

  function Without(disk: Disk, slot: Slot, gone: bool): Disk {
    if gone then disk - {slot} else disk
  }

  /** Anyone commits to the catalog: the Project revision never goes back. */
  predicate Edit(s: State, now: Inputs, s': State) {
    now.revision >= s.catalog.revision && now.running == s.catalog.running && s' == s.(catalog := now)
  }

  /** The process dies, or breaks off because a write it needs failed. */
  predicate Crash(s: State, s': State) {
    !s.pc.Done? && s' == s.(pc := Dead)
  }

  predicate ReadAfter(s: State, s': State) {
    && s.pc.Start?
    && var r := ReservationOf(s.before, s.catalog);
       s' == if r.None? then End(s, CatalogMoved) else s.(reservation := r, pc := Planned)
  }

  predicate VerifySources(s: State, ok: bool, s': State) {
    s.pc.Planned? && s' == if ok then s.(phase := SourcesVerified, pc := Sourced) else End(s, OriginalsUnverified)
  }

  predicate ClearStray(s: State, gone: bool, s': State) {
    && s.pc.Sourced? && NewBuild in s.disk
    && s' == if gone then s.(disk := Without(s.disk, NewBuild, true)) else End(s, BuildingNotCleared)
  }

  predicate MakeBuilding(s: State, id: FolderId, s': State) {
    && s.pc.Sourced? && NewBuild !in s.disk && id !in s.disk.Values && s.oldView != Some(id)
    && s' == s.(disk := s.disk[NewBuild := id], pc := Made(id))
  }

  predicate RecordBuilding(s: State, s': State) {
    s.pc.Made? && s' == s.(phase := Building, build := Some(s.pc.id), pc := Placing)
  }

  /** Place every entry and verify them, unless one can't be. */
  predicate PlaceAll(s: State, stop: Option<Stop>, s': State) {
    && s.pc.Placing? && (stop.Some? ==> stop.value.EntryNotPlaced? || stop.value.BuildUnverified?)
    && s' == if stop.Some? then End(s, stop.value) else s.(whole := true, pc := Verified)
  }

  predicate RecordBuild(s: State, readable: bool, s': State) {
    s.pc.Verified? && s' == if readable then s.(phase := BuildVerified, pc := Built) else End(s, ViewUnreadable)
  }

  /** The catalog read before anything moves. */
  predicate CheckReserved(s: State, s': State) {
    && s.pc.Built? && s.reservation.Some?
    && var t := s.(log := s.log + [Read(s.catalog)]);
       s' == if Holds(s.reservation.value, s.catalog) then t.(pc := Checked) else End(t, CatalogMoved)
  }

  predicate AskCancel(s: State, s': State) {
    (s.pc.Placing? || s.pc.Checked? || s.pc.Waiting?) && s' == End(s, Canceled)
  }

  /** Kept files leave `View (previous)/`, which may go with them. */
  predicate MakeWay(s: State, gone: bool, stop: Option<Stop>, s': State) {
    && s.pc.Checked? && (stop.Some? ==> stop.value.PreviousUnreadable? || stop.value.KeptNotMoved?)
    && var t := s.(disk := Without(s.disk, Previous, gone));
       s' == if stop.Some? then End(t, stop.value)
             else if s.oldView.None? && Previous in t.disk then End(t, PreviousAppeared)
             else t.(pc := Ready)
  }

  /** Right before the swap the Project folder is not the one reserved, or
      `View/` is not read as the old View, or its new name is taken. */
  predicate RefuseSwap(s: State, refusal: Stop, s': State) {
    && s.pc.Ready? && s.oldView.Some?
    && (refusal.ProjectFolderReplaced? || refusal.ViewReplaced? || SwapReady(s.disk, s.oldView) == Some(refusal))
    && s' == End(s, refusal)
  }

  /** How one try at the first rename went. */
  datatype Attempt = AsideMoved | AsideHeld | AsideFail

  predicate MoveAside(s: State, attempt: Attempt, s': State) {
    && (s.pc.Waiting? || (s.pc.Ready? && s.oldView.Some? && SwapReady(s.disk, s.oldView).None?))
    && match attempt
       case AsideMoved =>
         CanMove(s.disk, View, Previous) && s' == s.(disk := Moved(s.disk, View, Previous), pc := Aside(s.pc.Waiting?))
       case AsideHeld => s' == s.(log := s.log + [ToolHeld], pc := Waiting)
       case AsideFail => s' == End(s, AsideFailed)
  }

  /** The journal learns that the tool let go. */
  predicate RecordRelease(s: State, s': State) {
    s.pc == Aside(true) && s' == s.(phase := WaitingForRelease, pc := Recheck)
  }

  /** The catalog read again after a wait. */
  predicate CheckAgain(s: State, s': State) {
    && s.pc.Recheck? && s.reservation.Some?
    && var t := s.(log := s.log + [Read(s.catalog)]);
       s' == t.(pc := if Holds(s.reservation.value, s.catalog) then Rechecked else Restoring(CatalogMoved))
  }

  predicate RecordOldMoved(s: State, s': State) {
    (s.pc == Aside(false) || s.pc.Rechecked?) && s' == s.(phase := OldMoved, pc := Install)
  }

  predicate InstallNew(s: State, ok: bool, s': State) {
    && (s.pc.Install? || (s.pc.Ready? && s.oldView.None?))
    && if ok then CanMove(s.disk, NewBuild, View) && s' == s.(disk := Moved(s.disk, NewBuild, View), pc := Installed)
       else if s.oldView.Some? then s' == s.(pc := Restoring(NotInstalled))
       else s' == End(s, NotInstalled)
  }

  predicate RestoreOld(s: State, ok: bool, s': State) {
    && s.pc.Restoring?
    && if ok then CanMove(s.disk, Previous, View) && s' == End(s.(disk := Moved(s.disk, Previous, View)), s.pc.why)
       else s' == s.(pc := Dead)
  }

  predicate RecordInstalled(s: State, s': State) {
    && s.pc.Installed?
    && s' == (if s.phase.Before(NewInstalled) then s.(phase := NewInstalled) else s).(pc := Finishing)
  }

  /** A canceled Apply clears what it built. */
  predicate ClearBuilt(s: State, gone: bool, s': State) {
    && s.pc == Ending(Canceled)
    && s' == s.(disk := Without(s.disk, NewBuild, gone), whole := false, pc := Discarding(Canceled))
  }

  function Settle(s: State, outcome: Outcome): State {
    s.(phase := Settled, outcome := Some(outcome), catalog := s.catalog.(running := false), pc := Done)
  }

  predicate Discard(s: State, s': State) {
    || (s.pc.Discarding? && s' == Settle(s, Ended(s.pc.ended)))
    || (s.pc.Ending? && !s.pc.stop.Canceled? && s' == Settle(s, Ended(s.pc.stop)))
  }

  predicate Commit(s: State, generation: nat, s': State) {
    && s.pc.Finishing? && s.phase.Before(ManifestCommitted)
    && s' == s.(phase := ManifestCommitted, catalog := s.catalog.(generation := Some(generation)))
  }

  predicate MoveForeign(s: State, s': State) {
    s.pc.Finishing? && s.phase.ManifestCommitted? && s' == s.(phase := ForeignTransferred)
  }

  predicate StartRetiring(s: State, s': State) {
    s.pc.Finishing? && s.phase.ForeignTransferred? && s' == s.(phase := RetiringPrevious)
  }

  predicate Retire(s: State, gone: bool, s': State) {
    s.pc.Finishing? && s.phase.RetiringPrevious? && s' == s.(disk := Without(s.disk, Previous, gone))
  }

  predicate SettleApplied(s: State, s': State) {
    s.pc.Finishing? && (s.phase.ForeignTransferred? || s.phase.RetiringPrevious?) && s' == Settle(s, Applied)
  }

  /** The next start puts the folders in a state the journal can settle. */
  predicate Recover(s: State, ok: bool, s': State) {
    && s.pc.Dead?
    && match RecoverPlan(s.disk, s.phase, s.oldView, s.build)
       case Keep(v) => s' == s.(pc := PcAfter(v))
       case Rename(from, to, v) =>
         if ok then CanMove(s.disk, from, to) && s' == s.(disk := Moved(s.disk, from, to), pc := PcAfter(v))
         else s' == s
  }

  ghost predicate BuildingStep(s: State, s': State) {
    || ReadAfter(s, s')
    || (exists ok :: VerifySources(s, ok, s'))
    || (exists gone :: ClearStray(s, gone, s'))
    || (exists id :: MakeBuilding(s, id, s'))
    || RecordBuilding(s, s')
    || (exists stop :: PlaceAll(s, stop, s'))
    || (exists readable :: RecordBuild(s, readable, s'))
  }

  ghost predicate CheckingStep(s: State, s': State) {
    || CheckReserved(s, s')
    || AskCancel(s, s')
    || (exists gone, stop :: MakeWay(s, gone, stop, s'))
    || (exists refusal :: RefuseSwap(s, refusal, s'))
    || RecordRelease(s, s')
    || CheckAgain(s, s')
    || RecordOldMoved(s, s')
  }

  ghost predicate RenamingStep(s: State, s': State) {
    || (exists attempt :: MoveAside(s, attempt, s'))
    || (exists ok :: InstallNew(s, ok, s'))
    || (exists ok :: RestoreOld(s, ok, s'))
  }

  ghost predicate SettlingStep(s: State, s': State) {
    || RecordInstalled(s, s')
    || (exists gone :: ClearBuilt(s, gone, s'))
    || Discard(s, s')
    || (exists generation :: Commit(s, generation, s'))
    || MoveForeign(s, s')
    || StartRetiring(s, s')
    || (exists gone :: Retire(s, gone, s'))
    || SettleApplied(s, s')
  }

  ghost predicate Next(s: State, s': State) {
    || (exists now :: Edit(s, now, s'))
    || Crash(s, s')
    || (exists ok :: Recover(s, ok, s'))
    || BuildingStep(s, s') || CheckingStep(s, s') || RenamingStep(s, s') || SettlingStep(s, s')
  }

  predicate Init(s: State) {
    && s.pc.Start? && s.phase.Reserved?
    && (s.oldView.Some? <==> View in s.disk) && (s.oldView.Some? ==> At(s.disk, View, s.oldView))
    && Distinct(s.disk)
    && s.build.None? && s.outcome.None? && s.reservation.None? && !s.whole && s.log == []
    && s.catalog.running
  }

  /** A run: reserved once, then any steps, crashes and recoveries included. */
  ghost predicate Run(t: seq<State>) {
    t != [] && forall i: nat :: StepAt(t, i)
  }

  ghost predicate StepAt(t: seq<State>, i: nat) {
    i < |t| ==> if i == 0 then Init(t[0]) else Next(t[i - 1], t[i])
  }

  predicate Distinct(disk: Disk) {
    forall a, b :: a in disk && b in disk && a != b ==> disk[a] != disk[b]
  }

  // ---- The inductive invariant ----

  predicate OldInPlace(s: State) {
    if s.oldView.Some? then At(s.disk, View, s.oldView) else View !in s.disk
  }

  predicate OldAside(s: State) {
    View !in s.disk && At(s.disk, Previous, s.oldView)
  }

  predicate NewInPlace(s: State) {
    && At(s.disk, View, s.build) && NewBuild !in s.disk
    && s.whole && LastReadHeld(s.log, s.reservation)
    && (Previous in s.disk ==> At(s.disk, Previous, s.oldView))
    && (s.oldView.Some? && Previous !in s.disk ==> (s.phase.RetiringPrevious? || s.phase.Settled?))
  }

  predicate BuildWaits(s: State) {
    s.whole && At(s.disk, NewBuild, s.build)
  }

  predicate PhaseFits(s: State) {
    match s.pc
    case Start | Planned => s.phase.Reserved?
    case Sourced | Made(_) => s.phase.SourcesVerified?
    case Placing | Verified => s.phase.Building?
    case Built | Checked | Ready | Waiting | Aside(_) => s.phase.BuildVerified?
    case Recheck | Rechecked => s.phase.WaitingForRelease?
    case Install => s.phase.OldMoved?
    case Restoring(_) => (s.phase.WaitingForRelease? || s.phase.OldMoved?)
    case Installed => !s.phase.Before(BuildVerified) && s.phase.Before(Settled)
    case Finishing => !s.phase.Before(NewInstalled) && s.phase.Before(Settled)
    case Ending(_) | Discarding(_) => s.phase.Before(NewInstalled)
    case Dead => s.phase.Before(Settled)
    case Done => s.phase.Settled?
  }

  predicate DiskFits(s: State) {
    match s.pc
    case Start | Planned | Sourced | Ending(_) | Discarding(_) => OldInPlace(s)
    case Made(id) => OldInPlace(s) && At(s.disk, NewBuild, Some(id)) && s.oldView != Some(id)
    case Placing => OldInPlace(s) && At(s.disk, NewBuild, s.build)
    case Verified | Built | Checked | Waiting => OldInPlace(s) && BuildWaits(s)
    case Ready => OldInPlace(s) && BuildWaits(s) && (s.oldView.None? ==> Previous !in s.disk)
    case Aside(_) | Recheck | Rechecked | Install => OldAside(s) && BuildWaits(s)
    case Restoring(_) => OldAside(s)
    case Installed | Finishing => NewInPlace(s)
    case Dead =>
      if s.phase.Before(BuildVerified) then OldInPlace(s)
      else if s.phase.Before(NewInstalled) then OldInPlace(s) || OldAside(s) || NewInPlace(s)
      else NewInPlace(s)
    case Done => match s.outcome
      case None => false
      case Some(Applied) => NewInPlace(s)
      case Some(Ended(_)) => OldInPlace(s)
  }

  predicate Inv(s: State) {
    && Distinct(s.disk)
    && PhaseFits(s) && DiskFits(s)
    && (s.build.Some? ==> s.build != s.oldView)
    && ((s.phase.Reserved? || s.phase.SourcesVerified?) ==> s.build.None?)
    && (s.whole ==> BuildWaits(s) || NewInPlace(s))
    && (s.outcome.Some? <==> s.pc.Done?)
    && ((s.pc.Waiting? || s.pc == Aside(true) || s.pc.Recheck? || s.pc.Rechecked?) ==> s.oldView.Some?)
    && (s.log != [] ==> s.reservation.Some?)
    && (s.pc.Start? ==> s.log == [] && s.reservation.None?)
    && (s.reservation.Some? ==> s.reservation.value.revision == s.before.revision)
    && (s.reservation.None? ==> s.pc.Start? || s.pc.Dead? || s.pc.Done? || s.pc.Ending? || s.pc.Discarding?)
    && ((s.pc.Checked? || s.pc.Ready? || s.pc == Aside(false) || s.pc.Rechecked? || s.pc.Install?) ==> LastReadHeld(s.log, s.reservation))
  }

  // ---- Safety over every run ----

  lemma InitEstablishesInv(s: State)
    requires Init(s)
    ensures Inv(s)
  {
  }

  lemma EditKeepsInv(s: State, now: Inputs, s': State)
    requires Inv(s) && Edit(s, now, s')
    ensures Inv(s')
  {
  }

  lemma CrashKeepsInv(s: State, s': State)
    requires Inv(s) && Crash(s, s')
    ensures Inv(s')
  {
  }

  /** What recovery plans leaves the folders as its verdict says. */
  lemma PlanFits(s: State)
    requires Inv(s) && s.pc.Dead?
    ensures var plan := RecoverPlan(s.disk, s.phase, s.oldView, s.build);
      if plan.Keep? then
        || (plan.verdict.RecoveredNot? && OldInPlace(s) && s.phase.Before(NewInstalled))
        || (plan.verdict.RecoveredInstalled? && NewInPlace(s) && !s.phase.Before(BuildVerified))
      else
        plan == Rename(Previous, View, RecoveredNot) && OldAside(s) && s.phase.Before(NewInstalled)
  {
  }

  lemma RecoverKeepingKeepsInv(s: State, s': State)
    requires Inv(s) && s.pc.Dead? && s.phase.Before(Settled)
    requires (s' == s.(pc := Ending(Interrupted)) && OldInPlace(s) && s.phase.Before(NewInstalled))
          || (s' == s.(pc := Installed) && NewInPlace(s) && !s.phase.Before(BuildVerified))
    ensures Inv(s')
  {
  }

  lemma RecoverRenamingKeepsInv(s: State, s': State)
    requires Inv(s) && s.pc.Dead? && OldAside(s) && s.phase.Before(NewInstalled)
    requires s' == s.(disk := Moved(s.disk, Previous, View), pc := Ending(Interrupted))
    ensures Inv(s')
  {
  }

  lemma RecoverKeepsInv(s: State, ok: bool, s': State)
    requires Inv(s) && Recover(s, ok, s')
    ensures Inv(s')
  {
    PlanFits(s);
    if RecoverPlan(s.disk, s.phase, s.oldView, s.build).Keep? {
      RecoverKeepingKeepsInv(s, s');
    } else if ok {
      RecoverRenamingKeepsInv(s, s');
    }
  }

  lemma ReadAfterKeepsInv(s: State, s': State)
    requires Inv(s) && ReadAfter(s, s')
    ensures Inv(s')
  {
  }

  lemma VerifySourcesKeepsInv(s: State, ok: bool, s': State)
    requires Inv(s) && VerifySources(s, ok, s')
    ensures Inv(s')
  {
  }

  lemma ClearStrayKeepsInv(s: State, gone: bool, s': State)
    requires Inv(s) && ClearStray(s, gone, s')
    ensures Inv(s')
  {
  }

  lemma MakeBuildingKeepsInv(s: State, id: FolderId, s': State)
    requires Inv(s) && MakeBuilding(s, id, s')
    ensures Inv(s')
  {
  }

  lemma RecordBuildingKeepsInv(s: State, s': State)
    requires Inv(s) && RecordBuilding(s, s')
    ensures Inv(s')
  {
  }

  lemma PlaceAllKeepsInv(s: State, stop: Option<Stop>, s': State)
    requires Inv(s) && PlaceAll(s, stop, s')
    ensures Inv(s')
  {
  }

  lemma RecordBuildKeepsInv(s: State, readable: bool, s': State)
    requires Inv(s) && RecordBuild(s, readable, s')
    ensures Inv(s')
  {
  }

  lemma CheckReservedKeepsInv(s: State, s': State)
    requires Inv(s) && CheckReserved(s, s')
    ensures Inv(s')
  {
  }

  lemma AskCancelKeepsInv(s: State, s': State)
    requires Inv(s) && AskCancel(s, s')
    ensures Inv(s')
  {
  }

  lemma MakeWayKeepsInv(s: State, gone: bool, stop: Option<Stop>, s': State)
    requires Inv(s) && MakeWay(s, gone, stop, s')
    ensures Inv(s')
  {
  }

  lemma RefuseSwapKeepsInv(s: State, refusal: Stop, s': State)
    requires Inv(s) && RefuseSwap(s, refusal, s')
    ensures Inv(s')
  {
  }

  lemma MoveAsideKeepsInv(s: State, attempt: Attempt, s': State)
    requires Inv(s) && MoveAside(s, attempt, s')
    ensures Inv(s')
  {
  }

  lemma RecordReleaseKeepsInv(s: State, s': State)
    requires Inv(s) && RecordRelease(s, s')
    ensures Inv(s')
  {
  }

  lemma CheckAgainKeepsInv(s: State, s': State)
    requires Inv(s) && CheckAgain(s, s')
    ensures Inv(s')
  {
  }

  lemma RecordOldMovedKeepsInv(s: State, s': State)
    requires Inv(s) && RecordOldMoved(s, s')
    ensures Inv(s')
  {
  }

  /** A rename moves one folder and leaves the others. */
  lemma MovedIs(disk: Disk, from: Slot, to: Slot)
    requires Distinct(disk) && CanMove(disk, from, to)
    ensures var after := Moved(disk, from, to);
      && Distinct(after) && from !in after && to in after && after[to] == disk[from]
      && forall slot :: slot != from && slot != to ==> (slot in after <==> slot in disk) && (slot in disk ==> after[slot] == disk[slot])
  {
  }

  lemma InstalledKeepsInv(s: State, s': State)
    requires Inv(s) && InstallNew(s, true, s')
    ensures Inv(s')
  {
    MovedIs(s.disk, NewBuild, View);
  }

  lemma InstallNewKeepsInv(s: State, ok: bool, s': State)
    requires Inv(s) && InstallNew(s, ok, s')
    ensures Inv(s')
  {
    if ok { InstalledKeepsInv(s, s'); }
  }

  lemma RestoredKeepsInv(s: State, s': State)
    requires Inv(s) && RestoreOld(s, true, s')
    ensures Inv(s')
  {
    MovedIs(s.disk, Previous, View);
  }

  lemma RestoreOldKeepsInv(s: State, ok: bool, s': State)
    requires Inv(s) && RestoreOld(s, ok, s')
    ensures Inv(s')
  {
    if ok { RestoredKeepsInv(s, s'); } else { RestoringIsAside(s); }
  }

  lemma RestoringIsAside(s: State)
    requires Inv(s) && s.pc.Restoring?
    ensures OldAside(s) && !s.phase.Before(BuildVerified) && s.phase.Before(NewInstalled)
  {
  }

  lemma RecordInstalledKeepsInv(s: State, s': State)
    requires Inv(s) && RecordInstalled(s, s')
    ensures Inv(s')
  {
  }

  lemma ClearBuiltKeepsInv(s: State, gone: bool, s': State)
    requires Inv(s) && ClearBuilt(s, gone, s')
    ensures Inv(s')
  {
  }

  lemma DiscardKeepsInv(s: State, s': State)
    requires Inv(s) && Discard(s, s')
    ensures Inv(s')
  {
  }

  lemma CommitKeepsInv(s: State, generation: nat, s': State)
    requires Inv(s) && Commit(s, generation, s')
    ensures Inv(s')
  {
  }

  lemma MoveForeignKeepsInv(s: State, s': State)
    requires Inv(s) && MoveForeign(s, s')
    ensures Inv(s')
  {
  }

  lemma StartRetiringKeepsInv(s: State, s': State)
    requires Inv(s) && StartRetiring(s, s')
    ensures Inv(s')
  {
  }

  lemma RetireKeepsInv(s: State, gone: bool, s': State)
    requires Inv(s) && Retire(s, gone, s')
    ensures Inv(s')
  {
  }

  lemma SettleAppliedKeepsInv(s: State, s': State)
    requires Inv(s) && SettleApplied(s, s')
    ensures Inv(s')
  {
  }

  // ---- Every step keeps it ----

  lemma BuildingStepKeepsInv(s: State, s': State)
    requires Inv(s) && BuildingStep(s, s')
    ensures Inv(s')
  {
    if ReadAfter(s, s') { ReadAfterKeepsInv(s, s'); }
    else if ok :| VerifySources(s, ok, s') { VerifySourcesKeepsInv(s, ok, s'); }
    else if gone :| ClearStray(s, gone, s') { ClearStrayKeepsInv(s, gone, s'); }
    else if id :| MakeBuilding(s, id, s') { MakeBuildingKeepsInv(s, id, s'); }
    else if RecordBuilding(s, s') { RecordBuildingKeepsInv(s, s'); }
    else if stop :| PlaceAll(s, stop, s') { PlaceAllKeepsInv(s, stop, s'); }
    else { var readable :| RecordBuild(s, readable, s'); RecordBuildKeepsInv(s, readable, s'); }
  }

  lemma CheckingStepKeepsInv(s: State, s': State)
    requires Inv(s) && CheckingStep(s, s')
    ensures Inv(s')
  {
    if CheckReserved(s, s') { CheckReservedKeepsInv(s, s'); }
    else if AskCancel(s, s') { AskCancelKeepsInv(s, s'); }
    else if gone, stop :| MakeWay(s, gone, stop, s') { MakeWayKeepsInv(s, gone, stop, s'); }
    else if refusal :| RefuseSwap(s, refusal, s') { RefuseSwapKeepsInv(s, refusal, s'); }
    else if RecordRelease(s, s') { RecordReleaseKeepsInv(s, s'); }
    else if CheckAgain(s, s') { CheckAgainKeepsInv(s, s'); }
    else { RecordOldMovedKeepsInv(s, s'); }
  }

  lemma RenamingStepKeepsInv(s: State, s': State)
    requires Inv(s) && RenamingStep(s, s')
    ensures Inv(s')
  {
    if attempt :| MoveAside(s, attempt, s') { MoveAsideKeepsInv(s, attempt, s'); }
    else if ok :| InstallNew(s, ok, s') { InstallNewKeepsInv(s, ok, s'); }
    else { var ok :| RestoreOld(s, ok, s'); RestoreOldKeepsInv(s, ok, s'); }
  }

  lemma SettlingStepKeepsInv(s: State, s': State)
    requires Inv(s) && SettlingStep(s, s')
    ensures Inv(s')
  {
    if RecordInstalled(s, s') { RecordInstalledKeepsInv(s, s'); }
    else if gone :| ClearBuilt(s, gone, s') { ClearBuiltKeepsInv(s, gone, s'); }
    else if Discard(s, s') { DiscardKeepsInv(s, s'); }
    else if generation :| Commit(s, generation, s') { CommitKeepsInv(s, generation, s'); }
    else if MoveForeign(s, s') { MoveForeignKeepsInv(s, s'); }
    else if StartRetiring(s, s') { StartRetiringKeepsInv(s, s'); }
    else if gone :| Retire(s, gone, s') { RetireKeepsInv(s, gone, s'); }
    else { SettleAppliedKeepsInv(s, s'); }
  }

  lemma StepKeepsInv(s: State, s': State)
    requires Inv(s) && Next(s, s')
    ensures Inv(s')
  {
    if now :| Edit(s, now, s') { EditKeepsInv(s, now, s'); }
    else if Crash(s, s') { CrashKeepsInv(s, s'); }
    else if ok :| Recover(s, ok, s') { RecoverKeepsInv(s, ok, s'); }
    else if BuildingStep(s, s') { BuildingStepKeepsInv(s, s'); }
    else if CheckingStep(s, s') { CheckingStepKeepsInv(s, s'); }
    else if RenamingStep(s, s') { RenamingStepKeepsInv(s, s'); }
    else { SettlingStepKeepsInv(s, s'); }
  }

  lemma {:induction false} RunKeepsInv(t: seq<State>, i: nat)
    requires Run(t) && i < |t|
    ensures Inv(t[i])
  {
    if i == 0 {
      InitEstablishesInv(t[0]);
    } else {
      RunKeepsInv(t, i - 1);
      assert StepAt(t, i);
      StepKeepsInv(t[i - 1], t[i]);
    }
  }

  // ---- What the invariant says of every run ----

  predicate HeldByOne(disk: Disk, id: FolderId, a: Slot, b: Slot) {
    && (At(disk, a, Some(id)) || At(disk, b, Some(id)))
    && (forall x, y :: x in disk && y in disk && disk[x] == id && disk[y] == id ==> x == y)
  }

  /** No crash, failed rename or recovery loses a View. The old one sits under
      exactly one of its two names until the installed Apply retires it, and
      a whole build under exactly one of its two; `View/` is never anything
      else. */
  lemma NothingIsLost(t: seq<State>, i: nat)
    requires Run(t) && i < |t|
    ensures t[i].oldView.Some? && t[i].phase.Before(RetiringPrevious) ==> HeldByOne(t[i].disk, t[i].oldView.value, View, Previous)
    ensures t[i].whole ==> t[i].build.Some? && HeldByOne(t[i].disk, t[i].build.value, NewBuild, View)
    ensures View in t[i].disk ==> At(t[i].disk, View, t[i].oldView) || (At(t[i].disk, View, t[i].build) && t[i].whole)
  {
    RunKeepsInv(t, i);
  }

  /** A settled Apply is Applied exactly when `View/` is the verified build;
      otherwise `View/` is the old View, or absent as it was. */
  lemma SettledOutcome(t: seq<State>, i: nat)
    requires Run(t) && i < |t| && t[i].outcome.Some?
    ensures t[i].outcome.value.Applied? <==> At(t[i].disk, View, t[i].build)
    ensures t[i].outcome.value.Applied? ==> t[i].whole
    ensures !t[i].outcome.value.Applied? ==> OldInPlace(t[i])
  {
    RunKeepsInv(t, i);
  }
}
