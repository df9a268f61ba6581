/** What each phase of Apply's journal stands for: which phase it follows, and
    what was done when it was recorded. */
module ApplyPhases {
  import opened Wrappers
  import opened ApplySwap
  import opened ApplyReads

  /** The phases in order; waiting for a tool and retiring an old View are the
      ones an Apply may pass by, and one that ends early settles from any phase
      before the build is in. */
  predicate Follows(a: Phase, b: Phase) {
    match b
    case Reserved => false
    case SourcesVerified => a.Reserved?
    case Building => a.SourcesVerified?
    case BuildVerified => a.Building?
    case WaitingForRelease => a.BuildVerified?
    case OldMoved => a.BuildVerified? || a.WaitingForRelease?
    case NewInstalled => a.BuildVerified? || a.WaitingForRelease? || a.OldMoved?
    case ManifestCommitted => a.NewInstalled?
    case ForeignTransferred => a.ManifestCommitted?
    case RetiringPrevious => a.ForeignTransferred?
    case Settled => !a.NewInstalled? && !a.ManifestCommitted? && !a.Settled?
  }

  /** What recording the phase says was done. */
  predicate Done(s: State, s': State) {
    match s'.phase
    case Building => At(s.disk, NewBuild, s'.build)
    case BuildVerified => s.whole
    case WaitingForRelease | OldMoved => At(s.disk, Previous, s.oldView)
    case NewInstalled | ForeignTransferred | RetiringPrevious => At(s.disk, View, s.build)
    case ManifestCommitted =>
      At(s.disk, View, s.build) && s'.catalog == s.catalog.(generation := s'.catalog.generation) && s'.catalog.generation.Some?
    case Settled =>
      && (s'.outcome == Some(Applied) <==> s.phase.ForeignTransferred? || s.phase.RetiringPrevious?)
      && s'.outcome.Some? && s'.catalog == s.catalog.(running := false)
    case _ => true
  }

  predicate PhaseStep(s: State, s': State) {
    if s'.phase == s.phase then s'.outcome == s.outcome
    else Follows(s.phase, s'.phase) && Done(s, s')
  }

  /** The facts of the invariant these rest on. */
  predicate Grounded(s: State) {
    && PhaseFits(s) && (s.outcome.Some? <==> s.pc.Done?)
    && (s.pc.Made? ==> At(s.disk, NewBuild, Some(s.pc.id)))
    && (s.pc.Verified? ==> s.whole)
    && ((s.pc.Aside? || s.pc.Rechecked?) ==> At(s.disk, Previous, s.oldView))
    && ((s.pc.Installed? || s.pc.Finishing?) ==> At(s.disk, View, s.build))
  }

  lemma InvIsGrounded(s: State)
    requires Inv(s)
    ensures Grounded(s)
  {
  }

  // ---- Step by step ----

  lemma EnvironmentPhaseStep(s: State, s': State)
    requires (exists now :: Edit(s, now, s')) || Crash(s, s') || (exists ok :: Recover(s, ok, s'))
    ensures PhaseStep(s, s')
  {
    if now :| Edit(s, now, s') {}
    else if Crash(s, s') {}
    else {}
  }

  lemma SourcesPhaseStep(s: State, ok: bool, s': State)
    requires Grounded(s) && VerifySources(s, ok, s')
    ensures PhaseStep(s, s')
  {
  }

  lemma RecordBuildingPhaseStep(s: State, s': State)
    requires Grounded(s) && RecordBuilding(s, s')
    ensures PhaseStep(s, s')
  {
  }

  lemma RecordBuildPhaseStep(s: State, readable: bool, s': State)
    requires Grounded(s) && RecordBuild(s, readable, s')
    ensures PhaseStep(s, s')
  {
  }

  lemma BuildingPhaseStep(s: State, s': State)
    requires Grounded(s) && BuildingStep(s, s')
    ensures PhaseStep(s, s')
  {
    if ok :| VerifySources(s, ok, s') { SourcesPhaseStep(s, ok, s'); }
    else if RecordBuilding(s, s') { RecordBuildingPhaseStep(s, s'); }
    else if readable :| RecordBuild(s, readable, s') { RecordBuildPhaseStep(s, readable, s'); }
    else if gone :| ClearStray(s, gone, s') {}
    else if stop :| PlaceAll(s, stop, s') {}
    else {}
  }

  lemma CheckingPhaseStep(s: State, s': State)
    requires Grounded(s) && CheckingStep(s, s')
    ensures PhaseStep(s, s')
  {
    if RecordRelease(s, s') {}
    else if RecordOldMoved(s, s') {}
    else if gone, stop :| MakeWay(s, gone, stop, s') {}
    else if refusal :| RefuseSwap(s, refusal, s') {}
    else {}
  }

  lemma RenamingPhaseStep(s: State, s': State)
    requires RenamingStep(s, s')
    ensures PhaseStep(s, s')
  {
    if attempt :| MoveAside(s, attempt, s') {}
    else if ok :| InstallNew(s, ok, s') {}
    else {}
  }

  lemma InstalledPhaseStep(s: State, s': State)
    requires Grounded(s) && RecordInstalled(s, s')
    ensures PhaseStep(s, s')
  {
  }

  lemma CommitPhaseStep(s: State, generation: nat, s': State)
    requires Grounded(s) && Commit(s, generation, s')
    ensures PhaseStep(s, s')
  {
  }

  lemma EndPhaseStep(s: State, s': State)
    requires Grounded(s) && (Discard(s, s') || SettleApplied(s, s'))
    ensures PhaseStep(s, s')
  {
    if Discard(s, s') {} else {}
  }

  lemma SettlingPhaseStep(s: State, s': State)
    requires Grounded(s) && SettlingStep(s, s')
    ensures PhaseStep(s, s')
  {
    if RecordInstalled(s, s') { InstalledPhaseStep(s, s'); }
    else if generation :| Commit(s, generation, s') { CommitPhaseStep(s, generation, s'); }
    else if Discard(s, s') || SettleApplied(s, s') { EndPhaseStep(s, s'); }
    else if gone :| ClearBuilt(s, gone, s') {}
    else if gone :| Retire(s, gone, s') {}
    else {}
  }

  /** Along every run a phase follows the one before it, over what was done. */
  lemma PhasesInOrder(t: seq<State>, i: nat)
    requires Run(t) && i + 1 < |t|
    ensures PhaseStep(t[i], t[i + 1])
  {
    RunKeepsInv(t, i);
    InvIsGrounded(t[i]);
    var s, s' := t[i], t[i + 1];
    assert Next(s, s') by { assert StepAt(t, i + 1); }
    if BuildingStep(s, s') { BuildingPhaseStep(s, s'); }
    else if CheckingStep(s, s') { CheckingPhaseStep(s, s'); }
    else if RenamingStep(s, s') { RenamingPhaseStep(s, s'); }
    else if SettlingStep(s, s') { SettlingPhaseStep(s, s'); }
    else { EnvironmentPhaseStep(s, s'); }
  }

  // ---- What an Apply that reads Applied has done ----

  /** The step that recorded the phase a state is in. */
  lemma {:induction false} RecordedBy(t: seq<State>, i: nat) returns (k: nat)
    requires Run(t) && i < |t| && !t[i].phase.Reserved?
    ensures k < i && t[k + 1].phase == t[i].phase && t[k + 1].outcome == t[i].outcome
    ensures Follows(t[k].phase, t[i].phase) && Done(t[k], t[k + 1])
    decreases i
  {
    assert StepAt(t, 0);
    PhasesInOrder(t, i - 1);
    if t[i - 1].phase == t[i].phase {
      k := RecordedBy(t, i - 1);
    } else {
      k := i - 1;
    }
  }

  /** Past `ForeignTransferred` the manifest was committed first, over the
      installed build. */
  lemma CommittedBefore(t: seq<State>, i: nat) returns (c: nat, f: nat)
    requires Run(t) && i < |t| && (t[i].phase.ForeignTransferred? || t[i].phase.RetiringPrevious?)
    ensures c < f < i && t[c].phase.NewInstalled? && t[c + 1].phase.ManifestCommitted? && Done(t[c], t[c + 1])
    ensures t[f].phase.ManifestCommitted? && t[f + 1].phase.ForeignTransferred?
  {
    f := RecordedBy(t, i);
    if t[i].phase.RetiringPrevious? {
      f := RecordedBy(t, f);
    }
    c := RecordedBy(t, f);
  }

  /** An Apply that reads Applied found the build in `View/`, then committed
      its manifest, which gave the catalog its generation, then moved the
      foreign files, and settled last. */
  lemma AppliedIsCommitted(t: seq<State>, i: nat) returns (n: nat, c: nat, f: nat, d: nat)
    requires Run(t) && i < |t| && t[i].outcome == Some(Applied)
    ensures n < c < f < d < i
    ensures t[n + 1].phase.NewInstalled? && !t[n].phase.NewInstalled? && At(t[n].disk, View, t[n].build)
    ensures t[c].phase.NewInstalled? && t[c + 1].phase.ManifestCommitted? && At(t[c].disk, View, t[c].build)
    ensures t[c + 1].catalog.generation.Some? && t[c + 1].catalog == t[c].catalog.(generation := t[c + 1].catalog.generation)
    ensures t[f].phase.ManifestCommitted? && t[f + 1].phase.ForeignTransferred?
    ensures t[d].outcome.None? && t[d + 1].phase.Settled? && t[d + 1].outcome == Some(Applied) && !t[d + 1].catalog.running
  {
    AppliedIsSettled(t, i);
    d := RecordedBy(t, i);
    c, f := CommittedBefore(t, d);
    n := RecordedBy(t, c);
    NotSettledYet(t, d);
  }

  lemma AppliedIsSettled(t: seq<State>, i: nat)
    requires Run(t) && i < |t| && t[i].outcome.Some?
    ensures t[i].phase.Settled?
  {
    RunKeepsInv(t, i);
  }

  lemma NotSettledYet(t: seq<State>, i: nat)
    requires Run(t) && i < |t| && !t[i].phase.Settled?
    ensures t[i].outcome.None?
  {
    if t[i].outcome.Some? { AppliedIsSettled(t, i); }
  }
}
