/** Why a measurement run ends as it does: what it reads, traced back to the
    cancels and the refused writes of its own. */
module MeasurementEnds {
  import opened Wrappers
  import opened MeasurementRun

  // ---- Causes ----

  ghost predicate SomeMark(s: State, s': State) {
    exists w :: Mark(s, w, s')
  }

  /** The catalog refuses a worker's write. */
  ghost predicate SomeRefusal(s: State, s': State) {
    exists w :: Write(s, w, false, s')
  }

  ghost predicate CanceledAt(t: seq<State>, k: nat, r: RunId) {
    k + 1 < |t| && t[k].run.Some? && t[k].run.value.id == r && Cancel(t[k], t[k + 1])
  }

  ghost predicate MarkedAt(t: seq<State>, k: nat, r: RunId) {
    k + 1 < |t| && t[k].run.Some? && t[k].run.value.id == r && SomeMark(t[k], t[k + 1])
  }

  ghost predicate RefusedAt(t: seq<State>, k: nat, r: RunId) {
    k + 1 < |t| && t[k].run.Some? && t[k].run.value.id == r && SomeRefusal(t[k], t[k + 1])
  }

  /** The run was canceled at some step before the i-th state. */
  ghost predicate WasCanceled(t: seq<State>, i: nat, r: RunId) {
    exists k: nat :: k < i && CanceledAt(t, k, r)
  }

  /** A worker marked the run Failed before. */
  ghost predicate WasMarked(t: seq<State>, i: nat, r: RunId) {
    exists k: nat :: k < i && MarkedAt(t, k, r)
  }

  /** The catalog refused a write of the run's before. */
  ghost predicate WasRefused(t: seq<State>, i: nat, r: RunId) {
    exists k: nat :: k < i && RefusedAt(t, k, r)
  }

  // ---- What a step does to the end ----

  /** The run stays the same one, and only a mark or a cancel touches its
      end. */
  predicate EndSteps(s: State, marked: bool, s': State) {
    s.run.Some? && s'.run.Some? ==>
      && s'.run.value.id == s.run.value.id
      && s'.run.value.end ==
           if marked then Some(Failed)
           else if Cancel(s, s') && s.run.value.end.None? then Some(Canceled)
           else s.run.value.end
  }

  lemma JoinEnds(s: State, added: seq<Asset>, priority: seq<Asset>, pool: nat, s': State)
    requires Join(s, added, priority, pool, s')
    ensures EndSteps(s, false, s')
  {
  }

  lemma FlagStepEnds(s: State, s': State)
    requires (exists assets :: Prioritize(s, assets, s')) || Cancel(s, s') || Shut(s, s') || AbortAll(s, s')
    ensures EndSteps(s, false, s')
  {
    if assets :| Prioritize(s, assets, s') {}
    else if Cancel(s, s') {}
    else {}
  }

  lemma CallerStepEnds(s: State, s': State)
    requires CallerStep(s, s')
    ensures EndSteps(s, false, s')
  {
    if id, queue, pool :| Begin(s, id, queue, pool, s') {}
    else if added, priority, pool :| Join(s, added, priority, pool, s') { JoinEnds(s, added, priority, pool, s'); }
    else { FlagStepEnds(s, s'); }
  }

  lemma QueueStepEnds(s: State, w: WorkerId, s': State)
    requires Enter(s, w, s') || Dequeue(s, w, s') || Leave(s, w, s') || exists first, second :: Finish(s, w, first, second, s')
    ensures EndSteps(s, false, s')
  {
    if Enter(s, w, s') {}
    else if Dequeue(s, w, s') {}
    else if Leave(s, w, s') {}
    else {}
  }

  lemma FrameStepKeepsRun(s: State, w: WorkerId, s': State)
    requires FrameStep(s, w, s')
    ensures s'.run == s.run
  {
    if ok :| Write(s, w, ok, s') {}
    else if Measured(s, w, s') {}
    else if Judge(s, w, s') {}
    else {}
  }

  lemma KeptRunEnds(s: State, s': State)
    requires s'.run == s.run
    ensures EndSteps(s, false, s')
  {
  }

  lemma StepEnds(s: State, s': State)
    requires Next(s, s')
    ensures EndSteps(s, SomeMark(s, s'), s')
  {
    if SomeMark(s, s') {
      var w :| Mark(s, w, s');
    } else if CallerStep(s, s') {
      CallerStepEnds(s, s');
    } else if w :| FrameStep(s, w, s') {
      FrameStepKeepsRun(s, w, s');
      KeptRunEnds(s, s');
    } else {
      var w :| LockStep(s, w, s');
      assert !Mark(s, w, s');
      QueueStepEnds(s, w, s');
    }
  }

  // ---- A run is begun once ----

  lemma AssetsGrow(s: State, s': State)
    requires Next(s, s')
    ensures s.assets.Keys <= s'.assets.Keys
    ensures s.run.None? && s'.run.Some? ==>
      s'.run.value.id !in s.assets && s'.run.value.id in s'.assets && s'.run.value.end.None?
  {
    if CallerStep(s, s') { CallerAssetsGrow(s, s'); }
    else if w :| FrameStep(s, w, s') { FrameAssetsStay(s, w, s'); }
    else { var w :| LockStep(s, w, s'); LockAssetsStay(s, w, s'); }
  }

  lemma CallerAssetsGrow(s: State, s': State)
    requires CallerStep(s, s')
    ensures s.assets.Keys <= s'.assets.Keys
    ensures s.run.None? && s'.run.Some? ==>
      s'.run.value.id !in s.assets && s'.run.value.id in s'.assets && s'.run.value.end.None?
  {
    if id, queue, pool :| Begin(s, id, queue, pool, s') { BeginAssetsGrow(s, id, queue, pool, s'); }
    else if added, priority, pool :| Join(s, added, priority, pool, s') { JoinAssetsGrow(s, added, priority, pool, s'); }
    else { FlagAssetsStay(s, s'); }
  }

  lemma BeginAssetsGrow(s: State, id: RunId, queue: seq<Asset>, pool: nat, s': State)
    requires Begin(s, id, queue, pool, s')
    ensures s.assets.Keys <= s'.assets.Keys
    ensures s'.run.Some? && s'.run.value.id !in s.assets && s'.run.value.id in s'.assets && s'.run.value.end.None?
  {
  }

  lemma JoinAssetsGrow(s: State, added: seq<Asset>, priority: seq<Asset>, pool: nat, s': State)
    requires Join(s, added, priority, pool, s')
    ensures s.assets.Keys <= s'.assets.Keys && s.run.Some?
  {
  }

  lemma FlagAssetsStay(s: State, s': State)
    requires (exists assets :: Prioritize(s, assets, s')) || Cancel(s, s') || Shut(s, s') || AbortAll(s, s')
    ensures s'.assets == s.assets && (s.run.None? ==> s'.run.None?)
  {
    if assets :| Prioritize(s, assets, s') {}
    else if Cancel(s, s') {}
    else {}
  }

  lemma FrameAssetsStay(s: State, w: WorkerId, s': State)
    requires FrameStep(s, w, s')
    ensures s'.assets == s.assets && s'.run == s.run
  {
    FrameStepKeepsRun(s, w, s');
    if ok :| Write(s, w, ok, s') {}
    else if Measured(s, w, s') {}
    else {}
  }

  lemma LockAssetsStay(s: State, w: WorkerId, s': State)
    requires LockStep(s, w, s')
    ensures s'.assets == s.assets && s.run.Some?
  {
    if TakesLock(s, w, s') {
      TakingFinishesNone(s, w, s');
    }
  }

  /** Every run seen so far is known. */
  lemma {:induction false} SeenIsKnown(t: seq<State>, k: nat, i: nat)
    requires Run(t) && k <= i < |t| && t[k].run.Some?
    ensures t[k].run.value.id in t[i].assets
    decreases i
  {
    if i > 0 {
      assert Next(t[i - 1], t[i]) by { assert StepAt(t, i); }
      AssetsGrow(t[i - 1], t[i]);
      if k < i {
        SeenIsKnown(t, k, i - 1);
      } else if t[i - 1].run.Some? {
        SeenIsKnown(t, i - 1, i - 1);
        StepEnds(t[i - 1], t[i]);
      }
    }
  }

  // ---- The end, from its causes ----

  /** The end of a run says what became of it so far. */
  ghost predicate EndFits(t: seq<State>, i: nat) {
    i < |t| && t[i].run.Some? ==>
      var r, end := t[i].run.value.id, t[i].run.value.end;
      && (end == None <==> !WasCanceled(t, i, r) && !WasMarked(t, i, r))
      && (end == Some(Canceled) <==> WasCanceled(t, i, r) && !WasMarked(t, i, r))
      && (end == Some(Failed) <==> WasMarked(t, i, r))
  }

  lemma CausesGrow(t: seq<State>, i: nat, r: RunId)
    requires 0 < i < |t|
    ensures WasCanceled(t, i, r) <==> WasCanceled(t, i - 1, r) || CanceledAt(t, i - 1, r)
    ensures WasMarked(t, i, r) <==> WasMarked(t, i - 1, r) || MarkedAt(t, i - 1, r)
    ensures WasRefused(t, i, r) <==> WasRefused(t, i - 1, r) || RefusedAt(t, i - 1, r)
  {
  }

  /** A run just begun has no past. */
  lemma BegunWithoutCause(t: seq<State>, i: nat)
    requires Run(t) && 0 < i < |t| && t[i - 1].run.None? && t[i].run.Some?
    ensures var r := t[i].run.value.id; !WasCanceled(t, i, r) && !WasMarked(t, i, r) && t[i].run.value.end.None?
  {
    assert Next(t[i - 1], t[i]) by { assert StepAt(t, i); }
    AssetsGrow(t[i - 1], t[i]);
    forall k: nat | k < i && t[k].run.Some? ensures t[k].run.value.id != t[i].run.value.id {
      SeenIsKnown(t, k, i - 1);
    }
  }

  lemma {:induction false} EndIsCaused(t: seq<State>, i: nat)
    requires Run(t) && i < |t|
    ensures EndFits(t, i)
  {
    if i > 0 && t[i].run.Some? {
      if t[i - 1].run.None? {
        BegunWithoutCause(t, i);
      } else {
        EndIsCaused(t, i - 1);
        assert Next(t[i - 1], t[i]) by { assert StepAt(t, i); }
        StepEnds(t[i - 1], t[i]);
        CausesGrow(t, i, t[i].run.value.id);
      }
    }
  }

  // ---- Only a refused write fails a run from within ----

  /** The worker has had a write refused and not yet let go of it. */
  predicate Failing(x: Worker) {
    x.Refused? || x.Failing?
  }

  ghost predicate SomeoneFailing(s: State) {
    exists w :: w in s.workers && Failing(s.workers[w])
  }

  /** Whoever fails after the step failed before, or had its write refused by
      it. */
  predicate FailingSteps(s: State, s': State) {
    forall w :: w in s'.workers && Failing(s'.workers[w]) ==>
      (w in s.workers && Failing(s.workers[w])) || Write(s, w, false, s')
  }

  lemma CallerStepFails(s: State, s': State)
    requires Counted(s) && CallerStep(s, s')
    ensures FailingSteps(s, s')
  {
    if id, queue, pool :| Begin(s, id, queue, pool, s') { BeginFails(s, id, queue, pool, s'); }
    else if added, priority, pool :| Join(s, added, priority, pool, s') { JoinFails(s, added, priority, pool, s'); }
    else { FlagStepFails(s, s'); }
  }

  lemma BeginFails(s: State, id: RunId, queue: seq<Asset>, pool: nat, s': State)
    requires Counted(s) && Begin(s, id, queue, pool, s')
    ensures FailingSteps(s, s')
  {
    SpawnedCount(s.workers, s.spawned, Wanted(pool, |queue|, 1));
  }

  lemma JoinFails(s: State, added: seq<Asset>, priority: seq<Asset>, pool: nat, s': State)
    requires Counted(s) && Join(s, added, priority, pool, s')
    ensures FailingSteps(s, s')
  {
    SpawnedCount(s.workers, s.spawned, s'.run.value.workers - s.run.value.workers);
  }

  lemma FlagStepFails(s: State, s': State)
    requires (exists assets :: Prioritize(s, assets, s')) || Cancel(s, s') || Shut(s, s') || AbortAll(s, s')
    ensures FailingSteps(s, s')
  {
    if assets :| Prioritize(s, assets, s') {}
    else if Cancel(s, s') {}
    else {}
  }

  /** One worker leaves or moves on to where it does not fail. */
  lemma MovingOnFails(s: State, w: WorkerId, to: Worker, s': State)
    requires s'.workers == s.workers || s'.workers == s.workers - {w} || (!Failing(to) && s'.workers == s.workers[w := to])
    ensures FailingSteps(s, s')
  {
  }

  lemma TakingStepMoves(s: State, w: WorkerId, s': State) returns (to: Worker)
    requires Enter(s, w, s') || Dequeue(s, w, s')
    ensures s'.workers == s.workers || (!Failing(to) && s'.workers == s.workers[w := to])
  {
    to := if w in s'.workers then s'.workers[w] else Gone;
    if Enter(s, w, s') { assert s.shutdown ==> to == Gone; }
  }

  lemma LeavingStepMoves(s: State, w: WorkerId, s': State)
    requires Leave(s, w, s') || exists first, second :: Finish(s, w, first, second, s')
    ensures s'.workers == s.workers - {w}
  {
    if Leave(s, w, s') {} else {}
  }

  lemma LockStepFails(s: State, w: WorkerId, s': State)
    requires LockStep(s, w, s')
    ensures FailingSteps(s, s')
  {
    if Mark(s, w, s') {
      MovingOnFails(s, w, Marked, s');
    } else if Enter(s, w, s') || Dequeue(s, w, s') {
      var to := TakingStepMoves(s, w, s');
      MovingOnFails(s, w, to, s');
    } else {
      LeavingStepMoves(s, w, s');
      MovingOnFails(s, w, Gone, s');
    }
  }

  lemma WriteFails(s: State, w: WorkerId, ok: bool, s': State)
    requires Write(s, w, ok, s')
    ensures FailingSteps(s, s')
  {
    if ok { MovingOnFails(s, w, Asking, s'); }
  }

  lemma JudgeFails(s: State, w: WorkerId, s': State)
    requires Judge(s, w, s')
    ensures FailingSteps(s, s')
  {
  }

  lemma FrameStepFails(s: State, w: WorkerId, s': State)
    requires FrameStep(s, w, s')
    ensures FailingSteps(s, s')
  {
    if ok :| Write(s, w, ok, s') {
      WriteFails(s, w, ok, s');
    } else if Judge(s, w, s') {
      JudgeFails(s, w, s');
    } else {
      CarryingOnFails(s, w, s');
    }
  }

  lemma CarryingOnFails(s: State, w: WorkerId, s': State)
    requires Measured(s, w, s') || RaiseAbort(s, w, s')
    ensures FailingSteps(s, s')
  {
    if Measured(s, w, s') {
      MovingOnFails(s, w, s'.workers[w], s');
    } else {
      MovingOnFails(s, w, Asking, s');
    }
  }

  lemma StepFails(s: State, s': State)
    requires Counted(s) && Next(s, s')
    ensures FailingSteps(s, s')
  {
    if CallerStep(s, s') { CallerStepFails(s, s'); }
    else if w :| FrameStep(s, w, s') { FrameStepFails(s, w, s'); }
    else { var w :| LockStep(s, w, s'); LockStepFails(s, w, s'); }
  }

  ghost predicate RefusalFits(t: seq<State>, i: nat) {
    i < |t| && SomeoneFailing(t[i]) ==> t[i].run.Some? && WasRefused(t, i, t[i].run.value.id)
  }

  lemma {:induction false} FailingWasRefused(t: seq<State>, i: nat)
    requires Run(t) && i < |t|
    ensures RefusalFits(t, i)
  {
    if i == 0 {
      NoneFailsAtFirst(t);
    } else if SomeoneFailing(t[i]) {
      FailingWasRefused(t, i - 1);
      FailingHasRun(t, i);
      var r := t[i].run.value.id;
      FailureIsOld(t, i);
      CausesGrow(t, i, r);
    }
  }

  lemma NoneFailsAtFirst(t: seq<State>)
    requires Run(t)
    ensures !SomeoneFailing(t[0])
  {
  }

  lemma FailingHasRun(t: seq<State>, i: nat)
    requires Run(t) && i < |t| && SomeoneFailing(t[i])
    ensures t[i].run.Some?
  {
    RunKeepsInv(t, i);
  }

  /** Someone failed in the same run before the step, or the step refused a
      write of it. */
  lemma FailureIsOld(t: seq<State>, i: nat)
    requires Run(t) && 0 < i < |t| && SomeoneFailing(t[i]) && t[i].run.Some?
    ensures var r := t[i].run.value.id;
      RefusedAt(t, i - 1, r) || (SomeoneFailing(t[i - 1]) && t[i - 1].run.Some? && t[i - 1].run.value.id == r)
  {
    var s, s' := t[i - 1], t[i];
    assert Next(s, s') by { assert StepAt(t, i); }
    assert Counted(s) by { RunKeepsInv(t, i - 1); }
    StepFails(s, s');
    StepEnds(s, s');
    if SomeoneFailing(s) {
      FailingHasRun(t, i - 1);
    } else {
      RefusalShows(s, s');
    }
  }

  lemma RefusalShows(s: State, s': State)
    requires FailingSteps(s, s') && SomeoneFailing(s') && !SomeoneFailing(s)
    ensures SomeRefusal(s, s') && s.run.Some?
  {
    var w :| w in s'.workers && Failing(s'.workers[w]);
    assert Write(s, w, false, s');
  }

  /** A run is marked only after the catalog refused one of its writes. */
  lemma MarkedWasRefused(t: seq<State>, i: nat, r: RunId)
    requires Run(t) && i < |t| && WasMarked(t, i, r)
    ensures WasRefused(t, i, r)
  {
    var k: nat :| k < i && MarkedAt(t, k, r);
    var w :| Mark(t[k], w, t[k + 1]);
    FailingWasRefused(t, k);
    assert SomeoneFailing(t[k]);
    var j: nat :| j < k && RefusedAt(t, j, r);
  }

  // ---- What a finished run reads, from its causes ----

  /** The step that finishes a run, with which of its writes the catalog took;
      the run reads Completed when nothing ended it, Canceled when a cancel
      alone did, each if the first of them was taken, and Failed when it was
      marked or that write was refused. */
  lemma FinishedAsCaused(t: seq<State>, i: nat, r: RunId) returns (w: WorkerId, first: bool, second: bool)
    requires Run(t) && 0 < i < |t| && r !in t[i - 1].finished && r in t[i].finished
    ensures Finish(t[i - 1], w, first, second, t[i])
    ensures t[i].finished[r] == Completed <==> first && !WasCanceled(t, i - 1, r) && !WasMarked(t, i - 1, r)
    ensures t[i].finished[r] == Canceled <==> first && WasCanceled(t, i - 1, r) && !WasMarked(t, i - 1, r)
    ensures t[i].finished[r] == Failed <==> WasMarked(t, i - 1, r) || !first
  {
    var s, s' := t[i - 1], t[i];
    assert Next(s, s') by { assert StepAt(t, i); }
    EndIsCaused(t, i - 1);
    RunKeepsInv(t, i - 1);
    w, first, second := FinishingStep(s, s', r);
    FinishReads(s, w, first, second, s', r);
  }

  /** The catalog reads the run as finished only if it took a write of its
      end: the first, or the second that says Failed of a run not marked so
      already. */
  lemma FinishedIfTaken(t: seq<State>, i: nat, w: WorkerId, first: bool, second: bool)
    requires Run(t) && 0 < i < |t| && Finish(t[i - 1], w, first, second, t[i])
    ensures var r := t[i - 1].run.value.id;
      r in t[i].finished <==> first || (second && !WasMarked(t, i - 1, r))
  {
    EndIsCaused(t, i - 1);
    NotFinishedYet(t, i - 1);
  }

  lemma NotFinishedYet(t: seq<State>, i: nat)
    requires Run(t) && i < |t| && t[i].run.Some?
    ensures t[i].run.value.id !in t[i].finished
  {
    RunKeepsInv(t, i);
  }

  lemma FinishingStep(s: State, s': State, r: RunId) returns (w: WorkerId, first: bool, second: bool)
    requires Next(s, s') && r !in s.finished && r in s'.finished
    ensures Finish(s, w, first, second, s')
  {
    if CallerStep(s, s') {
      CallerStepFinishesNone(s, s');
    } else if v :| FrameStep(s, v, s') {
      FrameStepFinishesNone(s, v, s');
    } else {
      w :| LockStep(s, w, s');
      if TakesLock(s, w, s') {
        TakingFinishesNone(s, w, s');
      }
      first, second :| Finish(s, w, first, second, s');
    }
  }

  /** A worker uses the lock for anything but finishing the run. */
  predicate TakesLock(s: State, w: WorkerId, s': State) {
    Enter(s, w, s') || Dequeue(s, w, s') || Leave(s, w, s') || Mark(s, w, s')
  }

  lemma TakingFinishesNone(s: State, w: WorkerId, s': State)
    requires TakesLock(s, w, s')
    ensures s'.finished == s.finished && s'.assets == s.assets && s.run.Some?
  {
    if Enter(s, w, s') { EnterFinishesNone(s, w, s'); }
    else if Dequeue(s, w, s') { DequeueFinishesNone(s, w, s'); }
    else if Leave(s, w, s') { LeaveFinishesNone(s, w, s'); }
    else { MarkFinishesNone(s, w, s'); }
  }

  lemma EnterFinishesNone(s: State, w: WorkerId, s': State)
    requires Enter(s, w, s')
    ensures s'.finished == s.finished && s'.assets == s.assets && s.run.Some?
  {
  }

  lemma DequeueFinishesNone(s: State, w: WorkerId, s': State)
    requires Dequeue(s, w, s')
    ensures s'.finished == s.finished && s'.assets == s.assets && s.run.Some?
  {
  }

  lemma LeaveFinishesNone(s: State, w: WorkerId, s': State)
    requires Leave(s, w, s')
    ensures s'.finished == s.finished && s'.assets == s.assets && s.run.Some?
  {
  }

  lemma MarkFinishesNone(s: State, w: WorkerId, s': State)
    requires Mark(s, w, s')
    ensures s'.finished == s.finished && s'.assets == s.assets && s.run.Some?
  {
  }

  lemma FinishReads(s: State, w: WorkerId, first: bool, second: bool, s': State, r: RunId)
    requires Finish(s, w, first, second, s') && r !in s.finished && r in s'.finished
    requires s.run.value.end.Some? ==> !s.run.value.end.value.Completed?
    ensures s.run.value.id == r
    ensures var end := s.run.value.end;
      s'.finished[r] == if !first then Failed else if end.None? then Completed else end.value
  {
  }

  /** A run reads Failed only if the catalog refused one of its writes, that of
      its end included. */
  lemma FailedWasRefused(t: seq<State>, i: nat, r: RunId) returns (w: WorkerId, first: bool, second: bool)
    requires Run(t) && 0 < i < |t| && r !in t[i - 1].finished && r in t[i].finished && t[i].finished[r] == Failed
    ensures Finish(t[i - 1], w, first, second, t[i]) && (WasRefused(t, i - 1, r) || !first)
  {
    w, first, second := FinishedAsCaused(t, i, r);
    if WasMarked(t, i - 1, r) {
      MarkedWasRefused(t, i - 1, r);
    }
  }

  /** An abort seen while a run is held has a cause in that run, or in a
      shutdown. */
  lemma AbortHasCause(t: seq<State>, i: nat)
    requires Run(t) && i < |t| && t[i].run.Some? && t[i].abort
    ensures var r := t[i].run.value.id; WasCanceled(t, i, r) || WasMarked(t, i, r) || t[i].shutdown
  {
    AbortIsThisRuns(t, i);
    EndIsCaused(t, i);
  }

  // ---- An ended run stops ----

  ghost predicate SomeoneMarked(workers: map<WorkerId, Worker>) {
    exists w :: w in workers && workers[w].Marked?
  }

  /** The run's workers are told to stop, or one is about to tell them. */
  ghost predicate Stops(s: State) {
    s.abort || SomeoneMarked(s.workers)
  }

  /** While a run is held, what stops it goes on stopping it, and whatever ends
      it does. */
  ghost predicate StopSteps(s: State, s': State) {
    s.run.Some? && s'.run.Some? ==>
      && (s.abort ==> s'.abort) && (Stops(s) ==> Stops(s'))
      && (s'.run.value.end.Some? ==> s.run.value.end.Some? || Stops(s'))
  }

  lemma SpawningKeepsMarks(workers: map<WorkerId, Worker>, after: map<WorkerId, Worker>)
    requires SomeoneMarked(workers) && forall w :: w in workers ==> w in after && after[w] == workers[w]
    ensures SomeoneMarked(after)
  {
    var w :| w in workers && workers[w].Marked?;
    assert after[w].Marked?;
  }

  lemma JoinStops(s: State, added: seq<Asset>, priority: seq<Asset>, pool: nat, s': State)
    requires Counted(s) && Join(s, added, priority, pool, s')
    ensures StopSteps(s, s')
  {
    SpawnedCount(s.workers, s.spawned, s'.run.value.workers - s.run.value.workers);
    if SomeoneMarked(s.workers) { SpawningKeepsMarks(s.workers, s'.workers); }
  }

  lemma FlagStepStops(s: State, s': State)
    requires (exists assets :: Prioritize(s, assets, s')) || Cancel(s, s') || Shut(s, s') || AbortAll(s, s')
    ensures StopSteps(s, s')
  {
    if assets :| Prioritize(s, assets, s') {}
    else if Cancel(s, s') {}
    else {}
  }

  lemma CallerStepStops(s: State, s': State)
    requires Counted(s) && CallerStep(s, s')
    ensures StopSteps(s, s')
  {
    if id, queue, pool :| Begin(s, id, queue, pool, s') {}
    else if added, priority, pool :| Join(s, added, priority, pool, s') { JoinStops(s, added, priority, pool, s'); }
    else { FlagStepStops(s, s'); }
  }

  /** One worker that was not marked goes elsewhere. */
  lemma OthersStayMarked(s: State, w: WorkerId, s': State)
    requires w in s.workers && !s.workers[w].Marked?
    requires forall v :: v in s.workers && v != w ==> v in s'.workers && s'.workers[v] == s.workers[v]
    ensures SomeoneMarked(s.workers) ==> SomeoneMarked(s'.workers)
  {
    if v :| v in s.workers && s.workers[v].Marked? {
      assert s'.workers[v].Marked?;
    }
  }

  lemma LockStepStops(s: State, w: WorkerId, s': State)
    requires Counted(s) && LockStep(s, w, s')
    ensures StopSteps(s, s')
  {
    if Mark(s, w, s') {
      assert s'.workers[w].Marked?;
    } else if Enter(s, w, s') || Dequeue(s, w, s') || Leave(s, w, s') {
      TakingStepStops(s, w, s');
    }
  }

  lemma TakingStepStops(s: State, w: WorkerId, s': State)
    requires Counted(s) && (Enter(s, w, s') || Dequeue(s, w, s') || Leave(s, w, s'))
    ensures StopSteps(s, s')
  {
    assert w in s.workers && s.workers[w].Asking?;
    if Enter(s, w, s') {
      OthersStayMarked(s, w, s');
    } else if Dequeue(s, w, s') {
      OthersStayMarked(s, w, s');
    } else {
      OthersStayMarked(s, w, s');
    }
  }

  lemma FrameStepStops(s: State, w: WorkerId, s': State)
    requires FrameStep(s, w, s')
    ensures StopSteps(s, s')
  {
    if RaiseAbort(s, w, s') {}
    else {
      FrameStepMoves(s, w, s');
      OthersStayMarked(s, w, s');
    }
  }

  lemma FrameStepMoves(s: State, w: WorkerId, s': State)
    requires FrameStep(s, w, s') && !RaiseAbort(s, w, s')
    ensures w in s.workers && !s.workers[w].Marked? && w in s'.workers && s'.workers == s.workers[w := s'.workers[w]]
    ensures s'.run == s.run && s'.abort == s.abort
  {
    if Measured(s, w, s') {}
    else if ok :| Write(s, w, ok, s') {}
    else {}
  }

  lemma StepStops(s: State, s': State)
    requires Counted(s) && Next(s, s')
    ensures StopSteps(s, s')
  {
    if CallerStep(s, s') { CallerStepStops(s, s'); }
    else if w :| FrameStep(s, w, s') { FrameStepStops(s, w, s'); }
    else { var w :| LockStep(s, w, s'); LockStepStops(s, w, s'); }
  }

  /** An abort, once raised, stays raised as long as the run is held. */
  lemma AbortStays(t: seq<State>, i: nat)
    requires Run(t) && i + 1 < |t| && t[i].run.Some? && t[i + 1].run.Some? && t[i].abort
    ensures t[i + 1].abort
  {
    RunKeepsInv(t, i);
    assert Next(t[i], t[i + 1]) by { assert StepAt(t, i + 1); }
    StepStops(t[i], t[i + 1]);
  }

  /** A run that has its end has abort raised, or a worker about to raise it,
      until it is finished. */
  lemma {:induction false} EndedStops(t: seq<State>, i: nat)
    requires Run(t) && i < |t| && t[i].run.Some? && t[i].run.value.end.Some?
    ensures Stops(t[i])
  {
    if i > 0 {
      RunKeepsInv(t, i - 1);
      assert Next(t[i - 1], t[i]) by { assert StepAt(t, i); }
      if t[i - 1].run.Some? && t[i - 1].run.value.end.Some? {
        EndedStops(t, i - 1);
      }
      EndCarries(t[i - 1], t[i]);
    }
  }

  lemma EndCarries(s: State, s': State)
    requires Counted(s) && Next(s, s') && s'.run.Some? && s'.run.value.end.Some?
    requires s.run.Some? && s.run.value.end.Some? ==> Stops(s)
    ensures Stops(s')
  {
    StepStops(s, s');
    AssetsGrow(s, s');
  }
}
