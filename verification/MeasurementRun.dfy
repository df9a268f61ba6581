/** The measurement run as its workers and callers interleave. The queue is
    behind one lock; the abort and shutdown flags are not. A worker's lock
    section is two steps, the load of the shutdown flag and the rest, and a
    frame is measured, checked against abort and written in steps any other
    step may come between. */
module MeasurementRun {
  import opened Wrappers

  type Asset(==, !new) = nat
  type RunId(==, !new) = nat
  type WorkerId(==, !new) = nat

  datatype RunState = Completed | Canceled | Failed

  /** What the lock protects: the running run. */
  datatype Active = Active(id: RunId, pending: seq<Asset>, held: set<Asset>,
                           end: Option<RunState>, dequeued: nat, workers: nat)

  /** Where one counted worker stands. */
  datatype Worker =
    | Asking                  // about to ask for the next frame
    | Measuring(asset: Asset) // measuring it, abort not yet looked at
    | Writing(asset: Asset)   // not stopping: about to write its record or issue
    | Refused(asset: Asset)   // the write failed
    | Failing                 // about to mark the run Failed
    | Marked                  // marked it, about to raise abort
    | Gone                    // left at a shutdown
  {
    predicate HasFrame() {
      Measuring? || Writing? || Refused?
    }
  }

  /** `assets`, `taken` and `settled` are the history of every run: what its
      queue held, what was dequeued and what was written, each in order. */
  datatype State = State(
    run: Option<Active>, lock: Option<WorkerId>, abort: bool, shutdown: bool,
    workers: map<WorkerId, Worker>, spawned: nat,
    assets: map<RunId, set<Asset>>, taken: map<RunId, seq<Asset>>, settled: map<RunId, seq<Asset>>,
    finished: map<RunId, RunState>)

  function SetOf(s: seq<Asset>): set<Asset> {
    set a | a in s
  }

  predicate Unique(s: seq<Asset>) {
    forall i, j :: 0 <= i < j < |s| ==> s[i] != s[j]
  }

  // ---- The queue ----

  /** Those of `assets` still queued, in the order given. */
  function Head(pending: seq<Asset>, assets: seq<Asset>): seq<Asset> {
    if assets == [] then []
    else
      var rest := Head(pending, assets[..|assets| - 1]);
      var last := assets[|assets| - 1];
      if last in pending && last !in rest then rest + [last] else rest
  }

  /** The queue without `gone`, in its own order. */
  function Without(pending: seq<Asset>, gone: seq<Asset>): seq<Asset> {
    if pending == [] then []
    else if pending[0] in gone then Without(pending[1..], gone)
    else [pending[0]] + Without(pending[1..], gone)
  }

  function ToHead(pending: seq<Asset>, assets: seq<Asset>): seq<Asset> {
    Head(pending, assets) + Without(pending, Head(pending, assets))
  }

  // ---- Steps ----

  function Wanted(pool: nat, pending: nat, minimum: nat): nat {
    var fit := if pool < pending then pool else pending;
    if fit < minimum then minimum else fit
  }

  /** The workers with those a spawn adds, numbered from `spawned` on. */
  function Spawned(workers: map<WorkerId, Worker>, spawned: nat, more: nat): map<WorkerId, Worker> {
    if more == 0 then workers else Spawned(workers, spawned, more - 1)[spawned + more - 1 := Asking]
  }

  /** `begin`: a run not seen before, its queue the assets to measure. */
  predicate Begin(s: State, id: RunId, queue: seq<Asset>, pool: nat, s': State) {
    && s.lock.None? && !s.shutdown && s.run.None? && id !in s.assets && Unique(queue)
    && var more := Wanted(pool, |queue|, 1);
       s' == s.(run := Some(Active(id, queue, SetOf(queue), None, 0, more)), abort := false,
                workers := Spawned(s.workers, s.spawned, more), spawned := s.spawned + more,
                assets := s.assets[id := SetOf(queue)], taken := s.taken[id := []], settled := s.settled[id := []])
  }

  /** `join`: frames the run has not held go to its tail, those in `priority`
      then to its head. */
  predicate Join(s: State, added: seq<Asset>, priority: seq<Asset>, pool: nat, s': State) {
    && s.lock.None? && !s.shutdown && s.run.Some? && s.run.value.end.None?
    && Unique(added) && SetOf(added) !! s.run.value.held
    && var a := s.run.value;
       var pending := ToHead(a.pending + added, priority);
       var wanted := Wanted(pool, |pending|, 0);
       var more := if a.workers < wanted then wanted - a.workers else 0;
       s' == s.(run := Some(a.(pending := pending, held := a.held + SetOf(added), workers := a.workers + more)),
                workers := Spawned(s.workers, s.spawned, more), spawned := s.spawned + more,
                assets := s.assets[a.id := a.held + SetOf(added)])
  }

  predicate Prioritize(s: State, assets: seq<Asset>, s': State) {
    && s.lock.None? && !s.shutdown && s.run.Some?
    && s' == s.(run := Some(s.run.value.(pending := ToHead(s.run.value.pending, assets))))
  }

  predicate Cancel(s: State, s': State) {
    && s.lock.None? && !s.shutdown && s.run.Some?
    && var a := s.run.value;
       s' == s.(run := Some(a.(end := if a.end.None? then Some(Canceled) else a.end)), abort := true)
  }

  /** A worker takes the lock and looks at the shutdown flag. */
  predicate Enter(s: State, w: WorkerId, s': State) {
    && s.lock.None? && s.run.Some? && w in s.workers && s.workers[w].Asking?
    && s' == if s.shutdown then s.(workers := s.workers[w := Gone]) else s.(lock := Some(w))
  }

  /** With the lock: dequeue a frame. */
  predicate Dequeue(s: State, w: WorkerId, s': State) {
    && s.lock == Some(w) && s.run.Some? && w in s.workers
    && var a := s.run.value;
       && a.end.None? && a.pending != [] && a.id in s.taken
       && s' == s.(lock := None, workers := s.workers[w := Measuring(a.pending[0])],
                   run := Some(a.(pending := a.pending[1..], dequeued := a.dequeued + 1)),
                   taken := s.taken[a.id := s.taken[a.id] + [a.pending[0]]])
  }

  /** With the lock and nothing to take: leave, others still counted. */
  predicate Leave(s: State, w: WorkerId, s': State) {
    && s.lock == Some(w) && s.run.Some? && w in s.workers
    && var a := s.run.value;
       && (a.end.Some? || a.pending == []) && a.workers > 1
       && s' == s.(lock := None, workers := s.workers - {w}, run := Some(a.(workers := a.workers - 1)))
  }

  /** What the catalog reads of a run the last worker finishes: `first` and
      `second` say which of its writes work. */
  function FinishedAs(state: RunState, first: bool, second: bool): Option<RunState> {
    if first then Some(state)
    else if !state.Failed? && second then Some(Failed)
    else None
  }

  /** The last worker out settles the run. */
  predicate Finish(s: State, w: WorkerId, first: bool, second: bool, s': State) {
    && s.lock == Some(w) && s.run.Some? && w in s.workers
    && var a := s.run.value;
       && (a.end.Some? || a.pending == []) && a.workers == 1
       && var how := FinishedAs(if a.end.Some? then a.end.value else Completed, first, second);
          s' == s.(lock := None, workers := s.workers - {w}, run := None,
                   finished := if how.Some? then s.finished[a.id := how.value] else s.finished)
  }

  /** A measurement ended: abandon the frame if the run is stopping. */
  predicate Measured(s: State, w: WorkerId, s': State) {
    && w in s.workers && s.workers[w].Measuring?
    && s' == s.(workers := s.workers[w := if s.abort then Asking else Writing(s.workers[w].asset)])
  }

  /** The record or issue of the frame is written, unless the catalog refuses. */
  predicate Write(s: State, w: WorkerId, ok: bool, s': State) {
    && s.run.Some? && w in s.workers && s.workers[w].Writing? && s.run.value.id in s.settled
    && var id := s.run.value.id;
       s' == if ok then s.(workers := s.workers[w := Asking],
                           settled := s.settled[id := s.settled[id] + [s.workers[w].asset]])
             else s.(workers := s.workers[w := Refused(s.workers[w].asset)])
  }

  /** A write failed: fail the run unless it is stopping already. */
  predicate Judge(s: State, w: WorkerId, s': State) {
    && w in s.workers && s.workers[w].Refused?
    && s' == s.(workers := s.workers[w := if s.abort then Asking else Failing])
  }

  predicate Mark(s: State, w: WorkerId, s': State) {
    && s.lock.None? && s.run.Some? && w in s.workers && s.workers[w].Failing?
    && s' == s.(workers := s.workers[w := Marked], run := Some(s.run.value.(end := Some(Failed))))
  }

  predicate RaiseAbort(s: State, w: WorkerId, s': State) {
    && w in s.workers && s.workers[w].Marked?
    && s' == s.(workers := s.workers[w := Asking], abort := true)
  }

  /** The service is dropped: shutdown first, then abort. */
  predicate Shut(s: State, s': State) {
    s' == s.(shutdown := true)
  }

  predicate AbortAll(s: State, s': State) {
    s.shutdown && s' == s.(abort := true)
  }

  ghost predicate CallerStep(s: State, s': State) {
    || (exists id, queue, pool :: Begin(s, id, queue, pool, s'))
    || (exists added, priority, pool :: Join(s, added, priority, pool, s'))
    || (exists assets :: Prioritize(s, assets, s'))
    || Cancel(s, s')
    || Shut(s, s')
    || AbortAll(s, s')
  }

  ghost predicate LockStep(s: State, w: WorkerId, s': State) {
    || Enter(s, w, s')
    || Dequeue(s, w, s')
    || Leave(s, w, s')
    || (exists first, second :: Finish(s, w, first, second, s'))
    || Mark(s, w, s')
  }

  ghost predicate FrameStep(s: State, w: WorkerId, s': State) {
    || Measured(s, w, s')
    || (exists ok :: Write(s, w, ok, s'))
    || Judge(s, w, s')
    || RaiseAbort(s, w, s')
  }

  ghost predicate Next(s: State, s': State) {
    CallerStep(s, s') || exists w :: LockStep(s, w, s') || FrameStep(s, w, s')
  }

  predicate Init(s: State) {
    && s.run.None? && s.lock.None? && !s.abort && !s.shutdown && s.workers == map[]
    && s.assets == map[] && s.taken == map[] && s.settled == map[] && s.finished == map[]
  }

  ghost predicate StepAt(t: seq<State>, i: nat) {
    0 < i < |t| ==> Next(t[i - 1], t[i])
  }

  ghost predicate Run(t: seq<State>) {
    t != [] && Init(t[0]) && forall i: nat :: StepAt(t, i)
  }

  // ---- The inductive invariant ----

  ghost predicate AllFrames(s: State, a: Active) {
    && a.id in s.assets && a.id in s.taken && a.id in s.settled
    && a.held == s.assets[a.id] && a.dequeued == |s.taken[a.id]|
    && Unique(a.pending) && Unique(s.taken[a.id]) && Unique(s.settled[a.id])
    && SetOf(a.pending) !! SetOf(s.taken[a.id]) && a.held == SetOf(a.pending) + SetOf(s.taken[a.id])
    && SetOf(s.settled[a.id]) <= SetOf(s.taken[a.id])
  }

  /** The frames workers hold are dequeued, unsettled and held once. */
  ghost predicate FramesInHand(s: State, a: Active) {
    && a.id in s.taken && a.id in s.settled
    && (forall w :: w in s.workers && s.workers[w].HasFrame() ==>
          s.workers[w].asset in s.taken[a.id] && s.workers[w].asset !in s.settled[a.id])
    && (forall w, v :: w in s.workers && v in s.workers && s.workers[w].HasFrame() && s.workers[v].HasFrame() && w != v ==>
          s.workers[w].asset != s.workers[v].asset)
  }

  ghost predicate InHand(workers: map<WorkerId, Worker>, x: Asset) {
    exists w :: w in workers && workers[w].HasFrame() && workers[w].asset == x
  }

  ghost predicate SomeoneFails(workers: map<WorkerId, Worker>) {
    exists w :: w in workers && workers[w].Failing?
  }

  /** What keeps a run that dropped a frame from reading Completed: it ends
      otherwise, or is about to, or a shutdown stops it from ending. */
  ghost predicate WontComplete(s: State, a: Active) {
    || a.end.Some? || SomeoneFails(s.workers)
    || (s.shutdown && (s.lock.Some? ==> a.workers > 1))
  }

  ghost predicate Dropped(s: State, id: RunId, x: Asset) {
    id in s.taken && id in s.settled && x in s.taken[id] && x !in s.settled[id] && !InHand(s.workers, x)
  }

  ghost predicate DropsHaveReason(s: State, a: Active) {
    forall x :: Dropped(s, a.id, x) ==> WontComplete(s, a)
  }

  ghost predicate CompletedIsWhole(s: State, r: RunId) {
    r in s.finished && r in s.assets && r in s.taken && r in s.settled &&
    (s.finished[r].Completed? ==>
       && Unique(s.taken[r]) && SetOf(s.taken[r]) == s.assets[r]
       && Unique(s.settled[r]) && SetOf(s.settled[r]) == s.assets[r])
  }

  /** The counter is the number of workers, and the lock holder is one. */
  ghost predicate Counted(s: State) {
    && (forall w :: w in s.workers ==> w < s.spawned)
    && (s.run.None? ==> s.workers == map[] && s.lock.None?)
    && (s.run.Some? ==> |s.workers| == s.run.value.workers >= 1)
    && (s.lock.Some? ==> s.lock.value in s.workers && s.workers[s.lock.value].Asking?)
  }

  /** An abort is this run's own, or the service's. */
  ghost predicate Flagged(s: State) {
    && (s.run.Some? && s.run.value.end.Some? ==> !s.run.value.end.value.Completed?)
    && (s.run.Some? && s.abort ==> s.run.value.end.Some? || s.shutdown)
    && (forall w :: w in s.workers && s.workers[w].Marked? ==> s.run.Some? && s.run.value.end.Some?)
    && (forall w :: w in s.workers && s.workers[w].Gone? ==> s.shutdown)
  }

  ghost predicate Framed(s: State) {
    s.run.Some? ==> AllFrames(s, s.run.value) && FramesInHand(s, s.run.value) && DropsHaveReason(s, s.run.value)
  }

  ghost predicate Recorded(s: State) {
    && (forall r :: r in s.finished ==> CompletedIsWhole(s, r))
    && (s.run.Some? ==> s.run.value.id !in s.finished)
  }

  ghost predicate Inv(s: State) {
    Counted(s) && Flagged(s) && Framed(s) && Recorded(s)
  }

  // ---- Queue lemmas ----

  lemma {:induction false} HeadIsQueued(pending: seq<Asset>, assets: seq<Asset>)
    ensures Unique(Head(pending, assets))
    ensures forall x :: x in Head(pending, assets) <==> x in pending && x in assets
  {
    if assets != [] {
      HeadIsQueued(pending, assets[..|assets| - 1]);
      assert assets == assets[..|assets| - 1] + [assets[|assets| - 1]];
    }
  }

  lemma {:induction false} WithoutKeepsOthers(pending: seq<Asset>, gone: seq<Asset>)
    requires Unique(pending)
    ensures Unique(Without(pending, gone))
    ensures forall x :: x in Without(pending, gone) <==> x in pending && x !in gone
  {
    if pending != [] {
      WithoutKeepsOthers(pending[1..], gone);
      assert pending == [pending[0]] + pending[1..];
    }
  }

  /** Moving frames to the head loses none and duplicates none. */
  lemma ToHeadPermutes(pending: seq<Asset>, assets: seq<Asset>)
    requires Unique(pending)
    ensures Unique(ToHead(pending, assets)) && SetOf(ToHead(pending, assets)) == SetOf(pending)
  {
    HeadIsQueued(pending, assets);
    WithoutKeepsOthers(pending, Head(pending, assets));
    UniqueAppend(Head(pending, assets), Without(pending, Head(pending, assets)));
  }

  /** The place of the first `x` in `s`. */
  function FirstAt(s: seq<Asset>, x: Asset): (k: nat)
    requires x in s
    ensures k < |s| && s[k] == x && x !in s[..k]
  {
    if s[0] == x then 0
    else
      var k := FirstAt(s[1..], x) + 1;
      assert s[..k] == [s[0]] + s[1..][..k - 1];
      k
  }

  /** `t` lists its assets in the order `s` first names them. */
  ghost predicate InOrderOf(t: seq<Asset>, s: seq<Asset>) {
    && (forall i :: 0 <= i < |t| ==> t[i] in s)
    && (forall i, j :: 0 <= i < j < |t| ==> t[i] in s && t[j] in s && FirstAt(s, t[i]) < FirstAt(s, t[j]))
  }

  lemma FirstIs(s: seq<Asset>, x: Asset, k: nat)
    requires k < |s| && s[k] == x && x !in s[..k]
    ensures x in s && FirstAt(s, x) == k
  {
    var m := FirstAt(s, x);
    forall j | 0 <= j < k ensures s[j] != x { assert s[..k][j] == s[j]; }
    forall j | 0 <= j < m ensures s[j] != x { assert s[..m][j] == s[j]; }
  }

  lemma FirstAtStays(s: seq<Asset>, last: Asset, x: Asset)
    requires x in s
    ensures x in s + [last] && FirstAt(s + [last], x) == FirstAt(s, x)
  {
    var k := FirstAt(s, x);
    assert (s + [last])[..k] == s[..k];
    FirstIs(s + [last], x, k);
  }

  lemma FirstAtEnd(s: seq<Asset>, last: Asset)
    requires last !in s
    ensures FirstAt(s + [last], last) == |s|
  {
    assert (s + [last])[..|s|] == s;
    FirstIs(s + [last], last, |s|);
  }

  lemma {:induction false} HeadInOrder(pending: seq<Asset>, assets: seq<Asset>)
    ensures InOrderOf(Head(pending, assets), assets)
  {
    if assets != [] {
      var front, last := assets[..|assets| - 1], assets[|assets| - 1];
      var rest, head := Head(pending, front), Head(pending, assets);
      HeadInOrder(pending, front);
      HeadIsQueued(pending, front);
      assert assets == front + [last];
      forall i | 0 <= i < |rest| ensures rest[i] in assets && FirstAt(assets, rest[i]) == FirstAt(front, rest[i]) {
        FirstAtStays(front, last, rest[i]);
      }
      if head != rest {
        assert last !in front;
        FirstAtEnd(front, last);
      }
    }
  }

  lemma FirstAtTail(s: seq<Asset>, x: Asset)
    requires s != [] && x in s[1..] && x != s[0]
    ensures x in s && FirstAt(s, x) == FirstAt(s[1..], x) + 1
  {
  }

  lemma {:induction false} WithoutInOrder(pending: seq<Asset>, gone: seq<Asset>)
    requires Unique(pending)
    ensures InOrderOf(Without(pending, gone), pending)
  {
    if pending != [] {
      var tail := Without(pending[1..], gone);
      WithoutInOrder(pending[1..], gone);
      UniqueTail(pending);
      forall i | 0 <= i < |tail| ensures tail[i] in pending && FirstAt(pending, tail[i]) == FirstAt(pending[1..], tail[i]) + 1 {
        FirstAtTail(pending, tail[i]);
      }
    }
  }

  /** Moved to the head, in the order asked for, are exactly the queued assets
      asked for; the others follow in the order of the queue. */
  lemma ToHeadInOrder(pending: seq<Asset>, assets: seq<Asset>) returns (head: seq<Asset>, rest: seq<Asset>)
    requires Unique(pending)
    ensures ToHead(pending, assets) == head + rest
    ensures forall x :: x in head <==> x in pending && x in assets
    ensures forall x :: x in rest <==> x in pending && x !in assets
    ensures InOrderOf(head, assets) && InOrderOf(rest, pending)
  {
    head := Head(pending, assets);
    rest := Without(pending, head);
    HeadIsQueued(pending, assets);
    WithoutKeepsOthers(pending, head);
    HeadInOrder(pending, assets);
    WithoutInOrder(pending, head);
  }

  /** Every worker stays as it was, and those added ask, numbered from `lo`
      below `hi`. */
  predicate Extends(workers: map<WorkerId, Worker>, after: map<WorkerId, Worker>, lo: nat, hi: nat) {
    && (forall w :: w in workers ==> w in after && after[w] == workers[w])
    && (forall w :: w in after && w !in workers ==> lo <= w < hi && after[w].Asking?)
  }

  lemma AddWorker(workers: map<WorkerId, Worker>, before: map<WorkerId, Worker>, lo: nat, last: nat)
    requires Extends(workers, before, lo, last) && lo <= last
    requires forall w :: w in workers ==> w < lo
    ensures |before[last := Asking]| == |before| + 1
    ensures Extends(workers, before[last := Asking], lo, last + 1)
  {
    assert last !in before;
    assert before[last := Asking].Keys == before.Keys + {last};
  }

  lemma {:induction false} SpawnedCount(workers: map<WorkerId, Worker>, spawned: nat, more: nat)
    requires forall w :: w in workers ==> w < spawned
    ensures |Spawned(workers, spawned, more)| == |workers| + more
    ensures Extends(workers, Spawned(workers, spawned, more), spawned, spawned + more)
  {
    if more > 0 {
      SpawnedCount(workers, spawned, more - 1);
      AddWorker(workers, Spawned(workers, spawned, more - 1), spawned, spawned + more - 1);
    }
  }

  lemma ExtendsKeeps(workers: map<WorkerId, Worker>, after: map<WorkerId, Worker>, lo: nat, hi: nat)
    requires Extends(workers, after, lo, hi)
    ensures forall x :: InHand(workers, x) ==> InHand(after, x)
    ensures SomeoneFails(workers) ==> SomeoneFails(after)
  {
    forall x | InHand(workers, x) ensures InHand(after, x) {
      var w :| w in workers && workers[w].HasFrame() && workers[w].asset == x;
      assert w in after && after[w] == workers[w];
    }
    if SomeoneFails(workers) {
      var w :| w in workers && workers[w].Failing?;
      assert w in after && after[w] == workers[w];
    }
  }

  lemma UniqueAppend(s: seq<Asset>, t: seq<Asset>)
    requires Unique(s) && Unique(t) && SetOf(s) !! SetOf(t)
    ensures Unique(s + t) && SetOf(s + t) == SetOf(s) + SetOf(t)
  {
    forall i, j | 0 <= i < j < |s + t| ensures (s + t)[i] != (s + t)[j] {
      if i < |s| <= j {
        assert s[i] in SetOf(s) && t[j - |s|] in SetOf(t);
      }
    }
  }

  lemma UniqueTail(s: seq<Asset>)
    requires Unique(s) && s != []
    ensures Unique(s[1..]) && SetOf(s) == SetOf([s[0]]) + SetOf(s[1..]) && s[0] !in SetOf(s[1..])
  {
    assert s == [s[0]] + s[1..];
  }

  lemma OneLess(workers: map<WorkerId, Worker>, w: WorkerId)
    requires w in workers
    ensures |workers - {w}| == |workers| - 1
  {
    assert workers.Keys == (workers - {w}).Keys + {w};
  }

  lemma TwoWorkers(workers: map<WorkerId, Worker>, w: WorkerId, v: WorkerId)
    requires w in workers && v in workers && w != v
    ensures |workers| > 1
  {
    OneLess(workers, w);
    OneLess(workers - {w}, v);
  }

  /** One worker moves on: what others hold or are failing stays, and only
      its own frame can be dropped. */
  lemma OneMoves(workers: map<WorkerId, Worker>, w: WorkerId, to: Worker)
    requires w in workers
    ensures |workers[w := to]| == |workers|
    ensures forall x :: InHand(workers, x) && !InHand(workers[w := to], x) ==>
              workers[w].HasFrame() && workers[w].asset == x && !(to.HasFrame() && to.asset == x)
    ensures to.HasFrame() ==> InHand(workers[w := to], to.asset)
    ensures SomeoneFails(workers) && !workers[w].Failing? ==> SomeoneFails(workers[w := to])
    ensures to.Failing? ==> SomeoneFails(workers[w := to])
  {
    var after := workers[w := to];
    assert after.Keys == workers.Keys;
    assert after[w] == to;
    forall v | v in workers && v != w && workers[v].HasFrame() ensures InHand(after, workers[v].asset) {
      assert after[v] == workers[v];
    }
    if SomeoneFails(workers) && !workers[w].Failing? {
      var v :| v in workers && workers[v].Failing?;
      assert after[v].Failing?;
    }
  }

  lemma OneLeaves(workers: map<WorkerId, Worker>, w: WorkerId)
    requires w in workers && workers[w].Asking?
    ensures |workers - {w}| == |workers| - 1
    ensures forall x :: InHand(workers, x) ==> InHand(workers - {w}, x)
    ensures SomeoneFails(workers) ==> SomeoneFails(workers - {w})
  {
    OneLess(workers, w);
    var after := workers - {w};
    forall x | InHand(workers, x) ensures InHand(after, x) {
      var v :| v in workers && workers[v].HasFrame() && workers[v].asset == x;
      assert after[v].HasFrame();
    }
    if SomeoneFails(workers) {
      var v :| v in workers && workers[v].Failing?;
      assert after[v].Failing?;
    }
  }

  // ---- Every step keeps the invariant ----

  lemma BeginFramed(s: State, id: RunId, queue: seq<Asset>, pool: nat, s': State)
    requires Inv(s) && Begin(s, id, queue, pool, s')
    ensures Framed(s')
  {
    SpawnedCount(s.workers, s.spawned, Wanted(pool, |queue|, 1));
    assert SetOf([]) == {};
  }

  lemma BeginKeepsInv(s: State, id: RunId, queue: seq<Asset>, pool: nat, s': State)
    requires Inv(s) && Begin(s, id, queue, pool, s')
    ensures Inv(s')
  {
    var more := Wanted(pool, |queue|, 1);
    SpawnedCount(s.workers, s.spawned, more);
    BeginFramed(s, id, queue, pool, s');
  }

  lemma JoinFramed(s: State, added: seq<Asset>, priority: seq<Asset>, pool: nat, s': State)
    requires Inv(s) && Join(s, added, priority, pool, s')
    ensures Framed(s')
  {
    var a, a' := s.run.value, s'.run.value;
    assert AllFrames(s', a') by {
      UniqueAppend(a.pending, added);
      ToHeadPermutes(a.pending + added, priority);
    }
    assert Extends(s.workers, s'.workers, s.spawned, s'.spawned) by {
      SpawnedCount(s.workers, s.spawned, a'.workers - a.workers);
    }
    ExtendsKeeps(s.workers, s'.workers, s.spawned, s'.spawned);
    assert FramesInHand(s', a');
    forall x | Dropped(s', a.id, x) ensures WontComplete(s', a') {
      assert Dropped(s, a.id, x);
    }
  }

  lemma JoinCounted(s: State, added: seq<Asset>, priority: seq<Asset>, pool: nat, s': State)
    requires Counted(s) && Flagged(s) && Join(s, added, priority, pool, s')
    ensures Counted(s') && Flagged(s')
  {
    SpawnedCount(s.workers, s.spawned, s'.run.value.workers - s.run.value.workers);
  }

  lemma JoinRecorded(s: State, added: seq<Asset>, priority: seq<Asset>, pool: nat, s': State)
    requires Recorded(s) && Join(s, added, priority, pool, s')
    ensures Recorded(s')
  {
    forall r | r in s'.finished ensures CompletedIsWhole(s', r) {
      assert CompletedIsWhole(s, r);
    }
  }

  lemma JoinKeepsInv(s: State, added: seq<Asset>, priority: seq<Asset>, pool: nat, s': State)
    requires Inv(s) && Join(s, added, priority, pool, s')
    ensures Inv(s')
  {
    JoinCounted(s, added, priority, pool, s');
    JoinFramed(s, added, priority, pool, s');
    JoinRecorded(s, added, priority, pool, s');
  }

  lemma PrioritizeKeepsInv(s: State, assets: seq<Asset>, s': State)
    requires Inv(s) && Prioritize(s, assets, s')
    ensures Inv(s')
  {
    ToHeadPermutes(s.run.value.pending, assets);
    forall x | Dropped(s', s'.run.value.id, x) ensures WontComplete(s', s'.run.value) {
      assert Dropped(s, s.run.value.id, x);
    }
  }

  lemma CancelKeepsInv(s: State, s': State)
    requires Inv(s) && Cancel(s, s')
    ensures Inv(s')
  {
    assert DropsHaveReason(s', s'.run.value);
  }

  lemma StopKeepsInv(s: State, s': State)
    requires Inv(s) && (Shut(s, s') || AbortAll(s, s'))
    ensures Inv(s')
  {
    if s.run.Some? {
      forall x | Dropped(s', s'.run.value.id, x) ensures WontComplete(s', s'.run.value) {
        assert Dropped(s, s.run.value.id, x);
      }
    }
  }

  lemma EnterKeepsInv(s: State, w: WorkerId, s': State)
    requires Inv(s) && Enter(s, w, s')
    ensures Inv(s')
  {
    OneMoves(s.workers, w, Gone);
    forall x | Dropped(s', s'.run.value.id, x) ensures WontComplete(s', s'.run.value) {
      assert Dropped(s, s.run.value.id, x);
    }
  }

  lemma DequeueKeepsInv(s: State, w: WorkerId, s': State)
    requires Inv(s) && Dequeue(s, w, s')
    ensures Inv(s')
  {
    var a := s.run.value;
    OneMoves(s.workers, w, Measuring(a.pending[0]));
    UniqueTail(a.pending);
    UniqueAppend(s.taken[a.id], [a.pending[0]]);
    forall x | Dropped(s', a.id, x) ensures WontComplete(s', s'.run.value) {
      assert Dropped(s, a.id, x);
    }
  }

  lemma LeaveKeepsInv(s: State, w: WorkerId, s': State)
    requires Inv(s) && Leave(s, w, s')
    ensures Inv(s')
  {
    OneLeaves(s.workers, w);
    forall x | Dropped(s', s'.run.value.id, x) ensures WontComplete(s', s'.run.value) {
      assert Dropped(s, s.run.value.id, x);
    }
  }

  lemma FinishKeepsInv(s: State, w: WorkerId, first: bool, second: bool, s': State)
    requires Inv(s) && Finish(s, w, first, second, s')
    ensures Inv(s')
  {
    OneLess(s.workers, w);
    assert s.workers.Keys - {w} == {};
    assert forall v :: v in s.workers ==> v == w;
    var a := s.run.value;
    if a.end.None? {
      forall x | x in s.taken[a.id] ensures x in s.settled[a.id] {
        assert !SomeoneFails(s.workers) && !InHand(s.workers, x);
        assert Dropped(s, a.id, x) ==> WontComplete(s, a);
      }
      assert SetOf(s.settled[a.id]) == SetOf(s.taken[a.id]);
    }
  }

  lemma MeasuredKeepsInv(s: State, w: WorkerId, s': State)
    requires Inv(s) && Measured(s, w, s')
    ensures Inv(s')
  {
    OneMoves(s.workers, w, s'.workers[w]);
    if s.run.Some? {
      forall x | Dropped(s', s.run.value.id, x) ensures WontComplete(s', s.run.value) {
        if Dropped(s, s.run.value.id, x) {
        } else {
          assert s.abort;
          if s.lock.Some? { TwoWorkers(s.workers, w, s.lock.value); }
        }
      }
    }
  }

  lemma WriteKeepsInv(s: State, w: WorkerId, ok: bool, s': State)
    requires Inv(s) && Write(s, w, ok, s')
    ensures Inv(s')
  {
    var id := s.run.value.id;
    OneMoves(s.workers, w, s'.workers[w]);
    forall x | Dropped(s', id, x) ensures WontComplete(s', s.run.value) {
      assert Dropped(s, id, x);
    }
  }

  lemma JudgeKeepsInv(s: State, w: WorkerId, s': State)
    requires Inv(s) && Judge(s, w, s')
    ensures Inv(s')
  {
    OneMoves(s.workers, w, s'.workers[w]);
    if s.run.Some? {
      forall x | Dropped(s', s.run.value.id, x) ensures WontComplete(s', s.run.value) {
        if Dropped(s, s.run.value.id, x) {
        } else if s.abort && s.lock.Some? {
          TwoWorkers(s.workers, w, s.lock.value);
        }
      }
    }
  }

  lemma MarkKeepsInv(s: State, w: WorkerId, s': State)
    requires Inv(s) && Mark(s, w, s')
    ensures Inv(s')
  {
    OneMoves(s.workers, w, Marked);
  }

  lemma RaiseAbortKeepsInv(s: State, w: WorkerId, s': State)
    requires Inv(s) && RaiseAbort(s, w, s')
    ensures Inv(s')
  {
    OneMoves(s.workers, w, Asking);
  }

  lemma CallerStepKeepsInv(s: State, s': State)
    requires Inv(s) && CallerStep(s, s')
    ensures Inv(s')
  {
    if id, queue, pool :| Begin(s, id, queue, pool, s') { BeginKeepsInv(s, id, queue, pool, s'); }
    else if added, priority, pool :| Join(s, added, priority, pool, s') { JoinKeepsInv(s, added, priority, pool, s'); }
    else if assets :| Prioritize(s, assets, s') { PrioritizeKeepsInv(s, assets, s'); }
    else if Cancel(s, s') { CancelKeepsInv(s, s'); }
    else { StopKeepsInv(s, s'); }
  }

  lemma LockStepKeepsInv(s: State, w: WorkerId, s': State)
    requires Inv(s) && LockStep(s, w, s')
    ensures Inv(s')
  {
    if Enter(s, w, s') { EnterKeepsInv(s, w, s'); }
    else if Dequeue(s, w, s') { DequeueKeepsInv(s, w, s'); }
    else if Leave(s, w, s') { LeaveKeepsInv(s, w, s'); }
    else if Mark(s, w, s') { MarkKeepsInv(s, w, s'); }
    else { var first, second :| Finish(s, w, first, second, s'); FinishKeepsInv(s, w, first, second, s'); }
  }

  lemma FrameStepKeepsInv(s: State, w: WorkerId, s': State)
    requires Inv(s) && FrameStep(s, w, s')
    ensures Inv(s')
  {
    if Measured(s, w, s') { MeasuredKeepsInv(s, w, s'); }
    else if ok :| Write(s, w, ok, s') { WriteKeepsInv(s, w, ok, s'); }
    else if Judge(s, w, s') { JudgeKeepsInv(s, w, s'); }
    else { RaiseAbortKeepsInv(s, w, s'); }
  }

  lemma StepKeepsInv(s: State, s': State)
    requires Inv(s) && Next(s, s')
    ensures Inv(s')
  {
    if CallerStep(s, s') { CallerStepKeepsInv(s, s'); }
    else if w :| LockStep(s, w, s') { LockStepKeepsInv(s, w, s'); }
    else { var w :| FrameStep(s, w, s'); FrameStepKeepsInv(s, w, s'); }
  }

  lemma {:induction false} RunKeepsInv(t: seq<State>, i: nat)
    requires Run(t) && i < |t|
    ensures Inv(t[i])
  {
    if i > 0 {
      RunKeepsInv(t, i - 1);
      var s, s' := t[i - 1], t[i];
      assert Next(s, s') by { assert StepAt(t, i); }
      StepKeepsInv(s, s');
    }
  }

  // ---- What holds in every interleaving ----

  /** A run reads Completed only if each frame its queue ever held was
      dequeued once and settled once. */
  lemma CompletedMeasuredAll(t: seq<State>, i: nat, r: RunId)
    requires Run(t) && i < |t| && r in t[i].finished && t[i].finished[r] == Completed
    ensures r in t[i].assets && r in t[i].taken && r in t[i].settled
    ensures Unique(t[i].taken[r]) && SetOf(t[i].taken[r]) == t[i].assets[r]
    ensures Unique(t[i].settled[r]) && SetOf(t[i].settled[r]) == t[i].assets[r]
  {
    RunKeepsInv(t, i);
    assert CompletedIsWhole(t[i], r);
  }

  /** While a run is active some worker is counted; without a shutdown none
      has left uncounted, and what the queue ever held is what is pending and
      what was dequeued, nothing twice. */
  lemma ActiveRunIsServed(t: seq<State>, i: nat)
    requires Run(t) && i < |t| && t[i].run.Some?
    ensures var a := t[i].run.value;
      && a.workers >= 1 && |t[i].workers| == a.workers && t[i].workers != map[]
      && (!t[i].shutdown ==> forall w :: w in t[i].workers ==> !t[i].workers[w].Gone?)
      && a.id in t[i].taken && Unique(a.pending) && Unique(t[i].taken[a.id])
      && SetOf(a.pending) !! SetOf(t[i].taken[a.id])
      && a.held == SetOf(a.pending) + SetOf(t[i].taken[a.id]) && a.dequeued == |t[i].taken[a.id]|
  {
    RunKeepsInv(t, i);
  }

  /** A worker that sees abort raised belongs to a run that is itself being
      canceled or failed, or to a service shutting down: never one raised for
      an earlier run. */
  lemma AbortIsThisRuns(t: seq<State>, i: nat)
    requires Run(t) && i < |t| && t[i].run.Some? && t[i].abort
    ensures t[i].run.value.end == Some(Canceled) || t[i].run.value.end == Some(Failed) || t[i].shutdown
  {
    RunKeepsInv(t, i);
  }

  /** What a finished run reads, and what it held, dequeued and settled. */
  predicate SameRecord(s: State, s': State, r: RunId) {
    && r in s.finished && r in s'.finished && s'.finished[r] == s.finished[r]
    && r in s.assets && r in s'.assets && s'.assets[r] == s.assets[r]
    && r in s.taken && r in s'.taken && s'.taken[r] == s.taken[r]
    && r in s.settled && r in s'.settled && s'.settled[r] == s.settled[r]
  }

  /** The run is recorded and is not the one Running. */
  predicate Past(s: State, r: RunId) {
    && r in s.finished && r in s.assets && r in s.taken && r in s.settled
    && (s.run.Some? ==> s.run.value.id != r)
  }

  lemma FinishedIsPast(s: State, r: RunId)
    requires Inv(s) && r in s.finished
    ensures Past(s, r)
  {
    assert CompletedIsWhole(s, r);
  }

  lemma BeginKeepsRecord(s: State, id: RunId, queue: seq<Asset>, pool: nat, s': State, r: RunId)
    requires Past(s, r) && Begin(s, id, queue, pool, s')
    ensures SameRecord(s, s', r) && s'.finished == s.finished
  {
  }

  lemma JoinKeepsRecord(s: State, added: seq<Asset>, priority: seq<Asset>, pool: nat, s': State, r: RunId)
    requires Past(s, r) && Join(s, added, priority, pool, s')
    ensures SameRecord(s, s', r) && s'.finished == s.finished
  {
  }

  lemma CallerStepKeepsRecord(s: State, s': State, r: RunId)
    requires Past(s, r) && CallerStep(s, s')
    ensures SameRecord(s, s', r)
  {
    if id, queue, pool :| Begin(s, id, queue, pool, s') { BeginKeepsRecord(s, id, queue, pool, s', r); }
    else if added, priority, pool :| Join(s, added, priority, pool, s') { JoinKeepsRecord(s, added, priority, pool, s', r); }
    else { FlagStepKeepsRecord(s, s', r); }
  }

  lemma FlagStepKeepsRecord(s: State, s': State, r: RunId)
    requires Past(s, r) && ((exists assets :: Prioritize(s, assets, s')) || Cancel(s, s') || Shut(s, s') || AbortAll(s, s'))
    ensures SameRecord(s, s', r) && s'.finished == s.finished
  {
    if assets :| Prioritize(s, assets, s') {}
    else if Cancel(s, s') {}
    else {}
  }

  lemma FinishKeepsRecord(s: State, w: WorkerId, first: bool, second: bool, s': State, r: RunId)
    requires Past(s, r) && Finish(s, w, first, second, s')
    ensures SameRecord(s, s', r)
  {
  }

  lemma QueueStepKeepsRecord(s: State, w: WorkerId, s': State, r: RunId)
    requires Past(s, r) && (Enter(s, w, s') || Dequeue(s, w, s') || Leave(s, w, s') || Mark(s, w, s'))
    ensures SameRecord(s, s', r) && s'.finished == s.finished
  {
    if Enter(s, w, s') {}
    else if Dequeue(s, w, s') {}
    else {}
  }

  lemma LockStepKeepsRecord(s: State, w: WorkerId, s': State, r: RunId)
    requires Past(s, r) && LockStep(s, w, s')
    ensures SameRecord(s, s', r)
  {
    if first, second :| Finish(s, w, first, second, s') { FinishKeepsRecord(s, w, first, second, s', r); }
    else { QueueStepKeepsRecord(s, w, s', r); }
  }

  lemma FrameStepKeepsRecord(s: State, w: WorkerId, s': State, r: RunId)
    requires Past(s, r) && FrameStep(s, w, s')
    ensures SameRecord(s, s', r)
  {
    if ok :| Write(s, w, ok, s') {}
    else if Measured(s, w, s') {}
    else {}
  }

  lemma StepKeepsRecord(s: State, s': State, r: RunId)
    requires Inv(s) && Next(s, s') && r in s.finished
    ensures SameRecord(s, s', r)
  {
    FinishedIsPast(s, r);
    if CallerStep(s, s') { CallerStepKeepsRecord(s, s', r); }
    else if w :| LockStep(s, w, s') { LockStepKeepsRecord(s, w, s', r); }
    else { var w :| FrameStep(s, w, s'); FrameStepKeepsRecord(s, w, s', r); }
  }

  /** A run is finished once: nothing it reads or recorded changes after. */
  lemma {:induction false} FinishedOnce(t: seq<State>, i: nat, j: nat, r: RunId)
    requires Run(t) && i <= j < |t| && r in t[i].finished
    ensures SameRecord(t[i], t[j], r)
    decreases j - i
  {
    if i < j {
      FinishedOnce(t, i, j - 1, r);
      RunKeepsInv(t, j - 1);
      var s, s' := t[j - 1], t[j];
      assert Next(s, s') by { assert StepAt(t, j); }
      StepKeepsRecord(s, s', r);
    } else {
      RunKeepsInv(t, i);
      assert CompletedIsWhole(t[i], r);
    }
  }

  lemma BeginFinishesNone(s: State, id: RunId, queue: seq<Asset>, pool: nat, s': State)
    requires Begin(s, id, queue, pool, s')
    ensures s'.finished == s.finished
  {
  }

  lemma JoinFinishesNone(s: State, added: seq<Asset>, priority: seq<Asset>, pool: nat, s': State)
    requires Join(s, added, priority, pool, s')
    ensures s'.finished == s.finished
  {
  }

  lemma PrioritizeFinishesNone(s: State, assets: seq<Asset>, s': State)
    requires Prioritize(s, assets, s')
    ensures s'.finished == s.finished
  {
  }

  lemma CallerStepFinishesNone(s: State, s': State)
    requires CallerStep(s, s')
    ensures s'.finished == s.finished
  {
    if id, queue, pool :| Begin(s, id, queue, pool, s') { BeginFinishesNone(s, id, queue, pool, s'); }
    else if added, priority, pool :| Join(s, added, priority, pool, s') { JoinFinishesNone(s, added, priority, pool, s'); }
    else if assets :| Prioritize(s, assets, s') { PrioritizeFinishesNone(s, assets, s'); }
    else {}
  }

  lemma FrameStepFinishesNone(s: State, w: WorkerId, s': State)
    requires FrameStep(s, w, s')
    ensures s'.finished == s.finished
  {
    if ok :| Write(s, w, ok, s') {}
    else {}
  }

  lemma FinishEmpties(s: State, w: WorkerId, first: bool, second: bool, s': State)
    requires Inv(s) && Finish(s, w, first, second, s')
    ensures s'.run.None? && s'.workers == map[]
    ensures forall v :: v in s.workers ==> !s.workers[v].HasFrame()
  {
    OneLess(s.workers, w);
    assert s.workers.Keys - {w} == {};
    assert forall v :: v in s.workers ==> v == w;
  }

  lemma LockStepFinishes(s: State, w: WorkerId, s': State, r: RunId)
    requires Inv(s) && LockStep(s, w, s') && r !in s.finished && r in s'.finished
    ensures s.run.Some? && s.run.value.id == r && s'.run.None? && s'.workers == map[]
    ensures forall v :: v in s.workers ==> !s.workers[v].HasFrame()
    ensures s'.finished[r].Completed? ==> s.run.value.end.None? && s.run.value.pending == []
    ensures s'.finished[r].Canceled? ==> s.run.value.end == Some(Canceled)
  {
    var first, second :| Finish(s, w, first, second, s');
    FinishEmpties(s, w, first, second, s');
  }

  /** The step that finishes a run is its last worker leaving: no worker is
      left, so none is in the middle of a frame. It reads Completed unless it
      was canceled or failed, or its first write was refused. */
  lemma FinishedByTheLastWorker(s: State, s': State, r: RunId)
    requires Inv(s) && Next(s, s') && r !in s.finished && r in s'.finished
    ensures s.run.Some? && s.run.value.id == r && s'.run.None? && s'.workers == map[]
    ensures forall w :: w in s.workers ==> !s.workers[w].HasFrame()
    ensures s'.finished[r].Completed? ==> s.run.value.end.None? && s.run.value.pending == []
    ensures s'.finished[r].Canceled? ==> s.run.value.end == Some(Canceled)
  {
    if CallerStep(s, s') { CallerStepFinishesNone(s, s'); }
    else if w :| LockStep(s, w, s') {
      LockStepFinishes(s, w, s', r);
    } else {
      var w :| FrameStep(s, w, s');
      FrameStepFinishesNone(s, w, s');
    }
  }
}
