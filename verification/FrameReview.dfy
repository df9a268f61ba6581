/** The measurement service: the lock sections its callers and workers run,
    each one step of the interleaved run. */
module FrameReview {
  import opened Wrappers
  import opened MeasurementRun

  // ---- Moving frames to the head of the queue ----

  method Position(pending: seq<Asset>, asset: Asset) returns (at: Option<nat>)
    ensures at.None? ==> asset !in pending
    ensures at.Some? ==> at.value < |pending| && pending[at.value] == asset
  {
    for i := 0 to |pending|
      invariant asset !in pending[..i]
    {
      if pending[i] == asset {
        return Some(i);
      }
    }
    at := None;
  }

  lemma {:induction false} WithoutOneMore(pending: seq<Asset>, gone: seq<Asset>, at: nat)
    requires Unique(pending) && at < |Without(pending, gone)|
    ensures var rest := Without(pending, gone);
      rest[..at] + rest[at + 1..] == Without(pending, gone + [rest[at]])
  {
    var rest := Without(pending, gone);
    var x := rest[at];
    if pending[0] in gone {
      WithoutOneMore(pending[1..], gone, at);
    } else if at == 0 {
      assert x == pending[0] && x !in pending[1..];
      WithoutAbsent(pending[1..], gone, x);
      assert rest[..0] + rest[1..] == Without(pending[1..], gone);
    } else {
      var tail := Without(pending[1..], gone);
      assert rest == [pending[0]] + tail && rest[at] == tail[at - 1];
      WithoutKeepsOthers(pending[1..], gone);
      assert x in tail && x in pending[1..];
      WithoutOneMore(pending[1..], gone, at - 1);
      assert rest[..at] + rest[at + 1..] == [pending[0]] + (tail[..at - 1] + tail[at..]);
    }
  }

  lemma {:induction false} WithoutAbsent(pending: seq<Asset>, gone: seq<Asset>, x: Asset)
    requires x !in pending
    ensures Without(pending, gone + [x]) == Without(pending, gone)
  {
    if pending != [] {
      WithoutAbsent(pending[1..], gone, x);
    }
  }

  lemma {:induction false} WithoutNothing(pending: seq<Asset>)
    ensures Without(pending, []) == pending
  {
    if pending != [] {
      WithoutNothing(pending[1..]);
    }
  }

  /** Take those of `assets` still queued out, in the order given, and put
      them back at the head. */
  method MoveToHead(queue: seq<Asset>, assets: seq<Asset>) returns (pending: seq<Asset>)
    requires Unique(queue)
    ensures pending == ToHead(queue, assets)
  {
    pending := queue;
    var head: seq<Asset> := [];
    WithoutNothing(queue);
    for i := 0 to |assets|
      invariant head == Head(queue, assets[..i]) && pending == Without(queue, head)
    {
      HeadIsQueued(queue, assets[..i]);
      WithoutKeepsOthers(queue, head);
      assert assets[..i + 1][..i] == assets[..i];
      var at := Position(pending, assets[i]);
      if at.Some? {
        WithoutOneMore(queue, head, at.value);
        pending := pending[..at.value] + pending[at.value + 1..];
        head := head + [assets[i]];
      }
    }
    assert assets[..|assets|] == assets;
    pending := head + pending;
  }

  // ---- What a request queues ----

  /** A requested frame, whether its record is valid already, and whether it
      is in the Trash. */
  datatype Basis = Basis(asset: Asset, valid: bool, trashed: bool)

  function Ids(records: seq<Basis>): (ids: seq<Asset>)
    ensures |ids| == |records| && forall i :: 0 <= i < |ids| ==> ids[i] == records[i].asset
  {
    seq(|records|, i requires 0 <= i < |records| => records[i].asset)
  }

  /** What a start takes: some assets, each once and none in the Trash, and
      among them those to measure first. */
  predicate Requestable(records: seq<Basis>, priority: seq<Asset>) {
    && records != [] && EachOnce(records)
    && (forall a :: a in priority ==> a in Ids(records))
    && (forall b :: b in records ==> !b.trashed)
  }

  /** The frames to measure, in request order, that the run has not held. */
  function ToMeasure(order: seq<Basis>, held: set<Asset>): seq<Asset> {
    if order == [] then []
    else
      var last := order[|order| - 1];
      ToMeasure(order[..|order| - 1], held) + if last.valid || last.asset in held then [] else [last.asset]
  }

  predicate EachOnce(order: seq<Basis>) {
    forall i, j :: 0 <= i < j < |order| ==> order[i].asset != order[j].asset
  }

  lemma {:induction false} ToMeasureIsFresh(order: seq<Basis>, held: set<Asset>)
    requires EachOnce(order)
    ensures Unique(ToMeasure(order, held)) && SetOf(ToMeasure(order, held)) !! held
    ensures forall x :: x in ToMeasure(order, held) <==>
              x !in held && exists i :: 0 <= i < |order| && order[i].asset == x && !order[i].valid
  {
    if order != [] {
      var front, last := order[..|order| - 1], order[|order| - 1];
      ToMeasureIsFresh(front, held);
      assert forall i :: 0 <= i < |front| ==> order[i] == front[i] && front[i].asset != last.asset;
    }
  }

  lemma {:induction false} WithoutOneLonger(ids: seq<Asset>, gone: seq<Asset>, x: Asset)
    ensures Without(ids + [x], gone) == Without(ids, gone) + if x in gone then [] else [x]
  {
    if ids == [] {
      assert ids + [x] == [x] && [x][1..] == [];
    } else {
      assert (ids + [x])[1..] == ids[1..] + [x];
      WithoutOneLonger(ids[1..], gone, x);
    }
  }

  function BasisOf(records: seq<Basis>, asset: Asset): (b: Basis)
    requires asset in Ids(records)
    ensures b in records && b.asset == asset
  {
    if records[0].asset == asset then records[0] else BasisOf(records[1..], asset)
  }

  /** The frames to measure first, each once. */
  method PriorityFirst(records: seq<Basis>, priority: seq<Asset>) returns (order: seq<Basis>)
    requires Requestable(records, priority)
    ensures Ids(order) == Head(Ids(records), priority)
    ensures forall b :: b in order ==> b in records
  {
    order := [];
    for i := 0 to |priority|
      invariant Ids(order) == Head(Ids(records), priority[..i]) && forall b :: b in order ==> b in records
    {
      assert priority[..i + 1][..i] == priority[..i] && priority[i] in priority;
      if priority[i] !in Ids(order) {
        order := order + [BasisOf(records, priority[i])];
      }
    }
    assert priority[..|priority|] == priority;
  }

  /** The requested frames, those to measure first at the head, each once. */
  method RequestOrder(records: seq<Basis>, priority: seq<Asset>) returns (order: seq<Basis>)
    requires Requestable(records, priority)
    ensures Ids(order) == ToHead(Ids(records), priority) && EachOnce(order)
    ensures forall b :: b in order ==> b in records
  {
    ghost var ids := Ids(records);
    order := PriorityFirst(records, priority);
    ghost var head := Ids(order);
    for i := 0 to |records|
      invariant Ids(order) == head + Without(ids[..i], head) && forall b :: b in order ==> b in records
    {
      NextRequested(ids, head, i);
      if records[i].asset !in Ids(order) {
        order := order + [records[i]];
      }
    }
    assert ids[..|records|] == ids;
    ToHeadPermutes(ids, priority);
  }

  lemma NextRequested(ids: seq<Asset>, head: seq<Asset>, i: nat)
    requires Unique(ids) && i < |ids|
    ensures var so := head + Without(ids[..i], head);
      head + Without(ids[..i + 1], head) == if ids[i] in so then so else so + [ids[i]]
  {
    WithoutKeepsOthers(ids[..i], head);
    assert ids[..i + 1] == ids[..i] + [ids[i]];
    WithoutOneLonger(ids[..i], head, ids[i]);
  }

  // ---- The service ----

  class Service {
    const pool: nat

    var run: Option<Active>
    var abort: bool
    var shutdown: bool
    /** The catalog: what each run settled, in order, and how it finished. */
    var settled: map<RunId, seq<Asset>>
    var finished: map<RunId, RunState>

    ghost var lock: Option<WorkerId>
    ghost var workers: map<WorkerId, Worker>
    ghost var spawned: nat
    ghost var assets: map<RunId, set<Asset>>
    ghost var taken: map<RunId, seq<Asset>>

    ghost function Current(): State
      reads this
    {
      State(run, lock, abort, shutdown, workers, spawned, assets, taken, settled, finished)
    }

    constructor (pool: nat)
      ensures Init(Current()) && this.pool == pool
    {
      this.pool := pool;
      run, abort, shutdown, settled, finished := None, false, false, map[], map[];
      lock, workers, spawned, assets, taken := None, map[], 0, map[], map[];
    }

    /** Adds the workers still missing, each asking for a frame: as many as
        frames wait, no more than the pool, no fewer than `minimum`. */
    method SpawnWorkers(minimum: nat)
      requires run.Some?
      modifies `run, `workers, `spawned
      ensures run.Some? && run.value == old(run.value).(workers := run.value.workers)
      ensures var wanted := Wanted(pool, |old(run).value.pending|, minimum);
              var more := if old(run).value.workers < wanted then wanted - old(run).value.workers else 0;
              && run.value.workers == old(run).value.workers + more
              && workers == Spawned(old(workers), old(spawned), more) && spawned == old(spawned) + more
    {
      var active := run.value;
      var fit := if pool < |active.pending| then pool else |active.pending|;
      var wanted := if fit < minimum then minimum else fit;
      ghost var more := 0;
      while active.workers < wanted
        invariant active == old(run.value).(workers := old(run.value).workers + more)
        invariant more > 0 ==> active.workers <= wanted
        invariant workers == Spawned(old(workers), old(spawned), more) && spawned == old(spawned) + more
      {
        active := active.(workers := active.workers + 1);
        workers, spawned, more := workers[spawned := Asking], spawned + 1, more + 1;
      }
      run := Some(active);
    }

    /** Start measuring `records` when no run is Running, else join it;
        whether the request was taken. `refused` says whether the catalog
        refuses it. */
    method StartMeasurement(id: RunId, records: seq<Basis>, priority: seq<Asset>, refused: bool)
      returns (ok: bool, order: seq<Basis>)
      requires Inv(Current()) && lock.None? && !shutdown && id !in assets
      modifies this
      ensures Inv(Current()) && finished == old(finished)
      ensures ok <==>
                && records != [] && (forall i, j :: 0 <= i < j < |records| ==> records[i].asset != records[j].asset)
                && (forall i :: 0 <= i < |records| ==> !records[i].trashed)
                && (forall a :: a in priority ==> exists b :: b in records && b.asset == a)
                && !refused && (old(run).Some? ==> old(run).value.end.None?)
      ensures ok ==> Ids(order) == ToHead(Ids(records), priority) && forall b :: b in order ==> b in records
      ensures old(run).None? && ok ==> MeasurementRun.Begin(old(Current()), id, ToMeasure(order, {}), pool, Current())
      ensures old(run).Some? && ok ==>
                MeasurementRun.Join(old(Current()), ToMeasure(order, old(run).value.held), priority, pool, Current())
      ensures !ok ==> Current() == old(Current())
    {
      ok, order := Requestable(records, priority), [];
      if !ok {
        return;
      }
      order := RequestOrder(records, priority);
      if run.Some? {
        ok := Join(order, priority, refused);
      } else {
        ok := Begin(id, order, refused);
      }
    }

    /** A new run, unless the catalog refuses to record it. */
    method Begin(id: RunId, order: seq<Basis>, refused: bool) returns (ok: bool)
      requires Inv(Current()) && lock.None? && !shutdown && run.None? && id !in assets && EachOnce(order)
      modifies this
      ensures ok <==> !refused
      ensures Inv(Current()) && (!ok ==> Current() == old(Current()))
      ensures ok ==> MeasurementRun.Begin(old(Current()), id, ToMeasure(order, {}), pool, Current())
    {
      ok := !refused;
      if ok {
        ghost var s := Current();
        Activate(id, order);
        BeginKeepsInv(s, id, ToMeasure(order, {}), pool, Current());
      }
    }

    method Activate(id: RunId, order: seq<Basis>)
      requires lock.None? && !shutdown && run.None? && id !in assets && EachOnce(order)
      modifies this
      ensures MeasurementRun.Begin(old(Current()), id, ToMeasure(order, {}), pool, Current())
    {
      var queue := ToMeasure(order, {});
      ToMeasureIsFresh(order, {});
      abort := false;
      settled := settled[id := []];
      assets, taken := assets[id := SetOf(queue)], taken[id := []];
      run := Some(Active(id, queue, SetOf(queue), None, 0, 0));
      SpawnWorkers(1);
    }

    /** Frames join the run held, unless it is ending or the catalog refuses
        to record them. */
    method Join(order: seq<Basis>, priority: seq<Asset>, refused: bool) returns (ok: bool)
      requires Inv(Current()) && lock.None? && !shutdown && run.Some? && EachOnce(order)
      modifies this
      ensures ok <==> old(run).value.end.None? && !refused
      ensures ok ==>
                && Inv(Current())
                && MeasurementRun.Join(old(Current()), ToMeasure(order, old(run).value.held), priority, pool, Current())
      ensures !ok ==> Current() == old(Current())
    {
      ok := run.value.end.None? && !refused;
      if ok {
        ghost var s := Current();
        Extend(order, priority);
        JoinKeepsInv(s, ToMeasure(order, s.run.value.held), priority, pool, Current());
      }
    }

    method Extend(order: seq<Basis>, priority: seq<Asset>)
      requires lock.None? && !shutdown && run.Some? && run.value.end.None? && EachOnce(order)
      requires Unique(run.value.pending) && SetOf(run.value.pending) <= run.value.held
      modifies this
      ensures MeasurementRun.Join(old(Current()), ToMeasure(order, old(run).value.held), priority, pool, Current())
    {
      var active := run.value;
      var added := ToMeasure(order, active.held);
      ToMeasureIsFresh(order, active.held);
      UniqueAppend(active.pending, added);
      var pending := MoveToHead(active.pending + added, priority);
      run := Some(active.(pending := pending, held := active.held + SetOf(added)));
      assets := assets[active.id := active.held + SetOf(added)];
      SpawnWorkers(0);
    }

    method Prioritize(id: RunId, which: seq<Asset>) returns (held: bool)
      requires Inv(Current()) && lock.None? && !shutdown
      modifies `run
      ensures held <==> old(run).Some? && old(run).value.id == id
      ensures if held then MeasurementRun.Prioritize(old(Current()), which, Current()) else Current() == old(Current())
    {
      held := run.Some? && run.value.id == id;
      if held {
        var pending := MoveToHead(run.value.pending, which);
        run := Some(run.value.(pending := pending));
      }
    }

    /** The end a canceled run reads stays what it was if it has one. */
    method CancelMeasurement(id: RunId) returns (held: bool)
      requires Inv(Current()) && lock.None? && !shutdown
      modifies `run, `abort
      ensures held <==> old(run).Some? && old(run).value.id == id
      ensures if held then Cancel(old(Current()), Current()) else Current() == old(Current())
      ensures held ==>
                && abort && run.Some? && run.value.(end := None) == old(run).value.(end := None)
                && run.value.end == if old(run).value.end.None? then Some(Canceled) else old(run).value.end
    {
      held := run.Some? && run.value.id == id;
      if held {
        if run.value.end.None? {
          run := Some(run.value.(end := Some(Canceled)));
        }
        abort := true;
      }
    }

    /** A worker takes the lock; at a shutdown it leaves uncounted. */
    method EnterSection(w: WorkerId) returns (entered: bool)
      requires Inv(Current()) && lock.None? && run.Some? && w in workers && workers[w].Asking?
      modifies `lock, `workers
      ensures Enter(old(Current()), w, Current()) && (entered <==> lock == Some(w))
    {
      entered := !shutdown;
      if entered {
        lock := Some(w);
      } else {
        workers := workers[w := Gone];
      }
    }

    /** A frame and its number exactly when the run goes on and some frame
        waits; else `w` is no longer a worker, nor the run Running when no
        other is left. `first` and `second` say which of the two finishing
        writes the catalog takes. */
    method NextFrame(w: WorkerId, first: bool, second: bool) returns (next: Option<(Asset, nat)>)
      requires Inv(Current()) && lock == Some(w)
      modifies `run, `finished, `lock, `workers, `taken
      ensures next.Some? ==>
                && Dequeue(old(Current()), w, Current()) && old(run).Some?
                && next.value == (old(run).value.pending[0], old(run).value.dequeued + 1)
      ensures next.None? ==> Leave(old(Current()), w, Current()) || Finish(old(Current()), w, first, second, Current())
      ensures next.None? <==> old(run).Some? && (old(run).value.end.Some? || old(run).value.pending == [])
    {
      var active := run.value;
      if active.end.None? && active.pending != [] {
        lock := None;
        var asset := active.pending[0];
        run := Some(active.(pending := active.pending[1..], dequeued := active.dequeued + 1));
        workers := workers[w := Measuring(asset)];
        taken := taken[active.id := taken[active.id] + [asset]];
        return Some((asset, active.dequeued + 1));
      }
      next := None;
      LeaveRun(w, first, second);
    }

    /** A worker without a frame is counted out; the last one settles the run. */
    method LeaveRun(w: WorkerId, first: bool, second: bool)
      requires Inv(Current()) && lock == Some(w)
      requires run.Some? && (run.value.end.Some? || run.value.pending == [])
      modifies `run, `finished, `lock, `workers
      ensures Leave(old(Current()), w, Current()) || Finish(old(Current()), w, first, second, Current())
    {
      var active := run.value;
      lock := None;
      workers := workers - {w};
      if active.workers - 1 > 0 {
        run := Some(active.(workers := active.workers - 1));
        return;
      }
      var state := if active.end.Some? then active.end.value else Completed;
      if first {
        finished := finished[active.id := state];
      } else if state != Failed && second {
        finished := finished[active.id := Failed];
      }
      run := None;
    }

    // Settling one frame and failing a run are not lock sections: anything
    // may come between these, so each is a call of its own.

    /** A measured frame is abandoned when the run is stopping. */
    method Stopping(w: WorkerId, asset: Asset) returns (stopping: bool)
      requires Inv(Current()) && w in workers && workers[w] == Measuring(asset)
      modifies `workers
      ensures Measured(old(Current()), w, Current()) && Inv(Current())
      ensures stopping == abort && workers[w] == if stopping then Asking else Writing(asset)
    {
      stopping := abort;
      ghost var s := Current();
      workers := workers[w := if stopping then Asking else Writing(asset)];
      MeasuredKeepsInv(s, w, Current());
    }

    /** Write the frame's record or issue; `accepted` says the catalog took it. */
    method Settle(w: WorkerId, asset: Asset, accepted: bool)
      requires Inv(Current()) && run.Some? && w in workers && workers[w] == Writing(asset)
      modifies `workers, `settled
      ensures Write(old(Current()), w, accepted, Current()) && Inv(Current())
      ensures settled == if accepted then old(settled)[run.value.id := old(settled)[run.value.id] + [asset]] else old(settled)
    {
      ghost var s := Current();
      if accepted {
        settled := settled[run.value.id := settled[run.value.id] + [asset]];
      }
      workers := workers[w := if accepted then Asking else Refused(asset)];
      WriteKeepsInv(s, w, accepted, Current());
    }

    /** Mark the run Failed after a refused write; abort is raised after the
        lock is released. */
    method MarkFailed(w: WorkerId)
      requires Inv(Current()) && lock.None? && w in workers && workers[w].Failing?
      modifies `run, `workers
      ensures Mark(old(Current()), w, Current()) && Inv(Current())
      ensures run.Some? && run.value.end == Some(Failed)
    {
      ghost var s := Current();
      run := Some(run.value.(end := Some(Failed)));
      workers := workers[w := Marked];
      MarkKeepsInv(s, w, Current());
    }

    method RaiseAbort(w: WorkerId)
      requires Inv(Current()) && w in workers && workers[w].Marked?
      modifies `abort, `workers
      ensures MeasurementRun.RaiseAbort(old(Current()), w, Current()) && Inv(Current())
    {
      ghost var s := Current();
      abort := true;
      workers := workers[w := Asking];
      RaiseAbortKeepsInv(s, w, Current());
    }
  }
}
