/** What the steps of a measurement run do to its queue and its workers, in
    plain terms. */
module MeasurementMeaning {
  import opened Wrappers
  import opened MeasurementRun

  // ---- Workers ----

  /** Of `before` workers there are now `after`: none left, none beyond the pool
      or the frames waiting but for `minimum`, and none missing while the pool
      has one and a frame waits. */
  predicate Staffed(before: nat, after: nat, pool: nat, waiting: nat, minimum: nat) {
    && before <= after && minimum <= after
    && (after > before && after > minimum ==> after <= pool && after <= waiting)
    && (after < waiting ==> pool <= after)
  }

  // ---- The queue ----

  /** Those of `queue` asked for come first, in the order asked, then the
      others in their own. */
  ghost predicate AskedFirst(queue: seq<Asset>, asked: seq<Asset>, after: seq<Asset>) {
    exists head, rest ::
      && after == head + rest
      && (forall x :: x in head <==> x in queue && x in asked)
      && (forall x :: x in rest <==> x in queue && x !in asked)
      && InOrderOf(head, asked) && InOrderOf(rest, queue)
  }

  lemma ToHeadAsksFirst(queue: seq<Asset>, asked: seq<Asset>)
    requires Unique(queue)
    ensures AskedFirst(queue, asked, ToHead(queue, asked))
  {
    var head, rest := ToHeadInOrder(queue, asked);
  }

  // ---- Steps ----

  /** A new run waits for the whole queue, in its order, with abort lowered. */
  lemma BeginSays(s: State, id: RunId, queue: seq<Asset>, pool: nat, s': State)
    requires Begin(s, id, queue, pool, s')
    ensures s'.run.Some? && !s'.abort
    ensures var run := s'.run.value;
      && run.id == id && run.pending == queue && run.dequeued == 0 && run.end.None?
      && (forall x :: x in run.held <==> x in queue)
      && Staffed(0, run.workers, pool, |queue|, 1)
  {
  }

  /** A join leaves the run its identity, its end and what it counted, and adds
      its frames after those waiting, but for the ones asked for first. */
  lemma JoinSays(s: State, added: seq<Asset>, priority: seq<Asset>, pool: nat, s': State)
    requires Inv(s) && Join(s, added, priority, pool, s')
    ensures s'.run.Some? && s'.abort == s.abort && s'.finished == s.finished && s'.taken == s.taken
    ensures var was, run := s.run.value, s'.run.value;
      && run.id == was.id && run.end == was.end && run.dequeued == was.dequeued
      && (forall x :: x in run.held <==> x in was.held || x in added)
      && AskedFirst(was.pending + added, priority, run.pending)
      && Staffed(was.workers, run.workers, pool, |run.pending|, 0)
  {
    UniqueAppend(s.run.value.pending, added);
    ToHeadAsksFirst(s.run.value.pending + added, priority);
  }

  /** Reordering moves nothing but the queue. */
  lemma PrioritizeSays(s: State, asked: seq<Asset>, s': State)
    requires Inv(s) && Prioritize(s, asked, s')
    ensures s'.run.Some? && s' == s.(run := s'.run)
    ensures var was, run := s.run.value, s'.run.value;
      run == was.(pending := run.pending) && AskedFirst(was.pending, asked, run.pending)
  {
    ToHeadAsksFirst(s.run.value.pending, asked);
  }

  /** The worker gets the frame at the head, which leaves the queue and is the
      last one taken. */
  lemma DequeueSays(s: State, w: WorkerId, s': State)
    requires Inv(s) && Dequeue(s, w, s')
    ensures s'.run.Some? && s'.lock.None?
    ensures var was, run := s.run.value, s'.run.value;
      && was.pending != [] && was.pending == [was.pending[0]] + run.pending
      && s'.workers == s.workers[w := Measuring(was.pending[0])]
      && run.dequeued == was.dequeued + 1 == |s'.taken[run.id]|
      && s'.taken[run.id] == s.taken[run.id] + [was.pending[0]]
      && run.held == was.held && run.end == was.end && run.workers == was.workers
  {
  }
}
