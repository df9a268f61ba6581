/** The hybrid event bus and its lagging subscriber. Events are committed to a
    durable table and then broadcast on a channel that keeps only the newest
    messages; a subscriber that lags replays the table by pages from a
    cursor. Publishers, the pruner and the subscriber interleave freely. */
module EventLog {
  type EventId = nat

  /** One durable row: whether it is on the lifecycle topic, and whether its
      payload parses. */
  datatype Row = Row(id: EventId, lifecycle: bool, parses: bool)

  /** A broadcast envelope, naming the row it was published with; a signal
      has none. */
  datatype Message = Event(row: Row) | Signal

  /** Where the subscriber stands: between messages, about to query a page,
      or at row `at` of one it read. */
  datatype Pc = Live | Querying | Paging(page: seq<Row>, at: nat)

  datatype State = State(
    log: seq<Row>,              // every row ever committed, oldest first
    pruned: set<EventId>,
    sent: seq<Message>,         // every message since the subscription
    next: nat,                  // the first message not yet received
    skipped: set<nat>,          // the places in `sent` a lag passed over
    cursor: EventId,
    dispatched: set<EventId>,
    owed: bool,                 // the last replay broke off
    pc: Pc)

  // ---- Pages of the durable table ----

  predicate Sorted(rows: seq<Row>) {
    forall i, j :: 0 <= i < j < |rows| ==> rows[i].id < rows[j].id
  }

  predicate Wanted(r: Row, pruned: set<EventId>, cursor: EventId) {
    r.lifecycle && r.id > cursor && r.id !in pruned
  }

  /** The lifecycle rows after `cursor` still in the table, by id. */
  function Since(log: seq<Row>, pruned: set<EventId>, cursor: EventId): seq<Row> {
    if log == [] then []
    else
      var last := log[|log| - 1];
      Since(log[..|log| - 1], pruned, cursor) + if Wanted(last, pruned, cursor) then [last] else []
  }

  function Page(log: seq<Row>, pruned: set<EventId>, cursor: EventId, limit: nat): seq<Row> {
    var rows := Since(log, pruned, cursor);
    if |rows| <= limit then rows else rows[..limit]
  }

  lemma {:induction false} SinceIsWanted(log: seq<Row>, pruned: set<EventId>, cursor: EventId)
    requires Sorted(log)
    ensures Sorted(Since(log, pruned, cursor))
    ensures forall r :: r in Since(log, pruned, cursor) <==> r in log && Wanted(r, pruned, cursor)
  {
    if log != [] {
      var front, last := log[..|log| - 1], log[|log| - 1];
      SinceIsWanted(front, pruned, cursor);
      assert log == front + [last];
      assert forall r :: r in front ==> r.id < last.id;
    }
  }

  /** A page holds every wanted row, or it is full and the others come after
      its last. */
  lemma PageIsComplete(log: seq<Row>, pruned: set<EventId>, cursor: EventId, limit: nat)
    requires Sorted(log) && limit > 0
    ensures var page := Page(log, pruned, cursor, limit);
      && Sorted(page) && |page| <= limit
      && (forall r :: r in page ==> r in log && Wanted(r, pruned, cursor))
      && (forall r :: r in log && Wanted(r, pruned, cursor) ==>
            r in page || (|page| == limit && page[|page| - 1].id < r.id))
  {
    SinceIsWanted(log, pruned, cursor);
    var rows := Since(log, pruned, cursor);
    if |rows| > limit {
      assert rows == rows[..limit] + rows[limit..];
      forall r | r in rows && r !in rows[..limit] ensures rows[limit - 1].id < r.id {
        assert r in rows[limit..];
      }
    }
  }

  // ---- Steps ----

  /** A publish commits its row; ids grow in commit order. */
  predicate Commit(s: State, r: Row, s': State) {
    && (forall q :: q in s.log ==> q.id < r.id) && r.id > 0
    && s' == s.(log := s.log + [r])
  }

  /** A committed event is broadcast, in any order with other publishers'. */
  predicate Broadcast(s: State, m: Message, s': State) {
    (m.Event? ==> m.row in s.log) && s' == s.(sent := s.sent + [m])
  }

  predicate Prune(s: State, gone: set<EventId>, s': State) {
    s' == s.(pruned := s.pruned + gone)
  }

  /** The subscriber receives the next message the channel still holds. */
  predicate Receive(s: State, capacity: nat, s': State) {
    && s.pc.Live? && s.next < |s.sent| <= s.next + capacity
    && var m := s.sent[s.next];
       s' == s.(next := s.next + 1,
                dispatched := if m.Event? && m.row.lifecycle then s.dispatched + {m.row.id} else s.dispatched)
  }

  function Places(from: nat, to: nat): (places: set<nat>)
    ensures forall i :: i in places <==> from <= i < to
  {
    if to <= from then {} else Places(from, to - 1) + {to - 1}
  }

  /** It lagged: the messages overwritten are skipped and a replay begins. */
  predicate Lag(s: State, capacity: nat, s': State) {
    && s.pc.Live? && s.next + capacity < |s.sent|
    && var next := |s.sent| - capacity;
       s' == s.(next := next, skipped := s.skipped + Places(s.next, next), pc := Querying)
  }

  predicate Query(s: State, limit: nat, ok: bool, s': State) {
    && s.pc.Querying?
    && var page := Page(s.log, s.pruned, s.cursor, limit);
       s' == if !ok then s.(owed := true, pc := Live)
             else if page == [] then s.(owed := false, pc := Live)
             else s.(pc := Paging(page, 0))
  }

  /** One row of the page: dispatched when it parses, and the cursor moves. */
  predicate Replay(s: State, s': State) {
    s.pc.Paging? && s.pc.at < |s.pc.page| && s' == Replayed(s, s.pc.page[s.pc.at])
  }

  function Replayed(s: State, r: Row): State
    requires s.pc.Paging?
  {
    s.(cursor := r.id, pc := Paging(s.pc.page, s.pc.at + 1),
       dispatched := if r.parses then s.dispatched + {r.id} else s.dispatched)
  }

  /** A page that was not full is the last one. */
  predicate PageDone(s: State, limit: nat, s': State) {
    && s.pc.Paging? && s.pc.at == |s.pc.page|
    && s' == if |s.pc.page| < limit then s.(owed := false, pc := Live) else s.(pc := Querying)
  }

  ghost predicate Next(s: State, capacity: nat, limit: nat, s': State) {
    || (exists r :: Commit(s, r, s'))
    || (exists m :: Broadcast(s, m, s'))
    || (exists gone :: Prune(s, gone, s'))
    || Receive(s, capacity, s')
    || Lag(s, capacity, s')
    || (exists ok :: Query(s, limit, ok, s'))
    || Replay(s, s')
    || PageDone(s, limit, s')
  }

  /** A subscription may begin over a table that already holds rows. */
  predicate Init(s: State) {
    && Sorted(s.log) && (forall r :: r in s.log ==> r.id > 0)
    && s.sent == [] && s.next == 0 && s.skipped == {} && s.cursor == 0 && s.dispatched == {} && !s.owed && s.pc == Live
  }

  ghost predicate StepAt(t: seq<State>, capacity: nat, limit: nat, i: nat) {
    0 < i < |t| ==> Next(t[i - 1], capacity, limit, t[i])
  }

  ghost predicate Run(t: seq<State>, capacity: nat, limit: nat) {
    t != [] && Init(t[0]) && forall i: nat :: StepAt(t, capacity, limit, i)
  }

  // ---- The inductive invariant ----

  /** Nothing is owed for this row: it was dispatched, or it can't be. */
  predicate Settled(s: State, r: Row) {
    !r.lifecycle || !r.parses || r.id in s.dispatched || r.id in s.pruned
  }

  /** A replay under way still comes to this row. */
  predicate Coming(s: State, limit: nat, r: Row) {
    match s.pc
    case Live => false
    case Querying => true
    case Paging(page, at) =>
      at <= |page| && (r in page[at..] || (|page| >= limit && |page| > 0 && page[|page| - 1].id < r.id))
  }

  ghost predicate TableFits(s: State) {
    && Sorted(s.log) && (forall r :: r in s.log ==> r.id > 0)
    && (forall m :: m in s.sent && m.Event? ==> m.row in s.log)
    && s.next <= |s.sent|
    && (if s.log == [] then s.cursor == 0 else s.cursor <= s.log[|s.log| - 1].id)
  }

  /** The cursor never passes a row that is still owed. */
  ghost predicate CursorFits(s: State) {
    forall r :: r in s.log && r.id <= s.cursor ==> Settled(s, r)
  }

  /** Every message received or skipped is settled, or a replay under way
      comes to it, or the last replay broke off. */
  ghost predicate ReceivedFits(s: State, limit: nat) {
    forall i :: 0 <= i < s.next && i < |s.sent| && s.sent[i].Event? ==>
      Settled(s, s.sent[i].row) || Coming(s, limit, s.sent[i].row) || (s.owed && s.pc.Live?)
  }

  /** The rest of the page is every row owed up to its last. */
  ghost predicate PageFits(s: State) {
    s.pc.Paging? ==>
      var page, at := s.pc.page, s.pc.at;
      && at <= |page| && page != [] && Sorted(page)
      && (forall r :: r in page ==> r in s.log && r.lifecycle)
      && (if at == 0 then s.cursor < page[0].id else s.cursor == page[at - 1].id)
      && (forall r :: r in s.log && s.cursor < r.id <= page[|page| - 1].id ==> Settled(s, r) || r in page[at..])
  }

  /** The message at place `i` was received live, not skipped. */
  predicate Received(s: State, i: nat) {
    i < s.next && i < |s.sent| && i !in s.skipped
  }

  /** The subscriber received the event of this id live. */
  ghost predicate SeenLive(s: State, id: EventId) {
    exists i: nat :: Received(s, i) && s.sent[i].Event? && s.sent[i].row.id == id
  }

  /** What was received live was dispatched, and whatever was dispatched came
      live or by a replay that has moved the cursor to it. */
  ghost predicate HistoryFits(s: State) {
    && (forall i :: i in s.skipped ==> i < s.next)
    && (forall i: nat :: Received(s, i) && s.sent[i].Event? && s.sent[i].row.lifecycle ==> s.sent[i].row.id in s.dispatched)
    && (forall id :: id in s.dispatched ==> id <= s.cursor || SeenLive(s, id))
  }

  datatype Part = Table | Cursor | Messages | CurrentPage | History

  ghost predicate Fits(part: Part, s: State, limit: nat) {
    match part
    case Table => TableFits(s)
    case Cursor => CursorFits(s)
    case Messages => ReceivedFits(s, limit)
    case CurrentPage => PageFits(s)
    case History => HistoryFits(s)
  }

  ghost predicate Inv(s: State, limit: nat) {
    forall part: Part :: Fits(part, s, limit)
  }

  lemma InvIs(s: State, limit: nat)
    ensures Inv(s, limit) <==> TableFits(s) && CursorFits(s) && ReceivedFits(s, limit) && PageFits(s) && HistoryFits(s)
  {
    if Inv(s, limit) {
      assert Fits(Table, s, limit) && Fits(Cursor, s, limit) && Fits(Messages, s, limit);
      assert Fits(CurrentPage, s, limit) && Fits(History, s, limit);
    }
  }

  /** A step that takes nothing from what was received live and moves the
      cursor only forward keeps how each dispatch came about. */
  lemma SeenLiveStays(s: State, s': State)
    requires s.sent <= s'.sent && s.next <= s'.next && forall i :: i < s.next ==> (i in s.skipped <==> i in s'.skipped)
    ensures forall id :: SeenLive(s, id) ==> SeenLive(s', id)
  {
    forall id | SeenLive(s, id) ensures SeenLive(s', id) {
      var i: nat :| Received(s, i) && s.sent[i].Event? && s.sent[i].row.id == id;
      assert Received(s', i) && s'.sent[i] == s.sent[i];
    }
  }

  lemma TrafficKeepsHistory(s: State, s': State)
    requires HistoryFits(s) && s.next <= |s.sent| && s.sent <= s'.sent && s'.cursor >= s.cursor
    requires s'.next == s.next && s'.skipped == s.skipped && s'.dispatched == s.dispatched
    ensures HistoryFits(s')
  {
    SeenLiveStays(s, s');
    forall i: nat | Received(s', i) ensures Received(s, i) && s'.sent[i] == s.sent[i] {}
  }

  lemma ReplayKeepsHistory(s: State, s': State)
    requires HistoryFits(s) && Replay(s, s') && s'.cursor > s.cursor
    ensures HistoryFits(s')
  {
    SeenLiveStays(s, s');
    forall i: nat | Received(s', i) ensures Received(s, i) {}
  }

  lemma ReceiveKeepsHistory(s: State, capacity: nat, s': State)
    requires HistoryFits(s) && Receive(s, capacity, s')
    ensures HistoryFits(s')
  {
    SeenLiveStays(s, s');
    assert Received(s', s.next);
    forall i: nat | Received(s', i) ensures i == s.next || Received(s, i) {}
  }

  lemma LagKeepsHistory(s: State, capacity: nat, s': State)
    requires HistoryFits(s) && Lag(s, capacity, s')
    ensures HistoryFits(s')
  {
    SeenLiveStays(s, s');
    forall i: nat | Received(s', i) ensures Received(s, i) {}
  }

  lemma CommitKeepsTable(s: State, r: Row, s': State)
    requires TableFits(s) && CursorFits(s) && Commit(s, r, s')
    ensures TableFits(s') && CursorFits(s')
  {
    if s.log != [] {
      assert s.log[|s.log| - 1] in s.log;
    }
    assert forall q :: q in s'.log ==> q in s.log || q == r;
  }

  lemma CommitKeepsPage(s: State, r: Row, s': State)
    requires PageFits(s) && Commit(s, r, s')
    ensures PageFits(s')
  {
    if s.pc.Paging? {
      var page, at := s.pc.page, s.pc.at;
      assert page[|page| - 1] in page;
      forall q | q in s'.log && s.cursor < q.id <= page[|page| - 1].id
        ensures Settled(s', q) || q in page[at..]
      {
        assert q in s.log;
        assert Settled(s, q) ==> Settled(s', q);
      }
    }
  }

  lemma CommitKeepsInv(s: State, limit: nat, r: Row, s': State)
    requires Inv(s, limit) && Commit(s, r, s')
    ensures Inv(s', limit)
  {
    InvIs(s, limit);
    InvIs(s', limit);
    CommitKeepsTable(s, r, s');
    CommitKeepsPage(s, r, s');
    TrafficKeepsHistory(s, s');
  }

  lemma BroadcastKeepsInv(s: State, limit: nat, m: Message, s': State)
    requires Inv(s, limit) && Broadcast(s, m, s')
    ensures Inv(s', limit)
  {
    InvIs(s, limit);
    InvIs(s', limit);
    TrafficKeepsHistory(s, s');
  }

  lemma PruneKeepsInv(s: State, limit: nat, gone: set<EventId>, s': State)
    requires Inv(s, limit) && Prune(s, gone, s')
    ensures Inv(s', limit)
  {
    InvIs(s, limit);
    InvIs(s', limit);
    TrafficKeepsHistory(s, s');
  }

  lemma ReceiveKeepsInv(s: State, capacity: nat, limit: nat, s': State)
    requires Inv(s, limit) && Receive(s, capacity, s')
    ensures Inv(s', limit)
  {
    InvIs(s, limit);
    InvIs(s', limit);
    ReceiveKeepsHistory(s, capacity, s');
  }

  lemma LagKeepsInv(s: State, capacity: nat, limit: nat, s': State)
    requires Inv(s, limit) && Lag(s, capacity, s')
    ensures Inv(s', limit)
  {
    InvIs(s, limit);
    InvIs(s', limit);
    LagKeepsHistory(s, capacity, s');
  }

  lemma QueryFindsAllOwed(s: State, limit: nat, r: Row)
    requires limit > 0 && TableFits(s) && CursorFits(s)
    ensures var page := Page(s.log, s.pruned, s.cursor, limit);
      r in s.log && !Settled(s, r) ==> r in page || (|page| == limit && page[|page| - 1].id < r.id)
  {
    PageIsComplete(s.log, s.pruned, s.cursor, limit);
  }

  lemma QueryKeepsPage(s: State, limit: nat, s': State)
    requires limit > 0 && TableFits(s) && CursorFits(s) && Query(s, limit, true, s')
    ensures PageFits(s')
  {
    PageIsComplete(s.log, s.pruned, s.cursor, limit);
    var page := Page(s.log, s.pruned, s.cursor, limit);
    if page != [] {
      assert page[0] in page && page[0..] == page;
      forall r | r in s.log && s.cursor < r.id <= page[|page| - 1].id
        ensures Settled(s', r) || r in page[0..]
      {
        QueryFindsAllOwed(s, limit, r);
      }
    }
  }

  lemma QueryKeepsInv(s: State, limit: nat, ok: bool, s': State)
    requires limit > 0 && Inv(s, limit) && Query(s, limit, ok, s')
    ensures Inv(s', limit)
  {
    InvIs(s, limit);
    InvIs(s', limit);
    TrafficKeepsHistory(s, s');
    if ok {
      QueryKeepsPage(s, limit, s');
      forall i | 0 <= i < s.next && s.sent[i].Event?
        ensures Settled(s', s.sent[i].row) || Coming(s', limit, s.sent[i].row)
      {
        assert s.sent[i] in s.sent;
        QueryFindsAllOwed(s, limit, s.sent[i].row);
        if s'.pc.Paging? { assert s'.pc.page[0..] == s'.pc.page; }
      }
    }
  }

  lemma ReplayKeepsTable(s: State, s': State)
    requires TableFits(s) && PageFits(s) && Replay(s, s')
    ensures TableFits(s') && s'.cursor > s.cursor
  {
    var r := s.pc.page[s.pc.at];
    assert r in s.pc.page && r in s.log;
    assert s.pc.at > 0 ==> s.pc.page[s.pc.at - 1].id < r.id;
  }

  lemma ReplayKeepsCursor(s: State, s': State)
    requires TableFits(s) && CursorFits(s) && PageFits(s) && Replay(s, s')
    ensures CursorFits(s')
  {
    var page, at := s.pc.page, s.pc.at;
    assert page[at] in page;
    assert page[|page| - 1].id >= page[at].id;
    forall r | r in s'.log && r.id <= s'.cursor ensures Settled(s', r) {
      if !Settled(s, r) {
        assert r in page[at..];
        var k :| at <= k < |page| && page[k] == r;
        assert k == at;
      }
    }
  }

  /** What a replay still comes to it comes to after one row more, or that
      row was it. */
  lemma ReplayStillComes(s: State, limit: nat, s': State, r: Row)
    requires PageFits(s) && Replay(s, s') && (Settled(s, r) || Coming(s, limit, r))
    ensures Settled(s', r) || Coming(s', limit, r)
  {
    if Settled(s, r) {
      assert Settled(s', r);
    } else {
      NextInPage(s.pc.page, s.pc.at, r);
    }
  }

  lemma NextInPage(page: seq<Row>, at: nat, r: Row)
    requires at < |page|
    ensures r in page[at..] ==> r == page[at] || r in page[at + 1..]
  {
    assert page[at..] == [page[at]] + page[at + 1..];
  }

  lemma ReplayKeepsReceived(s: State, limit: nat, s': State)
    requires ReceivedFits(s, limit) && PageFits(s) && Replay(s, s')
    ensures ReceivedFits(s', limit)
  {
    forall i | 0 <= i < s'.next && i < |s'.sent| && s'.sent[i].Event?
      ensures Settled(s', s'.sent[i].row) || Coming(s', limit, s'.sent[i].row)
    {
      ReplayStillComes(s, limit, s', s.sent[i].row);
    }
  }

  lemma ReplayKeepsPage(s: State, s': State)
    requires PageFits(s) && Replay(s, s')
    ensures PageFits(s')
  {
    var page, at := s.pc.page, s.pc.at;
    assert at > 0 ==> page[at - 1].id < page[at].id;
    forall r | r in s'.log && s'.cursor < r.id <= page[|page| - 1].id
      ensures Settled(s', r) || r in page[at + 1..]
    {
      assert Settled(s, r) || r in page[at..];
      NextInPage(page, at, r);
    }
  }

  lemma ReplayKeepsInv(s: State, limit: nat, s': State)
    requires Inv(s, limit) && Replay(s, s')
    ensures Inv(s', limit) && s'.cursor > s.cursor
  {
    InvIs(s, limit);
    InvIs(s', limit);
    ReplayKeepsTable(s, s');
    ReplayKeepsCursor(s, s');
    ReplayKeepsReceived(s, limit, s');
    ReplayKeepsPage(s, s');
    ReplayKeepsHistory(s, s');
  }

  lemma PageDoneKeepsInv(s: State, limit: nat, s': State)
    requires Inv(s, limit) && PageDone(s, limit, s')
    ensures Inv(s', limit)
  {
    InvIs(s, limit);
    InvIs(s', limit);
    TrafficKeepsHistory(s, s');
  }

  lemma StepKeepsInv(s: State, capacity: nat, limit: nat, s': State)
    requires limit > 0 && Inv(s, limit) && Next(s, capacity, limit, s')
    ensures Inv(s', limit)
  {
    if r :| Commit(s, r, s') { CommitKeepsInv(s, limit, r, s'); }
    else if m :| Broadcast(s, m, s') { BroadcastKeepsInv(s, limit, m, s'); }
    else if gone :| Prune(s, gone, s') { PruneKeepsInv(s, limit, gone, s'); }
    else if Receive(s, capacity, s') { ReceiveKeepsInv(s, capacity, limit, s'); }
    else if Lag(s, capacity, s') { LagKeepsInv(s, capacity, limit, s'); }
    else if ok :| Query(s, limit, ok, s') { QueryKeepsInv(s, limit, ok, s'); }
    else if Replay(s, s') { ReplayKeepsInv(s, limit, s'); }
    else { PageDoneKeepsInv(s, limit, s'); }
  }

  lemma InitFits(s: State, limit: nat)
    requires Init(s)
    ensures Inv(s, limit)
  {
    InvIs(s, limit);
    assert s.log != [] ==> s.log[|s.log| - 1] in s.log;
  }

  lemma {:induction false} RunKeepsInv(t: seq<State>, capacity: nat, limit: nat, i: nat)
    requires limit > 0 && Run(t, capacity, limit) && i < |t|
    ensures Inv(t[i], limit)
  {
    if i == 0 {
      InitFits(t[0], limit);
    } else {
      RunKeepsInv(t, capacity, limit, i - 1);
      var s, s' := t[i - 1], t[i];
      assert Next(s, capacity, limit, s') by { assert StepAt(t, capacity, limit, i); }
      StepKeepsInv(s, capacity, limit, s');
    }
  }

  // ---- What holds in every interleaving ----

  /** Every message sent has been received or skipped, and no replay is on. */
  predicate Drained(s: State) {
    s.pc.Live? && s.next == |s.sent|
  }

  /** Once the channel drains, every lifecycle event that was broadcast was
      dispatched, live or by replay, unless its payload does not parse or its
      row was pruned first; so long as the last replay did not break off. */
  lemma NothingIsMissed(t: seq<State>, capacity: nat, limit: nat, i: nat, m: Message)
    requires limit > 0 && Run(t, capacity, limit) && i < |t|
    requires Drained(t[i]) && !t[i].owed && m in t[i].sent && m.Event?
    requires m.row.lifecycle && m.row.parses && m.row.id !in t[i].pruned
    ensures m.row.id in t[i].dispatched
  {
    RunKeepsInv(t, capacity, limit, i);
    InvIs(t[i], limit);
    var k :| 0 <= k < |t[i].sent| && t[i].sent[k] == m;
  }

  /** The cursor never passes an undispatched row that parses and is still in
      the table, whether or not it was broadcast. */
  lemma CursorPassesOnlySettled(t: seq<State>, capacity: nat, limit: nat, i: nat, r: Row)
    requires limit > 0 && Run(t, capacity, limit) && i < |t|
    requires r in t[i].log && r.id <= t[i].cursor && r.lifecycle && r.parses && r.id !in t[i].pruned
    ensures r.id in t[i].dispatched
  {
    RunKeepsInv(t, capacity, limit, i);
    InvIs(t[i], limit);
  }

  lemma {:induction false} CursorOnlyGrows(t: seq<State>, capacity: nat, limit: nat, i: nat, j: nat)
    requires limit > 0 && Run(t, capacity, limit) && i <= j < |t|
    ensures t[i].cursor <= t[j].cursor
    decreases j - i
  {
    if i < j {
      CursorOnlyGrows(t, capacity, limit, i, j - 1);
      RunKeepsInv(t, capacity, limit, j - 1);
      var s, s' := t[j - 1], t[j];
      assert Next(s, capacity, limit, s') by { assert StepAt(t, capacity, limit, j); }
      CursorStepGrows(s, capacity, limit, s');
    }
  }

  lemma CursorStepGrows(s: State, capacity: nat, limit: nat, s': State)
    requires Inv(s, limit) && Next(s, capacity, limit, s')
    ensures s.cursor <= s'.cursor
  {
    InvIs(s, limit);
    if Replay(s, s') {}
    else if r :| Commit(s, r, s') {}
    else if m :| Broadcast(s, m, s') {}
    else if gone :| Prune(s, gone, s') {}
    else if ok :| Query(s, limit, ok, s') {}
    else {}
  }

  /** A lag passed over every broadcast of this event. */
  predicate OnlySkipped(s: State, m: Message) {
    forall i: nat :: i < |s.sent| && s.sent[i] == m ==> i in s.skipped
  }

  /** Whether or not a replay broke off: once the channel drains, a lifecycle
      event that was broadcast, parses and is still in the table was missed
      exactly when every broadcast of it was skipped and no replay has come
      as far as its row. */
  lemma MissedExactly(t: seq<State>, capacity: nat, limit: nat, i: nat, m: Message)
    requires limit > 0 && Run(t, capacity, limit) && i < |t|
    requires Drained(t[i]) && m in t[i].sent && m.Event?
    requires m.row.lifecycle && m.row.parses && m.row.id !in t[i].pruned
    ensures m.row.id !in t[i].dispatched <==> OnlySkipped(t[i], m) && m.row.id > t[i].cursor
  {
    RunKeepsInv(t, capacity, limit, i);
    MissedInState(t[i], limit, m);
  }

  lemma MissedInState(s: State, limit: nat, m: Message)
    requires Inv(s, limit) && Drained(s) && m in s.sent && m.Event?
    requires m.row.lifecycle && m.row.parses && m.row.id !in s.pruned
    ensures m.row.id !in s.dispatched <==> OnlySkipped(s, m) && m.row.id > s.cursor
  {
    InvIs(s, limit);
    if m.row.id !in s.dispatched {
      forall i: nat | i < |s.sent| && s.sent[i] == m ensures i in s.skipped {
        assert !Received(s, i);
      }
    } else if m.row.id > s.cursor {
      assert SeenLive(s, m.row.id);
      var i: nat :| Received(s, i) && s.sent[i].Event? && s.sent[i].row.id == m.row.id;
      assert s.sent[i] in s.sent;
      OneRowOfAnId(s.log, s.sent[i].row, m.row);
      assert s.sent[i] == m;
    }
  }

  lemma OneRowOfAnId(log: seq<Row>, r: Row, q: Row)
    requires Sorted(log) && r in log && q in log && r.id == q.id
    ensures r == q
  {
    var i :| 0 <= i < |log| && log[i] == r;
    var j :| 0 <= j < |log| && log[j] == q;
    assert i == j;
  }

  lemma RunGoesOn(t: seq<State>, capacity: nat, limit: nat, s: State)
    requires Run(t, capacity, limit) && Next(t[|t| - 1], capacity, limit, s)
    ensures Run(t + [s], capacity, limit)
  {
    forall i: nat ensures StepAt(t + [s], capacity, limit, i) {
      assert StepAt(t, capacity, limit, i);
    }
  }

  function Signals(n: nat): seq<Message> {
    seq(n, _ => Signal)
  }

  lemma {:induction false} SendSignals(t: seq<State>, capacity: nat, limit: nat, n: nat) returns (t': seq<State>)
    requires Run(t, capacity, limit)
    ensures Run(t', capacity, limit) && var s := t[|t| - 1]; t'[|t'| - 1] == s.(sent := s.sent + Signals(n))
  {
    var s := t[|t| - 1];
    if n == 0 {
      assert s.sent + Signals(0) == s.sent;
      t' := t;
    } else {
      t' := SendSignals(t, capacity, limit, n - 1);
      var was := t'[|t'| - 1];
      var next := was.(sent := was.sent + [Signal]);
      assert next.sent == s.sent + Signals(n);
      assert Broadcast(was, Signal, next);
      RunGoesOn(t', capacity, limit, next);
      t' := t' + [next];
    }
  }

  /** The subscriber receives what the channel still holds, all signals. */
  lemma {:induction false} ReceiveSignals(t: seq<State>, capacity: nat, limit: nat) returns (t': seq<State>)
    requires Run(t, capacity, limit) && var s := t[|t| - 1];
      && s.pc.Live? && s.next <= |s.sent| <= s.next + capacity
      && (forall i :: s.next <= i < |s.sent| ==> s.sent[i] == Signal)
    ensures Run(t', capacity, limit) && var s := t[|t| - 1]; t'[|t'| - 1] == s.(next := |s.sent|)
    decreases |t[|t| - 1].sent| - t[|t| - 1].next
  {
    var s := t[|t| - 1];
    if s.next == |s.sent| {
      t' := t;
    } else {
      var next := s.(next := s.next + 1);
      assert Receive(s, capacity, next);
      RunGoesOn(t, capacity, limit, next);
      t' := ReceiveSignals(t + [next], capacity, limit);
    }
  }

  /** An event followed by as many signals as the channel holds. */
  lemma EventThenSignals(capacity: nat, limit: nat, a: Row) returns (t: seq<State>)
    requires a.id > 0
    ensures Run(t, capacity, limit)
    ensures t[|t| - 1] == State([a], {}, [Event(a)] + Signals(capacity), 0, {}, 0, {}, false, Live)
  {
    var s0 := State([], {}, [], 0, {}, 0, {}, false, Live);
    var s1 := s0.(log := [a]);
    var s2 := s1.(sent := [Event(a)]);
    assert Commit(s0, a, s1);
    RunGoesOn([s0], capacity, limit, s1);
    assert Broadcast(s1, Event(a), s2);
    RunGoesOn([s0] + [s1], capacity, limit, s2);
    t := SendSignals([s0] + [s1] + [s2], capacity, limit, capacity);
  }

  /** A replay query that fails does lose events, whatever the channel holds
      and however long a page is: enough signals after an event skip it, the
      query fails, and the drained subscriber never dispatched it. */
  lemma BrokenReplayLoses(capacity: nat, limit: nat) returns (t: seq<State>)
    requires capacity > 0
    ensures Run(t, capacity, limit) && var s := t[|t| - 1];
      && Drained(s) && s.owed && s.pruned == {} && s.dispatched == {}
      && exists m :: m in s.sent && m.Event? && m.row.lifecycle && m.row.parses
  {
    var a := Row(1, true, true);
    t := EventThenSignals(capacity, limit, a);
    var s := t[|t| - 1];
    var lagged := s.(next := 1, skipped := s.skipped + Places(0, 1), pc := Querying);
    assert Lag(s, capacity, lagged);
    RunGoesOn(t, capacity, limit, lagged);
    var failed := lagged.(owed := true, pc := Live);
    assert Query(lagged, limit, false, failed);
    RunGoesOn(t + [lagged], capacity, limit, failed);
    t := ReceiveSignals(t + [lagged] + [failed], capacity, limit);
    assert t[|t| - 1].sent[0] == Event(a);
  }
}
