/** The bus's publishing calls and the subscriber's receive and replay loops,
    with other publishers and the pruner at work between any two of their
    steps. */
module StalePropagator {
  import opened EventLog

  /** The first `n` rows one batch commits after row `last`, in order. */
  function BatchRows(last: EventId, events: seq<(bool, bool)>, n: nat): (rows: seq<Row>)
    requires n <= |events|
    ensures |rows| == n
  {
    if n == 0 then []
    else BatchRows(last, events, n - 1) + [Row(last + n, events[n - 1].0, events[n - 1].1)]
  }

  /** A batch committed together is its rows committed one by one. */
  lemma {:induction false} BatchKeepsInv(s: State, limit: nat, last: EventId, events: seq<(bool, bool)>, n: nat)
    requires Inv(s, limit) && n <= |events|
    requires last == if s.log == [] then 0 else s.log[|s.log| - 1].id
    ensures var log := s.log + BatchRows(last, events, n);
      && Inv(s.(log := log), limit)
      && last + n == if log == [] then 0 else log[|log| - 1].id
  {
    if n == 0 {
      assert s.log + [] == s.log;
    } else {
      BatchKeepsInv(s, limit, last, events, n - 1);
      var was := s.(log := s.log + BatchRows(last, events, n - 1));
      var r := Row(last + n, events[n - 1].0, events[n - 1].1);
      assert s.log + BatchRows(last, events, n) == was.log + [r];
      LastIsNewest(was, limit);
      CommitKeepsInv(was, limit, r, was.(log := was.log + [r]));
    }
  }

  lemma {:induction false} BatchRowIs(last: EventId, events: seq<(bool, bool)>, n: nat, i: nat)
    requires i < n <= |events|
    ensures BatchRows(last, events, n)[i] == Row(last + i + 1, events[i].0, events[i].1)
  {
    if i < n - 1 { BatchRowIs(last, events, n - 1, i); }
  }

  lemma {:induction false} EnvelopeIs(rows: seq<Row>, i: nat)
    requires i < |rows|
    ensures |Envelopes(rows)| == |rows| && Envelopes(rows)[i] == Event(rows[i])
  {
    var n := |rows| - 1;
    if i < n {
      EnvelopeIs(rows[..n], i);
    } else if n > 0 {
      EnvelopeIs(rows[..n], 0);
    }
  }

  /** A batch's rows and messages answer its events one by one. */
  ghost predicate Answers(events: seq<(bool, bool)>, rows: seq<Row>, messages: seq<Message>) {
    && |rows| == |events| && |messages| == |events|
    && forall i :: 0 <= i < |events| ==>
         rows[i].lifecycle == events[i].0 && rows[i].parses == events[i].1 && messages[i] == Event(rows[i])
  }

  lemma BatchAnswers(last: EventId, events: seq<(bool, bool)>)
    ensures var rows := BatchRows(last, events, |events|);
      && Answers(events, rows, Envelopes(rows))
      && forall i :: 0 <= i < |rows| ==> rows[i].id == last + i + 1
  {
    var rows := BatchRows(last, events, |events|);
    forall i | 0 <= i < |events| ensures rows[i] == Row(last + i + 1, events[i].0, events[i].1) && Envelopes(rows)[i] == Event(rows[i]) {
      BatchRowIs(last, events, |events|, i);
      EnvelopeIs(rows, i);
    }
    if events != [] { EnvelopeIs(rows, 0); }
  }

  /** A batch adds, after what was there, one row and one message an event,
      under ids past every earlier one. */
  ghost predicate Published(events: seq<(bool, bool)>, before: seq<Row>, log: seq<Row>, said: seq<Message>, sent: seq<Message>) {
    && before <= log && said <= sent
    && Answers(events, log[|before|..], sent[|said|..])
    && forall i, j :: 0 <= i < j < |log| && |before| <= j ==> log[i].id < log[j].id
  }

  lemma BatchIsPublished(events: seq<(bool, bool)>, before: seq<Row>, last: EventId, said: seq<Message>)
    requires forall q :: q in before ==> q.id <= last
    ensures var rows := BatchRows(last, events, |events|);
      Published(events, before, before + rows, said, said + Envelopes(rows))
  {
    BatchAnswers(last, events);
    var rows := BatchRows(last, events, |events|);
    assert (before + rows)[|before|..] == rows;
    assert (said + Envelopes(rows))[|said|..] == Envelopes(rows);
  }

  lemma LastIsNewest(s: State, limit: nat)
    requires Inv(s, limit)
    ensures forall r :: r in s.log ==> r.id <= s.log[|s.log| - 1].id
  {
    InvIs(s, limit);
  }

  function Envelopes(rows: seq<Row>): (messages: seq<Message>)
    ensures |messages| == |rows|
  {
    if rows == [] then [] else Envelopes(rows[..|rows| - 1]) + [Event(rows[|rows| - 1])]
  }

  class Bus {
    const capacity: nat
    const pageSize: nat

    var log: seq<Row>
    var pruned: set<EventId>
    var sent: seq<Message>

    /** What one subscriber knows. */
    var next: nat
    var cursor: EventId
    var dispatched: set<EventId>
    ghost var skipped: set<nat>
    ghost var owed: bool
    ghost var pc: Pc

    /** How many more steps others take in the run described: any number,
        each of any kind. */
    var traffic: nat

    ghost function Current(): State
      reads this
    {
      State(log, pruned, sent, next, skipped, cursor, dispatched, owed, pc)
    }

    ghost predicate Valid()
      reads this
    {
      Inv(Current(), pageSize) && pageSize > 0 && capacity > 0
    }

    function LastId(): EventId
      reads this
    {
      if log == [] then 0 else log[|log| - 1].id
    }

    constructor (capacity: nat, pageSize: nat, log: seq<Row>, traffic: nat)
      requires capacity > 0 && pageSize > 0 && Sorted(log) && forall r :: r in log ==> r.id > 0
      ensures Valid() && Init(Current()) && this.log == log
      ensures this.capacity == capacity && this.pageSize == pageSize
    {
      this.capacity, this.pageSize := capacity, pageSize;
      this.log, pruned, sent, this.traffic := log, {}, [], traffic;
      next, skipped, cursor, dispatched, owed, pc := 0, {}, 0, {}, false, Live;
      new;
      InitFits(Current(), pageSize);
    }

    // ---- Publishing ----

    /** Write the durable row, then broadcast the envelope; a refused write
        broadcasts nothing. */
    method Publish(lifecycle: bool, parses: bool, refused: bool) returns (r: Row)
      requires Valid()
      modifies `log, `sent
      ensures Valid()
      ensures refused ==> log == old(log) && sent == old(sent)
      ensures !refused ==> log == old(log) + [r] && sent == old(sent) + [Event(r)]
      ensures !refused ==> r.lifecycle == lifecycle && r.parses == parses && forall q :: q in old(log) ==> q.id < r.id
    {
      LastIsNewest(Current(), pageSize);
      r := Row(LastId() + 1, lifecycle, parses);
      if refused {
        return;
      }
      InsertRow(r);
      Send(Event(r));
    }

    method InsertRow(r: Row)
      requires Valid() && r.id == LastId() + 1
      modifies `log
      ensures Valid() && log == old(log) + [r] && LastId() == r.id
    {
      ghost var s := Current();
      LastIsNewest(s, pageSize);
      log := log + [r];
      CommitKeepsInv(s, pageSize, r, Current());
    }

    method Send(m: Message)
      requires Valid() && (m.Event? ==> m.row in log)
      modifies `sent
      ensures Valid() && sent == old(sent) + [m]
    {
      ghost var s := Current();
      sent := sent + [m];
      BroadcastKeepsInv(s, pageSize, m, Current());
    }

    /** Write every row, then broadcast every envelope in order. */
    method PublishBatch(events: seq<(bool, bool)>, refused: bool)
      requires Valid()
      modifies `log, `sent
      ensures Valid()
      ensures refused ==> log == old(log) && sent == old(sent)
      ensures !refused ==> log == old(log) + BatchRows(old(LastId()), events, |events|)
      ensures !refused ==> sent == old(sent) + Envelopes(BatchRows(old(LastId()), events, |events|))
      ensures !refused ==> Published(events, old(log), log, old(sent), sent)
    {
      LastIsNewest(Current(), pageSize);
      BatchIsPublished(events, log, LastId(), sent);
      if refused {
        return;
      }
      var rows := InsertRows(events);
      SendAll(rows);
    }

    /** Write every row in one transaction. */
    method InsertRows(events: seq<(bool, bool)>) returns (rows: seq<Row>)
      requires Valid()
      modifies `log
      ensures Valid() && rows == BatchRows(old(LastId()), events, |events|) && log == old(log) + rows
    {
      ghost var s := Current();
      var last := LastId();
      rows := [];
      for i := 0 to |events|
        invariant rows == BatchRows(last, events, i)
      {
        rows := rows + [Row(last + i + 1, events[i].0, events[i].1)];
      }
      BatchKeepsInv(s, pageSize, last, events, |events|);
      log := log + rows;
    }

    method SendAll(rows: seq<Row>)
      requires Valid() && forall r :: r in rows ==> r in log
      modifies `sent
      ensures Valid() && sent == old(sent) + Envelopes(rows)
    {
      for i := 0 to |rows|
        invariant Valid() && sent == old(sent) + Envelopes(rows[..i])
      {
        assert rows[..i + 1][..i] == rows[..i];
        Send(Event(rows[i]));
      }
      assert rows[..|rows|] == rows;
    }

    /** Anyone may publish, broadcast what was committed, or prune. */
    method Others()
      requires Valid()
      modifies `log, `pruned, `sent, `traffic
      ensures Valid() && OnlyTraffic()
    {
      if traffic == 0 {
        return;
      }
      traffic := traffic - 1;
      var choice: nat, lifecycle: bool, parses: bool, gone: set<EventId> := *, *, *, *;
      if choice < |log| {
        Send(Event(log[choice]));
      } else if choice % 3 == 0 {
        InsertRow(Row(LastId() + 1, lifecycle, parses));
      } else if choice % 3 == 1 {
        Send(Signal);
      } else {
        ghost var s := Current();
        pruned := pruned + gone;
        PruneKeepsInv(s, pageSize, gone, Current());
      }
    }

    // ---- The subscriber ----

    /** Read the next page; `rows` is empty when there is none, or when the
        query failed and the replay ends where it stands. */
    method ReadPage(fails: bool) returns (rows: seq<Row>)
      requires Valid() && pc.Querying?
      modifies `owed, `pc
      ensures Valid() && Query(old(Current()), pageSize, !fails, Current())
      ensures fails ==> rows == []
      ensures if rows == [] then pc.Live? && owed == fails else pc == Paging(rows, 0) && |rows| <= pageSize
    {
      ghost var s := Current();
      rows := if fails then [] else Page(log, pruned, cursor, pageSize);
      pc := if rows == [] then Live else Paging(rows, 0);
      owed := if rows == [] then fails else owed;
      QueryKeepsInv(s, pageSize, !fails, Current());
    }

    method ReplayRow(r: Row)
      requires Valid() && pc.Paging? && pc.at < |pc.page| && pc.page[pc.at] == r
      modifies `dispatched, `cursor, `pc
      ensures Valid() && pc == Paging(old(pc.page), old(pc.at) + 1) && cursor == r.id && cursor > old(cursor)
      ensures dispatched == if r.parses then old(dispatched) + {r.id} else old(dispatched)
    {
      ghost var s := Current();
      InvIs(s, pageSize);
      ReplayKeepsInv(s, pageSize, Replayed(s, r));
      ghost var after := Replayed(s, r);
      if r.parses {
        dispatched := dispatched + {r.id};
      }
      assert dispatched == after.dispatched;
      cursor, pc := r.id, after.pc;
      assert Current() == after;
    }

    /** Others' work, then the next row of the page. */
    method ReplayNext(rows: seq<Row>, at: nat)
      requires Valid() && pc == Paging(rows, at) && at < |rows|
      modifies this
      ensures Valid() && pc == Paging(rows, at + 1) && next == old(next) && OnlyTraffic()
      ensures cursor > old(cursor)
      ensures dispatched == if rows[at].parses then old(dispatched) + {rows[at].id} else old(dispatched)
    {
      Others();
      ReplayRow(rows[at]);
    }

    ghost method EndPage()
      requires Valid() && pc.Paging? && pc.at == |pc.page|
      modifies `owed, `pc
      ensures Valid() && PageDone(old(Current()), pageSize, Current())
    {
      ghost var s := Current();
      var last := |pc.page| < pageSize;
      pc, owed := if last then Live else Querying, if last then false else owed;
      PageDoneKeepsInv(s, pageSize, Current());
    }

    /** What others can do while the subscriber works. */
    twostate predicate OnlyTraffic()
      reads this
    {
      && old(sent) <= sent && traffic <= old(traffic)
      && (traffic == old(traffic) ==> sent == old(sent) && log == old(log))
    }

    /** Dispatch the rows of one page, moving the cursor row by row. */
    method ReplayPage(rows: seq<Row>)
      requires Valid() && pc == Paging(rows, 0) && rows != []
      modifies this
      ensures Valid() && next == old(next) && OnlyTraffic()
      ensures pc == (if |rows| < pageSize then Live else Querying) && (pc.Live? ==> !owed)
      ensures cursor > old(cursor) && old(dispatched) <= dispatched
      ensures forall r :: r in rows && r.parses ==> r.id in dispatched
    {
      for at := 0 to |rows|
        invariant Valid() && pc == Paging(rows, at) && next == old(next) && OnlyTraffic()
        invariant cursor >= old(cursor) && (at > 0 ==> cursor > old(cursor)) && old(dispatched) <= dispatched
        invariant forall k :: 0 <= k < at && rows[k].parses ==> rows[k].id in dispatched
      {
        ReplayNext(rows, at);
      }
      EndPage();
    }

    /** Read a page and dispatch it; whether the replay goes on. */
    method ReplayOnePage(fails: bool) returns (more: bool)
      requires Valid() && pc.Querying?
      modifies this
      ensures Valid() && pc == (if more then Querying else Live) && next == old(next) && OnlyTraffic()
      ensures cursor >= old(cursor) && (more ==> cursor > old(cursor)) && old(dispatched) <= dispatched
      ensures !more && !fails ==> !owed
    {
      var rows := ReadPage(fails);
      if rows == [] {
        return false;
      }
      ReplayPage(rows);
      more := |rows| >= pageSize;
    }

    lemma CursorInTable()
      requires Valid()
      ensures cursor <= LastId()
    {
      InvIs(Current(), pageSize);
    }

    /** Replay the table from the cursor by pages, dispatching each row that
        parses; a query that fails ends it where it stands. */
    method ReplaySince(faulty: bool)
      requires Valid() && pc.Querying?
      modifies this
      ensures Valid() && pc.Live? && next == old(next) && OnlyTraffic()
      ensures cursor >= old(cursor) && old(dispatched) <= dispatched
      ensures !faulty ==> !owed
    {
      while true
        invariant Valid() && pc.Querying? && next == old(next) && OnlyTraffic()
        invariant cursor >= old(cursor) && old(dispatched) <= dispatched
        decreases traffic, LastId() - cursor
      {
        Others();
        var fails: bool := *;
        var more := ReplayOnePage(faulty && fails);
        if !more {
          return;
        }
        CursorInTable();
      }
    }

    method ReceiveOne()
      requires Valid() && pc.Live? && next < |sent| <= next + capacity
      modifies `next, `dispatched
      ensures Valid() && Receive(old(Current()), capacity, Current())
      ensures next == old(next) + 1 && old(dispatched) <= dispatched
    {
      ghost var s := Current();
      var m := sent[next];
      if m.Event? && m.row.lifecycle {
        dispatched := dispatched + {m.row.id};
      }
      next := next + 1;
      ReceiveKeepsInv(s, capacity, pageSize, Current());
    }

    method SkipLagged()
      requires Valid() && pc.Live? && next + capacity < |sent|
      modifies `next, `skipped, `pc
      ensures Valid() && EventLog.Lag(old(Current()), capacity, Current())
      ensures pc.Querying? && old(next) < next < |sent|
    {
      ghost var s := Current();
      skipped := skipped + Places(next, |sent| - capacity);
      next, pc := |sent| - capacity, Querying;
      LagKeepsInv(s, capacity, pageSize, Current());
    }

    /** Receive until the channel is empty, replaying after each lag. When no
        replay query fails, every lifecycle event sent was dispatched unless
        its payload does not parse or its row was pruned first. When one
        fails, what was missed is exactly what was only skipped and lies past
        the cursor. */
    method Drain(faulty: bool)
      requires Valid() && pc.Live?
      modifies this
      ensures Valid() && Drained(Current()) && old(sent) <= sent
      ensures !faulty && !old(owed) ==> forall m :: m in sent && m.Event? ==> Settled(Current(), m.row)
      ensures forall m :: m in sent && m.Event? && m.row.lifecycle && m.row.parses && m.row.id !in pruned ==>
                (m.row.id !in dispatched <==> OnlySkipped(Current(), m) && m.row.id > cursor)
      ensures cursor >= old(cursor) && old(dispatched) <= dispatched
    {
      InvIs(Current(), pageSize);
      while next < |sent|
        invariant Valid() && pc.Live? && old(sent) <= sent && next <= |sent|
        invariant !faulty && !old(owed) ==> !owed
        invariant cursor >= old(cursor) && old(dispatched) <= dispatched
        decreases traffic, |sent| - next
      {
        Others();
        if next + capacity < |sent| {
          SkipLagged();
          ReplaySince(faulty);
        } else {
          ReceiveOne();
        }
      }
      if !owed { DrainedSettles(); }
      DrainedMisses();
    }

    lemma DrainedMisses()
      requires Valid() && Drained(Current())
      ensures forall m :: m in sent && m.Event? && m.row.lifecycle && m.row.parses && m.row.id !in pruned ==>
                (m.row.id !in dispatched <==> OnlySkipped(Current(), m) && m.row.id > cursor)
    {
      forall m | m in sent && m.Event? && m.row.lifecycle && m.row.parses && m.row.id !in pruned
        ensures m.row.id !in dispatched <==> OnlySkipped(Current(), m) && m.row.id > cursor
      {
        MissedInState(Current(), pageSize, m);
      }
    }

    lemma DrainedSettles()
      requires Valid() && Drained(Current()) && !owed
      ensures forall m :: m in sent && m.Event? ==> Settled(Current(), m.row)
    {
      InvIs(Current(), pageSize);
    }
  }
}
