/** What the subscriber of the event log dispatches: lifecycle events that were
    committed, and none that did not come live or by a replay. */
module EventMeaning {
  import opened EventLog

  /** A committed lifecycle event of this id came live, or it parses and a
      replay has come as far as its row. */
  ghost predicate HadReason(s: State, id: EventId) {
    exists r :: r in s.log && r.id == id && r.lifecycle && (SeenLive(s, id) || (r.parses && id <= s.cursor))
  }

  ghost predicate AllHadReason(s: State) {
    forall id :: id in s.dispatched ==> HadReason(s, id)
  }

  /** What happens to the table, the channel and the cursor takes no reason
      away. */
  lemma ReasonsStay(s: State, s': State)
    requires s.log <= s'.log && s.cursor <= s'.cursor && s.sent <= s'.sent && s.next <= s'.next
    requires forall i :: i < s.next ==> (i in s.skipped <==> i in s'.skipped)
    ensures forall id: EventId :: HadReason(s, id) ==> HadReason(s', id)
  {
    SeenLiveStays(s, s');
    forall id: EventId | HadReason(s, id) ensures HadReason(s', id) {
      var r :| r in s.log && r.id == id && r.lifecycle && (SeenLive(s, id) || (r.parses && id <= s.cursor));
      assert r in s'.log;
    }
  }

  lemma ReceivedHasReason(s: State, capacity: nat, s': State)
    requires TableFits(s) && HistoryFits(s) && AllHadReason(s) && Receive(s, capacity, s')
    ensures AllHadReason(s')
  {
    ReasonsStay(s, s');
    var m := s.sent[s.next];
    if m.Event? && m.row.lifecycle {
      assert Received(s', s.next);
      assert SeenLive(s', m.row.id);
      assert HadReason(s', m.row.id);
    }
  }

  lemma ReplayedHasReason(s: State, s': State)
    requires PageFits(s) && AllHadReason(s) && Replay(s, s') && s.cursor <= s'.cursor
    ensures AllHadReason(s')
  {
    ReasonsStay(s, s');
    var r := s.pc.page[s.pc.at];
    assert r in s.log && r.lifecycle;
    if r.parses {
      assert HadReason(s', r.id);
    }
  }

  lemma LagHasReason(s: State, capacity: nat, s': State)
    requires AllHadReason(s) && Lag(s, capacity, s')
    ensures AllHadReason(s')
  {
    ReasonsStay(s, s');
  }

  lemma TrafficHasReason(s: State, s': State)
    requires AllHadReason(s) && ((exists r :: Commit(s, r, s')) || (exists m :: Broadcast(s, m, s')) || (exists gone :: Prune(s, gone, s')))
    ensures AllHadReason(s')
  {
    if r :| Commit(s, r, s') {}
    else if m :| Broadcast(s, m, s') {}
    else {}
    ReasonsStay(s, s');
  }

  lemma StepHasReason(s: State, capacity: nat, limit: nat, s': State)
    requires Inv(s, limit) && AllHadReason(s) && Next(s, capacity, limit, s')
    ensures AllHadReason(s')
  {
    InvIs(s, limit);
    CursorStepGrows(s, capacity, limit, s');
    if Receive(s, capacity, s') { ReceivedHasReason(s, capacity, s'); }
    else if Replay(s, s') { ReplayedHasReason(s, s'); }
    else if Lag(s, capacity, s') { LagHasReason(s, capacity, s'); }
    else if ok :| Query(s, limit, ok, s') { ReasonsStay(s, s'); }
    else if PageDone(s, limit, s') { ReasonsStay(s, s'); }
    else { TrafficHasReason(s, s'); }
  }

  /** In any run nothing is dispatched but lifecycle events that were committed
      and came live or by a replay of a row that parses. */
  lemma {:induction false} OnlyDueDispatched(t: seq<State>, capacity: nat, limit: nat, i: nat)
    requires limit > 0 && Run(t, capacity, limit) && i < |t|
    ensures AllHadReason(t[i])
  {
    if i > 0 {
      OnlyDueDispatched(t, capacity, limit, i - 1);
      RunKeepsInv(t, capacity, limit, i - 1);
      assert Next(t[i - 1], capacity, limit, t[i]) by { assert StepAt(t, capacity, limit, i); }
      StepHasReason(t[i - 1], capacity, limit, t[i]);
    }
  }

  /** A replay only dispatches rows past its cursor, so it never dispatches one
      twice. */
  lemma ReplayMovesOn(t: seq<State>, capacity: nat, limit: nat, i: nat)
    requires limit > 0 && Run(t, capacity, limit) && i + 1 < |t| && Replay(t[i], t[i + 1])
    ensures t[i].pc.Paging? && t[i].pc.at < |t[i].pc.page|
    ensures t[i].cursor < t[i].pc.page[t[i].pc.at].id == t[i + 1].cursor
  {
    RunKeepsInv(t, capacity, limit, i);
    InvIs(t[i], limit);
  }
}
