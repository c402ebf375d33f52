/** What a bulk operation writes besides the order rows: one record per reported success, in the order of the ids. */
module BulkRecords {
  import opened Model
  import opened Ledger
  import opened OrderCaching
  import opened StorageSpec

  /** The ids of the items that report success. */
  function Succeeded(results: seq<ItemResult>): seq<string> {
    if |results| == 0 then []
    else
      var last := results[|results| - 1];
      Succeeded(results[..|results| - 1]) + if last.success then [last.orderId] else []
  }

  function Entries(ids: seq<string>, status: Status, now: Time): (rows: seq<HistoryEntry>)
    ensures |rows| == |ids|
  {
    seq(|ids|, i requires 0 <= i < |ids| => HistoryEntry(ids[i], status, now))
  }

  function Receipts(ids: seq<string>, user: string, now: Time): (rows: seq<ReturnEntry>)
    ensures |rows| == |ids|
  {
    seq(|ids|, i requires 0 <= i < |ids| => ReturnEntry(ids[i], user, now))
  }

  function Audits(mode: Mode, ids: seq<string>, clock: nat -> Time): (tasks: seq<Task>)
    ensures |tasks| == |ids|
  {
    var action := if mode == Issuing then OrderIssued else OrderReturnAccepted;
    var oldStatus := if mode == Issuing then Received else Issued;
    seq(|ids|, i requires 0 <= i < |ids| =>
      Task("audit_logs", Payload(action, ids[i], oldStatus, Custom("")), CREATED, 0, None, clock(i), clock(i), None))
  }

  /** The rows of `after` are those of `before` and, behind them, the records of these successes. */
  predicate Records(before: Db, after: Db, mode: Mode, user: string, ids: seq<string>, now: Time) {
    && after.history == before.history + Entries(ids, if mode == Issuing then Issued else Returned, now)
    && after.returnRows == before.returnRows + if mode == Issuing then [] else Receipts(ids, user, now)
  }

  /** A loop without a hard error has recorded its successes, and has their audit tasks in hand. */
  ghost predicate Recorded(l: Loop, db: Db, mode: Mode, user: string, now: Time, clock: nat -> Time) {
    && Records(db, l.rows, mode, user, Succeeded(l.results), now)
    && Tasks(l.events) == Audits(mode, Succeeded(l.results), clock)
  }

  lemma {:induction false} OneMoreRecord(
      mode: Mode, user: string, ids: seq<string>, id: string, now: Time, clock: nat -> Time)
    ensures forall status :: Entries(ids + [id], status, now) ==
              Entries(ids, status, now) + [HistoryEntry(id, status, now)]
    ensures Receipts(ids + [id], user, now) == Receipts(ids, user, now) + [ReturnEntry(id, user, now)]
    ensures |Audits(mode, ids + [id], clock)| == |ids| + 1
              && Audits(mode, ids + [id], clock)[..|ids|] == Audits(mode, ids, clock)
  {
  }

  lemma {:induction false} OneMoreTask(es: seq<Event>, e: Event)
    ensures Tasks(es + [e]) == Tasks(es) + [TaskOf(e)]
  {
  }

  lemma {:induction false} OneMoreSuccess(results: seq<ItemResult>, r: ItemResult)
    ensures Succeeded(results + [r]) == Succeeded(results) + if r.success then [r.orderId] else []
  {
    assert (results + [r])[..|results|] == results;
  }

  lemma {:induction false} ExtendRecorded(
      l: Loop, db: Db, v: Verdict, mode: Mode, user: string, now: Time, clock: nat -> Time)
    requires Recorded(l, db, mode, user, now, clock) && Keyed(l.rows.orders)
    requires v.err == None && (v.result.success <==> v.change.Some?)
    requires v.change.Some? ==>
               v.change.value.id == v.result.orderId && Guard(v.change.value, KindFor(mode, user, now), now)
    ensures Recorded(Extend(l, v, KindFor(mode, user, now), now, clock(|l.events|)), db, mode, user, now, clock)
  {
    var kind, ids, id := KindFor(mode, user, now), Succeeded(l.results), v.result.orderId;
    assert |l.events| == |Tasks(l.events)| == |ids|;
    OneMoreSuccess(l.results, v.result);
    if v.change.Some? {
      var e := Changed(v.change.value, kind, now, clock(|l.events|));
      OneMoreRecord(mode, user, ids, id, now, clock);
      OneMoreTask(l.events, e);
      var audits := Audits(mode, ids + [id], clock);
      assert audits == audits[..|ids|] + [audits[|ids|]];
      assert TaskOf(e) == audits[|ids|];
      hide Succeeded, Entries, Receipts, Audits, Tasks, TaskOf, Guard;
    }
  }

  lemma {:induction false} ItemRecorded(
      l: Loop, db: Db, mode: Mode, user: string, id: string, i: nat, now: Time, clock: nat -> Time, f: Faults)
    requires l.err == None && Recorded(l, db, mode, user, now, clock) && Keyed(l.rows.orders)
    requires Item(l, mode, user, id, i, now, clock, f).err == None
    ensures Recorded(Item(l, mode, user, id, i, now, clock, f), db, mode, user, now, clock)
  {
    var v := Judge(l.rows.orders, mode, user, id, i, now, f);
    hide Judge, Recorded, ApplyRows, Guard;
    assert v.err == None;
    hide Extend;
    ExtendRecorded(l, db, v, mode, user, now, clock);
  }

  lemma {:induction false} LoopRecorded(
      db: Db, mode: Mode, user: string, ids: seq<string>, now: Time, clock: nat -> Time, f: Faults, n: nat)
    requires Keyed(db.orders) && n <= |ids| && Looped(db, mode, user, ids, now, clock, f, n).err == None
    ensures Recorded(Looped(db, mode, user, ids, now, clock, f, n), db, mode, user, now, clock)
  {
    hide Item;
    if n > 0 {
      hide Recorded;
      LoopRecorded(db, mode, user, ids, now, clock, f, n - 1);
      TouchedRows(db, mode, user, ids, now, clock, f, n - 1);
      ItemRecorded(Looped(db, mode, user, ids, now, clock, f, n - 1), db, mode, user, ids[n - 1], n - 1, now, clock, f);
    }
  }

  lemma {:induction false} NoneSucceeded(results: seq<ItemResult>)
    requires forall i :: 0 <= i < |results| ==> !results[i].success
    ensures Succeeded(results) == []
  {
    if |results| > 0 {
      NoneSucceeded(results[..|results| - 1]);
    }
  }

  /**
   Without an error, the history, the returns table and the outbox have grown by exactly the
   records of the items that report success, in their order: also when the commit failed, and
   then no item reports success and nothing at all has changed.
   */
  lemma {:induction false} BulkRecorded(
      s: State, mode: Mode, user: string, ids: seq<string>, now: Time, clock: nat -> Time, f: Faults)
    requires Keyed(s.db.orders)
    ensures var r := BulkRun(s, mode, user, ids, now, clock, f);
            var winners := Succeeded(r.results);
            r.err == None ==>
              && Records(s.db, r.state.db, mode, user, winners, now)
              && r.state.db.outbox == s.db.outbox + Audits(mode, winners, clock)
              && (f(Commit) ==> winners == [] && r.state == s)
  {
    hide Looped;
    var r := BulkRun(s, mode, user, ids, now, clock, f);
    if r.err == None {
      if |ids| > 0 && !f(Commit) {
        LoopRecorded(s.db, mode, user, ids, now, clock, f, |ids|);
      } else {
        NoneSucceeded(r.results);
        assert s.db.history + [] == s.db.history && s.db.returnRows + [] == s.db.returnRows
            && s.db.outbox + [] == s.db.outbox;
      }
    }
  }
}
