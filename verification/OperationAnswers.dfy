/**
 What each operation on one order answers and what it leaves behind, read off the tables, the
 cache, the clock readings and the faults, column by column.
 */
module OperationAnswers {
  import opened Model
  import opened Ledger
  import opened OrderCaching
  import opened StorageSpec

  /** The error of the first of these calls that fails. */
  function FirstError(calls: seq<Call>, f: Faults): Option<Error> {
    if |calls| == 0 then None
    else
      var before := FirstError(calls[..|calls| - 1], f);
      if before.Some? || !f(calls[|calls| - 1]) then before else Some(CallFailed(calls[|calls| - 1]))
  }

  /** The outbox has one more task, unsent and stamped with the time of its insertion. */
  predicate Queued(before: seq<Task>, after: seq<Task>, payload: Payload, at: Time) {
    after == before + [Task("audit_logs", payload, CREATED, 0, None, at, at, None)]
  }

  /** The cache once it was shown this version of the order. */
  function Shown(cache: Rows, order: Order): Rows {
    if order.status == Received || order.status == Issued then cache[order.id := order] else cache - {order.id}
  }

  lemma MergeShows(cache: Rows, order: Order)
    ensures Merge(cache, map[order.id := order], {}) == Shown(cache, order)
    ensures Merge(cache, map[], {order.id}) == cache - {order.id}
  {
  }

  /** The reason why an order is not issued, or not taken back, given its row at that moment. */
  predicate TrueReason(mode: Mode, row: Option<Order>, user: string, now: Time, reason: Reason) {
    if row == None then reason == OrderNotFound
    else
      var order := row.value;
      match reason
      case NotOwner => order.recipientId != user
      case WrongStatus(current) =>
        && order.recipientId == user
        && order.status == current != (if mode == Issuing then Received else Issued)
      case StorageExpired =>
        mode == Issuing && order.recipientId == user && order.status == Received && now > order.storageUntil
      case ReturnExpired =>
        && mode == Accepting && order.recipientId == user && order.status == Issued
        && now - order.updatedAt > 48 * 60 * 60 * 1_000_000_000
      case Nothing =>
        && order.recipientId == user
        && (if mode == Issuing then order.status == Received && now <= order.storageUntil
            else order.status == Issued && now - order.updatedAt <= 48 * 60 * 60 * 1_000_000_000)
      case _ => false
  }

  /** There is only one true reason. */
  lemma OneReason(mode: Mode, row: Option<Order>, user: string, now: Time, reason: Reason, other: Reason)
    ensures TrueReason(mode, row, user, now, reason) && TrueReason(mode, row, user, now, other) ==> reason == other
  {
  }

  lemma {:induction false} FirstOf2(a: Call, b: Call, f: Faults)
    ensures FirstError([a, b], f) ==
            if f(a) then Some(CallFailed(a)) else if f(b) then Some(CallFailed(b)) else None
  {
    assert [a, b][..1] == [a] && [a][..0] == [];
    assert FirstError([a], f) == if f(a) then Some(CallFailed(a)) else None;
  }

  lemma {:induction false} FirstOf3(a: Call, b: Call, c: Call, f: Faults)
    ensures FirstError([a, b, c], f) == if FirstError([a, b], f).Some? then FirstError([a, b], f)
                                        else if f(c) then Some(CallFailed(c)) else None
  {
    assert [a, b, c][..2] == [a, b];
  }

  lemma {:induction false} FirstOf4(a: Call, b: Call, c: Call, d: Call, f: Faults)
    ensures FirstError([a, b, c, d], f) == if FirstError([a, b, c], f).Some? then FirstError([a, b, c], f)
                                           else if f(d) then Some(CallFailed(d)) else None
  {
    assert [a, b, c, d][..3] == [a, b, c];
  }

  /**
   AddOrder returns the error of the first call that fails, where an insert over a used id fails;
   otherwise the order, its history entry and its audit task are there and it is cached, unless
   the commit failed.
   */
  lemma {:induction false} AddAnswer(s: State, order: Order, at: Time, loggedAt: Time, f: Faults)
    ensures var r := Settle(s, f, AddOrderBody(s.db, order, at, loggedAt, f));
            && r.err == (if order.id !in s.db.orders
                         then FirstError([Begin, InsertRow, RecordHistory(0), RecordTask(0)], f)
                         else if f(Begin) then Some(CallFailed(Begin)) else Some(CallFailed(InsertRow)))
            && if r.err == None && !f(Commit) then
                 && r.state.db.orders == s.db.orders[order.id := order]
                 && r.state.db.history == s.db.history + [HistoryEntry(order.id, order.status, at)]
                 && r.state.db.returnRows == s.db.returnRows
                 && Queued(s.db.outbox, r.state.db.outbox,
                           Payload(OrderCreated, order.id, Custom(""), order.status), loggedAt)
                 && r.state.cache == Shown(s.cache, order)
               else r.state == s
  {
    FirstOf2(Begin, InsertRow, f);
    FirstOf3(Begin, InsertRow, RecordHistory(0), f);
    FirstOf4(Begin, InsertRow, RecordHistory(0), RecordTask(0), f);
    ApplyOne(s.db, Created(order, at, loggedAt));
  }

  /** The error of the calls that come first, or else the one of what follows. */
  function OrElse(first: Option<Error>, next: Option<Error>): Option<Error> {
    if first.Some? then first else next
  }

  /** What the event of a change writes. */
  lemma {:induction false} ChangeWrites(db: Db, row: Order, kind: Kind, at: Time, loggedAt: Time)
    ensures var db' := ApplyAll(db, [Changed(row, kind, at, loggedAt)]);
            && db'.orders == db.orders[row.id := row.(status := Target(kind), updatedAt := at)]
            && db'.history == db.history + [HistoryEntry(row.id, Target(kind), at)]
            && db'.returnRows ==
                 db.returnRows + (if kind.TakeBack? then [ReturnEntry(row.id, kind.user, kind.returnedAt)] else [])
            && Queued(db.outbox, db'.outbox, Payload(ActionOf(kind), row.id, row.status, Custom("")), loggedAt)
  {
    ApplyOne(db, Changed(row, kind, at, loggedAt));
  }

  /**
   UpdateOrderStatus fails on a missing row and with the first call that fails, and on nothing
   else. The same status only refreshes the cache; another one is in the row, the history, the
   audit tasks and the cache, unless the commit failed.
   */
  lemma {:induction false} OverwriteAnswer(s: State, id: string, status: Status, at: Time, loggedAt: Time, f: Faults)
    requires Keyed(s.db.orders)
    ensures var r := Settle(s, f, UpdateStatusBody(s.db, id, status, at, loggedAt, f));
            && r.err == OrElse(FirstError([Begin, ReadOrder(0)], f),
                               if id !in s.db.orders then Some(Refused(OrderNotFound))
                               else if s.db.orders[id].status == status then None
                               else FirstError([UpdateRow(0), RecordHistory(0), RecordTask(0)], f))
            && if r.err == None && !f(Commit) then
                 var row := s.db.orders[id];
                 var row' := if row.status == status then row else row.(status := status, updatedAt := at);
                 && r.state.cache == Shown(s.cache, row')
                 && if row.status == status then r.state.db == s.db
                    else
                      && r.state.db.orders == s.db.orders[id := row']
                      && r.state.db.history == s.db.history + [HistoryEntry(id, status, at)]
                      && r.state.db.returnRows == s.db.returnRows
                      && Queued(s.db.outbox, r.state.db.outbox,
                                Payload(StatusUpdated, id, row.status, Custom("")), loggedAt)
               else r.state == s
  {
    FirstOf2(Begin, ReadOrder(0), f);
    FirstOf2(UpdateRow(0), RecordHistory(0), f);
    FirstOf3(UpdateRow(0), RecordHistory(0), RecordTask(0), f);
    hide ApplyAll, FirstError, Queued, Merge, Shown;
    if id !in s.db.orders || FirstError([Begin, ReadOrder(0)], f).Some? {
    } else if s.db.orders[id].status == status {
      ApplyNone(s.db);
      MergeShows(s.cache, s.db.orders[id]);
    } else if FirstError([UpdateRow(0), RecordHistory(0), RecordTask(0)], f) == None && !f(Commit) {
      ChangeWrites(s.db, s.db.orders[id], SetStatus(status), at, loggedAt);
      MergeShows(s.cache, After(s.db.orders[id], SetStatus(status), at));
      assert s.db.returnRows + [] == s.db.returnRows;
    }
  }

  lemma {:induction false} ExceptMembers<T(!new)>(rows: seq<T>, key: T -> string, id: string)
    ensures forall row :: row in RowsExcept(rows, key, id) <==> row in rows && key(row) != id
  {
    if |rows| > 0 {
      ExceptMembers(rows[..|rows| - 1], key, id);
      assert rows == rows[..|rows| - 1] + [rows[|rows| - 1]];
    }
  }

  /** Of the history and the return rows exactly those of this order are gone; the others keep their order. */
  ghost predicate Erased(before: Db, after: Db, id: string) {
    && (forall h :: h in after.history <==> h in before.history && h.orderId != id)
    && (forall row :: row in after.returnRows <==> row in before.returnRows && row.orderId != id)
    && (forall other :: other != id ==>
          History(after, other) == History(before, other) && Returns(after, other) == Returns(before, other))
  }

  lemma {:induction false} CascadeErases(before: Db, after: Db, id: string)
    requires after.history == RowsExcept(before.history, HistoryKey, id)
    requires after.returnRows == RowsExcept(before.returnRows, ReturnKey, id)
    ensures Erased(before, after, id)
  {
    ExceptMembers(before.history, HistoryKey, id);
    ExceptMembers(before.returnRows, ReturnKey, id);
    forall other | other != id
      ensures History(after, other) == History(before, other) && Returns(after, other) == Returns(before, other)
    {
      RowsOfExcept(before.history, HistoryKey, id, other);
      RowsOfExcept(before.returnRows, ReturnKey, id, other);
    }
  }

  /**
   DeleteOrder succeeds exactly if its calls work, with or without a row. Then the row, its
   history and its returns are gone, the cache has forgotten the id and the audit task is written,
   unless the commit failed.
   */
  lemma {:induction false} DeleteAnswer(s: State, id: string, loggedAt: Time, f: Faults)
    ensures var r := Settle(s, f, DeleteOrderBody(s.db, id, loggedAt, f));
            && r.err == FirstError([Begin, DeleteRow, RecordTask(0)], f)
            && if r.err == None && !f(Commit) then
                 && r.state.db.orders == s.db.orders - {id}
                 && Queued(s.db.outbox, r.state.db.outbox,
                           Payload(OrderDeleted, id, Custom(""), Custom("")), loggedAt)
                 && r.state.cache == s.cache - {id}
                 && if id in s.db.orders then Erased(s.db, r.state.db, id)
                    else r.state.db.history == s.db.history && r.state.db.returnRows == s.db.returnRows
               else r.state == s
  {
    FirstOf2(Begin, DeleteRow, f);
    FirstOf3(Begin, DeleteRow, RecordTask(0), f);
    var e := Removed(id, id in s.db.orders, loggedAt);
    ApplyOne(s.db, e);
    if e.existed {
      CascadeErases(s.db, Apply(s.db, e), id);
    }
    hide RowsExcept, Erased;
  }

  /**
   AddReturn fails with the first call that fails or with the true reason against the return, and
   on nothing else. Otherwise the row, its return row, its history entry and its audit task are
   written with the three clock readings and the cache has forgotten the id, unless the commit
   failed.
   */
  lemma {:induction false} ReturnAnswer(s: State, id: string, user: string, clock: ReturnClock, f: Faults)
    requires Keyed(s.db.orders)
    ensures var r := Settle(s, f, AddReturnBody(s.db, id, user, clock, f));
            var read := FirstError([Begin, ReadOrder(0)], f);
            var allowed := TrueReason(Accepting, RowOf(s.db, id), user, clock.checkedAt, Nothing);
            && (if read == None && !allowed then
                  && r.err.Some? && r.err.value.Refused?
                  && TrueReason(Accepting, RowOf(s.db, id), user, clock.checkedAt, r.err.value.reason)
                else
                  r.err ==
                  OrElse(read, FirstError([UpdateRow(0), RecordReturn(0), RecordHistory(0), RecordTask(0)], f)))
            && if r.err == None && !f(Commit) then
                 && id in s.db.orders
                 && r.state.db.orders ==
                      s.db.orders[id := s.db.orders[id].(status := Returned, updatedAt := clock.changedAt)]
                 && r.state.db.history == s.db.history + [HistoryEntry(id, Returned, clock.changedAt)]
                 && r.state.db.returnRows == s.db.returnRows + [ReturnEntry(id, user, clock.returnedAt)]
                 && Queued(s.db.outbox, r.state.db.outbox,
                           Payload(OrderReturned, id, Issued, Custom("")), clock.loggedAt)
                 && r.state.cache == s.cache - {id}
               else r.state == s
  {
    FirstOf2(Begin, ReadOrder(0), f);
    FirstOf2(UpdateRow(0), RecordReturn(0), f);
    FirstOf3(UpdateRow(0), RecordReturn(0), RecordHistory(0), f);
    FirstOf4(UpdateRow(0), RecordReturn(0), RecordHistory(0), RecordTask(0), f);
    if id in s.db.orders {
      ChangeWrites(s.db, s.db.orders[id], TakeBack(user, Direct, clock.checkedAt, clock.returnedAt), clock.changedAt,
          clock.loggedAt);
    }
    hide ApplyAll, FirstError, Queued;
  }

  /** GetOrder answers a cached order without a read; otherwise with the row, which it shows to the cache. */
  lemma GetAnswer(s: State, id: string, f: Faults)
    requires Keyed(s.db.orders)
    ensures var r := GetOrderRun(s, id, f);
            && r.state.db == s.db
            && (r.answer == Unavailable <==> id !in s.cache && f(ReadOrder(0)))
            && (r.answer == NotFound <==> id !in s.cache && !f(ReadOrder(0)) && id !in s.db.orders)
            && (id in s.cache ==> r.answer == Answered(s.cache[id]))
            && (r.answer.Answered? && id !in s.cache ==> r.answer == Answered(s.db.orders[id]))
            && r.state.cache == (if r.answer.Answered? && id !in s.cache then Shown(s.cache, s.db.orders[id])
                                 else s.cache)
  {
  }
}
