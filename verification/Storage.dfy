/** The transactional order store: every operation stages its statements, commits, and only then touches the cache. */
module StorageService {
  import opened Model
  import opened Ledger
  import opened OrderCaching
  import opened Tables
  import opened StorageSpec

  /** The transaction holds the rows that the bulk loop has reached. */
  ghost predicate InStep(tx: Transaction, l: Loop, db: Db)
    reads tx
  {
    tx.staged == l.rows && Keyed(l.rows.orders) && l.rows.outbox == db.outbox
  }

  /** The statements of UpdateOrderStatus; `updated` is the row for the cache. */
  method StageStatus(tx: Transaction, id: string, status: Status, at: Time, loggedAt: Time, f: Faults)
    returns (err: Option<Error>, updated: Order)
    requires Keyed(tx.staged.orders)
    modifies tx
    ensures match UpdateStatusBody(old(tx.staged), id, status, at, loggedAt, f)
            case Rejected(e) => err == Some(e)
            case Ready(events, puts, drops) =>
              && err == None && Keyed(tx.staged.orders) && puts == map[updated.id := updated] && drops == {}
              && (if |events| == 0 then tx.staged == old(tx.staged)
                  else |events| == 1 && tx.staged == Apply(old(tx.staged), events[0]))
  {
    err, updated := None, *;
    var found := tx.GetByID(id, f(ReadOrder(0)));
    if found.ReadFailed? {
      return Some(CallFailed(ReadOrder(0))), updated;
    }
    if found.Missing? {
      return Some(Refused(OrderNotFound)), updated;
    }
    var oldStatus := found.order.status;
    updated := found.order;
    if oldStatus == status {
      return;
    }
    updated := updated.(status := status, updatedAt := at);
    var ok := tx.UpdateOrder(updated, f(UpdateRow(0)));
    if !ok {
      return Some(CallFailed(UpdateRow(0))), updated;
    }
    ok := tx.InsertHistory(HistoryEntry(id, status, at), f(RecordHistory(0)));
    if !ok {
      return Some(CallFailed(RecordHistory(0))), updated;
    }
    var payload := CreateAuditPayload(StatusUpdated, id, map[OldStatusKey := oldStatus, NewStatusKey := status]);
    ok := tx.InsertTask(payload, loggedAt, f(RecordTask(0)));
    if !ok {
      return Some(CallFailed(RecordTask(0))), updated;
    }
    assert old(tx.staged).returnRows + [] == old(tx.staged).returnRows;
  }

  /** The statements of AddReturn. */
  method StageReturn(
      tx: Transaction, id: string, user: string, clock: ReturnClock, f: Faults) returns (err: Option<Error>)
    requires Keyed(tx.staged.orders)
    modifies tx
    ensures match AddReturnBody(old(tx.staged), id, user, clock, f)
            case Rejected(e) => err == Some(e)
            case Ready(events, puts, drops) =>
              err == None && |events| == 1 && tx.staged == Apply(old(tx.staged), events[0]) && Keyed(tx.staged.orders)
  {
    var found := tx.GetByID(id, f(ReadOrder(0)));
    if found.ReadFailed? {
      return Some(CallFailed(ReadOrder(0)));
    }
    if found.Missing? {
      return Some(Refused(OrderNotFound));
    }
    var row := found.order;
    if row.recipientId != user {
      return Some(Refused(NotOwner));
    }
    if row.status != Issued {
      return Some(Refused(WrongStatus(row.status)));
    }
    if clock.checkedAt - row.updatedAt > RETURN_WINDOW {
      return Some(Refused(ReturnExpired));
    }
    var oldStatus := row.status;
    var ok := tx.UpdateOrder(row.(status := Returned, updatedAt := clock.changedAt), f(UpdateRow(0)));
    if !ok {
      return Some(CallFailed(UpdateRow(0)));
    }
    ok := tx.InsertReturn(ReturnEntry(id, user, clock.returnedAt), f(RecordReturn(0)));
    if !ok {
      return Some(CallFailed(RecordReturn(0)));
    }
    ok := tx.InsertHistory(HistoryEntry(id, Returned, clock.changedAt), f(RecordHistory(0)));
    if !ok {
      return Some(CallFailed(RecordHistory(0)));
    }
    var payload := CreateAuditPayload(OrderReturned, id, map[OldStatusKey := oldStatus, NewStatusKey := Returned]);
    ok := tx.InsertTask(payload, clock.loggedAt, f(RecordTask(0)));
    if !ok {
      return Some(CallFailed(RecordTask(0)));
    }
    err := None;
  }

  /** One iteration of IssueOrders; `updated` and `audit` count only when the item succeeds. */
  method ProcessOrder(
      tx: Transaction, ghost l: Loop, user: string, id: string, i: nat, now: Time, clock: nat -> Time,
      f: Faults)
    returns (result: ItemResult, err: Option<Error>, updated: Order, audit: Payload)
    requires l.err == None && tx.staged == l.rows && Keyed(l.rows.orders)
    modifies tx
    ensures var l' := Item(l, Issuing, user, id, i, now, clock, f);
            && l'.results == l.results + [result] && l'.err == err
            && (err == None ==> tx.staged == l'.rows && Keyed(l'.rows.orders) && l'.rows.outbox == l.rows.outbox)
            && (if result.success then
                  && err == None && l'.touched == l.touched[id := updated]
                  && |l'.events| == |l.events| + 1 && l'.events[..|l.events|] == l.events
                  && audit == AuditOf(l'.events[|l.events|]) && l'.events[|l.events|].loggedAt == clock(|l.events|)
                else
                  l'.touched == l.touched && l'.events == l.events)
  {
    err := None;
    updated := *;
    audit := *;
    var found := tx.GetByID(id, f(ReadOrder(i)));
    if found.Missing? {
      result := ItemResult(id, false, OrderNotFound);
      return;
    }
    if found.ReadFailed? {
      result := ItemResult(id, false, RetrieveFailed);
      err := Some(CallFailed(ReadOrder(i)));
      return;
    }
    var row := found.order;
    var reason := Nothing;
    if row.recipientId != user {
      reason := NotOwner;
    } else if row.status != Received {
      reason := WrongStatus(row.status);
    } else if now > row.storageUntil {
      reason := StorageExpired;
    }
    if reason != Nothing {
      result := ItemResult(id, false, reason);
      return;
    }
    var oldStatus := row.status;
    updated := row.(status := Issued, updatedAt := now);
    var ok := tx.UpdateOrder(updated, f(UpdateRow(i)));
    if !ok {
      result := ItemResult(id, false, UpdateFailed);
      err := Some(CallFailed(UpdateRow(i)));
      return;
    }
    ok := tx.InsertHistory(HistoryEntry(id, Issued, now), f(RecordHistory(i)));
    if !ok {
      result := ItemResult(id, false, HistoryFailed);
      err := Some(CallFailed(RecordHistory(i)));
      return;
    }
    assert l.rows.returnRows + [] == l.rows.returnRows;
    result := ItemResult(id, true, Nothing);
    audit := CreateAuditPayload(OrderIssued, id, map[OldStatusKey := oldStatus, NewStatusKey := Issued]);
  }

  lemma {:induction false} ReturnWritten(db: Db, row: Order, user: string, now: Time, loggedAt: Time)
    requires row.id in db.orders && db.orders[row.id] == row
    ensures ApplyRows(db, Changed(row, KindFor(Accepting, user, now), now, loggedAt)) ==
            db.(returnRows := db.returnRows + [ReturnEntry(row.id, user, now)],
                orders := db.orders[row.id := row.(status := Returned, updatedAt := now)],
                history := db.history + [HistoryEntry(row.id, Returned, now)])
  {
  }

  /** One iteration of AcceptReturns; `audit` counts only when the item succeeds. */
  method ProcessReturn(
      tx: Transaction, ghost l: Loop, user: string, id: string, i: nat, now: Time, clock: nat -> Time,
      f: Faults)
    returns (result: ItemResult, err: Option<Error>, audit: Payload)
    requires l.err == None && tx.staged == l.rows && Keyed(l.rows.orders)
    modifies tx
    ensures var l' := Item(l, Accepting, user, id, i, now, clock, f);
            && l'.results == l.results + [result] && l'.err == err
            && (err == None ==> tx.staged == l'.rows && Keyed(l'.rows.orders) && l'.rows.outbox == l.rows.outbox)
            && (if result.success then
                  && err == None && l'.touched.Keys == l.touched.Keys + {id}
                  && |l'.events| == |l.events| + 1 && l'.events[..|l.events|] == l.events
                  && audit == AuditOf(l'.events[|l.events|]) && l'.events[|l.events|].loggedAt == clock(|l.events|)
                else
                  l'.touched == l.touched && l'.events == l.events)
  {
    hide Guard, ApplyRows;
    ghost var v := Judge(l.rows.orders, Accepting, user, id, i, now, f);
    err := None;
    audit := *;
    var found := tx.GetByID(id, f(ReadOrder(i)));
    if found.Missing? {
      result := ItemResult(id, false, OrderNotFound);
      return;
    }
    if found.ReadFailed? {
      result := ItemResult(id, false, RetrieveFailed);
      err := Some(CallFailed(ReadOrder(i)));
      return;
    }
    var row := found.order;
    var reason := Nothing;
    if row.recipientId != user {
      reason := NotOwner;
    } else if row.status != Issued {
      reason := WrongStatus(row.status);
    } else if now - row.updatedAt > RETURN_WINDOW {
      reason := ReturnExpired;
    }
    assert reason == Refusal(Accepting, row, user, now);
    hide Refusal;
    if reason != Nothing {
      result := ItemResult(id, false, reason);
      return;
    }
    var oldStatus := row.status;
    var ok := tx.InsertReturn(ReturnEntry(id, user, now), f(RecordReturn(i)));
    if !ok {
      result := ItemResult(id, false, ReturnFailed);
      err := Some(CallFailed(RecordReturn(i)));
      return;
    }
    ok := tx.UpdateOrder(row.(status := Returned, updatedAt := now), f(UpdateRow(i)));
    if !ok {
      result := ItemResult(id, false, UpdateFailed);
      err := Some(CallFailed(UpdateRow(i)));
      return;
    }
    ok := tx.InsertHistory(HistoryEntry(id, Returned, now), f(RecordHistory(i)));
    if !ok {
      result := ItemResult(id, false, HistoryFailed);
      err := Some(CallFailed(RecordHistory(i)));
      return;
    }
    assert v.change == Some(row);
    ReturnWritten(l.rows, row, user, now, clock(|l.events|));
    result := ItemResult(id, true, Nothing);
    audit := CreateAuditPayload(OrderReturnAccepted, id, map[OldStatusKey := oldStatus, NewStatusKey := Returned]);
  }

  /** The audit payloads collected by a bulk loop are those of its events, stamped one by one on insertion. */
  ghost predicate Logged(audits: seq<Payload>, events: seq<Event>, clock: nat -> Time) {
    && |audits| == |events|
    && forall k :: 0 <= k < |events| ==> audits[k] == AuditOf(events[k]) && events[k].loggedAt == clock(k)
  }

  lemma NothingLogged(clock: nat -> Time)
    ensures Logged([], [], clock)
  {
  }

  lemma LoggedOneMore(audits: seq<Payload>, events: seq<Event>, audit: Payload, events': seq<Event>, clock: nat -> Time)
    requires Logged(audits, events, clock)
    requires |events'| == |events| + 1 && events'[..|events|] == events
    requires audit == AuditOf(events'[|events|]) && events'[|events|].loggedAt == clock(|events|)
    ensures Logged(audits + [audit], events', clock)
  {
  }

  /** Inserts the audit tasks of a bulk operation, up to the first failure. */
  method InsertTasks(tx: Transaction, audits: seq<Payload>, ghost events: seq<Event>, clock: nat -> Time, f: Faults)
    returns (fault: Option<nat>)
    requires Logged(audits, events, clock)
    modifies tx
    ensures fault == TaskFault(f, 0, |events|)
    ensures fault == None ==> tx.staged == old(tx.staged).(outbox := old(tx.staged).outbox + Tasks(events))
  {
    var k := 0;
    while k < |audits|
      invariant 0 <= k <= |audits|
      invariant TaskFault(f, 0, |events|) == TaskFault(f, k, |events|)
      invariant tx.staged == old(tx.staged).(outbox := old(tx.staged).outbox + Tasks(events)[..k])
    {
      var ok := tx.InsertTask(audits[k], clock(k), f(RecordTask(k)));
      if !ok {
        return Some(k);
      }
      k := k + 1;
    }
    fault := None;
  }

  method FailAll(results: seq<ItemResult>, reason: Reason) returns (failed: seq<ItemResult>)
    ensures failed == Demote(results, reason)
  {
    failed := results;
    for i := 0 to |results|
      invariant |failed| == |results|
      invariant forall j :: 0 <= j < |results| ==> failed[j] == if j < i then Demote(results, reason)[j] else results[j]
    {
      if failed[i].success {
        failed := failed[i := ItemResult(failed[i].orderId, false, reason)];
      }
    }
  }

  /** Once the loop has hit a hard error, further ids do not change its variables. */
  lemma {:induction false} LoopStopped(
      db: Db, mode: Mode, user: string, ids: seq<string>, now: Time, clock: nat -> Time, f: Faults, n: nat)
    requires n <= |ids|
    requires n == |ids| || Looped(db, mode, user, ids, now, clock, f, n).err.Some?
    ensures Looped(db, mode, user, ids, now, clock, f, |ids|) == Looped(db, mode, user, ids, now, clock, f, n)
    decreases |ids| - n
  {
    if n < |ids| {
      LoopStopped(db, mode, user, ids, now, clock, f, n + 1);
    }
  }

  class Storage {
    const db: Database
    const cache: OrderCache

    constructor (db: Database, cache: OrderCache)
      ensures this.db == db && this.cache == cache
    {
      this.db := db;
      this.cache := cache;
    }

    ghost function View(): State
      reads db, cache
    {
      State(db.tables, cache.entries)
    }

    /** The id column is the primary key. */
    ghost predicate Valid()
      reads db
    {
      Keyed(db.tables.orders)
    }

    method AddOrder(order: Order, at: Time, loggedAt: Time, f: Faults) returns (err: Option<Error>)
      requires Valid()
      modifies db, cache
      ensures Valid()
      ensures Outcome(View(), err) == Settle(old(View()), f, AddOrderBody(old(db.tables), order, at, loggedAt, f))
    {
      if f(Begin) {
        return Some(CallFailed(Begin));
      }
      var tx := new Transaction(db.tables);
      var ok := tx.InsertOrder(order, f(InsertRow));
      if !ok {
        return Some(CallFailed(InsertRow));
      }
      ok := tx.InsertHistory(HistoryEntry(order.id, order.status, at), f(RecordHistory(0)));
      if !ok {
        return Some(CallFailed(RecordHistory(0)));
      }
      var payload := CreateAuditPayload(OrderCreated, order.id, map[StatusKey := order.status]);
      ok := tx.InsertTask(payload, loggedAt, f(RecordTask(0)));
      if !ok {
        return Some(CallFailed(RecordTask(0)));
      }
      ApplyOne(db.tables, Created(order, at, loggedAt));
      var committed := db.Commit(tx, f(Commit));
      if committed {
        cache.Set(order);
      }
      err := None;
    }

    method GetOrder(id: string, f: Faults) returns (answer: Answer)
      requires Valid()
      modifies cache
      ensures Fetched(View(), answer) == GetOrderRun(old(View()), id, f)
    {
      var cached := cache.Get(id);
      if cached.Some? {
        return Answered(cached.value);
      }
      var found := db.GetByID(id, f(ReadOrder(0)));
      match found
      case ReadFailed => answer := Unavailable;
      case Missing => answer := NotFound;
      case Found(row) =>
        cache.Set(row);
        answer := Answered(row);
    }

    method UpdateOrderStatus(
        id: string, status: Status, at: Time, loggedAt: Time, f: Faults) returns (err: Option<Error>)
      requires Valid()
      modifies db, cache
      ensures Valid()
      ensures Outcome(View(), err) ==
                Settle(old(View()), f, UpdateStatusBody(old(db.tables), id, status, at, loggedAt, f))
    {
      if f(Begin) {
        return Some(CallFailed(Begin));
      }
      var tx := new Transaction(db.tables);
      var updated;
      err, updated := StageStatus(tx, id, status, at, loggedAt, f);
      if err.Some? {
        return;
      }
      ghost var body := UpdateStatusBody(db.tables, id, status, at, loggedAt, f);
      if |body.events| == 1 {
        ApplyOne(db.tables, body.events[0]);
      }
      var committed := db.Commit(tx, f(Commit));
      if committed {
        cache.Set(updated);
      }
    }

    method DeleteOrder(id: string, loggedAt: Time, f: Faults) returns (err: Option<Error>)
      requires Valid()
      modifies db, cache
      ensures Valid()
      ensures Outcome(View(), err) == Settle(old(View()), f, DeleteOrderBody(old(db.tables), id, loggedAt, f))
    {
      if f(Begin) {
        return Some(CallFailed(Begin));
      }
      var tx := new Transaction(db.tables);
      var ok := tx.DeleteOrder(id, f(DeleteRow));
      if !ok {
        return Some(CallFailed(DeleteRow));
      }
      ok := tx.InsertTask(CreateAuditPayload(OrderDeleted, id, map[]), loggedAt, f(RecordTask(0)));
      if !ok {
        return Some(CallFailed(RecordTask(0)));
      }
      ApplyOne(db.tables, Removed(id, id in db.tables.orders, loggedAt));
      var committed := db.Commit(tx, f(Commit));
      if committed {
        cache.Delete(id);
      }
      err := None;
    }

    method AddReturn(id: string, user: string, clock: ReturnClock, f: Faults) returns (err: Option<Error>)
      requires Valid()
      modifies db, cache
      ensures Valid()
      ensures Outcome(View(), err) == Settle(old(View()), f, AddReturnBody(old(db.tables), id, user, clock, f))
    {
      if f(Begin) {
        return Some(CallFailed(Begin));
      }
      var tx := new Transaction(db.tables);
      err := StageReturn(tx, id, user, clock, f);
      if err.Some? {
        return;
      }
      ApplyOne(db.tables, AddReturnBody(db.tables, id, user, clock, f).events[0]);
      var committed := db.Commit(tx, f(Commit));
      if committed {
        cache.Delete(id);
      }
    }

    method IssueOrders(user: string, ids: seq<string>, now: Time, clock: nat -> Time, f: Faults)
      returns (results: seq<ItemResult>, err: Option<Error>)
      requires Valid()
      modifies db, cache
      ensures Valid()
      ensures BulkOutcome(View(), results, err) == BulkRun(old(View()), Issuing, user, ids, now, clock, f)
    {
      hide Item, Logged, TaskFault, Merge, Demote;
      results, err := [], None;
      if |ids| == 0 {
        return;
      }
      if f(Begin) {
        return [], Some(CallFailed(Begin));
      }
      var tx := new Transaction(db.tables);
      var touched: Rows := map[];
      var audits: seq<Payload> := [];
      ghost var l := Looped(db.tables, Issuing, user, ids, now, clock, f, 0);
      var i := 0;
      NothingLogged(clock);
      while i < |ids| && err == None
        invariant 0 <= i <= |ids|
        invariant db.tables == old(db.tables) && cache.entries == old(cache.entries)
        invariant l == Looped(db.tables, Issuing, user, ids, now, clock, f, i)
        invariant results == l.results && err == l.err
        invariant err == None ==> InStep(tx, l, db.tables) && touched == l.touched && Logged(audits, l.events, clock)
      {
        var result, e, updated, audit := ProcessOrder(tx, l, user, ids[i], i, now, clock, f);
        ghost var l' := Item(l, Issuing, user, ids[i], i, now, clock, f);
        results, err := results + [result], e;
        if result.success {
          touched := touched[ids[i] := updated];
          LoggedOneMore(audits, l.events, audit, l'.events, clock);
          audits := audits + [audit];
        }
        l, i := l', i + 1;
      }
      LoopStopped(db.tables, Issuing, user, ids, now, clock, f, i);
      if err.Some? {
        return;
      }
      var committed;
      results, err, committed := Conclude(tx, l, results, audits, clock, f);
      if committed {
        TouchedRows(old(db.tables), Issuing, user, ids, now, clock, f, i);
        PutAll(touched);
      }
    }

    method AcceptReturns(user: string, ids: seq<string>, now: Time, clock: nat -> Time, f: Faults)
      returns (results: seq<ItemResult>, err: Option<Error>)
      requires Valid()
      modifies db, cache
      ensures Valid()
      ensures BulkOutcome(View(), results, err) == BulkRun(old(View()), Accepting, user, ids, now, clock, f)
    {
      hide Item, Logged, TaskFault, Merge, Demote;
      results, err := [], None;
      if |ids| == 0 {
        return;
      }
      if f(Begin) {
        return [], Some(CallFailed(Begin));
      }
      var tx := new Transaction(db.tables);
      var deleted: set<string> := {};
      var audits: seq<Payload> := [];
      ghost var l := Looped(db.tables, Accepting, user, ids, now, clock, f, 0);
      var i := 0;
      NothingLogged(clock);
      while i < |ids| && err == None
        invariant 0 <= i <= |ids|
        invariant db.tables == old(db.tables) && cache.entries == old(cache.entries)
        invariant l == Looped(db.tables, Accepting, user, ids, now, clock, f, i)
        invariant results == l.results && err == l.err
        invariant err == None ==>
                    InStep(tx, l, db.tables) && deleted == l.touched.Keys && Logged(audits, l.events, clock)
      {
        var result, e, audit := ProcessReturn(tx, l, user, ids[i], i, now, clock, f);
        ghost var l' := Item(l, Accepting, user, ids[i], i, now, clock, f);
        results, err := results + [result], e;
        if result.success {
          deleted := deleted + {ids[i]};
          LoggedOneMore(audits, l.events, audit, l'.events, clock);
          audits := audits + [audit];
        }
        l, i := l', i + 1;
      }
      LoopStopped(db.tables, Accepting, user, ids, now, clock, f, i);
      if err.Some? {
        return;
      }
      var committed;
      results, err, committed := Conclude(tx, l, results, audits, clock, f);
      if committed {
        DropAll(deleted);
      }
    }

    /** The audit tasks of a bulk operation and its deferred rollback or commit. */
    method Conclude(
        tx: Transaction, ghost l: Loop, looped: seq<ItemResult>, audits: seq<Payload>, clock: nat -> Time,
        f: Faults)
      returns (results: seq<ItemResult>, err: Option<Error>, committed: bool)
      requires InStep(tx, l, db.tables) && Logged(audits, l.events, clock) && looped == l.results
      modifies db, tx
      ensures var fault := TaskFault(f, 0, |l.events|);
              && committed == (fault == None && !f(Commit))
              && err == (if fault.Some? then Some(CallFailed(RecordTask(fault.value))) else None)
              && results == (if committed then l.results
                             else Demote(l.results, if fault.Some? then AuditFailed else CommitFailed))
      ensures db.tables ==
              if committed then l.rows.(outbox := old(db.tables).outbox + Tasks(l.events)) else old(db.tables)
    {
      var fault := InsertTasks(tx, audits, l.events, clock, f);
      if fault.Some? {
        results := FailAll(looped, AuditFailed);
        return results, Some(CallFailed(RecordTask(fault.value))), false;
      }
      err := None;
      committed := db.Commit(tx, f(Commit));
      results := looped;
      if !committed {
        results := FailAll(looped, CommitFailed);
      }
    }

    /** The cache update of IssueOrders: the map is visited in no particular order. */
    method PutAll(touched: Rows)
      requires Keyed(touched) && forall id :: id in touched ==> IsActive(touched[id].status)
      modifies cache
      ensures cache.entries == Merge(old(cache.entries), touched, {})
    {
      var left := touched.Keys;
      ghost var done: Rows := map[];
      while left != {}
        invariant left <= touched.Keys
        invariant done.Keys == touched.Keys - left && forall id :: id in done ==> done[id] == touched[id]
        invariant cache.entries == Merge(old(cache.entries), done, {})
        decreases left
      {
        var id :| id in left;
        MergeOneMore(old(cache.entries), done, id, touched[id]);
        cache.Set(touched[id]);
        left, done := left - {id}, done[id := touched[id]];
      }
      assert done == touched;
    }

    method DropAll(ids: set<string>)
      modifies cache
      ensures cache.entries == Merge(old(cache.entries), map[], ids)
    {
      var left := ids;
      while left != {}
        invariant left <= ids
        invariant cache.entries == Merge(old(cache.entries), map[], ids - left)
        decreases left
      {
        var id :| id in left;
        cache.Delete(id);
        left := left - {id};
      }
    }
  }

  /** The start of the application: a failed load leaves the cache empty. */
  method StartStorage(db: Database, fails: bool) returns (storage: Storage)
    requires Keyed(db.tables.orders)
    ensures storage.db == db && fresh(storage) && fresh(storage.cache) && db.tables == old(db.tables)
    ensures if fails then storage.cache.entries == map[] else Mirrors(storage.cache.entries, db.tables.orders)
  {
    var cache := new OrderCache();
    var rows := db.GetAllActiveOrders(fails);
    var loaded := cache.LoadInitialData(rows);
    if loaded {
      LoadMirrors(db.tables.orders, rows.value);
    }
    storage := new Storage(db, cache);
  }
}
