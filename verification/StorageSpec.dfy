/**
 What each storage operation leaves behind, as a function of the state it finds, of its
 arguments, of the clock readings and of a fault schedule that decides for every database
 call of the operation whether it fails.
 */
module StorageSpec {
  import opened Model
  import opened Ledger
  import opened OrderCaching

  /**
   The database calls of one operation; `i` is a position in the list of order ids, `k` in the
   list of audit tasks.
   */
  datatype Call =
    | Begin
    | ReadOrder(i: nat)
    | InsertRow
    | UpdateRow(i: nat)
    | DeleteRow
    | RecordReturn(i: nat)
    | RecordHistory(i: nat)
    | RecordTask(k: nat)
    | Commit

  type Faults = Call -> bool

  const NO_FAULTS: Faults := (c: Call) => false

  datatype Reason =
    | Nothing
    | OrderNotFound
    | NotOwner
    | WrongStatus(current: Status)
    | StorageExpired
    | ReturnExpired
    | RetrieveFailed
    | UpdateFailed
    | HistoryFailed
    | ReturnFailed
    | AuditFailed
    | CommitFailed

  datatype Error = CallFailed(call: Call) | Refused(reason: Reason)

  datatype State = State(db: Db, cache: Rows)

  // Operations on one order.

  datatype Outcome = Outcome(state: State, err: Option<Error>)

  /**
   What the statements of a transaction come to: the events to commit and the cache update that
   follows the commit.
   */
  datatype Body = Ready(events: seq<Event>, puts: Rows, drops: set<string>) | Rejected(err: Error)

  /**
   BEGIN, the statements, then the deferred ROLLBACK or COMMIT. The error of a failed commit is
   assigned to a variable that the caller never sees, so the caller gets no error.
   */
  function Settle(s: State, f: Faults, body: Body): Outcome {
    if f(Begin) then Outcome(s, Some(CallFailed(Begin)))
    else
      match body
      case Rejected(err) => Outcome(s, Some(err))
      case Ready(events, puts, drops) =>
        if f(Commit) then Outcome(s, None)
        else Outcome(State(ApplyAll(s.db, events), Merge(s.cache, puts, drops)), None)
  }

  function AddOrderBody(db: Db, order: Order, at: Time, loggedAt: Time, f: Faults): Body {
    if f(InsertRow) || order.id in db.orders then Rejected(CallFailed(InsertRow))
    else if f(RecordHistory(0)) then Rejected(CallFailed(RecordHistory(0)))
    else if f(RecordTask(0)) then Rejected(CallFailed(RecordTask(0)))
    else Ready([Created(order, at, loggedAt)], map[order.id := order], {})
  }

  function UpdateStatusBody(db: Db, id: string, status: Status, at: Time, loggedAt: Time, f: Faults): Body {
    if f(ReadOrder(0)) then Rejected(CallFailed(ReadOrder(0)))
    else if id !in db.orders then Rejected(Refused(OrderNotFound))
    else
      var row := db.orders[id];
      if row.status == status then Ready([], map[id := row], {})
      else if f(UpdateRow(0)) then Rejected(CallFailed(UpdateRow(0)))
      else if f(RecordHistory(0)) then Rejected(CallFailed(RecordHistory(0)))
      else if f(RecordTask(0)) then Rejected(CallFailed(RecordTask(0)))
      else Ready([Changed(row, SetStatus(status), at, loggedAt)], map[id := After(row, SetStatus(status), at)], {})
  }

  function DeleteOrderBody(db: Db, id: string, loggedAt: Time, f: Faults): Body {
    if f(DeleteRow) then Rejected(CallFailed(DeleteRow))
    else if f(RecordTask(0)) then Rejected(CallFailed(RecordTask(0)))
    else Ready([Removed(id, id in db.orders, loggedAt)], map[], {id})
  }

  // AddReturn and its two bulk relatives.

  datatype Mode = Issuing | Accepting

  function KindFor(mode: Mode, user: string, now: Time): Kind {
    if mode == Issuing then Issue(user) else TakeBack(user, Bulk, now, now)
  }

  /** Why the operation leaves this row alone, in the order in which the code looks for reasons. */
  function Refusal(mode: Mode, row: Order, user: string, now: Time): (r: Reason)
    ensures r == Nothing <==> Guard(row, KindFor(mode, user, now), now)
  {
    if row.recipientId != user then NotOwner
    else
      match mode
      case Issuing =>
        if row.status != Received then WrongStatus(row.status)
        else if now > row.storageUntil then StorageExpired
        else Nothing
      case Accepting =>
        if row.status != Issued then WrongStatus(row.status)
        else if now - row.updatedAt > RETURN_WINDOW then ReturnExpired
        else Nothing
  }

  /** The clock is read three times: for the deadline, for the row, and for the return row. */
  datatype ReturnClock = ReturnClock(checkedAt: Time, changedAt: Time, returnedAt: Time, loggedAt: Time)

  function AddReturnBody(db: Db, id: string, user: string, clock: ReturnClock, f: Faults): Body {
    if f(ReadOrder(0)) then Rejected(CallFailed(ReadOrder(0)))
    else if id !in db.orders then Rejected(Refused(OrderNotFound))
    else
      var row := db.orders[id];
      var refusal := Refusal(Accepting, row, user, clock.checkedAt);
      if refusal != Nothing then Rejected(Refused(refusal))
      else if f(UpdateRow(0)) then Rejected(CallFailed(UpdateRow(0)))
      else if f(RecordReturn(0)) then Rejected(CallFailed(RecordReturn(0)))
      else if f(RecordHistory(0)) then Rejected(CallFailed(RecordHistory(0)))
      else if f(RecordTask(0)) then Rejected(CallFailed(RecordTask(0)))
      else
        var kind := TakeBack(user, Direct, clock.checkedAt, clock.returnedAt);
        Ready([Changed(row, kind, clock.changedAt, clock.loggedAt)], map[], {id})
  }

  // GetOrder.

  datatype Answer = Answered(order: Order) | NotFound | Unavailable

  datatype Fetched = Fetched(state: State, answer: Answer)

  function GetOrderRun(s: State, id: string, f: Faults): Fetched {
    if id in s.cache then Fetched(s, Answered(s.cache[id]))
    else if f(ReadOrder(0)) then Fetched(s, Unavailable)
    else if id !in s.db.orders then Fetched(s, NotFound)
    else
      var row := s.db.orders[id];
      Fetched(s.(cache := Merge(s.cache, map[row.id := row], {})), Answered(row))
  }

  // IssueOrders and AcceptReturns.

  /** The first of the item's statements that fails. */
  function WriteFault(mode: Mode, i: nat, f: Faults): Option<(Call, Reason)> {
    if mode == Accepting && f(RecordReturn(i)) then Some((RecordReturn(i), ReturnFailed))
    else if f(UpdateRow(i)) then Some((UpdateRow(i), UpdateFailed))
    else if f(RecordHistory(i)) then Some((RecordHistory(i), HistoryFailed))
    else None
  }

  datatype ItemResult = ItemResult(orderId: string, success: bool, reason: Reason)

  /** What one item comes to: its result, the hard error if there is one, and the row to be changed if there is one. */
  datatype Verdict = Verdict(result: ItemResult, err: Option<Error>, change: Option<Order>)

  function Judge(orders: Rows, mode: Mode, user: string, id: string, i: nat, now: Time, f: Faults): (v: Verdict)
    ensures v.result.orderId == id && (v.result.success <==> v.change.Some?)
    ensures v.change.Some? ==>
              v.err == None && id in orders && v.change.value == orders[id]
                  && Guard(orders[id], KindFor(mode, user, now), now)
    ensures v.err == None && id in orders && Guard(orders[id], KindFor(mode, user, now), now) ==> v.change.Some?
  {
    if f(ReadOrder(i)) then Verdict(ItemResult(id, false, RetrieveFailed), Some(CallFailed(ReadOrder(i))), None)
    else if id !in orders then Verdict(ItemResult(id, false, OrderNotFound), None, None)
    else
      var refusal := Refusal(mode, orders[id], user, now);
      var fault := WriteFault(mode, i, f);
      if refusal != Nothing then Verdict(ItemResult(id, false, refusal), None, None)
      else if fault.Some? then Verdict(ItemResult(id, false, fault.value.1), Some(CallFailed(fault.value.0)), None)
      else Verdict(ItemResult(id, true, Nothing), None, Some(orders[id]))
  }

  /**
   The variables of the bulk loop; `rows` are the tables without the audit tasks, which are
   inserted after the loop.
   */
  datatype Loop = Loop(rows: Db, events: seq<Event>, touched: Rows, results: seq<ItemResult>, err: Option<Error>)

  function Extend(l: Loop, v: Verdict, kind: Kind, now: Time, loggedAt: Time): Loop {
    match v.change
    case None => l.(results := l.results + [v.result], err := v.err)
    case Some(row) =>
      var e := Changed(row, kind, now, loggedAt);
      Loop(ApplyRows(l.rows, e), l.events + [e], l.touched[row.id := After(row, kind, now)],
           l.results + [v.result], None)
  }

  function Item(l: Loop, mode: Mode, user: string, id: string, i: nat, now: Time, clock: nat -> Time, f: Faults): Loop {
    Extend(l, Judge(l.rows.orders, mode, user, id, i, now, f), KindFor(mode, user, now), now, clock(|l.events|))
  }

  /** The loop over the first `n` ids; it stops at the first hard error. */
  function Looped(
      db: Db, mode: Mode, user: string, ids: seq<string>, now: Time, clock: nat -> Time, f: Faults, n: nat): Loop
    requires n <= |ids|
  {
    if n == 0 then Loop(db, [], map[], [], None)
    else
      var l := Looped(db, mode, user, ids, now, clock, f, n - 1);
      if l.err.Some? then l else Item(l, mode, user, ids[n - 1], n - 1, now, clock, f)
  }

  /** The first of the audit tasks `k..n` whose insertion fails. */
  function TaskFault(f: Faults, k: nat, n: nat): Option<nat>
    requires k <= n
    decreases n - k
  {
    if k == n then None else if f(RecordTask(k)) then Some(k) else TaskFault(f, k + 1, n)
  }

  /** Every success flag taken back, with the given reason. */
  function Demote(results: seq<ItemResult>, reason: Reason): (r: seq<ItemResult>)
    ensures |r| == |results|
    ensures forall i :: 0 <= i < |r| ==>
              r[i] == if results[i].success then ItemResult(results[i].orderId, false, reason) else results[i]
  {
    seq(|results|, i requires 0 <= i < |results| =>
      if results[i].success then ItemResult(results[i].orderId, false, reason) else results[i])
  }

  /** The cache update that follows the commit. */
  function Cached(cache: Rows, mode: Mode, touched: Rows): Rows {
    if mode == Issuing then Merge(cache, touched, {}) else Merge(cache, map[], touched.Keys)
  }

  /** The state that a finished loop commits. */
  function Landing(s: State, mode: Mode, l: Loop): State {
    State(l.rows.(outbox := s.db.outbox + Tasks(l.events)), Cached(s.cache, mode, l.touched))
  }

  datatype BulkOutcome = BulkOutcome(state: State, results: seq<ItemResult>, err: Option<Error>)

  function BulkRun(
      s: State, mode: Mode, user: string, ids: seq<string>, now: Time, clock: nat -> Time, f: Faults): BulkOutcome {
    if |ids| == 0 then BulkOutcome(s, [], None)
    else if f(Begin) then BulkOutcome(s, [], Some(CallFailed(Begin)))
    else
      var l := Looped(s.db, mode, user, ids, now, clock, f, |ids|);
      if l.err.Some? then BulkOutcome(s, l.results, l.err)
      else
        var fault := TaskFault(f, 0, |l.events|);
        if fault.Some? then BulkOutcome(s, Demote(l.results, AuditFailed), Some(CallFailed(RecordTask(fault.value))))
        else if f(Commit) then BulkOutcome(s, Demote(l.results, CommitFailed), None)
        else BulkOutcome(Landing(s, mode, l), l.results, None)
  }

  /** The rows that a bulk loop changed carry their own id and the target status. */
  lemma {:induction false} TouchedRows(
      db: Db, mode: Mode, user: string, ids: seq<string>, now: Time, clock: nat -> Time, f: Faults, n: nat)
    requires Keyed(db.orders) && n <= |ids|
    ensures var l := Looped(db, mode, user, ids, now, clock, f, n);
            && Keyed(l.rows.orders) && Keyed(l.touched)
            && forall id :: id in l.touched ==> l.touched[id].status == Target(KindFor(mode, user, now))
  {
    if n > 0 {
      TouchedRows(db, mode, user, ids, now, clock, f, n - 1);
    }
  }
}
