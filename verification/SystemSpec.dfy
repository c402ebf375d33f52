/**
 All storage operations at once, in small steps over one database and one cache, together with
 the publisher: begin, locked read, staged write, commit or rollback, and one cache update at
 a time after the commit. A restart may happen at any moment.
 */
module SystemSpec {
  import opened Model
  import opened Ledger
  import opened OrderCaching
  import opened StorageSpec
  import P = PublisherSpec

  datatype Op =
    | AddOrder(order: Order, at: Time)
    | UpdateStatus(id: string, status: Status, at: Time)
    | DeleteOrder(id: string)
    | AddReturn(id: string, user: string, clock: ReturnClock)
    | Bulk(mode: Mode, user: string, ids: seq<string>, now: Time)

  /** The orders that an operation visits, one after the other. */
  function Targets(op: Op): seq<string> {
    match op
    case AddOrder(order, _) => [order.id]
    case UpdateStatus(id, _, _) => [id]
    case DeleteOrder(id) => [id]
    case AddReturn(id, _, _) => [id]
    case Bulk(_, _, ids, _) => ids
  }

  predicate Reads(op: Op) {
    op.UpdateStatus? || op.AddReturn? || op.Bulk?
  }

  function KindOf(op: Op): Kind
    requires Reads(op)
  {
    match op
    case UpdateStatus(_, status, _) => SetStatus(status)
    case AddReturn(_, user, clock) => TakeBack(user, Direct, clock.checkedAt, clock.returnedAt)
    case Bulk(mode, user, _, now) => KindFor(mode, user, now)
  }

  function StampOf(op: Op): Time
    requires Reads(op)
  {
    match op
    case UpdateStatus(_, _, at) => at
    case AddReturn(_, _, clock) => clock.changedAt
    case Bulk(_, _, _, now) => now
  }

  datatype CacheOp = Put(order: Order) | Drop(id: string)

  function Refresh(kind: Kind, row: Order): CacheOp {
    if kind.TakeBack? then Drop(row.id) else Put(row)
  }

  function Tell(cache: Rows, op: CacheOp): Rows {
    match op
    case Put(order) => Merge(cache, map[order.id := order], {})
    case Drop(id) => Merge(cache, map[], {id})
  }

  /**
   Working: inside a transaction, with the row image it has read, the events it has staged, the
   cache updates they ask for, and one result for each order it has changed or, in bulk, passed over.
   It may abort at any time, which is also how a failed commit ends it.
   Posting: after the commit, with the cache updates still to be made. Missed and Holding:
   GetOrder after a cache miss, before and after it read the row.
   */
  datatype Thread =
    | Working(
        op: Op, todo: seq<string>, read: Option<Order>, trail: seq<Event>, pending: seq<CacheOp>,
        results: seq<ItemResult>)
    | Posting(pending: seq<CacheOp>)
    | Missed(id: string)
    | Holding(order: Order)

  datatype System = System(
    db: Db,
    cache: Rows,
    locks: map<string, nat>,
    threads: map<nat, Thread>,
    log: seq<Event>,
    sends: seq<P.Send>,
    phase: P.Phase)

  const START: System := System(EMPTY_DB, map[], map[], map[], [], [], P.Idle)

  datatype Step =
    | Begin(op: Op)
    | LockedRead
    | Stage(loggedAt: Time)
    | Insert(loggedAt: Time)
    | Delete(loggedAt: Time)
    | Commit
    | Abort
    | UpdateCache(k: nat)
    | Done
    | Miss(id: string)
    | ReadRow
    | Fill
    | Restart(loaded: bool)
    | Publish(step: P.PubStep)

  predicate Free(s: System, t: nat, id: string) {
    id in s.locks ==> s.locks[id] == t
  }

  function Unlocked(locks: map<string, nat>, t: nat): map<string, nat> {
    map id | id in locks && locks[id] != t :: locks[id]
  }

  /** The row as the transaction of `t` sees it: the committed one, or its own. */
  function Visible(s: System, w: Thread, id: string): Option<Order>
    requires w.Working?
  {
    RowOf(ApplyAll(s.db, w.trail), id)
  }

  function PubOf(s: System): P.Pub {
    P.Pub(s.db.outbox, s.sends, s.phase)
  }

  predicate Works(s: System, t: nat) {
    t in s.threads && s.threads[t].Working?
  }

  ghost predicate CanDo(s: System, t: nat, step: Step) {
    match step
    case Begin(_) => t !in s.threads
    case LockedRead =>
      && Works(s, t) && Reads(s.threads[t].op) && s.threads[t].todo != [] && s.threads[t].read == None
      && (Visible(s, s.threads[t], s.threads[t].todo[0]).Some? ==> Free(s, t, s.threads[t].todo[0]))
    case Stage(_) => Works(s, t) && Reads(s.threads[t].op) && s.threads[t].todo != [] && s.threads[t].read.Some?
    case Insert(_) =>
      Works(s, t) && s.threads[t].op.AddOrder? && s.threads[t].todo != [] && Free(s, t, s.threads[t].op.order.id)
    case Delete(_) =>
      && Works(s, t) && s.threads[t].op.DeleteOrder? && s.threads[t].todo != []
      && (s.threads[t].op.id in s.db.orders ==> Free(s, t, s.threads[t].op.id))
    case Commit => Works(s, t) && s.threads[t].todo == []
    case Abort => t in s.threads && (s.threads[t].Working? || s.threads[t].Missed?)
    case UpdateCache(k) => t in s.threads && s.threads[t].Posting? && k < |s.threads[t].pending|
    case Done => t in s.threads && s.threads[t] == Posting([])
    case Miss(id) => t !in s.threads && id !in s.cache
    case ReadRow => t in s.threads && s.threads[t].Missed?
    case Fill => t in s.threads && s.threads[t].Holding?
    case Restart(_) => true
    case Publish(step) => !step.Insert? && P.CanStep(PubOf(s), step)
  }

  function Drop1(s: System, t: nat): System {
    s.(threads := s.threads - {t}, locks := Unlocked(s.locks, t))
  }

  /** The results once the next id was changed, or passed over for a reason. */
  function NextResults(w: Thread, reason: Reason): seq<ItemResult>
    requires w.Working? && w.todo != []
  {
    w.results + [ItemResult(w.todo[0], reason == Nothing, reason)]
  }

  /** A row was read and is to be changed, passed over, or given up with the whole transaction. */
  function Staged(s: System, t: nat, loggedAt: Time): System
    requires Works(s, t) && Reads(s.threads[t].op) && s.threads[t].todo != [] && s.threads[t].read.Some?
  {
    var w := s.threads[t];
    var row, kind, at := w.read.value, KindOf(w.op), StampOf(w.op);
    var next := w.(todo := w.todo[1..], read := None);
    if Guard(row, kind, at) then
      s.(threads := s.threads[t := next.(trail := w.trail + [Changed(row, kind, at, loggedAt)],
                                         pending := w.pending + [Refresh(kind, After(row, kind, at))],
                                         results := NextResults(w, Nothing))])
    else if w.op.UpdateStatus? then s.(threads := s.threads[t := next.(pending := w.pending + [Put(row)])])
    else if w.op.Bulk? then
      s.(threads := s.threads[t := next.(results := NextResults(w, Refusal(w.op.mode, row, w.op.user, w.op.now)))])
    else Drop1(s, t)
  }

  ghost function Do(s: System, t: nat, step: Step): System
    requires CanDo(s, t, step)
  {
    match step
    case Begin(op) => s.(threads := s.threads[t := Working(op, Targets(op), None, [], [], [])])
    case LockedRead =>
      var w := s.threads[t];
      var row := Visible(s, w, w.todo[0]);
      if row.Some? then s.(threads := s.threads[t := w.(read := row)], locks := s.locks[w.todo[0] := t])
      else if w.op.Bulk? then
        s.(threads := s.threads[t := w.(todo := w.todo[1..], results := NextResults(w, OrderNotFound))])
      else Drop1(s, t)
    case Stage(loggedAt) => Staged(s, t, loggedAt)
    case Insert(loggedAt) =>
      var w := s.threads[t];
      var order := w.op.order;
      if order.id in s.db.orders then Drop1(s, t)
      else
        var done := w.(todo := [], read := None, trail := [Created(order, w.op.at, loggedAt)], pending := [Put(order)]);
        s.(threads := s.threads[t := done], locks := s.locks[order.id := t])
    case Delete(loggedAt) =>
      var w := s.threads[t];
      var id := w.op.id;
      var existed := id in s.db.orders;
      var done := w.(todo := [], read := None, trail := [Removed(id, existed, loggedAt)], pending := [Drop(id)]);
      s.(threads := s.threads[t := done], locks := if existed then s.locks[id := t] else s.locks)
    case Commit =>
      var w := s.threads[t];
      s.(db := ApplyAll(s.db, w.trail), log := s.log + w.trail, locks := Unlocked(s.locks, t),
         threads := s.threads[t := Posting(w.pending)])
    case Abort => Drop1(s, t)
    case UpdateCache(k) =>
      var pending := s.threads[t].pending;
      s.(cache := Tell(s.cache, pending[k]), threads := s.threads[t := Posting(pending[..k] + pending[k + 1..])])
    case Done => s.(threads := s.threads - {t})
    case Miss(id) => s.(threads := s.threads[t := Missed(id)])
    case ReadRow =>
      var row := RowOf(s.db, s.threads[t].id);
      if row.Some? then s.(threads := s.threads[t := Holding(row.value)]) else s.(threads := s.threads - {t})
    case Fill => s.(cache := Tell(s.cache, Put(s.threads[t].order)), threads := s.threads - {t})
    case Restart(loaded) =>
      s.(threads := map[], locks := map[], cache := if loaded then ActiveRows(s.db.orders) else map[], phase := P.Idle)
    case Publish(step) =>
      var p := P.Do(PubOf(s), step);
      s.(db := s.db.(outbox := p.tasks), sends := p.sends, phase := p.phase)
  }

  datatype Taken = Taken(t: nat, step: Step)

  ghost predicate CanRun(run: seq<Taken>)
    decreases |run|, 0
  {
    |run| == 0 ||
    (CanRun(run[..|run| - 1]) && CanDo(Reached(run[..|run| - 1]), run[|run| - 1].t, run[|run| - 1].step))
  }

  ghost function Reached(run: seq<Taken>): System
    requires CanRun(run)
    decreases |run|, 1
  {
    if |run| == 0 then START
    else Do(Reached(run[..|run| - 1]), run[|run| - 1].t, run[|run| - 1].step)
  }

  lemma {:induction false} Then(run: seq<Taken>, t: nat, step: Step) returns (longer: seq<Taken>)
    requires CanRun(run) && CanDo(Reached(run), t, step)
    ensures CanRun(longer) && Reached(longer) == Do(Reached(run), t, step)
    ensures longer == run + [Taken(t, step)]
  {
    hide Do, CanDo;
    longer := run + [Taken(t, step)];
    assert longer[..|run|] == run;
  }
}
