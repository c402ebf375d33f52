/** What every interleaving keeps: serialisable tables, a cache of committed rows, and safe delivery. */
module SystemTheorems {
  import opened Model
  import opened Ledger
  import opened OrderCaching
  import opened SystemSpec
  import Safety = PublisherSafety

  // Events on databases that agree on rows.

  lemma {:induction false} ApplyAllConcat(db: Db, es: seq<Event>, more: seq<Event>)
    ensures ApplyAll(db, es + more) == ApplyAll(ApplyAll(db, es), more)
    ensures AllEnabled(db, es + more) <==> AllEnabled(db, es) && AllEnabled(ApplyAll(db, es), more)
  {
    if |more| == 0 {
      assert es + more == es;
    } else {
      var front := more[..|more| - 1];
      ApplyAllConcat(db, es, front);
      assert es + more == (es + front) + [more[|more| - 1]];
      ApplySnoc(db, es + front, more[|more| - 1]);
    }
  }

  predicate Harmless(e: Event) {
    e.Removed? && !e.existed
  }

  /** Events that neither touch `id` nor delete it leave its row alone. */
  lemma {:induction false} Untouched(db: Db, es: seq<Event>, id: string)
    requires forall i :: 0 <= i < |es| ==> IdOf(es[i]) != id || Harmless(es[i])
    ensures RowOf(ApplyAll(db, es), id) == RowOf(db, id)
  {
    if |es| > 0 {
      Untouched(db, es[..|es| - 1], id);
    }
  }

  /** Events on rows that two databases share are enabled in both or in neither, and do the same to these rows. */
  lemma {:induction false} SharedRows(db: Db, db': Db, es: seq<Event>, ids: set<string>)
    requires forall id :: id in ids ==> RowOf(db, id) == RowOf(db', id)
    requires forall i :: 0 <= i < |es| ==> IdOf(es[i]) in ids || Harmless(es[i])
    ensures AllEnabled(db, es) <==> AllEnabled(db', es)
    ensures forall id :: id in ids ==> RowOf(ApplyAll(db, es), id) == RowOf(ApplyAll(db', es), id)
  {
    if |es| > 0 {
      var front, e := es[..|es| - 1], es[|es| - 1];
      SharedRows(db, db', front, ids);
      var d, d' := ApplyAll(db, front), ApplyAll(db', front);
      if !Harmless(e) {
        assert RowOf(d, IdOf(e)) == RowOf(d', IdOf(e));
      }
      forall id | id in ids ensures RowOf(Apply(d, e), id) == RowOf(Apply(d', e), id) {
        assert RowOf(d, id) == RowOf(d', id);
      }
    }
  }

  /** The outbox does not influence the other tables. */
  lemma {:induction false} OutboxIrrelevant(db: Db, outbox: seq<Task>, es: seq<Event>)
    ensures ApplyAll(db.(outbox := outbox), es) == ApplyAll(db, es).(outbox := outbox + Tasks(es))
    ensures AllEnabled(db.(outbox := outbox), es) <==> AllEnabled(db, es)
  {
    if |es| == 0 {
      assert outbox + Tasks(es) == outbox;
    } else {
      OutboxIrrelevant(db, outbox, es[..|es| - 1]);
      assert outbox + Tasks(es) == outbox + Tasks(es[..|es| - 1]) + [TaskOf(es[|es| - 1])];
    }
  }

  lemma {:induction false} KeyedAll(db: Db, es: seq<Event>)
    requires Keyed(db.orders)
    ensures Keyed(ApplyAll(db, es).orders)
  {
    if |es| > 0 {
      KeyedAll(db, es[..|es| - 1]);
    }
  }

  /** The row that an event writes. */
  function Image(e: Event): Option<Order> {
    match e
    case Created(order, _, _) => Some(order)
    case Changed(before, kind, at, _) => Some(After(before, kind, at))
    case Removed(_, _, _) => None
  }

  /** One of the events wrote exactly this row. */
  predicate Wrote(es: seq<Event>, order: Order) {
    exists i :: 0 <= i < |es| && Image(es[i]) == Some(order)
  }

  lemma {:induction false} WroteMore(es: seq<Event>, more: seq<Event>, order: Order)
    ensures Wrote(es, order) || Wrote(more, order) ==> Wrote(es + more, order)
  {
    if Wrote(es, order) {
      var i :| 0 <= i < |es| && Image(es[i]) == Some(order);
      assert (es + more)[i] == es[i];
    } else if Wrote(more, order) {
      var i :| 0 <= i < |more| && Image(more[i]) == Some(order);
      assert (es + more)[|es| + i] == more[i];
    }
  }

  lemma {:induction false} RowSource(db: Db, es: seq<Event>, id: string)
    ensures var row := RowOf(ApplyAll(db, es), id);
            row.Some? ==> row == RowOf(db, id) || Wrote(es, row.value)
  {
    if |es| > 0 {
      var front, e := es[..|es| - 1], es[|es| - 1];
      RowSource(db, front, id);
      var row := RowOf(ApplyAll(db, es), id);
      if row.Some? {
        assert es == front + [e];
        assert [e][0] == e;
        WroteMore(front, [e], row.value);
      }
    }
  }

  // The invariant.

  /** The tasks carry the same messages and are of the same age. */
  predicate SameMessages(outbox: seq<Task>, tasks: seq<Task>) {
    && |outbox| == |tasks|
    && forall i :: 0 <= i < |outbox| ==>
         && outbox[i].topic == tasks[i].topic && outbox[i].payload == tasks[i].payload
         && outbox[i].createdAt == tasks[i].createdAt && outbox[i].updatedAt == tasks[i].updatedAt
  }

  /**
   The tables are what the committed events leave behind when they are applied one after the
   other, each of them enabled.
   */
  ghost predicate Serial(db: Db, log: seq<Event>) {
    && AllEnabled(EMPTY_DB, log)
    && db == ApplyAll(EMPTY_DB, log).(outbox := db.outbox)
    && SameMessages(db.outbox, Tasks(log))
  }

  function HeldBy(locks: map<string, nat>, t: nat): set<string> {
    set id | id in locks && locks[id] == t
  }

  predicate PendingOk(pending: seq<CacheOp>, log: seq<Event>, trail: seq<Event>) {
    forall k :: 0 <= k < |pending| && pending[k].Put? ==> Wrote(log, pending[k].order) || Wrote(trail, pending[k].order)
  }

  /** What a thread holds in its hands is right for the committed rows, as long as it keeps its locks. */
  ghost predicate ThreadOk(db: Db, log: seq<Event>, held: set<string>, w: Thread) {
    match w
    case Working(_, todo, read, trail, pending, _) =>
      && AllEnabled(db, trail)
      && (forall i :: 0 <= i < |trail| ==> IdOf(trail[i]) in held || Harmless(trail[i]))
      && (read.Some? ==>
            todo != [] && todo[0] in held && read.value.id == todo[0] && RowOf(ApplyAll(db, trail), todo[0]) == read)
      && PendingOk(pending, log, trail)
    case Posting(pending) => PendingOk(pending, log, [])
    case Missed(_) => true
    case Holding(order) => Wrote(log, order)
  }

  ghost predicate ThreadsOk(s: System) {
    forall t :: t in s.threads ==> ThreadOk(s.db, s.log, HeldBy(s.locks, t), s.threads[t])
  }

  /** Every cached order sits under its own id, is active, and is a version that was committed. */
  predicate CacheOk(cache: Rows, log: seq<Event>) {
    forall id :: id in cache ==>
      cache[id].id == id && (cache[id].status == Received || cache[id].status == Issued) && Wrote(log, cache[id])
  }

  ghost predicate SystemOk(s: System) {
    Serial(s.db, s.log) && ThreadsOk(s) && CacheOk(s.cache, s.log) && Safety.PubOk(PubOf(s))
  }

  lemma {:induction false} PendingMore(pending: seq<CacheOp>, log: seq<Event>, more: seq<Event>, trail: seq<Event>)
    requires PendingOk(pending, log, trail)
    ensures PendingOk(pending, log + more, trail)
  {
    forall k | 0 <= k < |pending| && pending[k].Put?
      ensures Wrote(log + more, pending[k].order) || Wrote(trail, pending[k].order)
    {
      WroteMore(log, more, pending[k].order);
    }
  }

  // Preservation, step by step.

  lemma {:induction false} TrailKeeps(db: Db, log: seq<Event>, held: set<string>, w: Thread, db': Db, more: seq<Event>)
    requires ThreadOk(db, log, held, w) && forall id :: id in held ==> RowOf(db, id) == RowOf(db', id)
    ensures ThreadOk(db', log + more, held, w)
  {
    match w
    case Working(_, todo, read, trail, pending, _) =>
      SharedRows(db, db', trail, held);
      PendingMore(pending, log, more, trail);
    case Posting(pending) => PendingMore(pending, log, more, []);
    case Missed(_) =>
    case Holding(order) => WroteMore(log, more, order);
  }

  /**
   A step that only replaces one thread, and takes no lock of another, keeps the invariant if it
   is right for that thread.
   */
  lemma {:induction false} ReplaceThread(s: System, t: nat, w: Thread, locks: map<string, nat>)
    requires SystemOk(s) && ThreadOk(s.db, s.log, HeldBy(locks, t), w)
    requires forall u :: u != t ==> HeldBy(locks, u) == HeldBy(s.locks, u)
    ensures SystemOk(s.(threads := s.threads[t := w], locks := locks))
  {
    hide Serial, ThreadOk, CacheOk, Safety.PubOk;
  }

  lemma TakeLock(locks: map<string, nat>, t: nat, id: string)
    requires id in locks ==> locks[id] == t
    ensures HeldBy(locks[id := t], t) == HeldBy(locks, t) + {id}
    ensures forall u :: u != t ==> HeldBy(locks[id := t], u) == HeldBy(locks, u)
  {
  }

  lemma {:induction false} DropKeeps(s: System, t: nat)
    requires SystemOk(s)
    ensures SystemOk(Drop1(s, t))
  {
    hide Serial, ThreadOk, CacheOk, Safety.PubOk;
    assert forall u :: u != t ==> HeldBy(Unlocked(s.locks, t), u) == HeldBy(s.locks, u);
  }

  lemma {:induction false} SerialKeyed(db: Db, log: seq<Event>)
    requires Serial(db, log)
    ensures Keyed(db.orders)
  {
    KeyedAll(EMPTY_DB, log);
  }

  lemma {:induction false} LockedReadKeeps(s: System, t: nat)
    requires SystemOk(s) && CanDo(s, t, LockedRead)
    ensures SystemOk(Do(s, t, LockedRead))
  {
    hide Serial, CacheOk, Safety.PubOk, ApplyAll, AllEnabled;
    var w := s.threads[t];
    var id := w.todo[0];
    var row := Visible(s, w, id);
    if row.Some? {
      SerialKeyed(s.db, s.log);
      KeyedAll(s.db, w.trail);
      TakeLock(s.locks, t, id);
      ReplaceThread(s, t, w.(read := row), s.locks[id := t]);
    } else if w.op.Bulk? {
      ReplaceThread(s, t, w.(todo := w.todo[1..], results := NextResults(w, StorageSpec.OrderNotFound)), s.locks);
    } else {
      DropKeeps(s, t);
    }
  }

  lemma {:induction false} PendingWritten(
      pending: seq<CacheOp>, log: seq<Event>, trail: seq<Event>, e: Event, op: CacheOp)
    requires PendingOk(pending, log, trail) && (op.Put? ==> Image(e) == Some(op.order))
    ensures PendingOk(pending + [op], log, trail + [e])
  {
    forall k | 0 <= k < |pending + [op]| && (pending + [op])[k].Put?
      ensures Wrote(log, (pending + [op])[k].order) || Wrote(trail + [e], (pending + [op])[k].order)
    {
      assert [e][0] == e;
      WroteMore(trail, [e], (pending + [op])[k].order);
      if k == |pending| {
        assert Wrote([e], op.order);
      }
    }
  }

  /** Staging a change to the row that was read keeps the thread right. */
  lemma {:induction false} StagedThread(db: Db, log: seq<Event>, held: set<string>, w: Thread, loggedAt: Time)
    requires ThreadOk(db, log, held, w) && w.Working? && Reads(w.op) && w.read.Some?
    requires Guard(w.read.value, KindOf(w.op), StampOf(w.op))
    ensures var row, kind, at := w.read.value, KindOf(w.op), StampOf(w.op);
            ThreadOk(db, log, held,
                     w.(todo := w.todo[1..], read := None, trail := w.trail + [Changed(row, kind, at, loggedAt)],
                        pending := w.pending + [Refresh(kind, After(row, kind, at))],
                        results := NextResults(w, StorageSpec.Nothing)))
  {
    var row, kind, at := w.read.value, KindOf(w.op), StampOf(w.op);
    var e := Changed(row, kind, at, loggedAt);
    ApplySnoc(db, w.trail, e);
    PendingWritten(w.pending, log, w.trail, e, Refresh(kind, After(row, kind, at)));
  }

  /** Every row of a serial database was written by a committed event. */
  lemma {:induction false} CommittedRow(db: Db, log: seq<Event>, id: string)
    requires Serial(db, log)
    ensures id in db.orders ==> Wrote(log, db.orders[id])
  {
    RowSource(EMPTY_DB, log, id);
    assert RowOf(db, id) == RowOf(ApplyAll(EMPTY_DB, log), id);
  }

  lemma {:induction false} StageKeeps(s: System, t: nat, loggedAt: Time)
    requires SystemOk(s) && CanDo(s, t, Stage(loggedAt))
    ensures SystemOk(Do(s, t, Stage(loggedAt)))
  {
    hide Serial, CacheOk, Safety.PubOk, ApplyAll, AllEnabled;
    var w, s' := s.threads[t], Do(s, t, Stage(loggedAt));
    var row, kind, at := w.read.value, KindOf(w.op), StampOf(w.op);
    if Guard(row, kind, at) {
      StagedThread(s.db, s.log, HeldBy(s.locks, t), w, loggedAt);
      ReplaceThread(s, t, s'.threads[t], s.locks);
    } else if w.op.UpdateStatus? {
      RowSource(s.db, w.trail, w.todo[0]);
      CommittedRow(s.db, s.log, w.todo[0]);
      ReplaceThread(s, t, s'.threads[t], s.locks);
    } else if w.op.Bulk? {
      ReplaceThread(s, t, s'.threads[t], s.locks);
    } else {
      DropKeeps(s, t);
    }
  }

  lemma {:induction false} InsertKeeps(s: System, t: nat, loggedAt: Time)
    requires SystemOk(s) && CanDo(s, t, Insert(loggedAt))
    ensures SystemOk(Do(s, t, Insert(loggedAt)))
  {
    hide Serial, CacheOk, Safety.PubOk, ApplyAll, AllEnabled;
    var w, order := s.threads[t], s.threads[t].op.order;
    if order.id in s.db.orders {
      DropKeeps(s, t);
    } else {
      var e := Created(order, w.op.at, loggedAt);
      ApplyOne(s.db, e);
      assert Image([e][0]) == Some(order);
      TakeLock(s.locks, t, order.id);
      ReplaceThread(s, t, w.(todo := [], trail := [e], pending := [Put(order)], read := None), s.locks[order.id := t]);
    }
  }

  lemma {:induction false} DeleteKeeps(s: System, t: nat, loggedAt: Time)
    requires SystemOk(s) && CanDo(s, t, Delete(loggedAt))
    ensures SystemOk(Do(s, t, Delete(loggedAt)))
  {
    hide Serial, CacheOk, Safety.PubOk, ApplyAll, AllEnabled;
    var w, id := s.threads[t], s.threads[t].op.id;
    var e := Removed(id, id in s.db.orders, loggedAt);
    ApplyOne(s.db, e);
    if e.existed {
      TakeLock(s.locks, t, id);
    }
    ReplaceThread(s, t, w.(todo := [], trail := [e], pending := [Drop(id)], read := None),
                  if e.existed then s.locks[id := t] else s.locks);
  }

  // Commit.

  lemma {:induction false} CommitSerial(db: Db, log: seq<Event>, trail: seq<Event>)
    requires Serial(db, log) && AllEnabled(db, trail)
    ensures Serial(ApplyAll(db, trail), log + trail)
    ensures ApplyAll(db, trail).outbox == db.outbox + Tasks(trail)
  {
    hide ApplyAll, AllEnabled;
    var clean := ApplyAll(EMPTY_DB, log);
    ApplyAllConcat(EMPTY_DB, log, trail);
    OutboxIrrelevant(clean, db.outbox, trail);
    assert clean.(outbox := db.outbox) == db;
    assert Tasks(log + trail) == Tasks(log) + Tasks(trail);
  }

  lemma {:induction false} InsertedTasks(p: P.Pub, es: seq<Event>)
    requires Safety.PubOk(p)
    ensures Safety.PubOk(p.(tasks := p.tasks + Tasks(es)))
  {
    if |es| == 0 {
      assert p.tasks + Tasks(es) == p.tasks;
    } else {
      var front, e := es[..|es| - 1], es[|es| - 1];
      InsertedTasks(p, front);
      Safety.InsertKeeps(p.(tasks := p.tasks + Tasks(front)), AuditOf(e), e.loggedAt);
      assert p.tasks + Tasks(es) == p.tasks + Tasks(front) + [TaskOf(e)];
    }
  }

  /** The locks keep a commit away from the rows that another transaction has read. */
  lemma {:induction false} CommitKeepsOther(s: System, t: nat, u: nat)
    requires ThreadsOk(s) && CanDo(s, t, Commit) && u != t && u in s.threads
    ensures var w, s' := s.threads[t], Do(s, t, Commit);
            ThreadOk(s'.db, s'.log, HeldBy(s'.locks, u), s'.threads[u])
  {
    hide ApplyAll, AllEnabled;
    var w, s' := s.threads[t], Do(s, t, Commit);
    assert ThreadOk(s.db, s.log, HeldBy(s.locks, t), w);
    assert HeldBy(s'.locks, u) == HeldBy(s.locks, u);
    forall id | id in HeldBy(s.locks, u) ensures RowOf(s.db, id) == RowOf(s'.db, id) {
      Untouched(s.db, w.trail, id);
    }
    TrailKeeps(s.db, s.log, HeldBy(s.locks, u), s.threads[u], s'.db, w.trail);
  }

  lemma {:induction false} CommittedPending(pending: seq<CacheOp>, log: seq<Event>, trail: seq<Event>)
    requires PendingOk(pending, log, trail)
    ensures PendingOk(pending, log + trail, [])
  {
    forall k | 0 <= k < |pending| && pending[k].Put? ensures Wrote(log + trail, pending[k].order) {
      WroteMore(log, trail, pending[k].order);
    }
  }

  lemma {:induction false} CommitKeeps(s: System, t: nat)
    requires SystemOk(s) && CanDo(s, t, Commit)
    ensures SystemOk(Do(s, t, Commit))
  {
    hide Serial, Safety.PubOk, ApplyAll, AllEnabled;
    var w, s' := s.threads[t], Do(s, t, Commit);
    CommitSerial(s.db, s.log, w.trail);
    InsertedTasks(PubOf(s), w.trail);
    forall id | id in s.cache ensures Wrote(s'.log, s.cache[id]) {
      WroteMore(s.log, w.trail, s.cache[id]);
    }
    CommittedPending(w.pending, s.log, w.trail);
    forall u | u in s'.threads && u != t ensures ThreadOk(s'.db, s'.log, HeldBy(s'.locks, u), s'.threads[u]) {
      CommitKeepsOther(s, t, u);
    }
  }

  // The cache and GetOrder.

  lemma TellKeeps(cache: Rows, op: CacheOp, log: seq<Event>)
    requires CacheOk(cache, log) && (op.Put? ==> Wrote(log, op.order))
    ensures CacheOk(Tell(cache, op), log)
  {
  }

  lemma {:induction false} UpdateCacheKeeps(s: System, t: nat, k: nat)
    requires SystemOk(s) && CanDo(s, t, UpdateCache(k))
    ensures SystemOk(Do(s, t, UpdateCache(k)))
  {
    hide Serial, Safety.PubOk, CacheOk;
    TellKeeps(s.cache, s.threads[t].pending[k], s.log);
  }

  lemma {:induction false} GetOrderKeeps(s: System, t: nat, step: Step)
    requires SystemOk(s) && CanDo(s, t, step) && (step.Miss? || step.ReadRow? || step.Fill? || step.Done?)
    ensures SystemOk(Do(s, t, step))
  {
    hide Serial, Safety.PubOk, CacheOk;
    if step.ReadRow? {
      CommittedRow(s.db, s.log, s.threads[t].id);
    } else if step.Fill? {
      TellKeeps(s.cache, Put(s.threads[t].order), s.log);
    }
  }

  lemma {:induction false} PublishedRows(p: P.Pub, step: P.PubStep)
    requires Safety.PubOk(p) && !step.Insert? && P.CanStep(p, step)
    ensures SameMessages(P.Do(p, step).tasks, p.tasks)
  {
    assert |P.Do(p, step).tasks| == |p.tasks|;
    forall i | 0 <= i < |p.tasks|
      ensures var t, t' := p.tasks[i], P.Do(p, step).tasks[i];
              && t'.topic == t.topic && t'.payload == t.payload
              && t'.createdAt == t.createdAt && t'.updatedAt == t.updatedAt
    {
      Safety.StepOnlyAdvances(p, step, i);
    }
  }

  lemma {:induction false} BeginKeeps(s: System, t: nat, op: Op)
    requires SystemOk(s) && CanDo(s, t, Begin(op))
    ensures SystemOk(Do(s, t, Begin(op)))
  {
    hide Serial, CacheOk, Safety.PubOk;
    ReplaceThread(s, t, Working(op, Targets(op), None, [], [], []), s.locks);
  }

  lemma {:induction false} RestartKeeps(s: System, loaded: bool)
    requires CanDo(s, 0, Restart(loaded)) && SystemOk(s)
    ensures SystemOk(Do(s, 0, Restart(loaded)))
  {
    hide Serial, Safety.PubOk;
    SerialKeyed(s.db, s.log);
    forall id | id in s.db.orders ensures Wrote(s.log, s.db.orders[id]) {
      CommittedRow(s.db, s.log, id);
    }
    assert P.CanStep(PubOf(s), P.Interrupt);
    Safety.StepKeeps(PubOf(s), P.Interrupt);
  }

  lemma {:induction false} StepKeeps(s: System, t: nat, step: Step)
    requires SystemOk(s) && CanDo(s, t, step)
    ensures SystemOk(Do(s, t, step))
  {
    match step
    case Begin(op) => BeginKeeps(s, t, op);
    case LockedRead => LockedReadKeeps(s, t);
    case Stage(loggedAt) => StageKeeps(s, t, loggedAt);
    case Insert(loggedAt) => InsertKeeps(s, t, loggedAt);
    case Delete(loggedAt) => DeleteKeeps(s, t, loggedAt);
    case Commit => CommitKeeps(s, t);
    case Abort => DropKeeps(s, t);
    case UpdateCache(k) => UpdateCacheKeeps(s, t, k);
    case Restart(loaded) => RestartKeeps(s, loaded);
    case Publish(p) => PublishKeeps(s, p);
    case _ => GetOrderKeeps(s, t, step);
  }

  lemma {:induction false} PublishKeeps(s: System, step: P.PubStep)
    requires SystemOk(s) && CanDo(s, 0, Publish(step))
    ensures SystemOk(Do(s, 0, Publish(step)))
  {
    hide Safety.PubOk, ApplyAll, AllEnabled, ThreadOk, CacheOk, P.Do, P.CanStep;
    var s' := Do(s, 0, Publish(step));
    Safety.StepKeeps(PubOf(s), step);
    PublishedRows(PubOf(s), step);
    forall u | u in s.threads ensures ThreadOk(s'.db, s'.log, HeldBy(s.locks, u), s.threads[u]) {
      TrailKeeps(s.db, s.log, HeldBy(s.locks, u), s.threads[u], s'.db, []);
      assert s.log + [] == s.log;
    }
  }

  /** The invariant holds after every interleaving of storage steps, publisher steps, failures and restarts. */
  lemma {:induction false} RunKeeps(run: seq<Taken>)
    requires CanRun(run)
    ensures SystemOk(Reached(run))
    decreases |run|
  {
    if |run| > 0 {
      RunKeeps(run[..|run| - 1]);
      StepKeeps(Reached(run[..|run| - 1]), run[|run| - 1].t, run[|run| - 1].step);
    }
  }
}
