/** The promises of the whole service, over every interleaving of operations, publisher, failures and restarts. */
module SystemResults {
  import opened Model
  import opened Ledger
  import opened SystemSpec
  import opened SystemAnswers
  import opened SystemTheorems

  /**
   Cache safety: whatever is in the cache, and whatever GetOrder read from the table, sits under
   its own id and is a version that some transaction committed, never a staged or rolled-back one.
   */
  lemma {:induction false} CacheSafety(run: seq<Taken>)
    requires CanRun(run)
    ensures var s := Reached(run);
            && (forall id :: id in s.cache ==>
                  && s.cache[id].id == id && (s.cache[id].status == Received || s.cache[id].status == Issued)
                  && Wrote(s.log, s.cache[id]))
            && (forall t :: t in s.threads && s.threads[t].Holding? ==> Wrote(s.log, s.threads[t].order))
  {
    RunKeeps(run);
    var s := Reached(run);
    forall t | t in s.threads && s.threads[t].Holding? ensures Wrote(s.log, s.threads[t].order) {
      assert ThreadOk(s.db, s.log, HeldBy(s.locks, t), s.threads[t]);
    }
  }

  // Linearity of the committed history.

  /** The row image that the log leaves for an order. */
  function LastImage(log: seq<Event>, id: string): Option<Order> {
    if |log| == 0 then None
    else
      var e, rest := log[|log| - 1], LastImage(log[..|log| - 1], id);
      if IdOf(e) != id then rest
      else
        match e
        case Created(order, _, _) => Some(order)
        case Changed(before, kind, at, _) => Some(After(before, kind, at))
        case Removed(_, existed, _) => if existed then None else rest
  }

  lemma {:induction false} RowIsLastImage(log: seq<Event>, id: string)
    ensures RowOf(ApplyAll(EMPTY_DB, log), id) == LastImage(log, id)
  {
    if |log| > 0 {
      RowIsLastImage(log[..|log| - 1], id);
    }
  }

  /** The event goes on from the image that the earlier events left. */
  predicate Follows(log: seq<Event>, i: nat)
    requires i < |log|
  {
    match log[i]
    case Created(order, _, _) => LastImage(log[..i], order.id) == None
    case Changed(before, kind, at, _) => LastImage(log[..i], before.id) == Some(before) && Guard(before, kind, at)
    case Removed(id, existed, _) => existed ==> LastImage(log[..i], id).Some?
  }

  lemma {:induction false} EnabledFollows(log: seq<Event>, i: nat)
    requires AllEnabled(EMPTY_DB, log) && i < |log|
    ensures Follows(log, i)
  {
    var front := log[..|log| - 1];
    if i < |front| {
      EnabledFollows(front, i);
      assert front[..i] == log[..i];
    } else {
      RowIsLastImage(front, IdOf(log[i]));
    }
  }

  /**
   Linearity: in commit order, every status change starts from the very row image that the last
   committed change of that order left, and the table holds the last image of every order.
   */
  lemma {:induction false} RowLinearity(run: seq<Taken>)
    requires CanRun(run)
    ensures var s := Reached(run);
            && (forall i :: 0 <= i < |s.log| ==> Follows(s.log, i))
            && (forall id :: RowOf(s.db, id) == LastImage(s.log, id))
  {
    RunKeeps(run);
    var s := Reached(run);
    forall i | 0 <= i < |s.log| ensures Follows(s.log, i) {
      EnabledFollows(s.log, i);
    }
    forall id ensures RowOf(s.db, id) == LastImage(s.log, id) {
      RowIsLastImage(s.log, id);
      assert RowOf(s.db, id) == RowOf(ApplyAll(EMPTY_DB, s.log), id);
    }
  }

  /** Event `i` created the order's row, and no later event created or removed it. */
  predicate CreatedAt(log: seq<Event>, id: string, i: nat) {
    && i < |log| && log[i].Created? && log[i].order.id == id
    && forall j :: i < j < |log| && IdOf(log[j]) == id ==> log[j].Changed? || Harmless(log[j])
  }

  lemma {:induction false} ImageOrigin(log: seq<Event>, id: string) returns (i: nat)
    requires AllEnabled(EMPTY_DB, log) && LastImage(log, id).Some?
    ensures CreatedAt(log, id, i)
    ensures var row := LastImage(log, id).value;
            row == log[i].order.(status := row.status, updatedAt := row.updatedAt)
  {
    hide ApplyAll, Enabled, Guard;
    var front, e := log[..|log| - 1], log[|log| - 1];
    if IdOf(e) == id && e.Created? {
      i := |log| - 1;
    } else {
      if e.Changed? {
        EnabledFollows(log, |log| - 1);
      }
      i := ImageOrigin(front, id);
    }
  }

  /**
   In every reachable state each row goes back to the committed creation of its order: apart from
   the status and the time of the last change, no column has changed since.
   */
  lemma {:induction false} RowOrigin(run: seq<Taken>, id: string) returns (i: nat)
    requires CanRun(run) && id in Reached(run).db.orders
    ensures var s := Reached(run);
            && CreatedAt(s.log, id, i)
            && s.db.orders[id] ==
                 s.log[i].order.(status := s.db.orders[id].status, updatedAt := s.db.orders[id].updatedAt)
  {
    RunKeeps(run);
    RowLinearity(run);
    var s := Reached(run);
    assert RowOf(s.db, id) == LastImage(s.log, id);
    i := ImageOrigin(s.log, id);
  }

  // History, audit trail and return rows.

  lemma {:induction false} SameTrail(outbox: seq<Task>, tasks: seq<Task>, id: string)
    requires SameMessages(outbox, tasks)
    ensures AuditTrail(outbox, id) == AuditTrail(tasks, id)
  {
    if |outbox| > 0 {
      SameTrail(outbox[..|outbox| - 1], tasks[..|tasks| - 1], id);
    }
  }

  /** The dossier of an order is that of the serial execution of the log. */
  lemma {:induction false} SerialDossier(db: Db, log: seq<Event>, id: string)
    requires Serial(db, log)
    ensures DossierOf(db, id) == DossierOf(ApplyAll(EMPTY_DB, log), id)
  {
    hide ApplyAll, AllEnabled;
    var clean := ApplyAll(EMPTY_DB, log);
    OutboxIrrelevant(EMPTY_DB, [], log);
    assert [] + Tasks(log) == Tasks(log);
    SameTrail(db.outbox, clean.outbox, id);
    assert History(db, id) == History(clean, id) && Returns(db, id) == Returns(clean, id);
  }

  /**
   In every reachable state the history of each order replays its row, the audit tasks report
   the statuses it went through, and its return rows are its recipient's and never too many.
   */
  lemma {:induction false} TablesConsistent(run: seq<Taken>)
    requires CanRun(run)
    ensures DbOk(Reached(run).db)
  {
    RunKeeps(run);
    var s := Reached(run);
    EmptyDbOk(NO_SLACK);
    ApplyAllKeepsDb(EMPTY_DB, s.log);
    forall id ensures OrderOk(DossierOf(s.db, id), id) {
      SerialDossier(s.db, s.log, id);
      assert OrderOk(DossierOf(ApplyAll(EMPTY_DB, s.log), id), id);
    }
  }

  // Lifecycle.

  /** No status is set by hand, orders start as received, and no clock goes back between the stamps of a return. */
  predicate Ordinary(e: Event) {
    match e
    case Created(order, _, _) => order.status == Received
    case Changed(_, kind, at, _) => !kind.SetStatus? && (kind.TakeBack? ==> at <= kind.returnedAt)
    case Removed(_, _, _) => true
  }

  predicate OrdinaryLog(log: seq<Event>) {
    forall i :: 0 <= i < |log| ==> Ordinary(log[i])
  }

  /** How far the clock moved at most from one reading of a return to the next. */
  function Movement(e: Event): nat {
    if !e.Changed? || !e.kind.TakeBack? then 0
    else
      var first, second := e.at - e.kind.checkedAt, e.kind.returnedAt - e.at;
      if first <= 0 && second <= 0 then 0 else if first <= second then second else first
  }

  /** The last committed creation or change of an order. */
  function LastChange(log: seq<Event>, id: string): Option<Event> {
    if |log| == 0 then None
    else
      var e := log[|log| - 1];
      if IdOf(e) == id && !e.Removed? then Some(e) else LastChange(log[..|log| - 1], id)
  }

  /** The clock movement of the return that made the order what it is, if it is a return. */
  function ReturnDrift(log: seq<Event>, id: string): nat {
    match LastChange(log, id)
    case Some(e) => Movement(e)
    case None => 0
  }

  /** Only the last change of an order can loosen its stamps. */
  lemma {:induction false} AmendLife(d: Dossier, e: Event, before: nat)
    requires OrderOk(d, IdOf(e)) && LifeOk(d, before) && Fits(d, e) && Ordinary(e)
    ensures LifeOk(Amend(d, e), if e.Removed? then before else Movement(e))
  {
    if !e.Removed? {
      assert Statuses(Amend(d, e).history) == Statuses(d.history) + [HistoryRow(e)[0].status];
    }
  }

  lemma {:induction false} EnabledFits(db: Db, e: Event)
    requires Enabled(db, e)
    ensures Fits(DossierOf(db, IdOf(e)), e)
  {
  }

  lemma {:induction false} LogDbOk(log: seq<Event>)
    requires AllEnabled(EMPTY_DB, log)
    ensures DbOk(ApplyAll(EMPTY_DB, log))
  {
    EmptyDbOk(NO_SLACK);
    ApplyAllKeepsDb(EMPTY_DB, log);
  }

  lemma {:induction false} LogLife(log: seq<Event>, id: string)
    requires AllEnabled(EMPTY_DB, log) && OrdinaryLog(log)
    ensures LifeOk(DossierOf(ApplyAll(EMPTY_DB, log), id), ReturnDrift(log, id))
  {
    if |log| == 0 {
      EmptyDbOk(NO_SLACK);
    } else {
      var front, e := log[..|log| - 1], log[|log| - 1];
      var db := ApplyAll(EMPTY_DB, front);
      assert AllEnabled(EMPTY_DB, front) && Enabled(db, e) && ApplyAll(EMPTY_DB, log) == Apply(db, e);
      hide ApplyAll, AllEnabled, Apply, DossierOf, LifeOk, Amend;
      LogLife(front, id);
      LogDbOk(front);
      ApplyAmends(db, e, id);
      if IdOf(e) == id {
        assert OrderOk(DossierOf(db, id), id);
        EnabledFits(db, e);
        AmendLife(DossierOf(db, id), e, ReturnDrift(front, id));
      }
    }
  }

  /** The order is what an AddReturn made it. */
  predicate TakenBackDirectly(log: seq<Event>, id: string) {
    var last := LastChange(log, id);
    last.Some? && last.value.Changed? && last.value.kind.TakeBack? && last.value.kind.path == Direct
  }

  lemma {:induction false} LastChangeAt(log: seq<Event>, id: string) returns (i: nat)
    requires LastChange(log, id).Some?
    ensures i < |log| && LastChange(log, id) == Some(log[i])
  {
    i := |log| - 1;
    if !(IdOf(log[i]) == id && !log[i].Removed?) {
      i := LastChangeAt(log[..i], id);
    }
  }

  /** AcceptReturns reads the clock once, so its committed returns carry one time. */
  lemma {:induction false} BulkReturnsStill(run: seq<Taken>, i: nat)
    requires CanRun(run) && i < |Reached(run).log|
    requires var e := Reached(run).log[i]; e.Changed? && e.kind.TakeBack? && e.kind.path == ReturnPath.Bulk
    ensures Movement(Reached(run).log[i]) == 0
  {
    hide Reached, CanRun;
    var op := CommitsAsked(run, i);
  }

  /**
   While no committed change set a status by hand, under any interleaving: an order is issued at
   most once and returned at most once between its creation and its deletion, it is issued within
   its storage period and returned within 48 hours, its stamps agree, and it has exactly one return
   row when it is returned and none before. The clock that moved inside the very AddReturn that
   took the order back is all that can loosen this; for any other order it is exact.
   */
  lemma {:induction false} LifecycleExact(run: seq<Taken>, id: string)
    requires CanRun(run) && OrdinaryLog(Reached(run).log)
    ensures var s := Reached(run);
            && LifeOk(DossierOf(s.db, id), ReturnDrift(s.log, id))
            && (!TakenBackDirectly(s.log, id) ==> LifeOk(DossierOf(s.db, id), 0))
  {
    RunKeeps(run);
    var s := Reached(run);
    hide Reached, CanRun, ApplyAll, AllEnabled, DossierOf, LifeOk;
    SerialDossier(s.db, s.log, id);
    LogLife(s.log, id);
    if !TakenBackDirectly(s.log, id) && LastChange(s.log, id).Some? {
      var i := LastChangeAt(s.log, id);
      if s.log[i].Changed? && s.log[i].kind.TakeBack? {
        BulkReturnsStill(run, i);
      }
    }
  }

  /** A request that sets no status by hand, creates orders as received and has no clock that goes back. */
  predicate OrdinaryOp(op: Op) {
    match op
    case AddOrder(order, _) => order.status == Received
    case UpdateStatus(_, _, _) => false
    case AddReturn(_, _, clock) => clock.changedAt <= clock.returnedAt
    case _ => true
  }

  predicate OrdinaryRun(run: seq<Taken>) {
    forall j :: 0 <= j < |run| && run[j].step.Begin? ==> OrdinaryOp(run[j].step.op)
  }

  /** Runs of such requests commit ordinary changes only. */
  lemma {:induction false} OrdinaryRequests(run: seq<Taken>)
    requires CanRun(run) && OrdinaryRun(run)
    ensures OrdinaryLog(Reached(run).log)
  {
    forall i | 0 <= i < |Reached(run).log| ensures Ordinary(Reached(run).log[i]) {
      hide Reached, CanRun;
      var op := CommitsAsked(run, i);
      var j :| 0 <= j < |run| && run[j].step == Begin(op);
    }
  }

  // Audit, end to end.

  /** History rows that committed transactions inserted, including those that a later delete erased. */
  function HistoryInserts(log: seq<Event>): nat {
    if |log| == 0 then 0 else HistoryInserts(log[..|log| - 1]) + |HistoryRow(log[|log| - 1])|
  }

  function Deletes(log: seq<Event>): nat {
    if |log| == 0 then 0 else Deletes(log[..|log| - 1]) + if log[|log| - 1].Removed? then 1 else 0
  }

  lemma {:induction false} EventsCounted(log: seq<Event>)
    ensures |log| == HistoryInserts(log) + Deletes(log)
  {
    if |log| > 0 {
      EventsCounted(log[..|log| - 1]);
    }
  }

  /**
   No phantom audit: the tasks are those of the committed events, stamped when they were inserted,
   one for every history row ever inserted and one for every committed deletion, and every message
   the publisher sent is the audit record of a committed event.
   */
  lemma {:induction false} NoPhantomAudit(run: seq<Taken>)
    requires CanRun(run)
    ensures var s := Reached(run);
            && |s.db.outbox| == HistoryInserts(s.log) + Deletes(s.log) == |s.log|
            && (forall i :: 0 <= i < |s.db.outbox| ==>
                  && s.db.outbox[i].topic == "audit_logs" && s.db.outbox[i].payload == AuditOf(s.log[i])
                  && s.db.outbox[i].createdAt == s.db.outbox[i].updatedAt == s.log[i].loggedAt)
            && (forall k :: 0 <= k < |s.sends| ==>
                  && s.sends[k].id < |s.log| && s.sends[k].topic == "audit_logs"
                  && s.sends[k].payload == AuditOf(s.log[s.sends[k].id]))
  {
    hide ThreadsOk, CacheOk, Safety.RowsOk, Safety.PhaseOk, AllEnabled, ApplyAll;
    RunKeeps(run);
    EventsCounted(Reached(run).log);
  }

  /**
   What the audit tasks of the changes say, in every reachable state: the old status always, the
   new one only if it is the empty text, because the callers pass it under a key that is not
   looked up. The task of a creation does name the status.
   */
  lemma {:induction false} NewStatusLost(run: seq<Taken>, i: nat)
    requires CanRun(run) && i < |Reached(run).log| && !Reached(run).log[i].Removed?
    ensures var s, e := Reached(run), Reached(run).log[i];
            && |s.db.outbox| == |s.log|
            && (if e.Created? then s.db.outbox[i].payload.newStatus == e.order.status
                else
                  && s.db.outbox[i].payload.oldStatus == e.before.status
                  && (s.db.outbox[i].payload.newStatus == Target(e.kind) <==> Target(e.kind) == NO_STATUS))
  {
    NoPhantomAudit(run);
  }

  /** Each audit record is sent at most five times and at most once with success, and its row tells how often. */
  lemma {:induction false} DeliveredSafely(run: seq<Taken>)
    requires CanRun(run)
    ensures var s := Reached(run);
            forall i :: 0 <= i < |s.db.outbox| ==>
              && Safety.RowOk(s.db.outbox[i], Safety.Sent(s.sends, i), Safety.Accepted(s.sends, i))
              && Safety.Sent(s.sends, i) <= 5 && Safety.Accepted(s.sends, i) <= 1
  {
    RunKeeps(run);
  }
}
