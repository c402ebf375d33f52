/**
 What a transaction has collected while it works, and that the results of a bulk operation are
 true under every interleaving.
 */
module SystemAnswers {
  import opened Model
  import opened Ledger
  import opened StorageSpec
  import opened BulkRecords
  import opened SystemSpec
  import opened SystemTheorems

  function KeyOf(op: CacheOp): string {
    match op
    case Put(order) => order.id
    case Drop(id) => id
  }

  function Keys(ops: seq<CacheOp>): set<string> {
    set k | 0 <= k < |ops| :: KeyOf(ops[k])
  }

  /** The ids that were visited are the front of the list, and the results follow them. */
  predicate VisitedFront(w: Thread)
    requires w.Working?
  {
    var ids := Targets(w.op);
    Reads(w.op) ==>
    && |w.todo| <= |ids| && w.todo == ids[|ids| - |w.todo|..]
    && (w.op.Bulk? ==>
          |w.results| == |ids| - |w.todo| && forall i :: 0 <= i < |w.results| ==> w.results[i].orderId == ids[i])
  }

  /** The staged changes, the cache updates and the reported successes belong together. */
  predicate Collected(w: Thread)
    requires w.Working?
  {
    match w.op
    case AddOrder(order, _) =>
      if w.todo != [] then w.trail == [] && w.pending == []
      else
        && |w.trail| == 1 && w.trail[0].Created? && w.trail[0].order == order && w.trail[0].at == w.op.at
        && w.pending == [Put(order)]
    case DeleteOrder(id) =>
      if w.todo != [] then w.trail == [] && w.pending == []
      else |w.trail| == 1 && w.trail[0].Removed? && w.trail[0].id == id && w.pending == [Drop(id)]
    case _ =>
      && Uniform(w.trail, KindOf(w.op), StampOf(w.op))
      && (forall k :: 0 <= k < |w.pending| && w.pending[k].Put? ==> w.pending[k].order.status == Target(KindOf(w.op)))
      && (forall i :: 0 <= i < |w.trail| ==> IdOf(w.trail[i]) in Keys(w.pending) && IdOf(w.trail[i]) in Targets(w.op))
      && Succeeded(w.results) == IdsOf(w.trail)
  }

  ghost predicate WorkOk(w: Thread) {
    w.Working? ==> VisitedFront(w) && Collected(w)
  }

  ghost predicate WorksOk(s: System) {
    forall t :: t in s.threads ==> WorkOk(s.threads[t])
  }

  lemma {:induction false} MoreKeys(ops: seq<CacheOp>, op: CacheOp)
    ensures Keys(ops + [op]) == Keys(ops) + {KeyOf(op)}
  {
    forall id | id in Keys(ops) + {KeyOf(op)} ensures id in Keys(ops + [op]) {
      if id in Keys(ops) {
        var k :| 0 <= k < |ops| && KeyOf(ops[k]) == id;
        assert (ops + [op])[k] == ops[k];
      } else {
        assert KeyOf((ops + [op])[|ops|]) == id;
      }
    }
  }

  lemma {:induction false} StagedWork(w: Thread, loggedAt: Time)
    requires w.Working? && WorkOk(w) && Reads(w.op) && w.todo != [] && w.read.Some? && w.read.value.id == w.todo[0]
    requires Guard(w.read.value, KindOf(w.op), StampOf(w.op))
    ensures var row, kind, at := w.read.value, KindOf(w.op), StampOf(w.op);
            WorkOk(w.(todo := w.todo[1..], read := None, trail := w.trail + [Changed(row, kind, at, loggedAt)],
                      pending := w.pending + [Refresh(kind, After(row, kind, at))], results := NextResults(w, Nothing)))
  {
    var row, kind, at := w.read.value, KindOf(w.op), StampOf(w.op);
    var op, e := Refresh(kind, After(row, kind, at)), Changed(row, kind, at, loggedAt);
    OneMoreSuccess(w.results, ItemResult(w.todo[0], true, Nothing));
    assert IdsOf(w.trail + [e]) == IdsOf(w.trail) + [w.todo[0]];
    MoreKeys(w.pending, op);
    hide Keys, Succeeded, IdsOf, Guard;
  }

  lemma {:induction false} PassedWork(w: Thread, reason: Reason)
    requires w.Working? && WorkOk(w) && w.op.Bulk? && w.todo != [] && reason != Nothing
    ensures WorkOk(w.(todo := w.todo[1..], read := None, results := NextResults(w, reason)))
  {
    assert NextResults(w, reason)[..|w.results|] == w.results;
  }

  lemma {:induction false} RefreshedWork(w: Thread)
    requires w.Working? && WorkOk(w) && w.op.UpdateStatus? && w.todo != [] && w.read.Some?
    requires w.read.value.status == w.op.status
    ensures WorkOk(w.(todo := w.todo[1..], read := None, pending := w.pending + [Put(w.read.value)]))
  {
    MoreKeys(w.pending, Put(w.read.value));
  }

  lemma {:induction false} StageKeepsWork(s: System, t: nat, loggedAt: Time)
    requires WorksOk(s) && SystemOk(s) && CanDo(s, t, Stage(loggedAt))
    ensures WorksOk(Do(s, t, Stage(loggedAt)))
  {
    hide Collected, VisitedFront, ApplyAll, AllEnabled;
    var w := s.threads[t];
    var row, kind, at := w.read.value, KindOf(w.op), StampOf(w.op);
    assert ThreadOk(s.db, s.log, HeldBy(s.locks, t), w);
    if Guard(row, kind, at) {
      StagedWork(w, loggedAt);
    } else if w.op.UpdateStatus? {
      RefreshedWork(w);
    } else if w.op.Bulk? {
      PassedWork(w, Refusal(w.op.mode, row, w.op.user, w.op.now));
    }
  }

  lemma {:induction false} ReadWork(w: Thread, row: Option<Order>)
    requires w.Working? && WorkOk(w)
    ensures WorkOk(w.(read := row))
  {
  }

  lemma {:induction false} LockedReadKeepsWork(s: System, t: nat)
    requires WorksOk(s) && CanDo(s, t, LockedRead)
    ensures WorksOk(Do(s, t, LockedRead))
  {
    hide Collected, VisitedFront, ApplyAll;
    var w := s.threads[t];
    var row := Visible(s, w, w.todo[0]);
    if row.Some? {
      ReadWork(w, row);
    } else if w.op.Bulk? {
      PassedWork(w, OrderNotFound);
      assert w.(todo := w.todo[1..], read := None) == w.(todo := w.todo[1..]);
    }
  }

  lemma {:induction false} NewWork(op: Op)
    ensures WorkOk(Working(op, Targets(op), None, [], [], []))
  {
  }

  lemma {:induction false} InsertedWork(w: Thread, loggedAt: Time)
    requires w.Working? && WorkOk(w) && w.op.AddOrder? && w.todo != []
    ensures WorkOk(w.(todo := [], read := None, trail := [Created(w.op.order, w.op.at, loggedAt)],
                      pending := [Put(w.op.order)]))
  {
    hide Uniform, Keys, Succeeded, IdsOf;
  }

  lemma {:induction false} DeletedWork(w: Thread, existed: bool, loggedAt: Time)
    requires w.Working? && WorkOk(w) && w.op.DeleteOrder? && w.todo != []
    ensures WorkOk(w.(todo := [], read := None, trail := [Removed(w.op.id, existed, loggedAt)],
                      pending := [Drop(w.op.id)]))
  {
    hide Uniform, Keys, Succeeded, IdsOf;
  }

  lemma {:induction false} StartKeepsWork(s: System, t: nat, step: Step)
    requires WorksOk(s) && CanDo(s, t, step) && (step.Begin? || step.Insert? || step.Delete?)
    ensures WorksOk(Do(s, t, step))
  {
    hide WorkOk;
    match step
    case Begin(op) => NewWork(op);
    case Insert(loggedAt) => InsertedWork(s.threads[t], loggedAt);
    case Delete(loggedAt) => DeletedWork(s.threads[t], s.threads[t].op.id in s.db.orders, loggedAt);
  }

  lemma {:induction false} StepKeepsWork(s: System, t: nat, step: Step)
    requires WorksOk(s) && SystemOk(s) && CanDo(s, t, step)
    ensures WorksOk(Do(s, t, step))
  {
    hide SystemOk, Collected, VisitedFront;
    if step.Stage? {
      StageKeepsWork(s, t, step.loggedAt);
    } else if step.LockedRead? {
      LockedReadKeepsWork(s, t);
    } else if step.Begin? || step.Insert? || step.Delete? {
      StartKeepsWork(s, t, step);
    }
  }

  lemma {:induction false} RunKeepsWork(run: seq<Taken>)
    requires CanRun(run)
    ensures WorksOk(Reached(run))
    decreases |run|
  {
    if |run| > 0 {
      RunKeepsWork(run[..|run| - 1]);
      RunKeeps(run[..|run| - 1]);
      StepKeepsWork(Reached(run[..|run| - 1]), run[|run| - 1].t, run[|run| - 1].step);
    }
  }

  // Answers.

  lemma {:induction false} SucceededAt(results: seq<ItemResult>, id: string)
    ensures id in Succeeded(results) <==>
              exists i :: 0 <= i < |results| && results[i].orderId == id && results[i].success
  {
    if |results| > 0 {
      var front := results[..|results| - 1];
      SucceededAt(front, id);
      if i :| 0 <= i < |results| && results[i].orderId == id && results[i].success {
        assert i < |front| ==> front[i] == results[i];
      }
      if i :| 0 <= i < |front| && front[i].orderId == id && front[i].success {
        assert results[i] == front[i];
      }
    }
  }

  /** An allowed change is never to the status that the order has. */
  lemma {:induction false} StatusMoves(es: seq<Event>, kind: Kind, at: Time)
    requires Uniform(es, kind, at) && forall i :: 0 <= i < |es| ==> Guard(es[i].before, kind, at)
    ensures forall i :: 0 <= i < |es| ==> After(es[i].before, kind, at) != es[i].before
  {
  }

  /** Changes of one kind rewrite exactly the rows they name, each from the row it had. */
  lemma {:induction false} RowsRewritten(db: Db, es: seq<Event>, kind: Kind, at: Time)
    requires Uniform(es, kind, at) && AllEnabled(db, es)
    ensures var db' := ApplyAll(db, es);
            && (forall id :: RowOf(db', id) != RowOf(db, id) <==> id in IdsOf(es))
            && (forall id :: id in IdsOf(es) ==>
                  && id in db.orders && Guard(db.orders[id], kind, at)
                  && RowOf(db', id) == Some(After(db.orders[id], kind, at)))
  {
    UniformRows(db, es, kind, at);
    StatusMoves(es, kind, at);
    hide ApplyAll, AllEnabled, Guard, After, Uniform;
    forall id | id in IdsOf(es)
      ensures id in db.orders && Guard(db.orders[id], kind, at)
      ensures RowOf(ApplyAll(db, es), id) == Some(After(db.orders[id], kind, at)) != RowOf(db, id)
    {
      var i :| 0 <= i < |es| && IdOf(es[i]) == id;
    }
  }

  lemma {:induction false} WorkAnswers(db: Db, w: Thread)
    requires w.Working? && w.op.Bulk? && Collected(w) && AllEnabled(db, w.trail)
    ensures var db' := ApplyAll(db, w.trail);
            && (forall id :: RowOf(db', id) != RowOf(db, id) <==>
                             exists i :: 0 <= i < |w.results| && w.results[i].orderId == id && w.results[i].success)
            && (forall id :: RowOf(db', id) != RowOf(db, id) ==>
                  && id in db.orders && Guard(db.orders[id], KindOf(w.op), w.op.now)
                  && RowOf(db', id) == Some(After(db.orders[id], KindOf(w.op), w.op.now)))
  {
    RowsRewritten(db, w.trail, KindOf(w.op), w.op.now);
    assert Succeeded(w.results) == IdsOf(w.trail);
    hide *;
    forall id ensures id in IdsOf(w.trail) <==>
                      exists i :: 0 <= i < |w.results| && w.results[i].orderId == id && w.results[i].success
    {
      SucceededAt(w.results, id);
    }
  }

  /** What the caller of a bulk operation is told: a failed commit takes every success back, and is no error. */
  function Told(w: Thread, committed: bool): seq<ItemResult>
    requires w.Working?
  {
    if committed then w.results else Demote(w.results, CommitFailed)
  }

  /**
   Under every interleaving the results of a bulk operation are true, whether its commit succeeds
   or fails: they follow the ids, and this operation changes an order's row exactly if an item for
   it reports success. The change is the allowed one, made to the row that was committed at that
   moment.
   */
  lemma {:induction false} AnswersTrue(run: seq<Taken>, t: nat, committed: bool)
    requires CanRun(run) && CanDo(Reached(run), t, Step.Commit) && Reached(run).threads[t].op.Bulk?
    ensures var s, s' := Reached(run), Do(Reached(run), t, if committed then Step.Commit else Step.Abort);
            var op, results := s.threads[t].op, Told(s.threads[t], committed);
            && |results| == |op.ids| && (forall i :: 0 <= i < |results| ==> results[i].orderId == op.ids[i])
            && (forall id :: RowOf(s'.db, id) != RowOf(s.db, id) <==>
                             exists i :: 0 <= i < |results| && results[i].orderId == id && results[i].success)
            && (forall id :: RowOf(s'.db, id) != RowOf(s.db, id) ==>
                  && id in s.db.orders && Guard(s.db.orders[id], KindOf(op), op.now)
                  && RowOf(s'.db, id) == Some(After(s.db.orders[id], KindOf(op), op.now)))
  {
    hide Serial, CacheOk, Safety.PubOk, AllEnabled, ApplyAll;
    RunKeepsWork(run);
    RunKeeps(run);
    var s, w := Reached(run), Reached(run).threads[t];
    assert WorkOk(w) && ThreadOk(s.db, s.log, HeldBy(s.locks, t), w);
    hide SystemOk, WorksOk, ThreadOk, AllEnabled, Reached, CanRun;
    WorkAnswers(s.db, w);
  }

  // Requests.

  /** The change is one that the operation asks for, with the operation's own stamps. */
  predicate AskedBy(e: Event, op: Op) {
    match op
    case AddOrder(order, at) => e.Created? && e.order == order && e.at == at
    case DeleteOrder(id) => e.Removed? && e.id == id
    case _ => e.Changed? && e.kind == KindOf(op) && e.at == StampOf(op) && IdOf(e) in Targets(op)
  }

  ghost predicate Begun(run: seq<Taken>, op: Op) {
    exists j :: 0 <= j < |run| && run[j].step == Step.Begin(op)
  }

  lemma {:induction false} OpAfter(s: System, t: nat, step: Step, u: nat)
    requires CanDo(s, t, step) && Works(Do(s, t, step), u)
    ensures step == Step.Begin(Do(s, t, step).threads[u].op)
              || (Works(s, u) && s.threads[u].op == Do(s, t, step).threads[u].op)
  {
    hide ApplyAll, Guard, Refresh, NextResults, Tell;
  }

  /** Every operation at work was begun. */
  lemma {:induction false} OpsBegun(run: seq<Taken>, u: nat)
    requires CanRun(run) && Works(Reached(run), u)
    ensures Begun(run, Reached(run).threads[u].op)
    decreases |run|
  {
    if |run| > 0 {
      var front, last := run[..|run| - 1], run[|run| - 1];
      OpAfter(Reached(front), last.t, last.step, u);
      if last.step != Step.Begin(Reached(run).threads[u].op) {
        OpsBegun(front, u);
        var j :| 0 <= j < |front| && front[j].step == Step.Begin(Reached(run).threads[u].op);
        assert run[j] == front[j];
      }
    }
  }

  lemma {:induction false} TrailAsked(w: Thread, i: nat)
    requires w.Working? && Collected(w) && i < |w.trail|
    ensures AskedBy(w.trail[i], w.op)
  {
  }

  lemma {:induction false} LogAfter(s: System, t: nat, step: Step)
    requires CanDo(s, t, step)
    ensures Do(s, t, step).log == if step.Commit? then s.log + s.threads[t].trail else s.log
  {
    hide ApplyAll, Guard, Refresh, NextResults, Tell;
  }

  /** Every committed change was asked for by a request of the run. */
  lemma {:induction false} CommitsAsked(run: seq<Taken>, i: nat) returns (op: Op)
    requires CanRun(run) && i < |Reached(run).log|
    ensures Begun(run, op) && AskedBy(Reached(run).log[i], op)
    decreases |run|
  {
    var front, last := run[..|run| - 1], run[|run| - 1];
    var s := Reached(front);
    LogAfter(s, last.t, last.step);
    if i < |s.log| {
      op := CommitsAsked(front, i);
      var j :| 0 <= j < |front| && front[j].step == Step.Begin(op);
      assert run[j] == front[j];
    } else {
      RunKeepsWork(front);
      op := s.threads[last.t].op;
      assert WorkOk(s.threads[last.t]);
      TrailAsked(s.threads[last.t], i - |s.log|);
      OpsBegun(front, last.t);
      var j :| 0 <= j < |front| && front[j].step == Step.Begin(op);
      assert run[j] == front[j];
    }
  }
}
