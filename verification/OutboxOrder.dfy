/** The tasks that the store inserts, as the publisher meets them: oldest first is the order of the commits. */
module OutboxOrder {
  import opened Model
  import opened Ledger
  import opened SystemSpec
  import opened SystemTheorems
  import opened SystemResults
  import opened PublisherProgress

  /** The tasks of the committed events were inserted one after the other. */
  predicate Advancing(log: seq<Event>) {
    forall i, j :: 0 <= i < j < |log| ==> log[i].loggedAt < log[j].loggedAt
  }

  /** A task that was never sent, or failed fewer than five times. */
  predicate Unfinished(t: Task) {
    t.status == CREATED || (t.status == FAILED && t.attempts < 5)
  }

  lemma {:induction false} StampedInOrder(run: seq<Taken>)
    requires CanRun(run) && Advancing(Reached(run).log)
    ensures var outbox := Reached(run).db.outbox;
            forall i, j :: 0 <= i < j < |outbox| ==> outbox[i].updatedAt < outbox[j].updatedAt
  {
    NoPhantomAudit(run);
    hide Reached, CanRun;
  }

  /**
   In every reachable state whose tasks were inserted one after the other, whatever the select
   returns is sorted by commit, and leaves out no unfinished task that was committed before one
   that it contains.
   */
  lemma {:induction false} OldestCommitted(run: seq<Taken>, limit: nat, batch: seq<P.Fetched>)
    requires CanRun(run) && Advancing(Reached(run).log) && P.IsBatch(Reached(run).db.outbox, limit, batch)
    ensures var outbox := Reached(run).db.outbox;
            && |batch| <= limit
            && (forall j :: 0 <= j < |batch| ==> batch[j].id < |outbox| && Unfinished(outbox[batch[j].id]))
            && (forall i, j :: 0 <= i < j < |batch| ==> batch[i].id < batch[j].id)
            && (forall id :: 0 <= id < |outbox| && Unfinished(outbox[id]) && !P.Picked(batch, id) ==>
                  |batch| == limit && forall j :: 0 <= j < |batch| ==> batch[j].id < id)
  {
    StampedInOrder(run);
    hide Reached, CanRun;
    var outbox := Reached(run).db.outbox;
    forall i, j | 0 <= i < j < |batch| ensures batch[i].id < batch[j].id {
      assert batch[i].id != batch[j].id && outbox[batch[i].id].updatedAt <= outbox[batch[j].id].updatedAt;
    }
    forall id, j | 0 <= id < |outbox| && Unfinished(outbox[id]) && !P.Picked(batch, id) && 0 <= j < |batch|
      ensures batch[j].id < id
    {
      assert P.Processable(outbox[id]) && batch[j].id != id;
    }
  }

  lemma StepGrows(s: System, t: nat, step: Step)
    requires CanDo(s, t, step)
    ensures s.log <= Do(s, t, step).log
  {
  }

  lemma {:induction false} LogGrows(run: seq<Taken>, longer: seq<Taken>)
    requires run <= longer && CanRun(longer)
    ensures CanRun(run) && Reached(run).log <= Reached(longer).log
    decreases |longer|
  {
    hide Do, CanDo;
    if |run| < |longer| {
      var front, last := longer[..|longer| - 1], longer[|longer| - 1];
      LogGrows(run, front);
      StepGrows(Reached(front), last.t, last.step);
    } else {
      assert run == longer;
    }
  }

  /** What is committed later arrives late for every task that is there already. */
  lemma {:induction false} CommitsArriveLate(run: seq<Taken>, longer: seq<Taken>, r: Round, i: nat)
    requires CanRun(longer) && run <= longer && Advancing(Reached(longer).log)
    ensures CanRun(run) && Reached(run).log <= Reached(longer).log
    ensures var news := Reached(longer).log[|Reached(run).log|..];
            i < |Reached(run).db.outbox| && r.arrivals == Tasks(news) ==> Late(r, Reached(run).db.outbox[i].updatedAt)
  {
    LogGrows(run, longer);
    NoPhantomAudit(run);
    hide Reached, CanRun;
  }

  lemma {:induction false} NumberBelow(ids: set<nat>, n: nat)
    requires forall i :: i in ids ==> i < n
    ensures |ids| <= n
  {
    if n > 0 {
      NumberBelow(ids - {n - 1}, n - 1);
    } else {
      assert ids == {};
    }
  }

  /**
   Beside a running store: the task of the event that was committed at position `id` is sent within
   5 * id / limit + 1 undisturbed calls, if it is unfinished and whatever is committed meanwhile is
   stamped later.
   */
  lemma {:induction false} CommittedIsSent(run: seq<Taken>, limit: nat, rounds: seq<Round>, id: nat)
    requires CanRun(run) && Advancing(Reached(run).log) && limit >= 1 && id < |Reached(run).db.outbox|
    requires AllLawful(PubOf(Reached(run)), limit, rounds) && Unfinished(Reached(run).db.outbox[id])
    requires forall k :: 0 <= k < |rounds| ==> Late(rounds[k], Reached(run).db.outbox[id].updatedAt)
    requires |rounds| > 5 * id / limit
    ensures var p := PubOf(Reached(run));
            Safety.Sent(ServeAll(p, limit, rounds).sends, id) > Safety.Sent(p.sends, id)
  {
    StampedInOrder(run);
    DeliveredSafely(run);
    hide Reached, CanRun;
    var p := PubOf(Reached(run));
    forall i | 0 <= i < |p.tasks| ensures RowCounted(p.tasks[i]) {
      assert Safety.RowOk(p.tasks[i], Safety.Sent(p.sends, i), Safety.Accepted(p.sends, i));
    }
    NumberBelow(Ahead(p.tasks, id), id);
    QuotientBound(5 * id, limit, |rounds|);
    WorkBound(p.tasks, Ahead(p.tasks, id), Ahead(p.tasks, id));
    Overtakers(p, limit, rounds, id, Ahead(p.tasks, id));
  }
}
