/** Delivery safety of one publisher, over every run of the machine. */
module PublisherSafety {
  import opened Model
  import opened PublisherSpec

  /** How often a task was sent. */
  function Sent(sends: seq<Send>, id: nat): nat {
    if |sends| == 0 then 0
    else Sent(sends[..|sends| - 1], id) + if sends[|sends| - 1].id == id then 1 else 0
  }

  /** How often a task was sent with success. */
  function Accepted(sends: seq<Send>, id: nat): nat {
    if |sends| == 0 then 0
    else Accepted(sends[..|sends| - 1], id) + if sends[|sends| - 1].id == id && sends[|sends| - 1].ok then 1 else 0
  }

  lemma {:induction false} SentAppend(sends: seq<Send>, s: Send, id: nat)
    ensures Sent(sends + [s], id) == Sent(sends, id) + if s.id == id then 1 else 0
    ensures Accepted(sends + [s], id) == Accepted(sends, id) + if s.id == id && s.ok then 1 else 0
  {
    assert (sends + [s])[..|sends|] == sends;
  }

  /** What a row says about the `n` times its task was sent, `w` of them with success. */
  predicate RowOk(t: Task, n: nat, w: nat) {
    && (t.completedAt.Some? <==> t.status == DONE)
    && (t.lastError.Some? <==> t.status == FAILED)
    && match t.status
       case CREATED => t.attempts == 0 && n == 0 && w == 0
       case PROCESSING => t.attempts <= 4 && t.attempts <= n <= t.attempts + 1 && w <= n - t.attempts
       case FAILED => 1 <= t.attempts <= 5 && n == t.attempts && w == 0
       case DONE => t.attempts <= 4 && n == t.attempts + 1 && w == 1
  }

  /** The row of a batch member before it is sent: marked, and as old as its snapshot. */
  predicate Waiting(t: Task, x: Fetched, n: nat, w: nat) {
    t.status == PROCESSING && t.attempts == x.task.attempts == n && w == 0
  }

  /** The row of a batch member between the send and the report. */
  predicate InFlight(t: Task, x: Fetched, n: nat, w: nat, sent: bool) {
    t.status == PROCESSING && t.attempts == x.task.attempts && n == t.attempts + 1 && w == if sent then 1 else 0
  }

  /** The row of a batch member that was sent: finalised, or left marked when its report was lost. */
  predicate Attempted(t: Task, n: nat) {
    t.status == DONE || t.status == FAILED || (t.status == PROCESSING && n == t.attempts + 1)
  }

  predicate BatchOk(tasks: seq<Task>, batch: seq<Fetched>) {
    && Within(tasks, batch)
    && (forall i, j :: 0 <= i < j < |batch| ==> batch[i].id != batch[j].id)
    && (forall j :: 0 <= j < |batch| ==>
          batch[j].task.topic == tasks[batch[j].id].topic && batch[j].task.payload == tasks[batch[j].id].payload)
  }

  predicate PhaseOk(p: Pub) {
    match p.phase
    case Idle => true
    case Selected(batch) =>
      && BatchOk(p.tasks, batch)
      && forall j :: 0 <= j < |batch| ==> batch[j].task == p.tasks[batch[j].id] && Processable(batch[j].task)
    case Sending(batch, k) =>
      && BatchOk(p.tasks, batch) && k <= |batch|
      && (forall j :: 0 <= j < k ==> Attempted(p.tasks[batch[j].id], Sent(p.sends, batch[j].id)))
      && (forall j :: k <= j < |batch| ==>
            Waiting(p.tasks[batch[j].id], batch[j], Sent(p.sends, batch[j].id), Accepted(p.sends, batch[j].id)))
    case Reporting(batch, k, sent) =>
      && BatchOk(p.tasks, batch) && k < |batch|
      && (forall j :: 0 <= j < k ==> Attempted(p.tasks[batch[j].id], Sent(p.sends, batch[j].id)))
      && InFlight(p.tasks[batch[k].id], batch[k], Sent(p.sends, batch[k].id), Accepted(p.sends, batch[k].id), sent)
      && (forall j :: k < j < |batch| ==>
            Waiting(p.tasks[batch[j].id], batch[j], Sent(p.sends, batch[j].id), Accepted(p.sends, batch[j].id)))
  }

  /** Every message that was sent carries the topic and the payload of its row. */
  predicate SendsOk(p: Pub) {
    forall i :: 0 <= i < |p.sends| ==>
      && p.sends[i].id < |p.tasks|
      && p.sends[i].topic == p.tasks[p.sends[i].id].topic && p.sends[i].payload == p.tasks[p.sends[i].id].payload
  }

  predicate RowsOk(p: Pub) {
    forall i :: 0 <= i < |p.tasks| ==> RowOk(p.tasks[i], Sent(p.sends, i), Accepted(p.sends, i))
  }

  predicate PubOk(p: Pub) {
    RowsOk(p) && PhaseOk(p) && SendsOk(p)
  }

  lemma {:induction false} Unsent(sends: seq<Send>, id: nat)
    requires forall i :: 0 <= i < |sends| ==> sends[i].id != id
    ensures Sent(sends, id) == 0 && Accepted(sends, id) == 0
  {
    if |sends| > 0 {
      Unsent(sends[..|sends| - 1], id);
    }
  }

  /** The row a marking writes. */
  function Marked(t: Task): Task {
    t.(status := PROCESSING, lastError := None, completedAt := None)
  }

  lemma {:induction false} MarkAllRows(tasks: seq<Task>, batch: seq<Fetched>)
    requires BatchOk(tasks, batch) && forall j :: 0 <= j < |batch| ==> batch[j].task == tasks[batch[j].id]
    ensures forall i :: 0 <= i < |tasks| && !Picked(batch, i) ==> MarkAll(tasks, batch)[i] == tasks[i]
    ensures forall j :: 0 <= j < |batch| ==> MarkAll(tasks, batch)[batch[j].id] == Marked(batch[j].task)
  {
    if |batch| > 0 {
      var front := batch[..|batch| - 1];
      MarkAllRows(tasks, front);
      assert MarkAll(tasks, front)[batch[|batch| - 1].id] == tasks[batch[|batch| - 1].id];
      forall i | 0 <= i < |tasks| && !Picked(batch, i) ensures MarkAll(tasks, batch)[i] == tasks[i] {
        assert batch[|batch| - 1].id != i;
        forall j | 0 <= j < |front| ensures front[j].id != i {
          assert batch[j].id != i;
        }
      }
    }
  }

  lemma {:induction false} MarkKeeps(p: Pub)
    requires PubOk(p) && p.phase.Selected?
    ensures CanStep(p, MarksCommitted) && PubOk(Do(p, MarksCommitted))
  {
    hide Sent, Accepted, MarkAll;
    var batch, p' := p.phase.batch, Do(p, MarksCommitted);
    MarkAllRows(p.tasks, batch);
    forall i | 0 <= i < |p.tasks|
      ensures RowOk(p'.tasks[i], Sent(p.sends, i), Accepted(p.sends, i)) && p'.tasks[i].topic == p.tasks[i].topic
                && p'.tasks[i].payload == p.tasks[i].payload
    {
      if Picked(batch, i) {
        var j :| 0 <= j < |batch| && batch[j].id == i;
        assert p'.tasks[i] == Marked(batch[j].task);
      }
    }
  }

  lemma {:induction false} InsertKeeps(p: Pub, payload: Payload, at: Time)
    requires PubOk(p)
    ensures PubOk(Do(p, Insert(payload, at)))
  {
    hide Sent, Accepted;
    Unsent(p.sends, |p.tasks|);
  }

  lemma {:induction false} DeliverKeeps(p: Pub, accepted: bool)
    requires PubOk(p) && CanStep(p, Deliver(accepted))
    ensures PubOk(Do(p, Deliver(accepted)))
  {
    var x, p' := p.phase.batch[p.phase.k], Do(p, Deliver(accepted));
    forall i: nat
      ensures Sent(p'.sends, i) == Sent(p.sends, i) + if x.id == i then 1 else 0
      ensures Accepted(p'.sends, i) == Accepted(p.sends, i) + if x.id == i && accepted then 1 else 0
    {
      SentAppend(p.sends, Send(x.id, x.task.topic, x.task.payload, accepted), i);
    }
  }

  /** The task in flight gets its final row, or keeps the one it has. */
  lemma LandKeeps(p: Pub, t: Task)
    requires PubOk(p) && p.phase.Reporting?
    requires var i := p.phase.batch[p.phase.k].id;
             && RowOk(t, Sent(p.sends, i), Accepted(p.sends, i)) && Attempted(t, Sent(p.sends, i))
             && t.topic == p.tasks[i].topic && t.payload == p.tasks[i].payload
    ensures PubOk(Pub(p.tasks[p.phase.batch[p.phase.k].id := t], p.sends, Sending(p.phase.batch, p.phase.k + 1)))
  {
  }

  lemma {:induction false} ReportKeeps(p: Pub, stored: bool, now: Time, error: string)
    requires PubOk(p) && CanStep(p, Report(stored, now, error))
    ensures PubOk(Do(p, Report(stored, now, error)))
  {
    var x, p' := p.phase.batch[p.phase.k], Do(p, Report(stored, now, error));
    LandKeeps(p, p'.tasks[x.id]);
    assert p'.tasks == p.tasks[x.id := p'.tasks[x.id]];
  }

  lemma {:induction false} StepKeeps(p: Pub, step: PubStep)
    requires PubOk(p) && CanStep(p, step)
    ensures PubOk(Do(p, step))
  {
    match step
    case Insert(payload, at) => InsertKeeps(p, payload, at);
    case MarksCommitted => MarkKeeps(p);
    case Deliver(accepted) => DeliverKeeps(p, accepted);
    case Report(stored, now, error) => ReportKeeps(p, stored, now, error);
    case _ =>
  }

  lemma {:induction false} RunKeeps(p: Pub, steps: seq<PubStep>)
    requires PubOk(p) && CanRun(p, steps)
    ensures PubOk(Run(p, steps))
    decreases |steps|
  {
    if |steps| > 0 {
      StepKeeps(p, steps[0]);
      RunKeeps(Do(p, steps[0]), steps[1..]);
    }
  }

  /**
   Over every run of one publisher, mixing inserts, failed sends, lost markings, lost reports
   and interruptions: each task is sent at most five times and at most once with success, its
   row tells how often, and every message is that of its row.
   */
  lemma {:induction false} DeliverySafety(steps: seq<PubStep>)
    requires CanRun(NO_TASKS, steps)
    ensures var p := Run(NO_TASKS, steps);
            && SendsOk(p)
            && forall i :: 0 <= i < |p.tasks| ==>
                 && RowOk(p.tasks[i], Sent(p.sends, i), Accepted(p.sends, i))
                 && Sent(p.sends, i) <= 5 && Accepted(p.sends, i) <= 1
  {
    RunKeeps(NO_TASKS, steps);
  }

  /** Nothing lowers the attempts of a task, and nothing changes its message, its age or a finished row. */
  lemma {:induction false} StepOnlyAdvances(p: Pub, step: PubStep, i: nat)
    requires PubOk(p) && CanStep(p, step) && i < |p.tasks|
    ensures var t, t' := p.tasks[i], Do(p, step).tasks[i];
            && t.attempts <= t'.attempts
            && t'.topic == t.topic && t'.payload == t.payload
            && t'.createdAt == t.createdAt && t'.updatedAt == t.updatedAt
            && (t.status == DONE || (t.status == FAILED && t.attempts == 5) ==> t' == t)
  {
    if step.MarksCommitted? {
      MarkAllRows(p.tasks, p.phase.batch);
      if Picked(p.phase.batch, i) {
        var j :| 0 <= j < |p.phase.batch| && p.phase.batch[j].id == i;
        assert Do(p, step).tasks[i] == Marked(p.phase.batch[j].task);
      }
    }
  }

  // Tasks that are lost.

  /** The row is marked, and no running batch holds it. */
  predicate Stranded(p: Pub, i: nat) {
    && i < |p.tasks| && p.tasks[i].status == PROCESSING
    && match p.phase
       case Idle => true
       case Selected(batch) => !Picked(batch, i)
       case Sending(batch, _) => !Picked(batch, i)
       case Reporting(batch, _, _) => !Picked(batch, i)
  }

  lemma {:induction false} StrandedStep(p: Pub, step: PubStep, i: nat)
    requires PubOk(p) && CanStep(p, step) && Stranded(p, i)
    ensures Stranded(Do(p, step), i) && Do(p, step).tasks[i] == p.tasks[i]
    ensures Sent(Do(p, step).sends, i) == Sent(p.sends, i)
  {
    if step.MarksCommitted? {
      MarkAllRows(p.tasks, p.phase.batch);
    }
  }

  /**
   A row that is left marked by a batch that is over stays as it is in every continuation, and
   its task is never sent again: delivery is not at-least-once.
   */
  lemma {:induction false} StrandedForever(p: Pub, steps: seq<PubStep>, i: nat)
    requires PubOk(p) && CanRun(p, steps) && Stranded(p, i)
    ensures |Run(p, steps).tasks| > i && Run(p, steps).tasks[i] == p.tasks[i]
    ensures Sent(Run(p, steps).sends, i) == Sent(p.sends, i)
    decreases |steps|
  {
    if |steps| > 0 {
      StepKeeps(p, steps[0]);
      StrandedStep(p, steps[0], i);
      StrandedForever(Do(p, steps[0]), steps[1..], i);
    }
  }
}
