/** The outbox publisher: fetch a batch, mark it in one transaction, then send and report task by task. */
module PublisherService {
  import opened Model
  import opened PublisherSpec
  import opened PublisherSafety

  /** The processable tasks are those in `left` and, sorted and no younger than these, those in `found`. */
  ghost predicate OldestFirst(tasks: seq<Task>, left: set<nat>, found: seq<Fetched>) {
    && (forall i :: i in left ==> i < |tasks| && Processable(tasks[i]))
    && (forall j :: 0 <= j < |found| ==>
          found[j].id < |tasks| && found[j].task == tasks[found[j].id] && Processable(found[j].task)
              && found[j].id !in left)
    && (forall i, j :: 0 <= i < j < |found| ==>
          found[i].id != found[j].id && found[i].task.updatedAt <= found[j].task.updatedAt)
    && (forall j, i :: 0 <= j < |found| && i in left ==> found[j].task.updatedAt <= tasks[i].updatedAt)
    && (forall i :: 0 <= i < |tasks| && Processable(tasks[i]) ==> i in left || Picked(found, i))
  }

  lemma NothingPicked(tasks: seq<Task>, left: set<nat>)
    requires left == set i: nat | i < |tasks| && Processable(tasks[i])
    ensures OldestFirst(tasks, left, [])
  {
  }

  lemma {:induction false} PickedAppend(batch: seq<Fetched>, x: Fetched)
    ensures forall i: nat :: Picked(batch + [x], i) <==> Picked(batch, i) || x.id == i
    ensures forall j :: 0 <= j < |batch| ==> Picked(batch, batch[j].id)
  {
    forall i: nat ensures Picked(batch + [x], i) <==> Picked(batch, i) || x.id == i {
      if Picked(batch, i) {
        var j :| 0 <= j < |batch| && batch[j].id == i;
        assert (batch + [x])[j].id == i;
      }
      if x.id == i {
        assert (batch + [x])[|batch|].id == i;
      }
    }
  }

  lemma {:induction false} PickNext(tasks: seq<Task>, left: set<nat>, found: seq<Fetched>, next: nat)
    requires OldestFirst(tasks, left, found)
    requires next in left && forall i :: i in left ==> tasks[next].updatedAt <= tasks[i].updatedAt
    ensures OldestFirst(tasks, left - {next}, found + [Fetched(next, tasks[next])])
  {
    PickedAppend(found, Fetched(next, tasks[next]));
  }

  lemma PickedBatch(tasks: seq<Task>, left: set<nat>, found: seq<Fetched>, limit: nat)
    requires OldestFirst(tasks, left, found) && |found| <= limit && (left == {} || |found| == limit)
    ensures IsBatch(tasks, limit, found)
  {
  }

  lemma {:induction false} OldestTask(tasks: seq<Task>, ids: set<nat>)
    requires ids != {} && forall i :: i in ids ==> i < |tasks|
    ensures exists next :: next in ids && forall i :: i in ids ==> tasks[next].updatedAt <= tasks[i].updatedAt
  {
    var stamps := map i | i in ids :: tasks[i].updatedAt;
    assert stamps.Keys == ids;
    var next := OldestOf(stamps);
    assert forall i :: i in ids ==> stamps[i] == tasks[i].updatedAt && stamps[next] <= stamps[i];
    assert next in ids && forall i :: i in ids ==> tasks[next].updatedAt <= tasks[i].updatedAt;
  }

  class OutboxTable {
    var tasks: seq<Task>

    constructor (tasks: seq<Task>)
      ensures this.tasks == tasks
    {
      this.tasks := tasks;
    }

    /** SELECT ... ORDER BY updated_at LIMIT, which a negative limit turns into an error. */
    method GetProcessableTasks(limit: int, fails: bool) returns (batch: Option<seq<Fetched>>)
      ensures batch.Some? <==> !fails && limit >= 0
      ensures batch.Some? ==> |batch.value| <= limit && IsBatch(tasks, limit, batch.value)
    {
      hide OldestFirst, IsBatch;
      if fails || limit < 0 {
        return None;
      }
      var left := set i: nat | i < |tasks| && Processable(tasks[i]);
      var found: seq<Fetched> := [];
      NothingPicked(tasks, left);
      while left != {} && |found| < limit
        invariant |found| <= limit
        invariant forall i :: i in left ==> i < |tasks|
        invariant OldestFirst(tasks, left, found)
        decreases left
      {
        OldestTask(tasks, left);
        var next :| next in left && forall i :: i in left ==> tasks[next].updatedAt <= tasks[i].updatedAt;
        PickNext(tasks, left, found, next);
        found := found + [Fetched(next, tasks[next])];
        left := left - {next};
      }
      PickedBatch(tasks, left, found, limit);
      batch := Some(found);
    }

    /** The transaction that marks a batch: nothing is kept unless every update and the commit succeed. */
    method MarkProcessing(batch: seq<Fetched>, f: PubFaults) returns (ok: bool)
      requires Within(tasks, batch)
      modifies this
      ensures ok <==> !f(CommitMarks) && forall j :: 0 <= j < |batch| ==> !f(Mark(j))
      ensures tasks == if ok then MarkAll(old(tasks), batch) else old(tasks)
    {
      var staged := tasks;
      for j := 0 to |batch|
        invariant staged == MarkAll(tasks, batch[..j])
        invariant forall i :: 0 <= i < j ==> !f(Mark(i))
      {
        if f(Mark(j)) {
          return false;
        }
        assert batch[..j + 1][..j] == batch[..j];
        staged := Update(staged, batch[j].id, PROCESSING, batch[j].task.attempts, None, None);
      }
      assert batch[..|batch|] == batch;
      if f(CommitMarks) {
        return false;
      }
      tasks := staged;
      ok := true;
    }

    method UpdateTaskStatus(
        id: nat, status: TaskStatus, attempts: nat, lastError: Option<string>, completedAt: Option<Time>,
        fails: bool)
      returns (ok: bool)
      modifies this
      ensures ok <==> !fails && id < |old(tasks)|
      ensures tasks == if ok then Update(old(tasks), id, status, attempts, lastError, completedAt) else old(tasks)
    {
      ok := !fails && id < |tasks|;
      if ok {
        tasks := Update(tasks, id, status, attempts, lastError, completedAt);
      }
    }
  }

  class Producer {
    var sends: seq<Send>

    constructor ()
      ensures sends == []
    {
      sends := [];
    }

    method SendMessage(topic: string, key: nat, payload: Payload, fails: bool) returns (ok: bool)
      modifies this
      ensures ok == !fails && sends == old(sends) + [Send(key, topic, payload, ok)]
    {
      ok := !fails;
      sends := sends + [Send(key, topic, payload, ok)];
    }
  }

  class Publisher {
    const table: OutboxTable
    const producer: Producer
    const batchSize: int

    constructor (table: OutboxTable, producer: Producer, batchSize: int)
      ensures this.table == table && this.producer == producer && this.batchSize == batchSize
    {
      this.table, this.producer, this.batchSize := table, producer, batchSize;
    }

    ghost function View(): Pub
      reads table, producer
    {
      Pub(table.tasks, producer.sends, Idle)
    }

    /**
     `ok` is false when an error is returned: failed sends and reports are none. `batch` is what
     the select returned.
     */
    method ProcessBatch(f: PubFaults, clock: nat -> Time) returns (ok: bool, ghost batch: seq<Fetched>)
      modifies table, producer
      ensures Within(old(table.tasks), batch)
      ensures View() == BatchRun(old(View()), batch, f, clock)
      ensures if f(BeginTx) || f(SelectTasks) || batchSize < 0 then !ok && batch == []
                else IsBatch(old(table.tasks), batchSize, batch)
      ensures !f(BeginTx) && !f(SelectTasks) && batchSize >= 0 ==>
                (ok <==> if |batch| == 0 then !f(CommitMarks)
                    else !MarkingFails(f, |batch|) && Reach(batch, 0, f) == |batch|)
    {
      hide MarkAll, SendOne, Processable, Picked;
      batch := [];
      if f(BeginTx) {
        return false, [];
      }
      var fetched := table.GetProcessableTasks(batchSize, f(SelectTasks));
      if fetched == None {
        return false, [];
      }
      var tasks := fetched.value;
      batch := tasks;
      if |tasks| == 0 {
        return !f(CommitMarks), batch;
      }
      var marked := table.MarkProcessing(tasks, f);
      if !marked {
        return false, batch;
      }
      var k := 0;
      while k < |tasks|
        invariant 0 <= k <= |tasks|
        invariant Within(table.tasks, tasks)
        invariant Reach(tasks, k, f) == Reach(tasks, 0, f)
        invariant SendFrom(View(), tasks, k, f, clock) == BatchRun(old(View()), tasks, f, clock)
      {
        if f(Stop(k)) {
          return false, batch;
        }
        ProcessSingleTask(tasks[k], f(SendMessage(k)), f(SaveStatus(k)), clock(k));
        k := k + 1;
      }
      ok := true;
    }

    /** The caller only logs the outcome, so there is none. */
    method ProcessSingleTask(task: Fetched, sendFails: bool, saveFails: bool, now: Time)
      requires task.id < |table.tasks|
      modifies table, producer
      ensures View() == SendOne(old(View()), task, sendFails, saveFails, now)
    {
      var sent := producer.SendMessage(task.task.topic, task.id, task.task.payload, sendFails);
      if !sent {
        var newAttempts := task.task.attempts + 1;
        var saved := table.UpdateTaskStatus(task.id, FAILED, newAttempts, Some(SEND_ERROR), None, saveFails);
        return;
      }
      var saved := table.UpdateTaskStatus(task.id, DONE, task.task.attempts, None, Some(now), saveFails);
    }
  }

  // One call is a run of the machine.

  /** The steps of the machine from task `k` of a batch on. */
  function SendSteps(batch: seq<Fetched>, k: nat, f: PubFaults, clock: nat -> Time): seq<PubStep>
    requires k <= |batch|
    decreases |batch| - k
  {
    if k == |batch| then [Finish]
    else if f(Stop(k)) then [Interrupt]
    else
      [Deliver(!f(SendMessage(k))), Report(!f(SaveStatus(k)), clock(k), SEND_ERROR)] + SendSteps(batch, k + 1, f, clock)
  }

  function BatchSteps(limit: nat, batch: seq<Fetched>, f: PubFaults, clock: nat -> Time): seq<PubStep> {
    if |batch| == 0 || MarkingFails(f, |batch|) then []
    else [Select(limit, batch), MarksCommitted] + SendSteps(batch, 0, f, clock)
  }

  lemma {:induction false} SendFromIsRun(p: Pub, batch: seq<Fetched>, k: nat, f: PubFaults, clock: nat -> Time)
    requires k <= |batch| && Within(p.tasks, batch) && p.phase == Idle
    ensures var start := p.(phase := Sending(batch, k));
            CanRun(start, SendSteps(batch, k, f, clock)) &&
            Run(start, SendSteps(batch, k, f, clock)) == SendFrom(p, batch, k, f, clock)
    decreases |batch| - k
  {
    var start, steps := p.(phase := Sending(batch, k)), SendSteps(batch, k, f, clock);
    if k < |batch| && !f(Stop(k)) {
      var p1 := SendOne(p, batch[k], f(SendMessage(k)), f(SaveStatus(k)), clock(k));
      SendFromIsRun(p1, batch, k + 1, f, clock);
      assert steps[1..][1..] == SendSteps(batch, k + 1, f, clock);
      assert Do(Do(start, steps[0]), steps[1]) == p1.(phase := Sending(batch, k + 1));
    }
  }

  /** Whatever fails, a call of ProcessBatch is a run of the machine, so it keeps what every run keeps. */
  lemma {:induction false} BatchIsRun(p: Pub, limit: nat, batch: seq<Fetched>, f: PubFaults, clock: nat -> Time)
    requires p.phase == Idle && IsBatch(p.tasks, limit, batch)
    ensures CanRun(p, BatchSteps(limit, batch, f, clock))
    ensures Run(p, BatchSteps(limit, batch, f, clock)) == BatchRun(p, batch, f, clock)
    ensures PubOk(p) ==> PubOk(BatchRun(p, batch, f, clock))
  {
    hide SendFrom, SendSteps, MarkAll, PubOk, Update;
    if |batch| > 0 && !MarkingFails(f, |batch|) {
      var steps := BatchSteps(limit, batch, f, clock);
      SendFromIsRun(p.(tasks := MarkAll(p.tasks, batch)), batch, 0, f, clock);
      assert steps[1..][1..] == SendSteps(batch, 0, f, clock);
    }
    if PubOk(p) {
      RunKeeps(p, BatchSteps(limit, batch, f, clock));
    }
  }
}
