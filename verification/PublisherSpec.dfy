/**
 The outbox publisher as a machine of small steps, between any two of which other transactions
 may commit new tasks, and one call of processBatch as a function of the batch and its faults.
 */
module PublisherSpec {
  import opened Model

  const MAX_ATTEMPTS: nat := 5

  predicate Processable(t: Task) {
    t.status == CREATED || (t.status == FAILED && t.attempts < MAX_ATTEMPTS)
  }

  /** A row as the publisher fetched it; the row in the table may change afterwards. */
  datatype Fetched = Fetched(id: nat, task: Task)

  /** One call of the producer; `ok` says whether it reported success. */
  datatype Send = Send(id: nat, topic: string, payload: Payload, ok: bool)

  predicate Picked(batch: seq<Fetched>, id: nat) {
    exists j :: 0 <= j < |batch| && batch[j].id == id
  }

  /** What the select may return: processable rows, oldest first, `limit` of them or all; ties are broken in any way. */
  ghost predicate IsBatch(tasks: seq<Task>, limit: nat, batch: seq<Fetched>) {
    && |batch| <= limit
    && (forall j :: 0 <= j < |batch| ==>
          batch[j].id < |tasks| && batch[j].task == tasks[batch[j].id] && Processable(batch[j].task))
    && (forall i, j :: 0 <= i < j < |batch| ==>
          batch[i].id != batch[j].id && batch[i].task.updatedAt <= batch[j].task.updatedAt)
    && (forall id :: 0 <= id < |tasks| && Processable(tasks[id]) && !Picked(batch, id) ==>
          |batch| == limit && forall j :: 0 <= j < |batch| ==> batch[j].task.updatedAt <= tasks[id].updatedAt)
  }

  // The machine.

  datatype Phase =
    | Idle
    | Selected(batch: seq<Fetched>)
    | Sending(batch: seq<Fetched>, k: nat)
    | Reporting(batch: seq<Fetched>, k: nat, sent: bool)

  datatype Pub = Pub(tasks: seq<Task>, sends: seq<Send>, phase: Phase)

  datatype PubStep =
    | Insert(payload: Payload, at: Time)
    | Select(limit: nat, batch: seq<Fetched>)
    | MarksLost
    | MarksCommitted
    | Deliver(accepted: bool)
    | Report(stored: bool, now: Time, error: string)
    | Interrupt
    | Finish

  const NO_TASKS: Pub := Pub([], [], Idle)

  /** UPDATE of the four status columns; `updated_at` keeps its value. */
  function Update(
      tasks: seq<Task>, id: nat, status: TaskStatus, attempts: nat, lastError: Option<string>,
      completedAt: Option<Time>): seq<Task>
    requires id < |tasks|
  {
    tasks[id := tasks[id].(status := status, attempts := attempts, lastError := lastError, completedAt := completedAt)]
  }

  predicate Within(tasks: seq<Task>, batch: seq<Fetched>) {
    forall j :: 0 <= j < |batch| ==> batch[j].id < |tasks|
  }

  function MarkAll(tasks: seq<Task>, batch: seq<Fetched>): (marked: seq<Task>)
    requires Within(tasks, batch)
    ensures |marked| == |tasks|
  {
    if |batch| == 0 then tasks
    else
      var last := batch[|batch| - 1];
      Update(MarkAll(tasks, batch[..|batch| - 1]), last.id, PROCESSING, last.task.attempts, None, None)
  }

  /** The row after an attempt to send it whose outcome could be stored. */
  function Report1(tasks: seq<Task>, x: Fetched, sent: bool, now: Time, error: string): seq<Task>
    requires x.id < |tasks|
  {
    if sent then Update(tasks, x.id, DONE, x.task.attempts, None, Some(now))
    else Update(tasks, x.id, FAILED, x.task.attempts + 1, Some(error), None)
  }

  ghost predicate CanStep(p: Pub, step: PubStep) {
    match step
    case Insert(_, _) => true
    case Select(limit, batch) => p.phase == Idle && IsBatch(p.tasks, limit, batch)
    case MarksLost => p.phase.Selected?
    case MarksCommitted => p.phase.Selected? && Within(p.tasks, p.phase.batch)
    case Deliver(_) => p.phase.Sending? && p.phase.k < |p.phase.batch|
    case Report(_, _, _) => p.phase.Reporting? && p.phase.k < |p.phase.batch| && p.phase.batch[p.phase.k].id < |p.tasks|
    case Interrupt => true
    case Finish => p.phase.Sending? && p.phase.k == |p.phase.batch|
  }

  function Do(p: Pub, step: PubStep): Pub
    requires CanStep(p, step)
  {
    match step
    case Insert(payload, at) => p.(tasks := p.tasks + [NewTask(payload, at)])
    case Select(_, batch) => p.(phase := Selected(batch))
    case MarksLost => p.(phase := Idle)
    case MarksCommitted => p.(tasks := MarkAll(p.tasks, p.phase.batch), phase := Sending(p.phase.batch, 0))
    case Deliver(accepted) =>
      var x := p.phase.batch[p.phase.k];
      p.(sends := p.sends + [Send(x.id, x.task.topic, x.task.payload, accepted)],
         phase := Reporting(p.phase.batch, p.phase.k, accepted))
    case Report(stored, now, error) =>
      var x := p.phase.batch[p.phase.k];
      p.(tasks := if stored then Report1(p.tasks, x, p.phase.sent, now, error) else p.tasks,
         phase := Sending(p.phase.batch, p.phase.k + 1))
    case Interrupt => p.(phase := Idle)
    case Finish => p.(phase := Idle)
  }

  ghost predicate CanRun(p: Pub, steps: seq<PubStep>)
    decreases |steps|
  {
    |steps| == 0 || (CanStep(p, steps[0]) && CanRun(Do(p, steps[0]), steps[1..]))
  }

  function Run(p: Pub, steps: seq<PubStep>): Pub
    requires CanRun(p, steps)
    decreases |steps|
  {
    if |steps| == 0 then p else Run(Do(p, steps[0]), steps[1..])
  }

  // One call of processBatch.

  datatype PubCall =
    | BeginTx
    | SelectTasks
    | Mark(j: nat)
    | CommitMarks
    | Stop(j: nat)
    | SendMessage(j: nat)
    | SaveStatus(j: nat)

  type PubFaults = PubCall -> bool

  const SEND_ERROR: string := "send error"

  predicate MarkingFails(f: PubFaults, n: nat) {
    f(BeginTx) || f(SelectTasks) || f(CommitMarks) || exists j :: 0 <= j < n && f(Mark(j))
  }

  function SendOne(p: Pub, x: Fetched, sendFails: bool, saveFails: bool, now: Time): (p': Pub)
    requires x.id < |p.tasks|
    ensures |p'.tasks| == |p.tasks|
  {
    p.(sends := p.sends + [Send(x.id, x.task.topic, x.task.payload, !sendFails)],
       tasks := if saveFails then p.tasks else Report1(p.tasks, x, !sendFails, now, SEND_ERROR))
  }

  /** The rest of a batch, from task `k`, until it is done or interrupted. */
  function SendFrom(p: Pub, batch: seq<Fetched>, k: nat, f: PubFaults, clock: nat -> Time): (p': Pub)
    requires k <= |batch| && Within(p.tasks, batch)
    ensures |p'.tasks| == |p.tasks| && p'.phase == p.phase
    decreases |batch| - k
  {
    if k == |batch| || f(Stop(k)) then p
    else SendFrom(SendOne(p, batch[k], f(SendMessage(k)), f(SaveStatus(k)), clock(k)), batch, k + 1, f, clock)
  }

  /** The tasks of a batch before this index are attempted, the others are not. */
  function Reach(batch: seq<Fetched>, k: nat, f: PubFaults): (r: nat)
    requires k <= |batch|
    ensures k <= r <= |batch|
    decreases |batch| - k
  {
    if k == |batch| || f(Stop(k)) then k else Reach(batch, k + 1, f)
  }

  function BatchRun(p: Pub, batch: seq<Fetched>, f: PubFaults, clock: nat -> Time): (p': Pub)
    requires Within(p.tasks, batch)
    ensures |p'.tasks| == |p.tasks| && p'.phase == p.phase
  {
    if |batch| == 0 || MarkingFails(f, |batch|) then p
    else SendFrom(p.(tasks := MarkAll(p.tasks, batch)), batch, 0, f, clock)
  }
}
