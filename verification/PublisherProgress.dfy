/** What a call of processBatch does row by row, and what repeated calls reach: bounded waiting and draining. */
module PublisherProgress {
  import opened Model
  import opened PublisherSpec
  import opened PublisherSafety

  /** The row of an attempted task. */
  function Landed(t: Task, x: Fetched, sendFails: bool, saveFails: bool, now: Time): Task {
    if saveFails then t
    else if sendFails then
      t.(status := FAILED, attempts := x.task.attempts + 1, lastError := Some(SEND_ERROR), completedAt := None)
    else t.(status := DONE, attempts := x.task.attempts, lastError := None, completedAt := Some(now))
  }

  predicate Distinct(batch: seq<Fetched>) {
    forall i, j :: 0 <= i < j < |batch| ==> batch[i].id != batch[j].id
  }

  lemma {:induction false} SendFromRows(p: Pub, batch: seq<Fetched>, k: nat, f: PubFaults, clock: nat -> Time)
    requires k <= |batch| && Within(p.tasks, batch) && Distinct(batch)
    ensures var p', r := SendFrom(p, batch, k, f, clock), Reach(batch, k, f);
            && (forall j :: k <= j < r ==>
                  p'.tasks[batch[j].id] ==
                      Landed(p.tasks[batch[j].id], batch[j], f(SendMessage(j)), f(SaveStatus(j)), clock(j)))
            && (forall j :: 0 <= j < |batch| && !(k <= j < r) ==> p'.tasks[batch[j].id] == p.tasks[batch[j].id])
            && (forall i :: 0 <= i < |p.tasks| && !Picked(batch, i) ==> p'.tasks[i] == p.tasks[i])
    decreases |batch| - k
  {
    if k < |batch| && !f(Stop(k)) {
      assert Picked(batch, batch[k].id);
      SendFromRows(SendOne(p, batch[k], f(SendMessage(k)), f(SaveStatus(k)), clock(k)), batch, k + 1, f, clock);
    }
  }

  function Outgoing(x: Fetched, sendFails: bool): Send {
    Send(x.id, x.task.topic, x.task.payload, !sendFails)
  }

  lemma {:induction false} SendFromSends(p: Pub, batch: seq<Fetched>, k: nat, f: PubFaults, clock: nat -> Time)
    requires k <= |batch| && Within(p.tasks, batch)
    ensures var sends, r := SendFrom(p, batch, k, f, clock).sends, Reach(batch, k, f);
            && |sends| == |p.sends| + (r - k) && sends[..|p.sends|] == p.sends
            && (forall i :: |p.sends| <= i < |sends| ==>
                  sends[i] == Outgoing(batch[i - |p.sends| + k], f(SendMessage(i - |p.sends| + k))))
    decreases |batch| - k
  {
    if k < |batch| && !f(Stop(k)) {
      SendFromSends(SendOne(p, batch[k], f(SendMessage(k)), f(SaveStatus(k)), clock(k)), batch, k + 1, f, clock);
    }
  }

  /**
   A call that gets past its marking leaves each task before the interruption final, or still
   marked if its report was lost. The other tasks of the batch stay marked, and no other row
   changes.
   */
  lemma {:induction false} BatchRows(p: Pub, limit: nat, batch: seq<Fetched>, f: PubFaults, clock: nat -> Time)
    requires IsBatch(p.tasks, limit, batch) && !MarkingFails(f, |batch|)
    ensures var tasks, r := BatchRun(p, batch, f, clock).tasks, Reach(batch, 0, f);
            && (forall j :: 0 <= j < r ==>
                  tasks[batch[j].id] ==
                      Landed(Marked(batch[j].task), batch[j], f(SendMessage(j)), f(SaveStatus(j)), clock(j)))
            && (forall j :: r <= j < |batch| ==> tasks[batch[j].id] == Marked(batch[j].task))
            && (forall i :: 0 <= i < |p.tasks| && !Picked(batch, i) ==> tasks[i] == p.tasks[i])
  {
    hide SendFrom, MarkAll;
    var marked := p.(tasks := MarkAll(p.tasks, batch));
    MarkAllRows(p.tasks, batch);
    SendFromRows(marked, batch, 0, f, clock);
  }

  /**
   A call that gets past its marking loses exactly the tasks behind the interruption and those
   whose report was lost.
   */
  lemma {:induction false} LostExactly(p: Pub, limit: nat, batch: seq<Fetched>, f: PubFaults, clock: nat -> Time)
    requires p.phase == Idle && IsBatch(p.tasks, limit, batch) && !MarkingFails(f, |batch|)
    ensures forall j :: 0 <= j < |batch| ==>
              (Stranded(BatchRun(p, batch, f, clock), batch[j].id) <==> j >= Reach(batch, 0, f) || f(SaveStatus(j)))
  {
    BatchRows(p, limit, batch, f, clock);
  }

  /** The call sends the tasks before the interruption, in order and each once. */
  lemma {:induction false} BatchSends(p: Pub, limit: nat, batch: seq<Fetched>, f: PubFaults, clock: nat -> Time)
    requires IsBatch(p.tasks, limit, batch) && !MarkingFails(f, |batch|)
    ensures var sends, r := BatchRun(p, batch, f, clock).sends, Reach(batch, 0, f);
            && |sends| == |p.sends| + r && sends[..|p.sends|] == p.sends
            && (forall i :: |p.sends| <= i < |sends| ==>
                  sends[i] == Outgoing(batch[i - |p.sends|], f(SendMessage(i - |p.sends|))))
  {
    SendFromSends(p.(tasks := MarkAll(p.tasks, batch)), batch, 0, f, clock);
  }

  lemma {:induction false} ReachStops(batch: seq<Fetched>, k: nat, f: PubFaults)
    requires k <= |batch|
    ensures var r := Reach(batch, k, f);
            (forall j :: k <= j < r ==> !f(Stop(j))) && (r < |batch| ==> f(Stop(r)))
    decreases |batch| - k
  {
    if k < |batch| && !f(Stop(k)) {
      ReachStops(batch, k + 1, f);
    }
  }

  /**
   When a call does something, and how much: every row of its batch changes unless the selection or
   the marking fails, and then the tasks before the first interruption are sent.
   */
  lemma {:induction false} CallExact(p: Pub, limit: nat, batch: seq<Fetched>, f: PubFaults, clock: nat -> Time)
    requires IsBatch(p.tasks, limit, batch)
    ensures var p', r := BatchRun(p, batch, f, clock), |BatchRun(p, batch, f, clock).sends| - |p.sends|;
            var marked := !f(BeginTx) && !f(SelectTasks) && !f(CommitMarks)
                && forall j :: 0 <= j < |batch| ==> !f(Mark(j));
            && (!marked ==> p' == p)
            && (marked ==>
                  && 0 <= r <= |batch| && (forall j :: 0 <= j < r ==> !f(Stop(j))) && (r < |batch| ==> f(Stop(r)))
                  && p'.sends[..|p.sends|] == p.sends
                  && (forall j :: 0 <= j < r ==>
                        p'.sends[|p.sends| + j] ==
                            Send(batch[j].id, batch[j].task.topic, batch[j].task.payload, !f(SendMessage(j))))
                  && (forall j :: 0 <= j < |batch| ==> p'.tasks[batch[j].id] != p.tasks[batch[j].id]))
  {
    hide SendFrom, MarkAll;
    if |batch| > 0 && !MarkingFails(f, |batch|) {
      BatchRows(p, limit, batch, f, clock);
      BatchSends(p, limit, batch, f, clock);
      ReachStops(batch, 0, f);
      hide BatchRun;
    }
  }

  // Work left to do.

  /** How many attempts the retry limit leaves. */
  function Burden(t: Task): nat {
    if Processable(t) && t.attempts < MAX_ATTEMPTS then MAX_ATTEMPTS - t.attempts else 0
  }

  function Work(tasks: seq<Task>, among: set<nat>): nat {
    if |tasks| == 0 then 0
    else Work(tasks[..|tasks| - 1], among) + if |tasks| - 1 in among then Burden(tasks[|tasks| - 1]) else 0
  }

  lemma {:induction false} WorkDrops(tasks: seq<Task>, tasks': seq<Task>, among: set<nat>, ids: set<nat>)
    requires |tasks| == |tasks'| && ids <= among && forall i :: i in ids ==> i < |tasks|
    requires forall i :: 0 <= i < |tasks| && i in among ==>
               Burden(tasks'[i]) + (if i in ids then 1 else 0) <= Burden(tasks[i])
    ensures Work(tasks', among) + |ids| <= Work(tasks, among)
  {
    hide Burden;
    if |tasks| == 0 {
      assert ids == {} by {
        forall i | i in ids ensures false {
        }
      }
    } else {
      var n := |tasks| - 1;
      WorkDrops(tasks[..n], tasks'[..n], among, ids - {n});
      if n in ids {
        assert |ids - {n}| == |ids| - 1;
      } else {
        assert ids - {n} == ids;
      }
    }
  }

  lemma {:induction false} WorkBound(tasks: seq<Task>, among: set<nat>, busy: set<nat>)
    requires forall i :: 0 <= i < |tasks| && i in among && Processable(tasks[i]) ==> i in busy
    requires forall i :: i in busy ==> i < |tasks|
    ensures Work(tasks, among) <= MAX_ATTEMPTS * |busy|
  {
    if |tasks| > 0 {
      var n := |tasks| - 1;
      WorkBound(tasks[..n], among, busy - {n});
      if n in busy {
        assert |busy - {n}| == |busy| - 1;
      } else {
        assert busy - {n} == busy;
      }
    }
  }

  lemma {:induction false} WorkAppend(tasks: seq<Task>, more: seq<Task>, among: set<nat>)
    requires forall i :: i in among ==> i < |tasks|
    ensures Work(tasks + more, among) == Work(tasks, among)
  {
    if |more| == 0 {
      assert tasks + more == tasks;
    } else {
      WorkAppend(tasks, more[..|more| - 1], among);
      assert (tasks + more)[..|tasks + more| - 1] == tasks + more[..|more| - 1];
    }
  }

  function Ids(batch: seq<Fetched>): set<nat> {
    set j | 0 <= j < |batch| :: batch[j].id
  }

  lemma {:induction false} IdsCount(batch: seq<Fetched>)
    requires Distinct(batch)
    ensures |Ids(batch)| == |batch|
  {
    if |batch| > 0 {
      var front, last := batch[..|batch| - 1], batch[|batch| - 1].id;
      IdsCount(front);
      assert last !in Ids(front);
      assert Ids(batch) == Ids(front) + {last};
    }
  }

  // Rounds: calls that nothing interrupts and whose marking commits, with arrivals in between.

  datatype Round = Round(batch: seq<Fetched>, f: PubFaults, clock: nat -> Time, arrivals: seq<Task>)

  function Serve(p: Pub, r: Round): Pub
    requires Within(p.tasks, r.batch)
  {
    var p' := BatchRun(p, r.batch, r.f, r.clock);
    p'.(tasks := p'.tasks + r.arrivals)
  }

  predicate Undisturbed(f: PubFaults, n: nat) {
    !MarkingFails(f, n) && forall j :: 0 <= j < n ==> !f(Stop(j))
  }

  /** Sends may fail, and so may reports; what is new is unsent. */
  ghost predicate Lawful(p: Pub, limit: nat, r: Round) {
    && IsBatch(p.tasks, limit, r.batch) && Undisturbed(r.f, |r.batch|)
    && forall j :: 0 <= j < |r.arrivals| ==> r.arrivals[j].status == CREATED && r.arrivals[j].attempts == 0
  }

  ghost predicate AllLawful(p: Pub, limit: nat, rounds: seq<Round>)
    decreases |rounds|
  {
    |rounds| == 0 || (Lawful(p, limit, rounds[0]) && AllLawful(Serve(p, rounds[0]), limit, rounds[1..]))
  }

  ghost function ServeAll(p: Pub, limit: nat, rounds: seq<Round>): Pub
    requires AllLawful(p, limit, rounds)
    decreases |rounds|
  {
    if |rounds| == 0 then p else ServeAll(Serve(p, rounds[0]), limit, rounds[1..])
  }

  predicate Late(r: Round, stamp: Time) {
    forall j :: 0 <= j < |r.arrivals| ==> r.arrivals[j].updatedAt > stamp
  }

  predicate RowCounted(t: Task) {
    (t.status == CREATED ==> t.attempts == 0) && (t.status == FAILED ==> t.attempts <= 5)
  }

  /** Tasks that were never sent have no attempts, and none has more than the limit. */
  predicate Counted(tasks: seq<Task>) {
    forall i :: 0 <= i < |tasks| ==> RowCounted(tasks[i])
  }

  /** The counters are right after every run, so the bounds below apply to whatever the publisher finds. */
  lemma {:induction false} RunsCount(steps: seq<PubStep>)
    requires CanRun(NO_TASKS, steps)
    ensures Counted(Run(NO_TASKS, steps).tasks)
  {
    DeliverySafety(steps);
    var p := Run(NO_TASKS, steps);
    forall i | 0 <= i < |p.tasks| ensures RowCounted(p.tasks[i]) {
      assert RowOk(p.tasks[i], Sent(p.sends, i), Accepted(p.sends, i));
    }
  }

  lemma {:induction false} FullReach(batch: seq<Fetched>, k: nat, f: PubFaults)
    requires k <= |batch| && forall j :: k <= j < |batch| ==> !f(Stop(j))
    ensures Reach(batch, k, f) == |batch|
    decreases |batch| - k
  {
    if k < |batch| {
      FullReach(batch, k + 1, f);
    }
  }

  lemma AttemptBurns(x: Fetched, sendFails: bool, saveFails: bool, now: Time)
    requires Processable(x.task) && RowCounted(x.task)
    ensures var t := Landed(Marked(x.task), x, sendFails, saveFails, now);
            RowCounted(t) && t.updatedAt == x.task.updatedAt && Burden(t) + 1 <= Burden(x.task)
  {
  }

  /** One round burns an attempt of every picked task and touches no other old row. */
  lemma {:induction false} RoundBurns(p: Pub, limit: nat, r: Round)
    requires Lawful(p, limit, r) && Counted(p.tasks)
    ensures var p' := Serve(p, r);
            && |p'.tasks| == |p.tasks| + |r.arrivals| && Counted(p'.tasks)
            && (forall i :: 0 <= i < |p.tasks| ==>
                  && p'.tasks[i].updatedAt == p.tasks[i].updatedAt
                  && (if i in Ids(r.batch) then Burden(p'.tasks[i]) + 1 <= Burden(p.tasks[i])
                        else p'.tasks[i] == p.tasks[i]))
  {
    hide BatchRun, Landed, Marked, Burden;
    FullReach(r.batch, 0, r.f);
    BatchRows(p, limit, r.batch, r.f, r.clock);
    var tasks := BatchRun(p, r.batch, r.f, r.clock).tasks;
    forall i | 0 <= i < |p.tasks|
      ensures tasks[i].updatedAt == p.tasks[i].updatedAt && RowCounted(tasks[i])
      ensures if i in Ids(r.batch) then Burden(tasks[i]) + 1 <= Burden(p.tasks[i]) else tasks[i] == p.tasks[i]
    {
      if i in Ids(r.batch) {
        var j :| 0 <= j < |r.batch| && r.batch[j].id == i;
        AttemptBurns(r.batch[j], r.f(SendMessage(j)), r.f(SaveStatus(j)), r.clock(j));
      } else {
        assert !Picked(r.batch, i);
      }
    }
  }

  lemma {:induction false} SentGrows(sends: seq<Send>, longer: seq<Send>, id: nat)
    requires sends <= longer
    ensures Sent(sends, id) <= Sent(longer, id)
    ensures (exists i :: |sends| <= i < |longer| && longer[i].id == id) ==> Sent(sends, id) < Sent(longer, id)
    decreases |longer|
  {
    if |sends| < |longer| {
      SentGrows(sends, longer[..|longer| - 1], id);
    } else {
      assert sends == longer;
    }
  }

  lemma {:induction false} RoundSends(p: Pub, limit: nat, r: Round, id: nat)
    requires Lawful(p, limit, r)
    ensures Sent(p.sends, id) <= Sent(Serve(p, r).sends, id)
    ensures Picked(r.batch, id) ==> Sent(p.sends, id) < Sent(Serve(p, r).sends, id)
  {
    FullReach(r.batch, 0, r.f);
    BatchSends(p, limit, r.batch, r.f, r.clock);
    var sends := Serve(p, r).sends;
    if Picked(r.batch, id) {
      var j :| 0 <= j < |r.batch| && r.batch[j].id == id;
      assert sends[|p.sends| + j].id == id;
    }
    SentGrows(p.sends, sends, id);
  }

  lemma {:induction false} RoundsSend(p: Pub, limit: nat, rounds: seq<Round>, id: nat)
    requires AllLawful(p, limit, rounds)
    ensures Sent(p.sends, id) <= Sent(ServeAll(p, limit, rounds).sends, id)
    decreases |rounds|
  {
    if |rounds| > 0 {
      RoundSends(p, limit, rounds[0], id);
      RoundsSend(Serve(p, rounds[0]), limit, rounds[1..], id);
    }
  }

  /** The processable tasks that may be picked before `id`. */
  function Ahead(tasks: seq<Task>, id: nat): set<nat>
    requires id < |tasks|
  {
    set i: nat | i < |tasks| && i != id && Processable(tasks[i]) && tasks[i].updatedAt <= tasks[id].updatedAt
  }

  /** `among` holds every task that may be picked before `id`. */
  ghost predicate Covers(among: set<nat>, tasks: seq<Task>, id: nat)
    requires id < |tasks|
  {
    && (forall i :: i in among ==> i < |tasks|)
    && (forall i ::
          0 <= i < |tasks| && i != id && Processable(tasks[i]) && tasks[i].updatedAt <= tasks[id].updatedAt ==>
          i in among)
  }

  /** A full batch without `id` burns `limit` attempts of the tasks ahead of it. */
  lemma {:induction false} Overtaken(p: Pub, limit: nat, r: Round, id: nat, among: set<nat>)
    requires Lawful(p, limit, r) && Counted(p.tasks) && id < |p.tasks| && Processable(p.tasks[id])
               && Covers(among, p.tasks, id)
    requires Late(r, p.tasks[id].updatedAt)
    requires !Picked(r.batch, id)
    ensures var tasks' := Serve(p, r).tasks;
            && |tasks'| >= |p.tasks| && tasks'[id] == p.tasks[id] && Covers(among, tasks', id)
            && Work(tasks', among) + limit <= Work(p.tasks, among)
  {
    hide BatchRun, Work;
    RoundBurns(p, limit, r);
    forall i | i in Ids(r.batch) ensures i in among {
      var j :| 0 <= j < |r.batch| && r.batch[j].id == i;
      assert i != id;
    }
    assert id !in Ids(r.batch);
    IdsCount(r.batch);
    var tasks' := Serve(p, r).tasks;
    WorkDrops(p.tasks, tasks'[..|p.tasks|], among, Ids(r.batch));
    assert tasks' == tasks'[..|p.tasks|] + r.arrivals;
    WorkAppend(tasks'[..|p.tasks|], r.arrivals, among);
  }

  lemma {:induction false} Overtakers(p: Pub, limit: nat, rounds: seq<Round>, id: nat, among: set<nat>)
    requires AllLawful(p, limit, rounds) && Counted(p.tasks)
    requires id < |p.tasks| && Processable(p.tasks[id]) && Covers(among, p.tasks, id)
    requires forall k :: 0 <= k < |rounds| ==> Late(rounds[k], p.tasks[id].updatedAt)
    requires Work(p.tasks, among) < limit * |rounds|
    ensures Sent(ServeAll(p, limit, rounds).sends, id) > Sent(p.sends, id)
    decreases |rounds|
  {
    hide BatchRun, Work;
    var r, p' := rounds[0], Serve(p, rounds[0]);
    RoundSends(p, limit, r, id);
    if Picked(r.batch, id) {
      RoundsSend(p', limit, rounds[1..], id);
    } else {
      RoundBurns(p, limit, r);
      Overtaken(p, limit, r, id, among);
      assert limit * |rounds| == limit * |rounds[1..]| + limit;
      Overtakers(p', limit, rounds[1..], id, among);
    }
  }

  lemma {:induction false} QuotientBound(a: nat, b: nat, n: nat)
    requires b >= 1 && n > a / b
    ensures a < b * n
  {
    assert b * n >= b * (a / b + 1);
  }

  /**
   Bounded waiting: with batches of `limit`, a processable task behind `m` others is sent
   within 5m/limit + 1 undisturbed calls, whatever sends and reports fail and whatever
   arrives with a later stamp.
   */
  lemma {:induction false} BoundedWaiting(p: Pub, limit: nat, rounds: seq<Round>, id: nat)
    requires AllLawful(p, limit, rounds) && Counted(p.tasks) && limit >= 1
    requires id < |p.tasks| && Processable(p.tasks[id])
    requires forall k :: 0 <= k < |rounds| ==> Late(rounds[k], p.tasks[id].updatedAt)
    requires |rounds| > 5 * |Ahead(p.tasks, id)| / limit
    ensures Sent(ServeAll(p, limit, rounds).sends, id) > Sent(p.sends, id)
  {
    var among := Ahead(p.tasks, id);
    WorkBound(p.tasks, among, among);
    QuotientBound(MAX_ATTEMPTS * |among|, limit, |rounds|);
    Overtakers(p, limit, rounds, id, among);
  }

  // Draining: no arrivals, no lost reports.

  predicate Quiet(r: Round) {
    r.arrivals == [] && forall j :: 0 <= j < |r.batch| ==> !r.f(SaveStatus(j))
  }

  ghost predicate QuietRun(p: Pub, limit: nat, rounds: seq<Round>) {
    AllLawful(p, limit, rounds) && Counted(p.tasks) && forall k :: 0 <= k < |rounds| ==> Quiet(rounds[k])
  }

  /** How many calls empty a table with `n` processable tasks. */
  function DrainBound(n: nat, limit: nat): nat
    requires limit >= 1
  {
    5 * n / limit + 5
  }

  /** Every task that could be sent was sent or has used all its attempts, and no other row has changed. */
  predicate Emptied(tasks: seq<Task>, tasks': seq<Task>) {
    && |tasks'| == |tasks|
    && forall i :: 0 <= i < |tasks| ==>
         if tasks[i].status == CREATED || (tasks[i].status == FAILED && tasks[i].attempts < 5)
         then tasks'[i].status == DONE || (tasks'[i].status == FAILED && tasks'[i].attempts == 5)
         else tasks'[i] == tasks[i]
  }

  ghost predicate EmptiedBy(p: Pub, limit: nat, rounds: seq<Round>)
    requires QuietRun(p, limit, rounds)
  {
    Emptied(p.tasks, ServeAll(p, limit, rounds).tasks)
  }

  /** What may become of a row: nothing, or, if it is processable, DONE or one more failure within the limit. */
  predicate Evolves(t: Task, t': Task) {
    t' == t || (Processable(t) && (t'.status == DONE || (t'.status == FAILED && t'.attempts <= MAX_ATTEMPTS)))
  }

  function Busy(tasks: seq<Task>): set<nat> {
    set i: nat | i < |tasks| && Processable(tasks[i])
  }

  lemma {:induction false} RoundEvolves(p: Pub, limit: nat, r: Round)
    requires Lawful(p, limit, r) && Quiet(r) && Counted(p.tasks)
    ensures var tasks' := Serve(p, r).tasks;
            && |tasks'| == |p.tasks| && forall i :: 0 <= i < |p.tasks| ==> Evolves(p.tasks[i], tasks'[i])
    ensures Busy(Serve(p, r).tasks) <= Busy(p.tasks)
  {
    FullReach(r.batch, 0, r.f);
    BatchRows(p, limit, r.batch, r.f, r.clock);
    forall i | 0 <= i < |p.tasks| ensures Evolves(p.tasks[i], Serve(p, r).tasks[i]) {
      if Picked(r.batch, i) {
        var j :| 0 <= j < |r.batch| && r.batch[j].id == i;
      }
    }
  }

  /** Every row has become what it may become, and none is left to be sent. */
  ghost predicate Drained(tasks: seq<Task>, tasks': seq<Task>) {
    && |tasks'| == |tasks| && Busy(tasks') == {}
    && forall i :: 0 <= i < |tasks| ==> Evolves(tasks[i], tasks'[i])
  }

  lemma {:induction false} DrainedAfter(tasks: seq<Task>, mid: seq<Task>, tasks': seq<Task>)
    requires |mid| == |tasks| && (forall i :: 0 <= i < |tasks| ==> Evolves(tasks[i], mid[i])) && Drained(mid, tasks')
    ensures Drained(tasks, tasks')
  {
    forall i | 0 <= i < |tasks| ensures Evolves(tasks[i], tasks'[i]) {
      assert Evolves(tasks[i], mid[i]) && Evolves(mid[i], tasks'[i]);
    }
  }

  lemma {:induction false} SubsetSize(a: set<nat>, b: set<nat>)
    requires a <= b
    ensures |a| <= |b|
    decreases a
  {
    if a != {} {
      var x :| x in a;
      SubsetSize(a - {x}, b - {x});
    }
  }

  lemma {:induction false} AllPicked(p: Pub, limit: nat, r: Round)
    requires Lawful(p, limit, r) && |Busy(p.tasks)| < limit
    ensures Busy(p.tasks) == Ids(r.batch)
  {
    IdsCount(r.batch);
    SubsetSize(Ids(r.batch), Busy(p.tasks));
    forall i | i in Busy(p.tasks) ensures i in Ids(r.batch) {
      assert Picked(r.batch, i);
      var j :| 0 <= j < |r.batch| && r.batch[j].id == i;
    }
  }

  /** Once every processable task fits into one batch, as many rounds are enough as the largest burden. */
  lemma {:induction false} DrainTail(p: Pub, limit: nat, rounds: seq<Round>, m: nat)
    requires QuietRun(p, limit, rounds)
    requires |Busy(p.tasks)| < limit && m <= |rounds|
    requires forall i :: 0 <= i < |p.tasks| ==> Burden(p.tasks[i]) <= m
    ensures Drained(p.tasks, ServeAll(p, limit, rounds).tasks)
    decreases |rounds|
  {
    hide BatchRun;
    if |rounds| == 0 {
      assert Busy(p.tasks) == {};
    } else {
      var r, p' := rounds[0], Serve(p, rounds[0]);
      RoundEvolves(p, limit, r);
      RoundBurns(p, limit, r);
      SubsetSize(Busy(p'.tasks), Busy(p.tasks));
      AllPicked(p, limit, r);
      DrainTail(p', limit, rounds[1..], if m == 0 then 0 else m - 1);
      DrainedAfter(p.tasks, p'.tasks, ServeAll(p, limit, rounds).tasks);
    }
  }

  lemma PositiveFactor(a: nat, n: nat)
    requires a * n > 0
    ensures n >= 1 && a * n == a * (n - 1) + a
  {
  }

  lemma {:induction false} WorkShrinks(tasks: seq<Task>, few: set<nat>, many: set<nat>)
    requires few <= many
    ensures Work(tasks, few) <= Work(tasks, many)
  {
    if |tasks| > 0 {
      WorkShrinks(tasks[..|tasks| - 1], few, many);
    }
  }

  /** A full batch burns `limit` attempts. */
  lemma {:induction false} FullBatch(p: Pub, limit: nat, r: Round)
    requires Lawful(p, limit, r) && Quiet(r) && Counted(p.tasks) && |Busy(p.tasks)| >= limit
    ensures Work(Serve(p, r).tasks, Busy(Serve(p, r).tasks)) + limit <= Work(p.tasks, Busy(p.tasks))
  {
    hide BatchRun, Work;
    RoundEvolves(p, limit, r);
    RoundBurns(p, limit, r);
    IdsCount(r.batch);
    var busy, tasks' := Busy(p.tasks), Serve(p, r).tasks;
    if |r.batch| < limit {
      forall i | i in busy ensures i in Ids(r.batch) {
        assert Picked(r.batch, i);
        var j :| 0 <= j < |r.batch| && r.batch[j].id == i;
      }
      SubsetSize(busy, Ids(r.batch));
      assert false;
    }
    WorkDrops(p.tasks, tasks', busy, Ids(r.batch));
    WorkShrinks(tasks', Busy(tasks'), busy);
  }

  lemma {:induction false} DrainBy(p: Pub, limit: nat, rounds: seq<Round>, n: nat)
    requires QuietRun(p, limit, rounds)
    requires |rounds| >= n + MAX_ATTEMPTS - 1 && Work(p.tasks, Busy(p.tasks)) < limit * n
    ensures Drained(p.tasks, ServeAll(p, limit, rounds).tasks)
    decreases |rounds|
  {
    hide BatchRun, Work;
    PositiveFactor(limit, n);
    if |Busy(p.tasks)| < limit {
      DrainTail(p, limit, rounds, MAX_ATTEMPTS);
    } else {
      var r, p' := rounds[0], Serve(p, rounds[0]);
      RoundEvolves(p, limit, r);
      RoundBurns(p, limit, r);
      FullBatch(p, limit, r);
      DrainBy(p', limit, rounds[1..], n - 1);
      DrainedAfter(p.tasks, p'.tasks, ServeAll(p, limit, rounds).tasks);
    }
  }

  lemma {:induction false} DrainedRows(tasks: seq<Task>, tasks': seq<Task>)
    requires Drained(tasks, tasks')
    ensures Emptied(tasks, tasks')
  {
    forall i | 0 <= i < |tasks| && Processable(tasks[i])
      ensures tasks'[i].status == DONE || (tasks'[i].status == FAILED && tasks'[i].attempts == 5)
    {
      assert i !in Busy(tasks');
      assert Evolves(tasks[i], tasks'[i]);
    }
  }

  lemma {:induction false} DrainWithin(p: Pub, limit: nat, rounds: seq<Round>, n: nat)
    requires QuietRun(p, limit, rounds)
    requires |rounds| >= n + MAX_ATTEMPTS - 1 && MAX_ATTEMPTS * |Busy(p.tasks)| < limit * n
    ensures EmptiedBy(p, limit, rounds)
  {
    hide BatchRun, Work, ServeAll;
    WorkBound(p.tasks, Busy(p.tasks), Busy(p.tasks));
    DrainBy(p, limit, rounds, n);
    DrainedRows(p.tasks, ServeAll(p, limit, rounds).tasks);
  }

  /**
   Draining: with nothing new, no interruption and no lost write, 5n/limit + 5 calls leave each
   of the n processable tasks DONE, or FAILED with all five attempts used. No other row changes.
   */
  lemma {:induction false} DrainTermination(p: Pub, limit: nat, rounds: seq<Round>)
    requires QuietRun(p, limit, rounds)
    requires limit >= 1 && |rounds| >= DrainBound(|Busy(p.tasks)|, limit)
    ensures EmptiedBy(p, limit, rounds)
  {
    hide QuietRun, ServeAll, Processable;
    QuotientBound(MAX_ATTEMPTS * |Busy(p.tasks)|, limit, |rounds| - 4);
    DrainWithin(p, limit, rounds, |rounds| - 4);
  }

  // The bound on the attempts is reached.

  lemma {:induction false} RunCons(p: Pub, step: PubStep, rest: seq<PubStep>) returns (steps: seq<PubStep>)
    requires CanStep(p, step) && CanRun(Do(p, step), rest)
    ensures CanRun(p, steps) && Run(p, steps) == Run(Do(p, step), rest)
  {
    steps := [step] + rest;
    assert steps[1..] == rest;
  }

  /** A publisher after one more failed attempt at its only task. */
  function FailedOnce(p: Pub): Pub
    requires |p.tasks| == 1
  {
    var t := p.tasks[0];
    Pub([t.(status := FAILED, attempts := t.attempts + 1, lastError := Some(SEND_ERROR), completedAt := None)],
        p.sends + [Send(0, t.topic, t.payload, false)], Idle)
  }

  lemma {:induction false} FailOnce(p: Pub, rest: seq<PubStep>) returns (steps: seq<PubStep>)
    requires p.phase == Idle && |p.tasks| == 1 && Processable(p.tasks[0]) && CanRun(FailedOnce(p), rest)
    ensures CanRun(p, steps) && Run(p, steps) == Run(FailedOnce(p), rest)
  {
    var batch := [Fetched(0, p.tasks[0])];
    MarkAllRows(p.tasks, batch);
    var selected := Do(p, Select(1, batch));
    var marked := Do(selected, MarksCommitted);
    var sent := Do(marked, Deliver(false));
    var reported := Do(sent, Report(true, 0, SEND_ERROR));
    assert marked.tasks[batch[0].id] == Marked(p.tasks[0]);
    assert reported.tasks == FailedOnce(p).tasks;
    assert Do(reported, Finish) == FailedOnce(p);
    hide Do, CanStep, MarkAll, FailedOnce, Processable, CanRun, Run;
    steps := RunCons(reported, Finish, rest);
    steps := RunCons(sent, Report(true, 0, SEND_ERROR), steps);
    steps := RunCons(marked, Deliver(false), steps);
    steps := RunCons(selected, MarksCommitted, steps);
    steps := RunCons(p, Select(1, batch), steps);
  }

  /** A publisher whose only task fails to be sent, `n` more times. */
  lemma {:induction false} FailAgain(p: Pub, n: nat) returns (steps: seq<PubStep>)
    requires p.phase == Idle && |p.tasks| == 1
    requires n > 0 ==> Processable(p.tasks[0]) && p.tasks[0].attempts + n <= 5
    ensures CanRun(p, steps) && |Run(p, steps).tasks| == 1
    ensures Sent(Run(p, steps).sends, 0) == Sent(p.sends, 0) + n
    decreases n
  {
    steps := [];
    if n > 0 {
      SentAppend(p.sends, FailedOnce(p).sends[|p.sends|], 0);
      steps := FailAgain(FailedOnce(p), n - 1);
      steps := FailOnce(p, steps);
    }
  }

  ghost predicate SentTimes(steps: seq<PubStep>, n: nat) {
    CanRun(NO_TASKS, steps) && |Run(NO_TASKS, steps).tasks| > 0 && Sent(Run(NO_TASKS, steps).sends, 0) == n
  }

  /** A task can be sent up to five times, and not six. */
  lemma {:induction false} FiveSends(n: nat)
    ensures (exists steps :: SentTimes(steps, n)) <==> n <= 5
  {
    if n <= 5 {
      var insert := Insert(Payload(OrderDeleted, "A", NO_STATUS, NO_STATUS), 0);
      var steps := FailAgain(Do(NO_TASKS, insert), n);
      steps := RunCons(NO_TASKS, insert, steps);
      assert SentTimes(steps, n);
    } else {
      forall steps ensures !SentTimes(steps, n) {
        if CanRun(NO_TASKS, steps) {
          DeliverySafety(steps);
        }
      }
    }
  }
}
