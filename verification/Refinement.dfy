/**
 The sequential store is a special case of the interleaved one: every request, under any faults,
 can be matched by the steps of a single thread, so what holds of every interleaving holds of it.
 */
module Refinement {
  import opened Model
  import opened Ledger
  import opened OrderCaching
  import Spec = StorageSpec
  import Seq = SequentialRuns
  import OrderServer
  import opened SystemSpec
  import opened SystemTheorems

  function StateOf(s: System): Spec.State {
    Spec.State(s.db, s.cache)
  }

  /** Nobody is at work. */
  predicate Still(s: System) {
    s.threads == map[] && s.locks == map[]
  }

  /** The cache after all the updates of a thread. */
  function TellAll(cache: Rows, ops: seq<CacheOp>): Rows
    decreases |ops|
  {
    if |ops| == 0 then cache else TellAll(Tell(cache, ops[0]), ops[1..])
  }

  lemma {:induction false} TellSnoc(cache: Rows, ops: seq<CacheOp>, op: CacheOp)
    ensures TellAll(cache, ops + [op]) == Tell(TellAll(cache, ops), op)
    decreases |ops|
  {
    if |ops| == 0 {
      assert (ops + [op])[1..] == [];
    } else {
      TellSnoc(Tell(cache, ops[0]), ops[1..], op);
      assert (ops + [op])[1..] == ops[1..] + [op];
    }
  }

  /** The cache updates of a committed thread, one by one. */
  lemma {:induction false} Post(run: seq<Taken>, t: nat, pending: seq<CacheOp>) returns (longer: seq<Taken>)
    requires CanRun(run) && Reached(run).threads == map[t := Posting(pending)] && Reached(run).locks == map[]
    ensures CanRun(longer) && Still(Reached(longer))
    ensures Reached(longer).db == Reached(run).db && Reached(longer).cache == TellAll(Reached(run).cache, pending)
    decreases |pending|
  {
    if |pending| == 0 {
      longer := Then(run, t, Done);
    } else {
      longer := Then(run, t, UpdateCache(0));
      assert pending[..0] + pending[1..] == pending[1..];
      longer := Post(longer, t, pending[1..]);
    }
  }

  /** A thread that has staged everything commits and updates the cache. */
  lemma {:induction false} CommitAndPost(run: seq<Taken>, t: nat, w: Thread) returns (longer: seq<Taken>)
    requires CanRun(run) && w.Working? && w.todo == [] && Reached(run).threads == map[t := w]
    requires forall id :: id in Reached(run).locks ==> Reached(run).locks[id] == t
    ensures CanRun(longer) && Still(Reached(longer))
    ensures Reached(longer).db == ApplyAll(Reached(run).db, w.trail)
    ensures Reached(longer).cache == TellAll(Reached(run).cache, w.pending)
  {
    hide ApplyAll;
    longer := Then(run, t, Step.Commit);
    longer := Post(longer, t, w.pending);
  }

  // One order at a time.

  lemma {:induction false} AddAlone(
      run: seq<Taken>, order: Order, at: Time, loggedAt: Time) returns (longer: seq<Taken>)
    requires CanRun(run) && Still(Reached(run)) && order.id !in Reached(run).db.orders
    ensures CanRun(longer) && Still(Reached(longer))
    ensures Reached(longer).db == ApplyAll(Reached(run).db, [Created(order, at, loggedAt)])
    ensures Reached(longer).cache == Tell(Reached(run).cache, Put(order))
  {
    hide ApplyAll;
    var s := Reached(run);
    longer := Then(run, 0, Begin(AddOrder(order, at)));
    longer := Then(longer, 0, Insert(loggedAt));
    longer := CommitAndPost(longer, 0, Reached(longer).threads[0]);
    assert TellAll(s.cache, [Put(order)]) == Tell(s.cache, Put(order));
  }

  lemma {:induction false} DeleteAlone(run: seq<Taken>, id: string, loggedAt: Time) returns (longer: seq<Taken>)
    requires CanRun(run) && Still(Reached(run))
    ensures CanRun(longer) && Still(Reached(longer))
    ensures Reached(longer).db == ApplyAll(Reached(run).db, [Removed(id, id in Reached(run).db.orders, loggedAt)])
    ensures Reached(longer).cache == Tell(Reached(run).cache, Drop(id))
  {
    hide ApplyAll;
    var s := Reached(run);
    longer := Then(run, 0, Begin(DeleteOrder(id)));
    longer := Then(longer, 0, Delete(loggedAt));
    longer := CommitAndPost(longer, 0, Reached(longer).threads[0]);
    assert TellAll(s.cache, [Drop(id)]) == Tell(s.cache, Drop(id));
  }

  /** A locked read of an existing row, in an operation on that row alone. */
  lemma {:induction false} ReadAlone(run: seq<Taken>, op: Op, id: string) returns (longer: seq<Taken>)
    requires CanRun(run) && Still(Reached(run)) && id in Reached(run).db.orders && Reads(op) && Targets(op) == [id]
    ensures CanRun(longer) && Reached(longer) ==
            Reached(run).(threads := map[0 := Working(op, [id], Some(Reached(run).db.orders[id]), [], [], [])],
                          locks := map[id := 0])
  {
    longer := Then(run, 0, Begin(op));
    longer := Then(longer, 0, LockedRead);
  }

  lemma {:induction false} ChangeAlone(run: seq<Taken>, op: Op, id: string, loggedAt: Time) returns (longer: seq<Taken>)
    requires CanRun(run) && Still(Reached(run)) && id in Reached(run).db.orders && Reads(op) && Targets(op) == [id]
    requires Guard(Reached(run).db.orders[id], KindOf(op), StampOf(op))
    ensures CanRun(longer) && Still(Reached(longer))
    ensures var row, kind, at := Reached(run).db.orders[id], KindOf(op), StampOf(op);
            && Reached(longer).db == ApplyAll(Reached(run).db, [Changed(row, kind, at, loggedAt)])
            && Reached(longer).cache == Tell(Reached(run).cache, Refresh(kind, After(row, kind, at)))
  {
    hide ApplyAll;
    var s := Reached(run);
    var row, kind, at := s.db.orders[id], KindOf(op), StampOf(op);
    longer := ReadAlone(run, op, id);
    longer := Then(longer, 0, Stage(loggedAt));
    var w := Reached(longer).threads[0];
    assert [id][1..] == [] && w.trail == [Changed(row, kind, at, loggedAt)]
        && w.pending == [Refresh(kind, After(row, kind, at))];
    longer := CommitAndPost(longer, 0, w);
    assert TellAll(s.cache, w.pending) == Tell(s.cache, w.pending[0]);
  }

  lemma {:induction false} KeepAlone(run: seq<Taken>, id: string, at: Time) returns (longer: seq<Taken>)
    requires CanRun(run) && Still(Reached(run)) && id in Reached(run).db.orders
    ensures CanRun(longer) && Still(Reached(longer))
    ensures Reached(longer).db == Reached(run).db
    ensures Reached(longer).cache == Tell(Reached(run).cache, Put(Reached(run).db.orders[id]))
  {
    var s := Reached(run);
    var row := s.db.orders[id];
    longer := ReadAlone(run, UpdateStatus(id, row.status, at), id);
    longer := Then(longer, 0, Stage(at));
    var w := Reached(longer).threads[0];
    assert [id][1..] == [] && w.trail == [] && w.pending == [Put(row)];
    longer := CommitAndPost(longer, 0, w);
    assert TellAll(s.cache, w.pending) == Tell(s.cache, w.pending[0]);
  }

  lemma {:induction false} GetAlone(run: seq<Taken>, id: string) returns (longer: seq<Taken>)
    requires CanRun(run) && Still(Reached(run)) && id !in Reached(run).cache && id in Reached(run).db.orders
    ensures CanRun(longer) && Still(Reached(longer)) && Reached(longer).db == Reached(run).db
    ensures Reached(longer).cache == Tell(Reached(run).cache, Put(Reached(run).db.orders[id]))
  {
    hide Reached, CanRun, ApplyAll, Visible, Staged;
    longer := Then(run, 0, Miss(id));
    longer := Then(longer, 0, ReadRow);
    longer := Then(longer, 0, Fill);
  }

  // A list of orders.

  /** The cache updates that the events of a bulk operation ask for. */
  function OpsOf(events: seq<Event>): seq<CacheOp>
    requires forall i :: 0 <= i < |events| ==> events[i].Changed?
  {
    seq(|events|, i requires 0 <= i < |events| =>
      Refresh(events[i].kind, After(events[i].before, events[i].kind, events[i].at)))
  }

  /** What a bulk thread has collected. */
  datatype Visit = Visit(es: seq<Event>, ops: seq<CacheOp>, results: seq<Spec.ItemResult>)

  /** The thread has visited the first `n` ids. */
  predicate At(s: System, now': System, op: Op, v: Visit, n: nat)
    requires op.Bulk? && n <= |op.ids|
  {
    && now' == s.(threads := map[0 := Working(op, op.ids[n..], None, v.es, v.ops, v.results)], locks := now'.locks)
    && (forall id :: id in now'.locks ==> now'.locks[id] == 0)
  }

  /** A row that may be changed is changed, any other is passed over. */
  function Visited(s: System, op: Op, v: Visit, id: string, at: Time): Visit
    requires op.Bulk?
  {
    var row, kind := RowOf(ApplyAll(s.db, v.es), id), KindOf(op);
    var reason := if row == None then Spec.OrderNotFound else Spec.Refusal(op.mode, row.value, op.user, op.now);
    var results := v.results + [Spec.ItemResult(id, reason == Spec.Nothing, reason)];
    if reason != Spec.Nothing then v.(results := results)
    else
      Visit(v.es + [Changed(row.value, kind, op.now, at)],
            v.ops + [Refresh(kind, After(row.value, kind, op.now))], results)
  }

  /** The locked read of the next id. */
  lemma {:induction false} ReadNext(s: System, run: seq<Taken>, op: Op, v: Visit, n: nat, at: Time)
    returns (longer: seq<Taken>)
    requires op.Bulk? && n < |op.ids| && CanRun(run) && At(s, Reached(run), op, v, n)
    ensures CanRun(longer)
    ensures var row, locks := RowOf(ApplyAll(s.db, v.es), op.ids[n]), Reached(longer).locks;
            if row.Some? then
              && Reached(longer) ==
                 s.(threads := map[0 := Working(op, op.ids[n..], row, v.es, v.ops, v.results)], locks := locks)
              && forall id :: id in locks ==> locks[id] == 0
            else
              At(s, Reached(longer), op, Visited(s, op, v, op.ids[n], at), n + 1)
  {
    hide ApplyAll;
    assert op.ids[n..][0] == op.ids[n] && op.ids[n..][1..] == op.ids[n + 1..];
    longer := Then(run, 0, LockedRead);
  }

  lemma {:induction false} VisitOne(s: System, run: seq<Taken>, op: Op, v: Visit, n: nat, at: Time)
    returns (longer: seq<Taken>)
    requires op.Bulk? && n < |op.ids| && CanRun(run) && At(s, Reached(run), op, v, n)
    ensures CanRun(longer) && At(s, Reached(longer), op, Visited(s, op, v, op.ids[n], at), n + 1)
  {
    hide ApplyAll, Reached, CanRun;
    assert op.ids[n..][1..] == op.ids[n + 1..];
    longer := ReadNext(s, run, op, v, n, at);
    if RowOf(ApplyAll(s.db, v.es), op.ids[n]).Some? {
      longer := Then(longer, 0, Stage(at));
    }
  }

  /** What the loop has collected is what the thread would stage, and its cache updates add up. */
  ghost predicate Matches(s: System, op: Op, l: Spec.Loop)
    requires op.Bulk?
  {
    && l.err == None && (forall i :: 0 <= i < |l.events| ==> l.events[i].Changed?)
    && l.rows == ApplyRowsAll(s.db, l.events) && Keyed(l.rows.orders)
    && TellAll(s.cache, OpsOf(l.events)) == Spec.Cached(s.cache, op.mode, l.touched)
  }

  lemma CachedOneMore(cache: Rows, mode: Spec.Mode, touched: Rows, row: Order)
    requires mode == Spec.Issuing ==> IsActive(row.status)
    ensures Spec.Cached(cache, mode, touched[row.id := row]) ==
            Tell(Spec.Cached(cache, mode, touched), if mode == Spec.Issuing then Put(row) else Drop(row.id))
  {
  }

  lemma {:induction false} MatchesOneMore(s: System, op: Op, l: Spec.Loop, v: Spec.Verdict, at: Time)
    requires op.Bulk? && Matches(s, op, l) && v.change.Some?
    ensures var row, kind := v.change.value, KindOf(op);
            var l' := Spec.Extend(l, v, kind, op.now, at);
            && Matches(s, op, l')
            && OpsOf(l'.events) == OpsOf(l.events) + [Refresh(kind, After(row, kind, op.now))]
  {
    hide ApplyAll, AllEnabled, TellAll, Tell, Spec.Cached;
    var row, kind := v.change.value, KindOf(op);
    var e := Changed(row, kind, op.now, at);
    assert (l.events + [e])[..|l.events|] == l.events;
    assert OpsOf(l.events + [e]) == OpsOf(l.events) + [Refresh(kind, After(row, kind, op.now))];
    TellSnoc(s.cache, OpsOf(l.events), Refresh(kind, After(row, kind, op.now)));
    CachedOneMore(s.cache, op.mode, l.touched, After(row, kind, op.now));
  }

  /** What the loop has collected, as a visit. */
  function Seen(l: Spec.Loop): Visit
    requires forall i :: 0 <= i < |l.events| ==> l.events[i].Changed?
  {
    Visit(l.events, OpsOf(l.events), l.results)
  }

  lemma {:induction false} JudgedResult(
      orders: Rows, mode: Spec.Mode, user: string, id: string, i: nat, now: Time, f: Spec.Faults)
    requires Spec.Judge(orders, mode, user, id, i, now, f).err == None
    ensures var reason := if id in orders then Spec.Refusal(mode, orders[id], user, now) else Spec.OrderNotFound;
            && Spec.Judge(orders, mode, user, id, i, now, f).result ==
                 Spec.ItemResult(id, reason == Spec.Nothing, reason)
            && Spec.Judge(orders, mode, user, id, i, now, f).change ==
               if reason == Spec.Nothing then Some(orders[id]) else None
  {
  }

  /** One id, in the loop and by the thread. */
  lemma {:induction false} VisitBoth(
      s: System, run: seq<Taken>, op: Op, l: Spec.Loop, n: nat, clock: nat -> Time, f: Spec.Faults)
    returns (longer: seq<Taken>)
    requires op.Bulk? && n < |op.ids| && CanRun(run) && Matches(s, op, l) && At(s, Reached(run), op, Seen(l), n)
    requires Spec.Item(l, op.mode, op.user, op.ids[n], n, op.now, clock, f).err == None
    ensures var l' := Spec.Item(l, op.mode, op.user, op.ids[n], n, op.now, clock, f);
            CanRun(longer) && Matches(s, op, l') && At(s, Reached(longer), op, Seen(l'), n + 1)
  {
    hide ApplyAll, AllEnabled, ApplyRowsAll, Spec.Judge, TellAll, Do, CanDo, Reached, CanRun, Guard;
    var v := Spec.Judge(l.rows.orders, op.mode, op.user, op.ids[n], n, op.now, f);
    TasksAtTheEnd(s.db, l.events);
    JudgedResult(l.rows.orders, op.mode, op.user, op.ids[n], n, op.now, f);
    longer := VisitOne(s, run, op, Seen(l), n, clock(|l.events|));
    if v.change.Some? {
      MatchesOneMore(s, op, l, v, clock(|l.events|));
    }
  }

  lemma {:induction false} VisitAll(
      s: System, run: seq<Taken>, op: Op, n: nat, clock: nat -> Time, f: Spec.Faults) returns (longer: seq<Taken>)
    requires op.Bulk? && n <= |op.ids| && CanRun(run) && Still(s) && Keyed(s.db.orders)
    requires Reached(run) == s.(threads := map[0 := Working(op, op.ids, None, [], [], [])])
    requires Spec.Looped(s.db, op.mode, op.user, op.ids, op.now, clock, f, n).err == None
    ensures var l := Spec.Looped(s.db, op.mode, op.user, op.ids, op.now, clock, f, n);
            CanRun(longer) && Matches(s, op, l) && At(s, Reached(longer), op, Seen(l), n)
  {
    hide Spec.Item, Do, CanDo, Reached, CanRun;
    longer := run;
    if n == 0 {
      assert op.ids[0..] == op.ids && OpsOf([]) == [];
      assert Spec.Cached(s.cache, op.mode, map[]) == s.cache;
    } else {
      var l := Spec.Looped(s.db, op.mode, op.user, op.ids, op.now, clock, f, n - 1);
      if l.err == None {
        longer := VisitAll(s, run, op, n - 1, clock, f);
        longer := VisitBoth(s, longer, op, l, n - 1, clock, f);
      }
    }
  }

  /** A bulk operation that commits. */
  lemma {:induction false} BulkAlone(
      run: seq<Taken>, op: Op, clock: nat -> Time, f: Spec.Faults) returns (longer: seq<Taken>)
    requires op.Bulk? && CanRun(run) && Still(Reached(run)) && Keyed(Reached(run).db.orders)
    requires Spec.Looped(Reached(run).db, op.mode, op.user, op.ids, op.now, clock, f, |op.ids|).err == None
    ensures CanRun(longer) && Still(Reached(longer))
    ensures StateOf(Reached(longer)) ==
            Spec.Landing(StateOf(Reached(run)), op.mode,
                Spec.Looped(Reached(run).db, op.mode, op.user, op.ids, op.now, clock, f, |op.ids|))
  {
    hide ApplyAll, AllEnabled, TellAll, Spec.Looped, Reached, CanRun;
    var s := Reached(run);
    var l := Spec.Looped(s.db, op.mode, op.user, op.ids, op.now, clock, f, |op.ids|);
    longer := Then(run, 0, Begin(op));
    longer := VisitAll(s, longer, op, |op.ids|, clock, f);
    longer := CommitAndPost(longer, 0, Reached(longer).threads[0]);
    TasksAtTheEnd(s.db, l.events);
  }

  lemma {:induction false} GetIsRun(run: seq<Taken>, id: string, f: Spec.Faults) returns (longer: seq<Taken>)
    requires CanRun(run) && Still(Reached(run)) && Keyed(Reached(run).db.orders)
    ensures CanRun(longer) && Still(Reached(longer))
    ensures StateOf(Reached(longer)) == Spec.GetOrderRun(StateOf(Reached(run)), id, f).state
  {
    hide Reached, CanRun;
    var s := StateOf(Reached(run));
    longer := run;
    if Spec.GetOrderRun(s, id, f).state != s {
      longer := GetAlone(run, id);
    }
  }

  lemma {:induction false} BodyIsRun(run: seq<Taken>, q: Seq.Request, f: Spec.Faults) returns (longer: seq<Taken>)
    requires CanRun(run) && Still(Reached(run)) && Keyed(Reached(run).db.orders)
               && (q.Add? || q.Overwrite? || q.Delete? || q.GiveBack?)
    ensures CanRun(longer) && Still(Reached(longer))
    ensures StateOf(Reached(longer)) ==
              Spec.Settle(StateOf(Reached(run)), f, Seq.BodyOf(StateOf(Reached(run)), q, f)).state
  {
    hide ApplyAll, Reached, CanRun;
    var s := StateOf(Reached(run));
    var body := Seq.BodyOf(s, q, f);
    longer := run;
    if body.Ready? && !f(Spec.Begin) && !f(Spec.Call.Commit) {
      match q
      case Add(order, at, loggedAt) => longer := AddAlone(run, order, at, loggedAt);
      case Delete(id, loggedAt) => longer := DeleteAlone(run, id, loggedAt);
      case Overwrite(id, status, at, loggedAt) =>
        if |body.events| == 0 {
          longer := KeepAlone(run, id, at);
          ApplyNone(s.db);
        } else {
          longer := ChangeAlone(run, UpdateStatus(id, status, at), id, loggedAt);
        }
      case GiveBack(id, user, stamps) =>
        longer := ChangeAlone(run, AddReturn(id, user, stamps), id, stamps.loggedAt);
      case _ =>
    }
  }

  // Every request.

  /**
   Whatever fails, a request leaves the store as some interleaved run does, from any state in
   which nobody is at work.
   */
  lemma {:induction false} RequestIsRun(run: seq<Taken>, q: Seq.Request, f: Spec.Faults) returns (longer: seq<Taken>)
    requires CanRun(run) && Still(Reached(run))
    ensures CanRun(longer) && Still(Reached(longer))
    ensures StateOf(Reached(longer)) == Seq.Perform(StateOf(Reached(run)), q, f)
  {
    hide ApplyAll, Reached, CanRun, Spec.Looped;
    RunKeeps(run);
    SerialKeyed(Reached(run).db, Reached(run).log);
    var s := StateOf(Reached(run));
    longer := run;
    match q
    case Create(req, times) =>
      if OrderServer.CreateRun(s, req, times, f).1 in {OrderServer.Done, OrderServer.InternalError} {
        longer := BodyIsRun(run, Seq.Add(OrderServer.Requested(req, times), times.at, times.loggedAt), f);
      }
    case Get(id) => longer := GetIsRun(run, id, f);
    case GuardedDelete(id, now, loggedAt) =>
      if id != "" {
        longer := GetIsRun(run, id, f);
        if Seq.Perform(s, q, f) != StateOf(Reached(longer)) {
          longer := BodyIsRun(longer, Seq.Delete(id, loggedAt), f);
        }
      }
    case Many(mode, user, ids, now, clock) =>
      if Seq.Perform(s, q, f) != s {
        longer := BulkAlone(run, Op.Bulk(mode, user, ids, now), clock, f);
      }
    case _ => longer := BodyIsRun(run, q, f);
  }

  /** Every sequential run of requests on an empty store, under any faults, ends where some interleaved run ends. */
  lemma {:induction false} SequentialIsInterleaved(requests: seq<Seq.Served>) returns (run: seq<Taken>)
    ensures CanRun(run) && Still(Reached(run))
    ensures StateOf(Reached(run)) == Seq.PerformAll(Spec.State(EMPTY_DB, map[]), requests)
    decreases |requests|
  {
    if |requests| == 0 {
      run := [];
    } else {
      var last := requests[|requests| - 1];
      run := SequentialIsInterleaved(requests[..|requests| - 1]);
      run := RequestIsRun(run, last.q, last.f);
    }
  }
}
