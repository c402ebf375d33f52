/**
 Requests served one after the other, each under a fault schedule of its own: what holds of the
 tables and of the cache after every such run.
 */
module SequentialRuns {
  import opened Model
  import opened Ledger
  import opened OrderCaching
  import opened StorageSpec
  import opened BulkTheorems
  import opened OrderServer

  datatype Request =
    | Add(order: Order, at: Time, loggedAt: Time)
    | Create(req: CreateRequest, times: CreateClock)
    | Get(id: string)
    | Overwrite(id: string, status: Status, at: Time, loggedAt: Time)
    | Delete(id: string, loggedAt: Time)
    | GuardedDelete(id: string, now: Time, loggedAt: Time)
    | GiveBack(id: string, user: string, stamps: ReturnClock)
    | Many(mode: Mode, user: string, ids: seq<string>, now: Time, clock: nat -> Time)

  /** What the statements of a request on one order come to. */
  function BodyOf(s: State, q: Request, f: Faults): Body
    requires q.Add? || q.Overwrite? || q.Delete? || q.GiveBack?
  {
    match q
    case Add(order, at, loggedAt) => AddOrderBody(s.db, order, at, loggedAt, f)
    case Overwrite(id, status, at, loggedAt) => UpdateStatusBody(s.db, id, status, at, loggedAt, f)
    case Delete(id, loggedAt) => DeleteOrderBody(s.db, id, loggedAt, f)
    case GiveBack(id, user, stamps) => AddReturnBody(s.db, id, user, stamps, f)
  }

  function Perform(s: State, q: Request, f: Faults): State {
    match q
    case Create(req, times) => CreateRun(s, req, times, f).0
    case Get(id) => GetOrderRun(s, id, f).state
    case GuardedDelete(id, now, loggedAt) => GuardedDeleteRun(s, id, now, loggedAt, f).0
    case Many(mode, user, ids, now, clock) => BulkRun(s, mode, user, ids, now, clock, f).state
    case _ => Settle(s, f, BodyOf(s, q, f)).state
  }

  datatype Served = Served(q: Request, f: Faults)

  function PerformAll(s: State, run: seq<Served>): State {
    if |run| == 0 then s
    else
      var last := run[|run| - 1];
      Perform(PerformAll(s, run[..|run| - 1]), last.q, last.f)
  }

  ghost predicate Mirror(s: State) {
    Mirrors(s.cache, s.db.orders)
  }

  predicate PartOf(cache: Rows, orders: Rows) {
    forall id :: id in cache ==>
      id in orders && cache[id] == orders[id] && (cache[id].status == Received || cache[id].status == Issued)
  }

  /** The cache holds some of the received and issued rows, as they are. */
  predicate Part(s: State) {
    PartOf(s.cache, s.db.orders)
  }

  /** The time that a request writes into the history, if it writes one. */
  function HistoryStamp(q: Request): Option<Time> {
    match q
    case Add(_, at, _) => Some(at)
    case Create(_, times) => Some(times.at)
    case Overwrite(_, _, at, _) => Some(at)
    case GiveBack(_, _, stamps) => Some(stamps.changedAt)
    case Many(_, _, _, now, _) => Some(now)
    case _ => None
  }

  /** The events that a request may commit: one, or changes of one kind, with its time on them. */
  predicate EventsOf(q: Request, es: seq<Event>) {
    if q.Many? then Uniform(es, KindFor(q.mode, q.user, q.now), q.now)
    else
      && |es| <= 1 && (|es| == 1 && !es[0].Removed? ==> HistoryStamp(q) == Some(es[0].at))
      && (|es| == 1 ==> (es[0].Changed? && es[0].kind.SetStatus? <==> q.Overwrite?))
      && (|es| == 1 && q.Overwrite? ==> es[0].before.id == q.id && es[0].kind.status == q.status)
  }

  /** What a request commits: enabled events, or nothing. */
  ghost predicate Explains(s: State, s': State, es: seq<Event>, slack: Slack) {
    AllEnabled(s.db, es) && ApplyAll(s.db, es) == s'.db && AllCalm(es, slack)
  }

  /** The cache update that follows a commit is right for the rows that were committed. */
  ghost predicate Tracks(s: State, s': State) {
    && (Mirror(s) ==> Mirror(s'))
    && (Part(s) ==> Part(s'))
  }

  /**
   No status is written by hand, and an AddReturn sees the clock move by at most the slack of its
   order between two readings.
   */
  predicate Mild(q: Request, slack: Slack) {
    match q
    case Add(order, _, _) => order.status == Received
    case Overwrite(_, _, _, _) => false
    case GiveBack(_, _, stamps) =>
      && stamps.changedAt - stamps.checkedAt <= slack(q.id)
      && 0 <= stamps.returnedAt - stamps.changedAt <= slack(q.id)
    case _ => true
  }

  /** Telling the cache the new rows and the rows that are gone or inactive keeps it in step with the table. */
  lemma MergeTracks(cache: Rows, orders: Rows, orders': Rows, puts: Rows, drops: set<string>)
    requires forall id :: id !in puts && id !in drops ==>
               (id in orders <==> id in orders') && (id in orders ==> orders[id] == orders'[id])
    requires forall id :: id in puts && id !in drops ==> id in orders' && orders'[id] == puts[id]
    requires forall id :: id in drops && id in orders' ==> !IsActive(orders'[id].status)
    ensures Mirrors(cache, orders) ==> Mirrors(Merge(cache, puts, drops), orders')
    ensures PartOf(cache, orders) ==> PartOf(Merge(cache, puts, drops), orders')
  {
  }

  lemma {:induction false} BodyRows(s: State, q: Request, f: Faults)
    requires Keyed(s.db.orders) && (q.Add? || q.Overwrite? || q.Delete? || q.GiveBack?) && BodyOf(s, q, f).Ready?
    ensures var body := BodyOf(s, q, f);
            var orders, orders' := s.db.orders, ApplyAll(s.db, body.events).orders;
            && (forall id :: id !in body.puts && id !in body.drops ==>
                  (id in orders <==> id in orders') && (id in orders ==> orders[id] == orders'[id]))
            && (forall id :: id in body.puts && id !in body.drops ==> id in orders' && orders'[id] == body.puts[id])
            && (forall id :: id in body.drops && id in orders' ==> !IsActive(orders'[id].status))
  {
    var body := BodyOf(s, q, f);
    if |body.events| == 1 {
      ApplyOne(s.db, body.events[0]);
    }
  }

  lemma {:induction false} BodyTracks(s: State, q: Request, f: Faults)
    requires Keyed(s.db.orders) && (q.Add? || q.Overwrite? || q.Delete? || q.GiveBack?)
    ensures Tracks(s, Settle(s, f, BodyOf(s, q, f)).state)
  {
    hide Merge, Mirrors, PartOf;
    var body := BodyOf(s, q, f);
    if body.Ready? {
      var orders' := ApplyAll(s.db, body.events).orders;
      if |body.events| == 1 {
        ApplyOne(s.db, body.events[0]);
      }
      BodyRows(s, q, f);
      MergeTracks(s.cache, s.db.orders, orders', body.puts, body.drops);
    }
  }

  lemma {:induction false} BodyExplained(s: State, q: Request, f: Faults, slack: Slack) returns (es: seq<Event>)
    requires Keyed(s.db.orders) && (q.Add? || q.Overwrite? || q.Delete? || q.GiveBack?)
    ensures Mild(q, slack) ==> Explains(s, Settle(s, f, BodyOf(s, q, f)).state, es, slack)
    ensures AllEnabled(s.db, es) && ApplyAll(s.db, es) == Settle(s, f, BodyOf(s, q, f)).state.db && EventsOf(q, es)
  {
    var body := BodyOf(s, q, f);
    es := if body.Ready? && !f(Begin) && !f(Commit) then body.events else [];
    if |es| == 1 {
      ApplyOne(s.db, es[0]);
    }
  }

  /**
   All or nothing, for the operations on one order: an error means that nothing has changed. No
   error means that the operation's events are in the tables exactly if the commit succeeded,
   because the error of a failed commit never reaches the caller.
   */
  lemma {:induction false} SingleAccurate(s: State, q: Request, f: Faults)
    requires Keyed(s.db.orders) && (q.Add? || q.Overwrite? || q.Delete? || q.GiveBack?)
    ensures var body, r := BodyOf(s, q, f), Settle(s, f, BodyOf(s, q, f));
            && (r.err.Some? ==> r.state == s)
            && (r.err == None ==>
                  && body.Ready? && AllEnabled(s.db, body.events)
                  && (body.events == [] <==> q.Overwrite? && s.db.orders[q.id].status == q.status)
                  && (r.state.db == ApplyAll(s.db, body.events) <==> body.events == [] || !f(Commit)))
  {
    var body := BodyOf(s, q, f);
    if body.Ready? && |body.events| == 1 {
      ApplyOne(s.db, body.events[0]);
      assert |Apply(s.db, body.events[0]).outbox| == |s.db.outbox| + 1;
    }
  }

  lemma {:induction false} BulkTracks(
      s: State, mode: Mode, user: string, ids: seq<string>, now: Time, clock: nat -> Time, f: Faults)
    requires Keyed(s.db.orders)
    ensures Tracks(s, BulkRun(s, mode, user, ids, now, clock, f).state)
  {
    hide Looped, TaskFault, Merge, Mirrors, PartOf, Transitions, Wins;
    if |ids| > 0 && BulkRun(s, mode, user, ids, now, clock, f).err == None {
      LoopMeans(s.db, mode, user, ids, now, clock, f, |ids|);
      TouchedRows(s.db, mode, user, ids, now, clock, f, |ids|);
      var touched := Looped(s.db, mode, user, ids, now, clock, f, |ids|).touched;
      if mode == Issuing {
        MergeTracks(s.cache, s.db.orders, s.db.orders + touched, touched, {});
      } else {
        MergeTracks(s.cache, s.db.orders, s.db.orders + touched, map[], touched.Keys);
      }
    }
  }

  lemma {:induction false} BulkExplained(
      s: State, mode: Mode, user: string, ids: seq<string>, now: Time, clock: nat -> Time, f: Faults)
    returns (es: seq<Event>)
    requires Keyed(s.db.orders)
    ensures Explains(s, BulkRun(s, mode, user, ids, now, clock, f).state, es, NO_SLACK)
    ensures Uniform(es, KindFor(mode, user, now), now)
  {
    hide Looped, ApplyRowsAll, Merge, TaskFault;
    var l := Looped(s.db, mode, user, ids, now, clock, f, |ids|);
    es := if BulkRun(s, mode, user, ids, now, clock, f).state == s then [] else l.events;
    LoopDerived(s.db, mode, user, ids, now, clock, f, |ids|);
    TasksAtTheEnd(s.db, l.events);
  }

  /**
   GetOrder gives the answer of a plain lookup in the table. It tells nothing exactly when that
   lookup fails and the order is not cached, so a cached order is answered without a read.
   */
  lemma GetOrderRefinesLookup(s: State, id: string, f: Faults)
    requires Keyed(s.db.orders) && Part(s)
    ensures var r := GetOrderRun(s, id, f);
            && r.state.db == s.db && Tracks(s, r.state)
            && (r.answer == Unavailable <==> id !in s.cache && f(ReadOrder(0)))
            && (r.answer != Unavailable ==> r.answer == if id in s.db.orders then Answered(s.db.orders[id])
                  else NotFound)
  {
  }

  lemma {:induction false} DbOkKeyed(db: Db)
    requires DbOk(db)
    ensures Keyed(db.orders)
  {
    forall id | id in db.orders ensures db.orders[id].id == id {
      assert OrderOk(DossierOf(db, id), id);
    }
  }

  /** Every request keeps the cache in step with the table, whatever fails. */
  lemma {:induction false} PerformTracks(s: State, q: Request, f: Faults)
    requires Keyed(s.db.orders)
    ensures Mirror(s) ==> Mirror(Perform(s, q, f))
    ensures Part(s) ==> Part(Perform(s, q, f))
  {
    if Mirror(s) || Part(s) {
      assert Part(s);
      match q
      case Create(req, times) =>
        if CreateRun(s, req, times, f).1 in {Done, InternalError} {
          BodyTracks(s, Add(Requested(req, times), times.at, times.loggedAt), f);
        }
      case Get(id) => GetOrderRefinesLookup(s, id, f);
      case GuardedDelete(id, _, loggedAt) =>
        GetOrderRefinesLookup(s, id, f);
        BodyTracks(GetOrderRun(s, id, f).state, Delete(id, loggedAt), f);
      case Many(mode, user, ids, now, clock) => BulkTracks(s, mode, user, ids, now, clock, f);
      case _ => BodyTracks(s, q, f);
    }
  }

  /** Every request commits enabled events or nothing, whatever fails; a mild request commits calm ones. */
  lemma {:induction false} PerformExplained(s: State, q: Request, f: Faults, slack: Slack) returns (es: seq<Event>)
    requires Keyed(s.db.orders)
    ensures AllEnabled(s.db, es) && ApplyAll(s.db, es) == Perform(s, q, f).db && EventsOf(q, es)
    ensures Mild(q, slack) ==> AllCalm(es, slack)
  {
    es := [];
    match q
    case Create(req, times) =>
      if CreateRun(s, req, times, f).1 in {Done, InternalError} {
        es := BodyExplained(s, Add(Requested(req, times), times.at, times.loggedAt), f, slack);
      }
    case Get(id) =>
    case GuardedDelete(id, now, loggedAt) =>
      if GuardedDeleteRun(s, id, now, loggedAt, f).0.db != s.db {
        es := BodyExplained(GetOrderRun(s, id, f).state, Delete(id, loggedAt), f, slack);
      }
    case Many(mode, user, ids, now, clock) => es := BulkExplained(s, mode, user, ids, now, clock, f);
    case _ => es := BodyExplained(s, q, f, slack);
  }

  /**
   After any run, under any faults: the tables are consistent, and a cache that mirrored the
   active orders, or held a part of them, still does.
   */
  lemma {:induction false} RunKeepsStore(s: State, run: seq<Served>)
    requires DbOk(s.db)
    ensures DbOk(PerformAll(s, run).db)
    ensures Mirror(s) ==> Mirror(PerformAll(s, run))
    ensures Part(s) ==> Part(PerformAll(s, run))
  {
    if |run| > 0 {
      var mid, last := PerformAll(s, run[..|run| - 1]), run[|run| - 1];
      RunKeepsStore(s, run[..|run| - 1]);
      DbOkKeyed(mid.db);
      PerformTracks(mid, last.q, last.f);
      var es := PerformExplained(mid, last.q, last.f, NO_SLACK);
      ApplyAllKeepsDb(mid.db, es);
    }
  }

  /** After any run of mild requests, every order is inside its lifecycle, with its deadlines kept. */
  lemma {:induction false} RunKeepsLives(s: State, run: seq<Served>, slack: Slack)
    requires DbOk(s.db) && LivesOk(s.db, slack) && forall i :: 0 <= i < |run| ==> Mild(run[i].q, slack)
    ensures LivesOk(PerformAll(s, run).db, slack)
  {
    if |run| > 0 {
      var mid, last := PerformAll(s, run[..|run| - 1]), run[|run| - 1];
      RunKeepsLives(s, run[..|run| - 1], slack);
      RunKeepsStore(s, run[..|run| - 1]);
      DbOkKeyed(mid.db);
      var es := PerformExplained(mid, last.q, last.f, slack);
      ApplyAllKeepsLives(mid.db, es, slack);
    }
  }
}
