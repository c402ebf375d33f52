/** When a deletion takes return rows with it, and which requests can bring that about. */
module ReturnSafety {
  import opened Model
  import opened Ledger
  import opened OrderCaching
  import opened StorageSpec
  import opened BulkTheorems
  import opened BulkRecords
  import opened OrderServer
  import opened SequentialRuns
  import opened SystemSpec
  import opened SystemTheorems
  import opened SystemResults

  lemma {:induction false} NothingToErase<T>(rows: seq<T>, key: T -> string, id: string)
    requires RowsOf(rows, key, id) == []
    ensures RowsExcept(rows, key, id) == rows
  {
    if |rows| > 0 {
      NothingToErase(rows[..|rows| - 1], key, id);
    }
  }

  /** The cascade loses something exactly if the order has a return row. */
  lemma {:induction false} CascadeExact(rows: seq<ReturnEntry>, id: string)
    ensures RowsExcept(rows, ReturnKey, id) == rows <==> RowsOf(rows, ReturnKey, id) == []
  {
    RowsOfExcept(rows, ReturnKey, id, id);
    if RowsOf(rows, ReturnKey, id) == [] {
      NothingToErase(rows, ReturnKey, id);
    }
  }

  // Which orders have return rows.

  /** Only returned orders have return rows. */
  predicate ReturnsKept(d: Dossier) {
    d.returned != [] ==> d.row.Some? && d.row.value.status == Returned
  }

  ghost predicate AllKept(db: Db) {
    forall id :: ReturnsKept(DossierOf(db, id))
  }

  /** A status is set by hand on an order that has return rows. */
  predicate Reopens(db: Db, e: Event) {
    e.Changed? && e.kind.SetStatus? && Returns(db, e.before.id) != []
  }

  lemma {:induction false} AmendKept(d: Dossier, e: Event)
    requires OrderOk(d, IdOf(e)) && ReturnsKept(d) && Fits(d, e)
    ensures ReturnsKept(Amend(d, e)) <==> !(e.Changed? && e.kind.SetStatus? && d.returned != [])
  {
  }

  /** A committed change keeps the return rows with returned orders exactly if it does not reopen one. */
  lemma {:induction false} KeptExact(db: Db, e: Event)
    requires DbOk(db) && AllKept(db) && Enabled(db, e)
    ensures AllKept(Apply(db, e)) <==> !Reopens(db, e)
  {
    hide Apply, Amend, Fits, OrderOk, ReturnsKept, Enabled;
    var own := IdOf(e);
    assert OrderOk(DossierOf(db, own), own) && ReturnsKept(DossierOf(db, own));
    EnabledFits(db, e);
    AmendKept(DossierOf(db, own), e);
    ApplyAmends(db, e, own);
    forall id | id != own ensures ReturnsKept(DossierOf(Apply(db, e), id)) {
      ApplyAmends(db, e, id);
      assert ReturnsKept(DossierOf(db, id));
    }
  }

  /** A status is set by hand on a returned order. */
  predicate LeavesReturned(e: Event) {
    e.Changed? && e.kind.SetStatus? && e.before.status == Returned
  }

  lemma {:induction false} EventsKeep(db: Db, es: seq<Event>)
    requires DbOk(db) && AllKept(db) && AllEnabled(db, es) && forall i :: 0 <= i < |es| ==> !LeavesReturned(es[i])
    ensures AllKept(ApplyAll(db, es))
  {
    if |es| > 0 {
      var front, e := es[..|es| - 1], es[|es| - 1];
      EventsKeep(db, front);
      ApplyAllKeepsDb(db, front);
      var d := ApplyAll(db, front);
      assert Enabled(d, e) && ApplyAll(db, es) == Apply(d, e);
      if e.Changed? {
        assert ReturnsKept(DossierOf(d, e.before.id));
      }
      KeptExact(d, e);
    }
  }

  lemma EmptyKept()
    ensures AllKept(EMPTY_DB)
  {
  }

  // Requests served one after the other.

  /** An UpdateOrderStatus that changes the status of an order with return rows. */
  predicate Overwrites(s: State, q: Request) {
    q.Overwrite? && q.id in s.db.orders && q.status != s.db.orders[q.id].status && Returns(s.db, q.id) != []
  }

  /**
   The guard reads through the cache, yet it lets only rows go that are received and past their
   storage period. In every store with a right cache, its delete keeps the return rows exactly if
   it deletes nothing or the order has none.
   */
  lemma {:induction false} GuardedDeleteExact(s: State, id: string, now: Time, loggedAt: Time, f: Faults)
    requires Keyed(s.db.orders) && Part(s)
    ensures var s' := GuardedDeleteRun(s, id, now, loggedAt, f).0;
            && (s'.db.returnRows == s.db.returnRows <==> s'.db == s.db || Returns(s.db, id) == [])
            && (s'.db != s.db ==>
                  && id in s.db.orders && s.db.orders[id].status == Received && s.db.orders[id].storageUntil <= now
                  && s'.db == Apply(s.db, Removed(id, true, loggedAt)))
  {
    GetOrderRefinesLookup(s, id, f);
    var s' := GuardedDeleteRun(s, id, now, loggedAt, f).0;
    ApplyOne(s.db, Removed(id, true, loggedAt));
    CascadeExact(s.db.returnRows, id);
    assert s'.db != s.db ==> s'.db == Apply(s.db, Removed(id, true, loggedAt));
  }

  /** The row for which the guard would let a delete through, at some time, that takes a return row with it. */
  predicate Endangered(s: State, id: string) {
    id != "" && id in s.db.orders && s.db.orders[id].status == Received && Returns(s.db, id) != []
  }

  lemma {:induction false} DeletedOnTime(s: State, id: string)
    requires Keyed(s.db.orders) && Part(s) && Endangered(s, id)
    ensures GuardedDeleteRun(s, id, s.db.orders[id].storageUntil, 0, NO_FAULTS).0.db.returnRows != s.db.returnRows
  {
    GuardedDeleteExact(s, id, s.db.orders[id].storageUntil, 0, NO_FAULTS);
    GetOrderRefinesLookup(s, id, NO_FAULTS);
    ApplyOne(s.db, Removed(id, true, 0));
    assert |Apply(s.db, Removed(id, true, 0)).outbox| == |s.db.outbox| + 1;
  }

  /** No guarded delete can lose a return row exactly if no received order has one. */
  lemma {:induction false} GuardExact(s: State)
    requires Keyed(s.db.orders) && Part(s)
    ensures (forall id, now, loggedAt, f ::
               GuardedDeleteRun(s, id, now, loggedAt, f).0.db.returnRows == s.db.returnRows)
            <==> forall id :: !Endangered(s, id)
  {
    forall id, now, loggedAt, f | !Endangered(s, id)
      ensures GuardedDeleteRun(s, id, now, loggedAt, f).0.db.returnRows == s.db.returnRows
    {
      GuardedDeleteExact(s, id, now, loggedAt, f);
    }
    forall id | Endangered(s, id)
      ensures GuardedDeleteRun(s, id, s.db.orders[id].storageUntil, 0, NO_FAULTS).0.db.returnRows != s.db.returnRows
    {
      DeletedOnTime(s, id);
    }
  }

  lemma {:induction false} OverwriteEvent(s: State, q: Request, e: Event)
    requires EventsOf(q, [e]) && !q.Many? && Enabled(s.db, e)
    ensures Reopens(s.db, e) <==> Overwrites(s, q)
  {
    assert [e][0] == e;
  }

  /** A request keeps the return rows with returned orders exactly if it does not commit a new status over one. */
  lemma {:induction false} RequestKeptExact(s: State, q: Request, f: Faults)
    requires DbOk(s.db) && AllKept(s.db)
    ensures AllKept(Perform(s, q, f).db) <==> !(Overwrites(s, q) && Perform(s, q, f).db != s.db)
  {
    DbOkKeyed(s.db);
    var es := PerformExplained(s, q, f, NO_SLACK);
    hide Perform, AllKept, DbOk;
    if q.Many? {
      EventsKeep(s.db, es);
    } else if |es| == 1 {
      assert es == [es[0]];
      ApplyOne(s.db, es[0]);
      KeptExact(s.db, es[0]);
      assert |Apply(s.db, es[0]).outbox| == |s.db.outbox| + 1;
      OverwriteEvent(s, q, es[0]);
    } else {
      ApplyNone(s.db);
      assert es == [];
    }
  }

  lemma {:induction false} LoopReturnsGrow(
      db: Db, mode: Mode, user: string, ids: seq<string>, now: Time, clock: nat -> Time, f: Faults, n: nat)
    requires n <= |ids|
    ensures db.returnRows <= Looped(db, mode, user, ids, now, clock, f, n).rows.returnRows
  {
    if n > 0 {
      LoopReturnsGrow(db, mode, user, ids, now, clock, f, n - 1);
    }
  }

  lemma {:induction false} NoRemovals(s: State, q: Request, f: Faults)
    requires Keyed(s.db.orders) && !q.Delete? && !q.GuardedDelete?
    ensures s.db.returnRows <= Perform(s, q, f).db.returnRows
  {
    hide Merge, Looped;
    if q.Create? {
      if CreateRun(s, q.req, q.times, f).1 in {Response.Done, InternalError} {
        ApplyOne(s.db, Created(Requested(q.req, q.times), q.times.at, q.times.loggedAt));
      }
    } else if q.Many? {
      LoopReturnsGrow(s.db, q.mode, q.user, q.ids, q.now, q.clock, f, |q.ids|);
    } else if !q.Get? {
      var body := BodyOf(s, q, f);
      if body.Ready? && |body.events| == 1 {
        ApplyOne(s.db, body.events[0]);
      }
    }
  }

  /** Nobody deletes without the guard, and no status is set over an order with return rows. */
  predicate NeverReopened(s: State, run: seq<Served>) {
    |run| == 0 ||
    (var front, last := run[..|run| - 1], run[|run| - 1];
     NeverReopened(s, front) && !last.q.Delete? && !Overwrites(PerformAll(s, front), last.q))
  }

  /** In such runs, whatever fails, no return row is ever lost. */
  lemma {:induction false} RunKeepsReturns(s: State, run: seq<Served>)
    requires DbOk(s.db) && AllKept(s.db) && Part(s) && NeverReopened(s, run)
    ensures s.db.returnRows <= PerformAll(s, run).db.returnRows && AllKept(PerformAll(s, run).db)
  {
    if |run| > 0 {
      var front, last := run[..|run| - 1], run[|run| - 1];
      var mid := PerformAll(s, front);
      RunKeepsReturns(s, front);
      RunKeepsStore(s, front);
      DbOkKeyed(mid.db);
      assert PerformAll(s, run) == Perform(mid, last.q, last.f);
      hide PerformAll, DbOk;
      RequestKeptExact(mid, last.q, last.f);
      if last.q.GuardedDelete? {
        GuardedDeleteExact(mid, last.q.id, last.q.now, last.q.loggedAt, last.f);
        assert ReturnsKept(DossierOf(mid.db, last.q.id));
      } else {
        NoRemovals(mid, last.q, last.f);
      }
    }
  }

  // A sequential run that loses a return row.

  const CREATED: Order := Order("A", "U", 10, Received, 0, 0.0, "Box", 0, 0)

  const RETURN_ROW: ReturnEntry := ReturnEntry("A", "U", 2)

  /** Created, issued, taken back, set to received by hand. */
  const REOPENING: seq<Served> := [
    Served(Create(CreateRequest("A", "U", Some(10), Some("Box"), 0, 0.0), CreateClock(0, 0, 0, 0, 0)), NO_FAULTS),
    Served(Many(Issuing, "U", ["A"], 1, (k: nat) => 1), NO_FAULTS),
    Served(GiveBack("A", "U", ReturnClock(2, 2, 2, 2)), NO_FAULTS),
    Served(Overwrite("A", Received, 3, 3), NO_FAULTS)]

  /** The orders and the return rows of a store. */
  predicate Holds(s: State, row: Order, returnRows: seq<ReturnEntry>) {
    s.db.orders == map["A" := row] && s.db.returnRows == returnRows
  }

  lemma {:induction false} CreatedFirst(s: State)
    requires s == State(EMPTY_DB, map[])
    ensures Holds(Perform(s, REOPENING[0].q, NO_FAULTS), CREATED, [])
  {
    ApplyOne(EMPTY_DB, Created(CREATED, 0, 0));
  }

  lemma {:induction false} IssuedRows(s: State, clock: nat -> Time)
    requires Holds(s, CREATED, [])
    ensures Holds(BulkRun(s, Issuing, "U", ["A"], 1, clock, NO_FAULTS).state,
              CREATED.(status := Issued, updatedAt := 1), [])
  {
    hide BulkRun;
    FinalRows(s, Issuing, "U", ["A"], 1, clock);
    BulkRecorded(s, Issuing, "U", ["A"], 1, clock, NO_FAULTS);
    var changed := Transitions(s.db.orders, KindFor(Issuing, "U", 1), 1, ["A"]);
    assert changed == map["A" := CREATED.(status := Issued, updatedAt := 1)];
    hide Transitions, Audits, Entries, Succeeded;
  }

  lemma {:induction false} IssuedNext(s: State)
    requires Holds(s, CREATED, [])
    ensures Holds(Perform(s, REOPENING[1].q, NO_FAULTS), CREATED.(status := Issued, updatedAt := 1), [])
  {
    hide BulkRun, Holds;
    var q := REOPENING[1].q;
    assert q.Many? && q.mode == Issuing && q.user == "U" && q.ids == ["A"] && q.now == 1;
    IssuedRows(s, q.clock);
  }

  lemma {:induction false} ReturnedNext(s: State)
    requires Holds(s, CREATED.(status := Issued, updatedAt := 1), [])
    ensures Holds(Perform(s, REOPENING[2].q, NO_FAULTS), CREATED.(status := Returned, updatedAt := 2), [RETURN_ROW])
  {
    var q := REOPENING[2].q;
    ApplyOne(s.db, BodyOf(s, q, NO_FAULTS).events[0]);
  }

  lemma {:induction false} ReopenedNext(s: State)
    requires Holds(s, CREATED.(status := Returned, updatedAt := 2), [RETURN_ROW])
    ensures Holds(Perform(s, REOPENING[3].q, NO_FAULTS), CREATED.(updatedAt := 3), [RETURN_ROW])
  {
    var q := REOPENING[3].q;
    ApplyOne(s.db, BodyOf(s, q, NO_FAULTS).events[0]);
  }

  lemma {:induction false} PerformedFour(s: State, run: seq<Served>)
    requires |run| == 4
    ensures PerformAll(s, run[..1]) == Perform(s, run[0].q, run[0].f)
    ensures PerformAll(s, run[..2]) == Perform(PerformAll(s, run[..1]), run[1].q, run[1].f)
    ensures PerformAll(s, run[..3]) == Perform(PerformAll(s, run[..2]), run[2].q, run[2].f)
    ensures PerformAll(s, run) == Perform(PerformAll(s, run[..3]), run[3].q, run[3].f)
  {
    hide Perform;
    assert run[..1][..0] == [] && run[..2][..1] == run[..1] && run[..3][..2] == run[..2];
    assert PerformAll(s, []) == s;
  }

  lemma {:induction false} ReopenedDelete(s: State)
    requires Holds(s, CREATED.(updatedAt := 3), [RETURN_ROW]) && Part(s)
    ensures Perform(s, GuardedDelete("A", 10, 10), NO_FAULTS).db.returnRows == []
  {
    GuardedDeleteExact(s, "A", 10, 10, NO_FAULTS);
    GetOrderRefinesLookup(s, "A", NO_FAULTS);
    var s' := Perform(s, GuardedDelete("A", 10, 10), NO_FAULTS);
    ApplyOne(s.db, Removed("A", true, 10));
    assert |Apply(s.db, Removed("A", true, 10)).outbox| == |s.db.outbox| + 1;
    assert [RETURN_ROW][..0] == [];
    assert RowsExcept([RETURN_ROW], ReturnKey, "A") == [];
  }

  /**
   Five requests one after the other, none of which fails: an order is created, issued, taken back
   and set to received by hand, and then the guarded delete erases its return row.
   */
  lemma {:induction false} ReopenedRun() returns (s: State, s': State)
    ensures s == PerformAll(State(EMPTY_DB, map[]), REOPENING)
              && s' == Perform(s, GuardedDelete("A", 10, 10), NO_FAULTS)
    ensures s.db.returnRows == [RETURN_ROW] && s'.db.returnRows == []
  {
    var s0, q := State(EMPTY_DB, map[]), REOPENING;
    s := PerformAll(s0, q);
    s' := Perform(s, GuardedDelete("A", 10, 10), NO_FAULTS);
    EmptyDbOk(NO_SLACK);
    RunKeepsStore(s0, q);
    DbOkKeyed(s.db);
    hide Perform, DbOk;
    PerformedFour(s0, q);
    CreatedFirst(s0);
    IssuedNext(PerformAll(s0, q[..1]));
    ReturnedNext(PerformAll(s0, q[..2]));
    ReopenedNext(PerformAll(s0, q[..3]));
    ReopenedDelete(s);
  }

  // Under every interleaving.

  /**
   While no committed change sets a status over a returned order, only returned orders have return
   rows, so the deletion of any other order loses none.
   */
  lemma {:induction false} ReturnsStay(run: seq<Taken>, id: string)
    requires CanRun(run) && forall i :: 0 <= i < |Reached(run).log| ==> !LeavesReturned(Reached(run).log[i])
    ensures var db := Reached(run).db;
            && ReturnsKept(DossierOf(db, id))
            && (!(id in db.orders && db.orders[id].status == Returned) ==>
                  DeleteCascade(db, id).returnRows == db.returnRows)
  {
    RunKeeps(run);
    var s := Reached(run);
    EmptyKept();
    EmptyDbOk(NO_SLACK);
    EventsKeep(EMPTY_DB, s.log);
    SerialDossier(s.db, s.log, id);
    assert ReturnsKept(DossierOf(ApplyAll(EMPTY_DB, s.log), id));
    CascadeExact(s.db.returnRows, id);
  }

  /** An order comes to be returned, or stops being so, other than by a return. */
  predicate ByHand(e: Event) {
    match e
    case Created(order, _, _) => order.status == Returned
    case Changed(before, kind, _, _) => kind.SetStatus? && (before.status == Returned || kind.status == Returned)
    case Removed(_, _, _) => false
  }

  /** The returned orders are those with return rows. */
  predicate ReturnsTold(d: Dossier) {
    d.returned != [] <==> d.row.Some? && d.row.value.status == Returned
  }

  lemma {:induction false} ToldExact(d: Dossier, e: Event)
    requires OrderOk(d, IdOf(e)) && ReturnsTold(d) && Fits(d, e)
    ensures ReturnsTold(Amend(d, e)) <==> !ByHand(e)
  {
  }

  lemma {:induction false} LogTold(log: seq<Event>, id: string)
    requires AllEnabled(EMPTY_DB, log) && forall i :: 0 <= i < |log| ==> !ByHand(log[i])
    ensures ReturnsTold(DossierOf(ApplyAll(EMPTY_DB, log), id))
  {
    if |log| > 0 {
      var front, e := log[..|log| - 1], log[|log| - 1];
      var db := ApplyAll(EMPTY_DB, front);
      assert AllEnabled(EMPTY_DB, front) && Enabled(db, e) && ApplyAll(EMPTY_DB, log) == Apply(db, e);
      hide ApplyAll, AllEnabled, Apply, DossierOf, ReturnsTold, Amend;
      LogTold(front, id);
      LogDbOk(front);
      ApplyAmends(db, e, id);
      if IdOf(e) == id {
        assert OrderOk(DossierOf(db, id), id);
        EnabledFits(db, e);
        ToldExact(DossierOf(db, id), e);
      }
    }
  }

  /**
   While nothing but returns makes or unmakes a returned order, a delete loses return rows exactly
   if the order is returned at that moment, whatever the guard of the handler saw before.
   */
  lemma {:induction false} DeleteLosesExactly(run: seq<Taken>, id: string)
    requires CanRun(run) && forall i :: 0 <= i < |Reached(run).log| ==> !ByHand(Reached(run).log[i])
    ensures var db := Reached(run).db;
            DeleteCascade(db, id).returnRows == db.returnRows <==>
                !(id in db.orders && db.orders[id].status == Returned)
  {
    RunKeeps(run);
    var s := Reached(run);
    LogTold(s.log, id);
    SerialDossier(s.db, s.log, id);
    CascadeExact(s.db.returnRows, id);
  }
}
