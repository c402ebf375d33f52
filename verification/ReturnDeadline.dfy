/** When a return that AddReturn accepts is stamped within 48 hours of the issue. */
module ReturnDeadlines {
  import opened Model
  import opened Ledger
  import opened StorageSpec
  import opened BulkTheorems
  import opened OrderServer
  import opened SequentialRuns

  const FRESH_STORE: State := State(EMPTY_DB, map[])

  /** Whatever AddReturn accepts with these clock readings, in this store, is stamped in time. */
  ghost predicate InTime(s: State, clock: ReturnClock) {
    forall id, user ::
      var body := AddReturnBody(s.db, id, user, clock, NO_FAULTS);
      body.Ready? ==> clock.changedAt - s.db.orders[id].updatedAt <= 48 * 60 * 60 * 1_000_000_000
  }

  /** An order that is created and issued 48 hours before the deadline check. */
  function LateRequests(clock: ReturnClock): seq<Served> {
    var t := clock.checkedAt - RETURN_WINDOW;
    var created := Create(CreateRequest("A", "U", Some(t), Some("Box"), 0, 0.0), CreateClock(t, t, t, t, t));
    [Served(created, NO_FAULTS), Served(Many(Issuing, "U", ["A"], t, (k: nat) => t), NO_FAULTS)]
  }

  const BARE: Order := Order("A", "U", 0, Received, 0, 0.0, "Box", 0, 0)

  lemma {:induction false} CreatedStore(clock: ReturnClock)
    ensures var t, s := clock.checkedAt - RETURN_WINDOW, PerformAll(FRESH_STORE, LateRequests(clock)[..1]);
            s.db.orders == map["A" := BARE.(storageUntil := t, createdAt := t, updatedAt := t)]
  {
    var t, run := clock.checkedAt - RETURN_WINDOW, LateRequests(clock);
    assert run[..1][..0] == [] && run[..1][0] == run[0];
    ApplyOne(EMPTY_DB, Created(BARE.(storageUntil := t, createdAt := t, updatedAt := t), t, t));
  }

  lemma {:induction false} IssuedStore(clock: ReturnClock)
    ensures var t, s := clock.checkedAt - RETURN_WINDOW, PerformAll(FRESH_STORE, LateRequests(clock));
            s.db.orders == map["A" := BARE.(status := Issued, storageUntil := t, createdAt := t, updatedAt := t)]
  {
    var t, run := clock.checkedAt - RETURN_WINDOW, LateRequests(clock);
    CreatedStore(clock);
    var s := PerformAll(FRESH_STORE, run[..1]);
    assert run[1].q == Many(Issuing, "U", ["A"], t, (k: nat) => t);
    assert PerformAll(FRESH_STORE, run) == Perform(s, run[1].q, NO_FAULTS);
    hide PerformAll, BulkRun;
    FinalRows(s, Issuing, "U", ["A"], t, (k: nat) => t);
  }

  /** A return that is accepted at the last moment and stamped more than 48 hours after the issue. */
  lemma {:induction false} LateReturn(clock: ReturnClock)
    requires clock.checkedAt < clock.changedAt
    ensures var s := PerformAll(FRESH_STORE, LateRequests(clock));
            var s' := Perform(s, GiveBack("A", "U", clock), NO_FAULTS);
            && "A" in s.db.orders && s.db.orders["A"].status == Issued
            && RowOf(s'.db, "A") == Some(s.db.orders["A"].(status := Returned, updatedAt := clock.changedAt))
            && clock.changedAt - s.db.orders["A"].updatedAt > 48 * 60 * 60 * 1_000_000_000
  {
    IssuedStore(clock);
    var s := PerformAll(FRESH_STORE, LateRequests(clock));
    ApplyOne(s.db, AddReturnBody(s.db, "A", "U", clock, NO_FAULTS).events[0]);
  }

  /**
   AddReturn checks the deadline against one reading of the clock and stamps the row with a later
   one. In every reachable store every return it accepts is stamped within 48 hours of the issue
   exactly if its second reading is not after its first.
   */
  lemma {:induction false} ReturnWindowExact(clock: ReturnClock)
    ensures (forall run :: InTime(PerformAll(FRESH_STORE, run), clock)) <==> clock.changedAt <= clock.checkedAt
  {
    if clock.changedAt > clock.checkedAt {
      LateReturn(clock);
      var s := PerformAll(FRESH_STORE, LateRequests(clock));
      assert AddReturnBody(s.db, "A", "U", clock, NO_FAULTS).Ready?;
      assert !InTime(s, clock);
    }
  }
}
