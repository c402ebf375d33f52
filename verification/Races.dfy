/** Runs in which requests overlap and break what a reader of one request would expect. */
module Races {
  import opened Model
  import opened Ledger
  import opened SystemSpec
  import opened SystemResults

  /** An order that is received, and the same order issued at the end of its storage period. */
  const FRESH: Order := Order("A", "U", 10, Received, 0, 0.0, "Box", 0, 0)
  const ISSUED: Order := FRESH.(status := Issued, updatedAt := 10)

  lemma {:induction false} CreateCommitted() returns (run: seq<Taken>)
    ensures CanRun(run) && Reached(run).db.orders == map["A" := FRESH] && Reached(run).cache == map[]
              && Reached(run).locks == map[]
    ensures Reached(run).threads == map[0 := Posting([Put(FRESH)])] && Reached(run).db.returnRows == []
  {
    run := Then([], 0, Begin(AddOrder(FRESH, 0)));
    run := Then(run, 0, Insert(0));
    ApplyOne(EMPTY_DB, Created(FRESH, 0, 0));
    run := Then(run, 0, Step.Commit);
  }

  lemma {:induction false} IssueStaged() returns (run: seq<Taken>)
    ensures CanRun(run) && Reached(run).db.orders == map["A" := FRESH] && Reached(run).cache == map[]
    ensures var op := UpdateStatus("A", Issued, 10);
            Reached(run).threads == map[0 := Posting([Put(FRESH)]),
                                        1 := Working(op, [], None, [Changed(FRESH, SetStatus(Issued), 10, 10)],
                                            [Put(ISSUED)],
                                                     [StorageSpec.ItemResult("A", true, StorageSpec.Nothing)])]
  {
    hide Reached, CanRun;
    run := CreateCommitted();
    run := Then(run, 1, Begin(UpdateStatus("A", Issued, 10)));
    assert Visible(Reached(run), Reached(run).threads[1], "A") == Some(FRESH);
    run := Then(run, 1, LockedRead);
    run := Then(run, 1, Stage(10));
    assert ["A"][1..] == [] && Reached(run).threads[1].trail == [Changed(FRESH, SetStatus(Issued), 10, 10)];
    assert Reached(run).threads[1].pending == [Put(ISSUED)];
    assert Reached(run).threads[1].results == [StorageSpec.ItemResult("A", true, StorageSpec.Nothing)];
  }

  /**
   The cache need not mirror the table when operations overlap: a thread creates an order and
   commits, another issues it and updates the cache, and then the first one does, leaving a
   version that is no longer the row.
   */
  lemma {:induction false} StaleCache() returns (run: seq<Taken>)
    ensures CanRun(run) && Reached(run).cache == map["A" := FRESH] && Reached(run).db.orders == map["A" := ISSUED]
  {
    hide Reached, CanRun, Visible, Staged;
    run := IssueStaged();
    ApplyOne(Reached(run).db, Changed(FRESH, SetStatus(Issued), 10, 10));
    run := Then(run, 1, Step.Commit);
    run := Then(run, 1, UpdateCache(0));
    run := Then(run, 0, UpdateCache(0));
  }

  const RETURNED_ROW: ReturnEntry := ReturnEntry("A", "U", 11)

  /** The locked read of an operation on one order that has begun, while others are at work elsewhere. */
  lemma {:induction false} ReadBegun(run: seq<Taken>, t: nat, op: Op, row: Order) returns (longer: seq<Taken>)
    requires CanRun(run) && t in Reached(run).threads && Reached(run).locks == map[]
    requires Reached(run).threads[t] == Working(op, [row.id], None, [], [], [])
    requires Reads(op) && RowOf(Reached(run).db, row.id) == Some(row)
    ensures CanRun(longer) && longer == run + [Taken(t, LockedRead)]
    ensures var s := Reached(run);
            Reached(longer) ==
            s.(threads := s.threads[t := Working(op, [row.id], Some(row), [], [], [])], locks := map[row.id := t])
  {
    hide Reached, CanRun, ApplyAll;
    ApplyNone(Reached(run).db);
    longer := Then(run, t, LockedRead);
  }

  /** The operation reads the row and stages its change. */
  lemma {:induction false} StageBegun(run: seq<Taken>, t: nat, op: Op, row: Order, loggedAt: Time)
    returns (longer: seq<Taken>)
    requires CanRun(run) && t in Reached(run).threads && Reached(run).locks == map[]
    requires Reached(run).threads[t] == Working(op, [row.id], None, [], [], [])
    requires Reads(op) && RowOf(Reached(run).db, row.id) == Some(row) && Guard(row, KindOf(op), StampOf(op))
    ensures CanRun(longer) && longer == run + [Taken(t, LockedRead), Taken(t, Stage(loggedAt))]
    ensures var s, s', kind, at := Reached(run), Reached(longer), KindOf(op), StampOf(op);
            && s'.db == s.db && s'.locks == map[row.id := t] && t in s'.threads
            && s'.threads == s.threads[t := s'.threads[t]]
            && s'.threads[t].Working? && s'.threads[t].todo == []
            && s'.threads[t].trail == [Changed(row, kind, at, loggedAt)]
            && s'.threads[t].pending == [Refresh(kind, After(row, kind, at))]
  {
    hide Reached, CanRun, ApplyAll, Apply, Guard, Refresh;
    longer := ReadBegun(run, t, op, row);
    longer := Then(longer, t, Stage(loggedAt));
    assert [row.id][1..] == [];
  }

  /** The operation reads, changes and commits. */
  lemma {:induction false} ChangeBegun(run: seq<Taken>, t: nat, op: Op, row: Order, loggedAt: Time)
    returns (longer: seq<Taken>)
    requires CanRun(run) && t in Reached(run).threads && Reached(run).locks == map[]
    requires Reached(run).threads[t] == Working(op, [row.id], None, [], [], [])
    requires Reads(op) && RowOf(Reached(run).db, row.id) == Some(row) && Guard(row, KindOf(op), StampOf(op))
    ensures CanRun(longer) && Reached(longer).locks == map[]
    ensures longer == run + [Taken(t, LockedRead), Taken(t, Stage(loggedAt)), Taken(t, Step.Commit)]
    ensures var s, kind, at := Reached(run), KindOf(op), StampOf(op);
            && Reached(longer).db == Apply(s.db, Changed(row, kind, at, loggedAt))
            && Reached(longer).threads == s.threads[t := Posting([Refresh(kind, After(row, kind, at))])]
  {
    hide Reached, CanRun, ApplyAll, Apply, Guard, Refresh;
    var s, kind, at := Reached(run), KindOf(op), StampOf(op);
    longer := StageBegun(run, t, op, row, loggedAt);
    ApplyOne(s.db, Changed(row, kind, at, loggedAt));
    longer := Then(longer, t, Step.Commit);
  }

  /** An operation on one order, from its begin to its commit. */
  lemma {:induction false} ChangeBeside(run: seq<Taken>, t: nat, op: Op, row: Order, loggedAt: Time)
    returns (longer: seq<Taken>)
    requires CanRun(run) && t !in Reached(run).threads && Reached(run).locks == map[]
    requires Reads(op) && Targets(op) == [row.id] && RowOf(Reached(run).db, row.id) == Some(row)
    requires Guard(row, KindOf(op), StampOf(op))
    ensures CanRun(longer) && run <= longer && Reached(longer).locks == map[]
    ensures var s, kind, at := Reached(run), KindOf(op), StampOf(op);
            && Reached(longer).db == Apply(s.db, Changed(row, kind, at, loggedAt))
            && Reached(longer).threads == s.threads[t := Posting([Refresh(kind, After(row, kind, at))])]
  {
    hide Reached, CanRun, Apply, Guard, Refresh;
    longer := Then(run, t, Step.Begin(op));
    longer := ChangeBegun(longer, t, op, row, loggedAt);
  }

  /** The guard of the courier's delete has read the order, which is received and overdue at 10. */
  lemma {:induction false} GuardRead() returns (run: seq<Taken>)
    ensures CanRun(run) && Reached(run).db.returnRows == [] && RowOf(Reached(run).db, "A") == Some(FRESH)
    ensures Reached(run).locks == map[] && Reached(run).threads == map[0 := Posting([Put(FRESH)]), 1 := Holding(FRESH)]
    ensures FRESH.status == Received && FRESH.storageUntil <= 10
  {
    hide Reached, CanRun;
    run := CreateCommitted();
    run := Then(run, 1, Miss("A"));
    run := Then(run, 1, ReadRow);
  }

  lemma {:induction false} DeletedAfter(run: seq<Taken>) returns (longer: seq<Taken>)
    requires CanRun(run) && 1 in Reached(run).threads && Reached(run).threads[1] == Holding(FRESH)
    requires Reached(run).locks == map[] && "A" in Reached(run).db.orders
               && Reached(run).db.returnRows == [RETURNED_ROW]
    ensures CanRun(longer) && Reached(longer).db.returnRows == []
    ensures longer == run + [Taken(1, Fill), Taken(1, Step.Begin(DeleteOrder("A"))), Taken(1, Delete(12)),
              Taken(1, Step.Commit)]
  {
    hide Reached, CanRun, ApplyAll;
    ApplyOne(Reached(run).db, Removed("A", true, 12));
    assert [RETURNED_ROW][..0] == [];
    assert RowsExcept([RETURNED_ROW], ReturnKey, "A") == [];
    assert Apply(Reached(run).db, Removed("A", true, 12)).returnRows == [];
    hide Apply, RowsExcept, Tell, Unlocked;
    longer := Then(run, 1, Fill);
    longer := Then(longer, 1, Step.Begin(DeleteOrder("A")));
    longer := Then(longer, 1, Delete(12));
    longer := Then(longer, 1, Step.Commit);
  }

  /**
   The guard looks at an order before the delete runs. Here the order is issued and taken back
   between the two, so the delete erases its return row with it.
   */
  lemma {:induction false} GuardRaces() returns (seen: seq<Taken>, returned: seq<Taken>, deleted: seq<Taken>)
    ensures CanRun(deleted) && CanRun(returned) && CanRun(seen) && seen <= returned
    ensures deleted == returned + [Taken(1, Fill), Taken(1, Step.Begin(DeleteOrder("A"))), Taken(1, Delete(12)),
              Taken(1, Step.Commit)]
    ensures 1 in Reached(seen).threads && Reached(seen).threads[1] == Holding(FRESH)
    ensures FRESH.status == Received && FRESH.storageUntil <= 10
    ensures Reached(returned).db.returnRows == [RETURNED_ROW] && Reached(deleted).db.returnRows == []
  {
    hide Reached, CanRun, ApplyAll, RowsExcept;
    seen := GuardRead();
    returned := ChangeBeside(seen, 2, Op.Bulk(StorageSpec.Issuing, "U", ["A"], 10), FRESH, 10);
    returned := ChangeBeside(returned, 3, Op.Bulk(StorageSpec.Accepting, "U", ["A"], 11), ISSUED, 11);
    deleted := DeletedAfter(returned);
  }

  const EARLY: Op := Op.Bulk(StorageSpec.Issuing, "U", ["A"], 5)

  /** A bulk operation and a creation have begun, one at 5, the other at 7. */
  lemma {:induction false} BothBegun() returns (run: seq<Taken>)
    ensures CanRun(run) && OrdinaryRun(run)
    ensures Reached(run) ==
            START.(threads := map[0 := Working(EARLY, ["A"], None, [], [], []),
                                  1 := Working(AddOrder(FRESH, 7), ["A"], None, [], [], [])])
  {
    run := Then([], 0, Step.Begin(EARLY));
    run := Then(run, 1, Step.Begin(AddOrder(FRESH, 7)));
  }

  /** The order is created before the bulk operation reads it. */
  lemma {:induction false} CreatedMeanwhile() returns (run: seq<Taken>)
    ensures CanRun(run) && OrdinaryRun(run) && Reached(run).locks == map[]
    ensures Reached(run).db.orders == map["A" := FRESH] && Reached(run).db.history == [HistoryEntry("A", Received, 7)]
    ensures Reached(run).threads == map[0 := Working(EARLY, ["A"], None, [], [], []), 1 := Posting([Put(FRESH)])]
  {
    hide ApplyAll, Reached, CanRun;
    run := BothBegun();
    run := Then(run, 1, Insert(7));
    ApplyOne(EMPTY_DB, Created(FRESH, 7, 7));
    run := Then(run, 1, Step.Commit);
  }

  /**
   The stamps need not increase when requests overlap, because a bulk operation reads its clock
   once, before it reads its rows: an order that is created meanwhile is shown as issued first.
   */
  lemma {:induction false} IssuedBeforeReceived() returns (run: seq<Taken>)
    ensures CanRun(run) && OrdinaryRun(run)
    ensures Reached(run).db.history == [HistoryEntry("A", Received, 7), HistoryEntry("A", Issued, 5)]
  {
    hide Reached, CanRun;
    var before := CreatedMeanwhile();
    run := ChangeBegun(before, 0, EARLY, FRESH, 5);
  }
}
