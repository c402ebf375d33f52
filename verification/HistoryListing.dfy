/** The history that a client is shown: the entries of an order, sorted by their time stamps. */
module HistoryListings {
  import opened Model
  import opened Ledger
  import opened StorageSpec
  import opened SequentialRuns
  import opened SystemSpec
  import opened SystemTheorems
  import opened SystemAnswers

  predicate Sorted(rows: seq<HistoryEntry>) {
    forall i, j :: 0 <= i < j < |rows| ==> rows[i].changedAt <= rows[j].changedAt
  }

  /** What SELECT ... ORDER BY changed_at may return: entries with equal stamps come in any order. */
  ghost predicate IsListing(rows: seq<HistoryEntry>, listing: seq<HistoryEntry>) {
    multiset(listing) == multiset(rows) && Sorted(listing)
  }

  predicate Increasing(rows: seq<HistoryEntry>) {
    forall i :: 0 < i < |rows| ==> rows[i - 1].changedAt < rows[i].changedAt
  }

  lemma {:induction false} Insertion(listing: seq<HistoryEntry>, x: HistoryEntry) returns (longer: seq<HistoryEntry>)
    requires Sorted(listing)
    ensures Sorted(longer) && multiset(longer) == multiset(listing) + multiset{x}
  {
    if |listing| == 0 || listing[|listing| - 1].changedAt <= x.changedAt {
      longer := listing + [x];
    } else {
      var front, last := listing[..|listing| - 1], listing[|listing| - 1];
      assert listing == front + [last];
      var rest := Insertion(front, x);
      longer := rest + [last];
      forall i | 0 <= i < |rest| ensures rest[i].changedAt <= last.changedAt {
        assert rest[i] in multiset(rest);
      }
    }
  }

  lemma {:induction false} ListingExists(rows: seq<HistoryEntry>) returns (listing: seq<HistoryEntry>)
    ensures IsListing(rows, listing)
  {
    listing := [];
    if |rows| > 0 {
      listing := ListingExists(rows[..|rows| - 1]);
      listing := Insertion(listing, rows[|rows| - 1]);
      assert rows == rows[..|rows| - 1] + [rows[|rows| - 1]];
    }
  }

  lemma {:induction false} IncreasingApart(rows: seq<HistoryEntry>, i: nat, j: nat)
    requires Increasing(rows) && i < j < |rows|
    ensures rows[i].changedAt < rows[j].changedAt
    decreases j
  {
    if i < j - 1 {
      IncreasingApart(rows, i, j - 1);
    }
  }

  lemma {:induction false} LastListed(rows: seq<HistoryEntry>, listing: seq<HistoryEntry>)
    requires Increasing(rows) && IsListing(rows, listing) && |rows| > 0
    ensures |listing| == |rows| && listing[|rows| - 1] == rows[|rows| - 1]
  {
    var n := |rows| - 1;
    assert |multiset(listing)| == |multiset(rows)|;
    assert listing[n] in multiset(rows) && rows[n] in multiset(listing);
    var i :| 0 <= i < |rows| && rows[i] == listing[n];
    var j :| 0 <= j < |listing| && listing[j] == rows[n];
    if i < n {
      IncreasingApart(rows, i, n);
    }
  }

  lemma {:induction false} SameFronts(a: seq<HistoryEntry>, b: seq<HistoryEntry>, x: HistoryEntry)
    requires multiset(a + [x]) == multiset(b + [x])
    ensures multiset(a) == multiset(b)
  {
    assert multiset(a) == multiset(a + [x]) - multiset{x};
    assert multiset(b) == multiset(b + [x]) - multiset{x};
  }

  /** With increasing stamps there is nothing to choose. */
  lemma {:induction false} OnlyListing(rows: seq<HistoryEntry>, listing: seq<HistoryEntry>)
    requires Increasing(rows) && IsListing(rows, listing)
    ensures listing == rows
    decreases |rows|
  {
    if |rows| == 0 {
      assert |multiset(listing)| == 0;
    } else {
      var n := |rows| - 1;
      LastListed(rows, listing);
      assert rows == rows[..n] + [rows[n]] && listing == listing[..n] + [rows[n]];
      SameFronts(rows[..n], listing[..n], rows[n]);
      OnlyListing(rows[..n], listing[..n]);
    }
  }

  lemma Swapped(rows: seq<HistoryEntry>, i: nat)
    requires 0 < i < |rows| && Sorted(rows) && rows[i - 1].changedAt == rows[i].changedAt
    ensures IsListing(rows, rows[i - 1 := rows[i]][i := rows[i - 1]])
  {
  }

  lemma {:induction false} OtherListing(rows: seq<HistoryEntry>) returns (listing: seq<HistoryEntry>)
    requires !Increasing(rows) && forall i :: 0 < i < |rows| ==> rows[i - 1] != rows[i]
    ensures IsListing(rows, listing) && listing != rows
  {
    listing := ListingExists(rows);
    if listing == rows {
      var i :| 0 < i < |rows| && rows[i - 1].changedAt >= rows[i].changedAt;
      Swapped(rows, i);
      listing := rows[i - 1 := rows[i]][i := rows[i - 1]];
      assert listing[i] != rows[i];
    }
  }

  lemma {:induction false} NeighboursDiffer(db: Db, id: string)
    requires DbOk(db)
    ensures forall i :: 0 < i < |History(db, id)| ==> History(db, id)[i - 1] != History(db, id)[i]
  {
    var h := History(db, id);
    assert OrderOk(DossierOf(db, id), id);
    forall i | 0 < i < |h| ensures h[i - 1] != h[i] {
      assert Statuses(h)[i - 1] != Statuses(h)[i];
    }
  }

  /**
   A client is sure to see the entries of an order in the order in which the changes were
   committed exactly if the stamps increase from each entry to the next.
   */
  lemma {:induction false} ShownInOrder(db: Db, id: string)
    requires DbOk(db)
    ensures var h := History(db, id);
            (forall listing :: IsListing(h, listing) ==> listing == h) <==> Increasing(h)
  {
    hide DbOk, History, IsListing, Increasing;
    var h := History(db, id);
    NeighboursDiffer(db, id);
    if Increasing(h) {
      forall listing | IsListing(h, listing) ensures listing == h {
        OnlyListing(h, listing);
      }
    } else {
      var listing := OtherListing(h);
    }
  }

  // Runs whose clock advances.

  ghost predicate AllIncreasing(db: Db) {
    forall id :: Increasing(History(db, id))
  }

  predicate Earlier(rows: seq<HistoryEntry>, t: Time) {
    forall i :: 0 <= i < |rows| ==> rows[i].changedAt < t
  }

  /** Every entry is older than `t`. */
  ghost predicate AllEarlier(db: Db, t: Time) {
    forall id :: Earlier(History(db, id), t)
  }

  lemma {:induction false} Appended(rows: seq<HistoryEntry>, x: HistoryEntry, t: Time)
    requires Increasing(rows) && Earlier(rows, x.changedAt) && x.changedAt < t
    ensures Increasing(rows + [x]) && Earlier(rows + [x], t)
  {
  }

  lemma {:induction false} LastOnce(db: Db, es: seq<Event>, db': Db, kind: Kind, at: Time)
    requires |es| > 0 && ChangedOnce(db, es, db', kind, at)
    ensures IdOf(es[|es| - 1]) !in IdsOf(es[..|es| - 1])
  {
    hide Guard;
  }

  lemma {:induction false} NotAgain(db: Db, es: seq<Event>, kind: Kind, at: Time)
    requires |es| > 0 && Uniform(es, kind, at) && AllEnabled(db, es)
    ensures IdOf(es[|es| - 1]) !in IdsOf(es[..|es| - 1])
  {
    hide ApplyAll, AllEnabled, ChangedOnce, Uniform;
    UniformRows(db, es, kind, at);
    LastOnce(db, es, ApplyAll(db, es), kind, at);
  }

  lemma {:induction false} IdsSnoc(es: seq<Event>)
    requires |es| > 0
    ensures IdsOf(es) == IdsOf(es[..|es| - 1]) + [IdOf(es[|es| - 1])]
  {
  }

  lemma {:induction false} OneHistory(db: Db, e: Event, id: string)
    ensures History(Apply(db, e), id) ==
            if IdOf(e) != id then History(db, id)
            else if e.Removed? then (if e.existed then [] else History(db, id))
            else History(db, id) + HistoryRow(e)
  {
    hide Apply;
    ApplyHistory(db, e, id);
  }

  /** Changes of one kind add one entry to the history of each of their orders. */
  lemma {:induction false} UniformHistory(db: Db, es: seq<Event>, kind: Kind, at: Time, id: string)
    requires Uniform(es, kind, at) && AllEnabled(db, es)
    ensures History(ApplyAll(db, es), id) ==
            History(db, id) + if id in IdsOf(es) then [HistoryEntry(id, Target(kind), at)] else []
  {
    if |es| > 0 {
      var front, e := es[..|es| - 1], es[|es| - 1];
      assert Uniform(front, kind, at) && HistoryRow(e) == [HistoryEntry(IdOf(e), Target(kind), at)];
      hide Apply, History, Uniform, IdsOf, HistoryRow, Target, IdOf, Enabled;
      assert AllEnabled(db, front) && ApplyAll(db, es) == Apply(ApplyAll(db, front), e);
      hide ApplyAll, AllEnabled;
      IdsSnoc(es);
      NotAgain(db, es, kind, at);
      UniformHistory(db, front, kind, at, id);
      OneHistory(ApplyAll(db, front), e, id);
    }
  }

  lemma {:induction false} Followed(h: seq<HistoryEntry>, h': seq<HistoryEntry>, x: HistoryEntry, t: Time)
    requires Increasing(h) && Earlier(h, x.changedAt) && x.changedAt < t && (h' == h || h' == [] || h' == h + [x])
    ensures Increasing(h') && Earlier(h', t)
  {
    Appended(h, x, t);
  }

  lemma {:induction false} ManyHistory(db: Db, q: Request, es: seq<Event>, t: Time, id: string)
    requires q.Many? && AllEnabled(db, es) && EventsOf(q, es)
    requires Increasing(History(db, id)) && Earlier(History(db, id), q.now) && q.now < t
    ensures Increasing(History(ApplyAll(db, es), id)) && Earlier(History(ApplyAll(db, es), id), t)
  {
    hide ApplyAll, AllEnabled, History, Increasing, Earlier;
    var kind := KindFor(q.mode, q.user, q.now);
    UniformHistory(db, es, kind, q.now, id);
    Followed(History(db, id), History(ApplyAll(db, es), id), HistoryEntry(id, Target(kind), q.now), t);
  }

  lemma {:induction false} EventHistory(db: Db, e: Event, t: Time, id: string)
    requires Increasing(History(db, id))
    requires if e.Removed? then Earlier(History(db, id), t) else Earlier(History(db, id), e.at) && e.at < t
    ensures Increasing(History(Apply(db, e), id)) && Earlier(History(Apply(db, e), id), t)
  {
    hide Apply, History;
    OneHistory(db, e, id);
    if !e.Removed? {
      Followed(History(db, id), History(Apply(db, e), id), HistoryEntry(id, HistoryRow(e)[0].status, e.at), t);
    }
  }

  /** What one request adds to a history that is older than its stamp. */
  lemma {:induction false} RequestHistory(db: Db, q: Request, es: seq<Event>, t: Time, id: string)
    requires AllEnabled(db, es) && EventsOf(q, es) && Increasing(History(db, id))
    requires match HistoryStamp(q)
             case Some(at) => Earlier(History(db, id), at) && at < t
             case None => Earlier(History(db, id), t)
    ensures Increasing(History(ApplyAll(db, es), id)) && Earlier(History(ApplyAll(db, es), id), t)
  {
    hide History, Increasing, Apply;
    if q.Many? {
      ManyHistory(db, q, es, t, id);
    } else if |es| == 1 {
      assert es == [es[0]];
      ApplyOne(db, es[0]);
      EventHistory(db, es[0], t, id);
    }
  }

  /** The stamps that the requests write into the history advance from one to the next. */
  predicate Advancing(run: seq<Served>) {
    forall i, j :: 0 <= i < j < |run| && HistoryStamp(run[i].q).Some? && HistoryStamp(run[j].q).Some? ==>
      HistoryStamp(run[i].q).value < HistoryStamp(run[j].q).value
  }

  predicate EndsBefore(run: seq<Served>, t: Time) {
    forall i :: 0 <= i < |run| && HistoryStamp(run[i].q).Some? ==> HistoryStamp(run[i].q).value < t
  }

  /** Some time is later than all stamps. */
  lemma {:induction false} Horizon(run: seq<Served>) returns (t: Time)
    ensures EndsBefore(run, t)
  {
    t := 0;
    if |run| > 0 {
      t := Horizon(run[..|run| - 1]);
      var stamp := HistoryStamp(run[|run| - 1].q);
      if stamp.Some? && stamp.value >= t {
        t := stamp.value + 1;
      }
    }
  }

  lemma {:induction false} LastRequest(run: seq<Served>, db: Db, es: seq<Event>, t: Time)
    requires |run| > 0 && Advancing(run) && EndsBefore(run, t)
    requires AllIncreasing(db) && forall u :: EndsBefore(run[..|run| - 1], u) ==> AllEarlier(db, u)
    requires AllEnabled(db, es) && EventsOf(run[|run| - 1].q, es)
    ensures AllIncreasing(ApplyAll(db, es)) && AllEarlier(ApplyAll(db, es), t)
  {
    var q := run[|run| - 1].q;
    var u := if HistoryStamp(q).Some? then HistoryStamp(q).value else t;
    assert EndsBefore(run[..|run| - 1], u);
    forall id ensures Increasing(History(ApplyAll(db, es), id)) && Earlier(History(ApplyAll(db, es), id), t) {
      assert AllEarlier(db, u) && Increasing(History(db, id)) && Earlier(History(db, id), u);
      RequestHistory(db, q, es, t, id);
    }
  }

  /**
   When requests are served one after the other and the clock advances between them, all histories
   increase, whatever fails: clients see them in commit order.
   */
  lemma {:induction false} AdvancingRunsIncrease(run: seq<Served>)
    requires Advancing(run)
    ensures AllIncreasing(PerformAll(State(EMPTY_DB, map[]), run).db)
    ensures forall t :: EndsBefore(run, t) ==> AllEarlier(PerformAll(State(EMPTY_DB, map[]), run).db, t)
  {
    var s0 := State(EMPTY_DB, map[]);
    if |run| > 0 {
      var front, last := run[..|run| - 1], run[|run| - 1];
      var mid := PerformAll(s0, front);
      AdvancingRunsIncrease(front);
      EmptyDbOk(NO_SLACK);
      RunKeepsStore(s0, front);
      DbOkKeyed(mid.db);
      var es := PerformExplained(mid, last.q, last.f, NO_SLACK);
      forall t | EndsBefore(run, t) ensures AllIncreasing(ApplyAll(mid.db, es)) && AllEarlier(ApplyAll(mid.db, es), t) {
        LastRequest(run, mid.db, es, t);
      }
      var t := Horizon(run);
    }
  }

  // Overlapping requests.

  /** Every staged change is stamped later than all entries of its order. */
  ghost predicate StampedLater(db: Db, es: seq<Event>) {
    forall i :: 0 <= i < |es| && !es[i].Removed? ==> Earlier(History(db, IdOf(es[i])), es[i].at)
  }

  lemma {:induction false} AppendedExact(rows: seq<HistoryEntry>, x: HistoryEntry)
    requires Increasing(rows)
    ensures Increasing(rows + [x]) <==> Earlier(rows, x.changedAt)
  {
    var n := |rows|;
    if Increasing(rows + [x]) {
      forall i | 0 <= i < n ensures rows[i].changedAt < x.changedAt {
        IncreasingApart(rows + [x], i, n);
      }
    } else {
      var i :| 0 < i <= n && (rows + [x])[i - 1].changedAt >= (rows + [x])[i].changedAt;
      assert i == n;
    }
  }

  lemma {:induction false} UniformExact(db: Db, es: seq<Event>, kind: Kind, at: Time)
    requires Uniform(es, kind, at) && AllEnabled(db, es) && AllIncreasing(db)
    ensures AllIncreasing(ApplyAll(db, es)) <==> StampedLater(db, es)
  {
    var db' := ApplyAll(db, es);
    forall id
      ensures Increasing(History(db', id)) <==> (id in IdsOf(es) ==> Earlier(History(db, id), at))
    {
      hide ApplyAll, AllEnabled, History, Uniform;
      UniformHistory(db, es, kind, at, id);
      assert Increasing(History(db, id));
      if id in IdsOf(es) {
        AppendedExact(History(db, id), HistoryEntry(id, Target(kind), at));
      } else {
        assert History(db, id) + [] == History(db, id);
      }
    }
    hide ApplyAll, AllEnabled, History, Increasing, Earlier;
    forall i | 0 <= i < |es| ensures IdsOf(es)[i] == IdOf(es[i]) && es[i].Changed? && es[i].at == at {
    }
  }

  lemma {:induction false} EventExact(db: Db, e: Event)
    requires AllIncreasing(db)
    ensures AllIncreasing(ApplyAll(db, [e])) <==> StampedLater(db, [e])
  {
    ApplyOne(db, e);
    hide ApplyAll, Apply, History;
    var own := IdOf(e);
    assert [e][0] == e;
    assert Increasing(History(db, own));
    OneHistory(db, e, own);
    forall id | id != own ensures Increasing(History(Apply(db, e), id)) {
      OneHistory(db, e, id);
    }
    if !e.Removed? {
      AppendedExact(History(db, own), HistoryRow(e)[0]);
    }
  }

  /**
   The overlap that breaks the order, exactly: with all histories increasing, a commit keeps them so
   if and only if each change it makes is stamped later than every entry of its order by then.
   */
  lemma {:induction false} StampsExact(run: seq<Taken>, t: nat)
    requires CanRun(run) && CanDo(Reached(run), t, Step.Commit) && AllIncreasing(Reached(run).db)
    ensures AllIncreasing(Do(Reached(run), t, Step.Commit).db) <==>
            StampedLater(Reached(run).db, Reached(run).threads[t].trail)
  {
    RunKeeps(run);
    RunKeepsWork(run);
    var s, w := Reached(run), Reached(run).threads[t];
    assert WorkOk(w) && ThreadOk(s.db, s.log, HeldBy(s.locks, t), w);
    hide Reached, CanRun, SystemOk, WorksOk, ThreadOk, AllIncreasing, StampedLater, ApplyAll, AllEnabled;
    if Reads(w.op) {
      UniformExact(s.db, w.trail, KindOf(w.op), StampOf(w.op));
    } else {
      assert w.trail == [w.trail[0]];
      EventExact(s.db, w.trail[0]);
    }
  }
}
