/** What IssueOrders and AcceptReturns promise for every list of ids, duplicates included, and every fault schedule. */
module BulkTheorems {
  import opened Model
  import opened Ledger
  import opened OrderCaching
  import opened StorageSpec

  /** The operation was allowed on this order when it started. */
  predicate Eligible(orders: Rows, kind: Kind, now: Time, id: string) {
    id in orders && Guard(orders[id], kind, now)
  }

  /** The rows that the operation changes, whatever the order and the multiplicity of the ids. */
  function Transitions(orders: Rows, kind: Kind, now: Time, ids: seq<string>): Rows {
    map id | id in ids && Eligible(orders, kind, now, id) :: After(orders[id], kind, now)
  }

  /** An item succeeds when its order was eligible at the start and this is the first mention of it. */
  predicate Wins(orders: Rows, kind: Kind, now: Time, ids: seq<string>, i: nat)
    requires i < |ids|
  {
    Eligible(orders, kind, now, ids[i]) && ids[i] !in ids[..i]
  }

  /** After the ids of a prefix were served, only an eligible order that was not mentioned yet is still eligible. */
  lemma EligibleOnce(orders: Rows, kind: Kind, now: Time, ids: seq<string>, id: string)
    requires kind.Issue? || kind.TakeBack?
    ensures var left := orders + Transitions(orders, kind, now, ids);
            && (Eligible(left, kind, now, id) <==> Eligible(orders, kind, now, id) && id !in ids)
            && (Eligible(left, kind, now, id) ==> left[id] == orders[id])
    ensures Transitions(orders, kind, now, ids + [id]) ==
            if Eligible(orders, kind, now, id) && id !in ids
            then Transitions(orders, kind, now, ids)[id := After(orders[id], kind, now)]
            else Transitions(orders, kind, now, ids)
  {
  }

  /** The loop after a fault-free prefix, in terms of the rows it started from. */
  ghost predicate Means(l: Loop, db: Db, kind: Kind, now: Time, ids: seq<string>) {
    && |l.results| == |ids|
    && l.touched == Transitions(db.orders, kind, now, ids)
    && l.rows.orders == db.orders + l.touched
    && forall i :: 0 <= i < |ids| ==>
         l.results[i].orderId == ids[i] && (l.results[i].success <==> Wins(db.orders, kind, now, ids, i))
  }

  /** One item without a fault: an eligible order is changed, any other is left alone. */
  lemma {:induction false} ItemOutcome(
      l: Loop, mode: Mode, user: string, id: string, i: nat, now: Time, clock: nat -> Time, f: Faults)
    returns (r: ItemResult)
    requires l.err == None && Item(l, mode, user, id, i, now, clock, f).err == None && Keyed(l.rows.orders)
    ensures var l', kind := Item(l, mode, user, id, i, now, clock, f), KindFor(mode, user, now);
            && l'.results == l.results + [r] && r.orderId == id
            && r.success == Eligible(l.rows.orders, kind, now, id)
            && (if r.success then
                  var after := After(l.rows.orders[id], kind, now);
                  && l'.touched == l.touched[id := after] && l'.rows.orders == l.rows.orders[id := after]
                  && l'.events == l.events + [Changed(l.rows.orders[id], kind, now, clock(|l.events|))]
                  && l'.rows == ApplyRows(l.rows, l'.events[|l.events|])
                else
                  l'.touched == l.touched && l'.rows == l.rows && l'.events == l.events)
  {
    r := Item(l, mode, user, id, i, now, clock, f).results[|l.results|];
  }

  lemma {:induction false} WinsSnoc(
      orders: Rows, kind: Kind, now: Time, ids: seq<string>, id: string, results: seq<ItemResult>,
      r: ItemResult)
    requires |results| == |ids| && r.orderId == id
    requires r.success <==> Eligible(orders, kind, now, id) && id !in ids
    requires forall i :: 0 <= i < |ids| ==>
               results[i].orderId == ids[i] && (results[i].success <==> Wins(orders, kind, now, ids, i))
    ensures forall i :: 0 <= i < |ids + [id]| ==>
              (results + [r])[i].orderId == (ids + [id])[i]
                  && ((results + [r])[i].success <==> Wins(orders, kind, now, ids + [id], i))
  {
    forall i | 0 <= i <= |ids| ensures (results + [r])[i].success <==> Wins(orders, kind, now, ids + [id], i) {
      assert (ids + [id])[..i] == ids[..i];
      assert ids[..|ids|] == ids;
    }
  }

  lemma {:induction false} ItemMeans(
      l: Loop, db: Db, mode: Mode, user: string, ids: seq<string>, id: string, now: Time, clock: nat -> Time,
      f: Faults)
    requires l.err == None && Means(l, db, KindFor(mode, user, now), now, ids)
    requires Item(l, mode, user, id, |ids|, now, clock, f).err == None
    requires Keyed(l.rows.orders)
    ensures Means(Item(l, mode, user, id, |ids|, now, clock, f), db, KindFor(mode, user, now), now, ids + [id])
  {
    hide Item, Transitions, Wins;
    var kind, l' := KindFor(mode, user, now), Item(l, mode, user, id, |ids|, now, clock, f);
    var r := ItemOutcome(l, mode, user, id, |ids|, now, clock, f);
    EligibleOnce(db.orders, kind, now, ids, id);
    assert l'.rows.orders == db.orders + l'.touched;
    WinsSnoc(db.orders, kind, now, ids, id, l.results, r);
  }

  /** While no statement has failed, the loop did to every row what the first mention of it asks for. */
  lemma {:induction false} LoopMeans(
      db: Db, mode: Mode, user: string, ids: seq<string>, now: Time, clock: nat -> Time, f: Faults, n: nat)
    requires Keyed(db.orders) && n <= |ids| && Looped(db, mode, user, ids, now, clock, f, n).err == None
    ensures Means(Looped(db, mode, user, ids, now, clock, f, n), db, KindFor(mode, user, now), now, ids[..n])
  {
    hide Item;
    if n > 0 {
      LoopMeans(db, mode, user, ids, now, clock, f, n - 1);
      TouchedRows(db, mode, user, ids, now, clock, f, n - 1);
      ItemMeans(Looped(db, mode, user, ids, now, clock, f, n - 1), db, mode, user, ids[..n - 1], ids[n - 1], now,
          clock, f);
      assert ids[..n] == ids[..n - 1] + [ids[n - 1]];
    }
  }

  lemma {:induction false} FirstMention(orders: Rows, kind: Kind, now: Time, ids: seq<string>, id: string)
    requires id in ids && Eligible(orders, kind, now, id)
    ensures exists i :: 0 <= i < |ids| && ids[i] == id && Wins(orders, kind, now, ids, i)
  {
    var front := ids[..|ids| - 1];
    if id in front {
      FirstMention(orders, kind, now, front, id);
      var i :| 0 <= i < |front| && front[i] == id && Wins(orders, kind, now, front, i);
      assert ids[..i] == front[..i];
      assert Wins(orders, kind, now, ids, i);
    } else {
      assert Wins(orders, kind, now, ids, |ids| - 1);
    }
  }

  /**
   All or nothing, for every fault schedule. With an error nothing has changed. Without one the
   results follow the ids one to one, and an order's row has changed exactly when one of its
   items reports success, also when the commit failed behind the caller's back.
   */
  lemma {:induction false} BulkAccurate(
      s: State, mode: Mode, user: string, ids: seq<string>, now: Time, clock: nat -> Time, f: Faults)
    requires Keyed(s.db.orders)
    ensures var r := BulkRun(s, mode, user, ids, now, clock, f);
            && (r.err.Some? ==> r.state == s)
            && (r.err == None ==>
                  && |r.results| == |ids|
                  && (forall i :: 0 <= i < |ids| ==> r.results[i].orderId == ids[i])
                  && (forall id :: RowOf(r.state.db, id) != RowOf(s.db, id) <==>
                                   exists i :: 0 <= i < |ids| && ids[i] == id && r.results[i].success))
  {
    hide Looped, TaskFault, Merge;
    var r, kind := BulkRun(s, mode, user, ids, now, clock, f), KindFor(mode, user, now);
    if r.err == None && |ids| > 0 {
      assert ids[..|ids|] == ids;
      LoopMeans(s.db, mode, user, ids, now, clock, f, |ids|);
      if !f(Commit) {
        forall id ensures RowOf(r.state.db, id) != RowOf(s.db, id) <==>
                          exists i :: 0 <= i < |ids| && ids[i] == id && r.results[i].success
        {
          if id in Transitions(s.db.orders, kind, now, ids) {
            FirstMention(s.db.orders, kind, now, ids, id);
          }
        }
      }
    }
  }

  /** Without an error, a repeated id succeeds at most once. */
  lemma {:induction false} AtMostOneSuccess(
      s: State, mode: Mode, user: string, ids: seq<string>, now: Time, clock: nat -> Time, f: Faults, i: nat,
      j: nat)
    requires Keyed(s.db.orders) && i < j < |ids| && ids[i] == ids[j]
    ensures var r := BulkRun(s, mode, user, ids, now, clock, f);
            r.err == None ==> |r.results| == |ids| && !(r.results[i].success && r.results[j].success)
  {
    if BulkRun(s, mode, user, ids, now, clock, f).err == None {
      LoopMeans(s.db, mode, user, ids, now, clock, f, |ids|);
      assert ids[..|ids|] == ids;
      assert ids[..j][i] == ids[j];
    }
  }

  lemma {:induction false} NoFaultNoError(
      db: Db, mode: Mode, user: string, ids: seq<string>, now: Time, clock: nat -> Time, n: nat)
    requires n <= |ids|
    ensures Looped(db, mode, user, ids, now, clock, NO_FAULTS, n).err == None
  {
    if n > 0 {
      NoFaultNoError(db, mode, user, ids, now, clock, n - 1);
    }
  }

  lemma {:induction false} NoTaskFault(k: nat, n: nat)
    requires k <= n
    ensures TaskFault(NO_FAULTS, k, n) == None
    decreases n - k
  {
    if k < n {
      NoTaskFault(k + 1, n);
    }
  }

  lemma {:induction false} FinalRows(
      s: State, mode: Mode, user: string, ids: seq<string>, now: Time, clock: nat -> Time)
    requires Keyed(s.db.orders)
    ensures var r := BulkRun(s, mode, user, ids, now, clock, NO_FAULTS);
            r.err == None && r.state.db.orders ==
                s.db.orders + Transitions(s.db.orders, KindFor(mode, user, now), now, ids)
  {
    NoFaultNoError(s.db, mode, user, ids, now, clock, |ids|);
    LoopMeans(s.db, mode, user, ids, now, clock, NO_FAULTS, |ids|);
    NoTaskFault(0, |Looped(s.db, mode, user, ids, now, clock, NO_FAULTS, |ids|).events|);
    assert ids[..|ids|] == ids;
  }

  /** The rows that a committed operation leaves behind do not depend on the order or the multiplicity of the ids. */
  lemma {:induction false} OrderIrrelevant(
      s: State, mode: Mode, user: string, ids: seq<string>, ids': seq<string>, now: Time, clock: nat -> Time,
      clock': nat -> Time)
    requires Keyed(s.db.orders) && forall id :: id in ids <==> id in ids'
    ensures BulkRun(s, mode, user, ids, now, clock, NO_FAULTS).state.db.orders ==
            BulkRun(s, mode, user, ids', now, clock', NO_FAULTS).state.db.orders
  {
    FinalRows(s, mode, user, ids, now, clock);
    FinalRows(s, mode, user, ids', now, clock');
  }

  /** The loop makes enabled events of one kind only, and its rows are theirs. */
  ghost predicate Derived(l: Loop, db: Db, kind: Kind, now: Time) {
    && AllEnabled(db, l.events) && Uniform(l.events, kind, now) && AllCalm(l.events, NO_SLACK)
    && l.rows == ApplyRowsAll(db, l.events)
  }

  lemma {:induction false} DerivedSnoc(db: Db, es: seq<Event>, e: Event)
    requires AllEnabled(db, es) && AllCalm(es, NO_SLACK) && Enabled(ApplyRowsAll(db, es), e) && Calm(e, 0)
    ensures AllEnabled(db, es + [e]) && AllCalm(es + [e], NO_SLACK)
    ensures ApplyRowsAll(db, es + [e]) == ApplyRows(ApplyRowsAll(db, es), e)
  {
    TasksAtTheEnd(db, es);
    ApplySnoc(db, es, e);
    assert (es + [e])[..|es|] == es;
  }

  lemma {:induction false} ItemDerived(
      l: Loop, db: Db, mode: Mode, user: string, id: string, i: nat, now: Time, clock: nat -> Time, f: Faults)
    requires l.err == None && Derived(l, db, KindFor(mode, user, now), now) && Keyed(l.rows.orders)
    ensures Derived(Item(l, mode, user, id, i, now, clock, f), db, KindFor(mode, user, now), now)
  {
    var v, kind := Judge(l.rows.orders, mode, user, id, i, now, f), KindFor(mode, user, now);
    hide Judge, ApplyAll, ApplyRowsAll, ApplyRows, AllEnabled, AllCalm;
    if v.change.Some? {
      var e := Changed(v.change.value, kind, now, clock(|l.events|));
      assert Enabled(l.rows, e) && Calm(e, 0);
      hide Guard, Enabled, Calm;
      DerivedSnoc(db, l.events, e);
    }
  }

  lemma {:induction false} LoopDerived(
      db: Db, mode: Mode, user: string, ids: seq<string>, now: Time, clock: nat -> Time, f: Faults, n: nat)
    requires Keyed(db.orders) && n <= |ids|
    ensures Derived(Looped(db, mode, user, ids, now, clock, f, n), db, KindFor(mode, user, now), now)
  {
    hide Item;
    if n > 0 {
      LoopDerived(db, mode, user, ids, now, clock, f, n - 1);
      TouchedRows(db, mode, user, ids, now, clock, f, n - 1);
      var l := Looped(db, mode, user, ids, now, clock, f, n - 1);
      if l.err == None {
        ItemDerived(l, db, mode, user, ids[n - 1], n - 1, now, clock, f);
      }
    }
  }

  // Fault-free calls compose.

  function Later(clock: nat -> Time, n: nat): nat -> Time {
    (k: nat) => clock(n + k)
  }

  /** `both` is the loop `l` continued by the loop `l1`, which starts from the tables that `l` commits. */
  ghost predicate Joined(l: Loop, l1: Loop, both: Loop) {
    && l1.err == None && both.err == None
    && both.rows == l1.rows.(outbox := both.rows.outbox)
    && both.events == l.events + l1.events
    && both.touched == l.touched + l1.touched
    && both.results == l.results + l1.results
  }

  lemma {:induction false} JoinedExtend(l: Loop, l1: Loop, both: Loop, v: Verdict, kind: Kind, now: Time, at: Time)
    requires Joined(l, l1, both) && v.err == None
    ensures Joined(l, Extend(l1, v, kind, now, at), Extend(both, v, kind, now, at))
  {
    if v.change.Some? {
      var e := Changed(v.change.value, kind, now, at);
      assert l.events + (l1.events + [e]) == both.events + [e];
    }
  }

  lemma JudgeAnywhere(orders: Rows, mode: Mode, user: string, id: string, i: nat, j: nat, now: Time)
    ensures Judge(orders, mode, user, id, i, now, NO_FAULTS) == Judge(orders, mode, user, id, j, now, NO_FAULTS)
    ensures Judge(orders, mode, user, id, i, now, NO_FAULTS).err == None
  {
  }

  lemma {:induction false} JoinedLoops(
      db: Db, start: Db, l: Loop, mode: Mode, user: string, all: seq<string>, n: nat, now: Time, clock: nat -> Time,
      later: nat -> Time, m: nat)
    requires n + m <= |all| && l == Looped(db, mode, user, all, now, clock, NO_FAULTS, n) && l.err == None
    requires l.rows == start.(outbox := l.rows.outbox) && forall k: nat :: later(k) == clock(|l.events| + k)
    ensures Joined(l, Looped(start, mode, user, all[n..], now, later, NO_FAULTS, m),
              Looped(db, mode, user, all, now, clock, NO_FAULTS, n + m))
  {
    hide Judge, Extend;
    if m > 0 {
      JoinedLoops(db, start, l, mode, user, all, n, now, clock, later, m - 1);
      var l1 := Looped(start, mode, user, all[n..], now, later, NO_FAULTS, m - 1);
      var both := Looped(db, mode, user, all, now, clock, NO_FAULTS, n + m - 1);
      var v := Judge(both.rows.orders, mode, user, all[n + m - 1], m - 1, now, NO_FAULTS);
      JudgeAnywhere(both.rows.orders, mode, user, all[n + m - 1], n + m - 1, m - 1, now);
      JoinedExtend(l, l1, both, v, KindFor(mode, user, now), now, clock(|both.events|));
    }
  }

  /** The loop does not look ahead. */
  lemma {:induction false} SamePrefix(
      db: Db, mode: Mode, user: string, ids: seq<string>, longer: seq<string>, now: Time, clock: nat -> Time,
      n: nat)
    requires n <= |ids| && ids <= longer
    ensures Looped(db, mode, user, ids, now, clock, NO_FAULTS, n) ==
              Looped(db, mode, user, longer, now, clock, NO_FAULTS, n)
  {
    if n > 0 {
      SamePrefix(db, mode, user, ids, longer, now, clock, n - 1);
    }
  }

  lemma CachedTwice(cache: Rows, mode: Mode, touched: Rows, more: Rows)
    requires mode == Issuing ==> forall id :: id in more ==> IsActive(more[id].status)
    requires mode == Issuing ==> forall id :: id in touched ==> IsActive(touched[id].status)
    ensures Cached(Cached(cache, mode, touched), mode, more) == Cached(cache, mode, touched + more)
  {
  }

  function Successes(results: seq<ItemResult>): nat {
    if |results| == 0 then 0
    else Successes(results[..|results| - 1]) + if results[|results| - 1].success then 1 else 0
  }

  /** A fault-free loop logs one event for every success, and touches rows with the target status only. */
  ghost predicate Counts(l: Loop, kind: Kind) {
    && l.err == None && Successes(l.results) == |l.events|
    && forall id :: id in l.touched ==> l.touched[id].status == Target(kind)
  }

  lemma {:induction false} ExtendCounts(l: Loop, v: Verdict, kind: Kind, now: Time, at: Time)
    requires Counts(l, kind) && v.err == None && (v.result.success <==> v.change.Some?)
    ensures Counts(Extend(l, v, kind, now, at), kind)
  {
    assert (l.results + [v.result])[..|l.results|] == l.results;
  }

  lemma {:induction false} LoopCounts(
      db: Db, mode: Mode, user: string, ids: seq<string>, now: Time, clock: nat -> Time, n: nat)
    requires n <= |ids|
    ensures Counts(Looped(db, mode, user, ids, now, clock, NO_FAULTS, n), KindFor(mode, user, now))
  {
    if n > 0 {
      LoopCounts(db, mode, user, ids, now, clock, n - 1);
      var l := Looped(db, mode, user, ids, now, clock, NO_FAULTS, n - 1);
      JudgeAnywhere(l.rows.orders, mode, user, ids[n - 1], n - 1, n - 1, now);
      ExtendCounts(l, Judge(l.rows.orders, mode, user, ids[n - 1], n - 1, now, NO_FAULTS), KindFor(mode, user, now),
          now, clock(|l.events|));
    }
  }

  lemma {:induction false} CleanRun(s: State, mode: Mode, user: string, ids: seq<string>, now: Time, clock: nat -> Time)
    ensures var l := Looped(s.db, mode, user, ids, now, clock, NO_FAULTS, |ids|);
            BulkRun(s, mode, user, ids, now, clock, NO_FAULTS) == BulkOutcome(Landing(s, mode, l), l.results, None)
  {
    LoopCounts(s.db, mode, user, ids, now, clock, |ids|);
    NoTaskFault(0, |Looped(s.db, mode, user, ids, now, clock, NO_FAULTS, |ids|).events|);
    if |ids| == 0 {
      assert Tasks([]) == [] && s.db.outbox + [] == s.db.outbox;
      assert Cached(s.cache, mode, map[]) == s.cache;
    }
  }

  lemma {:induction false} JoinedLandings(s: State, mode: Mode, l: Loop, l1: Loop, both: Loop)
    requires Joined(l, l1, both)
    requires mode == Issuing ==> forall id :: id in l.touched ==> IsActive(l.touched[id].status)
    requires mode == Issuing ==> forall id :: id in l1.touched ==> IsActive(l1.touched[id].status)
    ensures Landing(Landing(s, mode, l), mode, l1) == Landing(s, mode, both)
  {
    assert s.db.outbox + Tasks(both.events) == s.db.outbox + Tasks(l.events) + Tasks(l1.events);
    CachedTwice(s.cache, mode, l.touched, l1.touched);
  }

  /**
   Without faults, one transaction over a list of ids leaves the same tables, audit tasks, cache
   and results as a transaction over a first part followed by one over the rest, wherever the
   list is cut and whatever it repeats; the audit clock goes on where the first call left it.
   */
  lemma {:induction false} BulkComposes(
      s: State, mode: Mode, user: string, ids: seq<string>, more: seq<string>, now: Time, clock: nat -> Time)
    ensures var first := BulkRun(s, mode, user, ids, now, clock, NO_FAULTS);
            var second := BulkRun(first.state, mode, user, more, now, Later(clock, Successes(first.results)),
                NO_FAULTS);
            BulkRun(s, mode, user, ids + more, now, clock, NO_FAULTS) ==
            BulkOutcome(second.state, first.results + second.results, None)
  {
    hide Looped, Item, BulkRun;
    var l := Looped(s.db, mode, user, ids, now, clock, NO_FAULTS, |ids|);
    var mid := Landing(s, mode, l);
    CleanRun(s, mode, user, ids, now, clock);
    CleanRun(mid, mode, user, more, now, Later(clock, |l.events|));
    CleanRun(s, mode, user, ids + more, now, clock);
    LoopCounts(s.db, mode, user, ids, now, clock, |ids|);
    LoopCounts(mid.db, mode, user, more, now, Later(clock, |l.events|), |more|);
    SamePrefix(s.db, mode, user, ids, ids + more, now, clock, |ids|);
    assert (ids + more)[|ids|..] == more;
    JoinedLoops(s.db, mid.db, l, mode, user, ids + more, |ids|, now, clock, Later(clock, |l.events|), |more|);
    JoinedLandings(s, mode, l, Looped(mid.db, mode, user, more, now, Later(clock, |l.events|), NO_FAULTS, |more|),
                   Looped(s.db, mode, user, ids + more, now, clock, NO_FAULTS, |ids + more|));
  }

  /** One call per id. */
  function OneByOne(s: State, mode: Mode, user: string, ids: seq<string>, now: Time, clock: nat -> Time): BulkOutcome {
    if |ids| == 0 then BulkOutcome(s, [], None)
    else
      var first := OneByOne(s, mode, user, ids[..|ids| - 1], now, clock);
      var last := BulkRun(first.state, mode, user, ids[|ids| - 1..], now, Later(clock, Successes(first.results)),
          NO_FAULTS);
      BulkOutcome(last.state, first.results + last.results, last.err)
  }

  /** Without faults, a bulk call is the same as one call per id. */
  lemma {:induction false} BulkRefinesSingle(
      s: State, mode: Mode, user: string, ids: seq<string>, now: Time, clock: nat -> Time)
    ensures BulkRun(s, mode, user, ids, now, clock, NO_FAULTS) == OneByOne(s, mode, user, ids, now, clock)
  {
    if |ids| > 0 {
      BulkRefinesSingle(s, mode, user, ids[..|ids| - 1], now, clock);
      BulkComposes(s, mode, user, ids[..|ids| - 1], ids[|ids| - 1..], now, clock);
      assert ids[..|ids| - 1] + ids[|ids| - 1..] == ids;
      var first := OneByOne(s, mode, user, ids[..|ids| - 1], now, clock);
      CleanRun(first.state, mode, user, ids[|ids| - 1..], now, Later(clock, Successes(first.results)));
    }
  }

  /**
   On one order, with the clock standing still and no fault, AddReturn and AcceptReturns do the
   same up to the audit action.
   */
  lemma {:induction false} ReturnsAgree(s: State, id: string, user: string, now: Time, clock: nat -> Time)
    requires Keyed(s.db.orders)
    ensures var one := Settle(s, NO_FAULTS,
              AddReturnBody(s.db, id, user, ReturnClock(now, now, now, clock(0)), NO_FAULTS));
            var many := BulkRun(s, Accepting, user, [id], now, clock, NO_FAULTS);
            && |many.results| == 1
            && (one.err == None <==> many.results[0].success)
            && (one.err == None || one.err == Some(Refused(many.results[0].reason)))
            && one.state.cache == many.state.cache
            && one.state.db == many.state.db.(outbox := one.state.db.outbox)
            && (if one.err == None then
                  && one.state.db.outbox ==
                       s.db.outbox + [NewTask(Payload(OrderReturned, id, Issued, NO_STATUS), clock(0))]
                  && many.state.db.outbox ==
                       s.db.outbox + [NewTask(Payload(OrderReturnAccepted, id, Issued, NO_STATUS), clock(0))]
                else one.state == s == many.state)
  {
    CleanRun(s, Accepting, user, [id], now, clock);
    var l0 := Looped(s.db, Accepting, user, [id], now, clock, NO_FAULTS, 0);
    var l := Looped(s.db, Accepting, user, [id], now, clock, NO_FAULTS, 1);
    assert l == Item(l0, Accepting, user, id, 0, now, clock, NO_FAULTS);
    if id in s.db.orders && Refusal(Accepting, s.db.orders[id], user, now) == Nothing {
      var e := Changed(s.db.orders[id], TakeBack(user, Direct, now, now), now, clock(0));
      ApplyOne(s.db, e);
      assert Tasks(l.events) == [TaskOf(l.events[0])];
    } else {
      assert Tasks([]) == [] && s.db.outbox + [] == s.db.outbox;
    }
  }
}
