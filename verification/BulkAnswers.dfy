/**
 Which error IssueOrders and AcceptReturns return, which reason they give for every order and what
 they leave of it, read off the rows at the start, the ids before it and the faults.
 */
module BulkAnswers {
  import opened Model
  import opened Ledger
  import opened OrderCaching
  import opened StorageSpec
  import opened BulkTheorems
  import opened OperationAnswers

  /** The operation may change this order. */
  predicate Allowed(db: Db, mode: Mode, user: string, now: Time, id: string) {
    TrueReason(mode, RowOf(db, id), user, now, Nothing)
  }

  /** The row that the operation makes of an order it changes. */
  function Moved(row: Order, mode: Mode, now: Time): Order {
    row.(status := if mode == Issuing then Issued else Returned, updatedAt := now)
  }

  /** The row at the start, or the changed one when an earlier mention of the id was served. */
  function Seen(db: Db, mode: Mode, user: string, now: Time, ids: seq<string>, i: nat): Option<Order>
    requires i < |ids|
  {
    if ids[i] in ids[..i] && Allowed(db, mode, user, now, ids[i]) then Some(Moved(db.orders[ids[i]], mode, now))
    else RowOf(db, ids[i])
  }

  /** The item is the first mention of an order that may be changed. */
  predicate Hit(db: Db, mode: Mode, user: string, now: Time, ids: seq<string>, i: nat)
    requires i < |ids|
  {
    ids[i] !in ids[..i] && Allowed(db, mode, user, now, ids[i])
  }

  lemma GuardIsAllowed(db: Db, mode: Mode, user: string, now: Time, id: string)
    ensures Eligible(db.orders, KindFor(mode, user, now), now, id) <==> Allowed(db, mode, user, now, id)
  {
  }

  /** A refusal names the true reason against the row. */
  lemma RefusalTrue(mode: Mode, row: Order, user: string, now: Time)
    ensures TrueReason(mode, Some(row), user, now, Refusal(mode, row, user, now))
  {
  }

  lemma {:induction false} SeenRow(
      db: Db, rows: Db, mode: Mode, user: string, now: Time, ids: seq<string>, i: nat)
    requires i < |ids|
    requires rows.orders == db.orders + Transitions(db.orders, KindFor(mode, user, now), now, ids[..i])
    ensures RowOf(rows, ids[i]) == Seen(db, mode, user, now, ids, i)
  {
    GuardIsAllowed(db, mode, user, now, ids[i]);
  }

  /** What one item without a fault reports. */
  lemma {:induction false} ItemReason(
      l: Loop, db: Db, mode: Mode, user: string, ids: seq<string>, i: nat, now: Time, clock: nat -> Time, f: Faults)
    requires i < |ids| && RowOf(l.rows, ids[i]) == Seen(db, mode, user, now, ids, i)
    requires var l' := Item(l, mode, user, ids[i], i, now, clock, f);
             l'.err == None
    ensures var l' := Item(l, mode, user, ids[i], i, now, clock, f);
            && |l'.results| == |l.results| + 1 && l'.results[..|l.results|] == l.results
            && TrueReason(mode, Seen(db, mode, user, now, ids, i), user, now, l'.results[|l.results|].reason)
            && (l'.results[|l.results|].success <==> l'.results[|l.results|].reason == Nothing)
            && l'.results[|l.results|].orderId == ids[i]
  {
    if ids[i] in l.rows.orders {
      RefusalTrue(mode, l.rows.orders[ids[i]], user, now);
    }
    hide TrueReason, Refusal, Seen;
  }

  /** The results tell for every item the true reason, which is `Nothing` for a success. */
  predicate Truthful(db: Db, mode: Mode, user: string, now: Time, ids: seq<string>, results: seq<ItemResult>)
    requires |results| <= |ids|
  {
    forall i :: 0 <= i < |results| ==>
      && results[i].orderId == ids[i]
      && (results[i].success <==> results[i].reason == Nothing)
      && TrueReason(mode, Seen(db, mode, user, now, ids, i), user, now, results[i].reason)
  }

  lemma {:induction false} LoopReasons(
      db: Db, mode: Mode, user: string, ids: seq<string>, now: Time, clock: nat -> Time, f: Faults, n: nat)
    requires Keyed(db.orders) && n <= |ids| && Looped(db, mode, user, ids, now, clock, f, n).err == None
    ensures var results := Looped(db, mode, user, ids, now, clock, f, n).results;
            |results| == n && Truthful(db, mode, user, now, ids, results)
  {
    hide Item, Seen, TrueReason;
    if n > 0 {
      LoopReasons(db, mode, user, ids, now, clock, f, n - 1);
      LoopMeans(db, mode, user, ids, now, clock, f, n - 1);
      var l := Looped(db, mode, user, ids, now, clock, f, n - 1);
      SeenRow(db, l.rows, mode, user, now, ids, n - 1);
      ItemReason(l, db, mode, user, ids, n - 1, now, clock, f);
    }
  }

  /** The true reason behind one that a failed commit, or a failed audit task, has put in its place. */
  function Undo(reason: Reason, mark: Reason): Reason {
    if reason == mark then Nothing else reason
  }

  /** No success is left, and every reason is the true one, or `mark` where it would have been a success. */
  predicate Revoked(
      db: Db, mode: Mode, user: string, now: Time, ids: seq<string>, results: seq<ItemResult>, mark: Reason)
  {
    && |results| == |ids|
    && forall i :: 0 <= i < |results| ==>
         && results[i].orderId == ids[i] && !results[i].success && results[i].reason != Nothing
         && TrueReason(mode, Seen(db, mode, user, now, ids, i), user, now, Undo(results[i].reason, mark))
  }

  lemma {:induction false} DemoteRevokes(
      db: Db, mode: Mode, user: string, now: Time, ids: seq<string>, results: seq<ItemResult>, mark: Reason)
    requires |results| == |ids| && Truthful(db, mode, user, now, ids, results)
    requires mark == CommitFailed || mark == AuditFailed
    ensures Revoked(db, mode, user, now, ids, Demote(results, mark), mark)
  {
    var demoted := Demote(results, mark);
    forall i | 0 <= i < |results|
      ensures TrueReason(mode, Seen(db, mode, user, now, ids, i), user, now, Undo(demoted[i].reason, mark))
    {
      assert TrueReason(mode, Seen(db, mode, user, now, ids, i), user, now, results[i].reason);
      assert results[i].reason != mark;
    }
  }

  lemma NothingAsked(db: Db, mode: Mode, user: string, now: Time)
    ensures Truthful(db, mode, user, now, [], []) && Revoked(db, mode, user, now, [], [], CommitFailed)
  {
  }

  /**
   Without an error every order gets the true reason why it was left alone, and a success has none;
   a failed commit is the reason of those that would have been successes, and of no other.
   */
  lemma {:induction false} BulkReasons(
      s: State, mode: Mode, user: string, ids: seq<string>, now: Time, clock: nat -> Time, f: Faults)
    requires Keyed(s.db.orders)
    ensures var r := BulkRun(s, mode, user, ids, now, clock, f);
            r.err == None ==>
              if f(Commit) then Revoked(s.db, mode, user, now, ids, r.results, CommitFailed)
              else |r.results| == |ids| && Truthful(s.db, mode, user, now, ids, r.results)
  {
    hide Looped, TaskFault, TrueReason, Seen, Revoked, Truthful;
    if BulkRun(s, mode, user, ids, now, clock, f).err == None {
      if |ids| > 0 {
        LoopReasons(s.db, mode, user, ids, now, clock, f, |ids|);
        var results := Looped(s.db, mode, user, ids, now, clock, f, |ids|).results;
        DemoteRevokes(s.db, mode, user, now, ids, results, CommitFailed);
      } else {
        NothingAsked(s.db, mode, user, now);
      }
    }
  }

  // The error.

  /** The statements for one item, in their order. */
  function ItemCalls(db: Db, mode: Mode, user: string, now: Time, ids: seq<string>, i: nat): seq<Call>
    requires i < |ids|
  {
    if !Hit(db, mode, user, now, ids, i) then [ReadOrder(i)]
    else if mode == Issuing then [ReadOrder(i), UpdateRow(i), RecordHistory(i)]
    else [ReadOrder(i), RecordReturn(i), UpdateRow(i), RecordHistory(i)]
  }

  function LoopCalls(db: Db, mode: Mode, user: string, now: Time, ids: seq<string>, n: nat): seq<Call>
    requires n <= |ids|
  {
    if n == 0 then []
    else LoopCalls(db, mode, user, now, ids, n - 1) + ItemCalls(db, mode, user, now, ids, n - 1)
  }

  function Hits(db: Db, mode: Mode, user: string, now: Time, ids: seq<string>, n: nat): nat
    requires n <= |ids|
  {
    if n == 0 then 0
    else Hits(db, mode, user, now, ids, n - 1) + if Hit(db, mode, user, now, ids, n - 1) then 1 else 0
  }

  function TaskCalls(n: nat): seq<Call> {
    if n == 0 then [] else TaskCalls(n - 1) + [RecordTask(n - 1)]
  }

  lemma {:induction false} FirstConcat(a: seq<Call>, b: seq<Call>, f: Faults)
    ensures FirstError(a + b, f) == OrElse(FirstError(a, f), FirstError(b, f))
  {
    if |b| == 0 {
      assert a + b == a;
    } else {
      FirstConcat(a, b[..|b| - 1], f);
      assert (a + b)[..|a + b| - 1] == a + b[..|b| - 1];
    }
  }

  /** Only the first mention of an order that may be changed is still seen as one. */
  lemma HitSeen(db: Db, mode: Mode, user: string, now: Time, ids: seq<string>, i: nat)
    requires i < |ids|
    ensures TrueReason(mode, Seen(db, mode, user, now, ids, i), user, now, Nothing) <==>
            Hit(db, mode, user, now, ids, i)
  {
  }

  lemma {:induction false} ItemError(
      l: Loop, db: Db, mode: Mode, user: string, ids: seq<string>, i: nat, now: Time, clock: nat -> Time, f: Faults)
    requires i < |ids| && RowOf(l.rows, ids[i]) == Seen(db, mode, user, now, ids, i) && l.err == None
    ensures var l' := Item(l, mode, user, ids[i], i, now, clock, f);
            && l'.err == FirstError(ItemCalls(db, mode, user, now, ids, i), f)
            && |l'.events| == |l.events| + if l'.err == None && Hit(db, mode, user, now, ids, i) then 1 else 0
  {
    HitSeen(db, mode, user, now, ids, i);
    if ids[i] in l.rows.orders {
      RefusalTrue(mode, l.rows.orders[ids[i]], user, now);
      assert Refusal(mode, l.rows.orders[ids[i]], user, now) == Nothing <==> Hit(db, mode, user, now, ids, i);
    }
    hide TrueReason, Refusal, Seen, Hit, Guard;
    assert [ReadOrder(i)][..0] == [];
    FirstOf2(ReadOrder(i), if mode == Issuing then UpdateRow(i) else RecordReturn(i), f);
    FirstOf3(ReadOrder(i), UpdateRow(i), RecordHistory(i), f);
    FirstOf3(ReadOrder(i), RecordReturn(i), UpdateRow(i), f);
    FirstOf4(ReadOrder(i), RecordReturn(i), UpdateRow(i), RecordHistory(i), f);
  }

  lemma {:induction false} LoopError(
      db: Db, mode: Mode, user: string, ids: seq<string>, now: Time, clock: nat -> Time, f: Faults, n: nat)
    requires Keyed(db.orders) && n <= |ids|
    ensures var l := Looped(db, mode, user, ids, now, clock, f, n);
            && l.err == FirstError(LoopCalls(db, mode, user, now, ids, n), f)
            && (l.err == None ==> |l.events| == Hits(db, mode, user, now, ids, n))
  {
    hide Item, ItemCalls, Hit, Seen;
    if n > 0 {
      LoopError(db, mode, user, ids, now, clock, f, n - 1);
      FirstConcat(LoopCalls(db, mode, user, now, ids, n - 1), ItemCalls(db, mode, user, now, ids, n - 1), f);
      var l := Looped(db, mode, user, ids, now, clock, f, n - 1);
      if l.err == None {
        LoopMeans(db, mode, user, ids, now, clock, f, n - 1);
        SeenRow(db, l.rows, mode, user, now, ids, n - 1);
        ItemError(l, db, mode, user, ids, n - 1, now, clock, f);
      }
    }
  }

  lemma {:induction false} TaskFaultSnoc(f: Faults, k: nat, n: nat)
    requires k <= n
    ensures TaskFault(f, k, n + 1) ==
            if TaskFault(f, k, n).Some? then TaskFault(f, k, n) else if f(RecordTask(n)) then Some(n) else None
    decreases n - k
  {
    if k < n {
      TaskFaultSnoc(f, k + 1, n);
    }
  }

  lemma {:induction false} TaskError(f: Faults, n: nat)
    ensures FirstError(TaskCalls(n), f) ==
            if TaskFault(f, 0, n).Some? then Some(CallFailed(RecordTask(TaskFault(f, 0, n).value))) else None
  {
    if n > 0 {
      TaskError(f, n - 1);
      TaskFaultSnoc(f, 0, n - 1);
      assert TaskCalls(n)[..|TaskCalls(n)| - 1] == TaskCalls(n - 1);
    }
  }

  /** All calls but the commit: one read for every mention, the writes of every change, then its audit tasks. */
  function BulkCalls(db: Db, mode: Mode, user: string, now: Time, ids: seq<string>): seq<Call> {
    if |ids| == 0 then []
    else [Begin] + LoopCalls(db, mode, user, now, ids, |ids|) + TaskCalls(Hits(db, mode, user, now, ids, |ids|))
  }

  /** The error is that of the first call that fails: no refusal is an error. */
  lemma {:induction false} BulkError(
      s: State, mode: Mode, user: string, ids: seq<string>, now: Time, clock: nat -> Time, f: Faults)
    requires Keyed(s.db.orders)
    ensures BulkRun(s, mode, user, ids, now, clock, f).err ==
            FirstError(BulkCalls(s.db, mode, user, now, ids), f)
  {
    hide Looped, LoopCalls, TaskCalls, Hits, TaskFault;
    if |ids| > 0 {
      var loop := LoopCalls(s.db, mode, user, now, ids, |ids|);
      var tasks := TaskCalls(Hits(s.db, mode, user, now, ids, |ids|));
      LoopError(s.db, mode, user, ids, now, clock, f, |ids|);
      TaskError(f, Hits(s.db, mode, user, now, ids, |ids|));
      FirstConcat([Begin] + loop, tasks, f);
      FirstConcat([Begin], loop, f);
      assert [Begin][..0] == [];
    }
  }

  /** What an item reports whose statement fails. */
  function FailureOf(call: Call): Reason {
    match call
    case ReadOrder(_) => RetrieveFailed
    case UpdateRow(_) => UpdateFailed
    case RecordHistory(_) => HistoryFailed
    case RecordReturn(_) => ReturnFailed
    case _ => AuditFailed
  }

  /** The results end with the item whose statement failed; those before it are as if nothing had failed. */
  predicate EndsWith(
      db: Db, mode: Mode, user: string, now: Time, ids: seq<string>, results: seq<ItemResult>, call: Call)
  {
    && (call.ReadOrder? || call.UpdateRow? || call.RecordHistory? || call.RecordReturn?)
    && call.i < |ids| && |results| == call.i + 1
    && results[call.i] == ItemResult(ids[call.i], false, FailureOf(call))
    && Truthful(db, mode, user, now, ids, results[..call.i])
  }

  lemma {:induction false} ItemFailure(
      l: Loop, mode: Mode, user: string, id: string, i: nat, now: Time, clock: nat -> Time, f: Faults)
    requires l.err == None && Item(l, mode, user, id, i, now, clock, f).err.Some?
    ensures var l' := Item(l, mode, user, id, i, now, clock, f);
            && l'.err.value.CallFailed?
            && var call := l'.err.value.call;
               && (call.ReadOrder? || call.UpdateRow? || call.RecordHistory? || call.RecordReturn?) && call.i == i
               && l'.results == l.results + [ItemResult(id, false, FailureOf(call))]
  {
  }

  lemma {:induction false} LoopFailure(
      db: Db, mode: Mode, user: string, ids: seq<string>, now: Time, clock: nat -> Time, f: Faults, n: nat)
    requires Keyed(db.orders) && n <= |ids| && Looped(db, mode, user, ids, now, clock, f, n).err.Some?
    ensures var l := Looped(db, mode, user, ids, now, clock, f, n);
            l.err.value.CallFailed? && EndsWith(db, mode, user, now, ids, l.results, l.err.value.call)
  {
    var l := Looped(db, mode, user, ids, now, clock, f, n - 1);
    hide Truthful, Item, FailureOf;
    if l.err.Some? {
      LoopFailure(db, mode, user, ids, now, clock, f, n - 1);
    } else {
      LoopReasons(db, mode, user, ids, now, clock, f, n - 1);
      ItemFailure(l, mode, user, ids[n - 1], n - 1, now, clock, f);
      assert Looped(db, mode, user, ids, now, clock, f, n).results[..n - 1] == l.results;
    }
  }

  /**
   With an error nothing has changed, and the results tell why: there are none if the transaction
   did not begin, they end with the item whose statement failed, or no success is left of them if
   an audit task failed.
   */
  lemma {:induction false} BulkFailure(
      s: State, mode: Mode, user: string, ids: seq<string>, now: Time, clock: nat -> Time, f: Faults)
    requires Keyed(s.db.orders)
    ensures var r := BulkRun(s, mode, user, ids, now, clock, f);
            r.err.Some? ==>
              && r.state == s && r.err.value.CallFailed?
              && match r.err.value.call
                 case Begin => r.results == []
                 case RecordTask(_) => Revoked(s.db, mode, user, now, ids, r.results, AuditFailed)
                 case call => EndsWith(s.db, mode, user, now, ids, r.results, call)
  {
    hide Looped, TaskFault, Revoked, Truthful;
    var r, l := BulkRun(s, mode, user, ids, now, clock, f), Looped(s.db, mode, user, ids, now, clock, f, |ids|);
    if r.err.Some? && !f(Begin) {
      if l.err.Some? {
        LoopFailure(s.db, mode, user, ids, now, clock, f, |ids|);
      } else {
        LoopReasons(s.db, mode, user, ids, now, clock, f, |ids|);
        DemoteRevokes(s.db, mode, user, now, ids, l.results, AuditFailed);
      }
    }
  }

  /** The cache after it was shown the issued orders, or has forgotten the returned ones. */
  ghost predicate Followed(cache: Rows, cache': Rows, db: Db, mode: Mode, user: string, now: Time, ids: seq<string>) {
    forall id ::
      if id in ids && Allowed(db, mode, user, now, id) then
        if mode == Issuing then id in cache' && cache'[id] == Moved(db.orders[id], mode, now) else id !in cache'
      else (id in cache' <==> id in cache) && (id in cache ==> cache'[id] == cache[id])
  }

  lemma {:induction false} RowsFollow(db: Db, rows: Db, mode: Mode, user: string, now: Time, ids: seq<string>)
    requires rows.orders == db.orders + Transitions(db.orders, KindFor(mode, user, now), now, ids)
    ensures forall id :: RowOf(rows, id) ==
                         if id in ids && Allowed(db, mode, user, now, id) then Some(Moved(db.orders[id], mode, now))
                         else RowOf(db, id)
  {
    forall id ensures Eligible(db.orders, KindFor(mode, user, now), now, id) <==> Allowed(db, mode, user, now, id) {
      GuardIsAllowed(db, mode, user, now, id);
    }
    hide Allowed, Guard;
  }

  lemma {:induction false} CacheFollows(cache: Rows, db: Db, mode: Mode, user: string, now: Time, ids: seq<string>)
    ensures Followed(cache, Cached(cache, mode, Transitions(db.orders, KindFor(mode, user, now), now, ids)), db, mode,
              user, now, ids)
  {
    forall id ensures Eligible(db.orders, KindFor(mode, user, now), now, id) <==> Allowed(db, mode, user, now, id) {
      GuardIsAllowed(db, mode, user, now, id);
    }
    hide Allowed, Guard;
  }

  /**
   Without an error, and if the commit worked, exactly the orders that may be changed are issued or
   returned now, with nothing but their status and their time of change rewritten, and the cache
   has followed.
   */
  lemma {:induction false} BulkEffect(
      s: State, mode: Mode, user: string, ids: seq<string>, now: Time, clock: nat -> Time, f: Faults)
    requires Keyed(s.db.orders)
    ensures var r := BulkRun(s, mode, user, ids, now, clock, f);
            r.err == None && !f(Commit) ==>
              && (forall id :: RowOf(r.state.db, id) ==
                               if id in ids && Allowed(s.db, mode, user, now, id)
                               then Some(Moved(s.db.orders[id], mode, now)) else RowOf(s.db, id))
              && Followed(s.cache, r.state.cache, s.db, mode, user, now, ids)
  {
    hide Looped, TaskFault;
    if BulkRun(s, mode, user, ids, now, clock, f).err == None && !f(Commit) && |ids| > 0 {
      LoopMeans(s.db, mode, user, ids, now, clock, f, |ids|);
      assert ids[..|ids|] == ids;
      RowsFollow(s.db, BulkRun(s, mode, user, ids, now, clock, f).state.db, mode, user, now, ids);
      CacheFollows(s.cache, s.db, mode, user, now, ids);
      hide Transitions, Allowed, Cached, Followed;
    }
  }
}
