/** What the flags of a bulk operation, and the answers built from them, are worth. */
module ResponseTheorems {
  import opened Model
  import opened Ledger
  import opened OrderCaching
  import opened StorageSpec
  import opened BulkTheorems
  import opened OperationAnswers
  import opened BulkAnswers
  import opened OrderServer
  import opened SequentialRuns

  predicate OccursOnce(ids: seq<string>, id: string) {
    id in ids && forall i, j :: 0 <= i < j < |ids| ==> !(ids[i] == id && ids[j] == id)
  }

  /** The answer for an id is the result of its last mention. */
  lemma {:induction false} LastMention(results: seq<ItemResult>, id: string) returns (j: nat)
    requires exists i :: 0 <= i < |results| && results[i].orderId == id
    ensures j < |results| && results[j].orderId == id && forall i :: j < i < |results| ==> results[i].orderId != id
    ensures id in Responses(results) && Responses(results)[id] == results[j]
  {
    var n := |results| - 1;
    if results[n].orderId == id {
      j := n;
    } else {
      var i :| 0 <= i < |results| && results[i].orderId == id;
      assert results[..n][i].orderId == id;
      j := LastMention(results[..n], id);
    }
  }

  /** A success is reported for the first mention of an id only. */
  lemma {:induction false} SuccessIsFirst(
      s: State, mode: Mode, user: string, ids: seq<string>, now: Time, clock: nat -> Time, f: Faults, j: nat)
    requires Keyed(s.db.orders) && j < |ids|
    ensures var r := BulkRun(s, mode, user, ids, now, clock, f);
            r.err == None ==> |r.results| == |ids| && (r.results[j].success ==> ids[j] !in ids[..j])
  {
    BulkAccurate(s, mode, user, ids, now, clock, f);
    var r := BulkRun(s, mode, user, ids, now, clock, f);
    assert ids[..|ids|] == ids;
    if r.err == None && r.results[j].success && ids[j] in ids[..j] {
      var i :| 0 <= i < j && ids[i] == ids[j];
      LoopMeans(s.db, mode, user, ids, now, clock, f, |ids|);
      assert false;
    }
  }

  /**
   The handlers tell the truth about an id exactly when it is mentioned once: an order that was
   changed is reported as a failure when its id is repeated, because the later result replaces
   the earlier one in the answer.
   */
  lemma {:induction false} ResponseExact(
      s: State, mode: Mode, user: string, ids: seq<string>, now: Time, clock: nat -> Time, f: Faults,
      id: string)
    requires Keyed(s.db.orders) && user != "" && id in ids
    ensures var (s', response) := BulkHandled(s, mode, user, ids, now, clock, f);
            response.status == Done ==>
              && id in response.items
              && (response.items[id].success <==> RowOf(s'.db, id) != RowOf(s.db, id) && OccursOnce(ids, id))
  {
    var r, kind := BulkRun(s, mode, user, ids, now, clock, f), KindFor(mode, user, now);
    if r.err == None {
      BulkAccurate(s, mode, user, ids, now, clock, f);
      var k :| 0 <= k < |ids| && ids[k] == id;
      assert r.results[k].orderId == id;
      var j := LastMention(r.results, id);
      if r.results[j].success {
        SuccessIsFirst(s, mode, user, ids, now, clock, f, j);
      } else if OccursOnce(ids, id) {
        assert forall i :: 0 <= i < |ids| && ids[i] == id ==> i == j;
      }
    }
  }

  lemma {:induction false} AllMentioned(results: seq<ItemResult>)
    ensures forall id :: id in Responses(results) <==> exists i :: 0 <= i < |results| && results[i].orderId == id
  {
    if |results| > 0 {
      var front := results[..|results| - 1];
      AllMentioned(front);
      forall id | exists i :: 0 <= i < |results| && results[i].orderId == id ensures id in Responses(results) {
        var i :| 0 <= i < |results| && results[i].orderId == id;
        assert i < |front| ==> front[i].orderId == id;
      }
      forall id | id in Responses(results) ensures exists i :: 0 <= i < |results| && results[i].orderId == id {
        if results[|results| - 1].orderId != id {
          assert id in Responses(front);
          var i :| 0 <= i < |front| && front[i].orderId == id;
          assert results[i].orderId == id;
        }
      }
    }
  }

  /**
   The bulk handlers refuse an empty user or list, succeed exactly if every call of the operation
   but the commit works, and answer then for exactly the ids asked for, with the result of the last
   mention of each.
   */
  lemma {:induction false} BulkAnswered(
      s: State, mode: Mode, user: string, ids: seq<string>, now: Time, clock: nat -> Time, f: Faults)
    requires Keyed(s.db.orders)
    ensures var (s', response) := BulkHandled(s, mode, user, ids, now, clock, f);
            var r := BulkRun(s, mode, user, ids, now, clock, f);
            && (response.status == BadRequest <==> user == "" || ids == [])
            && (response.status == Done <==>
                user != "" && ids != [] && FirstError(BulkCalls(s.db, mode, user, now, ids), f) == None)
            && response.status != NoSuchOrder
            && (response.status != Done ==> s' == s && response.items == map[])
            && (response.status == Done ==>
                  && (forall id :: id in response.items <==> id in ids)
                  && |r.results| == |ids|
                  && forall j :: 0 <= j < |ids| && ids[j] !in ids[j + 1..] ==> response.items[ids[j]] == r.results[j])
  {
    hide BulkRun, BulkCalls, FirstError;
    if user != "" && ids != [] {
      BulkError(s, mode, user, ids, now, clock, f);
      BulkAccurate(s, mode, user, ids, now, clock, f);
      var r := BulkRun(s, mode, user, ids, now, clock, f);
      if r.err == None {
        AllMentioned(r.results);
        forall id ensures id in Responses(r.results) <==> id in ids {
          if id in ids {
            var i :| 0 <= i < |ids| && ids[i] == id;
            assert r.results[i].orderId == id;
          }
        }
        forall j | 0 <= j < |ids| && ids[j] !in ids[j + 1..] ensures Responses(r.results)[ids[j]] == r.results[j] {
          assert r.results[j].orderId == ids[j];
          var k := LastMention(r.results, ids[j]);
        }
      }
    }
  }

  /**
   The handler that creates an order refuses a missing date, a past one and an unusable packaging.
   Otherwise it is done exactly if the id is free and its calls work, and the order is stored as it
   was asked for, received, unless the commit failed.
   */
  lemma {:induction false} CreatedExact(s: State, req: CreateRequest, clock: CreateClock, f: Faults)
    ensures var (s', response) := CreateRun(s, req, clock, f);
            var bad := req.storageUntil == None || req.wrapper == None || req.storageUntil.value < clock.checkedAt;
            && (response == BadRequest <==> bad)
            && (response == Done <==>
                !bad && req.id !in s.db.orders && !f(Begin) && !f(InsertRow) && !f(RecordHistory(0))
                && !f(RecordTask(0)))
            && response != NoSuchOrder
            && if response == Done && !f(Commit) then
                 && req.id in s'.db.orders && s'.db.orders - {req.id} == s.db.orders
                 && var row := s'.db.orders[req.id];
                    && row.id == req.id && row.recipientId == req.recipientId && row.status == Received
                    && row.storageUntil == req.storageUntil.value && row.price == req.price
                    && row.weight == req.weight && row.wrapper == req.wrapper.value
                    && row.createdAt == clock.createdAt && row.updatedAt == clock.updatedAt
                    && s'.cache == s.cache[req.id := row]
                    && s'.db.history == s.db.history + [HistoryEntry(req.id, Received, clock.at)]
                    && s'.db.returnRows == s.db.returnRows
                    && Queued(s.db.outbox, s'.db.outbox,
                              Payload(OrderCreated, req.id, Custom(""), Received), clock.loggedAt)
               else s' == s
  {
    if CreateRun(s, req, clock, f).1 != BadRequest {
      AddAnswer(s, Requested(req, clock), clock.at, clock.loggedAt, f);
      FirstOf2(Begin, InsertRow, f);
      FirstOf3(Begin, InsertRow, RecordHistory(0), f);
      FirstOf4(Begin, InsertRow, RecordHistory(0), RecordTask(0), f);
      hide AddOrderBody, Settle, FirstError, Queued;
    }
  }

  /**
   The handler that gives an order back to the courier: each of its four answers, exactly, as long
   as the cache is right. A cached order is looked up without a read.
   */
  lemma {:induction false} DeletedExact(s: State, id: string, now: Time, loggedAt: Time, f: Faults)
    requires Keyed(s.db.orders) && Part(s)
    ensures var (s', response) := GuardedDeleteRun(s, id, now, loggedAt, f);
            var found := id in s.db.orders && (id in s.cache || !f(ReadOrder(0)));
            var due := found && s.db.orders[id].status == Received && s.db.orders[id].storageUntil <= now;
            var works := !f(Begin) && !f(DeleteRow) && !f(RecordTask(0));
            && (response == BadRequest <==> id == "" || (found && !due))
            && (response == NoSuchOrder <==> id != "" && !found)
            && (response == InternalError <==> id != "" && due && !works)
            && (response == Done <==> id != "" && due && works)
            && if response == Done && !f(Commit) then
                 && s'.db.orders == s.db.orders - {id} && s'.cache == s.cache - {id}
                 && Erased(s.db, s'.db, id)
                 && Queued(s.db.outbox, s'.db.outbox, Payload(OrderDeleted, id, Custom(""), Custom("")), loggedAt)
               else
                 && s'.db == s.db
                 && s'.cache == if id != "" && found then Shown(s.cache, s.db.orders[id]) else s.cache
  {
    var read := GetOrderRun(s, id, f).state;
    GetAnswer(s, id, f);
    DeleteAnswer(read, id, loggedAt, f);
    FirstOf2(Begin, DeleteRow, f);
    FirstOf3(Begin, DeleteRow, RecordTask(0), f);
    hide DeleteOrderBody, Settle, FirstError, Queued, Erased;
  }

  lemma {:induction false} LoopFlags(
      db: Db, mode: Mode, user: string, ids: seq<string>, now: Time, clock: nat -> Time, f: Faults)
    requires Keyed(db.orders) && Looped(db, mode, user, ids, now, clock, f, |ids|).err.Some?
    ensures var results := Looped(db, mode, user, ids, now, clock, f, |ids|).results;
            && 0 < |results| <= |ids| && !results[|results| - 1].success
            && forall j :: 0 <= j < |results| - 1 ==>
                 (results[j].success <==> Wins(db.orders, KindFor(mode, user, now), now, ids, j))
  {
    hide Looped, TrueReason, Seen, Allowed, Eligible;
    LoopFailure(db, mode, user, ids, now, clock, f, |ids|);
    var results := Looped(db, mode, user, ids, now, clock, f, |ids|).results;
    forall j | 0 <= j < |results| - 1
      ensures results[j].success <==> Wins(db.orders, KindFor(mode, user, now), now, ids, j)
    {
      assert results[..|results| - 1][j] == results[j];
      HitSeen(db, mode, user, now, ids, j);
      OneReason(mode, Seen(db, mode, user, now, ids, j), user, now, results[j].reason, Nothing);
      GuardIsAllowed(db, mode, user, now, ids[j]);
    }
  }

  /**
   With a hard error in the loop the results end with the failed item, and the flags before it
   still say what would have been committed, although nothing was.
   */
  lemma {:induction false} FlagsOnError(
      s: State, mode: Mode, user: string, ids: seq<string>, now: Time, clock: nat -> Time, f: Faults)
    requires Keyed(s.db.orders) && Looped(s.db, mode, user, ids, now, clock, f, |ids|).err.Some? && !f(Begin)
    ensures var r := BulkRun(s, mode, user, ids, now, clock, f);
            && r.err.Some? && r.state == s
            && 0 < |r.results| <= |ids| && !r.results[|r.results| - 1].success
            && forall j :: 0 <= j < |r.results| - 1 ==>
                 (r.results[j].success <==> Wins(s.db.orders, KindFor(mode, user, now), now, ids, j))
  {
    LoopFlags(s.db, mode, user, ids, now, clock, f);
  }
}
