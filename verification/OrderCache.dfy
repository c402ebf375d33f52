/** The in-memory cache of active orders. */
module OrderCaching {
  import opened Model

  type Rows = map<string, Order>

  /** The active part of the orders table. */
  function ActiveRows(orders: Rows): Rows {
    map id | id in orders && IsActive(orders[id].status) :: orders[id]
  }

  predicate Keyed(orders: Rows) {
    forall id :: id in orders ==> orders[id].id == id
  }

  /** The cache after it was told about the rows in `puts` and the deletions in `drops`. */
  function Merge(cache: Rows, puts: Rows, drops: set<string>): Rows {
    map id | id in cache.Keys + puts.Keys && id !in drops && (id in puts ==> IsActive(puts[id].status)) ::
      if id in puts then puts[id] else cache[id]
  }

  /** `cache` with the rows of a listing stored one after the other. */
  function Store(cache: Rows, listing: seq<Order>): Rows {
    if |listing| == 0 then cache
    else
      var last := listing[|listing| - 1];
      Store(cache, listing[..|listing| - 1])[last.id := last]
  }

  /** The cache is the received and issued part of the orders table. */
  ghost predicate Mirrors(cache: Rows, orders: Rows) {
    && (forall id :: id in cache <==> id in orders && (orders[id].status == Received || orders[id].status == Issued))
    && (forall id :: id in cache ==> cache[id] == orders[id])
  }

  /** A listing of the active orders: every received or issued row once, oldest first. */
  ghost predicate IsActiveListing(orders: Rows, listing: seq<Order>) {
    && (forall i :: 0 <= i < |listing| ==>
          && listing[i].id in orders && orders[listing[i].id] == listing[i]
          && (listing[i].status == Received || listing[i].status == Issued))
    && (forall i, j :: 0 <= i < j < |listing| ==>
          listing[i].id != listing[j].id && listing[i].createdAt <= listing[j].createdAt)
    && (forall id :: id in orders && (orders[id].status == Received || orders[id].status == Issued) ==>
          orders[id] in listing)
  }

  class OrderCache {
    var entries: Rows

    constructor ()
      ensures entries == map[]
    {
      entries := map[];
    }

    /** `rows` is what GetAllActiveOrders returned, or None when the query failed. */
    method LoadInitialData(rows: Option<seq<Order>>) returns (ok: bool)
      modifies this
      ensures ok == rows.Some?
      ensures entries == if rows == None then old(entries) else Store(old(entries), rows.value)
    {
      if rows == None {
        return false;
      }
      for n := 0 to |rows.value|
        invariant entries == Store(old(entries), rows.value[..n])
      {
        assert rows.value[..n + 1][..n] == rows.value[..n];
        entries := entries[rows.value[n].id := rows.value[n]];
      }
      assert rows.value[..|rows.value|] == rows.value;
      ok := true;
    }

    method Get(id: string) returns (found: Option<Order>)
      ensures found == if id in entries then Some(entries[id]) else None
    {
      found := if id in entries then Some(entries[id]) else None;
    }

    /** An order that is no longer active is removed instead. */
    method Set(order: Order)
      modifies this
      ensures entries == Merge(old(entries), map[order.id := order], {})
    {
      if !IsActive(order.status) {
        Delete(order.id);
        return;
      }
      entries := entries[order.id := order];
    }

    method Delete(id: string)
      modifies this
      ensures entries == Merge(old(entries), map[], {id})
    {
      if id in entries {
        entries := entries - {id};
      }
    }
  }

  /** Setting one more active row adds that row to the merge. */
  lemma MergeOneMore(cache: Rows, puts: Rows, id: string, row: Order)
    requires IsActive(row.status)
    ensures Merge(Merge(cache, puts, {}), map[id := row], {}) == Merge(cache, puts[id := row], {})
  {
  }

  lemma {:induction false} StoredRows(orders: Rows, listing: seq<Order>)
    requires forall i :: 0 <= i < |listing| ==>
               listing[i].id in ActiveRows(orders) && orders[listing[i].id] == listing[i]
    ensures forall i :: 0 <= i < |listing| ==> listing[i].id in Store(map[], listing)
    ensures forall id :: id in Store(map[], listing) ==>
              id in ActiveRows(orders) && Store(map[], listing)[id] == orders[id]
  {
    if |listing| > 0 {
      StoredRows(orders, listing[..|listing| - 1]);
    }
  }

  /** Loading a listing of the active orders into an empty cache makes the cache the active part of the table. */
  lemma {:induction false} LoadMirrors(orders: Rows, listing: seq<Order>)
    requires Keyed(orders) && IsActiveListing(orders, listing)
    ensures Mirrors(Store(map[], listing), orders)
  {
    StoredRows(orders, listing);
    forall id | id in ActiveRows(orders) ensures id in Store(map[], listing) {
      var i :| 0 <= i < |listing| && listing[i] == orders[id];
    }
  }
}
