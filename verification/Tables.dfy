/**
 The contract of the database: a transaction stages its statements on a private copy of the
 tables, which a commit installs and a rollback forgets. Every statement may fail.
 */
module Tables {
  import opened Model
  import opened Ledger
  import opened OrderCaching

  datatype Lookup = Found(order: Order) | Missing | ReadFailed

  class Transaction {
    var staged: Db

    constructor (db: Db)
      ensures staged == db
    {
      staged := db;
    }

    /** INSERT INTO orders: the id is the primary key. */
    method InsertOrder(order: Order, fails: bool) returns (ok: bool)
      modifies this
      ensures ok <==> !fails && order.id !in old(staged).orders
      ensures staged == if ok then PutRow(old(staged), order) else old(staged)
    {
      ok := !fails && order.id !in staged.orders;
      if ok {
        staged := PutRow(staged, order);
      }
    }

    /** SELECT ... FOR UPDATE. */
    method GetByID(id: string, fails: bool) returns (found: Lookup)
      ensures found == if fails then ReadFailed
                       else if id in staged.orders then Found(staged.orders[id]) else Missing
    {
      found := if fails then ReadFailed else if id in staged.orders then Found(staged.orders[id]) else Missing;
    }

    /** UPDATE orders ... WHERE id: created_at keeps its value, and no row is no error. */
    method UpdateOrder(order: Order, fails: bool) returns (ok: bool)
      modifies this
      ensures ok == !fails
      ensures staged == if ok && order.id in old(staged).orders
                        then PutRow(old(staged), order.(createdAt := old(staged).orders[order.id].createdAt))
                        else old(staged)
    {
      ok := !fails;
      if ok && order.id in staged.orders {
        staged := PutRow(staged, order.(createdAt := staged.orders[order.id].createdAt));
      }
    }

    /** DELETE FROM orders: no row is no error, and the history and the returns go with the row. */
    method DeleteOrder(id: string, fails: bool) returns (ok: bool)
      modifies this
      ensures ok == !fails
      ensures staged == if ok && id in old(staged).orders then DeleteCascade(old(staged), id) else old(staged)
    {
      ok := !fails;
      if ok && id in staged.orders {
        staged := DeleteCascade(staged, id);
      }
    }

    /** INSERT INTO order_history: order_id references orders. */
    method InsertHistory(entry: HistoryEntry, fails: bool) returns (ok: bool)
      modifies this
      ensures ok <==> !fails && entry.orderId in old(staged).orders
      ensures staged == if ok then old(staged).(history := old(staged).history + [entry]) else old(staged)
    {
      ok := !fails && entry.orderId in staged.orders;
      if ok {
        staged := staged.(history := staged.history + [entry]);
      }
    }

    /** INSERT INTO returns: order_id references orders. */
    method InsertReturn(row: ReturnEntry, fails: bool) returns (ok: bool)
      modifies this
      ensures ok <==> !fails && row.orderId in old(staged).orders
      ensures staged == if ok then old(staged).(returnRows := old(staged).returnRows + [row]) else old(staged)
    {
      ok := !fails && row.orderId in staged.orders;
      if ok {
        staged := staged.(returnRows := staged.returnRows + [row]);
      }
    }

    /** INSERT INTO outbox_tasks. */
    method InsertTask(payload: Payload, now: Time, fails: bool) returns (ok: bool)
      modifies this
      ensures ok == !fails
      ensures var task := Task("audit_logs", payload, CREATED, 0, None, now, now, None);
              staged == if ok then old(staged).(outbox := old(staged).outbox + [task]) else old(staged)
    {
      ok := !fails;
      if ok {
        staged := staged.(outbox := staged.outbox + [NewTask(payload, now)]);
      }
    }
  }

  lemma {:induction false} OldestOrder(rows: Rows, ids: set<string>)
    requires ids <= rows.Keys && ids != {}
    ensures exists next :: next in ids && forall id :: id in ids ==> rows[next].createdAt <= rows[id].createdAt
  {
    var stamps := map id | id in ids :: rows[id].createdAt;
    assert stamps.Keys == ids;
    var next := OldestOf(stamps);
    assert forall id :: id in ids ==> stamps[id] == rows[id].createdAt && stamps[next] <= stamps[id];
    assert next in ids && forall id :: id in ids ==> rows[next].createdAt <= rows[id].createdAt;
  }

  /** The active rows are those in `left` and, oldest first and no younger than these, those in `listing`. */
  ghost predicate Listed(active: Rows, left: set<string>, listing: seq<Order>) {
    && left <= active.Keys
    && (forall id :: id in active && id !in left ==> active[id] in listing)
    && (forall i :: 0 <= i < |listing| ==>
          listing[i].id in active && listing[i].id !in left && active[listing[i].id] == listing[i])
    && (forall i, j :: 0 <= i < j < |listing| ==>
          listing[i].id != listing[j].id && listing[i].createdAt <= listing[j].createdAt)
    && (forall i, id :: 0 <= i < |listing| && id in left ==> listing[i].createdAt <= active[id].createdAt)
  }

  lemma {:induction false} ListNext(active: Rows, left: set<string>, listing: seq<Order>, next: string)
    requires Keyed(active) && Listed(active, left, listing) && next in left
    requires forall id :: id in left ==> active[next].createdAt <= active[id].createdAt
    ensures Listed(active, left - {next}, listing + [active[next]])
  {
    assert active[next].id == next;
  }

  lemma {:induction false} ActiveListing(orders: Rows, listing: seq<Order>)
    requires Keyed(orders)
    ensures Keyed(ActiveRows(orders)) && Listed(ActiveRows(orders), ActiveRows(orders).Keys, [])
    ensures Listed(ActiveRows(orders), {}, listing) ==> IsActiveListing(orders, listing)
  {
    var active := ActiveRows(orders);
    if Listed(active, {}, listing) {
      forall id | id in orders && (orders[id].status == Received || orders[id].status == Issued)
        ensures orders[id] in listing
      {
        assert active[id] == orders[id];
      }
    }
  }

  class Database {
    var tables: Db

    constructor (db: Db)
      ensures tables == db
    {
      tables := db;
    }

    method Commit(tx: Transaction, fails: bool) returns (ok: bool)
      modifies this
      ensures ok == !fails
      ensures tables == if ok then tx.staged else old(tables)
    {
      ok := !fails;
      if ok {
        tables := tx.staged;
      }
    }

    method GetByID(id: string, fails: bool) returns (found: Lookup)
      ensures found == if fails then ReadFailed
                       else if id in tables.orders then Found(tables.orders[id]) else Missing
    {
      found := if fails then ReadFailed else if id in tables.orders then Found(tables.orders[id]) else Missing;
    }

    /** SELECT the received and issued orders ORDER BY created_at. */
    method GetAllActiveOrders(fails: bool) returns (rows: Option<seq<Order>>)
      requires Keyed(tables.orders)
      ensures rows.Some? <==> !fails
      ensures rows.Some? ==> IsActiveListing(tables.orders, rows.value)
    {
      if fails {
        return None;
      }
      var active := ActiveRows(tables.orders);
      var left := active.Keys;
      var listing: seq<Order> := [];
      ActiveListing(tables.orders, []);
      hide ActiveRows, IsActiveListing, Listed;
      while left != {}
        invariant left <= active.Keys && Listed(active, left, listing)
        decreases left
      {
        OldestOrder(active, left);
        var next :| next in left && forall id :: id in left ==> active[next].createdAt <= active[id].createdAt;
        ListNext(active, left, listing, next);
        listing := listing + [active[next]];
        left := left - {next};
      }
      ActiveListing(tables.orders, listing);
      rows := Some(listing);
    }
  }
}
