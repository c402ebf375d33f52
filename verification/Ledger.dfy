/**
 The table changes that one committed transaction makes, as a list of events, and the
 invariants that every sequence of enabled events keeps between the orders, the history,
 the return rows and the audit tasks.
 */
module Ledger {
  import opened Model

  datatype ReturnPath = Direct | Bulk

  datatype Kind =
    | SetStatus(status: Status)
    | Issue(user: string)
    | TakeBack(user: string, path: ReturnPath, checkedAt: Time, returnedAt: Time)

  /**
   One change to one order. `before` is the row image that the transaction read: the update
   writes every column back from it, so an outdated image would overwrite somebody's change.
   `existed` says whether the DELETE found a row.
   */
  datatype Event =
    | Created(order: Order, at: Time, loggedAt: Time)
    | Changed(before: Order, kind: Kind, at: Time, loggedAt: Time)
    | Removed(id: string, existed: bool, loggedAt: Time)

  function IdOf(e: Event): string {
    match e
    case Created(order, _, _) => order.id
    case Changed(before, _, _, _) => before.id
    case Removed(id, _, _) => id
  }

  function Target(kind: Kind): Status {
    match kind
    case SetStatus(status) => status
    case Issue(_) => Issued
    case TakeBack(_, _, _, _) => Returned
  }

  /** The row image that the transaction writes. */
  function After(before: Order, kind: Kind, at: Time): Order {
    before.(status := Target(kind), updatedAt := at)
  }

  /** What the operations check on the row they read before they change it. */
  predicate Guard(row: Order, kind: Kind, at: Time) {
    match kind
    case SetStatus(status) => row.status != status
    case Issue(user) => row.recipientId == user && row.status == Received && at <= row.storageUntil
    case TakeBack(user, _, checkedAt, _) =>
      row.recipientId == user && row.status == Issued && checkedAt - row.updatedAt <= RETURN_WINDOW
  }

  /** The event is what the code would do on the rows of `db`: its row image is the current row. */
  predicate Enabled(db: Db, e: Event) {
    match e
    case Created(order, _, _) => order.id !in db.orders
    case Changed(before, kind, at, _) =>
      before.id in db.orders && db.orders[before.id] == before && Guard(before, kind, at)
    case Removed(id, existed, _) => existed ==> id in db.orders
  }

  function ActionOf(kind: Kind): Action {
    match kind
    case SetStatus(_) => StatusUpdated
    case Issue(_) => OrderIssued
    case TakeBack(_, path, _, _) => if path == Direct then OrderReturned else OrderReturnAccepted
  }

  function AuditOf(e: Event): Payload {
    match e
    case Created(order, _, _) => CreateAuditPayload(OrderCreated, order.id, map[StatusKey := order.status])
    case Changed(before, kind, _, _) =>
      CreateAuditPayload(ActionOf(kind), before.id,
                         map[OldStatusKey := before.status, NewStatusKey := Target(kind)])
    case Removed(id, _, _) => CreateAuditPayload(OrderDeleted, id, map[])
  }

  // Rows by order id, for the history and the returns table alike.

  function HistoryKey(h: HistoryEntry): string { h.orderId }

  function ReturnKey(r: ReturnEntry): string { r.orderId }

  function RowsOf<T>(rows: seq<T>, key: T -> string, id: string): seq<T> {
    if |rows| == 0 then []
    else
      var rest := RowsOf(rows[..|rows| - 1], key, id);
      var last := rows[|rows| - 1];
      if key(last) == id then rest + [last] else rest
  }

  function RowsExcept<T>(rows: seq<T>, key: T -> string, id: string): seq<T> {
    if |rows| == 0 then []
    else
      var rest := RowsExcept(rows[..|rows| - 1], key, id);
      var last := rows[|rows| - 1];
      if key(last) == id then rest else rest + [last]
  }

  function History(db: Db, id: string): seq<HistoryEntry> {
    RowsOf(db.history, HistoryKey, id)
  }

  function Returns(db: Db, id: string): seq<ReturnEntry> {
    RowsOf(db.returnRows, ReturnKey, id)
  }

  // What an event does to the tables.

  function HistoryRow(e: Event): seq<HistoryEntry> {
    match e
    case Created(order, at, _) => [HistoryEntry(order.id, order.status, at)]
    case Changed(before, kind, at, _) => [HistoryEntry(before.id, Target(kind), at)]
    case Removed(_, _, _) => []
  }

  function ReturnRow(e: Event): seq<ReturnEntry> {
    if e.Changed? && e.kind.TakeBack?
    then [ReturnEntry(e.before.id, e.kind.user, e.kind.returnedAt)]
    else []
  }

  /** DELETE of an order row, with ON DELETE CASCADE on its history and its returns. */
  function DeleteCascade(db: Db, id: string): Db {
    db.(orders := db.orders - {id},
        history := RowsExcept(db.history, HistoryKey, id),
        returnRows := RowsExcept(db.returnRows, ReturnKey, id))
  }

  function PutRow(db: Db, order: Order): Db {
    db.(orders := db.orders[order.id := order])
  }

  function ApplyRows(db: Db, e: Event): Db {
    match e
    case Created(order, _, _) => PutRow(db, order).(history := db.history + HistoryRow(e))
    case Changed(before, kind, at, _) =>
      PutRow(db, After(before, kind, at)).(history := db.history + HistoryRow(e),
                                          returnRows := db.returnRows + ReturnRow(e))
    case Removed(id, existed, _) => if existed then DeleteCascade(db, id) else db
  }

  function TaskOf(e: Event): Task {
    NewTask(AuditOf(e), e.loggedAt)
  }

  function Apply(db: Db, e: Event): Db {
    ApplyRows(db, e).(outbox := db.outbox + [TaskOf(e)])
  }

  function ApplyAll(db: Db, es: seq<Event>): Db {
    if |es| == 0 then db else Apply(ApplyAll(db, es[..|es| - 1]), es[|es| - 1])
  }

  function Tasks(es: seq<Event>): (tasks: seq<Task>)
    ensures |tasks| == |es| && forall i :: 0 <= i < |es| ==> tasks[i] == TaskOf(es[i])
  {
    seq(|es|, i requires 0 <= i < |es| => TaskOf(es[i]))
  }

  /** The rows change event by event, the tasks may as well be appended at the end. */
  function ApplyRowsAll(db: Db, es: seq<Event>): Db {
    if |es| == 0 then db else ApplyRows(ApplyRowsAll(db, es[..|es| - 1]), es[|es| - 1])
  }

  lemma {:induction false} TasksAtTheEnd(db: Db, es: seq<Event>)
    ensures ApplyAll(db, es) == ApplyRowsAll(db, es).(outbox := db.outbox + Tasks(es))
    ensures ApplyRowsAll(db, es).outbox == db.outbox
  {
    if |es| == 0 {
      assert db.outbox + Tasks(es) == db.outbox;
    } else {
      TasksAtTheEnd(db, es[..|es| - 1]);
      assert Tasks(es) == Tasks(es[..|es| - 1]) + [TaskOf(es[|es| - 1])];
      assert db.outbox + Tasks(es) == db.outbox + Tasks(es[..|es| - 1]) + [TaskOf(es[|es| - 1])];
    }
  }

  predicate AllEnabled(db: Db, es: seq<Event>) {
    |es| == 0 ||
    (AllEnabled(db, es[..|es| - 1]) && Enabled(ApplyAll(db, es[..|es| - 1]), es[|es| - 1]))
  }

  lemma {:induction false} ApplySnoc(db: Db, es: seq<Event>, e: Event)
    ensures ApplyAll(db, es + [e]) == Apply(ApplyAll(db, es), e)
    ensures AllEnabled(db, es + [e]) <==> AllEnabled(db, es) && Enabled(ApplyAll(db, es), e)
  {
    assert (es + [e])[..|es|] == es;
  }

  lemma ApplyNone(db: Db)
    ensures ApplyAll(db, []) == db
  {
  }

  lemma {:induction false} ApplyOne(db: Db, e: Event)
    ensures ApplyAll(db, [e]) == Apply(db, e)
    ensures AllEnabled(db, [e]) <==> Enabled(db, e)
  {
    assert [e][..0] == [];
  }

  // Changes of one kind at one time.

  predicate Uniform(es: seq<Event>, kind: Kind, at: Time) {
    forall i :: 0 <= i < |es| ==> es[i].Changed? && es[i].kind == kind && es[i].at == at
  }

  function IdsOf(es: seq<Event>): (ids: seq<string>)
    ensures |ids| == |es| && forall i :: 0 <= i < |es| ==> ids[i] == IdOf(es[i])
  {
    seq(|es|, i requires 0 <= i < |es| => IdOf(es[i]))
  }

  function RowOf(db: Db, id: string): Option<Order> {
    if id in db.orders then Some(db.orders[id]) else None
  }

  /** No order is changed twice, and every order is changed from the row it had in `db`. */
  ghost predicate ChangedOnce(db: Db, es: seq<Event>, db': Db, kind: Kind, at: Time) {
    && Uniform(es, kind, at)
    && (forall i :: 0 <= i < |es| ==>
          && RowOf(db, IdOf(es[i])) == Some(es[i].before) && Guard(es[i].before, kind, at)
          && RowOf(db', IdOf(es[i])) == Some(After(es[i].before, kind, at)))
    && (forall id :: id !in IdsOf(es) ==> RowOf(db', id) == RowOf(db, id))
    && (forall i, j :: 0 <= i < j < |es| ==> IdOf(es[i]) != IdOf(es[j]))
  }

  lemma {:induction false} ChangedOnceMore(db: Db, es: seq<Event>, e: Event, db': Db, kind: Kind, at: Time)
    requires ChangedOnce(db, es, db', kind, at) && Enabled(db', e) && Uniform([e], kind, at)
    ensures ChangedOnce(db, es + [e], Apply(db', e), kind, at)
  {
    assert [e][0] == e;
    assert IdsOf(es + [e]) == IdsOf(es) + [IdOf(e)];
    assert IdOf(e) !in IdsOf(es);
  }

  lemma UniformFront(db: Db, es: seq<Event>, kind: Kind, at: Time)
    requires |es| > 0 && Uniform(es, kind, at) && AllEnabled(db, es)
    ensures var front, e := es[..|es| - 1], es[|es| - 1];
            && es == front + [e] && ApplyAll(db, es) == Apply(ApplyAll(db, front), e)
            && Uniform(front, kind, at) && Uniform([e], kind, at)
            && AllEnabled(db, front) && Enabled(ApplyAll(db, front), e)
  {
  }

  lemma {:induction false} UniformRows(db: Db, es: seq<Event>, kind: Kind, at: Time)
    requires Uniform(es, kind, at) && AllEnabled(db, es)
    ensures ChangedOnce(db, es, ApplyAll(db, es), kind, at)
  {
    if |es| > 0 {
      var front, e := es[..|es| - 1], es[|es| - 1];
      hide Apply, ApplyAll, Enabled, AllEnabled, ChangedOnce, Uniform;
      UniformFront(db, es, kind, at);
      UniformRows(db, front, kind, at);
      ChangedOnceMore(db, front, e, ApplyAll(db, front), kind, at);
    }
  }

  // The invariants.

  /** The old statuses that the audit tasks report since the order was last created. */
  function AuditTrail(outbox: seq<Task>, id: string): seq<Status> {
    if |outbox| == 0 then []
    else
      var rest := AuditTrail(outbox[..|outbox| - 1], id);
      var p := outbox[|outbox| - 1].payload;
      if p.entityId != id || p.action == OrderDeleted then rest
      else if p.action == OrderCreated then []
      else rest + [p.oldStatus]
  }

  function Statuses(h: seq<HistoryEntry>): (r: seq<Status>)
    ensures |r| == |h| && forall i :: 0 <= i < |h| ==> r[i] == h[i].status
  {
    seq(|h|, i requires 0 <= i < |h| => h[i].status)
  }

  function CountReturned(h: seq<Status>): nat {
    if |h| == 0 then 0 else CountReturned(h[..|h| - 1]) + if h[|h| - 1] == Returned then 1 else 0
  }

  /** Everything the database holds about one order. */
  datatype Dossier = Dossier(
    row: Option<Order>,
    history: seq<HistoryEntry>,
    returned: seq<ReturnEntry>,
    trail: seq<Status>)

  function DossierOf(db: Db, id: string): Dossier {
    Dossier(RowOf(db, id), History(db, id), Returns(db, id), AuditTrail(db.outbox, id))
  }

  /**
   The history replays the row: it ends in the row's status, no two neighbours are equal, and
   the audit tasks of this incarnation report exactly the statuses it went through before.
   */
  predicate HistoryReplays(d: Dossier)
    requires d.row.Some?
  {
    var h := Statuses(d.history);
    && |h| > 0
    && h[|h| - 1] == d.row.value.status
    && (forall i :: 0 < i < |h| ==> h[i - 1] != h[i])
    && d.trail == h[..|h| - 1]
  }

  /** Return rows belong to the recipient and never outnumber the returned entries. */
  predicate ReturnsBelong(d: Dossier)
    requires d.row.Some?
  {
    && (forall i :: 0 <= i < |d.returned| ==> d.returned[i].userId == d.row.value.recipientId)
    && |d.returned| <= CountReturned(Statuses(d.history))
  }

  predicate OrderOk(d: Dossier, id: string) {
    match d.row
    case Some(row) => row.id == id && HistoryReplays(d) && ReturnsBelong(d)
    case None => d.history == [] && d.returned == []
  }

  ghost predicate DbOk(db: Db) {
    forall id :: OrderOk(DossierOf(db, id), id)
  }

  /**
   The life of an order that was created as received and whose status nobody overwrites.
   `slack` bounds how far the clock moved inside an AddReturn of this order.
   */
  predicate LifeOk(d: Dossier, slack: nat) {
    d.row.Some? ==>
      var o, h, r := d.row.value, d.history, d.returned;
      match o.status
      case Received => Statuses(h) == [Received] && r == []
      case Issued =>
        && Statuses(h) == [Received, Issued] && r == []
        && h[1].changedAt == o.updatedAt <= o.storageUntil
      case Returned =>
        && Statuses(h) == [Received, Issued, Returned] && |r| == 1
        && h[1].changedAt <= o.storageUntil
        && h[2].changedAt - h[1].changedAt <= RETURN_WINDOW + slack
        && 0 <= r[0].returnedAt - h[2].changedAt <= slack
      case Custom(_) => false
  }

  /** How far the clock may move inside an AddReturn, order by order. */
  type Slack = string -> nat

  const NO_SLACK: Slack := (id: string) => 0

  ghost predicate LivesOk(db: Db, slack: Slack) {
    forall id :: LifeOk(DossierOf(db, id), slack(id))
  }

  /** No status is set by hand, orders start as received, and one call sees the clock move by at most `slack`. */
  predicate Calm(e: Event, slack: nat) {
    match e
    case Created(order, _, _) => order.status == Received
    case Changed(_, kind, at, _) =>
      (match kind
       case SetStatus(_) => false
       case Issue(_) => true
       case TakeBack(_, _, checkedAt, returnedAt) => at - checkedAt <= slack && 0 <= returnedAt - at <= slack)
    case Removed(_, _, _) => true
  }

  predicate AllCalm(es: seq<Event>, slack: Slack) {
    forall i :: 0 <= i < |es| ==> Calm(es[i], slack(IdOf(es[i])))
  }

  // How one event changes what the invariants look at.

  lemma {:induction false} RowsOfAppend<T>(rows: seq<T>, row: T, key: T -> string, id: string)
    ensures RowsOf(rows + [row], key, id) == RowsOf(rows, key, id) + if key(row) == id then [row] else []
  {
    assert (rows + [row])[..|rows|] == rows;
  }

  lemma {:induction false} RowsOfExcept<T>(rows: seq<T>, key: T -> string, gone: string, id: string)
    ensures RowsOf(RowsExcept(rows, key, gone), key, id) == if id == gone then [] else RowsOf(rows, key, id)
  {
    if |rows| > 0 {
      var rest, last := rows[..|rows| - 1], rows[|rows| - 1];
      RowsOfExcept(rest, key, gone, id);
      if key(last) != gone {
        RowsOfAppend(RowsExcept(rest, key, gone), last, key, id);
      }
    }
  }

  /** What one event does to the dossier of its own order. */
  function Amend(d: Dossier, e: Event): Dossier {
    match e
    case Created(order, _, _) => Dossier(Some(order), d.history + HistoryRow(e), d.returned, [])
    case Changed(before, kind, at, _) =>
      Dossier(Some(After(before, kind, at)), d.history + HistoryRow(e), d.returned + ReturnRow(e),
          d.trail + [before.status])
    case Removed(_, existed, _) => if existed then Dossier(None, [], [], d.trail) else d
  }

  lemma {:induction false} ApplyHistory(db: Db, e: Event, id: string)
    ensures History(Apply(db, e), id) ==
            if IdOf(e) != id then History(db, id) else Amend(DossierOf(db, id), e).history
  {
    match e
    case Removed(gone, _, _) => RowsOfExcept(db.history, HistoryKey, gone, id);
    case _ => RowsOfAppend(db.history, HistoryRow(e)[0], HistoryKey, id);
  }

  lemma {:induction false} ApplyReturns(db: Db, e: Event, id: string)
    ensures Returns(Apply(db, e), id) ==
            if IdOf(e) != id then Returns(db, id) else Amend(DossierOf(db, id), e).returned
  {
    if e.Removed? {
      RowsOfExcept(db.returnRows, ReturnKey, e.id, id);
    } else if ReturnRow(e) == [] {
      assert db.returnRows + [] == db.returnRows;
    } else {
      RowsOfAppend(db.returnRows, ReturnRow(e)[0], ReturnKey, id);
    }
  }

  lemma {:induction false} ApplyTrail(db: Db, e: Event, id: string)
    ensures AuditTrail(Apply(db, e).outbox, id) ==
            if IdOf(e) != id then AuditTrail(db.outbox, id) else Amend(DossierOf(db, id), e).trail
  {
    assert Apply(db, e).outbox[..|db.outbox|] == db.outbox;
  }

  /** An event changes the dossier of one order and no other. */
  lemma {:induction false} ApplyAmends(db: Db, e: Event, id: string)
    ensures DossierOf(Apply(db, e), id) == if IdOf(e) == id then Amend(DossierOf(db, id), e) else DossierOf(db, id)
  {
    ApplyHistory(db, e, id);
    ApplyReturns(db, e, id);
    ApplyTrail(db, e, id);
    var d := DossierOf(Apply(db, e), id);
    assert d.row == if IdOf(e) == id then Amend(DossierOf(db, id), e).row else RowOf(db, id);
  }

  /** `Enabled`, as seen from the dossier of the event's order. */
  predicate Fits(d: Dossier, e: Event) {
    match e
    case Created(_, _, _) => d.row == None
    case Changed(before, kind, at, _) => d.row == Some(before) && Guard(before, kind, at)
    case Removed(_, existed, _) => existed ==> d.row.Some?
  }

  lemma {:induction false} CountReturnedAppend(h: seq<Status>, x: Status)
    ensures CountReturned(h + [x]) == CountReturned(h) + if x == Returned then 1 else 0
  {
    assert (h + [x])[..|h|] == h;
  }

  lemma {:induction false} ReplayAppend(h: seq<Status>, x: Status, trail: seq<Status>, old': Status)
    requires |h| > 0 && h[|h| - 1] == old' != x && trail == h[..|h| - 1]
    requires forall i :: 0 < i < |h| ==> h[i - 1] != h[i]
    ensures trail + [old'] == (h + [x])[..|h|]
    ensures forall i :: 0 < i < |h + [x]| ==> (h + [x])[i - 1] != (h + [x])[i]
  {
    assert h == h[..|h| - 1] + [old'];
  }

  lemma {:induction false} ChangeKeepsOrder(d: Dossier, e: Event)
    requires e.Changed? && OrderOk(d, IdOf(e)) && Fits(d, e)
    ensures OrderOk(Amend(d, e), IdOf(e))
  {
    var h, x, d' := Statuses(d.history), Target(e.kind), Amend(d, e);
    assert Statuses(d'.history) == h + [x];
    ReplayAppend(h, x, d.trail, e.before.status);
    CountReturnedAppend(h, x);
  }

  lemma {:induction false} AmendKeepsOrder(d: Dossier, e: Event)
    requires OrderOk(d, IdOf(e)) && Fits(d, e)
    ensures OrderOk(Amend(d, e), IdOf(e))
  {
    match e
    case Created(_, _, _) => assert Statuses(Amend(d, e).history) == [e.order.status];
    case Changed(_, _, _, _) => ChangeKeepsOrder(d, e);
    case Removed(_, _, _) =>
  }

  /** A calm event keeps a life inside the three-step lifecycle and its deadlines. */
  lemma {:induction false} AmendKeepsLife(d: Dossier, e: Event, slack: nat)
    requires OrderOk(d, IdOf(e)) && LifeOk(d, slack) && Fits(d, e) && Calm(e, slack)
    ensures LifeOk(Amend(d, e), slack)
  {
    if !e.Removed? {
      var x := HistoryRow(e)[0];
      assert Statuses(Amend(d, e).history) == Statuses(d.history) + [x.status];
    }
  }

  lemma {:induction false} ApplyKeepsDb(db: Db, e: Event)
    requires DbOk(db) && Enabled(db, e)
    ensures DbOk(Apply(db, e))
  {
    forall id ensures OrderOk(DossierOf(Apply(db, e), id), id) {
      assert OrderOk(DossierOf(db, id), id);
      ApplyAmends(db, e, id);
      if IdOf(e) == id {
        AmendKeepsOrder(DossierOf(db, id), e);
      }
    }
  }

  lemma {:induction false} ApplyKeepsLives(db: Db, e: Event, slack: Slack)
    requires DbOk(db) && LivesOk(db, slack) && Enabled(db, e) && Calm(e, slack(IdOf(e)))
    ensures LivesOk(Apply(db, e), slack)
  {
    forall id ensures LifeOk(DossierOf(Apply(db, e), id), slack(id)) {
      assert OrderOk(DossierOf(db, id), id) && LifeOk(DossierOf(db, id), slack(id));
      ApplyAmends(db, e, id);
      if IdOf(e) == id {
        AmendKeepsLife(DossierOf(db, id), e, slack(id));
      }
    }
  }

  /** Any sequence of enabled events keeps every order's history, audit trail and return rows consistent. */
  lemma {:induction false} ApplyAllKeepsDb(db: Db, es: seq<Event>)
    requires DbOk(db) && AllEnabled(db, es)
    ensures DbOk(ApplyAll(db, es))
  {
    if |es| > 0 {
      ApplyAllKeepsDb(db, es[..|es| - 1]);
      ApplyKeepsDb(ApplyAll(db, es[..|es| - 1]), es[|es| - 1]);
    }
  }

  /** Any sequence of enabled calm events keeps every order inside the lifecycle and its deadlines. */
  lemma {:induction false} ApplyAllKeepsLives(db: Db, es: seq<Event>, slack: Slack)
    requires DbOk(db) && LivesOk(db, slack) && AllEnabled(db, es) && AllCalm(es, slack)
    ensures LivesOk(ApplyAll(db, es), slack)
  {
    if |es| > 0 {
      ApplyAllKeepsLives(db, es[..|es| - 1], slack);
      ApplyAllKeepsDb(db, es[..|es| - 1]);
      ApplyKeepsLives(ApplyAll(db, es[..|es| - 1]), es[|es| - 1], slack);
    }
  }

  lemma EmptyDbOk(slack: Slack)
    ensures DbOk(EMPTY_DB) && LivesOk(EMPTY_DB, slack)
  {
  }
}
