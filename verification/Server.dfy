/** The request handlers that check a request before they call the storage, and build the answer from its results. */
module OrderServer {
  import opened Model
  import opened StorageSpec
  import opened StorageService

  datatype Response = Done | BadRequest | NoSuchOrder | InternalError

  /**
   `storageUntil` is None when the date does not parse, `wrapper` when no packaging accepts the
   weight; `price` is the adjusted price.
   */
  datatype CreateRequest = CreateRequest(
    id: string, recipientId: string, storageUntil: Option<Time>, wrapper: Option<string>, price: int, weight: real)

  datatype CreateClock = CreateClock(checkedAt: Time, createdAt: Time, updatedAt: Time, at: Time, loggedAt: Time)

  function Requested(req: CreateRequest, clock: CreateClock): Order
    requires req.storageUntil.Some? && req.wrapper.Some?
  {
    Order(req.id, req.recipientId, req.storageUntil.value, Received, req.price, req.weight, req.wrapper.value,
          clock.createdAt, clock.updatedAt)
  }

  function CreateRun(s: State, req: CreateRequest, clock: CreateClock, f: Faults): (State, Response) {
    if req.storageUntil == None || req.storageUntil.value < clock.checkedAt || req.wrapper == None then (s, BadRequest)
    else
      var order := Requested(req, clock);
      var done := Settle(s, f, AddOrderBody(s.db, order, clock.at, clock.loggedAt, f));
      (done.state, if done.err.Some? then InternalError else Done)
  }

  /** An order goes back to the courier only when it was never issued and its storage period is over. */
  function GuardedDeleteRun(s: State, id: string, now: Time, loggedAt: Time, f: Faults): (State, Response) {
    if id == "" then (s, BadRequest)
    else
      var read := GetOrderRun(s, id, f);
      if !read.answer.Answered? then (read.state, NoSuchOrder)
      else if read.answer.order.status != Received then (read.state, BadRequest)
      else if now < read.answer.order.storageUntil then (read.state, BadRequest)
      else
        var done := Settle(read.state, f, DeleteOrderBody(read.state.db, id, loggedAt, f));
        (done.state, if done.err.Some? then InternalError else Done)
  }

  /**
   What the bulk handlers answer for every id: the map is filled in the order of the results, so
   the last one stays.
   */
  function Responses(results: seq<ItemResult>): map<string, ItemResult> {
    if |results| == 0 then map[]
    else
      var last := results[|results| - 1];
      Responses(results[..|results| - 1])[last.orderId := last]
  }

  datatype BulkResponse = BulkResponse(status: Response, items: map<string, ItemResult>)

  function BulkHandled(
      s: State, mode: Mode, user: string, ids: seq<string>, now: Time, clock: nat -> Time, f: Faults)
    : (State, BulkResponse)
  {
    if user == "" || |ids| == 0 then (s, BulkResponse(BadRequest, map[]))
    else
      var r := BulkRun(s, mode, user, ids, now, clock, f);
      (r.state, if r.err.Some? then BulkResponse(InternalError, map[]) else BulkResponse(Done, Responses(r.results)))
  }

  method FillResponses(results: seq<ItemResult>) returns (items: map<string, ItemResult>)
    ensures items == Responses(results)
  {
    items := map[];
    for i := 0 to |results|
      invariant items == Responses(results[..i])
    {
      assert results[..i + 1][..i] == results[..i];
      items := items[results[i].orderId := results[i]];
    }
    assert results[..|results|] == results;
  }

  class Server {
    const storage: Storage

    constructor (storage: Storage)
      ensures this.storage == storage
    {
      this.storage := storage;
    }

    method HandleCreateOrder(req: CreateRequest, clock: CreateClock, f: Faults) returns (response: Response)
      requires storage.Valid()
      modifies storage.db, storage.cache
      ensures storage.Valid()
      ensures (storage.View(), response) == CreateRun(old(storage.View()), req, clock, f)
    {
      if req.storageUntil == None || req.storageUntil.value < clock.checkedAt {
        return BadRequest;
      }
      if req.wrapper == None {
        return BadRequest;
      }
      var err := storage.AddOrder(Requested(req, clock), clock.at, clock.loggedAt, f);
      response := if err.Some? then InternalError else Done;
    }

    method HandleDeleteOrder(id: string, now: Time, loggedAt: Time, f: Faults) returns (response: Response)
      requires storage.Valid()
      modifies storage.db, storage.cache
      ensures storage.Valid()
      ensures (storage.View(), response) == GuardedDeleteRun(old(storage.View()), id, now, loggedAt, f)
    {
      if id == "" {
        return BadRequest;
      }
      var answer := storage.GetOrder(id, f);
      if !answer.Answered? {
        return NoSuchOrder;
      }
      if answer.order.status != Received {
        return BadRequest;
      }
      if now < answer.order.storageUntil {
        return BadRequest;
      }
      var err := storage.DeleteOrder(id, loggedAt, f);
      response := if err.Some? then InternalError else Done;
    }

    method HandleIssueOrders(
        user: string, ids: seq<string>, now: Time, clock: nat -> Time, f: Faults) returns (response: BulkResponse)
      requires storage.Valid()
      modifies storage.db, storage.cache
      ensures storage.Valid()
      ensures (storage.View(), response) == BulkHandled(old(storage.View()), Issuing, user, ids, now, clock, f)
    {
      if user == "" || |ids| == 0 {
        return BulkResponse(BadRequest, map[]);
      }
      var results, err := storage.IssueOrders(user, ids, now, clock, f);
      var items := FillResponses(results);
      response := if err.Some? then BulkResponse(InternalError, map[]) else BulkResponse(Done, items);
    }

    method HandleAcceptReturns(
        user: string, ids: seq<string>, now: Time, clock: nat -> Time, f: Faults) returns (response: BulkResponse)
      requires storage.Valid()
      modifies storage.db, storage.cache
      ensures storage.Valid()
      ensures (storage.View(), response) == BulkHandled(old(storage.View()), Accepting, user, ids, now, clock, f)
    {
      if user == "" || |ids| == 0 {
        return BulkResponse(BadRequest, map[]);
      }
      var results, err := storage.AcceptReturns(user, ids, now, clock, f);
      var items := FillResponses(results);
      response := if err.Some? then BulkResponse(InternalError, map[]) else BulkResponse(Done, items);
    }
  }
}
