/** The rows of the four tables, the statuses an order goes through and the audit payload. */
module Model {

  datatype Option<+T> = None | Some(value: T)

  /** Instants and durations in nanoseconds; never rounded. */
  type Time = int

  /** A finite choice always has an oldest candidate. */
  lemma {:induction false} OldestOf<T>(stamps: map<T, Time>) returns (oldest: T)
    requires stamps.Keys != {}
    ensures oldest in stamps && forall x :: x in stamps ==> stamps[oldest] <= stamps[x]
    decreases stamps.Keys
  {
    var some :| some in stamps.Keys;
    var others := stamps - {some};
    assert others.Keys == stamps.Keys - {some};
    assert forall x :: x in stamps ==> x == some || (x in others.Keys && others[x] == stamps[x]);
    oldest := some;
    if others.Keys != {} {
      var next := OldestOf(others);
      oldest := if stamps[some] <= stamps[next] then some else next;
    }
  }

  const RETURN_WINDOW: Time := 48 * 3_600_000_000_000

  /** The status column is free text: `Custom` holds every text other than the three the code names. */
  datatype Status = Received | Issued | Returned | Custom(text: string)

  const NO_STATUS: Status := Custom("")

  predicate IsActive(status: Status) {
    status == Received || status == Issued
  }

  datatype Order = Order(
    id: string,
    recipientId: string,
    storageUntil: Time,
    status: Status,
    price: int,
    weight: real,
    wrapper: string,
    createdAt: Time,
    updatedAt: Time)

  datatype HistoryEntry = HistoryEntry(orderId: string, status: Status, changedAt: Time)

  datatype ReturnEntry = ReturnEntry(orderId: string, userId: string, returnedAt: Time)

  datatype Action = OrderCreated | StatusUpdated | OrderDeleted | OrderReturned | OrderIssued | OrderReturnAccepted

  /** `oldStatus` and `newStatus` are empty when the details did not name them. */
  datatype Payload = Payload(action: Action, entityId: string, oldStatus: Status, newStatus: Status)

  datatype TaskStatus = CREATED | PROCESSING | FAILED | DONE

  datatype Task = Task(
    topic: string,
    payload: Payload,
    status: TaskStatus,
    attempts: nat,
    lastError: Option<string>,
    createdAt: Time,
    updatedAt: Time,
    completedAt: Option<Time>)

  /** A task's identifier is its position in `outbox`: tasks are never deleted. */
  datatype Db = Db(
    orders: map<string, Order>,
    history: seq<HistoryEntry>,
    returnRows: seq<ReturnEntry>,
    outbox: seq<Task>)

  const EMPTY_DB: Db := Db(map[], [], [], [])

  const AUDIT_TOPIC: string := "audit_logs"

  /** The keys that callers put into the details of an audit record. */
  datatype DetailKey = StatusKey | OldStatusKey | NewStatusKey

  /** Only `status` and `old_status` are looked up; a `new_status` detail is ignored. */
  function CreateAuditPayload(action: Action, entityId: string, details: map<DetailKey, Status>): Payload {
    Payload(action, entityId,
            if OldStatusKey in details then details[OldStatusKey] else NO_STATUS,
            if StatusKey in details then details[StatusKey] else NO_STATUS)
  }

  function NewTask(payload: Payload, at: Time): Task {
    Task(AUDIT_TOPIC, payload, CREATED, 0, None, at, at, None)
  }
}
