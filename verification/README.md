# The order store and its outbox publisher

This project models the pick-up point service of `hw-1`: the transactional order store with its
in-memory cache, order history, return rows and audit outbox, and the publisher that delivers the
outbox. It proves what holds between these five pieces of state under every fault, for requests
served one after the other and for every interleaving of overlapping requests, publisher steps and
restarts.

## The two models and how they meet

* **The sequential store.** `Tables`, `OrderCaching`, `StorageService`, `OrderServer` and
  `PublisherService` keep the form of the source: classes whose methods change fields step by step,
  with the source's loops and early exits. Every database call, commit and send asks a fault
  schedule (`Faults`, `PubFaults`) whether it fails, and clock readings are parameters, one for each
  place where the source reads the clock. Each method is proved equal to a specification function
  in `StorageSpec`, `OrderServer` or `PublisherSpec`; the theorems are about those functions.
* **The interleaved system.** `SystemSpec` runs any number of operations at once, in the steps begin,
  locked read, staged write, commit or rollback, and one cache update at a time after the commit;
  GetOrder is a cache miss, a read of the table and a late cache update. A bulk operation collects
  its results as it goes. The publisher's steps and restarts of the whole process happen in between.
* `Ledger` is what both share: the events that a transaction commits, and the invariants between
  order rows, history, return rows and audit tasks that every sequence of enabled events keeps.
  `Refinement` proves that every sequential run, with any faults, is a run of the interleaved
  system, and `PublisherService.BatchIsRun` that every call of processBatch is a run of the
  publisher's machine.

* `OperationAnswers`, `BulkAnswers` and `ResponseTheorems` say once more what every operation and
  handler answers and writes, for every fault, directly in terms of the tables, the cache, the clock
  and the calls that fail, without the specification functions. `OutboxOrder` connects the inserts of
  the store with the oldest-first select of the publisher.

Inductive proofs are written out: no lemma relies on Dafny's automatic induction.

## What the code does that a reader may not expect

* The error of a failed commit is assigned after the return value was fixed, so the caller sees no
  error (`SingleAccurate`, `CreatedExact`, `DeletedExact` say exactly when "no error" means
  "committed"). In the bulk operations the flags of the shared slice are still corrected, so the
  results stay true whether the commit succeeds or fails (`BulkAccurate`, and under overlap
  `AnswersTrue`). After a hard error in a bulk loop the flags are not corrected (`FlagsOnError`).
* The JSON answer of the bulk handlers has one line per id, so an id that is repeated is reported
  with its last result: an order that was issued reads as failed (`ResponseExact`).
* The audit record looks up `status` and `old_status`, while the callers pass `new_status`: the new
  status of a change is lost (`NewStatusLost`).
* AddReturn reads the clock again after its deadline check, so it can stamp a return later than 48
  hours after the issue (`LateReturn`, `ReturnWindowExact`). An order that AcceptReturns took back is
  exact as long as no status is set by hand (`LifecycleExact`).
* A bulk operation reads its clock once, before it reads its rows, so an order can be shown as issued
  before it was received (`IssuedBeforeReceived`). Requests served one after the other under an
  advancing clock are always shown in order (`AdvancingRunsIncrease`); an overlapping commit breaks
  the order exactly if it is stamped no later than some entry of its order (`StampsExact`).
* The cache mirrors the table as long as requests do not overlap. When they do, a late cache update
  may leave an old version (`StaleCache`). That can happen after a commit exactly if it changes an
  order of which another thread still carries a version to the cache (`OverlapExact`).
* The guard of the courier's delete does not protect the return rows by itself. One after the other,
  create, issue, return, a status set back to `received` by hand and the guarded delete lose a return
  row (`ReopenedRun`). The guard can lose one exactly if a received order has one (`GuardExact`), and
  the only request that brings return rows to an order that is not returned is an UpdateOrderStatus
  over an order that has some (`RequestKeptExact`). Without such a request nothing is lost
  (`RunKeepsReturns`), unless requests overlap: then the order may be issued and taken back between
  the guard and the delete (`GuardRaces`, `DeleteLosesExactly`).
* A task whose batch was interrupted, or whose report was lost, stays PROCESSING and is never
  selected again (`StrandedForever`, `LostExactly`), so delivery is at most once, not at least once.
* A comment in the outbox repository says that a trigger maintains `updated_at`. No migration defines
  one, so the model leaves the column alone. The retry limit is the 5 of the select, not the
  configured maximum, which is only logged.

## Model

| member | source | states |
|---|---|---|
| OrderCaching.OrderCache.LoadInitialData | hw-1/internal/cache/order_cache.go:28-43 | stores the rows of the listing one after the other; a failed query changes nothing and is reported |
| OrderCaching.OrderCache.Get | hw-1/internal/cache/order_cache.go:45-54 | answers with the entry of the id, or with nothing |
| OrderCaching.OrderCache.Set | hw-1/internal/cache/order_cache.go:56-67 | an active order replaces its entry, any other order loses it, no other entry changes |
| OrderCaching.OrderCache.Delete | hw-1/internal/cache/order_cache.go:69-76 | the entry of the id is gone, every other stays |
| OrderCaching.LoadMirrors | hw-1/cmd/main.go:59-64 | a successful load makes the cache exactly the received and issued rows of the table |
| Tables.Transaction.InsertOrder | hw-1/internal/repository/postgresql/order.go:32-39 | fails on a used id and changes nothing then; the id is the primary key |
| Tables.Transaction.GetByID | hw-1/internal/repository/postgresql/order.go:115-125 | the row as this transaction sees it, no row, or an error |
| Tables.Transaction.UpdateOrder | hw-1/internal/repository/postgresql/order.go:69-83 | writes every column but the creation time, and an absent row is no error |
| Tables.Transaction.DeleteOrder | hw-1/internal/repository/postgresql/order.go:90-93 | removes the row with its history and its returns; an absent row is no error and no change |
| Tables.Transaction.InsertHistory | hw-1/internal/repository/postgresql/history.go:27-34 | appends an entry; fails without the order's row |
| Tables.Transaction.InsertReturn | hw-1/internal/repository/postgresql/return.go:27-34 | appends a return row; fails without the order's row |
| Tables.Transaction.InsertTask | hw-1/internal/repository/postgresql/outbox_task.go:22-43 | appends a CREATED task without attempts, error or completion time, created and updated now |
| Tables.Database.GetByID | hw-1/internal/repository/postgresql/order.go:41-51 | the committed row, no row, or an error |
| Tables.Database.GetAllActiveOrders | hw-1/internal/repository/postgresql/order.go:127-139 | every received or issued row once and no other, oldest first |
| StorageService.Storage.AddOrder | hw-1/internal/storage/filestorage.go:105-179 | row, history entry and audit task are committed together and then cached, or nothing changes; which error is returned under which fault |
| StorageService.Storage.GetOrder | hw-1/internal/storage/filestorage.go:181-220 | the cached order, or else the row, which is then cached if it is active; how a missing row and a failed read are told apart |
| StorageService.Storage.UpdateOrderStatus | hw-1/internal/storage/filestorage.go:221-302 | a new status is written with its history entry and audit task and cached; the same status writes nothing but refreshes the cache |
| StorageService.Storage.DeleteOrder | hw-1/internal/storage/filestorage.go:304-343 | the row and what hangs on it go, an audit task is written even if there was no row, and the cache forgets the id |
| StorageService.Storage.AddReturn | hw-1/internal/storage/filestorage.go:369-462 | the three refusals in their order, the four writes in theirs with three clock readings, and the cache forgets the id after the commit only |
| StorageService.Storage.IssueOrders | hw-1/internal/storage/filestorage.go:505-629 | the whole outcome for every list of ids and every fault: tables, cache, results and error |
| StorageService.Storage.AcceptReturns | hw-1/internal/storage/filestorage.go:637-767 | the same for returns |
| StorageService.ProcessOrder | hw-1/internal/storage/filestorage.go:551-606 | one id of IssueOrders: the soft refusals, the hard errors, the writes, the row for the cache and the audit record |
| StorageService.ProcessReturn | hw-1/internal/storage/filestorage.go:683-743 | one id of AcceptReturns: the same with a return row written first |
| StorageService.InsertTasks | hw-1/internal/storage/filestorage.go:613-627 | the collected audit records are inserted in order up to the first failure |
| StorageService.FailAll | hw-1/internal/storage/filestorage.go:529-534 | every success flag is taken back with the reason, every other result stays |
| StorageService.Storage.PutAll | hw-1/internal/storage/filestorage.go:536-539 | caching the issued rows in whatever order the map is visited comes to the same cache |
| StorageService.Storage.DropAll | hw-1/internal/storage/filestorage.go:668-671 | the cache forgets the returned ids and nothing else, in whatever order |
| StorageService.StartStorage | hw-1/cmd/main.go:59-66 | the store starts with a mirror of the active rows, or with an empty cache when the load failed |
| OrderServer.Server.HandleCreateOrder | hw-1/internal/server/server.go:167-212 | past deadlines and unusable packaging are refused, and a stored order starts as received |
| OrderServer.Server.HandleDeleteOrder | hw-1/internal/server/server.go:256-287 | only an order that reads as received and past its storage period is deleted; what is answered otherwise |
| OrderServer.Server.HandleIssueOrders | hw-1/internal/server/server.go:403-426 | an empty user or list is refused; the answer maps each id to its last result, or is an error |
| OrderServer.Server.HandleAcceptReturns | hw-1/internal/server/server.go:438-461 | the same for returns |
| OperationAnswers.AddAnswer | hw-1/internal/storage/filestorage.go:105-179 | the error is that of the first call that fails, where an insert over a used id fails; without one and with a successful commit the row, the history entry, the unsent task and the cache entry are there, column by column |
| OperationAnswers.OverwriteAnswer | hw-1/internal/storage/filestorage.go:221-302 | no error exactly if the row exists, its calls work and, for another status, the writes work: no status is refused; what is in the row, the history, the task and the cache then |
| OperationAnswers.DeleteAnswer | hw-1/internal/storage/filestorage.go:304-343 | no error exactly if the calls work, with or without a row; exactly the rows of this order are gone from all tables and the task is written |
| OperationAnswers.ReturnAnswer | hw-1/internal/storage/filestorage.go:369-462 | refused with the true reason exactly if the row is missing, not the user's, not issued or older than 48 hours; otherwise the error of the first call that fails, or the four writes with their three stamps |
| OperationAnswers.GetAnswer | hw-1/internal/storage/filestorage.go:181-220 | a cached order is answered without a read; otherwise the row, which the cache is shown, no row, or a failed read |
| SequentialRuns.SingleAccurate | hw-1/internal/storage/filestorage.go:111-179 | for each operation on one order and every fault: an error means that nothing changed, and no error means that its events are in the tables exactly if the commit succeeded |
| BulkTheorems.BulkAccurate | hw-1/internal/storage/filestorage.go:519-542 | for every fault schedule: an error means no change at all; without one the results follow the ids, and an order's row changed exactly if an item for it reports success, also when the commit failed |
| BulkRecords.BulkRecorded | hw-1/internal/storage/filestorage.go:582-627 | without an error, history, returns and outbox grew by exactly the records of the successful items in their order; with a failed commit nothing grew and nothing is reported as a success |
| BulkAnswers.BulkReasons | hw-1/internal/storage/filestorage.go:551-571 | every item without an error names its true reason against the row at the start, or the changed one after an earlier mention: missing, not the user's, wrong status and which, storage or return period over, or none exactly for a success; a failed commit replaces no reason but that of a success |
| BulkAnswers.BulkError | hw-1/internal/storage/filestorage.go:505-629 | the error is that of the first call that fails, where the calls are one read for every mention, the writes of every order that may be changed at its first mention, and one task for each of these: no refusal is an error |
| BulkAnswers.BulkFailure | hw-1/internal/storage/filestorage.go:605-628 | with an error nothing changed; the results are empty, or end with the item whose statement failed and name that statement, or report no success when a task failed |
| BulkAnswers.BulkEffect | hw-1/internal/storage/filestorage.go:637-767 | after a successful commit exactly the orders that may be changed carry the new status and the time of the call, no other column or row differs, and the cache holds the issued and has forgotten the returned |
| BulkTheorems.LoopMeans | hw-1/internal/storage/filestorage.go:547-612 | an item succeeds exactly if its order was eligible when the operation started and the id was not mentioned before |
| BulkTheorems.AtMostOneSuccess | hw-1/internal/storage/filestorage.go:679-749 | of two items with the same id at most one succeeds |
| BulkTheorems.OrderIrrelevant | hw-1/internal/storage/filestorage.go:547-612 | lists with the same ids, in any order and multiplicity, leave the same order rows |
| BulkTheorems.BulkComposes | hw-1/internal/storage/filestorage.go:505-629 | without faults one call over a list equals a call over its first part followed by one over the rest: tables, audit tasks, cache and results |
| BulkTheorems.BulkRefinesSingle | hw-1/internal/storage/filestorage.go:637-767 | without faults one call over a list equals one call per id |
| BulkTheorems.ReturnsAgree | hw-1/internal/storage/filestorage.go:369-462 | with a clock that stands still, AddReturn and AcceptReturns on one id accept the same states, leave the same rows and cache, refuse for the same reason and differ in the audit action only |
| ResponseTheorems.FlagsOnError | hw-1/internal/storage/filestorage.go:605-612 | after a hard error in the loop nothing changed, the results end with the failed item, and earlier flags still claim what would have been committed |
| ResponseTheorems.ResponseExact | hw-1/internal/server/server.go:410-425 | the answer for an id says success exactly if its order was changed and the id occurs once in the request |
| ResponseTheorems.BulkAnswered | hw-1/internal/server/server.go:403-426 | the bulk handlers refuse exactly an empty user or list, succeed exactly if every call but the commit works, and answer then for exactly the ids asked for, with the result of the last mention of each |
| ResponseTheorems.CreatedExact | hw-1/internal/server/server.go:151-212 | a missing or past date and an unusable packaging are refused, and nothing else is; otherwise it is done exactly if the id is free and the calls work, and the order is stored, received, column by column as asked for, exactly if the commit succeeded |
| ResponseTheorems.DeletedExact | hw-1/internal/server/server.go:256-287 | with a cache that holds a part of the active rows, each of the four answers exactly when: done if and only if the order is found, received and past its storage period and the calls work, and gone then exactly if the commit succeeded |
| SystemResults.NewStatusLost | hw-1/internal/storage/filestorage.go:88-95 | in every reachable state the audit task of a change names the old status, and the new one exactly if that is the empty text; the task of a creation names its status |
| ReturnDeadlines.LateReturn | hw-1/internal/storage/filestorage.go:411-418 | for any clock that advances between the two readings, a run in which an order is created, issued and taken back more than 48 hours later |
| ReturnDeadlines.ReturnWindowExact | hw-1/internal/storage/filestorage.go:411-418 | in every reachable store every return that AddReturn accepts is stamped within 48 hours of the issue exactly if its second clock reading is not after the first |
| Ledger.ApplyAllKeepsDb | hw-1/internal/storage/filestorage.go:157-178 | every sequence of enabled events keeps: the history ends in the row's status, neighbours differ, the audit tasks report the statuses before, return rows are the recipient's, belong to an existing order and never outnumber its returns |
| Ledger.ApplyAllKeepsLives | hw-1/internal/storage/filestorage.go:559-582 | without hand-set statuses: received, issued, returned in this order, issued within the storage period, returned within 48 hours, stamped alike and with one return row exactly if returned; only the clock of an order's own AddReturn can loosen its stamps |
| SequentialRuns.PerformTracks | hw-1/internal/storage/filestorage.go:121-135 | every request under every fault leaves a mirroring cache mirroring and a partial one partial |
| SequentialRuns.GetOrderRefinesLookup | hw-1/internal/storage/filestorage.go:181-220 | with a cache that holds a part of the active rows, GetOrder answers as a plain lookup in the table would, and fails exactly if that lookup fails and the order is not cached |
| SequentialRuns.RunKeepsStore | hw-1/internal/storage/filestorage.go:105-462 | over every run of requests with arbitrary faults the tables stay consistent, and a cache that mirrors the active rows, or holds a part of them, goes on doing so |
| SequentialRuns.RunKeepsLives | hw-1/internal/storage/filestorage.go:545-582 | over every run that sets no status by hand, whatever fails, each order stays inside its lifecycle and its deadlines, up to the clock movements of its own AddReturn calls |
| ReturnSafety.GuardedDeleteExact | hw-1/internal/server/server.go:263-282 | with a cache that holds a part of the active rows, the guard lets only rows go that are received and overdue, and the delete keeps the return rows exactly if it deletes nothing or the order has none |
| ReturnSafety.GuardExact | hw-1/internal/server/server.go:263-282 | in such a store no guarded delete, at any time and under any faults, can lose a return row exactly if no received order with a non-empty id has one |
| ReturnSafety.RequestKeptExact | hw-1/internal/storage/filestorage.go:259-301 | of all requests, under all faults, exactly a committed UpdateOrderStatus over an order with return rows leaves return rows on an order that is not returned |
| ReturnSafety.RunKeepsReturns | hw-1/internal/server/server.go:256-287 | in runs that delete through the guard, and in which no UpdateOrderStatus changes an order that has return rows, the returns table only grows, in spite of the cascade and whatever fails |
| ReturnSafety.ReopenedRun | hw-1/internal/server/server.go:230-287 | a run of five requests, one after the other and without faults, in which the guarded delete erases a return row |
| SystemTheorems.RunKeeps | hw-1/internal/storage/filestorage.go:111-178 | the invariant of the interleaved system: the tables are what the committed changes leave when they are replayed one by one in commit order, each applicable where it stands; staged work fits the rows it has locked, the cache holds committed versions, and the outbox tells how often each task was sent |
| SystemTheorems.CommitKeepsOther | hw-1/internal/repository/postgresql/order.go:115-125 | a commit does not touch the rows that another transaction has read FOR UPDATE, so what that one has staged stays applicable |
| SystemResults.CacheSafety | hw-1/internal/cache/order_cache.go:56-80 | under every interleaving each cached order sits under its id, is active and is a version that was committed, and so is what GetOrder read |
| SystemAnswers.AnswersTrue | hw-1/internal/storage/filestorage.go:519-628 | under every interleaving, whether its commit succeeds or fails, the results of a bulk operation follow the ids, and the operation changes an order's row exactly if an item for it reports success, in the allowed way and from the row committed at that moment |
| SystemResults.RowLinearity | hw-1/internal/storage/filestorage.go:547-612 | in commit order every change starts from the very row that the last change of the order left, and the table holds the last version of each order |
| SystemResults.RowOrigin | hw-1/internal/storage/filestorage.go:574-576 | apart from status and time of change, a row equals the order that was created: nothing else ever changes |
| SystemResults.TablesConsistent | hw-1/internal/storage/filestorage.go:416-461 | history replay, audit trail and return rows are consistent in every reachable state of the interleaved system |
| SystemAnswers.CommitsAsked | hw-1/internal/storage/filestorage.go:105-767 | under every interleaving each committed change was asked for by a request that the run began, for that order, with that target and with the request's own clock readings |
| SystemResults.LifecycleExact | hw-1/internal/storage/filestorage.go:677-749 | while no committed change sets a status by hand, under every interleaving: issued at most once and returned at most once, within the storage period and the 48 hours, stamped alike, one return row exactly if returned; only the clock inside the very AddReturn that took the order back can loosen this, and an order that AcceptReturns took back is exact |
| SystemResults.OrdinaryRequests | hw-1/internal/storage/filestorage.go:221-302 | runs whose requests never update a status by hand and create orders as received commit such changes only |
| SystemResults.NoPhantomAudit | hw-1/internal/storage/filestorage.go:282-301 | there is one task per history entry ever inserted and one per committed deletion, its creation and update times are those of its insertion, and every message sent is the audit record of a committed change |
| OutboxOrder.OldestCommitted | hw-1/internal/repository/postgresql/outbox_task.go:22-62 | in every reachable state whose tasks were inserted one after the other, every batch the select may return is the first unfinished tasks in the order of their commits |
| OutboxOrder.CommitsArriveLate | hw-1/internal/repository/postgresql/outbox_task.go:30-38 | the tasks of whatever is committed later are younger than every task that is there already |
| OutboxOrder.CommittedIsSent | hw-1/internal/repository/postgresql/outbox_task.go:45-62 | beside a running store, the unfinished task of the n-th committed event is sent within 5n/limit + 1 undisturbed calls, whatever sends and reports fail and whatever is committed later |
| SystemResults.DeliveredSafely | hw-1/internal/kafka/publisher.go:93-182 | with the store running beside the publisher, each audit record is sent at most five times and successfully at most once |
| ReturnSafety.ReturnsStay | hw-1/migrations/20250307163904_add_return_table.sql:4 | while no committed change sets a status over a returned order, only returned orders have return rows, so the deletion of any other order loses none, under every interleaving |
| ReturnSafety.DeleteLosesExactly | hw-1/migrations/20250307163904_add_return_table.sql:4 | while nothing but a return makes or unmakes a returned order, a delete takes return rows with it exactly if the order is returned at that moment |
| CacheFreshness.CleanCache | hw-1/internal/storage/filestorage.go:121-135 | as long as no commit changes an order of which another thread carries a version, every cached order is its row unless the update is still to come, and once all updates are made the cache is a part of the table |
| CacheFreshness.CarriedLands | hw-1/internal/storage/filestorage.go:198-206 | whatever else there is to tell the cache, the version that a thread carries can be the one that stays |
| CacheFreshness.OverlapExact | hw-1/internal/storage/filestorage.go:119-206 | after a clean run, every order of the outstanding cache updates leaves the cache a part of the table if and only if the commit changes no order of which another thread carries a version |
| Races.StaleCache | hw-1/internal/storage/filestorage.go:121-135 | a run of two overlapping requests that leaves a version in the cache that is no longer the row |
| Races.GuardRaces | hw-1/internal/server/server.go:263-282 | a run in which GetOrder reads a received and overdue order for the guard, two other requests issue it and take it back, and the guarded delete then erases its return row |
| Races.IssuedBeforeReceived | hw-1/internal/storage/filestorage.go:544-547 | a run in which the history says that an order was issued before it was received |
| HistoryListings.ShownInOrder | hw-1/internal/repository/postgresql/history.go:36-44 | a client is sure to see the entries of an order in commit order exactly if their stamps increase strictly |
| HistoryListings.AdvancingRunsIncrease | hw-1/internal/storage/filestorage.go:157-163 | when requests are served one after the other and their stamps advance, the stamps in every history increase strictly, whatever fails |
| HistoryListings.StampsExact | hw-1/internal/storage/filestorage.go:544-582 | under every interleaving a commit keeps all histories increasing exactly if each of its changes is stamped later than every entry of its order by then |
| ReturnPages.GetPaginated | hw-1/internal/repository/postgresql/return.go:36-46 | refused exactly for a negative limit or offset; otherwise the rows from the offset on, in order, as many as the limit allows |
| ReturnPages.PagesPartition | hw-1/internal/repository/postgresql/return.go:36-46 | the first n pages are exactly the first n times limit rows of the listing, and the pages behind the end are empty |
| Refinement.VisitAll | hw-1/internal/storage/filestorage.go:547-612 | the bulk loop and a thread that works alone collect the same events, cache updates and results, id by id |
| Refinement.RequestIsRun | hw-1/internal/storage/filestorage.go:105-220 | from any state in which nobody is at work, a request with any faults leaves the tables and the cache as some interleaved run does |
| Refinement.SequentialIsInterleaved | hw-1/internal/storage/filestorage.go:105-767 | every sequential run of requests ends where some interleaved run ends |
| PublisherService.OutboxTable.GetProcessableTasks | hw-1/internal/repository/postgresql/outbox_task.go:45-62 | the oldest CREATED tasks and FAILED ones below five attempts, in order, as many as the limit allows |
| PublisherService.OutboxTable.UpdateTaskStatus | hw-1/internal/repository/postgresql/outbox_task.go:64-95 | writes the four columns of one task and no other; an unknown id is an error |
| PublisherService.OutboxTable.MarkProcessing | hw-1/internal/kafka/publisher.go:113-124 | all tasks of the batch are marked, or none is |
| PublisherService.Producer.SendMessage | hw-1/internal/kafka/producer.go:22-36 | one more message with this topic, key and payload, and whether it was reported as sent |
| PublisherService.Publisher.ProcessBatch | hw-1/internal/kafka/publisher.go:93-146 | the tables and the messages after a call, for every batch the select may return and every fault, and exactly when it returns an error |
| PublisherService.Publisher.ProcessSingleTask | hw-1/internal/kafka/publisher.go:148-182 | one message is sent, and the row becomes DONE or FAILED with one more attempt, or stays marked when the write fails |
| PublisherService.BatchIsRun | hw-1/internal/kafka/publisher.go:93-146 | whatever fails, a call is a run of the small-step machine and keeps its invariant |
| PublisherSafety.DeliverySafety | hw-1/internal/kafka/publisher.go:113-182 | over every run of one publisher, each task is sent at most five times and successfully at most once; its status, attempts, error and completion time tell how often; every message is that of its row |
| PublisherSafety.StepOnlyAdvances | hw-1/internal/repository/postgresql/outbox_task.go:64-74 | attempts never fall, message and age never change, and a finished row never changes |
| PublisherSafety.StrandedForever | hw-1/internal/kafka/publisher.go:126-136 | a row left PROCESSING by a batch that is over stays so in every continuation and its task is never sent again |
| PublisherProgress.BatchRows | hw-1/internal/kafka/publisher.go:126-143 | a call leaves a finished or reported-lost prefix, a marked suffix behind the interruption, and every other row as it was |
| PublisherProgress.BatchSends | hw-1/internal/kafka/publisher.go:126-153 | a call sends the tasks before the interruption once each and in order |
| PublisherProgress.CallExact | hw-1/internal/kafka/publisher.go:93-143 | a call changes nothing if the selection or the marking fails; otherwise every row of its batch changes and the tasks before the first interruption are sent |
| PublisherProgress.FiveSends | hw-1/internal/repository/postgresql/outbox_task.go:45-62 | some run sends a task n times exactly if n is at most five |
| PublisherProgress.LostExactly | hw-1/internal/kafka/publisher.go:126-179 | a call loses exactly the tasks behind the interruption and those whose report was lost |
| PublisherProgress.RunsCount | hw-1/internal/repository/postgresql/outbox_task.go:45-62 | after every run the attempts are within what the progress bounds rely on |
| PublisherProgress.BoundedWaiting | hw-1/internal/repository/postgresql/outbox_task.go:45-74 | a processable task behind m others is sent within 5m/limit + 1 undisturbed calls, whatever sends and reports fail and whatever arrives with later stamps |
| PublisherProgress.DrainTermination | hw-1/internal/kafka/publisher.go:93-182 | with nothing new and no lost write, 5n/limit + 5 calls leave each of n processable tasks DONE, or FAILED with five attempts, and no other row changed |

## Left out

- HTTP and gRPC plumbing, authentication, JSON encoding, metrics and logging: a handler starts from the decoded request.
- The packaging table with its weight limits and surcharges: the adjusted price is a field, and an unusable packaging is one refusal.
- Error texts are enumerations; a rollback that fails is only logged, so it has no step of its own.
- The time stamp and the user id of an audit payload, and JSON payloads that cannot be marshalled.
- Task identifiers are positions in the outbox, not random UUIDs; rows of history and returns have no serial number.
- Weights are reals and times are unbounded integers: no float rounding, no database timestamp precision, no saturation of durations.
- GetUserOrders and the user table: queries and rows that no other operation depends on.
- The gRPC server, which repeats the guards and returns the bulk results as a list instead of a map.
- Several publishers at once: the locks of the select end before the marking begins, so at-most-once would not follow.
- The ticker, the shutdown signal and the timeouts of the publisher: an interruption may come before any task of a batch.
- Interleaving inside a transaction beyond reads, staged writes and commit: other transactions cannot see it. A deadlock or a dropped connection is an abort.
- The memory of the cache: entries are values, because the source copies the order on every Set and Get.
- SystemResults.LifecycleExact: speaks of runs in which no status was set by hand, because UpdateOrderStatus accepts any text, and no clock went back between the two stamps of one return.
- PublisherProgress.BoundedWaiting: speaks of calls that are not interrupted and whose marking commits, and of later arrivals with later stamps; an interruption strands tasks, which LostExactly describes.
- ReturnPages.PagesPartition: takes the listing in one fixed order, while rows with equal return times have none in the query; the page offset does not wrap around.
