# Work-order processing in Avalon, verified in Dafny

This project models the part of Avalon (the Trusted Compute Framework) that carries a work
order from submission to result, and proves what that machinery guarantees.

* **The CSV lists of the key-value store** (`CsvCodec`, `CsvOps`, `CsvSearch`, `CsvStore`,
  `CsvThreads`, `CsvRows`). LMDB values hold comma-separated ids. The byte loops of the store are
  proved to be operations on lists, first alone and then under any interleaving of threads around
  the update lock. `CsvRows` ties them to the list rows of the protocol.
* **The work-order protocol** (`WorkOrders`, `Lifecycle`, `Guarantees`, `Replies`, `Recovery`,
  `Leftovers`, `ShieldedOrder`, `Capacity`). One listener and any number of processors share seven tables.
  Each step of the machine is one key-value operation; the listener may crash between any two of
  them and boot again. The results are about every run of this machine.
* **The same code as it is written** (`Handler`, `HandlerRuns`, `EnclaveManager`, `ManagerRuns`,
  `SyncMode`). Classes with the handlers' fields and loops, proved against functions of the
  tables; the step machine without interference is proved to compute the same.
* **Receipts** (`Receipts`), **worker synchronisation to the blockchain** (`WorkerSync`,
  `FailedCalls`),
  **token accounting** (`Tokens`), **paged lookups** (`Lookup`) and the **request hash**
  (`RequestHash`).

`dafny verify dfyconfig.toml` checks everything.

## Run conditions

The protocol results hold under these conditions, which are built into the step machine:

* there is one listener, key-value operations succeed, and processors do not crash;
* in particular no processor's receipt update raises an exception. With the SDK's receipt builder as
  written this means that no order has a receipt at the time it is executed (`EnclaveManager.Blocked` says when
  the update raises, and `EnclaveManager.Manager.ProcessWorkOrders` what is then left);
* a boot runs with processors paused and none of them between popping an id and entering it in
  wo-worker-processing;
* workers with queued or processed orders are keys of worker-pool, and every processing identity
  belongs to one of them (`Config.Valid`);
* ids are comma-free and of one length, so that the CSV calls are the list operations of the
  protocol (`CsvRows`). The request schema enforces only the first: it admits hexadecimal ids of any
  length (common/python/schema_validation/data/WorkOrderSubmit.json, line 25), and a shorter id can then
  stay listed after it was struck off (`CsvStore.ShorterIdStaysListed`).

Timestamps, clocks, requests, lookup orders, enclave results, contract answers, socket failures,
whether the SDK builds a receipt record, and the validation of work-order and receipt requests are
parameters. The schemas of lookup requests are modelled.

## Where the code does not do what one would expect

Each of these is a lemma or a contract with the exact condition and, where the condition can fail, a concrete run.

* **csv_search_delete strides over elements of any length.** For every stored value and every
  comma-free value searched, it is delete-first-occurrence if and only if `CsvStore.DeletesFirst`
  (`CsvSearch.SearchDeleteExact`, `CsvSearch.EmptyValueExact`). Otherwise it can find and delete what
  is not there (`CsvSearch.FalseHit`), miss what is (`CsvSearch.MixedLengthsMissed`), damage a longer
  element before the one searched (`CsvSearch.ShorterIdStays`) or lose an empty element
  (`CsvSearch.EmptyElementLost`). It reads inside its buffer if and only if it finds the value
  or whole strides fill the buffer (`CsvSearch.InsideExact`). Ids of one length are always
  deleted right (`CsvStore.IdsDeletedRight`).
* **Plain put beside CSV calls.** The lock does not cover plain put. Calls and plain writes together
  are linearizable as long as no plain write falls between a call's ReadSize and Write
  (`CsvThreads.Linearizable`); one that does can leave what neither order leaves
  (`CsvThreads.PlainPutIsLost`, with the exact condition).
* **A boot can keep an order that nobody processes or purges before the next boot.** A processor that
  has recorded an order and not yet cleared its wo-worker-processing entry shields whatever a crashed
  purge or a crashed re-submit left of that id (`Recovery.BootLeavesNoLoss` for exactly when,
  `ShieldedOrder.ShieldedOrderExists` for a run, `Leftovers.LeftForever` for what becomes of it).
* **An answer can be taken back.** A client that was given a result is later told that it is pending, with
  nothing left to compute it, when a purge erased the response and crashed before removing the
  timestamp, and such an entry shielded the order (`ShieldedOrder.AnswerTakenBack`).
  `Replies.RepliesExact` says exactly when a later reply says less, and `Leftovers.StruckRepliesAgree`
  that replies do not change again until the id is removed.
* **Synchronous mode never recovers from one lost hand-over.** An accepted order that does not
  reach the manager stays at the head of the queue and blocks every later one
  (`SyncMode.EmptyIffDelivered`, `SyncMode.StuckQueueOnlyGrows`, `SyncMode.LostHandoverBlocks`).
* **Receipt updates by the listener store the whole request.** Later readers look for the update
  type beside `params`, where the request schema admits none. So each entry of the listener ends its
  history: every later update and retrieval is an exception (`Receipts.ListenerEntryEnds`), and an
  order with such a history stops the manager's loop (`EnclaveManager.Manager.ProcessWorkOrders`). The
  rule about COMPLETED is never what turns an update away (`Receipts.CompletedIsNeverSeen`). A history
  outlives its work order, so an id that is submitted again continues the old one.
* **No update request passes the listener's field checks as written.** They look for workOrderId beside
  `params` (`Receipts.CheckFields`), so no entry of the listener ever arises
  (`Receipts.HistoriesAsChecked`).
* **The SDK's receipt builder assigns to a name it does not define**
  (sdk/avalon_sdk/work_order_receipt/work_order_receipt.py, line 163). As written it never builds a record.
  Then no history arises at all (`Receipts.NothingArisesUnbuilt`), and the manager's loop stops at the
  first order whose request parses and that has a receipt (`EnclaveManager.Manager.ProcessWorkOrders`). The results about entries
  are about a builder that may work and checks that may accept a request.
* **A worker that comes back to the store with the details it left with stays decommissioned**
  (`WorkerSync.ConvergesIff`, `WorkerSync.ReturningWorkerStaysRetired`). So does one that comes back with
  new details if their update succeeds and the status call after it fails: the details are cached, and
  no later round repeats the status call (`WorkerSync.HalfUpdateStaysRetired`,
  `WorkerSync.CachedNeverRetried`). That failure and a failed retrieval end the round for the workers
  behind it, other failed calls do not (`FailedCalls.AbortedExact`). A cached DECOMMISSIONED is
  compared with the number of that status and never equal to it, so the call is sent again every
  round (`WorkerSync.RepeatedRoundIsQuiet`).
* **Every worker lookup-next request raises an exception as soon as there is a worker.** The handler
  reads `lookupTag`; the schema admits only `lookUpTag` (`Lookup.LookupWorkers`). The paging results
  are therefore about receipts, whose requests carry `lastLookUpTag`.
* **Receipt lookup-next misses new ids that sort before the tag** (`Lookup.NextFindsAllNew`). After a
  lookup that found nothing there is no going on: the schema refuses the empty tag it returned
  (`Lookup.ReceiptsContinued`).
* **Receipts cannot be looked up by status.** The schema admits receiptStatus, which nothing reads
  (`Lookup.StatusIgnored`); the SDK sends requestCreateStatus, which is refused
  (`Lookup.LookupReceipts`).

## Model

| member | source | states |
|---|---|---|
| CsvCodec.SplitJoin | shared_kv_storage/db_store/packages/lmdb_store.cpp:436-482 | joining comma-free values with commas and splitting again gives the same list |
| CsvCodec.JoinSplit | shared_kv_storage/db_store/packages/lmdb_store.cpp:436-482 | every stored value is the join of the list it stands for, so lists and non-empty storage correspond one to one |
| CsvOps.DequeRefinement | shared_kv_storage/db_store/packages/lmdb_store.cpp:436-547 | for every stored value, append, prepend, pop and match-pop on bytes are push-back, push-front, pop-front and pop-front-if-equal on the list, including status, output, missing key and mismatch |
| CsvOps.SearchDeleteRefinement | shared_kv_storage/db_store/packages/lmdb_store.cpp:581-611 | with values of one positive length, the striding search deletes exactly the first occurrence, and not-found leaves the store alone |
| CsvSearch.SearchDeleteExact | shared_kv_storage/db_store/packages/lmdb_store.cpp:581-611 | for all stored bytes and every non-empty comma-free value the search is delete-first-occurrence if and only if: the value is not in the list and stands at no stride offset; or it is, the first stride offset where it stands is its first occurrence or starts a run of the value leading to it, and what remains is not one empty element |
| CsvSearch.EmptyValueExact | shared_kv_storage/db_store/packages/lmdb_store.cpp:581-611 | for all stored bytes, searching the empty value is delete-first-occurrence if and only if nothing is stored or at least two bytes starting with a comma are |
| CsvSearch.FirstHit | shared_kv_storage/db_store/packages/lmdb_store.cpp:584-585 | the loop stops at the first multiple of the stride where the value stands |
| CsvSearch.EraseExact | shared_kv_storage/db_store/packages/lmdb_store.cpp:584-596 | erasing at that offset is erasing the first occurrence if and only if a run of the value leads from one to the other |
| CsvSearch.FalseHit | shared_kv_storage/db_store/packages/lmdb_store.cpp:584-611 | searching a value the list does not hold succeeds and deletes the key |
| CsvSearch.EmptyElementLost | shared_kv_storage/db_store/packages/lmdb_store.cpp:602-608 | deleting a value beside one empty element loses that too |
| CsvSearch.ShorterIdStays | shared_kv_storage/db_store/packages/lmdb_store.cpp:584-611 | striking a shorter id off a list with a longer one before it succeeds, and the id is still listed |
| CsvSearch.MixedLengthsMissed | shared_kv_storage/db_store/packages/lmdb_store.cpp:584-585 | a list with different lengths in which the search misses a value that is there |
| CsvSearch.InsideExact | shared_kv_storage/db_store/packages/lmdb_store.cpp:584-585 | the comparisons stay inside the buffer if and only if the value is found or the buffer is whole strides but for the last comma |
| CsvStore.FirstField | shared_kv_storage/db_store/packages/lmdb_store.cpp:517-527 | the loop gathers the bytes before the first comma and knows whether there was one |
| CsvStore.EraseValue | shared_kv_storage/db_store/packages/lmdb_store.cpp:587-596 | the value goes together with the comma after it or, for the last one, before it |
| CsvStore.SearchErase | shared_kv_storage/db_store/packages/lmdb_store.cpp:581-601 | the loop stops at the first stride offset holding the value and erases it there, for every buffer it reads only inside of |
| CsvStore.PopMeaning | shared_kv_storage/db_store/packages/lmdb_store.cpp:485-547 | a pop succeeds exactly on a non-empty list with a matching head, gives the head and leaves the rest; otherwise nothing changes |
| CsvStore.SearchMeaning | shared_kv_storage/db_store/packages/lmdb_store.cpp:550-612 | search-delete succeeds exactly for a member and leaves the list without its first occurrence if and only if the condition of `DeletesFirst` holds; failure stores nothing |
| CsvStore.IdsDeletedRight | shared_kv_storage/db_store/packages/lmdb_store.cpp:550-612 | for ids of one length the condition always holds and the search stays inside the buffer |
| CsvStore.Table.GetValueSize | shared_kv_storage/db_store/packages/lmdb_store.cpp:145-208 | presence and size of a stored value |
| CsvStore.Table.Get | shared_kv_storage/db_store/packages/lmdb_store.cpp:212-270 | the stored value, or an error for a missing key |
| CsvStore.Table.Del | shared_kv_storage/db_store/packages/lmdb_store.cpp:320-363 | removes one key and touches no other |
| CsvStore.Table.CsvExtend | shared_kv_storage/db_store/packages/lmdb_store.cpp:436-482 | the list of the key grows at the front or the back, other keys stay |
| CsvStore.Table.CsvPop | shared_kv_storage/db_store/packages/lmdb_store.cpp:485-547 | the old list is the popped value followed by the new list; success exactly for a non-empty list with a matching head, a value error exactly for a missing key and a system error exactly for another head; failure changes nothing |
| CsvStore.Table.CsvSearchDelete | shared_kv_storage/db_store/packages/lmdb_store.cpp:550-612 | the new list is the old one without the first occurrence, and success means membership, if and only if the condition of `DeletesFirst` holds; failure changes nothing, and other keys stay |
| CsvStore.ShorterIdStaysListed | shared_kv_storage/db_store/packages/lmdb_store.cpp:436-612 | the same as a run of two appends and one search-delete on a table |
| CsvThreads.Linearizable | shared_kv_storage/db_store/packages/lmdb_store.cpp:57-76 | under every interleaving in which no plain write to the key falls between a call's ReadSize and Write, the key holds what running the calls and plain writes one after the other gives, and each call returned what it returns there |
| CsvThreads.LinearizableLists | shared_kv_storage/db_store/packages/lmdb_store.cpp:57-76 | the same on lists, so no append or pop is lost |
| CsvThreads.EffectBetweenCallAndReturn | shared_kv_storage/db_store/packages/lmdb_store.cpp:57-76 | each returned call took effect once, after it was made and before it returned, and returned the outcome of that effect |
| CsvThreads.PlainPutIsLost | shared_kv_storage/db_store/packages/lmdb_store.cpp:273-317 | a plain put between the read and the write of an append leaves what neither order of the two leaves if and only if it wrote neither what was there nor what the append makes of it |
| CsvRows.AppendRow | shared_kv_storage/db_store/packages/lmdb_store.cpp:436-482 | appending an id to a row is the csv append on its stored form |
| CsvRows.PopRow | shared_kv_storage/db_store/packages/lmdb_store.cpp:485-547 | popping the head of a row, or only a matching one, is the csv pop and match-pop on its stored form |
| CsvRows.SearchDeleteRow | shared_kv_storage/db_store/packages/lmdb_store.cpp:550-612 | striking an id off a row is the csv search-delete on its stored form |
| Lifecycle.StepKeeps | listener/avalon_listener/tcs_work_order_handler.py:61-320 | every step of listener, boot and processors keeps the invariant that ties tables, hands and internal list to the life of each id |
| Guarantees.Conservation | listener/avalon_listener/tcs_work_order_handler.py:250-308 | in every reachable state every timestamped id is in exactly one place: with the listener, at one position of one queue, in one processor's hand, or at one position of one processed list |
| Guarantees.AtMostOnce | enclave_manager/avalon_enclave_manager/work_order_processor_manager.py:71-130 | over every run an id is executed at most as often as it is accepted |
| Guarantees.ReacceptedOnlyAfterRelease | listener/avalon_listener/tcs_work_order_handler.py:265-308 | between two consecutive acceptances an id was removed, either never having been queued, or after its processing was recorded and a purge struck it off |
| Guarantees.NoEmptyOrder | enclave_manager/avalon_enclave_manager/work_order_processor_manager.py:102-109 | no processor ever pops an id whose request is missing |
| Guarantees.Fifo | listener/avalon_listener/tcs_work_order_handler.py:305 | for each worker, ids popped so far by all processors followed by the queue are the ids ever appended, in order |
| Replies.ProcessedAreAnswered | enclave_manager/avalon_enclave_manager/work_order_processor_manager.py:217-224 | at every step every id on a processed list has its request stored and the response to that request |
| Replies.AnswersOnlyRise | listener/avalon_listener/tcs_work_order_handler.py:160-181 | replies about an id go only from unknown to pending to answered until its response is erased or its timestamp removed |
| Replies.RepliesExact | listener/avalon_listener/tcs_work_order_handler.py:160-181 | within one life of an id a later reply says less if and only if a purge erased the answer that was given, or the id was removed, in between: answered ends exactly by a purge erasing the response, and unknown comes exactly by removal |
| Replies.StruckOffReplies | listener/avalon_listener/tcs_work_order_handler.py:160-181 | while an id is struck off it is reported answered, and pending once its response is erased |
| Leftovers.StruckRepliesAgree | listener/avalon_listener/tcs_work_order_handler.py:160-181 | all replies about a struck-off id agree until it is removed, however often the listener crashes and boots |
| Leftovers.LeftForever | listener/avalon_listener/tcs_work_order_handler.py:94-114 | an id left with the listener and in no request it serves stays timestamped with its rows unchanged, and is only ever talked about, over every run without a boot |
| Leftovers.LeftoverIsNowhere | listener/avalon_listener/tcs_work_order_handler.py:94-114 | such an id is in no queue, no hand and no processed list |
| Leftovers.LeftOrRemoved | listener/avalon_listener/tcs_work_order_handler.py:61-114 | across any number of boots such an id is removed or stays as it is |
| Recovery.RebootsConverge | listener/avalon_listener/tcs_work_order_handler.py:61-114 | however often boots are interrupted, the one that completes leaves what one uninterrupted boot would have left, an idle listener with an internal list of exactly the timestamped ids, and each of these in a queue, a processing entry or a processed list |
| Recovery.BootIdempotent | listener/avalon_listener/tcs_work_order_handler.py:61-114 | a second boot changes nothing |
| Recovery.RowsOnlyForStamped | listener/avalon_listener/tcs_work_order_handler.py:265-308 | in every reachable state only timestamped ids have a request, response or receipt |
| Recovery.RequestGoesFirst | listener/avalon_listener/tcs_work_order_handler.py:267-272 | in every reachable state an id whose response was erased after processing has no request left |
| Recovery.UnqueuedSubmitUndone | listener/avalon_listener/tcs_work_order_handler.py:291-308 | a submit interrupted before queueing is undone by the next boot if and only if no entry of an earlier life of the id names it |
| Recovery.QueuedSubmitKept | listener/avalon_listener/tcs_work_order_handler.py:291-308 | a queued submit survives: booting before or after it gives the same tables |
| Recovery.InterruptedPurgeCompleted | listener/avalon_listener/tcs_work_order_handler.py:265-282 | a purge interrupted after striking off is completed by the next boot if and only if nothing else names the id |
| Recovery.OnlyStaleMarks | enclave_manager/avalon_enclave_manager/work_order_processor_manager.py:78-86 | an id in the listener's hands alone is named by a table if and only if a processor has recorded it and not yet cleared its entry |
| Recovery.BootLeavesNoLoss | listener/avalon_listener/tcs_work_order_handler.py:94-114 | a timestamped id survives a boot if and only if it is queued, held or listed, or a stale processing entry names it |
| ShieldedOrder.ShieldedOrderExists | listener/avalon_listener/tcs_work_order_handler.py:84-97 | a run after which a completed boot keeps an order that is in no queue, hand or processed list |
| ShieldedOrder.AnswerTakenBack | listener/avalon_listener/tcs_work_order_handler.py:160-181 | a run in which a client gets the answer and is later told that the result is pending |
| Capacity.BootsAreJustBooted | listener/avalon_listener/tcs_work_order_handler.py:61-114 | every boot that completes leaves the state the capacity results start from |
| Capacity.CapacityKept | listener/avalon_listener/tcs_work_order_handler.py:250-308 | while others do anything but write timestamps, the count is the list length, stays within the maximum unless the boot exceeded it, and between requests bounds the number of timestamped ids |
| Capacity.PurgeFindsItsId | listener/avalon_listener/tcs_work_order_handler.py:274-278 | the removal from the internal list never fails, also when a manager's cleanup deletes rows |
| Capacity.BusyIffNoneProcessed | listener/avalon_listener/tcs_work_order_handler.py:284-289 | a submit is turned away if and only if the scan found no timestamped id processed |
| Capacity.OthersAllowed | enclave_manager/avalon_enclave_manager/work_order_kv_delegate.py:56-69 | processors and every single operation of the cleanup are among the others the capacity results allow |
| Handler.WorkOrderHandler.CollectLive | listener/avalon_listener/tcs_work_order_handler.py:69-92 | the three collected lists together hold exactly the ids some entry names |
| Handler.WorkOrderHandler.DropOrder | listener/avalon_listener/tcs_work_order_handler.py:99-109 | all rows of one id go and nothing else |
| Handler.WorkOrderHandler.OnBoot | listener/avalon_listener/tcs_work_order_handler.py:61-114 | boot leaves exactly the rows of named ids and counts them in lookup order |
| Handler.WorkOrderHandler.CollectProcessed | listener/avalon_listener/tcs_work_order_handler.py:251-262 | which worker lists each processed id, the last one winning |
| Handler.WorkOrderHandler.ClearOne | listener/avalon_listener/tcs_work_order_handler.py:250-282 | the first id of the lookup that a worker's processed list has loses its rows and its entry in the last list that has it, and nothing else changes; an id missing from the internal list is an exception after the tables changed; without such an id nothing changes |
| Handler.WorkOrderHandler.WorkOrderSubmit | listener/avalon_listener/tcs_work_order_handler.py:250-320 | memory, tables and reply for busy, known and new ids and for a failed purge |
| Handler.FullSubmit | listener/avalon_listener/tcs_work_order_handler.py:250-320 | a submit to a full handler removes the first processed id of the lookup and no other; it is then accepted, refused as known, turned away or an exception, each exactly when the tables, the list and the count say so |
| Handler.SubmitWithRoom | listener/avalon_listener/tcs_work_order_handler.py:291-320 | with room nothing is removed; a new order is timestamped, stored and queued last for its worker, a known one refused |
| Handler.SubmitWithoutRoom | listener/avalon_listener/tcs_work_order_handler.py:284-289 | a full handler with no timestamped id on a processed list turns every submit away and changes nothing |
| Handler.WorkOrderHandler.WorkOrderGetResult | listener/avalon_listener/tcs_work_order_handler.py:160-176 | answered exactly with a stored response, pending exactly with a timestamp and no response, unknown otherwise |
| Handler.BootMeaning | listener/avalon_listener/tcs_work_order_handler.py:94-114 | a boot removes all rows of exactly the timestamped ids that no entry names, keeps all other rows and touches no list |
| Handler.BootedListExact | listener/avalon_listener/tcs_work_order_handler.py:94-114 | after a boot the internal list holds each timestamped id exactly once and in lookup order, and each is named by some entry |
| HandlerRuns.SubmitRunsAsHandler | listener/avalon_listener/tcs_work_order_handler.py:250-320 | the step machine's submit, uninterrupted, ends with the handler's memory, tables and reply |
| EnclaveManager.Manager.ProcessById | enclave_manager/avalon_enclave_manager/work_order_processor_manager.py:92-145 | one order is answered for its stored request and listed and its receipt updated, or dropped when it has no request; exactly if it has a receipt, and no record is built for it or the last entry of its history cannot be read, the order stays in hand, unanswered |
| EnclaveManager.Manager.UpdateReceipt | enclave_manager/avalon_enclave_manager/work_order_kv_delegate.py:72-129 | raises an exception exactly when the receipt exists, and the SDK does not build the record or the last entry of the history cannot be read |
| EnclaveManager.Manager.ProcessWorkOrders | enclave_manager/avalon_enclave_manager/work_order_processor_manager.py:71-88 | the loop works the queue off in order, and raises an exception exactly when it meets an order whose receipt cannot be updated, everything before it done and it in hand; if the SDK builds no records, no history changes |
| EnclaveManager.DrainedQueue | enclave_manager/avalon_enclave_manager/work_order_processor_manager.py:71-88 | orders worked off are taken from the front of the queue |
| EnclaveManager.DrainedLists | enclave_manager/avalon_enclave_manager/work_order_processor_manager.py:71-88 | those with a request are at the end of the processed list in queue order |
| EnclaveManager.DrainedOthers | enclave_manager/avalon_enclave_manager/work_order_processor_manager.py:71-88 | no other worker's lists change |
| EnclaveManager.DrainedAnswers | enclave_manager/avalon_enclave_manager/work_order_processor_manager.py:92-145 | every order worked off that has a request has the response to it, failed exactly if the request does not parse or its execution fails; all other answers, requests, timestamps and receipts stay |
| EnclaveManager.DrainedEntries | enclave_manager/avalon_enclave_manager/work_order_processor_manager.py:78-86 | after any worked-off order the processor's own entry is cleared, and those of others stay |
| EnclaveManager.HistoriesNoted | enclave_manager/avalon_enclave_manager/work_order_kv_delegate.py:72-129 | each executed order with a receipt and an open history gets one entry each time it is worked off, FAILED exactly if its execution fails, and no other history changes |
| EnclaveManager.Manager.ProcessSync | enclave_manager/avalon_enclave_manager/work_order_processor_manager.py:42-67 | pops and processes the id exactly when it heads the queue, otherwise changes nothing |
| EnclaveManager.Manager.CleanupWorkOrders | enclave_manager/avalon_enclave_manager/work_order_kv_delegate.py:43-70 | all rows of the orders on the worker's processed list and the list itself are gone; all rows of other orders, other workers' lists, queues and processing entries are as before |
| ManagerRuns.ProcessorRunsAsManager | enclave_manager/avalon_enclave_manager/work_order_processor_manager.py:71-145 | a processor of the step machine left alone ends with the manager's tables |
| SyncMode.SyncHandler.ClearOne | listener/avalon_listener/tcs_work_order_handler_sync.py:103-124 | the first id of the lookup on the processed list of the order's own worker loses its rows and that entry, and nothing else changes; without one nothing changes |
| SyncMode.FullSyncSubmit | listener/avalon_listener/tcs_work_order_handler_sync.py:103-187 | a submit to a full handler leaves nothing of the first id of the lookup that the order's own worker has processed, unless it is submitted again, and every other order but the submitted one is as before |
| SyncMode.SyncHandler.WorkOrderSubmit | listener/avalon_listener/tcs_work_order_handler_sync.py:103-187 | memory, tables and reply for every combination of busy, known, accepted, delivered and answered |
| SyncMode.RequestMovesQueue | listener/avalon_listener/tcs_work_order_handler_sync.py:132-163 | how one request changes the manager's queue, for empty and non-empty queues and lost hand-overs, keeping the list invariants |
| SyncMode.EmptyIffDelivered | listener/avalon_listener/tcs_work_order_handler_sync.py:132-163 | over every run with restarts, a queue that starts empty is empty at a request boundary if and only if every order accepted for the worker so far was delivered |
| SyncMode.StuckQueueOnlyGrows | enclave_manager/avalon_enclave_manager/work_order_processor_manager.py:53-65 | from a non-empty queue nothing is ever popped: the queue is the old one followed by all orders accepted since |
| SyncMode.AcceptedAreProcessed | listener/avalon_listener/tcs_work_order_handler_sync.py:132-180 | in every run from an empty queue whose hand-overs succeed, each accepted order is popped, listed and answered for its own request within its submit |
| SyncMode.LostHandoverBlocks | listener/avalon_listener/tcs_work_order_handler_sync.py:150-161 | one lost hand-over, after which a delivered order is never processed |
| Receipts.CreatedOnce | listener/avalon_listener/tcs_workorder_receipt_handler.py:67-108 | over every run a created receipt keeps its status and every further creation is refused, until the order is forgotten |
| Receipts.ReceiptTables.UpdateFromEnclave | enclave_manager/avalon_enclave_manager/work_order_kv_delegate.py:72-129 | appends PROCESSED or FAILED unless there is no receipt, no record is built, the last entry is COMPLETED, or its type cannot be read |
| Receipts.ReceiptTables.WorkOrderReceiptUpdate | listener/avalon_listener/tcs_workorder_receipt_handler.py:189-231 | appends its type unless: no receipt, an invalid request, a last entry COMPLETED or, for three of the types, PROCESSED refuse it; no history or a last entry of the listener is an exception |
| Receipts.ReceiptTables.WorkOrderReceiptRetrieve | listener/avalon_listener/tcs_workorder_receipt_handler.py:375-406 | without a history the status is the created one; after an entry of the enclave it is that entry's type; after one of the listener it is an exception |
| Receipts.HistoriesGrowLegally | listener/avalon_listener/tcs_workorder_receipt_handler.py:189-231 | over every run of both writers an earlier history is a prefix of the later one and stays legal |
| Receipts.UpdateStoredIffLegal | listener/avalon_listener/tcs_workorder_receipt_handler.py:189-231 | a valid update of an existing receipt is stored if and only if the history stays legal |
| Receipts.HistoriesExact | listener/avalon_listener/tcs_workorder_receipt_handler.py:189-231 | if the checks may accept any update request and the SDK may build any record, a history arises in some run if and only if it is PROCESSED and FAILED entries of the enclave followed by at most one of the listener, which after PROCESSED is PROCESSED or COMPLETED |
| Receipts.ListenerEntryEnds | listener/avalon_listener/tcs_workorder_receipt_handler.py:189-231 | after an entry of the listener a history never changes, and every valid update and every retrieval of the receipt is an exception |
| Receipts.CompletedIsNeverSeen | enclave_manager/avalon_enclave_manager/work_order_kv_delegate.py:108-118 | in no run does a writer find COMPLETED as the last type |
| Receipts.EntriesInOrder | listener/avalon_listener/tcs_workorder_receipt_handler.py:200-224 | COMPLETED and every listener entry come only last, the enclave writes first, and after PROCESSED the listener adds only PROCESSED or COMPLETED |
| Receipts.CheckFields | listener/avalon_listener/tcs_workorder_receipt_handler.py:255-277 | the field checks pass if and only if all names are among the seven known ones and the four checked ones stand beside the parameters in the right encoding, and raise an exception if and only if the first bad one is a hexadecimal one that does not; with the names the request schema admits there, no update request passes |
| Receipts.HistoriesAsChecked | listener/avalon_listener/tcs_workorder_receipt_handler.py:255-277 | if no update request passes, exactly the histories of the enclave alone arise |
| Receipts.NothingArisesUnbuilt | sdk/avalon_sdk/work_order_receipt/work_order_receipt.py:157-164 | if no record is ever built, over every run no history arises, every receipt shows the status it was created with, and every valid update of it is an exception |
| WorkerSync.Ledger.Send | sdk/avalon_sdk/connector/blockchains/ethereum/contracts/WorkerRegistry.sol:48-96 | a call succeeds exactly when the network lets it and the worker is new, for a registration, or registered, for a change; it then registers the worker as active, or changes its details or its status alone |
| WorkerSync.WorkerDelegate.AddOrUpdate | blockchain_connector/common/connector_common/worker_delegate.py:97-151 | calls, caches and aborts for one stored worker |
| WorkerSync.WorkerDelegate.Retire | blockchain_connector/common/connector_common/worker_delegate.py:153-173 | calls, caches and aborts for one worker of the chain |
| WorkerSync.WorkerDelegate.AddUpdateWorkerToChain | blockchain_connector/common/connector_common/worker_delegate.py:90-173 | the two loops, up to the first exception |
| FailedCalls.AbortedExact | blockchain_connector/common/connector_common/worker_delegate.py:97-173 | for every network, a round is aborted if and only if details of a stored worker cannot be read, or one of its calls raises an exception, is a failed status call after an update, or is a failed retrieval; no other failure ends it |
| FailedCalls.RoundOutcome | blockchain_connector/common/connector_common/worker_delegate.py:97-173 | in a round that is not aborted, a worker whose own calls succeed gets what an all-success round gives it and any other worker stays as it was, whichever calls about others fail |
| FailedCalls.RoundWrites | blockchain_connector/common/connector_common/worker_delegate.py:108-173 | what chain and both caches then hold of a stored and of a removed worker |
| FailedCalls.RoundExactDespiteFailures | blockchain_connector/common/connector_common/worker_delegate.py:97-173 | the exact condition of `RoundExact` for every worker whose own calls succeed; a worker with a failed call keeps chain and caches for the next round |
| WorkerSync.CachesCoherent | blockchain_connector/common/connector_common/worker_delegate.py:97-173 | after any rounds with any pattern of failed calls and aborted rounds every cached value is the one on the chain |
| WorkerSync.RoundExact | blockchain_connector/common/connector_common/worker_delegate.py:108-137 | an all-success round leaves a worker out of date if and only if it is stored with its cached details and not active on the chain |
| WorkerSync.ConvergesIff | blockchain_connector/common/connector_common/worker_delegate.py:97-173 | after any run of all-success rounds a worker is up to date if and only if it did not come back with the details it left with, and has not since stayed with them |
| WorkerSync.Converges | blockchain_connector/common/connector_common/worker_delegate.py:97-173 | if no worker does, every stored worker is active with its details and every other one decommissioned after every round |
| WorkerSync.ReturningWorkerStaysRetired | blockchain_connector/common/connector_common/worker_delegate.py:108-111 | a worker that leaves for a round and returns unchanged stays decommissioned |
| WorkerSync.CachedNeverRetried | blockchain_connector/common/connector_common/worker_delegate.py:108-111 | over every run in which a worker stays stored with its cached details, chain and caches keep what they have of it, whatever its status and whichever calls succeed |
| WorkerSync.HalfUpdateStaysRetired | blockchain_connector/common/connector_common/worker_delegate.py:111-131 | a run in which one failed status call after an update leaves a returned worker decommissioned, over all later rounds that keep it stored |
| WorkerSync.RepeatedRoundIsQuiet | blockchain_connector/common/connector_common/worker_delegate.py:97-173 | repeating an all-success round changes neither chain nor caches, and its calls are exactly the listed ones |
| WorkerSync.QuietCallsOnlyRetire | blockchain_connector/common/connector_common/worker_delegate.py:153-173 | those calls only read or decommission workers that are not stored: no register and no update |
| Tokens.CountFirst | examples/apps/eea_token/execution_logic.cpp:159-172 | the array marks exactly the types seen, and an activity counts exactly when its type is new |
| Tokens.Credit | examples/apps/eea_token/execution_logic.cpp:173-184 | the linear search keeps one entry per employee, in the order of first activities, holding what the employee earned |
| Tokens.ProcessOrg | examples/apps/eea_token/execution_logic.cpp:156-190 | an organisation's number is the sum over types of the first activity of each, and reputation stays balanced up to the first field that does not convert |
| Tokens.IssueBurnTokens | examples/apps/eea_token/execution_logic.cpp:145-194 | organisations before the first error get their numbers and no other gets an entry; reputation has distinct names, per-employee sums and the total of all triples processed before the error |
| Tokens.OneActivity | examples/apps/eea_token/execution_logic.cpp:85-115 | what one realized or unrealized activity of each type gives its organisation and its employee |
| Tokens.UsedExact | examples/apps/eea_token/execution_logic.cpp:161-189 | of an organisation exactly the triples before its first field that does not convert are used |
| Tokens.ProcessedExact | examples/apps/eea_token/execution_logic.cpp:145-194 | reputation counts all triples of the organisations before the first bad one, and of that one those before its first bad field |
| Tokens.OrgNumberBound | examples/apps/eea_token/execution_logic.cpp:85-115 | however long the input, an organisation's number lies in [-13315, 13315] |
| Tokens.OrgNumberBoundTight | examples/apps/eea_token/execution_logic.cpp:85-115 | both bounds are reached |
| Tokens.ReputationFits | examples/apps/eea_token/execution_logic.cpp:173-184 | reputation stays in 32 bits while at most 214748 activities are processed |
| Lookup.CheckCriteria | listener/avalon_listener/tcs_worker_registry_handler.py:109-118 | the loop stops at the first named criterion that differs or that the record lacks |
| Lookup.CheckExact | listener/avalon_listener/tcs_worker_registry_handler.py:109-118 | a record matches if and only if it has the wanted value for every named criterion |
| Lookup.NoFieldExact | listener/avalon_listener/tcs_worker_registry_handler.py:109-118 | checking a record is an exception if and only if it lacks a named criterion and has the wanted values for all before it |
| Lookup.LookupBasic | listener/avalon_listener/tcs_worker_registry_handler.py:91-131 | ids are the matching ones of the whole pool or behind the tag, with their number and the last of them as tag; it is an exception exactly when lookup-next finds no tag to compare the first id with, or a record met lacks a named field |
| Lookup.LookupWorkers | listener/avalon_listener/tcs_worker_registry_handler.py:135-175 | refused exactly when the schema does not admit the request; an id is reported if and only if it is in the pool and has no record, or its record has the wanted workerType, organizationId and applicationTypeId as far as they are named; it is an exception exactly when a record lacks one of them before any differs; an admitted lookup-next is an exception exactly when there is a worker |
| Lookup.HexTextExact | common/python/schema_validation/data/WorkOrderReceiptLookUp.json:6-25 | a text is admitted as an id if and only if it is hexadecimal digits with an optional prefix of two characters and an optional line end |
| Lookup.LookupReceipts | listener/avalon_listener/tcs_workorder_receipt_handler.py:305-345 | refused exactly when the schema does not admit the request, so whenever it names requestCreateStatus; otherwise the same with the receipt criteria, an id without a record skipped |
| Lookup.StatusIgnored | common/python/schema_validation/data/WorkOrderReceiptLookUp.json:4-26 | for all stores and pools, admitted requests that differ only in receiptStatus get the same reply |
| Lookup.SelectedByThree | listener/avalon_listener/tcs_workorder_receipt_handler.py:320-333 | under an admitted request a receipt is selected if and only if it has the wanted workerServiceId, workerId and requesterId, as far as they are named, and is an exception if and only if it lacks one before any differs |
| Lookup.MatchingExact | listener/avalon_listener/tcs_worker_registry_handler.py:91-131 | an id is reported if and only if it is in the pool and selected, and once |
| Lookup.LookupIsPaged | listener/avalon_listener/tcs_workorder_receipt_handler.py:305-345 | for every tag of the pool, lookup is the matches up to and including it followed by lookup-next; an unknown tag gives none |
| Lookup.NextAfterLastIsEmpty | listener/avalon_listener/tcs_workorder_receipt_handler.py:305-345 | lookup-next with a returned tag gives none |
| Lookup.NextFindsLaterKeys | listener/avalon_listener/tcs_workorder_receipt_handler.py:305-345 | on pools in key order, lookup-next with the returned tag reports exactly the new matches that sort behind the tag, and none if the lookup found nothing |
| Lookup.NextFindsAllNew | shared_kv_storage/db_store/packages/lmdb_store.cpp:651-664 | it reports all new matches if and only if there are none, or the lookup found something and none sorts before the tag |
| Lookup.ReceiptsContinued | listener/avalon_listener/tcs_workorder_receipt_handler.py:349-375 | a lookup request sent again with the returned tag is refused exactly when the lookup found nothing, an exception exactly when a record behind the tag lacks a named field, and otherwise reports exactly the new matches behind the tag |
| RequestHash.CalculateDataHash | common/crypto_utils/avalon_crypto_utils/worker_hash.py:95-128 | sorts the items in place and hashes their texts in index order |
| RequestHash.CalculateRequestHash | common/crypto_utils/avalon_crypto_utils/worker_hash.py:35-61 | hashes nonce, order id, worker id, workload id and requester id, then appends the input hash and, if there is output, the output hash, and hashes the whole |
| RequestHash.OneItemHash | common/crypto_utils/avalon_crypto_utils/worker_hash.py:111-128 | one item is hashed as data hash, data, encrypted key and initialisation vector in that order, a missing field counting as nothing |
| RequestHash.ConcatHash | common/crypto_utils/avalon_crypto_utils/worker_hash.py:95-128 | of two lists with all indexes of one below those of the other, in either order, the text of the lower one is hashed first |
| RequestHash.SortInPlace | common/crypto_utils/avalon_crypto_utils/worker_hash.py:110 | the array ends up as the stable sort of what it held |
| RequestHash.SortedFacts | common/crypto_utils/avalon_crypto_utils/worker_hash.py:110 | the sort orders by index and is a permutation |
| RequestHash.SortedStable | common/crypto_utils/avalon_crypto_utils/worker_hash.py:110 | items with the same index keep their order |
| RequestHash.DataHashIgnoresOrder | common/crypto_utils/avalon_crypto_utils/worker_hash.py:95-128 | any two lists of the same items with distinct indexes have the same data hash |
| RequestHash.PermutedDataHash | common/crypto_utils/avalon_crypto_utils/worker_hash.py:95-128 | every permutation of items with distinct indexes has the same data hash |
| RequestHash.RequestHashIgnoresOrder | common/crypto_utils/avalon_crypto_utils/worker_hash.py:35-61 | requests with the same input and output items, in any order, have the same request hash |
| RequestHash.SortedExact | common/crypto_utils/avalon_crypto_utils/worker_hash.py:110 | two lists sort to the same one if and only if items with the same index stand in the same order in both |
| RequestHash.DataHashByGroups | common/crypto_utils/avalon_crypto_utils/worker_hash.py:95-128 | lists with repeated indexes that agree at each index have the same data hash |
| RequestHash.DataHashExact | common/crypto_utils/avalon_crypto_utils/worker_hash.py:95-128 | data hashes agree whatever the hash and the encoding if and only if the texts in index order do |

## Left out

- Tokens.IssueBurnTokens: starts from parsed fields and unbounded integers; splitting and converting text is not modelled, and activity types outside 0 to 7, which index past the array, are excluded.
- Receipts.ReceiptTables.UpdateFromEnclave: whether the SDK's receipt builder makes a record is a parameter; the hash and signature in the record are not modelled.
- WorkerSync.CachesCoherent: calls that take effect on the chain but are reported as failed are not modelled.
- RequestHash.RequestHashIgnoresOrder: SHA-256 and UTF-8 are arbitrary functions; the response hash, which concatenates text and bytes when there is no output, is not modelled.
- CsvStore.Table.CsvSearchDelete: asks that the comparisons stay inside the buffer (`CsvSearch.InsideExact` says when); what the code reads beyond it is not defined. For a searched value with a comma it says what is stored, and nothing about lists.
- Crashes of processors, several listeners, and a boot racing a processor.
- A manager's cleanup interleaved with live processors, except for the capacity results.
- HTTP, ZMQ transport, JSON-RPC dispatch, the schemas of other than lookup requests, signature validation, logging and configuration.
- OpenSSL and Cryptodome wrappers, attestation, enclave signup and the enclaves themselves: execution gives an arbitrary result.
- LMDB internals and the text protocol of the key-value server.
- `redeem_tokens` and `share_tokens` of the token application, the hex conversions and `c11_support` of the common code, retry counting, and the aml, echo, heart_disease_eval, inside_out_eval, simple_wallet and generic_client example applications.
