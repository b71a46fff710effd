# Order lifecycle: a verified model

This project models how a food order travels through the platform and proves what its guards add up
to. order-service creates the order idempotently and writes order, idempotency key and outbox event
together. A relay publishes the event under a row lease. partner-service turns it into an inbox row
and a submission, and a dispatcher delivers the submission to the restaurant under the same kind of
lease. The restaurant keeps its first decision and reports it with a callback. partner-service records
the callback, decides the submission and writes a partner event, which order-service finally applies.
Delivery is at least once everywhere: any process may stop at any point, any answer may be lost, and
any record may be handled again.

`dafny verify dfyconfig.toml` checks everything.

## How it is put together

Each operation has a specification function on values; the operation itself is a method that works in
place as the code does and is proved to have exactly that effect. What an operation reads, writes and
answers is then stated once more field by field (the lemmas named `...Effect`, `...Fields`, `...Writes`,
`...Replies`, `...Answers`), without naming the functions it is built from, and the run theorems rest on
that: who may decide an order, where a submission goes, why a row was given up, what an item costs.

A protocol is a set of steps, a run is any sequence of steps by anyone, and steps that cannot happen
change nothing; the main results speak of all runs from the empty state. A transaction is one step, because advisory locks and `FOR UPDATE`
serialise the conflicting ones. Where a loop releases control (between a send and its mark, between two
migrations, around the restaurant's callback), the method takes a script of what everybody else does
meanwhile and is proved to be a run of the steps.

| module | what it models |
|---|---|
| `Money`, `OrderDomain` | int64 cents with wrap-around; orders, prices and the status machine |
| `Canonical`, `Texts` | the canonical text of a create request, and the string laws it rests on |
| `Events` | the two event contracts, envelopes, Kafka headers, and reading them back |
| `Menu`, `Catalog` | folding join rows into a menu; validating and pricing items in both catalog stores |
| `OrderStore`, `PostgresStore`, `StoreAgreement` | the order store on maps, on tables with constraints, and their agreement |
| `Creation` | idempotent order creation, with any number of interleaved requests |
| `Lease`, `LeaseStore` | leased rows: both outboxes and the submissions, the relay's and the dispatcher's `RunOnce` |
| `Partner`, `PartnerStore` | partner-service's database: order events, callbacks, decisions |
| `Restaurant` | the sample restaurant's handler with its two critical sections |
| `Consumer`, `EventHandlers` | the Kafka consumer group for any idempotent handler, and the two handlers |
| `Migrations`, `MigrationFiles` | racing migration runners, loading a directory, the runner's loop |
| `Saga` | all of it composed |
| `ConsumerGroups` | the composed system with both consumer groups explicit, refining `Saga` |
| `Journey` | a run of the composed system from nothing to a decided order |

`Saga` composes the step machines of `Creation`, `Lease` (three times), `Partner` and `Restaurant`. Its
consumers may handle any record at any time, which is more than a consumer group does:
`ConsumerGroups.RunsRefine` turns every run with real groups into one of its runs.

Automatic induction is switched off wherever Dafny would try it: every induction is spelled out.

## What came out differently than one might expect

- An order with an item that has no modifiers cannot be stored in PostgreSQL. `NewOrder` leaves an empty
  modifier list nil (internal/order/domain/order.go:66), it is written as JSON `null`
  (internal/order/postgres/store.go:255), and the CHECK at migrations/order/0001_init.sql:31 refuses
  it. `PostgresStore.NewOrderStorable` gives the exact condition.
- `attempts` can pass `MaxAttempts`: a lease that is claimed over without a mark is not counted against
  the limit until some worker marks a failure. `Lease.AttemptAccounting` says by how much.
- A mark checks `locked_by` but not `locked_until`, so an expired lease that nobody claimed over can
  still be marked. `Lease.MarkIsFenced` is exact about it.
- The canonical request text is proved injective for identifiers free of its separators. No part of that
  condition can be dropped: `Canonical` has a family of collisions for each.
- An order whose price wraps around to exactly zero passes every constraint of the orders schema, but
  partner-service refuses its event for good, which stops that partition. `PostgresStore.ZeroPriceIsStored` is such an
  order, and `PostgresStore.StoredButUnreadable`, `Saga.OrderTopicAccepted` and `Events.OrderEventReads`
  are exact about it. The partner topic never holds such a record.
- Discounts may take a unit price to zero or below; the catalog accepts that and `NewOrder` refuses it
  (`Catalog.TotalsAgree`).
- The restaurant does not check that a delivered order is undecided; one delivered decided would get
  callbacks without identity (`Restaurant.OneCallbackPerOrder`). partner-service only sends undecided
  ones (`Saga.SnapshotsAgree`).

## Model

| member | source | states |
|---|---|---|
| `Saga.NoPoison` | internal/order/kafkahandler/order_status_changed.go:35-95 | In every run of the composed system, every record on the partner topic is accepted by the handler and applied without `ErrOrderNotFound`, `ErrInvalidStatusTransition` or `ErrInboxConflict`, however often and in whatever order records are handled; and it asks for the decision the submission holds |
| `Saga.OrdersFollowSubmissions` | internal/order/postgres/store.go:153-171 | In every run an order is pending at version 1, or accepted or rejected at version 2 with a submission holding that same decision |
| `Saga.AcknowledgedIsRecorded` | internal/sample/httpapi/handler.go:258-269 | Whatever the restaurant marks as acknowledged, partner-service has recorded with the same payload, and the order's submission holds that decision |
| `Saga.DrainedAgrees` | internal/partner/postgres/callbacks.go:58-128 | Once every partner outbox row is published and every record on the topic was handled, a submission is decided if and only if its order has that same status |
| `Saga.CallbackIsAccepted` | internal/partner/postgres/callbacks.go:36-171 | A callback on its way from the restaurant always names its submission; it is answered with success if and only if the drawn event id is non-empty, the decision time is not the zero time, the restaurant's integration is active for that store with exactly the presented token digest, no other decision came first, and its ids clash with nothing recorded |
| `Saga.OnlyTheRestaurantDecides` | internal/partner/postgres/callbacks.go:153-171 | In every run, an order that is no longer pending got its status from a callback about it, for its own restaurant, presented at some step with the very token digest the restaurant's active integration had at that moment |
| `Saga.OrderTopicAccepted` | internal/partner/application/service.go:72-157 | A record on the order topic is readable if and only if its order's stored total is positive; a readable one is filed if and only if the drawn submission id is non-empty and the event is already filed or its integration is active and the submission id unused: no inbox conflict and no second submission ever arises |
| `Saga.SnapshotsAgree` | internal/order/application/service.go:158-217 | Items, prices and total in the event, the submission and the restaurant's order are those of the order as created, and the submission carries the event's correlation id; only the restaurant's own decision is added |
| `Saga.OrdersNeverChange` | internal/order/postgres/store.go:118-180 | Over any later steps an order keeps its items, prices and total, and keeps its status and version once it is decided |
| `Saga.NextKeepsInv` | internal/partner/postgres/store.go:39-113 | Every step of every service keeps the invariant that ties orders, outbox rows, submissions, callbacks, partner events and the restaurant's orders together |
| `ConsumerGroups.RunsRefine` | internal/platform/kafkaconsume/consumer.go:111-173 | Refinement: with both consumer groups made explicit (members, offsets, crashes, late commits), every run of the whole is a run of the composed system, so all its results hold there |
| `ConsumerGroups.StatusConsumerNeverBlocks` | internal/platform/kafkaconsume/consumer.go:142-157 | Every call of the partner status handler, by any member at any time, succeeds |
| `ConsumerGroups.CommittedAgrees` | internal/platform/kafkaconsume/consumer.go:127-134 | Once every partner event is published and the group has committed to the end of the topic, a submission is decided exactly as its order is |
| `Journey.OrderGetsDecided` | internal/order/application/service.go:133-203 | For every valid request with a positive price and either decision there is a run from the empty system to an order holding that decision, acknowledged by the restaurant, with everything published and handled |
| `Lease.MutualExclusion` | internal/order/postgres/outbox.go:16-31 | In every schedule, two workers never hold unexpired leases on one row |
| `Lease.MarkIsFenced` | internal/partner/postgres/submissions.go:35-52 | A mark finds its row owned if and only if the ticket carries the row's current attempt number and the row is still open, and then the marker made the row's latest claim; an expired lease nobody claimed over still marks |
| `Lease.AttemptAccounting` | internal/partner/dispatch/dispatcher.go:67-85 | Sends never outnumber attempts; attempts stay within `MaxAttempts` plus leases claimed over without a mark; retried failures stay below `MaxAttempts`; without a lapsed lease a row marked that often is no longer pending |
| `Lease.AttemptsCanPassTheLimit` | internal/partner/postgres/submissions.go:15-34 | A schedule in which one lapsed lease takes `attempts` past the limit |
| `Lease.NothingLostOrForged` | internal/order/postgres/outbox.go:32-49 | A row marked published was delivered, and every delivery under one id carries the row's own payload |
| `Lease.RowsLast` | internal/partner/postgres/submissions.go:35-52 | Over any later steps a row keeps its payload, never loses attempts, and leaves a closed status only by a decision |
| `Lease.ClaimableAgain` | internal/order/postgres/outbox.go:15-49 | A row left alone for longer than the lease and the retry delay can be claimed again |
| `Lease.ClaimEffect` | internal/partner/postgres/submissions.go:15-34 | A claim takes only open rows past their lease and their retry time, and writes lock, expiry and one more attempt, column by column; other rows stay |
| `Lease.DueIsClaimed` | internal/order/postgres/outbox.go:16-31 | Any open row past its lease and its retry time can be claimed by a worker that is not busy, with a ticket for the next attempt |
| `Lease.MarkEffect` | internal/partner/dispatch/dispatcher.go:72-84 | A mark, column by column: a row is given up if and only if a limit is set and the send was refused for good or its attempt has reached the limit; otherwise a refused send leaves it open, unlocked and due after the retry delay |
| `Lease.FailedWasGivenUp` | internal/partner/dispatch/dispatcher.go:74-82 | In every run, a failed row was given up by a mark of its own current claim whose send was refused for good, or refused at the limit |
| `Lease.FailedHasReason` | internal/partner/dispatch/dispatcher.go:74-82 | In every run, a failed row has attempts at the limit, or some send of that very row was refused for good |
| `Lease.DecideEffect` | internal/partner/postgres/callbacks.go:119-128 | A decision changes its row's status and nothing else |
| `Lease.NextKeepsInv` | internal/partner/postgres/outbox.go:15-49 | Claiming, sending, marking, deciding, crashing and the passing of time all keep the lease invariant |
| `LeaseStore.LeaseTable.Claim` | internal/order/postgres/outbox.go:113-149 | Claims at most `limit` claimable rows nobody else holds, and all of those when that is fewer; refuses a limit below one |
| `LeaseStore.LeaseTable.TakeRows` | internal/partner/postgres/submissions.go:89-144 | Row by row: one more attempt, the caller's lock, and a ticket with exactly that attempt number; no other row changes |
| `LeaseStore.LeaseTable.Mark` | internal/partner/postgres/submissions.go:146-183 | Changes exactly the row the caller owns: delivered closes it, a refused send gives it up if and only if a limit is set and the refusal is permanent or the attempt has reached the limit, anything else frees it until the retry delay has passed; reports ownership |
| `LeaseStore.LeaseTable.RunOnce` | internal/platform/outbox/relay.go:69-88 | One pass of the relay or dispatcher is a run of exactly these lease steps: one claim that selects as the statement does, then send and mark of the claimed messages in order, with anything happening in between; it ends early only when a mark is refused or its answer lost, or when the process stops |
| `LeaseStore.LeaseTable.DeliverOne` | internal/partner/dispatch/dispatcher.go:72-84 | Exactly one send and one mark of that message, unless the process stops in between; the batch goes on if and only if the mark found the row owned and was answered |
| `Partner.DecisionNeverFlips` | internal/partner/postgres/callbacks.go:132-151 | A decided submission keeps its decision and payload over any later callbacks, claims, dispatcher marks and integration changes |
| `Partner.OneDecisionPerOrder` | internal/partner/postgres/callbacks.go:58-128 | All callbacks and partner events of an order carry the decision its submission holds, and the submission is decided exactly when it has a callback |
| `Partner.OneEventPerCallback` | internal/partner/postgres/callbacks.go:80-118 | Recorded callbacks and partner outbox events are in bijection and agree on the payload |
| `Partner.OneSubmissionPerEvent` | internal/partner/postgres/store.go:61-106 | Every submission has its inbox row, the only one for its order, with the same payload; no two submissions share an order or a source event. With `Partner.EveryInboxRowIsFiled`, inbox rows and submissions are in bijection |
| `Partner.EveryInboxRowIsFiled` | internal/partner/postgres/store.go:61-106 | Every inbox row has its submission, made from that very event with the same order and payload |
| `Partner.ExactReplayIsDuplicate` | internal/partner/postgres/callbacks.go:65-79 | Replaying an answered callback, however much later, changes nothing and answers Duplicate if and only if the restaurant's integration is active for that store with exactly the presented token digest |
| `Partner.OtherDecisionIsRefused` | internal/partner/postgres/callbacks.go:132-151 | A callback with the opposite decision is refused and changes nothing, under any callback id and token |
| `Partner.RedeliveryIsDuplicate` | internal/partner/postgres/store.go:61-73 | Redelivering an answered order event is a duplicate that changes nothing, even when its integration has been disabled since |
| `Partner.CallbackRecords` | internal/partner/callback/service.go:82-154 | A new callback writes one callback row, one outbox row and the decision; any other answer writes nothing |
| `Partner.CallbackSucceeds` | internal/partner/postgres/callbacks.go:36-171 | A callback succeeds if and only if all its fields are there, the integration is active for its store with the presented token digest, the order was submitted to that restaurant and store and not decided otherwise, and the callback is new with a fresh event id or equal to the recorded one; it is a duplicate exactly when its id was known |
| `Partner.CallbackFails` | internal/partner/callback/service.go:82-134 | Which failure it is, in the order of the checks: malformed, unauthorized, another decision or payload, a repeated event id; and none changes anything |
| `Partner.CallbackWrites` | internal/partner/postgres/callbacks.go:80-128 | Column by column: the callback row, the partner event with its type, keys, correlation and causation ids, the decided submission; every other row stays |
| `Partner.CallbackWasAuthorized` | internal/partner/postgres/callbacks.go:153-171 | In every run, each recorded callback was presented at some step with exactly the token digest its restaurant's active integration had then, for that store |
| `Partner.OrderIsFiled` | internal/partner/postgres/store.go:39-113 | An order event is filed if and only if it is new, its integration is active, and no key it needs is taken |
| `Partner.OrderWrites` | internal/partner/postgres/store.go:75-106 | What is filed, column by column: address and store of the integration in that state, the event's correlation and event ids, order, restaurant and payload; every other row stays |
| `Partner.OrderIsNotFiled` | internal/partner/postgres/store.go:61-78 | Every other answer, exactly: duplicate or conflict for a known event, missing integration, taken key; and nothing changes |
| `Partner.SubmissionWasAddressed` | internal/partner/postgres/store.go:75-95 | In every run, each submission carries the address and store its restaurant's active integration had when its event was received, and that event's ids and payload |
| `Partner.NextKeepsInv` | internal/partner/postgres/submissions.go:15-52 | Order events, callbacks, dispatcher and relay steps keep inbox, submissions, callbacks and outbox linked |
| `PartnerStore.Store.ReceiveOrder` | internal/partner/postgres/store.go:39-113 | The transaction, statement by statement with rollback, has exactly the specified effect and answer; a filed submission has the address and store of the active integration and the event's own ids and payload |
| `PartnerStore.Store.ReceiveStatusCallback` | internal/partner/postgres/callbacks.go:36-130 | The callback service and transaction, statement by statement with rollback, have exactly the specified effect and answer; success means the active integration of that store has the presented token digest, and the callback and its decision are recorded |
| `PartnerStore.Store.AuthorizeCallback` | internal/partner/postgres/callbacks.go:153-171 | True if and only if the restaurant's integration is active, for that store, with exactly the presented token digest |
| `PartnerStore.Store.AuthorizeCallbackSubmission` | internal/partner/postgres/callbacks.go:132-145 | Finds the indexed submission of that order if and only if it went to that restaurant and store |
| `Consumer.ExactlyOnce` | internal/platform/kafkaconsume/consumer.go:111-173 | For an idempotent handler and any log, crashes, redeliveries, overlapping members and late commits: the store is what handling a contiguous prefix of the log leaves, each record once, successfully and in log order, between other transactions; the committed offset never passes that prefix |
| `Consumer.CommittedIsAbsorbed` | internal/platform/kafkaconsume/consumer.go:127-134 | Every record below the committed offset was taken in, and handling it again changes nothing |
| `Consumer.RepeatsAreSilent` | internal/platform/kafkaconsume/consumer.go:142-157 | A record equal to an earlier one changes nothing where it stands: each distinct record has its effect once |
| `Consumer.CompletedIsDone` | internal/platform/kafkaconsume/consumer.go:111-136 | A run of the loop that completed n records had the n records after the committed offset handled |
| `Consumer.RoundAdvances` | internal/platform/kafkaconsume/consumer.go:111-136 | From any state, a member that joins, handles the next uncommitted record and has its commit answered moves the committed offset past exactly that record, which the store has taken in |
| `Consumer.StepFields` | internal/platform/kafkaconsume/consumer.go:111-173 | Where each step leaves its member: joining at the committed offset, handled only when the handler reported success, moved on only when the commit was answered; an offset is committed only if it was requested |
| `Consumer.Topic.CallHandler` | internal/platform/kafkaconsume/consumer.go:144-151 | One call of the handler: the store, the handled prefix and the member's state after it, with or without an error reported |
| `Consumer.Topic.SendCommit` | internal/platform/kafkaconsume/consumer.go:217-223 | One commit request: the member moves on exactly when it is answered |
| `Consumer.Topic.Run` | internal/platform/kafkaconsume/consumer.go:111-136 | The fetch, handle, commit loop, with anything happening in between, is a run of the steps in which the member moves over consecutive records |
| `Consumer.Topic.HandleUntilSuccess` | internal/platform/kafkaconsume/consumer.go:142-157 | Returns success exactly when the record was handled; otherwise the member still holds it |
| `Consumer.Topic.CommitUntilSuccess` | internal/platform/kafkaconsume/consumer.go:159-173 | Moves the member to the next record exactly when a commit was answered |
| `EventHandlers.StatusesApplyExactlyOnce` | internal/order/postgres/store.go:118-180 | Order-service consumes its topic exactly once, whatever is on the topic, between the orders created meanwhile |
| `EventHandlers.OrdersFileExactlyOnce` | internal/partner/postgres/store.go:39-113 | Partner-service consumes its topic exactly once, between callbacks, deliveries and integration changes |
| `EventHandlers.StatusHandlerIdempotent` | internal/order/memory/store.go:94-134 | Success takes a partner event in for good, failure and replay change nothing, and no later event or creation releases it |
| `EventHandlers.OrderHandlerIdempotent` | internal/partner/postgres/store.go:61-73 | The same for order events in partner-service, under callbacks, deliveries and integration changes |
| `EventHandlers.Handle` | internal/order/kafkahandler/order_status_changed.go:35-74 | Reads, validates and applies a record exactly as specified; anything invalid leaves the store alone |
| `EventHandlers.HandleOrderCreated` | internal/partner/application/service.go:72-121 | Reads, validates and files a record exactly as specified; anything invalid leaves the tables alone |
| `Restaurant.OneInFlight` | internal/sample/httpapi/handler.go:233-256 | At most one callback per order is on its way, and the in-flight flag says exactly whether one is |
| `Restaurant.OneCallbackPerOrder` | internal/sample/httpapi/handler.go:205-256 | All callbacks sent for an order have one id, status and time, those stored with it; the id is non-empty if and only if the order was delivered undecided |
| `Restaurant.DecisionLasts` | internal/sample/httpapi/handler.go:145-162 | Until a restart, no request, redelivery or failed send resets a decision, and nothing is sent after an acknowledgement |
| `Restaurant.DeliverReplies` | internal/sample/httpapi/handler.go:113-165 | The reply to every delivery, and the stored order it leaves, field by field: taken once, taken again if equal, refused if different or incomplete |
| `Restaurant.BeginReplies` | internal/sample/httpapi/handler.go:183-256 | The reply that ends a status request before its send, or the one callback that goes out, field by field, with the identity and time of the order's first decision |
| `Restaurant.BeginDecides` | internal/sample/httpapi/handler.go:205-256 | The order a status request leaves: the decision with its identity once and for all, in flight exactly when its callback went out |
| `Restaurant.FinishReplies` | internal/sample/httpapi/handler.go:258-282 | The reply after the send is the sender's outcome, and the order is acknowledged if and only if it was or the send succeeded |
| `Restaurant.NextKeepsInv` | internal/sample/httpapi/handler.go:183-283 | Deliveries and both halves of every status request keep flags, requests and sent callbacks consistent |
| `Restaurant.Handler.ReceiveOrder` | internal/sample/httpapi/handler.go:113-165 | Stores a first delivery, recognises a repeated one, refuses one with another payload |
| `Restaurant.Handler.Prepare` | internal/sample/httpapi/handler.go:201-256 | The first critical section has exactly the specified effect and reply |
| `Restaurant.Handler.Conclude` | internal/sample/httpapi/handler.go:260-282 | The second critical section has exactly the specified effect and reply |
| `Restaurant.Handler.ChangeOrderStatus` | internal/sample/httpapi/handler.go:183-283 | A whole status request, with any requests served while its callback is on its way, is a run of the steps and replies as they say |
| `Creation.OneOrderPerKey` | internal/order/application/service.go:133-203 | Over every interleaving, successful replies to one (user, key) name one order and one canonical request, and at most one of them is not a reuse |
| `Creation.OneOrderOneKeyOneEvent` | internal/order/postgres/store.go:60-104 | Orders, key records and outbox events stay in bijection |
| `Creation.RetryIsAnsweredFromStore` | internal/order/memory/store.go:50-61 | A clean retry of a stored request is answered from the store whatever the catalog says, and any other clean request under the key conflicts |
| `Creation.ReplyNamesOwnOrder` | internal/order/application/service.go:133-203 | In every run, behind each successful reply there is one request of the same user under the same key with the same canonical command that created the order; the order is that user's, for the restaurant that request named, and no other user can read it |
| `Creation.OnlyCompleteRequestsProceed` | internal/order/application/service.go:245-255 | In every run, a request that was looked up, priced or answered with an order named a user, key, restaurant and items with ids and positive quantities |
| `Creation.LookReplies` | internal/order/application/service.go:133-156 | The lookup's reply, exactly: incomplete, new key, other request under the key, or the stored order |
| `Creation.PriceFields` | internal/order/application/service.go:158-217 | What is stored for a priced request: its user and restaurant, the catalog's items at the catalog's prices, its key and fingerprint, and an event correlated by the request and caused by the key |
| `Creation.PriceFails` | internal/order/application/service.go:158-217 | Pricing fails if and only if the catalog gave no answer, `NewOrder` refuses the order, or the event id is missing, and says which |
| `Creation.CreateOrder` | internal/order/application/service.go:133-203 | The service method does the lookup, catalog and store steps as specified, and asks the catalog exactly when the key is new |
| `Creation.ValidateCreateOrderInput` | internal/order/application/service.go:245-255 | Accepts exactly the inputs with user, key, restaurant and items that have an id and a positive quantity |
| `Creation.NextKeepsInv` | internal/order/application/service.go:133-203 | Every step of every request keeps keys, orders, events and the requests' own drawn ids apart |
| `OrderStore.CreateReplays` | internal/order/memory/store.go:63-80 | Replaying a create answers with the stored order and changes nothing, whatever record the replay carries |
| `OrderStore.CreateConflicts` | internal/order/memory/store.go:50-61 | A different fingerprint under a used key conflicts and changes nothing |
| `OrderStore.CreateWrites` | internal/order/memory/store.go:63-80 | A create under a new key answers with that order and writes exactly the order, the key row and the event |
| `OrderStore.CreateUnderUsedKey` | internal/order/memory/store.go:50-61 | Under a used key nothing is written: the stored order for an equal fingerprint, a conflict for another |
| `OrderStore.GetFindsOwn` | internal/order/memory/store.go:83-92 | An order is found if and only if it exists and belongs to the asking user |
| `OrderStore.ApplyFirst` | internal/order/memory/store.go:94-134 | A partner event's first handling, exactly: no such order, a move the status table does not have, the status already there, or the one change with version plus one that the answer carries; only a success is remembered |
| `OrderStore.ApplyAgain` | internal/order/memory/store.go:94-113 | A known event changes nothing: a conflict for another payload, else a duplicate with the order as it is now |
| `OrderStore.ApplyAbsorbs` | internal/order/memory/store.go:94-134 | An applied event is absorbed: redelivery is a duplicate without effect, and no later operation undoes that |
| `OrderStore.OnlyFirstSuccessWrites` | internal/order/memory/store.go:63-134 | Errors and replays leave the store exactly as it was |
| `OrderStore.OperationsKeepStoreOk` | internal/order/memory/store.go:63-134 | Keys and inbox rows always refer to existing orders |
| `OrderStore.MemoryStore.FindOrderByIdempotencyKey` | internal/order/memory/store.go:43-61 | Answers the specified lookup |
| `OrderStore.MemoryStore.CreateOrder` | internal/order/memory/store.go:63-80 | Has exactly the specified effect and answer on the maps |
| `OrderStore.MemoryStore.GetOrder` | internal/order/memory/store.go:82-92 | Finds an order only for its own user |
| `OrderStore.MemoryStore.ApplyPartnerEvent` | internal/order/memory/store.go:94-134 | Has exactly the specified effect and answer on the maps |
| `PostgresStore.Store.CreateOrder` | internal/order/postgres/store.go:60-104 | Read back through its tables, creates as the map store does when the constraints admit the order, and otherwise rolls back to the same contents |
| `PostgresStore.Store.ApplyPartnerEvent` | internal/order/postgres/store.go:118-180 | Read back through its tables, always applies as the map store does |
| `PostgresStore.Store.FindOrderByIdempotencyKey` | internal/order/postgres/store.go:200-213 | Answers as the map store does |
| `PostgresStore.Store.GetOrder` | internal/order/postgres/store.go:106-116 | Answers as the map store does |
| `PostgresStore.Store.InsertOrderItems` | internal/order/postgres/store.go:253-274 | Succeeds exactly when every row passes the CHECKs, and then the order's items load back in order and no other order's items change |
| `PostgresStore.Store.LoadOrderItems` | internal/order/postgres/store.go:331-368 | Collects an order's rows in serial order |
| `PostgresStore.NewOrderStorable` | internal/order/postgres/store.go:253-274 | An order `NewOrder` built is stored if and only if its ids are new, every item has a modifier, and no wrapped line or total is out of range |
| `PostgresStore.StorableFields` | migrations/order/0001_init.sql:3-69 | The constraints of the orders schema on a new order, one by one: known status, total and version, positive price, quantity and line total and a modifier array per item, fresh order and event ids |
| `PostgresStore.StoredButUnreadable` | migrations/order/0001_init.sql:3-32 | Exactly which new orders are stored although partner-service refuses their event for good: the storable ones whose price wraps around to zero |
| `PostgresStore.ZeroPriceIsStored` | internal/order/domain/order.go:57-86 | Such an order: four items at a quarter of 2^64 cents are built by `NewOrder`, total zero, are stored, and their event is not readable |
| `StoreAgreement.SameAnswers` | internal/order/postgres/store.go:53-180 | Any sequence of find, create, get and apply calls gets the same answers from tables and maps and leaves the same contents, for orders the constraints admit and fresh ids |
| `Canonical.FingerprintIdentifiesRequest` | internal/order/application/idempotency.go:11-33 | On clean commands, canonical strings are equal if and only if user, restaurant and the multiset of (item, quantity, multiset of modifiers) are |
| `Canonical.ReorderingKeepsFingerprint` | internal/order/application/idempotency.go:13-24 | Reordering items, or modifiers within an item, never changes the canonical string, with no condition on the texts |
| `Canonical.FingerprintCreateOrderRequest` | internal/order/application/idempotency.go:11-33 | The loop computes the canonical string the laws are about |
| `Canonical.NulInUserCollides` | internal/order/application/idempotency.go:15-32 | Why the condition is needed: with a NUL in the user id, two different requests share a canonical string |
| `Canonical.NulInRestaurantCollides` | internal/order/application/idempotency.go:15-32 | Why the condition is needed: with a NUL in the restaurant id, two different requests share a canonical string |
| `Canonical.ColonInItemCollides` | internal/order/application/idempotency.go:15-32 | Why the condition is needed: with a colon in an item id, two different requests share a canonical string |
| `Canonical.CommaInModifierCollides` | internal/order/application/idempotency.go:15-32 | Why the condition is needed: with a comma in a modifier, two different requests share a canonical string |
| `Canonical.EmptyModifierCollides` | internal/order/application/idempotency.go:15-32 | Why the condition is needed: with an empty modifier, two different requests share a canonical string |
| `Canonical.BarInItemCollides` | internal/order/application/idempotency.go:15-32 | Why the condition is needed: with a bar in an item id, two different requests share a canonical string |
| `Canonical.BarInModifierCollides` | internal/order/application/idempotency.go:15-32 | Why the condition is needed: with a bar in a modifier, two different requests share a canonical string |
| `OrderDomain.NewOrder` | internal/order/domain/order.go:49-87 | Fails exactly on the first invalid field or item; otherwise pending, version 1, each line priced, and the total is the exact price modulo 2^64 |
| `OrderDomain.OrderForFields` | internal/order/domain/order.go:49-87 | Succeeds if and only if ids and items are complete with positive quantity and price; every field of the order and of its lines is the input's, each line price times quantity wrapped; the error names the first invalid item |
| `OrderDomain.MovedFields` | internal/order/domain/status.go:16-43 | One request: the moves of the status table and no others, one more version, and nothing else changed |
| `OrderDomain.OrderVar.TransitionTo` | internal/order/domain/order.go:89-101 | Moves along the table, leaves the order untouched when refused or already there, and says which |
| `OrderDomain.RunCountsChanges` | internal/order/domain/order.go:89-101 | Over any requests, the version counts the changes, an acyclic rank pays for each of them, and nothing but status and version moves |
| `OrderDomain.ReachableExactlyVisible` | internal/order/domain/status.go:16-43 | Exactly the listed (status, version) pairs are reachable from a new order; no version exceeds 5 |
| `OrderDomain.TerminalAbsorbs` | internal/order/domain/status.go:16-43 | A terminal order answers any requests without moving |
| `Money.SumWraps` | internal/partner/application/service.go:140-153 | Wrapping each line before adding, and each addition, makes no difference to the wrapped total |
| `Texts.LeqIsLexicographic` | internal/platform/migrations/runner.go:124-126 | The string order is Go's: a prefix comes first, else the first difference decides |
| `Events.OrderEventReads` | internal/partner/application/service.go:131-157 | Partner-service recomputes exactly the total `NewOrder` stored, so it accepts a new order's event if and only if the wrapped price is positive |
| `Events.FittingPriceIsPositive` | internal/order/domain/order.go:57-86 | A price that fits in int64 is stored exactly and is positive |
| `Events.CallbackEventReads` | internal/partner/callback/service.go:82-134 | A partner event, published and read back, asks order-service for exactly the callback's decision |
| `Events.NewEnvelopeFields` | internal/platform/events/envelope.go:38-68 | An envelope is refused exactly when an id, a type, a key, the producer or a positive version is missing; otherwise every field is kept, and only a zero time is replaced |
| `Events.OrderEventFields` | internal/order/application/service.go:158-217 | The event of an order: keyed by the order, correlated by the request, caused by the idempotency key, and a copy of the order |
| `Events.RecordCarries` | internal/order/postgres/outbox.go:205-223 | What the published record of an outbox row carries: the partition key, the payload, and each of the nine headers with its own column |
| `Events.RecordsIdentify` | internal/order/postgres/outbox.go:205-223 | No two different envelopes are published alike |
| `Events.ReadOrderFields` | internal/partner/application/service.go:72-157 | The order handler reads exactly the complete version-1 order events whose lines and wrapped total add up, and takes their ids and payload |
| `Events.ReadStatusFields` | internal/order/kafkahandler/order_status_changed.go:35-95 | The status handler reads exactly partner-service's complete version-1 decisions about the record's own order, and asks for exactly that decision |
| `Events.ValidatePayload` | internal/partner/application/service.go:131-157 | Accepts exactly the payloads whose fields, lines and wrapped total are consistent |
| `Events.BuildKafkaMessage` | internal/platform/kafkapub/publisher.go:48-75 | Lists every header once, in key order, with the event id among them |
| `Events.Fetch` | internal/platform/kafkaconsume/consumer.go:198-215 | Rebuilds the header map from such a list |
| `Events.Transport` | internal/platform/kafkapub/publisher.go:48-75 | Publishing and fetching carry topic, key, value and headers through unchanged |
| `Menu.GetMenu` | internal/catalog/postgres/store.go:102-190 | For rows with one set of columns per id: distinct category and item ids, the same rows when flattened, and in the same order when the rows are grouped as the query orders them |
| `Menu.PlaceRow` | internal/catalog/postgres/store.go:138-185 | One row: the index maps keep pointing at exactly the right category and item, and the menu gains the row where it belongs |
| `Menu.OrderByGroups` | internal/catalog/postgres/store.go:29-59 | Rows in the query's ORDER BY order, for any sort orders and any collation, keep the rows of a category and of an item together, which is what `Menu.GetMenu` needs to keep their order |
| `Menu.RebuildMenu` | internal/catalog/postgres/store.go:102-190 | Rows come from some menu with distinct ids exactly when they are such a table, and the fold then gives that very menu back |
| `Menu.FlattenIsTable` | internal/catalog/postgres/store.go:29-59 | A nested menu with distinct ids flattens to rows the fold accepts |
| `Menu.FlattenUnique` | internal/catalog/postgres/store.go:102-190 | Different menus with distinct ids flatten to different rows |
| `Catalog.ValidateOrderItems` | internal/catalog/postgres/store.go:193-264 | Succeeds with a list of items if and only if it is the answer the menu itself gives (`Catalog.ValidateAnswers`); otherwise the first error in request order |
| `Catalog.ValidateInMemory` | internal/catalog/memory/store.go:88-151 | The in-memory store, with its other lookup tables, gives the same answer for every menu |
| `Catalog.ValidatedIsOffered` | internal/catalog/postgres/store.go:225-262 | Item by item and in order: the menu's last item under the requested id, available, with its name, the requested quantity and modifiers, its price raised by each available modifier's delta in turn, and the line total, all wrapped to int64 |
| `Catalog.ValidateAnswers` | internal/catalog/postgres/store.go:225-262 | The success answer, exactly, stated on the menu: open restaurant, non-empty request, and for each entry the item found under its id with name, quantity, modifiers, unit price built up modifier by modifier, and line total; nothing else is a success |
| `Catalog.ValidateSucceeds` | internal/catalog/postgres/store.go:193-246 | Validation succeeds if and only if the restaurant is open, the request is non-empty, and every entry names an available item that offers every modifier asked for |
| `Catalog.ValidateRefuses` | internal/catalog/postgres/store.go:225-249 | The refusal names the first entry that cannot be sold and the first thing wrong with it |
| `Catalog.PlainPrice` | internal/catalog/memory/store.go:129-147 | Without modifiers a unit costs the item's price |
| `Catalog.OneMoreModifier` | internal/catalog/postgres/store.go:243-252 | Asking for one more modifier the item offers raises that unit price by its delta, the line total accordingly, and nothing else of the answer |
| `Catalog.ReportTotal` | internal/catalog/grpcapi/server.go:62-79 | The reported total is the wrapped sum of the line totals |
| `Catalog.TotalsAgree` | internal/order/domain/order.go:57-86 | The total the catalog reports is the one `NewOrder` stores, and `NewOrder` refuses exactly the validated requests with a nameless item or a unit price that discounts made non-positive |
| `Migrations.RacingRunnersExecutePrefix` | internal/platform/migrations/runner.go:48-69 | With any number of runners on prefixes of one list with distinct versions, and a crash anywhere, the executed SQL is a prefix of that list, no runner meets a mismatch, and a finished run's list is executed |
| `Migrations.EachVersionOnce` | internal/platform/migrations/runner.go:145-185 | Whatever the lists are, no version of a service runs twice |
| `Migrations.FinishedIsRecorded` | internal/platform/migrations/runner.go:62-66 | Whatever the lists are, a run that got past an entry left it recorded with that checksum |
| `Migrations.FailureStops` | internal/platform/migrations/runner.go:62-66 | After a mismatch or error, a run applies nothing further |
| `Migrations.LoneRun` | internal/platform/migrations/runner.go:145-185 | Alone on an empty table, a run succeeds if and only if files of equal version have equal contents, and executes every file if and only if versions are distinct |
| `Migrations.ApplyEffect` | internal/platform/migrations/runner.go:145-185 | One migration's transaction, row by row: a recorded version is left alone and checked against the text; any other runs its SQL and records file name and checksum together, unless the transaction fails |
| `MigrationFiles.LoadMigrations` | internal/platform/migrations/runner.go:93-129 | Loads exactly the files named base + ".sql", each once and in name order, with the contents less the space around them and the part of base before any underscore; fails if and only if one of them holds nothing but space |
| `MigrationFiles.LoadedIsMigrationOf` | internal/platform/migrations/runner.go:100-138 | An entry is loaded as a migration if and only if it is a file named base + ".sql", under its own name, with its contents stripped of surrounding space and nothing more, and the version before the first underscore |
| `MigrationFiles.TrimIsStripped` | internal/platform/migrations/runner.go:111 | Trimming removes all the space around a text and nothing else: what is left is the one text with no space at its ends that the contents are made of |
| `MigrationFiles.LaterBuildExtends` | internal/platform/migrations/runner.go:93-129 | Adding files named after all others extends the loaded list at its end |
| `MigrationFiles.BeforeUnderscore` | internal/platform/migrations/runner.go:131-138 | The version is the name up to its first underscore, or all of it |
| `MigrationFiles.Database.ApplyMigration` | internal/platform/migrations/runner.go:145-185 | Executes and records a migration together or not at all, and skips a recorded one |
| `MigrationFiles.Database.Run` | internal/platform/migrations/runner.go:48-69 | The loop, with other runners at work in between, is a run of the steps; it reports bad configuration and blank files exactly when there are any, changes nothing then, and says truly how it ended |

## Left out

- JSON bytes and SHA-256: a document is its decoded value and a digest is that value, so both encodings are injective; a nil and an empty modifier list are one value, told apart only where an order row is written.
- kafka-go, pgx and database/sql: a topic is an append-only sequence of records, one partition at a time; a transaction is an atomic step.
- Token parsing and digest comparison: a callback carries a digest, compared for equality; the operator's token is not modelled.
- HTTP and gRPC routing, DTO copies and error-code mapping, apart from the total the catalog reports.
- Random ids, clocks and timers: drawn ids and times are parameters; fresh ones are assumed only where the code relies on it, and time is a natural number that never goes back. Restarting the restaurant empties it.
- The `occurred_at` header text: written as a decimal number of nanoseconds; no consumer reads it.
- Partner submissions written before migration 0002 and their backfilled columns.
- internal/order/domain/idempotency.go: the same canonical scheme, used by tests only.
- Process start-up, configuration, health endpoints, readiness backoff, shutdown.
- Publish order between rows: the claim statement promises none, and none is claimed.
- Saga.NextKeepsInv: creates orders on the map store, so it also covers orders that the CHECK constraints of the orders schema would refuse; `PostgresStore` says which those are.
- Consumer.ExactlyOnce: retention and compaction of topics are not modelled, and a group starts at the first offset.
- MigrationFiles.LoadMigrations: reading a directory entry never fails here.
- Migrations.LoneRun: assumes that no SQL statement fails; `Migrations.FinishedIsRecorded` and `Migrations.EachVersionOnce` do not.
