# The flash-sale order saga, verified

This project models the order, inventory and payment services of the flash-sale system and proves what the system is
for: stock is never oversold, orders, payments and poll answers agree, and a sale that is served to its end balances.
Four smaller cores beside the saga are modelled too: the outbox relay, the optimistic lock of the inventory service,
the snowflake order numbers and the cache-aside product service.

`dafny verify dfyconfig.toml` checks everything.

## How the saga is modelled

`SagaProtocol` is a state machine. Its state holds the Redis counters, idempotency keys and poll results, the order,
inventory and payment tables, the outbox rows, the publication log, the rows already consumed, the position of every
Seckill call, and what each event handler still has to send to Redis. Every Redis command, every SQL statement or
transaction, every publication and every delivery is one atomic step. Any number of Seckill calls and handlers
interleave. Redis commands may fail, with or without having been executed, keys and results may expire, and payment
is a free choice.

The three outbox tables are one sequence `rows` in insertion order; `TopicOf` says which table a row is in, because
every event type is written by exactly one service. `log` lists published rows in publication order. A row may be
published again (a relay that dies between send and mark) and a published row may be delivered at any time, in any
order, again, or never: "never" covers transactions that fail after the consumer has marked the message.

The services themselves are classes (`SagaServices`, `PartitionConsumer`, `SyncOrderService`, `InventoryService`,
`OutboxRelay`, `CachedProductService`, `Node`) whose methods update fields as the source does. Each method of
`SagaServices` is proved to perform a run of the step machine, so the theorems about runs speak about the methods.
Between any two commands of a Seckill call other calls, handlers, relays and expiries may do anything. If others are on
a stock row while the inventory service deducts from it, or its database fails, the run is one of `SagaTurns`.

## Which hypotheses the theorems carry

- `Init`: before the sale Redis holds at most the available stock of each product (PreloadStock, run beforehand),
  nothing is locked and there are no orders.
- `AtMostOnce`: no outbox row is delivered twice. No handler looks at event ids, although section 4.5 of the design
  document asks for it. How much of the hypothesis is needed is proved over whole runs, law by law, for every set of
  message kinds that may be repeated. The documented status machine, and "no order is charged twice", hold in all such
  runs exactly if ORDER_CREATED, STOCK_DEDUCTED and PAYMENT_REQUESTED are not in the set (`RepeatKeepsStatuses`,
  `RepeatKeepsPayments`). The sale is not oversold exactly if the set holds nothing but PAYMENT_SUCCESS and
  ORDER_COMPLETED, or nothing but STOCK_DEDUCT_FAILED (`RepeatKeepsPromises`). No order finds too little stock, and
  Redis stays within the available stock, exactly if the set holds nothing but STOCK_DEDUCT_FAILED (`RepeatKeepsStock`,
  `RepeatKeepsCoupling`). The counterexamples are short scripts (`SagaExamples`) that are proved to be runs
  (`SagaScripts`). `RepeatKeepsBooks` says for a single repeated message when it leaves the books of stock and Redis in
  balance, its Redis increment included. `PartitionConsumer` proves that consuming a partition without repeated rows
  delivers at most once.
- `Reachable(s0, s, g)`: state s is the end of such a run from s0, and g is its ghost ledger. It is written as a path
  of states; `PathRuns` and `RunReaches` show that this is the same as ending a run.
- `RedisKeepsAnswering`: no Redis command fails. The neutrality of error exits and the final answers to polls need it.
  `RedisStaysUp`, which only key ownership and the keys left at the end need, also excludes that a key expires. Stock
  safety and liveness need neither: units lost to a Redis error are counted in the ledger as `leaked`.
- Within the saga, inventory messages are handled one at a time, so a Deduct is one step, and the statements of Deduct
  and Return reach the database; there is no admin change of stock and no synchronous order on the same rows. That the
  sale is not oversold does not need this: `SagaTurns` defines runs on which the inventory may become anything before
  every step, and on these the sale is not oversold exactly if nothing is repeated but PAYMENT_SUCCESS and
  ORDER_COMPLETED (`RedisGuardsTheSale`, `RepeatKeepsPromisesAnyway`).
- The theorems in `SagaAnyDelivery` and `SagaOrigins`, `SagaRepeats.StepKeepsMachine`, `SagaKeys.OneOrderPerPair`,
  `SagaKeys.RetryNeverCommits`, `SagaPolls.OneCallPerOrder` and `SagaProgress.StuckIsSettled` need none of these beyond
  the initial state: they hold for any duplication, loss and reordering.
- The relay's bounded waiting assumes that rows written later are created later than the row that waits. Rows may
  otherwise carry any creation times, equal ones included.

The proof rests on a ghost ledger (`SagaLedger`): per order, the stage it has reached and the one outbox row or
handler that carries it on, and per product, where every unit is. Its invariant spans all three services.

## Where the code and its documentation disagree

The model follows the code in each case.

- Consumers do not skip events they have processed. What that breaks, and what it does not, is the subject of
  `SagaRepeats`, `SagaTrails`, `SagaTraces`, `SagaOversell` and `SagaDuplicates`.
- When stock deduction fails the documentation lets the order service restore Redis and calls ORDER_CANCELLED an audit
  record. In the code that ORDER_CANCELLED makes the inventory service return units the order never locked.
  `StockNeverFails` proves that the branch is not reached, so an order never goes from pending to cancelled directly.
- Deleting the key after a cancellation is meant to allow another try. The cancelled order row keeps its place in the
  unique index on user and product, so `RetryNeverCommits`.
- CreateOrder of the synchronous service gives its key back when its transaction fails, but not when the product is
  missing or off sale; its contract says so.
- Creating a product does not remove a cached not-found marker; `CreateProduct` says exactly when that matters.
- The PENDING result is written after the order is committed and may overwrite a SUCCESS or FAILED that was written
  in the meantime. `PollIsFinalExactly` says when the verdict stays; `PendingMayComeLast` proves that, as long as a call
  has not written its PENDING, the sale can end with its buyer being told PENDING about a paid or cancelled order, with
  no Redis failure on the way and nothing left to do; `PaidButPending` is such a sale.

## Model

| member | source | states |
|---|---|---|
| SagaSafety.Coupling | flash-sale/internal/inventory/service.go:127-146 | in every reachable state the Redis counter, overdrafts not yet put back, reservations, undeducted orders and returned units not yet restored together stay within the available stock, and counter plus overdrafts never go below minus the leak |
| SagaSafety.GuardsHold | flash-sale/internal/inventory/event_handler.go:60-126 | every unconsumed ORDER_CREATED will find enough available stock, every unconsumed ORDER_COMPLETED or ORDER_CANCELLED enough locked stock |
| SagaSafety.StockNeverFails | flash-sale/internal/inventory/event_handler.go:62-75 | no run ever writes a STOCK_DEDUCT_FAILED row |
| SagaSafety.NoOversell | flash-sale/internal/order/event_handler.go:163-178 | in every reachable state the units of orders awaiting payment or paid never exceed the initial stock |
| SagaSafety.LockedIsHeld | flash-sale/internal/inventory/repository.go:51-84 | locked is exactly the sum of quantities deducted but neither confirmed nor returned, no column goes negative, and the stock never grows |
| SagaSafety.StatusStep | flash-sale/internal/order/repository.go:104-113 | each step moves each order along 0 to 1, 1 to 2 or 1 to 3, and changes nothing else of it, though the update looks at no previous status |
| SagaSafety.StatusOverRuns | docs/superpowers/specs/2026-04-15-hw5-microservice-saga-design.md:242-255 | from any point of a run on orders are never lost, only their status changes, paid and cancelled are final, and an order never returns to pending |
| SagaSafety.PaymentAgreement | flash-sale/internal/payment/service.go:69-105 | at most one payment row per order, with its price and user; paid orders have a successful one, cancelled orders a failed one |
| SagaSafety.PollIsTruthful | flash-sale/internal/order/seckill_service.go:132-156 | SUCCESS is answered only for paid and FAILED only for cancelled orders, from Redis or, if it fails or has nothing, from the database |
| SagaPolls.PollIsFinalExactly | flash-sale/internal/order/seckill_service.go:126-129 | once an order's verdict has been written, every later poll answers it, through any Redis failures and expiries, exactly if the Seckill call that created the order was already done at that moment |
| SagaPolls.OneCallPerOrder | flash-sale/internal/order/seckill_service.go:87-129 | in every run, however messages are delivered, each order belongs to exactly one call |
| SagaPolls.FinishedPolls | flash-sale/internal/order/event_handler.go:184-186 | once the handlers have finished and as long as Redis has answered, the buyer of a decided order is told its verdict exactly if PENDING was not written after it |
| SagaPolls.ExpiryReveals | flash-sale/internal/order/seckill_service.go:126-156 | once its result has expired, a poll for an order answers what the order row says |
| SagaInvariant.RunKeeps | flash-sale/internal/inventory/event_handler.go:50-126 | the ledger invariant over orders, rows, handlers and all stock accounts holds in every reachable state |
| SagaInvariant.FirstDeliveryAdvances | flash-sale/internal/order/event_handler.go:67-230 | a first delivery moves exactly the one order waiting for that row to its next stage, and writes exactly its next row or clean-up |
| SagaKeys.KeyOwnership | flash-sale/internal/order/seckill_service.go:51-65 | a set key has exactly one owner, a call past SETNX or an order not yet cleaned up, and every owner finds its key set |
| SagaKeys.ExpiryReopens | flash-sale/internal/order/seckill_service.go:51-65 | once its key has expired, the next call of the pair passes the idempotency check |
| SagaKeys.ErrorExitsAreNeutral | flash-sale/internal/order/seckill_service.go:67-124 | as long as Redis answers, a call that ends with an error leaves the Redis counter net unchanged, one that succeeds takes its quantity once, under any interleaving, duplication and expiry of keys |
| SagaKeys.RunNetEffect | flash-sale/internal/order/seckill_service.go:81-124 | at every point of any run on which Redis answers the counter is lower by exactly what each call has taken and not put back |
| SagaKeys.OneOrderPerPair | flash-sale/internal/order/model.go:16-17 | at most one order row per user and product ever exists, under any duplication and any Redis failure |
| SagaKeys.RetryNeverCommits | flash-sale/internal/inventory/event_handler.go:121-124 | after any order of a user for a product, cancelled or not, no later call for the pair commits |
| SagaProgress.ProductiveStepWorks | flash-sale/internal/order/event_handler.go:67-230 | every productive step lowers a natural-number measure |
| SagaProgress.ProductiveRunsEnd | flash-sale/internal/order/seckill_service.go:48-130 | from any reachable state, no more productive steps can follow than the measure says |
| SagaProgress.SomethingToDo | flash-sale/pkg/outbox/relay.go:42-64 | a state that is not settled has a productive step, and as long as more is left to do than certain calls, one that is not theirs |
| SagaProgress.StuckIsSettled | flash-sale/internal/inventory/event_handler.go:50-126 | in any state at all, nothing productive can happen if and only if the state is settled |
| SagaProgress.SettledOutcome | flash-sale/internal/inventory/event_handler.go:95-126 | at the end, whatever Redis failures there were, all orders are paid or cancelled, nothing is locked, Redis equals available less the initial slack and the units lost to Redis errors, and what left the stock is what was paid; if Redis has answered, nothing was lost and polls answer the verdict unless PENDING overtook it; if no key expired, exactly the keys of paid orders remain |
| SagaProgress.SaleEnds | flash-sale/internal/order/event_handler.go:67-230 | from any point of a run with nothing delivered twice, Redis failures included, at most as many productive steps as the measure says lead to a settled state with that outcome |
| SagaProgress.PendingMayComeLast | flash-sale/internal/order/seckill_service.go:126-129 | from every point at which some call still owes PENDING for its order, a productive continuation settles the sale with that order paid or cancelled and its buyer told PENDING |
| SagaProgress.PaidButPending | flash-sale/internal/order/seckill_service.go:126-129 | a sale at whose end a paid order's buyer is told PENDING, although nothing was delivered twice, no Redis command failed, no key expired, and nothing is left to do |
| SagaAnyDelivery.EveryPublicationHasACause | flash-sale/internal/order/event_handler.go:82-97 | every publication except ORDER_CREATED has its cause published strictly earlier, under any delivery |
| SagaAnyDelivery.PublicationOrder | flash-sale/pkg/outbox/relay.go:42-64 | ORDER_CREATED precedes PAYMENT_REQUESTED precedes ORDER_COMPLETED, and each ORDER_CANCELLED follows a failure message, although the relay skips rows |
| SagaAnyDelivery.OutboxIsFaithful | flash-sale/internal/order/event_handler.go:119-136 | replaying an order's outbox rows gives its current status in every reachable state, under any delivery |
| SagaOrigins.OrdersAreAskedFor | flash-sale/internal/order/seckill_service.go:67-117 | in any run, each order was created by exactly one call; it is what that call was begun with, and its total is the price the product service told that call times the quantity |
| SagaOrigins.MessagesAreTrue | flash-sale/internal/order/event_handler.go:67-230 | in any run, every message names its order's user, product, quantity and amount as the order row does, and every payment its order's user and total |
| SagaOrigins.ChargedPriceTimesQuantity | flash-sale/internal/payment/service.go:69-105 | in any run, however messages are delivered, every payment is over the price told to the order's call times the quantity that call asked for, and is charged to who asked |
| SagaOrigins.FallbackAsks | flash-sale/internal/order/seckill_service.go:54-65 | in any run, a call whose SETNX failed gets past the idempotency check only if the database was asked and had no order of its user for its product |
| SagaRepeats.StepKeepsMachine | flash-sale/internal/order/repository.go:104-113 | in any state, a step keeps every order on the documented machine exactly if it is not the delivery of a message to an order already past, or not yet at, the status it is about |
| SagaTrails.HandoversOnce | docs/superpowers/specs/2026-04-15-hw5-microservice-saga-design.md:347-352 | in every run that repeats no ORDER_CREATED, STOCK_DEDUCTED or PAYMENT_REQUESTED, every step keeps the documented machine and no order is charged twice, whatever else is repeated, lost or reordered |
| SagaTraces.EveryChargeIsReported | flash-sale/internal/payment/service.go:82-105 | in every run, however messages are delivered, an order has as many payment rows as it has result rows in the outbox |
| SagaDuplicates.RepeatKeepsStatuses | docs/superpowers/specs/2026-04-15-hw5-microservice-saga-design.md:347-352 | for every set of message kinds: all runs that repeat only those kinds keep the documented machine if and only if the three hand-over kinds are not in the set |
| SagaDuplicates.RepeatKeepsBooks | flash-sale/internal/inventory/event_handler.go:60-126 | one repeated message, with the Redis increment of a cancellation, leaves the books of stock and Redis in balance exactly if it moves no unit in either |
| SagaDuplicates.RepeatKeepsStock | flash-sale/internal/inventory/event_handler.go:62-75 | for every set of message kinds: no run that repeats only those kinds writes STOCK_DEDUCT_FAILED, if and only if the set is within STOCK_DEDUCT_FAILED itself |
| SagaDuplicates.RepeatKeepsCoupling | flash-sale/internal/inventory/service.go:127-146 | for every set of message kinds: in all runs that repeat only those kinds the Redis counter stays within the available stock, if and only if the set is within STOCK_DEDUCT_FAILED |
| SagaDuplicates.RepeatKeepsPromises | docs/superpowers/specs/2026-04-15-hw5-microservice-saga-design.md:347-352 | for every set of message kinds: no run that repeats only those kinds oversells if and only if the set is within PAYMENT_SUCCESS and ORDER_COMPLETED, or within STOCK_DEDUCT_FAILED |
| SagaDuplicates.RepeatKeepsPromisesAnyway | flash-sale/internal/inventory/service.go:127-146 | for every set of message kinds: no run that repeats only those kinds oversells, whatever the inventory does, if and only if the set is within PAYMENT_SUCCESS and ORDER_COMPLETED |
| SagaDuplicates.UnitSoldTwice | flash-sale/internal/inventory/event_handler.go:109-126 | a run that repeats one ORDER_CANCELLED and promises one unit to two buyers |
| SagaOversell.RedisGuardsTheSale | flash-sale/internal/inventory/service.go:127-146 | promises stay within what Redis was loaded with in every run that repeats only messages about paid orders, whatever happens to the inventory: lost or failing statements, interference, changes by administrators |
| SagaOversell.TrailsOverTurns | flash-sale/internal/payment/service.go:82-105 | as long as no hand-over is repeated no order is charged twice, whatever happens to the inventory |
| SagaOversell.CountersOverTurns | flash-sale/internal/inventory/event_handler.go:109-126 | in such runs every unit of the initial counter is in the counter, with a call, lost to a Redis error, or held by an order that has not been restored, and each cancelled order is restored once |
| SagaDuplicates.RepeatKeepsPayments | flash-sale/internal/payment/service.go:82-105 | for every set of message kinds: all runs that repeat only those kinds charge no order twice if and only if the three hand-over kinds are not in the set |
| SagaDuplicates.PaidOrderReopened | flash-sale/internal/order/event_handler.go:82-97 | a concrete run in which one repeated STOCK_DEDUCTED makes a paid order await payment again |
| SagaDuplicates.RunKeepsPassed | flash-sale/internal/order/event_handler.go:67-230 | every consumed row is the row of a stage its order has left behind |
| SagaServices.SeckillService.Seckill | flash-sale/internal/order/seckill_service.go:48-130 | with anything else going on before each of its commands, the method performs a run of the protocol that ends with the call done; each rejection has its reason, and an accepted call has its order at the price answered times the quantity; if nobody else does anything, the answer and all that Redis and the database hold afterwards are fixed for every combination of replies |
| SagaServices.SeckillService.GetSeckillResult | flash-sale/internal/order/seckill_service.go:132-156 | Redis first; if it fails or has nothing, the order row; an error if the database is asked and fails |
| SagaServices.OrderEventHandler.Handle | flash-sale/internal/order/event_handler.go:30-65 | dispatch: the new order table, outbox row and verdict of the event's reaction; an unknown order or a failing transaction changes nothing |
| SagaServices.OrderEventHandler.HandleStockDeducted | flash-sale/internal/order/event_handler.go:67-102 | overwrites the status with awaiting payment and adds the PAYMENT_REQUESTED row with the order's total; a failing transaction does neither |
| SagaServices.OrderEventHandler.HandleStockDeductFailed | flash-sale/internal/order/event_handler.go:104-146 | cancels, adds ORDER_CANCELLED with the event's product and the order's quantity, writes FAILED; a failing transaction does none of it |
| SagaServices.OrderEventHandler.HandlePaymentSuccess | flash-sale/internal/order/event_handler.go:148-187 | marks paid, adds ORDER_COMPLETED, writes SUCCESS; a failing transaction does none of it |
| SagaServices.OrderEventHandler.HandlePaymentFailed | flash-sale/internal/order/event_handler.go:189-230 | cancels, adds ORDER_CANCELLED, writes FAILED; a failing transaction does none of it |
| SagaServices.OrderEventHandler.HandleRow | flash-sale/internal/order/event_handler.go:67-230 | handling a published row is the protocol's delivery followed by its Redis write, or nothing if the transaction fails |
| SagaServices.InventoryEventHandler.HandleOrderCreated | flash-sale/internal/inventory/event_handler.go:50-93 | through the retry loop of Deduct, against any interference and database errors: replies STOCK_DEDUCTED exactly if the loop has deducted, else STOCK_DEDUCT_FAILED; a failing transaction does neither |
| SagaServices.InventoryEventHandler.HandleOrderCancelled | flash-sale/internal/inventory/event_handler.go:109-126 | returns the stock if the database answers and enough is locked, then restores Redis and deletes the key in any case |
| SagaServices.InventoryEventHandler.HandleRow | flash-sale/internal/inventory/event_handler.go:30-126 | handling a published row is the protocol's delivery followed by its Redis commands, to the inventory as it was if nobody interferes and the database works, else to some other inventory; at most once if the row is new; a failing transaction of a creation or completion is no delivery |
| SagaServices.PaymentService.HandleOrderEvent | flash-sale/internal/payment/service.go:46-112 | one payment row and its result event together, for PAYMENT_REQUESTED only, as the protocol's delivery; neither if the transaction fails |
| SagaServices.PaymentService.SetSuccessRate | flash-sale/internal/payment/service.go:34-39 | a rate in 0..1 is taken as it is, any other as 1 |
| SagaServices.OrderDatabase.Insert | flash-sale/internal/order/seckill_service.go:100-117 | order and outbox row are both written, exactly if there is no error and neither unique index objects, or neither is |
| SagaServices.OrderDatabase.Move | flash-sale/internal/order/repository.go:104-113 | overwrites the status of an existing order and adds one row, or does neither if there is no such order or the database fails |
| PartitionConsumer.Consumer.ConsumeClaim | flash-sale/pkg/kafka/consumer.go:56-64 | every message is handed to the handler in order and marked, whether or not its transaction commits, as a run of the protocol; at most once if the partition repeats no row |
| InventoryService.VersionCountsCommits | flash-sale/internal/inventory/repository.go:34-84 | the version grows by one with each committed update, so an unchanged version means an unchanged row |
| InventoryService.Service.Deduct | flash-sale/internal/inventory/service.go:76-100 | on success it updated exactly the row state it read; it gives up after reading enough stock only if another update committed inside each of its three windows; a database error ends it at once; the row it leaves in each case |
| InventoryService.Service.SetInventory | flash-sale/internal/inventory/service.go:44-74 | sets the total, moves available with it, clamped at zero, and keeps locked and version |
| InventoryService.Repository.DeductWithLock | flash-sale/internal/inventory/repository.go:34-49 | one guarded update, or no change |
| InventoryService.Repository.ReturnStock | flash-sale/internal/inventory/repository.go:51-66 | one guarded update, or no change |
| InventoryService.Repository.ConfirmDeduction | flash-sale/internal/inventory/repository.go:70-84 | one guarded update, or no change |
| InventoryService.Service.UndisturbedDeduct | flash-sale/internal/inventory/service.go:76-100 | calling the retry loop with nobody else on the row has the effect and the answer of one guarded update, which is what the saga takes Deduct for |
| InventoryService.StockConserved | flash-sale/internal/inventory/service.go:44-74 | under any operations available and locked stay non-negative and available + locked + sold = total + excess, the excess growing only by cuts below what is locked or sold |
| InventoryService.NoCutNoExcess | flash-sale/internal/inventory/service.go:44-74 | the excess stays zero if and only if no SetInventory sets the total below what is locked or sold at that point |
| InventoryService.NewRowConserved | flash-sale/internal/inventory/service.go:44-74 | from the creation of a row on, columns stay non-negative, and available + locked + sold is the total exactly as long as there was no such cut |
| SyncOrders.SynchronousPath | flash-sale/internal/order/service.go:77-172 | under any interleaving locked is the sum of pending quantities, available + locked is constant and available never negative, a cancel holding its lock never lacks stock, and no order is refunded twice |
| SyncOrders.OrdersHaveCauses | flash-sale/internal/order/service.go:46-172 | in any run an order is what a request asked for, no user has two orders for a product, and an order is cancelled only by a request of its own user |
| SyncOrders.PendingIsCovered | flash-sale/internal/order/service.go:129-155 | locked stock covers every pending order |
| SyncOrderService.OrderService.CreateOrder | flash-sale/internal/order/service.go:46-109 | an admitted call is one step of the machine and creates the order exactly if that step may; the reason of every refusal, by the reply that causes it; when the key is kept and when it is given back |
| SyncOrderService.OrderService.DeductAndInsert | flash-sale/internal/order/service.go:87-107 | deduction and order together or neither, and the error the caller sees: too little stock, also after three lost races, a database error otherwise |
| SyncOrderService.OrderService.CancelOrder | flash-sale/internal/order/service.go:129-172 | database error, not found, not owner, not pending, or done; done is the machine's lock and commit, returns the order's units and cancels it; the stock to return is never missing |
| Relay.AtLeastOnce | flash-sale/pkg/outbox/relay.go:49-63 | through any crashes a row marked sent is in the log; every log entry is a copy of its row under its order number, in its writer's topic, where the service that acts on it reads; a row's copies are its unmarked sends plus one if marked |
| Relay.NothingIsLost | flash-sale/pkg/outbox/model.go:10-39 | over any run rows are never dropped or altered but for their mark, marks stay, and the log only grows |
| Relay.BatchProgress | flash-sale/pkg/outbox/relay.go:42-47 | a loaded batch holds a given deliverable row, or at least 100 − f deliverable rows that were ahead of it |
| Relay.BoundedWaiting | flash-sale/pkg/outbox/relay.go:42-64 | in any run of loads, rows processed one by one, and writes in between, with f < 100 rows that fail in any way, a deliverable row with k deliverable rows ahead is sent within k / (100 − f) + 1 batches |
| Relay.OutboxRelay.PublishBatch | flash-sale/pkg/outbox/relay.go:42-64 | one tick is a run that loads the oldest unsent rows and processes them one by one, up to a crash; it adds to the log a copy of every row whose send succeeded, in that order, and marks exactly those whose mark did |
| Relay.TickSends | flash-sale/pkg/outbox/relay.go:42-64 | processing row after row sends and marks what the batch as a whole is to send and mark |
| Relay.OutboxRelay.Query | flash-sale/pkg/outbox/relay.go:44-44 | up to a hundred different unsent rows in order of creation time, no older one left out |
| Relay.OutboxRelay.WriteEvent | flash-sale/pkg/outbox/model.go:27-39 | one new unsent row with any creation time |
| Snowflake.PackLayout | flash-sale/pkg/snowflake/snowflake.go:9-52 | the packed id is ts·2^22 + node·2^12 + seq, fits in 63 bits and decodes to its three fields |
| Snowflake.PackIsSum | flash-sale/pkg/snowflake/snowflake.go:51-51 | shifting and or-ing the three fields is adding them at their places |
| Snowflake.PackInjective | flash-sale/pkg/snowflake/snowflake.go:33-52 | different stamps, in particular of different nodes, never share an id |
| Snowflake.MaskConstants | flash-sale/pkg/snowflake/snowflake.go:9-17 | the two masks written as shifted minus ones are 1023 and 4095 |
| Snowflake.Node.Generate | flash-sale/pkg/snowflake/snowflake.go:33-52 | issues the next stamp of its clock readings, or waits exactly while no reading passes the stored one; the id carries the first reading, or, if its millisecond is full, the first one past it |
| Snowflake.StampCarriesReading | flash-sale/pkg/snowflake/snowflake.go:37-51 | the timestamp issued is one of the readings, the first one unless the call had to wait, and the sequence number counts up within a millisecond |
| Snowflake.NewNode | flash-sale/pkg/snowflake/snowflake.go:26-31 | refuses node numbers outside 0..1023 |
| Snowflake.LargerIdExactlyIfClockNotBehind | flash-sale/pkg/snowflake/snowflake.go:33-52 | the next id is larger exactly if the first reading is not behind the stored timestamp |
| Snowflake.ClockSetBackRepeatsId | flash-sale/pkg/snowflake/snowflake.go:33-52 | a clock set back by one millisecond repeats an id |
| Snowflake.WaitEnds | flash-sale/pkg/snowflake/snowflake.go:38-43 | the busy wait ends as soon as a reading passes the stored timestamp |
| Snowflake.IdsIncrease | flash-sale/pkg/snowflake/snowflake.go:33-52 | ids of one node strictly increase under a clock that never runs backwards |
| Snowflake.MillisecondHolds | flash-sale/pkg/snowflake/snowflake.go:33-52 | no millisecond holds more than 4096 ids |
| Snowflake.FullMilliseconds | flash-sale/pkg/snowflake/snowflake.go:33-52 | n ids use so many milliseconds that all but the last, at 4096 each, make room for those before the last one's own |
| Snowflake.RateBound | flash-sale/pkg/snowflake/snowflake.go:33-52 | n ids use at least ceil(n / 4096) milliseconds, and the last timestamp exceeds the first accordingly |
| ProductCache.HitStaleness | flash-sale/internal/product/cached_service.go:42-95 | a hit was the database's value at most 359 s, or 60 s for not-found, plus one load's duration ago, under any interleaving and lost invalidations |
| ProductCache.LoadStaleness | flash-sale/internal/product/cached_service.go:62-95 | a loaded answer is at most the load's duration behind |
| ProductCache.FillLasts | flash-sale/internal/product/cached_service.go:72-86 | what a load stores lives at least 300 s, a not-found marker 60 s |
| ProductCache.InvalidationIsFinalExactly | flash-sale/internal/product/cached_service.go:98-123 | after a write and its invalidation no run takes the cache back behind the write, exactly if no load has read before the write and not yet sent its SET |
| ProductCache.OldLoadFillsCache | flash-sale/internal/product/cached_service.go:62-95 | such a load does put the older value back when it fills the cache |
| ProductCache.CachedProductService.GetProductByID | flash-sale/internal/product/cached_service.go:47-95 | a hit is answered as it stands; otherwise the database answers and the answer is stored for 300 s to 359 s, or 60 s if there is no product, unless Redis fails; with a coherent cache the answer is the inner service's, and the cache stays coherent |
| ProductCache.GetTwice | flash-sale/internal/product/cached_service.go:47-95 | what was read once is answered from the cache for the next 300 s, a missing product for 60 s, even with the database down |
| ProductCache.CachedProductService.Update | flash-sale/internal/product/cached_service.go:98-110 | each field that is given has its new value, in the answer and in the database, every other one its old; then the key is deleted; coherent if Redis is up; a database error changes nothing |
| ProductCache.UpdateThenGet | flash-sale/internal/product/cached_service.go:47-110 | after an update whose invalidation Redis executed, a read gives every field as written, or as it was if not given |
| ProductCache.LaterPatchWins | flash-sale/internal/product/service.go:73-90 | of two patches the later one wins, field by field |
| ProductCache.CachedProductService.Delete | flash-sale/internal/product/cached_service.go:113-123 | removes the product, then invalidates; coherent if Redis is up; a database error changes nothing |
| ProductCache.CachedProductService.CreateProduct | flash-sale/internal/product/cached_service.go:127-129 | keeps coherence exactly if no not-found marker for the new id is alive |

## Left out

- HTTP handlers, gateway, authentication, Nacos, configuration, and the internals of Sarama, GORM and go-redis: a statement, transaction or command is one atomic step.
- Read replicas: all reads are from the primary database.
- JSON, UUIDs, logging and delays: events are values, malformed messages do not occur, payment success is a free choice.
- Floating point: prices and the payment success rate are reals; NaN is not modelled.
- Integer widths: quantities and stock are unbounded integers; snowflake clock readings outside 0 to 2^41 are excluded from its theorems.
- PreloadStock, GetPrice, product listing and paging: each is one plain read or write.
- Several relays on one table. Several inventory messages at a time within the saga, except for overselling: the optimistic lock under interference is proved separately in InventoryService.
- Synchronous orders and Seckill orders on the same inventory row: cancelling a pending Seckill order through CancelOrder returns stock it never locked, so the two machines are kept apart.
- PartitionConsumer.Consumer.ConsumeClaim: written for the order service, which consumes the inventory and payment topics; the loop is the same for the other two.
- InventoryService.Service.Deduct: SetInventory is not among the interfering updates, because it saves back a whole stale row with its version; a failing statement is taken not to have been executed.
- ProductCache.HitStaleness: one product at a time, and singleflight is one load per process.
- Relay.BoundedWaiting: assumes that marks succeed; with failing marks a row may be sent again and again, as AtLeastOnce counts.
