# OrderMesh, modelled and proved

OrderMesh is a choreographed saga. The order, inventory and shipping services each own a database and
talk only through a topic exchange that delivers at least once, retries with backoff and dead-letters.
Each handler is a few lines; what is hard is what holds of every run of the whole. These modules model
that composition at several levels and prove what it guarantees, and exactly where it stops.

`dafny verify dfyconfig.toml` checks everything.

## Two classes of run

Every main theorem belongs to one of these, and the table names it where it matters.

- **At-least-once** (`Mesh`, `MeshSafety`, `Termination`, `RetryBound`): any sequence of steps. Delivery, database
  commit, announcement, ack, republish and reject are separate steps, interleaved over all queues; handlers
  may fail between any two of them; a process may die between any two of them; the broker may deliver a copy
  again while it is being handled; HTTP requests may be cut off between commit and publish.
  "Without redelivery" narrows this to runs in which no process dies mid-message and the broker never
  duplicates, while handlers still fail whenever they like.
- **FIFO, failure-free** (`Fifo`): each queue is handled in order, requests and handlers are atomic.
  `FifoInMesh` proves that these are at-least-once runs in which nothing went wrong.

A step that is not possible leaves the state as it is, so a run is simply any sequence of actions and every
theorem quantifies over all of them. In both classes an order has at most one inventory transaction in
flight: neither the existence check nor the reservation read takes a lock that would enforce it.

## Layout

| module | models |
|---|---|
| `Domain` | entities, event types, queue bindings |
| `Allocation` | the stock allocator as functions, and its laws over every run |
| `InventoryTable`, `InventoryService` | the allocator as the program it is: aggregation, check-all and apply loops over rows |
| `RowLocks` | the allocator as interleaved transactions: unlocked read, one row lock at a time, decide, commit or abort |
| `Saga`, `SagaInvariant` | what each handler does to the three databases, and what all of them keep |
| `Mesh` | the delivery engine with the saga running on it |
| `MeshSafety` | cross-service safety of at-least-once runs |
| `MeshEffects` | what a completed handler leaves behind in them |
| `StockLeak` | exactly when an order holds stock in them, and how a cancelled one can keep it |
| `Runs`, `Measures`, `Termination`, `RetryBound` | how long runs can get, and how they compose |
| `Fifo`, `FifoInMesh` | what failure-free runs achieve, and how they sit inside the mesh |
| `Messaging` | consumer and broker objects: registration, binding, one handling from delivery to ack |
| `CacheAside`, `RedisCache` | cache-aside reads, exact and stale |
| `OrderService`, `ShippingService` | the two other services as objects |
| `Numerals` | tracking numbers and cache keys |

## Where code and expectation part

The model follows the code. These are results, each with its lemma:

- The documentation says redelivered events do not double-apply (README.md:117-118). They do not while the
  reservation rows exist or stock is short (`ClaimIsNoOpIff`, `DedupEquivalence`); an OrderCreated that comes back
  after its release reserves again (`LateDuplicateReservesAgain`). A run can end at rest with a cancelled order
  holding stock that nothing will release (`LeakIsReachable`): exactly when inventory's last word on the order was a
  granted claim (`HeldIffClaimedLast`, `LeakedIff`). In the run shown, the final cancellation is written by a process that
  dies before announcing it.
- A retry is published to the exchange, not to the queue that failed, so one publication can cause 39 handler
  runs where a reader of the retry limit might expect 9 (`RetryFanOutBound`, `RetryFanOutAttained`).
- It is tempting to think that what the order service still has to hear about an order is always a suffix of
  [StockReserved, ShipmentCreated] or of [StockUnavailable]. It is, exactly when it is nothing or
  shipping has no work left for the order (`OrderTrail`, `TrailNeedNotBeSuffix`).
- A cached order can stay stale after the writer's invalidation (`StaleEntryCanSurvive`). A run never risks this if and
  only if every move was harmless when made (`AlwaysSafeIff`): an update changes no row that some reader has loaded and
  not yet stored, and an invalidation works, is not the last one due, or finds nothing outdated.
- No run ever gives an order the status DELIVERED: nothing consumes ShipmentDelivered to that end (`OrderTotals`).
- `_CANCELLABLE` in services/order/app/service.py is unused, so status changes driven by events have no guard on
  the current status; the model has none either.

## Model

| member | source | states |
|---|---|---|
| Allocation.ReserveVerdict | services/inventory/app/service.py:46-75 | A fresh order is accepted exactly when every product it names exists and covers the summed demand; refusal leaves the store as it was; acceptance lowers each product by its demand, no other, and records the aggregate. |
| Allocation.ReservePermuted | services/inventory/app/service.py:53-75 | Any permutation of the items gives the same verdict and the same store. |
| Allocation.ReleaseUndoesReserve | services/inventory/app/service.py:90-110 | Releasing after a fresh reservation restores the whole store. |
| Allocation.OthersUntouched | services/inventory/app/service.py:90-110 | Neither reserving nor releasing adds, removes or changes what another order holds. |
| Allocation.ClaimIsNoOpIff | services/inventory/app/service.py:46-67 | A claim changes nothing if and only if the order already holds stock or some product is short. |
| Allocation.LateDuplicateReservesAgain | README.md:117-118 | Counterexample to the documented idempotency: a duplicate claim after the release takes the stock again. |
| Allocation.DemandPermuted | services/inventory/app/service.py:53-55 | The aggregated demand of a product does not depend on the order of the items. |
| Allocation.DemandIsBought | services/order/app/service.py:45 | The demand announced for a product is the sum of the stored quantities of the order's lines for it. |
| Domain.TotalAdds | services/order/app/service.py:29 | A total is price times quantity for one line, nothing for none, and adds up however the lines are split. |
| Domain.BoughtAdds | services/order/app/service.py:31-34 | Likewise the units bought of a product. |
| Allocation.RunConserves | services/inventory/app/service.py:70-75 | After every run of creations, claims and releases, available plus all reservation rows of a product equals what it was created with, and rows name existing products. |
| Allocation.RunSound | services/inventory/app/service.py:64-75 | From any sound store, every run keeps quantities non-negative and rows positive. |
| Allocation.NoOversell | services/inventory/app/service.py:64-75 | In every run a product never goes negative and orders never hold more of it than was created. |
| Allocation.ClaimSettles | services/inventory/app/service.py:46-51 | A claim repeated at once changes nothing and gets the same answer. |
| Allocation.SettledPersists | services/inventory/app/service.py:46-67 | Another order's claim cannot change an order's settled answer: success is remembered, shortage persists while stock falls. |
| Allocation.DedupEquivalence | services/inventory/app/service.py:46-87 | Delivering claims with any duplicates ends in the store of the first deliveries alone, and every delivery gets the answer its first one got. |
| Allocation.HeldStays | services/inventory/app/service.py:90-110 | A reservation outlives every run that does not release it. |
| Allocation.VerdictsRiseOnce | services/inventory/app/service.py:46-67 | In any run that never releases the order, once a claim of it was accepted every later one is: some refusals, then only acceptances. |
| RowLocks.Serialisable | services/inventory/app/service.py:57-75 | Every interleaving of claim and release transactions ends in the store, and gave the verdicts, of running the answered commands one after another in answer order; those are exactly the commands begun, less the aborted and those in flight. |
| RowLocks.CommitMatchesSpec | services/inventory/app/service.py:70-75 | A commit, writing absolute quantities seen under lock, does what the specification does to the store as it is now. |
| RowLocks.FinishKeepsLocks | services/inventory/app/service.py:57-60 | One transaction's commit disturbs nothing another has read or locked. |
| RowLocks.NeverOversold | services/inventory/app/service.py:44-75 | At no moment of any interleaving is stock negative. |
| RowLocks.LockIsExclusive | services/inventory/app/service.py:57-60 | Two transactions that both saw a row under its lock are the same transaction. |
| RowLocks.LogGrows | services/inventory/app/service.py:57-75 | Answers are never retracted or reordered, so the serial order respects real time. |
| InventoryService.Aggregate | services/inventory/app/service.py:53-55 | The dict loop computes the summed demand of every named product. |
| InventoryService.CheckAll | services/inventory/app/service.py:62-67 | The check loop, visiting products in any order, says yes exactly when the demand fits. |
| InventoryService.TakeStock | services/inventory/app/service.py:69-73 | The apply loop decrements exactly the wanted products by the wanted amounts and adds one row each, in any order. |
| InventoryService.PutBack | services/inventory/app/service.py:105-109 | The release loop deletes exactly the order's rows and adds each back to its product, skipping products that are gone. |
| InventoryService.Service.ReserveForOrder | services/inventory/app/service.py:38-87 | True exactly when the order has rows or every named product has its summed demand; False changes nothing; a fresh True lowers each product by its demand, records that much per product for the order and touches no other rows. Refines the allocator, and exactly the changed products leave the cache. |
| InventoryService.Service.ReleaseForOrder | services/inventory/app/service.py:90-114 | Deletes exactly the rows of the order, gives each product back their sum, and returns and invalidates exactly the affected products. Refines the specification of release. |
| InventoryService.Service.InvalidateAll | services/inventory/app/service.py:112-113 | The loop removes exactly the keys of the given products, or nothing when the cache is down. |
| InventoryService.Service.CreateProduct | services/inventory/app/routes.py:14-25 | Fails without a trace exactly when the SKU is taken; otherwise adds one product under a new id. |
| InventoryService.Service.GetProduct | services/inventory/app/routes.py:36-50 | A hit answers the entry; a miss answers the row and stores it, or 404. |
| InventoryService.Service.OnOrderCreated | services/inventory/app/consumers.py:13-26 | Announces StockReserved with the items when the order has rows or all its demand is there, else StockUnavailable; leaves the database the saga step does. |
| InventoryService.Service.OnOrderCancelled | services/inventory/app/consumers.py:29-36 | Leaves no row of the order and every other row, gives its quantities back, and announces exactly the freed products, or nothing when there were none. |
| InventoryTable.HeldAppend | services/inventory/app/service.py:73 | Adding a row for a new product of an order adds one entry to what it holds and leaves other orders alone. |
| InventoryTable.HeldOthers | services/inventory/app/service.py:109 | Deleting an order's rows removes its entry and nothing else. |
| Messaging.TopologyMatches | shared/shared/events/consumer.py:55-56 | The bindings made from the registered handlers are exactly the fan-out table. |
| Messaging.UnregisteredIsNoOp | shared/shared/events/consumer.py:71-74 | For an event without handler, running it and skipping it are the same. |
| Messaging.Consumer.Start | shared/shared/events/consumer.py:37-58 | Refuses when not connected, else declares the queue with its dead-letter key, binds its dead-letter queue under that key and binds the queue once per registered type; nothing else is declared or bound. |
| Messaging.DeclaredApart | shared/shared/events/consumer.py:42-54 | What a queue rejects reaches its own dead-letter queue and no other. |
| Messaging.Consumer.HandleMessage | shared/shared/events/consumer.py:63-104 | What one handling leaves, wherever an exception strikes and the recovery stops: committed data, announcement, ack, and instead of the copy nothing, its failed or dead self, or in every bound queue one more try with its counter and backoff up by one step, before the copy is acked. Always one script of enabled mesh steps. |
| Messaging.Consumer.Recover | shared/shared/events/consumer.py:77-87 | Only the failed copy gives way: to a dead letter on the last attempt, to the retries and then nothing otherwise, or to what is left when the recovery stops. |
| Messaging.Consumer.Retry | shared/shared/events/consumer.py:92-104 | The retries are queued first; the failed copy goes only with the ack after that. |
| Messaging.StartAll | services/notification/app/consumers.py:62-68 | After all four services start, an event type is bound to a queue if and only if the model routes it there, and dead letters are kept apart. |
| Mesh.NoEventLost | shared/shared/events/consumer.py:63-104 | At-least-once: each queue bound to a published event has completed it or holds a ready, in-flight or dead copy with the same body and at most two retries. |
| Mesh.StepLosesNothing | shared/shared/events/consumer.py:77-104 | No single step loses the last copy of an event for a queue that has not completed it. |
| Mesh.StepFaithful | shared/shared/events/consumer.py:92-103 | Every step keeps copies true: body and key of the publication, a bound queue, a retry count in 0..2 and the sleep that goes with it. |
| Mesh.Origin | shared/shared/events/broker.py:57-67 | A message in a queue is a moved one, the first copy of a publication, or a retry with one more on its counter. |
| Mesh.RetriesBounded | shared/shared/events/consumer.py:79-102 | At-least-once: no copy ever has more than two retries or more than six seconds of backoff behind it. |
| SagaInvariant.HandleKeepsWorld | services/order/app/consumers.py:14-34 | Whatever published event any queue handles, the three databases stay consistent with each other and the history. |
| SagaInvariant.HandleJustified | services/inventory/app/consumers.py:13-36 | What a handler announces is borne out by the databases it just committed. |
| SagaInvariant.HandleOnward | services/shipping/app/consumers.py:13-27 | Handlers change only the status of orders, keep shipments, and free stock only for a published cancellation. |
| MeshSafety.CausalSafety | services/order/app/consumers.py:14-26 | At-least-once: SHIPPED implies a shipment, a shipment implies StockReserved was published, and that implies a granted claim whose reservation still exists unless OrderCancelled was published. |
| MeshSafety.CrossServiceAgreement | services/order/app/service.py:28-48 | At-least-once: an order's rows are one per distinct product of its stored lines, each with the units those lines buy. |
| MeshSafety.AnnouncedAsStored | services/order/app/service.py:39-47 | At-least-once: announced customer, total and items are the stored ones, item by item in product and quantity, and a release names exactly the order's products. |
| MeshSafety.StockSafety | services/inventory/app/service.py:70-75 | At-least-once: stock is never negative and available plus reserved is what was created. |
| MeshSafety.OrderTotals | services/order/app/service.py:28-37 | At-least-once: a recorded total stays the price of its lines, and no order is ever DELIVERED. |
| MeshSafety.ShipmentsDistinct | services/shipping/app/service.py:27-50 | At-least-once: no two shipments share an order, an id or a tracking number. |
| MeshSafety.TrackingNeverChanges | services/shipping/app/service.py:57-64 | From any state, a shipment keeps its id, order, courier and tracking number through every run. |
| MeshSafety.CrashSafeAnnouncement | services/inventory/app/consumers.py:13-26 | At-least-once: a reservation has its StockReserved published, or an OrderCreated copy still to be handled or dead in inventory's queue; likewise shipments and ShipmentCreated. |
| MeshSafety.StepAnnouncesStock | services/inventory/app/consumers.py:13-26 | No step, crash or failure leaves a reservation with neither its announcement nor the copy that would bring it about. |
| MeshSafety.StepAnnouncesShipment | services/shipping/app/consumers.py:13-27 | The same for a shipment. |
| MeshEffects.CompletedClaimIsAnswered | services/inventory/app/consumers.py:13-26 | At-least-once: once inventory has acknowledged an OrderCreated, StockReserved with its items or StockUnavailable was published. |
| MeshEffects.CompletedReservationIsShipped | services/shipping/app/consumers.py:13-27 | At-least-once: once shipping has acknowledged a StockReserved, the order has a shipment and ShipmentCreated was published. |
| MeshEffects.EmptyMeshIsFollowedUp | shared/shared/events/consumer.py:63-90 | However an at-least-once run went, once no message is left every announced order was answered and every reserved one has an announced shipment. |
| MeshEffects.StatusIsLastMark | services/shipping/app/service.py:57-64 | At-least-once: a shipment has the status last set on it, and CREATED before any was. |
| MeshEffects.UntouchedIsMade | services/shipping/app/service.py:33-38 | Where nobody updates shipments, every shipment is CREATED. |
| StockLeak.HeldIffClaimedLast | services/inventory/app/service.py:46-110 | At-least-once: an order holds stock if and only if the last inventory commit about it was a granted claim. |
| StockLeak.LeakedIff | services/inventory/app/service.py:46-51 | At rest, a cancelled order still holds stock exactly when inventory's last word on it was a granted claim rather than a release. |
| StockLeak.LateDuplicateLeaks | services/inventory/app/service.py:46-51 | From any state with a claim and a cancellation of an order waiting, a claim that comes back after its release can end at rest with the order cancelled and its stock held. |
| StockLeak.LeakIsReachable | README.md:117-118 | Such a state is reached by a run from the empty system. |
| StockLeak.CalmDrains | shared/shared/events/consumer.py:63-76 | From any mesh where nothing has failed and inventory has nothing to commit, some run without trouble handles every message and leaves stock and pending requests alone. |
| Termination.EveryRunIsFinite | shared/shared/events/consumer.py:77-104 | Without redelivery, from any state and whichever handlers fail, each step spends work that only client commands bring in. |
| Termination.StepsPerCommand | shared/shared/events/consumer.py:77-104 | Without redelivery, n client commands lead to at most 44710 n steps of the whole mesh. |
| Termination.HandlerFitsBudget | services/inventory/app/consumers.py:13-36 | What a handler announces ranks strictly below the event it handled, and weighs no more than the room that event reserves. |
| RetryBound.RetryFanOutBound | shared/shared/events/consumer.py:79-103 | Without redelivery, a publication bound to k queues is handled at most k + k^2 + k^3 times, never more than 39. |
| RetryBound.RetryFanOutExact | shared/shared/events/consumer.py:79-103 | If no handling of it is acknowledged and all its copies are dead, it was handled exactly that often. |
| RetryBound.RetryFanOutAttained | shared/shared/events/consumer.py:79-103 | Every publication with nothing acknowledged yet has a continuation that reaches the bound. |
| Fifo.QuiescenceCorrect | services/order/app/consumers.py:14-34 | FIFO: with empty queues an order nobody cancelled is SHIPPED, holding per product the units its lines buy, with exactly one shipment, or CANCELLED with neither; it is SHIPPED exactly when its claim was granted. |
| Fifo.ShippedForGood | services/order/app/routes.py:71-75 | FIFO: an order SHIPPED and not cancelled stays so through every further run, cannot be cancelled any more and keeps its reservation. |
| Fifo.CancellationRestoresStock | services/order/app/service.py:64-76 | FIFO: with empty queues exactly the shipped, never-cancelled orders hold stock, and each product is short by exactly what they bought. |
| Fifo.WorkLeadsToRest | services/inventory/app/consumers.py:13-36 | From any state, every schedule of the services is at most as long as the backlog, is stuck exactly when all queues are empty, and can be continued until they are. |
| Fifo.OrderTrail | services/order/app/consumers.py:14-34 | FIFO: what the order service still has to hear about a never-cancelled order, and exactly when it is a suffix of one of the two stories. |
| Fifo.TrailNeedNotBeSuffix | services/order/app/consumers.py:14-34 | A reachable state in which it is not such a suffix. |
| Fifo.RunInv | services/inventory/app/consumers.py:13-36 | FIFO: every order is on its course or, once cancelled, has a release queued behind its claim. |
| FifoInMesh.FifoRunIsMeshRun | shared/shared/events/consumer.py:63-76 | Every FIFO run is an at-least-once run without crash, failure or loss, with the same databases and events, and no message or request left at rest. |
| CacheAside.CacheTransparent | services/order/app/routes.py:37-57 | Working cache, atomic operations: after any creates, changes, reads and evictions a cached read of an order or product answers what the database would, for every caller. |
| CacheAside.OnlyOwnersRead | services/order/app/routes.py:45-53 | Cached or not, an order is found, as stored, by its customer and by admins; everybody else gets 404. |
| CacheAside.OnlyOwnersReadStale | services/order/app/routes.py:45-53 | The same under any interleaving and cache failures, where what is found may be out of date in its status only. |
| CacheAside.BoundedStaleness | services/order/app/routes.py:43-57 | Any interleaving, any cache failures: a cached order is a past state of that order, differs from the row at most in status, and gives every caller the same found or not-found. |
| CacheAside.AlwaysSafeIff | services/order/app/routes.py:43-57 | A run never risks a lasting stale entry if and only if each of its moves was harmless: no update changes a row a reader has loaded and not yet stored, and no last due invalidation of an outdated entry fails. |
| CacheAside.SafeStepIff | services/order/app/service.py:79-89 | In any reachable safe state, a next move keeps it safe if and only if it is harmless. |
| CacheAside.SafeIffCurrent | services/order/app/routes.py:49-57 | However things settle, entries with no invalidation due are the rows, if and only if now every entry is the row or due for invalidation and every loaded row is current. |
| CacheAside.OldRowStrikes | services/order/app/routes.py:49-57 | From any state with a reader holding an outdated row, all due invalidations can succeed and the entry still end up stale. |
| CacheAside.StaleOnlyWhileDue | services/order/app/service.py:79-89 | After harmless moves an entry is out of date only between its writer's commit and invalidation. |
| CacheAside.StaleEntryCanSurvive | services/order/app/routes.py:49-57 | A slow reader can leave an old status in the cache with nothing left to remove it. |
| CacheAside.UntouchedProducts | services/inventory/app/service.py:77-114 | Products whose entries are not invalidated did not change quantity. |
| RedisCache.Cache.GetJson | shared/shared/cache.py:21-27 | A failing cache reads as a miss. |
| RedisCache.Cache.SetJson | shared/shared/cache.py:29-33 | Stores one entry, or does nothing when the cache is down. |
| RedisCache.Cache.Invalidate | shared/shared/cache.py:35-40 | Removes any number of keys in one call, or does nothing when the cache is down. |
| OrderService.Service.CreateOrder | services/order/app/service.py:28-48 | Adds one pending order with its customer, lines and total under a new id, and announces customer, total and, position by position, the product and quantity of each line. |
| OrderService.Service.SetStatus | services/order/app/service.py:79-90 | Changes one status and drops its cache entry; an absent order or an equal status changes nothing. |
| OrderService.Service.Cancel | services/order/app/service.py:64-76 | Cancels whatever the status is, drops the cache entry and announces the order and its customer. |
| OrderService.Service.RequestCancel | services/order/app/routes.py:60-76 | 404 exactly when the order is absent or the caller is neither its customer nor an admin; success exactly for theirs in PENDING or CONFIRMED, which is cancelled and announced; otherwise 409 without effect, so never for SHIPPED, DELIVERED or CANCELLED. |
| OrderService.Service.GetOrder | services/order/app/routes.py:37-57 | Nobody but the customer or an admin is ever shown an order; a miss answers the row and stores it, or 404 exactly when it is absent or foreign; a hit answers the entry under the same check. |
| OrderService.Service.OnEvent | services/order/app/consumers.py:14-34 | StockReserved confirms, StockUnavailable cancels and ShipmentCreated ships the order, if present, and drops its cache entry; nothing else changes and nothing is announced. |
| ShippingService.Service.CreateShipment | services/shipping/app/service.py:27-50 | An order with a shipment gets it back unchanged; otherwise one row is added with the next id, CREATED, the courier, and a tracking number that reads back as year and id. |
| ShippingService.Service.OnStockReserved | services/shipping/app/consumers.py:13-27 | The same, and either way announces the id, tracking number and courier of a row of the order. |
| ShippingService.Service.UpdateStatus | services/shipping/app/service.py:57-64 | Sets any status, changes nothing else of the row, and drops its cache entry. |
| ShippingService.Service.RequestStatus | services/shipping/app/routes.py:33-53 | Refuses an unknown shipment without effect; otherwise sets its status, drops its cache entry and announces order and tracking number exactly when delivered. |
| Saga.FindShipment | services/shipping/app/service.py:29-31 | Finds a row of the order if and only if there is one. |
| Numerals.ParseTracking | services/shipping/app/service.py:22-24 | Tracking numbers start with TRK- and read back to year and id, for every year and every id of any length. |
| Numerals.PaddedLength | services/shipping/app/service.py:24 | Ids below a million take exactly six digits, longer ones their own. |
| Numerals.TrackingInjective | services/shipping/app/service.py:22-24 | Equal tracking numbers mean equal ids and years. |
| Numerals.KeysDistinct | services/inventory/app/service.py:16-17 | Cache keys of different products, orders or shipments, or of two different kinds, never collide. |

## Left out

- Gateway, authentication, password hashing, request ids and HTTP plumbing: thin wrappers over libraries.
- SQLAlchemy, Redis, RabbitMQ and their clients: databases are maps with atomic commit and row locks, the cache a map that may lose any entry, the broker queues with atomic fan-out to bound queues.
- `Broker.connect`: a bounded retry loop; a broker is connected or not.
- RowLocks.Serialisable: the product set is fixed, at most one transaction per order is in flight, and deadlock detection appears only as an abort that may come at any time.
- Transactions inside the mesh: each handler's database work is one step there; for inventory, serialisability is what allows this.
- Messaging.Consumer.HandleMessage: an `x-retry` header that is not a number is not modelled, and a body that does not parse appears as an exception before the commit.
- InventoryService.Service.ReserveForOrder: the session's pending changes are computed by loops on values and written to the object's fields at the commit; the low-stock warning is not modelled.
- RedisCache.Cache.GetJson: availability is one field of the object that does not change during a call; failures of single calls are in the interleaved model of `CacheAside`.
- CacheAside.BoundedStaleness: orders only, because a cached product's quantity can be any past one; expiry is arbitrary eviction.
- RetryBound.RetryFanOutBound: process deaths and broker duplicates are excluded, since each adds handler runs without bound.
- Termination.EveryRunIsFinite: the same exclusion; products with one id are created once.
- FIFO runs order each queue by itself; which queue works next is arbitrary.
- Notification history and content: it publishes nothing, so only its bindings matter.
- Shipment status order, courier choice and the read of the shipment cache: any status may follow any other, the courier is an input, and only the invalidation of shipment entries is modelled.
- Prices and totals are whole cents; rounding to two decimals and rendering a total as text are not modelled.
- List endpoints, logging, clocks and actual sleeping: the seconds of backoff are counted, not waited for.
- Claims the code does not support and the model does not make: CANCELLED is final, a cancelled order is never shipped, every committed order or release is announced despite a crash.
