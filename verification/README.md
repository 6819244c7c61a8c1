# SmartRetailX: what the order flow guarantees

A Dafny model of the parts of SmartRetailX whose correctness no single function shows: the purchase saga over two
databases and two at-least-once queues, idempotent order creation, pricing, promotion lifecycles, the per-task product
cache and the group-membership pass. Code that changes state is written as classes and loops; each such method is
proved against a function or a step of a state machine, and the properties are lemmas about those.

| file | what it models |
|---|---|
| `Common`, `SagaTypes` | optional values, map sums; identifiers, rows, messages and the printed form of event ids |
| `Inventory`, `Orders` | the two databases, their transactions, `StockRepository` and `OrderRepository` |
| `Messaging`, `Saga` | relay workers, at-least-once queues, and the protocol as atomic steps over one global state |
| `SagaInvariant`, `SagaRuns` | the inductive invariant, and that every run keeps it |
| `SagaTheorems`, `SagaConservation`, `SagaExactlyOnce`, `SagaCompletion` | the results about runs |
| `SagaWorkers` | consumers, relays and routes as loops, each shown to take only protocol steps |
| `Idempotency` | the key store, `create_order`, and any number of concurrent requests |
| `Pricing`, `PromotionIndex`, `Checkout` | rounding and the best promotion; the index query; merging, batch read, totals |
| `Promotions`, `PromotionRace` | lifecycle reconciliation: one pass, and any number of racing tasks |
| `PriceMarker` | the marker that announces a price change |
| `ProductCache`, `CacheFleet` | one cache and its handlers; any number of caches over one table |
| `Memberships` | the nested paging pass and the lookup for one user |

A run is any finite list of steps, in any interleaving; a step that is not enabled changes nothing. Duplicated sends,
crashes between sending and marking, redelivery, lost workers and stale reads are steps of their own. A conditional
write or SQL transaction is one atomic step with its stated condition, and an exception from one means that nothing was
written. The clock, generated ids, failures and the replies of remote services are parameters.

## Where the code differs from what it says

Each of these is the subject of a lemma in the table.

- **A rejected order can consume stock.** `services/inventory-service/app/services.py:3-5` promises all-or-nothing, and
  `reserve` keeps it by rolling back. `process_order` commits either way, so the lines taken before the failing one stay
  taken. The conservation law carries that prefix as its own term, and the exact condition for a clean rejection is given.
- **Cancellations never finish in the wired service.** `services/inventory-service/app/main.py:36` puts `ResilientStock`
  behind the consumer, and `services/inventory-service/app/resilience.py:56-114` has no `release_reservation`. The call
  raises, the handler returns False, and the command stays queued. The model has both wirings.
- **The order returned by a fulfilment or cancellation request may not be the stored one.** It is rebuilt from the earlier
  read; the stored row and the event are unaffected.
- **The vanished-record branch of the idempotency claim is not safe.** `services/order-service/app/idempotency.py:92-97`
  calls it the safe reading. Two requests with one key can both commit after a read exactly when it finds no record.
- **A redelivered rejection is reported without its reason.** `services/inventory-service/app/services.py:127` looks for
  it in the stored envelope, which has no such field (`services/common/srx_common/events.py:13-24`).
- **Start times east of UTC.** The promotion index compares texts, so such a promotion is found late.
- **Promotions without a stored state or version never move.** The defaults are used for the target but the condition
  compares missing attributes.
- **A price marker can be erased after a product is deleted and created again**, because versions restart: exactly when
  a cleanup from before the deletion is still due and the numbering has not yet passed it.
- **The listing of category `*` shares its cache entry with the whole catalogue.**
- **The lookup of one user's groups reads one page only**, the bounded pass reads all of them. Answers differ exactly for
  users whose groups do not fit on that page.

## Model

| member | source | states |
|---|---|---|
| SagaTypes.EventTextInjective | services/order-service/app/services.py:140-145 | The printed event ids of the order outbox never coincide for two different events, whatever characters order ids contain. |
| SagaTypes.OutcomeTextInjective | services/inventory-service/app/services.py:119-169 | The same for the outcome ids of the inventory outbox. |
| Inventory.ReservableIff | services/inventory-service/app/services.py:88-108 | Whether an order's lines go through does not depend on their order: exactly when each product is stocked in the total asked for. |
| Inventory.RefusalNamesTheFirstShortLine | services/inventory-service/app/services.py:87-108 | A refusal names the product of the first line that does not fit after the lines before it, as insufficient if it is stocked and as unknown if not. |
| Inventory.ExplanationIsUnique | services/inventory-service/app/services.py:87-108 | For given stock and lines there is only one such answer. |
| Inventory.DebitStaysNonNegative | services/inventory-service/app/services.py:92-100 | The conditional decrement never drives a level below zero, whatever prefix of the lines is taken. |
| Inventory.ProcessOrderConserves | services/inventory-service/app/services.py:110-165 | Stock plus reservations plus the committed prefix of a rejection is unchanged by an order command, for every input. |
| Inventory.RejectionCanConsumeStock | services/inventory-service/app/services.py:130-164 | A concrete rejected order after which stock is lower and no ledger row holds the difference. |
| Inventory.RejectionIsCleanIff | services/inventory-service/app/services.py:130-164 | A rejection leaves stock alone if and only if there was no first line or the first line could not be taken. |
| Inventory.UndoingConserves | services/inventory-service/app/services.py:72-82 | With the prefix undone on rejection, as `reserve` does, stock and reservations balance for every command and the answers stay the same. |
| Inventory.ReleaseReturnsWhatWasHeld | services/inventory-service/app/services.py:167-193 | A release returns exactly what the order held, touches no other order, and a second one is a reported no-op. |
| Inventory.ReleaseIsRecorded | services/inventory-service/app/services.py:171-193 | A release leaves one pending outcome row of its own; with nothing reserved it changes nothing and says so. |
| Inventory.RedeliveredCommandIsAbsorbed | services/inventory-service/app/services.py:121-128 | A command processed again, even with other contents, changes nothing and reports the first verdict; its reason is repeated if and only if the order was confirmed. |
| Inventory.RedeliveryForgetsTheReason | services/inventory-service/app/services.py:127-127 | A rejected order whose second delivery reports no reason, where the first named the product. |
| Inventory.StockRepository.Upsert | services/inventory-service/app/services.py:46-58 | Sets an absolute level; the database refuses a negative one. |
| Inventory.StockRepository.ReserveInSession | services/inventory-service/app/services.py:87-108 | Takes the longest prefix of lines that can be taken, and its answer names the first that cannot and why. |
| Inventory.StockRepository.Reserve | services/inventory-service/app/services.py:60-85 | All lines or nothing, with the reason of the first line that does not fit. |
| Inventory.StockRepository.Process | services/inventory-service/app/services.py:110-165 | The loop over lines, receipt, ledger rows and outcome row give the specified transaction; the answer and the pending outcome row carry the same verdict and the reason of the first line that does not fit; a failed insert leaves everything as it was. |
| Inventory.StockRepository.ReleaseReservation | services/inventory-service/app/services.py:167-193 | The loop over ledger rows gives the specified release. |
| Inventory.StockRepository.PendingOutbox | services/inventory-service/app/services.py:195-206 | Returns pending rows only, oldest first, each once, at most the limit, and leaves none older behind. |
| Inventory.StockRepository.MarkOutboxPublished | services/inventory-service/app/services.py:208-218 | Marks the row only if it is pending. |
| Orders.StaleFulfilmentIsAtomic | services/order-service/app/services.py:261-305 | A fulfilment write built from a stale read leaves the same table and event as the atomic transition; the returned order equals the stored one exactly when the read already showed status and reason. |
| Orders.StaleCancellationIsAtomic | services/order-service/app/services.py:310-338 | The same for a cancellation, where fulfilment and reason decide. |
| Orders.OrderRepository.Put | services/order-service/app/services.py:127-172 | The order and its command row appear together or not at all, both in the name and with the items of the request; no other order is touched. |
| Orders.OrderRepository.UpdateStatus | services/order-service/app/services.py:200-245 | The guarded status write, with missing order and wrong status told apart. |
| Orders.OrderRepository.TransactFulfilment | services/order-service/app/services.py:265-305 | Succeeds exactly on a confirmed order at the expected step whose event row is missing; then the row is at the new step and a pending event announces that step, and otherwise nothing is written. |
| Orders.OrderRepository.TransactCancellation | services/order-service/app/services.py:310-338 | Succeeds exactly for the owner of a confirmed, undispatched order whose command row is missing; then the order is CANCEL_PENDING and a pending command carries its items, and otherwise nothing is written. |
| Orders.OrderRepository.MarkOutboxDelivered | services/order-outbox-publisher/handler.py:99-110 | The conditional PENDING to DELIVERED write. |
| SagaInvariant.StepKeepsOrder | services/order-service/app/services.py:105-338 | One order's whole invariant (mirror, decision, ledger, messages on their way) survives every step of every participant. |
| SagaInvariant.ReleaseKeepsTables | services/inventory-service/app/services.py:171-193 | Releasing on a genuine cancel command keeps order, ledger and outbox in agreement for every order and always leaves the order released. |
| SagaRuns.StepAdvances | services/order-service/app/services.py:222-338 | One step moves an order along one edge of a fixed graph or not at all, never changes its identity, and never removes or rewrites an outbox row. |
| SagaRuns.StepKeepsOutcomes | services/inventory-service/app/services.py:155-193 | Receipts and announced outcomes are never withdrawn or changed. |
| SagaRuns.RunKeepsInv | services/inventory-service/app/consumer.py:48-141 | The invariant holds after every run from an empty system, for either wiring. |
| SagaTheorems.NoOrderIsLost | services/order-service/app/services.py:145-171 | In every reachable state a PENDING or CANCEL_PENDING order has a row or a message that will move it on. |
| SagaTheorems.DrainedMeansSettled | services/order-service/app/compensation.py:97-142 | When outboxes and queues are drained every order is CONFIRMED, REJECTED or CANCELLED. |
| SagaTheorems.ServicesAgree | services/order-service/app/compensation.py:32-36 | Status and ledger agree in every reachable state: lines reserved, none, or all released. |
| SagaTheorems.CancelAlwaysFindsRows | services/inventory-service/app/services.py:171-175 | A genuine cancel command always finds ledger rows; the no-op exit means already released. |
| SagaTheorems.NeverCancelledAndDispatched | services/order-service/app/services.py:281-329 | No reachable order is both cancelling or cancelled and dispatched or later. |
| SagaTheorems.HistoryIsAPath | services/order-service/app/services.py:222-329 | Along any run an order starts PENDING, keeps its owner and lines, and every step leaves status and fulfilment alone or follows one edge of a fixed graph. |
| SagaTheorems.OutboxMirrorsHistory | services/order-service/app/services.py:267-332 | Outbox rows are exactly the order's history, so the row-not-exists condition never fails on its own. |
| SagaTheorems.EventsTellTheTruth | services/order-service/app/services.py:140-338 | In every reachable state each outbox row names its own order and that order's owner, and carries its items, or its address and the status of its own key, though it may have been built from a stale read. |
| SagaTheorems.CommandsTellTheTruth | services/order-service/app/services.py:140-338 | The same of every command in the queue. |
| SagaTheorems.StaleWritesAreAtomic | services/order-service/app/services.py:261-333 | A write from any read any task ever made equals the atomic guarded transition on the current row. |
| SagaTheorems.DecisionsAreFinal | services/order-service/app/services.py:222-236 | However a run continues, decisions, receipts and outcomes stand, and REJECTED and CANCELLED are final. |
| SagaTheorems.RejectionNamesALine | services/inventory-service/app/services.py:130-165 | The reason of every REJECTED order, in every reachable state, is that it has no lines or names the product of one of them. |
| SagaTheorems.ResilientNeverReleases | services/inventory-service/app/resilience.py:56-114 | Behind the retrying wrapper no reservation is ever released. |
| SagaTheorems.ResilientNeverCancels | services/inventory-service/app/consumer.py:61-72 | With that wiring no order becomes CANCELLED and a delivered cancel command stays queued. |
| SagaConservation.StockIsConserved | services/inventory-service/app/services.py:46-193 | For every run and product: stock, reservations and leaked prefixes add up to what was supplied, and stock is never negative. |
| SagaConservation.ShareByStatus | services/inventory-service/app/services.py:130-193 | What an order keeps out of stock, by status: its lines, nothing, or a proper prefix of its lines. |
| SagaExactlyOnce.EffectsAreWhatHappened | services/inventory-service/app/services.py:121-128 | An effect is in a run's list exactly when the tables show that it happened. |
| SagaExactlyOnce.RunIsOnceOnly | services/order-service/app/compensation.py:98-110 | A run with all its repeats reaches the orders, stock and ledger of its unconditional effects, none of which occurs twice. |
| SagaCompletion.CancellationCanFinish | services/inventory-service/app/consumer.py:61-72 | With the repository itself behind the consumer, every reachable CANCEL_PENDING order can still become CANCELLED. |
| SagaCompletion.PendingCanBeDecided | services/inventory-service/app/services.py:150-165 | Every reachable PENDING order whose lines the ledger accepts can still be confirmed or rejected. |
| SagaCompletion.RequestedOrderCanBeDecided | services/order-service/app/models.py:74-86 | Every order made from a validated, merged request can still be decided, whatever has happened. |
| SagaCompletion.CoveredOrderCanBeConfirmed | services/inventory-service/app/services.py:110-165 | Under either wiring, an order that the stock covers can be placed and confirmed. |
| SagaCompletion.PendingCancellationStays | services/inventory-service/app/main.py:36-36 | Behind the retrying wrapper a CANCEL_PENDING order stays so along every continuation. |
| SagaCompletion.CancellationCanStickForever | services/inventory-service/app/main.py:36-36 | For every stock and every order it covers there is a run to CANCEL_PENDING which no continuation ever leaves. |
| SagaWorkers.ProductLines | services/inventory-service/app/consumer.py:40-46 | The lines are the items that name a product, in order. |
| SagaWorkers.InventoryService.PublishRow | services/inventory-service/app/events.py:91-121 | Sending and marking one outcome takes protocol steps only; the row is marked exactly when neither call failed. |
| SagaWorkers.InventoryService.PublishOnce | services/inventory-service/app/events.py:89-122 | Tries the oldest pending rows up to the limit; queues exactly the announcements that can be sent, in order; marks and counts exactly those whose two calls succeeded; by protocol steps only. |
| SagaWorkers.InventoryService.Settle | services/inventory-service/app/consumer.py:61-105 | The transaction of one command and whether it is settled: not when the database fails, the transaction raises, or the wrapper lacks the method. |
| SagaWorkers.InventoryService.Act | services/inventory-service/app/consumer.py:61-115 | An unsettled command is left; after a settled one the 25 oldest pending outcomes are tried, sent and marked as far as the calls succeed; with no failure and fewer than 25 waiting before, none is left pending and all are queued, its own among them; an error of the read is raised. |
| SagaWorkers.SettledIsAnnounced | services/inventory-service/app/consumer.py:70-113 | The same for whatever handles a command as specified. |
| SagaWorkers.BatchAnnounces | services/inventory-service/app/consumer.py:117-141 | Over a batch begun with fewer than 25 waiting and without failures, every settled command is announced before the next is begun. |
| SagaWorkers.InventoryService.Handle | services/inventory-service/app/consumer.py:48-115 | Bodies that do not parse are left, events of other types deleted unseen; for a command the database moves exactly as it demands and deletion needs it settled and published without an error. |
| SagaWorkers.InventoryService.PollMessage | services/inventory-service/app/consumer.py:130-140 | Any received body, command or not: it leaves the queue exactly when its handler said so. |
| SagaWorkers.InventoryService.PollOnce | services/inventory-service/app/consumer.py:117-141 | Any received batch is handled in order, each body moving the database and the outcome queue as its settlement says; exactly the bodies so decided are deleted and counted; a raised error abandons the rest; without failures every settled command is announced at once. |
| SagaWorkers.OrderService.Handle | services/order-service/app/compensation.py:62-121 | Unparseable, unknown and anonymous outcomes are dropped, invalid envelopes and unknown orders left; any other outcome is applied once by its guarded write. |
| SagaWorkers.OrderService.PollMessage | services/order-service/app/compensation.py:133-141 | Any received message: its outcome, if it is one, is applied once; all but invalid envelopes and unknown orders are deleted. |
| SagaWorkers.OrderService.PollOnce | services/order-service/app/compensation.py:123-142 | Any received batch: the orders are those after applying its outcomes one by one; all but invalid envelopes and outcomes of unknown orders are deleted and counted. |
| SagaWorkers.OrderService.UpdateFulfilment | services/order-service/app/main.py:238-252 | Exactly when each of the four answers is given, and that only 200 writes; then the order took one step forward and a pending event announces that step to its owner. |
| SagaWorkers.OrderService.CancelOrder | services/order-service/app/main.py:254-261 | Exactly when each of the three answers is given, and that only 200 writes; then the owner cancelled a confirmed, undispatched order and a pending command carries its items. |
| SagaWorkers.OrderRelay.ProcessRecord | services/order-outbox-publisher/handler.py:59-114 | A new row still pending in the table is sent once and then marked, or the failed call is raised with the row left pending; any other record changes nothing. |
| SagaWorkers.OrderRelay.LambdaHandler | services/order-outbox-publisher/handler.py:117-125 | Every record is processed in turn and exactly those that raised are reported, by protocol steps only. |
| SagaWorkers.NothingIsDropped | services/order-outbox-publisher/handler.py:117-125 | After a batch every row it announced is delivered or one of its records is reported for another try. |
| SagaWorkers.OnlyFailuresAreReported | services/order-outbox-publisher/handler.py:117-125 | A reported record announced a row and one of its two calls failed; no other record is tried again. |
| Idempotency.RecordIdsCollideIff | services/order-service/app/idempotency.py:68-70 | When two (user, key) pairs share a record, exactly. |
| Idempotency.RecordIdsDiffer | services/order-service/app/idempotency.py:68-70 | Users without `#` never share a record. |
| Idempotency.RunKeepsKey | services/order-service/app/idempotency.py:72-122 | As long as no step expires a key's record or passes it over, one request at a time works under the key and its orders, record and workers agree, in every interleaving. |
| Idempotency.AtMostOneOrder | services/order-service/app/idempotency.py:72-106 | Along every such run two orders of one user and key are the same order. |
| Idempotency.CompletedNamesItsOrder | services/order-service/app/idempotency.py:108-117 | A completed record names an existing order of the same user, key and payload hash. |
| Idempotency.ReplayIsTheSameOrder | services/order-service/app/main.py:130-135 | A replay answers with the order its own key created from its own payload, and that order is never missing. |
| Idempotency.LookIsUnsafeIff | services/order-service/app/idempotency.py:91-97 | In any reachable state whose record was not passed over or expired before: after a read by a request whose put failed two orders can be committed under the key if and only if the read finds no record. |
| Idempotency.ExpiryIsUnsafeIff | services/order-service/app/idempotency.py:75-84 | In the same states: after an expiry two orders can be committed under the key if and only if someone is working under it or has an order. |
| Idempotency.VanishedRecordAllowsTwoOrders | services/order-service/app/idempotency.py:92-97 | A run, for any user and key, in which the vanished-record branch commits two orders: an instance of the condition. |
| Idempotency.IdempotencyStore.TryClaim | services/order-service/app/idempotency.py:72-106 | Exactly when each of the four answers is given, on the record's own fields, whatever other requests make of the table between the failed put and the read; and the only case in which it writes. |
| Idempotency.IdempotencyStore.Complete | services/order-service/app/idempotency.py:108-117 | Completion, also of a record that has gone. |
| Idempotency.IdempotencyStore.Release | services/order-service/app/idempotency.py:119-122 | The key is free again. |
| Idempotency.CreateOrder | services/order-service/app/main.py:100-186 | Each of the nine ends of the route, what it leaves in both tables, and when: also failures of the release and of the completion. |
| Idempotency.KeyIsAnswered | services/order-service/app/main.py:114-136 | Exactly when the key is refused, reported as in flight or replayed, on the fields of the record met; these answers write nothing. |
| Idempotency.OrderIsAnswered | services/order-service/app/main.py:138-186 | Exactly when each of the other answers is given; a written order and its command are those of the caller and the priced items. |
| Idempotency.RouteIsAllOrNothing | services/order-service/app/main.py:138-186 | An order and its command are written exactly on 201 and when only the completion failed; a failure before the commit frees the key. |
| Idempotency.RouteIsARun | services/order-service/app/main.py:117-186 | An undisturbed call with a key is a run of the concurrent protocol, in every one of its ends. |
| Pricing.MoneyIsNearest | services/common/srx_common/pricing.py:19-21 | Rounding lands within half a penny, ties away from zero. |
| Pricing.MoneyKeepsPence | services/common/srx_common/pricing.py:19-21 | Rounding is idempotent. |
| Pricing.MoneyIsMonotone | services/common/srx_common/pricing.py:19-21 | Rounding is monotone. |
| Pricing.DiscountedExactly | services/common/srx_common/pricing.py:69-71 | The effective price is (B·(10000−D)+5000) div 10000 for base B pence and D hundredths of a percent. |
| Pricing.DeeperDiscountIsCheaper | services/common/srx_common/pricing.py:69-71 | A larger percentage never gives a higher price. |
| Pricing.WinnerIsStrongest | services/common/srx_common/pricing.py:69-69 | The winner is one of the candidates and none is above it by percentage, then id. |
| Pricing.ChosenPromotionIsBest | services/common/srx_common/pricing.py:51-71 | The price lies in [0, base], no applicable promotion would give a lower one, and no promotion is named only when none applies. |
| Pricing.QuoteDependsOnApplicableSet | services/common/srx_common/pricing.py:60-71 | The quote depends only on which promotions apply: not on order, repeats or equal ids. |
| Pricing.EffectivePriceIsBestOffer | services/common/srx_common/pricing.py:31-71 | The quote is the best offer: the rounded price less the discount of the deepest running promotion for the product or its category, ties going to the later id, which it names; or the price as it is when there is none. |
| Pricing.BestOfferIsUnique | services/common/srx_common/pricing.py:31-71 | There is only one best offer. |
| Pricing.BestOfferIsLowest | services/common/srx_common/pricing.py:51-71 | It lies in [0, base] and no running promotion for the product or its category would give less. |
| PromotionIndex.ReachedIff | services/order-service/app/pricing.py:48-51 | What the text comparison of the index means: wall clocks are compared, and the stored zone only breaks ties. |
| PromotionIndex.ActivePromotions | services/order-service/app/pricing.py:46-77 | Over any paging the loop returns every fetched row not yet ended, and fails exactly when a page fails. |
| PromotionIndex.StorefrontAndCheckoutAgree | services/product-service/app/services.py:95-125 | Whatever one side shows and the other charges for one product record, table and time, each a best offer among what it read through pages of its own, is the same quote. |
| PromotionIndex.RowBoundsOffer | services/order-service/app/pricing.py:46-77 | Every stored row whose start the index has reached, and which runs for the product or its category, bounds the quoted price by its own percentage. |
| PromotionIndex.NamedRowGivesThePrice | services/order-service/app/pricing.py:46-77 | A quote that names a promotion is the price of such a row of that id. |
| PromotionIndex.PrefilterKeepsQuoteIff | services/order-service/app/pricing.py:48-77 | Pricing through the index equals pricing against the whole table exactly when every hidden applicable promotion is beaten by a visible one. |
| PromotionIndex.WesternStartsPriceAlike | services/order-service/app/pricing.py:48-77 | With starts stored at UTC or west of it the index never changes a quote. |
| PromotionIndex.IndexIsFaithfulIff | services/order-service/app/pricing.py:48-51 | A single promotion is always priced faithfully unless it is effective and its start was stored east of UTC. |
| Checkout.AggregateDuplicateProducts | services/order-service/app/models.py:74-86 | One line a product with its total, in order of first appearance; refused exactly when a running total passes 100. |
| Checkout.FirstsKeepOrder | services/order-service/app/models.py:74-86 | The merged lines stand in the order in which the request first names their products. |
| Checkout.RefusedIffSomeTotalExceeds | services/order-service/app/models.py:78-84 | For positive quantities the refusal depends only on the totals. |
| Checkout.MergingKeepsQuantities | services/order-service/app/models.py:85-85 | Merging moves no quantity from one product to another. |
| Checkout.MergedOrderIsEquivalent | services/order-service/app/models.py:74-86 | The merged order always fits the ledger, is accepted exactly when the original lines would be, and takes the same stock. |
| Checkout.BatchGetProducts | services/order-service/app/pricing.py:79-101 | At most four calls; it returns exactly the requested part of the catalogue, or fails, and exactly when. |
| Checkout.PriceOrder | services/order-service/app/pricing.py:103-136 | Every line is on sale and charged at the best offer for its product, or the first unsellable product is named; total = sum of line totals = subtotal − discount, with 0 ≤ discount ≤ subtotal. |
| Checkout.ShownIsCharged | services/order-service/app/pricing.py:103-136 | What the storefront answers for a product is what the checkout charges for a line of it. |
| Checkout.TotalsNeverDrift | services/order-service/app/pricing.py:134-136 | For any lines, rounding the sums changes nothing and the difference is exactly the sum of line totals. |
| Promotions.PromotionRepository.CreatePromotion | services/product-service/app/services.py:258-295 | Creates once, DISABLED, EXPIRED, ACTIVE or SCHEDULED exactly as its switch and times demand, at version 0 with the marker cleared. |
| Promotions.PromotionRepository.Reconcile | services/product-service/app/services.py:377-417 | For candidates read at any time and other tasks writing between any transition and its cleanup, the loop applies exactly the compare-and-set transitions that still match, reports them, and ends at the first cleanup that fails. |
| Promotions.CandidateIsHandled | services/product-service/app/services.py:379-406 | A row that is enabled and still as it was read, and whose time has come, moves on by one state and one version and is reported; any other row is left alone. |
| Promotions.QuietPass | services/product-service/app/services.py:377-407 | With nobody else writing, a pass is never abandoned. |
| Promotions.AbandonedIff | services/product-service/app/services.py:405-417 | A pass is abandoned exactly at a transition whose row another task moved on before its cleanup. |
| Promotions.UndisturbedPass | services/product-service/app/services.py:363-407 | An undisturbed pass steps each indexed row once and touches nothing else, whatever the paging or repeats. |
| Promotions.TwoPassesSettleIff | services/product-service/app/services.py:232-240 | After two undisturbed passes a stored state is the one its times call for, if and only if it was before or the row has its attributes and the index returns it. |
| Promotions.ThirdPassIsIdle | services/product-service/app/services.py:363-407 | From the third pass on nothing changes and nothing is reported. |
| PromotionRace.VersionDecides | services/product-service/app/services.py:392-399 | The state part of the condition is implied: only the version decides a race. |
| PromotionRace.RunKeepsInv | services/product-service/app/services.py:363-417 | The race invariant holds after every interleaving of passes, creations and cleanups. |
| PromotionRace.EachBumpIsWonOnce | services/product-service/app/services.py:387-406 | Every version a row went through was produced by exactly one win. |
| PromotionRace.NeverAhead | services/product-service/app/services.py:232-240 | No stored state is past what the clock calls for, although passes use older times and rows. |
| PromotionRace.OnlyOneOfTwoWins | services/product-service/app/services.py:401-406 | Of two tasks holding the same version, in any state, the first to swap wins and the other changes nothing. |
| PromotionRace.MarkerStandsUntilItsOwnCleanup | services/product-service/app/services.py:390-417 | After every interleaving a transition whose cleanup is due still shows its state and its marker, unless a later transition has replaced it. |
| PromotionRace.PassIsARun | services/product-service/app/services.py:378-406 | The pass of the imperative model is a run of the protocol. |
| PriceMarker.ProductRepository.Update | services/product-service/app/services.py:159-197 | An undisturbed update stores the price and the fields that were sent and no others, numbers a price write and clears its marker again; other products are untouched. |
| PriceMarker.ProductRepository.ClearProductPriceEventPending | services/product-service/app/services.py:199-217 | Clears only the version it was given. |
| PriceMarker.RunKeepsInv | services/product-service/app/services.py:172-217 | Versions number the price writes, and the marker belongs to the latest, under any interleaving. |
| PriceMarker.StoredPriceIsTheLatest | services/product-service/app/services.py:166-190 | After every interleaving a product that carries a price write is stored at the price of that write. |
| PriceMarker.PriceWriteIsCarried | services/product-service/app/services.py:166-190 | A price write becomes the one carried, at the price sent, with its marker up. |
| PriceMarker.MarkerStandsUntilItsOwnCleanup | services/product-service/app/services.py:199-214 | An undeleted product shows its latest price change until exactly that change's own cleanup. |
| PriceMarker.VersionsAreFresh | services/product-service/app/services.py:174-180 | Each price write gets a version above all earlier ones. |
| PriceMarker.OlderCleanupIsHarmless | services/product-service/app/services.py:202-203 | On a product never deleted, a cleanup of an older write changes nothing. |
| PriceMarker.StrayCleanupErasesIff | services/product-service/app/services.py:199-214 | The cleanup of another write erases a shown marker if and only if its number is the stored version. |
| PriceMarker.MarkerCanBeErasedIff | services/product-service/app/services.py:172-228 | From any reachable state a marker can be erased without a further deletion if and only if a cleanup left from before is still due, numbered above the version, or equal to it while the marker shows. |
| PriceMarker.UndeletedIsNotInDanger | services/product-service/app/services.py:199-217 | No marker of a product that was never deleted can be erased that way. |
| PriceMarker.UpdateIsARun | services/product-service/app/services.py:159-197 | An undisturbed update is a run of the concurrent protocol. |
| PriceMarker.RecreationLosesAMarker | services/product-service/app/services.py:219-228 | A run with a deletion and recreation in which an older cleanup erases a newer marker: an instance of the condition. |
| ProductCache.KeysCollideIff | services/product-service/app/main.py:94-114 | Two different reads share a cache key in one case only: the whole catalogue and category `*` at one limit. |
| ProductCache.Cache.Get | services/product-service/app/cache.py:34-42 | Returns unexpired entries only and counts hits and misses. |
| ProductCache.Cache.Set | services/product-service/app/cache.py:44-46 | Stores for one TTL; may push out other entries. |
| ProductCache.ProductTask.GetProduct | services/product-service/app/main.py:107-130 | A hit answers with the best offer for the cached record by the promotions of this moment, a miss with that for the stored one, which it caches; an absent product is neither priced nor cached; hits and misses are counted. |
| ProductCache.ProductTask.ListProducts | services/product-service/app/main.py:87-105 | The same for listings: a best offer for each product, in order. |
| ProductCache.ProductTask.Invalidate | services/product-service/app/main.py:217-225 | Drops every entry of this cache. |
| CacheFleet.RunKeepsInv | services/product-service/app/main.py:94-128 | Every entry of every cache is what its read returned, over any interleaving of reads, stores, writes and flushes. |
| CacheFleet.HitsAreHonest | services/product-service/app/main.py:94-128 | A hit returns what the table held for that key when the entry's read was made and was stored less than one TTL ago; it is older than its owner's last flushed write if and only if it was stored late. |
| CacheFleet.StalenessIsBounded | services/product-service/app/cache.py:1-15 | With atomic fills a hit shows a version that was current less than one TTL ago. |
| CacheFleet.OwnWritesAreSeen | services/product-service/app/cache.py:13-14 | With atomic fills no hit is older than the owner's last flushed write. |
| CacheFleet.SplitFillRevivesOldValue | services/product-service/app/main.py:120-127 | Without that, a read before a write and a store after its flush brings the old value back. |
| CacheFleet.ProductReadIsAStep | services/product-service/app/main.py:107-130 | The product handler is no step of the fleet on a hit or for an absent product, and one fill on a miss. |
| CacheFleet.ListReadIsAStep | services/product-service/app/main.py:87-105 | The same for the listing handler. |
| Memberships.GroupMemberships | services/user-service/app/services.py:115-156 | For any paging of groups and members, each user gets the named groups that list them, in group order, as often as they do. |
| Memberships.ListedIff | services/user-service/app/services.py:115-156 | On any directory, these are exactly the named groups that list the user. |
| Memberships.EachGroupOnce | services/user-service/app/services.py:115-156 | On a regular directory that is exactly the groups containing the user, once each. |
| Memberships.LookupAgreesIff | services/user-service/app/services.py:109-113 | For any order and paging of a user's groups, pass and lookup name the same groups exactly when they fit on one page, and are equal exactly when that page also lists them in group order. |

## Left out

- Liveness: redelivery limits, dead-letter queues and stream-record expiry. An unhandled message or PENDING row stays available, and "not lost" is a safety statement; `SagaCompletion` adds that completion stays reachable.
- DynamoDB request tokens and ambiguous transaction timeouts: an exception from a transaction means it did not commit.
- The circuit breaker and the retry policy: in the saga they are a handler that reports failure and changes nothing.
- `StockRepository.release`: the saga releases through the ledger.
- The in-process lock around order transitions and reconciliation: the results hold without it.
- The event bus that receives fulfilment events: the relay marks their rows, and what the bus holds is not tracked.
- Payload fields that carry no decision (correlation and trace ids, timestamps of events, the load-test flag).
- The missing-queue-url exits of the polling loops, which do nothing.
- Idempotency.AtMostOneOrder: does not cover keys whose record expired or was passed over; `LookIsUnsafeIff` and `ExpiryIsUnsafeIff` say exactly when two orders can follow, with no second loosening of the record.
- PromotionRace.EachBumpIsWonOnce: does not cover `update_promotion`, which writes its version without a condition.
- PromotionRace.MarkerStandsUntilItsOwnCleanup: does not cover `update_promotion` either.
- PriceMarker.MarkerStandsUntilItsOwnCleanup: does not cover products that were ever deleted; `MarkerCanBeErasedIff` says exactly when it can fail there.
- CacheFleet.StalenessIsBounded: does not cover fills split by another request; there the delay between read and store adds to the age, which `HitsAreHonest` bounds from the store on.
- PromotionIndex.ReachedIff: the calendar part of a stored time is modelled as a fixed-width count of seconds, not as a date.
- The delay of the secondary index behind its table, and changes to the catalogue between the calls of one batch read.
- The 28-digit decimal context: prices have ten digits and percentages five, so no product or quotient of them is cut.
- PromotionRace.PassIsARun: speaks of an undisturbed pass; in the race a failing cleanup has no effect, and that it ends its pass is stated by `Promotions.AbandonedIff`.
- The in-memory user directory of local mode, and user listing and deletion.
- Eviction order of the cache: storing may push out any other entries.
- JSON, SNS and pydantic parsing, JWT validation, logging, tracing, schema migration, the frontend, web sockets, email, PDF documents and infrastructure code: plumbing around the modelled decisions.
