# Order, payment and wallet protocol

A Dafny model of the money-and-order protocol of a reselling platform: handlers
that run concurrently over shared documents and are kept apart only by
single-document compare-and-swaps, unique indexes and transactions.

Each concurrent part is a state machine whose step is one database operation or
one provider call of one handler, any number of handlers being in flight. Its
properties are proved for every schedule. Beside it, a class holds the handlers
as sequential code over mutable fields; between any two operations every other
handler may take any number of steps, and each operation of the code is proved to
be one step of the machine, so the code inherits the properties.

| part | modules |
|---|---|
| fulfilment engine, refunds | OrderModel, RefundAmounts, StatusMapper, FulfillmentMachine, RefundSafety, DispatchSafety, FulfillmentEngine, FulfillmentTheorems, FulfillmentOutcomes |
| order creation | CreationMachine, CreationSafety, OrderCreation, CreationTheorems, CreationOutcomes |
| multi-provider poller | OrderWorld, OrderPolling, ProviderPoll, PollingRun, PollingPool |
| deposits and SMS events | DepositCredit, PaymentModel, PaymentMachine, PaymentSafety, PaymentTheorems, PaymentArrival, PaymentOrder, PaymentService |
| admin wallet, rates, currency cache | DebtArithmetic, AdminWallet, CurrencyRates, CurrencyCache |
| counters, compatibility ids | CompatIds, CompatService |
| admin fail, refund and force-complete | OrderLedger |
| shared | Options, Filters, Rounding |

Money is in integer cents, stored rates and percentages in millionths, with every
rounding written out; a rate comes in as an exact real. Times appear only where a decision
depends on them. What the network, the clock, a provider, the random order number
or a failing database call may do is a choice of the schedule (`Choice`, `Step`)
or a parameter.

`dafny verify dfyconfig.toml` checks the project.

## What the code does that its documentation does not say

- `refundFailedOrder` sets the flag, then opens its session outside the try
  block, and its undo can throw as well: the order can end up flagged as refunded
  with nothing paid (`RefundCanBeLost`; exactly when is `StrandedExactlyWhen`).
  Its comment announces a later retry; neither the engine nor `markOrderAsFailed`
  makes one (`AbandonedForever`). An admin's partial refund can still pay such an
  order (`AbandonedIsPaidByShare`).
- `placeOrder` is called at most once, and an order failed as unresolved was
  never sent, exactly when no placement reply maps to PROCESSING with neither id
  nor status (`AtMostOnceExactlyWhenMarked`,
  `UnresolvedNeverSentExactlyWhenMarked`).
- `executeOrder` answers `placed: true` when `placeOrder` threw before anything
  was sent (`PlacedWithoutSending`).
- A quantity-only order that is rejected, or fails without a provider, gets no
  quota back: `refundFailedOrder` finds no amount and undoes its flag, while the
  other refunds return units (`ExecutionMeans`, `UnresolvedMeans`).
- The header of `src/modules/providers/statusMapper.js` lets a cancelled order end
  FAILED; the table makes it CANCELED (`ExecutionMeans`).
- The unique index on user and idempotency key is declared sparse, but the user
  is always present, so a missing key, stored as null, is indexed like any value:
  a customer's second order without a key is always refused
  (`SecondUnkeyedIsRefused`, `UnkeyedStoredExactlyWhen`). For the same reason no
  call stores two orders (`StoresAtMostOne`), though one whose read-back threw
  can store an order and report something else (`OneOrderExactlyWhen`).
- Without transactions, a failing ledger record after the debit, or a failing
  compensation, loses the amount (`DebitCanBeLost`, `NothingLostExactlyWhen`).
- The retry limit is the 120 of `src/modules/orders/order.model.js:26`, not the 24
  of the repository README; the kill switch is unreachable for orders that start at 0.
- SMS events are saved without a compare-and-swap. Overlapping handlers can
  approve two deposits with one SMS (`EventCanApproveTwice`); exactly when is
  `MatchKeepsOnceExactlyWhen`. An admin may also edit the amount of a pending
  deposit between match and approval, and the edited amount is the one paid
  (`EditedAmountIsPaid`).
- Changing a rate down and back can move a debt by more than one cent and two
  millionths (`WindowStartsNear4000`, `CurveIsApproached`, `WindowEndsNear5000`,
  `TwoMillionthsAreNotEnough`), but only a debt between 4000.00 and 5000.00 whose
  rate came close to halving (`WithinTwoMillionthsOutsideTheCurve`). A rise of
  more than 100 percent is refused by the adjustment while the rate is stored, so
  the way back down shrinks the debt to half or less (`OverLimitLosesHalf`).
- Completing a failed order whose refund did not go through, or one refunded
  only in part, charges it again in full (`UnfairCompletionOvercharges`,
  `BalancedExactlyWhen`); completing a quantity-only order does not
  take its quota again (`QuotaBalancedExactlyWhen`,
  `QuotaReturnedTwice`).
- A currency lookup overlapping a rate update can cache and serve the old rate
  (`OldRateIsServed`); exactly when is `CurrencyCache.LateStoreAgreesExactlyWhen`,
  and in runs that write no currency between a lookup's find of it and its store
  the cache is right (`QuietRunsCacheRight`).

## Model

| member | source | states |
|---|---|---|
| `FulfillmentTheorems.RefundedExactlyOnce` | src/modules/orders/orderFulfillment.service.js:74-182 | Over every schedule of any number of handlers an order gets at most one refund; `refunded` and `refundedAt` agree; with no refund in flight the flag is set exactly when one was paid or some step lost it - opening the session threw, or the last undo did - and then nothing was or will be paid. |
| `FulfillmentTheorems.StrandedExactlyWhen` | src/modules/orders/orderFulfillment.service.js:87-182 | A refund is stranded in exactly the runs with such a step. |
| `FulfillmentTheorems.MoneyMovesOnce` | src/modules/orders/orderFulfillment.service.js:103-116 | The wallet gains nothing, or one positive refund within the charge; the quota gives back nothing, or at most the units taken. |
| `FulfillmentTheorems.RefundedOrdersFailed` | src/modules/orders/order.service.js:1378-1384 | `refunded` implies FAILED, CANCELED or PARTIAL, so a COMPLETED or MANUAL_REVIEW order never got money back although the refund itself does not test the status. |
| `FulfillmentTheorems.SingleExit` | src/modules/orders/orderFulfillment.service.js:45-55 | An order leaves PROCESSING at most once, and no engine step changes its status afterwards. |
| `FulfillmentTheorems.PlacedAtMostOnce` | src/modules/orders/orderFulfillment.service.js:334-367 | The persisted claim: with replies that leave a mark, `placeOrder` is called at most once per order, whether the call sends the request or throws first, and never for an order failed because its provider could not be resolved. |
| `FulfillmentTheorems.UnmarkedReplySendsTwice` | src/modules/orders/orderFulfillment.service.js:462-479 | For any reply that leaves the order open with neither id nor status there is a run that sends it twice. |
| `FulfillmentTheorems.UnmarkedReplyFailsSent` | src/modules/orders/orderFulfillment.service.js:264-302 | For any such reply there is a run that fails an order as unresolved although it was sent. |
| `FulfillmentTheorems.AtMostOnceExactlyWhenMarked` | src/modules/orders/orderFulfillment.service.js:334-349 | At most one call of `placeOrder` holds for a set of provider replies if and only if none of them maps to PROCESSING with both id and status null. |
| `FulfillmentTheorems.UnresolvedNeverSentExactlyWhenMarked` | src/modules/orders/orderFulfillment.service.js:264-302 | That an order failed as unresolved was never sent holds for exactly the same sets of replies. |
| `FulfillmentTheorems.PlacedWithoutSending` | src/modules/orders/orderFulfillment.service.js:368-389 | A run in which `placeOrder` throws before sending anything and the order is kept open as placed. |
| `FulfillmentTheorems.UncertainKeepsMoney` | src/modules/orders/orderFulfillment.service.js:368-389 | Whatever the provider replies: if `placeOrder` threw, every engine refund of that order follows a provider report that is terminal and requires a refund. |
| `FulfillmentTheorems.LateRejectionIsIgnored` | src/modules/orders/orderFulfillment.service.js:408-420 | Once recovery stored a provider id, a late rejection or cancellation of the placement neither writes to the order nor leads to a refund. |
| `FulfillmentTheorems.RefundCanBeLost` | src/modules/orders/orderFulfillment.service.js:87-92 | A run that leaves the order flagged as refunded with nothing paid: the session is opened after the flag is set and outside the try block. |
| `FulfillmentTheorems.AbandonedForever` | src/modules/orders/orderFulfillment.service.js:173-178 | A FAILED order whose flag was cleared after an error is refunded by no later step of the engine and by no `markOrderAsFailed`, although the comment there announces a retry. |
| `FulfillmentTheorems.RetriesStayBelowLimit` | src/modules/orders/orderFulfillment.service.js:1026-1042 | From a new order, an open order's counter stays below the limit, so the kill switch of the poller never has an order to act on. |
| `FulfillmentTheorems.PendingUntilReview` | src/modules/orders/orderFulfillment.service.js:662-723 | With one poller, an order that was placed or whose placement is uncertain stays open for exactly MAX_RETRY_COUNT - 1 counted rounds, in any mix, and the next hands it to manual review, money untouched. With an id a round counts when its pending answer is stored; without one when its last write - of the pending answer or of the deferral after a miss, a failed lookup or a failed write - goes through; a round that stores the id and then fails does not. |
| `FulfillmentTheorems.ByReferenceMeans` | src/modules/orders/orderFulfillment.service.js:926-954 | One recovery round counts one retry exactly when its last write goes through, and leaves a provider id exactly when the lookup found it and its write went through, whether or not the status write after it throws. |
| `FulfillmentTheorems.EngineStatesAreSafe` | src/modules/orders/orderFulfillment.service.js:213-638 | Every state the sequential handlers below leave behind has all of these properties. |
| `FulfillmentOutcomes.ExecutionMeans` | src/modules/orders/orderFulfillment.service.js:391-611 | What `executeOrder` alone does to a new order for every reply, whatever it was charged and whichever operations throw once the reply is stored: the order holds the reply's id and status; a pending reply keeps it open and a completed one completes it, money untouched; a failed call, a rejected and a cancelled order are closed and paid their full refund, a partial delivery its share. |
| `FulfillmentOutcomes.UnresolvedMeans` | src/modules/orders/orderFulfillment.service.js:264-302 | Without a provider the order fails, is paid its full refund unless that throws, and `placeOrder` is never called. |
| `FulfillmentOutcomes.ThrowKeepsClaim` | src/modules/orders/orderFulfillment.service.js:368-389 | A `placeOrder` that throws, before or after the send, leaves the order claimed and recoverable, money untouched. |
| `FulfillmentOutcomes.CrashEscalates` | src/modules/orders/orderFulfillment.service.js:619-637 | A database error during the execution sends an order still in PROCESSING to manual review and moves no money. |
| `FulfillmentOutcomes.LateReplyMeans` | src/modules/orders/orderFulfillment.service.js:408-450 | A reply that finds the claim gone changes nothing, except that a delivered one completes an order still in PROCESSING. |
| `FulfillmentOutcomes.RecoveryMeans` | src/modules/orders/orderFulfillment.service.js:953-988 | A claimed order that a lookup finds ends with the id and status found, and is paid exactly what the status and the remains found say: the share, the whole charge, the full refund or nothing, whichever operations throw. |
| `FulfillmentOutcomes.RecoveredIsPaid` | src/modules/orders/orderFulfillment.service.js:984-984 | In particular, when nothing throws: the share of the remains found for a partial delivery, the whole charge for a cancelled or rejected order. |
| `FulfillmentOutcomes.MarkFailedMeans` | src/modules/orders/order.service.js:1179-1279 | Beside the engine, `markOrderAsFailed` goes through if and only if the order is neither failed nor refunded and was charged money or quota, and gives back all of it. |
| `RefundSafety.SafeAlways` | src/modules/orders/orderFulfillment.service.js:74-182 | The four invariants behind them - flag, status, ledger, retries - hold in every reachable state. |
| `RefundSafety.FlagStep` | src/modules/orders/orderFulfillment.service.js:74-84 | One step of any handler keeps the flag invariant: at most one handler holds an unsettled flag. |
| `RefundSafety.LedgerStep` | src/modules/orders/orderFulfillment.service.js:126-136 | One step keeps balance and quota equal to their start plus the recorded refunds, each within its order's charge or units. |
| `DispatchSafety.ClaimAlways` | src/modules/orders/orderFulfillment.service.js:334-353 | The claim and history invariants hold in every run, whatever the replies: the claim's owner is the only handler that can be about to call the provider. |
| `DispatchSafety.CallsAlways` | src/modules/orders/orderFulfillment.service.js:334-353 | With marked replies, the counting invariant of the calls holds in every run. |
| `FulfillmentMachine.NextIsOneStep` | src/modules/orders/orderFulfillment.service.js:213-638 | A step changes only its own handler and appends at most one event. |
| `FulfillmentEngine.Engine.FindOneAndUpdate` | src/modules/orders/orderFulfillment.service.js:45-55 | The compare-and-swap: writes when the filter holds of the stored order, otherwise nothing, and reports which. |
| `FulfillmentEngine.Engine.TransitionFromProcessing` | src/modules/orders/orderFulfillment.service.js:45-55 | Swaps only an order still PROCESSING and meeting the extra filter; is one exit step of the machine. |
| `FulfillmentEngine.Engine.RefundFailedOrder` | src/modules/orders/orderFulfillment.service.js:74-182 | Under any interference, returns true exactly when this call credited the full refund of the charge; otherwise it did nothing, or left the flag stranded. |
| `FulfillmentEngine.Engine.ProcessOrderRefund` | src/modules/orders/order.service.js:1359-1459 | Either the call records nothing, or it records exactly one refund - the order's share in money, or its units when nothing was charged - and the order is flagged. |
| `FulfillmentEngine.Engine.CommitShareRefund` | src/modules/orders/order.service.js:1378-1443 | One transaction, which pays exactly when the order is not flagged and something is owed. |
| `FulfillmentEngine.Engine.ProcessOrderStatusResult` | src/modules/orders/orderFulfillment.service.js:654-907 | The action returned names the one exit this call made and the status it fits; only a failed order is repaid, at most once: the share of the reported remains, a cancelled order all of it, a rejected one its full refund; an order that waits has one more retry. |
| `FulfillmentEngine.Engine.ExecuteOrder` | src/modules/orders/orderFulfillment.service.js:213-638 | `placed` if and only if this call kept the order open or completed it on the reply; then the request was sent unless it threw before the send. `refunded` if and only if this call itself credited a refund, and then the full one. |
| `FulfillmentEngine.Engine.RecoverUncertainPlacement` | src/modules/orders/orderFulfillment.service.js:924-988 | The action names the exit made. The order is completed, failed or repaid only after this call recovered it, and then exactly as the status and the remains of its lookup say; it is escalated on a recovered status or for lack of retries; one that waits was recovered or has one more retry and is still uncertain. |
| `FulfillmentEngine.Engine.StoreRecovered` | src/modules/orders/orderFulfillment.service.js:962-983 | Stores the id and status found on an order whose claim stands, and goes on with the very status and remains of the lookup. |
| `FulfillmentEngine.Engine.PollOrder` | src/modules/orders/orderFulfillment.service.js:1011-1085 | An order that is not to be polled is untouched; one out of retries is escalated or skipped without asking the provider; only one without an id is recovered; the action names the exit made, and any refund is the one that what the provider said leads to. |
| `FulfillmentEngine.ChargeIsFixed` | src/modules/orders/orderFulfillment.service.js:99-108 | No step rewrites the frozen charge or quantity. |
| `FulfillmentEngine.EventsCarryTheirHandler` | src/modules/orders/orderFulfillment.service.js:213-638 | Every recorded event belongs to the handler whose step it was. |
| `StatusMapper.ClassifyIsFaithful` | src/modules/providers/statusMapper.js:110-156 | The three status functions, written over three lists, agree on every string, and with the verdicts the engine works with. |
| `StatusMapper.BlanksIgnored` | src/modules/providers/statusMapper.js:110-111 | Blanks around a status make no difference. |
| `StatusMapper.UnknownKeepsPolling` | src/modules/providers/statusMapper.js:112-116 | A status in none of the lists keeps the order polling and refunds nothing. |
| `RefundAmounts.FullRefundIsTheCharge` | src/modules/orders/orderFulfillment.service.js:103-116 | For new-style, legacy-split and charged-only orders the full refund is exactly the charge. |
| `RefundAmounts.ShareIsFloored` | src/modules/orders/order.service.js:1408-1413 | A partial refund is at most the exact share and less than one unit below it. |
| `RefundAmounts.ShareIsWithinCharge` | src/modules/orders/order.service.js:1405-1422 | Every refund of `processOrderRefund` lies between 0 and the charge. |
| `RefundAmounts.ShareIsMonotone` | src/modules/orders/order.service.js:1408-1413 | More undelivered units never mean a smaller refund. |
| `CreationTheorems.BooksBalance` | src/modules/orders/order.service.js:559-1160 | Over every schedule of calls and refunds: overdraft and quota limits always hold and no order has given back more than it took; when all calls have returned, wallet and quota have paid for exactly the stored orders, less what their refunds gave back, plus what was lost. |
| `CreationTheorems.ServiceStatesBalance` | src/modules/orders/order.service.js:559-1160 | Every state the sequential code leaves behind has balanced books. |
| `CreationTheorems.NothingLostExactlyWhen` | src/modules/wallet/wallet.service.js:165-187 | Money or quota is lost in exactly the runs in which a standalone ledger record or compensation throws with something taken. |
| `CreationTheorems.DebitCanBeLost` | src/modules/wallet/wallet.service.js:165-187 | A run in which a refused call loses its debit. |
| `CreationTheorems.StoresAtMostOne` | src/modules/orders/order.model.js:467-470 | With or without a key, and through every retry, a call stores at most one order. |
| `CreationTheorems.OneOrderExactlyWhen` | src/modules/orders/order.service.js:1130-1154 | Through both modes and all three kinds of retry, a finished call has stored one order if and only if it reports a new one or its own read-back threw; the two exclude each other, and otherwise it stored none. |
| `CreationTheorems.AttemptsAreBounded` | src/modules/orders/order.service.js:1130-1154 | No call ever makes a 24th attempt. |
| `CreationTheorems.SameKeySameOrder` | src/modules/orders/order.service.js:482-488 | In any run, whatever else the customer orders in it: any two calls with one supplied key that hand an order back hand back the same one, the only one stored with that key, charged once. |
| `CreationTheorems.KeyStoredAtMostOnce` | src/modules/orders/order.model.js:467-470 | In any run each key, null included, has at most one stored order. |
| `CreationTheorems.SecondUnkeyedIsRefused` | src/modules/orders/order.model.js:467-470 | Once a customer has an order without a key, every other call without one stores nothing and ends refused. |
| `CreationTheorems.UnkeyedStoredExactlyWhen` | src/modules/orders/order.model.js:223-228 | A customer who can pay can still get an order without a key if and only if he has none yet. |
| `CreationOutcomes.CreatedExactlyWhen` | src/modules/orders/order.service.js:469-1127 | A call that runs alone, in a transaction or not: a supplied key already stored hands its order back and touches nothing; otherwise an order is created and charged exactly its price if and only if the customer can pay - the wallet going down to minus the credit limit, the quota up to its limit - and has no order under the same key, null included; if not, nothing changes. |
| `CreationOutcomes.CreatedThroughRetries` | src/modules/orders/order.service.js:1130-1154 | Whatever mix of number clashes, conflicts and missing transaction support it meets first, each of a kind that is retried, a call ends exactly as without them, its one order charged once. |
| `CreationOutcomes.OwnKeyIsHandedBack` | src/modules/orders/order.service.js:1004-1028 | A call whose insert meets an order stored under its own key is never refused: whatever the others do, and whether or not its compensation throws, it hands back a stored order with its key, unless its own lookup throws. |
| `CreationOutcomes.ReturnMeans` | src/modules/orders/order.service.js:1378-1443 | A refund between the calls gives back all an order took, or the share of its undelivered units, once. |
| `CreationSafety.ConservedStep` | src/modules/orders/order.service.js:742-828 | One step - an attempt's or a refund's - keeps money and quota conserved, within their limits, and every return within what its order took. |
| `CreationSafety.UniqueStep` | src/modules/orders/order.model.js:467-470 | One step keeps order numbers and keys unique, null being one value of the key. |
| `CreationSafety.ShopAlways` | src/modules/orders/order.service.js:559-1160 | Conservation, uniqueness and the per-call bookkeeping hold in every reachable state. |
| `OrderCreation.OrderService.CreateOrder` | src/modules/orders/order.service.js:469-552 | The call runs under any interference and returns the outcome its handler recorded. |
| `OrderCreation.OrderService.AttemptCreateOrder` | src/modules/orders/order.service.js:559-1160 | The source's own recursion: it terminates by (20 - duplicates) + [not forced] + [not retried]. |
| `OrderCreation.OrderService.CommitDebitAndInsert` | src/modules/orders/order.service.js:935-1045 | Debit and insert take effect together or not at all: the order is stored and paid if and only if number and key are free and the customer can pay, the wallet going down to minus the credit limit or the quota up to its limit. |
| `OrderCreation.OrderService.InsertPaid` | src/modules/orders/order.service.js:953-1040 | The insert goes through if and only if number and key are free; what was taken then belongs to the order, and otherwise is about to be given back. |
| `OrderCreation.OrderService.FindExisting` | src/modules/orders/order.service.js:1024-1026 | Unless the lookup throws, the call hands back the stored order with its key. |
| `OrderCreation.OrderService.TakePayment` | src/modules/orders/order.service.js:742-757 | The standalone debit or quota increment applies if and only if its filter holds; a miss refuses the order and changes nothing else. |
| `OrderCreation.OrderService.GiveBackPayment` | src/modules/orders/order.service.js:990-1000 | The compensation returns exactly what was taken, or loses exactly that when it throws, and the call goes on the same way. |
| `OrderWorld.SettleIsFinal` | src/modules/orders/orderFulfillment.service.js:654-907 | A poll is over after at most eight operations, and further steps change nothing. |
| `OrderWorld.PollsAreLocal` | src/modules/orders/orderPolling.service.js:270-298 | Under any interleaving an order's state depends only on how many of its own operations ran. |
| `OrderWorld.WalletsUnderPolls` | src/modules/orders/orderPolling.service.js:270-298 | Every shared wallet holds its opening balance plus what its orders were paid back. |
| `OrderWorld.InterleavedEqualsLoop` | src/modules/orders/orderPolling.service.js:433-433 | Whatever the workers' interleaving, completed polls leave all orders and wallets as polling each order once, one after the other. |
| `OrderWorld.LoopOrderIsIrrelevant` | src/modules/orders/orderPolling.service.js:250-298 | The plain loop gives the same result in any order of the orders. |
| `OrderPolling.Chunk` | src/modules/orders/orderPolling.service.js:86-92 | The chunks concatenate to the list; none is empty or over size; all but the last are full. |
| `OrderPolling.GroupsPartition` | src/modules/orders/orderPolling.service.js:150-189 | Each group holds exactly its provider's orders, in load order, including the bucket without a provider. |
| `OrderPolling.GroupOrdersByProvider` | src/modules/orders/orderPolling.service.js:150-189 | The loop computes those groups and lists each key once. |
| `OrderPolling.AdvanceWorker` | src/modules/orders/orderPolling.service.js:117-129 | One worker takes the next index, stores an outcome at its own index, or stops; something always decreases. |
| `OrderPolling.RunWithConcurrency` | src/modules/orders/orderPolling.service.js:113-134 | Workers advancing in any order start each task once, in order, never more than `limit` at a time, and store every outcome - rejections included - at its index. |
| `ProviderPoll.SettleMeans` | src/modules/orders/orderFulfillment.service.js:654-907 | What one poll does for each verdict, charge, billing mode and set of throwing operations: counts it, completes the order, or closes it and pays back the share, the units or the deducted total, noting the status and remains heard; a throwing status swap leaves everything, a throwing refund the money. |
| `ProviderPoll.ResultMap` | src/modules/orders/orderPolling.service.js:274-277 | The map of a batch's results has exactly the listed ids. |
| `ProviderPoll.Poller.PollBatch` | src/modules/orders/orderPolling.service.js:279-298 | A batch leaves the world where the loop over its answered orders does, and counts each order once. |
| `ProviderPoll.Poller.PollProviderGroup` | src/modules/orders/orderPolling.service.js:210-302 | Batches of bounded size; a batch whose call throws, or an unusable provider, leaves its orders as they were and counted as pending. |
| `ProviderPoll.NothingThrown` | src/modules/orders/orderPolling.service.js:259-271 | If no call throws, exactly the answered orders are processed. |
| `PollingRun.TallyOfSameMembers` | src/modules/orders/orderPolling.service.js:436-451 | The counters do not depend on the order in which the orders were polled. |
| `PollingRun.PollPendingOrders` | src/modules/orders/orderPolling.service.js:339-465 | With the groups polled one after the other in any order, every order and wallet ends where the plain loop over the heard orders leaves them; when no call throws those are the answered orders; `completed` counts the orders that ended COMPLETED, `failed` those that ended PARTIAL, CANCELED or FAILED, `stillProcessing` the rest, `skippedOrders` those without a provider. |
| `PollingRun.SlotIsOutcome` | src/modules/orders/orderPolling.service.js:288-291 | An open order is counted by the status the run left it with. |
| `PollingPool.ProgramPolls` | src/modules/orders/orderPolling.service.js:242-299 | A task - ask about each batch, then poll what the answer lists - polls each order it hears of to the end, and no other. |
| `PollingPool.PoolEqualsLoop` | src/modules/orders/orderPolling.service.js:113-134 | Under every interleaving of the workers' operations, at most `limit` tasks are in flight, and a pool that has stopped leaves all orders and wallets as the plain loop over the orders it heard of. |
| `PollingPool.RunIsTheLoop` | src/modules/orders/orderPolling.service.js:402-433 | The same for a whole run, with one task for each provider's group: it ends where polling the groups one after the other ends, and on the answered orders when no call throws. |
| `PollingPool.MovesRunOut` | src/modules/orders/orderPolling.service.js:117-129 | Each move of a worker that has not stopped uses up one of finitely many. |
| `DepositCredit.CreditIsClose` | src/modules/deposits/deposit.service.js:331-344 | A same-currency deposit is credited to the cent; a converted one is credited to within half a cent plus half a millionth of the target rate (in currency units 0.005 + 0.0000005 * toRate) of amount * toRate / fromRate; it is refused exactly when a needed rate is missing. |
| `DepositCredit.CreditIsMonotone` | src/modules/deposits/deposit.service.js:335-343 | A larger deposit is never credited less than a smaller one. |
| `PaymentModel.MatchedExactlyWhenUnique` | src/modules/paymentEvents/paymentEvent.service.js:245-278 | An event is matched to a deposit if and only if that is the only pending Vodafone deposit with its transaction, amount, currency and a compatible phone. |
| `PaymentModel.UnmatchedExactlyWhen` | src/modules/paymentEvents/paymentEvent.service.js:279-299 | Exactly when the other three answers are given: nothing with the transaction, several that fit, or some and none that fits. |
| `PaymentTheorems.CreditedExactlyOnce` | src/modules/deposits/deposit.service.js:310-356 | Over every interleaving each deposit has one ledger credit if it is APPROVED and none otherwise, for its own amount when no conversion is needed; wallets equal opening plus ledger; no payment is stored twice; an auto-approved deposit carries its event's transaction, currency and a compatible phone. |
| `PaymentTheorems.ApprovalPaysTheDeposit` | src/modules/deposits/deposit.service.js:270-356 | An approval stores the overrides of amount, currency and event where they are given and leaves what else was requested; it raises the user's wallet by the final amount, or its exchange value to within the two roundings, with one ledger entry, and touches no other wallet or deposit. |
| `PaymentTheorems.OldestFittingEvent` | src/modules/paymentEvents/paymentEvent.service.js:468-483 | A new deposit is matched with an event if and only if that is the oldest unmatched one with its transaction, amount, currency and a compatible phone. |
| `PaymentTheorems.MatchMeans` | src/modules/paymentEvents/paymentEvent.service.js:245-316 | An event is matched to the only deposit that fits, ambiguous with several, a mismatch when its transaction is waited for and nothing fits, and otherwise left unmatched; a match goes on to the approval exactly when it may. |
| `PaymentTheorems.SettlementMeans` | src/modules/paymentEvents/paymentEvent.service.js:318-366 | The approval by an event pays the deposit's worth once and marks the event processed, or in error when `approveDeposit` throws after its commit; when it is refused or aborted only the event is marked in error. |
| `PaymentTheorems.DeskStatesAreSafe` | src/modules/paymentEvents/paymentEvent.service.js:382-488 | Every state the sequential handlers leave behind satisfies these guarantees. |
| `PaymentTheorems.ReviewIsFinal` | src/modules/deposits/deposit.service.js:251-262 | An approved or rejected deposit never changes again. |
| `PaymentTheorems.EditedAmountIsPaid` | src/modules/paymentEvents/paymentEvent.service.js:312-346 | Between match and approval anything may run: what is approved and paid is the amount of the last accepted edit in between, and the message's own amount when there was none. |
| `PaymentTheorems.EventApprovesOnce` | src/modules/paymentEvents/paymentEvent.service.js:312-366 | If no handler matches an event that another one has already taken, an event approves at most one deposit. |
| `PaymentTheorems.MatchKeepsOnceExactlyWhen` | src/modules/paymentEvents/paymentEvent.service.js:312-316 | A match breaks that guarantee if and only if its event is already used and the match finds another deposit it may approve. |
| `PaymentArrival.AtomicHandlersApproveOnce` | src/modules/paymentEvents/paymentEvent.service.js:382-488 | Under whole handlers every guarantee holds, including one approval per event. |
| `PaymentArrival.EventCanApproveTwice` | src/modules/paymentEvents/paymentEvent.service.js:461-488 | A run of overlapping handlers in which one SMS approves two deposits: events are saved without a compare-and-swap. |
| `PaymentOrder.ArrivalOrderIsIrrelevant` | src/modules/paymentEvents/paymentEvent.service.js:461-488 | Event first or deposit first: the same deposits, wallets and ledger, namely those of the deposit meeting the event. |
| `PaymentOrder.ApprovedExactlyWhen` | src/modules/paymentEvents/paymentEvent.service.js:301-346 | Whichever handler runs first: the deposit ends approved if and only if its user exists, the message is about this very payment, settings, age and source allow it, the rates give a positive credit, and the transaction commits; then that credit is paid once, otherwise no money moves. |
| `PaymentService.PaymentDesk.ApproveDeposit` | src/modules/deposits/deposit.service.js:242-379 | Goes through if and only if the deposit is pending, its user exists, the final amount is worth something at the rates there are, and the transaction commits; the overrides are then stored and exactly that worth is credited once; otherwise it says why and changes nothing. |
| `PaymentService.PaymentDesk.AdminApprove` | src/modules/deposits/deposit.service.js:242-379 | The same for an admin, whose amount and currency override what was requested. |
| `PaymentService.PaymentDesk.RejectDeposit` | src/modules/deposits/deposit.service.js:453-504 | Only a pending deposit is rejected; wallets and ledger are untouched. |
| `PaymentService.PaymentDesk.CreditWalletDirect` | src/modules/wallet/wallet.service.js:316-387 | Adds exactly the amount with its ledger entry, or refuses. |
| `PaymentService.PaymentDesk.ProcessWebhook` | src/modules/paymentEvents/paymentEvent.service.js:382-459 | A duplicate delivery changes nothing and answers from the stored event; otherwise `autoApproved` means a deposit is approved by this event. |
| `PaymentService.PaymentDesk.MatchExisting` | src/modules/paymentEvents/paymentEvent.service.js:461-488 | Without a fitting event nothing happens; otherwise the first one in creation order is taken by a job that is carried to its end, and `approved` means a deposit is approved by it. |
| `PaymentService.PaymentDesk.SaveMatch` | src/modules/paymentEvents/paymentEvent.service.js:312-316 | The match is saved exactly as the machine's step says. |
| `PaymentService.DuplicateIsFound` | src/modules/paymentEvents/paymentEvent.service.js:368-380 | The two lookups find an event if and only if fingerprint or (source, transaction) is already stored. |
| `DebtArithmetic.AdjustmentBounds` | src/modules/admin/admin.wallet.service.js:400-404 | For a percentage up to 100 the adjustment never exceeds the debt: relief does not make it positive, inflation at most doubles it. |
| `DebtArithmetic.LegScales` | src/modules/currency/currency.service.js:158-188 | One update scales a debt by the ratio of the rates to within half a cent and half a millionth of the debt. |
| `DebtArithmetic.UpAndBack` | src/modules/currency/currency.service.js:158-188 | Rate up and back: a debt d in cents returns to within 1 + 0.0000015 d. |
| `DebtArithmetic.DownAndBack` | src/modules/currency/currency.service.js:158-188 | Rate down and back: to within 1.5 + 0.0000015 d. |
| `DebtArithmetic.RestoredExactlyWhenWithinLimit` | src/modules/admin/admin.wallet.service.js:368-375 | A debt of four cents or more is restored to within 1.5 + 0.0000015 d if and only if the larger percentage is at most 100. |
| `DebtArithmetic.SmallDebtsWithinACent` | src/modules/currency/currency.service.js:158-188 | Debts below 4000.00 return to within one cent. |
| `DebtArithmetic.WithinTwoMillionthsOutsideTheCurve` | src/modules/currency/currency.service.js:158-188 | A debt d returns to within 1 cent + 0.000002 d whenever the rate went up first, or the debt is outside 4000.00 to 5000.00, or the ratio of the rates lies below a curve that falls from 2 at 4000.00 to 1.8 near 5000.00. |
| `DebtArithmetic.DownWithinACent` | src/modules/currency/currency.service.js:158-188 | Down first: a debt below 4000.00, or one whose rates lie below that curve, returns to within one cent. |
| `DebtArithmetic.WindowStartsNear4000` | src/modules/currency/currency.service.js:158-188 | Near the lower edge: a debt of 4016.05 and rates that miss 1 cent + 0.000002 d. |
| `DebtArithmetic.CurveIsApproached` | src/modules/currency/currency.service.js:158-188 | In the middle: at 4500.00 the curve is at 1.898, and rates with ratio 1.918 miss it. |
| `DebtArithmetic.WindowEndsNear5000` | src/modules/currency/currency.service.js:158-188 | Near the upper edge: a debt of 4998.38 and rates with ratio 1.820 that miss it. |
| `DebtArithmetic.TwoMillionthsAreNotEnough` | src/modules/currency/currency.service.js:158-188 | Concrete rates and debt, down first, that miss 1 cent + 0.000002 d. |
| `AdminWallet.AdjustedDebtStaysADebt` | src/modules/admin/admin.wallet.service.js:496-533 | An adjusted user's balance stays between twice the debt and zero; nobody else is touched. |
| `AdminWallet.CreditCoversDebt` | src/modules/wallet/wallet.service.js:20-25 | Credit used stays within its limit, covers a debt within it, and never grows when money comes in. |
| `AdminWallet.WalletAdmin.AddFunds` | src/modules/admin/admin.wallet.service.js:112-174 | Range check, then exactly the amount added with its ledger entry. |
| `AdminWallet.WalletAdmin.DeductFunds` | src/modules/admin/admin.wallet.service.js:187-263 | Refuses beyond balance plus credit limit; otherwise the balance stays above minus the limit. |
| `AdminWallet.WalletAdmin.SetBalance` | src/modules/admin/admin.wallet.service.js:274-348 | Sets the balance within its bounds and records the difference as credit or debit. |
| `AdminWallet.WalletAdmin.AdjustNegativeBalances` | src/modules/admin/admin.wallet.service.js:368-450 | Found are exactly the users with a negative balance who are not deleted and, if a currency is given, have it. Each of them whose update goes through owes its percentage of the debt more, or less, to the nearest cent, with credit used recomputed; nobody else changes. The result counts and totals exactly the users adjusted and recorded, each with its ledger entry; the balances moved by the total plus the adjustments of exactly those whose record threw. |
| `AdminWallet.AdjustmentMeans` | src/modules/admin/admin.wallet.service.js:396-420 | What one bulk adjustment makes of any user, with the filter and the rounding written out. |
| `CurrencyRates.UserRoundTrip` | src/modules/currency/currency.service.js:158-188 | Re-pegging there and back restores every user's debt to within 1.5 + 0.0000015 d and changes no other user. |
| `CurrencyRates.RepegTouches` | src/modules/currency/currency.service.js:158-188 | A rate update re-pegs only users who owe in that very currency, by the rounded percentage of the change, and none for a change of nothing or of more than 100 percent. |
| `CurrencyRates.UpdatedExactlyWhen` | src/modules/currency/currency.service.js:104-150 | An update is accepted if and only if the currency exists, a given rate is positive to six decimals and 1 for USD, a given markup not negative, and the names within their limits. |
| `CurrencyRates.StoredRateIsRounded` | src/modules/currency/currency.service.js:129-129 | A stored rate is the given one rounded to six decimals. |
| `CurrencyCache.LateStoreAgreesExactlyWhen` | src/services/currencyConverter.service.js:53-63 | A lookup finds, waits and stores: what it stores agrees with the database if and only if the writes to that currency in between leave the rate it found; in particular when there were none. |
| `CurrencyCache.CacheIsRight` | src/services/currencyConverter.service.js:39-74 | In every run in which each store writes the rate the database still holds, every cached rate agrees with the database or is about to be dropped. |
| `CurrencyCache.QuietRunsCacheRight` | src/services/currencyConverter.service.js:39-74 | In particular in every run that writes no currency between a lookup's find of it and that lookup's store. |
| `CurrencyCache.ServedForAMinute` | src/services/currencyConverter.service.js:44-52 | A cached rate is served for less than a minute after it was stored; otherwise the database is asked. |
| `CurrencyCache.RatesStayPositive` | src/modules/currency/currency.service.js:121-129 | In every run no write stores a rate that is not positive. |
| `CurrencyCache.OldRateIsServed` | src/services/currencyConverter.service.js:39-64 | A run in which a lookup overlaps an update and the old rate is served from the cache. |
| `CurrencyRates.CurrencyService.GetConversionRate` | src/services/currencyConverter.service.js:39-64 | Whatever is cached and for however long, the answer equals the stored platform rate, or the database's error. |
| `CurrencyRates.CurrencyService.UpdateCurrencyRate` | src/modules/currency/currency.service.js:104-191 | The first failing check names the error and changes nothing, validation of the saved document included; otherwise exactly the given fields change, the code is dropped from the cache, and every user is re-pegged exactly when asked and the percentage is valid. |
| `CurrencyRates.CurrencyService.SetCurrencyStatus` | src/modules/currency/currency.service.js:206-227 | Only the status changes, and the cache still agrees. |
| `CurrencyRates.CurrencyService.CreateCurrency` | src/modules/currency/currency.service.js:239-265 | Creates exactly the valid, new codes, with their name, symbol and markup; nothing cached can contradict it. |
| `CurrencyRates.CurrencyService.DeleteCurrency` | src/modules/currency/currency.service.js:281-312 | Deletes exactly an existing code other than USD that no user has. |
| `CurrencyRates.CurrencyService.SyncRates` | src/services/exchangeRateSync.service.js:104-205 | The feed never changes a stored platform rate, status, name, symbol or markup; new currencies are inactive; no conversion rate changes. |
| `CompatIds.IdsAreUnique` | src/modules/orders/counter.model.js:45-72 | Over every interleaving numbers are issued in increasing order, ids are distinct, and callers were returned the stored id. |
| `CompatIds.NumbersAreContiguous` | src/modules/orders/counter.model.js:45-72 | Without the script, the numbers issued are exactly the range from one past the start. |
| `CompatIds.AllCallersAgree` | src/modules/clientCompat/clientCompat.service.js:61-88 | Two callers were returned the same id if and only if they asked for the same document. |
| `CompatIds.IdsAreAssignedOnce` | src/modules/clientCompat/clientCompat.service.js:67-77 | A stored id never changes. |
| `CompatIds.NoCollisions` | src/modules/clientCompat/clientCompat.service.js:64-87 | When no stored id exceeds the counter, no number ever collides: one attempt is enough and nobody gives up. |
| `CompatIds.AloneGetsTheNext` | src/modules/clientCompat/clientCompat.service.js:61-117 | Run alone with no stored id above the counter, a document to serve, to fill in or to insert gets exactly the next number. |
| `CompatIds.SyncMakesNumbersFresh` | scripts/backfill-compat-ids.js:20-34 | Once the script has raised the counter, whatever ran in between, every number issued later is free. |
| `CompatIds.LaterNumbersStayFree` | scripts/backfill-compat-ids.js:36-65 | And it stays free for as long as it waits to be stored, whatever else runs, so the script never collides. |
| `CompatService.RegistryStatesAreSafe` | src/modules/clientCompat/clientCompat.service.js:61-117 | Every state the code leaves behind has distinct ids and agreeing callers. |
| `CompatService.CompatRegistry.GetNextSequence` | src/modules/orders/counter.model.js:45-72 | Find, create if absent, increment under any interference; the returned number was issued. |
| `CompatService.CompatRegistry.EnsureCompatId` | src/modules/clientCompat/clientCompat.service.js:61-117 | Returns the document's stored id; it gives up only after five numbers in a row were some document's id already, so never when no stored id exceeded the counter as it began. |
| `CompatService.CompatRegistry.SyncCounterToExistingMax` | scripts/backfill-compat-ids.js:20-34 | Afterwards no stored id exceeds the counter, under any interference. |
| `CompatService.CompatRegistry.AssignMissingIds` | scripts/backfill-compat-ids.js:36-70 | It never throws; every document has an id afterwards, and none that had one lost it, under any interference. |
| `OrderLedger.BalancedExactlyWhen` | src/modules/admin/admin.orders.service.js:218-442 | Over any sequence of full and partial refunds and forced completions of a charged order, the customer has at every point paid the charge less the refund in force if and only if each completion finds the order neither refunded nor closed, or its latest refund was a full one and the save goes through. |
| `OrderLedger.PaidExactlyOnce` | src/modules/admin/admin.orders.service.js:218-442 | With such completions only, the customer has paid the charge less what the latest refund paid back while the order is refunded: all of it if and only if it is not refunded, and nothing if and only if it is refunded in full. |
| `OrderLedger.CompletionBalancedExactlyWhen` | src/modules/admin/admin.orders.service.js:415-442 | After any operations that left the account balanced, a forced completion keeps the balance if and only if the order is neither refunded nor closed, or its latest refund was a full one and the save goes through. |
| `OrderLedger.UnfairCompletionOvercharges` | src/modules/admin/admin.orders.service.js:418-432 | Otherwise the customer is overcharged by exactly what had not been given back. |
| `OrderLedger.FailPaysBack` | src/modules/orders/order.service.js:1195-1279 | Failing goes through if and only if the order is neither failed nor refunded, was charged money or quota, and the transaction commits; it then pays back the whole charge or all the units. |
| `OrderLedger.ShareIsPaid` | src/modules/admin/admin.orders.service.js:218-250 | The same for a refund with units remaining: exactly when it goes through, and that it pays their share and ends PARTIAL. |
| `OrderLedger.CompletionCharges` | src/modules/admin/admin.orders.service.js:401-442 | A completion takes the charge again exactly from refunded or closed orders, whether or not its save goes through. |
| `OrderLedger.AbandonedIsPaidByShare` | src/modules/admin/admin.orders.service.js:239-245 | A FAILED order without a refund is refused the full refund, and is paid its share by the partial one: the whole charge as soon as the units remaining cover the quantity. |
| `OrderLedger.QuotaCompletionBalancedExactlyWhen` | src/modules/admin/admin.orders.service.js:418-438 | A completion keeps the quota of an order billed by quantity balanced if and only if the order is not refunded or the save fails. |
| `OrderLedger.QuotaBalancedExactlyWhen` | src/modules/admin/admin.orders.service.js:218-442 | Over any sequence of operations, the quota of such an order stays balanced throughout if and only if none completes it while it is refunded. |
| `OrderLedger.QuotaHeldOnce` | src/modules/admin/admin.orders.service.js:218-442 | Over any sequence of operations without a completion of a refunded order, such an order holds its units less those returned, each at most once. |
| `OrderLedger.QuotaReturnedTwice` | src/modules/admin/admin.orders.service.js:418-438 | A quantity-only order failed, completed and failed again returns its quota twice: completion does not take it again. |
| `OrderLedger.OrderAdmin.MarkOrderAsFailed` | src/modules/orders/order.service.js:1179-1279 | Refuses with the right error, or flags and pays back in one transaction. |
| `OrderLedger.OrderAdmin.CompleteOrder` | src/modules/admin/admin.orders.service.js:401-442 | Re-deducts the charge from refunded or failed orders, then completes; a failing save keeps the deduction. |
| `OrderLedger.OrderAdmin.RefundOrder` | src/modules/admin/admin.orders.service.js:218-250 | The guards, the full refund, and with units remaining the PARTIAL status and then the share. |
| `OrderLedger.OrderAdmin.ProcessOrderRefund` | src/modules/orders/order.service.js:1378-1443 | Refuses with the right error, or flags the order and pays its share in one transaction. |

## Left out

- PaymentTheorems.EventApprovesOnce: assumes that handlers match only events nobody else has taken, because without that it is false of the code.
- DebtArithmetic.DownAndBack: states 1.5 cents and 1.5 millionths, which holds for every debt; one cent and two millionths does not, and DebtArithmetic.WithinTwoMillionthsOutsideTheCurve says where it does.
- DebtArithmetic.WithinTwoMillionthsOutsideTheCurve: goes one way; above the curve the bound fails for some rates and holds for others, as the two percentages happen to round.
- PollingRun.PollPendingOrders: runs the groups one at a time in an arbitrary order; that the interleaved pool ends in the same place is PollingPool.RunIsTheLoop. A concurrency limit of zero or less, which makes the original fail after polling nothing, is not modelled there.
- PollingPool.RunIsTheLoop: lets an order be read together with its first operation rather than when the run loads all orders; in between nothing else touches it.
- `retryOrder` and `syncOrderProviderStatus` (`src/modules/admin/admin.orders.service.js:130-201`, `:280-388`): unguarded read-then-save, outside every guarantee above.
- `completeOrder` and the admin `refundOrder` racing with the engine or with each other.
- Standalone (no-transaction) races inside `processOrderRefund` and `markOrderAsFailed`, process crashes between two operations, and commits whose result is unknown.
- `markOrderAsCompleted`, `updatePendingDeposit`, the admin wallet operations and the loops over indebted users read, compute and set without a guard; each is one atomic step here.
- The grouping of `pollProcessingOrders` by provider code: its per-order work is the engine's `PollOrder`, and its batching has the shape of the poller modelled here.
- The injected-adapter variant of the poller, kept for tests.
- Referral commissions: they write no wallet here, only can abort an approval.
- Which of two violated unique indexes the database reports first: the order number, as declared first.
- The execution type: every order of the engine is automatic. Provider order ids are non-empty.
- Floating-point error of the original's arithmetic; amounts and rates are exact.
- Saves of an event that throw after its deposit was approved: the event is then in error here, or processed, but not both.
- SMS parsing, fingerprints, phone and currency normalization, and the payment-method filter: an event or deposit carries their results. Lower-casing and trimming of statuses is modelled on ASCII. Currency codes arrive upper-case, and names and symbols trimmed.
- Order field validation and provider field mapping, pricing, routing snapshots, pagination, dashboards, audit logs, notifications and authentication: only easy members, or no effect on the modelled state.
- Deletion of products and categories: documents with compatibility ids stay.
