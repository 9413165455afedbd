# OmniRetail: stock and money, verified

A Dafny model of the state machines and ledgers behind a retail back office: what a till may do while
it is offline, how stock moves through the database, how payments, messages and events are delivered
exactly once or at least once, and how money is rounded, printed and booked. Each component is
written twice: as functions on values that say what one step does, and, where the program updates
state, as a class whose methods do it in place and are proved to end where the functions say. The
theorems are about every run of those steps; the modules named `…Effects`, `PosUnits` and `Janitor` say what
single operations accept and change in terms of the tables alone.

| files | what they model |
|---|---|
| `Ledger`, `Serialized` | the in-memory movement ledger and the unit state table |
| `PosModel`, `PosOverlay`, `PosSync`, `PosConvergence`, `PosReentry`, `PosUnits`, `PosDevice`, `PosLog` | the offline till: command log, optimistic mirror, push and pull |
| `StockModel`, `StockUnits`, `StockTransfers`, `StockOrders`, `StockEffects`, `TransferEffects`, `OrderEffects`, `StockRuns`, `Janitor`, `StockService`, `DriftCheck` | the stock tables: posting, receiving, transfers, repairs, orders, reservations, adjustments, and the drift report |
| `Payments`, `PaymentRuns`, `PaymentDesk`, `PaymentEffects` | intents, webhooks, reconciler and janitor on one order |
| `Relay`, `Notifications`, `NotificationDesk`, `NotificationEffects` | the outbox relay and the notification worker, with crashes |
| `Audit`, `Funnel`, `RateLimit` | the hash chain, the ordered funnel, the two limiters |
| `Base32`, `Xml`, `Smtp`, `DecimalMoney` | encoders, framing and decimal text |
| `Rounding`, `Tax`, `EInvoice`, `CreditNotes`, `Journal` | VAT, e-invoices, pro-rated reversals, double entry |
| `WalletLog`, `GiftCards`, `StoreCredit`, `Loyalty` | the three customer wallets |
| `Common`, `Digits`, `Text` | shared sequences, numerals and strings |

Run `dafny verify dfyconfig.toml`. Lemmas for which Dafny would guess an induction of its own switch
it off: Dafny 4.11 takes the induction hypothesis over untyped sequences, which can contradict the
constructors of a record type.

Money is in integer minor units and quantities in integer thousandths throughout. Identifiers drawn
at random are arguments; clocks are arguments; a transaction is one step, except where the program
reads before it locks, and then the read is a step of its own.

Where code and comments disagree, the model follows the code:

- `packages/pos-core/src/commandLog.ts:331-332` applies a command to the mirror before the log can refuse it, so a refused append is not always without effect, and a re-entered command can stay in the mirror for good: `PosSync.RefusedAppendChangesNothingIff` and `PosConvergence.EverySyncConvergesIff` give the exact conditions, `PosReentry` the runs.
- `apps/worker/src/notificationDelivery.ts:170-182`: the stalled sweep does not count the attempt.
- `apps/api/src/inventory/unitService.ts:47` lets returned and damaged units go to repair while the movement takes stock from the shelf; agreement survives exactly for in-stock units (`StockUnits.RepairKeepsAgreementIff`, `StockUnits.ReturnedUnitBreaksAgreement`).
- `apps/api/src/audit/auditService.ts:95-128`: cutting off the end of the chain goes unnoticed; every other removal is found.
- `apps/api/src/payments/paymentService.ts:202-205`: a late capture publishes `order.paid` for an order the janitor cancelled.
- `packages/connector-sdk/src/rateLimiter.ts:66-80`: after the clock steps back one sleep may not be enough (`RateLimit.OneSleepSufficesIff`).
- `apps/api/src/einvoice/creditNoteService.ts:177-182` checks each note alone, so several can exceed the invoice: `CreditNotes.NotesStayWithin` and `CreditNotes.WholeNotesExceedIff` say when.
- `apps/api/src/notify/smtpTransport.ts:343-360` drops a reply nobody waits for (`Smtp.NoReplyIsLostIff`) and takes one reply per chunk (`Smtp.CoalescedReplyStays`).
- `packages/db/sql/013_loyalty.sql:16-17` keys redemptions by order alone and `redeemWith` has no look-up, so a replayed loyalty redemption fails where gift cards and store credit return the earlier amount.

## Model

| member | source | states |
|---|---|---|
| Ledger.ApprovalComesLast | packages/domain/src/inventory/rules.ts:73-125 | a missing approval is reported exactly when supplying one leaves no rule broken; a broken shape is reported first, with or without it |
| Ledger.ShapeOkIff | packages/domain/src/inventory/rules.ts:21-66 | a movement has a proper shape exactly when it takes a positive quantity along one of the listed routes between states, within or across sites as the kind asks, and carries an approval where one is needed |
| Ledger.FoldOfPermutation | packages/domain/src/inventory/ledger.ts:123-133 | levels do not depend on the order in which the same movements are folded |
| Ledger.StockIsConserved | packages/domain/src/inventory/ledger.ts:51-85 | over any history, the stock of a variant summed over every bucket is what came in from outside less what left; two-sided movements cancel |
| Ledger.AcceptedKeepsNonNegative | packages/domain/src/inventory/ledger.ts:51-85 | a movement accepted without `allowNegative` keeps every level at or above zero |
| Ledger.AcceptsAllIff | packages/domain/src/inventory/ledger.ts:51-85 | a replaying ledger takes a whole list exactly when the movements are well-shaped, their ids differ and none was posted before |
| Ledger.InventoryLedger.Post | packages/domain/src/inventory/ledger.ts:51-85 | posting appends the movement and moves debit then credit, or refuses with the first error and changes nothing; the level map stays the fold of the history |
| Ledger.InventoryLedger.Level | packages/domain/src/inventory/ledger.ts:87-89 | a level is the fold of the history at that bucket |
| Ledger.InventoryLedger.PostAll | packages/domain/src/inventory/ledger.ts:51-85 | movements are posted up to the first refusal and the earlier ones stay |
| Ledger.Replay | packages/domain/src/inventory/ledger.ts:123-133 | a ledger rebuilt from history alone has that history and its levels |
| Serialized.OneWrongDigitIsFound | packages/domain/src/inventory/serialized.ts:1-36 | a valid fifteen-digit IMEI with any one digit mistaken is not valid |
| PosModel.CommandToMovements | packages/pos-core/src/commandLog.ts:132-159 | one movement per line for sales and returns, none for cash sessions |
| PosModel.CommandMovements | packages/pos-core/src/commandLog.ts:132-159 | the movement ids of a command are exactly its line ids and all differ |
| PosModel.LinesOfDifferentCommands | packages/pos-core/src/commandLog.ts:132-159 | lines of commands with different ids have different movement ids |
| PosModel.SortMembers | packages/pos-core/src/commandLog.ts:282-294 | sorting the history for a rebuild is a permutation |
| PosModel.SortIsInOrder | packages/pos-core/src/commandLog.ts:282-294 | the sorted history is in sequence order |
| PosOverlay.EntriesReplayable | packages/pos-core/src/commandLog.ts:282-294 | an overlay whose entries are commands of the log replays without a refusal: its ids differ and its movements are well-shaped |
| PosOverlay.SettleAgrees | packages/pos-core/src/commandLog.ts:272-280 | settling a command removes its entry, pending or left over from a refused append, and keeps overlay and log in agreement |
| PosSync.ValidatedAcceptance | packages/pos-core/src/commandLog.ts:241-250 | after validation an optimistic post is refused only because a line id is already taken |
| PosSync.RefusedAppendChangesNothingIff | packages/pos-core/src/commandLog.ts:321-335 | a refused append leaves log and mirror exactly as they were if and only if it is not one whose first line the ledger takes and whose later line or whole command is then refused |
| PosSync.ContaminatedSaleTakesStock | packages/pos-core/src/commandLog.ts:321-335 | a refused re-append of a sale the log already settled still takes its stock out of the mirror |
| PosReentry.ContaminationHappens | packages/pos-core/src/commandLog.ts:321-335 | such a refused append on a device reached from an empty one: a sync, a sale, the sync that rejects it, the sale again |
| PosSync.AppendKeepsDeviceOk | packages/pos-core/src/commandLog.ts:321-335 | every append, accepted or refused, keeps log, overlay, conflicts and history in agreement |
| PosSync.AppendOrphans | packages/pos-core/src/commandLog.ts:321-335 | what an append leaves in the overlay for no pending command: nothing, or exactly the movements taken of a command the log had already settled |
| PosSync.AppendKeepsFresh | packages/pos-core/src/commandLog.ts:241-302 | between syncs, applying commands one by one gives the levels and unit states a full rebuild gives |
| PosSync.AcceptedSaleIsCovered | packages/pos-core/src/commandLog.ts:359-403 | an accepted sale takes exactly the quantity summed over all its lines per variant and leaves the on-hand level at or above zero |
| PosUnits.AcceptedIff | packages/pos-core/src/commandLog.ts:321-403 | a sale or return is accepted exactly when it is new, every IMEI on it is known, every line is sellable (its unit known, of the variant, whole, in stock or held) or returnable (its unit, if known, sold), and a sale is covered; what is queued is the command meant, numbered after all others |
| PosUnits.RefusalSays | packages/pos-core/src/commandLog.ts:321-403 | each refusal names a reason that holds |
| PosUnits.CashSessionAcceptedIff | packages/pos-core/src/commandLog.ts:321-335 | a cash session is accepted exactly when it is new |
| PosUnits.AcceptedCommandMovesItsUnits | packages/pos-core/src/commandLog.ts:166-175 | after an accepted sale each known unit on it is sold, after a return it is back to be checked, and every other unit stays |
| PosUnits.AcceptedCommandMovesStock | packages/pos-core/src/commandLog.ts:132-159 | an accepted sale takes the quantities of its lines off the shelf, a return puts them where they are checked, and no other level changes |
| PosConvergence.SettledAgrees | packages/pos-core/src/syncEngine.ts:125-160 | acting on one answer keeps log, overlay and conflict records in agreement, with one conflict per rejection |
| PosUnits.SettledSays | packages/pos-core/src/syncEngine.ts:125-160 | entry by entry: exactly the entries of the answered command change status, to synced or rejected with the reason, exactly its overlay entries go, and a rejection alone leaves a conflict |
| PosConvergence.PushAgrees | packages/pos-core/src/syncEngine.ts:125-160 | a push keeps that agreement for any answers, including missing and unknown ones, and does not touch the pulled history |
| PosConvergence.PushLeavesUnanswered | packages/pos-core/src/syncEngine.ts:125-160 | after a push exactly the commands without an answer are still pending, in their old order |
| PosConvergence.AfterIsSuffix | packages/pos-core/src/syncEngine.ts:162-174 | the feed after a cursor that stands behind the first m items is the rest of the feed |
| PosConvergence.IngestSlice | packages/pos-core/src/commandLog.ts:256-270 | a slice of the feed extends the held history without a gap and counts each item at most once |
| PosConvergence.PullKeepsInStep | packages/pos-core/src/syncEngine.ts:162-174 | a pull keeps the device in step wherever the connection drops, and when it completes the device holds the whole feed with its cursor at the end |
| PosConvergence.SyncKeepsDeviceOk | packages/pos-core/src/syncEngine.ts:106-124 | a sync keeps every replica invariant whether or not it completes; an orphan stays exactly until its command is answered again |
| PosConvergence.RunKeepsDeviceOk | packages/pos-core/src/syncEngine.ts:106-174 | every run of any appends, settled answers, pages, rebuilds, syncs with lost acks or lost pages, and restored cursors keeps the replica invariants |
| PosConvergence.EverySyncConvergesIff | packages/pos-core/src/syncEngine.ts:106-174 | after any run a sync that completes leaves the mirror at the whole feed followed by the overlay entries not in it, every id counted once, one conflict per rejection and only unanswered commands pending; the overlay is then exactly the pending commands if and only if every orphan entry has landed in the feed |
| PosUnits.EverySyncShowsUnits | packages/pos-core/src/commandLog.ts:166-175 | after any run a sync that completes leaves each registered unit sold, back for check, in stock, on the way, broken or written off as the last movement of the feed or of the unlanded overlay to name it says, and as registered when none does |
| PosUnits.ShownUnits | packages/pos-core/src/commandLog.ts:282-302 | the same of any mirror that shows the feed, so of every rebuild |
| PosConvergence.EveryRebuildConvergesIff | packages/pos-core/src/syncEngine.ts:106-174 | the same after any rebuild of a device that holds the whole feed, so appends, answers and pages may interleave with the parts of a sync |
| PosConvergence.FreshRunsConverge | packages/pos-core/src/syncEngine.ts:106-174 | when no append of the run re-enters a settled command, a sync that completes always converges |
| PosConvergence.ConvergedIff | packages/pos-core/src/commandLog.ts:282-294 | a mirror that shows the feed and the overlay shows nothing but the feed and the pending commands exactly when every orphan has landed |
| PosReentry.SyncNeedNotConverge | packages/pos-core/src/commandLog.ts:321-335 | a run from an empty device whose completed sync does not converge: a rejected sale appended again |
| PosConvergence.EachMovementCountsOnce | packages/pos-core/src/commandLog.ts:282-294 | no movement id is counted twice, whether it came by the feed or is still in the overlay |
| PosConvergence.ConvergedLevels | packages/pos-core/src/commandLog.ts:228-235 | in a converged mirror each level is the server level plus what pending commands still have to land |
| PosConvergence.DrainedMirrorIsServer | packages/pos-core/src/syncEngine.ts:106-124 | with nothing pending the mirror is the server ledger |
| PosConvergence.NoSaleIsLost | packages/pos-core/src/syncEngine.ts:125-160 | with a server that posts what it acknowledges, every line of every command not rejected is in the mirror |
| PosConvergence.RejectedSaleLeavesNothing | packages/pos-core/src/commandLog.ts:272-280 | a rejected command the server never posted leaves nothing in the mirror |
| PosDevice.EffectiveIsPostable | packages/pos-core/src/commandLog.ts:282-294 | the whole effective history of a well-kept device can be posted to an empty ledger |
| PosDevice.LocalInventoryMirror.RegisterUnit | packages/pos-core/src/commandLog.ts:199-215 | hydrates a unit, or refuses a known unit or identifier and changes nothing |
| PosDevice.LocalInventoryMirror.FindUnit | packages/pos-core/src/commandLog.ts:217-221 | the seed with its current state |
| PosDevice.LocalInventoryMirror.FindByImei | packages/pos-core/src/commandLog.ts:223-226 | the unit an identifier belongs to |
| PosDevice.LocalInventoryMirror.ApplyOptimistic | packages/pos-core/src/commandLog.ts:241-250 | posts the movements of a command up to the first refusal, the new mirror being the specified one |
| PosDevice.LocalInventoryMirror.ApplyServerMovements | packages/pos-core/src/commandLog.ts:256-270 | ingests a page with each id at most once and returns how many were new |
| PosDevice.LocalInventoryMirror.DiscardCommand | packages/pos-core/src/commandLog.ts:272-280 | removes the command from the overlay and nothing else |
| PosDevice.LocalInventoryMirror.Rebuild | packages/pos-core/src/commandLog.ts:282-294 | replays sorted history then the overlay movements the server has not posted |
| PosDevice.LocalInventoryMirror.ReplayUnits | packages/pos-core/src/commandLog.ts:282-294 | puts unit states back to their seeds and lets them follow the history again |
| PosDevice.LocalInventoryMirror.ReplayOverlay | packages/pos-core/src/commandLog.ts:282-294 | the overlay half of the rebuild, entry by entry |
| PosLog.PendingInSequence | packages/pos-core/src/stores/memory.ts:19-25 | listing pending commands in append order is listing them in sequence order, so the sort moves nothing |
| PosLog.CommandStore.Append | packages/pos-core/src/stores/memory.ts:12-18 | appends as pending, or refuses a known id and changes nothing |
| PosLog.CommandStore.ListPending | packages/pos-core/src/stores/memory.ts:19-25 | exactly the pending commands, in order |
| PosLog.CommandStore.Mark | packages/pos-core/src/stores/memory.ts:45-51 | sets one status in place and leaves every other entry |
| PosLog.ShortIff | packages/pos-core/src/commandLog.ts:386-402 | a sale is short exactly when some variant needs more over all its lines than is on hand |
| PosLog.CommandLog.AddUp | packages/pos-core/src/commandLog.ts:386-402 | the map holds, per variant, the quantity summed over the lines |
| PosLog.CommandLog.CheckQuantities | packages/pos-core/src/commandLog.ts:386-402 | refuses exactly when some variant is short |
| PosLog.CommandLog.Normalize | packages/pos-core/src/commandLog.ts:337-350 | stamps the next sequence number and resolves identifiers to units, or reports the unknown one |
| PosLog.CommandLog.Validate | packages/pos-core/src/commandLog.ts:352-403 | the first validation error in the source order, or none |
| PosLog.CommandLog.Enter | packages/pos-core/src/commandLog.ts:321-335 | mirror first, then log, with what each leaves behind when it refuses |
| PosLog.CommandLog.Append | packages/pos-core/src/commandLog.ts:321-335 | the whole append: new log and mirror, and the command or the error |
| PosLog.AnswersAddUp | packages/pos-core/src/syncEngine.ts:125-160 | applied, duplicate, rejected and unanswered counts add up to the batch |
| PosLog.CountIsHowMany | packages/pos-core/src/syncEngine.ts:125-160 | each counter of the report is the number of commands of the batch whose last answer is of its kind |
| PosLog.SyncEngine.Settle | packages/pos-core/src/syncEngine.ts:125-160 | acts on one answer: mark, discard, record a conflict |
| PosLog.SyncEngine.Push | packages/pos-core/src/syncEngine.ts:125-160 | the push loop over the pending batch, with its report counters |
| PosLog.SyncEngine.PullFeed | packages/pos-core/src/syncEngine.ts:162-174 | the paging loop: each page ingested, cursor advanced, stop on a short page, on any prefix of pages |
| PosLog.SyncEngine.Sync | packages/pos-core/src/syncEngine.ts:106-124 | push, pull, rebuild: the device ends where the value-level sync puts it |
| PosLog.CompletedPullTakesRest | packages/pos-core/src/syncEngine.ts:162-174 | a completed pull counts exactly the feed items behind the old cursor |
| StockUnits.PostRefinesLedger | apps/api/src/inventory/pgInventory.ts:45-117 | the tables accept exactly the movements the strict in-memory ledger accepts and their levels track it |
| StockUnits.CoveredPosts | apps/api/src/inventory/pgInventory.ts:45-117 | a well-shaped movement with a fresh id whose source bucket covers it always posts |
| StockEffects.SettleSays | apps/api/src/inventory/pgInventory.ts:45-117 | a posted movement raises its target and lowers its source by its quantity, which the source had, and changes no other level |
| StockEffects.ReceiptSays | apps/api/src/inventory/receivingService.ts:39-127 | a receipt raises the on-hand stock of each variant at the place by what its lines bring, and stores each scanned unit with its identities, in stock there; nothing else changes |
| StockEffects.ReceiptAcceptedIff | apps/api/src/inventory/receivingService.ts:39-127 | a receipt is accepted exactly when it has lines, each of a known variant with a positive quantity or with units of valid identities, and no unit shares an identity with a stored or an earlier one |
| TransferEffects.DispatchedSays | apps/api/src/inventory/opsService.ts:157-258 | a dispatch takes what its lines send off the shelf at one end and puts it under way at the other, sets exactly the named units on their way, and records the header; nothing else changes |
| TransferEffects.DispatchAcceptedIff | apps/api/src/inventory/opsService.ts:157-258 | a dispatch is accepted exactly when the transfer is new and leads elsewhere, each named unit is of its variant, in stock at the start and named once, and the shelf covers all lines together |
| TransferEffects.UnitLegsIff | apps/api/src/inventory/opsService.ts:278-283 | the units a receipt lands are exactly those the ledger holds a dispatch movement of this transfer for |
| TransferEffects.FindIff | apps/api/src/inventory/unitService.ts:19-26 | a unit is found exactly when the table holds its id |
| TransferEffects.TransferReceivedSays | apps/api/src/inventory/opsService.ts:260-334 | a receipt moves exactly what the transfer carried from under way to the shelf, puts exactly its units in stock there, and closes it |
| TransferEffects.TransferReceivedIff | apps/api/src/inventory/opsService.ts:260-334 | an unknown transfer is reported as such, and any other can be received exactly once |
| TransferEffects.SentToRepairSays | apps/api/src/inventory/unitService.ts:37-75 | only a unit in stock, returned or damaged goes to repair, in place, with one whole unit from on hand to damaged; nothing else changes |
| TransferEffects.BackFromRepairSays | apps/api/src/inventory/unitService.ts:76-145 | only a unit in repair comes back, in place, with one whole unit from damaged to on hand |
| StockUnits.UnitMoveAgrees | apps/api/src/inventory/opsService.ts:157-334 | a unit update together with the movement that follows it keeps units and buckets in agreement |
| StockUnits.SentToRepairKeeps | apps/api/src/inventory/unitService.ts:37-75 | sending an in-stock unit to repair keeps units, buckets and transfers in agreement |
| StockUnits.BackFromRepairKeeps | apps/api/src/inventory/unitService.ts:76-145 | bringing it back keeps them too |
| StockUnits.RepairKeepsAgreementIff | apps/api/src/inventory/unitService.ts:37-75 | agreement survives a repair that succeeds if and only if the unit was in stock, although the transition table also lets returned and damaged units through |
| StockUnits.ReturnedUnitBreaksAgreement | apps/api/src/inventory/unitService.ts:37-75 | sound tables with a returned unit whose repair succeeds and breaks the agreement |
| StockUnits.ReceiveLinesKeep | apps/api/src/inventory/receivingService.ts:39-127 | serialized and bulk intake keep every unit, bucket and transfer invariant |
| StockTransfers.DispatchKeeps | apps/api/src/inventory/opsService.ts:157-258 | a dispatch keeps them, and each unit it names belongs to this transfer only |
| StockTransfers.TransferReceivedKeeps | apps/api/src/inventory/opsService.ts:260-334 | receiving a transfer keeps them |
| StockTransfers.OpenTransferCanBeReceived | apps/api/src/inventory/opsService.ts:260-334 | stock once dispatched can always be received: no debit of the receipt can fail |
| StockTransfers.UnderWayInATransfer | apps/api/src/inventory/opsService.ts:157-334 | a unit in transit is named exactly once by some transfer not yet received |
| StockTransfers.OnlyOneTransfer | apps/api/src/inventory/opsService.ts:157-334 | no two transfers not yet received name the same unit |
| StockOrders.CheckedOutKeeps | apps/api/src/sales/webOrderService.ts:116-330 | a web checkout reserves its lines and keeps every invariant |
| StockOrders.ImportKeeps | apps/worker/src/orderImport.ts:138-317 | an import keeps every invariant whatever its outcome |
| StockOrders.ConfirmKeeps | apps/api/src/payments/paymentService.ts:202-205 | a payment confirms an order without touching stock |
| StockOrders.ExpiredKeeps | apps/worker/src/reservationJanitor.ts:15-125 | the release transaction keeps every invariant |
| StockOrders.ActiveRowCanBeReleased | apps/worker/src/reservationJanitor.ts:15-125 | the reserved bucket covers every active row, so the janitor's debit cannot fail |
| StockOrders.ReleasedIff | apps/worker/src/reservationJanitor.ts:15-125 | the janitor cancels an order exactly when the tenant has a user to act as and the order still waits for payment; its debits never fail |
| OrderEffects.ChosenSiteIsFirst | apps/worker/src/orderImport.ts:181-196 | the site chosen is the first in order of preference that has every line, and there is none exactly when no site has |
| OrderEffects.CheckoutSays | apps/api/src/sales/webOrderService.ts:116-330 | a checkout sets aside exactly its lines at that site, with an active row for each until it expires, under a new order |
| OrderEffects.CheckoutAcceptedIff | apps/api/src/sales/webOrderService.ts:116-330 | a checkout is accepted exactly when the tenant can act, the order is new, some site has every line, and the first such has all lines together |
| OrderEffects.ImportSays | apps/worker/src/orderImport.ts:138-317 | an order is a duplicate exactly when it was imported from the channel before; an imported one reserves its lines, SKU by SKU, without an end; any other changes nothing and its reason holds |
| OrderEffects.ExpirySays | apps/worker/src/reservationJanitor.ts:63-106 | a released order gives back exactly what its active rows hold; otherwise no stock moves |
| OrderEffects.PaymentSays | apps/api/src/payments/paymentService.ts:202-205 | a payment confirms its order while that waits, and changes no other |
| Janitor.DueOrdersIff | apps/worker/src/reservationJanitor.ts:16-22 | the batch is drawn from exactly the orders with an active reservation past its time, each once |
| Janitor.ExpiredSays | apps/worker/src/reservationJanitor.ts:15-125 | only rows of the order change and only to inactive; it is cancelled only if it waited for payment |
| Janitor.RanSays | apps/worker/src/reservationJanitor.ts:15-125 | after a batch the released orders waited for payment and were due, rows of orders not due are as they were, and within the limit each due order is released or has its rows retired, each once |
| StockRuns.RunIsWhole | apps/api/src/inventory/opsService.ts:157-334 | every reachable state over receipts, dispatches, transfer receipts, repairs, checkouts, imports, payments, releases and adjustments satisfies all of the following at once |
| StockRuns.LevelsAreTheLedger | apps/api/src/inventory/pgInventory.ts:45-117 | in every reachable state each level is the fold of the ledger and none is negative |
| StockRuns.UnitsFillTheirBuckets | apps/api/src/inventory/opsService.ts:157-334 | for every serialized variant and place: on hand plus reserved, in transit and damaged equal the numbers of in-stock, in-transit and in-repair units |
| StockRuns.ReservationsAreCovered | apps/worker/src/reservationJanitor.ts:15-125 | in every reachable state the reserved level is at least the active reservations |
| StockRuns.ReleasedOnceOrNever | apps/worker/src/reservationJanitor.ts:15-125 | an order's stock is released once, wholly and only on cancellation; an imported order's never |
| StockRuns.OrderOutcomeIsFinal | apps/worker/src/reservationJanitor.ts:15-125 | confirmed by payment or cancelled by the janitor, never both: either is final over every later run |
| StockRuns.AdjustmentsAreAuthorised | apps/api/src/inventory/opsService.ts:461-674 | in every reachable state every movement of a kind that needs approval takes off the variant, quantity, place and state its approval requested, approved by somebody other than the requester |
| StockRuns.ApprovalsAreSpentOnce | apps/api/src/inventory/opsService.ts:560-674 | no two such movements name the same approval |
| OrderEffects.RequestedIff | apps/api/src/inventory/opsService.ts:461-558 | a request is recorded exactly for a positive countable quantity of an untracked variant that is taken off |
| OrderEffects.DecidedIff | packages/db/sql/003_inventory.sql:134-149 | a decision is recorded once, by somebody other than who asked |
| OrderEffects.AdjustedIff | apps/api/src/inventory/opsService.ts:560-674 | an adjustment posts exactly what a second person approved, once, when it is there to be taken off, and takes off exactly that |
| StockRuns.ReimportIsDuplicate | apps/worker/src/orderImport.ts:138-200 | importing the same marketplace order again is a duplicate and changes nothing |
| StockRuns.OneOrderPerReference | packages/db/sql/004_orders.sql:34-59 | at most one order per channel and external reference over every run |
| StockRuns.ImportKeysDiffer | apps/worker/src/orderImport.ts:26-36 | movement keys of different channels, orders or lines differ |
| StockService.EveryOrderIsReported | apps/worker/src/orderImport.ts:87-136 | every pulled order is counted exactly once as imported, duplicate or failed, and there are no more acknowledgement warnings than imports |
| StockService.StockDatabase.Post | apps/api/src/inventory/pgInventory.ts:45-117 | ledger row, debit, credit in order; the tables end as specified or the error names the failed check |
| StockService.StockDatabase.ReceiveGoods | apps/api/src/inventory/receivingService.ts:39-127 | all lines or none, unit by unit for serialized variants |
| StockService.StockDatabase.DispatchTransfer | apps/api/src/inventory/opsService.ts:157-258 | header and every line, or nothing |
| StockService.StockDatabase.ReceiveTransfer | apps/api/src/inventory/opsService.ts:260-334 | every dispatched unit and quantity lands and the transfer closes, or nothing changes |
| StockService.StockDatabase.SendUnitToRepair | apps/api/src/inventory/unitService.ts:37-75 | movement, then unit state, or nothing |
| StockService.StockDatabase.TakeUnitFromRepair | apps/api/src/inventory/unitService.ts:76-145 | movement, then unit state, or nothing |
| StockService.StockDatabase.ImportOrder | apps/worker/src/orderImport.ts:138-317 | one marketplace order, all or nothing, from the first site that covers every line |
| StockService.StockDatabase.ImportOrders | apps/worker/src/orderImport.ts:87-136 | each order in its own transaction, acknowledged only after it committed |
| StockService.StockDatabase.ExpireOrder | apps/worker/src/reservationJanitor.ts:15-125 | one due order: released and cancelled while pending, otherwise its rows retired without moving stock |
| StockService.StockDatabase.RunJanitor | apps/worker/src/reservationJanitor.ts:15-125 | a batch of due orders, each in its own transaction: only due orders that waited are released, rows of orders not due stay, and within the limit no due order is left |
| StockService.StockDatabase.RequestStockAdjustment | apps/api/src/inventory/opsService.ts:461-558 | records the request for a countable change, or refuses it |
| StockService.StockDatabase.PostStockAdjustment | apps/api/src/inventory/opsService.ts:560-674 | posts what was approved by a second person, once, or refuses |
| DriftCheck.FoldedIsFold | apps/worker/src/driftCheck.ts:26-64 | the grouped sums are the fold of each tenant's own ledger |
| DriftCheck.QuietIffInSync | apps/worker/src/driftCheck.ts:26-64 | nothing is reported exactly when levels and ledger agree at every bucket |
| DriftCheck.AlteredBucketsAreFound | apps/worker/src/driftCheck.ts:26-64 | after levels are altered outside the ledger exactly the altered buckets are reported, with the exact difference |
| DriftCheck.GroupByTenant | apps/worker/src/driftCheck.ts:66-77 | every finding goes to its own tenant's alarm, in order, and to no other |
| DriftCheck.ListedAsFound | apps/worker/src/driftCheck.ts:66-77 | a tenant's list holds each of its findings as often as it was found, and nobody else's |
| DriftCheck.ListedInOrder | apps/worker/src/driftCheck.ts:66-77 | in the order they were found |
| DriftCheck.RunsDoNotDrift | apps/worker/src/driftCheck.ts:26-64 | when every tenant's tables come from a run of the stock services the check reports nothing |
| PaymentRuns.RunIsOk | apps/api/src/payments/paymentService.ts:41-214 | every interleaving of createIntent, the two steps of any number of webhooks, reconcilers and the janitor keeps one live intent per order and all facts below |
| PaymentRuns.PaidOnce | apps/api/src/payments/paymentService.ts:158-214 | `order.paid` is published exactly as often as an intent of the order succeeded, at most once |
| PaymentRuns.DeliveriesAreFinal | apps/api/src/payments/paymentService.ts:110-157 | every recorded delivery belongs to a final intent |
| PaymentRuns.PolledCapturesMatch | apps/worker/src/paymentReconciler.ts:250-360 | what a capture was polled with is the amount and currency of its intent |
| PaymentEffects.ReconciledCapturesMatch | apps/worker/src/paymentReconciler.ts:250-408 | whatever comes between a reconciler's poll and the effect of the handler it made: if that effect captures, the answer polled was a success of exactly the intent's amount and normalised currency |
| PaymentEffects.CaptureIsConfirmed | apps/worker/src/paymentReconciler.ts:312-360 | the reconciler captures only on such an answer |
| PaymentEffects.AnswersWithoutEffect | apps/worker/src/paymentReconciler.ts:250-340 | which answers are left alone and which problem each of the others files, once more and open, without touching a payment |
| PaymentEffects.FailedAnswerSays | apps/worker/src/paymentReconciler.ts:292-314 | a failed payment is carried out as a failure and put on file, whatever comes of it |
| PaymentEffects.ConfirmedAnswerSays | apps/worker/src/paymentReconciler.ts:312-408 | a confirmed payment is carried out as a success; a capture closes all that was on file about the intent, a failed one files that |
| PaymentEffects.RepairKeysDiffer | apps/worker/src/paymentReconciler.ts:362-375 | repairs of different payments or outcomes never share a delivery key of one gateway |
| PaymentRuns.ConfirmedAdvanceIsPaid | apps/api/src/payments/paymentService.ts:187-205 | no cash-on-delivery order is confirmed before its advance is collected |
| PaymentRuns.FinalForever | apps/api/src/payments/paymentService.ts:110-214 | a final intent status never changes over any later interleaving |
| PaymentRuns.ReplayChangesNothing | apps/api/src/payments/paymentService.ts:110-157 | a replayed delivery is a duplicate and changes nothing |
| PaymentRuns.CaptureHappensIff | apps/api/src/payments/paymentService.ts:158-214 | a success for a live intent captures unless the advance would still be unpaid, in which case everything rolls back, the delivery row included |
| PaymentEffects.CaptureSays | apps/api/src/payments/paymentService.ts:158-214 | a capture changes exactly the order's own due gateway rows, and of them only the status; one intent, one order, one delivery and one event besides |
| PaymentEffects.OtherEffectsSay | apps/api/src/payments/paymentService.ts:120-178 | every other outcome: when it occurs and all it changes |
| PaymentEffects.WebhookSays | apps/api/src/payments/paymentService.ts:110-214 | a webhook that captures does so for the intent its gateway reference names |
| PaymentEffects.LookedUpSays | apps/api/src/payments/paymentService.ts:110-135 | a look-up finds that intent or answers that there is none |
| PaymentEffects.AdvanceCounts | apps/api/src/payments/paymentService.ts:187-201 | in the advance counted each row counts by itself: a captured advance of the order with its amount, any other not at all |
| PaymentEffects.OpenedSays | apps/api/src/payments/paymentService.ts:41-108 | an intent opens exactly when its order waits, the charge is positive and within the total, and neither its id, its reference nor another live intent is in the way |
| PaymentEffects.PlacedSays | packages/db/sql/035_cod_gate.sql:140-156 | an order is placed with at most one row, due through the gateway |
| PaymentEffects.CancelSays | apps/worker/src/reservationJanitor.ts:108-120 | the janitor cancels an order exactly while it waits, voiding its due rows and no other |
| PaymentEffects.ScanSays | apps/worker/src/paymentReconciler.ts:226-249 | a scan takes up exactly the live intents among the stale ones, as they stand |
| PaymentRuns.CaptureConfirmsIff | apps/api/src/payments/paymentService.ts:202-205 | a capture confirms the order exactly when the janitor had not cancelled it first |
| PaymentRuns.LateCaptureHappens | apps/api/src/payments/paymentService.ts:202-205 | a run in which `order.paid` is published for a cancelled order |
| PaymentDesk.SummaryAddsUp | apps/worker/src/paymentReconciler.ts:185-208 | every stuck intent has one outcome; `repaired` counts the captures and failures among them and `flagged` exactly those flagged or put on file |
| PaymentDesk.RepairIsIdempotent | apps/worker/src/paymentReconciler.ts:362-408 | reconciling again on the same answer changes no payment state |
| PaymentDesk.PaymentTables.CreateIntent | apps/api/src/payments/paymentService.ts:41-108 | opens an intent under the order lock, or refuses, as specified |
| PaymentDesk.PaymentTables.Capture | apps/api/src/payments/paymentService.ts:158-214 | intent, payment rows, advance, order and event, or a complete rollback |
| PaymentDesk.PaymentTables.ApplyEffect | apps/api/src/payments/paymentService.ts:120-214 | the effect under the intent's lock for whatever it finds there |
| PaymentDesk.PaymentTables.ApplyWebhook | apps/api/src/payments/paymentService.ts:110-214 | look-up in one transaction, effect in the next |
| PaymentDesk.PaymentTables.Reconcile | apps/worker/src/paymentReconciler.ts:250-408 | decides from a polled status and carries the decision out |
| PaymentDesk.PaymentTables.RunReconciler | apps/worker/src/paymentReconciler.ts:185-208 | each stuck intent in turn, with the counters |
| Relay.AtLeastOnce | apps/worker/src/relay.ts:42-91 | over any relays, crashes between publish and commit, publish failures and pruning, every emitted event is still unrelayed or was published, and nothing unpublished is relayed or pruned |
| Relay.HeldByOne | apps/worker/src/relay.ts:42-60 | no row is held by two relays at once |
| Relay.ClaimsTheOldest | apps/worker/src/relay.ts:42-60 | whatever rows other relays hold, a claim takes the first unrelayed rows nobody holds, in table order, up to the batch size |
| Relay.TableIsInOrder | apps/worker/src/relay.ts:42-60 | in every reachable state the rows stand in sequence order, oldest first, and no id twice |
| Relay.MarkedRowByRow | apps/worker/src/relay.ts:62-81 | marking sets the time on exactly the rows published |
| Relay.PrunedIff | apps/worker/src/relay.ts:83-91 | pruning drops exactly the rows relayed before the cutoff |
| Relay.PassDrains | apps/worker/src/relay.ts:42-81 | after any run, one pass of a free relay publishes exactly the oldest waiting rows no other relay holds, in order, and leaves the rest waiting |
| Relay.OutboxRelay.RunOnce | apps/worker/src/relay.ts:42-81 | claim, publish, mark in one transaction; a publisher that throws after taking part of the batch leaves every row unrelayed |
| Notifications.AttemptsMatchTheLog | apps/worker/src/notificationDelivery.ts:87-274 | when sweeps only meet rows of dead workers: attempts equal the attempt rows, never exceed the limit, and an order confirmation has one delivered event exactly when sent |
| Notifications.OneRowPerKey | apps/api/src/notify/notificationService.ts:156-229 | one row per dedupe key over every run, whatever its sweeps meet |
| Notifications.TerminalStays | apps/worker/src/notificationDelivery.ts:131-168 | in a well-kept queue a sent, bounced or cancelled row is not touched by any step |
| Notifications.TerminalForever | apps/worker/src/notificationDelivery.ts:131-168 | nor by any later run whose sweeps only meet rows of dead workers |
| Notifications.OnlyHoldersTouchTerminal | apps/worker/src/notificationDelivery.ts:131-258 | in any queue, such a row is touched only by a worker that still has it on its list and marks it |
| Notifications.HastySweepReopens | apps/worker/src/notificationDelivery.ts:170-258 | a run in which the sweep meets a live worker's row, another worker sends it and the first then marks it failed |
| Notifications.ResendKeepsHistory | apps/api/src/notify/notificationService.ts:337-380 | a resend leaves every existing row as it was and copies the content |
| Notifications.EnqueueIsIdempotent | apps/api/src/notify/notificationService.ts:156-229 | enqueueing a key again answers with the owning row and queues nothing |
| Notifications.SweepCountsNoAttempt | apps/worker/src/notificationDelivery.ts:170-182 | the sweep reclaims a row without counting an attempt |
| Notifications.MarkCountsIff | apps/worker/src/notificationDelivery.ts:184-258 | marking keeps attempts equal to the log exactly when the worker's memory of the row is current |
| NotificationEffects.EnqueueSays | apps/api/src/notify/notificationService.ts:156-229 | a new key is queued as a fresh row with five attempts or as many as asked; a known key changes nothing and names its row |
| NotificationEffects.ResendIff | apps/api/src/notify/notificationService.ts:337-380 | a resend is accepted exactly of a row that neither waits nor is being sent, under a free key and id, and queues its content anew |
| NotificationEffects.CancelIff | apps/api/src/notify/notificationService.ts:382-424 | a row is called off exactly while it waits or has failed |
| NotificationEffects.ClaimIff | apps/worker/src/notificationDelivery.ts:131-168 | a row is taken exactly when it waits or has failed, its time has come and attempts are left |
| NotificationEffects.MarkSays | apps/worker/src/notificationDelivery.ts:184-274 | what marking writes: log line, status, attempts from the worker's memory, the next attempt only after a transient failure, and the event exactly for a delivered confirmation of an order |
| NotificationEffects.SweepSays | apps/worker/src/notificationDelivery.ts:170-182 | exactly the rows sending for longer than the threshold fail over, attempts and times as they were |
| NotificationEffects.StalledAreHowMany | apps/worker/src/notificationDelivery.ts:170-182 | the sweep reports how many rows were sending for longer than the threshold |
| NotificationEffects.BatchMarksEach | apps/worker/src/notificationDelivery.ts:87-129 | a batch marks each row held once, by its own verdict, and no other |
| NotificationEffects.VerdictsAreHowMany | apps/worker/src/notificationDelivery.ts:87-129 | each counter of the report is the number of held rows with that verdict |
| NotificationDesk.NotificationTables.Enqueue | apps/api/src/notify/notificationService.ts:156-229 | insert unless the key is taken, returning the owner |
| NotificationDesk.NotificationTables.Resend | apps/api/src/notify/notificationService.ts:337-380 | a new pending row with the old content, or the refusal |
| NotificationDesk.NotificationTables.Cancel | apps/api/src/notify/notificationService.ts:382-424 | a pending or failed row is cancelled, any other is refused |
| NotificationDesk.NotificationTables.ReclaimStalled | apps/worker/src/notificationDelivery.ts:170-182 | stale sending rows become failed and due again, others stay |
| NotificationDesk.NotificationTables.ClaimBatch | apps/worker/src/notificationDelivery.ts:131-168 | the due rows become sending, each counted |
| NotificationDesk.NotificationTables.MarkOutcome | apps/worker/src/notificationDelivery.ts:184-274 | log line, row and, for a confirmation, its event together |
| NotificationDesk.NotificationTables.RunOnce | apps/worker/src/notificationDelivery.ts:87-129 | one batch: every claimed row is counted once, by its verdict, as sent, failed or bounced |
| Audit.StableIffSameMeaning | apps/api/src/audit/auditService.ts:32-41 | two values have the same stable form exactly when they differ only in key order, at any depth |
| Audit.RecordingVerifies | apps/api/src/audit/auditService.ts:52-128 | every table built from the empty one by any sequence of recordings verifies, even when the stored objects come back with keys reordered at any depth |
| Audit.HashesDiffer | apps/api/src/audit/auditService.ts:52-74 | no two rows of a verified table have the same hash |
| Audit.SameTipSameHistory | apps/api/src/audit/auditService.ts:95-128 | two verified tables ending in the same hash have the same length and the same canonical entries |
| Audit.EditIsCaught | apps/api/src/audit/auditService.ts:95-128 | editing the content of any row while keeping the last hash is rejected |
| Audit.ReorderIsCaught | apps/api/src/audit/auditService.ts:95-128 | any other order of the rows of a verified table is rejected, wherever its last row went |
| Audit.RemovalIsCaughtIff | apps/api/src/audit/auditService.ts:95-128 | removing a stretch of rows is rejected if and only if it is not a suffix |
| Audit.VerifiedIff | apps/api/src/audit/auditService.ts:95-128 | the chain verifies exactly when every row names the hash of the row before it and its own hash covers that and its entry |
| Audit.AuditLog.Record | apps/api/src/audit/auditService.ts:52-74 | appends one row whose hash covers the previous hash and the entry |
| Audit.AuditLog.VerifyChain | apps/api/src/audit/auditService.ts:95-128 | valid exactly when every row follows, otherwise the first that does not |
| Funnel.CountsIffWalks | apps/api/src/analytics/eventService.ts:244-302 | a key counts at step n exactly when some strictly increasing choice of its events matches steps 0..n |
| Funnel.GreedyIsComplete | apps/api/src/analytics/eventService.ts:244-302 | wherever some choice gets, the chained minimum gets at least as early |
| Funnel.GreedyIsSound | apps/api/src/analytics/eventService.ts:244-302 | where the chain gets, a choice ends at exactly that event |
| Funnel.FunnelCountsFollowers | apps/api/src/analytics/eventService.ts:244-302 | the keys a funnel counts at a step are exactly those with a strictly increasing choice of stored events of its window, under its kind of correlation id, that match the steps so far |
| Funnel.CountedKeys | apps/api/src/analytics/eventService.ts:244-302 | over the selected rows, the keys counted are exactly those for which a choice exists |
| Funnel.CountsNeverIncrease | apps/api/src/analytics/eventService.ts:244-302 | counts never increase from step to step |
| Funnel.ReplayChangesNothingIff | apps/api/src/analytics/eventService.ts:163-207 | replaying a recorded batch is accepted, and changes nothing exactly when no event of it draws a new id |
| Funnel.RecordingRises | apps/api/src/analytics/eventService.ts:163-195 | recording keeps sequence numbers rising |
| Funnel.RecordedIff | apps/api/src/analytics/eventService.ts:163-207 | a batch is recorded exactly when each event has a known name and a correlation id; otherwise the first that has not decides the error |
| Funnel.RecordedRows | apps/api/src/analytics/eventService.ts:163-195 | every row a batch adds is one of its events, with its own id and time where it brought them and the drawn id and the current time where not |
| Funnel.EventService.RecordMany | apps/api/src/analytics/eventService.ts:201-207 | a batch is recorded all or none; known ids are skipped |
| Funnel.EventService.StepTable | apps/api/src/analytics/eventService.ts:244-302 | the least matching sequence number per key in one scan |
| Funnel.EventService.CountFunnel | apps/api/src/analytics/eventService.ts:244-302 | the number of keys at each step over the stored events of the window |
| Funnel.EventService.SelectBase | apps/api/src/analytics/eventService.ts:273-278 | the events of the window that have the correlation id asked for |
| RateLimit.TokensAreConserved | packages/connector-sdk/src/rateLimiter.ts:55-91 | what is left plus what was granted is at most what was there plus what time brought, whatever the clock does |
| RateLimit.GrantsAreBounded | packages/connector-sdk/src/rateLimiter.ts:55-91 | over any calls the grants are at most capacity plus rate times elapsed time |
| RateLimit.EveryStretchIsBounded | packages/connector-sdk/src/rateLimiter.ts:55-91 | and over every stretch of every run, measured from its own first reading: idle time before it earns nothing beyond the capacity |
| RateLimit.WokenIff | packages/connector-sdk/src/rateLimiter.ts:66-80 | a sole caller finds its tokens after a sleep exactly when the clock reached the ready time |
| RateLimit.OneSleepSufficesIff | packages/connector-sdk/src/rateLimiter.ts:66-80 | every sleep of at least the requested length suffices exactly when the clock reads, before the call, behind the last refill by no more than the rounding of the sleep |
| RateLimit.OneSleepSuffices | packages/connector-sdk/src/rateLimiter.ts:66-80 | so it always does when the clock had not stepped back behind the last refill |
| RateLimit.SteppedBackClockSleepsAgain | packages/connector-sdk/src/rateLimiter.ts:66-80 | a bucket and clock for which it does not |
| RateLimit.TokenBucket.TryAcquire | packages/connector-sdk/src/rateLimiter.ts:55-64 | refill, then grant exactly when the tokens cover the cost |
| RateLimit.TokenBucket.Acquire | packages/connector-sdk/src/rateLimiter.ts:66-80 | waits and retries, counting its sleeps |
| RateLimit.AtMostTheLimitPerWindow | apps/api/src/observability/rateLimit.ts:58-88 | when no reading lies behind the start of the window it meets, at most `limit` requests of a key pass in one window |
| RateLimit.AtMostTwiceTheLimit | apps/api/src/observability/rateLimit.ts:58-88 | and at most twice `limit` in any sixty seconds wherever they begin |
| RateLimit.InTimeIsInWindows | apps/api/src/observability/rateLimit.ts:58-88 | a clock that does not step back gives only such readings |
| RateLimit.SteppedBackWindowsAdmitMore | apps/api/src/observability/rateLimit.ts:58-88 | with readings behind their window five requests of limit two pass within a minute |
| RateLimit.FixedWindowLimiter.Request | apps/api/src/observability/rateLimit.ts:58-88 | lets through or refuses and touches no other key |
| Base32.DecodingUndoesEncoding | apps/api/src/auth/totp.ts:9-25 | decoding the RFC 4648 section 6 encoding gives back every byte string |
| Base32.LowBits | apps/api/src/auth/totp.ts:11-25 | only the low bits of the never-masked 32-bit accumulator are ever used |
| Base32.Base32Encode | apps/api/src/auth/totp.ts:11-25 | the shift-and-mask loop produces exactly the bit-string definition, unpadded |
| Xml.FivePassesAreOne | apps/api/src/einvoice/generator.ts:244-251 | the five ordered replacements equal one per-character map |
| Xml.DecodingUndoesEscaping | apps/api/src/einvoice/generator.ts:244-251 | entity decoding undoes escaping for every text |
| Xml.EscapedIsPlain | apps/api/src/einvoice/generator.ts:244-251 | escaped text holds no angle bracket and no quote |
| Smtp.SplitOfJoin | apps/api/src/notify/smtpTransport.ts:489-493 | splitting at line breaks undoes joining |
| Smtp.MessageArrives | apps/api/src/notify/smtpTransport.ts:489-493 | a receiver following RFC 5321 section 4.5.2 recovers every message text exactly |
| Smtp.NoLoneDot | apps/api/src/notify/smtpTransport.ts:489-493 | no transmitted line of the message is the lone dot |
| Smtp.OnlyDotsAreStuffed | apps/api/src/notify/smtpTransport.ts:489-493 | the text is sent line for line, and exactly the lines that begin with a dot get one more |
| Smtp.Stuff | apps/api/src/notify/smtpTransport.ts:489-493 | no line of the stuffed text is the lone dot, and a receiver of it and the terminator recovers the raw text exactly |
| Smtp.Base64Lines | apps/api/src/notify/smtpTransport.ts:216-221 | lines of at most 76 that read back as the same text |
| Smtp.ReplyIsStable | apps/api/src/notify/smtpTransport.ts:343-360 | a reply that can be read is the same however later bytes are cut |
| Smtp.EndsReplyIff | apps/api/src/notify/smtpTransport.ts:343-360 | a line ends a reply exactly when it is a three-digit code, alone or before a space and any text |
| Smtp.ChunksDoNotMatter | apps/api/src/notify/smtpTransport.ts:343-360 | cutting a chunk anywhere changes neither the answer taken nor what is left |
| Smtp.ChunksAddUp | apps/api/src/notify/smtpTransport.ts:343-360 | while no reply is complete, two chunks are read as one |
| Smtp.NoReplyIsLostIff | apps/api/src/notify/smtpTransport.ts:343-367 | over any interleaving of reads and chunks the replies handed over and those still in the buffer are exactly the replies of the byte stream, if and only if no reply completes while no command waits |
| Smtp.CoalescedReplyStays | apps/api/src/notify/smtpTransport.ts:343-360 | of two replies in one chunk the second stays in the buffer although a command waits for it |
| Smtp.SmtpSession.Receive | apps/api/src/notify/smtpTransport.ts:343-360 | the scan of the buffer for the line that ends a reply |
| DecimalMoney.TruncationRounds | packages/connector-salla/src/mapping.ts:109-133 | looking at the third digit is rounding the exact value half-up to two places |
| DecimalMoney.ParsersAgree | packages/connector-zid/src/mapping.ts:94-116 | on every text of the form sign, digits, optional point and digits, both parsers give the half-up rounded exact magnitude with the sign |
| DecimalMoney.MalformedIsNothing | packages/connector-salla/src/mapping.ts:109-133 | Salla's parser reads only such a text as something; anything else is nothing |
| DecimalMoney.ParsersUndoFils | apps/api/src/einvoice/generator.ts:219-229 | both parsers undo `filsToDecimal` for every integer |
| DecimalMoney.ZidUndoesFormatted | apps/api/src/notify/templates.ts:168-197 | the Zid parser undoes the grouped text with its currency code for two-decimal currencies |
| DecimalMoney.FormattedSays | apps/api/src/notify/templates.ts:168-197 | an amount in any currency is printed with its sign, its code, and its digits cut where the places of that currency begin |
| DecimalMoney.GroupedInThrees | apps/api/src/notify/templates.ts:168-197 | up to three digits stand as they are; of more, the last three follow a comma and the rest is grouped the same way |
| DecimalMoney.AdminRoundTrip | apps/admin/src/lib/money.ts:36-50 | reading undoes printing for non-negative amounts of up to thirteen whole digits, and every other amount is refused |
| DecimalMoney.PrintersAgree | apps/admin/src/lib/money.ts:44-50 | the admin printer and `filsToDecimal` print the same text |
| Rounding.HalfUpNear | packages/domain/src/tax.ts:159-165 | the rounded value is within half a unit of the fraction, reaching the half only from above |
| Rounding.HalfUpUnique | packages/domain/src/tax.ts:159-165 | no other integer is |
| Rounding.SharesDrift | apps/api/src/einvoice/creditNoteService.ts:157-165 | splitting a whole into k parts and rounding each drifts by at most k/2 in total |
| Rounding.SharesWithin | apps/api/src/einvoice/creditNoteService.ts:157-165 | k parts that fit into the whole exceed it by at most k/2 when rounded one by one |
| Rounding.DriftIsReached | apps/api/src/einvoice/creditNoteService.ts:157-165 | for every even k some split drifts by exactly k/2, so no better bound holds |
| Tax.VatIsNearest | packages/domain/src/tax.ts:159-165 | the VAT extracted is the nearest integer to gross × rate ÷ (1 + rate), never negative and never above the gross |
| Tax.InclusiveIsNearest | packages/domain/src/tax.ts:167-178 | the line amount is price times quantity to the nearest unit, exactly so for whole quantities, less the discount |
| Tax.LineRefusalSays | packages/domain/src/tax.ts:167-187 | which line is refused and with which error, and what any other line adds up to |
| Tax.VatIsTheTaxOnTheNet | packages/domain/src/tax.ts:154-165 | the rate applied to the remaining net comes back to the extracted VAT within rounding |
| Tax.ReverseChargedIff | packages/domain/src/reverseCharge.ts:229-302 | a line is reverse-charged exactly when the sale meets all its conditions and the line is a taxable device; exempt lines are E and zero-rated ones Z either way, and only category S carries a rate |
| Tax.ResolvedIff | packages/domain/src/reverseCharge.ts:244-302 | only a rate outside nothing to the whole is refused |
| Tax.KindIff | packages/domain/src/reverseCharge.ts:268-305 | `reverse_charge` exactly when there are lines and all are AE, `mixed` exactly when some but not all are, and the statement exactly when any is |
| Tax.RefusalIsExplained | packages/domain/src/reverseCharge.ts:268-292 | a reason is given exactly when reverse charge was requested and the sale stayed standard |
| Tax.FirstUnmetIsReported | packages/domain/src/reverseCharge.ts:229-242 | the reason is the first unmet condition in the source order |
| Tax.StandardIsLineTotals | packages/domain/src/reverseCharge.ts:326-362 | a standard line prices as `lineTotals` does, errors included |
| Tax.ReverseChargePaysTheNet | packages/domain/src/reverseCharge.ts:326-362 | a reverse-charged line costs exactly the net of the standard line and carries no tax |
| Tax.UntaxedLineSays | packages/domain/src/reverseCharge.ts:326-362 | a line without VAT is refused as a standard one would be, whatever the rate, and otherwise costs its gross |
| Tax.TotalVatIsNear | packages/domain/src/tax.ts:182-187 | total VAT is within half a minor unit per standard line of the exact VAT |
| Tax.SaleAddsUp | apps/api/src/sales/salesService.ts:263-295 | for any basket: net plus tax is gross on every line and on the sale, tax only where the category carries it, and the total VAT within half a unit per standard line |
| Tax.ReverseChargedSaleHasNoTax | packages/domain/src/reverseCharge.ts:326-362 | a sale of kind `reverse_charge` carries no VAT |
| EInvoice.BuiltIsSoundIff | apps/api/src/einvoice/generator.ts:309-475 | building fails only on a negative rate or a quantity not above zero, and the built model has no arithmetic error exactly when the receipt lines add up to its totals |
| EInvoice.BuildRefusalSays | apps/api/src/einvoice/generator.ts:281-345 | a negative rate is reported first, then a line whose quantity is not above zero |
| EInvoice.IdentityFaultsIff | apps/api/src/einvoice/generator.ts:432-490 | the currency is reported exactly unless it is three capital letters, and a registration number exactly when given and not fifteen digits |
| EInvoice.SaleInvoiceIsSound | apps/api/src/einvoice/generator.ts:440-490 | the receipt of any priced sale builds without an arithmetic error; what errors remain are the currency and the registration numbers |
| EInvoice.PrintedInvoiceAddsUp | apps/api/src/einvoice/generator.ts:345-430 | read back from the printed decimals, net plus tax is the inclusive and payable amount, and the columns add up exactly when the receipt does |
| EInvoice.UnitNetIsNear | apps/api/src/einvoice/generator.ts:281-287 | unit net times quantity is within half a unit per item of the line net, on both branches |
| CreditNotes.WholeCreditIsExact | apps/api/src/einvoice/creditNoteService.ts:131-182 | crediting the whole invoice gives its exact total and VAT and is refused exactly when its lines exceed the head total |
| CreditNotes.ShareIsSound | apps/api/src/einvoice/creditNoteService.ts:144-172 | credited tax never exceeds the credited total, nor either the invoiced line |
| CreditNotes.SoundDraftCommits | apps/api/src/einvoice/creditNoteService.ts:113-243 | on a sound invoice a draft always commits under the next number and stays within the invoice total |
| CreditNotes.IssuedIff | apps/api/src/einvoice/creditNoteService.ts:113-243 | a note on a sound invoice commits exactly when the invoice has lines, every line asked for is on it within its quantity, their shares stay within its total and the caller commits; otherwise nothing changes |
| CreditNotes.FindLineIff | apps/api/src/einvoice/creditNoteService.ts:137-155 | a line asked for is found exactly when the invoice has one with its id |
| CreditNotes.RefusalSays | packages/db/sql/034_credit_notes.sql:70-137 | on any invoice, sound or not: which error a note gets, an insert failing a table check exactly when a total or tax is negative or a line carries tax at a rate that is not positive |
| CreditNotes.CreditedIff | apps/api/src/einvoice/creditNoteService.ts:131-172 | each line credited is the line asked for in the quantity asked for, and a refusal names a line that is missing or asked for too much or for nothing |
| CreditNotes.CommittedAreShares | apps/api/src/einvoice/creditNoteService.ts:144-172 | in every reachable state every committed line is the rounded share of its invoice line |
| CreditNotes.CreditsDrift | apps/api/src/einvoice/creditNoteService.ts:144-172 | once k committed credits of a line add up to its quantity, total and VAT are each within k/2 of the invoiced ones |
| CreditNotes.RunIsGapless | apps/api/src/einvoice/creditNoteService.ts:184-192 | committed notes are numbered 1..n in order, whatever failed or rolled back in between |
| CreditNotes.HeadsTotalTheirLines | apps/api/src/einvoice/creditNoteService.ts:174-235 | in every reachable state each committed note is the sum of its own lines in total and VAT, is within its invoice total and copies its tax treatment |
| CreditNotes.NoteNumbersDiffer | apps/api/src/einvoice/creditNoteService.ts:184-192 | no two committed notes print the same number |
| CreditNotes.NumberReads | apps/api/src/einvoice/creditNoteService.ts:184-192 | a number reads CN-, then at least six digits, zero-padded, that denote it |
| CreditNotes.NotesStayWithin | apps/api/src/einvoice/creditNoteService.ts:113-243 | over every run: while the committed credits of each line fit into its quantity, their total and VAT exceed the invoice by at most half a unit per committed line |
| CreditNotes.WholeNotesExceedIff | apps/api/src/einvoice/creditNoteService.ts:177-182 | over every run of notes that each credit a whole invoice, they exceed it together exactly when there are two of them and its total is positive |
| CreditNotes.WholeNotesAdd | apps/api/src/einvoice/creditNoteService.ts:131-182 | over such a run every line is credited as often as there are notes, in quantity, total and VAT, and so is the invoice as a whole |
| CreditNotes.TogetherTheyMayExceed | apps/api/src/einvoice/creditNoteService.ts:177-182 | two notes that each pass the check and together exceed the invoice |
| CreditNotes.CreditNoteTables.InsertRows | apps/api/src/einvoice/creditNoteService.ts:218-235 | note lines are inserted one by one until a row check fails |
| CreditNotes.CreditNoteTables.Issue | apps/api/src/einvoice/creditNoteService.ts:113-243 | counter, head and lines are written, or everything including the counter is put back |
| Journal.TrialBalanceNetsToZero | apps/api/src/finance/financeService.ts:289-325 | in every reachable state entries balance, use core accounts and have distinct sources, and over any chart of accounts that lists the core ones once the trial balance totals are equal |
| Journal.RowsTotalTheLines | apps/api/src/finance/financeService.ts:289-325 | per-account rows add up to the totals over all lines |
| Journal.PostingAgainReturnsTheEntry | apps/api/src/finance/financeService.ts:214-221 | re-posting a source at any later time changes nothing and returns the same entry, whatever its order or refund then holds, as long as that can still be posted |
| Journal.SaleCommitsIff | apps/api/src/finance/financeService.ts:131-213 | a first posting commits exactly when some payment is positive, payments add up to the total, tax is within it and the cost is not negative |
| Journal.SaleRefusalSays | apps/api/src/finance/financeService.ts:131-213 | why a first posting is refused: no order, no positive payment, an amount out of range, payments that do not add up, in this order |
| Journal.SaleEntrySays | apps/api/src/finance/financeService.ts:163-204 | tender accounts receive what was paid into them, revenue the net, VAT the tax, and cost moves from inventory to expense |
| Journal.OneDebitPerAccount | apps/api/src/finance/financeService.ts:163-190 | an account that was paid into has one line with all that was paid into it, and no other has one |
| Journal.RefundCommitsIff | apps/api/src/finance/financeService.ts:223-281 | a refund entry never fails to balance and commits exactly when processed with its VAT portion in range |
| Journal.RefundRefusalSays | apps/api/src/finance/financeService.ts:223-281 | why a first refund posting is refused |
| Journal.RefundSums | apps/api/src/finance/financeService.ts:261-281 | what a refund entry does to every account: refunds take the net, VAT the portion, and the tender account pays the amount |
| Journal.PortionIsNearest | apps/api/src/finance/financeService.ts:261-265 | the portion is the share of the order's tax to the nearest unit, nothing for an order of nothing |
| Journal.PortionInRange | apps/api/src/finance/financeService.ts:261-265 | for an order whose tax is within its total the portion always is |
| Journal.FullRefundCancelsTheSale | apps/api/src/finance/financeService.ts:261-271 | a full refund takes back exactly the sale's VAT and leaves nothing of revenue and refunds |
| Journal.RefundsDrift | apps/api/src/finance/financeService.ts:261-271 | posting k refunds that add up to the order moves the VAT account back to within k/2 of its tax |
| Journal.FinanceTables.AggregatePayments | apps/api/src/finance/financeService.ts:163-174 | positive payments added up per account in order of first appearance |
| Journal.FinanceTables.InsertEntry | apps/api/src/finance/financeService.ts:366-412 | existing entry, row check failure, unbalanced rollback or the committed entry |
| Journal.FinanceTables.PostSale | apps/api/src/finance/financeService.ts:131-221 | the journal afterwards and the entry or error, for any order row and payments |
| Journal.FinanceTables.PostRefund | apps/api/src/finance/financeService.ts:223-286 | likewise for a refund row |
| Journal.FinanceTables.TrialBalance | apps/api/src/finance/financeService.ts:289-325 | every account with the debits and credits of its lines, in order; the net is zero for a well-formed journal |
| GiftCards.RunKeeps | apps/api/src/crm/giftCardService.ts:58-219 | over every run each balance is the sum of its log and not negative, a card is active exactly when its balance is positive, and no order is redeemed twice on a card |
| GiftCards.NeverOverspent | apps/api/src/crm/giftCardService.ts:138-186 | a card never pays for more than it was issued with |
| GiftCards.RedeemedOncePerOrder | apps/api/src/crm/giftCardService.ts:138-186 | once a redemption committed, replaying it later with any amount, on any day and whatever became of the card returns the first amount and changes nothing |
| GiftCards.IssuedSays | apps/api/src/crm/giftCardService.ts:58-84 | a card is issued exactly for a positive amount under an unused id and code, active with that balance |
| GiftCards.RedeemRefusalSays | apps/api/src/crm/giftCardService.ts:138-147 | an amount not positive and an unknown code are refused as such; a refusal changes nothing |
| GiftCards.RedeemedSays | apps/api/src/crm/giftCardService.ts:138-186 | a first redemption is paid exactly by an active card that did not expire before today and holds the amount; it takes exactly that amount and depletes the card at zero |
| GiftCards.CancelSays | apps/api/src/crm/giftCardService.ts:189-219 | only an active card is cancelled, and exactly what it held leaves through the log |
| GiftCards.UnknownIsNotCancelled | apps/api/src/crm/giftCardService.ts:195-200 | an unknown card is reported as such |
| WalletLog.PriorIff | apps/api/src/crm/giftCardService.ts:233-245 | an earlier redemption is found exactly when the log has one of this wallet for this order |
| GiftCards.GiftCardTables.Issue | apps/api/src/crm/giftCardService.ts:58-87 | card and issue row together |
| GiftCards.GiftCardTables.RedeemWith | apps/api/src/crm/giftCardService.ts:138-186 | prior redemption first, then status, expiry and balance; undone when the sale rolls back |
| GiftCards.GiftCardTables.Cancel | apps/api/src/crm/giftCardService.ts:189-219 | only an active card, its remainder leaving through the log |
| StoreCredit.RunKeeps | apps/api/src/crm/storeCreditService.ts:45-147 | under every interleaving of look-ups and redemptions each balance is the sum of its log, none is negative and no order is redeemed twice |
| StoreCredit.RedeemedOncePerOrder | apps/api/src/crm/storeCreditService.ts:96-147 | once redeemed, an order never debits again: a look-up that sees it returns its amount, one that does not is refused, and neither changes anything |
| StoreCredit.IssuedSays | apps/api/src/crm/storeCreditService.ts:45-89 | credit is issued exactly for a positive amount to a known customer and adds it to that balance only |
| StoreCredit.RedeemedSays | apps/api/src/crm/storeCreditService.ts:96-147 | a redemption whose look-up saw none pays exactly the amount if the balance covers it and none has committed since; otherwise it says which of the two failed |
| StoreCredit.StoreCreditTables.Issue | apps/api/src/crm/storeCreditService.ts:45-89 | account upsert and log row |
| StoreCredit.NeverOverdrawn | apps/api/src/crm/storeCreditService.ts:45-147 | from an empty log on, a balance is the sum of its log and never below zero |
| StoreCredit.StoreCreditTables.LookUp | apps/api/src/crm/storeCreditService.ts:107-125 | nothing when no redemption for the order has committed, otherwise what one of them took |
| StoreCredit.StoreCreditTables.RedeemAfter | apps/api/src/crm/storeCreditService.ts:107-147 | the locked part, possibly after other transactions committed; the unique key undoes a second debit |
| Loyalty.RunKeeps | apps/api/src/crm/loyaltyService.ts:22-118 | over every run, whatever the tenant's settings at each call, points are the sum of the log, not negative, and an order has one redemption and one accrual at most |
| Loyalty.NeverOverdrawn | apps/api/src/crm/loyaltyService.ts:57-118 | from an empty log on, points are the sum of the log and never below zero |
| Loyalty.OnceForAnOrder | apps/api/src/crm/loyaltyService.ts:57-118 | after a committed redemption or accrual a second one for the order has no effect: the accrual earns nothing, the redemption fails |
| Loyalty.PointsCoverTheAmount | apps/api/src/crm/loyaltyService.ts:57-66 | points taken are worth the amount and less than one point more |
| Loyalty.EarnedIsWhole | apps/api/src/crm/loyaltyService.ts:95-108 | points earned are all the whole shares of the eligible spend |
| Loyalty.ConfigSays | apps/api/src/crm/loyaltyService.ts:24-36 | positive whole settings are used, otherwise the defaults |
| Loyalty.RedeemedSays | apps/api/src/crm/loyaltyService.ts:57-89 | the points taken are the least that are worth the amount; refused exactly for an unknown customer, too few points, no points, or an order redeemed before |
| Loyalty.AccruedSays | apps/api/src/crm/loyaltyService.ts:95-118 | an accrual earns all whole points of the spend once for an order, and below one point does nothing |
| Loyalty.LoyaltyTables.RedeemWith | apps/api/src/crm/loyaltyService.ts:57-89 | balance check, log row under its keys, and points, or nothing |
| Loyalty.LoyaltyTables.AccrueWith | apps/api/src/crm/loyaltyService.ts:95-118 | nothing below a point or for an order already accrued, otherwise log row and points |

## Left out

- JavaScript numbers: money and quantities are unbounded integers and shares exact fractions rounded half-up; the safe-integer limits and the rounding of a floating-point share are not modelled.
- The raw movement route, point-of-sale sales and refunds against the database, fulfilment, warehouse bins, cycle counts, cash sessions on the server and purchase orders: the step set of `StockRuns` is receipts, dispatches, transfer receipts, repairs, web checkouts, marketplace imports, payments, releases and two-person adjustments.
- `receiveAgainstPo`: its two transactions have no clean invariant under concurrency.
- The warranty dates, notes and outbox rows of stock operations, and the credit note's outbox row.
- PosConvergence.EverySyncConvergesIff: one append and one settled answer are each one step, so two appends that interleave inside themselves and a crash between marking a command and discarding it are not modelled; the feed a sync pulls is the server's at that moment, and rows that arrive meanwhile are the next pages' (`PosConvergence.EveryRebuildConvergesIff`).
- PosConvergence.PullKeepsInStep: page sizes are those the server honours, 1 to 500 (`apps/api/src/pgApp.ts:2350-2354`); a larger limit would end a pull early on a full page.
- PosConvergence.NoSaleIsLost: assumes the server posts the lines of what it acknowledges, and that its feed only grows.
- Relay.AtLeastOnce: publishing the same event twice is allowed, as the program allows it; consumers are not modelled.
- Notifications.AttemptsMatchTheLog: assumes the sweep only meets rows of dead workers, which the stall threshold is meant to ensure; `Notifications.MarkCountsIff` says what happens otherwise.
- Notifications.TerminalForever: under the same assumption, like the well-kept queue of `Notifications.TerminalStays`; `Notifications.OnlyHoldersTouchTerminal` and `Notifications.HastySweepReopens` say what happens otherwise.
- NotificationDesk.NotificationTables.ClaimBatch: the rows the due query returns are an argument; its order and limit are not modelled, and rows on it that are not due are not claimed.
- Audit.HashesDiffer: the hash is a free constructor, so it is injective by construction; JSON numbers are integers, and the special ordering of integer-like object keys is not modelled.
- RateLimit.AtMostTwiceTheLimit: for readings that do not lie behind the window they meet, like `RateLimit.AtMostTheLimitPerWindow`; `RateLimit.SteppedBackWindowsAdmitMore` shows what others admit.
- RateLimit.OneSleepSuffices: for a sole caller; several callers sharing a bucket may each sleep more than once.
- Janitor.RanSays: the batch is the first due orders in table order, where the program leaves the choice to the database.
- Payments: the gateway name and reference written on a captured row, gateway calls, signatures and refunds; the reconciler's gateway answers are arbitrary inputs.
- Database indexes let one unit's first identifier equal another unit's second; `StockModel` keeps the same two separate keys and nothing more.
- `DecimalMoney`: currency codes are upper-cased for ASCII letters, and trimming removes space, tab, carriage return and line feed only; numeric (not textual) marketplace amounts are not modelled.
- `Funnel`: the argument checks, labels and ratios of a funnel, and the raw event counters; props are flat texts.
- `EInvoice`: party names, dates, emirate attribution and its warnings, the rate and quantity texts, and the UBL rendering.
- `CreditNotes`: buyer fields and emirate copied from the invoice; invoice rows are taken not to change after sale.
- `Journal`: entry numbers (an identity column that may skip), memos and dates, the cost query (its result is an input) and the profit and loss report.
- `GiftCards`: random code generation, and the branch for a lost race that the row lock rules out; `StoreCredit`: currency and reason texts; manual `adjust` rows of all three wallets, which nothing in these services writes.
- Row-level security, roles, sessions, passwords, multi-factor checks, TLS, sockets and job queues.
- Forecasting, the cash-on-delivery gate's scoring, retries, pricing tiers, connector chunking, user interfaces, routing schemas and translations.
