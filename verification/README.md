# Kreav settlement: a verified model

Kreav sells digital products. A buyer pays, and a Soroban contract splits the price on chain:
5% stays with the platform, the rest goes to the product's collaborators by basis points. The
backend drives the contract, records the outcome in PostgreSQL and ships the goods. The chain
and the database must agree although handlers interleave, calls are repeated, answers get lost,
transactions confirm late and processes crash.

This project models that system in Dafny and proves what it guarantees. `dafny verify
dfyconfig.toml` checks everything. It never executes the repository's code.

## Files

| file | contents |
|---|---|
| `Split.dfy` | the 95/5-then-shares arithmetic: conservation, rounding bounds, order stability, cent prices |
| `Ledger.dfy` | the token: SEP-41 `transfer`, trustlines, supply |
| `Contract.dfy`, `SettlementContract.dfy` | the contract as functions, and as a class with its loops, storage and rollback |
| `Payouts.dfy`, `SettlementLaws.dfy` | when `settle` succeeds, what it does, and what the event log accounts for over whole runs |
| `Mirrors.dfy` | the service's, the helpers' and the dashboard's copies of the split, against the contract |
| `ProductGate.dfy` | the off-chain checks of a collaborator list, against the contract's |
| `OrderStates.dfy` | the transition table and the length of the histories it allows |
| `Protocol.dfy` | the whole system as a state machine: chain, database, event bus, and every handler's position |
| `Safety.dfy`, `Guarantees.dfy` | what holds in every reachable state, under every interleaving |
| `Serial.dfy` | legal status histories when one activity at a time works on an order, and the exact condition |
| `Failures.dfy` | where illegal status writes come from: the statements whose failure leads to them |
| `Hashes.dfy`, `Races.dfy` | which orders have a transaction hash in serial runs, and a race that leads recovery to one in settlement |
| `NoLoss.dfy` | agreement of database and chain about every order that loses nothing itself |
| `References.dfy` | how often the webhook can claim and announce one payment reference |
| `Incidents.dfy`, `Duplicates.dfy` | runs that show where the guarantees stop: a paid order left SETTLEMENT_FAILED, SETTLED overwritten, a reference announced twice |
| `Backend.dfy`, `Handlers.dfy`, `Recovery.dfy`, `Storefront.dfy` | the backend's methods statement by statement, each proved to be a run of the state machine |
| `WalletHistory.dfy` | the bounded two-source merge of the wallet history |
| `Usdc.dfy` | the USDC printer and parser, and the dashboard's price parser |

## How the protocol is modelled

A `State` holds the chain, the submitted transactions, orders, Settlement rows, products, the
in-process event bus, and each running handler with the statement it is about to execute. One
step is one database statement, one remote call or one emission of one handler, or a move of the
environment: a transaction is included, a collaborator list is edited, a token holder moves
money, the process crashes. `Decide` is the handlers' code; `Step` is total, and an action that
is not possible changes nothing, so a theorem about all action sequences is a theorem about all
interleavings.

The environment answers each remote call. Positive answers are true: a marker reported set is
set, a transaction reported confirmed or failed is. A marker or a transaction may be reported
absent at any time, and any call may fail. A submission may be accepted although its answer is
lost. A crash drops the event bus and every running handler. Only the backend holds the platform
key. The `payment.received` and `settlement.completed` events sit on the bus until a listener
takes them.

The imperative files rebuild the backend on a `World` object that holds the state. Before each
statement of a handler, `World.Await` lets the other activities take arbitrary steps, as the
script of the world says, and then takes the environment's answer. A handler passes the write it
makes, and the verifier checks that the state machine makes the same one at that point; so each
method is a refinement of the machine, and its postcondition adds how it leaves its order when no
other activity concerns that order (`pinned`) and the database answers (`reliable`). The world
also records the run it went through, and so everything each handler was told (`World.Told`): a
sequence of lines, each a statement, its answer and the state it saw. Every method hands on the
lines it added (`told`), and where a postcondition depends on what a handler read or was
answered, it is stated of these lines: an order is failed if and only if one of them refuses it,
nothing is submitted if one of them is a yes of `is_settled`, a submission follows lines that
show every check, and the fate recovery reports for an order follows from the answers about it.

Two fields of a modelled row, `direct` and `author`, are history that the database does not
store; no step reads them.

## Where the code and its comments differ

The model follows the code.

- `backend/src/orders/order-state-machine.ts` says any non-terminal status may become CANCELLED;
  the table allows it for every one of them except SETTLED (`OrderStates.CancellableUnlessSettled`).
- `handlePaymentReceived` says a duplicate submission fails with `OrderAlreadySettled` and ends
  SETTLEMENT_FAILED; the code probes `is_settled` first and restores the records
  (`Handlers.RecoverAlreadySettled`).
- The float check is there to stop a settlement that would fail. When the write that marks the
  order failed throws, the check's own error handler only warns, and the settlement is submitted
  all the same (`Handlers.FailOrSettle`).
- The recovery service says a SETTLEMENT_PENDING order without a hash is emitted again; the code
  asks `is_settled` and restores the records or marks the order failed (`Recovery.RecoverUnhashed`).
- The recovery service is mostly about orders with a transaction hash. While one activity at a
  time works on an order, an order that waits for settlement never has one
  (`Hashes.HashesComeWithOutcomes`); it takes a race (`Races.RecoveryByHash`).
- SETTLEMENT_FAILED does not mean that no money moved. An attempt whose answer was lost may
  confirm while its retry fails (`Incidents.FailedThoughPaid` is such a run of every shop that can
  sell, and `Incidents.SomeDeployment` is such a shop). An order whose status
  and marker disagree has always lost something itself: the process crashed while the order was
  SETTLEMENT_PENDING, the answer to its submission or the outcome of its transaction was lost, or
  one of four database statements about it failed (`NoLoss.DisagreementMeansLoss`).
- Not every status write respects the transition table. A handler that gives up writes
  SETTLEMENT_FAILED without looking at the status, so a failing read on a repeated event
  overwrites SETTLED (`Incidents.ErrorOverwritesSettled`). A status history is legal if and only
  if that write never meets an order that is neither SETTLEMENT_PENDING nor SETTLEMENT_FAILED
  (`Serial.StatusWritesAreLegal`), and when it does, the same handler was told earlier of one of
  the failures that `Failures.SpoilsAreBlamed` lists.
- The webhook is called idempotent on the payment reference. A reference that a later payment
  replaced on its order is free again and can be announced again, and two interleaved webhooks for
  one order both pass the check and both announce (`Duplicates.ReplacedThenRepeated`,
  `Duplicates.InterleavedTwice`). In serial runs nothing else repeats
  (`References.ReferencesAnnouncedOnce`).
- `recordRecoveredSettlement` is documented for orders with a hash; recovery also calls it with a
  placeholder. When every collaborator is gone it marks the order failed, and the pass still
  counts it as recovered (`Recovery.Fate.Emptied`).
- The contract's comments mention a zero-address check and a returned sum, which do not exist,
  and a fee rounding of up to 9999 base units; less than one is lost (`Split.FeeBounds`).
- The dashboard says its preview matches what settlement pays. It does if and only if the 5% and
  every share but the last come out in whole cents (`Mirrors.PreviewExact`); for a price of one
  cent it does not (`Mirrors.OneCentIsMisstated`). `Mirrors.PreviewBounds` says how far it is off.

## Model

| member | source | states |
|---|---|---|
| Split.SplitBounds | smartcontract/src/lib.rs:218-251 | for any valid list: amounts are non-negative and sum to the pool, each non-last amount is the floor of its share, the last exceeds its floor by at most n-1 |
| Split.OrderStability | smartcontract/src/lib.rs:227-248 | reordering a valid list leaves the total alone and moves each recipient by at most n-1 base units |
| Split.CentPrices | backend/src/stellar/settlement.service.ts:193-195 | for a price in cents the fee is exact, and twice the last recipient's excess is the number of other recipients with an odd cents-times-bps product: none for an even price |
| Split.FeeBounds | smartcontract/src/lib.rs:427-434 | fee and pool are non-negative and make the total; the fee is its 5% rounded down |
| Ledger.TransferSucceeds | smartcontract/src/lib.rs:442-456 | a token transfer succeeds exactly when the payer holds the amount and the payee has a trustline with room |
| Ledger.TransferEffect | smartcontract/src/lib.rs:442-456 | a transfer moves exactly the amount, touches nobody else, and keeps limits and supply |
| Payouts.ValidateMeaning | smartcontract/src/lib.rs:257-299 | the one-pass check accepts exactly the lists of 1 to 10 distinct recipients with positive shares totalling 10000 |
| Payouts.RejectionMeaning | smartcontract/src/lib.rs:271-296 | each error names a defect the list has |
| Payouts.VerdictMeaning | smartcontract/src/lib.rs:257-299 | the verdict on every list, error included: by its length, then by the first recipient with a share that is not positive, an overflowing sum or an address repeated later, then by the sum |
| Payouts.OverflowMeaning | smartcontract/src/lib.rs:227-248 | the checked arithmetic finishes exactly when every product but the last fits: sums and differences never overflow |
| Payouts.CheckedIsAmounts | smartcontract/src/lib.rs:218-251 | whenever the checked arithmetic finishes, it yields the unchecked amounts |
| Payouts.SmallTotalsFit | smartcontract/src/lib.rs:427-440 | no checked operation overflows for totals up to (2^127-1)/10000 |
| Payouts.PayAllSucceeds | smartcontract/src/lib.rs:450-466 | the transfer loop gets through exactly when the float covers the need and everyone with a positive amount can receive |
| Payouts.PayAllEffect | smartcontract/src/lib.rs:450-466 | account by account, the balances after the transfer loop; supply and limits are kept |
| SettlementLaws.SettleSucceeds | smartcontract/src/lib.rs:376-490 | `settle` succeeds if and only if it is initialized, authorized, unmarked, positive, valid, free of overflow and fundable |
| SettlementLaws.SettleAnswers | smartcontract/src/lib.rs:376-490 | every outcome of `settle`, each error code and each trap, occurs if and only if its own condition on the chain and the arguments holds |
| SettlementLaws.InitializeAnswers | smartcontract/src/lib.rs:318-344 | every outcome of `initialize` occurs exactly under its condition; only a success changes the configuration |
| SettlementLaws.SettleEffect | smartcontract/src/lib.rs:376-490 | all or nothing: a failure changes nothing, a success pays exactly the split, sets the marker and publishes one receipt |
| SettlementLaws.FloatCheckSuffices | backend/src/stellar/settlement.service.ts:226-250 | a float of at least the order total always covers the payout, whoever the recipients are |
| SettlementLaws.ReceiptSums | smartcontract/src/lib.rs:450-482 | one settlement's payment events sum to the pool of its one summary event, and fee plus pool is the total |
| SettlementLaws.EveryRunAccounted | smartcontract/src/lib.rs:450-482 | after any calls: replaying the log from the initial balances gives every balance, supply is constant, marked orders have one receipt, unmarked ones no event |
| SettlementLaws.FreshDeploymentAccounted | smartcontract/src/lib.rs:318-344 | a fresh deployment starts accounted for |
| SettlementLaws.PlatformOutflow | smartcontract/src/lib.rs:442-466 | apart from other transfers and what it receives as a recipient, the platform has spent exactly the executed pools |
| OnChain.SettlementContract.constructor | smartcontract/src/lib.rs:318-344 | a deployed contract starts without configuration, markers or events |
| SettlementLaws.FirstInstallWins | smartcontract/src/lib.rs:318-344 | over any calls on a fresh contract, it is installed if and only if some call names two different addresses and is signed by the platform, and the first such call fixes platform and token for good |
| SettlementLaws.MarkedByOneCall | smartcontract/src/lib.rs:404-482 | after any calls an order is marked if and only if one of them settled it; that call is the only one, and the order's events are the receipt of its terms |
| OnChain.SettlementContract.ValidateRecipients | smartcontract/src/lib.rs:257-299 | the double loop returns the specified verdict |
| OnChain.SettlementContract.CalculateCreatorAmounts | smartcontract/src/lib.rs:218-251 | the loop over checked i128 operations returns the specified amounts or panics |
| OnChain.SettlementContract.SettleBody | smartcontract/src/lib.rs:376-490 | the body with its transfer loop gives the outcome that `SettleAnswers` characterizes and, on success, the state that `SettleEffect` does |
| OnChain.SettlementContract.Settle | smartcontract/src/lib.rs:376-490 | with the host's rollback, outcome and state are those that `SettleAnswers` and `SettleEffect` characterize, in every case |
| OnChain.SettlementContract.IsSettled | smartcontract/src/lib.rs:497-501 | whatever happened on the chain: true exactly for orders that have one published settlement, false exactly for orders with no event |
| Mirrors.SplitForRows | backend/src/stellar/settlement.service.ts:417-444 | the service's bigint loop yields the contract's fee, pool and amounts |
| Mirrors.RowsAreThePayment | backend/src/stellar/settlement.service.ts:417-474 | after a successful settlement the rows' amounts are the published payments, one by one, and make up the total |
| Mirrors.HelpersMatchContract | integration/helpers/assertion.ts:22-53 | whenever the contract does not overflow, the helper functions give its fee, pool and every amount |
| Mirrors.ComputeSplit | frontend/src/app/(app)/dashboard/products/page.tsx:39-52 | the preview loop is the split of the pool in cents |
| Mirrors.PreviewBounds | frontend/src/app/(app)/dashboard/products/page.tsx:26-52 | the preview sums to the price; non-last shares are within a cent of the payout; the last is at most n-1 base units under and less than n cents over |
| Mirrors.PreviewExact | frontend/src/app/(app)/dashboard/products/page.tsx:26-52 | the preview is what settlement pays, fee and every amount, if and only if the price divides by 20 cents and every share of the rest but the last is a whole number of cents |
| Mirrors.OneCentIsMisstated | frontend/src/app/(app)/dashboard/products/page.tsx:26-52 | for one cent and one recipient the preview is not what settlement pays |
| ProductGate.GateImpliesContract | backend/src/products/products.service.ts:191-255 | a list that passed the product gate and the size check is rejected by the contract for a duplicate address and for nothing else |
| ProductGate.GateMeaning | backend/src/products/products.service.ts:191-255 | a list is accepted, exactly as given, if and only if its percentages are positive and make 100.00 and every wallet is payable; no list yields the creator's payable wallet at 100.00; each rejection names the defect there is |
| ProductGate.ServiceChecksAreContractChecks | backend/src/stellar/settlement.service.ts:132-160 | among lists of positive shares for different wallets the service's checks accept exactly what the contract accepts: 1 to 10 entries making 100.00 |
| ProductGate.ContractImpliesServiceChecks | backend/src/stellar/settlement.service.ts:132-160 | what the contract accepts passes the service's own checks |
| OrderStates.OnlyRollbackCloses | backend/src/orders/order-state-machine.ts:26-58 | every legal transition lowers the rank, except SETTLEMENT_PENDING back to PAYMENT_RECEIVED |
| OrderStates.TableMeaning | backend/src/orders/order-state-machine.ts:24-58 | the whole table: one step on, past a payment or a deferral, to the status's own failure, to CANCELLED, or back from SETTLEMENT_PENDING to paid, and nothing else |
| OrderStates.CancellableUnlessSettled | backend/src/orders/order-state-machine.ts:22-58 | of the statuses that are not terminal, exactly SETTLED cannot become CANCELLED |
| OrderStates.ChangesAreBounded | backend/src/orders/order-state-machine.ts:26-65 | a legal history with r rollbacks has at most 8+3r changes |
| OrderStates.BoundIsReached | backend/src/orders/order-state-machine.ts:26-65 | for every r some legal history makes exactly 8+3r changes |
| Safety.RunKeeps | backend/src/stellar/settlement.service.ts:79-556 | the safety invariant over chain, database, bus and handlers holds in every reachable state |
| Safety.LocalStable | backend/src/stellar/settlement.service.ts:83-312 | what a handler relies on survives every step of other handlers and of the environment |
| Guarantees.MoneyMovesAtMostOnce | smartcontract/src/lib.rs:404-471 | every interleaving, and whatever token holders do, the platform included: each order is paid at most once and at its price, the platform has spent exactly the pools of marked orders besides its other transfers, supply is constant |
| Guarantees.NoPayoutIsClaimedInVain | backend/src/stellar/settlement.service.ts:351-498 | every reachable state: SETTLED, a row, an announced completion or a delivery mail implies the marker and the payout |
| Guarantees.RecordsAreFinal | backend/src/stellar/settlement.service.ts:447-474 | payouts, rows and the prices of orders never change or disappear later in a run |
| Guarantees.GoodsShipAtMostOnce | backend/src/notifications/product-delivery.listener.ts:33-82 | one completion and one delivery mail per order at most, each preceded by its row and payout |
| Guarantees.DirectRowsAreThePayment | backend/src/stellar/settlement.service.ts:258-267 | a row written after a seen confirmation equals the published payments, recipient by recipient |
| Guarantees.RecoveredRowsDriftLittle | backend/src/stellar/settlement.service.ts:522-545 | a rebuilt row has the total and fee of the published settlement, and with the paid recipients in any order each amount is within n-1 base units |
| Guarantees.OutcomesAreFinal | backend/src/stellar/soroban-rpc.service.ts:190-222 | a transaction seen confirmed or failed stays so, however the run goes on |
| References.ReferencesBalance | backend/src/orders/orders.service.ts:79-172 | serial runs: the claims of a reference exceed its replacements by one while an order holds it, and equal them while none does |
| References.ReferencesAnnouncedOnce | backend/src/orders/orders.service.ts:79-172 | serial runs: a reference is announced at most once, plus once for each time a later payment replaced it |
| Duplicates.ReplacedThenRepeated | backend/src/orders/orders.service.ts:79-172 | a serial run of every shop that announces one reference twice, after another payment replaced it |
| Duplicates.InterleavedTwice | backend/src/orders/orders.service.ts:79-172 | a run of every shop in which two webhooks with one order and reference both pass the check and both announce |
| Serial.StatusWritesAreLegal | backend/src/orders/order-state-machine.ts:24-65 | serial runs with crashes and failing statements: a status history is legal if and only if no handler gives up an order that is neither SETTLEMENT_PENDING nor SETTLEMENT_FAILED, and a legal one with r rollbacks makes at most 4+3r changes |
| Failures.SpoilsAreBlamed | backend/src/stellar/settlement.service.ts:83-108 | whenever a step of a serial run gives up an order outside settlement, the same handler was answered earlier that the read or the first write of that order failed, or, with the order SETTLED, that a statement rebuilding its row failed or its product has no collaborators |
| Failures.LegalWithoutFailures | backend/src/stellar/settlement.service.ts:83-108 | a serial run without such an answer about the order keeps its status history legal |
| Hashes.HashesComeWithOutcomes | backend/src/common/startup/startup-recovery.service.ts:180-258 | serial runs, crashes and lost answers included: an order has a hash only with its outcome, so recovery never asks about a transaction, adopts one or rolls an order back |
| Hashes.OnlyPaymentsReopen | backend/src/orders/orders.service.ts:79-172 | serial runs: only a payment webhook takes an order back from SETTLEMENT_PENDING to PAYMENT_RECEIVED |
| Races.RecoveryByHash | backend/src/common/startup/startup-recovery.service.ts:180-258 | a run of every shop that can sell, two payments racing, after which recovery finds a SETTLEMENT_PENDING order with a hash |
| Incidents.ErrorOverwritesSettled | backend/src/stellar/settlement.service.ts:83-108 | a serial run of every shop that can sell: a paid order goes from SETTLED to SETTLEMENT_FAILED because one database read fails |
| Serial.ActProper | backend/src/stellar/settlement.service.ts:101-108 | each handler statement writes only orders the handler owns, respects the table unless it gives up an order outside settlement, and establishes what the next statement relies on |
| NoLoss.SettledExactlyWhenMarked | backend/src/stellar/settlement.service.ts:83-312 | serial, every order that loses nothing itself, whatever happens to others: when it is not SETTLEMENT_PENDING it is SETTLED exactly when its marker is set, with no transaction pending; it is SETTLEMENT_PENDING only while an activity works on it |
| NoLoss.HandlersEndDecided | backend/src/stellar/settlement.service.ts:83-312 | serial, every order that loses nothing itself: a handler that began its settlement ends SETTLED with the marker or SETTLEMENT_FAILED without |
| NoLoss.DisagreementMeansLoss | backend/src/stellar/settlement.service.ts:83-312 | serial: when status and marker of an order disagree, some step of the run was a loss of that order: a crash in SETTLEMENT_PENDING, a lost answer or outcome, or a failed statement that read it SETTLED, recorded its payout, or was the last try to mark it failed |
| Incidents.FailedThoughPaid | backend/src/stellar/settlement.service.ts:252-309 | a serial run of every shop that can sell, one answer lost: the order is paid on chain, has no row and stays SETTLEMENT_FAILED |
| Backend.InterferenceKept | backend/src/stellar/settlement.service.ts:83-312 | any step another activity may take between two statements leaves pinned orders, their rows and transactions and the handler's position untouched |
| Backend.World.Await | backend/src/stellar/settlement.service.ts:79-313 | one statement of a handler is a run of the state machine: interference first, then the statement, with a truthful answer, on the state it saw, and recorded as one more line the handler was told |
| Backend.World.Update | backend/src/stellar/settlement.service.ts:105-108 | an order update writes the given status and hash to that order and to nothing else, or fails and writes nothing |
| Backend.World.Create | backend/src/stellar/settlement.service.ts:447-474 | creating a row fails exactly on an existing row when the database answers |
| Backend.World.SendTransaction | backend/src/stellar/soroban-rpc.service.ts:154-183 | a send submits at most one transaction, with the arguments of the call, whatever answer comes back |
| Handlers.PollTransaction | backend/src/stellar/soroban-rpc.service.ts:190-222 | at most 30 polls, and exactly 30 before it times out; a reported success or failure names a transaction with these arguments and that status, and is what the last poll said |
| Handlers.InvokeSettle | backend/src/stellar/soroban-rpc.service.ts:109-184 | every way of failing is classified as the handler will act on it; at most one transaction is submitted, with these arguments and only after a simulation that went through, and no record changes |
| Handlers.SettleWithRetries | backend/src/stellar/settlement.service.ts:252-309 | at most three attempts, each after trouble in the one before; the order is failed if and only if an answer refuses it, a network error only at the third attempt, and pending if and only if the thirtieth poll brought no outcome |
| Handlers.FailOrSettle | backend/src/stellar/settlement.service.ts:226-250 | with a low float the order is failed and nothing submitted; when that write fails, the settlement is submitted as if the float had not been read |
| Handlers.RecordSettlementSuccess | backend/src/stellar/settlement.service.ts:409-498 | succeeds exactly without an existing row; then the order is SETTLED under the hash with the computed row and announced, else nothing changes |
| Handlers.RecordRecoveredSettlement | backend/src/stellar/settlement.service.ts:508-556 | rebuilds the row from the order's own price and the collaborators the handler read, and succeeds if the product has collaborators and there is no row; otherwise says why not |
| Handlers.RecoverAlreadySettled | backend/src/stellar/settlement.service.ts:351-398 | submits nothing; an order with a row, a hash or a product with collaborators is completed: under its row's hash, the known hash, or rebuilt under a placeholder |
| Handlers.MarkFailed | backend/src/stellar/settlement.service.ts:566-620 | the order ends SETTLEMENT_FAILED, under the hash given if any, with its row untouched, unless the database fails |
| Handlers.HandlePaymentReceived | backend/src/stellar/settlement.service.ts:79-313 | an order whose status forbids it is left alone; any other is failed if and only if an answer refuses it, pending if and only if the thirtieth poll brought no outcome, and else SETTLED with its marker, row and hash and announced; after a yes of `is_settled` nothing is submitted and a restorable order is completed; at most three transactions, for the shares read, after every check |
| Recovery.RecoverPaymentReceived | backend/src/common/startup/startup-recovery.service.ts:116-138 | the order is reported re-emitted, and its payment was announced, unless the database fails; its record is unchanged |
| Recovery.RecoverUnhashed | backend/src/common/startup/startup-recovery.service.ts:149-178 | the chain is asked, and the fate follows from its answer: a yes restores the order or, with a row, fails it; no or an error fails it |
| Recovery.RecoverHashed | backend/src/common/startup/startup-recovery.service.ts:180-258 | by the answers heard about the transaction: confirmed is adopted with a row and restored without, failed is marked failed, twice without an outcome rolls back and announces the payment again; adopted and restored orders have a confirmed transaction, failed ones a reverted one |
| Recovery.RollBack | backend/src/common/startup/startup-recovery.service.ts:232-249 | the hash is cleared, the order is PAYMENT_RECEIVED and its payment was announced again |
| Recovery.RecoverAll | backend/src/common/startup/startup-recovery.service.ts:68-92 | every order has the fate that follows from what was answered about it, and its record shows it; every re-emitted or rolled back payment was announced; those failed or left are counted failed and the others recovered |
| Recovery.OnApplicationBootstrap | backend/src/common/startup/startup-recovery.service.ts:38-92 | the whole pass: exactly the orders paid or in settlement are found, no transaction is submitted for them, each fate, record and count follows from the answers, a paid order is announced again and counted recovered, and an order without hash and row ends SETTLED with one row for the collaborators read if `is_settled` answered yes, and SETTLEMENT_FAILED without one otherwise |
| Recovery.StuckComplete | backend/src/common/startup/startup-recovery.service.ts:41-57 | the query returns every stuck order as it is stored |
| Storefront.HandleGcashPayment | backend/src/orders/orders.service.ts:79-179 | each reply is given if and only if its own condition on what was read holds; a reference held by an order nobody else works on is a duplicate; the order gets exactly the status and reference of the reply; exactly a paid order is announced, at its price |
| Storefront.Checkout | backend/src/orders/orders.service.ts:47-72 | an unknown or inactive product is refused; a new order carries the price its product had when it was read, whatever changes before the order is created, and starts PAYMENT_PENDING |
| Storefront.ConnectWallet | backend/src/wallets/wallets.service.ts:224-340 | one event per order waiting for this creator, at its price, none for any other, and no record changes |
| Storefront.HandleSettlementCompleted | backend/src/notifications/product-delivery.listener.ts:33-82 | the mail goes out when the buyer can be read, and no completion is ever mailed twice |
| WalletHistory.SortIsMerge | backend/src/wallets/wallets.service.ts:164-168 | sorting two concatenated newest-first sources is merging them, ties to the first |
| WalletHistory.MergeOfPrefixes | backend/src/wallets/wallets.service.ts:89-127 | the first k entries of a merge depend on the first k of each source only |
| WalletHistory.HistoryMeaning | backend/src/wallets/wallets.service.ts:128-168 | the merged history holds every settlement and withdrawal once, each source in its order, newest first, settlements first among equals; each entry shows the id and kind of its row, and the settlement's or the withdrawal's own time |
| WalletHistory.PageMeaning | backend/src/wallets/wallets.service.ts:86-177 | the page served is, entry by entry, the `limit` entries of the history after the first (page-1)*limit |
| WalletHistory.PagesTile | backend/src/wallets/wallets.service.ts:86-177 | the first p pages, one after another, are the first p*limit entries of the history |
| WalletHistory.BoundedMergeIsFullMerge | backend/src/wallets/wallets.service.ts:89-177 | for every page and limit the bounded fetch gives the page of the full merge, row by row |
| WalletHistory.TieOrderIsImmaterial | backend/src/wallets/wallets.service.ts:89-177 | when ties come back in another order, the page still shows the full merge's timestamps |
| Usdc.PrintThenParse | integration/helpers/formatter.ts:24-43 | parsing a printed amount gives it back, for every amount of at least zero |
| Usdc.FormatNegative | integration/helpers/formatter.ts:24-37 | a negative amount is printed as its absolute value behind a minus sign |
| Usdc.ParseThenFormat | integration/helpers/formatter.ts:24-43 | printing a parsed canonical string gives it back |
| Usdc.ParseValue | integration/helpers/formatter.ts:39-43 | digits after the seventh are dropped and missing ones are zeros |
| Usdc.PriceParsersAgree | frontend/src/app/(app)/dashboard/products/page.tsx:32-37 | every price with at most two decimals: the amount the backend settles for the dashboard's cents is what the string reads as in base units |

## Assumptions

- Settlement markers are permanent, order ids are never reused, and the hash of a transaction
  identifies it.
- The "serial" theorems assume one activity per order at a time and nothing else: crashes, lost
  answers, late confirmations, failing database statements and products without collaborators
  stay possible. What an order may not lose for the theorems of `NoLoss.dfy` is defined by
  `NoLoss.Loses`, for that order alone.
- A database statement that fails has written nothing.
- The bounded merge assumes that a wallet's recipient rows and their settlements order alike.

## Left out

- Usdc.ParseUsdc: reads unsigned digit strings only; a sign, blanks or a radix prefix, which
  `BigInt` also accepts, count as unreadable, and so the round trip is not claimed for negative
  amounts.
- Usdc.ToCents: reads prices made of digits and a point, the form the product form accepts before
  it uses them.
- Mirrors.ComputeSplit: takes shares that are whole basis points; the floating-point rounding of
  percentages is not part of the model.
- ProductGate.GateImpliesContract: holds percentages as exact hundredths, as the two-decimal
  column does; the wallet registry and trustline reads are one given set of payable wallets.
- Storefront.HandleGcashPayment: reads the product's creator at the wallet lookup, not with the
  order, so a product must not change hands between the two reads; the
  `wallet.connect.required` notification of a deferred order is not modelled.
- Storefront.ConnectWallet: starts when the wallet row is stored, so unknown creators and wallets
  connected elsewhere are not modelled; reads the waiting orders and emits their events without interference
  in between; the state machine's `Resume` may come at any later time.
- Storefront.HandleSettlementCompleted: the content of the mail and the notification log are not
  modelled; a failing mail service counts as a mail.
- Handlers.InvokeSettle: the delays between polls and retries, and the building, signing and
  encoding of transactions, are not modelled; only the outcomes of each call are.
- Handlers.RecordRecoveredSettlement: the two placeholder texts stored for an unknown hash are one
  value, `Placeholder`.
- Marker expiry and archival, and recipients that are the asset's issuer, for whom a transfer
  burns.
- The rounding of amounts to the two decimals of the database columns; row amounts are base units.
- WalletHistory.HistoryMeaning: entries carry their id, kind and time; the other columns are copied or
  formatted from the row.
- The `total` of the wallet history, which counts the bounded fetch only.
- The withdrawal ledger, authentication, the anchor proxy, sponsored trustlines, analytics, and
  the other reads and writes of products, users and sites.
- Cancelled orders: no modelled code writes CANCELLED or the withdrawal statuses.
