# OxygenPay: planning, moving and accounting for money

A Dafny model of the parts of OxygenPay that decide about money: which outputs of a BTC or LTC
wallet are spent, how concurrent workers reserve them, how balances and transaction records move
when customers pay, wallets are swept and merchants withdraw, and how all of this adds up over whole
runs. `dafny verify dfyconfig.toml` verifies the project.

| file | component |
|---|---|
| `Fees`, `Selection`, `Picks`, `Optimality`, `MaxAmount` | fee arithmetic, coin and sweep selection, what they achieve among all sub-collections, the largest sendable amount |
| `Planner`, `Signer` | from an address listing to a transaction plan, and the independent validation before signing |
| `Limit`, `Consolidation` | the advertised withdrawal limit, the wallet that funds a withdrawal and the wallets swept together when no single one suffices |
| `Money`, `Pages`, `Nonces`, `Sorting` | decimal printer and parser, cursor pagination, account nonces, the stable sort |
| `Reservations`, `SignedUtxo`, `Protocol` | the table of reserved outputs, the bounded retry loop, and all interleavings of workers as a state machine |
| `Ledger`, `Desk` | balance rows, transaction records and the database operations on them |
| `Withdrawals`, `Transfers`, `Jobs`, `Settlement` | creating and rolling back sends, the whole withdrawal job, confirming and reverting sends |
| `Checkout`, `PaymentRuns` | customer payments and their runs |
| `Accounting` | every balance total and the balance of the system over runs |
| `Coins`, `ChainLedger`, `OwnOutputs`, `Discrepancy` | the ledger against the chain over runs, reports about own outputs, and when ledger and chain differ |
| `Sends`, `Neutrality` | what the handlers send as steps on the chain, and what a UTXO withdrawal costs |

Objects whose methods update stored rows are classes (`Reservations.Table`, `Nonces.WalletCounters`,
`Ledger.Store`, `Desk.Tables`, `Checkout.Service`); every method is proved equal to a function on
values, and runs and invariants are proved about these functions. Loops of the program are loops
here. Everything the environment decides (listings, fee rates, receipts, conversions, failures of
the key service or the database, time) is a parameter.

Facts about the program that the proofs bring out:

- The sweep is not always the best choice: with a fractional price per input it can lose one
  satoshi for every output worth exactly the rounded-up price (`Optimality.SweepCanMissTheOptimum`);
  `Optimality.SweepOptimalExactly` says when it is the best.
- A rollback of any nonce but the newest one makes the wallet issue an outstanding nonce again
  (`Nonces.RollbackReissuesUnlessNewest`, `Nonces.OutstandingNonceIsReissued`).
- A reservation that expires becomes visible as free to the planner but keeps blocking the output,
  so that planning on it runs into the conflict branch (`Reservations.ExpiryNeverFrees`). Apart from
  a listing that repeats an output, this is the only way to conflict (`SignedUtxo.ConflictsExactly`),
  and when it covers the first output a payment may spend, every retry conflicts
  (`SignedUtxo.RetryingStaleOutputFails`, `SignedUtxo.StoppedWorkerBlocksPayment`).
- Neither `checkWithdrawalTransaction` nor `cancelWithdrawal` (internal/service/processing/service_withdrawal.go:727-867)
  tests the status of the record. Only the filter of the scheduler (internal/scheduler/handler.go:315-318, and
  line 220 for transfers) keeps a settled record from being settled again, and the events `Confirmed` and
  `Revert` of the runs carry that filter. Without it a second reversal charges the fee and gives the
  amount back again: `Accounting.RevertsOnceExactly` and `Accounting.ConfirmsOnceExactly` say exactly
  when a call agrees with its record, and `Accounting.RevertedTwice` shows one that does not.
- Rolling back restores the balances whether or not the transaction reached the chain; the live
  reservations are only claimed to be restored when it did not. If it did, the ledger is ahead of
  the chain by what the transaction spent (`Sends.StrandedWithdrawalIsStep`, the last term of
  `ChainLedger.LedgerAgreesWithChain`).
- The hash of a send is stored after the broadcast, and a failure to store it is only logged
  (internal/service/processing/service_withdrawal.go:619-628, internal/service/processing/service_internal.go:359-366).
  A report of its change or sweep output is then taken for an unexpected payment and credited
  (`OwnOutputs.OwnReportExactly`, `Discrepancy.ChangeIsCreditedTwice`). `Discrepancy.PlainExactly`
  says when the ledger is right, and `Discrepancy.StoredRunsArePlain` that stored hashes suffice.
- A withdrawal whose outputs do not suffice although its balance does, and for which a sweep could be
  started, is not rolled back: there is nothing to roll back, and the payment waits for the next run
  (`Jobs.AfterFailure`).
- The comment above `IncomingUnexpected` says that unexpected transactions are stored as completed;
  the code stores them as in progress, and the model follows the code.

## Model

| member | source | states |
|---|---|---|
| `Fees.FeeIsLeastCover` | internal/service/blockchain/service_bitcoin.go:773-779 | the fee is the least whole number of satoshis that covers size times rate, and at least one |
| `Fees.FeeMonotone` | internal/service/blockchain/service_bitcoin.go:752-779 | a larger transaction is never cheaper |
| `Selection.SelectUtxos` | internal/service/blockchain/service_bitcoin.go:675-712 | the greedy loop returns what settling with the shortest paying prefix of the positive outputs returns, or insufficient funds when no prefix pays |
| `Selection.Decide` | internal/service/blockchain/service_bitcoin.go:689-708 | after one more positive output either one of the two tests of the loop body succeeds and gives the answer for the whole list, or no prefix taken so far pays |
| `Selection.SweepUtxos` | internal/service/blockchain/service_bitcoin.go:714-750 | the sweep keeps exactly the outputs worth more than the price of an input, and fails when less than dust would arrive |
| `Optimality.GreedyIsComplete` | internal/service/blockchain/service_bitcoin.go:675-712 | on positive outputs in descending order selection succeeds if and only if some sub-collection can pay the amount plus the fee of spending exactly it; the only other outcome is insufficient funds |
| `Optimality.GreedyUsesFewest` | internal/service/blockchain/service_bitcoin.go:675-712 | a sub-collection that can pay has at least as many members as the selector uses inputs |
| `Optimality.SweepIsNearlyOptimal` | internal/service/blockchain/service_bitcoin.go:714-750 | no sub-collection delivers more than the sweep plus one satoshi per uneconomical output it spends, and none delivers more when the price of an input is a whole number |
| `Optimality.DroppingLowersSweep` | internal/service/blockchain/service_bitcoin.go:714-750 | leaving out any non-empty part of the swept outputs strictly lowers the amount that arrives |
| `Optimality.SweepOptimalExactly` | internal/service/blockchain/service_bitcoin.go:714-750 | the sweep is best among all sub-collections if and only if rounding the fee up loses nothing on the outputs worth exactly the price of an input |
| `Optimality.WholeFeeLosesNothing` | internal/service/blockchain/service_bitcoin.go:714-750 | a whole price per input always meets that condition |
| `Optimality.SweepIsComplete` | internal/service/blockchain/service_bitcoin.go:714-750 | under that condition a sub-collection that would deliver at least dust makes the sweep succeed with at least as much |
| `Optimality.SweepCanMissTheOptimum` | internal/service/blockchain/service_bitcoin.go:714-750 | a concrete list on which spending two uneconomical outputs would deliver one satoshi more |
| `Picks.TopSum` | internal/service/blockchain/service_bitcoin.go:650-655 | exchange argument: no sub-collection of a descending list exceeds the prefix of its size |
| `MaxAmount.CostMonotone` | internal/service/blockchain/service_bitcoin.go:675-712 | selection succeeds for every smaller amount, and amount plus fee never falls as the amount grows, across longer prefixes and across the jump between change and no change |
| `MaxAmount.FitsIsDownwardClosed` | internal/service/blockchain/service_bitcoin.go:453-504 | every amount below one that fits the budget fits it |
| `MaxAmount.MaxAmountAndFee` | internal/service/blockchain/service_bitcoin.go:453-504 | the binary search ends and returns the largest amount of at least dust whose amount plus fee fits the budget, with its fee, or zero when there is none, for outputs in any order |
| `Planner.ListSpendable` | internal/service/blockchain/service_bitcoin.go:619-659 | the listing becomes its usable outputs in stable descending order |
| `Planner.SpendableIsSorted` | internal/service/blockchain/service_bitcoin.go:633-657 | every output is positive, has a hash and the queried address; the list is descending and a permutation of the usable outputs |
| `Planner.SpendableIsStable` | internal/service/blockchain/service_bitcoin.go:650-655 | larger amounts come first, equal ones by transaction hash, and outputs equal in both stay as listed |
| `Planner.ExcludeUtxos` | internal/service/blockchain/service_bitcoin.go:506-525 | the loop drops exactly the outputs with an excluded key |
| `Planner.WithoutKeeps` | internal/service/blockchain/service_bitcoin.go:506-525 | membership after exclusion is membership before and not being excluded; the order survives |
| `Planner.PrepareTransaction` | internal/service/blockchain/service_bitcoin.go:209-305 | all checks in order, then selection on the listed and not excluded outputs |
| `Planner.PrepareSweep` | internal/service/blockchain/service_bitcoin.go:137-207 | all checks in order, then a sweep of the listed and not excluded outputs |
| `Planner.TransactionConserves` | internal/service/blockchain/service_bitcoin.go:263-304 | inputs equal outputs plus fee, inputs avoid the excluded keys and belong to the sender, no output is dust; the fee covers the size of the plan, is exact with change, and without change is below the two-output fee plus dust |
| `Planner.SweepConserves` | internal/service/blockchain/service_bitcoin.go:137-207 | inputs equal the single output plus exactly the fee of the size; inputs avoid the excluded keys and belong to the sender |
| `Planner.PlanningIsComplete` | internal/service/blockchain/service_bitcoin.go:209-305 | with valid parameters, planning fails for lack of funds if and only if no sub-collection of the allowed outputs can pay |
| `Signer.Validate` | internal/kms/wallet/bitcoin_transaction.go:42-82 | the accumulating loops report the first fault in the order of the code |
| `Signer.AcceptedExactly` | internal/kms/wallet/bitcoin_transaction.go:42-82 | signing is accepted if and only if inputs and outputs are non-empty and well-formed, addresses are valid and inputs exceed outputs |
| `Signer.TransactionIsSignable` | internal/kms/wallet/bitcoin_transaction.go:42-82 | every payment plan is accepted by the signer of its sender |
| `Signer.SweepIsSignable` | internal/kms/wallet/bitcoin_transaction.go:42-82 | every sweep plan is accepted by the signer of its sender |
| `Limit.MaxWithdrawalLimit` | internal/service/payment/service_withdrawal.go:304-416 | the advertised maximum is zero or the maximum of one source or of the consolidated outputs, is at least each of these, and together with its fee does not exceed the merchant balance |
| `Limit.CheckCovers` | internal/service/wallet/service_balance.go:39-51 | the loop over the expenses fails with the error of the first expense that overdraws or is of another currency |
| `Limit.CoversAmountAndFee` | internal/service/wallet/service_balance.go:39-51 | a balance covers amount and fee if and only if it is at least their sum |
| `Limit.OwnMaximumIsHonest` | internal/service/processing/service_withdrawal.go:545-548 | every amount from dust up to a source's own maximum can be planned on that source's outputs and passes the check made after planning |
| `Consolidation.SelectCandidates` | internal/service/processing/service_withdrawal.go:303-326 | the loop takes the shortest prefix that reaches the target, at most eight, and fails only on a balance of another currency |
| `Consolidation.ListSources` | internal/service/processing/service_withdrawal.go:250-301 | paging through the inbound wallets and sorting yields exactly the stable sort of all their non-zero balances in the currency |
| `Consolidation.SourcesAreRanked` | internal/service/processing/service_withdrawal.go:250-301 | the sources are all the inbound wallets of the chain with a balance in the currency and nothing else, the largest balance first, equal ones in the order of the wallets |
| `Consolidation.PickSource` | internal/service/processing/service_withdrawal.go:232-236 | the loop takes the first source that covers the amount, or none does |
| `Consolidation.RichestFunds` | internal/service/processing/service_withdrawal.go:232-236 | if any inbound wallet can fund a withdrawal alone, the first one of the list can |
| `Consolidation.SelectionIsBest` | internal/service/processing/service_withdrawal.go:296-326 | of the sorted sources no smaller set reaches a target that is reached, and no eight reach one that is not |
| `Sorting.StableSortSorts` | internal/service/processing/service_withdrawal.go:296-298 | for any strict order that may tie, the stable sort is an ordered permutation in which tied elements keep their order |
| `Money.PrintParseRoundTrip` | internal/money/money.go:145-178 | parsing a printed crypto amount gives it back, negative or not, for every number of decimals, and never panics |
| `Money.ParserPanicsExactly` | internal/money/money.go:377-396 | text with one dot makes the parser ask for a negative padding if and only if more characters follow the dot than there are decimals |
| `Pages.NextPage` | internal/service/wallet/service.go:274-316 | a page followed by everything from its cursor on is exactly the matching rows, and the cursor moves forward |
| `Pages.ProbeSkipsNothing` | internal/service/wallet/service.go:295-313 | the probe for the next page skips no matching wallet although it drops the type filter |
| `Pages.ListAll` | internal/service/processing/service_withdrawal.go:250-294 | following the cursors ends and yields the matching wallets |
| `Pages.AllAcceptedOnce` | internal/service/wallet/service.go:274-316 | what is yielded are exactly the accepted wallets, strictly ascending by id |
| `Nonces.WalletCounters.IncrementPendingTransaction` | internal/service/wallet/service_nonce.go:16-45 | the nonce is confirmed plus pending; pending grows by one on that network only |
| `Nonces.WalletCounters.IncrementConfirmedTransaction` | internal/service/wallet/service_nonce.go:47-76 | one pending transaction becomes confirmed, or an error when there is none |
| `Nonces.WalletCounters.DecrementPendingTransaction` | internal/service/wallet/service_nonce.go:78-107 | one pending transaction is taken back, or an error when there is none |
| `Nonces.StepKeepsWindowExactly` | internal/service/wallet/service_nonce.go:16-107 | a step keeps the outstanding nonces equal to the window of the counters if and only if it confirms the oldest or rolls back the newest one |
| `Nonces.OrderlyRunsKeepWindow` | internal/service/wallet/service_nonce.go:16-107 | in every orderly run the outstanding nonces are exactly those from confirmed up to confirmed plus pending |
| `Nonces.WithoutRollbacksConsecutive` | internal/service/wallet/service_nonce.go:16-45 | without rollbacks the issued nonces are 0, 1, 2 and so on, whatever the order of confirmations |
| `Nonces.OutstandingNonceIsReissued` | internal/service/wallet/service_nonce.go:16-107 | from every state without pending transactions, issuing two nonces and rolling back the first makes the second, still outstanding, be issued again |
| `Nonces.RollbackReissuesUnlessNewest` | internal/service/wallet/service_nonce.go:78-107 | after a rollback the next nonce is still outstanding if and only if it was not the newest one that was rolled back |
| `Reservations.Table.Create` | internal/db/repository/bitcoin_utxo_reservations.go:39-59 | the insert fails exactly when a live row of the wallet and network has the output |
| `Reservations.Table.ListActive` | internal/db/repository/bitcoin_utxo_reservations.go:66-99 | the listed keys are exactly those of broadcast and unexpired reserved rows |
| `Reservations.Table.ReserveUtxos` | internal/service/wallet/service_transaction.go:283-318 | all keys or none are reserved |
| `Reservations.Table.AttachRaw` | internal/service/wallet/service_transaction.go:320-333 | the loop attaches the transaction to the reserved rows with these ids |
| `Reservations.Table.ReleaseIds` | internal/service/wallet/service_transaction.go:335-348 | the loop releases the reserved rows with these ids |
| `Reservations.Table.ReleaseByRaw` | internal/db/repository/bitcoin_utxo_reservations.go:142-155 | exactly the reserved rows that carry the transaction are released |
| `Reservations.Table.MarkBroadcasted` | internal/db/repository/bitcoin_utxo_reservations.go:165-178 | exactly the reserved rows that carry the transaction become broadcast |
| `Reservations.ReservableExactly` | scripts/migrations/20260602120000-create_bitcoin_utxo_reservations_table.sql:20-22 | a reservation succeeds if and only if the keys are distinct and none has a live row, whatever the time is |
| `Reservations.ExpiryNeverFrees` | internal/db/repository/bitcoin_utxo_reservations.go:66-79 | in every table with at most one live row per output, an expired reservation is invisible to the planner and still blocks the output |
| `Protocol.StepKeepsInvariant` | internal/service/wallet/service_transaction.go:152-211 | every step of every worker keeps the table unique, every worker backed by its own rows and every broadcast input protected by a live row nobody can release |
| `Protocol.RunsNeverDoubleSpend` | internal/service/wallet/service_transaction.go:133-214 | over every interleaving, with crashes and passing time, no output is an input of two broadcast transactions |
| `Protocol.SpentStaysBlocked` | internal/db/repository/bitcoin_utxo_reservations.go:39-59 | over every interleaving a spent output can never be reserved again |
| `Protocol.SettledRowsAreFinal` | internal/db/repository/bitcoin_utxo_reservations.go:125-178 | broadcast and released rows never change and no row disappears |
| `SignedUtxo.SignReserved` | internal/service/wallet/service_transaction.go:192-208 | a reserved plan is signed and attached if and only if signer, key service and database agree; otherwise its rows are released again |
| `SignedUtxo.ReserveAndSign` | internal/service/wallet/service_transaction.go:183-208 | a conflict changes nothing; otherwise the reserved inputs carry the signed plan if and only if it can be signed, and are released again if not |
| `SignedUtxo.TryOnce` | internal/service/wallet/service_transaction.go:153-208 | one attempt, with refused listings and refused inserts: conflicts change nothing, failures leave only released rows, success leaves the reserved inputs of the signed plan |
| `SignedUtxo.CreateSignedUtxo` | internal/service/wallet/service_transaction.go:133-214 | the first of three attempts without a conflict decides; success if and only if that attempt plans and signs; a failure leaves no live reservation behind; three conflicts give the conflict error, and lack of funds is reported if and only if the deciding attempt cannot be planned for it |
| `SignedUtxo.ConflictsExactly` | internal/service/wallet/service_transaction.go:153-187 | a planned attempt conflicts if and only if one of its inputs repeats or is covered by an expired reservation that was never settled |
| `SignedUtxo.RetryingStaleOutputFails` | internal/service/wallet/service_transaction.go:152-187 | while an expired reservation covers the first, largest output a payment may spend, every attempt that finds a plan conflicts |
| `SignedUtxo.StoppedWorkerBlocksPayment` | internal/service/wallet/service_transaction.go:152-187 | a concrete table: a worker reserves the only output of a wallet and stops, and once its reservation has expired every retry of the payment plans on the output and conflicts |
| `SignedUtxo.SettledByRaw` | internal/db/repository/bitcoin_utxo_reservations.go:142-178 | a statement addressed by the transaction settles exactly the rows its own signing created |
| `SignedUtxo.SameLiveKeys` | internal/service/wallet/service_transaction.go:350-359 | a failed signing leaves the live outputs of every wallet as they were |
| `SignedUtxo.PlansAreLegalChoices` | internal/service/wallet/service_transaction.go:154-181 | what a worker plans on an honest listing is a legal choice of the interleaving protocol |
| `SignedUtxo.PlansAreNeverRefused` | internal/service/wallet/service_transaction.go:192-208 | a reserved plan is signed unless the key service or the database fails |
| `Ledger.Store.UpdateBalanceById` | internal/service/wallet/service_balance.go:418-465 | the balance moves by the signed amount; zero amounts, missing rows and overdrafts are errors; another currency is silently ignored |
| `Ledger.Store.UpdateBalance` | internal/service/wallet/service_balance.go:576-628 | the entity's row of the currency moves, or is created when missing |
| `Ledger.Store.UpdateBalancesForWithdrawal` | internal/service/wallet/service_balance.go:496-534 | merchant and wallet move together or not at all; invalid input is reported as success and changes nothing |
| `Ledger.Store.ReceiveTransaction` | internal/service/transaction/service_update.go:42-119 | the record takes status, hash and received amount, or an error leaves it alone |
| `Ledger.Store.UpdateBalancesAfterConfirmation` | internal/service/transaction/service_update.go:246-450 | which balances move by how much for each kind of transaction |
| `Ledger.Store.ConfirmTransaction` | internal/service/transaction/service_update.go:156-183 | record and balances change together or not at all |
| `Ledger.Store.UpdateConfirmedRecord` | internal/service/transaction/service_update.go:195-243 | a second confirmation with the same status is refused; an invalid completion drops the service fee |
| `Ledger.Store.CancelTransaction` | internal/service/transaction/service_update.go:455-507 | the optional network fee leaves the sender's coin balance and the record takes the status |
| `Ledger.Store.CreateTransaction` | internal/service/transaction/service.go:168-262 | a record is appended |
| `Ledger.Store.SetTransactionHash` | internal/service/transaction/service_update.go:185-192 | only the hash of the record changes |
| `Ledger.PostMoves` | internal/service/wallet/service_balance.go:576-628 | an update by entity moves exactly the totals its row belongs to |
| `Ledger.WithdrawalMoves` | internal/service/wallet/service_balance.go:496-534 | a withdrawal moves the merchant by amount plus fee, the wallet by the amount, and no other total |
| `Ledger.WithdrawalMoveUndone` | internal/service/wallet/service_balance.go:496-534 | moving a withdrawal forth and back restores every row |
| `Desk.Tables.SignWithNonce` | internal/service/wallet/service_transaction.go:27-68 | a nonce is taken for a signed transaction and given back when signing fails |
| `Desk.Tables.UpdatePayment` | internal/service/payment/service.go:606-645 | exactly this payment takes the status |
| `Withdrawals.Sign` | internal/service/processing/service_withdrawal.go:513-543 | account chains take a nonce, UTXO chains reserve and sign; the service fee of a UTXO withdrawal is the fee of the plan it signs |
| `Withdrawals.BookWithdrawal` | internal/service/processing/service_withdrawal.go:550-597 | the pending record and the balance move; the payment is given up exactly when the merchant row cannot pay |
| `Withdrawals.Send` | internal/service/processing/service_withdrawal.go:599-645 | broadcast, then mark the inputs, the hash and the payment; success if and only if all of these succeed |
| `Withdrawals.Complete` | internal/service/processing/service_withdrawal.go:537-646 | how far a signed withdrawal gets, whether it is broadcast, whether it succeeds and whether the payment is given up, each as an equivalence on the books, the request and the environment; nothing but a broadcast touches the reservations |
| `Withdrawals.CreateWithdrawal` | internal/service/processing/service_withdrawal.go:453-646 | signing, the record, the balance move, the broadcast, success and giving up are each decided by the state before, the request and the environment; the charged fee of a UTXO withdrawal is that of the plan it signs; inputs of a broadcast transaction stay live, and without a broadcast no live reservation is left; lack of outputs is told apart exactly |
| `Withdrawals.RollbackWithdrawal` | internal/service/processing/service_withdrawal.go:677-725 | counter, record, balances and payment are taken back as far as the creation got |
| `Withdrawals.RollbackRestores` | internal/service/processing/service_withdrawal.go:677-725 | however far the creation got, rolling back restores every balance and leaves at most one cancelled record |
| `Jobs.SweepOne` | internal/service/processing/service_withdrawal.go:353-379 | one round of the consolidation loop: a transfer of the whole source to the outbound wallet, decided by the books, the reservations and the environment at that moment, and rolled back when it fails |
| `Jobs.Consolidate` | internal/service/processing/service_withdrawal.go:328-390 | the selected wallets are tried in order, each one exactly when the earlier transfers do not deliver the amount yet, until the amount is delivered or all were tried; the count is that of the transfers that went through, and the books move by accounting events |
| `Jobs.SweepsAreRecorded` | internal/service/processing/service_withdrawal.go:328-390 | everything a consolidation records is a sweep to the outbound wallet, under way or cancelled |
| `Jobs.AfterFailure` | internal/service/processing/service_withdrawal.go:151-198 | inbound wallets are swept if and only if a UTXO withdrawal without a record failed for lack of outputs and the wallets can be listed; every other failure is rolled back |
| `Jobs.ProcessWithdrawal` | internal/service/processing/service_withdrawal.go:149-203 | a failed withdrawal leaves balances, counters and, unless it was broadcast, the live reservations as they were, and the payment untouched or failed; inbound wallets are swept instead, with the payment untouched, if and only if the first attempt without a conflict cannot be planned for lack of outputs |
| `Jobs.Resolve` | internal/service/processing/service_withdrawal.go:214-236 | a wallet is chosen if and only if one can fund the withdrawal alone: the outbound wallet if it can, else the richest inbound wallet |
| `Jobs.Perform` | internal/service/processing/service_withdrawal.go:109-203 | a withdrawal is attempted if and only if one wallet can fund it, and from the wallet so chosen; otherwise inbound wallets are swept, if they can be listed, and the payment stays as it is; in every case the books are reached by accounting events |
| `Jobs.ReachedIsExplained` | internal/service/processing/service_withdrawal.go:109-203 | whatever a job does, the records explain the change of every total and of the system balance, and no balance becomes negative |
| `Transfers.Sign` | internal/service/processing/service_internal.go:273-303 | account chains take a nonce, UTXO chains sweep the wallet; the amount is what the plan delivers |
| `Transfers.Complete` | internal/service/processing/service_internal.go:302-372 | how far a signed transfer gets, whether it is broadcast and whether it succeeds, each as an equivalence on the books, the request and the environment |
| `Transfers.CreateTransfer` | internal/service/processing/service_internal.go:226-373 | signing, the record, the balance move, the broadcast and success are each decided by the state before, the request and the environment; the recorded amount of a sweep is what its plan delivers; inputs of a broadcast transaction stay live, and without a broadcast no live reservation is left |
| `Transfers.RollbackTransfer` | internal/service/processing/service_internal.go:375-423 | counter, record and balance are taken back as far as the creation got |
| `Transfers.RollbackRestores` | internal/service/processing/service_internal.go:375-423 | however far the creation got, rolling back restores every balance and leaves at most one cancelled record |
| `Transfers.ProcessTransfer` | internal/service/processing/service_internal.go:120-145 | a failed transfer leaves balances, counters and, unless it was broadcast, the live reservations as they were |
| `Settlement.ConfirmWithdrawal` | internal/service/processing/service_withdrawal.go:770-804 | the nonce is confirmed first; then record, fee and payment change, or neither of them |
| `Settlement.CancelWithdrawal` | internal/service/processing/service_withdrawal.go:808-867 | the nonce is confirmed, the fee charged, both balances given back and the payment failed; after a failure part-way the record is cancelled and charged, or nothing has changed |
| `Settlement.ConfirmTransfer` | internal/service/processing/service_internal.go:471-521 | the nonce is confirmed; a receipt without a fee is accepted |
| `Settlement.CancelTransfer` | internal/service/processing/service_internal.go:523-570 | the nonce is confirmed, the fee charged and the balance given back; after a failure part-way the record is cancelled and charged, or nothing has changed |
| `Settlement.ReversalCostsOnlyTheFee` | internal/service/processing/service_withdrawal.go:808-867 | whatever happens in between, what a withdrawal took and what its reversal gave back differ on every total by exactly the network fee in the sender's coin, for coins and for tokens |
| `Settlement.ReversalRestoresRows` | internal/service/processing/service_withdrawal.go:808-867 | with nothing in between, a reversal succeeds if and only if the coins cover the fee, and then every row is as before except for the fee |
| `Accounting.ComposeSystemBalances` | internal/service/wallet/service_balance.go:180-234 | per currency and network the result is wallets less merchants; it fails if and only if a merchant has a currency no wallet has |
| `Accounting.ComposedIsSystem` | internal/service/wallet/service_balance.go:180-234 | on the rows of one table this is the system balance the run results speak of |
| `Accounting.StepExplainsTotals` | internal/service/transaction/service_update.go:246-450 | every handler moves every total, of all wallets or merchants or of one, by exactly the change of what its record says it has moved |
| `Accounting.RunExplainsTotals` | internal/service/transaction/service_update.go:246-450 | over every run every such total changes by exactly what the records have moved; this is the account of each merchant and each wallet |
| `Accounting.StepIsExplained` | internal/service/transaction/service_update.go:246-450 | every handler moves the system balance by exactly the change of its record's contribution |
| `Accounting.RunIsExplained` | internal/service/transaction/service_update.go:246-450 | over every run the system balance changes by exactly what the records contribute |
| `Accounting.FinishedRunAccounts` | internal/service/transaction/service_update.go:294-450 | once all transactions are finished the change is overpayments plus uncredited receipts plus service fees less network fees less top-ups |
| `Accounting.RevertsOnceExactly` | internal/service/processing/service_withdrawal.go:808-867 | reverting a withdrawal moves every total as its record says if and only if the record was still open; otherwise amount and fee move a second time |
| `Accounting.RevertedTwice` | internal/service/processing/service_withdrawal.go:808-867 | a concrete withdrawal that is created, reverted and reverted again: the second reversal gives the amount back and charges the fee once more |
| `Accounting.ConfirmsOnceExactly` | internal/service/processing/service_withdrawal.go:770-804 | confirming a withdrawal moves every total as its record says if and only if the record was still open |
| `Sends.WithdrawalCarries` | internal/service/processing/service_withdrawal.go:513-527 | when nodes list the unspent outputs of the wallet, the signed withdrawal spends distinct ones of them, and they are worth the amount, the change and the service fee its merchant is charged |
| `Sends.WithdrawalIsStep` | internal/service/processing/service_withdrawal.go:453-646 | a withdrawal that was booked is a step of the chain world that takes effect, leaves exactly its books, and pays the network exactly its service fee |
| `Sends.StrandedWithdrawalIsStep` | internal/service/processing/service_withdrawal.go:677-725 | a withdrawal that was broadcast and then rolled back is the step that spends on the chain and leaves a cancelled record |
| `Sends.TransferIsStep` | internal/service/processing/service_internal.go:226-373 | a transfer that was booked is a sweep step that takes effect and leaves exactly its books |
| `Sends.StrandedTransferIsStep` | internal/service/processing/service_internal.go:375-423 | a transfer that was broadcast and then rolled back is the step that spends on the chain and leaves a cancelled record |
| `Neutrality.RunKeepsPaying` | internal/service/processing/service_withdrawal.go:770-804 | in every run the fee of a sent withdrawal stays what its transaction paid, also when it is confirmed |
| `Neutrality.UtxoWithdrawalIsNeutral` | internal/service/processing/service_withdrawal.go:513-527 | in every run after a UTXO withdrawal was created and sent, once it is completed its record contributes nothing to the system balance of any currency |
| `Accounting.RunKeepsNonNegative` | scripts/migrations/20230126000140-update_balances_change_contraint.sql:3 | no handler makes a balance negative |
| `Accounting.WithdrawalIsEvent` | internal/service/processing/service_withdrawal.go:453-646 | a created withdrawal is the withdraw event of the runs |
| `Accounting.RolledBackWithdrawalIsEvent` | internal/service/processing/service_withdrawal.go:677-725 | a rolled back withdrawal is an abandoned record of the runs |
| `Accounting.TransferIsEvent` | internal/service/processing/service_internal.go:226-373 | a created transfer is the transfer event of the runs |
| `Accounting.RolledBackTransferIsEvent` | internal/service/processing/service_internal.go:375-423 | a rolled back transfer is an abandoned record of the runs |
| `ChainLedger.StepAgrees` | internal/service/transaction/service_update.go:246-416 | every deposit, report, sweep, withdrawal, lost or late hash, rollback after a broadcast and confirmation keeps the equation between ledger and chain for every wallet |
| `ChainLedger.StepKeepsLinks` | internal/service/processing/service_webhook.go:125-184 | what one chain transaction pays to one wallet, also an own one, is claimed by at most one record under way and credited at most once |
| `ChainLedger.LedgerAgreesWithChain` | internal/service/transaction/service_update.go:246-416 | in every run a ledger balance is the unspent outputs plus the fees of open sends less internal amounts and outside deposits that arrived but are not confirmed, plus own outputs that were credited and what stranded sends took |
| `ChainLedger.QuietLedgerEqualsChain` | internal/service/processing/service_internal.go:273-343 | once nothing is under way the ledger balance is the unspent outputs plus own outputs that were credited and what stranded sends took |
| `OwnOutputs.StepKeepsAwaited` | internal/service/wallet/service_lock.go:74-83 | a wallet on which a payment is awaited has no balance, no send from it or to it and no own output, in every step |
| `OwnOutputs.OwnReportExactly` | internal/service/processing/service_webhook.go:157-184 | a report of a change or sweep output of the system itself is recorded as an unexpected payment if and only if no record carries its hash |
| `OwnOutputs.StoredHashProtects` | internal/service/processing/service_withdrawal.go:619-628 | once the hash of a send is stored before any report of its output, no later run credits the output |
| `Discrepancy.PlainExactly` | internal/service/transaction/service_update.go:246-416 | in every run the equation without the two error terms holds for a wallet if and only if none of its own outputs was credited and none of its sends was rolled back after its broadcast |
| `Discrepancy.StoredRunsArePlain` | internal/service/processing/service_withdrawal.go:619-628 | in every run whose sends store their hashes at once and are not rolled back after the broadcast, the equation without error terms holds for every wallet |
| `Discrepancy.UnstoredOutputIsCredited` | internal/service/processing/service_webhook.go:157-184 | in every reachable state, reporting and confirming an own output whose hash no record carries raises the ledger by its amount while the chain stays as it is |
| `Discrepancy.ChangeIsCreditedTwice` | internal/service/processing/service_withdrawal.go:619-628 | a concrete run: a withdrawal whose hash was not stored, the report of its change and the confirmation leave a ledger balance of 379860 against 189860 on the chain |
| `Checkout.Service.SetPaymentMethod` | internal/service/processing/service.go:229-281 | choosing and changing a method under the row lock |
| `Checkout.Service.LockPaymentOptions` | internal/service/processing/service.go:206-226 | an editable payment with customer and method is locked |
| `Checkout.Service.ProcessInbound` | internal/service/processing/service_incoming.go:60-185 | an awaited record takes the received amount; the payment is in progress unless more than a cent is missing |
| `Checkout.Service.ConfirmIncoming` | internal/service/processing/service_incoming.go:428-496 | record and payment finish together, valid or invalid |
| `Checkout.Service.CancelIncoming` | internal/service/processing/service_incoming.go:498-527 | record and payment fail |
| `Checkout.Service.ExpirePayment` | internal/service/processing/service_incoming.go:574-638 | expiry is deferred while a payment is seen, otherwise record and payment are given up |
| `PaymentRuns.StepKeeps` | internal/service/processing/service_incoming.go:60-638 | every handler keeps each payment's status fitting its latest transaction, all earlier ones being cancelled |
| `PaymentRuns.OneActiveTransaction` | internal/service/processing/service.go:255-278 | in every run a payment has at most one transaction that is not cancelled |
| `PaymentRuns.CreditedOncePerPayment` | internal/service/transaction/service_update.go:312-338 | in every run a merchant is owed the opening balance plus one credit per successful payment |
| `PaymentRuns.SuccessMeansPaid` | internal/service/processing/service_incoming.go:428-496 | in every run a payment is successful if and only if one of its transactions is completed |
| `PaymentRuns.ExpiresExactly` | internal/service/processing/service_incoming.go:574-638 | an open payment expires if and only if no record of it has been seen on the chain; otherwise nothing changes |
| `PaymentRuns.ProcessesExactly` | internal/service/processing/service_incoming.go:60-185 | an awaited payment starts to be processed if and only if the receipt reaches the price or misses it by at most a known cent |
| `PaymentRuns.SettleIsEvent` | internal/service/processing/service_incoming.go:428-496 | a confirmation of a customer payment is a confirmed event of the accounting runs |
| `PaymentRuns.InboundIsEvent` | internal/service/processing/service_incoming.go:60-116 | a received customer payment is a seen event of the accounting runs |
| `PaymentRuns.ChooseIsEvents` | internal/service/processing/service.go:229-281 | choosing a method drops the replaced record and expects the new one in the accounting runs |
| `PaymentRuns.FailIsEvent` | internal/service/processing/service_incoming.go:498-527 | a reverted receipt is a dropped record of the accounting runs |
| `PaymentRuns.ExpireIsEvent` | internal/service/processing/service_incoming.go:574-638 | an expired payment drops its latest record in the accounting runs, unless that is cancelled already |
| `PaymentRuns.SuccessMeansCredited` | internal/service/transaction/service_update.go:312-338 | in every run the confirmation that makes a payment successful raises the balance of its merchant by the received amount up to the price less the service fee, and no other balance of a merchant; a confirmation that fails the payment raises none |

## Left out

- Rounding of floating-point fee rates: a rate is a positive real number and the ceiling is exact.
- 64-bit overflow of sums of satoshis: sums are unbounded integers; only the range check of `satoshiAmount` is modelled.
- Listing through Tatum, retries against explorers and fee estimation: the environment supplies the listing and the rate.
- Key generation, signing, address decoding and hashes: an address predicate is a parameter, and a raw transaction stands for its own hash, which is taken to be injective.
- Exchange rates and conversions between currencies: their results are parameters.
- The order of the list of system balances, audit logs, metadata, USD amounts and wallet locks.
- Fees and payloads of EVM and Tron transactions.
- The amount checks of `CreateWithdrawal` in the payment service, `validateWithdrawal`, and loading the rows a job starts from.
- Jobs.Perform: is one job; the batch runs up to eight of them at once, and only `Protocol` interleaves workers.
- The check before planning at internal/service/processing/service_withdrawal.go:503 as part of the limit: it uses an estimate with one input and two outputs, so `Limit.OwnMaximumIsHonest` does not speak of it.
- Failures of the database in the middle of confirming, cancelling and expiring: in the runs these handlers are atomic. The code does not lock the transaction row.
- A broadcast that reports an error although the network accepted the transaction: an error is taken to mean that it was not accepted.
- Ledger.Store.CancelTransaction: the program takes the network fee and sets the status in two database transactions; here it is one.
- A release of reservations that fails: the program logs the failure and goes on, and the rows stay in the table as reserved.
- Protocol.RunsNeverDoubleSpend: speaks of one chain; wallets of different chains have no outputs in common.
- ChainLedger.LedgerAgreesWithChain: a send is recorded and broadcast in one step; every customer payment waits on a new wallet (internal/service/wallet/service_lock.go:74-83) and transfers go to outbound wallets only; a withdrawal does not pay the wallet that funds it; an unexpected payment whose hash is recorded already stays uncredited as in the program; reverted transactions do not occur because receipts of UTXO chains always report success.
- PaymentRuns.CreditedOncePerPayment: customer payments only; the success status of a system top-up is set when it is created.
- Error paths of creating an incoming transaction after a wallet was acquired.
