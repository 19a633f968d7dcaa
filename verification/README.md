# DigiWallet, verified

DigiWallet keeps every payment in three places that can disagree: a status row in Postgres, an entry in
the TigerBeetle ledger and a refund at the payment provider. Retried background tasks keep them in step.
This project models those tasks, the ledger adapter, the transaction history, money conversion, the
one-time-password store and the retry middleware, and proves what they promise - and, where a promise
does not hold of the code, exactly when it does.

Check it with `dafny verify dfyconfig.toml`.

## How the model is built

* **Two views of every saga.** `DepositMachine` and `TransferMachine` are step machines: a task stands
  between two calls to Postgres, the ledger or the provider, holding the row it read earlier. A run is any
  sequence of events: any number of webhook, poll, execute and exhaustion tasks starting, each call being
  answered, failing before or failing after it took effect, tasks dying between calls, wallets changing,
  other traffic on the ledger. `DepositWorker` and `TransferWorker` are the same handlers as they are
  written, classes that change rows, ledger and refunds in place with early returns; each method is proved
  to do exactly what one uninterrupted run of the machine does (`RunAlone`), and an uninterrupted run is
  proved to be one schedule among all others (`AloneIsASchedule`). What such a run leaves and returns is then
  stated without the machine, from rows, balances, keys and answers alone (`DepositResults`,
  `TransferResults`, `OtpResults`, `LedgerOutcomes`, `HistoryRows`), and with others acting between its
  calls (`DepositOutcomes`, `TransferLifecycle`).
* **The ledger** is a cluster value with accounts and a log of posted transfers (`LedgerModel`), a
  client class and the adapter class over it (`LedgerAdapter`). It behaves only as the adapter relies on:
  an id already known is recognised before the balance is looked at, a capped account's debits stay within
  its credits, and a fresh transfer may also be refused for reasons of the cluster's own.
* **Lost replies** are everywhere the type `Delivery`: replied, lost before taking effect, lost after
  taking effect.
* **History** is three sources, each cut to a window, merged by a stable sort that is proved to be the
  only one (`StableSort`), then paged.
* **Floats** are any rounding to nearest on the grid of 64-bit floats, whichever way ties fall
  (`Float64.Binary64`; IEEE 754-2019, section 4.3.1), and there is one (`HalfUpIsBinary64`). The results that
  need no more use only what follows from it: integers up to 2^53 are exact and any other value is off by at
  most 2^-53 of itself (`Binary64IsNearest`).

## What the proofs found

Each misfortune of the sagas, of the password store and of wallet creation is reached from the beginning by a
run that a lemma constructs, and has its exact condition.

* "Never both credited and refunded" holds only if no ledger lookup comes back empty while another task
  may still post the deposit. `LookupIsSafeExactly` shows that this hypothesis is exact: at such a lookup,
  some schedule credits and refunds the customer if and only if another task may still credit.
  `RaceHappens` is such a run.
* If the provider's acceptance of a refund is lost, the row says REFUNDING for ever, because the next
  attempt asks for the refund again and is refused (`RefundStaysOpen`). From REFUNDING some run closes the
  row if and only if the provider can still pay, or a task has heard that it did (`RefundClosesExactly`).
* The comment at internal/api/providers/paystack.go:238-239 says a repeated refund cannot pay out twice.
  That is so if and only if the charge is less than twice the intent's amount (`PaidBackTwiceExactly`,
  `PaidBackTwice`).
* A deposit that was credited and whose update was lost stays PENDING if its wallet is deactivated, or changes
  its currency, before the retry, and is not retried again (`CreditedRetryExactly`).
* A transfer marked FAILED can have moved money. A row marked FAILED with nothing posted stays unmoved in
  every run if and only if no task of its own may still post (`FailedStaysUnmovedExactly`); a hook that
  overlaps an execute task meets one that may (`FailedThenMoved`). And a retry marks a transfer FAILED
  after its money moved if and only if both wallet rows exist and one was deactivated or changed its
  currency (`RerunExactly`, `MovedThenFailed`). Without either, status tells the truth
  (`StatusTellsTheTruth`, `SoundDecisionsTellTheTruth`).
* A deposit is listed twice in the history as long as it is credited and does not say SUCCESS
  (`DepositShowsTwice`); no deposit and no transfer is ever missing (`NoDepositGoesMissing`,
  `NoTransferGoesMissing`).
* A page is right for every store if and only if it ends within the first 500 rows
  (`PagingIsExactExactly`).
* The least int64 prints as malformed text; every other amount prints exactly (`PrintsExactly`). Every amount
  up to a limit comes back through major units, or through its text, if and only if the limit is below
  3518437208883202 minor units, which come back as one more (`RoundTripExactly`, `ParseRoundTripExactly`,
  `FirstLost`). Between 2^53 and 2^54 odd amounts never come back (`OddAmountsAreLost`).
* A one-time password can be compared more than MaxAttempts times after a Generate if and only if a Verify
  stood between its count and its comparison when the Generate came (`ComparedTooOftenExactly`,
  `ComparedTooOften`). It can be accepted twice by calls that overlap (`AcceptedTwice`), and again after a
  lost DEL while attempts are left (`SuccessPossibleExactly`).
* The comment at internal/api/services/wallet-service.go:17 says a user holds at most one wallet per
  currency. Nothing in the table keeps that when calls overlap (`TwoWallets`): an empty lookup is harmless
  if and only if no other call for the same user and currency stands between its lookup and its insert
  (`EmptyLookupExactly`).

## Model

| member | source | states |
|---|---|---|
| LedgerAdapter.TigerBeetle.CreateTransfer | internal/ledger/ledger.go:195-214 | The request the adapter relies on: a known id answers Exists (same fields) or another status before any balance check; a capped account is never overdrawn; a lost request did nothing, a lost reply did everything. |
| LedgerAdapter.TigerBeetle.LookupTransfer | internal/ledger/ledger.go:222-231 | Finds the transfer posted under an id, whatever was posted since. |
| LedgerAdapter.TigerBeetle.CreateAccounts | internal/ledger/ledger.go:328-340 | Accounts are opened in order; an existing one is left as it is and reported as the same or as a conflict. |
| LedgerAdapter.TigerBeetle.GetAccountTransfers | internal/ledger/ledger.go:382-387 | Both sides of an account, newest first, at most `limit` entries. |
| LedgerAdapter.Ledger.createAccounts | internal/ledger/ledger.go:328-341 | Refused exactly when some account exists on other terms. |
| LedgerAdapter.Ledger.ensureAccounts | internal/ledger/ledger.go:312-326 | Opens the currency's settlement account and the wallet's capped account in one request. |
| LedgerAdapter.Ledger.Deposit | internal/ledger/ledger.go:121-153 | Its effect on the cluster and its error, for every argument and every reply lost, are those of the specification; `LedgerOutcomes.DepositExactly` says in terms of accounts, log and replies what they are. |
| LedgerAdapter.Ledger.Transfer | internal/ledger/ledger.go:174-216 | The same for a wallet-to-wallet transfer, with its four guards and its three kinds of failure (`LedgerOutcomes.TransferExactly`). |
| LedgerAdapter.Ledger.TransferExists | internal/ledger/ledger.go:218-232 | True exactly when an entry is posted under the id and the reply arrived. |
| LedgerAdapter.Ledger.EnsureWalletAccount | internal/ledger/ledger.go:234-255 | Opens a wallet's account on its currency's ledger, or refuses an unknown currency. |
| LedgerAdapter.Ledger.Balances | internal/ledger/ledger.go:278-310 | Each wallet asked for, and no other, with credits minus debits cut to 64 bits, or 0 without an account. |
| LedgerAdapter.Ledger.describe | internal/ledger/ledger.go:397-410 | One movement per entry, a debit exactly when the wallet is on the debit side. |
| LedgerAdapter.Ledger.WalletMovements | internal/ledger/ledger.go:371-418 | The stable sort, newest first, of every wallet's last `limit` movements. |
| LedgerAdapter.MovementsMakeTheBalance | internal/ledger/ledger.go:303-309 | In every sound cluster a wallet's credits minus debits, over all its movements, are the balance it is shown, if that fits 64 bits. |
| LedgerAdapter.ShownBalance | internal/ledger/ledger.go:303-309 | After any history of calls a wallet is shown its deposits plus what it received minus what it sent. |
| LedgerAdapter.EntriesAreNewest | internal/ledger/ledger.go:385-386 | An account's entries come in strictly falling commit time. |
| LedgerSafety.PerformKeeps | internal/ledger/ledger.go:121-216 | Every adapter call, whatever replies are lost, keeps the cluster sound: accounts agree with the log, capped accounts are solvent, ids are unique, and nothing posted is taken back. |
| LedgerSafety.PerformAllKeeps | internal/ledger/ledger.go:121-216 | So does every history of calls. |
| LedgerSafety.PerformPostsUnderItsId | internal/ledger/ledger.go:135-140 | A call posts under its own id and under no other. |
| LedgerTheorems.BooksBalance | internal/ledger/ledger.go:121-216 | Over every history: debits equal credits on each currency ledger, no id is posted twice, and each wallet holds its deposits plus receipts minus sendings, never less than nothing. |
| LedgerTheorems.PerformAllConserves | internal/ledger/ledger.go:121-216 | No history of calls changes the sum of a ledger's accounts. |
| LedgerTheorems.ResubmitIsFree | internal/ledger/ledger.go:145-151 | A call whose entry is posted changes nothing, and succeeds if it is answered. |
| LedgerTheorems.SuccessMeansPosted | internal/ledger/ledger.go:145-152 | A call that reports success has its entry in the log. |
| LedgerTheorems.ExtraSubmissionChangesNothing | internal/ledger/ledger.go:195-215 | Submitting a posted call again at any later point of any history leaves the same cluster as not submitting it. |
| LedgerOutcomes.DepositExactly | internal/ledger/ledger.go:121-153 | The amount moves from the currency's settlement account to the wallet under the deposit's id, and nothing else moves, exactly when the arguments are good, the wallet is open on no other ledger, the id is unused, the cluster does not refuse and the requests arrive; each answer has its exact condition. |
| LedgerOutcomes.TransferExactly | internal/ledger/ledger.go:174-216 | The same from wallet to wallet: insufficient funds are answered exactly when only the money was missing, different currencies exactly when an otherwise possible transfer names two. |
| LedgerOutcomes.EnsureExactly | internal/ledger/ledger.go:234-255 | Opening a wallet moves no money, and its three answers have their exact conditions. |
| Currencies.SameLedgerExactly | internal/ledger/types.go:8-42 | Two supported currencies share a ledger if and only if they are the same. |
| Currencies.CallLeavesOtherCurrencies | internal/ledger/ledger.go:121-216 | If each wallet is named with its own currency, a call changes no account of a currency it is not in: no wallet's, and not the settlement account. |
| Currencies.HistoryLeavesOtherCurrencies | internal/ledger/ledger.go:121-216 | Nor does any history of such calls, whatever replies are lost. |
| Currencies.EachCurrencyBalances | internal/ledger/ledger.go:312-326 | After any such history each currency's settlement account and wallets sum to nothing, and every entry is on the ledger of its wallets' one currency. |
| AccountKeys.KeysAreDistinct | internal/ledger/ledger.go:93-102 | As 128-bit ids two accounts coincide only if they are the same, or two wallets with the same uuid: not two ledgers, and never a wallet and a settlement account. |
| AccountKeys.OwnersHaveTheirOwnKeys | internal/ledger/ledger.go:93-102 | Different supported currencies, and different wallets with different uuids, have different 128-bit ids, and no wallet has a currency's. |
| AccountKeys.WalletsHaveKeys | internal/ledger/ledger.go:93-99 | There are uuids for wallets to have: 65536 of them, with keys all different. |
| AccountKeys.UuidsAreLegal | internal/ledger/ledger.go:93-99 | A random uuid is neither of the two ids a ledger reserves. |
| DepositWorker.TransactionRepository.moveIntent | internal/repository/transaction_repository.go:231-253 | One guarded update: the row moves exactly when its status is among those named, and the caller hears whether it did. |
| DepositWorker.PaymentProvider.Refund | internal/api/providers/paystack.go:240-263 | Pays an amount back exactly when all refunds together stay within the charge. |
| DepositWorker.PaymentWorker.fail | internal/queues/payment.go:395-405 | One uninterrupted run of the machine's closing of a failed payment. |
| DepositWorker.PaymentWorker.closeSucceeded | internal/queues/payment.go:323-337 | Marks SUCCESS from PENDING or FAILED, and sends a receipt only if it heard its own update succeed. |
| DepositWorker.PaymentWorker.credit | internal/queues/payment.go:282-338 | From the wallet's guards through the ledger to SUCCESS: one uninterrupted run of the machine. |
| DepositWorker.PaymentWorker.settle | internal/queues/payment.go:253-338 | The whole of settle, early returns and all, leaves what one uninterrupted run of the machine leaves and returns its error; `DepositResults` and `DepositOutcomes` say what those are, in terms of the rows, the ledger, the provider and the answers. |
| DepositWorker.PaymentWorker.refundLatePayment | internal/queues/payment.go:340-393 | Looks at the ledger for a FAILED row, skips the lookup for a REFUNDING one, then closes or refunds. |
| DepositWorker.PaymentWorker.refund | internal/queues/payment.go:372-393 | The refund goes out only after this task's own update to REFUNDING is heard to take effect. |
| DepositWorker.PaymentWorker.sendRefund | internal/queues/payment.go:380-392 | REFUNDED is written only after the provider is heard to accept. |
| DepositWorker.PaymentWorker.HandlePaymentWebhook | internal/queues/payment.go:159-180 | A success settles, a failure fails, anything else does nothing (`WebhookCredits`, `WebhookFails`, `WebhookIgnores`); after either, if it went well, the deposit's waiting poll is removed. |
| DepositWorker.PaymentWorker.cancelPoll | internal/queues/payment.go:182-196 | A waiting poll is removed unless the queue does not take the request. |
| DepositWorker.PaymentWorker.HandlePaymentPoll | internal/queues/payment.go:198-237 | Asks the provider only for a PENDING row and acts on its verdict; unknown, pending and abandoned payments are retried later (`PollWaits`, `PollFails`, `PollCredits`). |
| DepositWorker.PaymentWorker.HandlePollExhausted | internal/queues/payment.go:239-251 | Fails the row if it is still PENDING. |
| DepositWorker.DepositAlone | internal/queues/payment.go:310-321 | The adapter's Deposit is the machine's two ledger calls, one after the other. |
| DepositMachine.StepAdvances | internal/queues/payment.go:253-405 | Every call brings a task closer to its end: seven calls at most. |
| DepositSafety.StepIsGood | internal/queues/payment.go:253-405 | Any call of any task, however answered, keeps the invariant over all three systems and moves statuses only along their edges. |
| DepositSafety.ExecKeeps | internal/queues/payment.go:159-405 | So does any event: a crash, a new task, a new intent, a payment, a wallet change, other traffic. |
| DepositSafety.RunKeeps | internal/queues/payment.go:159-405 | The invariant holds in every reachable configuration. |
| DepositTheorems.EveryRun | internal/queues/payment.go:310-336 | With no hypothesis on interleaving: SUCCESS has its ledger entry for exactly this amount and wallet, at most one receipt goes out and only for a SUCCESS, refunds stay within the charge, REFUNDED returned at least the amount. |
| DepositTheorems.StatusFollowsEdges | internal/repository/transaction_repository.go:195-299 | One event moves a status only PENDING to FAILED or SUCCESS, FAILED to SUCCESS or REFUNDING, REFUNDING to REFUNDED. |
| DepositTheorems.StatusesSettle | internal/repository/transaction_repository.go:195-299 | Over any run a row changes status at most three times, and never again once SUCCESS or REFUNDED. |
| DepositSettling.PendingSettlesExactly | internal/queues/payment.go:259-337 | One uninterrupted, answered settle of a pending, uncredited deposit credits and closes it with one receipt, changing nothing else, if and only if the payment has its amount and its wallet's currency and the wallet is active and not taken by another ledger; otherwise nothing is paid and the attempt is not retried. |
| DepositTheorems.FailedButCreditedRecovers | internal/queues/payment.go:353-369 | One uninterrupted settle of a FAILED but credited row ends in SUCCESS with one receipt, no new entry and no refund. |
| DepositTheorems.LatePaymentReturnsExactly | internal/queues/payment.go:372-392 | One uninterrupted settle of an uncredited FAILED or REFUNDING row returns exactly the intent's amount if the provider still holds it, and otherwise leaves the row REFUNDING. |
| DepositResults.PendingOutcome | internal/queues/payment.go:253-338 | settle of a pending deposit, credited before or not, whichever replies are lost: when its entry is posted, on which ledger, when the row says SUCCESS and the receipt goes out, and exactly when the queue is told that it is done, never to try again, or to retry. |
| DepositResults.CreditedRetryExactly | internal/queues/payment.go:286-337 | An answered retry of a credited deposit that still says PENDING closes it if and only if it would be credited now; otherwise the row stays PENDING and the attempt is not retried. |
| DepositResults.LateOutcome | internal/queues/payment.go:340-393 | settle of a FAILED or REFUNDING row, whichever replies are lost: its status, what goes back, the receipt and the error. |
| DepositResults.NothingToSettle | internal/queues/payment.go:259-275 | An intent that could not be read is retried, a missing one is not, and one that says SUCCESS or REFUNDED is done; nothing changes. |
| DepositResults.FailsAlone | internal/queues/payment.go:239-251 | A payment given up on: a PENDING row says FAILED unless the update is lost, any other row stays, and nothing else changes. |
| DepositResults.PollWaits | internal/queues/payment.go:207-236 | Without a verdict, or with one that leaves the payment open, a poll changes nothing; a missing row is not retried, a resolved one is done, anything else is tried again. |
| DepositResults.PollFails | internal/queues/payment.go:230-231 | A verdict that the payment failed makes a PENDING row FAILED and does nothing else. |
| DepositResults.PollCredits | internal/queues/payment.go:227-229 | A verdict of success credits and closes the deposit exactly when the verdict's own amount and currency are those asked for and the wallet can take it. |
| DepositResults.PollChangesOnlyOnVerdict | internal/queues/payment.go:207-236 | A poll changes anything only for a PENDING row of which it heard that the payment succeeded or failed. |
| DepositResults.WebhookIgnores | internal/queues/payment.go:170-173 | A webhook that resolves nothing changes nothing and succeeds. |
| DepositResults.WebhookFails | internal/queues/payment.go:168-169 | A webhook's failure makes a PENDING row FAILED, unless the update is lost, and does nothing else. |
| DepositResults.WebhookCredits | internal/queues/payment.go:166-167 | A webhook's success credits and closes a pending deposit exactly when its own amount and currency are those asked for and the wallet can take it. |
| DepositOutcomes.LostReplyRetries | internal/queues/payment.go:253-405 | A lost reply, of whichever call, ends an attempt with an error that is retried. |
| DepositOutcomes.SettleExplained | internal/queues/payment.go:253-393 | With others acting before each of its calls, and any answers, the last call of settle decides its error: to be retried exactly if that reply was lost or the provider refused the refund; never again exactly if it found no intent, another amount, a wallet that is missing, inactive or in another currency, or a refusing ledger; and done only if the row is not PENDING any more. |
| DepositOutcomes.PollExplained | internal/queues/payment.go:198-237 | The same of a poll, which is retried later exactly if the provider was heard not to know how the payment ends. |
| DepositOutcomes.ResolvedIsLeftAlone | internal/queues/payment.go:266-275 | A row that says SUCCESS or REFUNDED is left alone. |
| DepositOutcomes.QuietIsAlone | internal/queues/payment.go:253-393 | With nobody acting in between, an attempt is one uninterrupted run of the machine. |
| DepositCurrencies.SuccessInItsCurrency | internal/queues/payment.go:310-323 | In every run in which wallets keep their currency, a SUCCESS deposit's entry is on the ledger of its wallet's currency, against that currency's settlement account. |
| DepositTheorems.AloneIsASchedule | internal/queues/payment.go:253-393 | An uninterrupted attempt is one schedule of the machine. |
| DepositTheorems.LostRefundNeverCloses | internal/queues/payment.go:381-385 | Once the provider's acceptance is lost, no later run closes the row. |
| DepositTheorems.PaidBackTwiceExactly | internal/api/providers/paystack.go:237-263 | A refund whose reply was lost can be paid out again if and only if the charge is at least twice the amount. |
| DepositWitness.RaceHappens | internal/queues/payment.go:353-385 | From any beginning, with an unseen intent and wallet, a run that credits and refunds the same payment. |
| DepositWitness.RefundReplyLost | internal/queues/payment.go:381-384 | From any beginning, a run that pays a refund out once and loses the reply, with any charge of at least the amount. |
| DepositWitness.RefundStaysOpen | internal/queues/payment.go:381-385 | From any beginning, a run after which no run closes the paid refund's row. |
| DepositWitness.PaidBackTwice | internal/api/providers/paystack.go:237-263 | From any beginning, a run that pays a customer charged twice the amount back twice. |
| DepositWitness.RefundClosesExactly | internal/queues/payment.go:372-392 | From REFUNDING some run ends in REFUNDED if and only if the provider can still pay the refund or a task has heard that it did. |
| DepositRace.InertForGood | internal/queues/payment.go:266-321 | An intent given up on and uncredited, which no task may still credit, stays uncredited in every run. |
| DepositRace.NeverCreditedAndRefunded | internal/queues/payment.go:353-385 | If no lookup comes back empty while another task may credit, no intent is ever both credited and refunded, and REFUNDING or REFUNDED implies no ledger entry. |
| DepositRace.RaceLost | internal/queues/payment.go:353-385 | The schedule on which the customer gets both, from any configuration where a lookup meets a task that may credit. |
| DepositRace.LookupIsSafeExactly | internal/queues/payment.go:353-385 | At an empty lookup of a charged FAILED intent: no run ends with it credited and refunded if and only if no task may still credit it. |
| TransferWorker.TransactionRepository.markTransfer | internal/repository/transfer_repository.go:108-130 | Status and reason change together, exactly when the row is PENDING. |
| TransferWorker.TransferWorker.loadWallets | internal/queues/transfer.go:183-210 | Either both wallets, active and in one currency, or the row closed or the attempt ended; no ledger lookup comes before failing. |
| TransferWorker.TransferWorker.finalizeFailed | internal/queues/transfer.go:212-223 | Fails a PENDING row with the reason; a row already resolved is no error. |
| TransferWorker.TransferWorker.submit | internal/queues/transfer.go:133-166 | The ledger's answer decides: SUCCESS, one of two failures, or a retry. |
| TransferWorker.TransferWorker.closeSucceeded | internal/queues/transfer.go:166-173 | Marks a PENDING row SUCCESS; a row already resolved is no error. |
| TransferWorker.TransferWorker.HandleTransferExecute | internal/queues/transfer.go:98-181 | The whole handler is one uninterrupted run of the machine. |
| TransferWorker.TransferWorker.HandleTransferExhausted | internal/queues/transfer.go:225-276 | The whole hook is one uninterrupted run of the machine. |
| TransferWorker.TransferAlone | internal/queues/transfer.go:141-148 | The adapter's Transfer is the machine's three ledger calls, one after the other. |
| TransferResults.StepErrs | internal/queues/transfer.go:98-210 | Any call of an execute attempt, amid whatever others do, ends it with an error to retry exactly if its reply was lost, and for good exactly if the row or a wallet is gone or a rejection was written down. |
| TransferResults.ExecuteOutcome | internal/queues/transfer.go:98-181 | An attempt at a pending transfer, whichever replies are lost: without both wallets nothing happens; an inactive wallet, two currencies, missing funds or a rejection fail the row with that reason, and a success closes it. |
| TransferResults.NothingToExecute | internal/queues/transfer.go:104-115 | A transfer that could not be read is retried, a missing one is not, and a resolved one is done; nothing changes. |
| TransferResults.AnsweredTransferExactly | internal/queues/transfer.go:98-181 | With every call answered a pending transfer succeeds if and only if both wallets are active, in one known currency and on its ledger, and it was posted already or the sender has the money; the money moves only then, and only once. |
| TransferResults.HookOutcome | internal/queues/transfer.go:225-276 | The hook, whichever replies are lost: SUCCESS for a posted entry, FAILED with its reason otherwise, and nothing for a row that is not PENDING or an answer not heard. |
| TransferCurrencies.SuccessInOneCurrency | internal/queues/transfer.go:141-166 | In every run in which wallets keep their currency, a SUCCESS transfer moved its amount on the ledger of the one currency both its wallets are in. |
| TransferSafety.RunKeeps | internal/queues/transfer.go:98-276 | The invariant over rows and ledger holds in every reachable configuration. |
| TransferSafety.SuccessMeansMoved | internal/queues/transfer.go:141-166 | Under any interleaving, SUCCESS means the ledger moved exactly this amount between exactly these wallets. |
| TransferCalm.RunCalm | internal/queues/transfer.go:98-276 | Runs that do not overlap, with wallets that hold still while a transfer is in flight, keep every row and task truthful. |
| TransferCalm.StatusTellsTheTruth | internal/queues/transfer.go:98-276 | Then FAILED means the money never moved and SUCCESS that it did, through retries, crashes, lost replies and the hook. |
| TransferCalm.RerunExactly | internal/queues/transfer.go:183-210 | A moved, still pending transfer run again is closed as SUCCESS if and only if its wallets are still active and on the entry's ledger, and as FAILED if both rows exist and anything else changed. |
| TransferCalm.ExhaustedTellsTheTruth | internal/queues/transfer.go:247-274 | The hook on its own marks SUCCESS exactly when the entry is posted. |
| TransferCalm.OverlapMisleads | internal/queues/transfer.go:247-274 | A hook between its lookup and its update and an execute task about to post leave a FAILED row whose money moved. |
| TransferRace.InertForGood | internal/queues/transfer.go:112-148 | A FAILED, unmoved transfer that no task may still post stays unmoved in every run. |
| TransferRace.FailedNeverMoved | internal/queues/transfer.go:98-276 | Under any interleaving, if no row is marked FAILED while its money has moved or another task of its own may still post, FAILED always means nothing moved. |
| TransferRace.SoundDecisionsTellTheTruth | internal/queues/transfer.go:98-276 | Under any interleaving, if every decision to mark a row FAILED is taken while no other task of its own may still post, on an empty lookup, a refused posting or an unposted transfer, and nobody reads the row as PENDING from then on, FAILED always means nothing moved. |
| TransferRace.MovesInTheEnd | internal/queues/transfer.go:133-148 | A task that may still post does so on some run, leaving every row as it is. |
| TransferRace.FailedStaysUnmovedExactly | internal/queues/transfer.go:98-276 | In every reachable configuration, a FAILED, unmoved transfer stays unmoved in every run if and only if no task of its own may still post. |
| TransferRace.FailedThenMoved | internal/queues/transfer.go:247-274 | From any beginning, a run that leaves a transfer FAILED whose money moved. |
| TransferRace.MovedThenFailed | internal/queues/transfer.go:199-205 | From any beginning, a run after which an answered retry marks a moved transfer FAILED. |
| TransferLifecycle.AmidResolves | internal/queues/transfer.go:98-181 | With others acting before each of its calls, the handler returns success only for a resolved row, and asks not to be retried only for a resolved row or a missing wallet. |
| TransferLifecycle.RunIsGentle | internal/queues/transfer.go:98-276 | Any run of the machine in which no wallet row is deleted is something the lifecycle results allow others to do. |
| TransferLifecycle.ExecuteResolvesInEveryRun | internal/queues/transfer.go:98-181 | In every run of the machine that deletes no wallet, an execute task that has ended with success, or asking not to be retried, has left its row SUCCESS or FAILED. |
| TransferLifecycle.QuietIsAlone | internal/queues/transfer.go:98-276 | With nobody acting in between, an attempt is one uninterrupted run of the machine. |
| TransferLifecycle.HookResolves | internal/queues/transfer.go:225-276 | With others acting before each of its calls, a hook whose calls get through leaves the row resolved. |
| TransferLifecycle.LeavesPendingExactly | internal/queues/transfer.go:98-181 | An undisturbed handler leaves a pending row pending exactly on the answers, wallets and ledger named, read off before it starts. |
| TransferLifecycle.EndsPendingForeseen | internal/queues/middleware.go:115-125 | An undisturbed attempt ends the task with its row pending if and only if it finds a wallet missing, or it is the last, leaves the row pending and the hook does not get through. |
| TransferLifecycle.HookExactly | internal/queues/transfer.go:225-276 | The hook leaves a pending row pending exactly when one of its calls does not get through. |
| TransferLifecycle.EndsPendingExactly | internal/queues/middleware.go:115-125 | Whatever others do before any call of the handler or the hook, an attempt ends the task with its row pending if and only if the handler left it so and asked not to be retried, or failed for the last time and the hook misses the row. |
| TransferLifecycle.HookAmidExactly | internal/queues/transfer.go:225-276 | Whatever others do between its calls, the hook leaves the row pending exactly when nobody else has resolved it by its last call and that call does not get through. |
| TransferLifecycle.TaskEnds | internal/queues/middleware.go:34-50 | A task is over after at most maxRetry + 1 attempts and its hook runs at most once. |
| TransferLifecycle.NothingIsLeftPending | internal/queues/transfer.go:225-276 | However calls fail, handlers panic and others act between any two calls, when the task of a transfer with readable payload and existing wallets stops, its row is not PENDING, if the hook gets through. |
| TransferLifecycle.TransferTaskResolves | internal/queues/transfer.go:69-79 | With the retry limit of transfer:execute, eleven attempts resolve the row. |
| Middleware.Chain | internal/queues/middleware.go:25-30 | The loop composes the wrappers with the first outermost. |
| Middleware.handlePayment | internal/queues/worker.go:172-176 | Whatever is added between, logging is outermost and recovery innermost. |
| Middleware.HookRunsExactly | internal/queues/middleware.go:115-125 | The hook runs once, after the handler, exactly when an attempt with no retry left fails or panics without asking not to be retried. |
| Middleware.OtherOrderMissesPanics | internal/queues/middleware.go:57-75 | With recovery outside the hook a panic on the last attempt would pass it by. |
| StableSort.SortedIsNewest | internal/api/services/transaction-history.go:48-50 | The sort puts newer rows first. |
| StableSort.SortedPermutes | internal/api/services/transaction-history.go:48-50 | It loses and invents no row. |
| StableSort.SortedIsStable | internal/api/services/transaction-history.go:48-50 | Rows of the same time keep their order. |
| StableSort.StableSortIsUnique | internal/api/services/transaction-history.go:48-50 | Only one list is newest first with every tie in the original order. |
| StableSort.SortedConcat | internal/api/services/transaction-history.go:47-50 | Sorting an appended list is merging the sorted parts, ties included. |
| StableSort.MergeOfPrefixes | internal/api/services/transaction-history.go:32-50 | The first n rows of a merge depend only on the first n rows of each side. |
| HistoryTheorems.PerWalletTake | internal/ledger/ledger.go:379-416 | Cutting every wallet's entries leaves the first rows of all wallets together. |
| HistoryTheorems.MergedTake | internal/api/services/transaction-history.go:32-50 | Cutting every source leaves the first rows of the merge, ties included. |
| HistoryTheorems.PageIsExact | internal/api/services/transaction-history.go:29-55 | A page ending within the cap, assembled from truncated sources, is the page of the full history, for any number of wallets. |
| HistoryTheorems.PageBelowTheCap | internal/api/services/transaction-history.go:32-55 | Past the cap, rows below index 500 are still all there and still right. |
| HistoryTheorems.PagingIsExactExactly | internal/api/services/transaction-history.go:16-35 | A non-empty page is right for every store if and only if it ends within the cap. |
| HistoryTheorems.PagesJoinUp | internal/api/services/transaction-history.go:29-55 | Page after page of any size joins up, with no gap and no repeat, to the first 500 rows of the full history. |
| HistoryRows.RowsAreTrue | internal/api/services/transaction-history.go:100-198 | Every row of a history is an unsettled deposit, coming in to its wallet with its amount, status and provider; an unsettled transfer, coming in to the recipient's wallet exactly if the user is its recipient and otherwise going out of the sender's; or a posted entry, going out of one of the user's wallets exactly if it debits it, with its amount and time. |
| HistoryRows.PageRowsAreTrue | internal/api/services/transaction-history.go:20-65 | So is every row of a page. |
| HistoryService.TransactionRepository.ListUnsettledIntents | internal/repository/transfer_repository.go:166-190 | The user's deposits that do not say SUCCESS, newest first, cut to the limit. |
| HistoryService.TransactionRepository.ListUnsettledTransfers | internal/repository/transfer_repository.go:192-216 | The transfers the user sent or receives that do not say SUCCESS, newest first, cut to the limit. |
| HistoryService.TransactionRepository.GetIntentsByIDs | internal/repository/transfer_repository.go:220-248 | Exactly the intents asked for that exist, and no others; an empty request cannot fail. |
| HistoryService.Normalise | internal/api/services/types.go:67-82 | A page is clamped to 1..100 rows from a position of at least 0: 20 rows by default, 100 at most, a legal one left alone. |
| HistoryService.Service.settledTransactions | internal/api/services/transaction-history.go:72-143 | The ledger's half, with each deposit's provider; which query's failure is reported. |
| HistoryService.Service.unsettledTransactions | internal/api/services/transaction-history.go:146-198 | Postgres' half, deposits before transfers; `HistoryRows.RowsAreTrue` says what each row shows. |
| HistoryService.Service.copyPage | internal/api/services/transaction-history.go:52-55 | The index loop copies the page and nothing else. |
| HistoryService.Service.ListMyTransactions | internal/api/services/transaction-history.go:20-65 | Succeeds if and only if every query it needs is answered, says which failure it was, and returns the specified page, whose rows `HistoryRows.PageRowsAreTrue` reads off the tables and the log, and the size of the merged window; for an offset so large that the sum with the limit wraps, an empty page past the rows. |
| HistoryCounts.DepositAppears | internal/repository/transfer_repository.go:176-180 | A deposit is in the untruncated history exactly once if and only if SUCCESS means credited and back; otherwise twice or never. |
| HistoryCounts.TransferAppears | internal/api/services/transaction-history.go:174-196 | A transfer is there once for each of the user's wallets it touched, if it moved, and once more if it does not say SUCCESS. |
| HistoryCounts.NoTransferGoesMissing | internal/api/services/transaction-history.go:100-196 | In every reachable world of the transfer saga a transfer of one of the user's wallets is listed: once for each of those wallets if it moved, and once more until it says SUCCESS. |
| HistoryCounts.NoDepositGoesMissing | internal/api/services/transaction-history.go:100-172 | In every reachable world of the deposit saga each deposit is listed: once, or twice exactly as long as it is credited and does not say SUCCESS. |
| HistoryCounts.DepositShowsTwice | internal/api/services/transaction-history.go:100-172 | From any beginning, a run and a store in which a deposit is listed twice. |
| Money.String | shared/money.go:66-73 | The printing code, with its 64-bit negation and truncating division, yields the canonical text of every amount. |
| Money.PrintsExactly | shared/money.go:66-73 | The text reads as the exact amount with two decimal places if and only if it is not that of the least int64. |
| Money.PrintingIsInjective | shared/money.go:66-73 | No two amounts print alike. |
| Money.NewMoneyRoundsHalfAway | shared/money.go:34-38 | A major amount becomes the minor amount nearest to the float product, and of two equally near ones the one farther from zero. |
| Money.TwoRoundings | shared/money.go:36-55 | Below 2^51 the error of the two roundings stays strictly below one half. |
| Money.MajorRoundTrip | shared/money.go:36-55 | NewMoney(m.Major()) is m for every amount below 2^51, under any rounding to nearest. |
| Money.ParseRoundTrip | shared/money.go:45-51 | ParseMoney(m.String()) is m for every amount below 2^51; the text of the least int64, and of no other, is refused. |
| Money.PlainReadersAreStandard | shared/money.go:45-51 | There are float and JSON readers that do all the results ask of them. |
| Money.MoneyVariable.MarshalJSON | shared/money.go:113-115 | Emits the amount's text. |
| Money.MoneyVariable.UnmarshalJSON | shared/money.go:118-134 | Takes a number, else a quoted number, else fails and leaves the variable as it was. |
| Money.JsonRoundTrip | shared/money.go:113-134 | Through JSON and back, as a number or quoted, an amount below 2^51 is itself. |
| Money.LeastDoesNotUnmarshal | shared/money.go:113-134 | The least int64's JSON is refused by any reader. |
| Money.ErrorBoundAloneExactly | shared/money.go:36-55 | The limit of what the error bound alone can show, not of what the code does: for amounts up to 2^53 it settles those below 2^51 and the whole major units. |
| Float64.Binary64IsNearest | shared/money.go:36-55 | Rounding to nearest on the 64-bit grid is exact on integers up to 2^53 and otherwise within 2^-53 of the value. |
| Float64.Binary64IsCoarse | shared/money.go:36-55 | From 2^53 to 2^54 such a rounding gives only even integers. |
| Float64.FineComesBack | shared/money.go:36-55 | NewMoney(m.Major()) is m for every amount below 100 * 2^45, with either way of breaking ties. |
| Float64.FirstLost | shared/money.go:36-55 | 3518437208883202 comes back as 3518437208883203. |
| Float64.RoundTripExactly | shared/money.go:36-55 | Every amount up to a limit, of either sign, comes back through major units if and only if the limit is below 3518437208883202. |
| Float64.ParseRoundTripExactly | shared/money.go:45-73 | The same of ParseMoney(m.String()). |
| Float64.HalfUpIsBinary64 | shared/money.go:36-55 | Some function rounds to nearest on the 64-bit grid. |
| Money.OddAmountsAreLost | shared/money.go:36-55 | Between 2^53 and 2^54 every odd amount comes back as another. |
| OtpStore.Store.Generate | internal/otp/store.go:100-123 | Both keys change in one step, for this identifier only. |
| OtpStore.Store.Verify | internal/otp/store.go:125-166 | The whole of Verify, with any reply lost, is one uninterrupted run of the machine on its identifier's two keys and touches no other key; `OtpResults` says what it answers and leaves, from the keys, the guess and the replies. |
| OtpResults.VerifyAnswersExactly | internal/otp/store.go:125-166 | Which of its five results a Verify gives, whichever replies are lost: too many tries exactly if the counted attempt is past the limit; otherwise verified, mismatch or not found exactly if a live code has the guess's hash, has another, or there is none. |
| OtpResults.VerifyLeavesExactly | internal/otp/store.go:129-163 | Both keys go after a match and after a lock-out, if the DEL takes effect; otherwise the code stays, the counter counts on, and a first attempt gives it a lifetime. |
| OtpResults.IssuedCodeVerifiesExactly | internal/otp/store.go:100-166 | A code issued and then guessed wrongly any number of times, by answered calls one after the other, verifies if and only if it has not expired and fewer wrong guesses were made than MaxAttempts. |
| OtpResults.VerifiedMeansMatched | internal/otp/store.go:146-165 | Under any interleaving a call has answered Verified only if its own guess was compared with a live code and was the code. |
| OtpResults.SuccessesAreAcceptances | internal/otp/store.go:155-165 | The successes the other results count are the calls that answer Verified. |
| OtpStore.KeysDiffer | internal/otp/store.go:92-93 | No identifier's code or attempt key is any other identifier's key. |
| OtpStore.VerifyIsASchedule | internal/otp/store.go:125-166 | An uninterrupted Verify is one schedule of the machine. |
| OtpMachine.ExecGuarded | internal/otp/store.go:100-166 | Every event keeps: the counter outlives the code, and every comparison was counted or overtaken. |
| OtpMachine.ComparedAtMost | internal/otp/store.go:125-166 | Between two Generates the code is compared at most MaxAttempts times, plus once for each call the Generate overtook. |
| OtpTheorems.ComparedTooOftenExactly | internal/otp/store.go:110-165 | After a Generate, and until the next, some run compares the code more than MaxAttempts times if and only if a call stood between its count and its comparison when the Generate came. |
| OtpTheorems.ComparedTooOften | internal/otp/store.go:110-165 | From an empty database, whatever the positive lifetime and limit, a run with one comparison too many. |
| OtpTheorems.SuccessPossibleExactly | internal/otp/store.go:125-166 | Until the next Generate a Verify can succeed (again) if and only if one has matched already, or the code is alive and someone may still try it. |
| OtpTheorems.AcceptedAtMostOnce | internal/otp/store.go:155-165 | With calls that do not overlap and a final DEL that takes effect, a code is accepted at most once and never compared again. |
| OtpTheorems.OverlapAcceptsTwice | internal/otp/store.go:146-163 | Two calls that fetched the code before either dropped it both succeed. |
| OtpTheorems.AcceptedTwice | internal/otp/store.go:125-166 | From an empty database, whatever the positive lifetime and limit, a run on which one code is accepted twice. |
| OtpTheorems.OvertakenIsNotCounted | internal/otp/store.go:110-112 | A call a Generate overtakes compares the new code without being counted for it. |
| WalletModel.NormalisedAccepts | internal/api/services/wallet-service.go:27-33 | A wallet may be opened for exactly the supported codes in any case and with any blanks around them, or for blanks alone, and is stored under the code itself. |
| WalletModel.TrimSpaceExactly | internal/api/services/wallet-service.go:27 | Trimming takes away all blanks at both ends and nothing else. |
| WalletModel.SupportedFoldsToItself | internal/ledger/types.go:22-42 | Supported codes that agree up to case are the same code. |
| WalletModel.PerformAllOnOwnLedgers | internal/ledger/ledger.go:312-326 | If every call names each wallet with its own currency, every account is on its wallet's ledger. |
| WalletModel.FailsOnlyForFunds | internal/ledger/ledger.go:174-216 | Then an answered transfer between two such wallets succeeds if already made or funded, and otherwise fails for insufficient funds and nothing else. |
| WalletService.Repository.CreateWallet | internal/repository/transaction_repository.go:90-122 | The first of five account numbers that is not taken is used, unless an earlier attempt's reply is lost; account numbers stay unique. |
| WalletService.Service.CreateWallet | internal/api/services/wallet-service.go:18-60 | Which reply the caller gets and what the table holds then, exactly; a wallet created is the user's, active, in the normalised currency and under an account number that was free; every wallet's currency is supported; a call on its own keeps one wallet per user and currency; a failing ledger does not undo the wallet. |
| WalletRace.SafeRun | internal/api/services/wallet-service.go:38-55 | If no lookup comes back empty while another call for the same user and currency is about to insert, every run keeps one wallet per user and currency. |
| WalletRace.OnePerCurrencyExactly | internal/api/services/wallet-service.go:38-55 | With that kept from here on, every run does so if and only if no two calls for the same user and currency stand between lookup and insert now, and none does for a user who has the wallet. |
| WalletRace.EmptyLookupExactly | internal/api/services/wallet-service.go:38-55 | An empty lookup is harmless if and only if no other call for the same user and currency stands between its lookup and its insert. |
| WalletRace.TwoWallets | internal/api/services/wallet-service.go:38-55 | From no wallets at all, a run that gives a user two in one currency. |
| WalletRace.CreateWalletIsTwoSteps | internal/api/services/wallet-service.go:38-55 | What CreateWallet leaves in the table is what its lookup and its insert leave, one after the other. |
| WalletRace.CreationAlone | internal/api/services/wallet-service.go:38-55 | Undisturbed, lookup and insert add at most one row, only for a user without such a wallet. |
| WalletService.Service.withBalances | internal/api/services/wallet-service.go:114-144 | Every wallet with its ledger balance, in order, or an error. |
| WalletService.Service.checkSufficientBalance | internal/api/services/transfer-service.go:141-162 | Refuses only a sender known to be short; an unanswered balance lets the transfer through. |
| WalletService.Service.findRecipient | internal/api/services/transfer-service.go:83-111 | The wallet an account number leads to, or exactly which guard on it does not hold: the account does not exist, it is the sender's own, it is in another currency, or it is not active. |
| WalletService.Service.InitiateTransfer | internal/api/services/transfer-service.go:35-140 | Each of its eleven replies if and only if its guard is the first not to hold or its query the first not answered; the row is written exactly when every guard holds and the insert takes effect, and the event goes out exactly when the transfer is accepted. |
| TransferJourney.LetInEndsByFunds | internal/queues/transfer.go:98-181 | A transfer let in between wallets unchanged since, after any ledger history, ends SUCCESS if posted or funded and otherwise FAILED for insufficient funds. |

## Left out

- HTTP routes, authentication, configuration, dependency wiring, logging and telemetry: plumbing.
- Emails, activity records and the event bus: a success receipt is a counter, a published event a list entry.
- Missing configuration (no ledger, no provider), undecodable payment payloads and malformed uuids: those branches return before any call; only a transfer task's undecodable payload is modelled.
- What removing a waiting poll does to the queue: the machine lets any poll run or die at any time, removed or not.
- The number of polls of a pending deposit: whether the queue counts retries it is told are no failure is outside this code, so no bound is claimed.
- TransferLifecycle.TaskEnds: counts attempts that end; an attempt whose process dies is redelivered by the queue library, which is not part of this model.
- Starting a checkout (internal/api/services/payment-service.go:35-152): only the row it writes, the range of its amount and its failing of the row are there, as events of the machine.
- SQL, Redis and TigerBeetle internals: a guarded UPDATE, a DEL of two keys, a create request and a query are one step each. 128-bit overflow of a ledger account's totals does not occur in the model.
- A cluster's pending or voided transfers, fees and withdrawals, and opening all settlement accounts at start-up (internal/ledger/ledger.go:257-276): nothing in the sagas uses them.
- The order in which Postgres returns rows of equal creation time: taken to be the table's order, the same for every query.
- Ledger commit times and row creation times are compared as plain numbers of one clock.
- LedgerAdapter.Ledger.WalletMovements: the requests for the several wallets are all answered or all lost, because the first failure ends the call either way.
- The memory a window that wrapped to a huge one would need: the listing's result is stated for it, its cost is not.
- Money.ParseRoundTrip: what the float and JSON readers make of text that is not a plain decimal (exponents, infinities) is not specified, apart from refusing two signs.
- Above 3518437208883202 single amounts still come back through floats; which ones is not claimed.
- Reading amounts from database columns, and adding and subtracting them: field copies.
- WalletService.Service.CreateWallet: the random choice of account numbers is a list of candidates given to it.
- WalletModel.NormalisedAccepts: blanks and letters outside ASCII are not modelled; EqualFold, TrimSpace and ToUpper are the ASCII part of Go's functions.
- AccountKeys.KeysAreDistinct: takes a uuid's first byte as the least significant; the result does not depend on that.
- User registration, profiles, account deletion and the other listings: simple field updates and reads.
