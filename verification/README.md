# A verified model of the finance backend

This project models five parts of the backend and proves what they keep over every run and every
interleaving. Each `.dfy` file is one module; `dafny verify dfyconfig.toml` checks them all.

**Refresh tokens.** `RefreshTokens` holds the two tables, the conditional writes to them, and the
service as methods over a store. `RefreshProtocol` splits the same service into one step for each
read and write and lets any number of clients interleave them with logins, logouts and a moving
clock; `RefreshService` shows that the steps of one client, uninterrupted, are the service.
`RefreshSafety` proves the shape of every reachable token table and that revocation is final,
`RefreshEvents` what a logout and a login do to the clients that come after, `RefreshOutcomes` says when a token is answered and that detected reuse is carried through, and
`RefreshRace` proves that racing refreshes share one successor. Raw tokens are free terms, so
deriving and hashing are injective and acyclic.

**Balance ledger.** `Accounts` has the four kinds of account, `Transactions` their effects, `Ledger`
the operations as functions of the stored tables, and `TransactionRepository` the same operations as
methods that load mutable account objects, measure deltas and write rows. `OperationResults` states,
field by field, the rows, balances and movements an accepted operation leaves. `EffectAgreement` compares
the three pieces of code that compute effects. `LedgerRuns`, `LedgerTheorems` and `LedgerUndo` prove
that stored balances, movements and recomputation agree in every reachable ledger, and when a
transaction can be undone. `Locking` and `Serializability` run the operations concurrently under row
locks, and `LockingAlone` one of them by itself. `SettlementJob`, `BalanceAudit` (backfill and reconciliation), `NetWorth` and `CompletionDates`
build on them.

**Recurrence.** `Recurrence` sets the chained, clamping dates of the generator against the one-jump
end dates and the closed-form installment number. `Generation` is the catch-up loop,
`GenerationRuns` its composition and resumption, `RecurringRepository` the store and the paging job,
`OverlappingRuns` runs from stale snapshots, which
`OverlappingProjection` sets against the projection. `InstallmentPurchase` ties a purchase to exactly its
rows, `InstallmentCount` infers the count back, and `MonthProjection` proves that the generator and
the projection never count a date twice or lose one.

**Invoices.** `CivilCalendar` and `PlainDates` are the Gregorian calendar and its `YYYY-MM-DD`
strings, compared as strings. `InvoiceCalendar` partitions dates into billing periods,
`InvoiceStatement` telescopes from one invoice to the next, and `CardInvoice` ties the open invoice to
the balance the ledger stores on the card.

**Reports.** `ReportCache` is the generation-numbered cache under interleaved readers and writers,
`BalanceEvolution` the series computed backward, `FixedBills` the greedy matching of monthly bills.

Dates are day numbers in one time zone, months are `12 * year + month - 1`, instants are
milliseconds, and amounts are whole cents. A database transaction is one step that takes effect as a
whole or not at all, except in `Locking`, where locking and committing are steps of their own.

## What the code does not promise

Seven statements one might expect of the code do not hold as they stand. Each comes with the inputs that
break it and the exact condition under which it holds.

- Undoing a transaction right after it was accepted can be refused: a card taken below zero by a
  scheduled credit accepts a charge that can then not be deleted
  (`SettlementJob.AnOverpaidCardCannotUndo`). `LedgerUndo.UndoingACreation` gives the condition, both ways.
- The payment service and the repository compute the same effects except from a card: the service
  lowers that card's debt where the repository raises it (`EffectAgreement.PayingFromACardDiffers`). From
  a card they agree only where both refuse because the card paid into owes less
  (`EffectAgreement.PaymentServiceAgrees`, `EffectAgreement.CardsCanRefuseAlike`); the service's check of
  the source keeps such payments out.
- Billing periods compared as strings miss the first dates of year 1000 and the last of year 9999, where
  a period reaches into a year of another length (`InvoiceCalendar.FirstDayWithoutInvoice`,
  `InvoiceCalendar.LastDayWithoutInvoice`). They hold every other date of a four-digit year, in one
  period each among the keys such dates have (`InvoiceCalendar.PeriodsPartitionDates`).
- In four-digit years, the open invoice of a card can differ from its stored balance in two ways: an income or expense that
  names the card as destination shows as a payment though no balance was credited
  (`CardInvoice.AStrayExpenseIsShownAsPayment`), and a row confirmed before its day is on the balance
  already (`CardInvoice.AnEarlyConfirmationIsNotShown`). `CardInvoice.OpenInvoiceAgainstTheBalance`
  gives the difference.
- The general and investment series of the balance evolution do not move as the balances they are named
  for where a transfer is between two investments, out of a card, or from an investment to a card;
  `BalanceEvolution.InvestmentSeriesAgainstBalances` and `BalanceEvolution.GeneralSeriesAgainstBalances`
  give the difference, which is nothing exactly where there is no such transfer
  (`BalanceEvolution.NothingTransferred`).
- Inferring the count of installments gives up too early where an earlier date is the later string
  (`InstallmentCount.FiveDigitYearsGiveUp`); `InstallmentCount.InferFromEndDate` gives the condition.
- A bulk revocation that works on the rows its statement saw misses a successor inserted meanwhile
  (`RefreshOutcomes.ARotationMeanwhileEscapes`, `RefreshOutcomes.SeenTokensAreRevoked`); its revoked
  session still refuses it (`RefreshOutcomes.EscapedTokensAreRefused`).

## Model

| member | source | states |
|---|---|---|
| `RefreshTokens.AuthStore.RotateToken` | src/infra/databases/drizzle/repositories/refresh-token.repository.ts:32-56 | the token changes to ROTATED and its successor is inserted only if it was still ACTIVE; otherwise neither is written |
| `RefreshTokens.AuthStore.RevokeBySessionId` | src/infra/databases/drizzle/repositories/refresh-token.repository.ts:58-63 | every token of the session becomes REVOKED, no other row changes |
| `RefreshTokens.AuthStore.Renew` | src/infra/databases/drizzle/repositories/auth-session.repository.ts:22-35 | moves the expiry only of a session that is not revoked |
| `RefreshTokens.AuthStore.Revoke` | src/infra/databases/drizzle/repositories/auth-session.repository.ts:49-59 | stamps the session once; a second revocation changes nothing |
| `RefreshTokens.AuthStore.FindHead` | src/modules/user/features/refresh-token/refresh-token.service.ts:199-219 | the loop answers what the bounded walk over successors answers |
| `RefreshTokens.AuthStore.RecoverReusedToken` | src/modules/user/features/refresh-token/refresh-token.service.ts:167-197 | reuse within grace answers the head; a revoked token, late reuse, an invalid session or a broken chain revokes tokens and session |
| `RefreshTokens.AuthStore.Execute` | src/modules/user/features/refresh-token/refresh-token.service.ts:64-154 | one refresh with no one else around: what is stored after it and the token it answers |
| `RefreshService.UninterruptedStepsAreTheService` | src/modules/user/features/refresh-token/refresh-token.service.ts:64-219 | the separate steps of the interleaved protocol, taken without interruption, store and answer exactly what the service call does |
| `RefreshOutcomes.ActiveTokensAreRotated` | src/modules/user/features/refresh-token/refresh-token.service.ts:116-154 | an active token is answered its successor, and rotated, exactly when neither it nor its session has run out; else nothing changes |
| `RefreshOutcomes.UsedTokensAreRecoveredOrRevoked` | src/modules/user/features/refresh-token/refresh-token.service.ts:167-197 | a used token is answered the session's active token when reused in time, at most three successors behind, and that token has not expired; any other reuse revokes every token of the family and the session |
| `RefreshOutcomes.DetectedReuseIsCarriedThrough` | src/modules/user/features/refresh-token/refresh-token.service.ts:242-261 | once a client starts to revoke, then by the time it has finished no token of the family is usable and the session is revoked, whatever the others did meanwhile |
| `RefreshOutcomes.SeenTokensAreRevoked` | src/infra/databases/drizzle/repositories/refresh-token.repository.ts:58-63 | a bulk update on the rows its statement saw leaves the family revoked exactly when it saw every token not revoked before |
| `RefreshOutcomes.ARotationMeanwhileEscapes` | src/infra/databases/drizzle/repositories/refresh-token.repository.ts:32-63 | a rotation that commits between the start and the writes of such an update leaves its successor active |
| `RefreshOutcomes.EscapedTokensAreRefused` | src/modules/user/features/refresh-token/refresh-token.service.ts:183-184 | a token of a revoked session is answered nothing, active or not |
| `RefreshSafety.ReachableStatesAreInOrder` | src/modules/user/features/refresh-token/refresh-token.service.ts:116-261 | any interleaving of logins, refreshes, logouts, revocations and clock ticks keeps the token table in order |
| `RefreshSafety.RotationNeverConflicts` | src/infra/databases/drizzle/repositories/refresh-token.repository.ts:32-56 | the insert of a successor never violates the unique hash |
| `RefreshSafety.SessionsAreChains` | src/modules/user/features/refresh-token/refresh-token.service.ts:116-261 | a session's tokens are one successor chain from its root: the last ACTIVE and the earlier ones ROTATED, or all REVOKED |
| `RefreshSafety.ReachableSessionsAreChains` | src/modules/user/services/issue-auth-session.service.ts:41-66 | the same in every state reached from empty tables |
| `RefreshSafety.ActiveIsUnique` | src/infra/databases/drizzle/repositories/refresh-token.repository.ts:32-56 | no session ever has two ACTIVE tokens |
| `RefreshSafety.RevokedFamiliesNeverComeBack` | src/infra/databases/drizzle/repositories/refresh-token.repository.ts:58-63 | once the tokens of a family are revoked, the bulk update taken as one step, no later event gives it an ACTIVE token |
| `RefreshSafety.RevokedSessionsStayRevoked` | src/infra/databases/drizzle/repositories/auth-session.repository.ts:22-59 | no renewal or later revocation undoes or re-dates the revocation of a session |
| `RefreshSafety.LogoutIsFinal` | src/modules/user/features/logout-user/logout-user.service.ts:19-31 | a client that reads its session after the revocation is never answered a token, however the rest interleaves |
| `RefreshEvents.LogoutRevokesTheSession` | src/modules/user/features/logout-user/logout-user.service.ts:19-31 | a logout stamps its session with the time, unless it was revoked before, and writes nothing else |
| `RefreshEvents.LogoutEndsTheSession` | src/modules/user/features/logout-user/logout-user.service.ts:19-31 | after a logout in any trace the session stays revoked, with that stamp |
| `RefreshEvents.NoTokenAfterLogout` | src/modules/user/features/refresh-token/refresh-token.service.ts:80-113 | every client that reads a session after its logout, whenever it came, ends without a token, if it ends |
| `RefreshEvents.LoginStoresSessionAndRoot` | src/modules/user/services/issue-auth-session.service.ts:41-87 | a login stores a session that is not revoked, and then one active token of it |
| `RefreshEvents.RotatingWinsOrReloads` | src/infra/databases/drizzle/repositories/refresh-token.repository.ts:32-56 | a rotation either wins and answers the successor it stored, or has written nothing and loads the token again |
| `RefreshEvents.UnknownUsersAreRefused` | src/modules/user/features/refresh-token/refresh-token.service.ts:106-111 | a user that is not found is answered nothing, whatever the token |
| `RefreshSafety.FindHeadIsExact` | src/modules/user/features/refresh-token/refresh-token.service.ts:199-219 | the walk answers a token exactly when it is the session's active one, one to three successors away |
| `RefreshRace.RacersShareTheSuccessor` | src/modules/user/features/refresh-token/refresh-token.service.ts:156-219 | any number of refreshes of one active token, within grace, in a session that stays valid and that nobody else writes to: all that finish answer the one successor, none revokes the family |
| `RefreshRace.RaceOpens` | src/modules/user/entities/RefreshToken.ts:109-115 | such a race begins wherever the token is active and token and session outlast the grace period |
| `Accounts.Account.Debit` | src/modules/account/entities/BaseAccount.ts:55-67 | accepted exactly for a positive amount that, but for checking, is covered; takes it off, or changes nothing |
| `Accounts.Account.RegisterCharge` | src/modules/account/entities/CreditCardAccount.ts:88-102 | accepted exactly for a positive amount within the limit; the card never ends above it |
| `Accounts.Account.PayInvoice` | src/modules/account/entities/CreditCardAccount.ts:104-119 | accepted exactly for a positive amount that is owed; the card never ends below zero |
| `Accounts.Account.SettleScheduledCharge` | src/modules/account/entities/CreditCardAccount.ts:121-132 | accepted for every positive amount, limit or no limit |
| `Accounts.Account.SettleScheduledCredit` | src/modules/account/entities/CreditCardAccount.ts:134-145 | accepted for every positive amount, owed or not |
| `Accounts.Account.AdjustLimit` | src/modules/account/entities/CreditCardAccount.ts:170-181 | a limit that is set must be positive; it may be removed; the balance stays |
| `Accounts.AcceptedEffectIsSigned` | src/modules/account/entities/CreditCardAccount.ts:147-153 | every accepted effect moves the balance by its amount, with the sign turned round on cards, and nothing else |
| `Accounts.EffectsKeepSolvency` | src/modules/account/entities/BaseAccount.ts:43-67 | no effect takes cash or investment below zero; a card leaves 0..limit only by a scheduled effect |
| `Accounts.UndoingAnEffect` | src/modules/account/entities/BaseAccount.ts:43-67 | undoing an accepted effect restores the row, and is refused exactly when a guard was already broken before it |
| `Transactions.Created` | src/modules/transaction/entities/Transaction.ts:72-99 | accepted exactly when the amount is positive and a transfer has a different destination |
| `Transactions.EffectsContribute` | src/modules/transaction/entities/Transaction.ts:308-351 | the effects of a transaction add up to its signed contribution to each account; the reverted effects to its negative |
| `Transactions.StatusEffectsContribute` | src/modules/transaction/entities/Transaction.ts:291-300 | a status change moves each account by the difference of the two contributions |
| `Transactions.RunEffectsMoves` | src/infra/databases/drizzle/repositories/transaction.repository.ts:543-574 | effects accepted one after another move every balance by their signed sum |
| `TransactionRepository.ApplyBalanceEffects` | src/infra/databases/drizzle/repositories/transaction.repository.ts:543-574 | the loop over mutable accounts measures exactly the deltas of the effects, or stops with the same error |
| `TransactionRepository.CreateServiceDeltas` | src/modules/transaction/features/create-transaction/create-transaction.service.ts:167-233 | the create service on mutable accounts computes the deltas of its specification |
| `TransactionRepository.PaymentDeltas` | src/modules/transaction/features/pay-credit-card-invoice/pay-credit-card-invoice.service.ts:151-190 | likewise for the invoice payment |
| `TransactionRepository.Repository.LockAccounts` | src/infra/databases/drizzle/repositories/transaction.repository.ts:518-536 | every existing account named is loaded as a fresh object with its stored row |
| `TransactionRepository.Repository.WriteBalanceDeltas` | src/infra/databases/drizzle/repositories/transaction.repository.ts:598-629 | each non-zero delta, in id order, moves its account and appends a movement with the new balance |
| `TransactionRepository.Repository.CreateWithBalanceUpdate` | src/infra/databases/drizzle/repositories/transaction.repository.ts:220-315 | commits the whole creation or nothing |
| `TransactionRepository.Repository.UpdateWithBalanceEffect` | src/infra/databases/drizzle/repositories/transaction.repository.ts:317-364 | reverts the old effects and applies the new ones, or changes nothing |
| `TransactionRepository.Repository.DeleteWithBalanceEffect` | src/infra/databases/drizzle/repositories/transaction.repository.ts:366-408 | reverts the effects and removes the row, or changes nothing |
| `TransactionRepository.Repository.UpdateStatusWithBalanceEffect` | src/infra/databases/drizzle/repositories/transaction.repository.ts:410-489 | changes the status conditionally with its effects, or changes nothing and says why |
| `TransactionRepository.Repository.CreateWithOpeningMovement` | src/infra/databases/drizzle/repositories/account.repository.ts:24-42 | a new account comes with one opening movement of its balance |
| `TransactionRepository.Repository.UpdateAccount` | src/infra/databases/drizzle/mappers/account.mapper.ts:85-97 | editing an account never writes its balance |
| `TransactionRepository.Pay` | src/modules/transaction/features/pay-credit-card-invoice/pay-credit-card-invoice.service.ts:175-179 | debits the source and then pays the card; the first refusal is the answer |
| `EffectAgreement.CreateServiceAgrees` | src/modules/transaction/features/create-transaction/create-transaction.service.ts:167-233 | for every transaction the entity accepts, the create service and the repository give the same verdict, the same error and the same moves |
| `EffectAgreement.PaymentServiceAgrees` | src/modules/transaction/features/pay-credit-card-invoice/pay-credit-card-invoice.service.ts:151-190 | paying into a card, the payment service and the repository agree exactly when the source is not a card, or both refuse since the card paid into owes less: the rows, not the verdicts, decide |
| `EffectAgreement.AcceptedPaymentsAgree` | src/modules/transaction/features/pay-credit-card-invoice/pay-credit-card-invoice.service.ts:151-190 | of payments the service accepts, exactly those from an account that is not a card agree with the repository |
| `EffectAgreement.PayingFromACardDiffers` | src/modules/transaction/features/pay-credit-card-invoice/pay-credit-card-invoice.service.ts:172-188 | from a card that owes 100, the service would take 50 off its debt where the repository adds 50 |
| `EffectAgreement.CardsCanRefuseAlike` | src/modules/transaction/features/pay-credit-card-invoice/pay-credit-card-invoice.service.ts:172-179 | the second case is real: 50 from a card that owes 100 to one that owes 10, refused alike |
| `EffectAgreement.SameMovesWriteAlike` | src/infra/databases/drizzle/repositories/transaction.repository.ts:598-629 | deltas that agree up to zeroes write the same ledger, movements included |
| `LedgerRuns.PerformFollows` | src/infra/databases/drizzle/repositories/transaction.repository.ts:220-460 | every operation, accepted or refused, moves an account, its movements and its recomputation by the same amount |
| `OperationResults.AcceptedCreate` | src/infra/databases/drizzle/repositories/transaction.repository.ts:220-315 | a created row is stored as asked, and each balance moves by its own share, with one movement of it for each account moved |
| `OperationResults.AcceptedPlan` | src/infra/databases/drizzle/repositories/transaction.repository.ts:245-315 | so is the first row of a plan |
| `OperationResults.AcceptedPay` | src/modules/transaction/features/pay-credit-card-invoice/pay-credit-card-invoice.service.ts:59-190 | a payment takes its amount off the source and off what the card owes, and is stored as a completed transfer of that day, field by field |
| `OperationResults.RefusedPay` | src/modules/transaction/features/pay-credit-card-invoice/pay-credit-card-invoice.service.ts:43-91 | why a payment is refused, first reason first |
| `OperationResults.AcceptedUpdate` | src/modules/transaction/features/update-transaction/update-transaction.service.ts:121-141 | an update stores what was asked, field by field, keeps workspace and rule, and moves each balance by the share of the new fields less that of the old row |
| `OperationResults.AcceptedDelete` | src/infra/databases/drizzle/repositories/transaction.repository.ts:366-408 | a delete removes the row and takes its share back |
| `OperationResults.AcceptedStatus` | src/infra/databases/drizzle/repositories/transaction.repository.ts:410-460 | a status change changes the status alone, and adds or takes back the share of the row |
| `OperationResults.RefusedRows` | src/infra/databases/drizzle/repositories/transaction.repository.ts:462-489 | why a row is not found, or its status not changed |
| `OperationResults.AcceptedGenerate` | src/modules/transaction/jobs/generate-recurring-transactions/generate-recurring-transactions.service.ts:266-288 | a generated row is stored pending and moves nothing |
| `OperationResults.AcceptedOpen` | src/infra/databases/drizzle/repositories/account.repository.ts:24-42 | an account opens at the balance asked for, a card at zero, with one movement of it |
| `OperationResults.OpeningIsAccepted` | src/modules/account/entities/CreditCardAccount.ts:28-57 | and exactly those not below zero, or with a positive limit, open |
| `OperationResults.AcceptedLimit` | src/infra/databases/drizzle/mappers/account.mapper.ts:85-97 | a limit edit changes a limit of a card and nothing else |
| `OperationResults.WriteAppends` | src/infra/databases/drizzle/repositories/transaction.repository.ts:598-629 | the movements of an operation: in id order, one for each balance changed, with its transaction, cause, change and new balance |
| `LedgerTheorems.ReachableLedgersAreSound` | src/infra/databases/drizzle/repositories/transaction.repository.ts:220-460 | after any run from an empty ledger each balance is the opening plus the signed effects of the completed transactions, and the sum of its movements, each of which recorded the running sum; cash and investment are not negative |
| `LedgerTheorems.RunsKeepTheDrift` | src/infra/databases/drizzle/repositories/transaction.repository.ts:220-460 | from any ledger at all, no run changes how far a balance is from its recomputation or from its movements |
| `LedgerTheorems.PerformKeepsLimits` | src/modules/account/entities/CreditCardAccount.ts:88-181 | one operation keeps solvency, and the card limit unless it settles on schedule or lowers the limit |
| `LedgerTheorems.GuardedRunsStayWithinLimits` | src/modules/account/entities/CreditCardAccount.ts:88-181 | over whole runs without those two, cards stay in 0..limit |
| `LedgerTheorems.OpenedIsIndexed` | src/infra/databases/drizzle/repositories/opening-movement.ts:16-29 | an account opened with its movement starts in agreement with both |
| `LedgerTheorems.PerformKeepsReferences` | src/infra/databases/drizzle/repositories/transaction.repository.ts:220-460 | stored transactions stay well shaped and refer to stored accounts |
| `LedgerUndo.UndoingACreation` | src/infra/databases/drizzle/repositories/transaction.repository.ts:366-408 | deleting a transaction just created is accepted exactly when the inverse effects passed on the rows before it, and then restores every account and transaction |
| `LedgerUndo.GuardedLedgersCanUndo` | src/modules/account/entities/CreditCardAccount.ts:104-119 | that condition holds while cards are within their limits |
| `SettlementJob.AnOverpaidCardCannotUndo` | src/modules/account/entities/CreditCardAccount.ts:134-145 | reached from an empty ledger: a credit settled on schedule takes a card to -100; its next charge is accepted and cannot be deleted |
| `SettlementJob.Execute` | src/modules/transaction/jobs/settle-card-installments/settle-card-installments.service.ts:66-108 | the loop leaves the run of the settlements it processed, its counts are the counts of their verdicts, each on the ledger the earlier ones left, and it stops early only out of time |
| `SettlementJob.Settle` | src/modules/transaction/jobs/settle-card-installments/settle-card-installments.service.ts:116-144 | settled, already completed, or refused, and the ledger step it takes |
| `SettlementJob.DueTransactionsSettle` | src/modules/transaction/jobs/settle-card-installments/settle-card-installments.service.ts:116-144 | a due card transaction is never refused, and moves its card by its own amount, charge up and credit down |
| `Serializability.OperationsKeepToTheirLocks` | src/infra/databases/drizzle/repositories/transaction.repository.ts:281-382 | an operation changes only its own row and the accounts it locks |
| `Serializability.CommitIsTheOperation` | src/infra/databases/drizzle/repositories/transaction.repository.ts:322-382 | what a client computes from rows read under lock is what the operation would do at the moment of its commit |
| `Serializability.InterleavingsAreSerial` | src/infra/databases/drizzle/repositories/transaction.repository.ts:226-460 | any number of concurrent operations, with aborts, ends with the ledger of one serial order: the order they finished in |
| `Locking.NoWaitCycle` | src/infra/databases/drizzle/repositories/transaction.repository.ts:518-536 | clients that lock one row and then accounts in ascending order never wait in a circle |
| `Locking.SomeClientCanStep` | src/infra/databases/drizzle/repositories/transaction.repository.ts:518-536 | while any client runs, some client is not waiting and its next step is enabled |
| `LockingAlone.OperationsFinishAlone` | src/infra/databases/drizzle/repositories/transaction.repository.ts:322-382 | a client that meets no other performs its operation |
| `LockingAlone.AbortsLeaveNoTrace` | src/infra/databases/drizzle/repositories/transaction.repository.ts:323-325 | an aborted client leaves its locks and no trace |
| `Serializability.InterleavingsNeverDeadlock` | src/infra/databases/drizzle/repositories/transaction.repository.ts:281-292 | no reachable state has a wait cycle |
| `BalanceAudit.ApplyAccount` | scripts/backfill-balance-movements.ts:252-271 | an uncovered account gets one opening of balance minus movements; a covered one is left alone |
| `BalanceAudit.RunApply` | scripts/backfill-balance-movements.ts:252-271 | visits every account once; its counts are of the accounts without an opening and of their missing openings by sign, its total their sum, all as they were before |
| `BalanceAudit.BackfillExplainsEveryAccount` | scripts/backfill-balance-movements.ts:168-271 | after it the movements of every account it covered sum to the balance |
| `BalanceAudit.BackfillIsIdempotent` | scripts/backfill-balance-movements.ts:252-271 | a second run changes nothing |
| `BalanceAudit.StaleOpeningStillMatches` | scripts/backfill-balance-movements.ts:210-228 | an opening computed from an earlier snapshot still makes the sums match after any operations in between |
| `BalanceAudit.ReconcileIsExact` | src/modules/transaction/jobs/reconcile-balances/reconcile-balances.service.ts:61-99 | reports exactly the covered accounts whose balance differs from their movements, once each, in order |
| `BalanceAudit.DivergencesSayTheGap` | src/modules/transaction/jobs/reconcile-balances/reconcile-balances.service.ts:41-53 | each report names the balance, the sum of the movements and the gap between them |
| `BalanceAudit.ReachableLedgersReconcile` | src/modules/transaction/jobs/reconcile-balances/reconcile-balances.service.ts:61-99 | a ledger grown from nothing has no divergence |
| `BalanceAudit.BackfilledLedgersReconcile` | src/modules/transaction/jobs/reconcile-balances/reconcile-balances.service.ts:61-99 | after a backfill and any run, an account diverges exactly when it did before |
| `NetWorth.NetWorthIsOpeningsPlusFlow` | src/modules/report/features/get-balance-evolution/get-balance-evolution.handler.ts:489-501 | net worth, cards counted against, is openings plus completed income minus completed expense |
| `NetWorth.OperationsMoveNetWorthByFlow` | src/modules/report/features/get-balance-evolution/get-balance-evolution.handler.ts:489-501 | every operation but opening an account moves net worth by the change of that flow |
| `NetWorth.TransfersKeepNetWorth` | src/modules/transaction/entities/Transaction.ts:319-339 | making, completing, taking back, editing or deleting a transfer, and paying an invoice, leave it unchanged |
| `BalanceEvolution.CalculateNetPeriodEffect` | src/modules/report/features/get-balance-evolution/get-balance-evolution.handler.ts:161-174 | the loop computes income minus expense of the resolved types |
| `BalanceEvolution.DailyMap.Accumulate` | src/modules/report/features/get-balance-evolution/get-balance-evolution.handler.ts:213-229 | each row lands in the bucket of its own day, found by the rendered date |
| `BalanceEvolution.BuildDailySummary` | src/modules/report/features/get-balance-evolution/get-balance-evolution.handler.ts:267-288 | each day shows its own income and expense and the balance carried through it |
| `BalanceEvolution.BuildEvolution` | src/modules/report/features/get-balance-evolution/get-balance-evolution.handler.ts:295-307 | a series computed back from the current total ends at it, for any resolver |
| `BalanceEvolution.BuildReport` | src/modules/report/features/get-balance-evolution/get-balance-evolution.handler.ts:342-393 | the three series end at the three current totals |
| `BalanceEvolution.InvestmentSeriesAgainstBalances` | src/modules/report/features/get-balance-evolution/get-balance-evolution.handler.ts:149-159 | the investment series moves as the balances of the investments, plus every transfer between two of them |
| `BalanceEvolution.GeneralSeriesAgainstBalances` | src/modules/report/features/get-balance-evolution/get-balance-evolution.handler.ts:104-147 | the general series moves as the checking and cash balances, less every transfer out of a card and every transfer from an investment to a card or an investment |
| `BalanceEvolution.NothingTransferred` | src/modules/report/features/get-balance-evolution/get-balance-evolution.handler.ts:104-147 | those differences are nothing exactly when no row is such a transfer |
| `BalanceEvolution.BuildNetWorthEvolution` | src/modules/report/features/get-balance-evolution/get-balance-evolution.handler.ts:295-307 | on every day the backward series is the forward recomputation: openings plus the flow dated up to that day |
| `BalanceEvolution.ListedRowsRepresent` | src/modules/report/features/get-balance-evolution/get-balance-evolution.handler.ts:441-469 | one row for each completed income or expense of the window represents it |
| `CompletionDates.OnlyConfirmingCompletesEarly` | src/modules/transaction/features/create-transaction/create-transaction.service.ts:143-160 | an operation completes a row dated after today exactly when it confirms one by hand |
| `CompletionDates.TimelyRunsCompleteNothingEarly` | src/modules/transaction/features/update-transaction/update-transaction.service.ts:100-119 | over runs without that, as days go by, nothing is completed before its day |
| `CivilCalendar.YearStartIsDayFromYear` | src/utils/calendarMonth.ts:1-2 | the month-by-month calendar agrees with DayFromYear of section 21.4.1 of ECMA-262 |
| `CivilCalendar.MonthAndDayRoundTrip` | src/utils/calendarMonth.ts:1-2 | month and day name one date and are read back from it |
| `CivilCalendar.AddMonths` | src/providers/date/implementations/Dayjs.ts:24-31 | adding months keeps the day of the month, clamped to its length |
| `PlainDates.ParseRender` | src/modules/account/valueObjects/InvoiceCalendar.ts:23-31 | parsing a rendered date gives its year, a month from 1 to 12 and its day, and these name the date |
| `PlainDates.StringOrderIsTotal` | src/modules/account/valueObjects/InvoiceStatement.ts:43-50 | of two strings exactly one comes first, unless they are one |
| `PlainDates.RenderIsInjective` | src/modules/account/valueObjects/InvoiceCalendar.ts:23-24 | two dates never render alike |
| `PlainDates.FourDigitOrder` | src/modules/account/valueObjects/InvoiceCalendar.ts:23-24 | in four-digit years the order of strings is the order of dates (section 5.1 of RFC 3339) |
| `InvoiceCalendar.NewCalendar` | src/modules/account/valueObjects/InvoiceCalendar.ts:61-73 | accepts exactly the valid cycles |
| `InvoiceCalendar.CyclesAccepted` | src/modules/account/valueObjects/InvoiceCalendar.ts:61-73 | due days 1 to 28, closing 5, 7 or 10 days before |
| `InvoiceCalendar.BoundsFollowTheCycle` | src/modules/account/valueObjects/InvoiceCalendar.ts:92-118 | an invoice falls due on its due day of its own month, closes the set days before and begins after the last closing |
| `InvoiceCalendar.PeriodsAreContiguous` | src/modules/account/valueObjects/InvoiceCalendar.ts:92-109 | the exclusive end of an invoice is the start of the next |
| `InvoiceCalendar.KeyIsThePeriodOfTheDate` | src/modules/account/valueObjects/InvoiceCalendar.ts:75-109 | the key of a date is the one period that contains it |
| `InvoiceCalendar.PeriodsPartitionDates` | src/modules/account/valueObjects/InvoiceCalendar.ts:75-109 | among all keys that dates of four-digit years have, such a date lies, by strings, in the period of its own key and of no other, and in that one exactly when the period begins and ends in four-digit years |
| `InvoiceCalendar.OwnPeriodHoldsTheDate` | src/modules/account/valueObjects/InvoiceCalendar.ts:75-109 | so every four-digit date lies in the period of its own key exactly when that period begins and ends in four-digit years |
| `InvoiceCalendar.FirstDayWithoutInvoice` | src/modules/account/valueObjects/InvoiceCalendar.ts:92-109 | one exception is real: 1 January of year 1000, due day 5, closing 10 days before |
| `InvoiceCalendar.LastDayWithoutInvoice` | src/modules/account/valueObjects/InvoiceCalendar.ts:92-109 | so is the other: 31 December 9999 with the same cycle, whose own invoice ends in year 10000 |
| `InvoiceCalendar.ALateDateInAnEarlyInvoice` | src/modules/account/valueObjects/InvoiceCalendar.ts:92-109 | among three-digit keys a date has no single period: year 9985 also lies in January 999 |
| `InvoiceCalendar.AllocatesTheLatestClosedInvoice` | src/modules/account/valueObjects/InvoiceAllocation.ts:16-25 | without a target the invoice is the latest one closed by the payment date |
| `InvoiceCalendar.AllocatesTheTarget` | src/modules/account/valueObjects/InvoiceAllocation.ts:17-17 | an invoice asked for is the one paid |
| `InvoiceStatement.TotalIsBalanceUpToClosing` | src/modules/account/valueObjects/InvoiceStatement.ts:36-63 | a total is charges minus payments of everything posted up to the closing |
| `InvoiceStatement.StatementsTelescope` | src/modules/account/valueObjects/InvoiceStatement.ts:36-63 | what one invoice totals is what the next carries in |
| `InvoiceStatement.OpenInvoiceTotalsPosted` | src/modules/account/valueObjects/InvoiceStatement.ts:36-63 | the open invoice totals everything dated up to today and nothing later |
| `InvoiceStatement.OpenInvoiceTotalsEverything` | src/modules/account/valueObjects/InvoiceStatement.ts:36-63 | with nothing dated after today that is the whole ledger |
| `CardInvoice.EntriesAgreeWithTheLedger` | src/modules/account/features/get-credit-card-invoice/get-credit-card-invoice.handler.ts:62-69 | charges minus payments of a card equal its recomputed balance exactly when no income or expense names the card as destination |
| `CardInvoice.OpenInvoiceAgainstTheBalance` | src/modules/account/features/get-credit-card-invoice/get-credit-card-invoice.handler.ts:102-151 | in a sound ledger the open invoice totals the stored balance, less completed rows dated after today, less what stray rows hide, and asks for that total unless it is a credit |
| `CardInvoice.OpenInvoiceIsTheStoredBalance` | src/modules/account/features/get-credit-card-invoice/get-credit-card-invoice.handler.ts:102-151 | with no stray row it totals the stored balance exactly when the later completed rows cancel out, as they do when there are none; with none, exactly when there is no stray row |
| `CardInvoice.AStrayExpenseIsShownAsPayment` | src/modules/transaction/features/create-transaction/create-transaction.dto.ts:15-17 | reached from an empty ledger: an expense that names the card as destination leaves its balance at 0 and its open invoice at -50 |
| `CardInvoice.AnEarlyConfirmationIsNotShown` | src/modules/transaction/features/set-transaction-status/set-transaction-status.service.ts:27-42 | reached from an empty ledger: a charge of tomorrow confirmed today is on the balance and not on the open invoice |
| `CardInvoice.CardsOpenAtZero` | src/modules/account/entities/CreditCardAccount.ts:28-57 | every card reached by a run from an empty ledger opened owing nothing |
| `InvoiceStatement.RemainingIsChargesNotPaid` | src/modules/account/valueObjects/InvoiceStatement.ts:46-62 | what remains is what was charged up to the closing less everything paid, early or late |
| `InvoiceStatement.OwnAmountsAreSinceTheLastClosing` | src/modules/account/valueObjects/InvoiceStatement.ts:44-53 | the charges and payments of an invoice are what was added since the closing before it |
| `CardInvoice.PaidMeansCovered` | src/modules/account/features/get-credit-card-invoice/get-credit-card-invoice.handler.ts:76-88 | shown as paid exactly when something was due and all charged up to the closing has been paid |
| `CardInvoice.UnpaidStatusByDays` | src/modules/account/features/get-credit-card-invoice/get-credit-card-invoice.handler.ts:83-87 | of those not paid, current exactly when today lies in its period; of the others, overdue exactly when its due day is past, else closed |
| `CardInvoice.NoRequestIsTheOpenInvoice` | src/modules/account/features/get-credit-card-invoice/get-credit-card-invoice.handler.ts:122-127 | asking for none is asking for the one today belongs to |
| `CardInvoice.PendingIsOfThePeriod` | src/modules/account/features/get-credit-card-invoice/get-credit-card-invoice.handler.ts:147-150 | the pending amount is that of the pending charges of the card dated, by day, in the period |
| `CardInvoice.AvailableLimitAddsUp` | src/modules/account/features/get-credit-card-invoice/get-credit-card-invoice.handler.ts:151-163 | what is available, asked for and pending add up to the limit, or nothing is available |
| `Recurrence.StepsAgree` | src/utils/installmentSchedule.ts:26-65 | the step of the projection and the step of the generator are the same |
| `Recurrence.StepIsLater` | src/modules/transaction/services/calculate-next-generation-date.service.ts:16-35 | a step always moves forward |
| `Recurrence.JumpIsBetween` | src/utils/installmentSchedule.ts:26-72 | each one-jump date lies between its own chained date and the next |
| `Recurrence.ChainDrifts` | src/modules/transaction/services/calculate-next-generation-date.service.ts:26-30 | the chain does drift below the jump: from 31 January |
| `Recurrence.EndDateCountsTheChain` | src/utils/installmentSchedule.ts:67-72 | exactly n chained dates lie up to the end date of n installments |
| `Recurrence.JumpGap` | src/utils/installmentSchedule.ts:26-72 | consecutive end dates are at least a week apart |
| `Recurrence.ChainIsNumbered` | src/infra/databases/drizzle/repositories/installment-position.ts:13-30 | the k-th generated date (from zero) gets number k + 1, for every frequency and interval |
| `Recurrence.NumberIsShownExactlyInsideThePlan` | src/infra/databases/drizzle/repositories/installment-position.ts:32-45 | the number is shown for exactly the first count dates |
| `Recurrence.InsideAPlanTheSlotIsShown` | src/infra/databases/drizzle/repositories/installment-position.ts:32-45 | any date of a plan shows its slot, or nothing outside 1 to the count |
| `Recurrence.OutsideAPlanTheStoredNumberIsShown` | src/infra/databases/drizzle/repositories/installment-position.ts:35-37 | without a plan the stored number is shown |
| `Recurrence.PositionIsTheSlot` | src/infra/databases/drizzle/repositories/installment-position.ts:13-30 | for every frequency, a date has number p exactly when it lies in the p-th slot of whole steps from the start |
| `Recurrence.MovingWithinTheMonthKeepsTheNumber` | src/infra/databases/drizzle/repositories/installment-position.ts:21-30 | moving a generated row within its month keeps its number |
| `Generation.CreatedRulesAreAccepted` | src/modules/transaction/entities/RecurringTransaction.ts:50-73 | a rule that could be created generates transactions that can be |
| `Generation.GenerateTransactionsForRecurring` | src/modules/transaction/jobs/generate-recurring-transactions/generate-recurring-transactions.service.ts:237-313 | the loop emits one pending row for each date, with the workspace, accounts, amount and type of the rule and its id, leaves the rule at the last date, deactivates it past its end, and fails only on a refusal |
| `GenerationRuns.RunTakesSteps` | src/modules/transaction/jobs/generate-recurring-transactions/generate-recurring-transactions.service.ts:244-251 | the dates are the steps of the rule, from its start or one step after the last |
| `GenerationRuns.RunsAreCapped` | src/modules/transaction/jobs/generate-recurring-transactions/generate-recurring-transactions.service.ts:27-38 | at most 104 weekly, 24 monthly or 10 yearly rows a run, and fewer only for want of dates |
| `GenerationRuns.RunLeavesTheRule` | src/modules/transaction/jobs/generate-recurring-transactions/generate-recurring-transactions.service.ts:255-299 | the rule is left at the last date, inactive exactly when the run saw its end before its cap |
| `GenerationRuns.RunsCompose` | src/modules/transaction/jobs/generate-recurring-transactions/generate-recurring-transactions.service.ts:237-313 | below the cap, running to one threshold and then to a later one stores the same rows and rule as one run to the later |
| `GenerationRuns.CappedRunsResume` | src/modules/transaction/jobs/generate-recurring-transactions/generate-recurring-transactions.service.ts:255-299 | each capped run adds up to its cap and enough of them equal one uncapped run |
| `GenerationRuns.UnlistedHasNothing` | src/infra/databases/drizzle/repositories/recurring-transaction.repository.ts:158-183 | a rule the query leaves out has nothing to generate |
| `GenerationRuns.FullFollowsTheChain` | src/modules/transaction/jobs/generate-recurring-transactions/generate-recurring-transactions.service.ts:255-299 | what is emitted is the chain of the rule, in order |
| `GenerationRuns.FullMissesNothing` | src/modules/transaction/jobs/generate-recurring-transactions/generate-recurring-transactions.service.ts:255-299 | and exactly the dates up to threshold and end |
| `RecurringRepository.RecurringRepository.CreateGeneratedTransactions` | src/infra/databases/drizzle/repositories/recurring-transaction.repository.ts:185-222 | rows that exist are skipped and never overwritten, then the rule is updated; the count is of rows added |
| `RecurringRepository.PageIsTheNextDue` | src/infra/databases/drizzle/repositories/recurring-transaction.repository.ts:158-183 | a page holds the smallest due ids after the last one seen, in order, and is short only when no more are due |
| `RecurringRepository.GenerateForRecurring` | src/modules/transaction/jobs/generate-recurring-transactions/generate-recurring-transactions.service.ts:212-313 | one rule, with a failing write leaving the store as it was |
| `RecurringRepository.GenerateAll` | src/modules/transaction/jobs/generate-recurring-transactions/generate-recurring-transactions.service.ts:164-204 | the paging ends and visits exactly the rules due at the start, each once, in order of id; it counts the rules that fail, and every row it adds repeats, field by field, a rule that was due |
| `OverlappingRuns.OverlappingRunsKeepInv` | src/modules/transaction/jobs/generate-recurring-transactions/generate-recurring-transactions.service.ts:237-313 | runs that overlap and start from stale snapshots store only dates of the chain, once each, and progress stays covered by rows |
| `OverlappingRuns.LoadThenPersistIsTheRun` | src/modules/transaction/jobs/generate-recurring-transactions/generate-recurring-transactions.service.ts:212-225 | a run nobody overlaps is the run of the job, and one that is dropped leaves no trace |
| `OverlappingRuns.FinalRunCompletes` | src/infra/databases/drizzle/repositories/recurring-transaction.repository.ts:185-222 | whatever overlapped, one more run below the cap leaves exactly one row for each date up to threshold and end |
| `InstallmentPurchase.AmountsAddUp` | src/modules/transaction/features/create-installment-purchase/create-installment-purchase.service.ts:89-135 | first amount plus n - 1 others is the total; they differ by less than n cents |
| `InstallmentPurchase.PlanIsThePurchase` | src/modules/transaction/features/create-installment-purchase/create-installment-purchase.service.ts:84-136 | the first row is dated on the day of purchase and completed exactly when that day has come; rule and row carry what was asked, field by field |
| `InstallmentPurchase.PurchaseMovesMoneyOnItsDay` | src/modules/transaction/features/create-installment-purchase/create-installment-purchase.service.ts:140-174 | storing the plan moves the account by the first amount exactly when the day has come, and no other account |
| `InstallmentPurchase.PurchaseRefusals` | src/modules/transaction/features/create-installment-purchase/create-installment-purchase.service.ts:58-76 | what a purchase is refused for, first reason first |
| `InstallmentPurchase.PurchaseIsAccepted` | src/modules/transaction/features/create-installment-purchase/create-installment-purchase.service.ts:58-137 | accepted exactly for 2 to 365 parts, not on an investment account, not a transfer, at least one cent a part |
| `InstallmentPurchase.PlanStartsInOrder` | src/modules/transaction/features/create-installment-purchase/create-installment-purchase.service.ts:92-144 | a stored plan satisfies the invariant of the generator from the start |
| `InstallmentPurchase.PlanStaysInOrder` | src/modules/transaction/jobs/generate-recurring-transactions/generate-recurring-transactions.service.ts:237-313 | and any overlapping runs keep it, with never more than n rows |
| `InstallmentPurchase.NeverMoreThanPlanned` | src/utils/installmentSchedule.ts:67-72 | at no time more than n rows, all numbered 1 to n |
| `InstallmentPurchase.EnoughRunsComplete` | src/modules/transaction/jobs/generate-recurring-transactions/generate-recurring-transactions.service.ts:255-299 | enough capped runs complete any rule, from any state overlapping runs left |
| `InstallmentPurchase.PurchaseIsFullyGenerated` | src/modules/transaction/features/create-installment-purchase/create-installment-purchase.service.ts:84-136 | a purchase in n parts ends with exactly n rows whose amounts add up to what was bought |
| `InstallmentCount.InferInstallmentCount` | src/utils/installmentSchedule.ts:96-126 | the least count that matches either grid; none only if there is none, when both grids increase |
| `InstallmentCount.GridsIncrease` | src/utils/installmentSchedule.ts:67-72 | in four-digit years both grids of a schedule increase |
| `InstallmentCount.InferFromEndDate` | src/utils/installmentSchedule.ts:96-126 | when the grids differ by at most a day, infers n back from the end date of n, on either grid, exactly when at no earlier count both grids are past it as strings; in four-digit years, always |
| `InstallmentCount.FiveDigitYearsGiveUp` | src/utils/installmentSchedule.ts:121-123 | in year 10000 it gives up too early: two yearly installments 8000 years apart |
| `MonthProjection.SumRuleOccurrences` | src/modules/report/valueObjects/MonthProjection.ts:164-182 | the loop sums the amounts of the dates of the month that have no row, over the first 1000 dates |
| `MonthProjection.SumNotYetGeneratedOccurrences` | src/modules/report/valueObjects/MonthProjection.ts:184-199 | totals by type |
| `MonthProjection.FilterLosesNothing` | src/infra/databases/drizzle/repositories/month-projection.repository.ts:151-163 | the filter on rules drops none that still has a date in the month |
| `MonthProjection.ProjectionComputesShares` | src/modules/report/valueObjects/MonthProjection.ts:151-199 | the totals of the loop are the not-yet-generated shares, when the rules it walks end or leave the month within its limit on steps |
| `MonthProjection.GeneratorRunsConserve` | src/modules/transaction/jobs/generate-recurring-transactions/generate-recurring-transactions.service.ts:237-313 | any runs, any threshold, capped or failing, leave scheduled plus not-yet-generated unchanged |
| `MonthProjection.RunsStayWithinSteps` | src/modules/report/valueObjects/MonthProjection.ts:164-182 | no run takes a rule out of that limit |
| `MonthProjection.JobLeavesTheProjection` | src/modules/report/valueObjects/MonthProjection.ts:206-236 | the whole job leaves what the projection reports for the month; the limit is asked of the store before it alone |
| `OverlappingProjection.OverlappingRunsConserve` | src/modules/transaction/jobs/generate-recurring-transactions/generate-recurring-transactions.service.ts:237-313 | however runs load, overlap, write from stale snapshots or are lost, scheduled plus not-yet-generated stays what it was |
| `OverlappingProjection.FreshRulesAreAccounted` | src/modules/transaction/jobs/generate-recurring-transactions/generate-recurring-transactions.service.ts:244-251 | rules that have generated nothing yet are where that may begin |
| `ReportCache.RedisService.ReadCounter` | src/infra/cache/redis/RedisService.ts:276-280 | initialises the counter only if absent, then reads it |
| `ReportCache.RedisService.IncrementCounter` | src/infra/cache/redis/RedisService.ts:282-292 | initialises the counter only if absent, then increments it |
| `ReportCache.RedisService.Execute` | src/modules/report/features/get-month-summary/get-month-summary.service.ts:103-244 | a report under the current generation if there is one, else a fresh one, kept under it |
| `ReportCache.ReadingAlone` | src/modules/report/features/get-month-summary/get-month-summary.service.ts:104-244 | an uninterrupted reader answers the entry of its generation and day, or four queries of what is committed, kept under them |
| `ReportCache.ReachableIsInOrder` | src/shared/cache/report-cache.ts:8-19 | what is stored under a generation reflects every write bumped up to it |
| `ReportCache.ReportsReflectBumpedWrites` | src/modules/report/features/get-month-summary/get-month-summary.service.ts:104-244 | a report whose generation was read after the bump of a write reflects that write in every query, cached or not, whatever older readers store late |
| `FixedBills.ClosestIndexIsExact` | src/modules/report/valueObjects/FixedBills.ts:29-47 | the row found is the first of the closest similar rows, and the only such row |
| `FixedBills.Pool.TakeClosestSimilar` | src/modules/report/valueObjects/FixedBills.ts:29-47 | takes that row out of the pool |
| `FixedBills.TakingMovesOneRow` | src/modules/report/valueObjects/FixedBills.ts:29-47 | taking moves one similar row and leaves the others |
| `FixedBills.EligibleRowsAreRare` | src/modules/report/valueObjects/FixedBills.ts:49-64 | completed rows, of each category all or none, and never more than two |
| `FixedBills.SortingIsStable` | src/modules/report/valueObjects/FixedBills.ts:66-73 | rows of one amount are looked at in the order they came in |
| `FixedBills.SimilarIsWithinOneAndAHalf` | src/modules/report/valueObjects/FixedBills.ts:12-17 | both positive, and neither more than one and a half times the other |
| `FixedBills.MedianOfTwoOrThree` | src/utils/median.ts:1-7 | of two the mean, a half going up; of three the middle one |
| `FixedBills.MedianIsSimilarToAll` | src/utils/median.ts:1-7 | two or three amounts similar to one of them are similar to their rounded median |
| `FixedBills.DetectFixedBills` | src/modules/report/valueObjects/FixedBills.ts:66-90 | the loop finds the bills of its specification |
| `FixedBills.CandidatesAreBilledExactly` | src/modules/report/valueObjects/FixedBills.ts:75-80 | a candidate is billed exactly when some older month still has a similar row |
| `FixedBills.BillsKeepTheCategory` | src/modules/report/valueObjects/FixedBills.ts:69-87 | a bill has the category of its row, taken from the newest month, largest first |
| `FixedBills.LimitsOfDetection` | src/modules/report/valueObjects/FixedBills.ts:49-71 | no more than two rows of a category and no more than three months are looked at |
| `FixedBills.ContributorsAreExcluded` | src/modules/report/valueObjects/FixedBills.ts:66-90 | every row that contributes to a bill is similar to the bill stored |
| `FixedBills.DetectionMovesRows` | src/modules/report/valueObjects/FixedBills.ts:71-87 | each older row contributes to at most one bill |
| `FixedBills.SumFixedBillsDue` | src/modules/report/valueObjects/FixedBills.ts:92-101 | the sum of the bills no current expense cancels |
| `FixedBills.DueAndCancelledAreAllBills` | src/modules/report/valueObjects/FixedBills.ts:92-101 | due and cancelled amounts are all bills; each current expense cancels at most one, similar to it |
| `FixedBills.NothingLeftCancelsADueBill` | src/modules/report/valueObjects/FixedBills.ts:92-101 | every bill is due or cancelled, and no expense that cancelled nothing is similar to a bill that stays due |

## Left out

- RefreshSafety.RevokedFamiliesNeverComeBack: takes the bulk revocation of tokens as one step. Under READ
  COMMITTED a rotation that commits between the snapshot and the writes of that `UPDATE` inserts a
  successor the update does not see, which then stays active in a family otherwise revoked; that token
  is outside this statement and outside the chain shape of `RefreshSafety.SessionsAreChains`.
- Lock and statement timeouts: an abort that leaves no trace, possible at any moment.
- Locks other than row locks taken by the operations themselves (foreign-key share locks, index waits).
- Ids drawn by the database or the client: an account id is fresh when the account is opened.
- Account deletion and its cascades, which remove source rows without reverting destinations.
- Edits of a recurring rule's schedule, and deactivation or activation by hand.
- The refusals of the create and update services that only narrow what reaches the ledger: transfers into
  a card, accounts of another workspace. The operations here accept more, so what is proved covers them.
- Title, category, description and user or workspace lookups; where a lookup can fail it is a parameter.
- Entities `RefreshToken` and `AuthSession` as mutable objects: they are rows, updated as values.
- Conversion of `bigint` balances to `number`, and floating-point display of amounts.
- The ratio test of similar amounts as a floating division: it is the exact comparison with 3/2.
- Order of keys in the maps that carry deltas: deltas are written in id order, as the code sorts them.
- SQL grouping of report rows: the evolution asks only that the rows of a day add up to that day's flow.
- The variable-spending window, usual expense and saving rates of the month summary.
- Daylight saving and several time zones: one zone, so a purchase's account zone is the generator's.
- The lock and the processed-day marker around the generator job: overlapping runs are allowed instead.
- Cache expiry by age (entries may vanish at any time), and a counter lost while the clock has not
  reached the last number given out: a counter is set anew only from a clock at or past it.
- Retries, logging, alerts, controllers, presenters and real cryptography.
- Pending rows that belong to no recurring rule: the generator never touches them, so `Scheduled` leaves
  them out of the month's pending total.
- MonthProjection.ProjectionComputesShares: speaks of months where every rule the projection walks ends or
  leaves the month within 1000 steps, the limit of the loop itself.
- BalanceEvolution.BuildNetWorthEvolution: speaks of windows with no completed row dated after them,
  as the series ends at the stored total whatever is dated later.
- RefreshRace.RacersShareTheSuccessor: speaks of races nobody else writes into; a logout or a rotation
  of the successor in between ends the race, and the safety results above still hold.
- ReportCache.ReportsReflectBumpedWrites: says nothing of a write whose bump failed.
