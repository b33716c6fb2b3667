# Marspay: verified models of its money and session protocols

Marspay is a wallet backend: consumers pay merchants, send money, top up and withdraw; merchants are paid out, partly
held back, and may be disputed; sessions rotate and can be revoked. Its correctness lives in small protocols over shared
state: a ledger whose balances are sums of immutable entries, a balance cache that must never show more than those sums,
rows that several workers claim, and counters that many requests touch. This project models those protocols in Dafny and
proves what they promise.

Two kinds of model appear side by side. Protocols that run concurrently are state machines: every database statement
that commits on its own, every committed transaction and every cache operation is one step, and steps of different calls
interleave freely; the theorems are about all runs. Code that changes state step by step is also written as classes and
loops, and each method is proved against the transition function the theorems are about. SQL tables are sequences or
maps, a row's id is its position where ids are assigned in order, time is an integer, and random ids, hashes and secrets
are plain values. What another system decides (the database's verdict on a commit, a bank's answer, a client's patience)
is a parameter.

| module | what it covers |
|---|---|
| `Money`, `Ledger`, `Accounts`, `Movements` | half-up fees, postings and their validation, the append-only log, account names, what each kind of movement does to every account |
| `Wallet`, `Reservations`, `Services` | the balance cache and its Redis twin, reserve/commit/release under interleaving, the consumer services one call at a time |
| `PaymentLinks`, `Topups`, `Refunds` | a link raced for by several payers, provider callbacks, cumulative partial refunds |
| `Sessions`, `AuthStore`, `SessionSteps`, `SessionCache`, `LoginRuns`, `PinLock`, `Principals` | refresh rotation and replay, the auth store, its operations cut into their separate statements, what the session cache may still answer, logins over whole runs, PIN and one-time-code limits, the cached-principal codec |
| `Admission`, `Outbox`, `Webhook` | the concurrency limiter, the outbox relays, webhook retries |
| `Idempotency`, `IdempotencyStore` | concurrent callers of one key; the key store, recorder and middleware |
| `Risk`, `Payouts`, `Holdbacks`, `Reconcile` | risk scoring, the float and instant payouts, the holdback sub-ledger and disputes, reconciliation |

`dafny verify dfyconfig.toml` checks everything.

Where the code and its documentation part, the models follow the code:

- The README (line 66 and lines 93-97) says that replaying a rotated refresh token kills the whole chain. In the
  database it does (`Sessions.ReplayIsFinal`). `Refresh` drops only the replayed session's cache entry, so an access
  token of the same family that is still cached goes on being accepted until its entry expires
  (`SessionCache.ReplayLeavesCachedTokens` says exactly which, `SessionCache.NewestTokenSurvivesReplay` shows it happens).
- Logout, rotation and device revocation drop the cached tokens so that they stop at once, yet a verification that read
  the database before the revocation writes its verdict afterwards, however late, and the token is accepted for another
  minute or until it expires (`SessionCache.LateEntryOutlivesLogout`). They are final exactly when no verification in
  between the two holds the token (`SessionCache.LogoutIsImmediateIff` and its companions).
- `docs/database.md` (line 279) gives idempotency rows a retention of 24 hours. Nothing deletes them, so a key in
  progress that nobody owns is blocked for good (`Idempotency.BlockedIffOrphaned`). A key gets there in exactly three
  ways: its outcome is not stored, its owner dies, or its claim takes effect behind an error
  (`Idempotency.OnlyThreeWaysIn`).
- The README (line 59) calls the cache disposable: drop it and balances rebuild from the ledger. A warm is safe exactly
  when the value it writes is at most what the ledger then holds less all reservations in flight, and hides no more than
  the credits still waiting for their invalidation (`Reservations.WarmIsSafeIff`). For a value just read that is when
  nothing is reserved; for a value read earlier it is not enough that nothing is reserved
  (`Reservations.FreshWarmIsSafeIff`, `Reservations.StaleWarmIsSafeIff`). The code ensures neither, and
  `Reservations.UndisciplinedRunsOverspend` shows, for either way to fail, a run that spends the same money twice.

## Model

| member | source | states |
|---|---|---|
| `Money.Quot` | internal/money/money.go:67-69 | Go's truncating division, between which multiples it lands for either sign |
| `Money.HalfUpIsNearest` | internal/money/money.go:67-72 | half-up rounding gives the nearest integer, ties up |
| `Money.NearestIsUnique` | internal/money/money.go:67-72 | no other integer meets that bound |
| `Money.FeeBounds` | internal/money/money.go:59-73 | a fee is between zero and the amount, and is the whole amount exactly when what is left is at most half a unit |
| `Ledger.Sum` | internal/ledger/posting.go:46-52 | the loop computes the fold of the entries |
| `Ledger.Validate` | internal/ledger/posting.go:54-83 | the first fault in the order of the checks, none exactly for a valid posting |
| `Ledger.CheckPassesValid` | internal/ledger/posting.go:54-83 | a posting passes exactly when it has an id, two entries, no empty account, no zero entry and balances |
| `Ledger.NegatedUndoes` | internal/ledger/posting.go:155-172 | reversed entries cancel the original on every account |
| `Ledger.ReversalCancels` | internal/ledger/posting.go:155-172 | a posting and its reversal together leave every balance as it was |
| `Ledger.NegatedIsValid` | internal/ledger/posting.go:155-172 | the reversal of a valid posting is valid |
| `Ledger.Reverse` | internal/ledger/posting.go:155-172 | the built reversal is the negation of the original, or the validation fault |
| `Ledger.PostingConserves` | internal/ledger/postgres.go:56-76 | appending a valid posting keeps the global sum zero and adds its effect to each balance |
| `Ledger.Repo.Post` | internal/ledger/postgres.go:25-76 | all entries of a valid, new posting or none; the books stay balanced |
| `Ledger.Repo.Balance` | internal/ledger/postgres.go:86-95 | a balance is the fold of the account's entries |
| `Accounts.WalletNames` | internal/ledger/accounts.go:18-43 | no payable, holdback, clearing or platform account is named like a user wallet |
| `Accounts.WalletsAreDistinct` | internal/ledger/accounts.go:18-27 | different users have different wallets |
| `Movements.PaymentEffect` | internal/ledger/posting.go:85-123 | when a payment posting is accepted, and what it does to every account |
| `Movements.PayoutEffect` | internal/ledger/posting.go:125-153 | the same for an instant payout with holdback |
| `Movements.TransferEffect` | internal/ledger/movements.go:17-33 | the same for a transfer |
| `Movements.TopupEffect` | internal/ledger/movements.go:46-68 | the same for a top-up with admin fee |
| `Movements.WithdrawalEffect` | internal/ledger/movements.go:80-139 | the same for withdrawals and bill payments |
| `Movements.RefundEffect` | internal/ledger/movements.go:141-167 | the same for a refund; refused exactly when nothing is left for the merchant to give |
| `Movements.DisputeEffect` | internal/ledger/movements.go:203-229 | the same for a dispute refund split between holdback and float |
| `Wallet.Memory.Warm` | internal/wallet/wallet.go:33-38 | the entry becomes the given balance, nothing else changes |
| `Wallet.Memory.Invalidate` | internal/wallet/wallet.go:40-45 | the entry is gone, nothing else changes |
| `Wallet.Memory.Available` | internal/wallet/wallet.go:47-55 | the cached balance, or not cached |
| `Wallet.Memory.Reserve` | internal/wallet/wallet.go:57-75 | granted exactly when cached with enough; map and answer as specified |
| `Wallet.Memory.Release` | internal/wallet/wallet.go:77-92 | gives back only into an entry that is still there |
| `Wallet.ReservedIff` | internal/wallet/wallet.go:57-75 | when a reservation is granted and what it takes; each refusal with its cause |
| `Wallet.ReleasedIff` | internal/wallet/wallet.go:77-92 | when a release is taken and what it gives back |
| `Wallet.NeverOverspends` | internal/wallet/wallet.go:57-75 | any sequence of requests takes out of the balance exactly what it is granted and never below zero |
| `Wallet.ReleaseUndoesReserve` | internal/wallet/wallet.go:57-92 | release after reserve restores the whole map, unless the entry was dropped in between |
| `Wallet.Redis.ReserveScript` | internal/wallet/redis.go:14-44 | the script's three results and their effect |
| `Wallet.Redis.ReleaseScript` | internal/wallet/redis.go:14-44 | the script's two results and their effect |
| `Wallet.Redis.Reserve` | internal/wallet/redis.go:79-107 | refines the in-memory reservation for every cached balance |
| `Wallet.Redis.Release` | internal/wallet/redis.go:86-107 | refines the in-memory release, its answer exactly when the new balance is not one of the reserved numbers |
| `Reservations.StepKeepsSafe` | internal/payment/service.go:98-192 | every step of every call keeps the cache within ledger sum less reservations in flight |
| `Reservations.NeverOverspent` | internal/payment/service.go:98-192 | in every disciplined interleaving no user wallet's ledger sum is negative and no cached balance exceeds what is spendable |
| `Reservations.QuietCacheAgrees` | internal/txn/service.go:66-125 | with nothing in flight a cached balance is the ledger sum |
| `Reservations.NeverOverspentFromTheStart` | internal/payment/service.go:98-192 | the same from any balanced ledger without overdrawn wallets, nothing cached and nothing in flight |
| `Reservations.WarmIsSafeIff` | internal/payment/service.go:186-192 | any warm is safe exactly when the value written is within what the cache may show at that moment |
| `Reservations.FreshWarmIsSafeIff` | internal/payment/service.go:186-192 | a ledger sum that is still current: exactly when nothing is reserved on the account |
| `Reservations.StaleWarmIsSafeIff` | internal/payment/service.go:186-192 | with nothing reserved: exactly when the old sum is not above the ledger's and short of it by no more than unseen credits |
| `Reservations.UndisciplinedRunsOverspend` | internal/txn/service.go:66-77 | without the discipline, for every wallet and amount, two runs end with the wallet overdrawn |
| `Reservations.PaymentIsWellFormed` | internal/payment/service.go:194-218 | a payment is a debit the protocol covers |
| `Reservations.TransferIsWellFormed` | internal/txn/transfer.go:87-139 | so is a transfer, which credits another wallet |
| `Reservations.WithdrawalIsWellFormed` | internal/txn/withdrawal.go:105-157 | so is a withdrawal or a bill, reserving amount and fee together |
| `Reservations.TopupIsWellFormed` | internal/txn/topup.go:172-229 | a top-up is a credit the protocol covers |
| `Reservations.RefundIsWellFormed` | internal/txn/refund.go:99-154 | so is a refund |
| `Reservations.DisputeIsWellFormed` | internal/compliance/disputes.go:205-250 | so is a dispute decided for the user |
| `Services.Service.Reserve` | internal/txn/service.go:66-93 | warm, try again, and the exact balance or refusal |
| `Services.Service.CommitOrGiveBack` | internal/txn/service.go:95-125 | posted with the cache as reserved, or nothing posted and the reservation given back |
| `Services.Service.CreatePayment` | internal/payment/service.go:98-284 | on every branch cache and ledger agree, the books balance, and only payer, merchant and fee account move |
| `Services.Service.CreateTransfer` | internal/txn/transfer.go:44-139 | the same; the payee's cached balance is dropped |
| `Services.Service.CreateWithdrawal` | internal/txn/withdrawal.go:58-157 | the same for amount plus admin fee |
| `Services.Service.PayBill` | internal/txn/billpay.go:111-250 | the same for every answer of the biller's rail: an open outcome debits, a refusal gives the reservation back |
| `Services.Service.CreditTopup` | internal/txn/topup.go:172-229 | a committed top-up credits exactly its amount and drops the cached balance |
| `Services.Service.CreditRefund` | internal/txn/refund.go:105-154 | the same for a refund |
| `Services.Service.CreditDispute` | internal/compliance/disputes.go:211-250 | the same for a dispute |
| `Services.DebitAgrees` | internal/txn/service.go:66-125 | a reserved and posted debit leaves cache and ledger in agreement |
| `Services.CreditAgrees` | internal/txn/service.go:104-125 | dropping the credited wallet's entry leaves them in agreement |
| `PaymentLinks.NextKeepsInv` | internal/payment/service.go:98-159 | every step of every payer keeps one payment per link and the cache exact |
| `PaymentLinks.PaidAtMostOnce` | internal/merchant/charges.go:215-271 | in every run at most one payment, to the link's merchant, of its amount, before its expiry |
| `PaymentLinks.OpenLinkIsPaid` | internal/payment/service.go:98-192 | an open link in time is paid by any payer who has the amount and nothing else in flight |
| `PaymentLinks.CommitIff` | internal/merchant/charges.go:215-247 | a held payment is made exactly while the link is open and in time, on its terms |
| `PaymentLinks.PayableIff` | internal/merchant/charges.go:215-271 | a link can be paid exactly while it is open and in time; each refusal says why |
| `PaymentLinks.CancelIff` | internal/merchant/charges.go:181-213 | a link is cancelled exactly by its merchant while it is open |
| `PaymentLinks.UnpayableForever` | internal/merchant/charges.go:181-247 | a cancelled or expired link is never paid afterwards; a paid or cancelled one never changes |
| `PaymentLinks.LosersAreRestored` | internal/payment/service.go:147-156 | with nothing in flight a cached balance is what the wallet had, less the amount only if it paid |
| `PaymentLinks.TermsAreFixed` | internal/merchant/charges.go:215-247 | merchant, amount and expiry never change |
| `PaymentLinks.Charges.Create` | internal/merchant/charges.go:58-119 | which requests are accepted, with which lifetime and reference, and no reference twice per merchant |
| `PaymentLinks.TrimIsEmptyIffBlank` | internal/merchant/charges.go:58-60 | a trimmed text is empty exactly when it is all white space |
| `PaymentLinks.TrimStrips` | internal/merchant/charges.go:58-60 | only white space goes, and only from the ends |
| `PaymentLinks.Charges.Lookup` | internal/merchant/charges.go:249-271 | terms of a payable link, or why not |
| `PaymentLinks.Charges.MarkPaid` | internal/merchant/charges.go:215-247 | marks a payable link paid, refuses any other unchanged |
| `PaymentLinks.Charges.Cancel` | internal/merchant/charges.go:181-213 | cancels exactly an open link of that merchant |
| `Topups.ConfirmKeepsInv` | internal/txn/topup.go:133-272 | any callback keeps table, ledger, references and transitions consistent |
| `Topups.ConfirmedIff` | internal/txn/topup.go:133-272 | when a callback succeeds a top-up and credits the wallet, when it fails it, and that it changes nothing otherwise |
| `Topups.CreatedIff` | internal/txn/topup.go:53-120 | which requests create a pending top-up, and with which fee |
| `Topups.EveryRunCreditsOnce` | internal/txn/topup.go:133-272 | whatever callbacks arrive, a wallet gains each succeeded top-up's amount once; each top-up leaves pending in one recorded step, by a callback that reported this outcome and, for a success, exactly this amount |
| `Topups.SettledIsFinal` | internal/txn/topup.go:157-161 | succeeded and failed are absorbing |
| `Topups.FailedCommitStrands` | internal/txn/topup.go:133-144 | after a failed commit redelivering the same callback does nothing, at any later time |
| `Topups.RedeliverySettlesIff` | internal/txn/topup.go:133-144 | an eligible callback settles exactly when it is recorded and committed; after a failure redelivery settles exactly when the first was not recorded |
| `Topups.Desk.RecordCallback` | internal/txn/topup.go:235-247 | a callback is new exactly when its provider, reference and event were not seen |
| `Topups.Desk.FailTopup` | internal/txn/topup.go:249-272 | a row that is still pending fails and one transition is recorded, or nothing happens |
| `Topups.Desk.ConfirmTopup` | internal/txn/topup.go:133-233 | settled exactly by a new, recorded and committed success of the row's amount under a free reference, failed exactly by another outcome, unchanged otherwise; the reply to each; cache and ledger in agreement |
| `Topups.CreditKeepsAgreement` | internal/txn/topup.go:212-229 | posting and dropping the wallet's entry keeps the two in agreement |
| `Topups.DigitsOnly` | internal/txn/topup.go:324-334 | every byte becomes one digit: a digit itself, anything else its last decimal place |
| `Refunds.PartDrift` | internal/ledger/movements.go:169-184 | one part's fee is off by at most half a unit |
| `Refunds.FeeSwallowsPartIff` | internal/ledger/movements.go:141-184 | the fee is the whole part, so the refund is refused, exactly when the merchant's share is at most half a unit |
| `Refunds.FullRefundReturnsFee` | internal/ledger/movements.go:169-184 | one full refund returns exactly the fee |
| `Refunds.TwoHalvesOverReturn` | internal/ledger/movements.go:169-184 | two half refunds with an odd fee return one unit more than was charged |
| `Refunds.PostingEffect` | internal/txn/refund.go:99-119 | when a refund posts and what it does to every account |
| `Refunds.ScreenedIff` | internal/txn/refund.go:61-97 | which requests pass the checks, for which amount, and why each other is refused |
| `Refunds.RefundedIff` | internal/txn/refund.go:39-158 | a request leads to exactly one refund, the one that is due, or to nothing |
| `Refunds.EveryRunRefunds` | internal/txn/refund.go:72-150 | serial refunds never exceed what was paid, move exactly their totals, and the returned fees drift by at most half a unit a part |
| `Refunds.Desk.CreateRefund` | internal/txn/refund.go:39-158 | when a refund is made, of exactly the amount asked for or all that is left, with the fee to the nearest unit; each refusal with its cause; agreement of cache and ledger |
| `Refunds.Desk.Screen` | internal/txn/refund.go:61-97 | passes exactly an allowed caller, a succeeded payment and an amount within what is left; the amount is the one asked for, or all that is left |
| `Refunds.Desk.PostRefund` | internal/txn/refund.go:99-158 | posted, recorded and uncached together exactly when it commits and the merchant's share is not rounded away, or nothing |
| `Sessions.NextIsRotation` | internal/auth/store.go:470-481 | in a linked table the row after a row is the one it was rotated to |
| `Sessions.ChainIncreases` | internal/auth/store.go:470-481 | in a linked table the chain follows the rotations to their end and never meets itself |
| `Sessions.ChainIsPath` | internal/auth/store.go:404-481 | a chain ends in its only row without a successor, the only one that can be live |
| `Sessions.RootReaches` | internal/auth/store.go:404-481 | every session belongs to the chain of its root |
| `Sessions.RootIsUnique` | internal/auth/store.go:404-481 | and to no other |
| `Sessions.AtMostOneLive` | internal/auth/store.go:404-468 | a family has at most one live session |
| `Sessions.ChainRevokedEffect` | internal/auth/store.go:470-481 | chain revocation marks exactly the rows of the chain |
| `Sessions.EventGrows` | internal/auth/store.go:404-566 | no event revives a row, redirects one or rotates into an old one |
| `Sessions.ReplayKillsFamily` | internal/auth/store.go:431-439 | a rotated token presented again revokes every session of its family |
| `Sessions.ReplayIsFinal` | internal/auth/store.go:431-481 | and in every continuation none revives and none joins |
| `Sessions.DeadForever` | internal/auth/store.go:431-481 | a dead family stays the same chain of revoked rows |
| `Sessions.RunsStayLinked` | internal/auth/store.go:404-566 | every run keeps rotation links acyclic and unshared |
| `Sessions.RunsDescend` | internal/auth/store.go:404-468 | in every run a rotation leads to a session of the same user and device, issued no later than the refresh token was valid |
| `Sessions.DeviceRevokedRows` | internal/auth/store.go:520-566 | row by row what revoking a device does |
| `AuthStore.Find` | internal/auth/store.go:350-365 | the first row with that key, none exactly when there is none |
| `AuthStore.RefreshIff` | internal/auth/store.go:404-468 | when a refresh succeeds and what it does; each refusal with its cause |
| `AuthStore.VerdictIff` | internal/auth/store.go:350-388 | the database vouches for a token exactly when its row is admissible; the refusals in order |
| `AuthStore.VerifyIff` | internal/auth/store.go:350-400 | the same for a verification, with the principal it answers and what it caches |
| `AuthStore.AcceptedIffAdmissible` | internal/auth/store.go:350-400 | with unique tokens, uncached: accepted if and only if some row is admissible |
| `AuthStore.LogoutIff` | internal/auth/store.go:483-497 | a logout succeeds exactly for an unrevoked session, and revokes it alone |
| `AuthStore.RevokeDeviceIff` | internal/auth/store.go:520-572 | a device is revoked exactly by its own user, once, with exactly its live sessions and their cached tokens |
| `AuthStore.LoginIff` | internal/auth/store.go:203-348 | when a login succeeds, whose session it creates on which device, and what a failed one leaves |
| `AuthStore.Store.RevokeChain` | internal/auth/store.go:470-481 | on a linked table, which every run keeps, the loop along the rotations terminates and computes the recursive closure |
| `AuthStore.Store.Refresh` | internal/auth/store.go:404-468 | succeeds exactly for an unrotated, unrevoked session whose refresh token is not past its time; each other case has its own error; the whole new state |
| `AuthStore.Store.Logout` | internal/auth/store.go:483-497 | revokes a live session and forgets its token |
| `AuthStore.Store.RevokeDevice` | internal/auth/store.go:520-572 | revokes device, sessions and cached tokens |
| `AuthStore.Store.RevokeDeviceSessions` | internal/auth/store.go:531-558 | revokes exactly the device's live sessions and returns exactly their tokens |
| `AuthStore.Store.Verify` | internal/auth/store.go:350-400 | uncached, it succeeds exactly for an unrevoked session within its time of an active user, with that row's principal, and caches it for a minute from the write or until the token ends |
| `AuthStore.Store.Login` | internal/auth/store.go:203-287 | succeeds exactly for an active, unlocked user with the right PIN and, if given, an open code; then one session of that user on that device; a failure changes at most the PIN counter |
| `AuthStore.Store.FinishLogin` | internal/auth/store.go:264-348 | the part after the PIN, all or nothing |
| `AuthStore.Store.ForgetAll` | internal/auth/store.go:568-572 | the loop drops exactly these tokens from the cache |
| `AuthStore.Store.StartOTP` | internal/auth/store.go:92-112 | a new code with no attempts used |
| `AuthStore.Store.VerifyOTP` | internal/auth/store.go:114-167 | a code check and its counter |
| `SessionSteps.UninterruptedVerify` | internal/auth/store.go:350-400 | asking, reading and writing with nothing in between is the whole verification |
| `SessionSteps.UninterruptedRefresh` | internal/auth/store.go:404-468 | so is a refresh's commit followed by its forget |
| `SessionSteps.UninterruptedLogout` | internal/auth/store.go:483-497 | so is a logout's |
| `SessionSteps.UninterruptedRevokeDevice` | internal/auth/store.go:520-572 | so is a device revocation's commit followed by its forgets, one token after the other |
| `SessionCache.EveryEntryWasWritten` | internal/auth/store.go:350-400 | every cache entry in every run was written by a verification that had read the database before |
| `SessionCache.AcceptedWasLive` | internal/auth/store.go:350-400 | a token the cache accepts was live with an active user when the verification that stored it read the database; it stored it at most a minute ago; the access time has not run out |
| `SessionCache.LateStore` | internal/auth/store.go:390-397 | a half-done verification that goes on, however late, has the token accepted for a minute from then |
| `SessionCache.RevokedIsGoneIff` | internal/auth/store.go:350-400 | a revoked session's token is rejected in every continuation exactly when no entry shows it and no half-done verification holds it |
| `SessionCache.ForgottenIsGoneIff` | internal/auth/store.go:568-572 | after the forget, exactly when no half-done verification holds it |
| `SessionCache.LogoutIsImmediateIff` | internal/auth/store.go:483-497 | so for a logout, whatever happens between its commit and its forget |
| `SessionCache.RotationIsImmediateIff` | internal/auth/store.go:404-468 | so for the token of a rotated-away or replayed session |
| `SessionCache.DeviceRevocationIsImmediateIff` | internal/auth/store.go:520-572 | so for every token that was live on a revoked device |
| `SessionCache.LateEntryOutlivesLogout` | internal/auth/store.go:350-400 | any verification that read before a logout: the token is rejected after the logout and accepted again once the verification writes, at any later time, for exactly a minute or until it expires |
| `SessionCache.LookFinds` | internal/auth/store.go:350-388 | such half-done verifications arise from any live session that is not cached |
| `SessionCache.ReplayLeavesCachedTokens` | internal/auth/store.go:431-439 | after a replay a token of the family is gone for good exactly unless it is another session's with a visible entry or a half-done verification holds it |
| `SessionCache.NewestTokenSurvivesReplay` | internal/auth/store.go:431-439 | rotate, verify, replay: the newest token is still accepted until its entry expires |
| `LoginRuns.RevokeDeviceSignsOut` | internal/auth/store.go:520-566 | no later event puts a live session on a revoked device |
| `LoginRuns.CodeAdmitsOnce` | internal/auth/store.go:169-201 | a one-time code admits one login in any run, whatever codes are requested, tried and spent in between |
| `LoginRuns.GuessingIsRateBoundedInRuns` | internal/auth/store.go:203-287 | in every run, other users' logins included, the evaluated wrong PINs of one user are spaced by a lockout every three |
| `PinLock.GuessingIsRateBounded` | internal/auth/store.go:228-264 | evaluated wrong PINs are spaced by a lockout every three, however often entries are tried |
| `PinLock.PinStateStaysBounded` | internal/auth/store.go:228-264 | the stored counter stays below three and no PIN is accepted while locked |
| `PinLock.EvaluatedAreSpaced` | internal/auth/store.go:228-264 | the entries that are evaluated leave a lockout after each exhausted counter |
| `PinLock.GuessesRunOut` | internal/auth/store.go:114-167 | a code is guessed wrong at most as often as it has attempts; then even the right one is refused |
| `PinLock.TryCodeIff` | internal/auth/store.go:114-167 | a code is accepted exactly when it is right, unspent, in time and has attempts left; when a wrong one is counted |
| `PinLock.ConsumeIff` | internal/auth/store.go:169-201 | a code is spent exactly when it is unspent and in time |
| `PinLock.ConsumedIsFinal` | internal/auth/store.go:169-201 | a consumed code is neither consumed nor accepted again |
| `Principals.DecodePrincipal` | internal/auth/store.go:578-602 | the scanning loop computes the cut at the bars |
| `Principals.DecodeAfterEncode` | internal/auth/store.go:574-602 | a principal comes back exactly when no field has a bar and the user id is not empty, and is rejected otherwise |
| `Principals.EncodeAfterDecode` | internal/auth/store.go:574-602 | an accepted text prints back to itself |
| `Principals.AcceptsExactly` | internal/auth/store.go:578-602 | three bars and a non-empty first field, nothing else |
| `Admission.NextKeepsInv` | internal/admission/admission.go:82-141 | every step of every request keeps counters, bounds, peak and queue order |
| `Admission.EveryRunIsBounded` | internal/admission/admission.go:82-132 | slot holders within the limit, accepted requests within the queue, every arrival accounted for |
| `Admission.FullIsOwnDepth` | internal/admission/admission.go:93-100 | a finished request was shed for a full queue exactly when its own depth exceeded the limit |
| `Admission.OnlyTheTimerSheds` | internal/admission/admission.go:101-132 | nobody is shed for waiting but by the timer, nor counted as gone but by its client |
| `Admission.NewcomerIsServed` | internal/admission/admission.go:82-92 | one who finds a slot free is served and gives it back |
| `Admission.WaiterIsServed` | internal/admission/admission.go:101-132 | one who waits is served when a slot is free, leaves the queue and gives the slot back |
| `Admission.QuietIsClean` | internal/admission/admission.go:82-141 | at quiescence no slot or queue place is held, arrivals equal outcomes, and the peak is the greatest depth ever reached |
| `Admission.QueueIsBounded` | internal/admission/admission.go:93-107 | accepted requests stand in the first places of the queue |
| `Admission.RetriesClimb` | internal/admission/admission.go:134-141 | a failed swap shrinks the gap to climb, and retries never exceed the depth |
| `Admission.CounterOvershoots` | internal/admission/admission.go:93-96 | whatever the limits, the queue counter itself can reach any value |
| `Admission.Limiter.constructor` | internal/admission/admission.go:12-48 | the configuration, and for what is not positive its default, 50 ms for the wait |
| `Admission.Limiter.RecordPeak` | internal/admission/admission.go:134-141 | the retry loop ends, never lowers the peak and leaves it at least the depth, whatever others swap in |
| `Outbox.ClaimSkipsNothing` | internal/outbox/outbox.go:100-127 | what a claim leaves out comes after everything it takes, and then the batch is full |
| `Outbox.ClaimedAreClaimable` | internal/outbox/outbox.go:100-127 | a claim takes at most its limit, and only unpublished rows it has the lock for |
| `Outbox.ClaimedInIdOrder` | internal/outbox/outbox.go:100-127 | in id order |
| `Outbox.NextKeepsSafe` | internal/outbox/outbox.go:66-179 | every step of every relay, crashes and partial publishes included, keeps locks, claims, marks and log consistent |
| `Outbox.EveryRunPublishesInOrder` | internal/outbox/outbox.go:66-150 | marked rows are a prefix of their key's rows and in the log; a key's rows first appear in the log in id order |
| `Outbox.NothingIsLost` | internal/outbox/outbox.go:66-179 | a row leaves the table only after the broker has it |
| `Outbox.UndisturbedRunsNeverRepeat` | internal/outbox/outbox.go:66-150 | in every run without crashes and refusals no row is sent twice |
| `Outbox.CrashDuplicates` | internal/outbox/outbox.go:81-96 | a crash between publish and mark sends a row twice |
| `Outbox.ShortSweepDrains` | internal/outbox/outbox.go:66-98 | a sweep below its limit leaves nothing it could have claimed |
| `Outbox.KeyIsInIdOrder` | internal/outbox/outbox.go:66-127 | what a batch brings for a key is the messages of that key's claimed rows, in ascending id order |
| `Outbox.SweepIsARun` | internal/outbox/outbox.go:66-150 | a sweep is a run of the protocol's steps that adds its batch to the broker's log as it was claimed, so the order of every run is that of sweeps |
| `Outbox.ObtainedIsFree` | internal/outbox/outbox.go:100-111 | the locks a sweep obtains are free for it to claim |
| `Outbox.MemoryPublisher.Publish` | internal/outbox/outbox.go:191-202 | all messages appended, or the one armed failure returned and disarmed |
| `Outbox.MemoryPublisher.PublishedFor` | internal/outbox/outbox.go:218-226 | the messages of the key, in order |
| `Outbox.Relay.Write` | internal/outbox/outbox.go:35-53 | all rows or none, none exactly when a message lacks key, topic or type |
| `Outbox.Relay.Claim` | internal/outbox/outbox.go:100-127 | the loop takes the specified batch |
| `Outbox.Relay.Sweep` | internal/outbox/outbox.go:66-150 | on success the broker gets exactly the claimed rows' messages in id order and they are marked; on failure nothing is sent and each is charged an attempt with the cause; no other row changes |
| `Outbox.Relay.Prune` | internal/outbox/outbox.go:170-179 | a row goes exactly when it was published before the cut-off |
| `Webhook.TotalWindow` | internal/webhook/schedule.go:34-40 | the loop adds up the schedule |
| `Webhook.WindowInSeconds` | internal/webhook/schedule.go:5-14 | the schedule spans 25964 seconds |
| `Webhook.RecordStaysOnSchedule` | internal/webhook/dispatcher.go:176-276 | recording an attempt keeps a row on schedule, and the branch for a missing delay never runs |
| `Webhook.RecordedIff` | internal/webhook/dispatcher.go:176-276 | delivered exactly by a 2xx answer, dead exactly at the ninth failure, until then due again after exactly the delay of the schedule |
| `Webhook.DueIff` | internal/webhook/dispatcher.go:146-160 | a row is due exactly while it is open and its time has come |
| `Webhook.DeliveredWasAnswered` | internal/webhook/dispatcher.go:176-276 | in every run a delivered row had an attempt that was answered with 2xx |
| `Webhook.DeliveryStaysSound` | internal/webhook/dispatcher.go:120-295 | every step on a delivery, rollbacks and replays included, keeps row and lock consistent |
| `Webhook.NineAttemptsSettle` | internal/webhook/dispatcher.go:146-276 | attempts recorded equal attempts committed, at most nine, and after the ninth a delivery is settled |
| `Webhook.StepSpends` | internal/webhook/dispatcher.go:176-276 | a step lowers the attempts left exactly when it commits one |
| `Webhook.SettledIsFinal` | internal/webhook/dispatcher.go:146-160 | a delivered row never changes or is claimed again; a dead letter changes only by replay |
| `Webhook.DeadLettersWaitedOut` | internal/webhook/schedule.go:27-40 | a dead letter has nine attempts over at least the whole schedule |
| `Webhook.OldestFirst` | internal/webhook/dispatcher.go:146-160 | a free due row is claimed unless older ones fill the batch |
| `Webhook.SubscribersExactly` | internal/webhook/dispatcher.go:70-74 | an endpoint is chosen exactly when it is the merchant's, enabled, and subscribed to the type |
| `Webhook.Dispatcher.LoadEndpoints` | internal/webhook/dispatcher.go:70-90 | the loop finds the subscribed endpoints in order |
| `Webhook.Dispatcher.QueueDeliveries` | internal/webhook/dispatcher.go:92-101 | one pending row, due now, for each endpoint not yet targeted |
| `Webhook.Dispatcher.Enqueue` | internal/webhook/dispatcher.go:51-107 | an event is recorded once, with one pending row, due now, for every subscribed endpoint; or nothing |
| `Webhook.Dispatcher.ClaimDue` | internal/webhook/dispatcher.go:146-174 | the loop takes the specified batch |
| `Webhook.Dispatcher.DispatchBatch` | internal/webhook/dispatcher.go:120-144 | exactly the claimed rows are recorded, each with its endpoint's answer |
| `Webhook.Dispatcher.Replay` | internal/webhook/dispatcher.go:278-295 | starts over exactly a dead letter, with an actor |
| `Idempotency.NextKeepsInv` | internal/idempotency/store.go:55-126 | every step of every caller, lost writes and crashes included, keeps one owner and one outcome |
| `Idempotency.ExecutionsNeverOverlap` | internal/idempotency/middleware.go:42-75 | one handler at a time, only under a record with its own hash, and none after a completion |
| `Idempotency.ReplaysAreTheCompletion` | internal/idempotency/middleware.go:60-66 | every replay is the one recorded outcome of an execution with the same hash |
| `Idempotency.FreshKeyRuns` | internal/idempotency/middleware.go:68-75 | a caller of a free key runs, and its outcome becomes the key's, or frees it after a server error |
| `Idempotency.HeldKeyAnswers` | internal/idempotency/store.go:55-80 | what a caller of a held key hears, exactly, and that it changes nothing |
| `Idempotency.ClosedForever` | internal/idempotency/store.go:55-103 | once nobody owns the key nothing changes its record and nobody executes |
| `Idempotency.CompletedIsClosed` | internal/idempotency/store.go:82-103 | a completed key is such a key |
| `Idempotency.CompletedAtMostOnce` | internal/idempotency/store.go:82-92 | in every run at most one outcome is ever recorded |
| `Idempotency.BlockedIffOrphaned` | internal/idempotency/store.go:55-103 | a record in progress never changes again, in any continuation, exactly when no active caller owns it |
| `Idempotency.BlockedAnswers` | internal/idempotency/middleware.go:42-66 | whoever asks for a blocked key hears in flight, or key reused for another body |
| `Idempotency.LostOutcomeBlocks` | internal/idempotency/middleware.go:71-75 | a completion or release that is lost blocks the key |
| `Idempotency.DeadOwnerBlocks` | internal/idempotency/middleware.go:68-75 | so does an owner that dies in the handler or before it stores the outcome |
| `Idempotency.HiddenInsertBlocks` | internal/idempotency/store.go:55-80 | so does a claim that takes effect behind an error |
| `Idempotency.OnlyThreeWaysIn` | internal/idempotency/middleware.go:42-75 | and no other step does |
| `IdempotencyStore.PreimageDecidesRequest` | internal/idempotency/store.go:36-44 | one preimage means one request, for paths without the separator |
| `IdempotencyStore.PreimageIsSharedIff` | internal/idempotency/store.go:36-44 | a request shares its preimage with another exactly when its path or body contains the separator |
| `IdempotencyStore.Recorder.WriteHeader` | internal/idempotency/middleware.go:87-94 | the first status wins |
| `IdempotencyStore.Recorder.Write` | internal/idempotency/middleware.go:96-102 | a first write implies 200, and the body grows by the bytes |
| `IdempotencyStore.Recorder.Serve` | internal/idempotency/middleware.go:68-69 | what is recorded is what the client received |
| `IdempotencyStore.Store.Claim` | internal/idempotency/store.go:55-80 | a new key is taken, an existing one answered and left alone |
| `IdempotencyStore.Store.Complete` | internal/idempotency/store.go:82-92 | stores the outcome in an existing record |
| `IdempotencyStore.Store.Release` | internal/idempotency/store.go:94-103 | deletes exactly a record in progress |
| `IdempotencyStore.Store.Settle` | internal/idempotency/middleware.go:71-75 | release after a server error, completion otherwise, or nothing when the statement is lost |
| `IdempotencyStore.Store.Handle` | internal/idempotency/middleware.go:16-78 | the middleware's reply and table for every request, readable or not, whatever the store's statements do |
| `IdempotencyStore.HandledBeforehand` | internal/idempotency/middleware.go:19-58 | which requests pass untouched, which are refused and how, and that only a failed claim can leave a record |
| `IdempotencyStore.SecondCall` | internal/idempotency/middleware.go:42-75 | the same request again gets the same bytes or, after a server error, runs afresh, or hears in flight when the outcome was lost; another is refused |
| `Risk.Evaluate` | internal/risk/holdback.go:36-68 | total, holdback and mode of acceptable factors, whatever order the components are summed in |
| `Risk.HoldbackCoversTwice` | internal/risk/holdback.go:70-76 | twice the expected loss, between 150 and 4500 basis points, short of it exactly above the ceiling |
| `Risk.RateScoreIs` | internal/risk/holdback.go:108-117 | a rate costs its share of 25 points, rounded up, and all from four times the tolerance |
| `Risk.LossIs` | internal/risk/holdback.go:78-91 | what disputes, refunds and youth add to the expected loss |
| `Risk.RiskierIsNeverBetter` | internal/risk/holdback.go:36-117 | a merchant worse in every factor never scores higher, is held back less or is paid sooner |
| `Payouts.PayoutAlwaysPosts` | internal/payout/service.go:101-192 | the posting built after the money left is never refused, and credits the holdback account with the row's holdback |
| `Payouts.InstantIff` | internal/payout/service.go:70-176 | instant exactly when score, exposure, rail and float allow it, high holdback only below 70 percent |
| `Payouts.FloatAllowsIff` | internal/payout/float.go:53-83 | the float allows an instant payout exactly below 85 percent of its limit, or 70 for a high holdback |
| `Payouts.SettlementIsRight` | internal/payout/service.go:70-251 | when a settlement leaves a row, the status each answer of the rail means, and that money is booked and held back exactly for a send that was not rejected |
| `Payouts.SettlementCounts` | internal/payout/float.go:40-51 | a payout counts against the float for a day, exactly when it was sent and not rejected |
| `Payouts.FloatIsBounded` | internal/payout/float.go:40-83 | over serial settlements from any state within it, the float stays below 85 percent of the limit plus one payout |
| `Payouts.FloatIsBoundedFromTheStart` | internal/payout/float.go:40-83 | the same in every run from no payouts on |
| `Payouts.OutstandingFades` | internal/payout/float.go:43-51 | outstanding is never negative and only falls as time passes |
| `Payouts.NoLimitNeverDegrades` | internal/payout/float.go:53-57 | without a limit the float degrades nothing |
| `Payouts.Service.Position` | internal/payout/float.go:40-59 | outstanding within the window, utilisation, and whether instant is enabled |
| `Payouts.Service.Persist` | internal/payout/service.go:194-251 | payout row, ledger entries and holdback row together or not at all |
| `Payouts.Service.Settle` | internal/payout/service.go:70-176 | the whole new state of a settlement on every branch |
| `Payouts.Service.SettleInstantly` | internal/payout/service.go:126-176 | the same from the send on |
| `Holdbacks.FirstOpenIsOldest` | internal/compliance/disputes.go:309-323 | the row taken is the merchant's oldest open one |
| `Holdbacks.CoverIsWithin` | internal/compliance/disputes.go:309-329 | the cover is within need and row, and is one of the two |
| `Holdbacks.SettlementCovers` | internal/payout/service.go:201-245 | a settlement adds the same to a merchant's holdback account and rows, and nothing to others |
| `Holdbacks.DisputePosts` | internal/compliance/disputes.go:205-236 | the dispute's posting is valid, takes the cover from its merchant's holdback only and pays the user in full |
| `Holdbacks.ForMerchantIff` | internal/compliance/disputes.go:191-203 | a dispute decided for the merchant is closed exactly when its write takes effect, and nothing else changes |
| `Holdbacks.ForUserIff` | internal/compliance/disputes.go:205-279 | a dispute decided for the user, write by write: what the holdback gives, what the user gets, when it is closed and with what |
| `Holdbacks.HoldbackIsNeverOverdrawn` | internal/compliance/disputes.go:196-252 | the holdback account covers the open rows, equals held less covered, and each dispute refunds at most once |
| `Holdbacks.SettledIffClosed` | internal/compliance/disputes.go:234-252 | once posted, the dispute's books are right exactly when the later writes take effect |
| `Holdbacks.CoversIffConsumed` | internal/compliance/disputes.go:238-244 | the account still covers its rows exactly when the row is consumed or earlier slack suffices |
| `Holdbacks.FailedCloseRefundsTwice` | internal/compliance/disputes.go:196-282 | a failed close lets the same dispute pay the user again |
| `Holdbacks.Disputes.AvailableHoldback` | internal/compliance/disputes.go:309-329 | the specified cover and row |
| `Holdbacks.Disputes.Resolve` | internal/compliance/disputes.go:171-253 | the whole new state for every outcome and partial failure |
| `Holdbacks.Disputes.Refund` | internal/compliance/disputes.go:205-252 | the three writes of a decision for the user, and when the cached balance is dropped |
| `Holdbacks.Disputes.Close` | internal/compliance/disputes.go:255-279 | the dispute row is closed or unchanged |
| `Reconcile.BuildIndex` | internal/reconcile/compare.go:111-117 | the loop computes the totals by reference |
| `Reconcile.SortRefs` | internal/reconcile/compare.go:66-70 | strictly ascending and exactly the set |
| `Reconcile.Classify` | internal/reconcile/compare.go:78-105 | the four cases of one reference |
| `Reconcile.Compare` | internal/reconcile/compare.go:54-109 | the report over every reference of either side, in order |
| `Reconcile.ReportIsUnique` | internal/reconcile/compare.go:66-70 | the order in which maps are walked does not show |
| `Reconcile.ReportConserves` | internal/reconcile/compare.go:54-117 | delta is the difference of the sides' totals; every reference is matched or reported |
| `Reconcile.ReportClassifies` | internal/reconcile/compare.go:74-106 | a reference is reported once, in order and with the right cause, exactly when the sides differ on it |
| `Reconcile.CleanIffEqual` | internal/reconcile/compare.go:50-52 | clean exactly when both indexes are equal |
| `Reconcile.SwapFlips` | internal/reconcile/compare.go:54-109 | swapping the sides negates the delta and exchanges the one-sided causes |
| `Reconcile.OrderIsIgnored` | internal/reconcile/compare.go:111-117 | permuting either side changes nothing |

## Left out

- Reservations.NeverOverspent: assumes that a warm writes a ledger sum that is still current, with no reservation in flight on that account, and that a commit reported as failed wrote nothing. The code ensures neither: `WarmIsSafeIff` says exactly when a warm is harmless, and `UndisciplinedRunsOverspend` what the others do.
- PaymentLinks.LosersAreRestored: reads the ledger and warms the cache in one step with nothing in flight, for the same reason.
- SessionCache.AcceptedWasLive: a cache entry's time to live is computed and written in one step, the cache expires entries by the same clock, and the clock does not run backwards.
- Outbox.EveryRunPublishesInOrder: takes the claim as one step, assumes that rows of one key become visible in id order and that the broker keeps the order of one key's records.
- Topups.EveryRunCreditsOnce: callbacks one at a time; the code reads the status outside the transaction that writes it.
- Refunds.EveryRunRefunds: refunds one at a time, for the same reason.
- Holdbacks.HoldbackIsNeverOverdrawn: settlements and resolutions one at a time, and resolutions whose later writes take effect; the lemmas on partial failures say exactly what breaks otherwise.
- Payouts.FloatIsBounded: settlements one at a time; concurrent ones read the same position.
- Risk.Evaluate: expected loss is added up exactly; the floating-point sum can come out one hundredth of a basis point higher.
- IdempotencyStore.PreimageDecidesRequest: about the text fed to the digest; the digest itself is taken to be injective.
- IdempotencyStore.Store.Handle: the body is what is left of it after the middleware's cut at one mebibyte; the cut itself is not modelled.
- Wallet.Redis.Release: the answer differs from the in-memory store when the new balance is -1 or -2, numbers the scripts use for refusals.
- Integer width: amounts are unbounded integers; the code agrees while an amount times 10000 fits in 63 bits.
- A payout whose commit fails after the rail accepted it leaves no row; bank and biller outcomes are otherwise parameters.
- Time to live, key prefixes and connection failures of Redis; flags, counters and velocity rules, which appear as one admission verdict.
- Kafka, PostgreSQL and SQL parsing; retries inside the client libraries.
- HTTP handlers, routing, JSON, KYC, audit, listings, consoles, merchant keys and outlets, loyalty, and the user interface.
- Batch settlement, rail selection and loyalty points, whose code does not establish a bound worth stating.
- Password hashing, signatures and random ids: values that are compared, or fresh.
