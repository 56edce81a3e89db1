# J-Ledger portal: verified models

Dafny models of the stateful and arithmetic code of the J-Ledger portal, and
proofs of what that code promises over whole runs. Concurrent code is a state
machine whose steps are the code between two awaits (`Enabled`, `Apply`,
`Runs`, `Exec`); results quantify over every run, so over every interleaving,
failure point, retry and restart. Code that updates fields in place is also
written as a class or a loop, whose contracts say which steps of the machine,
or which specification function, it carries out. `dafny verify dfyconfig.toml`
checks the whole project.

| file | what it models |
|---|---|
| `Invoicing.dfy` | the amounts of an invoice and the four-way split, in satang, for every rounding to nearest |
| `Settlement.dfy`, `BillingService.dfy` | invoice payment: up to four keyed transfers and a status update, failing and interleaving anywhere |
| `RefreshQueue.dfy` | the token-refresh queue of the wallet's HTTP client |
| `SessionLock.dfy` | the wallet's session lock over memory, storage and restarts |
| `RateLimit.dfy` | the fixed-window login rate limiter and its sweep |
| `AuditMask.dfy` | masking of audit payloads |
| `Inbox.dfy` | notification deduplication and routing |
| `Rbac.dfy`, `ResetTokens.dfy` | roles, permissions and reset tokens of staff |
| `QrCode.dfy`, `DeviceHash.dfy`, `Dashboard.dfy`, `Paging.dfy` | QR print and parse, the device hash, chart binning, page and menu arithmetic |

## Assumptions

- The finance service applies an idempotency key at most once; a transfer may
  fail before or after applying, and a success means that the key is applied.
- The database enforces primary keys, unique keys and foreign keys, lets an
  update of an id cascade into the rows that refer to it, and runs a transaction
  atomically. Tokens are fresh when they are drawn.
- Clocks, replies of foreign services, rounding, `toLowerCase` and `parseFloat`
  are parameters; `parseFloat("1") > 0` is the one fact used about the last.

## Where the code does not do what one would expect

Each of these is proved, with the exact condition where there is one.

- `payInvoice` looks an invoice up by id, number or reference but updates the
  row with the caller's identifier. A row can become PAID with nothing
  transferred; which answers of the lookup settle it is decided by whether
  another unpaid row of the user matches (`Settlement.PaidIsSettledExactly`,
  `Settlement.MisdirectedPayment`). A payment by number or reference moves the
  money and then fails at the update.
- An invoice without a partner becomes PAID and debits nothing
  (`Settlement.PaidDebit`).
- If an account appears between two attempts the applied legs are complete but
  may be out of order (`Settlement.LateAccountReorders`,
  `Settlement.SettledInOrderExactly`), and a PAID invoice can still gain a leg
  (`Settlement.PaidStillMoves`, `Settlement.NoMovesExactly`).
- The `finally` clause of the refresh also runs for queued requests, so any
  number of refreshes can be in flight at once (`RefreshQueue.BoundAttained`),
  and a logout that throws can strand waiting requests
  (`RefreshQueue.StrandedWaiter`, `RefreshQueue.WaitersBackedExactly`).
- Unless an unlock or a logout gets as far as a write that releases, the lock can
  be lost in memory in two ways only: an `initialize` that fails
  on storage after a restart (`SessionLock.LapseExample`), and an `initialize`
  in flight that read the keys before they were written
  (`SessionLock.StaleReadUnlocks`); see `SessionLock.LockSurvives` and
  `SessionLock.LockHoldsExactly`.
- The limiter's bound over any interval of one window is nine calls, one fewer
  than two windows' worth (`RateLimit.NinePerInterval`, `RateLimit.NineAttained`).
- A colon in a user id, an event type or a reference lets two notifications
  share a key (`Inbox.KeySharedExactly`). User ids are UUIDs in the schema
  (`apps/portal-service/prisma/schema.prisma`, model `User`) and the event types
  are plain words, so with those two free of colons the key still tells all
  events apart (`Inbox.KeyInjective`); nothing restricts the reference. An
  event without any reference is recorded again on redelivery
  (`Inbox.RecordedTwiceExactly`).
- A colon in an amount breaks the QR round trip (`QrCode.RoundTrip`).
- No menu item is active when a longer item stops inside a path segment
  (`Paging.NoneActive`; exactly when an item is, in `Paging.ActiveExactly`).
- A grant can land on a role after it became a system role
  (`Rbac.GrantRacesFlag`; exactly when, in `Rbac.FrozenExactly`), and a new id for
  a permission changes a system role's set unchecked
  (`Rbac.RenameChangesSystemRole`; exactly when, in `Rbac.SystemRoleFrozen`).
- Two overlapping resets can both use one token, and a superseded token can
  still succeed and wipe its successor (`ResetTokens.OverlappingResets`,
  `ResetTokens.SupersededSucceeds`; exactly when, in
  `ResetTokens.ResetsLegitimateExactly`).

## Model

| member | source | states |
|---|---|---|
| `Settlement.ExactlyOnce` | j-ledger-portal/apps/portal-service/src/modules/billing/billing.service.ts:349-476 | Over every run of interleaved, failing and retried attempts, made under id, number or reference, in which attempts that name the row find it and attempts on it see the same accounts present, under whatever ids: the legs the finance service has applied for it are a prefix of its required legs in order, and all of them once the invoice is PAID |
| `Settlement.ExactTransfers` | j-ledger-portal/apps/portal-service/src/modules/billing/billing.service.ts:349-476 | When the attempts read identical accounts, the same of the applied transfers down to wallet, destination and amount |
| `Settlement.PaidIsDistributed` | j-ledger-portal/apps/portal-service/src/modules/billing/billing.service.ts:358-463 | In such a run with pairwise different accounts, once PAID: the wallet was drawn the total less the legs without an account and credited nothing; the merchant's pending account got total - tax - fee - fee tax, the merchant's VAT account the tax, the system's revenue account the fee and its VAT account the fee tax |
| `Settlement.PlanDistributes` | j-ledger-portal/apps/portal-service/src/modules/billing/billing.service.ts:389-452 | The same of the transfers of one payment, by summing what they credit to and draw from each account |
| `Settlement.BookedIsPlan` | j-ledger-portal/apps/portal-service/src/modules/billing/billing.service.ts:389-452 | A first payment whose calls succeed books exactly those transfers, in order |
| `Settlement.EachLegMovesOnce` | j-ledger-portal/apps/portal-service/src/modules/billing/billing.service.ts:390-452 | In every run whatsoever each idempotency key is applied at most once, and every applied transfer is a leg of a stored invoice at that leg's recorded amount |
| `Settlement.PaidIsCovered` | j-ledger-portal/apps/portal-service/src/modules/billing/billing.service.ts:352-476 | When accounts appear or vanish between attempts: a PAID invoice has, each once, every leg required under the accounts that an attempt naming it read, whatever other attempts found it |
| `Settlement.SettledInOrderExactly` | j-ledger-portal/apps/portal-service/src/modules/billing/billing.service.ts:389-463 | From every state, a complete attempt leaves exactly its required legs applied and in order if and only if the legs applied before it are a prefix of them |
| `Settlement.LateAccountReorders` | j-ledger-portal/apps/portal-service/src/modules/billing/billing.service.ts:403-452 | A concrete run in which a VAT account appears between two attempts and the legs are applied as net, fee, VAT, fee VAT |
| `Settlement.WholeAttemptRuns` | j-ledger-portal/apps/portal-service/src/modules/billing/billing.service.ts:349-463 | An undisturbed attempt always reaches its update, marks the row it named PAID, leaves other invoices' journals alone, and adds exactly its missing legs in order |
| `Settlement.NoMovesExactly` | j-ledger-portal/apps/portal-service/src/modules/billing/billing.service.ts:352-452 | From every state with the invoice PAID, no run moves money for it if and only if every attempt in flight on it has all its remaining legs journalled |
| `Settlement.NoMovesAfterPaid` | j-ledger-portal/apps/portal-service/src/modules/billing/billing.service.ts:352-354 | After a run as in ExactlyOnce, once an invoice is PAID no continuation of any kind moves money for it |
| `Settlement.LateLegMoves` | j-ledger-portal/apps/portal-service/src/modules/billing/billing.service.ts:389-452 | An attempt in flight with a leg ahead that is not journalled has a run that moves money, PAID or not |
| `Settlement.PaidStillMoves` | j-ledger-portal/apps/portal-service/src/modules/billing/billing.service.ts:352-452 | A concrete run in which a PAID invoice still gains a leg, from an attempt that had seen more accounts |
| `Settlement.RunKeepsTerms` | j-ledger-portal/apps/portal-service/src/modules/billing/billing.service.ts:455-463 | No run changes a stored invoice's terms, and a PAID invoice stays PAID |
| `Settlement.RunKeepsBacked` | j-ledger-portal/apps/portal-service/src/modules/billing/billing.service.ts:389-452 | In every run an attempt's finished legs are all in the finance journal |
| `Settlement.RunKeepsWellformed` | j-ledger-portal/apps/portal-service/src/modules/billing/billing.service.ts:349-463 | Every run keeps rows under their ids and attempts on stored invoices with the legs the guards select |
| `Settlement.KeysInjective` | j-ledger-portal/apps/portal-service/src/modules/billing/billing.service.ts:394-443 | Equal idempotency-key strings come from the same leg of the same invoice |
| `Settlement.KeysAsSent` | j-ledger-portal/apps/portal-service/src/modules/billing/billing.service.ts:394-443 | The four idempotency keys, character by character |
| `Settlement.StringsDecideRepeats` | j-ledger-portal/apps/portal-service/src/modules/billing/billing.service.ts:394-443 | A finance service that compares key strings drops exactly the repeated legs |
| `Settlement.DebitIsAppliedLegs` | j-ledger-portal/apps/portal-service/src/modules/billing/billing.service.ts:376-452 | What was moved for an invoice equals the sum of its applied legs, each counted once |
| `Settlement.NeverOvercharged` | j-ledger-portal/apps/portal-service/src/modules/billing/billing.service.ts:376-452 | In every state of every run, whatever accounts were read, an invoice with non-negative recorded legs and total has cost the customer at most its total, even when the residual is negative |
| `Settlement.RunKeepsNetFirst` | j-ledger-portal/apps/portal-service/src/modules/billing/billing.service.ts:389-452 | In every run no leg of an invoice is applied before its net leg |
| `Settlement.CreatedInvoiceConserved` | j-ledger-portal/apps/portal-service/src/modules/billing/billing.service.ts:31-463 | From creation to settlement, for every item list, rates and rounding: an invoice with the created amounts never costs more than its total in any run, and once PAID exactly the total less the withheld legs |
| `Settlement.PlanTotal` | j-ledger-portal/apps/portal-service/src/modules/billing/billing.service.ts:376-452 | The transfers of one payment sum to the total less exactly the positive legs whose destination account is absent |
| `Settlement.PaidDebit` | j-ledger-portal/apps/portal-service/src/modules/billing/billing.service.ts:358-463 | Under the conditions of ExactlyOnce, once PAID the customer was debited the total less exactly the withheld legs, and nothing for an invoice without a partner |
| `Settlement.PaidDebitRange` | j-ledger-portal/apps/portal-service/src/modules/billing/billing.service.ts:358-463 | When accounts appear or vanish between attempts: a PAID partnered invoice was debited at most its total and at least what is due under accounts that an attempt naming it read |
| `Settlement.RetrySettles` | j-ledger-portal/apps/portal-service/src/modules/billing/billing.service.ts:349-463 | After any number of failed attempts, under whatever identifiers, one undisturbed attempt under the invoice's own id pays it in full, no leg twice |
| `Settlement.PaidIsSettledExactly` | j-ledger-portal/apps/portal-service/src/modules/billing/billing.service.ts:455-463 | The update goes to the caller's identifier: whichever matching row the lookup returns, a complete attempt leaves the named row PAID and settled, if and only if its legs were all applied already or no other unpaid row of the user matches the query |
| `Settlement.MisdirectedPayment` | j-ledger-portal/apps/portal-service/src/modules/billing/billing.service.ts:134-142 | A concrete lookup by reference after which an invoice is PAID and nothing was transferred |
| `Settlement.LookupFinds` | j-ledger-portal/apps/portal-service/src/modules/billing/billing.service.ts:134-142 | An unpaid invoice of the caller is found under its id, its number and its reference, with or without PAY- |
| `Settlement.LookupResolves` | j-ledger-portal/apps/portal-service/src/modules/billing/billing.service.ts:144-166 | A TXN identifier leads to the invoice with the resolved reference, with or without PAY- on either side |
| `Settlement.LookupIsOwn` | j-ledger-portal/apps/portal-service/src/modules/billing/billing.service.ts:168-174 | No one pays another user's invoice, and no attempt starts on a PAID one |
| `BillingService.Service.CreateInvoice` | j-ledger-portal/apps/portal-service/src/modules/billing/billing.service.ts:31-100 | Stores a PENDING invoice with the created amounts as a protocol step, or rejects a total below the minimum and changes nothing |
| `BillingService.Service.SendLeg` | j-ledger-portal/apps/portal-service/src/modules/billing/billing.service.ts:390-401 | One awaited transfer is one Call step under every reply, and the journal grows only by an unseen key |
| `BillingService.Service.SendGuarded` | j-ledger-portal/apps/portal-service/src/modules/billing/billing.service.ts:403-418 | A guarded transfer is sent exactly when its amount is positive and its account exists, and is then the next required leg |
| `BillingService.Service.SendMerchantLegs` | j-ledger-portal/apps/portal-service/src/modules/billing/billing.service.ts:389-418 | The net transfer, then the merchant's VAT, stopping at the first failure |
| `BillingService.Service.SendSystemLegs` | j-ledger-portal/apps/portal-service/src/modules/billing/billing.service.ts:420-452 | The system fee, then its VAT, stopping at the first failure |
| `BillingService.Service.SendLegs` | j-ledger-portal/apps/portal-service/src/modules/billing/billing.service.ts:389-452 | The legs are sent in order and stop at the first failure; success exactly when every required leg succeeds |
| `BillingService.Service.PayInvoice` | j-ledger-portal/apps/portal-service/src/modules/billing/billing.service.ts:349-476 | Every payment under every failure pattern is a run of the protocol; which error is returned when, and the exact condition of success; on success the named row becomes PAID with its reference, every required leg is journalled, and a first payment gives wallet, merchant.pending, merchant.vat, system.revenue and system.vatPayable exactly their shares |
| `BillingService.Service.Settle` | j-ledger-portal/apps/portal-service/src/modules/billing/billing.service.ts:389-476 | The transfers and the update: succeeds exactly when every required leg and the update do, and then books each leg and changes that row alone |
| `BillingService.FirstPayment` | j-ledger-portal/apps/portal-service/src/modules/billing/billing.service.ts:358-452 | The accounts read from wallet, merchant and system are the ones the shares go to |
| `BillingService.Service.ComputeAmounts` | j-ledger-portal/apps/portal-service/src/modules/billing/billing.service.ts:31-77 | The arithmetic in the order of the code, with its reduce loop, gives the created amounts |
| `BillingService.AllSucceedByLeg` | j-ledger-portal/apps/portal-service/src/modules/billing/billing.service.ts:389-452 | The legs that must succeed are net, and each other leg that is positive and has an account |
| `Invoicing.NetRoundingBound` | j-ledger-portal/apps/portal-service/src/modules/billing/billing.service.ts:31-77 | For every item list and rate, the merchant's residual lies within (1+v)(1+f)/2 + 1/2 satang of s(1 - f(1+v)^2), above and below, through the three chained roundings |
| `Invoicing.SubtotalByPiece` | j-ledger-portal/apps/portal-service/src/modules/billing/billing.service.ts:35-38 | One piece costs its price, and a line of quantity q1 + q2 costs what two lines of q1 and q2 cost |
| `Invoicing.SubtotalConcat` | j-ledger-portal/apps/portal-service/src/modules/billing/billing.service.ts:35-38 | The subtotal is additive over lists of lines |
| `Invoicing.SumItems` | j-ledger-portal/apps/portal-service/src/modules/billing/billing.service.ts:35-38 | The left-to-right reduce computes the subtotal: what is summed and what remains always add up to it |
| `Invoicing.AmountsByPartner` | j-ledger-portal/apps/portal-service/src/modules/billing/billing.service.ts:32-77 | Without a partner no VAT, fee or minimum; with an unknown one VAT but no fee |
| `Invoicing.AcceptedExactly` | j-ledger-portal/apps/portal-service/src/modules/billing/billing.service.ts:31-46 | With settings missing or zero, a partnered invoice is accepted exactly when subtotal plus 7 % VAT reaches 5.00 |
| `Invoicing.AcceptedAsStated` | j-ledger-portal/apps/portal-service/src/modules/billing/billing.service.ts:31-46 | With settings stated, exactly when subtotal plus VAT at that rate reaches that minimum |
| `Invoicing.RecordedLegsNearIdeal` | j-ledger-portal/apps/portal-service/src/modules/billing/billing.service.ts:31-77 | VAT, total, fee and fee VAT each stay within a stated distance of their unrounded values, however ties are broken |
| `Invoicing.RecordedLegsNonNegative` | j-ledger-portal/apps/portal-service/src/modules/billing/billing.service.ts:35-77 | With non-negative prices and rates the three recorded legs are non-negative |
| `Invoicing.NetPositiveAtDefaults` | j-ledger-portal/apps/portal-service/src/modules/billing/billing.service.ts:31-46 | With VAT at 7 %, a minimum of at least 5.00, stated or by default, and any fee rate up to 3 % every accepted invoice has a positive net leg |
| `Invoicing.NetCanBeNegative` | j-ledger-portal/apps/portal-service/src/modules/billing/billing.service.ts:64-77 | The net leg can be negative: a fee rate of 100 % is accepted and leaves the merchant owing the fee's VAT |
| `RefreshQueue.RefreshesBounded` | j-ledger-portal/apps/wallet-app/src/lib/axios.ts:178-267 | In every interleaving the refreshes in flight are at most the requests queued so far plus one while the flag is up, the flag implies a refresh in flight, and no request is transmitted more than twice |
| `RefreshQueue.ResentExactly` | j-ledger-portal/apps/wallet-app/src/lib/axios.ts:178-267 | Over every run, told from its steps: a request is transmitted a second time exactly when its own refresh succeeded or it was called back; so one that settled after a single transmission had no 401, no refresh token, or a failed refresh |
| `RefreshQueue.RunExplained` | j-ledger-portal/apps/wallet-app/src/lib/axios.ts:178-267 | Every run keeps each request's phase and counters explained by the steps taken |
| `RefreshQueue.BoundAttained` | j-ledger-portal/apps/wallet-app/src/lib/axios.ts:189-267 | That bound is tight: for every n there is a run with n queued requests and n + 1 simultaneous refreshes, because the finally clause also runs for the queued return |
| `RefreshQueue.NoWaiterIsLost` | j-ledger-portal/apps/wallet-app/src/lib/axios.ts:185-267 | In every run that never strands a waiter, so in every run whose logouts return: once no refresh is in flight the queue is empty and every queued request was called back exactly once |
| `RefreshQueue.WaitersBackedExactly` | j-ledger-portal/apps/wallet-app/src/lib/axios.ts:185-267 | Over every run, every state has a refresh in flight for its waiters if and only if no logout throws while requests wait and its refresh is the only one in flight |
| `RefreshQueue.SoleRefreshCanStrand` | j-ledger-portal/apps/wallet-app/src/lib/axios.ts:250-267 | From every state in which requests wait for a single refresh, a failed refresh with a throwing logout strands them |
| `RefreshQueue.StrandedWaiter` | j-ledger-portal/apps/wallet-app/src/lib/axios.ts:189-267 | Such a run exists from the initial state |
| `RefreshQueue.RunLength` | j-ledger-portal/apps/wallet-app/src/lib/axios.ts:178-267 | Every run is finite: a decreasing measure bounds its length by the requests sent |
| `RefreshQueue.UnsettledCanStep` | j-ledger-portal/apps/wallet-app/src/lib/axios.ts:178-267 | While a request has not settled some step other than a new send is possible, so with RunLength all requests settle |
| `RefreshQueue.StepKeepsInv` | j-ledger-portal/apps/wallet-app/src/lib/axios.ts:170-267 | Every step keeps the invariant on flag, queue, counters and phases |
| `RefreshQueue.StepProgress` | j-ledger-portal/apps/wallet-app/src/lib/axios.ts:178-267 | Every step but a new send decreases the measure, and only a throwing logout can lose a waiter |
| `RefreshQueue.CallEach` | j-ledger-portal/apps/wallet-app/src/lib/axios.ts:245-246 | Calling the callbacks one by one in queue order resumes each waiting request exactly as often as it is listed and touches no other |
| `RefreshQueue.Interceptor.constructor` | j-ledger-portal/apps/wallet-app/src/lib/axios.ts:89-90 | The module starts with the flag down and an empty queue |
| `RefreshQueue.Interceptor.ResponseError` | j-ledger-portal/apps/wallet-app/src/lib/axios.ts:170-183 | A first 401 outside the auth endpoints starts the refresh path; every other response settles the request |
| `RefreshQueue.Interceptor.TokenRead` | j-ledger-portal/apps/wallet-app/src/lib/axios.ts:185-199 | After the token read the request logs out, queues and lowers the flag, or starts a refresh |
| `RefreshQueue.Interceptor.CallSubscribers` | j-ledger-portal/apps/wallet-app/src/lib/axios.ts:245-246 | The whole queue is drained |
| `RefreshQueue.Interceptor.RefreshSucceeded` | j-ledger-portal/apps/wallet-app/src/lib/axios.ts:241-249 | The code after a successful refresh is one step of the protocol and keeps the invariant |
| `RefreshQueue.Interceptor.RefreshFailed` | j-ledger-portal/apps/wallet-app/src/lib/axios.ts:250-260 | The catch clause up to its awaited logout is one step |
| `RefreshQueue.Interceptor.LogoutEnded` | j-ledger-portal/apps/wallet-app/src/lib/axios.ts:257-267 | The rest of the catch clause and the finally clause are one step, for a logout that returns and for one that throws |
| `SessionLock.LockSurvives` | j-ledger-portal/apps/wallet-app/src/store/auth.ts:59-328 | From a held lock, over every run of all the store's calls and of restarts, with crashes and failed storage accesses at every point, in which no unlock or logout gets as far as a write that releases: every initialised state asks for the PIN if and only if no initialize fails while memory does not hold the lock |
| `SessionLock.LockHoldsExactly` | j-ledger-portal/apps/wallet-app/src/store/auth.ts:214-299 | With a locked session stored and whatever calls under way: every run that releases nothing, and in which no initialize fails, keeps asking for the PIN if and only if no initialize in flight has read something that makes it decide otherwise |
| `SessionLock.AuthenticatedExactly` | j-ledger-portal/apps/wallet-app/src/store/auth.ts:59-299 | While the lock is stored and nothing releases it, a state is authenticated if and only if a token was written to memory with no restart, no decision of an initialize and no cleared token since |
| `SessionLock.RestartNeedsToken` | j-ledger-portal/apps/wallet-app/src/store/auth.ts:214-299 | After a restart with the lock stored nobody is authenticated until a token is written |
| `SessionLock.InitializeDeauthenticates` | j-ledger-portal/apps/wallet-app/src/store/auth.ts:248-261 | A later initialize of a locked session takes the authentication back |
| `SessionLock.FailedCallHolds` | j-ledger-portal/apps/wallet-app/src/store/auth.ts:182-328 | An unlock, a logout or any other call that fails or dies before it releases anything leaves the lock held |
| `SessionLock.FailedUnlockHolds` | j-ledger-portal/apps/wallet-app/src/store/auth.ts:182-193 | An unlock with an accepted PIN that fails at any access up to the deletion of the lock key leaves the lock held |
| `SessionLock.UnsafeInitLapses` | j-ledger-portal/apps/wallet-app/src/store/auth.ts:227-299 | Every such initialize has a run of calls already under way, without crash, failure or release, to an initialised store that does not ask for the PIN |
| `SessionLock.StaleReadUnlocks` | j-ledger-portal/apps/wallet-app/src/store/auth.ts:200-299 | A concrete run on a native platform: an initialize reads the lock key just before lockSession writes it, and ends with the disk locked and the store not asking |
| `SessionLock.LockTakesHold` | j-ledger-portal/apps/wallet-app/src/store/auth.ts:200-208 | When no initialize in flight has read anything that contradicts the lock, lockSession takes hold with its memory write, or with a crash at any point after its storage write, whatever runs, fails or restarts in between |
| `SessionLock.StoredSurvives` | j-ledger-portal/apps/wallet-app/src/store/auth.ts:59-328 | Through restarts, failed accesses and calls that release nothing, the stored lock, user and token stay in place and no initialize comes to contradict them |
| `SessionLock.LapseExample` | j-ledger-portal/apps/wallet-app/src/store/auth.ts:294-298 | A restart followed by an initialize that fails on its first read shows an initialised store that does not ask for the PIN |
| `SessionLock.StepHolds` | j-ledger-portal/apps/wallet-app/src/store/auth.ts:59-328 | One step that releases nothing keeps the lock held unless it is that failing initialize, and then the lock is not asked for |
| `SessionLock.AuthStore.constructor` | j-ledger-portal/apps/wallet-app/src/store/auth.ts:48-57 | A cold start knows nothing but what is stored |
| `SessionLock.AuthStore.Do` | j-ledger-portal/apps/wallet-app/src/store/auth.ts:59-106 | One storage access or memory write is one step |
| `SessionLock.AuthStore.SetTokens` | j-ledger-portal/apps/wallet-app/src/store/auth.ts:59-77 | setToken writes token, then refresh token if given, then memory, as a run of the steps |
| `SessionLock.AuthStore.ClearTokens` | j-ledger-portal/apps/wallet-app/src/store/auth.ts:78-88 | setToken with null drops both tokens on disk and in memory and the authentication |
| `SessionLock.AuthStore.PutUser` | j-ledger-portal/apps/wallet-app/src/store/auth.ts:91-106 | setUser stores or drops the user on disk and in memory, and nothing else |
| `SessionLock.AuthStore.UpdateActivity` | j-ledger-portal/apps/wallet-app/src/store/auth.ts:210-212 | updateActivity changes neither stored keys nor session |
| `SessionLock.AuthStore.LockSession` | j-ledger-portal/apps/wallet-app/src/store/auth.ts:200-208 | Storage is locked before memory |
| `SessionLock.AuthStore.UnlockWithPin` | j-ledger-portal/apps/wallet-app/src/store/auth.ts:182-198 | An accepted PIN stores issued tokens and clears the lock; a rejected one changes nothing |
| `SessionLock.AuthStore.LogoutSession` | j-ledger-portal/apps/wallet-app/src/store/auth.ts:301-328 | logout drops both tokens and the memory session; the stored user and lock stay |
| `SessionLock.AuthStore.InitializeStore` | j-ledger-portal/apps/wallet-app/src/store/auth.ts:214-299 | From what is stored alone: a session is restored exactly when a user and some token are stored, with that user and those tokens; it is authenticated exactly with an access token and no lock, and asks for the PIN exactly when locked or without an access token |
| `SessionLock.AuthStore.Restore` | j-ledger-portal/apps/wallet-app/src/store/auth.ts:245-299 | The three branches on what was read, and the finally clause, as a run |
| `SessionLock.AuthStore.StartFresh` | j-ledger-portal/apps/wallet-app/src/store/auth.ts:275-292 | Tokens without a user are deleted on a native platform and memory is cleared |
| `RateLimit.NinePerInterval` | j-ledger-portal/apps/admin-web/src/lib/auth/rate-limit.ts:11-36 | With a non-decreasing clock and no clear, an identifier gets at most nine allowed calls in any closed interval of WINDOW_MS |
| `RateLimit.NineAttained` | j-ledger-portal/apps/admin-web/src/lib/auth/rate-limit.ts:11-36 | Nine is attained by a concrete call sequence |
| `RateLimit.FivePerWindow` | j-ledger-portal/apps/admin-web/src/lib/auth/rate-limit.ts:11-36 | A window that a call opens allows at most four more calls up to its reset |
| `RateLimit.WindowAllows` | j-ledger-portal/apps/admin-web/src/lib/auth/rate-limit.ts:21-36 | What the rest of a live window allows is exactly the smaller of the calls made in it and the attempts left |
| `RateLimit.RemainingIsExact` | j-ledger-portal/apps/admin-web/src/lib/auth/rate-limit.ts:14-36 | The reported remaining is exactly how many further calls of that window will be allowed |
| `RateLimit.Independent` | j-ledger-portal/apps/admin-web/src/lib/auth/rate-limit.ts:14-36 | An identifier's answers are those it would get alone, without other identifiers and without sweeps |
| `RateLimit.SweepUnobservable` | j-ledger-portal/apps/admin-web/src/lib/auth/rate-limit.ts:43-50 | For every call sequence and every placement of sweeps, all answers equal those of a store that is never swept |
| `RateLimit.ClearStartsAfresh` | j-ledger-portal/apps/admin-web/src/lib/auth/rate-limit.ts:38-40 | After a clear the next call is allowed with 4 remaining, and of the calls in the following 60000 ms exactly four more are allowed |
| `RateLimit.ClearIsPrivate` | j-ledger-portal/apps/admin-web/src/lib/auth/rate-limit.ts:38-40 | A clear changes no answer of any other identifier, now or later |
| `RateLimit.Limiter.constructor` | j-ledger-portal/apps/admin-web/src/lib/auth/rate-limit.ts:9-12 | The store starts empty |
| `RateLimit.Limiter.CheckRateLimit` | j-ledger-portal/apps/admin-web/src/lib/auth/rate-limit.ts:14-36 | The in-place update and answer are those of one Check event |
| `RateLimit.Limiter.ClearRateLimit` | j-ledger-portal/apps/admin-web/src/lib/auth/rate-limit.ts:38-40 | The entry is dropped |
| `RateLimit.Limiter.Cleanup` | j-ledger-portal/apps/admin-web/src/lib/auth/rate-limit.ts:43-50 | The deleting loop removes exactly the expired entries |
| `AuditMask.MaskKernel` | j-ledger-portal/apps/portal-service/src/modules/audit/audit.service.ts:94-121 | Two payloads mask to the same output if and only if they agree everywhere except at values under sensitive keys, for every tree and every key-folding function |
| `AuditMask.SensitiveExactly` | j-ledger-portal/apps/portal-service/src/modules/audit/audit.service.ts:99-113 | A key is sensitive exactly when its folded form has one of the seven folded names inside it |
| `AuditMask.NamedFieldsMasked` | j-ledger-portal/apps/portal-service/src/modules/audit/audit.service.ts:99-117 | In a masked payload, at every depth, a field whose key is p + name + q for one of the seven names is the mask |
| `AuditMask.NamesAreSensitive` | j-ledger-portal/apps/portal-service/src/modules/audit/audit.service.ts:99-113 | Whatever surrounds one of the seven names, the key is sensitive, for every folding that works character by character |
| `AuditMask.OtherFieldsKept` | j-ledger-portal/apps/portal-service/src/modules/audit/audit.service.ts:110-117 | A field whose folded key has none of the names in it keeps its key, and its value is masked in turn |
| `AuditMask.IsSensitive` | j-ledger-portal/apps/portal-service/src/modules/audit/audit.service.ts:111-113 | The loop over the names with includes |
| `AuditMask.LogNonInterference` | j-ledger-portal/apps/portal-service/src/modules/audit/audit.service.ts:67-92 | Two log calls write the same row exactly when they differ only in sensitive values |
| `AuditMask.MaskIsClean` | j-ledger-portal/apps/portal-service/src/modules/audit/audit.service.ts:94-121 | No sensitive value survives at any depth |
| `AuditMask.CleanIsFixed` | j-ledger-portal/apps/portal-service/src/modules/audit/audit.service.ts:94-121 | A clean payload is returned unchanged |
| `AuditMask.MaskIdempotent` | j-ledger-portal/apps/portal-service/src/modules/audit/audit.service.ts:94-121 | Masking twice is masking once, and the fixed points are exactly the clean payloads |
| `AuditMask.MaskKeepsTheRest` | j-ledger-portal/apps/portal-service/src/modules/audit/audit.service.ts:94-121 | Keys and every value at a path that passes no sensitive key are preserved, and below a sensitive key nothing but the mask can be found |
| `AuditMask.MaskSensitiveData` | j-ledger-portal/apps/portal-service/src/modules/audit/audit.service.ts:94-121 | The code's map over arrays and overwriting loop over a shallow copy compute exactly the recursive masking |
| `Inbox.OneRowPerKey` | j-ledger-portal/apps/notification-worker/src/notification/notification.service.ts:57-107 | Over every run of redelivered and interleaved handlers there is at most one row per key, and existing rows are never altered or removed |
| `Inbox.CompletedIsRecorded` | j-ledger-portal/apps/notification-worker/src/notification/notification.service.ts:71-107 | A handler that completes for a known user leaves its key in the inbox in every later state, whether it inserted, lost the race or came late |
| `Inbox.RowsComeFromEvents` | j-ledger-portal/apps/notification-worker/src/notification/notification.service.ts:42-102 | Every row, and every row still to be inserted, was made from a delivered event that was not silent |
| `Inbox.SequentialInbox` | j-ledger-portal/apps/notification-worker/src/notification/notification.service.ts:42-107 | A sequential run leaves exactly the first non-silent, known-user occurrence of each key, in order of arrival |
| `Inbox.SequentialRun` | j-ledger-portal/apps/notification-worker/src/notification/notification.service.ts:42-107 | The protocol, run one delivery after the other, leaves exactly the inbox of the sequential specification |
| `Inbox.RedeliveryKeepsKeyExactly` | j-ledger-portal/apps/notification-worker/src/notification/notification.service.ts:49-55 | A redelivery at another clock reading keeps its key if and only if the event has a reference, document or transaction id |
| `Inbox.RecordedTwiceExactly` | j-ledger-portal/apps/notification-worker/src/notification/notification.service.ts:49-102 | An event delivered twice at different clock readings is recorded twice if and only if it has none of these |
| `Inbox.KeyInjective` | j-ledger-portal/apps/notification-worker/src/notification/notification.service.ts:48-55 | With no colon in user ids and event types the key determines user, type and reference |
| `Inbox.EventsToldApart` | j-ledger-portal/apps/notification-worker/src/notification/notification.service.ts:48-102 | Two events share a key exactly when user, type and reference agree, as long as users and types have no colon; and what a row shows |
| `Inbox.KindOf` | j-ledger-portal/apps/notification-worker/src/notification/notification.service.ts:48 | The type is the event type, else the status, else NOTIFICATION, where empty counts as missing |
| `Inbox.ReferenceOf` | j-ledger-portal/apps/notification-worker/src/notification/notification.service.ts:49-53 | The reference is the reference id, else the document id, else the transaction id, else the clock |
| `Inbox.KeySharedExactly` | j-ledger-portal/apps/notification-worker/src/notification/notification.service.ts:48-55 | A key stands for a single user, type and reference if and only if none of the three contains a colon |
| `Inbox.SharedKey` | j-ledger-portal/apps/notification-worker/src/notification/notification.service.ts:55 | With a colon in any part, another triple with the same key |
| `Inbox.Worker.HandleEvent` | j-ledger-portal/apps/notification-worker/src/notification/notification.service.ts:22-163 | One undisturbed delivery changes the inbox as the sequential specification says and is routed exactly when it is eligible |
| `Inbox.Route` | j-ledger-portal/apps/notification-worker/src/notification/notification.service.ts:109-155 | The device loop and the fallback meet the routing rule: push to every device if allowed, e-mail security events and whatever no push delivered |
| `DeviceHash.Hash` | j-ledger-portal/apps/wallet-app/src/lib/device.utils.ts:50-57 | The loop computes the signed 32-bit reduction of the sum of c[i]*31^(n-1-i) (ToInt32 of section 7.1.6 of ECMA-262) |
| `DeviceHash.HashConcat` | j-ledger-portal/apps/wallet-app/src/lib/device.utils.ts:50-57 | The hash of a concatenation follows from the hashes of its parts and 31^|b| |
| `DeviceHash.PolynomialConcat` | j-ledger-portal/apps/wallet-app/src/lib/device.utils.ts:50-57 | The closed form splits over concatenation |
| `DeviceHash.StepIsHorner` | j-ledger-portal/apps/wallet-app/src/lib/device.utils.ts:52-56 | One iteration is one Horner step modulo 2^32, although every intermediate value is wrapped |
| `DeviceHash.StepStaysExact` | j-ledger-portal/apps/wallet-app/src/lib/device.utils.ts:52-56 | No intermediate value reaches 2^33 in magnitude, so doubles hold all of them exactly |
| `QrCode.RoundTrip` | j-ledger-portal/apps/wallet-app/src/lib/qr-validation.ts:74-127 | For every profile phone and amount, validating the printed code returns the ten-digit local phone and the amount, or no amount when it is not positive, if and only if a positive amount contains no colon |
| `QrCode.ParsePrinted` | j-ledger-portal/apps/wallet-app/src/lib/qr-parser.ts:17-26 | What the parser extracts from a printed code |
| `QrCode.ToLocalPhoneIdempotent` | j-ledger-portal/apps/wallet-app/src/app/my-qr.tsx:52-62 | Every phone string becomes ten digits beginning with zero, and a second application changes nothing |
| `QrCode.ToLocalPhoneForms` | j-ledger-portal/apps/wallet-app/src/app/my-qr.tsx:52-62 | A local number is read as itself, and so is its +66 form |
| `QrCode.ToLocalPhoneReads` | j-ledger-portal/apps/wallet-app/src/app/my-qr.tsx:52-68 | Whatever comes to the ten local digits, or to 66 and the last nine, is that local number |
| `QrCode.DigitsIgnoreOthers` | j-ledger-portal/apps/wallet-app/src/app/my-qr.tsx:53 | A character that is not a digit, inserted anywhere, does not matter |
| `QrCode.ToLocalPhoneElse` | j-ledger-portal/apps/wallet-app/src/app/my-qr.tsx:60-67 | Anything else, or no phone, prints the placeholder number |
| `QrCode.MerchantCode` | j-ledger-portal/apps/wallet-app/src/lib/qr-parser.ts:28-43 | A merchant address is accepted with its id and invalid without |
| `QrCode.PaymentCode` | j-ledger-portal/apps/wallet-app/src/lib/qr-parser.ts:45-60 | A payment address is accepted with its id and invalid without |
| `QrCode.IdParamFirst` | j-ledger-portal/apps/wallet-app/src/lib/qr-parser.ts:30-33 | The id of an address is what follows id= up to the next parameter |
| `QrCode.IdParamLater` | j-ledger-portal/apps/wallet-app/src/lib/qr-parser.ts:30-33 | Other parameters before the id do not matter |
| `QrCode.RecipientDigits` | j-ledger-portal/apps/wallet-app/src/lib/qr-validation.ts:74-96 | A recipient is accepted exactly with ten digits, or with nine that get a zero in front, if the amount is positive |
| `QrCode.ValidateInternal` | j-ledger-portal/apps/wallet-app/src/lib/qr-validation.ts:74-138 | What validation makes of a parsed internal code, by the sign of its amount |
| `QrCode.RoundTripWithAmount` | j-ledger-portal/apps/wallet-app/src/app/my-qr.tsx:77-80 | Printing a positive amount and validating returns it if and only if it has no colon |
| `Rbac.SystemRoleFrozen` | j-ledger-portal/apps/portal-service/src/admin/services/admin.service.ts:541-630 | Once a role is a system role and every operation that passed its check earlier and is still pending on it is inert: over every run of service operations its flag and permission set never change, if and only if none of its permissions is given a new id |
| `Rbac.FrozenExactly` | j-ledger-portal/apps/portal-service/src/admin/services/admin.service.ts:541-630 | Every run without such new ids leaves a system role as it is, if and only if all operations pending on it are inert |
| `Rbac.RenameChangesSystemRole` | j-ledger-portal/apps/portal-service/src/admin/services/admin.service.ts:625-630 | The failing input: with nothing pending, a new id for its only permission changes a system role's set, because the update has no role check and cascades into the grants |
| `Rbac.ThawingRun` | j-ledger-portal/apps/portal-service/src/admin/services/admin.service.ts:541-600 | For every pending operation on a system role that is not inert there is a run, without new ids, that changes the role's flag or permissions |
| `Rbac.GrantRacesFlag` | j-ledger-portal/apps/portal-service/src/admin/services/admin.service.ts:541-562 | A grant that passed its check before the role became a system role still lands |
| `Rbac.SyncIsExact` | j-ledger-portal/apps/portal-service/src/admin/services/admin.service.ts:578-600 | An accepted sync makes the role's set exactly the requested ids, a rejected one changes nothing, and other roles keep theirs |
| `Rbac.WrittenChanges` | j-ledger-portal/apps/portal-service/src/admin/services/admin.service.ts:552-600 | A grant adds exactly that id to the role's set, a removal takes exactly it away, a sync replaces the set, and no other role's grants change |
| `Rbac.AloneIsWritten` | j-ledger-portal/apps/portal-service/src/admin/services/admin.service.ts:541-600 | An operation that runs alone from its check to its write has exactly its write as effect |
| `Rbac.StaffPermissions` | j-ledger-portal/apps/portal-service/src/admin/services/admin.service.ts:122-152 | The nested loops give the duplicate-free union over all roles |
| `Rbac.RoleService.UpdateRole` | j-ledger-portal/apps/portal-service/src/admin/services/admin.service.ts:541-550 | Refused exactly for system and missing roles; otherwise the protocol's run |
| `Rbac.RoleService.UpdatePermission` | j-ledger-portal/apps/portal-service/src/admin/services/admin.service.ts:625-630 | Refused exactly for a missing permission or a taken id; otherwise every role's grant follows the new id |
| `Rbac.RoleService.AddRole` | j-ledger-portal/apps/portal-service/src/admin/services/admin.service.ts:535-539 | A new role is an ordinary one; an existing one is refused |
| `Rbac.RoleService.AssignPermission` | j-ledger-portal/apps/portal-service/src/admin/services/admin.service.ts:552-563 | Accepted exactly for an existing non-system role and an existing permission not yet granted; the role's set is then the old one plus that id |
| `Rbac.RoleService.RemovePermission` | j-ledger-portal/apps/portal-service/src/admin/services/admin.service.ts:565-576 | Refused exactly for system roles; otherwise the role's set is the old one without that id |
| `Rbac.RoleService.SyncRolePermissions` | j-ledger-portal/apps/portal-service/src/admin/services/admin.service.ts:578-600 | Delete-then-create in one transaction yields exactly the requested set or rolls back |
| `ResetTokens.ResetsLegitimateExactly` | j-ledger-portal/apps/portal-service/src/admin/services/admin.service.ts:201-292 | Over every run with fresh tokens: every successful reset uses its staff member's most recently issued token for the first time, if and only if between its lookup and its update no token was issued to that staff member and no reset by the same token finished; then each token succeeds at most once |
| `ResetTokens.StepTracks` | j-ledger-portal/apps/portal-service/src/admin/services/admin.service.ts:162-292 | Every step keeps: the resets overtaken since their lookup are exactly those no longer by a latest, unused token |
| `ResetTokens.SupersededSucceeds` | j-ledger-portal/apps/portal-service/src/admin/services/admin.service.ts:201-292 | A reset looked up before a newer token was issued still succeeds, and wipes the newer token |
| `ResetTokens.CurrentIsLegitimate` | j-ledger-portal/apps/portal-service/src/admin/services/admin.service.ts:262-292 | A reset that finishes on a row still holding its token uses its staff member's most recently issued token, and for the first time |
| `ResetTokens.UsedTwiceExactly` | j-ledger-portal/apps/portal-service/src/admin/services/admin.service.ts:262-292 | A token has already succeeded when its reset finishes if and only if another reset by it finished since the lookup |
| `ResetTokens.OverlappingResets` | j-ledger-portal/apps/portal-service/src/admin/services/admin.service.ts:262-292 | Two overlapping resets both succeed with one token, because the update does not check it again |
| `ResetTokens.StepKeepsInv` | j-ledger-portal/apps/portal-service/src/admin/services/admin.service.ts:162-292 | Every operation keeps: a stored token is its owner's latest, unused, and every token in play was issued to its staff member |
| `ResetTokens.OneHolder` | j-ledger-portal/apps/portal-service/src/admin/services/admin.service.ts:162-216 | In a reachable state a token is stored on one row only |
| `ResetTokens.RequestedTokenWorks` | j-ledger-portal/apps/portal-service/src/admin/services/admin.service.ts:201-216 | A token requested at t for an active member is accepted at every time before t + 24 h and at none from then on |
| `ResetTokens.InvitationWorks` | j-ledger-portal/apps/portal-service/src/admin/services/admin.service.ts:162-175 | So is the token of an invitation |
| `ResetTokens.DeactivatedTokenWaits` | j-ledger-portal/apps/portal-service/src/admin/services/admin.service.ts:425-451 | A deactivated or deleted member's token is not accepted; a reactivated member's is, if still stored and in time |
| `ResetTokens.FinishedReset` | j-ledger-portal/apps/portal-service/src/admin/services/admin.service.ts:281-289 | A finished reset clears the token, activates the member and touches no one else |
| `ResetTokens.PasswordDemands` | j-ledger-portal/apps/portal-service/src/admin/services/admin.service.ts:231-247 | A password passes with eight characters, upper case, lower case and a special character, and fails without any one of them |
| `ResetTokens.StaffService.AddStaff` | j-ledger-portal/apps/portal-service/src/admin/services/admin.service.ts:154-199 | Stores a fresh token valid for a day |
| `ResetTokens.StaffService.RequestPasswordReset` | j-ledger-portal/apps/portal-service/src/admin/services/admin.service.ts:201-216 | Replaces the stored token of an existing staff member, and changes nothing for a missing one |
| `ResetTokens.StaffService.ResetPasswordWithToken` | j-ledger-portal/apps/portal-service/src/admin/services/admin.service.ts:262-292 | Succeeds exactly for a stored, active, unexpired token and a complex password; the token was the latest and unused, and no row holds it afterwards |
| `Dashboard.NetChanges` | j-ledger-portal/apps/portal-service/src/admin/dashboard/admin-dashboard.controller.ts:550-567 | The bin map holds exactly the net change of each label |
| `Dashboard.Trend` | j-ledger-portal/apps/portal-service/src/admin/dashboard/admin-dashboard.controller.ts:569-585 | The backward loop shows at bin i the final total less the net changes of all later bins, clamped at zero, and null for hours to come |
| `Dashboard.BalanceTrend` | j-ledger-portal/apps/portal-service/src/admin/dashboard/admin-dashboard.controller.ts:436-479 | The balance chart is the backward reconstruction from top-ups and transfers in and withdrawals out |
| `Dashboard.BalanceByKind` | j-ledger-portal/apps/portal-service/src/admin/dashboard/admin-dashboard.controller.ts:449-457 | A bin's change is its top-ups and transfers less its withdrawals, counted by kind |
| `Dashboard.TrendEnds` | j-ledger-portal/apps/portal-service/src/admin/dashboard/admin-dashboard.controller.ts:460-479 | The newest bin shows the total, the one before it the total less the newest bin's change, and nothing is below zero |
| `Dashboard.YearSpan` | j-ledger-portal/apps/portal-service/src/admin/dashboard/admin-dashboard.controller.ts:620-634 | The shown years run from the first to the last that occur, and cover three years when only one does |
| `Dashboard.TrendNeverFalls` | j-ledger-portal/apps/portal-service/src/admin/dashboard/admin-dashboard.controller.ts:550-585 | With non-negative changes, as for revenue credits, the shown trend is non-decreasing over its non-null points |
| `Dashboard.TrendDifference` | j-ledger-portal/apps/portal-service/src/admin/dashboard/admin-dashboard.controller.ts:436-479 | Two bins' unclamped values differ by exactly what happened between them |
| `Dashboard.AllTimeVolume` | j-ledger-portal/apps/portal-service/src/admin/dashboard/admin-dashboard.controller.ts:620-647 | Every transaction adds one and its fee to exactly the bin of its year: volumes sum to the number of transactions and revenues to the total of fees |
| `Dashboard.CountKinds` | j-ledger-portal/apps/portal-service/src/admin/dashboard/admin-dashboard.controller.ts:328-350 | The counters count exactly the transactions of each category and sum to their number |
| `Dashboard.CountsByKind` | j-ledger-portal/apps/portal-service/src/admin/dashboard/admin-dashboard.controller.ts:337-350 | Each slice is the number of transactions of its kinds, and Other is the rest |
| `Dashboard.Distribution` | j-ledger-portal/apps/portal-service/src/admin/dashboard/admin-dashboard.controller.ts:328-367 | The slices sum to the number of transactions and dropping an empty Other slice loses nothing |
| `Paging.PagesPartition` | j-ledger-portal/apps/portal-service/src/admin/services/admin.service.ts:388-421 | The pages up to the reported total, concatenated, are the whole list, each row once and in order |
| `Paging.OnlyLastPageShort` | j-ledger-portal/apps/portal-service/src/modules/audit/audit.service.ts:134-203 | Every page but the last is full, and the last is not empty |
| `Paging.FirstPages` | j-ledger-portal/apps/portal-service/src/admin/services/admin.service.ts:388-392 | The first n pages are the first n*limit rows, or all of them |
| `Paging.StripIsFaithful` | j-ledger-portal/apps/admin-web/src/components/common/TablePagination.tsx:89-113 | For every page count the strip runs from 1 to the last page, contains the current one and its neighbours, has at most seven entries and shows an ellipsis exactly where pages are hidden |
| `Paging.PageStrip` | j-ledger-portal/apps/admin-web/src/components/common/TablePagination.tsx:89-113 | The pushes and includes checks of the component build exactly that strip |
| `Paging.AtMostOneActive` | j-ledger-portal/apps/admin-web/src/components/layout/Sidebar.tsx:371-382 | For every menu and every path at most one item is active |
| `Paging.ActiveExactly` | j-ledger-portal/apps/admin-web/src/components/layout/Sidebar.tsx:371-382 | Below the root an item is active exactly when the path is its own, or lies under it and no longer item is a prefix of the path |
| `Paging.RootActive` | j-ledger-portal/apps/admin-web/src/components/layout/Sidebar.tsx:371-373 | The root item is active on the root path only |
| `Paging.NoneActive` | j-ledger-portal/apps/admin-web/src/components/layout/Sidebar.tsx:374-382 | A longer item that stops inside a path segment hides the shorter one without being active itself |

## Left out

- `getInvoiceById` beyond its lookup: top-up and merchant-payment responses and Stripe lookups are foreign calls; the reference that a `TXN` identifier resolves to is a parameter.
- The finance service, identity, merchant, loyalty and KYC services: only the contract stated under Assumptions is used.
- Floating point: money is exact in satang with any rounding to nearest; the binary representation behind `toFixed`, and unit prices finer than a satang, are not modelled.
- Invoice numbers, notes, transfer types and metadata: copied through.
- Settlement.ExactlyOnce: the prefix in order is stated for attempts that see the same accounts present and, when they name the row, find it; Settlement.LateAccountReorders and Settlement.MisdirectedPayment show that neither can be dropped, and Settlement.PaidIsCovered, Settlement.PaidDebitRange and Settlement.SettledInOrderExactly say what holds when the accounts differ.
- Settlement.NoMovesAfterPaid: as for Settlement.ExactlyOnce up to the payment; Settlement.NoMovesExactly has the exact condition without it.
- SessionLock.LockTakesHold: no initialize in flight may have read anything that contradicts the lock; SessionLock.LockHoldsExactly, taken at the state after the memory write, shows that this is needed.
- SessionLock: on the web build storage is synchronous, and the model lets calls interleave there too; the results over all runs cover it, and the failing run of SessionLock.StaleReadUnlocks is for native platforms.
- Settlement.PaidDebit: as for Settlement.ExactlyOnce; Settlement.PaidDebitRange and Settlement.NeverOvercharged need no such condition.
- Rbac.SystemRoleFrozen: operations that passed their check before the role became a system role must be inert; Rbac.FrozenExactly shows that this is needed. Nested writes through the untyped bodies of role and permission updates, which could rewrite grants directly, are not modelled.
- Staff updates with arbitrary fields, role creation with a preset flag and the protection of the primary administrator's row: the reset-token results cover profile-only updates.
- The `lastActiveAt` and biometric keys of the session store, the PIN verification request itself and the registration store: they do not touch the lock.
- RefreshQueue: token strings, headers, storage writes of the refresh and the registration token are not modelled, only which request is transmitted, queued, resumed or rejected; an arbitrary failure while tokens are stored counts as a failed refresh.
- Values in audit payloads that JSON does not have (dates, decimals, cyclic objects).
- Titles, bodies, categories and paths of notifications, and the parsing of metadata strings.
- Time zones, daylight saving and date parsing of the dashboard: each record's bin label is given, and labels are distinct; hourly, daily and monthly volume bins add nothing beyond the yearly ones, except that records outside the shown range are dropped.
- Transaction kinds that name a property of every JavaScript object (`constructor`, for instance) in the distribution chart.
- The QR scan log and error texts.
- bcrypt, JWT, CSRF, certificate and biometric checks, secure-storage internals: library behaviour.
- All rendering, forms, controllers that only forward, seeds, messaging, mail and storage wiring.
