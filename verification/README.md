# Verification of the Bubllio CRM services

This project models the parts of the CRM backend whose correctness is hardest to see by reading:
the recurring-billing engine, the transactional outbox, workspace ownership and invitations, the
paged cross-type search, the customer-code allocator, deal tax and board ordering, and the
streaming business transfer. Every module is plain Dafny 4.11; `dafny verify dfyconfig.toml`
checks all of them.

## How the models are built

Database tables are maps keyed by what identifies a row (a charge by its due date, a membership by
workspace and user, an invitation by its token digest). Each function that runs in one database
transaction is one atomic step. A step is a function from a state to a new state or an error, a
run is a sequence of steps, and a refused step leaves the state as it was. The classes
(`BillingService.Ledger`, `Outbox.Table`, `AccessService.Directory`, `CustomerCodes.Companies`,
`DealBoard.Board`, `Transfer.Writer`) update rows in place as the services do, with the services'
loops, and are proved to produce exactly the state the step functions describe; the theorems about
all runs are about those step functions.

- `Calendar`, `DayNumbers`, `Money`: real month lengths and leap years, month addition with
  month-end clamping, the due-date chain, and half-up rounding on integer cents (tax rates in
  hundredths of a percent).
  Decimal division is exact here: the quotients that are rounded have at most 14 significant
  digits before and a denominator of at most 20000 behind, so 28 digits never disturb a half.
- `Billing`, `BillingInvariants`, `BillingChain`, `BillingTiling`, `BillingResume`,
  `BillingAgreement`, `BillingProgress`, `BillingExamples`, `BillingService`, `BillingEffects`,
  `Overview`, `OverviewRules`: one subscription with its charges and payments, with an arbitrary
  day for every step. `BillingExamples` holds the concrete runs at which a property with a
  condition fails.
- `Outbox`, `OutboxEffects`, `OutboxProtocol`, `OutboxProgress`: any number of messages, duplicate
  tasks, retries, dispatcher runs and lost workers under one clock. The one assumption is that the clock never passes a live worker's
  claim time plus the task limit (`src/bubllio_crm/settings.py:179`): by then the worker has
  finished or has been killed. Sending is success, failure or loss of the worker at any point.
- `Access`, `AccessEffects`, `Ownership`, `Authority`, `Invitations`, `AccessExamples`,
  `AccessService`: memberships, pending provisioning and invitations. Whatever the code reads
  without a lock is a step of its own, with any other transactions in between: the capability check of a managing request, the reading of
  the requester's role that follows it, the checks of an invitation before it is delivered, the
  look-up before an acceptance, and the check before an account deletion. Random tokens are assumed
  never to repeat, and every case-insensitive comparison of addresses is ASCII lower case.
- `OwnerTransfers`: the locked part of an ownership transfer again, statement by statement, for any
  number of transfers under way in one workspace.
- `Search`, `SearchOrder`, `CustomerCodes`, `CodeRules`, `DealTax`, `DealBoard`, `Json`, `JsonText`,
  `Transfer`, `TransferContents`, with `Decimals`, `Numbers`, `Ordering`, `Text` and `Wrappers` as
  helpers.

What each operation accepts and what it changes is also stated field by field, apart from the
functions that compute it: in `DayNumbers` by the closed form of the day count, in `BillingEffects`, `OutboxEffects`,
`AccessEffects` and `CodeRules` by the rows before it, in `SearchOrder` by the values that are
listed, in `OverviewRules` by single rows that add up, and in `TransferContents` by what the reader
of `JsonText` makes of the bytes.

## What the proofs found

- An account deletion checks for owned workspaces and deletes afterwards without a lock
  (`src/accounts/views.py:120-131`). Every workspace has exactly one owner in every state of a run if
  and only if no deletion is executed while its user owns something (`Ownership.ExactlyOneOwner`);
  a transfer of ownership between the check and the deletion is a run where one does
  (`AccessExamples.TransferDuringDeletion`).
- Managing requests read the capability and then the role, without a lock. Every permission held
  names a requester who could manage the workspace in one state and had the role read in that or a
  later one (`Authority.PermissionsWereReal`). Role changes and removals by somebody who never owned
  the workspace leave administrators and owners alone (`Authority.NonOwnersAreLimited`). For
  invitations with a privileged role this is so if and only if no request gets through whose role
  reading found the requester below administrator (`Authority.OffersAreOwnersExactly`). An
  administrator demoted between the two readings does get through, where both as administrator and
  as member the request would be refused (`Authority.SlippingIsDemotion`,
  `AccessExamples.MemberInvitesAdministrator`).
- Concurrent ownership transfers lock different rows. One owner survives in every interleaving if and
  only if the database enforces the unique-owner constraint (`OwnerTransfers.OneOwnerNeedsTheConstraint`).
- Resuming does not always undo a pause or a pending cancellation. In every reachable state it does
  exactly when `BillingResume.Restorable` holds before the stop. It does not when the pause comes
  before the first coverage (`BillingExamples.PauseBeforeCoverage`), with two later charges
  (`BillingExamples.PauseWithTwoLater`), or after an edit of the interval
  (`BillingExamples.PauseAfterEdit`). With a fixed interval the condition is simpler
  (`BillingResume.UndoneWithFixedInterval`), and the ordinary stop is undone
  (`BillingResume.OrdinaryStopIsUndone`).
- A cancellation at the end of the period keeps exactly the coverage up to its effective date if and
  only if no live charge that starts by then ends later (`BillingResume.CancelEndsCoverage`). That is
  always so with a fixed interval (`BillingResume.PeriodEndsCoverage`); after an edit to a much
  shorter interval the first charge outlasts the cancellation
  (`BillingExamples.CoverageOutlastsCancellation`).
- Payments bring a charge to life only under automatic renewal and by the end date. Resuming asks
  for neither, so a run keeps to both if and only if all its resumptions happen to
  (`BillingAgreement.BilledAsAgreed`, `BillingExamples.ResumeAgainstAgreement`).
- Coverage tiles time in all states of a run if and only if every payment and resumption that
  extends it finds the last charge covering exactly one interval as the subscription has it then
  (`BillingTiling.CoverageTilesExactly`). A fixed interval is enough, and so is an edit that is taken
  back in time. Paying after an edit to a shorter interval makes two charges overlap, after an edit
  to a longer one it leaves days uncovered (`BillingExamples.IntervalEditsOverlap`,
  `BillingExamples.IntervalEditsLeaveGaps`).
- A payment that should renew finds the next due date taken when a pause cancelled a charge there
  under another interval; it does not reopen that charge, and the active subscription is never
  billed again until somebody stops and resumes it (`BillingTiling.RenewalIsLive`,
  `BillingExamples.RenewalCanStall`, `BillingInvariants.SettledIsStuck`). This is one of several ways
  to stall; `BillingProgress.BillingGoesOnExactly` says for each step exactly when it leaves an
  active, recurring, automatically renewing subscription with room before its end date without
  anything to be paid.
- Due dates drift: each one is computed from the previous one, so 31 January leads to 28 March
  (`Calendar.ChainDrifts`), and `Calendar.ChainEqualsDirectSum` says exactly when it does not matter.
- Splitting a tax-inclusive amount and rebuilding it can be off by a cent
  (`DealTax.RebuildCanBeOff`); it is exact exactly when
  the remainder of the split is small (`DealTax.RebuildIsExactFor`), and exactly those amounts are the
  gross value of some net amount (`DealTax.GrossValuesAre`).
- The outbox is safe exactly when the task limit is below the lock timeout; the final status
  updates themselves check nothing (`OutboxProtocol.ExclusionNeedsTheLimits`,
  `OutboxProtocol.FinalityNeedsTheLimits`). Then, from every reachable state, each message that is
  neither finished nor legacy can still be sent within the lock timeout or the longest retry delay,
  even if all workers are lost at that moment (`OutboxProgress.EveryMessageCanBeSent`).
- Legacy automation rows, which the workers leave alone, are not left alone by the dispatcher: a stale
  one is requeued (`OutboxProtocol.LegacyChangesExactly`).
- Search pages are slices of one sorted list exactly when the database order and the sort key agree
  within every type (`Search.AgreementIsNecessary`). Under a database order that ignores spaces they
  are not: "delano" is shown twice and "de luca" never (`Search.SpacesBreakPages`).
- A company with the very last generated customer code can never be saved again with that code
  (`CustomerCodes.ResavingIsHarmless`), and two saves are enough to get there
  (`CustomerCodes.LastCodeIsStuck`).
- The overview filter and the computed status disagree only on a subscription that is cancelling
  without an effective date (`Overview.FilterMatchesStatus`), which no run reaches.

## Model

| member | source | states |
|---|---|---|
| Calendar.AddMonthsClamps | src/subscriptions/services.py:24-29 | the sum is the one date so many months later that is on the same day of the month, or on the last day of a month that is too short |
| Calendar.AddMonthsIsMonotone | src/subscriptions/services.py:24-29 | adding months keeps the order of dates, clamping included |
| Calendar.AddMonthsIncreases | src/subscriptions/services.py:24-34 | adding at least one month gives a later date |
| Calendar.NextDayCounts | src/subscriptions/services.py:34 | stepping one day is one unit of the day count behind date arithmetic, across months, leap days and years |
| Calendar.OrdinalIsMonotone | src/subscriptions/services.py:34 | the calendar order is the order of the day count |
| Calendar.PrevThenNext | src/subscriptions/services.py:34 | subtracting a day is undone by the next day and is earlier |
| DayNumbers.ValidDatesAreNumbered | src/subscriptions/services.py:28 | a day exists exactly when its number, by the closed form of the Gregorian day count, is below that of the first day of the next month; this gives every month its length |
| DayNumbers.DatesAreOrdered | src/subscriptions/services.py:29 | dates are ordered as their numbers |
| DayNumbers.NextDayIsNumbered | src/subscriptions/services.py:34 | the next day has the next number |
| DayNumbers.PrevDayIsNumbered | src/subscriptions/services.py:34 | and the day before the previous one |
| DayNumbers.AddMonthsIsNumbered | src/subscriptions/services.py:24-29 | adding months gives exactly the date that many months later on the same day, or on the day before the first of the month after |
| Calendar.ChainPosition | src/subscriptions/services.py:143-147 | the n-th due date is exactly n intervals after the first, on the smallest day clamping produced on the way, between min(first day, 28) and the first day |
| Calendar.ChainEqualsDirectSum | src/subscriptions/services.py:24-29 | repeated addition equals one addition exactly when no month on the way was shorter than the last one allows |
| Calendar.ChainDrifts | src/subscriptions/services.py:24-29 | a concrete chain where it does not |
| Calendar.ChainIsIncreasing | src/subscriptions/services.py:248-252 | due dates strictly increase along the chain |
| Money.HalfUpIsNearest | src/subscriptions/models.py:82-84 | the rounding is within half a cent of the quotient, halves away from zero |
| Money.HalfUpIsUnique | src/subscriptions/models.py:82-84 | and it is the only integer with that property |
| Billing.PeriodEnd | src/subscriptions/services.py:32-34 | coverage never ends before it starts, and its next day is the next due date |
| BillingEffects.TaxIs | src/subscriptions/models.py:82-84 | the tax is the one number of cents within half a cent of net times rate, halves away from zero |
| BillingEffects.NextDueIs | src/subscriptions/services.py:16-21 | the next due date is 1, 3, 6 or 12 months later, and one-off subscriptions have none |
| BillingEffects.PeriodEndIs | src/subscriptions/services.py:32-34 | coverage ends on the day before the next due date, or at once |
| BillingEffects.NewChargeIs | src/subscriptions/services.py:38-55 | a new charge has the due date, the coverage, the price, rate, tax, total and currency of the subscription, and is open and unpaid |
| BillingEffects.CreationEffect | src/subscriptions/serializers.py:170-183 | exactly which new subscriptions are accepted, and that one such charge is all they start with |
| BillingEffects.PaidAmountAddsUp | src/subscriptions/models.py:158-165 | what was paid is the sum of the payments |
| BillingInvariants.ReceiveOk | src/subscriptions/services.py:124-139 | an accepted payment keeps the row consistent and lowers the balance by its amount |
| BillingInvariants.CheckedTotalIsStored | src/subscriptions/services.py:77-103 | the total checked before an edit is the total stored by it |
| BillingInvariants.UpdateKeeps | src/subscriptions/services.py:58-115 | an accepted edit keeps every row consistent and the balance only on the last live charge |
| BillingInvariants.PayKeeps | src/subscriptions/services.py:118-147 | so does an accepted payment with its renewal |
| BillingInvariants.ResumeKeeps | src/subscriptions/services.py:224-259 | so does resuming |
| BillingInvariants.AfterKeeps | src/subscriptions/services.py:58-259 | so does every operation, accepted or refused |
| BillingInvariants.ReachableIsInvariant | src/subscriptions/models.py:139-157 | in every reachable state tax is the half-up product, gross is net plus tax, payments are positive and sum to between zero and gross, and only the last live charge can owe |
| BillingInvariants.AtMostOneBalance | src/subscriptions/services.py:38-55 | at most one open charge carries a balance, and it is the latest live one, across price and interval edits |
| BillingInvariants.HistoryIsFrozen | src/subscriptions/services.py:68-114 | no later run removes a charge, changes terms or payments of a settled one, takes back a payment or changes the currency of a paid-on one |
| BillingInvariants.EditMovesBalances | src/subscriptions/services.py:95-115 | an edit moves the open balance to the checked total minus what was paid, touches no other charge and creates none |
| BillingEffects.UpdateOutcome | src/subscriptions/services.py:58-97 | exactly which edits are accepted, and which error refuses the others, from the submitted values or else the old ones |
| BillingEffects.UpdateSetsFields | src/subscriptions/services.py:95-97 | every submitted field is set and no other |
| BillingEffects.UpdateReprices | src/subscriptions/services.py:99-114 | exactly the open charges with a balance get the submitted or else the old price, rate and currency and the tax and total that follow; coverage, state and payments stay, and so do all other charges |
| BillingInvariants.PaymentEffect | src/subscriptions/services.py:130-147 | what a payment changes, and exactly when it creates the next charge |
| BillingEffects.PaymentOutcome | src/subscriptions/services.py:124-129 | exactly which payments are accepted, and which error refuses the others |
| BillingEffects.PaymentAlone | src/subscriptions/services.py:130-142 | a payment that does not lead on appends itself to its charge and changes nothing else |
| BillingEffects.PaymentLeadsOn | src/subscriptions/services.py:141-147 | one that settles the charge of a subscription that goes on also moves the billing date and adds a new charge there if there is none |
| BillingInvariants.StoppedCreatesNothing | src/subscriptions/services.py:142 | while a subscription is not active, no run without a resume creates or reopens a charge |
| BillingInvariants.SettledIsStuck | src/subscriptions/services.py:58-161 | once nothing is owed on an active subscription, no run of edits, payments and resumptions changes or adds a charge before somebody stops it |
| BillingEffects.PauseEffect | src/subscriptions/services.py:200-209 | pausing sets the status and cancels exactly the open charges that start after today |
| BillingEffects.ExpiryEffect | src/subscriptions/services.py:212-221 | so does expiring |
| BillingEffects.CancellationDay | src/subscriptions/services.py:167-177 | a cancellation takes effect today, or at the end of the coverage that started last, or else of the first one |
| BillingEffects.CancellationEffect | src/subscriptions/services.py:178-196 | it sets the status, that day and the time, and cancels exactly the open charges that start later |
| BillingEffects.StatusOnDay | src/subscriptions/models.py:90-106 | the computed status on a day, from the stored one and the days that have passed |
| BillingEffects.ResumptionOutcome | src/subscriptions/services.py:226-231 | exactly which subscriptions can be resumed |
| BillingEffects.ResumptionAlone | src/subscriptions/services.py:232-249 | without a settled last charge, or without an interval, resuming only clears the stop |
| BillingEffects.ResumptionLeadsOn | src/subscriptions/services.py:243-258 | after a settled last charge it also moves the billing date, and reopens the charge there or adds a new one |
| BillingChain.ResumeOnChain | src/subscriptions/services.py:243-258 | resuming a chain does nothing or brings the next due date back to life |
| BillingChain.FixedIntervalIsChained | src/subscriptions/services.py:141-147 | with a fixed interval the charges are a prefix of the due-date chain, the live ones a prefix of it, and every followed charge is settled |
| BillingChain.CoverageTiles | src/subscriptions/services.py:45-47 | with a fixed interval every day from the first due date to the last live coverage end is covered by exactly one live charge, and no other day by any |
| BillingChain.NeighboursMeet | src/subscriptions/services.py:32-34 | in every run with a fixed interval the coverage of a live charge ends the day before the next live one starts |
| BillingTiling.TilesWhenMeeting | src/subscriptions/services.py:32-34 | the live charges cover every day from the first to the last exactly once if and only if each coverage ends the day before the next one starts |
| BillingTiling.RenewalMeets | src/subscriptions/services.py:141-147 | in every reachable state, after any edits, a renewal continues the coverage without gap or overlap if and only if the settled charge covers one current interval |
| BillingTiling.ResumptionMeets | src/subscriptions/services.py:243-258 | the same for the charge that resuming creates or reopens |
| BillingTiling.CoverageTilesExactly | src/subscriptions/services.py:58-259 | over every run with any edits, coverage tiles time in all states if and only if every step that extends it finds the last charge covering one current interval |
| BillingTiling.FixedIntervalFits | src/subscriptions/services.py:32-34 | which is always so while the interval is fixed |
| BillingTiling.RenewalIsLive | src/subscriptions/services.py:141-147 | a renewing payment brings the next charge to life if and only if its due date is free, and otherwise nothing is owed any more |
| BillingTiling.FixedIntervalRenews | src/subscriptions/services.py:141-147 | with a fixed interval the next due date is always free |
| BillingExamples.IntervalEditsOverlap | src/subscriptions/services.py:58-66 | runs in which an edit to a shorter interval makes two live charges cover the same day, for every first day |
| BillingExamples.IntervalEditsLeaveGaps | src/subscriptions/services.py:58-66 | runs in which an edit to a longer interval leaves a day between two coverages uncovered |
| BillingExamples.RenewalCanStall | src/subscriptions/services.py:141-147 | a run after which an active renewing subscription owes nothing and its next charge is cancelled |
| BillingResume.DropThenResume | src/subscriptions/services.py:193-259 | in every state that keeps the invariant, dropping the later charges and resuming restores the whole state if and only if Restorable holds |
| BillingResume.PauseThenResume | src/subscriptions/services.py:200-259 | the same for a pause, in every reachable active state, whatever was edited before |
| BillingResume.CancelThenResume | src/subscriptions/services.py:164-259 | the same for a cancellation at the end of the period |
| BillingResume.UndoneWithFixedInterval | src/subscriptions/services.py:193-259 | in every run with a fixed interval the condition is the simpler SimplyRestorable |
| BillingExamples.PauseBeforeCoverage | src/subscriptions/services.py:200-259 | a run in which pausing before the first coverage is not undone by resuming |
| BillingExamples.PauseWithTwoLater | src/subscriptions/services.py:200-259 | a run in which pausing with two later charges is not undone |
| BillingExamples.PauseAfterEdit | src/subscriptions/services.py:200-259 | a run in which pausing after an edit of the interval is not undone although one later charge owes and is billed next |
| BillingExamples.CoverageOutlastsCancellation | src/subscriptions/services.py:164-197 | a run in which a day after the effective date of a cancellation stays covered |
| BillingResume.OrdinaryStopIsUndone | src/subscriptions/services.py:164-259 | in every run with a fixed interval: inside a coverage, with at most one later charge and a balance on the latest charge, which is billed next, a pause and a cancellation at the end of the period are both undone by resuming |
| BillingResume.CancelEndsCoverage | src/subscriptions/services.py:164-197 | in every reachable state a cancellation keeps exactly the coverage up to its effective date if and only if no live charge that starts by then ends later |
| BillingResume.PeriodEndsCoverage | src/subscriptions/services.py:164-197 | which is so in every run with a fixed interval for a cancellation at the end of the period |
| BillingAgreement.StepGrowsAsAgreed | src/subscriptions/services.py:142-147 | every charge a step brings to life is due by the end date and under automatic renewal, unless the step is a resumption that extends the coverage without them |
| BillingAgreement.BilledAsAgreed | src/subscriptions/services.py:224-259 | over every run: all charges come to life as agreed if and only if every resumption that extends the coverage finds both |
| BillingProgress.StepFeedsExactly | src/subscriptions/services.py:58-259 | the exact condition for one edit, payment, stop or resumption to leave something to be paid on an active, recurring, renewing subscription with room before its end date |
| BillingProgress.BillingGoesOnExactly | src/subscriptions/services.py:141-147 | over every run: there always is something to be paid on such a subscription if and only if the first charge suffices and every step meets its condition |
| BillingExamples.ResumeAgainstAgreement | src/subscriptions/services.py:224-259 | a run that leaves a live charge due after the end date of a subscription that does not renew |
| BillingService.Ledger.constructor | src/subscriptions/serializers.py:180-183 | a new subscription starts with its first charge |
| BillingService.Ledger.EnsureCharge | src/subscriptions/services.py:38-55 | get or create by due date |
| BillingService.Ledger.EditableCharges | src/subscriptions/services.py:68-75 | collects exactly the open charges with a balance |
| BillingService.Ledger.CheckCharges | src/subscriptions/services.py:85-93 | refuses a total below what is paid and a currency change after a payment, and nothing else |
| BillingService.Ledger.RepriceCharges | src/subscriptions/services.py:99-114 | rewrites the commercial terms of exactly those charges |
| BillingService.Ledger.UpdateSubscription | src/subscriptions/services.py:58-115 | performs the edit step and keeps the invariant; a refused edit changes nothing |
| BillingService.Ledger.RecordPayment | src/subscriptions/services.py:118-161 | performs the payment step and keeps the invariant; a refused payment changes nothing |
| BillingService.Ledger.LatestCharge | src/subscriptions/services.py:243-247 | finds the live charge with the latest due date |
| BillingService.Ledger.CurrentCharge | src/subscriptions/services.py:168-176 | finds the live charge that started last, or else the first |
| BillingService.Ledger.CancelSubscription | src/subscriptions/services.py:164-197 | performs the cancellation step and keeps the invariant |
| BillingService.Ledger.PauseSubscription | src/subscriptions/services.py:200-209 | performs the pause step and keeps the invariant |
| BillingService.Ledger.ExpireSubscription | src/subscriptions/services.py:212-221 | performs the expiry step and keeps the invariant |
| BillingService.Ledger.ResumeSubscription | src/subscriptions/services.py:224-259 | performs the resume step and keeps the invariant; refused unless paused or pending cancellation |
| Overview.FilterMatchesStatus | src/subscriptions/models.py:90-106 | exactly when the overview filter agrees with the computed status |
| Overview.ActiveMeansEffectivelyActive | src/subscriptions/services.py:265-271 | in every reachable state a subscription counts as active exactly when it is effectively active or cancelling |
| Overview.GroupBalances | src/subscriptions/services.py:279-288 | the groups have exactly the owed currencies and the sums of the outstanding amounts |
| Overview.FillBalances | src/subscriptions/services.py:289-295 | the dictionaries and the overdue count follow from the groups |
| Overview.CountActive | src/subscriptions/services.py:316-319 | the counts are those of the computed statuses |
| Overview.SubscriptionOverview | src/subscriptions/services.py:262-329 | open and overdue balances, overdue count and subscription counts agree with the per-row definitions |
| OverviewRules.OneRow | src/subscriptions/services.py:278-288 | one charge counts with what is left to be paid, in its currency, and as overdue if it was due before today |
| OverviewRules.RowsAddUp | src/subscriptions/services.py:282-288 | and the sums and counts of any two lists of charges add up |
| OverviewRules.ListedCurrencies | src/subscriptions/services.py:289-295 | a currency is listed exactly if a charge in it has a balance, and as overdue if a late one has |
| OverviewRules.SubscriptionsCounted | src/subscriptions/services.py:316-319 | the counts are the numbers of subscriptions with these statuses |
| Outbox.Table.Claim | src/delivery/tasks.py:17-37 | claims exactly the claimable rows and changes no other |
| Outbox.Table.Finish | src/delivery/tasks.py:115-135 | the unconditional final update and when a retry is asked for |
| Outbox.Table.DispatchPending | src/delivery/tasks.py:138-154 | requeues exactly the stale rows and lists up to one batch of distinct due rows, all of them if they fit |
| OutboxEffects.DeployedLimits | src/delivery/tasks.py:13-14 | the deployed limits: two minutes for a task, fifteen for a lock, six attempts, batches of 500 |
| OutboxEffects.NewMessageIsDue | src/delivery/services.py:12-17 | a new message is queued, due at once, not locked and not attempted |
| OutboxEffects.ClaimedExactly | src/delivery/tasks.py:17-37 | exactly the queued messages and those locked for at least fifteen minutes can be claimed, but no legacy row; and what claiming sets |
| OutboxEffects.DelaysDouble | src/delivery/tasks.py:119 | the delay is a minute and then doubles up to an hour |
| OutboxEffects.RetrySchedule | src/delivery/tasks.py:117-128 | the retries come after 1, 2, 4, 8 and 16 minutes, and the sixth failure is final; secret, kind and attempts stay |
| OutboxEffects.SuccessIsRecorded | src/delivery/tasks.py:129-135 | success sets the time and clears the lock and the secret |
| OutboxEffects.DispatchedExactly | src/delivery/tasks.py:138-152 | exactly the rows locked for more than fifteen minutes are requeued, and exactly the queued ones that are due are handed out |
| OutboxProtocol.ClaimableIsFree | src/delivery/tasks.py:24-29 | a claimable message is held by no live worker |
| OutboxProtocol.StaleIsFree | src/delivery/tasks.py:140-144 | a message the dispatcher requeues is held by no live worker |
| OutboxProtocol.NextKeeps | src/delivery/tasks.py:17-144 | every step keeps exclusion, lock ages and the account of every message |
| OutboxProtocol.ReachableIsInvariant | src/delivery/tasks.py:17-144 | so they hold in every interleaving |
| OutboxProtocol.DoneIsFinal | src/delivery/tasks.py:120-135 | no later run changes anything about a sent or failed message |
| OutboxProtocol.LegacyChangesExactly | src/delivery/tasks.py:138-144 | a step changes a legacy row if and only if it is a dispatcher run that finds the row stale, and then only requeues it |
| OutboxProtocol.ExclusionNeedsTheLimits | src/delivery/tasks.py:13 | no two live workers ever hold one message if and only if the task limit is below the lock timeout |
| OutboxProtocol.FinalityNeedsTheLimits | src/delivery/tasks.py:110-135 | a finished message is never overwritten if and only if the task limit is below the lock timeout |
| OutboxProtocol.DeployedIsSafe | src/bubllio_crm/settings.py:179 | both hold for the deployed limits |
| OutboxProtocol.Accounting | src/delivery/tasks.py:30-36 | attempts count the claims and exceed six only by workers lost, completed sends are at most one more than workers lost, and the secret is intact until sent and blank after |
| OutboxProtocol.SixFailures | src/delivery/tasks.py:115-128 | without lost workers, failed means exactly six failed sends and no worker left, and sent means one send |
| OutboxProgress.BecomesDispatchable | src/delivery/tasks.py:138-154 | from every reachable state an unfinished message has a continuation within a stated time, even with all workers lost, after which the dispatcher hands it out |
| OutboxProgress.EveryMessageCanBeSent | src/delivery/tasks.py:138-154 | and one within the same time after which it is sent |
| OutboxProtocol.BackoffGrows | src/delivery/tasks.py:119 | the retry delay grows from a minute to at most an hour |
| Ownership.CreateKeeps | src/organizations/services/provisioning.py:43-67 | creating a workspace keeps exactly one owner everywhere |
| AccessEffects.CreationEffect | src/organizations/services/provisioning.py:43-67 | the creator owns the new workspace; for another owner provisioning and an owner invitation are added, if mail can be sent |
| AccessEffects.OwnerResendEffect | src/organizations/api/provisioning.py:123-166 | who may send the owner invitation again, and that it replaces the earlier ones |
| AccessEffects.CancellationEffect | src/organizations/api/provisioning.py:123-148 | who may give up a pending workspace, and that exactly its rows are deleted |
| AccessEffects.DeletionEffect | src/organizations/api/workspaces.py:123-135 | the same for the deletion of a workspace, after its check |
| Ownership.SeatOwnerIsSole | src/access/services/invitations.py:141-155 | the accepting owner replaces the creator, even when they are the same user |
| Ownership.AcceptKeeps | src/access/services/invitations.py:120-176 | accepting keeps exactly one owner |
| Ownership.ChangeRoleKeeps | src/access/api/memberships.py:50-104 | a role change or transfer keeps exactly one owner, however old the reading of the requester's role is |
| Ownership.RoleChangeEffect | src/access/api/memberships.py:64-93 | the target gets exactly the requested role; nobody else changes but a replaced owner, who becomes administrator |
| AccessEffects.RoleChangeOutcome | src/access/api/memberships.py:50-93 | exactly which role changes are accepted, and which error refuses the others |
| AccessEffects.RemovalEffect | src/access/api/memberships.py:106-135 | exactly which removals are accepted; then the seat of the target is gone, every other seat keeps its role and nothing else changes |
| Ownership.RemoveMemberKeeps | src/access/api/memberships.py:106-135 | removing a member keeps exactly one owner |
| Ownership.DropUserKeeps | src/accounts/views.py:126-130 | deleting a user who owns nothing keeps exactly one owner |
| Ownership.StepIsSafeExactly | src/accounts/views.py:126-130 | one step leaves every workspace with one owner if and only if it is not the deletion of somebody who owns one then |
| Ownership.ExactlyOneOwner | src/organizations/models.py:233-244 | in every interleaving, checks and deletions apart, every workspace has exactly one owner in every state if and only if no deletion is executed while its user owns one |
| Ownership.PendingHasOnlyItsCreator | src/organizations/services/provisioning.py:43-60 | and then a pending workspace has only its creator, as owner |
| Authority.PermissionsWereReal | src/access/permissions.py:52-66 | in every run, for every permission held there is a state in which its holder could manage the workspace, and that or a later one in which the holder had the role read |
| AccessEffects.CheckOutcome | src/access/permissions.py:22-58 | owners and administrators manage members, only owners delete, and nobody does while the owner is awaited |
| AccessEffects.ReadingOutcome | src/access/permissions.py:61-66 | the role read is the one the requester has by then |
| AccessEffects.DraftOutcome | src/access/api/invitations.py:70-90 | exactly which invitations are drafted, and which error refuses the others |
| AccessEffects.ResendOutcome | src/access/api/invitations.py:181-215 | the same for sending one again, with the address and role of the earlier one |
| AccessEffects.DraftDelivery | src/access/api/invitations.py:93-103 | a draft is delivered with its address and role, on the role that was read |
| Authority.AdministratorsAreLimited | src/access/api/memberships.py:50-119 | no role change or removal by somebody who was not the owner when the role was read makes, changes or removes an administrator or owner, whatever happens in between |
| Authority.NonOwnersAreLimited | src/access/api/memberships.py:64-119 | over every run, no role change or removal by somebody who never owned the workspace makes, changes or removes an administrator or owner |
| Authority.StepOffersExactly | src/access/services/invitations.py:219-232 | one invitation request of somebody not read as owner leaves the live administrator invitations as they are if and only if it does not get through with a role read below administrator |
| Authority.OffersAreOwnersExactly | src/access/api/invitations.py:44-48 | over every run, only requests read as the owner's issue, replace or revoke an administrator invitation if and only if none gets through whose role reading found the requester below administrator |
| Authority.SlippingIsDemotion | src/access/api/invitations.py:61-75 | whoever gets through like that could manage the workspace in one state and was below administrator in that or a later one |
| AccessExamples.MemberInvitesAdministrator | src/access/api/invitations.py:70-103 | a run from the empty installation: check, demotion, role reading, invitation of an administrator, acceptance |
| OwnerTransfers.OneOwnerNeedsTheConstraint | src/organizations/models.py:239-243 | one owner survives every interleaving of ownership transfers if and only if the database enforces the unique-owner constraint |
| OwnerTransfers.TransferAlone | src/access/api/memberships.py:64-76 | a transfer alone makes the target the owner and the owner before an administrator, and changes nobody else |
| OwnerTransfers.TwoTransfersCollide | src/access/api/memberships.py:64-76 | without it, two transfers to different targets end with two owners |
| Ownership.DeletionIsSafeExactly | src/accounts/views.py:120-131 | the unlocked deletion leaves one owner everywhere if and only if the user owns nothing when it happens |
| AccessEffects.DeletionCheckOutcome | src/accounts/views.py:120-129 | the check passes exactly for users who own nothing then |
| AccessEffects.AccountDeletionEffect | src/accounts/views.py:130-131 | the deletion removes exactly the user and the user's seats, unless a pending workspace was created by the user |
| AccessExamples.TransferDuringDeletion | src/accounts/views.py:126-130 | a run from the empty installation that leaves a workspace without owner: check, transfer, deletion |
| Invitations.NextKeeps | src/access/services/invitations.py:206-256 | every step keeps one live invitation per address and the acceptance log |
| AccessEffects.FoldIs | src/access/services/invitations.py:60 | case-insensitive comparison is that of the lower-case letters, and of nothing else |
| AccessEffects.DeliveryEffect | src/access/services/invitations.py:206-240 | exactly which invitations are delivered; the open ones of the address are revoked, and the new one has the address, the role and seven days |
| AccessEffects.RevocationOutcome | src/access/api/invitations.py:133-160 | exactly which invitations can be revoked, and that nothing else changes |
| AccessEffects.LookUpOutcome | src/access/services/invitations.py:88-100 | only open invitations that have not expired are found |
| AccessEffects.AcceptanceOutcome | src/access/services/invitations.py:102-141 | exactly which acceptances succeed under the lock, and which error refuses the others |
| AccessEffects.AcceptanceEffect | src/access/services/invitations.py:142-175 | the awaited owner replaces the creator, a member gets the offered role or keeps the one they have, the invitation is used up, and nothing else changes |
| Invitations.LiveOnceAcceptedOnce | src/access/services/invitations.py:206-240 | in every reachable state at most one invitation per workspace and address is live, and each was accepted at most once |
| Invitations.DeliveringSupersedes | src/access/services/invitations.py:219-240 | a new invitation kills every older token of the address and is itself alive |
| Invitations.RevokingKills | src/access/api/invitations.py:133-160 | revoking kills the token |
| Invitations.DeadIsNeverAccepted | src/access/services/invitations.py:84-118 | a dead token is never accepted in any later run, looked up before or not |
| Invitations.RevocationWinsTheRace | src/access/services/invitations.py:89-118 | a revocation between the look-up and the locked check makes the acceptance fail |
| Invitations.AcceptanceGivesTheOfferedRole | src/access/services/invitations.py:136-166 | the accepting user has the invited address and gets the offered role, or keeps the one they had |
| AccessService.Directory.DeliverWorkspaceInvitation | src/access/services/invitations.py:206-256 | performs the delivery step or reports its error and changes nothing |
| AccessService.Directory.CreateWorkspace | src/organizations/services/provisioning.py:43-67 | performs the creation step and keeps both invariants; a failed owner invitation rolls everything back |
| AccessService.Directory.ResolveUser | src/access/services/invitations.py:51-81 | the signed-in user with the invited address, or a new account if there is none |
| AccessService.Directory.ReadLocked | src/access/services/invitations.py:102-134 | the checks that are repeated under the lock, with their errors |
| AccessService.Directory.AcceptWorkspaceInvitation | src/access/services/invitations.py:84-181 | performs the locked part of the acceptance and keeps both invariants, or reports its error and changes nothing |
| AccessService.Directory.GetOrganizationForUser | src/access/permissions.py:52-58 | the capability check: noted if some role of the requester has the capability in a provisioned workspace, and otherwise not found |
| AccessService.Directory.GetMembership | src/access/permissions.py:61-66 | notes the requester's role as it is by then, or reports that there is none |
| AccessService.Directory.PatchMembership | src/access/api/memberships.py:50-104 | performs the role step and keeps both invariants, or reports its error and changes nothing |
| AccessService.Directory.DeleteMembership | src/access/api/memberships.py:106-135 | performs the removal step and keeps both invariants, or reports its error and changes nothing |
| Search.HitsAreOrdered | src/organizations/services/global_search.py:204-213 | the sort key is a strict total order on matches |
| Text.TextLessIsLexicographic | src/organizations/services/global_search.py:204-213 | texts are ordered by their first difference, a beginning before the whole |
| SearchOrder.PageIsOrdered | src/organizations/services/global_search.py:204-213 | on every page the better rank comes first, then companies before contacts before deals, then names, workspace names, workspaces and identifiers |
| SearchOrder.PagesAreOrdered | src/organizations/services/global_search.py:189-230 | and across pages, where the orders agree |
| SearchOrder.PageHoldsMatches | src/organizations/services/global_search.py:195-228 | a page has at most its size, and only matches of the requested types |
| Search.SearchCrm | src/organizations/services/global_search.py:189-230 | the loop computes the summed count and the slice of the sorted candidates |
| Search.TopIsCandidate | src/organizations/services/global_search.py:68-70 | a match among the first K of everything is among the first K of its type |
| Search.PageIsSlice | src/organizations/services/global_search.py:189-230 | every page is that slice of the one sorted list of all matches |
| Search.CountIsTotal | src/organizations/services/global_search.py:216 | the count is the number of all matches |
| Search.WalkListsEverythingOnce | src/organizations/services/global_search.py:190-228 | walking the pages lists every match exactly once |
| Search.AgreementIsNecessary | src/organizations/services/global_search.py:195-213 | all pages are slices if and only if the database order agrees with the key within every type |
| Search.SpacesBreakPages | src/organizations/services/global_search.py:204-213 | two companies in an order that ignores spaces: pages of one show the first twice and the second never |
| CustomerCodes.FormatRoundTrip | src/companies/models.py:86-88 | a generated code reads back as its number |
| CodeRules.NumericCodes | src/companies/models.py:87-88 | exactly which codes count as numeric, and their number |
| Decimals.FirstDigitCounts | src/companies/models.py:88 | that number is read with the place value of every digit |
| CodeRules.GeneratedCodeShape | src/companies/models.py:86 | a generated code is CUS- and the number with at least five digits, without needless zeros |
| CodeRules.SavingWithoutCode | src/companies/models.py:75-92 | saving without a code stores the next number's code and counts it, or is refused when the counter is full |
| CodeRules.SavingWithCode | src/companies/models.py:87-92 | a given code is stored as it is, raises the counter to its number if that is larger, and is refused above the limit or when in use |
| CodeRules.Deleting | src/companies/models.py:81-84 | a deletion removes the row and keeps every counter |
| CustomerCodes.MaxCodeIsMaximum | src/companies/migrations/0006_customercodecounter_company_company_org_name_idx_and_more.py:33-35 | the specification is the attained maximum of the numeric codes of an organization |
| CustomerCodes.SeedCounters | src/companies/migrations/0006_customercodecounter_company_company_org_name_idx_and_more.py:22-39 | one ordered pass yields exactly that maximum for every organization, or fails exactly when a code is out of range |
| CustomerCodes.MigratedIsBounded | src/companies/migrations/0006_customercodecounter_company_company_org_name_idx_and_more.py:22-39 | after the migration every counter bounds the stored numeric codes |
| CustomerCodes.NextKeeps | src/companies/models.py:75-92 | saving and deleting keep the bound over every code ever stored, and counters never fall |
| CustomerCodes.GeneratedCodesAreFresh | src/companies/models.py:81-86 | in any run a generated code differs from every code ever stored in the organization and is never refused as a duplicate |
| CustomerCodes.GeneratedCodesCanBeSavedAgain | src/companies/models.py:87-91 | saving such a company again changes nothing, except for the very last number, which is refused |
| CustomerCodes.ResavingIsHarmless | src/companies/models.py:75-92 | in every run from the migrated data, saving a stored company again unchanged has no effect if and only if it has a code whose number is not above the limit |
| CustomerCodes.LastCodeIsStuck | src/companies/models.py:81-91 | a run from a fresh installation in which a company gets the last code and in no later run can be saved with it |
| CustomerCodes.Companies.AssignCode | src/companies/models.py:79-91 | increments the counter for a generated code or raises it to a given one, with its errors |
| CustomerCodes.Companies.Save | src/companies/models.py:75-92 | performs the save step and keeps the counters above every code, or reports its error and changes nothing |
| CustomerCodes.Companies.Delete | src/companies/models.py:81-84 | deleting a company leaves the counters alone |
| DealTax.ExclusiveThenInclusive | src/deals/models.py:44-59 | re-entering a gross value as tax-inclusive returns the same net and tax, for every amount and rate |
| DealTax.PriceParts | src/deals/models.py:44-59 | net and tax make up the gross value, and the part that is not entered is rounded to the nearest cent |
| DealTax.InclusiveThenExclusive | src/deals/models.py:44-59 | splitting and rebuilding a gross value is off by at most one cent |
| DealTax.RebuildIsExactFor | src/deals/models.py:44-59 | rebuilding is exact if and only if the remainder of the split (value times 100 %, modulo 100 % plus the rate) is at most half of 100 % or less than that below the divisor, for both signs |
| DealTax.GrossValuesAre | src/deals/models.py:44-59 | exactly those amounts are the gross value of some net amount |
| DealBoard.Board.Destination | src/deals/services.py:14-22 | the query lists the other active deals of the stage in order |
| DealBoard.Board.RenumberRows | src/deals/services.py:26-33 | writing only what differs gives every listed deal its stage and position |
| DealBoard.Board.MoveDeal | src/deals/services.py:10-34 | inserts the deal at the requested position and renumbers |
| DealBoard.MoveNumbersTheStage | src/deals/services.py:23-33 | the stage is numbered without gaps, the moved deal is at min(position, n), the others keep their order, everything else is untouched |
| DealBoard.MovedIsPlaced | src/deals/services.py:10-34 | the moved deal is in the stage with as many others before it as asked for or available, and deals outside the stage stay as they are |
| DealBoard.OthersKeepTheirOrder | src/deals/services.py:14-32 | the other deals get different positions in the order of their sort order and age |
| DealBoard.MoveIsIdempotent | src/deals/services.py:23-33 | repeating the move changes nothing, whatever the database does with ties |
| Json.EncodeConcat | src/onboarding/services/business_transfer.py:125-126 | UTF-8 encoding piece by piece is encoding the whole |
| Json.SortKeepsFields | src/onboarding/services/business_transfer.py:121-122 | sorting keys loses and invents no field |
| Json.SortAscends | src/onboarding/services/business_transfer.py:121-122 | and puts the keys in order |
| JsonText.EscapeShape | src/onboarding/services/business_transfer.py:121-122 | exactly which characters are escaped, and in which of the two forms |
| JsonText.Utf8Shape | src/onboarding/services/business_transfer.py:125-126 | characters take the one to four bytes of RFC 3629 |
| JsonText.TextReadsBack | src/onboarding/services/business_transfer.py:75-79 | a reader of compact JSON as in RFC 8259 gives back every printed value |
| JsonText.BytesReadBack | src/onboarding/services/business_transfer.py:75-79 | and so it does from the UTF-8 bytes |
| Transfer.Utf8IsTextEncoding | src/onboarding/services/business_transfer.py:113-115 | the encoding the writer needs exists: UTF-8 |
| Transfer.Writer.NextRow | src/onboarding/services/business_transfer.py:49-58 | the row as sorted JSON, with its users noted |
| Transfer.Writer.WriteRows | src/onboarding/services/business_transfer.py:105-118 | streams exactly the comma-separated rows; count and digest are those of the bracketed bytes |
| Transfer.Writer.WriteDataSets | src/onboarding/services/business_transfer.py:43-61 | streams all data sets with their manifest entries and collects the users |
| Transfer.DocumentText | src/onboarding/services/business_transfer.py:39-71 | the pieces written make up the print of the whole document |
| JsonText.TextDeterminesValue | src/onboarding/services/business_transfer.py:75-79 | different documents have different texts, so parsing can only give back the document that was printed |
| JsonText.BytesDetermineValue | src/onboarding/services/business_transfer.py:125-130 | and different UTF-8 bytes |
| Transfer.SameFileSameContent | src/onboarding/services/business_transfer.py:75-79 | transfers with the same bytes agree in time, data sets, rows, users and manifest |
| Transfer.SelectionIsComplete | src/onboarding/services/business_transfer.py:64-70 | the count comparison succeeds if and only if every referenced user exists, and then the users written are exactly those referenced |
| TransferContents.ReferencedUsers | src/onboarding/services/business_transfer.py:56-57 | the users referred to are exactly the values other than null in user columns |
| TransferContents.SelectedUsers | src/onboarding/services/business_transfer.py:64-67 | exactly the users referred to are written, by identifier |
| TransferContents.TransferIsShown | src/onboarding/services/business_transfer.py:39-71 | the document has the header, every row of every data set in order with each value in its JSON form, each user's e-mail, id and name, and the count and digest of each list |
| TransferContents.TransferReadsBack | src/onboarding/services/business_transfer.py:75-79 | and what is read from its bytes is that document |
| Transfer.Writer.WriteBusinessTransfer | src/onboarding/services/business_transfer.py:24-72 | on success the bytes are exactly the print of the whole document; it fails exactly on pending provisioning or a missing user |

## Left out

- Calendar.AddMonthsClamps: does not stop at year 9999, where Python dates end.
- Billing amounts: the 14-digit limit of the amount columns, whose overflow the database would refuse.
- Billing fields without effect on charges (name, notes, company, catalog item, assignee, renewal date), and timeline events.
- Overview.SubscriptionOverview: does not model collected payments, upcoming renewals or monthly recurring revenue; the last depends on 28-digit division.
- The waived charge state: it is part of the model, and no service sets it.
- OutboxProtocol.Accounting: a send that fails after the mail server has accepted the mail counts as failed, because the code cannot tell.
- Outbox rows keep no error text, and the two clock readings inside one claim are one instant.
- The unique-owner constraint is modelled in `OwnerTransfers` alone: the installation-wide model takes the locked part of a role change as one step, and its proofs do not need the constraint. A role change that is not a transfer changes one locked row.
- Account deletion: the password and the confirmation text; it is no method of `AccessService.Directory`, because it is what can break its invariant.
- Personal workspaces, creator grants, installation administrator invitations and access events.
- The request-time checks of invitation acceptance that the service repeats.
- Search: the text matching and the rank of a match are given, as is the agreement of the database collation with case folding that the pages need.
- Companies: uniqueness of e-mail and tax identifiers, and the length limit of the code column.
- Transfer.Writer.WriteBusinessTransfer: does not model the schema and cross-organization checks that run before anything is written; names of data sets are distinct, as in the fixed list.
- The frontend, the updater, e-mail delivery, encryption, tokens and hashing are foreign calls or not modelled; the digest is an arbitrary function of bytes.
