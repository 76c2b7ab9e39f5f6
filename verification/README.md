# Billing engine: a verified model

This project models the credit side of a Django billing module and proves what it promises: a wallet made of credit
lots, the operations that spend, reserve, collect, take back and move those credits, the mirror of provider
subscriptions, and the event log in front of both. It is written in Dafny 4.11; `dafny verify dfyconfig.toml` checks all
of it.

**The wallet engine** (`services.py`, `tasks.py`, `models.py`). A database is a value of `Models.Db`: one sequence per
table, a row's index being its id and its place in creation order. Every service operation is one atomic transition
(`Operations`, `Clawbacks`, `Merges`, `Bundles`), because the wallet's row lock serialises them; a refusal returns the
state it was given. `Store.Ledger` is the same engine in the source's own form: an object whose methods loop over rows and
update them in place, each proved equal to its transition. The laws are then about transitions and about *runs*: any
finite sequence of timed commands from an empty database (`MergeRuns.Run`), with merges, clawbacks, won disputes, waived
charges and sweeps among them.

Every law about credits is stated per *cut* (`Models.Cut`): all credits, or those still alive after an instant T. A
statement for all T is a statement about deadlines, not only about amounts.

**The subscription mirror** (`services.py`). `Subscriptions` models provider-time ordering: the clock and rank guard, the
stash of events that arrive before their row, and the checkout that claims it. `SubscriptionDesk.Desk` runs the handlers
field by field. Convergence is stated against a *history*, the provider's status at each instant; events with distinct
times are one case of it.

**The event log and claims** (`services.py`, `views.py`). `Webhooks` interleaves any number of workers (deliveries,
retries, replays, crashes) as small steps; `EventLogs.EventLog` is the delivery path in place.

## Where the code does less than its text says

Each of these is a lemma with the exact condition under which the text holds, and a concrete input or run on which it
does not (in `Witnesses` where no other place is named); the code is modelled as it is.

* A merge moves the ledger rows that explain the credits and writes one more row for the same credits, so "the survivor's
  ledger explains the survivor's balance without a gap" holds without the merge rows only
  (`RunLaws.MergeRowsAreTheOnlyGap`, `RunLaws.LedgerConserves`; `ALedgerHasAGap`).
* A merge renames clashing reservation keys instead of failing, unless the new key is taken too
  (`MergeLaws.MergeRefusedIff`; `AMergeIsRefused`).
* After a merge a retried charge is still not repeated, but it may be answered with the other account's row
  (`MergedRetries.MergedRetryIff`, and over any later commands `MergedRetries.RetryAcrossMergesIff`;
  `ARetryTellsAnotherStory`); and a bundle may be counted as granted without adding credits
  (`BundleLaws.CountedIsCreditedIff`, `BundleLaws.MergedBundleAddsNothing`; `ABundleAddsNothing`).
* Lapsed credits are forgiven per clawback call, so two partial refunds can forgive the same credits twice
  (`Forgiveness.SplitOwesTheSameIff`; `LapsedCreditsAreForgivenTwice`).
* A deletion parked before its row exists is remembered by the word its payload carried, not as a deletion
  (`ConvergenceLimits.ParkedDeletionIff`; `ConvergenceLimits.AParkedDeletionIsLost`); parked events of one second follow
  delivery order although the stash is documented as overwritten only by a newer event (`ConvergenceLimits.ParkedTieIff`;
  `ConvergenceLimits.AParkedTieGoesByDelivery`); an unknown word keeps the old status
  (`ConvergenceLimits.UnknownWordIff`; `ConvergenceLimits.AnUnknownWordKeepsTheOldStatus`).
* A stash is documented as applied only if it is newer than what the subscription already carries, but its period is
  applied even when its status is not. A subject with a row shows the newest notice's period exactly when that notice came
  again after the checkout, or the checkout found no older event parked than the row had seen (`Periods.NewestPeriodIff`);
  a subject without one shows it in every order exactly when the notice is not older than the checkout
  (`Periods.EveryOrderShowsIff`). `ConvergenceLimits.PeriodsDoNotConverge` is a pair of orders that differ.
* The failure of one delivery is written outside the lock, so a processed event can come to carry an error
  (`Webhooks.LateErrorIff`; `Webhooks.AProcessedEventShowsAnError`).
* A waived capture syncs the balance without sweeping, so the cached balance is the sum of the remaining credits then
  exactly when none of the wallet's lots is due (`CacheLaws.WaivedCaptureSumsIff`; `ABalanceIsNotTheSum`); it is always
  between that sum and the live credits (`RunLaws.CacheBounds`).

## Model

| member | source | states |
|---|---|---|
| Lots.WalkIsTheOrder | services.py:214-226 | the walk lists every live (or due) lot of the wallet exactly once, soonest deadline first, never-expiring last, older first among equals |
| Lots.ConsumeServes | services.py:331-352 | a charge the live lots cover is served in full |
| Lots.ConsumeMoves | services.py:331-352 | for every wallet and every instant, what a charge takes out of the lots is what its record says, lot by lot |
| Lots.ConsumeProfile | services.py:331-352 | a charge of n turns live(T) into min(live(T), live(now) - n) for every T from now on |
| Lots.ConsumeByDeadline | services.py:331-352 | the record of a charge is in deadline order |
| Lots.RefundMoves | services.py:511-549 | a refund moves credits from allocations back to the wallet with the deadline they had, for every cut |
| Lots.RefundProfile | services.py:511-549 | of a reservation made in deadline order, a refund gives back the latest deadlines first |
| Lots.RefundServes | services.py:511-549 | a refund within the reservation takes exactly that much off it |
| Books.SweepCredits | services.py:281-328 | a sweep takes no credit that is alive now, from no other wallet, and leaves nothing due |
| Settlement.SettlementIsGreedy | services.py:454-508 | each debt is paid exactly what the oldest-first greedy leaves for it: older debts in full first |
| Settlement.SettlementCollects | services.py:454-508 | settling collects min(owed, live), and ends with no debt or no live credit |
| Settlement.CreditSettles | services.py:553-638 | after a settling credit no debt is open or no live credit is left |
| Optimality.ExpiringFirstIsOptimal | services.py:214-226 | over any run of grants, strict charges and time, if some other choice of lots serves every charge then so does the service, with at least as many live credits at every later instant |
| Reservations.HoldKeepsDeadlines | services.py:1047-1172 | lots plus reservations alive after T are unchanged by a hold or a re-arm, for every T from now on |
| Reservations.ReleaseKeepsDeadlines | services.py:1314-1339 | the same through a release or an expiry of a hold |
| Reservations.ExpireHoldsKeepsDeadlines | tasks.py:67-95 | the same through the sweep over abandoned holds |
| Reservations.HoldThenCaptureIsDebit | services.py:1197-1276 | hold N, re-arming a resolved key or not, then capture A <= N leaves, for every T, the live credits a plain debit of A leaves |
| Reservations.HoldThenReleaseIsNothing | services.py:1314-1339 | hold, under a new or a re-armed key, then release leaves, for every T, the live credits as if nothing had happened |
| MergeRuns.RunInv | models.py:198-206 | every reachable state keeps the foreign keys, the hold state machine, both ledger laws and the cache bounds |
| Evolution.RunEvolves | models.py:295-303 | from any point of a run on: lots only shrink and keep their deadline, ledger rows keep their content, captured holds stay captured, debts only fall, claims stay |
| RunLaws.LedgerConserves | models.py:345-353 | in every reachable state each wallet's non-merge deltas sum to its lots plus its open reservations |
| RunLaws.MergeRowsAreTheOnlyGap | services.py:1491-1500 | summed over every row the ledger exceeds the credits by exactly the merge rows |
| RunLaws.NetPosition | models.py:530-546 | lots plus reservations less debt is what was credited, asked for by debits, captured, lapsed and clawed back net of forgiveness and reversals |
| RunLaws.HoldMachine | models.py:415-429 | held means allocations sum to the hold; captured means exactly one charge row, for the allocations' sum; released or expired means nothing is allocated; every allocation's lot is in the hold's wallet |
| RunLaws.HoldKeysAreUnique | models.py:474-484 | no two reservations of a wallet share a key, merges included |
| RunLaws.CacheBounds | services.py:257-278 | live(now) <= balance <= all remaining, in every reachable state and at every later instant |
| RunLaws.AuditIsClean | services.py:1844-1880 | the audit reports nothing right after the expiry sweep of the same instant |
| RunLaws.ClawbacksStayWithinGrants | services.py:3624-3639 | over every run, reversals and merges included, what is requested back of a grant never exceeds it |
| RunLaws.SettlementsCarryNoKey | services.py:484-499 | no settlement row ever carries a retry key |
| CacheLaws.CreditRefreshes | services.py:553-638 | a credit that writes its row leaves balance = live(now) |
| CacheLaws.DebitRefreshes | services.py:774-897 | so does a debit, waived ones included |
| CacheLaws.HoldRefreshes | services.py:1047-1172 | so does a hold that reserves |
| CacheLaws.CaptureRefreshes | services.py:1197-1301 | so does a capture, even a waived one that sweeps nothing |
| CacheLaws.WaivedCaptureSumsIff | services.py:1279-1283 | after a waived capture the balance is the sum of the remaining credits exactly when nothing of the wallet is due |
| CacheLaws.ReleaseRefreshes | services.py:1314-1339 | so does a release |
| CacheLaws.ClawBackRefreshes | services.py:3517-3621 | so does a clawback |
| CacheLaws.ReverseRefreshes | services.py:3765-3828 | so does a reversal that gives something back; one that does not leaves every balance alone |
| ClawbackLaws.RoundIsNearest | services.py:3491-3513 | rounding is within half a unit, halves to even |
| ClawbackLaws.TargetIsProportional | services.py:3491-3513 | a partial refund takes 1..granted, within half a credit of the exact ratio unless raised to 1 |
| ClawbackLaws.TargetGrows | services.py:3491-3513 | refunding more never takes less, and refunding all takes the grant |
| ClawbackLaws.RefundsReachTheMaximum | services.py:3642-3706 | after any money-back events with redeliveries, what is requested of a grant is the largest target seen |
| ClawbackLaws.RefundsAreOrderIndependent | services.py:3642-3706 | two orders of the same events, with any repeats and at any times, request the same, within the grant |
| RefundRuns.RunRefundsReachTheMaximum | services.py:3642-3706 | over any run without dispute closings, with charges, grants, reservations, sweeps, bundles and merges in between, what is requested of a grant is the largest target seen |
| RefundRuns.RunsAgreeOnRefunds | services.py:3624-3706 | two runs with the same money-back events, whatever else happens in them, request the same, within the grant |
| ClawbackLaws.ReverseProfile | services.py:3765-3828 | a won dispute, at any later time, gives back what was reclaimed and what the debt collected, with the grant's deadline, and drops the rest of the debt |
| ClawbackLaws.WonDisputeRoundTrip | services.py:3765-3828 | one clawback of a grant, then the reversal of its row: live(T) for every T and the debt are as before |
| Disputes.WonDisputeRestores | services.py:3725-3761 | a dispute event on one grant, then any closings, won or lost, with any event ids and repeats: once a won one with a fresh id is among them live(T) for every T and the debt are as before the dispute, otherwise nothing changed since |
| Disputes.ClosedForGood | services.py:3725-3761 | over runs: once what a dispute wrote is reversed, and it wrote nothing since, its closings may only add their claims |
| Disputes.ReversedForGood | services.py:3765-3828 | over runs: a row reversed at some point is never given back again, merges and anything else in between |
| Forgiveness.SplitOwesTheSameIff | services.py:3560-3571 | two partial clawbacks of any grant owe what one would exactly when nothing of it lapsed, or the first fits in what is left of it, or both fit in what is left and lapsed |
| MergeLaws.MergeIsAdditive | services.py:1374-1505 | before settlement the survivor's live(T) is both wallets' live(T) less what is forfeited, for every T |
| MergeLaws.MergeVacates | services.py:1465-1483 | the merged wallet ends closed, at zero, with no row of any table, and the survivor's cache is exact |
| MergeLaws.MergesOnce | services.py:1415-1420 | once a merge has been applied its redelivery changes nothing, ever after |
| MergeLaws.MergeRefusedIff | services.py:1449-1463 | a merge is refused exactly when a key it needs for a rename is taken |
| MergedRetries.MergedRetryIff | services.py:364-387 | after a merge a retried debit changes nothing, and tells the first call's story exactly when the merged account had not used the key in a later row |
| MergedRetries.RetryAcrossMergesIff | services.py:960-994 | after any later commands that leave the user an account, merges into it included, a retried partial debit changes nothing, and returns the first receipt exactly when no account merged in had used the key in a later row |
| Charging.PreflightAgreesWithDebit | services.py:997-1039 | the pre-flight says yes exactly when a strict debit under an unused key commits |
| Charging.PreflightAgreesWithHold | services.py:997-1039 | and exactly when a hold under a fresh key commits |
| Charging.PreflightShortfall | services.py:997-1039 | its shortfall is the one a partial debit reports and puts on the slate |
| Charging.CaptureReplays | services.py:1217-1226 | in every reachable state a captured hold is answered with its own charge row |
| Charging.RetryTellsTheSame | services.py:960-994 | after any later commands that merge the user with nobody, a retried partial debit changes nothing and returns the first receipt, waived charges included |
| BundleLaws.SweepAgain | tasks.py:119-172 | a second bundle sweep over the same entitlements grants nothing and changes nothing |
| BundleLaws.CountedIsCreditedIff | services.py:1639-1731 | an unclaimed bundle is always counted, and adds credits exactly when no row holds its key yet |
| BundleLaws.MergedBundleAddsNothing | services.py:1639-1731 | a bundle row that arrived by merge keeps the survivor's own bundle of the period from adding credits |
| Witnesses.AMergeIsRefused | services.py:1449-1463 | three reservations in a reachable state whose merge fails and changes nothing |
| Witnesses.ARetryTellsAnotherStory | services.py:364-387 | a run after which a retry is answered with the merged account's row |
| Witnesses.LapsedCreditsAreForgivenTwice | services.py:3560-3571 | a run in which a refund made in halves leaves a smaller debt than one made at once |
| Witnesses.ABundleAddsNothing | services.py:1639-1731 | a run after which a bundle is counted and adds nothing |
| Witnesses.ABalanceIsNotTheSum | services.py:1279-1283 | a run after which the balance is not the sum of the remaining credits |
| Witnesses.ALedgerHasAGap | services.py:1491-1500 | a run after which the survivor's rows sum to more than its credits |
| Store.Ledger.ExpireDueLots | services.py:281-328 | the loop over due lots is the sweep, and returns the credits that died |
| Store.Ledger.ConsumeLots | services.py:331-352 | the loop over live lots is the charge, or a refusal that changes nothing |
| Store.Ledger.CollectDebts | services.py:454-508 | the loop over open debts is the settlement, and returns what it collected |
| Store.Ledger.RefundAllocations | services.py:511-549 | the loop over allocations is the refund |
| Store.Ledger.Credit | services.py:553-638 | the method is the transition, error and replay branches included |
| Store.Ledger.Debit | services.py:774-957 | the same, with the partial and the metered-only branches; a refused debit undoes the sweep it had begun with |
| Store.Ledger.HoldCredits | services.py:1047-1172 | the same, with the re-arm of a released hold |
| Store.Ledger.Capture | services.py:1197-1301 | the same, with the top-up, the partial refund and the waived capture |
| Store.Ledger.Release | services.py:1314-1339 | the same |
| Store.Ledger.ClawBackGrant | services.py:3517-3621 | the loop over the grant's lots, the forgiveness and the debt are the clawback |
| Store.Ledger.TakeMoneyBack | services.py:3642-3706 | one claimed event over every grant it names |
| Store.Ledger.ReverseClawbackRow | services.py:3765-3828 | the reversal of one row |
| Store.Ledger.CloseDisputed | services.py:3725-3761 | one claimed closing event over every row of the dispute |
| Store.Ledger.ForfeitLots | services.py:1508-1568 | the loop over account-bound lots is the forfeit, and returns the credits forfeited |
| Store.Ledger.MergeWallets | services.py:1374-1505 | the whole merge, a taken key undoing everything |
| Store.Ledger.ExpireAllLots | tasks.py:32-64 | the sweep over wallets, and the number of credits that died |
| Store.Ledger.ReleaseAbandoned | tasks.py:67-95 | the sweep over abandoned holds, and how many there were |
| Store.Ledger.GrantPlanBundles | tasks.py:119-172 | the sweep over entitlements, and how many were granted |
| Store.Ledger.ReconcileWallets | services.py:1844-1880 | the audit reports exactly the wallets whose cache disagrees, and repairs nothing |
| Convergence.RowConverges | services.py:3014-3066 | in any delivery order with any repeats, once the checkout is delivered the row is linked and holds the newest provider time and the provider's status at it |
| Convergence.OrdersAgree | services.py:3229-3291 | two orders of the same events leave the same status and clock |
| Convergence.LinkedConverges | services.py:3229-3291 | a linked row that receives only updates and deletions, in any order with any repeats, holds the newest provider time and the status at it |
| Convergence.CheckoutStep | services.py:2470-2504 | a checkout links the row, keeps the newer news of the two, and takes over what was parked |
| Convergence.StashStep | services.py:3116-3171 | the stash keeps the newest event of a subscription without a row |
| ConvergenceLimits.ClockNeverFalls | services.py:3059-3066 | no delivery moves any row's provider clock back |
| ConvergenceLimits.ConstraintsKept | models.py:710-723 | every delivery keeps one row per user, per subscription id and per customer id |
| ConvergenceLimits.ParkedDeletionIff | services.py:3258-3264 | a parked deletion newer than the checkout converges exactly when its payload says canceled |
| ConvergenceLimits.AParkedDeletionIsLost | services.py:3258-3264 | a deletion whose payload says active, in two orders that leave different statuses |
| ConvergenceLimits.ParkedTieIff | services.py:3134-3139 | parked events of one second converge exactly when they carry the same status |
| ConvergenceLimits.AParkedTieGoesByDelivery | services.py:3134-3139 | active and past_due of one second, in two orders that leave different statuses |
| ConvergenceLimits.RowTieGoesByRank | services.py:3033-3038 | on a row the more advanced status wins a tie in either order |
| ConvergenceLimits.UnknownWordIff | services.py:2773-2794 | an unknown word newer than a known one converges exactly when the row held the known status already |
| ConvergenceLimits.AnUnknownWordKeepsTheOldStatus | services.py:2773-2794 | a known and an unknown word, in two orders that leave different statuses |
| ConvergenceLimits.PeriodsDoNotConverge | services.py:3188-3215 | two orders of the same deliveries that leave two period ends |
| Periods.PeriodShown | services.py:3188-3215 | the period shown after any deliveries around the first checkout: the newest later notice's when it is not older than row and checkout, else the parked one's however old, else the row's own |
| Periods.NewestPeriodIff | services.py:3188-3215 | a subject with a row shows the newest notice's period exactly when that notice came again after the checkout or the checkout found no older event parked than the row had seen |
| Periods.EveryOrderShowsIff | models.py:863-872 | for a subject nobody has heard of, every order of its notices and checkout, with any repeats, shows the newest notice's period exactly when that notice is not older than the checkout, ties by rank |
| SubscriptionDesk.Desk.Receive | services.py:3229-3291 | the update and deletion handlers, field by field, are the transition, stale mark included |
| SubscriptionDesk.Desk.Complete | services.py:2470-2504 | the plan half of the checkout is the transition, a taken provider id undoing it |
| Webhooks.AtMostOneEffect | services.py:2870-2924 | for any interleaving each event's handler commits at most once, processed is set exactly when it did, and no object is granted twice |
| Webhooks.CommitsStand | services.py:2905-2908 | what is processed or granted stays so through every later step |
| Webhooks.GrantsAreTheCommitted | services.py:2257-2278 | for any interleaving of events that name at most one object each, an object is granted exactly when the committed run of some event names it |
| Webhooks.RetryReprocesses | views.py:604-612 | a retry of an event that failed finds its row unprocessed and runs it again |
| Webhooks.LateErrorIff | views.py:634-641 | a processed event can still come to carry an error exactly when another delivery of it has failed and not yet written that down |
| Webhooks.AProcessedEventShowsAnError | views.py:634-641 | two deliveries of one event, the first failing and the second succeeding: the processed row then comes to carry the first one's error |
| Webhooks.PostIsThreeSteps | views.py:604-642 | an undisturbed delivery is the three steps of one worker |
| Webhooks.ReplayFinishes | services.py:2965-3011 | a replay without failures leaves nothing it chose unprocessed and runs no finished event again |
| EventLogs.EventLog.ApplyStoredEvent | services.py:2870-2924 | the handler's effects and the processed mark, or neither |
| EventLogs.EventLog.PostEvent | views.py:604-642 | the live delivery is the transition, reply included |
| EventLogs.EventLog.ReplayEvents | services.py:2965-3011 | the rows chosen at the start, one by one; a dry run changes nothing |

## Left out

- Webhooks.Perform: a handler is reduced to the objects it claims and grants; what one grant credits is `Store.Ledger.Credit`, and package catalogues, price checks and invoice readers are inputs.
- Store.Ledger.Capture: assumes what the foreign keys guarantee, that the hold's wallet and lots exist; `Soundness.Sound` keeps it in every reachable state. `Store.Ledger.Release` assumes the same.
- ClawbackLaws.RoundIsNearest: `round` on the float quotient is modelled on the exact rational, so the double-precision error of that one division is not modelled.
- ClawbackLaws.TargetIsProportional: on the exact rational, like `RoundIsNearest`.
- ClawbackLaws.TargetGrows: on the exact rational, like `RoundIsNearest`.
- Disputes.WonDisputeRestores: is about a dispute over one grant of a wallet with no other open debt; with another debt, settlement takes its share of what comes back, and `ClawbackLaws.ReverseProfile` says how much came back.
- Store.Ledger.MergeWallets: returns whether the merge happened, not the counts of what moved; the subscription half of a merge is not modelled.
- One instant per operation: the source reads the clock again inside a loop over several grants or wallets; the model uses one reading for the whole call.
- `_stamp_subscription_period` turns a NULL expiry of subscription lots into a date; it is outside every run here, so deadlines never change in the model.
- Ledger rows carry typed notes instead of a type column and free metadata; descriptions, prices in cents, currencies, caller metadata and the legacy metadata spelling of a retry key are dropped.
- Row creation times are strict, so the random id that breaks ties of equal `created_at` values never matters.
- Merging an account into itself is dropped by the event handler in actions.py; the model drops it inside the merge.
- Operator grants by hand, comp periods, entitlements, the plan catalogue and who is entitled to a bundle: the lists they produce are inputs.
- Reconciliation against the provider's API, payment failure notices, notifications, erasure and pseudonyms, HTTP, permissions, serializers, signature checks and migrations.
- Deadlock order, isolation levels and concurrent creation of a first wallet: an operation is one serialised step.
