# Crash-tolerant entitlements: a verified model

A reseller bot sells traffic and time on a remote Rebecca panel. The panel is authoritative, may fail or
apply part of a request, and cannot take part in a local transaction. The program keeps orders, resellers and
service users in a local database and must still credit every paid order once, recover from crashes, and never
switch off, switch on or delete the wrong account. This project models that protocol in Dafny and proves what
it keeps over every run.

Time is a number of microseconds, traffic a number of bytes, both unbounded. The panel, the database and the
network are explicit: every remote call takes what the network did with it as a parameter (`Delivery`,
`Written`, `Net`, ...), the database is the `db` copy of a state, the session's uncommitted copy is `mem`, and a
crash or rollback is `mem := db`. Code that changes rows is imperative here too: classes with fields and methods,
each method proved equal to a function of the old state, and the properties are proved of these functions and of
the state machines built from them.

## Files

| file | what it holds |
|---|---|
| `quota.dfy`, `wire.dfy`, `entitlement.dfy` | renewal arithmetic, expiry on the wire, snapshots and their comparison |
| `panel.dfy` | the panel as the client sees it, with partial execution and lost replies |
| `payments.dfy`, `recovery.dfy` | `apply_order` on rows, its three-way recovery, and when an open renewal can still be settled |
| `order_machine.dfy`, `no_over_credit.dfy` | the order protocol as a machine, and no over-credit in all its runs |
| `exactly_once.dfy`, `calm_runs.dfy`, `account_status.dfy`, `shared_credit.dfy` | refinement to an atomic account, single effective updates, the status beside them, and where exactly-once ends |
| `series.dfy`, `stranded.dfy` | attempts, syncs, switches, commits and crashes in any series, as runs of the machine; and renewals such series leave open for good |
| `provisioning.dfy`, `first_purchase.dfy` | `provision`, and the first purchase with its reservation and its password |
| `reconcile.dfy` | paid orders on their rows: first purchases and renewals, and what they ask of the panel |
| `children.dfy`, `child_machine.dfy` | service users: sync, guarded deletion, revival |
| `resellers.dfy` | reseller status: expiry, renewal, manual suspension |
| `scheduler.dfy`, `pass_turns.dfy`, `full_pass.dfy` | the scheduler's loops, one reseller's turn in each part of a pass, and a whole pass over all resellers |
| `checkout.dfy` | an order's status over all handlers, the payment callback and the scheduler |
| `locks.dfy` | locks with a time limit |

## What the model found

- Equality between "applied" and "credited" needs one open order per reseller. Two orders planned from the same
  account settle on one credit exactly when their targets are equal (`SharedCredit.SecondOrderSettlesIffSameTarget`,
  `SharedCredit.SameTargetIffSamePurchase`), and such runs exist (`SharedCredit.TwoOpenOrdersShareOneCredit`).
- A request that outlives its order matters only if the next order is planned before it has arrived; then it can take
  the next credit back (`SharedCredit.LateUpdateUndoesTheNextCredit`). Within one order, late and repeated requests do
  no harm (`ExactlyOnce.EveryAppliedOrderCountsOnce`).
- `_matches` compares the expiry exactly, but the wire drops fractions of a second. The clock given to
  `apply_order` carries microseconds, so renewing an account that has run out gives a fractional target
  (`Recovery.ExpiredRenewalsInheritTheClock`), and an order with a fractional target is never recognised as
  applied (`Recovery.FractionalTargetNeverSettles`).
- A first purchase interrupted by the owner is lost. Suspending and enabling the reseller between the reservation and
  the activation takes it out of PROVISIONING for good (`FirstPurchase.OwnerCanStrand`). Its order then meets
  `apply_order`, which refuses a target without a "before" every time (`Reconcile.StrandedOrderIsNeverApplied`). A
  reserved order can still be applied if and only if its reseller is PROVISIONING (`FirstPurchase.CanBeAppliedIff`).
- A paid renewal can be left open for good in two ways. The next sync switches the exhausted account of an order whose
  update was lost off (`StrandedRenewals.ExpiryStrands`); or an attempt for an expired reseller executes the update and
  not the enable (`StrandedRenewals.LostEnableStrands`). After either, nothing but the owner's switch can help
  (`StrandedRenewals.StrandedUntilTheOwnerActs`). The exact conditions are `Recovery.SomeAttemptSettlesIff` and
  `Recovery.AttemptStrandsIff`.
- The two dry-run switches cover different halves. Under runtime mode "dry_run" alone a pass still switches off and
  deletes (`FullPass.RuntimeDryRunStopsOrders`, `FullPass.RuntimeDryRunStillDeletes`); under the environment's alone it
  still does whatever orders ask for (`FullPass.EnvironmentDryRunLeavesOrders`).
- A renewed child is switched on again exactly when its parent is ACTIVE outside dry run; otherwise its flags are
  cleared all the same (`Children.RenewedChildIsEnabledIff`).
- The recovery branch of `apply_order` settles without setting the reseller's product; the direct path sets it
  (`Recovery.ProductIsSetIff`).
- `provision` never checks the password, so a panel that confirms a reset it did not execute leaves the customer with
  a password that does not work (`FirstPurchase.CredentialsAgree`).
- The guard of `provision` switches a privileged account off without the permission to disable and despite a hold; it
  is the only such request (`FullPass.UnpermittedSwitchOffIsTheGuard`).
- The payment callback compares the currency with the configured one, the scheduler with the order's own
  (`Checkout.CallbackCurrencyIsTheOrdersIff`).
- The owner's retry of a FAILED order never fires: a failed order has no payment date
  (`Checkout.HandlersKeepTicket`, `Checkout.PaidBeforeApplied`).
- A pass that outlives its lock releases its successor's lock (`Locks.LateReleaseFreesAnother`), and a refused inner
  lock rolls back an outer lock that is not committed yet (`Locks.RefusedInnerLockDropsTheOuter`).

## Model

| member | source | states |
|---|---|---|
| `Quota.ExpiryClosedForm` | app/reseller/quota.py:3-4 | the expiry after any renewal history is the maximum of "start plus all days" and, per renewal, "its clock plus the days from it on" |
| `Quota.LimitClosedForm` | app/reseller/quota.py:5-8 | the same for the data limit over the usage read; an unlimited start adds no candidate |
| `Quota.RenewalsOnlyAdd` | app/reseller/quota.py:3-8 | one more renewal adds at least its days and traffic; what remains afterwards is max(0, old remainder) plus the purchase |
| `Quota.RenewalLastsUntilSpent` | app/reseller/quota.py:9-14 | a renewed entitlement is exhausted exactly when the clock reaches its expiry or usage its limit |
| `Quota.RenewalInUnits` | app/reseller/quota.py:3-8 | one renewal in microseconds and bytes: days from the later of expiry and clock, traffic on a limit that still has some left and on the usage otherwise |
| `Quota.ExhaustedIff` | app/reseller/quota.py:9-14 | exhausted exactly when the expiry has come or a positive limit is used up |
| `Wire.RoundTrip` | app/rebecca/models.py:18-36 | parse after serialize is truncation to the second; it is the identity exactly on whole seconds other than the epoch, and loses exactly the instants within a second of the epoch |
| `Wire.AcceptedImages` | app/reseller/service.py:69-72 | the second-wise comparison accepts exactly the values with the requested wire form; the exact one accepts the panel's answer only for whole seconds |
| `Entitlement.PurchaseChanges` | app/payments/service.py:31-60 | a purchase always changes limit and expiry, so no account matches "before" and "target" at once |
| `Entitlement.TargetInUnits` | app/payments/service.py:42-52 | what a renewal asks for, each of the six fields in numbers |
| `Entitlement.MatchesIff` | app/payments/service.py:31-60 | two accounts match the same snapshot exactly when they agree on all six fields, statuses by meaning |
| `RebeccaPanel.Panel.GetAdmin` | app/rebecca/client.py:101-108 | a read answers with the account of exactly that name, or not at all |
| `RebeccaPanel.Panel.AddAdmin` | app/rebecca/client.py:110-115 | a create never touches an existing account; a new one holds the parts of the request that were executed |
| `RebeccaPanel.Panel.ResetAdmin` | app/rebecca/client.py:124-130 | a reset changes only the named account, by the parts executed |
| `RebeccaPanel.Panel.UpdateEntitlement` | app/rebecca/client.py:117-130 | any subset of the four fields may be executed, the expiry as its wire image; the reply may be lost, and a missing account is a failure |
| `RebeccaPanel.Panel.SetAdminStatus` | app/rebecca/client.py:132-139 | enable and disable change the named account's status only, if executed |
| `RebeccaPanel.Panel.DisableUsersOf` | app/rebecca/client.py:140-141 | switches off exactly the users the account owns, if executed |
| `RebeccaPanel.Panel.SetUserStatus` | app/rebecca/client.py:178-186 | changes the named user's status only; a missing user is a failure |
| `RebeccaPanel.Panel.RemoveUser` | app/rebecca/client.py:188-192 | removes the named user only; a missing user is a failure |
| `RebeccaPanel.AllOffIff` | app/rebecca/client.py:140-141 | switching off an account's users changes exactly the owned ones, and only their status |
| `RebeccaPanel.FillInFull` | app/rebecca/client.py:110-130 | a full write leaves the account as asked, the expiry without its fraction; an empty one changes nothing |
| `Payments.SendAndVerify` | app/payments/service.py:111-142 | update, enable when EXPIRED or DISABLED, re-read, and settle only on an exact match, on rows and panel; settling leaves the order APPLIED now, without an error, and an EXPIRED or DISABLED reseller ACTIVE |
| `Payments.ApplyOrder` | app/payments/service.py:63-142 | one attempt changes rows, panel and request log exactly as `Attempted` says, and no other account, user or password; on both branches a settled order is APPLIED now, without an error, and an EXPIRED or DISABLED reseller is ACTIVE; a failed commit brings the committed rows back |
| `Recovery.RecoveryIsThreeWay` | app/payments/service.py:93-142 | without faults: target found settles without a call; "before" found resends and settles exactly when the result is recognisable; anything else stops with the panel unchanged; the plan survives |
| `Recovery.FirstAttempt` | app/payments/service.py:77-142 | a first attempt without faults settles exactly when its target is recognisable, and the account is then that target |
| `Recovery.SettlingBringsBack` | app/payments/service.py:100-142 | for every row and all faults: settling applies the order now and makes an EXPIRED or DISABLED reseller ACTIVE and changes no other status; a skipped attempt changes nothing; a failed one does not apply the order |
| `Recovery.FailuresAreRecorded` | app/payments/service.py:84-133 | what each failure leaves on the row |
| `Recovery.CallsFollowCommit` | app/payments/service.py:81-128 | under all faults: no request before the plan it carries is committed, no change without a request, nothing at all for a suspended reseller |
| `Recovery.ExpiredRenewalsInheritTheClock` | app/scheduler/jobs.py:340 | the target of an account that has run out is a whole second if and only if the clock is |
| `Recovery.SomeAttemptSettlesIff` | app/payments/service.py:93-142 | some attempt, whatever it meets, settles an open renewal if and only if its account shows the target, or "before" with a target recognisable from it |
| `Recovery.AttemptStrandsIff` | app/payments/service.py:107-133 | an attempt leaves an account that is neither "before" nor target if and only if the panel executed some but not all of what separates the two, the enable included |
| `Recovery.FirstAttemptStrandsIff` | app/payments/service.py:82-133 | the same of a first attempt, once its plan is committed |
| `Recovery.ProductIsSetIff` | app/payments/service.py:100-106 | a settling attempt leaves the bought product on the reseller if and only if it planned the order, or the target was not yet in place, or it was there before |
| `Recovery.NoBeforeNeverApplies` | app/payments/service.py:97-99 | an order whose target has no "before" is never applied or changed here and nothing is sent, whatever the account and the faults |
| `Recovery.FractionalTargetNeverSettles` | app/payments/service.py:55-60 | in every run from an account whose expiry is absent or a whole second, an order with a fractional target expiry stays APPLYING in both copies |
| `OrderMachine.StepKeepsInv` | app/payments/service.py:81-128 | every step keeps: session only ahead of database, plans agree and are durable before use, each plan in the ledger once, each request in flight carries its order's durable target |
| `NoOverCredit.NoOverCredit` | app/payments/service.py:81-121 | for any number of orders, attempts, crashes, partial, late and repeated updates: limit and expiry never exceed the closed form over the orders that committed a target, each counted once |
| `NoOverCredit.StepKeepsPlan` | app/payments/service.py:93-96 | no step changes a committed plan or un-applies an order |
| `NoOverCredit.TargetIsWriteOnce` | app/payments/service.py:93-96 | over any run a committed plan never changes, and an applied order never changes again |
| `ExactlyOnce.OpenOrderIsFieldWise` | app/payments/service.py:55-121 | in every orderly run, switches included, while an order is open each of the five fields it alone controls is its "before" or its target value |
| `AccountStatus.StatusIsBeforeOrSwitched` | app/payments/service.py:111-123 | in every run the sixth field, the status, is the one the order was planned from, or what the last switch or executed enable since that read left |
| `ExactlyOnce.StepRefines` | app/payments/service.py:63-142 | every step of an orderly run is a step of the abstract account: nothing, one atomic credit of a new order on exactly the current entitlement, or a change of status alone |
| `ExactlyOnce.RunRefines` | app/payments/service.py:63-142 | with one open order at a time, every schedule of crashes, faults, late or repeated requests, and switches of the account at any moment refines the account that credits each order atomically at the terms first computed |
| `ExactlyOnce.ChainFolds` | app/payments/service.py:42-52 | the newest target is the fold of all renewals in the ledger |
| `ExactlyOnce.EveryAppliedOrderCountsOnce` | app/payments/service.py:63-142 | with no order open, limit and expiry are exactly the fold of all applied orders, each once; services, users limit and role are the last order's |
| `CalmRuns.CalmIsOrderly` | app/payments/service.py:63-142 | every calm run is orderly, so the refinement holds of them too |
| `CalmRuns.AtMostOneUpdateTakesEffect` | app/payments/service.py:93-121 | if besides no request outlives its attempt and no switch falls into one, at most one request of an open order ever had a visible effect |
| `CalmRuns.UpdatesOnlyFromBefore` | app/payments/service.py:93-121 | in these runs an update is sent only while the account equals the durable "before" on all six fields, with no earlier effective update, and carries the durable target |
| `Series.AttemptIsRun` | app/payments/service.py:63-142 | every attempt, under any combination of faults including a failed commit, with any other orders open and any requests under way, is a run of the order machine ending in the same account, session and database; a calm run when none is under way and, for a new plan, none other open |
| `Series.SyncIsRun` | app/scheduler/jobs.py:76-131 | a reseller's sync is a switch of its account and a change of its status, hence a run of the machine, between any two attempts |
| `Series.OwnerSwitchIsRun` | app/bot/handlers/owner/console.py:388-399 | so is the owner's switch with its own commit |
| `Series.OwnerSwitchMoves` | app/bot/handlers/owner/console.py:388-399 | the owner's switch changes the account if executed, and makes the row SUSPENDED or ACTIVE exactly when the panel then shows it off or on |
| `Series.SeriesIsRun` | app/scheduler/jobs.py:51-61 | any series of attempts, syncs, owner's switches, payments, spending, commits and crashes is a run of the machine; a calm one if orders are planned one at a time |
| `Series.SeriesNeverOverCredits` | app/payments/service.py:81-121 | after any such series, at any number of orders and under any faults, limit and expiry are bounded by the closed form over the orders that committed a target, each once |
| `Series.SeriesCreditsOnce` | app/payments/service.py:63-142 | after any such series with orders planned one at a time and none open, limit and expiry are exactly the fold of the applied orders, each once |
| `Series.SettledRenewalBringsBack` | app/payments/service.py:100-142 | after any series, an attempt that leaves its order applied leaves no reseller EXPIRED or DISABLED and changes no other status |
| `Series.NextSyncRevives` | app/scheduler/jobs.py:101-110 | the next sync of that account before it is spent, outside dry run, runs the loop that revives the children |
| `StrandedRenewals.StrandedUntilTheOwnerActs` | app/payments/service.py:93-109 | an open renewal whose account is switched off and neither "before" nor target stays open and its account as it is through every series without the owner |
| `StrandedRenewals.ExpiryStrands` | app/scheduler/jobs.py:111-123 | the sync that switches off the exhausted account of an order planned from an active one, with its update lost, leads there |
| `StrandedRenewals.LostEnableStrands` | app/payments/service.py:112-128 | so does an attempt for a switched-off account that executes any change and not the enable |
| `SharedCredit.TwoOpenOrdersShareOneCredit` | app/payments/service.py:100-106 | for every account in service, every product and any two clocks there is a run without late requests in which two open orders end applied after one credit |
| `SharedCredit.SecondOrderSettlesIffSameTarget` | app/payments/service.py:93-109 | of two orders planned from the same account, the second settles on the first one's credit if and only if their targets are equal, and is ambiguous otherwise; it sends nothing |
| `SharedCredit.SameTargetIffSamePurchase` | app/payments/service.py:42-52 | for an account in service two targets are equal if and only if the products sell the same time, traffic, services and users limit |
| `SharedCredit.LateUpdateUndoesTheNextCredit` | app/payments/service.py:111-121 | for every account in service and two products there is a run in which a late copy of an applied order's update takes the next applied order's credit back |
| `Provisioning.VerifyEntitlement` | app/reseller/service.py:75-99 | verification passes exactly for the named active reseller account with the requested entitlement to the second |
| `Provisioning.Provision` | app/reseller/service.py:102-165 | the method changes panel, passwords and request log exactly as `Provisioned` says, and no user |
| `Provisioning.AvailableUsername` | app/scheduler/jobs.py:356-365 | returns the first candidate that is free locally and on the panel; gives up only when all are taken, or the panel does not answer about one after a row of taken ones |
| `Provisioning.OnlyTheNamedAccount` | app/reseller/service.py:120-148 | no other account or password changes, no account disappears, and a create is sent only for a free name |
| `Provisioning.PrivilegedIsNeverUpdated` | app/reseller/service.py:136-141 | an existing sudo or full_access account is never written; it is asked off, off exactly if that is executed, and the call raises |
| `Provisioning.NormalReturnMeansGranted` | app/reseller/service.py:149-158 | normal return means the live account is the requested one, to the second and active |
| `Provisioning.RetryKeepsGrant` | app/reseller/service.py:142-149 | any part of a repeated request leaves a granted entitlement granted |
| `FirstPurchase.StepKeepsInv` | app/scheduler/jobs.py:269-305 | every step keeps name and target durable before any create, and every worker on the committed ones |
| `FirstPurchase.AtMostOneAccount` | app/scheduler/jobs.py:269-305 | over any run at most one account is created, under the committed name; every provision uses the committed name and target |
| `FirstPurchase.ReservationIsPermanent` | app/scheduler/jobs.py:269-289 | a committed name and target never change |
| `FirstPurchase.CredentialsAgree` | app/scheduler/jobs.py:286-339 | when the order is durably applied the customer received a password; it is the panel's if, and for passwords never generated twice only if, the panel stored it when it last confirmed one |
| `FirstPurchase.GrantSurvivesRetries` | app/scheduler/jobs.py:286-331 | after the first normal return the account keeps granting the committed target through all retries |
| `FirstPurchase.PendingStaysProvisioning` | app/scheduler/jobs.py:303-339 | unless the owner acts, the reseller is PROVISIONING until the order is durably applied and ACTIVE afterwards |
| `FirstPurchase.StrandedForever` | app/scheduler/jobs.py:286-340 | a reserved, unapplied order whose reseller is not PROVISIONING is never applied by any later run, and nothing is asked of the panel for it |
| `FirstPurchase.OwnerCanStrand` | app/bot/handlers/owner/console.py:388-399 | from every initial state the owner's action between reservation and activation leads there |
| `FirstPurchase.CanBeAppliedIff` | app/scheduler/jobs.py:269-340 | in every reachable state a reserved order not yet applied can still be applied if and only if its reseller is PROVISIONING in the database |
| `FirstPurchase.CanBeAppliedUnlessOwnerActs` | app/scheduler/jobs.py:269-340 | unless the owner acts it always can |
| `FirstPurchase.VisitIsRun` | app/scheduler/jobs.py:268-339 | every visit of a pass, whatever fails in it, is a run of the machine |
| `FirstPurchase.VisitAppliesIff` | app/scheduler/jobs.py:268-339 | a visit applies the order if and only if a name is durably reserved, provision returns normally, the commit succeeds and delivery reports success; the reseller is then ACTIVE and the chat has the password just stored |
| `FirstPurchase.VisitLeaves` | app/scheduler/jobs.py:268-339 | what every other visit leaves: nothing, the saved row, or the reservation with the panel as one call of provision left it |
| `FirstPurchase.CleanVisitHandsOver` | app/scheduler/jobs.py:268-339 | a visit without faults under a free name applies the order and the account is exactly what was asked for |
| `Children.SafeDelete` | app/users/lifecycle.py:13-25 | the method's verdict, request and effect are those of `SafeDeletion` |
| `Children.DeletesExactlyWhenGuarded` | app/users/lifecycle.py:13-25 | a delete is sent if and only if nothing forbids it and the final read shows an owned, exhausted user; DELETED means the user is gone |
| `Children.VerdictsInOrder` | app/users/lifecycle.py:13-25 | the verdict is the first reason that applies; removal is reported exactly when it was executed, answered and read back |
| `Children.ExpireUser` | app/scheduler/jobs.py:170-181 | detection, deadline and local status are set; the own-expiry flag only after a verified switch-off |
| `Children.RenewUser` | app/scheduler/jobs.py:183-195 | the schedule and flags are cleared, after a verified switch-on where one is due |
| `Children.ExhaustedUserIsScheduled` | app/scheduler/jobs.py:170-181 | an exhausted user without a detection ends EXPIRED, detected now and due a grace period later; it is asked off exactly outside dry run with the permission, and flagged exactly when that was answered and read back as off |
| `Children.RenewedUserIsCleared` | app/scheduler/jobs.py:183-195 | a scheduled user that is not exhausted loses schedule, warning and flag, unless it is to be asked on and is not then seen on |
| `Children.OtherUsersStay` | app/scheduler/jobs.py:151-195 | in all other cases a sync leaves row and user alone |
| `Children.SyncUser` | app/scheduler/jobs.py:151-195 | one listed user's row and panel copy change exactly as `SyncedChild` says; an exhausted user without a detection ends EXPIRED with both dates and is asked off where permitted |
| `Children.RenewedChildIsEnabledIff` | app/scheduler/jobs.py:183-194 | a renewed child that automation had switched off ends switched on if and only if its parent is ACTIVE outside dry run |
| `Children.DeleteDue` | app/scheduler/jobs.py:206-231 | warning, deletion and the DELETED mark on one due row |
| `Children.DueRowsAreHandled` | app/scheduler/jobs.py:206-231 | a due row: the warning is noted exactly when less than a day is left, none was noted and this one arrived; the delete is sent exactly under all guards; the row is DELETED exactly when removal was seen |
| `Children.Revive` | app/scheduler/jobs.py:105-109 | one marked child is re-read and switched on only if owned and not exhausted |
| `Children.RevivalIsGuarded` | app/scheduler/jobs.py:105-109 | a switch-on is sent only for a revivable user; the mark survives only on others |
| `Children.MarkedChildIsRevived` | app/scheduler/jobs.py:105-110 | a marked child is asked on exactly if owned and not exhausted, and unmarked exactly when that is answered; the loop ends exactly at a request without an answer |
| `Children.ReviveAll` | app/scheduler/jobs.py:102-110 | a completed loop has asked on every marked, revivable child and leaves marked only the others; it asked for no other child, and without faults it completes |
| `ChildMachine.StepKeepsInv` | app/scheduler/jobs.py:151-231 | every step keeps row shape, traceable deadlines and justified flags in both copies |
| `ChildMachine.RowsAreShaped` | app/scheduler/jobs.py:151-195 | in every reachable state ACTIVE, EXPIRED and DELETED rows carry exactly their dates, with a deadline 1 to 720 hours after detection |
| `ChildMachine.DeletionIsEarned` | app/scheduler/jobs.py:148-231 | every automatic delete has an earlier, uncancelled sync that saw the user owned and exhausted a full grace period before, and at the delete all guards hold live |
| `ChildMachine.ScheduledIsDeleted` | app/scheduler/jobs.py:170-231 | the converse: a sync that finds the user exhausted, and a permitted due pass without faults a grace period later with the schedule still standing, delete the user and record it |
| `ChildMachine.EnablesOnlyWhatItDisabled` | app/scheduler/jobs.py:102-194 | every automatic switch-on is of an owned, non-exhausted child of an ACTIVE, un-held parent, on the flag and after the very kind of switch-off that set it: its own, or its parent's |
| `ChildMachine.DeletedIsFinal` | app/scheduler/jobs.py:228-230 | a committed DELETED row stays DELETED |
| `Resellers.MarkAll` | app/scheduler/jobs.py:126 | exactly the rows with local status ACTIVE get the parent mark |
| `Resellers.Expire` | app/scheduler/jobs.py:123-131 | account, users, marks and status change exactly as `SwitchOff` says |
| `Resellers.SyncReseller` | app/scheduler/jobs.py:76-131 | one reseller's sync on rows and panel, including which children a revival may touch |
| `Resellers.ExhaustedAccountIsSwitchedOff` | app/scheduler/jobs.py:111-131 | the exhausted account of a serving, un-held reseller is asked off where permitted, its users too where the panel can; EXPIRED is set exactly when it was then seen off, the children are marked exactly when the users' request was answered |
| `Resellers.LiveAccountStartsRevival` | app/scheduler/jobs.py:101-110 | the live account of an ACTIVE, un-held reseller starts the revival outside dry run, and no other does |
| `Resellers.OtherResellersStay` | app/scheduler/jobs.py:76-122 | in all other cases a sync changes and asks nothing |
| `Resellers.SuspensionSticks` | app/scheduler/jobs.py:63-70 | as long as the owner does not act, no run changes a suspended reseller, its account, or sends a request for it |
| `Resellers.SyncOnlyExpires` | app/scheduler/jobs.py:111-131 | sync changes a status only from ACTIVE, TRIAL or LOW_QUOTA to EXPIRED |
| `Resellers.ExpiriesAlternate` | app/scheduler/jobs.py:111-133 | between two EXPIRED entries of the durable history there is always a serving one |
| `Resellers.SettledRenewalLasts` | app/scheduler/jobs.py:102-133 | until clock or usage reach the target, no run of syncs changes a settled reseller's status or account; the only requests are switch-ons of users it owns |
| `Scheduler.SyncListed` | app/scheduler/jobs.py:151-195 | finds or adds the user's row and changes that entry of the table only |
| `Scheduler.SyncUsersOf` | app/scheduler/jobs.py:148-195 | the loop over the listing equals `SyncedAll` on table, users and requests; completed, it has put every owned, listed, exhausted user down as detected, and without faults it completes |
| `Scheduler.EveryListedRowIsSynced` | app/scheduler/jobs.py:148-195 | each owned, listed user's row is computed from that row and user as before the loop, independent of the others |
| `Scheduler.UnlistedIsUntouched` | app/scheduler/jobs.py:148-150 | a user that is not listed or not owned keeps row and panel copy |
| `Scheduler.SyncStaysLicensed` | app/scheduler/jobs.py:170-189 | requests of the loop: none in dry run, off only for listed, owned, exhausted users with permission, on only for non-exhausted ones under an ACTIVE parent |
| `Scheduler.ExhaustedListedAreDetected` | app/scheduler/jobs.py:148-181 | a loop that is not cut short leaves no owned, listed, exhausted user without a detection and a deadline |
| `Scheduler.CleanLoopRuns` | app/scheduler/jobs.py:148-195 | nothing but an unanswered request or a user that is gone cuts the loop short |
| `Scheduler.SettingsMean` | app/database/settings.py:32-57 | the runtime mode wins over the environment, a missing one leaves it to the environment, other text raises; a grace period is 1 to 720 hours |
| `Scheduler.DeleteDueOf` | app/scheduler/jobs.py:197-231 | a completed loop has handled every due row from its own state and its user's, sent what that asks for, and changed no other row; without faults it completes; deletes go only to users shown owned and exhausted, with all permissions and no hold |
| `Reconcile.ReserveName` | app/scheduler/jobs.py:270-289 | name, status and target become durable together or not at all |
| `Reconcile.ProcessReserved` | app/scheduler/jobs.py:290-339 | provision, commit, delivery and activation on the rows are exactly `Purchased`; activation sets product and date |
| `Reconcile.ProcessPurchase` | app/scheduler/jobs.py:268-339 | one visit to a first purchase on the rows, the panel and the chat is exactly `Visited`, for the product's own time and traffic |
| `Reconcile.FirstPurchaseIsARenewalOfNothing` | app/scheduler/jobs.py:279-284 | a first purchase asks for what a renewal of an account without expiry, limit and usage would get at the same clock: days after it, traffic in bytes, services and users limit |
| `Reconcile.AppliedMeansHandedOver` | app/scheduler/jobs.py:279-339 | a first purchase that ends applied has a live account with the product's traffic, users limit and services and an expiry in the second its days end |
| `Reconcile.CleanVisitIsApplied` | app/scheduler/jobs.py:268-339 | a faultless first visit under a free name applies the order and hands the account over |
| `Reconcile.CleanRenewalIsApplied` | app/scheduler/jobs.py:340 | a faultless first attempt on a renewal with a recognisable target applies it: time and traffic are added, and an expired or disabled reseller is ACTIVE |
| `Reconcile.StrandedOrderIsNeverApplied` | app/payments/service.py:97-99 | a stranded first purchase is applied neither by any later visit nor by any attempt of `apply_order`, which sends nothing for it |
| `Reconcile.ReconcileOrder` | app/scheduler/jobs.py:257-342 | one selected order goes the first-purchase or the renewal way by its reseller's account and status in live mode, and nowhere otherwise; a first purchase that ends applied has handed over the product's traffic and time; a failure does not end the pass, an unreadable mode does |
| `Reconcile.ReconcileOrdersOf` | app/scheduler/jobs.py:248-342 | a completed loop has given every order its turn, each from where the one before left reseller and panel; only an unreadable mode cuts it short; durable plans and settled orders stay; a name is reserved once and is new; all requests are for that one account |
| `FullPass.Run` | app/scheduler/jobs.py:51-61 | a pass that holds its lock and is not cut short has done all four parts for every reseller (`Played`): used-up accounts were switched off where permitted, used-up users are scheduled; without faults it is not cut short, without the lock it changes nothing. Every request, first purchases included, is accounted for by one reseller as it stood before; accounts and passwords change only where a request names them; no suspension of an account is lifted or imposed; with both dry-run switches nothing is asked or changed |
| `FullPass.UsedUpAccountsAreSwitchedOff` | app/scheduler/jobs.py:111-131 | a completed pass sent the switch-off for every serving, un-held reseller whose account was used up when it began, where permitted and readable; answered and executed, the reseller is EXPIRED after the first part and its ACTIVE children are marked |
| `FullPass.ListedUsersAreScheduled` | app/scheduler/jobs.py:148-181 | a completed pass leaves every owned, used-up user on a listing down as expired, with its deadline, unless already deleted |
| `FullPass.DueRowsAreDone` | app/scheduler/jobs.py:197-231 | a completed pass handled every due row by its guard: deletes sent exactly where all guards allow, rows marked exactly when the removal was seen, every other row as it was |
| `FullPass.SelectedOrdersAreWorkedOn` | app/scheduler/jobs.py:248-342 | a completed pass with the orders' lock gave every selected order its visit or attempt in live mode, under names no reseller had, and left every other order as it was |
| `FullPass.CleanRenewalsAreApplied` | app/scheduler/jobs.py:248-342 | so a paid renewal with a recognisable target, met by no fault, ends applied |
| `FullPass.DryRunIsSilent` | app/scheduler/jobs.py:265-267 | with environment and runtime mode in dry run no request can be accounted for |
| `FullPass.RuntimeDryRunStopsOrders` | app/scheduler/jobs.py:265-267 | under the runtime switch alone no create, update or enable can be accounted for, and a switch-off only as sync's |
| `FullPass.EnvironmentDryRunLeavesOrders` | app/scheduler/jobs.py:120-122 | under the environment's switch alone only creates, updates, enables and the provisioning guard can be accounted for |
| `FullPass.RuntimeDryRunStillDeletes` | app/scheduler/jobs.py:214-230 | under the runtime switch alone every due, owned, exhausted child without a hold is deleted, if the environment permits deletion |
| `FullPass.NoDeleteWithoutPermission` | app/users/lifecycle.py:16-17 | with any switch for deletion off no accounted request deletes a user |
| `FullPass.SuspendedIsNeverNamed` | app/scheduler/jobs.py:63-70 | no accounted request names a suspended reseller's account, and a user is switched on only for another, ACTIVE reseller that owns it |
| `FullPass.UnpermittedSwitchOffIsTheGuard` | app/reseller/service.py:136-141 | an account is switched off without permission or despite a hold only as a first purchase's privileged account |
| `Checkout.CallbackAcceptsExactlyPayments` | app/payments/webhook.py:13-29 | accepted if and only if authentic, a completed payment of this order in the configured currency, and the order waits; a repeated callback is recognised and changes nothing |
| `Checkout.AcceptedMeansPaid` | app/payments/webhook.py:13-29 | an accepted callback makes the order PAID now and adds exactly this confirmation; any other verdict leaves it as it is |
| `Checkout.CallbackCurrencyIsTheOrdersIff` | app/payments/webhook.py:22 | an accepted payment is in the order's currency if and only if the configured currency equals it |
| `Checkout.InquiryFindsPayments` | app/scheduler/jobs.py:384-402 | the scheduler marks an order paid if and only if the look-up is a completed payment of it in its own currency |
| `Checkout.FoundMeansPaid` | app/scheduler/jobs.py:384-402 | a look-up that finds the payment makes the order PAID now and adds exactly this confirmation; any other leaves it as it is |
| `Checkout.HandlersMove` | app/bot/handlers/common.py:205-248 | receipt, approval, rejection and retry move exactly the orders in their own status; an approval dates the payment |
| `Checkout.ReceiveCallback` | app/payments/webhook.py:11-33 | an accepted verdict means the named order is PAID now with exactly this confirmation added, any other that it is as it was; every other order is unchanged |
| `Checkout.OrderRecord.Receive` | app/bot/handlers/common.py:210-211 | a receipt moves PENDING to WAITING_RECEIPT and nothing else |
| `Checkout.OrderRecord.ApproveCard` | app/payments/service.py:21-28 | approval moves WAITING_RECEIPT to PAID with a date, as the conditional updates of both handlers do |
| `Checkout.OrderRecord.RejectCard` | app/bot/handlers/owner/console.py:463 | rejection moves WAITING_RECEIPT to REJECTED and nothing else |
| `Checkout.OrderRecord.RetryApply` | app/bot/handlers/owner/console.py:472-480 | retry reports eligibility and moves FAILED to PAID only with a payment date |
| `Checkout.OrderRecord.CheckProvider` | app/scheduler/jobs.py:384-402 | the look-up's effect on the row |
| `Checkout.HandlersKeepTicket` | app/bot/handlers/common.py:205-248 | every handler keeps payment date, evidence and target consistent with the status; retry never changes a consistent order |
| `Checkout.PaidBeforeApplied` | app/scheduler/jobs.py:248-340 | in every run of all handlers PAID, APPLYING and APPLIED imply a payment date and a receipt then approval, or a completed payment of this order; APPLYING and APPLIED imply a durable target |
| `Checkout.NothingIsUndone` | app/scheduler/jobs.py:248-340 | from any moment of a run on, APPLIED, REJECTED and FAILED are final, the payment date is written once and the target never changes |
| `Locks.LockTable.Acquire` | app/database/locks.py:13-34 | wins exactly if the key has no unexpired row; a loss rolls back every row the session had not committed |
| `Locks.LockTable.Release` | app/database/locks.py:37-38 | deletes the key's row, whoever holds it |
| `Locks.EnterIsAcquire` | app/database/locks.py:13-34 | entering in the many-session machine is acquire, seen from the session that does it |
| `Locks.LeaveIsRelease` | app/database/locks.py:37-38 | leaving is release, seen from the session that does it |
| `Locks.AcquisitionsAreSeparated` | app/database/locks.py:13-48 | over any trace two successful acquisitions of a key are separated by its being given up or by the first one's time limit |
| `Locks.ExclusionLastsIffSteady` | app/database/locks.py:13-34 | after an acquisition every holder still has its own row, and no two a key, if and only if no holder of the key is past its limit and no refusal hits a session with an uncommitted lock |
| `Locks.HoldersMeetIff` | app/database/locks.py:16-21 | an acquisition lets two holders share a key if and only if one of that key is past its limit |
| `Locks.SteadyKeepsExclusion` | app/database/locks.py:41-48 | under these conditions every step keeps one holder per key, each with its row |
| `Locks.PassesNeverOverlap` | app/scheduler/jobs.py:237-257 | passes that end within their limit never run under the same key at once |
| `Locks.CrashBlocksUntilTheLimit` | app/database/locks.py:16-21 | a committed lock left by a crash keeps the key exactly until its limit |
| `Locks.LateReleaseFreesAnother` | app/database/locks.py:37-48 | a concrete run in which a late pass releases its successor's lock and two passes overlap |
| `Locks.RefusedInnerLockDropsTheOuter` | app/database/locks.py:29-33 | a concrete run in which a refused inner lock loses the outer one and two passes overlap |

## Left out

- ExactlyOnce.RunRefines: of orderly runs, in which an order is planned only when the others are applied and no request is under way. `SharedCredit` shows that neither condition can be dropped; `NoOverCredit.NoOverCredit` holds of all runs.
- ExactlyOnce.EveryAppliedOrderCountsOnce: of the same orderly runs.
- CalmRuns.AtMostOneUpdateTakesEffect: of runs in which, besides, no request outlives its attempt, since a late copy may well be the second to take effect, and no switch falls into an attempt.
- CalmRuns.UpdatesOnlyFromBefore: of the same calm runs.
- Series.SeriesIsRun: the reseller has its account and no longer is PROVISIONING; first purchases are `FirstPurchase`'s. Requests that outlive an attempt stay under way in the machine's run, but the series itself has no step that delivers them again; `NoOverCredit` and `ExactlyOnce` cover that.
- FirstPurchase.CredentialsAgree: a delivery reported as successful is taken to have arrived.
- FirstPurchase.AtMostOneAccount: nobody else creates an account under the reserved name after it was found free.
- FirstPurchase.CanBeAppliedIff: "can" means some run without further faults; no liveness is claimed.
- FullPass.Run: visits rows grouped by reseller and without the batch limits, in a session that has just loaded them. Its fifth part, the look-ups at the payment provider, asks the panel nothing and is `Checkout.OrderRecord.CheckProvider`. A failed commit loses the rows of the order it was for; that it loses the session's other uncommitted rows as well is `Crash` in the machines.
- FullPass.DueRowsAreDone: speaks of the rows and users as the first two parts left them, and FullPass.SelectedOrdersAreWorkedOn of each order's own moment; what a fault-free pass does to a row due at its start depends on what the listing shows of it.
- FullPass.SuspendedIsNeverNamed: needs distinct account names, as the database enforces for resellers, and speaks of suspended resellers that have an account; the owner can suspend no other.
- Scheduler.EveryListedRowIsSynced: needs distinct user names in one listing and a loop without an exception.
- Checkout.PaidBeforeApplied: handlers and callback are atomic transactions that do not interleave with a scheduler pass; each statement by the payment provider is taken as authentic or not.
- Checkout.InquiryFindsPayments: currencies are compared after folding the letters a to z only.
- Locks.PassesNeverOverlap: assumes one clock that does not run backwards; how the database isolates an uncommitted lock row is not modelled, every session sees it at once.
- Wire.RoundTrip: expiry as float or digit text, time zones and the range of datetime are not modelled; `timestamp()` is exact here.
- Entitlement.PurchaseChanges: service lists are multisets of their text; a list that differs only in order is the same list.
- Provisioning.Provision: permissions, Telegram id and two-factor fields of the request, and password generation.
- Resellers.SyncReseller: cached figures, warnings and notifications; a failing capability detection counts as a failing request for the users.
- Fairness: no liveness is claimed for more stuck orders than one batch holds.
- Other writers to the panel during an attempt, other than usage, are not modelled, except that status may be switched.
- The reader of account payloads (`users_usage` before `used_traffic`) and status text handling beyond the four known names: values arrive already read.
- After a first purchase the stored target is replaced by a dump of the live account; the model keeps the target.
- The in-process lock per order in `apply_order`: one worker per reseller is part of the machine.
- The trial flow, Telegram interface, HTTP and signature checks, settings editing, audit and reports: easy members, or no state of this protocol.
