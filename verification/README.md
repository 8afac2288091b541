# Verified model of the billing, session, permission, commission and date logic

This Dafny project models the stateful core of a small-business back office and proves
what its rules promise: how a company's plan moves with the payment provider's answers, how
sessions and password resets expire, where administrator permissions come from, how sales
commissions round, how the audit log is paged, and how date ranges are counted.

`dafny verify dfyconfig.toml` checks the whole project.

## How it is organised

Each stateful component comes in up to three layers. A *model* module says what every
operation does to the stored rows, as functions on values, with the provider's answers, the
clock, fresh keys and tokens and the verdicts of other services as inputs. A *store* module
holds a class that updates those rows in place, branch by branch and loop by loop as the
services do; every method is proved to have the effect the model function gives. The other
modules prove properties of the model: what each operation does told by its input, what one
operation leads to in another, what all steps keep, and what holds over whole runs.

| modules | content |
|---|---|
| `BillingModel`, `BillingActions`, `BillingStore` | licenses, checkout sessions, account creation, provider answers, owner, scheduler, administrator and maintenance steps |
| `BillingPlans`, `BillingAccess`, `BillingSuperseded`, `BillingRepeat`, `BillingFree` | who raises a plan, paid time is kept, late notices, repeated notices, clean free licenses |
| `BillingOutcomes`, `BillingJourneys` | what each answer does, and what the owner's actions lead to |
| `Invoices`, `Webhook`, `WebhookOutcomes` | the invoice ledger and the deduplicated provider events, and what a delivery does |
| `SessionModel`, `SessionRuns`, `SessionOutcomes`, `SessionStore` | rotating refresh tokens, revocation, maintenance sweep, password reset |
| `PermissionModel`, `PermissionRuns`, `PermissionOutcomes`, `PermissionStore` | grant, revoke and bootstrap over a table with an audit log |
| `CommissionModel`, `CommissionBounds`, `CommissionOutcomes`, `CommissionReport` | splitting a sale, rounding bounds, attribution and earnings, the report loops |
| `AuditPages`, `AuditTies` | paging two logs by a bounded fetch and a merge, and what ties of time do to it |
| `Calendar`, `DateOnly`, `AnalyticsPeriod` | day numbers of the Gregorian calendar, date texts, day ranges |
| `Wrappers`, `Text` | options, trimming |

## What the code does differently from what one would expect

These are facts about the modelled code, each stated as a lemma.

- An applied upgrade from BASIC to PRO that was recognised by its amount is taken back by the
  next identical paid notice when its checkout names BASIC
  (`BillingRepeat.UpgradeIsTakenBack`; exactly when is `BillingRepeat.SecondApplicationChangesExactly`).
- A pending notice reopens a completed checkout, and a paid notice may then move the license
  back to a subscription the company had left (`BillingSuperseded.ReopenedCheckoutTakesOver`).
- A paused notice relinks even a free license (`BillingFree.PausedBeforePaid`; exactly when is
  `BillingFree.StepKeepsCleanExactly`).
- A cancelled, expired or paused notice may name an earlier period end than the stored one and
  so shorten paid time (`BillingAccess.EarlierEndCutsAccess`; exactly when are
  `BillingAccess.StepKeepsEndExactly` and `BillingAccess.EarlyLossExactly`).
- Audit pages lose or repeat an event when a page ends inside a group of equal times and the
  database orders such rows differently from one request to the next
  (`AuditTies.PagesIgnoreTiesExactly`).
- The two branches that would create a license during a downgrade cannot be reached
  (`BillingPlans.DowngradeNeverCreatesLicense`).
- All permission keys are high or critical, so the rule against granting a critical key to
  oneself covers every grant (`PermissionRuns.NobodyGrantsHimself`).
- `Date.UTC` moves the years 0 to 99 to 1900 to 1999 (section 21.4.3.4 of ECMA-262): such dates
  are refused by the employee filter, and an analytics range whose default start lies there is
  accepted but lists no day (`AnalyticsPeriod.EarlyDefaultStart`).

## Model

| member | source | states |
|---|---|---|
| `BillingPlans.AnswerRaisesOnlyWhenPaid` | backend/src/modules/billing/billing.service.ts:799-1112 | One provider answer raises a plan only if it reports a paid status, is about that company, and the plan reached is that of the checkout it resolves to or a pending PRO recognised by the PRO price; the pending plan is then cleared. |
| `BillingPlans.PlanRisesOnlyWhenPaid` | backend/src/modules/billing/billing.service.ts:118-1402 | In every state and for every step (account creation, owner, provider, refresh, scheduler, extension, suspend, reactivate, maintenance sweep), a plan rises only because the step applies a paid answer that pays for exactly the plan reached. |
| `BillingPlans.DowngradeNeverCreatesLicense` | backend/src/modules/billing/billing.service.ts:941-1060 | Without a license, a cancelled, canceled or expired answer always ends in the failed-checkout branch, so neither license-creating arm of the downgrade can run and no license appears. |
| `BillingPlans.AccountStartsFree` | backend/src/modules/auth/auth.service.ts:811-820 | A new account starts free, with nothing pending and no provider reference, and leaves every other license and all checkouts alone. |
| `BillingPlans.PlanNeverAboveRequests` | backend/src/modules/billing/billing.service.ts:118-1402 | From the first account on, no company ever holds, has pending, or has a checkout for, a plan above the highest one its owner has asked for so far. |
| `BillingPlans.PaidPlanWasPaidFor` | backend/src/modules/billing/billing.service.ts:118-1402 | Whenever a company holds a paid plan after a run in which it started without one, some step of the run applied an answer that paid for that plan or a higher one. |
| `BillingAccess.GentleAnswerKeepsAccess` | backend/src/modules/billing/billing.service.ts:941-1029 | A cancelled, expired, paused or rejected answer that arrives before the stored period end and names no end already passed keeps the plan, leaves an end in the future (the stored or the named one) and never withdraws a recorded cancel. |
| `BillingAccess.AccessKeptBeforeEnd` | backend/src/modules/billing/billing.service.ts:461-528 | No run of customer cancels, such notices and scheduled transitions, each before the end stored at that moment, changes the plan or forgets a recorded cancel. |
| `BillingAccess.CancelStaysRecorded` | backend/src/modules/billing/billing.service.ts:494-509 | After such a run containing a customer cancel that went through, the cancel is still scheduled. |
| `BillingAccess.CancelTakesEffectAtEnd` | backend/src/modules/billing/billing.service.ts:1342-1358 | After such a run with a customer cancel, a scheduled transition makes the company free exactly when it runs at or after the stored end. |
| `BillingAccess.StepKeepsEndExactly` | backend/src/modules/billing/billing.service.ts:941-1029 | One cancel, notice or transition before the stored end moves it before that end exactly when it cuts: its answer is about the company, resolves to a plan, names an earlier end, and is a paused notice or a cancelled or expired one that does not merely close an abandoned checkout attempt. |
| `BillingAccess.EndKeptExactlyWithoutCuts` | backend/src/modules/billing/billing.service.ts:941-1029 | A run of such steps before the end stored at the start keeps the plan paid until that end all along exactly when none of its steps cuts. |
| `BillingAccess.AccessKeptUntilFirstEnd` | backend/src/modules/billing/billing.service.ts:941-1029 | Without a cut the plan and a recorded cancel are kept up to that end as well. |
| `BillingAccess.TransitionLowersExactly` | backend/src/modules/billing/billing.service.ts:1342-1376 | A scheduled transition lowers the plan exactly when a cancel is recorded, or BASIC is pending on PRO, and the stored end has come. |
| `BillingAccess.StepOpensEarlyLossExactly` | backend/src/modules/billing/billing.service.ts:941-1029 | One such step makes it possible to lose the plan before the end stored at the start exactly when it cuts and leaves a cancel recorded or BASIC pending on PRO. |
| `BillingAccess.EarlyLossExactly` | backend/src/modules/billing/billing.service.ts:1342-1376 | After a run of such steps, each before the end stored at that moment, a transition before the first end lowers the plan exactly when a loss is scheduled and the stored end has come, and that takes a cut in the run. |
| `BillingAccess.EarlierEndCutsAccess` | backend/src/modules/billing/billing.service.ts:941-1000 | Such a loss happens: a cancelled notice naming an earlier, still future end moves the stored end, and a transition between the two ends drops the plan. |
| `BillingOutcomes.UnresolvedAnswer` | backend/src/modules/billing/billing.service.ts:842-856 | An answer is ignored for want of a session exactly when it is about no company, or without a checkout about one on FREE, and then changes nothing. |
| `BillingOutcomes.PaidAnswer` | backend/src/modules/billing/billing.service.ts:856-939 | A paid answer takes effect exactly when it is not held back (its checkout belongs to another subscription and is closed, or neither matches the pending plan nor upgrades BASIC to PRO; or it stands for FREE): the license then holds the plan, the link and the dates of the answer and the checkout is completed. Held back, it changes nothing. |
| `BillingOutcomes.PaidAnswerWithdraws` | backend/src/modules/billing/billing.service.ts:875-934 | When a paid answer takes effect, a checkout withdraws the pending plan and a recorded cancel; without one both stay, but for a plan reached by its amount. |
| `BillingOutcomes.FailedAttempt` | backend/src/modules/billing/billing.service.ts:941-973 | A rejected checkout, or a cancelled, expired or failed one that only closes an attempt, gets the status for that word, and the license loses at most the pending plan the checkout was for. |
| `BillingOutcomes.AnswerTakesPlanExactly` | backend/src/modules/billing/billing.service.ts:975-1082 | An answer takes a paid plan away, and reports a downgrade, exactly when it says cancelled, canceled or expired, is about the company and stands for a plan, closes no abandoned attempt, and the end it names, else the stored one, is missing or past; the license is then free and unlinked with nothing left of the subscription. |
| `BillingOutcomes.EndAheadIsRecorded` | backend/src/modules/billing/billing.service.ts:975-1029 | With that end ahead the plan stays, the cancel is recorded for that end, and the checkout is closed. |
| `BillingOutcomes.PausedAnswer` | backend/src/modules/billing/billing.service.ts:1533-1564 | A paused notice links the license and takes over dates, an end only when it lies ahead; plan, status, pending plan and recorded cancel stay. |
| `BillingOutcomes.NeutralAnswer` | backend/src/modules/billing/billing.service.ts:1098-1111 | A pending or in-process notice puts its checkout back to pending and leaves the license; a failed one that closes no attempt and any other word change nothing. |
| `BillingOutcomes.PlanLastsUntilFirstEnd` | backend/src/modules/billing/billing.service.ts:975-1082 | Over a run of unpaid notices the plan stays what it was up to the first one that ends the subscription at once, and is FREE from then on. |
| `BillingJourneys.TransitionReachesExactly` | backend/src/modules/billing/billing.service.ts:1342-1376 | A scheduled transition leads to FREE exactly from FREE or when a recorded cancel is due, and to BASIC exactly when no cancel is due and the plan was BASIC, or PRO with BASIC pending and the end past. |
| `BillingJourneys.TransitionWritesExactly` | backend/src/modules/billing/billing.service.ts:1342-1402 | A due cancel leaves nothing of the subscription, a due downgrade changes plan and pending plan and keeps link, period and payment date, and otherwise nothing changes. |
| `BillingJourneys.TransitionSettles` | backend/src/modules/billing/billing.service.ts:1342-1376 | Right after a transition no other one is due. |
| `BillingJourneys.DowngradeTakesEffectAtEnd` | backend/src/modules/billing/billing.service.ts:646-666 | PRO asks for BASIC: only the request is noted, transitions before the end change nothing, and the first one at or after it gives BASIC with link and dates kept. |
| `BillingJourneys.SubscribeAsks` | backend/src/modules/billing/billing.service.ts:118-246 | Starting a subscription leaves a pending checkout of that plan and the plan pending, or a cancelled checkout when the provider refuses; nothing on the plan held and active. |
| `BillingJourneys.SubscribeThenPaid` | backend/src/modules/billing/billing.service.ts:799-939 | After starting a subscription at any company, whatever subscription it has, the first paid answer about the new checkout gives exactly that plan and link and completes the checkout, whatever company the notice falls back to. |
| `BillingJourneys.SubscribeThenRefreshAsks` | backend/src/modules/billing/billing.service.ts:1449-1463 | A checkout just started is what the next refresh asks the provider about. |
| `BillingJourneys.RefreshAsksAboutLicense` | backend/src/modules/billing/billing.service.ts:1420-1447 | Without a pending checkout a refresh asks about the license, and without its reference about a completed checkout. |
| `BillingJourneys.SubscribeThenRefresh` | backend/src/modules/billing/billing.service.ts:255-360 | A refresh with a paid answer for the new checkout gives the plan. |
| `BillingJourneys.RefreshSettles` | backend/src/modules/billing/billing.service.ts:255-360 | After a refresh no transition is due; it fails exactly without an answer it asked for, and changes nothing then. |
| `BillingJourneys.NoticeRenewsLinkedLicense` | backend/src/modules/billing/billing.service.ts:1585-1612 | A paid notice about a subscription no checkout carries finds the license linked to it, keeps its plan unless the amount upgrades it, and takes over the dates. |
| `BillingJourneys.PlanChangeBranches` | backend/src/modules/billing/billing.service.ts:585-611 | Asking for the plan held changes nothing, asking for FREE is a cancel, and a company on FREE subscribes. |
| `BillingJourneys.UpgradeThenPaidPrice` | backend/src/modules/billing/billing.service.ts:613-644 | BASIC asks for PRO and the provider accepts the amount: PRO is noted as pending and the first paid notice at the PRO price gives PRO. |
| `BillingJourneys.UpgradeNeedsThePrice` | backend/src/modules/billing/billing.service.ts:838-845 | At any other amount the notice leaves the company on BASIC. |
| `BillingJourneys.UpgradeByCheckout` | backend/src/modules/billing/billing.service.ts:625-644 | When the provider refuses the amount, or nothing is linked, BASIC opens a PRO checkout. |
| `BillingJourneys.LocalCancel` | backend/src/modules/billing/billing.service.ts:485-516 | A customer cancel without a linked subscription keeps the plan to a stored end ahead, with the cancel recorded, and drops to FREE at once otherwise. |
| `BillingJourneys.ConfirmedCancel` | backend/src/modules/billing/billing.service.ts:461-528 | A customer cancel the provider confirms keeps the plan to the end named, else stored, when it lies ahead, and drops to FREE at once otherwise; unconfirmed it changes nothing. |
| `BillingJourneys.ResumeExactly` | backend/src/modules/billing/billing.service.ts:530-583 | Resuming goes through exactly for a linked, paid license whose subscription the provider reports paid; it withdraws the cancel and keeps plan, link and period. |
| `BillingJourneys.ResumeUndoesCancel` | backend/src/modules/billing/billing.service.ts:530-583 | A resumed subscription is not dropped to FREE by any later transition. |
| `BillingSuperseded.StaleNoticeTouchesCoreExactly` | backend/src/modules/billing/billing.service.ts:818-864 | A notice about a subscription the company has left changes plan, link or period exactly when it is paused, or paid for a pending checkout that matches the pending plan or upgrades BASIC to PRO. |
| `BillingSuperseded.StepElsewhere` | backend/src/modules/billing/billing.service.ts:118-1402 | A step that acts on another company and applies no answer about this one leaves its license and all its checkouts as they were. |
| `BillingSuperseded.SupersededIsSilent` | backend/src/modules/billing/billing.service.ts:818-973 | Once the license is linked elsewhere and the old checkout is not pending, any run of paid, cancelled, expired, rejected, failed or unknown notices about the old one, mixed with steps of the company that keep its subscription (opening checkouts, asking for a paid plan, resuming, administrator actions, the sweep) and with anything that happens to other companies, leaves plan, link and period dates unchanged. |
| `BillingSuperseded.ReopenedCheckoutTakesOver` | backend/src/modules/billing/billing.service.ts:1084-1107 | A pending notice reopens a completed checkout, after which a paid notice about the old subscription takes the license back. |
| `BillingRepeat.SecondLookupAgrees` | backend/src/modules/billing/billing.service.ts:1566-1583 | A second delivery of the same paid details, later than every stored time stamp, resolves to the same checkout as the first. |
| `BillingRepeat.SameCompanyChangesExactly` | backend/src/modules/billing/billing.service.ts:838-939 | When the second application of the same paid details resolves to the same company, it changes the rows, apart from time stamps, exactly when the first was an upgrade recognised by amount while its checkout names the BASIC plan. |
| `BillingRepeat.SecondApplicationChangesExactly` | backend/src/modules/billing/billing.service.ts:799-939 | Delivering the same paid details again, later than every stored time stamp, changes the rows, apart from time stamps, exactly in that case or when, with neither a checkout nor a known company, it finds another paid license with the same reference that does not show the details yet. |
| `BillingRepeat.UpgradeIsTakenBack` | backend/src/modules/billing/billing.service.ts:838-845 | The first case happens in a run from account creation: BASIC is bought and paid, PRO is asked for, and of two identical notices at the PRO price the first raises the plan and the second lowers it again. |
| `BillingFree.AnswerKeepsCleanExactly` | backend/src/modules/billing/billing.service.ts:941-1107 | With every free license clean (no provider link, period, payment date or scheduled cancel), an answer keeps them so exactly when it is not a paused notice that resolves to a company on FREE. |
| `BillingFree.StepKeepsCleanExactly` | backend/src/modules/billing/billing.service.ts:461-673 | The same for every owner, provider, refresh, scheduler and administrator step. |
| `BillingFree.FreeStaysCleanExactly` | backend/src/modules/billing/billing.service.ts:1342-1402 | From the first account on, every free license is clean at every point of a run exactly when no step of the run applies a paused answer to a company on FREE. |
| `BillingFree.PausedBeforePaid` | backend/src/modules/billing/billing.service.ts:1533-1564 | Such a step is possible: after account creation and a BASIC checkout the provider reports the unpaid subscription paused, and the free license is linked. |
| `BillingStore.BillingService.SweepOverdue` | backend/src/shared/platform/platform-jobs.ts:89-101 | The maintenance sweep marks exactly the active and trial licenses past their expiry date expired and counts them. |
| `BillingStore.BillingService.LatestWithRef` | backend/src/modules/billing/billing.service.ts:1566-1583 | The search over the checkout rows returns a most recently updated one carrying the reference, and nothing only when none carries it. |
| `BillingStore.BillingService.FindCheckoutSession` | backend/src/modules/billing/billing.service.ts:1566-1583 | The checkout an answer resolves to: the row its external reference names, otherwise a latest one carrying the provider reference. |
| `BillingStore.BillingService.FindLinkedCompany` | backend/src/modules/billing/billing.service.ts:1597-1612 | A company whose license carries the reference, or none when no license does. |
| `BillingStore.BillingService.Activate` | backend/src/modules/billing/billing.service.ts:875-939 | The rows a paid activation writes: license fields, cleared or kept cancel and pending plan, and the completed checkout. |
| `BillingStore.BillingService.EndSubscription` | backend/src/modules/billing/billing.service.ts:975-1082 | The rows the end of a subscription writes: access kept to a future end, or the drop to FREE. |
| `BillingStore.BillingService.ApplyMercadoPagoDetails` | backend/src/modules/billing/billing.service.ts:799-1112 | Updating the rows branch by branch has exactly the effect and reports exactly the action of the specification the lemmas above are about, with lookups that are possible in the stored rows. |
| `BillingStore.BillingService.DowngradeToFree` | backend/src/modules/billing/billing.service.ts:1378-1402 | The whole row a downgrade leaves, and no other row changes. |
| `BillingStore.BillingService.ApplyScheduledTransitions` | backend/src/modules/billing/billing.service.ts:1342-1376 | A due cancel drops to FREE, a due downgrade moves PRO to BASIC, and nothing else changes. |
| `BillingStore.BillingService.StartSubscription` | backend/src/modules/billing/billing.service.ts:118-246 | The checkout row and pending plan a subscription attempt leaves when the provider accepts, refuses, or returns no URL. |
| `BillingStore.BillingService.CancelSubscription` | backend/src/modules/billing/billing.service.ts:461-528 | Customer cancel: apply the provider answer, then keep access to a future end or drop to FREE; nothing changes when the provider refuses. |
| `BillingStore.BillingService.ResumeSubscription` | backend/src/modules/billing/billing.service.ts:530-583 | Resuming clears the scheduled cancel exactly when the provider reports a paid status for a linked, paid license. |
| `BillingStore.BillingService.ChangePlanTo` | backend/src/modules/billing/billing.service.ts:585-673 | Every case of a plan change, with the pending plan, checkout or cancel it leaves. |
| `BillingStore.BillingService.RefreshReference` | backend/src/modules/billing/billing.service.ts:1420-1463 | The reference a refresh asks about: the latest pending checkout, else the license, else the latest pending or completed checkout. |
| `BillingStore.BillingService.RefreshCompany` | backend/src/modules/billing/billing.service.ts:255-360 | A refresh applies the provider answer about that reference and then the scheduled transitions. |
| `BillingStore.BillingService.ExtendLicense` | backend/src/modules/billing/billing-admin.service.ts:892-985 | An emergency extension of 1 to 7 days from the later of now and the current end, with recovery of an expired or suspended license, reported as applied exactly when the row changes. |
| `BillingStore.BillingService.SuspendLicense` | backend/src/modules/billing/billing-admin.service.ts:715-806 | Suspending changes exactly a license that is not suspended, and only its status. |
| `BillingStore.BillingService.ReactivateLicense` | backend/src/modules/billing/billing-admin.service.ts:715-806 | Reactivating changes exactly a suspended license that has not expired by date, and only its status. |
| `Invoices.ReconcileRowByRow` | backend/src/modules/billing/billing.service.ts:688-797 | The ledger after a batch, without replaying it: old rows keep their place and take the last payment with their identifier, new rows are the last payments for identifiers that had no row, and identifiers stay unique. |
| `Invoices.ReconcileNeverMovesInvoices` | backend/src/modules/billing/billing.service.ts:770-784 | No invoice changes company or identifier, rows of other companies are untouched, and identifiers stay unique. |
| `Invoices.ReconcileTwiceIsOnce` | backend/src/modules/billing/billing.service.ts:688-797 | Running the same batch again leaves the ledger unchanged, even when the batch repeats identifiers. |
| `Invoices.InvoiceLedger.UpsertFromPayment` | backend/src/modules/billing/billing.service.ts:732-797 | One payment, with the plan looked up for it, is skipped exactly when it has no stable identifier or its invoice belongs to another company, and is filed in place or appended otherwise. |
| `Invoices.InvoiceLedger.ReconcileBatch` | backend/src/modules/billing/billing.service.ts:709-730 | The loop over a batch gives the specified ledger, and upserted plus skipped equals the batch size. |
| `Webhook.AtMostOneCompletes` | backend/src/modules/billing/billing-webhook.service.ts:56-131 | In any run of deliveries at most one delivery of a dedupe key reaches a final status. |
| `Webhook.LaterDeliveriesDoNotMatter` | backend/src/modules/billing/billing-webhook.service.ts:56-62 | Removing every later delivery of a completed key gives the same licenses, checkouts, invoices and event statuses. |
| `Webhook.RetryableIsRetried` | backend/src/modules/billing/billing-webhook.service.ts:113-131 | A signed delivery of a key left retryable is handled exactly like one never seen. |
| `Webhook.FailureIsRetryable` | backend/src/modules/billing/billing-webhook.service.ts:69-131 | A failed provider request leaves licenses and checkouts untouched and the key retryable. |
| `Webhook.RetriedChargeFilesOnce` | backend/src/modules/billing/billing.service.ts:1114-1166 | A charge whose subscription could not be fetched leaves, when it is retried next, what a first delivery with that answer would have left. |
| `Webhook.RetriedChargeNeverFilesTwice` | backend/src/modules/billing/billing.service.ts:1114-1166 | Whatever is delivered in between, and whatever company, plan and subscription the retry finds, retrying such a charge adds no second row for its invoice, and invoice identifiers stay unique. |
| `WebhookOutcomes.RefusedDelivery` | backend/src/modules/billing/billing-webhook.service.ts:21-67 | An unsigned delivery is rejected, one of a finished key answered with its status, one without object ignored for good; none touches licenses, checkouts or invoices. |
| `WebhookOutcomes.SubscriptionEventIsNotice` | backend/src/modules/billing/billing-webhook.service.ts:69-111 | A subscription event acts on licenses and checkouts as the notice it carries, and is processed, ignored or ignored as unknown according to what became of it. |
| `WebhookOutcomes.SubscriptionEventReconciles` | backend/src/modules/billing/billing-webhook.service.ts:82-93 | The fetched payments are reconciled exactly for a company the reference is linked to, with its plan as the answer leaves it. |
| `WebhookOutcomes.ChargeActsAsNotice` | backend/src/modules/billing/billing.service.ts:1114-1166 | A charge with an owner whose subscription answers acts on licenses and checkouts as a notice with that answer about that owner, and its event is processed. |
| `WebhookOutcomes.PaidChargeGivesThePlan` | backend/src/modules/billing/billing.service.ts:1145-1153 | So a charge that pays for a plan and is not held back leaves the company on that plan, or on PRO when recognised by its amount, linked to that subscription. |
| `WebhookOutcomes.UnansweredCharge` | backend/src/modules/billing/billing.service.ts:1114-1148 | A charge without subscription or owner is ignored; one whose subscription cannot be fetched changes no license and stays retryable. |
| `WebhookOutcomes.ChargeFilesInvoice` | backend/src/modules/billing/billing.service.ts:1140-1144 | The invoice of a charge is filed for its owner under the plan held before the answer. |
| `WebhookOutcomes.FiledPaymentIsShown` | backend/src/modules/billing/billing.service.ts:732-797 | After filing a payment the row with its trimmed identifier, the invoice's or else the payment's, shows company, subscription, plan, status and amount, unless it has no identifier or the row was another company's; the plan is the one held, or on FREE the paid plan of the checkout. |
| `Webhook.WebhookService.FillPlan` | backend/src/modules/billing/billing.service.ts:1299-1314 | The plan an invoice of a free company is filed under is that of the latest checkout of the company that carries the subscription. |
| `Webhook.WebhookService.FindOwner` | backend/src/modules/billing/billing.service.ts:1499-1531 | The company of a charge: that of a latest checkout carrying its subscription, else that of a linked license. |
| `Webhook.WebhookService.Handle` | backend/src/modules/billing/billing-webhook.service.ts:21-131 | Handling one delivery step by step has the effect and response of the delivery specification, with the provider reply it was given and lookups that are possible in the stored rows. |
| `SessionRuns.RunKeepsOk` | backend/src/modules/auth/auth-session.service.ts:143-470 | Over every run of logins, refreshes, revocations, reset requests, resets and maintenance sweeps the invariant holds: refresh tokens are distinct and were generated, at most one live session per client, at most one reset row per user, and every token is held by the user it was handed to. |
| `SessionRuns.OneLiveSessionPerClient` | backend/src/modules/auth/auth-session.service.ts:173-202 | At any moment of any run at most one session per company, client type and client instance is live. |
| `SessionRuns.RefreshTokenWorksOnce` | backend/src/modules/auth/auth-session.service.ts:251-437 | In every run each refresh token succeeds in at most one refresh. |
| `SessionRuns.SweepSparesLiveSessions` | backend/src/shared/platform/platform-jobs.ts:101-120 | The maintenance sweep deletes no live session. |
| `SessionRuns.NeverLiveAgain` | backend/src/modules/auth/auth-session.service.ts:813-874 | A session that is revoked or expired is not live at any later moment of any run: it stays stored without being live until a sweep deletes it, and then stays deleted. |
| `SessionRuns.RevokedForever` | backend/src/modules/auth/auth-session.service.ts:857-888 | A revoked session stays exactly as it is until a sweep deletes it, and then stays deleted. |
| `SessionRuns.SetBackClockRevivesExactly` | backend/src/modules/auth/auth-session.service.ts:813-843 | The uniqueness needs a clock that does not run back: set back to a moment before a login, it makes an older session of the client live beside the new one exactly when the client had an unrevoked session that had expired by the login but not by that moment. |
| `SessionRuns.ClockMustNotRunBack` | backend/src/modules/auth/auth-session.service.ts:813-843 | Such a store: one session of the client, expired before the login. |
| `SessionRuns.OneResetRowPerUser` | backend/src/modules/auth/auth.service.ts:283-297 | In every run each user has at most one reset row. |
| `SessionRuns.ResetTokenWorksOnce` | backend/src/modules/auth/auth.service.ts:355-438 | In every run each reset token resets a password at most once. |
| `SessionRuns.ResetKillsRefreshTokens` | backend/src/modules/auth/auth.service.ts:355-438 | After a successful reset no refresh token handed to that user before it ever works again. |
| `SessionRuns.ResetKillsSessions` | backend/src/modules/auth/auth.service.ts:355-438 | After a successful reset no session that user had before it validates again. |
| `SessionOutcomes.LicenseAdmitsExactly` | backend/src/modules/auth/auth-session.service.ts:1026-1060 | A license lets a session be restored exactly while it is active or on trial and its expiry date has not passed. |
| `SessionOutcomes.SweepChangesNoVerdict` | backend/src/shared/platform/platform-jobs.ts:89-101 | The maintenance sweep changes no such verdict, then or later. |
| `SessionOutcomes.ExtensionOpensTheDoor` | backend/src/modules/billing/billing-admin.service.ts:892-985 | An emergency extension is possible for 1 to 7 days and a license with an expiry date or an expired or suspended one, and admits sessions up to exactly that many days after the later of now and the old expiry date. |
| `SessionOutcomes.SuspensionClosesTheDoor` | backend/src/modules/billing/billing-admin.service.ts:715-806 | A suspended license admits no session; reactivating it does again unless it has expired by date, and undoes the suspension of an active one. |
| `SessionOutcomes.LoginRefusals` | backend/src/modules/auth/auth-session.service.ts:143-172 | The refusals of a login in their order; a refused login stores nothing. |
| `SessionOutcomes.LoginStores` | backend/src/modules/auth/auth-session.service.ts:173-215 | An accepted login stores the session for the whole refresh time, revokes exactly the live sessions of its client, and touches nothing else. |
| `SessionOutcomes.RefreshRefusals` | backend/src/modules/auth/auth-session.service.ts:251-421 | The refusals of a refresh in their order; it is accepted exactly when tenant, session and account are in order, the license admits it, the client is the one the session was opened for, and the device is allowed. |
| `SessionOutcomes.RefreshStores` | backend/src/modules/auth/auth-session.service.ts:422-437 | An accepted refresh gives the session the new token and the whole refresh time; a refused one stores nothing, except that an inactive account loses the session. |
| `SessionOutcomes.LoginThenRefresh` | backend/src/modules/auth/auth-session.service.ts:235-437 | The token of a login opens the door exactly until the refresh time is over and to the same client instance and type. |
| `SessionOutcomes.AccessRefusals` | backend/src/modules/auth/auth-session.service.ts:473-574 | The refusals of an access token in their order; it is accepted exactly for user, company and membership of a session that is in order. |
| `SessionOutcomes.LoginThenAccess` | backend/src/modules/auth/auth-session.service.ts:473-574 | After a login the access token validates exactly for its user, company and membership and until the session expires. |
| `SessionOutcomes.RevocationExactly` | backend/src/modules/auth/auth-session.service.ts:674-758 | A session can be revoked by its user in its company, an administrator of its company and a platform administrator, and only that row changes. |
| `SessionOutcomes.ResetRefusals` | backend/src/modules/auth/auth.service.ts:327-387 | The refusals of a password reset in their order; they store nothing. |
| `SessionOutcomes.ResetStores` | backend/src/modules/auth/auth.service.ts:389-438 | A reset stores the new password of that user and no other, uses up its token, drops the user's other tokens, and revokes exactly the user's unrevoked sessions. |
| `SessionOutcomes.ForgotThenReset` | backend/src/modules/auth/auth.service.ts:257-297 | A requested token resets the password of its user exactly until it expires, for an active user. |
| `SessionOutcomes.StepStoresPassword` | backend/src/modules/auth/auth.service.ts:415-420 | Only a successful reset changes a password, and only that of its user. |
| `SessionOutcomes.PasswordIsTheLastReset` | backend/src/modules/auth/auth.service.ts:415-420 | Over every run the stored password of a user is the one given in the last successful reset of that user, or the initial one when there was none. |
| `SessionStore.AuthService.RevokeEach` | backend/src/modules/auth/auth-session.service.ts:813-843 | The loop revokes exactly the given sessions and keeps the first revocation of each. |
| `SessionStore.AuthService.RevokeSessionsForClient` | backend/src/modules/auth/auth-session.service.ts:813-843 | Exactly the live sessions of one client are revoked. |
| `SessionStore.AuthService.RevokeAllUserSessions` | backend/src/modules/auth/auth-session.service.ts:699-723 | Exactly the unrevoked sessions of a user are revoked, and their number is returned. |
| `SessionStore.AuthService.RevokeOne` | backend/src/modules/auth/auth-session.service.ts:674-758 | A revocation by the user, a company administrator or a platform administrator, with the refusal each can get. |
| `SessionStore.AuthService.SweepSessions` | backend/src/shared/platform/platform-jobs.ts:101-120 | The maintenance sweep deletes exactly the sessions revoked or expired before the retention cutoff, counts them, and keeps every live session. |
| `SessionStore.AuthService.CreateSession` | backend/src/modules/auth/auth-session.service.ts:143-233 | Opening a session: the refusals in order, the revoked older sessions, and the new row. |
| `SessionStore.AuthService.RefreshSession` | backend/src/modules/auth/auth-session.service.ts:235-470 | A refresh finds the session that holds the token, gives the refusals in order, rotates the token in place, and revokes the session of an inactive account. |
| `SessionStore.AuthService.ValidateAccessSession` | backend/src/modules/auth/auth-session.service.ts:473-574 | The verdict on an access token; accepted only for a live session of the claimed user. |
| `SessionStore.AuthService.ForgotPassword` | backend/src/modules/auth/auth.service.ts:257-297 | A reset request replaces every reset row of an active user by one new row and stores nothing otherwise. |
| `SessionStore.AuthService.ResetPassword` | backend/src/modules/auth/auth.service.ts:327-449 | A password reset: the refusals in order, the consumed row, the dropped other rows, the new password and the revoked sessions. |
| `PermissionRuns.LogRebuildsTable` | backend/src/modules/admin-permissions/admin-permissions.service.ts:193-327 | After any run from an empty table, replaying grant, revoke and bootstrap-granted entries in order, with all others as no-ops, rebuilds exactly the active rows. |
| `PermissionRuns.ChainToBootstrap` | backend/src/modules/admin-permissions/admin-permissions.bootstrap.ts:266-324 | Following the activators of a logged activation back in time ends, after finitely many hops, at a bootstrap. |
| `PermissionRuns.EveryPermissionHasProvenance` | backend/src/modules/admin-permissions/admin-permissions.service.ts:193-268 | In every reachable state each active permission was last activated by bootstrap or by another administrator who managed permissions at that moment, and its chain of activators ends at a bootstrap. |
| `PermissionRuns.NobodyGrantsHimself` | backend/src/modules/admin-permissions/admin-permissions.service.ts:216-229 | Every key of the catalog is high or critical, so no grant ever goes through to the administrator who makes it. |
| `PermissionRuns.BootstrapsNeedARevocation` | backend/src/modules/admin-permissions/admin-permissions.bootstrap.ts:266-324 | Between two successful bootstraps of a run the manage permission of the first was revoked. |
| `PermissionRuns.MutationsNeedManager` | backend/src/modules/admin-permissions/admin-permissions.service.ts:363-393 | Some grant or revoke can change the table exactly when somebody manages permissions. |
| `PermissionRuns.BootstrapNeedsNoManager` | backend/src/modules/admin-permissions/admin-permissions.bootstrap.ts:266-289 | A bootstrap can change the table exactly when nobody manages permissions. |
| `PermissionRuns.ExactlyOneRouteIsOpen` | backend/src/modules/admin-permissions/admin-permissions.bootstrap.ts:266-289 | In every reachable state exactly one of the two routes can change the table. |
| `PermissionRuns.BootstrapGrantsExactly` | backend/src/modules/admin-permissions/admin-permissions.bootstrap.ts:148-333 | A bootstrap succeeds exactly when all eight checks pass, and then leaves a manager. |
| `PermissionOutcomes.MalformedRequests` | backend/src/modules/admin-permissions/admin-permissions.service.ts:395-460 | The refusals of a malformed grant or revocation in their order; nothing is written or logged. |
| `PermissionOutcomes.RequestedRow` | backend/src/modules/admin-permissions/admin-permissions.service.ts:395-452 | The row a request is about: trimmed target and key, and the whole platform when no scope is given. |
| `PermissionOutcomes.GrantExactly` | backend/src/modules/admin-permissions/admin-permissions.service.ts:193-268 | A well-formed grant goes through exactly when its actor manages permissions and is not its target; it makes exactly its row active and logs itself, and otherwise logs its denial. |
| `PermissionOutcomes.RevokeExactly` | backend/src/modules/admin-permissions/admin-permissions.service.ts:270-327 | A well-formed revocation goes through exactly when its actor manages permissions; it makes exactly its row inactive and logs whether it was active. |
| `PermissionOutcomes.GrantThenRevoke` | backend/src/modules/admin-permissions/admin-permissions.service.ts:193-327 | Granting a row that was not active and revoking it again restores the active rows. |
| `PermissionOutcomes.ListingsExactly` | backend/src/modules/admin-permissions/admin-permissions.service.ts:114-191 | One's own permissions are listed without any, another administrator's only with manage; listings and refusals are logged and the table never changes. |
| `PermissionOutcomes.BootstrapRefusals` | backend/src/modules/admin-permissions/admin-permissions.bootstrap.ts:148-290 | The refusals of a bootstrap in the order they are checked. |
| `PermissionOutcomes.BootstrapWrites` | backend/src/modules/admin-permissions/admin-permissions.bootstrap.ts:291-333 | A bootstrap logs the attempt and its result; granted, it makes exactly the platform-wide manage row of its target active, and denied it changes no row. |
| `PermissionStore.PermissionService.HasManagePermission` | backend/src/modules/admin-permissions/admin-permissions.service.ts:363-393 | Whether the administrator holds an active manage row in any scope. |
| `PermissionStore.PermissionService.GrantPermission` | backend/src/modules/admin-permissions/admin-permissions.service.ts:193-268 | A grant with its refusals, the row it writes, and the entry it logs. |
| `PermissionStore.PermissionService.RevokePermission` | backend/src/modules/admin-permissions/admin-permissions.service.ts:270-327 | A revocation with its refusals, the row it clears, and the entry it logs. |
| `PermissionStore.PermissionService.ListOwnPermissions` | backend/src/modules/admin-permissions/admin-permissions.service.ts:114-146 | Listing one's own permissions returns exactly the active rows and logs one entry. |
| `PermissionStore.PermissionService.ListAdminPermissions` | backend/src/modules/admin-permissions/admin-permissions.service.ts:148-191 | Listing another administrator's permissions needs manage, and logs either way. |
| `PermissionStore.PermissionService.BootstrapManagePermission` | backend/src/modules/admin-permissions/admin-permissions.bootstrap.ts:148-333 | The bootstrap with its denial order, the row it writes and the two entries it logs. |
| `CommissionBounds.SplitWithinNet` | backend/src/modules/employees/employee-commission.service.ts:596-611 | The item amounts a sale is split into sum to at most its net amount; below the item total they fall short of it by less than one cent per item, and otherwise equal the item total. |
| `CommissionBounds.ProfitWithinNet` | backend/src/modules/employees/employee-commission.service.ts:428-446 | The gross profit of a sale never exceeds its net amount. |
| `CommissionBounds.PercentageWithinOneCentPerSale` | backend/src/modules/employees/employee-commission.service.ts:502-554 | A row's percentage commission never exceeds the rate on its eligible base and falls short of it by less than one cent per eligible sale. |
| `CommissionBounds.PercentageWithinBase` | backend/src/modules/employees/employee-commission.service.ts:502-554 | ... so it is never more than the base it is taken of. |
| `CommissionBounds.EverySaleInOneCounter` | backend/src/modules/employees/employee-commission.service.ts:346-402 | Every single sale is in exactly one counter, active or canceled sales of one listed employee or sales without a reliable actor: without that sale this counter of the report is one lower and every other counter the same. |
| `CommissionBounds.EverySaleCountedOnce` | backend/src/modules/employees/employee-commission.service.ts:346-402 | All active, canceled and unattributed counts together are the number of sales. |
| `CommissionBounds.DetailSumsToRow` | backend/src/modules/employees/employee-commission.service.ts:196-224 | The commissions listed sale by sale in an employee's detail, in any order, sum to that employee's row total. |
| `CommissionOutcomes.SaleGoesToItsActor` | backend/src/modules/employees/employee-sale-attribution.ts:11-21 | The seller named by the order decides where a sale is counted, whatever event and cash session say; without one the first event of the sale, without that the cash session: the sale is in a counter of the last employee listed with that account, and unattributed exactly when nobody is listed with it. |
| `CommissionOutcomes.SaleWithoutActor` | backend/src/modules/employees/employee-sale-attribution.ts:11-21 | Without any of the three a sale has no reliable actor. |
| `CommissionOutcomes.ActorOrNone` | backend/src/modules/employees/employee-sale-attribution.ts:11-21 | Every sale has one of the three accounts, or none. |
| `CommissionOutcomes.EmployeeIsLastListed` | backend/src/modules/employees/employee-commission.service.ts:276-281 | An account stands for the last employee listed with it, and for nobody when none is. |
| `CommissionOutcomes.SaleAmounts` | backend/src/modules/employees/employee-commission.service.ts:410-427 | Gross and net amount are the order's when positive, else the sale's total, never below zero; a sale is canceled by status or date. |
| `CommissionOutcomes.CostOfItem` | backend/src/modules/employees/employee-commission.service.ts:613-625 | The cost of an item is its total cost, failing that its unit cost for its quantity rounded down, and unknown without either. |
| `CommissionOutcomes.ReliableExactly` | backend/src/modules/employees/employee-commission.service.ts:428-462 | Costs are reliable exactly when a sale has items and every item has a cost. |
| `CommissionOutcomes.OneMoreItem` | backend/src/modules/employees/employee-commission.service.ts:428-446 | One more item adds its share of the net price less its cost when that is positive, and an item without cost adds nothing but is counted. |
| `CommissionOutcomes.FullPriceProfit` | backend/src/modules/employees/employee-commission.service.ts:428-446 | At full price, with every cost known and within its price, the profit is price less cost. |
| `CommissionOutcomes.OneItemProfit` | backend/src/modules/employees/employee-commission.service.ts:596-611 | A sale of one item below its price earns its net amount less the cost of the item. |
| `CommissionOutcomes.CommissionExactly` | backend/src/modules/employees/employee-commission.service.ts:502-583 | What a sale earns: nothing canceled or disabled, the fixed amount, or the rate, rounded down, on gross, net or profit, which counts for profit only with reliable costs or something earned. |
| `CommissionOutcomes.RowAddsUp` | backend/src/modules/employees/employee-commission.service.ts:367-399 | A row adds up the net amounts of its active sales and the bases and profits of the eligible ones. |
| `CommissionOutcomes.LastSaleIsLatest` | backend/src/modules/employees/employee-commission.service.ts:359-365 | The last sale of a row is its latest one, canceled or not. |
| `CommissionOutcomes.FixedPaysPerSale` | backend/src/modules/employees/employee-commission.service.ts:522-529 | A fixed commission pays its amount for every active sale. |
| `CommissionReport.AddUpItems` | backend/src/modules/employees/employee-commission.service.ts:428-446 | The loop over the items gives the gross profit and the number of items without a reliable cost. |
| `CommissionReport.CalculateSale` | backend/src/modules/employees/employee-commission.service.ts:410-462 | The amounts of a sale, with a profit that stays within its net amount. |
| `CommissionReport.FirstEvents` | backend/src/modules/employees/employee-commission.service.ts:464-500 | The loop over the events keeps the first event of every sale. |
| `CommissionReport.IndexByUser` | backend/src/modules/employees/employee-commission.service.ts:276-281 | The loop over the employees finds, for every user account, the last employee listed with it. |
| `CommissionReport.CountSale` | backend/src/modules/employees/employee-commission.service.ts:367-399 | Counting one attributed sale changes exactly the counters of its row that it should. |
| `CommissionReport.Attribute` | backend/src/modules/employees/employee-sale-attribution.ts:11-21 | A sale goes to the employee of its order's seller, else of its sync event, else of its cash session. |
| `CommissionReport.Build` | backend/src/modules/employees/employee-commission.service.ts:262-408 | The loop over the sales gives every employee's row, the calculated sales and the unattributed count, which together account for every sale. |
| `AuditPages.StableSortIsTheOnlyOne` | backend/src/modules/admin/admin.service.ts:1679-1687 | Sorting newest first with ties kept in place has only one result, whatever algorithm computes it. |
| `AuditPages.SortIsMerge` | backend/src/modules/admin/admin.service.ts:1675-1687 | Stably sorting the two concatenated logs is merging them with the administrator log first on ties. |
| `AuditPages.PageOfBoundedFetchIsExact` | backend/src/modules/admin/admin.service.ts:1606-1688 | Taking only the newest page times size rows of each log, sorting and slicing gives exactly that page of the full merged log. |
| `AuditPages.PagesAreAPrefix` | backend/src/modules/admin/admin.service.ts:1606-1688 | The first n pages, one after the other, are the first n times size events of the merged log. |
| `AuditPages.PagesCoverTheLog` | backend/src/modules/admin/admin.service.ts:1606-1688 | Enough consecutive pages contain every event of both logs as often as it occurs, newest first. |
| `AuditTies.PagesIgnoreTiesExactly` | backend/src/modules/admin/admin.service.ts:1606-1688 | When the database may order rows with equal times differently for every page request, the pages still show exactly the newest events, none lost or repeated, for all such orders if and only if no page ends inside a group of equal times of one log. |
| `AuditTies.ShownIsAll` | backend/src/modules/admin/admin.service.ts:1606-1688 | Enough pages under one order show every event of both logs, which is what the pages of the previous row then agree on. |
| `AuditPages.AddCounts` | backend/src/modules/admin/admin.service.ts:1665-1672 | The loop adds up the counts per action, and the entries sum to the total of the groups. |
| `AuditPages.Overview` | backend/src/modules/admin/admin.service.ts:1665-1710 | The overview counts every action over both logs, and the counts sum to the total number of events. |
| `DateOnly.AcceptsExactlyRealDates` | backend/src/modules/employees/employees.schemas.ts:176-190 | The build-and-compare check accepts a YYYY-MM-DD text exactly when it names a real Gregorian date from the year 100 on, and gives its midnight. |
| `DateOnly.TextOrderIsCalendarOrder` | backend/src/modules/employees/employees.schemas.ts:91-94 | On YYYY-MM-DD texts the string comparison is the calendar order of the dates they name. |
| `DateOnly.TextOrderIsTimeOrder` | backend/src/modules/employees/employees.schemas.ts:91-94 | On accepted texts it is also the order of the times they stand for. |
| `DateOnly.DatesBetweenAreTheDates` | backend/src/modules/employees/employees.schemas.ts:95-110 | The list of dates the range limit is stated with holds exactly the real dates of the closed range ... |
| `DateOnly.DatesBetweenInOrder` | backend/src/modules/employees/employees.schemas.ts:95-110 | ... each of them once and in calendar order. |
| `DateOnly.RangeLimitCountsCalendarDays` | backend/src/modules/employees/employees.schemas.ts:86-110 | A range is accepted exactly when both texts name real dates from the year 100 on, in order, and the closed range holds at most 93 calendar days. |
| `AnalyticsPeriod.StartOfDayIsMidnightBefore` | backend/src/modules/analytics/analytics-period.ts:20-24 | The start of day is the midnight before exactly outside the years 0 to 99; it is always a midnight, never earlier than that one, and never in those years. |
| `AnalyticsPeriod.StartOfDayTwice` | backend/src/modules/analytics/analytics-period.ts:20-24 | Taking the start of day twice is taking it once. |
| `AnalyticsPeriod.FormatParsesBack` | backend/src/modules/analytics/analytics-period.ts:11-32 | A time has a YYYY-MM-DD label exactly for years 0 to 9999; the label parses to the start of day, which is the time's own day exactly from the year 100 on. |
| `AnalyticsPeriod.DayCountCountsTheDays` | backend/src/modules/analytics/analytics-period.ts:34-69 | The bounds of an accepted range are midnights, and its day count is the number of days in it, between 1 and the limit. |
| `AnalyticsPeriod.DefaultRangeHasDefaultLength` | backend/src/modules/analytics/analytics-period.ts:40-60 | With the start left out the range is accepted exactly when the default length keeps the limit, and then has that length. |
| `AnalyticsPeriod.EndLeftOutIsToday` | backend/src/modules/analytics/analytics-period.ts:42-48 | With the end left out the range ends with the day of the request. |
| `AnalyticsPeriod.LabelsNameTheBounds` | backend/src/modules/analytics/analytics-period.ts:62-68 | The labels of an accepted range are full dates exactly in the years 0 to 9999; full ones parse to its bounds, the start label exactly from the year 100 on. |
| `AnalyticsPeriod.LongYearLabel` | backend/src/modules/analytics/analytics-period.ts:30-32 | Outside the years 0 to 9999 a label is a sign, six year digits and the month; the day is cut off. |
| `AnalyticsPeriod.RealDatesAreJudgedByTheCalendar` | backend/src/modules/analytics/analytics-period.ts:34-60 | On real dates from the year 100 on, reversed ranges are invalid and the others accepted exactly when the closed range holds at most the allowed number of dates. |
| `AnalyticsPeriod.ListUtcDaysInclusive` | backend/src/modules/analytics/analytics-period.ts:71-83 | The loop that moves the cursor by one day lists exactly what repeated day addition gives. |
| `AnalyticsPeriod.ListHoldsEveryDayExactlyWhenClear` | backend/src/modules/analytics/analytics-period.ts:71-83 | The listed days of an accepted range are all its days, consecutive, from start to end and dayCount many, exactly when none of them lies in the years 0 to 99. |
| `AnalyticsPeriod.RequestedRangeListsEveryDay` | backend/src/modules/analytics/analytics-period.ts:71-83 | With a requested start the list always holds every day of an accepted range. |
| `AnalyticsPeriod.EarlyDefaultStart` | backend/src/modules/analytics/analytics-period.ts:45-60 | A default start can reach those years: a range ending on 5 January 100 is accepted with 30 days and lists none. |
| `Calendar.DayToCivilAndBack` | backend/src/modules/analytics/analytics-period.ts:20-24 | Every day number names a real date of the Gregorian calendar and that date has this number ... |
| `Calendar.CivilToDayAndBack` | backend/src/modules/analytics/analytics-period.ts:20-24 | ... and every real date is the date of its own day number. |
| `Calendar.OrderIsDayOrder` | backend/src/modules/employees/employees.schemas.ts:95-105 | Calendar order is the order of day numbers. |

## Left out

- Headcount limit of employees, the initial-password step and company-device registration: small state machines whose effect on sessions enters as the yes-or-no verdicts of `SessionModel.Gates`.
- The invoice reconciliation that follows a refresh: `WebhookOutcomes.SubscriptionEventReconciles` states the one that follows a notice.
- Administrator overrides (`forcePlan`, `cancelLocal`, `updateLicense` and applying a billing reconcile): they deliberately bypass the license machine.
- Interleavings inside one call: every call is one atomic step with one reading of the clock, although the services read and write in several statements.
- Texts and tokens before normalization: provider statuses are already trimmed and lower-cased, plan names already normalized (unknown names are FREE), hashes stand for their tokens, and request fields other than permission mutations and invoice identifiers are not trimmed again.
- Provider network calls, JSON reading, signatures, e-mail and password hashing: their results are inputs; cancelling a superseded subscription at the provider changes no stored row.
- Invoice columns other than company, identifier, subscription, plan, status and amount stand as one text; the fetch limit of 50 payments, warnings and URL filtering are not modelled.
- Provider-event payloads, error messages and processing times; the stored event is its status.
- Session audit entries, heartbeat, device names and versions, and the session lists.
- `SessionStore.AuthService.ForgotPassword`: whether the account exists and is active arrives as one optional user; sending the e-mail is not part of this model.
- Response objects, masking and view permissions of the commission report; amounts are unbounded integers, which agrees with the code's numbers below 2^53.
- `CommissionReport.Build`: reads employees, events and sales that were already fetched in their query order.
- `AuditPages.PageOfBoundedFetchIsExact`: takes both logs in one fixed newest-first order, and so do `AuditPages.PagesAreAPrefix` and `AuditPages.PagesCoverTheLog`; what remains when rows tie on time and every request may order them differently is `AuditTies.PagesIgnoreTiesExactly`.
- `Webhook.RetriedChargeFilesOnce`: a retry right after the failure; with deliveries in between only `Webhook.RetriedChargeNeverFilesTwice` holds, because they may move the company to another plan or file the invoice for another one.
- Tenant deletion: of its effects only the bulk revocation of sessions appears, as the step `SessionModel.RevokeSome`; the rate-limit half of the maintenance sweep is not modelled.
- `getAuditLogs`, whose fetch cap and later filters make its pages inexact by design.
- The clamping of times beyond about 275,000 years from 1970; date texts cannot reach that far.
- Text lengths count characters; the code counts UTF-16 units, which differ outside the basic plane.
- Catalog, cash, inventory, customer and synchronisation services: record keeping without a deep property.
