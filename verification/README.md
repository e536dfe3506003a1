# Verified models of a customer-messaging backend

This project models the state machines of a customer-messaging backend and proves what must hold over every
run of them. Database tables are maps from ids to rows. The clock, the replies of payment, push and queue
providers, and the answers of ordered queries are arbitrary inputs of the steps. A public method, webhook
handler or worker pass is one atomic step unless a module says otherwise.

Where the source works by updating rows and counters, a class holds the tables and its methods update them;
every such method is proved to end in the state that a function of the old state gives, and the methods that
callers use are proved to keep the invariant of their tables. The properties are proved about that function, its
runs and its invariants. Beside them, the modules called `…Outcomes`, `BillingEffects`, `BillingReconcile` and
`TemplateMeaning` say for each step, from the rows before it and the replies alone, what it answers, which rows it
writes and which it leaves alone.

| Part | Files |
|---|---|
| Razorpay subscription operations | `OperationStatus`, `Proration`, `BillingModel`, `BillingService`, `BillingInvariants`, `BillingRefunds`, `BillingRepayments`, `BillingFindings`, `BillingTracking`, `BillingOutcomes`, `BillingEffects`, `BillingReconcile`, `OperationLeases` |
| Contact merge | `ContactModel`, `ContactStore`, `ContactConservation`, `ContactForest`, `ContactOrder`, `ContactOutcomes` |
| Sessions and refresh tokens | `SessionModel`, `SessionService`, `SessionInvariants`, `SessionSafety`, `SessionOutcomes` |
| Rate limiter | `RateLimit` |
| Variable templates | `Templates`, `TemplateRendering`, `TemplateMeaning` |
| Broadcast runs | `BroadcastModel`, `BroadcastService`, `BroadcastInvariants`, `BroadcastAborts`, `BroadcastOutcomes` |
| Push delivery | `PushModel`, `PushWorker`, `PushSafety`, `PushOutcomes` |
| Base32 and one-time codes | `Base32`, `Totp` |

`dafny verify dfyconfig.toml` checks everything.

## What the proofs found

Each of these is a property one might expect that the code does not have. For each, the exact condition under which
it holds is proved, and a run or an instance shows that it fails.

- **A replaced subscription can come back.** A worker pass over an old operation that was never settled promotes its
  replacement again, also after a later plan change has gone live. `PassKeepsLiveIff` says when a pass leaves the live
  subscription alone, `PassRevivesOlderIff` when it moves one its operation knows nothing about;
  `StalePassRevivesReplaced` is a run where it does.
- **A live subscription can be lost**: gone from its row with no operation that has cancelled it or still may.
  `LosesTrackIff` says when: no such operation existed, and the step is a checkout that creates a new subscription, a
  worker pass that promotes another replacement, or a promotion of the pending subscription.
  `CheckoutLosesTheOldSubscription` and `PromotionAfterAbandonLosesTheOldSubscription` are runs. The duplicate clean-up
  of a later reconcile can pick a lost subscription up, and nothing else can (`PickedUpIff`,
  `ReconcilePicksLostSubscriptionUp`).
- **A credit can be refunded before its plan change goes through.** A reconcile pays the credit of an open plan change
  exactly if the provider answers all it is asked and the live subscription was itself a replacement, whatever it says
  about the pending one (`OpenPlanChangeRefundedIff`); `AbandonedChangeKeepsItsRefund` is a run whose last step abandons
  the plan change and refunds its credit at once.
- **A credit can be paid twice**: exactly if a step pays a workspace whose last payment, with no new credit since, the
  provider answered by `pending` (`RepaysIff` for a step, `CreditPaidTwiceIff` for a whole run); `CreditPaidTwice` is a
  run.
- **Before the period starts the credit can exceed a month**; `CreditAtMostOneMonth` gives the exact bound and
  `CreditCanExceedOneMonth` an instance.
- **A release can open the lock of another pass**, since it does not look at who holds the lock: exactly if another pass
  is on the same operation (`ReleaseKeepsLocksIff`), which takes a pass that outlasted its lease;
  `LateReleaseOpensAnothersLock` is a run.
- **An ended broadcast run may have pending recipients**: exactly if its enqueue loop threw with rows still to do
  (`LeavesPendingIff`); `AbortedRunLeavesPending` is a trace. It may also have nobody pending and wrong counters: nobody
  is pending and the counters are right exactly if the loop never threw (`EndedRunIsSettledIff`);
  `LateThrowLeavesNobodyPending` is a trace that tells the two apart.
- **A broadcast run can stay running for ever with nobody at work on it**: exactly if its enqueue loop threw outside the
  cron job (`StuckIff`, `AbortedForEver`, `PendingForEver`); `StuckRunLeavesPending` is a run.
- **The merged priority can depend on the order of the conversations**: it does not exactly if some priority is known or
  all are equal (`PickIsOrderFreeIff`); `UnknownPrioritiesFollowTheOrder` is an instance.
- **The session fast path outlives the session**, by less than a minute (`CacheAgrees`): it answers like a forced read
  exactly before the expiry (`FastPathRefinesForcedRead`); `FastPathOutlivesExpiry` is a run.
- **A burst across two windows gets twice the limit through** and never more (`BurstBound`); the bound is met for every
  limit (`BurstBoundIsSharp`).

## Model

| member | source | states |
|---|---|---|
| OperationStatus.UpsertsReachTheMaximum | src/modules/billing/billing.service.ts:300-328 | after any non-empty sequence of upsert requests a live operation holds the highest status of start and requests, PENDING < CLEANUP_PENDING < CANCEL_REQUESTED |
| OperationStatus.UpsertOrderIsIrrelevant | src/modules/billing/billing.service.ts:300-328 | the same set of requests gives the same status in any order and with any repetitions |
| OperationStatus.UpsertsKeepTerminal | src/modules/billing/billing.service.ts:294-307 | no sequence of upserts leaves COMPLETED or ABANDONED |
| Proration.PlanPrices | src/modules/billing/plans.config.ts:9-75 | the monthly amounts of the paid plans; any other plan has none |
| Proration.CreditBrackets | src/modules/billing/billing.service.ts:152-171 | the credit is the monthly amount times the unused part of the period, rounded to the nearest integer |
| Proration.CreditAtMostOneMonth | src/modules/billing/billing.service.ts:152-171 | the credit is at most the monthly amount if and only if now is not too far before the period start; from the start on it always is |
| Proration.CreditCanExceedOneMonth | src/modules/billing/billing.service.ts:152-171 | an instance before the period start where the credit is two months |
| Proration.CreditNeverGrows | src/modules/billing/billing.service.ts:152-171 | the credit does not increase as time passes |
| BillingService.Service.UpsertReplacementOperation | src/modules/billing/billing.service.ts:330-428 | creates or updates the operation keyed by workspace, old and new subscription, with the status rule above; the new state is `UpsertReplacement` of the old one |
| BillingService.Service.UpsertCancelOperation | src/modules/billing/billing.service.ts:430-491 | creates or updates the cancel operation of a subscription |
| BillingService.Service.RunQueuedCleanup | src/modules/billing/billing.service.ts:532-552 | the queued cleanup becomes a CLEANUP_PENDING upsert with attempt 0; the invariant and every terminal status are kept |
| BillingService.Service.ActivateReplacement | src/modules/billing/billing.service.ts:868-916 | the replacement is the live subscription and nothing is pending; the replaced one is queued for cleanup |
| BillingService.Service.RefundReplacementCredit | src/modules/billing/billing.service.ts:200-250 | refunds a pending positive credit and stores the provider's status; otherwise changes nothing |
| BillingService.Service.VerifyReplacementCancellation | src/modules/billing/billing.service.ts:941-1000 | only fetches: completes and refunds if the old subscription is over, otherwise retries; the count of cancel calls does not change |
| BillingService.Service.FinalizeReplaced | src/modules/billing/billing.service.ts:554-711 | issues at most one cancel call, none for a cancel already requested, and records what the provider answered |
| BillingService.Service.ProcessReplaceOperation | src/modules/billing/billing.service.ts:1002-1121 | one pass over a replacement operation: it changes its own operation and row only, cancels at most once and only with the replacement live; what it ends with is `ReplacePassOutcome` |
| BillingService.Service.ProcessCancelOperation | src/modules/billing/billing.service.ts:1123-1261 | one pass over a cancel operation: it changes its own operation and row status only and cancels at most once; what it ends with is `CancelPassOutcome` |
| BillingService.Service.ProcessOperation | src/modules/billing/billing.service.ts:1399-1443 | claim, process and catch of one due operation; the invariant and every terminal status are kept |
| BillingService.Service.ProcessOperations | src/modules/billing/billing.service.ts:1399-1443 | the worker's loop is the run of one pass per operation found, each with its own clock reading; the invariant and every terminal status are kept |
| BillingService.Service.CleanupDuplicates | src/modules/billing/billing.service.ts:713-779 | a cancel operation for the first ten listed subscriptions of the customer and workspace that are cancellable, neither live nor pending, and not covered by a replacement operation |
| BillingService.Service.ReconcileSubscription | src/modules/billing/billing.service.ts:1263-1356 | syncs the row, settles the pending replacement, cancels duplicates and pays an open credit; the invariant and every terminal status are kept |
| BillingService.Service.StartCheckout | src/modules/billing/billing.service.ts:1733-1763 | a paying workspace changes its plan, any other one checks out; the invariant and every terminal status are kept |
| BillingService.Service.CreateRazorpayCheckout | src/modules/billing/billing.service.ts:1831-2033 | reuses, refuses or creates a subscription as the pending and live ones allow; the invariant and every terminal status are kept |
| BillingService.Service.HandlePlanChange | src/modules/billing/billing.service.ts:2899-3122 | continues, promotes or replaces the pending change; a new replacement records its credit and its operation; the invariant and every terminal status are kept |
| BillingService.Service.CancelSubscription | src/modules/billing/billing.service.ts:2770-2793 | a cancel operation at the end of the cycle for the live subscription; the invariant and every terminal status are kept |
| BillingService.Service.HandleWebhook | src/modules/billing/billing.service.ts:2346-2718 | the subscription, payment and refund events in any order; the invariant and every terminal status are kept |
| BillingInvariants.StepGood | src/modules/billing/billing.service.ts:330-3122 | every step keeps the cancel budget, the record of each live and pending pair, the record behind each queued cleanup and the freshness of ids, and leaves no terminal status |
| BillingInvariants.CancelCallsBounded | src/modules/billing/billing.service.ts:554-711 | in every run the cancel calls issued for one operation are at most one plus the passes on it that threw |
| BillingInvariants.PendingReplacementIsRecorded | src/modules/billing/billing.service.ts:868-916 | in every run a row with a live and a pending subscription has an operation keyed by that pair that has cancelled nothing yet, and every queued cleanup finds its operation |
| BillingInvariants.TerminalIsForever | src/modules/billing/billing.service.ts:1399-1443 | a COMPLETED or ABANDONED operation keeps that status in every continuation of every run |
| BillingInvariants.CancelOnlyAfterPromotion | src/modules/billing/billing.service.ts:1051-1097 | a pass that cancels the old subscription leaves the new one live and nothing pending |
| BillingInvariants.CustomerIsKnown | src/modules/billing/billing.service.ts:1320-1331 | in every run a row with a subscription has a customer id, so the reconciler's customer check never fails for a live one |
| BillingRefunds.RefundsWithinCredits | src/modules/billing/billing.service.ts:200-250 | over every run the total refunded is within the credits recorded by plan changes and each credit is refunded at most once, if the provider never stores `pending` |
| BillingRefunds.PaysAgainIff | src/modules/billing/billing.service.ts:200-250 | in every run, whatever the provider replies: when a step pays, when it pays a credit that was refunded before, and when the row asks for a refund afterwards |
| BillingRepayments.RepaysIff | src/modules/billing/billing.service.ts:200-250 | in every run a step refunds a credit again if and only if it pays and the last payment of that workspace since its last new credit was answered `pending` |
| BillingRepayments.CreditPaidTwiceIff | src/modules/billing/billing.service.ts:200-250 | a run refunds some credit twice if and only if some step of it does that |
| BillingFindings.CreditPaidTwice | src/modules/billing/billing.service.ts:1333-1355 | a run that refunds 1798 against one credit of 899 |
| BillingFindings.PassKeepsLiveIff | src/modules/billing/billing.service.ts:1002-1097 | when a worker pass leaves the live subscription alone |
| BillingFindings.PassRevivesOlderIff | src/modules/billing/billing.service.ts:1002-1097 | when a worker pass replaces a live subscription that is neither of its operation's two |
| BillingFindings.OpenPlanChangeRefundedIff | src/modules/billing/billing.service.ts:1263-1355 | when a reconcile refunds the credit of a plan change that is still open, for all replies |
| BillingFindings.StalePassRevivesReplaced | src/modules/billing/billing.service.ts:1051-1097 | a run in which a pass over an old operation puts a replaced subscription back |
| BillingFindings.AbandonedChangeKeepsItsRefund | src/modules/billing/billing.service.ts:1289-1355 | a run whose last reconcile abandons a plan change and refunds its credit |
| BillingTracking.LosesTrackIff | src/modules/billing/billing.service.ts:868-916 | in every run: when a step leaves the live subscription neither on its row nor with an operation that has cancelled it or may, over all handlers |
| BillingTracking.PickedUpIff | src/modules/billing/billing.service.ts:713-779 | in every run: a lost subscription gets such an operation again if and only if a reconcile lists it among its first ten duplicates and it has no cancel operation |
| BillingTracking.PromotionAfterAbandonLosesTheOldSubscription | src/modules/billing/billing.service.ts:1105-1120 | a run in which an abandoned operation and a captured payment lose the replaced subscription |
| BillingTracking.ReconcilePicksLostSubscriptionUp | src/modules/billing/billing.service.ts:713-779 | a run in which a reconcile picks the lost subscription up |
| BillingTracking.CheckoutLosesTheOldSubscription | src/modules/billing/billing.service.ts:2004-2027 | a run of a failed payment and a new checkout that loses the first subscription |
| BillingOutcomes.StatusClasses | src/modules/billing/billing.service.ts:788-815 | which provider statuses count as waiting, active-like and over, and the row status of each |
| BillingOutcomes.Delays | src/modules/billing/billing.service.ts:252-260 | retries come after 1, 5, 15 and then 30 minutes, verifications after 5, 15, 30 and then 60 |
| BillingOutcomes.DueIff | src/modules/billing/billing.service.ts:1399-1443 | a worker pass takes up exactly the operations that are neither COMPLETED nor ABANDONED and whose time has come |
| BillingOutcomes.CancelPassOutcome | src/modules/billing/billing.service.ts:1123-1261 | a due cancel operation is COMPLETED if and only if the provider reports an over status, fetched for a requested cancel or else returned or fetched after an accepted one; FAILED iff a call it depends on threw, CLEANUP_PENDING iff the cancel was put off, CANCEL_REQUESTED otherwise, with retry count and time; the row becomes cancelled or expired exactly if that subscription is its live one; nothing else changes |
| BillingOutcomes.ReplacePassOutcome | src/modules/billing/billing.service.ts:1002-1121 | a due replacement operation: from the replies alone, iff-conditions for COMPLETED, ABANDONED, FAILED, CANCEL_REQUESTED, CLEANUP_PENDING and PENDING, with retry count and time; when the replacement becomes live and what the row then says; how many cancel calls were made |
| BillingOutcomes.OtherPassOutcome | src/modules/billing/billing.service.ts:1036-1049 | a replacement operation without a row is abandoned; an operation that is not due stays as it is |
| BillingEffects.UpsertOutcome | src/modules/billing/billing.service.ts:330-428 | an upsert leaves the higher status of the two, the plan and count given or else those there, its retry time, and no other change |
| BillingEffects.CancelPlanOutcome | src/modules/billing/billing.service.ts:2770-2793 | a cancel request leaves a cancel operation for the live subscription, at the cycle end and due at once, and changes nothing else; without a live subscription nothing |
| BillingEffects.RunCleanupOutcome | src/modules/billing/billing.service.ts:532-552 | a queued cleanup leaves the queue and leaves its operation asked for, as attempt 0 and due in a minute |
| BillingEffects.RefundOutcome | src/modules/billing/billing.service.ts:200-250 | when a refund is paid, what it pays and what the row then says; it throws exactly if a due refund call did |
| BillingEffects.StartingChangeOutcome | src/modules/billing/billing.service.ts:3076-3109 | a plan change that starts a replacement: the new pending subscription and plan, the credit and its status, the PENDING operation of the pair due in a minute, the recorded credit, nothing else |
| BillingEffects.ChangeCreditIsProrated | src/modules/billing/billing.service.ts:3076-3109 | that credit is the old plan's monthly amount times the unused part of the period, rounded to the nearest integer, and at most the monthly amount |
| BillingEffects.PromotingChangeOutcome | src/modules/billing/billing.service.ts:2956-3021 | a plan change that finds the pending replacement active makes it live, with which plan and period, and queues the cleanup of the replaced one |
| BillingEffects.WaitingChangeOutcome | src/modules/billing/billing.service.ts:2899-3064 | any other plan change only keeps the operation of a waiting replacement to the same plan open, or does nothing |
| BillingEffects.PromotingEventOutcome | src/modules/billing/billing.service.ts:2346-2718 | an activation, a captured payment or an active-like status of the pending subscription makes it live on the plan it was for, and queues the cleanup of the replaced one |
| BillingEffects.DroppingEventOutcome | src/modules/billing/billing.service.ts:2346-2718 | a failed payment or a final status of the pending subscription drops it and abandons exactly the open operations towards it |
| BillingEffects.RelabellingEventOutcome | src/modules/billing/billing.service.ts:2346-2718 | an event for the live subscription sets the row status and the plan it notes, and keeps subscriptions, period and credit |
| BillingEffects.WaitingEventOutcome | src/modules/billing/billing.service.ts:2346-2718 | any other status of the pending subscription only keeps its operation open |
| BillingEffects.NotingEventOutcome | src/modules/billing/billing.service.ts:2346-2718 | a failed payment of the live subscription makes the row past due; a processed refund is noted on the row |
| BillingEffects.ForeignEventOutcome | src/modules/billing/billing.service.ts:2346-2718 | an event for a subscription the row does not hold changes nothing |
| BillingEffects.BlockedCheckoutOutcome | src/modules/billing/billing.service.ts:1848-1894 | a checkout blocked by a pending subscription for another plan promotes it if it is active and otherwise changes nothing |
| BillingEffects.ReusingCheckoutOutcome | src/modules/billing/billing.service.ts:1896-1980 | a checkout goes on with the pending subscription for the plan, or else the live one, if it is not over and fits the plan; what the row then says |
| BillingEffects.FreshCheckoutOutcome | src/modules/billing/billing.service.ts:1982-2033 | any other checkout creates a subscription, which is pending, and takes the live one off the row |
| BillingEffects.CreateCheckoutOutcome | src/modules/billing/billing.service.ts:1733-1763 | a checkout of a workspace with an active paid subscription is a plan change; one for no paid plan does nothing |
| BillingReconcile.ReconcileOutcome | src/modules/billing/billing.service.ts:1263-1356 | a reconcile whose calls answer: the row with the provider's status and period, the pending subscription promoted, dropped, kept open or left alone by its status, a cancel operation for exactly the uncovered ones of the first ten duplicates, and no other change but the refund status |
| BillingReconcile.InterruptedReconcileOutcome | src/modules/billing/billing.service.ts:1263-1275 | a reconcile whose first call throws changes nothing, and one whose second call throws only syncs the row |
| BillingReconcile.DuplicatesAre | src/modules/billing/billing.service.ts:727-746 | a duplicate is a listed subscription of the workspace and customer that can be cancelled and is neither live nor pending |
| OperationLeases.LockTable.TryClaim | src/modules/billing/billing.service.ts:1358-1382 | the guarded update is the claim step of the machine; within the leases it gets an operation nobody else processes, and keeps exclusion and every lock |
| OperationLeases.LockTable.FreeLock | src/modules/billing/billing.service.ts:1384-1392 | the unguarded update is the release step of the machine; within the leases it frees the worker's own lock, and keeps exclusion and every other lock |
| OperationLeases.ClaimOutcome | src/modules/billing/billing.service.ts:1358-1382 | a claim succeeds if and only if the operation has the status it was listed with, is due and its lock is absent or has run out; it locks the operation for five minutes and changes nothing else |
| OperationLeases.ReleaseOutcome | src/modules/billing/billing.service.ts:1384-1392 | a release clears the lock of its operation and nothing else |
| OperationLeases.AtMostOneWorker | src/modules/billing/billing.service.ts:1358-1443 | under every interleaving at most one worker processes an operation, if no pass outlasts its lease |
| OperationLeases.SecondClaimIff | src/modules/billing/billing.service.ts:1358-1382 | a second claim of an operation in process succeeds if and only if the lease has run out |
| OperationLeases.ReleaseKeepsLocksIff | src/modules/billing/billing.service.ts:1384-1392 | a release leaves every other pass its lock if and only if no other pass is on the same operation |
| OperationLeases.LateReleaseOpensAnothersLock | src/modules/billing/billing.service.ts:1384-1392 | a run in which a late release lets two punctual passes overlap |
| ContactStore.Store.MergeTagRows | src/modules/contacts/contacts.service.ts:780-806 | the tag loop and deletes leave the selected union on the primary and none on the secondary |
| ContactStore.Store.MergeChannelRows | src/modules/contacts/contacts.service.ts:808-826 | the channel loop moves or deletes each row of the secondary |
| ContactStore.Store.MergeConversationRows | src/modules/contacts/contacts.service.ts:828-918 | the survivor takes over messages, activities and aggregates and the other conversations go; the new tables are `MergeConversations` of the old, whose rows are told by `NoMessageIsLost`, `NoActivityIsLost` and `AggregatesOutcome` |
| ContactStore.Store.MergeHistoryRows | src/modules/contacts/contacts.service.ts:925-948 | the history loop moves or deletes each row of the secondary |
| ContactStore.Store.MergeContacts | src/modules/contacts/contacts.service.ts:727-960 | the whole transaction, or its error with nothing changed; foreign keys and unique indexes are kept |
| ContactConservation.NoMessageIsLost | src/modules/contacts/contacts.service.ts:828-872 | every message of either contact ends in the one conversation of the primary; other conversations and messages are untouched |
| ContactConservation.UnionOfIdentitiesAndTags | src/modules/contacts/contacts.service.ts:780-826 | the primary's identities are exactly the union, its tags exactly the selected union; other contacts keep theirs |
| ContactConservation.NothingPointsAtTheSecondary | src/modules/contacts/contacts.service.ts:811-948 | no conversation, channel, tag, workflow run or history row points at the secondary, and no history key is lost |
| ContactConservation.MergeKeepsValid | src/modules/contacts/contacts.service.ts:747-960 | the foreign keys of conversations, messages, activities, last messages, channels, tags, workflow runs and history and the unique indexes of channels and history hold after the merge |
| ContactConservation.LastStaysUniqueIff | src/modules/contacts/contacts.service.ts:845-917 | on any valid table, the unique index on the last message survives one merge if and only if no conversation of a third contact points at the survivor's latest message |
| ContactConservation.LastStaysOwn | src/modules/contacts/contacts.service.ts:845-917 | if every last message belongs to its own conversation, it still does after a merge, and the index survives |
| ContactForest.RunKeepsLastMessages | src/modules/contacts/contacts.service.ts:845-917 | so over every run of creates and merges the index never fails |
| ContactForest.RunKeepsForest | src/modules/contacts/contacts.service.ts:756-762 | over every run of creates and merges the merge links stay a forest, and conversations and channels keep hanging from unmerged contacts |
| ContactForest.MergedContactsLeadToOneSurvivor | src/modules/contacts/contacts.service.ts:950-960 | no walk along the links is a cycle and every contact leads to exactly one unmerged contact |
| ContactOrder.MergeConservesGroup | src/modules/contacts/contacts.service.ts:887-917 | a merge inside a group of contacts conserves the group's combined aggregates and its messages |
| ContactOrder.SurvivorCarriesTheTotal | src/modules/contacts/contacts.service.ts:887-917 | after merging a list of duplicates the survivor has the group's initial messages, unread total, highest rank, earliest response and due time, latest resolution and breach flag |
| ContactOrder.MergeOrderIsIrrelevant | src/modules/contacts/contacts.service.ts:828-918 | merging the same duplicates in any two orders gives the same aggregates, messages, last message time and last incoming time, and the same priority if the conversations merged have known priorities |
| ContactOrder.SurvivorExistsInEveryOrder | src/modules/contacts/contacts.service.ts:838-839 | whether the primary is left with a conversation does not depend on the order |
| ContactOrder.PickIsOrderFreeIff | src/modules/contacts/contacts.service.ts:1183-1192 | the picked priority ignores the order if and only if some priority is known or all are equal |
| ContactOrder.UnknownPrioritiesFollowTheOrder | src/modules/contacts/contacts.service.ts:1183-1192 | two unknown priorities of which the first is picked |
| ContactOutcomes.RefusedIff | src/modules/contacts/contacts.service.ts:756-762 | a merge is refused exactly for equal contacts, a contact missing from the workspace, or one already merged, in this order |
| ContactOutcomes.ContactsOutcome | src/modules/contacts/contacts.service.ts:950-960 | the secondary points at the primary, no other contact changes and the merge is logged |
| ContactOutcomes.NoActivityIsLost | src/modules/contacts/contacts.service.ts:864-867 | every activity of either contact's conversations is in the one conversation the primary is left with; every other activity is unchanged; none is lost |
| ContactOutcomes.SurvivorIsFirst | src/modules/contacts/contacts.service.ts:838-839 | the survivor is the first listed conversation of the primary, or the first of all if it has none |
| ContactOutcomes.SubjectOutcome | src/modules/contacts/contacts.service.ts:887-894 | the survivor keeps its subject, or gets the first listed one that is not empty |
| ContactOutcomes.AggregatesOutcome | src/modules/contacts/contacts.service.ts:887-917 | the survivor has the earliest first response and due time, the latest resolution and the first of the most urgent priorities of all listed conversations, and is in breach exactly if one of them is |
| ContactOutcomes.WorkflowRunsOutcome | src/modules/contacts/contacts.service.ts:920-923 | the workflow runs of the secondary are the primary's and those of third contacts are unchanged |
| ContactOutcomes.ChannelsOutcome | src/modules/contacts/contacts.service.ts:808-826 | a channel of the secondary goes if and only if the primary has one with its channel and identifier, and otherwise becomes the primary's; all others are unchanged |
| ContactOutcomes.HistoryOutcome | src/modules/contacts/contacts.service.ts:925-948 | the same for notification history, by user, type and inactivity session |
| ContactOutcomes.TagsOutcome | src/modules/contacts/contacts.service.ts:780-806 | the primary has exactly the tags of both that are selected by name, or all if none is selected; the secondary has none and others keep theirs |
| SessionService.Service.CacheStore | src/modules/auth/auth-session-cache.service.ts:18-30 | the entry lives for at least a minute, and less than a minute past the expiry of a session that is still valid |
| SessionService.Service.GetSessionContext | src/modules/auth/auth.service.ts:1288-1309 | cached or fresh, a context returned is that of an unrevoked row; an expired session is revoked; the invariant is kept |
| SessionService.Service.SignIn | src/modules/auth/auth.service.ts:1205-1276 | inserts a session and its first token with the same expiry and answers with its user, organization, workspace and expiry if and only if the lifetime is positive; the invariant is kept |
| SessionService.Service.RefreshSession | src/modules/auth/auth.service.ts:663-728 | answers if and only if the token is known, ACTIVE, unrevoked and unexpired, and rotates it; ends the family of a stale one; the invariant is kept |
| SessionService.Service.SwitchWorkspace | src/modules/auth/auth.service.ts:788-813 | answers if and only if the session is usable, the user's own and the switch is allowed; then row and reply have the given organization and workspace and the next version, and every other session is unchanged; the invariant is kept |
| SessionService.Service.HandleReuse | src/modules/auth/auth.service.ts:1540-1559 | marks the whole family as reused and revokes the session |
| SessionService.Service.RevokeInternal | src/modules/auth/auth.service.ts:1561-1588 | revokes the session and its open tokens once and drops the cache entry |
| SessionService.Service.RevokeOne | src/modules/auth/auth.service.ts:753-769 | revokes a session of the user, or reports that there is none; the invariant is kept |
| SessionService.Service.RevokeAllSessions | src/modules/auth/auth.service.ts:771-786 | the loop revokes exactly the user's open sessions but the excepted one, none of which stays open; the invariant is kept |
| SessionSafety.TokensFormOneChain | src/modules/auth/auth.service.ts:663-728 | in every reachable state the tokens of a session form one chain by `previousTokenId` whose last member alone can be ACTIVE |
| SessionSafety.NoBranches | src/modules/auth/auth.service.ts:663-728 | no token has two successors, no session two first tokens, and a predecessor is older |
| SessionSafety.RefreshesNeverExtend | src/modules/auth/auth.service.ts:663-728 | in every continuation of every run the session and all its tokens keep the expiry of the sign-in |
| SessionSafety.RefreshHandsOverTheFreshToken | src/modules/auth/auth.service.ts:663-728 | a refresh succeeds if and only if the token is not stale; then the new token is the only ACTIVE one of the session |
| SessionSafety.ReuseEndsTheFamily | src/modules/auth/auth.service.ts:677-680 | after a used, revoked, reused or expired token was presented, in every continuation no token of the family is ACTIVE, every refresh with one fails and the session is refused, cached or not |
| SessionInvariants.TokenChecksImplySessionChecks | src/modules/auth/auth.service.ts:677-684 | in every reachable state the session checks of a refresh follow from its token checks |
| SessionSafety.CacheAgrees | src/modules/auth/auth.service.ts:1288-1309 | in every reachable state a cached context belongs to an unrevoked session, equals its row, and is answered less than 60 seconds past the expiry |
| SessionSafety.FastPathRefinesForcedRead | src/modules/auth/auth.service.ts:1288-1309 | the cached answer equals the forced one if and only if the cached expiry has not passed |
| SessionSafety.FastPathOutlivesExpiry | src/modules/auth/auth-session-cache.service.ts:18-30 | a run in which the fast path answers 58.999 seconds past the expiry |
| SessionOutcomes.ForcedReadOutcome | src/modules/auth/auth.service.ts:1288-1309 | a forced read answers if and only if the session is there, active, unrevoked and before both expiries; the context says what the row says and is cached for the whole seconds left, or a minute; an expired session is closed with its tokens; otherwise nothing changes |
| SessionOutcomes.PlainReadOutcome | src/modules/auth/auth.service.ts:1288-1309 | a read answers from a live cache entry and touches nothing, and else is a forced read |
| SessionOutcomes.SignInOutcome | src/modules/auth/auth.service.ts:1205-1276 | one session and one first token more, with user, organization, workspace, version 1 and expiry after the given seconds; answered if and only if these are positive; all other rows unchanged |
| SessionOutcomes.RefreshAnswersIff | src/modules/auth/auth.service.ts:663-684 | a refresh is answered if and only if its token is known, ACTIVE, unrevoked and unexpired |
| SessionOutcomes.RefreshOutcome | src/modules/auth/auth.service.ts:686-728 | the token is USED, one new ACTIVE token follows it with its expiry, the session notes the time, and no other row changes |
| SessionOutcomes.ReuseOutcome | src/modules/auth/auth.service.ts:1540-1559 | any other known token marks exactly the tokens of its session as REUSED and revokes that session, once; no other row changes |
| SessionOutcomes.SwitchOutcome | src/modules/auth/auth.service.ts:788-813 | a switch happens if and only if the session is usable, belongs to the user and the roles allow it; row, reply and cache then show the given organization and workspace and the next version, and nothing else changes |
| SessionOutcomes.RefusedSwitchOutcome | src/modules/auth/auth.service.ts:788-802 | any other switch is refused as forbidden or like the read it starts with, and changes no more than that read |
| SessionOutcomes.RevokeOutcome | src/modules/auth/auth.service.ts:753-769 | a user closes a session of their own with its tokens and cache entry, and only that |
| SessionOutcomes.RevokeAllOutcome | src/modules/auth/auth.service.ts:771-786 | row by row: exactly the user's open sessions but the excepted one are revoked, with their open tokens and cache entries |
| SessionOutcomes.ContextFollowsTheLastSwitch | src/modules/auth/auth.service.ts:788-813 | after every run, a session read in whatever way carries the organization and workspace of the last switch granted to it, or of its sign-in, and its version is the number of these |
| RateLimit.Limiter.Consume | src/modules/auth/auth-rate-limit.service.ts:8-24 | counts the call in the key's window, opening one if needed; the verdict is allowed iff the count is within the limit, with the rest of the limit and the rounded seconds left of the window, or a whole window if none are |
| RateLimit.KeysAreIndependent | src/modules/auth/auth-rate-limit.service.ts:8-28 | the counter of a key after any traffic and any clears is that of its own calls since it was last cleared |
| RateLimit.ClearRestoresTheLimit | src/modules/auth/auth-rate-limit.service.ts:26-28 | after a clear the next `maxAttempts` calls are allowed, however many came before |
| RateLimit.VerdictDependsOnItsWindow | src/modules/auth/auth-rate-limit.service.ts:8-24 | among any traffic and clears the verdict on a call reports the number of calls in its own window since the last clear, what they leave of the limit, and the time left since the call that opened the window |
| RateLimit.EachWindowAllowsItsFirstCalls | src/modules/auth/auth-rate-limit.service.ts:8-24 | each window allows exactly its first `maxAttempts` calls |
| RateLimit.BurstBound | src/modules/auth/auth-rate-limit.service.ts:8-24 | any span of one window's length has at most twice `maxAttempts` allowed calls, and one less if it is half open |
| RateLimit.BurstBoundIsSharp | src/modules/auth/auth-rate-limit.service.ts:8-24 | both bounds are met for every window and limit |
| Templates.MatchIff | src/common/variables/variable-metadata.ts:57 | the scanner matches at the front of a text exactly the tokens of the grammar, with their key |
| Templates.EveryTokenIsFound | src/common/variables/variable-metadata.ts:57 | tokens never overlap: a token anywhere in a template is found, between the scans of what precedes and follows it |
| TemplateRendering.NormalizeKeepsScan | src/common/variables/variable-metadata.ts:133-142 | rewriting tokens creates, merges and destroys no match |
| TemplateRendering.NormalizePreservesRendering | src/common/variables/variable-metadata.ts:137-188 | the normalised template renders as the original in every context |
| TemplateRendering.NormalizeIsIdempotent | src/common/variables/variable-metadata.ts:137-142 | normalising twice is normalising once |
| TemplateRendering.NormalizePreservesKeys | src/common/variables/variable-metadata.ts:144-149 | the normalised template has the same list of keys |
| TemplateRendering.RenderDependsOnExtractedKeys | src/common/variables/variable-metadata.ts:144-188 | contexts that agree on the extracted keys render alike; what each key renders to is `TokenRendersAsSaid` |
| TemplateMeaning.SplitIff | src/common/variables/variable-metadata.ts:168-176 | the parts of a key are the one list of parts without dots that joins back to it |
| TemplateMeaning.SaysIff | src/common/variables/variable-metadata.ts:158-188 | a key says exactly one text: of the field of that whole name, or else of the value at the end of the path of records its parts name, or nothing |
| TemplateMeaning.TokenRendersAsSaid | src/common/variables/variable-metadata.ts:178-188 | a token anywhere in a template renders as the text its key says, between the renderings of what precedes and follows it |
| TemplateMeaning.NestedKeyRenders | src/common/variables/variable-metadata.ts:168-188 | a two-part key renders as the text in the record of a record, as in every context the application builds |
| TemplateMeaning.TokenNormalizes | src/common/variables/variable-metadata.ts:137-142 | normalising writes a token anywhere as its bare key between braces |
| TemplateMeaning.PlainTextStays | src/common/variables/variable-metadata.ts:137-188 | text in which no token stands renders and normalises as itself and has no keys |
| TemplateMeaning.LastTokenExtends | src/common/variables/variable-metadata.ts:144-149 | the last token of a template adds its key at the end of the list, unless the key is listed |
| TemplateMeaning.KeyIsBared | src/common/variables/variable-metadata.ts:133-135 | spaces around a key and one dollar sign before it are taken off |
| BroadcastService.Service.EnqueueRun | src/modules/broadcasts/broadcasts.service.ts:1364-1465 | the loop queues or fails every row read, then adds the counters and sets the status; a throw after any number of rows leaves the rest as they were |
| BroadcastService.Service.ClaimRun | src/modules/broadcasts/broadcasts.service.ts:1322-1328 | claims exactly a scheduled run |
| BroadcastService.Service.ProcessScheduledBroadcasts | src/modules/broadcasts/broadcasts.service.ts:1335-1362 | the cron loop over due runs, each claimed and enqueued, skipped, or closed after a throw at any point of its loop; the invariant holds |
| BroadcastService.Service.SendBroadcast | src/modules/broadcasts/broadcasts.service.ts:1643-1735 | creates the run with one pending row per contact of the audience and enqueues it unless scheduled; the invariant holds |
| BroadcastInvariants.EnqueuedAtMostOnce | src/modules/broadcasts/broadcasts.service.ts:1317-1362 | under every interleaving a run is enqueued at most once and by one worker at a time |
| BroadcastInvariants.OneJobPerRecipient | src/modules/broadcasts/broadcasts.service.ts:1401-1452 | at most one send job per recipient, exactly one if recorded as queued, none while pending |
| BroadcastInvariants.EveryBatchIsWhole | src/modules/broadcasts/broadcasts.service.ts:1373-1397 | in every run a worker about to start reads all the rows of its run: the batch limit cuts no audience |
| BroadcastAborts.EndedRunIsSettledIff | src/modules/broadcasts/broadcasts.service.ts:1335-1465 | an ended run has no pending recipient and counters that tell what was recorded if and only if its enqueue loop never threw |
| BroadcastInvariants.SettledShowsInTheRow | src/modules/broadcasts/broadcasts.service.ts:1454-1465 | that is so if and only if the row says completed or shows a counter |
| BroadcastAborts.LeavesPendingIff | src/modules/broadcasts/broadcasts.service.ts:1317-1465 | an ended or stuck run has a recipient left pending if and only if its enqueue loop threw with rows still to do |
| BroadcastAborts.LateThrowLeavesNobodyPending | src/modules/broadcasts/broadcasts.service.ts:1454-1465 | a trace in which the final update throws: ended, nobody pending, counters wrong |
| BroadcastAborts.StuckIff | src/modules/broadcasts/broadcasts.service.ts:1317-1332 | a run is running with nobody at work on it if and only if its enqueue loop threw outside the cron job |
| BroadcastAborts.AbortedForEver | src/modules/broadcasts/broadcasts.service.ts:1317-1362 | after a throw, in every continuation the run keeps status and counters and nobody works on it again |
| BroadcastInvariants.CompletedMeansAllQueued | src/modules/broadcasts/broadcasts.service.ts:1454-1465 | a completed run queued its whole audience |
| BroadcastAborts.PendingForEver | src/modules/broadcasts/broadcasts.service.ts:1317-1362 | the recipients pending at the throw are pending in every continuation |
| BroadcastAborts.AbortedRunLeavesPending | src/modules/broadcasts/broadcasts.service.ts:1353-1360 | a trace that ends a broadcast with a pending recipient |
| BroadcastAborts.StuckRunLeavesPending | src/modules/broadcasts/broadcasts.service.ts:1735-1735 | a trace that leaves a broadcast running with a pending recipient and nobody at work |
| BroadcastOutcomes.CreateOutcome | src/modules/broadcasts/broadcasts.service.ts:1643-1706 | a new run has as many recipients as match, but no more than the limit asked for, at least one of them, and no more than 500; its status, zero counters and pending rows; nothing else changes |
| BroadcastOutcomes.ClaimOutcome | src/modules/broadcasts/broadcasts.service.ts:1322-1328 | a claim starts a run if and only if it is scheduled, and changes nothing else |
| BroadcastOutcomes.EnqueueOutcome | src/modules/broadcasts/broadcasts.service.ts:1364-1465 | a claimed run handles each recipient once: queued with one job, or failed; the row counts both and is completed if and only if all were queued; after a throw the first ones are handled and the rest untouched, and only the cron job ends the run |
| BroadcastOutcomes.CronOutcome | src/modules/broadcasts/broadcasts.service.ts:1345-1360 | a due run is enqueued so if it is still scheduled, and else left alone |
| BroadcastOutcomes.SendOutcome | src/modules/broadcasts/broadcasts.service.ts:1643-1735 | a broadcast for later or without an audience is only stored; any other is enqueued so |
| PushWorker.Worker.PushDevices | src/workers/notification.worker.ts:271-428 | the device loop ends with the rows and counters of the specification |
| PushWorker.Worker.Deliver | src/workers/notification.worker.ts:198-459 | a whole pass with its summary, told from the state before it: it throws, and the delivery is FAILED, if and only if some live listed device not sent to before did not accept; SKIPPED iff no listed device is live, else SENT; other deliveries keep their status |
| PushSafety.AcceptedAtMostOnce | src/workers/notification.worker.ts:271-344 | across all passes and device changes each endpoint accepts a delivery at most once |
| PushSafety.CountersAddUp | src/workers/notification.worker.ts:256-436 | sent, failed and skipped add up to the targets, and sent counts the pushes accepted in the pass |
| PushSafety.PassEffect | src/workers/notification.worker.ts:271-428 | a pass treats every device on its own: its rows after the pass are told by its rows before and its reply |
| PushSafety.NextPassSendsNothingIff | src/workers/notification.worker.ts:198-459 | the next pass over the same devices sends nothing if and only if the summary shows no failure but 404 and 410 replies |
| PushSafety.NextPassEnds | src/workers/notification.worker.ts:198-459 | that next pass ends SENT, or SKIPPED if no device is left, whatever the service would reply |
| PushOutcomes.DeliveryOutcome | src/workers/notification.worker.ts:438-459 | told from the devices, attempts and replies before the pass: the delivery is SKIPPED iff no listed device is live, FAILED iff some live listed device not sent to before did not accept, SENT otherwise; no other delivery changes |
| PushOutcomes.SomeFailsIff | src/workers/notification.worker.ts:444-451 | the pass counts a failure, and so throws, if and only if some live listed device not sent to before did not accept |
| PushOutcomes.DeviceOutcome | src/workers/notification.worker.ts:271-428 | a device pushed to has one attempt more, SENT or FAILED, no failures or one more, and is invalidated iff the reply was 404 or 410; any other device and its attempt are unchanged |
| PushOutcomes.OtherAttemptsStay | src/workers/notification.worker.ts:271-344 | attempts of other deliveries and other endpoints are unchanged |
| PushOutcomes.CountersAre | src/workers/notification.worker.ts:256-436 | each counter is the number of devices that met its fate |
| Base32.ToBase32 | src/modules/auth/auth-totp.service.ts:52-65 | the two loops compute the encoding |
| Base32.FromBase32 | src/modules/auth/auth-totp.service.ts:67-85 | the two loops compute the decoding, or the error for a foreign character |
| Base32.AlphabetLookups | src/modules/auth/auth-totp.service.ts:5 | the lookups are those in the alphabet of section 6 of RFC 4648 |
| Base32.EncodedNumber | src/modules/auth/auth-totp.service.ts:52-65 | the letters write in base 32 the number the bytes write in base 256, shifted to a whole letter, with the shortest length that holds it |
| Base32.DecodedNumber | src/modules/auth/auth-totp.service.ts:67-85 | the bytes write in base 256 the number of the letters without the bits left over, which are fewer than eight |
| Base32.DecodeFailsIff | src/modules/auth/auth-totp.service.ts:67-85 | a text is refused if and only if a character before its padding is in the alphabet in neither case |
| Base32.RoundTrip | src/modules/auth/auth-totp.service.ts:52-85 | decoding the encoding of any byte string returns it exactly |
| Base32.DecodeIgnoresCaseAndPads | src/modules/auth/auth-totp.service.ts:67-85 | lower case and trailing padding do not change what is decoded |
| Base32.ReencodeIff | src/modules/auth/auth-totp.service.ts:52-85 | encoding what was decoded returns the text if and only if fewer than five bits are left over and they are zero |
| Totp.TruncationMeetsTheStandard | src/modules/auth/auth-totp.service.ts:46-47 | the arithmetic is the dynamic truncation of section 5.3 of RFC 4226 on bit strings |
| Totp.CodesAreStandard | src/modules/auth/auth-totp.service.ts:40-50 | a code is six decimal digits that spell the truncation modulo a million |
| Totp.GeneratedSecretIsTheKey | src/modules/auth/auth-totp.service.ts:9-11 | for a generated secret the HMAC key is the random byte string itself |
| Totp.BigEndianIsInjective | src/modules/auth/auth-totp.service.ts:42-44 | different counters give different HMAC messages |
| Totp.BigEndianReads | src/modules/auth/auth-totp.service.ts:42-44 | the message of a counter, read with the most significant byte first, is the counter |
| Totp.OnlyMessageOf | src/modules/auth/auth-totp.service.ts:42-44 | and it is the only message of its length that reads so |
| Totp.CodeOfMessage | src/modules/auth/auth-totp.service.ts:40-50 | the code of a counter spells the truncated HMAC of the eight bytes that write it in base 256 |
| Totp.CounterIff | src/modules/auth/auth-totp.service.ts:41 | the counter at an offset is k exactly during the thirty seconds from k minus the offset on |
| Totp.VerifyCode | src/modules/auth/auth-totp.service.ts:19-32 | accepts or throws exactly as the first offset that stops the loop says, with a clock reading per offset |
| Totp.AcceptsIff | src/modules/auth/auth-totp.service.ts:19-32 | on a clock that does not go back, a code is accepted if and only if some offset of the window has it and the window starts at a valid counter |
| Totp.ThrowsIff | src/modules/auth/auth-totp.service.ts:19-32 | when verification throws: bad secret, negative counter, or counters that run out unmatched |
| Totp.GenuineCodesAreAccepted | src/modules/auth/auth-totp.service.ts:19-32 | a genuine code of the window, however spaced, passes the format gate and is accepted |
| Totp.GeneratedCodesAreAccepted | src/modules/auth/auth-totp.service.ts:19-50 | so is the code exactly as generated |

## Left out

- Stripe checkout and webhooks, invoices, add-on orders, payments and the trial expiry job: field copying outside the protocol modelled here.
- Provider clients (Razorpay, Google, AI, SMTP, web push): only their replies appear, as inputs.
- Razorpay row fields that no decision reads: cancel-at-period-end flag, operation metadata, last error, refund time. Of the customer id the model keeps whether it is set.
- BillingService.Service.ProcessOperation: leaves the lock columns of the claim to `OperationLeases`, and reads the clock once per pass.
- BillingService.Service.CleanupDuplicates: takes the provider's listing as sorted and says of each item whether it belongs to the workspace and customer; a listing that throws is an empty one.
- Operation keys are datatypes rather than joined strings, so an operation with a missing id, which its processor would complete or abandon, does not occur.
- Races inside one handler: the unique-key race in the upserts, the in-memory checkout lock, fire-and-forget calls other than the queued cleanup, reads outside a transaction.
- BillingInvariants.CancelCallsBounded: counts every cancel call that reached the provider, also one whose reply was lost; a lost reply is a pass that threw.
- BillingRefunds.RefundsWithinCredits: assumes that the provider's stored refund status is never `pending` and takes refund and row update as one step.
- Proration.CreditBrackets: takes the quotient exactly; floating-point rounding of the division is not modelled.
- ContactConservation.MergeKeepsValid: the unique index on the last message is treated in `RunKeepsLastMessages`, which needs that last messages belong to their conversations at the start.
- Contact merge: the resolved profile fields, name and avatar, the merge run's snapshot, the response and `pickMergedConversationStatus`; commerce and integration rows, which the merge does not move; contact deletion.
- ContactStore.Store.MergeContacts: the checks of the preview and of the transaction are one check, since nothing happens between them in the model.
- Duplicate scoring and suggested resolutions: heuristics without a promise.
- Hashing, JWT signing, argon2, encryption: a refresh names its token directly. HMAC-SHA1 is any function to twenty bytes.
- Cached profile, roles and auth provider: other code changes them without refreshing the cache; the model keeps the session-row fields. Role checks of a workspace switch are an input.
- Session listing, last-seen time, device and network fields, audit log.
- Redis failures; the increment and the expiry of a rate-limit call are one step.
- Base32.DecodeIgnoresCaseAndPads: upper-casing is that of ASCII letters; a few other characters that JavaScript upper-cases into the alphabet are rejected in the model.
- TemplateRendering.NormalizePreservesRendering: a context value is absent, has one string form, or is a plain object; building the common context is field copying.
- Broadcast audience filters, template snapshots, unsubscribe tokens, deduplication of payloads and the message content: a run only has a number of matching contacts.
- BroadcastService.Service.ClaimRun: a database error during the claim itself, which the cron job also answers by closing the run, is not modelled; creating the run and its recipient rows is one step.
- BroadcastInvariants.OneJobPerRecipient: adding a recipient's job and recording it are one step.
- The outbound sender behind the queue: it appears as arbitrary later status changes of recipients whose job was added, never back to pending.
- PushSafety.AcceptedAtMostOnce: counts the pushes whose acceptance the worker saw. A push that was taken although its call threw is sent again, so an endpoint can get one push more for each reply lost. Database writes are assumed to succeed, and two passes of one job not to overlap.
- Email notifications, controllers, guards, gateways, analytics, queue set-up, data seeding: plumbing.
