# Verified model of the workspace backend

This project models the stateful core of a multi-tenant file-storage backend and proves what its
protocols keep over every run. Each module follows one component:

| module | component |
|---|---|
| Calendar, Plans, Billing, Metering | anchored billing months, plan catalogue, overage arithmetic, meter windows |
| Account, Entitlements, Transactions, UsageAccounting, CompanyStore | one company's seats, files, plans, period counters and usage outbox; limits, effects and conservation over runs; the same transactions on an object updated in place |
| SeatRaces | the seat limits when transactions overlap: snapshots, the subscription lock and writes that do not take it |
| Attempts | lease and idempotency protocol of remote creations (customer, Checkout session, subscription) |
| UsageDelivery, DeliveryGuarantees, DeliveryHistory, UsageOutbox | delivery of metered usage: protocol, guarantees, effects, and the loop on the stored rows |
| GuardJobs, GuardProtocol, GuardGuarantees, GuardHistory, GuardQueue | guard job documents, the interleaved workers and the object store, their guarantees and effects, and the collections updated in place |
| GuardFence | guard transactions under snapshot isolation and the fences of `resolve` |
| Downgrade, FileStore | cleanup before a downgrade; uploads and deletions over two stores |
| Conversations, Agent | AI conversation lease; tool loop and history selection |
| Luhn, Xlsx | the card-number check and the ZIP directory walk |

A protocol is a state, a datatype of actions and a total function `Step`; a step that is not
enabled changes nothing, like the conditional write it stands for. `Run` folds a sequence of
actions, so a statement about all sequences is a statement about all interleavings, crashes
(a participant takes no further step), stale reads and late messages. A MongoDB transaction is
one step, except in GuardFence and SeatRaces, where snapshots and write conflicts are the subject. Time is in
milliseconds and never runs backwards; a request's clock reading may be older than its commit.
The `authorised` flag of a guard action is the outcome
of `resolve`; GuardFence proves what that outcome means at the moment of the commit.
Tokens and document ids are fresh. Digests stand for contents, so equal digests mean equal bytes.

The slot of Attempts stands for each of the three remote creations: its key is the company id
(customer), the operation (Checkout) or the Checkout session (subscription), and its first-attempt
time is `stripeCustomerAttemptAt`, `stripeCheckoutAttemptAt` or `stripeSubscriptionAttemptAt`.

## Where the code falls short of its intent

These statements are proved with the exact condition under which the code does meet the intent.

- Resending an invitation takes no lock and re-reads no capacity: with a clock reading from before
  the expiry it revives an expired seat (`Entitlements.StaleResendOverbooks`). `Entitlements.StepFits`
  is exact for serial transactions; with overlaps the exact condition is a bound on two delays.
- `assertPlanFits` reads the clock inside its transaction, after the snapshot it counts in. A resend
  that commits in between renews an invitation that is then counted as expired (`SeatRaces.LateReadingOverbooks`).
- `submitUsage` stamps and marks rows by unconditional writes. A stale stamp postpones the 23-hour
  cut-off: with one bound D for pauses and latency, usage is counted at most once iff 3D is below
  65 minutes. Final delivery states are final only while no holder outlives its 5-minute lease.
- Invoice lines are in whole seconds, meter windows are not: for an activation in the first second
  of a minute but past its start, an upload in the last minute of a period misses its invoice window.
- A subscription that ends and is replaced within one period gets a line that starts at the second
  one. It misses what the first one metered, or bills it again when both fall into the same minute edge
  (`UsageAccounting.ResubscribedLine`, exact in `UsageAccounting.LineMatchesExactly`).
- `Date.UTC` maps the years 0 to 99 to 1900 to 1999, so `billingPeriod` is wrong for periods that
  open before the year 100, and near the end of the Date range.
- The retry comment of `attempt` relies on 24-hour key retention alone; the hour between the
  23-hour cut-off and the retention also has to cover pause and call latency.

## Model

| member | source | states |
|---|---|---|
| GuardGuarantees.Lifecycle | src/sensitive-data-guard/guard.worker.ts:76-101 | In every reachable state attempts never exceed 3 and a queued job has at most 2; `active` holds iff queued or processing; a lease exists iff processing. |
| GuardGuarantees.OneActiveJob | src/sensitive-data-guard/guard.service.ts:61-105 | A company has at most one active job and a request key identifies at most one job, in every interleaving. |
| GuardGuarantees.ResubmissionIsReplayed | src/sensitive-data-guard/guard.service.ts:66-67 | A known request key is answered with its job when the request is the same one and is a conflict otherwise; it never creates a second job. |
| GuardGuarantees.LogDeterminesState | src/sensitive-data-guard/guard.service.ts:87-109 | The event log determines the state: exactly one terminal event iff inactive, and it names the final status; queued events equal attempts (plus one while queued). |
| GuardGuarantees.FindingsMatch | src/sensitive-data-guard/guard.worker.ts:276-291 | A completed scan stores exactly `findingCount` findings; no other job has any, and a sanitization never does. |
| GuardGuarantees.StepIsJobStep | src/sensitive-data-guard/guard.worker.ts:171-180 | Whatever any worker, recover, cancel or cleanup does in one step: kind and pinned digest stay, an inactive job stays as it is, every status change lowers a rank, and a job ends only by a write that EndedBy names with its job, lease and authorisation. |
| GuardGuarantees.LifecycleEnds | src/sensitive-data-guard/guard.worker.ts:361-415 | Over any run, however claims, crashes, lost leases and retries interleave, a job changes status or attempts at most six times. |
| GuardGuarantees.OnlyHolderEnds | src/sensitive-data-guard/guard.worker.ts:328-359 | Only the worker whose token holds the unexpired lease completes or fails a job; recover fails it only on a read of its own expired third lease, and only an authorised cancel of that job cancels it. |
| GuardGuarantees.RecoverDecidesRight | src/sensitive-data-guard/guard.worker.ts:373-400 | recover's decision on a stale read of `attempts` is the right one whenever its compare-and-set on the token succeeds. |
| GuardGuarantees.InactiveForever | src/sensitive-data-guard/guard.worker.ts:171-180 | From any reachable state on, an inactive job never becomes active or changes status, and a pinned output digest never changes. |
| GuardGuarantees.PutsAgree | src/sensitive-data-guard/guard-sanitization.service.ts:243-290 | All PUTs ever issued to one storage key carry the one digest pinned in the job, so a late PUT of a fenced-out worker rewrites the same bytes. |
| GuardGuarantees.CleanupSparesCopies | src/sensitive-data-guard/guard-sanitization.service.ts:363-416 | Cleanup never has a DELETE under way for a job whose derived file exists, although its check and its DELETE interleave with workers. |
| GuardGuarantees.PublishedCopySurvives | src/sensitive-data-guard/guard-sanitization.service.ts:292-349 | Once published, a copy and its object, with the same bytes, survive every later step of anybody until its own removal begins. |
| GuardProtocol.RunKeepsInv | src/sensitive-data-guard/guard.worker.ts:76-170 | The invariant holds after every run. |
| GuardQueue.ReadWorkbook | src/sensitive-data-guard/guard.worker.ts:207-240 | However the stream is cut off, it is returned whole iff it ends with the announced size within the limit; each error has exactly its cause. |
| GuardQueue.Guard.Submit | src/sensitive-data-guard/guard.service.ts:66-130 | The in-place admission equals the specification, answers replays and keeps the store consistent. |
| GuardQueue.Guard.Claim | src/sensitive-data-guard/guard.worker.ts:79-101 | Claims the oldest claimable job for the new token, or finds that there is none. |
| GuardQueue.Guard.OldestQueued | src/sensitive-data-guard/guard.worker.ts:81-100 | Finds a claimable job with the least `createdAt`, iff one exists. |
| GuardQueue.Guard.ExpiredJobs | src/sensitive-data-guard/guard.worker.ts:362-372 | At most twenty distinct expired jobs, and all of them when there are fewer. |
| GuardQueue.Guard.RecoverOne | src/sensitive-data-guard/guard.worker.ts:375-412 | One pass of the loop equals the specification of the guarded write. |
| GuardQueue.Guard.Recover | src/sensitive-data-guard/guard.worker.ts:361-415 | Without interference every job read is queued again, or failed after its third attempt; all other jobs are untouched. |
| GuardQueue.Guard.Fail | src/sensitive-data-guard/guard.worker.ts:328-359 | The job fails exactly under its held unexpired lease; otherwise nothing changes. |
| GuardQueue.Guard.Cancel | src/sensitive-data-guard/guard.service.ts:211-255 | An active job is cancelled exactly when authorised; otherwise nothing changes. |
| GuardQueue.Guard.Publish | src/sensitive-data-guard/guard.worker.ts:252-327 | With lease and authorisation exactly the given findings are stored and the job is completed with their number; otherwise nothing changes. |
| GuardQueue.Guard.PinOutput | src/sensitive-data-guard/guard-sanitization.service.ts:243-270 | The digest is pinned exactly under lease and authorisation and unless another one is remembered. |
| GuardQueue.Guard.PublishCopy | src/sensitive-data-guard/guard-sanitization.service.ts:292-349 | The copy is recorded exactly under lease, authorisation and quota; otherwise nothing changes. |
| GuardFence.CommittedPublicationIsAuthorised | src/sensitive-data-guard/guard-access.service.ts:17-51 | Under snapshot isolation, a transaction that resolved with a session and can commit finds, in the documents just before its commit, an activated company that is not suspended, its user, and a file (and source) the user may process. |
| GuardFence.ResolvesExactly | src/sensitive-data-guard/guard-access.service.ts:18-51 | resolve succeeds for exactly the users, companies and files said so by their documents, and fences exactly those documents. |
| GuardFence.FencesChangeNothing | src/sensitive-data-guard/guard-access.service.ts:34-46 | Committing the fences changes nobody's right to any file. |
| GuardFence.WithdrawalStops | src/sensitive-data-guard/guard-access.service.ts:28-47 | A commit that suspends the company, deletes the user or takes a plain member off the file ends the right at once and stops every publication under way, whatever happens next. |
| GuardFence.CommitsExactly | src/sensitive-data-guard/guard.service.ts:66-110 | A commit without conflict installs exactly its writes and its job, one with a conflict nothing. |
| GuardFence.ConflictingCommitOvertakes | src/files/files.service.ts:259-300 | Any other commit that writes the user, the company, the file or its source overtakes the publication. |
| GuardFence.OvertakenStays | src/files/files.service.ts:281-300 | An overtaken transaction never becomes able to commit again. |
| GuardFence.EveryFenceIsNeeded | src/sensitive-data-guard/guard-access.service.ts:34-46 | For all documents and each fenced document: a resolve that writes every other fence and only reads this one lets its deletion slip in between check and commit. |
| GuardFence.AdmissionRate | src/sensitive-data-guard/guard.service.ts:68-95 | In every interleaving of admissions, the set of jobs a company created in any closed 60 seconds has at most ten elements. |
| GuardFence.AdmitsExactly | src/sensitive-data-guard/guard.service.ts:81-95 | A resolved transaction is refused exactly when its snapshot holds ten jobs of the company from the last minute. |
| GuardHistory.JobIsAsSubmitted | src/sensitive-data-guard/guard.service.ts:93-113 | In every run each job has the request, fingerprint, kind and time of the one authorised submission that created it. |
| GuardHistory.SubmitsExactly | src/sensitive-data-guard/guard.service.ts:61-105 | Which answer submit gives, in terms of the stored jobs: refused, replayed or in conflict, limited, busy or created. |
| GuardHistory.SubmissionStores | src/sensitive-data-guard/guard.service.ts:93-115 | A created job is stored as it was asked for, with one event, and nothing else changes. |
| GuardHistory.JobRate | src/sensitive-data-guard/guard.service.ts:81-91 | In every run no closed minute holds more than ten jobs of a company. |
| GuardHistory.FindingsArePublished | src/sensitive-data-guard/guard.worker.ts:273-291 | In every run the stored findings of a completed scan are those of the publication that completed it. |
| GuardHistory.PublicationStores | src/sensitive-data-guard/guard.worker.ts:252-327 | A publication by the lease holder stores every finding once and in order, completes the job and changes no other. |
| GuardHistory.UnheldWritesNothing | src/sensitive-data-guard/guard.worker.ts:171-180 | Without the unexpired lease, no write of a worker changes anything. |
| GuardHistory.HeldFails | src/sensitive-data-guard/guard.worker.ts:328-359 | A failure reported with the lease is recorded once, with its event. |
| GuardHistory.LeaseHolds | src/sensitive-data-guard/guard.worker.ts:80-101 | For two minutes from the claim, in every run, nobody but the holder or an authorised cancellation takes the job away. |
| GuardHistory.CancelEnds | src/sensitive-data-guard/guard.service.ts:211-255 | An authorised cancellation of an active job leaves it cancelled for good; any other changes nothing. |
| GuardHistory.ExpiredIsRecovered | src/sensitive-data-guard/guard.worker.ts:361-415 | A job whose lease has run out is put back, or failed after its third attempt, by one read and one write of recover. |
| GuardHistory.StaleRecoveryWritesNothing | src/sensitive-data-guard/guard.worker.ts:373-400 | recover writes nothing when the lease it read is no longer the job's or has not run out. |
| GuardHistory.SanitizationSucceeds | src/sensitive-data-guard/guard-sanitization.service.ts:243-349 | Undisturbed, claim, pin, PUT and publication end with the copy and the object that was written. |
| GuardHistory.NoObjectIsForgotten | src/sensitive-data-guard/guard-sanitization.service.ts:363-416 | In every run, once its job has ended, cleanup can select whatever was ever sent to the object store and deletes it unless the copy exists. |
| GuardHistory.OnlyEndedJobsAreSelected | src/sensitive-data-guard/guard-sanitization.service.ts:366-378 | Cleanup selects only sanitizations that have ended. |
| GuardHistory.RemovalSucceeds | src/files/files.service.ts:200-222 | Undisturbed, removing a copy leaves neither row nor object, but the tombstone of its job. |
| Entitlements.StepFits | src/subscriptions/entitlements.service.ts:38-88 | One serial transaction keeps the workspace within its plan and any queued plan, iff it is not an overbooking resend. |
| Entitlements.ResendFits | src/invitations/invitations.service.ts:176-226 | A resend that overlaps no other transaction keeps the limits iff it does not revive an invitation that expired after its clock reading while the seats are taken. |
| Entitlements.RunFitsExactly | src/subscriptions/entitlements.service.ts:38-88 | Over every clocked run of serial transactions the workspace always fits iff no resend of the run overbooks. |
| Entitlements.PromptResendsFit | src/invitations/invitations.service.ts:176-226 | Over serial transactions, from registration on, the workspace always fits when resends commit at the clock reading they took. |
| Entitlements.StaleResendOverbooks | src/invitations/invitations.service.ts:186-204 | A clocked run from registration ends with eleven seats out of ten through a delayed resend. |
| SeatRaces.RacesFitExactly | src/invitations/invitations.service.ts:176-226 | With every overlap of transactions that the subscription lock permits, the workspace fits its current and queued plan after every commit of every timely run iff resends commit at their own clock reading and no counting transaction reads the clock after its snapshot: both delays are 0. |
| SeatRaces.PromptRaceFits | src/subscriptions/entitlements.service.ts:38-88 | With both delays 0, no overlap of counting transactions with resends, revocations and deletions outgrows the plan, from any fitting account. |
| SeatRaces.MergedFits | src/subscriptions/entitlements.service.ts:38-88 | What a counting transaction merges into a later state still fits, as long as its snapshot held every seat that is live at the commit. |
| SeatRaces.LateResendOverbooks | src/invitations/invitations.service.ts:186-204 | One millisecond between the reading and the commit of a resend is enough to outgrow the plan. |
| SeatRaces.LateReadingOverbooks | src/payments/payments.service.ts:162-191 | A plan request that reads the clock one millisecond after its snapshot counts a renewed invitation as expired, and the plan no longer fits. |
| CompanyStore.Company.constructor | src/subscriptions/subscriptions.service.ts:43-60 | A new company is on Free, fits at all times and has consistent accounting. |
| CompanyStore.Company.Invite | src/invitations/invitations.service.ts:51-121 | The in-place invitation equals the specification and keeps the limits. |
| CompanyStore.Company.Resend | src/invitations/invitations.service.ts:176-226 | The in-place resend equals the specification and keeps the limits iff it does not overbook. |
| CompanyStore.Company.Revoke | src/invitations/invitations.service.ts:154-174 | The in-place revocation equals the specification and keeps the limits. |
| CompanyStore.Company.Accept | src/invitations/invitations.service.ts:228-307 | An accepted invitation was pending and unexpired; its address joins and nothing else changes; limits are kept. |
| CompanyStore.Company.RecordFileUploads | src/subscriptions/entitlements.service.ts:167-240 | A recorded upload adds its files and the price among all stored files to its own period only; limits and accounting are kept. |
| CompanyStore.Company.ChangePlan | src/subscriptions/subscriptions.service.ts:115-178 | The in-place plan change equals the specification and keeps the limits. |
| CompanyStore.Company.RequestPlan | src/payments/payments.service.ts:528-581 | The in-place plan request equals the specification and keeps the limits. |
| CompanyStore.Company.SettlePlan | src/payments/payments.service.ts:874-924 | Access is granted exactly to a collected, not unpaid plan that fits, or to Free when all has ended and it fits. |
| CompanyStore.Company.ApplyCanonical | src/payments/payments.service.ts:864-974 | Plan and access follow the provider exactly when paid for, or ended, and suited; limits are kept. |
| CompanyStore.Company.ResetCheckout | src/payments/payments.service.ts:327-368 | Unlinking an ended subscription drops its pending plan and leaves a paid plan without payment access at any time; a workspace that fits still does. |
| CompanyStore.Company.LinkSubscription | src/payments/payments.service.ts:1392-1401 | After linking a new subscription, taking over Premium stores the meter start of that subscription, whatever was stored before. |
| Transactions.InvitesExactly | src/invitations/invitations.service.ts:51-121 | Who can be invited: with access, within both plans, and to an address that is neither a member nor invited. |
| Transactions.InvitationIsSent | src/invitations/invitations.service.ts:51-121 | invite adds one pending invitation for 72 hours and marks only expired ones to the same address. |
| Transactions.ResendsExactly | src/invitations/invitations.service.ts:176-226 | resend renews a pending invitation for 72 hours from its reading, at most once a minute, and nothing else. |
| Transactions.RevokesExactly | src/invitations/invitations.service.ts:154-174 | revoke takes effect exactly on a pending invitation. |
| Transactions.AcceptsExactly | src/invitations/invitations.service.ts:228-307 | accept turns exactly one pending seat into a member with the invited address, under exactly these conditions. |
| Transactions.InvitationsWereSent | src/invitations/invitations.service.ts:51-226 | In every run each invitation was sent to its address and expires 72 hours after its last sending. |
| Transactions.MembersWereInvited | src/invitations/invitations.service.ts:228-300 | In every run each member accepted an invitation sent to its address before. |
| Transactions.LeavingFreesSeats | src/subscriptions/entitlements.service.ts:68-80 | A leaving member frees one seat, a deleted file one place, and the removal of expired invitations takes no pending seat. |
| Transactions.ChangesExactly | src/subscriptions/subscriptions.service.ts:115-178 | Without payments a plan changes exactly when the workspace suits it and nobody else manages it. |
| Transactions.RequestsExactly | src/payments/payments.service.ts:528-581 | With payments a plan is only queued, under exactly these conditions; Free needs no subscription. |
| Transactions.SynchronizesExactly | src/payments/payments.service.ts:874-922 | The reported plan and access are taken over exactly when paid for, or ended, and suited; access lasts a day and closes while something has to be reconciled. |
| Transactions.SynchronizationRecords | src/payments/payments.service.ts:922-960 | What else a synchronization records: issue, queued plan, confirmation, and the meter start when Premium begins. |
| Transactions.UnpaidIsSuspended | src/payments/payments.service.ts:890-922 | While a live subscription is not being paid for, the plan stays and access is closed at every time. |
| Transactions.OpenPlansArePaid | src/payments/payment-policy.ts:6-28 | In every run with payments, a paid plan is open only if the last report, at most a day old, said that this plan is being paid for. |
| Transactions.AccessIsClosed | src/payments/payment-policy.ts:11-28 | Access without payments, and how an open reconciliation, a missing report or switching payments off closes it. |
| Transactions.UploadsRecord | src/subscriptions/entitlements.service.ts:193-240 | A recorded upload adds its files, and the price of each file beyond the allowance among all stored files, to the period that contains it and to no other, with at most one usage row. |
| Transactions.UploadsExactly | src/subscriptions/entitlements.service.ts:167-240 | The conditions under which an upload is recorded, both ways. |
| Transactions.PeriodsAreSumsOfUploads | src/subscriptions/entitlements.service.ts:212-239 | In every run a period's counts are the sums over its uploads, each at the price of its moment. |
| Transactions.TimestampIsNearest | src/payments/payments.service.ts:1007-1021 | A usage row is stamped with the minute of its upload or the nearest one between the starts and the end of the meter window. |
| UsageAccounting.InvoiceMatchesPeriod | src/payments/payments.service.ts:1159-1190 | After any run, the units reconcileDraft finds in the window of a whole period's line, times 50, are the cents recorded for that period while Stripe managed it. |
| UsageAccounting.ConservationExactly | src/payments/payments.service.ts:1159-1162 | For whole periods that equality holds in all clocked runs iff the activation has nonzero seconds or zero milliseconds. |
| UsageAccounting.LastMinuteUploadIsLost | src/payments/payments.service.ts:1159-1162 | Otherwise a clocked run with a whole-second meter start and an upload in the last minute of the first period misses that line. |
| UsageAccounting.RunKeepsAccounting | src/subscriptions/entitlements.service.ts:167-240 | Every run keeps outbox, periods and sequences consistent. |
| UsageAccounting.ReachableRowsAreBillable | src/subscriptions/billing.service.ts:36-51 | No reachable period row makes calculate report inconsistent accounting. |
| UsageAccounting.IdentifiersAreUnique | src/payments/payments.service.ts:1022-1036 | Outbox identifiers are unique because the per-period sequence strictly increases. |
| UsageAccounting.RowInInvoiceWindow | src/payments/payments.service.ts:1007-1021 | A row's timestamp lies in the window of a whole period's line iff it was recorded for that period. |
| UsageAccounting.InvoiceSum | src/payments/payments.service.ts:1161-1171 | For every activation, summing by the timestamp window of a line that starts anywhere in a period is summing the rows of that period inside it, and those of the period before that fall into the minute before the meter window. |
| UsageAccounting.LineMatchesExactly | src/payments/payments.service.ts:1159-1190 | For every activation, the line from the stored meter start or the start of the period bills the period's metered cents iff the units it loses at its edges are those it takes from the period before, and the cents metered since the meter start iff what it loses of them is what it bills of earlier rows; where line and meter window agree: iff all rows of the period, or no earlier ones, are inside. |
| UsageAccounting.AnyLineExactly | src/payments/payments.service.ts:1159-1171 | A line from any moment on bills the metered cents of its period iff its units outside the line equal those of the period before inside; unless it opens in the minute before the meter window, iff all rows of the period are inside. |
| UsageAccounting.RowsSinceMeterStart | src/payments/payments.service.ts:1007-1021 | Over every run, each row recorded since the stored meter start is stamped no earlier than that start, and the stored start is a whole second. |
| UsageAccounting.ResubscribedLine | src/payments/payments.service.ts:1392-1401 | For every second at which a second subscription of the first period can start, a clocked run whose line misses a unit the period metered, or bills the unit of the first subscription when both fall into one minute edge. |
| Billing.OverageChargesFileByFile | src/subscriptions/billing.service.ts:85-109 | The BigInt formula charges each added file beyond the allowance once, or fails exactly on unsafe input. |
| Billing.OverageTelescopes | src/subscriptions/billing.service.ts:98-108 | Additional overage adds up over split batches. |
| Billing.OverageIsWholeUnits | src/subscriptions/billing.service.ts:106-108 | Additional overage is whole units and at most one per file. |
| Billing.CalculateAcceptsConsistentRows | src/subscriptions/billing.service.ts:17-83 | A bill is refused as inconsistent iff the row is not whole units of at most one per upload; otherwise it is exact or out of the safe range. |
| Metering.EdgesAgree | src/payments/payment.constants.ts:56-61 | Meter edge and invoice-line edge of an instant agree iff it is not in the first second of a minute past its start. |
| Metering.InvoiceWindowsAgree | src/payments/payments.service.ts:1159-1160 | The two windows agree for all periods of a company iff its activation has nonzero seconds or zero milliseconds. |
| Metering.TimestampInWindow | src/payments/payments.service.ts:1007-1021 | A timestamp is a whole minute not before its own window; it lies inside it iff the meter starts before the closing edge, and the upload is refused otherwise. |
| Calendar.BillingPeriodExact | src/subscriptions/billing-period.ts:1-30 | billingPeriod returns the anchored period containing `at` iff that period opens in the year 100 or later and closes before the end of the Date range. |
| Calendar.YearFiftyIsRefused | src/subscriptions/billing-period.ts:11-26 | A company activated in the year 50 is refused its own first period. |
| Calendar.PeriodsTile | src/subscriptions/billing-period.ts:27-29 | Periods tile time: an instant gives the same period iff it lies in it, and the end of each period is the start of the next. |
| Calendar.AnniversaryInMonth | src/subscriptions/billing-period.ts:15-25 | Without drift: the anniversary of month k lies in month k, on the activation day clamped to the month, at the activation time; a 31st returns after February. |
| Calendar.BillingPeriodIntended | src/subscriptions/billing-period.ts:27-29 | The returned period satisfies startsAt <= at < endsAt. |
| Calendar.BoundaryIsAnniversary | src/subscriptions/billing-period.ts:11-26 | The boundary function is the clamped anniversary of section 21.4.1 of ECMA-262 arithmetic. |
| Calendar.EffectiveMonthFixed | src/subscriptions/billing-period.ts:12-16 | The month Date.UTC understands is the intended one exactly from the year 100 on (and for Januaries before year 0). |
| Calendar.NoEarlierThanAnchor | src/subscriptions/billing-period.ts:27-28 | The second error is unreachable for supported activations. |
| Calendar.PeriodAtLeast28Days | src/subscriptions/billing-period.ts:29 | Every period lasts at least 28 days. |
| Calendar.MonthOfDayExact | src/subscriptions/billing-period.ts:10 | Month and day are recovered from the day number. |
| Calendar.TruncatedPeriodMatches | src/payments/payments.service.ts:827-845 | A period truncated to whole seconds passes validateRemote, and no other end does. |
| Attempts.AtMostOneResourcePerKey | src/payments/payments.service.ts:218-239 | Over all crashes, takeovers, repeated calls and forgotten keys, each idempotency key creates at most one resource, iff pause and call latency stay below one hour. |
| Attempts.SlowCreatesTwice | src/payments/payments.service.ts:231-237 | With an hour or more between check and arrival, a second resource is created. |
| Attempts.StoredResourceIsTheOne | src/payments/payments.service.ts:298-320 | The stored resource is the only one created with the stored key. |
| Attempts.PersistedStays | src/payments/payments.service.ts:318-320 | In every run, what the owner persisted stays stored until the next operation or persist. |
| Attempts.CreationSucceeds | src/payments/payments.service.ts:96-320 | Undisturbed, a new operation creates one resource under a new key and records it. |
| Attempts.RetrySucceeds | src/payments/payments.service.ts:218-239 | Undisturbed, a retry within the window records the resource of the earlier attempt and creates none. |
| Attempts.LateRetryIsRefused | src/payments/payments.service.ts:229-237 | After the window no call is allowed, and the owner records that reconciliation is required. |
| Attempts.LeaseLasts | src/payments/payments.service.ts:96-126 | In every run a lease stays with its holder for five minutes from its clock reading, unless the holder releases it. |
| Attempts.OnlyOwnerWrites | src/payments/payments.service.ts:134-160 | Without the lease a holder changes nothing in the document. |
| Attempts.RunKeepsInv | src/payments/payments.service.ts:397-445 | The invariant holds after every run. |
| Attempts.Document.Acquire | src/payments/payments.service.ts:96-133 | Acquires the lease iff it is free or expired, as the protocol step does. |
| Attempts.Document.Release | src/payments/payments.service.ts:127-132 | Only the holder's own lease is released. |
| Attempts.Document.NewOperation | src/payments/payments.service.ts:397-408 | A new operation resets key, first attempt and resource in one guarded write. |
| Attempts.Document.Attempt | src/payments/payments.service.ts:218-239 | Permission to call comes only with the first attempt on record and at most 23 hours old; a refusal by the holder records that reconciliation is required and changes nothing else. |
| Attempts.Document.Persist | src/payments/payments.service.ts:318-320 | The created resource is stored, and nothing else, iff the token still holds; otherwise nothing changes. |
| DeliveryGuarantees.CountedAtMostOnce | src/payments/payments.service.ts:1039-1102 | Metered usage is counted at most once in every run, iff stale-stamp gain, pause and latency together stay below one hour. |
| DeliveryGuarantees.SubmittedIsCounted | src/payments/payments.service.ts:1091-1100 | SUBMITTED implies counted with exactly its quantity, whatever the timing. |
| DeliveryGuarantees.SubmittedExactly | src/payments/payments.service.ts:1068-1100 | With prompt holders the provider's total for a submitted row is its quantity, and never more for any row. |
| DeliveryGuarantees.FinalStatesAreFinal | src/payments/payments.service.ts:1046-1100 | SUBMITTED and RECONCILIATION_REQUIRED are absorbing in every run iff no holder acts as late as a lease after its last confirmation. |
| DeliveryGuarantees.LateFinishReopens | src/payments/payments.service.ts:1091-1100 | The unconditional write of a holder paused for a lease turns a given-up row into a submitted one. |
| DeliveryGuarantees.StaleStampCountsTwice | src/payments/payments.service.ts:1062-1066 | The unconditional stamp of a stale holder postpones the cut-off and has a row counted twice. |
| DeliveryGuarantees.SlowRetryCountsTwice | src/payments/payments.service.ts:1051-1061 | Pause and latency of an hour alone have a row counted twice. |
| DeliveryHistory.RowsAreAsEnqueued | src/payments/payments.service.ts:1022-1036 | In every run each row keeps the quantity and timestamp it was enqueued with, once. |
| DeliveryHistory.CountedInTime | src/payments/payments.service.ts:1051-1061 | In every run usage is counted at most 35 days after its timestamp, but for one pause and one latency. |
| DeliveryHistory.AcquiresExactly | src/payments/payments.service.ts:96-126 | The lease is acquired exactly when it is free or has run out, for five minutes. |
| DeliveryHistory.RenewalKeepsLease | src/payments/payments.service.ts:1039-1050 | A renewal confirms the owner for five minutes in which nobody else acquires the lease; another holder is turned away. |
| DeliveryHistory.DeliverySucceeds | src/payments/payments.service.ts:1039-1100 | Undisturbed, a pending row that is not overdue is counted once with its quantity and marked. |
| DeliveryHistory.OverdueIsGivenUp | src/payments/payments.service.ts:1051-1061 | An overdue row is given up, reconciliation is required and no call is made. |
| UsageDelivery.RunKeepsInv | src/payments/payments.service.ts:1039-1102 | The invariant holds after every run. |
| UsageDelivery.StampIsEarly | src/payments/payments.service.ts:1062-1066 | A stale stamp comes at most pause minus lease after any call made for the row. |
| UsageOutbox.Outbox.Deliver | src/payments/payments.service.ts:1051-1101 | One pass of the loop is a run of the protocol, leaves the row as specified and records a given-up row on the subscription. |
| UsageOutbox.Outbox.SubmitUsage | src/payments/payments.service.ts:1039-1102 | The undisturbed loop is a run of the protocol; it handles the rows in order up to the first missing answer and touches no other. |
| Downgrade.CleanedFits | src/subscriptions/downgrade-cleanup.service.ts:56-92 | A cleaned workspace passes the checks of the plan change that follows. |
| Downgrade.CleanedKeepsMost | src/subscriptions/downgrade-cleanup.service.ts:80-92 | No selection that fits keeps more files, more employees or more seats. |
| Downgrade.CleanedIsStable | src/subscriptions/downgrade-cleanup.service.ts:80-92 | A workspace that fits is left as it is. |
| Downgrade.PreviewShowsEverything | src/subscriptions/downgrade-cleanup.service.ts:93-104 | Two previews agree exactly when plans, files, members and invitations do, in order. |
| Downgrade.StoppedKeepsNewest | src/subscriptions/downgrade-cleanup.service.ts:152-163 | Wherever the reverse loop stops, a newest-first prefix with all files to keep, and their objects, is left. |
| Downgrade.RerunEndsTheSame | src/subscriptions/downgrade-cleanup.service.ts:149-163 | A rerun after a stop ends where an undisturbed cleanup would have. |
| Downgrade.Workspace.DeleteFiles | src/subscriptions/downgrade-cleanup.service.ts:152-163 | Whatever files others add or delete, the loop removes those of its files that are still there, last first and each object before its row, and finishes when it may spend two operations for each. |
| Downgrade.UndisturbedStops | src/subscriptions/downgrade-cleanup.service.ts:152-163 | Without others, wherever the loop stops the newest files are left, and at most one of them without its object. |
| Downgrade.FilesLeft | src/subscriptions/downgrade-cleanup.service.ts:149-163 | Whatever others do, at most the files to keep and files uploaded meanwhile are left. |
| Downgrade.Workspace.Cleanup | src/subscriptions/downgrade-cleanup.service.ts:129-199 | Whatever others do to files, members and subscription while files are deleted, each outcome has exactly its cause and effect: exactly the confirmed files, members and invitations go, or no member does, and then the plan changes or is refused. |
| Downgrade.Workspace.RemoveMembers | src/subscriptions/downgrade-cleanup.service.ts:164-189 | The transaction removes the surplus iff it is still the confirmed one. |
| Downgrade.ClosingChange | src/subscriptions/downgrade-cleanup.service.ts:198 | The closing plan change takes or queues the lower plan, or is refused for a missing checkout, another queued plan or too many files, and never for members. |
| Downgrade.UndisturbedCleanup | src/subscriptions/downgrade-cleanup.service.ts:129-199 | Undisturbed, a cleanup that gets to its plan change leaves the cleaned workspace, and the change is not refused for what is stored. |
| Downgrade.AcceptanceIsNoticed | src/subscriptions/downgrade-cleanup.service.ts:165-176 | The transaction notices an acceptance made meanwhile iff its invitation was to be revoked. |
| FileStore.RowsHaveObjects | src/files/files.service.ts:74-141 | In every run a committed row not under deletion has its object. |
| FileStore.SuccessIsDurable | src/files/files.service.ts:74-104 | A successful upload is committed and stored until it is deleted. |
| FileStore.CompensatedNeverAppears | src/files/files.service.ts:105-140 | Compensation deletes an object only if its row does not and will never exist. |
| FileStore.MissingRowProvesNothing | src/files/files.service.ts:105-131 | After an uncertain commit the read may find no row and the commit still land, so deleting the object then would lose the object of a committed row. |
| FileStore.Files.UploadFile | src/files/files.service.ts:74-141 | The handler is a run of the protocol for every ending of its transaction; it succeeds iff it knows of the commit and deletes the object only after a clean abort. |
| FileStore.Files.DeleteFile | src/files/files.service.ts:191-222 | The handler is a run of the protocol wherever it stops: nothing changes for a missing file or an actor without permission; a derived file leaves its tombstone first, then the object goes, then the row. |
| Conversations.CountIsStoredMessages | src/ai/ai.service.ts:548-642 | In every interleaving `messageCount` is the number of stored messages, even and within the limit. |
| Conversations.MessagesBelong | src/ai/ai.service.ts:312-345 | Every message has its conversation and usage row; a request stores at most one message of each role. |
| Conversations.CommitsOnce | src/ai/ai.service.ts:561-642 | A request commits at most one exchange; its usage row never changes. |
| Conversations.CommittedAnswerIsRecovered | src/ai/ai.service.ts:671-712 | After a lost acknowledgement the answer is recovered iff it was committed and its conversation still exists. |
| Conversations.ExchangeIsStored | src/ai/ai.service.ts:571-612 | In every run a usage row comes from one transaction of its request, whose question and answer are stored one after the other as long as the conversation exists. |
| Conversations.AcquiresExactly | src/ai/ai.service.ts:384-401 | A request gets a conversation exactly when it is free and has room for one exchange. |
| Conversations.PersistsExactly | src/ai/ai.service.ts:561-642 | The transaction commits exactly when its request still holds the conversation, and hands it back. |
| Conversations.FinishReleases | src/ai/ai.service.ts:239-270 | After its finally block a request holds no conversation, and an empty one it created is gone. |
| Conversations.DeletesExactly | src/ai/ai.service.ts:312-345 | A conversation is deleted exactly when nobody holds it, with its own messages only. |
| Conversations.ExchangeSucceeds | src/ai/ai.service.ts:548-642 | Undisturbed, a new conversation ends with its first exchange and is free. |
| Conversations.RunKeepsInv | src/ai/ai.service.ts:239-270 | Chat, expiry, deletion and cleanup keep the referential invariant. |
| Agent.RunAgent | src/ai/ai.service.ts:450-546 | Answers iff some round within the limit does with all its tools executed once and safe usage totals, which it returns; never repeats a fingerprint or exceeds the tool limit. |
| Agent.RunRound | src/ai/ai.service.ts:497-543 | A round succeeds iff all its calls are executable, new and within the limit, and replies to each in order. |
| Agent.OneReplyPerCall | src/ai/ai.service.ts:496-543 | The transcript has exactly one reply for each tool call. |
| Agent.TotalsAreSums | src/ai/ai.service.ts:725-756 | The totals are the plain sums of all rounds, and exist exactly when no sum ever left the safe integers. |
| Agent.TotalsNameModels | src/ai/ai.service.ts:740-741 | The totals name the models in order and the provider of the last round. |
| Agent.ContextHistory | src/ai/ai.service.ts:420-448 | The longest newest run that fits, oldest first; an invalid row it has to look at is an error. |
| Luhn.Luhn | src/sensitive-data-guard/detectors.ts:7-20 | The loop accepts iff 13 to 19 digits, not all equal, pass the weighted-sum check of Annex B of ISO/IEC 7812-1. |
| Luhn.WeightedSum | src/sensitive-data-guard/detectors.ts:9-18 | The right-to-left loop computes the recursive weighted sum for any length. |
| Luhn.SingleErrorDetected | src/sensitive-data-guard/detectors.ts:9-19 | Every single-digit change is detected. |
| Luhn.TranspositionDetected | src/sensitive-data-guard/detectors.ts:9-19 | An adjacent transposition is undetected iff it swaps 0 and 9 or equal digits. |
| Luhn.CheckDigitIsUnique | src/sensitive-data-guard/detectors.ts:19 | Each prefix has exactly one check digit. |
| Luhn.CompletedByCheckDigit | src/sensitive-data-guard/detectors.ts:7-20 | A prefix is completed to an accepted number iff by that digit (and not all equal). |
| Xlsx.ValidateXlsx | src/files/file-validation.ts:134-174 | Accepts exactly the buffers whose last end record points at that many encoded entries naming both parts; never reads out of bounds. |
| Xlsx.ParseExact | src/files/file-validation.ts:156-167 | The entry walk succeeds iff the bytes are the encoding of that many entries (section 4.3.12 of the PKWARE APPNOTE). |
| Xlsx.SerialisedArchiveAccepted | src/files/file-validation.ts:134-174 | Any serialised directory is accepted and its entries are recovered uniquely (sections 4.3.12 and 4.3.16). |
| Xlsx.DecodeEncoded | src/files/file-validation.ts:157-165 | An encoded entry decodes to itself. |
| Xlsx.EncodeDecoded | src/files/file-validation.ts:157-165 | Decoding an entry loses nothing. |

## Left out

- UsageOutbox.Outbox.SubmitUsage: runs without pauses; interleaved holders are the subject of UsageDelivery, which also lets rows be handled in any order and number.
- UsageOutbox.Outbox.Deliver: runs without pauses, for the same reason.
- Downgrade.Workspace.Cleanup: failures of the membership transaction itself and what happens between it and the plan change, or after its local transaction, are not modelled.
- GuardQueue.Guard.Submit: the role and file-type checks before admission and the eligibility checks of a sanitization are one authorisation flag.
- SeatRaces.RacesFitExactly: uploads, which take the lock and count files only, are serial steps.
- Conversations.CountIsStoredMessages: the limit of conversations per user is not modelled, because no lock protects it.
- Agent.RunAgent: request ids and the time limit are not modelled; a completion that is not well formed counts as unavailable.
- Calendar.BillingPeriodExact: an Invalid Date is an argument without a value; other non-Date arguments are not modelled.
- Metering.TimestampInWindow: division by 60000 is exact; the rounding of binary fractions in `Math.ceil` is not modelled.
- Entitlements.StepFits: email addresses used in other companies are not modelled; they can only refuse an invitation or an acceptance.
- UsageAccounting.RunKeepsAccounting: a transaction callback that MongoDB repeats starts from the stored account again; changes it made to an in-memory document are not modelled.
- Guard phases, progress counters, sheet counts and the delay of `cleanupAfter` are not modelled: nothing is decided by them but when cleanup tries again.
- The workbook scanner and sanitizer, `detect`'s patterns, and process isolation are an arbitrary result with a digest.
- Stripe, S3, SMTP, the AI providers, password hashing and sessions are environments with the assumptions named above.
- Controllers, DTOs, list and dashboard queries, the frontend, maintenance scripts, logging and HTTP status codes.
- Subscription schedules at the provider, verification of finalized invoices and webhook event records: each is a single guarded write.
- Liveness: workers and providers may never act; only that a job changes finitely often is proved.
