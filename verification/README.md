# A verified model of the payment gateway

The gateway keeps payments, refunds, webhook events and an audit log in a database, talks to a payment
provider, and takes the provider's webhooks. Five requests write one status field, events arrive
duplicated and out of order, nothing is locked, and the memory of processed events is evicted. This
project models that ledger, and the reconciliation, rate limiting, idempotency and scheduling code beside
it, and proves what holds over whole runs.

`dafny verify dfyconfig.toml` checks everything.

## The ledger

- `Ledger`: the tables, column lookups and refund sums. `Webhooks`: the transition table and the seven
  handlers, each a function from the tables it reads to the effect it has. `StatusMaps`: how provider
  words become statuses.
- `Requests`: every request cut in three: what it reads (`Begin`), what it does with the provider's answer
  (`Continue`), and what it commits (`Commit`). `Serve` is one request run alone.
- `Services`: class `Session`, the services as they are written, assigning columns step by step, with
  get_db's commit or rollback around them; each method is proved to do what `Serve` says.
- `WebhookOutcomes` and `RequestOutcomes`: what each kind of signed event, from its type string, and each
  other request does to the whole tables, which error it raises and what it asks of the provider, stated by
  literal statuses and columns and without the functions above.
- `Interleaving`: any number of requests in flight, each reading, calling the provider and committing in
  separate steps, abandoned anywhere, with the cleanup job in between; one invariant of every step.
  `Safety` draws the consequences for all reachable states, among them that serial service is such a run.
- `Transitions`: exactly when a webhook, a confirm or a cancel moves a status against the transition table.
- `RefundRaces`: exactly when one refund among other requests takes the recorded total over the amount.
- `RefundReports`: which references a verified event carries, and exactly when a full refund that is asked
  for and then reported leaves its payment `refunded`.
- `Hazards`: runs that show which stronger promises fail: statuses that move backwards with and without
  concurrency, a full refund that stays partial, and the refund bound attained.
- `ExactlyOnce` and `EventOrder`: duplicated, failed, retried, forgotten and reordered webhooks.

A few conventions. A row of `payments` or `refunds` is identified by its insertion index, since such rows
are never deleted. `webhook_events` is a map keyed by its UNIQUE event id. A request sees one snapshot and
writes only the columns whose value it changed, as SQLAlchemy does, against whatever is committed by then.
A missing and an empty provider reference both find nothing.

## What is assumed of the provider

`Interleaving.Honours` and `Interleaving.Accepts` state it: the provider remembers the call and the answer
of each idempotency key, gives the same answer to the same call and refuses any other call under that key;
every new intent and refund gets a non-empty identifier of its own; a created intent echoes amount and
currency and is neither succeeded nor canceled; confirming does not cancel; canceling answers `canceled`;
refund amounts are positive. `StatusMaps.ContractInWords` says which of the provider's words the status
part of this rules out.

## Where the code and its documentation differ

The model follows the code: no row locks, no `ON CONFLICT`, no handler for `charge.refund.updated`, no
status comparison in reconciliation, and `matched_count` is the second of the two formulas assigned to it.

`verify_webhook` takes the refund reference of charge.refunded from `data.object.id`
(src/paygateway/providers/stripe_provider.py:242-244). That object is the charge, so the reference is the
charge's identifier and not the refund's, although tests/e2e/test_refund_flow.py:177-184 has a mocked
`verify_webhook` return the refund's. A failed reconciliation marks its report and then raises, so the mark is
rolled back; the daily job swallows that error and therefore counts as a success for the scheduler
(src/paygateway/jobs/reconciliation.py:35-36).

What turned out false is shown at a concrete input or run, and beside it stands exactly what does hold:

- refunds recorded can exceed a payment's amount: `Hazards.BoundIsTight`; `Safety.RefundsAreBounded` and
  `Safety.GuardIsExact`, and `RefundRaces.RefundStaysWithin` for one refund among others.
- a status can move against the transition table: `Hazards.StatusCanMoveBackwards` and
  `Hazards.ReplayedConfirmMovesBackwards`; `Transitions.WebhookLeavesTable`, `RacingWebhooks`,
  `ConfirmLeavesTable` and `CancelLeavesTable`.
- a full refund that is reported need not end `refunded`: `Hazards.FullRefundStaysPartial`;
  `RefundReports.FullRefundEndsRefunded` and `FullRefundReportedByItsCharge`.
- `matched_count` undercounts: `Reconciliation.MatchedCountMisses`; `Reconciliation.MatchedCountIsLow`.
- adjacent ranges need not add up: `RangeSplitting.PiecesCanReportMore`; `RangeSplitting.RangesAddUp` and
  `DailyRunsTileTime`.
- the daily job need not reconcile every day: `DailyJob.LateRunLosesADay`; `DailyJob.SuccessiveWindows` and
  `LostDays`.
- the order of events matters, and a redelivery does not change that: `EventOrder.RefundBeforeSuccessIsLost`;
  `EventOrder.FinalStatus` and `OrderMattersOnce`.

## Model

| member | source | states |
|---|---|---|
| Ledger.Find | src/paygateway/services/webhook_service.py:88-95 | scalar_one_or_none: no row, the only row, or an error exactly when two rows share the value |
| Ledger.SumSplits | src/paygateway/services/payment_service.py:215-222 | refund sums over disjoint sets of rows add up |
| Ledger.SumGrows | src/paygateway/services/payment_service.py:215-222 | with no negative amount, a table that keeps its rows and counts no fewer of them sums to no less |
| Webhooks.HandleIgnoresEvents | src/paygateway/services/webhook_service.py:69-85 | what a handler does is independent of the event table |
| StatusMaps.PaymentWordsAreSafe | src/paygateway/providers/stripe_provider.py:22-30 | for each stored status exactly the provider's words that give it; any other word is stored as it is |
| StatusMaps.RefundWordsAreSafe | src/paygateway/providers/stripe_provider.py:32-37 | only `succeeded` makes a refund count, failed and canceled are stored as failed, any other word but pending as it is |
| StatusMaps.ContractInWords | src/paygateway/providers/stripe_provider.py:62-78 | an answer is within the assumed contract if and only if its word is none of the excluded ones, call by call |
| Services.Session.Request | src/paygateway/db/session.py:44-51 | one request is one transaction: its whole effect is committed when it returns, and the tables are what they were when it raises |
| Services.Session.ComputeRefundedAmount | src/paygateway/services/payment_service.py:215-222 | the loop totals the succeeded refunds of the payment and no others |
| Services.Session.CreatePayment | src/paygateway/services/payment_service.py:31-83 | a known key returns its row with nothing written; otherwise the provider's intent is stored under the key with one audit entry, or a provider error is raised |
| Services.Session.ConfirmPayment | src/paygateway/services/payment_service.py:131-169 | the provider's status and failure columns are stored, the confirmation stamp only on succeeded, whatever the transition table says |
| Services.Session.CancelPayment | src/paygateway/services/payment_service.py:172-212 | refused outside the three cancelable statuses; otherwise the provider's status and the cancellation stamp are stored |
| Services.Session.CreateRefund | src/paygateway/services/refund_service.py:31-94 | refused for a missing or unrefundable payment or above what is left; no amount means all that is left; the payment's status is not touched; a taken key rolls back |
| Services.Session.ProcessWebhook | src/paygateway/services/webhook_service.py:26-66 | a processed event is acknowledged without effect; any other is handled and its row marked processed, or the error goes up |
| Services.Session.DispatchEvent | src/paygateway/services/webhook_service.py:69-85 | each kind of event reaches its handler and an unknown kind none |
| Services.Session.HandlePaymentSucceeded | src/paygateway/services/webhook_service.py:103-120 | status, stamp and audit entry if the table allows the move, otherwise nothing |
| Services.Session.HandlePaymentFailed | src/paygateway/services/webhook_service.py:123-143 | status, failure code and message and audit entry if the table allows the move, otherwise nothing |
| Services.Session.HandlePaymentCanceled | src/paygateway/services/webhook_service.py:146-161 | status, stamp and audit entry if the table allows the move, otherwise nothing |
| Services.Session.HandleStatusOnly | src/paygateway/services/webhook_service.py:164-177 | the processing and requires_action handlers: the status alone, if the table allows the move |
| Services.Session.HandleChargeRefunded | src/paygateway/services/webhook_service.py:180-206 | the named refund is settled first, the succeeded sum with it decides between refunded and partially_refunded, and the sum is audited even if the status may not move |
| Services.Session.HandleDisputeCreated | src/paygateway/services/webhook_service.py:209-222 | disputed if the table allows the move, audited in any case |
| Services.Session.CleanupOldWebhookEvents | src/paygateway/jobs/cleanup.py:27-38 | exactly the processed rows created more than 90 days ago go, and their number is counted |
| WebhookOutcomes.SucceededIsReported | src/paygateway/services/webhook_service.py:103-120 | a new signed payment_intent.succeeded moves exactly pending, processing and requires_action payments to succeeded with the stamp and one audit entry; every other column, row and table is as it was but for the event's row |
| WebhookOutcomes.FailedIsReported | src/paygateway/services/webhook_service.py:123-143 | payment_intent.payment_failed likewise, to failed with the event's code and message |
| WebhookOutcomes.CanceledIsReported | src/paygateway/services/webhook_service.py:146-161 | payment_intent.canceled likewise, exactly pending and requires_action payments, with the stamp |
| WebhookOutcomes.WaitingIsReported | src/paygateway/services/webhook_service.py:164-177 | payment_intent.processing and requires_action move exactly pending payments and are not audited |
| WebhookOutcomes.RefundIsReported | src/paygateway/services/webhook_service.py:180-206 | charge.refunded settles the named refund, then moves succeeded and partially refunded payments by the sum with it; audited with the sum in any case |
| WebhookOutcomes.DisputeIsReported | src/paygateway/services/webhook_service.py:209-222 | charge.dispute.created moves exactly succeeded and partially refunded payments to disputed; audited in any case |
| WebhookOutcomes.OtherTypesAreRecorded | src/paygateway/services/webhook_service.py:80-83 | any of the other types is recorded as processed and nothing else changes |
| WebhookOutcomes.OrphansAreRecorded | src/paygateway/services/webhook_service.py:88-95 | so is an event of any type whose reference is missing, empty or unknown |
| WebhookOutcomes.AmbiguousIsRefused | src/paygateway/services/webhook_service.py:93-95 | a reference two payments share makes a handled event raise, and nothing changes |
| WebhookOutcomes.AmbiguousRefundIsRefused | src/paygateway/services/webhook_service.py:185-188 | so does a charge.refunded whose refund reference two refunds share |
| WebhookOutcomes.ProcessedIsDropped | src/paygateway/services/webhook_service.py:39-40 | a processed event is acknowledged and nothing changes |
| WebhookOutcomes.UnprocessedIsRetried | src/paygateway/services/webhook_service.py:52-63 | a known but unprocessed event is handled as if new, in its old row |
| WebhookOutcomes.FailedAmongOthers | src/paygateway/services/webhook_service.py:134-136 | committed to tables that moved on, payment_failed overwrites exactly the columns it found different |
| WebhookOutcomes.CleanupKeeps | src/paygateway/jobs/cleanup.py:27-35 | the cleanup keeps exactly the unprocessed rows and those of the last 90 days, as they were, and nothing else changes |
| RequestOutcomes.KnownKeyIsAnswered | src/paygateway/services/payment_service.py:39-42 | create_payment with a key one payment carries returns that payment and writes nothing |
| RequestOutcomes.SharedKeyIsRefused | src/paygateway/services/payment_service.py:39-40 | a key two payments carry raises and nothing changes |
| RequestOutcomes.NewKeyIsStored | src/paygateway/services/payment_service.py:44-83 | with a new key it asks for the amount and currency and stores exactly what is answered, status included, under the key, or raises |
| RequestOutcomes.CreatedAmongOthers | src/paygateway/services/payment_service.py:56-70 | the same among any other requests, and nothing if the key has got its row meanwhile |
| RequestOutcomes.ConfirmStores | src/paygateway/services/payment_service.py:140-169 | any payment can be confirmed; status, failure code and message are the answer's, the stamp is set only on succeeded |
| RequestOutcomes.ConfirmedAmongOthers | src/paygateway/services/payment_service.py:151-156 | among any other requests it overwrites exactly the columns whose answer differs from what it read |
| RequestOutcomes.CancelStores | src/paygateway/services/payment_service.py:181-212 | exactly pending, requires_action and processing payments are accepted; the answer's status and the stamp are stored |
| RequestOutcomes.CanceledAmongOthers | src/paygateway/services/payment_service.py:197-199 | among any other requests it stores canceled and the stamp over whatever status is committed by then |
| RequestOutcomes.RefundStores | src/paygateway/services/refund_service.py:41-94 | exactly succeeded and partially refunded payments are accepted, up to the amount less the succeeded refunds, which is what no amount asks for; each other case with its error; the refund is stored as answered and the payment is not touched |
| Ledger.RefundedSums | src/paygateway/services/payment_service.py:220-222 | a refund adds its amount to the sum of its own payment if it succeeded, and nothing otherwise |
| Interleaving.ContinueOk | src/paygateway/providers/stripe_provider.py:112-120 | an answer within the provider's contract never makes a request fail and leaves a plan the invariant allows |
| Interleaving.TxnIsStable | src/paygateway/services/refund_service.py:41-77 | what a request in flight relies on survives anything other requests commit |
| Interleaving.CommitOk | src/paygateway/migrations/versions/0001_create_initial_tables.py:19-78 | committing a plan made from an older snapshot keeps the tables sound, with the UNIQUE keys as the only check |
| Interleaving.StepKeepsInv | src/paygateway/db/session.py:44-51 | every step of every request, crash or job keeps the invariant, the immutable columns, the stamps, settled refunds and the audit log as a prefix |
| Interleaving.RunKeepsInv | src/paygateway/db/session.py:44-51 | the same over any interleaving of any length |
| Interleaving.RequestsEndOnce | src/paygateway/db/session.py:44-51 | a request that is committed, rolled back or abandoned is gone; abandoned or rolled back it changes no table |
| Safety.RefundedIsJustified | src/paygateway/services/webhook_service.py:185-199 | in every reachable state the succeeded refunds of a payment that is `refunded` cover its amount |
| Safety.StampsAreForever | src/paygateway/services/payment_service.py:151-153 | a paid status implies confirmed_at, `canceled` implies canceled_at, in that state and every later one |
| Safety.RefundsImplyConfirmed | src/paygateway/services/refund_service.py:43-46 | every refund row's payment has confirmed_at, forever after |
| Safety.CommittedEventsAreProcessed | src/paygateway/services/webhook_service.py:55-63 | no unprocessed event row is ever committed |
| Safety.ConcurrentDuplicateChangesNothing | src/paygateway/services/webhook_service.py:42-51 | of two deliveries of one event in flight together, the later commit changes nothing |
| Safety.OneChargePerKey | src/paygateway/services/payment_service.py:39-70 | every payment row carries the one intent its key ever created; no two rows share a key or an intent |
| Safety.OneRefundPerKey | src/paygateway/services/refund_service.py:58-77 | every refund row carries the one provider refund of its key, positive and at most the payment's amount; no two share a key or an identifier |
| Safety.HandlersNeverRaise | src/paygateway/services/webhook_service.py:88-95 | provider references are never ambiguous, so no handler raises in any reachable state |
| Safety.ReplayReturnsTheRow | src/paygateway/services/payment_service.py:39-42 | once a key has a row, create_payment with it returns that row and writes nothing, after any further run |
| Safety.ConcurrentCreationChangesNothing | src/paygateway/services/payment_service.py:69-70 | a creation in flight whose key got its row meanwhile changes nothing when it commits |
| Safety.ReplayedRefundChangesNothing | src/paygateway/services/refund_service.py:76-77 | once a key has a refund row, no refund in flight with that key changes the tables |
| Safety.OrphanIsAdopted | src/paygateway/providers/stripe_provider.py:113-117 | an intent whose request died before its commit is the one a replay stores, and no second one is created |
| Safety.InsertRefundIsBounded | src/paygateway/services/refund_service.py:48-56 | a refund that commits beside k refunds its guard did not subtract leaves the recorded total within k + 1 times the amount |
| Safety.RefundsAreBounded | src/paygateway/services/refund_service.py:48-77 | along any run whose refunds each commit beside at most k refunds not subtracted, the recorded total is at most k + 1 times the amount; with k = 0, the amount |
| Safety.GuardIsExact | src/paygateway/services/refund_service.py:48-56 | the guard admits exactly the amounts that keep all recorded refunds within the payment's amount if and only if every refund of the payment is settled |
| RefundRaces.RefundStaysWithin | src/paygateway/services/refund_service.py:41-77 | a refund among any other requests leaves the recorded total within the amount if and only if the refunds its guard did not subtract fit into what the guard had left beside it; with a taken key it changes nothing |
| RefundRaces.RecordedAfterInsert | src/paygateway/services/refund_service.py:48-56 | the recorded total is what the guard subtracted, plus what it overlooked, plus the refund |
| Safety.ServingIsARun | src/paygateway/db/session.py:44-51 | a request served alone is a run of the interleaved machine with the same tables at the end |
| Safety.EventsAreRecordedOnce | src/paygateway/services/webhook_service.py:39-51 | along any interleaved run each event is committed as often as its row was evicted, and once more if its row is still there |
| Safety.EvictionIsLate | src/paygateway/jobs/cleanup.py:28-33 | only a cleanup more than 90 days after its creation evicts a row, and the row was processed |
| RefundReports.VerifiedReferences | src/paygateway/providers/stripe_provider.py:236-254 | what a handled event refers to; only charge.refunded names a refund, by the identifier of its data object, the charge |
| RefundReports.UnnamedRefundStays | src/paygateway/services/webhook_service.py:185-190 | a refund no delivered event names by its identifier keeps the status first answered, along any run |
| RefundReports.SettlingAdds | src/paygateway/services/webhook_service.py:190-192 | settling a refund adds its amount to its own payment's sum unless it counted already |
| RefundReports.FullRefundEndsRefunded | src/paygateway/services/refund_service.py:51-52 | a refund with no amount, then reported by any charge.refunded of the payment, ends `refunded` if and only if the provider answered succeeded, or the event names the refund or an older one as large that had not succeeded; otherwise `partially_refunded` |
| RefundReports.FullRefundReportedByItsCharge | src/paygateway/providers/stripe_provider.py:242-244 | with the reference the gateway really takes, the charge's, it ends `refunded` if and only if the provider answered succeeded at once, and no refund changes |
| Transitions.StepLeavesTable | src/paygateway/db/session.py:44-51 | of all steps only a commit breaks the transition table, exactly when its plan clashes with the status committed by then |
| Transitions.WebhookLeavesTable | src/paygateway/services/webhook_service.py:98-100 | among any other requests, a webhook's commit breaks the table if and only if its event is not recorded yet and the status its guard let through clashes with the committed one |
| Transitions.RacingWebhooks | src/paygateway/services/webhook_service.py:98-100 | of two webhooks that read the same payment the later commit breaks the table if and only if both guards let a status through, they differ, and the table has no move from the first to the second |
| Transitions.UndisturbedWebhookFollowsTable | src/paygateway/services/webhook_service.py:98-100 | so a webhook commit keeps to the table if the payment kept the status that was read |
| Transitions.ConfirmLeavesTable | src/paygateway/services/payment_service.py:151 | a confirm's commit breaks the table if and only if the answer differs from the status first read and clashes with the committed one |
| Transitions.ConfirmAloneLeavesTable | src/paygateway/services/payment_service.py:142-151 | served alone, if and only if the answer, for a replayed key the remembered one, clashes with the payment's status |
| Transitions.CancelLeavesTable | src/paygateway/services/payment_service.py:183-197 | a cancel's commit breaks the table if and only if the payment is by then not canceled, pending or requires_action |
| Transitions.CancelAloneLeavesTable | src/paygateway/services/payment_service.py:183-197 | served alone, if and only if the payment is in `processing` |
| Hazards.StatusCanMoveBackwards | src/paygateway/services/webhook_service.py:103-114 | a run in which a processing webhook overwrites a committed succeeded |
| Hazards.ReplayedConfirmMovesBackwards | src/paygateway/services/payment_service.py:142-151 | a run without concurrency in which a confirm replayed with its key stores `processing` over a reported `succeeded` |
| Hazards.FullRefundStaysPartial | src/paygateway/services/webhook_service.py:185-199 | a run in which a full refund is reported by its charge and the payment ends `partially_refunded` with the refund pending |
| Hazards.BoundIsTight | src/paygateway/services/payment_service.py:220-222 | for every k a run whose recorded refunds total k + 1 times the amount, without any concurrency |
| ExactlyOnce.EventsTakeEffectOnce | src/paygateway/services/webhook_service.py:34-66 | duplicates, failures, retries and the cleanup notwithstanding, payments, refunds and audit log are those of handling each event's first successful delivery with no deduplication at all |
| ExactlyOnce.KeptAtMostOnce | src/paygateway/services/webhook_service.py:39-40 | the deliveries that count are deliveries of the run, with distinct events, and none of them failed |
| ExactlyOnce.AcknowledgedEventsAreKept | src/paygateway/services/webhook_service.py:55-66 | the events that count are exactly the acknowledged ones |
| ExactlyOnce.MemoryIsNinetyDays | src/paygateway/jobs/cleanup.py:28-33 | after a cleanup a processed event is recognised if and only if its row is at most 90 days old; otherwise a redelivery is handled again |
| ExactlyOnce.LateRedeliveryTakesEffect | src/paygateway/jobs/cleanup.py:27-35 | a processed event delivered again after a cleanup takes effect a second time exactly where its row was older than 90 days |
| ExactlyOnce.EventsAreAside | src/paygateway/services/payment_service.py:31-83 | requests other than webhooks neither read nor write the event table |
| EventOrder.EventsClimb | src/paygateway/services/webhook_service.py:17-23 | an event changes one payment's status at most, along the table and to a strictly higher rank |
| EventOrder.DeliveriesReact | src/paygateway/services/webhook_service.py:26-66 | delivering distinct new events one after the other is handling them, event rows aside; one that raises leaves nothing |
| EventOrder.DeliveriesAreFirsts | src/paygateway/services/webhook_service.py:39-40 | any deliveries do what handling the first one of each unknown event does, event rows aside |
| EventOrder.FirstsKeepEvents | src/paygateway/services/webhook_service.py:39-40 | dropping redeliveries drops no event but those known before |
| EventOrder.WebhookRunsMakeProgress | src/paygateway/services/webhook_service.py:17-23 | handling any number of events changes a status at most four times; a status without outgoing moves absorbs |
| EventOrder.DeliveriesMakeProgress | src/paygateway/services/webhook_service.py:34-66 | the same of any deliveries, repeated, dropped or failing |
| EventOrder.HandlersAreIdempotent | src/paygateway/services/webhook_service.py:103-222 | handling an event twice in a row, whatever the two times, leaves payments and refunds as once did |
| EventOrder.FinalStatus | src/paygateway/services/webhook_service.py:34-66 | from `pending`, after any deliveries with any redeliveries, the final status is a function of the final succeeded sum and of whether, among first deliveries, a charge.refunded follows a succeeded |
| EventOrder.OrderMattersOnce | src/paygateway/services/webhook_service.py:34-66 | deliveries permuted or repeated end in the same status if and only if their first deliveries agree on that one fact, and in the same refunds always |
| EventOrder.RefundBeforeSuccessIsLost | src/paygateway/services/webhook_service.py:39-40 | one success and one full refund: refunded in that order, succeeded with everything refunded in the other, and a redelivery of the refund's event does not heal it |
| Reconciliation.MatchingHolds | src/paygateway/providers/stripe_provider.py:263-269 | the range filter keeps exactly the intents in the whole-second range |
| Reconciliation.PageAdvances | src/paygateway/providers/stripe_provider.py:270-282 | a page continues where the cursor stands, and the next cursor stands after it |
| Reconciliation.EmptyCursorRestarts | src/paygateway/providers/stripe_provider.py:270-271 | an empty cursor asks for the first page again |
| Reconciliation.FetchIntents | src/paygateway/services/reconciliation_service.py:49-62 | for every page size the paging loop ends with the whole in-range list in the map; it fails if and only if a call it makes raises |
| Reconciliation.CallsCover | src/paygateway/services/reconciliation_service.py:51-62 | the calls it makes are just enough pages to cover the list |
| Reconciliation.InternalKeys | src/paygateway/services/reconciliation_service.py:36-47 | the gateway's keys are exactly the non-empty references of rows created from start to before end |
| Reconciliation.ProviderKeys | src/paygateway/providers/stripe_provider.py:263-269 | the provider's keys are exactly the ids of intents created in the whole seconds from start to before end |
| Reconciliation.LastRowIsCompared | src/paygateway/services/reconciliation_service.py:45-47 | of several rows with one reference the last one in the range is compared |
| Reconciliation.LastIntentIsCompared | src/paygateway/services/reconciliation_service.py:58-59 | of several intents with one id the last one listed is compared |
| Reconciliation.SecondsDropTheFraction | src/paygateway/providers/stripe_provider.py:264-267 | the range is asked for in seconds truncated towards zero |
| Reconciliation.CollectInternal | src/paygateway/services/reconciliation_service.py:36-47 | the loop builds the map of the in-range rows with a provider reference |
| Reconciliation.InternalHolds | src/paygateway/services/reconciliation_service.py:36-47 | the internal map has a key if and only if an in-range row carries it, and maps it to such a row |
| Reconciliation.CompareKeys | src/paygateway/services/reconciliation_service.py:66-97 | the loop lists, key by key, a missing intent or the amount and currency mismatches |
| Reconciliation.FindUnknown | src/paygateway/services/reconciliation_service.py:99-105 | the loop lists the intents no row knows |
| Reconciliation.DiffIsExact | src/paygateway/services/reconciliation_service.py:64-105 | every discrepancy of the two maps is listed, nothing else is, and nothing twice |
| Reconciliation.DiffLength | src/paygateway/services/reconciliation_service.py:117-118 | the count is the two one-sided key sets plus amount plus currency mismatches |
| Reconciliation.EmptyDiffMeansAgreement | src/paygateway/services/reconciliation_service.py:64-105 | the list is empty if and only if keys, amounts and currencies agree |
| Reconciliation.MatchedCountIsLow | src/paygateway/services/reconciliation_service.py:107-116 | the exact value of matched_count against the true one; never too high, and right if and only if nothing matches or the keys coincide and no key mismatches twice |
| Reconciliation.MatchedCountMisses | src/paygateway/services/reconciliation_service.py:114-116 | an input with one truly matched payment and a matched_count of 0 |
| Reconciliation.ReconciliationReport.Complete | src/paygateway/services/reconciliation_service.py:107-120 | the fields of a completed report |
| Reconciliation.ReconciliationReport.Run | src/paygateway/services/reconciliation_service.py:16-129 | a run reports on exactly the rows and intents of its range, or is marked failed, in its session, with its counters untouched when the provider raises |
| Reconciliation.ReportCounts | src/paygateway/services/reconciliation_service.py:107-120 | the stored totals count the references and the ids in the range; with no discrepancy all are matched |
| Reconciliation.ReportTable.Reconcile | src/paygateway/services/reconciliation_service.py:122-129 | a successful run commits its completed report; a failed one raises and commits nothing, so no stored report is ever failed or in progress |
| RangeSplitting.RangesAddUp | src/paygateway/services/reconciliation_service.py:36-62 | two adjacent ranges report the discrepancies of the whole if and only if no id has its two times on opposite sides of the cut |
| RangeSplitting.TotalsAddUp | src/paygateway/services/reconciliation_service.py:107-108 | the two totals of adjacent ranges always add up |
| RangeSplitting.PiecesCanReportMore | src/paygateway/services/reconciliation_service.py:36-62 | an input whose whole range has no discrepancy and whose two pieces have one each |
| RangeSplitting.WholeSecondCut | src/paygateway/providers/stripe_provider.py:264-267 | a cut at a whole second cuts the provider's side at the true time |
| RangeSplitting.DailyRunsTileTime | src/paygateway/services/reconciliation_service.py:36-62 | consecutive windows of a day report together what one run over all the days would if and only if no id has its two times on opposite sides of a midnight |
| DailyJob.WindowIsYesterday | src/paygateway/jobs/reconciliation.py:13-15 | the job's range is the whole calendar day before the one it runs on |
| DailyJob.SuccessiveWindows | src/paygateway/jobs/reconciliation.py:13-15 | runs between a day and a day and g apart have adjacent windows if and only if the first run's time of day plus the delay stays within the day; otherwise exactly one day lies between |
| DailyJob.StampedWindows | src/paygateway/jobs/scheduler.py:46-59 | the same of successive stamps of the job, with ticks at most g apart |
| DailyJob.LostDays | src/paygateway/main.py:26 | over any number of runs, the days never reconciled number exactly the whole days in the first run's time of day plus the accumulated drift |
| DailyJob.JobTilesTime | src/paygateway/jobs/reconciliation.py:13-27 | when no day is lost, the runs report together what one run from the first window's start to the last one's end would if and only if no id straddles a midnight |
| DailyJob.LateRunLosesADay | src/paygateway/jobs/reconciliation.py:13-15 | ticks of the scheduler after which a day is never reconciled |
| RateLimiter.InMemoryRateLimiter.IsRateLimited | src/paygateway/middleware/rate_limiting.py:15-35 | the decision and the headers are those of the full call history in the window, rejected calls included; other keys are untouched |
| RateLimiter.InMemoryRateLimiter.LogCall | src/paygateway/middleware/rate_limiting.py:16-22 | pruning and appending keep the log equal to the full history in the window |
| RateLimiter.CallIsRecorded | src/paygateway/middleware/rate_limiting.py:19-20 | on values: a pruned log that agrees with the history still agrees after a call on any key |
| RateLimiter.DecisionIsExact | src/paygateway/middleware/rate_limiting.py:19-35 | a call is limited if and only if the calls of its key in the window ending with it, itself and the rejected included, exceed its limit; remaining is the difference |
| RateLimiter.LimitsInForce | src/paygateway/middleware/rate_limiting.py:40-54 | the limit of every path: by prefix, and 120 without one |
| RateLimiter.TruncateDropsTheFraction | src/paygateway/middleware/rate_limiting.py:23 | the reset time is the end of the window without its fraction |
| RateLimiter.AdmissionIsBounded | src/paygateway/middleware/rate_limiting.py:19-35 | in any window at most b calls of a key with a limit of at most b are admitted, whatever other limits share the key |
| RateLimiter.RemainingIsAPromise | src/paygateway/middleware/rate_limiting.py:22-29 | after `remaining = r` the next r calls of the key with that limit or more are admitted at any later times |
| RateLimiter.KeyAdmitsAtMost300 | src/paygateway/middleware/rate_limiting.py:40-54 | with the limits in force a key gets at most 300 calls into any 60 seconds, whatever paths it calls |
| IdempotencyStore.IdempotencyService.CheckIdempotency | src/paygateway/services/idempotency_service.py:15-42 | nothing, the record or a conflict; an expired record is deleted |
| IdempotencyStore.IdempotencyService.StoreIdempotency | src/paygateway/services/idempotency_service.py:45-67 | the record is stored with its expiry, or the UNIQUE key refuses it |
| IdempotencyStore.IdempotencyService.CleanupExpired | src/paygateway/services/idempotency_service.py:70-75 | exactly the expired records go, the others stay as they were, and the number deleted is returned |
| IdempotencyStore.CleanDeletesTheExpired | src/paygateway/jobs/cleanup.py:15-21 | after a cleanup a key is in the table if and only if a check at that moment would find it |
| IdempotencyStore.CheckFreesTheKey | src/paygateway/services/idempotency_service.py:27-42 | a check that finds nothing leaves its key free, any other changes nothing, and no check touches another key |
| IdempotencyStore.StoredForItsHours | src/paygateway/services/idempotency_service.py:54-63 | a stored response is served for exactly its hours, to the same body, and conflicts with any other |
| IdempotencyStore.CleanupIsUnobservable | src/paygateway/jobs/cleanup.py:15-24 | cleanups anywhere in a trace change no answer, and no store preceded by an empty check hits the UNIQUE key |
| IdempotencyStore.ServedUntilExpiry | src/paygateway/services/idempotency_service.py:30-42 | until it expires, and not after, a record answers every check of its key, whatever operations come between |
| Scheduler.BackgroundScheduler.Register | src/paygateway/jobs/scheduler.py:26-27 | a new enabled job that never ran is appended |
| Scheduler.BackgroundScheduler.Tick | src/paygateway/jobs/scheduler.py:48-58 | exactly the due jobs are attempted, each once and in order, whatever fails; only the successful ones are stamped |
| Scheduler.StampsAreSpaced | src/paygateway/jobs/scheduler.py:52-55 | successive stamps are at least the interval apart |
| Scheduler.FailedJobIsRetried | src/paygateway/jobs/scheduler.py:53-58 | a job that failed is due again at the next tick |
| Scheduler.DueExactly | src/paygateway/jobs/scheduler.py:50-52 | a job is due if and only if it is enabled and never ran or ran at least its seconds ago |
| Scheduler.NeverStamped | src/paygateway/jobs/scheduler.py:50-58 | a job that is disabled or fails at every tick is never stamped |
| Scheduler.PunctualJob | src/paygateway/jobs/scheduler.py:47-59 | with ticks at most g apart, the stamps of a job that never fails are less than interval + g apart and never older than the interval at a tick |

## Left out

- HTTP routes, CORS, correlation ids, health checks, API keys, roles, logging, settings and the migrations beyond their UNIQUE and foreign keys.
- The Stripe SDK, webhook signature checks, error classes, the mapping of reasons and the `stripe_` prefix of keys: the provider is the environment described above.
- Columns that are only copied through (customer, metadata, client secret, description, updated_at, payload) and the actor, address and outcome of audit entries.
- Field lengths and the widths of integer columns: amounts and times are unbounded integers, and strings have no maximum.
- SQLAlchemy's identity map, and compute_refunded_amount's 0 when refunds are not loaded: refunds are loaded for rows read by a query.
- Two reads of one request seeing different committed states: each request reads one snapshot.
- Rows as objects with identity: a session's tables are sequences it reassigns.
- `list_payments`, `list_refunds_for_payment`, reports paging and the `get_*` lookups.
- The error text of a failed webhook or report, and the audit entry of a reconciliation.
- Body hashing: `_hash_body` is taken to be injective, so bodies are compared by their hash.
- Starting and stopping the scheduler, and how long a job runs: a tick's jobs are judged by the one time read at its start.
- How the rate key is derived from a request; the window is positive and fixed, and the clock does not go back.
- Safety.OrphanIsAdopted: replays with the amount and currency first sent; a replay that differs is refused by the provider.
- DailyJob.JobTilesTime: the rows and intents of a range do not change between the runs and the one run they are compared with, and a run reads its clock at its tick; a run whose report fails still counts as a run.
- Reconciliation.FetchIntents: on a list that does not change while it is fetched, with distinct, non-empty ids.
