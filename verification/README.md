# SiteScore: a verified model of finalization, paid orders and exact statistics

The project models the parts of SiteScore in which several processes, databases and providers have to
agree, and the exact arithmetic its scores rest on.

## What is modelled

**Analysis and report finalization** (`Lifecycle`, `Finalization*`). Worker attempts, pollers and the
periodic reconciler race around one analysis: two rows, an advisory lock, a deadline and an object store,
with crashes and lost commit acknowledgements between any two steps. `Finalization` is the step system,
`FinalizationInvariant` its inductive invariant, `FinalizationSafety` what follows in every reachable
state, `FinalizationRuns` runs that exist, and `FinalizationWorker` the attempt in the program's own
imperative form, proved to take exactly those steps.

**Submission** (`Submission`). Idempotent creation of analyses under repetition, interleaving and loss.

**The payment race** (`Orders`, `Lease`, `Payment*`). Stripe webhooks, event recovery and server polls
move orders from pending to paid or expired over shared tables; recovery writes are fenced by leases.
`PaymentStore` holds the transactions in place, `PaymentInvariant` and `PaymentSteps` the invariant over
all interleavings, `PaymentSafety` the results.

**Recovery** (`Recovery`, `RecoverySeeding`, `RecoveryRun`). Which orders a run admits and claims, and that
none is forgotten or starves; what a claim can end in, and that a run accounts for every claim.

**Fulfillment, refunds and delivery** (`Fulfillment*`). Any number of `advance` and `deliver` calls for one
order, interleaved step by step with each other, with crashes, and with what SiteScore, Stripe and Postmark
answer. `FulfillmentSafety` has what always holds, `FulfillmentSerial` what holds without overlapping advance
calls, and `FulfillmentConflicts` exactly when the rest fails. `FulfillmentStore` and `FulfillmentDriver` are the imperative forms. `Integration` puts fulfillment,
submission and finalization side by side and takes SiteScore's answers from SiteScore's own models.

**The exact mid-ECDF** (`Rationals`, `Sorting`, `Ecdf`) and **semantic records** (`SemanticRecord`).

The payment and fulfillment models meet in `Orders.FulfillmentMayWrite`: the payment protocol allows any
such write at any time, fulfillment is proved never to write otherwise, and in return the payment protocol
is proved never to touch a checkout row that fulfillment works on.

## Assumptions

- One `session.begin()` block, one read outside a block, and one provider or storage call are atomic steps.
- Finalization: a worker loses its advisory lock only when it stops (`LockLossDestroysReadyObject` shows
  that this is needed); a commit, put or delete is decided before the read that reconciles it; only report
  workers write the bucket. Production always configures a report generator.
- Payment: signatures are not forged, so an event id arrives with the envelope that was signed; claim tokens
  are new; the configuration is constant; SHA-256 yields 64 characters. Clocks are arbitrary.
- Fulfillment: the terminal state of an analysis never changes (`FinalizationSafety.TerminalRowsAreFrozen`
  proves this of SiteScore), and a report belongs to one analysis; Stripe honours idempotency keys, reports
  the amount it received truthfully, and nobody else uses this order's key. Two further assumptions are
  parameters of the model and demanded only by the theorems that name them: `serial` (advance calls of one
  order do not overlap) and `reportsStay` (a report never changes its state).
- Recovery scheduling: runs do not overlap and finish their claims inside the lease, the waiting order stays
  active, and until it is seeded nothing writes it; every write of an order carries the time of the write.
- Recovery runs: the tests a claim makes on rows and evidence are answered as such; their content is that of
  the payment protocol.
- Semantic records: Python's `repr` tells different records apart, and `float.hex` different floats; a class
  is known by its module and qualified name; subclasses of builtin types inherit comparison, `repr`, `hex`
  and iteration.

## Where expectation and code differ

- *Terminal report truth is immutable.* A report that readers saw as ready can still become failed
  (`FinalizationRuns.ReadyReportCanBeWithdrawn`). `FinalizationSafety.DemotionBeginsExactly` says exactly when
  this begins, `ReadyReportStays` that a report is otherwise safe, and `ReportIsLostIffDemoted` when it is lost.
- *Delivery and refund exclude each other.* They do if reports keep their state, and they do if advance calls
  do not overlap (`FulfillmentSafety.DeliveryExcludesRefund`,
  `FulfillmentSerial.DeliveryExcludesRefundThroughout`). With neither, an order can be delivered and then
  refunded, or refunded and then delivered (`FulfillmentRuns.WithdrawnReportIsDeliveredAndRefunded`,
  `FulfillmentRuns.RefundedOrderIsDelivered`). `FulfillmentConflicts.ExclusionHoldsIff` says exactly when it
  holds along a run; `RunContestsIff` and `ContestCanBreak`, beside it, trace every failure to the store of a
  report that contradicts what was begun, and show that each such store can lead to one.
- *Refunded is final* fails by stale writes of overlapping advance calls
  (`FulfillmentRuns.OverlapRevivesARefundedOrder`) and by deliveries that give up, because both write the order
  whatever its state is (`FulfillmentRuns.LateRejectionTakesBackARefund`). Exactly which steps do this is stated
  by `FulfillmentSafety.RefundedIsLeftExactly`.
- *At most one acceptance* fails when advance calls overlap (`FulfillmentRuns.OverlapAcceptsTwice`).
  `FulfillmentConflicts.AcceptanceIsRecordedExactly` says which steps record an acceptance,
  `WithoutReopeningNothingIsAccepted` that after one there is no other unless delivery is opened again, and
  `FulfillmentSafety.DeliveryIsReopenedOnlyByStaleReports` exactly which steps open it. Without overlap this
  and the previous property hold.
- *Records tell values apart.* An instance of a proper subclass of a builtin type has the record of the builtin
  value, as a named tuple has that of the tuple (`SemanticRecord.NamedTupleSharesItsRecord`), and what the
  subclass adds is not recorded; all NaNs have one record (`SemanticRecord.NansShareTheirRecord`). Where no
  such instance occurs, records are exact but for NaNs (`SemanticRecord.PlainRecordsAreExact`).
- *A run accounts for every claim.* Every run that returns does. A run raises exactly if one of its own four
  store calls raises, or if noting the failure of a claim raises in a way its handlers do not catch: anything
  after an unavailable payment provider, and anything but an unavailable store otherwise
  (`RecoveryRun.RecoveryService.RunOnce`).

## Model

| member | source | states |
|---|---|---|
| Lifecycle.AnalysisRecord.PersistNotScoreReady | sitescore-api/src/sitescore_api/lifecycle.py:216-242 | stores the readiness projection exactly for a live, unmarked row before its deadline; times the row out after it; otherwise leaves it alone |
| Lifecycle.AnalysisRecord.PersistCompleted | sitescore-api/src/sitescore_api/lifecycle.py:245-273 | stores, refuses, times out or raises exactly as terminal state, marker and deadline say; keeps an existing marker |
| Lifecycle.AnalysisRecord.RecordSuccessBoundary | sitescore-api/src/sitescore_api/worker.py:120-167 | the pre-deadline marker: when it protects, when it settles the row, when it leaves it, when it raises, and the row in each case |
| Lifecycle.ReconcileExpired | sitescore-api/src/sitescore_api/worker.py:847-869 | the reconciliation loop times out exactly the expired rows whose authority it won, leaves the others, and counts them |
| FinalizationInvariant.StorageKeyInjective | sitescore-api/src/sitescore_api/report_artifacts.py:196-197 | different consumers or analyses never share a storage key |
| FinalizationInvariant.WorkKeepsInv | sitescore-api/src/sitescore_api/worker.py:554-617 | one step of a live attempt, whatever is chosen for clocks, faults, commits and storage, keeps the invariant relating both rows, the lock, the bucket and every program point |
| FinalizationInvariant.StepKeepsInv | sitescore-api/src/sitescore_api/worker.py:673-846 | every event, including crashes, timeouts by pollers, restarts and foreign uploads, keeps the invariant |
| FinalizationInvariant.RunKeepsInv | sitescore-api/src/sitescore_api/worker.py:673-846 | so it holds along every run |
| FinalizationSafety.CompletedIffReported | sitescore-api/src/sitescore_api/report_artifacts.py:427-451 | an analysis is completed if and only if its report row exists, so `resolve` never reports an invariant violation |
| FinalizationSafety.ReadyRowIsServed | sitescore-api/src/sitescore_api/report_artifacts.py:467-507 | the object under a ready row's key has the recorded hash and length, and the content endpoint serves it unless storage itself fails or mislabels it |
| FinalizationSafety.ReadyObjectUntouched | sitescore-api/src/sitescore_api/report_artifacts.py:288-331 | no cleanup delete and no retry's upload ever hits the object a durable ready row names, although all attempts share the key |
| FinalizationSafety.TerminalRowsAreFrozen | sitescore-api/src/sitescore_api/lifecycle.py:173-198 | a terminal analysis row never changes in any field, under worker, retrieve and reconcile steps |
| FinalizationSafety.MarkedSuccessPrevails | sitescore-api/src/sitescore_api/worker.py:120-167 | once the marker is durable no run ends the analysis as timed out, failed or not score-ready, and marker < deadline stays true |
| FinalizationSafety.ConstraintsNeverAbort | sitescore-api/src/sitescore_api/db_models.py:67-110 | the check constraints of the table never abort a commit |
| FinalizationSafety.OwnerWritesAlone | sitescore-api/src/sitescore_api/lifecycle.py:68-81 | while an attempt owns the lock nobody else changes its rows or its object; a timeout is never published beside it |
| FinalizationSafety.OneAttemptAtATime | sitescore-api/src/sitescore_api/worker.py:673-707 | at most one attempt is alive, and it holds the lock |
| FinalizationSafety.AnswersAreDurable | sitescore-api/src/sitescore_api/worker.py:673-846 | the state an attempt answers with is the durable one |
| FinalizationSafety.ReconciliationIsExact | sitescore-api/src/sitescore_api/worker.py:237-282 | after a lost acknowledgement the re-read classifies exactly what happened; `completed_missing`, `conflict` and `missing` are unreachable |
| FinalizationSafety.DemotionBeginsExactly | sitescore-api/src/sitescore_api/worker.py:237-282 | an attempt begins to fail a report exactly when it lost the acknowledgement of its own pair, finds its own ready row in the database, and the storage metadata cannot be read or names another content type than a PDF |
| FinalizationSafety.ReportRowChangesOnlyByDemotion | sitescore-api/src/sitescore_api/worker.py:331-398 | a report row keeps its id and changes in one step exactly when such a demotion commits, and then to its failed form |
| FinalizationSafety.ReadyReportStays | sitescore-api/src/sitescore_api/worker.py:554-617 | a ready report stays ready along every run in which no demotion begins |
| FinalizationSafety.LostReadyCommitCanFail | sitescore-api/src/sitescore_api/worker.py:366-398 | and once one begins, a single further step can fail the report |
| FinalizationSafety.ReportIsLostIffDemoted | sitescore-api/src/sitescore_api/worker.py:331-398 | along a run a ready report is lost if and only if the run contains a committed demotion |
| FinalizationSafety.FailedReportIsFrozen | sitescore-api/src/sitescore_api/worker.py:331-398 | a failed report row never changes again |
| FinalizationSafety.AttemptsEnd | sitescore-api/src/sitescore_api/worker.py:366-398 | every attempt ends within forty steps, bounded retries included |
| FinalizationRuns.RetryCompletes | sitescore-api/src/sitescore_api/worker.py:554-617 | however many attempts crashed before, one undisturbed attempt completes a marked analysis with a readable report, at any time |
| FinalizationRuns.ReadyReportCanBeWithdrawn | sitescore-api/src/sitescore_api/worker.py:366-398 | a run in which a report that readers saw as ready becomes failed, so terminal report truth is not immutable for its consumers |
| FinalizationRuns.LockLossDestroysReadyObject | sitescore-api/src/sitescore_api/worker.py:687-707 | the lock assumption is necessary: if an attempt outlives its lock, its cleanup can delete the object of a ready row |
| FinalizationWorker.Worker.GenerateArtifact | sitescore-api/src/sitescore_api/report_artifacts.py:217-331 | the generator's put, check and retract in place, exactly the protocol's steps |
| FinalizationWorker.Worker.TransitionResourceToFailed | sitescore-api/src/sitescore_api/worker.py:366-398 | the bounded demotion loop in place |
| FinalizationWorker.Worker.CompleteWithFailedResource | sitescore-api/src/sitescore_api/worker.py:435-496 | the failed resource paired with the completed analysis, in place |
| FinalizationWorker.Worker.PersistFailedPair | sitescore-api/src/sitescore_api/worker.py:498-552 | the failed pair in a fresh transaction, with its own reconciliation |
| FinalizationWorker.Worker.ReconcilePairedCommit | sitescore-api/src/sitescore_api/worker.py:237-282 | the re-read after an ambiguous commit, with the verdict of the protocol |
| FinalizationWorker.Worker.PersistCompletedReportPair | sitescore-api/src/sitescore_api/worker.py:554-617 | the pair commit with reconciliation, repair and compensation |
| FinalizationWorker.Worker.ExecuteAnalysis | sitescore-api/src/sitescore_api/worker.py:673-846 | a whole attempt takes exactly protocol steps, keeps the invariant, answers durably and never touches an already terminal row |
| Submission.OneKeyOneAnalysis | sitescore-api/src/sitescore_api/lifecycle.py:100-171 | over any repetition, interleaving and loss, all accepted answers under one idempotency key name one analysis for one request, and every analysis has its one dispatch |
| Submission.RefusedCallFindsItsRow | sitescore-api/src/sitescore_api/lifecycle.py:144-157 | along every run, a call waiting with its lookup finds the holder of its key, except exactly if it was refused for its analysis id alone |
| Submission.TakenKeyStaysTaken | sitescore-api/src/sitescore_api/lifecycle.py:144-157 | a key once taken is found by every later lookup |
| Submission.AnalysisBackend.Submit | sitescore-api/src/sitescore_api/lifecycle.py:100-171 | insert, or resolve by key, or conflict by hash, on the table in place |
| PaymentStore.CommerceStore.ApplyPaymentTransitionLocked | sitescore-commerce/src/sitescore_commerce/db.py:397-446 | the transition of order, checkout and outbox rows, or the refusal code with nothing written |
| PaymentStore.CommerceStore.BindCheckout | sitescore-commerce/src/sitescore_commerce/db.py:292-309 | binds a session once; a second, different session or one of another order is refused |
| PaymentStore.CommerceStore.RecordStripeEvent | sitescore-commerce/src/sitescore_commerce/db.py:311-365 | first delivery inserts, a redelivery counts, a different envelope under the same id is a conflict; with the quarantine of migration 0005 for events without a candidate order |
| PaymentStore.CommerceStore.FinishEvent | sitescore-commerce/src/sitescore_commerce/db.py:379-395 | every inbox state but `processed` is overwritten |
| PaymentStore.CommerceStore.ApplyReconciliation | sitescore-commerce/src/sitescore_commerce/db.py:448-469 | the webhook transaction, error and rollback cases included |
| PaymentStore.CommerceStore.ApplyEventReconciliationWithLease | sitescore-commerce/src/sitescore_commerce/recovery_atomic.py:76-123 | the fenced event transaction |
| PaymentStore.CommerceStore.ApplyPollReconciliationWithLease | sitescore-commerce/src/sitescore_commerce/recovery_atomic.py:126-180 | the fenced poll transaction; a receipt exactly if the poll won |
| PaymentStore.CommerceStore.MarkInboxStateWithLease | sitescore-commerce/src/sitescore_commerce/recovery_atomic.py:43-73 | fenced inbox results, for received events only |
| PaymentStore.CommerceStore.MarkOutboxPublishedWithLease | sitescore-commerce/src/sitescore_commerce/recovery_atomic.py:183-214 | fenced publication |
| PaymentStore.CommerceStore.FinishClaim | sitescore-commerce/src/sitescore_commerce/recovery.py:286-322 | releases the lease exactly for its current holder |
| Lease.FencedHistoryIsBlocks | sitescore-commerce/src/sitescore_commerce/recovery_atomic.py:25-254 | in a fenced history every write and finish directly continues the one claim of its token |
| Lease.FinishIsFinal | sitescore-commerce/src/sitescore_commerce/recovery_atomic.py:217-254 | after its finish no entry carries the token again |
| Lease.LeaseRow.FinishClaim | sitescore-commerce/src/sitescore_commerce/recovery.py:286-322 | the lease, failure count and next attempt a finish writes, or nothing for a stale token |
| PaymentSteps.WebhookKeepsInv | sitescore-commerce/src/sitescore_commerce/webhook.py:208-270 | every step of a webhook handler keeps the payment invariant |
| PaymentSteps.ClaimKeepsInv | sitescore-commerce/src/sitescore_commerce/recovery.py:792-885 | every step of a leased recovery claim keeps it |
| PaymentSteps.StepKeepsInv | sitescore-commerce/src/sitescore_commerce/recovery_lineage.py:206-573 | every event of the payment protocol keeps it, writes of fulfillment and dispatch included |
| PaymentSteps.RunKeepsInv | sitescore-commerce/src/sitescore_commerce/recovery_lineage.py:206-573 | so it holds along every run |
| PaymentSafety.LineageComplete | sitescore-commerce/src/sitescore_commerce/recovery_lineage.py:104-184 | recovery's authority check accepts the lineage of exactly the orders that were ever paid, in particular of every order paid or in fulfillment |
| PaymentSafety.RaceHasOneWinner | sitescore-commerce/src/sitescore_commerce/db.py:397-469 | at most one pending-to-terminal transition; outbox row if and only if paid, poll receipt if and only if a poll won, paid and expired exclude each other |
| PaymentSafety.RaceIsFinal | sitescore-commerce/src/sitescore_commerce/db.py:397-469 | a decided race stays decided along every run: winner, outbox row and receipt stay, an expired order is frozen, a paid one never pending or expired again |
| PaymentSafety.ProcessedIsAbsorbing | sitescore-commerce/src/sitescore_commerce/db.py:379-389 | a processed event stays processed under its signed envelope |
| PaymentSafety.LeasedWritesAreFenced | sitescore-commerce/src/sitescore_commerce/recovery_atomic.py:34-40 | in every reachable state an order's fenced writes form consecutive blocks, one per claim, ended by at most one finish, whatever the clocks say |
| PaymentSafety.SentOrdersArePaid | sitescore-commerce/src/sitescore_commerce/recovery_lineage.py:491-573 | whatever recovery hands to orchestration has a complete paid lineage, then and ever after |
| PaymentSafety.CheckoutIsFrozen | sitescore-commerce/src/sitescore_commerce/db.py:397-446 | once fulfillment holds an order no webhook, poll or recovery changes its checkout row, so refunds go against the intent that proved the payment |
| PaymentRuns.RecoveryPays | sitescore-commerce/src/sitescore_commerce/recovery_lineage.py:249-395 | a payment is not lost with its webhook handler: one recovery claim pays the order from its oldest stale recorded event |
| PaymentRuns.AttentionIsNotFinal | sitescore-commerce/src/sitescore_commerce/db.py:379-395 | an event marked for attention by one handler is still processed, and the order paid, by another |
| Recovery.ClaimedIffNear | sitescore-commerce/src/sitescore_commerce/recovery.py:253-284 | a run claims an overdue order if and only if fewer rows than its batch size are ahead of it |
| Recovery.RunBringsNearer | sitescore-commerce/src/sitescore_commerce/recovery.py:212-251 | a run that does not reach an overdue order brings it nearer by the whole batch; seeded and served rows never overtake it |
| Recovery.NoOrderStarves | sitescore-commerce/src/sitescore_commerce/recovery.py:212-322 | an overdue order is claimed as soon as the runs' batches cover the rows ahead of it and the order itself |
| RecoverySeeding.SeededIffOld | sitescore-commerce/src/sitescore_commerce/recovery.py:212-251 | a run seeds an active order without a recovery row if and only if fewer such orders than its window are older |
| RecoverySeeding.SeedingBringsNearer | sitescore-commerce/src/sitescore_commerce/recovery.py:212-251 | a run that leaves such an order waiting brings it nearer by the whole window, whatever arrives or is written meanwhile |
| RecoverySeeding.EveryOrderIsSeeded | sitescore-commerce/src/sitescore_commerce/recovery.py:889-894 | the order is seeded as soon as the runs' windows cover the orders older than it and itself |
| RecoverySeeding.NoOrderIsForgotten | sitescore-commerce/src/sitescore_commerce/recovery.py:887-899 | and claimed once the following runs have batches for the whole table: from waiting without a row to a claim |
| RecoveryRun.RecoveryService.ProcessClaim | sitescore-commerce/src/sitescore_commerce/recovery_lineage.py:206-573 | over every branch and every raising call, a claim ends in one of six labels or raises its last call's failure, and a label of success was recorded under the lease |
| RecoveryRun.RecoveryService.PollPayment | sitescore-commerce/src/sitescore_commerce/recovery_lineage.py:397-489 | the poll of one pending order, over all evidence and refusals |
| RecoveryRun.RecoveryService.SendOutbox | sitescore-commerce/src/sitescore_commerce/recovery_lineage.py:491-573 | the delivery of one paid event, first or replayed |
| RecoveryRun.RecoveryService.RunOnce | sitescore-commerce/src/sitescore_commerce/recovery.py:887-955 | the run raises if and only if a call of its own, or of its failure handlers, raises what nothing catches; a run that returns has counted every claim once, under its label or as deferred |
| RecoveryRun.EveryEndIsCounted | sitescore-commerce/src/sitescore_commerce/recovery.py:900-955 | the five counts add up to the number of claims, however they ended |
| FulfillmentStores.FulfillmentStore.PrepareAnalysisOperation | sitescore-commerce/src/sitescore_commerce/fulfillment.py:337-399 | the durable operation snapshot, prepared once, with its state guards |
| FulfillmentStores.FulfillmentStore.BindAnalysis | sitescore-commerce/src/sitescore_commerce/fulfillment.py:411-435 | writes the id once, the observed state always, and moves the order accordingly; stale observations are not refused |
| FulfillmentStores.FulfillmentStore.BindReport | sitescore-commerce/src/sitescore_commerce/fulfillment.py:437-463 | likewise for the report of a completed bound analysis |
| FulfillmentStores.FulfillmentStore.PersistRefundEligibility | sitescore-commerce/src/sitescore_commerce/fulfillment.py:465-508 | records the refund reason once and refuses any other |
| FulfillmentStores.FulfillmentStore.PrepareRefundOperation | sitescore-commerce/src/sitescore_commerce/fulfillment.py:530-607 | materializes one immutable refund operation |
| FulfillmentStores.FulfillmentStore.BindRefund | sitescore-commerce/src/sitescore_commerce/fulfillment.py:609-653 | binds provider evidence to the operation and moves the order by refund status |
| FulfillmentStores.FulfillmentStore.AcceptedAttempt | sitescore-commerce/src/sitescore_commerce/delivery.py:263-270 | finds the first accepted attempt or none |
| FulfillmentStores.FulfillmentStore.ConvergeKnownAcceptance | sitescore-commerce/src/sitescore_commerce/delivery.py:257-293 | fulfils the order from a recorded acceptance with a valid grant |
| FulfillmentStores.FulfillmentStore.CommitRetryExhaustion | sitescore-commerce/src/sitescore_commerce/delivery_runtime.py:30-62 | the durable attention commit after the last attempt |
| FulfillmentStores.FulfillmentStore.PrepareAttempt | sitescore-commerce/src/sitescore_commerce/delivery.py:295-387 | adds the next numbered attempt with its grant; the attention write at the limit is rolled back |
| FulfillmentStores.FulfillmentStore.MarkDispatchStarted | sitescore-commerce/src/sitescore_commerce/delivery.py:389-405 | prepared attempts start, others raise |
| FulfillmentStores.FulfillmentStore.RecordAccepted | sitescore-commerce/src/sitescore_commerce/delivery.py:407-450 | records an acceptance only while the order is delivery-pending and the grant valid |
| FulfillmentStores.FulfillmentStore.RecordFailure | sitescore-commerce/src/sitescore_commerce/delivery.py:452-479 | records a failure and gives the order up on a final one, whatever state the order is in |
| FulfillmentDriver.RuntimeService.Advance | sitescore-commerce/src/sitescore_commerce/fulfillment_runtime.py:28-56 | the advance driver performs exactly the protocol's steps |
| FulfillmentDriver.RuntimeService.EnsureRefund | sitescore-commerce/src/sitescore_commerce/fulfillment_runtime.py:58-128 | the refund driver, up to the validated payment intent |
| FulfillmentDriver.RuntimeService.RefundMoney | sitescore-commerce/src/sitescore_commerce/fulfillment_runtime.py:84-128 | the judgement of the provider's refund history and the refund itself |
| FulfillmentDriver.RuntimeService.Deliver | sitescore-commerce/src/sitescore_commerce/delivery_runtime.py:64-69 | the delivery driver performs exactly the protocol's steps |
| FulfillmentDriver.RuntimeService.DeliverOnce | sitescore-commerce/src/sitescore_commerce/delivery.py:688-721 | the delivery it wraps |
| FulfillmentDriver.AdvanceIsRun | sitescore-commerce/src/sitescore_commerce/fulfillment_runtime.py:28-56 | an uninterrupted advance call, with an answer of its own for every step, is a run of the protocol and ends |
| FulfillmentDriver.DeliverIsRun | sitescore-commerce/src/sitescore_commerce/delivery.py:688-721 | an uninterrupted deliver call, with a clock reading of its own for every step, is a run of the protocol and ends |
| FulfillmentSteps.AdvanceStepGoesOn | sitescore-commerce/src/sitescore_commerce/fulfillment_runtime.py:28-128 | every step of an advance call keeps the invariant of rows, provider and calls |
| FulfillmentSteps.DeliverStepGoesOn | sitescore-commerce/src/sitescore_commerce/delivery.py:688-721 | every step of a deliver call keeps it |
| FulfillmentSteps.RunKeepsInv | sitescore-commerce/src/sitescore_commerce/fulfillment.py:337-653 | it holds along every run, in which write-once columns and attempts only grow |
| FulfillmentSafety.DeliveryExcludesRefund | sitescore-commerce/src/sitescore_commerce/fulfillment.py:963-983 | while reports keep their state, an order with a delivery attempt has no refund reason, no refund operation and no refund of ours at the provider, in any interleaving |
| FulfillmentSafety.RefundExcludesMail | sitescore-commerce/src/sitescore_commerce/delivery.py:224-239 | while reports keep their state, an order with a refund reason has no attempt and no mail was ever sent for it |
| FulfillmentSafety.IdentitiesAreWrittenOnce | sitescore-commerce/src/sitescore_commerce/fulfillment.py:411-463 | analysis, report and refund ids, the refund reason and the operation never change along a run |
| FulfillmentSafety.SubmissionsCarryOneRequest | sitescore-commerce/src/sitescore_commerce/fulfillment.py:337-399 | every submission of an order, whenever it happens, carries the same idempotency key and the same request |
| Integration.StepKeepsIds | sitescore-commerce/src/sitescore_commerce/fulfillment_runtime.py:40-49 | fulfillment, submission and finalization side by side keep bound ids and ids in flight equal to the holder of the key and to the report row |
| Integration.OneOrderOneAnalysis | sitescore-commerce/src/sitescore_commerce/fulfillment.py:411-435 | against SiteScore itself, the bound analysis and every answer in flight are the one holder of the order's key, and storing an answer never conflicts |
| Integration.OneAnalysisOneReport | sitescore-commerce/src/sitescore_commerce/fulfillment.py:437-463 | likewise for the report, through demotions too; a report is refused exactly while the stored analysis state is not completed |
| FulfillmentSafety.RefundIdentityNeverConflicts | sitescore-commerce/src/sitescore_commerce/fulfillment.py:484-497 | a proven refund reason never conflicts with the recorded one, nor a prepared refund with the recorded operation |
| FulfillmentSafety.AttemptsAreBounded | sitescore-commerce/src/sitescore_commerce/delivery.py:318-334 | attempts are numbered 1 to at most 3, and at most one mail per attempt is sent |
| FulfillmentSafety.FulfilledIsProven | sitescore-commerce/src/sitescore_commerce/delivery.py:257-293 | a fulfilled order holds an accepted attempt and grant for the bound report; while reports keep their state, the report is ready and the order paid |
| FulfillmentSafety.WritesAreWithinContract | sitescore-commerce/src/sitescore_commerce/fulfillment.py:284-324 | fulfillment changes an order row only as the payment protocol relies on, never an unpaid one |
| FulfillmentSafety.RefundIsAllOrNothing | sitescore-commerce/src/sitescore_commerce/fulfillment.py:854-866 | over any crashes, retries and overlaps, what this system refunded is nothing or exactly the amount received |
| FulfillmentSafety.RefundedIsLeftExactly | sitescore-commerce/src/sitescore_commerce/fulfillment.py:411-463 | over every reachable state: a refunded order leaves that state exactly by an advance call's stale write (analysis, report, refund status, attention flag) or by a delivery that gives up (last attempt spent, or a final failure recorded), each under its guard |
| FulfillmentSafety.DeliveryIsReopenedOnlyByStaleReports | sitescore-commerce/src/sitescore_commerce/fulfillment.py:437-463 | exactly which steps open a delivered order again |
| FulfillmentConflicts.RefundAfterDeliveryExactly | sitescore-commerce/src/sitescore_commerce/fulfillment.py:465-508 | an order with an attempt gets a refund reason if and only if a call claims a failed report while the order is not fulfilled; an analysis reason is impossible there |
| FulfillmentConflicts.DeliveryAfterRefundExactly | sitescore-commerce/src/sitescore_commerce/delivery.py:295-387 | an order with a refund reason gets its first attempt if and only if a delivery prepares one for the bound report while the order is ready and pending |
| FulfillmentConflicts.ExclusionHoldsIff | sitescore-commerce/src/sitescore_commerce/fulfillment.py:465-508 | along every run from every reachable state, delivery and refund exclude each other exactly if none of those two steps occurs |
| FulfillmentConflicts.ContestBeginsExactly | sitescore-commerce/src/sitescore_commerce/fulfillment.py:437-463 | an order becomes contested exactly when a failed report is stored over an attempt, or a ready one over a refund reason or a call already pursuing one |
| FulfillmentConflicts.RunContestsIff | sitescore-commerce/src/sitescore_commerce/fulfillment.py:437-463 | a run contests an order if and only if it contains such a store; without one, delivery and refund exclude each other at its end |
| FulfillmentConflicts.NewOrdersExclude | sitescore-commerce/src/sitescore_commerce/fulfillment.py:963-983 | from a new order on, every order that is both sent and given back had a contradicting report stored before |
| FulfillmentConflicts.ContestCanBreak | sitescore-commerce/src/sitescore_commerce/fulfillment.py:963-983 | conversely, after every such store some run ends with both an attempt and a refund reason, unless reports keep their state |
| FulfillmentConflicts.AcceptanceIsRecordedExactly | sitescore-commerce/src/sitescore_commerce/delivery.py:407-450 | an attempt becomes accepted if and only if the provider's acceptance is recorded for a prepared or started attempt with a valid grant, a new message id, and an order that is ready and pending |
| FulfillmentConflicts.AcceptancesChangeIff | sitescore-commerce/src/sitescore_commerce/delivery.py:407-450 | along every run the accepted attempts stay the same exactly if no such step occurs |
| FulfillmentConflicts.WithoutReopeningNothingIsAccepted | sitescore-commerce/src/sitescore_commerce/fulfillment.py:437-463 | once an attempt is accepted and the order no longer awaits delivery, every run without a further store of a ready report ends with exactly the same acceptances and no further attempt |
| FulfillmentSerial.StepKeepsSerial | sitescore-commerce/src/sitescore_commerce/fulfillment_runtime.py:28-56 | with non-overlapping advance calls, a settled order has no advance write pending |
| FulfillmentSerial.DeliveryExcludesRefundThroughout | sitescore-commerce/src/sitescore_commerce/fulfillment_runtime.py:28-56 | with non-overlapping advance calls delivery and refund exclude each other whatever becomes of the report |
| FulfillmentSerial.AtMostOneAcceptance | sitescore-commerce/src/sitescore_commerce/delivery.py:407-450 | with non-overlapping advance calls at most one attempt is ever recorded as accepted |
| FulfillmentSerial.RefundedIsInFull | sitescore-commerce/src/sitescore_commerce/fulfillment.py:609-653 | with non-overlapping advance calls a refunded order has a succeeded refund of the full amount |
| FulfillmentSerial.RefundedIsFinal | sitescore-commerce/src/sitescore_commerce/fulfillment.py:609-653 | and neither its order row nor its refund row changes again |
| FulfillmentSerial.AcceptanceConverges | sitescore-commerce/src/sitescore_commerce/delivery_runtime.py:64-69 | a recorded acceptance with a valid grant makes the next deliver call fulfil the order, whatever failed in between |
| FulfillmentRuns.AdvanceSubmits | sitescore-commerce/src/sitescore_commerce/fulfillment_runtime.py:40-49 | one undisturbed advance call submits and binds the analysis of a paid order |
| FulfillmentRuns.AdvanceRefunds | sitescore-commerce/src/sitescore_commerce/fulfillment_runtime.py:58-128 | one undisturbed advance call refunds an order whose analysis or report failed, in full |
| FulfillmentRuns.OverlapRevivesARefundedOrder | sitescore-commerce/src/sitescore_commerce/fulfillment.py:411-435 | a run with overlapping advance calls in which a refunded order is in progress again |
| FulfillmentRuns.LateRejectionTakesBackARefund | sitescore-commerce/src/sitescore_commerce/delivery.py:452-479 | a run in which a delivery records its rejection after the full refund and writes the order back to paid, with no advance call under way |
| FulfillmentRuns.OverlapAcceptsTwice | sitescore-commerce/src/sitescore_commerce/fulfillment.py:437-463 | a run with overlapping advance calls in which two attempts are accepted |
| FulfillmentRuns.WithdrawnReportIsDeliveredAndRefunded | sitescore-commerce/src/sitescore_commerce/fulfillment.py:437-463 | a run with overlapping advance calls and a report that turns from ready to failed, after which the order is both delivered and refunded |
| FulfillmentRuns.RefundedOrderIsDelivered | sitescore-commerce/src/sitescore_commerce/fulfillment.py:437-463 | the other way round: a run in which an order is refunded in full, and then delivered and fulfilled on a report that was ready once |
| Rationals.ReduceIsCanonical | sitescore-benchmarks/src/sitescore_benchmarks/ecdf.py:26-35 | the reduced pair denotes the same rational and is in lowest terms |
| Rationals.ReduceIffEqual | sitescore-benchmarks/src/sitescore_benchmarks/ecdf.py:26-35 | two fractions reduce to the same pair if and only if they are the same rational |
| Rationals.LessIsValueOrder | sitescore-benchmarks/src/sitescore_benchmarks/ecdf.py:38-40 | comparing canonical pairs compares the numbers they denote |
| Ecdf.CanonicalRatioIffEqual | sitescore-benchmarks/src/sitescore_benchmarks/ecdf.py:15-35 | accepted ints and floats have equal canonical ratios if and only if they are the same number |
| Ecdf.CanonicalValuesAreTheMultiset | sitescore-benchmarks/src/sitescore_benchmarks/ecdf.py:43-45 | the sorted canonical values of two samples agree if and only if the samples are the same multiset of numbers |
| Ecdf.CountsPartition | sitescore-benchmarks/src/sitescore_benchmarks/ecdf.py:231-241 | below + equal + above = n |
| Ecdf.EvaluateIsExact | sitescore-benchmarks/src/sitescore_benchmarks/ecdf.py:205-252 | evaluation equals the percentile of the plain multiset, and is absent exactly for the empty sample |
| Ecdf.PercentileInUnit | sitescore-benchmarks/src/sitescore_benchmarks/ecdf.py:244-252 | the percentile lies in [0,1], and when it is 0 or 1 |
| Ecdf.PercentileMonotone | sitescore-benchmarks/src/sitescore_benchmarks/ecdf.py:244-252 | the percentile is monotone in the query, strictly if and only if a member lies between the queries |
| Ecdf.PercentileReflects | sitescore-benchmarks/src/sitescore_benchmarks/ecdf.py:244-252 | P(-q; -S) = 1 - P(q; S) |
| Ecdf.MidRanksSumToSquare | sitescore-benchmarks/src/sitescore_benchmarks/ecdf.py:231-252 | over a sample's own members, 2*below + equal adds up to n*n |
| Ecdf.MeanPercentileIsHalf | sitescore-benchmarks/src/sitescore_benchmarks/ecdf.py:244-252 | so the mean percentile is exactly one half |
| Ecdf.ScoreDuality | sitescore-benchmarks/src/sitescore_benchmarks/normalization.py:132-141 | scores lie in 0..100, and lower-is-better equals higher-is-better of the negated sample |
| Ecdf.ScoreOrdersSites | sitescore-benchmarks/src/sitescore_benchmarks/normalization.py:132-141 | the better site never scores lower, and strictly higher exactly if a benchmark lies between |
| SemanticRecord.RecordIffSame | sitescore-app/src/sitescore_app/analysis_adapter.py:42-87 | two supported values have the same record if and only if they are the same up to subclasses of builtin types and NaNs, dictionaries as unordered collections |
| SemanticRecord.TypedRefinesUntyped | sitescore-app/src/sitescore_app/analysis_adapter.py:52-70 | telling subclasses apart adds nothing where none occur |
| SemanticRecord.PlainRecordsAreExact | sitescore-app/src/sitescore_app/analysis_adapter.py:42-87 | where no proper subclass of a builtin type occurs, equal records are equal values, types included |
| SemanticRecord.NamedTupleSharesItsRecord | sitescore-app/src/sitescore_app/analysis_adapter.py:66-67 | a named tuple and the plain tuple of its elements have one record |
| SemanticRecord.NansShareTheirRecord | sitescore-app/src/sitescore_app/analysis_adapter.py:62-63 | two NaNs with different payloads have one record |
| SemanticRecord.RecordComparisonIsExact | sitescore-app/src/sitescore_app/analysis_adapter.py:194-216 | so does Python's own comparison of records, although it identifies True with 1 |
| SemanticRecord.Registry.Build | sitescore-app/src/sitescore_app/analysis_adapter.py:220-289 | registers a wrapper with the record of its input, or refuses an unsupported value |
| SemanticRecord.Registry.Cleanup | sitescore-app/src/sitescore_app/analysis_adapter.py:116-119 | a dead wrapper's binding disappears |
| SemanticRecord.Registry.Resolve | sitescore-app/src/sitescore_app/analysis_adapter.py:145-218 | succeeds only for the wrapper that was built, with its own input, whose content is what it was up to subclasses of builtin types, and exactly so where none occur |

## Left out

- Attempts without a report generator, and `_persist_report_after_completed`, which nothing calls.
- `resolve_grant` and the customer download path: reads only, guarded as `ReadyContext` is.
- `get_or_create_order` keeps no idempotency table here: an order id is created once, and `Submission` treats the same pattern for analyses.
- The plain dispatcher's choice of the oldest unpublished row; its write is one event of the payment protocol.
- Findings, replay audits and run rows of recovery, which no decision reads, and the `updated_at` columns of commerce, which only age tests read; `RecoverySeeding` takes them, with the orders that wait for each run, as given.
- The poll and replay cutoffs of recovery are free choices of the environment; the inbox cutoff is one too, but which event it selects is modelled.
- The backoff formula: it only delays, and a served order is due again no earlier than its run.
- HTTP, Stripe, Postmark and S3 clients, JSON and PDF handling: their answers are choices of the environment.
- Authentication, settings validation and request models.
- The request hash of a fulfillment binding: the frozen request itself is compared.
- Rounding of the last division and product in percentiles and scores; the model is exact.
- The gates and compatibility reasons of feature normalization, the frozen fallbacks and category weights.
- Concurrent recovery runs, which skip each other's locked rows.
- FulfillmentDriver.RuntimeService.Advance: one call without interruption; what can happen between its steps is the subject of the protocol, not of this method, and so for Deliver.
- FinalizationWorker.Worker.ExecuteAnalysis: the advisory lock itself and its release are steps of the protocol only.
- SemanticRecord.RecordIffSame: attributes that an instance of a builtin's subclass carries beside its value are not part of a value here.
- SemanticRecord.Registry.Resolve: the remaining identity and scalar comparisons are one boolean, since they can only refuse more.
- Submission.AnalysisBackend.Submit: one uninterrupted call; interleavings are in the step system beside it.
