/**
 * Fulfillment, refund and delivery of one order: its rows, and the transactions over them
 * (sitescore-commerce fulfillment.py `FulfillmentStore`, delivery.py `DeliveryStore`,
 * delivery_runtime.py). A transaction that raises has been rolled back.
 */
module Fulfillment {
  import opened Prelude
  import opened Orders

  type Id = int

  const MAX_ATTEMPTS := 3
  const USD := "USD"

  // ---- Evidence ----

  datatype AnalysisState = AQueued | ARunning | ACompleted | ANotScoreReady | AFailed | ATimedOut

  datatype ReportState = RReady | RFailed

  datatype AnalysisEvidence = AnalysisEvidence(id: Id, state: AnalysisState)

  datatype ReportEvidence = ReportEvidence(id: Id, analysis: Id, state: ReportState)

  datatype IntentEvidence = IntentEvidence(
    id: string, amountReceived: int, currency: string, livemode: bool, metadata: map<string, string>)

  datatype RefundStatus = Pending | RequiresAction | Succeeded | Failed | Canceled | Unknown

  datatype RefundEvidence = RefundEvidence(
    id: string, intent: string, amount: int, currency: string, status: RefundStatus, metadata: map<string, string>)

  // ---- Rows ----

  datatype Binding = Binding(
    key: string, request: string, analysisId: Option<Id>, analysisState: Option<AnalysisState>, reportId: Option<Id>,
    reportState: Option<ReportState>)

  datatype Reason = BecauseNotScoreReady | BecauseAnalysisFailed | BecauseTimedOut | BecauseReportFailed

  datatype Resource = TheAnalysis(id: Id) | TheReport(id: Id)

  datatype Eligibility = Eligibility(reason: Reason, resource: Resource)

  /** The immutable identity of the refund operation of an order. */
  datatype Operation = Operation(reason: Reason, resource: Resource, intent: string, amount: int, currency: string)

  datatype Refund = Refund(
    operation: Operation, refundId: Option<string>, status: Option<RefundStatus>, amount: Option<int>, failure: Option<string>)

  datatype AttemptStatus = Prepared | DispatchStarted | Accepted | Rejected | Uncertain

  datatype Grant = Grant(reportId: Id, expiresAt: int, revoked: bool)

  datatype Attempt = Attempt(
    number: nat, reportId: Id, grant: Grant, recipient: string, status: AttemptStatus, messageId: Option<string>,
    failure: Option<string>)

  /** Everything stored about one order; attempts stand in insertion order. */
  datatype Rows = Rows(
    order: Order,
    paymentIntent: Option<string>,
    binding: Option<Binding>,
    eligibility: Option<Eligibility>,
    refund: Option<Refund>,
    attempts: seq<Attempt>)

  /** What identifies the order, and the settings its processing uses. */
  datatype Settings = Settings(orderId: string, request: string, expectedLivemode: bool, grantTtl: nat)

  datatype Tx<+T> = Committed(rows: Rows, value: T) | Raised(code: string)

  function AnalysisKey(c: Settings): string {
    "sitescore:analysis:v1:" + c.orderId
  }

  function Metadata(c: Settings, op: Operation): map<string, string> {
    map["sitescore_order_id" := c.orderId,
        "sitescore_refund_operation" := "stripe_full_refund_v1",
        "sitescore_refund_reason" := ReasonText(op.reason)]
  }

  function ReasonText(r: Reason): string {
    match r
    case BecauseNotScoreReady => "analysis_not_score_ready"
    case BecauseAnalysisFailed => "analysis_failed"
    case BecauseTimedOut => "analysis_timed_out"
    case BecauseReportFailed => "report_failed"
  }

  /** The refund reason of a terminal fulfillment state. */
  function ReasonOf(f: FulfillmentState): Option<Reason> {
    match f
    case NotScoreReady => Some(BecauseNotScoreReady)
    case AnalysisFailed => Some(BecauseAnalysisFailed)
    case AnalysisTimedOut => Some(BecauseTimedOut)
    case ReportFailed => Some(BecauseReportFailed)
    case _ => None
  }

  /** The terminal analysis state a reason stands for; the fourth reason is about a report. */
  function AnalysisEnd(r: Reason): Option<AnalysisState> {
    match r
    case BecauseNotScoreReady => Some(ANotScoreReady)
    case BecauseAnalysisFailed => Some(AFailed)
    case BecauseTimedOut => Some(ATimedOut)
    case BecauseReportFailed => None
  }

  // ---- Analysis and report bindings ----

  function PrepareAnalysis(c: Settings, db: Rows): Tx<Binding> {
    if db.order.payment != PayPaid then Raised("analysis requires a paid order")
    else if db.order.state !in {Paid, FulfillmentInProgress} then Raised("order state does not permit analysis")
    else if db.order.fulfillment in {Delivered, DeliveryPending} then
      Raised("fulfillment state does not permit analysis creation")
    else
      var binding := if db.binding.Some? then db.binding.value else Binding(AnalysisKey(c), c.request, None, None, None, None);
      var order := if db.binding.None? && db.order.state == Paid
                   then db.order.(state := FulfillmentInProgress, fulfillment := AnalysisPending) else db.order;
      if binding.key != AnalysisKey(c) then Raised("analysis idempotency identity drift")
      else if binding.request != c.request then Raised("durable analysis payload/order mismatch")
      else Committed(db.(order := order, binding := Some(binding)), binding)
  }

  /** `_apply_analysis_state`: where an observed analysis state puts the order. */
  function AfterAnalysis(order: Order, st: AnalysisState): Order {
    order.(state := FulfillmentInProgress, payment := PayPaid,
    fulfillment := match st
    case AQueued => AnalysisPending
    case ARunning => AnalysisRunning
    case ACompleted => ReportPending
    case ANotScoreReady => NotScoreReady
    case AFailed => AnalysisFailed
    case ATimedOut => AnalysisTimedOut)
  }

  function BindAnalysis(db: Rows, ev: AnalysisEvidence): Tx<()> {
    if db.binding.None? then Raised("analysis operation snapshot is unavailable")
    else if db.binding.value.analysisId.Some? && db.binding.value.analysisId.value != ev.id then
      Raised("analysis binding conflict")
    else
      Committed(db.(binding := Some(db.binding.value.(analysisId := Some(ev.id), analysisState := Some(ev.state))),
                    order := AfterAnalysis(db.order, ev.state)), ())
  }

  function BindReport(db: Rows, ev: ReportEvidence): Tx<()> {
    if db.binding.None? || db.binding.value.analysisId.None? || db.binding.value.analysisState != Some(ACompleted) then
      Raised("report requires a completed bound analysis")
    else if ev.analysis != db.binding.value.analysisId.value then Raised("report analysis binding mismatch")
    else if db.binding.value.reportId.Some? && db.binding.value.reportId.value != ev.id then Raised("report binding conflict")
    else
      Committed(db.(binding := Some(db.binding.value.(reportId := Some(ev.id), reportState := Some(ev.state))),
                    order := db.order.(state := FulfillmentInProgress, payment := PayPaid,
                                       fulfillment := if ev.state == RReady then DeliveryPending else ReportFailed)), ())
  }

  // ---- Refunds ----

  function PersistEligibility(db: Rows, reason: Reason, resource: Resource): Tx<()> {
    if reason.BecauseReportFailed? != resource.TheReport? then Raised("refund eligibility evidence mismatch")
    else if db.binding.None? then Raised("refund eligibility requires a fulfillment binding")
    else if db.order.state == Fulfilled || db.order.fulfillment == Delivered then
      Raised("fulfilled order is not automatically refundable")
    else if db.order.payment !in {PayPaid, RefundPending, RefundFailed} then
      Raised("refund eligibility requires paid money authority")
    else if db.eligibility.Some? then
      if db.eligibility.value != Eligibility(reason, resource) then Raised("refund eligibility identity conflict")
      else Committed(db, ())
    else Committed(db.(eligibility := Some(Eligibility(reason, resource))), ())
  }

  function PrepareRefund(db: Rows, intent: IntentEvidence): Tx<Operation> {
    if db.eligibility.None? then Raised("refund operation prerequisites are unavailable")
    else if db.order.state == Fulfilled || db.order.fulfillment == Delivered then
      Raised("fulfilled order is not automatically refundable")
    else if db.paymentIntent != Some(intent.id) then Raised("PaymentIntent binding mismatch")
    else if intent.amountReceived <= 0 || intent.currency != USD then Raised("PaymentIntent amount/currency invariant failed")
    else
      var op := Operation(db.eligibility.value.reason, db.eligibility.value.resource, intent.id, intent.amountReceived,
                          intent.currency);
      if db.refund.None? then Committed(db.(refund := Some(Refund(op, None, None, None, None))), op)
      else if db.refund.value.operation != op then Raised("durable refund operation identity conflict")
      else Committed(db, op)
  }

  predicate IsMatching(c: Settings, ev: RefundEvidence, op: Operation) {
    forall k :: k in Metadata(c, op) ==> k in ev.metadata && ev.metadata[k] == Metadata(c, op)[k]
  }

  /** `validate_refund_for_operation` with metadata; `re_` starts every Stripe refund id. */
  predicate RefundValid(c: Settings, ev: RefundEvidence, op: Operation) {
    && "re_" <= ev.id
    && ev.status != Unknown
    && ev.intent == op.intent
    && ev.amount == op.amount && ev.currency == op.currency
    && IsMatching(c, ev, op)
  }

  /** `taken`: another order already carries this Stripe refund id. */
  function BindRefund(c: Settings, db: Rows, op: Operation, ev: RefundEvidence, external: bool, taken: bool): Tx<()> {
    if ev.status == Unknown then Raised("unknown Stripe Refund status")
    else if ev.intent != op.intent then Raised("Refund PaymentIntent mismatch")
    else if ev.amount != op.amount || ev.currency != op.currency then Raised("Refund amount/currency mismatch")
    else if !external && !IsMatching(c, ev, op) then Raised("Refund metadata binding mismatch")
    else if db.refund.None? then Raised("refund operation snapshot is unavailable")
    else if db.refund.value.refundId.Some? && db.refund.value.refundId.value != ev.id then Raised("refund binding conflict")
    else if taken then Raised("Stripe Refund identity is already bound to another order")
    else
      Committed(db.(refund := Some(db.refund.value.(
                                   refundId := Some(ev.id), status := Some(ev.status), amount := Some(ev.amount),
                                   failure := RefundFailure(ev.status, external))),
                    order := AfterRefund(db.order, ev.status)), ())
  }

  function RefundFailure(status: RefundStatus, external: bool): Option<string> {
    if status == Failed then Some("stripe_refund_failed")
    else if status == Canceled then Some("stripe_refund_canceled")
    else if external then Some("provider_already_fully_refunded")
    else None
  }

  function AfterRefund(order: Order, status: RefundStatus): Order {
    match status
    case Succeeded => order.(state := Refunded, payment := PayRefunded)
    case Pending => order.(payment := RefundPending)
    case RequiresAction => order.(state := AttentionRequired, payment := RefundPending)
    case Failed => order.(state := AttentionRequired, payment := RefundFailed)
    case Canceled => order.(state := AttentionRequired, payment := RefundFailed)
    case Unknown => order
  }

  function MarkAttention(db: Rows, code: string, refundFailure: bool): Rows {
    db.(order := db.order.(state := AttentionRequired, payment := if refundFailure then RefundFailed else db.order.payment),
    refund := if db.refund.Some? then Some(db.refund.value.(failure := Some(code))) else None)
  }

  // ---- Delivery ----

  /** `_validate_ready_context`. */
  predicate ReadyContext(order: Order, b: Binding, requirePending: bool) {
    && order.payment == PayPaid
    && b.analysisId.Some? && b.analysisState == Some(ACompleted)
    && b.reportId.Some? && b.reportState == Some(RReady)
    && (if requirePending then order.state == FulfillmentInProgress && order.fulfillment == DeliveryPending
        else order.fulfillment in {DeliveryPending, Delivered, DeliveryFailed})
  }

  predicate GrantValid(a: Attempt, now: int) {
    a.grant.reportId == a.reportId && !a.grant.revoked && a.grant.expiresAt > now
  }

  function FirstAccepted(attempts: seq<Attempt>): (i: Option<nat>)
    ensures i.Some? ==> i.value < |attempts| && attempts[i.value].status == Accepted
    ensures i.None? ==> forall k :: 0 <= k < |attempts| ==> attempts[k].status != Accepted
  {
    if attempts == [] then None
    else if attempts[0].status == Accepted then Some(0)
    else
      var i := FirstAccepted(attempts[1..]);
      if i.Some? then Some(i.value + 1) else None
  }

  function Fulfil(order: Order): Order {
    order.(state := Fulfilled, payment := PayPaid, fulfillment := Delivered)
  }

  function GiveUp(order: Order): Order {
    order.(state := AttentionRequired, payment := PayPaid, fulfillment := DeliveryFailed)
  }

  function Converge(db: Rows, now: int): Tx<bool> {
    var first := FirstAccepted(db.attempts);
    if first.None? then Committed(db, false)
    else
      var a := db.attempts[first.value];
      if db.binding.None? || a.messageId.None? then Raised("accepted delivery evidence is incomplete")
      else if !GrantValid(a, now) then Raised("accepted delivery grant is not valid")
      else if !ReadyContext(db.order, db.binding.value, false) then Raised("delivery capability is unavailable")
      else if db.binding.value.reportId != Some(a.reportId) then Raised("accepted attempt report binding mismatch")
      else Committed(db.(order := Fulfil(db.order)), true)
  }

  /** `_terminal_or_commit_retry_exhaustion`: whether there is nothing left to do. */
  function Exhaust(db: Rows): Tx<bool> {
    if db.order.state == Fulfilled then Committed(db, true)
    else if db.order.state == AttentionRequired && db.order.fulfillment == DeliveryFailed then Committed(db, true)
    else if FirstAccepted(db.attempts).Some? then Committed(db, false)
    else if |db.attempts| < MAX_ATTEMPTS then Committed(db, false)
    else Committed(db.(order := GiveUp(db.order)), true)
  }

  function LoadContext(db: Rows): Option<Binding> {
    if db.binding.Some? && ReadyContext(db.order, db.binding.value, true) then db.binding else None
  }

  function MaxNumber(attempts: seq<Attempt>): nat {
    if attempts == [] then 0
    else
      var rest := MaxNumber(attempts[..|attempts| - 1]);
      if attempts[|attempts| - 1].number > rest then attempts[|attempts| - 1].number else rest
  }

  /** The attention write of an exhausted order is rolled back by the error that follows it. */
  function PrepareAttempt(c: Settings, db: Rows, report: Id, analysis: Id, now: int): Tx<nat> {
    if db.binding.None? then Tx<nat>.Raised("fulfillment binding is unavailable")
    else if !ReadyContext(db.order, db.binding.value, true) then Tx<nat>.Raised("order is not delivery pending")
    else if db.binding.value.reportId != Some(report) || db.binding.value.analysisId != Some(analysis) then
      Tx<nat>.Raised("fresh report evidence does not match durable binding")
    else if FirstAccepted(db.attempts).Some? then Tx<nat>.Raised("provider acceptance already exists")
    else if MaxNumber(db.attempts) + 1 > MAX_ATTEMPTS then Tx<nat>.Raised("delivery retry limit is exhausted")
    else
      var a := Attempt(MaxNumber(db.attempts) + 1, report, Grant(report, now + c.grantTtl, false), db.order.email,
          Prepared, None,
                       None);
      Tx<nat>.Committed(db.(attempts := db.attempts + [a]), |db.attempts|)
  }

  function StartDispatch(db: Rows, i: nat): Tx<()> {
    if i >= |db.attempts| then Raised("delivery attempt is unavailable")
    else if db.attempts[i].status == Prepared then
      Committed(db.(attempts := db.attempts[i := db.attempts[i].(status := DispatchStarted)]), ())
    else if db.attempts[i].status != DispatchStarted then Raised("delivery attempt cannot be dispatched")
    else Committed(db, ())
  }

  /** `taken`: another attempt already carries this message id. */
  function RecordAccepted(db: Rows, i: nat, messageId: string, recipient: string, now: int, taken: bool): Tx<()> {
    if i >= |db.attempts| || db.binding.None? then Raised("delivery attempt is unavailable")
    else
      var a := db.attempts[i];
      if a.status == Accepted then
        if a.messageId != Some(messageId) then Raised("provider MessageID rebinding conflict") else Committed(db, ())
      else if a.status !in {Prepared, DispatchStarted} then Raised("delivery attempt cannot accept provider evidence")
      else if recipient != a.recipient then Raised("provider recipient evidence mismatch")
      else if !GrantValid(a, now) then Raised("accepted attempt grant is not valid")
      else if !ReadyContext(db.order, db.binding.value, true) then Raised("order is not delivery pending")
      else if db.binding.value.reportId != Some(a.reportId) then Raised("accepted attempt report binding mismatch")
      else if taken then Raised("provider MessageID is already bound to another attempt")
      else
        Committed(db.(attempts := db.attempts[i := a.(status := Accepted, messageId := Some(messageId), failure := None)],
                      order := Fulfil(db.order)), ())
  }

  function RecordFailure(db: Rows, i: nat, status: AttemptStatus, code: string, retryable: bool): Tx<()>
    requires status in {Rejected, Uncertain}
  {
    if i >= |db.attempts| then Raised("delivery attempt is unavailable")
    else if db.attempts[i].status == Accepted then Committed(db, ())
    else
      Committed(db.(attempts := db.attempts[i := db.attempts[i].(status := status, failure := Some(code))],
                    order := if !retryable || db.attempts[i].number >= MAX_ATTEMPTS then GiveUp(db.order) else db.order), ())
  }
}
