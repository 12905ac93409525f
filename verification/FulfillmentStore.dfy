/**
 * The rows of one order updated in place: a method per transaction of `FulfillmentStore` and
 * `DeliveryStore` (sitescore-commerce fulfillment.py, delivery.py, delivery_runtime.py). `ok` is false
 * when the transaction raised; it has then been rolled back.
 */
module FulfillmentStores {
  import opened Prelude
  import opened Orders
  import opened Fulfillment
  import P = FulfillmentProtocol

  class FulfillmentStore {
    var order: Order
    const paymentIntent: Option<string>
    var binding: Option<Binding>
    var eligibility: Option<Eligibility>
    var refund: Option<Refund>
    var attempts: seq<Attempt>

    ghost function Db(): Rows
      reads this
    {
      Rows(order, paymentIntent, binding, eligibility, refund, attempts)
    }

    constructor (product: string, catalog: string, email: string, intent: Option<string>)
      ensures Db() == P.Init(product, catalog, email, intent).db
    {
      order := Order(product, catalog, email, PendingPayment, PayPending, NotStarted);
      paymentIntent := intent;
      binding, eligibility, refund, attempts := None, None, None, [];
    }

    // ---- FulfillmentStore ----

    method PrepareAnalysisOperation(c: Settings) returns (ok: bool, operation: Binding)
      modifies this
      ensures var tx := PrepareAnalysis(c, old(Db()));
              if tx.Committed? then ok && Db() == tx.rows && operation == tx.value else !ok && Db() == old(Db())
    {
      operation := Binding(AnalysisKey(c), c.request, None, None, None, None);
      if order.payment != PayPaid { return false, operation; }
      if order.state !in {Paid, FulfillmentInProgress} { return false, operation; }
      if order.fulfillment in {Delivered, DeliveryPending} { return false, operation; }
      var orderBefore, bindingBefore := order, binding;
      if binding.None? {
        binding := Some(operation);
        if order.state == Paid {
          order := order.(state := FulfillmentInProgress, fulfillment := AnalysisPending);
        }
      }
      operation := binding.value;
      if operation.key != AnalysisKey(c) || operation.request != c.request {
        order, binding := orderBefore, bindingBefore;
        return false, operation;
      }
      return true, operation;
    }

    method ApplyAnalysisState(st: AnalysisState)
      modifies this`order
      ensures order == AfterAnalysis(old(order), st)
    {
      order := order.(state := FulfillmentInProgress);
      order := order.(payment := PayPaid);
      match st {
        case AQueued => order := order.(fulfillment := AnalysisPending);
        case ARunning => order := order.(fulfillment := AnalysisRunning);
        case ACompleted => order := order.(fulfillment := ReportPending);
        case ANotScoreReady => order := order.(fulfillment := NotScoreReady);
        case AFailed => order := order.(fulfillment := AnalysisFailed);
        case ATimedOut => order := order.(fulfillment := AnalysisTimedOut);
      }
    }

    /** `taken`: the unique index finds the id on another order. */
    method BindAnalysis(ev: AnalysisEvidence, taken: bool) returns (ok: bool)
      modifies this
      ensures var tx := Fulfillment.BindAnalysis(old(Db()), ev);
              if tx.Committed? && !taken then ok && Db() == tx.rows else !ok && Db() == old(Db())
      ensures old(binding).Some? && old(binding).value.analysisId.Some? ==>
                binding.Some? && binding.value.analysisId == old(binding).value.analysisId
      ensures ok ==> binding.Some? && binding.value.analysisId == Some(ev.id) && order.state == FulfillmentInProgress
      ensures eligibility == old(eligibility) && refund == old(refund) && attempts == old(attempts)
    {
      if binding.None? { return false; }
      var row := binding.value;
      if row.analysisId.Some? && row.analysisId.value != ev.id { return false; }
      if taken { return false; }
      row := row.(analysisId := Some(ev.id));
      row := row.(analysisState := Some(ev.state));
      binding := Some(row);
      ApplyAnalysisState(ev.state);
      return true;
    }

    method BindReport(ev: ReportEvidence, taken: bool) returns (ok: bool)
      modifies this
      ensures var tx := Fulfillment.BindReport(old(Db()), ev);
              if tx.Committed? && !taken then ok && Db() == tx.rows else !ok && Db() == old(Db())
      ensures old(binding).Some? && old(binding).value.reportId.Some? ==>
                binding.Some? && binding.value.reportId == old(binding).value.reportId
      ensures ok ==> binding.Some? && binding.value.reportId == Some(ev.id) && binding.value.analysisId == Some(ev.analysis)
      ensures eligibility == old(eligibility) && refund == old(refund) && attempts == old(attempts)
    {
      if binding.None? || binding.value.analysisId.None? || binding.value.analysisState != Some(ACompleted) { return false; }
      var row := binding.value;
      if ev.analysis != row.analysisId.value { return false; }
      if row.reportId.Some? && row.reportId.value != ev.id { return false; }
      if taken { return false; }
      row := row.(reportId := Some(ev.id));
      row := row.(reportState := Some(ev.state));
      binding := Some(row);
      order := order.(state := FulfillmentInProgress, payment := PayPaid);
      if ev.state == RReady {
        order := order.(fulfillment := DeliveryPending);
      } else {
        order := order.(fulfillment := ReportFailed);
      }
      return true;
    }

    method PersistRefundEligibility(reason: Reason, resource: Resource) returns (ok: bool)
      modifies this
      ensures var tx := PersistEligibility(old(Db()), reason, resource);
              if tx.Committed? then ok && Db() == tx.rows else !ok && Db() == old(Db())
      ensures old(eligibility).Some? ==> eligibility == old(eligibility)
      ensures ok ==> eligibility == Some(Eligibility(reason, resource)) && old(order).state != Fulfilled
      ensures order == old(order) && binding == old(binding) && refund == old(refund) && attempts == old(attempts)
    {
      if reason.BecauseReportFailed? != resource.TheReport? { return false; }
      if binding.None? { return false; }
      if order.state == Fulfilled || order.fulfillment == Delivered { return false; }
      if order.payment !in {PayPaid, RefundPending, RefundFailed} { return false; }
      if eligibility.Some? { return eligibility.value == Eligibility(reason, resource); }
      eligibility := Some(Eligibility(reason, resource));
      return true;
    }

    method PrepareRefundOperation(money: IntentEvidence) returns (ok: bool, operation: Operation)
      modifies this
      ensures var tx := PrepareRefund(old(Db()), money);
              if tx.Committed? then ok && Db() == tx.rows && operation == tx.value else !ok && Db() == old(Db())
      ensures old(refund).Some? ==> refund == old(refund)
      ensures ok ==> refund.Some? && refund.value.operation == operation && operation.amount == money.amountReceived > 0
      ensures order == old(order) && binding == old(binding) && eligibility == old(eligibility) && attempts == old(attempts)
    {
      operation := Operation(BecauseTimedOut, TheAnalysis(0), money.id, money.amountReceived, money.currency);
      if eligibility.None? { return false, operation; }
      if order.state == Fulfilled || order.fulfillment == Delivered { return false, operation; }
      if paymentIntent != Some(money.id) { return false, operation; }
      if money.amountReceived <= 0 || money.currency != USD { return false, operation; }
      operation := operation.(reason := eligibility.value.reason, resource := eligibility.value.resource);
      if refund.None? {
        refund := Some(Refund(operation, None, None, None, None));
      }
      return refund.value.operation == operation, operation;
    }

    method BindRefund(c: Settings, op: Operation, ev: RefundEvidence, external: bool, taken: bool) returns (ok: bool)
      modifies this
      ensures var tx := Fulfillment.BindRefund(c, old(Db()), op, ev, external, taken);
              if tx.Committed? then ok && Db() == tx.rows else !ok && Db() == old(Db())
      ensures old(refund).Some? ==> refund.Some? && refund.value.operation == old(refund).value.operation
      ensures old(refund).Some? && old(refund).value.refundId.Some? ==> refund.value.refundId == old(refund).value.refundId
      ensures order.state == Refunded && old(order).state != Refunded ==> ev.status == Succeeded && ev.amount == op.amount
      ensures binding == old(binding) && eligibility == old(eligibility) && attempts == old(attempts)
    {
      hide AfterRefund, IsMatching;
      var fits := RefundFits(c, op, ev, external, taken);
      if !fits { return false; }
      var row := refund.value;
      row := row.(refundId := Some(ev.id), status := Some(ev.status), amount := Some(ev.amount));
      row := row.(failure := if external then Some("provider_already_fully_refunded") else None);
      if ev.status in {Failed, Canceled} {
        row := row.(failure := Some(if ev.status == Failed then "stripe_refund_failed" else "stripe_refund_canceled"));
      }
      refund := Some(row);
      MoveAfterRefund(ev.status);
      return true;
    }

    /** What `bind_refund` checks before it writes. */
    method RefundFits(c: Settings, op: Operation, ev: RefundEvidence, external: bool, taken: bool) returns (fits: bool)
      ensures fits <==> Fulfillment.BindRefund(c, Db(), op, ev, external, taken).Committed?
      ensures fits ==> refund.Some? && refund.value.refundId in {None, Some(ev.id)} && ev.status != Unknown && ev.amount == op.amount
    {
      hide AfterRefund, IsMatching;
      if ev.status == Unknown { return false; }
      if ev.intent != op.intent { return false; }
      if ev.amount != op.amount || ev.currency != op.currency { return false; }
      if !external && !IsMatching(c, ev, op) { return false; }
      if refund.None? { return false; }
      if refund.value.refundId.Some? && refund.value.refundId.value != ev.id { return false; }
      return !taken;
    }

    /** Where the status of a bound refund puts the order; only a success makes it refunded. */
    method MoveAfterRefund(status: RefundStatus)
      requires status != Unknown
      modifies this`order
      ensures order == AfterRefund(old(order), status)
      ensures order.state == Refunded <==> status == Succeeded || (status == Pending && old(order).state == Refunded)
    {
      if status == Succeeded {
        order := order.(state := Refunded, payment := PayRefunded);
      } else if status == Pending {
        order := order.(payment := RefundPending);
      } else if status == RequiresAction {
        order := order.(state := AttentionRequired, payment := RefundPending);
      } else {
        order := order.(state := AttentionRequired, payment := RefundFailed);
      }
    }

    method MarkAttention(code: string, refundFailure: bool)
      modifies this
      ensures Db() == Fulfillment.MarkAttention(old(Db()), code, refundFailure)
    {
      order := order.(state := AttentionRequired);
      if refundFailure { order := order.(payment := RefundFailed); }
      if refund.Some? { refund := Some(refund.value.(failure := Some(code))); }
    }

    // ---- DeliveryStore ----

    /** The accepted attempt with the smallest number; rows come in number order. */
    method AcceptedAttempt() returns (i: Option<nat>)
      ensures i == FirstAccepted(attempts)
    {
      var k := 0;
      assert attempts[0..] == attempts;
      while k < |attempts| && attempts[k].status != Accepted
        invariant 0 <= k <= |attempts|
        invariant FirstAccepted(attempts)
                  == match FirstAccepted(attempts[k..]) case Some(j) => Some(k + j) case None => None
      {
        assert attempts[k..][1..] == attempts[k + 1..];
        k := k + 1;
      }
      if k < |attempts| { return Some(k); }
      return None;
    }

    method ConvergeKnownAcceptance(now: int) returns (ok: bool, converged: bool)
      modifies this
      ensures var tx := Converge(old(Db()), now);
              if tx.Committed? then ok && Db() == tx.rows && converged == tx.value else !ok && Db() == old(Db())
      ensures ok && converged ==> order.state == Fulfilled && exists i :: 0 <= i < |attempts| && attempts[i].status == Accepted
      ensures attempts == old(attempts) && binding == old(binding) && refund == old(refund) && eligibility == old(eligibility)
    {
      var first := AcceptedAttempt();
      if first.None? { return true, false; }
      var accepted := attempts[first.value];
      if binding.None? || accepted.messageId.None? { return false, false; }
      if accepted.grant.reportId != accepted.reportId { return false, false; }
      if accepted.grant.revoked || accepted.grant.expiresAt <= now { return false, false; }
      if !ReadyContext(order, binding.value, false) { return false, false; }
      if binding.value.reportId != Some(accepted.reportId) { return false, false; }
      order := order.(state := Fulfilled, payment := PayPaid, fulfillment := Delivered);
      return true, true;
    }

    method CommitRetryExhaustion() returns (terminal: bool)
      modifies this
      ensures var tx := Exhaust(old(Db())); tx.Committed? && Db() == tx.rows && terminal == tx.value
      ensures terminal ==> order.state in {Fulfilled, AttentionRequired}
      ensures order != old(order) ==> |attempts| >= MAX_ATTEMPTS && forall i :: 0 <= i < |attempts| ==> attempts[i].status != Accepted
      ensures attempts == old(attempts) && binding == old(binding) && refund == old(refund) && eligibility == old(eligibility)
    {
      if order.state == Fulfilled { return true; }
      if order.state == AttentionRequired && order.fulfillment == DeliveryFailed { return true; }
      var accepted := AcceptedAttempt();
      if accepted.Some? { return false; }
      if |attempts| < MAX_ATTEMPTS { return false; }
      order := order.(state := AttentionRequired, payment := PayPaid, fulfillment := DeliveryFailed);
      return true;
    }

    method PrepareAttempt(c: Settings, report: Id, analysis: Id, now: int) returns (ok: bool, i: nat)
      modifies this
      ensures var tx := Fulfillment.PrepareAttempt(c, old(Db()), report, analysis, now);
              if tx.Committed? then ok && Db() == tx.rows && i == tx.value else !ok && Db() == old(Db())
      ensures ok ==> i == |old(attempts)| && |attempts| == i + 1 && attempts[..i] == old(attempts)
      ensures ok ==> attempts[i].number <= MAX_ATTEMPTS && attempts[i].recipient == order.email && attempts[i].reportId == report
      ensures order == old(order) && binding == old(binding) && refund == old(refund) && eligibility == old(eligibility)
    {
      if binding.None? { return false, 0; }
      if !ReadyContext(order, binding.value, true) { return false, 0; }
      if binding.value.reportId != Some(report) || binding.value.analysisId != Some(analysis) { return false, 0; }
      var accepted := AcceptedAttempt();
      if accepted.Some? { return false, 0; }
      var number := MaxNumber(attempts) + 1;
      var orderBefore := order;
      if number > MAX_ATTEMPTS {
        order := order.(state := AttentionRequired, fulfillment := DeliveryFailed);
        order := orderBefore;  // the error that follows rolls the write back
        return false, 0;
      }
      i := |attempts|;
      attempts := attempts + [Attempt(number, report, Grant(report, now + c.grantTtl, false), order.email, Prepared,
          None, None)];
      return true, i;
    }

    method MarkDispatchStarted(i: nat) returns (ok: bool)
      modifies this
      ensures var tx := StartDispatch(old(Db()), i);
              if tx.Committed? then ok && Db() == tx.rows else !ok && Db() == old(Db())
    {
      if i >= |attempts| { return false; }
      if attempts[i].status == Prepared {
        attempts := attempts[i := attempts[i].(status := DispatchStarted)];
      } else if attempts[i].status != DispatchStarted {
        return false;
      }
      return true;
    }

    method RecordAccepted(i: nat, messageId: string, recipient: string, now: int, taken: bool) returns (ok: bool)
      modifies this
      ensures var tx := Fulfillment.RecordAccepted(old(Db()), i, messageId, recipient, now, taken);
              if tx.Committed? then ok && Db() == tx.rows else !ok && Db() == old(Db())
      ensures ok ==> i < |attempts| && attempts[i].status == Accepted && attempts[i].messageId == Some(messageId)
      ensures |attempts| == |old(attempts)|
      ensures forall k :: 0 <= k < |attempts| && old(attempts)[k].status == Accepted ==> attempts[k] == old(attempts)[k]
      ensures order != old(order) ==> order.state == Fulfilled && old(order).fulfillment == DeliveryPending
    {
      if i >= |attempts| || binding.None? { return false; }
      var attempt := attempts[i];
      if attempt.status == Accepted { return attempt.messageId == Some(messageId); }
      if attempt.status !in {Prepared, DispatchStarted} { return false; }
      if recipient != attempt.recipient { return false; }
      if attempt.grant.reportId != attempt.reportId { return false; }
      if attempt.grant.revoked || attempt.grant.expiresAt <= now { return false; }
      if !ReadyContext(order, binding.value, true) { return false; }
      if binding.value.reportId != Some(attempt.reportId) { return false; }
      if taken { return false; }
      attempts := attempts[i := attempt.(messageId := Some(messageId), status := Accepted, failure := None)];
      order := order.(state := Fulfilled, payment := PayPaid, fulfillment := Delivered);
      return true;
    }

    method RecordFailure(i: nat, status: AttemptStatus, code: string, retryable: bool) returns (ok: bool)
      requires status in {Rejected, Uncertain}
      modifies this
      ensures var tx := Fulfillment.RecordFailure(old(Db()), i, status, code, retryable);
              if tx.Committed? then ok && Db() == tx.rows else !ok && Db() == old(Db())
      ensures |attempts| == |old(attempts)|
      ensures forall k :: 0 <= k < |attempts| && old(attempts)[k].status == Accepted ==> attempts[k] == old(attempts)[k]
      ensures order != old(order) ==> order.state == AttentionRequired && order.fulfillment == DeliveryFailed
    {
      if i >= |attempts| { return false; }
      if attempts[i].status == Accepted { return true; }
      attempts := attempts[i := attempts[i].(status := status, failure := Some(code))];
      if !retryable || attempts[i].number >= MAX_ATTEMPTS {
        order := order.(state := AttentionRequired, payment := PayPaid, fulfillment := DeliveryFailed);
      }
      return true;
    }
  }
}
