/** What holds in every reachable state of fulfillment, however advance and deliver calls interleave. */
module FulfillmentSafety {
  import opened Prelude
  import opened Orders
  import opened Fulfillment
  import opened FulfillmentProtocol
  import opened FulfillmentInvariant
  import opened FulfillmentSteps

  ghost predicate Leads(c: Config, s: State, s': State) {
    exists es: seq<Event> :: s' == Run(c, s, es)
  }

  ghost predicate Reachable(c: Config, s: State) {
    exists product: string, catalog: string, email: string, intent: Option<string> ::
      Leads(c, Init(product, catalog, email, intent), s)
  }

  lemma ReachableInv(c: Config, s: State)
    requires Reachable(c, s)
    ensures Inv(c, s)
  {
    hide Inv, Init;
    var product: string, catalog: string, email: string, intent: Option<string> :|
      Leads(c, Init(product, catalog, email, intent), s);
    var es :| s == Run(c, Init(product, catalog, email, intent), es);
    InitInv(c, product, catalog, email, intent);
    RunKeepsInv(c, Init(product, catalog, email, intent), es);
  }

  // ---- Delivery and refund exclude each other ----

  /**
   * While reports keep their state, no order is ever both delivered and refunded: with a single attempt
   * prepared there is no refund reason, no refund operation and no refund of ours at Stripe, and the
   * payment column says paid.
   */
  lemma DeliveryExcludesRefund(c: Config, s: State)
    requires c.reportsStay && Reachable(c, s) && s.db.attempts != []
    ensures s.db.eligibility.None? && s.db.refund.None?
    ensures forall i :: 0 <= i < |s.pv.refunds| ==> !s.pv.refunds[i].ours
    ensures s.db.order.payment == PayPaid && s.db.order.state != Refunded
  {
    ReachableInv(c, s);
    DeliverableIsPaid(c, s.db);
  }

  /** And with a refund reason on record no mail was ever sent. */
  lemma RefundExcludesMail(c: Config, s: State)
    requires c.reportsStay && Reachable(c, s) && s.db.eligibility.Some?
    ensures s.db.attempts == [] && s.pv.mails == [] && s.db.order.state != Fulfilled
  {
    ReachableInv(c, s);
    EligibleIsUndelivered(c, s.db);
    DistinctBelow(s.pv.mails, |s.db.attempts|);
  }

  // ---- Write-once identities ----

  /** Analysis, report and refund ids, the refund reason and the refund operation are written once. */
  lemma IdentitiesAreWrittenOnce(c: Config, s: State, s': State)
    requires Reachable(c, s) && Leads(c, s, s')
    ensures s.db.binding.Some? && s.db.binding.value.analysisId.Some? ==>
              s'.db.binding.Some? && s'.db.binding.value.analysisId == s.db.binding.value.analysisId
    ensures s.db.binding.Some? && s.db.binding.value.reportId.Some? ==>
              s'.db.binding.Some? && s'.db.binding.value.reportId == s.db.binding.value.reportId
    ensures s.db.eligibility.Some? ==> s'.db.eligibility == s.db.eligibility
    ensures s.db.refund.Some? ==> s'.db.refund.Some? && s'.db.refund.value.operation == s.db.refund.value.operation
    ensures s.db.refund.Some? && s.db.refund.value.refundId.Some? ==>
              s'.db.refund.value.refundId == s.db.refund.value.refundId
  {
    ReachableInv(c, s);
    var es :| s' == Run(c, s, es);
    RunKeepsInv(c, s, es);
  }

  /**
   * Whenever, and however often, an analysis is submitted for the order, it is submitted with the same
   * idempotency key and the same request.
   */
  lemma SubmissionsCarryOneRequest(c: Config, s: State, t: int)
    requires Reachable(c, s) && t in s.advances && s.advances[t].Submitting?
    ensures s.advances[t].key == AnalysisKey(c.settings) && s.advances[t].request == c.settings.request
    ensures s.db.binding.Some? && s.db.binding.value.key == s.advances[t].key
    ensures s.db.binding.value.request == s.advances[t].request
  {
    ReachableInv(c, s);
    hide MailsOk, ProviderOk;
    assert AdvanceOk(c, s.db, s.advances[t]);
  }

  /** A proven refund reason never conflicts with the recorded one, nor a prepared refund with the recorded operation. */
  lemma RefundIdentityNeverConflicts(c: Config, s: State, t: int)
    requires Reachable(c, s) && t in s.advances
    ensures s.advances[t].Claiming? && s.db.eligibility.Some? ==>
              s.db.eligibility.value == Eligibility(s.advances[t].reason, s.advances[t].resource)
    ensures s.advances[t].PreparingRefund? && s.db.refund.Some? && PrepareRefund(s.db, s.advances[t].money).Raised? ==>
              || s.db.paymentIntent != Some(s.advances[t].money.id) || s.advances[t].money.currency != USD
              || s.db.order.state == Fulfilled || s.db.order.fulfillment == Delivered
  {
    ReachableInv(c, s);
    hide MailsOk, ProviderOk;
    assert AdvanceOk(c, s.db, s.advances[t]);
    if s.db.eligibility.Some? && s.advances[t].Claiming? {
      EntitlementIsUnique(c, s.db.binding.value, s.advances[t].reason, s.advances[t].resource,
                          s.db.eligibility.value.reason, s.db.eligibility.value.resource);
    }
  }

  lemma EntitlementIsUnique(c: Config, b: Binding, r1: Reason, x1: Resource, r2: Reason, x2: Resource)
    requires BindingOk(c, b) && Entitled(c, b, r1, x1) && Entitled(c, b, r2, x2)
    ensures r1 == r2 && x1 == x2
  {
  }

  // ---- Delivery attempts ----

  /** Attempts are numbered 1, 2, 3 at most; each sends at most one mail, so at most three are sent. */
  lemma AttemptsAreBounded(c: Config, s: State)
    requires Reachable(c, s)
    ensures |s.db.attempts| <= 3 && |s.pv.mails| <= |s.db.attempts|
    ensures forall i :: 0 <= i < |s.db.attempts| ==> s.db.attempts[i].number == i + 1
    ensures forall i, j :: 0 <= i < j < |s.pv.mails| ==> s.pv.mails[i] != s.pv.mails[j]
  {
    ReachableInv(c, s);
    forall i | 0 <= i < |s.db.attempts| ensures s.db.attempts[i].number == i + 1 {
      assert AttemptOk(s.db.attempts[i], i, s.db.binding.value.reportId.value);
    }
    DistinctBelow(s.pv.mails, |s.db.attempts|);
  }

  /** Distinct numbers below `n` are at most `n` many. */
  lemma {:induction false} DistinctBelow(xs: seq<nat>, n: nat)
    requires forall i, j :: 0 <= i < |xs| && 0 <= j < |xs| && xs[i] == xs[j] ==> i == j
    requires forall i :: 0 <= i < |xs| ==> xs[i] < n
    ensures |xs| <= n
    decreases n
  {
    if xs == [] { return; }
    assert xs[0] < n;
    if k: nat :| k < |xs| && xs[k] == n - 1 {
      DistinctBelow(xs[..k] + xs[k + 1..], n - 1);
    } else {
      DistinctBelow(xs, n - 1);
    }
  }

  /**
   * A fulfilled order holds an accepted attempt, with its message id, for the bound report; while reports
   * keep their state, that report is ready and the order paid.
   */
  lemma FulfilledIsProven(c: Config, s: State) returns (i: nat)
    requires Reachable(c, s) && s.db.order.state == Fulfilled
    ensures i < |s.db.attempts| && s.db.attempts[i].status == Accepted && s.db.attempts[i].messageId.Some?
    ensures s.db.binding.Some? && s.db.binding.value.reportId == Some(s.db.attempts[i].reportId)
    ensures s.db.attempts[i].grant.reportId == s.db.attempts[i].reportId && s.db.order.fulfillment == Delivered
    ensures c.reportsStay ==> c.reportEnd(s.db.attempts[i].reportId) == RReady && s.db.order.payment == PayPaid
  {
    ReachableInv(c, s);
    hide MailsOk, ProviderOk;
    i :| 0 <= i < |s.db.attempts| && s.db.attempts[i].status == Accepted;
    assert AttemptOk(s.db.attempts[i], i, s.db.binding.value.reportId.value);
  }

  // ---- What fulfillment does to the order row ----

  /** Fulfillment, refund and delivery touch an order row only as the payment protocol relies on. */
  lemma WritesAreWithinContract(c: Config, s: State, ev: Event)
    requires Reachable(c, s) && !ev.Decide?
    ensures var after := Apply(c, s, ev).db.order; after == s.db.order || FulfillmentMayWrite(s.db.order, after)
  {
    ReachableInv(c, s);
    StepKeepsInv(c, s, ev);
    var s' := Apply(c, s, ev);
    OrderIdentityKept(c, s, ev);
    assert RowsOk(c, s.db) && RowsOk(c, s'.db);
    hide Inv, Apply, Reachable;
    if s'.db.order != s.db.order { WrittenOrderIsBound(c, s, ev); }
  }

  lemma OrderIdentityKept(c: Config, s: State, ev: Event)
    ensures var before, after := s.db.order, Apply(c, s, ev).db.order;
            after.productCode == before.productCode && after.catalogVersion == before.catalogVersion && after.email
                == before.email
  {
    hide AdvanceStep, DeliverStep;
    if ev.StepAdvance? && ev.t in s.advances {
      AdvanceWrites(c, s.db, s.pv, s.advances[ev.t], ev.ch);
    } else if ev.StepDeliver? && ev.t in s.deliveries {
      DeliverWrites(c, s.db, s.pv, s.deliveries[ev.t], ev.ch);
    }
  }

  predicate SameIdentity(before: Order, after: Order) {
    after.productCode == before.productCode && after.catalogVersion == before.catalogVersion && after.email == before.email
  }

  lemma AdvanceWrites(c: Config, db: Rows, pv: Provider, pc: Advance, ch: Choice)
    ensures var db' := AdvanceStep(c, db, pv, pc, ch).db;
            && SameIdentity(db.order, db'.order)
            && (db'.order != db.order ==> db'.binding.Some? || db'.eligibility.Some? || pc.Flagging? || pc.BindingRefund?)
            && (db'.order != db.order && db.binding.None? ==> db.order.payment == PayPaid || pc.Flagging? || pc.BindingRefund?)
  {
    hide JudgeRefunds, CreateRefund, IntentValid, IsMatching, ReadStatus, RefundValid;
  }

  lemma DeliverWrites(c: Config, db: Rows, pv: Provider, pc: Deliver, ch: Choice)
    ensures var db' := DeliverStep(c, db, pv, pc, ch).db;
            && SameIdentity(db.order, db'.order)
            && (db'.order != db.order ==> db.attempts != [])
            && db'.binding == db.binding
  {
    hide ReadyContext, GrantValid, MaxNumber;
  }

  lemma WrittenOrderIsBound(c: Config, s: State, ev: Event)
    requires Inv(c, s) && !ev.Decide? && Apply(c, s, ev).db.order != s.db.order
    ensures !Unpaid(s.db.order) && Apply(c, s, ev).db.binding.Some?
  {
    StepKeepsInv(c, s, ev);
    assert RowsOk(c, s.db) && RowsOk(c, Apply(c, s, ev).db);
    if ev.StepAdvance? {
      assert AdvanceOk(c, s.db, s.advances[ev.t]);
      hide AdvanceStep, DeliverStep, MailsOk, ProviderOk, Grows;
      AdvanceWrites(c, s.db, s.pv, s.advances[ev.t], ev.ch);
    } else {
      hide AdvanceStep, DeliverStep, MailsOk, ProviderOk, AdvanceOk, Grows;
      assert ev.StepDeliver?;
      DeliverWrites(c, s.db, s.pv, s.deliveries[ev.t], ev.ch);
    }
  }

  // ---- Refund conservation ----

  /** The money refunded at Stripe under this order's key. */
  function OurTotal(refunds: seq<ProviderRefund>): int {
    if refunds == [] then 0 else (if refunds[0].ours then refunds[0].evidence.amount else 0) + OurTotal(refunds[1..])
  }

  /** Nothing was refunded, or exactly what was received; never part of it, never twice. */
  lemma RefundIsAllOrNothing(c: Config, s: State)
    requires Reachable(c, s)
    ensures OurTotal(s.pv.refunds) == 0 || (OurTotal(s.pv.refunds) == c.received && s.db.refund.Some?)
  {
    ReachableInv(c, s);
    hide RowsOk, MailsOk, AdvanceOk;
    TotalOfOne(c, s.db, s.pv.refunds);
  }

  lemma {:induction false} TotalOfOne(c: Config, db: Rows, refunds: seq<ProviderRefund>)
    requires ProviderOk(c, db, refunds)
    ensures OurTotal(refunds) == 0 || (OurTotal(refunds) == c.received && db.refund.Some?)
    ensures (exists i :: 0 <= i < |refunds| && refunds[i].ours) <==> OurRefund(refunds).Some?
    ensures OurRefund(refunds).None? ==> OurTotal(refunds) == 0
    ensures OurRefund(refunds).Some? ==> OurTotal(refunds) == c.received
  {
    if refunds != [] {
      forall i, j | 0 <= i < |refunds[1..]| && 0 <= j < |refunds[1..]| && refunds[1..][i].ours && refunds[1..][j].ours
        ensures i == j
      {
        assert refunds[i + 1].ours && refunds[j + 1].ours;
      }
      TotalOfOne(c, db, refunds[1..]);
      var i := OurRefundIsFirst(refunds[1..]);
      assert OurRefund(refunds[1..]).Some? ==> refunds[i + 1].ours;
      if OurRefund(refunds).Some? {
        var k := OurRefundIsFirst(refunds);
        assert refunds[k].ours;
      } else {
        var _ := OurRefundIsFirst(refunds);
      }
    }
  }

  // ---- How a refunded order can be left ----

  /**
   * The steps that overwrite a refunded order: an advance call that read the order before the refund
   * and now stores its stale observation.
   */
  predicate Overwrites(c: Config, db: Rows, pc: Advance, ch: Choice)
    requires db.binding.Some? && (pc.BindingRefund? ==> db.refund.Some?)
  {
    var b := db.binding.value;
    match pc
    case BindingAnalysis(ev) => b.analysisId in {None, Some(ev.id)} && !ch.taken
    case BindingReport(ev) => b.analysisState == Some(ACompleted) && b.reportId in {None, Some(ev.id)} && !ch.taken
    case BindingRefund(op, ev, origin) =>
      && ev.status in {RequiresAction, Failed, Canceled}
      && ev.intent == op.intent && ev.amount == op.amount && ev.currency == op.currency
      && (origin.External? || IsMatching(c.settings, ev, op))
      && db.refund.value.refundId in {None, Some(ev.id)} && !ch.taken
    case Flagging(_, _) => true
    case _ => false
  }

  /**
   * The delivery steps that overwrite a refunded order: giving up after the last attempt, and recording a
   * final failure, both of which write the order whatever its state.
   */
  predicate GivesUp(db: Rows, pc: Deliver) {
    match pc
    case Exhausting => FirstAccepted(db.attempts).None? && |db.attempts| >= MAX_ATTEMPTS
    case Recording(i, MailUncertain(_)) => LastFailure(db, i, true)
    case Recording(i, MailRejected(_, retryable)) => LastFailure(db, i, retryable)
    case _ => false
  }

  predicate LastFailure(db: Rows, i: nat, retryable: bool) {
    i < |db.attempts| && db.attempts[i].status != Accepted && (!retryable || db.attempts[i].number >= MAX_ATTEMPTS)
  }

  /**
   * A refunded order is left by exactly these steps: an advance call's stale write, or a delivery that
   * gives up. No other step, and nothing a provider or operator does, changes its state.
   */
  lemma RefundedIsLeftExactly(c: Config, s: State, ev: Event)
    requires Reachable(c, s) && s.db.order.state == Refunded
    ensures s.db.binding.Some?
    ensures ev.StepAdvance? && ev.t in s.advances && s.advances[ev.t].BindingRefund? ==> s.db.refund.Some?
    ensures Apply(c, s, ev).db.order.state != Refunded <==>
              || (ev.StepAdvance? && ev.t in s.advances && Truthful(c, ev.ch) && Overwrites(c, s.db, s.advances[ev.t], ev.ch))
              || (ev.StepDeliver? && ev.t in s.deliveries && Truthful(c, ev.ch) && GivesUp(s.db, s.deliveries[ev.t]))
  {
    ReachableInv(c, s);
    assert RowsOk(c, s.db);
    assert s.db.order.payment != PayPaid;
    if ev.StepAdvance? && ev.t in s.advances {
      assert AdvanceOk(c, s.db, s.advances[ev.t]);
      hide Inv, RowsOk, Reachable, TrueAnalysis, TrueReport;
      RefundedAdvance(c, s.db, s.pv, s.advances[ev.t], ev.ch);
    } else if ev.StepDeliver? && ev.t in s.deliveries {
      hide Inv, RowsOk, Reachable, Truthful, DeliverStep;
      RefundedDelivery(c, s.db, s.pv, s.deliveries[ev.t], ev.ch);
    } else {
      hide Inv, RowsOk, Reachable, AdvanceStep, DeliverStep;
    }
  }

  lemma RefundedDelivery(c: Config, db: Rows, pv: Provider, pc: Deliver, ch: Choice)
    requires db.order.state == Refunded && db.order.payment != PayPaid
    ensures DeliverStep(c, db, pv, pc, ch).db.order.state != Refunded <==> GivesUp(db, pc)
  {
    hide GrantValid, MaxNumber, FirstAccepted;
  }

  lemma RefundedAdvance(c: Config, db: Rows, pv: Provider, pc: Advance, ch: Choice)
    requires db.order.state == Refunded && db.binding.Some? && AdvanceOk(c, db, pc)
    ensures pc.BindingRefund? ==> db.refund.Some?
    ensures AdvanceStep(c, db, pv, pc, ch).db.order.state != Refunded <==> Overwrites(c, db, pc, ch)
  {
    hide JudgeRefunds, CreateRefund, IntentValid, IsMatching, RefundValid, TrueAnalysis, TrueReport;
  }

  /**
   * Once an attempt is accepted, the order is opened for another delivery by exactly one kind of step:
   * an advance call storing a ready report it had fetched before.
   */
  lemma DeliveryIsReopenedOnlyByStaleReports(c: Config, s: State, ev: Event)
    requires Reachable(c, s) && HasAccepted(s.db.attempts) && s.db.order.fulfillment != DeliveryPending
    ensures s.db.binding.Some?
    ensures Apply(c, s, ev).db.order.fulfillment == DeliveryPending <==>
              ev.StepAdvance? && ev.t in s.advances && Truthful(c, ev.ch) && Reopens(s.db, s.advances[ev.t], ev.ch)
  {
    ReachableInv(c, s);
    assert RowsOk(c, s.db);
    if ev.StepAdvance? && ev.t in s.advances {
      assert AdvanceOk(c, s.db, s.advances[ev.t]);
      hide Inv, Reachable, TrueAnalysis;
      ReopeningAdvance(c, s.db, s.pv, s.advances[ev.t], ev.ch);
    } else if ev.StepDeliver? && ev.t in s.deliveries {
      hide Inv, RowsOk, Reachable, Truthful, DeliverStep;
      DeliverNeverReopens(c, s.db, s.pv, s.deliveries[ev.t], ev.ch);
    } else {
      hide Inv, RowsOk, Reachable, AdvanceStep, DeliverStep;
    }
  }

  predicate Reopens(db: Rows, pc: Advance, ch: Choice)
    requires db.binding.Some?
  {
    && pc.BindingReport? && pc.evidence.state == RReady && !ch.taken
    && db.binding.value.analysisState == Some(ACompleted) && db.binding.value.reportId == Some(pc.evidence.id)
  }

  lemma ReopeningAdvance(c: Config, db: Rows, pv: Provider, pc: Advance, ch: Choice)
    requires RowsOk(c, db) && db.attempts != [] && AdvanceOk(c, db, pc) && db.order.fulfillment != DeliveryPending
    ensures db.binding.Some?
    ensures AdvanceStep(c, db, pv, pc, ch).db.order.fulfillment == DeliveryPending <==> Reopens(db, pc, ch)
  {
    hide JudgeRefunds, CreateRefund, IntentValid, IsMatching, RefundValid, AttemptsOk;
    if !pc.BindingReport? {
      hide AdvanceOk, BindingOk, Deliverable, Entitled, BindReport;
    }
  }

  lemma DeliverNeverReopens(c: Config, db: Rows, pv: Provider, pc: Deliver, ch: Choice)
    requires db.order.fulfillment != DeliveryPending
    ensures DeliverStep(c, db, pv, pc, ch).db.order.fulfillment != DeliveryPending
  {
    hide ReadyContext, GrantValid, MaxNumber;
  }
}
