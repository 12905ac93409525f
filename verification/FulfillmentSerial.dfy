/** What non-overlapping advance calls add: a stable refund, a single acceptance, and convergence. */
module FulfillmentSerial {
  import opened Prelude
  import opened Orders
  import opened Fulfillment
  import opened FulfillmentProtocol
  import opened FulfillmentInvariant
  import opened FulfillmentSteps
  import opened FulfillmentSafety

  /** The states an advance call returns from at once. */
  predicate Settled(o: Order) {
    || o.state in {Refunded, Fulfilled, AttentionRequired}
    || o.fulfillment in {DeliveryPending, Delivered, DeliveryFailed}
  }

  predicate OneAcceptance(attempts: seq<Attempt>) {
    forall i, j :: 0 <= i < |attempts| && 0 <= j < |attempts| && attempts[i].status == Accepted && attempts[j].status
        == Accepted
      ==> i == j
  }

  predicate SerialRows(db: Rows) {
    && (db.attempts != [] || db.order.fulfillment == DeliveryPending ==>
          && db.binding.Some? && db.binding.value.analysisState == Some(ACompleted)
          && db.binding.value.reportState == Some(RReady))
    && (db.attempts != [] ==> db.order.fulfillment in {DeliveryPending, Delivered, DeliveryFailed})
    && (db.eligibility.Some? ==> db.attempts == [] && ReasonOf(db.order.fulfillment).Some?)
    && OneAcceptance(db.attempts)
    && (HasAccepted(db.attempts) ==> db.order.fulfillment != DeliveryPending)
    && (db.order.state == Refunded ==>
          && db.order.payment == PayRefunded && db.refund.Some?
          && db.refund.value.status == Some(Succeeded) && db.refund.value.refundId.Some?)
  }

  /** An advance call that goes for a refund, and one that goes for an analysis or a report. */
  predicate InPhase(o: Order, pc: Advance) {
    && (Refunding(pc) ==> ReasonOf(o.fulfillment).Some?)
    && (Binds(pc) ==> ReasonOf(o.fulfillment).None?)
  }

  predicate Binds(pc: Advance) {
    || pc.Preparing? || pc.Submitting? || pc.BindingAnalysis? || pc.CheckingBinding? || pc.LoadingAnalysis? || pc.PollingAnalysis?
    || pc.LoadingReport? || pc.ResolvingReport? || pc.GettingReport? || pc.BindingReport?
  }

  predicate Refunding(pc: Advance) {
    !pc.Reading? && !pc.AdvanceDone? && !Binds(pc)
  }

  /** While the order is settled, the one advance call there may be has only just begun. */
  predicate SerialInv(c: Config, s: State) {
    && Inv(c, s)
    && SerialRows(s.db)
    && (forall t, u :: t in s.advances && u in s.advances ==> t == u)
    && (forall t :: t in s.advances && Settled(s.db.order) ==> s.advances[t].Reading?)
    && (forall t :: t in s.advances ==> InPhase(s.db.order, s.advances[t]))
  }

  // ---- advance ----

  lemma AdvanceSerial(c: Config, db: Rows, pv: Provider, pc: Advance, ch: Choice)
    requires RowsOk(c, db) && AdvanceOk(c, db, pc) && SerialRows(db) && (Settled(db.order) ==> pc.Reading?)
    requires InPhase(db.order, pc)
    ensures var m := AdvanceStep(c, db, pv, pc, ch);
            && SerialRows(m.db)
            && (Settled(m.db.order) ==> m.next.Reading? || m.next.AdvanceDone?)
            && (Settled(db.order) ==> m.db == db)
            && InPhase(m.db.order, m.next)
  {
    if Reads(pc) || pc.CreatingRefund? {
      hide RowsOk, SerialRows, AdvanceOk, AdvanceStep;
      ReadingSerial(c, db, pv, pc, ch);
    } else {
      WritingSerial(c, db, pv, pc, ch);
    }
  }

  lemma ReadingSerial(c: Config, db: Rows, pv: Provider, pc: Advance, ch: Choice)
    requires (Reads(pc) || pc.CreatingRefund?) && (Settled(db.order) ==> pc.Reading?) && InPhase(db.order, pc)
    ensures var m := AdvanceStep(c, db, pv, pc, ch);
            && m.db == db
            && (Settled(db.order) ==> m.next.Reading? || m.next.AdvanceDone?)
            && InPhase(db.order, m.next)
  {
    hide PrepareAnalysis, BindAnalysis, BindReport, PersistEligibility, PrepareRefund, BindRefund, MarkAttention;
    hide CreateRefund, IntentValid, RefundValid, Matching, Page, ReadStatus, JudgeRefunds;
    if pc.Reading? { StatusPhase(db); }
    if pc.ListingRefunds? { JudgedPhase(c.settings, db.order, Page(pv.refunds), pc.op); }
  }

  lemma StatusPhase(db: Rows)
    ensures InPhase(db.order, ReadStatus(db))
    ensures Settled(db.order) ==> ReadStatus(db).AdvanceDone?
  {
  }

  lemma JudgedPhase(c: Settings, o: Order, page: seq<ProviderRefund>, op: Operation)
    requires ReasonOf(o.fulfillment).Some?
    ensures InPhase(o, JudgeRefunds(c, page, op))
  {
    hide RefundValid, Matching;
  }

  lemma WritingSerial(c: Config, db: Rows, pv: Provider, pc: Advance, ch: Choice)
    requires RowsOk(c, db) && AdvanceOk(c, db, pc) && SerialRows(db) && !Settled(db.order)
    requires !Reads(pc) && !pc.CreatingRefund? && !pc.AdvanceDone? && InPhase(db.order, pc)
    ensures var m := AdvanceStep(c, db, pv, pc, ch);
            && SerialRows(m.db)
            && (Settled(m.db.order) ==> m.next.AdvanceDone?)
            && InPhase(m.db.order, m.next)
  {
    assert db.attempts == [] && db.order.state != Fulfilled;
    if Binds(pc) { BindingSerial(c, db, pv, pc, ch); } else { RefundingSerial(c, db, pv, pc, ch); }
  }

  lemma BindingSerial(c: Config, db: Rows, pv: Provider, pc: Advance, ch: Choice)
    requires AdvanceOk(c, db, pc) && SerialRows(db) && !Settled(db.order) && db.attempts == []
    requires !Reads(pc) && Binds(pc) && InPhase(db.order, pc)
    ensures var m := AdvanceStep(c, db, pv, pc, ch);
            && SerialRows(m.db)
            && (Settled(m.db.order) ==> m.next.AdvanceDone?)
            && InPhase(m.db.order, m.next)
  {
    hide PersistEligibility, PrepareRefund, BindRefund, MarkAttention, JudgeRefunds, CreateRefund, IntentValid, RefundValid;
    hide TrueAnalysis, TrueReport;
  }

  lemma RefundingSerial(c: Config, db: Rows, pv: Provider, pc: Advance, ch: Choice)
    requires RowsOk(c, db) && AdvanceOk(c, db, pc) && SerialRows(db) && !Settled(db.order) && db.attempts == []
    requires !Reads(pc) && Refunding(pc) && !pc.CreatingRefund? && InPhase(db.order, pc)
    ensures var m := AdvanceStep(c, db, pv, pc, ch);
            && SerialRows(m.db)
            && (Settled(m.db.order) ==> m.next.AdvanceDone?)
            && InPhase(m.db.order, m.next)
  {
    hide PrepareAnalysis, BindAnalysis, BindReport, JudgeRefunds, CreateRefund, IntentValid, RefundValid, IsMatching;
    hide BindingOk, Deliverable, Entitled, AttemptsOk, TrueAnalysis, TrueReport, UnboundOk;
    hide ReadStatus, LoadReport, Reprove;
  }

  lemma AdvanceKeepsSerial(c: Config, s: State, t: int, ch: Choice)
    requires SerialInv(c, s) && t in s.advances && Truthful(c, ch)
    ensures SerialInv(c, Apply(c, s, StepAdvance(t, ch)))
  {
    assert RowsOk(c, s.db) && AdvanceOk(c, s.db, s.advances[t]);
    AdvanceSerial(c, s.db, s.pv, s.advances[t], ch);
    hide SerialRows, RowsOk, AdvanceOk, AdvanceStep, Truthful, ProviderOk, MailsOk;
    AdvanceKeepsInv(c, s, t, ch);
  }

  // ---- deliver ----

  /** An order with an attempt has no refund reason, whatever became of its report. */
  lemma SerialPaid(c: Config, db: Rows)
    requires RowsOk(c, db) && SerialRows(db) && db.attempts != []
    ensures db.binding.Some? && db.eligibility.None? && db.refund.None?
    ensures db.order.payment == PayPaid && db.order.state != Refunded
  {
  }

  /** What a delivery step leaves of the reasons to refund. */
  predicate SameReason(db: Rows, db': Rows) {
    && (Settled(db'.order) ==> Settled(db.order))
    && ReasonOf(db'.order.fulfillment) == ReasonOf(db.order.fulfillment)
  }

  lemma SameReasonReflexive(db: Rows)
    ensures SameReason(db, db)
  {
  }

  lemma ConvergeSerial(c: Config, db: Rows, now: int)
    requires RowsOk(c, db) && SerialRows(db)
    ensures var tx := Converge(db, now);
            tx.Committed? ==> SerialRows(tx.rows) && SameReason(db, tx.rows)
  {
    hide BindingOk, AttemptsOk;
    if FirstAccepted(db.attempts).Some? { SerialPaid(c, db); }
  }

  lemma ExhaustSerial(c: Config, db: Rows)
    requires RowsOk(c, db) && SerialRows(db)
    ensures var tx := Exhaust(db);
            tx.Committed? ==> SerialRows(tx.rows) && SameReason(db, tx.rows)
  {
    hide BindingOk, AttemptsOk;
    if db.attempts != [] { SerialPaid(c, db); }
  }

  lemma PrepareAttemptSerial(c: Config, db: Rows, report: Id, analysis: Id, now: int)
    requires RowsOk(c, db) && SerialRows(db)
    ensures var tx := PrepareAttempt(c.settings, db, report, analysis, now);
            tx.Committed? ==> SerialRows(tx.rows) && tx.rows.order == db.order
  {
    hide BindingOk, AttemptsOk, MaxNumber;
    var tx := PrepareAttempt(c.settings, db, report, analysis, now);
    if tx.Committed? {
      assert forall i :: 0 <= i < |tx.rows.attempts| ==> tx.rows.attempts[i].status != Accepted;
    }
  }

  lemma StartDispatchSerial(c: Config, db: Rows, i: nat)
    requires RowsOk(c, db) && SerialRows(db)
    ensures var tx := StartDispatch(db, i); tx.Committed? ==> SerialRows(tx.rows) && tx.rows.order == db.order
  {
    hide RowsOk;
    var tx := StartDispatch(db, i);
    if tx.Committed? && i < |db.attempts| {
      assert forall k :: 0 <= k < |db.attempts| && tx.rows.attempts[k].status == Accepted ==> db.attempts[k].status == Accepted;
    }
  }

  lemma RecordMailSerial(c: Config, db: Rows, i: nat, mail: Mail, now: int, taken: bool)
    requires RowsOk(c, db) && SerialRows(db)
    ensures var tx := RecordMail(db, i, mail, now, taken);
            tx.Committed? ==> SerialRows(tx.rows) && SameReason(db, tx.rows)
  {
    var tx := RecordMail(db, i, mail, now, taken);
    if tx.Committed? {
      SerialPaid(c, db);
      hide RowsOk, GrantValid;
      assert forall k :: 0 <= k < |db.attempts| && k != i ==> tx.rows.attempts[k] == db.attempts[k];
      if !mail.MailAccepted? && db.attempts[i].status != Accepted {
        assert forall k ::
            0 <= k < |db.attempts| && tx.rows.attempts[k].status == Accepted ==> db.attempts[k].status == Accepted;
      }
    }
  }

  lemma DeliverSerial(c: Config, db: Rows, pv: Provider, pc: Deliver, ch: Choice)
    requires RowsOk(c, db) && SerialRows(db)
    ensures var m := DeliverStep(c, db, pv, pc, ch); SerialRows(m.db) && SameReason(db, m.db)
  {
    SameReasonReflexive(db);
    hide RowsOk, SerialRows, Settled, Converge, Exhaust, PrepareAttempt, StartDispatch, RecordMail;
    match pc
    case Converging(_) => ConvergeSerial(c, db, ch.now);
    case Exhausting => ExhaustSerial(c, db);
    case PreparingAttempt(report, analysis) => PrepareAttemptSerial(c, db, report, analysis, ch.now);
    case Dispatching(i) => StartDispatchSerial(c, db, i);
    case Recording(i, mail) => RecordMailSerial(c, db, i, mail, ch.now, ch.taken);
    case _ =>
  }

  // ---- All events ----

  lemma StepKeepsSerial(c: Config, s: State, ev: Event)
    requires c.serial && SerialInv(c, s)
    ensures SerialInv(c, Apply(c, s, ev))
  {
    hide Inv;
    StepKeepsInv(c, s, ev);
    assert RowsOk(c, s.db) by { InvRows(c, s); }
    match ev
    case StepAdvance(t, ch) =>
      hide SerialInv, Apply;
      if t in s.advances && Truthful(c, ch) { AdvanceKeepsSerial(c, s, t, ch); } else { Unchanged(c, s, ev); }
    case StepDeliver(t, ch) => DeliverKeepsSerial(c, s, t, ch);
    case Decide(paid) => hide BoundOk;
    case Revoke(i) => RevokeSerial(c, s, i);
    case _ => OtherKeepsSerial(c, s, ev);
  }

  lemma OtherKeepsSerial(c: Config, s: State, ev: Event)
    requires c.serial && SerialInv(c, s) && Inv(c, Apply(c, s, ev))
    requires !ev.StepAdvance? && !ev.StepDeliver? && !ev.Decide? && !ev.Revoke?
    ensures SerialInv(c, Apply(c, s, ev))
  {
    hide Inv, SerialRows, AdvanceStep, DeliverStep, Settled, ReasonOf;
  }

  lemma DeliverKeepsSerial(c: Config, s: State, t: int, ch: Choice)
    requires SerialInv(c, s) && RowsOk(c, s.db) && Inv(c, Apply(c, s, StepDeliver(t, ch)))
    ensures SerialInv(c, Apply(c, s, StepDeliver(t, ch)))
  {
    hide Inv, RowsOk, SerialRows, Settled, DeliverStep, Truthful, ReasonOf;
    if t in s.deliveries { DeliverSerial(c, s.db, s.pv, s.deliveries[t], ch); }
  }

  lemma InvRows(c: Config, s: State)
    requires Inv(c, s)
    ensures RowsOk(c, s.db)
  {
  }

  lemma Unchanged(c: Config, s: State, ev: Event)
    requires ev.StepAdvance? && (ev.t !in s.advances || !Truthful(c, ev.ch))
    ensures Apply(c, s, ev) == s
  {
  }

  lemma RevokeSerial(c: Config, s: State, i: nat)
    requires SerialInv(c, s) && Inv(c, Apply(c, s, Revoke(i)))
    ensures SerialInv(c, Apply(c, s, Revoke(i)))
  {
    hide Inv;
    var db, db' := s.db, Apply(c, s, Revoke(i)).db;
    assert |db'.attempts| == |db.attempts|;
    assert forall k :: 0 <= k < |db.attempts| ==> db'.attempts[k].status == db.attempts[k].status;
    assert HasAccepted(db'.attempts) ==> HasAccepted(db.attempts);
  }

  lemma {:induction false} RunKeepsSerial(c: Config, s: State, es: seq<Event>)
    requires c.serial && SerialInv(c, s)
    ensures SerialInv(c, Run(c, s, es))
    decreases |es|
  {
    hide SerialInv, Apply;
    if es != [] {
      StepKeepsSerial(c, s, es[0]);
      RunKeepsSerial(c, Apply(c, s, es[0]), es[1..]);
    }
  }

  lemma ReachableSerial(c: Config, s: State)
    requires c.serial && Reachable(c, s)
    ensures SerialInv(c, s)
  {
    var product: string, catalog: string, email: string, intent: Option<string> :|
      Leads(c, Init(product, catalog, email, intent), s);
    var es :| s == Run(c, Init(product, catalog, email, intent), es);
    InitInv(c, product, catalog, email, intent);
    hide Inv, Run;
    assert SerialInv(c, Init(product, catalog, email, intent));
    RunKeepsSerial(c, Init(product, catalog, email, intent), es);
  }

  // ---- Results ----

  /**
   * Without overlapping advance calls, delivery and refund exclude each other even when reports change
   * their state: a report that becomes failed after it was found ready is never asked for again.
   */
  lemma DeliveryExcludesRefundThroughout(c: Config, s: State)
    requires c.serial && Reachable(c, s) && s.db.attempts != []
    ensures s.db.eligibility.None? && s.db.refund.None?
    ensures forall i :: 0 <= i < |s.pv.refunds| ==> !s.pv.refunds[i].ours
    ensures s.db.order.payment == PayPaid && s.db.order.state != Refunded
  {
    hide Reachable;
    ReachableSerial(c, s);
    SerialPaid(c, s.db);
  }

  /** At most one delivery attempt is ever accepted by the provider, on record. */
  lemma AtMostOneAcceptance(c: Config, s: State, i: nat, j: nat)
    requires c.serial && Reachable(c, s) && i < |s.db.attempts| && j < |s.db.attempts|
    requires s.db.attempts[i].status == Accepted && s.db.attempts[j].status == Accepted
    ensures i == j
  {
    hide Inv, Reachable;
    ReachableSerial(c, s);
  }

  /** A refunded order has a succeeded refund of everything that was received. */
  lemma RefundedIsInFull(c: Config, s: State)
    requires c.serial && Reachable(c, s) && s.db.order.state == Refunded
    ensures s.db.order.payment == PayRefunded && s.db.refund.Some?
    ensures s.db.refund.value.status == Some(Succeeded) && s.db.refund.value.amount == Some(c.received) && c.received > 0
  {
    hide Reachable;
    ReachableSerial(c, s);
    hide AdvanceOk, ProviderOk, MailsOk;
  }

  lemma RefundedIsEligible(c: Config, db: Rows)
    requires RowsOk(c, db) && SerialRows(db) && db.order.state == Refunded
    ensures db.attempts == []
  {
  }

  lemma RefundedStep(c: Config, s: State, ev: Event)
    requires c.serial && SerialInv(c, s) && s.db.order.state == Refunded
    ensures Apply(c, s, ev).db.order == s.db.order && Apply(c, s, ev).db.refund == s.db.refund
  {
    hide Inv;
    assert RowsOk(c, s.db) by { InvRows(c, s); }
    assert s.db.attempts == [] by { RefundedIsEligible(c, s.db); }
    if ev.StepAdvance? && ev.t in s.advances {
      hide RowsOk, SerialRows;
      assert s.advances[ev.t].Reading?;
    } else if ev.StepDeliver? && ev.t in s.deliveries {
      hide RowsOk, SerialInv, DeliverStep;
      DeliverWrites(c, s.db, s.pv, s.deliveries[ev.t], ev.ch);
      DeliverRefund(c, s.db, s.pv, s.deliveries[ev.t], ev.ch);
    } else {
      hide RowsOk, SerialInv, AdvanceStep, DeliverStep;
    }
  }

  lemma DeliverRefund(c: Config, db: Rows, pv: Provider, pc: Deliver, ch: Choice)
    ensures DeliverStep(c, db, pv, pc, ch).db.refund == db.refund
  {
    hide ReadyContext, GrantValid, MaxNumber;
  }

  /** Refunded is final: neither the order row nor the refund row ever changes again. */
  lemma RefundedIsFinal(c: Config, s: State, s': State)
    requires c.serial && Reachable(c, s) && Leads(c, s, s') && s.db.order.state == Refunded
    ensures s'.db.order == s.db.order && s'.db.refund == s.db.refund
  {
    hide Reachable, Run, SerialInv;
    ReachableSerial(c, s);
    var es :| s' == Run(c, s, es);
    RefundedRun(c, s, es);
  }

  lemma {:induction false} RefundedRun(c: Config, s: State, es: seq<Event>)
    requires c.serial && SerialInv(c, s) && s.db.order.state == Refunded
    ensures Run(c, s, es).db.order == s.db.order && Run(c, s, es).db.refund == s.db.refund
    decreases |es|
  {
    hide SerialInv, Apply;
    if es != [] {
      RefundedStep(c, s, es[0]);
      StepKeepsSerial(c, s, es[0]);
      RefundedRun(c, Apply(c, s, es[0]), es[1..]);
    }
  }

  /**
   * A provider acceptance on record is never lost: while its grant is valid, the next deliver call
   * makes the order fulfilled, whatever later failures did to the order in between.
   */
  lemma AcceptanceConverges(c: Config, s: State, t: int, i: nat, ch: Choice)
    requires c.serial && Reachable(c, s) && i < |s.db.attempts| && s.db.attempts[i].status == Accepted
    requires !s.db.attempts[i].grant.revoked && s.db.attempts[i].grant.expiresAt > ch.now
    requires t !in s.deliveries && Truthful(c, ch)
    ensures var s' := Apply(c, Apply(c, s, StartDeliver(t)), StepDeliver(t, ch));
            s'.db == s.db.(order := Fulfil(s.db.order)) && s'.deliveries == s.deliveries
  {
    hide Reachable;
    ReachableSerial(c, s);
    assert AttemptOk(s.db.attempts[i], i, s.db.binding.value.reportId.value);
    SerialPaid(c, s.db);
    hide AdvanceOk, ProviderOk, MailsOk, RowsOk, Truthful, AttemptOk;
    var first := FirstAccepted(s.db.attempts);
    assert first == Some(i);
    var s1 := Apply(c, s, StartDeliver(t));
    assert Converge(s1.db, ch.now) == Committed(s.db.(order := Fulfil(s.db.order)), true);
    assert s1.deliveries - {t} == s.deliveries;
  }
}
