/** Every step of fulfillment keeps its invariant. */
module FulfillmentSteps {
  import opened Prelude
  import opened Orders
  import opened Fulfillment
  import opened FulfillmentProtocol
  import opened FulfillmentInvariant

  // ---- advance ----

  /** What one step of an advance call guarantees to itself and to everyone else. */
  predicate AdvanceGoesOn(c: Config, db: Rows, m: Moved<Advance>, mails: seq<nat>) {
    && Keeps(c, db, m.db)
    && ProviderOk(c, m.db, m.pv.refunds)
    && AdvanceOk(c, m.db, m.next)
    && m.db.attempts == db.attempts
    && m.pv.mails == mails
  }

  lemma Stays(c: Config, db: Rows, pv: Provider, next: Advance)
    requires RowsOk(c, db) && ProviderOk(c, db, pv.refunds) && AdvanceOk(c, db, next)
    ensures AdvanceGoesOn(c, db, Moved(db, pv, next), pv.mails)
  {
    hide RowsOk, Grows, ProviderOk, AdvanceOk;
    GrowsReflexive(db);
  }

  lemma Commits(c: Config, db: Rows, db': Rows, pv: Provider, next: Advance)
    requires Keeps(c, db, db') && ProviderOk(c, db, pv.refunds) && AdvanceOk(c, db', next) && db'.attempts == db.attempts
    ensures AdvanceGoesOn(c, db, Moved(db', pv, next), pv.mails)
  {
    hide RowsOk, Grows, ProviderOk, AdvanceOk;
    ProviderKept(c, db, db', pv.refunds);
  }

  lemma AdvanceStepGoesOn(c: Config, db: Rows, pv: Provider, pc: Advance, ch: Choice)
    requires RowsOk(c, db) && ProviderOk(c, db, pv.refunds) && AdvanceOk(c, db, pc) && Truthful(c, ch)
    ensures AdvanceGoesOn(c, db, AdvanceStep(c, db, pv, pc, ch), pv.mails)
  {
    hide AdvanceGoesOn, RowsOk, ProviderOk, Grows, PrepareAnalysis, BindAnalysis, BindReport, PersistEligibility, PrepareRefund,
         BindRefund, JudgeRefunds, CreateRefund, MarkAttention, IntentValid;
    if Reads(pc) {
      hide AdvanceStep;
      ReadingStepGoesOn(c, db, pv, pc, ch);
    } else {
      Stays(c, db, pv, AdvanceDone);
      match pc
      case Preparing =>
        var tx := PrepareAnalysis(c.settings, db);
        PrepareAnalysisKeeps(c, db);
        if tx.Committed? {
          assert tx.rows.attempts == db.attempts by { PrepareAnalysisAttempts(c.settings, db); }
          Commits(c, db, tx.rows, pv, Submitting(tx.value.key, tx.value.request, tx.value.analysisId));
        }
      case BindingAnalysis(ev) =>
        BindAnalysisKeeps(c, db, ev);
        if BindAnalysis(db, ev).Committed? && !ch.taken {
          assert BindAnalysis(db, ev).rows.attempts == db.attempts by { BindAttempts(db, ev, ch.report); }
          Commits(c, db, BindAnalysis(db, ev).rows, pv, AdvanceDone);
        }
      case BindingReport(ev) =>
        BindReportKeeps(c, db, ev);
        if BindReport(db, ev).Committed? && !ch.taken {
          assert BindReport(db, ev).rows.attempts == db.attempts by { BindAttempts(db, ch.analysis, ev); }
          Commits(c, db, BindReport(db, ev).rows, pv, AdvanceDone);
        }
      case Claiming(reason, resource) =>
        PersistEligibilityKeeps(c, db, reason, resource);
        var tx := PersistEligibility(db, reason, resource);
        if tx.Committed? {
          assert tx.rows.attempts == db.attempts by { RefundAttempts(c.settings, db, reason, resource, ch.money); }
          Commits(c, db, tx.rows, pv, LoadingRefund);
        }
      case PreparingRefund(money) =>
        PrepareRefundKeeps(c, db, money);
        var tx := PrepareRefund(db, money);
        if tx.Committed? {
          assert tx.rows.attempts == db.attempts by { RefundAttempts(c.settings, db, BecauseTimedOut, TheReport(0), money); }
          Commits(c, db, tx.rows, pv, ListingRefunds(tx.value));
        }
      case CreatingRefund(op) => CreatingGoesOn(c, db, pv, op, ch);
      case BindingRefund(op, ev, origin) =>
        BindRefundKeeps(c, db, op, ev, origin.External?, ch.taken);
        var tx := BindRefund(c.settings, db, op, ev, origin.External?, ch.taken);
        assert db.eligibility.Some? by { OperationIsEligible(c, db, op); }
        Stays(c, db, pv, AfterRefusedBinding(origin));
        if tx.Committed? {
          assert tx.rows.attempts == db.attempts by { BindRefundAttempts(c.settings, db, op, ev, origin.External?, ch.taken); }
          Commits(c, db, tx.rows, pv, AdvanceDone);
        }
      case Flagging(code, refundFailure) =>
        MarkAttentionKeeps(c, db, code, refundFailure);
        assert MarkAttention(db, code, refundFailure).attempts == db.attempts by { FlagAttempts(db, code, refundFailure); }
        Commits(c, db, MarkAttention(db, code, refundFailure), pv, AdvanceDone);
    }
  }

  /** The steps that change neither the rows nor the provider. */
  predicate Reads(pc: Advance) {
    !(pc.Preparing? || pc.BindingAnalysis? || pc.BindingReport? || pc.Claiming? || pc.PreparingRefund? || pc.CreatingRefund?
      || pc.BindingRefund? || pc.Flagging?)
  }

  lemma ReadingStepGoesOn(c: Config, db: Rows, pv: Provider, pc: Advance, ch: Choice)
    requires RowsOk(c, db) && ProviderOk(c, db, pv.refunds) && AdvanceOk(c, db, pc) && Truthful(c, ch) && Reads(pc)
    ensures AdvanceGoesOn(c, db, AdvanceStep(c, db, pv, pc, ch), pv.mails)
  {
    var next := AdvanceStep(c, db, pv, pc, ch).next;
    assert AdvanceOk(c, db, next) by {
      hide ProviderOk, IntentValid, Matching, Page, IsMatching;
      if pc.ListingRefunds? {
        hide JudgeRefunds;
        JudgedRefundsOk(c, db, Page(pv.refunds), pc.op);
      }
    }
    assert AdvanceStep(c, db, pv, pc, ch) == Moved(db, pv, next);
    hide RowsOk, ProviderOk, AdvanceOk, AdvanceStep;
    Stays(c, db, pv, next);
  }

  lemma JudgedRefundsOk(c: Config, db: Rows, page: seq<ProviderRefund>, op: Operation)
    requires RowsOk(c, db) && HasOperation(db, op)
    ensures AdvanceOk(c, db, JudgeRefunds(c.settings, page, op))
  {
    OperationIsEligible(c, db, op);
    hide RowsOk, Matching, RefundValid;
  }

  lemma OperationIsEligible(c: Config, db: Rows, op: Operation)
    requires RowsOk(c, db) && HasOperation(db, op)
    ensures db.eligibility.Some?
  {
  }

  lemma PrepareAnalysisAttempts(c: Settings, db: Rows)
    ensures PrepareAnalysis(c, db).Committed? ==> PrepareAnalysis(c, db).rows.attempts == db.attempts
  {
  }

  lemma BindAttempts(db: Rows, a: AnalysisEvidence, r: ReportEvidence)
    ensures BindAnalysis(db, a).Committed? ==> BindAnalysis(db, a).rows.attempts == db.attempts
    ensures BindReport(db, r).Committed? ==> BindReport(db, r).rows.attempts == db.attempts
  {
  }

  lemma RefundAttempts(c: Settings, db: Rows, reason: Reason, resource: Resource, money: IntentEvidence)
    ensures PersistEligibility(db, reason, resource).Committed? ==>
              PersistEligibility(db, reason, resource).rows.attempts == db.attempts
    ensures PrepareRefund(db, money).Committed? ==> PrepareRefund(db, money).rows.attempts == db.attempts
  {
  }

  lemma BindRefundAttempts(c: Settings, db: Rows, op: Operation, ev: RefundEvidence, external: bool, taken: bool)
    ensures var tx := BindRefund(c, db, op, ev, external, taken); tx.Committed? ==> tx.rows.attempts == db.attempts
  {
  }

  lemma FlagAttempts(db: Rows, code: string, refundFailure: bool)
    ensures MarkAttention(db, code, refundFailure).attempts == db.attempts
  {
  }

  // ---- The refund at the provider ----

  lemma {:induction false} OurRefundIsFirst(refunds: seq<ProviderRefund>) returns (i: nat)
    ensures OurRefund(refunds).Some? ==> i < |refunds| && refunds[i].ours && refunds[i].answer == OurRefund(refunds).value
    ensures OurRefund(refunds).None? ==> forall k :: 0 <= k < |refunds| ==> !refunds[k].ours
  {
    i := 0;
    if refunds != [] && !refunds[0].ours {
      var j := OurRefundIsFirst(refunds[1..]);
      i := j + 1;
      assert forall k :: 1 <= k < |refunds| ==> refunds[k] == refunds[1..][k - 1];
    }
  }

  lemma CreatingGoesOn(c: Config, db: Rows, pv: Provider, op: Operation, ch: Choice)
    requires RowsOk(c, db) && ProviderOk(c, db, pv.refunds) && HasOperation(db, op)
    ensures AdvanceGoesOn(c, db, AdvanceStep(c, db, pv, CreatingRefund(op), ch), pv.mails)
  {
    var (pv', ev) := CreateRefund(c.settings, pv, op, ch);
    OperationIsEligible(c, db, op);
    CreatedIsOurs(c, db, pv, op, ch);
    hide RowsOk, ProviderOk, CreateRefund, RefundValid;
    Stays(c, db, pv', AdvanceStep(c, db, pv, CreatingRefund(op), ch).next);
  }

  lemma CreatedIsOurs(c: Config, db: Rows, pv: Provider, op: Operation, ch: Choice)
    requires RowsOk(c, db) && ProviderOk(c, db, pv.refunds) && HasOperation(db, op)
    ensures var (pv', ev) := CreateRefund(c.settings, pv, op, ch);
            ProviderOk(c, db, pv'.refunds) && pv'.mails == pv.mails
  {
    var i := OurRefundIsFirst(pv.refunds);
    assert op.amount == c.received;
  }

  // ---- deliver ----

  predicate DeliverGoesOn(c: Config, db: Rows, pv: Provider, pc: Deliver, m: Moved<Deliver>) {
    && Keeps(c, db, m.db)
    && m.pv.refunds == pv.refunds
    && |db.attempts| <= |m.db.attempts|
    && (Holds(m.next) == Holds(pc) || Holds(m.next).None? || (Holds(m.next) == Some(|db.attempts|)
        && |m.db.attempts| > |db.attempts|))
    && (if pc.Sending? then m.pv.mails == pv.mails + [pc.i] else m.pv.mails == pv.mails)
    && (m.next.Dispatching? || m.next.Sending? ==> !pc.Sending? && !pc.Recording?)
  }

  lemma DeliverStepGoesOn(c: Config, db: Rows, pv: Provider, pc: Deliver, ch: Choice)
    requires RowsOk(c, db)
    ensures DeliverGoesOn(c, db, pv, pc, DeliverStep(c, db, pv, pc, ch))
  {
    hide RowsOk, Grows, Converge, Exhaust, PrepareAttempt, StartDispatch, RecordMail, ReadyContext;
    GrowsReflexive(db);
    match pc
    case Converging(_) => ConvergeKeeps(c, db, ch.now);
    case Exhausting => ExhaustKeeps(c, db);
    case PreparingAttempt(report, analysis) => PrepareAttemptKeeps(c, db, report, analysis, ch.now);
    case Dispatching(i) => StartDispatchKeeps(c, db, i);
    case Recording(i, mail) => RecordMailKeeps(c, db, i, mail, ch.now, ch.taken);
    case _ =>
  }

  lemma MailsGoOn(c: Config, s: State, t: int, m: Moved<Deliver>)
    requires t in s.deliveries && MailsOk(s.db, s.pv.mails, s.deliveries)
    requires DeliverGoesOn(c, s.db, s.pv, s.deliveries[t], m)
    ensures MailsOk(m.db, m.pv.mails, MoveDeliver(s, t, m).deliveries)
  {
    hide Keeps;
    var before, after := s.deliveries, MoveDeliver(s, t, m).deliveries;
    assert DeliverOk(s.db, s.pv.mails, before[t]);
    forall u | u in after ensures DeliverOk(m.db, m.pv.mails, after[u]) {
      if u != t { assert DeliverOk(s.db, s.pv.mails, before[u]); }
    }
  }

  // ---- All events ----

  lemma AdvanceKeepsInv(c: Config, s: State, t: int, ch: Choice)
    requires Inv(c, s) && t in s.advances && Truthful(c, ch)
    ensures var s' := Apply(c, s, StepAdvance(t, ch)); Inv(c, s') && Grows(s.db, s'.db)
  {
    assert AdvanceOk(c, s.db, s.advances[t]);
    hide RowsOk, ProviderOk, AdvanceOk, Grows, AdvanceStep, Truthful, MailsOk;
    AdvanceStepGoesOn(c, s.db, s.pv, s.advances[t], ch);
    var s' := Apply(c, s, StepAdvance(t, ch));
    forall u | u in s'.advances ensures AdvanceOk(c, s'.db, s'.advances[u]) {
      if u != t { AdvanceKept(c, s.db, s'.db, s.advances[u]); }
    }
    MailsKept(s.db, s'.db, s.pv.mails, s.deliveries);
  }

  lemma MailsKept(db: Rows, db': Rows, mails: seq<nat>, deliveries: map<int, Deliver>)
    requires MailsOk(db, mails, deliveries) && |db.attempts| <= |db'.attempts|
    ensures MailsOk(db', mails, deliveries)
  {
    forall t | t in deliveries ensures DeliverOk(db', mails, deliveries[t]) {
      assert DeliverOk(db, mails, deliveries[t]);
    }
  }

  lemma DeliverKeepsInv(c: Config, s: State, t: int, ch: Choice)
    requires Inv(c, s) && t in s.deliveries && Truthful(c, ch)
    ensures var s' := Apply(c, s, StepDeliver(t, ch)); Inv(c, s') && Grows(s.db, s'.db)
  {
    hide RowsOk, ProviderOk, AdvanceOk, Grows, DeliverStep, Truthful, MailsOk;
    DeliverStepGoesOn(c, s.db, s.pv, s.deliveries[t], ch);
    var m := DeliverStep(c, s.db, s.pv, s.deliveries[t], ch);
    MailsGoOn(c, s, t, m);
    ProviderKept(c, s.db, m.db, s.pv.refunds);
    forall u | u in s.advances ensures AdvanceOk(c, m.db, s.advances[u]) { AdvanceKept(c, s.db, m.db, s.advances[u]); }
  }

  lemma OthersKept(c: Config, s: State, db': Rows)
    requires Inv(c, s) && Keeps(c, s.db, db')
    ensures Inv(c, s.(db := db'))
  {
    hide RowsOk, ProviderOk, AdvanceOk, MailsOk;
    ProviderKept(c, s.db, db', s.pv.refunds);
    MailsKept(s.db, db', s.pv.mails, s.deliveries);
    forall u | u in s.advances ensures AdvanceOk(c, db', s.advances[u]) {
      AdvanceKept(c, s.db, db', s.advances[u]);
    }
  }

  lemma StepKeepsInv(c: Config, s: State, ev: Event)
    requires Inv(c, s)
    ensures Inv(c, Apply(c, s, ev)) && Grows(s.db, Apply(c, s, ev).db)
  {
    GrowsReflexive(s.db);
    hide AdvanceStep, DeliverStep;
    var s' := Apply(c, s, ev);
    match ev
    case StepAdvance(t, ch) => if t in s.advances && Truthful(c, ch) { hide Inv, Apply, Grows; AdvanceKeepsInv(c, s, t, ch); }
    case StepDeliver(t, ch) => if t in s.deliveries && Truthful(c, ch) { hide Inv, Apply, Grows; DeliverKeepsInv(c, s, t, ch); }
    case Decide(paid) => DecideKeepsInv(c, s, paid);
    case Revoke(i) => RevokeKeepsInv(c, s, i);
    case StartAdvance(t) => hide RowsOk, MailsOk, ProviderOk;
    case StopAdvance(t) => hide RowsOk, MailsOk, ProviderOk;
    case StartDeliver(t) => hide RowsOk, AdvanceOk, ProviderOk; StartDeliverMails(c, s, t);
    case StopDeliver(t) => hide RowsOk, AdvanceOk, ProviderOk;
    case RefundElsewhere(e) => hide RowsOk, AdvanceOk, MailsOk;
    case RefundMoves(i, status) => hide RowsOk, AdvanceOk, MailsOk; RefundMovesKeeps(c, s, i, status);
  }

  lemma RefundMovesKeeps(c: Config, s: State, i: nat, status: RefundStatus)
    requires Inv(c, s)
    ensures ProviderOk(c, s.db, Apply(c, s, RefundMoves(i, status)).pv.refunds)
  {
    hide RowsOk, AdvanceOk, MailsOk;
    var before, after := s.pv.refunds, Apply(c, s, RefundMoves(i, status)).pv.refunds;
    forall k | 0 <= k < |after| && after[k].ours
      ensures s.db.refund.Some? && OurRefundOk(c, after[k].evidence, s.db.refund.value.operation)
    {
      assert before[k].ours;
    }
  }

  lemma StartDeliverMails(c: Config, s: State, t: int)
    requires Inv(c, s)
    ensures var s' := Apply(c, s, StartDeliver(t)); MailsOk(s'.db, s'.pv.mails, s'.deliveries)
  {
    hide RowsOk, AdvanceOk, ProviderOk;
  }

  lemma DecideKeepsInv(c: Config, s: State, paid: bool)
    requires Inv(c, s)
    ensures Inv(c, Apply(c, s, Decide(paid))) && Grows(s.db, Apply(c, s, Decide(paid)).db)
  {
    GrowsReflexive(s.db);
    var s' := Apply(c, s, Decide(paid));
    if s' != s {
      assert Keeps(c, s.db, s'.db) by { hide AdvanceOk, MailsOk, ProviderOk; AttemptsSame(s.db.attempts); }
      hide Inv, Keeps;
      OthersKept(c, s, s'.db);
    }
  }

  lemma RevokeKeepsInv(c: Config, s: State, i: nat)
    requires Inv(c, s)
    ensures Inv(c, Apply(c, s, Revoke(i))) && Grows(s.db, Apply(c, s, Revoke(i)).db)
  {
    GrowsReflexive(s.db);
    if i < |s.db.attempts| {
      var a := s.db.attempts[i];
      var a' := a.(grant := a.grant.(revoked := true));
      assert a.status == Accepted ==> a.messageId.Some? by { AcceptedHasMessage(c, s.db, i); }
      assert RowsOk(c, s.db);
      hide Inv, RowsOk, Grows;
      AttemptChangeKeeps(c, s.db, i, a', s.db.order);
      OthersKept(c, s, s.db.(attempts := s.db.attempts[i := a'], order := s.db.order));
    }
  }

  lemma AcceptedHasMessage(c: Config, db: Rows, i: nat)
    requires RowsOk(c, db) && i < |db.attempts|
    ensures AttemptOk(db.attempts[i], i, db.attempts[i].reportId)
  {
    assert AttemptOk(db.attempts[i], i, db.binding.value.reportId.value);
  }

  lemma InitInv(c: Config, product: string, catalog: string, email: string, intent: Option<string>)
    ensures Inv(c, Init(product, catalog, email, intent))
  {
  }

  lemma {:induction false} RunKeepsInv(c: Config, s: State, es: seq<Event>)
    requires Inv(c, s)
    ensures Inv(c, Run(c, s, es)) && Grows(s.db, Run(c, s, es).db)
    decreases |es|
  {
    hide Inv, Apply, Grows;
    GrowsReflexive(s.db);
    if es != [] {
      var mid := Apply(c, s, es[0]);
      StepKeepsInv(c, s, es[0]);
      RunKeepsInv(c, mid, es[1..]);
      GrowsTransitive(s.db, mid.db, Run(c, mid, es[1..]).db);
    }
  }
}
