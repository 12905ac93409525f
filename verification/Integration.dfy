/**
 * Fulfillment of one order against SiteScore itself: the answers to submissions and report requests come
 * from the submission table and from the finalization of the order's analysis, whose own steps interleave
 * with those of fulfillment. What fulfillment alone would have to assume about identities follows.
 */
module Integration {
  import opened Prelude
  import opened Fulfillment
  import opened FulfillmentProtocol
  import FI = FulfillmentInvariant
  import FS = FulfillmentSafety
  import FT = FulfillmentSteps
  import S = Submission
  import Z = Finalization
  import ZS = FinalizationSafety

  /** `consumer` is the service account the orders are submitted under; `hash` is the canonical request hash. */
  datatype Setup = Setup(order: Config, report: Z.Config, consumer: int, hash: string -> string)

  datatype World = World(order: State, api: S.State, report: Z.State)

  datatype WorldEvent = OrderStep(oe: Event) | ApiStep(ae: S.Event) | ReportStep(re: Z.Event)

  function KeyOf(x: Setup, key: string): S.Key {
    S.Key(x.consumer, key)
  }

  /** The submission service has computed this answer, delivered or not. */
  predicate Answered(x: Setup, w: World, key: string, request: string, id: Id) {
    S.Accepted(KeyOf(x, key), x.hash(request), id) in w.api.answers
  }

  /** What resolving or reading the report of the analysis shows now. */
  predicate Shown(w: World, ev: ReportEvidence) {
    match ZS.Resolve(w.report)
    case Resource(row) => row.reportId == ev.id && (row.body.ReadyReport? <==> ev.state == RReady)
    case _ => false
  }

  /** A step that asks SiteScore gets SiteScore's answer. */
  predicate Honest(x: Setup, w: World, e: Event) {
    match e
    case StepAdvance(t, ch) =>
      t in w.order.advances ==>
        (match w.order.advances[t]
         case Submitting(key, request, _) => Answered(x, w, key, request, ch.analysis.id)
         case ResolvingReport(_) => Shown(w, ch.report)
         case GettingReport(_, _) => Shown(w, ch.report)
         case ReprovingReport(_, _, _) => Shown(w, ch.report)
         case _ => true)
    case StepDeliver(t, ch) =>
      t in w.order.deliveries && w.order.deliveries[t].FetchingReport? ==> Shown(w, ch.report)
    case _ => true
  }

  ghost function ApplyWorld(x: Setup, w: World, e: WorldEvent): World {
    match e
    case OrderStep(oe) => if Honest(x, w, oe) then w.(order := Apply(x.order, w.order, oe)) else w
    case ApiStep(ae) => w.(api := S.Apply(w.api, ae))
    case ReportStep(re) => w.(report := Z.Apply(x.report, w.report, re))
  }

  ghost function RunWorld(x: Setup, w: World, es: seq<WorldEvent>): World
    decreases |es|
  {
    if es == [] then w else RunWorld(x, ApplyWorld(x, w, es[0]), es[1..])
  }

  function NewWorld(product: string, catalog: string, email: string, intent: Option<string>): World {
    World(Init(product, catalog, email, intent), S.INIT, Z.INIT)
  }

  // ---- Invariant ----

  /** This analysis holds the idempotency key of the order. */
  predicate TheAnalysisId(x: Setup, w: World, id: Id) {
    S.Holder(w.api.rows, KeyOf(x, AnalysisKey(x.order.settings)), id)
  }

  predicate TheReportId(w: World, id: Id) {
    w.report.report.Some? && w.report.report.value.reportId == id
  }

  predicate PcIds(x: Setup, w: World, pc: Advance) {
    && (pc.BindingAnalysis? ==> TheAnalysisId(x, w, pc.analysis.id))
    && (pc.BindingReport? ==> TheReportId(w, pc.evidence.id))
  }

  predicate BoundIds(x: Setup, w: World) {
    w.order.db.binding.Some? ==>
      && (w.order.db.binding.value.analysisId.Some? ==> TheAnalysisId(x, w, w.order.db.binding.value.analysisId.value))
      && (w.order.db.binding.value.reportId.Some? ==> TheReportId(w, w.order.db.binding.value.reportId.value))
  }

  ghost predicate Inv(x: Setup, w: World) {
    && FI.Inv(x.order, w.order)
    && S.Inv(w.api)
    && ZS.Reachable(x.report, w.report)
    && BoundIds(x, w)
    && (forall t :: t in w.order.advances ==> PcIds(x, w, w.order.advances[t]))
  }

  /** Which ids a step of an advance call binds, and which it takes along. */
  lemma AdvanceIds(c: Config, db: Rows, pv: Provider, pc: Advance, ch: Choice)
    ensures var m := AdvanceStep(c, db, pv, pc, ch);
            && (m.db.binding.Some? && m.db.binding.value.analysisId.Some? ==>
                  || (pc.BindingAnalysis? && m.db.binding.value.analysisId.value == pc.analysis.id)
                  || (db.binding.Some? && db.binding.value.analysisId == m.db.binding.value.analysisId))
            && (m.db.binding.Some? && m.db.binding.value.reportId.Some? ==>
                  || (pc.BindingReport? && m.db.binding.value.reportId.value == pc.evidence.id)
                  || (db.binding.Some? && db.binding.value.reportId == m.db.binding.value.reportId))
            && (m.next.BindingAnalysis? ==>
                  m.next.analysis.id == ch.analysis.id && (pc.Submitting? || (pc.PollingAnalysis? && ch.analysis.id == pc.id)))
            && (m.next.BindingReport? ==> m.next.evidence == ch.report && (pc.ResolvingReport? || pc.GettingReport?))
  {
    hide JudgeRefunds, CreateRefund, IntentValid, RefundValid, IsMatching, ReadStatus, MarkAttention, PersistEligibility,
         PrepareRefund, BindRefund;
    RefundsBindNothing(c, db, pc, ch);
    if pc.Reading? { ReadingBindsNothing(db); }
    if pc.ListingRefunds? { JudgingBindsNothing(c.settings, Page(pv.refunds), pc.op); }
  }

  lemma RefundsBindNothing(c: Config, db: Rows, pc: Advance, ch: Choice)
    ensures pc.Claiming? ==> PersistEligibility(db, pc.reason, pc.resource).Committed? ==>
              PersistEligibility(db, pc.reason, pc.resource).rows.binding == db.binding
    ensures pc.PreparingRefund? ==> PrepareRefund(db, pc.money).Committed? ==> PrepareRefund(db, pc.money).rows.binding == db.binding
    ensures pc.BindingRefund? ==>
              var tx := BindRefund(c.settings, db, pc.op, pc.refund, pc.origin.External?, ch.taken);
              tx.Committed? ==> tx.rows.binding == db.binding
    ensures pc.Flagging? ==> MarkAttention(db, pc.code, pc.refundFailure).binding == db.binding
  {
    hide IsMatching;
  }

  lemma ReadingBindsNothing(db: Rows)
    ensures !ReadStatus(db).BindingAnalysis? && !ReadStatus(db).BindingReport?
  {
  }

  lemma JudgingBindsNothing(c: Settings, page: seq<ProviderRefund>, op: Operation)
    ensures !JudgeRefunds(c, page, op).BindingAnalysis? && !JudgeRefunds(c, page, op).BindingReport?
  {
    hide RefundValid, Matching;
  }

  /** What a call hears about its analysis or its report names the one the order has. */
  lemma AnswersAreTheIds(x: Setup, w: World, t: int, ch: Choice)
    requires Inv(x, w) && t in w.order.advances && Honest(x, w, StepAdvance(t, ch)) && Truthful(x.order, ch)
    ensures var pc := w.order.advances[t];
            && PcIds(x, w, pc)
            && (pc.Submitting? ==> TheAnalysisId(x, w, ch.analysis.id))
            && (pc.PollingAnalysis? ==> TheAnalysisId(x, w, pc.id))
            && (pc.ResolvingReport? || pc.GettingReport? ==> TheReportId(w, ch.report.id))
  {
    var pc := w.order.advances[t];
    assert FI.AdvanceOk(x.order, w.order.db, pc) && PcIds(x, w, pc);
    if pc.Submitting? { AnswerHolds(x, w, pc.key, pc.request, ch.analysis.id); }
  }

  lemma AdvanceKeepsIds(x: Setup, w: World, t: int, ch: Choice)
    requires Inv(x, w) && t in w.order.advances && Honest(x, w, StepAdvance(t, ch)) && Truthful(x.order, ch)
    ensures Inv(x, ApplyWorld(x, w, OrderStep(StepAdvance(t, ch))))
  {
    var s := w.order;
    var pc := s.advances[t];
    AnswersAreTheIds(x, w, t, ch);
    AdvanceIds(x.order, s.db, s.pv, pc, ch);
    hide FI.Inv, S.Inv, ZS.Reachable, AdvanceStep, Truthful, TheAnalysisId, TheReportId, Honest;
    FT.AdvanceKeepsInv(x.order, s, t, ch);
    MovedIds(x, w, t, AdvanceStep(x.order, s.db, s.pv, pc, ch));
  }

  lemma MovedIds(x: Setup, w: World, t: int, m: Moved<Advance>)
    requires forall u :: u in w.order.advances ==> PcIds(x, w, w.order.advances[u])
    requires BoundIds(x, w.(order := w.order.(db := m.db))) && PcIds(x, w, m.next)
    ensures var w' := w.(order := MoveAdvance(w.order, t, m));
            BoundIds(x, w') && forall u :: u in w'.order.advances ==> PcIds(x, w', w'.order.advances[u])
  {
    hide TheAnalysisId, TheReportId;
    var w' := w.(order := MoveAdvance(w.order, t, m));
    SameServices(x, w, w');
    SameServices(x, w, w.(order := w.order.(db := m.db)));
    forall u | u in w'.order.advances ensures PcIds(x, w', w'.order.advances[u]) {
      if u != t { assert PcIds(x, w, w.order.advances[u]); }
    }
  }

  lemma SameServices(x: Setup, w: World, w': World)
    requires w'.api == w.api && w'.report == w.report
    ensures forall id :: TheAnalysisId(x, w', id) == TheAnalysisId(x, w, id) && TheReportId(w', id) == TheReportId(w, id)
  {
  }

  lemma AnswerHolds(x: Setup, w: World, key: string, request: string, id: Id)
    requires S.Inv(w.api) && Answered(x, w, key, request, id)
    ensures S.Holder(w.api.rows, KeyOf(x, key), id)
  {
    var i :| 0 <= i < |w.api.answers| && w.api.answers[i] == S.Accepted(KeyOf(x, key), x.hash(request), id);
    assert S.AnswerOk(w.api.rows, w.api.answers[i]);
  }

  lemma OtherOrderStepsKeepIds(x: Setup, w: World, e: Event)
    requires Inv(x, w) && Honest(x, w, e)
    requires e.StepAdvance? ==> e.t !in w.order.advances || !Truthful(x.order, e.ch)
    ensures Inv(x, ApplyWorld(x, w, OrderStep(e)))
  {
    var s, s' := w.order, Apply(x.order, w.order, e);
    FT.StepKeepsInv(x.order, s, e);
    assert s'.db.binding == s.db.binding by { BindingStays(x.order, s, e); }
    assert forall u :: u in s'.advances ==> s'.advances[u].Reading? || (u in s.advances && s'.advances[u] == s.advances[u]) by {
      OthersAdvances(x.order, s, e);
    }
    hide FI.Inv, S.Inv, ZS.Reachable, Apply, TheAnalysisId, TheReportId;
    var w' := ApplyWorld(x, w, OrderStep(e));
    SameServices(x, w, w');
    forall u | u in w'.order.advances ensures PcIds(x, w', w'.order.advances[u]) {
      if !s'.advances[u].Reading? { assert PcIds(x, w, s.advances[u]); }
    }
  }

  lemma BindingStays(c: Config, s: State, e: Event)
    requires e.StepAdvance? ==> e.t !in s.advances || !Truthful(c, e.ch)
    ensures Apply(c, s, e).db.binding == s.db.binding
  {
    hide AdvanceStep, DeliverStep, Truthful;
    if e.StepDeliver? && e.t in s.deliveries { FS.DeliverWrites(c, s.db, s.pv, s.deliveries[e.t], e.ch); }
  }

  lemma OthersAdvances(c: Config, s: State, e: Event)
    requires e.StepAdvance? ==> e.t !in s.advances || !Truthful(c, e.ch)
    ensures var s' := Apply(c, s, e);
            forall u :: u in s'.advances ==> s'.advances[u].Reading? || (u in s.advances && s'.advances[u] == s.advances[u])
  {
    hide AdvanceStep, DeliverStep, Truthful;
  }

  lemma ApiKeepsIds(x: Setup, w: World, e: S.Event)
    requires Inv(x, w)
    ensures Inv(x, ApplyWorld(x, w, ApiStep(e)))
  {
    hide FI.Inv, ZS.Reachable;
    S.StepKeepsInv(w.api, e);
    var w' := ApplyWorld(x, w, ApiStep(e));
    hide S.Inv, S.Apply;
    assert forall id :: TheAnalysisId(x, w, id) ==> TheAnalysisId(x, w', id);
    forall u | u in w'.order.advances ensures PcIds(x, w', w'.order.advances[u]) {
      assert PcIds(x, w, w.order.advances[u]);
    }
  }

  /** A report keeps its id through every step of finalization, a demotion included. */
  lemma ReportKeepsIds(x: Setup, w: World, e: Z.Event)
    requires Z.WellFormed(x.report) && Inv(x, w)
    ensures Inv(x, ApplyWorld(x, w, ReportStep(e)))
  {
    var w' := ApplyWorld(x, w, ReportStep(e));
    if w.report.report.Some? { ZS.ReportRowChangesOnlyByDemotion(x.report, w.report, e); }
    ZS.ReachableStep(x.report, w.report, e);
    hide FI.Inv, ZS.Reachable, S.Inv, Z.Apply;
    assert forall id :: TheReportId(w, id) ==> TheReportId(w', id);
    forall u | u in w'.order.advances ensures PcIds(x, w', w'.order.advances[u]) {
      assert PcIds(x, w, w.order.advances[u]);
    }
  }

  lemma {:induction false} WorldKeepsIds(x: Setup, w: World, es: seq<WorldEvent>)
    requires Z.WellFormed(x.report) && Inv(x, w)
    ensures Inv(x, RunWorld(x, w, es))
    decreases |es|
  {
    hide Inv, ApplyWorld;
    if es != [] {
      StepKeepsIds(x, w, es[0]);
      WorldKeepsIds(x, ApplyWorld(x, w, es[0]), es[1..]);
    }
  }

  lemma StepKeepsIds(x: Setup, w: World, e: WorldEvent)
    requires Z.WellFormed(x.report) && Inv(x, w)
    ensures Inv(x, ApplyWorld(x, w, e))
  {
    hide Inv, Truthful, Z.WellFormed;
    match e
    case OrderStep(oe) =>
      if Honest(x, w, oe) {
        if oe.StepAdvance? && oe.t in w.order.advances && Truthful(x.order, oe.ch) {
          hide ApplyWorld;
          AdvanceKeepsIds(x, w, oe.t, oe.ch);
        } else {
          hide ApplyWorld;
          OtherOrderStepsKeepIds(x, w, oe);
        }
      }
    case ApiStep(ae) => ApiKeepsIds(x, w, ae);
    case ReportStep(re) => ReportKeepsIds(x, w, re);
  }

  lemma NewWorldInv(x: Setup, product: string, catalog: string, email: string, intent: Option<string>)
    ensures Inv(x, NewWorld(product, catalog, email, intent))
  {
    FT.InitInv(x.order, product, catalog, email, intent);
    ZS.LeadsNowhere(x.report, Z.INIT);
  }

  // ---- Results ----

  /**
   * One order yields one analysis: however submissions are repeated, lost, interleaved and answered, the
   * bound analysis is the one that holds the order's key, every answer in flight names the same one, and
   * storing it never conflicts.
   */
  lemma OneOrderOneAnalysis(x: Setup, product: string, catalog: string, email: string, intent: Option<string>,
                            es: seq<WorldEvent>, t: int)
    requires Z.WellFormed(x.report)
    ensures var w := RunWorld(x, NewWorld(product, catalog, email, intent), es);
            && (w.order.db.binding.Some? && w.order.db.binding.value.analysisId.Some? ==>
                  forall id :: TheAnalysisId(x, w, id) <==> id == w.order.db.binding.value.analysisId.value)
            && (t in w.order.advances && w.order.advances[t].BindingAnalysis? ==>
                  && (forall id :: TheAnalysisId(x, w, id) <==> id == w.order.advances[t].analysis.id)
                  && BindAnalysis(w.order.db, w.order.advances[t].analysis).Committed?)
  {
    var w := RunWorld(x, NewWorld(product, catalog, email, intent), es);
    NewWorldInv(x, product, catalog, email, intent);
    WorldKeepsIds(x, NewWorld(product, catalog, email, intent), es);
    hide RunWorld, NewWorld, ZS.Reachable;
    if t in w.order.advances {
      assert FI.AdvanceOk(x.order, w.order.db, w.order.advances[t]) && PcIds(x, w, w.order.advances[t]);
    }
    hide FI.Inv;
    KeyIsUnique(x, w);
  }

  lemma KeyIsUnique(x: Setup, w: World)
    requires S.Inv(w.api)
    ensures forall a, b :: TheAnalysisId(x, w, a) && TheAnalysisId(x, w, b) ==> a == b
  {
  }

  /**
   * And one report: its id is bound once, every answer in flight carries it, and storing an observation of
   * it fails only while the stored state of the analysis is not completed.
   */
  lemma OneAnalysisOneReport(x: Setup, product: string, catalog: string, email: string, intent: Option<string>,
                            es: seq<WorldEvent>, t: int)
    requires Z.WellFormed(x.report)
    ensures var w := RunWorld(x, NewWorld(product, catalog, email, intent), es);
            && (w.order.db.binding.Some? && w.order.db.binding.value.reportId.Some? ==>
                  TheReportId(w, w.order.db.binding.value.reportId.value))
            && (t in w.order.advances && w.order.advances[t].BindingReport? ==>
                  && TheReportId(w, w.order.advances[t].evidence.id)
                  && w.order.db.binding.Some?
                  && (BindReport(w.order.db, w.order.advances[t].evidence).Committed?
                      <==> w.order.db.binding.value.analysisState == Some(ACompleted)))
  {
    var w := RunWorld(x, NewWorld(product, catalog, email, intent), es);
    NewWorldInv(x, product, catalog, email, intent);
    WorldKeepsIds(x, NewWorld(product, catalog, email, intent), es);
    hide RunWorld, NewWorld, ZS.Reachable;
    if t in w.order.advances {
      assert FI.AdvanceOk(x.order, w.order.db, w.order.advances[t]) && PcIds(x, w, w.order.advances[t]);
    }
    hide FI.Inv;
  }
}
