/** The inductive invariant of the finalization step system, proved one step kind at a time. */
module FinalizationInvariant {
  import opened Prelude
  import opened Lifecycle
  import opened Finalization

  /** A canonical success is durable, nothing terminal is. */
  predicate Sheltered(s: State) {
    s.analysis.Some? && s.analysis.value.state == Running && s.analysis.value.successAt.Some? && s.report.None?
  }

  predicate InProgress(s: State) {
    s.analysis.Some? && s.analysis.value.state == Running && s.report.None?
  }

  /** The terminal pair is durable with this result. */
  predicate PairDurable(s: State, body: Json) {
    && s.analysis.Some? && s.analysis.value.state == Completed && s.analysis.value.result == Some(body)
    && s.report.Some?
  }

  predicate NoReadyReport(s: State) {
    s.report.Some? ==> s.report.value.body.FailedReport?
  }

  predicate HoldsFailed(s: State, art: Artifact) {
    s.report == Some(FailedOf(art))
  }

  /** What a worker may rely on when it is about to take the step `pc`, in database terms alone. */
  predicate PcRows(s: State, pc: Pc)
    decreases pc
  {
    match pc
    case Opening => true
    case Executing => InProgress(s)
    case Deciding(_, _) => InProgress(s)
    case Generating(_, _) => Sheltered(s)
    case HeadChecking(_, _, _, _, _) => Sheltered(s)
    case Retracting(_, _, _, _) => Sheltered(s)
    case Prepared(_, _, _) => Sheltered(s)
    case Settling(_, _, _) => false
    case Reconciling(body, art) => Sheltered(s) || (PairDurable(s, body) && s.report == Some(art))
    case Discarding(_, after) => NoReadyReport(s) && PcRows(s, after) && AfterCleanup(after)
    case Demoting(body, art, tries) => 0 < tries <= DEMOTION_TRIES && art.body.ReadyReport? && PairDurable(s, body)
        && Resolved(s, art)
    case Rereading(body, art, tries) => 0 < tries <= DEMOTION_TRIES && art.body.ReadyReport? && PairDurable(s, body)
        && Resolved(s, art)
    case Pairing(body, art) => PairDurable(s, body) && NoReadyReport(s)
    case PairChecking(body, art) => PairDurable(s, body) && NoReadyReport(s)
    case FailingPair(_, _) => Sheltered(s)
    case ReconcilingFailed(body, art) =>
      art.body.FailedReport? && (Sheltered(s) || (PairDurable(s, body) && s.report == Some(art)))
    case Filling(_, _) => false
    case FillChecking(_, _) => false
    case Handling => true
    case Leaving(answer) =>
      match answer
      case Reports(state) => s.analysis.Some? && s.analysis.value.state == state && Terminal(state)
      case FailedWithoutRow => true
      case Missing => true
      case Retry => true
      case Raised => true
  }

  /** Only the row this worker committed, or that row failed by it, can be there. */
  predicate Resolved(s: State, art: Artifact) {
    s.report == Some(art) || HoldsFailed(s, art)
  }

  /** The steps that can follow a cleanup delete. */
  predicate AfterCleanup(pc: Pc) {
    pc.FailingPair? || pc.Pairing? || pc.Leaving?
  }

  /** What a worker may rely on in the object store. */
  predicate PcBucket(c: Config, s: State, pc: Pc) {
    match pc
    case HeadChecking(_, _, _, _, bytes) =>
      Key(c) in s.bucket && s.bucket[Key(c)] == bytes && ValidPdf(c, bytes)
    case Prepared(_, _, art) => Backed(c, s.bucket, art)
    case Reconciling(_, art) => Backed(c, s.bucket, art)
    case _ => true
  }

  predicate Rows(s: State) {
    && (s.analysis.Some? ==> Coherent(s.analysis.value))
    && (s.report.Some? <==> s.analysis.Some? && s.analysis.value.state == Completed)
  }

  predicate Inv(c: Config, s: State) {
    && Rows(s)
    && (s.report.Some? ==> Backed(c, s.bucket, s.report.value))
    && (forall w :: w in s.workers ==> s.lock == Some(w))
    && (forall w :: w in s.workers ==> PcRows(s, s.workers[w]) && PcBucket(c, s, s.workers[w]))
  }

  /** After its step the worker is alone, at a program point whose assumptions hold. */
  predicate Advanced(c: Config, s: State, s': State, w: WorkerId) {
    && s'.lock == s.lock
    && s'.workers.Keys == s.workers.Keys
    && w in s'.workers
    && Rows(s')
    && (s'.report.Some? ==> Backed(c, s'.bucket, s'.report.value))
    && PcRows(s', s'.workers[w]) && PcBucket(c, s', s'.workers[w])
  }

  predicate At(c: Config, s: State, w: WorkerId) {
    Inv(c, s) && w in s.workers
  }

  lemma AdvancedKeepsInv(c: Config, s: State, s': State, w: WorkerId)
    requires At(c, s, w)
    requires Advanced(c, s, s', w)
    ensures Inv(c, s')
  {
    forall v | v in s'.workers ensures v == w {
      assert v in s.workers && s.lock == Some(v);
    }
  }

  lemma OpenKeeps(c: Config, s: State, w: WorkerId, ch: Choice)
    requires At(c, s, w) && s.workers[w].Opening?
    ensures Advanced(c, s, Open(s, w, ch), w)
  {
  }

  lemma DecideKeeps(c: Config, s: State, w: WorkerId, o: Outcome, at: int, ch: Choice)
    requires At(c, s, w) && s.workers[w] == Deciding(o, at)
    ensures Advanced(c, s, Decide(s, w, o, at, ch), w)
  {
  }

  lemma GenerateKeeps(c: Config, s: State, w: WorkerId, ch: Choice)
    requires At(c, s, w)
    requires s.workers[w].Generating? || s.workers[w].HeadChecking? || s.workers[w].Retracting?
    ensures Advanced(c, s, WorkerStep(c, s, w, ch), w)
  {
  }

  lemma PersistPairKeeps(c: Config, s: State, w: WorkerId, body: Json, at: int, art: Artifact, ch: Choice)
    requires At(c, s, w) && s.workers[w] == Prepared(body, at, art)
    ensures Advanced(c, s, PersistPair(s, w, body, at, art, ch), w)
  {
  }

  lemma ReconcileKeeps(c: Config, s: State, w: WorkerId, body: Json, art: Artifact, ch: Choice)
    requires At(c, s, w) && s.workers[w] == Reconciling(body, art)
    ensures Advanced(c, s, Reconcile(s, w, body, art, ch), w)
  {
  }

  lemma RepairKeeps(c: Config, s: State, w: WorkerId, ch: Choice)
    requires At(c, s, w)
    requires s.workers[w].Demoting? || s.workers[w].Rereading? || s.workers[w].Pairing? || s.workers[w].PairChecking?
    ensures Advanced(c, s, WorkerStep(c, s, w, ch), w)
  {
    if s.workers[w].Demoting? || s.workers[w].Rereading? {
      DemoteKeeps(c, s, w, ch);
    } else {
      hide Open, Execute, Decide, Generate, HeadCheck, Retract, PersistPair, SettleRefusal, Reconcile, Discard, Demote, Reread,
           FailPair, ReconcileFailed, Fill, FillCheck, Handle;
    }
  }

  lemma DemoteKeeps(c: Config, s: State, w: WorkerId, ch: Choice)
    requires At(c, s, w) && (s.workers[w].Demoting? || s.workers[w].Rereading?)
    ensures Advanced(c, s, WorkerStep(c, s, w, ch), w)
  {
  }

  lemma FailPairKeeps(c: Config, s: State, w: WorkerId, ch: Choice)
    requires At(c, s, w)
    requires s.workers[w].FailingPair? || s.workers[w].ReconcilingFailed?
    ensures Advanced(c, s, WorkerStep(c, s, w, ch), w)
  {
  }

  lemma DiscardKeeps(c: Config, s: State, w: WorkerId, art: Artifact, after: Pc, ch: Choice)
    requires At(c, s, w) && s.workers[w] == Discarding(art, after)
    ensures Advanced(c, s, Discard(s, w, art, after, ch), w)
  {
    PcRowsIgnoreBucket(s, Discard(s, w, art, after, ch), after);
  }

  /** The database assumptions of a program point depend on the two rows alone. */
  lemma PcRowsIgnoreBucket(s: State, s': State, pc: Pc)
    requires s'.analysis == s.analysis && s'.report == s.report
    ensures PcRows(s', pc) == PcRows(s, pc)
    decreases pc
  {
    if pc.Discarding? { PcRowsIgnoreBucket(s, s', pc.after); }
  }

  lemma HandleKeeps(c: Config, s: State, w: WorkerId, ch: Choice)
    requires At(c, s, w) && s.workers[w].Handling?
    ensures Advanced(c, s, Handle(s, w, ch), w)
  {
  }

  lemma WorkKeepsInv(c: Config, s: State, w: WorkerId, ch: Choice)
    requires At(c, s, w)
    ensures Inv(c, WorkerStep(c, s, w, ch))
  {
    var s' := WorkerStep(c, s, w, ch);
    match s.workers[w]
    case Opening => OpenKeeps(c, s, w, ch); AdvancedKeepsInv(c, s, s', w);
    case Executing => assert Advanced(c, s, s', w); AdvancedKeepsInv(c, s, s', w);
    case Deciding(o, at) => DecideKeeps(c, s, w, o, at, ch); AdvancedKeepsInv(c, s, s', w);
    case Generating(_, _) => GenerateKeeps(c, s, w, ch); AdvancedKeepsInv(c, s, s', w);
    case HeadChecking(_, _, _, _, _) => GenerateKeeps(c, s, w, ch); AdvancedKeepsInv(c, s, s', w);
    case Retracting(_, _, _, _) => GenerateKeeps(c, s, w, ch); AdvancedKeepsInv(c, s, s', w);
    case Prepared(body, at, art) => PersistPairKeeps(c, s, w, body, at, art, ch); AdvancedKeepsInv(c, s, s', w);
    case Settling(_, _, _) => assert false;
    case Reconciling(body, art) => ReconcileKeeps(c, s, w, body, art, ch); AdvancedKeepsInv(c, s, s', w);
    case Discarding(art, after) => DiscardKeeps(c, s, w, art, after, ch); AdvancedKeepsInv(c, s, s', w);
    case Demoting(_, _, _) => RepairKeeps(c, s, w, ch); AdvancedKeepsInv(c, s, s', w);
    case Rereading(_, _, _) => RepairKeeps(c, s, w, ch); AdvancedKeepsInv(c, s, s', w);
    case Pairing(_, _) => RepairKeeps(c, s, w, ch); AdvancedKeepsInv(c, s, s', w);
    case PairChecking(_, _) => RepairKeeps(c, s, w, ch); AdvancedKeepsInv(c, s, s', w);
    case FailingPair(_, _) => FailPairKeeps(c, s, w, ch); AdvancedKeepsInv(c, s, s', w);
    case ReconcilingFailed(_, _) => FailPairKeeps(c, s, w, ch); AdvancedKeepsInv(c, s, s', w);
    case Filling(_, _) => assert false;
    case FillChecking(_, _) => assert false;
    case Handling => HandleKeeps(c, s, w, ch); AdvancedKeepsInv(c, s, s', w);
    case Leaving(_) =>
      forall v | v in s.workers ensures v == w { assert s.lock == Some(v); }
  }

  /** Two analyses never share an object key: the UUID texts carry no separator. */
  lemma StorageKeyInjective(c1: string, a1: string, c2: string, a2: string)
    requires UuidText(c1) && UuidText(a1) && UuidText(c2) && UuidText(a2)
    requires StorageKey(c1, a1) == StorageKey(c2, a2)
    ensures c1 == c2 && a1 == a2
  {
    PathInjective("reports/", c1, a1, c2, a2, ARTIFACT_VERSION + ".pdf");
  }

  lemma PathInjective(prefix: string, c1: string, a1: string, c2: string, a2: string, leaf: string)
    requires UuidText(c1) && UuidText(a1) && UuidText(c2) && UuidText(a2)
    requires Path(prefix, c1, a1, leaf) == Path(prefix, c2, a2, leaf)
    ensures c1 == c2 && a1 == a2
  {
    var t1, t2 := a1 + "/" + leaf, a2 + "/" + leaf;
    assert Path(prefix, c1, a1, leaf)[|prefix|..] == c1 + "/" + t1;
    assert Path(prefix, c2, a2, leaf)[|prefix|..] == c2 + "/" + t2;
    SplitAtSlash(c1, t1, c2, t2);
    SplitAtSlash(a1, leaf, a2, leaf);
  }

  /** A text splits at its first slash in one way only. */
  lemma SplitAtSlash(s1: string, t1: string, s2: string, t2: string)
    requires UuidText(s1) && UuidText(s2)
    requires s1 + "/" + t1 == s2 + "/" + t2
    ensures s1 == s2 && t1 == t2
  {
    var x1, x2 := s1 + "/" + t1, s2 + "/" + t2;
    assert x1[|s1|] == '/' && x2[|s2|] == '/';
    assert forall i :: 0 <= i < |s1| ==> x1[i] == s1[i] && x1[i] != '/';
    assert forall i :: 0 <= i < |s2| ==> x2[i] == s2[i] && x2[i] != '/';
    assert |s1| == |s2|;
    assert s1 == x1[..|s1|] && s2 == x2[..|s2|];
    assert t1 == x1[|s1| + 1..] && t2 == x2[|s2| + 1..];
  }

  lemma EnvironmentKeepsInv(c: Config, s: State, e: Event)
    requires WellFormed(c) && Inv(c, s)
    requires !e.Work?
    ensures Inv(c, Apply(c, s, e))
  {
    var s' := Apply(c, s, e);
    match e
    case Submit(_, _) =>
      forall w | w in s.workers ensures PcRows(s', s.workers[w]) {
        if s.analysis.None? { SubmitKeepsPc(s, s', s.workers[w]); }
      }
    case Start(_) =>
    case Crash(_) =>
    case CloseIdleConnection =>
    case Poll(_) =>
    case ForeignWrite(consumer, analysis, _) =>
      if StorageKey(consumer, analysis) == Key(c) && UuidText(consumer) && UuidText(analysis) {
        StorageKeyInjective(consumer, analysis, c.consumer, c.analysis);
      }
      forall w | w in s.workers ensures PcRows(s', s.workers[w]) {
        PcRowsIgnoreBucket(s, s', s.workers[w]);
      }
  }

  /** A submission inserts the row only while no attempt relies on there being one. */
  lemma SubmitKeepsPc(s: State, s': State, pc: Pc)
    requires s.analysis.None? && PcRows(s, pc)
    requires s'.report == s.report
    ensures PcRows(s', pc)
    decreases pc
  {
    if pc.Discarding? { SubmitKeepsPc(s, s', pc.after); }
  }

  lemma StepKeepsInv(c: Config, s: State, e: Event)
    requires WellFormed(c) && Inv(c, s)
    ensures Inv(c, Apply(c, s, e))
  {
    if e.Work? {
      if e.w in s.workers { WorkKeepsInv(c, s, e.w, e.ch); }
    } else {
      EnvironmentKeepsInv(c, s, e);
    }
  }

  lemma {:induction false} RunKeepsInv(c: Config, s: State, es: seq<Event>)
    requires WellFormed(c) && Inv(c, s)
    ensures Inv(c, Run(c, s, es))
    decreases |es|
  {
    if es != [] {
      StepKeepsInv(c, s, es[0]);
      RunKeepsInv(c, Apply(c, s, es[0]), es[1..]);
    }
  }
}
