/**
 * One recovery run (sitescore-commerce recovery.py `run_once`, `_process_claim`, and the overriding
 * recovery_lineage.py): what a claim can end in, over every branch and every call that can raise, and what
 * the run reports of it.
 *
 * The answers of stores and providers come from `world`, call by call; `log` records each call and how it
 * ended. Tests on stored rows and evidence are answered as such: their content is the payment protocol's.
 */
module RecoveryRun {
  import opened Prelude
  import opened Orders

  /** What a call can raise; every other exception class behaves like `Other`. */
  datatype Failure = ProviderDown | StoreDown | BindingInvalid | Other

  datatype ClaimCall =
    | LoadSnapshot | LoadStaleEvent | Correlate | LoadOrder | RetrieveEvidence | MarkInbox | ApplyEvent | ApplyPoll
    | FinishClaim | FinishAttention | PaidAuthority | Send | RecordReplay | MarkPublished

  datatype Site =
    | BeginRun | SeedCandidates | ClaimBatch | FinishRun  // of the run itself
    | InClaim(call: ClaimCall)                            // while a claim is processed
    | CheckLease(after: Failure) | NoteFailure(after: Failure)  // while its failure is noted

  /** `yes` is a boolean answer, or that a fenced write was not refused. */
  datatype Entry = Entry(site: Site, fault: Option<Failure>, yes: bool)

  datatype Snapshot = Snapshot(
    state: OrderState, payment: PaymentState, recent: bool, outboxes: nat, published: bool, publishedRecently: bool, bound: bool)

  /** The tests `_resume_inbox` makes on a stored event. */
  datatype Stored = Stored(apiVersionOk: bool, livemodeOk: bool, supported: bool, hasSession: bool, completed: bool)

  /** The tests made on provider evidence. */
  datatype Proof = Proof(valid: bool, paid: bool, expired: bool, intent: bool, nonterminal: bool)

  /** What a fenced reconciliation answers while the lease holds. */
  datatype Transition = Refused | AlreadyTerminal | Transitioned

  datatype Transport = Accepted | Uncertain | RetryableRejected | Unwanted

  datatype Answer = Answer(
    fault: Option<Failure>, yes: bool, count: nat, snapshot: Snapshot, stale: Option<Stored>, proof: Proof,
    transition: Transition, transport: Transport)

  const COUNTED: set<string> := {"reconciled", "published", "replayed", "deferred", "attention"}
  const LABELS: set<string> := COUNTED + {"lease_lost"}

  /** A failure that the code around the call turns into a result. */
  predicate Caught(e: Entry) {
    e.fault == Some(BindingInvalid) && (e.site == InClaim(LoadOrder) || e.site == InClaim(RetrieveEvidence))
  }

  /** A failure that nothing in the run catches. */
  predicate Escapes(e: Entry) {
    && e.fault.Some?
    && match e.site
       case BeginRun => true
       case SeedCandidates => true
       case ClaimBatch => true
       case FinishRun => true
       case InClaim(_) => false
       case CheckLease(after) => after == ProviderDown || e.fault != Some(StoreDown)
       case NoteFailure(after) => after == ProviderDown || e.fault != Some(StoreDown)
  }

  datatype Response = Response(claimed: nat, counts: map<string, nat>)

  /** Where a claim's end is counted. */
  function CountedAs(end: string): string {
    if end in COUNTED then end else "deferred"
  }

  function Occurrences(ends: seq<string>, outcome: string): nat {
    if ends == [] then 0
    else Occurrences(ends[..|ends| - 1], outcome) + if CountedAs(ends[|ends| - 1]) == outcome then 1 else 0
  }

  function Total(counts: map<string, nat>): nat
    requires counts.Keys == COUNTED
  {
    counts["reconciled"] + counts["published"] + counts["replayed"] + counts["deferred"] + counts["attention"]
  }

  /** Claim processing went from one log to the next without an open failure. */
  ghost predicate Quiet(before: seq<Entry>, after: seq<Entry>) {
    && before <= after
    && forall i :: |before| <= i < |after| ==> after[i].site.InClaim? && (after[i].fault.None? || Caught(after[i]))
  }

  /** How a stretch of claim processing ends: with a result, or raising the failure of its last call. */
  ghost predicate Ends(before: seq<Entry>, after: seq<Entry>, raised: Option<Failure>) {
    if raised.None? then Quiet(before, after)
    else
      && |before| < |after| && Quiet(before, after[..|after| - 1])
      && after[|after| - 1].site.InClaim? && after[|after| - 1].fault == raised && !Caught(after[|after| - 1])
  }

  lemma EndsQuietly(before: seq<Entry>, after: seq<Entry>)
    requires Ends(before, after, None)
    ensures Quiet(before, after)
  {
  }

  lemma Joined(before: seq<Entry>, middle: seq<Entry>, after: seq<Entry>, raised: Option<Failure>)
    requires Quiet(before, middle) && Ends(middle, after, raised)
    ensures Ends(before, after, raised) && before <= middle <= after
  {
    if raised.Some? {
      var front := after[..|after| - 1];
      assert before <= front;
      forall i | |before| <= i < |front| ensures front[i].site.InClaim? && (front[i].fault.None? || Caught(front[i])) {
        if i < |middle| { assert front[i] == middle[i]; }
      }
      assert middle <= after;
    } else {
      forall i | |before| <= i < |after| ensures after[i].site.InClaim? && (after[i].fault.None? || Caught(after[i])) {
        if i < |middle| { assert after[i] == middle[i]; }
      }
    }
  }

  /** What a result says about the last call: success was recorded under the lease, loss is a refused write. */
  ghost predicate Recorded(log: seq<Entry>, result: string) {
    && log != []
    && (result in {"reconciled", "published", "replayed"} ==>
          log[|log| - 1].site == InClaim(FinishClaim) && log[|log| - 1].yes)
    && (result == "attention" ==> log[|log| - 1].site == InClaim(FinishAttention) && log[|log| - 1].yes)
    && (result == "lease_lost" ==> !log[|log| - 1].yes)
  }

  /** Between two states of the log, a call raised what nothing catches. */
  ghost predicate Escaped(before: seq<Entry>, after: seq<Entry>) {
    exists i :: |before| <= i < |after| && Escapes(after[i])
  }

  lemma OneMore(before: seq<Entry>, after: seq<Entry>)
    requires |after| == |before| + 1 && before <= after
    ensures Escaped(before, after) <==> Escapes(after[|before|])
  {
  }

  lemma EscapedJoined(before: seq<Entry>, middle: seq<Entry>, after: seq<Entry>)
    requires before <= middle <= after
    ensures before <= after
    ensures Escaped(before, after) <==> Escaped(before, middle) || Escaped(middle, after)
  {
    assert forall i :: 0 <= i < |middle| ==> middle[i] == after[i];
    if Escaped(before, middle) {
      var i :| |before| <= i < |middle| && Escapes(middle[i]);
      assert Escapes(after[i]);
    }
    if Escaped(before, after) && !Escaped(middle, after) {
      var i :| |before| <= i < |after| && Escapes(after[i]);
      assert i < |middle| && Escapes(middle[i]);
    }
  }

  /** Whatever happens while a claim is processed, nothing of it escapes the run. */
  lemma ClaimsDoNotEscape(before: seq<Entry>, after: seq<Entry>, raised: Option<Failure>)
    requires Ends(before, after, raised)
    ensures before <= after && !Escaped(before, after)
  {
    if raised.Some? {
      var front := after[..|after| - 1];
      assert before <= front <= after;
      forall i | |before| <= i < |after| ensures !Escapes(after[i]) {
        if i < |front| { assert after[i] == front[i]; }
      }
    }
  }

  class RecoveryService {
    const world: nat -> Answer
    var next: nat
    ghost var log: seq<Entry>

    constructor (world: nat -> Answer)
      ensures this.world == world && next == 0 && log == []
    {
      this.world, next, log := world, 0, [];
    }

    method Ask(site: Site) returns (a: Answer)
      modifies this
      ensures log == old(log) + [Entry(site, a.fault, a.yes)]
    {
      a := world(next);
      next := next + 1;
      log := log + [Entry(site, a.fault, a.yes)];
    }

    /** A call made while a claim is processed, its failures not caught. */
    method Call(call: ClaimCall) returns (a: Answer)
      requires call != LoadOrder && call != RetrieveEvidence
      modifies this
      ensures Ends(old(log), log, a.fault) && old(log) < log
      ensures log[|log| - 1] == Entry(InClaim(call), a.fault, a.yes)
    {
      ghost var before := log;
      a := Ask(InClaim(call));
      assert log[..|log| - 1] == before;
    }

    /** `finish_claim` as the last act of a claim: its label if the lease held. */
    method Finish(outcome: string) returns (result: string, raised: Option<Failure>)
      modifies this
      ensures Ends(old(log), log, raised) && old(log) < log && log[|log| - 1].site == InClaim(FinishClaim)
      ensures raised.None? ==> result == (if log[|log| - 1].yes then outcome else "lease_lost")
    {
      var a := Call(FinishClaim);
      return if a.yes then outcome else "lease_lost", a.fault;
    }

    /** `_finish_attention` as the last act of a claim. */
    method Attend() returns (result: string, raised: Option<Failure>)
      modifies this
      ensures Ends(old(log), log, raised) && old(log) < log && log[|log| - 1].site == InClaim(FinishAttention)
      ensures raised.None? ==> result == (if log[|log| - 1].yes then "attention" else "lease_lost")
    {
      var a := Call(FinishAttention);
      return if a.yes then "attention" else "lease_lost", a.fault;
    }

    /** `_finish_deferred`: whether the lease still held does not matter. */
    method Defer() returns (result: string, raised: Option<Failure>)
      modifies this
      ensures Ends(old(log), log, raised) && old(log) < log
      ensures result == "deferred"
    {
      var a := Call(FinishClaim);
      return "deferred", a.fault;
    }

    /** `_finish_inbox_without_transition`. */
    method FinishInbox(attention: bool) returns (result: string, raised: Option<Failure>)
      modifies this
      ensures Ends(old(log), log, raised) && old(log) < log
      ensures raised.None? ==> result in {"attention", "deferred", "lease_lost"} && Recorded(log, result)
    {
      ghost var start := log;
      var a := Call(MarkInbox);
      if a.fault.Some? { return "", a.fault; }
      if !a.yes { return "lease_lost", None; }
      ghost var middle := log;
      if attention {
        result, raised := Attend();
      } else {
        result, raised := Finish("deferred");
      }
      Joined(start, middle, log, raised);
    }

    /** `_validated_evidence`; `invalid` is its CheckoutInvariantError, which the callers catch. */
    method ValidatedEvidence() returns (proof: Proof, invalid: bool, raised: Option<Failure>)
      modifies this
      ensures Ends(old(log), log, raised) && old(log) < log
    {
      ghost var start := log;
      var order := Ask(InClaim(LoadOrder));
      assert log[..|log| - 1] == start;
      proof := order.proof;
      if order.fault == Some(BindingInvalid) { return proof, true, None; }
      if order.fault.Some? { return proof, false, order.fault; }
      ghost var middle := log;
      var retrieved := Ask(InClaim(RetrieveEvidence));
      assert log[..|log| - 1] == middle;
      proof := retrieved.proof;
      if retrieved.fault == Some(BindingInvalid) {
        Joined(start, middle, log, None);
        return proof, true, None;
      }
      Joined(start, middle, log, retrieved.fault);
      return proof, !proof.valid, retrieved.fault;
    }

    method ResumeInbox(event: Stored) returns (result: string, raised: Option<Failure>)
      modifies this
      ensures Ends(old(log), log, raised) && old(log) < log
      ensures raised.None? ==> result in {"reconciled", "deferred", "attention", "lease_lost"} && Recorded(log, result)
    {
      ghost var start := log;
      hide Ends, Quiet;
      var correlated := Call(Correlate);
      if correlated.fault.Some? { return "", correlated.fault; }
      ghost var m1 := log;
      assert Quiet(start, m1) by { EndsQuietly(start, m1); }
      if !correlated.yes || !event.apiVersionOk || !event.livemodeOk {
        result, raised := FinishInbox(true);
        Joined(start, m1, log, raised);
        return;
      }
      if !event.supported {
        result, raised := FinishInbox(false);
        Joined(start, m1, log, raised);
        return;
      }
      if !event.hasSession {
        result, raised := FinishInbox(true);
        Joined(start, m1, log, raised);
        return;
      }
      result, raised := ResumeWithEvidence(event);
      Joined(start, m1, log, raised);
    }

    /** `_resume_inbox` from its question to the provider on. */
    method ResumeWithEvidence(event: Stored) returns (result: string, raised: Option<Failure>)
      modifies this
      ensures Ends(old(log), log, raised) && old(log) < log
      ensures raised.None? ==> result in {"reconciled", "deferred", "attention", "lease_lost"} && Recorded(log, result)
    {
      ghost var start := log;
      hide Ends, Quiet;
      var proof, invalid, failed := ValidatedEvidence();
      if failed.Some? { return "", failed; }
      ghost var m1 := log;
      assert Quiet(start, m1) by { EndsQuietly(start, m1); }
      var proven := if event.completed then proof.paid && proof.intent else proof.expired;
      if invalid || !proven {
        result, raised := FinishInbox(true);
      } else {
        result, raised := Reconcile(ApplyEvent);
      }
      Joined(start, m1, log, raised);
    }

    /** The fenced reconciliation of an event or a poll, and the finish its answer calls for. */
    method Reconcile(call: ClaimCall) returns (result: string, raised: Option<Failure>)
      requires call == ApplyEvent || call == ApplyPoll
      modifies this
      ensures Ends(old(log), log, raised) && old(log) < log
      ensures raised.None? ==> result in {"reconciled", "deferred", "attention", "lease_lost"} && Recorded(log, result)
    {
      ghost var start := log;
      hide Ends, Quiet;
      var applied := Call(call);
      if applied.fault.Some? { return "", applied.fault; }
      if !applied.yes { return "lease_lost", None; }
      ghost var m1 := log;
      assert Quiet(start, m1) by { EndsQuietly(start, m1); }
      match applied.transition {
        case Refused => result, raised := Attend();
        case AlreadyTerminal => result, raised := Finish("deferred");
        case Transitioned => result, raised := Finish("reconciled");
      }
      Joined(start, m1, log, raised);
    }

    method PollPayment(snapshot: Snapshot) returns (result: string, raised: Option<Failure>)
      modifies this
      ensures Ends(old(log), log, raised) && old(log) < log
      ensures raised.None? ==> result in {"reconciled", "deferred", "attention", "lease_lost"} && Recorded(log, result)
    {
      ghost var start := log;
      hide Ends, Quiet;
      if !snapshot.bound {
        result, raised := Defer();
        return;
      }
      var proof, invalid, failed := ValidatedEvidence();
      if failed.Some? { return "", failed; }
      ghost var m1 := log;
      assert Quiet(start, m1) by { EndsQuietly(start, m1); }
      if invalid {
        result, raised := Attend();
      } else if (proof.paid && proof.intent) || (proof.expired && !proof.intent) {
        result, raised := Reconcile(ApplyPoll);
      } else if proof.nonterminal {
        result, raised := Finish("deferred");
      } else {
        result, raised := Attend();
      }
      Joined(start, m1, log, raised);
    }

    /** `_send_outbox`; only the first delivery marks the row published, later ones are recorded as replays. */
    method SendOutbox(published: bool) returns (result: string, raised: Option<Failure>)
      modifies this
      ensures Ends(old(log), log, raised) && old(log) < log
      ensures raised.None? ==> result in {"published", "replayed", "deferred", "attention", "lease_lost"} && Recorded(log, result)
      ensures raised.None? ==> (result == "published" ==> !published) && (result == "replayed" ==> published)
    {
      ghost var start := log;
      hide Ends, Quiet;
      var authority := Call(PaidAuthority);
      if authority.fault.Some? { return "", authority.fault; }
      ghost var m1 := log;
      assert Quiet(start, m1) by { EndsQuietly(start, m1); }
      if authority.yes {
        result, raised := SendAuthorized(published);
      } else {
        result, raised := Attend();
      }
      Joined(start, m1, log, raised);
    }

    method SendAuthorized(published: bool) returns (result: string, raised: Option<Failure>)
      modifies this
      ensures Ends(old(log), log, raised) && old(log) < log
      ensures raised.None? ==> result in {"published", "replayed", "deferred", "attention", "lease_lost"} && Recorded(log, result)
      ensures raised.None? ==> (result == "published" ==> !published) && (result == "replayed" ==> published)
    {
      ghost var start := log;
      hide Ends, Quiet;
      var sent := Call(Send);
      if sent.fault.Some? { return "", sent.fault; }
      ghost var m1 := log;
      assert Quiet(start, m1) by { EndsQuietly(start, m1); }
      if published {
        var audit := Call(RecordReplay);
        Joined(start, m1, log, audit.fault);
        if audit.fault.Some? { return "", audit.fault; }
      }
      ghost var m2 := log;
      assert Quiet(start, m2) by { EndsQuietly(start, m2); }
      match sent.transport {
        case Accepted =>
          if published {
            result, raised := Finish("replayed");
          } else {
            result, raised := Publish();
          }
        case Unwanted => result, raised := Attend();
        case Uncertain => result, raised := Finish("deferred");
        case RetryableRejected => result, raised := Finish("deferred");
      }
      Joined(start, m2, log, raised);
    }

    method Publish() returns (result: string, raised: Option<Failure>)
      modifies this
      ensures Ends(old(log), log, raised) && old(log) < log
      ensures raised.None? ==> result in {"published", "lease_lost"} && Recorded(log, result)
    {
      ghost var start := log;
      hide Ends, Quiet;
      var marked := Call(MarkPublished);
      if marked.fault.Some? { return "", marked.fault; }
      if !marked.yes { return "lease_lost", None; }
      ghost var m1 := log;
      assert Quiet(start, m1) by { EndsQuietly(start, m1); }
      result, raised := Finish("published");
      Joined(start, m1, log, raised);
    }

    /**
     * `_process_claim`: it raises its last call's failure or ends in one of the six labels its caller knows,
     * and a label of success was recorded under the lease by its last call. `single` is false where the
     * paid order had not exactly one outbox row, the one case in which "attention" may go unrecorded.
     */
    method ProcessClaim() returns (result: string, raised: Option<Failure>, ghost single: bool)
      modifies this
      ensures Ends(old(log), log, raised) && old(log) < log
      ensures raised.None? ==> result in LABELS
      ensures raised.None? && single ==> Recorded(log, result)
      ensures raised.None? && !single ==> result == "attention" && log[|log| - 1].site == InClaim(FinishAttention)
    {
      ghost var start := log;
      single := true;
      hide Ends, Quiet;
      var loaded := Call(LoadSnapshot);
      if loaded.fault.Some? { return "", loaded.fault, true; }
      ghost var m1 := log;
      assert Quiet(start, m1) by { EndsQuietly(start, m1); }
      if loaded.snapshot.state !in {PendingPayment, Paid, FulfillmentInProgress} {
        result, raised := Defer();
      } else {
        result, raised, single := ProcessActive(loaded.snapshot);
      }
      Joined(start, m1, log, raised);
    }

    /** The choice of action for an order in an active state. */
    method ProcessActive(snapshot: Snapshot) returns (result: string, raised: Option<Failure>, ghost single: bool)
      modifies this
      ensures Ends(old(log), log, raised) && old(log) < log
      ensures raised.None? ==> result in LABELS
      ensures raised.None? && single ==> Recorded(log, result)
      ensures raised.None? && !single ==> result == "attention" && log[|log| - 1].site == InClaim(FinishAttention)
    {
      ghost var start := log;
      single := true;
      hide Ends, Quiet;
      var looked := Call(LoadStaleEvent);
      if looked.fault.Some? { return "", looked.fault, true; }
      ghost var m1 := log;
      assert Quiet(start, m1) by { EndsQuietly(start, m1); }
      if looked.stale.Some? {
        result, raised := ResumeInbox(looked.stale.value);
      } else if snapshot.state == PendingPayment && snapshot.payment == PayPending {
        if snapshot.recent {
          result, raised := Defer();
        } else {
          result, raised := PollPayment(snapshot);
        }
      } else if snapshot.payment in {PayPaid, RefundPending} && snapshot.state in {Paid, FulfillmentInProgress} {
        if snapshot.outboxes != 1 {
          var attended := Call(FinishAttention);
          result, raised, single := "attention", attended.fault, false;
        } else if snapshot.published && snapshot.publishedRecently {
          result, raised := Defer();
        } else {
          result, raised := SendOutbox(snapshot.published);
        }
      } else {
        result, raised := Defer();
      }
      Joined(start, m1, log, raised);
    }

    /** The handlers of `run_once`: whether noting the failure of a claim raised in turn. */
    method NoteFailureOf(failure: Failure) returns (escaped: bool)
      modifies this
      ensures old(log) <= log
      ensures escaped <==> Escaped(old(log), log)
    {
      ghost var start := log;
      var after := if failure in {ProviderDown, StoreDown} then failure else Other;
      var lease := Ask(CheckLease(after));
      OneMore(start, log);
      if lease.fault.Some? { return after == ProviderDown || lease.fault != Some(StoreDown); }
      if !lease.yes { return false; }
      ghost var middle := log;
      var noted := Ask(NoteFailure(after));
      OneMore(middle, log);
      EscapedJoined(start, middle, log);
      return noted.fault.Some? && (after == ProviderDown || noted.fault != Some(StoreDown));
    }

    /**
     * `run_once`. The run raises exactly if some call of its own or of its handlers raised what nothing
     * catches; no failure inside a claim escapes. A run that returns has ended every claim, and has counted
     * each once: under its label, or as deferred if it lost its lease or failed.
     */
    method RunOnce() returns (response: Option<Response>, ghost ends: seq<string>)
      modifies this
      ensures old(log) <= log
      ensures response.None? <==> Escaped(old(log), log)
      ensures response.Some? ==> response.value.counts.Keys == COUNTED && response.value.claimed == |ends|
      ensures response.Some? ==> forall l :: l in COUNTED ==> response.value.counts[l] == Occurrences(ends, l)
      ensures response.Some? ==> response.value.claimed == Total(response.value.counts)
      ensures forall i :: 0 <= i < |ends| ==> ends[i] in LABELS + {"failed"}
    {
      ghost var start := log;
      ends := [];
      var begun := Ask(BeginRun);
      OneMore(start, log);
      if begun.fault.Some? { return None, ends; }
      ghost var m1 := log;
      var seeded := Ask(SeedCandidates);
      OneMore(m1, log);
      EscapedJoined(start, m1, log);
      if seeded.fault.Some? { return None, ends; }
      ghost var m2 := log;
      var batch := Ask(ClaimBatch);
      OneMore(m2, log);
      EscapedJoined(start, m2, log);
      if batch.fault.Some? { return None, ends; }
      var counts, escaped;
      counts, escaped, ends := ProcessBatch(batch.count, start);
      if escaped { return None, ends; }
      ghost var m3 := log;
      var finished := Ask(FinishRun);
      OneMore(m3, log);
      EscapedJoined(start, m3, log);
      if finished.fault.Some? { return None, ends; }
      return Some(Response(batch.count, counts)), ends;
    }

    /** A label the run knows is counted, a lost lease as deferred; any other label would not be counted at all. */
    method CountOutcome(before: map<string, nat>, outcome: string) returns (counts: map<string, nat>)
      requires before.Keys == COUNTED && outcome in LABELS
      ensures counts.Keys == COUNTED
      ensures forall l :: l in COUNTED ==> counts[l] == before[l] + if CountedAs(outcome) == l then 1 else 0
    {
      counts := before;
      if outcome in counts {
        counts := counts[outcome := counts[outcome] + 1];
      } else if outcome == "lease_lost" {
        counts := counts["deferred" := counts["deferred"] + 1];
      }
    }

    /** One turn of the loop, with its handlers. */
    method ProcessOne(before: map<string, nat>) returns (counts: map<string, nat>, escaped: bool, ghost end: string)
      requires before.Keys == COUNTED
      modifies this
      ensures old(log) <= log && (escaped <==> Escaped(old(log), log))
      ensures end in LABELS + {"failed"} && counts.Keys == COUNTED
      ensures !escaped ==> forall l :: l in COUNTED ==> counts[l] == before[l] + if CountedAs(end) == l then 1 else 0
    {
      ghost var start := log;
      var outcome, raised, _ := ProcessClaim();
      ClaimsDoNotEscape(start, log, raised);
      counts, escaped, end := before, false, "failed";
      if raised.None? {
        end := outcome;
        counts := CountOutcome(counts, outcome);
      } else {
        ghost var middle := log;
        escaped := NoteFailureOf(raised.value);
        EscapedJoined(start, middle, log);
        counts := counts["deferred" := counts["deferred"] + 1];
      }
    }

    /** The loop of `run_once` over the claimed orders. */
    method ProcessBatch(claims: nat, ghost start: seq<Entry>)
      returns (counts: map<string, nat>, escaped: bool, ghost ends: seq<string>)
      requires start <= log && !Escaped(start, log)
      modifies this
      ensures start <= log && (escaped <==> Escaped(start, log))
      ensures !escaped ==> counts.Keys == COUNTED && |ends| == claims == Total(counts)
      ensures !escaped ==> forall l :: l in COUNTED ==> counts[l] == Occurrences(ends, l)
      ensures forall i :: 0 <= i < |ends| ==> ends[i] in LABELS + {"failed"}
    {
      counts := map["reconciled" := 0, "published" := 0, "replayed" := 0, "deferred" := 0, "attention" := 0];
      escaped, ends := false, [];
      var i := 0;
      while i < claims
        invariant 0 <= i <= claims
        invariant start <= log && !Escaped(start, log)
        invariant counts.Keys == COUNTED && |ends| == i
        invariant forall l :: l in COUNTED ==> counts[l] == Occurrences(ends, l)
        invariant forall k :: 0 <= k < |ends| ==> ends[k] in LABELS + {"failed"}
      {
        ghost var before := log;
        ghost var end;
        counts, escaped, end := ProcessOne(counts);
        EscapedJoined(start, before, log);
        if escaped { return; }
        EndCounted(ends, end);
        ends := ends + [end];
        i := i + 1;
      }
      EveryEndIsCounted(ends);
    }
  }

  lemma EndCounted(ends: seq<string>, end: string)
    ensures forall l :: Occurrences(ends + [end], l) == Occurrences(ends, l) + if CountedAs(end) == l then 1 else 0
  {
    assert (ends + [end])[..|ends|] == ends;
  }

  /** However claims end, counting them under the five labels misses none. */
  lemma {:induction false} EveryEndIsCounted(ends: seq<string>)
    ensures Occurrences(ends, "reconciled") + Occurrences(ends, "published") + Occurrences(ends, "replayed")
         + Occurrences(ends, "deferred") + Occurrences(ends, "attention") == |ends|
  {
    if ends != [] { EveryEndIsCounted(ends[..|ends| - 1]); }
  }
}
