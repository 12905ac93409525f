/** Runs that exist: recovery pays an order whose webhook handler died, and what stays possible after attention. */
module PaymentRuns {
  import opened Prelude
  import opened Orders
  import opened L = Lease
  import opened Payment
  import opened PaymentProtocol
  import opened PaymentInvariant
  import opened PaymentSteps
  import opened PaymentSafety

  lemma LeadsNowhere(c: Config, s: State)
    ensures Leads(c, s, s)
  {
    assert s == Run(c, s, []);
  }

  lemma LeadsStep(c: Config, s: State, s': State, e: Event)
    requires Leads(c, s, s')
    ensures Leads(c, s, Apply(c, s', e))
  {
    hide Apply, Run;
    var es :| s' == Run(c, s, es);
    RunAppend(c, s, es, e);
  }

  /** A claim that decides without writing, one step further. */
  lemma ClaimMovesOn(c: Config, s0: State, s: State, token: Token, o: OrderId, pc: ClaimPc, ch: Choice, pc': ClaimPc)
    returns (s': State)
    requires Leads(c, s0, s) && token in s.claims && s.claims[token] == Job(o, pc)
    requires ClaimStep(c, s, token, ch) == SetClaim(s, token, o, pc')
    ensures Leads(c, s0, s') && s' == SetClaim(s, token, o, pc') && s'.db == s.db
  {
    hide ClaimStep;
    s' := SetClaim(s, token, o, pc');
    LeadsStep(c, s0, s, Process(token, ch));
  }

  predicate RecoverableEvent(c: Config, e: Envelope, o: OrderId) {
    && e.eventType == COMPLETED_EVENT && EventOk(c, e) && CandidateOk(c, e, o) && e.candidate.Some?
  }

  /** What the webhook's crash left behind, and what Stripe says when asked again. */
  predicate Recoverable(c: Config, db: Tables, o: OrderId, id: EventId, ev: Evidence) {
    && o in db.orders && o in db.checkouts && o in db.fences && id in db.inbox
    && db.orders[o].state == PendingPayment && db.orders[o].payment == PayPending
    && db.inbox[id].state == Received
    && RecoverableEvent(c, db.inbox[id].envelope, o)
    && db.checkouts[o].sessionId == db.inbox[id].envelope.sessionId == Some(ev.sessionId)
    && BindingValid(c, ev, o, db.orders[o], db.checkouts[o]) && ProvesPaid(ev)
  }

  /**
   * A payment is not lost with its webhook handler: from any reachable state in which the event was
   * recorded and the handler is gone, one recovery claim pays the order. The claim takes the oldest
   * stale event of the order, so this event must be that one.
   */
  lemma RecoveryPays(c: Config, s: State, o: OrderId, id: EventId, ev: Evidence, token: Token, now: int, seconds: int,
                     cutoff: int)
    returns (s': State)
    requires WellFormed(c) && Reachable(c, s) && Recoverable(c, s.db, o, id, ev)
    requires OldestStaleEvent(s.db, o, id, cutoff)
    requires token !in s.db.tokens && Claimable(s.db.fences[o].lease, now) && seconds > 0
    ensures Leads(c, s, s')
    ensures o in s'.db.orders && s'.db.orders[o] == s.db.orders[o].(state := Paid, payment := PayPaid)
    ensures id in s'.db.inbox && s'.db.inbox[id].state == Processed
    ensures o in s'.db.outbox && PaidAuthorityCode(c, s'.db, o).None?
  {
    var e := s.db.inbox[id].envelope;
    var ch := Choice(now, now, cutoff, true, id, ev, true);
    LeadsNowhere(c, s);
    LeadsStep(c, s, s, ClaimLease(o, token, now, seconds));
    var s0 := Apply(c, s, ClaimLease(o, token, now, seconds));
    var s1 := ClaimMovesOn(c, s, s0, token, o, Snapshotting, ch, Snapshot(s0, o));
    hide Snapshot, BindingValid, Leads;
    assert Snapshot(s0, o).Looking? by { SnapshotLooks(s0, o); }
    assert StaleEvent(s1.db, o, id, cutoff) && OldestStaleEvent(s1.db, o, id, cutoff) by {
      StaleEventsKept(s.db, s1.db, o, id, cutoff);
    }
    var s2 := ClaimMovesOn(c, s, s1, token, o, Snapshot(s0, o), ch, Resuming(id, e));
    hide OldestStaleEvent, StaleEvent;
    var s5 := EvidenceFetched(c, s, s2, token, o, id, e, ev, ch);
    hide Recoverable;
    s' := Apply(c, s5, Process(token, ch));
    LeadsStep(c, s, s5, Process(token, ch));
    ResumePays(c, s, s5, token, o, id, e, ev, ch, now, seconds);
    PaidLineage(c, s, s', o);
  }

  /** Which events are stale depends on the inbox and the checkouts alone. */
  lemma StaleEventsKept(db: Tables, db': Tables, o: OrderId, id: EventId, cutoff: int)
    requires OldestStaleEvent(db, o, id, cutoff) && db'.inbox == db.inbox && db'.checkouts == db.checkouts
    ensures StaleEvent(db', o, id, cutoff) && OldestStaleEvent(db', o, id, cutoff)
  {
    assert forall other :: StaleEvent(db', o, other, cutoff) <==> StaleEvent(db, o, other, cutoff);
  }

  /** From the correlated event to the provider's evidence. */
  lemma EvidenceFetched(c: Config, s: State, s2: State, token: Token, o: OrderId, id: EventId, e: Envelope, ev: Evidence,
      ch: Choice)
    returns (s5: State)
    requires Recoverable(c, s.db, o, id, ev) && e == s.db.inbox[id].envelope && ch.evidence == ev
    requires Leads(c, s, s2) && token in s2.claims && s2.claims[token] == Job(o, Resuming(id, e))
    requires s2.db.orders == s.db.orders && s2.db.checkouts == s.db.checkouts
    ensures Leads(c, s, s5) && s5.db == s2.db && token in s5.claims && s5.claims[token] == Job(o, ResumeApplying(id, e,
        ev, ToPaid))
  {
    hide BindingValid, Leads;
    var s3 := ClaimMovesOn(c, s, s2, token, o, Resuming(id, e), ch, ResumeLoading(id, e));
    var s4 := ClaimMovesOn(c, s, s3, token, o, ResumeLoading(id, e), ch,
                           ResumeRetrieving(id, e, s.db.orders[o], s.db.checkouts[o]));
    s5 := ClaimMovesOn(c, s, s4, token, o, ResumeRetrieving(id, e, s.db.orders[o], s.db.checkouts[o]), ch,
                           ResumeApplying(id, e, ev, ToPaid));
  }

  lemma SnapshotLooks(s: State, o: OrderId)
    requires o in s.db.orders && o in s.db.checkouts && s.db.orders[o].state == PendingPayment
    ensures Snapshot(s, o).Looking?
  {
  }

  lemma ResumePays(c: Config, s: State, s5: State, token: Token, o: OrderId, id: EventId, e: Envelope, ev: Evidence,
                   ch: Choice, now: int, seconds: int)
    requires WellFormed(c) && Reachable(c, s) && Recoverable(c, s.db, o, id, ev) && e == s.db.inbox[id].envelope
    requires seconds > 0 && ch.leaseNow == now
    requires token in s5.claims && s5.claims[token] == Job(o, ResumeApplying(id, e, ev, ToPaid))
    requires Claimable(s.db.fences[o].lease, now)
    requires s5.db == s.db.(fences := s.db.fences[o := Claim(s.db.fences[o], token, now, seconds)],
        tokens := s.db.tokens + {token})
    ensures var s' := Apply(c, s5, Process(token, ch));
            && o in s'.db.orders && s'.db.orders[o] == s.db.orders[o].(state := Paid, payment := PayPaid)
            && id in s'.db.inbox && s'.db.inbox[id].state == Processed
            && o in s'.db.outbox
  {
    assert SessionsDistinct(s.db.checkouts) by {
      ReachableInv(c, s);
      hide TablesOk;
      InvTables(c, s);
      TablesSessions(c, s.db);
    }
    hide Inv, Reachable, BindingValid, WellFormed, PaidAuthorityCode;
    assert HoldsLease(s5.db, o, token, now);
    assert SessionFree(s5.db, o, ev.sessionId);
    hide SessionsDistinct, SessionFree, HoldsLease, ClaimStep, ClaimWrites;
    EventPays(s5.db, o, id, ev, token, now, ch.now);
    ClaimStepWrites(c, s5, token, ch);
    ResumingWrites(c, s5.db, token, o, id, e, ev, ch);
  }

  lemma ResumingWrites(c: Config, db: Tables, token: Token, o: OrderId, id: EventId, e: Envelope, ev: Evidence, ch: Choice)
    ensures ClaimWrites(c, db, token, o, ResumeApplying(id, e, ev, ToPaid), ch)
         == ApplyEventWithLease(db, token, id, o, ev, ToPaid, ch.leaseNow, ch.now).db
  {
  }

  lemma EventPays(db: Tables, o: OrderId, id: EventId, ev: Evidence, token: Token, leaseNow: int, now: int)
    requires HoldsLease(db, o, token, leaseNow) && SessionFree(db, o, ev.sessionId)
    requires id in db.inbox && db.inbox[id].state == Received && o in db.orders && o in db.checkouts
    requires db.orders[o].state == PendingPayment && db.orders[o].payment == PayPending
    requires db.checkouts[o].sessionId == Some(ev.sessionId)
    ensures var db' := ApplyEventWithLease(db, token, id, o, ev, ToPaid, leaseNow, now).db;
            && o in db'.orders && db'.orders[o] == db.orders[o].(state := Paid, payment := PayPaid)
            && id in db'.inbox && db'.inbox[id].state == Processed
            && o in db'.outbox
  {
    hide SessionFree, Current;
  }

  lemma TablesSessions(c: Config, db: Tables)
    requires TablesOk(c, db)
    ensures SessionsDistinct(db.checkouts)
  {
    hide OrderOk;
  }

  lemma PaidLineage(c: Config, s: State, s': State, o: OrderId)
    requires WellFormed(c) && Reachable(c, s) && Leads(c, s, s') && o in s'.db.orders && o in s'.db.outbox
    ensures PaidAuthorityCode(c, s'.db, o).None?
  {
    hide Run, PaidAuthorityCode;
    var es :| s == Run(c, INIT, es);
    var fs :| s' == Run(c, s, fs);
    RunConcat(c, INIT, es, fs);
    LineageComplete(c, s', o);
  }

  lemma {:induction false} RunConcat(c: Config, s: State, es: seq<Event>, fs: seq<Event>)
    ensures Run(c, s, es + fs) == Run(c, Run(c, s, es), fs)
    decreases |es|
  {
    hide Apply;
    if es == [] {
      assert es + fs == fs;
    } else {
      assert (es + fs)[1..] == es[1..] + fs;
      RunConcat(c, Apply(c, s, es[0]), es[1..], fs);
    }
  }

  // ---- Attention is not final ----

  /** A webhook handler taken one step further without writing. */
  lemma HandlerMovesOn(c: Config, s0: State, s: State, t: int, w: Webhook, ch: Choice, w': Webhook) returns (s': State)
    requires Leads(c, s0, s) && t in s.webhooks && s.webhooks[t] == w
    requires WebhookStep(c, s, t, ch) == SetWebhook(s, t, w')
    ensures Leads(c, s0, s') && s' == SetWebhook(s, t, w') && s'.db == s.db
  {
    hide WebhookStep;
    s' := SetWebhook(s, t, w');
    LeadsStep(c, s0, s, Handle(t, ch));
  }

  /** An event of this order whose handlers get as far as asking Stripe. */
  predicate Handled(c: Config, db: Tables, o: OrderId, id: EventId, e: Envelope) {
    && id != "" && o in db.orders && o in db.checkouts
    && e.eventType == COMPLETED_EVENT && EventOk(c, e) && CandidateOk(c, e, o) && e.candidate.Some?
    && (id in db.inbox ==> db.inbox[id].envelope == e && db.inbox[id].state == Received)
  }

  /** A delivery of the event is recorded and handled up to the question to Stripe. */
  lemma HandlerAsks(c: Config, s0: State, s: State, t: int, o: OrderId, id: EventId, e: Envelope, ch: Choice) returns (s': State)
    requires Leads(c, s0, s) && t !in s.webhooks && Handled(c, s.db, o, id, e)
    ensures Leads(c, s0, s') && s'.db == RecordEvent(s.db, id, e, ch.now).db
    ensures s'.webhooks == s.webhooks[t := Retrieving(id, e, o, s.db.orders[o], s.db.checkouts[o])]
    ensures Handled(c, s'.db, o, id, e) && id in s'.db.inbox && s'.db.orders == s.db.orders && s'.db.checkouts == s.db.checkouts
  {
    hide Leads;
    LeadsStep(c, s0, s, Deliver(t, id, e));
    var s1 := Apply(c, s, Deliver(t, id, e));
    LeadsStep(c, s0, s1, Handle(t, ch));
    var s2 := Apply(c, s1, Handle(t, ch));
    assert s2.webhooks[t] == Screening(id, e) && s2.db == RecordEvent(s.db, id, e, ch.now).db;
    hide RecordEvent;
    var s3 := HandlerMovesOn(c, s0, s2, t, Screening(id, e), ch, ReadingState(id, e));
    var s4 := HandlerMovesOn(c, s0, s3, t, ReadingState(id, e), ch, Correlating(id, e));
    s' := HandlerMovesOn(c, s0, s4, t, Correlating(id, e), ch, Retrieving(id, e, o, s.db.orders[o], s.db.checkouts[o]));
  }

  /**
   * Only a processed event is settled: of two handlers of one event, one can find the payment unproven and
   * mark the event for attention, and the other still pays the order with it.
   */
  lemma AttentionIsNotFinal(c: Config, s: State, o: OrderId, id: EventId, e: Envelope, unpaid: Evidence, paid: Evidence, now: int)
    returns (s1: State, s2: State)
    requires Reachable(c, s) && s.webhooks == map[] && Handled(c, s.db, o, id, e)
    requires s.db.orders[o].state == PendingPayment && s.db.orders[o].payment == PayPending
    requires s.db.checkouts[o].sessionId == e.sessionId == Some(paid.sessionId) == Some(unpaid.sessionId)
    requires SessionFree(s.db, o, paid.sessionId)
    requires BindingValid(c, paid, o, s.db.orders[o], s.db.checkouts[o]) && ProvesPaid(paid)
    requires BindingValid(c, unpaid, o, s.db.orders[o], s.db.checkouts[o]) && !ProvesPaid(unpaid)
    ensures Leads(c, s, s1) && id in s1.db.inbox && s1.db.inbox[id].state == Attention
    ensures Leads(c, s1, s2) && id in s2.db.inbox && s2.db.inbox[id].state == Processed
    ensures o in s2.db.orders && s2.db.orders[o].state == Paid && o in s2.db.outbox
  {
    var first, second := Choice(now, now, now, true, id, unpaid, true), Choice(now, now, now, true, id, paid, true);
    LeadsNowhere(c, s);
    hide Leads, Reachable, BindingValid;
    var a := HandlerAsks(c, s, s, 1, o, id, e, first);
    var b := HandlerAsks(c, s, a, 2, o, id, e, second);
    assert SessionFree(b.db, o, paid.sessionId);
    hide SessionFree, RecordEvent;
    var w := Retrieving(id, e, o, s.db.orders[o], s.db.checkouts[o]);
    var marking := Marking(id, Attention, "payment_not_authoritative");
    var d := HandlerMovesOn(c, s, b, 1, w, first, marking);
    var f := HandlerMovesOn(c, s, d, 2, w, second, Applying(id, e, o, paid, ToPaid));
    LeadsStep(c, s, f, Handle(1, first));
    s1 := Apply(c, f, Handle(1, first));
    assert s1.db == FinishEvent(b.db, id, Attention, "payment_not_authoritative");
    s2 := OverruledAttention(c, s1, 2, o, id, e, paid, second);
  }

  lemma OverruledAttention(c: Config, s1: State, t: int, o: OrderId, id: EventId, e: Envelope, paid: Evidence, ch: Choice)
    returns (s2: State)
    requires t in s1.webhooks && s1.webhooks[t] == Applying(id, e, o, paid, ToPaid)
    requires id in s1.db.inbox && s1.db.inbox[id].state == Attention && o in s1.db.orders && o in s1.db.checkouts
    requires s1.db.orders[o].state == PendingPayment && s1.db.orders[o].payment == PayPending
    requires s1.db.checkouts[o].sessionId == Some(paid.sessionId) && SessionFree(s1.db, o, paid.sessionId)
    ensures Leads(c, s1, s2) && id in s2.db.inbox && s2.db.inbox[id].state == Processed
    ensures o in s2.db.orders && s2.db.orders[o].state == Paid && o in s2.db.outbox
  {
    LeadsNowhere(c, s1);
    LeadsStep(c, s1, s1, Handle(t, ch));
    hide Leads, SessionFree;
    s2 := Apply(c, s1, Handle(t, ch));
  }
}
