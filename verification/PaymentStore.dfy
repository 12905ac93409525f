/**
 * The payment tables updated in place, one method per transaction (sitescore-commerce db.py
 * `CommerceStore`, recovery_atomic.py, dispatcher.py). A method that returns `Aborted` stands for a
 * transaction that raised: it has been rolled back.
 */
module PaymentStore {
  import opened Prelude
  import opened Orders
  import L = Lease
  import P = Payment

  type OrderId = Orders.OrderId
  type EventId = P.EventId

  class CommerceStore {
    var orders: map<OrderId, Order>
    var checkouts: map<OrderId, P.Checkout>
    var inbox: map<EventId, P.Inbox>
    var outbox: map<OrderId, P.Outbox>
    var receipts: map<OrderId, P.Receipt>
    var fences: map<OrderId, L.Fence>
    ghost var tokens: set<L.Token>
    ghost var wins: map<OrderId, seq<P.Win>>

    ghost function Db(): P.Tables
      reads this
    {
      P.Tables(orders, checkouts, inbox, outbox, receipts, fences, tokens, wins)
    }

    constructor ()
      ensures Db() == P.Tables(map[], map[], map[], map[], map[], map[], {}, map[])
    {
      orders, checkouts, inbox, outbox, receipts, fences := map[], map[], map[], map[], map[], map[];
      tokens, wins := {}, map[];
    }

    /** The unique index on the Stripe session id. */
    method SessionIsFree(o: OrderId, sessionId: string) returns (free: bool)
      ensures free <==> P.SessionFree(Db(), o, sessionId)
    {
      free := forall p :: p in checkouts && p != o ==> checkouts[p].sessionId != Some(sessionId);
    }

    method BindCheckout(o: OrderId, sessionId: string) returns (bound: bool)
      modifies this
      ensures Db() == P.BindCheckout(old(Db()), o, sessionId)
      ensures bound <==> o in checkouts && checkouts[o].sessionId == Some(sessionId)
    {
      if o !in checkouts { return false; }
      if checkouts[o].sessionId.Some? { return checkouts[o].sessionId.value == sessionId; }
      var free := SessionIsFree(o, sessionId);
      if !free { return false; }
      checkouts := checkouts[o := checkouts[o].(sessionId := Some(sessionId))];
      return true;
    }

    method RecordStripeEvent(id: EventId, e: P.Envelope, now: int) returns (conflict: bool)
      modifies this
      ensures Db() == P.RecordEvent(old(Db()), id, e, now).db
      ensures forall k :: k in old(inbox) ==>
                k in inbox && inbox[k].envelope == old(inbox)[k].envelope && inbox[k].state == old(inbox)[k].state
      ensures conflict <==> id in old(inbox) && old(inbox)[id].envelope != e
    {
      if id !in inbox {
        inbox := inbox[id := if e.candidate.None? then P.Inbox(e, P.Attention, Some("event_order_correlation_invalid"), 1, now)
                             else P.Inbox(e, P.Received, None, 1, now)];
        return false;
      }
      var row := inbox[id];
      if row.envelope != e { return true; }
      inbox := inbox[id := row.(attempts := row.attempts + 1)];
      return false;
    }

    method FinishEvent(id: EventId, state: P.InboxState, code: string)
      modifies this
      ensures Db() == P.FinishEvent(old(Db()), id, state, code)
      ensures id in old(inbox) && old(inbox)[id].state == P.Processed ==> inbox == old(inbox)
      ensures forall k :: k in old(inbox) && k != id ==> k in inbox && inbox[k] == old(inbox)[k]
    {
      if id !in inbox || inbox[id].state == P.Processed { return; }
      inbox := inbox[id := inbox[id].(state := state, failure := Some(code))];
    }

    /** The first half of `_apply_payment_transition_locked`: what the two state columns allow. */
    method JudgeTransition(order: Order, checkout: P.Checkout, ev: P.Evidence, target: P.Target, event: Option<EventId>,
        now: int)
      returns (transitioned: bool, failure: Option<string>)
      ensures var t := P.ApplyTransition(order, checkout, ev, target, event, now);
              if t.Refused? then failure == Some(t.code) && !transitioned
              else
                && failure == None && transitioned == t.transitioned && t.checkout == P.Observed(checkout, ev, event, now)
                && t.order == if !transitioned then order
                              else if target == P.ToPaid then order.(state := Paid, payment := PayPaid)
                              else order.(state := Expired, payment := PayExpired)
      ensures transitioned ==> order.state == PendingPayment && order.payment == PayPending
    {
      if checkout.sessionId.Some? && checkout.sessionId.value != ev.sessionId {
        return false, Some("local_session_binding_conflict");
      }
      if target == P.ToPaid {
        if order.state == Expired || order.payment == PayExpired {
          return false, Some("contradictory_terminal_payment_truth");
        }
        if order.state == PendingPayment && order.payment == PayPending { return true, None; }
        if order.state == Paid && order.payment == PayPaid { return false, None; }
        return false, Some("invalid_payment_state_transition");
      }
      if order.state == Paid || order.payment == PayPaid { return false, Some("late_expiration_after_paid"); }
      if order.state == PendingPayment && order.payment == PayPending { return true, None; }
      if order.state == Expired && order.payment == PayExpired { return false, None; }
      return false, Some("invalid_expiration_state_transition");
    }

    /** The checkout columns every accepted observation refreshes. */
    method ObserveCheckout(o: OrderId, ev: P.Evidence, event: Option<EventId>, now: int)
      requires o in checkouts && (checkouts[o].sessionId.Some? ==> checkouts[o].sessionId.value == ev.sessionId)
      modifies this`checkouts
      ensures checkouts == old(checkouts)[o := P.Observed(old(checkouts)[o], ev, event, now)]
    {
      var checkout := checkouts[o];
      if checkout.sessionId.None? { checkout := checkout.(sessionId := Some(ev.sessionId)); }
      checkout := checkout.(paymentIntent := ev.paymentIntent, sessionStatus := Some(ev.status),
                            paymentStatus := Some(ev.paymentStatus), livemode := Some(ev.livemode), reconciledAt := Some(now));
      if event.Some? { checkout := checkout.(lastEvent := event); }
      checkouts := checkouts[o := checkout];
    }

    /** `_apply_payment_transition_locked`, for rows already locked by the caller's transaction. */
    method ApplyPaymentTransitionLocked(o: OrderId, ev: P.Evidence, target: P.Target, event: Option<EventId>, now: int,
                                        ghost win: P.Win)
      returns (transitioned: bool, failure: Option<string>)
      requires o in orders && o in checkouts
      modifies this
      ensures var t := P.ApplyTransition(old(orders)[o], old(checkouts)[o], ev, target, event, now);
              if t.Refused? then Db() == old(Db()) && failure == Some(t.code) && !transitioned
              else Db() == P.StoreTransition(old(Db()), o, t, target, win) && failure == None && transitioned == t.transitioned
      ensures transitioned ==> old(orders)[o].state == PendingPayment
      ensures !transitioned ==> orders == old(orders) && outbox == old(outbox)
    {
      var order := orders[o];
      transitioned, failure := JudgeTransition(order, checkouts[o], ev, target, event, now);
      if failure.Some? { return; }
      hide P.ApplyTransition, P.Observed;
      ObserveCheckout(o, ev, event, now);
      if transitioned && target == P.ToPaid {
        orders := orders[o := order.(state := Paid, payment := PayPaid)];
        if o !in outbox { outbox := outbox[o := P.Outbox(false)]; }
      } else if transitioned {
        orders := orders[o := order.(state := Expired, payment := PayExpired)];
      }
      assert orders == old(orders)[o := orders[o]];
      if transitioned && o in wins { wins := wins[o := wins[o] + [win]]; }
    }

    /** What both event reconciliations do once the inbox row is locked and open. */
    method ReconcileOpenEvent(id: EventId, o: OrderId, ev: P.Evidence, target: P.Target, now: int) returns (result: P.Result)
      requires id in inbox
      modifies this
      ensures Db() == P.ReconcileEvent(old(Db()), id, o, ev, target, now).db
      ensures result == P.ReconcileEvent(old(Db()), id, o, ev, target, now).result
    {
      if o !in orders || o !in checkouts { return P.Aborted; }
      var free := SessionIsFree(o, ev.sessionId);
      ghost var before := Db();
      var ordersBefore, checkoutsBefore, outboxBefore := orders, checkouts, outbox;
      ghost var winsBefore := wins;
      var _, failure := ApplyPaymentTransitionLocked(o, ev, target, Some(id), now, P.ByEvent(id, target));
      if failure.Some? {
        inbox := inbox[id := inbox[id].(state := P.Attention, failure := failure)];
        return P.Refusal(failure.value);
      }
      if !free {
        orders, checkouts, outbox, wins := ordersBefore, checkoutsBefore, outboxBefore, winsBefore;
        assert Db() == before;
        return P.Aborted;
      }
      inbox := inbox[id := inbox[id].(state := P.Processed, failure := None)];
      return P.Done;
    }

    method ApplyReconciliation(id: EventId, o: OrderId, ev: P.Evidence, target: P.Target, now: int)
      returns (result: P.Result)
      modifies this
      ensures Db() == P.ApplyReconciliation(old(Db()), id, o, ev, target, now).db
      ensures result == P.ApplyReconciliation(old(Db()), id, o, ev, target, now).result
      ensures id in old(inbox) && old(inbox)[id].state == P.Processed ==> Db() == old(Db())
      ensures result == P.Done ==> id in inbox && inbox[id].state == P.Processed
      ensures result == P.Aborted ==> Db() == old(Db())
    {
      if id !in inbox { return P.Aborted; }
      if inbox[id].state == P.Processed { return P.AlreadyTerminal; }
      result := ReconcileOpenEvent(id, o, ev, target, now);
    }

    /** `_lock_current_lease`. */
    method LockCurrentLease(o: OrderId, token: L.Token, now: int) returns (current: bool)
      ensures current <==> P.HoldsLease(Db(), o, token, now)
    {
      if o !in fences { return false; }
      var lease := fences[o].lease;
      return lease.token == Some(token) && lease.expiresAt.Some? && lease.expiresAt.value > now;
    }

    method ApplyEventReconciliationWithLease(token: L.Token, id: EventId, o: OrderId, ev: P.Evidence, target: P.Target,
                                             leaseNow: int, now: int)
      returns (result: P.Result)
      modifies this
      ensures Db() == P.ApplyEventWithLease(old(Db()), token, id, o, ev, target, leaseNow, now).db
      ensures result == P.ApplyEventWithLease(old(Db()), token, id, o, ev, target, leaseNow, now).result
      ensures !P.HoldsLease(old(Db()), o, token, leaseNow) ==> Db() == old(Db())
      ensures result == P.Done ==> id in inbox && inbox[id].state == P.Processed
      ensures result == P.Aborted ==> Db() == old(Db())
    {
      var current := LockCurrentLease(o, token, leaseNow);
      if !current { return P.LeaseLost; }
      if id !in inbox { return P.Aborted; }
      if inbox[id].state != P.Received { return P.AlreadyTerminal; }
      result := ReconcileOpenEvent(id, o, ev, target, now);
      if result != P.Aborted { fences := fences[o := L.Write(fences[o], token)]; }
    }

    method ApplyPollReconciliationWithLease(c: P.Config, token: L.Token, o: OrderId, ev: P.Evidence, target: P.Target,
                                            leaseNow: int, now: int)
      returns (result: P.Result)
      modifies this
      ensures Db() == P.ApplyPollWithLease(c, old(Db()), token, o, ev, target, leaseNow, now).db
      ensures result == P.ApplyPollWithLease(c, old(Db()), token, o, ev, target, leaseNow, now).result
      ensures !P.HoldsLease(old(Db()), o, token, leaseNow) ==> Db() == old(Db())
      ensures result == P.Done <==> o !in old(receipts) && o in receipts
      ensures result == P.Aborted ==> Db() == old(Db())
    {
      var current := LockCurrentLease(o, token, leaseNow);
      if !current { return P.LeaseLost; }
      if o !in orders || o !in checkouts { return P.Aborted; }
      var free := SessionIsFree(o, ev.sessionId);
      ghost var before := Db();
      var ordersBefore, checkoutsBefore, outboxBefore := orders, checkouts, outbox;
      ghost var winsBefore := wins;
      var transitioned, failure := ApplyPaymentTransitionLocked(o, ev, target, None, now, P.ByPoll(token, target));
      if failure.Some? { return P.Refusal(failure.value); }
      if !free || (transitioned && o in receipts) {
        orders, checkouts, outbox, wins := ordersBefore, checkoutsBefore, outboxBefore, winsBefore;
        assert Db() == before;
        return P.Aborted;
      }
      fences := fences[o := L.Write(fences[o], token)];
      if !transitioned { return P.AlreadyTerminal; }
      receipts := receipts[o := P.PollReceipt(c, ev, target)];
      return P.Done;
    }

    method MarkInboxStateWithLease(token: L.Token, o: OrderId, id: EventId, state: P.InboxState, code: string, leaseNow: int)
      returns (result: P.Result)
      modifies this
      ensures Db() == P.MarkInboxWithLease(old(Db()), token, o, id, state, code, leaseNow).db
      ensures result == P.MarkInboxWithLease(old(Db()), token, o, id, state, code, leaseNow).result
    {
      var current := LockCurrentLease(o, token, leaseNow);
      if !current { return P.LeaseLost; }
      if id !in inbox { return P.Aborted; }
      if inbox[id].state != P.Received { return P.LeaseLost; }
      inbox := inbox[id := inbox[id].(state := state, failure := Some(code))];
      fences := fences[o := L.Write(fences[o], token)];
      return P.Done;
    }

    method MarkOutboxPublishedWithLease(token: L.Token, o: OrderId, leaseNow: int) returns (result: P.Result)
      modifies this
      ensures Db() == P.PublishWithLease(old(Db()), token, o, leaseNow).db
      ensures result == P.PublishWithLease(old(Db()), token, o, leaseNow).result
    {
      var current := LockCurrentLease(o, token, leaseNow);
      if !current { return P.LeaseLost; }
      if o !in outbox { return P.Aborted; }
      if !outbox[o].published { outbox := outbox[o := P.Outbox(true)]; }
      fences := fences[o := L.Write(fences[o], token)];
      assert outbox == old(outbox)[o := P.Outbox(true)];
      return P.Done;
    }

    method FinishClaim(token: L.Token, o: OrderId, now: int) returns (finished: bool)
      modifies this
      ensures Db() == P.FinishLease(old(Db()), token, o, now)
      ensures finished <==> P.HoldsLease(old(Db()), o, token, now)
    {
      finished := LockCurrentLease(o, token, now);
      if finished {
        fences := fences[o := L.Fence(L.FREE, fences[o].log + [L.Finished(token)])];
      } else if o in fences {
        assert fences[o := fences[o]] == fences;
      }
    }
  }
}
