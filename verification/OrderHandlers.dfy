/** The order and webhook handlers as they run: writes into the shared state, a save that may fail, and the
    rollback. Each is proved to do what its function on values says. */
module OrderHandlers {
  import opened Text
  import opened Domain
  import opened Db
  import opened MemoryState
  import O = Orders

  // ---------------------------------------------------------------- the four transitions

  /** activateOrderLocked. */
  method ActivateOrder(state: State, order: Order, now: Time, subID: Id, actor: string, action: AuditAction) returns (ok: bool)
    requires state.Valid()
    modifies state, state.Arrays()
    ensures state.Valid() && (forall a <- state.Arrays() :: a in old(state.Arrays()) || fresh(a))
    ensures var r := O.Activate(old(state.View()), order, now, subID, actor, action);
            ok == r.Ok? && state.View() == if r.Ok? then r.value else old(state.View())
  {
    hide State.Valid, State.View, State.Arrays;
    state.Fields();
    if order.status == Cancelled || order.status == Refunded {
      return false;
    }
    if order.userID !in state.users {
      return false;
    }
    var user := state.users[order.userID];
    var needsActivation := order.status != Paid || user.id !in state.subs;
    var paidAt := if order.paidAt.None? then Some(now) else order.paidAt;
    state.PutOrder(order.(status := Paid, failedAt := None, paidAt := paidAt));
    if needsActivation {
      state.PutUser(user.(planSlug := order.planSlug));
      state.PutSub(NewSubscription(subID, user.id, order.planSlug, now, BillingDuration(order.billingCycle)));
    }
    state.AppendAudit(actor, action, order.id, needsActivation);
    return true;
  }

  /** failOrderLocked. */
  method FailOrder(state: State, order: Order, now: Time, actor: string, action: AuditAction, reason: string) returns (ok: bool)
    requires state.Valid()
    modifies state, state.Arrays()
    ensures state.Valid() && (forall a <- state.Arrays() :: a in old(state.Arrays()) || fresh(a))
    ensures var r := O.Fail(old(state.View()), order, now, actor, action, reason);
            ok == r.Ok? && state.View() == if r.Ok? then r.value else old(state.View())
  {
    hide State.Valid, State.View, State.Arrays;
    if order.status == Paid || order.status == Cancelled || order.status == Refunded {
      return false;
    }
    var failed := order.(status := Failed);
    if failed.failedAt.None? {
      failed := failed.(failedAt := Some(now));
    }
    if reason != "" {
      failed := failed.(operatorNote := reason);
    }
    state.PutOrder(failed);
    state.AppendAudit(actor, action, order.id, false);
    return true;
  }

  /** cancelOrderLocked. */
  method CancelOrder(state: State, order: Order, now: Time, actor: string, action: AuditAction, reason: string) returns (ok: bool)
    requires state.Valid()
    modifies state, state.Arrays()
    ensures state.Valid() && (forall a <- state.Arrays() :: a in old(state.Arrays()) || fresh(a))
    ensures var r := O.Cancel(old(state.View()), order, now, actor, action, reason);
            ok == r.Ok? && state.View() == if r.Ok? then r.value else old(state.View())
  {
    hide State.Valid, State.View, State.Arrays;
    if order.status == Paid || order.status == Refunded {
      return false;
    }
    var cancelled := order.(status := Cancelled);
    if cancelled.cancelledAt.None? {
      cancelled := cancelled.(cancelledAt := Some(now));
    }
    if reason != "" {
      cancelled := cancelled.(operatorNote := reason);
    }
    state.PutOrder(cancelled);
    state.AppendAudit(actor, action, order.id, false);
    return true;
  }

  /** refundOrderLocked. */
  method RefundOrder(state: State, order: Order, now: Time, actor: string, action: AuditAction, reason: string) returns (ok: bool)
    requires state.Valid() && KeyedBy(state.subs, SubKey)
    modifies state, state.Arrays()
    ensures state.Valid() && (forall a <- state.Arrays() :: a in old(state.Arrays()) || fresh(a))
    ensures var r := O.Refund(old(state.View()), order, now, actor, action, reason);
            ok == r.Ok? && state.View() == if r.Ok? then r.value else old(state.View())
  {
    hide State.Valid, State.View, State.Arrays;
    state.Fields();
    if order.status != Paid {
      return false;
    }
    var refunded := order.(status := Refunded);
    if refunded.refundedAt.None? {
      refunded := refunded.(refundedAt := Some(now));
    }
    if reason != "" {
      refunded := refunded.(operatorNote := reason);
    }
    state.PutOrder(refunded);
    if order.userID in state.subs && state.subs[order.userID].planSlug == order.planSlug {
      var sub := state.subs[order.userID];
      state.PutSub(sub.(status := SubPastDue, endsAt := now - SECOND, retentionEndsAt := now + RETENTION));
      if order.userID in state.users {
        var user := state.users[order.userID];
        state.PutUser(user.(planSlug := ""));
      }
    }
    state.AppendAudit(actor, action, order.id, false);
    return true;
  }

  // ---------------------------------------------------------------- webhooks

  /** findWebhookOrderLocked: a range over the orders in whatever order. */
  method FindOrder(orders: map<Id, Order>, ev: O.Event) returns (found: Option<Id>)
    ensures match found
            case Some(id) => id in orders && O.Matches(orders[id], ev)
            case None => forall id <- orders :: !O.Matches(orders[id], ev)
  {
    var todo := orders.Keys;
    while todo != {}
      invariant todo <= orders.Keys
      invariant forall id <- orders :: id in todo || !O.Matches(orders[id], ev)
    {
      var id :| id in todo;
      if O.Matches(orders[id], ev) {
        return Some(id);
      }
      todo := todo - {id};
    }
    return None;
  }

  /** The switch of ifpayWebhook. */
  method SettleOrder(state: State, ev: O.Event, order: Order, now: Time, subID: Id)
    requires state.Valid() && KeyedBy(state.subs, SubKey)
    modifies state, state.Arrays()
    ensures state.Valid() && (forall a <- state.Arrays() :: a in old(state.Arrays()) || fresh(a))
    ensures state.View() == O.Settle(old(state.View()), ev, order, now, subID)
  {
    hide State.Valid, State.View, State.Arrays, KeyedBy, O.Activate, O.Fail, O.Cancel, O.Refund, O.KindOf, O.FailureReason;
    var ok;
    match O.KindOf(ev.eventType)
    case Succeeded =>
      ok := ActivateOrder(state, order, now, subID, O.SYSTEM, LogPaymentSucceeded);
      if !ok {
        state.AppendAudit(O.SYSTEM, LogSucceededIgnored, order.id, false);
      }
    case CancelledEvent =>
      ok := CancelOrder(state, order, now, O.SYSTEM, LogPaymentCancelled, ev.cancelReason);
      if !ok {
        state.AppendAudit(O.SYSTEM, LogCancelledIgnored, order.id, false);
      }
    case RefundedEvent =>
      ok := RefundOrder(state, order, now, O.SYSTEM, LogPaymentRefunded, ev.refundReason);
      if !ok {
        state.AppendAudit(O.SYSTEM, LogRefundedIgnored, order.id, false);
      }
    case OtherEvent =>
      state.AppendAudit(O.SYSTEM, LogWebhookIgnored, order.id, false);
    case _ =>
      ok := FailOrder(state, order, now, O.SYSTEM, LogPaymentFailed, O.FailureReason(ev));
      if !ok {
        state.AppendAudit(O.SYSTEM, LogFailedIgnored, order.id, false);
      }
  }

  /** Mark the event, then settle the order it names. */
  method DeliverFirst(state: State, ev: O.Event, found: Option<Id>, now: Time, subID: Id)
    requires state.Valid() && KeyedBy(state.subs, SubKey) && (found.Some? ==> found.value in state.orders)
    requires found.Some? ==> found.value in state.View().orders
    modifies state, state.Arrays()
    ensures state.Valid() && (forall a <- state.Arrays() :: a in old(state.Arrays()) || fresh(a))
    ensures state.View() == O.FirstDelivery(old(state.View()), ev, found, now, subID)
  {
    hide State.Valid, State.View, State.Arrays, KeyedBy, O.Settle;
    state.Fields();
    state.MarkEvent(ev.id);
    if found.None? {
      state.AppendAudit(O.SYSTEM, LogWebhookUnmatched, ev.id, false);
    } else {
      SettleOrder(state, ev, state.orders[found.value], now, subID);
    }
  }

  method SaveDelivery(state: State, ev: O.Event, found: Option<Id>, now: Time, subID: Id, saveOK: bool) returns (saved: bool)
    requires state.Valid() && Keyed(state.View())
    requires found.Some? ==> found.value in state.orders && found.value in state.View().orders
    modifies state, state.Arrays()
    ensures state.Valid() && (forall a <- state.Arrays() :: a in old(state.Arrays()) || fresh(a))
    ensures saved == saveOK
    ensures state.View() == if saveOK then O.FirstDelivery(old(state.View()), ev, found, now, subID) else old(state.View())
  {
    hide State.Valid, State.View, Keyed, KeyedBy, O.FirstDelivery, Snapshot.Records;
    ghost var before := state.View();
    KeyedSubs(state);
    var snap := state.Take();
    DeliverFirst(state, ev, found, now, subID);
    saved := state.PersistOrRollback(snap, before, saveOK);
  }

  /** ifpayWebhook after the signature checks; `saveOK` is whether the save succeeds. A failed save gives back the
      state before, dedup mark included. */
  method Webhook(state: State, ev: O.Event, now: Time, subID: Id, saveOK: bool) returns (answered: bool, found: Option<Id>)
    requires state.Valid() && Keyed(state.View())
    modifies state, state.Arrays()
    ensures state.Valid() && (forall a <- state.Arrays() :: a in old(state.Arrays()) || fresh(a))
    ensures O.Found(old(state.View()), ev, found)
    ensures answered == (saveOK || ev.id in old(state.View()).webhooks)
    ensures state.View() == if saveOK then O.Webhook(old(state.View()), ev, found, now, subID) else old(state.View())
  {
    hide State.Valid, State.View, Keyed, O.FirstDelivery, O.Matches;
    state.Fields();
    found := FindOrder(state.orders, ev);
    if ev.id in state.webhooks && state.webhooks[ev.id] {
      return true, found;
    }
    answered := SaveDelivery(state, ev, found, now, subID, saveOK);
  }

  lemma KeyedSubs(state: State)
    requires state.Valid() && Keyed(state.View())
    ensures KeyedBy(state.subs, SubKey)
  {
  }

  // ---------------------------------------------------------------- admin actions

  /** adminMarkOrderPaid, adminCancelOrder and adminRefundOrder differ in the transition only. */
  method MarkPaid(state: State, orderID: Id, reason: string, now: Time, subID: Id, saveOK: bool) returns (saved: bool)
    requires state.Valid() && Keyed(state.View())
    modifies state, state.Arrays()
    ensures state.Valid() && (forall a <- state.Arrays() :: a in old(state.Arrays()) || fresh(a))
    ensures var r := O.MarkPaid(old(state.View()), orderID, reason, now, subID);
            saved == (saveOK && r.Ok?) && state.View() == if saved then r.value else old(state.View())
  {
    hide State.Valid, State.View, Keyed, O.Activate, Snapshot.Records;
    ghost var before := state.View();
    state.Fields();
    if TrimSpace(reason) == "" || orderID !in state.orders {
      return false;
    }
    var order := state.orders[orderID];
    var snap := state.Take();
    var ok := ActivateOrder(state, order.(operatorNote := TrimSpace(reason)), now, subID, O.ADMIN, LogMarkPaid);
    if !ok {
      return false;
    }
    saved := state.PersistOrRollback(snap, before, saveOK);
  }

  method AdminCancel(state: State, orderID: Id, reason: string, now: Time, saveOK: bool) returns (saved: bool)
    requires state.Valid() && Keyed(state.View())
    modifies state, state.Arrays()
    ensures state.Valid() && (forall a <- state.Arrays() :: a in old(state.Arrays()) || fresh(a))
    ensures var r := O.AdminCancel(old(state.View()), orderID, reason, now);
            saved == (saveOK && r.Ok?) && state.View() == if saved then r.value else old(state.View())
  {
    hide State.Valid, State.View, Keyed, O.Cancel, Snapshot.Records;
    ghost var before := state.View();
    state.Fields();
    if TrimSpace(reason) == "" || orderID !in state.orders {
      return false;
    }
    var order := state.orders[orderID];
    var snap := state.Take();
    var ok := CancelOrder(state, order.(operatorNote := TrimSpace(reason)), now, O.ADMIN, LogOrderCancel, TrimSpace(reason));
    if !ok {
      return false;
    }
    saved := state.PersistOrRollback(snap, before, saveOK);
  }

  method AdminRefund(state: State, orderID: Id, reason: string, now: Time, saveOK: bool) returns (saved: bool)
    requires state.Valid() && Keyed(state.View())
    modifies state, state.Arrays()
    ensures state.Valid() && (forall a <- state.Arrays() :: a in old(state.Arrays()) || fresh(a))
    ensures var r := O.AdminRefund(old(state.View()), orderID, reason, now);
            saved == (saveOK && r.Ok?) && state.View() == if saved then r.value else old(state.View())
  {
    hide State.Valid, State.View, Keyed, O.Refund, Snapshot.Records;
    ghost var before := state.View();
    state.Fields();
    KeyedSubs(state);
    if TrimSpace(reason) == "" || orderID !in state.orders {
      return false;
    }
    var order := state.orders[orderID];
    var snap := state.Take();
    var ok := RefundOrder(state, order.(operatorNote := TrimSpace(reason)), now, O.ADMIN, LogOrderRefund, TrimSpace(reason));
    if !ok {
      return false;
    }
    saved := state.PersistOrRollback(snap, before, saveOK);
  }
}
