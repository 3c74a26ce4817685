/** Orders, their IF-Pay events and the admin order actions of internal/api/server.go, on the value of the state. */
module Orders {
  import opened Text
  import opened Domain
  import opened Db

  // ---------------------------------------------------------------- the four transitions

  /** activateOrderLocked. `order` is the caller's copy; its status decides. */
  function Activate(db: Db, order: Order, now: Time, subID: Id, actor: string, action: AuditAction): Result<Db> {
    if order.status == Cancelled || order.status == Refunded then Err("not payable")
    else if order.userID !in db.users then Err("no user")
    else
      var user := db.users[order.userID];
      var needsActivation := order.status != Paid || user.id !in db.subs;
      var paid := order.(status := Paid, failedAt := None,
                         paidAt := if order.paidAt.None? then Some(now) else order.paidAt);
      Ok(db.(
           orders := db.orders[order.id := paid],
           users := if needsActivation then db.users[user.id := user.(planSlug := order.planSlug)] else db.users,
           subs := if needsActivation
                   then db.subs[user.id := NewSubscription(subID, user.id, order.planSlug, now, BillingDuration(order.billingCycle))]
                   else db.subs,
           auditLogs := db.auditLogs + [AuditLog(actor, action, order.id, needsActivation)]))
  }

  /** failOrderLocked. */
  function Fail(db: Db, order: Order, now: Time, actor: string, action: AuditAction, reason: string): Result<Db> {
    if order.status == Paid || order.status == Cancelled || order.status == Refunded then Err("not failable")
    else
      var failed := order.(status := Failed,
                           failedAt := if order.failedAt.None? then Some(now) else order.failedAt,
                           operatorNote := if reason != "" then reason else order.operatorNote);
      Ok(Audited(db.(orders := db.orders[order.id := failed]), actor, action, order.id))
  }

  /** cancelOrderLocked. */
  function Cancel(db: Db, order: Order, now: Time, actor: string, action: AuditAction, reason: string): Result<Db> {
    if order.status == Paid then Err("refund instead")
    else if order.status == Refunded then Err("refunded")
    else
      var cancelled := order.(status := Cancelled,
                              cancelledAt := if order.cancelledAt.None? then Some(now) else order.cancelledAt,
                              operatorNote := if reason != "" then reason else order.operatorNote);
      Ok(Audited(db.(orders := db.orders[order.id := cancelled]), actor, action, order.id))
  }

  /** The subscription a matching refund leaves behind: over since a second, its data kept for 30 days. */
  function Retained(sub: Subscription, now: Time): Subscription {
    sub.(status := SubPastDue, endsAt := now - SECOND, retentionEndsAt := now + RETENTION)
  }

  predicate RefundMatches(db: Db, order: Order) {
    order.userID in db.subs && db.subs[order.userID].planSlug == order.planSlug
  }

  /** refundOrderLocked. */
  function Refund(db: Db, order: Order, now: Time, actor: string, action: AuditAction, reason: string): Result<Db> {
    if order.status != Paid then Err("not paid")
    else
      var u := order.userID;
      var refunded := order.(status := Refunded,
                             refundedAt := if order.refundedAt.None? then Some(now) else order.refundedAt,
                             operatorNote := if reason != "" then reason else order.operatorNote);
      var matching := RefundMatches(db, order);
      Ok(Audited(
           db.(orders := db.orders[order.id := refunded],
               subs := if matching then db.subs[u := Retained(db.subs[u], now)] else db.subs,
               users := if matching && u in db.users then db.users[db.users[u].id := db.users[u].(planSlug := "")] else db.users),
           actor, action, order.id))
  }

  // ---------------------------------------------------------------- webhooks

  /** The fields of an IF-Pay event; an absent payload entry is the empty string. */
  datatype Event = Event(
    id: Id, eventType: string, resourceID: string, orderID: string, paymentID: string,
    failureReason: string, cancelReason: string, refundReason: string)

  /** The test of findWebhookOrderLocked on one order. */
  predicate Matches(order: Order, ev: Event) {
    var paymentID := if TrimSpace(ev.resourceID) == "" then ev.paymentID else TrimSpace(ev.resourceID);
    order.id == ev.orderID || (paymentID != "" && order.paymentID == paymentID)
  }

  /** The search returns some matching order, whichever map iteration meets first. */
  predicate Found(db: Db, ev: Event, found: Option<Id>) {
    match found
    case Some(id) => id in db.orders && Matches(db.orders[id], ev)
    case None => forall id <- db.orders :: !Matches(db.orders[id], ev)
  }

  const SYSTEM := "system"
  const ADMIN := "admin"

  function OrIgnored(r: Result<Db>, db: Db, action: AuditAction, target: Id): Db {
    match r
    case Ok(next) => next
    case Err(_) => Audited(db, SYSTEM, action, target)
  }

  datatype EventKind = Succeeded | FailedEvent | ExpiredEvent | CancelledEvent | RefundedEvent | OtherEvent

  /** The switch on the lower-cased event type. */
  function KindOf(eventType: string): EventKind {
    var t := Lower(TrimSpace(eventType));
    if t == "payment.succeeded" then Succeeded
    else if t == "payment.failed" then FailedEvent
    else if t == "payment.expired" then ExpiredEvent
    else if t == "payment.cancelled" || t == "payment.canceled" then CancelledEvent
    else if t == "payment.refunded" || t == "payment.refund.succeeded" then RefundedEvent
    else OtherEvent
  }

  function FailureReason(ev: Event): string {
    if ev.failureReason == "" && KindOf(ev.eventType) == ExpiredEvent then "payment expired" else ev.failureReason
  }

  /** The effect of an event on the order it was matched with. */
  function Settle(db: Db, ev: Event, order: Order, now: Time, subID: Id): Db {
    match KindOf(ev.eventType)
    case Succeeded =>
      OrIgnored(Activate(db, order, now, subID, SYSTEM, LogPaymentSucceeded), db, LogSucceededIgnored, order.id)
    case FailedEvent =>
      OrIgnored(Fail(db, order, now, SYSTEM, LogPaymentFailed, FailureReason(ev)), db, LogFailedIgnored, order.id)
    case ExpiredEvent =>
      OrIgnored(Fail(db, order, now, SYSTEM, LogPaymentFailed, FailureReason(ev)), db, LogFailedIgnored, order.id)
    case CancelledEvent =>
      OrIgnored(Cancel(db, order, now, SYSTEM, LogPaymentCancelled, ev.cancelReason), db, LogCancelledIgnored, order.id)
    case RefundedEvent =>
      OrIgnored(Refund(db, order, now, SYSTEM, LogPaymentRefunded, ev.refundReason), db, LogRefundedIgnored, order.id)
    case OtherEvent =>
      Audited(db, SYSTEM, LogWebhookIgnored, order.id)
  }

  /** What a delivery does once it is not a duplicate: mark the event id, then settle. */
  function FirstDelivery(db: Db, ev: Event, found: Option<Id>, now: Time, subID: Id): Db
    requires found.Some? ==> found.value in db.orders
  {
    var marked := db.(webhooks := db.webhooks + {ev.id});
    match found
    case None => Audited(marked, SYSTEM, LogWebhookUnmatched, ev.id)
    case Some(id) => Settle(marked, ev, db.orders[id], now, subID)
  }

  /** ifpayWebhook after the signature checks. */
  function Webhook(db: Db, ev: Event, found: Option<Id>, now: Time, subID: Id): Db
    requires found.Some? ==> found.value in db.orders
  {
    if ev.id in db.webhooks then db else FirstDelivery(db, ev, found, now, subID)
  }

  // ---------------------------------------------------------------- admin actions and checkout

  /** adminMarkOrderPaid. */
  function MarkPaid(db: Db, orderID: Id, reason: string, now: Time, subID: Id): Result<Db> {
    if TrimSpace(reason) == "" then Err("reason required")
    else if orderID !in db.orders then Err("order not found")
    else Activate(db, db.orders[orderID].(operatorNote := TrimSpace(reason)), now, subID, ADMIN, LogMarkPaid)
  }

  /** adminCancelOrder. */
  function AdminCancel(db: Db, orderID: Id, reason: string, now: Time): Result<Db> {
    if TrimSpace(reason) == "" then Err("reason required")
    else if orderID !in db.orders then Err("order not found")
    else Cancel(db, db.orders[orderID].(operatorNote := TrimSpace(reason)), now, ADMIN, LogOrderCancel, TrimSpace(reason))
  }

  /** adminRefundOrder. */
  function AdminRefund(db: Db, orderID: Id, reason: string, now: Time): Result<Db> {
    if TrimSpace(reason) == "" then Err("reason required")
    else if orderID !in db.orders then Err("order not found")
    else Refund(db, db.orders[orderID].(operatorNote := TrimSpace(reason)), now, ADMIN, LogOrderRefund, TrimSpace(reason))
  }

  /** createIFPayCheckout up to its first save: the pending order. */
  function Checkout(db: Db, orderID: Id, userID: Id, slug: string, cycle: string): Result<Db> {
    var billingCycle := if TrimSpace(cycle) == "" then "monthly" else cycle;
    var plan := FindPlan(db.plans, slug);
    if userID !in db.users || !db.users[userID].emailVerified then Err("email not verified")
    else if billingCycle != "monthly" && billingCycle != "yearly" then Err("invalid billing cycle")
    else if plan.None? || !plan.value.purchasable then Err("plan not purchasable")
    else
      var amount := if billingCycle == "yearly" then plan.value.yearlyPriceCent else plan.value.monthlyPriceCent;
      var order := Order(orderID, userID, slug, billingCycle, amount, Pending, "", None, None, None, None, "");
      Ok(Audited(db.(orders := db.orders[orderID := order]), SYSTEM, LogCheckoutCreated, orderID))
  }

  /** createIFPayCheckout once the payment service has created the payment. Events may have come in between. */
  function AttachPayment(db: Db, orderID: Id, paymentID: string): Db
    requires orderID in db.orders
  {
    Audited(db.(orders := db.orders[orderID := db.orders[orderID].(paymentID := paymentID)]), SYSTEM, LogPaymentCreated, orderID)
  }

  /** createIFPayCheckout once the call to the payment service has failed: the order is failed, whatever events
      have made of it in between. */
  function RefusePayment(db: Db, orderID: Id, message: string, now: Time): Db
    requires orderID in db.orders
  {
    var failed := db.orders[orderID].(status := Failed, failedAt := Some(now), operatorNote := message);
    Audited(db.(orders := db.orders[failed.id := failed]), SYSTEM, LogCheckoutFailed, failed.id)
  }
}
