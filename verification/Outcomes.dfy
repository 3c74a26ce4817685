/** What a customer sees of an order: what each payment event and each admin action makes of it, and what a payment
    buys. All of it is told by literal event names, lengths and prices, not by the functions the handlers call. */
module OrderOutcomes {
  import opened Text
  import opened Domain
  import opened Db
  import opened Orders
  import opened Handlers
  import opened Actions
  import opened Frames
  import opened Soundness
  import opened Billing
  import opened PaymentRuns
  import opened AccountOutcomes

  // ---------------------------------------------------------------- payment events

  /** The event carries the name, in any case and with white space around it. */
  predicate Says(ev: Event, name: string) {
    Lower(TrimSpace(ev.eventType)) == name
  }

  predicate Open(order: Order) {
    order.status == Pending || order.status == Failed
  }

  /** The order is exactly as it was, and so are all subscriptions and all plans of users. */
  predicate Untouched(db: Db, next: Db, id: Id) {
    id in db.orders && id in next.orders && next.orders[id] == db.orders[id] && next.subs == db.subs && next.users == db.users
  }

  /** The order has the status, on the same terms; subscriptions and users are as they were. */
  predicate Becomes(db: Db, next: Db, id: Id, status: OrderStatus) {
    && id in db.orders && id in next.orders && next.orders[id].status == status && SameTerms(db.orders[id], next.orders[id])
    && next.subs == db.subs && next.users == db.users
  }

  /** The order has become paid and its owner has the plan it names from now on, for as many days. */
  ghost predicate Buys(db: Db, next: Db, id: Id, subID: Id, now: Time, days: int) {
    && id in db.orders && id in next.orders && next.orders[id].status == Paid && SameTerms(db.orders[id], next.orders[id])
    && var o := db.orders[id];
       && o.userID in next.subs && next.subs == db.subs[o.userID := next.subs[o.userID]]
       && o.userID in next.users && next.users[o.userID].planSlug == o.planSlug
       && Lasts(next.subs[o.userID], subID, o.userID, o.planSlug, now, days)
  }

  /** The order carries the reason, or the note it had when there is none. */
  predicate Explained(db: Db, next: Db, id: Id, reason: string) {
    && id in db.orders && id in next.orders
    && next.orders[id].operatorNote == if reason != "" then reason else db.orders[id].operatorNote
  }

  /** The order is refunded; if its owner is still on its plan, that plan ends now, the data kept for 30 days. */
  ghost predicate PaysBack(db: Db, next: Db, id: Id, now: Time) {
    && id in db.orders && id in next.orders && next.orders[id].status == Refunded && SameTerms(db.orders[id], next.orders[id])
    && var u := db.orders[id].userID;
       if u in db.subs && db.subs[u].planSlug == db.orders[id].planSlug then
         && u in next.subs && next.subs == db.subs[u := next.subs[u]] && Over(next.subs[u], now, 30)
         && SameGrant(db.subs[u], next.subs[u])
         && (u in db.users ==> next.users == db.users[u := db.users[u].(planSlug := "")])
       else next.subs == db.subs && next.users == db.users
  }

  /** The length of the cycle the order was opened with. */
  function Days(order: Order): int {
    if order.billingCycle == "yearly" then 365 else 31
  }

  lemma LastsFor(subID: Id, userID: Id, slug: string, now: Time, order: Order)
    requires order.userID == userID && order.planSlug == slug
    ensures Lasts(NewSubscription(subID, userID, slug, now, BillingDuration(order.billingCycle)), subID, userID, slug, now, Days(order))
  {
    assert DAY == 86_400_000_000_000;
  }

  lemma OpenBuys(db: Db, order: Order, now: Time, subID: Id, actor: string, action: AuditAction)
    requires order.id in db.orders && SameTerms(db.orders[order.id], order) && Open(order)
    requires order.userID in db.users && db.users[order.userID].id == order.userID
    ensures var r := Activate(db, order, now, subID, actor, action);
            r.Ok? && Buys(db, r.value, order.id, subID, now, Days(order))
  {
    hide NewSubscription, BillingDuration, Lasts, Days;
    LastsFor(subID, order.userID, order.planSlug, now, order);
    var next := Activate(db, order, now, subID, actor, action).value;
    var sub := NewSubscription(subID, order.userID, order.planSlug, now, BillingDuration(order.billingCycle));
    assert next.subs == db.subs[order.userID := sub];
  }

  lemma PaidStaysPaid(db: Db, order: Order, now: Time, subID: Id, actor: string, action: AuditAction)
    requires order.id in db.orders && SameTerms(db.orders[order.id], order) && order.status == Paid
    requires order.userID in db.users && db.users[order.userID].id == order.userID && order.userID in db.subs
    ensures var r := Activate(db, order, now, subID, actor, action); r.Ok? && Becomes(db, r.value, order.id, Paid)
  {
    hide NewSubscription, BillingDuration;
  }

  lemma ActivationBuys(db: Db, order: Order, now: Time, subID: Id, actor: string, action: AuditAction)
    requires order.id in db.orders && SameTerms(db.orders[order.id], order)
    requires order.userID in db.users && db.users[order.userID].id == order.userID
    requires order.userID in db.subs
    ensures var r := Activate(db, order, now, subID, actor, action);
            && (r.Ok? <==> order.status != Cancelled && order.status != Refunded)
            && (Open(order) ==> Buys(db, r.value, order.id, subID, now, Days(order)))
            && (order.status == Paid ==> Becomes(db, r.value, order.id, Paid))
  {
    hide NewSubscription, BillingDuration, Buys, Becomes, Days;
    if Open(order) {
      OpenBuys(db, order, now, subID, actor, action);
    } else if order.status == Paid {
      PaidStaysPaid(db, order, now, subID, actor, action);
    }
  }

  lemma OwnerKnown(db: Db, u: Id)
    requires Sound(db) && u in db.users
    ensures u in db.subs && db.users[u].id == u
  {
  }

  lemma FailureFails(db: Db, order: Order, now: Time, actor: string, action: AuditAction, reason: string)
    requires order.id in db.orders && SameTerms(db.orders[order.id], order)
    ensures var r := Fail(db, order, now, actor, action, reason);
            && (r.Ok? <==> Open(order))
            && (r.Ok? ==> Becomes(db, r.value, order.id, Failed))
  {
  }

  lemma CancellationCancels(db: Db, order: Order, now: Time, actor: string, action: AuditAction, reason: string)
    requires order.id in db.orders && SameTerms(db.orders[order.id], order)
    ensures var r := Cancel(db, order, now, actor, action, reason);
            && (r.Ok? <==> Open(order) || order.status == Cancelled)
            && (r.Ok? ==> Becomes(db, r.value, order.id, Cancelled))
  {
  }

  lemma RefundPaysBack(db: Db, order: Order, now: Time, actor: string, action: AuditAction, reason: string)
    requires order.id in db.orders && SameTerms(db.orders[order.id], order)
    requires order.userID in db.users ==> db.users[order.userID].id == order.userID
    ensures var r := Refund(db, order, now, actor, action, reason);
            && (r.Ok? <==> order.status == Paid)
            && (r.Ok? ==> PaysBack(db, r.value, order.id, now))
  {
    hide Over, Retained;
    if RefundMatches(db, order) {
      RetainedOver(db.subs[order.userID], now);
    }
  }

  lemma RetainedOver(sub: Subscription, now: Time)
    ensures Over(Retained(sub, now), now, 30) && SameGrant(sub, Retained(sub, now))
  {
    assert 30 * 86_400_000_000_000 == RETENTION;
  }

  lemma FailureNotes(db: Db, order: Order, now: Time, actor: string, action: AuditAction, reason: string)
    ensures var r := Fail(db, order, now, actor, action, reason);
            r.Ok? ==> order.id in r.value.orders
                      && r.value.orders[order.id].operatorNote == if reason != "" then reason else order.operatorNote
  {
  }

  lemma CancellationNotes(db: Db, order: Order, now: Time, actor: string, action: AuditAction, reason: string)
    ensures var r := Cancel(db, order, now, actor, action, reason);
            r.Ok? ==> order.id in r.value.orders
                      && r.value.orders[order.id].operatorNote == if reason != "" then reason else order.operatorNote
  {
  }

  lemma RefundNotes(db: Db, order: Order, now: Time, actor: string, action: AuditAction, reason: string)
    ensures var r := Refund(db, order, now, actor, action, reason);
            r.Ok? ==> order.id in r.value.orders
                      && r.value.orders[order.id].operatorNote == if reason != "" then reason else order.operatorNote
  {
    hide Retained;
  }

  lemma IgnoredUntouched(db: Db, action: AuditAction, id: Id)
    requires id in db.orders
    ensures Untouched(db, Audited(db, SYSTEM, action, id), id)
  {
  }

  /** What an event does, told by its name. */
  ghost predicate Settles(db: Db, next: Db, ev: Event, id: Id, subID: Id, now: Time)
    requires id in db.orders
  {
    var was := db.orders[id];
    if Says(ev, "payment.succeeded") then
      if Open(was) && was.userID in db.users then Buys(db, next, id, subID, now, Days(was))
      else if was.status == Paid && was.userID in db.users then Becomes(db, next, id, Paid)
      else Untouched(db, next, id)
    else if Says(ev, "payment.failed") || Says(ev, "payment.expired") then
      if Open(was) then
        && Becomes(db, next, id, Failed)
        && Explained(db, next, id, if ev.failureReason == "" && Says(ev, "payment.expired") then "payment expired" else ev.failureReason)
      else Untouched(db, next, id)
    else if Says(ev, "payment.cancelled") || Says(ev, "payment.canceled") then
      if Open(was) || was.status == Cancelled then Becomes(db, next, id, Cancelled) && Explained(db, next, id, ev.cancelReason)
      else Untouched(db, next, id)
    else if Says(ev, "payment.refunded") || Says(ev, "payment.refund.succeeded") then
      if was.status == Paid then PaysBack(db, next, id, now) && Explained(db, next, id, ev.refundReason)
      else Untouched(db, next, id)
    else Untouched(db, next, id)
  }

  lemma SettleSettles(db: Db, ev: Event, id: Id, now: Time, subID: Id)
    requires Sound(db) && id in db.orders && db.orders[id].id == id
    ensures Settles(db, Settle(db, ev, db.orders[id], now, subID), ev, id, subID, now)
  {
    var order := db.orders[id];
    if order.userID in db.users {
      OwnerKnown(db, order.userID);
    }
    hide Sound, Activate, Fail, Cancel, Refund, Lower, TrimSpace, Buys, PaysBack, Becomes, Untouched, Days;
    match KindOf(ev.eventType)
    case Succeeded =>
      if order.userID in db.users {
        ActivationBuys(db, order, now, subID, SYSTEM, LogPaymentSucceeded);
      } else {
        UnknownOwner(db, order, now, subID, SYSTEM, LogPaymentSucceeded);
      }
      IgnoredUntouched(db, LogSucceededIgnored, id);
    case CancelledEvent =>
      CancellationCancels(db, order, now, SYSTEM, LogPaymentCancelled, ev.cancelReason);
      CancellationNotes(db, order, now, SYSTEM, LogPaymentCancelled, ev.cancelReason);
      IgnoredUntouched(db, LogCancelledIgnored, id);
    case RefundedEvent =>
      RefundPaysBack(db, order, now, SYSTEM, LogPaymentRefunded, ev.refundReason);
      RefundNotes(db, order, now, SYSTEM, LogPaymentRefunded, ev.refundReason);
      IgnoredUntouched(db, LogRefundedIgnored, id);
    case OtherEvent => IgnoredUntouched(db, LogWebhookIgnored, id);
    case _ =>
      FailureFails(db, order, now, SYSTEM, LogPaymentFailed, FailureReason(ev));
      FailureNotes(db, order, now, SYSTEM, LogPaymentFailed, FailureReason(ev));
      IgnoredUntouched(db, LogFailedIgnored, id);
  }

  lemma UnknownOwner(db: Db, order: Order, now: Time, subID: Id, actor: string, action: AuditAction)
    requires order.userID !in db.users
    ensures Activate(db, order, now, subID, actor, action).Err?
  {
  }

  /** The event is about the order: it names its id, or its payment, the resource before the payload. */
  predicate About(ev: Event, order: Order) {
    || ev.orderID == order.id
    || (TrimSpace(ev.resourceID) != "" && order.paymentID == TrimSpace(ev.resourceID))
    || (TrimSpace(ev.resourceID) == "" && ev.paymentID != "" && order.paymentID == ev.paymentID)
  }

  /** The search finds an order the event is about, and none only when there is none; then the event is marked, and orders,
      subscriptions and users stay as they are. */
  lemma FoundExact(db: Db, ev: Event, found: Option<Id>, now: Time, subID: Id)
    ensures Found(db, ev, found) <==>
      match found
      case Some(id) => id in db.orders && About(ev, db.orders[id])
      case None => forall id <- db.orders :: !About(ev, db.orders[id])
    ensures found.None? && ev.id !in db.webhooks ==>
      var next := Webhook(db, ev, found, now, subID);
      next == db.(webhooks := db.webhooks + {ev.id}, auditLogs := db.auditLogs + [AuditLog(SYSTEM, LogWebhookUnmatched, ev.id, false)])
  {
    hide TrimSpace;
  }

  /** The first delivery of an event marks it, does to the matched order what its name says and leaves every other order
      alone; an event on record does nothing. */
  lemma EventsSettle(db: Db, ev: Event, id: Id, now: Time, subID: Id)
    requires Sound(db) && Found(db, ev, Some(id))
    ensures var next := Webhook(db, ev, Some(id), now, subID);
            if ev.id in db.webhooks then next == db
            else
              && Settles(db, next, ev, id, subID, now) && next.webhooks == db.webhooks + {ev.id}
              && id in next.orders && next.orders == db.orders[id := next.orders[id]]
  {
    hide Sound, Settle, Found, OrderStep, QuietStep, Buys, PaysBack, Becomes, Untouched, Days, Explained, Lower, TrimSpace;
    if ev.id !in db.webhooks {
      var marked := db.(webhooks := db.webhooks + {ev.id});
      PutLogs(db, db.plans, db.redemptions, marked.webhooks, db.riskEvents, db.auditLogs);
      MatchFiled(db, ev, id);
      SettleSettles(marked, ev, id, now, subID);
      SettlesMarked(db, marked, Settle(marked, ev, db.orders[id], now, subID), ev, id, subID, now);
      SettleStep(marked, ev, id, now, subID);
      OneOrder(marked, Settle(marked, ev, db.orders[id], now, subID), id);
      SettleWithin(marked, ev, db.orders[id], now, subID);
      assert SamePart(marked, Settle(marked, ev, db.orders[id], now, subID), Webhooks);
    }
  }

  lemma MatchFiled(db: Db, ev: Event, id: Id)
    requires Sound(db) && Found(db, ev, Some(id))
    ensures id in db.orders && db.orders[id].id == id
  {
    OrderFiled(db, id);
  }

  lemma SettlesMarked(db: Db, marked: Db, next: Db, ev: Event, id: Id, subID: Id, now: Time)
    requires id in db.orders && marked == db.(webhooks := marked.webhooks) && Settles(marked, next, ev, id, subID, now)
    ensures Settles(db, next, ev, id, subID, now)
  {
    hide Lower, TrimSpace, Lasts, Over;
  }

  lemma OneOrder(db: Db, next: Db, id: Id)
    requires id in db.orders && Shape(db, next, Some(id))
    ensures id in next.orders && next.orders == db.orders[id := next.orders[id]]
  {
    hide Entries, Quiet;
  }

  // ---------------------------------------------------------------- what a payment buys

  lemma SettledPaid(db: Db, next: Db, ev: Event, id: Id, subID: Id, now: Time)
    requires id in db.orders && Settles(db, next, ev, id, subID, now) && EntersPaid(db, next, id)
    ensures Buys(db, next, id, subID, now, Days(db.orders[id]))
  {
    hide Lower, TrimSpace, Lasts, Over, Days;
  }

  lemma MarkedPaid(db: Db, id: Id, reason: string, now: Time, subID: Id)
    requires Sound(db) && EntersPaid(db, Or(MarkPaid(db, id, reason, now, subID), db), id)
    ensures Buys(db, Or(MarkPaid(db, id, reason, now, subID), db), id, subID, now, Days(db.orders[id]))
  {
    OrderFiled(db, id);
    var order := db.orders[id].(operatorNote := TrimSpace(reason));
    hide Sound, Activate, TrimSpace, Days, Buys, Becomes;
    if order.userID in db.users {
      OwnerKnown(db, order.userID);
      ActivationBuys(db, order, now, subID, ADMIN, LogMarkPaid);
      PaidStays(db, MarkPaid(db, id, reason, now, subID), id);
    } else {
      UnknownOwner(db, order, now, subID, ADMIN, LogMarkPaid);
    }
  }

  lemma PaidStays(db: Db, r: Result<Db>, id: Id)
    ensures r.Ok? && Becomes(db, r.value, id, Paid) && !EntersPaid(db, r.value, id) ==> db.orders[id].status == Paid
  {
  }

  lemma CheckoutsDoNotPay(db: Db, id: Id, userID: Id, slug: string, cycle: string, paymentID: string, message: string, now: Time)
    requires Sound(db)
    ensures id !in db.orders ==> !EntersPaid(db, Or(Checkout(db, id, userID, slug, cycle), db), id)
    ensures id in db.orders ==> !EntersPaid(db, AttachPayment(db, id, paymentID), id)
    ensures id in db.orders ==> !EntersPaid(db, RefusePayment(db, id, message, now), id)
  {
    if id in db.orders {
      OrderFiled(db, id);
    }
    hide Sound, FindPlan, TrimSpace;
  }

  lemma AdminsDoNotPay(db: Db, id: Id, reason: string, now: Time)
    requires Sound(db)
    ensures !EntersPaid(db, Or(AdminCancel(db, id, reason, now), db), id)
    ensures !EntersPaid(db, Or(AdminRefund(db, id, reason, now), db), id)
  {
    hide Sound, Cancel, Refund, TrimSpace, Over;
    if id in db.orders {
      OrderFiled(db, id);
      var order := db.orders[id].(operatorNote := TrimSpace(reason));
      CancellationCancels(db, order, now, ADMIN, LogOrderCancel, TrimSpace(reason));
      if order.userID in db.users {
        OwnerKnown(db, order.userID);
      }
      RefundPaysBack(db, order, now, ADMIN, LogOrderRefund, TrimSpace(reason));
    }
  }

  lemma OnlyPayments(db: Db, s: Step, id: Id)
    requires Sound(db) && Legal(db, s) && EntersPaid(db, Next(db, s), id)
    ensures Touched(s) == Some(id) && s.saved && (s.action.DoWebhook? || s.action.DoMarkPaid?)
  {
    hide Sound, Legal, Effect;
    NextWrites(db, s);
    if !(s.action.DoWebhook? || s.action.DoMarkPaid?) {
      EffectDoesNotPay(db, s, id);
    }
  }

  lemma EffectDoesNotPay(db: Db, s: Step, id: Id)
    requires Sound(db) && Legal(db, s) && Touched(s) == Some(id) && !s.action.DoWebhook? && !s.action.DoMarkPaid?
    ensures !EntersPaid(db, Effect(db, s), id)
  {
    hide Sound, Or, AdminCancel, AdminRefund, Checkout, AttachPayment, RefusePayment, EntersPaid;
    match s.action
    case DoCheckout(_, userID, slug, cycle) => CheckoutsDoNotPay(db, id, userID, slug, cycle, "", "", s.now);
    case DoAttachPayment(_, paymentID) => CheckoutsDoNotPay(db, id, "", "", "", paymentID, "", s.now);
    case DoRefusePayment(_, message) => CheckoutsDoNotPay(db, id, "", "", "", "", message, s.now);
    case DoCancel(_, reason) => AdminsDoNotPay(db, id, reason, s.now);
    case DoRefund(_, reason) => AdminsDoNotPay(db, id, reason, s.now);
  }

  /** Whatever step makes an order paid, the order's owner has the order's plan from that moment, active for 365 days on
      a yearly order and for 31 on any other, the data kept for 30 days more. */
  lemma PaymentBuys(db: Db, s: Step, id: Id)
    requires Sound(db) && Legal(db, s) && EntersPaid(db, Next(db, s), id)
    ensures Buys(db, Next(db, s), id, SubIDOf(s.action), s.now, Days(db.orders[id]))
  {
    hide Sound, Legal, Next, Webhook, MarkPaid, Found, Buys, Settles, Days, Or;
    OnlyPayments(db, s, id);
    PaidNext(db, s);
    match s.action
    case DoWebhook(ev, found, subID) =>
      EventsSettle(db, ev, id, s.now, subID);
      SettledPaid(db, Next(db, s), ev, id, subID, s.now);
    case DoMarkPaid(_, reason, subID) => MarkedPaid(db, id, reason, s.now, subID);
  }

  lemma PaidNext(db: Db, s: Step)
    requires Legal(db, s) && s.saved
    ensures s.action.DoWebhook? ==> Found(db, s.action.ev, s.action.found)
    ensures s.action.DoWebhook? ==> Next(db, s) == Webhook(db, s.action.ev, s.action.found, s.now, s.action.subID)
    ensures s.action.DoMarkPaid? ==> Next(db, s) == Or(MarkPaid(db, s.action.orderID, s.action.reason, s.now, s.action.subID), db)
  {
    hide Webhook, MarkPaid, Found, Or;
  }

  // ---------------------------------------------------------------- checkout

  /** The plan can be bought: it is the first with the slug, and for sale. */
  predicate ForSale(plans: seq<Plan>, slug: string, i: nat) {
    FirstPlan(plans, slug, i) && plans[i].purchasable
  }

  predicate IsCycle(cycle: string) {
    TrimSpace(cycle) == "" || cycle == "monthly" || cycle == "yearly"
  }

  /** A checkout opens a pending order at the price of the plan: the yearly one for a year, the monthly one for a month,
      which is also what a blank cycle means. */
  lemma CheckoutExact(db: Db, id: Id, u: Id, slug: string, cycle: string)
    ensures var r := Checkout(db, id, u, slug, cycle);
      && (r.Ok? <==> u in db.users && db.users[u].emailVerified && IsCycle(cycle) && exists i: nat :: ForSale(db.plans, slug, i))
      && (r.Ok? ==>
          && r.value == db.(orders := r.value.orders, auditLogs := db.auditLogs + [AuditLog(SYSTEM, LogCheckoutCreated, id, false)])
          && id in r.value.orders && r.value.orders == db.orders[id := r.value.orders[id]]
          && var o := r.value.orders[id];
             && o.id == id && o.userID == u && o.planSlug == slug && o.status == Pending && o.paymentID == ""
             && (cycle == "yearly" <==> o.billingCycle == "yearly") && (cycle != "yearly" ==> o.billingCycle == "monthly")
             && forall i: nat :: FirstPlan(db.plans, slug, i) ==>
                  o.amountCent == if cycle == "yearly" then db.plans[i].yearlyPriceCent else db.plans[i].monthlyPriceCent)
  {
    CycleNotBlank();
    SaleFound(db.plans, slug);
    hide FindPlan, FirstPlan, ForSale, TrimSpace;
  }

  lemma SaleFound(plans: seq<Plan>, slug: string)
    ensures (exists i: nat :: ForSale(plans, slug, i)) <==> FindPlan(plans, slug).Some? && FindPlan(plans, slug).value.purchasable
    ensures forall i: nat :: FirstPlan(plans, slug, i) ==> i < |plans| && FindPlan(plans, slug) == Some(plans[i])
  {
    hide FindPlan;
    FindPlanFirst(plans, slug);
    if FindPlan(plans, slug).Some? {
      var i: nat :| FirstPlan(plans, slug, i);
      assert FindPlan(plans, slug) == Some(plans[i]);
      assert plans[i].purchasable ==> ForSale(plans, slug, i);
    }
  }

  lemma CycleNotBlank()
    ensures TrimSpace("yearly") == "yearly" && TrimSpace("monthly") == "monthly"
  {
    TrimSpaceOfTrimmed("yearly");
    TrimSpaceOfTrimmed("monthly");
  }

  /** The answers of the payment service: a payment is noted on the order as it is by then; a refusal fails it, as it is
      by then, with the reason. */
  lemma AnswersExact(db: Db, id: Id, paymentID: string, message: string, now: Time)
    requires id in db.orders && db.orders[id].id == id
    ensures AttachPayment(db, id, paymentID).orders == db.orders[id := db.orders[id].(paymentID := paymentID)]
    ensures var o := db.orders[id];
            RefusePayment(db, id, message, now).orders == db.orders[id := o.(status := Failed, failedAt := Some(now), operatorNote := message)]
  {
  }

  // ---------------------------------------------------------------- what an admin does to an order

  /** The order carries the admin's reason, without the white space around it. */
  predicate Noted(next: Db, id: Id, reason: string) {
    id in next.orders && next.orders[id].operatorNote == TrimSpace(reason)
  }

  lemma PaidNotes(db: Db, order: Order, now: Time, subID: Id, actor: string, action: AuditAction)
    ensures var r := Activate(db, order, now, subID, actor, action);
            r.Ok? ==> order.id in r.value.orders && r.value.orders[order.id].operatorNote == order.operatorNote
  {
    hide NewSubscription, BillingDuration;
  }

  /** Every admin action needs a reason and a known order, and leaves the reason on it. An order that is not cancelled
      or refunded can be marked paid, one that is open or cancelled already can be cancelled, one that is paid can be
      refunded; each with the effect of the event of that name. */
  lemma AdminExact(db: Db, id: Id, reason: string, now: Time, subID: Id)
    requires Sound(db)
    ensures var r := MarkPaid(db, id, reason, now, subID);
      && (r.Ok? <==>
          && TrimSpace(reason) != "" && id in db.orders && db.orders[id].userID in db.users
          && db.orders[id].status != Cancelled && db.orders[id].status != Refunded)
      && (r.Ok? ==>
          && Noted(r.value, id, reason)
          && if Open(db.orders[id]) then Buys(db, r.value, id, subID, now, Days(db.orders[id])) else Becomes(db, r.value, id, Paid))
    ensures var r := AdminCancel(db, id, reason, now);
      && (r.Ok? <==> TrimSpace(reason) != "" && id in db.orders && (Open(db.orders[id]) || db.orders[id].status == Cancelled))
      && (r.Ok? ==> Noted(r.value, id, reason) && Becomes(db, r.value, id, Cancelled))
    ensures var r := AdminRefund(db, id, reason, now);
      && (r.Ok? <==> TrimSpace(reason) != "" && id in db.orders && db.orders[id].status == Paid)
      && (r.Ok? ==> Noted(r.value, id, reason) && PaysBack(db, r.value, id, now))
  {
    if id in db.orders {
      OrderFiled(db, id);
      var order := db.orders[id].(operatorNote := TrimSpace(reason));
      if order.userID in db.users {
        OwnerKnown(db, order.userID);
      }
      hide Sound, Activate, Cancel, Refund, TrimSpace, Buys, PaysBack, Becomes, Days;
      if TrimSpace(reason) != "" {
        PaidNotes(db, order, now, subID, ADMIN, LogMarkPaid);
        CancellationNotes(db, order, now, ADMIN, LogOrderCancel, TrimSpace(reason));
        RefundNotes(db, order, now, ADMIN, LogOrderRefund, TrimSpace(reason));
      }
      if order.userID in db.users {
        ActivationBuys(db, order, now, subID, ADMIN, LogMarkPaid);
      } else {
        UnknownOwner(db, order, now, subID, ADMIN, LogMarkPaid);
      }
      CancellationCancels(db, order, now, ADMIN, LogOrderCancel, TrimSpace(reason));
      RefundPaysBack(db, order, now, ADMIN, LogOrderRefund, TrimSpace(reason));
    }
  }
}
