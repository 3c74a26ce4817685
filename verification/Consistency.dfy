/** Two agreements between fields that different handlers keep: an order's time stamps with its status, and a
    user's plan with its subscription. */
module Consistency {
  import opened Text
  import opened Domain
  import opened Db
  import opened Orders
  import opened Handlers
  import opened Actions
  import opened Frames
  import opened Soundness

  // ---------------------------------------------------------------- time stamps of orders

  /** The stamps an order carries tell its status. */
  predicate Stamped(o: Order) {
    match o.status
    case Pending => o.paidAt.None? && o.failedAt.None? && o.cancelledAt.None? && o.refundedAt.None?
    case Failed => o.paidAt.None? && o.failedAt.Some? && o.cancelledAt.None? && o.refundedAt.None?
    case Paid => o.paidAt.Some? && o.failedAt.None? && o.cancelledAt.None? && o.refundedAt.None?
    case Cancelled => o.paidAt.None? && o.cancelledAt.Some? && o.refundedAt.None?
    case Refunded => o.paidAt.Some? && o.failedAt.None? && o.cancelledAt.None? && o.refundedAt.Some?
  }

  /** A stamp that is set stays; only a failure is forgotten, when the payment comes after all. */
  predicate StampsStay(a: Order, b: Order) {
    && (a.paidAt.Some? ==> b.paidAt == a.paidAt)
    && (a.cancelledAt.Some? ==> b.cancelledAt == a.cancelledAt)
    && (a.refundedAt.Some? ==> b.refundedAt == a.refundedAt)
    && (a.failedAt.Some? ==> b.failedAt == a.failedAt || b.status == Paid || b.status == Refunded)
  }

  ghost predicate AllStamped(orders: map<Id, Order>) {
    forall id <- orders :: Stamped(orders[id])
  }

  ghost predicate AllStay(orders: map<Id, Order>, next: map<Id, Order>) {
    forall id <- orders :: id in next && StampsStay(orders[id], next[id])
  }

  /** One order is filed over an older version of itself, or is new. */
  lemma PutStamped(orders: map<Id, Order>, order: Order)
    requires AllStamped(orders) && Stamped(order)
    requires order.id in orders ==> StampsStay(orders[order.id], order)
    ensures AllStamped(orders[order.id := order]) && AllStay(orders, orders[order.id := order])
  {
  }

  lemma SameStamped(orders: map<Id, Order>)
    ensures AllStay(orders, orders)
  {
  }

  /** The caller's copy differs from the record in its note only. */
  predicate CopyOf(db: Db, order: Order) {
    order.id in db.orders && order == db.orders[order.id].(operatorNote := order.operatorNote)
  }

  ghost predicate Holds(db: Db, next: Db) {
    AllStamped(next.orders) && AllStay(db.orders, next.orders)
  }

  lemma ActivateStamps(db: Db, order: Order, now: Time, subID: Id, actor: string, action: AuditAction)
    requires AllStamped(db.orders) && CopyOf(db, order)
    ensures var r := Activate(db, order, now, subID, actor, action); r.Ok? ==> Holds(db, r.value)
  {
    hide AllStamped, AllStay, NewSubscription, BillingDuration;
    StampedOne(db.orders, order.id);
    var r := Activate(db, order, now, subID, actor, action);
    if r.Ok? {
      PutStamped(db.orders, r.value.orders[order.id]);
    }
  }

  lemma StampedOne(orders: map<Id, Order>, id: Id)
    requires AllStamped(orders) && id in orders
    ensures Stamped(orders[id])
  {
  }

  lemma FailStamps(db: Db, order: Order, now: Time, actor: string, action: AuditAction, reason: string)
    requires AllStamped(db.orders) && CopyOf(db, order)
    ensures var r := Fail(db, order, now, actor, action, reason); r.Ok? ==> Holds(db, r.value)
  {
    hide AllStamped, AllStay;
    StampedOne(db.orders, order.id);
    var r := Fail(db, order, now, actor, action, reason);
    if r.Ok? {
      PutStamped(db.orders, r.value.orders[order.id]);
    }
  }

  lemma CancelStamps(db: Db, order: Order, now: Time, actor: string, action: AuditAction, reason: string)
    requires AllStamped(db.orders) && CopyOf(db, order)
    ensures var r := Cancel(db, order, now, actor, action, reason); r.Ok? ==> Holds(db, r.value)
  {
    hide AllStamped, AllStay;
    StampedOne(db.orders, order.id);
    var r := Cancel(db, order, now, actor, action, reason);
    if r.Ok? {
      PutStamped(db.orders, r.value.orders[order.id]);
    }
  }

  lemma RefundStamps(db: Db, order: Order, now: Time, actor: string, action: AuditAction, reason: string)
    requires AllStamped(db.orders) && CopyOf(db, order)
    ensures var r := Refund(db, order, now, actor, action, reason); r.Ok? ==> Holds(db, r.value)
  {
    hide AllStamped, AllStay, Retained;
    StampedOne(db.orders, order.id);
    var r := Refund(db, order, now, actor, action, reason);
    if r.Ok? {
      PutStamped(db.orders, r.value.orders[order.id]);
    }
  }

  lemma IgnoredStamps(r: Result<Db>, db: Db, action: AuditAction, id: Id)
    requires AllStamped(db.orders) && (r.Ok? ==> Holds(db, r.value))
    ensures Holds(db, OrIgnored(r, db, action, id))
  {
    hide AllStamped, AllStay;
    SameStamped(db.orders);
  }

  lemma LoggedStamps(db: Db, action: AuditAction, id: Id)
    requires AllStamped(db.orders)
    ensures Holds(db, Audited(db, SYSTEM, action, id))
  {
    hide AllStamped, AllStay;
    SameStamped(db.orders);
  }

  lemma SettleStamps(db: Db, ev: Event, id: Id, now: Time, subID: Id)
    requires AllStamped(db.orders) && id in db.orders && db.orders[id].id == id
    ensures Holds(db, Settle(db, ev, db.orders[id], now, subID))
  {
    hide AllStamped, Holds, Activate, Fail, Cancel, Refund, KindOf, FailureReason, OrIgnored, Audited;
    var order := db.orders[id];
    match KindOf(ev.eventType)
    case Succeeded =>
      ActivateStamps(db, order, now, subID, SYSTEM, LogPaymentSucceeded);
      IgnoredStamps(Activate(db, order, now, subID, SYSTEM, LogPaymentSucceeded), db, LogSucceededIgnored, id);
    case CancelledEvent =>
      CancelStamps(db, order, now, SYSTEM, LogPaymentCancelled, ev.cancelReason);
      IgnoredStamps(Cancel(db, order, now, SYSTEM, LogPaymentCancelled, ev.cancelReason), db, LogCancelledIgnored, id);
    case RefundedEvent =>
      RefundStamps(db, order, now, SYSTEM, LogPaymentRefunded, ev.refundReason);
      IgnoredStamps(Refund(db, order, now, SYSTEM, LogPaymentRefunded, ev.refundReason), db, LogRefundedIgnored, id);
    case OtherEvent => LoggedStamps(db, LogWebhookIgnored, id);
    case _ =>
      FailStamps(db, order, now, SYSTEM, LogPaymentFailed, FailureReason(ev));
      IgnoredStamps(Fail(db, order, now, SYSTEM, LogPaymentFailed, FailureReason(ev)), db, LogFailedIgnored, id);
  }

  lemma WebhookStamps(db: Db, ev: Event, found: Option<Id>, now: Time, subID: Id)
    requires AllStamped(db.orders) && Found(db, ev, found) && KeyedBy(db.orders, OrderKey)
    ensures Holds(db, Webhook(db, ev, found, now, subID))
  {
    hide AllStamped, AllStay, Settle;
    SameStamped(db.orders);
    if ev.id !in db.webhooks {
      var marked := db.(webhooks := db.webhooks + {ev.id});
      if found.Some? {
        SettleStamps(marked, ev, found.value, now, subID);
      } else {
        LoggedStamps(marked, LogWebhookUnmatched, ev.id);
      }
    }
  }

  lemma AdminStamps(db: Db, orderID: Id, reason: string, now: Time, subID: Id)
    requires AllStamped(db.orders) && KeyedBy(db.orders, OrderKey)
    ensures Holds(db, Or(MarkPaid(db, orderID, reason, now, subID), db))
    ensures Holds(db, Or(AdminCancel(db, orderID, reason, now), db))
    ensures Holds(db, Or(AdminRefund(db, orderID, reason, now), db))
  {
    hide AllStamped, AllStay, Activate, Cancel, Refund, TrimSpace;
    SameStamped(db.orders);
    if orderID in db.orders {
      var order := db.orders[orderID].(operatorNote := TrimSpace(reason));
      ActivateStamps(db, order, now, subID, ADMIN, LogMarkPaid);
      CancelStamps(db, order, now, ADMIN, LogOrderCancel, TrimSpace(reason));
      RefundStamps(db, order, now, ADMIN, LogOrderRefund, TrimSpace(reason));
    }
  }

  lemma CheckoutStamps(db: Db, orderID: Id, userID: Id, slug: string, cycle: string)
    requires AllStamped(db.orders) && orderID !in db.orders
    ensures Holds(db, Or(Checkout(db, orderID, userID, slug, cycle), db))
  {
    hide AllStamped, AllStay, FindPlan, TrimSpace;
    SameStamped(db.orders);
    var r := Checkout(db, orderID, userID, slug, cycle);
    if r.Ok? {
      PutStamped(db.orders, r.value.orders[orderID]);
    }
  }

  lemma AttachStamps(db: Db, orderID: Id, paymentID: string)
    requires AllStamped(db.orders) && orderID in db.orders && db.orders[orderID].id == orderID
    ensures Holds(db, AttachPayment(db, orderID, paymentID))
  {
    hide AllStamped, AllStay;
    StampedOne(db.orders, orderID);
    PutStamped(db.orders, AttachPayment(db, orderID, paymentID).orders[orderID]);
  }

  /** A refusal stamps its failure anew; on a settled order the stamps then lie about the status. */
  lemma RefusalStamps(db: Db, orderID: Id, message: string, now: Time)
    requires AllStamped(db.orders) && orderID in db.orders && db.orders[orderID].id == orderID
    ensures AllStamped(RefusePayment(db, orderID, message, now).orders)
            <==> db.orders[orderID].status == Pending || db.orders[orderID].status == Failed
  {
    StampedOne(db.orders, orderID);
    var next := RefusePayment(db, orderID, message, now);
    assert Stamped(next.orders[orderID]) <==> db.orders[orderID].status == Pending || db.orders[orderID].status == Failed;
  }

  lemma QuietStamps(db: Db, s: Step)
    requires Legal(db, s) && OrderRecords !in Writes(s.action)
    ensures Next(db, s).orders == db.orders
  {
    hide Next, Legal, Writes;
    NextKeeps(db, s, OrderRecords);
  }

  lemma StampsEffect(db: Db, s: Step)
    requires AllStamped(db.orders) && KeyedBy(db.orders, OrderKey) && Legal(db, s) && OrderRecords in Writes(s.action)
    requires !s.action.DoRefusePayment?
    ensures Holds(db, Effect(db, s))
  {
    hide AllStamped, Holds, Found, Checkout, Webhook, MarkPaid, AdminCancel, AdminRefund, Or;
    match s.action
    case DoCheckout(orderID, userID, slug, cycle) => CheckoutStamps(db, orderID, userID, slug, cycle);
    case DoAttachPayment(orderID, paymentID) => AttachStamps(db, orderID, paymentID);
    case DoWebhook(ev, found, subID) => WebhookStamps(db, ev, found, s.now, subID);
    case DoMarkPaid(orderID, reason, subID) => AdminStamps(db, orderID, reason, s.now, subID);
    case DoCancel(orderID, reason) => AdminStamps(db, orderID, reason, s.now, "");
    case DoRefund(orderID, reason) => AdminStamps(db, orderID, reason, s.now, "");
  }

  lemma OrdersFiled(db: Db)
    requires Sound(db)
    ensures KeyedBy(db.orders, OrderKey)
  {
  }

  lemma RefusalStampsNext(db: Db, s: Step)
    requires Sound(db) && AllStamped(db.orders) && Legal(db, s) && Orderly(db, s) && s.action.DoRefusePayment?
    ensures AllStamped(Next(db, s).orders)
  {
    OrderUnderId(db, s.action.orderID);
    hide Sound, AllStamped;
    RefusalStamps(db, s.action.orderID, s.action.message, s.now);
  }

  /** Stamps that are set stay, but for a payment, which forgets a failure, and a refusal. */
  lemma StampsNext(db: Db, s: Step)
    requires Sound(db) && AllStamped(db.orders) && Legal(db, s) && Orderly(db, s)
    ensures AllStamped(Next(db, s).orders)
    ensures !s.action.DoRefusePayment? ==> AllStay(db.orders, Next(db, s).orders)
  {
    hide Sound, AllStamped, AllStay, Effect, Legal, Writes, KeyedBy;
    SameStamped(db.orders);
    OrdersFiled(db);
    if s.action.DoRefusePayment? {
      RefusalStampsNext(db, s);
    } else if OrderRecords in Writes(s.action) {
      StampsEffect(db, s);
    } else {
      QuietStamps(db, s);
    }
  }

  /** In every state reached without a late refusal the stamps of each order tell its status. */
  lemma {:induction false} StampsRun(db: Db, clock: Time, steps: seq<Step>)
    requires Sound(db) && AllStamped(db.orders) && LegalRun(db, clock, steps) && OrderlyRun(db, clock, steps)
    ensures AllStamped(Run(db, clock, steps).orders)
    decreases |steps|
  {
    hide Sound, AllStamped, AllStay, Next, Legal, Orderly;
    if steps != [] {
      StampsNext(db, steps[0]);
      SoundNext(db, steps[0]);
      StampsRun(Next(db, steps[0]), steps[0].now, steps[1..]);
    }
  }

  // ---------------------------------------------------------------- plans of users and subscriptions

  /** The plan a user record shows is that of the user's subscription, or none. */
  predicate Agrees(users: map<Id, User>, subs: map<Id, Subscription>, u: Id) {
    u in users && u in subs ==> users[u].planSlug == "" || users[u].planSlug == subs[u].planSlug
  }

  ghost predicate PlansAgree(db: Db) {
    forall u :: Agrees(db.users, db.subs, u)
  }

  /** Both records of one user are written together. */
  lemma PutBoth(db: Db, next: Db, user: User, sub: Subscription)
    requires PlansAgree(db) && user.id == sub.userID && (user.planSlug == "" || user.planSlug == sub.planSlug)
    requires next.users == db.users[user.id := user] && next.subs == db.subs[sub.userID := sub]
    ensures PlansAgree(next)
  {
    forall u ensures Agrees(next.users, next.subs, u) {
      assert Agrees(db.users, db.subs, u);
    }
  }

  /** Only the user record is written, the plan kept or cleared. */
  lemma PutUserPlan(db: Db, next: Db, u: Id, user: User)
    requires PlansAgree(db) && u in db.users && (user.planSlug == "" || user.planSlug == db.users[u].planSlug)
    requires next.users == db.users[u := user] && next.subs == db.subs
    ensures PlansAgree(next)
  {
    forall v ensures Agrees(next.users, next.subs, v) {
      assert Agrees(db.users, db.subs, v);
    }
  }

  lemma SamePlans(db: Db, next: Db)
    requires PlansAgree(db) && next.users == db.users && next.subs == db.subs
    ensures PlansAgree(next)
  {
    forall u ensures Agrees(next.users, next.subs, u) {
      assert Agrees(db.users, db.subs, u);
    }
  }

  lemma AccountPlans(db: Db, next: Db, user: User, subID: Id, now: Time)
    requires PlansAgree(db) && user.planSlug == "go"
    requires next.users == NewAccount(db, user, subID, now).users && next.subs == NewAccount(db, user, subID, now).subs
    ensures PlansAgree(next)
  {
    hide PlansAgree;
    PutBoth(db, next, user, NewSubscription(subID, user.id, "go", now, 30 * DAY));
  }

  lemma RegisterPlans(db: Db, userID: Id, rawEmail: string, nickname: string, subID: Id, now: Time)
    requires PlansAgree(db)
    ensures PlansAgree(Or(Register(db, userID, rawEmail, nickname, subID, now), db))
  {
    hide PlansAgree, EmailTaken, Normalize, TrimSpace, NewAccount;
    var r := Register(db, userID, rawEmail, nickname, subID, now);
    if r.Ok? {
      var name := if TrimSpace(nickname) == "" then "user" else nickname;
      AccountPlans(db, r.value, User(userID, Normalize(rawEmail), name, false, false, "go", false, now), subID, now);
    }
  }

  lemma OAuthLoginPlans(db: Db, found: Option<Id>, userID: Id, rawEmail: string, nickname: string, verified: bool, subID: Id, now: Time)
    requires PlansAgree(db) && (found.Some? ==> found.value in db.users)
    ensures PlansAgree(OAuthLogin(db, found, userID, rawEmail, nickname, verified, subID, now))
  {
    hide PlansAgree, Normalize, TrimSpace, NewAccount;
    var next := OAuthLogin(db, found, userID, rawEmail, nickname, verified, subID, now);
    if found.None? {
      AccountPlans(db, next, User(userID, Normalize(rawEmail), nickname, verified, true, "go", false, now), subID, now);
    } else {
      PutUserPlan(db, next, found.value, next.users[found.value]);
    }
  }

  lemma UserEdits(db: Db, userID: Id, nickname: string)
    requires PlansAgree(db) && KeyedBy(db.users, UserKey)
    ensures PlansAgree(Or(VerifyEmail(db, userID), db))
    ensures PlansAgree(Or(UpdateProfile(db, userID, nickname), db))
  {
    hide PlansAgree, TrimSpace;
    if userID in db.users {
      var verified := VerifyEmail(db, userID).value;
      PutUserPlan(db, verified, userID, verified.users[userID]);
      var edited := UpdateProfile(db, userID, nickname);
      if edited.Ok? {
        PutUserPlan(db, edited.value, userID, edited.value.users[userID]);
      }
    }
  }

  lemma StatusKeepsPlans(db: Db, userID: Id, banned: bool)
    requires PlansAgree(db) && KeyedBy(db.users, UserKey)
    ensures PlansAgree(Or(SetUserStatus(db, userID, banned), db))
  {
    hide PlansAgree, RevokeAll;
    if userID in db.users {
      var marked := SetUserStatus(db, userID, banned).value;
      PutUserPlan(db, marked, userID, marked.users[userID]);
    }
  }

  lemma GrantPlans(db: Db, found: Option<Id>, slug: string, days: int, reason: string, subID: Id, now: Time)
    requires PlansAgree(db) && (found.Some? ==> found.value in db.users)
    ensures PlansAgree(Or(GrantPlan(db, found, slug, days, reason, subID, now), db))
  {
    hide PlansAgree, FindPlan, TrimSpace, DaysDuration;
    var r := GrantPlan(db, found, slug, days, reason, subID, now);
    if r.Ok? {
      var user := db.users[found.value];
      var plan := FindPlan(db.plans, slug).value;
      PutBoth(db, r.value, user.(planSlug := plan.slug), NewSubscription(subID, user.id, plan.slug, now, DaysDuration(days)));
    }
  }

  lemma RedeemPlans(db: Db, code: string, userID: Id, ip: string, device: string, isNew: bool, redemptionID: Id, subID: Id, now: Time)
    requires PlansAgree(db)
    ensures PlansAgree(Or(RedeemInvite(db, code, userID, ip, device, isNew, redemptionID, subID, now), db))
  {
    hide PlansAgree, ValidateRedeem, UsageOfCode, DaysDuration, Lower;
    var r := RedeemInvite(db, code, userID, ip, device, isNew, redemptionID, subID, now);
    if r.Ok? {
      var user := db.users[userID];
      var c := db.invites[code];
      PutBoth(db, r.value, user.(planSlug := c.planSlug), NewSubscription(subID, user.id, c.planSlug, now, DaysDuration(c.grantDays)));
    }
  }

  lemma ExpirePlans(db: Db, userID: Id, reason: string, days: int, deleteNow: bool, now: Time)
    requires PlansAgree(db) && KeyedBy(db.users, UserKey) && KeyedBy(db.subs, SubKey)
    ensures PlansAgree(Or(ExpireSubscription(db, userID, reason, days, deleteNow, now), db))
  {
    hide PlansAgree, TrimSpace;
    var r := ExpireSubscription(db, userID, reason, days, deleteNow, now);
    if r.Ok? {
      PutBoth(db, r.value, r.value.users[userID], r.value.subs[userID]);
    }
  }

  lemma ActivatePlans(db: Db, order: Order, now: Time, subID: Id, actor: string, action: AuditAction)
    requires PlansAgree(db)
    ensures var r := Activate(db, order, now, subID, actor, action); r.Ok? ==> PlansAgree(r.value)
  {
    hide PlansAgree, BillingDuration;
    var r := Activate(db, order, now, subID, actor, action);
    if r.Ok? {
      var user := db.users[order.userID];
      if order.status != Paid || user.id !in db.subs {
        PutBoth(db, r.value, user.(planSlug := order.planSlug),
                NewSubscription(subID, user.id, order.planSlug, now, BillingDuration(order.billingCycle)));
      } else {
        SamePlans(db, r.value);
      }
    }
  }

  lemma RefundPlans(db: Db, order: Order, now: Time, actor: string, action: AuditAction, reason: string)
    requires PlansAgree(db) && KeyedBy(db.users, UserKey) && KeyedBy(db.subs, SubKey) && Populated(db)
    ensures var r := Refund(db, order, now, actor, action, reason); r.Ok? ==> PlansAgree(r.value)
  {
    hide PlansAgree;
    var r := Refund(db, order, now, actor, action, reason);
    if r.Ok? {
      if RefundMatches(db, order) {
        PutBoth(db, r.value, r.value.users[order.userID], r.value.subs[order.userID]);
      } else {
        SamePlans(db, r.value);
      }
    }
  }

  lemma OtherPlans(db: Db, order: Order, now: Time, actor: string, action: AuditAction, reason: string)
    requires PlansAgree(db)
    ensures var r := Fail(db, order, now, actor, action, reason); r.Ok? ==> PlansAgree(r.value)
    ensures var r := Cancel(db, order, now, actor, action, reason); r.Ok? ==> PlansAgree(r.value)
  {
    hide PlansAgree, Fail, Cancel;
    var f, c := Fail(db, order, now, actor, action, reason), Cancel(db, order, now, actor, action, reason);
    FailWithin(db, order, now, actor, action, reason);
    CancelWithin(db, order, now, actor, action, reason);
    if f.Ok? {
      assert SamePart(db, f.value, Users) && SamePart(db, f.value, Subs);
      SamePlans(db, f.value);
    }
    if c.Ok? {
      assert SamePart(db, c.value, Users) && SamePart(db, c.value, Subs);
      SamePlans(db, c.value);
    }
  }

  lemma IgnoredPlans(r: Result<Db>, db: Db, action: AuditAction, id: Id)
    requires PlansAgree(db) && (r.Ok? ==> PlansAgree(r.value))
    ensures PlansAgree(OrIgnored(r, db, action, id)) && PlansAgree(Audited(db, SYSTEM, action, id))
  {
    hide PlansAgree;
    SamePlans(db, Audited(db, SYSTEM, action, id));
  }

  ghost predicate Ready(db: Db) {
    PlansAgree(db) && KeyedBy(db.users, UserKey) && KeyedBy(db.subs, SubKey) && Populated(db)
  }

  lemma SettlePlans(db: Db, ev: Event, order: Order, now: Time, subID: Id)
    requires Ready(db)
    ensures PlansAgree(Settle(db, ev, order, now, subID))
  {
    hide PlansAgree, Activate, Fail, Cancel, Refund, KindOf, FailureReason, OrIgnored, Audited, KeyedBy, Populated;
    match KindOf(ev.eventType)
    case Succeeded =>
      ActivatePlans(db, order, now, subID, SYSTEM, LogPaymentSucceeded);
      IgnoredPlans(Activate(db, order, now, subID, SYSTEM, LogPaymentSucceeded), db, LogSucceededIgnored, order.id);
    case CancelledEvent =>
      OtherPlans(db, order, now, SYSTEM, LogPaymentCancelled, ev.cancelReason);
      IgnoredPlans(Cancel(db, order, now, SYSTEM, LogPaymentCancelled, ev.cancelReason), db, LogCancelledIgnored, order.id);
    case RefundedEvent =>
      RefundPlans(db, order, now, SYSTEM, LogPaymentRefunded, ev.refundReason);
      IgnoredPlans(Refund(db, order, now, SYSTEM, LogPaymentRefunded, ev.refundReason), db, LogRefundedIgnored, order.id);
    case OtherEvent => IgnoredPlans(Ok(db), db, LogWebhookIgnored, order.id);
    case _ =>
      OtherPlans(db, order, now, SYSTEM, LogPaymentFailed, FailureReason(ev));
      IgnoredPlans(Fail(db, order, now, SYSTEM, LogPaymentFailed, FailureReason(ev)), db, LogFailedIgnored, order.id);
  }

  lemma WebhookPlans(db: Db, ev: Event, found: Option<Id>, now: Time, subID: Id)
    requires Ready(db) && (found.Some? ==> found.value in db.orders)
    ensures PlansAgree(Webhook(db, ev, found, now, subID))
  {
    hide PlansAgree, KeyedBy, Settle;
    if ev.id !in db.webhooks {
      var marked := db.(webhooks := db.webhooks + {ev.id});
      SamePlans(db, marked);
      if found.Some? {
        SettlePlans(marked, ev, db.orders[found.value], now, subID);
      } else {
        IgnoredPlans(Ok(marked), marked, LogWebhookUnmatched, ev.id);
      }
    }
  }

  lemma AdminPlans(db: Db, orderID: Id, reason: string, now: Time, subID: Id)
    requires Ready(db)
    ensures PlansAgree(Or(MarkPaid(db, orderID, reason, now, subID), db))
    ensures PlansAgree(Or(AdminRefund(db, orderID, reason, now), db))
  {
    hide PlansAgree, KeyedBy, Populated, Activate, Refund, TrimSpace;
    if orderID in db.orders {
      var order := db.orders[orderID].(operatorNote := TrimSpace(reason));
      ActivatePlans(db, order, now, subID, ADMIN, LogMarkPaid);
      RefundPlans(db, order, now, ADMIN, LogOrderRefund, TrimSpace(reason));
    }
  }

  lemma PurgePlans(db: Db, now: Time, order: seq<Id>)
    requires PlansAgree(db)
    ensures PlansAgree(Purge(db, now, order))
  {
    hide DropImages, ClearUsage, Doomed;
    var next := Purge(db, now, order);
    forall u ensures Agrees(next.users, next.subs, u) {
      assert Agrees(db.users, db.subs, u);
    }
  }

  lemma QuietPlans(db: Db, s: Step)
    requires PlansAgree(db) && Legal(db, s) && Users !in Writes(s.action) && Subs !in Writes(s.action)
    ensures PlansAgree(Effect(db, s))
  {
    hide Effect, Legal, Writes, PlansAgree;
    EffectWithin(db, s);
    assert SamePart(db, Effect(db, s), Users) && SamePart(db, Effect(db, s), Subs);
    SamePlans(db, Effect(db, s));
  }

  lemma PlansEffect(db: Db, s: Step)
    requires Ready(db) && Legal(db, s)
    ensures PlansAgree(Effect(db, s))
  {
    hide PlansAgree, KeyedBy, Populated, Register, OAuthLogin, VerifyEmail, UpdateProfile, SetUserStatus, GrantPlan, ExpireSubscription,
      RedeemInvite, Webhook, MarkPaid, AdminRefund, Purge, Or, EmailTaken, Enumerates;
    match s.action
    case DoRegister(userID, rawEmail, nickname, subID) => RegisterPlans(db, userID, rawEmail, nickname, subID, s.now);
    case DoOAuthLogin(found, userID, rawEmail, nickname, verified, subID) =>
      OAuthLoginPlans(db, found, userID, rawEmail, nickname, verified, subID, s.now);
    case DoVerifyEmail(userID) => UserEdits(db, userID, "");
    case DoUpdateProfile(userID, nickname) => UserEdits(db, userID, nickname);
    case DoSetUserStatus(userID, banned) => StatusKeepsPlans(db, userID, banned);
    case DoGrantPlan(found, _, slug, days, reason, subID) => GrantPlans(db, found, slug, days, reason, subID, s.now);
    case DoExpire(userID, reason, days, deleteNow) => ExpirePlans(db, userID, reason, days, deleteNow, s.now);
    case DoRedeem(code, userID, ip, device, isNew, redemptionID, subID) =>
      RedeemPlans(db, code, userID, ip, device, isNew, redemptionID, subID, s.now);
    case DoWebhook(ev, found, subID) => WebhookPlans(db, ev, found, s.now, subID);
    case DoMarkPaid(orderID, reason, subID) => AdminPlans(db, orderID, reason, s.now, subID);
    case DoRefund(orderID, reason) => AdminPlans(db, orderID, reason, s.now, "");
    case DoPurge(order) => PurgePlans(db, s.now, order);
    case _ => QuietPlans(db, s);
  }

  lemma SoundReady(db: Db)
    requires Sound(db) && PlansAgree(db)
    ensures Ready(db)
  {
  }

  /** In every reachable state the plan a user record shows is that of the subscription, or none after a refund,
      an expiry or a purge. */
  lemma {:induction false} PlansRun(db: Db, clock: Time, steps: seq<Step>)
    requires Sound(db) && PlansAgree(db) && LegalRun(db, clock, steps)
    ensures PlansAgree(Run(db, clock, steps))
    decreases |steps|
  {
    hide Sound, PlansAgree, Ready, Effect, Legal;
    if steps != [] {
      SoundReady(db);
      PlansEffect(db, steps[0]);
      SoundNext(db, steps[0]);
      PlansRun(Next(db, steps[0]), steps[0].now, steps[1..]);
    }
  }
}
