/** Order status, grants and money over whole runs. */
module Billing {
  import opened Text
  import opened Domain
  import opened Db
  import opened Sums
  import opened Orders
  import opened Handlers
  import opened Actions
  import opened Soundness

  // ---------------------------------------------------------------- what a step may do to an order

  /** The status moves an order may make in one step. */
  predicate MayStep(s: OrderStatus, t: OrderStatus) {
    s == t
    || match s
       case Pending => t == Failed || t == Paid || t == Cancelled
       case Failed => t == Paid || t == Cancelled
       case Paid => t == Refunded
       case Cancelled => false
       case Refunded => false
  }

  /** The moves over a run: forward from pending over failed to paid and refunded, or aside to cancelled;
      cancelled and refunded are final. */
  predicate MayFollow(s: OrderStatus, t: OrderStatus) {
    s == t
    || match s
       case Pending => true
       case Failed => t == Paid || t == Cancelled || t == Refunded
       case Paid => t == Refunded
       case Cancelled => false
       case Refunded => false
  }

  /** What checkout fixes for good. */
  predicate SameTerms(a: Order, b: Order) {
    a.id == b.id && a.userID == b.userID && a.planSlug == b.planSlug && a.billingCycle == b.billingCycle
    && a.amountCent == b.amountCent
  }

  predicate IsRefund(a: AuditLog) {
    a.action == LogPaymentRefunded || a.action == LogOrderRefund
  }

  ghost predicate Quiet(log: seq<AuditLog>) {
    forall a <- log :: !a.activated && !IsRefund(a)
  }

  predicate Extends(log: seq<AuditLog>, longer: seq<AuditLog>) {
    |log| <= |longer| && longer[..|log|] == log
  }

  function Tail(log: seq<AuditLog>, longer: seq<AuditLog>): seq<AuditLog>
    requires |log| <= |longer|
  {
    longer[|log|..]
  }

  ghost predicate QuietStep(db: Db, next: Db) {
    next.orders == db.orders && Extends(db.auditLogs, next.auditLogs) && Quiet(Tail(db.auditLogs, next.auditLogs))
  }

  /** The log entries of one order move: one grant on entering paid, one refund on leaving it. */
  ghost predicate Entries(log: seq<AuditLog>, id: Id, from: OrderStatus, to: OrderStatus) {
    if from != Paid && to == Paid then
      |log| == 1 && log[0].activated && log[0].target == id && !IsRefund(log[0])
    else if from == Paid && to == Refunded then
      |log| == 1 && !log[0].activated && log[0].target == id && IsRefund(log[0])
    else Quiet(log)
  }

  ghost predicate OrderStep(db: Db, next: Db, id: Id) {
    && id in next.orders && next.orders == db.orders[id := next.orders[id]]
    && Extends(db.auditLogs, next.auditLogs)
    && if id in db.orders then
         && SameTerms(db.orders[id], next.orders[id]) && MayStep(db.orders[id].status, next.orders[id].status)
         && Entries(Tail(db.auditLogs, next.auditLogs), id, db.orders[id].status, next.orders[id].status)
       else
         && next.orders[id].status == Pending
         && Quiet(Tail(db.auditLogs, next.auditLogs))
  }

  ghost predicate Shape(db: Db, next: Db, touched: Option<Id>) {
    QuietStep(db, next) || (touched.Some? && OrderStep(db, next, touched.value))
  }

  function Touched(s: Step): Option<Id> {
    match s.action
    case DoCheckout(orderID, _, _, _) => Some(orderID)
    case DoAttachPayment(orderID, _) => Some(orderID)
    case DoRefusePayment(orderID, _) => Some(orderID)
    case DoWebhook(_, found, _) => found
    case DoMarkPaid(orderID, _, _) => Some(orderID)
    case DoCancel(orderID, _) => Some(orderID)
    case DoRefund(orderID, _) => Some(orderID)
    case _ => None
  }

  lemma AuditedQuiet(db: Db, actor: string, action: AuditAction, target: Id)
    requires action != LogPaymentRefunded && action != LogOrderRefund
    ensures QuietStep(db, Audited(db, actor, action, target))
  {
    assert Tail(db.auditLogs, Audited(db, actor, action, target).auditLogs) == [AuditLog(actor, action, target, false)];
  }

  /** Activation grants exactly on entering paid, and then starts a new subscription; on a paid order it
      changes neither the user nor the subscription. */
  lemma ActivateStep(db: Db, order: Order, now: Time, subID: Id, actor: string, action: AuditAction)
    requires Sound(db) && order.id in db.orders
    requires SameTerms(db.orders[order.id], order) && db.orders[order.id].status == order.status
    requires action == LogPaymentSucceeded || action == LogMarkPaid
    ensures var r := Activate(db, order, now, subID, actor, action);
      r.Ok? ==>
        && OrderStep(db, r.value, order.id)
        && r.value.orders[order.id].status == Paid
        && (order.status == Paid ==> r.value.users == db.users && r.value.subs == db.subs)
        && (order.status != Paid ==>
              r.value.subs == db.subs[order.userID := NewSubscription(subID, order.userID, order.planSlug, now, BillingDuration(order.billingCycle))])
  {
    hide Sound, Quiet, NewSubscription, BillingDuration;
    var r := Activate(db, order, now, subID, actor, action);
    if r.Ok? {
      UserFiled(db, order.userID);
      var entry := AuditLog(actor, action, order.id, order.status != Paid);
      assert Tail(db.auditLogs, r.value.auditLogs) == [entry];
      if order.status == Paid {
        QuietOne(entry);
      }
    }
  }

  lemma QuietOne(a: AuditLog)
    requires !a.activated && !IsRefund(a)
    ensures Quiet([a])
  {
  }

  lemma FailStep(db: Db, order: Order, now: Time, actor: string, reason: string)
    requires order.id in db.orders
    requires SameTerms(db.orders[order.id], order) && db.orders[order.id].status == order.status
    ensures var r := Fail(db, order, now, actor, LogPaymentFailed, reason); r.Ok? ==> OrderStep(db, r.value, order.id)
  {
    hide Quiet;
    var r := Fail(db, order, now, actor, LogPaymentFailed, reason);
    if r.Ok? {
      var entry := AuditLog(actor, LogPaymentFailed, order.id, false);
      assert Tail(db.auditLogs, r.value.auditLogs) == [entry];
      QuietOne(entry);
    }
  }

  lemma CancelStep(db: Db, order: Order, now: Time, actor: string, action: AuditAction, reason: string)
    requires order.id in db.orders
    requires SameTerms(db.orders[order.id], order) && db.orders[order.id].status == order.status
    requires action == LogPaymentCancelled || action == LogOrderCancel
    ensures var r := Cancel(db, order, now, actor, action, reason); r.Ok? ==> OrderStep(db, r.value, order.id)
  {
    hide Quiet;
    var r := Cancel(db, order, now, actor, action, reason);
    if r.Ok? {
      var entry := AuditLog(actor, action, order.id, false);
      assert Tail(db.auditLogs, r.value.auditLogs) == [entry];
      QuietOne(entry);
    }
  }

  lemma RefundStep(db: Db, order: Order, now: Time, actor: string, action: AuditAction, reason: string)
    requires order.id in db.orders
    requires SameTerms(db.orders[order.id], order) && db.orders[order.id].status == order.status
    requires action == LogPaymentRefunded || action == LogOrderRefund
    ensures var r := Refund(db, order, now, actor, action, reason); r.Ok? ==> OrderStep(db, r.value, order.id)
  {
    hide Quiet, Retained;
    var r := Refund(db, order, now, actor, action, reason);
    if r.Ok? {
      assert Tail(db.auditLogs, r.value.auditLogs) == [AuditLog(actor, action, order.id, false)];
    }
  }

  lemma OrIgnoredStep(r: Result<Db>, db: Db, action: AuditAction, id: Id)
    requires r.Ok? ==> OrderStep(db, r.value, id)
    requires action != LogPaymentRefunded && action != LogOrderRefund
    ensures Shape(db, OrIgnored(r, db, action, id), Some(id))
  {
    hide OrderStep, QuietStep;
    AuditedQuiet(db, SYSTEM, action, id);
  }

  lemma SettleStep(db: Db, ev: Event, id: Id, now: Time, subID: Id)
    requires Sound(db) && id in db.orders && db.orders[id].id == id
    ensures Shape(db, Settle(db, ev, db.orders[id], now, subID), Some(id))
  {
    hide Sound, OrderStep, Activate, Fail, Cancel, Refund, KindOf, FailureReason, QuietStep, OrIgnored;
    var order := db.orders[id];
    match KindOf(ev.eventType)
    case Succeeded =>
      ActivateStep(db, order, now, subID, SYSTEM, LogPaymentSucceeded);
      OrIgnoredStep(Activate(db, order, now, subID, SYSTEM, LogPaymentSucceeded), db, LogSucceededIgnored, id);
    case FailedEvent =>
      FailStep(db, order, now, SYSTEM, FailureReason(ev));
      OrIgnoredStep(Fail(db, order, now, SYSTEM, LogPaymentFailed, FailureReason(ev)), db, LogFailedIgnored, id);
    case ExpiredEvent =>
      FailStep(db, order, now, SYSTEM, FailureReason(ev));
      OrIgnoredStep(Fail(db, order, now, SYSTEM, LogPaymentFailed, FailureReason(ev)), db, LogFailedIgnored, id);
    case CancelledEvent =>
      CancelStep(db, order, now, SYSTEM, LogPaymentCancelled, ev.cancelReason);
      OrIgnoredStep(Cancel(db, order, now, SYSTEM, LogPaymentCancelled, ev.cancelReason), db, LogCancelledIgnored, id);
    case RefundedEvent =>
      RefundStep(db, order, now, SYSTEM, LogPaymentRefunded, ev.refundReason);
      OrIgnoredStep(Refund(db, order, now, SYSTEM, LogPaymentRefunded, ev.refundReason), db, LogRefundedIgnored, id);
    case OtherEvent =>
      AuditedQuiet(db, SYSTEM, LogWebhookIgnored, id);
  }

  lemma OrderFiled(db: Db, id: Id)
    requires Sound(db) && id in db.orders
    ensures db.orders[id].id == id
  {
  }

  lemma WebhookStep(db: Db, ev: Event, found: Option<Id>, now: Time, subID: Id)
    requires Sound(db) && Found(db, ev, found)
    ensures Shape(db, Webhook(db, ev, found, now, subID), found)
  {
    hide Sound, Settle, OrderStep;
    if ev.id !in db.webhooks {
      var marked := db.(webhooks := db.webhooks + {ev.id});
      PutLogs(db, db.plans, db.redemptions, marked.webhooks, db.riskEvents, db.auditLogs);
      if found.Some? {
        OrderFiled(marked, found.value);
        SettleStep(marked, ev, found.value, now, subID);
        ShapeOfMarked(db, marked, Webhook(db, ev, found, now, subID), found);
      } else {
        AuditedQuiet(marked, SYSTEM, LogWebhookUnmatched, ev.id);
      }
    }
  }

  lemma ShapeOfMarked(db: Db, marked: Db, next: Db, touched: Option<Id>)
    requires marked.orders == db.orders && marked.auditLogs == db.auditLogs && Shape(marked, next, touched)
    ensures Shape(db, next, touched)
  {
  }

  lemma MarkPaidStep(db: Db, orderID: Id, reason: string, now: Time, subID: Id)
    requires Sound(db)
    ensures Shape(db, Or(MarkPaid(db, orderID, reason, now, subID), db), Some(orderID))
  {
    hide Sound, Activate, OrderStep;
    if orderID in db.orders {
      OrderFiled(db, orderID);
      ActivateStep(db, db.orders[orderID].(operatorNote := TrimSpace(reason)), now, subID, ADMIN, LogMarkPaid);
    }
  }

  lemma AdminCancelStep(db: Db, orderID: Id, reason: string, now: Time)
    requires Sound(db)
    ensures Shape(db, Or(AdminCancel(db, orderID, reason, now), db), Some(orderID))
  {
    hide Sound, Cancel, OrderStep;
    if orderID in db.orders {
      OrderFiled(db, orderID);
      CancelStep(db, db.orders[orderID].(operatorNote := TrimSpace(reason)), now, ADMIN, LogOrderCancel, TrimSpace(reason));
    }
  }

  lemma AdminRefundStep(db: Db, orderID: Id, reason: string, now: Time)
    requires Sound(db)
    ensures Shape(db, Or(AdminRefund(db, orderID, reason, now), db), Some(orderID))
  {
    hide Sound, Refund, OrderStep;
    if orderID in db.orders {
      OrderFiled(db, orderID);
      RefundStep(db, db.orders[orderID].(operatorNote := TrimSpace(reason)), now, ADMIN, LogOrderRefund, TrimSpace(reason));
    }
  }

  lemma CheckoutStep(db: Db, orderID: Id, userID: Id, slug: string, cycle: string)
    requires orderID !in db.orders
    ensures Shape(db, Or(Checkout(db, orderID, userID, slug, cycle), db), Some(orderID))
  {
    hide FindPlan, Quiet, TrimSpace, QuietStep;
    var next := Or(Checkout(db, orderID, userID, slug, cycle), db);
    if next == db {
      QuietEqual(db, next);
    } else {
      var entry := AuditLog(SYSTEM, LogCheckoutCreated, orderID, false);
      assert Tail(db.auditLogs, next.auditLogs) == [entry];
      QuietOne(entry);
    }
  }

  lemma AttachStep(db: Db, orderID: Id, paymentID: string)
    requires orderID in db.orders
    ensures OrderStep(db, AttachPayment(db, orderID, paymentID), orderID)
  {
    hide Quiet;
    var entry := AuditLog(SYSTEM, LogPaymentCreated, orderID, false);
    assert Tail(db.auditLogs, AttachPayment(db, orderID, paymentID).auditLogs) == [entry];
    QuietOne(entry);
  }

  lemma RefuseStep(db: Db, orderID: Id, message: string, now: Time)
    requires Sound(db) && orderID in db.orders
    requires db.orders[orderID].status == Pending || db.orders[orderID].status == Failed
    ensures OrderStep(db, RefusePayment(db, orderID, message, now), orderID)
  {
    OrderFiled(db, orderID);
    hide Quiet, Sound;
    var entry := AuditLog(SYSTEM, LogCheckoutFailed, orderID, false);
    assert Tail(db.auditLogs, RefusePayment(db, orderID, message, now).auditLogs) == [entry];
    QuietOne(entry);
  }

  /** The handlers of other concerns leave the orders alone and log neither grants nor refunds. */
  lemma QuietEntries(db: Db, next: Db, entries: seq<AuditLog>)
    requires next.orders == db.orders && next.auditLogs == db.auditLogs + entries && Quiet(entries)
    ensures QuietStep(db, next)
  {
    assert Tail(db.auditLogs, next.auditLogs) == entries;
  }

  lemma QuietEqual(db: Db, next: Db)
    requires next.orders == db.orders && next.auditLogs == db.auditLogs
    ensures QuietStep(db, next)
  {
    assert Tail(db.auditLogs, next.auditLogs) == [];
  }

  lemma QuietLast(db: Db, next: Db)
    requires next.orders == db.orders && |next.auditLogs| > 0
    requires next.auditLogs == db.auditLogs + [next.auditLogs[|next.auditLogs| - 1]]
    requires var last := next.auditLogs[|next.auditLogs| - 1]; !last.activated && !IsRefund(last)
    ensures QuietStep(db, next)
  {
    QuietEntries(db, next, [next.auditLogs[|next.auditLogs| - 1]]);
  }

  lemma QuietTransitive(a: Db, b: Db, c: Db)
    requires QuietStep(a, b) && QuietStep(b, c)
    ensures QuietStep(a, c)
  {
    var x, y := Tail(a.auditLogs, b.auditLogs), Tail(b.auditLogs, c.auditLogs);
    assert b.auditLogs == a.auditLogs + x;
    assert c.auditLogs == b.auditLogs + y;
    assert Tail(a.auditLogs, c.auditLogs) == x + y;
  }

  lemma {:induction false} ImportQuiet(db: Db, userID: Id, images: seq<Image>)
    ensures QuietStep(db, ImportImages(db, userID, images))
    decreases |images|
  {
    hide QuietStep;
    if images == [] {
      QuietEqual(db, db);
    } else {
      var next := ImportOne(db, userID, images[0]);
      QuietLast(db, next);
      ImportQuiet(next, userID, images[1..]);
      QuietTransitive(db, next, ImportImages(db, userID, images));
    }
  }

  lemma ProcessQuiet(db: Db, publicID: Id, p: Processed, blockedHashes: seq<string>)
    ensures QuietStep(db, Or(Process(db, publicID, p, blockedHashes), db))
  {
    hide QuietStep, Refreshed, VariantBytes, Adjusted;
    QuietEqual(db, db);
    if publicID in db.images && db.images[publicID].status == ImageActive {
      var current := db.images[publicID];
      var image := Refreshed(db, current, p, blockedHashes);
      var usage := Adjusted(UsageOf(db, current.userID), VariantBytes(current.variants), VariantBytes(image.variants));
      FiledQuiet(db, image, usage);
    }
  }

  lemma FiledQuiet(db: Db, image: Image, usage: Usage)
    ensures QuietStep(db, FileProcessed(db, image, usage))
  {
    hide QuietStep;
    var first := AuditLog("worker", LogImageProcess, image.publicID, false);
    var entries := if image.status == ImageFrozen then [first, AuditLog("worker", LogModerationFreeze, image.publicID, false)] else [first];
    assert FileProcessed(db, image, usage).auditLogs == db.auditLogs + entries;
    QuietEntries(db, FileProcessed(db, image, usage), entries);
  }

  /** The log of a handler that touches no order either stands still or gains one entry of another concern. */
  lemma QuietResult(db: Db, next: Db)
    requires next.orders == db.orders
    requires next.auditLogs == db.auditLogs
             || (|next.auditLogs| > 0 && next.auditLogs == db.auditLogs + [next.auditLogs[|next.auditLogs| - 1]]
                 && !next.auditLogs[|next.auditLogs| - 1].activated && !IsRefund(next.auditLogs[|next.auditLogs| - 1]))
    ensures QuietStep(db, next)
  {
    hide QuietStep;
    if next.auditLogs == db.auditLogs {
      QuietEqual(db, next);
    } else {
      QuietLast(db, next);
    }
  }

  lemma RegisterQuiet(db: Db, userID: Id, rawEmail: string, nickname: string, subID: Id, now: Time)
    ensures QuietStep(db, Or(Register(db, userID, rawEmail, nickname, subID, now), db))
  {
    hide QuietStep;
    QuietResult(db, Or(Register(db, userID, rawEmail, nickname, subID, now), db));
  }

  lemma OAuthLoginQuiet(db: Db, found: Option<Id>, userID: Id, rawEmail: string, nickname: string, verified: bool, subID: Id, now: Time)
    requires found.Some? ==> found.value in db.users
    ensures QuietStep(db, OAuthLogin(db, found, userID, rawEmail, nickname, verified, subID, now))
  {
    hide QuietStep;
    QuietResult(db, OAuthLogin(db, found, userID, rawEmail, nickname, verified, subID, now));
  }

  lemma VerifyEmailQuiet(db: Db, userID: Id)
    ensures QuietStep(db, Or(VerifyEmail(db, userID), db))
  {
    hide QuietStep;
    QuietResult(db, Or(VerifyEmail(db, userID), db));
  }

  lemma QuietFrom(db: Db, mid: Db, next: Db)
    requires mid.orders == db.orders && mid.auditLogs == db.auditLogs && QuietStep(mid, next)
    ensures QuietStep(db, next)
  {
  }

  lemma UpdateProfileQuiet(db: Db, userID: Id, nickname: string)
    ensures QuietStep(db, Or(UpdateProfile(db, userID, nickname), db))
  {
    hide QuietStep, TrimSpace;
    var next := Or(UpdateProfile(db, userID, nickname), db);
    if next != db {
      var edited := db.users[userID].(nickname := TrimSpace(nickname));
      var renamed := db.(users := db.users[edited.id := edited]);
      AuditedQuiet(renamed, "user", LogProfileUpdate, edited.id);
      QuietFrom(db, renamed, next);
    } else {
      QuietResult(db, next);
    }
  }

  lemma CreateKeyQuiet(db: Db, key: APIKey)
    ensures QuietStep(db, Or(CreateKey(db, key), db))
  {
    hide QuietStep;
    QuietResult(db, Or(CreateKey(db, key), db));
  }

  lemma RevokeKeyQuiet(db: Db, userID: Id, keyID: Id)
    ensures QuietStep(db, Or(RevokeKey(db, userID, keyID), db))
  {
    hide QuietStep, RevokeFirst;
    QuietResult(db, Or(RevokeKey(db, userID, keyID), db));
  }

  lemma SetUserStatusQuiet(db: Db, userID: Id, banned: bool)
    ensures QuietStep(db, Or(SetUserStatus(db, userID, banned), db))
  {
    hide QuietStep, RevokeAll;
    QuietResult(db, Or(SetUserStatus(db, userID, banned), db));
  }

  lemma UpsertPlanQuiet(db: Db, plan: Plan)
    ensures QuietStep(db, UpsertPlan(db, plan))
  {
    hide QuietStep, PlanIndex;
    var next := UpsertPlan(db, plan);
    if PlanIndex(db.plans, plan.slug) < |db.plans| {
      QuietEntries(db, next, [AuditLog("admin", LogPlanUpdate, plan.slug, false)]);
    } else {
      QuietEntries(db, next, [AuditLog("admin", LogPlanCreate, plan.slug, false)]);
    }
  }

  lemma GrantPlanQuiet(db: Db, found: Option<Id>, slug: string, days: int, reason: string, subID: Id, now: Time)
    requires found.Some? ==> found.value in db.users
    ensures QuietStep(db, Or(GrantPlan(db, found, slug, days, reason, subID, now), db))
  {
    hide QuietStep, FindPlan;
    QuietResult(db, Or(GrantPlan(db, found, slug, days, reason, subID, now), db));
  }

  lemma ExpireQuiet(db: Db, userID: Id, reason: string, days: int, deleteNow: bool, now: Time)
    ensures QuietStep(db, Or(ExpireSubscription(db, userID, reason, days, deleteNow, now), db))
  {
    hide QuietStep;
    QuietResult(db, Or(ExpireSubscription(db, userID, reason, days, deleteNow, now), db));
  }

  lemma CreateInviteQuiet(db: Db, c: InviteCampaign)
    ensures QuietStep(db, Or(CreateInvite(db, c), db))
  {
    hide QuietStep, FindPlan;
    QuietResult(db, Or(CreateInvite(db, c), db));
  }

  lemma RedeemQuiet(db: Db, code: string, userID: Id, ip: string, device: string, isNew: bool, redemptionID: Id, subID: Id, now: Time)
    ensures QuietStep(db, Or(RedeemInvite(db, code, userID, ip, device, isNew, redemptionID, subID, now), db))
  {
    hide QuietStep, ValidateRedeem, UsageOfCode;
    QuietResult(db, Or(RedeemInvite(db, code, userID, ip, device, isNew, redemptionID, subID, now), db));
  }

  lemma UploadQuiet(db: Db, image: Image)
    ensures QuietStep(db, Upload(db, image))
  {
    hide QuietStep, VariantBytes;
    QuietResult(db, Upload(db, image));
  }

  lemma DeleteImageQuiet(db: Db, publicID: Id, userID: Id)
    ensures QuietStep(db, Or(DeleteImage(db, publicID, userID), db))
  {
    hide QuietStep, VariantBytes;
    QuietResult(db, Or(DeleteImage(db, publicID, userID), db));
  }

  lemma AdminDeleteQuiet(db: Db, publicID: Id)
    ensures QuietStep(db, Or(AdminDelete(db, publicID), db))
  {
    hide QuietStep, VariantBytes;
    QuietResult(db, Or(AdminDelete(db, publicID), db));
  }

  lemma AdminFreezeQuiet(db: Db, publicID: Id, reason: string)
    ensures QuietStep(db, Or(AdminFreeze(db, publicID, reason), db))
  {
    hide QuietStep;
    QuietResult(db, Or(AdminFreeze(db, publicID, reason), db));
  }

  lemma SetPrivacyQuiet(db: Db, publicID: Id, userID: Id, isPrivate: bool)
    ensures QuietStep(db, Or(SetPrivacy(db, publicID, userID, isPrivate), db))
  {
    hide QuietStep;
    QuietResult(db, Or(SetPrivacy(db, publicID, userID, isPrivate), db));
  }

  lemma DeliverQuiet(db: Db, userID: Id, bytesSent: nat)
    ensures QuietStep(db, Or(Deliver(db, userID, bytesSent), db))
  {
    hide QuietStep, Entitlement, CheckUsage;
    QuietResult(db, Or(Deliver(db, userID, bytesSent), db));
  }

  lemma UseKeyQuiet(db: Db, keyAt: Option<KeyAt>, required: seq<string>, now: Time)
    requires keyAt.Some? ==> keyAt.value.userID in db.apiKeys && keyAt.value.index < |db.apiKeys[keyAt.value.userID]|
    ensures QuietStep(db, Or(UseKey(db, keyAt, required, now), db))
  {
    hide QuietStep, Entitlement, CheckUsage;
    QuietResult(db, Or(UseKey(db, keyAt, required, now), db));
  }

  /** Every handler moves at most one order, and only as MayStep allows, but for the refusal of a settled order. */
  lemma ShapeEffect(db: Db, s: Step)
    requires Sound(db) && Legal(db, s) && Orderly(db, s)
    ensures Shape(db, Effect(db, s), Touched(s))
  {
    hide Sound, QuietStep, OrderStep, Register, OAuthLogin, VerifyEmail, UpdateProfile, CreateKey, RevokeKey, SetUserStatus, UpsertPlan, GrantPlan,
      ExpireSubscription, CreateInvite, RedeemInvite, Checkout, AttachPayment, RefusePayment, Webhook, MarkPaid, AdminCancel, AdminRefund, Upload,
      Process, DeleteImage, AdminDelete, AdminFreeze, SetPrivacy, Purge, ImportImages, Deliver, UseKey, Or;
    match s.action
    case DoCheckout(orderID, userID, slug, cycle) => CheckoutStep(db, orderID, userID, slug, cycle);
    case DoAttachPayment(orderID, paymentID) => AttachStep(db, orderID, paymentID);
    case DoRefusePayment(orderID, message) => RefuseStep(db, orderID, message, s.now);
    case DoWebhook(ev, found, subID) => WebhookStep(db, ev, found, s.now, subID);
    case DoMarkPaid(orderID, reason, subID) => MarkPaidStep(db, orderID, reason, s.now, subID);
    case DoCancel(orderID, reason) => AdminCancelStep(db, orderID, reason, s.now);
    case DoRefund(orderID, reason) => AdminRefundStep(db, orderID, reason, s.now);
    case DoProcess(publicID, p, blockedHashes) => ProcessQuiet(db, publicID, p, blockedHashes);
    case DoPurge(order) => PurgeQuiet(db, s.now, order);
    case DoImport(userID, images) => ImportQuiet(db, userID, images);
    case DoRegister(userID, rawEmail, nickname, subID) => RegisterQuiet(db, userID, rawEmail, nickname, subID, s.now);
    case DoOAuthLogin(found, userID, rawEmail, nickname, verified, subID) =>
      OAuthLoginQuiet(db, found, userID, rawEmail, nickname, verified, subID, s.now);
    case DoVerifyEmail(userID) => VerifyEmailQuiet(db, userID);
    case DoUpdateProfile(userID, nickname) => UpdateProfileQuiet(db, userID, nickname);
    case DoCreateKey(key) => CreateKeyQuiet(db, key);
    case DoRevokeKey(userID, keyID) => RevokeKeyQuiet(db, userID, keyID);
    case DoSetUserStatus(userID, banned) => SetUserStatusQuiet(db, userID, banned);
    case DoUpsertPlan(plan) => UpsertPlanQuiet(db, plan);
    case DoGrantPlan(found, _, slug, days, reason, subID) => GrantPlanQuiet(db, found, slug, days, reason, subID, s.now);
    case DoExpire(userID, reason, days, deleteNow) => ExpireQuiet(db, userID, reason, days, deleteNow, s.now);
    case DoCreateInvite(c) => CreateInviteQuiet(db, c);
    case DoRedeem(code, userID, ip, device, isNew, redemptionID, subID) =>
      RedeemQuiet(db, code, userID, ip, device, isNew, redemptionID, subID, s.now);
    case DoUpload(image) => UploadQuiet(db, image);
    case DoDeleteImage(publicID, userID) => DeleteImageQuiet(db, publicID, userID);
    case DoAdminDelete(publicID) => AdminDeleteQuiet(db, publicID);
    case DoAdminFreeze(publicID, reason) => AdminFreezeQuiet(db, publicID, reason);
    case DoSetPrivacy(publicID, userID, isPrivate) => SetPrivacyQuiet(db, publicID, userID, isPrivate);
    case DoDeliver(userID, bytesSent) => DeliverQuiet(db, userID, bytesSent);
    case DoUseKey(_, keyAt, required) => UseKeyQuiet(db, keyAt, required, s.now);
  }

  lemma PurgeQuiet(db: Db, now: Time, order: seq<Id>)
    ensures QuietStep(db, Purge(db, now, order))
  {
    hide QuietStep, MarkDeleted, DropImages, ClearUsage, ClearPlans;
    QuietEntries(db, Purge(db, now, order), PurgeAudits(order));
  }

  // ---------------------------------------------------------------- the invariant

  /** How many log entries grant the order. */
  function Grants(log: seq<AuditLog>, id: Id): nat {
    if log == [] then 0
    else
      var last := log[|log| - 1];
      Grants(log[..|log| - 1], id) + if last.target == id && last.activated then 1 else 0
  }

  function Refunds(log: seq<AuditLog>, id: Id): nat {
    if log == [] then 0
    else
      var last := log[|log| - 1];
      Refunds(log[..|log| - 1], id) + if last.target == id && IsRefund(last) then 1 else 0
  }

  /** The log grants each order once when it was ever paid and never otherwise, and refunds it once when it was. */
  ghost predicate Counted(db: Db) {
    forall id :: CountedAt(db, id)
  }

  predicate CountedAt(db: Db, id: Id) {
    && Grants(db.auditLogs, id) == (if id in db.orders && (db.orders[id].status == Paid || db.orders[id].status == Refunded) then 1 else 0)
    && Refunds(db.auditLogs, id) == (if id in db.orders && db.orders[id].status == Refunded then 1 else 0)
  }

  lemma {:induction false} CountsAppend(log: seq<AuditLog>, more: seq<AuditLog>, id: Id)
    ensures Grants(log + more, id) == Grants(log, id) + Grants(more, id)
    ensures Refunds(log + more, id) == Refunds(log, id) + Refunds(more, id)
    decreases |more|
  {
    if more == [] {
      assert log + more == log;
    } else {
      var n := |more| - 1;
      assert (log + more)[..|log + more| - 1] == log + more[..n];
      CountsAppend(log, more[..n], id);
    }
  }

  lemma {:induction false} QuietCounts(log: seq<AuditLog>, id: Id)
    requires Quiet(log)
    ensures Grants(log, id) == 0 && Refunds(log, id) == 0
  {
    if log != [] {
      assert log[|log| - 1] in log;
      QuietCounts(log[..|log| - 1], id);
    }
  }

  lemma EntriesCount(log: seq<AuditLog>, id: Id, from: OrderStatus, to: OrderStatus, other: Id)
    requires Entries(log, id, from, to)
    ensures Grants(log, other) == if other == id && from != Paid && to == Paid then 1 else 0
    ensures Refunds(log, other) == if other == id && from == Paid && to == Refunded then 1 else 0
  {
    if (from != Paid && to == Paid) || (from == Paid && to == Refunded) {
      assert log == [log[0]];
      assert log[..0] == [];
    } else {
      QuietCounts(log, other);
    }
  }

  lemma QuietCountedAt(db: Db, next: Db, id: Id)
    requires CountedAt(db, id) && QuietStep(db, next)
    ensures CountedAt(next, id)
  {
    var more := Tail(db.auditLogs, next.auditLogs);
    assert next.auditLogs == db.auditLogs + more;
    CountsAppend(db.auditLogs, more, id);
    QuietCounts(more, id);
  }

  lemma MoveCounts(db: Db, next: Db, t: Id, id: Id)
    requires OrderStep(db, next, t)
    ensures Grants(next.auditLogs, id) == Grants(db.auditLogs, id)
      + if id == t && t in db.orders && db.orders[t].status != Paid && next.orders[t].status == Paid then 1 else 0
    ensures Refunds(next.auditLogs, id) == Refunds(db.auditLogs, id)
      + if id == t && t in db.orders && db.orders[t].status == Paid && next.orders[t].status == Refunded then 1 else 0
  {
    hide Quiet;
    var more := Tail(db.auditLogs, next.auditLogs);
    assert next.auditLogs == db.auditLogs + more;
    CountsAppend(db.auditLogs, more, id);
    if t in db.orders {
      EntriesCount(more, t, db.orders[t].status, next.orders[t].status, id);
    } else {
      QuietCounts(more, id);
    }
  }

  lemma MoveCountedAt(db: Db, next: Db, t: Id, id: Id)
    requires CountedAt(db, id) && OrderStep(db, next, t)
    ensures CountedAt(next, id)
  {
    hide Quiet, Entries, Grants, Refunds;
    MoveCounts(db, next, t, id);
  }

  lemma CountedStep(db: Db, next: Db, touched: Option<Id>)
    requires Counted(db) && Shape(db, next, touched)
    ensures Counted(next)
  {
    forall id ensures CountedAt(next, id) {
      hide QuietStep, OrderStep, CountedAt;
      assert CountedAt(db, id);
      if QuietStep(db, next) {
        QuietCountedAt(db, next, id);
      } else {
        MoveCountedAt(db, next, touched.value, id);
      }
    }
  }

  // ---------------------------------------------------------------- money

  /** What each order adds to adminOverview's revenue_cent. */
  function Earned(order: Order): int {
    if order.status == Paid then order.amountCent else 0
  }

  function EarnedBy(orders: map<Id, Order>): map<Id, int> {
    map id | id in orders :: Earned(orders[id])
  }

  ghost function Revenue(db: Db): int {
    Total(EarnedBy(db.orders))
  }

  /** The loop over the orders in adminOverview. */
  method RevenueCent(orders: map<Id, Order>) returns (revenueCent: int)
    ensures revenueCent == Total(EarnedBy(orders))
  {
    revenueCent := 0;
    var todo := orders.Keys;
    TotalZero(map[]);
    while todo != {}
      invariant todo <= orders.Keys
      invariant revenueCent == Total(EarnedBy(orders - todo))
    {
      var id :| id in todo;
      if orders[id].status == Paid {
        revenueCent := revenueCent + orders[id].amountCent;
      }
      TotalPut(EarnedBy(orders - todo), id, Earned(orders[id]));
      assert EarnedBy(orders - todo)[id := Earned(orders[id])] == EarnedBy(orders - (todo - {id}));
      todo := todo - {id};
    }
    assert orders - {} == orders;
  }

  /** The amount an audit entry books on the orders as they are: in on a grant, out on a refund. */
  function Booked(log: seq<AuditLog>, orders: map<Id, Order>): int {
    if log == [] then 0
    else
      var last := log[|log| - 1];
      var amount := if last.target in orders then orders[last.target].amountCent else 0;
      Booked(log[..|log| - 1], orders) + (if last.activated then amount else 0) - (if IsRefund(last) then amount else 0)
  }

  /** Revenue is what the audit log booked. */
  ghost predicate Reconciled(db: Db) {
    Revenue(db) == Booked(db.auditLogs, db.orders)
  }

  lemma {:induction false} BookedAppend(log: seq<AuditLog>, more: seq<AuditLog>, orders: map<Id, Order>)
    ensures Booked(log + more, orders) == Booked(log, orders) + Booked(more, orders)
    decreases |more|
  {
    if more == [] {
      assert log + more == log;
    } else {
      var n := |more| - 1;
      assert (log + more)[..|log + more| - 1] == log + more[..n];
      BookedAppend(log, more[..n], orders);
    }
  }

  lemma {:induction false} BookedQuiet(log: seq<AuditLog>, orders: map<Id, Order>)
    requires Quiet(log)
    ensures Booked(log, orders) == 0
  {
    if log != [] {
      assert log[|log| - 1] in log;
      BookedQuiet(log[..|log| - 1], orders);
    }
  }

  /** Amounts never change, and an order that is opened has no entries yet: the old entries keep their worth. */
  lemma {:induction false} BookedStable(log: seq<AuditLog>, orders: map<Id, Order>, t: Id, order: Order)
    requires if t in orders then order.amountCent == orders[t].amountCent else Grants(log, t) == 0 && Refunds(log, t) == 0
    ensures Booked(log, orders[t := order]) == Booked(log, orders)
  {
    if log != [] {
      BookedStable(log[..|log| - 1], orders, t, order);
    }
  }

  lemma EntriesBook(log: seq<AuditLog>, id: Id, from: OrderStatus, to: OrderStatus, orders: map<Id, Order>)
    requires Entries(log, id, from, to) && id in orders && MayStep(from, to)
    ensures Booked(log, orders) ==
            (if to == Paid then orders[id].amountCent else 0) - (if from == Paid then orders[id].amountCent else 0)
  {
    if (from != Paid && to == Paid) || (from == Paid && to == Refunded) {
      assert log == [log[0]];
      assert Booked(log[..0], orders) == 0;
    } else {
      BookedQuiet(log, orders);
    }
  }

  lemma RevenuePut(orders: map<Id, Order>, t: Id, order: Order)
    ensures Total(EarnedBy(orders[t := order]))
            == Total(EarnedBy(orders)) - (if t in orders then Earned(orders[t]) else 0) + Earned(order)
  {
    TotalPut(EarnedBy(orders), t, Earned(order));
    assert EarnedBy(orders)[t := Earned(order)] == EarnedBy(orders[t := order]);
  }

  lemma QuietReconciled(db: Db, next: Db)
    requires Reconciled(db) && QuietStep(db, next)
    ensures Reconciled(next)
  {
    var more := Tail(db.auditLogs, next.auditLogs);
    assert next.auditLogs == db.auditLogs + more;
    BookedAppend(db.auditLogs, more, db.orders);
    BookedQuiet(more, db.orders);
  }

  lemma MoveReconciled(db: Db, next: Db, t: Id)
    requires Reconciled(db) && CountedAt(db, t) && OrderStep(db, next, t)
    ensures Reconciled(next)
  {
    hide Quiet, Entries, Grants, Refunds, Total, EarnedBy, Booked;
    var more := Tail(db.auditLogs, next.auditLogs);
    var order := next.orders[t];
    assert next.auditLogs == db.auditLogs + more;
    BookedAppend(db.auditLogs, more, next.orders);
    BookedStable(db.auditLogs, db.orders, t, order);
    RevenuePut(db.orders, t, order);
    if t in db.orders {
      EntriesBook(more, t, db.orders[t].status, order.status, next.orders);
    } else {
      BookedQuiet(more, next.orders);
    }
  }

  lemma ReconciledStep(db: Db, next: Db, touched: Option<Id>)
    requires Reconciled(db) && Counted(db) && Shape(db, next, touched)
    ensures Reconciled(next)
  {
    hide Reconciled, QuietStep, OrderStep, CountedAt;
    if QuietStep(db, next) {
      QuietReconciled(db, next);
    } else {
      assert CountedAt(db, touched.value);
      MoveReconciled(db, next, touched.value);
    }
  }

  // ---------------------------------------------------------------- whole runs

  ghost predicate Settled(db: Db) {
    Sound(db) && Counted(db) && Reconciled(db)
  }

  /** Every order of `db` is still there on the same terms, its status moved forward if at all. */
  ghost predicate Forward(db: Db, later: Db) {
    forall id <- db.orders :: id in later.orders && SameTerms(db.orders[id], later.orders[id])
                              && MayFollow(db.orders[id].status, later.orders[id].status)
  }

  lemma ForwardStep(db: Db, next: Db, touched: Option<Id>)
    requires Shape(db, next, touched)
    ensures Forward(db, next)
  {
    hide Quiet, Entries;
  }

  lemma ForwardTransitive(a: Db, b: Db, c: Db)
    requires Forward(a, b) && Forward(b, c)
    ensures Forward(a, c)
  {
  }

  lemma SettledStart(plans: seq<Plan>, invites: map<string, InviteCampaign>, hotlink: Hotlink, integrations: string)
    requires KeyedBy(invites, InviteKey)
    ensures Settled(Start(plans, invites, hotlink, integrations))
  {
    var db := Start(plans, invites, hotlink, integrations);
    SoundStart(plans, invites, hotlink, integrations);
    assert Counted(db);
    assert EarnedBy(db.orders) == map[];
  }

  lemma SettledNext(db: Db, s: Step)
    requires Settled(db) && Legal(db, s) && Orderly(db, s)
    ensures Settled(Next(db, s)) && Forward(db, Next(db, s))
  {
    hide Sound, Counted, Reconciled, Effect, Legal, Shape, Forward, Orderly;
    ShapeEffect(db, s);
    var next := Effect(db, s);
    SoundEffect(db, s);
    CountedStep(db, next, Touched(s));
    ReconciledStep(db, next, Touched(s));
    ForwardStep(db, next, Touched(s));
    ForwardSame(db);
  }

  lemma ForwardSame(db: Db)
    ensures Forward(db, db)
  {
  }

  lemma RefusalBackward(db: Db, orderID: Id, message: string, now: Time)
    requires Settled(db) && orderID in db.orders
    requires db.orders[orderID].status != Pending && db.orders[orderID].status != Failed
    ensures !Forward(db, RefusePayment(db, orderID, message, now))
  {
    hide Counted, Reconciled;
    OrderFiled(db, orderID);
    hide Sound;
    assert !MayFollow(db.orders[orderID].status, RefusePayment(db, orderID, message, now).orders[orderID].status);
  }

  /** createIFPayCheckout breaks this with a late refusal, and exactly then: on an order that is paid, cancelled
      or refunded by the time the payment service refuses. */
  lemma RefusalSettles(db: Db, orderID: Id, message: string, now: Time)
    requires Settled(db) && orderID in db.orders
    ensures var next := RefusePayment(db, orderID, message, now);
            Settled(next) && Forward(db, next) <==> db.orders[orderID].status == Pending || db.orders[orderID].status == Failed
  {
    hide Settled, Forward;
    var s := Step(DoRefusePayment(orderID, message), now, true);
    assert Next(db, s) == RefusePayment(db, orderID, message, now);
    if Orderly(db, s) {
      SettledNext(db, s);
    } else {
      RefusalBackward(db, orderID, message, now);
    }
  }

  /** Over every run of webhooks, admin actions and all other handlers, failed saves included and late refusals
      excluded: orders only move forward on unchanged terms, each is granted at most once, and revenue is what the
      log booked. */
  lemma {:induction false} SettledRun(db: Db, clock: Time, steps: seq<Step>)
    requires Settled(db) && LegalRun(db, clock, steps) && OrderlyRun(db, clock, steps)
    ensures Settled(Run(db, clock, steps)) && Forward(db, Run(db, clock, steps))
    decreases |steps|
  {
    hide Settled, Forward, Legal, Effect, Next, Orderly;
    if steps == [] {
      ForwardSame(db);
    } else {
      SettledNext(db, steps[0]);
      SettledRun(Next(db, steps[0]), steps[0].now, steps[1..]);
      ForwardTransitive(db, Next(db, steps[0]), Run(db, clock, steps));
    }
  }

  /** In every state reached without a late refusal an order has been granted at most once, however many success
      events with fresh ids arrived, and exactly once if it is paid. */
  lemma AtMostOneGrant(plans: seq<Plan>, invites: map<string, InviteCampaign>, hotlink: Hotlink, integrations: string,
                       clock: Time, steps: seq<Step>, id: Id)
    requires KeyedBy(invites, InviteKey)
    requires LegalRun(Start(plans, invites, hotlink, integrations), clock, steps)
    requires OrderlyRun(Start(plans, invites, hotlink, integrations), clock, steps)
    ensures var db := Run(Start(plans, invites, hotlink, integrations), clock, steps);
      && Grants(db.auditLogs, id) <= 1 && Refunds(db.auditLogs, id) <= Grants(db.auditLogs, id)
      && (id in db.orders && db.orders[id].status == Paid ==> Grants(db.auditLogs, id) == 1)
  {
    hide Sound, Reconciled, Run, LegalRun, OrderlyRun, Start, Grants, Refunds;
    SettledStart(plans, invites, hotlink, integrations);
    SettledRun(Start(plans, invites, hotlink, integrations), clock, steps);
    assert CountedAt(Run(Start(plans, invites, hotlink, integrations), clock, steps), id);
  }
}
