/** Which parts of the state each handler writes. */
module Frames {
  import opened Text
  import opened Domain
  import opened Db
  import opened Orders
  import opened Handlers
  import opened Actions

  datatype Part = Plans | Users | Images | Keys | OrderRecords | Subs | UsageRecords | Invites | Redemptions | Webhooks | Logs

  predicate SamePart(db: Db, next: Db, part: Part) {
    match part
    case Plans => next.plans == db.plans
    case Users => next.users == db.users
    case Images => next.images == db.images
    case Keys => next.apiKeys == db.apiKeys
    case OrderRecords => next.orders == db.orders
    case Subs => next.subs == db.subs
    case UsageRecords => next.usage == db.usage
    case Invites => next.invites == db.invites
    case Redemptions => next.redemptions == db.redemptions
    case Webhooks => next.webhooks == db.webhooks
    case Logs => next.auditLogs == db.auditLogs && next.riskEvents == db.riskEvents
  }

  /** Nothing outside `written` changes. */
  ghost predicate Within(db: Db, next: Db, written: set<Part>) {
    forall part :: part !in written ==> SamePart(db, next, part)
  }

  function Writes(a: Action): set<Part> {
    match a
    case DoRegister(_, _, _, _) => {Users, Subs, UsageRecords}
    case DoOAuthLogin(_, _, _, _, _, _) => {Users, Subs, UsageRecords, Logs}
    case DoVerifyEmail(_) => {Users}
    case DoUpdateProfile(_, _) => {Users, Logs}
    case DoCreateKey(_) => {Keys}
    case DoRevokeKey(_, _) => {Keys}
    case DoSetUserStatus(_, _) => {Users, Keys, Logs}
    case DoUpsertPlan(_) => {Plans, Logs}
    case DoGrantPlan(_, _, _, _, _, _) => {Users, Subs, Logs}
    case DoExpire(_, _, _, _) => {Users, Subs, Logs}
    case DoCreateInvite(_) => {Invites, Logs}
    case DoRedeem(_, _, _, _, _, _, _) => {Users, Subs, Redemptions, Logs}
    case DoCheckout(_, _, _, _) => {OrderRecords, Logs}
    case DoAttachPayment(_, _) => {OrderRecords, Logs}
    case DoRefusePayment(_, _) => {OrderRecords, Logs}
    case DoWebhook(_, _, _) => {OrderRecords, Users, Subs, Webhooks, Logs}
    case DoMarkPaid(_, _, _) => {OrderRecords, Users, Subs, Logs}
    case DoCancel(_, _) => {OrderRecords, Logs}
    case DoRefund(_, _) => {OrderRecords, Users, Subs, Logs}
    case DoUpload(_) => {Images, UsageRecords}
    case DoProcess(_, _, _) => {Images, UsageRecords, Logs}
    case DoDeleteImage(_, _) => {Images, UsageRecords}
    case DoAdminDelete(_) => {Images, UsageRecords, Logs}
    case DoAdminFreeze(_, _) => {Images, Logs}
    case DoSetPrivacy(_, _, _) => {Images}
    case DoPurge(_) => {Users, Subs, Images, UsageRecords, Logs}
    case DoImport(_, _) => {Images, UsageRecords, Logs}
    case DoDeliver(_, _) => {UsageRecords}
    case DoUseKey(_, _, _) => {Keys, UsageRecords}
  }

  lemma RegisterWithin(db: Db, userID: Id, rawEmail: string, nickname: string, subID: Id, now: Time)
    ensures Within(db, Or(Register(db, userID, rawEmail, nickname, subID, now), db), {Users, Subs, UsageRecords})
  {
  }

  lemma OAuthLoginWithin(db: Db, found: Option<Id>, userID: Id, rawEmail: string, nickname: string, verified: bool, subID: Id, now: Time)
    requires found.Some? ==> found.value in db.users
    ensures Within(db, OAuthLogin(db, found, userID, rawEmail, nickname, verified, subID, now), {Users, Subs, UsageRecords, Logs})
  {
  }

  lemma VerifyEmailWithin(db: Db, userID: Id)
    ensures Within(db, Or(VerifyEmail(db, userID), db), {Users})
  {
  }

  lemma UpdateProfileWithin(db: Db, userID: Id, nickname: string)
    ensures Within(db, Or(UpdateProfile(db, userID, nickname), db), {Users, Logs})
  {
    hide TrimSpace;
  }

  lemma CreateKeyWithin(db: Db, key: APIKey)
    ensures Within(db, Or(CreateKey(db, key), db), {Keys})
  {
  }

  lemma RevokeKeyWithin(db: Db, userID: Id, keyID: Id)
    ensures Within(db, Or(RevokeKey(db, userID, keyID), db), {Keys})
  {
    hide RevokeFirst;
  }

  lemma SetUserStatusWithin(db: Db, userID: Id, banned: bool)
    ensures Within(db, Or(SetUserStatus(db, userID, banned), db), {Users, Keys, Logs})
  {
    hide RevokeAll;
  }

  lemma UpsertPlanWithin(db: Db, plan: Plan)
    ensures Within(db, UpsertPlan(db, plan), {Plans, Logs})
  {
    hide PlanIndex, Within, SamePart;
    var i := PlanIndex(db.plans, plan.slug);
    var plans := if i < |db.plans| then db.plans[i := plan] else db.plans + [plan];
    PlansWithin(db, plans, AuditLog("admin", if i < |db.plans| then LogPlanUpdate else LogPlanCreate, plan.slug, false));
  }

  lemma PlansWithin(db: Db, plans: seq<Plan>, entry: AuditLog)
    ensures Within(db, db.(plans := plans, auditLogs := db.auditLogs + [entry]), {Plans, Logs})
  {
  }

  lemma GrantPlanWithin(db: Db, found: Option<Id>, slug: string, days: int, reason: string, subID: Id, now: Time)
    requires found.Some? ==> found.value in db.users
    ensures Within(db, Or(GrantPlan(db, found, slug, days, reason, subID, now), db), {Users, Subs, Logs})
  {
    hide FindPlan;
  }

  lemma ExpireSubscriptionWithin(db: Db, userID: Id, reason: string, days: int, deleteNow: bool, now: Time)
    ensures Within(db, Or(ExpireSubscription(db, userID, reason, days, deleteNow, now), db), {Users, Subs, Logs})
  {
  }

  lemma CreateInviteWithin(db: Db, c: InviteCampaign)
    ensures Within(db, Or(CreateInvite(db, c), db), {Invites, Logs})
  {
    hide FindPlan;
  }

  lemma RedeemInviteWithin(db: Db, code: string, userID: Id, ip: string, device: string, isNew: bool, redemptionID: Id, subID: Id, now: Time)
    ensures Within(db, Or(RedeemInvite(db, code, userID, ip, device, isNew, redemptionID, subID, now), db), {Users, Subs, Redemptions, Logs})
  {
    hide ValidateRedeem, UsageOfCode;
  }

  lemma AnswersWithin(db: Db, orderID: Id, paymentID: string, message: string, now: Time)
    requires orderID in db.orders
    ensures Within(db, AttachPayment(db, orderID, paymentID), {OrderRecords, Logs})
    ensures Within(db, RefusePayment(db, orderID, message, now), {OrderRecords, Logs})
  {
  }

  lemma CheckoutWithin(db: Db, orderID: Id, userID: Id, slug: string, cycle: string)
    ensures Within(db, Or(Checkout(db, orderID, userID, slug, cycle), db), {OrderRecords, Logs})
  {
    hide FindPlan;
  }

  lemma UploadWithin(db: Db, image: Image)
    ensures Within(db, Upload(db, image), {Images, UsageRecords})
  {
    hide VariantBytes;
  }

  lemma FiledWithin(db: Db, image: Image, usage: Usage)
    ensures Within(db, FileProcessed(db, image, usage), {Images, UsageRecords, Logs})
  {
  }

  lemma FiledParts(db: Db, image: Image, usage: Usage)
    ensures FileProcessed(db, image, usage).images == db.images[image.publicID := image]
    ensures FileProcessed(db, image, usage).usage == db.usage[image.userID := usage]
  {
  }

  lemma ProcessWithin(db: Db, publicID: Id, p: Processed, blockedHashes: seq<string>)
    ensures Within(db, Or(Process(db, publicID, p, blockedHashes), db), {Images, UsageRecords, Logs})
  {
    hide Refreshed, VariantBytes, Adjusted, FileProcessed, Within;
    WithinSelf(db);
    if publicID in db.images && db.images[publicID].status == ImageActive {
      var current := db.images[publicID];
      var next := Refreshed(db, current, p, blockedHashes);
      FiledWithin(db, next, Adjusted(UsageOf(db, current.userID), VariantBytes(current.variants), VariantBytes(next.variants)));
    }
  }

  lemma DeleteImageWithin(db: Db, publicID: Id, userID: Id)
    ensures Within(db, Or(DeleteImage(db, publicID, userID), db), {Images, UsageRecords})
  {
    hide VariantBytes;
  }

  lemma AdminDeleteWithin(db: Db, publicID: Id)
    ensures Within(db, Or(AdminDelete(db, publicID), db), {Images, UsageRecords, Logs})
  {
    hide VariantBytes;
  }

  lemma AdminFreezeWithin(db: Db, publicID: Id, reason: string)
    ensures Within(db, Or(AdminFreeze(db, publicID, reason), db), {Images, Logs})
  {
  }

  lemma SetPrivacyWithin(db: Db, publicID: Id, userID: Id, isPrivate: bool)
    ensures Within(db, Or(SetPrivacy(db, publicID, userID, isPrivate), db), {Images})
  {
  }

  lemma PurgeWithin(db: Db, now: Time, order: seq<Id>)
    ensures Within(db, Purge(db, now, order), {Users, Subs, Images, UsageRecords, Logs})
  {
    hide MarkDeleted, DropImages, ClearUsage, ClearPlans;
  }

  lemma DeliverWithin(db: Db, userID: Id, bytesSent: nat)
    ensures Within(db, Or(Deliver(db, userID, bytesSent), db), {UsageRecords})
  {
    hide Entitlement, CheckUsage;
  }

  lemma UseKeyWithin(db: Db, keyAt: Option<KeyAt>, required: seq<string>, now: Time)
    requires keyAt.Some? ==> keyAt.value.userID in db.apiKeys && keyAt.value.index < |db.apiKeys[keyAt.value.userID]|
    ensures Within(db, Or(UseKey(db, keyAt, required, now), db), {Keys, UsageRecords})
  {
    hide Entitlement, CheckUsage;
  }

  lemma {:induction false} ImportWithin(db: Db, userID: Id, images: seq<Image>)
    ensures Within(db, ImportImages(db, userID, images), {Images, UsageRecords, Logs})
    decreases |images|
  {
    if images != [] {
      ImportWithin(ImportOne(db, userID, images[0]), userID, images[1..]);
    }
  }

  lemma ActivateWithin(db: Db, order: Order, now: Time, subID: Id, actor: string, action: AuditAction)
    ensures var r := Activate(db, order, now, subID, actor, action); r.Ok? ==> Within(db, r.value, {OrderRecords, Users, Subs, Logs})
  {
  }

  lemma FailWithin(db: Db, order: Order, now: Time, actor: string, action: AuditAction, reason: string)
    ensures var r := Fail(db, order, now, actor, action, reason); r.Ok? ==> Within(db, r.value, {OrderRecords, Logs})
  {
  }

  lemma CancelWithin(db: Db, order: Order, now: Time, actor: string, action: AuditAction, reason: string)
    ensures var r := Cancel(db, order, now, actor, action, reason); r.Ok? ==> Within(db, r.value, {OrderRecords, Logs})
  {
  }

  lemma RefundWithin(db: Db, order: Order, now: Time, actor: string, action: AuditAction, reason: string)
    ensures var r := Refund(db, order, now, actor, action, reason); r.Ok? ==> Within(db, r.value, {OrderRecords, Users, Subs, Logs})
  {
  }

  lemma AuditedWithin(db: Db, actor: string, action: AuditAction, target: Id, written: set<Part>)
    requires Logs in written
    ensures Within(db, Audited(db, actor, action, target), written)
  {
  }

  lemma WithinMore(db: Db, next: Db, written: set<Part>, more: set<Part>)
    requires Within(db, next, written) && written <= more
    ensures Within(db, next, more)
  {
    hide SamePart;
  }

  lemma SettleWithin(db: Db, ev: Event, order: Order, now: Time, subID: Id)
    ensures Within(db, Settle(db, ev, order, now, subID), {OrderRecords, Users, Subs, Logs})
  {
    hide Activate, Fail, Cancel, Refund, KindOf, FailureReason, Audited, Within;
    ghost var all := {OrderRecords, Users, Subs, Logs};
    match KindOf(ev.eventType)
    case Succeeded =>
      ActivateWithin(db, order, now, subID, SYSTEM, LogPaymentSucceeded);
      AuditedWithin(db, SYSTEM, LogSucceededIgnored, order.id, all);
    case CancelledEvent =>
      CancelWithin(db, order, now, SYSTEM, LogPaymentCancelled, ev.cancelReason);
      var r := Cancel(db, order, now, SYSTEM, LogPaymentCancelled, ev.cancelReason);
      if r.Ok? { WithinMore(db, r.value, {OrderRecords, Logs}, all); }
      AuditedWithin(db, SYSTEM, LogCancelledIgnored, order.id, all);
    case RefundedEvent =>
      RefundWithin(db, order, now, SYSTEM, LogPaymentRefunded, ev.refundReason);
      AuditedWithin(db, SYSTEM, LogRefundedIgnored, order.id, all);
    case OtherEvent =>
      AuditedWithin(db, SYSTEM, LogWebhookIgnored, order.id, all);
    case _ =>
      var r := Fail(db, order, now, SYSTEM, LogPaymentFailed, FailureReason(ev));
      FailWithin(db, order, now, SYSTEM, LogPaymentFailed, FailureReason(ev));
      if r.Ok? { WithinMore(db, r.value, {OrderRecords, Logs}, all); }
      AuditedWithin(db, SYSTEM, LogFailedIgnored, order.id, all);
  }

  /** Marking the event id first adds that one part. */
  lemma MarkedWithin(db: Db, id: Id, next: Db, written: set<Part>)
    requires Within(db.(webhooks := db.webhooks + {id}), next, written)
    ensures Within(db, next, written + {Webhooks})
  {
    var marked := db.(webhooks := db.webhooks + {id});
    forall part | part !in written + {Webhooks} ensures SamePart(db, next, part) {
      assert SamePart(marked, next, part);
    }
  }

  lemma WebhookWithin(db: Db, ev: Event, found: Option<Id>, now: Time, subID: Id)
    requires found.Some? ==> found.value in db.orders
    ensures Within(db, Webhook(db, ev, found, now, subID), {OrderRecords, Users, Subs, Webhooks, Logs})
  {
    hide Settle, Audited, Within;
    WithinSelf(db);
    if ev.id !in db.webhooks {
      var marked := db.(webhooks := db.webhooks + {ev.id});
      ghost var written := {OrderRecords, Users, Subs, Logs};
      var next := FirstDelivery(db, ev, found, now, subID);
      if found.Some? {
        SettleWithin(marked, ev, db.orders[found.value], now, subID);
      } else {
        AuditedWithin(marked, SYSTEM, LogWebhookUnmatched, ev.id, written);
      }
      MarkedWithin(db, ev.id, next, written);
      assert written + {Webhooks} == {OrderRecords, Users, Subs, Webhooks, Logs};
    }
  }

  lemma AdminOrdersWithin(db: Db, orderID: Id, reason: string, now: Time, subID: Id)
    ensures Within(db, Or(MarkPaid(db, orderID, reason, now, subID), db), {OrderRecords, Users, Subs, Logs})
    ensures Within(db, Or(AdminCancel(db, orderID, reason, now), db), {OrderRecords, Logs})
    ensures Within(db, Or(AdminRefund(db, orderID, reason, now), db), {OrderRecords, Users, Subs, Logs})
  {
    hide Activate, Cancel, Refund, Within;
    WithinSelf(db);
    if orderID in db.orders {
      var order := db.orders[orderID].(operatorNote := TrimSpace(reason));
      ActivateWithin(db, order, now, subID, ADMIN, LogMarkPaid);
      CancelWithin(db, order, now, ADMIN, LogOrderCancel, TrimSpace(reason));
      RefundWithin(db, order, now, ADMIN, LogOrderRefund, TrimSpace(reason));
    }
  }

  lemma WithinSelf(db: Db)
    ensures forall written :: Within(db, db, written)
  {
  }

  /** Every handler writes only the parts listed for it. */
  lemma EffectWithin(db: Db, s: Step)
    requires Legal(db, s)
    ensures Within(db, Effect(db, s), Writes(s.action))
  {
    hide Within, Register, OAuthLogin, VerifyEmail, UpdateProfile, CreateKey, RevokeKey, SetUserStatus, UpsertPlan, GrantPlan,
      ExpireSubscription, CreateInvite, RedeemInvite, Checkout, AttachPayment, RefusePayment, Webhook, MarkPaid, AdminCancel, AdminRefund, Upload,
      Process, DeleteImage, AdminDelete, AdminFreeze, SetPrivacy, Purge, ImportImages, Deliver, UseKey, Or;
    match s.action
    case DoRegister(userID, rawEmail, nickname, subID) => RegisterWithin(db, userID, rawEmail, nickname, subID, s.now);
    case DoOAuthLogin(found, userID, rawEmail, nickname, verified, subID) =>
      OAuthLoginWithin(db, found, userID, rawEmail, nickname, verified, subID, s.now);
    case DoVerifyEmail(userID) => VerifyEmailWithin(db, userID);
    case DoUpdateProfile(userID, nickname) => UpdateProfileWithin(db, userID, nickname);
    case DoCreateKey(key) => CreateKeyWithin(db, key);
    case DoRevokeKey(userID, keyID) => RevokeKeyWithin(db, userID, keyID);
    case DoSetUserStatus(userID, banned) => SetUserStatusWithin(db, userID, banned);
    case DoUpsertPlan(plan) => UpsertPlanWithin(db, plan);
    case DoGrantPlan(found, _, slug, days, reason, subID) => GrantPlanWithin(db, found, slug, days, reason, subID, s.now);
    case DoExpire(userID, reason, days, deleteNow) => ExpireSubscriptionWithin(db, userID, reason, days, deleteNow, s.now);
    case DoCreateInvite(c) => CreateInviteWithin(db, c);
    case DoRedeem(code, userID, ip, device, isNew, redemptionID, subID) =>
      RedeemInviteWithin(db, code, userID, ip, device, isNew, redemptionID, subID, s.now);
    case DoCheckout(orderID, userID, slug, cycle) => CheckoutWithin(db, orderID, userID, slug, cycle);
    case DoAttachPayment(orderID, paymentID) => AnswersWithin(db, orderID, paymentID, "", s.now);
    case DoRefusePayment(orderID, message) => AnswersWithin(db, orderID, "", message, s.now);
    case DoWebhook(ev, found, subID) => WebhookWithin(db, ev, found, s.now, subID);
    case DoMarkPaid(orderID, reason, subID) => AdminOrdersWithin(db, orderID, reason, s.now, subID);
    case DoCancel(orderID, reason) => AdminOrdersWithin(db, orderID, reason, s.now, "");
    case DoRefund(orderID, reason) => AdminOrdersWithin(db, orderID, reason, s.now, "");
    case DoUpload(image) => UploadWithin(db, image);
    case DoProcess(publicID, p, blockedHashes) => ProcessWithin(db, publicID, p, blockedHashes);
    case DoDeleteImage(publicID, userID) => DeleteImageWithin(db, publicID, userID);
    case DoAdminDelete(publicID) => AdminDeleteWithin(db, publicID);
    case DoAdminFreeze(publicID, reason) => AdminFreezeWithin(db, publicID, reason);
    case DoSetPrivacy(publicID, userID, isPrivate) => SetPrivacyWithin(db, publicID, userID, isPrivate);
    case DoPurge(order) => PurgeWithin(db, s.now, order);
    case DoImport(userID, images) => ImportWithin(db, userID, images);
    case DoDeliver(userID, bytesSent) => DeliverWithin(db, userID, bytesSent);
    case DoUseKey(_, keyAt, required) => UseKeyWithin(db, keyAt, required, s.now);
  }

  /** The same for one part, failed saves included. */
  lemma NextKeeps(db: Db, s: Step, part: Part)
    requires Legal(db, s) && part !in Writes(s.action)
    ensures SamePart(db, Next(db, s), part)
  {
    hide Effect, Writes, Legal;
    EffectWithin(db, s);
  }
}
