/** The invariants of every reachable state that the other properties rest on. */
module Soundness {
  import opened Text
  import opened Domain
  import opened Db
  import opened Orders
  import opened Variants
  import opened Handlers
  import opened Actions

  /** Every user has a subscription and a usage record, and nobody else has. */
  ghost predicate Populated(db: Db) {
    db.users.Keys == db.subs.Keys == db.usage.Keys
  }

  ghost predicate ImagesOwned(db: Db) {
    forall p <- db.images :: db.images[p].userID in db.users
  }

  /** The email check of an invite and the log entry agree on stored emails. */
  ghost predicate EmailsNormal(db: Db) {
    forall u <- db.users :: Normal(db.users[u].email)
  }

  ghost predicate Sound(db: Db) {
    Keyed(db) && Populated(db) && ImagesOwned(db) && EmailsNormal(db)
  }

  lemma SoundStart(plans: seq<Plan>, invites: map<string, InviteCampaign>, hotlink: Hotlink, integrations: string)
    requires KeyedBy(invites, InviteKey)
    ensures Sound(Start(plans, invites, hotlink, integrations))
  {
  }

  // ---------------------------------------------------------------- one record at a time

  lemma PutUser(db: Db, user: User)
    requires Sound(db) && user.id in db.users && Normal(user.email)
    ensures Sound(db.(users := db.users[user.id := user]))
  {
  }

  lemma PutSub(db: Db, sub: Subscription)
    requires Sound(db) && sub.userID in db.users
    ensures Sound(db.(subs := db.subs[sub.userID := sub]))
  {
  }

  lemma PutUsage(db: Db, u: Id, usage: Usage)
    requires Sound(db) && u in db.users
    ensures Sound(db.(usage := db.usage[u := usage]))
  {
  }

  lemma PutOrder(db: Db, order: Order)
    requires Sound(db)
    ensures Sound(db.(orders := db.orders[order.id := order]))
  {
  }

  lemma PutImage(db: Db, image: Image)
    requires Sound(db) && image.userID in db.users
    ensures Sound(db.(images := db.images[image.publicID := image]))
  {
  }

  lemma PutKeys(db: Db, u: Id, keys: seq<APIKey>)
    requires Sound(db) && keys != [] && KeysOwned(keys, u)
    ensures Sound(db.(apiKeys := db.apiKeys[u := keys]))
  {
  }

  lemma PutInvite(db: Db, c: InviteCampaign)
    requires Sound(db)
    ensures Sound(db.(invites := db.invites[c.code := c]))
  {
  }

  /** Logs, plans and event marks are not filed under keys. */
  lemma PutLogs(db: Db, plans: seq<Plan>, redemptions: seq<Redemption>, webhooks: set<Id>, risks: seq<RiskEvent>, audits: seq<AuditLog>)
    requires Sound(db)
    ensures Sound(db.(plans := plans, redemptions := redemptions, webhooks := webhooks, riskEvents := risks, auditLogs := audits))
  {
  }

  lemma PutAudits(db: Db, audits: seq<AuditLog>)
    requires Sound(db)
    ensures Sound(db.(auditLogs := audits))
  {
    PutLogs(db, db.plans, db.redemptions, db.webhooks, db.riskEvents, audits);
    assert db.(auditLogs := audits) ==
           db.(plans := db.plans, redemptions := db.redemptions, webhooks := db.webhooks, riskEvents := db.riskEvents, auditLogs := audits);
  }

  // ---------------------------------------------------------------- accounts and grants

  lemma SoundNewAccount(db: Db, user: User, subID: Id, now: Time)
    requires Sound(db) && Normal(user.email)
    ensures Sound(NewAccount(db, user, subID, now))
  {
    hide APIKeysKeyed;
  }

  lemma SoundRegister(db: Db, userID: Id, rawEmail: string, nickname: string, subID: Id, now: Time)
    requires Sound(db)
    ensures Sound(Or(Register(db, userID, rawEmail, nickname, subID, now), db))
  {
    hide Sound;
    NormalizeIsNormal(rawEmail);
    var r := Register(db, userID, rawEmail, nickname, subID, now);
    if r.Ok? {
      var name := if TrimSpace(nickname) == "" then "user" else nickname;
      SoundNewAccount(db, User(userID, Normalize(rawEmail), name, false, false, "go", false, now), subID, now);
    }
  }

  lemma SoundOAuthLogin(db: Db, found: Option<Id>, userID: Id, rawEmail: string, nickname: string, verified: bool, subID: Id, now: Time)
    requires Sound(db) && FoundByEmail(db, Normalize(rawEmail), found)
    ensures Sound(OAuthLogin(db, found, userID, rawEmail, nickname, verified, subID, now))
  {
    NormalizeIsNormal(rawEmail);
    var r := OAuthLogin(db, found, userID, rawEmail, nickname, verified, subID, now);
    if found.None? {
      var newcomer := User(userID, Normalize(rawEmail), nickname, verified, true, "go", false, now);
      SoundNewAccount(db, newcomer, subID, now);
      PutAudits(NewAccount(db, newcomer, subID, now), r.auditLogs);
    } else {
      UserFiled(db, found.value);
      PutUser(db, r.users[found.value]);
      PutAudits(db.(users := r.users), r.auditLogs);
    }
  }

  lemma UserFiled(db: Db, u: Id)
    requires Sound(db) && u in db.users
    ensures db.users[u].id == u && Normal(db.users[u].email)
    ensures u in db.subs && db.subs[u].userID == u && u in db.usage
  {
  }

  lemma SoundEdits(db: Db, userID: Id, nickname: string)
    requires Sound(db)
    ensures Sound(Or(VerifyEmail(db, userID), db))
    ensures Sound(Or(UpdateProfile(db, userID, nickname), db))
  {
    hide Sound, TrimSpace;
    if userID in db.users {
      UserFiled(db, userID);
      PutUser(db, Or(VerifyEmail(db, userID), db).users[userID]);
      var edited := db.users[userID].(nickname := TrimSpace(nickname));
      PutUser(db, edited);
      PutAudits(db.(users := db.users[userID := edited]), Or(UpdateProfile(db, userID, nickname), db).auditLogs);
    }
  }

  /** Replacing a user record, its subscription and the logs: the shape of every grant. */
  lemma PutGrant(db: Db, user: User, sub: Subscription, redemptions: seq<Redemption>, audits: seq<AuditLog>)
    requires Sound(db) && user.id in db.users && Normal(user.email) && sub.userID in db.users
    ensures Sound(db.(users := db.users[user.id := user], subs := db.subs[sub.userID := sub],
                      redemptions := redemptions, auditLogs := audits))
  {
    hide Sound;
    PutUser(db, user);
    var db1 := db.(users := db.users[user.id := user]);
    PutSub(db1, sub);
    var db2 := db1.(subs := db.subs[sub.userID := sub]);
    PutLogs(db2, db.plans, redemptions, db.webhooks, db.riskEvents, audits);
  }

  lemma SoundGrantPlan(db: Db, found: Option<Id>, name: string, slug: string, days: int, reason: string, subID: Id, now: Time)
    requires Sound(db) && FoundUser(db, name, found)
    ensures Sound(Or(GrantPlan(db, found, slug, days, reason, subID, now), db))
  {
    hide Sound, FindPlan;
    var r := GrantPlan(db, found, slug, days, reason, subID, now);
    if r.Ok? {
      var u := found.value;
      UserFiled(db, u);
      PutGrant(db, r.value.users[u], r.value.subs[u], db.redemptions, r.value.auditLogs);
    }
  }

  lemma SoundExpire(db: Db, userID: Id, reason: string, days: int, deleteNow: bool, now: Time)
    requires Sound(db)
    ensures Sound(Or(ExpireSubscription(db, userID, reason, days, deleteNow, now), db))
  {
    hide Sound;
    var r := ExpireSubscription(db, userID, reason, days, deleteNow, now);
    if r.Ok? {
      UserFiled(db, userID);
      PutGrant(db, r.value.users[userID], r.value.subs[userID], db.redemptions, r.value.auditLogs);
    }
  }

  lemma SoundRedeem(db: Db, code: string, userID: Id, ip: string, device: string, isNew: bool, redemptionID: Id, subID: Id, now: Time)
    requires Sound(db)
    ensures Sound(Or(RedeemInvite(db, code, userID, ip, device, isNew, redemptionID, subID, now), db))
  {
    hide Sound, ValidateRedeem, UsageOfCode;
    var r := RedeemInvite(db, code, userID, ip, device, isNew, redemptionID, subID, now);
    if r.Ok? {
      UserFiled(db, userID);
      PutGrant(db, r.value.users[userID], r.value.subs[userID], r.value.redemptions, r.value.auditLogs);
    }
  }

  lemma SoundCreateInvite(db: Db, c: InviteCampaign)
    requires Sound(db)
    ensures Sound(Or(CreateInvite(db, c), db))
  {
    hide Sound, FindPlan;
    var r := CreateInvite(db, c);
    if r.Ok? {
      PutInvite(db, c);
      PutAudits(db.(invites := r.value.invites), r.value.auditLogs);
    }
  }

  // ---------------------------------------------------------------- orders

  lemma SoundActivate(db: Db, order: Order, now: Time, subID: Id, actor: string, action: AuditAction)
    requires Sound(db)
    ensures var r := Activate(db, order, now, subID, actor, action); r.Ok? ==> Sound(r.value)
  {
    hide Sound;
    var r := Activate(db, order, now, subID, actor, action);
    if r.Ok? {
      var u := order.userID;
      UserFiled(db, u);
      PutOrder(db, r.value.orders[order.id]);
      var db1 := db.(orders := r.value.orders);
      if order.status != Paid {
        PutGrant(db1, r.value.users[u], r.value.subs[u], db.redemptions, r.value.auditLogs);
      } else {
        PutAudits(db1, r.value.auditLogs);
      }
    }
  }

  /** failOrderLocked, cancelOrderLocked and checkout touch an order and the audit log. */
  lemma SoundOrder(db: Db, order: Order, audits: seq<AuditLog>)
    requires Sound(db)
    ensures Sound(db.(orders := db.orders[order.id := order], auditLogs := audits))
  {
    hide Sound;
    PutOrder(db, order);
    PutAudits(db.(orders := db.orders[order.id := order]), audits);
  }

  lemma SoundFail(db: Db, order: Order, now: Time, actor: string, action: AuditAction, reason: string)
    requires Sound(db)
    ensures var r := Fail(db, order, now, actor, action, reason); r.Ok? ==> Sound(r.value)
  {
    hide Sound;
    var r := Fail(db, order, now, actor, action, reason);
    if r.Ok? {
      SoundOrder(db, r.value.orders[order.id], r.value.auditLogs);
    }
  }

  lemma SoundCancel(db: Db, order: Order, now: Time, actor: string, action: AuditAction, reason: string)
    requires Sound(db)
    ensures var r := Cancel(db, order, now, actor, action, reason); r.Ok? ==> Sound(r.value)
  {
    hide Sound;
    var r := Cancel(db, order, now, actor, action, reason);
    if r.Ok? {
      SoundOrder(db, r.value.orders[order.id], r.value.auditLogs);
    }
  }

  lemma SoundRefund(db: Db, order: Order, now: Time, actor: string, action: AuditAction, reason: string)
    requires Sound(db)
    ensures var r := Refund(db, order, now, actor, action, reason); r.Ok? ==> Sound(r.value)
  {
    hide Sound;
    var r := Refund(db, order, now, actor, action, reason);
    if r.Ok? {
      var u := order.userID;
      SoundOrder(db, r.value.orders[order.id], r.value.auditLogs);
      var db1 := db.(orders := r.value.orders, auditLogs := r.value.auditLogs);
      if RefundMatches(db, order) {
        SubOwner(db, u);
        UserFiled(db, u);
        PutGrant(db1, r.value.users[u], r.value.subs[u], db.redemptions, r.value.auditLogs);
      }
    }
  }

  lemma SubOwner(db: Db, u: Id)
    requires Sound(db) && u in db.subs
    ensures u in db.users
  {
  }

  lemma SoundCheckout(db: Db, orderID: Id, userID: Id, slug: string, cycle: string)
    requires Sound(db)
    ensures Sound(Or(Checkout(db, orderID, userID, slug, cycle), db))
  {
    hide Sound, FindPlan;
    var r := Checkout(db, orderID, userID, slug, cycle);
    if r.Ok? {
      SoundOrder(db, r.value.orders[orderID], r.value.auditLogs);
    }
  }

  lemma SoundAnswer(db: Db, orderID: Id, paymentID: string, message: string, now: Time)
    requires Sound(db) && orderID in db.orders
    ensures Sound(AttachPayment(db, orderID, paymentID)) && Sound(RefusePayment(db, orderID, message, now))
  {
    OrderUnderId(db, orderID);
    hide Sound;
    var attached, refused := AttachPayment(db, orderID, paymentID), RefusePayment(db, orderID, message, now);
    SoundOrder(db, attached.orders[orderID], attached.auditLogs);
    SoundOrder(db, refused.orders[orderID], refused.auditLogs);
  }

  lemma OrderUnderId(db: Db, id: Id)
    requires Sound(db) && id in db.orders
    ensures db.orders[id].id == id
  {
  }

  lemma SoundAudited(db: Db, action: AuditAction, id: Id)
    requires Sound(db)
    ensures Sound(Audited(db, SYSTEM, action, id))
  {
    hide Sound;
    PutAudits(db, Audited(db, SYSTEM, action, id).auditLogs);
  }

  lemma SoundOrIgnored(r: Result<Db>, db: Db, action: AuditAction, id: Id)
    requires Sound(db) && Sound(Or(r, db))
    ensures Sound(OrIgnored(r, db, action, id))
  {
    hide Sound, Audited;
    SoundAudited(db, action, id);
  }

  lemma SoundSettle(db: Db, ev: Event, order: Order, now: Time, subID: Id)
    requires Sound(db)
    ensures Sound(Settle(db, ev, order, now, subID))
  {
    hide Sound, Activate, Fail, Cancel, Refund, KindOf, FailureReason, OrIgnored, Audited;
    match KindOf(ev.eventType)
    case Succeeded =>
      SoundActivate(db, order, now, subID, SYSTEM, LogPaymentSucceeded);
      SoundOrIgnored(Activate(db, order, now, subID, SYSTEM, LogPaymentSucceeded), db, LogSucceededIgnored, order.id);
    case CancelledEvent =>
      SoundCancel(db, order, now, SYSTEM, LogPaymentCancelled, ev.cancelReason);
      SoundOrIgnored(Cancel(db, order, now, SYSTEM, LogPaymentCancelled, ev.cancelReason), db, LogCancelledIgnored, order.id);
    case RefundedEvent =>
      SoundRefund(db, order, now, SYSTEM, LogPaymentRefunded, ev.refundReason);
      SoundOrIgnored(Refund(db, order, now, SYSTEM, LogPaymentRefunded, ev.refundReason), db, LogRefundedIgnored, order.id);
    case OtherEvent =>
      SoundAudited(db, LogWebhookIgnored, order.id);
    case _ =>
      SoundFail(db, order, now, SYSTEM, LogPaymentFailed, FailureReason(ev));
      SoundOrIgnored(Fail(db, order, now, SYSTEM, LogPaymentFailed, FailureReason(ev)), db, LogFailedIgnored, order.id);
  }

  lemma SoundWebhook(db: Db, ev: Event, found: Option<Id>, now: Time, subID: Id)
    requires Sound(db) && Found(db, ev, found)
    ensures Sound(Webhook(db, ev, found, now, subID))
  {
    hide Sound, Settle;
    if ev.id !in db.webhooks {
      var marked := db.(webhooks := db.webhooks + {ev.id});
      PutLogs(db, db.plans, db.redemptions, marked.webhooks, db.riskEvents, db.auditLogs);
      if found.Some? {
        SoundSettle(marked, ev, db.orders[found.value], now, subID);
      } else {
        PutAudits(marked, Webhook(db, ev, found, now, subID).auditLogs);
      }
    }
  }

  // ---------------------------------------------------------------- API keys and status

  lemma {:induction false} RevokeFirstOwned(keys: seq<APIKey>, keyID: Id, owner: Id)
    requires KeysOwned(keys, owner)
    ensures KeysOwned(RevokeFirst(keys, keyID), owner) && |RevokeFirst(keys, keyID)| == |keys|
  {
    if keys != [] && keys[0].id != keyID {
      RevokeFirstOwned(keys[1..], keyID, owner);
    }
  }

  lemma KeysFiled(db: Db, u: Id)
    requires Sound(db)
    ensures KeysOwned(KeysOf(db, u), u)
  {
  }

  lemma SoundCreateKey(db: Db, key: APIKey)
    requires Sound(db)
    ensures Sound(Or(CreateKey(db, key), db))
  {
    hide Sound;
    KeysFiled(db, key.userID);
    PutKeys(db, key.userID, KeysOf(db, key.userID) + [key]);
  }

  lemma SoundRevokeKey(db: Db, userID: Id, keyID: Id)
    requires Sound(db)
    ensures Sound(Or(RevokeKey(db, userID, keyID), db))
  {
    hide Sound, RevokeFirst;
    var keys := KeysOf(db, userID);
    KeysFiled(db, userID);
    RevokeFirstOwned(keys, keyID, userID);
    if RevokeKey(db, userID, keyID).Ok? {
      assert |keys| > 0;
      PutKeys(db, userID, RevokeFirst(keys, keyID));
    }
  }

  lemma SoundSetUserStatus(db: Db, userID: Id, banned: bool)
    requires Sound(db)
    ensures Sound(Or(SetUserStatus(db, userID, banned), db))
  {
    hide Sound;
    var r := SetUserStatus(db, userID, banned);
    if r.Ok? {
      UserFiled(db, userID);
      KeysFiled(db, userID);
      PutUser(db, r.value.users[userID]);
      var db1 := db.(users := r.value.users);
      if banned && KeysOf(db, userID) != [] {
        PutKeys(db1, userID, RevokeAll(KeysOf(db, userID)));
      }
      PutAudits(db1.(apiKeys := r.value.apiKeys), r.value.auditLogs);
    }
  }

  lemma SoundUseKey(db: Db, secretHash: string, found: Option<KeyAt>, required: seq<string>, now: Time)
    requires Sound(db) && FoundKey(db, secretHash, found)
    ensures Sound(Or(UseKey(db, found, required, now), db))
  {
    hide Sound, Entitlement, CheckUsage;
    var r := UseKey(db, found, required, now);
    if r.Ok? {
      var u := found.value.userID;
      KeysFiled(db, u);
      PutKeys(db, u, r.value.apiKeys[u]);
      PutUsage(db.(apiKeys := r.value.apiKeys), u, r.value.usage[u]);
    }
  }

  lemma SoundDeliver(db: Db, userID: Id, bytesSent: nat)
    requires Sound(db)
    ensures Sound(Or(Deliver(db, userID, bytesSent), db))
  {
    hide Sound, FindPlan, CheckUsage;
    var r := Deliver(db, userID, bytesSent);
    if r.Ok? {
      PutUsage(db, userID, r.value.usage[userID]);
    }
  }

  // ---------------------------------------------------------------- images

  /** Replacing an image, its owner's usage and the logs: the shape of most image handlers. */
  lemma PutStored(db: Db, image: Image, usage: Usage, risks: seq<RiskEvent>, audits: seq<AuditLog>)
    requires Sound(db) && image.userID in db.users
    ensures Sound(db.(images := db.images[image.publicID := image], usage := db.usage[image.userID := usage],
                      riskEvents := risks, auditLogs := audits))
  {
    hide Sound;
    PutImage(db, image);
    var db1 := db.(images := db.images[image.publicID := image]);
    PutUsage(db1, image.userID, usage);
    var db2 := db1.(usage := db.usage[image.userID := usage]);
    PutLogs(db2, db.plans, db.redemptions, db.webhooks, risks, audits);
  }

  lemma ImageFiled(db: Db, publicID: Id)
    requires Sound(db) && publicID in db.images
    ensures db.images[publicID].publicID == publicID && db.images[publicID].userID in db.users
  {
  }

  lemma SoundUpload(db: Db, image: Image)
    requires Sound(db) && image.userID in db.users
    ensures Sound(Upload(db, image))
  {
    hide Sound, VariantBytes;
    PutStored(db, image, Upload(db, image).usage[image.userID], db.riskEvents, db.auditLogs);
  }

  lemma RefreshedKeeps(db: Db, current: Image, p: Processed, blockedHashes: seq<string>)
    ensures var next := Refreshed(db, current, p, blockedHashes);
      && next.publicID == current.publicID && next.userID == current.userID && next.bytes == current.bytes
      && next.objectKey == current.objectKey && next.variants == Merge(current.variants, p.variants)
      && (next.status == current.status || next.status == ImageFrozen)
  {
  }

  lemma SoundProcess(db: Db, publicID: Id, p: Processed, blockedHashes: seq<string>)
    requires Sound(db)
    ensures Sound(Or(Process(db, publicID, p, blockedHashes), db))
  {
    hide Sound, Refreshed, VariantBytes, Adjusted, FileProcessed;
    if publicID in db.images && db.images[publicID].status == ImageActive {
      var current := db.images[publicID];
      ImageFiled(db, publicID);
      RefreshedKeeps(db, current, p, blockedHashes);
      var next := Refreshed(db, current, p, blockedHashes);
      SoundFiled(db, next, Adjusted(UsageOf(db, current.userID), VariantBytes(current.variants), VariantBytes(next.variants)));
    }
  }

  lemma SoundFiled(db: Db, image: Image, usage: Usage)
    requires Sound(db) && image.userID in db.users
    ensures Sound(FileProcessed(db, image, usage))
  {
    hide Sound;
    var r := FileProcessed(db, image, usage);
    PutStored(db, image, usage, r.riskEvents, r.auditLogs);
  }

  lemma SoundRemove(db: Db, publicID: Id)
    requires Sound(db) && publicID in db.images
    ensures Sound(Remove(db, publicID))
  {
    hide Sound, VariantBytes;
    ImageFiled(db, publicID);
    var r := Remove(db, publicID);
    PutStored(db, r.images[publicID], r.usage[r.images[publicID].userID], db.riskEvents, db.auditLogs);
  }

  lemma SoundAdminDelete(db: Db, publicID: Id)
    requires Sound(db)
    ensures Sound(Or(AdminDelete(db, publicID), db))
  {
    hide Sound, Remove;
    if publicID in db.images {
      SoundRemove(db, publicID);
      PutAudits(Remove(db, publicID), AdminDelete(db, publicID).value.auditLogs);
    }
  }

  lemma SoundAdminFreeze(db: Db, publicID: Id, reason: string)
    requires Sound(db)
    ensures Sound(Or(AdminFreeze(db, publicID, reason), db))
  {
    hide Sound;
    if publicID in db.images {
      ImageFiled(db, publicID);
      var r := AdminFreeze(db, publicID, reason).value;
      PutImage(db, r.images[publicID]);
      PutAudits(db.(images := r.images), r.auditLogs);
    }
  }

  lemma SoundSetPrivacy(db: Db, publicID: Id, userID: Id, isPrivate: bool)
    requires Sound(db)
    ensures Sound(Or(SetPrivacy(db, publicID, userID, isPrivate), db))
  {
    hide Sound;
    if publicID in db.images {
      ImageFiled(db, publicID);
      PutImage(db, db.images[publicID].(isPrivate := isPrivate));
    }
  }

  lemma PurgeUsers(users: map<Id, User>, doomed: set<Id>)
    requires KeyedBy(users, UserKey)
    ensures KeyedBy(ClearPlans(users, doomed), UserKey) && ClearPlans(users, doomed).Keys == users.Keys
    ensures forall u <- users :: ClearPlans(users, doomed)[u].email == users[u].email
  {
  }

  lemma PurgeSubs(subs: map<Id, Subscription>, doomed: set<Id>)
    requires KeyedBy(subs, SubKey)
    ensures KeyedBy(MarkDeleted(subs, doomed), SubKey) && MarkDeleted(subs, doomed).Keys == subs.Keys
  {
  }

  lemma PurgeImages(images: map<Id, Image>, doomed: set<Id>)
    requires KeyedBy(images, ImageKey)
    ensures KeyedBy(DropImages(images, doomed), ImageKey) && DropImages(images, doomed).Keys == images.Keys
    ensures forall p <- images :: DropImages(images, doomed)[p].userID == images[p].userID
  {
  }

  lemma ClearKeys(usage: map<Id, Usage>, doomed: set<Id>)
    ensures ClearUsage(usage, doomed).Keys == usage.Keys + doomed
  {
  }

  lemma SoundPurge(db: Db, now: Time, order: seq<Id>)
    requires Sound(db)
    ensures Sound(Purge(db, now, order))
  {
    hide MarkDeleted, DropImages, ClearUsage, ClearPlans, KeyedBy, APIKeysKeyed;
    var doomed := Doomed(db, now);
    PurgeUsers(db.users, doomed);
    PurgeSubs(db.subs, doomed);
    PurgeImages(db.images, doomed);
    ClearKeys(db.usage, doomed);
  }

  lemma {:induction false} SoundImport(db: Db, userID: Id, images: seq<Image>)
    requires Sound(db) && userID in db.users
    requires forall i :: 0 <= i < |images| ==> images[i].userID == userID
    ensures Sound(ImportImages(db, userID, images))
    decreases |images|
  {
    hide Sound;
    if images != [] {
      var image := images[0];
      var next := ImportOne(db, userID, image);
      PutStored(db, image, next.usage[userID], db.riskEvents, next.auditLogs);
      SoundImport(next, userID, images[1..]);
    }
  }

  lemma SoundDeleteImage(db: Db, publicID: Id, userID: Id)
    requires Sound(db)
    ensures Sound(Or(DeleteImage(db, publicID, userID), db))
  {
    hide Sound, Remove;
    if publicID in db.images {
      SoundRemove(db, publicID);
    }
  }

  lemma SoundUpsertPlan(db: Db, plan: Plan)
    requires Sound(db)
    ensures Sound(UpsertPlan(db, plan))
  {
    hide Sound, PlanIndex;
    var i := PlanIndex(db.plans, plan.slug);
    var plans := if i < |db.plans| then db.plans[i := plan] else db.plans + [plan];
    PutLogs(db, plans, db.redemptions, db.webhooks, db.riskEvents, db.auditLogs);
    PutAudits(db.(plans := plans), UpsertPlan(db, plan).auditLogs);
  }

  lemma SoundMarkPaid(db: Db, orderID: Id, reason: string, now: Time, subID: Id)
    requires Sound(db)
    ensures Sound(Or(MarkPaid(db, orderID, reason, now, subID), db))
  {
    hide Sound, Activate;
    if orderID in db.orders {
      SoundActivate(db, db.orders[orderID].(operatorNote := TrimSpace(reason)), now, subID, ADMIN, LogMarkPaid);
    }
  }

  lemma SoundAdminCancel(db: Db, orderID: Id, reason: string, now: Time)
    requires Sound(db)
    ensures Sound(Or(AdminCancel(db, orderID, reason, now), db))
  {
    hide Sound, Cancel;
    if orderID in db.orders {
      SoundCancel(db, db.orders[orderID].(operatorNote := TrimSpace(reason)), now, ADMIN, LogOrderCancel, TrimSpace(reason));
    }
  }

  lemma SoundAdminRefund(db: Db, orderID: Id, reason: string, now: Time)
    requires Sound(db)
    ensures Sound(Or(AdminRefund(db, orderID, reason, now), db))
  {
    hide Sound, Refund;
    if orderID in db.orders {
      SoundRefund(db, db.orders[orderID].(operatorNote := TrimSpace(reason)), now, ADMIN, LogOrderRefund, TrimSpace(reason));
    }
  }

  /** Every handler keeps the state sound. */
  lemma SoundEffect(db: Db, s: Step)
    requires Sound(db) && Legal(db, s)
    ensures Sound(Effect(db, s))
  {
    hide Sound, Register, OAuthLogin, VerifyEmail, UpdateProfile, CreateKey, RevokeKey, SetUserStatus, UpsertPlan, GrantPlan,
      ExpireSubscription, CreateInvite, RedeemInvite, Checkout, AttachPayment, RefusePayment, Webhook, MarkPaid, AdminCancel, AdminRefund, Upload,
      Process, DeleteImage, AdminDelete, AdminFreeze, SetPrivacy, Purge, ImportImages, Deliver, UseKey, Or;
    match s.action
    case DoRegister(userID, rawEmail, nickname, subID) => SoundRegister(db, userID, rawEmail, nickname, subID, s.now);
    case DoOAuthLogin(found, userID, rawEmail, nickname, verified, subID) =>
      SoundOAuthLogin(db, found, userID, rawEmail, nickname, verified, subID, s.now);
    case DoVerifyEmail(userID) => SoundEdits(db, userID, "");
    case DoUpdateProfile(userID, nickname) => SoundEdits(db, userID, nickname);
    case DoCreateKey(key) => SoundCreateKey(db, key);
    case DoRevokeKey(userID, keyID) => SoundRevokeKey(db, userID, keyID);
    case DoSetUserStatus(userID, banned) => SoundSetUserStatus(db, userID, banned);
    case DoUpsertPlan(plan) => SoundUpsertPlan(db, plan);
    case DoGrantPlan(found, name, slug, days, reason, subID) => SoundGrantPlan(db, found, name, slug, days, reason, subID, s.now);
    case DoExpire(userID, reason, days, deleteNow) => SoundExpire(db, userID, reason, days, deleteNow, s.now);
    case DoCreateInvite(c) => SoundCreateInvite(db, c);
    case DoRedeem(code, userID, ip, device, isNew, redemptionID, subID) =>
      SoundRedeem(db, code, userID, ip, device, isNew, redemptionID, subID, s.now);
    case DoCheckout(orderID, userID, slug, cycle) => SoundCheckout(db, orderID, userID, slug, cycle);
    case DoAttachPayment(orderID, paymentID) => SoundAnswer(db, orderID, paymentID, "", s.now);
    case DoRefusePayment(orderID, message) => SoundAnswer(db, orderID, "", message, s.now);
    case DoWebhook(ev, found, subID) => SoundWebhook(db, ev, found, s.now, subID);
    case DoMarkPaid(orderID, reason, subID) => SoundMarkPaid(db, orderID, reason, s.now, subID);
    case DoCancel(orderID, reason) => SoundAdminCancel(db, orderID, reason, s.now);
    case DoRefund(orderID, reason) => SoundAdminRefund(db, orderID, reason, s.now);
    case DoUpload(image) => SoundUpload(db, image);
    case DoProcess(publicID, p, blockedHashes) => SoundProcess(db, publicID, p, blockedHashes);
    case DoDeleteImage(publicID, userID) => SoundDeleteImage(db, publicID, userID);
    case DoAdminDelete(publicID) => SoundAdminDelete(db, publicID);
    case DoAdminFreeze(publicID, reason) => SoundAdminFreeze(db, publicID, reason);
    case DoSetPrivacy(publicID, userID, isPrivate) => SoundSetPrivacy(db, publicID, userID, isPrivate);
    case DoPurge(order) => SoundPurge(db, s.now, order);
    case DoImport(userID, images) => SoundImport(db, userID, images);
    case DoDeliver(userID, bytesSent) => SoundDeliver(db, userID, bytesSent);
    case DoUseKey(secretHash, keyAt, required) => SoundUseKey(db, secretHash, keyAt, required, s.now);
  }

  /** So does every step, whether its save succeeds or not. */
  lemma SoundNext(db: Db, s: Step)
    requires Sound(db) && Legal(db, s)
    ensures Sound(Next(db, s))
  {
    hide Sound, Effect, Legal;
    SoundEffect(db, s);
  }

  /** Hence every reachable state is sound, and in particular every record is filed under the key it carries. */
  lemma {:induction false} SoundRun(db: Db, clock: Time, steps: seq<Step>)
    requires Sound(db) && LegalRun(db, clock, steps)
    ensures Sound(Run(db, clock, steps))
    decreases |steps|
  {
    hide Sound, Next, Legal;
    if steps != [] {
      SoundNext(db, steps[0]);
      SoundRun(Next(db, steps[0]), steps[0].now, steps[1..]);
    }
  }
}
