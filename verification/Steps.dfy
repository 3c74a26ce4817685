/** What the state shows after each saved step, in terms of its records. */
module StepOutcomes {
  import opened Text
  import opened Domain
  import opened Db
  import opened Orders
  import opened Handlers
  import opened Actions
  import opened Soundness
  import opened PaymentRuns
  import opened InviteRuns
  import opened AccountOutcomes
  import opened ImageOutcomes
  import opened OrderOutcomes
  import Billing

  lemma AccountEffects(db: Db, s: Step)
    requires Legal(db, s) && s.saved
    ensures s.action.DoVerifyEmail? ==> Next(db, s) == Or(VerifyEmail(db, s.action.userID), db)
    ensures s.action.DoUpdateProfile? ==> Next(db, s) == Or(UpdateProfile(db, s.action.userID, s.action.nickname), db)
    ensures s.action.DoCreateKey? ==> Next(db, s) == Or(CreateKey(db, s.action.key), db)
    ensures s.action.DoRevokeKey? ==> Next(db, s) == Or(RevokeKey(db, s.action.userID, s.action.keyID), db)
    ensures s.action.DoSetUserStatus? ==> Next(db, s) == Or(SetUserStatus(db, s.action.userID, s.action.banned), db)
  {
    hide VerifyEmail, UpdateProfile, CreateKey, RevokeKey, SetUserStatus, Or;
  }

  /** Accounts: verified, renamed, given a key, a key taken away, banned or not. */
  ghost predicate AccountShows(db: Db, a: Action, next: Db) {
    match a
    case DoVerifyEmail(u) => u in db.users ==> u in next.users && next.users[u].emailVerified
    case DoUpdateProfile(u, name) =>
      u in db.users && 1 <= |TrimSpace(name)| <= 40 ==> u in next.users && next.users[u].nickname == TrimSpace(name)
    case DoCreateKey(key) =>
      key.userID in db.users && db.users[key.userID].emailVerified ==> KeysOf(next, key.userID) == KeysOf(db, key.userID) + [key]
    case DoRevokeKey(u, keyID) =>
      forall i: nat :: FirstKey(KeysOf(db, u), keyID, i) ==> i < |KeysOf(next, u)| && KeysOf(next, u)[i].revoked
    case DoSetUserStatus(u, banned) => u in db.users ==> u in next.users && next.users[u].banned == banned
    case _ => true
  }

  lemma RevokedAt(db: Db, u: Id, keyID: Id, i: nat)
    requires FirstKey(KeysOf(db, u), keyID, i)
    ensures var next := Or(RevokeKey(db, u, keyID), db); i < |KeysOf(next, u)| && KeysOf(next, u)[i].revoked
  {
    hide RevokeKey;
    RevokeKeyExact(db, u, keyID);
    var keys := KeysOf(db, u);
    assert RevokeKey(db, u, keyID).value.apiKeys == db.apiKeys[u := keys[i := keys[i].(revoked := true, secret := "")]];
  }

  lemma RevokeShows(db: Db, u: Id, keyID: Id)
    ensures AccountShows(db, DoRevokeKey(u, keyID), Or(RevokeKey(db, u, keyID), db))
  {
    hide RevokeKey, FirstKey, KeysOf, Or;
    forall i: nat | FirstKey(KeysOf(db, u), keyID, i)
      ensures var next := Or(RevokeKey(db, u, keyID), db); i < |KeysOf(next, u)| && KeysOf(next, u)[i].revoked
    {
      RevokedAt(db, u, keyID, i);
    }
  }

  lemma EditShows(db: Db, u: Id, name: string)
    requires Sound(db)
    ensures AccountShows(db, DoVerifyEmail(u), Or(VerifyEmail(db, u), db))
    ensures AccountShows(db, DoUpdateProfile(u, name), Or(UpdateProfile(db, u, name), db))
  {
    hide VerifyEmail, UpdateProfile, Sound, TrimSpace;
    UserKnown(db, u);
    ProfileExact(db, u, name);
  }

  lemma KeyShows(db: Db, key: APIKey, u: Id, banned: bool)
    ensures AccountShows(db, DoCreateKey(key), Or(CreateKey(db, key), db))
    ensures AccountShows(db, DoSetUserStatus(u, banned), Or(SetUserStatus(db, u, banned), db))
  {
    hide CreateKey, SetUserStatus;
    CreateKeyExact(db, key);
    StatusExact(db, u, banned);
  }

  const NO_KEY := APIKey("", "", "", "", [], false, None)

  lemma AccountSteps(db: Db, s: Step)
    requires Sound(db) && Legal(db, s) && s.saved
    ensures AccountShows(db, s.action, Next(db, s))
  {
    hide VerifyEmail, UpdateProfile, CreateKey, RevokeKey, SetUserStatus, Or, Sound, Legal, Next, AccountShows;
    AccountEffects(db, s);
    match s.action
    case DoVerifyEmail(u) => EditShows(db, u, "");
    case DoUpdateProfile(u, name) => EditShows(db, u, name);
    case DoCreateKey(key) => KeyShows(db, key, "", false);
    case DoRevokeKey(u, keyID) => RevokeShows(db, u, keyID);
    case DoSetUserStatus(u, banned) => KeyShows(db, NO_KEY, u, banned);
    case _ => OtherAccount(db, s.action, Next(db, s));
  }

  lemma OtherAccount(db: Db, a: Action, next: Db)
    requires !a.DoVerifyEmail? && !a.DoUpdateProfile? && !a.DoCreateKey? && !a.DoRevokeKey? && !a.DoSetUserStatus?
    ensures AccountShows(db, a, next)
  {
  }

  lemma GrantEffects(db: Db, s: Step)
    requires Legal(db, s) && s.saved
    ensures s.action.DoUpsertPlan? ==> Next(db, s) == UpsertPlan(db, s.action.plan)
    ensures s.action.DoGrantPlan? && s.action.found.Some? ==> s.action.found.value in db.users
    ensures s.action.DoGrantPlan? ==>
      Next(db, s) == Or(GrantPlan(db, s.action.found, s.action.slug, s.action.days, s.action.reason, s.action.subID, s.now), db)
    ensures s.action.DoExpire? ==>
      Next(db, s) == Or(ExpireSubscription(db, s.action.userID, s.action.reason, s.action.retentionDays, s.action.deleteNow, s.now), db)
    ensures s.action.DoCreateInvite? ==> Next(db, s) == Or(CreateInvite(db, s.action.campaign), db)
  {
    hide UpsertPlan, GrantPlan, ExpireSubscription, CreateInvite, Or;
  }

  /** Plans and grants: on sale, given, ended, offered. */
  ghost predicate GrantShows(db: Db, a: Action, now: Time, next: Db) {
    match a
    case DoUpsertPlan(plan) => exists i: nat :: FirstPlan(next.plans, plan.slug, i) && next.plans[i] == plan
    case DoGrantPlan(found, _, slug, days, reason, subID) =>
      found.Some? && 0 < days <= 106_751 && slug != "infinite-max" && (exists i: nat :: FirstPlan(db.plans, slug, i)) ==>
        found.value in next.subs && Lasts(next.subs[found.value], subID, found.value, slug, now, days)
    case DoExpire(u, reason, days, deleteNow) =>
      TrimSpace(reason) != "" && days <= 365 && u in db.users && u in db.subs ==>
        u in next.subs && forall t :: t >= now ==> next.subs[u].EffectiveStatus(t) != SubActive
    case DoCreateInvite(c) =>
      c.name != "" && c.planSlug != "" && c.planSlug != "infinite-max" && c.grantDays > 0 && c.code !in db.invites
      && (exists i: nat :: FirstPlan(db.plans, c.planSlug, i)) ==>
        c.code in next.invites && next.invites[c.code] == c
    case _ => true
  }

  lemma GrantSteps(db: Db, s: Step)
    requires Sound(db) && Legal(db, s) && s.saved
    ensures GrantShows(db, s.action, s.now, Next(db, s))
  {
    hide UpsertPlan, GrantPlan, ExpireSubscription, CreateInvite, Sound, Legal, Next, TrimSpace, FirstPlan, Lasts;
    GrantEffects(db, s);
    match s.action
    case DoUpsertPlan(plan) => UpsertNames(db, plan);
    case DoGrantPlan(found, _, slug, days, reason, subID) =>
      if found.Some? {
        UserKnown(db, found.value);
      }
      GrantExact(db, found, slug, days, reason, subID, s.now);
    case DoExpire(u, reason, days, deleteNow) => UserKnown(db, u); ExpireExact(db, u, reason, days, deleteNow, s.now);
    case DoCreateInvite(c) => CampaignExact(db, c);
    case _ =>
  }

  lemma UpsertNames(db: Db, plan: Plan)
    ensures exists i: nat :: FirstPlan(UpsertPlan(db, plan).plans, plan.slug, i) && UpsertPlan(db, plan).plans[i] == plan
  {
    hide UpsertPlan, FirstPlan;
    UpsertExact(db, plan, plan.slug, 0);
    var k: nat :| FirstPlan(UpsertPlan(db, plan).plans, plan.slug, k);
    UpsertExact(db, plan, plan.slug, k);
    FirstThere(UpsertPlan(db, plan).plans, plan.slug, k);
  }

  lemma FirstThere(plans: seq<Plan>, slug: string, k: nat)
    requires FirstPlan(plans, slug, k)
    ensures k < |plans|
  {
  }

  lemma OrderEffects(db: Db, s: Step)
    requires Legal(db, s) && s.saved
    ensures s.action.DoCheckout? ==>
      Next(db, s) == Or(Checkout(db, s.action.orderID, s.action.userID, s.action.slug, s.action.cycle), db)
    ensures s.action.DoAttachPayment? ==> s.action.orderID in db.orders && Next(db, s) == AttachPayment(db, s.action.orderID, s.action.paymentID)
    ensures s.action.DoRefusePayment? ==>
      s.action.orderID in db.orders && Next(db, s) == RefusePayment(db, s.action.orderID, s.action.message, s.now)
    ensures s.action.DoCancel? ==> Next(db, s) == Or(AdminCancel(db, s.action.orderID, s.action.reason, s.now), db)
    ensures s.action.DoRefund? ==> Next(db, s) == Or(AdminRefund(db, s.action.orderID, s.action.reason, s.now), db)
  {
    hide Checkout, AttachPayment, RefusePayment, AdminCancel, AdminRefund, Or;
  }

  /** Orders: opened, answered, cancelled, refunded; PaymentBuys tells of payments and EventsSettle of events. */
  ghost predicate OrderShows(db: Db, a: Action, now: Time, next: Db) {
    match a
    case DoCheckout(id, u, slug, cycle) =>
      u in db.users && db.users[u].emailVerified && IsCycle(cycle) && (exists i: nat :: ForSale(db.plans, slug, i)) ==>
        id in next.orders && next.orders[id].status == Pending && next.orders[id].userID == u
    case DoAttachPayment(id, paymentID) => id in next.orders && next.orders[id].paymentID == paymentID
    case DoRefusePayment(id, message) => id in next.orders && next.orders[id].status == Failed && next.orders[id].operatorNote == message
    case DoCancel(id, reason) =>
      TrimSpace(reason) != "" && id in db.orders && Open(db.orders[id]) ==> Becomes(db, next, id, Cancelled)
    case DoRefund(id, reason) =>
      TrimSpace(reason) != "" && id in db.orders && db.orders[id].status == Paid ==> PaysBack(db, next, id, now)
    case _ => true
  }

  lemma OrderSteps(db: Db, s: Step)
    requires Sound(db) && Legal(db, s) && s.saved
    ensures OrderShows(db, s.action, s.now, Next(db, s))
  {
    hide Checkout, AttachPayment, RefusePayment, AdminCancel, AdminRefund, Sound, Legal, Next, TrimSpace, IsCycle, ForSale, Becomes,
      PaysBack, Buys, Days;
    OrderEffects(db, s);
    match s.action
    case DoCheckout(id, u, slug, cycle) => CheckoutExact(db, id, u, slug, cycle);
    case DoAttachPayment(id, paymentID) => Billing.OrderFiled(db, id); AnswersExact(db, id, paymentID, "", s.now);
    case DoRefusePayment(id, message) => Billing.OrderFiled(db, id); AnswersExact(db, id, "", message, s.now);
    case DoCancel(id, reason) => AdminExact(db, id, reason, s.now, "");
    case DoRefund(id, reason) => AdminExact(db, id, reason, s.now, "");
    case _ =>
  }

  lemma ImageEffects(db: Db, s: Step)
    requires Legal(db, s) && s.saved
    ensures s.action.DoUpload? ==> Next(db, s) == Upload(db, s.action.image)
    ensures s.action.DoProcess? ==> Next(db, s) == Or(Process(db, s.action.publicID, s.action.processed, s.action.blockedHashes), db)
    ensures s.action.DoDeleteImage? ==> Next(db, s) == Or(DeleteImage(db, s.action.publicID, s.action.userID), db)
    ensures s.action.DoAdminDelete? ==> Next(db, s) == Or(AdminDelete(db, s.action.publicID), db)
    ensures s.action.DoAdminFreeze? ==> Next(db, s) == Or(AdminFreeze(db, s.action.publicID, s.action.reason), db)
    ensures s.action.DoSetPrivacy? ==> Next(db, s) == Or(SetPrivacy(db, s.action.publicID, s.action.userID, s.action.isPrivate), db)
  {
    hide Upload, Process, DeleteImage, AdminDelete, AdminFreeze, SetPrivacy, Or, FreshImage;
  }

  /** Images: there, refreshed, deleted, frozen, hidden or shown. */
  predicate ImageShows(db: Db, a: Action, next: Db) {
    match a
    case DoUpload(image) => image.publicID in next.images && next.images[image.publicID] == image
    case DoProcess(p, processed, blockedHashes) =>
      p in db.images && db.images[p].status == ImageActive ==>
        p in next.images && Refreshes(db, db.images[p], processed, blockedHashes, next.images[p])
    case DoDeleteImage(p, u) =>
      p in db.images && db.images[p].userID == u && db.images[p].status != ImageDeleted ==>
        p in next.images && next.images[p] == db.images[p].(status := ImageDeleted)
    case DoAdminDelete(p) => p in db.images ==> p in next.images && next.images[p] == db.images[p].(status := ImageDeleted)
    case DoAdminFreeze(p, reason) => p in db.images ==> p in next.images && next.images[p].status == ImageFrozen
    case DoSetPrivacy(p, u, isPrivate) =>
      p in db.images && db.images[p].userID == u && db.images[p].status != ImageDeleted ==>
        p in next.images && next.images[p] == db.images[p].(isPrivate := isPrivate)
    case _ => true
  }

  lemma FilesShows(db: Db, next: Db, image: Image, storageBytes: int, events: int)
    requires Files(db, next, image, storageBytes, events)
    ensures image.publicID in next.images && next.images[image.publicID] == image
  {
  }

  lemma DeletedShows(db: Db, p: Id, u: Id)
    requires Sound(db)
    ensures ImageShows(db, DoDeleteImage(p, u), Or(DeleteImage(db, p, u), db))
    ensures ImageShows(db, DoAdminDelete(p), Or(AdminDelete(db, p), db))
  {
    hide DeleteImage, AdminDelete, Sound, Files, StorageAt, Less;
    ImageKnown(db, p);
    DeleteExact(db, p, u);
    if p in db.images {
      var gone := db.images[p].(status := ImageDeleted);
      FilesShows(db, AdminDelete(db, p).value, gone, Less(StorageAt(db, db.images[p].userID), db.images[p]), 0);
      if DeleteImage(db, p, u).Ok? {
        FilesShows(db, DeleteImage(db, p, u).value, gone, Less(StorageAt(db, u), db.images[p]), 0);
      }
    }
  }

  lemma FlagsShow(db: Db, p: Id, u: Id, reason: string, isPrivate: bool)
    ensures ImageShows(db, DoAdminFreeze(p, reason), Or(AdminFreeze(db, p, reason), db))
    ensures ImageShows(db, DoSetPrivacy(p, u, isPrivate), Or(SetPrivacy(db, p, u, isPrivate), db))
  {
    hide AdminFreeze, SetPrivacy, TrimSpace;
    FlagsExact(db, p, u, reason, isPrivate);
  }

  lemma ImageSteps(db: Db, s: Step)
    requires Sound(db) && Legal(db, s) && s.saved
    ensures ImageShows(db, s.action, Next(db, s))
  {
    hide Upload, Process, DeleteImage, AdminDelete, AdminFreeze, SetPrivacy, Or, Sound, Legal, Next, ImageShows;
    ImageEffects(db, s);
    match s.action
    case DoUpload(image) => UploadShows(db, image);
    case DoProcess(p, processed, blockedHashes) => ProcessShows(db, p, processed, blockedHashes);
    case DoDeleteImage(p, u) => DeletedShows(db, p, u);
    case DoAdminDelete(p) => DeletedShows(db, p, "");
    case DoAdminFreeze(p, reason) => FlagsShow(db, p, "", reason, false);
    case DoSetPrivacy(p, u, isPrivate) => FlagsShow(db, p, u, "", isPrivate);
    case _ => OtherShows(db, s.action, Next(db, s));
  }

  lemma OtherShows(db: Db, a: Action, next: Db)
    requires !a.DoUpload? && !a.DoProcess? && !a.DoDeleteImage? && !a.DoAdminDelete? && !a.DoAdminFreeze? && !a.DoSetPrivacy?
    ensures ImageShows(db, a, next)
  {
  }

  lemma UploadShows(db: Db, image: Image)
    ensures ImageShows(db, DoUpload(image), Upload(db, image))
  {
    hide Upload;
    UploadExact(db, image);
  }

  lemma ProcessShows(db: Db, p: Id, processed: Processed, blockedHashes: seq<string>)
    requires Sound(db)
    ensures ImageShows(db, DoProcess(p, processed, blockedHashes), Or(Process(db, p, processed, blockedHashes), db))
  {
    hide Process, Refreshes, Files, Sound;
    ImageKnown(db, p);
    ProcessExact(db, p, processed, blockedHashes);
  }

  lemma ImageKnown(db: Db, p: Id)
    requires Sound(db)
    ensures p in db.images ==> db.images[p].publicID == p
  {
  }

  lemma UserKnown(db: Db, u: Id)
    requires Sound(db)
    ensures u in db.users ==> db.users[u].id == u
  {
    if u in db.users {
      UserFiled(db, u);
    }
  }

  /** A step whose save fails leaves the state as it was, but for the two handlers that take no snapshot: processing, and
      the answer that a payment was created, keep their writes in memory. */
  lemma UnsavedStep(db: Db, s: Step)
    requires Legal(db, s) && !s.saved
    ensures s.action.DoProcess? ==> Next(db, s) == Or(Process(db, s.action.publicID, s.action.processed, s.action.blockedHashes), db)
    ensures s.action.DoAttachPayment? ==> s.action.orderID in db.orders && Next(db, s) == AttachPayment(db, s.action.orderID, s.action.paymentID)
    ensures !s.action.DoProcess? && !s.action.DoAttachPayment? ==> Next(db, s) == db
  {
    hide Process, AttachPayment, Or;
  }
}
