/** One step of the service: a handler, its clock and whether the save that follows it succeeds. */
module Actions {
  import opened Text
  import opened Domain
  import opened Db
  import opened Orders
  import opened Handlers

  datatype Action =
    | DoRegister(userID: Id, rawEmail: string, nickname: string, subID: Id)
    | DoOAuthLogin(found: Option<Id>, userID: Id, rawEmail: string, nickname: string, verified: bool, subID: Id)
    | DoVerifyEmail(userID: Id)
    | DoUpdateProfile(userID: Id, nickname: string)
    | DoCreateKey(key: APIKey)
    | DoRevokeKey(userID: Id, keyID: Id)
    | DoSetUserStatus(userID: Id, banned: bool)
    | DoUpsertPlan(plan: Plan)
    | DoGrantPlan(found: Option<Id>, name: string, slug: string, days: int, reason: string, subID: Id)
    | DoExpire(userID: Id, reason: string, retentionDays: int, deleteNow: bool)
    | DoCreateInvite(campaign: InviteCampaign)
    | DoRedeem(code: string, userID: Id, ip: string, device: string, isNewUser: bool, redemptionID: Id, subID: Id)
    | DoCheckout(orderID: Id, userID: Id, slug: string, cycle: string)
    | DoAttachPayment(orderID: Id, paymentID: string)
    | DoRefusePayment(orderID: Id, message: string)
    | DoWebhook(ev: Event, found: Option<Id>, subID: Id)
    | DoMarkPaid(orderID: Id, reason: string, subID: Id)
    | DoCancel(orderID: Id, reason: string)
    | DoRefund(orderID: Id, reason: string)
    | DoUpload(image: Image)
    | DoProcess(publicID: Id, processed: Processed, blockedHashes: seq<string>)
    | DoDeleteImage(publicID: Id, userID: Id)
    | DoAdminDelete(publicID: Id)
    | DoAdminFreeze(publicID: Id, reason: string)
    | DoSetPrivacy(publicID: Id, userID: Id, isPrivate: bool)
    | DoPurge(order: seq<Id>)
    | DoImport(userID: Id, images: seq<Image>)
    | DoDeliver(userID: Id, bytesSent: nat)
    | DoUseKey(secretHash: string, keyAt: Option<KeyAt>, required: seq<string>)

  datatype Step = Step(action: Action, now: Time, saved: bool)

  /** An image as uploadImage files it. */
  predicate FreshImage(db: Db, image: Image) {
    image.publicID !in db.images && image.userID in db.users && image.status == ImageActive
  }

  predicate FreshImports(db: Db, userID: Id, images: seq<Image>) {
    && userID in db.users
    && (forall i :: 0 <= i < |images| ==> FreshImage(db, images[i]) && images[i].userID == userID && images[i].variants == [])
    && (forall i, j :: 0 <= i < j < |images| ==> images[i].publicID != images[j].publicID)
  }

  /** What a step may rely on: new uuids are fresh, a search found what there is to find, uploads and
      imports belong to existing users, a payment is answered for an order that was opened. */
  ghost predicate Legal(db: Db, s: Step) {
    match s.action
    case DoRegister(userID, _, _, _) => userID !in db.users
    case DoOAuthLogin(found, userID, rawEmail, _, _, _) => userID !in db.users && FoundByEmail(db, Normalize(rawEmail), found)
    case DoGrantPlan(found, name, _, _, _, _) => FoundUser(db, name, found)
    case DoCheckout(orderID, _, _, _) => orderID !in db.orders
    case DoAttachPayment(orderID, _) => orderID in db.orders
    case DoRefusePayment(orderID, _) => orderID in db.orders
    case DoWebhook(ev, found, _) => Found(db, ev, found)
    case DoUpload(image) => FreshImage(db, image)
    case DoPurge(order) => Enumerates(order, Doomed(db, s.now))
    case DoImport(userID, images) => FreshImports(db, userID, images)
    case DoUseKey(secretHash, found, _) => FoundKey(db, secretHash, found)
    case _ => true
  }

  function Or(r: Result<Db>, db: Db): Db {
    if r.Ok? then r.value else db
  }

  /** The state a handler leaves when its save succeeds. */
  ghost function Effect(db: Db, s: Step): Db
    requires Legal(db, s)
  {
    match s.action
    case DoRegister(userID, rawEmail, nickname, subID) => Or(Register(db, userID, rawEmail, nickname, subID, s.now), db)
    case DoOAuthLogin(found, userID, rawEmail, nickname, verified, subID) =>
      OAuthLogin(db, found, userID, rawEmail, nickname, verified, subID, s.now)
    case DoVerifyEmail(userID) => Or(VerifyEmail(db, userID), db)
    case DoUpdateProfile(userID, nickname) => Or(UpdateProfile(db, userID, nickname), db)
    case DoCreateKey(key) => Or(CreateKey(db, key), db)
    case DoRevokeKey(userID, keyID) => Or(RevokeKey(db, userID, keyID), db)
    case DoSetUserStatus(userID, banned) => Or(SetUserStatus(db, userID, banned), db)
    case DoUpsertPlan(plan) => UpsertPlan(db, plan)
    case DoGrantPlan(found, _, slug, days, reason, subID) => Or(GrantPlan(db, found, slug, days, reason, subID, s.now), db)
    case DoExpire(userID, reason, days, deleteNow) => Or(ExpireSubscription(db, userID, reason, days, deleteNow, s.now), db)
    case DoCreateInvite(c) => Or(CreateInvite(db, c), db)
    case DoRedeem(code, userID, ip, device, isNew, redemptionID, subID) =>
      Or(RedeemInvite(db, code, userID, ip, device, isNew, redemptionID, subID, s.now), db)
    case DoCheckout(orderID, userID, slug, cycle) => Or(Checkout(db, orderID, userID, slug, cycle), db)
    case DoAttachPayment(orderID, paymentID) => AttachPayment(db, orderID, paymentID)
    case DoRefusePayment(orderID, message) => RefusePayment(db, orderID, message, s.now)
    case DoWebhook(ev, found, subID) => Webhook(db, ev, found, s.now, subID)
    case DoMarkPaid(orderID, reason, subID) => Or(MarkPaid(db, orderID, reason, s.now, subID), db)
    case DoCancel(orderID, reason) => Or(AdminCancel(db, orderID, reason, s.now), db)
    case DoRefund(orderID, reason) => Or(AdminRefund(db, orderID, reason, s.now), db)
    case DoUpload(image) => Upload(db, image)
    case DoProcess(publicID, p, blockedHashes) => Or(Process(db, publicID, p, blockedHashes), db)
    case DoDeleteImage(publicID, userID) => Or(DeleteImage(db, publicID, userID), db)
    case DoAdminDelete(publicID) => Or(AdminDelete(db, publicID), db)
    case DoAdminFreeze(publicID, reason) => Or(AdminFreeze(db, publicID, reason), db)
    case DoSetPrivacy(publicID, userID, isPrivate) => Or(SetPrivacy(db, publicID, userID, isPrivate), db)
    case DoPurge(order) => Purge(db, s.now, order)
    case DoImport(userID, images) => ImportImages(db, userID, images)
    case DoDeliver(userID, bytesSent) => Or(Deliver(db, userID, bytesSent), db)
    case DoUseKey(_, found, required) => Or(UseKey(db, found, required, s.now), db)
  }

  /** ProcessImageVariants and the last save of createIFPayCheckout take no snapshot: when the save fails they
      keep their writes and merely report the error. */
  predicate KeepsWrites(a: Action) {
    a.DoProcess? || a.DoAttachPayment?
  }

  /** A failed save restores the snapshot taken before the handler's writes, if there is one. */
  ghost function Next(db: Db, s: Step): Db
    requires Legal(db, s)
  {
    if s.saved || KeepsWrites(s.action) then Effect(db, s) else db
  }

  /** Steps that may follow each other from `db`, the clock never going back. */
  ghost predicate LegalRun(db: Db, clock: Time, steps: seq<Step>)
    decreases |steps|
  {
    steps == [] ||
    (Legal(db, steps[0]) && clock <= steps[0].now && LegalRun(Next(db, steps[0]), steps[0].now, steps[1..]))
  }

  ghost function Run(db: Db, clock: Time, steps: seq<Step>): Db
    requires LegalRun(db, clock, steps)
    decreases |steps|
  {
    if steps == [] then db else Run(Next(db, steps[0]), steps[0].now, steps[1..])
  }

  /** The refusal of a payment finds its order still open. createIFPayCheckout does not ask, and with a slow answer
      an event may have settled the order before. */
  predicate Orderly(db: Db, s: Step) {
    s.action.DoRefusePayment? && s.action.orderID in db.orders ==>
      var status := db.orders[s.action.orderID].status; status == Pending || status == Failed
  }

  ghost predicate OrderlyRun(db: Db, clock: Time, steps: seq<Step>)
    requires LegalRun(db, clock, steps)
    decreases |steps|
  {
    steps == [] || (Orderly(db, steps[0]) && OrderlyRun(Next(db, steps[0]), steps[0].now, steps[1..]))
  }

  /** NewServer: no accounts, no images, no orders; plans and invite campaigns as configured. */
  function Start(plans: seq<Plan>, invites: map<string, InviteCampaign>, hotlink: Hotlink, integrations: string): Db {
    Db(plans, map[], map[], map[], map[], map[], map[], map[], map[], map[], map[], invites, [], {}, [], [], hotlink, integrations)
  }
}
