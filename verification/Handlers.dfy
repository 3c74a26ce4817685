/** The other handlers of internal/api/server.go as functions on the value of the state. A handler that
    refuses the request answers Err and leaves the state alone. */
module Handlers {
  import opened Text
  import opened Domain
  import opened Db
  import opened Variants

  // ---------------------------------------------------------------- accounts

  predicate EmailTaken(db: Db, email: string) {
    exists u :: u in db.users && db.users[u].email == email
  }

  function NewAccount(db: Db, user: User, subID: Id, now: Time): Db {
    db.(users := db.users[user.id := user],
        subs := db.subs[user.id := NewSubscription(subID, user.id, "go", now, 30 * DAY)],
        usage := db.usage[user.id := NO_USAGE])
  }

  /** register; `userID` is the fresh uuid. */
  function Register(db: Db, userID: Id, rawEmail: string, nickname: string, subID: Id, now: Time): Result<Db> {
    var email := Normalize(rawEmail);
    if EmailTaken(db, email) then Err("email exists")
    else
      var name := if TrimSpace(nickname) == "" then "user" else nickname;
      Ok(NewAccount(db, User(userID, email, name, false, false, "go", false, now), subID, now))
  }

  /** ifpayOAuthCallback once the provider has answered: bind the account `found` by its email, or open one.
      `rawEmail` is the generated address when the provider sends none. */
  function OAuthLogin(db: Db, found: Option<Id>, userID: Id, rawEmail: string, nickname: string, verified: bool, subID: Id, now: Time): Db
    requires found.Some? ==> found.value in db.users
  {
    match found
    case Some(id) =>
      var u := db.users[id];
      var bound := u.(oauthBound := true, emailVerified := u.emailVerified || verified,
                      nickname := if TrimSpace(u.nickname) == "" then nickname else u.nickname);
      Audited(db.(users := db.users[id := bound]), "system", LogOAuthLogin, u.id)
    case None =>
      Audited(NewAccount(db, User(userID, Normalize(rawEmail), nickname, verified, true, "go", false, now), subID, now),
              "system", LogOAuthLogin, userID)
  }

  /** The account found by the range over users in ifpayOAuthCallback. */
  predicate FoundByEmail(db: Db, email: string, found: Option<Id>) {
    match found
    case Some(id) => id in db.users && db.users[id].email == email
    case None => !EmailTaken(db, email)
  }

  /** verifyEmail once the code matches. */
  function VerifyEmail(db: Db, userID: Id): Result<Db> {
    if userID !in db.users then Err("user not found")
    else
      var u := db.users[userID];
      Ok(db.(users := db.users[u.id := u.(emailVerified := true)]))
  }

  /** updateProfile. */
  function UpdateProfile(db: Db, userID: Id, rawNickname: string): Result<Db> {
    var nickname := TrimSpace(rawNickname);
    if nickname == "" || |nickname| > 40 then Err("invalid nickname")
    else if userID !in db.users then Err("user not found")
    else
      var u := db.users[userID];
      Ok(Audited(db.(users := db.users[u.id := u.(nickname := nickname)]), "user", LogProfileUpdate, u.id))
  }

  // ---------------------------------------------------------------- API keys

  function CreateKey(db: Db, key: APIKey): Result<Db> {
    if key.userID !in db.users || !db.users[key.userID].emailVerified then Err("email not verified")
    else Ok(db.(apiKeys := db.apiKeys[key.userID := KeysOf(db, key.userID) + [key]]))
  }

  function Revoked(key: APIKey): APIKey {
    key.(revoked := true, secret := "")
  }

  /** Revoke the first key with the id. */
  function RevokeFirst(keys: seq<APIKey>, keyID: Id): seq<APIKey> {
    if keys == [] then []
    else if keys[0].id == keyID then [Revoked(keys[0])] + keys[1..]
    else [keys[0]] + RevokeFirst(keys[1..], keyID)
  }

  function RevokeKey(db: Db, userID: Id, keyID: Id): Result<Db> {
    var keys := KeysOf(db, userID);
    if forall i :: 0 <= i < |keys| ==> keys[i].id != keyID then Err("api key not found")
    else Ok(db.(apiKeys := db.apiKeys[userID := RevokeFirst(keys, keyID)]))
  }

  function RevokeAll(keys: seq<APIKey>): seq<APIKey> {
    seq(|keys|, i requires 0 <= i < |keys| => if keys[i].revoked then keys[i] else Revoked(keys[i]))
  }

  /** adminSetUserStatus: banning revokes every key of the user. */
  function SetUserStatus(db: Db, userID: Id, banned: bool): Result<Db> {
    if userID !in db.users then Err("user not found")
    else
      var keys := KeysOf(db, userID);
      Ok(Audited(
           db.(users := db.users[userID := db.users[userID].(banned := banned)],
               apiKeys := if banned && keys != [] then db.apiKeys[userID := RevokeAll(keys)] else db.apiKeys),
           "admin", if banned then LogUserBanned else LogUserActive, userID))
  }

  // ---------------------------------------------------------------- plans, grants and invites

  function PlanIndex(plans: seq<Plan>, slug: string): (i: nat)
    ensures i <= |plans|
    ensures forall j :: 0 <= j < i ==> plans[j].slug != slug
    ensures i < |plans| ==> plans[i].slug == slug
  {
    if plans == [] || plans[0].slug == slug then 0 else 1 + PlanIndex(plans[1..], slug)
  }

  /** adminUpsertPlan once the plan has passed validation. */
  function UpsertPlan(db: Db, plan: Plan): Db {
    var i := PlanIndex(db.plans, plan.slug);
    if i < |db.plans| then Audited(db.(plans := db.plans[i := plan]), "admin", LogPlanUpdate, plan.slug)
    else Audited(db.(plans := db.plans + [plan]), "admin", LogPlanCreate, plan.slug)
  }

  /** adminGrantPlan; the user may be named by id or, ignoring case, by email: `found` is who that is. */
  function GrantPlan(db: Db, found: Option<Id>, slug: string, days: int, reason: string, subID: Id, now: Time): Result<Db>
    requires found.Some? ==> found.value in db.users
  {
    var plan := FindPlan(db.plans, slug);
    if days <= 0 then Err("invalid grant days")
    else if found.None? then Err("user not found")
    else if plan.None? then Err("plan not found")
    else if plan.value.slug == "infinite-max" && TrimSpace(reason) == "" then Err("grant reason required")
    else
      var user := db.users[found.value];
      Ok(Audited(
           db.(users := db.users[user.id := user.(planSlug := plan.value.slug)],
               subs := db.subs[user.id := NewSubscription(subID, user.id, plan.value.slug, now, DaysDuration(days))]),
           "admin", LogPlanGrant, user.id))
  }

  predicate FoundUser(db: Db, name: string, found: Option<Id>) {
    if name in db.users then found == Some(name)
    else match found
      case Some(id) => id in db.users && Lower(db.users[id].email) == Lower(name)
      case None => forall u <- db.users :: Lower(db.users[u].email) != Lower(name)
  }

  /** adminExpireSubscription. */
  function ExpireSubscription(db: Db, userID: Id, reason: string, retentionDays: int, deleteNow: bool, now: Time): Result<Db> {
    var days := if retentionDays <= 0 then 30 else retentionDays;
    if TrimSpace(reason) == "" then Err("reason required")
    else if days > 365 then Err("retention days too large")
    else if userID !in db.users || userID !in db.subs then Err("subscription not found")
    else
      var user := db.users[userID];
      var sub := db.subs[userID].(
        endsAt := now - SECOND,
        status := if deleteNow then SubDeleted else SubPastDue,
        retentionEndsAt := if deleteNow then now - SECOND else now + days * DAY);
      Ok(Audited(
           db.(subs := db.subs[userID := sub], users := db.users[user.id := user.(planSlug := "")]),
           "admin", LogSubscriptionExpire, userID))
  }

  /** adminCreateInvite, with the generated id, code and dates filled in. */
  function CreateInvite(db: Db, c: InviteCampaign): Result<Db> {
    var plan := FindPlan(db.plans, c.planSlug);
    if c.name == "" || c.planSlug == "" || c.grantDays <= 0 then Err("invalid invite")
    else if plan.None? then Err("plan not found")
    else if plan.value.slug == "infinite-max" && !c.requireAdminApproval then Err("admin approval required")
    else if c.code in db.invites then Err("invite code exists")
    else Ok(Audited(db.(invites := db.invites[c.code := c]), "admin", LogInviteCreate, c.code))
  }

  /** What a redemption is counted under. */
  datatype Scope = Everyone | ByUser(id: Id) | ByEmail(email: string) | ByIP(ip: string) | ByDevice(device: string)

  predicate InScope(r: Redemption, scope: Scope) {
    match scope
    case Everyone => true
    case ByUser(id) => r.userID == id
    case ByEmail(email) => Lower(r.email) == email
    case ByIP(ip) => r.ip == ip
    case ByDevice(device) => r.deviceID == device
  }

  /** The entries of the redemption log for a code within a scope. */
  function Redeemed(log: seq<Redemption>, code: string, scope: Scope): nat {
    if log == [] then 0
    else
      var last := log[|log| - 1];
      Redeemed(log[..|log| - 1], code, scope) + if last.code == code && InScope(last, scope) then 1 else 0
  }

  /** inviteUsageLocked. */
  function UsageOfCode(log: seq<Redemption>, code: string, userID: Id, email: string, ip: string, device: string): InviteUsage {
    InviteUsage(Redeemed(log, code, Everyone), Redeemed(log, code, ByUser(userID)),
                Redeemed(log, code, ByEmail(Normalize(email))), Redeemed(log, code, ByIP(ip)),
                Redeemed(log, code, ByDevice(device)))
  }

  /** redeemInvite. */
  function RedeemInvite(db: Db, code: string, userID: Id, ip: string, device: string, isNewUser: bool,
                        redemptionID: Id, subID: Id, now: Time): Result<Db>
  {
    if userID !in db.users then Err("user not found")
    else if code !in db.invites then Err("invite not found")
    else
      var user := db.users[userID];
      var c := db.invites[code];
      var usage := UsageOfCode(db.redemptions, code, user.id, user.email, ip, device);
      if ValidateRedeem(c, now, isNewUser, user.emailVerified, user.oauthBound, usage).Some? then Err("invite rejected")
      else
        var entry := Redemption(redemptionID, code, user.id, Lower(user.email), ip, device, c.planSlug, now);
        Ok(Audited(
             db.(redemptions := db.redemptions + [entry],
                 users := db.users[user.id := user.(planSlug := c.planSlug)],
                 subs := db.subs[user.id := NewSubscription(subID, user.id, c.planSlug, now, DaysDuration(c.grantDays))]),
             "system", LogInviteRedeem, code))
  }

  // ---------------------------------------------------------------- images

  /** The locked part of uploadImage, once the objects are in the store. */
  function Upload(db: Db, image: Image): Db {
    var usage := UsageOf(db, image.userID);
    db.(images := db.images[image.publicID := image],
        usage := db.usage[image.userID := usage.(
          storageBytes := usage.storageBytes + image.bytes + VariantBytes(image.variants),
          imageProcessEvents := usage.imageProcessEvents + 1)])
  }

  /** moderationBlockReasonLocked gives a reason. */
  predicate Blocked(db: Db, publicID: Id, hash: string, blockedHashes: seq<string>) {
    && TrimSpace(hash) != ""
    && (|| (exists b :: b in blockedHashes && Lower(b) == Lower(TrimSpace(hash)))
        || (exists p :: p in db.images && p != publicID && db.images[p].perceptualHash != ""
             && Lower(db.images[p].perceptualHash) == Lower(TrimSpace(hash))
             && db.images[p].status == ImageFrozen && TrimSpace(db.images[p].moderationReason) != ""))
  }

  /** What the processor reported. */
  datatype Processed = Processed(variants: seq<Variant>, width: int, height: int, perceptualHash: string)

  function Refreshed(db: Db, current: Image, p: Processed, blockedHashes: seq<string>): Image {
    var next := current.(
      width := if p.width > 0 then p.width else current.width,
      height := if p.height > 0 then p.height else current.height,
      perceptualHash := if p.perceptualHash != "" then p.perceptualHash else current.perceptualHash,
      variants := Merge(current.variants, p.variants));
    if Blocked(db, current.publicID, next.perceptualHash, blockedHashes)
    then next.(status := ImageFrozen, moderationReason := "pHash blocked")
    else next
  }

  /** The switch on old and new variant bytes. */
  function Adjusted(usage: Usage, before: nat, after: nat): Usage {
    var moved := if after > before then usage.storageBytes + (after - before)
                 else if before > after && usage.storageBytes >= before - after then usage.storageBytes - (before - after)
                 else usage.storageBytes;
    usage.(storageBytes := moved, imageProcessEvents := usage.imageProcessEvents + 1)
  }

  /** File the refreshed image and its owner's usage, and log both outcomes. */
  function FileProcessed(db: Db, image: Image, usage: Usage): Db {
    var filed := db.(images := db.images[image.publicID := image], usage := db.usage[image.userID := usage]);
    var logged := Audited(filed, "worker", LogImageProcess, image.publicID);
    if image.status == ImageFrozen
    then Audited(logged.(riskEvents := db.riskEvents + [RiskEvent("image_moderation", image.moderationReason)]),
                 "worker", LogModerationFreeze, image.publicID)
    else logged
  }

  /** The locked part of ProcessImageVariants, once the variant objects are in the store. */
  function Process(db: Db, publicID: Id, p: Processed, blockedHashes: seq<string>): Result<Db> {
    if publicID !in db.images then Err("disappeared")
    else if db.images[publicID].status != ImageActive then Ok(db)
    else
      var current := db.images[publicID];
      var next := Refreshed(db, current, p, blockedHashes);
      var usage := Adjusted(UsageOf(db, current.userID), VariantBytes(current.variants), VariantBytes(next.variants));
      Ok(FileProcessed(db, next, usage))
  }

  /** What both delete handlers leave of the storage counter: never below zero. */
  function Released(usage: Usage, stored: nat): Usage {
    usage.(storageBytes := if usage.storageBytes >= stored then usage.storageBytes - stored else 0)
  }

  /** The locked part common to deleteImage and adminDeleteImage. */
  function Remove(db: Db, publicID: Id): Db
    requires publicID in db.images
  {
    var image := db.images[publicID];
    db.(images := db.images[publicID := image.(status := ImageDeleted)],
        usage := db.usage[image.userID := Released(UsageOf(db, image.userID), image.bytes + VariantBytes(image.variants))])
  }

  /** deleteImage. */
  function DeleteImage(db: Db, publicID: Id, userID: Id): Result<Db> {
    if publicID !in db.images || db.images[publicID].userID != userID || db.images[publicID].status == ImageDeleted
    then Err("image not found")
    else Ok(Remove(db, publicID))
  }

  /** adminDeleteImage: it does not ask whether the image was deleted before. */
  function AdminDelete(db: Db, publicID: Id): Result<Db> {
    if publicID !in db.images then Err("image not found")
    else Ok(Audited(Remove(db, publicID), "admin", LogImageDelete, publicID))
  }

  /** adminFreezeImage: nor does this. */
  function AdminFreeze(db: Db, publicID: Id, reason: string): Result<Db> {
    if publicID !in db.images then Err("image not found")
    else
      var why := if TrimSpace(reason) == "" then "frozen by admin" else reason;
      Ok(Audited(db.(images := db.images[publicID := db.images[publicID].(status := ImageFrozen, moderationReason := why)]),
                 "admin", LogImageFreeze, publicID))
  }

  function SetPrivacy(db: Db, publicID: Id, userID: Id, isPrivate: bool): Result<Db> {
    if publicID !in db.images || db.images[publicID].userID != userID || db.images[publicID].status == ImageDeleted
    then Err("image not found")
    else Ok(db.(images := db.images[publicID := db.images[publicID].(isPrivate := isPrivate)]))
  }

  /** The users whose subscription is effectively deleted. */
  function Doomed(db: Db, now: Time): set<Id> {
    set u | u in db.subs && db.subs[u].EffectiveStatus(now) == SubDeleted
  }

  function PurgeAudits(order: seq<Id>): seq<AuditLog> {
    seq(|order|, i requires 0 <= i < |order| => AuditLog("system", LogPurgeExpired, order[i], false))
  }

  function MarkDeleted(subs: map<Id, Subscription>, doomed: set<Id>): map<Id, Subscription> {
    map u | u in subs :: if u in doomed then subs[u].(status := SubDeleted) else subs[u]
  }

  function DropImages(images: map<Id, Image>, doomed: set<Id>): map<Id, Image> {
    map p | p in images ::
      if images[p].userID in doomed && images[p].status != ImageDeleted then images[p].(status := ImageDeleted) else images[p]
  }

  function ClearUsage(usage: map<Id, Usage>, doomed: set<Id>): map<Id, Usage> {
    usage + map u | u in doomed :: NO_USAGE
  }

  function ClearPlans(users: map<Id, User>, doomed: set<Id>): map<Id, User> {
    map u | u in users :: if u in doomed then users[u].(planSlug := "") else users[u]
  }

  /** adminPurgeExpired; `order` is the order in which the range over subscriptions meets the doomed users. */
  function Purge(db: Db, now: Time, order: seq<Id>): Db {
    var doomed := Doomed(db, now);
    db.(subs := MarkDeleted(db.subs, doomed), images := DropImages(db.images, doomed),
        usage := ClearUsage(db.usage, doomed), users := ClearPlans(db.users, doomed),
        auditLogs := db.auditLogs + PurgeAudits(order))
  }

  predicate Enumerates(order: seq<Id>, s: set<Id>) {
    |order| == |s| && (set u | u in order) == s
  }

  /** The images a purge at `now` deletes. */
  function Purged(db: Db, now: Time): set<Id> {
    set p | p in db.images && db.images[p].userID in Doomed(db, now) && db.images[p].status != ImageDeleted
  }

  /** The objects of an image: its original and its variants. */
  function ObjectKeys(image: Image): seq<string> {
    [image.objectKey] + seq(|image.variants|, i requires 0 <= i < |image.variants| => image.variants[i].objectKey)
  }

  /** The objects adminPurgeExpired lists. */
  predicate Listed(db: Db, now: Time, listed: seq<(Id, string)>) {
    && (forall i :: 0 <= i < |listed| ==>
          listed[i].0 in Purged(db, now) && listed[i].1 in ObjectKeys(db.images[listed[i].0]))
    && (forall p <- Purged(db, now) :: forall key <- ObjectKeys(db.images[p]) :: (p, key) in listed)
  }

  function ImportOne(db: Db, userID: Id, image: Image): Db {
    var usage := UsageOf(db, userID);
    Audited(db.(images := db.images[image.publicID := image],
                usage := db.usage[userID := usage.(storageBytes := usage.storageBytes + image.bytes)]),
            "system", LogRestoreImage, image.publicID)
  }

  /** The locked part of restoreBackupImages: file the restored images under their fresh ids. */
  function ImportImages(db: Db, userID: Id, images: seq<Image>): Db
    decreases |images|
  {
    if images == [] then db else ImportImages(ImportOne(db, userID, images[0]), userID, images[1..])
  }

  // ---------------------------------------------------------------- metered calls

  /** entitlementSnapshotLocked: the plan that counts for a user. */
  function Entitlement(db: Db, userID: Id): Option<Plan> {
    if userID !in db.users || userID !in db.subs then None
    else
      var slug := if db.subs[userID].planSlug == "" then db.users[userID].planSlug else db.subs[userID].planSlug;
      FindPlan(db.plans, slug)
  }

  /** recordImageDelivery. */
  function Deliver(db: Db, userID: Id, bytesSent: nat): Result<Db> {
    var plan := Entitlement(db, userID);
    if plan.None? then Err("no entitlement")
    else
      var usage := UsageOf(db, userID);
      var next := usage.(imageRequests := usage.imageRequests + 1, bandwidthBytes := usage.bandwidthBytes + bytesSent);
      if CheckUsage(plan.value.quota, next).Some? then Err("quota exceeded")
      else Ok(db.(usage := db.usage[userID := next]))
  }

  /** The key userAuth settles on: some unrevoked key with the secret's hash, the first of its list. */
  datatype KeyAt = KeyAt(userID: Id, index: nat)

  predicate FoundKey(db: Db, secretHash: string, found: Option<KeyAt>) {
    match found
    case Some(k) =>
      k.userID in db.apiKeys && k.index < |db.apiKeys[k.userID]|
      && !db.apiKeys[k.userID][k.index].revoked && db.apiKeys[k.userID][k.index].secretHash == secretHash
    case None =>
      forall u <- db.apiKeys :: forall i :: 0 <= i < |db.apiKeys[u]| ==>
        db.apiKeys[u][i].revoked || db.apiKeys[u][i].secretHash != secretHash
  }

  function ScopeSet(scopes: seq<string>): set<string> {
    set scope | scope in scopes :: TrimSpace(scope)
  }

  lemma ScopeAdded(scopes: seq<string>, i: nat)
    requires i < |scopes|
    ensures ScopeSet(scopes[..i + 1]) == ScopeSet(scopes[..i]) + {TrimSpace(scopes[i])}
  {
    assert scopes[..i + 1] == scopes[..i] + [scopes[i]];
  }

  /** hasRequiredScopes. */
  predicate HasScopes(actual: seq<string>, required: seq<string>) {
    required == [] || "*" in ScopeSet(actual) || forall scope <- required :: scope in ScopeSet(actual)
  }

  /** The API-key branch of userAuth on a route that asks for the scopes. */
  function UseKey(db: Db, found: Option<KeyAt>, required: seq<string>, now: Time): Result<Db>
    requires found.Some? ==> found.value.userID in db.apiKeys && found.value.index < |db.apiKeys[found.value.userID]|
  {
    if found.None? then Err("invalid api key")
    else
      var u := found.value.userID;
      var plan := Entitlement(db, u);
      if u !in db.users then Err("user not found")
      else if db.users[u].banned then Err("user banned")
      else if !HasScopes(db.apiKeys[u][found.value.index].scopes, required) then Err("api key scope denied")
      else if plan.None? then Err("subscription required")
      else
        var usage := UsageOf(db, u);
        var next := usage.(apiCalls := usage.apiCalls + 1);
        if CheckUsage(plan.value.quota, next).Some? then Err("api quota exceeded")
        else
          var key := db.apiKeys[u][found.value.index].(lastUsedAt := Some(now));
          Ok(db.(apiKeys := db.apiKeys[u := db.apiKeys[u][found.value.index := key]],
                 usage := db.usage[u := next]))
  }
}
