/** The storage counter of a user against the sum it stands for. */
module LedgerRuns {
  import opened Text
  import opened Domain
  import opened Db
  import opened Sums
  import opened Orders
  import opened Variants
  import opened Handlers
  import opened Actions
  import opened Frames
  import opened Soundness

  function StoredBy(images: map<Id, Image>, u: Id): map<Id, int> {
    map p | p in images :: if images[p].userID == u then Stored(images[p]) else 0
  }

  /** Original plus variant bytes of the user's images that are not deleted. */
  ghost function Owned(images: map<Id, Image>, u: Id): int {
    Total(StoredBy(images, u))
  }

  ghost predicate LedgerOf(db: Db, u: Id) {
    UsageOf(db, u).storageBytes == Owned(db.images, u)
  }

  /** Every user's StorageBytes is that sum. */
  ghost predicate Ledger(db: Db) {
    forall u <- db.usage :: LedgerOf(db, u)
  }

  // ---------------------------------------------------------------- the sum

  lemma OwnedPut(images: map<Id, Image>, p: Id, image: Image, u: Id)
    ensures Owned(images[p := image], u)
            == Owned(images, u) - (if p in images && images[p].userID == u then Stored(images[p]) else 0)
               + (if image.userID == u then Stored(image) else 0)
  {
    var w := if image.userID == u then Stored(image) else 0;
    TotalPut(StoredBy(images, u), p, w);
    assert StoredBy(images, u)[p := w] == StoredBy(images[p := image], u);
  }

  lemma OwnedCovers(images: map<Id, Image>, p: Id)
    requires p in images
    ensures Owned(images, images[p].userID) >= Stored(images[p])
  {
    TotalAtLeast(StoredBy(images, images[p].userID), p);
  }

  lemma OwnedNothing(images: map<Id, Image>, u: Id)
    requires forall p <- images :: images[p].userID == u ==> Stored(images[p]) == 0
    ensures Owned(images, u) == 0
  {
    TotalZero(StoredBy(images, u));
  }

  /** A delete never meets a counter too small: the clamp to zero does not fire. */
  lemma NoClamp(db: Db, p: Id)
    requires Sound(db) && Ledger(db) && p in db.images
    ensures UsageOf(db, db.images[p].userID).storageBytes >= Stored(db.images[p])
  {
    hide KeyedBy, APIKeysKeyed, EmailsNormal;
    OwnedCovers(db.images, p);
    assert LedgerOf(db, db.images[p].userID);
  }

  /** Nor does processing ever skip its subtraction. */
  lemma NoSkip(db: Db, p: Id, newVariantBytes: nat)
    requires Sound(db) && Ledger(db) && p in db.images && db.images[p].status != ImageDeleted
    ensures Adjusted(UsageOf(db, db.images[p].userID), VariantBytes(db.images[p].variants), newVariantBytes).storageBytes
            == UsageOf(db, db.images[p].userID).storageBytes - VariantBytes(db.images[p].variants) + newVariantBytes
  {
    hide Sound, Ledger;
    NoClamp(db, p);
  }

  // ---------------------------------------------------------------- one step

  /** The images stand still; a counter changes only by appearing, at zero, for a user without images. */
  lemma LedgerSame(db: Db, next: Db)
    requires Ledger(db) && next.images == db.images
    requires forall u <- next.usage :: if u in db.usage then next.usage[u].storageBytes == db.usage[u].storageBytes
                                       else next.usage[u].storageBytes == 0 && forall p <- db.images :: db.images[p].userID != u
    ensures Ledger(next)
  {
    forall u | u in next.usage ensures LedgerOf(next, u) {
      if u in db.usage {
        assert LedgerOf(db, u);
      } else {
        OwnedNothing(db.images, u);
      }
    }
  }

  /** One image is filed and its owner's counter moves by the difference: exactly then the ledger still agrees. */
  lemma LedgerPut(db: Db, next: Db, p: Id, image: Image)
    requires Ledger(db) && next.images == db.images[p := image] && image.userID in db.usage
    requires p in db.images ==> db.images[p].userID == image.userID
    requires next.usage.Keys == db.usage.Keys
    requires forall u <- next.usage :: u != image.userID ==> next.usage[u] == db.usage[u]
    ensures Ledger(next) <==>
            next.usage[image.userID].storageBytes
            == db.usage[image.userID].storageBytes - (if p in db.images then Stored(db.images[p]) else 0) + Stored(image)
  {
    hide Stored;
    var o := image.userID;
    assert LedgerOf(db, o);
    OwnedPut(db.images, p, image, o);
    forall u | u in next.usage && u != o ensures LedgerOf(next, u) {
      assert LedgerOf(db, u);
      OwnedPut(db.images, p, image, u);
    }
    assert Ledger(next) <==> LedgerOf(next, o);
  }

  lemma OwnerHasUsage(db: Db, p: Id)
    requires Sound(db) && p in db.images
    ensures db.images[p].userID in db.usage && db.images[p].publicID == p
  {
  }

  lemma UploadLedger(db: Db, image: Image)
    requires Sound(db) && Ledger(db) && FreshImage(db, image)
    ensures Ledger(Upload(db, image))
  {
    hide Ledger, KeyedBy, APIKeysKeyed, EmailsNormal, ImagesOwned;
    LedgerPut(db, Upload(db, image), image.publicID, image);
  }

  lemma ProcessLedger(db: Db, publicID: Id, p: Processed, blockedHashes: seq<string>)
    requires Sound(db) && Ledger(db)
    ensures Ledger(Or(Process(db, publicID, p, blockedHashes), db))
  {
    hide Ledger, Sound, Refreshed, Adjusted;
    if publicID in db.images && db.images[publicID].status == ImageActive {
      var current := db.images[publicID];
      var image := Refreshed(db, current, p, blockedHashes);
      RefreshedKeeps(db, current, p, blockedHashes);
      OwnerHasUsage(db, publicID);
      NoSkip(db, publicID, VariantBytes(image.variants));
      var usage := Adjusted(UsageOf(db, current.userID), VariantBytes(current.variants), VariantBytes(image.variants));
      LedgerPut(db, FileProcessed(db, image, usage), publicID, image);
    }
  }

  /** Deleting keeps the ledger exactly when the image was not deleted before, or there is nothing to subtract. */
  lemma RemoveLedger(db: Db, p: Id)
    requires Sound(db) && Ledger(db) && p in db.images
    ensures Ledger(Remove(db, p)) <==>
            || db.images[p].status != ImageDeleted
            || db.images[p].bytes + VariantBytes(db.images[p].variants) == 0
            || UsageOf(db, db.images[p].userID).storageBytes == 0
  {
    hide Ledger, Sound;
    OwnerHasUsage(db, p);
    NoClamp(db, p);
    LedgerPut(db, Remove(db, p), p, Remove(db, p).images[p]);
    OwnedNonNegative(db, db.images[p].userID);
  }

  lemma OwnedNonNegative(db: Db, u: Id)
    requires Ledger(db) && u in db.usage
    ensures db.usage[u].storageBytes >= 0
  {
    assert LedgerOf(db, u);
    TotalNonNegative(StoredBy(db.images, u));
  }

  lemma AdminDeleteLedger(db: Db, p: Id)
    requires Sound(db) && Ledger(db) && p in db.images
    ensures Ledger(AdminDelete(db, p).value) <==>
            || db.images[p].status != ImageDeleted
            || db.images[p].bytes + VariantBytes(db.images[p].variants) == 0
            || UsageOf(db, db.images[p].userID).storageBytes == 0
  {
    hide Sound, LedgerOf, Remove;
    RemoveLedger(db, p);
    LedgerLogs(Remove(db, p), AdminDelete(db, p).value);
  }

  lemma LedgerLogs(db: Db, next: Db)
    requires next.images == db.images && next.usage == db.usage
    ensures Ledger(next) <==> Ledger(db)
  {
    assert forall u :: LedgerOf(next, u) <==> LedgerOf(db, u);
  }

  /** Freezing keeps it exactly when the image was not deleted before, or stores nothing: freezing a deleted
      image counts its bytes again. */
  lemma AdminFreezeLedger(db: Db, p: Id, reason: string)
    requires Sound(db) && Ledger(db) && p in db.images
    ensures Ledger(AdminFreeze(db, p, reason).value) <==>
            || db.images[p].status != ImageDeleted
            || db.images[p].bytes + VariantBytes(db.images[p].variants) == 0
  {
    hide Ledger, Sound;
    OwnerHasUsage(db, p);
    var next := AdminFreeze(db, p, reason).value;
    LedgerPut(db, next, p, next.images[p]);
  }

  /** Both conditions can fail: deleting a deleted image takes its bytes off a second time. */
  lemma DeleteTwice(db: Db, u: Id, p: Id, q: Id)
    requires Sound(db) && Ledger(db) && p in db.images && q in db.images && p != q
    requires db.images[p].userID == u == db.images[q].userID
    requires db.images[p].status == ImageDeleted && db.images[p].bytes == 5
    requires db.images[q].status == ImageActive && db.images[q].bytes == 7
    ensures !Ledger(AdminDelete(db, p).value)
    ensures !Ledger(AdminFreeze(db, p, "").value)
  {
    hide Ledger, Sound;
    AdminDeleteLedger(db, p);
    AdminFreezeLedger(db, p, "");
    NoClamp(db, q);
  }

  lemma DropOwned(images: map<Id, Image>, doomed: set<Id>, u: Id)
    ensures Owned(DropImages(images, doomed), u) == if u in doomed then 0 else Owned(images, u)
  {
    hide VariantBytes;
    var rest := DropImages(images, doomed);
    if u in doomed {
      forall p | p in rest && rest[p].userID == u ensures Stored(rest[p]) == 0 {
        assert rest[p].status == ImageDeleted;
      }
      OwnedNothing(rest, u);
    } else {
      assert forall p <- images :: StoredBy(rest, u)[p] == StoredBy(images, u)[p];
      assert StoredBy(rest, u) == StoredBy(images, u);
    }
  }

  lemma ClearedUsage(usage: map<Id, Usage>, doomed: set<Id>, u: Id)
    requires u in ClearUsage(usage, doomed)
    ensures ClearUsage(usage, doomed)[u].storageBytes == if u in doomed then 0 else usage[u].storageBytes
    ensures u in usage || u in doomed
  {
  }

  lemma PurgeLedger(db: Db, now: Time, order: seq<Id>)
    requires Ledger(db)
    ensures Ledger(Purge(db, now, order))
  {
    hide DropImages, ClearUsage, MarkDeleted, ClearPlans, Doomed, Owned;
    var next := Purge(db, now, order);
    forall u | u in next.usage ensures LedgerOf(next, u) {
      DropOwned(db.images, Doomed(db, now), u);
      ClearedUsage(db.usage, Doomed(db, now), u);
      assert u !in Doomed(db, now) ==> LedgerOf(db, u);
    }
  }

  lemma {:induction false} ImportLedger(db: Db, userID: Id, images: seq<Image>)
    requires Sound(db) && Ledger(db) && FreshImports(db, userID, images)
    ensures Ledger(ImportImages(db, userID, images))
    decreases |images|
  {
    hide Ledger, Sound;
    if images != [] {
      var image := images[0];
      var next := ImportOne(db, userID, image);
      UserFiled(db, userID);
      assert FreshImage(db, image) && image.userID == userID && image.variants == [];
      LedgerPut(db, next, image.publicID, image);
      PutStored(db, image, next.usage[userID], db.riskEvents, next.auditLogs);
      assert FreshImports(next, userID, images[1..]) by {
        forall i | 0 <= i < |images[1..]| ensures FreshImage(next, images[1..][i]) && images[1..][i].userID == userID && images[1..][i].variants == [] {
          assert FreshImage(db, images[i + 1]);
        }
      }
      ImportLedger(next, userID, images[1..]);
    }
  }

  lemma NewAccountLedger(db: Db, user: User, subID: Id, now: Time)
    requires Sound(db) && Ledger(db) && user.id !in db.users
    ensures Ledger(NewAccount(db, user, subID, now))
  {
    hide KeyedBy, APIKeysKeyed, EmailsNormal, Ledger;
    LedgerSame(db, NewAccount(db, user, subID, now));
  }

  lemma RegisterLedger(db: Db, userID: Id, rawEmail: string, nickname: string, subID: Id, now: Time)
    requires Sound(db) && Ledger(db) && userID !in db.users
    ensures Ledger(Or(Register(db, userID, rawEmail, nickname, subID, now), db))
  {
    hide Sound, Ledger;
    var name := if TrimSpace(nickname) == "" then "user" else nickname;
    NewAccountLedger(db, User(userID, Normalize(rawEmail), name, false, false, "go", false, now), subID, now);
  }

  lemma OAuthLoginLedger(db: Db, found: Option<Id>, userID: Id, rawEmail: string, nickname: string, verified: bool, subID: Id, now: Time)
    requires Sound(db) && Ledger(db) && userID !in db.users && FoundByEmail(db, Normalize(rawEmail), found)
    ensures Ledger(OAuthLogin(db, found, userID, rawEmail, nickname, verified, subID, now))
  {
    hide Sound, LedgerOf;
    var next := OAuthLogin(db, found, userID, rawEmail, nickname, verified, subID, now);
    if found.None? {
      var newcomer := User(userID, Normalize(rawEmail), nickname, verified, true, "go", false, now);
      NewAccountLedger(db, newcomer, subID, now);
      LedgerLogs(NewAccount(db, newcomer, subID, now), next);
    } else {
      LedgerLogs(db, next);
    }
  }

  lemma SetPrivacyLedger(db: Db, p: Id, userID: Id, isPrivate: bool)
    requires Sound(db) && Ledger(db)
    ensures Ledger(Or(SetPrivacy(db, p, userID, isPrivate), db))
  {
    hide Ledger, Sound;
    if p in db.images {
      OwnerHasUsage(db, p);
      var r := SetPrivacy(db, p, userID, isPrivate);
      if r.Ok? {
        LedgerPut(db, r.value, p, r.value.images[p]);
      }
    }
  }

  lemma EntitledHasUsage(db: Db, u: Id)
    requires Sound(db) && Entitlement(db, u).Some?
    ensures u in db.usage
  {
    hide FindPlan;
  }

  lemma LedgerMetered(db: Db, u: Id, usage: Usage)
    requires Ledger(db) && u in db.usage && usage.storageBytes == db.usage[u].storageBytes
    ensures Ledger(db.(usage := db.usage[u := usage]))
  {
    hide Ledger;
    LedgerSame(db, db.(usage := db.usage[u := usage]));
  }

  lemma DeliverLedger(db: Db, userID: Id, bytesSent: nat)
    requires Sound(db) && Ledger(db)
    ensures Ledger(Or(Deliver(db, userID, bytesSent), db))
  {
    hide Ledger, Sound, Entitlement, CheckUsage;
    if Entitlement(db, userID).Some? {
      EntitledHasUsage(db, userID);
      var usage := UsageOf(db, userID);
      LedgerMetered(db, userID, usage.(imageRequests := usage.imageRequests + 1, bandwidthBytes := usage.bandwidthBytes + bytesSent));
    }
  }

  lemma LedgerOfParts(db: Db, next: Db)
    requires Ledger(db) && next.images == db.images && next.usage == db.usage
    ensures Ledger(next)
  {
  }

  lemma KeyFound(db: Db, secretHash: string, keyAt: Option<KeyAt>)
    requires FoundKey(db, secretHash, keyAt)
    ensures keyAt.Some? ==> keyAt.value.userID in db.apiKeys && keyAt.value.index < |db.apiKeys[keyAt.value.userID]|
  {
  }

  lemma UseKeyLedger(db: Db, secretHash: string, keyAt: Option<KeyAt>, required: seq<string>, now: Time)
    requires Sound(db) && Ledger(db) && FoundKey(db, secretHash, keyAt)
    ensures Ledger(Or(UseKey(db, keyAt, required, now), db))
  {
    hide Ledger, Sound, Entitlement, CheckUsage, HasScopes, FoundKey;
    KeyFound(db, secretHash, keyAt);
    var r := UseKey(db, keyAt, required, now);
    if r.Ok? {
      var u := keyAt.value.userID;
      EntitledHasUsage(db, u);
      var usage := UsageOf(db, u);
      var counted := db.(usage := db.usage[u := usage.(apiCalls := usage.apiCalls + 1)]);
      LedgerMetered(db, u, usage.(apiCalls := usage.apiCalls + 1));
      assert r.value.usage == counted.usage && r.value.images == counted.images;
      LedgerOfParts(counted, r.value);
    }
  }

  // ---------------------------------------------------------------- whole runs

  /** The two admin actions are not aimed at an image that is already deleted. */
  predicate Guarded(db: Db, s: Step) {
    match s.action
    case DoAdminDelete(p) => p in db.images ==> db.images[p].status != ImageDeleted
    case DoAdminFreeze(p, _) => p in db.images ==> db.images[p].status != ImageDeleted
    case _ => true
  }

  ghost predicate GuardedRun(db: Db, clock: Time, steps: seq<Step>)
    requires LegalRun(db, clock, steps)
    decreases |steps|
  {
    steps == [] || (Guarded(db, steps[0]) && GuardedRun(Next(db, steps[0]), steps[0].now, steps[1..]))
  }

  lemma ImageEffectLedger(db: Db, s: Step)
    requires Sound(db) && Ledger(db) && Legal(db, s) && Guarded(db, s)
    requires s.action.DoDeleteImage? || s.action.DoAdminDelete? || s.action.DoAdminFreeze?
    ensures Ledger(Effect(db, s))
  {
    hide Sound, Ledger, Remove;
    match s.action
    case DoDeleteImage(p, userID) => if p in db.images { RemoveLedger(db, p); }
    case DoAdminDelete(p) => if p in db.images { AdminDeleteLedger(db, p); }
    case DoAdminFreeze(p, reason) => if p in db.images { AdminFreezeLedger(db, p, reason); }
  }

  /** Every guarded step keeps the counters and the images in agreement. */
  lemma LedgerEffect(db: Db, s: Step)
    requires Sound(db) && Ledger(db) && Legal(db, s) && Guarded(db, s)
    ensures Ledger(Effect(db, s))
  {
    hide Sound, Ledger, Register, OAuthLogin, VerifyEmail, UpdateProfile, CreateKey, RevokeKey, SetUserStatus, UpsertPlan, GrantPlan,
      ExpireSubscription, CreateInvite, RedeemInvite, Checkout, AttachPayment, RefusePayment, Webhook, MarkPaid, AdminCancel, AdminRefund, Upload,
      Process, DeleteImage, AdminDelete, AdminFreeze, SetPrivacy, Purge, ImportImages, Deliver, UseKey, Or, FreshImports;
    match s.action
    case DoRegister(userID, rawEmail, nickname, subID) => RegisterLedger(db, userID, rawEmail, nickname, subID, s.now);
    case DoOAuthLogin(found, userID, rawEmail, nickname, verified, subID) =>
      OAuthLoginLedger(db, found, userID, rawEmail, nickname, verified, subID, s.now);
    case DoUpload(image) => UploadLedger(db, image);
    case DoProcess(publicID, p, blockedHashes) => ProcessLedger(db, publicID, p, blockedHashes);
    case DoDeleteImage(_, _) => ImageEffectLedger(db, s);
    case DoAdminDelete(_) => ImageEffectLedger(db, s);
    case DoAdminFreeze(_, _) => ImageEffectLedger(db, s);
    case DoSetPrivacy(publicID, userID, isPrivate) => SetPrivacyLedger(db, publicID, userID, isPrivate);
    case DoPurge(order) => PurgeLedger(db, s.now, order);
    case DoImport(userID, images) => ImportLedger(db, userID, images);
    case DoDeliver(userID, bytesSent) => DeliverLedger(db, userID, bytesSent);
    case DoUseKey(secretHash, keyAt, required) => UseKeyLedger(db, secretHash, keyAt, required, s.now);
    case _ => QuietLedger(db, s);
  }

  lemma QuietLedger(db: Db, s: Step)
    requires Ledger(db) && Legal(db, s)
    requires Images !in Writes(s.action) && UsageRecords !in Writes(s.action)
    ensures Ledger(Effect(db, s))
  {
    hide Effect, Legal, Writes, Ledger;
    EffectWithin(db, s);
    assert SamePart(db, Effect(db, s), Images) && SamePart(db, Effect(db, s), UsageRecords);
    LedgerLogs(db, Effect(db, s));
  }

  /** Over every guarded run each user's StorageBytes stays the sum of the bytes of the images it owns. */
  lemma {:induction false} LedgerRun(db: Db, clock: Time, steps: seq<Step>)
    requires Sound(db) && Ledger(db) && LegalRun(db, clock, steps) && GuardedRun(db, clock, steps)
    ensures Sound(Run(db, clock, steps)) && Ledger(Run(db, clock, steps))
    decreases |steps|
  {
    hide Sound, Ledger, Effect, Guarded;
    if steps != [] {
      SoundEffect(db, steps[0]);
      LedgerEffect(db, steps[0]);
      LedgerRun(Next(db, steps[0]), steps[0].now, steps[1..]);
    }
  }

  // ---------------------------------------------------------------- the scan of /metrics

  function AllStored(images: map<Id, Image>): map<Id, int> {
    map p | p in images :: Stored(images[p])
  }

  /** The loop over the images in metrics. */
  method StorageMetric(images: map<Id, Image>) returns (storageBytes: int)
    ensures storageBytes == Total(AllStored(images))
  {
    storageBytes := 0;
    var todo := images.Keys;
    TotalZero(map[]);
    while todo != {}
      invariant todo <= images.Keys
      invariant storageBytes == Total(AllStored(images - todo))
    {
      var p :| p in todo;
      if images[p].status != ImageDeleted {
        storageBytes := storageBytes + images[p].bytes + VariantBytes(images[p].variants);
      }
      TotalPut(AllStored(images - todo), p, Stored(images[p]));
      assert AllStored(images - todo)[p := Stored(images[p])] == AllStored(images - (todo - {p}));
      todo := todo - {p};
    }
    assert images - {} == images;
  }

  ghost function Shares(images: map<Id, Image>, owners: set<Id>): map<Id, int> {
    map u | u in owners :: Owned(images, u)
  }

  lemma SharesAdd(rest: map<Id, Image>, p: Id, image: Image, owners: set<Id>)
    requires p !in rest && image.userID in owners
    ensures Total(Shares(rest[p := image], owners)) == Total(Shares(rest, owners)) + Stored(image)
  {
    hide Stored, Owned;
    var o := image.userID;
    forall u | u in owners ensures Owned(rest[p := image], u) == Owned(rest, u) + if o == u then Stored(image) else 0 {
      OwnedPut(rest, p, image, u);
    }
    TotalPut(Shares(rest, owners), o, Owned(rest[p := image], o));
    assert Shares(rest[p := image], owners) == Shares(rest, owners)[o := Owned(rest[p := image], o)];
  }

  lemma AllStoredAdd(rest: map<Id, Image>, p: Id, image: Image)
    requires p !in rest
    ensures Total(AllStored(rest[p := image])) == Total(AllStored(rest)) + Stored(image)
  {
    hide Stored;
    TotalPut(AllStored(rest), p, Stored(image));
    assert AllStored(rest[p := image]) == AllStored(rest)[p := Stored(image)];
  }

  /** Summing the shares of all owners is summing over all images. */
  lemma {:induction false} SharesTotal(images: map<Id, Image>, owners: set<Id>)
    requires forall p <- images :: images[p].userID in owners
    ensures Total(Shares(images, owners)) == Total(AllStored(images))
    decreases |images|
  {
    hide Stored, Shares, AllStored, Total, Owned;
    if images == map[] {
      NothingShared(owners);
    } else {
      var p :| p in images;
      var rest := images - {p};
      assert images == rest[p := images[p]];
      SharesTotal(rest, owners);
      SharesAdd(rest, p, images[p], owners);
      AllStoredAdd(rest, p, images[p]);
    }
  }

  lemma NothingShared(owners: set<Id>)
    ensures Total(Shares(map[], owners)) == 0 == Total(AllStored(map[]))
  {
    forall u | u in owners ensures Owned(map[], u) == 0 {
      OwnedNothing(map[], u);
    }
    TotalZero(Shares(map[], owners));
  }

  function Counters(usage: map<Id, Usage>): map<Id, int> {
    map u | u in usage :: usage[u].storageBytes
  }

  /** The counters of all users add up to what the scan of /metrics recomputes from the images. */
  lemma MetricsAgree(db: Db)
    requires Sound(db) && Ledger(db)
    ensures Total(Counters(db.usage)) == Total(AllStored(db.images))
  {
    hide KeyedBy, APIKeysKeyed, EmailsNormal, Owned;
    SharesTotal(db.images, db.usage.Keys);
    forall u | u in db.usage ensures Counters(db.usage)[u] == Shares(db.images, db.usage.Keys)[u] {
      assert LedgerOf(db, u);
    }
    assert Counters(db.usage) == Shares(db.images, db.usage.Keys);
  }

  /** From an empty server both hold after every guarded run. */
  lemma LedgerFromStart(plans: seq<Plan>, invites: map<string, InviteCampaign>, hotlink: Hotlink, integrations: string,
                        clock: Time, steps: seq<Step>)
    requires KeyedBy(invites, InviteKey)
    requires LegalRun(Start(plans, invites, hotlink, integrations), clock, steps)
    requires GuardedRun(Start(plans, invites, hotlink, integrations), clock, steps)
    ensures var db := Run(Start(plans, invites, hotlink, integrations), clock, steps);
            Ledger(db) && Total(Counters(db.usage)) == Total(AllStored(db.images))
  {
    hide Run, LegalRun, GuardedRun, Sound;
    var db := Start(plans, invites, hotlink, integrations);
    SoundStart(plans, invites, hotlink, integrations);
    LedgerRun(db, clock, steps);
    MetricsAgree(Run(db, clock, steps));
  }

  // ---------------------------------------------------------------- redelivered tasks

  function VariantsOf(db: Db, publicID: Id): seq<Variant> {
    if publicID in db.images then db.images[publicID].variants else []
  }

  function StorageOf(db: Db, u: Id): int {
    UsageOf(db, u).storageBytes
  }

  /** What a processed image looks like afterwards. */
  lemma ProcessedImage(db: Db, publicID: Id, p: Processed, blockedHashes: seq<string>)
    requires publicID in db.images && db.images[publicID].publicID == publicID && db.images[publicID].status == ImageActive
    ensures var next := Or(Process(db, publicID, p, blockedHashes), db);
            && publicID in next.images && next.images[publicID].publicID == publicID
            && next.images[publicID].userID == db.images[publicID].userID
            && VariantsOf(next, publicID) == Merge(db.images[publicID].variants, p.variants)
            && StorageOf(next, db.images[publicID].userID)
               == Adjusted(UsageOf(db, db.images[publicID].userID), VariantBytes(db.images[publicID].variants),
                           VariantBytes(VariantsOf(next, publicID))).storageBytes
  {
    hide Blocked, Merge, Adjusted, VariantBytes, FileProcessed;
    var image := Refreshed(db, db.images[publicID], p, blockedHashes);
    FiledParts(db, image,
      Adjusted(UsageOf(db, image.userID), VariantBytes(db.images[publicID].variants), VariantBytes(image.variants)));
  }

  /** A task processed before with the same generated variants, whatever else was merged earlier: the image's
      variants and its owner's storage stay as they are. */
  lemma RedeliveryHarmless(db: Db, publicID: Id, p: Processed, blockedHashes: seq<string>, earlier: seq<Variant>)
    requires publicID in db.images && db.images[publicID].publicID == publicID
    requires db.images[publicID].variants == Merge(earlier, p.variants)
    ensures var next := Or(Process(db, publicID, p, blockedHashes), db);
            && VariantsOf(next, publicID) == VariantsOf(db, publicID)
            && StorageOf(next, db.images[publicID].userID) == StorageOf(db, db.images[publicID].userID)
  {
    hide Merge, FileProcessed, Refreshed;
    if db.images[publicID].status == ImageActive {
      ProcessedImage(db, publicID, p, blockedHashes);
      MergeIdempotent(earlier, p.variants);
    }
  }

  /** Delivering one task twice is as good as once. */
  lemma ProcessedTwice(db: Db, publicID: Id, p: Processed, blockedHashes: seq<string>)
    requires publicID in db.images && db.images[publicID].publicID == publicID && db.images[publicID].status == ImageActive
    ensures var once := Or(Process(db, publicID, p, blockedHashes), db);
            var twice := Or(Process(once, publicID, p, blockedHashes), once);
            && VariantsOf(twice, publicID) == VariantsOf(once, publicID)
            && StorageOf(twice, db.images[publicID].userID) == StorageOf(once, db.images[publicID].userID)
  {
    hide Merge, Process;
    ProcessedImage(db, publicID, p, blockedHashes);
    RedeliveryHarmless(Or(Process(db, publicID, p, blockedHashes), db), publicID, p, blockedHashes, db.images[publicID].variants);
  }
}
