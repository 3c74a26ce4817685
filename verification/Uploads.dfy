/** An upload is checked against the quota in one state and filed in a later one. */
module UploadRuns {
  import opened Text
  import opened Domain
  import opened Db
  import opened Variants
  import opened Orders
  import opened Handlers
  import opened Actions
  import opened Frames
  import opened Soundness
  import opened LedgerRuns

  // ---------------------------------------------------------------- what a user gains

  function Sizes(images: seq<Image>): nat {
    if images == [] then 0 else Sizes(images[1..]) + images[0].bytes
  }

  /** The bytes a step files for the user, less those it releases. */
  ghost function Gain(db: Db, s: Step, u: Id): int
    requires Legal(db, s)
  {
    match s.action
    case DoUpload(image) => if s.saved && image.userID == u then image.bytes + VariantBytes(image.variants) else 0
    case DoImport(v, images) => if s.saved && v == u then Sizes(images) else 0
    case DoProcess(p, processed, _) => if IsActiveOf(db.images, p, u) then Growth(db.images[p], processed) else 0
    case DoDeleteImage(p, v) => if s.saved && v == u && IsKeptOf(db.images, p, u) then -(Stored(db.images[p]) as int) else 0
    case DoAdminDelete(p) => if s.saved && IsKeptOf(db.images, p, u) then -(Stored(db.images[p]) as int) else 0
    case DoPurge(_) => if s.saved && u in Doomed(db, s.now) then -Owned(db.images, u) else 0
    case _ => 0
  }

  predicate IsActiveOf(images: map<Id, Image>, p: Id, u: Id) {
    p in images && images[p].userID == u && images[p].status == ImageActive
  }

  predicate IsKeptOf(images: map<Id, Image>, p: Id, u: Id) {
    p in images && images[p].userID == u && images[p].status != ImageDeleted
  }

  /** What merging the generated variants adds to an image. */
  function Growth(image: Image, processed: Processed): int {
    VariantBytes(Merge(image.variants, processed.variants)) - VariantBytes(image.variants)
  }

  // ---------------------------------------------------------------- handler by handler

  lemma UploadGain(db: Db, image: Image, u: Id)
    requires image.publicID !in db.images && image.status == ImageActive
    ensures Owned(Upload(db, image).images, u)
            == Owned(db.images, u) + if image.userID == u then image.bytes + VariantBytes(image.variants) else 0
  {
    hide Owned, VariantBytes;
    OwnedPut(db.images, image.publicID, image, u);
  }

  lemma {:induction false} ImportGain(db: Db, v: Id, images: seq<Image>, u: Id)
    requires FreshImports(db, v, images)
    ensures Owned(ImportImages(db, v, images).images, u) == Owned(db.images, u) + if v == u then Sizes(images) else 0
    decreases |images|
  {
    hide Owned;
    if images != [] {
      var one := ImportOne(db, v, images[0]);
      assert FreshImage(db, images[0]) && images[0].userID == v && images[0].variants == [];
      OwnedPut(db.images, images[0].publicID, images[0], u);
      assert FreshImports(one, v, images[1..]) by {
        forall i | 0 <= i < |images[1..]| ensures FreshImage(one, images[1..][i]) && images[1..][i].userID == v && images[1..][i].variants == [] {
          assert FreshImage(db, images[i + 1]);
        }
      }
      ImportGain(one, v, images[1..], u);
    }
  }

  lemma ProcessGain(db: Db, p: Id, processed: Processed, blockedHashes: seq<string>, u: Id)
    requires p in db.images ==> db.images[p].publicID == p
    ensures Owned(Or(Process(db, p, processed, blockedHashes), db).images, u)
            == Owned(db.images, u) + if IsActiveOf(db.images, p, u) then Growth(db.images[p], processed) else 0
  {
    hide Owned, Merge, Blocked, Adjusted, VariantBytes, FileProcessed;
    if p in db.images && db.images[p].status == ImageActive {
      var next := Refreshed(db, db.images[p], processed, blockedHashes);
      FiledParts(db, next, Adjusted(UsageOf(db, next.userID), VariantBytes(db.images[p].variants), VariantBytes(next.variants)));
      OwnedPut(db.images, p, next, u);
    }
  }

  lemma RemoveGain(db: Db, p: Id, u: Id)
    requires p in db.images && db.images[p].status != ImageDeleted
    ensures Owned(Remove(db, p).images, u) == Owned(db.images, u) - if db.images[p].userID == u then Stored(db.images[p]) else 0
  {
    hide Owned, VariantBytes;
    OwnedPut(db.images, p, db.images[p].(status := ImageDeleted), u);
  }

  lemma DeletesGain(db: Db, s: Step, u: Id)
    requires Legal(db, s) && Guarded(db, s) && s.saved && (s.action.DoDeleteImage? || s.action.DoAdminDelete?)
    ensures Owned(Effect(db, s).images, u) == Owned(db.images, u) + Gain(db, s, u)
  {
    hide Owned, Remove, VariantBytes, Stored;
    var p := s.action.publicID;
    if p in db.images && db.images[p].status != ImageDeleted {
      RemoveGain(db, p, u);
    }
  }

  lemma FreezeGain(db: Db, p: Id, reason: string, u: Id)
    requires p in db.images ==> db.images[p].status != ImageDeleted
    ensures Owned(Or(AdminFreeze(db, p, reason), db).images, u) == Owned(db.images, u)
  {
    hide Owned, VariantBytes, TrimSpace;
    if p in db.images {
      OwnedPut(db.images, p, AdminFreeze(db, p, reason).value.images[p], u);
    }
  }

  lemma PrivacyGain(db: Db, p: Id, v: Id, isPrivate: bool, u: Id)
    ensures Owned(Or(SetPrivacy(db, p, v, isPrivate), db).images, u) == Owned(db.images, u)
  {
    hide Owned, VariantBytes;
    if p in db.images {
      OwnedPut(db.images, p, db.images[p].(isPrivate := isPrivate), u);
    }
  }

  lemma PurgeGain(db: Db, now: Time, order: seq<Id>, u: Id)
    ensures Owned(Purge(db, now, order).images, u) == if u in Doomed(db, now) then 0 else Owned(db.images, u)
  {
    hide Owned, DropImages, MarkDeleted, ClearUsage, ClearPlans, Doomed;
    DropOwned(db.images, Doomed(db, now), u);
  }

  lemma QuietGain(db: Db, s: Step, u: Id)
    requires Legal(db, s) && Images !in Writes(s.action)
    ensures Next(db, s).images == db.images && Gain(db, s, u) == 0
  {
    hide Next, Legal;
    NextKeeps(db, s, Images);
  }

  lemma ImagesUnderIds(db: Db)
    requires Sound(db)
    ensures forall p <- db.images :: db.images[p].publicID == p
  {
  }

  lemma UploadsGain(db: Db, s: Step, u: Id)
    requires Legal(db, s) && s.saved && (s.action.DoUpload? || s.action.DoImport?)
    ensures Owned(Effect(db, s).images, u) == Owned(db.images, u) + Gain(db, s, u)
  {
    hide Owned, Upload, ImportImages, VariantBytes, Sizes, FreshImports;
    if s.action.DoUpload? {
      UploadGain(db, s.action.image, u);
    } else {
      ImportGain(db, s.action.userID, s.action.images, u);
    }
  }

  lemma ProcessesGain(db: Db, s: Step, u: Id)
    requires Sound(db) && Legal(db, s) && s.action.DoProcess?
    ensures Owned(Effect(db, s).images, u) == Owned(db.images, u) + Gain(db, s, u)
  {
    hide Owned, Sound, Process, Growth, IsActiveOf;
    var p := s.action.publicID;
    ImagesUnderIds(db);
    assert p in db.images ==> db.images[p].publicID == p;
    ProcessGain(db, p, s.action.processed, s.action.blockedHashes, u);
  }

  lemma EditsGain(db: Db, s: Step, u: Id)
    requires Legal(db, s) && Guarded(db, s) && s.saved && (s.action.DoAdminFreeze? || s.action.DoSetPrivacy?)
    ensures Owned(Effect(db, s).images, u) == Owned(db.images, u) + Gain(db, s, u)
  {
    hide Owned, AdminFreeze, SetPrivacy;
    if s.action.DoAdminFreeze? {
      FreezeGain(db, s.action.publicID, s.action.reason, u);
    } else {
      PrivacyGain(db, s.action.publicID, s.action.userID, s.action.isPrivate, u);
    }
  }

  lemma PurgesGain(db: Db, s: Step, u: Id)
    requires Legal(db, s) && s.saved && s.action.DoPurge?
    ensures Owned(Effect(db, s).images, u) == Owned(db.images, u) + Gain(db, s, u)
  {
    hide Owned, Purge, Doomed, Enumerates;
    PurgeGain(db, s.now, s.action.order, u);
  }

  lemma GainEffect(db: Db, s: Step, u: Id)
    requires Sound(db) && Legal(db, s) && Guarded(db, s) && (s.saved || KeepsWrites(s.action))
    ensures Owned(Effect(db, s).images, u) == Owned(db.images, u) + Gain(db, s, u)
  {
    hide Owned, Sound, Legal, Effect, Gain, Guarded;
    match s.action
    case DoUpload(_) => UploadsGain(db, s, u);
    case DoImport(_, _) => UploadsGain(db, s, u);
    case DoProcess(_, _, _) => ProcessesGain(db, s, u);
    case DoDeleteImage(_, _) => DeletesGain(db, s, u);
    case DoAdminDelete(_) => DeletesGain(db, s, u);
    case DoAdminFreeze(_, _) => EditsGain(db, s, u);
    case DoSetPrivacy(_, _, _) => EditsGain(db, s, u);
    case DoPurge(_) => PurgesGain(db, s, u);
    case _ => QuietGain(db, s, u);
  }

  lemma GainNext(db: Db, s: Step, u: Id)
    requires Sound(db) && Legal(db, s) && Guarded(db, s)
    ensures Owned(Next(db, s).images, u) == Owned(db.images, u) + Gain(db, s, u)
  {
    hide Owned, Sound, Legal, Effect, Guarded, Stored, VariantBytes, Sizes, Growth, Doomed;
    if s.saved || KeepsWrites(s.action) {
      GainEffect(db, s, u);
    }
  }

  // ---------------------------------------------------------------- from the check to the filing

  ghost function GainOver(db: Db, clock: Time, steps: seq<Step>, u: Id): int
    requires LegalRun(db, clock, steps)
    decreases |steps|
  {
    if steps == [] then 0 else Gain(db, steps[0], u) + GainOver(Next(db, steps[0]), steps[0].now, steps[1..], u)
  }

  lemma {:induction false} OwnedOver(db: Db, clock: Time, steps: seq<Step>, u: Id)
    requires Sound(db) && LegalRun(db, clock, steps) && GuardedRun(db, clock, steps)
    ensures Owned(Run(db, clock, steps).images, u) == Owned(db.images, u) + GainOver(db, clock, steps, u)
    decreases |steps|
  {
    hide Sound, Owned, Next, Legal, Guarded, Gain;
    if steps != [] {
      GainNext(db, steps[0], u);
      SoundNext(db, steps[0]);
      OwnedOver(Next(db, steps[0]), steps[0].now, steps[1..], u);
    }
  }

  lemma StorageIsOwned(db: Db, u: Id)
    requires Sound(db) && Ledger(db)
    ensures StorageOf(db, u) == Owned(db.images, u)
  {
    hide KeyedBy, APIKeysKeyed, EmailsNormal, Owned;
    if u in db.usage {
      assert LedgerOf(db, u);
    } else {
      OwnedNothing(db.images, u);
    }
  }

  /** Over every guarded run the counter moves by what is filed for the user less what is released. */
  lemma StorageOver(db: Db, clock: Time, steps: seq<Step>, u: Id)
    requires Sound(db) && Ledger(db) && LegalRun(db, clock, steps) && GuardedRun(db, clock, steps)
    ensures StorageOf(Run(db, clock, steps), u) == StorageOf(db, u) + GainOver(db, clock, steps, u)
  {
    hide Sound, Ledger, Owned, Run, LegalRun, GuardedRun, GainOver, StorageOf;
    LedgerRun(db, clock, steps);
    OwnedOver(db, clock, steps, u);
    StorageIsOwned(db, u);
    StorageIsOwned(Run(db, clock, steps), u);
  }

  /** The check of uploadImage in the state it reads: subscription active, email verified, quota left for the file. */
  predicate Admitted(db: Db, u: Id, bytes: nat, now: Time) {
    && Entitlement(db, u).Some?
    && u in db.subs && db.subs[u].EffectiveStatus(now) == SubActive
    && u in db.users && db.users[u].emailVerified
    && CheckUpload(Entitlement(db, u).value.quota, UsageOf(db, u), bytes).None?
  }

  lemma FiledStorage(db: Db, image: Image)
    ensures StorageOf(Upload(db, image), image.userID) == StorageOf(db, image.userID) + image.bytes + VariantBytes(image.variants)
  {
    hide VariantBytes;
  }

  /** The check leaves the user some room, never less than none. The upload is filed after any run of other steps, and
      then the storage quota it was checked against holds if and only if what the user gained in between and the
      upload's variants fit into that room together. */
  lemma UploadFits(before: Db, clock: Time, steps: seq<Step>, image: Image, now: Time, limit: int)
    requires Sound(before) && Ledger(before) && LegalRun(before, clock, steps) && GuardedRun(before, clock, steps)
    requires Admitted(before, image.userID, image.bytes, now)
    requires Entitlement(before, image.userID).value.quota.storageBytes == Some(limit)
    ensures var u := image.userID;
            var room := limit - StorageOf(before, u) - image.bytes;
            && room >= 0
            && (Allows(Some(limit), StorageOf(Upload(Run(before, clock, steps), image), u)) <==>
                GainOver(before, clock, steps, u) + VariantBytes(image.variants) <= room)
  {
    hide Sound, Ledger, Run, LegalRun, GuardedRun, GainOver, Entitlement, VariantBytes, Upload;
    StorageOver(before, clock, steps, image.userID);
    FiledStorage(Run(before, clock, steps), image);
  }

  // ---------------------------------------------------------------- and it may not fit

  /** Filed at once, a file of exactly the free size overruns the quota with its first variant. */
  lemma VariantsOverrun(before: Db, image: Image, now: Time)
    requires Admitted(before, image.userID, image.bytes, now)
    requires Entitlement(before, image.userID).value.quota.storageBytes == Some(StorageOf(before, image.userID) + image.bytes)
    requires |image.variants| == 1 && image.variants[0].bytes == 1
    ensures !Allows(Entitlement(before, image.userID).value.quota.storageBytes, StorageOf(Upload(before, image), image.userID))
  {
    hide Entitlement, Admitted, Upload;
    FiledStorage(before, image);
    assert VariantBytes(image.variants) == 1 + VariantBytes(image.variants[1..]) && image.variants[1..] == [];
  }

  /** Two uploads of 6 bytes without variants, both checked against a quota of 10 before either is filed: both are
      admitted, and 12 bytes are stored. */
  lemma ConcurrentUploadsOverrun(before: Db, u: Id, a: Image, b: Image, now: Time)
    requires Sound(before) && Ledger(before) && FreshImage(before, a) && FreshImage(before, b) && a.publicID != b.publicID
    requires a.userID == b.userID == u && a.bytes == b.bytes == 6 && a.variants == b.variants == []
    requires Admitted(before, u, 6, now) && UsageOf(before, u) == NO_USAGE
    requires Entitlement(before, u).value.quota.storageBytes == Some(10)
    ensures var steps := [Step(DoUpload(a), now, true)];
            && LegalRun(before, now, steps) && GuardedRun(before, now, steps)
            && FreshImage(Run(before, now, steps), b)
            && StorageOf(Upload(Run(before, now, steps), b), u) == 12
            && !Allows(Some(10), StorageOf(Upload(Run(before, now, steps), b), u))
  {
    hide Entitlement, Sound, Ledger, Admitted;
    var steps := [Step(DoUpload(a), now, true)];
    var next := Upload(before, a);
    assert Legal(before, steps[0]) && Next(before, steps[0]) == next && steps[1..] == [];
    assert LegalRun(next, now, []) && Run(next, now, []) == next && GuardedRun(next, now, []);
    FiledStorage(before, a);
    FiledStorage(next, b);
  }
}
