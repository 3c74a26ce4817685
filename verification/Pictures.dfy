/** What becomes of an image: who may delete, freeze or hide it, what processing makes of it, and what the owner's
    counters show afterwards. */
module ImageOutcomes {
  import opened Text
  import opened Domain
  import opened Db
  import opened Variants
  import opened Orders
  import opened Handlers
  import opened Actions
  import Frames

  /** The bytes of a list of variants are those of each, added up. */
  lemma {:induction false} VariantBytesAdd(vs: seq<Variant>, v: Variant)
    ensures VariantBytes([]) == 0
    ensures VariantBytes(vs + [v]) == VariantBytes(vs) + v.bytes
  {
    if vs == [] {
      assert [] + [v] == [v] && [v][1..] == [];
    } else {
      assert (vs + [v])[1..] == vs[1..] + [v];
      VariantBytesAdd(vs[1..], v);
    }
  }

  /** One image is written, and the storage and processing counters of its owner. */
  predicate Files(db: Db, next: Db, image: Image, storageBytes: int, events: int) {
    && next.images == db.images[image.publicID := image]
    && var was := if image.userID in db.usage then db.usage[image.userID] else Usage(0, 0, 0, 0, 0);
       next.usage == db.usage[image.userID := Usage(storageBytes, was.bandwidthBytes, was.imageRequests, was.apiCalls, was.imageProcessEvents + events)]
  }

  function StorageAt(db: Db, u: Id): int {
    if u in db.usage then db.usage[u].storageBytes else 0
  }

  /** An upload files the image and counts original, variants and one processing event. */
  lemma UploadExact(db: Db, image: Image)
    ensures var next := Upload(db, image);
      && Files(db, next, image, StorageAt(db, image.userID) + image.bytes + VariantBytes(image.variants), 1)
      && next == db.(images := next.images, usage := next.usage)
  {
  }

  /** A restored image counts its original only, and no processing event. */
  lemma ImportExact(db: Db, u: Id, image: Image)
    requires image.userID == u
    ensures Files(db, ImportOne(db, u, image), image, StorageAt(db, u) + image.bytes, 0)
  {
  }

  /** What a delete takes off a counter that may be too small. */
  function Less(storageBytes: int, image: Image): int {
    if storageBytes < image.bytes + VariantBytes(image.variants) then 0
    else storageBytes - image.bytes - VariantBytes(image.variants)
  }

  lemma RemoveWrites(db: Db, p: Id)
    requires p in db.images && db.images[p].publicID == p
    ensures Files(db, Remove(db, p), db.images[p].(status := ImageDeleted), Less(StorageAt(db, db.images[p].userID), db.images[p]), 0)
  {
    hide VariantBytes;
  }

  /** The log is no part of it. */
  lemma WritesAudited(db: Db, next: Db, image: Image, storageBytes: int, events: int, action: AuditAction, target: Id)
    requires Files(db, next, image, storageBytes, events)
    ensures Files(db, Audited(next, "admin", action, target), image, storageBytes, events)
  {
  }

  /** Only the owner deletes an image, and only once; an admin deletes any. The record stays, marked, and its bytes no
      longer count. */
  lemma DeleteExact(db: Db, p: Id, u: Id)
    requires p in db.images ==> db.images[p].publicID == p
    ensures var r := DeleteImage(db, p, u);
      && (r.Ok? <==> p in db.images && db.images[p].userID == u && db.images[p].status != ImageDeleted)
      && (r.Ok? ==> Files(db, r.value, db.images[p].(status := ImageDeleted), Less(StorageAt(db, u), db.images[p]), 0))
    ensures var r := AdminDelete(db, p);
      && (r.Ok? <==> p in db.images)
      && (r.Ok? ==> var v := db.images[p].userID;
                    Files(db, r.value, db.images[p].(status := ImageDeleted), Less(StorageAt(db, v), db.images[p]), 0))
  {
    hide Files, Remove, Less, StorageAt;
    if p in db.images {
      RemoveWrites(db, p);
      WritesAudited(db, Remove(db, p), db.images[p].(status := ImageDeleted), Less(StorageAt(db, db.images[p].userID), db.images[p]), 0, LogImageDelete, p);
    }
  }

  /** Freezing gives the image a reason, hiding it is its owner's; neither moves a counter. */
  lemma FlagsExact(db: Db, p: Id, u: Id, reason: string, isPrivate: bool)
    ensures var r := AdminFreeze(db, p, reason);
      && (r.Ok? <==> p in db.images)
      && (r.Ok? ==>
          && r.value.usage == db.usage && r.value.riskEvents == db.riskEvents
          && p in r.value.images && r.value.images == db.images[p := r.value.images[p]]
          && var image := r.value.images[p];
             image == db.images[p].(status := ImageFrozen, moderationReason := image.moderationReason)
             && TrimSpace(image.moderationReason) != "" && (TrimSpace(reason) != "" ==> image.moderationReason == reason))
    ensures var r := SetPrivacy(db, p, u, isPrivate);
      && (r.Ok? <==> p in db.images && db.images[p].userID == u && db.images[p].status != ImageDeleted)
      && (r.Ok? ==> r.value == db.(images := db.images[p := db.images[p].(isPrivate := isPrivate)]))
  {
    TrimSpaceOfTrimmed("frozen by admin");
    hide TrimSpace;
  }

  /** What processing reports counts where it says something; the image is frozen if its hash is blocked. */
  predicate Refreshes(db: Db, was: Image, p: Processed, blockedHashes: seq<string>, image: Image) {
    && image.publicID == was.publicID && image.userID == was.userID && image.filename == was.filename
    && image.objectKey == was.objectKey && image.contentType == was.contentType && image.bytes == was.bytes
    && image.isPrivate == was.isPrivate && image.createdAt == was.createdAt
    && (if p.width > 0 then image.width == p.width else image.width == was.width)
    && (if p.height > 0 then image.height == p.height else image.height == was.height)
    && (if p.perceptualHash != "" then image.perceptualHash == p.perceptualHash else image.perceptualHash == was.perceptualHash)
    && image.variants == Merge(was.variants, p.variants)
    && if Blocked(db, was.publicID, image.perceptualHash, blockedHashes)
       then image.status == ImageFrozen && TrimSpace(image.moderationReason) != ""
       else image.status == was.status && image.moderationReason == was.moderationReason
  }

  lemma RefreshedSo(db: Db, was: Image, p: Processed, blockedHashes: seq<string>)
    ensures Refreshes(db, was, p, blockedHashes, Refreshed(db, was, p, blockedHashes))
  {
    hide Merge, Blocked, TrimSpace;
    NotBlankReason();
  }

  lemma FiledWrites(db: Db, image: Image, before: nat, after: nat)
    requires StorageAt(db, image.userID) >= before
    ensures Files(db, FileProcessed(db, image, Adjusted(UsageOf(db, image.userID), before, after)), image,
                   StorageAt(db, image.userID) - before + after, 1)
  {
    Frames.FiledParts(db, image, Adjusted(UsageOf(db, image.userID), before, after));
    hide FileProcessed;
  }

  lemma FiledRisk(db: Db, image: Image, usage: Usage)
    ensures |FileProcessed(db, image, usage).riskEvents| == |db.riskEvents| + if image.status == ImageFrozen then 1 else 0
    ensures FileProcessed(db, image, usage).images == db.images[image.publicID := image]
  {
  }

  /** An image that is gone is an error, one that is frozen or deleted is left alone, an active one is refreshed; its
      owner's storage moves by what the variants gained or lost, and a freeze is put on record. */
  lemma ProcessExact(db: Db, p: Id, processed: Processed, blockedHashes: seq<string>)
    requires p in db.images ==> db.images[p].publicID == p
    ensures var r := Process(db, p, processed, blockedHashes);
      && (r.Ok? <==> p in db.images)
      && (r.Ok? && db.images[p].status != ImageActive ==> r.value == db)
      && (r.Ok? && db.images[p].status == ImageActive ==>
          && var was, next := db.images[p], r.value;
             && p in next.images && Refreshes(db, was, processed, blockedHashes, next.images[p])
             && (StorageAt(db, was.userID) >= VariantBytes(was.variants) ==>
                   Files(db, next, next.images[p],
                          StorageAt(db, was.userID) - VariantBytes(was.variants) + VariantBytes(next.images[p].variants), 1))
             && |next.riskEvents| == |db.riskEvents| + if next.images[p].status == ImageFrozen then 1 else 0)
  {
    hide VariantBytes, Files, Refreshed, Adjusted, FileProcessed, StorageAt;
    if p in db.images && db.images[p].status == ImageActive {
      var was := db.images[p];
      RefreshedSo(db, was, processed, blockedHashes);
      var image := Refreshed(db, was, processed, blockedHashes);
      var before, after := VariantBytes(was.variants), VariantBytes(image.variants);
      if StorageAt(db, was.userID) >= before {
        FiledWrites(db, image, before, after);
      }
      FiledRisk(db, image, Adjusted(UsageOf(db, was.userID), before, after));
    }
  }

  lemma NotBlankReason()
    ensures TrimSpace("pHash blocked") != ""
  {
    TrimSpaceOfTrimmed("pHash blocked");
  }

  /** A freeze spreads: any other image with the same hash, in whatever case, is blocked from then on. */
  lemma FreezeSpreads(db: Db, p: Id, reason: string, other: Id, hash: string, blockedHashes: seq<string>)
    requires p in db.images && TrimSpace(db.images[p].perceptualHash) == db.images[p].perceptualHash != ""
    requires other != p && Lower(hash) == Lower(db.images[p].perceptualHash) && TrimSpace(hash) == hash != ""
    ensures Blocked(AdminFreeze(db, p, reason).value, other, hash, blockedHashes)
  {
    FlagsExact(db, p, "", reason, false);
    hide TrimSpace, Lower;
    var next := AdminFreeze(db, p, reason).value;
    assert next.images[p].status == ImageFrozen && next.images[p].perceptualHash == db.images[p].perceptualHash;
  }

  /** And nothing else is: without configured hashes a blocked image has a frozen twin. */
  lemma BlockedTwin(db: Db, p: Id, hash: string)
    requires Blocked(db, p, hash, [])
    ensures exists q :: q in db.images && q != p && db.images[q].status == ImageFrozen && TrimSpace(db.images[q].moderationReason) != ""
                        && Lower(db.images[q].perceptualHash) == Lower(TrimSpace(hash))
  {
  }

  /** A configured hash blocks every image that has it, in whatever case; a blank hash blocks nothing. */
  lemma ConfiguredBlocks(db: Db, p: Id, hash: string, configured: string, blockedHashes: seq<string>)
    requires configured in blockedHashes && Lower(configured) == Lower(TrimSpace(hash))
    ensures Blocked(db, p, hash, blockedHashes) <==> TrimSpace(hash) != ""
  {
    hide TrimSpace, Lower;
  }
}
