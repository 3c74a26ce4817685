/** Image handlers as they run: the parts under the lock, with their loops, a save that may fail, and the rollback. */
module ImageHandlers {
  import opened Text
  import opened Domain
  import opened Db
  import opened MemoryState
  import opened Variants
  import H = Handlers

  /** variantBytesTotal. */
  method VariantBytesTotal(vs: seq<Variant>) returns (total: nat)
    ensures total == VariantBytes(vs)
  {
    total := 0;
    for i := 0 to |vs|
      invariant total + VariantBytes(vs[i..]) == VariantBytes(vs)
    {
      total := total + vs[i].bytes;
    }
  }

  function UsageIn(usage: map<Id, Usage>, u: Id): Usage {
    if u in usage then usage[u] else NO_USAGE
  }

  // ---------------------------------------------------------------- upload

  /** The writes of uploadImage. */
  method File(state: State, image: Image)
    requires state.Valid()
    modifies state, state.Arrays()
    ensures state.Valid() && (forall a <- state.Arrays() :: a in old(state.Arrays()) || fresh(a))
    ensures state.View() == H.Upload(old(state.View()), image)
  {
    hide State.Valid, State.View;
    state.Fields();
    var usage := UsageIn(state.usage, image.userID);
    var variantBytes := VariantBytesTotal(image.variants);
    state.PutImage(image);
    state.PutUsage(image.userID, usage.(storageBytes := usage.storageBytes + (image.bytes + variantBytes),
                                        imageProcessEvents := usage.imageProcessEvents + 1));
  }

  method Upload(state: State, image: Image, saveOK: bool) returns (saved: bool)
    requires state.Valid() && Keyed(state.View())
    modifies state, state.Arrays()
    ensures state.Valid() && (forall a <- state.Arrays() :: a in old(state.Arrays()) || fresh(a))
    ensures saved == saveOK && state.View() == if saved then H.Upload(old(state.View()), image) else old(state.View())
  {
    hide State.Valid, State.View, Keyed, Snapshot.Records, H.Upload;
    ghost var before := state.View();
    var snap := state.Take();
    File(state, image);
    saved := state.PersistOrRollback(snap, before, saveOK);
  }

  // ---------------------------------------------------------------- processing

  /** moderationBlockReasonLocked: the configured hashes, then the images frozen for a reason. */
  method IsBlocked(images: map<Id, Image>, publicID: Id, rawHash: string, blockedHashes: seq<string>) returns (blocked: bool)
    ensures blocked <==>
      && TrimSpace(rawHash) != ""
      && (|| (exists b :: b in blockedHashes && Lower(b) == Lower(TrimSpace(rawHash)))
          || (exists p :: p in images && p != publicID && images[p].perceptualHash != ""
               && Lower(images[p].perceptualHash) == Lower(TrimSpace(rawHash))
               && images[p].status == ImageFrozen && TrimSpace(images[p].moderationReason) != ""))
  {
    var hash := TrimSpace(rawHash);
    if hash == "" {
      return false;
    }
    for i := 0 to |blockedHashes|
      invariant forall j :: 0 <= j < i ==> Lower(blockedHashes[j]) != Lower(hash)
    {
      if Lower(blockedHashes[i]) == Lower(hash) {
        return true;
      }
    }
    var todo := images.Keys;
    while todo != {}
      invariant todo <= images.Keys
      invariant forall p <- images :: p !in todo && p != publicID && images[p].perceptualHash != ""
                                      && Lower(images[p].perceptualHash) == Lower(hash) && images[p].status == ImageFrozen
                                      ==> TrimSpace(images[p].moderationReason) == ""
    {
      var p :| p in todo;
      var other := images[p];
      if p != publicID && other.perceptualHash != "" && Lower(other.perceptualHash) == Lower(hash)
         && other.status == ImageFrozen && TrimSpace(other.moderationReason) != "" {
        return true;
      }
      todo := todo - {p};
    }
    return false;
  }

  /** The image with what the processor found. */
  method Refresh(images: map<Id, Image>, image: Image, p: H.Processed, blockedHashes: seq<string>, ghost db: Db) returns (current: Image)
    requires images == db.images
    ensures current == H.Refreshed(db, image, p, blockedHashes)
  {
    hide Merge, TrimSpace;
    current := image;
    if p.width > 0 {
      current := current.(width := p.width);
    }
    if p.height > 0 {
      current := current.(height := p.height);
    }
    if p.perceptualHash != "" {
      current := current.(perceptualHash := p.perceptualHash);
    }
    var merged := MergeVariants(current.variants, p.variants);
    current := current.(variants := merged);
    var blocked := IsBlocked(images, image.publicID, current.perceptualHash, blockedHashes);
    if blocked {
      current := current.(status := ImageFrozen, moderationReason := "pHash blocked");
    }
  }

  method FileProcessed(state: State, image: Image, usage: Usage)
    requires state.Valid()
    modifies state, state.Arrays()
    ensures state.Valid() && (forall a <- state.Arrays() :: a in old(state.Arrays()) || fresh(a))
    ensures state.View() == H.FileProcessed(old(state.View()), image, usage)
  {
    hide State.Valid, State.View, State.Arrays;
    if image.status == ImageFrozen {
      state.AppendRisk(RiskEvent("image_moderation", image.moderationReason));
    }
    state.PutUsage(image.userID, usage);
    state.PutImage(image);
    state.AppendAudit("worker", LogImageProcess, image.publicID, false);
    if image.status == ImageFrozen {
      state.AppendAudit("worker", LogModerationFreeze, image.publicID, false);
    }
  }

  /** The switch on old and new variant bytes. */
  method Adjust(current: Usage, before: nat, after: nat) returns (usage: Usage)
    ensures usage == H.Adjusted(current, before, after)
  {
    usage := current;
    if after > before {
      usage := usage.(storageBytes := usage.storageBytes + (after - before));
    } else if before > after && usage.storageBytes >= before - after {
      usage := usage.(storageBytes := usage.storageBytes - (before - after));
    }
    usage := usage.(imageProcessEvents := usage.imageProcessEvents + 1);
  }

  /** The locked part of ProcessImageVariants. A failed save is reported; nothing is rolled back. */
  method Process(state: State, publicID: Id, p: H.Processed, blockedHashes: seq<string>) returns (found: bool)
    requires state.Valid()
    modifies state, state.Arrays()
    ensures state.Valid() && (forall a <- state.Arrays() :: a in old(state.Arrays()) || fresh(a))
    ensures var r := H.Process(old(state.View()), publicID, p, blockedHashes);
            found == r.Ok? && state.View() == if r.Ok? then r.value else old(state.View())
  {
    hide State.Valid, State.View, H.Refreshed, H.FileProcessed, H.Adjusted, VariantBytes;
    state.Fields();
    if publicID !in state.images {
      return false;
    }
    var current := state.images[publicID];
    if current.status == ImageDeleted || current.status == ImageFrozen {
      return true;
    }
    var before := VariantBytesTotal(current.variants);
    var next := Refresh(state.images, current, p, blockedHashes, state.View());
    var after := VariantBytesTotal(next.variants);
    var usage := Adjust(UsageIn(state.usage, current.userID), before, after);
    RefreshedOwner(state.View(), current, p, blockedHashes);
    FileProcessed(state, next, usage);
    return true;
  }

  lemma RefreshedOwner(db: Db, current: Image, p: H.Processed, blockedHashes: seq<string>)
    ensures H.Refreshed(db, current, p, blockedHashes).userID == current.userID
  {
  }

  // ---------------------------------------------------------------- deleting and freezing

  /** The counter both delete handlers leave: never below zero. */
  method Release(usage: Usage, image: Image) returns (released: Usage)
    ensures released == H.Released(usage, image.bytes + VariantBytes(image.variants))
  {
    var variantBytes := VariantBytesTotal(image.variants);
    var storedBytes := image.bytes + variantBytes;
    if usage.storageBytes >= storedBytes {
      released := usage.(storageBytes := usage.storageBytes - storedBytes);
    } else {
      released := usage.(storageBytes := 0);
    }
  }

  method MarkRemoved(state: State, image: Image, released: Usage)
    requires state.Valid() && image.publicID in state.View().images && state.View().images[image.publicID] == image
    requires released == H.Released(UsageOf(state.View(), image.userID), image.bytes + VariantBytes(image.variants))
    modifies state, state.Arrays()
    ensures state.Valid() && state.Arrays() == old(state.Arrays())
    ensures state.View() == H.Remove(old(state.View()), image.publicID)
  {
    hide State.Valid, State.View, State.Arrays, VariantBytes, H.Released;
    state.PutImage(image.(status := ImageDeleted));
    state.PutUsage(image.userID, released);
  }

  method RemoveAndLog(state: State, image: Image, released: Usage)
    requires state.Valid() && image.publicID in state.View().images && state.View().images[image.publicID] == image
    requires released == H.Released(UsageOf(state.View(), image.userID), image.bytes + VariantBytes(image.variants))
    modifies state, state.Arrays()
    ensures state.Valid() && (forall a <- state.Arrays() :: a in old(state.Arrays()) || fresh(a))
    ensures H.AdminDelete(old(state.View()), image.publicID) == Ok(state.View())
  {
    hide State.Valid, State.View, State.Arrays, VariantBytes, H.Released, H.Remove;
    MarkRemoved(state, image, released);
    state.AppendAudit("admin", LogImageDelete, image.publicID, false);
  }

  lemma ImagesFiled(state: State)
    requires state.Valid() && Keyed(state.View())
    ensures forall p <- state.View().images :: state.View().images[p].publicID == p
  {
  }

  /** deleteImage. */
  method DeleteImage(state: State, publicID: Id, userID: Id, saveOK: bool) returns (saved: bool)
    requires state.Valid() && Keyed(state.View())
    modifies state, state.Arrays()
    ensures state.Valid() && (forall a <- state.Arrays() :: a in old(state.Arrays()) || fresh(a))
    ensures var r := H.DeleteImage(old(state.View()), publicID, userID);
            saved == (saveOK && r.Ok?) && state.View() == if saved then r.value else old(state.View())
  {
    hide State.Valid, State.View, Keyed, Snapshot.Records, H.Remove, H.Released, VariantBytes;
    ghost var before := state.View();
    state.Fields();
    ImagesFiled(state);
    if publicID !in state.images || state.images[publicID].userID != userID || state.images[publicID].status == ImageDeleted {
      return false;
    }
    var released := Release(UsageIn(state.usage, userID), state.images[publicID]);
    var snap := state.Take();
    MarkRemoved(state, state.images[publicID], released);
    saved := state.PersistOrRollback(snap, before, saveOK);
  }

  method SaveRemoval(state: State, image: Image, released: Usage, saveOK: bool) returns (saved: bool)
    requires state.Valid() && Keyed(state.View())
    requires image.publicID in state.View().images && state.View().images[image.publicID] == image
    requires released == H.Released(UsageOf(state.View(), image.userID), image.bytes + VariantBytes(image.variants))
    modifies state, state.Arrays()
    ensures state.Valid() && (forall a <- state.Arrays() :: a in old(state.Arrays()) || fresh(a))
    ensures var r := H.AdminDelete(old(state.View()), image.publicID);
            saved == saveOK && r.Ok? && state.View() == if saved then r.value else old(state.View())
  {
    hide State.Valid, State.View, Keyed, Snapshot.Records, H.AdminDelete, H.Released, VariantBytes;
    ghost var before := state.View();
    var snap := state.Take();
    RemoveAndLog(state, image, released);
    saved := state.PersistOrRollback(snap, before, saveOK);
  }

  /** adminDeleteImage. */
  method AdminDelete(state: State, publicID: Id, saveOK: bool) returns (saved: bool)
    requires state.Valid() && Keyed(state.View())
    modifies state, state.Arrays()
    ensures state.Valid() && (forall a <- state.Arrays() :: a in old(state.Arrays()) || fresh(a))
    ensures var r := H.AdminDelete(old(state.View()), publicID);
            saved == (saveOK && r.Ok?) && state.View() == if saved then r.value else old(state.View())
  {
    hide State.Valid, State.View, Keyed, H.Remove, H.Released, VariantBytes;
    state.Fields();
    ImagesFiled(state);
    if publicID !in state.images {
      return false;
    }
    var image := state.images[publicID];
    var released := Release(UsageIn(state.usage, image.userID), image);
    saved := SaveRemoval(state, image, released, saveOK);
  }

  method Freeze(state: State, image: Image, why: string)
    requires state.Valid()
    modifies state, state.Arrays()
    ensures state.Valid() && (forall a <- state.Arrays() :: a in old(state.Arrays()) || fresh(a))
    ensures state.View() == Audited(old(state.View()).(
              images := old(state.View()).images[image.publicID := image.(status := ImageFrozen, moderationReason := why)]),
              "admin", LogImageFreeze, image.publicID)
  {
    hide State.Valid, State.View, State.Arrays;
    state.PutImage(image.(status := ImageFrozen, moderationReason := why));
    state.AppendAudit("admin", LogImageFreeze, image.publicID, false);
  }

  method SaveFreeze(state: State, image: Image, why: string, saveOK: bool) returns (saved: bool)
    requires state.Valid() && Keyed(state.View())
    modifies state, state.Arrays()
    ensures state.Valid() && (forall a <- state.Arrays() :: a in old(state.Arrays()) || fresh(a))
    ensures saved == saveOK && state.View() == if saved then Audited(old(state.View()).(
              images := old(state.View()).images[image.publicID := image.(status := ImageFrozen, moderationReason := why)]),
              "admin", LogImageFreeze, image.publicID) else old(state.View())
  {
    hide State.Valid, State.View, Keyed, Snapshot.Records, Audited;
    ghost var before := state.View();
    var snap := state.Take();
    Freeze(state, image, why);
    saved := state.PersistOrRollback(snap, before, saveOK);
  }

  /** adminFreezeImage. */
  method AdminFreeze(state: State, publicID: Id, reason: string, saveOK: bool) returns (saved: bool)
    requires state.Valid() && Keyed(state.View())
    modifies state, state.Arrays()
    ensures state.Valid() && (forall a <- state.Arrays() :: a in old(state.Arrays()) || fresh(a))
    ensures var r := H.AdminFreeze(old(state.View()), publicID, reason);
            saved == (saveOK && r.Ok?) && state.View() == if saved then r.value else old(state.View())
  {
    hide State.Valid, State.View, State.Arrays, Keyed, TrimSpace, Audited;
    state.Fields();
    ImagesFiled(state);
    if publicID !in state.images {
      return false;
    }
    saved := SaveFreeze(state, state.images[publicID], if TrimSpace(reason) == "" then "frozen by admin" else reason, saveOK);
  }

  /** setImagePrivacy. */
  method SetPrivacy(state: State, publicID: Id, userID: Id, isPrivate: bool, saveOK: bool) returns (saved: bool)
    requires state.Valid() && Keyed(state.View())
    modifies state, state.Arrays()
    ensures state.Valid() && (forall a <- state.Arrays() :: a in old(state.Arrays()) || fresh(a))
    ensures var r := H.SetPrivacy(old(state.View()), publicID, userID, isPrivate);
            saved == (saveOK && r.Ok?) && state.View() == if saved then r.value else old(state.View())
  {
    hide State.Valid, State.View, Keyed, Snapshot.Records;
    ghost var before := state.View();
    state.Fields();
    ImagesFiled(state);
    if publicID !in state.images || state.images[publicID].userID != userID || state.images[publicID].status == ImageDeleted {
      return false;
    }
    var snap := state.Take();
    state.PutImage(state.images[publicID].(isPrivate := isPrivate));
    saved := state.PersistOrRollback(snap, before, saveOK);
  }

  // ---------------------------------------------------------------- restoring a backup

  /** The loop of restoreBackupImages under the lock: the counter is added up and written once, at the end. */
  method ImportAll(state: State, userID: Id, images: seq<Image>)
    requires state.Valid()
    modifies state, state.Arrays()
    ensures state.Valid() && (forall a <- state.Arrays() :: a in old(state.Arrays()) || fresh(a))
    ensures |images| > 0 ==> state.View() == H.ImportImages(old(state.View()), userID, images)
  {
    hide State.Valid, State.View, State.Arrays;
    state.Fields();
    ghost var db := state.View();
    var usage := UsageIn(state.usage, userID);
    for i := 0 to |images|
      invariant state.Valid() && (forall a <- state.Arrays() :: a in old(state.Arrays()) || fresh(a))
      invariant H.ImportImages(db, userID, images)
                == H.ImportImages(if i == 0 then db else state.View().(usage := db.usage[userID := usage]), userID, images[i..])
      invariant i == 0 ==> state.View() == db
      invariant state.View().usage == db.usage
      invariant i == 0 ==> usage == UsageIn(db.usage, userID)
    {
      var image := images[i];
      ghost var here := if i == 0 then db else state.View().(usage := db.usage[userID := usage]);
      ghost var next := H.ImportOne(here, userID, image);
      assert images[i..][0] == image && images[i..][1..] == images[i + 1..];
      state.PutImage(image);
      usage := usage.(storageBytes := usage.storageBytes + image.bytes);
      state.AppendAudit("system", LogRestoreImage, image.publicID, false);
      ImportedUsage(db, here, userID, image, usage);
      assert state.View().(usage := db.usage[userID := usage]) == next;
    }
    state.PutUsage(userID, usage);
  }

  lemma ImportedUsage(db: Db, here: Db, userID: Id, image: Image, usage: Usage)
    requires here.usage == db.usage || (userID in here.usage && here.usage == db.usage[userID := here.usage[userID]])
    requires usage == UsageOf(here, userID).(storageBytes := UsageOf(here, userID).storageBytes + image.bytes)
    ensures H.ImportOne(here, userID, image).usage == db.usage[userID := usage]
  {
  }

  // ---------------------------------------------------------------- purging

  predicate OfUser(images: map<Id, Image>, u: Id, p: Id, key: string) {
    p in images && images[p].userID == u && images[p].status != ImageDeleted && key in H.ObjectKeys(images[p])
  }

  predicate Drops(image: Image, u: Id) {
    image.userID == u && image.status != ImageDeleted
  }

  /** All images but those of `todo` have been looked at. */
  predicate DroppedBut(next: map<Id, Image>, images: map<Id, Image>, u: Id, todo: set<Id>) {
    next.Keys == images.Keys
    && forall p <- images :: next[p] == if p !in todo && Drops(images[p], u) then images[p].(status := ImageDeleted) else images[p]
  }

  ghost predicate ListedBut(listed: seq<(Id, string)>, images: map<Id, Image>, u: Id, todo: set<Id>) {
    forall p, key :: (p, key) in listed <==> p !in todo && OfUser(images, u, p, key)
  }

  lemma LoopEnds(images: map<Id, Image>, next: map<Id, Image>, listed: seq<(Id, string)>, u: Id)
    ensures DroppedBut(images, images, u, images.Keys) && ListedBut([], images, u, images.Keys)
    ensures DroppedBut(next, images, u, {}) ==> next == H.DropImages(images, {u})
    ensures ListedBut(listed, images, u, {}) ==> forall p, key :: (p, key) in listed <==> OfUser(images, u, p, key)
  {
  }

  lemma DropTurns(images: map<Id, Image>, next: map<Id, Image>, u: Id, todo: set<Id>, p: Id)
    requires p in todo && p in images && DroppedBut(next, images, u, todo)
    ensures DroppedBut(if Drops(images[p], u) then next[p := images[p].(status := ImageDeleted)] else next, images, u, todo - {p})
  {
    hide Drops;
  }

  lemma ListTurns(images: map<Id, Image>, listed: seq<(Id, string)>, u: Id, todo: set<Id>, p: Id)
    requires p in todo && p in images && ListedBut(listed, images, u, todo)
    ensures ListedBut(if Drops(images[p], u) then listed + Tagged(p, H.ObjectKeys(images[p])) else listed, images, u, todo - {p})
  {
    hide H.ObjectKeys;
  }

  /** The inner loop of adminPurgeExpired: delete the user's images where they are filed, and note their objects. */
  method DropUserImages(state: State, u: Id) returns (listed: seq<(Id, string)>)
    requires state.Valid() && KeyedBy(state.View().images, ImageKey)
    modifies state, state.Arrays()
    ensures state.Valid() && state.Arrays() == old(state.Arrays())
    ensures state.View() == old(state.View()).(images := H.DropImages(old(state.View()).images, {u}))
    ensures forall p, key :: (p, key) in listed <==> OfUser(old(state.View()).images, u, p, key)
  {
    hide State.Valid, State.View, State.Arrays, OfUser, H.ObjectKeys, H.DropImages, DroppedBut, ListedBut;
    ghost var before := state.View();
    state.Fields();
    var images := state.images;
    LoopEnds(images, images, [], u);
    listed := [];
    var todo := images.Keys;
    while todo != {}
      invariant todo <= images.Keys
      invariant state.Valid() && state.Arrays() == old(state.Arrays()) && state.View() == before.(images := state.View().images)
      invariant DroppedBut(state.View().images, images, u, todo)
      invariant ListedBut(listed, images, u, todo)
    {
      var p :| p in todo;
      var image := images[p];
      DropTurns(images, state.View().images, u, todo, p);
      ListTurns(images, listed, u, todo, p);
      if image.userID == u && image.status != ImageDeleted {
        listed := listed + Tagged(p, H.ObjectKeys(image));
        state.PutImage(image.(status := ImageDeleted));
      }
      todo := todo - {p};
    }
    LoopEnds(images, state.View().images, listed, u);
  }

  function Tagged(p: Id, keys: seq<string>): (r: seq<(Id, string)>)
    ensures forall q, key :: (q, key) in r <==> q == p && key in keys
  {
    if keys == [] then [] else [(p, keys[0])] + Tagged(p, keys[1..])
  }

  function Ids(order: seq<Id>): set<Id> {
    set u | u in order
  }

  /** The state once the users of `order` are purged. */
  function PurgedSome(db: Db, order: seq<Id>): Db {
    db.(subs := H.MarkDeleted(db.subs, Ids(order)), images := H.DropImages(db.images, Ids(order)),
        usage := H.ClearUsage(db.usage, Ids(order)), users := H.ClearPlans(db.users, Ids(order)),
        auditLogs := db.auditLogs + H.PurgeAudits(order))
  }

  /** One turn of the outer loop. */
  function PurgedOne(db: Db, u: Id): Db
    requires u in db.subs
  {
    Audited(db.(subs := db.subs[u := db.subs[u].(status := SubDeleted)], images := H.DropImages(db.images, {u}),
                usage := db.usage[u := NO_USAGE],
                users := if u in db.users then db.users[u := db.users[u].(planSlug := "")] else db.users),
            "system", LogPurgeExpired, u)
  }

  lemma SubsNext(subs: map<Id, Subscription>, doomed: set<Id>, u: Id)
    requires u in subs && u !in doomed
    ensures var s := H.MarkDeleted(subs, doomed);
            u in s && s[u] == subs[u] && s[u := s[u].(status := SubDeleted)] == H.MarkDeleted(subs, doomed + {u})
  {
  }

  lemma ImagesNext(images: map<Id, Image>, doomed: set<Id>, u: Id)
    ensures H.DropImages(H.DropImages(images, doomed), {u}) == H.DropImages(images, doomed + {u})
  {
  }

  lemma UsageNext(usage: map<Id, Usage>, doomed: set<Id>, u: Id)
    ensures H.ClearUsage(usage, doomed)[u := NO_USAGE] == H.ClearUsage(usage, doomed + {u})
  {
  }

  lemma UsersNext(users: map<Id, User>, doomed: set<Id>, u: Id)
    ensures var s := H.ClearPlans(users, doomed);
            (if u in s then s[u := s[u].(planSlug := "")] else s) == H.ClearPlans(users, doomed + {u})
  {
  }

  lemma PurgedNext(db: Db, order: seq<Id>, u: Id)
    requires u in db.subs && u !in order
    ensures u in PurgedSome(db, order).subs && PurgedSome(db, order).subs[u] == db.subs[u]
    ensures PurgedOne(PurgedSome(db, order), u) == PurgedSome(db, order + [u])
  {
    hide H.MarkDeleted, H.DropImages, H.ClearUsage, H.ClearPlans, H.PurgeAudits;
    assert Ids(order + [u]) == Ids(order) + {u};
    SubsNext(db.subs, Ids(order), u);
    ImagesNext(db.images, Ids(order), u);
    UsageNext(db.usage, Ids(order), u);
    UsersNext(db.users, Ids(order), u);
    AuditsNext(order, u);
  }

  lemma AuditsNext(order: seq<Id>, u: Id)
    ensures H.PurgeAudits(order + [u]) == H.PurgeAudits(order) + [AuditLog("system", LogPurgeExpired, u, false)]
  {
  }

  /** Records stay filed under their keys while users are purged. */
  lemma PurgedFiled(db: Db, order: seq<Id>)
    requires Keyed(db)
    ensures var s := PurgedSome(db, order);
            KeyedBy(s.images, ImageKey) && KeyedBy(s.subs, SubKey) && KeyedBy(s.users, UserKey)
  {
  }

  method PurgeUser(state: State, u: Id) returns (listed: seq<(Id, string)>)
    requires state.Valid() && u in state.View().subs
    requires KeyedBy(state.View().images, ImageKey) && KeyedBy(state.View().subs, SubKey) && KeyedBy(state.View().users, UserKey)
    modifies state, state.Arrays()
    ensures state.Valid() && (forall a <- state.Arrays() :: a in old(state.Arrays()) || fresh(a))
    ensures state.View() == PurgedOne(old(state.View()), u)
    ensures forall p, key :: (p, key) in listed <==> OfUser(old(state.View()).images, u, p, key)
  {
    hide State.Valid, State.View, State.Arrays, H.DropImages;
    state.Fields();
    state.PutSub(state.subs[u].(status := SubDeleted));
    listed := DropUserImages(state, u);
    state.PutUsage(u, NO_USAGE);
    state.Fields();
    if u in state.users {
      state.PutUser(state.users[u].(planSlug := ""));
    }
    state.AppendAudit("system", LogPurgeExpired, u, false);
  }

  /** The objects listed for the users purged so far are those of their remaining images. */
  ghost predicate Lists(listed: seq<(Id, string)>, images: map<Id, Image>, order: seq<Id>) {
    forall p, key :: (p, key) in listed <==> p in images && images[p].userID in order && OfUser(images, images[p].userID, p, key)
  }

  lemma ListsNext(listed: seq<(Id, string)>, more: seq<(Id, string)>, db: Db, order: seq<Id>, u: Id)
    requires Lists(listed, db.images, order) && u !in order
    requires forall p, key :: (p, key) in more <==> OfUser(PurgedSome(db, order).images, u, p, key)
    ensures Lists(listed + more, db.images, order + [u])
  {
    hide H.ObjectKeys, PurgedSome;
    StillThere(db, order, u);
  }

  lemma StillThere(db: Db, order: seq<Id>, u: Id)
    requires u !in order
    ensures forall p, key :: OfUser(PurgedSome(db, order).images, u, p, key) <==> OfUser(db.images, u, p, key)
  {
    hide H.ObjectKeys;
  }

  /** The outer loop of adminPurgeExpired, over the subscriptions in whatever order. */
  method PurgeAll(state: State, now: Time) returns (order: seq<Id>, listed: seq<(Id, string)>)
    requires state.Valid() && Keyed(state.View())
    modifies state, state.Arrays()
    ensures state.Valid() && (forall a <- state.Arrays() :: a in old(state.Arrays()) || fresh(a))
    ensures H.Enumerates(order, H.Doomed(old(state.View()), now))
    ensures state.View() == PurgedSome(old(state.View()), order)
    ensures Lists(listed, old(state.View()).images, order)
  {
    hide State.Valid, State.View, State.Arrays, Keyed, PurgedSome, PurgedOne, Lists, OfUser;
    ghost var before := state.View();
    order, listed := [], [];
    PurgedNone(before);
    state.Fields();
    var subs := state.subs.Keys;
    var todo := subs;
    while todo != {}
      invariant todo <= subs == before.subs.Keys
      invariant state.Valid() && (forall a <- state.Arrays() :: a in old(state.Arrays()) || fresh(a))
      invariant state.View() == PurgedSome(before, order)
      invariant forall u :: u in order <==> u in subs && u !in todo && before.subs[u].EffectiveStatus(now) == SubDeleted
      invariant |order| == |Ids(order)|
      invariant Lists(listed, before.images, order)
    {
      var u :| u in todo;
      PurgedNext(before, order, u);
      PurgedFiled(before, order);
      state.Fields();
      var sub := state.subs[u];
      if sub.EffectiveStatus(now) == SubDeleted {
        var objects := PurgeUser(state, u);
        ListsNext(listed, objects, before, order, u);
        assert Ids(order + [u]) == Ids(order) + {u};
        order, listed := order + [u], listed + objects;
      }
      todo := todo - {u};
    }
    assert Ids(order) == H.Doomed(before, now);
  }

  lemma PurgedNone(db: Db)
    ensures PurgedSome(db, []) == db && Lists([], db.images, [])
  {
    assert Ids([]) == {};
  }

  lemma PurgedAll(db: Db, now: Time, order: seq<Id>, listed: seq<(Id, string)>)
    requires H.Enumerates(order, H.Doomed(db, now))
    ensures PurgedSome(db, order) == H.Purge(db, now, order)
    ensures Lists(listed, db.images, order) ==> H.Listed(db, now, listed)
  {
    assert Ids(order) == H.Doomed(db, now);
    assert forall u :: u in order <==> u in H.Doomed(db, now);
    if Lists(listed, db.images, order) {
      forall i | 0 <= i < |listed| ensures listed[i].0 in H.Purged(db, now) && listed[i].1 in H.ObjectKeys(db.images[listed[i].0]) {
        assert (listed[i].0, listed[i].1) in listed;
      }
    }
  }

  /** adminPurgeExpired. */
  method Purge(state: State, now: Time, saveOK: bool) returns (saved: bool, order: seq<Id>, listed: seq<(Id, string)>)
    requires state.Valid() && Keyed(state.View())
    modifies state, state.Arrays()
    ensures state.Valid() && (forall a <- state.Arrays() :: a in old(state.Arrays()) || fresh(a))
    ensures H.Enumerates(order, H.Doomed(old(state.View()), now)) && H.Listed(old(state.View()), now, listed)
    ensures saved == saveOK && state.View() == if saved then H.Purge(old(state.View()), now, order) else old(state.View())
  {
    hide State.Valid, State.View, Keyed, Snapshot.Records, PurgedSome, Lists, H.Purge, H.Listed, H.Enumerates, H.Doomed;
    ghost var before := state.View();
    var snap := state.Take();
    order, listed := PurgeAll(state, now);
    PurgedAll(before, now, order, listed);
    saved := state.PersistOrRollback(snap, before, saveOK);
  }
}
