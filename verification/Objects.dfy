/** The object store beside the state: puts and deletes happen outside the lock, one at a time, between the
    steps of everyone else. */
module Objects {
  import opened Text
  import opened Domain
  import opened Db
  import opened Variants
  import opened Orders
  import opened Handlers
  import opened Actions
  import opened Frames

  // ---------------------------------------------------------------- object keys

  datatype ObjectName = Original(pid: Id, base: string) | Restored(pid: Id, base: string) | VariantObject(pid: Id, kind: string, ext: string)

  function KeyText(name: ObjectName): string {
    match name
    case Original(pid, base) => "original/" + pid + "-" + base
    case Restored(pid, base) => "restored/" + pid + "-" + base
    case VariantObject(pid, kind, ext) => "variants/" + pid + "/" + kind + ext
  }

  /** "img_" and a uuid. */
  const ID_LENGTH := 40

  function Owner(key: string): Id {
    if |key| < 9 + ID_LENGTH then "" else key[9..9 + ID_LENGTH]
  }

  /** Whatever the file is called, its object key tells whose object it is. */
  lemma OwnerOfKey(name: ObjectName)
    requires |name.pid| == ID_LENGTH
    ensures Owner(KeyText(name)) == name.pid
  {
    hide Owner;
    match name
    case Original(pid, base) =>
      OwnerInside("original/", pid, "-" + base);
      assert KeyText(name) == "original/" + (pid + ("-" + base));
    case Restored(pid, base) =>
      OwnerInside("restored/", pid, "-" + base);
      assert KeyText(name) == "restored/" + (pid + ("-" + base));
    case VariantObject(pid, kind, ext) =>
      OwnerInside("variants/", pid, "/" + kind + ext);
      assert KeyText(name) == "variants/" + (pid + ("/" + kind + ext));
  }

  lemma OwnerInside(prefix: string, pid: Id, rest: string)
    requires |prefix| == 9 && |pid| == ID_LENGTH
    ensures Owner(prefix + (pid + rest)) == pid
  {
  }

  /** Trimming a key leaves its owner. */
  lemma OwnerOfTrimmed(name: ObjectName)
    requires |name.pid| == ID_LENGTH
    ensures Owner(TrimSpace(KeyText(name))) == name.pid
  {
    hide Owner, TrimSpace, IsSpace;
    NotSpaces();
    match name
    case Original(pid, base) =>
      TrimmedInside("original/", pid, "-", base);
      assert KeyText(name) == ("original/" + (pid + "-")) + base;
    case Restored(pid, base) =>
      TrimmedInside("restored/", pid, "-", base);
      assert KeyText(name) == ("restored/" + (pid + "-")) + base;
    case VariantObject(pid, kind, ext) =>
      TrimmedInside("variants/", pid, "/", kind + ext);
      assert KeyText(name) == ("variants/" + (pid + "/")) + (kind + ext);
  }

  lemma NotSpaces()
    ensures !IsSpace('o') && !IsSpace('r') && !IsSpace('v') && !IsSpace('-') && !IsSpace('/')
  {
  }

  lemma TrimmedInside(prefix: string, pid: Id, mark: string, rest: string)
    requires |prefix| == 9 && |pid| == ID_LENGTH && |mark| == 1 && !IsSpace(prefix[0]) && !IsSpace(mark[0])
    ensures Owner(TrimSpace((prefix + (pid + mark)) + rest)) == pid
  {
    var front := prefix + (pid + mark);
    TrimRightKeeps(front, rest);
    var cut :| TrimRight(front + rest) == front + cut;
    assert (front + rest)[0] == prefix[0];
    assert TrimSpace(front + rest) == front + cut;
    assert front + cut == prefix + (pid + (mark + cut));
    OwnerInside(prefix, pid, mark + cut);
  }

  lemma {:induction false} TrimRightKeeps(front: string, rest: string)
    requires front != "" && !IsSpace(front[|front| - 1])
    ensures exists cut :: TrimRight(front + rest) == front + cut
  {
    var s := front + rest;
    if rest == "" {
      assert s == front && TrimRight(s) == front + "";
    } else if IsSpace(s[|s| - 1]) {
      assert s[..|s| - 1] == front + rest[..|rest| - 1];
      TrimRightKeeps(front, rest[..|rest| - 1]);
    } else {
      assert TrimRight(s) == front + rest;
    }
  }

  predicate VariantsIn(vs: seq<Variant>, store: set<string>) {
    forall i :: 0 <= i < |vs| ==> vs[i].objectKey in store
  }

  predicate VariantsOwned(vs: seq<Variant>, p: Id) {
    forall i :: 0 <= i < |vs| ==> Owner(vs[i].objectKey) == p
  }

  predicate Stocked(image: Image, store: set<string>) {
    image.objectKey in store && VariantsIn(image.variants, store)
  }

  predicate KeysOwnedBy(image: Image, p: Id) {
    Owner(image.objectKey) == p && VariantsOwned(image.variants, p)
  }

  // ---------------------------------------------------------------- the world

  /** A handler outside the lock: an upload or import with the keys it has put, the worker with the variants it
      has put, or a handler working through the keys it has to delete. */
  datatype Thread = Creating(put: set<string>) | Processing(pid: Id, generated: seq<Variant>) | Deleting(keys: seq<string>)

  /** `used` are all image ids ever drawn, `creator` the thread of each id not filed yet. */
  datatype World = World(db: Db, store: set<string>, threads: map<nat, Thread>, used: set<Id>, creator: map<Id, nat>)

  datatype WorldStep =
    | Begin(t: nat)
    | DrawId(t: nat, pid: Id)
    | PutNew(t: nat, name: ObjectName)
    | Abort(t: nat)
    | FileNew(t: nat, s: Step)
    | BeginProcessing(t: nat, pid: Id)
    | PutVariant(t: nat, v: Variant, ext: string)
    | FileProcessing(t: nat, s: Step)
    | DeleteOne(t: nat, s: Step)
    | PurgeAll(t: nat, s: Step, listed: seq<(Id, string)>)
    | DeleteNext(t: nat, reached: bool)
    | Vanish(t: nat)
    | Other(s: Step)

  predicate IsCreating(w: World, t: nat) {
    t in w.threads && w.threads[t].Creating?
  }

  /** An image whose keys carry its id and were put by the thread. */
  predicate Prepared(w: World, t: nat, image: Image)
    requires IsCreating(w, t)
  {
    && image.publicID in w.creator && w.creator[image.publicID] == t
    && KeysOwnedBy(image, image.publicID) && Stocked(image, w.threads[t].put)
  }

  /** uploadImage files one image, restoreBackupImages any number. */
  predicate AllPrepared(w: World, t: nat, a: Action)
    requires IsCreating(w, t)
  {
    match a
    case DoUpload(image) => Prepared(w, t, image)
    case DoImport(_, images) => forall i :: 0 <= i < |images| ==> Prepared(w, t, images[i])
    case _ => false
  }

  /** The step files what the thread generated. */
  predicate FilesGenerated(th: Thread, a: Action) {
    th.Processing? && a.DoProcess? && a.publicID == th.pid && a.processed.variants == th.generated
  }

  /** The other handlers: nothing is put or deleted in the store. */
  predicate Elsewhere(a: Action) {
    !(a.DoUpload? || a.DoImport? || a.DoProcess? || a.DoDeleteImage? || a.DoAdminDelete? || a.DoPurge?)
  }

  ghost predicate Enabled(w: World, e: WorldStep) {
    match e
    case Begin(t) => t !in w.threads
    case DrawId(t, pid) => IsCreating(w, t) && pid !in w.used && |pid| == ID_LENGTH
    case PutNew(t, name) => IsCreating(w, t) && name.pid in w.creator && w.creator[name.pid] == t
    case Abort(t) => IsCreating(w, t)
    case FileNew(t, s) => IsCreating(w, t) && AllPrepared(w, t, s.action) && Legal(w.db, s)
    case BeginProcessing(t, pid) => t !in w.threads && pid in w.db.images && w.db.images[pid].status == ImageActive
    case PutVariant(t, v, ext) =>
      && t in w.threads && w.threads[t].Processing?
      && v.objectKey == KeyText(VariantObject(w.threads[t].pid, v.kind, ext))
    case FileProcessing(t, s) => t in w.threads && FilesGenerated(w.threads[t], s.action) && Legal(w.db, s)
    case DeleteOne(t, s) => t !in w.threads && (s.action.DoDeleteImage? || s.action.DoAdminDelete?) && Legal(w.db, s)
    case PurgeAll(t, s, listed) => t !in w.threads && s.action.DoPurge? && Legal(w.db, s) && Listed(w.db, s.now, listed)
    case DeleteNext(t, _) => t in w.threads && w.threads[t].Deleting? && w.threads[t].keys != []
    case Vanish(t) => t in w.threads
    case Other(s) => Elsewhere(s.action) && Legal(w.db, s)
  }

  function FreedIds(creator: map<Id, nat>, t: nat): map<Id, nat> {
    map pid | pid in creator && creator[pid] != t :: creator[pid]
  }

  /** cleanupObjects: a creation that comes to nothing deletes what it put, in some order, each key trimmed first. */
  predicate Cleanup(keys: seq<string>, put: set<string>) {
    forall i :: 0 <= i < |keys| ==> exists key :: key in put && keys[i] == TrimSpace(key)
  }

  ghost function CleanupOf(put: set<string>): seq<string>
    ensures Cleanup(CleanupOf(put), put) && forall key <- put :: TrimSpace(key) in CleanupOf(put)
  {
    if put == {} then []
    else
      var key :| key in put;
      [TrimSpace(key)] + CleanupOf(put - {key})
  }

  /** The handler's own keys become deletions when its save fails. */
  ghost function Filed(w: World, t: nat, s: Step): World
    requires IsCreating(w, t) && Legal(w.db, s)
  {
    w.(db := Actions.Next(w.db, s), creator := FreedIds(w.creator, t),
       threads := if s.saved then w.threads - {t} else w.threads[t := Deleting(CleanupOf(w.threads[t].put))])
  }

  function DeletedID(s: Step): Id
    requires s.action.DoDeleteImage? || s.action.DoAdminDelete?
  {
    s.action.publicID
  }

  /** The handler finds no image to delete. */
  predicate Refused(db: Db, s: Step)
    requires s.action.DoDeleteImage? || s.action.DoAdminDelete?
  {
    || DeletedID(s) !in db.images
    || (s.action.DoDeleteImage? && (db.images[DeletedID(s)].userID != s.action.userID || db.images[DeletedID(s)].status == ImageDeleted))
  }

  function Names(listed: seq<(Id, string)>): seq<string> {
    seq(|listed|, i requires 0 <= i < |listed| => listed[i].1)
  }

  ghost function AfterDelete(w: World, t: nat, s: Step): World
    requires (s.action.DoDeleteImage? || s.action.DoAdminDelete?) && Legal(w.db, s)
  {
    var next := w.(db := Actions.Next(w.db, s));
    if s.saved && !Refused(w.db, s)
    then next.(threads := w.threads[t := Deleting(ObjectKeys(w.db.images[DeletedID(s)]))])
    else next
  }

  ghost function AfterPurge(w: World, t: nat, s: Step, listed: seq<(Id, string)>): World
    requires s.action.DoPurge? && Legal(w.db, s)
  {
    var next := w.(db := Actions.Next(w.db, s));
    if s.saved then next.(threads := w.threads[t := Deleting(Names(listed))]) else next
  }

  ghost function Next(w: World, e: WorldStep): World
    requires Enabled(w, e)
  {
    match e
    case Begin(t) => w.(threads := w.threads[t := Creating({})])
    case DrawId(t, pid) => w.(used := w.used + {pid}, creator := w.creator[pid := t])
    case PutNew(t, name) =>
      w.(store := w.store + {KeyText(name)}, threads := w.threads[t := Creating(w.threads[t].put + {KeyText(name)})])
    case Abort(t) =>
      w.(creator := FreedIds(w.creator, t), threads := w.threads[t := Deleting(CleanupOf(w.threads[t].put))])
    case FileNew(t, s) => Filed(w, t, s)
    case BeginProcessing(t, pid) => w.(threads := w.threads[t := Processing(pid, [])])
    case PutVariant(t, v, _) =>
      w.(store := w.store + {v.objectKey}, threads := w.threads[t := w.threads[t].(generated := w.threads[t].generated + [v])])
    case FileProcessing(t, s) => w.(db := Actions.Next(w.db, s), threads := w.threads - {t})
    case DeleteOne(t, s) =>
      AfterDelete(w, t, s)
    case PurgeAll(t, s, listed) => AfterPurge(w, t, s, listed)
    case DeleteNext(t, reached) =>
      w.(store := if reached then w.store - {w.threads[t].keys[0]} else w.store,
         threads := w.threads[t := Deleting(w.threads[t].keys[1..])])
    case Vanish(t) => w.(threads := w.threads - {t}, creator := FreedIds(w.creator, t))
    case Other(s) => w.(db := Actions.Next(w.db, s))
  }

  ghost predicate CanRun(w: World, es: seq<WorldStep>)
    decreases |es|
  {
    es == [] || (Enabled(w, es[0]) && CanRun(Next(w, es[0]), es[1..]))
  }

  ghost function Run(w: World, es: seq<WorldStep>): World
    requires CanRun(w, es)
    decreases |es|
  {
    if es == [] then w else Run(Next(w, es[0]), es[1..])
  }

  // ---------------------------------------------------------------- the invariant

  predicate IsActive(images: map<Id, Image>, p: Id) {
    p in images && images[p].status == ImageActive
  }

  /** Every active image finds its original and its variants in the store. */
  ghost predicate NoDangling(images: map<Id, Image>, store: set<string>) {
    forall p <- images :: images[p].status == ImageActive ==> Stocked(images[p], store)
  }

  /** Images are filed under ids drawn before, and their keys carry these ids. */
  ghost predicate Labelled(images: map<Id, Image>, used: set<Id>, creator: map<Id, nat>) {
    forall p <- images :: p in used && p !in creator && |p| == ID_LENGTH && images[p].publicID == p && KeysOwnedBy(images[p], p)
  }

  /** The object belongs to an image that is not active and will never be. */
  predicate Lost(w: World, key: string) {
    Owner(key) in w.used && Owner(key) !in w.creator && !IsActive(w.db.images, Owner(key))
  }

  ghost predicate ThreadGood(w: World, t: nat, th: Thread) {
    match th
    case Creating(put) =>
      forall key <- put :: && key in w.store && Owner(key) in w.creator && w.creator[Owner(key)] == t
                           && Owner(TrimSpace(key)) == Owner(key)
    case Processing(pid, generated) =>
      && pid in w.db.images && VariantsOwned(generated, pid)
      && (IsActive(w.db.images, pid) ==> VariantsIn(generated, w.store))
    case Deleting(keys) => forall i :: 0 <= i < |keys| ==> Lost(w, keys[i])
  }

  ghost predicate Good(w: World) {
    && NoDangling(w.db.images, w.store)
    && Labelled(w.db.images, w.used, w.creator)
    && (forall pid <- w.creator :: pid in w.used && |pid| == ID_LENGTH)
    && (forall t <- w.threads :: ThreadGood(w, t, w.threads[t]))
  }

  // ---------------------------------------------------------------- the state moves

  /** Images keep their keys, none appears and none becomes active. */
  ghost predicate OnlyFewer(images: map<Id, Image>, next: map<Id, Image>) {
    && next.Keys == images.Keys
    && forall p <- images :: next[p].publicID == images[p].publicID
                             && next[p].objectKey == images[p].objectKey && next[p].variants == images[p].variants
                             && (next[p].status == ImageActive ==> images[p].status == ImageActive)
  }

  lemma GoodFewer(w: World, db: Db)
    requires Good(w) && OnlyFewer(w.db.images, db.images)
    ensures Good(w.(db := db))
  {
    var v := w.(db := db);
    forall t | t in v.threads ensures ThreadGood(v, t, v.threads[t]) {
      assert ThreadGood(w, t, w.threads[t]);
      if w.threads[t].Deleting? {
        forall i | 0 <= i < |w.threads[t].keys| ensures Lost(v, w.threads[t].keys[i]) {
          assert Lost(w, w.threads[t].keys[i]);
        }
      }
    }
  }

  lemma ElsewhereFewer(db: Db, s: Step)
    requires Legal(db, s) && Elsewhere(s.action)
    ensures OnlyFewer(db.images, Actions.Next(db, s).images)
  {
    hide Actions.Next;
    if Images !in Writes(s.action) {
      NextKeeps(db, s, Images);
    } else {
      FlagsFewer(db, s);
    }
  }

  lemma FlagsFewer(db: Db, s: Step)
    requires Legal(db, s) && (s.action.DoAdminFreeze? || s.action.DoSetPrivacy?)
    ensures OnlyFewer(db.images, Actions.Next(db, s).images)
  {
    hide OnlyFewer, AdminFreeze, SetPrivacy;
    SameFewer(db.images);
    match s.action
    case DoAdminFreeze(p, reason) => FreezeFewer(db, p, reason);
    case DoSetPrivacy(p, u, isPrivate) => PrivacyFewer(db, p, u, isPrivate);
  }

  lemma SameFewer(images: map<Id, Image>)
    ensures OnlyFewer(images, images)
  {
  }

  lemma PutFewer(images: map<Id, Image>, p: Id, image: Image)
    requires p in images && image.publicID == images[p].publicID && image.objectKey == images[p].objectKey && image.variants == images[p].variants
    requires image.status == ImageActive ==> images[p].status == ImageActive
    ensures OnlyFewer(images, images[p := image])
  {
  }

  lemma FreezeFewer(db: Db, p: Id, reason: string)
    ensures OnlyFewer(db.images, Or(AdminFreeze(db, p, reason), db).images)
  {
    hide OnlyFewer;
    SameFewer(db.images);
    if p in db.images {
      PutFewer(db.images, p, AdminFreeze(db, p, reason).value.images[p]);
    }
  }

  lemma PrivacyFewer(db: Db, p: Id, u: Id, isPrivate: bool)
    ensures OnlyFewer(db.images, Or(SetPrivacy(db, p, u, isPrivate), db).images)
  {
    hide OnlyFewer;
    SameFewer(db.images);
    if p in db.images {
      PutFewer(db.images, p, db.images[p].(isPrivate := isPrivate));
    }
  }

  lemma RemoveFewer(db: Db, p: Id)
    requires p in db.images
    ensures OnlyFewer(db.images, Remove(db, p).images) && !IsActive(Remove(db, p).images, p)
  {
  }

  lemma DeleteFewer(db: Db, s: Step)
    requires Legal(db, s) && (s.action.DoDeleteImage? || s.action.DoAdminDelete?)
    ensures OnlyFewer(db.images, Actions.Next(db, s).images)
    ensures s.saved && !Refused(db, s) ==> !IsActive(Actions.Next(db, s).images, DeletedID(s))
  {
    hide OnlyFewer, Remove, IsActive;
    SameFewer(db.images);
    if DeletedID(s) in db.images {
      RemoveFewer(db, DeletedID(s));
    }
  }

  lemma DropFewer(images: map<Id, Image>, doomed: set<Id>)
    ensures OnlyFewer(images, DropImages(images, doomed))
    ensures forall p <- images :: images[p].userID in doomed ==> !IsActive(DropImages(images, doomed), p)
  {
  }

  lemma PurgeDrops(db: Db, now: Time, order: seq<Id>)
    ensures Purge(db, now, order).images == DropImages(db.images, Doomed(db, now))
  {
  }

  lemma PurgeFewer(db: Db, s: Step)
    requires Legal(db, s) && s.action.DoPurge?
    ensures OnlyFewer(db.images, Actions.Next(db, s).images)
    ensures s.saved ==> forall p <- Purged(db, s.now) :: !IsActive(Actions.Next(db, s).images, p)
  {
    hide OnlyFewer, DropImages, Doomed, IsActive, Purge, Enumerates;
    SameFewer(db.images);
    PurgeDrops(db, s.now, s.action.order);
    DropFewer(db.images, Doomed(db, s.now));
  }

  /** New images are filed under ids the thread drew; the old ones stand still. */
  ghost predicate Adds(w: World, t: nat, next: map<Id, Image>)
    requires IsCreating(w, t)
  {
    && w.db.images.Keys <= next.Keys
    && forall p <- next :: if p in w.db.images then next[p] == w.db.images[p]
                           else next[p].publicID == p && Prepared(w, t, next[p])
  }

  lemma GoodAdds(w: World, t: nat, db: Db)
    requires Good(w) && IsCreating(w, t) && Adds(w, t, db.images)
    ensures Good(w.(db := db, creator := FreedIds(w.creator, t), threads := w.threads - {t}))
  {
    var v := w.(db := db, creator := FreedIds(w.creator, t), threads := w.threads - {t});
    assert ThreadGood(w, t, w.threads[t]);
    forall r | r in v.threads ensures ThreadGood(v, r, v.threads[r]) {
      assert ThreadGood(w, r, w.threads[r]);
    }
  }

  lemma {:induction false} ImportedImages(db: Db, userID: Id, images: seq<Image>)
    ensures var next := ImportImages(db, userID, images).images;
            && db.images.Keys <= next.Keys
            && forall p <- next :: (p in db.images && next[p] == db.images[p])
                                   || exists i :: 0 <= i < |images| && images[i].publicID == p && next[p] == images[i]
    decreases |images|
  {
    if images != [] {
      var one := ImportOne(db, userID, images[0]);
      ImportedImages(one, userID, images[1..]);
      var next := ImportImages(one, userID, images[1..]).images;
      forall p | p in next && !(p in db.images && next[p] == db.images[p])
        ensures exists i :: 0 <= i < |images| && images[i].publicID == p && next[p] == images[i]
      {
        if p in one.images && next[p] == one.images[p] {
          assert images[0].publicID == p && next[p] == images[0];
        } else {
          var i :| 0 <= i < |images[1..]| && images[1..][i].publicID == p && next[p] == images[1..][i];
          assert images[i + 1].publicID == p && next[p] == images[i + 1];
        }
      }
    }
  }

  /** The objects put before are those the filed images name. */
  lemma FilesAdds(w: World, t: nat, s: Step)
    requires Good(w) && IsCreating(w, t) && AllPrepared(w, t, s.action) && Legal(w.db, s) && s.saved
    ensures Adds(w, t, Actions.Next(w.db, s).images)
  {
    match s.action
    case DoUpload(image) => UploadAdds(w, t, image);
    case DoImport(userID, images) => ImportAdds(w, t, userID, images);
  }

  lemma UploadAdds(w: World, t: nat, image: Image)
    requires Good(w) && IsCreating(w, t) && Prepared(w, t, image)
    ensures Adds(w, t, Upload(w.db, image).images)
  {
  }

  lemma ImportAdds(w: World, t: nat, userID: Id, images: seq<Image>)
    requires Good(w) && IsCreating(w, t) && forall i :: 0 <= i < |images| ==> Prepared(w, t, images[i])
    ensures Adds(w, t, ImportImages(w.db, userID, images).images)
  {
    hide ImportImages;
    ImportedImages(w.db, userID, images);
    var next := ImportImages(w.db, userID, images).images;
    forall p | p in next
      ensures if p in w.db.images then next[p] == w.db.images[p] else next[p].publicID == p && Prepared(w, t, next[p])
    {
      if !(p in w.db.images && next[p] == w.db.images[p]) {
        var i :| 0 <= i < |images| && images[i].publicID == p && next[p] == images[i];
        assert Prepared(w, t, images[i]);
      }
    }
  }

  // ---------------------------------------------------------------- processing

  lemma MergeFrom(existing: seq<Variant>, generated: seq<Variant>)
    ensures forall v :: v in Merge(existing, generated) ==> v in existing || v in generated
  {
    var all := existing + generated;
    KindsOccur(all);
    NewestKind(all);
    forall v | v in Merge(existing, generated) ensures v in existing || v in generated {
      if generated != [] {
        var i :| 0 <= i < |Collapse(all)| && Collapse(all)[i] == v;
        assert v == Newest(all, Kinds(all)[i]) && v in all;
      }
    }
  }

  /** One image gets variants that are old or generated; nothing becomes active. */
  ghost predicate Reworked(images: map<Id, Image>, next: map<Id, Image>, pid: Id, generated: seq<Variant>) {
    && next.Keys == images.Keys
    && (forall p <- images :: p != pid ==> next[p] == images[p])
    && (pid in images ==>
          && next[pid].publicID == images[pid].publicID && next[pid].objectKey == images[pid].objectKey
          && (next[pid].status == ImageActive ==> images[pid].status == ImageActive)
          && forall v :: v in next[pid].variants ==> v in images[pid].variants || v in generated)
  }

  lemma ProcessReworks(db: Db, pid: Id, p: Processed, blockedHashes: seq<string>)
    requires pid in db.images ==> db.images[pid].publicID == pid
    ensures Reworked(db.images, Or(Process(db, pid, p, blockedHashes), db).images, pid, p.variants)
  {
    hide Merge, Blocked, Adjusted, VariantBytes, FileProcessed;
    if pid in db.images && db.images[pid].status == ImageActive {
      var next := Refreshed(db, db.images[pid], p, blockedHashes);
      MergeFrom(db.images[pid].variants, p.variants);
      FiledParts(db, next, Adjusted(UsageOf(db, next.userID), VariantBytes(db.images[pid].variants), VariantBytes(next.variants)));
    }
  }

  lemma GoodReworked(w: World, t: nat, db: Db)
    requires Good(w) && t in w.threads && w.threads[t].Processing?
    requires Reworked(w.db.images, db.images, w.threads[t].pid, w.threads[t].generated)
    ensures Good(w.(db := db, threads := w.threads - {t}))
  {
    var v := w.(db := db, threads := w.threads - {t});
    assert ThreadGood(w, t, w.threads[t]);
    forall r | r in v.threads ensures ThreadGood(v, r, v.threads[r]) {
      assert ThreadGood(w, r, w.threads[r]);
    }
    ReworkedKeys(w, t, db);
  }

  lemma ReworkedKeys(w: World, t: nat, db: Db)
    requires Good(w) && t in w.threads && w.threads[t].Processing?
    requires Reworked(w.db.images, db.images, w.threads[t].pid, w.threads[t].generated)
    ensures NoDangling(db.images, w.store) && Labelled(db.images, w.used, w.creator)
  {
    var pid := w.threads[t].pid;
    assert ThreadGood(w, t, w.threads[t]);
    forall p | p in db.images
      ensures KeysOwnedBy(db.images[p], p) && (db.images[p].status == ImageActive ==> Stocked(db.images[p], w.store))
    {
      if p == pid {
        forall i | 0 <= i < |db.images[p].variants|
          ensures Owner(db.images[p].variants[i].objectKey) == p
          ensures db.images[p].status == ImageActive ==> db.images[p].variants[i].objectKey in w.store
        {
          var v := db.images[p].variants[i];
          assert v in db.images[p].variants;
        }
      }
    }
  }

  // ---------------------------------------------------------------- threads and objects

  lemma GoodThread(w: World, t: nat, th: Thread)
    requires Good(w) && ThreadGood(w, t, th)
    ensures Good(w.(threads := w.threads[t := th]))
  {
    var v := w.(threads := w.threads[t := th]);
    forall r | r in v.threads ensures ThreadGood(v, r, v.threads[r]) {
      assert r != t ==> ThreadGood(w, r, w.threads[r]);
    }
  }

  lemma GoodDrop(w: World, t: nat)
    requires Good(w)
    ensures Good(w.(threads := w.threads - {t}, creator := FreedIds(w.creator, t)))
  {
    var v := w.(threads := w.threads - {t}, creator := FreedIds(w.creator, t));
    forall r | r in v.threads ensures ThreadGood(v, r, v.threads[r]) {
      assert ThreadGood(w, r, w.threads[r]);
    }
  }

  /** What a creation put is nobody's once its ids are given up. */
  lemma GoodCleanup(w: World, t: nat)
    requires Good(w) && IsCreating(w, t)
    ensures Good(w.(creator := FreedIds(w.creator, t), threads := w.threads[t := Deleting(CleanupOf(w.threads[t].put))]))
  {
    hide TrimSpace, Owner;
    var put := w.threads[t].put;
    var v := w.(threads := w.threads - {t}, creator := FreedIds(w.creator, t));
    GoodDrop(w, t);
    assert ThreadGood(w, t, w.threads[t]);
    forall i | 0 <= i < |CleanupOf(put)| ensures Lost(v, CleanupOf(put)[i]) {
      var key :| key in put && CleanupOf(put)[i] == TrimSpace(key);
    }
    GoodThread(v, t, Deleting(CleanupOf(put)));
    assert (w.threads - {t})[t := Deleting(CleanupOf(put))] == w.threads[t := Deleting(CleanupOf(put))];
  }

  lemma GoodDraw(w: World, t: nat, pid: Id)
    requires Good(w) && pid !in w.used && |pid| == ID_LENGTH
    ensures Good(w.(used := w.used + {pid}, creator := w.creator[pid := t]))
  {
    var v := w.(used := w.used + {pid}, creator := w.creator[pid := t]);
    forall r | r in v.threads ensures ThreadGood(v, r, v.threads[r]) {
      assert ThreadGood(w, r, w.threads[r]);
    }
  }

  lemma GoodPut(w: World, key: string)
    requires Good(w)
    ensures Good(w.(store := w.store + {key}))
  {
    var v := w.(store := w.store + {key});
    forall r | r in v.threads ensures ThreadGood(v, r, v.threads[r]) {
      assert ThreadGood(w, r, w.threads[r]);
    }
  }

  /** Deleting a lost object misses no image and no handler. */
  lemma GoodDelete(w: World, key: string)
    requires Good(w) && Lost(w, key)
    ensures Good(w.(store := w.store - {key}))
  {
    var v := w.(store := w.store - {key});
    forall r | r in v.threads ensures ThreadGood(v, r, v.threads[r]) {
      assert ThreadGood(w, r, w.threads[r]);
    }
  }

  // ---------------------------------------------------------------- every step, every run

  lemma GoodFileNew(w: World, t: nat, s: Step)
    requires Good(w) && IsCreating(w, t) && AllPrepared(w, t, s.action) && Legal(w.db, s)
    ensures Good(Filed(w, t, s))
  {
    hide Good, Adds, FreedIds, AllPrepared, Legal, Effect;
    if s.saved {
      FilesAdds(w, t, s);
      GoodAdds(w, t, Actions.Next(w.db, s));
    } else {
      ImagesFiledOnly(w, t, s);
      GoodCleanup(w, t);
    }
  }

  lemma ImagesFiledOnly(w: World, t: nat, s: Step)
    requires IsCreating(w, t) && AllPrepared(w, t, s.action)
    ensures !Actions.KeepsWrites(s.action)
  {
  }

  lemma FiledUnderId(w: World, t: nat)
    requires Good(w) && t in w.threads && w.threads[t].Processing?
    ensures w.threads[t].pid in w.db.images && w.db.images[w.threads[t].pid].publicID == w.threads[t].pid
  {
    assert ThreadGood(w, t, w.threads[t]);
  }

  lemma NextReworks(db: Db, s: Step)
    requires Legal(db, s) && s.action.DoProcess?
    requires s.action.publicID in db.images ==> db.images[s.action.publicID].publicID == s.action.publicID
    ensures Reworked(db.images, Actions.Next(db, s).images, s.action.publicID, s.action.processed.variants)
  {
    hide Reworked, Process;
    ProcessReworks(db, s.action.publicID, s.action.processed, s.action.blockedHashes);
  }

  lemma GoodFileProcessing(w: World, t: nat, s: Step)
    requires Good(w) && t in w.threads && FilesGenerated(w.threads[t], s.action) && Legal(w.db, s)
    ensures Good(w.(db := Actions.Next(w.db, s), threads := w.threads - {t}))
  {
    hide Good, Reworked, Effect, Actions.Next, Legal;
    FiledUnderId(w, t);
    NextReworks(w.db, s);
    GoodReworked(w, t, Actions.Next(w.db, s));
  }

  lemma OwnKeysLost(w: World, p: Id, db: Db)
    requires Good(w) && p in w.db.images && !IsActive(db.images, p)
    ensures forall i :: 0 <= i < |ObjectKeys(w.db.images[p])| ==> Lost(w.(db := db), ObjectKeys(w.db.images[p])[i])
  {
  }

  lemma GoodAfterDelete(w: World, t: nat, s: Step)
    requires Good(w) && (s.action.DoDeleteImage? || s.action.DoAdminDelete?) && Legal(w.db, s)
    ensures Good(AfterDelete(w, t, s))
  {
    hide Good, OnlyFewer, Effect, Actions.Next, Legal, IsActive, Lost, ObjectKeys;
    var db := Actions.Next(w.db, s);
    DeleteFewer(w.db, s);
    GoodFewer(w, db);
    if s.saved && !Refused(w.db, s) {
      OwnKeysLost(w, DeletedID(s), db);
      GoodThread(w.(db := db), t, Deleting(ObjectKeys(w.db.images[DeletedID(s)])));
    }
  }

  lemma GoodAfterPurge(w: World, t: nat, s: Step, listed: seq<(Id, string)>)
    requires Good(w) && s.action.DoPurge? && Legal(w.db, s) && Listed(w.db, s.now, listed)
    ensures Good(AfterPurge(w, t, s, listed))
  {
    hide Good, OnlyFewer, Effect, Actions.Next, Legal, IsActive, Lost, ObjectKeys, Doomed;
    var db := Actions.Next(w.db, s);
    PurgeFewer(w.db, s);
    GoodFewer(w, db);
    if s.saved {
      forall i | 0 <= i < |Names(listed)| ensures Lost(w.(db := db), Names(listed)[i]) {
        var p := listed[i].0;
        OwnKeysLost(w, p, db);
        assert listed[i].1 in ObjectKeys(w.db.images[p]);
      }
      GoodThread(w.(db := db), t, Deleting(Names(listed)));
    }
  }

  lemma GoodPutNew(w: World, t: nat, name: ObjectName)
    requires Good(w) && Enabled(w, PutNew(t, name))
    ensures Good(Next(w, PutNew(t, name)))
  {
    hide KeyText, Owner, TrimSpace;
    var v := w.(store := w.store + {KeyText(name)});
    GoodPut(w, KeyText(name));
    OwnerOfKey(name);
    OwnerOfTrimmed(name);
    assert ThreadGood(v, t, v.threads[t]);
    GoodThread(v, t, Creating(w.threads[t].put + {KeyText(name)}));
  }

  lemma ImageIdLength(w: World, p: Id)
    requires Good(w)
    ensures p in w.db.images ==> |p| == ID_LENGTH
  {
  }

  lemma GoodPutVariant(w: World, t: nat, v: Variant, ext: string)
    requires Good(w) && Enabled(w, PutVariant(t, v, ext))
    ensures Good(Next(w, PutVariant(t, v, ext)))
  {
    hide KeyText, Owner, TrimSpace, NoDangling, Labelled;
    var pid := w.threads[t].pid;
    var x := w.(store := w.store + {v.objectKey});
    GoodPut(w, v.objectKey);
    assert ThreadGood(x, t, x.threads[t]);
    FiledUnderId(w, t);
    ImageIdLength(w, pid);
    OwnerOfKey(VariantObject(pid, v.kind, ext));
    GoodThread(x, t, Processing(pid, w.threads[t].generated + [v]));
  }

  lemma GoodDeleteNext(w: World, t: nat, reached: bool)
    requires Good(w) && Enabled(w, DeleteNext(t, reached))
    ensures Good(Next(w, DeleteNext(t, reached)))
  {
    hide Owner;
    assert ThreadGood(w, t, w.threads[t]);
    var x := if reached then w.(store := w.store - {w.threads[t].keys[0]}) else w;
    if reached {
      GoodDelete(w, w.threads[t].keys[0]);
    }
    assert ThreadGood(x, t, x.threads[t]);
    GoodThread(x, t, Deleting(w.threads[t].keys[1..]));
  }

  lemma GoodNext(w: World, e: WorldStep)
    requires Good(w) && Enabled(w, e)
    ensures Good(Next(w, e))
  {
    hide Good, Filed, AfterDelete, AfterPurge, KeyText, Legal, Effect, Actions.Next, FilesGenerated, AllPrepared, Listed,
      OnlyFewer, Elsewhere;
    match e
    case Begin(t) => FreshThreads(w, t); GoodThread(w, t, Creating({}));
    case DrawId(t, pid) => GoodDraw(w, t, pid);
    case PutNew(t, name) => GoodPutNew(w, t, name);
    case Abort(t) => GoodCleanup(w, t);
    case FileNew(t, s) => GoodFileNew(w, t, s);
    case BeginProcessing(t, pid) => FreshThreads(w, t); GoodThread(w, t, Processing(pid, []));
    case PutVariant(t, v, ext) => GoodPutVariant(w, t, v, ext);
    case FileProcessing(t, s) => GoodFileProcessing(w, t, s);
    case DeleteOne(t, s) => GoodAfterDelete(w, t, s);
    case PurgeAll(t, s, listed) => GoodAfterPurge(w, t, s, listed);
    case DeleteNext(t, reached) => GoodDeleteNext(w, t, reached);
    case Vanish(t) => GoodDrop(w, t);
    case Other(s) =>
      ElsewhereFewer(w.db, s);
      GoodFewer(w, Actions.Next(w.db, s));
  }

  lemma FreshThreads(w: World, t: nat)
    ensures ThreadGood(w, t, Creating({}))
    ensures forall pid <- w.db.images :: ThreadGood(w, t, Processing(pid, []))
  {
  }

  lemma {:induction false} GoodRun(w: World, es: seq<WorldStep>)
    requires Good(w) && CanRun(w, es)
    ensures Good(Run(w, es))
    decreases |es|
  {
    hide Good, Next, Enabled;
    if es != [] {
      GoodNext(w, es[0]);
      GoodRun(Next(w, es[0]), es[1..]);
    }
  }

  /** However uploads, the worker, deletes, purges and restores interleave, from an empty server on every active
      image's original and variants are in the store. */
  lemma NoActiveImageDangles(plans: seq<Plan>, invites: map<string, InviteCampaign>, hotlink: Hotlink, integrations: string,
                             es: seq<WorldStep>, p: Id)
    requires CanRun(World(Start(plans, invites, hotlink, integrations), {}, map[], {}, map[]), es)
    requires IsActive(Run(World(Start(plans, invites, hotlink, integrations), {}, map[], {}, map[]), es).db.images, p)
    ensures var w := Run(World(Start(plans, invites, hotlink, integrations), {}, map[], {}, map[]), es);
            forall key <- ObjectKeys(w.db.images[p]) :: key in w.store
  {
    hide Run, CanRun;
    GoodRun(World(Start(plans, invites, hotlink, integrations), {}, map[], {}, map[]), es);
  }
}
