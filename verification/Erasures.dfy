/** Deletions come about: what a delete, a purge or an abandoned creation leaves behind is gone from the store once
    the handler has worked through it. */
module ErasureRuns {
  import opened Text
  import opened Domain
  import opened Db
  import opened Orders
  import opened Handlers
  import opened Actions
  import opened Objects

  /** The handler is on its way to delete the object, or has done so. An abandoned creation trims its keys first. */
  predicate Pursues(w: World, t: nat, key: string) {
    && t in w.threads
    && match w.threads[t]
       case Creating(put) => key in put && TrimSpace(key) == key
       case Processing(_, _) => false
       case Deleting(keys) =>
         Owner(key) in w.used && Owner(key) !in w.creator && (key in keys || key !in w.store)
  }

  /** Every delete of the handler reaches the store; it neither vanishes nor files what it has put. */
  predicate Thorough(e: WorldStep, t: nat) {
    match e
    case DeleteNext(r, reached) => r == t ==> reached
    case Vanish(r) => r != t
    case FileNew(r, s) => r == t ==> !s.saved
    case _ => true
  }

  /** The worker puts the object. */
  predicate PutsVariant(e: WorldStep, key: string) {
    e.PutVariant? && e.v.objectKey == key
  }

  /** Steps of others that leave the store alone and draw or free ids only. */
  lemma PursuesBeside(w: World, v: World, t: nat, key: string)
    requires Pursues(w, t, key) && t in v.threads && v.threads[t] == w.threads[t] && w.used <= v.used
    requires v.store <= w.store && forall pid <- v.creator :: pid in w.creator || pid !in w.used
    ensures Pursues(v, t, key)
  {
    hide Owner;
  }

  lemma PursuesPut(w: World, r: nat, name: ObjectName, t: nat, key: string)
    requires Good(w) && Objects.Enabled(w, PutNew(r, name)) && Pursues(w, t, key)
    ensures Pursues(Objects.Next(w, PutNew(r, name)), t, key)
  {
    hide KeyText, Owner;
    OwnerOfKey(name);
  }

  /** An abandoned creation sets out to delete all it has put. */
  lemma PursuesCleanup(w: World, v: World, r: nat, t: nat, key: string)
    requires Good(w) && IsCreating(w, r) && Pursues(w, t, key)
    requires v.store == w.store && v.used == w.used && v.creator == FreedIds(w.creator, r)
    requires v.threads == w.threads[r := Deleting(CleanupOf(w.threads[r].put))]
    ensures Pursues(v, t, key)
  {
    hide Owner;
    assert ThreadGood(w, r, w.threads[r]);
  }

  lemma PursuesDeleteNext(w: World, r: nat, reached: bool, t: nat, key: string)
    requires Objects.Enabled(w, DeleteNext(r, reached)) && Pursues(w, t, key) && (r == t ==> reached)
    ensures Pursues(Objects.Next(w, DeleteNext(r, reached)), t, key)
  {
    hide Owner;
  }

  lemma PursuesFiling(w: World, r: nat, s: Step, t: nat, key: string)
    requires Good(w) && Objects.Enabled(w, FileNew(r, s)) && Pursues(w, t, key) && (r == t ==> !s.saved)
    ensures Pursues(Objects.Next(w, FileNew(r, s)), t, key)
  {
    hide Good, Owner, AllPrepared, Legal, Actions.Next, CleanupOf;
    var v := Objects.Next(w, FileNew(r, s));
    if s.saved {
      PursuesBeside(w, v, t, key);
    } else {
      PursuesCleanup(w, v, r, t, key);
    }
  }

  lemma PursuesVariant(w: World, r: nat, v: Variant, ext: string, t: nat, key: string)
    requires Objects.Enabled(w, PutVariant(r, v, ext)) && Pursues(w, t, key) && v.objectKey != key
    ensures Pursues(Objects.Next(w, PutVariant(r, v, ext)), t, key)
  {
    hide KeyText, Owner;
  }

  lemma PursuesNext(w: World, e: WorldStep, t: nat, key: string)
    requires Good(w) && Objects.Enabled(w, e) && Pursues(w, t, key) && Thorough(e, t) && !PutsVariant(e, key)
    ensures Pursues(Objects.Next(w, e), t, key)
  {
    hide Good, Pursues, Owner, AllPrepared, Legal, Actions.Next, CleanupOf, FilesGenerated, Listed, Elsewhere, KeyText, ObjectKeys,
      Names, Refused;
    match e
    case PutNew(r, name) => PursuesPut(w, r, name, t, key);
    case Abort(r) => PursuesCleanup(w, Objects.Next(w, e), r, t, key);
    case FileNew(r, s) => PursuesFiling(w, r, s, t, key);
    case PutVariant(r, v, ext) => PursuesVariant(w, r, v, ext, t, key);
    case DeleteNext(r, reached) => PursuesDeleteNext(w, r, reached, t, key);
    case _ =>
      Pursuer(w, t, key);
      OthersApart(w, e, t, key);
      PursuesBeside(w, Objects.Next(w, e), t, key);
  }

  lemma Pursuer(w: World, t: nat, key: string)
    requires Pursues(w, t, key)
    ensures t in w.threads && !w.threads[t].Processing?
  {
  }

  lemma OthersApart(w: World, e: WorldStep, t: nat, key: string)
    requires Objects.Enabled(w, e) && t in w.threads && !w.threads[t].Processing? && Thorough(e, t)
    requires !e.PutNew? && !e.Abort? && !e.FileNew? && !e.PutVariant? && !e.DeleteNext?
    ensures var v := Objects.Next(w, e);
            && t in v.threads && v.threads[t] == w.threads[t] && w.used <= v.used
            && v.store <= w.store && forall pid <- v.creator :: pid in w.creator || pid !in w.used
  {
    hide Legal, Actions.Next, Listed, Elsewhere, ObjectKeys, Names, Refused;
  }

  // ---------------------------------------------------------------- over runs

  ghost predicate AllThorough(es: seq<WorldStep>, t: nat) {
    forall i :: 0 <= i < |es| ==> Thorough(es[i], t)
  }

  /** A worker puts the object somewhere in the run. */
  ghost predicate PutAgain(es: seq<WorldStep>, key: string) {
    exists i :: 0 <= i < |es| && PutsVariant(es[i], key)
  }

  /** The handler has nothing left to delete. */
  predicate Finished(w: World, t: nat) {
    t in w.threads && w.threads[t] == Deleting([])
  }

  lemma {:induction false} Pursued(w: World, es: seq<WorldStep>, t: nat, key: string)
    requires Good(w) && Objects.CanRun(w, es) && Pursues(w, t, key) && AllThorough(es, t) && !PutAgain(es, key)
    ensures Pursues(Objects.Run(w, es), t, key)
    decreases |es|
  {
    hide Good, Objects.Next, Objects.Enabled, Pursues, Thorough, PutsVariant;
    if es != [] {
      assert Thorough(es[0], t) && !PutsVariant(es[0], key);
      assert forall i :: 0 <= i < |es[1..]| ==> es[1..][i] == es[i + 1];
      PursuesNext(w, es[0], t, key);
      GoodNext(w, es[0]);
      Pursued(Objects.Next(w, es[0]), es[1..], t, key);
    }
  }

  lemma Erased(w: World, es: seq<WorldStep>, t: nat, key: string)
    requires Good(w) && Objects.CanRun(w, es) && Pursues(w, t, key) && AllThorough(es, t)
    requires Finished(Objects.Run(w, es), t)
    ensures key !in Objects.Run(w, es).store || PutAgain(es, key)
  {
    hide Good, Objects.Run, Objects.CanRun, AllThorough;
    if !PutAgain(es, key) {
      Pursued(w, es, t, key);
    }
  }

  /** The object is the original of the image or one of its variants. */
  predicate ObjectOf(image: Image, key: string) {
    key == image.objectKey || exists v :: v in image.variants && key == v.objectKey
  }

  lemma ObjectListed(image: Image, key: string)
    requires ObjectOf(image, key)
    ensures key in ObjectKeys(image)
  {
    if key != image.objectKey {
      var v :| v in image.variants && key == v.objectKey;
      var i :| 0 <= i < |image.variants| && image.variants[i] == v;
      assert ObjectKeys(image)[i + 1] == key;
    } else {
      assert ObjectKeys(image)[0] == key;
    }
  }

  /** The handler finds the image: an admin any, its owner one not deleted yet. */
  predicate Finds(db: Db, a: Action) {
    match a
    case DoDeleteImage(p, u) => p in db.images && db.images[p].userID == u && db.images[p].status != ImageDeleted
    case DoAdminDelete(p) => p in db.images
    case _ => false
  }

  /** After a saved delete of an image, once the handler is through and every call reached the store, neither the
      original nor a variant is there, unless the worker put a variant again meanwhile. */
  lemma DeletesErase(w: World, t: nat, s: Step, es: seq<WorldStep>, key: string)
    requires Good(w) && Objects.Enabled(w, DeleteOne(t, s)) && s.saved && Finds(w.db, s.action)
    requires ObjectOf(w.db.images[s.action.publicID], key)
    requires Objects.CanRun(Objects.Next(w, DeleteOne(t, s)), es) && AllThorough(es, t)
    requires Finished(Objects.Run(Objects.Next(w, DeleteOne(t, s)), es), t)
    ensures key !in Objects.Run(Objects.Next(w, DeleteOne(t, s)), es).store || PutAgain(es, key)
  {
    hide Good, Objects.Run, Objects.CanRun, AllThorough, Legal, Actions.Next, ObjectKeys, Owner, ObjectOf;
    var v := Objects.Next(w, DeleteOne(t, s));
    GoodNext(w, DeleteOne(t, s));
    ObjectListed(w.db.images[s.action.publicID], key);
    LostPursued(v, t, key);
    Erased(v, es, t, key);
  }

  lemma LostPursued(v: World, t: nat, key: string)
    requires Good(v) && t in v.threads && v.threads[t].Deleting? && key in v.threads[t].keys
    ensures Pursues(v, t, key)
  {
    assert ThreadGood(v, t, v.threads[t]);
    var i :| 0 <= i < |v.threads[t].keys| && v.threads[t].keys[i] == key;
    assert Lost(v, v.threads[t].keys[i]);
  }

  /** After a saved purge the same holds of every image, not deleted before, of a user whose subscription and retention
      are over. */
  lemma PurgesErase(w: World, t: nat, s: Step, listed: seq<(Id, string)>, es: seq<WorldStep>, p: Id, key: string)
    requires Good(w) && Objects.Enabled(w, PurgeAll(t, s, listed)) && s.saved
    requires p in w.db.images && w.db.images[p].status != ImageDeleted && w.db.images[p].userID in w.db.subs
    requires var sub := w.db.subs[w.db.images[p].userID];
             sub.status == SubDeleted || (s.now > sub.endsAt && s.now > sub.retentionEndsAt)
    requires ObjectOf(w.db.images[p], key)
    requires Objects.CanRun(Objects.Next(w, PurgeAll(t, s, listed)), es) && AllThorough(es, t)
    requires Finished(Objects.Run(Objects.Next(w, PurgeAll(t, s, listed)), es), t)
    ensures key !in Objects.Run(Objects.Next(w, PurgeAll(t, s, listed)), es).store || PutAgain(es, key)
  {
    hide Good, Objects.Run, Objects.CanRun, AllThorough, Legal, Actions.Next, ObjectKeys, Owner, ObjectOf;
    var v := Objects.Next(w, PurgeAll(t, s, listed));
    GoodNext(w, PurgeAll(t, s, listed));
    ObjectListed(w.db.images[p], key);
    assert p in Purged(w.db, s.now) && (p, key) in listed;
    var i :| 0 <= i < |listed| && listed[i] == (p, key);
    assert Names(listed)[i] == key;
    LostPursued(v, t, key);
    Erased(v, es, t, key);
  }

  // ---------------------------------------------------------------- what a cleanup misses

  /** No image is or will be filed for the object, and no handler deletes it: it was put under a name that white space ends. */
  predicate Stray(w: World, t: nat, key: string) {
    && key in w.store && TrimSpace(key) != key
    && Owner(key) in w.used && Owner(key) !in w.db.images && (Owner(key) in w.creator ==> w.creator[Owner(key)] == t)
    && forall r <- w.threads :: w.threads[r].Deleting? ==> key !in w.threads[r].keys
  }

  lemma TrimmedOnce(s: string)
    ensures TrimSpace(TrimSpace(s)) == TrimSpace(s)
  {
    TrimSpaceTrims(s);
    TrimSpaceOfTrimmed(TrimSpace(s));
  }

  lemma StrayBeside(w: World, v: World, t: nat, key: string)
    requires Stray(w, t, key) && key in v.store && w.used <= v.used && Owner(key) !in v.db.images
    requires forall pid <- v.creator :: (pid in w.creator && w.creator[pid] == v.creator[pid]) || pid !in w.used
    requires forall r <- v.threads :: v.threads[r].Deleting? ==>
               (r in w.threads && w.threads[r].Deleting? && v.threads[r].keys == w.threads[r].keys) || key !in v.threads[r].keys
    ensures Stray(v, t, key)
  {
    hide Owner, TrimSpace;
  }

  /** No step but a filing makes an image. */
  lemma SameImages(w: World, e: WorldStep)
    requires Good(w) && Objects.Enabled(w, e) && !e.FileNew?
    ensures Objects.Next(w, e).db.images.Keys == w.db.images.Keys
  {
    hide Good, Legal, Actions.Next, FilesGenerated, Listed, Elsewhere, KeyText, ObjectKeys, Names, Refused, Owner, CleanupOf;
    match e
    case FileProcessing(t, s) => ProcessingSame(w, t, s);
    case DeleteOne(t, s) => DeleteFewer(w.db, s);
    case PurgeAll(t, s, listed) => PurgeFewer(w.db, s);
    case Other(s) => ElsewhereFewer(w.db, s);
    case _ =>
  }

  lemma ProcessingSame(w: World, t: nat, s: Step)
    requires Good(w) && t in w.threads && FilesGenerated(w.threads[t], s.action) && Legal(w.db, s)
    ensures Actions.Next(w.db, s).images.Keys == w.db.images.Keys
  {
    hide Good, Actions.Next, Legal;
    FiledUnderId(w, t);
    NextReworks(w.db, s);
  }

  lemma StrayFiling(w: World, r: nat, s: Step, t: nat, key: string)
    requires Good(w) && Objects.Enabled(w, FileNew(r, s)) && Stray(w, t, key) && (r == t ==> !s.saved)
    ensures Stray(Objects.Next(w, FileNew(r, s)), t, key)
  {
    hide Good, Owner, AllPrepared, Legal, Actions.Next, CleanupOf, TrimSpace;
    var v := Objects.Next(w, FileNew(r, s));
    if s.saved {
      FilesAdds(w, r, s);
      assert Owner(key) !in v.db.images;
    } else {
      ImagesFiledOnly(w, r, s);
      UnsavedSame(w.db, s);
      CleanupMisses(w.threads[r].put, key);
    }
    StrayBeside(w, v, t, key);
  }

  lemma UnsavedSame(db: Db, s: Step)
    requires Legal(db, s) && !s.saved && !Actions.KeepsWrites(s.action)
    ensures Actions.Next(db, s) == db
  {
    hide Effect, Legal;
  }

  lemma CleanupMisses(put: set<string>, key: string)
    requires TrimSpace(key) != key
    ensures key !in CleanupOf(put)
  {
    hide TrimSpace, CleanupOf;
    if key in CleanupOf(put) {
      var i :| 0 <= i < |CleanupOf(put)| && CleanupOf(put)[i] == key;
      var k :| k in put && CleanupOf(put)[i] == TrimSpace(k);
      TrimmedOnce(k);
    }
  }

  /** The objects of an image carry its id. */
  lemma OwnKeys(w: World, p: Id, key: string)
    requires Good(w) && p in w.db.images && Owner(key) !in w.db.images
    ensures key !in ObjectKeys(w.db.images[p])
  {
    hide Owner;
    assert KeysOwnedBy(w.db.images[p], p);
  }

  lemma StrayDeletes(w: World, e: WorldStep, t: nat, key: string)
    requires Good(w) && Objects.Enabled(w, e) && Stray(w, t, key) && (e.DeleteOne? || e.PurgeAll?)
    ensures Stray(Objects.Next(w, e), t, key)
  {
    hide Good, Owner, Legal, Actions.Next, ObjectKeys, TrimSpace, Doomed;
    var v := Objects.Next(w, e);
    SameImages(w, e);
    match e {
      case DeleteOne(r, s) =>
        if DeletedID(s) in w.db.images {
          OwnKeys(w, DeletedID(s), key);
        }
      case PurgeAll(r, s, listed) =>
        forall i | 0 <= i < |listed| ensures listed[i].1 != key {
          OwnKeys(w, listed[i].0, key);
        }
        assert key !in Names(listed);
    }
    StrayBeside(w, v, t, key);
  }

  lemma StrayNext(w: World, e: WorldStep, t: nat, key: string)
    requires Good(w) && Objects.Enabled(w, e) && Stray(w, t, key) && Thorough(e, t)
    ensures Stray(Objects.Next(w, e), t, key)
  {
    hide Good, Owner, AllPrepared, Legal, Actions.Next, CleanupOf, FilesGenerated, Listed, Elsewhere, KeyText, ObjectKeys, Names,
      Refused, TrimSpace;
    match e
    case FileNew(r, s) => StrayFiling(w, r, s, t, key);
    case DeleteOne(_, _) => StrayDeletes(w, e, t, key);
    case PurgeAll(_, _, _) => StrayDeletes(w, e, t, key);
    case Abort(r) =>
      CleanupMisses(w.threads[r].put, key);
      StrayBeside(w, Objects.Next(w, e), t, key);
    case _ =>
      SameImages(w, e);
      StrayBeside(w, Objects.Next(w, e), t, key);
  }

  /** The object belongs to no image, and only the thread can file one for it. */
  predicate Unfiled(w: World, t: nat, key: string) {
    Owner(key) in w.used && Owner(key) !in w.db.images && (Owner(key) in w.creator ==> w.creator[Owner(key)] == t)
  }

  lemma UnfiledNext(w: World, e: WorldStep, t: nat, key: string)
    requires Good(w) && Objects.Enabled(w, e) && Unfiled(w, t, key) && Thorough(e, t)
    ensures Unfiled(Objects.Next(w, e), t, key) && !PutsVariant(e, key)
  {
    hide Good, Owner, AllPrepared, Legal, Actions.Next, CleanupOf, FilesGenerated, Listed, Elsewhere, KeyText, ObjectKeys, Names,
      Refused;
    if e.FileNew? {
      UnfiledFiling(w, e.t, e.s, t, key);
    } else {
      SameImages(w, e);
      if e.PutVariant? {
        VariantFiled(w, e.t, e.v, e.ext);
      }
    }
  }

  lemma UnfiledFiling(w: World, r: nat, s: Step, t: nat, key: string)
    requires Good(w) && Objects.Enabled(w, FileNew(r, s)) && Unfiled(w, t, key) && (r == t ==> !s.saved)
    ensures Unfiled(Objects.Next(w, FileNew(r, s)), t, key)
  {
    hide Good, Owner, AllPrepared, Legal, Actions.Next, CleanupOf;
    if s.saved {
      FilesAdds(w, r, s);
    } else {
      ImagesFiledOnly(w, r, s);
      UnsavedSame(w.db, s);
    }
  }

  /** What the worker puts belongs to an image on file. */
  lemma VariantFiled(w: World, r: nat, v: Variant, ext: string)
    requires Good(w) && Objects.Enabled(w, PutVariant(r, v, ext))
    ensures Owner(v.objectKey) in w.db.images
  {
    hide Owner, KeyText;
    assert ThreadGood(w, r, w.threads[r]);
    OwnerOfKey(VariantObject(w.threads[r].pid, v.kind, ext));
  }

  lemma {:induction false} Abandoned(w: World, es: seq<WorldStep>, t: nat, key: string)
    requires Good(w) && Objects.CanRun(w, es) && Unfiled(w, t, key) && AllThorough(es, t)
    ensures Pursues(w, t, key) ==> Pursues(Objects.Run(w, es), t, key)
    ensures Stray(w, t, key) ==> Stray(Objects.Run(w, es), t, key)
    decreases |es|
  {
    hide Good, Objects.Next, Objects.Enabled, Pursues, Stray, Unfiled, Thorough, PutsVariant;
    if es != [] {
      assert Thorough(es[0], t) && forall i :: 0 <= i < |es[1..]| ==> es[1..][i] == es[i + 1];
      UnfiledNext(w, es[0], t, key);
      if Pursues(w, t, key) {
        PursuesNext(w, es[0], t, key);
      }
      if Stray(w, t, key) {
        StrayNext(w, es[0], t, key);
      }
      GoodNext(w, es[0]);
      Abandoned(Objects.Next(w, es[0]), es[1..], t, key);
    }
  }

  lemma JustPut(w: World, t: nat, name: ObjectName)
    requires Good(w) && Objects.Enabled(w, PutNew(t, name))
    ensures var v, key := Objects.Next(w, PutNew(t, name)), KeyText(name);
      && Good(v) && Unfiled(v, t, key)
      && if TrimSpace(key) == key then Pursues(v, t, key) else Stray(v, t, key)
  {
    hide KeyText, Owner, TrimSpace;
    GoodNext(w, PutNew(t, name));
    OwnerOfKey(name);
    forall r | r in w.threads && w.threads[r].Deleting? ensures KeyText(name) !in w.threads[r].keys {
      assert ThreadGood(w, r, w.threads[r]);
    }
  }

  /** What an upload or import has put and then abandoned, because it gave up or its save failed, is gone once the
      clean-up is through if and only if its key does not end in white space: the clean-up trims its keys, and an object
      under an untrimmed one stays for good. */
  lemma AbandonedExact(w: World, t: nat, name: ObjectName, es: seq<WorldStep>)
    requires Good(w) && Objects.Enabled(w, PutNew(t, name))
    requires Objects.CanRun(Objects.Next(w, PutNew(t, name)), es) && AllThorough(es, t)
    requires Finished(Objects.Run(Objects.Next(w, PutNew(t, name)), es), t)
    ensures KeyText(name) !in Objects.Run(Objects.Next(w, PutNew(t, name)), es).store <==> TrimSpace(KeyText(name)) == KeyText(name)
  {
    hide Good, Objects.Next, Objects.Enabled, Objects.Run, Objects.CanRun, AllThorough, KeyText, Owner, TrimSpace;
    JustPut(w, t, name);
    Abandoned(Objects.Next(w, PutNew(t, name)), es, t, KeyText(name));
  }

  /** Such a key: a file called "a ". */
  lemma TrailingSpaceStays(pid: Id)
    ensures TrimSpace(KeyText(Original(pid, "a "))) != KeyText(Original(pid, "a "))
  {
    var key := KeyText(Original(pid, "a "));
    assert key[|key| - 1] == ' ';
    TrimSpaceTrims(key);
  }
}
