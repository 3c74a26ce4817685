/** Backup export and import: what comes back is what was stored. Zip and JSON give back what they were given. */
module Backup {
  import opened Text
  import opened Domain
  import opened Db
  import H = Handlers
  import Objects
  import opened Checksums

  // ---------------------------------------------------------------- the object store

  type Store = map<string, Data>

  /** MemoryObjectStore. */
  class ObjectStore {
    var objects: Store

    constructor ()
      ensures objects == map[]
    {
      objects := map[];
    }

    method PutObject(key: string, body: Data) returns (ok: bool)
      modifies this
      ensures ok == (key != "")
      ensures objects == if ok then old(objects)[key := body] else old(objects)
    {
      if key == "" {
        return false;
      }
      objects := objects[key := body];
      return true;
    }

    method GetObject(key: string) returns (body: Option<Data>)
      ensures body == if key in objects then Some(objects[key]) else None
    {
      return if key in objects then Some(objects[key]) else None;
    }

    method DeleteObject(key: string)
      modifies this
      ensures objects == old(objects) - {key}
    {
      objects := objects - {key};
    }
  }

  // ---------------------------------------------------------------- export

  /** filepath.Base, of which nothing is assumed. */
  type BaseName = string -> string

  function Prefix(pid: Id): string {
    "objects/" + pid + "/"
  }

  function ObjectPath(base: BaseName, image: Image): string {
    Prefix(image.publicID) + base(image.filename)
  }

  predicate Exported(store: Store, image: Image) {
    image.status != ImageDeleted && image.objectKey in store
  }

  /** The object files of an export. */
  function ObjectFiles(base: BaseName, store: Store, images: seq<Image>): Files {
    if images == [] then map[]
    else
      var image := images[|images| - 1];
      var before := ObjectFiles(base, store, images[..|images| - 1]);
      if Exported(store, image) then before[ObjectPath(base, image) := store[image.objectKey]] else before
  }

  /** The loop of exportBackup over the user's images. */
  method ExportObjects(base: BaseName, store: ObjectStore, images: seq<Image>) returns (files: Files)
    ensures files == ObjectFiles(base, store.objects, images)
  {
    files := map[];
    for i := 0 to |images|
      invariant files == ObjectFiles(base, store.objects, images[..i])
    {
      assert images[..i + 1][..i] == images[..i];
      if images[i].status != ImageDeleted {
        var data := store.GetObject(images[i].objectKey);
        if data.Some? {
          files := files[ObjectPath(base, images[i]) := data.value];
        }
      }
    }
    assert images[..|images|] == images;
  }

  /** The other files of an export, whatever they hold. */
  predicate OtherName(name: string) {
    name == "database/users.ndjson" || name == "database/images.ndjson" || name == "settings/public-config.json"
    || name == "manifest.json" || name == CHECKSUMS
  }

  /** A user's images, each once, under ids of full length. */
  predicate Distinct(images: seq<Image>) {
    && (forall i :: 0 <= i < |images| ==> |images[i].publicID| == Objects.ID_LENGTH)
    && (forall i, j :: 0 <= i < j < |images| ==> images[i].publicID != images[j].publicID)
  }

  lemma PrefixTells(base: BaseName, image: Image, pid: Id)
    requires |image.publicID| == |pid| && Prefix(pid) <= ObjectPath(base, image)
    ensures image.publicID == pid
  {
    var path := ObjectPath(base, image);
    assert path[8..8 + |pid|] == image.publicID;
    assert Prefix(pid)[8..8 + |pid|] == pid;
    assert Prefix(pid) == path[..|Prefix(pid)|];
  }

  lemma OtherStarts(name: string, path: string)
    requires OtherName(name) && path != "" && path[0] == 'o'
    ensures !(path <= name) && !(name <= path)
  {
  }

  lemma PathsDiffer(base: BaseName, images: seq<Image>, i: nat, j: nat)
    requires Distinct(images) && i < j < |images|
    ensures ObjectPath(base, images[i]) != ObjectPath(base, images[j])
  {
    if ObjectPath(base, images[i]) == ObjectPath(base, images[j]) {
      assert Prefix(images[j].publicID) <= ObjectPath(base, images[i]);
      PrefixTells(base, images[i], images[j].publicID);
    }
  }

  predicate HasFile(base: BaseName, store: Store, files: Files, image: Image) {
    image.objectKey in store && ObjectPath(base, image) in files && files[ObjectPath(base, image)] == store[image.objectKey]
  }

  /** Each exported image has its file. */
  lemma {:induction false} FilesThere(base: BaseName, store: Store, images: seq<Image>)
    requires Distinct(images)
    ensures forall i :: 0 <= i < |images| && Exported(store, images[i]) ==>
              HasFile(base, store, ObjectFiles(base, store, images), images[i])
  {
    hide ObjectPath;
    if images != [] {
      var n := |images| - 1;
      FilesThere(base, store, images[..n]);
      forall i | 0 <= i < |images| && Exported(store, images[i])
        ensures HasFile(base, store, ObjectFiles(base, store, images), images[i])
      {
        if i < n {
          assert images[..n][i] == images[i];
          PathsDiffer(base, images, i, n);
        }
      }
    }
  }

  /** Every object file is that of some exported image. */
  lemma {:induction false} FilesOurs(base: BaseName, store: Store, images: seq<Image>, name: string)
    requires name in ObjectFiles(base, store, images)
    ensures exists i :: 0 <= i < |images| && Exported(store, images[i]) && name == ObjectPath(base, images[i])
  {
    hide ObjectPath;
    var n := |images| - 1;
    if name in ObjectFiles(base, store, images[..n]) {
      FilesOurs(base, store, images[..n], name);
      var i :| 0 <= i < n && Exported(store, images[..n][i]) && name == ObjectPath(base, images[..n][i]);
      assert images[i] == images[..n][i];
    } else {
      assert name == ObjectPath(base, images[n]);
    }
  }

  /** An export holds, under objects, id and file name, the stored bytes of exactly the images that are not deleted. */
  lemma ExportExact(base: BaseName, store: Store, images: seq<Image>, name: string)
    requires Distinct(images)
    ensures name in ObjectFiles(base, store, images) <==>
      exists i :: 0 <= i < |images| && images[i].status != ImageDeleted && images[i].objectKey in store
                  && name == "objects/" + images[i].publicID + "/" + base(images[i].filename)
    ensures forall i :: 0 <= i < |images| && images[i].status != ImageDeleted && images[i].objectKey in store ==>
      var path := "objects/" + images[i].publicID + "/" + base(images[i].filename);
      path in ObjectFiles(base, store, images) && ObjectFiles(base, store, images)[path] == store[images[i].objectKey]
  {
    hide ObjectFiles;
    FilesThere(base, store, images);
    forall i | 0 <= i < |images| && images[i].status != ImageDeleted && images[i].objectKey in store
      ensures var path := "objects/" + images[i].publicID + "/" + base(images[i].filename);
              path in ObjectFiles(base, store, images) && ObjectFiles(base, store, images)[path] == store[images[i].objectKey]
    {
      assert Exported(store, images[i]) && HasFile(base, store, ObjectFiles(base, store, images), images[i]);
      assert ObjectPath(base, images[i]) == "objects/" + images[i].publicID + "/" + base(images[i].filename);
    }
    if name in ObjectFiles(base, store, images) {
      FilesOurs(base, store, images, name);
    }
  }

  // ---------------------------------------------------------------- import

  /** findBackupObject: the first file, in the order of the names, whose name has the prefix. */
  function FindBody(files: Files, names: seq<string>, prefix: string): Data {
    if names == [] then []
    else if prefix <= names[0] && names[0] in files then files[names[0]]
    else FindBody(files, names[1..], prefix)
  }

  method FindBackupObject(files: Files, names: seq<string>, pid: Id) returns (body: Data)
    requires forall n :: n in names ==> n in files
    ensures body == FindBody(files, names, Prefix(pid))
  {
    for i := 0 to |names|
      invariant FindBody(files, names, Prefix(pid)) == FindBody(files, names[i..], Prefix(pid))
    {
      assert names[i] in names;
      if Prefix(pid) <= names[i] {
        return files[names[i]];
      }
    }
    return [];
  }

  lemma {:induction false} FindOnly(files: Files, names: seq<string>, prefix: string, target: string)
    requires target in names && target in files && prefix <= target
    requires forall n :: n in names && prefix <= n ==> n == target
    ensures FindBody(files, names, prefix) == files[target]
  {
    assert names[0] in names && forall n :: n in names[1..] ==> n in names;
    if names[0] != target {
      FindOnly(files, names[1..], prefix, target);
    }
  }

  lemma {:induction false} FindNothing(files: Files, names: seq<string>, prefix: string)
    requires forall n :: n in names ==> !(prefix <= n)
    ensures FindBody(files, names, prefix) == []
  {
    if names != [] {
      assert names[0] in names && forall n :: n in names[1..] ==> n in names;
      FindNothing(files, names[1..], prefix);
    }
  }

  /** What an import makes of one image of the backup. */
  datatype Import = Import(userID: Id, base: BaseName, detect: Data -> string, now: Time) {
    function Key(source: Image, pid: Id): string {
      Objects.KeyText(Objects.Restored(pid, base(source.filename)))
    }

    function Made(source: Image, pid: Id, body: Data): Image {
      source.(publicID := pid, userID := userID, objectKey := Key(source, pid),
              contentType := if source.contentType == "" then detect(body) else source.contentType,
              bytes := |body|, status := ImageActive, moderationReason := "", variants := [], createdAt := now)
    }
  }

  /** A restored image is the backed-up one under a new id and owner: same name, size, look and privacy, the body's own
      length, active, without reason and without variants; its object belongs to the new id. */
  lemma MadeFaithful(imp: Import, source: Image, pid: Id, body: Data)
    requires |pid| == Objects.ID_LENGTH
    ensures var made := imp.Made(source, pid, body);
      && made.publicID == pid && made.userID == imp.userID && made.filename == source.filename && made.isPrivate == source.isPrivate
      && made.width == source.width && made.height == source.height && made.perceptualHash == source.perceptualHash
      && made.bytes == |body| && made.status == ImageActive && made.moderationReason == "" && made.variants == []
      && (source.contentType != "" ==> made.contentType == source.contentType) && made.createdAt == imp.now
      && Objects.Owner(made.objectKey) == pid
  {
    Objects.OwnerOfKey(Objects.Restored(pid, imp.base(source.filename)));
    hide Objects.Owner, Objects.KeyText;
  }

  predicate Skipped(files: Files, names: seq<string>, source: Image) {
    source.status == ImageDeleted || FindBody(files, names, Prefix(source.publicID)) == []
  }

  /** The restored images; `ids[k]` is the uuid drawn should image k be restored. */
  function RestoredImages(imp: Import, files: Files, names: seq<string>, sources: seq<Image>, ids: seq<Id>): seq<Image>
    requires |ids| == |sources|
  {
    if sources == [] then []
    else
      var n := |sources| - 1;
      RestoredImages(imp, files, names, sources[..n], ids[..n])
      + if Skipped(files, names, sources[n]) then []
        else [imp.Made(sources[n], ids[n], FindBody(files, names, Prefix(sources[n].publicID)))]
  }

  function RestoredStore(imp: Import, files: Files, names: seq<string>, sources: seq<Image>, ids: seq<Id>, store: Store): Store
    requires |ids| == |sources|
  {
    if sources == [] then store
    else
      var n := |sources| - 1;
      var before := RestoredStore(imp, files, names, sources[..n], ids[..n], store);
      if Skipped(files, names, sources[n]) then before
      else before[imp.Key(sources[n], ids[n]) := FindBody(files, names, Prefix(sources[n].publicID))]
  }

  /** The loop of restoreBackupImages outside the lock. */
  method RestoreObjects(imp: Import, files: Files, names: seq<string>, sources: seq<Image>, ids: seq<Id>, store: ObjectStore)
    returns (restored: seq<Image>)
    requires |ids| == |sources| && forall n :: n in names ==> n in files
    modifies store
    ensures restored == RestoredImages(imp, files, names, sources, ids)
    ensures store.objects == RestoredStore(imp, files, names, sources, ids, old(store.objects))
  {
    restored := [];
    for i := 0 to |sources|
      invariant restored == RestoredImages(imp, files, names, sources[..i], ids[..i])
      invariant store.objects == RestoredStore(imp, files, names, sources[..i], ids[..i], old(store.objects))
    {
      assert sources[..i + 1][..i] == sources[..i] && ids[..i + 1][..i] == ids[..i];
      if sources[i].status != ImageDeleted {
        var body := FindBackupObject(files, names, sources[i].publicID);
        if |body| != 0 {
          KeyNotEmpty(imp, sources[i], ids[i]);
          var put := store.PutObject(imp.Key(sources[i], ids[i]), body);
          restored := restored + [imp.Made(sources[i], ids[i], body)];
        }
      }
    }
    assert sources[..|sources|] == sources && ids[..|ids|] == ids;
  }

  lemma KeyNotEmpty(imp: Import, source: Image, pid: Id)
    ensures imp.Key(source, pid) != ""
  {
  }

  // ---------------------------------------------------------------- the round trip

  /** `files` is an export of the images: their object files and files of other names. */
  ghost predicate IsExport(base: BaseName, store: Store, images: seq<Image>, files: Files) {
    && (forall n <- ObjectFiles(base, store, images) :: n in files && files[n] == ObjectFiles(base, store, images)[n])
    && (forall n <- files :: n in ObjectFiles(base, store, images) || OtherName(n))
  }

  /** exportBackup: the object files among the others, whose names they never take. */
  lemma ExportIs(base: BaseName, store: Store, images: seq<Image>, others: Files)
    requires forall n <- others :: OtherName(n)
    ensures IsExport(base, store, images, ObjectFiles(base, store, images) + others)
  {
    hide ObjectFiles, ObjectPath;
    forall n | n in ObjectFiles(base, store, images) ensures n !in others {
      FilesOurs(base, store, images, n);
      var i :| 0 <= i < |images| && Exported(store, images[i]) && n == ObjectPath(base, images[i]);
      PathStarts(base, images[i], images[i].publicID);
      if n in others {
        OtherStarts(n, n);
      }
    }
  }

  lemma PathStarts(base: BaseName, image: Image, pid: Id)
    ensures ObjectPath(base, image) != "" && ObjectPath(base, image)[0] == 'o'
    ensures Prefix(pid) != "" && Prefix(pid)[0] == 'o'
  {
    assert "objects/"[0] == 'o';
  }

  /** No other image and no other file answers for an image. */
  lemma OnlyOwnFile(base: BaseName, store: Store, images: seq<Image>, files: Files, i: nat, name: string)
    requires Distinct(images) && IsExport(base, store, images, files) && i < |images|
    requires name in files && Prefix(images[i].publicID) <= name
    ensures Exported(store, images[i]) && name == ObjectPath(base, images[i])
  {
    hide ObjectPath, ObjectFiles;
    PathStarts(base, images[i], images[i].publicID);
    if OtherName(name) {
      OtherStarts(name, Prefix(images[i].publicID));
    } else {
      FilesOurs(base, store, images, name);
      var j :| 0 <= j < |images| && Exported(store, images[j]) && name == ObjectPath(base, images[j]);
      PrefixTells(base, images[j], images[i].publicID);
    }
  }

  /** The import finds the stored bytes of each image that was exported, and nothing for the others. */
  lemma FindsStored(base: BaseName, store: Store, images: seq<Image>, files: Files, names: seq<string>, i: nat)
    requires Distinct(images) && IsExport(base, store, images, files) && NamesOf(names, files) && i < |images|
    ensures FindBody(files, names, Prefix(images[i].publicID))
            == if Exported(store, images[i]) then store[images[i].objectKey] else []
  {
    hide ObjectFiles, Prefix;
    var prefix := Prefix(images[i].publicID);
    forall n | n in names && prefix <= n ensures Exported(store, images[i]) && n == ObjectPath(base, images[i]) {
      OnlyOwnFile(base, store, images, files, i, n);
    }
    if Exported(store, images[i]) {
      FilesThere(base, store, images);
      assert HasFile(base, store, ObjectFiles(base, store, images), images[i]);
      FindOnly(files, names, prefix, ObjectPath(base, images[i]));
    } else {
      FindNothing(files, names, prefix);
    }
  }

  /** A non-deleted image whose stored object is not empty. */
  predicate Live(store: Store, image: Image) {
    Exported(store, image) && store[image.objectKey] != []
  }

  /** What should come back: one new image for each live one, with its bytes. */
  function Copies(imp: Import, store: Store, images: seq<Image>, ids: seq<Id>): seq<Image>
    requires |ids| == |images|
  {
    if images == [] then []
    else
      var n := |images| - 1;
      Copies(imp, store, images[..n], ids[..n])
      + if Live(store, images[n]) then [imp.Made(images[n], ids[n], store[images[n].objectKey])] else []
  }

  lemma {:induction false} RestoresCopies(imp: Import, store: Store, images: seq<Image>, files: Files, names: seq<string>, ids: seq<Id>, k: nat)
    requires Distinct(images) && IsExport(imp.base, store, images, files) && NamesOf(names, files)
    requires |ids| == |images| && k <= |images|
    ensures RestoredImages(imp, files, names, images[..k], ids[..k]) == Copies(imp, store, images[..k], ids[..k])
  {
    hide IsExport, Distinct, Prefix;
    if k > 0 {
      RestoresCopies(imp, store, images, files, names, ids, k - 1);
      FindsStored(imp.base, store, images, files, names, k - 1);
      assert images[..k][..k - 1] == images[..k - 1] && ids[..k][..k - 1] == ids[..k - 1];
    }
  }

  /** Importing an export restores exactly one new active image for each live image of the user, in order. */
  lemma RoundTrip(imp: Import, store: Store, images: seq<Image>, files: Files, names: seq<string>, ids: seq<Id>)
    requires Distinct(images) && IsExport(imp.base, store, images, files) && NamesOf(names, files) && |ids| == |images|
    ensures RestoredImages(imp, files, names, images, ids) == Copies(imp, store, images, ids)
  {
    hide IsExport, Distinct;
    RestoresCopies(imp, store, images, files, names, ids, |images|);
    assert images[..|images|] == images && ids[..|ids|] == ids;
  }

  /** The uuids are fresh: distinct, of full length, and used neither for an image nor in an object key. */
  ghost predicate Fresh(imp: Import, db: Db, store: Store, images: seq<Image>, ids: seq<Id>)
    requires |ids| == |images|
  {
    && (forall k :: 0 <= k < |ids| ==> |ids[k]| == Objects.ID_LENGTH && ids[k] !in db.images && imp.Key(images[k], ids[k]) !in store)
    && (forall j, k :: 0 <= j < k < |ids| ==> ids[j] != ids[k])
  }

  lemma KeysDiffer(imp: Import, a: Image, p: Id, b: Image, q: Id)
    requires |p| == Objects.ID_LENGTH && |q| == Objects.ID_LENGTH && p != q
    ensures imp.Key(a, p) != imp.Key(b, q)
  {
    Objects.OwnerOfKey(Objects.Restored(p, imp.base(a.filename)));
    Objects.OwnerOfKey(Objects.Restored(q, imp.base(b.filename)));
  }

  /** The restored objects hold the bytes of the originals, and no object that was there is touched. */
  lemma {:induction false} StoresBytes(imp: Import, db: Db, store: Store, images: seq<Image>, files: Files, names: seq<string>,
                                       ids: seq<Id>, target: Store, n: nat)
    requires Distinct(images) && IsExport(imp.base, store, images, files) && NamesOf(names, files)
    requires |ids| == |images| && n <= |images| && Fresh(imp, db, target, images, ids)
    ensures var after := RestoredStore(imp, files, names, images[..n], ids[..n], target);
            && (forall key <- target :: key in after && after[key] == target[key])
            && (forall k :: 0 <= k < n && Live(store, images[k]) ==>
                  imp.Key(images[k], ids[k]) in after && after[imp.Key(images[k], ids[k])] == store[images[k].objectKey])
  {
    hide IsExport, Distinct, Prefix, Import.Key;
    if n > 0 {
      StoresBytes(imp, db, store, images, files, names, ids, target, n - 1);
      FindsStored(imp.base, store, images, files, names, n - 1);
      assert images[..n][..n - 1] == images[..n - 1] && ids[..n][..n - 1] == ids[..n - 1];
      forall k | 0 <= k < n - 1 ensures imp.Key(images[k], ids[k]) != imp.Key(images[n - 1], ids[n - 1]) {
        KeysDiffer(imp, images[k], ids[k], images[n - 1], ids[n - 1]);
      }
    }
  }

  // ---------------------------------------------------------------- filing what was restored

  function TotalBytes(images: seq<Image>): nat {
    if images == [] then 0 else images[0].bytes + TotalBytes(images[1..])
  }

  /** Filing new images changes no other image. */
  lemma ImportKeeps(db: Db, userID: Id, images: seq<Image>, p: Id)
    requires p in db.images && forall i :: 0 <= i < |images| ==> images[i].publicID != p
    ensures var next := H.ImportImages(db, userID, images); p in next.images && next.images[p] == db.images[p]
  {
    hide H.ImportImages;
    Objects.ImportedImages(db, userID, images);
  }

  lemma {:induction false} ImportAdds(db: Db, userID: Id, images: seq<Image>, i: nat)
    requires i < |images| && forall j, k :: 0 <= j < k < |images| ==> images[j].publicID != images[k].publicID
    ensures var next := H.ImportImages(db, userID, images);
            images[i].publicID in next.images && next.images[images[i].publicID] == images[i]
    decreases |images|
  {
    hide H.ImportOne;
    var one := H.ImportOne(db, userID, images[0]);
    OneFiled(db, userID, images[0]);
    assert forall j :: 0 < j < |images| ==> images[j] == images[1..][j - 1];
    if i > 0 {
      ImportAdds(one, userID, images[1..], i - 1);
    } else {
      ImportKeeps(one, userID, images[1..], images[0].publicID);
    }
  }

  /** And raises the owner's storage by their sizes. */
  lemma {:induction false} ImportBytes(db: Db, userID: Id, images: seq<Image>)
    ensures UsageOf(H.ImportImages(db, userID, images), userID).storageBytes
            == UsageOf(db, userID).storageBytes + TotalBytes(images)
    decreases |images|
  {
    hide H.ImportOne, UsageOf;
    if images != [] {
      OneFiled(db, userID, images[0]);
      ImportBytes(H.ImportOne(db, userID, images[0]), userID, images[1..]);
    }
  }

  lemma OneFiled(db: Db, userID: Id, image: Image)
    ensures var one := H.ImportOne(db, userID, image);
            one.images == db.images[image.publicID := image]
            && UsageOf(one, userID).storageBytes == UsageOf(db, userID).storageBytes + image.bytes
  {
  }

  /** Frozen images come back too, deleted and empty ones do not. */
  lemma LiveExact(store: Store, image: Image)
    ensures Live(store, image) <==> image.status != ImageDeleted && image.objectKey in store && store[image.objectKey] != []
  {
  }

  /** The live images, and the number of their bytes. */
  function LiveCount(store: Store, images: seq<Image>): nat {
    if images == [] then 0
    else LiveCount(store, images[..|images| - 1]) + if Live(store, images[|images| - 1]) then 1 else 0
  }

  function LiveBytes(store: Store, images: seq<Image>): nat {
    if images == [] then 0
    else
      var last := images[|images| - 1];
      LiveBytes(store, images[..|images| - 1]) + if Live(store, last) then |store[last.objectKey]| else 0
  }

  lemma {:induction false} TotalAppend(images: seq<Image>, image: Image)
    ensures TotalBytes(images + [image]) == TotalBytes(images) + image.bytes
  {
    if images == [] {
      assert [] + [image] == [image] && [image][1..] == [];
    } else {
      assert (images + [image])[1..] == images[1..] + [image];
      TotalAppend(images[1..], image);
    }
  }

  lemma {:induction false} CopiesCount(imp: Import, store: Store, images: seq<Image>, ids: seq<Id>)
    requires |ids| == |images|
    ensures |Copies(imp, store, images, ids)| == LiveCount(store, images)
    ensures TotalBytes(Copies(imp, store, images, ids)) == LiveBytes(store, images)
  {
    hide Import.Made;
    if images != [] {
      var n := |images| - 1;
      var before := Copies(imp, store, images[..n], ids[..n]);
      CopiesCount(imp, store, images[..n], ids[..n]);
      assert before + [] == before;
      if Live(store, images[n]) {
        TotalAppend(before, imp.Made(images[n], ids[n], store[images[n].objectKey]));
        MadeId(imp, images[n], ids[n], store[images[n].objectKey]);
      }
    }
  }

  /** Distinct ids, all of them from the list. */
  predicate Identified(images: seq<Image>, ids: seq<Id>) {
    && (forall i :: 0 <= i < |images| ==> images[i].publicID in ids)
    && (forall i, j :: 0 <= i < j < |images| ==> images[i].publicID != images[j].publicID)
  }

  lemma {:induction false} CopiesIds(imp: Import, store: Store, images: seq<Image>, ids: seq<Id>)
    requires |ids| == |images| && forall j, k :: 0 <= j < k < |ids| ==> ids[j] != ids[k]
    ensures Identified(Copies(imp, store, images, ids), ids)
  {
    hide Import.Made, Live;
    if images != [] {
      var n := |images| - 1;
      var before := Copies(imp, store, images[..n], ids[..n]);
      CopiesIds(imp, store, images[..n], ids[..n]);
      assert Identified(before, ids) && forall i :: 0 <= i < |before| ==> before[i].publicID != ids[n] by {
        assert forall i :: i in ids[..n] ==> i in ids && i != ids[n];
      }
      assert before + [] == before;
      if Live(store, images[n]) {
        CopyIdentified(imp, store, images[n], ids[n]);
      }
    }
  }

  lemma CopyIdentified(imp: Import, store: Store, image: Image, pid: Id)
    requires Live(store, image)
    ensures image.objectKey in store && imp.Made(image, pid, store[image.objectKey]).publicID == pid
  {
  }

  lemma {:induction false} CopiesHold(imp: Import, store: Store, images: seq<Image>, ids: seq<Id>, k: nat)
    requires |ids| == |images| && k < |images| && Live(store, images[k])
    ensures imp.Made(images[k], ids[k], store[images[k].objectKey]) in Copies(imp, store, images, ids)
  {
    hide Import.Made;
    var n := |images| - 1;
    if k < n {
      CopiesHold(imp, store, images[..n], ids[..n], k);
    }
  }

  /** The new ids the live images get. */
  ghost function LiveIds(store: Store, images: seq<Image>, ids: seq<Id>): set<Id>
    requires |ids| == |images|
  {
    set k | 0 <= k < |images| && Live(store, images[k]) :: ids[k]
  }

  lemma {:induction false} CopiesLive(imp: Import, store: Store, images: seq<Image>, ids: seq<Id>)
    requires |ids| == |images|
    ensures forall made <- Copies(imp, store, images, ids) :: made.publicID in LiveIds(store, images, ids)
  {
    hide Import.Made, Live;
    if images != [] {
      var n := |images| - 1;
      CopiesLive(imp, store, images[..n], ids[..n]);
      assert LiveIds(store, images[..n], ids[..n]) <= LiveIds(store, images, ids);
      if Live(store, images[n]) {
        CopyIdentified(imp, store, images[n], ids[n]);
      }
    }
  }

  /** An import files no image under any other id. */
  lemma NoOtherIds(imp: Import, db: Db, store: Store, images: seq<Image>, ids: seq<Id>)
    requires |ids| == |images|
    ensures H.ImportImages(db, imp.userID, Copies(imp, store, images, ids)).images.Keys
            <= db.images.Keys + LiveIds(store, images, ids)
  {
    hide H.ImportImages, Copies, LiveIds;
    CopiesLive(imp, store, images, ids);
    Objects.ImportedImages(db, imp.userID, Copies(imp, store, images, ids));
  }

  lemma MadeId(imp: Import, source: Image, pid: Id, body: Data)
    ensures imp.Made(source, pid, body).publicID == pid && imp.Made(source, pid, body).bytes == |body|
  {
  }

  lemma CopyFiled(imp: Import, db: Db, store: Store, images: seq<Image>, ids: seq<Id>, k: nat)
    requires |ids| == |images| && forall i, j :: 0 <= i < j < |ids| ==> ids[i] != ids[j]
    requires k < |images| && Live(store, images[k])
    ensures var next := H.ImportImages(db, imp.userID, Copies(imp, store, images, ids));
            ids[k] in next.images && next.images[ids[k]] == imp.Made(images[k], ids[k], store[images[k].objectKey])
  {
    hide Import.Made, H.ImportImages, Copies;
    var restored := Copies(imp, store, images, ids);
    var made := imp.Made(images[k], ids[k], store[images[k].objectKey]);
    CopiesIds(imp, store, images, ids);
    CopiesHold(imp, store, images, ids, k);
    MadeId(imp, images[k], ids[k], store[images[k].objectKey]);
    var i :| 0 <= i < |restored| && restored[i] == made;
    ImportAdds(db, imp.userID, restored, i);
  }

  lemma OldImageKept(imp: Import, db: Db, store: Store, images: seq<Image>, ids: seq<Id>, p: Id)
    requires |ids| == |images| && forall i, j :: 0 <= i < j < |ids| ==> ids[i] != ids[j]
    requires p in db.images && p !in ids
    ensures var next := H.ImportImages(db, imp.userID, Copies(imp, store, images, ids));
            p in next.images && next.images[p] == db.images[p]
  {
    hide H.ImportImages, Copies;
    var restored := Copies(imp, store, images, ids);
    CopiesIds(imp, store, images, ids);
    assert forall i :: 0 <= i < |restored| ==> restored[i].publicID != p;
    ImportKeeps(db, imp.userID, restored, p);
  }

  /** Export, then import, into whatever state the service is in by then: one new active image for each live
      image of the user and no more, storage raised by their total size, every old image untouched. */
  lemma BackupRestored(imp: Import, db: Db, store: Store, images: seq<Image>, files: Files, names: seq<string>, ids: seq<Id>, target: Store)
    requires Distinct(images) && IsExport(imp.base, store, images, files) && NamesOf(names, files)
    requires |ids| == |images| && Fresh(imp, db, target, images, ids)
    ensures var restored := RestoredImages(imp, files, names, images, ids);
            var next := H.ImportImages(db, imp.userID, restored);
            && |restored| == LiveCount(store, images)
            && next.images.Keys == db.images.Keys + LiveIds(store, images, ids)
            && (forall p <- db.images :: p in next.images && next.images[p] == db.images[p])
            && (forall k :: 0 <= k < |images| && Live(store, images[k]) ==>
                  ids[k] in next.images && next.images[ids[k]] == imp.Made(images[k], ids[k], store[images[k].objectKey]))
            && UsageOf(next, imp.userID).storageBytes == UsageOf(db, imp.userID).storageBytes + LiveBytes(store, images)
  {
    hide IsExport, Distinct, Import.Made, Import.Key, H.ImportImages, RestoredImages, Copies, UsageOf;
    RoundTrip(imp, store, images, files, names, ids);
    CopiesCount(imp, store, images, ids);
    ImportBytes(db, imp.userID, Copies(imp, store, images, ids));
    NoOtherIds(imp, db, store, images, ids);
    forall p | p in db.images
      ensures var next := H.ImportImages(db, imp.userID, Copies(imp, store, images, ids));
              p in next.images && next.images[p] == db.images[p]
    {
      OldImageKept(imp, db, store, images, ids, p);
    }
    forall k | 0 <= k < |images| && Live(store, images[k])
      ensures var next := H.ImportImages(db, imp.userID, Copies(imp, store, images, ids));
              ids[k] in next.images && next.images[ids[k]] == imp.Made(images[k], ids[k], store[images[k].objectKey])
    {
      CopyFiled(imp, db, store, images, ids, k);
    }
  }

  // ---------------------------------------------------------------- the checksum on the way

  lemma OthersKeep(name: string)
    requires OtherName(name)
    ensures Keeps(name)
  {
    assert !IsSpace('n') && !IsSpace('6');
    assert "database/users.ndjson"[20] == 'n' && "database/images.ndjson"[21] == 'n';
    assert "settings/public-config.json"[26] == 'n' && "manifest.json"[12] == 'n' && CHECKSUMS[15] == '6';
  }

  lemma TrimRightPrefix(s: string)
    ensures TrimRight(s) <= s
  {
    TrimRightEnds(s);
  }

  /** When no object path holds a newline, the import accepts the export's own checksum file exactly when no
      object path ends in white space. */
  lemma ExportAccepted(sha: Data -> string, base: BaseName, store: Store, images: seq<Image>, files: Files, names: seq<string>, text: Data)
    requires HexHash(sha) && Distinct(images) && IsExport(base, store, images, files) && NamesOf(names, files)
    requires forall i :: 0 <= i < |images| ==> '\n' !in ObjectPath(base, images[i])
    ensures Accepts(sha, Print(sha, files, names), files[CHECKSUMS := text]) <==>
            forall i :: 0 <= i < |images| && Exported(store, images[i]) ==>
              TrimRight(ObjectPath(base, images[i])) == ObjectPath(base, images[i])
  {
    hide ObjectPath, ObjectFiles, Accepts, Print, TrimRight;
    var found := files[CHECKSUMS := text];
    forall n | n in files ensures '\n' !in n && (OtherName(n) ==> TrimRight(n) == n && n != "") {
      if OtherName(n) {
        OthersKeep(n);
      } else {
        FilesOurs(base, store, images, n);
      }
    }
    AcceptsExactly(sha, files, names, found);
    forall i | 0 <= i < |images| && Exported(store, images[i])
      ensures var path := ObjectPath(base, images[i]);
              path in files && path != CHECKSUMS && path != "" && (TrimRight(path) in found && TrimRight(path) != "" ==> TrimRight(path) == path)
    {
      FilesThere(base, store, images);
      assert HasFile(base, store, ObjectFiles(base, store, images), images[i]);
      PathTrimmed(base, store, images, files, i, text);
    }
    forall n | n in files && n != CHECKSUMS && !OtherName(n)
      ensures exists i :: 0 <= i < |images| && Exported(store, images[i]) && n == ObjectPath(base, images[i])
    {
      FilesOurs(base, store, images, n);
    }
  }

  lemma PathTrimmed(base: BaseName, store: Store, images: seq<Image>, files: Files, i: nat, text: Data)
    requires Distinct(images) && IsExport(base, store, images, files) && i < |images|
    ensures var path := ObjectPath(base, images[i]);
            path != CHECKSUMS && path != "" && (TrimRight(path) in files[CHECKSUMS := text] && TrimRight(path) != "" ==> TrimRight(path) == path)
  {
    hide ObjectFiles, TrimRight;
    var path := ObjectPath(base, images[i]);
    var t := TrimRight(path);
    TrimRightPrefix(path);
    PathStarts(base, images[i], images[i].publicID);
    OtherStarts(CHECKSUMS, path);
    if t in files[CHECKSUMS := text] && t != "" {
      if OtherName(t) {
        OtherStarts(t, path);
      } else {
        FilesOurs(base, store, images, t);
        var j :| 0 <= j < |images| && Exported(store, images[j]) && t == ObjectPath(base, images[j]);
        assert Prefix(images[j].publicID) <= t <= path;
        PrefixTells(base, images[i], images[j].publicID);
        assert i == j;
      }
    }
  }
}
