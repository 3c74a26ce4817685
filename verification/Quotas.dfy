/** The metered counters: image requests, delivered bytes and API calls. */
module QuotaRuns {
  import Text
  import opened Domain
  import opened Db
  import opened Variants
  import opened Handlers
  import opened Actions
  import opened Frames
  import opened Soundness

  datatype Meter = Meter(requests: int, bytes: int, calls: int)

  const ZERO := Meter(0, 0, 0)

  function Plus(a: Meter, b: Meter): Meter {
    Meter(a.requests + b.requests, a.bytes + b.bytes, a.calls + b.calls)
  }

  function Reading(usage: Usage): Meter {
    Meter(usage.imageRequests, usage.bandwidthBytes, usage.apiCalls)
  }

  function MeterOf(db: Db, u: Id): Meter {
    Reading(UsageOf(db, u))
  }

  /** What a step admits for the user: a delivery of so many bytes, or one call with an API key. */
  ghost function Admits(db: Db, s: Step, u: Id): Meter
    requires Legal(db, s)
  {
    match s.action
    case DoDeliver(v, bytesSent) => if s.saved && v == u && Deliver(db, v, bytesSent).Ok? then Meter(1, bytesSent, 0) else ZERO
    case DoUseKey(_, keyAt, required) =>
      if s.saved && keyAt.Some? && keyAt.value.userID == u && UseKey(db, keyAt, required, s.now).Ok? then Meter(0, 0, 1) else ZERO
    case _ => ZERO
  }

  ghost predicate Resets(db: Db, s: Step, u: Id) {
    s.saved && s.action.DoPurge? && u in Doomed(db, s.now)
  }

  // ---------------------------------------------------------------- handlers that write usage records

  lemma PutReading(usage: map<Id, Usage>, owner: Id, next: Usage, u: Id)
    requires Reading(next) == Reading(if owner in usage then usage[owner] else NO_USAGE)
    ensures var after := usage[owner := next];
            Reading(if u in after then after[u] else NO_USAGE) == Reading(if u in usage then usage[u] else NO_USAGE)
  {
  }

  lemma AccountMeter(db: Db, user: User, subID: Id, now: Time, u: Id)
    requires user.id !in db.usage
    ensures MeterOf(NewAccount(db, user, subID, now), u) == MeterOf(db, u)
  {
    PutReading(db.usage, user.id, NO_USAGE, u);
  }

  lemma RegisterMeter(db: Db, userID: Id, rawEmail: string, nickname: string, subID: Id, now: Time, u: Id)
    requires Sound(db) && userID !in db.users
    ensures MeterOf(Or(Register(db, userID, rawEmail, nickname, subID, now), db), u) == MeterOf(db, u)
  {
    hide NewAccount, MeterOf, EmailTaken, KeyedBy, APIKeysKeyed;
    var name := if Text.TrimSpace(nickname) == "" then "user" else nickname;
    AccountMeter(db, User(userID, Text.Normalize(rawEmail), name, false, false, "go", false, now), subID, now, u);
  }

  lemma OAuthLoginMeter(db: Db, found: Option<Id>, userID: Id, rawEmail: string, nickname: string, verified: bool, subID: Id, now: Time, u: Id)
    requires Sound(db) && userID !in db.users && (found.Some? ==> found.value in db.users)
    ensures MeterOf(OAuthLogin(db, found, userID, rawEmail, nickname, verified, subID, now), u) == MeterOf(db, u)
  {
    hide NewAccount, KeyedBy, APIKeysKeyed;
    if found.None? {
      AccountMeter(db, User(userID, Text.Normalize(rawEmail), nickname, verified, true, "go", false, now), subID, now, u);
    }
  }

  lemma UploadMeter(db: Db, image: Image, u: Id)
    ensures MeterOf(Upload(db, image), u) == MeterOf(db, u)
  {
    hide VariantBytes;
  }

  lemma ProcessMeter(db: Db, publicID: Id, p: Processed, blockedHashes: seq<string>, u: Id)
    ensures MeterOf(Or(Process(db, publicID, p, blockedHashes), db), u) == MeterOf(db, u)
  {
    hide VariantBytes, Refreshed, FileProcessed;
    if publicID in db.images && db.images[publicID].status == ImageActive {
      var current := db.images[publicID];
      var next := Refreshed(db, current, p, blockedHashes);
      RefreshedKeeps(db, current, p, blockedHashes);
      FiledMeter(db, next, Adjusted(UsageOf(db, current.userID), VariantBytes(current.variants), VariantBytes(next.variants)), u);
    }
  }

  lemma FiledMeter(db: Db, image: Image, usage: Usage, u: Id)
    requires Reading(usage) == MeterOf(db, image.userID)
    ensures MeterOf(FileProcessed(db, image, usage), u) == MeterOf(db, u)
  {
    FiledParts(db, image, usage);
    hide FileProcessed;
    PutReading(db.usage, image.userID, usage, u);
  }

  lemma RemoveMeter(db: Db, publicID: Id, u: Id)
    requires publicID in db.images
    ensures MeterOf(Remove(db, publicID), u) == MeterOf(db, u)
  {
    hide VariantBytes;
  }

  lemma DeletesMeter(db: Db, publicID: Id, userID: Id, u: Id)
    ensures MeterOf(Or(DeleteImage(db, publicID, userID), db), u) == MeterOf(db, u)
    ensures MeterOf(Or(AdminDelete(db, publicID), db), u) == MeterOf(db, u)
  {
    hide Remove;
    if publicID in db.images {
      RemoveMeter(db, publicID, u);
    }
  }

  lemma {:induction false} ImportMeter(db: Db, userID: Id, images: seq<Image>, u: Id)
    ensures MeterOf(ImportImages(db, userID, images), u) == MeterOf(db, u)
    decreases |images|
  {
    if images != [] {
      ImportMeter(ImportOne(db, userID, images[0]), userID, images[1..], u);
    }
  }

  lemma PurgeMeter(db: Db, now: Time, order: seq<Id>, u: Id)
    ensures MeterOf(Purge(db, now, order), u) == if u in Doomed(db, now) then ZERO else MeterOf(db, u)
  {
    hide Doomed, DropImages, MarkDeleted, ClearPlans;
  }

  /** The owner's counters gain `add`, and the quota of the owner's plan allows them. */
  ghost predicate Counts(db: Db, next: Db, owner: Id, record: Usage, add: Meter) {
    && next.usage == db.usage[owner := record]
    && Reading(record) == Plus(MeterOf(db, owner), add)
    && Entitlement(db, owner).Some? && WithinQuota(Entitlement(db, owner).value.quota, Reading(record))
  }

  function OneDelivery(usage: Usage, bytesSent: nat): Usage {
    usage.(imageRequests := usage.imageRequests + 1, bandwidthBytes := usage.bandwidthBytes + bytesSent)
  }

  function OneCall(usage: Usage): Usage {
    usage.(apiCalls := usage.apiCalls + 1)
  }

  lemma CountsMeter(db: Db, next: Db, owner: Id, record: Usage, add: Meter, u: Id)
    requires Counts(db, next, owner, record, add)
    ensures MeterOf(next, u) == Plus(MeterOf(db, u), if owner == u then add else ZERO)
  {
    hide Entitlement, WithinQuota, Plus;
    assert UsageOf(next, u) == if u == owner then record else UsageOf(db, u);
    NothingCounted(MeterOf(db, u));
  }

  lemma NothingCounted(m: Meter)
    ensures Plus(m, ZERO) == m
  {
  }

  lemma DeliverAdmits(db: Db, userID: Id, bytesSent: nat)
    ensures var r := Deliver(db, userID, bytesSent); r.Ok? ==> Counts(db, r.value, userID, OneDelivery(UsageOf(db, userID), bytesSent), Meter(1, bytesSent, 0))
  {
    hide Entitlement;
  }

  lemma CheckAllows(q: Quota, usage: Usage)
    requires CheckUsage(q, usage).None?
    ensures WithinQuota(q, Reading(usage))
  {
  }

  lemma UseKeyUsage(db: Db, k: KeyAt, required: seq<string>, now: Time)
    requires k.userID in db.apiKeys && k.index < |db.apiKeys[k.userID]|
    ensures var r := UseKey(db, Some(k), required, now);
            r.Ok? ==> r.value.usage == db.usage[k.userID := OneCall(UsageOf(db, k.userID))]
                      && Entitlement(db, k.userID).Some?
                      && CheckUsage(Entitlement(db, k.userID).value.quota, OneCall(UsageOf(db, k.userID))).None?
  {
    hide Entitlement, CheckUsage;
  }

  lemma UseKeyAdmits(db: Db, k: KeyAt, required: seq<string>, now: Time)
    requires k.userID in db.apiKeys && k.index < |db.apiKeys[k.userID]|
    ensures var r := UseKey(db, Some(k), required, now);
            r.Ok? ==> Counts(db, r.value, k.userID, OneCall(UsageOf(db, k.userID)), Meter(0, 0, 1))
  {
    hide Entitlement, CheckUsage, UseKey, WithinQuota;
    UseKeyUsage(db, k, required, now);
    if UseKey(db, Some(k), required, now).Ok? {
      CheckAllows(Entitlement(db, k.userID).value.quota, OneCall(UsageOf(db, k.userID)));
    }
  }

  lemma DeliverMeter(db: Db, userID: Id, bytesSent: nat, u: Id)
    ensures var r := Deliver(db, userID, bytesSent);
            MeterOf(Or(r, db), u) == Plus(MeterOf(db, u), if userID == u && r.Ok? then Meter(1, bytesSent, 0) else ZERO)
  {
    hide Deliver, Counts, MeterOf, Plus;
    var r := Deliver(db, userID, bytesSent);
    DeliverAdmits(db, userID, bytesSent);
    NothingCounted(MeterOf(db, u));
    if r.Ok? {
      CountsMeter(db, r.value, userID, OneDelivery(UsageOf(db, userID), bytesSent), Meter(1, bytesSent, 0), u);
    }
  }

  lemma UseKeyMeter(db: Db, keyAt: Option<KeyAt>, required: seq<string>, now: Time, u: Id)
    requires keyAt.Some? ==> keyAt.value.userID in db.apiKeys && keyAt.value.index < |db.apiKeys[keyAt.value.userID]|
    ensures var r := UseKey(db, keyAt, required, now);
            MeterOf(Or(r, db), u) == Plus(MeterOf(db, u), if keyAt.Some? && keyAt.value.userID == u && r.Ok? then Meter(0, 0, 1) else ZERO)
  {
    hide Counts, MeterOf, Plus;
    NothingCounted(MeterOf(db, u));
    if keyAt.Some? {
      hide UseKey;
      var r := UseKey(db, keyAt, required, now);
      UseKeyAdmits(db, keyAt.value, required, now);
      if r.Ok? {
        CountsMeter(db, r.value, keyAt.value.userID, OneCall(UsageOf(db, keyAt.value.userID)), Meter(0, 0, 1), u);
      }
    }
  }

  // ---------------------------------------------------------------- one step, any handler

  lemma QuietMeter(db: Db, s: Step, u: Id)
    requires Legal(db, s) && UsageRecords !in Writes(s.action)
    ensures MeterOf(Next(db, s), u) == MeterOf(db, u)
  {
    hide Next, Legal, Writes;
    NextKeeps(db, s, UsageRecords);
  }

  lemma MeteredNext(db: Db, s: Step, u: Id)
    requires Legal(db, s) && (s.action.DoDeliver? || s.action.DoUseKey?)
    ensures MeterOf(Next(db, s), u) == Plus(MeterOf(db, u), Admits(db, s, u))
  {
    hide MeterOf, Deliver, UseKey;
    match s.action
    case DoDeliver(v, bytesSent) => DeliverMeter(db, v, bytesSent, u);
    case DoUseKey(_, keyAt, required) => UseKeyMeter(db, keyAt, required, s.now, u);
  }

  lemma ImageNext(db: Db, s: Step, u: Id)
    requires Legal(db, s)
    requires s.action.DoUpload? || s.action.DoProcess? || s.action.DoDeleteImage? || s.action.DoAdminDelete? || s.action.DoImport?
    ensures MeterOf(Next(db, s), u) == MeterOf(db, u)
  {
    hide MeterOf, Upload, Process, DeleteImage, AdminDelete, ImportImages, FreshImports;
    match s.action
    case DoUpload(image) => UploadMeter(db, image, u);
    case DoProcess(publicID, p, blockedHashes) => ProcessMeter(db, publicID, p, blockedHashes, u);
    case DoDeleteImage(publicID, userID) => DeletesMeter(db, publicID, userID, u);
    case DoAdminDelete(publicID) => DeletesMeter(db, publicID, "", u);
    case DoImport(userID, images) => ImportMeter(db, userID, images, u);
  }

  lemma AccountNext(db: Db, s: Step, u: Id)
    requires Sound(db) && Legal(db, s) && (s.action.DoRegister? || s.action.DoOAuthLogin? || s.action.DoPurge?)
    ensures MeterOf(Next(db, s), u) == if Resets(db, s, u) then ZERO else MeterOf(db, u)
  {
    hide MeterOf, Register, OAuthLogin, Purge, Sound, Enumerates, EmailTaken, Doomed;
    match s.action
    case DoRegister(userID, rawEmail, nickname, subID) => RegisterMeter(db, userID, rawEmail, nickname, subID, s.now, u);
    case DoOAuthLogin(found, userID, rawEmail, nickname, verified, subID) =>
      OAuthLoginMeter(db, found, userID, rawEmail, nickname, verified, subID, s.now, u);
    case DoPurge(order) => PurgeMeter(db, s.now, order, u);
  }

  /** A counter moves by what is admitted, falls to zero in a purge, and is left alone by every other handler. */
  lemma MeterNext(db: Db, s: Step, u: Id)
    requires Sound(db) && Legal(db, s)
    ensures MeterOf(Next(db, s), u) == if Resets(db, s, u) then ZERO else Plus(MeterOf(db, u), Admits(db, s, u))
  {
    hide Next, Legal, Sound, MeterOf, Doomed;
    if s.action.DoDeliver? || s.action.DoUseKey? {
      MeteredNext(db, s, u);
    } else if UsageRecords !in Writes(s.action) {
      QuietMeter(db, s, u);
    } else if s.action.DoRegister? || s.action.DoOAuthLogin? || s.action.DoPurge? {
      AccountNext(db, s, u);
    } else {
      ImageNext(db, s, u);
    }
  }

  // ---------------------------------------------------------------- whole runs

  /** What was admitted for the user since the last purge of its records, `before` included. */
  ghost function AdmittedSince(before: Meter, db: Db, clock: Time, steps: seq<Step>, u: Id): Meter
    requires LegalRun(db, clock, steps)
    decreases |steps|
  {
    if steps == [] then before
    else
      var s := steps[0];
      AdmittedSince(if Resets(db, s, u) then ZERO else Plus(before, Admits(db, s, u)), Next(db, s), s.now, steps[1..], u)
  }

  /** The counters are exact. */
  lemma {:induction false} CountersExact(db: Db, clock: Time, steps: seq<Step>, u: Id)
    requires Sound(db) && LegalRun(db, clock, steps)
    ensures MeterOf(Run(db, clock, steps), u) == AdmittedSince(MeterOf(db, u), db, clock, steps, u)
    decreases |steps|
  {
    hide Sound, Next, Legal, MeterOf, Admits, Resets;
    if steps != [] {
      MeterNext(db, steps[0], u);
      SoundNext(db, steps[0]);
      CountersExact(Next(db, steps[0]), steps[0].now, steps[1..], u);
    }
  }

  predicate WithinQuota(q: Quota, m: Meter) {
    Allows(q.imageRequests, m.requests) && Allows(q.bandwidthBytes, m.bytes) && Allows(q.apiCalls, m.calls)
  }

  predicate NotNegative(m: Meter) {
    m.requests >= 0 && m.bytes >= 0 && m.calls >= 0
  }

  /** The user's plan and its quota stay the same all along. */
  ghost predicate FixedQuota(db: Db, clock: Time, steps: seq<Step>, u: Id, q: Quota)
    requires LegalRun(db, clock, steps)
    decreases |steps|
  {
    && Entitlement(db, u).Some? && Entitlement(db, u).value.quota == q
    && (steps == [] || FixedQuota(Next(db, steps[0]), steps[0].now, steps[1..], u, q))
  }

  lemma CountsWithin(db: Db, next: Db, u: Id, record: Usage, add: Meter)
    requires Counts(db, next, u, record, add) && NotNegative(add) && NotNegative(MeterOf(db, u))
    ensures Entitlement(db, u).Some? && WithinQuota(Entitlement(db, u).value.quota, Plus(MeterOf(db, u), add))
    ensures NotNegative(Plus(MeterOf(db, u), add))
  {
    hide Entitlement;
  }

  lemma AdmittedWithin(db: Db, s: Step, u: Id, q: Quota)
    requires Legal(db, s) && Entitlement(db, u).Some? && Entitlement(db, u).value.quota == q
    requires WithinQuota(q, MeterOf(db, u)) && NotNegative(MeterOf(db, u))
    ensures WithinQuota(q, Plus(MeterOf(db, u), Admits(db, s, u))) && NotNegative(Plus(MeterOf(db, u), Admits(db, s, u)))
  {
    hide Entitlement, Deliver, UseKey, Counts, WithinQuota, MeterOf, Plus, FoundKey;
    NothingCounted(MeterOf(db, u));
    if Admits(db, s, u) != ZERO {
      if s.action.DoDeliver? {
        DeliverAdmits(db, u, s.action.bytesSent);
        CountsWithin(db, Deliver(db, u, s.action.bytesSent).value, u, OneDelivery(UsageOf(db, u), s.action.bytesSent), Admits(db, s, u));
      } else {
        KeyExists(db, s.action.secretHash, s.action.keyAt);
        UseKeyAdmits(db, s.action.keyAt.value, s.action.required, s.now);
        CountsWithin(db, UseKey(db, s.action.keyAt, s.action.required, s.now).value, u, OneCall(UsageOf(db, u)), Admits(db, s, u));
      }
    }
  }

  lemma KeyExists(db: Db, secretHash: string, keyAt: Option<KeyAt>)
    requires FoundKey(db, secretHash, keyAt) && keyAt.Some?
    ensures keyAt.value.userID in db.apiKeys && keyAt.value.index < |db.apiKeys[keyAt.value.userID]|
  {
  }

  lemma {:induction false} WithinRun(db: Db, clock: Time, steps: seq<Step>, u: Id, q: Quota)
    requires Sound(db) && LegalRun(db, clock, steps) && FixedQuota(db, clock, steps, u, q)
    requires WithinQuota(q, MeterOf(db, u)) && NotNegative(MeterOf(db, u))
    ensures WithinQuota(q, MeterOf(Run(db, clock, steps), u))
    decreases |steps|
  {
    hide Sound, Next, Legal, MeterOf, Admits, Resets, Entitlement;
    if steps != [] {
      MeterNext(db, steps[0], u);
      SoundNext(db, steps[0]);
      AdmittedWithin(db, steps[0], u, q);
      WithinRun(Next(db, steps[0]), steps[0].now, steps[1..], u, q);
    }
  }

  /** While the quota stands still, exactly the admitted requests, bytes and calls are counted, and the counters
      never pass it. */
  lemma QuotasHold(db: Db, clock: Time, steps: seq<Step>, u: Id, q: Quota)
    requires Sound(db) && LegalRun(db, clock, steps) && FixedQuota(db, clock, steps, u, q)
    requires WithinQuota(q, MeterOf(db, u)) && NotNegative(MeterOf(db, u))
    ensures var m := MeterOf(Run(db, clock, steps), u);
            m == AdmittedSince(MeterOf(db, u), db, clock, steps, u) && WithinQuota(q, m)
  {
    CountersExact(db, clock, steps, u);
    WithinRun(db, clock, steps, u, q);
  }
}
