/** Who may do what with an account, and what comes of it: told by the fields of the records, not by the functions the
    handlers call. */
module AccountOutcomes {
  import opened Text
  import opened Domain
  import opened Db
  import opened Orders
  import opened Handlers
  import opened Actions
  import opened Frames
  import opened Soundness

  // ---------------------------------------------------------------- plans and quotas

  /** The i-th plan is the first with the slug. */
  predicate FirstPlan(plans: seq<Plan>, slug: string, i: nat) {
    i < |plans| && plans[i].slug == slug && forall j :: 0 <= j < i ==> plans[j].slug != slug
  }

  lemma {:induction false} FindPlanFirst(plans: seq<Plan>, slug: string)
    ensures FindPlan(plans, slug).Some? <==> exists i: nat :: FirstPlan(plans, slug, i)
    ensures forall i: nat :: FirstPlan(plans, slug, i) ==> FindPlan(plans, slug) == Some(plans[i])
  {
    if plans != [] {
      FindPlanFirst(plans[1..], slug);
      if plans[0].slug == slug {
        assert FirstPlan(plans, slug, 0);
      } else {
        forall i: nat | FirstPlan(plans, slug, i) ensures i > 0 && FirstPlan(plans[1..], slug, i - 1) {
        }
        forall i: nat | FirstPlan(plans[1..], slug, i) ensures FirstPlan(plans, slug, i + 1) {
        }
      }
    }
  }

  /** No counter is above its limit. */
  predicate AllWithin(q: Quota, usage: Usage) {
    && (q.storageBytes.Some? ==> usage.storageBytes <= q.storageBytes.value)
    && (q.bandwidthBytes.Some? ==> usage.bandwidthBytes <= q.bandwidthBytes.value)
    && (q.imageRequests.Some? ==> usage.imageRequests <= q.imageRequests.value)
    && (q.apiCalls.Some? ==> usage.apiCalls <= q.apiCalls.value)
    && (q.imageProcessEvents.Some? ==> usage.imageProcessEvents <= q.imageProcessEvents.value)
  }

  /** The user is known and subscribed; the plan is the first that carries the slug of the subscription, or that of the
      user when the subscription names none. */
  predicate Entitled(db: Db, u: Id, i: nat) {
    && u in db.users && u in db.subs
    && FirstPlan(db.plans, if db.subs[u].planSlug != "" then db.subs[u].planSlug else db.users[u].planSlug, i)
  }

  lemma EntitledPlan(db: Db, u: Id)
    ensures Entitlement(db, u).Some? <==> exists i: nat :: Entitled(db, u, i)
    ensures forall i: nat :: Entitled(db, u, i) ==> Entitlement(db, u) == Some(db.plans[i])
  {
    hide FindPlan, FirstPlan;
    if u in db.users && u in db.subs {
      var slug := if db.subs[u].planSlug != "" then db.subs[u].planSlug else db.users[u].planSlug;
      FindPlanFirst(db.plans, slug);
      forall i: nat | FirstPlan(db.plans, slug, i) ensures Entitled(db, u, i) {
      }
    }
  }

  lemma CheckUsageExact(q: Quota, usage: Usage)
    ensures CheckUsage(q, usage).None? <==> AllWithin(q, usage)
  {
  }

  /** An upload is admitted exactly when the file is not too large by itself and, with it and one more processing event,
      no counter passes its limit. */
  lemma CheckUploadExact(q: Quota, usage: Usage, bytes: int)
    ensures CheckUpload(q, usage, bytes).None? <==>
      && (q.singleFileBytes.Some? ==> bytes <= q.singleFileBytes.value)
      && AllWithin(q, Usage(usage.storageBytes + bytes, usage.bandwidthBytes, usage.imageRequests, usage.apiCalls, usage.imageProcessEvents + 1))
  {
  }

  /** A delivery is counted exactly when the owner has a plan and its quota allows one request and the bytes more. */
  lemma DeliverExact(db: Db, u: Id, bytesSent: nat)
    ensures var r := Deliver(db, u, bytesSent);
      var usage := if u in db.usage then db.usage[u] else Usage(0, 0, 0, 0, 0);
      var more := Usage(usage.storageBytes, usage.bandwidthBytes + bytesSent, usage.imageRequests + 1, usage.apiCalls, usage.imageProcessEvents);
      && (r.Ok? <==> exists i: nat :: Entitled(db, u, i) && AllWithin(db.plans[i].quota, more))
      && (r.Ok? ==> r.value == db.(usage := db.usage[u := more]))
  {
    hide Entitled, CheckUsage, AllWithin, Entitlement;
    EntitledPlan(db, u);
    var usage := if u in db.usage then db.usage[u] else Usage(0, 0, 0, 0, 0);
    var more := Usage(usage.storageBytes, usage.bandwidthBytes + bytesSent, usage.imageRequests + 1, usage.apiCalls, usage.imageProcessEvents);
    if exists i: nat :: Entitled(db, u, i) {
      var i: nat :| Entitled(db, u, i);
      EntitledKnown(db, u, i);
      CheckUsageExact(db.plans[i].quota, more);
    }
  }

  lemma EntitledKnown(db: Db, u: Id, i: nat)
    requires Entitled(db, u, i)
    ensures i < |db.plans| && forall j: nat :: Entitled(db, u, j) ==> i == j
  {
  }

  // ---------------------------------------------------------------- searches

  /** The provider's login finds an account with the email, and none only when there is none; a grant names its user by id
      or, ignoring case, by email; a call finds an unrevoked key with the hash, and none only when there is none. */
  lemma SearchesExact(db: Db, email: string, name: string, secretHash: string, found: Option<Id>, k: Option<KeyAt>)
    ensures FoundByEmail(db, email, found) <==>
      if found.Some? then found.value in db.users && db.users[found.value].email == email
      else forall u <- db.users :: db.users[u].email != email
    ensures FoundUser(db, name, found) <==>
      if name in db.users then found == Some(name)
      else if found.Some? then found.value in db.users && Lower(db.users[found.value].email) == Lower(name)
      else forall u <- db.users :: Lower(db.users[u].email) != Lower(name)
    ensures FoundKey(db, secretHash, k) <==>
      if k.Some? then
        && k.value.userID in db.apiKeys && k.value.index < |db.apiKeys[k.value.userID]|
        && Unlocks(db.apiKeys[k.value.userID][k.value.index], secretHash)
      else forall u <- db.apiKeys :: forall i :: 0 <= i < |db.apiKeys[u]| ==> !Unlocks(db.apiKeys[u][i], secretHash)
  {
    hide Lower;
  }

  predicate Unlocks(key: APIKey, secretHash: string) {
    key.secretHash == secretHash && !key.revoked
  }

  // ---------------------------------------------------------------- API keys

  predicate Carries(scopes: seq<string>, scope: string) {
    exists k :: 0 <= k < |scopes| && TrimSpace(scopes[k]) == scope
  }

  /** The key carries a star, or every scope asked for. */
  predicate Permits(scopes: seq<string>, required: seq<string>) {
    required == [] || Carries(scopes, "*") || forall j :: 0 <= j < |required| ==> Carries(scopes, required[j])
  }

  lemma CarriesInSet(scopes: seq<string>, scope: string)
    ensures scope in ScopeSet(scopes) <==> Carries(scopes, scope)
  {
    hide TrimSpace;
    if scope in ScopeSet(scopes) {
      var raw :| raw in scopes && TrimSpace(raw) == scope;
      var k :| 0 <= k < |scopes| && scopes[k] == raw;
    }
  }

  lemma ScopesExact(actual: seq<string>, required: seq<string>)
    ensures HasScopes(actual, required) <==> Permits(actual, required)
  {
    hide ScopeSet, Carries;
    CarriesInSet(actual, "*");
    forall j | 0 <= j < |required| ensures required[j] in ScopeSet(actual) <==> Carries(actual, required[j]) {
      CarriesInSet(actual, required[j]);
    }
  }

  /** A key is good for a call: it is there with the hash and not revoked, its user is known and not banned, it carries the
      scopes, and the user's plan allows one more call. */
  predicate Calls(db: Db, k: KeyAt, secretHash: string, required: seq<string>, i: nat) {
    && k.userID in db.apiKeys && k.index < |db.apiKeys[k.userID]|
    && Opens(db.apiKeys[k.userID][k.index], secretHash, required)
    && k.userID in db.users && !db.users[k.userID].banned
    && Entitled(db, k.userID, i)
    && AllWithin(db.plans[i].quota, OneMoreCall(UsageAt(db, k.userID)))
  }

  predicate Opens(key: APIKey, secretHash: string, required: seq<string>) {
    !key.revoked && key.secretHash == secretHash && Permits(key.scopes, required)
  }

  function UsageAt(db: Db, u: Id): Usage {
    if u in db.usage then db.usage[u] else Usage(0, 0, 0, 0, 0)
  }

  function OneMoreCall(usage: Usage): Usage {
    Usage(usage.storageBytes, usage.bandwidthBytes, usage.imageRequests, usage.apiCalls + 1, usage.imageProcessEvents)
  }

  /** A call is admitted exactly with such a key; the key is stamped and the call counted, and nothing else changes. */
  lemma UseKeyExact(db: Db, k: KeyAt, secretHash: string, required: seq<string>, now: Time)
    requires FoundKey(db, secretHash, Some(k))
    ensures var r := UseKey(db, Some(k), required, now);
      && (r.Ok? <==> exists i: nat :: Calls(db, k, secretHash, required, i))
      && (r.Ok? ==>
          && r.value == db.(apiKeys := r.value.apiKeys, usage := db.usage[k.userID := OneMoreCall(UsageAt(db, k.userID))])
          && var keys := db.apiKeys[k.userID];
             r.value.apiKeys == db.apiKeys[k.userID := keys[k.index := keys[k.index].(lastUsedAt := Some(now))]])
  {
    hide Entitled, CheckUsage, AllWithin, Entitlement, HasScopes, Permits;
    var u := k.userID;
    ScopesExact(db.apiKeys[u][k.index].scopes, required);
    EntitledPlan(db, u);
    if exists i: nat :: Entitled(db, u, i) {
      var i: nat :| Entitled(db, u, i);
      EntitledKnown(db, u, i);
      CheckUsageExact(db.plans[i].quota, OneMoreCall(UsageAt(db, u)));
      assert Calls(db, k, secretHash, required, i) ==> UseKey(db, Some(k), required, now).Ok?;
    }
  }

  /** Keys stay where they are, with their owner, their hash and their scopes, and a revoked key stays revoked. */
  ghost predicate KeysStay(db: Db, next: Db) {
    forall u <- db.apiKeys :: u in next.apiKeys && ListStays(db.apiKeys[u], next.apiKeys[u])
  }

  predicate ListStays(keys: seq<APIKey>, next: seq<APIKey>) {
    |keys| <= |next| && forall i :: 0 <= i < |keys| ==> KeyStays(keys[i], next[i])
  }

  predicate KeyStays(key: APIKey, next: APIKey) {
    next.id == key.id && next.userID == key.userID && next.secretHash == key.secretHash && next.scopes == key.scopes
    && (key.revoked ==> next.revoked)
  }

  lemma SameKeysStay(db: Db, next: Db)
    requires next.apiKeys == db.apiKeys
    ensures KeysStay(db, next)
  {
  }

  lemma PutKeysStay(db: Db, next: Db, u: Id, keys: seq<APIKey>)
    requires next.apiKeys == db.apiKeys[u := keys] && (u in db.apiKeys ==> ListStays(db.apiKeys[u], keys))
    ensures KeysStay(db, next)
  {
  }

  /** The i-th key is the first with the id. */
  predicate FirstKey(keys: seq<APIKey>, keyID: Id, i: nat) {
    i < |keys| && keys[i].id == keyID && forall j :: 0 <= j < i ==> keys[j].id != keyID
  }

  lemma {:induction false} RevokeFirstAt(keys: seq<APIKey>, keyID: Id, i: nat)
    requires FirstKey(keys, keyID, i)
    ensures RevokeFirst(keys, keyID) == keys[i := keys[i].(revoked := true, secret := "")]
  {
    if i > 0 {
      RevokeFirstAt(keys[1..], keyID, i - 1);
    }
  }

  /** Revoking reaches the first key with the id and no other: it is marked and its secret wiped. Without such a key the
      request is refused. */
  lemma RevokeKeyExact(db: Db, u: Id, keyID: Id)
    ensures var keys, r := KeysOf(db, u), RevokeKey(db, u, keyID);
      && (r.Ok? <==> exists j :: 0 <= j < |keys| && keys[j].id == keyID)
      && forall i: nat :: FirstKey(keys, keyID, i) ==>
           r.Ok? && r.value == db.(apiKeys := db.apiKeys[u := keys[i := keys[i].(revoked := true, secret := "")]])
  {
    var keys := KeysOf(db, u);
    forall i: nat | FirstKey(keys, keyID, i)
      ensures RevokeFirst(keys, keyID) == keys[i := keys[i].(revoked := true, secret := "")]
    {
      RevokeFirstAt(keys, keyID, i);
    }
  }

  /** A ban revokes every key of the user; lifting it gives none back. */
  lemma StatusExact(db: Db, u: Id, banned: bool)
    ensures var keys, r := KeysOf(db, u), SetUserStatus(db, u, banned);
      && (r.Ok? <==> u in db.users)
      && (r.Ok? ==>
          && r.value.users == db.users[u := db.users[u].(banned := banned)]
          && |KeysOf(r.value, u)| == |keys|
          && (forall v :: v != u ==> KeysOf(r.value, v) == KeysOf(db, v))
          && forall i :: 0 <= i < |keys| ==>
               KeysOf(r.value, u)[i] == if banned && !keys[i].revoked then keys[i].(revoked := true, secret := "") else keys[i])
  {
  }

  /** Verified users add keys to the end of their own list, others to none. */
  lemma CreateKeyExact(db: Db, key: APIKey)
    ensures var r := CreateKey(db, key);
      && (r.Ok? <==> key.userID in db.users && db.users[key.userID].emailVerified)
      && (r.Ok? ==>
          && KeysOf(r.value, key.userID) == KeysOf(db, key.userID) + [key]
          && r.value == db.(apiKeys := db.apiKeys[key.userID := KeysOf(r.value, key.userID)]))
  {
  }

  // ---------------------------------------------------------------- keys over runs

  lemma ListStaysSame(keys: seq<APIKey>)
    ensures ListStays(keys, keys)
  {
  }

  lemma {:induction false} RevokeFirstStays(keys: seq<APIKey>, keyID: Id)
    ensures ListStays(keys, RevokeFirst(keys, keyID))
  {
    if keys != [] {
      RevokeFirstStays(keys[1..], keyID);
      assert forall i :: 0 < i < |keys| ==> keys[i] == keys[1..][i - 1];
    }
  }

  lemma KeyHandlersStay(db: Db, key: APIKey, u: Id, keyID: Id, banned: bool)
    ensures KeysStay(db, Or(CreateKey(db, key), db)) && KeysStay(db, Or(RevokeKey(db, u, keyID), db))
    ensures KeysStay(db, Or(SetUserStatus(db, u, banned), db))
  {
    hide KeysStay, RevokeFirst;
    SameKeysStay(db, db);
    ListStaysSame(KeysOf(db, key.userID));
    if CreateKey(db, key).Ok? {
      PutKeysStay(db, CreateKey(db, key).value, key.userID, KeysOf(db, key.userID) + [key]);
    }
    RevokeFirstStays(KeysOf(db, u), keyID);
    if RevokeKey(db, u, keyID).Ok? {
      PutKeysStay(db, RevokeKey(db, u, keyID).value, u, RevokeFirst(KeysOf(db, u), keyID));
    }
    StatusStays(db, u, banned);
  }

  lemma StatusStays(db: Db, u: Id, banned: bool)
    ensures KeysStay(db, Or(SetUserStatus(db, u, banned), db))
  {
    hide KeysStay, RevokeAll, ListStays;
    var next := Or(SetUserStatus(db, u, banned), db);
    if u in db.users && banned && KeysOf(db, u) != [] {
      RevokeAllStays(KeysOf(db, u));
      PutKeysStay(db, next, u, RevokeAll(KeysOf(db, u)));
    } else {
      SameKeysStay(db, next);
    }
  }

  lemma RevokeAllStays(keys: seq<APIKey>)
    ensures ListStays(keys, RevokeAll(keys))
  {
  }

  lemma UseKeyStays(db: Db, found: Option<KeyAt>, required: seq<string>, now: Time)
    requires found.Some? ==> found.value.userID in db.apiKeys && found.value.index < |db.apiKeys[found.value.userID]|
    ensures KeysStay(db, Or(UseKey(db, found, required, now), db))
  {
    hide KeysStay, Entitlement, CheckUsage, HasScopes;
    SameKeysStay(db, db);
    var r := UseKey(db, found, required, now);
    if r.Ok? {
      PutKeysStay(db, r.value, found.value.userID, r.value.apiKeys[found.value.userID]);
    }
  }

  lemma KeysNext(db: Db, s: Step)
    requires Legal(db, s)
    ensures KeysStay(db, Next(db, s))
  {
    hide KeysStay, Writes, Legal, Next;
    if Keys in Writes(s.action) {
      KeyEffectStays(db, s);
    } else {
      NextKeeps(db, s, Keys);
      SameKeysStay(db, Next(db, s));
    }
  }

  lemma KeyEffectStays(db: Db, s: Step)
    requires Legal(db, s) && Keys in Writes(s.action)
    ensures KeysStay(db, Next(db, s))
  {
    hide KeysStay, CreateKey, RevokeKey, SetUserStatus, UseKey, Or;
    SameKeysStay(db, db);
    match s.action
    case DoCreateKey(key) => KeyHandlersStay(db, key, "", "", false);
    case DoRevokeKey(u, keyID) => KeyHandlersStay(db, APIKey("", "", "", "", [], false, None), u, keyID, false);
    case DoSetUserStatus(u, banned) => StatusStays(db, u, banned);
    case DoUseKey(_, found, required) => UseKeyStays(db, found, required, s.now);
  }

  lemma KeysStayTransitive(a: Db, b: Db, c: Db)
    requires KeysStay(a, b) && KeysStay(b, c)
    ensures KeysStay(a, c)
  {
    forall u | u in a.apiKeys ensures u in c.apiKeys && ListStays(a.apiKeys[u], c.apiKeys[u]) {
      assert ListStays(a.apiKeys[u], b.apiKeys[u]) && ListStays(b.apiKeys[u], c.apiKeys[u]);
      forall i | 0 <= i < |a.apiKeys[u]| ensures KeyStays(a.apiKeys[u][i], c.apiKeys[u][i]) {
        assert KeyStays(a.apiKeys[u][i], b.apiKeys[u][i]) && KeyStays(b.apiKeys[u][i], c.apiKeys[u][i]);
      }
    }
  }

  lemma {:induction false} KeysRun(db: Db, clock: Time, steps: seq<Step>)
    requires LegalRun(db, clock, steps)
    ensures KeysStay(db, Run(db, clock, steps))
    decreases |steps|
  {
    hide Next, Legal, KeysStay;
    if steps == [] {
      SameKeysStay(db, db);
    } else {
      KeysNext(db, steps[0]);
      KeysRun(Next(db, steps[0]), steps[0].now, steps[1..]);
      KeysStayTransitive(db, Next(db, steps[0]), Run(db, clock, steps));
    }
  }

  /** A key that is revoked in one state is never again the key of an admitted call, whatever happens in between; that
      goes for every key its user had when the user was banned, even after the ban is lifted. */
  lemma RevokedForever(db: Db, clock: Time, steps: seq<Step>, s: Step, k: KeyAt)
    requires LegalRun(db, clock, steps) && Legal(Run(db, clock, steps), s)
    requires k.userID in db.apiKeys && k.index < |db.apiKeys[k.userID]| && db.apiKeys[k.userID][k.index].revoked
    ensures !(s.action.DoUseKey? && s.action.keyAt == Some(k))
  {
    hide Run, LegalRun, Next;
    KeysRun(db, clock, steps);
    var later := Run(db, clock, steps);
    assert ListStays(db.apiKeys[k.userID], later.apiKeys[k.userID]);
    assert KeyStays(db.apiKeys[k.userID][k.index], later.apiKeys[k.userID][k.index]);
  }

  lemma BanNext(db: Db, u: Id, now: Time)
    requires u in db.users
    ensures Legal(db, Step(DoSetUserStatus(u, true), now, true))
    ensures Next(db, Step(DoSetUserStatus(u, true), now, true)) == SetUserStatus(db, u, true).value
  {
    hide SetUserStatus;
    assert SetUserStatus(db, u, true).Ok? by {
      StatusExact(db, u, true);
    }
  }

  /** Once a user is banned, none of the keys the user had then ever admits a call again, not even after the ban is lifted;
      and while the ban stands no key does. */
  lemma BanLocksKeys(db: Db, u: Id, now: Time, steps: seq<Step>, s: Step)
    requires u in db.users
    requires LegalRun(Next(db, Step(DoSetUserStatus(u, true), now, true)), now, steps)
    requires var later := Run(Next(db, Step(DoSetUserStatus(u, true), now, true)), now, steps);
      Legal(later, s) && s.action.DoUseKey? && s.action.keyAt.Some? && s.action.keyAt.value.userID == u
    ensures s.action.keyAt.value.index >= |KeysOf(db, u)|
    ensures var later := Run(Next(db, Step(DoSetUserStatus(u, true), now, true)), now, steps);
      u in later.users && later.users[u].banned ==> Next(later, s) == later
  {
    hide Run, LegalRun, SetUserStatus;
    var banned := Next(db, Step(DoSetUserStatus(u, true), now, true));
    var later := Run(banned, now, steps);
    var k := s.action.keyAt.value;
    BanNext(db, u, now);
    StatusExact(db, u, true);
    if k.index < |KeysOf(db, u)| {
      assert KeysOf(banned, u)[k.index].revoked;
      RevokedForever(banned, now, steps, s, k);
    }
    BannedRefused(later, s);
  }

  lemma BannedRefused(db: Db, s: Step)
    requires Legal(db, s) && s.action.DoUseKey? && s.action.keyAt.Some?
    ensures var u := s.action.keyAt.value.userID; u in db.users && db.users[u].banned ==> Next(db, s) == db
  {
    hide Entitlement, HasScopes, CheckUsage;
  }

  // ---------------------------------------------------------------- what an account is given

  /** One user's record and subscription, and nobody else's. */
  predicate OnlyUser(db: Db, next: Db, u: Id) {
    && u in next.users && next.users == db.users[u := next.users[u]]
    && u in next.subs && next.subs == db.subs[u := next.subs[u]]
  }

  /** A new account is on plan "go" for 30 days, with all counters at zero. */
  ghost predicate NewcomerGets(db: Db, next: Db, u: Id, subID: Id, now: Time) {
    && OnlyUser(db, next, u) && next.users[u].planSlug == "go" && !next.users[u].banned
    && Lasts(next.subs[u], subID, u, "go", now, 30)
    && next.usage == db.usage[u := Usage(0, 0, 0, 0, 0)]
  }

  lemma NewAccountGets(db: Db, user: User, subID: Id, now: Time)
    requires user.planSlug == "go" && !user.banned
    ensures NewcomerGets(db, NewAccount(db, user, subID, now), user.id, subID, now)
    ensures NewAccount(db, user, subID, now).users == db.users[user.id := user]
  {
  }

  /** Registration succeeds exactly when no user has the email, whatever case and white space it is typed in. */
  lemma RegisterExact(db: Db, u: Id, rawEmail: string, nickname: string, subID: Id, now: Time)
    ensures var r := Register(db, u, rawEmail, nickname, subID, now);
      && (r.Ok? <==> forall v <- db.users :: db.users[v].email != Lower(TrimSpace(rawEmail)))
      && (r.Ok? ==>
          && NewcomerGets(db, r.value, u, subID, now)
          && var user := r.value.users[u];
             user.email == Lower(TrimSpace(rawEmail)) && !user.emailVerified && !user.oauthBound
             && (TrimSpace(nickname) != "" ==> user.nickname == nickname) && user.nickname != "")
  {
    hide NewAccount, NewcomerGets, Lower, TrimSpace;
    var email := Lower(TrimSpace(rawEmail));
    assert Normalize(rawEmail) == email;
    var name := if TrimSpace(nickname) == "" then "user" else nickname;
    NewAccountGets(db, User(u, email, name, false, false, "go", false, now), subID, now);
    NotBlank(nickname);
  }

  lemma NotBlank(s: string)
    ensures TrimSpace(s) != "" ==> s != ""
  {
  }

  /** A login through the provider binds the account it finds, never takes a verification back, and opens a bound account
      when it finds none. */
  lemma OAuthExact(db: Db, found: Option<Id>, u: Id, rawEmail: string, nickname: string, verified: bool, subID: Id, now: Time)
    requires found.Some? ==> found.value in db.users
    ensures var next := OAuthLogin(db, found, u, rawEmail, nickname, verified, subID, now);
      match found
      case Some(id) =>
        && next.subs == db.subs && next.usage == db.usage
        && var was := db.users[id];
           && id in next.users && next.users == db.users[id := next.users[id]]
           && next.users[id] == was.(oauthBound := true, emailVerified := next.users[id].emailVerified, nickname := next.users[id].nickname)
           && (next.users[id].emailVerified <==> was.emailVerified || verified)
           && (TrimSpace(was.nickname) != "" ==> next.users[id].nickname == was.nickname)
      case None =>
        && NewcomerGets(db, next, u, subID, now)
        && next.users[u].email == Lower(TrimSpace(rawEmail)) && next.users[u].oauthBound && next.users[u].emailVerified == verified
  {
    hide NewAccount, NewcomerGets, Lower, TrimSpace;
    if found.None? {
      assert Normalize(rawEmail) == Lower(TrimSpace(rawEmail));
      NewAccountGets(db, User(u, Normalize(rawEmail), nickname, verified, true, "go", false, now), subID, now);
      AuditedGets(db, NewAccount(db, User(u, Normalize(rawEmail), nickname, verified, true, "go", false, now), subID, now), u, subID, now);
    }
  }

  lemma AuditedGets(db: Db, next: Db, u: Id, subID: Id, now: Time)
    requires NewcomerGets(db, next, u, subID, now)
    ensures NewcomerGets(db, Audited(next, "system", LogOAuthLogin, u), u, subID, now)
  {
  }

  /** A new nickname counts without the white space around it and has one to forty letters; nothing else is edited. */
  lemma ProfileExact(db: Db, u: Id, nickname: string)
    requires u in db.users ==> db.users[u].id == u
    ensures var r := UpdateProfile(db, u, nickname);
      && (r.Ok? <==> u in db.users && 1 <= |TrimSpace(nickname)| <= 40)
      && (r.Ok? ==> r.value == db.(users := db.users[u := db.users[u].(nickname := TrimSpace(nickname))],
                                   auditLogs := db.auditLogs + [AuditLog("user", LogProfileUpdate, u, false)]))
    ensures var r := VerifyEmail(db, u);
      && (r.Ok? <==> u in db.users)
      && (r.Ok? ==> r.value == db.(users := db.users[u := db.users[u].(emailVerified := true)]))
  {
    hide TrimSpace;
  }

  /** A grant needs days, a user and a plan, and a reason for the plan without limits; then the plan starts at once and
      lasts the days, up to the length at which the product wraps. */
  lemma GrantExact(db: Db, found: Option<Id>, slug: string, days: int, reason: string, subID: Id, now: Time)
    requires found.Some? ==> found.value in db.users && db.users[found.value].id == found.value
    ensures var r := GrantPlan(db, found, slug, days, reason, subID, now);
      && (r.Ok? <==>
          && days > 0 && found.Some? && (exists i: nat :: FirstPlan(db.plans, slug, i))
          && (slug == "infinite-max" ==> TrimSpace(reason) != ""))
      && (r.Ok? ==>
          && var u := found.value;
             OnlyUser(db, r.value, u) && r.value.users[u] == db.users[u].(planSlug := slug)
             && (days <= 106_751 ==> Lasts(r.value.subs[u], subID, u, slug, now, days)))
  {
    hide FindPlan, FirstPlan, TrimSpace, Lasts, NewSubscription, DaysDuration;
    FoundSlug(db.plans, slug);
    var r := GrantPlan(db, found, slug, days, reason, subID, now);
    if r.Ok? {
      var u := found.value;
      var sub := NewSubscription(subID, u, slug, now, DaysDuration(days));
      assert r.value.subs == db.subs[u := sub] && r.value.users == db.users[u := db.users[u].(planSlug := slug)];
      if days <= 106_751 {
        GrantLasts(subID, u, slug, now, days);
      }
    }
  }

  lemma FoundSlug(plans: seq<Plan>, slug: string)
    ensures FindPlan(plans, slug).Some? <==> exists i: nat :: FirstPlan(plans, slug, i)
    ensures FindPlan(plans, slug).Some? ==> FindPlan(plans, slug).value.slug == slug
  {
    FindPlanFirst(plans, slug);
    if FindPlan(plans, slug).Some? {
      var i: nat :| FirstPlan(plans, slug, i);
      assert FindPlan(plans, slug) == Some(plans[i]);
    }
  }

  /** An admin ends a subscription for a reason: it is over from now on, and the data is gone at once or kept for the days
      asked for, 30 if none, at most 365. */
  lemma ExpireExact(db: Db, u: Id, reason: string, retentionDays: int, deleteNow: bool, now: Time)
    requires u in db.users ==> db.users[u].id == u
    ensures var r := ExpireSubscription(db, u, reason, retentionDays, deleteNow, now);
      && (r.Ok? <==> TrimSpace(reason) != "" && retentionDays <= 365 && u in db.users && u in db.subs)
      && (r.Ok? ==>
          && OnlyUser(db, r.value, u) && r.value.users[u] == db.users[u].(planSlug := "")
          && SameGrant(db.subs[u], r.value.subs[u])
          && if deleteNow then forall t :: r.value.subs[u].EffectiveStatus(t) == SubDeleted
             else Over(r.value.subs[u], now, if retentionDays <= 0 then 30 else retentionDays))
  {
    hide TrimSpace;
    assert DAY == 86_400_000_000_000;
  }

  /** After an upsert the slug names the plan and every other slug what it named before. */
  lemma UpsertExact(db: Db, plan: Plan, slug: string, i: nat)
    ensures var next := UpsertPlan(db, plan);
            if slug == plan.slug then FirstPlan(next.plans, slug, i) ==> next.plans[i] == plan
            else (FirstPlan(next.plans, slug, i) <==> FirstPlan(db.plans, slug, i)) && (FirstPlan(db.plans, slug, i) ==> next.plans[i] == db.plans[i])
    ensures exists k: nat :: FirstPlan(UpsertPlan(db, plan).plans, plan.slug, k)
  {
    hide FirstPlan, PlanIndex, UpsertPlan, PlanPut;
    var k := PlanIndex(db.plans, plan.slug);
    var next := UpsertPlan(db, plan).plans;
    UpsertPuts(db, plan);
    PutFirst(db.plans, next, plan, k);
    if slug == plan.slug {
      OneFirst(next, slug, i, k);
    } else {
      OtherFirst(db.plans, next, plan, k, slug, i);
    }
  }

  predicate PlanPut(plans: seq<Plan>, next: seq<Plan>, plan: Plan, k: nat) {
    && k <= |plans| && (forall j :: 0 <= j < k ==> plans[j].slug != plan.slug)
    && if k < |plans| then plans[k].slug == plan.slug && next == plans[k := plan] else next == plans + [plan]
  }

  lemma UpsertPuts(db: Db, plan: Plan)
    ensures PlanPut(db.plans, UpsertPlan(db, plan).plans, plan, PlanIndex(db.plans, plan.slug))
  {
  }

  lemma PutFirst(plans: seq<Plan>, next: seq<Plan>, plan: Plan, k: nat)
    requires PlanPut(plans, next, plan, k)
    ensures FirstPlan(next, plan.slug, k) && next[k] == plan
  {
  }

  lemma OneFirst(plans: seq<Plan>, slug: string, i: nat, k: nat)
    requires FirstPlan(plans, slug, k)
    ensures FirstPlan(plans, slug, i) ==> i == k
    ensures k < |plans|
  {
  }

  lemma OtherFirst(plans: seq<Plan>, next: seq<Plan>, plan: Plan, k: nat, slug: string, i: nat)
    requires PlanPut(plans, next, plan, k) && slug != plan.slug
    ensures FirstPlan(next, slug, i) <==> FirstPlan(plans, slug, i)
    ensures FirstPlan(plans, slug, i) ==> i < |plans| && i < |next| && next[i] == plans[i]
  {
    assert forall j :: 0 <= j < |plans| ==> next[j] == plans[j] || (j == k && plans[j].slug == plan.slug && next[j].slug == plan.slug);
  }

  /** The user's subscription and retention are over. */
  predicate Ended(db: Db, u: Id, now: Time) {
    u in db.subs && (db.subs[u].status == SubDeleted || (now > db.subs[u].endsAt && now > db.subs[u].retentionEndsAt))
  }

  /** A purge closes the account of every such user: the subscription is deleted for good, plan and counters are cleared;
      nobody else is touched. */
  lemma PurgeClears(db: Db, now: Time, order: seq<Id>, u: Id)
    ensures var next := Purge(db, now, order);
      && (u in next.subs <==> u in db.subs) && (u in next.users <==> u in db.users)
      && if Ended(db, u, now) then
           && SameGrant(db.subs[u], next.subs[u]) && (forall t :: next.subs[u].EffectiveStatus(t) == SubDeleted)
           && u in next.usage && next.usage[u] == Usage(0, 0, 0, 0, 0)
           && (u in db.users ==> next.users[u] == db.users[u].(planSlug := ""))
         else
           && (u in db.subs ==> next.subs[u] == db.subs[u]) && (u in db.users ==> next.users[u] == db.users[u])
           && UsageAt(next, u) == UsageAt(db, u)
  {
    hide DropImages, PurgeAudits;
    assert u in Doomed(db, now) <==> Ended(db, u, now);
  }

  lemma EnumeratesAll(order: seq<Id>, s: set<Id>, u: Id)
    requires Enumerates(order, s)
    ensures u in order <==> u in s
  {
    assert u in (set v | v in order) <==> u in order;
  }

  /** And one entry is logged for each. */
  lemma PurgeLogs(db: Db, now: Time, order: seq<Id>, u: Id)
    requires Enumerates(order, Doomed(db, now))
    ensures var log := Purge(db, now, order).auditLogs;
      && |log| == |db.auditLogs| + |Doomed(db, now)| && log[..|db.auditLogs|] == db.auditLogs
      && (AuditLog("system", LogPurgeExpired, u, false) in log[|db.auditLogs|..] <==> Ended(db, u, now))
  {
    hide DropImages, MarkDeleted, ClearUsage, ClearPlans;
    var log := Purge(db, now, order).auditLogs;
    assert log[|db.auditLogs|..] == PurgeAudits(order);
    EnumeratesAll(order, Doomed(db, now), u);
    assert u in Doomed(db, now) <==> Ended(db, u, now);
    if u in order {
      var k :| 0 <= k < |order| && order[k] == u;
      assert PurgeAudits(order)[k] == AuditLog("system", LogPurgeExpired, u, false);
    }
  }

  /** A campaign needs a name, days, a plan and, for the plan without limits, approval; a code is never taken over. */
  lemma CampaignExact(db: Db, c: InviteCampaign)
    ensures var r := CreateInvite(db, c);
      && (r.Ok? <==>
          && c.name != "" && c.planSlug != "" && c.grantDays > 0 && c.code !in db.invites
          && (exists i: nat :: FirstPlan(db.plans, c.planSlug, i))
          && (c.planSlug == "infinite-max" ==> c.requireAdminApproval))
      && (r.Ok? ==> r.value.invites == db.invites[c.code := c] && r.value.redemptions == db.redemptions)
  {
    hide FindPlan, FirstPlan;
    FoundSlug(db.plans, c.planSlug);
  }
}
