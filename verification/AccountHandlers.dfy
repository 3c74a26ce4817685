/** Account, API-key, plan, grant and invite handlers as they run: searches over maps and slices, writes into
    slices in place, a save that may fail, and the rollback. */
module AccountHandlers {
  import opened Text
  import opened Domain
  import opened Db
  import opened MemoryState
  import H = Handlers

  // ---------------------------------------------------------------- searches

  /** The range over users in register. */
  method EmailExists(users: map<Id, User>, email: string) returns (taken: bool)
    ensures taken <==> exists u :: u in users && users[u].email == email
  {
    var todo := users.Keys;
    while todo != {}
      invariant todo <= users.Keys
      invariant forall u <- users :: u in todo || users[u].email != email
    {
      var u :| u in todo;
      if users[u].email == email {
        return true;
      }
      todo := todo - {u};
    }
    return false;
  }

  /** The user adminGrantPlan means. */
  method FindUser(users: map<Id, User>, name: string) returns (found: Option<Id>)
    ensures if name in users then found == Some(name)
            else match found
              case Some(id) => id in users && Lower(users[id].email) == Lower(name)
              case None => forall u <- users :: Lower(users[u].email) != Lower(name)
  {
    if name in users {
      return Some(name);
    }
    var todo := users.Keys;
    while todo != {}
      invariant todo <= users.Keys
      invariant forall u <- users :: u in todo || Lower(users[u].email) != Lower(name)
    {
      var u :| u in todo;
      if Lower(users[u].email) == Lower(name) {
        return Some(u);
      }
      todo := todo - {u};
    }
    return None;
  }

  /** The loop of adminUpsertPlan. */
  method SearchPlan(plans: seq<Plan>, slug: string) returns (i: nat)
    ensures i == H.PlanIndex(plans, slug)
  {
    i := 0;
    while i < |plans| && plans[i].slug != slug
      invariant i <= |plans|
      invariant forall j :: 0 <= j < i ==> plans[j].slug != slug
    {
      i := i + 1;
    }
  }

  /** domain.FindPlan. */
  method LookupPlan(plans: seq<Plan>, slug: string) returns (plan: Option<Plan>)
    ensures plan == FindPlan(plans, slug)
  {
    for i := 0 to |plans|
      invariant FindPlan(plans, slug) == FindPlan(plans[i..], slug)
    {
      if plans[i].slug == slug {
        return Some(plans[i]);
      }
    }
    return None;
  }

  /** inviteUsageLocked: one pass over the redemption log. */
  method InviteUsageOf(log: seq<Redemption>, code: string, userID: Id, rawEmail: string, ip: string, device: string)
    returns (usage: InviteUsage)
    ensures usage == H.UsageOfCode(log, code, userID, rawEmail, ip, device)
  {
    var email := Normalize(rawEmail);
    usage := InviteUsage(0, 0, 0, 0, 0);
    for i := 0 to |log|
      invariant usage == H.UsageOfCode(log[..i], code, userID, rawEmail, ip, device)
    {
      var r := log[i];
      assert log[..i + 1][..i] == log[..i];
      if r.code == code {
        usage := usage.(total := usage.total + 1);
        if r.userID == userID { usage := usage.(user := usage.user + 1); }
        if Lower(r.email) == email { usage := usage.(email := usage.email + 1); }
        if r.ip == ip { usage := usage.(ip := usage.ip + 1); }
        if r.deviceID == device { usage := usage.(device := usage.device + 1); }
      }
    }
    assert log[..|log|] == log;
  }

  lemma {:induction false} RevokeFirstAt(keys: seq<APIKey>, keyID: Id, i: nat)
    requires i < |keys| && keys[i].id == keyID && forall j :: 0 <= j < i ==> keys[j].id != keyID
    ensures H.RevokeFirst(keys, keyID) == keys[i := H.Revoked(keys[i])]
  {
    if i > 0 {
      RevokeFirstAt(keys[1..], keyID, i - 1);
    }
  }

  method SearchKey(keys: seq<APIKey>, keyID: Id) returns (i: nat)
    ensures i <= |keys| && forall j :: 0 <= j < i ==> keys[j].id != keyID
    ensures i < |keys| ==> keys[i].id == keyID && H.RevokeFirst(keys, keyID) == keys[i := H.Revoked(keys[i])]
  {
    i := 0;
    while i < |keys| && keys[i].id != keyID
      invariant i <= |keys|
      invariant forall j :: 0 <= j < i ==> keys[j].id != keyID
    {
      i := i + 1;
    }
    if i < |keys| {
      RevokeFirstAt(keys, keyID, i);
    }
  }

  /** The loops of userAuth over all key lists. */
  method FindKey(lists: map<Id, seq<APIKey>>, secretHash: string) returns (found: Option<H.KeyAt>)
    ensures match found
            case Some(k) => k.userID in lists && k.index < |lists[k.userID]|
                            && !lists[k.userID][k.index].revoked && lists[k.userID][k.index].secretHash == secretHash
            case None => forall u <- lists :: forall i :: 0 <= i < |lists[u]| ==>
                           lists[u][i].revoked || lists[u][i].secretHash != secretHash
  {
    var todo := lists.Keys;
    while todo != {}
      invariant todo <= lists.Keys
      invariant forall u <- lists :: u !in todo ==> forall i :: 0 <= i < |lists[u]| ==>
        lists[u][i].revoked || lists[u][i].secretHash != secretHash
    {
      var u :| u in todo;
      var keys := lists[u];
      for i := 0 to |keys|
        invariant forall j :: 0 <= j < i ==> keys[j].revoked || keys[j].secretHash != secretHash
      {
        if !keys[i].revoked && keys[i].secretHash == secretHash {
          return Some(H.KeyAt(u, i));
        }
      }
      todo := todo - {u};
    }
    return None;
  }

  // ---------------------------------------------------------------- accounts and keys

  /** The writes of register. */
  method OpenAccount(state: State, user: User, subID: Id, now: Time)
    requires state.Valid()
    modifies state, state.Arrays()
    ensures state.Valid() && (forall a <- state.Arrays() :: a in old(state.Arrays()) || fresh(a))
    ensures state.View() == H.NewAccount(old(state.View()), user, subID, now)
  {
    hide State.Valid, State.View, State.Arrays;
    state.PutUser(user);
    state.PutSub(NewSubscription(subID, user.id, "go", now, 30 * DAY));
    state.PutUsage(user.id, NO_USAGE);
  }

  /** Snapshot, writes, save. */
  method SaveAccount(state: State, user: User, subID: Id, now: Time, saveOK: bool) returns (saved: bool)
    requires state.Valid() && Keyed(state.View())
    modifies state, state.Arrays()
    ensures state.Valid() && (forall a <- state.Arrays() :: a in old(state.Arrays()) || fresh(a))
    ensures saved == saveOK && state.View() == if saved then H.NewAccount(old(state.View()), user, subID, now) else old(state.View())
  {
    hide State.Valid, State.View, Keyed, Snapshot.Records, H.NewAccount;
    ghost var before := state.View();
    var snap := state.Take();
    OpenAccount(state, user, subID, now);
    saved := state.PersistOrRollback(snap, before, saveOK);
  }

  /** register. */
  method Register(state: State, userID: Id, rawEmail: string, nickname: string, subID: Id, now: Time, saveOK: bool) returns (saved: bool)
    requires state.Valid() && Keyed(state.View())
    modifies state, state.Arrays()
    ensures state.Valid() && (forall a <- state.Arrays() :: a in old(state.Arrays()) || fresh(a))
    ensures var r := H.Register(old(state.View()), userID, rawEmail, nickname, subID, now);
            saved == (saveOK && r.Ok?) && state.View() == if saved then r.value else old(state.View())
  {
    hide State.Valid, State.View, Keyed, H.NewAccount;
    state.Fields();
    var email := Normalize(rawEmail);
    var taken := EmailExists(state.users, email);
    if taken {
      return false;
    }
    var name := if TrimSpace(nickname) == "" then "user" else nickname;
    saved := SaveAccount(state, User(userID, email, name, false, false, "go", false, now), subID, now, saveOK);
  }

  /** createAPIKey. */
  method CreateKey(state: State, key: APIKey, saveOK: bool) returns (saved: bool)
    requires state.Valid() && Keyed(state.View())
    modifies state, state.Arrays()
    ensures state.Valid() && (forall a <- state.Arrays() :: a in old(state.Arrays()) || fresh(a))
    ensures var r := H.CreateKey(old(state.View()), key);
            saved == (saveOK && r.Ok?) && state.View() == if saved then r.value else old(state.View())
  {
    hide State.Valid, State.View, Keyed, Snapshot.Records;
    ghost var before := state.View();
    state.Fields();
    if key.userID !in state.users || !state.users[key.userID].emailVerified {
      return false;
    }
    var snap := state.Take();
    state.AppendKey(key.userID, key);
    saved := state.PersistOrRollback(snap, before, saveOK);
  }

  /** Overwrite one key in the array of its list. */
  method RevokeAt(state: State, userID: Id, keyID: Id, i: nat)
    requires state.Valid() && i < |KeysOf(state.View(), userID)|
    requires userID in state.apiKeys && i < state.apiKeys[userID].len
    requires H.RevokeFirst(KeysOf(state.View(), userID), keyID)
             == KeysOf(state.View(), userID)[i := H.Revoked(KeysOf(state.View(), userID)[i])]
    modifies state, state.Arrays()
    ensures state.Valid() && (forall a <- state.Arrays() :: a in old(state.Arrays()) || fresh(a))
    ensures state.View() == old(state.View()).(
              apiKeys := old(state.View()).apiKeys[userID := H.RevokeFirst(KeysOf(old(state.View()), userID), keyID)])
  {
    hide State.Valid, State.View, State.Arrays, H.RevokeFirst;
    var key := state.KeyList(userID)[i];
    state.SetKey(userID, i, key.(revoked := true, secret := ""));
  }

  /** revokeAPIKey. */
  method RevokeKey(state: State, userID: Id, keyID: Id, saveOK: bool) returns (saved: bool)
    requires state.Valid() && Keyed(state.View())
    modifies state, state.Arrays()
    ensures state.Valid() && (forall a <- state.Arrays() :: a in old(state.Arrays()) || fresh(a))
    ensures var r := H.RevokeKey(old(state.View()), userID, keyID);
            saved == (saveOK && r.Ok?) && state.View() == if saved then r.value else old(state.View())
  {
    hide State.Valid, State.View, Keyed, Snapshot.Records, H.RevokeFirst;
    ghost var before := state.View();
    var keys := state.KeyList(userID);
    var i := SearchKey(keys, keyID);
    if i == |keys| {
      return false;
    }
    var snap := state.Take();
    RevokeAt(state, userID, keyID, i);
    saved := state.PersistOrRollback(snap, before, saveOK);
  }

  /** The list with every key before `i` revoked. */
  function RevokedBefore(keys: seq<APIKey>, i: nat): seq<APIKey>
    requires i <= |keys|
  {
    H.RevokeAll(keys[..i]) + keys[i..]
  }

  lemma RevokedNext(keys: seq<APIKey>, i: nat)
    requires i < |keys|
    ensures RevokedBefore(keys, i)[i] == keys[i]
    ensures RevokedBefore(keys, i + 1) == if keys[i].revoked then RevokedBefore(keys, i) else RevokedBefore(keys, i)[i := H.Revoked(keys[i])]
  {
  }

  lemma RevokedEnds(keys: seq<APIKey>)
    ensures RevokedBefore(keys, 0) == keys && RevokedBefore(keys, |keys|) == H.RevokeAll(keys)
  {
    assert keys[..|keys|] == keys;
  }

  /** The loop of adminSetUserStatus: every key of the list is overwritten where it stands. */
  method RevokeEach(state: State, userID: Id)
    requires state.Valid() && KeysOf(state.View(), userID) != []
    requires userID in state.View().apiKeys
    modifies state, state.Arrays()
    ensures state.Valid() && (forall a <- state.Arrays() :: a in old(state.Arrays()) || fresh(a))
    ensures state.View() == old(state.View()).(
              apiKeys := old(state.View()).apiKeys[userID := H.RevokeAll(KeysOf(old(state.View()), userID))])
  {
    hide State.Valid, State.View, State.Arrays, H.RevokeAll, RevokedBefore;
    ghost var before := state.View();
    var keys := state.KeyList(userID);
    RevokedEnds(keys);
    assert before.apiKeys[userID := keys] == before.apiKeys;
    for i := 0 to |keys|
      invariant state.Valid() && state.Arrays() == old(state.Arrays())
      invariant userID in state.apiKeys && state.apiKeys[userID].len == |keys|
      invariant state.View() == before.(apiKeys := before.apiKeys[userID := RevokedBefore(keys, i)])
    {
      var key := keys[i];
      RevokedNext(keys, i);
      if !key.revoked {
        state.SetKey(userID, i, key.(revoked := true, secret := ""));
      }
    }
  }

  /** The writes of adminSetUserStatus. */
  method MarkUser(state: State, userID: Id, banned: bool)
    requires state.Valid() && userID in state.View().users && state.View().users[userID].id == userID
    modifies state, state.Arrays()
    ensures state.Valid() && (forall a <- state.Arrays() :: a in old(state.Arrays()) || fresh(a))
    ensures H.SetUserStatus(old(state.View()), userID, banned) == Ok(state.View())
  {
    hide State.Valid, State.View, State.Arrays, H.RevokeAll;
    state.Fields();
    var keys := state.KeyList(userID);
    state.PutUser(state.users[userID].(banned := banned));
    if banned && keys != [] {
      RevokeEach(state, userID);
    }
    state.AppendAudit("admin", if banned then LogUserBanned else LogUserActive, userID, false);
  }

  method SaveUserStatus(state: State, userID: Id, banned: bool, saveOK: bool) returns (saved: bool)
    requires state.Valid() && Keyed(state.View()) && userID in state.View().users && state.View().users[userID].id == userID
    modifies state, state.Arrays()
    ensures state.Valid() && (forall a <- state.Arrays() :: a in old(state.Arrays()) || fresh(a))
    ensures saved == saveOK && state.View() == if saved then H.SetUserStatus(old(state.View()), userID, banned).value else old(state.View())
  {
    hide State.Valid, State.View, Keyed, Snapshot.Records, H.RevokeAll;
    ghost var before := state.View();
    var snap := state.Take();
    MarkUser(state, userID, banned);
    saved := state.PersistOrRollback(snap, before, saveOK);
  }

  /** adminSetUserStatus. */
  method SetUserStatus(state: State, userID: Id, banned: bool, saveOK: bool) returns (saved: bool)
    requires state.Valid() && Keyed(state.View())
    modifies state, state.Arrays()
    ensures state.Valid() && (forall a <- state.Arrays() :: a in old(state.Arrays()) || fresh(a))
    ensures var r := H.SetUserStatus(old(state.View()), userID, banned);
            saved == (saveOK && r.Ok?) && state.View() == if saved then r.value else old(state.View())
  {
    hide State.Valid, State.View, Keyed, H.RevokeAll;
    state.Fields();
    UsersFiled(state);
    if userID !in state.users {
      return false;
    }
    saved := SaveUserStatus(state, userID, banned, saveOK);
  }

  lemma UsersFiled(state: State)
    requires state.Valid() && Keyed(state.View())
    ensures forall u <- state.View().users :: state.View().users[u].id == u
  {
  }

  // ---------------------------------------------------------------- plans, grants and invites

  /** The writes of adminUpsertPlan: in place when the slug is known. */
  method StorePlan(state: State, plan: Plan)
    requires state.Valid()
    modifies state, state.Arrays()
    ensures state.Valid() && (forall a <- state.Arrays() :: a in old(state.Arrays()) || fresh(a))
    ensures state.View() == H.UpsertPlan(old(state.View()), plan)
  {
    hide State.Valid, State.View;
    var plans := state.PlanList();
    var i := SearchPlan(plans, plan.slug);
    if i < |plans| {
      state.SetPlan(i, plan);
      state.AppendAudit("admin", LogPlanUpdate, plan.slug, false);
    } else {
      state.AppendPlan(plan);
      state.AppendAudit("admin", LogPlanCreate, plan.slug, false);
    }
  }

  /** adminUpsertPlan. */
  method UpsertPlan(state: State, plan: Plan, saveOK: bool) returns (saved: bool)
    requires state.Valid() && Keyed(state.View())
    modifies state, state.Arrays()
    ensures state.Valid() && (forall a <- state.Arrays() :: a in old(state.Arrays()) || fresh(a))
    ensures saved == saveOK && state.View() == if saved then H.UpsertPlan(old(state.View()), plan) else old(state.View())
  {
    hide State.Valid, State.View, Keyed, Snapshot.Records, H.UpsertPlan;
    ghost var before := state.View();
    var snap := state.Take();
    StorePlan(state, plan);
    saved := state.PersistOrRollback(snap, before, saveOK);
  }

  /** The writes of a grant or a redemption. */
  method Grant(state: State, user: User, slug: string, days: int, subID: Id, now: Time, actor: string, action: AuditAction, target: Id)
    requires state.Valid()
    modifies state, state.Arrays()
    ensures state.Valid() && (forall a <- state.Arrays() :: a in old(state.Arrays()) || fresh(a))
    ensures state.View() == Audited(old(state.View()).(
              users := old(state.View()).users[user.id := user.(planSlug := slug)],
              subs := old(state.View()).subs[user.id := NewSubscription(subID, user.id, slug, now, DaysDuration(days))]), actor, action, target)
  {
    hide State.Valid, State.View, State.Arrays, DaysDuration;
    state.PutUser(user.(planSlug := slug));
    state.PutSub(NewSubscription(subID, user.id, slug, now, DaysDuration(days)));
    state.AppendAudit(actor, action, target, false);
  }

  method SaveGrant(state: State, user: User, slug: string, days: int, subID: Id, now: Time, saveOK: bool) returns (saved: bool)
    requires state.Valid() && Keyed(state.View())
    modifies state, state.Arrays()
    ensures state.Valid() && (forall a <- state.Arrays() :: a in old(state.Arrays()) || fresh(a))
    ensures saved == saveOK && state.View() == if saved then Audited(old(state.View()).(
              users := old(state.View()).users[user.id := user.(planSlug := slug)],
              subs := old(state.View()).subs[user.id := NewSubscription(subID, user.id, slug, now, DaysDuration(days))]), "admin", LogPlanGrant, user.id) else old(state.View())
  {
    hide State.Valid, State.View, Keyed, Snapshot.Records, NewSubscription, DaysDuration, Audited;
    ghost var before := state.View();
    var snap := state.Take();
    Grant(state, user, slug, days, subID, now, "admin", LogPlanGrant, user.id);
    saved := state.PersistOrRollback(snap, before, saveOK);
  }

  /** adminGrantPlan. */
  method GrantPlan(state: State, name: string, slug: string, days: int, reason: string, subID: Id, now: Time, saveOK: bool) returns (saved: bool, found: Option<Id>)
    requires state.Valid() && Keyed(state.View())
    modifies state, state.Arrays()
    ensures state.Valid() && (forall a <- state.Arrays() :: a in old(state.Arrays()) || fresh(a))
    ensures H.FoundUser(old(state.View()), name, found)
    ensures var r := H.GrantPlan(old(state.View()), found, slug, days, reason, subID, now);
            saved == (saveOK && r.Ok?) && state.View() == if saved then r.value else old(state.View())
  {
    hide State.Valid, State.View, Keyed, NewSubscription, DaysDuration, FindPlan, TrimSpace, Lower;
    state.Fields();
    found := FindUser(state.users, name);
    var plan := LookupPlan(state.PlanList(), slug);
    if days <= 0 || found.None? || plan.None? {
      return false, found;
    }
    if plan.value.slug == "infinite-max" && TrimSpace(reason) == "" {
      return false, found;
    }
    saved := SaveGrant(state, state.users[found.value], plan.value.slug, days, subID, now, saveOK);
  }

  /** The writes of redeemInvite. */
  method Redeem(state: State, user: User, c: InviteCampaign, entry: Redemption, subID: Id, now: Time)
    requires state.Valid()
    modifies state, state.Arrays()
    ensures state.Valid() && (forall a <- state.Arrays() :: a in old(state.Arrays()) || fresh(a))
    ensures state.View() == Audited(old(state.View()).(
              redemptions := old(state.View()).redemptions + [entry],
              users := old(state.View()).users[user.id := user.(planSlug := c.planSlug)],
              subs := old(state.View()).subs[user.id := NewSubscription(subID, user.id, c.planSlug, now, DaysDuration(c.grantDays))]),
            "system", LogInviteRedeem, entry.code)
  {
    hide State.Valid, State.View, State.Arrays, DaysDuration;
    state.AppendRedemption(entry);
    Grant(state, user, c.planSlug, c.grantDays, subID, now, "system", LogInviteRedeem, entry.code);
  }

  method SaveRedemption(state: State, user: User, c: InviteCampaign, entry: Redemption, subID: Id, now: Time, saveOK: bool) returns (saved: bool)
    requires state.Valid() && Keyed(state.View())
    modifies state, state.Arrays()
    ensures state.Valid() && (forall a <- state.Arrays() :: a in old(state.Arrays()) || fresh(a))
    ensures saved == saveOK && state.View() == if saved then Audited(old(state.View()).(
              redemptions := old(state.View()).redemptions + [entry],
              users := old(state.View()).users[user.id := user.(planSlug := c.planSlug)],
              subs := old(state.View()).subs[user.id := NewSubscription(subID, user.id, c.planSlug, now, DaysDuration(c.grantDays))]),
            "system", LogInviteRedeem, entry.code) else old(state.View())
  {
    hide State.Valid, State.View, Keyed, Snapshot.Records, NewSubscription, DaysDuration, Audited;
    ghost var before := state.View();
    var snap := state.Take();
    Redeem(state, user, c, entry, subID, now);
    saved := state.PersistOrRollback(snap, before, saveOK);
  }

  /** redeemInvite. */
  method RedeemInvite(state: State, code: string, userID: Id, ip: string, device: string, isNewUser: bool,
                      redemptionID: Id, subID: Id, now: Time, saveOK: bool) returns (saved: bool)
    requires state.Valid() && Keyed(state.View())
    modifies state, state.Arrays()
    ensures state.Valid() && (forall a <- state.Arrays() :: a in old(state.Arrays()) || fresh(a))
    ensures var r := H.RedeemInvite(old(state.View()), code, userID, ip, device, isNewUser, redemptionID, subID, now);
            saved == (saveOK && r.Ok?) && state.View() == if saved then r.value else old(state.View())
  {
    hide State.Valid, State.View, Keyed, NewSubscription, DaysDuration, ValidateRedeem, H.UsageOfCode, Lower;
    state.Fields();
    if userID !in state.users || code !in state.invites {
      return false;
    }
    var user := state.users[userID];
    var c := state.invites[code];
    var usage := InviteUsageOf(state.RedemptionList(), code, user.id, user.email, ip, device);
    if ValidateRedeem(c, now, isNewUser, user.emailVerified, user.oauthBound, usage).Some? {
      return false;
    }
    var entry := Redemption(redemptionID, code, user.id, Lower(user.email), ip, device, c.planSlug, now);
    saved := SaveRedemption(state, user, c, entry, subID, now, saveOK);
  }

  // ---------------------------------------------------------------- metered calls

  /** The writes of userAuth: the key in place, then the counter. */
  method Charge(state: State, k: H.KeyAt, now: Time, usage: Usage)
    requires state.Valid() && k.userID in state.View().apiKeys && k.index < |state.View().apiKeys[k.userID]|
    modifies state, state.Arrays()
    ensures state.Valid() && (forall a <- state.Arrays() :: a in old(state.Arrays()) || fresh(a))
    ensures var db := old(state.View());
            state.View() == db.(apiKeys := db.apiKeys[k.userID := db.apiKeys[k.userID][k.index := db.apiKeys[k.userID][k.index].(lastUsedAt := Some(now))]],
                                usage := db.usage[k.userID := usage])
  {
    hide State.Valid, State.View, State.Arrays;
    var key := state.KeyList(k.userID)[k.index];
    state.SetKey(k.userID, k.index, key.(lastUsedAt := Some(now)));
    state.PutUsage(k.userID, usage);
  }

  method SaveCharge(state: State, k: H.KeyAt, now: Time, usage: Usage, saveOK: bool) returns (saved: bool)
    requires state.Valid() && Keyed(state.View()) && k.userID in state.View().apiKeys && k.index < |state.View().apiKeys[k.userID]|
    modifies state, state.Arrays()
    ensures state.Valid() && (forall a <- state.Arrays() :: a in old(state.Arrays()) || fresh(a))
    ensures saved == saveOK && state.View() == if saved then var db := old(state.View());
              db.(apiKeys := db.apiKeys[k.userID := db.apiKeys[k.userID][k.index := db.apiKeys[k.userID][k.index].(lastUsedAt := Some(now))]],
                  usage := db.usage[k.userID := usage]) else old(state.View())
  {
    hide State.Valid, State.View, Keyed, Snapshot.Records;
    ghost var before := state.View();
    var snap := state.Take();
    Charge(state, k, now, usage);
    saved := state.PersistOrRollback(snap, before, saveOK);
  }

  /** The plan that counts: entitlementSnapshotLocked. */
  method EntitlementOf(state: State, userID: Id) returns (plan: Option<Plan>)
    requires state.Valid()
    ensures plan == H.Entitlement(state.View(), userID)
  {
    hide FindPlan;
    if userID !in state.users || userID !in state.subs {
      return None;
    }
    var slug := state.subs[userID].planSlug;
    if slug == "" {
      slug := state.users[userID].planSlug;
    }
    ghost var plans := state.View().plans;
    plan := LookupPlan(state.PlanList(), slug);
  }

  /** The two loops of hasRequiredScopes. */
  method HasRequiredScopes(actual: seq<string>, required: seq<string>) returns (has: bool)
    ensures has == H.HasScopes(actual, required)
  {
    if required == [] {
      return true;
    }
    var have: set<string> := {};
    for i := 0 to |actual|
      invariant have == H.ScopeSet(actual[..i])
    {
      H.ScopeAdded(actual, i);
      have := have + {TrimSpace(actual[i])};
    }
    assert actual[..|actual|] == actual;
    if "*" in have {
      return true;
    }
    for i := 0 to |required|
      invariant forall j :: 0 <= j < i ==> required[j] in have
    {
      if required[i] !in have {
        return false;
      }
    }
    return true;
  }

  /** userAuth once the key is found. */
  method ChargeKey(state: State, k: H.KeyAt, required: seq<string>, now: Time, saveOK: bool) returns (saved: bool)
    requires state.Valid() && Keyed(state.View())
    requires k.userID in state.View().apiKeys && k.index < |state.View().apiKeys[k.userID]|
    modifies state, state.Arrays()
    ensures state.Valid() && (forall a <- state.Arrays() :: a in old(state.Arrays()) || fresh(a))
    ensures var r := H.UseKey(old(state.View()), Some(k), required, now);
            saved == (saveOK && r.Ok?) && state.View() == if saved then r.value else old(state.View())
  {
    hide State.Valid, State.View, Keyed, H.Entitlement, CheckUsage;
    state.Fields();
    var u := k.userID;
    if u !in state.users || state.users[u].banned {
      return false;
    }
    var has := HasRequiredScopes(state.KeyList(u)[k.index].scopes, required);
    if !has {
      return false;
    }
    var plan := EntitlementOf(state, u);
    if plan.None? {
      return false;
    }
    var usage := if u in state.usage then state.usage[u] else NO_USAGE;
    usage := usage.(apiCalls := usage.apiCalls + 1);
    if CheckUsage(plan.value.quota, usage).Some? {
      return false;
    }
    saved := SaveCharge(state, k, now, usage, saveOK);
  }

  /** The API-key branch of userAuth. */
  method UseKey(state: State, secretHash: string, required: seq<string>, now: Time, saveOK: bool) returns (saved: bool, found: Option<H.KeyAt>)
    requires state.Valid() && Keyed(state.View())
    modifies state, state.Arrays()
    ensures state.Valid() && (forall a <- state.Arrays() :: a in old(state.Arrays()) || fresh(a))
    ensures H.FoundKey(old(state.View()), secretHash, found)
    ensures var r := H.UseKey(old(state.View()), found, required, now);
            saved == (saveOK && r.Ok?) && state.View() == if saved then r.value else old(state.View())
  {
    hide State.Valid, State.View, Keyed, H.Entitlement, CheckUsage;
    found := FindKey(state.AllKeys(), secretHash);
    if found.None? {
      return false, found;
    }
    saved := ChargeKey(state, found.value, required, now, saveOK);
  }

  method SaveUsage(state: State, userID: Id, usage: Usage, saveOK: bool) returns (saved: bool)
    requires state.Valid() && Keyed(state.View())
    modifies state, state.Arrays()
    ensures state.Valid() && (forall a <- state.Arrays() :: a in old(state.Arrays()) || fresh(a))
    ensures saved == saveOK && state.View() == if saved then old(state.View()).(usage := old(state.View()).usage[userID := usage]) else old(state.View())
  {
    hide State.Valid, State.View, Keyed, Snapshot.Records;
    ghost var before := state.View();
    var snap := state.Take();
    state.PutUsage(userID, usage);
    saved := state.PersistOrRollback(snap, before, saveOK);
  }

  /** recordImageDelivery. */
  method Deliver(state: State, userID: Id, bytesSent: nat, saveOK: bool) returns (saved: bool)
    requires state.Valid() && Keyed(state.View())
    modifies state, state.Arrays()
    ensures state.Valid() && (forall a <- state.Arrays() :: a in old(state.Arrays()) || fresh(a))
    ensures var r := H.Deliver(old(state.View()), userID, bytesSent);
            saved == (saveOK && r.Ok?) && state.View() == if saved then r.value else old(state.View())
  {
    hide State.Valid, State.View, Keyed, H.Entitlement, CheckUsage;
    state.Fields();
    var plan := EntitlementOf(state, userID);
    if plan.None? {
      return false;
    }
    var usage := if userID in state.usage then state.usage[userID] else NO_USAGE;
    usage := usage.(imageRequests := usage.imageRequests + 1, bandwidthBytes := usage.bandwidthBytes + bytesSent);
    if CheckUsage(plan.value.quota, usage).Some? {
      return false;
    }
    saved := SaveUsage(state, userID, usage, saveOK);
  }
}
