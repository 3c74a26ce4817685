/** internal/api/state_postgres.go: the mutable in-memory state, its snapshot and its restoration. */
module MemoryState {
  import opened Domain
  import opened Db
  import opened Slices
  import opened KeyTables

  // ---------------------------------------------------------------- flattening and rebuilding

  /** What refiling a list of records under their own keys yields; of two records with one key the later stays. */
  function Refile<V>(vs: seq<V>, key: V -> string): map<string, V> {
    if vs == [] then map[]
    else Refile(vs[..|vs| - 1], key)[key(vs[|vs| - 1]) := vs[|vs| - 1]]
  }

  /** The records of a map in the order ranging over it happens to yield. Filed under their own keys,
      they refile to the same map. */
  method Values<V>(m: map<string, V>, ghost key: V -> string) returns (vs: seq<V>)
    requires KeyedBy(m, key)
    ensures Refile(vs, key) == m
  {
    vs := [];
    var todo := m.Keys;
    while todo != {}
      invariant todo <= m.Keys
      invariant Refile(vs, key) == m - todo
    {
      var k :| k in todo;
      ghost var before := vs;
      vs := vs + [m[k]];
      assert vs[..|vs| - 1] == before;
      todo := todo - {k};
      assert (m - (todo + {k}))[k := m[k]] == m - todo;
    }
  }

  method Rebuild<V>(vs: seq<V>, key: V -> string) returns (m: map<string, V>)
    ensures m == Refile(vs, key)
  {
    m := map[];
    for i := 0 to |vs|
      invariant m == Refile(vs[..i], key)
    {
      m := m[key(vs[i]) := vs[i]];
      assert vs[..i + 1][..i] == vs[..i];
    }
    assert vs[..|vs|] == vs;
  }

  /** The event ids mapped to true. */
  function Marked(webhooks: map<Id, bool>): set<Id> {
    set e | e in webhooks && webhooks[e]
  }

  function IdSet(ids: seq<Id>): set<Id> {
    set e | e in ids
  }

  method Processed(webhooks: map<Id, bool>) returns (ids: seq<Id>)
    ensures IdSet(ids) == Marked(webhooks)
  {
    ids := [];
    var todo := webhooks.Keys;
    while todo != {}
      invariant todo <= webhooks.Keys
      invariant forall e :: e in ids <==> e in webhooks && webhooks[e] && e !in todo
    {
      var e :| e in todo;
      if webhooks[e] {
        ids := ids + [e];
      }
      todo := todo - {e};
    }
  }

  method MarkAll(ids: seq<Id>) returns (webhooks: map<Id, bool>)
    ensures Marked(webhooks) == IdSet(ids)
  {
    webhooks := map[];
    for i := 0 to |ids|
      invariant forall e :: e in webhooks <==> e in ids[..i]
      invariant forall e <- webhooks :: webhooks[e]
    {
      webhooks := webhooks[ids[i] := true];
      assert ids[..i + 1] == ids[..i] + [ids[i]];
    }
    assert ids[..|ids|] == ids;
  }

  // ---------------------------------------------------------------- snapshots

  /** The part of a stateSnapshot that flattens a map: the records without the keys they were filed under. */
  datatype Listing = Listing(
    users: seq<User>, admins: seq<Admin>, adminSessions: seq<AdminSession>, adminBootstrap: seq<PendingBootstrap>,
    images: seq<Image>, albums: seq<Album>, orders: seq<Order>, subs: seq<Subscription>,
    usage: map<Id, Usage>, invites: seq<InviteCampaign>, webhooks: seq<Id>)
  {
    /** Refiling the lists gives back the maps of `db`. */
    ghost predicate Of(db: Db) {
      && Refile(users, UserKey) == db.users && Refile(admins, AdminKey) == db.admins
      && Refile(adminSessions, SessionKey) == db.adminSessions
      && Refile(adminBootstrap, BootstrapKey) == db.adminBootstrap
      && Refile(images, ImageKey) == db.images && Refile(albums, AlbumKey) == db.albums
      && Refile(orders, OrderKey) == db.orders && Refile(subs, SubKey) == db.subs && usage == db.usage
      && Refile(invites, InviteKey) == db.invites && IdSet(webhooks) == db.webhooks
    }
  }

  /** The part that copies a slice: each copy sits in an array of its own. */
  datatype Copies = Copies(
    plans: Slice<Plan>, apiKeys: Slice<APIKey>, redemptions: Slice<Redemption>, riskEvents: Slice<RiskEvent>,
    auditLogs: Slice<AuditLog>)
  {
    ghost function Arrays(): set<object> {
      {plans.arr as object, apiKeys.arr as object, redemptions.arr as object, riskEvents.arr as object,
       auditLogs.arr as object}
    }

    predicate Valid() {
      plans.Valid() && apiKeys.Valid() && redemptions.Valid() && riskEvents.Valid() && auditLogs.Valid()
    }

    ghost predicate Of(db: Db)
      reads Arrays()
    {
      && Valid()
      && plans.Contents() == db.plans
      && Group(apiKeys.Contents()) == db.apiKeys
      && redemptions.Contents() == db.redemptions
      && riskEvents.Contents() == db.riskEvents
      && auditLogs.Contents() == db.auditLogs
    }
  }

  datatype Snapshot = Snapshot(
    listing: Listing, copies: Copies, hotlink: Hotlink, integrations: string)
  {
    /** The snapshot records exactly the state `db`. */
    ghost predicate Records(db: Db)
      reads copies.Arrays()
    {
      && listing.Of(db) && copies.Of(db)
      && hotlink == db.hotlink && integrations == db.integrations
    }
  }

  method CloneLogs(r: Slice<Redemption>, e: Slice<RiskEvent>, l: Slice<AuditLog>)
    returns (r': Slice<Redemption>, e': Slice<RiskEvent>, l': Slice<AuditLog>)
    requires r.Valid() && e.Valid() && l.Valid()
    ensures r'.Valid() && fresh(r'.arr) && r'.Contents() == r.Contents()
    ensures e'.Valid() && fresh(e'.arr) && e'.Contents() == e.Contents()
    ensures l'.Valid() && fresh(l'.arr) && l'.Contents() == l.Contents()
  {
    r' := Clone(r);
    e' := Clone(e);
    l' := Clone(l);
  }

  class State {
    var plans: Slice<Plan>
    var users: map<Id, User>
    var admins: map<Id, Admin>
    var adminSessions: map<string, AdminSession>
    var adminBootstrap: map<Id, PendingBootstrap>
    var images: map<Id, Image>
    var albums: map<Id, Album>
    var apiKeys: map<Id, Slice<APIKey>>
    var orders: map<Id, Order>
    var subs: map<Id, Subscription>
    var usage: map<Id, Usage>
    var invites: map<string, InviteCampaign>
    var redemptions: Slice<Redemption>
    var webhooks: map<Id, bool>
    var riskEvents: Slice<RiskEvent>
    var auditLogs: Slice<AuditLog>
    var hotlink: Hotlink
    var integrations: string

    /** The backing arrays the state may write. */
    ghost function Arrays(): set<object>
      reads this
    {
      {plans.arr as object, redemptions.arr as object, riskEvents.arr as object, auditLogs.arr as object}
      + TableArrays(apiKeys)
    }

    /** No two API-key lists share a backing array. */
    ghost predicate Valid()
      reads this
    {
      && plans.Valid() && redemptions.Valid() && riskEvents.Valid() && auditLogs.Valid()
      && ValidTable(apiKeys)
    }

    ghost function View(): Db
      requires Valid()
      reads this, Arrays()
    {
      Db(plans.Contents(), users, admins, adminSessions, adminBootstrap, images, albums, TableLists(apiKeys),
         orders, subs, usage, invites, redemptions.Contents(),
         Marked(webhooks),
         riskEvents.Contents(), auditLogs.Contents(),
         hotlink, integrations)
    }

    /** The maps are seen as they are. */
    lemma Fields()
      requires Valid()
      ensures View().users == users && View().images == images && View().orders == orders && View().subs == subs
      ensures View().usage == usage && View().invites == invites && View().webhooks == Marked(webhooks)
    {
    }

    // The elements a range over a slice meets.
    function PlanList(): (r: seq<Plan>)
      requires Valid()
      reads this, Arrays()
      ensures r == View().plans && |r| == plans.len
    {
      plans.arr[..plans.len]
    }

    function RedemptionList(): (r: seq<Redemption>)
      requires Valid()
      reads this, Arrays()
      ensures r == View().redemptions
    {
      redemptions.arr[..redemptions.len]
    }

    function KeyList(u: Id): (r: seq<APIKey>)
      requires Valid()
      reads this, Arrays()
      ensures r == KeysOf(View(), u)
      ensures r != [] ==> u in apiKeys && apiKeys[u].len == |r|
    {
      if u in apiKeys then apiKeys[u].arr[..apiKeys[u].len] else []
    }

    function AllKeys(): (r: map<Id, seq<APIKey>>)
      requires Valid()
      reads this, Arrays()
      ensures r == View().apiKeys
    {
      map u | u in apiKeys && apiKeys[u].len > 0 :: apiKeys[u].arr[..apiKeys[u].len]
    }

    // -------------------------------------------------------------- writes to slices

    method AppendAudit(actor: string, action: AuditAction, target: Id, activated: bool)
      requires Valid()
      modifies this, Arrays()
      ensures Valid() && (forall a <- Arrays() :: a in old(Arrays()) || fresh(a))
      ensures View() == old(View()).(auditLogs := old(View()).auditLogs + [AuditLog(actor, action, target, activated)])
    {
      auditLogs := Append(auditLogs, AuditLog(actor, action, target, activated));
    }

    method AppendRisk(r: RiskEvent)
      requires Valid()
      modifies this, Arrays()
      ensures Valid() && (forall a <- Arrays() :: a in old(Arrays()) || fresh(a))
      ensures View() == old(View()).(riskEvents := old(View()).riskEvents + [r])
    {
      riskEvents := Append(riskEvents, r);
    }

    method AppendRedemption(r: Redemption)
      requires Valid()
      modifies this, Arrays()
      ensures Valid() && (forall a <- Arrays() :: a in old(Arrays()) || fresh(a))
      ensures View() == old(View()).(redemptions := old(View()).redemptions + [r])
    {
      redemptions := Append(redemptions, r);
    }

    method AppendPlan(p: Plan)
      requires Valid()
      modifies this, Arrays()
      ensures Valid() && (forall a <- Arrays() :: a in old(Arrays()) || fresh(a))
      ensures View() == old(View()).(plans := old(View()).plans + [p])
    {
      plans := Append(plans, p);
    }

    /** state.plans[i] = p, in place. */
    method SetPlan(i: nat, p: Plan)
      requires Valid() && i < plans.len
      modifies Arrays()
      ensures Valid() && Arrays() == old(Arrays())
      ensures View() == old(View()).(plans := old(View()).plans[i := p])
    {
      plans.arr[i] := p;
    }

    /** keys[idx] = key, in place in the array the list shares with nobody. */
    method SetKey(u: Id, idx: nat, key: APIKey)
      requires Valid()
      requires u in apiKeys && idx < apiKeys[u].len
      modifies Arrays()
      ensures Valid() && Arrays() == old(Arrays()) && apiKeys == old(apiKeys)
      ensures View() == old(View()).(apiKeys := old(View()).apiKeys[u := old(View()).apiKeys[u][idx := key]])
    {
      ReplaceKey(apiKeys, u, idx, key);
    }

    method AppendKey(u: Id, key: APIKey)
      requires Valid()
      modifies this, Arrays()
      ensures Valid() && (forall a <- Arrays() :: a in old(Arrays()) || fresh(a))
      ensures View() == old(View()).(apiKeys := old(View()).apiKeys[u := KeysOf(old(View()), u) + [key]])
    {
      if u in apiKeys {
        ExtendKeys(u, key);
      } else {
        StartKeys(u, key);
      }
    }

    method ExtendKeys(u: Id, key: APIKey)
      requires Valid() && u in apiKeys
      modifies this`apiKeys, apiKeys[u].arr
      ensures Valid() && (forall a <- Arrays() :: a in old(Arrays()) || fresh(a))
      ensures View() == old(View()).(apiKeys := old(View()).apiKeys[u := KeysOf(old(View()), u) + [key]])
    {
      apiKeys := AddToList(apiKeys, u, key);
    }

    method StartKeys(u: Id, key: APIKey)
      requires Valid() && u !in apiKeys
      modifies this`apiKeys
      ensures Valid() && (forall a <- Arrays() :: a in old(Arrays()) || fresh(a))
      ensures View() == old(View()).(apiKeys := old(View()).apiKeys[u := KeysOf(old(View()), u) + [key]])
    {
      apiKeys := AddList(apiKeys, u, key);
    }

    // -------------------------------------------------------------- writes to maps

    method PutUser(u: User)
      requires Valid()
      modifies this`users
      ensures Valid() && Arrays() == old(Arrays())
      ensures View() == old(View()).(users := old(View()).users[u.id := u])
    {
      users := users[u.id := u];
    }

    method PutImage(i: Image)
      requires Valid()
      modifies this`images
      ensures Valid() && Arrays() == old(Arrays())
      ensures View() == old(View()).(images := old(View()).images[i.publicID := i])
    {
      images := images[i.publicID := i];
    }

    method PutOrder(o: Order)
      requires Valid()
      modifies this`orders
      ensures Valid() && Arrays() == old(Arrays())
      ensures View() == old(View()).(orders := old(View()).orders[o.id := o])
    {
      orders := orders[o.id := o];
    }

    method PutSub(s: Subscription)
      requires Valid()
      modifies this`subs
      ensures Valid() && Arrays() == old(Arrays())
      ensures View() == old(View()).(subs := old(View()).subs[s.userID := s])
    {
      subs := subs[s.userID := s];
    }

    method PutInvite(c: InviteCampaign)
      requires Valid()
      modifies this`invites
      ensures Valid() && Arrays() == old(Arrays())
      ensures View() == old(View()).(invites := old(View()).invites[c.code := c])
    {
      invites := invites[c.code := c];
    }

    method PutUsage(owner: Id, u: Usage)
      requires Valid()
      modifies this`usage
      ensures Valid() && Arrays() == old(Arrays())
      ensures View() == old(View()).(usage := old(View()).usage[owner := u])
    {
      usage := usage[owner := u];
    }

    method MarkEvent(e: Id)
      requires Valid()
      modifies this`webhooks
      ensures Valid() && Arrays() == old(Arrays())
      ensures View() == old(View()).(webhooks := old(View()).webhooks + {e})
    {
      webhooks := webhooks[e := true];
      assert Marked(webhooks) == old(View()).webhooks + {e};
    }

    // -------------------------------------------------------------- snapshot and restore

    method TakeListing() returns (l: Listing)
      requires Valid() && Keyed(View())
      ensures l.Of(View())
    {
      var us := Values(users, UserKey);
      var ads := Values(admins, AdminKey);
      var ses := Values(adminSessions, SessionKey);
      var boot := Values(adminBootstrap, BootstrapKey);
      var ims := Values(images, ImageKey);
      var als := Values(albums, AlbumKey);
      var os := Values(orders, OrderKey);
      var ss := Values(subs, SubKey);
      var inv := Values(invites, InviteKey);
      var ws := Processed(webhooks);
      l := Listing(us, ads, ses, boot, ims, als, os, ss, usage, inv, ws);
    }

    method TakeCopies() returns (c: Copies)
      requires Valid() && APIKeysKeyed(TableLists(apiKeys))
      ensures fresh(c.Arrays()) && c.Of(View())
    {
      var k := Flatten(apiKeys);
      var p := Clone(plans);
      var r, e, l := CloneLogs(redemptions, riskEvents, auditLogs);
      c := Copies(p, k, r, e, l);
    }

    /** snapshotStateLocked. */
    method Take() returns (snap: Snapshot)
      requires Valid() && Keyed(View())
      ensures fresh(snap.copies.Arrays()) && snap.Records(View())
      ensures forall a <- snap.copies.Arrays() :: a !in Arrays() && a != this
    {
      var l := TakeListing();
      var c := TakeCopies();
      snap := Snapshot(l, c, hotlink, integrations);
    }

    method RestoreAccounts(l: Listing)
      modifies this`users, this`admins, this`adminSessions, this`adminBootstrap
      ensures users == Refile(l.users, UserKey) && admins == Refile(l.admins, AdminKey)
      ensures adminSessions == Refile(l.adminSessions, SessionKey)
      ensures adminBootstrap == Refile(l.adminBootstrap, BootstrapKey)
    {
      users := Rebuild(l.users, UserKey);
      admins := Rebuild(l.admins, AdminKey);
      adminSessions := Rebuild(l.adminSessions, SessionKey);
      adminBootstrap := Rebuild(l.adminBootstrap, BootstrapKey);
    }

    method RestoreRecords(l: Listing)
      modifies this`images, this`albums, this`orders, this`subs, this`invites
      ensures images == Refile(l.images, ImageKey) && albums == Refile(l.albums, AlbumKey)
      ensures orders == Refile(l.orders, OrderKey) && subs == Refile(l.subs, SubKey)
      ensures invites == Refile(l.invites, InviteKey)
    {
      images := Rebuild(l.images, ImageKey);
      albums := Rebuild(l.albums, AlbumKey);
      orders := Rebuild(l.orders, OrderKey);
      subs := Rebuild(l.subs, SubKey);
      invites := Rebuild(l.invites, InviteKey);
    }

    method RestoreListing(snap: Snapshot)
      modifies this`users, this`admins, this`adminSessions, this`adminBootstrap, this`images, this`albums,
               this`orders, this`subs, this`usage, this`invites, this`webhooks, this`hotlink, this`integrations
      ensures users == Refile(snap.listing.users, UserKey) && admins == Refile(snap.listing.admins, AdminKey)
      ensures adminSessions == Refile(snap.listing.adminSessions, SessionKey)
      ensures adminBootstrap == Refile(snap.listing.adminBootstrap, BootstrapKey)
      ensures images == Refile(snap.listing.images, ImageKey) && albums == Refile(snap.listing.albums, AlbumKey)
      ensures orders == Refile(snap.listing.orders, OrderKey) && subs == Refile(snap.listing.subs, SubKey)
      ensures invites == Refile(snap.listing.invites, InviteKey) && usage == snap.listing.usage
      ensures Marked(webhooks) == IdSet(snap.listing.webhooks)
      ensures hotlink == snap.hotlink && integrations == snap.integrations
    {
      RestoreAccounts(snap.listing);
      RestoreRecords(snap.listing);
      usage := snap.listing.usage;
      webhooks := MarkAll(snap.listing.webhooks);
      hotlink := snap.hotlink;
      integrations := snap.integrations;
    }

    method RestoreCopies(c: Copies)
      requires c.Valid()
      modifies this`plans, this`apiKeys, this`redemptions, this`riskEvents, this`auditLogs
      ensures Valid() && fresh(Arrays())
      ensures plans.Contents() == c.plans.Contents() && TableLists(apiKeys) == Group(c.apiKeys.Contents())
      ensures redemptions.Contents() == c.redemptions.Contents() && riskEvents.Contents() == c.riskEvents.Contents()
      ensures auditLogs.Contents() == c.auditLogs.Contents()
    {
      plans := Clone(c.plans);
      redemptions, riskEvents, auditLogs := CloneLogs(c.redemptions, c.riskEvents, c.auditLogs);
      apiKeys := Regroup(c.apiKeys);
    }

    /** restoreStateSnapshot: whatever happened to the state since, it is again what the snapshot records,
        in arrays no older header points to. */
    method Restore(snap: Snapshot, ghost db: Db)
      requires snap.Records(db)
      modifies this
      ensures Valid() && View() == db
      ensures fresh(Arrays())
    {
      RestoreListing(snap);
      RestoreCopies(snap.copies);
    }

    /** Rollback is exact: after a snapshot every field and every backing array may be overwritten with anything,
        and restoring still gives back the state the snapshot was taken of. */
    method RollbackExact()
      requires Valid() && Keyed(View())
      modifies this, Arrays()
      ensures Valid() && View() == old(View())
    {
      ghost var before := View();
      var snap := Take();
      modify this, Arrays();
      Restore(snap, before);
    }

    /** persistOrRollback, given whether the save succeeds: when it fails the snapshot comes back. */
    method PersistOrRollback(snap: Snapshot, ghost db: Db, saveOK: bool) returns (saved: bool)
      requires Valid() && snap.Records(db)
      modifies this
      ensures Valid() && (forall a <- Arrays() :: a in old(Arrays()) || fresh(a))
      ensures saved == saveOK && View() == if saveOK then old(View()) else db
    {
      if !saveOK {
        Restore(snap, db);
      }
      return saveOK;
    }
  }
}
