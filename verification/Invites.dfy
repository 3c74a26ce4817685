/** Invite limits are counted from the redemption log, and hold over every run. */
module InviteRuns {
  import opened Text
  import opened Domain
  import opened Db
  import opened Handlers
  import opened Actions
  import opened Frames
  import opened Soundness

  function LimitFor(c: InviteCampaign, scope: Scope): int {
    match scope
    case Everyone => c.totalLimit
    case ByUser(_) => c.perUserLimit
    case ByEmail(_) => c.perEmailLimit
    case ByIP(_) => c.perIPLimit
    case ByDevice(_) => c.perDeviceLimit
  }

  /** A limit of zero or less is no limit. */
  predicate WithinLimit(log: seq<Redemption>, code: string, c: InviteCampaign, scope: Scope) {
    LimitFor(c, scope) > 0 ==> Redeemed(log, code, scope) <= LimitFor(c, scope)
  }

  ghost predicate LimitsHold(invites: map<string, InviteCampaign>, log: seq<Redemption>) {
    && (forall i :: 0 <= i < |log| ==> log[i].code in invites)
    && (forall code <- invites, scope :: WithinLimit(log, code, invites[code], scope))
  }

  lemma {:induction false} NeverRedeemed(log: seq<Redemption>, code: string, scope: Scope)
    requires forall i :: 0 <= i < |log| ==> log[i].code != code
    ensures Redeemed(log, code, scope) == 0
  {
    if log != [] {
      NeverRedeemed(log[..|log| - 1], code, scope);
    }
  }

  /** A code that is new has no past. */
  lemma CreateHolds(db: Db, c: InviteCampaign)
    requires LimitsHold(db.invites, db.redemptions)
    ensures var next := Or(CreateInvite(db, c), db); LimitsHold(next.invites, next.redemptions)
  {
    hide FindPlan;
    if CreateInvite(db, c).Ok? {
      var invites := db.invites[c.code := c];
      forall code, scope | code in invites ensures WithinLimit(db.redemptions, code, invites[code], scope)
      {
        if code == c.code {
          NeverRedeemed(db.redemptions, code, scope);
        }
      }
    }
  }

  /** The log entry counts in exactly the five scopes that were checked against their limits. */
  lemma EntryChecked(c: InviteCampaign, log: seq<Redemption>, code: string, user: User, ip: string, device: string,
                     isNewUser: bool, now: Time, entry: Redemption, scope: Scope)
    requires ValidateRedeem(c, now, isNewUser, user.emailVerified, user.oauthBound,
                            UsageOfCode(log, code, user.id, user.email, ip, device)).None?
    requires Normal(user.email)
    requires entry.userID == user.id && entry.email == Lower(user.email) && entry.ip == ip && entry.deviceID == device
    requires InScope(entry, scope)
    ensures !LimitReached(LimitFor(c, scope), Redeemed(log, code, scope))
  {
    TrimSpaceOfTrimmed(user.email);
    assert Normalize(user.email) == user.email;
  }

  lemma RedeemHolds(db: Db, code: string, userID: Id, ip: string, device: string, isNew: bool, redemptionID: Id, subID: Id, now: Time)
    requires LimitsHold(db.invites, db.redemptions) && EmailsNormal(db)
    ensures var next := Or(RedeemInvite(db, code, userID, ip, device, isNew, redemptionID, subID, now), db);
            LimitsHold(next.invites, next.redemptions)
  {
    hide ValidateRedeem, UsageOfCode;
    var r := RedeemInvite(db, code, userID, ip, device, isNew, redemptionID, subID, now);
    if r.Ok? {
      var log := r.value.redemptions;
      var entry := log[|log| - 1];
      assert log[..|log| - 1] == db.redemptions;
      forall k, scope | k in db.invites ensures WithinLimit(log, k, db.invites[k], scope) {
        assert WithinLimit(db.redemptions, k, db.invites[k], scope);
        if k == code && InScope(entry, scope) {
          EntryChecked(db.invites[code], db.redemptions, code, db.users[userID], ip, device, isNew, now, entry, scope);
        }
      }
    }
  }

  lemma LimitsNext(db: Db, s: Step)
    requires Sound(db) && Legal(db, s) && LimitsHold(db.invites, db.redemptions)
    ensures LimitsHold(Next(db, s).invites, Next(db, s).redemptions)
  {
    hide LimitsHold, CreateInvite, RedeemInvite, Sound;
    EmailsOf(db);
    match s.action
    case DoCreateInvite(c) => CreateHolds(db, c);
    case DoRedeem(code, userID, ip, device, isNew, redemptionID, subID) =>
      RedeemHolds(db, code, userID, ip, device, isNew, redemptionID, subID, s.now);
    case _ => hide *; QuietLimits(db, s);
  }

  lemma EmailsOf(db: Db)
    requires Sound(db)
    ensures EmailsNormal(db)
  {
  }

  lemma QuietLimits(db: Db, s: Step)
    requires Legal(db, s) && Invites !in Writes(s.action) && Redemptions !in Writes(s.action)
    ensures Next(db, s).invites == db.invites && Next(db, s).redemptions == db.redemptions
  {
    hide Next, Legal, Writes;
    NextKeeps(db, s, Invites);
    NextKeeps(db, s, Redemptions);
  }

  lemma {:induction false} LimitsRun(db: Db, clock: Time, steps: seq<Step>)
    requires Sound(db) && LegalRun(db, clock, steps) && LimitsHold(db.invites, db.redemptions)
    ensures LimitsHold(Run(db, clock, steps).invites, Run(db, clock, steps).redemptions)
    decreases |steps|
  {
    hide Sound, Effect, LimitsHold;
    if steps != [] {
      SoundEffect(db, steps[0]);
      LimitsNext(db, steps[0]);
      LimitsRun(Next(db, steps[0]), steps[0].now, steps[1..]);
    }
  }

  /** Whatever happens, no campaign is ever redeemed beyond a limit it sets: in total, or by one user, email,
      IP address or device. */
  lemma InviteLimitsHold(plans: seq<Plan>, invites: map<string, InviteCampaign>, hotlink: Hotlink, integrations: string,
                         clock: Time, steps: seq<Step>, code: string, scope: Scope)
    requires KeyedBy(invites, InviteKey)
    requires LegalRun(Start(plans, invites, hotlink, integrations), clock, steps)
    requires code in Run(Start(plans, invites, hotlink, integrations), clock, steps).invites
    ensures var db := Run(Start(plans, invites, hotlink, integrations), clock, steps);
            var limit := LimitFor(db.invites[code], scope);
            limit > 0 ==> Redeemed(db.redemptions, code, scope) <= limit
  {
    hide Run, LegalRun, Sound;
    var db := Start(plans, invites, hotlink, integrations);
    SoundStart(plans, invites, hotlink, integrations);
    LimitsRun(db, clock, steps);
    assert WithinLimit(Run(db, clock, steps).redemptions, code, Run(db, clock, steps).invites[code], scope);
  }

  // ---------------------------------------------------------------- who may redeem, and what it gives

  /** How many entries of the log pass the test. */
  ghost function Count(log: seq<Redemption>, test: Redemption -> bool): nat {
    |set i | 0 <= i < |log| && test(log[i])|
  }

  lemma CountMore(log: seq<Redemption>, last: Redemption, test: Redemption -> bool)
    ensures Count(log + [last], test) == Count(log, test) + if test(last) then 1 else 0
  {
    var before := set i | 0 <= i < |log| && test(log[i]);
    var after := set i | 0 <= i < |log + [last]| && test((log + [last])[i]);
    assert after == if test(last) then before + {|log|} else before;
  }

  lemma {:induction false} RedeemedCounts(log: seq<Redemption>, code: string, scope: Scope, test: Redemption -> bool)
    requires forall r :: test(r) <==> r.code == code && InScope(r, scope)
    ensures Redeemed(log, code, scope) == Count(log, test)
  {
    if log != [] {
      var n := |log| - 1;
      RedeemedCounts(log[..n], code, scope, test);
      CountMore(log[..n], log[n], test);
      assert log[..n] + [log[n]] == log;
    }
  }

  /** A positive limit leaves room for one more. */
  predicate Room(limit: int, used: nat) {
    limit > 0 ==> used < limit
  }

  function OfCode(code: string): Redemption -> bool {
    (r: Redemption) => r.code == code
  }

  function OfUser(code: string, userID: Id): Redemption -> bool {
    (r: Redemption) => r.code == code && r.userID == userID
  }

  function OfEmail(code: string, email: string): Redemption -> bool {
    (r: Redemption) => r.code == code && Lower(r.email) == email
  }

  function OfIP(code: string, ip: string): Redemption -> bool {
    (r: Redemption) => r.code == code && r.ip == ip
  }

  function OfDevice(code: string, device: string): Redemption -> bool {
    (r: Redemption) => r.code == code && r.deviceID == device
  }

  /** Every limit of the campaign leaves room for this user at this address and device. */
  ghost predicate RoomLeft(log: seq<Redemption>, c: InviteCampaign, code: string, user: User, ip: string, device: string) {
    && Room(c.totalLimit, Count(log, OfCode(code)))
    && Room(c.perUserLimit, Count(log, OfUser(code, user.id)))
    && Room(c.perEmailLimit, Count(log, OfEmail(code, Lower(TrimSpace(user.email)))))
    && Room(c.perIPLimit, Count(log, OfIP(code, ip)))
    && Room(c.perDeviceLimit, Count(log, OfDevice(code, device)))
  }

  lemma LimitsLeaveRoom(log: seq<Redemption>, c: InviteCampaign, code: string, user: User, ip: string, device: string)
    ensures var u := UsageOfCode(log, code, user.id, user.email, ip, device);
            RoomLeft(log, c, code, user, ip, device) <==>
              !LimitReached(c.totalLimit, u.total) && !LimitReached(c.perUserLimit, u.user) && !LimitReached(c.perEmailLimit, u.email)
              && !LimitReached(c.perIPLimit, u.ip) && !LimitReached(c.perDeviceLimit, u.device)
  {
    hide Redeemed, Count, Lower, TrimSpace;
    RedeemedCounts(log, code, Everyone, OfCode(code));
    RedeemedCounts(log, code, ByUser(user.id), OfUser(code, user.id));
    RedeemedCounts(log, code, ByEmail(Normalize(user.email)), OfEmail(code, Normalize(user.email)));
    RedeemedCounts(log, code, ByIP(ip), OfIP(code, ip));
    RedeemedCounts(log, code, ByDevice(device), OfDevice(code, device));
  }

  /** The campaign is open to the user: running, and each condition it sets is met. */
  predicate OpenTo(c: InviteCampaign, user: User, isNewUser: bool, now: Time) {
    && c.status == InviteActive && c.startsAt <= now <= c.endsAt
    && (c.newUsersOnly ==> isNewUser) && (c.requireEmailVerified ==> user.emailVerified)
    && (c.requireOAuthBinding ==> user.oauthBound)
  }

  lemma ValidExact(c: InviteCampaign, user: User, isNewUser: bool, now: Time, log: seq<Redemption>, code: string, ip: string, device: string)
    ensures ValidateRedeem(c, now, isNewUser, user.emailVerified, user.oauthBound,
                           UsageOfCode(log, code, user.id, user.email, ip, device)).None?
            <==> OpenTo(c, user, isNewUser, now) && RoomLeft(log, c, code, user, ip, device)
  {
    hide RoomLeft, UsageOfCode, LimitReached;
    LimitsLeaveRoom(log, c, code, user, ip, device);
  }

  /** A redemption is on record and starts the campaign's plan, for as many days as it grants, up to the length at which
      the product wraps; nobody else is touched. */
  ghost predicate Gives(db: Db, next: Db, code: string, userID: Id, ip: string, device: string, redemptionID: Id, subID: Id, now: Time)
    requires userID in db.users && code in db.invites
  {
    var c, user := db.invites[code], db.users[userID];
    && next.redemptions == db.redemptions + [Redemption(redemptionID, code, userID, Lower(user.email), ip, device, c.planSlug, now)]
    && next.users == db.users[userID := user.(planSlug := c.planSlug)]
    && userID in next.subs && next.subs == db.subs[userID := next.subs[userID]]
    && (0 <= c.grantDays <= 106_751 ==> Lasts(next.subs[userID], subID, userID, c.planSlug, now, c.grantDays))
  }

  lemma RedeemGives(db: Db, code: string, userID: Id, ip: string, device: string, isNewUser: bool, redemptionID: Id, subID: Id, now: Time)
    requires userID in db.users && db.users[userID].id == userID
    ensures var r := RedeemInvite(db, code, userID, ip, device, isNewUser, redemptionID, subID, now);
            r.Ok? ==> code in db.invites && Gives(db, r.value, code, userID, ip, device, redemptionID, subID, now)
  {
    hide UsageOfCode, ValidateRedeem, Lower, Lasts, NewSubscription, DaysDuration;
    var r := RedeemInvite(db, code, userID, ip, device, isNewUser, redemptionID, subID, now);
    if r.Ok? {
      var c, next := db.invites[code], r.value;
      var sub := NewSubscription(subID, userID, c.planSlug, now, DaysDuration(c.grantDays));
      assert next.subs == db.subs[userID := sub];
      assert next.users == db.users[userID := db.users[userID].(planSlug := c.planSlug)];
      if 0 <= c.grantDays <= 106_751 {
        GrantLasts(subID, userID, c.planSlug, now, c.grantDays);
      }
    }
  }

  /** A code is redeemed exactly when it may be, and then gives what it promises. */
  lemma RedeemExact(db: Db, code: string, userID: Id, ip: string, device: string, isNewUser: bool, redemptionID: Id, subID: Id, now: Time)
    requires userID in db.users ==> db.users[userID].id == userID
    ensures var r := RedeemInvite(db, code, userID, ip, device, isNewUser, redemptionID, subID, now);
      && (r.Ok? <==>
          && userID in db.users && code in db.invites
          && OpenTo(db.invites[code], db.users[userID], isNewUser, now)
          && RoomLeft(db.redemptions, db.invites[code], code, db.users[userID], ip, device))
      && (r.Ok? ==> Gives(db, r.value, code, userID, ip, device, redemptionID, subID, now))
  {
    hide RoomLeft, OpenTo, UsageOfCode, ValidateRedeem, Gives;
    if userID in db.users {
      RedeemGives(db, code, userID, ip, device, isNewUser, redemptionID, subID, now);
      if code in db.invites {
        ValidExact(db.invites[code], db.users[userID], isNewUser, now, db.redemptions, code, ip, device);
      }
    }
  }

  /** The limits once more, each told by the entries it counts. */
  lemma CountsWithinLimits(plans: seq<Plan>, invites: map<string, InviteCampaign>, hotlink: Hotlink, integrations: string,
                           clock: Time, steps: seq<Step>, code: string, userID: Id, email: string, ip: string, device: string)
    requires KeyedBy(invites, InviteKey)
    requires LegalRun(Start(plans, invites, hotlink, integrations), clock, steps)
    requires code in Run(Start(plans, invites, hotlink, integrations), clock, steps).invites
    ensures var db := Run(Start(plans, invites, hotlink, integrations), clock, steps);
      var c, log := db.invites[code], db.redemptions;
      && (c.totalLimit > 0 ==> Count(log, OfCode(code)) <= c.totalLimit)
      && (c.perUserLimit > 0 ==> Count(log, OfUser(code, userID)) <= c.perUserLimit)
      && (c.perEmailLimit > 0 ==> Count(log, OfEmail(code, email)) <= c.perEmailLimit)
      && (c.perIPLimit > 0 ==> Count(log, OfIP(code, ip)) <= c.perIPLimit)
      && (c.perDeviceLimit > 0 ==> Count(log, OfDevice(code, device)) <= c.perDeviceLimit)
  {
    hide Run, LegalRun, Count, Redeemed, Lower;
    var log := Run(Start(plans, invites, hotlink, integrations), clock, steps).redemptions;
    RedeemedCounts(log, code, Everyone, OfCode(code));
    RedeemedCounts(log, code, ByUser(userID), OfUser(code, userID));
    RedeemedCounts(log, code, ByEmail(email), OfEmail(code, email));
    RedeemedCounts(log, code, ByIP(ip), OfIP(code, ip));
    RedeemedCounts(log, code, ByDevice(device), OfDevice(code, device));
    InviteLimitsHold(plans, invites, hotlink, integrations, clock, steps, code, Everyone);
    InviteLimitsHold(plans, invites, hotlink, integrations, clock, steps, code, ByUser(userID));
    InviteLimitsHold(plans, invites, hotlink, integrations, clock, steps, code, ByEmail(email));
    InviteLimitsHold(plans, invites, hotlink, integrations, clock, steps, code, ByIP(ip));
    InviteLimitsHold(plans, invites, hotlink, integrations, clock, steps, code, ByDevice(device));
  }
}
