/** Plans, subscriptions, usage and invites: the pure rules of internal/domain. */
module Domain {
  import opened Text

  datatype Option<+T> = None | Some(value: T)

  datatype Result<+T> = Ok(value: T) | Err(message: string)

  type Id = string

  /** Instants and durations are counted in nanoseconds, like Go's time package. */
  type Time = int

  const SECOND: int := 1_000_000_000
  const DAY: int := 86_400 * SECOND
  const RETENTION: int := 30 * DAY

  /** A Go time.Duration is an int64: products wrap around. */
  function WrapInt64(n: int): int {
    (n + 0x8000_0000_0000_0000) % 0x1_0000_0000_0000_0000 - 0x8000_0000_0000_0000
  }

  /** time.Duration(days) * 24 * time.Hour. */
  function DaysDuration(days: int): int {
    WrapInt64(days * DAY)
  }

  function BillingDuration(cycle: string): int {
    if cycle == "yearly" then 365 * DAY else 31 * DAY
  }

  // ---------------------------------------------------------------- subscriptions

  datatype SubscriptionStatus = SubActive | SubPastDue | SubRetained | SubDeleted

  datatype Subscription = Subscription(
    id: Id, userID: Id, planSlug: string, status: SubscriptionStatus,
    startsAt: Time, endsAt: Time, retentionEndsAt: Time)
  {
    function EffectiveStatus(now: Time): SubscriptionStatus {
      if status == SubDeleted then SubDeleted
      else if now <= endsAt then SubActive
      else if now <= retentionEndsAt then SubRetained
      else SubDeleted
    }
  }

  function NewSubscription(id: Id, userID: Id, planSlug: string, startsAt: Time, duration: int): Subscription {
    var endsAt := startsAt + duration;
    Subscription(id, userID, planSlug, SubActive, startsAt, endsAt, endsAt + RETENTION)
  }

  /** The subscription starts now and is active for the days, both ends included; the data is kept for 30 days more. */
  ghost predicate Lasts(sub: Subscription, subID: Id, userID: Id, slug: string, now: Time, days: int) {
    && sub.id == subID && sub.userID == userID && sub.planSlug == slug && sub.startsAt == now
    && forall t :: sub.EffectiveStatus(t) ==
         if t <= now + days * 86_400_000_000_000 then SubActive
         else if t <= now + (days + 30) * 86_400_000_000_000 then SubRetained
         else SubDeleted
  }

  /** From now on the subscription is never active again, and the data is kept for the days. */
  ghost predicate Over(sub: Subscription, now: Time, days: int) {
    forall t :: t >= now ==> sub.EffectiveStatus(t) == if t <= now + days * 86_400_000_000_000 then SubRetained else SubDeleted
  }

  predicate SameGrant(a: Subscription, b: Subscription) {
    a.id == b.id && a.userID == b.userID && a.planSlug == b.planSlug && a.startsAt == b.startsAt
  }

  /** A new subscription keeps the user's data for more than 30 days exactly when its duration,
      after wrapping, is not negative. */
  lemma RetentionIffNotNegative(id: Id, userID: Id, slug: string, now: Time, days: int)
    ensures DaysDuration(days) >= 0 <==>
            forall t :: now <= t <= now + RETENTION ==>
              NewSubscription(id, userID, slug, now, DaysDuration(days)).EffectiveStatus(t) != SubDeleted
  {
    var sub := NewSubscription(id, userID, slug, now, DaysDuration(days));
    if DaysDuration(days) < 0 {
      assert sub.EffectiveStatus(now + RETENTION) == SubDeleted;
    }
  }

  /** Up to 106751 days the multiplication does not wrap. */
  lemma DaysDurationExact(days: int)
    requires 0 <= days <= 106_751
    ensures DaysDuration(days) == days * DAY
  {
  }

  /** One day more and it does: such a grant is over before it starts, by almost three centuries. */
  lemma DaysDurationWraps(id: Id, userID: Id, slug: string, now: Time)
    ensures DaysDuration(106_752) < -106_000 * DAY
    ensures NewSubscription(id, userID, slug, now, DaysDuration(106_752)).EffectiveStatus(now) == SubDeleted
  {
  }

  /** A grant of so many days, up to the length at which the product wraps, lasts so many days. */
  lemma GrantLasts(id: Id, userID: Id, slug: string, now: Time, days: int)
    requires 0 <= days <= 106_751
    ensures Lasts(NewSubscription(id, userID, slug, now, DaysDuration(days)), id, userID, slug, now, days)
  {
    DaysDurationExact(days);
  }

  // ---------------------------------------------------------------- plans and usage

  datatype Quota = Quota(
    storageBytes: Option<int>, bandwidthBytes: Option<int>, imageRequests: Option<int>,
    apiCalls: Option<int>, imageProcessEvents: Option<int>, singleFileBytes: Option<int>)

  datatype Plan = Plan(
    slug: string, name: string, monthlyPriceCent: int, yearlyPriceCent: int,
    visible: bool, purchasable: bool, inviteOnly: bool, unlimited: bool, quota: Quota)

  datatype Usage = Usage(
    storageBytes: int, bandwidthBytes: int, imageRequests: int, apiCalls: int, imageProcessEvents: int)

  const NO_USAGE := Usage(0, 0, 0, 0, 0)

  predicate Allows(limit: Option<int>, used: int) {
    limit.None? || used <= limit.value
  }

  /** The first metric over its limit, in the order the source tests them. */
  function CheckUsage(quota: Quota, usage: Usage): Option<string> {
    if !Allows(quota.storageBytes, usage.storageBytes) then Some("storage_bytes")
    else if !Allows(quota.bandwidthBytes, usage.bandwidthBytes) then Some("bandwidth_bytes")
    else if !Allows(quota.imageRequests, usage.imageRequests) then Some("image_requests")
    else if !Allows(quota.apiCalls, usage.apiCalls) then Some("api_calls")
    else if !Allows(quota.imageProcessEvents, usage.imageProcessEvents) then Some("image_process_events")
    else None
  }

  function CheckUpload(quota: Quota, usage: Usage, uploadBytes: int): Option<string> {
    if quota.singleFileBytes.Some? && uploadBytes > quota.singleFileBytes.value then Some("single_file_bytes")
    else CheckUsage(quota, usage.(storageBytes := usage.storageBytes + uploadBytes,
                                  imageProcessEvents := usage.imageProcessEvents + 1))
  }

  function FindPlan(plans: seq<Plan>, slug: string): Option<Plan> {
    if plans == [] then None
    else if plans[0].slug == slug then Some(plans[0])
    else FindPlan(plans[1..], slug)
  }

  // ---------------------------------------------------------------- invites

  datatype InviteStatus = InviteActive | InvitePaused | InviteEnded

  datatype InviteCampaign = InviteCampaign(
    id: Id, code: string, name: string, planSlug: string, grantDays: int,
    totalLimit: int, perUserLimit: int, perEmailLimit: int, perIPLimit: int, perDeviceLimit: int,
    newUsersOnly: bool, requireEmailVerified: bool, requireOAuthBinding: bool, requireAdminApproval: bool,
    startsAt: Time, endsAt: Time, status: InviteStatus)

  datatype InviteUsage = InviteUsage(total: nat, user: nat, email: nat, ip: nat, device: nat)

  datatype InviteError = Inactive | Expired | RequiresNew | EmailUnverified | OAuthRequired
                       | TotalLimit | UserLimit | EmailLimit | IPLimit | DeviceLimit

  predicate LimitReached(limit: int, used: nat) {
    limit > 0 && used >= limit
  }

  /** InviteCampaign.ValidateRedeem: the first reason to refuse, None when the code may be redeemed. */
  function ValidateRedeem(c: InviteCampaign, now: Time, isNewUser: bool, emailVerified: bool,
                          oauthBound: bool, usage: InviteUsage): Option<InviteError>
  {
    if c.status != InviteActive then Some(Inactive)
    else if now < c.startsAt || now > c.endsAt then Some(Expired)
    else if c.newUsersOnly && !isNewUser then Some(RequiresNew)
    else if c.requireEmailVerified && !emailVerified then Some(EmailUnverified)
    else if c.requireOAuthBinding && !oauthBound then Some(OAuthRequired)
    else if LimitReached(c.totalLimit, usage.total) then Some(TotalLimit)
    else if LimitReached(c.perUserLimit, usage.user) then Some(UserLimit)
    else if LimitReached(c.perEmailLimit, usage.email) then Some(EmailLimit)
    else if LimitReached(c.perIPLimit, usage.ip) then Some(IPLimit)
    else if LimitReached(c.perDeviceLimit, usage.device) then Some(DeviceLimit)
    else None
  }
}
