/** The records of the service and the value of one whole in-memory state. */
module Db {
  import opened Text
  import opened Domain

  datatype User = User(
    id: Id, email: string, nickname: string, emailVerified: bool, oauthBound: bool,
    planSlug: string, banned: bool, createdAt: Time)

  datatype Admin = Admin(id: Id, email: string, active: bool, lastLoginAt: Option<Time>)

  /** Filed under the token hash, not under the id. */
  datatype AdminSession = AdminSession(id: Id, adminID: Id, tokenHash: string, expiresAt: Time)

  datatype PendingBootstrap = PendingBootstrap(id: Id, email: string, expiresAt: Time)

  datatype Album = Album(id: Id, userID: Id, name: string, isPrivate: bool)

  datatype Variant = Variant(kind: string, objectKey: string, mimeType: string, width: int, height: int, bytes: nat)

  datatype ImageStatus = ImageActive | ImageFrozen | ImageDeleted

  datatype Image = Image(
    publicID: Id, userID: Id, filename: string, objectKey: string, contentType: string, bytes: nat,
    isPrivate: bool, width: int, height: int, perceptualHash: string, variants: seq<Variant>,
    status: ImageStatus, moderationReason: string, createdAt: Time)

  datatype APIKey = APIKey(
    id: Id, userID: Id, secret: string, secretHash: string, scopes: seq<string>, revoked: bool,
    lastUsedAt: Option<Time>)

  datatype OrderStatus = Pending | Failed | Paid | Cancelled | Refunded

  datatype Order = Order(
    id: Id, userID: Id, planSlug: string, billingCycle: string, amountCent: int, status: OrderStatus,
    paymentID: string, paidAt: Option<Time>, failedAt: Option<Time>, cancelledAt: Option<Time>,
    refundedAt: Option<Time>, operatorNote: string)

  datatype Redemption = Redemption(
    id: Id, code: string, userID: Id, email: string, ip: string, deviceID: string, planSlug: string, createdAt: Time)

  datatype RiskEvent = RiskEvent(kind: string, message: string)

  /** The action names the modelled handlers write to the audit log. */
  datatype AuditAction =
    | LogOAuthLogin | LogProfileUpdate | LogUserBanned | LogUserActive
    | LogPlanUpdate | LogPlanCreate | LogPlanGrant | LogSubscriptionExpire | LogPurgeExpired
    | LogInviteCreate | LogInviteRedeem
    | LogCheckoutCreated | LogPaymentCreated | LogCheckoutFailed
    | LogWebhookUnmatched | LogWebhookIgnored
    | LogPaymentSucceeded | LogSucceededIgnored | LogPaymentFailed | LogFailedIgnored
    | LogPaymentCancelled | LogCancelledIgnored | LogPaymentRefunded | LogRefundedIgnored
    | LogMarkPaid | LogOrderCancel | LogOrderRefund
    | LogImageProcess | LogModerationFreeze | LogImageDelete | LogImageFreeze | LogRestoreImage

  /** `activated` is the metadata entry an order activation writes; false for every other action. */
  datatype AuditLog = AuditLog(actor: string, action: AuditAction, target: Id, activated: bool)

  datatype Hotlink = Hotlink(allowedDomains: seq<string>, blockedDomains: seq<string>, allowEmptyReferer: bool, updatedAt: Time)

  /** memoryState by value. An absent API-key list and an empty one are the same list;
      `webhooks` holds the event ids mapped to true. */
  datatype Db = Db(
    plans: seq<Plan>,
    users: map<Id, User>,
    admins: map<Id, Admin>,
    adminSessions: map<string, AdminSession>,
    adminBootstrap: map<Id, PendingBootstrap>,
    images: map<Id, Image>,
    albums: map<Id, Album>,
    apiKeys: map<Id, seq<APIKey>>,
    orders: map<Id, Order>,
    subs: map<Id, Subscription>,
    usage: map<Id, Usage>,
    invites: map<string, InviteCampaign>,
    redemptions: seq<Redemption>,
    webhooks: set<Id>,
    riskEvents: seq<RiskEvent>,
    auditLogs: seq<AuditLog>,
    hotlink: Hotlink,
    integrations: string)

  // The key each record carries.
  function UserKey(x: User): string { x.id }
  function AdminKey(x: Admin): string { x.id }
  function SessionKey(x: AdminSession): string { x.tokenHash }
  function BootstrapKey(x: PendingBootstrap): string { x.id }
  function ImageKey(x: Image): string { x.publicID }
  function AlbumKey(x: Album): string { x.id }
  function OrderKey(x: Order): string { x.id }
  function SubKey(x: Subscription): string { x.userID }
  function InviteKey(x: InviteCampaign): string { x.code }

  ghost predicate KeyedBy<V>(m: map<string, V>, key: V -> string) {
    forall k <- m :: key(m[k]) == k
  }

  ghost predicate KeysOwned(keys: seq<APIKey>, owner: Id) {
    forall i :: 0 <= i < |keys| ==> keys[i].userID == owner
  }

  ghost predicate APIKeysKeyed(m: map<Id, seq<APIKey>>) {
    forall k <- m :: m[k] != [] && KeysOwned(m[k], k)
  }

  /** Every record is filed under the key it carries, which is what restoring a snapshot relies on. */
  ghost predicate Keyed(db: Db) {
    && KeyedBy(db.users, UserKey) && KeyedBy(db.admins, AdminKey) && KeyedBy(db.adminSessions, SessionKey)
    && KeyedBy(db.adminBootstrap, BootstrapKey) && KeyedBy(db.images, ImageKey) && KeyedBy(db.albums, AlbumKey)
    && APIKeysKeyed(db.apiKeys)
    && KeyedBy(db.orders, OrderKey) && KeyedBy(db.subs, SubKey) && KeyedBy(db.invites, InviteKey)
  }

  function ListOf(lists: map<Id, seq<APIKey>>, u: Id): seq<APIKey> {
    if u in lists then lists[u] else []
  }

  function KeysOf(db: Db, u: Id): seq<APIKey> {
    ListOf(db.apiKeys, u)
  }

  function UsageOf(db: Db, u: Id): Usage {
    if u in db.usage then db.usage[u] else NO_USAGE
  }

  function Audited(db: Db, actor: string, action: AuditAction, target: Id): Db {
    db.(auditLogs := db.auditLogs + [AuditLog(actor, action, target, false)])
  }

  function VariantBytes(vs: seq<Variant>): nat {
    if vs == [] then 0 else vs[0].bytes + VariantBytes(vs[1..])
  }

  /** What the image adds to its owner's storage: original plus variants, nothing once deleted. */
  function Stored(img: Image): nat {
    if img.status == ImageDeleted then 0 else img.bytes + VariantBytes(img.variants)
  }
}
