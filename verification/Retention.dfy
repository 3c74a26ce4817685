/** How long a user's images are kept: at least 30 days from the last event that renews the promise. */
module RetentionRuns {
  import opened Text
  import opened Domain
  import opened Db
  import opened Orders
  import opened Handlers
  import opened Actions
  import opened Frames
  import opened Soundness
  import opened Billing

  // ---------------------------------------------------------------- the events that count

  /** What an event does to the order it is matched with: the payment activates it or the refund matches
      the plan in force. */
  predicate EventRenews(db: Db, ev: Event, order: Order) {
    match KindOf(ev.eventType)
    case Succeeded => order.status == Pending || order.status == Failed
    case RefundedEvent => order.status == Paid && RefundMatches(db, order)
    case _ => false
  }

  predicate Payable(db: Db, orderID: Id, reason: string) {
    TrimSpace(reason) != "" && orderID in db.orders && (db.orders[orderID].status == Pending || db.orders[orderID].status == Failed)
  }

  predicate Refundable(db: Db, orderID: Id, reason: string) {
    TrimSpace(reason) != "" && orderID in db.orders && db.orders[orderID].status == Paid && RefundMatches(db, db.orders[orderID])
  }

  /** The user whom a registration, payment activation, grant, redemption or matching refund concerns. */
  ghost function Renewed(db: Db, s: Step): Option<Id>
    requires Legal(db, s)
  {
    match s.action
    case DoRegister(userID, rawEmail, nickname, subID) =>
      if EmailTaken(db, Normalize(rawEmail)) then None else Some(userID)
    case DoOAuthLogin(found, userID, _, _, _, _) => if found.None? then Some(userID) else None
    case DoGrantPlan(found, _, slug, days, reason, subID) =>
      if GrantPlan(db, found, slug, days, reason, subID, s.now).Ok? then found else None
    case DoRedeem(code, userID, ip, device, isNew, redemptionID, subID) =>
      if RedeemInvite(db, code, userID, ip, device, isNew, redemptionID, subID, s.now).Ok? then Some(userID) else None
    case DoWebhook(ev, found, _) =>
      if ev.id !in db.webhooks && found.Some? && db.orders[found.value].userID in db.users && EventRenews(db, ev, db.orders[found.value])
      then Some(db.orders[found.value].userID) else None
    case DoMarkPaid(orderID, reason, _) =>
      if Payable(db, orderID, reason) && db.orders[orderID].userID in db.users then Some(db.orders[orderID].userID) else None
    case DoRefund(orderID, reason) => if Refundable(db, orderID, reason) then Some(db.orders[orderID].userID) else None
    case _ => None
  }

  /** An admin expiry ends the promise; so does a grant or redemption of so many days that their number of
      nanoseconds overflows. */
  ghost predicate Withdraws(db: Db, s: Step)
    requires Legal(db, s)
  {
    match s.action
    case DoGrantPlan(_, _, _, days, _, _) => DaysDuration(days) < 0
    case DoRedeem(code, _, _, _, _, _, _) => code in db.invites && DaysDuration(db.invites[code].grantDays) < 0
    case _ => false
  }

  /** For each user the time of the latest such event, None once the promise is withdrawn. */
  type Marks = map<Id, Option<Time>>

  ghost function Marked(marks: Marks, db: Db, s: Step): Marks
    requires Legal(db, s)
  {
    if !s.saved then marks
    else if s.action.DoExpire? then
      if ExpireSubscription(db, s.action.userID, s.action.reason, s.action.retentionDays, s.action.deleteNow, s.now).Ok?
      then marks[s.action.userID := None] else marks
    else
      var u := Renewed(db, s);
      if u.None? then marks
      else marks[u.value := if Withdraws(db, s) then None else Some(s.now)]
  }

  // ---------------------------------------------------------------- the promise

  /** The data is kept for 30 days from the mark, or those days are over. */
  predicate Promised(sub: Subscription, mark: Option<Time>, clock: Time) {
    mark.Some? ==>
      if sub.status == SubDeleted then clock > mark.value + RETENTION
      else sub.retentionEndsAt >= mark.value + RETENTION
  }

  ghost predicate Kept(subs: map<Id, Subscription>, marks: Marks, clock: Time) {
    marks.Keys == subs.Keys && forall u <- marks :: Promised(subs[u], marks[u], clock)
  }

  lemma KeptLater(subs: map<Id, Subscription>, marks: Marks, clock: Time, now: Time)
    requires Kept(subs, marks, clock) && clock <= now
    ensures Kept(subs, marks, now)
  {
    forall u | u in marks ensures Promised(subs[u], marks[u], now) {
      assert Promised(subs[u], marks[u], clock);
    }
  }

  lemma KeptPut(subs: map<Id, Subscription>, marks: Marks, now: Time, u: Id, sub: Subscription, mark: Option<Time>)
    requires Kept(subs, marks, now) && Promised(sub, mark, now)
    ensures Kept(subs[u := sub], marks[u := mark], now)
  {
    var next := marks[u := mark];
    forall v | v in next ensures Promised(subs[u := sub][v], next[v], now) {
      assert v != u ==> Promised(subs[v], marks[v], now);
    }
  }

  lemma NewPromise(id: Id, u: Id, slug: string, now: Time, duration: int)
    ensures Promised(NewSubscription(id, u, slug, now, duration), if duration < 0 then None else Some(now), now)
  {
  }

  /** A purge only marks subscriptions whose days are over. */
  lemma KeptPurge(subs: map<Id, Subscription>, marks: Marks, now: Time, doomed: set<Id>)
    requires Kept(subs, marks, now)
    requires forall u <- doomed :: u in subs && subs[u].EffectiveStatus(now) == SubDeleted
    ensures Kept(MarkDeleted(subs, doomed), marks, now)
  {
    forall u | u in marks ensures Promised(MarkDeleted(subs, doomed)[u], marks[u], now) {
      assert Promised(subs[u], marks[u], now);
    }
  }

  // ---------------------------------------------------------------- handler by handler

  lemma AccountKept(db: Db, marks: Marks, user: User, subID: Id, now: Time)
    requires Kept(db.subs, marks, now)
    ensures Kept(NewAccount(db, user, subID, now).subs, marks[user.id := Some(now)], now)
  {
    hide Kept, NewSubscription;
    NewPromise(subID, user.id, "go", now, 30 * DAY);
    KeptPut(db.subs, marks, now, user.id, NewSubscription(subID, user.id, "go", now, 30 * DAY), Some(now));
  }

  lemma GrantKept(db: Db, marks: Marks, found: Option<Id>, slug: string, days: int, reason: string, subID: Id, now: Time)
    requires Kept(db.subs, marks, now) && Sound(db) && (found.Some? ==> found.value in db.users)
    ensures var r := GrantPlan(db, found, slug, days, reason, subID, now);
            Kept(Or(r, db).subs,
                 if r.Ok? && found.Some? then marks[found.value := if DaysDuration(days) < 0 then None else Some(now)] else marks, now)
  {
    hide Kept, NewSubscription, DaysDuration, FindPlan, TrimSpace, Sound;
    var r := GrantPlan(db, found, slug, days, reason, subID, now);
    if r.Ok? {
      UserFiled(db, found.value);
      var plan := FindPlan(db.plans, slug).value;
      NewPromise(subID, found.value, plan.slug, now, DaysDuration(days));
      KeptPut(db.subs, marks, now, found.value, NewSubscription(subID, found.value, plan.slug, now, DaysDuration(days)),
              if DaysDuration(days) < 0 then None else Some(now));
    }
  }

  lemma RedeemKept(db: Db, marks: Marks, code: string, userID: Id, ip: string, device: string, isNew: bool,
                   redemptionID: Id, subID: Id, now: Time)
    requires Kept(db.subs, marks, now) && Sound(db)
    ensures var r := RedeemInvite(db, code, userID, ip, device, isNew, redemptionID, subID, now);
            Kept(Or(r, db).subs,
                 if r.Ok? then marks[userID := if code in db.invites && DaysDuration(db.invites[code].grantDays) < 0 then None else Some(now)]
                 else marks, now)
  {
    hide Kept, NewSubscription, DaysDuration, ValidateRedeem, UsageOfCode, Sound, Lower;
    var r := RedeemInvite(db, code, userID, ip, device, isNew, redemptionID, subID, now);
    if r.Ok? {
      UserFiled(db, userID);
      var c := db.invites[code];
      NewPromise(subID, userID, c.planSlug, now, DaysDuration(c.grantDays));
      KeptPut(db.subs, marks, now, userID, NewSubscription(subID, userID, c.planSlug, now, DaysDuration(c.grantDays)),
              if DaysDuration(c.grantDays) < 0 then None else Some(now));
    }
  }

  lemma ExpireKept(db: Db, marks: Marks, userID: Id, reason: string, days: int, deleteNow: bool, now: Time)
    requires Kept(db.subs, marks, now)
    ensures var r := ExpireSubscription(db, userID, reason, days, deleteNow, now);
            Kept(Or(r, db).subs, if r.Ok? then marks[userID := None] else marks, now)
  {
    hide Kept, TrimSpace;
    var r := ExpireSubscription(db, userID, reason, days, deleteNow, now);
    if r.Ok? {
      KeptPut(db.subs, marks, now, userID, r.value.subs[userID], None);
    }
  }

  lemma BillingNotNegative(cycle: string)
    ensures BillingDuration(cycle) >= 0
  {
  }

  lemma ActivateKept(db: Db, marks: Marks, order: Order, now: Time, subID: Id, actor: string, action: AuditAction)
    requires Kept(db.subs, marks, now) && Sound(db) && order.id in db.orders
    requires SameTerms(db.orders[order.id], order) && db.orders[order.id].status == order.status
    requires action == LogPaymentSucceeded || action == LogMarkPaid
    ensures var r := Activate(db, order, now, subID, actor, action);
            Kept(Or(r, db).subs,
                 if order.userID in db.users && (order.status == Pending || order.status == Failed) then marks[order.userID := Some(now)]
                 else marks, now)
  {
    hide Kept, Sound, OrderStep, NewSubscription, BillingDuration;
    ActivateStep(db, order, now, subID, actor, action);
    BillingNotNegative(order.billingCycle);
    NewPromise(subID, order.userID, order.planSlug, now, BillingDuration(order.billingCycle));
    KeptPut(db.subs, marks, now, order.userID,
            NewSubscription(subID, order.userID, order.planSlug, now, BillingDuration(order.billingCycle)), Some(now));
  }

  lemma RefundKept(db: Db, marks: Marks, order: Order, now: Time, actor: string, action: AuditAction, reason: string)
    requires Kept(db.subs, marks, now)
    ensures var r := Refund(db, order, now, actor, action, reason);
            Kept(Or(r, db).subs, if order.status == Paid && RefundMatches(db, order) then marks[order.userID := Some(now)] else marks, now)
  {
    hide Kept;
    if order.status == Paid && RefundMatches(db, order) {
      KeptPut(db.subs, marks, now, order.userID, Retained(db.subs[order.userID], now), Some(now));
    }
  }

  lemma FailKept(db: Db, ev: Event, order: Order, now: Time)
    ensures OrIgnored(Fail(db, order, now, SYSTEM, LogPaymentFailed, FailureReason(ev)), db, LogFailedIgnored, order.id).subs == db.subs
  {
    hide FailureReason, Fail;
    var r := Fail(db, order, now, SYSTEM, LogPaymentFailed, FailureReason(ev));
    FailWithin(db, order, now, SYSTEM, LogPaymentFailed, FailureReason(ev));
    assert r.Ok? ==> SamePart(db, r.value, Subs);
  }

  lemma CancelKept(db: Db, ev: Event, order: Order, now: Time)
    ensures OrIgnored(Cancel(db, order, now, SYSTEM, LogPaymentCancelled, ev.cancelReason), db, LogCancelledIgnored, order.id).subs == db.subs
  {
    hide Cancel;
    var r := Cancel(db, order, now, SYSTEM, LogPaymentCancelled, ev.cancelReason);
    CancelWithin(db, order, now, SYSTEM, LogPaymentCancelled, ev.cancelReason);
    assert r.Ok? ==> SamePart(db, r.value, Subs);
  }

  lemma IgnoredKept(r: Result<Db>, db: Db, action: AuditAction, id: Id)
    ensures OrIgnored(r, db, action, id).subs == Or(r, db).subs
  {
  }

  lemma SettleKept(db: Db, marks: Marks, ev: Event, id: Id, now: Time, subID: Id)
    requires Kept(db.subs, marks, now) && Sound(db) && id in db.orders && db.orders[id].id == id
    ensures var order := db.orders[id];
            Kept(Settle(db, ev, order, now, subID).subs,
                 if order.userID in db.users && EventRenews(db, ev, order) then marks[order.userID := Some(now)] else marks, now)
  {
    hide Kept, Sound, Activate, Fail, Cancel, Refund, KindOf, FailureReason, RefundMatches, OrIgnored, Or;
    var order := db.orders[id];
    match KindOf(ev.eventType)
    case Succeeded =>
      ActivateKept(db, marks, order, now, subID, SYSTEM, LogPaymentSucceeded);
      IgnoredKept(Activate(db, order, now, subID, SYSTEM, LogPaymentSucceeded), db, LogSucceededIgnored, id);
    case RefundedEvent =>
      RefundKept(db, marks, order, now, SYSTEM, LogPaymentRefunded, ev.refundReason);
      IgnoredKept(Refund(db, order, now, SYSTEM, LogPaymentRefunded, ev.refundReason), db, LogRefundedIgnored, id);
      if RefundMatches(db, order) {
        MatchedUser(db, order);
      }
    case CancelledEvent => CancelKept(db, ev, order, now);
    case OtherEvent =>
    case _ => FailKept(db, ev, order, now);
  }

  lemma MatchedUser(db: Db, order: Order)
    requires Sound(db) && RefundMatches(db, order)
    ensures order.userID in db.users
  {
  }

  lemma WebhookKept(db: Db, marks: Marks, ev: Event, found: Option<Id>, now: Time, subID: Id)
    requires Kept(db.subs, marks, now) && Sound(db) && (found.Some? ==> found.value in db.orders)
    ensures Kept(Webhook(db, ev, found, now, subID).subs,
                 if ev.id !in db.webhooks && found.Some? && db.orders[found.value].userID in db.users
                    && EventRenews(db, ev, db.orders[found.value])
                 then marks[db.orders[found.value].userID := Some(now)] else marks, now)
  {
    hide Kept, Sound, Settle, KindOf;
    if ev.id !in db.webhooks && found.Some? {
      var marked := db.(webhooks := db.webhooks + {ev.id});
      PutLogs(db, db.plans, db.redemptions, marked.webhooks, db.riskEvents, db.auditLogs);
      OrderFiled(db, found.value);
      SettleKept(marked, marks, ev, found.value, now, subID);
    }
  }

  lemma MarkPaidKept(db: Db, marks: Marks, orderID: Id, reason: string, now: Time, subID: Id)
    requires Kept(db.subs, marks, now) && Sound(db)
    ensures Kept(Or(MarkPaid(db, orderID, reason, now, subID), db).subs,
                 if Payable(db, orderID, reason) && db.orders[orderID].userID in db.users
                 then marks[db.orders[orderID].userID := Some(now)] else marks, now)
  {
    hide Kept, Sound, Activate, TrimSpace;
    if orderID in db.orders && TrimSpace(reason) != "" {
      OrderFiled(db, orderID);
      ActivateKept(db, marks, db.orders[orderID].(operatorNote := TrimSpace(reason)), now, subID, ADMIN, LogMarkPaid);
    }
  }

  lemma AdminRefundKept(db: Db, marks: Marks, orderID: Id, reason: string, now: Time)
    requires Kept(db.subs, marks, now)
    ensures Kept(Or(AdminRefund(db, orderID, reason, now), db).subs,
                 if Refundable(db, orderID, reason) then marks[db.orders[orderID].userID := Some(now)] else marks, now)
  {
    hide Kept, Refund, TrimSpace;
    if orderID in db.orders && TrimSpace(reason) != "" {
      RefundKept(db, marks, db.orders[orderID].(operatorNote := TrimSpace(reason)), now, ADMIN, LogOrderRefund, TrimSpace(reason));
    }
  }

  lemma PurgeKept(db: Db, marks: Marks, now: Time, order: seq<Id>)
    requires Kept(db.subs, marks, now)
    ensures Kept(Purge(db, now, order).subs, marks, now)
  {
    hide Kept, DropImages, ClearUsage, ClearPlans, MarkDeleted;
    KeptPurge(db.subs, marks, now, Doomed(db, now));
  }

  lemma QuietSubs(db: Db, s: Step)
    requires Legal(db, s) && Subs !in Writes(s.action)
    ensures Next(db, s).subs == db.subs
  {
    hide Next, Legal, Writes;
    NextKeeps(db, s, Subs);
  }

  lemma UnsavedSubs(db: Db, s: Step)
    requires Legal(db, s) && !s.saved
    ensures Next(db, s).subs == db.subs
  {
    hide Effect, Legal;
    if KeepsWrites(s.action) {
      QuietSubs(db, s);
    }
  }

  lemma KeptOrders(db: Db, marks: Marks, s: Step)
    requires Kept(db.subs, marks, s.now) && Sound(db) && Legal(db, s) && s.saved
    requires s.action.DoMarkPaid? || s.action.DoRefund?
    ensures Kept(Next(db, s).subs, Marked(marks, db, s), s.now)
  {
    hide Kept, Sound, MarkPaid, AdminRefund, Payable, Refundable, Or;
    match s.action
    case DoMarkPaid(orderID, reason, subID) => MarkPaidKept(db, marks, orderID, reason, s.now, subID);
    case DoRefund(orderID, reason) => AdminRefundKept(db, marks, orderID, reason, s.now);
  }

  lemma KeptWebhook(db: Db, marks: Marks, s: Step)
    requires Kept(db.subs, marks, s.now) && Sound(db) && Legal(db, s) && s.saved && s.action.DoWebhook?
    ensures Kept(Next(db, s).subs, Marked(marks, db, s), s.now)
  {
    hide Kept, Sound, Webhook, EventRenews, Payable, Refundable, Found;
    MatchExists(db, s.action.ev, s.action.found);
    WebhookKept(db, marks, s.action.ev, s.action.found, s.now, s.action.subID);
  }

  lemma KeptGrants(db: Db, marks: Marks, s: Step)
    requires Kept(db.subs, marks, s.now) && Sound(db) && Legal(db, s) && s.saved
    requires s.action.DoGrantPlan? || s.action.DoExpire?
    ensures Kept(Next(db, s).subs, Marked(marks, db, s), s.now)
  {
    hide Kept, Sound, GrantPlan, ExpireSubscription, RedeemInvite, DaysDuration, FoundUser;
    match s.action
    case DoGrantPlan(found, name, slug, days, reason, subID) =>
      FoundExists(db, name, found);
      GrantKept(db, marks, found, slug, days, reason, subID, s.now);
    case DoExpire(userID, reason, days, deleteNow) => ExpireKept(db, marks, userID, reason, days, deleteNow, s.now);
  }

  lemma KeptRedeem(db: Db, marks: Marks, s: Step)
    requires Kept(db.subs, marks, s.now) && Sound(db) && Legal(db, s) && s.saved && s.action.DoRedeem?
    ensures Kept(Next(db, s).subs, Marked(marks, db, s), s.now)
  {
    hide Kept, Sound, RedeemInvite;
    var a := s.action;
    RedeemKept(db, marks, a.code, a.userID, a.ip, a.device, a.isNewUser, a.redemptionID, a.subID, s.now);
  }

  lemma KeptAccounts(db: Db, marks: Marks, s: Step)
    requires Kept(db.subs, marks, s.now) && Sound(db) && Legal(db, s) && s.saved
    requires s.action.DoRegister? || s.action.DoOAuthLogin?
    ensures Kept(Next(db, s).subs, Marked(marks, db, s), s.now)
  {
    hide Kept, Sound, Register, OAuthLogin, EmailTaken, Or;
    match s.action
    case DoRegister(userID, rawEmail, nickname, subID) => RegisterKept(db, marks, userID, rawEmail, nickname, subID, s.now);
    case DoOAuthLogin(found, userID, rawEmail, nickname, verified, subID) =>
      OAuthLoginKept(db, marks, found, userID, rawEmail, nickname, verified, subID, s.now);
  }

  lemma KeptPurged(db: Db, marks: Marks, s: Step)
    requires Kept(db.subs, marks, s.now) && Sound(db) && Legal(db, s) && s.saved && s.action.DoPurge?
    ensures Kept(Next(db, s).subs, Marked(marks, db, s), s.now)
  {
    hide Kept, Sound, Purge, Enumerates;
    PurgeKept(db, marks, s.now, s.action.order);
  }

  lemma KeptEffect(db: Db, marks: Marks, s: Step)
    requires Kept(db.subs, marks, s.now) && Sound(db) && Legal(db, s) && s.saved
    ensures Kept(Next(db, s).subs, Marked(marks, db, s), s.now)
  {
    hide Kept, Sound, Legal, Next, Marked;
    match s.action
    case DoRegister(_, _, _, _) => KeptAccounts(db, marks, s);
    case DoOAuthLogin(_, _, _, _, _, _) => KeptAccounts(db, marks, s);
    case DoGrantPlan(_, _, _, _, _, _) => KeptGrants(db, marks, s);
    case DoExpire(_, _, _, _) => KeptGrants(db, marks, s);
    case DoRedeem(_, _, _, _, _, _, _) => KeptRedeem(db, marks, s);
    case DoWebhook(_, _, _) => KeptWebhook(db, marks, s);
    case DoMarkPaid(_, _, _) => KeptOrders(db, marks, s);
    case DoRefund(_, _) => KeptOrders(db, marks, s);
    case DoPurge(_) => KeptPurged(db, marks, s);
    case _ => QuietSubs(db, s); UnmarkedAction(marks, db, s);
  }

  lemma UnmarkedAction(marks: Marks, db: Db, s: Step)
    requires Legal(db, s) && Subs !in Writes(s.action)
    ensures Marked(marks, db, s) == marks
  {
    hide Legal;
  }

  lemma FoundExists(db: Db, name: string, found: Option<Id>)
    requires FoundUser(db, name, found)
    ensures found.Some? ==> found.value in db.users
  {
  }

  lemma MatchExists(db: Db, ev: Event, found: Option<Id>)
    requires Found(db, ev, found)
    ensures found.Some? ==> found.value in db.orders
  {
  }

  lemma RegisterKept(db: Db, marks: Marks, userID: Id, rawEmail: string, nickname: string, subID: Id, now: Time)
    requires Kept(db.subs, marks, now)
    ensures Kept(Or(Register(db, userID, rawEmail, nickname, subID, now), db).subs,
                 if EmailTaken(db, Normalize(rawEmail)) then marks else marks[userID := Some(now)], now)
  {
    hide Kept, NewAccount, EmailTaken, Normalize, TrimSpace;
    var name := if TrimSpace(nickname) == "" then "user" else nickname;
    AccountKept(db, marks, User(userID, Normalize(rawEmail), name, false, false, "go", false, now), subID, now);
  }

  lemma OAuthLoginKept(db: Db, marks: Marks, found: Option<Id>, userID: Id, rawEmail: string, nickname: string, verified: bool,
                       subID: Id, now: Time)
    requires Kept(db.subs, marks, now) && (found.Some? ==> found.value in db.users)
    ensures Kept(OAuthLogin(db, found, userID, rawEmail, nickname, verified, subID, now).subs,
                 if found.None? then marks[userID := Some(now)] else marks, now)
  {
    hide Kept, NewAccount, Normalize, TrimSpace;
    AccountKept(db, marks, User(userID, Normalize(rawEmail), nickname, verified, true, "go", false, now), subID, now);
  }

  // ---------------------------------------------------------------- whole runs

  ghost function MarksAfter(marks: Marks, db: Db, clock: Time, steps: seq<Step>): Marks
    requires LegalRun(db, clock, steps)
    decreases |steps|
  {
    if steps == [] then marks else MarksAfter(Marked(marks, db, steps[0]), Next(db, steps[0]), steps[0].now, steps[1..])
  }

  function ClockAfter(clock: Time, steps: seq<Step>): Time {
    if steps == [] then clock else steps[|steps| - 1].now
  }

  lemma {:induction false} KeptRun(db: Db, marks: Marks, clock: Time, steps: seq<Step>)
    requires Sound(db) && LegalRun(db, clock, steps) && Kept(db.subs, marks, clock)
    ensures Sound(Run(db, clock, steps))
    ensures Kept(Run(db, clock, steps).subs, MarksAfter(marks, db, clock, steps), ClockAfter(clock, steps))
    decreases |steps|
  {
    hide Sound, Kept, Effect, Legal, Marked, Next;
    if steps != [] {
      var s := steps[0];
      SoundNext(db, s);
      KeptLater(db.subs, marks, clock, s.now);
      if s.saved {
        KeptEffect(db, marks, s);
      } else {
        UnsavedSubs(db, s);
        UnsavedMarks(marks, db, s);
      }
      KeptRun(Next(db, s), Marked(marks, db, s), s.now, steps[1..]);
    }
  }

  lemma UnsavedMarks(marks: Marks, db: Db, s: Step)
    requires Legal(db, s) && !s.saved
    ensures Marked(marks, db, s) == marks
  {
    hide Legal;
  }

  /** A purge deletes the images of a user only after an admin expiry or an overflowing grant, or more than 30 days
      after the user's latest registration, payment activation, grant, redemption or matching refund. */
  lemma RetentionRespected(plans: seq<Plan>, invites: map<string, InviteCampaign>, hotlink: Hotlink, integrations: string,
                           clock: Time, steps: seq<Step>, now: Time, p: Id)
    requires KeyedBy(invites, InviteKey)
    requires LegalRun(Start(plans, invites, hotlink, integrations), clock, steps) && ClockAfter(clock, steps) <= now
    requires p in Purged(Run(Start(plans, invites, hotlink, integrations), clock, steps), now)
    ensures var start := Start(plans, invites, hotlink, integrations);
            var marks := MarksAfter(map[], start, clock, steps);
            var u := Run(start, clock, steps).images[p].userID;
            u in marks && (marks[u].None? || now > marks[u].value + RETENTION)
  {
    hide Run, LegalRun, Sound, MarksAfter;
    var start := Start(plans, invites, hotlink, integrations);
    SoundStart(plans, invites, hotlink, integrations);
    KeptRun(start, map[], clock, steps);
    var db := Run(start, clock, steps);
    var u := db.images[p].userID;
    assert Promised(db.subs[u], MarksAfter(map[], start, clock, steps)[u], ClockAfter(clock, steps));
  }

  /** A purge deletes exactly the remaining images of the users whose subscription is effectively deleted... */
  lemma PurgeExact(db: Db, now: Time, order: seq<Id>)
    ensures Purge(db, now, order).images.Keys == db.images.Keys
    ensures forall p <- db.images ::
              Purge(db, now, order).images[p]
              == if p in Purged(db, now) then db.images[p].(status := ImageDeleted) else db.images[p]
  {
    hide MarkDeleted, ClearUsage, ClearPlans, Doomed;
  }

  /** ...so running it again lists no objects. */
  lemma PurgeAgain(db: Db, now: Time, order: seq<Id>, listed: seq<(Id, string)>)
    requires Listed(Purge(db, now, order), now, listed)
    ensures listed == []
  {
    hide Purge;
    if listed != [] {
      var first := listed[0];
      NoneLeft(db, now, order);
      assert false;
    }
  }

  lemma NoneLeft(db: Db, now: Time, order: seq<Id>)
    ensures Purged(Purge(db, now, order), now) == {}
  {
    hide Purge;
    PurgeExact(db, now, order);
    DoomedStay(db, now, order);
  }

  lemma DoomedStay(db: Db, now: Time, order: seq<Id>)
    ensures Doomed(Purge(db, now, order), now) == Doomed(db, now)
  {
  }
}
