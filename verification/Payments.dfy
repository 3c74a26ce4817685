/** Money and subscriptions counted by what happens to the orders, without the help of the audit log. */
module PaymentRuns {
  import opened Text
  import opened Domain
  import opened Db
  import opened Sums
  import opened Orders
  import opened Handlers
  import opened Actions
  import opened Frames
  import opened Soundness
  import opened Billing

  predicate EntersPaid(db: Db, next: Db, id: Id) {
    id in db.orders && id in next.orders && db.orders[id].status != Paid && next.orders[id].status == Paid
  }

  /** By a refund, or by a late refusal. */
  predicate LeavesPaid(db: Db, next: Db, id: Id) {
    id in db.orders && id in next.orders && db.orders[id].status == Paid && next.orders[id].status != Paid
  }

  /** The money a step moves: the amount of the order that enters paid, less that of the order that leaves it. */
  function Moved(db: Db, next: Db, touched: Option<Id>): int {
    if touched.None? then 0
    else if EntersPaid(db, next, touched.value) then next.orders[touched.value].amountCent
    else if LeavesPaid(db, next, touched.value) then -db.orders[touched.value].amountCent
    else 0
  }

  /** At most one order is written, its amount kept if it is there, and a new one is not paid yet. */
  predicate OneWritten(db: Db, next: Db, touched: Option<Id>) {
    next.orders == db.orders ||
    (touched.Some? &&
      var id := touched.value;
      && id in next.orders && next.orders == db.orders[id := next.orders[id]]
      && if id in db.orders then next.orders[id].amountCent == db.orders[id].amountCent else next.orders[id].status != Paid)
  }

  lemma RevenueStep(db: Db, next: Db, touched: Option<Id>)
    requires OneWritten(db, next, touched)
    ensures Revenue(next) == Revenue(db) + Moved(db, next, touched)
  {
    hide Total, EarnedBy;
    if next.orders != db.orders {
      RevenuePut(db.orders, touched.value, next.orders[touched.value]);
    }
  }

  lemma ShapeWrites(db: Db, next: Db, touched: Option<Id>)
    requires Shape(db, next, touched)
    ensures OneWritten(db, next, touched)
  {
    hide Entries, Quiet;
  }

  lemma NextWrites(db: Db, s: Step)
    requires Sound(db) && Legal(db, s)
    ensures OneWritten(db, Next(db, s), Touched(s))
  {
    hide Sound, Shape, OneWritten, Effect, Legal, Orderly;
    if Orderly(db, s) {
      NextShape(db, s);
      ShapeWrites(db, Next(db, s), Touched(s));
    } else {
      LateRefusal(db, s);
      RefusalWrites(db, s);
    }
  }

  lemma RefusalWrites(db: Db, s: Step)
    requires Sound(db) && Legal(db, s) && s.action.DoRefusePayment?
    ensures OneWritten(db, Next(db, s), Touched(s))
  {
    OrderFiled(db, s.action.orderID);
    hide Sound;
  }

  lemma LateRefusal(db: Db, s: Step)
    requires !Orderly(db, s)
    ensures s.action.DoRefusePayment? && s.action.orderID in db.orders
    ensures db.orders[s.action.orderID].status != Pending && db.orders[s.action.orderID].status != Failed
  {
  }

  ghost function MovedOver(db: Db, clock: Time, steps: seq<Step>): int
    requires LegalRun(db, clock, steps)
    decreases |steps|
  {
    if steps == [] then 0
    else Moved(db, Next(db, steps[0]), Touched(steps[0])) + MovedOver(Next(db, steps[0]), steps[0].now, steps[1..])
  }

  lemma NextShape(db: Db, s: Step)
    requires Sound(db) && Legal(db, s) && Orderly(db, s)
    ensures Shape(db, Next(db, s), Touched(s))
  {
    hide Sound, Effect, Legal, OrderStep, Orderly;
    ShapeEffect(db, s);
    if !s.saved && !KeepsWrites(s.action) {
      QuietEqual(db, Next(db, s));
    }
  }

  /** Over every run, late refusals included, revenue_cent gains the amounts of the orders that enter paid and loses
      those of the orders that leave it, and nothing else. */
  lemma {:induction false} MoneyConserved(db: Db, clock: Time, steps: seq<Step>)
    requires Sound(db) && LegalRun(db, clock, steps)
    ensures Revenue(Run(db, clock, steps)) == Revenue(db) + MovedOver(db, clock, steps)
    decreases |steps|
  {
    hide Sound, Next, Legal, OneWritten, Revenue, Moved;
    if steps != [] {
      NextWrites(db, steps[0]);
      RevenueStep(db, Next(db, steps[0]), Touched(steps[0]));
      SoundNext(db, steps[0]);
      MoneyConserved(Next(db, steps[0]), steps[0].now, steps[1..]);
    }
  }

  /** How often the order enters paid. */
  ghost function Payments(db: Db, clock: Time, steps: seq<Step>, id: Id): nat
    requires LegalRun(db, clock, steps)
    decreases |steps|
  {
    if steps == [] then 0
    else (if EntersPaid(db, Next(db, steps[0]), id) then 1 else 0) + Payments(Next(db, steps[0]), steps[0].now, steps[1..], id)
  }

  /** Whether it still may. */
  predicate MayBePaid(db: Db, id: Id) {
    id !in db.orders || db.orders[id].status == Pending || db.orders[id].status == Failed
  }

  lemma MayBePaidStep(db: Db, next: Db, touched: Option<Id>, id: Id)
    requires Shape(db, next, touched)
    ensures EntersPaid(db, next, id) ==> MayBePaid(db, id) && !MayBePaid(next, id)
    ensures MayBePaid(next, id) ==> MayBePaid(db, id)
  {
    hide Entries, Quiet;
  }

  /** Without late refusals no order is ever paid twice. */
  lemma {:induction false} PaidOnce(db: Db, clock: Time, steps: seq<Step>, id: Id)
    requires Sound(db) && LegalRun(db, clock, steps) && OrderlyRun(db, clock, steps)
    ensures Payments(db, clock, steps, id) <= if MayBePaid(db, id) then 1 else 0
    decreases |steps|
  {
    hide Sound, Next, Legal, Orderly, Shape, EntersPaid, MayBePaid;
    if steps != [] {
      NextShape(db, steps[0]);
      MayBePaidStep(db, Next(db, steps[0]), Touched(steps[0]), id);
      SoundNext(db, steps[0]);
      PaidOnce(Next(db, steps[0]), steps[0].now, steps[1..], id);
    }
  }

  predicate IsRefunded(db: Db, next: Db, id: Id) {
    LeavesPaid(db, next, id) && next.orders[id].status == Refunded
  }

  /** What a step may do to the subscriptions: the order that enters paid starts one for its owner, the order that
      is refunded ends its owner's if that still carries the order's plan, and nothing else moves any. */
  function SubsAfter(db: Db, next: Db, id: Id, now: Time, subID: Id): map<Id, Subscription> {
    if EntersPaid(db, next, id) then
      var o := db.orders[id];
      db.subs[o.userID := NewSubscription(subID, o.userID, o.planSlug, now, BillingDuration(o.billingCycle))]
    else if IsRefunded(db, next, id) && RefundMatches(db, db.orders[id]) then
      db.subs[db.orders[id].userID := Retained(db.subs[db.orders[id].userID], now)]
    else db.subs
  }

  predicate SubsFollow(db: Db, next: Db, id: Id, now: Time, subID: Id) {
    next.subs == SubsAfter(db, next, id, now, subID)
  }

  lemma IgnoredFollows(r: Result<Db>, db: Db, action: AuditAction, id: Id, now: Time, subID: Id)
    requires r.Ok? ==> SubsFollow(db, r.value, id, now, subID)
    ensures SubsFollow(db, OrIgnored(r, db, action, id), id, now, subID)
  {
  }

  lemma AuditedFollows(db: Db, action: AuditAction, id: Id, now: Time, subID: Id)
    ensures SubsFollow(db, Audited(db, SYSTEM, action, id), id, now, subID)
  {
  }

  lemma ActivateFollows(db: Db, order: Order, now: Time, subID: Id, actor: string, action: AuditAction)
    requires Sound(db) && order.id in db.orders
    requires SameTerms(db.orders[order.id], order) && db.orders[order.id].status == order.status
    requires action == LogPaymentSucceeded || action == LogMarkPaid
    ensures var r := Activate(db, order, now, subID, actor, action);
      r.Ok? ==> SubsFollow(db, r.value, order.id, now, subID)
  {
    hide Sound, Activate, Entries, NewSubscription, BillingDuration, RefundMatches, Retained;
    ActivateStep(db, order, now, subID, actor, action);
  }

  lemma RefundFollows(db: Db, order: Order, now: Time, actor: string, action: AuditAction, reason: string, subID: Id)
    requires order.id in db.orders
    requires SameTerms(db.orders[order.id], order) && db.orders[order.id].status == order.status
    ensures var r := Refund(db, order, now, actor, action, reason);
      r.Ok? ==> SubsFollow(db, r.value, order.id, now, subID)
  {
    hide NewSubscription, BillingDuration, Retained;
  }

  lemma FailFollows(db: Db, order: Order, now: Time, actor: string, action: AuditAction, reason: string, subID: Id)
    requires order.id in db.orders && db.orders[order.id].status == order.status
    ensures var r := Fail(db, order, now, actor, action, reason);
      r.Ok? ==> SubsFollow(db, r.value, order.id, now, subID)
    ensures var r := Cancel(db, order, now, actor, action, reason);
      r.Ok? ==> SubsFollow(db, r.value, order.id, now, subID)
  {
    hide NewSubscription, BillingDuration, Retained, RefundMatches;
  }

  lemma SettleFollows(db: Db, ev: Event, id: Id, now: Time, subID: Id)
    requires Sound(db) && id in db.orders && db.orders[id].id == id
    ensures SubsFollow(db, Settle(db, ev, db.orders[id], now, subID), id, now, subID)
  {
    hide Sound, SubsAfter, Activate, Fail, Cancel, Refund, KindOf, FailureReason, OrIgnored;
    var order := db.orders[id];
    match KindOf(ev.eventType)
    case Succeeded =>
      ActivateFollows(db, order, now, subID, SYSTEM, LogPaymentSucceeded);
      IgnoredFollows(Activate(db, order, now, subID, SYSTEM, LogPaymentSucceeded), db, LogSucceededIgnored, id, now, subID);
    case CancelledEvent =>
      FailFollows(db, order, now, SYSTEM, LogPaymentCancelled, ev.cancelReason, subID);
      IgnoredFollows(Cancel(db, order, now, SYSTEM, LogPaymentCancelled, ev.cancelReason), db, LogCancelledIgnored, id, now, subID);
    case RefundedEvent =>
      RefundFollows(db, order, now, SYSTEM, LogPaymentRefunded, ev.refundReason, subID);
      IgnoredFollows(Refund(db, order, now, SYSTEM, LogPaymentRefunded, ev.refundReason), db, LogRefundedIgnored, id, now, subID);
    case OtherEvent =>
      AuditedFollows(db, LogWebhookIgnored, id, now, subID);
    case _ =>
      FailFollows(db, order, now, SYSTEM, LogPaymentFailed, FailureReason(ev), subID);
      IgnoredFollows(Fail(db, order, now, SYSTEM, LogPaymentFailed, FailureReason(ev)), db, LogFailedIgnored, id, now, subID);
  }

  /** A payment event moves the subscriptions exactly as its order is paid or refunded. */
  lemma WebhookFollows(db: Db, ev: Event, found: Option<Id>, now: Time, subID: Id)
    requires Sound(db) && Found(db, ev, found)
    ensures var next := Webhook(db, ev, found, now, subID);
            next.subs == if found.Some? then SubsAfter(db, next, found.value, now, subID) else db.subs
  {
    hide Sound, Settle, NewSubscription, BillingDuration, Retained;
    if ev.id !in db.webhooks && found.Some? {
      var marked := db.(webhooks := db.webhooks + {ev.id});
      PutLogs(db, db.plans, db.redemptions, marked.webhooks, db.riskEvents, db.auditLogs);
      OrderFiled(marked, found.value);
      SettleFollows(marked, ev, found.value, now, subID);
    }
  }

  lemma MarkPaidFollows(db: Db, orderID: Id, reason: string, now: Time, subID: Id)
    requires Sound(db)
    ensures SubsFollow(db, Or(MarkPaid(db, orderID, reason, now, subID), db), orderID, now, subID)
  {
    hide Sound, Activate, NewSubscription, BillingDuration, Retained, RefundMatches;
    if orderID in db.orders {
      OrderFiled(db, orderID);
      ActivateFollows(db, db.orders[orderID].(operatorNote := TrimSpace(reason)), now, subID, ADMIN, LogMarkPaid);
    }
  }

  lemma AdminOrdersFollow(db: Db, orderID: Id, reason: string, now: Time, subID: Id)
    requires Sound(db)
    ensures SubsFollow(db, Or(AdminCancel(db, orderID, reason, now), db), orderID, now, subID)
    ensures SubsFollow(db, Or(AdminRefund(db, orderID, reason, now), db), orderID, now, subID)
  {
    hide Sound, Cancel, Refund, NewSubscription, BillingDuration, Retained, RefundMatches;
    if orderID in db.orders {
      OrderFiled(db, orderID);
      var order := db.orders[orderID].(operatorNote := TrimSpace(reason));
      FailFollows(db, order, now, ADMIN, LogOrderCancel, TrimSpace(reason), subID);
      RefundFollows(db, order, now, ADMIN, LogOrderRefund, TrimSpace(reason), subID);
    }
  }

  lemma CheckoutFollows(db: Db, orderID: Id, userID: Id, slug: string, cycle: string, now: Time, subID: Id)
    requires orderID !in db.orders
    ensures SubsFollow(db, Or(Checkout(db, orderID, userID, slug, cycle), db), orderID, now, subID)
  {
    hide FindPlan, TrimSpace, NewSubscription, BillingDuration, Retained, RefundMatches;
  }

  /** Not even a late refusal moves a subscription. */
  lemma AnswerFollows(db: Db, orderID: Id, paymentID: string, message: string, now: Time, subID: Id)
    requires Sound(db) && orderID in db.orders
    ensures SubsFollow(db, AttachPayment(db, orderID, paymentID), orderID, now, subID)
    ensures SubsFollow(db, RefusePayment(db, orderID, message, now), orderID, now, subID)
  {
    OrderFiled(db, orderID);
    hide Sound, NewSubscription, BillingDuration, Retained, RefundMatches;
  }

  /** The id a step would give a subscription that an order starts. */
  function SubIDOf(a: Action): Id {
    match a
    case DoWebhook(_, _, subID) => subID
    case DoMarkPaid(_, _, subID) => subID
    case _ => ""
  }

  lemma UnmovedFollows(db: Db, id: Id, now: Time, subID: Id)
    ensures SubsFollow(db, db, id, now, subID)
  {
  }

  lemma EffectFollows(db: Db, s: Step, id: Id)
    requires Sound(db) && Legal(db, s) && Touched(s) == Some(id)
    ensures SubsFollow(db, Effect(db, s), id, s.now, SubIDOf(s.action))
  {
    hide Sound, Found, Or, Webhook, MarkPaid, AdminCancel, AdminRefund, Checkout, AttachPayment, RefusePayment, SubsAfter;
    match s.action
    case DoCheckout(orderID, userID, slug, cycle) => CheckoutFollows(db, orderID, userID, slug, cycle, s.now, "");
    case DoAttachPayment(orderID, paymentID) => AnswerFollows(db, orderID, paymentID, "", s.now, "");
    case DoRefusePayment(orderID, message) => AnswerFollows(db, orderID, "", message, s.now, "");
    case DoWebhook(ev, found, subID) => WebhookFollows(db, ev, found, s.now, subID);
    case DoMarkPaid(orderID, reason, subID) => MarkPaidFollows(db, orderID, reason, s.now, subID);
    case DoCancel(orderID, reason) => AdminOrdersFollow(db, orderID, reason, s.now, "");
    case DoRefund(orderID, reason) => AdminOrdersFollow(db, orderID, reason, s.now, "");
  }

  /** Every step on behalf of an order moves the subscriptions exactly as that order is paid or refunded. */
  lemma OrderFollows(db: Db, s: Step, id: Id)
    requires Sound(db) && Legal(db, s) && Touched(s) == Some(id)
    ensures SubsFollow(db, Next(db, s), id, s.now, SubIDOf(s.action))
  {
    hide Sound, Effect, Legal, SubsAfter;
    UnmovedFollows(db, id, s.now, SubIDOf(s.action));
    if s.saved || KeepsWrites(s.action) {
      EffectFollows(db, s, id);
    }
  }

  /** The owner of the order gets another subscription: one with another id, start or plan. */
  predicate Starts(db: Db, next: Db, id: Id) {
    && id in next.orders
    && var u := next.orders[id].userID;
       && u in next.subs
       && (u in db.subs ==> var was, now := db.subs[u], next.subs[u];
                            was.id != now.id || was.startsAt != now.startsAt || was.planSlug != now.planSlug)
  }

  /** Only the payment of the order starts one. */
  lemma StartsPaid(db: Db, s: Step, id: Id)
    requires Sound(db) && Legal(db, s) && Touched(s) == Some(id)
    ensures Starts(db, Next(db, s), id) ==> EntersPaid(db, Next(db, s), id)
  {
    hide Sound, Legal, Next, Shape, Touched, NewSubscription, BillingDuration, SubIDOf;
    OrderFollows(db, s, id);
  }

  /** How many subscriptions steps on behalf of the order start. */
  ghost function StartsOver(db: Db, clock: Time, steps: seq<Step>, id: Id): nat
    requires LegalRun(db, clock, steps)
    decreases |steps|
  {
    if steps == [] then 0
    else
      (if Touched(steps[0]) == Some(id) && Starts(db, Next(db, steps[0]), id) then 1 else 0) +
      StartsOver(Next(db, steps[0]), steps[0].now, steps[1..], id)
  }

  lemma {:induction false} StartsPaidOver(db: Db, clock: Time, steps: seq<Step>, id: Id)
    requires Sound(db) && LegalRun(db, clock, steps)
    ensures StartsOver(db, clock, steps, id) <= Payments(db, clock, steps, id)
    decreases |steps|
  {
    hide Sound, Next, Legal, Starts, EntersPaid, Touched;
    if steps != [] {
      if Touched(steps[0]) == Some(id) {
        StartsPaid(db, steps[0], id);
      }
      SoundNext(db, steps[0]);
      StartsPaidOver(Next(db, steps[0]), steps[0].now, steps[1..], id);
    }
  }

  /** Without late refusals every order starts at most one subscription, whatever events with fresh ids arrive and
      whatever the admin does, and none at all from a state in which it is paid, cancelled or refunded. */
  lemma StartsOnce(db: Db, clock: Time, steps: seq<Step>, id: Id)
    requires Sound(db) && LegalRun(db, clock, steps) && OrderlyRun(db, clock, steps)
    ensures StartsOver(db, clock, steps, id) <= if MayBePaid(db, id) then 1 else 0
  {
    hide Sound, LegalRun, OrderlyRun, StartsOver, Payments, MayBePaid;
    StartsPaidOver(db, clock, steps, id);
    PaidOnce(db, clock, steps, id);
  }

  /** On a server started empty. */
  lemma StartsOnceFromStart(plans: seq<Plan>, invites: map<string, InviteCampaign>, hotlink: Hotlink, integrations: string,
                            clock: Time, steps: seq<Step>, id: Id)
    requires KeyedBy(invites, InviteKey)
    requires LegalRun(Start(plans, invites, hotlink, integrations), clock, steps)
    requires OrderlyRun(Start(plans, invites, hotlink, integrations), clock, steps)
    ensures StartsOver(Start(plans, invites, hotlink, integrations), clock, steps, id) <= 1
  {
    hide Sound, LegalRun, OrderlyRun, StartsOver, MayBePaid;
    SoundStart(plans, invites, hotlink, integrations);
    StartsOnce(Start(plans, invites, hotlink, integrations), clock, steps, id);
  }

  function Refusal(id: Id, message: string, now: Time): Step {
    Step(DoRefusePayment(id, message), now, true)
  }

  function Success(ev: Event, id: Id, subID: Id, now: Time): Step {
    Step(DoWebhook(ev, Some(id), subID), now, true)
  }

  lemma RefusalOpens(db: Db, id: Id, message: string, now: Time)
    requires Sound(db) && id in db.orders
    ensures Legal(db, Refusal(id, message, now))
    ensures var next := Next(db, Refusal(id, message, now));
            && id in next.orders && next.orders[id] == db.orders[id].(status := Failed, failedAt := Some(now), operatorNote := message)
            && next.users == db.users && next.subs == db.subs && next.webhooks == db.webhooks
  {
    OrderFiled(db, id);
    hide Sound, Next, Legal;
    RefusalNext(db, id, message, now);
  }

  lemma RefusalNext(db: Db, id: Id, message: string, now: Time)
    requires id in db.orders
    ensures Legal(db, Refusal(id, message, now))
    ensures Next(db, Refusal(id, message, now)) == RefusePayment(db, id, message, now)
  {
    hide RefusePayment;
  }

  lemma ActivatePays(db: Db, order: Order, now: Time, subID: Id, actor: string, action: AuditAction)
    requires order.status == Pending || order.status == Failed
    requires order.userID in db.users
    ensures var r := Activate(db, order, now, subID, actor, action);
            r.Ok? && order.id in r.value.orders && r.value.orders[order.id].status == Paid
  {
    hide NewSubscription, BillingDuration;
  }

  /** A success event settles an open order of a known user. */
  lemma WebhookPays(db: Db, ev: Event, id: Id, subID: Id, now: Time)
    requires id in db.orders && db.orders[id].id == id && db.orders[id].userID in db.users
    requires db.orders[id].status == Pending || db.orders[id].status == Failed
    requires ev.id !in db.webhooks && KindOf(ev.eventType) == Succeeded
    ensures EntersPaid(db, Webhook(db, ev, Some(id), now, subID), id)
  {
    hide KindOf, Activate;
    ActivatePays(db.(webhooks := db.webhooks + {ev.id}), db.orders[id], now, subID, SYSTEM, LogPaymentSucceeded);
  }

  lemma SuccessNext(db: Db, ev: Event, id: Id, subID: Id, now: Time)
    requires id in db.orders && db.orders[id].id == id && ev.orderID == id
    ensures Legal(db, Success(ev, id, subID, now)) && Touched(Success(ev, id, subID, now)) == Some(id)
    ensures Next(db, Success(ev, id, subID, now)) == Webhook(db, ev, Some(id), now, subID)
  {
    hide Webhook;
  }

  /** The subscription an order starts shows by its new id. */
  lemma SuccessStarts(db: Db, ev: Event, id: Id, subID: Id, now: Time)
    requires Sound(db) && id in db.orders && db.orders[id].userID in db.users
    requires db.orders[id].status == Pending || db.orders[id].status == Failed
    requires ev.id !in db.webhooks && ev.orderID == id && KindOf(ev.eventType) == Succeeded
    requires db.orders[id].userID in db.subs ==> db.subs[db.orders[id].userID].id != subID
    ensures Legal(db, Success(ev, id, subID, now)) && Touched(Success(ev, id, subID, now)) == Some(id)
    ensures var next := Next(db, Success(ev, id, subID, now)); EntersPaid(db, next, id) && Starts(db, next, id)
  {
    OrderFiled(db, id);
    hide Sound, Legal, Next, Touched, KindOf, Webhook, EntersPaid, Starts;
    SuccessNext(db, ev, id, subID, now);
    WebhookPays(db, ev, id, subID, now);
    WebhookTerms(db, ev, id, subID, now);
    WebhookFollows(db, ev, Some(id), now, subID);
    PaidStarts(db, Webhook(db, ev, Some(id), now, subID), id, subID, now);
  }

  lemma PaidStarts(db: Db, next: Db, id: Id, subID: Id, now: Time)
    requires EntersPaid(db, next, id) && SubsFollow(db, next, id, now, subID) && SameTerms(db.orders[id], next.orders[id])
    requires db.orders[id].userID in db.subs ==> db.subs[db.orders[id].userID].id != subID
    ensures Starts(db, next, id)
  {
    hide BillingDuration;
  }

  lemma WebhookTerms(db: Db, ev: Event, id: Id, subID: Id, now: Time)
    requires Sound(db) && id in db.orders && ev.orderID == id
    ensures var next := Webhook(db, ev, Some(id), now, subID); id in next.orders && SameTerms(db.orders[id], next.orders[id])
  {
    hide Sound, Webhook, Entries, Quiet;
    OrderFiled(db, id);
    WebhookStep(db, ev, Some(id), now, subID);
  }

  lemma TwoSteps(db: Db, a: Step, b: Step, id: Id)
    requires Legal(db, a) && Legal(Next(db, a), b) && a.now <= b.now
    ensures LegalRun(db, a.now, [a, b])
    ensures Payments(db, a.now, [a, b], id)
            == (if EntersPaid(db, Next(db, a), id) then 1 else 0) + (if EntersPaid(Next(db, a), Next(Next(db, a), b), id) then 1 else 0)
    ensures StartsOver(db, a.now, [a, b], id)
            == (if Touched(a) == Some(id) && Starts(db, Next(db, a), id) then 1 else 0)
               + (if Touched(b) == Some(id) && Starts(Next(db, a), Next(Next(db, a), b), id) then 1 else 0)
  {
    hide Legal, Next, EntersPaid, Starts, Touched;
    var mid := Next(db, a);
    assert [a, b][1..] == [b] && [b][1..] == [];
    assert LegalRun(mid, a.now, [b]);
    assert Payments(mid, a.now, [b], id) == if EntersPaid(mid, Next(mid, b), id) then 1 else 0;
    assert StartsOver(mid, a.now, [b], id) == if Touched(b) == Some(id) && Starts(mid, Next(mid, b), id) then 1 else 0;
  }

  /** What a late refusal leads to, in every state: the next success event pays the settled order again and starts
      its owner another subscription. */
  lemma LateRefusalPaysAgain(db: Db, id: Id, message: string, late: Time, ev: Event, subID: Id, now: Time)
    requires Sound(db) && id in db.orders && db.orders[id].userID in db.users && late <= now
    requires !MayBePaid(db, id)
    requires ev.id !in db.webhooks && ev.orderID == id && KindOf(ev.eventType) == Succeeded
    requires db.orders[id].userID in db.subs ==> db.subs[db.orders[id].userID].id != subID
    ensures var steps := [Refusal(id, message, late), Success(ev, id, subID, now)];
            && LegalRun(db, late, steps) && !Orderly(db, steps[0])
            && Payments(db, late, steps, id) == 1 && StartsOver(db, late, steps, id) == 1
  {
    hide Sound, Legal, Next, Payments, StartsOver, LegalRun, KindOf, Touched;
    var a, b := Refusal(id, message, late), Success(ev, id, subID, now);
    RefusalOpens(db, id, message, late);
    SoundNext(db, a);
    var mid := Next(db, a);
    SuccessStarts(mid, ev, id, subID, now);
    TwoSteps(db, a, b, id);
    assert !EntersPaid(db, mid, id) && !Starts(db, mid, id);
  }
}
