/** The counterexamples are reached: runs from an empty server that lead to them. */
module Scenarios {
  import opened Text
  import opened Domain
  import opened Db
  import opened Orders
  import opened Handlers
  import opened Actions
  import opened Soundness
  import opened Billing
  import opened PaymentRuns
  import opened LedgerRuns
  import opened UploadRuns

  function Picture(pid: Id, u: Id, bytes: nat): Image {
    Image(pid, u, "", "", "", bytes, false, 0, 0, "", [], ImageActive, "", 0)
  }

  function Joins(u: Id, email: string): Step {
    Step(DoRegister(u, email, "", ""), 0, true)
  }

  function Files(image: Image): Step {
    Step(DoUpload(image), 0, true)
  }

  function Removes(pid: Id): Step {
    Step(DoAdminDelete(pid), 0, true)
  }

  /** Two legal and guarded runs, one after the other, make one. */
  lemma {:induction false} RunsJoin(db: Db, steps: seq<Step>, s: Step)
    requires LegalRun(db, 0, steps) && GuardedRun(db, 0, steps) && (forall i :: 0 <= i < |steps| ==> steps[i].now == 0)
    requires Legal(Run(db, 0, steps), s) && Guarded(Run(db, 0, steps), s) && s.now == 0
    ensures LegalRun(db, 0, steps + [s]) && GuardedRun(db, 0, steps + [s])
    ensures Run(db, 0, steps + [s]) == Next(Run(db, 0, steps), s)
    decreases |steps|
  {
    hide Legal, Next, Guarded;
    var all := steps + [s];
    if steps == [] {
      assert all == [s] && all[0] == s && all[1..] == [];
      assert LegalRun(Next(db, s), 0, all[1..]) && Run(Next(db, s), 0, all[1..]) == Next(db, s);
    } else {
      assert all[0] == steps[0] && all[1..] == steps[1..] + [s];
      RunsJoin(Next(db, steps[0]), steps[1..], s);
    }
  }

  lemma AfterJoining(plans: seq<Plan>, hotlink: Hotlink, integrations: string, u: Id, email: string)
    ensures var db := Start(plans, map[], hotlink, integrations);
            && LegalRun(db, 0, [Joins(u, email)]) && GuardedRun(db, 0, [Joins(u, email)])
            && var next := Run(db, 0, [Joins(u, email)]);
               u in next.users && next.images == map[] && next.orders == map[] && next.webhooks == {} && next.plans == plans
               && Sound(next) && Ledger(next)
               && u in next.usage && next.usage[u] == NO_USAGE && u in next.subs && next.subs[u].planSlug == "go"
  {
    hide Legal, Next, Sound, Ledger, Normalize, TrimSpace;
    var db := Start(plans, map[], hotlink, integrations);
    var s := Joins(u, email);
    JoiningStep(plans, hotlink, integrations, u, email);
    SoundStart(plans, map[], hotlink, integrations);
    NothingOwned(db);
    assert LegalRun(db, 0, []) && GuardedRun(db, 0, []) && Run(db, 0, []) == db;
    RunsJoin(db, [], s);
    assert [] + [s] == [s];
    LedgerRun(db, 0, [s]);
  }

  lemma NothingOwned(db: Db)
    requires db.usage == map[]
    ensures Ledger(db)
  {
  }

  lemma JoiningStep(plans: seq<Plan>, hotlink: Hotlink, integrations: string, u: Id, email: string)
    ensures var db := Start(plans, map[], hotlink, integrations);
            && Legal(db, Joins(u, email)) && Guarded(db, Joins(u, email))
            && var next := Next(db, Joins(u, email));
               u in next.users && next.images == map[] && next.orders == map[] && next.webhooks == {} && next.plans == plans
               && u in next.usage && next.usage[u] == NO_USAGE && u in next.subs && next.subs[u].planSlug == "go"
  {
    hide Normalize, TrimSpace;
  }

  lemma FilingStep(db: Db, image: Image)
    requires image.publicID !in db.images && image.userID in db.users && image.status == ImageActive
    ensures Legal(db, Files(image)) && Guarded(db, Files(image))
    ensures var next := Next(db, Files(image)); next.images == db.images[image.publicID := image] && next.users == db.users
  {
    hide VariantBytes;
  }

  lemma RemovingStep(db: Db, p: Id)
    requires p in db.images
    ensures Legal(db, Removes(p))
    ensures var next := Next(db, Removes(p));
            && next == AdminDelete(db, p).value
            && next.images == db.images[p := db.images[p].(status := ImageDeleted)]
  {
    hide VariantBytes;
  }

  /** Register, upload five bytes and seven, delete the five as admin: the state DeleteTwice speaks of, and deleting
      the same image again breaks the ledger. */
  lemma DeleteTwiceReached(plans: seq<Plan>, hotlink: Hotlink, integrations: string, u: Id, email: string, p: Id, q: Id)
    requires p != q
    ensures var db := Start(plans, map[], hotlink, integrations);
            var steps := [Joins(u, email)] + [Files(Picture(p, u, 5))] + [Files(Picture(q, u, 7))] + [Removes(p)];
            && LegalRun(db, 0, steps) && GuardedRun(db, 0, steps)
            && var state := Run(db, 0, steps);
               Ledger(state) && Legal(state, Removes(p)) && !Ledger(Next(state, Removes(p)))
  {
    hide Run, LegalRun, GuardedRun, Sound, Ledger, Legal, Next, AdminDelete;
    var db := Start(plans, map[], hotlink, integrations);
    AfterJoining(plans, hotlink, integrations, u, email);
    var steps1 := [Joins(u, email)];
    FilingStep(Run(db, 0, steps1), Picture(p, u, 5));
    RunsJoin(db, steps1, Files(Picture(p, u, 5)));
    var steps2 := steps1 + [Files(Picture(p, u, 5))];
    FilingStep(Run(db, 0, steps2), Picture(q, u, 7));
    RunsJoin(db, steps2, Files(Picture(q, u, 7)));
    var steps3 := steps2 + [Files(Picture(q, u, 7))];
    RemovingStep(Run(db, 0, steps3), p);
    RunsJoin(db, steps3, Removes(p));
    var steps := steps3 + [Removes(p)];
    var state := Run(db, 0, steps);
    SoundStart(plans, map[], hotlink, integrations);
    NothingOwned(db);
    LedgerRun(db, 0, steps);
    DeleteTwice(state, u, p, q);
    RemovingStep(state, p);
  }

  function Verifies(u: Id): Step {
    Step(DoVerifyEmail(u), 0, true)
  }

  lemma VerifyingStep(db: Db, u: Id)
    requires Sound(db) && u in db.users
    ensures Legal(db, Verifies(u)) && Guarded(db, Verifies(u))
    ensures var next := Next(db, Verifies(u));
            && u in next.users && next.users[u].emailVerified && next.images == db.images && next.plans == db.plans
            && next.orders == db.orders && next.webhooks == db.webhooks && next.subs == db.subs && next.usage == db.usage
  {
    hide KeyedBy, APIKeysKeyed, EmailsNormal, ImagesOwned;
    UserFiled(db, u);
  }

  function SmallPlan(): Plan {
    Plan("go", "Go", 0, 0, true, false, false, false, Quota(Some(10), None, None, None, None, None))
  }

  /** Register on a plan of ten bytes, verify the email, have two uploads of six bytes checked, then file both. */
  lemma ConcurrentUploadsReached(hotlink: Hotlink, integrations: string, u: Id, email: string, p: Id, q: Id)
    requires p != q
    ensures var db := Start([SmallPlan()], map[], hotlink, integrations);
            var steps := [Joins(u, email)] + [Verifies(u)];
            && LegalRun(db, 0, steps)
            && var before := Run(db, 0, steps);
               && Admitted(before, u, 6, 0)
               && LegalRun(before, 0, [Files(Picture(p, u, 6))])
               && var later := Run(before, 0, [Files(Picture(p, u, 6))]);
                  FreshImage(later, Picture(q, u, 6)) && StorageOf(Upload(later, Picture(q, u, 6)), u) == 12
  {
    hide Run, LegalRun, GuardedRun, Sound, Ledger, Legal, Next, Upload;
    var db := Start([SmallPlan()], map[], hotlink, integrations);
    AfterJoining([SmallPlan()], hotlink, integrations, u, email);
    var steps1 := [Joins(u, email)];
    var joined := Run(db, 0, steps1);
    JoinedActive(hotlink, integrations, u, email);
    VerifyingStep(joined, u);
    RunsJoin(db, steps1, Verifies(u));
    var steps := steps1 + [Verifies(u)];
    var before := Run(db, 0, steps);
    SoundStart([SmallPlan()], map[], hotlink, integrations);
    NothingOwned(db);
    LedgerRun(db, 0, steps);
    assert Admitted(before, u, 6, 0);
    ConcurrentUploadsOverrun(before, u, Picture(p, u, 6), Picture(q, u, 6), 0);
  }

  lemma JoinedActive(hotlink: Hotlink, integrations: string, u: Id, email: string)
    ensures var db := Start([SmallPlan()], map[], hotlink, integrations);
            && LegalRun(db, 0, [Joins(u, email)])
            && var next := Run(db, 0, [Joins(u, email)]);
               u in next.subs && next.subs[u].EffectiveStatus(0) == SubActive
  {
    hide Normalize, TrimSpace;
    var db := Start([SmallPlan()], map[], hotlink, integrations);
    var s := Joins(u, email);
    assert [s][1..] == [] && [s][0] == s;
    assert Legal(db, s);
    assert LegalRun(Next(db, s), 0, [s][1..]) && Run(Next(db, s), 0, [s][1..]) == Next(db, s);
  }

  // ---------------------------------------------------------------- a late refusal

  function PaidPlan(): Plan {
    Plan("go", "Go", 900, 9000, true, true, false, false, Quota(None, None, None, None, None, None))
  }

  function PaidEvent(id: Id, orderID: Id): Event {
    Event(id, "payment.succeeded", "", orderID, "", "", "", "")
  }

  lemma PaidSucceeds(id: Id, orderID: Id)
    ensures KindOf(PaidEvent(id, orderID).eventType) == Succeeded
  {
    var t := "payment.succeeded";
    TrimSpaceOfTrimmed(t);
    assert Lower(t) == t;
  }

  function ChecksOut(orderID: Id, u: Id): Step {
    Step(DoCheckout(orderID, u, "go", "monthly"), 0, true)
  }

  lemma OpenedByCheckout(db: Db, orderID: Id, u: Id)
    requires u in db.users && db.users[u].emailVerified && db.plans == [PaidPlan()]
    ensures var r := Checkout(db, orderID, u, "go", "monthly");
            && r.Ok? && orderID in r.value.orders && r.value.orders[orderID].status == Pending
            && r.value.orders[orderID].userID == u && r.value.users == db.users && r.value.webhooks == db.webhooks
  {
    TrimSpaceOfTrimmed("monthly");
  }

  lemma CheckingOutStep(db: Db, orderID: Id, u: Id)
    requires orderID !in db.orders && u in db.users && db.users[u].emailVerified && db.plans == [PaidPlan()]
    ensures Legal(db, ChecksOut(orderID, u)) && Guarded(db, ChecksOut(orderID, u))
    ensures var next := Next(db, ChecksOut(orderID, u));
            && orderID in next.orders && next.orders[orderID].status == Pending && next.orders[orderID].userID == u
            && next.users == db.users && next.webhooks == db.webhooks
  {
    hide Checkout;
    OpenedByCheckout(db, orderID, u);
  }

  /** Register, verify the email and open an order; the payment succeeds, and only then the call that created it
      fails; a second success event pays the order again and starts a second subscription. */
  lemma LateRefusalReached(hotlink: Hotlink, integrations: string, u: Id, email: string, orderID: Id, e1: Id, e2: Id, message: string)
    requires e1 != e2
    ensures var db := Start([PaidPlan()], map[], hotlink, integrations);
            var steps := [Joins(u, email)] + [Verifies(u)] + [ChecksOut(orderID, u)] + [Success(PaidEvent(e1, orderID), orderID, "1", 0)];
            && LegalRun(db, 0, steps)
            && var state := Run(db, 0, steps);
               && orderID in state.orders && state.orders[orderID].status == Paid
               && var late := [Refusal(orderID, message, 0), Success(PaidEvent(e2, orderID), orderID, "2", 0)];
                  LegalRun(state, 0, late) && StartsOver(state, 0, late, orderID) == 1
  {
    hide Run, LegalRun, GuardedRun, Sound, Ledger, Legal, Next, StartsOver, Payments, KindOf;
    var db := Start([PaidPlan()], map[], hotlink, integrations);
    AfterJoining([PaidPlan()], hotlink, integrations, u, email);
    var steps1 := [Joins(u, email)];
    VerifyingStep(Run(db, 0, steps1), u);
    RunsJoin(db, steps1, Verifies(u));
    var steps2 := steps1 + [Verifies(u)];
    CheckingOutStep(Run(db, 0, steps2), orderID, u);
    RunsJoin(db, steps2, ChecksOut(orderID, u));
    var steps3 := steps2 + [ChecksOut(orderID, u)];
    SoundStart([PaidPlan()], map[], hotlink, integrations);
    SoundRun(db, 0, steps3);
    PaidSucceeds(e1, orderID);
    PaidSucceeds(e2, orderID);
    SettlingStep(Run(db, 0, steps3), orderID, PaidEvent(e1, orderID), "1");
    RunsJoin(db, steps3, Success(PaidEvent(e1, orderID), orderID, "1", 0));
    var steps := steps3 + [Success(PaidEvent(e1, orderID), orderID, "1", 0)];
    SoundRun(db, 0, steps);
    LateRefusalPaysAgain(Run(db, 0, steps), orderID, message, 0, PaidEvent(e2, orderID), "2", 0);
  }

  lemma ActivateStarts(db: Db, order: Order, subID: Id)
    requires order.status == Pending && order.userID in db.users && db.users[order.userID].id == order.userID
    ensures var r := Activate(db, order, 0, subID, SYSTEM, LogPaymentSucceeded);
            && r.Ok? && order.id in r.value.orders && r.value.orders[order.id].status == Paid
            && r.value.orders[order.id].userID == order.userID && order.userID in r.value.users
            && order.userID in r.value.subs && r.value.subs[order.userID].id == subID && r.value.webhooks == db.webhooks
  {
    hide BillingDuration;
  }

  lemma SettledBySuccess(db: Db, id: Id, ev: Event, subID: Id)
    requires id in db.orders && db.orders[id].id == id && db.orders[id].status == Pending && db.orders[id].userID in db.users
    requires db.users[db.orders[id].userID].id == db.orders[id].userID
    requires ev.id !in db.webhooks && KindOf(ev.eventType) == Succeeded
    ensures var next := Webhook(db, ev, Some(id), 0, subID);
            && id in next.orders && next.orders[id].status == Paid
            && var u := next.orders[id].userID;
               u in next.users && u in next.subs && next.subs[u].id == subID && next.webhooks == db.webhooks + {ev.id}
  {
    hide KindOf, Activate;
    ActivateStarts(db.(webhooks := db.webhooks + {ev.id}), db.orders[id], subID);
  }

  lemma SettlingStep(db: Db, id: Id, ev: Event, subID: Id)
    requires Sound(db) && id in db.orders && db.orders[id].userID in db.users && db.orders[id].status == Pending
    requires ev.id !in db.webhooks && ev.orderID == id && KindOf(ev.eventType) == Succeeded
    ensures Legal(db, Success(ev, id, subID, 0)) && Guarded(db, Success(ev, id, subID, 0))
    ensures var next := Next(db, Success(ev, id, subID, 0));
            && id in next.orders && next.orders[id].status == Paid
            && var u := next.orders[id].userID;
               u in next.users && u in next.subs && next.subs[u].id == subID && next.webhooks == db.webhooks + {ev.id}
  {
    OrderFiled(db, id);
    UserFiled(db, db.orders[id].userID);
    hide Sound, KindOf, Webhook, Legal, Next;
    SuccessNext(db, ev, id, subID, 0);
    SettledBySuccess(db, id, ev, subID);
  }
}
