/** IF-Pay events take effect exactly once, however often and in whatever order they are delivered. */
module WebhookRuns {
  import opened Domain
  import opened Db
  import opened Orders
  import opened Handlers
  import opened Actions
  import opened Frames

  predicate IsDelivery(s: Step, id: Id) {
    s.action.DoWebhook? && s.action.ev.id == id
  }

  /** The ids on record after a step. */
  function SeenBy(seen: set<Id>, s: Step): set<Id> {
    if s.action.DoWebhook? && s.saved then seen + {s.action.ev.id} else seen
  }

  /** The steps that are left when every delivery of an event already seen, and every delivery whose save
      fails, is struck from the run. */
  function Kept(seen: set<Id>, steps: seq<Step>): seq<Step>
    decreases |steps|
  {
    if steps == [] then []
    else
      var s := steps[0];
      var rest := Kept(SeenBy(seen, s), steps[1..]);
      if s.action.DoWebhook? && (s.action.ev.id in seen || !s.saved) then rest else [s] + rest
  }

  /** A server without the table of processed events: it applies every delivery it is given. */
  ghost function Apply(db: Db, s: Step): Db
    requires Legal(db, s)
  {
    match s.action
    case DoWebhook(ev, found, subID) => FirstDelivery(db, ev, found, s.now, subID)
    case _ => Next(db, s)
  }

  ghost predicate CanApply(db: Db, steps: seq<Step>)
    decreases |steps|
  {
    steps == [] || (Legal(db, steps[0]) && CanApply(Apply(db, steps[0]), steps[1..]))
  }

  ghost function ApplyAll(db: Db, steps: seq<Step>): Db
    requires CanApply(db, steps)
    decreases |steps|
  {
    if steps == [] then db else ApplyAll(Apply(db, steps[0]), steps[1..])
  }

  // ---------------------------------------------------------------- one step

  lemma SettleKeepsMarks(db: Db, ev: Event, found: Option<Id>, now: Time, subID: Id)
    requires found.Some? ==> found.value in db.orders
    ensures FirstDelivery(db, ev, found, now, subID).webhooks == db.webhooks + {ev.id}
  {
    hide Settle;
    if found.Some? {
      var marked := db.(webhooks := db.webhooks + {ev.id});
      SettleWithin(marked, ev, db.orders[found.value], now, subID);
      assert SamePart(marked, Settle(marked, ev, db.orders[found.value], now, subID), Webhooks);
    }
  }

  /** The table records exactly the events whose first delivery was saved. */
  lemma MarksAfter(db: Db, s: Step)
    requires Legal(db, s)
    ensures Next(db, s).webhooks == SeenBy(db.webhooks, s)
  {
    hide Next;
    if s.action.DoWebhook? {
      DeliveryMarks(db, s);
    } else {
      NextKeeps(db, s, Webhooks);
    }
  }

  lemma DeliveryMarks(db: Db, s: Step)
    requires Legal(db, s) && s.action.DoWebhook?
    ensures Next(db, s).webhooks == SeenBy(db.webhooks, s)
  {
    hide FirstDelivery;
    SettleKeepsMarks(db, s.action.ev, s.action.found, s.now, s.action.subID);
  }

  /** A struck step changes nothing; a kept one acts as if there were no table. */
  lemma StepOnce(db: Db, s: Step)
    requires Legal(db, s)
    ensures if s.action.DoWebhook? && (s.action.ev.id in db.webhooks || !s.saved) then Next(db, s) == db
            else Next(db, s) == Apply(db, s)
  {
    hide FirstDelivery;
  }

  // ---------------------------------------------------------------- whole runs

  /** Exactly once: the run ends in the state that applying only the kept steps, each unconditionally, ends in. */
  lemma {:induction false} ExactlyOnce(db: Db, clock: Time, steps: seq<Step>)
    requires LegalRun(db, clock, steps)
    ensures CanApply(db, Kept(db.webhooks, steps))
    ensures Run(db, clock, steps) == ApplyAll(db, Kept(db.webhooks, steps))
    decreases |steps|
  {
    hide Next, Apply, Legal;
    if steps != [] {
      var s := steps[0];
      var next := Next(db, s);
      StepOnce(db, s);
      MarksAfter(db, s);
      ExactlyOnce(next, s.now, steps[1..]);
      var rest := Kept(next.webhooks, steps[1..]);
      if !(s.action.DoWebhook? && (s.action.ev.id in db.webhooks || !s.saved)) {
        assert ([s] + rest)[1..] == rest;
      }
    }
  }

  /** The deliveries of one event. */
  function Deliveries(steps: seq<Step>, id: Id): seq<Step> {
    if steps == [] then []
    else (if IsDelivery(steps[0], id) then [steps[0]] else []) + Deliveries(steps[1..], id)
  }

  function FirstSaved(deliveries: seq<Step>): seq<Step> {
    if deliveries == [] then []
    else if deliveries[0].saved then [deliveries[0]]
    else FirstSaved(deliveries[1..])
  }

  function Others(steps: seq<Step>): seq<Step> {
    if steps == [] then []
    else (if steps[0].action.DoWebhook? then [] else [steps[0]]) + Others(steps[1..])
  }

  /** Of each event the kept steps hold its first saved delivery and no other; of a failed save nothing remains,
      so the retry counts. */
  lemma {:induction false} KeptDeliveries(seen: set<Id>, steps: seq<Step>, id: Id)
    ensures Deliveries(Kept(seen, steps), id) == if id in seen then [] else FirstSaved(Deliveries(steps, id))
    decreases |steps|
  {
    if steps != [] {
      var s := steps[0];
      KeptDeliveries(SeenBy(seen, s), steps[1..], id);
      var rest := Kept(SeenBy(seen, s), steps[1..]);
      assert ([s] + rest)[1..] == rest;
      if IsDelivery(s, id) {
        var ds := Deliveries(steps[1..], id);
        assert ([s] + ds)[1..] == ds;
      } else {
        assert [] + Deliveries(steps[1..], id) == Deliveries(steps[1..], id);
        assert [] + Deliveries(rest, id) == Deliveries(rest, id);
      }
    }
  }

  /** Every other step is kept, in its place. */
  lemma {:induction false} KeptOthers(seen: set<Id>, steps: seq<Step>)
    ensures Others(Kept(seen, steps)) == Others(steps)
    decreases |steps|
  {
    if steps != [] {
      var s := steps[0];
      var rest := Kept(SeenBy(seen, s), steps[1..]);
      KeptOthers(SeenBy(seen, s), steps[1..]);
      assert ([s] + rest)[1..] == rest;
    }
  }
}
