/** Any number of workers on one stream: no task is lost, retries are bounded. */
module QueueRuns {
  import opened Domain
  import opened Queue

  /** What a worker has fetched: ids whose delivery count it still has to look up, then messages to process. */
  datatype Hand = Hand(lookups: seq<nat>, messages: seq<Message>)

  const FREE := Hand([], [])

  /** The streams, the workers' hands, the dead letters requeues have read (any number may have read one and still
      write, so a pair stays), and what has happened:
      entries processed successfully, completed processing attempts and dead letters, by entry. */
  datatype System = System(
    q: Streams, hands: map<string, Hand>, inRequeue: set<(nat, DeadRecord)>,
    done: set<nat>, attempts: multiset<nat>, deaths: multiset<nat>)

  const IDLE := System(EMPTY, map[], {}, {}, multiset{}, multiset{})

  /** A lost reply is the command followed by Crash or LookupFails; a command that fails outright is no step. */
  datatype Event =
    | Enqueue(task: Task)
    | Receive(worker: string, count: int)
    | ClaimStale(worker: string, minIdle: int, count: int, ids: seq<nat>)
    | Lookup(worker: string)
    | LookupFails(worker: string)
    | Succeed(worker: string, acked: bool)
    | Interrupted(worker: string)
    | FailTask(worker: string, reason: string, moved: bool)
    | Crash(worker: string)
    | ReadDead(deadID: nat)
    | Requeue(deadID: nat, record: DeadRecord)

  function HandOf(s: System, w: string): Hand {
    if w in s.hands then s.hands[w] else FREE
  }

  predicate Busy(s: System, w: string) {
    HandOf(s, w).lookups == [] && HandOf(s, w).messages != []
  }

  predicate Enabled(s: System, e: Event) {
    match e
    case Enqueue(_) => true
    case Receive(w, _) => HandOf(s, w) == FREE && s.q.delivered <= |s.q.entries|
    case ClaimStale(w, minIdle, count, ids) => HandOf(s, w) == FREE && Claimable(s.q, ids, minIdle, count)
    case Lookup(w) => HandOf(s, w).lookups != [] && HandOf(s, w).lookups[0] < |s.q.entries|
    case LookupFails(w) => HandOf(s, w).lookups != []
    case Succeed(w, _) => Busy(s, w)
    case Interrupted(w) => Busy(s, w)
    case FailTask(w, _, _) => Busy(s, w)
    case Crash(_) => true
    case ReadDead(deadID) => deadID in s.q.dead
    case Requeue(deadID, r) => (deadID, r) in s.inRequeue
  }

  function Rest(s: System, w: string): map<string, Hand>
    requires Busy(s, w)
  {
    s.hands[w := Hand([], HandOf(s, w).messages[1..])]
  }

  /** One step. The middle three are processMessage on the next message of the worker's batch. */
  function Next(s: System, e: Event, limit: int): System
    requires Enabled(s, e)
  {
    match e
    case Enqueue(task) => s.(q := XAdd(s.q, Enqueued(task)))
    case Receive(w, count) =>
      var n := BatchSize(s.q, count);
      s.(q := XReadGroup(s.q, n), hands := s.hands[w := Hand(Ids(s.q.delivered, n), [])])
    case ClaimStale(w, _, _, ids) => s.(q := XAutoClaim(s.q, ids), hands := s.hands[w := Hand(ids, [])])
    case Lookup(w) =>
      var h := HandOf(s, w);
      s.(hands := s.hands[w := Hand(h.lookups[1..], h.messages + [MessageOf(s.q, h.lookups[0])])])
    case LookupFails(w) => s.(hands := s.hands[w := FREE])
    case Succeed(w, acked) =>
      var m := HandOf(s, w).messages[0];
      s.(hands := Rest(s, w), done := s.done + {m.id}, attempts := s.attempts + multiset{m.id},
         q := if acked then XAck(s.q, m.id) else s.q)
    case Interrupted(w) => s.(hands := Rest(s, w))
    case FailTask(w, reason, moved) =>
      var m := HandOf(s, w).messages[0];
      var tried := s.(hands := Rest(s, w), attempts := s.attempts + multiset{m.id});
      if m.deliveryCount >= RetryLimit(limit) && moved
      then tried.(q := MoveToDead(s.q, m, reason), deaths := s.deaths + multiset{m.id})
      else tried
    case Crash(w) => s.(hands := s.hands[w := FREE])
    case ReadDead(deadID) => s.(inRequeue := s.inRequeue + {(deadID, s.q.dead[deadID])})
    case Requeue(deadID, r) => s.(q := RequeueDead(s.q, deadID, r))
  }

  predicate CanRun(s: System, events: seq<Event>, limit: int)
    decreases |events|
  {
    events == [] || (Enabled(s, events[0]) && CanRun(Next(s, events[0], limit), events[1..], limit))
  }

  function Run(s: System, events: seq<Event>, limit: int): System
    requires CanRun(s, events, limit)
    decreases |events|
  {
    if events == [] then s else Run(Next(s, events[0], limit), events[1..], limit)
  }

  // ---------------------------------------------------------------- what every step keeps

  predicate Delivered(q: Streams) {
    && q.delivered <= |q.entries|
    && (forall i <- q.pending :: i < q.delivered && q.pending[i] > 0)
    && (forall d <- q.dead :: d < q.nextDead)
  }

  /** The record carries the task of the entry it came from, and was given up only after enough deliveries. */
  predicate Genuine(entries: seq<Entry>, r: DeadRecord, limit: int) {
    r.originalID < |entries| && r.task == Parsed(entries[r.originalID]) && r.deliveryCount >= RetryLimit(limit)
  }

  predicate DeadGenuine(s: System, limit: int) {
    (forall d <- s.q.dead :: Genuine(s.q.entries, s.q.dead[d], limit))
    && (forall p <- s.inRequeue :: Genuine(s.q.entries, p.1, limit) && p.0 < s.q.nextDead)
    && (forall p <- s.inRequeue :: p.0 in s.q.dead ==> s.q.dead[p.0] == p.1)
  }

  /** A requeued entry carries the task of the older entry it names. */
  predicate Requeued(entries: seq<Entry>) {
    forall j :: 0 <= j < |entries| && entries[j].originalID.Some? ==>
      entries[j].originalID.value < j && Parsed(entries[j]) == Parsed(entries[entries[j].originalID.value])
  }

  predicate HandGenuine(q: Streams, h: Hand)
    requires q.delivered <= |q.entries|
  {
    && (forall i :: 0 <= i < |h.lookups| ==> h.lookups[i] < q.delivered)
    && (forall i :: 0 <= i < |h.messages| ==> h.messages[i].id < q.delivered
                                              && h.messages[i].task == Parsed(q.entries[h.messages[i].id]))
  }

  predicate HandsGenuine(s: System)
    requires s.q.delivered <= |s.q.entries|
  {
    forall w <- s.hands :: HandGenuine(s.q, s.hands[w])
  }

  predicate DeadFrom(q: Streams, i: nat) {
    exists d :: d in q.dead && q.dead[d].originalID == i
  }

  predicate RequeuedFrom(entries: seq<Entry>, i: nat) {
    exists j :: 0 <= j < |entries| && entries[j].originalID == Some(i)
  }

  predicate Settled(s: System, i: nat) {
    i in s.q.pending || i in s.done || DeadFrom(s.q, i) || RequeuedFrom(s.q.entries, i)
  }

  predicate AllSettled(s: System) {
    forall i :: 0 <= i < s.q.delivered ==> Settled(s, i)
  }

  predicate Good(s: System, limit: int) {
    Delivered(s.q) && DeadGenuine(s, limit) && Requeued(s.q.entries) && HandsGenuine(s) && AllSettled(s)
  }

  // ---------------------------------------------------------------- one lemma a kind of step

  lemma GoodStart(limit: int)
    ensures Good(IDLE, limit)
  {
  }

  lemma MoreEntries(s: System, e: Entry, limit: int)
    requires Good(s, limit)
    requires e.originalID.Some? ==> e.originalID.value < |s.q.entries| && Parsed(e) == Parsed(s.q.entries[e.originalID.value])
    ensures Good(s.(q := XAdd(s.q, e)), limit)
  {
    var t := s.(q := XAdd(s.q, e));
    forall i | 0 <= i < t.q.delivered ensures Settled(t, i) {
      assert Settled(s, i);
      if RequeuedFrom(s.q.entries, i) {
        var j :| 0 <= j < |s.q.entries| && s.q.entries[j].originalID == Some(i);
        assert t.q.entries[j].originalID == Some(i);
      }
    }
  }

  lemma HandChanges(s: System, w: string, h: Hand, limit: int)
    requires Good(s, limit) && HandGenuine(s.q, h)
    ensures Good(s.(hands := s.hands[w := h]), limit)
  {
    var t := s.(hands := s.hands[w := h]);
    forall i | 0 <= i < t.q.delivered ensures Settled(t, i) {
      assert Settled(s, i);
    }
  }

  lemma Delivers(s: System, n: nat, limit: int)
    requires Good(s, limit) && s.q.delivered + n <= |s.q.entries|
    ensures Good(s.(q := XReadGroup(s.q, n)), limit)
    ensures HandGenuine(XReadGroup(s.q, n), Hand(Ids(s.q.delivered, n), []))
  {
    var t := s.(q := XReadGroup(s.q, n));
    forall i | 0 <= i < t.q.delivered ensures Settled(t, i) {
      if i < s.q.delivered {
        assert Settled(s, i);
        assert DeadFrom(s.q, i) ==> DeadFrom(t.q, i);
      }
    }
    assert forall w <- s.hands :: HandGenuine(s.q, s.hands[w]) ==> HandGenuine(t.q, s.hands[w]);
  }

  lemma Claims(s: System, ids: seq<nat>, limit: int)
    requires Good(s, limit) && forall i :: 0 <= i < |ids| ==> ids[i] in s.q.pending
    ensures Good(s.(q := XAutoClaim(s.q, ids)), limit)
    ensures HandGenuine(XAutoClaim(s.q, ids), Hand(ids, []))
  {
    var t := s.(q := XAutoClaim(s.q, ids));
    forall i | 0 <= i < t.q.delivered ensures Settled(t, i) {
      assert Settled(s, i);
      assert DeadFrom(s.q, i) ==> DeadFrom(t.q, i);
    }
    assert forall w <- s.hands :: HandGenuine(s.q, s.hands[w]) ==> HandGenuine(t.q, s.hands[w]);
  }

  lemma Succeeds(s: System, id: nat, acked: bool, limit: int)
    requires Good(s, limit)
    ensures Good(s.(done := s.done + {id}, attempts := s.attempts + multiset{id}, q := if acked then XAck(s.q, id) else s.q), limit)
  {
    var t := s.(done := s.done + {id}, attempts := s.attempts + multiset{id}, q := if acked then XAck(s.q, id) else s.q);
    forall i | 0 <= i < t.q.delivered ensures Settled(t, i) {
      assert Settled(s, i);
      assert DeadFrom(s.q, i) ==> DeadFrom(t.q, i);
    }
    assert forall w <- s.hands :: HandGenuine(s.q, s.hands[w]) ==> HandGenuine(t.q, s.hands[w]);
  }

  lemma Buries(s: System, m: Message, reason: string, limit: int)
    requires Good(s, limit) && m.id < s.q.delivered && m.task == Parsed(s.q.entries[m.id])
    requires m.deliveryCount >= RetryLimit(limit)
    ensures Good(s.(q := MoveToDead(s.q, m, reason), attempts := s.attempts + multiset{m.id}, deaths := s.deaths + multiset{m.id}), limit)
  {
    var t := s.(q := MoveToDead(s.q, m, reason), attempts := s.attempts + multiset{m.id}, deaths := s.deaths + multiset{m.id});
    assert t.q.dead[s.q.nextDead].originalID == m.id;
    forall i | 0 <= i < t.q.delivered ensures Settled(t, i) {
      assert Settled(s, i);
      if DeadFrom(s.q, i) {
        var d :| d in s.q.dead && s.q.dead[d].originalID == i;
        assert t.q.dead[d].originalID == i;
      }
    }
    assert forall w <- s.hands :: HandGenuine(s.q, s.hands[w]) ==> HandGenuine(t.q, s.hands[w]);
  }

  /** Requeueing trades the dead record for an entry that names the same original; a second requeue of one read
      adds a second such entry. */
  lemma Requeues(s: System, deadID: nat, r: DeadRecord, limit: int)
    requires Good(s, limit) && (deadID, r) in s.inRequeue
    ensures Good(s.(q := RequeueDead(s.q, deadID, r)), limit)
  {
    var e := Entry(r.task.kind, r.task.payload, Some(r.originalID));
    var t := s.(q := RequeueDead(s.q, deadID, r));
    assert Genuine(s.q.entries, (deadID, r).1, limit);
    ParsedEnqueued(Task(s.q.entries[r.originalID].kind, s.q.entries[r.originalID].payload));
    assert Parsed(e) == Parsed(Enqueued(r.task));
    assert t.q.entries[|s.q.entries|].originalID == Some(r.originalID);
    forall i | 0 <= i < t.q.delivered ensures Settled(t, i) {
      assert Settled(s, i);
      if DeadFrom(s.q, i) {
        var d :| d in s.q.dead && s.q.dead[d].originalID == i;
        if d != deadID {
          assert t.q.dead[d].originalID == i;
        }
      }
      if RequeuedFrom(s.q.entries, i) {
        var j :| 0 <= j < |s.q.entries| && s.q.entries[j].originalID == Some(i);
        assert t.q.entries[j].originalID == Some(i);
      }
    }
  }

  lemma Reads(s: System, deadID: nat, limit: int)
    requires Good(s, limit) && deadID in s.q.dead
    ensures Good(s.(inRequeue := s.inRequeue + {(deadID, s.q.dead[deadID])}), limit)
  {
    var t := s.(inRequeue := s.inRequeue + {(deadID, s.q.dead[deadID])});
    forall i | 0 <= i < t.q.delivered ensures Settled(t, i) {
      assert Settled(s, i);
    }
  }

  lemma HeldGenuine(s: System, w: string, limit: int)
    requires Good(s, limit)
    ensures HandGenuine(s.q, HandOf(s, w))
  {
  }

  lemma LookupGenuine(s: System, w: string, limit: int)
    requires Good(s, limit) && Enabled(s, Lookup(w))
    ensures var h := HandOf(s, w);
            HandGenuine(s.q, Hand(h.lookups[1..], h.messages + [MessageOf(s.q, h.lookups[0])]))
  {
    HeldGenuine(s, w, limit);
  }

  lemma RestGenuine(s: System, w: string, limit: int)
    requires Good(s, limit) && Busy(s, w)
    ensures HandGenuine(s.q, Hand([], HandOf(s, w).messages[1..]))
  {
    HeldGenuine(s, w, limit);
  }

  lemma GoodNext(s: System, e: Event, limit: int)
    requires Good(s, limit) && Enabled(s, e)
    ensures Good(Next(s, e, limit), limit)
  {
    hide Good, HandGenuine, XAdd, XReadGroup, XAutoClaim, XAck, MoveToDead, RequeueDead, BatchSize, MessageOf, Ids;
    match e
    case Enqueue(task) => MoreEntries(s, Enqueued(task), limit);
    case Receive(w, count) =>
      var n := BatchSize(s.q, count);
      BatchFits(s.q, count);
      Delivers(s, n, limit);
      HandChanges(s.(q := XReadGroup(s.q, n)), w, Hand(Ids(s.q.delivered, n), []), limit);
    case ClaimStale(w, minIdle, count, ids) =>
      Claims(s, ids, limit);
      HandChanges(s.(q := XAutoClaim(s.q, ids)), w, Hand(ids, []), limit);
    case Lookup(w) =>
      LookupGenuine(s, w, limit);
      HandChanges(s, w, Hand(HandOf(s, w).lookups[1..], HandOf(s, w).messages + [MessageOf(s.q, HandOf(s, w).lookups[0])]), limit);
    case LookupFails(w) => NothingHeld(s, limit); HandChanges(s, w, FREE, limit);
    case Succeed(w, acked) =>
      RestGenuine(s, w, limit);
      HandChanges(s, w, Hand([], HandOf(s, w).messages[1..]), limit);
      Succeeds(s.(hands := Rest(s, w)), HandOf(s, w).messages[0].id, acked, limit);
    case Interrupted(w) =>
      RestGenuine(s, w, limit);
      HandChanges(s, w, Hand([], HandOf(s, w).messages[1..]), limit);
    case FailTask(w, reason, moved) => GoodFail(s, w, reason, moved, limit);
    case Crash(w) => NothingHeld(s, limit); HandChanges(s, w, FREE, limit);
    case ReadDead(deadID) => Reads(s, deadID, limit);
    case Requeue(deadID, r) => Requeues(s, deadID, r, limit);
  }

  lemma BatchFits(q: Streams, count: int)
    requires q.delivered <= |q.entries|
    ensures q.delivered + BatchSize(q, count) <= |q.entries|
  {
  }

  lemma NothingHeld(s: System, limit: int)
    requires Good(s, limit)
    ensures HandGenuine(s.q, FREE)
  {
  }

  lemma Attempted(s: System, id: nat, limit: int)
    requires Good(s, limit)
    ensures Good(s.(attempts := s.attempts + multiset{id}), limit)
  {
    var t := s.(attempts := s.attempts + multiset{id});
    forall i | 0 <= i < t.q.delivered ensures Settled(t, i) {
      assert Settled(s, i);
    }
  }

  lemma GoodFail(s: System, w: string, reason: string, moved: bool, limit: int)
    requires Good(s, limit) && Busy(s, w)
    ensures Good(Next(s, FailTask(w, reason, moved), limit), limit)
  {
    hide Good, MoveToDead;
    var m := HandOf(s, w).messages[0];
    RestGenuine(s, w, limit);
    HandChanges(s, w, Hand([], HandOf(s, w).messages[1..]), limit);
    var rest := s.(hands := Rest(s, w));
    if m.deliveryCount >= RetryLimit(limit) && moved {
      HeldGenuine(s, w, limit);
      DeliveredExists(s, limit);
      Buries(rest, m, reason, limit);
    } else {
      Attempted(rest, m.id, limit);
    }
  }

  lemma DeliveredExists(s: System, limit: int)
    requires Good(s, limit)
    ensures s.q.delivered <= |s.q.entries|
  {
  }

  lemma {:induction false} GoodRun(s: System, events: seq<Event>, limit: int)
    requires Good(s, limit) && CanRun(s, events, limit)
    ensures Good(Run(s, events, limit), limit)
    decreases |events|
  {
    hide Good, Next, Enabled;
    if events != [] {
      GoodNext(s, events[0], limit);
      GoodRun(Next(s, events[0], limit), events[1..], limit);
    }
  }

  // ---------------------------------------------------------------- no task is lost

  /** Where the task of entry `i` may be found: still to be delivered, pending, done, or among the dead letters. */
  predicate At(s: System, j: nat) {
    j >= s.q.delivered || j in s.q.pending || j in s.done || DeadFrom(s.q, j)
  }

  /** Entry `j` is entry `i`, or was requeued from it, directly or through others. */
  ghost predicate Descends(entries: seq<Entry>, j: nat, i: nat)
    requires j < |entries|
    decreases j
  {
    || j == i
    || (&& entries[j].originalID.Some? && entries[j].originalID.value < j
        && Descends(entries, entries[j].originalID.value, i))
  }

  lemma {:induction false} DescendsThrough(entries: seq<Entry>, k: nat, j: nat, i: nat)
    requires k < |entries| && j < |entries| && Descends(entries, k, j)
    requires entries[j].originalID == Some(i) && i < j
    ensures Descends(entries, k, i)
    decreases k
  {
    if k != j {
      DescendsThrough(entries, entries[k].originalID.value, j, i);
    }
  }

  /** Entry `i`, or an entry requeued from it, with the same task, is in one of those places. */
  ghost predicate Accounted(s: System, i: nat)
    requires i < |s.q.entries|
  {
    exists j :: 0 <= j < |s.q.entries| && Descends(s.q.entries, j, i) && Parsed(s.q.entries[j]) == Parsed(s.q.entries[i]) && At(s, j)
  }

  lemma {:induction false} Traced(s: System, i: nat, limit: int)
    requires Good(s, limit) && i < |s.q.entries|
    ensures Accounted(s, i)
    decreases |s.q.entries| - i
  {
    if i < s.q.delivered && !At(s, i) {
      assert Settled(s, i);
      var j :| 0 <= j < |s.q.entries| && s.q.entries[j].originalID == Some(i);
      Traced(s, j, limit);
      var k :| 0 <= k < |s.q.entries| && Descends(s.q.entries, k, j) && Parsed(s.q.entries[k]) == Parsed(s.q.entries[j]) && At(s, k);
      DescendsThrough(s.q.entries, k, j, i);
      assert At(s, k);
    } else {
      assert At(s, i) && Descends(s.q.entries, i, i);
    }
  }

  /** No task is ever lost: in every interleaving of enqueues, deliveries, claims, crashes, failed lookups, failed
      acknowledgements, dead-letter moves and requeues, every entry is accounted for with its own type and payload, by
      itself or by an entry requeued from it. */
  lemma NoTaskLost(events: seq<Event>, limit: int, i: nat)
    requires CanRun(IDLE, events, limit) && i < |Run(IDLE, events, limit).q.entries|
    ensures Accounted(Run(IDLE, events, limit), i)
  {
    hide Run, CanRun, Good;
    GoodStart(limit);
    GoodRun(IDLE, events, limit);
    Traced(Run(IDLE, events, limit), i, limit);
  }

  /** Every dead letter was delivered as often as the retry limit asks, and carries the task of its original. */
  lemma DeadLettersEarned(events: seq<Event>, limit: int, deadID: nat)
    requires CanRun(IDLE, events, limit) && deadID in Run(IDLE, events, limit).q.dead
    ensures var s := Run(IDLE, events, limit);
            var r := s.q.dead[deadID];
            && r.deliveryCount >= 1 && r.deliveryCount >= limit
            && r.originalID < |s.q.entries| && r.task == Parsed(s.q.entries[r.originalID])
  {
    hide Run, CanRun;
    GoodStart(limit);
    GoodRun(IDLE, events, limit);
  }

  lemma EntriesStay(s: System, e: Event, limit: int)
    requires Enabled(s, e)
    ensures s.q.entries <= Next(s, e, limit).q.entries
  {
  }

  lemma {:induction false} EntriesGrow(s: System, events: seq<Event>, limit: int)
    requires CanRun(s, events, limit)
    ensures s.q.entries <= Run(s, events, limit).q.entries
    decreases |events|
  {
    hide Next, Enabled;
    if events != [] {
      EntriesStay(s, events[0], limit);
      EntriesGrow(Next(s, events[0], limit), events[1..], limit);
    }
  }

  /** The same from the producer's side: whatever happened before the task was enqueued and happens after, the
      entry this enqueue made is still there and accounted for. By ParsedEnqueued its task is the one enqueued
      unless its type is blank. */
  lemma EnqueuedNeverLost(before: seq<Event>, task: Task, after: seq<Event>, limit: int)
    requires CanRun(IDLE, before, limit)
    requires CanRun(Next(Run(IDLE, before, limit), Enqueue(task), limit), after, limit)
    ensures var i := |Run(IDLE, before, limit).q.entries|;
            var s := Run(Next(Run(IDLE, before, limit), Enqueue(task), limit), after, limit);
            i < |s.q.entries| && s.q.entries[i] == Enqueued(task) && Accounted(s, i)
  {
    hide Run, CanRun, Good, Accounted;
    GoodStart(limit);
    GoodRun(IDLE, before, limit);
    var s := Run(IDLE, before, limit);
    var t := Next(s, Enqueue(task), limit);
    GoodNext(s, Enqueue(task), limit);
    GoodRun(t, after, limit);
    EntriesGrow(t, after, limit);
    var i := |s.q.entries|;
    assert t.q.entries[i] == Enqueued(task);
    Traced(Run(t, after, limit), i, limit);
  }

  /** Two requeues that read one dead letter at the same time both go through: two entries name the original. */
  lemma RequeueRace(s: System, deadID: nat, r: DeadRecord, limit: int)
    requires Good(s, limit) && Enabled(s, Requeue(deadID, r))
    ensures var once := Next(s, Requeue(deadID, r), limit);
            && Enabled(once, Requeue(deadID, r))
            && var twice := Next(once, Requeue(deadID, r), limit);
               var n := |s.q.entries|;
               && |twice.q.entries| == n + 2 && Good(twice, limit)
               && Descends(twice.q.entries, n, r.originalID) && Descends(twice.q.entries, n + 1, r.originalID)
  {
    var once := Next(s, Requeue(deadID, r), limit);
    assert Genuine(s.q.entries, (deadID, r).1, limit);
    Requeues(s, deadID, r, limit);
    Requeues(once, deadID, r, limit);
    var es := Next(once, Requeue(deadID, r), limit).q.entries;
    assert Descends(es, r.originalID, r.originalID);
    hide Good;
  }

  // ---------------------------------------------------------------- retries are bounded

  /** Steps of one worker whose acknowledgements and dead-letter moves succeed and which is not shut down in the
      middle of a task; it may crash between tasks, and lookups may fail. */
  predicate Reliable(e: Event, w: string) {
    match e
    case Receive(v, _) => v == w
    case ClaimStale(v, _, _, _) => v == w
    case Lookup(v) => v == w
    case LookupFails(v) => v == w
    case Succeed(v, acked) => v == w && acked
    case Interrupted(_) => false
    case FailTask(v, _, moved) => v == w && moved
    case Crash(v) => v == w
    case _ => true
  }

  function MessageIds(ms: seq<Message>): seq<nat> {
    seq(|ms|, i requires 0 <= i < |ms| => ms[i].id)
  }

  function HeldIds(h: Hand): seq<nat> {
    MessageIds(h.messages) + h.lookups
  }

  predicate Increasing(ids: seq<nat>) {
    forall i, j :: 0 <= i < j < |ids| ==> ids[i] < ids[j]
  }

  /** The hand holds pending entries, each once, with their current counts. */
  predicate Holds(pending: map<nat, nat>, h: Hand) {
    && Increasing(HeldIds(h))
    && (forall i :: i in HeldIds(h) ==> i in pending)
    && (forall k :: 0 <= k < |h.messages| ==> h.messages[k].id in pending && h.messages[k].deliveryCount == pending[h.messages[k].id])
  }

  /** A delivery in hand has not been tried yet; the others have been tried at most as often as delivered, and
      less often than the limit. */
  ghost predicate Budget(s: System, h: Hand, limit: int) {
    && (forall i: nat :: i >= s.q.delivered ==> s.attempts[i] == 0 && s.deaths[i] == 0)
    && (forall i: nat :: s.attempts[i] <= RetryLimit(limit) && s.deaths[i] <= 1)
    && (forall i <- s.q.pending :: s.deaths[i] == 0 && s.attempts[i] < RetryLimit(limit)
                                   && s.attempts[i] + (if i in HeldIds(h) then 1 else 0) <= s.q.pending[i])
  }

  ghost predicate Solo(s: System, w: string, limit: int) {
    s.hands.Keys <= {w} && Delivered(s.q) && Holds(s.q.pending, HandOf(s, w)) && Budget(s, HandOf(s, w), limit)
  }

  /** A hand that holds nothing but ids to look up. */
  lemma HeldFresh(pending: map<nat, nat>, ids: seq<nat>)
    requires Increasing(ids) && forall i <- ids :: i in pending
    ensures HeldIds(Hand(ids, [])) == ids && Holds(pending, Hand(ids, []))
  {
  }

  /** The ids come in with one delivery; the pending entries stay as they were. */
  predicate Arrive(q: Streams, next: Streams, ids: seq<nat>) {
    && Delivered(next) && q.delivered <= next.delivered && Increasing(ids)
    && (forall i <- ids :: q.delivered <= i && i in next.pending)
    && (forall i <- next.pending :: if i in q.pending then i !in ids && next.pending[i] == q.pending[i]
                                    else i in ids && next.pending[i] == 1)
  }

  lemma NewArrive(q: Streams, n: nat)
    requires Delivered(q) && q.delivered + n <= |q.entries|
    ensures Arrive(q, XReadGroup(q, n), Ids(q.delivered, n))
  {
    hide Ids;
  }

  lemma ArrivedHeld(q: Streams, next: Streams, ids: seq<nat>)
    requires Arrive(q, next, ids)
    ensures Delivered(next) && HeldIds(Hand(ids, [])) == ids && Holds(next.pending, Hand(ids, []))
  {
    HeldFresh(next.pending, ids);
  }

  lemma ArrivedBudget(s: System, t: System, h: Hand, ids: seq<nat>, limit: int)
    requires Budget(s, FREE, limit) && Arrive(s.q, t.q, ids) && t.attempts == s.attempts && t.deaths == s.deaths
    requires HeldIds(h) == ids
    ensures Budget(t, h, limit)
  {
    hide Delivered, Increasing;
    forall i | i in t.q.pending
      ensures t.deaths[i] == 0 && t.attempts[i] < RetryLimit(limit)
              && t.attempts[i] + (if i in HeldIds(h) then 1 else 0) <= t.q.pending[i]
    {
      if i in s.q.pending {
        assert s.attempts[i] + (if i in HeldIds(FREE) then 1 else 0) <= s.q.pending[i];
      }
    }
  }

  lemma SoloReceives(s: System, w: string, count: int, limit: int)
    requires Solo(s, w, limit) && Enabled(s, Receive(w, count))
    ensures Solo(Next(s, Receive(w, count), limit), w, limit)
  {
    hide Holds, HeldIds, Ids, Budget, Arrive, Delivered;
    var n := BatchSize(s.q, count);
    var ids := Ids(s.q.delivered, n);
    var t := Next(s, Receive(w, count), limit);
    NewArrive(s.q, n);
    ArrivedHeld(s.q, t.q, ids);
    ArrivedBudget(s, t, Hand(ids, []), ids, limit);
  }

  lemma SoloClaims(s: System, w: string, minIdle: int, count: int, ids: seq<nat>, limit: int)
    requires Solo(s, w, limit) && Enabled(s, ClaimStale(w, minIdle, count, ids))
    ensures Solo(Next(s, ClaimStale(w, minIdle, count, ids), limit), w, limit)
  {
    HeldFresh(XAutoClaim(s.q, ids).pending, ids);
    assert HandOf(Next(s, ClaimStale(w, minIdle, count, ids), limit), w) == Hand(ids, []);
    hide Holds, HeldIds;
  }

  lemma SoloLooksUp(s: System, w: string, limit: int)
    requires Solo(s, w, limit) && Enabled(s, Lookup(w))
    ensures Solo(Next(s, Lookup(w), limit), w, limit)
  {
    var h := HandOf(s, w);
    var t := Next(s, Lookup(w), limit);
    assert h.lookups[0] in HeldIds(h);
    assert HeldIds(HandOf(t, w)) == HeldIds(h);
  }

  lemma SoloDrops(s: System, w: string, limit: int)
    requires Solo(s, w, limit)
    ensures Solo(s.(hands := s.hands[w := FREE]), w, limit)
  {
  }

  lemma HeldRest(pending: map<nat, nat>, h: Hand)
    requires Holds(pending, h) && h.messages != []
    ensures var rest := Hand(h.lookups, h.messages[1..]);
            && HeldIds(rest) == HeldIds(h)[1..] && h.messages[0].id == HeldIds(h)[0]
            && h.messages[0].id !in HeldIds(rest)
            && h.messages[0].id in pending && h.messages[0].deliveryCount == pending[h.messages[0].id]
            && Holds(pending, rest) && Holds(pending - {h.messages[0].id}, rest)
  {
    var rest := Hand(h.lookups, h.messages[1..]);
    assert HeldIds(rest) == HeldIds(h)[1..];
    assert h.messages[0].id == HeldIds(h)[0];
    forall k | 0 <= k < |rest.messages| ensures rest.messages[k].id == HeldIds(h)[k + 1] {
    }
  }

  lemma SoloSucceeds(s: System, w: string, limit: int)
    requires Solo(s, w, limit) && Busy(s, w)
    ensures Solo(Next(s, Succeed(w, true), limit), w, limit)
  {
    hide Holds;
    HeldRest(s.q.pending, HandOf(s, w));
  }

  lemma SoloFails(s: System, w: string, reason: string, limit: int)
    requires Solo(s, w, limit) && Busy(s, w)
    ensures Solo(Next(s, FailTask(w, reason, true), limit), w, limit)
  {
    hide Holds;
    HeldRest(s.q.pending, HandOf(s, w));
  }

  /** Enqueues, and requeues that read or write dead letters, leave the worker's affairs alone. */
  lemma SoloBeside(s: System, t: System, w: string, limit: int)
    requires Solo(s, w, limit)
    requires t.hands == s.hands && t.attempts == s.attempts && t.deaths == s.deaths
    requires t.q.pending == s.q.pending && t.q.delivered == s.q.delivered && |t.q.entries| >= |s.q.entries|
    requires t.q.nextDead == s.q.nextDead && t.q.dead.Keys <= s.q.dead.Keys
    ensures Solo(t, w, limit)
  {
    hide Holds;
  }

  lemma SoloNext(s: System, e: Event, w: string, limit: int)
    requires Solo(s, w, limit) && Enabled(s, e) && Reliable(e, w)
    ensures Solo(Next(s, e, limit), w, limit)
  {
    hide Solo;
    match e
    case Receive(_, count) => SoloReceives(s, w, count, limit);
    case ClaimStale(_, minIdle, count, ids) => SoloClaims(s, w, minIdle, count, ids, limit);
    case Lookup(_) => SoloLooksUp(s, w, limit);
    case LookupFails(_) => SoloDrops(s, w, limit);
    case Crash(_) => SoloDrops(s, w, limit);
    case Succeed(_, _) => SoloSucceeds(s, w, limit);
    case FailTask(_, reason, _) => SoloFails(s, w, reason, limit);
    case Enqueue(_) => SoloBeside(s, Next(s, e, limit), w, limit);
    case ReadDead(_) => SoloBeside(s, Next(s, e, limit), w, limit);
    case Requeue(_, _) => SoloBeside(s, Next(s, e, limit), w, limit);
  }

  lemma {:induction false} SoloRun(s: System, events: seq<Event>, w: string, limit: int)
    requires Solo(s, w, limit) && CanRun(s, events, limit)
    requires forall k :: 0 <= k < |events| ==> Reliable(events[k], w)
    ensures Solo(Run(s, events, limit), w, limit)
    decreases |events|
  {
    hide Solo, Next, Enabled, Reliable;
    if events != [] {
      SoloNext(s, events[0], w, limit);
      SoloRun(Next(s, events[0], limit), events[1..], w, limit);
    }
  }

  /** With one reliable worker every stream entry is processed at most max(1, limit) times and yields at most one
      dead letter. */
  lemma RetriesBounded(events: seq<Event>, w: string, limit: int, i: nat)
    requires CanRun(IDLE, events, limit)
    requires forall k :: 0 <= k < |events| ==> Reliable(events[k], w)
    ensures Run(IDLE, events, limit).attempts[i] <= RetryLimit(limit)
    ensures Run(IDLE, events, limit).deaths[i] <= 1
  {
    hide Run, CanRun, Reliable;
    SoloRun(IDLE, events, w, limit);
  }
}
