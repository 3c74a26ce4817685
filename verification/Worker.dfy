/** The client calls of internal/queue/queue.go as methods on the server's streams, and the loop of
    cmd/worker/main.go over them. Every answer of the network and of ProcessTask is arbitrary. */
module Worker {
  import opened Domain
  import opened Queue
  import opened QueueRuns

  lemma HandedOut(pending: map<nat, nat>, ids: seq<nat>, id: nat)
    ensures pending + FirstDeliveries(ids + [id]) == (pending + FirstDeliveries(ids))[id := 1]
  {
  }

  class Redis {
    var entries: seq<Entry>
    var delivered: nat
    var pending: map<nat, nat>
    var dead: map<nat, DeadRecord>
    var nextDead: nat

    function View(): Streams
      reads this
    {
      Streams(entries, delivered, pending, dead, nextDead)
    }

    constructor ()
      ensures View() == EMPTY
    {
      entries, delivered, pending, dead, nextDead := [], 0, map[], map[], 0;
    }

    /** RedisQueue.Enqueue, when XADD reaches the server. */
    method Enqueue(task: Task)
      modifies this
      ensures View() == XAdd(old(View()), Enqueued(task))
    {
      entries := entries + [Entry(task.kind, task.payload, None)];
    }

    /** XREADGROUP with id ">": hand out new entries one by one. */
    method ReadNew(count: int) returns (ids: seq<nat>)
      requires delivered <= |entries|
      modifies this
      ensures ids == Ids(old(delivered), BatchSize(old(View()), count))
      ensures View() == XReadGroup(old(View()), |ids|)
    {
      var wanted := if count <= 0 then 1 else count;
      ids := [];
      ghost var before := View();
      while |ids| < wanted && delivered < |entries|
        invariant |ids| <= wanted && before.delivered + |ids| <= |entries|
        invariant ids == Ids(before.delivered, |ids|)
        invariant delivered == before.delivered + |ids|
        invariant entries == before.entries && dead == before.dead && nextDead == before.nextDead
        invariant pending == before.pending + FirstDeliveries(ids)
        decreases wanted - |ids|
      {
        HandedOut(before.pending, ids, delivered);
        ids := ids + [delivered];
        pending := pending[delivered := 1];
        delivered := delivered + 1;
      }
    }

    /** XAUTOCLAIM, given the entries that turn out to be idle: one more delivery each. */
    method Claim(ids: seq<nat>, ghost minIdle: int, ghost count: int)
      requires Claimable(View(), ids, minIdle, count)
      modifies this
      ensures View() == XAutoClaim(old(View()), ids)
    {
      ghost var before := View();
      for i := 0 to |ids|
        invariant View() == before.(pending := pending) && pending.Keys == before.pending.Keys
        invariant forall id <- pending :: pending[id] == before.pending[id] + if id in ids[..i] then 1 else 0
      {
        assert ids[i] !in ids[..i];
        pending := pending[ids[i] := pending[ids[i]] + 1];
        assert ids[..i + 1] == ids[..i] + [ids[i]];
      }
      assert ids[..|ids|] == ids;
    }

    /** XPENDING for one id. */
    method CountDeliveries(id: nat) returns (n: nat)
      ensures n == DeliveryCount(View(), id)
    {
      if id !in pending || pending[id] <= 0 {
        return 1;
      }
      return pending[id];
    }

    method Ack(id: nat)
      modifies this
      ensures View() == XAck(old(View()), id)
    {
      pending := pending - {id};
    }

    method MoveToDeadLetter(m: Message, reason: string)
      modifies this
      ensures View() == MoveToDead(old(View()), m, reason)
    {
      dead := dead[nextDead := DeadRecord(m.id, m.task, m.deliveryCount, reason)];
      nextDead := nextDead + 1;
      pending := pending - {m.id};
    }

    /** RequeueDeadLetter, undisturbed between its read and its MULTI. */
    method RequeueDeadLetter(deadID: nat) returns (found: bool)
      modifies this
      ensures found == (deadID in old(dead))
      ensures View() == if found then RequeueDead(old(View()), deadID, old(dead)[deadID]) else old(View())
    {
      if deadID !in dead {
        return false;
      }
      var r := dead[deadID];
      entries := entries + [Entry(r.task.kind, r.task.payload, Some(r.originalID))];
      dead := dead - {deadID};
      return true;
    }
  }

  // ---------------------------------------------------------------- the calls as steps of the system

  ghost predicate Reaches(s: System, events: seq<Event>, t: System, limit: int) {
    CanRun(s, events, limit) && Run(s, events, limit) == t
  }

  /** Whose step it is; enqueues and requeues are nobody's. */
  predicate ByWorker(e: Event, w: string) {
    match e
    case Receive(v, _) => v == w
    case ClaimStale(v, _, _, _) => v == w
    case Lookup(v) => v == w
    case LookupFails(v) => v == w
    case Succeed(v, _) => v == w
    case Interrupted(v) => v == w
    case FailTask(v, _, _) => v == w
    case Crash(v) => v == w
    case _ => false
  }

  /** The steps of one worker within a run. */
  function Own(events: seq<Event>, w: string): seq<Event> {
    if events == [] then [] else (if ByWorker(events[0], w) then [events[0]] else []) + Own(events[1..], w)
  }

  /** The entry a step of the worker tries, if it tries one. */
  function TrialOf(s: System, e: Event, w: string): seq<(nat, Event)>
    requires Enabled(s, e)
  {
    if ByWorker(e, w) && (e.Succeed? || e.Interrupted? || e.FailTask?) then [(HandOf(s, w).messages[0].id, e)] else []
  }

  /** The entries the worker tries within a run, in order, each with what came of it. */
  function Tried(s: System, events: seq<Event>, w: string, limit: int): seq<(nat, Event)>
    requires CanRun(s, events, limit)
    decreases |events|
  {
    if events == [] then [] else TrialOf(s, events[0], w) + Tried(Next(s, events[0], limit), events[1..], w, limit)
  }

  lemma NoSteps(s: System, w: string, limit: int)
    ensures Reaches(s, [], s, limit) && Own([], w) == [] && Tried(s, [], w, limit) == []
  {
  }

  lemma OneStep(s: System, e: Event, w: string, limit: int)
    requires Enabled(s, e)
    ensures Reaches(s, [e], Next(s, e, limit), limit)
    ensures Own([e], w) == if ByWorker(e, w) then [e] else []
    ensures Tried(s, [e], w, limit) == TrialOf(s, e, w)
  {
    hide Next, Enabled, TrialOf, ByWorker;
    var t := Next(s, e, limit);
    NoSteps(t, w, limit);
    assert [e][0] == e && [e][1..] == [];
    assert CanRun(t, [e][1..], limit) && Run(t, [e][1..], limit) == t && Tried(t, [e][1..], w, limit) == [];
  }

  /** Two runs, one after the other, make one. */
  lemma {:induction false} Joined(s: System, first: seq<Event>, m: System, second: seq<Event>, t: System, w: string, limit: int)
    requires Reaches(s, first, m, limit) && Reaches(m, second, t, limit)
    ensures Reaches(s, first + second, t, limit)
    ensures Own(first + second, w) == Own(first, w) + Own(second, w)
    ensures Tried(s, first + second, w, limit) == Tried(s, first, w, limit) + Tried(m, second, w, limit)
    decreases |first|
  {
    hide Next, Enabled, TrialOf, ByWorker;
    if first == [] {
      assert [] + second == second;
    } else {
      assert (first + second)[0] == first[0] && (first + second)[1..] == first[1..] + second;
      Joined(Next(s, first[0], limit), first[1..], m, second, t, w, limit);
    }
  }

  /** The server holds the streams of `s`, and worker `w` has the given batch in hand. */
  ghost predicate Mirrors(redis: Redis, s: System, w: string, h: Hand)
    reads redis
  {
    redis.View() == s.q && HandOf(s, w) == h
  }

  function Lookups(n: nat, w: string): seq<Event> {
    if n == 0 then [] else Lookups(n - 1, w) + [Lookup(w)]
  }

  /** One of the delivery counts of a batch of `n` cannot be looked up. */
  predicate Missing(n: nat, failAt: Option<nat>) {
    failAt.Some? && failAt.value < n
  }

  function LookedUp(n: nat, failAt: Option<nat>, w: string): seq<Event> {
    if Missing(n, failAt) then Lookups(failAt.value, w) + [LookupFails(w)] else Lookups(n, w)
  }

  function Loaded(q: Streams, ids: seq<nat>): seq<Message>
    requires forall i :: 0 <= i < |ids| ==> ids[i] < |q.entries|
  {
    seq(|ids|, i requires 0 <= i < |ids| => MessageOf(q, ids[i]))
  }

  /** parseRedisMessages: either every message with its delivery count, or, when the lookup of one count fails,
      nothing at all. */
  method ParseMessages(redis: Redis, ids: seq<nat>, failAt: Option<nat>, w: string, limit: int, s: System)
    returns (messages: seq<Message>, ghost events: seq<Event>, t: System)
    requires Mirrors(redis, s, w, Hand(ids, []))
    requires forall i :: 0 <= i < |ids| ==> ids[i] < |redis.entries|
    ensures Mirrors(redis, t, w, Hand([], messages)) && Reaches(s, events, t, limit)
    ensures messages == if Missing(|ids|, failAt) then [] else Loaded(redis.View(), ids)
    ensures Own(events, w) == LookedUp(|ids|, failAt, w) && Tried(s, events, w, limit) == []
  {
    hide Run, CanRun, Next, Own, Tried;
    NoSteps(s, w, limit);
    messages, events, t := [], [], s;
    for i := 0 to |ids|
      invariant Mirrors(redis, t, w, Hand(ids[i..], messages)) && Reaches(s, events, t, limit)
      invariant messages == Loaded(redis.View(), ids[..i])
      invariant failAt.Some? ==> i <= failAt.value
      invariant Own(events, w) == Lookups(i, w) && Tried(s, events, w, limit) == []
    {
      if failAt == Some(i) {
        StepDrops(t, w, limit);
        OneStep(t, LookupFails(w), w, limit);
        Joined(s, events, t, [LookupFails(w)], Next(t, LookupFails(w), limit), w, limit);
        messages, events, t := [], events + [LookupFails(w)], Next(t, LookupFails(w), limit);
        return;
      }
      var e := redis.entries[ids[i]];
      var task := Task(e.kind, e.payload);
      if e.kind == "" || e.kind == "<nil>" {
        task := Task("invalid", ParseError(e.kind, e.payload));
      }
      var n := redis.CountDeliveries(ids[i]);
      StepLooksUp(t, w, limit);
      OneStep(t, Lookup(w), w, limit);
      Joined(s, events, t, [Lookup(w)], Next(t, Lookup(w), limit), w, limit);
      messages, events, t := messages + [Message(ids[i], task, n)], events + [Lookup(w)], Next(t, Lookup(w), limit);
      assert ids[i..][1..] == ids[i + 1..];
    }
    assert ids[..|ids|] == ids;
  }

  lemma StepDrops(s: System, w: string, limit: int)
    requires HandOf(s, w).lookups != []
    ensures Enabled(s, LookupFails(w)) && Next(s, LookupFails(w), limit) == s.(hands := s.hands[w := FREE])
  {
  }

  lemma StepLooksUp(s: System, w: string, limit: int)
    requires HandOf(s, w).lookups != [] && HandOf(s, w).lookups[0] < |s.q.entries|
    ensures Enabled(s, Lookup(w))
    ensures var h := HandOf(s, w);
            Next(s, Lookup(w), limit)
            == s.(hands := s.hands[w := Hand(h.lookups[1..], h.messages + [MessageOf(s.q, h.lookups[0])])])
  {
  }

  /** What ProcessTask returned. */
  datatype Outcome = Finished | Shutdown | Broken(reason: string)

  /** That, and whether the acknowledgement or the dead-letter move that may follow reaches the server. */
  datatype Answer = Answer(outcome: Outcome, reached: bool)

  function EventOf(a: Answer, w: string): Event {
    match a.outcome
    case Finished => Succeed(w, a.reached)
    case Shutdown => Interrupted(w)
    case Broken(reason) => FailTask(w, reason, a.reached)
  }

  /** processMessage on the first message of the batch: exactly the step its outcome calls for. */
  method ProcessMessage(redis: Redis, m: Message, a: Answer, retryLimit: int, w: string, ghost rest: seq<Message>, s: System)
    returns (t: System)
    requires Mirrors(redis, s, w, Hand([], [m] + rest))
    modifies redis
    ensures Enabled(s, EventOf(a, w)) && t == Next(s, EventOf(a, w), retryLimit)
    ensures TrialOf(s, EventOf(a, w), w) == [(m.id, EventOf(a, w))]
    ensures Mirrors(redis, t, w, Hand([], rest))
  {
    var limit := if retryLimit <= 0 then 1 else retryLimit;
    match a.outcome {
      case Shutdown =>
      case Broken(reason) =>
        if m.deliveryCount >= limit && a.reached {
          redis.MoveToDeadLetter(m, reason);
        }
      case Finished =>
        if a.reached {
          redis.Ack(m.id);
        }
    }
    assert Enabled(s, EventOf(a, w));
    t := Next(s, EventOf(a, w), retryLimit);
    assert ([m] + rest)[1..] == rest;
  }

  lemma HandKept(s: System, e: Event, w: string, limit: int)
    requires Enabled(s, e) && !ByWorker(e, w)
    ensures HandOf(Next(s, e, limit), w) == HandOf(s, w)
  {
  }

  /** Meanwhile anything may happen that worker `w` does not do itself: enqueues, steps of other workers, requeues. */
  method OthersAct(redis: Redis, w: string, h: Hand, limit: int, s: System) returns (ghost events: seq<Event>, t: System)
    requires Mirrors(redis, s, w, h)
    modifies redis
    ensures Mirrors(redis, t, w, h) && Reaches(s, events, t, limit)
    ensures Own(events, w) == [] && Tried(s, events, w, limit) == []
  {
    hide Run, CanRun, Next, Enabled, Own, Tried;
    NoSteps(s, w, limit);
    events, t := [], s;
    var n: int := *;
    for i := 0 to if n < 0 then 0 else n
      invariant Mirrors(redis, t, w, h) && Reaches(s, events, t, limit)
      invariant Own(events, w) == [] && Tried(s, events, w, limit) == []
    {
      var e: Event := *;
      if Enabled(t, e) && !ByWorker(e, w) {
        HandKept(t, e, w, limit);
        OneStep(t, e, w, limit);
        Joined(s, events, t, [e], Next(t, e, limit), w, limit);
        events, t := events + [e], Next(t, e, limit);
        redis.entries, redis.delivered, redis.pending := t.q.entries, t.q.delivered, t.q.pending;
        redis.dead, redis.nextDead := t.q.dead, t.q.nextDead;
      }
    }
  }

  /** One trial of each entry, in order. */
  function Trials(ids: seq<nat>, answer: nat -> Answer, w: string): seq<(nat, Event)> {
    seq(|ids|, i requires 0 <= i < |ids| => (ids[i], EventOf(answer(i), w)))
  }

  function EventsOf(n: nat, answer: nat -> Answer, w: string): seq<Event> {
    seq(n, i requires 0 <= i < n => EventOf(answer(i), w))
  }

  /** The loop over a batch: the worker's own steps are one a message, in order, whatever others do between them. */
  method ProcessAll(redis: Redis, messages: seq<Message>, answer: nat -> Answer, retryLimit: int, w: string, s: System)
    returns (ghost events: seq<Event>, t: System)
    requires Mirrors(redis, s, w, Hand([], messages))
    modifies redis
    ensures Mirrors(redis, t, w, FREE) && Reaches(s, events, t, retryLimit)
    ensures Own(events, w) == EventsOf(|messages|, answer, w)
    ensures Tried(s, events, w, retryLimit) == Trials(MessageIds(messages), answer, w)
  {
    hide Run, CanRun, Next, Own, Tried, Enabled, TrialOf;
    NoSteps(s, w, retryLimit);
    events, t := [], s;
    for i := 0 to |messages|
      invariant Mirrors(redis, t, w, Hand([], messages[i..])) && Reaches(s, events, t, retryLimit)
      invariant Own(events, w) == EventsOf(i, answer, w)
      invariant Tried(s, events, w, retryLimit) == Trials(MessageIds(messages[..i]), answer, w)
    {
      assert messages[i..] == [messages[i]] + messages[i + 1..];
      ghost var others;
      var m, n;
      others, m := OthersAct(redis, w, Hand([], messages[i..]), retryLimit, t);
      Joined(s, events, t, others, m, w, retryLimit);
      n := ProcessMessage(redis, messages[i], answer(i), retryLimit, w, messages[i + 1..], m);
      OneStep(m, EventOf(answer(i), w), w, retryLimit);
      Joined(s, events + others, m, [EventOf(answer(i), w)], n, w, retryLimit);
      assert Trials(MessageIds(messages[..i + 1]), answer, w)
          == Trials(MessageIds(messages[..i]), answer, w) + [(messages[i].id, EventOf(answer(i), w))];
      events, t := events + others + [EventOf(answer(i), w)], n;
    }
    assert messages[..|messages|] == messages;
  }

  // ---------------------------------------------------------------- the loop

  /** The answers one turn of the loop gets: which idle entries the claim hands over, none when the call fails; which
      lookup fails; whether the read is answered; what becomes of the i-th message of either batch. */
  datatype Turn = Turn(
    claim: Option<Streams -> seq<nat>>, claimFails: Option<nat>, claimed: nat -> Answer,
    read: bool, readFails: Option<nat>, received: nat -> Answer)

  ghost predicate Possible(turn: Turn, minIdle: int, batch: int) {
    turn.claim.Some? ==> forall q :: Claimable(q, turn.claim.value(q), minIdle, batch)
  }

  /** The worker deals with a batch it has got: either one lookup fails and the batch is dropped, or each entry is tried
      once, in order, with the outcome given. */
  ghost predicate Dealt(s: System, events: seq<Event>, ids: seq<nat>, failAt: Option<nat>, answer: nat -> Answer,
                        w: string, limit: int)
  {
    && CanRun(s, events, limit)
    && HandOf(Run(s, events, limit), w) == FREE
    && if Missing(|ids|, failAt) then
         Own(events, w) == LookedUp(|ids|, failAt, w) && Tried(s, events, w, limit) == []
       else
         && Own(events, w) == LookedUp(|ids|, failAt, w) + EventsOf(|ids|, answer, w)
         && Tried(s, events, w, limit) == Trials(ids, answer, w)
  }

  ghost predicate Claims(s: System, events: seq<Event>, turn: Turn, minIdle: int, batch: int, w: string, limit: int) {
    if turn.claim.None? then events == []
    else
      var ids := turn.claim.value(s.q);
      var e := ClaimStale(w, minIdle, batch, ids);
      events != [] && events[0] == e && Enabled(s, e)
      && Dealt(Next(s, e, limit), events[1..], ids, turn.claimFails, turn.claimed, w, limit)
  }

  ghost predicate Receives(s: System, events: seq<Event>, turn: Turn, batch: int, w: string, limit: int) {
    if !turn.read then events == []
    else
      var e := Receive(w, batch);
      events != [] && events[0] == e && Enabled(s, e)
      && Dealt(Next(s, e, limit), events[1..], Ids(s.q.delivered, BatchSize(s.q, batch)), turn.readFails, turn.received, w, limit)
  }

  /** What happens in one turn; `before` and `between` are the others' doings. */
  datatype Trace = Trace(before: seq<Event>, claims: seq<Event>, between: seq<Event>, receives: seq<Event>)

  /** One turn from `s` to `t`: claim and deal, then receive and deal. */
  ghost predicate TakesTurn(s: System, trace: Trace, t: System, turn: Turn, minIdle: int, batch: int, w: string, limit: int) {
    && CanRun(s, trace.before, limit) && Own(trace.before, w) == []
    && var a := Run(s, trace.before, limit);
    && Claims(a, trace.claims, turn, minIdle, batch, w, limit) && CanRun(a, trace.claims, limit)
    && var b := Run(a, trace.claims, limit);
    && CanRun(b, trace.between, limit) && Own(trace.between, w) == []
    && var c := Run(b, trace.between, limit);
    && Receives(c, trace.receives, turn, batch, w, limit) && Reaches(c, trace.receives, t, limit)
  }

  lemma LoadedIds(q: Streams, ids: seq<nat>)
    requires forall i :: 0 <= i < |ids| ==> ids[i] < |q.entries|
    ensures MessageIds(Loaded(q, ids)) == ids
  {
  }

  /** parseRedisMessages and the loop over what it returns. */
  method DealWith(redis: Redis, ids: seq<nat>, failAt: Option<nat>, answer: nat -> Answer, retryLimit: int, w: string, s: System)
    returns (ghost events: seq<Event>, t: System)
    requires Mirrors(redis, s, w, Hand(ids, []))
    requires forall i :: 0 <= i < |ids| ==> ids[i] < |redis.entries|
    modifies redis
    ensures Mirrors(redis, t, w, FREE) && Reaches(s, events, t, retryLimit)
    ensures Dealt(s, events, ids, failAt, answer, w, retryLimit)
  {
    hide Next, Own, Tried, Enabled, Reaches, LookedUp;
    var messages, m;
    ghost var first, second;
    messages, first, m := ParseMessages(redis, ids, failAt, w, retryLimit, s);
    if !Missing(|ids|, failAt) {
      LoadedIds(redis.View(), ids);
    }
    second, t := ProcessAll(redis, messages, answer, retryLimit, w, m);
    Joined(s, first, m, second, t, w, retryLimit);
    events := first + second;
    ReachesRun(s, events, t, retryLimit);
  }

  lemma ReachesRun(s: System, events: seq<Event>, t: System, limit: int)
    requires Reaches(s, events, t, limit)
    ensures CanRun(s, events, limit) && Run(s, events, limit) == t
  {
  }

  lemma After(s: System, e: Event, rest: seq<Event>, t: System, limit: int)
    requires Enabled(s, e) && Reaches(Next(s, e, limit), rest, t, limit)
    ensures Reaches(s, [e] + rest, t, limit) && ([e] + rest)[0] == e && ([e] + rest)[1..] == rest
  {
    hide Next, Enabled;
    assert ([e] + rest)[0] == e && ([e] + rest)[1..] == rest;
  }

  /** ClaimStale and the loop over its answer, or neither. */
  method ClaimAndDeal(redis: Redis, turn: Turn, minIdle: int, batch: int, retryLimit: int, w: string, s: System)
    returns (ghost events: seq<Event>, t: System)
    requires Mirrors(redis, s, w, FREE) && Delivered(s.q) && Possible(turn, minIdle, batch)
    modifies redis
    ensures Mirrors(redis, t, w, FREE) && Reaches(s, events, t, retryLimit)
    ensures Claims(s, events, turn, minIdle, batch, w, retryLimit)
  {
    hide Reaches, Dealt;
    events, t := [], s;
    NoSteps(s, w, retryLimit);
    if turn.claim.Some? {
      var ids := turn.claim.value(redis.View());
      assert Claimable(redis.View(), ids, minIdle, batch);
      redis.Claim(ids, minIdle, batch);
      ghost var e := ClaimStale(w, minIdle, batch, ids);
      ghost var rest;
      var claimed := Next(s, ClaimStale(w, minIdle, batch, ids), retryLimit);
      rest, t := DealWith(redis, ids, turn.claimFails, turn.claimed, retryLimit, w, claimed);
      After(s, e, rest, t, retryLimit);
      events := [e] + rest;
    }
  }

  /** Receive and the loop over its answer, or neither. */
  method ReceiveAndDeal(redis: Redis, turn: Turn, batch: int, retryLimit: int, w: string, s: System)
    returns (ghost events: seq<Event>, t: System)
    requires Mirrors(redis, s, w, FREE) && Delivered(s.q)
    modifies redis
    ensures Mirrors(redis, t, w, FREE) && Reaches(s, events, t, retryLimit)
    ensures Receives(s, events, turn, batch, w, retryLimit)
  {
    hide Reaches, Dealt;
    events, t := [], s;
    NoSteps(s, w, retryLimit);
    if turn.read {
      var ids := redis.ReadNew(batch);
      ghost var e := Receive(w, batch);
      ghost var rest;
      var received := Next(s, Receive(w, batch), retryLimit);
      rest, t := DealWith(redis, ids, turn.readFails, turn.received, retryLimit, w, received);
      After(s, e, rest, t, retryLimit);
      events := [e] + rest;
    }
  }

  /** One turn, with enqueues, requeues and other workers' steps between its calls. */
  method TakeTurn(redis: Redis, turn: Turn, minIdle: int, batch: int, retryLimit: int, w: string, s: System)
    returns (ghost trace: Trace, ghost events: seq<Event>, t: System)
    requires Mirrors(redis, s, w, FREE) && Good(s, retryLimit) && Possible(turn, minIdle, batch)
    modifies redis
    ensures Mirrors(redis, t, w, FREE) && Reaches(s, events, t, retryLimit) && Good(t, retryLimit)
    ensures TakesTurn(s, trace, t, turn, minIdle, batch, w, retryLimit)
  {
    hide Reaches, Good, Own, Tried, Claims, Receives, Possible;
    ghost var before, claims, between, receives;
    var a, b, c;
    before, a := OthersAct(redis, w, FREE, retryLimit, s);
    GoodReached(s, before, a, retryLimit);
    claims, b := ClaimAndDeal(redis, turn, minIdle, batch, retryLimit, w, a);
    GoodReached(a, claims, b, retryLimit);
    between, c := OthersAct(redis, w, FREE, retryLimit, b);
    GoodReached(b, between, c, retryLimit);
    receives, t := ReceiveAndDeal(redis, turn, batch, retryLimit, w, c);
    GoodReached(c, receives, t, retryLimit);
    trace := Trace(before, claims, between, receives);
    Joined(s, before, a, claims, b, w, retryLimit);
    Joined(s, before + claims, b, between, c, w, retryLimit);
    Joined(s, before + claims + between, c, receives, t, w, retryLimit);
    events := before + claims + between + receives;
  }

  lemma GoodReached(s: System, events: seq<Event>, t: System, limit: int)
    requires Good(s, limit) && Reaches(s, events, t, limit)
    ensures CanRun(s, events, limit) && Run(s, events, limit) == t && Good(t, limit) && Delivered(t.q)
  {
    GoodRun(s, events, limit);
  }

  /** The worker's loop: every turn takes place as TakesTurn says, and all of them together are a run of the system, so
      everything proved of all runs holds of it. */
  method Work(redis: Redis, turns: seq<Turn>, minIdle: int, batch: int, retryLimit: int, w: string, start: System)
    returns (ghost states: seq<System>, ghost traces: seq<Trace>, ghost events: seq<Event>, t: System)
    requires Mirrors(redis, start, w, FREE) && Good(start, retryLimit)
    requires forall k :: 0 <= k < |turns| ==> Possible(turns[k], minIdle, batch)
    modifies redis
    ensures Mirrors(redis, t, w, FREE) && Reaches(start, events, t, retryLimit)
    ensures |traces| == |turns| && |states| == |turns| + 1 && states[0] == start && states[|turns|] == t
    ensures forall k :: 0 <= k < |turns| ==>
              TakesTurn(states[k], traces[k], states[k + 1], turns[k], minIdle, batch, w, retryLimit)
  {
    hide Reaches, Good, Own, Tried, TakesTurn, Possible;
    NoSteps(start, w, retryLimit);
    states, traces, events, t := [start], [], [], start;
    for k := 0 to |turns|
      invariant Mirrors(redis, t, w, FREE) && Reaches(start, events, t, retryLimit) && Good(t, retryLimit)
      invariant |traces| == k && |states| == k + 1 && states[0] == start && states[k] == t
      invariant forall j :: 0 <= j < k ==>
                  TakesTurn(states[j], traces[j], states[j + 1], turns[j], minIdle, batch, w, retryLimit)
    {
      ghost var trace, more;
      var next;
      trace, more, next := TakeTurn(redis, turns[k], minIdle, batch, retryLimit, w, t);
      Joined(start, events, t, more, next, w, retryLimit);
      states, traces, events, t := states + [next], traces + [trace], events + more, next;
    }
  }

  // ---------------------------------------------------------------- what a turn does to a task

  /** A claim hands over the ids it answers, each delivered once more, and touches no other. */
  lemma ClaimRaises(s: System, w: string, minIdle: int, batch: int, ids: seq<nat>, limit: int, i: nat)
    requires Enabled(s, ClaimStale(w, minIdle, batch, ids)) && i in s.q.pending
    ensures var t := Next(s, ClaimStale(w, minIdle, batch, ids), limit);
            && HandOf(t, w) == Hand(ids, []) && t.q.pending.Keys == s.q.pending.Keys
            && t.q.pending[i] == s.q.pending[i] + if i in ids then 1 else 0
  {
  }

  /** What a trial leaves of an entry: gone when it succeeded and the acknowledgement arrived, a dead letter when it failed
      after enough deliveries and the move arrived, pending with the same count in every other case. */
  lemma TrialSettles(s: System, a: Answer, w: string, limit: int)
    requires Enabled(s, EventOf(a, w))
    ensures var m, t := HandOf(s, w).messages[0], Next(s, EventOf(a, w), limit);
      var buried := a.outcome.Broken? && m.deliveryCount >= limit && m.deliveryCount >= 1 && a.reached;
      && t.q.entries == s.q.entries
      && (if (a.outcome.Finished? && a.reached) || buried then t.q.pending == s.q.pending - {m.id} else t.q.pending == s.q.pending)
      && (if a.outcome.Finished? then t.done == s.done + {m.id} else t.done == s.done)
      && (if buried
          then t.q.dead == s.q.dead[s.q.nextDead := DeadRecord(m.id, m.task, m.deliveryCount, a.outcome.reason)]
          else t.q.dead == s.q.dead)
      && HandOf(t, w) == Hand([], HandOf(s, w).messages[1..])
  {
  }
}
