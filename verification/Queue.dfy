/** internal/queue/queue.go: the Redis stream, its pending list and dead-letter stream, and the client calls.
    The id of a stream entry is its position: XADD assigns increasing ids and nothing is ever deleted from
    the stream. */
module Queue {
  import opened Domain

  /** Task payloads, as the JSON text they are stored in decodes. */
  datatype Payload = Fields(fields: map<string, string>) | ParseError(kind: string, raw: Payload)

  datatype Task = Task(kind: string, payload: Payload)

  datatype Entry = Entry(kind: string, payload: Payload, originalID: Option<nat>)

  datatype DeadRecord = DeadRecord(originalID: nat, task: Task, deliveryCount: nat, reason: string)

  datatype Message = Message(id: nat, task: Task, deliveryCount: nat)

  /** `delivered` entries have been handed out; `pending` counts the deliveries of those not acknowledged. */
  datatype Streams = Streams(entries: seq<Entry>, delivered: nat, pending: map<nat, nat>, dead: map<nat, DeadRecord>, nextDead: nat)

  const EMPTY := Streams([], 0, map[], map[], 0)

  // ---------------------------------------------------------------- parsing

  /** parseRedisTask, with the replacement parseRedisMessages makes when it fails. */
  function Parsed(e: Entry): Task {
    if e.kind == "" || e.kind == "<nil>" then Task("invalid", ParseError(e.kind, e.payload))
    else Task(e.kind, e.payload)
  }

  function Enqueued(task: Task): Entry {
    Entry(task.kind, task.payload, None)
  }

  /** A task comes out of the stream as it went in exactly when its type is neither empty nor "<nil>". */
  lemma ParsedEnqueued(task: Task)
    ensures Parsed(Enqueued(task)) == task <==> task.kind != "" && task.kind != "<nil>"
    ensures Parsed(Enqueued(Parsed(Enqueued(task)))) == Parsed(Enqueued(task))
  {
    if task.kind == "" || task.kind == "<nil>" {
      assert Parsed(Enqueued(task)).kind == "invalid";
      assert "invalid"[0] == 'i' && "<nil>"[0] == '<';
    }
  }

  // ---------------------------------------------------------------- commands, one atomic step each

  function XAdd(q: Streams, e: Entry): Streams {
    q.(entries := q.entries + [e])
  }

  /** How many new entries XREADGROUP hands out; a count of zero or less is read as one. */
  function BatchSize(q: Streams, count: int): nat
    requires q.delivered <= |q.entries|
  {
    var wanted := if count <= 0 then 1 else count;
    var left := |q.entries| - q.delivered;
    if wanted <= left then wanted else left
  }

  function Ids(low: nat, n: nat): (ids: seq<nat>)
    ensures |ids| == n && forall k :: 0 <= k < n ==> ids[k] == low + k
    ensures forall i :: i in ids <==> low <= i < low + n
  {
    if n == 0 then [] else Ids(low, n - 1) + [low + n - 1]
  }

  function FirstDeliveries(ids: seq<nat>): map<nat, nat> {
    map i | i in ids :: 1
  }

  function XReadGroup(q: Streams, n: nat): Streams
    requires q.delivered + n <= |q.entries|
  {
    q.(delivered := q.delivered + n, pending := q.pending + FirstDeliveries(Ids(q.delivered, n)))
  }

  /** The answer to XAUTOCLAIM: pending entries idle for long enough, in id order, at most `count`. */
  predicate Claimable(q: Streams, ids: seq<nat>, minIdle: int, count: int) {
    && (minIdle <= 0 ==> ids == [])
    && |ids| <= (if count <= 0 then 1 else count)
    && (forall i :: 0 <= i < |ids| ==> ids[i] in q.pending)
    && (forall i, j :: 0 <= i < j < |ids| ==> ids[i] < ids[j])
  }

  function XAutoClaim(q: Streams, ids: seq<nat>): Streams {
    q.(pending := map i | i in q.pending :: if i in ids then q.pending[i] + 1 else q.pending[i])
  }

  /** deliveryCount: 1 when the entry is no longer pending. */
  function DeliveryCount(q: Streams, id: nat): nat {
    if id in q.pending && q.pending[id] > 0 then q.pending[id] else 1
  }

  function XAck(q: Streams, id: nat): Streams {
    q.(pending := q.pending - {id})
  }

  /** MoveToDeadLetter: XADD to the dead-letter stream and XACK in one MULTI. */
  function MoveToDead(q: Streams, m: Message, reason: string): Streams {
    q.(dead := q.dead[q.nextDead := DeadRecord(m.id, m.task, m.deliveryCount, reason)], nextDead := q.nextDead + 1,
       pending := q.pending - {m.id})
  }

  /** RequeueDeadLetter, second half: XADD of the record read before and XDEL in one MULTI. */
  function RequeueDead(q: Streams, deadID: nat, r: DeadRecord): Streams {
    q.(entries := q.entries + [Entry(r.task.kind, r.task.payload, Some(r.originalID))], dead := q.dead - {deadID})
  }

  function MessageOf(q: Streams, id: nat): Message
    requires id < |q.entries|
  {
    Message(id, Parsed(q.entries[id]), DeliveryCount(q, id))
  }

  function RetryLimit(limit: int): nat {
    if limit <= 0 then 1 else limit
  }

  /** A read hands out as many new entries as asked for, one when asked for none or fewer, or all that are left. */
  lemma BatchSizeExact(q: Streams, count: int)
    requires q.delivered <= |q.entries|
    ensures var n, left := BatchSize(q, count), |q.entries| - q.delivered;
      && n <= left && (n == left || n == count || (n == 1 && count <= 0)) && (left > 0 ==> n > 0) && (count > 0 ==> n <= count)
  {
  }

  /** A requeue appends the task under a name of its own, takes the one dead letter away and touches nothing else. */
  lemma RequeueExact(q: Streams, deadID: nat, r: DeadRecord)
    ensures var t := RequeueDead(q, deadID, r);
      && t.entries == q.entries + [Entry(r.task.kind, r.task.payload, Some(r.originalID))]
      && t.delivered == q.delivered && t.pending == q.pending && t.nextDead == q.nextDead
      && deadID !in t.dead && (forall d :: d != deadID ==> (d in t.dead <==> d in q.dead))
      && forall d <- t.dead :: t.dead[d] == q.dead[d]
  {
  }
}
