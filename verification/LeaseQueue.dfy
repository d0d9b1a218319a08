/** The worker queue (`server/queueing.py`): items, leases and the audit log, one atomic step per call. */
module LeaseQueue {
  import opened Wrappers
  import opened Json

  datatype ItemState = Queued | Leased | Completed | Failed

  datatype Item = Item(
    key: string, workflowId: string, taskId: string, nodeId: string, agentId: string, payload: Json,
    state: ItemState, attempts: nat,
    leaseId: Option<nat>, leasedBy: Option<string>, expiresAt: Option<int>,
    createdAt: int)

  datatype LeaseRow = LeaseRow(item: nat, worker: string, released: bool, expiresAt: int)

  datatype EventKind =
    | ItemEnqueued | LeaseAcquired | ItemDequeued | LeaseRenewed
    | TaskDone | LeaseReleased | TaskFault | TaskRequeued | LeaseLapsed

  datatype QueueEvent = QueueEvent(kind: EventKind, item: nat, state: ItemState, lease: Option<nat>)

  // Item and lease ids are row numbers: a supply of fresh, time-ordered ids.
  datatype Queue = Queue(items: seq<Item>, leases: seq<LeaseRow>, log: seq<QueueEvent>)

  datatype QueueError = MissingIds | BadTtl | ItemNotFound | InvalidLease | LeaseHasExpired

  type Outcome = Result<Option<nat>, QueueError>

  function NonEmptyOr(text: Option<string>, fallback: string): string {
    if text.Some? && text.value != "" then text.value else fallback
  }

  function IdempotencyKey(prefix: string, workflow: string, task: string, agent: string): string {
    prefix + ":" + workflow + ":" + task + ":" + agent
  }

  function FindKey(items: seq<Item>, key: string): (r: Option<nat>)
    ensures r.Some? ==> r.value < |items| && items[r.value].key == key
    ensures r.None? ==> forall i :: 0 <= i < |items| ==> items[i].key != key
  {
    if items == [] then None
    else if items[|items| - 1].key == key then Some(|items| - 1)
    else FindKey(items[..|items| - 1], key)
  }

  datatype Request = Request(
    prefix: string, workflow: Option<string>, task: string, node: Option<string>, agent: string, payload: Json)

  function RequestKey(r: Request): string {
    IdempotencyKey(r.prefix, NonEmptyOr(r.workflow, r.task), r.task, r.agent)
  }

  function NewItem(r: Request, now: int): Item {
    Item(RequestKey(r), NonEmptyOr(r.workflow, r.task), r.task, NonEmptyOr(r.node, r.task), r.agent, r.payload,
         Queued, 0, None, None, None, now)
  }

  function Enqueue(q: Queue, r: Request, now: int): (Queue, Outcome) {
    if r.task == "" || r.agent == "" then (q, Err(MissingIds))
    else
      var existing := FindKey(q.items, RequestKey(r));
      if existing.Some? then (q, Ok(existing))
      else
        var id := |q.items|;
        (Queue(q.items + [NewItem(r, now)], q.leases, q.log + [QueueEvent(ItemEnqueued, id, Queued, None)]),
         Ok(Some(id)))
  }

  // ---- Recovery of expired leases ----

  predicate Expired(it: Item, now: int) {
    it.state == Leased && it.expiresAt.Some? && it.expiresAt.value <= now
  }

  function Released(it: Item, state: ItemState): Item {
    it.(state := state, leaseId := None, leasedBy := None, expiresAt := None)
  }

  /** A requeue event follows whenever the item went back to the queue. */
  function WithRequeue(log: seq<QueueEvent>, i: nat, state: ItemState): seq<QueueEvent> {
    if state == Queued then log + [QueueEvent(TaskRequeued, i, state, None)] else log
  }

  function RecoverOne(q: Queue, i: nat, now: int, max: nat): (r: Queue)
    requires i < |q.items|
    ensures |r.items| == |q.items|
  {
    var it := q.items[i];
    if !Expired(it, now) then q
    else
      var state := if it.attempts < max then Queued else Failed;
      Queue(
        q.items[i := Released(it, state)],
        q.leases,
        WithRequeue(q.log + [QueueEvent(LeaseLapsed, i, state, it.leaseId)], i, state))
  }

  function Recover(q: Queue, n: nat, now: int, max: nat): (r: Queue)
    requires n <= |q.items|
    ensures |r.items| == |q.items|
  {
    if n == 0 then q else RecoverOne(Recover(q, n - 1, now, max), n - 1, now, max)
  }

  function RecoverAll(q: Queue, now: int, max: nat): (r: Queue)
    ensures |r.items| == |q.items|
  {
    Recover(q, |q.items|, now, max)
  }

  // ---- Claim ----

  predicate Claimable(it: Item, agent: string, workflow: Option<string>, max: nat) {
    && it.state == Queued
    && it.agentId == agent
    && it.attempts < max
    && (workflow.Some? ==> it.workflowId == workflow.value)
  }

  /** First claimable row in order of creation time, then id. */
  function Oldest(items: seq<Item>, n: nat, agent: string, workflow: Option<string>, max: nat): (r: Option<nat>)
    requires n <= |items|
    ensures r.Some? ==> r.value < n
  {
    if n == 0 then None
    else
      var best := Oldest(items, n - 1, agent, workflow, max);
      if Claimable(items[n - 1], agent, workflow, max)
         && (best.None? || items[n - 1].createdAt < items[best.value].createdAt)
      then Some(n - 1) else best
  }

  predicate TtlOk(ttl: int) {
    30 <= ttl <= 3600
  }

  function Take(q: Queue, i: nat, worker: string, expires: int): Queue
    requires i < |q.items|
  {
    var id := |q.leases|;
    var it := q.items[i];
    Queue(
      q.items[i := it.(state := Leased, attempts := it.attempts + 1, leaseId := Some(id), leasedBy := Some(worker),
                       expiresAt := Some(expires))],
      q.leases + [LeaseRow(i, worker, false, expires)],
      q.log + [QueueEvent(LeaseAcquired, i, Leased, Some(id))] + [QueueEvent(ItemDequeued, i, Leased, None)])
  }

  /** `now` is the clock reading of recovery, `stamp` the later one the expiry is computed from. */
  function Claim(q: Queue, agent: string, worker: string, workflow: Option<string>, ttl: int, now: int, stamp: int,
                 max: nat)
    : (Queue, Outcome)
  {
    if !TtlOk(ttl) then (q, Err(BadTtl))
    else
      var r := RecoverAll(q, now, max);
      var pick := Oldest(r.items, |r.items|, agent, workflow, max);
      if pick.None? then (r, Ok(None)) else (Take(r, pick.value, worker, stamp + ttl), Ok(pick))
  }

  // ---- Renew, complete, fail ----

  /** Why a worker may not act on an item, if so. */
  function LeaseFault(q: Queue, i: nat, lease: nat, worker: string, now: int): Option<QueueError> {
    if i >= |q.items| then Some(ItemNotFound)
    else
      var it := q.items[i];
      if it.state != Leased || it.leaseId != Some(lease) || it.leasedBy != Some(worker) then Some(InvalidLease)
      else if it.expiresAt.Some? && now > it.expiresAt.value then Some(LeaseHasExpired)
      else None
  }

  function SetExpiry(leases: seq<LeaseRow>, lease: nat, expires: int): seq<LeaseRow> {
    if lease < |leases| then leases[lease := leases[lease].(expiresAt := expires)] else leases
  }

  function SetReleased(leases: seq<LeaseRow>, lease: nat): seq<LeaseRow> {
    if lease < |leases| then leases[lease := leases[lease].(released := true)] else leases
  }

  function Renew(q: Queue, i: nat, lease: nat, worker: string, ttl: int, now: int, stamp: int): (Queue, Outcome) {
    if !TtlOk(ttl) then (q, Err(BadTtl))
    else
      var fault := LeaseFault(q, i, lease, worker, now);
      if fault.Some? then (q, Err(fault.value))
      else
        (Queue(q.items[i := q.items[i].(expiresAt := Some(stamp + ttl))],
               SetExpiry(q.leases, lease, stamp + ttl),
               q.log + [QueueEvent(LeaseRenewed, i, Leased, Some(lease))]),
         Ok(Some(i)))
  }

  function Complete(q: Queue, i: nat, lease: nat, worker: string, now: int): (Queue, Outcome) {
    var fault := LeaseFault(q, i, lease, worker, now);
    if fault.Some? then (q, Err(fault.value))
    else
      (Queue(q.items[i := q.items[i].(state := Completed)],
             SetReleased(q.leases, lease),
             q.log + [QueueEvent(TaskDone, i, Completed, Some(lease))] +
               [QueueEvent(LeaseReleased, i, Completed, Some(lease))]),
       Ok(Some(i)))
  }

  function Fail(q: Queue, i: nat, lease: nat, worker: string, requeue: bool, now: int, max: nat): (Queue, Outcome) {
    var fault := LeaseFault(q, i, lease, worker, now);
    if fault.Some? then (q, Err(fault.value))
    else
      var state := if requeue && q.items[i].attempts < max then Queued else Failed;
      (Queue(q.items[i := Released(q.items[i], state)],
             SetReleased(q.leases, lease),
             WithRequeue(q.log + [QueueEvent(TaskFault, i, state, Some(lease))], i, state)),
       Ok(Some(i)))
  }

  /** The coordinator over the three tables; each method is one write transaction. */
  class QueueCoordinator {
    const maxAttempts: nat
    var items: seq<Item>
    var leases: seq<LeaseRow>
    var log: seq<QueueEvent>

    function Tables(): Queue
      reads this
    {
      Queue(items, leases, log)
    }

    constructor (max: nat)
      ensures maxAttempts == max && Tables() == Queue([], [], [])
    {
      maxAttempts := max;
      items, leases, log := [], [], [];
    }

    method Append(kind: EventKind, i: nat, lease: Option<nat>)
      requires i < |items|
      modifies this`log
      ensures log == old(log) + [QueueEvent(kind, i, items[i].state, lease)]
    {
      log := log + [QueueEvent(kind, i, items[i].state, lease)];
    }

    method EnqueueTask(r: Request, now: int) returns (out: Outcome)
      modifies this
      ensures (Tables(), out) == Enqueue(old(Tables()), r, now)
    {
      if r.task == "" || r.agent == "" {
        return Err(MissingIds);
      }
      var existing := FindKey(items, RequestKey(r));
      if existing.Some? {
        return Ok(existing);
      }
      items := items + [NewItem(r, now)];
      Append(ItemEnqueued, |items| - 1, None);
      return Ok(Some(|items| - 1));
    }

    method RecoverExpired(now: int)
      modifies this`items, this`log
      ensures Tables() == RecoverAll(old(Tables()), now, maxAttempts)
    {
      for i := 0 to |items|
        invariant |items| == |old(items)|
        invariant Tables() == Recover(old(Tables()), i, now, maxAttempts)
      {
        if items[i].state == Leased && items[i].expiresAt.Some? && items[i].expiresAt.value <= now {
          var oldLease := items[i].leaseId;
          items := items[i := items[i].(state := if items[i].attempts < maxAttempts then Queued else Failed)];
          items := items[i := items[i].(leaseId := None)];
          items := items[i := items[i].(leasedBy := None)];
          items := items[i := items[i].(expiresAt := None)];
          Append(LeaseLapsed, i, oldLease);
          if items[i].state == Queued {
            Append(TaskRequeued, i, None);
          }
        }
      }
    }

    method FindOldest(agent: string, workflow: Option<string>) returns (pick: Option<nat>)
      ensures pick == Oldest(items, |items|, agent, workflow, maxAttempts)
    {
      pick := None;
      for i := 0 to |items|
        invariant pick == Oldest(items, i, agent, workflow, maxAttempts)
      {
        if Claimable(items[i], agent, workflow, maxAttempts)
           && (pick.None? || items[i].createdAt < items[pick.value].createdAt) {
          pick := Some(i);
        }
      }
    }

    method ClaimTask(agent: string, worker: string, workflow: Option<string>, ttl: int, now: int, stamp: int)
      returns (out: Outcome)
      modifies this
      ensures (Tables(), out) == Claim(old(Tables()), agent, worker, workflow, ttl, now, stamp, maxAttempts)
    {
      if ttl < 30 || ttl > 3600 {
        return Err(BadTtl);
      }
      RecoverExpired(now);
      var pick := FindOldest(agent, workflow);
      if pick.None? {
        return Ok(None);
      }
      var i := pick.value;
      var leaseId := |leases|;
      var expires := stamp + ttl;
      items := items[i := items[i].(state := Leased, attempts := items[i].attempts + 1, leaseId := Some(leaseId),
                                    leasedBy := Some(worker), expiresAt := Some(expires))];
      leases := leases + [LeaseRow(i, worker, false, expires)];
      Append(LeaseAcquired, i, Some(leaseId));
      Append(ItemDequeued, i, None);
      return Ok(pick);
    }

    method LeasedRecord(i: nat, lease: nat, worker: string, now: int) returns (fault: Option<QueueError>)
      ensures fault == LeaseFault(Tables(), i, lease, worker, now)
      ensures fault.None? <==>
        && i < |items| && items[i].state == Leased && items[i].leaseId == Some(lease)
        && items[i].leasedBy == Some(worker) && (items[i].expiresAt.Some? ==> now <= items[i].expiresAt.value)
    {
      if i >= |items| {
        return Some(ItemNotFound);
      }
      var it := items[i];
      if it.state != Leased || it.leaseId != Some(lease) || it.leasedBy != Some(worker) {
        return Some(InvalidLease);
      }
      if it.expiresAt.Some? && now > it.expiresAt.value {
        return Some(LeaseHasExpired);
      }
      return None;
    }

    method RenewLease(i: nat, lease: nat, worker: string, ttl: int, now: int, stamp: int) returns (out: Outcome)
      modifies this
      ensures (Tables(), out) == Renew(old(Tables()), i, lease, worker, ttl, now, stamp)
    {
      if ttl < 30 || ttl > 3600 {
        return Err(BadTtl);
      }
      var fault := LeasedRecord(i, lease, worker, now);
      if fault.Some? {
        return Err(fault.value);
      }
      var expires := stamp + ttl;
      items := items[i := items[i].(expiresAt := Some(expires))];
      if lease < |leases| {
        leases := leases[lease := leases[lease].(expiresAt := expires)];
      }
      Append(LeaseRenewed, i, Some(lease));
      return Ok(Some(i));
    }

    method CompleteTask(i: nat, lease: nat, worker: string, now: int) returns (out: Outcome)
      modifies this
      ensures (Tables(), out) == Complete(old(Tables()), i, lease, worker, now)
    {
      var fault := LeasedRecord(i, lease, worker, now);
      if fault.Some? {
        return Err(fault.value);
      }
      items := items[i := items[i].(state := Completed)];
      if lease < |leases| {
        leases := leases[lease := leases[lease].(released := true)];
      }
      Append(TaskDone, i, Some(lease));
      Append(LeaseReleased, i, Some(lease));
      return Ok(Some(i));
    }

    method FailTask(i: nat, lease: nat, worker: string, requeue: bool, now: int) returns (out: Outcome)
      modifies this
      ensures (Tables(), out) == Fail(old(Tables()), i, lease, worker, requeue, now, maxAttempts)
    {
      var fault := LeasedRecord(i, lease, worker, now);
      if fault.Some? {
        return Err(fault.value);
      }
      var willRequeue := requeue && items[i].attempts < maxAttempts;
      items := items[i := items[i].(state := if willRequeue then Queued else Failed)];
      items := items[i := items[i].(leaseId := None, leasedBy := None, expiresAt := None)];
      assert items == old(items)[i := Released(old(items[i]), items[i].state)];
      if lease < |leases| {
        leases := leases[lease := leases[lease].(released := true)];
      }
      Append(TaskFault, i, Some(lease));
      if willRequeue {
        Append(TaskRequeued, i, None);
      }
      return Ok(Some(i));
    }
  }
}
