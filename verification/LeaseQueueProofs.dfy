/** Conservation, fencing and log agreement of the lease queue over every run. */
module LeaseQueueProofs {
  import opened Wrappers
  import opened Json
  import opened LeaseQueue

  // ---- Folding the audit log of one item ----

  datatype Trace = Trace(
    known: bool, state: ItemState, attempts: nat,
    acquired: nat, completed: nat, failed: nat, lapsed: nat)

  const UNSEEN := Trace(false, Queued, 0, 0, 0, 0, 0)

  /** What one audit event says happened to its item, read without looking at the table. */
  function Advance(t: Trace, kind: EventKind): Trace {
    match kind
    case ItemEnqueued => t.(known := true, state := Queued, attempts := 0)
    case LeaseAcquired => t.(state := Leased, attempts := t.attempts + 1, acquired := t.acquired + 1)
    case TaskDone => t.(state := Completed, completed := t.completed + 1)
    case TaskFault => t.(state := Failed, failed := t.failed + 1)
    case LeaseLapsed => t.(state := Failed, lapsed := t.lapsed + 1)
    case TaskRequeued => t.(state := Queued)
    case ItemDequeued | LeaseRenewed | LeaseReleased => t
  }

  function Trail(log: seq<QueueEvent>, i: nat): Trace {
    if log == [] then UNSEEN
    else
      var t, e := Trail(log[..|log| - 1], i), log[|log| - 1];
      if e.item == i then Advance(t, e.kind) else t
  }

  lemma TrailSnoc(log: seq<QueueEvent>, e: QueueEvent, i: nat)
    ensures Trail(log + [e], i) == if e.item == i then Advance(Trail(log, i), e.kind) else Trail(log, i)
  {
    assert (log + [e])[..|log|] == log;
  }

  lemma TrailUnseen(log: seq<QueueEvent>, i: nat)
    requires forall e :: e in log ==> e.item != i
    ensures Trail(log, i) == UNSEEN
  {
    if log != [] {
      assert log == log[..|log| - 1] + [log[|log| - 1]];
      TrailUnseen(log[..|log| - 1], i);
    }
  }

  /** Number of lease rows issued for an item. */
  function LeaseCount(leases: seq<LeaseRow>, i: nat): nat {
    if leases == [] then 0
    else LeaseCount(leases[..|leases| - 1], i) + (if leases[|leases| - 1].item == i then 1 else 0)
  }

  lemma LeaseCountSnoc(leases: seq<LeaseRow>, row: LeaseRow, i: nat)
    ensures LeaseCount(leases + [row], i) == LeaseCount(leases, i) + (if row.item == i then 1 else 0)
  {
    assert (leases + [row])[..|leases|] == leases;
  }

  lemma {:induction false} LeaseCountSameItems(a: seq<LeaseRow>, b: seq<LeaseRow>, i: nat)
    requires |a| == |b| && forall l :: 0 <= l < |a| ==> a[l].item == b[l].item
    ensures LeaseCount(a, i) == LeaseCount(b, i)
  {
    if a != [] {
      LeaseCountSameItems(a[..|a| - 1], b[..|b| - 1], i);
    }
  }

  lemma LeaseCountNone(leases: seq<LeaseRow>, i: nat)
    requires forall l :: 0 <= l < |leases| ==> leases[l].item != i
    ensures LeaseCount(leases, i) == 0
  {
  }

  // ---- The invariant ----

  predicate HoldsNoLease(it: Item) {
    it.leaseId.None? && it.leasedBy.None? && it.expiresAt.None?
  }

  predicate HoldsLease(q: Queue, i: nat)
    requires i < |q.items|
  {
    var it := q.items[i];
    && it.leaseId.Some? && it.leasedBy.Some? && it.expiresAt.Some?
    && it.leaseId.value < |q.leases|
    && q.leases[it.leaseId.value] == LeaseRow(i, it.leasedBy.value, false, it.expiresAt.value)
  }

  /** Table row, lease rows and audit log tell one story about item `i`. */
  predicate ItemOk(q: Queue, i: nat, max: nat)
    requires i < |q.items|
  {
    var it, t := q.items[i], Trail(q.log, i);
    && t.known && t.state == it.state && t.attempts == it.attempts
    && it.attempts == t.acquired == LeaseCount(q.leases, i)
    && it.attempts == t.completed + t.failed + t.lapsed + (if it.state == Leased then 1 else 0)
    && it.attempts <= max
    && t.completed == (if it.state == Completed then 1 else 0)
    && (it.state == Queued ==> HoldsNoLease(it) && it.attempts < max)
    && (it.state == Failed ==> HoldsNoLease(it))
    && (it.state == Leased ==> HoldsLease(q, i))
    && (it.state == Completed ==>
        it.leaseId.Some? && it.leaseId.value < |q.leases| && q.leases[it.leaseId.value].item == i)
  }

  predicate RowsInRange(q: Queue) {
    && (forall e :: e in q.log ==> e.item < |q.items|)
    && (forall l :: 0 <= l < |q.leases| ==> q.leases[l].item < |q.items|)
  }

  predicate KeysUnique(q: Queue) {
    forall i, j :: 0 <= i < j < |q.items| ==> q.items[i].key != q.items[j].key
  }

  predicate Inv(q: Queue, max: nat) {
    && RowsInRange(q)
    && KeysUnique(q)
    && forall i :: 0 <= i < |q.items| ==> ItemOk(q, i, max)
  }

  const EMPTY_QUEUE := Queue([], [], [])

  // ---- Steps ----

  datatype Op =
    | DoEnqueue(request: Request, now: int)
    | DoClaim(agent: string, worker: string, workflow: Option<string>, ttl: int, now: int, stamp: int)
    | DoRenew(item: nat, lease: nat, worker: string, ttl: int, now: int, stamp: int)
    | DoComplete(item: nat, lease: nat, worker: string, now: int)
    | DoFail(item: nat, lease: nat, worker: string, requeue: bool, now: int)

  function Perform(q: Queue, op: Op, max: nat): (Queue, Outcome) {
    match op
    case DoEnqueue(r, now) => Enqueue(q, r, now)
    case DoClaim(agent, worker, workflow, ttl, now, stamp) => Claim(q, agent, worker, workflow, ttl, now, stamp, max)
    case DoRenew(i, lease, worker, ttl, now, stamp) => Renew(q, i, lease, worker, ttl, now, stamp)
    case DoComplete(i, lease, worker, now) => Complete(q, i, lease, worker, now)
    case DoFail(i, lease, worker, requeue, now) => Fail(q, i, lease, worker, requeue, now, max)
  }

  /** Any interleaving of transactions by any number of workers. */
  function RunOps(q: Queue, ops: seq<Op>, max: nat): Queue {
    if ops == [] then q else Perform(RunOps(q, ops[..|ops| - 1], max), ops[|ops| - 1], max).0
  }

  /** A change confined to item `i`: its row, its lease rows, its events. */
  predicate Touches(q: Queue, r: Queue, i: nat) {
    && i < |q.items| == |r.items|
    && (forall j :: 0 <= j < |q.items| && j != i ==> r.items[j] == q.items[j])
    && r.items[i].key == q.items[i].key
    && |q.leases| <= |r.leases|
    && (forall l :: 0 <= l < |q.leases| ==>
        r.leases[l].item == q.leases[l].item && (q.leases[l].item != i ==> r.leases[l] == q.leases[l]))
    && (forall l :: |q.leases| <= l < |r.leases| ==> r.leases[l].item == i)
    && |q.log| <= |r.log|
    && r.log[..|q.log|] == q.log
    && (forall k :: |q.log| <= k < |r.log| ==> r.log[k].item == i)
  }

  lemma {:induction false} TrailIgnores(before: seq<QueueEvent>, log: seq<QueueEvent>, i: nat, j: nat)
    requires |before| <= |log| && log[..|before|] == before
    requires forall k :: |before| <= k < |log| ==> log[k].item == i
    requires i != j
    ensures Trail(log, j) == Trail(before, j)
    decreases |log|
  {
    if |log| == |before| {
      assert log == log[..|before|];
    } else {
      var front := log[..|log| - 1];
      assert front[..|before|] == log[..|before|];
      TrailIgnores(before, front, i, j);
    }
  }

  lemma {:induction false} LeaseCountIgnores(before: seq<LeaseRow>, leases: seq<LeaseRow>, i: nat, j: nat)
    requires |before| <= |leases| && i != j
    requires forall l :: 0 <= l < |before| ==> leases[l].item == before[l].item
    requires forall l :: |before| <= l < |leases| ==> leases[l].item == i
    ensures LeaseCount(leases, j) == LeaseCount(before, j)
    decreases |leases|
  {
    if |leases| == |before| {
      LeaseCountSameItems(leases, before, j);
    } else {
      LeaseCountIgnores(before, leases[..|leases| - 1], i, j);
    }
  }

  lemma TouchKeepsOthers(q: Queue, r: Queue, i: nat, j: nat, max: nat)
    requires Touches(q, r, i) && j < |q.items| && j != i && ItemOk(q, j, max)
    ensures ItemOk(r, j, max)
  {
    TrailIgnores(q.log, r.log, i, j);
    LeaseCountIgnores(q.leases, r.leases, i, j);
  }

  /** A change confined to one item keeps the invariant when that item's story stays consistent. */
  lemma TouchKeepsInv(q: Queue, r: Queue, i: nat, max: nat)
    requires Inv(q, max) && Touches(q, r, i) && ItemOk(r, i, max)
    ensures Inv(r, max)
  {
    forall j | 0 <= j < |r.items| ensures ItemOk(r, j, max) {
      if j != i {
        TouchKeepsOthers(q, r, i, j, max);
      }
    }
    forall e | e in r.log ensures e.item < |r.items| {
      var k :| 0 <= k < |r.log| && r.log[k] == e;
      if k < |q.log| {
        assert r.log[..|q.log|][k] == e;
        assert e in q.log;
      }
    }
    assert RowsInRange(r);
    assert KeysUnique(r) by {
      forall a, b | 0 <= a < b < |r.items| ensures r.items[a].key != r.items[b].key {
        assert r.items[a].key == q.items[a].key && r.items[b].key == q.items[b].key;
      }
    }
  }

  lemma RequeueTrail(log: seq<QueueEvent>, i: nat, state: ItemState)
    requires state == Queued || state == Failed
    requires Trail(log, i).state == Failed
    ensures Trail(WithRequeue(log, i, state), i) == Trail(log, i).(state := state)
  {
    TrailSnoc(log, QueueEvent(TaskRequeued, i, state, None), i);
  }

  lemma RecoverOneInv(q: Queue, i: nat, now: int, max: nat)
    requires i < |q.items| && Inv(q, max)
    ensures Inv(RecoverOne(q, i, now, max), max)
  {
    var it := q.items[i];
    if Expired(it, now) {
      var r := RecoverOne(q, i, now, max);
      var state := if it.attempts < max then Queued else Failed;
      var lapsed := QueueEvent(LeaseLapsed, i, state, it.leaseId);
      TrailSnoc(q.log, lapsed, i);
      assert ItemOk(q, i, max);
      RequeueTrail(q.log + [lapsed], i, state);
      assert ItemOk(r, i, max);
      TouchKeepsInv(q, r, i, max);
    }
  }

  lemma {:induction false} RecoverInv(q: Queue, n: nat, now: int, max: nat)
    requires n <= |q.items| && Inv(q, max)
    ensures Inv(Recover(q, n, now, max), max)
  {
    if n > 0 {
      RecoverInv(q, n - 1, now, max);
      RecoverOneInv(Recover(q, n - 1, now, max), n - 1, now, max);
    }
  }

  lemma EnqueueInv(q: Queue, request: Request, now: int, max: nat)
    requires Inv(q, max) && max >= 1
    ensures Inv(Enqueue(q, request, now).0, max)
  {
    var r := Enqueue(q, request, now).0;
    if r != q {
      var id := |q.items|;
      var e := QueueEvent(ItemEnqueued, id, Queued, None);
      assert r.log == q.log + [e];
      TrailUnseen(q.log, id);
      TrailSnoc(q.log, e, id);
      LeaseCountNone(q.leases, id);
      assert ItemOk(r, id, max);
      forall j | 0 <= j < id ensures ItemOk(r, j, max) {
        assert ItemOk(q, j, max);
        TrailSnoc(q.log, e, j);
      }
    }
  }

  lemma TakeInv(q: Queue, i: nat, worker: string, expires: int, max: nat)
    requires Inv(q, max) && i < |q.items| && q.items[i].state == Queued
    ensures Inv(Take(q, i, worker, expires), max)
  {
    var r := Take(q, i, worker, expires);
    var id := |q.leases|;
    var e1, e2 := QueueEvent(LeaseAcquired, i, Leased, Some(id)), QueueEvent(ItemDequeued, i, Leased, None);
    assert ItemOk(q, i, max);
    TrailSnoc(q.log, e1, i);
    TrailSnoc(q.log + [e1], e2, i);
    LeaseCountSnoc(q.leases, LeaseRow(i, worker, false, expires), i);
    assert ItemOk(r, i, max);
    TouchKeepsInv(q, r, i, max);
  }

  lemma ClaimInv(q: Queue, agent: string, worker: string, workflow: Option<string>, ttl: int, now: int, stamp: int,
                 max: nat)
    requires Inv(q, max)
    ensures Inv(Claim(q, agent, worker, workflow, ttl, now, stamp, max).0, max)
  {
    RecoverInv(q, |q.items|, now, max);
    var r := RecoverAll(q, now, max);
    var pick := Oldest(r.items, |r.items|, agent, workflow, max);
    if pick.Some? {
      OldestIsFirst(r.items, |r.items|, agent, workflow, max);
      TakeInv(r, pick.value, worker, stamp + ttl, max);
    }
  }

  lemma RenewInv(q: Queue, i: nat, lease: nat, worker: string, ttl: int, now: int, stamp: int, max: nat)
    requires Inv(q, max)
    ensures Inv(Renew(q, i, lease, worker, ttl, now, stamp).0, max)
  {
    if TtlOk(ttl) && LeaseFault(q, i, lease, worker, now).None? {
      var r := Renew(q, i, lease, worker, ttl, now, stamp).0;
      assert ItemOk(q, i, max);
      TrailSnoc(q.log, QueueEvent(LeaseRenewed, i, Leased, Some(lease)), i);
      LeaseCountSameItems(q.leases, r.leases, i);
      assert ItemOk(r, i, max);
      TouchKeepsInv(q, r, i, max);
    }
  }

  lemma CompleteInv(q: Queue, i: nat, lease: nat, worker: string, now: int, max: nat)
    requires Inv(q, max)
    ensures Inv(Complete(q, i, lease, worker, now).0, max)
  {
    if LeaseFault(q, i, lease, worker, now).None? {
      var r := Complete(q, i, lease, worker, now).0;
      var e1 := QueueEvent(TaskDone, i, Completed, Some(lease));
      assert ItemOk(q, i, max);
      TrailSnoc(q.log, e1, i);
      TrailSnoc(q.log + [e1], QueueEvent(LeaseReleased, i, Completed, Some(lease)), i);
      LeaseCountSameItems(q.leases, r.leases, i);
      assert ItemOk(r, i, max);
      TouchKeepsInv(q, r, i, max);
    }
  }

  lemma FailInv(q: Queue, i: nat, lease: nat, worker: string, requeue: bool, now: int, max: nat)
    requires Inv(q, max)
    ensures Inv(Fail(q, i, lease, worker, requeue, now, max).0, max)
  {
    if LeaseFault(q, i, lease, worker, now).None? {
      var r := Fail(q, i, lease, worker, requeue, now, max).0;
      var state := if requeue && q.items[i].attempts < max then Queued else Failed;
      var e := QueueEvent(TaskFault, i, state, Some(lease));
      assert ItemOk(q, i, max);
      TrailSnoc(q.log, e, i);
      RequeueTrail(q.log + [e], i, state);
      LeaseCountSameItems(q.leases, r.leases, i);
      assert ItemOk(r, i, max);
      TouchKeepsInv(q, r, i, max);
    }
  }

  /** Every transaction keeps the invariant. */
  lemma PerformInv(q: Queue, op: Op, max: nat)
    requires Inv(q, max) && max >= 1
    ensures Inv(Perform(q, op, max).0, max)
  {
    match op {
      case DoEnqueue(r, now) => EnqueueInv(q, r, now, max);
      case DoClaim(agent, worker, workflow, ttl, now, stamp) =>
        ClaimInv(q, agent, worker, workflow, ttl, now, stamp, max);
      case DoRenew(i, lease, worker, ttl, now, stamp) => RenewInv(q, i, lease, worker, ttl, now, stamp, max);
      case DoComplete(i, lease, worker, now) => CompleteInv(q, i, lease, worker, now, max);
      case DoFail(i, lease, worker, requeue, now) => FailInv(q, i, lease, worker, requeue, now, max);
    }
  }

  lemma {:induction false} RunInv(q: Queue, ops: seq<Op>, max: nat)
    requires Inv(q, max) && max >= 1
    ensures Inv(RunOps(q, ops, max), max)
  {
    if ops != [] {
      RunInv(q, ops[..|ops| - 1], max);
      PerformInv(RunOps(q, ops[..|ops| - 1], max), ops[|ops| - 1], max);
    }
  }

  /** Conservation over every run: attempts, lease rows and acquisitions agree, each attempt ended
      in exactly one way or is running, and an item changes hands a bounded number of times. */
  lemma LeaseConservation(ops: seq<Op>, max: nat, i: nat)
    requires max >= 1 && i < |RunOps(EMPTY_QUEUE, ops, max).items|
    ensures
      var q := RunOps(EMPTY_QUEUE, ops, max);
      var it, t := q.items[i], Trail(q.log, i);
      && it.attempts == LeaseCount(q.leases, i) == t.acquired
      && it.attempts == t.completed + t.failed + t.lapsed + (if it.state == Leased then 1 else 0)
      && it.attempts <= max
      && t.acquired + t.completed + t.failed + t.lapsed <= 2 * max
      && t.completed <= 1
  {
    RunInv(EMPTY_QUEUE, ops, max);
    assert ItemOk(RunOps(EMPTY_QUEUE, ops, max), i, max);
  }

  /** After every run, folding an item's audit events gives its row's state and attempt count. */
  lemma LogAgreesWithTable(ops: seq<Op>, max: nat, i: nat)
    requires max >= 1 && i < |RunOps(EMPTY_QUEUE, ops, max).items|
    ensures
      var q := RunOps(EMPTY_QUEUE, ops, max);
      var t := Trail(q.log, i);
      t.known && t.state == q.items[i].state && t.attempts == q.items[i].attempts
  {
    RunInv(EMPTY_QUEUE, ops, max);
    assert ItemOk(RunOps(EMPTY_QUEUE, ops, max), i, max);
  }

  /** No stranded work: queued items are free and still have an attempt left, leased ones are fully leased. */
  lemma NoStrandedWork(ops: seq<Op>, max: nat, i: nat)
    requires max >= 1 && i < |RunOps(EMPTY_QUEUE, ops, max).items|
    ensures
      var q := RunOps(EMPTY_QUEUE, ops, max);
      && (q.items[i].state == Queued ==> HoldsNoLease(q.items[i]) && q.items[i].attempts < max)
      && (q.items[i].state == Leased ==> HoldsLease(q, i))
      && (q.items[i].state == Failed ==> HoldsNoLease(q.items[i]))
  {
    RunInv(EMPTY_QUEUE, ops, max);
    assert ItemOk(RunOps(EMPTY_QUEUE, ops, max), i, max);
  }

  // ---- What claim hands out ----

  predicate Before(items: seq<Item>, i: nat, j: nat)
    requires i < |items| && j < |items|
  {
    items[i].createdAt < items[j].createdAt || (items[i].createdAt == items[j].createdAt && i <= j)
  }

  lemma {:induction false} OldestIsFirst(items: seq<Item>, n: nat, agent: string, workflow: Option<string>, max: nat)
    requires n <= |items|
    ensures var pick := Oldest(items, n, agent, workflow, max);
      && (pick.None? <==> forall j :: 0 <= j < n ==> !Claimable(items[j], agent, workflow, max))
      && (pick.Some? ==>
          && Claimable(items[pick.value], agent, workflow, max)
          && forall j :: 0 <= j < n && Claimable(items[j], agent, workflow, max) ==> Before(items, pick.value, j))
  {
    if n > 0 {
      OldestIsFirst(items, n - 1, agent, workflow, max);
    }
  }

  /** The only attempt bound in the claim query that can matter is the agent and workflow match. */
  predicate Waiting(it: Item, agent: string, workflow: Option<string>) {
    it.state == Queued && it.agentId == agent && (workflow.Some? ==> it.workflowId == workflow.value)
  }

  /** Claim comes back empty exactly when, after recovery, nothing queued matches; otherwise it leases
      the matching item first in (creation time, id) order and leaves every other item as recovered. */
  lemma ClaimExact(q: Queue, agent: string, worker: string, workflow: Option<string>, ttl: int, now: int, stamp: int,
                   max: nat)
    requires Inv(q, max) && TtlOk(ttl)
    ensures
      var r := RecoverAll(q, now, max);
      var (s, out) := Claim(q, agent, worker, workflow, ttl, now, stamp, max);
      && out.Ok?
      && (out.value.None? <==> forall j :: 0 <= j < |r.items| ==> !Waiting(r.items[j], agent, workflow))
      && (out.value.None? ==> s == r)
      && (out.value.Some? ==>
          var i := out.value.value;
          && i < |r.items| == |s.items| && Waiting(r.items[i], agent, workflow)
          && (forall j :: 0 <= j < |r.items| && Waiting(r.items[j], agent, workflow) ==> Before(r.items, i, j))
          && s.items[i].state == Leased && s.items[i].leasedBy == Some(worker)
          && s.items[i].leaseId == Some(|q.leases|) && s.items[i].expiresAt == Some(stamp + ttl)
          && s.items[i].attempts == r.items[i].attempts + 1
          && forall j :: 0 <= j < |r.items| && j != i ==> s.items[j] == r.items[j])
  {
    RecoverInv(q, |q.items|, now, max);
    RecoverKeepsLeases(q, |q.items|, now, max);
    var r := RecoverAll(q, now, max);
    OldestIsFirst(r.items, |r.items|, agent, workflow, max);
    forall j | 0 <= j < |r.items|
      ensures Waiting(r.items[j], agent, workflow) == Claimable(r.items[j], agent, workflow, max)
    {
      assert ItemOk(r, j, max);
    }
  }

  lemma RecoverKeepsLeases(q: Queue, n: nat, now: int, max: nat)
    requires n <= |q.items|
    ensures Recover(q, n, now, max).leases == q.leases
  {
  }

  /** Recovery puts back or retires exactly the items whose lease has run out. */
  lemma {:induction false} RecoverExact(q: Queue, n: nat, now: int, max: nat)
    requires n <= |q.items|
    ensures forall j :: 0 <= j < |q.items| ==>
      Recover(q, n, now, max).items[j] ==
        if j < n && Expired(q.items[j], now)
        then Released(q.items[j], if q.items[j].attempts < max then Queued else Failed)
        else q.items[j]
  {
    if n > 0 {
      RecoverExact(q, n - 1, now, max);
    }
  }

  // ---- Fencing ----

  /** A claim never touches an item whose lease still runs. */
  lemma UnexpiredNeverTaken(q: Queue, i: nat, agent: string, worker: string, workflow: Option<string>, ttl: int,
                            now: int, stamp: int, max: nat)
    requires i < |q.items| && q.items[i].state == Leased && !Expired(q.items[i], now)
    ensures var r := Claim(q, agent, worker, workflow, ttl, now, stamp, max);
      i < |r.0.items| && r.0.items[i] == q.items[i] && r.1 != Ok(Some(i))
  {
    RecoverExact(q, |q.items|, now, max);
    var r := RecoverAll(q, now, max);
    OldestIsFirst(r.items, |r.items|, agent, workflow, max);
  }

  /** The lease was issued and no item runs under it any more. */
  predicate Retired(q: Queue, lease: nat) {
    lease < |q.leases| && forall i :: 0 <= i < |q.items| ==>
      !(q.items[i].state == Leased && q.items[i].leaseId == Some(lease))
  }

  lemma RecoverKeepsRetired(q: Queue, n: nat, now: int, max: nat, lease: nat)
    requires n <= |q.items| && Retired(q, lease)
    ensures Retired(Recover(q, n, now, max), lease)
  {
    RecoverExact(q, n, now, max);
    RecoverKeepsLeases(q, n, now, max);
  }

  lemma PerformKeepsRetired(q: Queue, op: Op, max: nat, lease: nat)
    requires Retired(q, lease)
    ensures Retired(Perform(q, op, max).0, lease)
  {
    if op.DoClaim? {
      RecoverKeepsRetired(q, |q.items|, op.now, max, lease);
    }
  }

  /** Naming a retired lease is refused and changes nothing. */
  lemma RetiredIsRefused(q: Queue, op: Op, max: nat)
    requires op.DoRenew? || op.DoComplete? || op.DoFail?
    requires Retired(q, op.lease)
    ensures Perform(q, op, max).0 == q && Perform(q, op, max).1.Err?
  {
  }

  /** In every continuation of a state where a lease is retired, whoever names it is refused. */
  lemma {:induction false} RetiredForever(q: Queue, ops: seq<Op>, op: Op, max: nat)
    requires op.DoRenew? || op.DoComplete? || op.DoFail?
    requires Retired(q, op.lease)
    ensures var r := RunOps(q, ops, max);
      Retired(r, op.lease) && Perform(r, op, max).0 == r && Perform(r, op, max).1.Err?
  {
    if ops == [] {
      RetiredIsRefused(q, op, max);
    } else {
      var r := RunOps(q, ops[..|ops| - 1], max);
      RetiredForever(q, ops[..|ops| - 1], op, max);
      PerformKeepsRetired(r, ops[|ops| - 1], max, op.lease);
      RetiredIsRefused(RunOps(q, ops, max), op, max);
    }
  }

  /** Completing or failing an item retires the lease it was done under. */
  lemma FinishRetires(q: Queue, op: Op, max: nat)
    requires Inv(q, max)
    requires op.DoComplete? || op.DoFail?
    requires Perform(q, op, max).1.Ok?
    ensures Retired(Perform(q, op, max).0, op.lease)
  {
    var r := Perform(q, op, max).0;
    assert ItemOk(q, op.item, max);
    forall j | 0 <= j < |r.items| ensures !(r.items[j].state == Leased && r.items[j].leaseId == Some(op.lease)) {
      if j != op.item {
        assert ItemOk(q, j, max);
      }
    }
  }

  /** Recovery retires the lease of every item it takes back. */
  lemma RecoveryRetires(q: Queue, i: nat, now: int, max: nat)
    requires Inv(q, max) && i < |q.items| && Expired(q.items[i], now)
    ensures q.items[i].leaseId.Some? && Retired(RecoverAll(q, now, max), q.items[i].leaseId.value)
  {
    assert ItemOk(q, i, max);
    RecoverExact(q, |q.items|, now, max);
    RecoverKeepsLeases(q, |q.items|, now, max);
    var r := RecoverAll(q, now, max);
    var lease := q.items[i].leaseId.value;
    forall j | 0 <= j < |r.items| ensures !(r.items[j].state == Leased && r.items[j].leaseId == Some(lease)) {
      assert ItemOk(q, j, max);
    }
  }

  /** Item `i` stops running under the lease it holds. */
  predicate LeaseEnds(q: Queue, op: Op, max: nat, i: nat)
    requires i < |q.items|
  {
    var r := Perform(q, op, max).0;
    !(i < |r.items| && r.items[i].state == Leased && r.items[i].leaseId == q.items[i].leaseId)
  }

  lemma ClaimRetiresExpired(q: Queue, agent: string, worker: string, workflow: Option<string>, ttl: int, now: int,
                            stamp: int, max: nat, i: nat)
    requires Inv(q, max) && TtlOk(ttl) && i < |q.items| && Expired(q.items[i], now)
    ensures q.items[i].leaseId.Some?
    ensures Retired(Claim(q, agent, worker, workflow, ttl, now, stamp, max).0, q.items[i].leaseId.value)
  {
    RecoveryRetires(q, i, now, max);
  }

  lemma ClaimKeepsRunning(q: Queue, agent: string, worker: string, workflow: Option<string>, ttl: int, now: int,
                          stamp: int, max: nat, i: nat)
    requires i < |q.items| && q.items[i].state == Leased && !(TtlOk(ttl) && Expired(q.items[i], now))
    ensures
      var r := Claim(q, agent, worker, workflow, ttl, now, stamp, max).0;
      i < |r.items| && r.items[i] == q.items[i]
  {
    if TtlOk(ttl) {
      UnexpiredNeverTaken(q, i, agent, worker, workflow, ttl, now, stamp, max);
    }
  }

  /** A lease ends in exactly two ways: its item is completed or failed under it, or a claim by anyone finds
      it expired. */
  lemma HowLeasesEnd(q: Queue, op: Op, max: nat, i: nat)
    requires Inv(q, max) && i < |q.items| && q.items[i].state == Leased
    ensures LeaseEnds(q, op, max, i) <==>
      || (op.DoClaim? && TtlOk(op.ttl) && Expired(q.items[i], op.now))
      || ((op.DoComplete? || op.DoFail?) && op.item == i && Perform(q, op, max).1.Ok?)
  {
    assert ItemOk(q, i, max);
    if op.DoClaim? {
      hide Claim;
      if TtlOk(op.ttl) && Expired(q.items[i], op.now) {
        ClaimRetiresExpired(q, op.agent, op.worker, op.workflow, op.ttl, op.now, op.stamp, max, i);
      } else {
        ClaimKeepsRunning(q, op.agent, op.worker, op.workflow, op.ttl, op.now, op.stamp, max, i);
      }
    }
  }

  lemma EndedIsRetired(q: Queue, op: Op, max: nat, i: nat)
    requires Inv(q, max) && i < |q.items| && q.items[i].state == Leased && LeaseEnds(q, op, max, i)
    ensures q.items[i].leaseId.Some? && Retired(Perform(q, op, max).0, q.items[i].leaseId.value)
  {
    hide Inv, LeaseEnds, Claim, Complete, Fail, Retired;
    HowLeasesEnd(q, op, max, i);
    if op.DoClaim? {
      ClaimRetiresExpired(q, op.agent, op.worker, op.workflow, op.ttl, op.now, op.stamp, max, i);
    } else {
      HolderActs(q, op, max);
      FinishRetires(q, op, max);
    }
  }

  lemma HolderActs(q: Queue, op: Op, max: nat)
    requires (op.DoComplete? || op.DoFail?) && Perform(q, op, max).1.Ok?
    ensures op.item < |q.items| && q.items[op.item].leaseId == Some(op.lease)
  {
  }

  /** Fencing over whole runs: once a lease has ended, by completion, failure or recovery, every later renew,
      complete or fail that names it is refused and changes nothing, whatever happened in between. */
  lemma EndedLeaseIsFenced(before: seq<Op>, op: Op, later: seq<Op>, use: Op, max: nat, i: nat)
    requires max >= 1 && i < |RunOps(EMPTY_QUEUE, before, max).items|
    requires
      var q := RunOps(EMPTY_QUEUE, before, max);
      && q.items[i].state == Leased && LeaseEnds(q, op, max, i)
      && (use.DoRenew? || use.DoComplete? || use.DoFail?) && q.items[i].leaseId == Some(use.lease)
    ensures
      var r := RunOps(Perform(RunOps(EMPTY_QUEUE, before, max), op, max).0, later, max);
      Perform(r, use, max).0 == r && Perform(r, use, max).1.Err?
  {
    hide LeaseEnds, Perform, Inv;
    var q := RunOps(EMPTY_QUEUE, before, max);
    assert Inv(EMPTY_QUEUE, max) by {
      EmptyInv(max);
    }
    RunInv(EMPTY_QUEUE, before, max);
    EndedIsRetired(q, op, max, i);
    RetiredForever(Perform(q, op, max).0, later, use, max);
  }

  lemma EmptyInv(max: nat)
    ensures Inv(EMPTY_QUEUE, max)
  {
  }

  /** Completed and failed items never change again. */
  lemma TerminalStep(q: Queue, op: Op, max: nat, i: nat)
    requires i < |q.items| && (q.items[i].state == Completed || q.items[i].state == Failed)
    ensures var r := Perform(q, op, max).0; i < |r.items| && r.items[i] == q.items[i]
  {
    if op.DoClaim? {
      RecoverExact(q, |q.items|, op.now, max);
      var r := RecoverAll(q, op.now, max);
      OldestIsFirst(r.items, |r.items|, op.agent, op.workflow, max);
    }
  }

  lemma {:induction false} TerminalForever(q: Queue, ops: seq<Op>, max: nat, i: nat)
    requires i < |q.items| && (q.items[i].state == Completed || q.items[i].state == Failed)
    ensures var r := RunOps(q, ops, max); i < |r.items| && r.items[i] == q.items[i]
  {
    if ops != [] {
      TerminalForever(q, ops[..|ops| - 1], max, i);
      TerminalStep(RunOps(q, ops[..|ops| - 1], max), ops[|ops| - 1], max, i);
    }
  }

  predicate Names(op: Op, lease: nat) {
    (op.DoRenew? || op.DoComplete? || op.DoFail?) && op.lease == lease
  }

  lemma OthersLeaveItem(q: Queue, op: Op, max: nat, i: nat)
    requires i < |q.items| && q.items[i].state == Leased && q.items[i].leaseId.Some? && q.items[i].expiresAt.Some?
    requires !Names(op, q.items[i].leaseId.value) && op.now < q.items[i].expiresAt.value
    ensures i < |Perform(q, op, max).0.items| && Perform(q, op, max).0.items[i] == q.items[i]
  {
    hide Claim;
    if op.DoClaim? {
      UnexpiredNeverTaken(q, i, op.agent, op.worker, op.workflow, op.ttl, op.now, op.stamp, max);
    }
  }

  /** While the clock stays before a lease's expiry, only operations naming that lease can move its item. */
  lemma {:induction false} LeaseHeld(q: Queue, ops: seq<Op>, max: nat, i: nat)
    requires i < |q.items| && q.items[i].state == Leased && q.items[i].leaseId.Some? && q.items[i].expiresAt.Some?
    requires forall op :: op in ops ==> !Names(op, q.items[i].leaseId.value) && op.now < q.items[i].expiresAt.value
    ensures var r := RunOps(q, ops, max); i < |r.items| && r.items[i] == q.items[i]
  {
    hide Perform, Names;
    if ops != [] {
      var front, op := ops[..|ops| - 1], ops[|ops| - 1];
      assert ops == front + [op];
      LeaseHeld(q, front, max, i);
      OthersLeaveItem(RunOps(q, front, max), op, max, i);
    }
  }

  /** Enqueueing the same request again returns the item already there and writes nothing. */
  lemma EnqueueIdempotent(q: Queue, request: Request, now: int, later: int, ops: seq<Op>, max: nat)
    requires Inv(q, max) && max >= 1
    requires Enqueue(q, request, now).1.Ok?
    ensures
      var (r, out) := Enqueue(q, request, now);
      var s := RunOps(r, ops, max);
      Enqueue(s, request, later) == (s, out)
  {
    hide RunOps, ItemOk;
    var (r, out) := Enqueue(q, request, now);
    EnqueueInv(q, request, now, max);
    RunInv(r, ops, max);
    RunKeepsKeys(r, ops, max);
    var s := RunOps(r, ops, max);
    assert s.items[out.value.value].key == RequestKey(request);
  }

  lemma RecoverKeepsKeys(q: Queue, now: int, max: nat)
    ensures forall j :: 0 <= j < |q.items| ==> RecoverAll(q, now, max).items[j].key == q.items[j].key
  {
    RecoverExact(q, |q.items|, now, max);
  }

  lemma {:induction false} RunKeepsKeys(q: Queue, ops: seq<Op>, max: nat)
    ensures var r := RunOps(q, ops, max);
      |q.items| <= |r.items| && forall j :: 0 <= j < |q.items| ==> r.items[j].key == q.items[j].key
  {
    if ops != [] {
      var front, op := ops[..|ops| - 1], ops[|ops| - 1];
      RunKeepsKeys(q, front, max);
      if op.DoClaim? {
        RecoverKeepsKeys(RunOps(q, front, max), op.now, max);
      }
    }
  }
}
