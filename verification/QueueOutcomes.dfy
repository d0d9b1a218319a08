/** What each queue operation accepts, refuses and leaves behind, said from the rows (`server/queueing.py`). */
module QueueOutcomes {
  import opened Wrappers
  import opened Json
  import opened LeaseQueue
  import opened LeaseQueueProofs

  // ---- Who may act ----

  /** The row is leased, under this lease, to this worker. */
  predicate LeasedTo(q: Queue, i: nat, lease: nat, worker: string) {
    && i < |q.items|
    && q.items[i].state == Leased && q.items[i].leaseId == Some(lease) && q.items[i].leasedBy == Some(worker)
  }

  predicate InTime(it: Item, now: int) {
    it.expiresAt.Some? ==> now <= it.expiresAt.value
  }

  predicate Acts(op: Op) {
    op.DoRenew? || op.DoComplete? || op.DoFail?
  }

  /** Renewing, completing and failing: accepted if and only if the item exists, is leased under that lease to that
      worker, and its time is not up, with an allowed extension for a renewal; the first of these that fails is the
      error, and a refusal changes nothing. */
  lemma ActionAccepted(q: Queue, op: Op, max: nat)
    requires Acts(op)
    ensures
      var (r, out) := Perform(q, op, max);
      var ttlOk := op.DoRenew? ==> 30 <= op.ttl <= 3600;
      var leased := LeasedTo(q, op.item, op.lease, op.worker);
      && (out.Ok? <==> ttlOk && leased && InTime(q.items[op.item], op.now))
      && (out.Ok? ==> out == Ok(Some(op.item)))
      && (!ttlOk ==> out == Err(BadTtl))
      && (ttlOk && op.item >= |q.items| ==> out == Err(ItemNotFound))
      && (ttlOk && op.item < |q.items| && !leased ==> out == Err(InvalidLease))
      && (ttlOk && leased && !InTime(q.items[op.item], op.now) ==> out == Err(LeaseHasExpired))
      && (out.Err? ==> r == q)
  {
  }

  /** Over every run a leased item has an expiry: its holder acts up to that moment and not after. */
  lemma HolderActsUntilExpiry(ops: seq<Op>, op: Op, max: nat)
    requires max >= 1 && Acts(op) && (op.DoRenew? ==> 30 <= op.ttl <= 3600)
    requires LeasedTo(RunOps(EMPTY_QUEUE, ops, max), op.item, op.lease, op.worker)
    ensures
      var q := RunOps(EMPTY_QUEUE, ops, max);
      && q.items[op.item].expiresAt.Some?
      && (Perform(q, op, max).1.Ok? <==> op.now <= q.items[op.item].expiresAt.value)
  {
    hide Perform, Trail, LeaseCount;
    var q := RunOps(EMPTY_QUEUE, ops, max);
    EmptyInv(max);
    RunInv(EMPTY_QUEUE, ops, max);
    assert ItemOk(q, op.item, max);
    ActionAccepted(q, op, max);
  }

  // ---- What an accepted operation changes ----

  /** Only item `i` and lease row `lease` may differ. */
  predicate OnlyTouches(q: Queue, r: Queue, i: nat, lease: nat) {
    && |r.items| == |q.items| && (forall j :: 0 <= j < |q.items| && j != i ==> r.items[j] == q.items[j])
    && |r.leases| == |q.leases| && (forall l :: 0 <= l < |q.leases| && l != lease ==> r.leases[l] == q.leases[l])
  }

  /** What identifies an item and what it was asked to do; `attempts` is how often it has been leased. */
  predicate SameWork(a: Item, b: Item) {
    && a.key == b.key && a.workflowId == b.workflowId && a.taskId == b.taskId && a.nodeId == b.nodeId
    && a.agentId == b.agentId && a.payload == b.payload && a.createdAt == b.createdAt
  }

  predicate SameLease(a: Item, b: Item) {
    a.leaseId == b.leaseId && a.leasedBy == b.leasedBy && a.attempts == b.attempts
  }

  /** An accepted renewal moves the expiry, on the item and on the lease row, to the reading plus the extension. */
  lemma RenewalMovesExpiry(q: Queue, op: Op, max: nat)
    requires op.DoRenew? && Perform(q, op, max).1.Ok?
    ensures
      var r, i, lease := Perform(q, op, max).0, op.item, op.lease;
      && OnlyTouches(q, r, i, lease)
      && i < |q.items|
      && SameWork(r.items[i], q.items[i]) && SameLease(r.items[i], q.items[i]) && r.items[i].state == Leased
      && r.items[i].expiresAt == Some(op.stamp + op.ttl)
      && (lease < |q.leases| ==>
            && r.leases[lease].expiresAt == op.stamp + op.ttl && r.leases[lease].item == q.leases[lease].item
            && r.leases[lease].worker == q.leases[lease].worker && r.leases[lease].released == q.leases[lease].released)
      && r.log == q.log + [QueueEvent(LeaseRenewed, i, Leased, Some(lease))]
  {
  }

  predicate ReleasesLease(q: Queue, r: Queue, lease: nat) {
    lease < |q.leases| ==>
      && lease < |r.leases|
      && r.leases[lease].released && r.leases[lease].item == q.leases[lease].item
      && r.leases[lease].worker == q.leases[lease].worker && r.leases[lease].expiresAt == q.leases[lease].expiresAt
  }

  /** An accepted completion completes the item, keeps who held it, and releases the lease row. */
  lemma CompletionCompletes(q: Queue, op: Op, max: nat)
    requires op.DoComplete? && Perform(q, op, max).1.Ok?
    ensures
      var r, i, lease := Perform(q, op, max).0, op.item, op.lease;
      && OnlyTouches(q, r, i, lease) && ReleasesLease(q, r, lease)
      && i < |q.items|
      && SameWork(r.items[i], q.items[i]) && SameLease(r.items[i], q.items[i]) && r.items[i].state == Completed
      && r.items[i].expiresAt == q.items[i].expiresAt
      && r.log == q.log + [QueueEvent(TaskDone, i, Completed, Some(lease)),
                           QueueEvent(LeaseReleased, i, Completed, Some(lease))]
  {
  }

  /** The item is free: no lease, no holder, no expiry, its attempts still counted. */
  predicate Freed(was: Item, now: Item) {
    && SameWork(now, was) && now.attempts == was.attempts
    && now.leaseId.None? && now.leasedBy.None? && now.expiresAt.None?
  }

  /** An accepted failure frees the item: back to the queue if that was asked and an attempt is left, failed
      otherwise. */
  lemma FailureFreesItem(q: Queue, op: Op, max: nat)
    requires op.DoFail? && Perform(q, op, max).1.Ok?
    ensures
      var r, i, lease := Perform(q, op, max).0, op.item, op.lease;
      && OnlyTouches(q, r, i, lease) && ReleasesLease(q, r, lease)
      && i < |q.items|
      && Freed(q.items[i], r.items[i])
      && var back := op.requeue && q.items[i].attempts < max;
         && r.items[i].state == (if back then Queued else Failed)
         && r.log == q.log + [QueueEvent(TaskFault, i, if back then Queued else Failed, Some(lease))]
                           + (if back then [QueueEvent(TaskRequeued, i, Queued, None)] else [])
  {
  }

  // ---- Recovery and claim ----

  /** Leased, with an expiry that has come. */
  predicate RunOut(it: Item, now: int) {
    it.state == Leased && it.expiresAt.Some? && it.expiresAt.value <= now
  }

  /** Recovery frees exactly the items whose lease has run out, back to the queue while an attempt is left. */
  lemma RecoveryFrees(q: Queue, now: int, max: nat)
    ensures
      var r := RecoverAll(q, now, max);
      && r.leases == q.leases && |r.items| == |q.items|
      && forall j :: 0 <= j < |q.items| ==>
           if RunOut(q.items[j], now) then
             && Freed(q.items[j], r.items[j])
             && r.items[j].state == (if q.items[j].attempts < max then Queued else Failed)
           else r.items[j] == q.items[j]
  {
    RecoverExact(q, |q.items|, now, max);
    RecoverKeepsLeases(q, |q.items|, now, max);
  }

  /** What recovery writes about one row: that its lease lapsed, and that it is queued again if so. */
  function LapseEvents(it: Item, i: nat, now: int, max: nat): seq<QueueEvent> {
    var state := if it.attempts < max then Queued else Failed;
    if !RunOut(it, now) then []
    else [QueueEvent(LeaseLapsed, i, state, it.leaseId)]
         + (if it.attempts < max then [QueueEvent(TaskRequeued, i, Queued, None)] else [])
  }

  function RecoveryLog(items: seq<Item>, now: int, max: nat): seq<QueueEvent> {
    if items == [] then []
    else RecoveryLog(items[..|items| - 1], now, max) + LapseEvents(items[|items| - 1], |items| - 1, now, max)
  }

  lemma OneRecoveryWrites(q: Queue, i: nat, now: int, max: nat)
    requires i < |q.items|
    ensures RecoverOne(q, i, now, max).log == q.log + LapseEvents(q.items[i], i, now, max)
  {
    assert q.log + [] == q.log;
  }

  /** Recovery writes those events in row order, and no others. */
  lemma {:induction false} RecoveryWrites(q: Queue, n: nat, now: int, max: nat)
    requires n <= |q.items|
    ensures Recover(q, n, now, max).log == q.log + RecoveryLog(q.items[..n], now, max)
  {
    if n == 0 {
      assert q.log + [] == q.log;
    } else {
      hide RecoverOne, LapseEvents, Released, Expired;
      RecoveryWrites(q, n - 1, now, max);
      RecoverExact(q, n - 1, now, max);
      assert q.items[..n][..n - 1] == q.items[..n - 1];
      OneRecoveryWrites(Recover(q, n - 1, now, max), n - 1, now, max);
    }
  }

  /** A claim outside the allowed extension is refused and changes nothing; otherwise it recovers, and what it
      leases is leased to this worker under a fresh lease row, one attempt more, for the extension. */
  lemma ClaimLeases(q: Queue, op: Op, max: nat)
    requires op.DoClaim?
    ensures
      var (r, out) := Perform(q, op, max);
      var s, id := RecoverAll(q, op.now, max), |q.leases|;
      && (!(30 <= op.ttl <= 3600) <==> out.Err?)
      && (out.Err? ==> out == Err(BadTtl) && r == q)
      && (out == Ok(None) ==> r == s)
      && (out.Ok? && out.value.Some? ==>
            var i, expires := out.value.value, op.stamp + op.ttl;
            && i < |s.items| && |r.items| == |s.items|
            && (forall j :: 0 <= j < |s.items| && j != i ==> r.items[j] == s.items[j])
            && s.items[i].state == Queued && s.items[i].agentId == op.agent && s.items[i].attempts < max
            && (op.workflow.Some? ==> s.items[i].workflowId == op.workflow.value)
            && SameWork(r.items[i], s.items[i]) && r.items[i].state == Leased
            && r.items[i].attempts == s.items[i].attempts + 1
            && r.items[i].leaseId == Some(id) && r.items[i].leasedBy == Some(op.worker)
            && r.items[i].expiresAt == Some(expires)
            && r.leases == q.leases + [LeaseRow(i, op.worker, false, expires)]
            && r.log == s.log + [QueueEvent(LeaseAcquired, i, Leased, Some(id)),
                                 QueueEvent(ItemDequeued, i, Leased, None)])
  {
    var s := RecoverAll(q, op.now, max);
    RecoverKeepsLeases(q, |q.items|, op.now, max);
    OldestIsFirst(s.items, |s.items|, op.agent, op.workflow, max);
  }

  // ---- Requests ----

  /** A request's workflow and node default to its task. */
  function TextOr(text: Option<string>, task: string): string {
    match text
    case Some(s) => if |s| > 0 then s else task
    case None => task
  }

  /** The text two requests for the same work share. */
  function KeyText(r: Request): string {
    r.prefix + ":" + TextOr(r.workflow, r.task) + ":" + r.task + ":" + r.agent
  }

  /** A request needs a task and an agent. One whose text a row already bears returns that row and writes nothing;
      any other adds one queued row that carries the request's fields, and one event. */
  lemma EnqueueExact(q: Queue, request: Request, now: int)
    ensures
      var (r, out) := Enqueue(q, request, now);
      && (out.Err? <==> |request.task| == 0 || |request.agent| == 0)
      && (out.Err? ==> out == Err(MissingIds) && r == q)
      && (out.Ok? ==> out.value.Some? && out.value.value < |r.items|
                      && r.items[out.value.value].key == KeyText(request))
      && (out.Ok? && (exists i :: 0 <= i < |q.items| && q.items[i].key == KeyText(request)) ==> r == q)
      && (out.Ok? && !(exists i :: 0 <= i < |q.items| && q.items[i].key == KeyText(request)) ==>
            && out == Ok(Some(|q.items|))
            && |r.items| == |q.items| + 1 && r.items[..|q.items|] == q.items && r.leases == q.leases
            && r.log == q.log + [QueueEvent(ItemEnqueued, |q.items|, Queued, None)]
            && var it := r.items[|q.items|];
               && it.workflowId == TextOr(request.workflow, request.task) && it.taskId == request.task
               && it.nodeId == TextOr(request.node, request.task) && it.agentId == request.agent
               && it.payload == request.payload && it.createdAt == now
               && it.state == Queued && it.attempts == 0
               && it.leaseId.None? && it.leasedBy.None? && it.expiresAt.None?)
  {
    assert RequestKey(request) == KeyText(request);
  }

  /** Whatever happens in between, two accepted requests share a row exactly when their texts are equal. */
  lemma SameTextSameRow(before: seq<Op>, first: Request, at: int, between: seq<Op>, second: Request, now: int, max: nat)
    requires max >= 1 && first.task != "" && first.agent != "" && second.task != "" && second.agent != ""
    ensures
      var (q, a) := Enqueue(RunOps(EMPTY_QUEUE, before, max), first, at);
      var b := Enqueue(RunOps(q, between, max), second, now).1;
      a == b <==> KeyText(first) == KeyText(second)
  {
    hide Enqueue, RunOps, Inv;
    var p := RunOps(EMPTY_QUEUE, before, max);
    var (q, a) := Enqueue(p, first, at);
    EmptyInv(max);
    RunInv(EMPTY_QUEUE, before, max);
    EnqueueInv(p, first, at, max);
    EnqueueExact(p, first, at);
    var s := RunOps(q, between, max);
    RunInv(q, between, max);
    RunKeepsKeys(q, between, max, a.value.value);
    EnqueueExact(s, second, now);
    EnqueueInv(s, second, now, max);
    var (t, b) := Enqueue(s, second, now);
    KeptByEnqueue(s, second, now, a.value.value);
    UniqueKeys(t, max);
  }

  lemma UniqueKeys(q: Queue, max: nat)
    requires Inv(q, max)
    ensures forall i, j :: 0 <= i < |q.items| && 0 <= j < |q.items| && q.items[i].key == q.items[j].key ==> i == j
  {
  }

  lemma KeptByEnqueue(q: Queue, request: Request, now: int, i: nat)
    requires i < |q.items|
    ensures i < |Enqueue(q, request, now).0.items| && Enqueue(q, request, now).0.items[i] == q.items[i]
  {
  }

  lemma StepKeepsKey(q: Queue, op: Op, max: nat, i: nat)
    requires i < |q.items|
    ensures var r := Perform(q, op, max).0; i < |r.items| && r.items[i].key == q.items[i].key
  {
    if op.DoClaim? {
      hide Claim, RecoverAll;
      RecoveryFrees(q, op.now, max);
      ClaimLeases(q, op, max);
    }
  }

  lemma {:induction false} RunKeepsKeys(q: Queue, ops: seq<Op>, max: nat, i: nat)
    requires i < |q.items|
    ensures var r := RunOps(q, ops, max); i < |r.items| && r.items[i].key == q.items[i].key
  {
    if ops != [] {
      hide Perform;
      RunKeepsKeys(q, ops[..|ops| - 1], max, i);
      StepKeepsKey(RunOps(q, ops[..|ops| - 1], max), ops[|ops| - 1], max, i);
    }
  }

  // ---- When different work shares a row ----

  lemma {:induction false} ColonSplits(a: string, b: string, r: string, s: string)
    requires ':' !in a && ':' !in b && a + ":" + r == b + ":" + s
    ensures a == b && r == s
  {
    var left, right := a + ":" + r, b + ":" + s;
    assert left[0] == (if a == "" then ':' else a[0]) && right[0] == (if b == "" then ':' else b[0]);
    if a != "" && b != "" {
      assert left[1..] == a[1..] + ":" + r && right[1..] == b[1..] + ":" + s;
      ColonSplits(a[1..], b[1..], r, s);
    } else {
      assert left[1..] == r && right[1..] == s;
    }
  }

  predicate PlainNames(r: Request) {
    ':' !in r.prefix && ':' !in TextOr(r.workflow, r.task) && ':' !in r.task
  }

  /** Where no prefix, workflow or task contains a colon, requests share a text only for the same work. */
  lemma PlainNamesTellApart(a: Request, b: Request)
    requires PlainNames(a) && PlainNames(b)
    ensures KeyText(a) == KeyText(b) <==>
            && a.prefix == b.prefix && TextOr(a.workflow, a.task) == TextOr(b.workflow, b.task)
            && a.task == b.task && a.agent == b.agent
  {
    hide TextOr;
    if KeyText(a) == KeyText(b) {
      var v, w := TextOr(a.workflow, a.task), TextOr(b.workflow, b.task);
      var x, y := a.task + ":" + a.agent, b.task + ":" + b.agent;
      assert KeyText(a) == a.prefix + ":" + (v + ":" + x) && KeyText(b) == b.prefix + ":" + (w + ":" + y);
      ColonSplits(a.prefix, b.prefix, v + ":" + x, w + ":" + y);
      ColonSplits(v, w, x, y);
      ColonSplits(a.task, b.task, a.agent, b.agent);
    }
  }

  /** With colons they can be told apart no more: a request for other work is answered with the first one's row. */
  lemma ColonsShareARow(p: string, now: int, later: int)
    ensures
      var first := Request(p, Some("w:x"), "y", None, "z", Null);
      var second := Request(p, Some("w"), "x:y", None, "z", Null);
      var q := Enqueue(EMPTY_QUEUE, first, now).0;
      && KeyText(first) == KeyText(second) && first.task != second.task
      && Enqueue(q, second, later) == (q, Ok(Some(0)))
  {
    var first := Request(p, Some("w:x"), "y", None, "z", Null);
    var second := Request(p, Some("w"), "x:y", None, "z", Null);
    assert KeyText(first) == p + ":w:x:y:z" == KeyText(second);
    assert |first.task| != |second.task|;
    EnqueueExact(EMPTY_QUEUE, first, now);
    var q := Enqueue(EMPTY_QUEUE, first, now).0;
    EnqueueExact(q, second, later);
  }
}
