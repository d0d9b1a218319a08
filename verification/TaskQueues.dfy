/** The queues and id lists of a task view, said from the tasks' own fields (`orchestrator/task_state.py`). */
module TaskQueues {
  import opened Wrappers
  import opened Json
  import opened OrderedDict
  import opened Sequences
  import opened Sorting
  import opened TaskState
  import opened TaskStateProofs

  /** A task waits for the agent that owns it unless it is completed or failed; deleted ones go on waiting. */
  predicate Waits(t: Option<Task>, owner: string) {
    t.Some? && t.value.owner == Str(owner) && owner != "" && t.value.status !in {Completed, Failed}
  }

  ghost predicate Holds(queue: Dict<string, seq<string>>, owner: string, id: string) {
    exists k :: 0 <= k < |queue| && queue[k].0 == owner && id in queue[k].1
  }

  lemma WaitingIsOwned(t: Option<Task>, owner: string)
    requires owner != ""
    ensures OwnedBy(t, owner) <==> Waits(t, owner)
  {
  }

  lemma NobodyIsNoOwner(t: Option<Task>)
    ensures !OwnedBy(t, "") && !Waits(t, "")
  {
  }

  lemma QueueOf(rank: Ranking, tasks: Dict<string, Task>, owner: string) returns (k: nat)
    requires DistinctKeys(tasks) && Members(tasks, owner) != []
    ensures k < |AgentQueue(rank, tasks)| && AgentQueue(rank, tasks)[k].0 == owner
  {
    hide At, Grouped, Members, Sort, Lookup, Ranks, SortLists;
    var groups, ranks := Grouped(tasks), Ranks(rank, tasks);
    var owners := Sort(ByText(), Keys(groups));
    GroupedAt(tasks, owner);
    AtKeys(groups, owner);
    SameMembers(owners, Keys(groups), owner);
    k :| 0 <= k < |owners| && owners[k] == owner;
    SortListsAt(ranks, groups, owners, k);
  }

  /** An agent's queue holds exactly the tasks that wait for it. */
  lemma QueueHoldsWaiting(rank: Ranking, tasks: Dict<string, Task>, owner: string, id: string)
    requires DistinctKeys(tasks)
    ensures Holds(AgentQueue(rank, tasks), owner, id) <==> Waits(At(tasks, id), owner)
  {
    hide AgentQueue, At, Members, OwnedBy, Waits, Ranks;
    var queue := AgentQueue(rank, tasks);
    if owner == "" {
      NobodyIsNoOwner(At(tasks, id));
    } else {
      WaitingIsOwned(At(tasks, id), owner);
    }
    if Holds(queue, owner, id) {
      var k :| 0 <= k < |queue| && queue[k].0 == owner && id in queue[k].1;
      QueueIsRight(rank, tasks, k);
    }
    if OwnedBy(At(tasks, id), owner) {
      MembersAre(tasks, owner, id);
      var k := QueueOf(rank, tasks, owner);
      QueueIsRight(rank, tasks, k);
    }
  }

  /** Owners ascend; within a queue a task of higher priority comes first, and of equal ones the lesser id. */
  lemma QueueOrder(rank: Ranking, tasks: Dict<string, Task>, k: nat, i: nat, j: nat)
    requires DistinctKeys(tasks) && k < |AgentQueue(rank, tasks)|
    ensures forall l :: k < l < |AgentQueue(rank, tasks)| ==>
      TextLess(AgentQueue(rank, tasks)[k].0, AgentQueue(rank, tasks)[l].0)
    ensures
      var ids := AgentQueue(rank, tasks)[k].1;
      i < j < |ids| ==>
        var a, b := At(tasks, ids[i]), At(tasks, ids[j]);
        && a.Some? && b.Some?
        && var x, y := rank(a.value.priority), rank(b.value.priority);
           x > y || (x == y && TextLess(ids[i], ids[j]))
  {
    hide AgentQueue, Members, Ranks, TextLess;
    var queue := AgentQueue(rank, tasks);
    QueueIsRight(rank, tasks, k);
    forall l | k < l < |queue| ensures TextLess(queue[k].0, queue[l].0) {
      assert Keys(queue)[k] != Keys(queue)[l];
      assert !ByText()(Keys(queue)[l], Keys(queue)[k]);
      TextTotal(queue[k].0, queue[l].0);
    }
    var ids := queue[k].1;
    if i < j < |ids| {
      assert ids[i] in ids && ids[j] in ids;
      RankIs(rank, tasks, ids[i]);
      RankIs(rank, tasks, ids[j]);
      assert !ByRank(Ranks(rank, tasks))(ids[j], ids[i]);
      TextTotal(ids[i], ids[j]);
    }
  }

  lemma RankIs(rank: Ranking, tasks: Dict<string, Task>, id: string)
    requires At(tasks, id).Some?
    ensures id in Ranks(rank, tasks) && Ranks(rank, tasks)[id] == rank(At(tasks, id).value.priority)
  {
    AtKeys(tasks, id);
    LookupAt(tasks, id, NEW_TASK);
  }

  // ---- Id lists ----

  function HasStatus(tasks: Dict<string, Task>, statuses: set<Status>): string -> bool {
    (id: string) => At(tasks, id).Some? && At(tasks, id).value.status in statuses
  }

  const OPEN: set<Status> := {Created, Assigned, Started, Blocked}

  lemma {:induction false} IdsAre(keep: Status -> bool, statuses: set<Status>, tasks: Dict<string, Task>)
    requires DistinctKeys(tasks) && forall s: Status :: keep(s) <==> s in statuses
    ensures IdsWhere(keep, tasks) == Filter(HasStatus(tasks, statuses), Keys(tasks))
  {
    if tasks != [] {
      hide At, Filter;
      var front := tasks[..|tasks| - 1];
      var (id, t) := tasks[|tasks| - 1];
      DistinctFront(tasks);
      IdsAre(keep, statuses, front);
      assert Keys(tasks) == Keys(front) + [id];
      FilterSnoc(HasStatus(tasks, statuses), Keys(front), id);
      AtSnoc(front, (id, t), id);
      assert tasks == front + [(id, t)];
      AtKeys(front, id);
      forall x | x in Keys(front) ensures HasStatus(tasks, statuses)(x) == HasStatus(front, statuses)(x) {
        AtSnoc(front, (id, t), x);
        AtKeys(front, x);
      }
      FilterSame(HasStatus(tasks, statuses), HasStatus(front, statuses), Keys(front));
    } else {
      FilterNone(HasStatus(tasks, statuses), Keys(tasks));
    }
  }

  /** The open ids are those of tasks created, assigned, started or blocked, the completed and the deleted ids those
      of completed and deleted ones, each in the order the tasks are stored. */
  lemma IdListsAre(rank: Ranking, b: Board)
    requires DistinctKeys(b.tasks)
    ensures
      var view := Finalized(rank, b);
      && view.openIds == Filter(HasStatus(b.tasks, OPEN), Keys(b.tasks))
      && view.completedIds == Filter(HasStatus(b.tasks, {Completed}), Keys(b.tasks))
      && view.deletedIds == Filter(HasStatus(b.tasks, {Deleted}), Keys(b.tasks))
  {
    hide AgentQueue, At, Filter;
    IdsAre(IsOpen(), OPEN, b.tasks);
    IdsAre(Is(Completed), {Completed}, b.tasks);
    IdsAre(Is(Deleted), {Deleted}, b.tasks);
  }
}
