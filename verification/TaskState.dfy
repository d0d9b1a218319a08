/** Task state from events (`orchestrator/task_state.py`). */
module TaskState {
  import opened Wrappers
  import opened Json
  import opened OrderedDict
  import opened Events
  import opened Sequences
  import opened Sorting
  import StateEngine
  import StateMachine

  datatype Status = Created | Assigned | Started | Blocked | Completed | Failed | Deleted

  datatype SubStatus = Pending | Running | Done | Broken

  datatype Subtask = Subtask(status: SubStatus, agent: Json, goal: Json, score: Json, reason: Json,
                             retryCount: Option<Json>)

  datatype Entry = Entry(eventId: string, kind: EventType, at: int)

  // `lists` holds the lists that appear with their first record: workflow_states, retries, and so on.
  datatype Task = Task(
    goal: Json, kind: Json, relatedFiles: seq<Json>, priority: Json, status: Status, owner: Json,
    ownershipHistory: seq<Json>, history: seq<Entry>, blockedReason: Json, failure: Json,
    deletedReason: Option<Json>, subtasks: map<Json, Subtask>, lists: map<string, seq<Payload>>)

  datatype Edge = Edge(task: string, dependsOn: string)

  datatype Handoff = Handoff(task: string, fromAgent: Json, toAgent: Json, reason: Json, eventId: string)

  datatype Board = Board(tasks: Dict<string, Task>, dependencies: seq<Edge>, handoffs: seq<Handoff>)

  // What `build` returns: the board and what is derived from it.
  datatype TaskView = TaskView(
    board: Board, agentQueue: Dict<string, seq<string>>,
    openIds: seq<string>, completedIds: seq<string>, deletedIds: seq<string>)

  // Python's `int(priority)`.
  type Ranking = Json -> int

  const NEW_TASK := Task(Null, Str("implementation"), [], Num(3), Created, Null, [], [], Null, Null, None, map[], map[])
  const EMPTY_BOARD := Board([], [], [])

  // ---- Handlers ----

  /** `list(dict.fromkeys(files))`. */
  function FromKeys(files: Json): seq<Json> {
    if files.Arr? then StateEngine.Dedupe(files.items) else []
  }

  function WithOwner(owners: seq<Json>, agent: Json): seq<Json> {
    if Truthy(agent) && (owners == [] || owners[|owners| - 1] != agent) then owners + [agent] else owners
  }

  function OnCreated(t: Task, p: Payload): (r: Task)
    ensures r == t.(goal := r.goal, kind := r.kind, relatedFiles := r.relatedFiles, priority := r.priority,
                    status := Created)
  {
    t.(goal := Or(Get(p, "goal"), t.goal),
       kind := Or(Get(p, "kind"), t.kind),
       relatedFiles := FromKeys(Or(Get(p, "related_files"), Arr(t.relatedFiles))),
       priority := GetOr(p, "priority", t.priority),
       status := Created)
  }

  function OnAssigned(t: Task, e: Event): (r: Task)
    ensures r == t.(owner := r.owner, ownershipHistory := r.ownershipHistory, status := Assigned)
  {
    var agent := Or(Get(e.payload, "agent_id"), OfText(e.agentId));
    t.(owner := agent, ownershipHistory := WithOwner(t.ownershipHistory, agent), status := Assigned)
  }

  function OnStarted(t: Task, e: Event): (r: Task)
    ensures r == t.(owner := r.owner, ownershipHistory := r.ownershipHistory, goal := r.goal, status := Started)
  {
    var agent := OfText(e.agentId);
    t.(status := Started,
       owner := Or(agent, t.owner),
       ownershipHistory := WithOwner(t.ownershipHistory, agent),
       goal := Or(Or(Get(e.payload, "task"), Get(e.payload, "goal")), t.goal))
  }

  function OnUpdated(t: Task, p: Payload): (r: Task)
    ensures r == t.(goal := r.goal, kind := r.kind, relatedFiles := r.relatedFiles)
  {
    var goal, kind, files := Get(p, "goal"), Get(p, "kind"), Get(p, "related_files");
    t.(goal := if goal != Null then goal else t.goal,
       kind := if kind != Null then kind else t.kind,
       relatedFiles := if files != Null then FromKeys(files) else t.relatedFiles)
  }

  function OnSubtask(t: Task, e: Event): (r: Task)
    ensures r == t.(subtasks := r.subtasks)
  {
    var p := e.payload;
    var id := Get(p, "node_id");
    var sub :=
      if id in t.subtasks then t.subtasks[id]
      else Subtask(Pending, Null, Get(p, "goal"), Get(p, "score"), Get(p, "reason"), None);
    var agent := Or(Get(p, "agent_id"), OfText(e.agentId));
    var next :=
      match e.kind
      case SubtaskCreated => sub.(status := Pending, goal := Or(Get(p, "goal"), sub.goal))
      case SubtaskStarted => sub.(status := Running, agent := agent)
      case SubtaskCompleted => sub.(status := Done, agent := agent)
      case SubtaskFailed =>
        sub.(status := Broken, reason := Get(p, "reason"), retryCount := Some(GetOr(p, "retry_count", Num(0))))
      case _ => sub;
    t.(subtasks := t.subtasks[id := next])
  }

  /** `task.setdefault(name, []).append(entry)`. */
  function Listed(t: Task, name: string, entry: Payload): (r: Task)
    ensures r == t.(lists := r.lists)
  {
    t.(lists := t.lists[name := (if name in t.lists then t.lists[name] else []) + [entry]])
  }

  function Picked(p: Payload, keys: seq<string>): Payload {
    map key | key in keys :: Get(p, key)
  }

  function OnWorkflowState(t: Task, e: Event): (r: Task)
    ensures r == t.(lists := r.lists)
  {
    var entry := Picked(e.payload, ["node_id", "previous_status", "new_status", "reason"]);
    Listed(t, "workflow_states", entry["agent_id" := Or(Get(e.payload, "agent_id"), OfText(e.agentId))])
  }

  function ExecutionName(kind: EventType): string {
    match kind
    case AgentExecutionStarted => "agent_execution_started"
    case AgentExecutionCompleted => "agent_execution_completed"
    case _ => "agent_execution_failed"
  }

  function OnExecution(t: Task, e: Event): (r: Task)
    ensures r == t.(lists := r.lists)
  {
    var keys := ["node_id", "agent_id", "duration_ms", "input_tokens", "output_tokens", "cost_usd", "success", "error"];
    Listed(t, "agent_executions", Picked(e.payload, keys)["event_type" := Str(ExecutionName(e.kind))])
  }

  function Handle(t: Task, e: Event): Task {
    var p := e.payload;
    match e.kind
    case TaskCreated => OnCreated(t, p)
    case TaskAssigned => OnAssigned(t, e)
    case TaskStarted => OnStarted(t, e)
    case TaskBlocked => t.(status := Blocked, blockedReason := Get(p, "reason"))
    case TaskCompleted => t.(status := Completed)
    case TaskFailed => t.(status := Failed, failure := Or(Get(p, "error"), Get(p, "reason")))
    case TaskPriorityChanged => t.(priority := GetOr(p, "new", t.priority))
    case TaskUpdated => OnUpdated(t, p)
    case TaskDeleted => t.(status := Deleted, deletedReason := Some(Get(p, "reason")))
    case SubtaskCreated => OnSubtask(t, e)
    case SubtaskStarted => OnSubtask(t, e)
    case SubtaskCompleted => OnSubtask(t, e)
    case SubtaskFailed => OnSubtask(t, e)
    case WorkflowStateChanged => OnWorkflowState(t, e)
    case RetryScheduled => Listed(t, "retries", Picked(p, ["node_id", "retry_count", "reason"]))
    case AgentExecutionStarted => OnExecution(t, e)
    case AgentExecutionCompleted => OnExecution(t, e)
    case AgentExecutionFailed => OnExecution(t, e)
    case AgentRegistered => Listed(t, "registered_agents", Picked(p, ["agent_id", "provider", "version"]))
    case AgentHealthChanged => Listed(t, "agent_health", Picked(p, ["agent_id", "status", "consecutive_failures"]))
    case CostCeilingExceeded => Listed(t, "cost_violations", Picked(p, ["agent_id", "estimated_cost", "limit"]))
    case CapabilityUpdated => Listed(t, "capability_updates", Picked(p, ["agent_id", "domain", "capability"]))
    case _ => t
  }

  /** `_apply_event` on the task itself: the history entry, then the handler. */
  function Handled(t: Task, e: Event): Task {
    Handle(t.(history := t.history + [Entry(e.id, e.kind, e.createdAt)]), e)
  }

  function DependenciesAfter(edges: seq<Edge>, id: string, e: Event): seq<Edge> {
    if e.kind != TaskDependencyAdded then edges
    else
      var on := NonEmptyText(Get(e.payload, "depends_on"));
      if on.None? then edges else StateMachine.AddUnique(edges, Edge(id, on.value))
  }

  function HandoffsAfter(handoffs: seq<Handoff>, id: string, e: Event): seq<Handoff> {
    if e.kind != HandoffCreated then handoffs
    else
      var p := e.payload;
      handoffs + [Handoff(id, Get(p, "from_agent"), Get(p, "to_agent"), Get(p, "reason"), e.id)]
  }

  // ---- The fold ----

  /** `TASK_EVENT_TYPES`. */
  predicate IsTaskKind(kind: EventType) {
    match kind
    case TaskCreated => true
    case TaskAssigned => true
    case TaskStarted => true
    case TaskBlocked => true
    case TaskCompleted => true
    case TaskFailed => true
    case TaskDependencyAdded => true
    case TaskPriorityChanged => true
    case TaskUpdated => true
    case TaskDeleted => true
    case HandoffCreated => true
    case SubtaskCreated => true
    case SubtaskStarted => true
    case SubtaskCompleted => true
    case SubtaskFailed => true
    case WorkflowCreated => true
    case WorkflowStarted => true
    case WorkflowCompleted => true
    case WorkflowFailed => true
    case ResultAggregated => true
    case WorkflowStateChanged => true
    case RetryScheduled => true
    case AgentRegistered => true
    case AgentHealthChanged => true
    case AgentExecutionStarted => true
    case AgentExecutionCompleted => true
    case AgentExecutionFailed => true
    case CostCeilingExceeded => true
    case CapabilityUpdated => true
    case QueueItemEnqueued => true
    case QueueItemDequeued => true
    case WorkerStarted => true
    case WorkerStopped => true
    case _ => false
  }

  /** The task an event is about, if any. */
  function TaskIdOf(e: Event): Option<string> {
    if IsTaskKind(e.kind) then NonEmptyText(Get(e.payload, "task_id")) else None
  }

  function Observe(b: Board, e: Event): Board {
    var id := TaskIdOf(e);
    if id.None? then b
    else
      Board(Put(b.tasks, id.value, Handled(Lookup(b.tasks, id.value, NEW_TASK), e)),
            DependenciesAfter(b.dependencies, id.value, e),
            HandoffsAfter(b.handoffs, id.value, e))
  }

  function Fold(b: Board, es: seq<Event>): Board {
    if es == [] then b else Observe(Fold(b, es[..|es| - 1]), es[|es| - 1])
  }

  // ---- Queues ----

  predicate Queued(t: Task) {
    t.owner.Str? && t.owner.s != "" && t.status != Completed && t.status != Failed
  }

  /** Ids of queued tasks by owner, owners and ids in dict order. */
  function Grouped(tasks: Dict<string, Task>): Dict<string, seq<string>> {
    if tasks == [] then []
    else
      var queue, (id, t) := Grouped(tasks[..|tasks| - 1]), tasks[|tasks| - 1];
      if Queued(t) then Put(queue, t.owner.s, Lookup(queue, t.owner.s, []) + [id]) else queue
  }

  function Ranks(rank: Ranking, tasks: Dict<string, Task>): map<string, int> {
    map id | id in Keys(tasks) :: rank(Lookup(tasks, id, NEW_TASK).priority)
  }

  /** Higher priority first, then by id. */
  function ByRank(ranks: map<string, int>): (string, string) -> bool {
    (a: string, b: string) =>
      var x, y := if a in ranks then ranks[a] else 0, if b in ranks then ranks[b] else 0;
      x > y || (x == y && TextLess(a, b))
  }

  function SortLists(ranks: map<string, int>, queue: Dict<string, seq<string>>, owners: seq<string>)
    : Dict<string, seq<string>>
  {
    if owners == [] then []
    else
      var o := owners[|owners| - 1];
      SortLists(ranks, queue, owners[..|owners| - 1]) + [(o, Sort(ByRank(ranks), Lookup(queue, o, [])))]
  }

  /** `_agent_queue`: each owner's ids ordered, owners in alphabetical order. */
  function AgentQueue(rank: Ranking, tasks: Dict<string, Task>): Dict<string, seq<string>> {
    var queue := Grouped(tasks);
    SortLists(Ranks(rank, tasks), queue, Sort(ByText(), Keys(queue)))
  }

  function IdsWhere(keep: Status -> bool, tasks: Dict<string, Task>): seq<string> {
    if tasks == [] then []
    else
      var (id, t) := tasks[|tasks| - 1];
      IdsWhere(keep, tasks[..|tasks| - 1]) + (if keep(t.status) then [id] else [])
  }

  function IsOpen(): Status -> bool {
    (s: Status) => s != Completed && s != Failed && s != Deleted
  }

  function Is(status: Status): Status -> bool {
    (s: Status) => s == status
  }

  function Finalized(rank: Ranking, b: Board): TaskView {
    TaskView(b, AgentQueue(rank, b.tasks), IdsWhere(IsOpen(), b.tasks), IdsWhere(Is(Completed), b.tasks),
             IdsWhere(Is(Deleted), b.tasks))
  }

  /** `build`. */
  function Built(rank: Ranking, es: seq<Event>): TaskView {
    Finalized(rank, Fold(EMPTY_BOARD, es))
  }

  /** `apply_events`: only the board of the base is read. */
  function Applied(rank: Ranking, base: TaskView, es: seq<Event>): TaskView {
    Finalized(rank, Fold(base.board, es))
  }

  // ---- The reducer as it runs ----

  method Collect(keep: Status -> bool, tasks: Dict<string, Task>) returns (ids: seq<string>)
    ensures ids == IdsWhere(keep, tasks)
  {
    ids := [];
    for i := 0 to |tasks|
      invariant ids == IdsWhere(keep, tasks[..i])
    {
      assert tasks[..i + 1][..i] == tasks[..i];
      if keep(tasks[i].1.status) {
        ids := ids + [tasks[i].0];
      }
    }
    assert tasks[..|tasks|] == tasks;
  }

  method GroupByOwner(tasks: Dict<string, Task>) returns (groups: Dict<string, seq<string>>)
    ensures groups == Grouped(tasks)
  {
    hide Put, Lookup;
    groups := [];
    for i := 0 to |tasks|
      invariant groups == Grouped(tasks[..i])
    {
      assert tasks[..i + 1][..i] == tasks[..i];
      var (id, t) := tasks[i];
      if !Queued(t) {
        continue;
      }
      groups := Put(groups, t.owner.s, Lookup(groups, t.owner.s, []) + [id]);
    }
    assert tasks[..|tasks|] == tasks;
  }

  method BuildAgentQueue(rank: Ranking, tasks: Dict<string, Task>) returns (queue: Dict<string, seq<string>>)
    ensures queue == AgentQueue(rank, tasks)
  {
    hide Grouped, Ranks, Sort, Lookup;
    var groups := GroupByOwner(tasks);
    var ranks := Ranks(rank, tasks);
    var owners := Sort(ByText(), Keys(groups));
    queue := [];
    for i := 0 to |owners|
      invariant queue == SortLists(ranks, groups, owners[..i])
    {
      assert owners[..i + 1][..i] == owners[..i];
      queue := queue + [(owners[i], Sort(ByRank(ranks), Lookup(groups, owners[i], [])))];
    }
    assert owners[..|owners|] == owners;
  }

  method FinalizeBoard(rank: Ranking, b: Board) returns (view: TaskView)
    ensures view == Finalized(rank, b)
  {
    var queue := BuildAgentQueue(rank, b.tasks);
    var openIds := Collect(IsOpen(), b.tasks);
    var completedIds := Collect(Is(Completed), b.tasks);
    var deletedIds := Collect(Is(Deleted), b.tasks);
    return TaskView(b, queue, openIds, completedIds, deletedIds);
  }

  method ApplyEvents(rank: Ranking, base: TaskView, es: seq<Event>) returns (view: TaskView)
    ensures view == Applied(rank, base, es)
  {
    hide Handled, TaskIdOf, DependenciesAfter, HandoffsAfter, Finalized;
    var tasks, dependencies, handoffs := base.board.tasks, base.board.dependencies, base.board.handoffs;
    for i := 0 to |es|
      invariant Board(tasks, dependencies, handoffs) == Fold(base.board, es[..i])
    {
      assert es[..i + 1][..i] == es[..i];
      var id := TaskIdOf(es[i]);
      if id.None? {
        continue;
      }
      var task := Lookup(tasks, id.value, NEW_TASK);
      tasks := Put(tasks, id.value, Handled(task, es[i]));
      dependencies := DependenciesAfter(dependencies, id.value, es[i]);
      handoffs := HandoffsAfter(handoffs, id.value, es[i]);
    }
    assert es[..|es|] == es;
    view := FinalizeBoard(rank, Board(tasks, dependencies, handoffs));
  }
}
