/** Every field of a task, said from the events that name it (`orchestrator/task_state.py`). */
module TaskFields {
  import opened Wrappers
  import opened Json
  import opened OrderedDict
  import opened Events
  import opened Fields
  import opened Sequences
  import opened TaskState
  import opened TaskStateProofs
  import opened TaskMeaning
  import StateEngine

  // ---- The events of a task ----

  const TASK_EVENT_TYPES: set<EventType> := {
    TaskCreated, TaskAssigned, TaskStarted, TaskBlocked, TaskCompleted, TaskFailed, TaskDependencyAdded,
    TaskPriorityChanged, TaskUpdated, TaskDeleted, HandoffCreated,
    SubtaskCreated, SubtaskStarted, SubtaskCompleted, SubtaskFailed,
    WorkflowCreated, WorkflowStarted, WorkflowCompleted, WorkflowFailed, ResultAggregated, WorkflowStateChanged,
    RetryScheduled, AgentRegistered, AgentHealthChanged,
    AgentExecutionStarted, AgentExecutionCompleted, AgentExecutionFailed, CostCeilingExceeded, CapabilityUpdated,
    QueueItemEnqueued, QueueItemDequeued, WorkerStarted, WorkerStopped}

  /** A task event whose payload names this task. */
  function Names(id: string): Event -> bool {
    (e: Event) => e.kind in TASK_EVENT_TYPES && Get(e.payload, "task_id") == Str(id) && id != ""
  }

  lemma NamesIsAbout(e: Event, id: string)
    ensures Names(id)(e) == About(id)(e)
  {
  }

  lemma OwnEvents(es: seq<Event>, id: string)
    ensures Filter(Names(id), es) == Filter(About(id), es)
  {
    forall e | e in es ensures Names(id)(e) == About(id)(e) {
      NamesIsAbout(e, id);
    }
    FilterSame(Names(id), About(id), es);
  }

  // ---- Goal, kind, files and reasons ----

  /** What an update gives: the field, unless it is null or missing. */
  function Given(p: Payload, key: string): Option<Json> {
    if key in p && p[key] != Null then Some(p[key]) else None
  }

  function GoalSaid(): Event -> Option<Json> {
    (e: Event) =>
      match e.kind
      case TaskCreated => FirstOf([Get(e.payload, "goal")])
      case TaskStarted => FirstOf([Get(e.payload, "task"), Get(e.payload, "goal")])
      case TaskUpdated => Given(e.payload, "goal")
      case _ => None
  }

  function KindSaid(): Event -> Option<Json> {
    (e: Event) =>
      match e.kind
      case TaskCreated => FirstOf([Get(e.payload, "kind")])
      case TaskUpdated => Given(e.payload, "kind")
      case _ => None
  }

  /** A list of files, each once. */
  function Once(files: Json): seq<Json> {
    match files
    case Arr(items) => StateEngine.Dedupe(items)
    case _ => []
  }

  function FilesSaid(): Event -> Option<seq<Json>> {
    (e: Event) =>
      var given :=
        match e.kind
        case TaskCreated => FirstOf([Get(e.payload, "related_files")])
        case TaskUpdated => Given(e.payload, "related_files")
        case _ => None;
      if given.Some? then Some(Once(given.value)) else None
  }

  function BlockedSaid(): Event -> Option<Json> {
    (e: Event) => if e.kind == TaskBlocked then Some(Get(e.payload, "reason")) else None
  }

  function FailureSaid(): Event -> Option<Json> {
    (e: Event) =>
      var error := FirstOf([Get(e.payload, "error")]);
      if e.kind != TaskFailed then None
      else if error.Some? then error
      else Some(Get(e.payload, "reason"))
  }

  function DeletedSaid(): Event -> Option<Option<Json>> {
    (e: Event) => if e.kind == TaskDeleted then Some(Some(Get(e.payload, "reason"))) else None
  }

  /** The fields that a task's last such event gave, and what a new task starts from. */
  ghost predicate TextFollows(t: Task, es: seq<Event>) {
    && t.goal == SaidOr(GoalSaid(), es, Null)
    && t.kind == SaidOr(KindSaid(), es, Str("implementation"))
    && t.relatedFiles == SaidOr(FilesSaid(), es, [])
    && t.blockedReason == SaidOr(BlockedSaid(), es, Null)
    && t.failure == SaidOr(FailureSaid(), es, Null)
    && t.deletedReason == SaidOr(DeletedSaid(), es, None)
  }

  lemma {:induction false} DedupeHas(items: seq<Json>, x: Json)
    ensures x in StateEngine.Dedupe(items) <==> x in items
  {
    if items != [] {
      DedupeHas(items[..|items| - 1], x);
      assert items == items[..|items| - 1] + [items[|items| - 1]];
    }
  }

  lemma {:induction false} DedupeOnce(items: seq<Json>)
    ensures NoDuplicates(StateEngine.Dedupe(items))
  {
    if items != [] {
      DedupeOnce(items[..|items| - 1]);
    }
  }

  lemma {:induction false} DedupeKeeps(items: seq<Json>)
    requires NoDuplicates(items)
    ensures StateEngine.Dedupe(items) == items
  {
    if items != [] {
      var front, x := items[..|items| - 1], items[|items| - 1];
      DedupeKeeps(front);
      assert forall i :: 0 <= i < |front| ==> front[i] == items[i] != items[|items| - 1];
      assert items == front + [x];
    }
  }

  lemma FirstOfOne(a: Json)
    ensures FirstOf([a]) == if Falsy(a) then None else Some(a)
  {
    assert [a][1..] == [];
  }

  lemma CreatedText(t: Task, p: Payload)
    requires NoDuplicates(t.relatedFiles)
    ensures
      var r, goal, kind, files := OnCreated(t, p), Get(p, "goal"), Get(p, "kind"), Get(p, "related_files");
      && r.goal == (if Falsy(goal) then t.goal else goal)
      && r.kind == (if Falsy(kind) then t.kind else kind)
      && r.relatedFiles == (if Falsy(files) then t.relatedFiles else Once(files))
  {
    hide Falsy, Truthy, StateEngine.Dedupe, GetOr;
    TruthyIsNotFalsy(Get(p, "goal"));
    TruthyIsNotFalsy(Get(p, "kind"));
    TruthyIsNotFalsy(Get(p, "related_files"));
    DedupeKeeps(t.relatedFiles);
  }

  lemma StartedText(t: Task, e: Event)
    ensures
      var task, goal := Get(e.payload, "task"), Get(e.payload, "goal");
      OnStarted(t, e).goal == if !Falsy(task) then task else if !Falsy(goal) then goal else t.goal
  {
    hide Falsy, Truthy, WithOwner;
    TruthyIsNotFalsy(Get(e.payload, "task"));
    TruthyIsNotFalsy(Get(e.payload, "goal"));
  }

  lemma UpdatedText(t: Task, p: Payload)
    ensures
      var r, goal, kind, files := OnUpdated(t, p), Given(p, "goal"), Given(p, "kind"), Given(p, "related_files");
      && r.goal == (if goal.Some? then goal.value else t.goal)
      && r.kind == (if kind.Some? then kind.value else t.kind)
      && r.relatedFiles == (if files.Some? then Once(files.value) else t.relatedFiles)
  {
    hide StateEngine.Dedupe;
  }

  lemma FirstOfTwo(a: Json, b: Json)
    ensures FirstOf([a, b]) == if !Falsy(a) then Some(a) else if !Falsy(b) then Some(b) else None
  {
    assert [a, b][1..] == [b];
    FirstOfOne(b);
  }

  /** Which handler an event goes to. */
  lemma Dispatch(t: Task, e: Event)
    ensures e.kind == TaskCreated ==> Handle(t, e) == OnCreated(t, e.payload)
    ensures e.kind == TaskStarted ==> Handle(t, e) == OnStarted(t, e)
    ensures e.kind == TaskUpdated ==> Handle(t, e) == OnUpdated(t, e.payload)
  {
    hide OnCreated, OnStarted, OnUpdated;
  }

  lemma OthersKeepText(t: Task, e: Event)
    requires e.kind != TaskCreated && e.kind != TaskStarted && e.kind != TaskUpdated
    ensures
      var r := Handle(t, e);
      r.goal == t.goal && r.kind == t.kind && r.relatedFiles == t.relatedFiles
  {
    hide Get, OnCreated, OnStarted, OnUpdated, OnAssigned, OnSubtask, OnWorkflowState, OnExecution, Listed, Picked,
      GetOr, Or;
  }

  /** One event and the text fields of its task. */
  lemma HandleText(t: Task, e: Event)
    requires NoDuplicates(t.relatedFiles)
    ensures Handle(t, e).goal == if GoalSaid()(e).Some? then GoalSaid()(e).value else t.goal
    ensures Handle(t, e).kind == if KindSaid()(e).Some? then KindSaid()(e).value else t.kind
    ensures Handle(t, e).relatedFiles == if FilesSaid()(e).Some? then FilesSaid()(e).value else t.relatedFiles
  {
    hide FirstOf, Falsy, Once, Given, Get, Handle, OnCreated, OnStarted, OnUpdated;
    var p := e.payload;
    Dispatch(t, e);
    if e.kind == TaskCreated {
      FirstOfOne(Get(p, "goal"));
      FirstOfOne(Get(p, "kind"));
      FirstOfOne(Get(p, "related_files"));
      CreatedText(t, p);
    } else if e.kind == TaskStarted {
      FirstOfTwo(Get(p, "task"), Get(p, "goal"));
      StartedText(t, e);
    } else if e.kind == TaskUpdated {
      UpdatedText(t, p);
    } else {
      OthersKeepText(t, e);
    }
  }

  lemma FilesSaidOnce(e: Event)
    ensures FilesSaid()(e).Some? ==> NoDuplicates(FilesSaid()(e).value)
  {
    hide FirstOf, Given, StateEngine.Dedupe;
    forall items ensures NoDuplicates(StateEngine.Dedupe(items)) {
      DedupeOnce(items);
    }
  }

  lemma OthersKeepReasons(t: Task, e: Event)
    requires e.kind != TaskBlocked && e.kind != TaskFailed && e.kind != TaskDeleted
    ensures
      var r := Handle(t, e);
      r.blockedReason == t.blockedReason && r.failure == t.failure && r.deletedReason == t.deletedReason
  {
    hide Get, OnCreated, OnStarted, OnUpdated, OnAssigned, OnSubtask, OnWorkflowState, OnExecution, Listed, Picked,
      GetOr, Or;
  }

  /** One event and the reasons of its task. */
  lemma HandleReasons(t: Task, e: Event)
    ensures Handle(t, e).blockedReason == if BlockedSaid()(e).Some? then BlockedSaid()(e).value else t.blockedReason
    ensures Handle(t, e).failure == if FailureSaid()(e).Some? then FailureSaid()(e).value else t.failure
    ensures Handle(t, e).deletedReason == if DeletedSaid()(e).Some? then DeletedSaid()(e).value else t.deletedReason
  {
    hide FirstOf, Falsy, Truthy, Get;
    if e.kind == TaskBlocked || e.kind == TaskFailed || e.kind == TaskDeleted {
      FirstOfOne(Get(e.payload, "error"));
      TruthyIsNotFalsy(Get(e.payload, "error"));
    } else {
      hide Handle;
      OthersKeepReasons(t, e);
    }
  }

  lemma {:induction false} TextFollowsEvents(es: seq<Event>)
    ensures TextFollows(HandledAll(NEW_TASK, es), es) && NoDuplicates(HandledAll(NEW_TASK, es).relatedFiles)
  {
    if es != [] {
      hide Handle, GoalSaid, KindSaid, FilesSaid, BlockedSaid, FailureSaid, DeletedSaid;
      var front, e := es[..|es| - 1], es[|es| - 1];
      TextFollowsEvents(front);
      var t := HandledAll(NEW_TASK, front);
      var noted := t.(history := t.history + [Entry(e.id, e.kind, e.createdAt)]);
      HandleText(noted, e);
      FilesSaidOnce(e);
      HandleReasons(noted, e);
    }
  }

  // ---- Who held the task ----

  /** Everyone the task was handed to, leaving out nobody and the same agent twice in a row. */
  function Holders(es: seq<Event>): seq<Json> {
    if es == [] then []
    else
      var before, next := Holders(es[..|es| - 1]), HandsTo(es[|es| - 1]);
      if next.None? || Falsy(next.value) || (before != [] && before[|before| - 1] == next.value) then before
      else before + [next.value]
  }

  lemma {:induction false} HoldersAreHistory(es: seq<Event>)
    ensures HandledAll(NEW_TASK, es).ownershipHistory == Holders(es)
  {
    if es != [] {
      hide Handle, HandsTo;
      var front, e := es[..|es| - 1], es[|es| - 1];
      HoldersAreHistory(front);
      var t := HandledAll(NEW_TASK, front);
      HandleOwner(t.(history := t.history + [Entry(e.id, e.kind, e.createdAt)]), e);
      if HandsTo(e).Some? {
        TruthyIsNotFalsy(HandsTo(e).value);
      }
    }
  }

  // ---- Subtasks ----

  /** The status a subtask event announces for its node. */
  function SubStatusSaid(node: Json): Event -> Option<SubStatus> {
    (e: Event) =>
      if Get(e.payload, "node_id") != node then None
      else
        match e.kind
        case SubtaskCreated => Some(Pending)
        case SubtaskStarted => Some(Running)
        case SubtaskCompleted => Some(Done)
        case SubtaskFailed => Some(Broken)
        case _ => None
  }

  function SubGoalSaid(node: Json): Event -> Option<Json> {
    (e: Event) =>
      if e.kind == SubtaskCreated && Get(e.payload, "node_id") == node then FirstOf([Get(e.payload, "goal")]) else None
  }

  function SubAgentSaid(node: Json): Event -> Option<Json> {
    (e: Event) =>
      var named := FirstOf([Get(e.payload, "agent_id")]);
      if (e.kind == SubtaskStarted || e.kind == SubtaskCompleted) && Get(e.payload, "node_id") == node
      then Some(if named.Some? then named.value else OfText(e.agentId)) else None
  }

  function SubReasonSaid(node: Json): Event -> Option<Json> {
    (e: Event) =>
      if e.kind == SubtaskFailed && Get(e.payload, "node_id") == node then Some(Get(e.payload, "reason")) else None
  }

  function RetriesSaid(node: Json): Event -> Option<Option<Json>> {
    (e: Event) =>
      if e.kind == SubtaskFailed && Get(e.payload, "node_id") == node
      then Some(Some(if "retry_count" in e.payload then e.payload["retry_count"] else Num(0))) else None
  }

  /** The first event of a node. */
  function FirstOfNode(node: Json, es: seq<Event>): Option<Event> {
    if es == [] then None
    else
      var before := FirstOfNode(node, es[..|es| - 1]);
      if before.Some? then before
      else if SubStatusSaid(node)(es[|es| - 1]).Some? then Some(es[|es| - 1])
      else None
  }

  /** A subtask starts with the goal, score and reason of its node's first event, and every later event of the node
      sets what it announces. */
  ghost predicate SubtaskFollows(t: Task, es: seq<Event>, node: Json) {
    var first := FirstOfNode(node, es);
    && (node in t.subtasks <==> first.Some?)
    && (node in t.subtasks ==>
          var sub, p := t.subtasks[node], first.value.payload;
          && sub.status == SaidOr(SubStatusSaid(node), es, Pending)
          && sub.goal == SaidOr(SubGoalSaid(node), es, Get(p, "goal"))
          && sub.agent == SaidOr(SubAgentSaid(node), es, Null)
          && sub.score == Get(p, "score")
          && sub.reason == SaidOr(SubReasonSaid(node), es, Get(p, "reason"))
          && sub.retryCount == SaidOr(RetriesSaid(node), es, None))
  }

  predicate SubtaskKind(kind: EventType) {
    kind == SubtaskCreated || kind == SubtaskStarted || kind == SubtaskCompleted || kind == SubtaskFailed
  }

  lemma OthersKeepSubtasks(t: Task, e: Event)
    requires !SubtaskKind(e.kind)
    ensures Handle(t, e).subtasks == t.subtasks
  {
    hide OnCreated, OnStarted, OnUpdated, OnAssigned, OnWorkflowState, OnExecution, Listed, Picked, GetOr, Get, Or,
      OnSubtask;
  }

  lemma SubtasksHandle(t: Task, e: Event)
    requires SubtaskKind(e.kind)
    ensures Handle(t, e) == OnSubtask(t, e)
  {
    hide OnSubtask;
  }

  /** A subtask before an event of its node: as it was, or new with what the event gives. */
  function SubBefore(t: Task, e: Event, node: Json): Subtask {
    if node in t.subtasks then t.subtasks[node]
    else Subtask(Pending, Null, Get(e.payload, "goal"), Get(e.payload, "score"), Get(e.payload, "reason"), None)
  }

  lemma OtherNodesStay(t: Task, e: Event, node: Json)
    requires SubtaskKind(e.kind)
    ensures
      var r := OnSubtask(t, e).subtasks;
      && (node in r <==> node in t.subtasks || Get(e.payload, "node_id") == node)
      && (Get(e.payload, "node_id") != node && node in r ==> r[node] == t.subtasks[node])
  {
    hide Or, OfText, GetOr, Get;
  }

  /** What one event of a node makes of its subtask. */
  lemma SubtaskStep(t: Task, e: Event, node: Json)
    requires SubtaskKind(e.kind) && Get(e.payload, "node_id") == node
    ensures node in OnSubtask(t, e).subtasks
    ensures
      var r, was := OnSubtask(t, e).subtasks[node], SubBefore(t, e, node);
      && Some(r.status) == SubStatusSaid(node)(e)
      && r.goal == (if SubGoalSaid(node)(e).Some? then SubGoalSaid(node)(e).value else was.goal)
      && r.agent == (if SubAgentSaid(node)(e).Some? then SubAgentSaid(node)(e).value else was.agent)
      && r.score == was.score
      && r.reason == (if SubReasonSaid(node)(e).Some? then SubReasonSaid(node)(e).value else was.reason)
      && r.retryCount == (if RetriesSaid(node)(e).Some? then RetriesSaid(node)(e).value else was.retryCount)
  {
    hide FirstOf, Falsy, OfText, Truthy, Get;
    var p := e.payload;
    OrIsFirst(Get(p, "agent_id"), OfText(e.agentId), Null);
    FirstOfOne(Get(p, "agent_id"));
    FirstOfOne(Get(p, "goal"));
    TruthyIsNotFalsy(Get(p, "goal"));
    OtherNodesStay(t, e, node);
  }

  lemma NoSubtaskNews(e: Event, node: Json)
    requires !SubtaskKind(e.kind) || Get(e.payload, "node_id") != node
    ensures SubStatusSaid(node)(e).None? && SubGoalSaid(node)(e).None? && SubAgentSaid(node)(e).None?
    ensures SubReasonSaid(node)(e).None? && RetriesSaid(node)(e).None?
  {
    hide FirstOf;
  }

  lemma {:induction false} NothingSaidYet(es: seq<Event>, node: Json)
    requires FirstOfNode(node, es).None?
    ensures LastSaid(SubGoalSaid(node), es).None? && LastSaid(SubAgentSaid(node), es).None?
    ensures LastSaid(SubReasonSaid(node), es).None? && LastSaid(RetriesSaid(node), es).None?
  {
    hide SubGoalSaid, SubAgentSaid, SubReasonSaid, RetriesSaid;
    if es != [] {
      NothingSaidYet(es[..|es| - 1], node);
      NoSubtaskNews(es[|es| - 1], node);
    }
  }

  lemma SubtaskHit(t: Task, es: seq<Event>, node: Json)
    requires es != [] && SubtaskFollows(t, es[..|es| - 1], node)
    requires SubtaskKind(es[|es| - 1].kind) && Get(es[|es| - 1].payload, "node_id") == node
    ensures SubtaskFollows(OnSubtask(t, es[|es| - 1]), es, node)
  {
    hide OnSubtask, SubStatusSaid, SubGoalSaid, SubAgentSaid, SubReasonSaid, RetriesSaid, SubtaskKind, Get;
    SubtaskStep(t, es[|es| - 1], node);
    if FirstOfNode(node, es[..|es| - 1]).None? {
      NothingSaidYet(es[..|es| - 1], node);
    }
  }

  lemma SubtaskMiss(t: Task, es: seq<Event>, node: Json)
    requires es != [] && SubtaskFollows(t, es[..|es| - 1], node)
    requires !SubtaskKind(es[|es| - 1].kind) || Get(es[|es| - 1].payload, "node_id") != node
    ensures SubtaskFollows(t, es, node)
  {
    hide SubStatusSaid, SubGoalSaid, SubAgentSaid, SubReasonSaid, RetriesSaid, SubtaskKind, Get;
    NoSubtaskNews(es[|es| - 1], node);
  }

  lemma SameSubtask(t: Task, r: Task, es: seq<Event>, node: Json)
    requires SubtaskFollows(t, es, node)
    requires node in r.subtasks <==> node in t.subtasks
    requires node in t.subtasks ==> r.subtasks[node] == t.subtasks[node]
    ensures SubtaskFollows(r, es, node)
  {
  }

  lemma {:induction false} SubtaskFollowsEvents(es: seq<Event>, node: Json)
    ensures SubtaskFollows(HandledAll(NEW_TASK, es), es, node)
  {
    hide Handle, OnSubtask, SubStatusSaid, SubtaskFollows, SubtaskKind, Get;
    if es == [] {
      NoSubtasksYet(node);
    } else {
      var front, e := es[..|es| - 1], es[|es| - 1];
      SubtaskFollowsEvents(front, node);
      var t := HandledAll(NEW_TASK, front);
      var noted := t.(history := t.history + [Entry(e.id, e.kind, e.createdAt)]);
      SameSubtask(t, noted, front, node);
      if SubtaskKind(e.kind) {
        SubtasksHandle(noted, e);
        if Get(e.payload, "node_id") == node {
          SubtaskHit(noted, es, node);
        } else {
          SubtaskMiss(noted, es, node);
          OtherNodesStay(noted, e, node);
          SameSubtask(noted, OnSubtask(noted, e), es, node);
        }
      } else {
        SubtaskMiss(noted, es, node);
        OthersKeepSubtasks(noted, e);
        SameSubtask(noted, Handle(noted, e), es, node);
      }
    }
  }

  lemma NoSubtasksYet(node: Json)
    ensures SubtaskFollows(NEW_TASK, [], node)
  {
  }

  // ---- Recorded lists ----

  function Agent(e: Event): Json {
    var named := FirstOf([Get(e.payload, "agent_id")]);
    if named.Some? then named.value else OfText(e.agentId)
  }

  /** The record an event adds under a list's name. */
  function Record(name: string, e: Event): Option<Payload> {
    var p := e.payload;
    match e.kind
    case WorkflowStateChanged =>
      if name != "workflow_states" then None
      else Some(map["node_id" := Get(p, "node_id"), "previous_status" := Get(p, "previous_status"),
                    "new_status" := Get(p, "new_status"), "reason" := Get(p, "reason"), "agent_id" := Agent(e)])
    case RetryScheduled =>
      if name != "retries" then None
      else Some(map["node_id" := Get(p, "node_id"), "retry_count" := Get(p, "retry_count"),
                    "reason" := Get(p, "reason")])
    case AgentExecutionStarted => Execution(name, p, "agent_execution_started")
    case AgentExecutionCompleted => Execution(name, p, "agent_execution_completed")
    case AgentExecutionFailed => Execution(name, p, "agent_execution_failed")
    case AgentRegistered =>
      if name != "registered_agents" then None
      else Some(map["agent_id" := Get(p, "agent_id"), "provider" := Get(p, "provider"), "version" := Get(p, "version")])
    case AgentHealthChanged =>
      if name != "agent_health" then None
      else Some(map["agent_id" := Get(p, "agent_id"), "status" := Get(p, "status"),
                    "consecutive_failures" := Get(p, "consecutive_failures")])
    case CostCeilingExceeded =>
      if name != "cost_violations" then None
      else Some(map["agent_id" := Get(p, "agent_id"), "estimated_cost" := Get(p, "estimated_cost"),
                    "limit" := Get(p, "limit")])
    case CapabilityUpdated =>
      if name != "capability_updates" then None
      else Some(map["agent_id" := Get(p, "agent_id"), "domain" := Get(p, "domain"),
                    "capability" := Get(p, "capability")])
    case _ => None
  }

  function Execution(name: string, p: Payload, eventType: string): Option<Payload> {
    if name != "agent_executions" then None
    else Some(map["node_id" := Get(p, "node_id"), "agent_id" := Get(p, "agent_id"), "event_type" := Str(eventType),
                  "duration_ms" := Get(p, "duration_ms"), "input_tokens" := Get(p, "input_tokens"),
                  "output_tokens" := Get(p, "output_tokens"), "cost_usd" := Get(p, "cost_usd"),
                  "success" := Get(p, "success"), "error" := Get(p, "error")])
  }

  /** The records of a list, in event order. */
  function Records(name: string, es: seq<Event>): seq<Payload> {
    if es == [] then []
    else
      var x := Record(name, es[|es| - 1]);
      Records(name, es[..|es| - 1]) + (if x.Some? then [x.value] else [])
  }

  function ListIn(t: Task, name: string): seq<Payload> {
    if name in t.lists then t.lists[name] else []
  }

  lemma ListedIs(t: Task, name: string, entry: Payload, at: string)
    ensures ListIn(Listed(t, name, entry), at) == ListIn(t, at) + (if at == name then [entry] else [])
    ensures at in Listed(t, name, entry).lists <==> at in t.lists || at == name
  {
  }

  predicate Recorded(kind: EventType) {
    match kind
    case WorkflowStateChanged => true
    case RetryScheduled => true
    case AgentExecutionStarted => true
    case AgentExecutionCompleted => true
    case AgentExecutionFailed => true
    case AgentRegistered => true
    case AgentHealthChanged => true
    case CostCeilingExceeded => true
    case CapabilityUpdated => true
    case _ => false
  }

  /** The list a record goes to. */
  function ListName(kind: EventType): string {
    match kind
    case WorkflowStateChanged => "workflow_states"
    case RetryScheduled => "retries"
    case AgentRegistered => "registered_agents"
    case AgentHealthChanged => "agent_health"
    case CostCeilingExceeded => "cost_violations"
    case CapabilityUpdated => "capability_updates"
    case _ => "agent_executions"
  }

  lemma RecordName(name: string, e: Event)
    ensures Record(name, e).Some? <==> Recorded(e.kind) && name == ListName(e.kind)
  {
    hide Get, Agent;
  }

  lemma OthersKeepLists(t: Task, e: Event)
    requires !Recorded(e.kind)
    ensures Handle(t, e).lists == t.lists
  {
    hide OnCreated, OnStarted, OnUpdated, OnAssigned, OnWorkflowState, OnExecution, Listed, Picked, GetOr, Get, Or,
      OnSubtask;
  }

  lemma PickedThree(p: Payload, a: string, b: string, c: string)
    ensures Picked(p, [a, b, c]) == map[a := Get(p, a), b := Get(p, b), c := Get(p, c)]
  {
  }

  lemma StateRecord(t: Task, e: Event)
    requires e.kind == WorkflowStateChanged
    ensures OnWorkflowState(t, e) == Listed(t, "workflow_states", Record("workflow_states", e).value)
  {
    hide Listed, Get;
    OrIsFirst(Get(e.payload, "agent_id"), OfText(e.agentId), Null);
    var keys := ["node_id", "previous_status", "new_status", "reason"];
    assert Picked(e.payload, keys)["agent_id" := Agent(e)] == Record("workflow_states", e).value;
  }

  lemma PickedEight(p: Payload, a: string, b: string, c: string, d: string, e: string, f: string, g: string,
                    h: string)
    ensures Picked(p, [a, b, c, d, e, f, g, h]) ==
            map[a := Get(p, a), b := Get(p, b), c := Get(p, c), d := Get(p, d), e := Get(p, e), f := Get(p, f),
                g := Get(p, g), h := Get(p, h)]
  {
    hide Get;
  }

  lemma ExecutionRecord(t: Task, e: Event)
    requires e.kind == AgentExecutionStarted || e.kind == AgentExecutionCompleted || e.kind == AgentExecutionFailed
    ensures OnExecution(t, e) == Listed(t, "agent_executions", Record("agent_executions", e).value)
  {
    hide Listed, Get, Picked;
    var p := e.payload;
    PickedEight(p, "node_id", "agent_id", "duration_ms", "input_tokens", "output_tokens", "cost_usd", "success",
                "error");
    var keys := ["node_id", "agent_id", "duration_ms", "input_tokens", "output_tokens", "cost_usd", "success", "error"];
    assert Picked(p, keys)["event_type" := Str(ExecutionName(e.kind))] == Record("agent_executions", e).value;
  }

  /** A recording event adds its record to its list. */
  lemma RecordLands(t: Task, e: Event)
    requires Recorded(e.kind)
    ensures Record(ListName(e.kind), e).Some?
    ensures Handle(t, e) == Listed(t, ListName(e.kind), Record(ListName(e.kind), e).value)
  {
    var p := e.payload;
    match e.kind {
      case WorkflowStateChanged => StateRecord(t, e);
      case AgentExecutionStarted => ExecutionRecord(t, e);
      case AgentExecutionCompleted => ExecutionRecord(t, e);
      case AgentExecutionFailed => ExecutionRecord(t, e);
      case RetryScheduled => PickedThree(p, "node_id", "retry_count", "reason");
      case AgentRegistered => PickedThree(p, "agent_id", "provider", "version");
      case AgentHealthChanged => PickedThree(p, "agent_id", "status", "consecutive_failures");
      case CostCeilingExceeded => PickedThree(p, "agent_id", "estimated_cost", "limit");
      case CapabilityUpdated => PickedThree(p, "agent_id", "domain", "capability");
    }
    hide Listed, Get, OnWorkflowState, OnExecution, Picked;
  }

  /** The list holds the records of its events, and is there once there is one. */
  ghost predicate ListFollows(t: Task, es: seq<Event>, name: string) {
    ListIn(t, name) == Records(name, es) && (name in t.lists <==> Records(name, es) != [])
  }

  lemma {:induction false} ListFollowsEvents(es: seq<Event>, name: string)
    ensures ListFollows(HandledAll(NEW_TASK, es), es, name)
  {
    if es != [] {
      hide Handle, Listed, Record, Recorded, ListName, ListIn;
      var front, e := es[..|es| - 1], es[|es| - 1];
      ListFollowsEvents(front, name);
      var t := HandledAll(NEW_TASK, front);
      var noted := t.(history := t.history + [Entry(e.id, e.kind, e.createdAt)]);
      SameList(t, noted, name);
      RecordName(name, e);
      if Recorded(e.kind) {
        RecordLands(noted, e);
        ListedIs(noted, ListName(e.kind), Record(ListName(e.kind), e).value, name);
      } else {
        OthersKeepLists(noted, e);
        SameList(noted, Handle(noted, e), name);
      }
      if Record(name, e).None? {
        assert Records(name, front) + [] == Records(name, front);
      }
    }
  }

  lemma SameList(t: Task, r: Task, name: string)
    requires t.lists == r.lists
    ensures ListIn(t, name) == ListIn(r, name)
  {
  }

  // ---- The task of a view ----

  /** In every built view a task is there exactly when a task event names it, and then every field is what its own
      events say: the history is all of them, the text fields, status, priority and owner are the last they gave,
      the holders follow the handovers, each subtask follows its node's events, and each list holds the records of
      its events in order. */
  lemma TaskIsItsEvents(rank: Ranking, es: seq<Event>, id: string, node: Json, name: string)
    ensures
      var own, at := Filter(Names(id), es), At(Built(rank, es).board.tasks, id);
      && (at.Some? <==> own != [])
      && (at.Some? ==>
            && at.value.history == Entries(own)
            && TextFollows(at.value, own)
            && at.value.status == LastStatus(own) && at.value.priority == LastPriority(own)
            && at.value.owner == LastOwner(own) && at.value.ownershipHistory == Holders(own)
            && SubtaskFollows(at.value, own, node)
            && ListFollows(at.value, own, name))
  {
    hide At, Built, HandledAll, TextFollows, SubtaskFollows, ListFollows, LastStatus, LastPriority, LastOwner, Holders,
      Entries, Names, About, Filter;
    OwnEvents(es, id);
    TaskIsItsOwnEvents(rank, es, id);
    var own := Filter(Names(id), es);
    TextFollowsEvents(own);
    FieldsFollowEvents(own);
    HoldersAreHistory(own);
    SubtaskFollowsEvents(own, node);
    ListFollowsEvents(own, name);
  }
}
