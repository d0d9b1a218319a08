/** What the fields of a task say about its events, stated without the handlers. */
module TaskMeaning {
  import opened Wrappers
  import opened Json
  import opened OrderedDict
  import opened Events
  import opened Sequences
  import opened TaskState
  import opened TaskStateProofs
  import StateEngine
  import StateMachine
  import ReplayProofs

  // ---- Status and owner ----

  /** The status an event announces, if it is a status event. */
  function Announces(kind: EventType): Option<Status> {
    match kind
    case TaskCreated => Some(Created)
    case TaskAssigned => Some(Assigned)
    case TaskStarted => Some(Started)
    case TaskBlocked => Some(Blocked)
    case TaskCompleted => Some(Completed)
    case TaskFailed => Some(Failed)
    case TaskDeleted => Some(Deleted)
    case _ => None
  }

  /** The last status announced; a new task is created. */
  function LastStatus(es: seq<Event>): Status {
    if es == [] then Created
    else
      var announced := Announces(es[|es| - 1].kind);
      if announced.Some? then announced.value else LastStatus(es[..|es| - 1])
  }

  /** Who an event hands the task to: an assignment always says, a start only when it names its agent. */
  function HandsTo(e: Event): Option<Json> {
    if e.kind == TaskAssigned then Some(Or(Get(e.payload, "agent_id"), OfText(e.agentId)))
    else if e.kind == TaskStarted && Truthy(OfText(e.agentId)) then Some(OfText(e.agentId))
    else None
  }

  function LastOwner(es: seq<Event>): Json {
    if es == [] then Null
    else
      var agent := HandsTo(es[|es| - 1]);
      if agent.Some? then agent.value else LastOwner(es[..|es| - 1])
  }

  /** No agent twice in a row, none empty. */
  predicate Handovers(owners: seq<Json>) {
    && (forall i :: 0 <= i < |owners| ==> Truthy(owners[i]))
    && forall i :: 0 < i < |owners| ==> owners[i - 1] != owners[i]
  }

  predicate OwnsLast(t: Task) {
    Truthy(t.owner) ==> t.ownershipHistory != [] && t.ownershipHistory[|t.ownershipHistory| - 1] == t.owner
  }

  /** The priority an event sets. */
  function Ranks(e: Event): Option<Json> {
    if e.kind == TaskCreated && "priority" in e.payload then Some(e.payload["priority"])
    else if e.kind == TaskPriorityChanged && "new" in e.payload then Some(e.payload["new"])
    else None
  }

  function LastPriority(es: seq<Event>): Json {
    if es == [] then Num(3)
    else
      var p := Ranks(es[|es| - 1]);
      if p.Some? then p.value else LastPriority(es[..|es| - 1])
  }

  lemma HandleStatus(t: Task, e: Event)
    ensures Handle(t, e).status == if Announces(e.kind).Some? then Announces(e.kind).value else t.status
  {
    hide Or, Get, GetOr, Picked, OnAssigned, OnStarted, OnCreated, OnUpdated, OnSubtask, OnWorkflowState, OnExecution,
      Listed;
  }

  lemma HandlePriority(t: Task, e: Event)
    ensures Handle(t, e).priority == if Ranks(e).Some? then Ranks(e).value else t.priority
  {
    if e.kind == TaskCreated || e.kind == TaskPriorityChanged {
      hide FromKeys, Or, Get, WithOwner;
    } else {
      hide Or, Get, GetOr, Picked, OnAssigned, OnStarted, OnCreated, OnUpdated, OnSubtask, OnWorkflowState, OnExecution,
        Listed;
    }
  }

  lemma HandleOwner(t: Task, e: Event)
    ensures Handle(t, e).owner == if HandsTo(e).Some? then HandsTo(e).value else t.owner
    ensures Handle(t, e).ownershipHistory ==
            if HandsTo(e).Some? then WithOwner(t.ownershipHistory, HandsTo(e).value) else t.ownershipHistory
  {
    if e.kind == TaskAssigned {
      hide OnStarted, OnCreated, OnUpdated, OnSubtask, Get, Or, WithOwner;
    } else if e.kind == TaskStarted {
      hide OnStarted, OnAssigned, OnCreated, OnUpdated, OnSubtask, WithOwner;
      StartKeepsOwner(t, e);
    } else {
      hide Handle;
      OthersKeepOwner(t, e);
    }
  }

  lemma OthersKeepOwner(t: Task, e: Event)
    requires e.kind != TaskAssigned && e.kind != TaskStarted
    ensures Handle(t, e).owner == t.owner && Handle(t, e).ownershipHistory == t.ownershipHistory
  {
    hide Get, GetOr, Or, Picked, OnAssigned, OnStarted, OnCreated, OnUpdated, OnSubtask, OnWorkflowState, OnExecution,
      Listed;
  }

  lemma StartKeepsOwner(t: Task, e: Event)
    ensures OnStarted(t, e).owner == if Truthy(OfText(e.agentId)) then OfText(e.agentId) else t.owner
    ensures OnStarted(t, e).ownershipHistory ==
            if Truthy(OfText(e.agentId)) then WithOwner(t.ownershipHistory, OfText(e.agentId)) else t.ownershipHistory
  {
    hide Get;
  }

  lemma WithOwnerHandovers(owners: seq<Json>, agent: Json)
    requires Handovers(owners)
    ensures Handovers(WithOwner(owners, agent))
    ensures
      var r := WithOwner(owners, agent);
      Truthy(agent) ==> r != [] && r[|r| - 1] == agent
  {
  }

  lemma {:induction false} FieldsFollowEvents(es: seq<Event>)
    ensures
      var t := HandledAll(NEW_TASK, es);
      && t.status == LastStatus(es)
      && t.priority == LastPriority(es)
      && t.owner == LastOwner(es)
      && Handovers(t.ownershipHistory) && OwnsLast(t)
  {
    hide Handle, WithOwner, Handovers, HandsTo, Ranks, Announces;
    if es == [] {
      NewTaskFields();
    } else {
      var front, e := es[..|es| - 1], es[|es| - 1];
      FieldsFollowEvents(front);
      var t := HandledAll(NEW_TASK, front);
      var noted := t.(history := t.history + [Entry(e.id, e.kind, e.createdAt)]);
      HandleStatus(noted, e);
      HandlePriority(noted, e);
      HandleOwner(noted, e);
      if HandsTo(e).Some? {
        WithOwnerHandovers(t.ownershipHistory, HandsTo(e).value);
      }
    }
  }

  lemma NewTaskFields()
    ensures NEW_TASK.status == Created && NEW_TASK.priority == Num(3) && NEW_TASK.owner == Null
    ensures Handovers(NEW_TASK.ownershipHistory) && OwnsLast(NEW_TASK)
  {
  }

  /** In every built view a task's status, priority and owner are the last ones its events announced; its
      ownership history names no agent twice in a row and ends with the current owner. */
  lemma TaskFollowsItsEvents(rank: Ranking, es: seq<Event>, id: string)
    requires Filter(About(id), es) != []
    ensures
      var own, at := Filter(About(id), es), At(Built(rank, es).board.tasks, id);
      && at.Some?
      && at.value.status == LastStatus(own)
      && at.value.priority == LastPriority(own)
      && at.value.owner == LastOwner(own)
      && Handovers(at.value.ownershipHistory) && OwnsLast(at.value)
  {
    hide HandledAll, At, Finalized, Handovers, OwnsLast;
    TaskIsItsOwnEvents(rank, es, id);
    FieldsFollowEvents(Filter(About(id), es));
  }

  // ---- Edges and handoffs ----

  /** The edge an event adds, if any. */
  function EdgeOf(e: Event): Option<Edge> {
    var id, on := TaskIdOf(e), NonEmptyText(Get(e.payload, "depends_on"));
    if e.kind == TaskDependencyAdded && id.Some? && on.Some? then Some(Edge(id.value, on.value)) else None
  }

  function HandoffOf(e: Event): Option<Handoff> {
    var id, p := TaskIdOf(e), e.payload;
    if e.kind == HandoffCreated && id.Some?
    then Some(Handoff(id.value, Get(p, "from_agent"), Get(p, "to_agent"), Get(p, "reason"), e.id)) else None
  }

  function EdgesOf(es: seq<Event>): seq<Edge> {
    if es == [] then []
    else
      var x := EdgeOf(es[|es| - 1]);
      EdgesOf(es[..|es| - 1]) + (if x.Some? then [x.value] else [])
  }

  function HandoffsOf(es: seq<Event>): seq<Handoff> {
    if es == [] then []
    else
      var x := HandoffOf(es[|es| - 1]);
      HandoffsOf(es[..|es| - 1]) + (if x.Some? then [x.value] else [])
  }

  lemma ObserveLinks(b: Board, e: Event)
    ensures Observe(b, e).dependencies ==
            if EdgeOf(e).Some? then StateMachine.AddUnique(b.dependencies, EdgeOf(e).value) else b.dependencies
    ensures Observe(b, e).handoffs == b.handoffs + (if HandoffOf(e).Some? then [HandoffOf(e).value] else [])
  {
    hide TaskIdOf, NonEmptyText, Get, Handled, Put, Lookup;
  }

  lemma DedupeNext(edges: seq<Edge>, x: Edge)
    ensures StateEngine.Dedupe(edges + [x]) == StateMachine.AddUnique(StateEngine.Dedupe(edges), x)
  {
    assert (edges + [x])[..|edges|] == edges;
  }

  lemma {:induction false} FoldLinks(es: seq<Event>)
    ensures Fold(EMPTY_BOARD, es).dependencies == StateEngine.Dedupe(EdgesOf(es))
    ensures Fold(EMPTY_BOARD, es).handoffs == HandoffsOf(es)
  {
    if es != [] {
      hide Observe, EdgeOf, HandoffOf;
      var front, e := es[..|es| - 1], es[|es| - 1];
      FoldLinks(front);
      ObserveLinks(Fold(EMPTY_BOARD, front), e);
      if EdgeOf(e).Some? {
        DedupeNext(EdgesOf(front), EdgeOf(e).value);
      } else {
        assert EdgesOf(front) + [] == EdgesOf(front);
      }
    }
  }

  /** Dependencies are the edges the log adds, each once, in order of first appearance; handoffs are all
      handoff events, in order. */
  lemma LinksAreTheLogs(rank: Ranking, es: seq<Event>)
    ensures
      var b := Built(rank, es).board;
      b.dependencies == StateEngine.Dedupe(EdgesOf(es)) && b.handoffs == HandoffsOf(es)
  {
    hide Finalized, Fold;
    FoldLinks(es);
    FinalizedKeepsBoard(rank, Fold(EMPTY_BOARD, es));
  }
}
