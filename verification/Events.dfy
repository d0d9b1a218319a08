/** The event read model and the event types the modelled reducers look at. */
module Events {
  import opened Wrappers
  import opened Json

  datatype EventType =
    | SessionStarted | SessionSummary
    | GoalSet | FileModified | Failure | ToolCall
    | TaskCreated | TaskAssigned | TaskStarted | TaskBlocked | TaskCompleted | TaskFailed
    | TaskDependencyAdded | TaskPriorityChanged | TaskUpdated | TaskDeleted | HandoffCreated
    | SubtaskCreated | SubtaskStarted | SubtaskCompleted | SubtaskFailed
    | WorkflowCreated | WorkflowStarted | WorkflowCompleted | WorkflowFailed
    | ResultAggregated | WorkflowStateChanged | RetryScheduled
    | AgentRegistered | AgentHealthChanged
    | AgentExecutionStarted | AgentExecutionCompleted | AgentExecutionFailed
    | CostCeilingExceeded | CapabilityUpdated
    | QueueItemEnqueued | QueueItemDequeued | WorkerStarted | WorkerStopped
    | QuarantineLifted | UserFeedback
    | ContradictionDetected | BeliefRevised
    | Other(name: string)

  datatype Event = Event(
    id: string,
    kind: EventType,
    sessionId: int,
    agentId: Option<string>,
    filePath: Option<string>,
    payload: Payload,
    taskHint: Option<string>,
    causedBy: Option<string>,
    createdAt: int,
    quarantined: bool)

  function Ids(es: seq<Event>): set<string> {
    set e | e in es :: e.id
  }

  predicate DistinctIds(es: seq<Event>) {
    forall i, j :: 0 <= i < j < |es| ==> es[i].id != es[j].id
  }

  /** `event.file_path or payload["file_path"] or payload["file"]`, when that is a non-empty string. */
  function FilePathOf(e: Event): Option<string> {
    NonEmptyText(Or(Or(OfText(e.filePath), Get(e.payload, "file_path")), Get(e.payload, "file")))
  }

  lemma IdsSplit(a: seq<Event>, b: seq<Event>)
    ensures Ids(a + b) == Ids(a) + Ids(b)
  {
    assert forall e :: e in a + b <==> e in a || e in b;
    forall x | x in Ids(a) + Ids(b) ensures x in Ids(a + b) {
      if x in Ids(a) {
        var e :| e in a && e.id == x;
        assert e in a + b;
      } else {
        var e :| e in b && e.id == x;
        assert e in a + b;
      }
    }
  }
}
