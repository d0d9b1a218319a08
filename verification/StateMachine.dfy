/** Replays events into the project state (`core/state_machine.py`). */
module StateMachine {
  import opened Wrappers
  import opened Json
  import opened OrderedDict
  import opened Events

  datatype ToolUsage = ToolUsage(
    eventId: string, toolName: Json, toolArgs: Json, timestamp: Json, sessionId: Json)

  datatype ProjectState = ProjectState(
    goal: Option<string>,
    workingFiles: seq<string>,
    openTasks: seq<string>,
    completedTasks: seq<string>,
    blocked: seq<Payload>,
    failures: seq<Payload>,
    toolUsage: seq<ToolUsage>,
    lastEventId: Option<string>,
    lastWorkingFile: Option<string>,
    openTaskRefs: Dict<string, string>)

  const EMPTY_STATE := ProjectState(None, [], [], [], [], [], [], None, None, [])

  datatype Machine = Machine(state: ProjectState, applied: set<string>)

  // Label normalisation collapses whitespace and casefolds; every result holds for any such function.
  type Normalizer = string -> string

  predicate StartsWith(s: string, prefix: string) {
    |prefix| <= |s| && s[..|prefix|] == prefix
  }

  function LegacyKey(norm: Normalizer, title: string): string {
    "legacy:" + norm(title)
  }

  function IdKey(taskId: string): string {
    "id:" + taskId
  }

  /** `_task_ref`: the reference key and label an event names, or nothing. */
  function TaskRef(norm: Normalizer, e: Event): (r: Option<(string, string)>)
    ensures r.Some? ==> r.value.0 != "" && r.value.1 != ""
  {
    var taskId := NonEmptyText(Get(e.payload, "task_id"));
    var named := NonEmptyText(Or(Or(Get(e.payload, "task"), Get(e.payload, "goal")), OfText(e.taskHint)));
    var task := if named.Some? then named else taskId;
    if taskId.Some? then Some((IdKey(taskId.value), task.value))
    else if task.Some? then Some((LegacyKey(norm, task.value), task.value))
    else None
  }

  /** `_alternate_ref_key`: swap the id form of a key for its legacy form and back. */
  function AlternateRefKey(norm: Normalizer, key: string): string {
    if StartsWith(key, "id:") then LegacyKey(norm, key[3..])
    else if StartsWith(key, "legacy:") then IdKey(key[7..])
    else key
  }

  /** First open reference whose normalised label matches, or the fallback key. */
  function RefWithLabel(norm: Normalizer, refs: Dict<string, string>, title: string, fallback: string): string {
    if refs == [] then fallback
    else if norm(refs[0].1) == title then refs[0].0
    else RefWithLabel(norm, refs[1..], title, fallback)
  }

  /** The key a completion closes: primary key, then alternate key, then the first matching label. */
  function ClosedKey(norm: Normalizer, refs: Dict<string, string>, key: string, task: string): string {
    if HasKey(refs, key) then key
    else
      var alt := AlternateRefKey(norm, key);
      if HasKey(refs, alt) then alt else RefWithLabel(norm, refs, norm(task), key)
  }

  /** `list.remove`: drop the first occurrence. */
  function RemoveFirst(s: seq<string>, x: string): seq<string> {
    if s == [] then [] else if s[0] == x then s[1..] else [s[0]] + RemoveFirst(s[1..], x)
  }

  function SyncOpenTasks(s: ProjectState): ProjectState {
    s.(openTasks := Values(s.openTaskRefs))
  }

  function MarkWorkingFile(s: ProjectState, path: string): ProjectState {
    s.(workingFiles := RemoveFirst(s.workingFiles, path) + [path], lastWorkingFile := Some(path))
  }

  function GoalOf(e: Event): Option<string> {
    NonEmptyText(Or(Get(e.payload, "goal"), OfText(e.taskHint)))
  }

  function UpdatedGoalOf(e: Event): Option<string> {
    NonEmptyText(Or(Or(Get(e.payload, "goal"), Get(e.payload, "task")), OfText(e.taskHint)))
  }

  function UsageOf(e: Event): ToolUsage {
    ToolUsage(e.id, Get(e.payload, "tool_name"), GetOr(e.payload, "tool_args", Obj(map[])),
              Get(e.payload, "timestamp"), GetOr(e.payload, "session_id", Num(e.sessionId)))
  }

  predicate UsageRecorded(usage: seq<ToolUsage>, id: string) {
    exists i :: 0 <= i < |usage| && usage[i].eventId == id
  }

  function Open(s: ProjectState, key: string, task: string): ProjectState {
    SyncOpenTasks(s.(openTaskRefs := Put(s.openTaskRefs, key, task)))
  }

  function Close(s: ProjectState, key: string): ProjectState {
    SyncOpenTasks(s.(openTaskRefs := Pop(s.openTaskRefs, key)))
  }

  function AddUnique<T(==)>(s: seq<T>, x: T): seq<T> {
    if x in s then s else s + [x]
  }

  // What an event asks of the state, read off its type and payload alone.
  datatype Effect =
    | SetGoal(goal: string)
    | OpenTask(key: string, task: string)
    | CompleteTask(key: string, task: string)
    | DropTask(key: string)
    | Touch(path: string)
    | NoteFailure(payload: Payload)
    | NoteBlocked(payload: Payload)
    | NoteUsage(usage: ToolUsage)
    | Nothing

  function EffectOf(norm: Normalizer, e: Event): (r: Effect)
    ensures r.OpenTask? || r.CompleteTask? ==> r.key != "" && r.task != ""
    ensures r.NoteUsage? ==> r.usage.eventId == e.id
  {
    match e.kind
    case GoalSet =>
      var goal := GoalOf(e);
      if goal.Some? then SetGoal(goal.value) else Nothing
    case TaskStarted =>
      var ref := TaskRef(norm, e);
      if ref.Some? then OpenTask(ref.value.0, ref.value.1) else Nothing
    case TaskCompleted =>
      var ref := TaskRef(norm, e);
      if ref.Some? then CompleteTask(ref.value.0, ref.value.1) else Nothing
    case TaskUpdated =>
      var taskId, goal := NonEmptyText(Get(e.payload, "task_id")), UpdatedGoalOf(e);
      if taskId.Some? && goal.Some? then OpenTask(IdKey(taskId.value), goal.value) else Nothing
    case TaskDeleted =>
      var taskId := NonEmptyText(Get(e.payload, "task_id"));
      if taskId.Some? then DropTask(IdKey(taskId.value)) else Nothing
    case FileModified =>
      var path := FilePathOf(e);
      if path.Some? then Touch(path.value) else Nothing
    case Failure => NoteFailure(e.payload)
    case TaskBlocked => NoteBlocked(e.payload)
    case ToolCall => NoteUsage(UsageOf(e))
    case _ => Nothing
  }

  function Enact(norm: Normalizer, s: ProjectState, x: Effect): ProjectState {
    match x
    case SetGoal(goal) => s.(goal := Some(goal))
    case OpenTask(key, task) => Open(s, key, task)
    case CompleteTask(key, task) =>
      Close(s, ClosedKey(norm, s.openTaskRefs, key, task)).(completedTasks := AddUnique(s.completedTasks, task))
    case DropTask(key) => Close(s, key)
    case Touch(path) => MarkWorkingFile(s, path)
    case NoteFailure(payload) => s.(failures := s.failures + [payload])
    case NoteBlocked(payload) => s.(blocked := s.blocked + [payload])
    case NoteUsage(usage) =>
      if UsageRecorded(s.toolUsage, usage.eventId) then s else s.(toolUsage := s.toolUsage + [usage])
    case Nothing => s
  }

  function Step(norm: Normalizer, s: ProjectState, e: Event): ProjectState {
    Enact(norm, s.(lastEventId := Some(e.id)), EffectOf(norm, e))
  }

  function ApplyEvent(norm: Normalizer, m: Machine, e: Event): Machine {
    if e.id in m.applied then m else Machine(Step(norm, m.state, e), m.applied + {e.id})
  }

  function Run(norm: Normalizer, m: Machine, es: seq<Event>): Machine {
    if es == [] then m else ApplyEvent(norm, Run(norm, m, es[..|es| - 1]), es[|es| - 1])
  }

  function Fresh(s: ProjectState): Machine {
    Machine(s, {})
  }

  /** Replay of a whole log from nothing. */
  function Replay(norm: Normalizer, es: seq<Event>): ProjectState {
    Run(norm, Fresh(EMPTY_STATE), es).state
  }

  /** The machine object: the project state's fields and the ids already applied. */
  class Replayer {
    const normalize: Normalizer
    var goal: Option<string>
    var workingFiles: seq<string>
    var openTasks: seq<string>
    var completedTasks: seq<string>
    var blocked: seq<Payload>
    var failures: seq<Payload>
    var toolUsage: seq<ToolUsage>
    var lastEventId: Option<string>
    var lastWorkingFile: Option<string>
    var openTaskRefs: Dict<string, string>
    var applied: set<string>

    function State(): ProjectState
      reads this
    {
      ProjectState(goal, workingFiles, openTasks, completedTasks, blocked, failures, toolUsage,
                   lastEventId, lastWorkingFile, openTaskRefs)
    }

    function View(): Machine
      reads this
    {
      Machine(State(), applied)
    }

    constructor (norm: Normalizer, start: ProjectState)
      ensures normalize == norm && View() == Fresh(start)
    {
      normalize := norm;
      goal, workingFiles, openTasks, completedTasks := start.goal, start.workingFiles, start.openTasks,
        start.completedTasks;
      blocked, failures, toolUsage := start.blocked, start.failures, start.toolUsage;
      lastEventId, lastWorkingFile, openTaskRefs := start.lastEventId, start.lastWorkingFile, start.openTaskRefs;
      applied := {};
    }

    method Apply(e: Event)
      modifies this
      ensures View() == ApplyEvent(normalize, old(View()), e)
    {
      hide TaskRef, GoalOf, UsageOf, FilePathOf, UpdatedGoalOf, NonEmptyText, Get, IdKey, Open, Close, ClosedKey,
        MarkWorkingFile, AddUnique, HasKey, DistinctKeys, Values;
      if e.id in applied {
        return;
      }
      applied := applied + {e.id};
      lastEventId := Some(e.id);
      match e.kind {
        case ToolCall => RecordToolUsage(e);
        case GoalSet => ApplyGoalSet(e);
        case TaskStarted => ApplyTaskStarted(e);
        case TaskCompleted => ApplyTaskCompleted(e);
        case TaskUpdated => ApplyTaskUpdated(e);
        case TaskDeleted => ApplyTaskDeleted(e);
        case FileModified => ApplyFileModified(e);
        case Failure => failures := failures + [e.payload];
        case TaskBlocked => blocked := blocked + [e.payload];
        case _ =>
      }
    }

    method ApplyGoalSet(e: Event)
      requires e.kind == GoalSet
      modifies this`goal
      ensures State() == Enact(normalize, old(State()), EffectOf(normalize, e))
    {
      var g := GoalOf(e);
      if g.Some? {
        goal := g;
      }
    }

    method ApplyTaskStarted(e: Event)
      requires e.kind == TaskStarted
      modifies this`openTaskRefs, this`openTasks
      ensures State() == Enact(normalize, old(State()), EffectOf(normalize, e))
    {
      hide TaskRef, Put;
      var ref := TaskRef(normalize, e);
      if ref.Some? {
        openTaskRefs := Put(openTaskRefs, ref.value.0, ref.value.1);
        SyncOpenTaskList();
      }
    }

    method ApplyTaskUpdated(e: Event)
      requires e.kind == TaskUpdated
      modifies this`openTaskRefs, this`openTasks
      ensures State() == Enact(normalize, old(State()), EffectOf(normalize, e))
    {
      hide UpdatedGoalOf, NonEmptyText, Get, IdKey, Put;
      var taskId, g := NonEmptyText(Get(e.payload, "task_id")), UpdatedGoalOf(e);
      if taskId.Some? && g.Some? {
        openTaskRefs := Put(openTaskRefs, IdKey(taskId.value), g.value);
        SyncOpenTaskList();
      }
    }

    method ApplyTaskDeleted(e: Event)
      requires e.kind == TaskDeleted
      modifies this`openTaskRefs, this`openTasks
      ensures State() == Enact(normalize, old(State()), EffectOf(normalize, e))
      ensures
        var id := Get(e.payload, "task_id");
        id.Str? && id.s != "" && DistinctKeys(old(openTaskRefs)) ==>
          !HasKey(openTaskRefs, "id:" + id.s) && openTasks == Values(openTaskRefs)
    {
      hide Get, Pop, HasKey;
      var id := Get(e.payload, "task_id");
      if id.Str? && DistinctKeys(openTaskRefs) {
        PopDrops(openTaskRefs, "id:" + id.s);
      }
      var taskId := NonEmptyText(Get(e.payload, "task_id"));
      if taskId.Some? {
        openTaskRefs := Pop(openTaskRefs, IdKey(taskId.value));
        SyncOpenTaskList();
      }
    }

    method ApplyFileModified(e: Event)
      requires e.kind == FileModified
      modifies this`workingFiles, this`lastWorkingFile
      ensures State() == Enact(normalize, old(State()), EffectOf(normalize, e))
    {
      var path := FilePathOf(e);
      if path.Some? {
        workingFiles := RemoveFirst(workingFiles, path.value);
        workingFiles := workingFiles + [path.value];
        lastWorkingFile := path;
      }
    }

    method SyncOpenTaskList()
      modifies this`openTasks
      ensures openTasks == Values(openTaskRefs)
    {
      var tasks := [];
      for i := 0 to |openTaskRefs|
        invariant tasks == Values(openTaskRefs)[..i]
      {
        tasks := tasks + [openTaskRefs[i].1];
      }
      openTasks := tasks;
    }

    method ApplyTaskCompleted(e: Event)
      requires e.kind == TaskCompleted
      modifies this`openTaskRefs, this`openTasks, this`completedTasks
      ensures State() == Enact(normalize, old(State()), EffectOf(normalize, e))
    {
      hide TaskRef, Pop, HasKey, AlternateRefKey, RefWithLabel;
      var ref := TaskRef(normalize, e);
      if ref.None? {
        return;
      }
      var key, task := ref.value.0, ref.value.1;
      if !HasKey(openTaskRefs, key) {
        var alt := AlternateRefKey(normalize, key);
        if HasKey(openTaskRefs, alt) {
          key := alt;
        } else {
          key := FirstRefWithLabel(normalize(task), key);
        }
      }
      openTaskRefs := Pop(openTaskRefs, key);
      SyncOpenTaskList();
      if task !in completedTasks {
        completedTasks := completedTasks + [task];
      }
    }

    method FirstRefWithLabel(title: string, fallback: string) returns (key: string)
      ensures key == RefWithLabel(normalize, openTaskRefs, title, fallback)
    {
      for i := 0 to |openTaskRefs|
        invariant RefWithLabel(normalize, openTaskRefs, title, fallback)
               == RefWithLabel(normalize, openTaskRefs[i..], title, fallback)
      {
        if normalize(openTaskRefs[i].1) == title {
          return openTaskRefs[i].0;
        }
      }
      return fallback;
    }

    method RecordToolUsage(e: Event)
      requires e.kind == ToolCall
      modifies this`toolUsage
      ensures State() == Enact(normalize, old(State()), EffectOf(normalize, e))
    {
      for i := 0 to |toolUsage|
        invariant forall j :: 0 <= j < i ==> toolUsage[j].eventId != e.id
      {
        if toolUsage[i].eventId == e.id {
          return;
        }
      }
      toolUsage := toolUsage + [UsageOf(e)];
    }
  }
}
