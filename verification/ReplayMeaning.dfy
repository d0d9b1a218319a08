/** What the fields of a replayed state mean in terms of the log, stated without the machine. */
module ReplayMeaning {
  import opened Wrappers
  import opened Json
  import opened OrderedDict
  import opened Events
  import opened Fields
  import opened Sequences
  import opened StateMachine
  import opened ReplayProofs
  import opened Compression
  import opened Deduplicator

  /** The last goal the log names. */
  function LastGoal(es: seq<Event>): Option<string> {
    if es == [] then None
    else
      var e := es[|es| - 1];
      if e.kind == GoalSet && GoalNamed(e).Some? then GoalNamed(e) else LastGoal(es[..|es| - 1])
  }

  function IsKind(kind: EventType): Event -> bool {
    (e: Event) => e.kind == kind
  }

  function PayloadsOf(es: seq<Event>): (r: seq<Payload>)
    ensures |r| == |es|
  {
    seq(|es|, i requires 0 <= i < |es| => es[i].payload)
  }

  /** What a tool call records: its event id, and the payload's fields where it has them. */
  function CallRecord(e: Event): ToolUsage {
    ToolUsage(e.id, Get(e.payload, "tool_name"),
              if "tool_args" in e.payload then e.payload["tool_args"] else Obj(map[]),
              Get(e.payload, "timestamp"),
              if "session_id" in e.payload then e.payload["session_id"] else Num(e.sessionId))
  }

  function UsagesOf(es: seq<Event>): (r: seq<ToolUsage>)
    ensures |r| == |es|
  {
    seq(|es|, i requires 0 <= i < |es| => CallRecord(es[i]))
  }

  function PathIn(e: Event): seq<string> {
    if e.kind == FileModified && FileNamed(e).Some? then [FileNamed(e).value] else []
  }

  /** The files of modification events, in event order. */
  function Paths(es: seq<Event>): seq<string> {
    if es == [] then []
    else
      var e := es[|es| - 1];
      Paths(es[..|es| - 1]) + PathIn(e)
  }

  lemma EnactFields(norm: Normalizer, s: ProjectState, x: Effect)
    ensures
      var r := Enact(norm, s, x);
      && r.goal == (if x.SetGoal? then Some(x.goal) else s.goal)
      && r.failures == (if x.NoteFailure? then s.failures + [x.payload] else s.failures)
      && r.blocked == (if x.NoteBlocked? then s.blocked + [x.payload] else s.blocked)
  {
    hide ClosedKey, Pop, Put, RemoveFirst;
  }

  lemma EffectKinds(norm: Normalizer, e: Event)
    ensures
      var x := EffectOf(norm, e);
      && (x.SetGoal? <==> e.kind == GoalSet && GoalNamed(e).Some?) && (x.SetGoal? ==> Some(x.goal) == GoalNamed(e))
      && (x.NoteFailure? <==> e.kind == Failure) && (x.NoteFailure? ==> x.payload == e.payload)
      && (x.NoteBlocked? <==> e.kind == TaskBlocked) && (x.NoteBlocked? ==> x.payload == e.payload)
      && (x.NoteUsage? <==> e.kind == ToolCall) && (x.NoteUsage? ==> x.usage == CallRecord(e))
  {
    hide TaskRef, FilePathOf, UpdatedGoalOf, NonEmptyText, Get, GetOr, Or, OfText, FirstText, IdKey, UsageOf,
      CallRecord;
    GoalIsNamed(e);
    UsageIsRecord(e);
  }

  lemma UsageIsRecord(e: Event)
    ensures UsageOf(e) == CallRecord(e) && CallRecord(e).eventId == e.id
  {
  }

  lemma PayloadsSnoc(es: seq<Event>, e: Event)
    ensures PayloadsOf(es + [e]) == PayloadsOf(es) + [e.payload]
  {
  }

  lemma {:induction false} StepsFields(norm: Normalizer, es: seq<Event>)
    ensures
      var s := Steps(norm, EMPTY_STATE, es);
      && s.goal == LastGoal(es)
      && s.failures == PayloadsOf(Filter(IsKind(Failure), es))
      && s.blocked == PayloadsOf(Filter(IsKind(TaskBlocked), es))
  {
    hide Enact, EffectOf, GoalNamed;
    if es != [] {
      var front, e := es[..|es| - 1], es[|es| - 1];
      StepsFields(norm, front);
      var s := Steps(norm, EMPTY_STATE, front).(lastEventId := Some(e.id));
      EffectKinds(norm, e);
      EnactFields(norm, s, EffectOf(norm, e));
      PayloadsSnoc(Filter(IsKind(Failure), front), e);
      PayloadsSnoc(Filter(IsKind(TaskBlocked), front), e);
      assert Filter(IsKind(Failure), front) + [] == Filter(IsKind(Failure), front);
      assert Filter(IsKind(TaskBlocked), front) + [] == Filter(IsKind(TaskBlocked), front);
    } else {
      assert PayloadsOf([]) == [];
    }
  }

  /** After replaying a log with distinct ids: the goal is the last one named, and failures and blocks are
      the payloads of those events, in order. */
  lemma ReplayCollects(norm: Normalizer, es: seq<Event>)
    requires DistinctIds(es)
    ensures
      var s := Replay(norm, es);
      && s.goal == LastGoal(es)
      && s.failures == PayloadsOf(Filter(IsKind(Failure), es))
      && s.blocked == PayloadsOf(Filter(IsKind(TaskBlocked), es))
  {
    RunIsSteps(norm, EMPTY_STATE, es);
    StepsFields(norm, es);
  }

  lemma UsagesSnoc(es: seq<Event>, e: Event)
    ensures UsagesOf(es + [e]) == UsagesOf(es) + [CallRecord(e)]
  {
  }

  lemma EnactUsage(norm: Normalizer, s: ProjectState, x: Effect)
    ensures Enact(norm, s, x).toolUsage ==
            if x.NoteUsage? && !UsageRecorded(s.toolUsage, x.usage.eventId) then s.toolUsage + [x.usage]
            else s.toolUsage
  {
    hide ClosedKey, Pop, Put, RemoveFirst;
  }

  lemma LastIdIsNew(es: seq<Event>)
    requires es != [] && DistinctIds(es)
    ensures es[|es| - 1].id !in Ids(es[..|es| - 1])
  {
    var front, e := es[..|es| - 1], es[|es| - 1];
    forall f | f in front ensures f.id != e.id {
      var i :| 0 <= i < |front| && front[i] == f;
      assert es[i].id != es[|es| - 1].id;
    }
  }

  /** Tool usage is exactly the tool calls of the log, in order. */
  lemma {:induction false} ToolUsageIsToolCalls(norm: Normalizer, es: seq<Event>)
    requires DistinctIds(es)
    ensures Replay(norm, es).toolUsage == UsagesOf(Filter(IsKind(ToolCall), es))
  {
    hide Enact, EffectOf, CallRecord, Ids;
    if es != [] {
      var front, e := es[..|es| - 1], es[|es| - 1];
      ToolUsageIsToolCalls(norm, front);
      RunUsage(norm, front);
      LastIdIsNew(es);
      RunApplied(norm, Fresh(EMPTY_STATE), front);
      EffectKinds(norm, e);
      UsageIsRecord(e);
      EnactUsage(norm, Replay(norm, front).(lastEventId := Some(e.id)), EffectOf(norm, e));
      UsagesSnoc(Filter(IsKind(ToolCall), front), e);
      assert Filter(IsKind(ToolCall), front) + [] == Filter(IsKind(ToolCall), front);
    } else {
      assert UsagesOf([]) == [];
    }
  }

  // ---- Repeated ids ----

  predicate Bears(es: seq<Event>, id: string) {
    exists i :: 0 <= i < |es| && es[i].id == id
  }

  /** The log less every event whose id came before. */
  function FirstOfIds(es: seq<Event>): seq<Event> {
    if es == [] then []
    else
      var front, e := es[..|es| - 1], es[|es| - 1];
      if Bears(front, e.id) then FirstOfIds(front) else FirstOfIds(front) + [e]
  }

  lemma BearsId(es: seq<Event>, id: string)
    ensures Bears(es, id) <==> id in Ids(es)
  {
    if id in Ids(es) {
      var e :| e in es && e.id == id;
      var i :| 0 <= i < |es| && es[i] == e;
      assert es[i].id == id;
    }
  }

  lemma BearsSnoc(es: seq<Event>, e: Event, id: string)
    ensures Bears(es + [e], id) <==> Bears(es, id) || e.id == id
  {
    if Bears(es, id) {
      var i :| 0 <= i < |es| && es[i].id == id;
      assert (es + [e])[i].id == id;
    }
    if e.id == id {
      assert (es + [e])[|es|].id == id;
    }
  }

  lemma {:induction false} FirstsBearSameIds(es: seq<Event>, id: string)
    ensures Bears(FirstOfIds(es), id) <==> Bears(es, id)
  {
    if es != [] {
      hide Bears;
      var front, e := es[..|es| - 1], es[|es| - 1];
      assert es == front + [e];
      FirstsBearSameIds(front, id);
      BearsSnoc(front, e, id);
      BearsSnoc(FirstOfIds(front), e, id);
    }
  }

  lemma DistinctSnocId(es: seq<Event>, e: Event)
    requires DistinctIds(es) && !Bears(es, e.id)
    ensures DistinctIds(es + [e])
  {
  }

  lemma {:induction false} FirstsAreDistinct(es: seq<Event>)
    ensures DistinctIds(FirstOfIds(es))
  {
    if es != [] {
      hide Bears, DistinctIds;
      var front, e := es[..|es| - 1], es[|es| - 1];
      FirstsAreDistinct(front);
      FirstsBearSameIds(front, e.id);
      if !Bears(front, e.id) {
        DistinctSnocId(FirstOfIds(front), e);
      }
    } else {
      assert DistinctIds(FirstOfIds(es));
    }
  }

  /** An event counts once: replaying a log in which ids repeat is replaying the first event of each id, a log
      of distinct ids. */
  lemma {:induction false} ReplayIsFirsts(norm: Normalizer, es: seq<Event>)
    ensures Run(norm, Fresh(EMPTY_STATE), es) == Run(norm, Fresh(EMPTY_STATE), FirstOfIds(es))
    ensures DistinctIds(FirstOfIds(es))
  {
    FirstsAreDistinct(es);
    if es != [] {
      hide Step, Ids, Bears, DistinctIds;
      var front, e := es[..|es| - 1], es[|es| - 1];
      ReplayIsFirsts(norm, front);
      RunApplied(norm, Fresh(EMPTY_STATE), front);
      BearsId(front, e.id);
      var firsts := FirstOfIds(front);
      assert (firsts + [e])[..|firsts|] == firsts;
    }
  }

  // ---- Working files ----

  lemma PathsSnoc(es: seq<Event>, e: Event)
    ensures Paths(es + [e]) == Paths(es) + PathIn(e)
  {
    assert (es + [e])[..|es|] == es;
  }

  lemma {:induction false} PathsOfDropped(es: seq<Event>, path: string)
    requires NoDuplicates(Paths(es))
    ensures Paths(DropPath(es, path)) == RemoveFirst(Paths(es), path)
  {
    hide FilePathOf, FileNamed;
    if es != [] {
      var front, e := es[..|es| - 1], es[|es| - 1];
      FileIsNamed(e);
      var p := PathIn(e);
      assert Paths(es) == Paths(front) + p;
      FrontDistinct(Paths(front), p);
      PathsOfDropped(front, path);
      RemoveFirstAppend(Paths(front), p, path);
      if Modifies(e, path) {
        assert p == [path];
        assert path !in Paths(front);
        RemoveFirstAbsent(Paths(front), path);
        assert DropPath(es, path) == DropPath(front, path) + [] == DropPath(front, path);
        assert RemoveFirst([path], path) == [];
        assert Paths(front) + [] == Paths(front);
      } else {
        assert DropPath(es, path) == DropPath(front, path) + [e];
        PathsSnoc(DropPath(front, path), e);
        assert path !in p;
        RemoveFirstAbsent(p, path);
        if path !in Paths(front) {
          RemoveFirstAbsent(Paths(front), path);
        }
      }
    }
  }

  lemma FrontDistinct<T>(a: seq<T>, b: seq<T>)
    requires NoDuplicates(a + b)
    ensures NoDuplicates(a)
    ensures forall x :: x in b ==> x !in a
  {
    forall i, j | 0 <= i < j < |a| ensures a[i] != a[j] {
      assert (a + b)[i] != (a + b)[j];
    }
    forall x | x in b ensures x !in a {
      var j :| 0 <= j < |b| && b[j] == x;
      forall i | 0 <= i < |a| ensures a[i] != x {
        assert (a + b)[i] != (a + b)[|a| + j];
      }
    }
  }

  lemma {:induction false} StepsWorkingFiles(norm: Normalizer, es: seq<Event>)
    ensures Steps(norm, EMPTY_STATE, es).workingFiles == Paths(LastOnly(es))
  {
    hide FilePathOf, FileNamed, EffectOf, DropPath, RemoveFirst;
    if es != [] {
      var front, e := es[..|es| - 1], es[|es| - 1];
      var s, kept := Steps(norm, EMPTY_STATE, front), LastOnly(front);
      StepsWorkingFiles(norm, front);
      StepsFilesDistinct(norm, front);
      TouchEffect(norm, e);
      FileIsNamed(e);
      if Churn(e) && FilePathOf(e).Some? {
        PathsOfDropped(kept, FilePathOf(e).value);
        PathsSnoc(DropPath(kept, FilePathOf(e).value), e);
      } else {
        EnactLeavesFiles(norm, s.(lastEventId := Some(e.id)), EffectOf(norm, e));
        PathsSnoc(kept, e);
      }
    }
  }

  /** Move-to-end keeps the files in the order of their last modification, each once: the working files are
      the paths of exactly the modification events that compression retains. */
  lemma WorkingFilesByLastModification(norm: Normalizer, es: seq<Event>)
    requires DistinctIds(es)
    ensures Replay(norm, es).workingFiles == Paths(Collapsed(es))
    ensures NoDuplicates(Paths(Collapsed(es)))
  {
    RunIsSteps(norm, EMPTY_STATE, es);
    StepsWorkingFiles(norm, es);
    StepsFilesDistinct(norm, es);
    CollapseIsLastOnly(es);
  }

  function Other(path: string): string -> bool {
    (p: string) => p != path
  }

  /** Each modified file once, moved to the end by every modification. */
  function MovedToEnd(es: seq<Event>): seq<string> {
    if es == [] then []
    else
      var files, p := MovedToEnd(es[..|es| - 1]), PathIn(es[|es| - 1]);
      if p == [] then files else Filter(Other(p[0]), files) + p
  }

  lemma {:induction false} RemoveFirstIsFilter(files: seq<string>, path: string)
    requires NoDuplicates(files)
    ensures RemoveFirst(files, path) == Filter(Other(path), files)
  {
    if files != [] {
      var rest := files[1..];
      RemoveFirstIsFilter(rest, path);
      assert files == [files[0]] + rest && [files[0]][..0] == [];
      FilterConcat(Other(path), [files[0]], rest);
      if files[0] == path {
        FilterEvery(Other(path), rest);
      }
    }
  }

  lemma {:induction false} StepsMoveFiles(norm: Normalizer, es: seq<Event>)
    ensures
      var s := Steps(norm, EMPTY_STATE, es);
      && s.workingFiles == MovedToEnd(es)
      && s.lastWorkingFile == (if Paths(es) == [] then None else Some(Paths(es)[|Paths(es)| - 1]))
  {
    hide FilePathOf, FileNamed, EffectOf, RemoveFirst, Filter;
    if es != [] {
      var front, e := es[..|es| - 1], es[|es| - 1];
      var s := Steps(norm, EMPTY_STATE, front).(lastEventId := Some(e.id));
      StepsMoveFiles(norm, front);
      StepsFilesDistinct(norm, front);
      TouchEffect(norm, e);
      FileIsNamed(e);
      if PathIn(e) != [] {
        RemoveFirstIsFilter(s.workingFiles, PathIn(e)[0]);
      } else {
        EnactLeavesFiles(norm, s, EffectOf(norm, e));
      }
    }
  }

  /** Working files are the files modification events name, moved to the end each time, and the last working
      file is the last one named; the last event id is the last event's. */
  lemma FilesMoveToEnd(norm: Normalizer, es: seq<Event>)
    requires DistinctIds(es)
    ensures
      var s := Replay(norm, es);
      && s.workingFiles == MovedToEnd(es)
      && s.lastWorkingFile == (if Paths(es) == [] then None else Some(Paths(es)[|Paths(es)| - 1]))
      && s.lastEventId == (if es == [] then None else Some(es[|es| - 1].id))
  {
    RunIsSteps(norm, EMPTY_STATE, es);
    StepsMoveFiles(norm, es);
    StepsLastEvent(norm, es);
  }

  // ---- Snapshots ----

  /** The fingerprint a session's start or summary records, unless it is empty. */
  function GitSaid(): Event -> Option<Payload> {
    (e: Event) =>
      if e.kind != SessionStarted && e.kind != SessionSummary then None
      else
        match Get(e.payload, "git")
        case Obj(fields) => if fields == map[] then None else Some(fields)
        case _ => None
  }

  lemma {:induction false} LatestGitIsSaid(es: seq<Event>)
    ensures LatestGit(es) == SaidOr(GitSaid(), es, map[])
  {
    if es != [] {
      hide Get;
      LatestGitIsSaid(es[..|es| - 1]);
    }
  }

  /** A snapshot counts every event of the log, compressed away or not, carries the last fingerprint a session
      recorded, and its state is the replayed one up to the last event id. */
  lemma CoreSnapshotIs(norm: Normalizer, raw: seq<Event>)
    requires DistinctIds(raw)
    ensures
      var d, s := CoreSnapshot(norm, raw), Replay(norm, raw);
      && d.eventCount == |raw| && d.git == SaidOr(GitSaid(), raw, map[])
      && d.state == s.(lastEventId := d.state.lastEventId)
  {
    hide Replay, SaidOr, LatestGit;
    LatestGitIsSaid(raw);
    CollapsedReplay(norm, raw);
  }

  // ---- Completion ----

  lemma {:induction false} FirstWithLabel(norm: Normalizer, refs: Dict<string, string>, title: string, fallback: string)
    ensures
      var k := RefWithLabel(norm, refs, title, fallback);
      if forall i :: 0 <= i < |refs| ==> norm(refs[i].1) != title then k == fallback
      else exists i :: 0 <= i < |refs| && refs[i].0 == k && norm(refs[i].1) == title
                       && forall j :: 0 <= j < i ==> norm(refs[j].1) != title
  {
    if refs != [] && norm(refs[0].1) != title {
      var rest := refs[1..];
      FirstWithLabel(norm, rest, title, fallback);
      assert forall i :: 0 <= i < |rest| ==> rest[i] == refs[i + 1];
      if !(forall i :: 0 <= i < |rest| ==> norm(rest[i].1) != title) {
        var k := RefWithLabel(norm, rest, title, fallback);
        var i :| 0 <= i < |rest| && rest[i].0 == k && norm(rest[i].1) == title
                 && forall j :: 0 <= j < i ==> norm(rest[j].1) != title;
        assert refs[i + 1] == rest[i];
        forall j | 0 <= j < i + 1 ensures norm(refs[j].1) != title {
          if j > 0 {
            assert rest[j - 1] == refs[j];
          }
        }
      }
    }
  }

  lemma PopMember(d: Dict<string, string>, k: string, p: (string, string))
    requires DistinctKeys(d)
    ensures p in Pop(d, k) <==> p in d && p.0 != k
  {
    var at := Find(d, k);
    if at.Some? {
      var front, back := d[..at.value], d[at.value + 1..];
      assert d == front + [d[at.value]] + back;
      assert forall q :: q in front ==> q.0 != k;
      assert forall q :: q in back ==> q.0 != k;
    }
  }

  /** Completing a task closes exactly one reference, or none: its own key if open, else the alternate key,
      else the first open reference with its label; all others stay, and the label is recorded as done. */
  lemma CompletionClosesOne(norm: Normalizer, s: ProjectState, key: string, task: string, p: (string, string))
    requires WellFormed(s)
    ensures
      var refs, alt := s.openTaskRefs, AlternateRefKey(norm, key);
      var r := Enact(norm, s, CompleteTask(key, task));
      var k := ClosedKey(norm, refs, key, task);
      && (p in r.openTaskRefs <==> p in refs && p.0 != k)
      && (HasKey(refs, key) ==> k == key)
      && (!HasKey(refs, key) && HasKey(refs, alt) ==> k == alt)
      && (!HasKey(refs, key) && !HasKey(refs, alt) && HasKey(refs, k) ==>
            exists i :: 0 <= i < |refs| && refs[i].0 == k && norm(refs[i].1) == norm(task)
                        && forall j :: 0 <= j < i ==> norm(refs[j].1) != norm(task))
      && (!HasKey(refs, k) ==> forall i :: 0 <= i < |refs| ==> norm(refs[i].1) != norm(task))
      && task in r.completedTasks
  {
    hide AlternateRefKey, RefWithLabel, Pop;
    var refs := s.openTaskRefs;
    var k := ClosedKey(norm, refs, key, task);
    PopMember(refs, k, p);
    FirstWithLabel(norm, refs, norm(task), key);
    assert forall i :: 0 <= i < |refs| ==> HasKey(refs, refs[i].0);
  }
}
