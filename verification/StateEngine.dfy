/** Snapshot plus delta: `StateEngine` (`core/state_engine.py`) over `StateMerger` (`core/merge.py`). */
module StateEngine {
  import opened Wrappers
  import opened Json
  import opened OrderedDict
  import opened Events
  import opened StateMachine

  // The state dictionary handed between the engine, the merger and the snapshot store.
  datatype StateDict = StateDict(state: ProjectState, eventCount: int, git: Payload)

  // ---- ProjectState.from_dict ----

  /** First stored key that carries this label and is not yet taken. */
  function FirstFree(stored: Dict<string, string>, task: string, refs: Dict<string, string>): Option<string> {
    if stored == [] then None
    else if stored[0].1 == task && !HasKey(refs, stored[0].0) then Some(stored[0].0)
    else FirstFree(stored[1..], task, refs)
  }

  function RelinkedKey(norm: Normalizer, stored: Dict<string, string>, task: string, refs: Dict<string, string>): string
  {
    var matching := FirstFree(stored, task, refs);
    if matching.Some? && matching.value != "" then matching.value else LegacyKey(norm, task)
  }

  /** Give every listed open task, in list order, a reference key. */
  function Relink(norm: Normalizer, tasks: seq<string>, stored: Dict<string, string>): Dict<string, string> {
    if tasks == [] then []
    else
      var refs := Relink(norm, tasks[..|tasks| - 1], stored);
      var task := tasks[|tasks| - 1];
      Put(refs, RelinkedKey(norm, stored, task, refs), task)
  }

  function FillMissing(refs: Dict<string, string>, stored: Dict<string, string>): Dict<string, string> {
    if stored == [] then refs
    else
      var last := stored[|stored| - 1];
      SetDefault(FillMissing(refs, stored[..|stored| - 1]), last.0, last.1)
  }

  function FromDict(norm: Normalizer, s: ProjectState): ProjectState {
    s.(openTaskRefs := FillMissing(Relink(norm, s.openTasks, s.openTaskRefs), s.openTaskRefs))
  }

  method KeyFor(norm: Normalizer, stored: Dict<string, string>, title: string, taken: Dict<string, string>)
    returns (key: string)
    ensures key == RelinkedKey(norm, stored, title, taken)
  {
    for j := 0 to |stored|
      invariant FirstFree(stored, title, taken) == FirstFree(stored[j..], title, taken)
    {
      if stored[j].1 == title && !HasKey(taken, stored[j].0) {
        return if stored[j].0 != "" then stored[j].0 else LegacyKey(norm, title);
      }
    }
    return LegacyKey(norm, title);
  }

  method LoadState(norm: Normalizer, data: ProjectState) returns (s: ProjectState)
    ensures s == FromDict(norm, data)
  {
    var tasks, stored := data.openTasks, data.openTaskRefs;
    var refs: Dict<string, string> := [];
    for i := 0 to |tasks|
      invariant refs == Relink(norm, tasks[..i], stored)
    {
      assert tasks[..i + 1][..i] == tasks[..i];
      var key := KeyFor(norm, stored, tasks[i], refs);
      refs := Put(refs, key, tasks[i]);
    }
    assert tasks[..|tasks|] == tasks;
    ghost var linked := refs;
    for i := 0 to |stored|
      invariant refs == FillMissing(linked, stored[..i])
    {
      assert stored[..i + 1][..i] == stored[..i];
      refs := SetDefault(refs, stored[i].0, stored[i].1);
    }
    assert stored[..|stored|] == stored;
    s := data.(openTaskRefs := refs);
  }

  // ---- StateMerger ----

  function Dedupe<T(==)>(s: seq<T>): seq<T> {
    if s == [] then [] else AddUnique(Dedupe(s[..|s| - 1]), s[|s| - 1])
  }

  function RemoveAll(s: seq<string>, x: string): seq<string> {
    if s == [] then []
    else if s[|s| - 1] == x then RemoveAll(s[..|s| - 1], x)
    else RemoveAll(s[..|s| - 1], x) + [s[|s| - 1]]
  }

  function Without(open: seq<string>, done: seq<string>): seq<string> {
    if done == [] then open else RemoveAll(Without(open, done[..|done| - 1]), done[|done| - 1])
  }

  function IfPresent<T>(incoming: Option<T>, existing: Option<T>): Option<T> {
    if incoming.Some? then incoming else existing
  }

  /** The per-field merge table applied to a base and a delta dictionary. */
  function Merged(base: StateDict, delta: StateDict): StateDict {
    var b, d := base.state, delta.state;
    StateDict(
      ProjectState(
        IfPresent(d.goal, b.goal),
        d.workingFiles,
        Without(d.openTasks, d.completedTasks),
        Dedupe(b.completedTasks + d.completedTasks),
        b.blocked + d.blocked,
        b.failures + d.failures,
        b.toolUsage + d.toolUsage,
        IfPresent(d.lastEventId, b.lastEventId),
        IfPresent(d.lastWorkingFile, b.lastWorkingFile),
        d.openTaskRefs),
      base.eventCount + delta.eventCount,
      delta.git)
  }

  method AppendUnique(left: seq<string>, right: seq<string>) returns (result: seq<string>)
    ensures result == Dedupe(left + right)
  {
    var combined := left + right;
    result := [];
    for i := 0 to |combined|
      invariant result == Dedupe(combined[..i])
    {
      assert combined[..i + 1][..i] == combined[..i];
      if combined[i] !in result {
        result := result + [combined[i]];
      }
    }
    assert combined[..|combined|] == combined;
  }

  method DropLabel(open: seq<string>, done: string) returns (kept: seq<string>)
    ensures kept == RemoveAll(open, done)
  {
    kept := [];
    for i := 0 to |open|
      invariant kept == RemoveAll(open[..i], done)
    {
      assert open[..i + 1][..i] == open[..i];
      if open[i] != done {
        kept := kept + [open[i]];
      }
    }
    assert open[..|open|] == open;
  }

  method Merge(base: StateDict, delta: StateDict) returns (merged: StateDict)
    ensures merged == Merged(base, delta)
  {
    merged := base;
    var b, d := base.state, delta.state;
    if d.goal.Some? {
      merged := merged.(state := merged.state.(goal := d.goal));
    }
    merged := merged.(state := merged.state.(workingFiles := d.workingFiles));
    var completed := AppendUnique(b.completedTasks, d.completedTasks);
    merged := merged.(state := merged.state.(completedTasks := completed));
    merged := merged.(state := merged.state.(failures := b.failures + d.failures));
    merged := merged.(state := merged.state.(blocked := b.blocked + d.blocked));
    merged := merged.(state := merged.state.(openTasks := d.openTasks));
    merged := merged.(state := merged.state.(toolUsage := b.toolUsage + d.toolUsage));
    if d.lastEventId.Some? {
      merged := merged.(state := merged.state.(lastEventId := d.lastEventId));
    }
    if d.lastWorkingFile.Some? {
      merged := merged.(state := merged.state.(lastWorkingFile := d.lastWorkingFile));
    }
    merged := merged.(state := merged.state.(openTaskRefs := d.openTaskRefs));
    var done := d.completedTasks;
    var open := merged.state.openTasks;
    for i := 0 to |done|
      invariant open == Without(d.openTasks, done[..i])
    {
      assert done[..i + 1][..i] == done[..i];
      open := DropLabel(open, done[i]);
    }
    assert done[..|done|] == done;
    merged := merged.(state := merged.state.(openTasks := open));
    merged := merged.(eventCount := base.eventCount + delta.eventCount, git := delta.git);
  }

  // ---- StateEngine ----

  function Built(norm: Normalizer, es: seq<Event>, git: Payload): StateDict {
    StateDict(Replay(norm, es), |es|, git)
  }

  /** The delta dictionary: append-only fields from a fresh replay, the rest from the final state. */
  function Delta(norm: Normalizer, final: ProjectState, es: seq<Event>, git: Payload): StateDict {
    var d := Replay(norm, es);
    StateDict(
      d.(goal := final.goal, workingFiles := final.workingFiles, openTasks := final.openTasks,
         openTaskRefs := final.openTaskRefs, lastEventId := final.lastEventId,
         lastWorkingFile := final.lastWorkingFile),
      |es|, git)
  }

  function Resumed(norm: Normalizer, base: StateDict, es: seq<Event>, git: Payload): StateDict {
    if es == [] then base.(git := git)
    else
      var final := Run(norm, Fresh(FromDict(norm, base.state)), es).state;
      Merged(base, Delta(norm, final, es, git))
  }

  method ReplayFrom(norm: Normalizer, start: ProjectState, es: seq<Event>) returns (s: ProjectState)
    ensures s == Run(norm, Fresh(start), es).state
  {
    var machine := new Replayer(norm, start);
    for i := 0 to |es|
      invariant machine.normalize == norm
      invariant machine.View() == Run(norm, Fresh(start), es[..i])
    {
      assert es[..i + 1][..i] == es[..i];
      machine.Apply(es[i]);
    }
    assert es[..|es|] == es;
    s := machine.State();
  }

  method BuildState(norm: Normalizer, es: seq<Event>, git: Payload) returns (d: StateDict)
    ensures d == Built(norm, es, git)
  {
    var s := ReplayFrom(norm, EMPTY_STATE, es);
    d := StateDict(s, |es|, git);
  }

  method ApplyEvents(norm: Normalizer, base: StateDict, es: seq<Event>, git: Payload) returns (d: StateDict)
    ensures d == Resumed(norm, base, es, git)
  {
    if es == [] {
      return base.(git := git);
    }
    var start := LoadState(norm, base.state);
    var final := ReplayFrom(norm, start, es);
    var delta := ReplayFrom(norm, EMPTY_STATE, es);
    delta := delta.(goal := final.goal);
    delta := delta.(workingFiles := final.workingFiles);
    delta := delta.(openTasks := final.openTasks);
    delta := delta.(openTaskRefs := final.openTaskRefs);
    delta := delta.(lastEventId := final.lastEventId);
    delta := delta.(lastWorkingFile := final.lastWorkingFile);
    d := Merge(base, StateDict(delta, |es|, git));
  }
}
