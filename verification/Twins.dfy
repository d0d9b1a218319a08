/** Two open tasks that look alike: what reordering their references does (`storage/snapshot_repo.py`). */
module Twins {
  import opened Wrappers
  import opened Json
  import opened OrderedDict
  import opened Events
  import opened StateMachine
  import opened StateEngine
  import opened ReplayProofs
  import opened SnapshotReload
  import opened Resume

  function StartOf(eventId: string, taskId: string, title: string): Event {
    Event(eventId, TaskStarted, 0, None, None, map["task_id" := Str(taskId), "task" := Str(title)], None, None, 0,
          false)
  }

  /** Two tasks started under one title, `b` before `a`. */
  function TwinLog(a: string, b: string, title: string): seq<Event> {
    [StartOf("1", b, title), StartOf("2", a, title)]
  }

  /** Two open references with one label. */
  function Pair(first: string, second: string, title: string): Dict<string, string> {
    [(IdKey(first), title), (IdKey(second), title)]
  }

  function PairState(first: string, second: string, title: string): ProjectState {
    EMPTY_STATE.(openTasks := [title, title], lastEventId := Some("2"), openTaskRefs := Pair(first, second, title))
  }

  lemma IdKeysDiffer(a: string, b: string)
    requires a != b
    ensures IdKey(a) != IdKey(b)
  {
    assert IdKey(a)[3..] == a && IdKey(b)[3..] == b;
  }

  lemma StartEffect(norm: Normalizer, eventId: string, taskId: string, title: string)
    requires taskId != "" && title != ""
    ensures EffectOf(norm, StartOf(eventId, taskId, title)) == OpenTask(IdKey(taskId), title)
  {
    var e := StartOf(eventId, taskId, title);
    assert |"task_id"| != |"task"|;
    assert Get(e.payload, "task_id") == Str(taskId) && Get(e.payload, "task") == Str(title);
  }

  lemma StartOpensId(norm: Normalizer, s: ProjectState, eventId: string, taskId: string, title: string)
    requires taskId != "" && title != "" && !HasKey(s.openTaskRefs, IdKey(taskId))
    ensures
      var refs := s.openTaskRefs + [(IdKey(taskId), title)];
      Step(norm, s, StartOf(eventId, taskId, title)) ==
      s.(lastEventId := Some(eventId), openTaskRefs := refs, openTasks := Values(refs))
    ensures StartOf(eventId, taskId, title).id == eventId
  {
    hide EffectOf, IdKey;
    StartEffect(norm, eventId, taskId, title);
  }

  lemma TwinsOpen(norm: Normalizer, a: string, b: string, title: string)
    requires a != b && a != "" && b != "" && title != ""
    ensures Replay(norm, TwinLog(a, b, title)) == PairState(b, a, title)
  {
    hide Step, IdKey, StartOf;
    var e1, e2 := StartOf("1", b, title), StartOf("2", a, title);
    StartOpensId(norm, EMPTY_STATE, "1", b, title);
    var m := ApplyEvent(norm, Fresh(EMPTY_STATE), e1);
    assert m.state.openTaskRefs == [(IdKey(b), title)];
    IdKeysDiffer(a, b);
    StartOpensId(norm, m.state, "2", a, title);
    assert Pair(b, a, title) == m.state.openTaskRefs + [(IdKey(a), title)];
    assert Values(Pair(b, a, title)) == [title, title];
    assert "1" != "2" by {
      assert "1"[0] != "2"[0];
    }
    RunOne(norm, Fresh(EMPTY_STATE), e1);
    RunSplit(norm, Fresh(EMPTY_STATE), [e1], [e2]);
    RunOne(norm, m, e2);
    assert TwinLog(a, b, title) == [e1] + [e2];
  }

  /** Stored the other way round, the references stay the other way round. */
  lemma SwapReloads(norm: Normalizer, a: string, b: string, title: string)
    requires a != b
    ensures Stores(Pair(a, b, title), Pair(b, a, title))
    ensures FromDict(norm, PairState(b, a, title).(openTaskRefs := Pair(a, b, title))) == PairState(a, b, title)
  {
    hide FromDict, IdKey, KeysOf;
    IdKeysDiffer(a, b);
    var s, stored := PairState(b, a, title), Pair(a, b, title);
    assert multiset(stored) == multiset{(IdKey(a), title), (IdKey(b), title)} == multiset(s.openTaskRefs);
    assert s.openTasks == Values(s.openTaskRefs) == Values(stored);
    IdKeysFull(a, b);
    ReloadUnpermuted(norm, PairState(a, b, title));
    assert s.(openTaskRefs := stored) == PairState(a, b, title);
  }

  lemma IdKeysFull(a: string, b: string)
    ensures IdKey(a) != "" && IdKey(b) != ""
  {
  }

  /** A completion by title alone closes the first of two look-alikes, unless the title spells the second's id. */
  lemma TitleCloses(norm: Normalizer, s: ProjectState, eventId: string, first: string, x: string, second: string,
                    y: string, title: string)
    requires s.openTaskRefs == [(IdKey(first), x), (IdKey(second), y)] && first != second
    requires title != "" && norm(x) == norm(y) == norm(title)
    ensures Step(norm, s, TaskEvent(eventId, TaskCompleted, title)).openTaskRefs ==
            [if norm(title) == second then (IdKey(first), x) else (IdKey(second), y)]
  {
    hide IdKey, LegacyKey, AlternateRefKey, TaskRef;
    var refs, done, key := s.openTaskRefs, TaskEvent(eventId, TaskCompleted, title), LegacyKey(norm, title);
    TaskEventRef(norm, eventId, TaskCompleted, title);
    assert EffectOf(norm, done) == CompleteTask(key, title);
    TitleKeys(norm, title, first);
    TitleKeys(norm, title, second);
    IdKeysDiffer(first, second);
    assert refs[..0] + refs[1..] == [refs[1]] && refs[..1] + refs[2..] == [refs[0]];
  }

  lemma TitleKeys(norm: Normalizer, title: string, id: string)
    ensures
      var key := LegacyKey(norm, title);
      && key != IdKey(id)
      && AlternateRefKey(norm, key) == IdKey(norm(title))
      && (IdKey(norm(title)) == IdKey(id) <==> norm(title) == id)
  {
    var key := LegacyKey(norm, title);
    assert IdKey(id)[0] == 'i' && key[0] == 'l';
    assert !StartsWith(key, "id:") by {
      assert key[..3][0] != "id:"[0];
    }
    assert key[..7] == "legacy:" && key[7..] == norm(title);
    assert IdKey(norm(title))[3..] == norm(title) && IdKey(id)[3..] == id;
  }

  /** A snapshot of two like-named tasks whose stored keys come back the other way round: a completion by title
      alone then leaves open the task that a full replay closed, unless the title spells one of the two ids. */
  lemma SwappedTwinsCloseAlike(norm: Normalizer, a: string, b: string, title: string, git: Payload)
    requires a != b && a != "" && b != "" && title != ""
    ensures
      var log, done := TwinLog(a, b, title), TaskEvent("3", TaskCompleted, title);
      var snapshot := Built(norm, log, git);
      var stored := snapshot.(state := snapshot.state.(openTaskRefs := Pair(a, b, title)));
      var full, resumed := Replay(norm, log + [done]), Resumed(norm, stored, [done], git).state;
      && Stores(Pair(a, b, title), snapshot.state.openTaskRefs)
      && full.openTaskRefs == [(IdKey(if norm(title) == a then b else a), title)]
      && resumed.openTaskRefs == [(IdKey(if norm(title) == b then a else b), title)]
      && (resumed.openTaskRefs == full.openTaskRefs <==> norm(title) == a || norm(title) == b)
  {
    hide FromDict, Step, IdKey, Stores, TaskEvent, TwinLog;
    var log, done := TwinLog(a, b, title), TaskEvent("3", TaskCompleted, title);
    TwinsOpen(norm, a, b, title);
    SwapReloads(norm, a, b, title);
    TitleCloses(norm, PairState(a, b, title), "3", a, title, b, title, title);
    TitleCloses(norm, PairState(b, a, title), "3", b, title, a, title, title);
    IdKeysDiffer(a, b);
    DoneIsNew(norm, a, b, title);
    RunSplit(norm, Fresh(EMPTY_STATE), log, [done]);
    RunOne(norm, Run(norm, Fresh(EMPTY_STATE), log), done);
    RunOne(norm, Fresh(PairState(a, b, title)), done);
  }

  lemma DoneIsNew(norm: Normalizer, a: string, b: string, title: string)
    ensures TaskEvent("3", TaskCompleted, title).id !in Run(norm, Fresh(EMPTY_STATE), TwinLog(a, b, title)).applied
  {
    var log := TwinLog(a, b, title);
    assert "3" !in Ids(log) by {
      assert "1"[0] != "3"[0] && "2"[0] != "3"[0];
    }
    RunApplied(norm, Fresh(EMPTY_STATE), log);
  }
  // ---- Two look-alikes without any reordering in the store ----

  /** A page that completes `x` and starts it again, then starts a task whose label looks like it. */
  function LookalikePage(b: string, x: string, c: string, y: string): seq<Event> {
    [TaskEvent("1", TaskCompleted, x), StartOf("2", b, x), StartOf("3", c, y)]
  }

  lemma LookalikesOpen(norm: Normalizer, b: string, x: string, c: string, y: string)
    requires b != c && b != "" && c != "" && x != "" && y != ""
    ensures Replay(norm, LookalikePage(b, x, c, y)) ==
            EMPTY_STATE.(lastEventId := Some("3"), completedTasks := [x], openTasks := [x, y],
                         openTaskRefs := [(IdKey(b), x), (IdKey(c), y)])
  {
    hide Step, IdKey, StartOf, TaskEvent;
    var e1, e2, e3 := TaskEvent("1", TaskCompleted, x), StartOf("2", b, x), StartOf("3", c, y);
    assert "1"[0] != "2"[0] && "1"[0] != "3"[0] && "2"[0] != "3"[0];
    CompletionAlone(norm, "1", x);
    var m1 := ApplyEvent(norm, Fresh(EMPTY_STATE), e1);
    StartOpensId(norm, m1.state, "2", b, x);
    var m2 := ApplyEvent(norm, m1, e2);
    assert m2.state.openTaskRefs == [(IdKey(b), x)];
    IdKeysDiffer(b, c);
    StartOpensId(norm, m2.state, "3", c, y);
    assert m2.state.openTaskRefs + [(IdKey(c), y)] == [(IdKey(b), x), (IdKey(c), y)];
    assert Values([(IdKey(b), x), (IdKey(c), y)]) == [x, y];
    RunOne(norm, Fresh(EMPTY_STATE), e1);
    RunSplit(norm, Fresh(EMPTY_STATE), [e1], [e2]);
    RunOne(norm, m1, e2);
    RunSplit(norm, Fresh(EMPTY_STATE), [e1] + [e2], [e3]);
    RunOne(norm, m2, e3);
    assert LookalikePage(b, x, c, y) == [e1] + [e2] + [e3];
  }

  /** Only the second is listed, so it is linked first. */
  lemma LookalikesReload(norm: Normalizer, s: ProjectState, b: string, x: string, c: string, y: string)
    requires b != c && x != y
    requires s.openTaskRefs == [(IdKey(b), x), (IdKey(c), y)] && s.openTasks == [y]
    ensures FromDict(norm, s) == s.(openTaskRefs := [(IdKey(c), y), (IdKey(b), x)])
  {
    hide IdKey;
    var stored := s.openTaskRefs;
    IdKeysDiffer(b, c);
    IdKeysFull(b, c);
    assert FirstFree(stored, y, []) == Some(IdKey(c)) by {
      assert stored[1..][0] == stored[1];
    }
    assert [y][..0] == [] && Relink(norm, [], stored) == [];
    assert RelinkedKey(norm, stored, y, []) == IdKey(c);
    var linked := Relink(norm, [y], stored);
    assert linked == [(IdKey(c), y)];
    var one := stored[..1];
    assert one[..0] == [] && FillMissing(linked, one) == linked + [(IdKey(b), x)];
    assert FillMissing(linked, stored) == FillMissing(linked, one);
  }

  /** Once two open labels look alike the map itself can part: a page that drops one of them from the open list
      turns the two round, and the next completion by title closes the other one. */
  lemma LookalikesDiverge(norm: Normalizer, b: string, x: string, c: string, y: string, git: Payload)
    requires b != c && b != "" && c != "" && x != "" && y != ""
    requires x != y && norm(x) == norm(y) && norm(y) != b && norm(y) != c
    ensures
      var page, next := LookalikePage(b, x, c, y), [TaskEvent("4", TaskCompleted, y)];
      && Replay(norm, page + next).openTaskRefs == [(IdKey(c), y)]
      && Resumed(norm, Resumed(norm, Built(norm, [], git), page, git), next, git).state.openTaskRefs == [(IdKey(b), x)]
  {
    hide Step, IdKey, FromDict, TaskEvent, LookalikePage;
    var page, done := LookalikePage(b, x, c, y), TaskEvent("4", TaskCompleted, y);
    LookalikesOpen(norm, b, x, c, y);
    var full := Replay(norm, page);
    FourthIsNew(norm, b, x, c, y);
    RunSplit(norm, Fresh(EMPTY_STATE), page, [done]);
    RunOne(norm, Run(norm, Fresh(EMPTY_STATE), page), done);
    TitleCloses(norm, full, "4", b, x, c, y, y);
    assert [] + page == page;
    ResumeEqualsReplay(norm, [], page, git, git);
    var base := Resumed(norm, Built(norm, [], git), page, git);
    FirstDropped(x, y);
    LookalikesReload(norm, base.state, b, x, c, y);
    var start := FromDict(norm, base.state);
    RunOne(norm, Fresh(start), done);
    TitleCloses(norm, start, "4", c, y, b, x, y);
  }

  lemma FirstDropped(x: string, y: string)
    requires x != y
    ensures Without([x, y], [x]) == [y]
  {
    assert [x][..0] == [] && [x, y][..1] == [x];
    assert RemoveAll([x], x) == [];
  }

  lemma FourthIsNew(norm: Normalizer, b: string, x: string, c: string, y: string)
    ensures TaskEvent("4", TaskCompleted, y).id !in Run(norm, Fresh(EMPTY_STATE), LookalikePage(b, x, c, y)).applied
  {
    var log := LookalikePage(b, x, c, y);
    assert "4" !in Ids(log) by {
      assert "1"[0] != "4"[0] && "2"[0] != "4"[0] && "3"[0] != "4"[0];
    }
    RunApplied(norm, Fresh(EMPTY_STATE), log);
  }
}
