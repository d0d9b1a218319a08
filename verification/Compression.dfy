/** Compression preserves the replayed state; snapshots are built from the compressed stream. */
module Compression {
  import opened Wrappers
  import opened Json
  import opened OrderedDict
  import opened Events
  import opened Sequences
  import opened StateMachine
  import opened StateEngine
  import opened ReplayProofs
  import opened SnapshotReload
  import opened Resume
  import opened Deduplicator

  /** Replay when no id repeats: every event takes effect. */
  function Steps(norm: Normalizer, s: ProjectState, es: seq<Event>): ProjectState {
    if es == [] then s else Step(norm, Steps(norm, s, es[..|es| - 1]), es[|es| - 1])
  }

  lemma {:induction false} RunIsSteps(norm: Normalizer, s: ProjectState, es: seq<Event>)
    requires DistinctIds(es)
    ensures Run(norm, Fresh(s), es).state == Steps(norm, s, es)
  {
    if es != [] {
      var front, e := es[..|es| - 1], es[|es| - 1];
      RunIsSteps(norm, s, front);
      RunApplied(norm, Fresh(s), front);
      forall f | f in front ensures f.id != e.id {
        var i :| 0 <= i < |front| && front[i] == f;
        assert es[i].id != es[|es| - 1].id;
      }
    }
  }

  // ---- Move-to-end lists ----

  lemma {:induction false} RemoveFirstAppend(a: seq<string>, b: seq<string>, x: string)
    ensures RemoveFirst(a + b, x) == if x in a then RemoveFirst(a, x) + b else a + RemoveFirst(b, x)
  {
    if a == [] {
      assert a + b == b;
    } else {
      var head, rest := a[0], a[1..];
      assert a + b == [head] + (rest + b) && a == [head] + rest;
      if head != x {
        RemoveFirstAppend(rest, b, x);
        if x in rest {
          assert [head] + (RemoveFirst(rest, x) + b) == [head] + RemoveFirst(rest, x) + b;
        } else {
          assert [head] + (rest + RemoveFirst(b, x)) == a + RemoveFirst(b, x);
        }
      }
    }
  }

  lemma RemoveFirstSwap(s: seq<string>, x: string, y: string)
    ensures RemoveFirst(RemoveFirst(s, x), y) == RemoveFirst(RemoveFirst(s, y), x)
  {
    if s != [] {
      RemoveFirstSwap(s[1..], x, y);
      if s[0] != x && s[0] != y {
        assert RemoveFirst(s, x) == [s[0]] + RemoveFirst(s[1..], x);
        assert RemoveFirst(s, y) == [s[0]] + RemoveFirst(s[1..], y);
      } else if s[0] != x {
        assert RemoveFirst(s, x) == [s[0]] + RemoveFirst(s[1..], x);
      } else if s[0] != y {
        assert RemoveFirst(s, y) == [s[0]] + RemoveFirst(s[1..], y);
      }
    }
  }

  lemma RemoveFirstMember(s: seq<string>, x: string, y: string)
    requires NoDuplicates(s)
    ensures y in RemoveFirst(s, x) <==> y in s && y != x
  {
    if s != [] {
      assert s == [s[0]] + s[1..];
      if s[0] != x {
        RemoveFirstMember(s[1..], x, y);
      }
    }
  }

  lemma RemoveFirstDistinct(s: seq<string>, x: string)
    requires NoDuplicates(s)
    ensures NoDuplicates(RemoveFirst(s, x))
  {
    if s != [] && s[0] != x {
      RemoveFirstDistinct(s[1..], x);
      assert s == [s[0]] + s[1..];
      RemoveFirstMember(s[1..], x, s[0]);
    }
  }

  lemma RemoveFirstAbsent(s: seq<string>, x: string)
    requires x !in s
    ensures RemoveFirst(s, x) == s
  {
    if s != [] {
      assert s == [s[0]] + s[1..];
      RemoveFirstAbsent(s[1..], x);
    }
  }

  lemma MarkDistinct(files: seq<string>, path: string)
    requires NoDuplicates(files)
    ensures NoDuplicates(RemoveFirst(files, path) + [path])
  {
    RemoveFirstDistinct(files, path);
    RemoveFirstMember(files, path, path);
  }

  lemma {:induction false} StepsFilesDistinct(norm: Normalizer, es: seq<Event>)
    ensures NoDuplicates(Steps(norm, EMPTY_STATE, es).workingFiles)
  {
    if es != [] {
      var front, e := es[..|es| - 1], es[|es| - 1];
      StepsFilesDistinct(norm, front);
      var s := Steps(norm, EMPTY_STATE, front);
      var x := EffectOf(norm, e);
      if x.Touch? {
        MarkDistinct(s.workingFiles, x.path);
      } else {
        EnactLeavesFiles(norm, s.(lastEventId := Some(e.id)), x);
      }
    }
  }

  lemma EnactLeavesFiles(norm: Normalizer, s: ProjectState, x: Effect)
    requires !x.Touch?
    ensures Enact(norm, s, x).workingFiles == s.workingFiles
    ensures Enact(norm, s, x).lastWorkingFile == s.lastWorkingFile
  {
  }

  /** Equal up to the file list and the two "last" fields. */
  ghost predicate SameButFiles(s: ProjectState, t: ProjectState) {
    t == s.(workingFiles := t.workingFiles, lastEventId := t.lastEventId, lastWorkingFile := t.lastWorkingFile)
  }

  lemma EnactSameButFiles(norm: Normalizer, s: ProjectState, t: ProjectState, x: Effect)
    requires SameButFiles(s, t)
    ensures SameButFiles(Enact(norm, s, x), Enact(norm, t, x))
  {
  }

  lemma StepSameButFiles(norm: Normalizer, s: ProjectState, t: ProjectState, e: Event)
    requires SameButFiles(s, t)
    ensures SameButFiles(Step(norm, s, e), Step(norm, t, e))
  {
    EnactSameButFiles(norm, s.(lastEventId := Some(e.id)), t.(lastEventId := Some(e.id)), EffectOf(norm, e));
  }

  lemma TouchEffect(norm: Normalizer, e: Event)
    ensures EffectOf(norm, e).Touch? <==> Churn(e) && FilePathOf(e).Some?
    ensures EffectOf(norm, e).Touch? ==> EffectOf(norm, e).path == FilePathOf(e).value
    ensures Churn(e) && FilePathOf(e).None? ==> EffectOf(norm, e).Nothing?
  {
  }

  /** Forgetting every modification of one path only takes that path off the file list. */
  lemma {:induction false} StepsWithoutPath(norm: Normalizer, es: seq<Event>, path: string)
    ensures
      var s, t := Steps(norm, EMPTY_STATE, es), Steps(norm, EMPTY_STATE, DropPath(es, path));
      SameButFiles(s, t) && t.workingFiles == RemoveFirst(s.workingFiles, path)
  {
    if es != [] {
      var front, e := es[..|es| - 1], es[|es| - 1];
      StepsWithoutPath(norm, front, path);
      StepsFilesDistinct(norm, front);
      var s, t := Steps(norm, EMPTY_STATE, front), Steps(norm, EMPTY_STATE, DropPath(front, path));
      TouchEffect(norm, e);
      if Modifies(e, path) {
        assert DropPath(es, path) == DropPath(front, path);
        RemoveFirstMember(s.workingFiles, path, path);
        RemoveFirstAppend(RemoveFirst(s.workingFiles, path), [path], path);
        assert RemoveFirst([path], path) == [];
      } else {
        assert DropPath(es, path) == DropPath(front, path) + [e];
        assert (DropPath(front, path) + [e])[..|DropPath(front, path)|] == DropPath(front, path);
        StepSameButFiles(norm, s, t, e);
        var x := EffectOf(norm, e);
        if x.Touch? {
          TouchElsewhere(s.workingFiles, path, x.path);
        } else {
          EnactLeavesFiles(norm, s.(lastEventId := Some(e.id)), x);
          EnactLeavesFiles(norm, t.(lastEventId := Some(e.id)), x);
        }
      }
    }
  }

  lemma TouchElsewhere(files: seq<string>, path: string, other: string)
    requires path != other && NoDuplicates(files)
    ensures RemoveFirst(RemoveFirst(files, path), other) + [other] ==
            RemoveFirst(RemoveFirst(files, other) + [other], path)
  {
    RemoveFirstSwap(files, path, other);
    RemoveFirstAppend(RemoveFirst(files, other), [other], path);
    RemoveFirstDistinct(files, other);
    RemoveFirstAbsent([other], path);
    if path !in RemoveFirst(files, other) {
      RemoveFirstAbsent(RemoveFirst(files, other), path);
    }
  }

  lemma PathlessStep(norm: Normalizer, s: ProjectState, e: Event)
    requires Churn(e) && FilePathOf(e).None?
    ensures Step(norm, s, e) == s.(lastEventId := Some(e.id))
  {
    TouchEffect(norm, e);
  }

  /** A modification supersedes the earlier ones of its path. */
  lemma TouchAfterDrop(norm: Normalizer, kept: seq<Event>, e: Event)
    requires Churn(e) && FilePathOf(e).Some?
    ensures
      var dropped := DropPath(kept, FilePathOf(e).value);
      Step(norm, Steps(norm, EMPTY_STATE, dropped), e) == Step(norm, Steps(norm, EMPTY_STATE, kept), e)
  {
    hide EffectOf, Steps, DropPath, RemoveFirst, FilePathOf;
    var path := FilePathOf(e).value;
    var t, u := Steps(norm, EMPTY_STATE, kept), Steps(norm, EMPTY_STATE, DropPath(kept, path));
    TouchEffect(norm, e);
    StepsWithoutPath(norm, kept, path);
    StepsFilesDistinct(norm, kept);
    RemoveFirstMember(t.workingFiles, path, path);
    RemoveFirstAbsent(u.workingFiles, path);
  }

  /** Replaying the reference form of compression changes nothing but possibly the last event id. */
  lemma {:induction false} StepsOfLastOnly(norm: Normalizer, es: seq<Event>)
    ensures
      var s, t := Steps(norm, EMPTY_STATE, es), Steps(norm, EMPTY_STATE, LastOnly(es));
      t == s.(lastEventId := t.lastEventId)
  {
    hide Step, DropPath, FilePathOf;
    if es != [] {
      var front, e := es[..|es| - 1], es[|es| - 1];
      var kept := LastOnly(front);
      StepsOfLastOnly(norm, front);
      var s, t := Steps(norm, EMPTY_STATE, front), Steps(norm, EMPTY_STATE, kept);
      if !Churn(e) {
        assert (kept + [e])[..|kept|] == kept;
        StepForgetsLastEvent(norm, s, t.lastEventId, e);
      } else if FilePathOf(e).None? {
        PathlessStep(norm, s, e);
      } else {
        var dropped := DropPath(kept, FilePathOf(e).value);
        assert (dropped + [e])[..|dropped|] == dropped;
        TouchAfterDrop(norm, kept, e);
        StepForgetsLastEvent(norm, s, t.lastEventId, e);
      }
    }
  }

  /** The last event is a file modification that names no file. */
  predicate EndsPathless(es: seq<Event>) {
    es != [] && Churn(es[|es| - 1]) && FilePathOf(es[|es| - 1]).None?
  }

  lemma CollapsedReplay(norm: Normalizer, es: seq<Event>)
    requires DistinctIds(es)
    ensures
      var s, t := Replay(norm, es), Replay(norm, Collapsed(es));
      t == s.(lastEventId := t.lastEventId)
  {
    CollapseIsLastOnly(es);
    FilterDistinct(Retained(LastFileEvent(es).Values), es);
    RunIsSteps(norm, EMPTY_STATE, es);
    RunIsSteps(norm, EMPTY_STATE, LastOnly(es));
    StepsOfLastOnly(norm, es);
  }

  lemma {:induction false} StepsLastEvent(norm: Normalizer, es: seq<Event>)
    ensures Steps(norm, EMPTY_STATE, es).lastEventId == if es == [] then None else Some(es[|es| - 1].id)
  {
    if es != [] {
      StepNamesEvent(norm, Steps(norm, EMPTY_STATE, es[..|es| - 1]), es[|es| - 1]);
    }
  }

  /** Compression preserves the state exactly when the log does not end in a path-less modification. */
  lemma CompressionExact(norm: Normalizer, es: seq<Event>)
    requires DistinctIds(es)
    ensures Replay(norm, Collapsed(es)) == Replay(norm, es) <==> !EndsPathless(es)
  {
    CollapsedReplay(norm, es);
    CollapseIsLastOnly(es);
    FilterDistinct(Retained(LastFileEvent(es).Values), es);
    var kept := LastOnly(es);
    RunIsSteps(norm, EMPTY_STATE, es);
    RunIsSteps(norm, EMPTY_STATE, kept);
    StepsLastEvent(norm, es);
    StepsLastEvent(norm, kept);
    if es != [] {
      var front, e := es[..|es| - 1], es[|es| - 1];
      if EndsPathless(es) {
        assert kept == LastOnly(front);
        if kept != [] {
          var last := kept[|kept| - 1];
          LastOnlySubset(front, last);
          var i :| 0 <= i < |front| && front[i] == last;
          assert es[i].id != es[|es| - 1].id;
        }
      } else {
        assert kept[|kept| - 1] == e;
      }
    }
  }

  // ---- Snapshots of compressed logs ----

  /** The newest non-empty Git fingerprint a session event recorded. */
  function LatestGit(es: seq<Event>): Payload {
    if es == [] then map[]
    else
      var e := es[|es| - 1];
      var git := Get(e.payload, "git");
      if (e.kind == SessionStarted || e.kind == SessionSummary) && git.Obj? && git.fields != map[] then git.fields
      else LatestGit(es[..|es| - 1])
  }

  function CoreSnapshot(norm: Normalizer, raw: seq<Event>): StateDict {
    Built(norm, Collapsed(raw), LatestGit(raw)).(eventCount := |raw|)
  }

  method LatestGitFingerprint(es: seq<Event>) returns (git: Payload)
    ensures git == LatestGit(es)
  {
    assert es[..|es|] == es;
    for i := |es| downto 0
      invariant LatestGit(es) == LatestGit(es[..i])
    {
      assert es[..i + 1][..i] == es[..i];
      var found := Get(es[i].payload, "git");
      if (es[i].kind == SessionStarted || es[i].kind == SessionSummary) && found.Obj? && found.fields != map[] {
        return found.fields;
      }
    }
    return map[];
  }

  method BuildCoreSnapshot(norm: Normalizer, raw: seq<Event>) returns (d: StateDict)
    ensures d == CoreSnapshot(norm, raw)
  {
    var compressed := CollapseFileChurn(raw);
    var git := LatestGitFingerprint(raw);
    d := BuildState(norm, compressed, git);
    d := d.(eventCount := |raw|);
  }

  lemma SplitIds(a: seq<Event>, b: seq<Event>)
    requires DistinctIds(a + b)
    ensures DistinctIds(a) && Ids(a) !! Ids(b)
  {
    assert forall i :: 0 <= i < |a| ==> a[i] == (a + b)[i];
    forall e, f | e in a && f in b ensures e.id != f.id {
      var i :| 0 <= i < |a| && a[i] == e;
      var j :| 0 <= j < |b| && b[j] == f;
      assert (a + b)[i].id != (a + b)[|a| + j].id;
    }
  }

  /** End to end: snapshot a compressed log, store it with permuted keys, reload it, apply a delta.
      The result is the full replay of the uncompressed log up to the merger's open-task filter,
      even when the snapshotted part ended in a path-less modification. */
  lemma SnapshotThenDelta(norm: Normalizer, a: seq<Event>, b: seq<Event>, stored: Dict<string, string>, git: Payload)
    requires DistinctIds(a + b) && b != []
    requires Stores(stored, Replay(norm, a).openTaskRefs)
    requires KeepsLabelOrder(stored, Replay(norm, a).openTaskRefs)
    ensures
      var snapshot := CoreSnapshot(norm, a);
      Resumed(norm, snapshot.(state := snapshot.state.(openTaskRefs := stored)), b, git) == Expected(norm, a, b, git)
  {
    SplitIds(a, b);
    CollapsedReplay(norm, a);
    var snapshot := CoreSnapshot(norm, a);
    RunWellFormed(norm, Fresh(EMPTY_STATE), Collapsed(a));
    assert snapshot.state.openTaskRefs == Replay(norm, a).openTaskRefs;
    ReloadExact(norm, snapshot.state, stored);
    ResumeFromBase(norm, snapshot.(state := snapshot.state.(openTaskRefs := stored)), a, b, git);
  }
}
