/** What every replay keeps, and how a replay splits at a snapshot. */
module ReplayProofs {
  import opened Wrappers
  import opened Json
  import opened OrderedDict
  import opened Events
  import opened StateMachine
  import opened StateEngine

  /** References have distinct non-empty keys and are what the open-task list shows; labels complete once. */
  ghost predicate WellFormed(s: ProjectState) {
    && DistinctKeys(s.openTaskRefs)
    && (forall i :: 0 <= i < |s.openTaskRefs| ==> s.openTaskRefs[i].0 != "")
    && s.openTasks == Values(s.openTaskRefs)
    && NoDuplicates(s.completedTasks)
  }

  lemma OpenWellFormed(s: ProjectState, key: string, task: string)
    requires WellFormed(s) && key != ""
    ensures WellFormed(Open(s, key, task))
  {
  }

  lemma CloseWellFormed(s: ProjectState, key: string)
    requires WellFormed(s)
    ensures WellFormed(Close(s, key))
  {
  }

  lemma EnactWellFormed(norm: Normalizer, s: ProjectState, x: Effect)
    requires WellFormed(s)
    requires x.OpenTask? ==> x.key != ""
    ensures WellFormed(Enact(norm, s, x))
  {
    match x {
      case OpenTask(key, task) => OpenWellFormed(s, key, task);
      case CompleteTask(key, task) => CloseWellFormed(s, ClosedKey(norm, s.openTaskRefs, key, task));
      case DropTask(key) => CloseWellFormed(s, key);
      case _ =>
    }
  }

  lemma StepWellFormed(norm: Normalizer, s: ProjectState, e: Event)
    requires WellFormed(s)
    ensures WellFormed(Step(norm, s, e))
  {
    EnactWellFormed(norm, s.(lastEventId := Some(e.id)), EffectOf(norm, e));
  }

  /** Every state a replay reaches from a well-formed one is well formed. */
  lemma {:induction false} RunWellFormed(norm: Normalizer, m: Machine, es: seq<Event>)
    requires WellFormed(m.state)
    ensures WellFormed(Run(norm, m, es).state)
  {
    if es != [] {
      RunWellFormed(norm, m, es[..|es| - 1]);
      StepWellFormed(norm, Run(norm, m, es[..|es| - 1]).state, es[|es| - 1]);
    }
  }

  lemma {:induction false} RunApplied(norm: Normalizer, m: Machine, es: seq<Event>)
    ensures Run(norm, m, es).applied == m.applied + Ids(es)
  {
    if es != [] {
      var front := es[..|es| - 1];
      RunApplied(norm, m, front);
      IdsSplit(front, [es[|es| - 1]]);
      assert es == front + [es[|es| - 1]];
      assert Ids([es[|es| - 1]]) == {es[|es| - 1].id} by {
        assert es[|es| - 1] in [es[|es| - 1]];
      }
    }
  }

  lemma RunOne(norm: Normalizer, m: Machine, e: Event)
    ensures Run(norm, m, [e]) == ApplyEvent(norm, m, e)
  {
    assert [e][..0] == [];
  }

  lemma {:induction false} RunSplit(norm: Normalizer, m: Machine, a: seq<Event>, b: seq<Event>)
    ensures Run(norm, m, a + b) == Run(norm, Run(norm, m, a), b)
  {
    if b == [] {
      assert a + b == a;
    } else {
      assert (a + b)[..|a + b| - 1] == a + b[..|b| - 1];
      RunSplit(norm, m, a, b[..|b| - 1]);
    }
  }

  /** Tool usage only ever names applied events. */
  lemma {:induction false} RunUsage(norm: Normalizer, es: seq<Event>)
    ensures forall u :: u in Replay(norm, es).toolUsage ==> u.eventId in Ids(es)
  {
    if es != [] {
      var front, e := es[..|es| - 1], es[|es| - 1];
      RunUsage(norm, front);
      assert es == front + [e];
      IdsSplit(front, [e]);
      assert e in [e];
    }
  }

  /** How a replay from a base relates to a replay of the same events from nothing. */
  ghost predicate Extends(base: ProjectState, final: ProjectState, delta: ProjectState) {
    && final.failures == base.failures + delta.failures
    && final.blocked == base.blocked + delta.blocked
    && final.toolUsage == base.toolUsage + delta.toolUsage
    && final.completedTasks == Dedupe(base.completedTasks + delta.completedTasks)
    && (base.goal.Some? ==> final.goal.Some?)
    && (base.lastWorkingFile.Some? ==> final.lastWorkingFile.Some?)
  }

  lemma DedupeMember(s: seq<string>, x: string)
    ensures x in Dedupe(s) <==> x in s
  {
    if s != [] {
      assert s == s[..|s| - 1] + [s[|s| - 1]];
      DedupeMember(s[..|s| - 1], x);
    }
  }

  lemma DedupeSnoc(s: seq<string>, x: string)
    ensures Dedupe(s + [x]) == AddUnique(Dedupe(s), x)
  {
    assert (s + [x])[..|s|] == s;
  }

  /** A list without duplicates is its own deduplication. */
  lemma {:induction false} DedupeDistinct(s: seq<string>)
    requires NoDuplicates(s)
    ensures Dedupe(s) == s
  {
    if s != [] {
      var front := s[..|s| - 1];
      DedupeDistinct(front);
      DedupeMember(front, s[|s| - 1]);
      assert s == front + [s[|s| - 1]];
    }
  }

  lemma CompletedExtends(base: seq<string>, delta: seq<string>, task: string)
    ensures AddUnique(Dedupe(base + delta), task) == Dedupe(base + AddUnique(delta, task))
  {
    if task in delta {
      DedupeMember(base + delta, task);
    } else {
      DedupeSnoc(base + delta, task);
      assert base + (delta + [task]) == base + delta + [task];
    }
  }

  lemma UsageSplit(base: seq<ToolUsage>, delta: seq<ToolUsage>, id: string)
    requires !UsageRecorded(base, id)
    ensures UsageRecorded(base + delta, id) == UsageRecorded(delta, id)
  {
    if UsageRecorded(delta, id) {
      var i :| 0 <= i < |delta| && delta[i].eventId == id;
      assert (base + delta)[|base| + i].eventId == id;
    }
  }

  lemma EnactExtends(norm: Normalizer, base: ProjectState, f: ProjectState, d: ProjectState, x: Effect)
    requires Extends(base, f, d)
    requires x.NoteUsage? ==> !UsageRecorded(base.toolUsage, x.usage.eventId)
    ensures Extends(base, Enact(norm, f, x), Enact(norm, d, x))
  {
    match x {
      case NoteUsage(usage) => UsageSplit(base.toolUsage, d.toolUsage, usage.eventId);
      case CompleteTask(_, task) => CompletedExtends(base.completedTasks, d.completedTasks, task);
      case _ =>
    }
  }

  lemma StepExtends(norm: Normalizer, base: ProjectState, f: ProjectState, d: ProjectState, e: Event)
    requires Extends(base, f, d)
    requires !UsageRecorded(base.toolUsage, e.id)
    ensures Extends(base, Step(norm, f, e), Step(norm, d, e))
  {
    EnactExtends(norm, base, f.(lastEventId := Some(e.id)), d.(lastEventId := Some(e.id)), EffectOf(norm, e));
  }

  lemma StepNamesEvent(norm: Normalizer, s: ProjectState, e: Event)
    ensures Step(norm, s, e).lastEventId == Some(e.id)
  {
    var x := EffectOf(norm, e);
    assert Enact(norm, s.(lastEventId := Some(e.id)), x).lastEventId == Some(e.id);
  }

  lemma {:induction false} RunNamesEvent(norm: Normalizer, m: Machine, es: seq<Event>)
    requires m.applied !! Ids(es)
    ensures es != [] ==> Run(norm, m, es).state.lastEventId.Some?
  {
    if es != [] {
      var front, e := es[..|es| - 1], es[|es| - 1];
      assert es == front + [e];
      IdsSplit(front, [e]);
      assert e in es && e.id in Ids(es);
      RunNamesEvent(norm, m, front);
      RunApplied(norm, m, front);
      StepNamesEvent(norm, Run(norm, m, front).state, e);
      if front == [] {
        assert e.id !in m.applied;
      }
    }
  }

  /** Replaying a delta on a base extends each append-only field by what the delta alone produces. */
  lemma {:induction false} RunExtends(norm: Normalizer, base: Machine, es: seq<Event>)
    requires NoDuplicates(base.state.completedTasks)
    requires base.applied !! Ids(es)
    requires forall u :: u in base.state.toolUsage ==> u.eventId !in Ids(es)
    ensures Extends(base.state, Run(norm, base, es).state, Replay(norm, es))
  {
    if es == [] {
      DedupeDistinct(base.state.completedTasks);
      assert base.state.completedTasks + [] == base.state.completedTasks;
    } else {
      var front, e := es[..|es| - 1], es[|es| - 1];
      assert es == front + [e];
      IdsSplit(front, [e]);
      assert e in es && e.id in Ids(es);
      RunExtends(norm, base, front);
      RunApplied(norm, base, front);
      RunApplied(norm, Fresh(EMPTY_STATE), front);
      StepExtends(norm, base.state, Run(norm, base, front).state, Replay(norm, front), e);
    }
  }

  /** The applied-id set only matters through the ids still to come. */
  lemma {:induction false} RunForgets(norm: Normalizer, m: Machine, es: seq<Event>)
    requires m.applied !! Ids(es)
    ensures Run(norm, m, es).state == Run(norm, Fresh(m.state), es).state
  {
    if es != [] {
      var front, e := es[..|es| - 1], es[|es| - 1];
      assert es == front + [e];
      IdsSplit(front, [e]);
      assert e in es && e.id in Ids(es);
      RunForgets(norm, m, front);
      RunApplied(norm, m, front);
      RunApplied(norm, Fresh(m.state), front);
    }
  }
}
