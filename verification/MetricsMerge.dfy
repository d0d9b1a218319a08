/** Adding up two metric reductions (`merge_agent_metrics` in `server/tools/_tasks.py`). */
module MetricsMerge {
  import opened Wrappers
  import opened Events
  import opened Sequences
  import opened AgentMetrics

  // A merged record that only the delta knows lacks the trail fields.
  datatype Merged = Merged(counts: Counts, derived: Derived, trail: Option<Trail>)

  function AddCounts(a: Counts, b: Counts): Counts {
    Counts(a.success + b.success, a.failure + b.failure, a.blocked + b.blocked, a.assignments + b.assignments)
  }

  function Whole(m: Metrics): Merged {
    Merged(m.counts, m.derived, Some(m.trail))
  }

  function MergeOne(conf: Confidence, base: Table, delta: Metrics, agent: string): Merged {
    var counts := if agent in base then AddCounts(base[agent].counts, delta.counts) else delta.counts;
    Merged(counts, Derive(conf, counts), if agent in base then Some(base[agent].trail) else None)
  }

  /** `merge_agent_metrics`. */
  function MergedMetrics(conf: Confidence, base: Table, delta: Table): map<string, Merged> {
    if base == map[] then map agent | agent in delta :: Whole(delta[agent])
    else
      map agent | agent in base.Keys + delta.Keys ::
        if agent in delta then MergeOne(conf, base, delta[agent], agent) else Whole(base[agent])
  }

  method MergeAgentMetrics(conf: Confidence, base: Table, delta: Table) returns (merged: map<string, Merged>)
    ensures merged == MergedMetrics(conf, base, delta)
  {
    hide Derive;
    if base == map[] {
      return map agent | agent in delta :: Whole(delta[agent]);
    }
    merged := map agent | agent in base :: Whole(base[agent]);
    var left := delta.Keys;
    while left != {}
      invariant left <= delta.Keys && merged.Keys == base.Keys + (delta.Keys - left)
      invariant forall agent :: agent in merged ==> merged[agent] == MergedSoFar(conf, base, delta, left, agent)
    {
      var agent :| agent in left;
      var m := if agent in merged then merged[agent] else Merged(NO_COUNTS, EMPTY.derived, None);
      var d := delta[agent].counts;
      var counts := Counts(m.counts.success + d.success, m.counts.failure + d.failure,
                           m.counts.blocked + d.blocked, m.counts.assignments + d.assignments);
      assert Merged(counts, Derive(conf, counts), m.trail) == MergeOne(conf, base, delta[agent], agent);
      merged := merged[agent := Merged(counts, Derive(conf, counts), m.trail)];
      left := left - {agent};
    }
  }

  function MergedSoFar(conf: Confidence, base: Table, delta: Table, left: set<string>, agent: string): Merged
    requires agent in base || agent in delta - left
  {
    if agent in delta && agent !in left then MergeOne(conf, base, delta[agent], agent) else Whole(base[agent])
  }

  // The four counters one by one.
  datatype Counter = Succeeded | FailedCount | BlockedCount | AssignedCount

  function Part(c: Counts, which: Counter): nat {
    match which
    case Succeeded => c.success
    case FailedCount => c.failure
    case BlockedCount => c.blocked
    case AssignedCount => c.assignments
  }

  function PartOf(t: Table, agent: string, which: Counter): nat {
    if agent in t then Part(t[agent].counts, which) else 0
  }

  predicate Adds(kind: EventType, which: Counter) {
    match which
    case Succeeded => kind.TaskCompleted?
    case FailedCount => kind.TaskFailed?
    case BlockedCount => kind.TaskBlocked?
    case AssignedCount => kind.TaskAssigned?
  }

  lemma CountedPart(c: Counts, kind: EventType, which: Counter)
    ensures Part(Counted(c, kind), which) == Part(c, which) + (if Adds(kind, which) then 1 else 0)
  {
  }

  lemma StepParts(t: Table, e: Event, agent: string, which: Counter)
    ensures agent in ApplyEvent(t, e) <==> agent in t || AgentOf(e) == Some(agent)
    ensures PartOf(ApplyEvent(t, e), agent, which) ==
            PartOf(t, agent, which) + (if AgentOf(e) == Some(agent) && Adds(e.kind, which) then 1 else 0)
  {
    hide AgentOf, Followed, Counted, Adds;
    CountedPart(if agent in t then t[agent].counts else NO_COUNTS, e.kind, which);
  }

  lemma {:induction false} FoldAdds(t: Table, es: seq<Event>, agent: string, which: Counter)
    ensures agent in Fold(t, es) <==> agent in t || agent in Fold(map[], es)
    ensures PartOf(Fold(t, es), agent, which) == PartOf(t, agent, which) + PartOf(Fold(map[], es), agent, which)
  {
    if es != [] {
      hide AgentOf, ApplyEvent, PartOf, Adds;
      var front, e := es[..|es| - 1], es[|es| - 1];
      FoldAdds(t, front, agent, which);
      StepParts(Fold(t, front), e, agent, which);
      StepParts(Fold(map[], front), e, agent, which);
    }
  }

  lemma SameParts(a: Counts, b: Counts)
    requires forall which :: Part(a, which) == Part(b, which)
    ensures a == b
  {
    assert Part(a, Succeeded) == Part(b, Succeeded) && Part(a, FailedCount) == Part(b, FailedCount);
    assert Part(a, BlockedCount) == Part(b, BlockedCount) && Part(a, AssignedCount) == Part(b, AssignedCount);
  }

  lemma FoldStartsClean(conf: Confidence, es: seq<Event>)
    ensures Reduced(conf, es).Keys == Fold(map[], es).Keys
    ensures forall agent :: agent in Reduced(conf, es) ==>
      Reduced(conf, es)[agent] == Fold(map[], es)[agent].(derived := Derive(conf, Fold(map[], es)[agent].counts))
  {
  }

  /** Merging the reductions of two halves names the same agents as reducing the whole, with the same
      four counters, total, rates and confidence. */
  lemma MergeAgreesOnCounts(conf: Confidence, a: seq<Event>, b: seq<Event>, agent: string)
    ensures
      var merged, whole := MergedMetrics(conf, Reduced(conf, a), Reduced(conf, b)), Reduced(conf, a + b);
      && (agent in merged <==> agent in whole)
      && (agent in whole ==>
          merged[agent].counts == whole[agent].counts && merged[agent].derived == whole[agent].derived)
  {
    hide Fold, Derive, Part;
    var merged, whole := MergedMetrics(conf, Reduced(conf, a), Reduced(conf, b)), Reduced(conf, a + b);
    FoldSplit(map[], a, b);
    FoldStartsClean(conf, a);
    FoldStartsClean(conf, b);
    FoldStartsClean(conf, a + b);
    FoldAdds(Fold(map[], a), b, agent, Succeeded);
    if agent in whole {
      forall which ensures Part(merged[agent].counts, which) == Part(whole[agent].counts, which) {
        FoldAdds(Fold(map[], a), b, agent, which);
        AddedParts(Fold(map[], a), Fold(map[], b), agent, which);
      }
      SameParts(merged[agent].counts, whole[agent].counts);
    }
  }

  lemma AddedParts(a: Table, b: Table, agent: string, which: Counter)
    ensures agent in a && agent in b ==>
      Part(AddCounts(a[agent].counts, b[agent].counts), which) == PartOf(a, agent, which) + PartOf(b, agent, which)
  {
  }

  // ---- When the merge is the whole reduction ----

  /** An agent's remaining fields after its share of further events. */
  function TrailAfter(t: Trail, es: seq<Event>, agent: string): Trail {
    if es == [] then t
    else
      var before, e := TrailAfter(t, es[..|es| - 1], agent), es[|es| - 1];
      if AgentOf(e) == Some(agent) then Followed(before, e) else before
  }

  lemma StepTrail(t: Table, e: Event, agent: string)
    ensures agent in t ==>
      agent in ApplyEvent(t, e)
      && ApplyEvent(t, e)[agent].trail ==
         if AgentOf(e) == Some(agent) then Followed(t[agent].trail, e) else t[agent].trail
  {
    hide AgentOf, Followed, Counted;
  }

  lemma {:induction false} FoldTrail(t: Table, es: seq<Event>, agent: string)
    requires agent in t
    ensures agent in Fold(t, es) && Fold(t, es)[agent].trail == TrailAfter(t[agent].trail, es, agent)
  {
    if es != [] {
      hide AgentOf, ApplyEvent, Followed;
      FoldTrail(t, es[..|es| - 1], agent);
      StepTrail(Fold(t, es[..|es| - 1]), es[|es| - 1], agent);
    }
  }

  /** The first half names no agent, or it names this one and the agent's later events leave its other fields
      as they are. */
  predicate MergesWhole(conf: Confidence, a: seq<Event>, b: seq<Event>, agent: string) {
    var base := Reduced(conf, a);
    base == map[] || (agent in base && TrailAfter(base[agent].trail, b, agent) == base[agent].trail)
  }

  lemma EmptyBaseMerges(conf: Confidence, a: seq<Event>, b: seq<Event>)
    requires Reduced(conf, a) == map[]
    ensures Reduced(conf, a + b) == Reduced(conf, b)
  {
    FoldSplit(map[], a, b);
    FoldStartsClean(conf, a);
    assert Fold(map[], a).Keys == {};
    assert Fold(map[], a) == map[];
  }

  /** For an agent of the whole log the merged record is its whole reduction, all fields alike, if and only if
      the first half names no agent at all, or names this one and nothing after it touches the fields that do
      not add up. */
  lemma MergeExact(conf: Confidence, a: seq<Event>, b: seq<Event>, agent: string)
    requires agent in Reduced(conf, a + b)
    ensures agent in MergedMetrics(conf, Reduced(conf, a), Reduced(conf, b))
    ensures MergedMetrics(conf, Reduced(conf, a), Reduced(conf, b))[agent] == Whole(Reduced(conf, a + b)[agent])
            <==> MergesWhole(conf, a, b, agent)
  {
    hide Fold, Derive, TrailAfter;
    var base, whole := Reduced(conf, a), Reduced(conf, a + b);
    MergeAgreesOnCounts(conf, a, b, agent);
    if base == map[] {
      EmptyBaseMerges(conf, a, b);
    } else if agent in base {
      FoldSplit(map[], a, b);
      FoldStartsClean(conf, a);
      FoldStartsClean(conf, a + b);
      FoldTrail(Fold(map[], a), b, agent);
      NoTrailWithout(conf, base[agent].trail, b, agent);
    }
  }

  lemma NoTrailWithout(conf: Confidence, t: Trail, b: seq<Event>, agent: string)
    ensures agent !in Reduced(conf, b) ==> TrailAfter(t, b, agent) == t
  {
    if agent !in Reduced(conf, b) {
      FoldStartsClean(conf, b);
      UnnamedKeepsTrail(t, b, agent);
    }
  }

  lemma {:induction false} UnnamedKeepsTrail(t: Trail, es: seq<Event>, agent: string)
    requires agent !in Fold(map[], es)
    ensures TrailAfter(t, es, agent) == t
  {
    if es != [] {
      hide AgentOf, Followed, ApplyEvent;
      StepParts(Fold(map[], es[..|es| - 1]), es[|es| - 1], agent, Succeeded);
      UnnamedKeepsTrail(t, es[..|es| - 1], agent);
    }
  }

  // ---- What the counters count ----

  function CountsToward(agent: string, which: Counter): Event -> bool {
    (e: Event) => AgentOf(e) == Some(agent) && Adds(e.kind, which)
  }

  function AttributedTo(agent: string): Event -> bool {
    (e: Event) => AgentOf(e) == Some(agent)
  }

  /** Each counter of an agent is the number of its events of that kind, and an agent is listed exactly when
      some event is attributed to it. */
  lemma {:induction false} CountersCountEvents(es: seq<Event>, agent: string, which: Counter)
    ensures PartOf(Fold(map[], es), agent, which) == |Filter(CountsToward(agent, which), es)|
    ensures agent in Fold(map[], es) <==> Filter(AttributedTo(agent), es) != []
  {
    if es != [] {
      hide AgentOf, ApplyEvent, PartOf, Adds;
      CountersCountEvents(es[..|es| - 1], agent, which);
      StepParts(Fold(map[], es[..|es| - 1]), es[|es| - 1], agent, which);
    }
  }

  /** Index just past an agent's last completion, or the start. */
  function SinceCompletion(es: seq<Event>, agent: string): (n: nat)
    ensures n <= |es|
  {
    if es == [] then 0
    else if CountsToward(agent, Succeeded)(es[|es| - 1]) then |es|
    else SinceCompletion(es[..|es| - 1], agent)
  }

  function StreakOf(t: Table, agent: string): nat {
    if agent in t then t[agent].trail.consecutiveFailures else 0
  }

  lemma StepStreak(t: Table, e: Event, agent: string)
    ensures StreakOf(ApplyEvent(t, e), agent) ==
            if CountsToward(agent, Succeeded)(e) then 0
            else StreakOf(t, agent) + (if CountsToward(agent, FailedCount)(e) then 1 else 0)
  {
    hide AgentOf, Counted, FailureReason;
  }

  /** The failure streak is the number of an agent's failures since its last completion. */
  lemma {:induction false} StreakCountsFailures(es: seq<Event>, agent: string)
    ensures StreakOf(Fold(map[], es), agent) ==
            |Filter(CountsToward(agent, FailedCount), es[SinceCompletion(es, agent)..])|
  {
    hide AgentOf, ApplyEvent, StreakOf, Adds;
    if es == [] {
      NoStreak(agent);
      FilterNone(CountsToward(agent, FailedCount), []);
    } else {
      var front, e := es[..|es| - 1], es[|es| - 1];
      StreakCountsFailures(front, agent);
      StepStreak(Fold(map[], front), e, agent);
      var since := SinceCompletion(front, agent);
      if CountsToward(agent, Succeeded)(e) {
        assert es[|es|..] == [];
        FilterNone(CountsToward(agent, FailedCount), []);
      } else {
        assert es[since..] == front[since..] + [e];
        FilterSnoc(CountsToward(agent, FailedCount), front[since..], e);
      }
    }
  }

  lemma NoStreak(agent: string)
    ensures StreakOf(map[], agent) == 0
  {
  }
}
