/** Agent metrics said from the events alone (`orchestrator/metrics/agent_performance_reducer.py`). */
module MetricsMeaning {
  import opened Wrappers
  import opened Json
  import opened Events
  import opened Fields
  import opened Sequences
  import opened AgentMetrics
  import opened MetricsMerge

  /** Whose event it is: an assignment is its payload's agent's, when it names one; else the event's own agent's. */
  function Owner(e: Event): Option<string> {
    var named := FirstText([Get(e.payload, "agent_id")]);
    if e.kind == TaskAssigned && named.Some? then named else e.agentId
  }

  function OwnOf(agent: string, kind: EventType): Event -> bool {
    (e: Event) => Owner(e) == Some(agent) && e.kind == kind
  }

  function Count(es: seq<Event>, agent: string, kind: EventType): nat {
    |Filter(OwnOf(agent, kind), es)|
  }

  lemma OwnerIsAgent(e: Event)
    ensures AgentOf(e) == Owner(e)
  {
    OneText(Get(e.payload, "agent_id"));
  }

  lemma CountIs(es: seq<Event>, agent: string, which: Counter, kind: EventType)
    requires forall e: Event :: Adds(e.kind, which) <==> e.kind == kind
    ensures PartOf(Fold(map[], es), agent, which) == Count(es, agent, kind)
  {
    hide AgentOf, Owner, Adds, PartOf, Filter, Fold;
    CountersCountEvents(es, agent, which);
    forall e | e in es ensures CountsToward(agent, which)(e) == OwnOf(agent, kind)(e) {
      OwnerIsAgent(e);
    }
    FilterSame(CountsToward(agent, which), OwnOf(agent, kind), es);
  }

  function Quotient(part: nat, total: nat): Rate {
    Rate(part, if total == 0 then 1 else total)
  }

  /** An agent is listed when an event is its own; its four counters are the numbers of its completions, failures,
      blocks and assignments, its total is the first three together, and its rates are those three over the total,
      or over one while there are none. */
  lemma CountsAndRates(conf: Confidence, es: seq<Event>, agent: string)
    ensures
      var metrics := Reduced(conf, es);
      var done, failed := Count(es, agent, TaskCompleted), Count(es, agent, TaskFailed);
      var blocked, assigns := Count(es, agent, TaskBlocked), Count(es, agent, TaskAssigned);
      var total := done + failed + blocked;
      && (agent in metrics <==> exists e :: e in es && Owner(e) == Some(agent))
      && (agent in metrics ==>
            var m := metrics[agent];
            && m.counts.success == done && m.counts.failure == failed && m.counts.blocked == blocked
            && m.counts.assignments == assigns
            && m.derived.total == total
            && m.derived.successRate == Quotient(done, total)
            && m.derived.failureRate == Quotient(failed, total)
            && m.derived.blockedRate == Quotient(blocked, total)
            && m.derived.confidence == conf(total))
  {
    hide AgentOf, Owner, Fold, Count;
    CountIs(es, agent, Succeeded, TaskCompleted);
    CountIs(es, agent, FailedCount, TaskFailed);
    CountIs(es, agent, BlockedCount, TaskBlocked);
    CountIs(es, agent, AssignedCount, TaskAssigned);
    FoldStartsClean(conf, es);
    ListedWhenOwner(es, agent);
  }

  lemma ListedWhenOwner(es: seq<Event>, agent: string)
    ensures agent in Fold(map[], es) <==> exists e :: e in es && Owner(e) == Some(agent)
  {
    hide AgentOf, Owner, Fold, Filter;
    CountersCountEvents(es, agent, Succeeded);
    var own := Filter(AttributedTo(agent), es);
    if own != [] {
      assert own[0] in own;
      FilterMember(AttributedTo(agent), es, own[0]);
      OwnerIsAgent(own[0]);
    }
    if e :| e in es && Owner(e) == Some(agent) {
      OwnerIsAgent(e);
      FilterMember(AttributedTo(agent), es, e);
    }
  }

  // ---- The fields that follow the last event ----

  function VersionSaid(agent: string): Event -> Option<string> {
    (e: Event) => if Owner(e) == Some(agent) then FirstText([Get(e.payload, "agent_version")]) else None
  }

  /** A feedback event counts when its score is a number or a truth value. */
  function ScoreSaid(agent: string): Event -> Option<Json> {
    (e: Event) =>
      var score := Get(e.payload, "score");
      if Owner(e) == Some(agent) && e.kind == UserFeedback && !score.Null? && !score.Str? && !score.Arr? && !score.Obj?
      then Some(score) else None
  }

  function FailureTime(agent: string): Event -> Option<int> {
    (e: Event) => if Owner(e) == Some(agent) && e.kind == TaskFailed then Some(e.createdAt) else None
  }

  function ReasonSaid(agent: string): Event -> Option<string> {
    (e: Event) =>
      if Owner(e) == Some(agent) && e.kind == TaskFailed
      then FirstText([Get(e.payload, "reason"), Get(e.payload, "error_type"), Get(e.payload, "error")]) else None
  }

  lemma FollowedFields(t: Trail, e: Event, agent: string)
    requires Owner(e) == Some(agent)
    ensures
      var r := Followed(t, e);
      && r.version == (if VersionSaid(agent)(e).Some? then VersionSaid(agent)(e) else t.version)
      && r.feedback == (if ScoreSaid(agent)(e).Some? then ScoreSaid(agent)(e) else t.feedback)
      && r.lastFailureAt == (if FailureTime(agent)(e).Some? then FailureTime(agent)(e) else t.lastFailureAt)
      && r.lastFailureReason == (if ReasonSaid(agent)(e).Some? then ReasonSaid(agent)(e) else t.lastFailureReason)
  {
    hide FirstText, NonEmptyText, Get, Owner, Or;
    OneText(Get(e.payload, "agent_version"));
    ThreeTexts(Get(e.payload, "reason"), Get(e.payload, "error_type"), Get(e.payload, "error"));
  }

  lemma OthersSayNothing(e: Event, agent: string)
    requires Owner(e) != Some(agent)
    ensures VersionSaid(agent)(e).None? && ScoreSaid(agent)(e).None?
    ensures FailureTime(agent)(e).None? && ReasonSaid(agent)(e).None?
  {
  }

  ghost predicate Follows(t: Trail, es: seq<Event>, agent: string) {
    && t.version == LastSaid(VersionSaid(agent), es)
    && t.feedback == LastSaid(ScoreSaid(agent), es)
    && t.lastFailureAt == LastSaid(FailureTime(agent), es)
    && t.lastFailureReason == LastSaid(ReasonSaid(agent), es)
  }

  lemma TrailStep(t: Trail, es: seq<Event>, agent: string)
    requires es != [] && Follows(t, es[..|es| - 1], agent)
    ensures
      var e := es[|es| - 1];
      Follows(if Owner(e) == Some(agent) then Followed(t, e) else t, es, agent)
  {
    hide Followed, Owner, VersionSaid, ScoreSaid, FailureTime, ReasonSaid;
    var e := es[|es| - 1];
    if Owner(e) == Some(agent) {
      FollowedFields(t, e, agent);
    } else {
      OthersSayNothing(e, agent);
    }
  }

  function TrailIn(t: Table, agent: string): Trail {
    if agent in t then t[agent].trail else EMPTY.trail
  }

  lemma TrailInStep(t: Table, e: Event, agent: string)
    ensures TrailIn(ApplyEvent(t, e), agent) ==
            if AgentOf(e) == Some(agent) then Followed(TrailIn(t, agent), e) else TrailIn(t, agent)
  {
    hide AgentOf, Followed, Counted;
  }

  lemma {:induction false} FoldFollows(es: seq<Event>, agent: string)
    ensures Follows(TrailIn(Fold(map[], es), agent), es, agent)
  {
    if es != [] {
      hide AgentOf, Owner, ApplyEvent, Followed, Follows, TrailIn;
      var front, e := es[..|es| - 1], es[|es| - 1];
      FoldFollows(front, agent);
      TrailInStep(Fold(map[], front), e, agent);
      OwnerIsAgent(e);
      TrailStep(TrailIn(Fold(map[], front), agent), es, agent);
    }
  }

  /** An agent's version, feedback score, failure time and failure reason are the last its own events gave. */
  lemma TrailFollowsEvents(conf: Confidence, es: seq<Event>, agent: string)
    requires agent in Reduced(conf, es)
    ensures Follows(Reduced(conf, es)[agent].trail, es, agent)
  {
    hide Follows, Fold;
    FoldStartsClean(conf, es);
    FoldFollows(es, agent);
  }
}
