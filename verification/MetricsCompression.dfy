/** What dropping file events does to agent metrics (`snapshot/builder.py`, `server/tools/_events.py`). */
module MetricsCompression {
  import opened Wrappers
  import opened Json
  import opened Events
  import opened Sequences
  import opened EventRepository
  import opened Integrity
  import opened Paging
  import opened Projection
  import M = AgentMetrics
  import MM = MetricsMerge
  import D = Deduplicator

  // ---- What survives compression ----

  // Everything kept per agent but the version and the derived fields.
  datatype Core = Core(counts: M.Counts, trail: M.Trail)

  function CoreOf(t: M.Table, agent: string): Core {
    var m := if agent in t then t[agent] else M.EMPTY;
    Core(m.counts, m.trail.(version := None))
  }

  function CoreStep(c: Core, e: Event): Core {
    Core(M.Counted(c.counts, e.kind), M.Followed(c.trail, e).(version := None))
  }

  function CoreFold(c: Core, es: seq<Event>, agent: string): Core {
    if es == [] then c
    else
      var before, e := CoreFold(c, es[..|es| - 1], agent), es[|es| - 1];
      if M.AgentOf(e) == Some(agent) then CoreStep(before, e) else before
  }

  lemma CoreObserve(t: M.Table, e: Event, agent: string)
    ensures CoreOf(M.ApplyEvent(t, e), agent) ==
            if M.AgentOf(e) == Some(agent) then CoreStep(CoreOf(t, agent), e) else CoreOf(t, agent)
  {
    hide M.AgentOf, M.Counted, M.FailureReason, Get, NonEmptyText;
  }

  lemma {:induction false} CoreOfFold(t: M.Table, es: seq<Event>, agent: string)
    ensures CoreOf(M.Fold(t, es), agent) == CoreFold(CoreOf(t, agent), es, agent)
  {
    hide M.ApplyEvent, M.AgentOf, CoreOf, CoreStep;
    if es != [] {
      CoreOfFold(t, es[..|es| - 1], agent);
      CoreObserve(M.Fold(t, es[..|es| - 1]), es[|es| - 1], agent);
    }
  }

  lemma CoreOfFinal(conf: M.Confidence, t: M.Table, agent: string)
    ensures CoreOf(M.Finalize(conf, t), agent) == CoreOf(t, agent)
  {
    hide M.Derive;
  }

  lemma ChurnKeepsCore(c: Core, e: Event)
    requires D.Churn(e) && c.trail.version.None?
    ensures CoreStep(c, e) == c
  {
  }

  lemma CoreHasNoVersion(t: M.Table, agent: string)
    ensures CoreOf(t, agent).trail.version.None?
  {
  }

  lemma {:induction false} CoreOfRetained(ids: set<string>, es: seq<Event>, agent: string)
    ensures CoreOf(M.Fold(map[], Filter(D.Retained(ids), es)), agent) == CoreOf(M.Fold(map[], es), agent)
  {
    hide M.ApplyEvent, M.AgentOf, CoreOf, CoreStep;
    if es != [] {
      var front, e := es[..|es| - 1], es[|es| - 1];
      var kept := Filter(D.Retained(ids), front);
      CoreOfRetained(ids, front, agent);
      CoreObserve(M.Fold(map[], front), e, agent);
      if D.Retained(ids)(e) {
        assert (kept + [e])[..|kept|] == kept;
        CoreObserve(M.Fold(map[], kept), e, agent);
      } else {
        assert kept + [] == kept;
        CoreHasNoVersion(M.Fold(map[], front), agent);
        ChurnKeepsCore(CoreOf(M.Fold(map[], front), agent), e);
      }
    }
  }

  /** Metrics reduced from a compressed log agree with the full log's on every counter and every trail field
      but the version, for every agent (an absent agent counting as untouched). */
  lemma CompressedMetrics(es: seq<Event>, agent: string)
    ensures CoreOf(M.Fold(map[], D.Collapsed(es)), agent) == CoreOf(M.Fold(map[], es), agent)
  {
    CoreOfRetained(D.LastFileEvent(es).Values, es, agent);
  }

  // ---- What it can cost ----

  /** The last non-empty version an agent's events carry. */
  function LastVersion(es: seq<Event>, agent: string): Option<string> {
    if es == [] then None
    else
      var e := es[|es| - 1];
      var version := NonEmptyText(Get(e.payload, "agent_version"));
      if M.AgentOf(e) == Some(agent) && version.Some? then version else LastVersion(es[..|es| - 1], agent)
  }

  function VersionIn(t: M.Table, agent: string): Option<string> {
    if agent in t then t[agent].trail.version else None
  }

  lemma StepVersion(t: M.Table, e: Event, agent: string)
    ensures
      var version := NonEmptyText(Get(e.payload, "agent_version"));
      VersionIn(M.ApplyEvent(t, e), agent) ==
      if M.AgentOf(e) == Some(agent) && version.Some? then version else VersionIn(t, agent)
  {
    hide M.AgentOf, M.Counted, M.FailureReason, Get, NonEmptyText;
  }

  lemma {:induction false} FoldVersion(es: seq<Event>, agent: string)
    ensures VersionIn(M.Fold(map[], es), agent) == LastVersion(es, agent)
  {
    hide M.ApplyEvent, M.AgentOf, VersionIn;
    if es == [] {
      NoVersionYet(agent);
    } else {
      FoldVersion(es[..|es| - 1], agent);
      StepVersion(M.Fold(map[], es[..|es| - 1]), es[|es| - 1], agent);
    }
  }

  lemma NoVersionYet(agent: string)
    ensures VersionIn(map[], agent) == None
  {
  }

  predicate Names(es: seq<Event>, agent: string) {
    exists e :: e in es && M.AgentOf(e) == Some(agent)
  }

  lemma NamedExactly(conf: M.Confidence, es: seq<Event>, agent: string)
    ensures agent in M.Reduced(conf, es) <==> Names(es, agent)
  {
    hide M.Fold, M.AgentOf, M.Derive;
    MM.CountersCountEvents(es, agent, MM.Succeeded);
    MM.FoldStartsClean(conf, es);
    var own := Filter(MM.AttributedTo(agent), es);
    if own != [] {
      FilterMember(MM.AttributedTo(agent), es, own[0]);
    }
    if Names(es, agent) {
      var e :| e in es && M.AgentOf(e) == Some(agent);
      FilterMember(MM.AttributedTo(agent), es, e);
    }
  }

  /** One agent fares the same in both logs: named in both or neither, and with the same last version. */
  predicate FaresAlike(kept: seq<Event>, es: seq<Event>, agent: string) {
    (Names(kept, agent) <==> Names(es, agent)) && LastVersion(kept, agent) == LastVersion(es, agent)
  }

  lemma SameRecord(conf: M.Confidence, kept: seq<Event>, es: seq<Event>, agent: string)
    requires CoreOf(M.Fold(map[], kept), agent) == CoreOf(M.Fold(map[], es), agent)
    requires agent in M.Reduced(conf, kept) && agent in M.Reduced(conf, es)
    ensures M.Reduced(conf, kept)[agent] == M.Reduced(conf, es)[agent]
            <==> LastVersion(kept, agent) == LastVersion(es, agent)
  {
    hide M.Fold, M.Derive, LastVersion;
    FoldVersion(kept, agent);
    FoldVersion(es, agent);
    MM.FoldStartsClean(conf, kept);
    MM.FoldStartsClean(conf, es);
    var a, b := M.Fold(map[], kept)[agent], M.Fold(map[], es)[agent];
    assert a.trail == CoreOf(M.Fold(map[], kept), agent).trail.(version := a.trail.version);
    assert b.trail == CoreOf(M.Fold(map[], es), agent).trail.(version := b.trail.version);
  }

  lemma UnnamedHasNoVersion(es: seq<Event>, agent: string)
    requires agent !in M.Fold(map[], es)
    ensures LastVersion(es, agent) == None
  {
    FoldVersion(es, agent);
  }

  /** Two logs that agree on every agent's core have the same reduction if and only if every agent fares
      alike in them. */
  lemma ReducedExact(conf: M.Confidence, kept: seq<Event>, es: seq<Event>)
    requires forall agent :: CoreOf(M.Fold(map[], kept), agent) == CoreOf(M.Fold(map[], es), agent)
    ensures M.Reduced(conf, kept) == M.Reduced(conf, es) <==> forall agent :: FaresAlike(kept, es, agent)
  {
    hide M.Reduced, CoreOf, LastVersion, Names;
    var a, b := M.Reduced(conf, kept), M.Reduced(conf, es);
    forall agent
      ensures FaresAlike(kept, es, agent) <==>
        (agent in a <==> agent in b) && (agent in a && agent in b ==> a[agent] == b[agent])
    {
      NamedExactly(conf, kept, agent);
      NamedExactly(conf, es, agent);
      if agent in a && agent in b {
        SameRecord(conf, kept, es, agent);
      } else if agent !in a && agent !in b {
        NoRecord(conf, kept, agent);
        NoRecord(conf, es, agent);
      }
    }
    if forall agent :: FaresAlike(kept, es, agent) {
      assert a.Keys == b.Keys;
      assert a == b;
    }
  }

  lemma NoRecord(conf: M.Confidence, es: seq<Event>, agent: string)
    requires agent !in M.Reduced(conf, es)
    ensures LastVersion(es, agent) == None
  {
    MM.FoldStartsClean(conf, es);
    UnnamedHasNoVersion(es, agent);
  }

  /** An event that compression keeps. */
  predicate Kept(es: seq<Event>, e: Event) {
    e in es && D.Retained(D.LastFileEvent(es).Values)(e)
  }

  /** Some retained event is the agent's own. */
  ghost predicate KeptNames(es: seq<Event>, agent: string) {
    exists e :: Kept(es, e) && M.AgentOf(e) == Some(agent)
  }

  /** An agent appears in the metrics of a compressed log exactly when some retained event is its own. */
  lemma CompressedAgents(conf: M.Confidence, es: seq<Event>, agent: string)
    ensures agent in M.Reduced(conf, D.Collapsed(es)) <==> KeptNames(es, agent)
  {
    hide M.Reduced, M.AgentOf, D.Retained;
    NamedExactly(conf, D.Collapsed(es), agent);
    var ids := D.LastFileEvent(es).Values;
    if Names(D.Collapsed(es), agent) {
      var e :| e in D.Collapsed(es) && M.AgentOf(e) == Some(agent);
      FilterMember(D.Retained(ids), es, e);
      assert Kept(es, e);
    }
    if KeptNames(es, agent) {
      var e :| Kept(es, e) && M.AgentOf(e) == Some(agent);
      FilterMember(D.Retained(ids), es, e);
    }
  }

  /** Metrics of a compressed log are those of the full log if and only if every agent with an event keeps
      one, and the last version each agent's events carry is the last one its retained events carry. */
  lemma CompressedMetricsExact(conf: M.Confidence, es: seq<Event>)
    ensures M.Reduced(conf, D.Collapsed(es)) == M.Reduced(conf, es) <==>
      forall agent ::
        && (Names(es, agent) ==> KeptNames(es, agent))
        && LastVersion(D.Collapsed(es), agent) == LastVersion(es, agent)
  {
    hide M.Reduced, CoreOf, LastVersion, M.AgentOf, Kept;
    forall agent ensures CoreOf(M.Fold(map[], D.Collapsed(es)), agent) == CoreOf(M.Fold(map[], es), agent) {
      CompressedMetrics(es, agent);
    }
    ReducedExact(conf, D.Collapsed(es), es);
    forall agent
      ensures FaresAlike(D.Collapsed(es), es, agent) <==>
        && (Names(es, agent) ==> KeptNames(es, agent))
        && LastVersion(D.Collapsed(es), agent) == LastVersion(es, agent)
    {
      CompressedAgents(conf, es, agent);
      NamedExactly(conf, D.Collapsed(es), agent);
      KeptAreNamed(es, agent);
    }
  }

  lemma KeptAreNamed(es: seq<Event>, agent: string)
    ensures KeptNames(es, agent) ==> Names(es, agent)
  {
  }

  /** One way to be lost: the agent's only event names no file. */
  lemma FileOnlyAgentIsLost(conf: M.Confidence, e: Event, agent: string)
    requires D.Churn(e) && FilePathOf(e).None? && e.agentId == Some(agent)
    ensures agent in M.Reduced(conf, [e]) && agent !in M.Reduced(conf, D.Collapsed([e]))
  {
    hide M.Reduced, FilePathOf;
    assert [e][..0] == [];
    var seen := D.LastFileEvent([e]);
    assert seen == D.LastFileEvent([e][..0]) == map[];
    assert seen.Values == {};
    NamedExactly(conf, [e], agent);
    assert e in [e];
    CompressedAgents(conf, [e], agent);
  }

  /** Another: the agent's only event modifies a file that another agent modifies next. */
  lemma SupersededAgentIsLost(conf: M.Confidence, e: Event, f: Event, agent: string)
    requires D.Churn(e) && D.Churn(f) && FilePathOf(e).Some? && FilePathOf(f) == FilePathOf(e)
    requires e.id != f.id && e.agentId == Some(agent) && f.agentId != Some(agent)
    ensures agent in M.Reduced(conf, [e, f]) && agent !in M.Reduced(conf, D.Collapsed([e, f]))
  {
    hide M.Reduced, FilePathOf;
    var es, path := [e, f], FilePathOf(e).value;
    assert es[..1] == [e] && [e][..0] == [];
    assert D.LastFileEvent([e]) == map[path := e.id];
    assert D.LastFileEvent(es) == map[path := f.id];
    assert e.id !in D.LastFileEvent(es).Values;
    NamedExactly(conf, es, agent);
    assert e in es;
    CompressedAgents(conf, es, agent);
    assert forall x :: x in es ==> x == e || x == f;
  }

  // ---- The metrics half of a projection ----

  /** Compressed snapshot plus later events: what is reduced in place of the whole log. */
  function SnapshotLog(es: seq<Event>, more: seq<Event>): seq<Event> {
    D.Collapsed(es) + more
  }

  lemma SnapshotCore(es: seq<Event>, more: seq<Event>, agent: string)
    ensures CoreOf(M.Fold(map[], SnapshotLog(es, more)), agent) == CoreOf(M.Fold(map[], es + more), agent)
  {
    hide CoreOf, M.Fold, CoreFold, D.Collapsed;
    M.FoldSplit(map[], D.Collapsed(es), more);
    M.FoldSplit(map[], es, more);
    CompressedMetrics(es, agent);
    CoreOfFold(M.Fold(map[], D.Collapsed(es)), more, agent);
    CoreOfFold(M.Fold(map[], es), more, agent);
  }

  /** The metrics a projection starts from and the events it reads, against the whole log: every counter and
      every trail field but the version agree for every agent, and the tables are equal if and only if every
      agent fares alike in the compressed and the full log. */
  lemma ProjectedMetricsExact(conf: M.Confidence, es: seq<Event>, more: seq<Event>)
    ensures
      var metrics, whole := ProjectedMetrics(conf, M.Reduced(conf, D.Collapsed(es)), more), M.Reduced(conf, es + more);
      && (forall agent :: CoreOf(metrics, agent) == CoreOf(whole, agent))
      && (metrics == whole <==> forall agent :: FaresAlike(SnapshotLog(es, more), es + more, agent))
  {
    hide CoreOf, M.Applied, M.Fold, D.Collapsed, FaresAlike;
    var kept := SnapshotLog(es, more);
    ProjectedIsReduced(conf, es, more);
    forall agent ensures CoreOf(M.Fold(map[], kept), agent) == CoreOf(M.Fold(map[], es + more), agent) {
      SnapshotCore(es, more, agent);
    }
    ReducedExact(conf, kept, es + more);
    forall agent ensures CoreOf(M.Reduced(conf, kept), agent) == CoreOf(M.Reduced(conf, es + more), agent) {
      CoreOfReduced(conf, kept, agent);
      CoreOfReduced(conf, es + more, agent);
    }
  }

  lemma CoreOfReduced(conf: M.Confidence, es: seq<Event>, agent: string)
    ensures CoreOf(M.Reduced(conf, es), agent) == CoreOf(M.Fold(map[], es), agent)
  {
    CoreOfFinal(conf, M.Fold(map[], es), agent);
  }

  lemma ProjectedIsReduced(conf: M.Confidence, es: seq<Event>, more: seq<Event>)
    ensures ProjectedMetrics(conf, M.Reduced(conf, D.Collapsed(es)), more) == M.Reduced(conf, SnapshotLog(es, more))
  {
    hide D.Collapsed;
    if more == [] {
      assert D.Collapsed(es) + more == D.Collapsed(es);
    } else {
      M.ApplyExtendsReduce(conf, map[], D.Collapsed(es), more);
    }
  }

  /** With or without a snapshot, the metrics half of a projection against reducing the whole log. */
  lemma MetricsProjectionIsReduction(h: Digest, db: Database, path: string, p: nat, conf: M.Confidence, read: Reader,
                                     snapshot: Option<Snapshot>, n: nat, first: seq<Draft>)
    requires Valid(db) && FindProject(db.projects, path) == Some(p) && Stream(db.events, p) != []
    requires snapshot.Some? ==>
      && 0 < n <= |Stream(db.events, p)|
      && snapshot.value.cursor == Some(Stream(db.events, p)[n - 1].id)
      && snapshot.value.metrics == M.Reduced(conf, D.Collapsed(ReadAll(read, Stream(db.events, p)[..n])))
    ensures
      var rows := Stream(db.events, p);
      var owed := Owed(h, db, path, if snapshot.None? then None else snapshot.value.cursor, first);
      && owed.Ok?
      && var metrics := ProjectedMetrics(conf, if snapshot.None? then map[] else snapshot.value.metrics,
                                         ReadAll(read, owed.value));
         var whole := M.Reduced(conf, ReadAll(read, rows));
         && (forall agent :: CoreOf(metrics, agent) == CoreOf(whole, agent))
         && (snapshot.None? ==> metrics == whole)
         && (snapshot.Some? ==>
               (metrics == whole <==>
                forall agent ::
                  FaresAlike(SnapshotLog(ReadAll(read, rows[..n]), ReadAll(read, rows[n..])), ReadAll(read, rows),
                             agent)))
  {
    hide Owed, CoreOf, FaresAlike, Stream, Valid, M.Reduced, D.Collapsed;
    var rows := Stream(db.events, p);
    if snapshot.None? {
      OwedFromStart(h, db, path, p, first);
      assert ProjectedMetrics(conf, map[], ReadAll(read, rows)) == M.Reduced(conf, ReadAll(read, rows)) by {
        WholeFromNothing(conf, ReadAll(read, rows));
      }
    } else {
      OwedAfterSnapshot(h, db, path, p, n, first);
      assert rows == rows[..n] + rows[n..];
      ReadConcat(read, rows[..n], rows[n..]);
      ProjectedMetricsExact(conf, ReadAll(read, rows[..n]), ReadAll(read, rows[n..]));
    }
  }

  lemma WholeFromNothing(conf: M.Confidence, es: seq<Event>)
    ensures ProjectedMetrics(conf, map[], es) == M.Reduced(conf, es)
  {
    if es == [] {
      assert M.Fold(map[], es) == map[];
    }
  }
}
