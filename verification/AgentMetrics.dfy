/** Per-agent counters (`orchestrator/metrics/agent_performance_reducer.py`). */
module AgentMetrics {
  import opened Wrappers
  import opened Json
  import opened Events

  // The four counters.
  datatype Counts = Counts(success: nat, failure: nat, blocked: nat, assignments: nat)

  // An exact quotient.
  datatype Rate = Rate(part: nat, whole: nat)

  datatype Derived = Derived(total: nat, successRate: Rate, failureRate: Rate, blockedRate: Rate, confidence: real)

  // What only a fold over events keeps.
  datatype Trail = Trail(version: Option<string>, feedback: Option<Json>, consecutiveFailures: nat,
                         lastFailureAt: Option<int>, lastFailureReason: Option<string>)

  datatype Metrics = Metrics(counts: Counts, derived: Derived, trail: Trail)

  type Table = map<string, Metrics>

  // The confidence formula over the number of finished tasks.
  type Confidence = nat -> real

  const NO_COUNTS := Counts(0, 0, 0, 0)
  const NO_RATE := Rate(0, 1)
  const EMPTY := Metrics(NO_COUNTS, Derived(0, NO_RATE, NO_RATE, NO_RATE, 0.0), Trail(None, None, 0, None, None))

  function AgentOf(e: Event): Option<string> {
    if e.kind == TaskAssigned then
      var named := NonEmptyText(Get(e.payload, "agent_id"));
      if named.Some? then named else e.agentId
    else e.agentId
  }

  function Counted(c: Counts, kind: EventType): Counts {
    match kind
    case TaskAssigned => c.(assignments := c.assignments + 1)
    case TaskCompleted => c.(success := c.success + 1)
    case TaskFailed => c.(failure := c.failure + 1)
    case TaskBlocked => c.(blocked := c.blocked + 1)
    case _ => c
  }

  predicate IsNumber(j: Json) {
    j.Num? || j.Float? || j.Bool?
  }

  function FailureReason(e: Event): Option<string> {
    NonEmptyText(Or(Or(Get(e.payload, "reason"), Get(e.payload, "error_type")), Get(e.payload, "error")))
  }

  function Versioned(t: Trail, e: Event): Trail {
    var version := NonEmptyText(Get(e.payload, "agent_version"));
    if version.Some? then t.(version := version) else t
  }

  function Followed(t: Trail, e: Event): Trail {
    var next :=
      match e.kind
      case TaskCompleted => t.(consecutiveFailures := 0)
      case TaskFailed =>
        var reason := FailureReason(e);
        t.(consecutiveFailures := t.consecutiveFailures + 1, lastFailureAt := Some(e.createdAt),
           lastFailureReason := if reason.Some? then reason else t.lastFailureReason)
      case UserFeedback =>
        var score := Get(e.payload, "score");
        if IsNumber(score) then t.(feedback := Some(score)) else t
      case _ => t;
    Versioned(next, e)
  }

  function Observe(m: Metrics, e: Event): Metrics {
    m.(counts := Counted(m.counts, e.kind), trail := Followed(m.trail, e))
  }

  function ApplyEvent(t: Table, e: Event): Table {
    var agent := AgentOf(e);
    if agent.None? then t
    else t[agent.value := Observe(if agent.value in t then t[agent.value] else EMPTY, e)]
  }

  function Fold(t: Table, es: seq<Event>): Table {
    if es == [] then t else ApplyEvent(Fold(t, es[..|es| - 1]), es[|es| - 1])
  }

  function RateOf(part: nat, total: nat): Rate {
    Rate(part, if total > 1 then total else 1)
  }

  function Derive(conf: Confidence, c: Counts): Derived {
    var total := c.success + c.failure + c.blocked;
    Derived(total, RateOf(c.success, total), RateOf(c.failure, total), RateOf(c.blocked, total), conf(total))
  }

  function Finalize(conf: Confidence, t: Table): Table {
    map agent | agent in t :: t[agent].(derived := Derive(conf, t[agent].counts))
  }

  /** `apply_events`. */
  function Applied(conf: Confidence, base: Table, es: seq<Event>): Table {
    Finalize(conf, Fold(base, es))
  }

  /** `reduce`. */
  function Reduced(conf: Confidence, es: seq<Event>): Table {
    Applied(conf, map[], es)
  }

  method ObserveOne(m: Metrics, e: Event) returns (r: Metrics)
    ensures r == Observe(m, e)
  {
    hide FailureReason, Versioned, Get, IsNumber;
    var counts, trail := m.counts, m.trail;
    if e.kind.TaskAssigned? {
      counts := counts.(assignments := counts.assignments + 1);
    } else if e.kind.TaskCompleted? {
      counts := counts.(success := counts.success + 1);
      trail := trail.(consecutiveFailures := 0);
    } else if e.kind.TaskFailed? {
      counts := counts.(failure := counts.failure + 1);
      trail := trail.(consecutiveFailures := trail.consecutiveFailures + 1, lastFailureAt := Some(e.createdAt));
      var reason := FailureReason(e);
      if reason.Some? {
        trail := trail.(lastFailureReason := reason);
      }
    } else if e.kind.TaskBlocked? {
      counts := counts.(blocked := counts.blocked + 1);
    } else if e.kind.UserFeedback? && IsNumber(Get(e.payload, "score")) {
      trail := trail.(feedback := Some(Get(e.payload, "score")));
    }
    return m.(counts := counts, trail := Versioned(trail, e));
  }

  method ApplyOne(metrics: Table, e: Event) returns (r: Table)
    ensures r == ApplyEvent(metrics, e)
  {
    var agent := AgentOf(e);
    if agent.None? {
      return metrics;
    }
    var m := ObserveOne(if agent.value in metrics then metrics[agent.value] else EMPTY, e);
    return metrics[agent.value := m];
  }

  method ApplyEvents(conf: Confidence, base: Table, es: seq<Event>) returns (metrics: Table)
    ensures metrics == Applied(conf, base, es)
  {
    hide ApplyEvent;
    metrics := base;
    for i := 0 to |es|
      invariant metrics == Fold(base, es[..i])
    {
      assert es[..i + 1][..i] == es[..i];
      metrics := ApplyOne(metrics, es[i]);
    }
    assert es[..|es|] == es;
    metrics := Finalize(conf, metrics);
  }

  // ---- Applying pages is applying the whole log ----

  /** Equal but for the derived fields. */
  predicate SameRaw(a: Table, b: Table) {
    a.Keys == b.Keys && forall agent :: agent in a ==> a[agent].(derived := b[agent].derived) == b[agent]
  }

  lemma {:induction false} FoldSplit(t: Table, a: seq<Event>, b: seq<Event>)
    ensures Fold(t, a + b) == Fold(Fold(t, a), b)
  {
    if b == [] {
      assert a + b == a;
    } else {
      assert (a + b)[..|a + b| - 1] == a + b[..|b| - 1];
      FoldSplit(t, a, b[..|b| - 1]);
    }
  }

  lemma {:induction false} FoldIgnoresDerived(s: Table, t: Table, es: seq<Event>)
    requires SameRaw(s, t)
    ensures SameRaw(Fold(s, es), Fold(t, es))
  {
    if es != [] {
      hide AgentOf, Observe;
      FoldIgnoresDerived(s, t, es[..|es| - 1]);
      StepIgnoresDerived(Fold(s, es[..|es| - 1]), Fold(t, es[..|es| - 1]), es[|es| - 1]);
    }
  }

  lemma StepIgnoresDerived(s: Table, t: Table, e: Event)
    requires SameRaw(s, t)
    ensures SameRaw(ApplyEvent(s, e), ApplyEvent(t, e))
  {
    hide AgentOf, Followed, Counted;
  }

  lemma SameRawFinalize(conf: Confidence, s: Table, t: Table)
    requires SameRaw(s, t)
    ensures Finalize(conf, s) == Finalize(conf, t)
  {
  }

  /** Applying a page to finished metrics equals reducing the whole log, on every field. */
  lemma ApplyExtendsReduce(conf: Confidence, base: Table, a: seq<Event>, b: seq<Event>)
    ensures Applied(conf, Applied(conf, base, a), b) == Applied(conf, base, a + b)
  {
    var t := Fold(base, a);
    FoldSplit(base, a, b);
    FoldIgnoresDerived(Finalize(conf, t), t, b);
    SameRawFinalize(conf, Fold(Finalize(conf, t), b), Fold(t, b));
  }
}
