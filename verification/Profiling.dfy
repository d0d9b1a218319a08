/** The span stack of one profiled request (`profiling.py`), in integer nanoseconds. */
module Profiling {
  import opened Wrappers

  datatype OpenSpan = OpenSpan(name: string, started: int, child: int)

  datatype Span = Span(name: string, parent: Option<string>, duration: int, self: int)

  // The innermost open span is last.
  datatype Session = Session(started: int, stack: seq<OpenSpan>, spans: seq<Span>)

  // Entering and leaving a stage, each with the clock read then.
  datatype Op = Enter(name: string, at: int) | Leave(at: int)

  function Positive(n: int): int {
    if n < 0 then 0 else n
  }

  function Parent(stack: seq<OpenSpan>): Option<string> {
    if stack == [] then None else Some(stack[|stack| - 1].name)
  }

  function Credit(stack: seq<OpenSpan>, duration: int): seq<OpenSpan> {
    if stack == [] then []
    else
      var top := |stack| - 1;
      stack[top := stack[top].(child := stack[top].child + duration)]
  }

  function Entered(s: Session, name: string, at: int): Session {
    s.(stack := s.stack + [OpenSpan(name, at, 0)])
  }

  function Left(s: Session, at: int): Session
    requires s.stack != []
  {
    var span, below := s.stack[|s.stack| - 1], s.stack[..|s.stack| - 1];
    var duration := Positive(at - span.started);
    Session(s.started, Credit(below, duration),
            s.spans + [Span(span.name, Parent(below), duration, Positive(duration - span.child))])
  }

  /** What ends up in the request record: the total, and the part outside every top-level span. */
  function Totals(s: Session, at: int): (int, int) {
    var total := Positive(at - s.started);
    (total, Positive(total - TopLevel(s.spans)))
  }

  function TopLevel(spans: seq<Span>): int {
    if spans == [] then 0
    else
      var last := spans[|spans| - 1];
      TopLevel(spans[..|spans| - 1]) + (if last.parent.None? then last.duration else 0)
  }

  function SelfTime(spans: seq<Span>): int {
    if spans == [] then 0 else SelfTime(spans[..|spans| - 1]) + spans[|spans| - 1].self
  }

  class ProfileSession {
    const started: int
    var stack: seq<OpenSpan>
    var spans: seq<Span>

    function State(): Session
      reads this
    {
      Session(started, stack, spans)
    }

    constructor (at: int)
      ensures State() == Session(at, [], [])
    {
      started, stack, spans := at, [], [];
    }

    /** The part of `profile_stage` before its body. */
    method EnterStage(name: string, at: int)
      modifies this
      ensures State() == Entered(old(State()), name, at)
    {
      stack := stack + [OpenSpan(name, at, 0)];
    }

    /** The part of `profile_stage` after its body, reached however the body ends. */
    method LeaveStage(at: int)
      requires stack != []
      modifies this
      ensures State() == Left(old(State()), at)
    {
      var span := stack[|stack| - 1];
      var duration := Positive(at - span.started);
      stack := stack[..|stack| - 1];
      var parent := None;
      if stack != [] {
        var top := stack[|stack| - 1];
        parent := Some(top.name);
        stack := stack[|stack| - 1 := top.(child := top.child + duration)];
      }
      spans := spans + [Span(span.name, parent, duration, Positive(duration - span.child))];
    }

    method WriteSession(at: int) returns (total: int, self: int)
      ensures (total, self) == Totals(State(), at)
    {
      total := Positive(at - started);
      var topLevel := 0;
      for i := 0 to |spans|
        invariant topLevel == TopLevel(spans[..i])
      {
        assert spans[..i + 1][..i] == spans[..i];
        if spans[i].parent.None? {
          topLevel := topLevel + spans[i].duration;
        }
      }
      assert spans[..|spans|] == spans;
      self := Positive(total - topLevel);
    }
  }

  // ---- Runs ----

  function Depth(ops: seq<Op>): int {
    if ops == [] then 0 else Depth(ops[..|ops| - 1]) + (if ops[|ops| - 1].Enter? then 1 else -1)
  }

  /** Stages are left in the order of a call stack. */
  predicate WellNested(ops: seq<Op>) {
    ops != [] ==> WellNested(ops[..|ops| - 1]) && Depth(ops) >= 0
  }

  function LastTime(start: int, ops: seq<Op>): int {
    if ops == [] then start else ops[|ops| - 1].at
  }

  /** The clock never runs backwards. */
  predicate Monotone(start: int, ops: seq<Op>) {
    ops != [] ==> Monotone(start, ops[..|ops| - 1]) && LastTime(start, ops[..|ops| - 1]) <= ops[|ops| - 1].at
  }

  function Run(start: int, ops: seq<Op>): (s: Session)
    requires WellNested(ops)
    ensures |s.stack| == Depth(ops) && s.started == start
  {
    if ops == [] then Session(start, [], [])
    else
      var s := Run(start, ops[..|ops| - 1]);
      match ops[|ops| - 1]
      case Enter(name, at) => Entered(s, name, at)
      case Leave(at) => Left(s, at)
  }

  // ---- What a span records ----

  /** Leaving a stage records its name, the enclosing stage's name, the time since it was entered and that time less
      its children's, neither of them ever negative, and credits the enclosing stage with the whole of it. */
  lemma LeavingRecords(s: Session, at: int)
    requires s.stack != []
    ensures
      var r, n := Left(s, at), |s.stack| - 1;
      var duration := if at > s.stack[n].started then at - s.stack[n].started else 0;
      && r.started == s.started && |r.stack| == n && |r.spans| == |s.spans| + 1 && r.spans[..|s.spans|] == s.spans
      && var span := r.spans[|s.spans|];
         && span.name == s.stack[n].name && span.duration == duration
         && span.self == (if duration > s.stack[n].child then duration - s.stack[n].child else 0)
         && (n == 0 ==> span.parent == None)
         && (n > 0 ==> span.parent == Some(s.stack[n - 1].name))
         && (forall i :: 0 <= i < n ==> r.stack[i].name == s.stack[i].name && r.stack[i].started == s.stack[i].started)
         && (forall i :: 0 <= i < n - 1 ==> r.stack[i].child == s.stack[i].child)
         && (n > 0 ==> r.stack[n - 1].child == s.stack[n - 1].child + duration)
  {
  }

  /** Whatever the clock does, no recorded time is negative. */
  lemma {:induction false} TimesAreNatural(start: int, ops: seq<Op>, k: nat)
    requires WellNested(ops) && k < |Run(start, ops).spans|
    ensures Run(start, ops).spans[k].duration >= 0 && Run(start, ops).spans[k].self >= 0
  {
    if ops != [] {
      hide Left, Entered;
      var front, op := ops[..|ops| - 1], ops[|ops| - 1];
      EnteringRecordsNothing(Run(start, front), if op.Enter? then op.name else "", op.at);
      assert Depth(ops) >= 0;
      if op.Leave? {
        LeavingRecords(Run(start, front), op.at);
      }
      if k < |Run(start, front).spans| {
        TimesAreNatural(start, front, k);
      }
    }
  }

  lemma EnteringRecordsNothing(s: Session, name: string, at: int)
    ensures Entered(s, name, at).spans == s.spans
  {
  }

  // ---- Conservation ----

  function OpenChildren(stack: seq<OpenSpan>): int {
    if stack == [] then 0 else OpenChildren(stack[..|stack| - 1]) + stack[|stack| - 1].child
  }

  predicate RoomAt(stack: seq<OpenSpan>, now: int, i: nat)
    requires i < |stack|
  {
    0 <= stack[i].child <= (if i + 1 < |stack| then stack[i + 1].started else now) - stack[i].started
  }

  /** Each open span has lasted at least as long as its finished children, up to where the next one began. */
  predicate Room(stack: seq<OpenSpan>, now: int) {
    forall i :: 0 <= i < |stack| ==> RoomAt(stack, now, i)
  }

  /** Self time is accounted for; top-level spans and the open one fit into the session. */
  predicate Balanced(s: Session, now: int) {
    && Room(s.stack, now)
    && SelfTime(s.spans) == TopLevel(s.spans) + OpenChildren(s.stack)
    && TopLevel(s.spans) <= (if s.stack == [] then now else s.stack[0].started) - s.started
  }

  lemma OpenChildrenSnoc(stack: seq<OpenSpan>, span: OpenSpan)
    ensures OpenChildren(stack + [span]) == OpenChildren(stack) + span.child
  {
    assert (stack + [span])[..|stack|] == stack;
  }

  lemma SpansSnoc(spans: seq<Span>, span: Span)
    ensures SelfTime(spans + [span]) == SelfTime(spans) + span.self
    ensures TopLevel(spans + [span]) == TopLevel(spans) + (if span.parent.None? then span.duration else 0)
  {
    assert (spans + [span])[..|spans|] == spans;
  }

  lemma LaterKeepsRoom(stack: seq<OpenSpan>, now: int, later: int)
    requires Room(stack, now) && now <= later
    ensures Room(stack, later)
  {
    forall i | 0 <= i < |stack| ensures RoomAt(stack, later, i) {
      assert RoomAt(stack, now, i);
    }
  }

  lemma CreditKeeps(stack: seq<OpenSpan>, from: int, at: int)
    requires Room(stack, from) && from <= at
    ensures Room(Credit(stack, at - from), at)
    ensures stack != [] ==> OpenChildren(Credit(stack, at - from)) == OpenChildren(stack) + at - from
  {
    if stack != [] {
      var top := |stack| - 1;
      var r := Credit(stack, at - from);
      assert r == stack[..top] + [r[top]] && stack == stack[..top] + [stack[top]];
      OpenChildrenSnoc(stack[..top], r[top]);
      OpenChildrenSnoc(stack[..top], stack[top]);
      forall i | 0 <= i < |r| ensures RoomAt(r, at, i) {
        assert RoomAt(stack, from, i);
      }
    }
  }

  lemma EnterBalanced(s: Session, name: string, now: int, at: int)
    requires Balanced(s, now) && now <= at
    ensures Balanced(Entered(s, name, at), at)
  {
    var r := Entered(s, name, at);
    OpenChildrenSnoc(s.stack, OpenSpan(name, at, 0));
    forall i | 0 <= i < |r.stack| ensures RoomAt(r.stack, at, i) {
      if i < |s.stack| {
        assert RoomAt(s.stack, now, i);
      }
    }
  }

  /** Leaving a span clips nothing: its duration covers its children. */
  lemma LeaveBalanced(s: Session, now: int, at: int)
    requires s.stack != [] && Balanced(s, now) && now <= at
    ensures Balanced(Left(s, at), at)
    ensures
      var span, r := s.stack[|s.stack| - 1], Left(s, at);
      && |r.spans| == |s.spans| + 1
      && r.spans[|s.spans|].duration == at - span.started
      && r.spans[|s.spans|].self == at - span.started - span.child
  {
    var span, below := s.stack[|s.stack| - 1], s.stack[..|s.stack| - 1];
    LaterKeepsRoom(s.stack, now, at);
    assert s.stack == below + [span] && RoomAt(s.stack, at, |below|);
    OpenChildrenSnoc(below, span);
    forall i | 0 <= i < |below| ensures RoomAt(below, span.started, i) {
      assert RoomAt(s.stack, now, i);
    }
    CreditKeeps(below, span.started, at);
    SpansSnoc(s.spans, Left(s, at).spans[|s.spans|]);
  }

  lemma {:induction false} RunBalanced(start: int, ops: seq<Op>)
    requires WellNested(ops) && Monotone(start, ops)
    ensures Balanced(Run(start, ops), LastTime(start, ops))
  {
    if ops != [] {
      hide Balanced;
      var front, op := ops[..|ops| - 1], ops[|ops| - 1];
      RunBalanced(start, front);
      if op.Enter? {
        EnterBalanced(Run(start, front), op.name, LastTime(start, front), op.at);
      } else {
        LeaveBalanced(Run(start, front), LastTime(start, front), op.at);
      }
    } else {
      assert Balanced(Run(start, ops), start);
    }
  }

  /** No recorded duration or self time was ever clipped at zero. */
  lemma {:induction false} NothingClips(start: int, ops: seq<Op>)
    requires WellNested(ops) && Monotone(start, ops)
    requires ops != [] && ops[|ops| - 1].Leave?
    ensures
      var s := Run(start, ops[..|ops| - 1]);
      && s.stack != []
      && var span, at := s.stack[|s.stack| - 1], ops[|ops| - 1].at;
         at - span.started >= 0 && at - span.started - span.child >= 0
  {
    var front := ops[..|ops| - 1];
    RunBalanced(start, front);
    var s := Run(start, front);
    assert Depth(ops) >= 0;
    LaterKeepsRoom(s.stack, LastTime(start, front), ops[|ops| - 1].at);
    assert RoomAt(s.stack, ops[|ops| - 1].at, |s.stack| - 1);
  }

  /** Once every stage is left, the self times of all spans add up to the durations of the top-level ones,
      and with the request's own self time they add up to its total. */
  lemma TimeIsConserved(start: int, ops: seq<Op>, at: int)
    requires WellNested(ops) && Monotone(start, ops) && Depth(ops) == 0 && LastTime(start, ops) <= at
    ensures
      var s := Run(start, ops);
      var (total, self) := Totals(s, at);
      && SelfTime(s.spans) == TopLevel(s.spans)
      && total == at - start
      && SelfTime(s.spans) + self == total
  {
    RunBalanced(start, ops);
    TimeGoesOn(start, ops);
  }

  lemma {:induction false} TimeGoesOn(start: int, ops: seq<Op>)
    requires Monotone(start, ops)
    ensures start <= LastTime(start, ops)
  {
    if ops != [] {
      TimeGoesOn(start, ops[..|ops| - 1]);
    }
  }
}
