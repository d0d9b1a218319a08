/** The two-window tool rate limiter (`security/rate_limit.py`). Clock readings are reals. */
module RateLimit {
  import opened Wrappers
  import opened Sequences

  type Time = real

  // ---- Deques of one key ----

  /** Timestamps still inside the window: everything later than the cutoff, from the front. */
  function Pruned(stamps: seq<Time>, cutoff: Time): seq<Time> {
    if stamps != [] && stamps[0] <= cutoff then Pruned(stamps[1..], cutoff) else stamps
  }

  function Deque(buckets: map<string, seq<Time>>, key: string): seq<Time> {
    if key in buckets then buckets[key] else []
  }

  predicate NoEmptyDeques(buckets: map<string, seq<Time>>) {
    forall k :: k in buckets ==> buckets[k] != []
  }

  /** A sliding window per key. */
  class SlidingWindowCounter {
    const window: Time
    const maxEvents: nat
    var buckets: map<string, seq<Time>>

    predicate Valid()
      reads this
    {
      window > 0.0 && maxEvents >= 1 && NoEmptyDeques(buckets)
    }

    function Of(key: string): seq<Time>
      reads this
    {
      Deque(buckets, key)
    }

    constructor (seconds: Time, limit: nat)
      requires seconds > 0.0 && limit >= 1
      ensures Valid() && window == seconds && maxEvents == limit && buckets == map[]
    {
      window, maxEvents, buckets := seconds, limit, map[];
    }

    /** Drops the expired front of one key's deque and nothing else; an emptied deque is removed. */
    method Prune(key: string, now: Time)
      requires Valid()
      modifies this
      ensures Valid() && Of(key) == Pruned(old(Of(key)), now - window)
      ensures forall k :: k != key ==> Of(k) == old(Of(k))
    {
      if key !in buckets {
        return;
      }
      var cutoff := now - window;
      var stamps := buckets[key];
      while stamps != [] && stamps[0] <= cutoff
        invariant Pruned(stamps, cutoff) == Pruned(buckets[key], cutoff)
        decreases |stamps|
      {
        stamps := stamps[1..];
      }
      if stamps == [] {
        buckets := buckets - {key};
      } else {
        buckets := buckets[key := stamps];
      }
    }

    method Check(key: string, now: Time) returns (allowed: bool, count: nat)
      requires Valid()
      modifies this
      ensures Valid() && Of(key) == Pruned(old(Of(key)), now - window)
      ensures forall k :: k != key ==> Of(k) == old(Of(k))
      ensures count == |Of(key)| && allowed == (count < maxEvents)
    {
      Prune(key, now);
      count := |Deque(buckets, key)|;
      allowed := count < maxEvents;
    }

    method Record(key: string, now: Time)
      requires Valid()
      modifies this
      ensures Valid() && Of(key) == Pruned(old(Of(key)), now - window) + [now]
      ensures forall k :: k != key ==> Of(k) == old(Of(k))
    {
      Prune(key, now);
      buckets := buckets[key := Deque(buckets, key) + [now]];
    }

    method CheckAndRecord(key: string, now: Time) returns (allowed: bool, count: nat)
      requires Valid()
      modifies this
      ensures Valid()
      ensures forall k :: k != key ==> Of(k) == old(Of(k))
      ensures var kept := Pruned(old(Of(key)), now - window);
        && allowed == (|kept| < maxEvents)
        && Of(key) == (if allowed then kept + [now] else kept)
        && count == |Of(key)|
    {
      Prune(key, now);
      var stamps := Deque(buckets, key);
      if |stamps| >= maxEvents {
        return false, |stamps|;
      }
      buckets := buckets[key := stamps + [now]];
      return true, |stamps| + 1;
    }

    method Reset(key: Option<string>)
      requires Valid()
      modifies this
      ensures Valid()
      ensures forall k :: Of(k) == if key.None? || key == Some(k) then [] else old(Of(k))
    {
      if key.None? {
        buckets := map[];
      } else {
        buckets := buckets - {key.value};
      }
    }

    /** Removes the newest timestamp of one key. */
    method PopLast(key: string)
      requires Valid()
      modifies this
      ensures Valid()
      ensures Of(key) == if old(Of(key)) == [] then [] else old(Of(key))[..|old(Of(key))| - 1]
      ensures forall k :: k != key ==> Of(k) == old(Of(k))
    {
      if key in buckets {
        var stamps := buckets[key];
        stamps := stamps[..|stamps| - 1];
        if stamps == [] {
          buckets := buckets - {key};
        } else {
          buckets := buckets[key := stamps];
        }
      }
    }
  }

  // ---- One tool, both windows ----

  datatype Limits = Limits(burstWindow: Time, burstMax: nat, minuteWindow: Time, minuteMax: nat)

  predicate LimitsOk(l: Limits) {
    l.burstWindow > 0.0 && l.minuteWindow > 0.0 && l.burstMax >= 1 && l.minuteMax >= 1
  }

  // The two deques of one tool.
  datatype Windows = Windows(burst: seq<Time>, minute: seq<Time>)

  datatype Verdict = Accepted | BurstExceeded | MinuteExceeded

  /** One call: the burst window is asked first; a minute rejection takes the burst record back. */
  function CallWindows(l: Limits, w: Windows, burstNow: Time, minuteNow: Time): (Windows, Verdict) {
    var burst := Pruned(w.burst, burstNow - l.burstWindow);
    if |burst| >= l.burstMax then (Windows(burst, w.minute), BurstExceeded)
    else
      var minute := Pruned(w.minute, minuteNow - l.minuteWindow);
      if |minute| >= l.minuteMax then (Windows(burst, minute), MinuteExceeded)
      else (Windows(burst + [burstNow], minute + [minuteNow]), Accepted)
  }

  /** Both limiters under the cross-limiter lock. */
  class ToolRateLimiter {
    const limits: Limits
    const burst: SlidingWindowCounter
    const minute: SlidingWindowCounter

    ghost predicate Valid()
      reads this, burst, minute
    {
      && burst != minute && burst.Valid() && minute.Valid() && LimitsOk(limits)
      && burst.window == limits.burstWindow && burst.maxEvents == limits.burstMax
      && minute.window == limits.minuteWindow && minute.maxEvents == limits.minuteMax
    }

    function Of(tool: string): Windows
      reads burst, minute
    {
      Windows(burst.Of(tool), minute.Of(tool))
    }

    constructor (l: Limits)
      requires LimitsOk(l)
      ensures Valid() && limits == l && fresh(burst) && fresh(minute)
      ensures forall k :: Of(k) == Windows([], [])
    {
      limits := l;
      burst := new SlidingWindowCounter(l.burstWindow, l.burstMax);
      minute := new SlidingWindowCounter(l.minuteWindow, l.minuteMax);
    }

    method CheckToolRate(tool: string, burstNow: Time, minuteNow: Time) returns (verdict: Verdict)
      requires Valid()
      modifies burst, minute
      ensures Valid()
      ensures (Of(tool), verdict) == CallWindows(limits, old(Of(tool)), burstNow, minuteNow)
      ensures forall k :: k != tool ==> Of(k) == old(Of(k))
    {
      var burstOk, _ := burst.CheckAndRecord(tool, burstNow);
      if !burstOk {
        return BurstExceeded;
      }
      var minuteOk, _ := minute.CheckAndRecord(tool, minuteNow);
      if !minuteOk {
        burst.PopLast(tool);
        return MinuteExceeded;
      }
      return Accepted;
    }

    /** Any interleaving of calls to any tools: each tool sees only its own. */
    method Serve(calls: seq<(string, Call)>) returns (verdicts: seq<Verdict>)
      requires Valid() && forall k :: Of(k) == Windows([], [])
      modifies burst, minute
      ensures Valid() && forall k :: Of(k) == RunWindows(limits, CallsOf(calls, k))
      ensures |verdicts| == |calls|
      ensures forall i :: 0 <= i < |calls| ==> verdicts[i] == VerdictAt(limits, calls, i)
    {
      verdicts := [];
      for i := 0 to |calls|
        invariant Valid() && |verdicts| == i
        invariant forall j :: 0 <= j < i ==> verdicts[j] == VerdictAt(limits, calls, j)
        invariant forall k :: Of(k) == RunWindows(limits, CallsOf(calls[..i], k))
      {
        assert calls[..i + 1][..i] == calls[..i];
        var (tool, c) := calls[i];
        ghost var before := CallsOf(calls[..i], tool);
        assert (before + [c])[..|before|] == before;
        var verdict := CheckToolRate(tool, c.burstNow, c.minuteNow);
        verdicts := verdicts + [verdict];
      }
      assert calls[..|calls|] == calls;
    }

    method ResetAll()
      requires Valid()
      modifies burst, minute
      ensures Valid() && forall k :: Of(k) == Windows([], [])
    {
      minute.Reset(None);
      burst.Reset(None);
    }
  }

  // ---- Refinement: a log of accepted calls ----

  datatype Call = Call(burstNow: Time, minuteNow: Time)

  function CallsOf(calls: seq<(string, Call)>, tool: string): seq<Call> {
    if calls == [] then []
    else
      var front, last := CallsOf(calls[..|calls| - 1], tool), calls[|calls| - 1];
      if last.0 == tool then front + [last.1] else front
  }

  predicate Nondecreasing(s: seq<Time>) {
    forall i, j :: 0 <= i < j < |s| ==> s[i] <= s[j]
  }

  /** Times inside the half-open window that ends at `now`. */
  function InWindow(log: seq<Time>, now: Time, window: Time): seq<Time> {
    Filter(Later(now - window), log)
  }

  function Later(cutoff: Time): Time -> bool {
    t => t > cutoff
  }

  // The specification state: every accepted call, nothing ever dropped.
  datatype Accepts = Accepts(burst: seq<Time>, minute: seq<Time>)

  function CallLog(l: Limits, a: Accepts, c: Call): (Accepts, Verdict) {
    if |InWindow(a.burst, c.burstNow, l.burstWindow)| >= l.burstMax then (a, BurstExceeded)
    else if |InWindow(a.minute, c.minuteNow, l.minuteWindow)| >= l.minuteMax then (a, MinuteExceeded)
    else (Accepts(a.burst + [c.burstNow], a.minute + [c.minuteNow]), Accepted)
  }

  function RunWindows(l: Limits, calls: seq<Call>): Windows {
    if calls == [] then Windows([], [])
    else
      var c := calls[|calls| - 1];
      CallWindows(l, RunWindows(l, calls[..|calls| - 1]), c.burstNow, c.minuteNow).0
  }

  function RunLog(l: Limits, calls: seq<Call>): Accepts {
    if calls == [] then Accepts([], []) else CallLog(l, RunLog(l, calls[..|calls| - 1]), calls[|calls| - 1]).0
  }

  predicate ClockRuns(calls: seq<Call>) {
    && (forall i, j :: 0 <= i < j < |calls| ==> calls[i].burstNow <= calls[j].burstNow)
    && (forall i, j :: 0 <= i < j < |calls| ==> calls[i].minuteNow <= calls[j].minuteNow)
  }

  /** What the windows answer to call `i` of an interleaving, given its tool's earlier calls alone. */
  function VerdictAt(l: Limits, calls: seq<(string, Call)>, i: nat): Verdict
    requires i < |calls|
  {
    var (tool, c) := calls[i];
    CallWindows(l, RunWindows(l, CallsOf(calls[..i], tool)), c.burstNow, c.minuteNow).1
  }

  /** Burst cutoffs are applied on every call. */
  function LastBurstCutoff(l: Limits, calls: seq<Call>): Option<Time> {
    if calls == [] then None else Some(calls[|calls| - 1].burstNow - l.burstWindow)
  }

  /** The minute window is only pruned by calls the burst window lets through. */
  function LastMinuteCutoff(l: Limits, calls: seq<Call>): Option<Time> {
    if calls == [] then None
    else
      var front, c := calls[..|calls| - 1], calls[|calls| - 1];
      if CallLog(l, RunLog(l, front), c).1 == BurstExceeded then LastMinuteCutoff(l, front)
      else Some(c.minuteNow - l.minuteWindow)
  }

  function After(log: seq<Time>, cutoff: Option<Time>): seq<Time> {
    if cutoff.None? then log else Filter(Later(cutoff.value), log)
  }

  // Pruning the front of a sorted deque is filtering it.
  lemma {:induction false} PrunedIsFilter(s: seq<Time>, cutoff: Time)
    requires Nondecreasing(s)
    ensures Pruned(s, cutoff) == Filter(Later(cutoff), s)
  {
    if s != [] {
      assert s == [s[0]] + s[1..];
      FilterConcat(Later(cutoff), [s[0]], s[1..]);
      assert [s[0]][..0] == [];
      if s[0] <= cutoff {
        PrunedIsFilter(s[1..], cutoff);
      } else {
        FilterEvery(Later(cutoff), s);
      }
    }
  }

  lemma {:induction false} FilterSorted(s: seq<Time>, cutoff: Time)
    requires Nondecreasing(s)
    ensures Nondecreasing(Filter(Later(cutoff), s))
  {
    if s != [] {
      var front, x := s[..|s| - 1], s[|s| - 1];
      FilterSorted(front, cutoff);
      forall y | y in Filter(Later(cutoff), front) ensures y <= x {
        FilterMember(Later(cutoff), front, y);
        var i :| 0 <= i < |front| && front[i] == y;
        assert s[i] == y;
      }
      var kept := Filter(Later(cutoff), front);
      assert forall i :: 0 <= i < |kept| ==> kept[i] in kept;
    }
  }

  lemma {:induction false} FilterLaterTwice(s: seq<Time>, first: Time, second: Time)
    requires first <= second
    ensures Filter(Later(second), Filter(Later(first), s)) == Filter(Later(second), s)
  {
    if s != [] {
      var front, x := s[..|s| - 1], s[|s| - 1];
      FilterLaterTwice(front, first, second);
      if x > first {
        assert Filter(Later(first), s) == Filter(Later(first), front) + [x];
        FilterSnoc(Later(second), Filter(Later(first), front), x);
      } else {
        assert Filter(Later(first), s) == Filter(Later(first), front);
        assert Filter(Later(second), s) == Filter(Later(second), front);
      }
    }
  }

  predicate AllUpTo(log: seq<Time>, now: Time) {
    forall t :: t in log ==> t <= now
  }

  /** A deque is the part of its log after the last cutoff; the clock has reached `last`. */
  predicate Tracks(deque: seq<Time>, log: seq<Time>, cutoff: Option<Time>, window: Time, last: Option<Time>) {
    && Nondecreasing(log)
    && deque == After(log, cutoff)
    && (last.None? ==> log == [] && cutoff.None?)
    && (last.Some? ==> AllUpTo(log, last.value) && (cutoff.Some? ==> cutoff.value <= last.value - window))
  }

  predicate Reached(last: Option<Time>, now: Time) {
    last.Some? ==> last.value <= now
  }

  lemma TracksLater(deque: seq<Time>, log: seq<Time>, cutoff: Option<Time>, window: Time, last: Option<Time>, now: Time)
    requires Tracks(deque, log, cutoff, window, last) && Reached(last, now)
    ensures Tracks(deque, log, cutoff, window, Some(now))
  {
  }

  lemma TracksPrune(deque: seq<Time>, log: seq<Time>, cutoff: Option<Time>, window: Time, last: Option<Time>, now: Time)
    requires Tracks(deque, log, cutoff, window, last) && Reached(last, now)
    ensures Pruned(deque, now - window) == InWindow(log, now, window)
    ensures Tracks(Pruned(deque, now - window), log, Some(now - window), window, Some(now))
  {
    if cutoff.Some? {
      FilterSorted(log, cutoff.value);
      FilterLaterTwice(log, cutoff.value, now - window);
    }
    PrunedIsFilter(After(log, cutoff), now - window);
  }

  lemma TracksAccept(deque: seq<Time>, log: seq<Time>, window: Time, now: Time)
    requires window > 0.0 && Tracks(deque, log, Some(now - window), window, Some(now))
    ensures Tracks(deque + [now], log + [now], Some(now - window), window, Some(now))
  {
    FilterSnoc(Later(now - window), log, now);
    assert forall i :: 0 <= i < |log| ==> log[i] in log;
  }

  function LastBurst(calls: seq<Call>): Option<Time> {
    if calls == [] then None else Some(calls[|calls| - 1].burstNow)
  }

  function LastMinute(calls: seq<Call>): Option<Time> {
    if calls == [] then None else Some(calls[|calls| - 1].minuteNow)
  }

  /** The fast form and the log agree before the next call. */
  predicate Agrees(l: Limits, calls: seq<Call>) {
    BurstAgrees(l, calls) && MinuteAgrees(l, calls)
  }

  predicate BurstAgrees(l: Limits, calls: seq<Call>) {
    Tracks(RunWindows(l, calls).burst, RunLog(l, calls).burst, LastBurstCutoff(l, calls), l.burstWindow,
           LastBurst(calls))
  }

  predicate MinuteAgrees(l: Limits, calls: seq<Call>) {
    Tracks(RunWindows(l, calls).minute, RunLog(l, calls).minute, LastMinuteCutoff(l, calls), l.minuteWindow,
           LastMinute(calls))
  }

  predicate FollowsClock(calls: seq<Call>, c: Call) {
    Reached(LastBurst(calls), c.burstNow) && Reached(LastMinute(calls), c.minuteNow)
  }

  function Also(s: seq<Time>, accepted: bool, now: Time): seq<Time> {
    if accepted then s + [now] else s
  }

  /** Pruning, then recording what was accepted, keeps one deque the tail of its log. */
  lemma WindowStep(deque: seq<Time>, log: seq<Time>, cut: Option<Time>, window: Time, last: Option<Time>, now: Time,
                   accepted: bool)
    requires window > 0.0 && Tracks(deque, log, cut, window, last) && Reached(last, now)
    ensures Tracks(Also(Pruned(deque, now - window), accepted, now), Also(log, accepted, now), Some(now - window),
                   window, Some(now))
  {
    TracksPrune(deque, log, cut, window, last, now);
    if accepted {
      TracksAccept(Pruned(deque, now - window), log, window, now);
    }
  }

  /** Deques that agree with the log give the log's verdict, and both change accordingly. */
  lemma SameCall(l: Limits, w: Windows, a: Accepts, c: Call)
    requires Pruned(w.burst, c.burstNow - l.burstWindow) == InWindow(a.burst, c.burstNow, l.burstWindow)
    requires Pruned(w.minute, c.minuteNow - l.minuteWindow) == InWindow(a.minute, c.minuteNow, l.minuteWindow)
    ensures
      var (w', verdict) := CallWindows(l, w, c.burstNow, c.minuteNow);
      var (a', logged) := CallLog(l, a, c);
      var ok := verdict == Accepted;
      && verdict == logged
      && w'.burst == Also(Pruned(w.burst, c.burstNow - l.burstWindow), ok, c.burstNow)
      && a'.burst == Also(a.burst, ok, c.burstNow)
      && a'.minute == Also(a.minute, ok, c.minuteNow)
      && (verdict == BurstExceeded ==> w'.minute == w.minute)
      && (verdict != BurstExceeded ==>
          w'.minute == Also(Pruned(w.minute, c.minuteNow - l.minuteWindow), ok, c.minuteNow))
  {
  }

  /** What the next call sees in the deques is what the log holds of its two windows. */
  lemma NextCallSees(l: Limits, calls: seq<Call>, c: Call)
    requires Agrees(l, calls) && FollowsClock(calls, c)
    ensures Pruned(RunWindows(l, calls).burst, c.burstNow - l.burstWindow) ==
            InWindow(RunLog(l, calls).burst, c.burstNow, l.burstWindow)
    ensures Pruned(RunWindows(l, calls).minute, c.minuteNow - l.minuteWindow) ==
            InWindow(RunLog(l, calls).minute, c.minuteNow, l.minuteWindow)
  {
    var a, w := RunLog(l, calls), RunWindows(l, calls);
    TracksPrune(w.burst, a.burst, LastBurstCutoff(l, calls), l.burstWindow, LastBurst(calls), c.burstNow);
    TracksPrune(w.minute, a.minute, LastMinuteCutoff(l, calls), l.minuteWindow, LastMinute(calls), c.minuteNow);
  }

  lemma BurstStep(l: Limits, front: seq<Call>, c: Call)
    requires LimitsOk(l) && Agrees(l, front) && FollowsClock(front, c)
    ensures BurstAgrees(l, front + [c])
  {
    var a, w := RunLog(l, front), RunWindows(l, front);
    NextCallSees(l, front, c);
    SameCall(l, w, a, c);
    WindowStep(w.burst, a.burst, LastBurstCutoff(l, front), l.burstWindow, LastBurst(front), c.burstNow,
               CallLog(l, a, c).1 == Accepted);
    UnfoldLast(l, front, c);
  }

  // A call the burst window stops never reaches the minute window.
  lemma MinuteIdle(l: Limits, front: seq<Call>, c: Call)
    requires LimitsOk(l) && Agrees(l, front) && FollowsClock(front, c)
    requires CallLog(l, RunLog(l, front), c).1 == BurstExceeded
    ensures MinuteAgrees(l, front + [c])
  {
    var a, w := RunLog(l, front), RunWindows(l, front);
    NextCallSees(l, front, c);
    SameCall(l, w, a, c);
    TracksLater(w.minute, a.minute, LastMinuteCutoff(l, front), l.minuteWindow, LastMinute(front), c.minuteNow);
    UnfoldLast(l, front, c);
  }

  lemma MinuteBusy(l: Limits, front: seq<Call>, c: Call)
    requires LimitsOk(l) && Agrees(l, front) && FollowsClock(front, c)
    requires CallLog(l, RunLog(l, front), c).1 != BurstExceeded
    ensures MinuteAgrees(l, front + [c])
  {
    hide RunLog, RunWindows, LastBurstCutoff, LastMinuteCutoff, LastBurst, LastMinute;
    var a, w := RunLog(l, front), RunWindows(l, front);
    NextCallSees(l, front, c);
    SameCall(l, w, a, c);
    WindowStep(w.minute, a.minute, LastMinuteCutoff(l, front), l.minuteWindow, LastMinute(front), c.minuteNow,
               CallLog(l, a, c).1 == Accepted);
    UnfoldLast(l, front, c);
  }

  lemma UnfoldLast(l: Limits, front: seq<Call>, c: Call)
    ensures var calls := front + [c];
      && RunWindows(l, calls) == CallWindows(l, RunWindows(l, front), c.burstNow, c.minuteNow).0
      && RunLog(l, calls) == CallLog(l, RunLog(l, front), c).0
      && LastBurstCutoff(l, calls) == Some(c.burstNow - l.burstWindow)
      && LastMinuteCutoff(l, calls) ==
          (if CallLog(l, RunLog(l, front), c).1 == BurstExceeded then LastMinuteCutoff(l, front)
           else Some(c.minuteNow - l.minuteWindow))
      && LastBurst(calls) == Some(c.burstNow) && LastMinute(calls) == Some(c.minuteNow)
  {
    hide CallWindows, CallLog;
    assert (front + [c])[..|front|] == front;
  }

  lemma ClockPrefix(calls: seq<Call>)
    requires calls != [] && ClockRuns(calls)
    ensures ClockRuns(calls[..|calls| - 1]) && FollowsClock(calls[..|calls| - 1], calls[|calls| - 1])
  {
  }

  /** Refinement: each deque is exactly the accepted calls inside its window as of its last prune,
      so a call the minute window rejects leaves nothing in the burst window. */
  lemma {:induction false} DequesAreTheLog(l: Limits, calls: seq<Call>)
    requires LimitsOk(l) && ClockRuns(calls)
    ensures Agrees(l, calls)
  {
    if calls != [] {
      var front, c := calls[..|calls| - 1], calls[|calls| - 1];
      ClockPrefix(calls);
      DequesAreTheLog(l, front);
      BurstStep(l, front, c);
      if CallLog(l, RunLog(l, front), c).1 == BurstExceeded {
        MinuteIdle(l, front, c);
      } else {
        MinuteBusy(l, front, c);
      }
      assert calls == front + [c];
    }
  }

  /** The limiter answers every call as the full log would. */
  lemma SameVerdict(l: Limits, calls: seq<Call>, c: Call)
    requires LimitsOk(l) && ClockRuns(calls + [c])
    ensures CallWindows(l, RunWindows(l, calls), c.burstNow, c.minuteNow).1 == CallLog(l, RunLog(l, calls), c).1
  {
    assert (calls + [c])[..|calls + [c]| - 1] == calls;
    ClockPrefix(calls + [c]);
    DequesAreTheLog(l, calls);
    NextCallSees(l, calls, c);
    SameCall(l, RunWindows(l, calls), RunLog(l, calls), c);
  }

  // ---- The limit itself ----

  function Within(start: Time, end: Time): Time -> bool {
    t => start < t <= end
  }

  /** Accepted calls in the half-open window of the given length ending at `end`. */
  function Span(log: seq<Time>, end: Time, window: Time): seq<Time> {
    Filter(Within(end - window, end), log)
  }

  lemma {:induction false} FilterShorter<T>(p: T -> bool, q: T -> bool, s: seq<T>)
    requires forall x :: x in s && p(x) ==> q(x)
    ensures |Filter(p, s)| <= |Filter(q, s)|
  {
    if s != [] {
      var front := s[..|s| - 1];
      assert forall x :: x in front ==> x in s;
      FilterShorter(p, q, front);
    }
  }

  lemma AcceptKeepsBound(log: seq<Time>, now: Time, window: Time, max: nat, end: Time)
    requires window > 0.0 && AllUpTo(log, now)
    requires |InWindow(log, now, window)| < max
    requires |Span(log, end, window)| <= max
    ensures |Span(log + [now], end, window)| <= max
  {
    FilterSnoc(Within(end - window, end), log, now);
    if now <= end {
      FilterShorter(Within(end - window, end), Later(now - window), log);
    }
  }

  /** Over any run with a nondecreasing clock, every half-open window of each length holds at most
      its limit of accepted calls, wherever the window ends. */
  lemma {:induction false} TwoWindowLimit(l: Limits, calls: seq<Call>, end: Time)
    requires LimitsOk(l) && ClockRuns(calls)
    ensures |Span(RunLog(l, calls).burst, end, l.burstWindow)| <= l.burstMax
    ensures |Span(RunLog(l, calls).minute, end, l.minuteWindow)| <= l.minuteMax
  {
    if calls != [] {
      var front, c := calls[..|calls| - 1], calls[|calls| - 1];
      ClockPrefix(calls);
      TwoWindowLimit(l, front, end);
      DequesAreTheLog(l, front);
      var a := RunLog(l, front);
      if CallLog(l, a, c).1 == Accepted {
        AcceptKeepsBound(a.burst, c.burstNow, l.burstWindow, l.burstMax, end);
        AcceptKeepsBound(a.minute, c.minuteNow, l.minuteWindow, l.minuteMax, end);
      }
    }
  }
}
