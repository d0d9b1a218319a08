/** How many accepted calls a closed window can hold (`security/rate_limit.py`). */
module RateWindows {
  import opened Sequences
  import opened RateLimit

  // ---- Ranges of a sorted log ----

  function Between(lo: Time, hi: Time): Time -> bool {
    (t: Time) => lo <= t <= hi
  }

  /** How many stamps at the front are below `lo`. */
  function Below(log: seq<Time>, lo: Time): (n: nat)
    ensures n <= |log|
  {
    if log == [] then 0
    else if log[|log| - 1] < lo then |log|
    else Below(log[..|log| - 1], lo)
  }

  /** How many stamps at the front are at most `hi`. */
  function UpTo(log: seq<Time>, hi: Time): (n: nat)
    ensures n <= |log|
  {
    if log == [] then 0
    else if log[|log| - 1] <= hi then |log|
    else UpTo(log[..|log| - 1], hi)
  }

  lemma {:induction false} BelowSplits(log: seq<Time>, lo: Time, i: nat)
    requires Nondecreasing(log) && i < |log|
    ensures i < Below(log, lo) <==> log[i] < lo
  {
    if log[|log| - 1] >= lo && i < |log| - 1 {
      BelowSplits(log[..|log| - 1], lo, i);
    }
  }

  lemma {:induction false} UpToSplits(log: seq<Time>, hi: Time, i: nat)
    requires Nondecreasing(log) && i < |log|
    ensures i < UpTo(log, hi) <==> log[i] <= hi
  {
    if log[|log| - 1] > hi && i < |log| - 1 {
      UpToSplits(log[..|log| - 1], hi, i);
    }
  }

  /** The stamps of a sorted log inside a closed range are one slice of it. */
  lemma RangeIsSlice(log: seq<Time>, lo: Time, hi: Time)
    requires Nondecreasing(log) && lo <= hi
    ensures Below(log, lo) <= UpTo(log, hi)
    ensures Filter(Between(lo, hi), log) == log[Below(log, lo)..UpTo(log, hi)]
  {
    hide Filter, Below, UpTo;
    var i, j, keep := Below(log, lo), UpTo(log, hi), Between(lo, hi);
    forall k | 0 <= k < |log| ensures (k < i <==> log[k] < lo) && (k < j <==> log[k] <= hi) {
      BelowSplits(log, lo, k);
      UpToSplits(log, hi, k);
    }
    if i > 0 {
      assert log[i - 1] <= hi;
    }
    assert log == log[..i] + log[i..j] + log[j..];
    FilterConcat(keep, log[..i] + log[i..j], log[j..]);
    FilterConcat(keep, log[..i], log[i..j]);
    FilterNone(keep, log[..i]);
    FilterEvery(keep, log[i..j]);
    FilterNone(keep, log[j..]);
  }

  // ---- Spacing ----

  predicate HalfOpenBound(log: seq<Time>, window: Time, max: nat, i: nat)
    requires i < |log|
  {
    |Span(log, log[i], window)| <= max
  }

  /** Any `max + 1` consecutive accepted calls take at least a window. */
  predicate Spaced(log: seq<Time>, window: Time, max: nat) {
    forall i: nat, j: nat :: i + max == j < |log| ==> log[i] + window <= log[j]
  }

  lemma {:induction false} SliceIsCounted(keep: Time -> bool, log: seq<Time>, i: nat, j: nat)
    requires i <= j <= |log| && Every(keep, log[i..j])
    ensures |Filter(keep, log)| >= j - i
  {
    assert log == log[..i] + log[i..j] + log[j..];
    FilterConcat(keep, log[..i] + log[i..j], log[j..]);
    FilterConcat(keep, log[..i], log[i..j]);
    FilterEvery(keep, log[i..j]);
  }

  lemma BoundSpaces(log: seq<Time>, window: Time, max: nat)
    requires Nondecreasing(log) && window > 0.0
    requires forall i :: 0 <= i < |log| ==> HalfOpenBound(log, window, max, i)
    ensures Spaced(log, window, max)
  {
    hide Filter;
    forall i: nat, j: nat | i + max == j < |log| ensures log[i] + window <= log[j] {
      assert HalfOpenBound(log, window, max, j);
      if log[i] > log[j] - window {
        var keep := Within(log[j] - window, log[j]);
        forall k | i <= k < j + 1 ensures keep(log[k]) {
          assert log[i] <= log[k] && log[k] <= log[j];
        }
        assert Every(keep, log[i..j + 1]);
        SliceIsCounted(keep, log, i, j + 1);
      }
    }
  }

  // ---- Closed windows ----

  /** Accepted calls in the closed window of the given length starting at `start`. */
  function ClosedSpan(log: seq<Time>, start: Time, window: Time): seq<Time> {
    Filter(Between(start, start + window), log)
  }

  /** Two accepted calls `max` places apart in the log stand exactly one window apart in time. */
  predicate ExactlyApart(log: seq<Time>, window: Time, max: nat) {
    exists i: nat, j: nat :: i + max == j < |log| && log[j] == log[i] + window
  }

  lemma ClosedAtMostTwice(log: seq<Time>, window: Time, max: nat, start: Time)
    requires Nondecreasing(log) && Spaced(log, window, max) && window > 0.0 && max >= 1
    ensures |ClosedSpan(log, start, window)| <= 2 * max
    ensures |ClosedSpan(log, start, window)| > max ==> ExactlyApart(log, window, max)
  {
    hide Filter, Below, UpTo;
    var i, j := Below(log, start), UpTo(log, start + window);
    RangeIsSlice(log, start, start + window);
    if j > i + max {
      BelowSplits(log, start, i);
      UpToSplits(log, start + window, i + max);
      assert log[i + max] == log[i] + window;
      if i + 2 * max < |log| {
        UpToSplits(log, start + window, i + 2 * max);
        assert log[i + max] + window <= log[i + max + max];
      }
    }
  }

  lemma ApartFillsClosed(log: seq<Time>, window: Time, max: nat) returns (start: Time)
    requires Nondecreasing(log) && window > 0.0 && ExactlyApart(log, window, max)
    ensures |ClosedSpan(log, start, window)| > max
  {
    hide Filter;
    var i: nat, j: nat :| i + max == j < |log| && log[j] == log[i] + window;
    start := log[i];
    var keep := Between(start, start + window);
    forall k | i <= k < j + 1 ensures keep(log[k]) {
      assert log[i] <= log[k] && log[k] <= log[j];
    }
    SliceIsCounted(keep, log, i, j + 1);
  }

  ghost predicate ClosedBound(log: seq<Time>, window: Time, max: nat) {
    forall start: Time :: |ClosedSpan(log, start, window)| <= max
  }

  lemma ClosedExact(log: seq<Time>, window: Time, max: nat)
    requires Nondecreasing(log) && Spaced(log, window, max) && window > 0.0 && max >= 1
    ensures ClosedBound(log, window, max) <==> !ExactlyApart(log, window, max)
    ensures forall start: Time :: |ClosedSpan(log, start, window)| <= 2 * max
  {
    hide ClosedSpan, ExactlyApart;
    forall start: Time
      ensures |ClosedSpan(log, start, window)| <= 2 * max
      ensures |ClosedSpan(log, start, window)| > max ==> ExactlyApart(log, window, max)
    {
      ClosedAtMostTwice(log, window, max, start);
    }
    if ExactlyApart(log, window, max) {
      var start := ApartFillsClosed(log, window, max);
      assert |ClosedSpan(log, start, window)| > max;
    }
  }

  lemma RunSpaced(l: Limits, calls: seq<Call>)
    requires LimitsOk(l) && ClockRuns(calls)
    ensures
      var a := RunLog(l, calls);
      && Nondecreasing(a.burst) && Spaced(a.burst, l.burstWindow, l.burstMax)
      && Nondecreasing(a.minute) && Spaced(a.minute, l.minuteWindow, l.minuteMax)
  {
    hide RunLog, Filter;
    var a := RunLog(l, calls);
    DequesAreTheLog(l, calls);
    forall i | 0 <= i < |a.burst| ensures HalfOpenBound(a.burst, l.burstWindow, l.burstMax, i) {
      TwoWindowLimit(l, calls, a.burst[i]);
    }
    forall i | 0 <= i < |a.minute| ensures HalfOpenBound(a.minute, l.minuteWindow, l.minuteMax, i) {
      TwoWindowLimit(l, calls, a.minute[i]);
    }
    BoundSpaces(a.burst, l.burstWindow, l.burstMax);
    BoundSpaces(a.minute, l.minuteWindow, l.minuteMax);
  }

  /** Over any run with a nondecreasing clock, every closed window of either length keeps its limit if and
      only if no two accepted calls `max` places apart stand exactly that length apart; and no closed window
      ever holds more than twice its limit. */
  lemma ClosedWindows(l: Limits, calls: seq<Call>)
    requires LimitsOk(l) && ClockRuns(calls)
    ensures
      var a := RunLog(l, calls);
      && (ClosedBound(a.burst, l.burstWindow, l.burstMax) <==> !ExactlyApart(a.burst, l.burstWindow, l.burstMax))
      && (ClosedBound(a.minute, l.minuteWindow, l.minuteMax) <==> !ExactlyApart(a.minute, l.minuteWindow, l.minuteMax))
      && (forall start: Time :: |ClosedSpan(a.burst, start, l.burstWindow)| <= 2 * l.burstMax)
      && (forall start: Time :: |ClosedSpan(a.minute, start, l.minuteWindow)| <= 2 * l.minuteMax)
  {
    hide RunLog, ClosedSpan, ExactlyApart, ClosedBound;
    RunSpaced(l, calls);
    ClosedExact(RunLog(l, calls).burst, l.burstWindow, l.burstMax);
    ClosedExact(RunLog(l, calls).minute, l.minuteWindow, l.minuteMax);
  }

  // ---- Twice the limit is reached ----

  function Times(t: Time, n: nat): seq<Time> {
    if n == 0 then [] else Times(t, n - 1) + [t]
  }

  /** `m` calls at once and, one window later, `n` more. */
  function TwoBursts(later: Time, m: nat, n: nat): seq<Call> {
    if n > 0 then TwoBursts(later, m, n - 1) + [Call(later, later)]
    else if m > 0 then TwoBursts(later, m - 1, 0) + [Call(0.0, 0.0)]
    else []
  }

  lemma {:induction false} TimesCount(keep: Time -> bool, t: Time, n: nat)
    ensures |Times(t, n)| == n && Filter(keep, Times(t, n)) == if keep(t) then Times(t, n) else []
  {
    if n > 0 {
      TimesCount(keep, t, n - 1);
      FilterSnoc(keep, Times(t, n - 1), t);
    }
  }

  lemma BurstsCount(keep: Time -> bool, later: Time, m: nat, n: nat)
    ensures
      var log := Times(0.0, m) + Times(later, n);
      && |log| == m + n
      && |Filter(keep, log)| == (if keep(0.0) then m else 0) + (if keep(later) then n else 0)
  {
    TimesCount(keep, 0.0, m);
    TimesCount(keep, later, n);
    FilterConcat(keep, Times(0.0, m), Times(later, n));
  }

  lemma OneMorePasses(l: Limits, t: Time, m: nat, n: nat)
    requires LimitsOk(l) && l.minuteMax >= 2 * l.burstMax && m + n < l.minuteMax
    requires (if t > 0.0 then n else m + n) < l.burstMax && (t == 0.0 || t == l.burstWindow) && (t == 0.0 ==> n == 0)
    ensures
      var log := Times(0.0, m) + Times(l.burstWindow, n);
      CallLog(l, Accepts(log, log), Call(t, t)) == (Accepts(log + [t], log + [t]), Accepted)
  {
    hide Filter, Times;
    BurstsCount(Later(t - l.burstWindow), l.burstWindow, m, n);
    BurstsCount(Later(t - l.minuteWindow), l.burstWindow, m, n);
  }

  lemma {:induction false} TwoBurstsPass(l: Limits, m: nat, n: nat)
    requires LimitsOk(l) && l.minuteMax >= 2 * l.burstMax
    requires m <= l.burstMax && n <= l.burstMax
    ensures
      var log := Times(0.0, m) + Times(l.burstWindow, n);
      RunLog(l, TwoBursts(l.burstWindow, m, n)) == Accepts(log, log)
    decreases m + n
  {
    hide CallLog;
    var w := l.burstWindow;
    if n > 0 {
      var front := TwoBursts(w, m, n - 1);
      TwoBurstsPass(l, m, n - 1);
      OneMorePasses(l, w, m, n - 1);
      assert (front + [Call(w, w)])[..|front|] == front;
      assert Times(0.0, m) + Times(w, n - 1) + [w] == Times(0.0, m) + Times(w, n);
    } else if m > 0 {
      var front := TwoBursts(w, m - 1, 0);
      TwoBurstsPass(l, m - 1, 0);
      OneMorePasses(l, 0.0, m - 1, 0);
      assert (front + [Call(0.0, 0.0)])[..|front|] == front;
      assert Times(0.0, m - 1) + Times(w, 0) + [0.0] == Times(0.0, m) + Times(w, 0);
    } else {
      assert Times(0.0, 0) + Times(w, 0) == [];
    }
  }

  /** Twice the limit is reached under every burst limit the minute limit leaves room for: a full burst and
      another exactly one window later all pass. */
  lemma ClosedWindowCanHoldMore(l: Limits)
    requires LimitsOk(l) && l.minuteMax >= 2 * l.burstMax
    ensures
      var log := RunLog(l, TwoBursts(l.burstWindow, l.burstMax, l.burstMax)).burst;
      |ClosedSpan(log, 0.0, l.burstWindow)| == 2 * l.burstMax
  {
    hide Filter, RunLog;
    TwoBurstsPass(l, l.burstMax, l.burstMax);
    BurstsCount(Between(0.0, 0.0 + l.burstWindow), l.burstWindow, l.burstMax, l.burstMax);
  }
}
