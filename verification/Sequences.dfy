/** Sequence helpers shared by several modules. */
module Sequences {
  function Flatten<T>(pages: seq<seq<T>>): seq<T> {
    if pages == [] then [] else Flatten(pages[..|pages| - 1]) + pages[|pages| - 1]
  }

  lemma FlattenSnoc<T>(pages: seq<seq<T>>, page: seq<T>)
    ensures Flatten(pages + [page]) == Flatten(pages) + page
  {
    assert (pages + [page])[..|pages|] == pages;
  }

  function Filter<T>(keep: T -> bool, s: seq<T>): seq<T> {
    if s == [] then []
    else Filter(keep, s[..|s| - 1]) + (if keep(s[|s| - 1]) then [s[|s| - 1]] else [])
  }

  lemma FilterSnoc<T>(keep: T -> bool, s: seq<T>, x: T)
    ensures Filter(keep, s + [x]) == Filter(keep, s) + (if keep(x) then [x] else [])
  {
    assert (s + [x])[..|s|] == s;
  }

  lemma {:induction false} FilterConcat<T>(keep: T -> bool, a: seq<T>, b: seq<T>)
    ensures Filter(keep, a + b) == Filter(keep, a) + Filter(keep, b)
  {
    if b == [] {
      assert a + b == a;
    } else {
      assert (a + b)[..|a + b| - 1] == a + b[..|b| - 1];
      FilterConcat(keep, a, b[..|b| - 1]);
    }
  }

  lemma {:induction false} FilterMember<T>(keep: T -> bool, s: seq<T>, x: T)
    ensures x in Filter(keep, s) <==> x in s && keep(x)
  {
    if s != [] {
      FilterMember(keep, s[..|s| - 1], x);
      assert s == s[..|s| - 1] + [s[|s| - 1]];
    }
  }

  predicate Every<T>(keep: T -> bool, s: seq<T>) {
    forall i :: 0 <= i < |s| ==> keep(s[i])
  }

  predicate Rejected<T>(keep: T -> bool, s: seq<T>) {
    forall i :: 0 <= i < |s| ==> !keep(s[i])
  }

  lemma {:induction false} FilterEvery<T>(keep: T -> bool, s: seq<T>)
    requires Every(keep, s)
    ensures Filter(keep, s) == s
  {
    if s != [] {
      FilterEvery(keep, s[..|s| - 1]);
    }
  }

  lemma {:induction false} FilterNone<T>(keep: T -> bool, s: seq<T>)
    requires Rejected(keep, s)
    ensures Filter(keep, s) == []
  {
    if s != [] {
      FilterNone(keep, s[..|s| - 1]);
    }
  }

  /** When exactly the rows from `n` on are kept, filtering is slicing. */
  lemma FilterSuffix<T>(keep: T -> bool, s: seq<T>, n: nat)
    requires n <= |s| && Rejected(keep, s[..n]) && Every(keep, s[n..])
    ensures Filter(keep, s) == s[n..]
  {
    assert s == s[..n] + s[n..];
    FilterConcat(keep, s[..n], s[n..]);
    FilterNone(keep, s[..n]);
    FilterEvery(keep, s[n..]);
  }

  lemma {:induction false} FilterSame<T>(p: T -> bool, q: T -> bool, s: seq<T>)
    requires forall x :: x in s ==> p(x) == q(x)
    ensures Filter(p, s) == Filter(q, s)
  {
    if s != [] {
      FilterSame(p, q, s[..|s| - 1]);
    }
  }

  function Both<T>(p: T -> bool, q: T -> bool): T -> bool {
    x => p(x) && q(x)
  }

  lemma {:induction false} FilterTwice<T>(p: T -> bool, q: T -> bool, s: seq<T>)
    ensures Filter(q, Filter(p, s)) == Filter(Both(p, q), s)
  {
    if s != [] {
      var front, x := s[..|s| - 1], s[|s| - 1];
      FilterTwice(p, q, front);
      if p(x) {
        FilterSnoc(q, Filter(p, front), x);
      } else {
        assert Filter(p, s) == Filter(p, front);
      }
    }
  }

  lemma FilterSwap<T>(p: T -> bool, q: T -> bool, s: seq<T>)
    ensures Filter(q, Filter(p, s)) == Filter(p, Filter(q, s))
  {
    FilterTwice(p, q, s);
    FilterTwice(q, p, s);
    FilterSame(Both(p, q), Both(q, p), s);
  }
}
