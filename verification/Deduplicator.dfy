/** Dropping superseded file events before a snapshot (`snapshot/deduplicator.py`). */
module Deduplicator {
  import opened Wrappers
  import opened Json
  import opened Events
  import opened Sequences

  predicate Churn(e: Event) {
    e.kind == FileModified
  }

  predicate Modifies(e: Event, path: string) {
    Churn(e) && FilePathOf(e) == Some(path)
  }

  /** The event id remembered for each path once the first loop is over. */
  function LastFileEvent(es: seq<Event>): map<string, string> {
    if es == [] then map[]
    else
      var seen, e := LastFileEvent(es[..|es| - 1]), es[|es| - 1];
      if Churn(e) && FilePathOf(e).Some? then seen[FilePathOf(e).value := e.id] else seen
  }

  /** Keep what is not file churn and what some path remembers. */
  function Collapsed(es: seq<Event>): seq<Event> {
    Filter(Retained(LastFileEvent(es).Values), es)
  }

  function Retained(ids: set<string>): Event -> bool {
    e => !Churn(e) || e.id in ids
  }

  method CollapseFileChurn(es: seq<Event>) returns (compressed: seq<Event>)
    ensures compressed == Collapsed(es)
  {
    var lastFileEvent: map<string, string> := map[];
    for i := 0 to |es|
      invariant lastFileEvent == LastFileEvent(es[..i])
    {
      assert es[..i + 1][..i] == es[..i];
      if es[i].kind != FileModified {
        continue;
      }
      var path := FilePathOf(es[i]);
      if path.None? {
        continue;
      }
      lastFileEvent := lastFileEvent[path.value := es[i].id];
    }
    assert es[..|es|] == es;
    var retained := lastFileEvent.Values;
    compressed := [];
    for i := 0 to |es|
      invariant compressed == Filter(Retained(retained), es[..i])
    {
      assert es[..i + 1][..i] == es[..i];
      if es[i].kind != FileModified || es[i].id in retained {
        compressed := compressed + [es[i]];
      }
    }
    assert es[..|es|] == es;
  }

  // ---- Reference form: an event goes when its path is modified again later ----

  function DropPath(es: seq<Event>, path: string): seq<Event> {
    Filter(Leaves(path), es)
  }

  function Leaves(path: string): Event -> bool {
    e => !Modifies(e, path)
  }

  function LastOnly(es: seq<Event>): seq<Event> {
    if es == [] then []
    else
      var kept, e := LastOnly(es[..|es| - 1]), es[|es| - 1];
      if !Churn(e) then kept + [e]
      else
        var path := FilePathOf(e);
        if path.None? then kept else DropPath(kept, path.value) + [e]
  }

  // The remembered id belongs to the last modification of its path.
  lemma {:induction false} RememberedId(es: seq<Event>, path: string)
    ensures path in LastFileEvent(es) ==> exists e :: e in es && Modifies(e, path) && e.id == LastFileEvent(es)[path]
  {
    if es != [] {
      var front, last := es[..|es| - 1], es[|es| - 1];
      RememberedId(front, path);
      assert es == front + [last];
      if path in LastFileEvent(es) && Modifies(last, path) {
        assert last in es;
      } else if path in LastFileEvent(es) {
        var e :| e in front && Modifies(e, path) && e.id == LastFileEvent(front)[path];
        assert e in es;
      }
    }
  }

  lemma SameIdSameEvent(es: seq<Event>, e: Event, f: Event)
    requires DistinctIds(es) && e in es && f in es && e.id == f.id
    ensures e == f
  {
  }

  /** With distinct ids, a file event is retained iff it is the one its own path remembers. */
  lemma RetainedIsRemembered(es: seq<Event>, e: Event)
    requires DistinctIds(es) && e in es && Churn(e)
    ensures e.id in LastFileEvent(es).Values <==>
            FilePathOf(e).Some? && FilePathOf(e).value in LastFileEvent(es) &&
              LastFileEvent(es)[FilePathOf(e).value] == e.id
  {
    if e.id in LastFileEvent(es).Values {
      var path :| path in LastFileEvent(es) && LastFileEvent(es)[path] == e.id;
      RememberedId(es, path);
      var f :| f in es && Modifies(f, path) && f.id == e.id;
      SameIdSameEvent(es, e, f);
    }
  }

  /** The id-based filter is the reference form on every log with distinct ids. */
  lemma {:induction false} CollapseIsLastOnly(es: seq<Event>)
    requires DistinctIds(es)
    ensures Collapsed(es) == LastOnly(es)
  {
    if es != [] {
      var front, e := es[..|es| - 1], es[|es| - 1];
      assert es == front + [e];
      CollapseIsLastOnly(front);
      var before, after := LastFileEvent(front), LastFileEvent(es);
      var keepBefore, keepAfter := Retained(before.Values), Retained(after.Values);
      FilterSnoc(keepAfter, front, e);
      if Churn(e) {
        LastEventRetained(es);
      }
      if Churn(e) && FilePathOf(e).Some? {
        var other := Leaves(FilePathOf(e).value);
        FilterTwice(keepBefore, other, front);
        forall x | x in front ensures keepAfter(x) == Both(keepBefore, other)(x) {
          RetentionStep(front, e, x);
        }
        FilterSame(keepAfter, Both(keepBefore, other), front);
      } else {
        FilterSame(keepAfter, keepBefore, front);
      }
    }
  }

  lemma LastEventRetained(es: seq<Event>)
    requires DistinctIds(es) && es != [] && Churn(es[|es| - 1])
    ensures es[|es| - 1].id in LastFileEvent(es).Values <==> FilePathOf(es[|es| - 1]).Some?
  {
    var e := es[|es| - 1];
    assert e in es;
    RetainedIsRemembered(es, e);
  }

  lemma RetentionStep(front: seq<Event>, e: Event, x: Event)
    requires DistinctIds(front + [e]) && x in front
    requires Churn(e) && FilePathOf(e).Some?
    ensures (!Churn(x) || x.id in LastFileEvent(front + [e]).Values)
         == ((!Churn(x) || x.id in LastFileEvent(front).Values) && !Modifies(x, FilePathOf(e).value))
  {
    var es := front + [e];
    assert es[..|es| - 1] == front;
    assert forall i :: 0 <= i < |front| ==> front[i] == es[i];
    assert x in es && x.id != e.id by {
      var i :| 0 <= i < |front| && front[i] == x;
      assert es[i] == x && es[|es| - 1] == e;
    }
    if Churn(x) {
      RetainedIsRemembered(es, x);
      RetainedIsRemembered(front, x);
    }
  }

  // ---- Compressing again, and page by page ----

  lemma DropTwice(es: seq<Event>, path: string)
    ensures DropPath(DropPath(es, path), path) == DropPath(es, path)
  {
    FilterTwice(Leaves(path), Leaves(path), es);
    FilterSame(Both(Leaves(path), Leaves(path)), Leaves(path), es);
  }

  lemma {:induction false} LastOnlyDrops(es: seq<Event>, path: string)
    ensures LastOnly(DropPath(es, path)) == DropPath(LastOnly(es), path)
  {
    if es != [] {
      var front, e := es[..|es| - 1], es[|es| - 1];
      var kept := LastOnly(front);
      LastOnlyDrops(front, path);
      if Modifies(e, path) {
        assert DropPath(es, path) == DropPath(front, path);
        DropTwice(kept, path);
        FilterSnoc(Leaves(path), DropPath(kept, path), e);
      } else {
        assert DropPath(es, path) == DropPath(front, path) + [e];
        assert (DropPath(front, path) + [e])[..|DropPath(front, path)|] == DropPath(front, path);
        if !Churn(e) {
          FilterSnoc(Leaves(path), kept, e);
        } else if FilePathOf(e).Some? {
          var other := FilePathOf(e).value;
          FilterSwap(Leaves(path), Leaves(other), kept);
          FilterSnoc(Leaves(path), DropPath(kept, other), e);
        }
      }
    }
  }

  lemma {:induction false} LastOnlyIdempotent(es: seq<Event>)
    ensures LastOnly(LastOnly(es)) == LastOnly(es)
  {
    if es != [] {
      var front, e := es[..|es| - 1], es[|es| - 1];
      var kept := LastOnly(front);
      LastOnlyIdempotent(front);
      if !Churn(e) {
        assert (kept + [e])[..|kept|] == kept;
      } else if FilePathOf(e).Some? {
        var path := FilePathOf(e).value;
        var dropped := DropPath(kept, path);
        assert (dropped + [e])[..|dropped|] == dropped;
        LastOnlyDrops(kept, path);
        DropTwice(kept, path);
      }
    }
  }

  lemma {:induction false} LastOnlyExtends(a: seq<Event>, b: seq<Event>)
    ensures LastOnly(LastOnly(a) + b) == LastOnly(a + b)
  {
    if b == [] {
      LastOnlyIdempotent(a);
      assert LastOnly(a) + b == LastOnly(a) && a + b == a;
    } else {
      var front := b[..|b| - 1];
      LastOnlyExtends(a, front);
      assert (LastOnly(a) + b)[..|LastOnly(a) + b| - 1] == LastOnly(a) + front;
      assert (a + b)[..|a + b| - 1] == a + front;
    }
  }

  lemma {:induction false} LastOnlySubset(es: seq<Event>, e: Event)
    requires e in LastOnly(es)
    ensures e in es
  {
    var front, last := es[..|es| - 1], es[|es| - 1];
    assert es == front + [last];
    if e != last {
      if Churn(last) && FilePathOf(last).Some? {
        FilterMember(Leaves(FilePathOf(last).value), LastOnly(front), e);
      }
      LastOnlySubset(front, e);
    }
  }

  lemma DistinctSnoc(s: seq<Event>, e: Event)
    requires DistinctIds(s) && forall x :: x in s ==> x.id != e.id
    ensures DistinctIds(s + [e])
  {
  }

  lemma {:induction false} FilterDistinct(keep: Event -> bool, s: seq<Event>)
    requires DistinctIds(s)
    ensures DistinctIds(Filter(keep, s))
  {
    if s != [] {
      var front, e := s[..|s| - 1], s[|s| - 1];
      FilterDistinct(keep, front);
      forall x | x in Filter(keep, front) ensures x.id != e.id {
        FilterMember(keep, front, x);
        var i :| 0 <= i < |front| && front[i] == x;
        assert s[i] == x;
      }
      DistinctSnoc(Filter(keep, front), e);
    }
  }

  lemma CollapsedDistinct(a: seq<Event>, b: seq<Event>)
    requires DistinctIds(a + b)
    ensures DistinctIds(a) && DistinctIds(LastOnly(a) + b)
  {
    assert forall i :: 0 <= i < |a| ==> a[i] == (a + b)[i];
    assert forall i :: 0 <= i < |b| ==> b[i] == (a + b)[|a| + i];
    CollapseIsLastOnly(a);
    FilterDistinct(Retained(LastFileEvent(a).Values), a);
    var c := LastOnly(a) + b;
    forall i, j | 0 <= i < j < |c| ensures c[i].id != c[j].id {
      if i < |LastOnly(a)| <= j {
        LastOnlySubset(a, c[i]);
        var k :| 0 <= k < |a| && a[k] == c[i];
        assert (a + b)[k] == c[i] && (a + b)[|a| + (j - |LastOnly(a)|)] == c[j];
      } else if |LastOnly(a)| <= i {
        assert c[i] == b[i - |LastOnly(a)|] && c[j] == b[j - |LastOnly(a)|];
      }
    }
  }

  /** Compressing an already compressed prefix together with what follows is compressing the whole. */
  lemma CollapseExtends(a: seq<Event>, b: seq<Event>)
    requires DistinctIds(a + b)
    ensures Collapsed(Collapsed(a) + b) == Collapsed(a + b)
  {
    CollapsedDistinct(a, b);
    CollapseIsLastOnly(a);
    CollapseIsLastOnly(a + b);
    CollapseIsLastOnly(LastOnly(a) + b);
    LastOnlyExtends(a, b);
  }

  /** Compressing twice is compressing once. */
  lemma CollapseIdempotent(es: seq<Event>)
    requires DistinctIds(es)
    ensures Collapsed(Collapsed(es)) == Collapsed(es)
  {
    assert es + [] == es && Collapsed(es) + [] == Collapsed(es);
    CollapseExtends(es, []);
  }

  function CollapsedByPages(pages: seq<seq<Event>>): seq<Event> {
    if pages == [] then [] else Collapsed(CollapsedByPages(pages[..|pages| - 1]) + pages[|pages| - 1])
  }

  /** Compressing page by page, carrying the compressed stream along, is compressing once. */
  lemma {:induction false} CollapsePages(pages: seq<seq<Event>>)
    requires DistinctIds(Flatten(pages))
    ensures CollapsedByPages(pages) == Collapsed(Flatten(pages))
  {
    if pages != [] {
      var front, page := pages[..|pages| - 1], pages[|pages| - 1];
      CollapsedDistinct(Flatten(front), page);
      CollapsePages(front);
      CollapseExtends(Flatten(front), page);
    }
  }
}
