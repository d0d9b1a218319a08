/** A snapshot is stored with sorted keys; what `ProjectState.from_dict` rebuilds from it. */
module SnapshotReload {
  import opened Wrappers
  import opened Json
  import opened OrderedDict
  import opened StateMachine
  import opened StateEngine
  import opened ReplayProofs

  /** The stored references: the same pairs in whatever order serialisation left them. */
  ghost predicate Stores(stored: Dict<string, string>, refs: Dict<string, string>) {
    DistinctKeys(stored) && multiset(stored) == multiset(refs)
  }

  /** Keys carrying one label, in order. */
  function KeysOf(d: Dict<string, string>, title: string): seq<string> {
    if d == [] then []
    else (if d[0].1 == title then [d[0].0] else []) + KeysOf(d[1..], title)
  }

  lemma KeysOfMember(d: Dict<string, string>, title: string, k: string)
    ensures k in KeysOf(d, title) <==> (k, title) in d
  {
    if d != [] {
      KeysOfMember(d[1..], title, k);
      assert d == [d[0]] + d[1..];
    }
  }

  lemma KeysOfDistinct(d: Dict<string, string>, title: string)
    requires DistinctKeys(d)
    ensures NoDuplicates(KeysOf(d, title))
  {
    if d != [] {
      KeysOfDistinct(d[1..], title);
      if d[0].1 == title {
        forall j | 0 <= j < |KeysOf(d[1..], title)| ensures KeysOf(d[1..], title)[j] != d[0].0 {
          var k := KeysOf(d[1..], title)[j];
          KeysOfMember(d[1..], title, k);
          var i :| 0 <= i < |d[1..]| && d[1..][i] == (k, title);
          assert d[i + 1] == (k, title);
        }
      }
    }
  }

  lemma KeysOfConcat(a: Dict<string, string>, b: Dict<string, string>, title: string)
    ensures KeysOf(a + b, title) == KeysOf(a, title) + KeysOf(b, title)
  {
    if a == [] {
      assert a + b == b;
    } else {
      assert (a + b)[1..] == a[1..] + b;
      KeysOfConcat(a[1..], b, title);
    }
  }

  lemma KeysOfLength(a: Dict<string, string>, b: Dict<string, string>, title: string)
    requires Values(a) == Values(b)
    ensures |KeysOf(a, title)| == |KeysOf(b, title)|
  {
    if a != [] {
      assert Values(a)[0] == a[0].1 && Values(b)[0] == b[0].1;
      assert Values(a[1..]) == Values(a)[1..] == Values(b)[1..] == Values(b[1..]);
      KeysOfLength(a[1..], b[1..], title);
    }
  }

  lemma {:induction false} DistinctLength<T>(s: seq<T>)
    requires NoDuplicates(s)
    ensures |set x | x in s| == |s|
  {
    if s != [] {
      var front, last := s[..|s| - 1], s[|s| - 1];
      DistinctLength(front);
      assert s == front + [last];
      assert (set x | x in s) == (set x | x in front) + {last};
    }
  }

  lemma SameElementsSameLength<T>(a: seq<T>, b: seq<T>)
    requires NoDuplicates(a) && NoDuplicates(b)
    requires forall x :: x in a <==> x in b
    ensures |a| == |b|
  {
    DistinctLength(a);
    DistinctLength(b);
    assert (set x | x in a) == (set x | x in b);
  }

  /** Storing permutes the keys of each label among themselves and loses none. */
  lemma StoredKeyCount(stored: Dict<string, string>, refs: Dict<string, string>, title: string)
    requires DistinctKeys(refs) && Stores(stored, refs)
    ensures |KeysOf(stored, title)| == |KeysOf(refs, title)|
  {
    KeysOfDistinct(stored, title);
    KeysOfDistinct(refs, title);
    forall x ensures x in KeysOf(stored, title) <==> x in KeysOf(refs, title) {
      KeysOfMember(stored, title, x);
      KeysOfMember(refs, title, x);
      assert (x, title) in stored <==> (x, title) in multiset(stored);
      assert (x, title) in refs <==> (x, title) in multiset(refs);
    }
    SameElementsSameLength(KeysOf(stored, title), KeysOf(refs, title));
  }

  lemma FirstFreeIsNext(stored: Dict<string, string>, title: string, refs: Dict<string, string>, taken: nat)
    requires taken < |KeysOf(stored, title)|
    requires forall j :: 0 <= j < taken ==> HasKey(refs, KeysOf(stored, title)[j])
    requires !HasKey(refs, KeysOf(stored, title)[taken])
    ensures FirstFree(stored, title, refs) == Some(KeysOf(stored, title)[taken])
  {
    var rest := KeysOf(stored[1..], title);
    if stored[0].1 == title {
      assert KeysOf(stored, title) == [stored[0].0] + rest;
      if taken > 0 {
        assert HasKey(refs, KeysOf(stored, title)[0]);
        forall j | 0 <= j < taken - 1 ensures HasKey(refs, rest[j]) {
          assert rest[j] == KeysOf(stored, title)[j + 1];
        }
        FirstFreeIsNext(stored[1..], title, refs, taken - 1);
      }
    } else {
      assert KeysOf(stored, title) == rest;
      FirstFreeIsNext(stored[1..], title, refs, taken);
    }
  }

  /** Progress of relinking: the labels seen so far, each label's keys handed out in stored order. */
  ghost predicate Linked(refs: Dict<string, string>, tasks: seq<string>, stored: Dict<string, string>) {
    && DistinctKeys(refs)
    && Values(refs) == tasks
    && forall title :: KeysOf(refs, title) <= KeysOf(stored, title)
  }

  lemma OneValuePerKey(d: Dict<string, string>, key: string, a: string, b: string)
    requires DistinctKeys(d) && (key, a) in d && (key, b) in d
    ensures a == b
  {
  }

  lemma UntakenKey(refs: Dict<string, string>, stored: Dict<string, string>, title: string)
    requires DistinctKeys(stored)
    requires forall t :: KeysOf(refs, t) <= KeysOf(stored, t)
    requires |KeysOf(refs, title)| < |KeysOf(stored, title)|
    ensures FirstFree(stored, title, refs) == Some(KeysOf(stored, title)[|KeysOf(refs, title)|])
    ensures !HasKey(refs, KeysOf(stored, title)[|KeysOf(refs, title)|])
  {
    var all, taken := KeysOf(stored, title), |KeysOf(refs, title)|;
    var key := all[taken];
    KeysOfDistinct(stored, title);
    assert KeysOf(refs, title) <= all;
    KeysOfMember(stored, title, key);
    forall i | 0 <= i < |refs| ensures refs[i].0 != key {
      var other := refs[i].1;
      KeysOfMember(refs, other, refs[i].0);
      assert KeysOf(refs, other) <= KeysOf(stored, other);
      KeysOfMember(stored, other, refs[i].0);
      if refs[i].0 == key {
        OneValuePerKey(stored, key, title, other);
      }
      assert other == title ==> refs[i].0 in all[..taken];
    }
    forall j | 0 <= j < taken ensures HasKey(refs, all[j]) {
      assert all[j] == KeysOf(refs, title)[j];
      KeysOfMember(refs, title, all[j]);
    }
    FirstFreeIsNext(stored, title, refs, taken);
  }

  lemma LabelNotExhausted(refs: Dict<string, string>, original: Dict<string, string>, i: nat)
    requires i < |original|
    requires Values(refs) == Values(original)[..i]
    ensures |KeysOf(refs, original[i].1)| < |KeysOf(original, original[i].1)|
  {
    var title := original[i].1;
    assert Values(original[..i]) == Values(original)[..i];
    KeysOfLength(refs, original[..i], title);
    assert original == original[..i] + original[i..];
    KeysOfConcat(original[..i], original[i..], title);
    assert original[i] in original[i..];
    KeysOfMember(original[i..], title, original[i].0);
  }

  lemma {:induction false} RelinkProgress(norm: Normalizer, s: ProjectState, stored: Dict<string, string>, i: nat)
    requires WellFormed(s) && Stores(stored, s.openTaskRefs)
    requires i <= |s.openTasks|
    ensures Linked(Relink(norm, s.openTasks[..i], stored), s.openTasks[..i], stored)
  {
    if i > 0 {
      RelinkProgress(norm, s, stored, i - 1);
      var tasks := s.openTasks[..i];
      assert tasks[..i - 1] == s.openTasks[..i - 1];
      RelinkStep(norm, s, stored, i - 1, Relink(norm, s.openTasks[..i - 1], stored));
    }
  }

  lemma RelinkStep(norm: Normalizer, s: ProjectState, stored: Dict<string, string>, i: nat, refs: Dict<string, string>)
    requires WellFormed(s) && Stores(stored, s.openTaskRefs)
    requires i < |s.openTasks| && Linked(refs, s.openTasks[..i], stored)
    ensures Linked(Put(refs, RelinkedKey(norm, stored, s.openTasks[i], refs), s.openTasks[i]), s.openTasks[..i + 1],
                   stored)
  {
    hide FirstFree, Put;
    var title := s.openTasks[i];
    assert title == s.openTaskRefs[i].1;
    LabelNotExhausted(refs, s.openTaskRefs, i);
    StoredKeyCount(stored, s.openTaskRefs, title);
    UntakenKey(refs, stored, title);
    var key := KeysOf(stored, title)[|KeysOf(refs, title)|];
    NonEmptyKey(s, stored, key, title);
    LinkOne(refs, s.openTasks[..i], stored, key, title);
    assert s.openTasks[..i + 1] == s.openTasks[..i] + [title];
  }

  lemma PrefixGrows<T>(short: seq<T>, long: seq<T>)
    requires short <= long && |short| < |long|
    ensures short + [long[|short|]] <= long
  {
  }

  lemma LinkOne(refs: Dict<string, string>, tasks: seq<string>, stored: Dict<string, string>, key: string,
                title: string)
    requires Linked(refs, tasks, stored) && !HasKey(refs, key)
    requires |KeysOf(refs, title)| < |KeysOf(stored, title)| && key == KeysOf(stored, title)[|KeysOf(refs, title)|]
    ensures Linked(Put(refs, key, title), tasks + [title], stored)
  {
    var next := Put(refs, key, title);
    assert next == refs + [(key, title)];
    assert Values(next) == Values(refs) + [title];
    forall t ensures KeysOf(next, t) <= KeysOf(stored, t) {
      KeysOfConcat(refs, [(key, title)], t);
      assert KeysOf(refs, t) <= KeysOf(stored, t);
      if t == title {
        PrefixGrows(KeysOf(refs, t), KeysOf(stored, t));
      }
    }
  }

  lemma NonEmptyKey(s: ProjectState, stored: Dict<string, string>, key: string, title: string)
    requires WellFormed(s) && Stores(stored, s.openTaskRefs)
    requires key in KeysOf(stored, title)
    ensures key != ""
  {
    KeysOfMember(stored, title, key);
    assert (key, title) in multiset(stored);
    assert (key, title) in s.openTaskRefs;
  }

  lemma FillNothing(refs: Dict<string, string>, stored: Dict<string, string>)
    requires forall i :: 0 <= i < |stored| ==> HasKey(refs, stored[i].0)
    ensures FillMissing(refs, stored) == refs
  {
    if stored != [] {
      FillNothing(refs, stored[..|stored| - 1]);
    }
  }

  /** Reloading hands each label's keys out in stored order, along the original list of labels. */
  lemma ReloadKeepsLabels(norm: Normalizer, s: ProjectState, stored: Dict<string, string>)
    requires WellFormed(s) && Stores(stored, s.openTaskRefs)
    ensures var r := FromDict(norm, s.(openTaskRefs := stored));
      && r == s.(openTaskRefs := r.openTaskRefs)
      && DistinctKeys(r.openTaskRefs)
      && Values(r.openTaskRefs) == s.openTasks
      && forall title :: KeysOf(r.openTaskRefs, title) == KeysOf(stored, title)
  {
    var refs := Relink(norm, s.openTasks, stored);
    assert s.openTasks[..|s.openTasks|] == s.openTasks;
    RelinkProgress(norm, s, stored, |s.openTasks|);
    forall title ensures KeysOf(refs, title) == KeysOf(stored, title) {
      KeysOfLength(refs, s.openTaskRefs, title);
      StoredKeyCount(stored, s.openTaskRefs, title);
      assert KeysOf(refs, title) <= KeysOf(stored, title);
    }
    forall i | 0 <= i < |stored| ensures HasKey(refs, stored[i].0) {
      KeysOfMember(stored, stored[i].1, stored[i].0);
      assert KeysOf(refs, stored[i].1) == KeysOf(stored, stored[i].1);
      KeysOfMember(refs, stored[i].1, stored[i].0);
    }
    FillNothing(refs, stored);
  }

  lemma {:induction false} LabelsDetermine(a: Dict<string, string>, b: Dict<string, string>)
    requires Values(a) == Values(b)
    requires forall title :: KeysOf(a, title) == KeysOf(b, title)
    ensures a == b
  {
    if a != [] {
      assert Values(a)[0] == a[0].1 && Values(b)[0] == b[0].1;
      assert KeysOf(a, a[0].1)[0] == a[0].0 && KeysOf(b, b[0].1)[0] == b[0].0;
      assert Values(a[1..]) == Values(a)[1..] == Values(b)[1..] == Values(b[1..]);
      forall title ensures KeysOf(a[1..], title) == KeysOf(b[1..], title) {
        var ka, kb := KeysOf(a, title), KeysOf(b, title);
        assert ka == kb;
        if a[0].1 == title {
          assert ka == [a[0].0] + KeysOf(a[1..], title);
          assert kb == [b[0].0] + KeysOf(b[1..], title);
          assert KeysOf(a[1..], title) == ka[1..];
        } else {
          assert ka == KeysOf(a[1..], title);
          assert kb == KeysOf(b[1..], title);
        }
      }
      LabelsDetermine(a[1..], b[1..]);
      assert a == [a[0]] + a[1..] && b == [b[0]] + b[1..];
    }
  }

  /** The reloaded references are the same id-to-label map. */
  lemma ReloadSameMap(norm: Normalizer, s: ProjectState, stored: Dict<string, string>)
    requires WellFormed(s) && Stores(stored, s.openTaskRefs)
    ensures var r := FromDict(norm, s.(openTaskRefs := stored));
      && WellFormed(r)
      && (forall key, title :: (key, title) in r.openTaskRefs <==> (key, title) in s.openTaskRefs)
      && |r.openTaskRefs| == |s.openTaskRefs|
  {
    ReloadKeepsLabels(norm, s, stored);
    var r := FromDict(norm, s.(openTaskRefs := stored)).openTaskRefs;
    forall key, title ensures (key, title) in r <==> (key, title) in s.openTaskRefs {
      KeysOfMember(r, title, key);
      KeysOfMember(stored, title, key);
      assert KeysOf(r, title) == KeysOf(stored, title);
      assert (key, title) in stored <==> (key, title) in multiset(stored);
      assert (key, title) in s.openTaskRefs <==> (key, title) in multiset(s.openTaskRefs);
    }
    forall i | 0 <= i < |r| ensures r[i].0 != "" {
      assert (r[i].0, r[i].1) in r;
      assert (r[i].0, r[i].1) in s.openTaskRefs;
    }
  }

  /** Serialisation left the keys of every label in their original relative order. */
  ghost predicate KeepsLabelOrder(stored: Dict<string, string>, refs: Dict<string, string>) {
    forall title :: KeysOf(stored, title) == KeysOf(refs, title)
  }

  /** The exact state comes back if and only if storing kept each label's keys in order. */
  lemma ReloadExact(norm: Normalizer, s: ProjectState, stored: Dict<string, string>)
    requires WellFormed(s) && Stores(stored, s.openTaskRefs)
    ensures FromDict(norm, s.(openTaskRefs := stored)) == s <==> KeepsLabelOrder(stored, s.openTaskRefs)
  {
    ReloadKeepsLabels(norm, s, stored);
    var r := FromDict(norm, s.(openTaskRefs := stored));
    if KeepsLabelOrder(stored, s.openTaskRefs) {
      forall title ensures KeysOf(r.openTaskRefs, title) == KeysOf(s.openTaskRefs, title) {
        assert KeysOf(stored, title) == KeysOf(s.openTaskRefs, title);
      }
      LabelsDetermine(r.openTaskRefs, s.openTaskRefs);
    }
    if r == s {
      forall title ensures KeysOf(stored, title) == KeysOf(s.openTaskRefs, title) {
      }
    }
  }

  /** An unpermuted snapshot reloads exactly. */
  lemma ReloadUnpermuted(norm: Normalizer, s: ProjectState)
    requires WellFormed(s)
    ensures FromDict(norm, s) == s
  {
    ReloadExact(norm, s, s.openTaskRefs);
    assert s.(openTaskRefs := s.openTaskRefs) == s;
  }

  /** With distinct open labels no order of the stored keys matters. */
  lemma ReloadDistinctLabels(norm: Normalizer, s: ProjectState, stored: Dict<string, string>)
    requires WellFormed(s) && Stores(stored, s.openTaskRefs)
    requires NoDuplicates(s.openTasks)
    ensures FromDict(norm, s.(openTaskRefs := stored)) == s
  {
    forall title ensures KeysOf(stored, title) == KeysOf(s.openTaskRefs, title) {
      StoredKeyCount(stored, s.openTaskRefs, title);
      AtMostOneKey(s.openTaskRefs, title);
      if KeysOf(stored, title) != [] {
        var k := KeysOf(stored, title)[0];
        KeysOfMember(stored, title, k);
        assert (k, title) in multiset(stored);
        KeysOfMember(s.openTaskRefs, title, k);
      }
    }
    ReloadExact(norm, s, stored);
  }

  lemma {:induction false} KeysOfNone(d: Dict<string, string>, title: string)
    requires forall i :: 0 <= i < |d| ==> d[i].1 != title
    ensures KeysOf(d, title) == []
  {
    if d != [] {
      KeysOfNone(d[1..], title);
    }
  }

  lemma AtMostOneKey(d: Dict<string, string>, title: string)
    requires NoDuplicates(Values(d))
    ensures |KeysOf(d, title)| <= 1
  {
    if d != [] {
      assert forall i :: 0 <= i < |d[1..]| ==> Values(d[1..])[i] == Values(d)[i + 1];
      AtMostOneKey(d[1..], title);
      if d[0].1 == title {
        forall i | 0 <= i < |d[1..]| ensures d[1..][i].1 != title {
          assert Values(d)[0] != Values(d)[i + 1];
        }
        KeysOfNone(d[1..], title);
      }
    }
  }

  // ---- Labels without a stored reference ----

  lemma FreeKeyIsStored(stored: Dict<string, string>, task: string, refs: Dict<string, string>)
    ensures
      var free := FirstFree(stored, task, refs);
      && (free.Some? ==> (free.value, task) in stored && !HasKey(refs, free.value))
      && (free.None? ==> forall p :: p in stored && p.1 == task ==> HasKey(refs, p.0))
  {
    if stored != [] {
      FreeKeyIsStored(stored[1..], task, refs);
      assert stored == [stored[0]] + stored[1..];
    }
  }

  /** What any list of labels is linked to, whatever is stored: a stored reference of that label, or the label's
      legacy key where no stored one is left; never the empty key. */
  lemma {:induction false} RelinkedIs(norm: Normalizer, tasks: seq<string>, stored: Dict<string, string>,
                                      p: (string, string))
    requires p in Relink(norm, tasks, stored)
    ensures p.1 in tasks && p.0 != "" && (p in stored || p.0 == "legacy:" + norm(p.1))
  {
    if tasks != [] {
      var front, task := tasks[..|tasks| - 1], tasks[|tasks| - 1];
      var refs := Relink(norm, front, stored);
      assert tasks == front + [task];
      FreeKeyIsStored(stored, task, refs);
      if p in refs {
        RelinkedIs(norm, front, stored, p);
      }
    }
  }

  predicate ListsAlike(norm: Normalizer, tasks: seq<string>, title: string) {
    exists i :: 0 <= i < |tasks| && norm(tasks[i]) == norm(title)
  }

  lemma ListsAlikeSnoc(norm: Normalizer, tasks: seq<string>, task: string, title: string)
    ensures ListsAlike(norm, tasks + [task], title) <==> ListsAlike(norm, tasks, title) || norm(task) == norm(title)
  {
    var all := tasks + [task];
    assert all[|tasks|] == task && forall i :: 0 <= i < |tasks| ==> all[i] == tasks[i];
  }

  /** A snapshot without references, as older ones were, loads with a legacy reference for exactly the labels that
      are listed. */
  lemma {:induction false} BareLabelsReload(norm: Normalizer, tasks: seq<string>, title: string)
    ensures HasKey(Relink(norm, tasks, []), "legacy:" + norm(title)) <==> ListsAlike(norm, tasks, title)
  {
    if tasks != [] {
      hide HasKey, Put, RelinkedKey, ListsAlike;
      var front, task := tasks[..|tasks| - 1], tasks[|tasks| - 1];
      BareLabelsReload(norm, front, title);
      var refs := Relink(norm, front, []);
      NothingStored(norm, task, refs);
      PutHasKey(refs, "legacy:" + norm(task), task, "legacy:" + norm(title));
      LegacyKeysDiffer(norm(task), norm(title));
      ListsAlikeSnoc(norm, front, task, title);
      assert tasks == front + [task];
    }
  }

  lemma NothingStored(norm: Normalizer, task: string, refs: Dict<string, string>)
    ensures RelinkedKey(norm, [], task, refs) == "legacy:" + norm(task)
  {
  }

  lemma PutHasKey(d: Dict<string, string>, k: string, v: string, at: string)
    ensures HasKey(Put(d, k, v), at) <==> HasKey(d, at) || at == k
  {
    var r := Put(d, k, v);
    assert forall i :: 0 <= i < |d| ==> r[i].0 == d[i].0;
    assert HasKey(d, k) || r[|d|].0 == k;
  }

  lemma LegacyKeysDiffer(a: string, b: string)
    ensures "legacy:" + a == "legacy:" + b <==> a == b
  {
    assert ("legacy:" + a)[7..] == a && ("legacy:" + b)[7..] == b;
  }
}
