/** The task view depends on the log alone: not on paging, compression, or the order of stored keys. */
module TaskStateProofs {
  import opened Wrappers
  import opened Json
  import opened OrderedDict
  import opened Events
  import opened Sequences
  import opened Sorting
  import opened TaskState
  import D = Deduplicator

  // ---- Dicts as maps ----

  function At<K(==), V>(d: Dict<K, V>, k: K): Option<V> {
    var i := Find(d, k);
    if i.Some? then Some(d[i.value].1) else None
  }

  ghost predicate SameMap<K(!new), V(!new)>(a: Dict<K, V>, b: Dict<K, V>) {
    DistinctKeys(a) && DistinctKeys(b) && forall k :: At(a, k) == At(b, k)
  }

  lemma FoundFirst<K, V>(d: Dict<K, V>, k: K, i: nat)
    requires i < |d| && d[i].0 == k && forall j :: 0 <= j < i ==> d[j].0 != k
    ensures Find(d, k) == Some(i)
  {
    var r := Find(d, k);
    assert r.Some? && !(r.value < i) && !(i < r.value);
  }

  lemma NotFound<K, V>(d: Dict<K, V>, k: K)
    requires forall j :: 0 <= j < |d| ==> d[j].0 != k
    ensures Find(d, k) == None
  {
  }

  lemma AtPut<K, V>(d: Dict<K, V>, k: K, v: V, x: K)
    ensures At(Put(d, k, v), x) == if x == k then Some(v) else At(d, x)
  {
    var r := Put(d, k, v);
    assert forall m :: 0 <= m < |d| ==> r[m].0 == d[m].0;
    var i := Find(d, x);
    if i.Some? {
      FoundFirst(r, x, i.value);
    } else if x == k {
      FoundFirst(r, x, |d|);
    } else {
      NotFound(r, x);
    }
  }

  lemma AtSnoc<K, V>(d: Dict<K, V>, p: (K, V), x: K)
    ensures At(d + [p], x) == if At(d, x).Some? then At(d, x) else if p.0 == x then Some(p.1) else None
  {
    var r := d + [p];
    assert forall m :: 0 <= m < |d| ==> r[m] == d[m];
    var i := Find(d, x);
    if i.Some? {
      FoundFirst(r, x, i.value);
    } else if p.0 == x {
      FoundFirst(r, x, |d|);
    } else {
      NotFound(r, x);
    }
  }

  lemma AtKeys<K, V>(d: Dict<K, V>, x: K)
    ensures x in Keys(d) <==> At(d, x).Some?
  {
    if At(d, x).Some? {
      assert Keys(d)[Find(d, x).value] == x;
    }
  }

  lemma LookupAt<K, V>(d: Dict<K, V>, x: K, fallback: V)
    ensures Lookup(d, x, fallback) == if At(d, x).Some? then At(d, x).value else fallback
  {
  }

  lemma DistinctFront<K, V>(d: Dict<K, V>)
    requires DistinctKeys(d) && d != []
    ensures DistinctKeys(d[..|d| - 1]) && At(d[..|d| - 1], d[|d| - 1].0).None?
    ensures d == d[..|d| - 1] + [d[|d| - 1]]
  {
  }

  lemma {:induction false} MultiplicityOne<T>(s: seq<T>, x: T)
    requires NoDuplicates(s)
    ensures multiset(s)[x] == if x in s then 1 else 0
  {
    if s != [] {
      var front, last := s[..|s| - 1], s[|s| - 1];
      MultiplicityOne(front, x);
      assert s == front + [last];
    }
  }

  lemma SameElements<T(!new)>(a: seq<T>, b: seq<T>)
    requires NoDuplicates(a) && NoDuplicates(b) && forall x :: x in a <==> x in b
    ensures multiset(a) == multiset(b)
  {
    forall x ensures multiset(a)[x] == multiset(b)[x] {
      MultiplicityOne(a, x);
      MultiplicityOne(b, x);
    }
  }

  // ---- Queues as a function of the task map ----

  function Members(tasks: Dict<string, Task>, owner: string): seq<string> {
    if tasks == [] then []
    else
      var (id, t) := tasks[|tasks| - 1];
      Members(tasks[..|tasks| - 1], owner) + (if Queued(t) && t.owner.s == owner then [id] else [])
  }

  predicate OwnedBy(t: Option<Task>, owner: string) {
    t.Some? && Queued(t.value) && t.value.owner.s == owner
  }

  lemma {:induction false} MembersAre(tasks: Dict<string, Task>, owner: string, id: string)
    requires DistinctKeys(tasks)
    ensures NoDuplicates(Members(tasks, owner))
    ensures id in Members(tasks, owner) <==> OwnedBy(At(tasks, id), owner)
  {
    if tasks != [] {
      hide At, Queued;
      var front, last := tasks[..|tasks| - 1], tasks[|tasks| - 1];
      DistinctFront(tasks);
      MembersAre(front, owner, id);
      MembersAre(front, owner, last.0);
      AtSnoc(front, last, id);
    } else {
      assert At(tasks, id).None?;
    }
  }

  lemma {:induction false} GroupedAt(tasks: Dict<string, Task>, owner: string)
    ensures At(Grouped(tasks), owner) == if Members(tasks, owner) == [] then None else Some(Members(tasks, owner))
    ensures DistinctKeys(Grouped(tasks))
  {
    if tasks != [] {
      hide At, Queued, Put;
      var front := tasks[..|tasks| - 1];
      var (id, t) := tasks[|tasks| - 1];
      GroupedAt(front, owner);
      if Queued(t) {
        GroupedAt(front, t.owner.s);
        LookupAt(Grouped(front), t.owner.s, []);
        AtPut(Grouped(front), t.owner.s, Members(front, t.owner.s) + [id], owner);
        assert Members(front, owner) + [] == Members(front, owner);
      } else {
        assert Members(front, owner) + [] == Members(front, owner);
      }
    }
  }

  lemma MembersSame(a: Dict<string, Task>, b: Dict<string, Task>, owner: string)
    requires SameMap(a, b)
    ensures multiset(Members(a, owner)) == multiset(Members(b, owner))
  {
    hide At, Members;
    MembersAre(a, owner, "");
    MembersAre(b, owner, "");
    forall id ensures id in Members(a, owner) <==> id in Members(b, owner) {
      MembersAre(a, owner, id);
      MembersAre(b, owner, id);
    }
    SameElements(Members(a, owner), Members(b, owner));
  }

  lemma DistinctKeysAre<K, V>(d: Dict<K, V>)
    requires DistinctKeys(d)
    ensures NoDuplicates(Keys(d))
  {
  }

  lemma EmptyMultiset<T>(a: seq<T>, b: seq<T>)
    requires multiset(a) == multiset(b)
    ensures a == [] <==> b == []
  {
    assert |multiset(a)| == |a| && |multiset(b)| == |b|;
  }

  lemma OwnersSame(a: Dict<string, Task>, b: Dict<string, Task>)
    requires SameMap(a, b)
    ensures multiset(Keys(Grouped(a))) == multiset(Keys(Grouped(b)))
  {
    hide At, Members, Grouped, Keys;
    GroupedAt(a, "");
    GroupedAt(b, "");
    DistinctKeysAre(Grouped(a));
    DistinctKeysAre(Grouped(b));
    forall o ensures o in Keys(Grouped(a)) <==> o in Keys(Grouped(b)) {
      AtKeys(Grouped(a), o);
      AtKeys(Grouped(b), o);
      GroupedAt(a, o);
      GroupedAt(b, o);
      MembersSame(a, b, o);
      EmptyMultiset(Members(a, o), Members(b, o));
    }
    SameElements(Keys(Grouped(a)), Keys(Grouped(b)));
  }

  lemma RanksSame(rank: Ranking, a: Dict<string, Task>, b: Dict<string, Task>)
    requires SameMap(a, b)
    ensures Ranks(rank, a) == Ranks(rank, b)
  {
    hide At, Lookup, Keys;
    forall id ensures id in Keys(a) <==> id in Keys(b) {
      AtKeys(a, id);
      AtKeys(b, id);
    }
    forall id ensures Lookup(a, id, NEW_TASK) == Lookup(b, id, NEW_TASK) {
      LookupAt(a, id, NEW_TASK);
      LookupAt(b, id, NEW_TASK);
    }
  }

  lemma ByRankTotal(ranks: map<string, int>)
    ensures StrictTotal(ByRank(ranks))
  {
    hide TextLess;
    var less := ByRank(ranks);
    ByTextTotal();
    assert forall x: string, y: string :: ByText()(x, y) == TextLess(x, y);
    forall x: string, y: string, z: string | less(x, y) && less(y, z) ensures less(x, z) {
      if TextLess(x, y) && TextLess(y, z) {
        assert ByText()(x, y) && ByText()(y, z);
        assert ByText()(x, z);
      }
    }
  }

  lemma {:induction false} SortListsSame(ranks: map<string, int>, a: Dict<string, Task>, b: Dict<string, Task>,
                                         owners: seq<string>)
    requires SameMap(a, b)
    ensures SortLists(ranks, Grouped(a), owners) == SortLists(ranks, Grouped(b), owners)
  {
    hide SameMap, At, Grouped, Members, Sort, Lookup;
    if owners != [] {
      var o := owners[|owners| - 1];
      SortListsSame(ranks, a, b, owners[..|owners| - 1]);
      GroupedAt(a, o);
      GroupedAt(b, o);
      LookupAt(Grouped(a), o, []);
      LookupAt(Grouped(b), o, []);
      MembersSame(a, b, o);
      ByRankTotal(ranks);
      SortForgetsOrder(ByRank(ranks), Members(a, o), Members(b, o));
    }
  }

  /** The queues do not depend on the order in which tasks were stored. */
  lemma QueueForgetsOrder(rank: Ranking, a: Dict<string, Task>, b: Dict<string, Task>)
    requires SameMap(a, b)
    ensures AgentQueue(rank, a) == AgentQueue(rank, b)
  {
    hide SameMap, Grouped, Sort, SortLists, Ranks;
    OwnersSame(a, b);
    ByTextTotal();
    SortForgetsOrder(ByText(), Keys(Grouped(a)), Keys(Grouped(b)));
    RanksSame(rank, a, b);
    SortListsSame(Ranks(rank, a), a, b, Sort(ByText(), Keys(Grouped(a))));
  }

  lemma {:induction false} SortListsAt(ranks: map<string, int>, queue: Dict<string, seq<string>>, owners: seq<string>,
                                       k: nat)
    requires k < |owners|
    ensures |SortLists(ranks, queue, owners)| == |owners|
    ensures SortLists(ranks, queue, owners)[k] == (owners[k], Sort(ByRank(ranks), Lookup(queue, owners[k], [])))
  {
    hide Sort, Lookup;
    if k < |owners| - 1 {
      SortListsAt(ranks, queue, owners[..|owners| - 1], k);
    } else if |owners| > 1 {
      SortListsAt(ranks, queue, owners[..|owners| - 1], 0);
    }
  }

  predicate ListOf(rank: Ranking, tasks: Dict<string, Task>, owner: string, ids: seq<string>) {
    && ids != []
    && NoDuplicates(ids)
    && Ordered(ByRank(Ranks(rank, tasks)), ids)
    && forall id :: id in ids ==> OwnedBy(At(tasks, id), owner)
  }

  /** The queue's owners stand in alphabetical order without repetition, and an owner's list holds exactly
      the ids of that owner's queued tasks, each once, by falling priority and then by id. */
  lemma QueueIsRight(rank: Ranking, tasks: Dict<string, Task>, k: nat)
    requires DistinctKeys(tasks) && k < |AgentQueue(rank, tasks)|
    ensures
      var queue := AgentQueue(rank, tasks);
      && Ordered(ByText(), Keys(queue)) && NoDuplicates(Keys(queue))
      && ListOf(rank, tasks, queue[k].0, queue[k].1)
      && forall id :: OwnedBy(At(tasks, id), queue[k].0) ==> id in queue[k].1
  {
    hide At, Grouped, Members, Sort, Lookup, Ranks, SortLists, OwnedBy;
    var queue, groups, ranks := AgentQueue(rank, tasks), Grouped(tasks), Ranks(rank, tasks);
    var owners := Sort(ByText(), Keys(groups));
    OwnersInOrder(tasks, ranks, owners);
    SortListsAt(ranks, groups, owners, k);
    var o := owners[k];
    SameMembers(owners, Keys(groups), o);
    AtKeys(groups, o);
    GroupedAt(tasks, o);
    LookupAt(groups, o, []);
    MembersAre(tasks, o, "");
    ByRankTotal(ranks);
    SortOrdered(ByRank(ranks), Members(tasks, o));
    PermutedDistinct(Members(tasks, o), queue[k].1);
    EmptyMultiset(Members(tasks, o), queue[k].1);
    forall id ensures id in queue[k].1 <==> OwnedBy(At(tasks, id), o) {
      SameMembers(queue[k].1, Members(tasks, o), id);
      MembersAre(tasks, o, id);
    }
  }

  lemma OwnersInOrder(tasks: Dict<string, Task>, ranks: map<string, int>, owners: seq<string>)
    requires owners == Sort(ByText(), Keys(Grouped(tasks)))
    ensures Keys(SortLists(ranks, Grouped(tasks), owners)) == owners
    ensures Ordered(ByText(), owners) && NoDuplicates(owners)
  {
    hide Grouped, Sort, Lookup, SortLists;
    var queue := SortLists(ranks, Grouped(tasks), owners);
    ByTextTotal();
    SortOrdered(ByText(), Keys(Grouped(tasks)));
    GroupedAt(tasks, "");
    DistinctKeysAre(Grouped(tasks));
    PermutedDistinct(Keys(Grouped(tasks)), owners);
    SortListsLength(ranks, Grouped(tasks), owners);
    forall k | 0 <= k < |owners| ensures Keys(queue)[k] == owners[k] {
      SortListsAt(ranks, Grouped(tasks), owners, k);
    }
  }

  lemma SortListsLength(ranks: map<string, int>, queue: Dict<string, seq<string>>, owners: seq<string>)
    ensures |SortLists(ranks, queue, owners)| == |owners|
  {
    if owners != [] {
      SortListsAt(ranks, queue, owners, 0);
    }
  }

  lemma PermutedDistinct<T>(a: seq<T>, b: seq<T>)
    requires NoDuplicates(a) && multiset(a) == multiset(b)
    ensures NoDuplicates(b)
  {
    forall i, j | 0 <= i < j < |b| ensures b[i] != b[j] {
      MultiplicityOne(a, b[j]);
      assert b == b[..j] + [b[j]] + b[j + 1..];
      assert multiset(b) == multiset(b[..j]) + multiset{b[j]} + multiset(b[j + 1..]);
      assert b[j] !in multiset(b[..j]);
      assert b[..j][i] == b[i];
    }
  }

  // ---- Id lists ----

  lemma {:induction false} IdsWhereAre(keep: Status -> bool, tasks: Dict<string, Task>, id: string)
    requires DistinctKeys(tasks)
    ensures NoDuplicates(IdsWhere(keep, tasks))
    ensures id in IdsWhere(keep, tasks) <==> At(tasks, id).Some? && keep(At(tasks, id).value.status)
  {
    if tasks != [] {
      hide At;
      var front, last := tasks[..|tasks| - 1], tasks[|tasks| - 1];
      DistinctFront(tasks);
      IdsWhereAre(keep, front, id);
      IdsWhereAre(keep, front, last.0);
      AtSnoc(front, last, id);
    } else {
      assert At(tasks, id).None?;
    }
  }

  lemma IdsWhereSame(keep: Status -> bool, a: Dict<string, Task>, b: Dict<string, Task>)
    requires SameMap(a, b)
    ensures multiset(IdsWhere(keep, a)) == multiset(IdsWhere(keep, b))
  {
    hide At, IdsWhere;
    IdsWhereAre(keep, a, "");
    IdsWhereAre(keep, b, "");
    forall id ensures id in IdsWhere(keep, a) <==> id in IdsWhere(keep, b) {
      IdsWhereAre(keep, a, id);
      IdsWhereAre(keep, b, id);
    }
    SameElements(IdsWhere(keep, a), IdsWhere(keep, b));
  }

  // ---- Views up to the order of stored keys ----

  ghost predicate SameBoard(a: Board, b: Board) {
    SameMap(a.tasks, b.tasks) && a.dependencies == b.dependencies && a.handoffs == b.handoffs
  }

  /** The same tasks as a map, the same edges, handoffs and queues, and the same ids in each list. */
  ghost predicate SameView(a: TaskView, b: TaskView) {
    && SameBoard(a.board, b.board)
    && a.agentQueue == b.agentQueue
    && multiset(a.openIds) == multiset(b.openIds)
    && multiset(a.completedIds) == multiset(b.completedIds)
    && multiset(a.deletedIds) == multiset(b.deletedIds)
  }

  lemma SameBoardSameView(rank: Ranking, a: Board, b: Board)
    requires SameBoard(a, b)
    ensures SameView(Finalized(rank, a), Finalized(rank, b))
  {
    hide SameMap, AgentQueue, IdsWhere;
    QueueForgetsOrder(rank, a.tasks, b.tasks);
    IdsWhereSame(IsOpen(), a.tasks, b.tasks);
    IdsWhereSame(Is(Completed), a.tasks, b.tasks);
    IdsWhereSame(Is(Deleted), a.tasks, b.tasks);
  }

  lemma SamePut<K(!new), V(!new)>(a: Dict<K, V>, b: Dict<K, V>, k: K, v: V)
    requires SameMap(a, b)
    ensures SameMap(Put(a, k, v), Put(b, k, v))
  {
    hide At, Put;
    forall x ensures At(Put(a, k, v), x) == At(Put(b, k, v), x) {
      AtPut(a, k, v, x);
      AtPut(b, k, v, x);
    }
  }

  lemma SameObserve(a: Board, b: Board, e: Event)
    requires SameBoard(a, b)
    ensures SameBoard(Observe(a, e), Observe(b, e))
  {
    hide SameMap, TaskIdOf, Handled, DependenciesAfter, HandoffsAfter, Put, Lookup;
    var id := TaskIdOf(e);
    if id.Some? {
      SameLookup(a.tasks, b.tasks, id.value);
      SamePut(a.tasks, b.tasks, id.value, Handled(Lookup(a.tasks, id.value, NEW_TASK), e));
    }
  }

  lemma SameLookup(a: Dict<string, Task>, b: Dict<string, Task>, id: string)
    requires SameMap(a, b)
    ensures Lookup(a, id, NEW_TASK) == Lookup(b, id, NEW_TASK)
  {
    LookupAt(a, id, NEW_TASK);
    LookupAt(b, id, NEW_TASK);
  }

  lemma {:induction false} SameFold(a: Board, b: Board, es: seq<Event>)
    requires SameBoard(a, b)
    ensures SameBoard(Fold(a, es), Fold(b, es))
  {
    if es != [] {
      hide SameBoard, Observe;
      SameFold(a, b, es[..|es| - 1]);
      SameObserve(Fold(a, es[..|es| - 1]), Fold(b, es[..|es| - 1]), es[|es| - 1]);
    }
  }

  lemma {:induction false} FoldSplit(b: Board, xs: seq<Event>, ys: seq<Event>)
    ensures Fold(b, xs + ys) == Fold(Fold(b, xs), ys)
  {
    if ys == [] {
      assert xs + ys == xs;
    } else {
      hide Observe;
      assert (xs + ys)[..|xs + ys| - 1] == xs + ys[..|ys| - 1];
      FoldSplit(b, xs, ys[..|ys| - 1]);
    }
  }

  lemma {:induction false} FoldKeysDistinct(b: Board, es: seq<Event>)
    requires DistinctKeys(b.tasks)
    ensures DistinctKeys(Fold(b, es).tasks)
  {
    if es != [] {
      hide Handled, TaskIdOf, Put, Lookup, DependenciesAfter, HandoffsAfter, DistinctKeys;
      FoldKeysDistinct(b, es[..|es| - 1]);
    }
  }

  // ---- Compression and paging ----

  lemma ChurnIsNoTask(b: Board, e: Event)
    requires D.Churn(e)
    ensures Observe(b, e) == b
  {
  }

  lemma {:induction false} FoldOfRetained(b: Board, ids: set<string>, es: seq<Event>)
    ensures Fold(b, Filter(D.Retained(ids), es)) == Fold(b, es)
  {
    if es != [] {
      hide Observe;
      var front, e := es[..|es| - 1], es[|es| - 1];
      var kept := Filter(D.Retained(ids), front);
      FoldOfRetained(b, ids, front);
      if D.Retained(ids)(e) {
        assert (kept + [e])[..|kept|] == kept;
      } else {
        assert kept + [] == kept;
        ChurnIsNoTask(Fold(b, front), e);
      }
    }
  }

  /** Compressing the log before folding it changes nothing in the task view. */
  lemma CompressionIsInvisible(rank: Ranking, es: seq<Event>)
    ensures Built(rank, D.Collapsed(es)) == Built(rank, es)
  {
    FoldOfRetained(EMPTY_BOARD, D.LastFileEvent(es).Values, es);
  }

  function AppliedPages(rank: Ranking, base: TaskView, pages: seq<seq<Event>>): TaskView {
    if pages == [] then base
    else Applied(rank, AppliedPages(rank, base, pages[..|pages| - 1]), pages[|pages| - 1])
  }

  lemma {:induction false} PagesFold(rank: Ranking, base: TaskView, pages: seq<seq<Event>>)
    ensures AppliedPages(rank, base, pages).board == Fold(base.board, Flatten(pages))
    ensures pages != [] ==> AppliedPages(rank, base, pages) == Applied(rank, base, Flatten(pages))
  {
    hide Finalized, Observe;
    if pages != [] {
      var front := pages[..|pages| - 1];
      PagesFold(rank, base, front);
      FoldSplit(base.board, Flatten(front), pages[|pages| - 1]);
      FinalizedKeepsBoard(rank, Fold(base.board, Flatten(pages)));
      if front != [] {
        FinalizedKeepsBoard(rank, Fold(base.board, Flatten(front)));
      }
    }
  }

  lemma FinalizedKeepsBoard(rank: Ranking, b: Board)
    ensures Finalized(rank, b).board == b
  {
  }

  /** A view built from a compressed log, reloaded with its tasks in any key order and extended by pages of
      any size, is the view of the whole log up to dict order. */
  lemma SnapshotThenPages(rank: Ranking, es: seq<Event>, stored: TaskView, pages: seq<seq<Event>>)
    requires SameBoard(stored.board, Built(rank, D.Collapsed(es)).board)
    ensures SameBoard(AppliedPages(rank, stored, pages).board, Built(rank, es + Flatten(pages)).board)
    ensures pages != [] ==> SameView(AppliedPages(rank, stored, pages), Built(rank, es + Flatten(pages)))
    ensures SameView(Finalized(rank, AppliedPages(rank, stored, pages).board), Built(rank, es + Flatten(pages)))
  {
    hide SameBoard, SameView, Finalized, Observe, D.Collapsed;
    var more := Flatten(pages);
    CompressionIsInvisible(rank, es);
    FinalizedKeepsBoard(rank, Fold(EMPTY_BOARD, es));
    FinalizedKeepsBoard(rank, Fold(EMPTY_BOARD, es + more));
    SameFold(stored.board, Fold(EMPTY_BOARD, es), more);
    FoldSplit(EMPTY_BOARD, es, more);
    PagesFold(rank, stored, pages);
    SameBoardSameView(rank, Fold(stored.board, more), Fold(EMPTY_BOARD, es + more));
  }

  // ---- A task is what its own events made it ----

  function About(id: string): Event -> bool {
    (e: Event) => TaskIdOf(e) == Some(id)
  }

  function HandledAll(t: Task, es: seq<Event>): Task {
    if es == [] then t else Handled(HandledAll(t, es[..|es| - 1]), es[|es| - 1])
  }

  function Entries(es: seq<Event>): seq<Entry> {
    seq(|es|, i requires 0 <= i < |es| => Entry(es[i].id, es[i].kind, es[i].createdAt))
  }

  lemma {:induction false} OwnEventsMakeTask(es: seq<Event>, id: string)
    ensures
      var own := Filter(About(id), es);
      At(Fold(EMPTY_BOARD, es).tasks, id) == if own == [] then None else Some(HandledAll(NEW_TASK, own))
  {
    if es != [] {
      hide At, Handled, TaskIdOf, DependenciesAfter, HandoffsAfter, Put, Lookup;
      var front, e := es[..|es| - 1], es[|es| - 1];
      var own := Filter(About(id), front);
      OwnEventsMakeTask(front, id);
      var b, x := Fold(EMPTY_BOARD, front), TaskIdOf(e);
      if x.Some? {
        LookupAt(b.tasks, x.value, NEW_TASK);
        AtPut(b.tasks, x.value, Handled(Lookup(b.tasks, x.value, NEW_TASK), e), id);
      }
      if x == Some(id) {
        assert (own + [e])[..|own|] == own;
      } else {
        assert own + [] == own;
      }
    }
  }

  lemma HandleKeepsHistory(t: Task, e: Event)
    ensures Handle(t, e).history == t.history
  {
    hide Or, Get, GetOr, Picked, OnAssigned, OnStarted, OnCreated, OnUpdated, OnSubtask, OnWorkflowState, OnExecution,
      Listed;
  }

  lemma HandledAddsEntry(t: Task, e: Event)
    ensures Handled(t, e).history == t.history + [Entry(e.id, e.kind, e.createdAt)]
  {
    hide Handle;
    HandleKeepsHistory(t.(history := t.history + [Entry(e.id, e.kind, e.createdAt)]), e);
  }

  lemma EntriesSnoc(es: seq<Event>)
    requires es != []
    ensures Entries(es) == Entries(es[..|es| - 1]) + [Entry(es[|es| - 1].id, es[|es| - 1].kind, es[|es| - 1].createdAt)]
  {
  }

  lemma {:induction false} HandledHistory(t: Task, es: seq<Event>)
    ensures HandledAll(t, es).history == t.history + Entries(es)
  {
    hide Handled, Entries;
    if es == [] {
      NoEntries(t);
    } else {
      HandledHistory(t, es[..|es| - 1]);
      HandledAddsEntry(HandledAll(t, es[..|es| - 1]), es[|es| - 1]);
      EntriesSnoc(es);
    }
  }

  lemma NoEntries(t: Task)
    ensures t.history + Entries([]) == t.history
  {
  }

  /** A task exists exactly when some task event names it, depends on those events alone, and its history
      lists them all, in order. */
  lemma TaskIsItsOwnEvents(rank: Ranking, es: seq<Event>, id: string)
    ensures
      var own, at := Filter(About(id), es), At(Built(rank, es).board.tasks, id);
      && (at.Some? <==> own != [])
      && (at.Some? ==> at.value == HandledAll(NEW_TASK, own) && at.value.history == Entries(own))
      && At(Built(rank, own).board.tasks, id) == at
  {
    hide Handled, At, Finalized;
    var own := Filter(About(id), es);
    FinalizedKeepsBoard(rank, Fold(EMPTY_BOARD, es));
    FinalizedKeepsBoard(rank, Fold(EMPTY_BOARD, own));
    OwnEventsMakeTask(es, id);
    OwnEventsMakeTask(own, id);
    HandledHistory(NEW_TASK, own);
    assert forall e :: e in own ==> About(id)(e) by {
      forall e | e in own ensures About(id)(e) {
        FilterMember(About(id), es, e);
      }
    }
    FilterEvery(About(id), own);
  }
}
