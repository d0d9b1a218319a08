/** Which tasks are open, said from the events of the log alone (`core/state_machine.py`). */
module OpenTasks {
  import opened Wrappers
  import opened Json
  import opened OrderedDict
  import opened Events
  import opened Sequences
  import opened Fields
  import opened StateMachine
  import opened StateEngine
  import opened ReplayProofs
  import opened ReplayMeaning

  // ---- What an event says about tasks ----

  // A completion: the key it names, the other form of that key, and its label.
  datatype Completion = Completion(key: string, other: string, title: string)

  /** The reference an event opens and the label it gives it: by id where a start or an update names one, by
      label where a start names none. */
  function Opens(norm: Normalizer, e: Event): Option<(string, string)> {
    var id := IdNamed(e);
    if e.kind == TaskStarted then
      var title := TextNamed(e, "task", "goal");
      if id.Some? then Some(("id:" + id.value, if title.Some? then title.value else id.value))
      else if title.Some? then Some(("legacy:" + norm(title.value), title.value))
      else None
    else if e.kind == TaskUpdated then
      var title := TextNamed(e, "goal", "task");
      if id.Some? && title.Some? then Some(("id:" + id.value, title.value)) else None
    else None
  }

  function Completes(norm: Normalizer, e: Event): Option<Completion> {
    var id, title := IdNamed(e), TextNamed(e, "task", "goal");
    if e.kind != TaskCompleted then None
    else if id.Some? then
      Some(Completion("id:" + id.value, "legacy:" + norm(id.value), if title.Some? then title.value else id.value))
    else if title.Some? then
      Some(Completion("legacy:" + norm(title.value), "id:" + norm(title.value), title.value))
    else None
  }

  function Deletes(e: Event): Option<string> {
    var id := IdNamed(e);
    if e.kind == TaskDeleted && id.Some? then Some("id:" + id.value) else None
  }

  // ---- What that does to the references ----

  /** Everything but one key, in its order. */
  function Except(key: string): ((string, string)) -> bool {
    (p: (string, string)) => p.0 != key
  }

  predicate Has(refs: Dict<string, string>, key: string) {
    exists i :: 0 <= i < |refs| && refs[i].0 == key
  }

  /** `key` carries `title`, in its old place if it was open and at the end otherwise; nothing else moves. */
  predicate Placed(was: Dict<string, string>, now: Dict<string, string>, key: string, title: string) {
    if Has(was, key) then
      |now| == |was| && forall i :: 0 <= i < |was| ==> now[i] == if was[i].0 == key then (key, title) else was[i]
    else now == was + [(key, title)]
  }

  predicate FirstAlike(norm: Normalizer, refs: Dict<string, string>, title: string, i: nat)
    requires i < |refs|
  {
    norm(refs[i].1) == norm(title) && forall j :: 0 <= j < i ==> norm(refs[j].1) != norm(title)
  }

  /** The reference a completion closes: its own key, else the other form, else the first look-alike. */
  predicate Picks(norm: Normalizer, refs: Dict<string, string>, c: Completion, key: string) {
    if Has(refs, c.key) then key == c.key
    else if Has(refs, c.other) then key == c.other
    else exists i :: 0 <= i < |refs| && refs[i].0 == key && FirstAlike(norm, refs, c.title, i)
  }

  // ---- Dicts ----

  lemma HasIsHasKey(refs: Dict<string, string>, key: string)
    ensures HasKey(refs, key) <==> Has(refs, key)
  {
    if HasKey(refs, key) {
      assert refs[Find(refs, key).value].0 == key;
    }
  }

  lemma PopIsExcept(refs: Dict<string, string>, key: string)
    requires DistinctKeys(refs)
    ensures Pop(refs, key) == Filter(Except(key), refs)
  {
    hide Filter;
    var at, keep := Find(refs, key), Except(key);
    if at.Some? {
      var n := at.value;
      assert refs == refs[..n] + [refs[n]] + refs[n + 1..];
      FilterConcat(keep, refs[..n] + [refs[n]], refs[n + 1..]);
      FilterSnoc(keep, refs[..n], refs[n]);
      FilterEvery(keep, refs[..n]);
      var back := refs[n + 1..];
      forall i | 0 <= i < |back| ensures keep(back[i]) {
        assert back[i] == refs[n + 1 + i];
      }
      FilterEvery(keep, back);
      assert refs[..n] + [] == refs[..n];
    } else {
      FilterEvery(keep, refs);
    }
  }

  lemma PutPlaces(refs: Dict<string, string>, key: string, title: string)
    requires DistinctKeys(refs)
    ensures Placed(refs, Put(refs, key, title), key, title)
  {
    HasIsHasKey(refs, key);
  }

  lemma PopAbsent(refs: Dict<string, string>, key: string)
    requires !HasKey(refs, key)
    ensures Pop(refs, key) == refs
  {
  }

  // ---- Each kind of event ----

  lemma ReadsText(e: Event)
    ensures NonEmptyText(Get(e.payload, "task_id")) == IdNamed(e)
    ensures NonEmptyText(Or(Or(Get(e.payload, "task"), Get(e.payload, "goal")), OfText(e.taskHint)))
            == TextNamed(e, "task", "goal")
    ensures UpdatedGoalOf(e) == TextNamed(e, "goal", "task")
  {
    OneText(Get(e.payload, "task_id"));
    ThreeTexts(Get(e.payload, "task"), Get(e.payload, "goal"), OfText(e.taskHint));
    ThreeTexts(Get(e.payload, "goal"), Get(e.payload, "task"), OfText(e.taskHint));
  }

  /** The effect the machine reads off an event is the one its fields name. */
  lemma EffectIsNamed(norm: Normalizer, e: Event)
    ensures
      var x := EffectOf(norm, e);
      && (Opens(norm, e).Some? <==> x.OpenTask?)
      && (x.OpenTask? ==> Opens(norm, e) == Some((x.key, x.task)))
      && (Completes(norm, e).Some? <==> x.CompleteTask?)
      && (x.CompleteTask? ==> x.key == Completes(norm, e).value.key && x.task == Completes(norm, e).value.title)
      && (Deletes(e).Some? <==> x.DropTask?)
      && (x.DropTask? ==> Deletes(e) == Some(x.key))
  {
    hide NonEmptyText, Get, FirstText, Or, GoalOf, FilePathOf, UsageOf, UpdatedGoalOf;
    ReadsText(e);
  }

  lemma OtherForm(norm: Normalizer, e: Event)
    requires Completes(norm, e).Some?
    ensures AlternateRefKey(norm, Completes(norm, e).value.key) == Completes(norm, e).value.other
  {
    hide IdNamed, TextNamed;
    var c := Completes(norm, e).value;
    var id, title := IdNamed(e), TextNamed(e, "task", "goal");
    if id.Some? {
      assert c.key[..3] == "id:" && c.key[3..] == id.value;
    } else {
      assert c.key[..7] == "legacy:" && c.key[7..] == norm(title.value);
      assert c.key[..3][0] != "id:"[0];
    }
  }

  lemma PickIsClosed(norm: Normalizer, refs: Dict<string, string>, e: Event, key: string)
    requires DistinctKeys(refs) && Completes(norm, e).Some?
    ensures
      var c := Completes(norm, e).value;
      Picks(norm, refs, c, key) <==> key == ClosedKey(norm, refs, c.key, c.title) && Has(refs, key)
  {
    hide Completes, AlternateRefKey, RefWithLabel;
    var c := Completes(norm, e).value;
    OtherForm(norm, e);
    HasIsHasKey(refs, c.key);
    HasIsHasKey(refs, c.other);
    FirstWithLabel(norm, refs, norm(c.title), c.key);
    assert forall i, j :: 0 <= i < j < |refs| && FirstAlike(norm, refs, c.title, i) ==>
        !FirstAlike(norm, refs, c.title, j);
  }

  /** One event and the open references: a start or update puts its label in place, a deletion takes its key
      away, a completion takes away the one reference it picks; the open list shows what is left, and any other
      event leaves both alone. */
  lemma TaskStep(norm: Normalizer, s: ProjectState, e: Event)
    requires WellFormed(s)
    ensures
      var r, refs := Step(norm, s, e), s.openTaskRefs;
      && (Opens(norm, e).Some? ==> Placed(refs, r.openTaskRefs, Opens(norm, e).value.0, Opens(norm, e).value.1))
      && (Deletes(e).Some? ==> r.openTaskRefs == Filter(Except(Deletes(e).value), refs))
      && (Completes(norm, e).Some? ==>
            var c := Completes(norm, e).value;
            && (forall key :: Picks(norm, refs, c, key) ==> r.openTaskRefs == Filter(Except(key), refs))
            && ((forall key :: !Picks(norm, refs, c, key)) ==> r.openTaskRefs == refs))
      && (Opens(norm, e).None? && Deletes(e).None? && Completes(norm, e).None? ==> r.openTaskRefs == refs)
      && r.openTasks == Values(r.openTaskRefs)
      && r.completedTasks ==
         (if Completes(norm, e).Some? then AddUnique(s.completedTasks, Completes(norm, e).value.title)
          else s.completedTasks)
  {
    hide Opens, Completes, Deletes, EffectOf, ClosedKey, Pop, Put, Picks, Placed, Filter, RemoveFirst, UsageRecorded,
      WellFormed;
    EffectIsNamed(norm, e);
    var refs, x := s.openTaskRefs, EffectOf(norm, e);
    FormedRefs(s);
    match x {
      case OpenTask(key, task) => PutPlaces(refs, key, task);
      case DropTask(key) => PopIsExcept(refs, key);
      case CompleteTask(key, task) => CompletionPops(norm, refs, e, Pop(refs, ClosedKey(norm, refs, key, task)));
      case _ =>
    }
  }

  lemma FormedRefs(s: ProjectState)
    requires WellFormed(s)
    ensures DistinctKeys(s.openTaskRefs) && s.openTasks == Values(s.openTaskRefs)
  {
  }

  lemma CompletionPops(norm: Normalizer, refs: Dict<string, string>, e: Event, now: Dict<string, string>)
    requires DistinctKeys(refs) && Completes(norm, e).Some?
    requires now == Pop(refs, ClosedKey(norm, refs, Completes(norm, e).value.key, Completes(norm, e).value.title))
    ensures
      var c := Completes(norm, e).value;
      && (forall key :: Picks(norm, refs, c, key) ==> now == Filter(Except(key), refs))
      && ((forall key :: !Picks(norm, refs, c, key)) ==> now == refs)
  {
    hide Completes, ClosedKey, Pop, Picks, Filter;
    var c := Completes(norm, e).value;
    var closed := ClosedKey(norm, refs, c.key, c.title);
    PopIsExcept(refs, closed);
    HasIsHasKey(refs, closed);
    if !HasKey(refs, closed) {
      PopAbsent(refs, closed);
    }
    forall key ensures Picks(norm, refs, c, key) <==> key == closed && Has(refs, key) {
      PickIsClosed(norm, refs, e, key);
    }
  }

  // ---- The three handlers, by payload field ----

  /** Deleting a task by id: no reference under that id is left, the others keep their order, and the open list
      is their labels. */
  lemma DeletionDrops(norm: Normalizer, s: ProjectState, e: Event, id: string)
    requires WellFormed(s) && e.kind == TaskDeleted && Get(e.payload, "task_id") == Str(id) && id != ""
    ensures
      var r := Step(norm, s, e);
      && r.openTaskRefs == Filter(Except("id:" + id), s.openTaskRefs)
      && !Has(r.openTaskRefs, "id:" + id)
      && (forall p :: p in s.openTaskRefs && p.0 != "id:" + id ==> p in r.openTaskRefs)
      && r.openTasks == Values(r.openTaskRefs)
  {
    hide Step, Filter, WellFormed;
    assert IdNamed(e) == Some(id);
    TaskStep(norm, s, e);
    var key := "id:" + id;
    forall p: (string, string) ensures p in Filter(Except(key), s.openTaskRefs) <==> p in s.openTaskRefs && p.0 != key {
      FilterMember(Except(key), s.openTaskRefs, p);
    }
    var now := Filter(Except(key), s.openTaskRefs);
    forall i | 0 <= i < |now| ensures now[i].0 != key {
      assert now[i] in now;
    }
  }

  /** Starting a task by id puts the text of `task`, else of `goal`, else the hint, else the id itself under it;
      updating one puts the text of `goal`, else of `task`, else the hint. */
  lemma NamedTaskIsPlaced(norm: Normalizer, s: ProjectState, e: Event, id: string)
    requires WellFormed(s) && Get(e.payload, "task_id") == Str(id) && id != ""
    ensures
      var r, given := Step(norm, s, e), TextNamed(e, "task", "goal");
      e.kind == TaskStarted ==>
        && Placed(s.openTaskRefs, r.openTaskRefs, "id:" + id, if given.Some? then given.value else id)
        && r.openTasks == Values(r.openTaskRefs)
    ensures
      var r, given := Step(norm, s, e), TextNamed(e, "goal", "task");
      e.kind == TaskUpdated ==>
        if given.Some? then
          && Placed(s.openTaskRefs, r.openTaskRefs, "id:" + id, given.value)
          && r.openTasks == Values(r.openTaskRefs)
        else r.openTaskRefs == s.openTaskRefs && r.openTasks == s.openTasks
  {
    hide Step, TextNamed, Placed, WellFormed;
    assert IdNamed(e) == Some(id);
    TaskStep(norm, s, e);
    FormedRefs(s);
  }

  // ---- Over a whole log ----

  /** Event `j` takes `key` off the open references of the log before it. */
  ghost predicate Ends(norm: Normalizer, es: seq<Event>, j: nat, key: string)
    requires j < |es|
  {
    || Deletes(es[j]) == Some(key)
    || (Completes(norm, es[j]).Some?
        && Picks(norm, Replay(norm, es[..j]).openTaskRefs, Completes(norm, es[j]).value, key))
  }

  predicate OpensKey(norm: Normalizer, e: Event, key: string) {
    Opens(norm, e).Some? && Opens(norm, e).value.0 == key
  }

  /** Event `i` opened `key` under `title`, and nothing since opened it anew, deleted it or closed it. */
  ghost predicate OpenSince(norm: Normalizer, es: seq<Event>, i: nat, key: string, title: string)
    requires i < |es|
  {
    && Opens(norm, es[i]) == Some((key, title))
    && forall j :: i < j < |es| ==> !OpensKey(norm, es[j], key) && !Ends(norm, es, j, key)
  }

  lemma PlacedMember(was: Dict<string, string>, now: Dict<string, string>, key: string, title: string,
                     p: (string, string))
    requires Placed(was, now, key, title)
    ensures p in now <==> p == (key, title) || (p in was && p.0 != key)
  {
    if Has(was, key) {
      var at :| 0 <= at < |was| && was[at].0 == key;
      assert now[at] == (key, title);
      if p in was && p.0 != key {
        var i :| 0 <= i < |was| && was[i] == p;
        assert now[i] == p;
      }
    }
  }

  /** One more event: a reference is open after it if the event opens it, or if it was open and the event
      neither opens its key anew nor ends it. */
  lemma MemberStep(norm: Normalizer, es: seq<Event>, key: string, title: string)
    requires es != [] && DistinctIds(es)
    ensures
      var front, e := es[..|es| - 1], es[|es| - 1];
      (key, title) in Replay(norm, es).openTaskRefs <==>
        || Opens(norm, e) == Some((key, title))
        || ((key, title) in Replay(norm, front).openTaskRefs && !OpensKey(norm, e, key)
            && !Ends(norm, es, |es| - 1, key))
  {
    hide Step, Opens, Deletes, Completes, Picks, Placed, Filter, Ids;
    var front, e := es[..|es| - 1], es[|es| - 1];
    var s := Replay(norm, front);
    LastIdIsNew(es);
    RunApplied(norm, Fresh(EMPTY_STATE), front);
    RunWellFormed(norm, Fresh(EMPTY_STATE), front);
    assert Replay(norm, es) == Step(norm, s, e);
    TaskStep(norm, s, e);
    OneEffect(norm, e);
    var now, p := Step(norm, s, e).openTaskRefs, (key, title);
    if Opens(norm, e).Some? {
      PlacedMember(s.openTaskRefs, now, Opens(norm, e).value.0, Opens(norm, e).value.1, p);
    } else if Deletes(e).Some? {
      FilterMember(Except(Deletes(e).value), s.openTaskRefs, p);
    } else if Completes(norm, e).Some? {
      var c := Completes(norm, e).value;
      if k :| Picks(norm, s.openTaskRefs, c, k) {
        FilterMember(Except(k), s.openTaskRefs, p);
        FormedRefs(s);
        PickIsClosed(norm, s.openTaskRefs, e, k);
        PickIsClosed(norm, s.openTaskRefs, e, key);
      }
    }
  }

  lemma OneEffect(norm: Normalizer, e: Event)
    ensures Opens(norm, e).Some? ==> Deletes(e).None? && Completes(norm, e).None?
    ensures Deletes(e).Some? ==> Completes(norm, e).None?
  {
    hide IdNamed, TextNamed;
  }

  /** A reference is open with a label exactly when the last event that opened it gave it that label and no
      later event deleted or closed it. */
  lemma {:induction false} OpenExactly(norm: Normalizer, es: seq<Event>, key: string, title: string)
    requires DistinctIds(es)
    ensures (key, title) in Replay(norm, es).openTaskRefs <==>
            exists i :: 0 <= i < |es| && OpenSince(norm, es, i, key, title)
  {
    hide Replay, Opens, Ends, OpensKey, OpenSince, DistinctIds;
    if es == [] {
      NothingOpenYet(norm);
    } else {
      var front, n := es[..|es| - 1], |es| - 1;
      MemberStep(norm, es, key, title);
      FrontIds(es);
      OpenExactly(norm, front, key, title);
      LastOpens(norm, es, key, title);
      forall i | 0 <= i < n ensures OpenSince(norm, es, i, key, title) <==>
          OpenSince(norm, front, i, key, title) && !OpensKey(norm, es[n], key) && !Ends(norm, es, n, key)
      {
        SinceStep(norm, es, i, key, title);
      }
      if (key, title) in Replay(norm, front).openTaskRefs {
        var i :| 0 <= i < |front| && OpenSince(norm, front, i, key, title);
        assert OpenSince(norm, es, i, key, title) <==>
          OpenSince(norm, front, i, key, title) && !OpensKey(norm, es[n], key) && !Ends(norm, es, n, key);
      }
    }
  }

  lemma NothingOpenYet(norm: Normalizer)
    ensures Replay(norm, []).openTaskRefs == []
  {
  }

  lemma FrontIds(es: seq<Event>)
    requires es != [] && DistinctIds(es)
    ensures DistinctIds(es[..|es| - 1])
  {
  }

  lemma LastOpens(norm: Normalizer, es: seq<Event>, key: string, title: string)
    requires es != []
    ensures OpenSince(norm, es, |es| - 1, key, title) <==> Opens(norm, es[|es| - 1]) == Some((key, title))
  {
  }

  lemma SinceStep(norm: Normalizer, es: seq<Event>, i: nat, key: string, title: string)
    requires es != [] && i < |es| - 1
    ensures
      var front, n := es[..|es| - 1], |es| - 1;
      OpenSince(norm, es, i, key, title) <==>
        OpenSince(norm, front, i, key, title) && !OpensKey(norm, es[n], key) && !Ends(norm, es, n, key)
  {
    hide Opens, Deletes, Completes, Picks, OpensKey, Replay;
    var front, n := es[..|es| - 1], |es| - 1;
    forall j | i < j < n ensures Ends(norm, es, j, key) <==> Ends(norm, front, j, key) {
      assert front[..j] == es[..j];
    }
  }

  /** The labels completion events name, in order. */
  function Completed(norm: Normalizer, es: seq<Event>): seq<string> {
    if es == [] then []
    else
      var c := Completes(norm, es[|es| - 1]);
      Completed(norm, es[..|es| - 1]) + (if c.Some? then [c.value.title] else [])
  }

  /** Completed tasks are those labels, each once, in order of first completion. */
  lemma {:induction false} CompletedExactly(norm: Normalizer, es: seq<Event>)
    requires DistinctIds(es)
    ensures Replay(norm, es).completedTasks == Dedupe(Completed(norm, es))
  {
    if es != [] {
      hide Step, Completes, Opens, Deletes, Picks, Placed, Filter, Ids;
      var front, e := es[..|es| - 1], es[|es| - 1];
      CompletedExactly(norm, front);
      LastIdIsNew(es);
      RunApplied(norm, Fresh(EMPTY_STATE), front);
      RunWellFormed(norm, Fresh(EMPTY_STATE), front);
      TaskStep(norm, Replay(norm, front), e);
      if Completes(norm, e).Some? {
        DedupeSnoc(Completed(norm, front), Completes(norm, e).value.title);
      } else {
        assert Completed(norm, front) + [] == Completed(norm, front);
      }
    }
  }
}
