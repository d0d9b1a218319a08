/** Payload fields read in order of preference, as a reader of the events would say it. */
module Fields {
  import opened Wrappers
  import opened Json
  import opened Events

  /** The values Python takes for false: `None`, `False`, zero and everything empty. */
  predicate Falsy(j: Json) {
    || j == Null || j == Bool(false) || j == Num(0) || (j.Float? && j.mantissa == 0)
    || j == Str("") || j == Arr([]) || j == Obj(map[])
  }

  /** The first field that is not falsy, when it is text. */
  function FirstText(fields: seq<Json>): Option<string> {
    if fields == [] then None
    else if Falsy(fields[0]) then FirstText(fields[1..])
    else if fields[0].Str? then Some(fields[0].s)
    else None
  }

  /** The first field that is not falsy, whatever it is. */
  function FirstOf(fields: seq<Json>): Option<Json> {
    if fields == [] then None
    else if Falsy(fields[0]) then FirstOf(fields[1..])
    else Some(fields[0])
  }

  lemma TruthyIsNotFalsy(j: Json)
    ensures Truthy(j) <==> !Falsy(j)
  {
  }

  lemma OneText(a: Json)
    ensures NonEmptyText(a) == FirstText([a])
  {
  }

  lemma TwoTexts(a: Json, b: Json)
    ensures NonEmptyText(Or(a, b)) == FirstText([a, b])
  {
    assert [a, b][1..] == [b];
    OneText(b);
  }

  lemma ThreeTexts(a: Json, b: Json, c: Json)
    ensures NonEmptyText(Or(Or(a, b), c)) == FirstText([a, b, c])
  {
    assert [a, b, c][1..] == [b, c];
    TwoTexts(b, c);
  }

  /** Python's chain of `or`s: the first field that is not falsy, or the last. */
  lemma OrIsFirst(a: Json, b: Json, c: Json)
    ensures Or(a, b) == if FirstOf([a]).Some? then a else b
    ensures Or(Or(a, b), c) == if FirstOf([a, b]).Some? then FirstOf([a, b]).value else c
  {
    assert [a][1..] == [] && [a, b][1..] == [b] && [b][1..] == [];
  }

  // ---- What the last of several events said ----

  function LastSaid<T>(says: Event -> Option<T>, es: seq<Event>): Option<T> {
    if es == [] then None
    else if says(es[|es| - 1]).Some? then says(es[|es| - 1])
    else LastSaid(says, es[..|es| - 1])
  }

  function SaidOr<T>(says: Event -> Option<T>, es: seq<Event>, before: T): T {
    var said := LastSaid(says, es);
    if said.Some? then said.value else before
  }

  lemma SaidSnoc<T>(says: Event -> Option<T>, es: seq<Event>, before: T)
    requires es != []
    ensures
      var e := es[|es| - 1];
      SaidOr(says, es, before) == if says(e).Some? then says(e).value else SaidOr(says, es[..|es| - 1], before)
  {
  }

  // ---- What an event names ----

  /** The file: its own column first, then `file_path`, then `file`. */
  function FileNamed(e: Event): Option<string> {
    FirstText([OfText(e.filePath), Get(e.payload, "file_path"), Get(e.payload, "file")])
  }

  function IdNamed(e: Event): Option<string> {
    FirstText([Get(e.payload, "task_id")])
  }

  /** The text under one key or else another, or else the event's hint. */
  function TextNamed(e: Event, first: string, second: string): Option<string> {
    FirstText([Get(e.payload, first), Get(e.payload, second), OfText(e.taskHint)])
  }

  function GoalNamed(e: Event): Option<string> {
    FirstText([Get(e.payload, "goal"), OfText(e.taskHint)])
  }

  lemma FileIsNamed(e: Event)
    ensures FilePathOf(e) == FileNamed(e)
  {
    ThreeTexts(OfText(e.filePath), Get(e.payload, "file_path"), Get(e.payload, "file"));
  }

  lemma GoalIsNamed(e: Event)
    ensures NonEmptyText(Or(Get(e.payload, "goal"), OfText(e.taskHint))) == GoalNamed(e)
  {
    TwoTexts(Get(e.payload, "goal"), OfText(e.taskHint));
  }
}
