/**
 * The report's style table: text styles keyed by name, in insertion order.
 *
 * The report keeps its styles in an array keyed by style name. Such an
 * array remembers the order in which keys were first inserted, and
 * overwriting a key keeps it in its place; the lookup falls back to the
 * first entry when a name is missing. The table is therefore an ordered
 * map: the keys in insertion order next to a map from key to style.
 */
module StyleTables {
  import opened Wrappers

  /** A style definition: its `name` entry and the rest of its attributes (font, size, ...). */
  datatype Style = Style(name: string, attributes: map<string, string>)

  /** Styles by name, with the names in the order they were first added. */
  datatype StyleTable = StyleTable(order: seq<string>, entries: map<string, Style>)
  {
    /** The order lists each key of `entries` exactly once. */
    ghost predicate Valid()
    {
      && (forall i, j :: 0 <= i < j < |order| ==> order[i] != order[j])
      && (forall n :: n in order <==> n in entries)
    }
  }

  /** The table of a report before any style is added. */
  function Empty(): (t: StyleTable)
    ensures t.Valid() && t.entries == map[]
  {
    StyleTable([], map[])
  }

  /**
   * Add a style, replacing any style of the same name. A new name goes to
   * the end of the order; a name already present keeps its position.
   */
  function Put(t: StyleTable, s: Style): (r: StyleTable)
    requires t.Valid()
    ensures r.Valid()
    ensures s.name in r.entries && r.entries[s.name] == s
    ensures forall n :: n != s.name ==> (n in r.entries <==> n in t.entries)
    ensures forall n :: n != s.name && n in t.entries ==> r.entries[n] == t.entries[n]
    ensures t.order <= r.order
    ensures s.name in t.entries ==> |r.order| == |t.order|
    ensures s.name !in t.entries ==> |r.order| == |t.order| + 1 && r.order[|t.order|] == s.name
  {
    if s.name in t.entries then
      StyleTable(t.order, t.entries[s.name := s])
    else
      StyleTable(t.order + [s.name], t.entries[s.name := s])
  }

  /**
   * Look a style up by name. A missing name yields the first-inserted
   * style instead; only an empty table yields nothing.
   */
  function Get(t: StyleTable, name: string): (r: Option<Style>)
    requires t.Valid()
    ensures name in t.entries ==> r == Some(t.entries[name])
    ensures r.None? <==> t.entries == map[]
    ensures name !in t.entries && r.Some? ==> |t.order| > 0 && r == Some(t.entries[t.order[0]])
    ensures r.Some? ==> r.value in t.entries.Values
  {
    if name in t.entries then
      Some(t.entries[name])
    else if |t.order| == 0 then
      None
    else
      Some(t.entries[t.order[0]])
  }

  /** The table after adding `styles` one by one, in order, to `t`. */
  function PutAll(t: StyleTable, styles: seq<Style>): (r: StyleTable)
    requires t.Valid()
    ensures r.Valid()
    decreases |styles|
  {
    if |styles| == 0 then t else Put(PutAll(t, styles[..|styles| - 1]), styles[|styles| - 1])
  }

  /** Independent reference: the last style in `styles` that has the given name, if any. */
  function LastNamed(styles: seq<Style>, name: string): (r: Option<Style>)
    ensures r.None? <==> forall i :: 0 <= i < |styles| ==> styles[i].name != name
    ensures r.Some? ==> r.value.name == name
    ensures r.Some? ==>
      exists i :: 0 <= i < |styles| && styles[i] == r.value &&
        forall j :: i < j < |styles| ==> styles[j].name != name
    decreases |styles|
  {
    if |styles| == 0 then None
    else if styles[|styles| - 1].name == name then Some(styles[|styles| - 1])
    else LastNamed(styles[..|styles| - 1], name)
  }

  /** Adding styles never moves or removes a name already in the order. */
  lemma {:induction false} PutAllKeepsOrder(t: StyleTable, styles: seq<Style>)
    requires t.Valid()
    ensures t.order <= PutAll(t, styles).order
    decreases |styles|
  {
    if |styles| > 0 {
      var init := styles[..|styles| - 1];
      PutAllKeepsOrder(t, init);
    }
  }

  /** After adding a non-empty sequence of styles to an empty table, the first style's name comes first. */
  lemma {:induction false} FirstAddedComesFirst(styles: seq<Style>)
    requires |styles| > 0
    ensures |PutAll(Empty(), styles).order| > 0
    ensures PutAll(Empty(), styles).order[0] == styles[0].name
    decreases |styles|
  {
    if |styles| > 1 {
      var init := styles[..|styles| - 1];
      FirstAddedComesFirst(init);
      assert init[0] == styles[0];
    }
  }

  /**
   * Last write wins: after a sequence of adds, a name that occurs among them
   * maps to the last style added under it.
   */
  lemma {:induction false} LastWriteWins(t: StyleTable, styles: seq<Style>, name: string)
    requires t.Valid()
    requires LastNamed(styles, name).Some?
    ensures name in PutAll(t, styles).entries
    ensures PutAll(t, styles).entries[name] == LastNamed(styles, name).value
    decreases |styles|
  {
    var init, last := styles[..|styles| - 1], styles[|styles| - 1];
    if last.name != name {
      LastWriteWins(t, init, name);
    }
  }

  /** Adds under other names leave a name's entry, or its absence, as it was. */
  lemma {:induction false} OtherNamesUntouched(t: StyleTable, styles: seq<Style>, name: string)
    requires t.Valid()
    requires LastNamed(styles, name).None?
    ensures name in PutAll(t, styles).entries <==> name in t.entries
    ensures name in t.entries ==> PutAll(t, styles).entries[name] == t.entries[name]
    decreases |styles|
  {
    if |styles| > 0 {
      var init := styles[..|styles| - 1];
      assert LastNamed(init, name).None?;
      OtherNamesUntouched(t, init, name);
    }
  }

  /**
   * The fallback of a lookup is the first-inserted style, however many
   * styles follow it: a name never added yields whatever is stored under
   * the first added name, which is the last style added under that name.
   */
  lemma {:induction false} MissingNameYieldsFirstAdded(styles: seq<Style>, name: string)
    requires |styles| > 0
    requires forall i :: 0 <= i < |styles| ==> styles[i].name != name
    ensures Get(PutAll(Empty(), styles), name) == LastNamed(styles, styles[0].name)
    ensures LastNamed(styles, styles[0].name).Some?
  {
    FirstAddedComesFirst(styles);
    OtherNamesUntouched(Empty(), styles, name);
    assert LastNamed(styles, styles[0].name).Some?;
    LastWriteWins(Empty(), styles, styles[0].name);
  }

  /** Adding the same name twice: the second style is the one found, in the first one's place. */
  lemma SecondAddReplacesFirst(t: StyleTable, s1: Style, s2: Style)
    requires t.Valid() && s1.name == s2.name
    ensures Get(Put(Put(t, s1), s2), s2.name) == Some(s2)
    ensures Put(Put(t, s1), s2).order == Put(t, s1).order
  {
  }
}
