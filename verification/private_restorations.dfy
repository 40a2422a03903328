/** Placeholder substitution over whole JSON trees, each substitution addressed by a JSON Pointer. */
module PrivateRestorations {
  import opened Options
  import opened JsonPointer
  import opened PlaceholderText
  import opened RestorationRebase

  datatype Restoration = Restoration(path: string, start: nat, end: nat, key: string)

  /** An entry of a received restoration list: anything but a mapping with well-typed fields is malformed. */
  datatype RawItem = Malformed | Raw(path: string, start: int, end: int, key: string)

  function Located(path: string, spans: seq<Span>): seq<Restoration> {
    seq(|spans|, i requires 0 <= i < |spans| => Restoration(path, spans[i].start, spans[i].end, spans[i].key))
  }

  // ---------------------------------------------------------------- the walk

  /** The simple form: the same tree with every text substituted. */
  function Restore(find: string -> seq<Token>, item: Json): Json
    requires Finder(find)
  {
    match item
    case Text(text) => Text(assert InOrder(find(text), 0, |text|); Substitute(text, find(text)))
    case Object(fields) => Object(RestoreFields(find, fields))
    case Array(items) => Array(RestoreItems(find, items))
    case Atom(_) => item
  }

  function RestoreFields(find: string -> seq<Token>, fields: seq<Field>): seq<Field>
    requires Finder(find)
  {
    if |fields| == 0 then []
    else [Field(fields[0].key, Restore(find, fields[0].value))] + RestoreFields(find, fields[1..])
  }

  function RestoreItems(find: string -> seq<Token>, items: seq<Json>): seq<Json>
    requires Finder(find)
  {
    if |items| == 0 then [] else [Restore(find, items[0])] + RestoreItems(find, items[1..])
  }

  /** Where the substitutions of a tree are: leaf after leaf, each under the pointer of its leaf. */
  function Record(find: string -> seq<Token>, item: Json, path: string): seq<Restoration>
    requires Finder(find)
  {
    match item
    case Text(text) => Located(path, assert InOrder(find(text), 0, |text|); Spans(text, find(text)))
    case Object(fields) => RecordFields(find, fields, path)
    case Array(items) => RecordItems(find, items, path, 0)
    case Atom(_) => []
  }

  function RecordFields(find: string -> seq<Token>, fields: seq<Field>, path: string): seq<Restoration>
    requires Finder(find)
  {
    if |fields| == 0 then []
    else Record(find, fields[0].value, path + "/" + Escape(fields[0].key)) + RecordFields(find, fields[1..], path)
  }

  function RecordItems(find: string -> seq<Token>, items: seq<Json>, path: string, position: nat): seq<Restoration>
    requires Finder(find)
  {
    if |items| == 0 then []
    else Record(find, items[0], path + "/" + Decimal(position)) + RecordItems(find, items[1..], path, position + 1)
  }

  /** `walk`: the restored tree, and the shared span list grown by what this tree adds. */
  method Walk(find: string -> seq<Token>, item: Json, path: string, spans: seq<Restoration>)
    returns (restored: Json, spans1: seq<Restoration>)
    requires Finder(find)
    ensures restored == Restore(find, item) && spans1 == spans + Record(find, item, path)
    decreases item, 1
  {
    match item
    case Text(text) =>
      var leaf, found := RecordText(find, text);
      restored, spans1 := Text(leaf), spans + Located(path, found);
    case Object(fields) =>
      var fields1;
      fields1, spans1 := WalkFields(find, fields, path, spans);
      restored := Object(fields1);
    case Array(items) =>
      var items1;
      items1, spans1 := WalkItems(find, items, path, spans);
      restored := Array(items1);
    case Atom(_) =>
      restored, spans1 := item, spans;
  }

  /** What a loop over children has so far, and what the rest of them adds, make up the whole. */
  ghost predicate FieldsWalked(find: string -> seq<Token>, fields: seq<Field>, left: seq<Field>, path: string,
                               spans: seq<Restoration>, restored: seq<Field>, spans1: seq<Restoration>) {
    && Finder(find)
    && restored + RestoreFields(find, left) == RestoreFields(find, fields)
    && spans1 + RecordFields(find, left, path) == spans + RecordFields(find, fields, path)
  }

  lemma FieldWalked(find: string -> seq<Token>, fields: seq<Field>, left: seq<Field>, path: string,
                    spans: seq<Restoration>, restored: seq<Field>, spans1: seq<Restoration>)
    requires |left| > 0 && FieldsWalked(find, fields, left, path, spans, restored, spans1)
    ensures var child, more :=
      Restore(find, left[0].value), Record(find, left[0].value, path + "/" + Escape(left[0].key));
      FieldsWalked(find, fields, left[1..], path, spans, restored + [Field(left[0].key, child)], spans1 + more)
  {
    var child, more := Restore(find, left[0].value), Record(find, left[0].value, path + "/" + Escape(left[0].key));
    AppendedPair(restored, [Field(left[0].key, child)], RestoreFields(find, left[1..]));
    AppendedPair(spans1, more, RecordFields(find, left[1..], path));
  }

  lemma AppendedPair<T>(done: seq<T>, next: seq<T>, rest: seq<T>)
    ensures done + (next + rest) == done + next + rest
  {
  }

  method WalkFields(find: string -> seq<Token>, fields: seq<Field>, path: string, spans: seq<Restoration>)
    returns (restored: seq<Field>, spans1: seq<Restoration>)
    requires Finder(find)
    ensures restored == RestoreFields(find, fields) && spans1 == spans + RecordFields(find, fields, path)
    decreases fields, 0
  {
    restored, spans1 := [], spans;
    assert fields[0..] == fields;
    for i := 0 to |fields|
      invariant FieldsWalked(find, fields, fields[i..], path, spans, restored, spans1)
    {
      ghost var left := fields[i..];
      assert left[0] == fields[i] && left[1..] == fields[i + 1..];
      FieldWalked(find, fields, left, path, spans, restored, spans1);
      hide FieldsWalked, Restore, Record, Finder, Escape;
      var child;
      child, spans1 := Walk(find, fields[i].value, path + "/" + Escape(fields[i].key), spans1);
      restored := restored + [Field(fields[i].key, child)];
    }
  }

  ghost predicate ItemsWalked(find: string -> seq<Token>, items: seq<Json>, left: seq<Json>, path: string,
                              position: nat, spans: seq<Restoration>, restored: seq<Json>,
                              spans1: seq<Restoration>) {
    && Finder(find)
    && restored + RestoreItems(find, left) == RestoreItems(find, items)
    && spans1 + RecordItems(find, left, path, position) == spans + RecordItems(find, items, path, 0)
  }

  lemma ItemWalked(find: string -> seq<Token>, items: seq<Json>, left: seq<Json>, path: string, position: nat,
                   spans: seq<Restoration>, restored: seq<Json>, spans1: seq<Restoration>)
    requires |left| > 0 && ItemsWalked(find, items, left, path, position, spans, restored, spans1)
    ensures var child, more := Restore(find, left[0]), Record(find, left[0], path + "/" + Decimal(position));
      ItemsWalked(find, items, left[1..], path, position + 1, spans, restored + [child], spans1 + more)
  {
    var child, more := Restore(find, left[0]), Record(find, left[0], path + "/" + Decimal(position));
    AppendedPair(restored, [child], RestoreItems(find, left[1..]));
    AppendedPair(spans1, more, RecordItems(find, left[1..], path, position + 1));
  }

  method WalkItems(find: string -> seq<Token>, items: seq<Json>, path: string, spans: seq<Restoration>)
    returns (restored: seq<Json>, spans1: seq<Restoration>)
    requires Finder(find)
    ensures restored == RestoreItems(find, items) && spans1 == spans + RecordItems(find, items, path, 0)
    decreases items, 0
  {
    restored, spans1 := [], spans;
    assert items[0..] == items;
    for i := 0 to |items|
      invariant ItemsWalked(find, items, items[i..], path, i, spans, restored, spans1)
    {
      ghost var left := items[i..];
      assert left[0] == items[i] && left[1..] == items[i + 1..];
      ItemWalked(find, items, left, path, i, spans, restored, spans1);
      hide ItemsWalked, Restore, Record, Finder, Decimal;
      var child;
      child, spans1 := Walk(find, items[i], path + "/" + Decimal(i), spans1);
      restored := restored + [child];
    }
  }

  // ---------------------------------------------------------------- nothing to substitute

  /** This process supplied no value for any key. */
  ghost predicate NoValues(find: string -> seq<Token>) {
    forall s, i :: 0 <= i < |find(s)| ==> find(s)[i].value == None
  }

  /** Without values the tree comes back as it was, which is what lets the simple form return early. */
  lemma {:induction false} NoValuesChangeNothing(find: string -> seq<Token>, item: Json, path: string)
    requires Finder(find) && NoValues(find)
    ensures Restore(find, item) == item && |Record(find, item, path)| == 0
    decreases item, 1
  {
    match item
    case Text(text) =>
      assert InOrder(find(text), 0, |text|);
      NothingToSubstitute(text, find(text), 0, |text|, 0);
    case Object(fields) => NoValuesInFields(find, fields, path);
    case Array(items) => NoValuesInItems(find, items, path, 0);
    case Atom(_) =>
  }

  lemma {:induction false} NoValuesInFields(find: string -> seq<Token>, fields: seq<Field>, path: string)
    requires Finder(find) && NoValues(find)
    ensures RestoreFields(find, fields) == fields && |RecordFields(find, fields, path)| == 0
    decreases fields, 0
  {
    if |fields| > 0 {
      NoValuesChangeNothing(find, fields[0].value, path + "/" + Escape(fields[0].key));
      NoValuesInFields(find, fields[1..], path);
    }
  }

  lemma {:induction false} NoValuesInItems(find: string -> seq<Token>, items: seq<Json>, path: string, position: nat)
    requires Finder(find) && NoValues(find)
    ensures RestoreItems(find, items) == items && |RecordItems(find, items, path, position)| == 0
    decreases items, 0
  {
    if |items| > 0 {
      NoValuesChangeNothing(find, items[0], path + "/" + Decimal(position));
      NoValuesInItems(find, items[1..], path, position + 1);
    }
  }
}
