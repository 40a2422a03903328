/** Every recorded pointer leads back to its own leaf, and spans under one pointer never overlap. */
module RestorationPointers {
  import opened Options
  import opened JsonPointer
  import opened PlaceholderText
  import opened RestorationRebase
  import opened PrivateRestorations

  predicate NoSlashes(segments: seq<string>) {
    forall i :: 0 <= i < |segments| ==> '/' !in segments[i]
  }

  /** `r` is one of the spans of this leaf's own text. */
  ghost predicate FromLeaf(find: string -> seq<Token>, leaf: Option<Json>, r: Restoration)
    requires Finder(find)
  {
    && leaf.Some? && leaf.value.Text?
    && var text := leaf.value.text;
       assert InOrder(find(text), 0, |text|);
       exists k :: 0 <= k < |Spans(text, find(text))| && r == Located(r.path, Spans(text, find(text)))[k]
  }

  /** The segments under `path` that lead from `item` to the leaf of `r`. */
  ghost predicate Leads(find: string -> seq<Token>, item: Json, path: string, segments: seq<string>, r: Restoration)
    requires Finder(find)
  {
    && NoSlashes(segments) && r.path == path + Join(segments)
    && FromLeaf(find, EnterAll(Some(item), segments), r)
  }

  lemma EscapeHasNoSlash(key: string)
    ensures '/' !in Escape(key)
  {
    ReplacedAway(ReplaceChar(key, '~', "~0"), '/', "~1");
  }

  lemma DecimalHasNoSlash(n: nat)
    ensures '/' !in Decimal(n) && '~' !in Decimal(n)
  {
    DecimalRoundTrip(n);
    hide Decimal;
    assert !IsDigit('/') && !IsDigit('~');
  }

  lemma JoinCons(first: string, rest: seq<string>, path: string)
    ensures Join([first] + rest) == "/" + first + Join(rest)
    ensures path + Join([first] + rest) == (path + "/" + first) + Join(rest)
  {
    assert ([first] + rest)[1..] == rest;
  }

  lemma LeafLeads(find: string -> seq<Token>, text: string, path: string, i: nat)
    requires Finder(find) && i < |Record(find, Text(text), path)|
    ensures Leads(find, Text(text), path, [], Record(find, Text(text), path)[i])
  {
    assert path + Join([]) == path;
    assert InOrder(find(text), 0, |text|);
    hide Spans;
    assert Record(find, Text(text), path)[i] == Located(path, Spans(text, find(text)))[i];
  }

  lemma LeadsThrough(find: string -> seq<Token>, item: Json, path: string, first: string, child: Json,
                     rest: seq<string>, r: Restoration)
    requires Finder(find) && '/' !in first && Enter(Some(item), first) == Some(child)
    requires Leads(find, child, path + "/" + first, rest, r)
    ensures Leads(find, item, path, [first] + rest, r)
  {
    hide Finder, Enter, FromLeaf;
    JoinCons(first, rest, path);
    var segments := [first] + rest;
    assert segments[1..] == rest;
    assert NoSlashes(segments);
    hide Join;
  }

  lemma {:induction false} LeadsBack(find: string -> seq<Token>, item: Json, path: string, i: nat)
    returns (segments: seq<string>)
    requires Finder(find) && WellFormed(item) && i < |Record(find, item, path)|
    ensures Leads(find, item, path, segments, Record(find, item, path)[i])
    decreases item, 1
  {
    hide Finder, Escape, Decimal, Leads, Enter;
    match item
    case Text(text) =>
      segments := [];
      LeafLeads(find, text, path, i);
    case Object(fields) =>
      var k, rest := LeadsBackField(find, fields, path, i);
      segments := [Escape(fields[k].key)] + rest;
      FieldEntered(fields, k);
      EscapeHasNoSlash(fields[k].key);
      LeadsThrough(find, item, path, Escape(fields[k].key), fields[k].value, rest, Record(find, item, path)[i]);
    case Array(items) =>
      var k, rest := LeadsBackItem(find, items, path, 0, i);
      segments := [Decimal(k)] + rest;
      ItemEntered(items, k);
      DecimalHasNoSlash(k);
      LeadsThrough(find, item, path, Decimal(k), items[k], rest, Record(find, item, path)[i]);
    case Atom(_) =>
  }

  lemma FieldEntered(fields: seq<Field>, k: nat)
    requires DistinctKeys(fields) && k < |fields|
    ensures Enter(Some(Object(fields)), Escape(fields[k].key)) == Some(fields[k].value)
  {
    EscapeRoundTrip(fields[k].key);
    hide Escape, Unescape;
    MemberAt(fields, k);
  }

  lemma {:induction false} MemberAt(fields: seq<Field>, k: nat)
    requires DistinctKeys(fields) && k < |fields|
    ensures Member(fields, fields[k].key) == Some(fields[k].value)
  {
    if k > 0 {
      MemberAt(fields[1..], k - 1);
    }
  }

  lemma ItemEntered(items: seq<Json>, k: nat)
    requires k < |items|
    ensures Enter(Some(Array(items)), Decimal(k)) == Some(items[k])
  {
    DecimalHasNoSlash(k);
    NothingToUnescape(Decimal(k));
    DecimalRoundTrip(k);
    hide Decimal, ParseDecimal, Unescape;
  }

  /** The segments lead to `r` through the field at `k`. */
  ghost predicate FieldLeads(find: string -> seq<Token>, fields: seq<Field>, path: string, k: nat,
                             segments: seq<string>, r: Restoration) {
    Finder(find) && k < |fields| && Leads(find, fields[k].value, path + "/" + Escape(fields[k].key), segments, r)
  }

  lemma FieldLeadsLater(find: string -> seq<Token>, fields: seq<Field>, path: string, k: nat,
                        segments: seq<string>, r: Restoration)
    requires |fields| > 0 && FieldLeads(find, fields[1..], path, k, segments, r)
    ensures FieldLeads(find, fields, path, k + 1, segments, r)
  {
    hide Leads, Finder, Escape;
    assert fields[1..][k] == fields[k + 1];
  }

  lemma FieldLeadsFirst(find: string -> seq<Token>, fields: seq<Field>, path: string, segments: seq<string>,
                        r: Restoration)
    requires Finder(find) && |fields| > 0
    requires Leads(find, fields[0].value, path + "/" + Escape(fields[0].key), segments, r)
    ensures FieldLeads(find, fields, path, 0, segments, r)
  {
  }

  /** The `i`-th restoration of the fields is one of the first field's, or one of the others'. */
  lemma FieldsAt(find: string -> seq<Token>, fields: seq<Field>, path: string, i: nat)
    requires Finder(find) && FieldsWellFormed(fields) && i < |RecordFields(find, fields, path)|
    ensures |fields| > 0 && WellFormed(fields[0].value) && FieldsWellFormed(fields[1..])
    ensures var first, later :=
      Record(find, fields[0].value, path + "/" + Escape(fields[0].key)), RecordFields(find, fields[1..], path);
      if i < |first| then RecordFields(find, fields, path)[i] == first[i]
      else i - |first| < |later| && RecordFields(find, fields, path)[i] == later[i - |first|]
  {
    hide Record, Finder, Escape;
  }

  lemma {:induction false} LeadsBackField(find: string -> seq<Token>, fields: seq<Field>, path: string, i: nat)
    returns (k: nat, segments: seq<string>)
    requires Finder(find) && FieldsWellFormed(fields) && i < |RecordFields(find, fields, path)|
    ensures FieldLeads(find, fields, path, k, segments, RecordFields(find, fields, path)[i])
    decreases fields, 0
  {
    hide *;
    FieldsAt(find, fields, path, i);
    var childPath, r := path + "/" + Escape(fields[0].key), RecordFields(find, fields, path)[i];
    var n := |Record(find, fields[0].value, childPath)|;
    if i < n {
      segments := LeadsBack(find, fields[0].value, childPath, i);
      k := 0;
      FieldLeadsFirst(find, fields, path, segments, r);
    } else {
      k, segments := LeadsBackField(find, fields[1..], path, i - n);
      FieldLeadsLater(find, fields, path, k, segments, r);
      k := k + 1;
    }
  }

  ghost predicate ItemLeads(find: string -> seq<Token>, items: seq<Json>, path: string, position: nat, k: nat,
                            segments: seq<string>, r: Restoration) {
    Finder(find) && position <= k < position + |items| &&
      Leads(find, items[k - position], path + "/" + Decimal(k), segments, r)
  }

  lemma ItemLeadsLater(find: string -> seq<Token>, items: seq<Json>, path: string, position: nat, k: nat,
                       segments: seq<string>, r: Restoration)
    requires |items| > 0 && ItemLeads(find, items[1..], path, position + 1, k, segments, r)
    ensures ItemLeads(find, items, path, position, k, segments, r)
  {
    hide Leads, Finder, Decimal;
    assert items[1..][k - position - 1] == items[k - position];
  }

  lemma ItemLeadsFirst(find: string -> seq<Token>, items: seq<Json>, path: string, position: nat,
                       segments: seq<string>, r: Restoration)
    requires Finder(find) && |items| > 0 && Leads(find, items[0], path + "/" + Decimal(position), segments, r)
    ensures ItemLeads(find, items, path, position, position, segments, r)
  {
  }

  lemma ItemsAt(find: string -> seq<Token>, items: seq<Json>, path: string, position: nat, i: nat)
    requires Finder(find) && ItemsWellFormed(items) && i < |RecordItems(find, items, path, position)|
    ensures |items| > 0 && WellFormed(items[0]) && ItemsWellFormed(items[1..])
    ensures var first, later :=
      Record(find, items[0], path + "/" + Decimal(position)), RecordItems(find, items[1..], path, position + 1);
      if i < |first| then RecordItems(find, items, path, position)[i] == first[i]
      else i - |first| < |later| && RecordItems(find, items, path, position)[i] == later[i - |first|]
  {
    hide Record, Finder, Decimal;
  }

  lemma {:induction false} LeadsBackItem(find: string -> seq<Token>, items: seq<Json>, path: string, position: nat,
                                         i: nat)
    returns (k: nat, segments: seq<string>)
    requires Finder(find) && ItemsWellFormed(items) && i < |RecordItems(find, items, path, position)|
    ensures ItemLeads(find, items, path, position, k, segments, RecordItems(find, items, path, position)[i])
    decreases items, 0
  {
    hide *;
    ItemsAt(find, items, path, position, i);
    var childPath, r := path + "/" + Decimal(position), RecordItems(find, items, path, position)[i];
    var n := |Record(find, items[0], childPath)|;
    if i < n {
      segments := LeadsBack(find, items[0], childPath, i);
      k := position;
      ItemLeadsFirst(find, items, path, position, segments, r);
    } else {
      k, segments := LeadsBackItem(find, items[1..], path, position + 1, i - n);
      ItemLeadsLater(find, items, path, position, k, segments, r);
    }
  }

  /** The rebase walker, given the pointer of any recorded span, arrives at that span's own leaf. */
  lemma PointerLeadsBack(find: string -> seq<Token>, item: Json, i: nat)
    requires Finder(find) && WellFormed(item) && !item.Text? && i < |Record(find, item, "")|
    ensures var r := Record(find, item, "")[i];
      r.path != "" && r.path[0] == '/' && FromLeaf(find, Follow(item, r.path), r)
  {
    var segments := LeadsBack(find, item, "", i);
    var r := Record(find, item, "")[i];
    assert "" + Join(segments) == Join(segments);
    SplitJoin(segments);
  }

  // ---------------------------------------------------------------- spans under one pointer

  predicate SamePathApart(rs: seq<Restoration>) {
    forall i, j :: 0 <= i < j < |rs| && rs[i].path == rs[j].path ==> rs[i].end <= rs[j].start
  }

  predicate NoSharedPath(a: seq<Restoration>, b: seq<Restoration>) {
    forall i, j :: 0 <= i < |a| && 0 <= j < |b| ==> a[i].path != b[j].path
  }

  lemma ApartConcat(a: seq<Restoration>, b: seq<Restoration>)
    requires SamePathApart(a) && SamePathApart(b) && NoSharedPath(a, b)
    ensures SamePathApart(a + b)
  {
  }

  lemma PathsDiffer(path: string, first: string, rest: seq<string>, first1: string, rest1: seq<string>)
    requires '/' !in first && '/' !in first1 && NoSlashes(rest) && NoSlashes(rest1) && first != first1
    ensures (path + "/" + first) + Join(rest) != (path + "/" + first1) + Join(rest1)
  {
    var a, b := [first] + rest, [first1] + rest1;
    JoinCons(first, rest, path);
    JoinCons(first1, rest1, path);
    assert a[0] != b[0] && NoSlashes(a) && NoSlashes(b);
    SplitJoin(a);
    SplitJoin(b);
    assert (path + Join(a))[|path|..] == Join(a) && (path + Join(b))[|path|..] == Join(b);
  }

  lemma EscapeInjective(a: string, b: string)
    requires a != b
    ensures Escape(a) != Escape(b)
  {
    EscapeRoundTrip(a);
    EscapeRoundTrip(b);
  }

  lemma DecimalInjective(a: nat, b: nat)
    requires a != b
    ensures Decimal(a) != Decimal(b)
  {
    DecimalRoundTrip(a);
    DecimalRoundTrip(b);
  }

  lemma FieldPathsDiffer(find: string -> seq<Token>, fields: seq<Field>, path: string)
    requires Finder(find) && DistinctKeys(fields) && FieldsWellFormed(fields) && |fields| > 0
    ensures NoSharedPath(Record(find, fields[0].value, path + "/" + Escape(fields[0].key)),
      RecordFields(find, fields[1..], path))
  {
    var a, b :=
      Record(find, fields[0].value, path + "/" + Escape(fields[0].key)), RecordFields(find, fields[1..], path);
    forall i, j | 0 <= i < |a| && 0 <= j < |b|
      ensures a[i].path != b[j].path
    {
      var rest := LeadsBack(find, fields[0].value, path + "/" + Escape(fields[0].key), i);
      var k, rest1 := LeadsBackField(find, fields[1..], path, j);
      assert fields[1..][k] == fields[k + 1];
      EscapeInjective(fields[0].key, fields[k + 1].key);
      EscapeHasNoSlash(fields[0].key);
      EscapeHasNoSlash(fields[k + 1].key);
      hide Record, RecordFields, Escape, Finder, FromLeaf;
      PathsDiffer(path, Escape(fields[0].key), rest, Escape(fields[k + 1].key), rest1);
    }
  }

  lemma ItemPathsDiffer(find: string -> seq<Token>, items: seq<Json>, path: string, position: nat)
    requires Finder(find) && ItemsWellFormed(items) && |items| > 0
    ensures NoSharedPath(Record(find, items[0], path + "/" + Decimal(position)),
      RecordItems(find, items[1..], path, position + 1))
  {
    var a, b :=
      Record(find, items[0], path + "/" + Decimal(position)), RecordItems(find, items[1..], path, position + 1);
    forall i, j | 0 <= i < |a| && 0 <= j < |b|
      ensures a[i].path != b[j].path
    {
      var rest := LeadsBack(find, items[0], path + "/" + Decimal(position), i);
      var k, rest1 := LeadsBackItem(find, items[1..], path, position + 1, j);
      DecimalInjective(position, k);
      DecimalHasNoSlash(position);
      DecimalHasNoSlash(k);
      hide Record, RecordItems, Decimal, Finder, FromLeaf;
      PathsDiffer(path, Decimal(position), rest, Decimal(k), rest1);
    }
  }

  /** Over a whole tree, spans under one pointer are recorded from left to right without overlap. */
  lemma {:induction false} RecordedApart(find: string -> seq<Token>, item: Json, path: string)
    requires Finder(find) && WellFormed(item)
    ensures SamePathApart(Record(find, item, path))
    decreases item, 1
  {
    match item
    case Text(text) =>
      assert InOrder(find(text), 0, |text|);
      SpansFromApart(text, find(text), 0, |text|, 0);
      ApartPairs(Spans(text, find(text)), 0);
    case Object(fields) => FieldsApart(find, fields, path);
    case Array(items) => ItemsApart(find, items, path, 0);
    case Atom(_) =>
  }

  lemma {:induction false} FieldsApart(find: string -> seq<Token>, fields: seq<Field>, path: string)
    requires Finder(find) && DistinctKeys(fields) && FieldsWellFormed(fields)
    ensures SamePathApart(RecordFields(find, fields, path))
    decreases fields, 0
  {
    if |fields| > 0 {
      var a, b :=
        Record(find, fields[0].value, path + "/" + Escape(fields[0].key)), RecordFields(find, fields[1..], path);
      assert RecordFields(find, fields, path) == a + b;
      RecordedApart(find, fields[0].value, path + "/" + Escape(fields[0].key));
      FieldsApart(find, fields[1..], path);
      FieldPathsDiffer(find, fields, path);
      hide Record, RecordFields, Escape, Finder;
      ApartConcat(a, b);
    }
  }

  lemma {:induction false} ItemsApart(find: string -> seq<Token>, items: seq<Json>, path: string, position: nat)
    requires Finder(find) && ItemsWellFormed(items)
    ensures SamePathApart(RecordItems(find, items, path, position))
    decreases items, 0
  {
    if |items| > 0 {
      var a, b :=
        Record(find, items[0], path + "/" + Decimal(position)), RecordItems(find, items[1..], path, position + 1);
      assert RecordItems(find, items, path, position) == a + b;
      RecordedApart(find, items[0], path + "/" + Decimal(position));
      ItemsApart(find, items[1..], path, position + 1);
      ItemPathsDiffer(find, items, path, position);
      hide Record, RecordItems, Decimal, Finder;
      ApartConcat(a, b);
    }
  }
}
