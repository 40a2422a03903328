/** Pruning a schema changes the meaning of no reference, and pruning twice is pruning once. */
module SchemaMeaning {
  import opened Options
  import opened JsonPointer
  import opened SchemaReferences

  /** A value with its references followed so many times: `Cut` is where following stopped,
      `Dangling` a reference that leads nowhere. */
  datatype Meaning =
    | Scalar(value: Json)
    | Mapping(keys: seq<string>, values: seq<Meaning>, target: Option<Meaning>)
    | Listing(items: seq<Meaning>)
    | Cut
    | Dangling

  /** What a local reference points at: the fragment is a JSON Pointer into the schema itself. */
  function TargetOf(schema: Json, reference: string): Option<Json>
    requires PREFIX <= reference
  {
    Follow(schema, reference[1..])
  }

  function Unfold(schema: Json, value: Json, n: nat): Meaning
    decreases n, value
  {
    match value
    case Object(fields) =>
      var reference := Member(fields, REF);
      var target :=
        if reference.None? || !IsLocal(reference.value) then None
        else if n == 0 then Some(Cut)
        else
          var found := TargetOf(schema, reference.value.text);
          Some(if found.None? then Dangling else Unfold(schema, found.value, n - 1));
      Mapping(KeysOf(fields), UnfoldFields(schema, fields, n), target)
    case Array(items) => Listing(UnfoldItems(schema, items, n))
    case _ => Scalar(value)
  }

  function KeysOf(fields: seq<Field>): seq<string> {
    seq(|fields|, i requires 0 <= i < |fields| => fields[i].key)
  }

  function UnfoldFields(schema: Json, fields: seq<Field>, n: nat): seq<Meaning>
    decreases n, fields
  {
    if |fields| == 0 then [] else [Unfold(schema, fields[0].value, n)] + UnfoldFields(schema, fields[1..], n)
  }

  function UnfoldItems(schema: Json, items: seq<Json>, n: nat): seq<Meaning>
    decreases n, items
  {
    if |items| == 0 then [] else [Unfold(schema, items[0], n)] + UnfoldItems(schema, items[1..], n)
  }

  /** What a value and its meaning have in common: the value itself, and what its reference leads to. */
  ghost predicate Tells(a: Json, b: Json, v: Json, w: Json, n: nat) {
    && v == w
    && (v.Object? && Member(v.fields, REF).Some? && IsLocal(Member(v.fields, REF).value) && n > 0 ==>
          SameTargets(a, b, Member(v.fields, REF).value.text, n - 1))
  }

  ghost predicate SameTargets(a: Json, b: Json, reference: string, n: nat)
    requires PREFIX <= reference
  {
    var x, y := TargetOf(a, reference), TargetOf(b, reference);
    (x.Some? <==> y.Some?) && (x.Some? ==> Unfold(a, x.value, n) == Unfold(b, y.value, n))
  }

  /** A meaning forgets nothing: two values, each in its own schema, mean the same only if they are the same value and
      their references lead to values that mean the same. */
  lemma {:induction false} MeaningTells(a: Json, b: Json, v: Json, w: Json, n: nat)
    requires Unfold(a, v, n) == Unfold(b, w, n)
    ensures Tells(a, b, v, w, n)
    decreases v, 1
  {
    match v
    case Object(fields) =>
      assert w.Object?;
      var others := w.fields;
      assert KeysOf(fields) == KeysOf(others) && UnfoldFields(a, fields, n) == UnfoldFields(b, others, n);
      FieldsTell(a, b, fields, others, n);
      ReferenceTells(a, b, fields, n);
    case Array(items) =>
      assert w.Array?;
      ItemsTell(a, b, items, w.items, n);
    case _ =>
  }

  lemma ReferenceTells(a: Json, b: Json, fields: seq<Field>, n: nat)
    requires Unfold(a, Object(fields), n) == Unfold(b, Object(fields), n)
    ensures Tells(a, b, Object(fields), Object(fields), n)
  {
    hide KeysOf, UnfoldFields, TargetOf;
    var reference := Member(fields, REF);
    if reference.Some? && IsLocal(reference.value) && n > 0 {
      var x, y := TargetOf(a, reference.value.text), TargetOf(b, reference.value.text);
      UnfoldIsSomething(a, x, n - 1);
      UnfoldIsSomething(b, y, n - 1);
    }
  }

  lemma UnfoldIsSomething(schema: Json, value: Option<Json>, n: nat)
    ensures value.Some? ==> !Unfold(schema, value.value, n).Dangling?
  {
  }

  lemma {:induction false} FieldsTell(a: Json, b: Json, fields: seq<Field>, others: seq<Field>, n: nat)
    requires KeysOf(fields) == KeysOf(others) && UnfoldFields(a, fields, n) == UnfoldFields(b, others, n)
    ensures fields == others
    decreases fields, 0
  {
    assert |fields| == |KeysOf(fields)| == |KeysOf(others)| == |others|;
    if |fields| > 0 {
      var rest, more := UnfoldFields(a, fields[1..], n), UnfoldFields(b, others[1..], n);
      assert UnfoldFields(a, fields, n)[0] == UnfoldFields(b, others, n)[0];
      assert rest == UnfoldFields(a, fields, n)[1..] == UnfoldFields(b, others, n)[1..] == more;
      assert KeysOf(fields[1..]) == KeysOf(fields)[1..] == KeysOf(others)[1..] == KeysOf(others[1..]);
      assert KeysOf(fields)[0] == KeysOf(others)[0];
      MeaningTells(a, b, fields[0].value, others[0].value, n);
      FieldsTell(a, b, fields[1..], others[1..], n);
      assert fields == [fields[0]] + fields[1..] && others == [others[0]] + others[1..];
    }
  }

  lemma {:induction false} ItemsTell(a: Json, b: Json, items: seq<Json>, others: seq<Json>, n: nat)
    requires UnfoldItems(a, items, n) == UnfoldItems(b, others, n)
    ensures items == others
    decreases items, 0
  {
    if |items| > 0 && |others| > 0 {
      var rest, more := UnfoldItems(a, items[1..], n), UnfoldItems(b, others[1..], n);
      assert UnfoldItems(a, items, n)[0] == UnfoldItems(b, others, n)[0];
      assert rest == UnfoldItems(a, items, n)[1..] == UnfoldItems(b, others, n)[1..] == more;
      MeaningTells(a, b, items[0], others[0], n);
      ItemsTell(a, b, items[1..], others[1..], n);
      assert items == [items[0]] + items[1..] && others == [others[0]] + others[1..];
    }
  }

  // ---------------------------------------------------------------- definitions kept and dropped

  lemma {:induction false} RootHasNoDefinitions(fields: seq<Field>)
    ensures Member(RootOf(fields), DEFS) == None
    ensures forall i :: 0 <= i < |RootOf(fields)| ==> RootOf(fields)[i].key != DEFS
  {
    if |fields| > 0 {
      RootHasNoDefinitions(fields[1..]);
      var root, rest := RootOf(fields), RootOf(fields[1..]);
      if fields[0].key != DEFS {
        assert root[1..] == rest;
      } else {
        assert root == rest;
      }
    }
  }

  lemma {:induction false} RootStays(root: seq<Field>)
    requires forall i :: 0 <= i < |root| ==> root[i].key != DEFS
    ensures RootOf(root) == root
  {
    if |root| > 0 {
      RootStays(root[1..]);
    }
  }

  lemma {:induction false} RootConcat(root: seq<Field>, last: Field)
    requires forall i :: 0 <= i < |root| ==> root[i].key != DEFS
    requires last.key == DEFS
    ensures RootOf(root + [last]) == root && Member(root + [last], DEFS) == Some(last.value)
  {
    if |root| == 0 {
      assert root + [last] == [last] && [last][1..] == [];
    } else {
      assert (root + [last])[1..] == root[1..] + [last];
      RootConcat(root[1..], last);
    }
  }

  /** What the pruned schema consists of. */
  lemma PrunedParts(fields: seq<Field>, kept: seq<Field>, names: set<string>)
    ensures var root := RootOf(fields);
      var pruned := WithDefinitions(root, kept, names);
      && RootOf(pruned.fields) == root
      && Member(pruned.fields, DEFS) == if names == {} then None else Some(Object(kept))
  {
    RootHasNoDefinitions(fields);
    RootStays(RootOf(fields));
    RootConcat(RootOf(fields), Field(DEFS, Object(kept)));
    hide RootOf, Member;
  }

  lemma {:induction false} KeptMember(definitions: seq<Field>, names: set<string>, name: string)
    ensures Member(Keep(definitions, names), name) == if name in names then Member(definitions, name) else None
  {
    if |definitions| > 0 {
      KeptMember(definitions[1..], names, name);
      if definitions[0].key in names {
        assert Keep(definitions, names)[1..] == Keep(definitions[1..], names);
      } else {
        assert Keep(definitions, names) == Keep(definitions[1..], names);
      }
    }
  }

  lemma {:induction false} KeepTwice(definitions: seq<Field>, names: set<string>)
    ensures Keep(Keep(definitions, names), names) == Keep(definitions, names)
  {
    if |definitions| > 0 {
      KeepTwice(definitions[1..], names);
      if definitions[0].key in names {
        assert Keep(definitions, names)[1..] == Keep(definitions[1..], names);
      } else {
        assert Keep(definitions, names) == Keep(definitions[1..], names);
      }
    }
  }

  // ---------------------------------------------------------------- following a kept reference

  /** A part of a plain value is plain and names nothing more. */
  predicate Within(value: Option<Json>, names: set<string>) {
    value.Some? ==> Plain(value.value) && Names(value.value) <= names
  }

  lemma {:induction false} FieldWithin(fields: seq<Field>, key: string, names: set<string>)
    requires PlainFields(fields) && NamesInFields(fields) <= names
    ensures Within(Member(fields, key), names)
  {
    if |fields| > 0 && fields[0].key != key {
      FieldWithin(fields[1..], key, names);
    }
  }

  lemma {:induction false} ItemWithin(items: seq<Json>, i: nat, names: set<string>)
    requires PlainItems(items) && NamesInItems(items) <= names && i < |items|
    ensures Within(Some(items[i]), names)
  {
    if i > 0 {
      ItemWithin(items[1..], i - 1, names);
    }
  }

  lemma EnterWithin(value: Option<Json>, segment: string, names: set<string>)
    requires Within(value, names)
    ensures Within(Enter(value, segment), names)
  {
    if value.Some? {
      match value.value
      case Object(fields) => FieldWithin(fields, Unescape(segment), names);
      case Array(items) =>
        var key := Unescape(segment);
        if IsDecimal(key) && ParseDecimal(key) < |items| {
          ItemWithin(items, ParseDecimal(key), names);
        }
      case _ =>
    }
  }

  lemma {:induction false} EnterAllWithin(value: Option<Json>, segments: seq<string>, names: set<string>)
    requires Within(value, names)
    ensures Within(EnterAll(value, segments), names)
    decreases |segments|
  {
    if |segments| > 0 {
      EnterWithin(value, segments[0], names);
      EnterAllWithin(Enter(value, segments[0]), segments[1..], names);
    }
  }

  /** A local reference goes through the definitions, then to the name, then wherever it goes on. */
  lemma ReferencePath(schema: Json, reference: string)
    requires PREFIX <= reference && schema.Object?
    ensures var segments := Split(reference[|PREFIX|..]);
      var definitions := Member(schema.fields, DEFS);
      && NameOf(reference) == Unescape(segments[0])
      && TargetOf(schema, reference) == EnterAll(Enter(definitions, segments[0]), segments[1..])
  {
    var tail := reference[|PREFIX| - 1..];
    assert reference[1..][1..] == DEFS + tail && tail[0] == '/' && tail[1..] == reference[|PREFIX|..];
    SplitFirst(DEFS, tail);
    var segments := Split(reference[|PREFIX|..]);
    var path := [DEFS] + segments;
    assert Split(reference[1..][1..]) == path && path[0] == DEFS && path[1..] == segments;
    NothingToUnescape(DEFS);
    hide Split, Unescape;
    assert Enter(Some(schema), DEFS) == Member(schema.fields, DEFS);
    assert EnterAll(Some(schema), path) == EnterAll(Member(schema.fields, DEFS), segments);
  }

  /** A reference to a kept definition leads to the same value in both schemas, and that value again
      refers only to kept definitions. */
  lemma SameTarget(schema: Json, pruned: Json, names: set<string>, reference: string)
    requires schema.Object? && Member(schema.fields, DEFS).Some? && Member(schema.fields, DEFS).value.Object?
    requires var all, root := Member(schema.fields, DEFS).value.fields, RootOf(schema.fields);
      Plain(Object(root)) && Closed(root, all, names) && pruned == WithDefinitions(root, Keep(all, names), names)
    requires PREFIX <= reference && NameOf(reference) in names
    ensures TargetOf(pruned, reference) == TargetOf(schema, reference)
    ensures Within(TargetOf(schema, reference), names)
  {
    var all, root := Member(schema.fields, DEFS).value.fields, RootOf(schema.fields);
    var segments := Split(reference[|PREFIX|..]);
    ReferencePath(schema, reference);
    ReferencePath(pruned, reference);
    PrunedParts(schema.fields, Keep(all, names), names);
    KeptMember(all, names, NameOf(reference));
    assert Answers(all, names, NameOf(reference));
    assert Enter(Some(Object(Keep(all, names))), segments[0]) == Enter(Some(Object(all)), segments[0]) ==
      Member(all, NameOf(reference));
    EnterAllWithin(Member(all, NameOf(reference)), segments[1..], names);
    hide *;
  }

  // ---------------------------------------------------------------- the same meaning at every depth

  /** `pruned` is `schema` with its definitions cut down to a closed set. */
  ghost predicate CutTo(schema: Json, pruned: Json, names: set<string>) {
    && schema.Object? && Member(schema.fields, DEFS).Some? && Member(schema.fields, DEFS).value.Object?
    && var all, root := Member(schema.fields, DEFS).value.fields, RootOf(schema.fields);
       Plain(Object(root)) && Closed(root, all, names) && pruned == WithDefinitions(root, Keep(all, names), names)
  }

  lemma {:induction false} SameMeaning(schema: Json, pruned: Json, names: set<string>, value: Json, n: nat)
    requires CutTo(schema, pruned, names) && Plain(value) && Names(value) <= names
    ensures Unfold(pruned, value, n) == Unfold(schema, value, n)
    decreases n, value, 1
  {
    hide TargetOf, UnfoldFields, KeysOf;
    match value
    case Object(fields) =>
      SameFieldMeanings(schema, pruned, names, fields, n);
      var reference := Member(fields, REF);
      if reference.Some? && n > 0 {
        SameTarget(schema, pruned, names, reference.value.text);
        hide CutTo;
        var target := TargetOf(schema, reference.value.text);
        if target.Some? {
          SameMeaning(schema, pruned, names, target.value, n - 1);
        }
      }
    case Array(items) => SameItemMeanings(schema, pruned, names, items, n);
    case _ =>
  }

  lemma {:induction false} SameFieldMeanings(schema: Json, pruned: Json, names: set<string>, fields: seq<Field>, n: nat)
    requires CutTo(schema, pruned, names) && PlainFields(fields) && NamesInFields(fields) <= names
    ensures UnfoldFields(pruned, fields, n) == UnfoldFields(schema, fields, n)
    decreases n, fields, 0
  {
    if |fields| > 0 {
      SameMeaning(schema, pruned, names, fields[0].value, n);
      SameFieldMeanings(schema, pruned, names, fields[1..], n);
      hide CutTo, Unfold;
    }
  }

  lemma {:induction false} SameItemMeanings(schema: Json, pruned: Json, names: set<string>, items: seq<Json>, n: nat)
    requires CutTo(schema, pruned, names) && PlainItems(items) && NamesInItems(items) <= names
    ensures UnfoldItems(pruned, items, n) == UnfoldItems(schema, items, n)
    decreases n, items, 0
  {
    if |items| > 0 {
      SameMeaning(schema, pruned, names, items[0], n);
      SameItemMeanings(schema, pruned, names, items[1..], n);
      hide CutTo, Unfold;
    }
  }

  /** For every depth, the references of the root unfold to the same meaning before and after. */
  lemma PruningKeepsMeaning(schema: Json, pruned: Json, n: nat)
    requires schema.Object? && Prunes(schema, pruned)
    ensures pruned.Object? && RootOf(pruned.fields) == RootOf(schema.fields)
    ensures Unfold(pruned, Object(RootOf(schema.fields)), n) == Unfold(schema, Object(RootOf(schema.fields)), n)
  {
    if pruned != schema {
      var all, root := Member(schema.fields, DEFS).value.fields, RootOf(schema.fields);
      var names :| Least(root, all, names) && pruned == WithDefinitions(root, Keep(all, names), names);
      PrunedParts(schema.fields, Keep(all, names), names);
      assert Names(Object(root)) <= names;
      SameMeaning(schema, pruned, names, Object(root), n);
      hide *;
    }
  }

  // ---------------------------------------------------------------- pruning again

  lemma LeastIsUnique(root: seq<Field>, definitions: seq<Field>, a: set<string>, b: set<string>)
    requires Plain(Object(root)) && Least(root, definitions, a) && Least(root, definitions, b)
    ensures a == b
  {
    assert a <= b && b <= a;
  }

  /** A schema has one pruned form. */
  lemma PruningIsDetermined(schema: Json, a: Json, b: Json)
    requires schema.Object? && Prunes(schema, a) && Prunes(schema, b)
    ensures a == b
  {
    if a != schema {
      var all, root := Member(schema.fields, DEFS).value.fields, RootOf(schema.fields);
      var names :| Least(root, all, names) && a == WithDefinitions(root, Keep(all, names), names);
      assert Closed(root, all, names);
      var others :| Least(root, all, others) && b == WithDefinitions(root, Keep(all, others), others);
      LeastIsUnique(root, all, names, others);
    } else if b != schema {
      var all, root := Member(schema.fields, DEFS).value.fields, RootOf(schema.fields);
      var names :| Least(root, all, names) && b == WithDefinitions(root, Keep(all, names), names);
      assert Closed(root, all, names);
      var others :| Least(root, all, others) && a == WithDefinitions(root, Keep(all, others), others);
      LeastIsUnique(root, all, names, others);
    }
  }

  /** What is closed among the kept definitions is closed among all of them, and the kept set itself is. */
  lemma KeptClosed(root: seq<Field>, all: seq<Field>, names: set<string>)
    requires Plain(Object(root)) && Closed(root, all, names)
    ensures Closed(root, Keep(all, names), names)
    ensures forall others :: Closed(root, Keep(all, names), others) ==> Closed(root, all, others)
  {
    forall name, others: set<string>
      ensures Answers(Keep(all, names), others, name) == (name in names && Answers(all, others, name))
    {
      KeptMember(all, names, name);
    }
  }

  /** Pruning is idempotent. */
  lemma PruningTwiceIsOnce(schema: Json, once: Json, twice: Json)
    requires schema.Object? && Prunes(schema, once) && once.Object? && Prunes(once, twice)
    ensures twice == once
  {
    if once == schema {
      PruningIsDetermined(schema, once, twice);
    } else {
      var all, root := Member(schema.fields, DEFS).value.fields, RootOf(schema.fields);
      var names :| Least(root, all, names) && once == WithDefinitions(root, Keep(all, names), names);
      PrunedParts(schema.fields, Keep(all, names), names);
      if names != {} {
        KeptClosed(root, all, names);
        assert Least(root, Keep(all, names), names);
        KeepTwice(all, names);
        assert Prunes(once, once);
        PruningIsDetermined(once, once, twice);
      }
    }
  }
}
