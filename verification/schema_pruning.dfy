/** Which definitions pruning keeps, told by the references that lead to them. */
module SchemaPruning {
  import opened Options
  import opened JsonPointer
  import opened SchemaReferences

  // ---------------------------------------------------------------- what stands where

  /** The value that stands at a place: child by child, whatever the keys are. */
  function PartAt(value: Json, place: seq<nat>): Option<Json>
    decreases |place|
  {
    if |place| == 0 then Some(value)
    else if value.Object? && place[0] < |value.fields| then PartAt(value.fields[place[0]].value, place[1..])
    else if value.Array? && place[0] < |value.items| then PartAt(value.items[place[0]], place[1..])
    else None
  }

  /** The mapping at a place, if there is one. */
  predicate MappingAt(value: Json, place: seq<nat>, fields: seq<Field>) {
    PartAt(value, place) == Some(Object(fields))
  }

  predicate Refers(fields: seq<Field>, name: string) {
    var reference := Member(fields, "$ref");
    reference.Some? && reference.value.Text? && PREFIX <= reference.value.text && NameOf(reference.value.text) == name
  }

  /** Somewhere in the value stands a local reference to the name. */
  ghost predicate RefersSomewhere(value: Json, name: string) {
    exists place, fields :: MappingAt(value, place, fields) && Refers(fields, name)
  }

  /** A mapping without a scope of its own, whose reference, if it has one, is local. */
  predicate Unscoped(fields: seq<Field>) {
    && (forall i :: 0 <= i < |fields| ==>
          fields[i].key != "$id" && fields[i].key != "$anchor" && fields[i].key != "$dynamicAnchor"
          && fields[i].key != "$dynamicRef" && fields[i].key != "$defs")
    && (Member(fields, "$ref").Some? ==>
          Member(fields, "$ref").value.Text? && "#/$defs/" <= Member(fields, "$ref").value.text)
  }

  ghost predicate UnscopedThroughout(value: Json) {
    forall place, fields :: MappingAt(value, place, fields) ==> Unscoped(fields)
  }

  lemma UnscopedIsPlain(fields: seq<Field>)
    ensures Unscoped(fields) <==> PlainHere(fields)
  {
    hide Member;
  }

  lemma ChildAt(value: Json, i: nat, place: seq<nat>)
    ensures value.Object? && i < |value.fields| ==> PartAt(value, [i] + place) == PartAt(value.fields[i].value, place)
    ensures value.Array? && i < |value.items| ==> PartAt(value, [i] + place) == PartAt(value.items[i], place)
  {
    assert ([i] + place)[1..] == place;
  }

  /** A mapping in a mapping is that one or stands in one of its values. */
  lemma MappingIn(fields: seq<Field>, place: seq<nat>, inner: seq<Field>)
    requires MappingAt(Object(fields), place, inner)
    ensures inner == fields
      || (|place| > 0 && place[0] < |fields| && MappingAt(fields[place[0]].value, place[1..], inner))
  {
  }

  lemma MappingInItems(items: seq<Json>, place: seq<nat>, inner: seq<Field>)
    requires MappingAt(Array(items), place, inner)
    ensures |place| > 0 && place[0] < |items| && MappingAt(items[place[0]], place[1..], inner)
  {
  }

  /** A value is plain if and only if every mapping in it is unscoped. */
  lemma {:induction false} PlainIff(value: Json)
    ensures Plain(value) <==> UnscopedThroughout(value)
    decreases value, 1
  {
    hide Member, PlainHere, Unscoped;
    match value
    case Object(fields) =>
      UnscopedIsPlain(fields);
      PlainFieldsIff(fields);
      assert MappingAt(value, [], fields);
      forall i, place, inner | 0 <= i < |fields| && MappingAt(fields[i].value, place, inner)
        ensures MappingAt(value, [i] + place, inner)
      {
        ChildAt(value, i, place);
      }
      forall place, inner | MappingAt(value, place, inner)
        ensures inner == fields
          || (|place| > 0 && place[0] < |fields| && MappingAt(fields[place[0]].value, place[1..], inner))
      {
        MappingIn(fields, place, inner);
      }
    case Array(items) =>
      PlainItemsIff(items);
      forall i, place, inner | 0 <= i < |items| && MappingAt(items[i], place, inner)
        ensures MappingAt(value, [i] + place, inner)
      {
        ChildAt(value, i, place);
      }
      forall place, inner | MappingAt(value, place, inner)
        ensures |place| > 0 && place[0] < |items| && MappingAt(items[place[0]], place[1..], inner)
      {
        MappingInItems(items, place, inner);
      }
    case _ =>
  }

  lemma {:induction false} PlainFieldsIff(fields: seq<Field>)
    ensures PlainFields(fields) <==> forall i :: 0 <= i < |fields| ==> UnscopedThroughout(fields[i].value)
    decreases fields, 0
  {
    hide UnscopedThroughout;
    if |fields| > 0 {
      PlainIff(fields[0].value);
      PlainFieldsIff(fields[1..]);
      assert forall i :: 0 < i < |fields| ==> fields[i] == fields[1..][i - 1];
    }
  }

  lemma {:induction false} PlainItemsIff(items: seq<Json>)
    ensures PlainItems(items) <==> forall i :: 0 <= i < |items| ==> UnscopedThroughout(items[i])
    decreases items, 0
  {
    hide UnscopedThroughout;
    if |items| > 0 {
      PlainIff(items[0]);
      PlainItemsIff(items[1..]);
      assert forall i :: 0 < i < |items| ==> items[i] == items[1..][i - 1];
    }
  }

  /** The names of a plain value are those that are referred to somewhere in it. */
  lemma {:induction false} NamesAre(value: Json, name: string)
    requires Plain(value)
    ensures name in Names(value) <==> RefersSomewhere(value, name)
    decreases value, 1
  {
    hide Member, PlainHere;
    match value
    case Object(fields) =>
      NamesHereAre(fields, name);
      FieldNamesAre(fields, name);
      hide Refers;
      assert MappingAt(value, [], fields);
      forall i, place, inner | 0 <= i < |fields| && MappingAt(fields[i].value, place, inner)
        ensures MappingAt(value, [i] + place, inner)
      {
        ChildAt(value, i, place);
      }
      forall place, inner | MappingAt(value, place, inner)
        ensures inner == fields
          || (|place| > 0 && place[0] < |fields| && MappingAt(fields[place[0]].value, place[1..], inner))
      {
        MappingIn(fields, place, inner);
      }
    case Array(items) =>
      ItemNamesAre(items, name);
      hide Refers;
      forall i, place, inner | 0 <= i < |items| && MappingAt(items[i], place, inner)
        ensures MappingAt(value, [i] + place, inner)
      {
        ChildAt(value, i, place);
      }
      forall place, inner | MappingAt(value, place, inner)
        ensures |place| > 0 && place[0] < |items| && MappingAt(items[place[0]], place[1..], inner)
      {
        MappingInItems(items, place, inner);
      }
    case _ =>
  }

  lemma NamesHereAre(fields: seq<Field>, name: string)
    requires PlainHere(fields)
    ensures name in NamesHere(fields) <==> Refers(fields, name)
  {
  }

  lemma {:induction false} FieldNamesAre(fields: seq<Field>, name: string)
    requires PlainFields(fields)
    ensures name in NamesInFields(fields) <==> exists i :: 0 <= i < |fields| && RefersSomewhere(fields[i].value, name)
    decreases fields, 0
  {
    hide RefersSomewhere;
    if |fields| > 0 {
      NamesAre(fields[0].value, name);
      FieldNamesAre(fields[1..], name);
      assert forall i :: 0 < i < |fields| ==> fields[i] == fields[1..][i - 1];
    }
  }

  lemma {:induction false} ItemNamesAre(items: seq<Json>, name: string)
    requires PlainItems(items)
    ensures name in NamesInItems(items) <==> exists i :: 0 <= i < |items| && RefersSomewhere(items[i], name)
    decreases items, 0
  {
    hide RefersSomewhere;
    if |items| > 0 {
      NamesAre(items[0], name);
      ItemNamesAre(items[1..], name);
      assert forall i :: 0 < i < |items| ==> items[i] == items[1..][i - 1];
    }
  }

  // ---------------------------------------------------------------- which definitions are reached

  /** A reference in the root leads to the first name, a reference in each definition to the next. */
  ghost predicate Leads(root: seq<Field>, definitions: seq<Field>, chain: seq<string>) {
    && |chain| > 0 && RefersSomewhere(Object(root), chain[0])
    && forall i :: 0 <= i < |chain| - 1 ==> LeadsOn(definitions, chain[i], chain[i + 1])
  }

  ghost predicate LeadsOn(definitions: seq<Field>, name: string, next: string) {
    Member(definitions, name).Some? && RefersSomewhere(Member(definitions, name).value, next)
  }

  ghost predicate Reached(root: seq<Field>, definitions: seq<Field>, name: string) {
    exists chain :: Leads(root, definitions, chain) && chain[|chain| - 1] == name
  }

  /** A reference leads to a name that has no definition, or one with a scope or a foreign reference in it. */
  ghost predicate Blocked(root: seq<Field>, definitions: seq<Field>) {
    exists name :: Reached(root, definitions, name) && !Usable(definitions, name)
  }

  ghost predicate Usable(definitions: seq<Field>, name: string) {
    Member(definitions, name).Some? && UnscopedThroughout(Member(definitions, name).value)
  }

  lemma ReachedFirst(root: seq<Field>, definitions: seq<Field>, name: string)
    requires RefersSomewhere(Object(root), name)
    ensures Reached(root, definitions, name)
  {
    assert Leads(root, definitions, [name]);
  }

  lemma ReachedNext(root: seq<Field>, definitions: seq<Field>, name: string, next: string)
    requires Reached(root, definitions, name) && LeadsOn(definitions, name, next)
    ensures Reached(root, definitions, next)
  {
    var chain :| Leads(root, definitions, chain) && chain[|chain| - 1] == name;
    var longer := chain + [next];
    hide LeadsOn, RefersSomewhere;
    forall i | 0 <= i < |longer| - 1
      ensures LeadsOn(definitions, longer[i], longer[i + 1])
    {
      assert i < |chain| - 1 ==> LeadsOn(definitions, chain[i], chain[i + 1]);
    }
    assert Leads(root, definitions, longer);
  }

  /** Every closed set holds what is reached. */
  lemma {:induction false} ReachedIsClosed(root: seq<Field>, definitions: seq<Field>, names: set<string>,
                                          chain: seq<string>, i: nat)
    requires Plain(Object(root)) && Closed(root, definitions, names) && Leads(root, definitions, chain) && i < |chain|
    ensures chain[i] in names
  {
    hide RefersSomewhere, Member, Plain, Names;
    if i == 0 {
      NamesAre(Object(root), chain[0]);
    } else {
      ReachedIsClosed(root, definitions, names, chain, i - 1);
      assert Answers(definitions, names, chain[i - 1]) && LeadsOn(definitions, chain[i - 1], chain[i]);
      NamesAre(Member(definitions, chain[i - 1]).value, chain[i]);
    }
  }

  lemma ClosedHoldsReached(root: seq<Field>, definitions: seq<Field>, names: set<string>, name: string)
    requires Plain(Object(root)) && Closed(root, definitions, names) && Reached(root, definitions, name)
    ensures name in names && Usable(definitions, name)
  {
    var chain :| Leads(root, definitions, chain) && chain[|chain| - 1] == name;
    ReachedIsClosed(root, definitions, names, chain, |chain| - 1);
    assert Answers(definitions, names, name);
    PlainIff(Member(definitions, name).value);
  }

  /** The names that are reached, all of which have definitions. */
  ghost function ReachedNames(root: seq<Field>, definitions: seq<Field>): set<string> {
    set name | name in KeySet(definitions) && Reached(root, definitions, name)
  }

  lemma ReachedIsLeast(root: seq<Field>, definitions: seq<Field>)
    requires Plain(Object(root)) && !Blocked(root, definitions)
    ensures Least(root, definitions, ReachedNames(root, definitions))
    ensures forall name :: name in ReachedNames(root, definitions) <==> Reached(root, definitions, name)
  {
    var names := ReachedNames(root, definitions);
    hide RefersSomewhere, Leads, Usable, Member, Plain, Names;
    forall name
      ensures name in names <==> Reached(root, definitions, name)
    {
      if Reached(root, definitions, name) {
        assert Usable(definitions, name);
        UsableHasKey(definitions, name);
      }
    }
    hide Reached, Blocked, ReachedNames;
    forall name | name in Names(Object(root))
      ensures name in names
    {
      NamesAre(Object(root), name);
      ReachedFirst(root, definitions, name);
    }
    forall name | name in names
      ensures Answers(definitions, names, name)
    {
      ReachedAnswers(root, definitions, names, name);
    }
    forall other, name | Closed(root, definitions, other) && name in names
      ensures name in other
    {
      ClosedHoldsReached(root, definitions, other, name);
    }
  }

  lemma UsableHasKey(definitions: seq<Field>, name: string)
    requires Usable(definitions, name)
    ensures name in KeySet(definitions)
  {
    MemberInKeys(definitions, name);
  }

  lemma ReachedAnswers(root: seq<Field>, definitions: seq<Field>, names: set<string>, name: string)
    requires !Blocked(root, definitions) && Reached(root, definitions, name)
    requires forall other :: other in names <==> Reached(root, definitions, other)
    ensures Answers(definitions, names, name)
  {
    assert Usable(definitions, name);
    var definition := Member(definitions, name).value;
    hide Reached, Blocked, RefersSomewhere, Plain, Names, UnscopedThroughout;
    PlainIff(definition);
    forall next | next in Names(definition)
      ensures next in names
    {
      NamesAre(definition, next);
      ReachedNext(root, definitions, name, next);
    }
  }

  // ---------------------------------------------------------------- what is left of the schema

  /** `to` is `from` without the fields of other keys, in their order. */
  ghost predicate Filters(from: seq<Field>, to: seq<Field>, keys: set<string>) {
    exists picked :: Picks(from, to, keys, picked)
  }

  ghost predicate Picks(from: seq<Field>, to: seq<Field>, keys: set<string>, picked: seq<nat>) {
    && |picked| == |to|
    && (forall k :: 0 <= k < |picked| ==> picked[k] < |from| && to[k] == from[picked[k]] && to[k].key in keys)
    && (forall k, l :: 0 <= k < l < |picked| ==> picked[k] < picked[l])
    && (forall i: nat :: i < |from| && from[i].key in keys ==> i in picked)
  }

  function Later(picked: seq<nat>): seq<nat> {
    seq(|picked|, k requires 0 <= k < |picked| => picked[k] + 1)
  }

  /** Everything that is picked behind the first field is picked one place later. */
  lemma LaterPicks(from: seq<Field>, to: seq<Field>, keys: set<string>, picked: seq<nat>)
    requires |from| > 0 && Picks(from[1..], to, keys, picked)
    ensures var later := Later(picked);
      && |later| == |to|
      && (forall k :: 0 <= k < |later| ==> 0 < later[k] < |from| && to[k] == from[later[k]] && to[k].key in keys)
      && (forall k, l :: 0 <= k < l < |later| ==> later[k] < later[l])
      && (forall i: nat :: 0 < i < |from| && from[i].key in keys ==> i in later)
  {
    var later := Later(picked);
    assert forall k :: 0 <= k < |later| ==> from[later[k]] == from[1..][picked[k]];
    forall i: nat | 0 < i < |from| && from[i].key in keys
      ensures i in later
    {
      assert from[1..][i - 1] == from[i];
      var k :| 0 <= k < |picked| && picked[k] == i - 1;
      assert later[k] == i;
    }
  }

  lemma FirstDropped(from: seq<Field>, to: seq<Field>, keys: set<string>)
    requires |from| > 0 && Filters(from[1..], to, keys) && from[0].key !in keys
    ensures Filters(from, to, keys)
  {
    var picked :| Picks(from[1..], to, keys, picked);
    LaterPicks(from, to, keys, picked);
    hide Later;
    assert Picks(from, to, keys, Later(picked));
  }

  lemma FirstPicked(from: seq<Field>, to: seq<Field>, keys: set<string>)
    requires |from| > 0 && Filters(from[1..], to, keys) && from[0].key in keys
    ensures Filters(from, [from[0]] + to, keys)
  {
    var picked :| Picks(from[1..], to, keys, picked);
    LaterPicks(from, to, keys, picked);
    var later := Later(picked);
    hide *;
    PicksWithFirst(from, to, keys, later, [0] + later, [from[0]] + to);
  }

  lemma PicksWithFirst(from: seq<Field>, to: seq<Field>, keys: set<string>, later: seq<nat>, all: seq<nat>,
                       longer: seq<Field>)
    requires |from| > 0 && from[0].key in keys && all == [0] + later && longer == [from[0]] + to
    requires |later| == |to|
    requires forall k :: 0 <= k < |later| ==> 0 < later[k] < |from| && to[k] == from[later[k]] && to[k].key in keys
    requires forall k, l :: 0 <= k < l < |later| ==> later[k] < later[l]
    requires forall i: nat :: 0 < i < |from| && from[i].key in keys ==> i in later
    ensures Filters(from, longer, keys)
  {
    assert forall k :: 0 < k < |all| ==> all[k] == later[k - 1];
    assert forall k :: 0 < k < |longer| ==> longer[k] == to[k - 1];
    assert all[0] == 0 && longer[0] == from[0];
    forall i: nat | i < |from| && from[i].key in keys
      ensures i in all
    {
      if i > 0 {
        var k :| 0 <= k < |later| && later[k] == i;
        assert all[k + 1] == i;
      }
    }
    assert Picks(from, longer, keys, all);
  }

  lemma {:induction false} KeepFilters(definitions: seq<Field>, names: set<string>)
    ensures Filters(definitions, Keep(definitions, names), names)
  {
    if |definitions| == 0 {
      assert Picks(definitions, [], names, []);
    } else {
      hide Picks, Filters;
      KeepFilters(definitions[1..], names);
      var rest := Keep(definitions[1..], names);
      if definitions[0].key in names {
        FirstPicked(definitions, rest, names);
      } else {
        FirstDropped(definitions, rest, names);
        assert Keep(definitions, names) == rest;
      }
    }
  }

  lemma {:induction false} RootFilters(fields: seq<Field>, keys: set<string>)
    requires forall i :: 0 <= i < |fields| ==> (fields[i].key in keys <==> fields[i].key != "$defs")
    ensures Filters(fields, RootOf(fields), keys)
  {
    if |fields| == 0 {
      assert Picks(fields, [], keys, []);
    } else {
      hide Picks, Filters;
      assert forall i :: 0 <= i < |fields[1..]| ==> fields[1..][i] == fields[i + 1];
      RootFilters(fields[1..], keys);
      var rest := RootOf(fields[1..]);
      if fields[0].key == DEFS {
        FirstDropped(fields, rest, keys);
        assert RootOf(fields) == rest;
      } else {
        FirstPicked(fields, rest, keys);
      }
    }
  }

  /** The schema without its definitions, followed by those that are reached, if there are any. */
  ghost predicate KeepsReached(schema: Json, pruned: Json, root: seq<Field>, definitions: seq<Field>)
    requires schema.Object?
  {
    exists names, kept ::
      && (forall name :: name in names <==> Reached(root, definitions, name))
      && Filters(definitions, kept, names)
      && pruned == Object(root + if names == {} then [] else [Field("$defs", Object(kept))])
  }

  /** Exactly what pruning does, in terms of references and definitions alone: everything but the definitions stays
      in its order; of those exactly the ones stay, in their order, that a chain of references leads to from the rest
      of the schema. It leaves the schema alone if and only if there are no definitions, the rest has a scope or a
      foreign reference in it, or a chain leads to a missing definition or one with such a thing in it. */
  lemma PrunedExactly(schema: Json, pruned: Json)
    requires schema.Object? && Prunes(schema, pruned)
    ensures var root := RootOf(schema.fields);
      var all := Member(schema.fields, "$defs");
      && Filters(schema.fields, root, KeySet(schema.fields) - {"$defs"})
      && if all.None? || !all.value.Object? || !UnscopedThroughout(Object(root)) || Blocked(root, all.value.fields)
         then pruned == schema
         else KeepsReached(schema, pruned, root, all.value.fields)
  {
    var root, all := RootOf(schema.fields), Member(schema.fields, DEFS);
    RootFilters(schema.fields, KeySet(schema.fields) - {DEFS});
    PlainIff(Object(root));
    hide UnscopedThroughout, Filters, RootOf, Member, Plain, KeySet, Blocked, KeepsReached;
    if all.Some? && all.value.Object? && Plain(Object(root)) {
      PrunedDefinitions(schema, pruned, root, all.value.fields);
    }
  }

  lemma PrunedDefinitions(schema: Json, pruned: Json, root: seq<Field>, definitions: seq<Field>)
    requires schema.Object? && Plain(Object(root))
    requires (pruned == schema && forall names :: !Closed(root, definitions, names))
      || exists names ::
           Least(root, definitions, names) && pruned == WithDefinitions(root, Keep(definitions, names), names)
    ensures if Blocked(root, definitions) then pruned == schema else KeepsReached(schema, pruned, root, definitions)
  {
    hide RootOf, Member, Plain, Closed, Keep, Filters, Reached;
    if Blocked(root, definitions) {
      var name :| Reached(root, definitions, name) && !Usable(definitions, name);
      if names :| Least(root, definitions, names) {
        ClosedHoldsReached(root, definitions, names, name);
      }
    } else {
      ReachedIsLeast(root, definitions);
      var reached := ReachedNames(root, definitions);
      var names :|
        Least(root, definitions, names) && pruned == WithDefinitions(root, Keep(definitions, names), names);
      assert names == reached;
      KeepFilters(definitions, names);
    }
  }
}
