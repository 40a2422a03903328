/** Pruning of unused definitions from a JSON Schema, and why no reference changes its meaning. */
module SchemaReferences {
  import opened Options
  import opened JsonPointer

  const DEFS := "$defs"
  const REF := "$ref"
  const PREFIX := "#/$defs/"
  const SCOPED: set<string> := {"$id", "$anchor", "$dynamicAnchor", "$dynamicRef", "$defs"}

  // ---------------------------------------------------------------- what a value refers to

  predicate IsLocal(reference: Json) {
    reference.Text? && PREFIX <= reference.text
  }

  /** The definition a local reference names: the first segment behind the prefix. */
  function NameOf(reference: string): string
    requires PREFIX <= reference
  {
    Unescape(Split(reference[|PREFIX|..])[0])
  }

  /** This mapping itself declares no scope, and its own `$ref`, if any, is local. */
  predicate PlainHere(fields: seq<Field>) {
    && (forall i :: 0 <= i < |fields| ==> fields[i].key !in SCOPED)
    && (Member(fields, REF).Some? ==> IsLocal(Member(fields, REF).value))
  }

  function NamesHere(fields: seq<Field>): set<string>
    requires PlainHere(fields)
  {
    if Member(fields, REF).Some? then {NameOf(Member(fields, REF).value.text)} else {}
  }

  /** No scope and no foreign reference anywhere in the value. */
  predicate Plain(value: Json) {
    match value
    case Object(fields) => PlainHere(fields) && PlainFields(fields)
    case Array(items) => PlainItems(items)
    case _ => true
  }

  predicate PlainFields(fields: seq<Field>) {
    |fields| == 0 || (Plain(fields[0].value) && PlainFields(fields[1..]))
  }

  predicate PlainItems(items: seq<Json>) {
    |items| == 0 || (Plain(items[0]) && PlainItems(items[1..]))
  }

  /** Every definition the value names, at any depth. */
  function Names(value: Json): set<string>
    requires Plain(value)
  {
    match value
    case Object(fields) => NamesHere(fields) + NamesInFields(fields)
    case Array(items) => NamesInItems(items)
    case _ => {}
  }

  function NamesInFields(fields: seq<Field>): set<string>
    requires PlainFields(fields)
  {
    if |fields| == 0 then {} else Names(fields[0].value) + NamesInFields(fields[1..])
  }

  function NamesInItems(items: seq<Json>): set<string>
    requires PlainItems(items)
  {
    if |items| == 0 then {} else Names(items[0]) + NamesInItems(items[1..])
  }

  // ---------------------------------------------------------------- the collecting worklist

  function Size(value: Json): (n: nat)
    ensures n > 0
  {
    match value
    case Object(fields) => 1 + SizeOfFields(fields)
    case Array(items) => 1 + SizeOfItems(items)
    case _ => 1
  }

  function SizeOfFields(fields: seq<Field>): nat {
    if |fields| == 0 then 0 else Size(fields[0].value) + SizeOfFields(fields[1..])
  }

  function SizeOfItems(items: seq<Json>): nat {
    if |items| == 0 then 0 else Size(items[0]) + SizeOfItems(items[1..])
  }

  function Values(fields: seq<Field>): seq<Json> {
    if |fields| == 0 then [] else [fields[0].value] + Values(fields[1..])
  }

  lemma {:induction false} ValuesAreFields(fields: seq<Field>)
    ensures SizeOfItems(Values(fields)) == SizeOfFields(fields)
    ensures PlainItems(Values(fields)) == PlainFields(fields)
    ensures PlainFields(fields) ==> NamesInItems(Values(fields)) == NamesInFields(fields)
  {
    if |fields| > 0 {
      ValuesAreFields(fields[1..]);
      assert Values(fields)[1..] == Values(fields[1..]);
    }
  }

  lemma {:induction false} Concatenated(a: seq<Json>, b: seq<Json>)
    ensures SizeOfItems(a + b) == SizeOfItems(a) + SizeOfItems(b)
    ensures PlainItems(a + b) == (PlainItems(a) && PlainItems(b))
    ensures PlainItems(a + b) ==> NamesInItems(a + b) == NamesInItems(a) + NamesInItems(b)
    decreases |a|
  {
    if |a| == 0 {
      assert a + b == b;
    } else {
      assert (a + b)[1..] == a[1..] + b;
      Concatenated(a[1..], b);
    }
  }

  /** The last pending value, taken off the list. */
  lemma Popped(pending: seq<Json>)
    requires |pending| > 0
    ensures var rest, item := pending[..|pending| - 1], pending[|pending| - 1];
      && SizeOfItems(pending) == SizeOfItems(rest) + Size(item)
      && PlainItems(pending) == (PlainItems(rest) && Plain(item))
      && (PlainItems(pending) ==> NamesInItems(pending) == NamesInItems(rest) + Names(item))
  {
    var rest, item := pending[..|pending| - 1], pending[|pending| - 1];
    assert pending == rest + [item];
    Concatenated(rest, [item]);
    assert [item][1..] == [];
  }

  /** What is found so far and what the pending values still hold make up the whole. */
  ghost predicate Collected(value: Json, found: set<string>, pending: seq<Json>) {
    && Plain(value) == PlainItems(pending)
    && (Plain(value) ==> Names(value) == found + NamesInItems(pending))
  }

  lemma CollectedMapping(value: Json, found: set<string>, pending: seq<Json>, fields: seq<Field>)
    requires |pending| > 0 && pending[|pending| - 1] == Object(fields) && Collected(value, found, pending)
    ensures !PlainHere(fields) ==> !Plain(value)
    ensures PlainHere(fields) ==> Collected(value, found + NamesHere(fields), pending[..|pending| - 1] + Values(fields))
    ensures SizeOfItems(pending[..|pending| - 1] + Values(fields)) < SizeOfItems(pending)
  {
    var rest := pending[..|pending| - 1];
    Popped(pending);
    ValuesAreFields(fields);
    Concatenated(rest, Values(fields));
    hide PlainHere, NamesHere, Values;
  }

  lemma CollectedList(value: Json, found: set<string>, pending: seq<Json>, items: seq<Json>)
    requires |pending| > 0 && pending[|pending| - 1] == Array(items) && Collected(value, found, pending)
    ensures Collected(value, found, pending[..|pending| - 1] + items)
    ensures SizeOfItems(pending[..|pending| - 1] + items) < SizeOfItems(pending)
  {
    Popped(pending);
    Concatenated(pending[..|pending| - 1], items);
  }

  lemma CollectedLeaf(value: Json, found: set<string>, pending: seq<Json>)
    requires |pending| > 0 && !pending[|pending| - 1].Object? && !pending[|pending| - 1].Array?
    requires Collected(value, found, pending)
    ensures Collected(value, found, pending[..|pending| - 1])
    ensures SizeOfItems(pending[..|pending| - 1]) < SizeOfItems(pending)
  {
    Popped(pending);
  }

  lemma CollectedFirst(value: Json)
    ensures Collected(value, {}, [value])
  {
    assert [value][1..] == [];
  }

  lemma CollectedAll(value: Json, found: set<string>)
    ensures Collected(value, found, []) ==> Plain(value) && Names(value) == found
  {
    if Collected(value, found, []) {
      assert found + {} == found;
    }
  }

  /** `_definition_references`: every name, or nothing at all when the value is not plain. */
  method DefinitionReferences(value: Json) returns (references: Option<set<string>>)
    ensures references == if Plain(value) then Some(Names(value)) else None
  {
    var found, pending := {}, [value];
    CollectedFirst(value);
    while |pending| > 0
      invariant Collected(value, found, pending)
      decreases SizeOfItems(pending)
    {
      var item := pending[|pending| - 1];
      if item.Object? {
        CollectedMapping(value, found, pending, item.fields);
        if exists i :: 0 <= i < |item.fields| && item.fields[i].key in SCOPED {
          return None;
        }
        var reference := Member(item.fields, REF);
        if reference.Some? {
          if !reference.value.Text? || !(PREFIX <= reference.value.text) {
            return None;
          }
          found := found + {NameOf(reference.value.text)};
        }
        pending := pending[..|pending| - 1] + Values(item.fields);
      } else if item.Array? {
        CollectedList(value, found, pending, item.items);
        pending := pending[..|pending| - 1] + item.items;
      } else {
        CollectedLeaf(value, found, pending);
        pending := pending[..|pending| - 1];
      }
    }
    CollectedAll(value, found);
    assert pending == [];
    return Some(found);
  }

  // ---------------------------------------------------------------- pruning

  /** The mapping without its definitions. */
  function RootOf(fields: seq<Field>): seq<Field> {
    if |fields| == 0 then []
    else (if fields[0].key == DEFS then [] else [fields[0]]) + RootOf(fields[1..])
  }

  /** The named definitions, in their own order. */
  function Keep(definitions: seq<Field>, names: set<string>): seq<Field> {
    if |definitions| == 0 then []
    else (if definitions[0].key in names then [definitions[0]] else []) + Keep(definitions[1..], names)
  }

  /** A set of definitions that answers every reference of the root and of itself. */
  ghost predicate Closed(root: seq<Field>, definitions: seq<Field>, names: set<string>)
    requires Plain(Object(root))
  {
    && Names(Object(root)) <= names
    && forall name :: name in names ==> Answers(definitions, names, name)
  }

  /** The definition exists, is plain, and refers only to the given names. */
  predicate Answers(definitions: seq<Field>, names: set<string>, name: string) {
    var definition := Member(definitions, name);
    definition.Some? && Plain(definition.value) && Names(definition.value) <= names
  }

  /** The least closed set. */
  ghost predicate Least(root: seq<Field>, definitions: seq<Field>, names: set<string>)
    requires Plain(Object(root))
  {
    && Closed(root, definitions, names)
    && forall other :: Closed(root, definitions, other) ==> names <= other
  }

  function WithDefinitions(root: seq<Field>, kept: seq<Field>, names: set<string>): Json {
    Object(if names == {} then root else root + [Field(DEFS, Object(kept))])
  }

  /** What pruning makes of a schema: the root with exactly the least closed set of definitions, or
      the schema itself when it has no definitions, is not plain, or no closed set exists. */
  ghost predicate Prunes(schema: Json, pruned: Json)
    requires schema.Object?
  {
    var definitions, root := Member(schema.fields, DEFS), RootOf(schema.fields);
    if definitions.None? || !definitions.value.Object? || !Plain(Object(root)) then pruned == schema
    else
      var all := definitions.value.fields;
      || (pruned == schema && forall names :: !Closed(root, all, names))
      || (exists names :: Least(root, all, names) && pruned == WithDefinitions(root, Keep(all, names), names))
  }

  /** The elements of a set in some order. */
  method Listed(names: set<string>) returns (list: seq<string>)
    ensures forall name :: name in list <==> name in names
  {
    list := [];
    var rest := names;
    while rest != {}
      invariant rest <= names
      invariant forall name :: name in names <==> name in rest || name in list
      decreases |rest|
    {
      var name :| name in rest;
      rest := rest - {name};
      list := list + [name];
    }
  }

  /** The search so far: whatever is reached or still pending belongs to every closed set, and what
      is reached refers only to what is reached or pending. */
  ghost predicate Searching(root: seq<Field>, definitions: seq<Field>, reachable: set<string>, pending: seq<string>)
    requires Plain(Object(root))
  {
    && (forall name :: name in Names(Object(root)) ==> name in reachable || name in pending)
    && (forall name :: name in reachable ==> Pursued(definitions, reachable, pending, name))
    && (forall names, name ::
         Closed(root, definitions, names) && (name in reachable || name in pending) ==> name in names)
  }

  ghost predicate Pursued(definitions: seq<Field>, reachable: set<string>, pending: seq<string>, name: string) {
    var definition := Member(definitions, name);
    && definition.Some? && Plain(definition.value)
    && forall nested :: nested in Names(definition.value) ==> nested in reachable || nested in pending
  }

  function KeySet(fields: seq<Field>): set<string> {
    set i | 0 <= i < |fields| :: fields[i].key
  }

  lemma {:induction false} MemberInKeys(fields: seq<Field>, key: string)
    ensures Member(fields, key).Some? <==> key in KeySet(fields)
  {
    if |fields| > 0 {
      assert KeySet(fields) == {fields[0].key} + KeySet(fields[1..]) by {
        assert forall i :: 0 < i < |fields| ==> fields[i] == fields[1..][i - 1];
      }
      MemberInKeys(fields[1..], key);
    }
  }

  lemma SearchedAgain(root: seq<Field>, definitions: seq<Field>, reachable: set<string>, pending: seq<string>)
    requires Plain(Object(root)) && |pending| > 0 && pending[|pending| - 1] in reachable
    requires Searching(root, definitions, reachable, pending)
    ensures Searching(root, definitions, reachable, pending[..|pending| - 1])
  {
    var rest := pending[..|pending| - 1];
    assert forall name :: name in pending ==> name in rest || name == pending[|pending| - 1];
    hide Closed;
  }

  /** A pending name without a plain definition rules every closed set out. */
  lemma SearchFails(root: seq<Field>, definitions: seq<Field>, reachable: set<string>, pending: seq<string>,
                    name: string)
    requires Plain(Object(root)) && name in pending && Searching(root, definitions, reachable, pending)
    requires Member(definitions, name).None? || !Plain(Member(definitions, name).value)
    ensures forall names :: !Closed(root, definitions, names)
  {
    forall names
      ensures !Closed(root, definitions, names)
    {
      assert !Answers(definitions, names, name);
    }
  }

  lemma SearchedNext(root: seq<Field>, definitions: seq<Field>, reachable: set<string>, pending: seq<string>,
                     more: seq<string>)
    requires Plain(Object(root)) && |pending| > 0 && Searching(root, definitions, reachable, pending)
    requires var name := pending[|pending| - 1];
      && Member(definitions, name).Some? && Plain(Member(definitions, name).value)
      && forall nested :: nested in more <==> nested in Names(Member(definitions, name).value) - (reachable + {name})
    ensures Searching(root, definitions, reachable + {pending[|pending| - 1]}, pending[..|pending| - 1] + more)
  {
    var name, rest := pending[|pending| - 1], pending[..|pending| - 1];
    var reachable1, pending1 := reachable + {name}, rest + more;
    assert forall other :: other in pending ==> other in rest || other == name;
    assert forall other :: other in reachable || other in pending ==> other in reachable1 || other in pending1;
    forall names, other | Closed(root, definitions, names) && (other in reachable1 || other in pending1)
      ensures other in names
    {
      assert name in names && Answers(definitions, names, name);
    }
    forall other | other in reachable1
      ensures Pursued(definitions, reachable1, pending1, other)
    {
      if other != name {
        assert Pursued(definitions, reachable, pending, other);
      }
    }
    hide Closed, Pursued;
  }

  lemma SearchSucceeds(root: seq<Field>, definitions: seq<Field>, reachable: set<string>)
    requires Plain(Object(root)) && Searching(root, definitions, reachable, [])
    ensures Least(root, definitions, reachable)
  {
    forall name | name in reachable
      ensures Answers(definitions, reachable, name)
    {
      assert Pursued(definitions, reachable, [], name);
    }
  }

  method PruneUnusedDefinitions(schema: Json) returns (pruned: Json)
    requires schema.Object?
    ensures Prunes(schema, pruned)
  {
    var raw := Member(schema.fields, DEFS);
    if raw.None? || !raw.value.Object? {
      return schema;
    }
    var definitions := raw.value.fields;
    var root := RootOf(schema.fields);
    var references := DefinitionReferences(Object(root));
    if references.None? {
      return schema;
    }
    var pending := Listed(references.value);
    var reachable: set<string> := {};
    while |pending| > 0
      invariant reachable <= KeySet(definitions)
      invariant Searching(root, definitions, reachable, pending)
      decreases |KeySet(definitions) - reachable|, |pending|
    {
      var name := pending[|pending| - 1];
      if name in reachable {
        SearchedAgain(root, definitions, reachable, pending);
        pending := pending[..|pending| - 1];
      } else {
        MemberInKeys(definitions, name);
        var definition := Member(definitions, name);
        if definition.None? {
          SearchFails(root, definitions, reachable, pending, name);
          return schema;
        }
        var nested := DefinitionReferences(definition.value);
        if nested.None? {
          SearchFails(root, definitions, reachable, pending, name);
          return schema;
        }
        var more := Listed(nested.value - (reachable + {name}));
        SearchedNext(root, definitions, reachable, pending, more);
        assert KeySet(definitions) - (reachable + {name}) < KeySet(definitions) - reachable;
        reachable := reachable + {name};
        pending := pending[..|pending| - 1] + more;
      }
    }
    assert pending == [];
    SearchSucceeds(root, definitions, reachable);
    pruned := WithDefinitions(root, Keep(definitions, reachable), reachable);
  }
}
