/** Reversible placeholders for editable source values, local to one invocation. */
module PrivateWorkspace {
  import opened Options

  /** A leaf with its type: values of different types are different even where they compare equal. */
  datatype Scalar = Text(text: string) | Int(i: int) | Float(f: real) | Bool(b: bool) | Null

  datatype Value = Leaf(scalar: Scalar) | Mapping(entries: seq<Entry>) | Listing(items: seq<Value>)

  datatype Entry = Entry(key: string, value: Value)

  /** The mapping from token keys to values, and back; `issued` counts the ids drawn. */
  datatype Vault = Vault(values: map<string, Scalar>, keys: map<Scalar, string>, issued: nat)

  /** What shielding leaves in place: words of the editing vocabulary, and ids under an id key. */
  datatype Vocabulary = Vocabulary(isWord: (string, string) -> bool, isOpaqueId: string -> bool)

  const SOURCE := "user_sdk_source_"

  predicate NoBraces(s: string) {
    forall i :: 0 <= i < |s| ==> s[i] != '{' && s[i] != '}'
  }

  /** Drawn ids never repeat, and contain no brace. */
  ghost predicate FreshIds(ids: nat -> string) {
    && (forall n :: NoBraces(ids(n)))
    && (forall m, n :: ids(m) == ids(n) ==> m == n)
  }

  function Wrap(key: string): string {
    "{_{" + key + "}_}"
  }

  /** Neither vocabulary words nor opaque ids contain braces. */
  ghost predicate PlainVocabulary(voc: Vocabulary) {
    && (forall key, s :: voc.isWord(key, s) ==> NoBraces(s))
    && (forall s :: voc.isOpaqueId(s) ==> NoBraces(s))
  }

  predicate IsIdKey(key: string) {
    key == "document_id" || key == "presentation_id" || key == "workbook_id" || key == "image_id"
  }

  predicate Kept(voc: Vocabulary, key: string, s: string) {
    voc.isWord(key, s) || (IsIdKey(key) && voc.isOpaqueId(s))
  }

  /** Text is concealed unless it is kept; numbers only inside content. */
  predicate Conceals(voc: Vocabulary, scalar: Scalar, key: string, content: bool) {
    match scalar
    case Text(s) => !Kept(voc, key, s)
    case Null => false
    case _ => content
  }

  /** `_token`: the key of a value, drawn on first sight. */
  function TokenKey(ids: nat -> string, vault: Vault, scalar: Scalar): (Vault, string) {
    if scalar in vault.keys then (vault, vault.keys[scalar])
    else
      var key := SOURCE + ids(vault.issued);
      (Vault(vault.values[key := scalar], vault.keys[scalar := key], vault.issued + 1), key)
  }

  function Shield(ids: nat -> string, voc: Vocabulary, vault: Vault, value: Value, key: string, content: bool)
    : (Vault, Value)
    decreases value
  {
    match value
    case Leaf(scalar) =>
      if !Conceals(voc, scalar, key, content) then (vault, value)
      else
        var (vault1, token) := TokenKey(ids, vault, scalar);
        (vault1, Leaf(Text(Wrap(token))))
    case Mapping(entries) =>
      var (vault1, entries1) := ShieldEntries(ids, voc, vault, entries, content);
      (vault1, Mapping(entries1))
    case Listing(items) =>
      var (vault1, items1) := ShieldItems(ids, voc, vault, items, key, content);
      (vault1, Listing(items1))
  }

  function ShieldEntries(ids: nat -> string, voc: Vocabulary, vault: Vault, entries: seq<Entry>,
                         content: bool): (Vault, seq<Entry>)
    decreases entries
  {
    if |entries| == 0 then (vault, [])
    else
      var name := entries[0].key;
      var (vault1, first) := Shield(ids, voc, vault, entries[0].value, name, content || name == "content");
      var (vault2, rest) := ShieldEntries(ids, voc, vault1, entries[1..], content);
      (vault2, [Entry(name, first)] + rest)
  }

  function ShieldItems(ids: nat -> string, voc: Vocabulary, vault: Vault, items: seq<Value>, key: string,
                       content: bool): (Vault, seq<Value>)
    decreases items
  {
    if |items| == 0 then (vault, [])
    else
      var (vault1, first) := Shield(ids, voc, vault, items[0], key, content);
      var (vault2, rest) := ShieldItems(ids, voc, vault1, items[1..], key, content);
      (vault2, [first] + rest)
  }

  // ---------------------------------------------------------------- resolving

  /** The end of the run without braces that starts at `i`. */
  function RunEnd(s: string, i: nat): (end: nat)
    requires i <= |s|
    ensures i <= end <= |s|
    ensures forall k :: i <= k < end ==> s[k] != '{' && s[k] != '}'
    ensures end == |s| || s[end] == '{' || s[end] == '}'
    decreases |s| - i
  {
    if i < |s| && s[i] != '{' && s[i] != '}' then RunEnd(s, i + 1) else i
  }

  predicate StartsAt(s: string, i: nat, part: string) {
    i + |part| <= |s| && s[i..i + |part|] == part
  }

  /** The key of the token that starts at `i`: `sdk_source_` or `user_sdk_source_` and a run without braces. */
  function KeyAt(s: string, i: nat): Option<string>
    requires i <= |s|
  {
    if !StartsAt(s, i, "{_{") then None
    else
      var end := RunEnd(s, i + 3);
      var key := s[i + 3..end];
      if StartsAt(s, end, "}_}") && ("sdk_source_" <= key || SOURCE <= key) then Some(key) else None
  }

  datatype Resolved<T> = Ok(value: T) | Unavailable

  /** The text a value is written as inside a longer text. */
  type Writer = Scalar -> string

  /** Every token in a longer text replaced by its value's text. */
  function Fill(vault: Vault, write: Writer, s: string, i: nat): Resolved<string>
    requires i <= |s|
    decreases |s| - i
  {
    if i == |s| then Ok("")
    else
      var key := KeyAt(s, i);
      if key.None? then
        var rest := Fill(vault, write, s, i + 1);
        if rest.Ok? then Ok([s[i]] + rest.value) else rest
      else if key.value !in vault.values then Unavailable
      else
        KeyFits(s, i);
        var rest := Fill(vault, write, s, i + |key.value| + 6);
        if rest.Ok? then Ok(write(vault.values[key.value]) + rest.value) else rest
  }

  lemma KeyFits(s: string, i: nat)
    requires i <= |s| && KeyAt(s, i).Some?
    ensures i + |KeyAt(s, i).value| + 6 <= |s|
  {
  }

  /** The whole text is one token. */
  predicate IsToken(s: string) {
    KeyAt(s, 0).Some? && |s| == |KeyAt(s, 0).value| + 6
  }

  function Resolve(vault: Vault, write: Writer, value: Value): Resolved<Value>
    decreases value
  {
    match value
    case Leaf(Text(s)) =>
      if IsToken(s) then
        var key := KeyAt(s, 0).value;
        if key in vault.values then Ok(Leaf(vault.values[key])) else Unavailable
      else
        var filled := Fill(vault, write, s, 0);
        if filled.Ok? then Ok(Leaf(Text(filled.value))) else Unavailable
    case Leaf(_) => Ok(value)
    case Mapping(entries) =>
      var resolved := ResolveEntries(vault, write, entries);
      if resolved.Ok? then Ok(Mapping(resolved.value)) else Unavailable
    case Listing(items) =>
      var resolved := ResolveItems(vault, write, items);
      if resolved.Ok? then Ok(Listing(resolved.value)) else Unavailable
  }

  function ResolveEntries(vault: Vault, write: Writer, entries: seq<Entry>): Resolved<seq<Entry>>
    decreases entries
  {
    if |entries| == 0 then Ok([])
    else
      var first := Resolve(vault, write, entries[0].value);
      var rest := ResolveEntries(vault, write, entries[1..]);
      if first.Ok? && rest.Ok? then Ok([Entry(entries[0].key, first.value)] + rest.value) else Unavailable
  }

  function ResolveItems(vault: Vault, write: Writer, items: seq<Value>): Resolved<seq<Value>>
    decreases items
  {
    if |items| == 0 then Ok([])
    else
      var first := Resolve(vault, write, items[0]);
      var rest := ResolveItems(vault, write, items[1..]);
      if first.Ok? && rest.Ok? then Ok([first.value] + rest.value) else Unavailable
  }

  // ---------------------------------------------------------------- what every shielding keeps

  /** Each key stands for one value and each value for one key, all of them drawn. */
  ghost predicate Consistent(ids: nat -> string, vault: Vault) {
    && (forall scalar ::
         scalar in vault.keys ==> vault.keys[scalar] in vault.values && vault.values[vault.keys[scalar]] == scalar)
    && (forall key :: key in vault.values ==> vault.values[key] in vault.keys && vault.keys[vault.values[key]] == key)
    && (forall key :: key in vault.values ==> exists n :: 0 <= n < vault.issued && key == SOURCE + ids(n))
  }

  /** A later vault: nothing issued is ever withdrawn or changed. */
  ghost predicate Later(vault: Vault, vault1: Vault) {
    && (forall key :: key in vault.values ==> key in vault1.values && vault1.values[key] == vault.values[key])
    && vault.issued <= vault1.issued
  }

  lemma SourceKeysDiffer(ids: nat -> string, m: nat, n: nat)
    requires FreshIds(ids) && m != n
    ensures SOURCE + ids(m) != SOURCE + ids(n)
  {
    var a, b := SOURCE + ids(m), SOURCE + ids(n);
    assert a[|SOURCE|..] == ids(m) && b[|SOURCE|..] == ids(n);
  }

  lemma NextKeyIsNew(ids: nat -> string, vault: Vault)
    requires FreshIds(ids) && Consistent(ids, vault)
    ensures SOURCE + ids(vault.issued) !in vault.values
  {
    forall n: nat | n < vault.issued
      ensures SOURCE + ids(n) != SOURCE + ids(vault.issued)
    {
      SourceKeysDiffer(ids, n, vault.issued);
    }
  }

  lemma TokenKeepsConsistent(ids: nat -> string, vault: Vault, scalar: Scalar)
    requires FreshIds(ids) && Consistent(ids, vault)
    ensures var (vault1, key) := TokenKey(ids, vault, scalar);
      && Consistent(ids, vault1) && Later(vault, vault1)
      && key in vault1.values && vault1.values[key] == scalar
  {
    if scalar !in vault.keys {
      NextKeyIsNew(ids, vault);
    }
  }

  /** The shielded value of a consistent vault, and the vault it leaves. */
  lemma {:induction false} ShieldKeepsConsistent(ids: nat -> string, voc: Vocabulary, vault: Vault, value: Value,
                                                 key: string, content: bool)
    requires FreshIds(ids) && Consistent(ids, vault)
    ensures var vault1 := Shield(ids, voc, vault, value, key, content).0;
      Consistent(ids, vault1) && Later(vault, vault1)
    decreases value, 1
  {
    match value
    case Leaf(scalar) =>
      if Conceals(voc, scalar, key, content) {
        TokenKeepsConsistent(ids, vault, scalar);
      }
    case Mapping(entries) => EntriesKeepConsistent(ids, voc, vault, entries, content);
    case Listing(items) => ItemsKeepConsistent(ids, voc, vault, items, key, content);
  }

  lemma {:induction false} EntriesKeepConsistent(ids: nat -> string, voc: Vocabulary, vault: Vault,
                                                 entries: seq<Entry>, content: bool)
    requires FreshIds(ids) && Consistent(ids, vault)
    ensures var vault1 := ShieldEntries(ids, voc, vault, entries, content).0;
      Consistent(ids, vault1) && Later(vault, vault1)
    decreases entries, 0
  {
    if |entries| > 0 {
      var name := entries[0].key;
      ShieldKeepsConsistent(ids, voc, vault, entries[0].value, name, content || name == "content");
      var vault1 := Shield(ids, voc, vault, entries[0].value, name, content || name == "content").0;
      EntriesKeepConsistent(ids, voc, vault1, entries[1..], content);
      hide Shield, FreshIds, Consistent;
    }
  }

  lemma {:induction false} ItemsKeepConsistent(ids: nat -> string, voc: Vocabulary, vault: Vault,
                                               items: seq<Value>, key: string, content: bool)
    requires FreshIds(ids) && Consistent(ids, vault)
    ensures var vault1 := ShieldItems(ids, voc, vault, items, key, content).0;
      Consistent(ids, vault1) && Later(vault, vault1)
    decreases items, 0
  {
    if |items| > 0 {
      ShieldKeepsConsistent(ids, voc, vault, items[0], key, content);
      var vault1 := Shield(ids, voc, vault, items[0], key, content).0;
      ItemsKeepConsistent(ids, voc, vault1, items[1..], key, content);
      hide Shield, FreshIds, Consistent;
    }
  }

  // ---------------------------------------------------------------- the round trip

  /** A wrapped key is one token, and its own. */
  lemma WrappedKey(key: string)
    requires NoBraces(key) && SOURCE <= key
    ensures IsToken(Wrap(key)) && KeyAt(Wrap(key), 0) == Some(key)
  {
    var s := Wrap(key);
    assert s[0..3] == "{_{" && s[3..3 + |key|] == key && s[3 + |key|..6 + |key|] == "}_}";
    RunOfKey(s, key, 3);
  }

  lemma {:induction false} RunOfKey(s: string, key: string, i: nat)
    requires NoBraces(key) && s == Wrap(key) && 3 <= i <= 3 + |key|
    ensures RunEnd(s, i) == 3 + |key|
    decreases |s| - i
  {
    if i < 3 + |key| {
      assert s[i] == key[i - 3];
      RunOfKey(s, key, i + 1);
    }
  }

  /** Text without braces resolves to itself. */
  lemma {:induction false} PlainTextStays(vault: Vault, write: Writer, s: string, i: nat)
    requires NoBraces(s) && i <= |s|
    ensures KeyAt(s, i) == None && Fill(vault, write, s, i) == Ok(s[i..])
    decreases |s| - i
  {
    assert !StartsAt(s, i, "{_{") by {
      if i + 3 <= |s| { assert s[i..i + 3][0] == s[i]; }
    }
    if i < |s| {
      PlainTextStays(vault, write, s, i + 1);
      assert s[i..] == [s[i]] + s[i + 1..];
    } else {
      assert s[i..] == "";
    }
  }

  lemma LeafReturns(ids: nat -> string, voc: Vocabulary, vault: Vault, scalar: Scalar, key: string, content: bool,
                    later: Vault, write: Writer)
    requires FreshIds(ids) && PlainVocabulary(voc) && Consistent(ids, vault)
    requires Later(Shield(ids, voc, vault, Leaf(scalar), key, content).0, later)
    ensures Resolve(later, write, Shield(ids, voc, vault, Leaf(scalar), key, content).1) == Ok(Leaf(scalar))
  {
    if Conceals(voc, scalar, key, content) {
      TokenKeepsConsistent(ids, vault, scalar);
      var (vault1, token) := TokenKey(ids, vault, scalar);
      var n :| 0 <= n < vault1.issued && token == SOURCE + ids(n);
      assert token[..|SOURCE|] == SOURCE;
      WrappedKey(token);
      hide IsToken, KeyAt, Wrap, FreshIds, Consistent;
    } else if scalar.Text? {
      PlainTextStays(later, write, scalar.text, 0);
      assert scalar.text[0..] == scalar.text;
    }
  }

  /** Every value comes back with its types, whatever was shielded before and is shielded later. */
  lemma {:induction false} ShieldedReturns(ids: nat -> string, voc: Vocabulary, vault: Vault, value: Value, key: string,
                                           content: bool, later: Vault, write: Writer)
    requires FreshIds(ids) && PlainVocabulary(voc) && Consistent(ids, vault)
    requires Later(Shield(ids, voc, vault, value, key, content).0, later)
    ensures Resolve(later, write, Shield(ids, voc, vault, value, key, content).1) == Ok(value)
    decreases value, 1
  {
    match value
    case Leaf(scalar) => LeafReturns(ids, voc, vault, scalar, key, content, later, write);
    case Mapping(entries) => EntriesReturn(ids, voc, vault, entries, content, later, write);
    case Listing(items) => ItemsReturn(ids, voc, vault, items, key, content, later, write);
  }

  lemma {:induction false} EntriesReturn(ids: nat -> string, voc: Vocabulary, vault: Vault, entries: seq<Entry>,
                                         content: bool, later: Vault, write: Writer)
    requires FreshIds(ids) && PlainVocabulary(voc) && Consistent(ids, vault)
    requires Later(ShieldEntries(ids, voc, vault, entries, content).0, later)
    ensures ResolveEntries(later, write, ShieldEntries(ids, voc, vault, entries, content).1) == Ok(entries)
    decreases entries, 0
  {
    if |entries| > 0 {
      var name := entries[0].key;
      var inside := content || name == "content";
      var (vault1, first) := Shield(ids, voc, vault, entries[0].value, name, inside);
      var (vault2, rest) := ShieldEntries(ids, voc, vault1, entries[1..], content);
      ShieldKeepsConsistent(ids, voc, vault, entries[0].value, name, inside);
      EntriesKeepConsistent(ids, voc, vault1, entries[1..], content);
      ShieldedReturns(ids, voc, vault, entries[0].value, name, inside, later, write);
      EntriesReturn(ids, voc, vault1, entries[1..], content, later, write);
      hide Shield, FreshIds, Consistent, PlainVocabulary, Resolve;
      var all := [Entry(name, first)] + rest;
      assert all[0] == Entry(name, first) && all[1..] == rest;
      assert entries == [Entry(name, entries[0].value)] + entries[1..];
    }
  }

  lemma {:induction false} ItemsReturn(ids: nat -> string, voc: Vocabulary, vault: Vault, items: seq<Value>,
                                       key: string, content: bool, later: Vault, write: Writer)
    requires FreshIds(ids) && PlainVocabulary(voc) && Consistent(ids, vault)
    requires Later(ShieldItems(ids, voc, vault, items, key, content).0, later)
    ensures ResolveItems(later, write, ShieldItems(ids, voc, vault, items, key, content).1) == Ok(items)
    decreases items, 0
  {
    if |items| > 0 {
      var (vault1, first) := Shield(ids, voc, vault, items[0], key, content);
      var (vault2, rest) := ShieldItems(ids, voc, vault1, items[1..], key, content);
      ShieldKeepsConsistent(ids, voc, vault, items[0], key, content);
      ItemsKeepConsistent(ids, voc, vault1, items[1..], key, content);
      ShieldedReturns(ids, voc, vault, items[0], key, content, later, write);
      ItemsReturn(ids, voc, vault1, items[1..], key, content, later, write);
      hide Shield, FreshIds, Consistent, PlainVocabulary, Resolve;
      var all := [first] + rest;
      assert all[0] == first && all[1..] == rest;
      assert items == [items[0]] + items[1..];
    }
  }

  /** Tokens of different values differ. */
  lemma DifferentTokens(ids: nat -> string, vault: Vault, a: Scalar, b: Scalar)
    requires Consistent(ids, vault) && a in vault.keys && b in vault.keys && a != b
    ensures Wrap(vault.keys[a]) != Wrap(vault.keys[b])
  {
    var x, y := Wrap(vault.keys[a]), Wrap(vault.keys[b]);
    assert x[3..|x| - 3] == vault.keys[a] && y[3..|y| - 3] == vault.keys[b];
  }

  /** Nothing of the source shows: every text left is kept vocabulary, an opaque id, or an issued
      token, and inside content every number and truth value is a token too. */
  predicate Concealed(voc: Vocabulary, vault: Vault, value: Value, key: string, content: bool)
    decreases value
  {
    match value
    case Leaf(scalar) =>
      !Conceals(voc, scalar, key, content) ||
        (scalar.Text? && exists token :: token in vault.values && scalar.text == Wrap(token))
    case Mapping(entries) =>
      forall i :: 0 <= i < |entries| ==>
        Concealed(voc, vault, entries[i].value, entries[i].key, content || entries[i].key == "content")
    case Listing(items) => forall i :: 0 <= i < |items| ==> Concealed(voc, vault, items[i], key, content)
  }

  lemma {:induction false} ConcealedLater(voc: Vocabulary, vault: Vault, vault1: Vault, value: Value, key: string,
                                          content: bool)
    requires Concealed(voc, vault, value, key, content) && Later(vault, vault1)
    ensures Concealed(voc, vault1, value, key, content)
    decreases value
  {
    match value
    case Leaf(_) =>
    case Mapping(entries) =>
      forall i | 0 <= i < |entries|
        ensures Concealed(voc, vault1, entries[i].value, entries[i].key, content || entries[i].key == "content")
      {
        ConcealedLater(voc, vault, vault1, entries[i].value, entries[i].key, content || entries[i].key == "content");
      }
    case Listing(items) =>
      forall i | 0 <= i < |items|
        ensures Concealed(voc, vault1, items[i], key, content)
      {
        ConcealedLater(voc, vault, vault1, items[i], key, content);
      }
  }

  lemma {:induction false} ShieldConceals(ids: nat -> string, voc: Vocabulary, vault: Vault, value: Value,
                                          key: string, content: bool)
    requires FreshIds(ids) && Consistent(ids, vault)
    ensures var (vault1, shielded) := Shield(ids, voc, vault, value, key, content);
      Concealed(voc, vault1, shielded, key, content)
    decreases value, 1
  {
    match value
    case Leaf(scalar) =>
      if Conceals(voc, scalar, key, content) {
        TokenKeepsConsistent(ids, vault, scalar);
      }
    case Mapping(entries) => EntriesConceal(ids, voc, vault, entries, content);
    case Listing(items) => ItemsConceal(ids, voc, vault, items, key, content);
  }

  lemma {:induction false} EntriesConceal(ids: nat -> string, voc: Vocabulary, vault: Vault, entries: seq<Entry>,
                                          content: bool)
    requires FreshIds(ids) && Consistent(ids, vault)
    ensures var (vault1, shielded) := ShieldEntries(ids, voc, vault, entries, content);
      Concealed(voc, vault1, Mapping(shielded), "", content)
    decreases entries, 0
  {
    if |entries| > 0 {
      var name := entries[0].key;
      var inside := content || name == "content";
      var (vault1, first) := Shield(ids, voc, vault, entries[0].value, name, inside);
      var (vault2, rest) := ShieldEntries(ids, voc, vault1, entries[1..], content);
      ShieldConceals(ids, voc, vault, entries[0].value, name, inside);
      ShieldKeepsConsistent(ids, voc, vault, entries[0].value, name, inside);
      EntriesConceal(ids, voc, vault1, entries[1..], content);
      EntriesKeepConsistent(ids, voc, vault1, entries[1..], content);
      ConcealedLater(voc, vault1, vault2, first, name, inside);
      var all := [Entry(name, first)] + rest;
      assert forall i :: 0 < i < |all| ==> all[i] == rest[i - 1];
      assert forall i ::
        0 <= i < |rest| ==> Concealed(voc, vault2, rest[i].value, rest[i].key, content || rest[i].key == "content");
      hide Shield, FreshIds, Consistent, Concealed;
      AllConcealed(voc, vault2, all, content);
    }
  }

  lemma AllConcealed(voc: Vocabulary, vault: Vault, entries: seq<Entry>, content: bool)
    requires forall i :: 0 <= i < |entries| ==>
      Concealed(voc, vault, entries[i].value, entries[i].key, content || entries[i].key == "content")
    ensures Concealed(voc, vault, Mapping(entries), "", content)
  {
  }

  lemma {:induction false} ItemsConceal(ids: nat -> string, voc: Vocabulary, vault: Vault, items: seq<Value>,
                                        key: string, content: bool)
    requires FreshIds(ids) && Consistent(ids, vault)
    ensures var (vault1, shielded) := ShieldItems(ids, voc, vault, items, key, content);
      Concealed(voc, vault1, Listing(shielded), key, content)
    decreases items, 0
  {
    if |items| > 0 {
      var (vault1, first) := Shield(ids, voc, vault, items[0], key, content);
      var (vault2, rest) := ShieldItems(ids, voc, vault1, items[1..], key, content);
      ShieldConceals(ids, voc, vault, items[0], key, content);
      ShieldKeepsConsistent(ids, voc, vault, items[0], key, content);
      ItemsConceal(ids, voc, vault1, items[1..], key, content);
      ItemsKeepConsistent(ids, voc, vault1, items[1..], key, content);
      ConcealedLater(voc, vault1, vault2, first, key, content);
      var all := [first] + rest;
      assert forall i :: 0 < i < |all| ==> all[i] == rest[i - 1];
      assert forall i :: 0 <= i < |rest| ==> Concealed(voc, vault2, rest[i], key, content);
      assert Concealed(voc, vault2, Listing(all), key, content);
    }
  }

  // ---------------------------------------------------------------- the object

  class PrivateWorkspaceValues {
    const ids: nat -> string
    const voc: Vocabulary
    var values: map<string, Scalar>
    var keys: map<Scalar, string>
    /** How many ids this object has drawn. */
    var issued: nat

    ghost function Snapshot(): Vault
      reads this
    {
      Vault(values, keys, issued)
    }

    constructor (ids: nat -> string, voc: Vocabulary)
      ensures this.ids == ids && this.voc == voc && Snapshot() == Vault(map[], map[], 0)
    {
      this.ids, this.voc := ids, voc;
      values, keys, issued := map[], map[], 0;
    }

    /** `_token`. */
    method Token(scalar: Scalar) returns (token: string)
      modifies this
      ensures (Snapshot(), token) == var (vault1, key) := TokenKey(ids, old(Snapshot()), scalar); (vault1, Wrap(key))
    {
      var key;
      if scalar in keys {
        key := keys[scalar];
      } else {
        key := SOURCE + ids(issued);
        issued := issued + 1;
        keys := keys[scalar := key];
        values := values[key := scalar];
      }
      token := "{_{" + key + "}_}";
    }

    method ShieldValue(value: Value, key: string, content: bool) returns (shielded: Value)
      modifies this
      ensures (Snapshot(), shielded) == Shield(ids, voc, old(Snapshot()), value, key, content)
      decreases value, 1
    {
      match value
      case Leaf(scalar) =>
        if scalar.Text? {
          if Kept(voc, key, scalar.text) {
            return value;
          }
          var token := Token(scalar);
          return Leaf(Text(token));
        }
        if content && !scalar.Null? {
          var token := Token(scalar);
          return Leaf(Text(token));
        }
        return value;
      case Mapping(entries) =>
        var entries1 := ShieldMapping(entries, content);
        return Mapping(entries1);
      case Listing(items) =>
        var items1 := ShieldListing(items, key, content);
        return Listing(items1);
    }

    method ShieldMapping(entries: seq<Entry>, content: bool) returns (shielded: seq<Entry>)
      modifies this
      ensures (Snapshot(), shielded) == ShieldEntries(ids, voc, old(Snapshot()), entries, content)
      decreases entries, 0
    {
      if |entries| == 0 {
        return [];
      }
      var name := entries[0].key;
      var first := ShieldValue(entries[0].value, name, content || name == "content");
      var rest := ShieldMapping(entries[1..], content);
      shielded := [Entry(name, first)] + rest;
      hide Shield;
    }

    method ShieldListing(items: seq<Value>, key: string, content: bool) returns (shielded: seq<Value>)
      modifies this
      ensures (Snapshot(), shielded) == ShieldItems(ids, voc, old(Snapshot()), items, key, content)
      decreases items, 0
    {
      if |items| == 0 {
        return [];
      }
      var first := ShieldValue(items[0], key, content);
      var rest := ShieldListing(items[1..], key, content);
      shielded := [first] + rest;
      hide Shield;
    }
  }
}
