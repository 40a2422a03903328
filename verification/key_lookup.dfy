/** Which of the caller's values a placeholder key names. */
module KeyLookup {
  import opened Options

  type Value = int

  /** The caller's own map, in the order it was built. */
  datatype Entry = Entry(key: string, value: Value)

  predicate DistinctKeys(data: seq<Entry>) {
    forall i, j :: 0 <= i < j < |data| ==> data[i].key != data[j].key
  }

  predicate Spells(sanitize: string -> string, data: seq<Entry>, i: nat, name: string)
    requires i < |data|
  {
    sanitize(data[i].key) == name
  }

  /** The first entry whose key has this canonical spelling. */
  predicate FirstSpelled(sanitize: string -> string, data: seq<Entry>, i: nat, name: string) {
    i < |data| && Spells(sanitize, data, i, name) && forall j :: 0 <= j < i ==> !Spells(sanitize, data, j, name)
  }

  /** No candidate before `c` is a key of the caller's map. */
  predicate NoneExact(data: seq<Entry>, candidates: seq<string>, c: nat)
    requires c <= |candidates|
  {
    forall b, i :: 0 <= b < c && 0 <= i < |data| ==> data[i].key != candidates[b]
  }

  predicate NoneSpelled(sanitize: string -> string, data: seq<Entry>, candidates: seq<string>, c: nat)
    requires c <= |candidates|
  {
    forall b, i :: 0 <= b < c && 0 <= i < |data| ==> !Spells(sanitize, data, i, sanitize(candidates[b]))
  }

  /** The entry a key names: the first candidate that is a key, else, by canonical spelling, the first
      candidate that is spelled like a key, and of those keys the first. */
  ghost predicate Names(sanitize: string -> string, data: seq<Entry>, candidates: seq<string>, i: nat) {
    i < |data| && (NamesExactly(data, candidates, i) || NamesBySpelling(sanitize, data, candidates, i))
  }

  ghost predicate NamesExactly(data: seq<Entry>, candidates: seq<string>, i: nat)
    requires i < |data|
  {
    exists c :: 0 <= c < |candidates| && data[i].key == candidates[c] && NoneExact(data, candidates, c)
  }

  ghost predicate NamesBySpelling(sanitize: string -> string, data: seq<Entry>, candidates: seq<string>, i: nat) {
    && NoneExact(data, candidates, |candidates|)
    && exists c :: (
         && 0 <= c < |candidates|
         && FirstSpelled(sanitize, data, i, sanitize(candidates[c])) && NoneSpelled(sanitize, data, candidates, c))
  }

  /** `_sanitized_key_index`: an earlier key keeps its spelling. */
  method SanitizedIndex(sanitize: string -> string, data: seq<Entry>) returns (index: map<string, nat>)
    ensures forall name :: name in index <==> exists i :: 0 <= i < |data| && Spells(sanitize, data, i, name)
    ensures forall name :: name in index ==> FirstSpelled(sanitize, data, index[name], name)
  {
    index := map[];
    for n := 0 to |data|
      invariant forall name :: name in index <==> exists i :: 0 <= i < n && Spells(sanitize, data, i, name)
      invariant forall name :: name in index ==> index[name] < n && FirstSpelled(sanitize, data, index[name], name)
    {
      var name := sanitize(data[n].key);
      assert Spells(sanitize, data, n, name);
      if name !in index {
        index := index[name := n];
      }
    }
  }

  method ExactKey(data: seq<Entry>, key: string) returns (found: Option<nat>)
    ensures found.Some? ==> found.value < |data| && data[found.value].key == key
    ensures found.None? ==> forall i :: 0 <= i < |data| ==> data[i].key != key
  {
    for i := 0 to |data|
      invariant forall j :: 0 <= j < i ==> data[j].key != key
    {
      if data[i].key == key {
        return Some(i);
      }
    }
    return None;
  }

  /** `_lookup`: an exact key wins over any canonical spelling; nothing is guessed. */
  method Lookup(sanitize: string -> string, data: seq<Entry>, candidates: seq<string>) returns (value: Option<Value>)
    ensures value.Some? ==> exists i: nat :: Names(sanitize, data, candidates, i) && value.value == data[i].value
    ensures value.None? <==> NoneSpelled(sanitize, data, candidates, |candidates|)
  {
    for c := 0 to |candidates|
      invariant NoneExact(data, candidates, c)
    {
      var exact := ExactKey(data, candidates[c]);
      if exact.Some? {
        assert Spells(sanitize, data, exact.value, sanitize(candidates[c]));
        assert Names(sanitize, data, candidates, exact.value);
        return Some(data[exact.value].value);
      }
    }
    var index := SanitizedIndex(sanitize, data);
    for c := 0 to |candidates|
      invariant NoneSpelled(sanitize, data, candidates, c)
    {
      var name := sanitize(candidates[c]);
      if name in index {
        assert FirstSpelled(sanitize, data, index[name], name);
        assert Names(sanitize, data, candidates, index[name]);
        return Some(data[index[name]].value);
      }
    }
    return None;
  }

  /** In a map with distinct keys a placeholder key names at most one entry. */
  lemma NamesOne(sanitize: string -> string, data: seq<Entry>, candidates: seq<string>, i: nat, j: nat)
    requires DistinctKeys(data) && Names(sanitize, data, candidates, i) && Names(sanitize, data, candidates, j)
    ensures i == j
  {
    if NoneExact(data, candidates, |candidates|) {
      var b :| 0 <= b < |candidates| && FirstSpelled(sanitize, data, i, sanitize(candidates[b])) &&
        NoneSpelled(sanitize, data, candidates, b);
      var c :| 0 <= c < |candidates| && FirstSpelled(sanitize, data, j, sanitize(candidates[c])) &&
        NoneSpelled(sanitize, data, candidates, c);
      assert b == c;
    } else {
      var b :| 0 <= b < |candidates| && data[i].key == candidates[b] && NoneExact(data, candidates, b);
      var c :| 0 <= c < |candidates| && data[j].key == candidates[c] && NoneExact(data, candidates, c);
      assert b == c;
    }
  }
}
