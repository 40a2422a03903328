/** What the concrete scanner finds: exactly the stretches of the documented token shape. */
module ScannedTokens {
  import opened Options
  import opened PlaceholderText
  import opened BracketTokens

  /** A name in three brackets: an opening, a key that is not empty and holds no brace, a closing. */
  predicate TokenStands(s: string, i: nat, key: string) {
    && |key| > 0 && (forall k :: 0 <= k < |key| ==> key[k] != '{' && key[k] != '}')
    && i + |key| + 6 <= |s|
    && s[i..i + 3] == "{_{" && s[i + 3..i + 3 + |key|] == key && s[i + 3 + |key|..i + |key| + 6] == "}_}"
  }

  lemma {:induction false} RunStops(s: string, i: nat, end: nat)
    requires i <= end < |s| && (forall k :: i <= k < end ==> s[k] != '{' && s[k] != '}') && s[end] == '}'
    ensures KeyRun(s, i) == end
    decreases end - i
  {
    if i < end {
      RunStops(s, i + 1, end);
    }
  }

  lemma StandingIsScanned(s: string, i: nat, key: string)
    requires TokenStands(s, i, key)
    ensures TokenEnd(s, i) == i + |key| + 6
  {
    var end := i + 3 + |key|;
    forall k | i + 3 <= k < end
      ensures s[k] != '{' && s[k] != '}'
    {
      assert s[k] == s[i + 3..end][k - i - 3];
    }
    assert s[i] == s[i..i + 3][0] && s[i + 1] == s[i..i + 3][1] && s[i + 2] == s[i..i + 3][2];
    assert s[end] == s[end..end + 3][0] && s[end + 1] == s[end..end + 3][1] && s[end + 2] == s[end..end + 3][2];
    RunStops(s, i + 3, end);
  }

  lemma ScannedStands(s: string, i: nat)
    requires i < |s| && TokenEnd(s, i) > 0
    ensures TokenStands(s, i, s[i + 3..TokenEnd(s, i) - 3])
  {
    var end := TokenEnd(s, i) - 3;
    forall k | i + 3 <= k < end
      ensures s[k] != '{' && s[k] != '}'
    {
      RunIsKeys(s, i + 3, k);
    }
    assert s[i..i + 3] == "{_{" && s[end..end + 3] == "}_}";
  }

  /** The scan from `i` on finds a token wherever one stands, and nothing else, each with its key and value. */
  lemma {:induction false} FindExactly(lookup: string -> Option<string>, s: string, i: nat)
    requires i <= |s|
    ensures forall t :: t in Find(lookup, s, i) ==>
      t.start >= i && TokenStands(s, t.start, t.key) && t.end == t.start + |t.key| + 6 && t.value == lookup(t.key)
    ensures forall j: nat, key: string :: i <= j && TokenStands(s, j, key) ==>
      Token(j, j + |key| + 6, key, lookup(key)) in Find(lookup, s, i)
    decreases |s| - i
  {
    if i < |s| {
      var end := TokenEnd(s, i);
      var next := if end == 0 then i + 1 else end;
      FindExactly(lookup, s, next);
      if end > 0 {
        ScannedStands(s, i);
      }
      hide TokenEnd, TokenStands;
      forall j: nat, key: string | i <= j && TokenStands(s, j, key)
        ensures Token(j, j + |key| + 6, key, lookup(key)) in Find(lookup, s, i)
      {
        StandingEnds(s, j, key);
        if i < j < end {
          NoTokenInside(s, i, j);
        }
      }
    } else {
      hide TokenEnd;
    }
  }

  lemma StandingEnds(s: string, i: nat, key: string)
    requires TokenStands(s, i, key)
    ensures i < |s| && TokenEnd(s, i) == i + |key| + 6 && s[i + 3..TokenEnd(s, i) - 3] == key
  {
    StandingIsScanned(s, i, key);
  }
}
