/** One concrete placeholder pattern, `{_key_}` in an outer pair of braces, as a finder. */
module BracketTokens {
  import opened Options
  import opened PlaceholderText
  import opened RestorationRebase
  import opened CutSpans

  predicate IsKeyChar(c: char) {
    c != '{' && c != '}'
  }

  /** Where the longest run of key characters from `i` ends. */
  function KeyRun(s: string, i: nat): (end: nat)
    requires i <= |s|
    ensures i <= end <= |s|
    decreases |s| - i
  {
    if i < |s| && IsKeyChar(s[i]) then KeyRun(s, i + 1) else i
  }

  /** The key's run, the closing underscore included, when a token starts at `i`. */
  function TokenEnd(s: string, i: nat): (end: nat)
    requires i < |s|
    ensures end == 0 || i + 5 < end <= |s|
  {
    if i + 2 < |s| && s[i] == '{' && s[i + 1] == '_' && s[i + 2] == '{' then
      var run := KeyRun(s, i + 3);
      if run > i + 3 && run + 2 < |s| && s[run] == '}' && s[run + 1] == '_' && s[run + 2] == '}' then run + 3 else 0
    else 0
  }

  /** Leftmost matches, each search going on behind the last match. */
  function Find(lookup: string -> Option<string>, s: string, i: nat): seq<Token>
    requires i <= |s|
    decreases |s| - i
  {
    if i == |s| then []
    else
      var end := TokenEnd(s, i);
      if end == 0 then Find(lookup, s, i + 1)
      else
        var key := s[i + 3..end - 3];
        [Token(i, end, key, lookup(key))] + Find(lookup, s, end)
  }

  lemma {:induction false} FoundInOrder(lookup: string -> Option<string>, s: string, i: nat, lo: nat)
    requires lo <= i <= |s|
    ensures InOrder(Find(lookup, s, i), lo, |s|)
    decreases |s| - i
  {
    if i < |s| {
      if TokenEnd(s, i) == 0 {
        FoundInOrder(lookup, s, i + 1, lo);
      } else {
        FoundInOrder(lookup, s, TokenEnd(s, i), TokenEnd(s, i));
      }
    }
  }

  lemma {:induction false} RunOfPrefix(s: string, k: nat, i: nat)
    requires i <= k <= |s|
    ensures KeyRun(s[..k], i) == if KeyRun(s, i) <= k then KeyRun(s, i) else k
    decreases k - i
  {
    if i < k && IsKeyChar(s[i]) {
      RunOfPrefix(s, k, i + 1);
    }
  }

  /** A prefix shows exactly the tokens that end in it. */
  lemma TokenOfPrefix(s: string, k: nat, i: nat)
    requires i < k <= |s|
    ensures TokenEnd(s[..k], i) == if TokenEnd(s, i) <= k then TokenEnd(s, i) else 0
  {
    if i + 3 <= k {
      RunOfPrefix(s, k, i + 3);
    }
  }

  lemma {:induction false} RunIsKeys(s: string, i: nat, j: nat)
    requires i <= |s| && i <= j < KeyRun(s, i)
    ensures IsKeyChar(s[j])
    decreases j - i
  {
    if i < j {
      RunIsKeys(s, i + 1, j);
    }
  }

  /** Tokens neither nest nor overlap. */
  lemma NoTokenInside(s: string, i: nat, j: nat)
    requires i < j < |s| && i < |s| && j < TokenEnd(s, i)
    ensures TokenEnd(s, j) == 0
  {
    var run := KeyRun(s, i + 3);
    if i + 3 <= j < run { RunIsKeys(s, i + 3, j); }
    if j == i + 2 && i + 4 < run { RunIsKeys(s, i + 3, i + 4); }
  }

  lemma {:induction false} NothingFoundInside(lookup: string -> Option<string>, s: string, k: nat, i: nat, j: nat)
    requires i < j <= k <= |s| && k < TokenEnd(s, i)
    ensures Find(lookup, s[..k], j) == []
    decreases k - j
  {
    if j < k {
      NoTokenInside(s, i, j);
      TokenOfPrefix(s, k, j);
      NothingFoundInside(lookup, s, k, i, j + 1);
    }
  }

  /** A prefix shows exactly the tokens that end in it: what is left of a cut one holds none. */
  lemma {:induction false} FindOfPrefix(lookup: string -> Option<string>, s: string, k: nat, i: nat)
    requires i <= k <= |s|
    ensures Find(lookup, s[..k], i) == UpTo(Find(lookup, s, i), k)
    decreases k - i
  {
    FoundInOrder(lookup, s, i, i);
    if i < k {
      TokenOfPrefix(s, k, i);
      var end := TokenEnd(s, i);
      if end == 0 {
        FindOfPrefix(lookup, s, k, i + 1);
      } else if end <= k {
        var found := Find(lookup, s, i);
        assert found[0].end == end && found[1..] == Find(lookup, s, end);
        FindOfPrefix(lookup, s, k, end);
        assert s[..k][i + 3..end - 3] == s[i + 3..end - 3];
      } else {
        NothingFoundInside(lookup, s, k, i, i + 1);
      }
    } else if |Find(lookup, s, i)| > 0 {
      assert Find(lookup, s, i)[0].end > k;
    }
  }

  function Finding(lookup: string -> Option<string>): string -> seq<Token> {
    s => Find(lookup, s, 0)
  }

  /** The pattern meets everything assumed of finders, at cut tokens too. */
  lemma PatternIsFinder(lookup: string -> Option<string>)
    ensures PrefixFinder(Finding(lookup)) && Finder(Finding(lookup))
  {
    var find := Finding(lookup);
    forall s
      ensures InOrder(find(s), 0, |s|)
    {
      FoundInOrder(lookup, s, 0, 0);
    }
    forall s, k: nat | k <= |s|
      ensures find(s[..k]) == UpTo(find(s), k)
    {
      FindOfPrefix(lookup, s, k, 0);
    }
    PrefixFinderIsFinder(find);
  }

  const SAMPLE := "a{_{k}_}"

  lemma SampleTokens(lookup: string -> Option<string>)
    ensures Find(lookup, SAMPLE, 0) == [Token(1, 8, "k", lookup("k"))]
  {
    assert KeyRun(SAMPLE, 5) == 5 && KeyRun(SAMPLE, 4) == 5;
    assert TokenEnd(SAMPLE, 0) == 0 && TokenEnd(SAMPLE, 1) == 8;
    assert SAMPLE[4..5] == "k" && Find(lookup, SAMPLE, 8) == [];
    assert Find(lookup, SAMPLE, 1) == [Token(1, 8, "k", lookup("k"))] + Find(lookup, SAMPLE, 8);
  }

  /** For instance: a span over `a` and the opening of the token loses its text to a value that does
      not begin like the token. */
  lemma CutSpanMoves(lookup: string -> Option<string>)
    requires lookup("k") == Some("wxyz")
    ensures var tokens, span := Find(lookup, SAMPLE, 0), Span(0, 4, "other");
      && Finder(Finding(lookup)) && InOrder(tokens, 0, |SAMPLE|)
      && Rebased(Finding(lookup), SAMPLE, span) == span
      && !KeepsText(SAMPLE, tokens, span.start, span.end)
  {
    PatternIsFinder(lookup);
    SampleTokens(lookup);
    FoundInOrder(lookup, SAMPLE, 0, 0);
    var tokens, span := Find(lookup, SAMPLE, 0), Span(0, 4, "other");
    RebasedLandsAnywhere(Finding(lookup), SAMPLE, span);
    CutEndKeepsTextIff(SAMPLE, tokens, 0, 4, 0);
    SampleLandings(tokens);
    hide *;
    ValueDiffers(SAMPLE[1..4], Replacement(SAMPLE, tokens[0]), Behind(SAMPLE, tokens, 0));
  }

  lemma ValueDiffers(cut: string, value: string, behind: string)
    requires |cut| > 0 && |value| > 0 && cut[0] != value[0]
    ensures !(cut <= value + behind)
  {
  }

  lemma SampleLandings(tokens: seq<Token>)
    requires tokens == [Token(1, 8, "k", Some("wxyz"))] && InOrder(tokens, 0, |SAMPLE|)
    ensures Landing(SAMPLE, tokens, 0) == 0 && Landing(SAMPLE, tokens, 4) == 4
    ensures |Replacement(SAMPLE, tokens[0])| == 4 && Replacement(SAMPLE, tokens[0])[0] == 'w' && SAMPLE[1..4][0] == '{'
  {
    assert UpTo(tokens, 0) == [] && UpTo(tokens, 4) == [];
    assert Render(SAMPLE, [], 0, 0) == SAMPLE[0..0] && Render(SAMPLE, [], 0, 4) == SAMPLE[0..4];
  }
}
