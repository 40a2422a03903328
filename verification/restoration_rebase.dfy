/** Spans that a server substitution left in a text, carried across further local substitutions. */
module RestorationRebase {
  import opened Options
  import opened PlaceholderText

  /** An existing span after the text's own tokens are resolved: the length of the resolved text
      before it, and through it. */
  function Rebased(find: string -> seq<Token>, s: string, span: Span): Span
    requires Finder(find) && span.start <= span.end <= |s|
  {
    var before, through := s[..span.start], s[..span.end];
    assert InOrder(find(before), 0, |before|) && InOrder(find(through), 0, |through|);
    Span(|Substitute(before, find(before))|, |Substitute(through, find(through))|, span.key)
  }

  lemma RebasedLands(find: string -> seq<Token>, s: string, span: Span)
    requires Finder(find) && span.start <= span.end <= |s| && Uncut(find(s), span.start) && Uncut(find(s), span.end)
    ensures InOrder(find(s), 0, |s|)
    ensures Rebased(find, s, span) == Span(Landing(s, find(s), span.start), Landing(s, find(s), span.end), span.key)
  {
    PrefixLands(find, s, span.start);
    PrefixLands(find, s, span.end);
  }

  /** A span that cuts no token selects what its own text resolves to. */
  lemma RebasedSelectsResolvedText(find: string -> seq<Token>, s: string, span: Span)
    requires Finder(find) && span.start <= span.end <= |s| && Uncut(find(s), span.start) && Uncut(find(s), span.end)
    ensures InOrder(find(s), 0, |s|) && InOrder(Between(find(s), span.start, span.end), span.start, span.end)
    ensures var r, text := Rebased(find, s, span), Substitute(s, find(s));
      && r.start <= r.end <= |text|
      && text[r.start..r.end] == Render(s, Between(find(s), span.start, span.end), span.start, span.end)
  {
    RebasedLands(find, s, span);
    StretchLands(s, find(s), span.start, span.end);
  }

  /** A span that neither cuts nor contains a token selects the same text as before. */
  lemma RebasedSelectsSameText(find: string -> seq<Token>, s: string, span: Span)
    requires Finder(find) && span.start < span.end <= |s| && Clear(find(s), span.start, span.end)
    ensures InOrder(find(s), 0, |s|)
    ensures var r, text := Rebased(find, s, span), Substitute(s, find(s));
      && r.start < r.end <= |text| && r.key == span.key
      && text[r.start..r.end] == s[span.start..span.end]
  {
    assert InOrder(find(s), 0, |s|);
    ClearBetween(find(s), 0, |s|, span.start, span.end);
    RebasedSelectsResolvedText(find, s, span);
  }

  predicate Disjoint(a: Span, b: Span) {
    a.end <= b.start || b.end <= a.start
  }

  /** Rebasing keeps spans in order, hence disjoint ones disjoint. */
  lemma RebasedKeepsOrder(find: string -> seq<Token>, s: string, a: Span, b: Span)
    requires Finder(find) && a.start < a.end <= b.start < b.end <= |s|
    requires Clear(find(s), a.start, a.end) && Clear(find(s), b.start, b.end)
    ensures Rebased(find, s, a).end <= Rebased(find, s, b).start
  {
    assert InOrder(find(s), 0, |s|);
    ClearBetween(find(s), 0, |s|, a.start, a.end);
    ClearBetween(find(s), 0, |s|, b.start, b.end);
    RebasedLands(find, s, a);
    RebasedLands(find, s, b);
    LandingMonotone(s, find(s), a.end, b.start);
  }

  /** A rebased span never overlaps a newly recorded one. */
  lemma RebasedAvoidsRecorded(find: string -> seq<Token>, s: string, span: Span, i: nat)
    requires Finder(find) && InOrder(find(s), 0, |s|) && i < |Spans(s, find(s))|
    requires span.start < span.end <= |s| && Clear(find(s), span.start, span.end)
    ensures Disjoint(Rebased(find, s, span), Spans(s, find(s))[i])
  {
    var ts := find(s);
    SpansAreLandings(s, ts);
    RecordedIn(ts, 0, |s|);
    var t := Recorded(ts)[i];
    var k :| 0 <= k < |ts| && ts[k] == t;
    TokenUncut(ts, 0, |s|, k);
    ClearBetween(ts, 0, |s|, span.start, span.end);
    RebasedLands(find, s, span);
    hide Finder, Landing, Rebased, Spans, Recorded, Substitute;
    if t.end <= span.start {
      LandingMonotone(s, ts, t.end, span.start);
    } else {
      LandingMonotone(s, ts, span.end, t.start);
    }
  }

  /** With no value to put in, substitution changes nothing and records nothing. */
  lemma {:induction false} NothingToSubstitute(s: string, ts: seq<Token>, lo: nat, hi: nat, offset: nat)
    requires InOrder(ts, lo, hi) && hi <= |s| && forall i :: 0 <= i < |ts| ==> ts[i].value == None
    ensures Render(s, ts, lo, hi) == s[lo..hi] && SpansFrom(s, ts, lo, hi, offset) == []
    decreases |ts|
  {
    if |ts| > 0 {
      InOrderEnds(ts[1..], ts[0].end, hi);
      NothingToSubstitute(s, ts[1..], ts[0].end, hi, offset + (ts[0].end - lo));
      SpansFromCons(s, ts, lo, hi, offset);
      assert s[lo..hi] == s[lo..ts[0].start] + s[ts[0].start..ts[0].end] + s[ts[0].end..hi];
    }
  }
}
