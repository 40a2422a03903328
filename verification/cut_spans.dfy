/** Spans of a server substitution that cut one of the text's own tokens. */
module CutSpans {
  import opened Options
  import opened PlaceholderText
  import opened RestorationRebase

  /** A pattern whose cut tokens hold no token of their own: any prefix shows exactly the tokens
      that end in it. */
  ghost predicate PrefixFinder(find: string -> seq<Token>) {
    && (forall s :: InOrder(find(s), 0, |s|))
    && (forall s, k: nat :: k <= |s| ==> find(s[..k]) == UpTo(find(s), k))
  }

  lemma PrefixFinderIsFinder(find: string -> seq<Token>)
    requires PrefixFinder(find)
    ensures Finder(find)
  {
  }

  /** Rebasing puts both ends where the text before them lands, cut or not. */
  lemma RebasedLandsAnywhere(find: string -> seq<Token>, s: string, span: Span)
    requires PrefixFinder(find) && span.start <= span.end <= |s|
    ensures Finder(find) && InOrder(find(s), 0, |s|)
    ensures Rebased(find, s, span) == Span(Landing(s, find(s), span.start), Landing(s, find(s), span.end), span.key)
  {
    AnyPrefixLands(find, s, span.start);
    AnyPrefixLands(find, s, span.end);
  }

  lemma AnyPrefixLands(find: string -> seq<Token>, s: string, k: nat)
    requires PrefixFinder(find) && k <= |s|
    ensures InOrder(find(s), 0, |s|) && InOrder(find(s[..k]), 0, k)
    ensures |Substitute(s[..k], find(s[..k]))| == Landing(s, find(s), k)
  {
    var ts := find(s);
    assert InOrder(ts, 0, |s|);
    assert find(s[..k]) == UpTo(ts, k);
    hide PrefixFinder;
    UpToFits(ts, 0, k, |s|);
    RenderOfPrefix(s, UpTo(ts, k), 0, k);
  }

  // ---------------------------------------------------------------- where a cut position lands

  /** The position itself, or the start of the token it cuts. */
  function Snap(ts: seq<Token>, k: nat): nat {
    if |ts| == 0 then k else if ts[0].start < k < ts[0].end then ts[0].start else Snap(ts[1..], k)
  }

  lemma {:induction false} SnapUncut(ts: seq<Token>, lo: nat, hi: nat, k: nat)
    requires InOrder(ts, lo, hi) && lo <= k
    ensures lo <= Snap(ts, k) <= k && Uncut(ts, Snap(ts, k)) && UpTo(ts, Snap(ts, k)) == UpTo(ts, k)
    decreases |ts|
  {
    if |ts| > 0 {
      AllAfter(ts[1..], ts[0].end, hi);
      assert forall i :: 0 < i < |ts| ==> ts[i] == ts[1..][i - 1];
      if ts[0].end <= k {
        SnapUncut(ts[1..], ts[0].end, hi, k);
      } else if k <= ts[0].start {
        SnapBefore(ts[1..], k);
      }
    }
  }

  lemma {:induction false} SnapBefore(ts: seq<Token>, k: nat)
    requires forall i :: 0 <= i < |ts| ==> k <= ts[i].start
    ensures Snap(ts, k) == k
  {
    if |ts| > 0 {
      SnapBefore(ts[1..], k);
    }
  }

  lemma {:induction false} SnapInside(ts: seq<Token>, lo: nat, hi: nat, i: nat, k: nat)
    requires InOrder(ts, lo, hi) && i < |ts| && ts[i].start < k < ts[i].end
    ensures Snap(ts, k) == ts[i].start
    decreases |ts|
  {
    AllAfter(ts[1..], ts[0].end, hi);
    if i > 0 {
      assert ts[i] == ts[1..][i - 1];
      SnapInside(ts[1..], ts[0].end, hi, i - 1, k);
    }
  }

  lemma {:induction false} SnapOfUncut(ts: seq<Token>, k: nat)
    requires Uncut(ts, k)
    ensures Snap(ts, k) == k
  {
    if |ts| > 0 {
      assert forall i :: 0 <= i < |ts[1..]| ==> ts[1..][i] == ts[i + 1];
      SnapOfUncut(ts[1..], k);
    }
  }

  lemma {:induction false} RenderLonger(s: string, ts: seq<Token>, lo: nat, k: nat, m: nat)
    requires InOrder(ts, lo, k) && k <= m <= |s|
    ensures InOrder(ts, lo, m) && Render(s, ts, lo, m) == Render(s, ts, lo, k) + s[k..m]
    decreases |ts|
  {
    if |ts| == 0 {
      assert s[lo..m] == s[lo..k] + s[k..m];
    } else {
      InOrderEnds(ts[1..], ts[0].end, k);
      RenderLonger(s, ts[1..], ts[0].end, k, m);
    }
  }

  /** A position inside a token lands as far behind the token's landing as it is inside the token,
      whatever the token's value. */
  lemma LandingInside(s: string, ts: seq<Token>, k: nat)
    requires InOrder(ts, 0, |s|) && k <= |s|
    ensures Snap(ts, k) <= k && Landing(s, ts, k) == Landing(s, ts, Snap(ts, k)) + (k - Snap(ts, k))
  {
    var at := Snap(ts, k);
    SnapUncut(ts, 0, |s|, k);
    UpToFits(ts, 0, at, |s|);
    RenderLonger(s, UpTo(ts, k), 0, at, k);
  }

  /** The end of a span inside token `i`. */
  lemma CutEndLands(find: string -> seq<Token>, s: string, span: Span, i: nat)
    requires PrefixFinder(find) && span.start <= span.end <= |s| && i < |find(s)|
    requires find(s)[i].start < span.end < find(s)[i].end
    ensures Finder(find) && InOrder(find(s), 0, |s|)
    ensures Rebased(find, s, span).end == Landing(s, find(s), find(s)[i].start) + (span.end - find(s)[i].start)
  {
    RebasedLandsAnywhere(find, s, span);
    SnapInside(find(s), 0, |s|, i, span.end);
    LandingInside(s, find(s), span.end);
  }

  // ---------------------------------------------------------------- when a span keeps its text

  /** The rebased span selects the text the span selected. */
  predicate KeepsText(s: string, ts: seq<Token>, a: nat, b: nat)
    requires InOrder(ts, 0, |s|) && a <= b <= |s|
  {
    var from, to, text := Landing(s, ts, a), Landing(s, ts, b), Substitute(s, ts);
    from <= to <= |text| && text[from..to] == s[a..b]
  }

  /** What the text from an uncut position on resolves to. */
  function ResolvedFrom(s: string, ts: seq<Token>, at: nat): string
    requires InOrder(ts, 0, |s|) && at <= |s| && Uncut(ts, at)
  {
    UpToInOrder(ts, 0, at, |s|);
    Render(s, From(ts, at), at, |s|)
  }

  lemma SplitAt(s: string, ts: seq<Token>, at: nat)
    requires InOrder(ts, 0, |s|) && at <= |s| && Uncut(ts, at)
    ensures |Substitute(s, ts)| == Landing(s, ts, at) + |ResolvedFrom(s, ts, at)|
    ensures Substitute(s, ts)[Landing(s, ts, at)..] == ResolvedFrom(s, ts, at)
  {
    RenderTwice(s, ts, at, at);
  }

  lemma KeepsTextAt(s: string, ts: seq<Token>, a: nat, b: nat)
    requires InOrder(ts, 0, |s|) && a <= b <= |s|
    ensures var from, to, text := Landing(s, ts, a), Landing(s, ts, b), Substitute(s, ts);
      KeepsText(s, ts, a, b) <==> from <= to <= |text| && text[from..to] == s[a..b]
  {
    hide Landing, Substitute, InOrder;
  }

  /** Any span at all, whatever it cuts or contains: it keeps its text exactly when the tokens between
      the starts of what it cuts are as long as their values, and what follows its own start there
      reads as before. */
  lemma KeepsTextIff(s: string, ts: seq<Token>, a: nat, b: nat)
    requires InOrder(ts, 0, |s|) && a <= b <= |s|
    ensures var first, last := Snap(ts, a), Snap(ts, b);
      && first <= a && last <= b && Uncut(ts, first)
      && (KeepsText(s, ts, a, b) <==>
            && Landing(s, ts, last) - Landing(s, ts, first) == last - first
            && b - first <= |ResolvedFrom(s, ts, first)|
            && ResolvedFrom(s, ts, first)[a - first..b - first] == s[a..b])
  {
    hide *;
    var first, last := Snap(ts, a), Snap(ts, b);
    SnapUncut(ts, 0, |s|, a);
    SnapUncut(ts, 0, |s|, b);
    LandingInside(s, ts, a);
    LandingInside(s, ts, b);
    SplitAt(s, ts, first);
    KeepsTextAt(s, ts, a, b);
    TailAgrees(Substitute(s, ts), Landing(s, ts, first), ResolvedFrom(s, ts, first), s, first, a, Landing(s, ts, last),
      last, b);
  }

  /** The text goes on with `tail` from `at`: strings only. */
  lemma TailAgrees(text: string, at: nat, tail: string, s: string, first: nat, a: nat, to: nat, last: nat, b: nat)
    requires first <= a <= b <= |s| && last <= b && |text| == at + |tail| && text[at..] == tail
    ensures var from, end := at + (a - first), to + (b - last);
      from <= end <= |text| && text[from..end] == s[a..b] <==>
        to - at == last - first && b - first <= |tail| && tail[a - first..b - first] == s[a..b]
  {
    var from, end := at + (a - first), to + (b - last);
    if to - at == last - first && b - first <= |tail| {
      SliceOfTail(text, at, a - first, b - first);
    } else if from <= end <= |text| {
      assert |text[from..end]| == end - from;
    }
  }

  lemma SliceOfTail(text: string, at: nat, i: nat, j: nat)
    requires at <= |text| && i <= j <= |text| - at
    ensures text[at..][i..j] == text[at + i..at + j]
  {
  }

  lemma {:induction false} FromToken(ts: seq<Token>, lo: nat, hi: nat, i: nat, at: nat)
    requires InOrder(ts, lo, hi) && i < |ts| && at <= ts[i].start && (i == 0 || ts[i - 1].end <= at)
    ensures From(ts, at) == ts[i..] && InOrder(ts[i + 1..], ts[i].end, hi)
    decreases |ts|
  {
    if i > 0 {
      assert ts[i] == ts[1..][i - 1] && ts[1..][i..] == ts[i + 1..] && ts[1..][i - 1..] == ts[i..];
      AllAfter(ts, lo, hi);
      Ordered(ts, lo, hi, i);
      if i > 1 { assert ts[i - 1] == ts[1..][i - 2]; }
      FromToken(ts[1..], ts[0].end, hi, i - 1, at);
    }
  }

  lemma {:induction false} Ordered(ts: seq<Token>, lo: nat, hi: nat, i: nat)
    requires InOrder(ts, lo, hi) && 0 < i < |ts|
    ensures ts[0].end <= ts[i - 1].end <= ts[i].start
    decreases |ts|
  {
    AllAfter(ts[1..], ts[0].end, hi);
    assert ts[i] == ts[1..][i - 1];
    if i > 1 {
      assert ts[i - 1] == ts[1..][i - 2];
      Ordered(ts[1..], ts[0].end, hi, i - 1);
    }
  }

  /** What follows token `i` once resolved. */
  function Behind(s: string, ts: seq<Token>, i: nat): string
    requires InOrder(ts, 0, |s|) && i < |ts|
  {
    TokenUncut(ts, 0, |s|, i);
    ResolvedFrom(s, ts, ts[i].end)
  }

  lemma BehindToken(s: string, ts: seq<Token>, i: nat, at: nat)
    requires InOrder(ts, 0, |s|) && i < |ts| && at <= ts[i].start && (i == 0 || ts[i - 1].end <= at)
    ensures Uncut(ts, at) && ts[i].start < ts[i].end <= |s|
    ensures ResolvedFrom(s, ts, at) == s[at..ts[i].start] + Replacement(s, ts[i]) + Behind(s, ts, i)
  {
    TokenUncut(ts, 0, |s|, i);
    UncutBefore(ts, 0, |s|, i, at);
    FromToken(ts, 0, |s|, i, at);
    FromEnd(ts, 0, |s|, i);
    UpToInOrder(ts, 0, at, |s|);
    assert ts[i..][1..] == ts[i + 1..];
  }

  lemma {:induction false} UncutBefore(ts: seq<Token>, lo: nat, hi: nat, i: nat, at: nat)
    requires InOrder(ts, lo, hi) && i < |ts| && at <= ts[i].start && (i == 0 || ts[i - 1].end <= at)
    ensures Uncut(ts, at)
    decreases |ts|
  {
    AllAfter(ts[1..], ts[0].end, hi);
    assert forall j :: 0 < j < |ts| ==> ts[j] == ts[1..][j - 1];
    if i > 0 {
      Ordered(ts, lo, hi, i);
      UncutBefore(ts[1..], ts[0].end, hi, i - 1, at);
    }
  }

  lemma {:induction false} FromEnd(ts: seq<Token>, lo: nat, hi: nat, i: nat)
    requires InOrder(ts, lo, hi) && i < |ts|
    ensures From(ts, ts[i].end) == ts[i + 1..]
    decreases |ts|
  {
    if i > 0 {
      assert ts[i] == ts[1..][i - 1] && ts[1..][i..] == ts[i + 1..];
      Ordered(ts, lo, hi, i);
      AllAfter(ts, lo, hi);
      FromEnd(ts[1..], ts[0].end, hi, i - 1);
    } else if |ts| > 1 {
      AllAfter(ts[1..], ts[0].end, hi);
      assert ts[1..][0].end > ts[0].end;
    }
  }

  /** A span whose end cuts the one token it meets keeps its text exactly when the part inside it
      is how the value, and what follows the token, begin; so always when the token has no value. */
  lemma CutEndKeepsTextIff(s: string, ts: seq<Token>, a: nat, b: nat, i: nat)
    requires InOrder(ts, 0, |s|) && i < |ts| && (i == 0 || ts[i - 1].end <= a) && a <= ts[i].start < b < ts[i].end
    ensures b <= ts[i].end <= |s|
    ensures KeepsText(s, ts, a, b) <==> s[ts[i].start..b] <= Replacement(s, ts[i]) + Behind(s, ts, i)
    ensures ts[i].value.None? ==> KeepsText(s, ts, a, b)
  {
    hide *;
    BehindToken(s, ts, i, a);
    SnapOfUncut(ts, a);
    SnapInside(ts, 0, |s|, i, b);
    ClearLanding(s, ts, i, a);
    KeepsTextIff(s, ts, a, b);
    PrefixAgrees(s, a, ts[i].start, b, Replacement(s, ts[i]) + Behind(s, ts, i));
    Associates(s[a..ts[i].start], Replacement(s, ts[i]), Behind(s, ts, i));
    UnresolvedBegins(s, ts[i], b, Behind(s, ts, i));
  }

  lemma UnresolvedBegins(s: string, t: Token, b: nat, behind: string)
    requires t.start <= b <= t.end <= |s|
    ensures t.value.None? ==> s[t.start..b] <= Replacement(s, t) + behind
  {
    assert s[t.start..t.end][..b - t.start] == s[t.start..b];
  }

  lemma PrefixAgrees(s: string, a: nat, m: nat, b: nat, rest: string)
    requires a <= m <= b <= |s|
    ensures b - a <= |s[a..m] + rest| && (s[a..m] + rest)[..b - a] == s[a..b] <==> s[m..b] <= rest
  {
    assert s[a..b] == s[a..m] + s[m..b];
    if b - m <= |rest| {
      assert (s[a..m] + rest)[..b - a] == s[a..m] + rest[..b - m];
      if s[a..m] + rest[..b - m] == s[a..m] + s[m..b] {
        assert rest[..b - m] == (s[a..m] + rest[..b - m])[m - a..] == s[m..b];
      }
    }
  }

  lemma ClearLanding(s: string, ts: seq<Token>, i: nat, a: nat)
    requires InOrder(ts, 0, |s|) && i < |ts| && a <= ts[i].start && (i == 0 || ts[i - 1].end <= a) && Uncut(ts, a)
    ensures ts[i].start <= |s| && Landing(s, ts, ts[i].start) - Landing(s, ts, a) == ts[i].start - a
  {
    TokenUncut(ts, 0, |s|, i);
    Neighbours(ts, 0, |s|, i);
    if a < ts[i].start {
      ClearBetween(ts, 0, |s|, a, ts[i].start);
      StretchLands(s, ts, a, ts[i].start);
    }
  }

  /** A span whose start cuts the one token it meets keeps its text exactly when the value is as long as the
      token and ends as the token does; its ends even change places when the value is too short. */
  lemma CutStartKeepsTextIff(s: string, ts: seq<Token>, a: nat, b: nat, i: nat)
    requires InOrder(ts, 0, |s|) && i < |ts| && ts[i].start < a < ts[i].end <= b <= |s|
    requires i + 1 < |ts| ==> b <= ts[i + 1].start
    ensures KeepsText(s, ts, a, b) <==>
      |Replacement(s, ts[i])| == ts[i].end - ts[i].start && Replacement(s, ts[i])[a - ts[i].start..] == s[a..ts[i].end]
    ensures Landing(s, ts, b) < Landing(s, ts, a) <==> |Replacement(s, ts[i])| + (b - ts[i].end) < a - ts[i].start
  {
    hide *;
    var t := ts[i];
    TokenText(s, ts, i);
    SnapInside(ts, 0, |s|, i, a);
    LandingInside(s, ts, a);
    StretchBehind(s, ts, i, b);
    TokenLength(s, ts, i);
    KeepsTextAt(s, ts, a, b);
    StartAgrees(Substitute(s, ts), Landing(s, ts, t.start), Replacement(s, t), s, t.start, a, t.end, b);
  }

  lemma TokenLength(s: string, ts: seq<Token>, i: nat)
    requires InOrder(ts, 0, |s|) && i < |ts|
    ensures ts[i].start < ts[i].end <= |s|
    ensures Landing(s, ts, ts[i].end) == Landing(s, ts, ts[i].start) + |Replacement(s, ts[i])|
  {
    TokenText(s, ts, i);
    hide Landing, Replacement, Substitute;
    var from, to := Landing(s, ts, ts[i].start), Landing(s, ts, ts[i].end);
    assert |Substitute(s, ts)[from..to]| == to - from;
  }

  /** The text holds the value at `at` and then what followed the token: strings only. */
  lemma StartAgrees(text: string, at: nat, value: string, s: string, start: nat, a: nat, end: nat, b: nat)
    requires start <= a <= end <= b <= |s| && at + |value| + (b - end) <= |text|
    requires text[at..at + |value|] == value && text[at + |value|..at + |value| + (b - end)] == s[end..b]
    ensures var from, to := at + (a - start), at + |value| + (b - end);
      (from <= to && text[from..to] == s[a..b]) <==> |value| == end - start && value[a - start..] == s[a..end]
  {
    var from, to := at + (a - start), at + |value| + (b - end);
    if |value| == end - start {
      assert s[a..b] == s[a..end] + s[end..b];
      assert text[from..to] == text[from..at + |value|] + text[at + |value|..to];
      assert text[from..at + |value|] == text[at..at + |value|][a - start..];
      SameHalves(value[a - start..], s[end..b], s[a..end], s[end..b]);
    } else if from <= to {
      assert |text[from..to]| != |s[a..b]|;
    }
  }

  lemma SameHalves(a: string, b: string, c: string, d: string)
    requires |a| == |c|
    ensures a + b == c + d <==> a == c && b == d
  {
    if a + b == c + d {
      assert a == (a + b)[..|a|] && c == (c + d)[..|a|];
      assert b == (a + b)[|a|..] && d == (c + d)[|a|..];
    }
  }

  lemma StretchBehind(s: string, ts: seq<Token>, i: nat, b: nat)
    requires InOrder(ts, 0, |s|) && i < |ts| && ts[i].end <= b <= |s| && (i + 1 < |ts| ==> b <= ts[i + 1].start)
    ensures Landing(s, ts, b) == Landing(s, ts, ts[i].end) + (b - ts[i].end)
    ensures Landing(s, ts, b) <= |Substitute(s, ts)|
    ensures Substitute(s, ts)[Landing(s, ts, ts[i].end)..Landing(s, ts, b)] == s[ts[i].end..b]
  {
    ClearBehind(ts, 0, |s|, i, b);
    TokenUncut(ts, 0, |s|, i);
    if ts[i].end < b {
      ClearBetween(ts, 0, |s|, ts[i].end, b);
      StretchLands(s, ts, ts[i].end, b);
    } else {
      NothingBetween(ts, b);
      StretchLands(s, ts, b, b);
    }
  }

  lemma {:induction false} ClearBehind(ts: seq<Token>, lo: nat, hi: nat, i: nat, b: nat)
    requires InOrder(ts, lo, hi) && i < |ts| && ts[i].end <= b && (i + 1 < |ts| ==> b <= ts[i + 1].start)
    ensures Clear(ts, ts[i].end, b)
    decreases |ts|
  {
    AllAfter(ts[1..], ts[0].end, hi);
    assert forall j :: 0 < j < |ts| ==> ts[j] == ts[1..][j - 1];
    if i > 0 {
      Ordered(ts, lo, hi, i);
      AllAfter(ts, lo, hi);
      ClearBehind(ts[1..], ts[0].end, hi, i - 1, b);
    } else if |ts| > 1 {
      AllAfter(ts[1..][1..], ts[1].end, hi);
      assert forall j :: 0 < j < |ts[1..]| ==> ts[1..][j] == ts[1..][1..][j - 1];
    }
  }
}
