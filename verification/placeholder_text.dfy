/** Placeholder substitution inside one string, with the spans it records and rebases. */
module PlaceholderText {
  import opened Options

  /** One match of the placeholder pattern, its normalised key, and the caller's own value for that
      key as text; a key this process never supplied has none. */
  datatype Token = Token(start: nat, end: nat, key: string, value: Option<string>)

  /** A substituted stretch of the restored text. */
  datatype Span = Span(start: nat, end: nat, key: string)

  /** Tokens lie in `lo..hi`, from left to right, and none is empty. */
  predicate InOrder(ts: seq<Token>, lo: nat, hi: nat) {
    if |ts| == 0 then lo <= hi
    else lo <= ts[0].start < ts[0].end <= hi && InOrder(ts[1..], ts[0].end, hi)
  }

  /** The position does not fall inside a token. */
  predicate Uncut(ts: seq<Token>, k: nat) {
    forall i :: 0 <= i < |ts| ==> ts[i].end <= k || k <= ts[i].start
  }

  /** The tokens that end by `k`, and the others. */
  function UpTo(ts: seq<Token>, k: nat): seq<Token> {
    if |ts| > 0 && ts[0].end <= k then [ts[0]] + UpTo(ts[1..], k) else []
  }

  function From(ts: seq<Token>, k: nat): seq<Token> {
    if |ts| > 0 && ts[0].end <= k then From(ts[1..], k) else ts
  }

  /** What any token pattern without look-around does: matches come in order, and cutting the text
      where no token is changes nothing before the cut. */
  ghost predicate Finder(find: string -> seq<Token>) {
    && (forall s :: InOrder(find(s), 0, |s|))
    && (forall s, k: nat :: k <= |s| && Uncut(find(s), k) ==> find(s[..k]) == UpTo(find(s), k))
  }

  function Replacement(s: string, t: Token): string
    requires t.start <= t.end <= |s|
  {
    if t.value.None? then s[t.start..t.end] else t.value.value
  }

  /** The stretch `lo..hi` with the given tokens replaced. */
  function Render(s: string, ts: seq<Token>, lo: nat, hi: nat): string
    requires InOrder(ts, lo, hi) && hi <= |s|
    decreases |ts|
  {
    if |ts| == 0 then s[lo..hi]
    else s[lo..ts[0].start] + Replacement(s, ts[0]) + Render(s, ts[1..], ts[0].end, hi)
  }

  /** The simple form: every resolvable token becomes its value. */
  function Substitute(s: string, ts: seq<Token>): string
    requires InOrder(ts, 0, |s|)
  {
    Render(s, ts, 0, |s|)
  }

  /** A token leaves a span when its value is known and not empty. */
  predicate Records(t: Token) {
    t.value.Some? && |t.value.value| > 0
  }

  /** The spans recorded while rendering from `lo`, the text so far being `offset` long. */
  function SpansFrom(s: string, ts: seq<Token>, lo: nat, hi: nat, offset: nat): seq<Span>
    requires InOrder(ts, lo, hi) && hi <= |s|
    decreases |ts|
  {
    if |ts| == 0 then []
    else
      var at := offset + (ts[0].start - lo);
      var after := at + |Replacement(s, ts[0])|;
      (if Records(ts[0]) then [Span(at, after, ts[0].key)] else []) + SpansFrom(s, ts[1..], ts[0].end, hi, after)
  }

  function Spans(s: string, ts: seq<Token>): seq<Span>
    requires InOrder(ts, 0, |s|)
  {
    SpansFrom(s, ts, 0, |s|, 0)
  }

  lemma {:induction false} InOrderEnds(ts: seq<Token>, lo: nat, hi: nat)
    requires InOrder(ts, lo, hi)
    ensures lo <= hi
    decreases |ts|
  {
    if |ts| > 0 {
      InOrderEnds(ts[1..], ts[0].end, hi);
    }
  }

  // ---------------------------------------------------------------- the recording loop

  /** The loop has come to `cursor`: what it has so far and what the rest will add make up the whole. */
  predicate RecordedTo(s: string, ts: seq<Token>, left: seq<Token>, cursor: nat, restored: string, spans: seq<Span>) {
    && InOrder(ts, 0, |s|) && InOrder(left, cursor, |s|)
    && restored + Render(s, left, cursor, |s|) == Substitute(s, ts)
    && spans + SpansFrom(s, left, cursor, |s|, |restored|) == Spans(s, ts)
  }

  lemma RecordedNext(s: string, ts: seq<Token>, left: seq<Token>, cursor: nat, text: string, spans: seq<Span>)
    requires |left| > 0 && RecordedTo(s, ts, left, cursor, text, spans)
    ensures var t := left[0];
      && cursor <= t.start < t.end <= |s|
      && RecordedTo(s, ts, left[1..], t.end, TextAfter(s, t, cursor, text), SpansAfter(s, t, cursor, |text|, spans))
  {
    hide Render, SpansFrom, Substitute, Spans, SpansAfter, TextAfter, InOrder, Replacement;
    TextNext(s, left, cursor, text);
    SpansNext(s, left, cursor, |text|, spans);
  }

  function TextAfter(s: string, t: Token, cursor: nat, text: string): string
    requires cursor <= t.start < t.end <= |s|
  {
    text + s[cursor..t.start] + Replacement(s, t)
  }

  function SpansAfter(s: string, t: Token, cursor: nat, offset: nat, spans: seq<Span>): seq<Span>
    requires cursor <= t.start < t.end <= |s|
  {
    var at := offset + (t.start - cursor);
    if Records(t) then spans + [Span(at, at + |Replacement(s, t)|, t.key)] else spans
  }

  lemma TextNext(s: string, left: seq<Token>, cursor: nat, text: string)
    requires |left| > 0 && InOrder(left, cursor, |s|)
    ensures cursor <= left[0].start < left[0].end <= |s| && InOrder(left[1..], left[0].end, |s|)
    ensures |TextAfter(s, left[0], cursor, text)| == |text| + (left[0].start - cursor) + |Replacement(s, left[0])|
    ensures text + Render(s, left, cursor, |s|) ==
      TextAfter(s, left[0], cursor, text) + Render(s, left[1..], left[0].end, |s|)
  {
    InOrderEnds(left[1..], left[0].end, |s|);
  }

  lemma SpansNext(s: string, left: seq<Token>, cursor: nat, offset: nat, spans: seq<Span>)
    requires |left| > 0 && InOrder(left, cursor, |s|)
    ensures left[0].end <= |s|
    ensures spans + SpansFrom(s, left, cursor, |s|, offset)
      == SpansAfter(s, left[0], cursor, offset, spans) +
        SpansFrom(s, left[1..], left[0].end, |s|, offset + (left[0].start - cursor) + |Replacement(s, left[0])|)
  {
    hide *;
    SpansUnfold(s, left, cursor, offset);
    SpansAppend(s, left[0], cursor, offset, spans);
    var at := offset + (left[0].start - cursor);
    var one, rest := OneSpan(s, left[0], at),
        SpansFrom(s, left[1..], left[0].end, |s|, at + |Replacement(s, left[0])|);
    assert spans + (one + rest) == (spans + one) + rest;
  }

  /** The span of one token, if it leaves one. */
  function OneSpan(s: string, t: Token, at: nat): seq<Span>
    requires t.start <= t.end <= |s|
  {
    if Records(t) then [Span(at, at + |Replacement(s, t)|, t.key)] else []
  }

  lemma SpansUnfold(s: string, left: seq<Token>, cursor: nat, offset: nat)
    requires |left| > 0 && InOrder(left, cursor, |s|)
    ensures var at := offset + (left[0].start - cursor);
      cursor <= left[0].start < left[0].end <= |s| && InOrder(left[1..], left[0].end, |s|) &&
      SpansFrom(s, left, cursor, |s|, offset)
        == OneSpan(s, left[0], at) + SpansFrom(s, left[1..], left[0].end, |s|, at + |Replacement(s, left[0])|)
  {
    InOrderEnds(left[1..], left[0].end, |s|);
    hide Records, Replacement;
  }

  lemma SpansAppend(s: string, t: Token, cursor: nat, offset: nat, spans: seq<Span>)
    requires cursor <= t.start < t.end <= |s|
    ensures SpansAfter(s, t, cursor, offset, spans) == spans + OneSpan(s, t, offset + (t.start - cursor))
  {
    hide Records, Replacement;
    assert spans + [] == spans;
  }

  /** The recording loop over one string. */
  method RecordText(find: string -> seq<Token>, item: string) returns (restored: string, spans: seq<Span>)
    requires Finder(find)
    ensures InOrder(find(item), 0, |item|) && restored == Substitute(item, find(item))
    ensures spans == Spans(item, find(item))
  {
    var tokens := find(item);
    assert InOrder(tokens, 0, |item|);
    restored, spans := RecordTokens(item, tokens);
  }

  method RecordTokens(item: string, tokens: seq<Token>) returns (restored: string, spans: seq<Span>)
    requires InOrder(tokens, 0, |item|)
    ensures restored == Substitute(item, tokens) && spans == Spans(item, tokens)
  {
    var cursor: nat, offset: nat := 0, 0;
    restored, spans := "", [];
    var left := tokens;
    while |left| > 0
      invariant cursor <= |item| && offset == |restored|
      invariant RecordedTo(item, tokens, left, cursor, restored, spans)
    {
      var t := left[0];
      RecordedNext(item, tokens, left, cursor, restored, spans);
      hide RecordedTo;
      ghost var text, found, from := restored, spans, cursor;
      var prefix := item[cursor..t.start];
      restored := restored + prefix;
      offset := offset + |prefix|;
      var replacement := if t.value.None? then item[t.start..t.end] else t.value.value;
      if t.value.Some? && |replacement| > 0 {
        spans := spans + [Span(offset, offset + |replacement|, t.key)];
      }
      assert spans == SpansAfter(item, t, from, |text|, found);
      restored := restored + replacement;
      offset := offset + |replacement|;
      assert restored == TextAfter(item, t, from, text);
      hide SpansAfter, TextAfter, Replacement;
      cursor := t.end;
      left := left[1..];
    }
    restored := restored + item[cursor..];
  }

  // ---------------------------------------------------------------- cutting where no token is

  lemma {:induction false} UpToInOrder(ts: seq<Token>, lo: nat, k: nat, hi: nat)
    requires InOrder(ts, lo, hi) && lo <= k <= hi && Uncut(ts, k)
    ensures InOrder(UpTo(ts, k), lo, k) && InOrder(From(ts, k), k, hi)
    ensures UpTo(ts, k) + From(ts, k) == ts
    decreases |ts|
  {
    if |ts| > 0 && ts[0].end <= k {
      UpToInOrder(ts[1..], ts[0].end, k, hi);
    }
  }

  /** Rendering is additive wherever no token is cut. */
  lemma {:induction false} RenderSplit(s: string, ts: seq<Token>, lo: nat, k: nat, hi: nat)
    requires InOrder(ts, lo, hi) && lo <= k <= hi <= |s| && Uncut(ts, k)
    ensures InOrder(UpTo(ts, k), lo, k) && InOrder(From(ts, k), k, hi)
    ensures Render(s, ts, lo, hi) == Render(s, UpTo(ts, k), lo, k) + Render(s, From(ts, k), k, hi)
    decreases |ts|
  {
    UpToInOrder(ts, lo, k, hi);
    if |ts| == 0 {
      assert s[lo..hi] == s[lo..k] + s[k..hi];
    } else if ts[0].end <= k {
      RenderSplit(s, ts[1..], ts[0].end, k, hi);
      var front := s[lo..ts[0].start] + Replacement(s, ts[0]);
      assert UpTo(ts, k)[0] == ts[0] && UpTo(ts, k)[1..] == UpTo(ts[1..], k);
      Associates(front, Render(s, UpTo(ts[1..], k), ts[0].end, k), Render(s, From(ts, k), k, hi));
    } else {
      assert s[lo..ts[0].start] == s[lo..k] + s[k..ts[0].start];
      var replaced, rest := Replacement(s, ts[0]), Render(s, ts[1..], ts[0].end, hi);
      Associates(s[lo..k], s[k..ts[0].start], replaced);
      Associates(s[lo..k], s[k..ts[0].start] + replaced, rest);
    }
  }

  lemma Associates(a: string, b: string, c: string)
    ensures a + (b + c) == (a + b) + c
  {
  }

  lemma {:induction false} RenderOfPrefix(s: string, ts: seq<Token>, lo: nat, k: nat)
    requires InOrder(ts, lo, k) && k <= |s|
    ensures Render(s[..k], ts, lo, k) == Render(s, ts, lo, k)
    decreases |ts|
  {
    if |ts| == 0 {
      assert s[..k][lo..k] == s[lo..k];
    } else {
      InOrderEnds(ts[1..], ts[0].end, k);
      assert s[..k][lo..ts[0].start] == s[lo..ts[0].start] &&
        s[..k][ts[0].start..ts[0].end] == s[ts[0].start..ts[0].end];
      RenderOfPrefix(s, ts[1..], ts[0].end, k);
    }
  }

  // ---------------------------------------------------------------- where a position lands

  /** How long the substituted text is when it comes to position `k`. */
  function Landing(s: string, ts: seq<Token>, k: nat): nat
    requires InOrder(ts, 0, |s|) && k <= |s|
  {
    UpToFits(ts, 0, k, |s|);
    |Render(s, UpTo(ts, k), 0, k)|
  }

  lemma {:induction false} UpToFits(ts: seq<Token>, lo: nat, k: nat, hi: nat)
    requires InOrder(ts, lo, hi) && lo <= k
    ensures InOrder(UpTo(ts, k), lo, k)
    decreases |ts|
  {
    if |ts| > 0 && ts[0].end <= k {
      UpToFits(ts[1..], ts[0].end, k, hi);
    }
  }

  /** The stretch between two positions that cut no token, rendered on its own. */
  function Between(ts: seq<Token>, a: nat, b: nat): seq<Token> {
    UpTo(From(ts, a), b)
  }

  /** Up to `b` is up to `a`, then what lies between. */
  lemma RenderTwice(s: string, ts: seq<Token>, a: nat, b: nat)
    requires InOrder(ts, 0, |s|) && a <= b <= |s| && Uncut(ts, a) && Uncut(ts, b)
    ensures InOrder(UpTo(ts, a), 0, a) && InOrder(UpTo(ts, b), 0, b) && InOrder(From(ts, b), b, |s|)
    ensures InOrder(Between(ts, a, b), a, b)
    ensures Render(s, UpTo(ts, b), 0, b) == Render(s, UpTo(ts, a), 0, a) + Render(s, Between(ts, a, b), a, b)
    ensures Substitute(s, ts) == Render(s, UpTo(ts, b), 0, b) + Render(s, From(ts, b), b, |s|)
  {
    UpToInOrder(ts, 0, b, |s|);
    RenderSplit(s, ts, 0, b, |s|);
    UpToInOrder(ts, 0, a, |s|);
    UpToUncut(ts, b, a);
    RenderSplit(s, UpTo(ts, b), 0, a, b);
    UpToUpTo(ts, a, b);
  }

  lemma {:induction false} UpToUncut(ts: seq<Token>, b: nat, a: nat)
    requires Uncut(ts, a)
    ensures Uncut(UpTo(ts, b), a)
  {
    if |ts| > 0 && ts[0].end <= b {
      assert forall i :: 0 <= i < |ts[1..]| ==> ts[1..][i] == ts[i + 1];
      UpToUncut(ts[1..], b, a);
    }
  }

  lemma {:induction false} UpToUpTo(ts: seq<Token>, a: nat, b: nat)
    requires a <= b
    ensures UpTo(UpTo(ts, b), a) == UpTo(ts, a) && From(UpTo(ts, b), a) == Between(ts, a, b)
  {
    if |ts| > 0 && ts[0].end <= a {
      assert UpTo(ts, b)[1..] == UpTo(ts[1..], b);
      UpToUpTo(ts[1..], a, b);
    }
  }

  /** What the code computes for a position, substituting the text before it, is where that
      position lands in the substituted whole. */
  lemma PrefixLands(find: string -> seq<Token>, s: string, k: nat)
    requires Finder(find) && k <= |s| && Uncut(find(s), k)
    ensures InOrder(find(s), 0, |s|) && InOrder(find(s[..k]), 0, k)
    ensures |Substitute(s[..k], find(s[..k]))| == Landing(s, find(s), k)
    ensures Substitute(s[..k], find(s[..k])) <= Substitute(s, find(s))
  {
    var ts := find(s);
    assert InOrder(ts, 0, |s|);
    assert find(s[..k]) == UpTo(ts, k);
    hide Finder;
    RenderTwice(s, ts, k, k);
    RenderOfPrefix(s, UpTo(ts, k), 0, k);
  }

  /** Positions keep their order. */
  lemma LandingMonotone(s: string, ts: seq<Token>, a: nat, b: nat)
    requires InOrder(ts, 0, |s|) && a <= b <= |s| && Uncut(ts, a) && Uncut(ts, b)
    ensures Landing(s, ts, a) <= Landing(s, ts, b) <= |Substitute(s, ts)|
  {
    RenderTwice(s, ts, a, b);
  }

  /** Between two landings stands exactly the stretch between the positions, rendered. */
  lemma StretchLands(s: string, ts: seq<Token>, a: nat, b: nat)
    requires InOrder(ts, 0, |s|) && a <= b <= |s| && Uncut(ts, a) && Uncut(ts, b)
    ensures InOrder(Between(ts, a, b), a, b)
    ensures Landing(s, ts, a) <= Landing(s, ts, b) <= |Substitute(s, ts)|
    ensures Substitute(s, ts)[Landing(s, ts, a)..Landing(s, ts, b)] == Render(s, Between(ts, a, b), a, b)
  {
    RenderTwice(s, ts, a, b);
    SliceOfConcat(Render(s, UpTo(ts, a), 0, a), Render(s, Between(ts, a, b), a, b), Render(s, From(ts, b), b, |s|));
  }

  lemma SliceOfConcat(a: string, b: string, c: string)
    ensures (a + b + c)[|a|..|a + b|] == b
  {
  }

  /** No token begins or ends inside the stretch. */
  predicate Clear(ts: seq<Token>, a: nat, b: nat) {
    forall i :: 0 <= i < |ts| ==> ts[i].end <= a || b <= ts[i].start
  }

  lemma {:induction false} ClearBetween(ts: seq<Token>, lo: nat, hi: nat, a: nat, b: nat)
    requires Clear(ts, a, b) && a < b && InOrder(ts, lo, hi)
    ensures |Between(ts, a, b)| == 0 && Uncut(ts, a) && Uncut(ts, b)
    decreases |ts|
  {
    if |ts| > 0 {
      assert forall i :: 0 <= i < |ts[1..]| ==> ts[1..][i] == ts[i + 1];
      ClearBetween(ts[1..], ts[0].end, hi, a, b);
    }
  }

  // ---------------------------------------------------------------- what is recorded

  /** The tokens that leave a span, and the spans they should leave. */
  function Recorded(ts: seq<Token>): seq<Token> {
    if |ts| == 0 then []
    else (if Records(ts[0]) then [ts[0]] else []) + Recorded(ts[1..])
  }

  lemma {:induction false} TokenUncut(ts: seq<Token>, lo: nat, hi: nat, i: nat)
    requires InOrder(ts, lo, hi) && i < |ts|
    ensures lo <= ts[i].start < ts[i].end <= hi && Uncut(ts, ts[i].start) && Uncut(ts, ts[i].end)
    ensures Between(ts, ts[i].start, ts[i].end) == [ts[i]]
    decreases |ts|
  {
    InOrderEnds(ts[1..], ts[0].end, hi);
    if i > 0 {
      assert ts[1..][i - 1] == ts[i];
      TokenUncut(ts[1..], ts[0].end, hi, i - 1);
      assert forall j :: 0 < j < |ts| ==> ts[j] == ts[1..][j - 1];
    } else {
      AllAfter(ts[1..], ts[0].end, hi);
      assert forall j :: 0 < j < |ts| ==> ts[j] == ts[1..][j - 1];
      assert |ts| > 1 ==> ts[1..][0].end > ts[0].end;
      assert |UpTo(ts[1..], ts[0].end)| == 0;
    }
  }

  lemma {:induction false} AllAfter(ts: seq<Token>, lo: nat, hi: nat)
    requires InOrder(ts, lo, hi)
    ensures forall i :: 0 <= i < |ts| ==> lo <= ts[i].start < ts[i].end <= hi
    decreases |ts|
  {
    if |ts| > 0 {
      InOrderEnds(ts[1..], ts[0].end, hi);
      AllAfter(ts[1..], ts[0].end, hi);
      assert forall j :: 0 < j < |ts| ==> ts[j] == ts[1..][j - 1];
    }
  }

  /** The spans that tokens should leave: from where each begins to where it ends. */
  function Landed(s: string, ts: seq<Token>, recorded: seq<Token>): seq<Span>
    requires InOrder(ts, 0, |s|) && forall i :: 0 <= i < |recorded| ==> recorded[i].start <= recorded[i].end <= |s|
  {
    seq(|recorded|, i requires 0 <= i < |recorded| =>
      Span(Landing(s, ts, recorded[i].start), Landing(s, ts, recorded[i].end), recorded[i].key))
  }

  /** From one token to the next the text is copied; at a token it is replaced. */
  lemma TokenLands(s: string, ts: seq<Token>, i: nat)
    requires InOrder(ts, 0, |s|) && i < |ts|
    ensures var t, lo := ts[i], if i == 0 then 0 else ts[i - 1].end;
      && lo <= t.start < t.end <= |s| && Uncut(ts, lo) && Uncut(ts, t.start) && Uncut(ts, t.end)
      && Landing(s, ts, lo) <= Landing(s, ts, t.start) == Landing(s, ts, lo) + (t.start - lo)
      && Landing(s, ts, t.end) == Landing(s, ts, t.start) + |Replacement(s, t)|
      && Landing(s, ts, t.end) <= |Substitute(s, ts)|
  {
    var t, lo := ts[i], if i == 0 then 0 else ts[i - 1].end;
    Neighbours(ts, 0, |s|, i);
    TokenUncut(ts, 0, |s|, i);
    if lo < t.start {
      ClearBetween(ts, 0, |s|, lo, t.start);
      StretchLands(s, ts, lo, t.start);
    }
    StretchLands(s, ts, t.start, t.end);
    OneToken(s, t);
    hide Landing, Substitute;
  }

  lemma TokenText(s: string, ts: seq<Token>, i: nat)
    requires InOrder(ts, 0, |s|) && i < |ts|
    ensures var t, lo, text := ts[i], if i == 0 then 0 else ts[i - 1].end, Substitute(s, ts);
      && lo <= t.start < t.end <= |s|
      && Landing(s, ts, lo) <= Landing(s, ts, t.start) <= Landing(s, ts, t.end) <= |text|
      && text[Landing(s, ts, lo)..Landing(s, ts, t.start)] == s[lo..t.start]
      && text[Landing(s, ts, t.start)..Landing(s, ts, t.end)] == Replacement(s, t)
  {
    var t, lo := ts[i], if i == 0 then 0 else ts[i - 1].end;
    TokenLands(s, ts, i);
    Neighbours(ts, 0, |s|, i);
    TokenUncut(ts, 0, |s|, i);
    if lo < t.start {
      ClearBetween(ts, 0, |s|, lo, t.start);
      StretchLands(s, ts, lo, t.start);
    }
    StretchLands(s, ts, t.start, t.end);
    OneToken(s, t);
    hide Landing, Substitute;
  }

  lemma OneToken(s: string, t: Token)
    requires t.start < t.end <= |s|
    ensures InOrder([t], t.start, t.end) && Render(s, [t], t.start, t.end) == Replacement(s, t)
  {
    assert [t][1..] == [];
  }

  lemma {:induction false} Neighbours(ts: seq<Token>, lo: nat, hi: nat, i: nat)
    requires InOrder(ts, lo, hi) && i < |ts|
    ensures var from := if i == 0 then lo else ts[i - 1].end;
      from <= ts[i].start && Clear(ts, from, ts[i].start)
    decreases |ts|
  {
    AllAfter(ts, lo, hi);
    AllAfter(ts[1..], ts[0].end, hi);
    assert forall j :: 0 < j < |ts| ==> ts[j] == ts[1..][j - 1];
    if i > 0 {
      Neighbours(ts[1..], ts[0].end, hi, i - 1);
    }
  }

  lemma {:induction false} RecordedIn(ts: seq<Token>, lo: nat, hi: nat)
    requires InOrder(ts, lo, hi)
    ensures forall i ::
      0 <= i < |Recorded(ts)| ==>
      lo <= Recorded(ts)[i].start < Recorded(ts)[i].end <= hi && Records(Recorded(ts)[i]) && Recorded(ts)[i] in ts
    decreases |ts|
  {
    if |ts| > 0 {
      RecordedIn(ts[1..], ts[0].end, hi);
      InOrderEnds(ts[1..], ts[0].end, hi);
    }
  }

  lemma LandedCons(s: string, ts: seq<Token>, left: seq<Token>)
    requires InOrder(ts, 0, |s|) && |left| > 0
    requires forall i :: 0 <= i < |Recorded(left)| ==> Recorded(left)[i].start <= Recorded(left)[i].end <= |s|
    requires forall i ::
      0 <= i < |Recorded(left[1..])| ==> Recorded(left[1..])[i].start <= Recorded(left[1..])[i].end <= |s|
    ensures var t, all, rest := left[0], Landed(s, ts, Recorded(left)), Landed(s, ts, Recorded(left[1..]));
      if Records(t)
      then t.start <= t.end <= |s| && |all| > 0 &&
        all[0] == Span(Landing(s, ts, t.start), Landing(s, ts, t.end), t.key) && all[1..] == rest
      else all == rest
  {
    if Records(left[0]) {
      assert Recorded(left)[0] == left[0] && Recorded(left)[1..] == Recorded(left[1..]);
    } else {
      assert Recorded(left) == Recorded(left[1..]);
    }
    hide Recorded, Records, Landing;
  }

  lemma {:induction false} SpansLandFrom(s: string, ts: seq<Token>, n: nat, lo: nat)
    requires InOrder(ts, 0, |s|) && n <= |ts| && lo == (if n == 0 then 0 else ts[n - 1].end)
    requires InOrder(ts[n..], lo, |s|)
    ensures forall i :: 0 <= i < |Recorded(ts[n..])| ==> Recorded(ts[n..])[i].start <= Recorded(ts[n..])[i].end <= |s|
    ensures SpansFrom(s, ts[n..], lo, |s|, Landing(s, ts, lo)) == Landed(s, ts, Recorded(ts[n..]))
    decreases |ts| - n
  {
    RecordedIn(ts[n..], lo, |s|);
    if n == |ts| {
      assert ts[n..] == [];
    } else {
      hide SpansFrom, Landing, Landed, Records;
      assert ts[n..][0] == ts[n] && ts[n..][1..] == ts[n + 1..];
      TokenLands(s, ts, n);
      SpansLandFrom(s, ts, n + 1, ts[n].end);
      SpansFromCons(s, ts[n..], lo, |s|, Landing(s, ts, lo));
      LandedCons(s, ts, ts[n..]);
      hide *;
      if Records(ts[n]) {
        SameHeadAndTail(SpansFrom(s, ts[n..], lo, |s|, Landing(s, ts, lo)), Landed(s, ts, Recorded(ts[n..])));
      }
    }
  }

  lemma SameHeadAndTail<T>(a: seq<T>, b: seq<T>)
    requires |a| > 0 && |b| > 0 && a[0] == b[0] && a[1..] == b[1..]
    ensures a == b
  {
    assert a == [a[0]] + a[1..] && b == [b[0]] + b[1..];
  }

  /** Exact provenance: the recorded spans are, in order, one for each token with a non-empty value,
      from where the token's beginning lands to where its end lands. */
  lemma SpansAreLandings(s: string, ts: seq<Token>)
    requires InOrder(ts, 0, |s|)
    ensures forall i :: 0 <= i < |Recorded(ts)| ==> Recorded(ts)[i].start <= Recorded(ts)[i].end <= |s|
    ensures Spans(s, ts) == Landed(s, ts, Recorded(ts))
  {
    assert ts[0..] == ts;
    assert Landing(s, ts, 0) == 0 by {
      if |ts| > 0 { AllAfter(ts, 0, |s|); }
    }
    SpansLandFrom(s, ts, 0, 0);
  }

  /** Spans run from left to right, none empty, none overlapping another. */
  predicate Apart(spans: seq<Span>, from: nat) {
    |spans| == 0 || (from <= spans[0].start < spans[0].end && Apart(spans[1..], spans[0].end))
  }

  lemma {:induction false} ApartPairs(spans: seq<Span>, from: nat)
    requires Apart(spans, from)
    ensures forall i :: 0 <= i < |spans| ==> from <= spans[i].start < spans[i].end
    ensures forall i, j :: 0 <= i < j < |spans| ==> spans[i].end <= spans[j].start
  {
    if |spans| > 0 {
      ApartPairs(spans[1..], spans[0].end);
      assert forall i :: 0 < i < |spans| ==> spans[i] == spans[1..][i - 1];
    }
  }

  lemma {:induction false} SpansFromApart(s: string, ts: seq<Token>, lo: nat, hi: nat, offset: nat)
    requires InOrder(ts, lo, hi) && hi <= |s|
    ensures Apart(SpansFrom(s, ts, lo, hi, offset), offset)
    decreases |ts|
  {
    if |ts| > 0 {
      InOrderEnds(ts[1..], ts[0].end, hi);
      var after := offset + (ts[0].start - lo) + |Replacement(s, ts[0])|;
      SpansFromApart(s, ts[1..], ts[0].end, hi, after);
      SpansFromCons(s, ts, lo, hi, offset);
    }
  }

  lemma SpansFromCons(s: string, ts: seq<Token>, lo: nat, hi: nat, offset: nat)
    requires InOrder(ts, lo, hi) && hi <= |s| && |ts| > 0
    ensures var at := offset + (ts[0].start - lo);
      var after := at + |Replacement(s, ts[0])|;
      var spans, rest := SpansFrom(s, ts, lo, hi, offset), SpansFrom(s, ts[1..], ts[0].end, hi, after);
      if Records(ts[0]) then at < after && |spans| > 0 && spans[0] == Span(at, after, ts[0].key) && spans[1..] == rest
        else spans == rest
  {
  }

  /** Every span selects exactly the value substituted for its key, and spans keep left to right apart. */
  lemma SpansSelectValues(s: string, ts: seq<Token>)
    requires InOrder(ts, 0, |s|)
    ensures var spans, tokens, text := Spans(s, ts), Recorded(ts), Substitute(s, ts);
      && |spans| == |tokens|
      && (forall i :: 0 <= i < |spans| ==>
            && spans[i].start < spans[i].end <= |text|
            && spans[i].key == tokens[i].key
            && tokens[i] in ts && tokens[i].value == Some(text[spans[i].start..spans[i].end]))
      && (forall i, j :: 0 <= i < j < |spans| ==> spans[i].end <= spans[j].start)
  {
    SpansAreLandings(s, ts);
    SpansFromApart(s, ts, 0, |s|, 0);
    ApartPairs(Spans(s, ts), 0);
    RecordedIn(ts, 0, |s|);
    hide SpansFrom, Spans, Render, Substitute, Recorded;
    forall i | 0 <= i < |Recorded(ts)|
      ensures var span, text := Landed(s, ts, Recorded(ts))[i], Substitute(s, ts);
        span.start <= span.end <= |text| && Recorded(ts)[i].value == Some(text[span.start..span.end])
    {
      var k :| 0 <= k < |ts| && ts[k] == Recorded(ts)[i];
      TokenText(s, ts, k);
      hide InOrder, Landing;
    }
  }

  /** The text outside the given stretches, from `lo` on. */
  function Outside(text: string, cuts: seq<Span>, lo: nat): string {
    if lo > |text| then ""
    else if |cuts| == 0 || cuts[0].start < lo || cuts[0].start > |text| then text[lo..]
    else text[lo..cuts[0].start] + Outside(text, cuts[1..], cuts[0].end)
  }

  /** The tokens that were replaced, as stretches of the source. */
  function Resolved(ts: seq<Token>): seq<Span> {
    if |ts| == 0 then []
    else (if ts[0].value.Some? then [Span(ts[0].start, ts[0].end, ts[0].key)] else []) + Resolved(ts[1..])
  }

  lemma {:induction false} ResolvedAfter(ts: seq<Token>, lo: nat, hi: nat)
    requires InOrder(ts, lo, hi)
    ensures |Resolved(ts)| > 0 ==> lo <= Resolved(ts)[0].start < Resolved(ts)[0].end <= hi
    decreases |ts|
  {
    if |ts| > 0 {
      InOrderEnds(ts[1..], ts[0].end, hi);
      ResolvedAfter(ts[1..], ts[0].end, hi);
    }
  }

  lemma OutsideLonger(text: string, cuts: seq<Span>, a: nat, b: nat)
    requires a <= b <= |text| && (|cuts| > 0 ==> b <= cuts[0].start <= |text|)
    ensures Outside(text, cuts, a) == text[a..b] + Outside(text, cuts, b)
  {
    if |cuts| == 0 {
      assert text[a..] == text[a..b] + text[b..];
    } else {
      var c, rest := cuts[0].start, Outside(text, cuts[1..], cuts[0].end);
      assert Outside(text, cuts, a) == text[a..c] + rest && Outside(text, cuts, b) == text[b..c] + rest;
      hide Outside;
      assert text[a..c] == text[a..b] + text[b..c];
      Associates(text[a..b], text[b..c], rest);
    }
  }

  /** A token without a value is copied like the text before it. */
  lemma OutsideCopied(s: string, text: string, lo: nat, to: nat, at: nat, end: nat, rest: seq<Span>, left: seq<Span>)
    requires lo <= to <= |s| && at <= end <= |text| && text[at..end] == s[lo..to]
    requires |rest| > 0 ==> to <= rest[0].start <= |s|
    requires |left| > 0 ==> end <= left[0].start <= |text|
    requires Outside(text, left, end) == Outside(s, rest, to)
    ensures Outside(text, left, at) == Outside(s, rest, lo)
  {
    OutsideLonger(text, left, at, end);
    OutsideLonger(s, rest, lo, to);
  }

  /** A token with a value is cut out on both sides, or on one side when the value is empty. */
  lemma OutsideReplaced(s: string, text: string, t: Token, lo: nat, at: nat, start: nat, end: nat,
                        resolved: seq<Span>, spans: seq<Span>, left: seq<Span>)
    requires lo <= t.start < t.end <= |s| && at <= start <= end <= |text| && text[at..start] == s[lo..t.start]
    requires |resolved| > 0 && resolved[0] == Span(t.start, t.end, t.key)
    requires |left| > 0 ==> end <= left[0].start <= |text|
    requires if start < end then |spans| > 0 && spans[0] == Span(start, end, t.key) && spans[1..] == left
      else spans == left
    requires Outside(text, left, end) == Outside(s, resolved[1..], t.end)
    ensures Outside(text, spans, at) == Outside(s, resolved, lo)
  {
    OutsideCut(s, resolved, lo);
    if start < end {
      OutsideCut(text, spans, at);
    } else {
      OutsideLonger(text, left, at, start);
    }
    hide Outside;
  }

  lemma OutsideCut(text: string, cuts: seq<Span>, lo: nat)
    requires |cuts| > 0 && lo <= cuts[0].start <= |text|
    ensures Outside(text, cuts, lo) == text[lo..cuts[0].start] + Outside(text, cuts[1..], cuts[0].end)
  {
  }

  lemma ResolvedCons(ts: seq<Token>)
    requires |ts| > 0
    ensures if ts[0].value.Some? then
      Resolved(ts)[0] == Span(ts[0].start, ts[0].end, ts[0].key) && Resolved(ts)[1..] == Resolved(ts[1..])
      else Resolved(ts) == Resolved(ts[1..])
  {
  }

  lemma {:induction false} OutsideFrom(s: string, ts: seq<Token>, n: nat, lo: nat)
    requires InOrder(ts, 0, |s|) && n <= |ts| && lo == (if n == 0 then 0 else ts[n - 1].end)
    requires InOrder(ts[n..], lo, |s|) && lo <= |s|
    ensures Outside(Substitute(s, ts), SpansFrom(s, ts[n..], lo, |s|, Landing(s, ts, lo)), Landing(s, ts, lo))
         == Outside(s, Resolved(ts[n..]), lo)
    decreases |ts| - n
  {
    if n == |ts| {
      LastStretch(s, ts, lo);
    } else {
      var t := ts[n];
      assert ts[n..][0] == t && ts[n..][1..] == ts[n + 1..];
      InOrderEnds(ts[n + 1..], t.end, |s|);
      OutsideFrom(s, ts, n + 1, t.end);
      TokenLands(s, ts, n);
      TokenText(s, ts, n);
      SpansWithin(s, ts, n + 1, t.end);
      hide Landing, Substitute, Outside, Resolved, SpansFrom;
      OutsideStep(s, Substitute(s, ts), ts[n..], lo, Landing(s, ts, lo), Landing(s, ts, t.start),
        Landing(s, ts, t.end));
    }
  }

  lemma OutsideStep(s: string, text: string, left: seq<Token>, lo: nat, at: nat, start: nat, end: nat)
    requires |left| > 0 && InOrder(left, lo, |s|) && left[0].end <= |s|
    requires var t := left[0];
      && at <= start <= end <= |text| && start == at + (t.start - lo) && end == start + |Replacement(s, t)|
      && text[at..start] == s[lo..t.start] && text[start..end] == Replacement(s, t)
    requires var rest := SpansFrom(s, left[1..], left[0].end, |s|, end);
      && (|rest| > 0 ==> end <= rest[0].start <= |text|)
      && Outside(text, rest, end) == Outside(s, Resolved(left[1..]), left[0].end)
    ensures Outside(text, SpansFrom(s, left, lo, |s|, at), at) == Outside(s, Resolved(left), lo)
  {
    var t := left[0];
    SpansFromCons(s, left, lo, |s|, at);
    ResolvedCons(left);
    ResolvedAfter(left[1..], t.end, |s|);
    var spans, rest := SpansFrom(s, left, lo, |s|, at), SpansFrom(s, left[1..], t.end, |s|, end);
    hide Outside, Resolved, SpansFrom, InOrder;
    if t.value.None? {
      SliceJoin(text, at, start, end);
      SliceJoin(s, lo, t.start, t.end);
      OutsideCopied(s, text, lo, t.end, at, end, Resolved(left[1..]), rest);
    } else {
      OutsideReplaced(s, text, t, lo, at, start, end, Resolved(left), spans, rest);
    }
  }

  lemma SliceJoin(s: string, a: nat, b: nat, c: nat)
    requires a <= b <= c <= |s|
    ensures s[a..c] == s[a..b] + s[b..c]
  {
  }

  lemma LastStretch(s: string, ts: seq<Token>, lo: nat)
    requires InOrder(ts, 0, |s|) && lo == (if |ts| == 0 then 0 else ts[|ts| - 1].end)
    ensures lo <= |s| && Landing(s, ts, lo) <= |Substitute(s, ts)|
    ensures Substitute(s, ts)[Landing(s, ts, lo)..] == s[lo..]
  {
    AllAfter(ts, 0, |s|);
    LastClear(ts, 0, |s|);
    if lo < |s| {
      ClearBetween(ts, 0, |s|, lo, |s|);
    } else {
      NothingBetween(ts, lo);
    }
    WholeLands(s, ts);
    StretchLands(s, ts, lo, |s|);
    hide Landing, Substitute, From, UpTo;
  }

  lemma {:induction false} NothingBetween(ts: seq<Token>, a: nat)
    ensures |Between(ts, a, a)| == 0
  {
    if |ts| > 0 && ts[0].end <= a {
      NothingBetween(ts[1..], a);
    }
  }

  lemma {:induction false} LastClear(ts: seq<Token>, lo: nat, hi: nat)
    requires InOrder(ts, lo, hi)
    ensures var last := if |ts| == 0 then lo else ts[|ts| - 1].end;
      last <= hi && Clear(ts, last, hi) && Uncut(ts, hi) && Uncut(ts, last)
    decreases |ts|
  {
    if |ts| > 0 {
      assert forall j :: 0 < j < |ts| ==> ts[j] == ts[1..][j - 1];
      AllAfter(ts, lo, hi);
      LastClear(ts[1..], ts[0].end, hi);
    }
  }

  lemma {:induction false} UpToAll(ts: seq<Token>, lo: nat, hi: nat)
    requires InOrder(ts, lo, hi)
    ensures UpTo(ts, hi) == ts
    decreases |ts|
  {
    if |ts| > 0 {
      InOrderEnds(ts[1..], ts[0].end, hi);
      UpToAll(ts[1..], ts[0].end, hi);
    }
  }

  lemma WholeLands(s: string, ts: seq<Token>)
    requires InOrder(ts, 0, |s|)
    ensures Landing(s, ts, |s|) == |Substitute(s, ts)|
  {
    UpToAll(ts, 0, |s|);
  }

  /** The next span begins inside the text and not before the rest of it. */
  lemma SpansWithin(s: string, ts: seq<Token>, n: nat, lo: nat)
    requires InOrder(ts, 0, |s|) && 0 < n <= |ts| && lo == ts[n - 1].end
    requires InOrder(ts[n..], lo, |s|)
    ensures var spans := SpansFrom(s, ts[n..], lo, |s|, Landing(s, ts, lo));
      |spans| > 0 ==> Landing(s, ts, lo) <= spans[0].start <= |Substitute(s, ts)|
  {
    SpansFromApart(s, ts[n..], lo, |s|, Landing(s, ts, lo));
    SpansLandFrom(s, ts, n, lo);
    RecordedIn(ts[n..], lo, |s|);
    if |Recorded(ts[n..])| > 0 {
      var t := Recorded(ts[n..])[0];
      var k :| 0 <= k < |ts[n..]| && ts[n..][k] == t;
      assert ts[n + k] == t;
      TokenLands(s, ts, n + k);
    }
  }

  /** All text outside the spans is the source's own text outside the resolved tokens. */
  lemma OutsideUnchanged(s: string, ts: seq<Token>)
    requires InOrder(ts, 0, |s|)
    ensures Outside(Substitute(s, ts), Spans(s, ts), 0) == Outside(s, Resolved(ts), 0)
  {
    assert ts[0..] == ts;
    assert Landing(s, ts, 0) == 0 by {
      if |ts| > 0 { AllAfter(ts, 0, |s|); }
    }
    OutsideFrom(s, ts, 0, 0);
  }
}
