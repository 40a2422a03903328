/** The caller's own map behind the recording loop: what a substituted stretch is the value of. */
module NamedValues {
  import opened Options
  import opened KeyLookup
  import opened PlaceholderText

  /** One match of the pattern: its key, normalised, and the names a caller may have given it. */
  datatype Match = Match(start: nat, end: nat, key: string, candidates: seq<string>)

  predicate MatchesInOrder(ms: seq<Match>, lo: nat, hi: nat) {
    if |ms| == 0 then lo <= hi
    else lo <= ms[0].start < ms[0].end <= hi && MatchesInOrder(ms[1..], ms[0].end, hi)
  }

  /** The text an entry is shown as; an entry without a value reads like a key the caller never gave. */
  type Show = Value -> Option<string>

  /** A placeholder stands for the entry its candidates name, if they name one. */
  ghost predicate StandsFor(sanitize: string -> string, data: seq<Entry>, show: Show, candidates: seq<string>,
                            text: Option<string>) {
    if exists i: nat :: Names(sanitize, data, candidates, i)
    then exists i: nat :: Names(sanitize, data, candidates, i) && text == show(data[i].value)
    else text.None?
  }

  lemma UnspelledNamesNothing(sanitize: string -> string, data: seq<Entry>, candidates: seq<string>, i: nat)
    requires NoneSpelled(sanitize, data, candidates, |candidates|)
    ensures !Names(sanitize, data, candidates, i)
  {
    if i < |data| && NamesExactly(data, candidates, i) {
      var c :| 0 <= c < |candidates| && data[i].key == candidates[c] && NoneExact(data, candidates, c);
      assert Spells(sanitize, data, i, sanitize(candidates[c]));
    }
  }

  /** One `_lookup`, and the text of what it returned. */
  method ResolveKey(sanitize: string -> string, data: seq<Entry>, show: Show, candidates: seq<string>)
    returns (text: Option<string>)
    ensures StandsFor(sanitize, data, show, candidates, text)
  {
    var found := Lookup(sanitize, data, candidates);
    if found.None? {
      forall i: nat
        ensures !Names(sanitize, data, candidates, i)
      {
        UnspelledNamesNothing(sanitize, data, candidates, i);
      }
      return None;
    }
    text := show(found.value);
  }

  /** The token carries what its match stands for. */
  ghost predicate Resolves(sanitize: string -> string, data: seq<Entry>, show: Show, m: Match, t: Token) {
    t.start == m.start && t.end == m.end && t.key == m.key && StandsFor(sanitize, data, show, m.candidates, t.value)
  }

  lemma {:induction false} ResolvedInOrder(ms: seq<Match>, ts: seq<Token>, lo: nat, hi: nat)
    requires MatchesInOrder(ms, lo, hi) && |ts| == |ms|
    requires forall i :: 0 <= i < |ms| ==> ts[i].start == ms[i].start && ts[i].end == ms[i].end
    ensures InOrder(ts, lo, hi)
    decreases |ms|
  {
    if |ms| > 0 {
      assert forall i :: 0 <= i < |ms| - 1 ==> ms[1..][i] == ms[i + 1] && ts[1..][i] == ts[i + 1];
      ResolvedInOrder(ms[1..], ts[1..], ms[0].end, hi);
    }
  }

  method ResolveMatches(sanitize: string -> string, data: seq<Entry>, show: Show, ms: seq<Match>)
    returns (ts: seq<Token>)
    ensures |ts| == |ms| && forall i :: 0 <= i < |ms| ==> Resolves(sanitize, data, show, ms[i], ts[i])
  {
    ts := [];
    for i := 0 to |ms|
      invariant |ts| == i && forall j :: 0 <= j < i ==> Resolves(sanitize, data, show, ms[j], ts[j])
    {
      var text := ResolveKey(sanitize, data, show, ms[i].candidates);
      ts := ts + [Token(ms[i].start, ms[i].end, ms[i].key, text)];
    }
  }

  /** The stretch is the value of the one entry that some match of this key names. */
  ghost predicate ShowsEntry(sanitize: string -> string, data: seq<Entry>, show: Show, ms: seq<Match>, span: Span,
                             stretch: string) {
    exists k, i: nat ::
      0 <= k < |ms| && ms[k].key == span.key && Names(sanitize, data, ms[k].candidates, i) &&
        show(data[i].value) == Some(stretch)
  }

  /** `resolve_private_placeholders_with_restorations` on one string: every recorded span selects the value
      of the entry that its placeholder names, and the placeholders left in the text are those that name
      nothing or an entry without a value. */
  method RecordNamedText(sanitize: string -> string, data: seq<Entry>, show: Show, item: string, ms: seq<Match>)
    returns (restored: string, spans: seq<Span>, ghost ts: seq<Token>)
    requires MatchesInOrder(ms, 0, |item|)
    ensures |ts| == |ms| && (forall i :: 0 <= i < |ms| ==> Resolves(sanitize, data, show, ms[i], ts[i]))
    ensures InOrder(ts, 0, |item|) && restored == Substitute(item, ts) && spans == Spans(item, ts)
    ensures forall i :: 0 <= i < |spans| ==>
      && spans[i].start < spans[i].end <= |restored|
      && ShowsEntry(sanitize, data, show, ms, spans[i], restored[spans[i].start..spans[i].end])
  {
    var tokens := ResolveMatches(sanitize, data, show, ms);
    ts := tokens;
    ResolvedInOrder(ms, tokens, 0, |item|);
    restored, spans := RecordTokens(item, tokens);
    SpansShowEntries(sanitize, data, show, ms, item, tokens);
  }

  lemma SpansShowEntries(sanitize: string -> string, data: seq<Entry>, show: Show, ms: seq<Match>, s: string,
                         ts: seq<Token>)
    requires |ts| == |ms| && (forall i :: 0 <= i < |ms| ==> Resolves(sanitize, data, show, ms[i], ts[i]))
    requires InOrder(ts, 0, |s|)
    ensures var spans, text := Spans(s, ts), Substitute(s, ts);
      forall i :: 0 <= i < |spans| ==>
        spans[i].start < spans[i].end <= |text| &&
          ShowsEntry(sanitize, data, show, ms, spans[i], text[spans[i].start..spans[i].end])
  {
    SpansSelectValues(s, ts);
    hide Names, InOrder, Spans, Substitute, Recorded;
    var spans, text := Spans(s, ts), Substitute(s, ts);
    forall i | 0 <= i < |spans|
      ensures ShowsEntry(sanitize, data, show, ms, spans[i], text[spans[i].start..spans[i].end])
    {
      var k :| 0 <= k < |ts| && ts[k] == Recorded(ts)[i];
      assert Resolves(sanitize, data, show, ms[k], ts[k]);
    }
  }
}
