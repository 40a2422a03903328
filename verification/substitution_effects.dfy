/** What a substitution does to a text and to a tree, piece by piece. */
module SubstitutionEffects {
  import opened Options
  import opened JsonPointer
  import opened PlaceholderText
  import opened PrivateRestorations

  // ---------------------------------------------------------------- one text

  /** Where the text from one token to the next begins. */
  function GapStart(ts: seq<Token>, i: nat): nat
    requires i <= |ts|
  {
    if i == 0 then 0 else ts[i - 1].end
  }

  /** Token `i` has become `text[b[i]..e[i]]`: its value, or itself where it has none. What lies between tokens, before
      the first and behind the last, has been copied. */
  ghost predicate Pieced(s: string, ts: seq<Token>, text: string, b: seq<nat>, e: seq<nat>) {
    && |b| == |ts| && |e| == |ts|
    && (forall i :: 0 <= i < |ts| ==> PieceAt(s, ts, text, b, e, i))
    && (var from, at := GapStart(ts, |ts|), if |ts| == 0 then 0 else e[|ts| - 1];
        from <= |s| && at <= |text| && text[at..] == s[from..])
  }

  predicate PieceAt(s: string, ts: seq<Token>, text: string, b: seq<nat>, e: seq<nat>, i: nat)
    requires i < |ts| == |b| == |e|
  {
    var from, at := GapStart(ts, i), if i == 0 then 0 else e[i - 1];
    && from <= ts[i].start <= ts[i].end <= |s| && at <= b[i] <= e[i] <= |text|
    && text[at..b[i]] == s[from..ts[i].start]
    && text[b[i]..e[i]] == if ts[i].value.Some? then ts[i].value.value else s[ts[i].start..ts[i].end]
  }

  predicate HasText(t: Token) {
    match t.value
    case None => false
    case Some(value) => value != ""
  }

  /** The tokens that leave a span: those with a value, unless it is empty. */
  ghost predicate WithText(ts: seq<Token>, at: seq<nat>) {
    && (forall k, l :: 0 <= k < l < |at| ==> at[k] < at[l])
    && (forall i: nat :: i in at <==> i < |ts| && HasText(ts[i]))
  }

  /** The tokens that leave a span are found at these places. */
  ghost predicate FoundAt(ts: seq<Token>, at: seq<nat>) {
    WithText(ts, at) && Matches(ts, at, Recorded(ts))
  }

  predicate Matches(ts: seq<Token>, at: seq<nat>, found: seq<Token>) {
    |found| == |at| && forall k :: 0 <= k < |at| ==> at[k] < |ts| && found[k] == ts[at[k]]
  }

  lemma {:induction false} RecordedAt(ts: seq<Token>) returns (at: seq<nat>)
    ensures FoundAt(ts, at)
    decreases |ts|
  {
    if |ts| == 0 {
      return [];
    }
    var rest := RecordedAt(ts[1..]);
    var later := seq(|rest|, k requires 0 <= k < |rest| => rest[k] + 1);
    LaterAt(ts, rest, later);
    at := if HasText(ts[0]) then [0] + later else later;
    FirstAt(ts, rest, later);
  }

  lemma LaterAt(ts: seq<Token>, rest: seq<nat>, later: seq<nat>)
    requires |ts| > 0 && WithText(ts[1..], rest) && |later| == |rest|
    requires forall k :: 0 <= k < |rest| ==> later[k] == rest[k] + 1
    ensures forall i: nat :: i in later <==> 0 < i < |ts| && HasText(ts[i])
    ensures forall k, l :: 0 <= k < l < |later| ==> later[k] < later[l]
  {
    forall i: nat
      ensures i in later <==> 0 < i < |ts| && HasText(ts[i])
    {
      if i in later {
        var k :| 0 <= k < |later| && later[k] == i;
        assert rest[k] in rest;
      }
      if 0 < i < |ts| && HasText(ts[i]) {
        assert ts[1..][i - 1] == ts[i] && i - 1 in rest;
        var k :| 0 <= k < |rest| && rest[k] == i - 1;
        assert later[k] == i;
      }
    }
  }

  lemma FirstAt(ts: seq<Token>, rest: seq<nat>, later: seq<nat>)
    requires |ts| > 0 && FoundAt(ts[1..], rest) && |later| == |rest|
    requires forall k :: 0 <= k < |rest| ==> later[k] == rest[k] + 1
    requires forall i: nat :: i in later <==> 0 < i < |ts| && HasText(ts[i])
    requires forall k, l :: 0 <= k < l < |later| ==> later[k] < later[l]
    ensures FoundAt(ts, if HasText(ts[0]) then [0] + later else later)
  {
    assert HasText(ts[0]) <==> Records(ts[0]);
    var recorded := Recorded(ts[1..]);
    assert Recorded(ts) == if HasText(ts[0]) then [ts[0]] + recorded else recorded;
    hide Recorded, Records, HasText, WithText, Matches;
    MatchesLater(ts, rest, later, recorded);
    if HasText(ts[0]) {
      PutInFront(ts, later, [0] + later);
      MatchesInFront(ts, later, recorded, [0] + later, [ts[0]] + recorded);
    } else {
      NothingInFront(ts, later);
    }
  }

  lemma MatchesLater(ts: seq<Token>, rest: seq<nat>, later: seq<nat>, found: seq<Token>)
    requires |ts| > 0 && Matches(ts[1..], rest, found) && |later| == |rest|
    requires forall k :: 0 <= k < |rest| ==> later[k] == rest[k] + 1
    ensures Matches(ts, later, found)
  {
    assert forall k :: 0 <= k < |rest| ==> ts[1..][rest[k]] == ts[later[k]];
  }

  lemma MatchesInFront(ts: seq<Token>, later: seq<nat>, found: seq<Token>, all: seq<nat>, found1: seq<Token>)
    requires |ts| > 0 && Matches(ts, later, found) && all == [0] + later && found1 == [ts[0]] + found
    ensures Matches(ts, all, found1)
  {
    assert forall k :: 0 < k < |all| ==> all[k] == later[k - 1] && found1[k] == found[k - 1];
  }

  lemma NothingInFront(ts: seq<Token>, later: seq<nat>)
    requires |ts| > 0 && !HasText(ts[0])
    requires forall i: nat :: i in later <==> 0 < i < |ts| && HasText(ts[i])
    requires forall k, l :: 0 <= k < l < |later| ==> later[k] < later[l]
    ensures WithText(ts, later)
  {
    hide HasText;
  }

  lemma PutInFront(ts: seq<Token>, later: seq<nat>, all: seq<nat>)
    requires |ts| > 0 && HasText(ts[0]) && all == [0] + later
    requires forall i: nat :: i in later <==> 0 < i < |ts| && HasText(ts[i])
    requires forall k, l :: 0 <= k < l < |later| ==> later[k] < later[l]
    ensures WithText(ts, all)
  {
    hide HasText;
    assert all[0] == 0 && forall k :: 0 < k < |all| ==> all[k] == later[k - 1] && later[k - 1] in later;
    assert forall i: nat :: i in all <==> i == 0 || i in later;
  }

  lemma PiecesLand(s: string, ts: seq<Token>) returns (b: seq<nat>, e: seq<nat>)
    requires InOrder(ts, 0, |s|)
    ensures Pieced(s, ts, Substitute(s, ts), b, e)
    ensures forall i :: 0 <= i < |ts| ==>
      ts[i].start <= ts[i].end <= |s| && b[i] == Landing(s, ts, ts[i].start) && e[i] == Landing(s, ts, ts[i].end)
  {
    forall i | 0 <= i < |ts|
      ensures ts[i].start <= ts[i].end <= |s|
    {
      TokenText(s, ts, i);
    }
    b := seq(|ts|, i requires 0 <= i < |ts| => Landing(s, ts, ts[i].start));
    e := seq(|ts|, i requires 0 <= i < |ts| => Landing(s, ts, ts[i].end));
    NothingLandsBefore(s, ts);
    forall i | 0 <= i < |ts|
      ensures PieceAt(s, ts, Substitute(s, ts), b, e, i)
    {
      TokenText(s, ts, i);
      hide Landing, Substitute, InOrder;
    }
    LastStretch(s, ts, GapStart(ts, |ts|));
    hide Landing, Substitute, InOrder, PieceAt;
  }

  lemma NothingLandsBefore(s: string, ts: seq<Token>)
    requires InOrder(ts, 0, |s|)
    ensures Landing(s, ts, 0) == 0
  {
    if |ts| > 0 {
      AllAfter(ts, 0, |s|);
    }
  }

  /** Exactly what a substitution is: the text is pieced together from values and copies, and its spans are, in order,
      the places of the values that are not empty, each under its key. */
  lemma EveryValueIsRecorded(s: string, ts: seq<Token>) returns (b: seq<nat>, e: seq<nat>, at: seq<nat>)
    requires InOrder(ts, 0, |s|)
    ensures Pieced(s, ts, Substitute(s, ts), b, e) && WithText(ts, at)
    ensures |Spans(s, ts)| == |at|
    ensures forall k :: 0 <= k < |at| ==>
      at[k] in at && at[k] < |ts| && Spans(s, ts)[k] == Span(b[at[k]], e[at[k]], ts[at[k]].key)
  {
    b, e := PiecesLand(s, ts);
    at := RecordedAt(ts);
    SpansAreLandings(s, ts);
    hide Spans, Landing, InOrder, Pieced, Recorded;
  }

  // ---------------------------------------------------------------- a tree

  /** The values directly below a mapping or list, each with the segment of its pointer. */
  function Children(item: Json): seq<(string, Json)> {
    match item
    case Object(fields) =>
      seq(|fields|, i requires 0 <= i < |fields| => (Escape(fields[i].key), fields[i].value))
    case Array(items) => seq(|items|, i requires 0 <= i < |items| => (Decimal(i), items[i]))
    case _ => []
  }

  ghost predicate ChildStands(find: string -> seq<Token>, child: (string, Json), path: string,
                              records: seq<Restoration>, from: nat, to: nat)
    requires Finder(find)
  {
    from <= to <= |records| && records[from..to] == Record(find, child.1, path + "/" + child.0)
  }

  /** The records of these children, one after another. */
  ghost predicate ChildByChild(find: string -> seq<Token>, children: seq<(string, Json)>, path: string,
                               records: seq<Restoration>, cuts: seq<nat>)
    requires Finder(find)
  {
    && |cuts| == |children| + 1 && cuts[0] == 0 && cuts[|children|] == |records|
    && forall i :: 0 <= i < |children| ==> ChildStands(find, children[i], path, records, cuts[i], cuts[i + 1])
  }

  lemma StandsLater(find: string -> seq<Token>, child: (string, Json), path: string, first: seq<Restoration>,
                    rest: seq<Restoration>, from: nat, to: nat)
    requires Finder(find) && ChildStands(find, child, path, rest, from, to)
    ensures ChildStands(find, child, path, first + rest, |first| + from, |first| + to)
  {
    assert (first + rest)[|first| + from..|first| + to] == rest[from..to];
  }

  lemma FirstStands(find: string -> seq<Token>, child: (string, Json), path: string, rest: seq<Restoration>)
    requires Finder(find)
    ensures var first := Record(find, child.1, path + "/" + child.0);
      ChildStands(find, child, path, first + rest, 0, |first|)
  {
    var first := Record(find, child.1, path + "/" + child.0);
    assert (first + rest)[0..|first|] == first;
    hide Record, Finder;
  }

  function Behind(cuts: seq<nat>, n: nat): seq<nat> {
    seq(|cuts| + 1, k requires 0 <= k <= |cuts| => if k == 0 then 0 else n + cuts[k - 1])
  }

  lemma NextStands(find: string -> seq<Token>, children: seq<(string, Json)>, path: string, first: seq<Restoration>,
                   rest: seq<Restoration>, cuts: seq<nat>, i: nat)
    requires Finder(find) && 0 < i < |children| && ChildByChild(find, children[1..], path, rest, cuts)
    ensures var cuts1 := Behind(cuts, |first|);
      |cuts1| == |children| + 1 && ChildStands(find, children[i], path, first + rest, cuts1[i], cuts1[i + 1])
  {
    assert children[1..][i - 1] == children[i];
    hide ChildStands, Record, Finder;
    assert ChildStands(find, children[1..][i - 1], path, rest, cuts[i - 1], cuts[i - 1 + 1]);
    StandsLater(find, children[i], path, first, rest, cuts[i - 1], cuts[i]);
  }

  /** One child more in front. */
  lemma ChildInFront(find: string -> seq<Token>, children: seq<(string, Json)>, path: string,
                     first: seq<Restoration>, rest: seq<Restoration>, cuts: seq<nat>)
    requires Finder(find) && |children| > 0 && ChildByChild(find, children[1..], path, rest, cuts)
    requires first == Record(find, children[0].1, path + "/" + children[0].0)
    ensures ChildByChild(find, children, path, first + rest, Behind(cuts, |first|))
  {
    FirstStands(find, children[0], path, rest);
    BehindEnds(cuts, |first|, |rest|, |children|);
    hide ChildStands, Record, Finder, Behind;
    forall i | 0 < i < |children|
      ensures ChildStands(find, children[i], path, first + rest, Behind(cuts, |first|)[i], Behind(cuts, |first|)[i + 1])
    {
      NextStands(find, children, path, first, rest, cuts, i);
    }
  }

  lemma BehindEnds(cuts: seq<nat>, n: nat, m: nat, size: nat)
    requires |cuts| == size > 0 && cuts[0] == 0 && cuts[size - 1] == m
    ensures var cuts1 := Behind(cuts, n);
      |cuts1| == size + 1 && cuts1[0] == 0 && cuts1[1] == n && cuts1[size] == n + m
  {
  }

  lemma FieldsUnfold(find: string -> seq<Token>, fields: seq<Field>, path: string)
    requires Finder(find) && |fields| > 0
    ensures var children := Children(Object(fields));
      && |children| > 0 && children[1..] == Children(Object(fields[1..]))
      && children[0] == (Escape(fields[0].key), fields[0].value)
    ensures RecordFields(find, fields, path) ==
      Record(find, fields[0].value, path + "/" + Escape(fields[0].key)) + RecordFields(find, fields[1..], path)
  {
    hide Escape, Finder, Record;
  }

  lemma {:induction false} FieldsByChild(find: string -> seq<Token>, fields: seq<Field>, path: string)
    returns (cuts: seq<nat>)
    requires Finder(find)
    ensures ChildByChild(find, Children(Object(fields)), path, RecordFields(find, fields, path), cuts)
    decreases |fields|
  {
    if |fields| == 0 {
      return [0];
    }
    var rest := FieldsByChild(find, fields[1..], path);
    var children := Children(Object(fields));
    FieldsUnfold(find, fields, path);
    hide Record, RecordFields, Finder, Escape, Children, ChildByChild, Behind;
    var first := Record(find, fields[0].value, path + "/" + Escape(fields[0].key));
    ChildInFront(find, children, path, first, RecordFields(find, fields[1..], path), rest);
    cuts := Behind(rest, |first|);
  }

  function Numbered(items: seq<Json>, from: nat): seq<(string, Json)> {
    seq(|items|, i requires 0 <= i < |items| => (Decimal(from + i), items[i]))
  }

  lemma NumberedTail(items: seq<Json>, from: nat)
    requires |items| > 0
    ensures Numbered(items, from)[1..] == Numbered(items[1..], from + 1)
    ensures Numbered(items, from)[0] == (Decimal(from), items[0])
  {
    hide Decimal;
    var tail, rest := Numbered(items, from)[1..], Numbered(items[1..], from + 1);
    forall i | 0 <= i < |rest|
      ensures tail[i] == rest[i]
    {
      assert from + (i + 1) == from + 1 + i;
    }
  }

  lemma {:induction false} ItemsByChild(find: string -> seq<Token>, items: seq<Json>, path: string, from: nat)
    returns (cuts: seq<nat>)
    requires Finder(find)
    ensures ChildByChild(find, Numbered(items, from), path, RecordItems(find, items, path, from), cuts)
    decreases |items|
  {
    if |items| == 0 {
      return [0];
    }
    var rest := ItemsByChild(find, items[1..], path, from + 1);
    var children := Numbered(items, from);
    NumberedTail(items, from);
    assert RecordItems(find, items, path, from) ==
      Record(find, items[0], path + "/" + Decimal(from)) + RecordItems(find, items[1..], path, from + 1);
    hide Record, RecordItems, Finder, Decimal, Numbered, ChildByChild, Behind;
    var first := Record(find, items[0], path + "/" + Decimal(from));
    ChildInFront(find, children, path, first, RecordItems(find, items[1..], path, from + 1), rest);
    cuts := Behind(rest, |first|);
  }

  /** What is recorded for a mapping or list is what is recorded for its values, one after another, each under its own
      pointer. */
  lemma RecordedChildByChild(find: string -> seq<Token>, item: Json, path: string) returns (cuts: seq<nat>)
    requires Finder(find) && !item.Text?
    ensures ChildByChild(find, Children(item), path, Record(find, item, path), cuts)
  {
    match item
    case Object(fields) => cuts := FieldsByChild(find, fields, path);
    case Array(items) =>
      cuts := ItemsByChild(find, items, path, 0);
      assert Numbered(items, 0) == Children(item);
    case Atom(_) => cuts := [0];
  }

  /** The leaf at a place, child by child, and its pointer. */
  function LeafAt(item: Json, path: string, place: seq<nat>): Option<(string, string)>
    decreases |place|
  {
    if |place| == 0 then if item.Text? then Some((path, item.text)) else None
    else if place[0] < |Children(item)| then
      LeafAt(Children(item)[place[0]].1, path + "/" + Children(item)[place[0]].0, place[1..])
    else None
  }

  /** Every substituted value of every text in the tree is on record, under the text's pointer. */
  lemma {:induction false} EveryLeafIsRecorded(find: string -> seq<Token>, item: Json, path: string, place: seq<nat>,
                                              k: nat)
    requires Finder(find) && LeafAt(item, path, place).Some?
    requires var text := LeafAt(item, path, place).value.1;
      InOrder(find(text), 0, |text|) && k < |Spans(text, find(text))|
    ensures var (at, text) := LeafAt(item, path, place).value;
      var span := Spans(text, find(text))[k];
      Restoration(at, span.start, span.end, span.key) in Record(find, item, path)
    decreases |place|
  {
    hide Spans, InOrder;
    if |place| == 0 {
      LeafIsRecorded(find, item.text, path, k);
    } else {
      var cuts := RecordedChildByChild(find, item, path);
      var child := Children(item)[place[0]];
      EveryLeafIsRecorded(find, child.1, path + "/" + child.0, place[1..], k);
      hide Record, Finder;
      var records := Record(find, item, path);
      assert ChildStands(find, child, path, records, cuts[place[0]], cuts[place[0] + 1]);
    }
  }

  lemma LeafIsRecorded(find: string -> seq<Token>, text: string, path: string, k: nat)
    requires Finder(find) && InOrder(find(text), 0, |text|) && k < |Spans(text, find(text))|
    ensures var span := Spans(text, find(text))[k];
      Restoration(path, span.start, span.end, span.key) in Record(find, Text(text), path)
  {
    var span := Spans(text, find(text))[k];
    assert Record(find, Text(text), path)[k] == Restoration(path, span.start, span.end, span.key);
  }
}
