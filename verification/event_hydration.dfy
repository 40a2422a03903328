/** Restoration lists of one event: projected, rebased, merged with what hydration itself records. */
module EventHydration {
  import opened Options
  import opened JsonPointer
  import opened PlaceholderText
  import opened RestorationRebase
  import opened PrivateRestorations
  import opened RestorationPointers

  // ---------------------------------------------------------------- projection

  /** A well-formed entry of the path that lies inside the slice. */
  predicate Selected(item: RawItem, source: string, offset: int, length: int) {
    item.Raw? && item.path == source && |item.key| > 0 && offset <= item.start < item.end <= offset + length
  }

  /** What one entry contributes. */
  function ProjectedOne(item: RawItem, source: string, target: string, offset: int, length: int): seq<Restoration> {
    if Selected(item, source, offset, length) then
      [Restoration(target, item.start - offset, item.end - offset, item.key)] else []
  }

  function Projected(items: seq<RawItem>, source: string, target: string, offset: int, length: int): seq<Restoration> {
    if |items| == 0 then []
    else ProjectedOne(items[0], source, target, offset, length) + Projected(items[1..], source, target, offset, length)
  }

  ghost predicate Increasing(at: seq<nat>) {
    forall j, k :: 0 <= j < k < |at| ==> at[j] < at[k]
  }

  /** A named entry of the path with a stretch inside the slice. */
  predicate Inside(item: RawItem, source: string, offset: int, length: int) {
    && item.Raw? && item.path == source && item.key != ""
    && offset <= item.start && item.start < item.end && item.end <= offset + length
  }

  /** `at` lists, in order and each once, exactly the items inside the slice. */
  ghost predicate EntriesInside(items: seq<RawItem>, source: string, offset: int, length: int, at: seq<nat>) {
    && Increasing(at)
    && (forall k :: 0 <= k < |at| ==> at[k] < |items| && Inside(items[at[k]], source, offset, length))
    && (forall i: nat :: i < |items| && Inside(items[i], source, offset, length) ==> i in at)
  }

  /** One result for each of them, in order: the entry moved back by the slice's offset. */
  ghost predicate MovesEntries(items: seq<RawItem>, target: string, offset: int, at: seq<nat>,
                               projected: seq<Restoration>) {
    && |projected| == |at|
    && (forall k ::
         0 <= k < |at| ==> at[k] < |items| && Moved(items[at[k]], target, offset, projected[k]))
  }

  predicate Moved(item: RawItem, target: string, offset: int, r: Restoration) {
    item.Raw? && r.path == target && r.start == item.start - offset && r.end == item.end - offset && r.key == item.key
  }

  lemma {:induction false} ProjectedAppends(items: seq<RawItem>, item: RawItem, source: string, target: string,
                                            offset: int, length: int)
    ensures Projected(items + [item], source, target, offset, length) ==
      Projected(items, source, target, offset, length) + ProjectedOne(item, source, target, offset, length)
  {
    hide ProjectedOne;
    if |items| == 0 {
      assert [] + [item] == [item] && [item][1..] == [];
    } else {
      assert (items + [item])[1..] == items[1..] + [item] && (items + [item])[0] == items[0];
      ProjectedAppends(items[1..], item, source, target, offset, length);
    }
  }

  lemma {:induction false} ProjectedMoves(items: seq<RawItem>, source: string, target: string, offset: int, length: int)
    returns (at: seq<nat>)
    ensures EntriesInside(items, source, offset, length, at)
    ensures MovesEntries(items, target, offset, at, Projected(items, source, target, offset, length))
  {
    hide *;
    if |items| == 0 {
      at := [];
      NothingInside(items, source, target, offset, length);
    } else {
      var front, last := items[..|items| - 1], items[|items| - 1];
      at := ProjectedMoves(front, source, target, offset, length);
      assert items == front + [last];
      ProjectedAppends(front, last, source, target, offset, length);
      OneInside(last, source, target, offset, length);
      InsideNext(items, source, offset, length, at);
      MovesNext(items, target, offset, at, Projected(front, source, target, offset, length));
      var before, one :=
        Projected(front, source, target, offset, length), ProjectedOne(last, source, target, offset, length);
      if Inside(last, source, offset, length) {
        at := at + [|items| - 1];
        assert one == [one[0]];
      } else {
        assert before + one == before;
      }
    }
  }

  lemma NothingInside(items: seq<RawItem>, source: string, target: string, offset: int, length: int)
    requires |items| == 0
    ensures EntriesInside(items, source, offset, length, [])
    ensures MovesEntries(items, target, offset, [], Projected(items, source, target, offset, length))
  {
  }

  lemma MovesNext(items: seq<RawItem>, target: string, offset: int, at: seq<nat>, projected: seq<Restoration>)
    requires |items| > 0 && MovesEntries(items[..|items| - 1], target, offset, at, projected)
    ensures MovesEntries(items, target, offset, at, projected)
    ensures forall r :: Moved(items[|items| - 1], target, offset, r) ==>
      MovesEntries(items, target, offset, at + [|items| - 1], projected + [r])
  {
    hide Moved;
  }

  lemma OneInside(item: RawItem, source: string, target: string, offset: int, length: int)
    ensures var one := ProjectedOne(item, source, target, offset, length);
      if Inside(item, source, offset, length) then |one| == 1 && Moved(item, target, offset, one[0]) else one == []
  {
  }

  lemma InsideNext(items: seq<RawItem>, source: string, offset: int, length: int, at: seq<nat>)
    requires |items| > 0 && EntriesInside(items[..|items| - 1], source, offset, length, at)
    ensures EntriesInside(items, source, offset, length,
      if Inside(items[|items| - 1], source, offset, length) then at + [|items| - 1] else at)
  {
    hide Inside;
    var n := |items| - 1;
    var more := if Inside(items[n], source, offset, length) then at + [n] else at;
    assert forall k :: 0 <= k < |at| ==> more[k] == at[k] && items[..n][at[k]] == items[at[k]];
    forall i: nat | i < |items| && Inside(items[i], source, offset, length)
      ensures i in more
    {
      if i < n {
        assert items[..n][i] == items[i];
        assert i in at;
      } else {
        assert more[|at|] == n;
      }
    }
  }

  /** The results are exactly the entries inside the slice, each once and in order, moved by its offset. */
  ghost predicate ProjectsExactly(items: seq<RawItem>, source: string, target: string, offset: int, length: int,
                                  projected: seq<Restoration>) {
    exists at ::
      EntriesInside(items, source, offset, length, at) && MovesEntries(items, target, offset, at, projected)
  }

  lemma ProjectedIsExact(items: seq<RawItem>, source: string, target: string, offset: int, length: int)
    ensures ProjectsExactly(items, source, target, offset, length, Projected(items, source, target, offset, length))
  {
    var at := ProjectedMoves(items, source, target, offset, length);
  }

  /** `project_private_restorations`: one result for each entry of the path inside the slice, in order. */
  method Project(items: Option<seq<RawItem>>, source: string, target: string, offset: int, length: int)
    returns (projected: seq<Restoration>)
    ensures projected == if items.None? then [] else Projected(items.value, source, target, offset, length)
    ensures items.Some? ==> ProjectsExactly(items.value, source, target, offset, length, projected)
  {
    projected := [];
    if items.None? {
      return;
    }
    ProjectedIsExact(items.value, source, target, offset, length);
    hide ProjectsExactly;
    assert items.value[0..] == items.value;
    for i := 0 to |items.value|
      invariant projected + Projected(items.value[i..], source, target, offset, length) ==
        Projected(items.value, source, target, offset, length)
    {
      assert items.value[i..][0] == items.value[i] && items.value[i..][1..] == items.value[i + 1..];
      hide ProjectedOne;
      AppendedPair(projected, ProjectedOne(items.value[i], source, target, offset, length),
                Projected(items.value[i + 1..], source, target, offset, length));
      projected := projected + ProjectedOne(items.value[i], source, target, offset, length);
    }
  }

  function AsRaw(rs: seq<Restoration>): seq<RawItem> {
    if |rs| == 0 then [] else [Raw(rs[0].path, rs[0].start, rs[0].end, rs[0].key)] + AsRaw(rs[1..])
  }

  /** Slicing a slice is slicing once, malformed entries and all. */
  lemma {:induction false} ProjectTwice(items: seq<RawItem>, source: string, middle: string, target: string,
                                        offset: int, length: int, offset1: int, length1: int)
    requires 0 <= offset1 && offset1 + length1 <= length
    ensures Projected(AsRaw(Projected(items, source, middle, offset, length)), middle, target, offset1, length1)
         == Projected(items, source, target, offset + offset1, length1)
  {
    if |items| > 0 {
      var item, rest := items[0], Projected(items[1..], source, middle, offset, length);
      ProjectTwice(items[1..], source, middle, target, offset, length, offset1, length1);
      ProjectedHead(items, source, middle, offset, length);
      ProjectedHead(items, source, target, offset + offset1, length1);
      if Selected(item, source, offset, length) {
        var all := AsRaw(Projected(items, source, middle, offset, length));
        assert all[0] == Raw(middle, item.start - offset, item.end - offset, item.key) && all[1..] == AsRaw(rest);
        ProjectedHead(all, middle, target, offset1, length1);
      }
      hide Projected, AsRaw;
    }
  }

  lemma ProjectedHead(items: seq<RawItem>, source: string, target: string, offset: int, length: int)
    requires |items| > 0
    ensures var all, rest :=
      Projected(items, source, target, offset, length), Projected(items[1..], source, target, offset, length);
      if Selected(items[0], source, offset, length)
      then |all| > 0 && all[0] == Restoration(target, items[0].start - offset, items[0].end - offset, items[0].key) &&
        all[1..] == rest
      else all == rest
  {
  }

  // ---------------------------------------------------------------- rebasing the received list

  /** The text an entry points at, and the entry as a span of it, if it is one. */
  function Target(payload: Json, item: RawItem): Option<string> {
    if item.Malformed? || |item.path| == 0 || item.path[0] != '/' then None
    else
      var leaf := Follow(payload, item.path);
      if leaf.Some? && leaf.value.Text? && Selected(item, item.path, 0, |leaf.value.text|) then Some(leaf.value.text)
        else None
  }

  function AsSpan(payload: Json, item: RawItem): Span
    requires Target(payload, item).Some?
  {
    Span(item.start, item.end, item.key)
  }

  function RebaseOne(find: string -> seq<Token>, payload: Json, item: RawItem): Restoration
    requires Finder(find) && Target(payload, item).Some?
  {
    var r := Rebased(find, Target(payload, item).value, AsSpan(payload, item));
    Restoration(item.path, r.start, r.end, r.key)
  }

  /** The entries that point at a stretch of some text of the payload. */
  function Kept(payload: Json, items: seq<RawItem>): (kept: seq<RawItem>)
    ensures forall k :: 0 <= k < |kept| ==> Target(payload, kept[k]).Some?
  {
    if |items| == 0 then []
    else
      var last := items[|items| - 1];
      Kept(payload, items[..|items| - 1]) + if Target(payload, last).Some? then [last] else []
  }

  function RebaseKept(find: string -> seq<Token>, payload: Json, kept: seq<RawItem>): seq<Restoration>
    requires Finder(find) && forall k :: 0 <= k < |kept| ==> Target(payload, kept[k]).Some?
  {
    seq(|kept|, k requires 0 <= k < |kept| => RebaseOne(find, payload, kept[k]))
  }

  /** `at` lists, in order and each once, exactly the entries of some text of the payload. */
  ghost predicate EntriesOfTexts(payload: Json, items: seq<RawItem>, at: seq<nat>) {
    && Increasing(at)
    && (forall k :: 0 <= k < |at| ==> at[k] < |items| && EntryOfText(payload, items[at[k]]))
    && (forall i: nat :: i < |items| && EntryOfText(payload, items[i]) ==> i in at)
  }

  /** A named entry whose pointer leads to a text that is long enough for it; it may begin where the text
      begins and end where it ends. */
  predicate EntryOfText(payload: Json, item: RawItem) {
    && item.Raw? && item.path != "" && item.path[0] == '/' && item.key != ""
    && var leaf := Follow(payload, item.path);
       && leaf.Some? && leaf.value.Text?
       && 0 <= item.start && item.start < item.end && item.end <= |leaf.value.text|
  }

  /** One result for each of them, in order. */
  ghost predicate RebasesEntries(find: string -> seq<Token>, payload: Json, items: seq<RawItem>, at: seq<nat>,
                                 rebased: seq<Restoration>)
    requires Finder(find)
  {
    && |rebased| == |at|
    && (forall k :: 0 <= k < |at| ==> at[k] < |items| && Rebases(find, payload, items[at[k]], rebased[k]))
  }

  /** The same pointer and key, from where the text before the entry ends once restored to where the text
      up to its end does. */
  predicate Rebases(find: string -> seq<Token>, payload: Json, item: RawItem, r: Restoration)
    requires Finder(find)
  {
    && EntryOfText(payload, item)
    && var text := Follow(payload, item.path).value.text;
       && r.path == item.path && r.key == item.key
       && r.start == RestoredLength(find, text[..item.start]) && r.end == RestoredLength(find, text[..item.end])
  }

  function RestoredLength(find: string -> seq<Token>, text: string): nat
    requires Finder(find)
  {
    assert InOrder(find(text), 0, |text|);
    |Substitute(text, find(text))|
  }

  lemma TargetIsEntry(payload: Json, item: RawItem)
    ensures Target(payload, item).Some? <==> EntryOfText(payload, item)
    ensures Target(payload, item).Some? ==> Target(payload, item).value == Follow(payload, item.path).value.text
  {
  }

  lemma {:induction false} KeptAre(payload: Json, items: seq<RawItem>) returns (at: seq<nat>)
    ensures EntriesOfTexts(payload, items, at) && |Kept(payload, items)| == |at|
    ensures forall k :: 0 <= k < |at| ==> at[k] < |items| && Kept(payload, items)[k] == items[at[k]]
  {
    hide EntriesOfTexts, EntryOfText, Target;
    if |items| == 0 {
      at := [];
      NoEntries(payload, items);
    } else {
      var n := |items| - 1;
      at := KeptAre(payload, items[..n]);
      TargetIsEntry(payload, items[n]);
      EntriesNext(payload, items, at);
      if EntryOfText(payload, items[n]) {
        at := at + [n];
      }
    }
  }

  lemma NoEntries(payload: Json, items: seq<RawItem>)
    requires |items| == 0
    ensures EntriesOfTexts(payload, items, [])
  {
  }

  lemma EntriesNext(payload: Json, items: seq<RawItem>, at: seq<nat>)
    requires |items| > 0 && EntriesOfTexts(payload, items[..|items| - 1], at)
    ensures EntriesOfTexts(payload, items, if EntryOfText(payload, items[|items| - 1]) then at + [|items| - 1] else at)
  {
    hide EntryOfText;
    if EntryOfText(payload, items[|items| - 1]) {
      OneMoreEntry(payload, items, at);
    }
  }

  lemma OneMoreEntry(payload: Json, items: seq<RawItem>, at: seq<nat>)
    requires |items| > 0 && EntriesOfTexts(payload, items[..|items| - 1], at)
    requires EntryOfText(payload, items[|items| - 1])
    ensures EntriesOfTexts(payload, items, at + [|items| - 1])
  {
    hide EntryOfText;
    var n := |items| - 1;
    forall i: nat | i < |items| && EntryOfText(payload, items[i])
      ensures i in at + [n]
    {
      assert i < n ==> items[..n][i] == items[i];
    }
  }

  lemma RebasedAre(find: string -> seq<Token>, payload: Json, items: seq<RawItem>) returns (at: seq<nat>)
    requires Finder(find)
    ensures EntriesOfTexts(payload, items, at)
    ensures RebasesEntries(find, payload, items, at, RebaseKept(find, payload, Kept(payload, items)))
  {
    at := KeptAre(payload, items);
    var kept := Kept(payload, items);
    forall k | 0 <= k < |at|
      ensures Target(payload, kept[k]).Some? && Rebases(find, payload, items[at[k]], RebaseOne(find, payload, kept[k]))
    {
      TargetIsEntry(payload, kept[k]);
    }
    hide RebaseOne, Target, Rebases, EntryOfText;
  }

  /** The results are exactly the entries of texts of the payload, each once and in order, rebased. */
  ghost predicate RebasesExactly(find: string -> seq<Token>, payload: Json, items: seq<RawItem>,
                                 rebased: seq<Restoration>)
    requires Finder(find)
  {
    exists at :: EntriesOfTexts(payload, items, at) && RebasesEntries(find, payload, items, at, rebased)
  }

  lemma RebasedIsExact(find: string -> seq<Token>, payload: Json, items: seq<RawItem>)
    requires Finder(find)
    ensures RebasesExactly(find, payload, items, RebaseKept(find, payload, Kept(payload, items)))
  {
    var at := RebasedAre(find, payload, items);
    hide EntriesOfTexts, RebasesEntries;
  }

  /** `rebase_private_restorations` on the payload and the list it carries. */
  method Rebase(find: string -> seq<Token>, payload: Json, items: Option<seq<RawItem>>)
    returns (rebased: seq<Restoration>)
    requires Finder(find)
    ensures rebased == if items.None? then [] else RebaseKept(find, payload, Kept(payload, items.value))
    ensures items.Some? ==> RebasesExactly(find, payload, items.value, rebased)
  {
    hide *;
    rebased := [];
    if items.None? {
      return;
    }
    RebasedIsExact(find, payload, items.value);
    RebaseNone(find, payload, items.value[..0]);
    for i := 0 to |items.value|
      invariant rebased == RebaseKept(find, payload, Kept(payload, items.value[..i]))
    {
      var item := items.value[i];
      RebaseNext(find, payload, items.value[..i], item);
      assert items.value[..i + 1] == items.value[..i] + [item];
      if Target(payload, item).Some? {
        var r := RebaseItem(find, payload, item);
        rebased := rebased + [r];
      }
    }
    assert items.value[..|items.value|] == items.value;
  }

  lemma RebaseNone(find: string -> seq<Token>, payload: Json, items: seq<RawItem>)
    requires Finder(find) && |items| == 0
    ensures RebaseKept(find, payload, Kept(payload, items)) == []
  {
  }

  lemma RebaseNext(find: string -> seq<Token>, payload: Json, items: seq<RawItem>, item: RawItem)
    requires Finder(find)
    ensures RebaseKept(find, payload, Kept(payload, items + [item]))
         == RebaseKept(find, payload, Kept(payload, items)) +
           if Target(payload, item).Some? then [RebaseOne(find, payload, item)] else []
  {
    assert (items + [item])[..|items|] == items;
    hide Target, RebaseOne, Finder;
  }

  /** The two prefix substitutions for one valid entry. */
  method RebaseItem(find: string -> seq<Token>, payload: Json, item: RawItem) returns (r: Restoration)
    requires Finder(find) && Target(payload, item).Some?
    ensures r == RebaseOne(find, payload, item)
  {
    var source := Target(payload, item).value;
    var before, _ := RecordText(find, source[..item.start]);
    var through, _ := RecordText(find, source[..item.end]);
    r := Restoration(item.path, |before|, |through|, item.key);
  }

  // ---------------------------------------------------------------- spans over the restored tree

  function RestoreOption(find: string -> seq<Token>, item: Option<Json>): Option<Json>
    requires Finder(find)
  {
    if item.None? then None else Some(Restore(find, item.value))
  }

  lemma {:induction false} RestoredMember(find: string -> seq<Token>, fields: seq<Field>, key: string)
    requires Finder(find)
    ensures Member(RestoreFields(find, fields), key) == RestoreOption(find, Member(fields, key))
  {
    if |fields| > 0 && fields[0].key != key {
      RestoredMember(find, fields[1..], key);
    }
  }

  lemma {:induction false} RestoredItems(find: string -> seq<Token>, items: seq<Json>)
    requires Finder(find)
    ensures |RestoreItems(find, items)| == |items|
    ensures forall i :: 0 <= i < |items| ==> RestoreItems(find, items)[i] == Restore(find, items[i])
  {
    if |items| > 0 {
      RestoredItems(find, items[1..]);
    }
  }

  /** Substitution keeps the shape of the tree: a pointer leads to the restored form of what it led to. */
  lemma {:induction false} RestoreFollows(find: string -> seq<Token>, source: Option<Json>, segments: seq<string>)
    requires Finder(find)
    ensures EnterAll(RestoreOption(find, source), segments) == RestoreOption(find, EnterAll(source, segments))
    decreases |segments|
  {
    if |segments| > 0 {
      RestoredEnter(find, source, segments[0]);
      hide Finder, Enter, Restore;
      RestoreFollows(find, Enter(source, segments[0]), segments[1..]);
    }
  }

  lemma RestoredEnter(find: string -> seq<Token>, source: Option<Json>, segment: string)
    requires Finder(find)
    ensures Enter(RestoreOption(find, source), segment) == RestoreOption(find, Enter(source, segment))
  {
    if source.Some? {
      match source.value
      case Object(fields) => RestoredMember(find, fields, Unescape(segment));
      case Array(items) => RestoredItems(find, items);
      case _ =>
    }
  }

  /** The pointer of a recorded span leads, in the restored tree, to a text whose stretch is exactly
      the value of a token of the original leaf. */
  lemma RecordedSelectsValue(find: string -> seq<Token>, item: Json, i: nat)
    requires Finder(find) && WellFormed(item) && !item.Text? && i < |Record(find, item, "")|
    ensures var r := Record(find, item, "")[i];
      && r.path != "" && r.path[0] == '/'
      && var leaf, restored := Follow(item, r.path), Follow(Restore(find, item), r.path);
         && leaf.Some? && leaf.value.Text? && restored.Some? && restored.value.Text?
         && r.start < r.end <= |restored.value.text|
         && exists t ::
              t in find(leaf.value.text) && t.key == r.key && t.value == Some(restored.value.text[r.start..r.end])
  {
    PointerLeadsBack(find, item, i);
    var r := Record(find, item, "")[i];
    var text := Follow(item, r.path).value.text;
    RestoreFollows(find, Some(item), Split(r.path[1..]));
    assert InOrder(find(text), 0, |text|);
    SpansSelectValues(text, find(text));
    hide Finder, Spans, Record, Recorded, Substitute;
    var k :| 0 <= k < |Spans(text, find(text))| && r == Located(r.path, Spans(text, find(text)))[k];
    assert Recorded(find(text))[k] in find(text);
  }

  /** A rebased entry selects, in the restored payload, the very text it selected before. */
  lemma RebasedEntrySelectsSameText(find: string -> seq<Token>, payload: Json, item: RawItem)
    requires Finder(find) && Target(payload, item).Some?
    requires Clear(find(Target(payload, item).value), item.start, item.end)
    ensures var r, text := RebaseOne(find, payload, item), Target(payload, item).value;
      var restored := Follow(Restore(find, payload), r.path);
      && restored.Some? && restored.value.Text?
      && r.start < r.end <= |restored.value.text|
      && restored.value.text[r.start..r.end] == text[item.start..item.end]
  {
    RestoreFollows(find, Some(payload), Split(item.path[1..]));
    RebasedSelectsSameText(find, Target(payload, item).value, AsSpan(payload, item));
    hide Rebased, Substitute, Finder;
  }

  // ---------------------------------------------------------------- the merged list

  predicate Overlaps(a: Restoration, b: Restoration) {
    a.path == b.path && a.start < b.end && b.start < a.end
  }

  predicate NoOverlap(rs: seq<Restoration>) {
    forall i, j :: 0 <= i < j < |rs| ==> !Overlaps(rs[i], rs[j])
  }

  /** No entry cuts or contains a token of its leaf. */
  ghost predicate AllClear(find: string -> seq<Token>, payload: Json, kept: seq<RawItem>) {
    forall k :: 0 <= k < |kept| ==>
      Target(payload, kept[k]).Some? && Clear(find(Target(payload, kept[k]).value), kept[k].start, kept[k].end)
  }

  /** The entries do not overlap one another. */
  predicate ReceivedApart(kept: seq<RawItem>) {
    forall i, j :: 0 <= i < j < |kept| && kept[i].Raw? && kept[j].Raw? && kept[i].path == kept[j].path ==>
      kept[i].end <= kept[j].start || kept[j].end <= kept[i].start
  }

  lemma RebasedPairApart(find: string -> seq<Token>, payload: Json, a: RawItem, b: RawItem)
    requires Finder(find) && Target(payload, a).Some? && Target(payload, b).Some?
    requires Clear(find(Target(payload, a).value), a.start, a.end)
    requires Clear(find(Target(payload, b).value), b.start, b.end)
    requires a.path == b.path ==> a.end <= b.start || b.end <= a.start
    ensures !Overlaps(RebaseOne(find, payload, a), RebaseOne(find, payload, b))
  {
    if a.path == b.path {
      var text := Target(payload, a).value;
      if a.end <= b.start {
        RebasedKeepsOrder(find, text, AsSpan(payload, a), AsSpan(payload, b));
      } else {
        RebasedKeepsOrder(find, text, AsSpan(payload, b), AsSpan(payload, a));
      }
    }
  }

  lemma RebasedKeptApart(find: string -> seq<Token>, payload: Json, kept: seq<RawItem>)
    requires Finder(find) && AllClear(find, payload, kept) && ReceivedApart(kept)
    ensures NoOverlap(RebaseKept(find, payload, kept))
  {
    forall i, j | 0 <= i < j < |kept|
      ensures !Overlaps(RebaseOne(find, payload, kept[i]), RebaseOne(find, payload, kept[j]))
    {
      hide RebaseOne, Overlaps, Clear;
      RebasedPairApart(find, payload, kept[i], kept[j]);
    }
  }

  lemma RebasedRecordedApart(find: string -> seq<Token>, payload: Json, item: RawItem, j: nat)
    requires Finder(find) && WellFormed(payload) && !payload.Text? && j < |Record(find, payload, "")|
    requires Target(payload, item).Some? && Clear(find(Target(payload, item).value), item.start, item.end)
    ensures !Overlaps(RebaseOne(find, payload, item), Record(find, payload, "")[j])
  {
    var r := Record(find, payload, "")[j];
    if item.path == r.path {
      PointerLeadsBack(find, payload, j);
      var text := Target(payload, item).value;
      assert InOrder(find(text), 0, |text|);
      var k :| 0 <= k < |Spans(text, find(text))| && r == Located(r.path, Spans(text, find(text)))[k];
      RebasedAvoidsRecorded(find, text, AsSpan(payload, item), k);
    }
  }

  /** The merged list of a payload: received spans rebased, then the newly recorded ones. */
  function Merged(find: string -> seq<Token>, payload: Json, items: seq<RawItem>): seq<Restoration>
    requires Finder(find)
  {
    RebaseKept(find, payload, Kept(payload, items)) + Record(find, payload, "")
  }

  /** No two spans of the merged list overlap under one pointer. */
  lemma MergedApart(find: string -> seq<Token>, payload: Json, items: seq<RawItem>)
    requires Finder(find) && WellFormed(payload) && !payload.Text?
    requires AllClear(find, payload, Kept(payload, items)) && ReceivedApart(Kept(payload, items))
    ensures NoOverlap(Merged(find, payload, items))
  {
    var kept := Kept(payload, items);
    var rebased, recorded := RebaseKept(find, payload, kept), Record(find, payload, "");
    RebasedKeptApart(find, payload, kept);
    RecordedApart(find, payload, "");
    forall k, j | 0 <= k < |rebased| && 0 <= j < |recorded|
      ensures !Overlaps(rebased[k], recorded[j])
    {
      hide RebaseOne, Overlaps, Clear, Record, Kept;
      RebasedRecordedApart(find, payload, kept[k], j);
    }
    hide RebaseKept, Record, Finder, AllClear, ReceivedApart;
    MergeApart(rebased, recorded);
  }

  lemma MergeApart(a: seq<Restoration>, b: seq<Restoration>)
    requires NoOverlap(a) && SamePathApart(b) && forall k, j :: 0 <= k < |a| && 0 <= j < |b| ==> !Overlaps(a[k], b[j])
    ensures NoOverlap(a + b)
  {
  }

  // ---------------------------------------------------------------- one hydrated event

  function Under(prefix: string, rs: seq<Restoration>): seq<Restoration> {
    seq(|rs|, i requires 0 <= i < |rs| => Restoration(prefix + rs[i].path, rs[i].start, rs[i].end, rs[i].key))
  }

  const PAYLOAD := "payload"

  /** The spans below `/name/`, with `/name` taken off. */
  function Below(name: string, rs: seq<Restoration>): seq<Restoration> {
    if |rs| == 0 then []
    else
      (if "/" + name + "/" <= rs[0].path then [Restoration(rs[0].path[|name| + 1..], rs[0].start, rs[0].end, rs[0].key)]
        else [])
      + Below(name, rs[1..])
  }

  /** `hydrated_client_event` on data whose payload is a mapping: the list it attaches to the payload. */
  method HydratePayload(find: string -> seq<Token>, data: Json, payload: Json, received: Option<seq<RawItem>>)
    returns (restored: Json, attached: seq<Restoration>)
    requires Finder(find)
    ensures restored == Restore(find, data)
    ensures attached == (if received.None? then [] else RebaseKept(find, payload, Kept(payload, received.value)))
                        + Below(PAYLOAD, Record(find, data, ""))
  {
    var restorations;
    restored, restorations := Walk(find, data, "", []);
    var rebased := Rebase(find, payload, received);
    attached := rebased + Below(PAYLOAD, restorations);
    assert [] + Record(find, data, "") == Record(find, data, "");
  }

  lemma {:induction false} BelowConcat(name: string, a: seq<Restoration>, b: seq<Restoration>)
    ensures Below(name, a + b) == Below(name, a) + Below(name, b)
    decreases |a|
  {
    if |a| == 0 {
      assert a + b == b;
    } else {
      assert (a + b)[1..] == a[1..] + b;
      BelowConcat(name, a[1..], b);
    }
  }

  lemma {:induction false} NoneBelow(name: string, rs: seq<Restoration>)
    requires forall i :: 0 <= i < |rs| ==> !("/" + name + "/" <= rs[i].path)
    ensures |Below(name, rs)| == 0
    decreases |rs|
  {
    if |rs| > 0 {
      NoneBelow(name, rs[1..]);
    }
  }

  lemma {:induction false} AllBelow(name: string, rs: seq<Restoration>)
    requires forall i :: 0 <= i < |rs| ==> |rs[i].path| > 0 && rs[i].path[0] == '/'
    ensures Below(name, Under("/" + name, rs)) == rs
    decreases |rs|
  {
    if |rs| > 0 {
      var under := Under("/" + name, rs);
      assert under[1..] == Under("/" + name, rs[1..]);
      AllBelow(name, rs[1..]);
      BelowOne(name, rs[0].path);
    }
  }

  lemma BelowOne(name: string, path: string)
    requires |path| > 0 && path[0] == '/'
    ensures "/" + name + "/" <= "/" + name + path && ("/" + name + path)[|name| + 1..] == path
  {
    assert "/" + name + path == "/" + name + "/" + path[1..];
  }

  /** The pointers of a subtree are those it has on its own, behind the pointer to the subtree. */
  lemma {:induction false} RecordUnder(find: string -> seq<Token>, item: Json, prefix: string, path: string)
    requires Finder(find)
    ensures Record(find, item, prefix + path) == Under(prefix, Record(find, item, path))
    decreases item, 1
  {
    match item
    case Text(_) =>
    case Object(fields) => FieldsUnder(find, fields, prefix, path);
    case Array(items) => ItemsUnder(find, items, prefix, path, 0);
    case Atom(_) =>
  }

  lemma UnderConcat(prefix: string, a: seq<Restoration>, b: seq<Restoration>)
    ensures Under(prefix, a + b) == Under(prefix, a) + Under(prefix, b)
  {
  }

  lemma Deeper(prefix: string, path: string, segment: string)
    ensures prefix + path + "/" + segment == prefix + (path + "/" + segment)
  {
  }

  lemma {:induction false} FieldsUnder(find: string -> seq<Token>, fields: seq<Field>, prefix: string, path: string)
    requires Finder(find)
    ensures RecordFields(find, fields, prefix + path) == Under(prefix, RecordFields(find, fields, path))
    decreases fields, 0
  {
    if |fields| > 0 {
      var segment, child := Escape(fields[0].key), fields[0].value;
      RecordUnder(find, child, prefix, path + "/" + segment);
      FieldsUnder(find, fields[1..], prefix, path);
      Deeper(prefix, path, segment);
      UnderConcat(prefix, Record(find, child, path + "/" + segment), RecordFields(find, fields[1..], path));
      hide Under, Record, Escape, Finder;
    }
  }

  lemma {:induction false} ItemsUnder(find: string -> seq<Token>, items: seq<Json>, prefix: string, path: string,
                                      position: nat)
    requires Finder(find)
    ensures RecordItems(find, items, prefix + path, position) == Under(prefix, RecordItems(find, items, path, position))
    decreases items, 0
  {
    if |items| > 0 {
      var segment := Decimal(position);
      RecordUnder(find, items[0], prefix, path + "/" + segment);
      ItemsUnder(find, items[1..], prefix, path, position + 1);
      Deeper(prefix, path, segment);
      UnderConcat(prefix, Record(find, items[0], path + "/" + segment),
        RecordItems(find, items[1..], path, position + 1));
      hide Under, Record, Decimal, Finder;
    }
  }

  /** Nothing under another key lies below `/name/`. */
  lemma OtherFieldNotBelow(find: string -> seq<Token>, name: string, key: string, child: Json)
    requires Finder(find) && WellFormed(child) && key != name && '/' !in name && '~' !in name
    ensures |Below(name, Record(find, child, "/" + Escape(key)))| == 0
  {
    var rs := Record(find, child, "/" + Escape(key));
    forall i | 0 <= i < |rs|
      ensures !("/" + name + "/" <= rs[i].path)
    {
      var rest := LeadsBack(find, child, "/" + Escape(key), i);
      EscapeHasNoSlash(key);
      EscapeRoundTrip(key);
      NothingToUnescape(name);
      hide Record, Finder, Escape, Unescape, FromLeaf;
      FirstSegmentShows(name, Escape(key), rest);
    }
    NoneBelow(name, rs);
  }

  lemma FirstSegmentShows(name: string, segment: string, rest: seq<string>)
    requires '/' !in segment && '/' !in name && NoSlashes(rest) && segment != name
    ensures !("/" + name + "/" <= "/" + segment + Join(rest))
  {
    JoinCons(segment, rest, "");
    var segments := [segment] + rest;
    assert segments[0] == segment && NoSlashes(segments);
    SplitJoin(segments);
    var path := Join(segments);
    hide Join;
    if "/" + name + "/" <= path {
      var tail := path[|name| + 1..];
      assert path[1..] == name + tail && tail[0] == '/';
      SplitFirst(name, tail);
      assert false;
    }
  }

  lemma {:induction false} OthersNotBelow(find: string -> seq<Token>, name: string, fields: seq<Field>)
    requires Finder(find) && FieldsWellFormed(fields) && '/' !in name && '~' !in name
    requires forall k :: 0 <= k < |fields| ==> fields[k].key != name
    ensures |Below(name, RecordFields(find, fields, ""))| == 0
    decreases |fields|
  {
    if |fields| > 0 {
      OtherFieldNotBelow(find, name, fields[0].key, fields[0].value);
      OthersNotBelow(find, name, fields[1..]);
      FieldsSplit(find, name, fields);
      hide Below, Record, RecordFields, Finder;
    }
  }

  lemma SamePath(segment: string)
    ensures "" + "/" + segment == "/" + segment
  {
  }

  lemma FieldsSplit(find: string -> seq<Token>, name: string, fields: seq<Field>)
    requires Finder(find) && |fields| > 0
    ensures Below(name, RecordFields(find, fields, ""))
         == Below(name, Record(find, fields[0].value, "/" + Escape(fields[0].key))) +
           Below(name, RecordFields(find, fields[1..], ""))
  {
    var path := "/" + Escape(fields[0].key);
    SamePath(Escape(fields[0].key));
    hide Escape, Record, Finder, Below;
    assert RecordFields(find, fields, "") == Record(find, fields[0].value, path) + RecordFields(find, fields[1..], "");
    hide *;
    BelowConcat(name, Record(find, fields[0].value, path), RecordFields(find, fields[1..], ""));
  }

  lemma PointersStartWithSlash(find: string -> seq<Token>, payload: Json)
    requires Finder(find) && WellFormed(payload) && !payload.Text?
    ensures var rs := Record(find, payload, "");
      forall i :: 0 <= i < |rs| ==> |rs[i].path| > 0 && rs[i].path[0] == '/'
  {
    var rs := Record(find, payload, "");
    forall i | 0 <= i < |rs|
      ensures |rs[i].path| > 0 && rs[i].path[0] == '/'
    {
      PointerLeadsBack(find, payload, i);
      hide Record, FromLeaf, Follow;
    }
  }

  lemma SubtreeBelow(find: string -> seq<Token>, name: string, child: Json)
    requires Finder(find) && WellFormed(child) && !child.Text? && '/' !in name && '~' !in name
    ensures Below(name, Record(find, child, "/" + Escape(name))) == Record(find, child, "")
  {
    NothingToEscape(name);
    RecordUnder(find, child, "/" + name, "");
    PointersStartWithSlash(find, child);
    assert "/" + Escape(name) == "/" + name + "";
    AllBelow(name, Record(find, child, ""));
    hide *;
  }

  lemma {:induction false} NothingReplaced(s: string, c: char, into: string)
    requires c !in s
    ensures ReplaceChar(s, c, into) == s
  {
    if |s| > 0 {
      NothingReplaced(s[1..], c, into);
    }
  }

  lemma NothingToEscape(key: string)
    requires '~' !in key && '/' !in key
    ensures Escape(key) == key
  {
    NothingReplaced(key, '~', "~0");
    NothingReplaced(key, '/', "~1");
  }

  /** Substitution over the whole mapping records below one key exactly what its value alone records. */
  lemma {:induction false} SubtreeRecordsItsOwn(find: string -> seq<Token>, name: string, fields: seq<Field>,
                                                child: Json)
    requires Finder(find) && DistinctKeys(fields) && FieldsWellFormed(fields) && '/' !in name && '~' !in name
    requires Member(fields, name) == Some(child) && !child.Text?
    ensures Below(name, RecordFields(find, fields, "")) == Record(find, child, "")
    decreases |fields|
  {
    FieldsSplit(find, name, fields);
    if fields[0].key == name {
      assert forall k :: 0 <= k < |fields[1..]| ==> fields[1..][k].key != name;
      assert WellFormed(child) && child == fields[0].value && FieldsWellFormed(fields[1..]);
      hide *;
      SubtreeBelow(find, name, child);
      OthersNotBelow(find, name, fields[1..]);
    } else {
      assert DistinctKeys(fields[1..]) && Member(fields[1..], name) == Some(child);
      assert WellFormed(fields[0].value) && FieldsWellFormed(fields[1..]);
      hide *;
      OtherFieldNotBelow(find, name, fields[0].key, fields[0].value);
      SubtreeRecordsItsOwn(find, name, fields[1..], child);
    }
  }

  /** The list attached to a hydrated payload is the payload's own merged list, free of overlaps. */
  lemma HydratedPayloadIsMerged(find: string -> seq<Token>, fields: seq<Field>, payload: Json, items: seq<RawItem>)
    requires Finder(find) && WellFormed(Object(fields)) && WellFormed(payload)
    requires Member(fields, PAYLOAD) == Some(payload) && payload.Object?
    ensures RebaseKept(find, payload, Kept(payload, items)) + Below(PAYLOAD, Record(find, Object(fields), "")) ==
      Merged(find, payload, items)
    ensures AllClear(find, payload, Kept(payload, items)) && ReceivedApart(Kept(payload, items)) ==>
      NoOverlap(Merged(find, payload, items))
  {
    SubtreeRecordsItsOwn(find, PAYLOAD, fields, payload);
    if AllClear(find, payload, Kept(payload, items)) && ReceivedApart(Kept(payload, items)) {
      MergedApart(find, payload, items);
    }
  }
}
