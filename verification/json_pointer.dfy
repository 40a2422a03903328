/** JSON Pointers over JSON trees (sections 3 and 4 of RFC 6901), as the restoration spans use them. */
module JsonPointer {
  import opened Options

  /** A mapping keeps its order; `Atom` stands for every leaf that is not text. */
  datatype Json = Text(text: string) | Object(fields: seq<Field>) | Array(items: seq<Json>) | Atom(value: int)

  datatype Field = Field(key: string, value: Json)

  predicate DistinctKeys(fields: seq<Field>) {
    forall i, j :: 0 <= i < j < |fields| ==> fields[i].key != fields[j].key
  }

  /** No mapping of the tree has a key twice. */
  predicate WellFormed(item: Json) {
    match item
    case Object(fields) => DistinctKeys(fields) && FieldsWellFormed(fields)
    case Array(items) => ItemsWellFormed(items)
    case _ => true
  }

  predicate FieldsWellFormed(fields: seq<Field>) {
    fields == [] || (WellFormed(fields[0].value) && FieldsWellFormed(fields[1..]))
  }

  predicate ItemsWellFormed(items: seq<Json>) {
    items == [] || (WellFormed(items[0]) && ItemsWellFormed(items[1..]))
  }

  /** The value at a key. */
  function Member(fields: seq<Field>, key: string): Option<Json> {
    if fields == [] then None
    else if fields[0].key == key then Some(fields[0].value)
    else Member(fields[1..], key)
  }

  // ---------------------------------------------------------------- segments

  /** One character for another string, everywhere. */
  function ReplaceChar(s: string, c: char, into: string): string {
    if s == "" then "" else (if s[0] == c then into else [s[0]]) + ReplaceChar(s[1..], c, into)
  }

  /** One pair of characters for a single one, everywhere, from the left. */
  function ReplacePair(s: string, a: char, b: char, into: char): string {
    if |s| < 2 then s
    else if s[0] == a && s[1] == b then [into] + ReplacePair(s[2..], a, b, into)
    else [s[0]] + ReplacePair(s[1..], a, b, into)
  }

  /** Section 3 of RFC 6901, in the writer's order. */
  function Escape(key: string): string {
    ReplaceChar(ReplaceChar(key, '~', "~0"), '/', "~1")
  }

  /** Section 4 of RFC 6901: first `~1`, then `~0`. */
  function Unescape(segment: string): string {
    ReplacePair(ReplacePair(segment, '~', '1', '/'), '~', '0', '~')
  }

  /** The first unescaping pass undoes the second escaping pass, though tildes already stand in the text. */
  lemma {:induction false} SlashesReturn(key: string)
    ensures var tildes := ReplaceChar(key, '~', "~0");
      ReplacePair(ReplaceChar(tildes, '/', "~1"), '~', '1', '/') == tildes
  {
    if key != "" {
      var rest := ReplaceChar(key[1..], '~', "~0");
      var tail := ReplaceChar(rest, '/', "~1");
      SlashesReturn(key[1..]);
      var tildes := ReplaceChar(key, '~', "~0");
      var escaped := ReplaceChar(tildes, '/', "~1");
      if key[0] == '~' {
        assert tildes == ['~'] + (['0'] + rest) && (['0'] + rest)[1..] == rest && tildes[1..] == ['0'] + rest;
        assert escaped == ['~'] + (['0'] + tail);
        assert escaped[1..] == ['0'] + tail && (['0'] + tail)[1..] == tail;
        SkipsOne('0', tail, '~', '1', '/');
      } else {
        assert tildes == [key[0]] + rest && tildes[1..] == rest;
        if key[0] == '/' {
          assert escaped == ['~', '1'] + tail && escaped[2..] == tail;
        } else {
          assert escaped == [key[0]] + tail && escaped[1..] == tail;
          SkipsOne(key[0], tail, '~', '1', '/');
        }
      }
    }
  }

  lemma SkipsOne(c: char, tail: string, a: char, b: char, into: char)
    requires c != a
    ensures ReplacePair([c] + tail, a, b, into) == [c] + ReplacePair(tail, a, b, into)
  {
    assert ([c] + tail)[1..] == tail;
  }

  lemma {:induction false} TildesReturn(key: string)
    ensures ReplacePair(ReplaceChar(key, '~', "~0"), '~', '0', '~') == key
  {
    if key != "" {
      var tail := ReplaceChar(key[1..], '~', "~0");
      TildesReturn(key[1..]);
      if key[0] == '~' {
        assert (['~', '0'] + tail)[2..] == tail;
      } else {
        SkipsOne(key[0], tail, '~', '0', '~');
      }
      assert key == [key[0]] + key[1..];
    }
  }

  /** Every key, tildes and slashes included, survives the trip through a pointer. */
  lemma EscapeRoundTrip(key: string)
    ensures Unescape(Escape(key)) == key
  {
    SlashesReturn(key);
    TildesReturn(key);
  }

  lemma NothingToUnescape(segment: string)
    requires '~' !in segment
    ensures Unescape(segment) == segment
  {
    NoPairs(segment, '1', '/');
    NoPairs(segment, '0', '~');
  }

  lemma {:induction false} NoPairs(s: string, b: char, into: char)
    requires '~' !in s
    ensures ReplacePair(s, '~', b, into) == s
  {
    if |s| >= 2 {
      NoPairs(s[1..], b, into);
    }
  }

  lemma {:induction false} ReplacedAway(s: string, c: char, into: string)
    requires c !in into
    ensures c !in ReplaceChar(s, c, into)
  {
    if s != "" {
      ReplacedAway(s[1..], c, into);
    }
  }

  /** A decimal index. */
  function Decimal(n: nat): (s: string)
    ensures |s| > 0
  {
    (if n < 10 then "" else Decimal(n / 10)) + [Digit(n % 10)]
  }

  function Digit(d: nat): char
    requires d < 10
  {
    "0123456789"[d]
  }

  predicate IsDigit(c: char) {
    '0' <= c <= '9'
  }

  predicate IsDecimal(s: string) {
    s != "" && forall i :: 0 <= i < |s| ==> IsDigit(s[i])
  }

  function ParseDecimal(s: string): nat
    requires forall i :: 0 <= i < |s| ==> IsDigit(s[i])
  {
    if s == "" then 0
    else
      assert IsDigit(s[|s| - 1]);
      ParseDecimal(s[..|s| - 1]) * 10 + (s[|s| - 1] as int - '0' as int)
  }

  lemma DigitRoundTrip(d: nat)
    requires d < 10
    ensures IsDigit(Digit(d)) && Digit(d) as int - '0' as int == d
  {
  }

  lemma {:induction false} DecimalRoundTrip(n: nat)
    ensures IsDecimal(Decimal(n)) && ParseDecimal(Decimal(n)) == n
  {
    DigitRoundTrip(n % 10);
    hide Digit;
    var s, front := Decimal(n), if n < 10 then "" else Decimal(n / 10);
    assert s == front + [Digit(n % 10)] && s[..|s| - 1] == front;
    if n >= 10 {
      DecimalRoundTrip(n / 10);
    }
  }

  // ---------------------------------------------------------------- whole pointers

  /** `split('/')`. */
  function Split(s: string): (segments: seq<string>)
    ensures |segments| > 0
  {
    if s == "" then [""]
    else
      var rest := Split(s[1..]);
      if s[0] == '/' then [""] + rest else [[s[0]] + rest[0]] + rest[1..]
  }

  /** A path: each step behind a slash. */
  function Join(segments: seq<string>): string {
    if segments == [] then "" else "/" + segments[0] + Join(segments[1..])
  }

  lemma {:induction false} SplitFirst(segment: string, rest: string)
    requires '/' !in segment && (rest == "" || rest[0] == '/')
    ensures Split(segment + rest) == [segment] + (if rest == "" then [] else Split(rest[1..]))
  {
    if segment == "" {
      assert segment + rest == rest;
    } else {
      assert (segment + rest)[1..] == segment[1..] + rest;
      SplitFirst(segment[1..], rest);
      assert segment == [segment[0]] + segment[1..];
    }
  }

  /** Splitting a path gives back the segments it was built from. */
  lemma {:induction false} SplitJoin(segments: seq<string>)
    requires segments != [] && forall i :: 0 <= i < |segments| ==> '/' !in segments[i]
    ensures Join(segments) != "" && Join(segments)[0] == '/' && Split(Join(segments)[1..]) == segments
  {
    var rest := Join(segments[1..]);
    assert Join(segments)[1..] == segments[0] + rest;
    if |segments| > 1 {
      SplitJoin(segments[1..]);
    }
    SplitFirst(segments[0], rest);
  }

  /** One step of the rebase walker; `None` once it has left the tree. */
  function Enter(source: Option<Json>, segment: string): Option<Json> {
    var key := Unescape(segment);
    if source.None? then None
    else match source.value
      case Object(fields) => Member(fields, key)
      case Array(items) =>
        if IsDecimal(key) && ParseDecimal(key) < |items| then Some(items[ParseDecimal(key)]) else None
      case _ => None
  }

  function EnterAll(source: Option<Json>, segments: seq<string>): Option<Json>
    decreases |segments|
  {
    if segments == [] then source else EnterAll(Enter(source, segments[0]), segments[1..])
  }

  /** Where a span's path leads. */
  function Follow(root: Json, path: string): Option<Json>
    requires path != "" && path[0] == '/'
  {
    EnterAll(Some(root), Split(path[1..]))
  }
}
