/** What stays readable in a shielded value, and what a longer text with tokens in it resolves to. */
module WorkspaceTexts {
  import opened Options
  import opened PrivateWorkspace

  // ---------------------------------------------------------------- what stays readable

  /** Vocabulary, opaque ids under an id key, nulls, and numbers and truth values outside content. */
  predicate Readable(voc: Vocabulary, scalar: Scalar, key: string, content: bool) {
    match scalar
    case Text(s) => voc.isWord(key, s)
      || (key in {"document_id", "presentation_id", "workbook_id", "image_id"} && voc.isOpaqueId(s))
    case Null => true
    case Int(_) => !content
    case Float(_) => !content
    case Bool(_) => !content
  }

  /** Leaf by leaf: what is readable is there as it was, anything else is a token that stands for it. */
  ghost predicate Shadows(voc: Vocabulary, vault: Vault, value: Value, shielded: Value, key: string, content: bool)
    decreases value
  {
    match value
    case Leaf(scalar) =>
      if Readable(voc, scalar, key, content) then shielded == value
      else exists token :: token in vault.values && vault.values[token] == scalar && shielded == Leaf(Text(Wrap(token)))
    case Mapping(entries) =>
      shielded.Mapping? && |shielded.entries| == |entries|
      && (forall i :: 0 <= i < |entries| ==>
            var name := entries[i].key;
            shielded.entries[i].key == name
            && Shadows(voc, vault, entries[i].value, shielded.entries[i].value, name, content || name == "content"))
    case Listing(items) =>
      shielded.Listing? && |shielded.items| == |items|
      && (forall i :: 0 <= i < |items| ==> Shadows(voc, vault, items[i], shielded.items[i], key, content))
  }

  lemma {:induction false} ShadowsLater(voc: Vocabulary, vault: Vault, vault1: Vault, value: Value, shielded: Value,
                                        key: string, content: bool)
    requires Shadows(voc, vault, value, shielded, key, content) && Later(vault, vault1)
    ensures Shadows(voc, vault1, value, shielded, key, content)
    decreases value
  {
    match value
    case Leaf(_) =>
    case Mapping(entries) =>
      forall i | 0 <= i < |entries|
        ensures var name := entries[i].key;
          Shadows(voc, vault1, entries[i].value, shielded.entries[i].value, name, content || name == "content")
      {
        var name := entries[i].key;
        ShadowsLater(voc, vault, vault1, entries[i].value, shielded.entries[i].value, name,
          content || name == "content");
      }
    case Listing(items) =>
      forall i | 0 <= i < |items|
        ensures Shadows(voc, vault1, items[i], shielded.items[i], key, content)
      {
        ShadowsLater(voc, vault, vault1, items[i], shielded.items[i], key, content);
      }
  }

  lemma ShieldedLeafShadows(ids: nat -> string, voc: Vocabulary, vault: Vault, scalar: Scalar, key: string,
                            content: bool)
    requires FreshIds(ids) && Consistent(ids, vault)
    ensures var (vault1, shielded) := Shield(ids, voc, vault, Leaf(scalar), key, content);
      Shadows(voc, vault1, Leaf(scalar), shielded, key, content)
  {
    assert Conceals(voc, scalar, key, content) <==> !Readable(voc, scalar, key, content);
    TokenKeepsConsistent(ids, vault, scalar);
    hide Consistent, FreshIds, TokenKey, Readable, Conceals;
  }

  /** Shielding leaves exactly the readable leaves as they were, keeps the shape and the keys, and puts a
      token for everything else. */
  lemma {:induction false} ShieldShadows(ids: nat -> string, voc: Vocabulary, vault: Vault, value: Value, key: string,
                                         content: bool)
    requires FreshIds(ids) && Consistent(ids, vault)
    ensures var (vault1, shielded) := Shield(ids, voc, vault, value, key, content);
      Shadows(voc, vault1, value, shielded, key, content)
    decreases value, 1
  {
    match value
    case Leaf(scalar) => ShieldedLeafShadows(ids, voc, vault, scalar, key, content);
    case Mapping(entries) => EntriesShadow(ids, voc, vault, entries, key, content);
    case Listing(items) => ItemsShadow(ids, voc, vault, items, key, content);
  }

  lemma {:induction false} EntriesShadow(ids: nat -> string, voc: Vocabulary, vault: Vault, entries: seq<Entry>,
                                         key: string, content: bool)
    requires FreshIds(ids) && Consistent(ids, vault)
    ensures var (vault1, shielded) := ShieldEntries(ids, voc, vault, entries, content);
      Shadows(voc, vault1, Mapping(entries), Mapping(shielded), key, content)
    decreases entries, 0
  {
    if |entries| > 0 {
      var name := entries[0].key;
      var inside := content || name == "content";
      var (vault1, first) := Shield(ids, voc, vault, entries[0].value, name, inside);
      var (vault2, rest) := ShieldEntries(ids, voc, vault1, entries[1..], content);
      ShieldShadows(ids, voc, vault, entries[0].value, name, inside);
      ShieldKeepsConsistent(ids, voc, vault, entries[0].value, name, inside);
      EntriesShadow(ids, voc, vault1, entries[1..], key, content);
      EntriesKeepConsistent(ids, voc, vault1, entries[1..], content);
      ShadowsLater(voc, vault1, vault2, entries[0].value, first, name, inside);
      assert ShieldEntries(ids, voc, vault, entries, content) == (vault2, [Entry(name, first)] + rest);
      hide Shield, ShieldEntries, FreshIds, Consistent;
      OneMoreEntry(voc, vault2, entries, first, rest, key, content);
    }
  }

  lemma OneMoreEntry(voc: Vocabulary, vault: Vault, entries: seq<Entry>, first: Value, rest: seq<Entry>, key: string,
                     content: bool)
    requires |entries| > 0
    requires Shadows(voc, vault, entries[0].value, first, entries[0].key, content || entries[0].key == "content")
    requires Shadows(voc, vault, Mapping(entries[1..]), Mapping(rest), key, content)
    ensures Shadows(voc, vault, Mapping(entries), Mapping([Entry(entries[0].key, first)] + rest), key, content)
  {
    var all := [Entry(entries[0].key, first)] + rest;
    forall i | 0 <= i < |entries|
      ensures var name := entries[i].key;
        all[i].key == name && Shadows(voc, vault, entries[i].value, all[i].value, name, content || name == "content")
    {
      if i > 0 {
        assert all[i] == rest[i - 1] && entries[i] == entries[1..][i - 1];
      }
    }
  }

  lemma {:induction false} ItemsShadow(ids: nat -> string, voc: Vocabulary, vault: Vault, items: seq<Value>,
                                       key: string, content: bool)
    requires FreshIds(ids) && Consistent(ids, vault)
    ensures var (vault1, shielded) := ShieldItems(ids, voc, vault, items, key, content);
      Shadows(voc, vault1, Listing(items), Listing(shielded), key, content)
    decreases items, 0
  {
    if |items| > 0 {
      var (vault1, first) := Shield(ids, voc, vault, items[0], key, content);
      var (vault2, rest) := ShieldItems(ids, voc, vault1, items[1..], key, content);
      ShieldShadows(ids, voc, vault, items[0], key, content);
      ShieldKeepsConsistent(ids, voc, vault, items[0], key, content);
      ItemsShadow(ids, voc, vault1, items[1..], key, content);
      ItemsKeepConsistent(ids, voc, vault1, items[1..], key, content);
      ShadowsLater(voc, vault1, vault2, items[0], first, key, content);
      assert ShieldItems(ids, voc, vault, items, key, content) == (vault2, [first] + rest);
      hide Shield, ShieldItems, FreshIds, Consistent;
      OneMoreItem(voc, vault2, items, first, rest, key, content);
    }
  }

  lemma OneMoreItem(voc: Vocabulary, vault: Vault, items: seq<Value>, first: Value, rest: seq<Value>, key: string,
                    content: bool)
    requires |items| > 0 && Shadows(voc, vault, items[0], first, key, content)
    requires Shadows(voc, vault, Listing(items[1..]), Listing(rest), key, content)
    ensures Shadows(voc, vault, Listing(items), Listing([first] + rest), key, content)
  {
    var all := [first] + rest;
    forall i | 0 <= i < |items|
      ensures Shadows(voc, vault, items[i], all[i], key, content)
    {
      if i > 0 {
        assert all[i] == rest[i - 1] && items[i] == items[1..][i - 1];
      }
    }
  }

  // ---------------------------------------------------------------- tokens inside a longer text

  /** A longer text: stretches in which no token begins, and tokens by their keys. */
  datatype Piece = Plain(text: string) | Token(key: string)

  predicate IsSourceKey(key: string) {
    NoBraces(key) && ("sdk_source_" <= key || "user_sdk_source_" <= key)
  }

  predicate TokenAt(s: string, i: nat, key: string) {
    IsSourceKey(key) && i + |key| + 6 <= |s| && s[i..i + |key| + 6] == "{_{" + key + "}_}"
  }

  ghost predicate NoTokenAt(s: string, i: nat) {
    forall key: string :: !TokenAt(s, i, key)
  }

  function Spelled(piece: Piece): string {
    if piece.Plain? then piece.text else "{_{" + piece.key + "}_}"
  }

  function Joined(pieces: seq<Piece>): string {
    if |pieces| == 0 then "" else Spelled(pieces[0]) + Joined(pieces[1..])
  }

  /** Every token of the text is a piece of its own. */
  ghost predicate Cuts(pieces: seq<Piece>) {
    |pieces| == 0 ||
      (Cuts(pieces[1..]) &&
       match pieces[0]
       case Plain(text) => forall i: nat :: i < |text| ==> NoTokenAt(Joined(pieces), i)
       case Token(key) => IsSourceKey(key))
  }

  /** The text with each token replaced by its value's text; none if some token was never issued. */
  function Written(vault: Vault, write: Writer, pieces: seq<Piece>): Resolved<string> {
    if |pieces| == 0 then Ok("")
    else
      var rest := Written(vault, write, pieces[1..]);
      match pieces[0]
      case Plain(text) => Behind(text, rest)
      case Token(key) => if key in vault.values then Behind(write(vault.values[key]), rest) else Unavailable
  }

  /** `text` in front of a text that resolved. */
  function Behind(text: string, rest: Resolved<string>): Resolved<string> {
    if rest.Ok? then Ok(text + rest.value) else Unavailable
  }

  lemma {:induction false} RunToEnd(s: string, i: nat, end: nat)
    requires i <= end <= |s| && (forall k :: i <= k < end ==> s[k] != '{' && s[k] != '}')
    requires end == |s| || s[end] == '{' || s[end] == '}'
    ensures RunEnd(s, i) == end
    decreases end - i
  {
    if i < end {
      RunToEnd(s, i + 1, end);
    }
  }

  lemma PartOfPart(s: string, i: nat, n: nat, a: nat, b: nat)
    requires i + n <= |s| && a <= b <= n
    ensures s[i..i + n][a..b] == s[i + a..i + b]
  {
    var part, same := s[i..i + n][a..b], s[i + a..i + b];
    assert |part| == |same| && forall k :: 0 <= k < |same| ==> part[k] == same[k];
  }

  lemma TokenInParts(s: string, i: nat, key: string)
    requires TokenAt(s, i, key)
    ensures var end := i + 3 + |key|;
      s[i..i + 3] == "{_{" && s[i + 3..end] == key && s[end..end + 3] == "}_}"
  {
    hide IsSourceKey;
    var token := "{_{" + key + "}_}";
    assert token[0..3] == "{_{" && token[3..3 + |key|] == key && token[3 + |key|..|key| + 6] == "}_}";
    PartOfPart(s, i, |token|, 0, 3);
    PartOfPart(s, i, |token|, 3, 3 + |key|);
    PartOfPart(s, i, |token|, 3 + |key|, |token|);
  }

  /** A token is found where it begins. */
  lemma TokenIsFound(s: string, i: nat, key: string)
    requires TokenAt(s, i, key)
    ensures KeyAt(s, i) == Some(key)
  {
    TokenInParts(s, i, key);
    var end := i + 3 + |key|;
    assert NoBraces(s[i + 3..end]);
    forall k | i + 3 <= k < end
      ensures s[k] != '{' && s[k] != '}'
    {
      assert s[k] == s[i + 3..end][k - i - 3];
    }
    assert s[end] == s[end..end + 3][0];
    RunToEnd(s, i + 3, end);
  }

  /** And nothing else is found. */
  lemma FoundIsToken(s: string, i: nat)
    requires i <= |s| && KeyAt(s, i).Some?
    ensures TokenAt(s, i, KeyAt(s, i).value)
  {
    var key := KeyAt(s, i).value;
    var end := RunEnd(s, i + 3);
    assert s[i..i + 3] == "{_{" && s[i + 3..end] == key && s[end..end + 3] == "}_}";
    assert s[i..end + 3] == s[i..i + 3] + s[i + 3..end] + s[end..end + 3];
  }

  lemma OneCharacter(vault: Vault, write: Writer, s: string, i: nat)
    requires i < |s| && NoTokenAt(s, i)
    ensures Fill(vault, write, s, i) == Behind([s[i]], Fill(vault, write, s, i + 1))
  {
    hide KeyAt, TokenAt;
    if KeyAt(s, i).Some? {
      FoundIsToken(s, i);
    }
  }

  lemma OneToken(vault: Vault, write: Writer, s: string, i: nat, key: string)
    requires TokenAt(s, i, key)
    ensures Fill(vault, write, s, i) ==
      if key in vault.values then Behind(write(vault.values[key]), Fill(vault, write, s, i + |key| + 6))
      else Unavailable
  {
    TokenIsFound(s, i, key);
    hide KeyAt;
  }

  lemma {:induction false} PlainIsCopied(vault: Vault, write: Writer, s: string, i: nat, j: nat)
    requires i <= j <= |s| && (forall k: nat :: i <= k < j ==> NoTokenAt(s, k))
    ensures Fill(vault, write, s, i) == Behind(s[i..j], Fill(vault, write, s, j))
    decreases j - i
  {
    hide *;
    if i < j {
      OneCharacter(vault, write, s, i);
      PlainIsCopied(vault, write, s, i + 1, j);
      Further([s[i]], s[i + 1..j], Fill(vault, write, s, j));
      assert s[i..j] == [s[i]] + s[i + 1..j];
    } else {
      assert s[i..j] == "";
      Further("", "", Fill(vault, write, s, j));
    }
  }

  lemma Further(a: string, b: string, rest: Resolved<string>)
    ensures Behind(a, Behind(b, rest)) == Behind(a + b, rest) && Behind("", rest) == rest
  {
    if rest.Ok? {
      assert a + (b + rest.value) == (a + b) + rest.value && "" + rest.value == rest.value;
    }
  }

  /** What stands before a place does not decide whether a token begins there. */
  lemma BeforeIsNoMatter(before: string, s: string, i: nat, key: string)
    ensures TokenAt(before + s, |before| + i, key) == TokenAt(s, i, key)
  {
    if i + |key| + 6 <= |s| {
      assert (before + s)[|before| + i..|before| + i + |key| + 6] == s[i..i + |key| + 6];
    }
  }

  lemma PlainPiece(vault: Vault, write: Writer, before: string, text: string, rest: string)
    requires forall i: nat :: i < |text| ==> NoTokenAt(text + rest, i)
    ensures var s := before + (text + rest);
      Fill(vault, write, s, |before|) == Behind(text, Fill(vault, write, s, |before| + |text|))
  {
    var s := before + (text + rest);
    forall k: nat | |before| <= k < |before| + |text|
      ensures NoTokenAt(s, k)
    {
      assert NoTokenAt(text + rest, k - |before|);
      forall key: string
        ensures !TokenAt(s, k, key)
      {
        BeforeIsNoMatter(before, text + rest, k - |before|, key);
      }
    }
    hide *;
    assert s[|before|..|before| + |text|] == text;
    PlainIsCopied(vault, write, s, |before|, |before| + |text|);
  }

  lemma TokenPiece(vault: Vault, write: Writer, before: string, key: string, rest: string)
    requires IsSourceKey(key)
    ensures var s := before + ("{_{" + key + "}_}" + rest);
      Fill(vault, write, s, |before|) ==
        if key in vault.values then Behind(write(vault.values[key]), Fill(vault, write, s, |before| + |key| + 6))
        else Unavailable
  {
    hide Fill, IsSourceKey, Behind;
    var s := before + ("{_{" + key + "}_}" + rest);
    assert s[|before|..|before| + |key| + 6] == "{_{" + key + "}_}";
    OneToken(vault, write, s, |before|, key);
  }

  lemma {:induction false} PiecesAreWritten(vault: Vault, write: Writer, before: string, pieces: seq<Piece>)
    requires Cuts(pieces)
    ensures Fill(vault, write, before + Joined(pieces), |before|) == Written(vault, write, pieces)
    decreases |pieces|
  {
    hide Fill, IsSourceKey, NoTokenAt, Behind;
    if |pieces| == 0 {
      assert before + Joined(pieces) == before;
      NothingLeft(vault, write, before);
    } else {
      var text, rest := Spelled(pieces[0]), Joined(pieces[1..]);
      assert before + Joined(pieces) == (before + text) + rest;
      PiecesAreWritten(vault, write, before + text, pieces[1..]);
      match pieces[0]
      case Plain(plain) => PlainPiece(vault, write, before, plain, rest);
      case Token(key) => TokenPiece(vault, write, before, key, rest);
    }
  }

  lemma NothingLeft(vault: Vault, write: Writer, s: string)
    ensures Fill(vault, write, s, |s|) == Ok("")
  {
  }

  /** Every text can be cut at its tokens. */
  lemma {:induction false} EveryTextIsCut(s: string) returns (pieces: seq<Piece>)
    ensures Cuts(pieces) && Joined(pieces) == s
    decreases |s|
  {
    if |s| == 0 {
      return [];
    }
    if key: string :| TokenAt(s, 0, key) {
      var rest := EveryTextIsCut(s[|key| + 6..]);
      pieces := [Token(key)] + rest;
      assert pieces[1..] == rest && s == s[..|key| + 6] + s[|key| + 6..];
    } else {
      var rest := EveryTextIsCut(s[1..]);
      pieces := [Plain(s[..1])] + rest;
      assert pieces[1..] == rest && s == s[..1] + s[1..];
      hide TokenAt, IsSourceKey;
      assert NoTokenAt(s, 0);
    }
  }

  lemma NotOneToken(s: string)
    requires forall key: string :: IsSourceKey(key) ==> s != "{_{" + key + "}_}"
    ensures !IsToken(s)
  {
    if KeyAt(s, 0).Some? {
      FoundIsToken(s, 0);
      var key := KeyAt(s, 0).value;
      assert s[0..|key| + 6] != s;
    }
  }

  /** A text that is more than one token resolves with every token replaced and all else as it stands, and
      is refused if one of its tokens was never issued. */
  lemma LongerTextResolves(vault: Vault, write: Writer, s: string) returns (pieces: seq<Piece>)
    requires forall key: string :: IsSourceKey(key) ==> s != "{_{" + key + "}_}"
    ensures Cuts(pieces) && Joined(pieces) == s
    ensures Resolve(vault, write, Leaf(Text(s))) ==
      match Written(vault, write, pieces) case Ok(text) => Ok(Leaf(Text(text))) case Unavailable => Unavailable
  {
    pieces := EveryTextIsCut(s);
    PiecesAreWritten(vault, write, "", pieces);
    assert "" + Joined(pieces) == s;
    NotOneToken(s);
  }

  /** A text that is one token resolves to the value itself, and is refused if that was never issued. */
  lemma TokenResolves(vault: Vault, write: Writer, key: string)
    requires IsSourceKey(key)
    ensures Resolve(vault, write, Leaf(Text("{_{" + key + "}_}"))) ==
      if key in vault.values then Ok(Leaf(vault.values[key])) else Unavailable
  {
    var s := "{_{" + key + "}_}";
    assert s[0..|key| + 6] == s;
    TokenIsFound(s, 0, key);
  }
}
