/**
 The public projection of tool-call arguments: a JSON tree walked with caps on
 depth, width and text, sensitive keys redacted, and a cap on the encoded size.
 An object is its entries in map order, which holds each key once.
 */
module Arguments {
  import opened Text
  import opened Decimals
  import opened Wrappers

  const MAX_ARGUMENT_DEPTH: nat := 4
  const MAX_ARGUMENT_ENTRIES: nat := 24
  const MAX_ARGUMENT_TEXT_BYTES: nat := 512
  const MAX_ARGUMENT_BYTES: nat := 4096

  const REDACTED := "[REDACTED]"
  const TRUNCATED := "[truncated]"

  /** A number is kept as its JSON text. */
  datatype Json =
    | Null
    | Bool(value: bool)
    | Number(literal: string)
    | Str(text: string)
    | Array(items: seq<Json>)
    | Object(entries: seq<Entry>)

  datatype Entry = Entry(key: string, value: Json)

  // ---------------------------------------------------------------- encoding

  function HexDigit(d: nat): char
    requires d < 16
  {
    if d < 10 then '0' + d as char else 'a' + (d - 10) as char
  }

  /** Escapes of section 7 of RFC 8259, in the form serde_json writes them. */
  function EscapeChar(c: char): string {
    if c == '"' then "\\\""
    else if c == '\\' then "\\\\"
    else if c as int == 8 then "\\b"
    else if c as int == 9 then "\\t"
    else if c as int == 10 then "\\n"
    else if c as int == 12 then "\\f"
    else if c as int == 13 then "\\r"
    else if c as int < 32 then "\\u00" + [HexDigit(c as int / 16), HexDigit(c as int % 16)]
    else [c]
  }

  function EscapeText(text: string): string {
    if text == [] then "" else EscapeChar(text[0]) + EscapeText(text[1..])
  }

  function Encode(value: Json): string
    decreases value, 1, 0
  {
    match value
    case Null => "null"
    case Bool(b) => if b then "true" else "false"
    case Number(literal) => literal
    case Str(text) => "\"" + EscapeText(text) + "\""
    case Array(items) => "[" + EncodeItems(value, 0) + "]"
    case Object(entries) => "{" + EncodeEntries(value, 0) + "}"
  }

  function EncodeItems(value: Json, from: nat): string
    requires value.Array? && from <= |value.items|
    decreases value, 0, |value.items| - from
  {
    if from == |value.items| then ""
    else (if from > 0 then "," else "") + Encode(value.items[from]) + EncodeItems(value, from + 1)
  }

  function EncodeEntries(value: Json, from: nat): string
    requires value.Object? && from <= |value.entries|
    decreases value, 0, |value.entries| - from
  {
    if from == |value.entries| then ""
    else
      (if from > 0 then "," else "")
      + "\"" + EscapeText(value.entries[from].key) + "\":" + Encode(value.entries[from].value)
      + EncodeEntries(value, from + 1)
  }

  function EncodedLen(value: Json): nat {
    Utf8Len(Encode(value))
  }

  // -------------------------------------------------------------- redaction

  const SENSITIVE: seq<string> :=
    ["api_key", "apikey", "authorization", "cookie", "password", "secret", "token", "content"]

  function ToAsciiLower(c: char): char {
    if 'A' <= c <= 'Z' then c - 'A' + 'a' else c
  }

  function LowerText(text: string): (lower: string)
    ensures |lower| == |text|
    ensures forall i :: 0 <= i < |text| ==> lower[i] == ToAsciiLower(text[i])
  {
    seq(|text|, i requires 0 <= i < |text| => ToAsciiLower(text[i]))
  }

  predicate IsSensitiveKey(key: string) {
    exists j :: 0 <= j < |SENSITIVE| && Contains(LowerText(key), SENSITIVE[j])
  }

  /** Neither letter case nor surrounding characters hide a sensitive key. */
  lemma SensitiveKeyIsInfixClosed(before: string, key: string, variant: string, after: string)
    requires IsSensitiveKey(key)
    requires LowerText(variant) == LowerText(key)
    ensures IsSensitiveKey(before + variant + after)
  {
    var j :| 0 <= j < |SENSITIVE| && Contains(LowerText(key), SENSITIVE[j]);
    var i :| 0 <= i <= |key| && MatchesAt(LowerText(key), SENSITIVE[j], i);
    var whole := LowerText(before + variant + after);
    var at := |before| + i;
    assert |variant| == |LowerText(key)|;
    assert whole[at..at + |SENSITIVE[j]|] == LowerText(variant)[i..i + |SENSITIVE[j]|];
    assert MatchesAt(whole, SENSITIVE[j], at);
  }

  /** Equal up to the case of ASCII letters. */
  predicate SameLetters(a: string, b: string) {
    && |a| == |b|
    && (forall i :: 0 <= i < |a| ==>
          || a[i] == b[i]
          || ('A' <= a[i] <= 'Z' && b[i] as int == a[i] as int + 32)
          || ('A' <= b[i] <= 'Z' && a[i] as int == b[i] as int + 32))
  }

  /** A key is sensitive exactly when a part of it spells one of the eight words, in any case. */
  lemma SensitiveKeyIff(key: string)
    ensures IsSensitiveKey(key)
            <==> exists from, to :: 0 <= from <= to <= |key| && SpellsSecret(key[from..to])
  {
    SecretWords();
    if IsSensitiveKey(key) {
      var j :| 0 <= j < |SENSITIVE| && Contains(LowerText(key), SENSITIVE[j]);
      var i :| 0 <= i <= |key| && MatchesAt(LowerText(key), SENSITIVE[j], i);
      LowerIsSameLetters(key[i..i + |SENSITIVE[j]|], SENSITIVE[j]);
      assert LowerText(key[i..i + |SENSITIVE[j]|]) == LowerText(key)[i..i + |SENSITIVE[j]|];
      assert SpellsSecret(key[i..i + |SENSITIVE[j]|]);
    }
    if from, to :| 0 <= from <= to <= |key| && SpellsSecret(key[from..to]) {
      var j :| 0 <= j < |SENSITIVE| && SameLetters(key[from..to], SENSITIVE[j]);
      LowerIsSameLetters(key[from..to], SENSITIVE[j]);
      assert LowerText(key)[from..to] == LowerText(key[from..to]);
      assert MatchesAt(LowerText(key), SENSITIVE[j], from);
    }
  }

  predicate SpellsSecret(part: string) {
    || SameLetters(part, "api_key") || SameLetters(part, "apikey") || SameLetters(part, "authorization")
    || SameLetters(part, "cookie") || SameLetters(part, "password") || SameLetters(part, "secret")
    || SameLetters(part, "token") || SameLetters(part, "content")
  }

  lemma SecretWords()
    ensures forall j :: 0 <= j < |SENSITIVE| ==>
              forall i :: 0 <= i < |SENSITIVE[j]| ==> !('A' <= SENSITIVE[j][i] <= 'Z')
    ensures forall part :: SpellsSecret(part) <==> exists j :: 0 <= j < |SENSITIVE| && SameLetters(part, SENSITIVE[j])
  {
    forall part
      ensures SpellsSecret(part) <==> exists j :: 0 <= j < |SENSITIVE| && SameLetters(part, SENSITIVE[j])
    {
      assert SameLetters(part, "api_key") <==> SameLetters(part, SENSITIVE[0]);
      assert SameLetters(part, "apikey") <==> SameLetters(part, SENSITIVE[1]);
      assert SameLetters(part, "authorization") <==> SameLetters(part, SENSITIVE[2]);
      assert SameLetters(part, "cookie") <==> SameLetters(part, SENSITIVE[3]);
      assert SameLetters(part, "password") <==> SameLetters(part, SENSITIVE[4]);
      assert SameLetters(part, "secret") <==> SameLetters(part, SENSITIVE[5]);
      assert SameLetters(part, "token") <==> SameLetters(part, SENSITIVE[6]);
      assert SameLetters(part, "content") <==> SameLetters(part, SENSITIVE[7]);
    }
  }

  lemma LowerIsSameLetters(text: string, word: string)
    requires forall i :: 0 <= i < |word| ==> !('A' <= word[i] <= 'Z')
    ensures LowerText(text) == word <==> SameLetters(text, word)
  {
    var lower := LowerText(text);
    if SameLetters(text, word) {
      assert lower == word;
    } else if |text| == |word| {
      var i :| 0 <= i < |word| && ToAsciiLower(text[i]) != word[i];
      assert lower[i] != word[i];
    }
  }

  // ------------------------------------------------------------- projection

  predicate KeyHides(key: Option<string>) {
    key.Some? && IsSensitiveKey(key.value)
  }

  function ProjectValue(value: Json, depth: nat, key: Option<string>): Json
    decreases value
  {
    if KeyHides(key) then Str(REDACTED)
    else if depth >= MAX_ARGUMENT_DEPTH then Str(TRUNCATED)
    else
      match value
      case Array(items) =>
        Array(seq(Least(|items|, MAX_ARGUMENT_ENTRIES),
                  i requires 0 <= i < Least(|items|, MAX_ARGUMENT_ENTRIES) =>
                    ProjectValue(items[i], depth + 1, None)))
      case Object(entries) =>
        Object(seq(Least(|entries|, MAX_ARGUMENT_ENTRIES),
                   i requires 0 <= i < Least(|entries|, MAX_ARGUMENT_ENTRIES) =>
                     Entry(entries[i].key, ProjectValue(entries[i].value, depth + 1, Some(entries[i].key)))))
      case Str(text) => Str(BoundTextTo(text, MAX_ARGUMENT_TEXT_BYTES))
      case _ => value
  }

  function OversizeNotice(bytes: nat): string {
    "[arguments redacted: " + Decimal(bytes) + " bytes exceeds public limit]"
  }

  function ProjectArguments(arguments: Json): Json {
    var projected := ProjectValue(arguments, 0, None);
    if EncodedLen(projected) <= MAX_ARGUMENT_BYTES then projected
    else Str(OversizeNotice(EncodedLen(projected)))
  }

  // --------------------------------------------- the shape of a projection

  /**
   The trees the public projection may contain, said without projecting:
   a sensitive key holds only the redaction mark, level four holds only the
   truncation mark, nodes have at most 24 children and texts are bounded.
   */
  predicate IsPublic(value: Json, depth: nat, key: Option<string>)
    decreases value
  {
    if KeyHides(key) then value == Str(REDACTED)
    else if depth >= MAX_ARGUMENT_DEPTH then value == Str(TRUNCATED)
    else
      match value
      case Array(items) =>
        |items| <= MAX_ARGUMENT_ENTRIES
        && forall i :: 0 <= i < |items| ==> IsPublic(items[i], depth + 1, None)
      case Object(entries) =>
        |entries| <= MAX_ARGUMENT_ENTRIES
        && forall i :: 0 <= i < |entries| ==>
             IsPublic(entries[i].value, depth + 1, Some(entries[i].key))
      case Str(text) => IsBounded(text, MAX_ARGUMENT_TEXT_BYTES)
      case _ => true
  }

  lemma {:induction false} ProjectionIsPublic(value: Json, depth: nat, key: Option<string>)
    ensures IsPublic(ProjectValue(value, depth, key), depth, key)
    decreases value
  {
    if !KeyHides(key) && depth < MAX_ARGUMENT_DEPTH {
      match value
      case Array(items) =>
        forall i | 0 <= i < Least(|items|, MAX_ARGUMENT_ENTRIES)
          ensures IsPublic(ProjectValue(items[i], depth + 1, None), depth + 1, None)
        {
          ProjectionIsPublic(items[i], depth + 1, None);
        }
      case Object(entries) =>
        forall i | 0 <= i < Least(|entries|, MAX_ARGUMENT_ENTRIES)
          ensures var k := Some(entries[i].key);
                  IsPublic(ProjectValue(entries[i].value, depth + 1, k), depth + 1, k)
        {
          ProjectionIsPublic(entries[i].value, depth + 1, Some(entries[i].key));
        }
      case Str(text) => BoundTextIsBounded(text, MAX_ARGUMENT_TEXT_BYTES);
      case _ =>
    }
  }

  /** Projection keeps a tree unchanged exactly when the tree is already public. */
  lemma {:induction false} ProjectionFixedIff(value: Json, depth: nat, key: Option<string>)
    ensures ProjectValue(value, depth, key) == value <==> IsPublic(value, depth, key)
    decreases value
  {
    if !KeyHides(key) && depth < MAX_ARGUMENT_DEPTH {
      match value
      case Array(items) =>
        var kept := ProjectValue(value, depth, key).items;
        forall i | 0 <= i < |kept|
          ensures kept[i] == items[i] <==> IsPublic(items[i], depth + 1, None)
        {
          ProjectionFixedIff(items[i], depth + 1, None);
        }
      case Object(entries) =>
        var kept := ProjectValue(value, depth, key).entries;
        forall i | 0 <= i < |kept|
          ensures kept[i] == entries[i] <==> IsPublic(entries[i].value, depth + 1, Some(entries[i].key))
        {
          ProjectionFixedIff(entries[i].value, depth + 1, Some(entries[i].key));
        }
      case Str(text) => BoundTextFixedIff(text, MAX_ARGUMENT_TEXT_BYTES);
      case _ =>
    }
  }

  lemma ProjectValueIdempotent(value: Json, depth: nat, key: Option<string>)
    ensures ProjectValue(ProjectValue(value, depth, key), depth, key) == ProjectValue(value, depth, key)
  {
    ProjectionIsPublic(value, depth, key);
    ProjectionFixedIff(ProjectValue(value, depth, key), depth, key);
  }

  // ------------------------------------------------ input and projection

  /**
   What a projection shows of a value, said without projecting: marks for hidden and deep values,
   scalars as they are, texts whole or cut, and the first children of a container in their
   places, all of them or 24, each shown in turn under its own key.
   */
  ghost predicate Shows(value: Json, shown: Json, depth: nat, key: Option<string>)
    decreases value
  {
    if KeyHides(key) then shown == Str("[REDACTED]")
    else if depth >= 4 then shown == Str("[truncated]")
    else
      match value
      case Array(items) =>
        && shown.Array? && ShowsCount(|items|, |shown.items|)
        && (forall i :: 0 <= i < |shown.items| ==> Shows(items[i], shown.items[i], depth + 1, None))
      case Object(entries) =>
        && shown.Object? && ShowsCount(|entries|, |shown.entries|)
        && (forall i :: 0 <= i < |shown.entries| ==>
              && shown.entries[i].key == entries[i].key
              && Shows(entries[i].value, shown.entries[i].value, depth + 1, Some(entries[i].key)))
      case Str(text) => shown.Str? && IsCutOf(shown.text, text, 512)
      case _ => shown == value
  }

  predicate ShowsCount(all: nat, shown: nat) {
    shown <= all && (shown == all || shown == 24 < all) && shown <= 24
  }

  /** Every projection shows its input. */
  lemma {:induction false} ProjectionShows(value: Json, depth: nat, key: Option<string>)
    ensures Shows(value, ProjectValue(value, depth, key), depth, key)
    decreases value
  {
    if !KeyHides(key) && depth < MAX_ARGUMENT_DEPTH {
      match value
      case Array(items) =>
        var shown := ProjectValue(value, depth, key).items;
        forall i | 0 <= i < |shown|
          ensures Shows(items[i], shown[i], depth + 1, None)
        {
          ProjectionShows(items[i], depth + 1, None);
        }
      case Object(entries) =>
        var shown := ProjectValue(value, depth, key).entries;
        forall i | 0 <= i < |shown|
          ensures shown[i].key == entries[i].key
          ensures Shows(entries[i].value, shown[i].value, depth + 1, Some(entries[i].key))
        {
          ProjectionShows(entries[i].value, depth + 1, Some(entries[i].key));
        }
      case Str(text) => BoundTextIsCut(text, MAX_ARGUMENT_TEXT_BYTES);
      case _ =>
    }
  }

  lemma CutIsUnique(a: string, b: string, text: string, limit: nat)
    requires limit >= 3 && IsCutOf(a, text, limit) && IsCutOf(b, text, limit)
    ensures a == b
  {
    if Utf8Len(text) > limit {
      var k :| 0 <= k <= |text| && a == text[..k] + "..." && limit - 3 <= Utf8Len(text[..k]) <= limit
               && forall j :: 0 <= j < k ==> Utf8Len(text[..j]) < limit - 3;
      var m :| 0 <= m <= |text| && b == text[..m] + "..." && limit - 3 <= Utf8Len(text[..m]) <= limit
               && forall j :: 0 <= j < m ==> Utf8Len(text[..j]) < limit - 3;
      ShortestPrefixUnique(text, limit - 3, k, m);
    }
  }

  /** Only one value shows a given input: the projection is the value that does. */
  lemma {:induction false} ShowsIffProjected(value: Json, shown: Json, depth: nat, key: Option<string>)
    ensures Shows(value, shown, depth, key) <==> shown == ProjectValue(value, depth, key)
    decreases value
  {
    ProjectionShows(value, depth, key);
    if Shows(value, shown, depth, key) && !KeyHides(key) && depth < MAX_ARGUMENT_DEPTH {
      var projected := ProjectValue(value, depth, key);
      match value
      case Array(items) =>
        forall i | 0 <= i < |shown.items|
          ensures shown.items[i] == projected.items[i]
        {
          ShowsIffProjected(items[i], shown.items[i], depth + 1, None);
        }
        assert shown.items == projected.items;
      case Object(entries) =>
        forall i | 0 <= i < |shown.entries|
          ensures shown.entries[i] == projected.entries[i]
        {
          ShowsIffProjected(entries[i].value, shown.entries[i].value, depth + 1, Some(entries[i].key));
        }
        assert shown.entries == projected.entries;
      case Str(text) => CutIsUnique(shown.text, projected.text, text, MAX_ARGUMENT_TEXT_BYTES);
      case _ =>
    }
  }

  // ---------------------------------------------------------- size and notice

  /** Text that encodes as itself, one byte a character. */
  predicate IsPlain(text: string) {
    forall i :: 0 <= i < |text| ==> 32 <= text[i] as int < 128 && text[i] != '"' && text[i] != '\\'
  }

  lemma {:induction false} EscapePlain(text: string)
    requires IsPlain(text)
    ensures EscapeText(text) == text
  {
    if text != [] {
      EscapePlain(text[1..]);
      assert text == [text[0]] + text[1..];
    }
  }

  lemma PlainTextLen(text: string)
    requires IsPlain(text)
    ensures Utf8Len(text) == |text| && EncodedLen(Str(text)) == |text| + 2
  {
    Utf8LenAscii(text);
    EscapePlain(text);
    Utf8LenConcat("\"" + text, "\"");
    Utf8LenConcat("\"", text);
    Utf8LenAscii("\"");
  }

  lemma NoticeFits(bytes: nat)
    requires bytes < U64_LIMIT
    ensures Utf8Len(OversizeNotice(bytes)) <= 80
    ensures EncodedLen(Str(OversizeNotice(bytes))) <= 82
  {
    U64DecimalLength(bytes);
    assert IsPlain(Decimal(bytes));
    PlainTextLen(OversizeNotice(bytes));
  }

  /** The length of an encoded value is a machine size, below 2^64. */
  predicate IsMachineSized(arguments: Json) {
    EncodedLen(ProjectValue(arguments, 0, None)) < U64_LIMIT
  }

  /** Whatever the input, the published arguments encode in at most 4096 bytes. */
  lemma ProjectedArgumentsFit(arguments: Json)
    requires IsMachineSized(arguments)
    ensures EncodedLen(ProjectArguments(arguments)) <= MAX_ARGUMENT_BYTES
    ensures IsPublic(ProjectArguments(arguments), 0, None)
  {
    ProjectionIsPublic(arguments, 0, None);
    var size := EncodedLen(ProjectValue(arguments, 0, None));
    if size > MAX_ARGUMENT_BYTES {
      NoticeFits(size);
    }
  }

  /** Projecting persisted arguments again changes nothing, the size notice included. */
  lemma ProjectArgumentsIdempotent(arguments: Json)
    requires IsMachineSized(arguments)
    ensures ProjectArguments(ProjectArguments(arguments)) == ProjectArguments(arguments)
  {
    var once := ProjectArguments(arguments);
    ProjectedArgumentsFit(arguments);
    ProjectionFixedIff(once, 0, None);
  }

  /**
   Published arguments show their input, unless what shows it takes more than 4096 bytes: then a
   notice names how many.
   */
  lemma PublishedShowsOrNotice(arguments: Json, shown: Json)
    requires Shows(arguments, shown, 0, None)
    ensures var bytes := Utf8Len(Encode(shown));
            ProjectArguments(arguments)
            == if bytes <= 4096 then shown
               else Str("[arguments redacted: " + Decimal(bytes) + " bytes exceeds public limit]")
  {
    ShowsIffProjected(arguments, shown, 0, None);
  }

  /** Arguments are published as they are exactly when they are public and small. */
  lemma ProjectArgumentsFixedIff(arguments: Json)
    requires IsMachineSized(arguments)
    ensures ProjectArguments(arguments) == arguments
            <==> IsPublic(arguments, 0, None) && EncodedLen(arguments) <= MAX_ARGUMENT_BYTES
  {
    ProjectedArgumentsFit(arguments);
    ProjectionFixedIff(arguments, 0, None);
  }

  // ------------------------------------------------------------ shape bounds

  /** Levels below the root: 0 for a leaf. */
  function Height(value: Json): nat
    decreases value, 1, 0
  {
    match value
    case Array(items) => HeightOfItems(value, 0)
    case Object(entries) => HeightOfEntries(value, 0)
    case _ => 0
  }

  function HeightOfItems(value: Json, from: nat): nat
    requires value.Array? && from <= |value.items|
    decreases value, 0, |value.items| - from
  {
    if from == |value.items| then 0
    else
      var here := 1 + Height(value.items[from]);
      var rest := HeightOfItems(value, from + 1);
      if here > rest then here else rest
  }

  function HeightOfEntries(value: Json, from: nat): nat
    requires value.Object? && from <= |value.entries|
    decreases value, 0, |value.entries| - from
  {
    if from == |value.entries| then 0
    else
      var here := 1 + Height(value.entries[from].value);
      var rest := HeightOfEntries(value, from + 1);
      if here > rest then here else rest
  }

  function Nodes(value: Json): nat
    decreases value, 1, 0
  {
    1 + (match value
         case Array(items) => NodesOfItems(value, 0)
         case Object(entries) => NodesOfEntries(value, 0)
         case _ => 0)
  }

  function NodesOfItems(value: Json, from: nat): nat
    requires value.Array? && from <= |value.items|
    decreases value, 0, |value.items| - from
  {
    if from == |value.items| then 0 else Nodes(value.items[from]) + NodesOfItems(value, from + 1)
  }

  function NodesOfEntries(value: Json, from: nat): nat
    requires value.Object? && from <= |value.entries|
    decreases value, 0, |value.entries| - from
  {
    if from == |value.entries| then 0
    else Nodes(value.entries[from].value) + NodesOfEntries(value, from + 1)
  }

  /** Nodes of a full 24-ary tree with `levels` levels below its root. */
  function FullTree(levels: nat): nat {
    if levels == 0 then 1 else 1 + MAX_ARGUMENT_ENTRIES * FullTree(levels - 1)
  }

  lemma ProductSteps(count: nat, bound: nat, size: nat)
    requires count <= bound
    ensures (count + 1) * size == size + count * size
    ensures count * size <= bound * size
  {
  }

  lemma {:induction false} PublicTreeIsSmall(value: Json, depth: nat, key: Option<string>)
    requires depth <= MAX_ARGUMENT_DEPTH && IsPublic(value, depth, key)
    ensures Height(value) <= MAX_ARGUMENT_DEPTH - depth
    ensures Nodes(value) <= FullTree(MAX_ARGUMENT_DEPTH - depth)
    decreases value, 1, 0
  {
    if !KeyHides(key) && depth < MAX_ARGUMENT_DEPTH {
      var below := FullTree(MAX_ARGUMENT_DEPTH - depth - 1);
      match value
      case Array(items) =>
        PublicItemsAreSmall(value, 0, depth);
        ProductSteps(|items|, MAX_ARGUMENT_ENTRIES, below);
      case Object(entries) =>
        PublicEntriesAreSmall(value, 0, depth);
        ProductSteps(|entries|, MAX_ARGUMENT_ENTRIES, below);
      case _ =>
    }
  }

  lemma {:induction false} PublicItemsAreSmall(value: Json, from: nat, depth: nat)
    requires value.Array? && from <= |value.items| && depth < MAX_ARGUMENT_DEPTH
    requires forall i :: 0 <= i < |value.items| ==> IsPublic(value.items[i], depth + 1, None)
    ensures HeightOfItems(value, from) <= MAX_ARGUMENT_DEPTH - depth
    ensures NodesOfItems(value, from) <= (|value.items| - from) * FullTree(MAX_ARGUMENT_DEPTH - depth - 1)
    decreases value, 0, |value.items| - from
  {
    if from < |value.items| {
      ProductSteps(|value.items| - from - 1, |value.items|, FullTree(MAX_ARGUMENT_DEPTH - depth - 1));
      PublicTreeIsSmall(value.items[from], depth + 1, None);
      PublicItemsAreSmall(value, from + 1, depth);
    }
  }

  lemma {:induction false} PublicEntriesAreSmall(value: Json, from: nat, depth: nat)
    requires value.Object? && from <= |value.entries| && depth < MAX_ARGUMENT_DEPTH
    requires forall i :: 0 <= i < |value.entries| ==>
               IsPublic(value.entries[i].value, depth + 1, Some(value.entries[i].key))
    ensures HeightOfEntries(value, from) <= MAX_ARGUMENT_DEPTH - depth
    ensures NodesOfEntries(value, from) <= (|value.entries| - from) * FullTree(MAX_ARGUMENT_DEPTH - depth - 1)
    decreases value, 0, |value.entries| - from
  {
    if from < |value.entries| {
      ProductSteps(|value.entries| - from - 1, |value.entries|, FullTree(MAX_ARGUMENT_DEPTH - depth - 1));
      PublicTreeIsSmall(value.entries[from].value, depth + 1, Some(value.entries[from].key));
      PublicEntriesAreSmall(value, from + 1, depth);
    }
  }

  /** Every text leaf is at most 515 bytes and every sensitive entry is redacted. */
  predicate IsSafe(value: Json)
    decreases value
  {
    match value
    case Array(items) => forall i :: 0 <= i < |items| ==> IsSafe(items[i])
    case Object(entries) =>
      forall i :: 0 <= i < |entries| ==>
        && IsSafe(entries[i].value)
        && (IsSensitiveKey(entries[i].key) ==> entries[i].value == Str(REDACTED))
    case Str(text) => Utf8Len(text) <= MAX_ARGUMENT_TEXT_BYTES + 3
    case _ => true
  }

  lemma ShortAsciiIsSafe(text: string)
    requires IsAscii(text) && |text| <= MAX_ARGUMENT_TEXT_BYTES
    ensures IsSafe(Str(text))
  {
    Utf8LenAscii(text);
  }

  lemma {:induction false} PublicTreeIsSafe(value: Json, depth: nat, key: Option<string>)
    requires IsPublic(value, depth, key)
    ensures IsSafe(value)
    decreases value
  {
    if KeyHides(key) {
      ShortAsciiIsSafe(REDACTED);
    } else if depth >= MAX_ARGUMENT_DEPTH {
      ShortAsciiIsSafe(TRUNCATED);
    } else {
      match value
      case Array(items) =>
        forall i | 0 <= i < |items| ensures IsSafe(items[i]) {
          PublicTreeIsSafe(items[i], depth + 1, None);
        }
      case Object(entries) =>
        forall i | 0 <= i < |entries|
          ensures IsSafe(entries[i].value)
          ensures IsSensitiveKey(entries[i].key) ==> entries[i].value == Str(REDACTED)
        {
          PublicTreeIsSafe(entries[i].value, depth + 1, Some(entries[i].key));
        }
      case Str(text) => BoundedTextIsShort(text, MAX_ARGUMENT_TEXT_BYTES);
      case _ =>
    }
  }

  lemma PublicShape(value: Json)
    requires IsPublic(value, 0, None)
    ensures Height(value) <= 4 && Nodes(value) <= 346201 && IsSafe(value)
  {
    PublicTreeIsSmall(value, 0, None);
    PublicTreeIsSafe(value, 0, None);
    assert FullTree(1) == 1 + 24 * FullTree(0);
    assert FullTree(2) == 1 + 24 * FullTree(1);
    assert FullTree(3) == 1 + 24 * FullTree(2);
    assert FullTree(4) == 1 + 24 * FullTree(3);
  }

  /**
   The shape of every projection, before and after the size check: at most four
   levels below the root, 346201 nodes, short texts and no secret at any depth.
   */
  lemma ProjectedArgumentsShape(arguments: Json)
    ensures var projected := ProjectValue(arguments, 0, None);
            Height(projected) <= 4 && Nodes(projected) <= 346201 && IsSafe(projected)
    ensures IsMachineSized(arguments) ==>
              var published := ProjectArguments(arguments);
              Height(published) <= 4 && Nodes(published) <= 346201 && IsSafe(published)
  {
    ProjectionIsPublic(arguments, 0, None);
    PublicShape(ProjectValue(arguments, 0, None));
    if IsMachineSized(arguments) {
      ProjectedArgumentsFit(arguments);
      PublicShape(ProjectArguments(arguments));
    }
  }
}
