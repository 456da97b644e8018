/**
 Byte-bounded text, as every public item projection uses it: a text longer than
 `limit` bytes is cut after a whole character and marked with "...".
 */
module Text {

  predicate MatchesAt(text: string, part: string, i: nat) {
    i + |part| <= |text| && text[i..i + |part|] == part
  }

  predicate Contains(text: string, part: string) {
    exists i :: 0 <= i <= |text| && MatchesAt(text, part, i)
  }

  /** Octets of one character in UTF-8, section 3 of RFC 3629. */
  function CharLen(c: char): (n: nat)
    ensures 1 <= n <= 4
  {
    if c as int < 0x80 then 1
    else if c as int < 0x800 then 2
    else if c as int < 0x1_0000 then 3
    else 4
  }

  function Utf8Len(text: string): nat {
    if text == [] then 0 else CharLen(text[0]) + Utf8Len(text[1..])
  }

  predicate IsAscii(text: string) {
    forall i :: 0 <= i < |text| ==> text[i] as int < 0x80
  }

  lemma {:induction false} Utf8LenConcat(a: string, b: string)
    ensures Utf8Len(a + b) == Utf8Len(a) + Utf8Len(b)
  {
    if a == [] {
      assert a + b == b;
    } else {
      assert (a + b)[1..] == a[1..] + b;
      Utf8LenConcat(a[1..], b);
    }
  }

  lemma {:induction false} Utf8LenAscii(text: string)
    requires IsAscii(text)
    ensures Utf8Len(text) == |text|
  {
    if text != [] {
      Utf8LenAscii(text[1..]);
    }
  }

  lemma PrefixStep(text: string, k: nat)
    requires k < |text|
    ensures Utf8Len(text[..k + 1]) == Utf8Len(text[..k]) + CharLen(text[k])
  {
    assert text[..k + 1] == text[..k] + [text[k]];
    Utf8LenConcat(text[..k], [text[k]]);
  }

  lemma {:induction false} PrefixMonotone(text: string, j: nat, k: nat)
    requires j <= k <= |text|
    ensures Utf8Len(text[..j]) + (k - j) <= Utf8Len(text[..k])
    decreases k - j
  {
    if j < k {
      PrefixStep(text, k - 1);
      PrefixMonotone(text, j, k - 1);
    }
  }

  /** A byte offset that falls between two characters (or at either end). */
  predicate OnBoundary(text: string, offset: nat) {
    offset == 0
    || (text != [] && CharLen(text[0]) <= offset && OnBoundary(text[1..], offset - CharLen(text[0])))
  }

  lemma {:induction false} BoundaryIsPrefix(text: string, k: nat)
    requires k <= |text|
    ensures OnBoundary(text, Utf8Len(text[..k]))
  {
    if k > 0 {
      assert text[..k][1..] == text[1..][..k - 1];
      BoundaryIsPrefix(text[1..], k - 1);
    }
  }

  lemma {:induction false} PrefixOfBoundary(text: string, offset: nat) returns (k: nat)
    requires OnBoundary(text, offset)
    ensures k <= |text| && Utf8Len(text[..k]) == offset
  {
    if offset == 0 {
      k := 0;
    } else {
      k := PrefixOfBoundary(text[1..], offset - CharLen(text[0]));
      k := k + 1;
      assert text[..k][1..] == text[1..][..k - 1];
    }
  }

  /** `&text[..offset]`: the characters before a byte offset; any other offset panics. */
  function BytePrefix(text: string, offset: nat): string
    requires OnBoundary(text, offset)
  {
    if offset == 0 then "" else [text[0]] + BytePrefix(text[1..], offset - CharLen(text[0]))
  }

  lemma {:induction false} BytePrefixIsPrefix(text: string, k: nat)
    requires k <= |text|
    ensures OnBoundary(text, Utf8Len(text[..k]))
    ensures BytePrefix(text, Utf8Len(text[..k])) == text[..k]
  {
    BoundaryIsPrefix(text, k);
    if k > 0 {
      assert text[..k][1..] == text[1..][..k - 1];
      BytePrefixIsPrefix(text[1..], k - 1);
    }
  }

  /** The end offsets of the leading characters that start before `cutoff`. */
  function TakenEnds(text: string, index: nat, cutoff: nat): (ends: seq<nat>)
    ensures |ends| <= |text|
  {
    if text == [] || index >= cutoff then []
    else
      var end := index + CharLen(text[0]);
      [end] + TakenEnds(text[1..], end, cutoff)
  }

  function CutOffset(text: string, cutoff: nat): nat {
    var ends := TakenEnds(text, 0, cutoff);
    if ends == [] then 0 else ends[|ends| - 1]
  }

  lemma {:induction false} TakenEndsMeaning(text: string, index: nat, cutoff: nat)
    ensures var ends := TakenEnds(text, index, cutoff);
            && (forall i :: 0 <= i < |ends| ==>
                 ends[i] == index + Utf8Len(text[..i + 1]) && index + Utf8Len(text[..i]) < cutoff)
            && (|ends| == |text| || index + Utf8Len(text[..|ends|]) >= cutoff)
  {
    var ends := TakenEnds(text, index, cutoff);
    if text != [] && index < cutoff {
      var end := index + CharLen(text[0]);
      TakenEndsMeaning(text[1..], end, cutoff);
      forall i | 0 < i <= |text|
        ensures Utf8Len(text[..i]) == CharLen(text[0]) + Utf8Len(text[1..][..i - 1])
      {
        assert text[..i][1..] == text[1..][..i - 1];
      }
      forall i | 0 <= i < |ends|
        ensures ends[i] == index + Utf8Len(text[..i + 1]) && index + Utf8Len(text[..i]) < cutoff
      {
        if i > 0 {
          assert ends[i] == TakenEnds(text[1..], end, cutoff)[i - 1];
        } else {
          assert text[..1] == [text[0]];
        }
      }
    }
  }

  /** The cut is the shortest whole-character prefix that reaches `cutoff` bytes. */
  lemma CutOffsetMeaning(text: string, cutoff: nat) returns (k: nat)
    requires Utf8Len(text) >= cutoff
    ensures k <= |text| && CutOffset(text, cutoff) == Utf8Len(text[..k])
    ensures cutoff <= Utf8Len(text[..k])
    ensures forall j :: 0 <= j < k ==> Utf8Len(text[..j]) < cutoff
  {
    TakenEndsMeaning(text, 0, cutoff);
    k := |TakenEnds(text, 0, cutoff)|;
    assert text[..|text|] == text;
    if k > 0 {
      assert TakenEnds(text, 0, cutoff)[k - 1] == Utf8Len(text[..k]);
    }
  }

  /**
   Bounds a text to about `limit` bytes. Slicing needs an offset between two
   characters; that `CutOffset` always is one is proved here.
   */
  function BoundTextTo(text: string, limit: nat): string
    requires limit >= 3
  {
    if Utf8Len(text) <= limit then text
    else
      var end := CutOffset(text, limit - 3);
      assert OnBoundary(text, end) by {
        var k := CutOffsetMeaning(text, limit - 3);
        BoundaryIsPrefix(text, k);
      }
      BytePrefix(text, end) + "..."
  }

  /**
   What a cut text looks like: the shortest prefix of the text that reaches
   limit - 3 bytes, then the marker. At most three bytes of overshoot.
   */
  lemma BoundTextMeaning(text: string, limit: nat) returns (k: nat)
    requires limit >= 3 && Utf8Len(text) > limit
    ensures k <= |text| && BoundTextTo(text, limit) == text[..k] + "..."
    ensures limit - 3 <= Utf8Len(text[..k]) <= limit
    ensures forall j :: 0 <= j < k ==> Utf8Len(text[..j]) < limit - 3
    ensures limit <= Utf8Len(BoundTextTo(text, limit)) <= limit + 3
    ensures IsAscii(text) ==> Utf8Len(BoundTextTo(text, limit)) == limit
  {
    k := CutOffsetMeaning(text, limit - 3);
    BytePrefixIsPrefix(text, k);
    Utf8LenConcat(text[..k], "...");
    Utf8LenAscii("...");
    if k > 0 {
      PrefixStep(text, k - 1);
      if IsAscii(text) {
        Utf8LenAscii(text[..k]);
        Utf8LenAscii(text[..k - 1]);
      }
    }
  }

  /** A text shown whole, or the shortest prefix that reaches limit - 3 bytes and the marker. */
  ghost predicate IsCutOf(shown: string, text: string, limit: nat)
    requires limit >= 3
  {
    if Utf8Len(text) <= limit then shown == text
    else
      exists k :: 0 <= k <= |text| && shown == text[..k] + "..."
                  && limit - 3 <= Utf8Len(text[..k]) <= limit
                  && forall j :: 0 <= j < k ==> Utf8Len(text[..j]) < limit - 3
  }

  lemma BoundTextIsCut(text: string, limit: nat)
    requires limit >= 3
    ensures IsCutOf(BoundTextTo(text, limit), text, limit)
  {
    if Utf8Len(text) > limit {
      var k := BoundTextMeaning(text, limit);
    }
  }

  /** A bounded text never exceeds `limit + 3` bytes and short text is untouched. */
  lemma BoundTextSize(text: string, limit: nat)
    requires limit >= 3
    ensures Utf8Len(BoundTextTo(text, limit)) <= limit + 3
    ensures BoundTextTo(text, limit) == text <== Utf8Len(text) <= limit
  {
    if Utf8Len(text) > limit {
      var _ := BoundTextMeaning(text, limit);
    }
  }

  /**
   The stated limit itself is met exactly when the text is short or a character
   starts at byte limit - 3; otherwise the last kept character overshoots it.
   */
  lemma BoundTextMeetsLimitIff(text: string, limit: nat)
    requires limit >= 3
    ensures Utf8Len(BoundTextTo(text, limit)) <= limit
            <==> (Utf8Len(text) <= limit || OnBoundary(text, limit - 3))
  {
    if Utf8Len(text) > limit {
      var k := BoundTextMeaning(text, limit);
      Utf8LenConcat(text[..k], "...");
      Utf8LenAscii("...");
      BoundaryIsPrefix(text, k);
      if OnBoundary(text, limit - 3) {
        var m := PrefixOfBoundary(text, limit - 3);
        if k < m {
          PrefixMonotone(text, k, m);
        }
      }
    }
  }

  /** Two four-octet characters cut at four bytes: seven bytes come out. */
  lemma BoundTextOvershoots()
    ensures Utf8Len(BoundTextTo("\U{10348}\U{10348}", 4)) == 7
  {
    var text := "\U{10348}\U{10348}";
    assert text == ['\U{10348}', '\U{10348}'];
    assert Utf8Len(text[1..]) == 4;
    var k := BoundTextMeaning(text, 4);
    assert text[..0] == "";
    assert k >= 1;
    PrefixMonotone(text, 1, k);
    PrefixStep(text, 0);
    assert Utf8Len(text[..1]) == 4;
    Utf8LenConcat(text[..k], "...");
    Utf8LenAscii("...");
  }

  /** The texts that bounding leaves alone, described without bounding them. */
  predicate IsBounded(text: string, limit: nat)
    requires limit >= 3
  {
    || Utf8Len(text) <= limit
    || var k := |text| - 3;
       && k >= 0
       && text[k..] == "..."
       && Utf8Len(text[..k]) >= limit - 3
       && forall j :: 0 <= j < k ==> Utf8Len(text[..j]) < limit - 3
  }

  lemma ShortestPrefixUnique(text: string, cutoff: nat, k: nat, m: nat)
    requires k <= |text| && m <= |text|
    requires Utf8Len(text[..k]) >= cutoff && Utf8Len(text[..m]) >= cutoff
    requires forall j :: 0 <= j < k ==> Utf8Len(text[..j]) < cutoff
    requires forall j :: 0 <= j < m ==> Utf8Len(text[..j]) < cutoff
    ensures k == m
  {
  }

  lemma BoundTextFixedIff(text: string, limit: nat)
    requires limit >= 3
    ensures BoundTextTo(text, limit) == text <==> IsBounded(text, limit)
  {
    if Utf8Len(text) > limit {
      var k := BoundTextMeaning(text, limit);
      if BoundTextTo(text, limit) == text {
        assert k == |text| - 3;
        assert text[k..] == "...";
      }
      if IsBounded(text, limit) {
        var m := |text| - 3;
        ShortestPrefixUnique(text, limit - 3, k, m);
        assert text == text[..m] + text[m..];
      }
    }
  }

  lemma BoundedTextIsShort(text: string, limit: nat)
    requires limit >= 3 && IsBounded(text, limit)
    ensures Utf8Len(text) <= limit + 3
  {
    BoundTextFixedIff(text, limit);
    BoundTextSize(text, limit);
  }

  lemma BoundTextIsBounded(text: string, limit: nat)
    requires limit >= 3
    ensures IsBounded(BoundTextTo(text, limit), limit)
  {
    if Utf8Len(text) > limit {
      var k := BoundTextMeaning(text, limit);
      var cut := BoundTextTo(text, limit);
      assert cut[k..] == "..." && cut[..k] == text[..k];
      forall j | 0 <= j < k
        ensures Utf8Len(cut[..j]) < limit - 3
      {
        assert cut[..j] == text[..j];
      }
    }
  }

  /** Bounding twice is bounding once, wherever the first cut fell. */
  lemma BoundTextIdempotent(text: string, limit: nat)
    requires limit >= 3
    ensures BoundTextTo(BoundTextTo(text, limit), limit) == BoundTextTo(text, limit)
  {
    BoundTextIsBounded(text, limit);
    BoundTextFixedIff(BoundTextTo(text, limit), limit);
  }
}
