/**
 The lines of a file that belong to items marked `#[cfg(test)]`: from the marker to
 the line where the item's braces balance, or to an early `;` or `,`.
 */
module TestRanges {
  import opened Scanner
  import opened Text
  import opened Wrappers

  const MARKER := "#[cfg(test)]"

  predicate IsMarker(line: string) {
    Contains(line, MARKER)
  }

  function LStrip(line: string): string {
    if line != "" && IsSpace(line[0]) then LStrip(line[1..]) else line
  }

  predicate IsAttribute(line: string) {
    MatchesAt(LStrip(line), "#[", 0)
  }

  function SkipAttributes(lines: seq<string>, item: nat): (next: nat)
    ensures item <= next && (item <= |lines| ==> next <= |lines|)
    decreases |lines| - item
  {
    if item < |lines| && IsAttribute(lines[item]) then SkipAttributes(lines, item + 1) else item
  }

  /** The scanned text of every line from `item` on, starting outside any construct. */
  function ItemCodes(lines: seq<string>, item: nat): (codes: seq<string>)
    requires item <= |lines|
    ensures |codes| == |lines| - item
  {
    var rest := lines[item..];
    seq(|rest|, j requires 0 <= j < |rest| => CodeOfLine(rest, j))
  }

  datatype Braces = Braces(depth: nat, saw: bool)

  predicate Counting(b: Braces) {
    if b.saw then b.depth >= 1 else b.depth == 0
  }

  /** The character loop over one scanned line, with its early exits. */
  function ScanBraces(code: string, i: nat, b: Braces): (r: Braces)
    requires i <= |code| && Counting(b)
    ensures !r.saw ==> r.depth == 0
    decreases |code| - i
  {
    if i == |code| then b
    else if code[i] == '{' then ScanBraces(code, i + 1, Braces(b.depth + 1, true))
    else if code[i] == '}' && b.saw then
      if b.depth == 1 then Braces(0, true) else ScanBraces(code, i + 1, Braces(b.depth - 1, true))
    else if code[i] == ';' && !b.saw then b
    else if code[i] == ',' && !b.saw && ':' in code then b
    else ScanBraces(code, i + 1, b)
  }

  predicate HasStop(code: string) {
    ';' in code || ',' in code
  }

  /** The line the item ends on, or the number of lines if it never ends. */
  function ItemEnd(codes: seq<string>, j: nat, b: Braces): (end: nat)
    requires j <= |codes| && Counting(b)
    ensures j <= end <= |codes|
    decreases |codes| - j
  {
    if j == |codes| then j
    else
      var r := ScanBraces(codes[j], 0, b);
      if r.saw && r.depth == 0 then j
      else if !r.saw && HasStop(codes[j]) then j
      else ItemEnd(codes, j + 1, r)
  }

  const START := Braces(0, false)

  /** Lines `start` up to, not including, `stop`. */
  datatype Range = Range(start: nat, stop: nat)

  function EndLine(lines: seq<string>, index: nat): (end: nat)
    requires index < |lines|
    ensures index < end <= |lines|
  {
    var item := SkipAttributes(lines, index + 1);
    item + ItemEnd(ItemCodes(lines, item), 0, START)
  }

  /** The ranges from `index` on: non-empty, in bounds, disjoint and in file order. */
  function RangesFrom(lines: seq<string>, index: nat): (ranges: seq<Range>)
    ensures forall i :: 0 <= i < |ranges| ==> index <= ranges[i].start < ranges[i].stop <= |lines|
    ensures forall a, b :: 0 <= a < b < |ranges| ==> ranges[a].stop <= ranges[b].start
    decreases |lines| - index
  {
    if index >= |lines| then []
    else if !IsMarker(lines[index]) then RangesFrom(lines, index + 1)
    else
      var end := EndLine(lines, index);
      [Range(index, if end + 1 <= |lines| then end + 1 else |lines|)] + RangesFrom(lines, end + 1)
  }

  function Span(start: nat, stop: nat): (lines: set<nat>)
    ensures forall k :: k in lines <==> start <= k < stop
    decreases stop - start
  {
    if start >= stop then {} else {start} + Span(start + 1, stop)
  }

  function LinesOf(ranges: seq<Range>): set<nat> {
    if ranges == [] then {}
    else Span(ranges[0].start, ranges[0].stop) + LinesOf(ranges[1..])
  }

  // ------------------------------------------------------------ the loops

  method CountBraces(code: string, before: Braces) returns (after: Braces)
    requires Counting(before)
    ensures after == ScanBraces(code, 0, before)
  {
    var depth, saw := before.depth, before.saw;
    var i := 0;
    while i < |code|
      invariant 0 <= i <= |code| && Counting(Braces(depth, saw))
      invariant ScanBraces(code, i, Braces(depth, saw)) == ScanBraces(code, 0, before)
    {
      var c := code[i];
      if c == '{' {
        saw := true;
        depth := depth + 1;
      } else if c == '}' && saw {
        depth := depth - 1;
        if depth == 0 {
          return Braces(depth, saw);
        }
      } else if c == ';' && !saw {
        return Braces(depth, saw);
      } else if c == ',' && !saw && ':' in code {
        return Braces(depth, saw);
      }
      i := i + 1;
    }
    after := Braces(depth, saw);
  }

  method FindItemEnd(lines: seq<string>, item: nat) returns (end: nat)
    requires item <= |lines|
    ensures end == item + ItemEnd(ItemCodes(lines, item), 0, START)
  {
    ghost var codes := ItemCodes(lines, item);
    var state := new ScanState();
    var braces := START;
    end := item;
    while end < |lines|
      invariant item <= end <= |lines| && Counting(braces)
      invariant fresh(state) && state.Valid() && state.Carried() == ModeBefore(lines[item..], end - item)
      invariant ItemEnd(codes, end - item, braces) == ItemEnd(codes, 0, START)
    {
      assert lines[item..][end - item] == lines[end];
      var code := state.ScanCode(lines[end]);
      assert code == codes[end - item];
      braces := CountBraces(code, braces);
      if braces.saw && braces.depth == 0 {
        break;
      }
      if !braces.saw && HasStop(code) {
        break;
      }
      end := end + 1;
    }
  }

  lemma {:induction false} LinesOfConcat(a: seq<Range>, b: seq<Range>)
    ensures LinesOf(a + b) == LinesOf(a) + LinesOf(b)
  {
    if a == [] {
      assert a + b == b;
    } else {
      assert (a + b)[1..] == a[1..] + b;
      LinesOfConcat(a[1..], b);
    }
  }

  method FindItem(lines: seq<string>, index: nat) returns (item: nat)
    requires index < |lines|
    ensures item == SkipAttributes(lines, index + 1)
  {
    item := index + 1;
    while item < |lines| && IsAttribute(lines[item])
      invariant index + 1 <= item <= |lines|
      invariant SkipAttributes(lines, item) == SkipAttributes(lines, index + 1)
    {
      item := item + 1;
    }
  }

  method FindEndLine(lines: seq<string>, index: nat) returns (end: nat)
    requires index < |lines|
    ensures end == EndLine(lines, index)
  {
    var item := FindItem(lines, index);
    end := FindItemEnd(lines, item);
  }

  lemma MarkerStep(lines: seq<string>, index: nat, end: nat, stop: nat)
    requires index < |lines| && IsMarker(lines[index]) && end == EndLine(lines, index)
    requires stop == if end + 1 <= |lines| then end + 1 else |lines|
    ensures LinesOf(RangesFrom(lines, index)) == Span(index, stop) + LinesOf(RangesFrom(lines, end + 1))
  {
    ghost var first, rest := Range(index, stop), RangesFrom(lines, end + 1);
    RangesAtMarker(lines, index, end, stop);
    LinesOfHead(first, rest);
  }

  lemma RangesAtMarker(lines: seq<string>, index: nat, end: nat, stop: nat)
    requires index < |lines| && IsMarker(lines[index]) && end == EndLine(lines, index)
    requires stop == if end + 1 <= |lines| then end + 1 else |lines|
    ensures RangesFrom(lines, index) == [Range(index, stop)] + RangesFrom(lines, end + 1)
  {
  }

  lemma LinesOfHead(first: Range, rest: seq<Range>)
    ensures LinesOf([first] + rest) == Span(first.start, first.stop) + LinesOf(rest)
  {
    assert ([first] + rest)[1..] == rest;
  }

  /** The whole pass over a file. */
  method TestLines(lines: seq<string>) returns (ranges: set<nat>)
    ensures ranges == LinesOf(RangesFrom(lines, 0))
  {
    ranges := {};
    var index := 0;
    while index < |lines|
      invariant 0 <= index <= |lines| + 1
      invariant ranges + LinesOf(RangesFrom(lines, index)) == LinesOf(RangesFrom(lines, 0))
    {
      if !IsMarker(lines[index]) {
        index := index + 1;
        continue;
      }
      var end := FindEndLine(lines, index);
      var stop := if end + 1 <= |lines| then end + 1 else |lines|;
      MarkerStep(lines, index, end, stop);
      ranges := ranges + Span(index, stop);
      index := if end + 1 >= index + 1 then end + 1 else index + 1;
    }
  }

  // -------------------------------------------------------- range structure

  /** Every range starts at a marker, and every marker line is a test line. */
  lemma MarkersAreCovered(lines: seq<string>, index: nat)
    ensures forall i :: 0 <= i < |RangesFrom(lines, index)| ==>
              var start := RangesFrom(lines, index)[i].start; start < |lines| && IsMarker(lines[start])
    ensures forall k :: index <= k < |lines| && IsMarker(lines[k]) ==> k in LinesOf(RangesFrom(lines, index))
  {
    forall i | 0 <= i < |RangesFrom(lines, index)|
      ensures RangesFrom(lines, index)[i].start < |lines| && IsMarker(lines[RangesFrom(lines, index)[i].start])
    {
      RangeStartsAtMarker(lines, index, i);
    }
    forall k | index <= k < |lines| && IsMarker(lines[k])
      ensures k in LinesOf(RangesFrom(lines, index))
    {
      MarkerIsCovered(lines, index, k);
    }
  }

  lemma {:induction false} RangeStartsAtMarker(lines: seq<string>, index: nat, i: nat)
    requires i < |RangesFrom(lines, index)|
    ensures RangesFrom(lines, index)[i].start < |lines| && IsMarker(lines[RangesFrom(lines, index)[i].start])
    decreases |lines| - index
  {
    if !IsMarker(lines[index]) {
      RangeStartsAtMarker(lines, index + 1, i);
    } else if i > 0 {
      var next := EndLine(lines, index) + 1;
      assert RangesFrom(lines, index)[1..] == RangesFrom(lines, next);
      RangeStartsAtMarker(lines, next, i - 1);
    }
  }

  lemma {:induction false} MarkerIsCovered(lines: seq<string>, index: nat, k: nat)
    requires index <= k < |lines| && IsMarker(lines[k])
    ensures k in LinesOf(RangesFrom(lines, index))
    decreases |lines| - index
  {
    if !IsMarker(lines[index]) {
      MarkerIsCovered(lines, index + 1, k);
    } else {
      var next := EndLine(lines, index) + 1;
      var ranges := RangesFrom(lines, index);
      assert ranges[1..] == RangesFrom(lines, next);
      if k >= ranges[0].stop {
        MarkerIsCovered(lines, next, k);
      }
    }
  }

  lemma {:induction false} LineHasRange(ranges: seq<Range>, k: nat) returns (i: nat)
    requires k in LinesOf(ranges)
    ensures i < |ranges| && ranges[i].start <= k < ranges[i].stop
  {
    if ranges[0].start <= k < ranges[0].stop {
      i := 0;
    } else {
      var j := LineHasRange(ranges[1..], k);
      i := j + 1;
    }
  }

  lemma LinesInBounds(lines: seq<string>, index: nat)
    ensures forall k :: k in LinesOf(RangesFrom(lines, index)) ==> index <= k < |lines|
  {
    forall k | k in LinesOf(RangesFrom(lines, index))
      ensures index <= k < |lines|
    {
      var i := LineHasRange(RangesFrom(lines, index), k);
    }
  }

  lemma {:induction false} LStripDrops(line: string) returns (k: nat)
    ensures k <= |line| && LStrip(line) == line[k..]
    ensures forall j :: 0 <= j < k ==> IsSpace(line[j])
    ensures k < |line| ==> !IsSpace(line[k])
  {
    if line != "" && IsSpace(line[0]) {
      k := LStripDrops(line[1..]);
      k := k + 1;
      assert forall j :: 1 <= j < k ==> line[j] == line[1..][j - 1];
    } else {
      k := 0;
    }
  }

  /** An attribute line is white space and then `#[`. */
  lemma AttributeIff(line: string)
    ensures IsAttribute(line)
            <==> exists k :: 0 <= k <= |line| && MatchesAt(line, "#[", k) && forall j :: 0 <= j < k ==> IsSpace(line[j])
  {
    var k := LStripDrops(line);
    assert MatchesAt(LStrip(line), "#[", 0) <==> MatchesAt(line, "#[", k) by {
      if k + 2 <= |line| {
        assert line[k..][0..2] == line[k..k + 2];
      }
    }
    if m :| 0 <= m <= |line| && MatchesAt(line, "#[", m) && forall j :: 0 <= j < m ==> IsSpace(line[j]) {
      assert line[m] == line[m..m + 2][0] == '#';
      assert m == k;
    }
  }

  lemma {:induction false} AttributesAreSkipped(lines: seq<string>, item: nat)
    requires item <= |lines|
    ensures var next := SkipAttributes(lines, item);
            && (forall k :: item <= k < next ==> IsAttribute(lines[k]))
            && (next < |lines| ==> !IsAttribute(lines[next]))
    decreases |lines| - item
  {
    if item < |lines| && IsAttribute(lines[item]) {
      AttributesAreSkipped(lines, item + 1);
    }
  }

  /**
   The range of a marker reaches from the marker, over the attributes behind it, to the end of the
   first line that is none: the item, whose text is scanned afresh from there.
   */
  lemma MarkedItem(lines: seq<string>, index: nat) returns (item: nat, codes: seq<string>)
    requires index < |lines| && IsMarker(lines[index])
    ensures index < item <= |lines|
    ensures forall k :: index < k < item ==> IsAttribute(lines[k])
    ensures item < |lines| ==> !IsAttribute(lines[item])
    ensures |codes| == |lines| - item && forall j :: 0 <= j < |codes| ==> codes[j] == CodeOfLine(lines[item..], j)
    ensures var ranges := RangesFrom(lines, index);
            && ranges != [] && ranges[0].start == index
            && ranges[0].stop == Least(item + ItemEnd(codes, 0, START) + 1, |lines|)
            && ranges[1..] == RangesFrom(lines, item + ItemEnd(codes, 0, START) + 1)
  {
    item := SkipAttributes(lines, index + 1);
    codes := ItemCodes(lines, item);
    AttributesAreSkipped(lines, index + 1);
    RangesAtMarker(lines, index, EndLine(lines, index), Least(EndLine(lines, index) + 1, |lines|));
  }

  /** Opening minus closing braces. */
  function Balance(text: string): int {
    if text == "" then 0
    else
      Balance(text[..|text| - 1])
      + (if text[|text| - 1] == '{' then 1 else if text[|text| - 1] == '}' then -1 else 0)
  }

  lemma BalanceStep(code: string, from: nat, q: nat)
    requires from <= q < |code|
    ensures Balance(code[from..q + 1])
            == Balance(code[from..q]) + (if code[q] == '{' then 1 else if code[q] == '}' then -1 else 0)
  {
    assert code[from..q + 1][..q - from] == code[from..q];
  }

  lemma {:induction false} BalanceConcat(a: string, b: string)
    ensures Balance(a + b) == Balance(a) + Balance(b)
    decreases |b|
  {
    if b == "" {
      assert a + b == a;
    } else {
      assert (a + b)[..|a + b| - 1] == a + b[..|b| - 1];
      BalanceConcat(a, b[..|b| - 1]);
    }
  }

  /** The brace at `p` opens the item: nothing before it on the line ends the item early. */
  predicate Opens(code: string, p: nat) {
    && p < |code| && code[p] == '{'
    && forall k :: 0 <= k < p ==>
         code[k] != '{' && code[k] != ';' && (code[k] == ',' ==> ':' !in code)
  }

  predicate OpensSomewhere(code: string) {
    exists p :: 0 <= p < |code| && Opens(code, p)
  }

  /** A line the search reads past before the item's first brace. */
  predicate IsQuiet(code: string) {
    !OpensSomewhere(code) && !HasStop(code)
  }

  lemma {:induction false} BracesBeforeOpening(code: string, i: nat, p: nat)
    requires i <= p && Opens(code, p)
    ensures ScanBraces(code, i, START) == ScanBraces(code, p + 1, Braces(1, true))
    decreases p - i
  {
    if i < p {
      BracesBeforeOpening(code, i + 1, p);
    }
  }

  lemma {:induction false} BracesNeverOpen(code: string, i: nat)
    requires i <= |code| && !OpensSomewhere(code)
    requires forall k :: 0 <= k < i ==> code[k] != '{' && code[k] != ';' && (code[k] == ',' ==> ':' !in code)
    ensures ScanBraces(code, i, START) == START
    decreases |code| - i
  {
    if i < |code| {
      if code[i] == '{' {
        assert Opens(code, i);
        assert false;
      } else if code[i] != ';' && !(code[i] == ',' && ':' in code) {
        BracesNeverOpen(code, i + 1);
      }
    }
  }

  /** Inside the item: the depth is the balance so far, until that balance is zero at `q`. */
  lemma {:induction false} BracesInside(code: string, from: nat, i: nat, depth: nat) returns (q: nat)
    requires from <= i <= |code| && depth as int + Balance(code[from..i]) >= 1
    ensures var now := depth as int + Balance(code[from..i]);
            var r := ScanBraces(code, i, Braces(now, true));
            && r.saw
            && i <= q <= |code|
            && (r.depth == 0 ==> i < q && depth as int + Balance(code[from..q]) == 0)
            && (r.depth > 0 ==> r.depth == depth as int + Balance(code[from..|code|])
                                && forall c :: i <= c <= |code| ==> depth as int + Balance(code[from..c]) >= 1)
    decreases |code| - i
  {
    q := i;
    if i < |code| {
      BalanceStep(code, from, i);
      if depth as int + Balance(code[from..i + 1]) >= 1 {
        q := BracesInside(code, from, i + 1, depth);
      } else {
        q := i + 1;
      }
    }
  }

  /** The scanned text from column `p` of line `first` to column `q` of line `j`. */
  function Between(codes: seq<string>, first: nat, p: nat, j: nat, q: nat): string
    requires first <= j < |codes| && p <= |codes[first]| && q <= |codes[j]| && (first == j ==> p <= q)
    decreases j
  {
    if j == first then codes[first][p..q]
    else Between(codes, first, p, j - 1, |codes[j - 1]|) + codes[j][..q]
  }

  /** Past the opening brace, the column a balance is taken at. */
  predicate Column(codes: seq<string>, first: nat, p: nat, j: nat, q: nat) {
    && first <= j < |codes| && p < |codes[first]| && q <= |codes[j]| && (first == j ==> p < q)
  }

  lemma LineBalance(codes: seq<string>, first: nat, p: nat, j: nat, q: nat)
    requires first < j < |codes| && p < |codes[first]| && q <= |codes[j]|
    ensures Balance(Between(codes, first, p, j, q))
            == Balance(Between(codes, first, p, j - 1, |codes[j - 1]|)) + Balance(codes[j][0..q])
  {
    assert codes[j][..q] == codes[j][0..q];
    BalanceConcat(Between(codes, first, p, j - 1, |codes[j - 1]|), codes[j][0..q]);
  }

  lemma {:induction false} OpenItemEnds(codes: seq<string>, first: nat, p: nat, j: nat, depth: nat)
    returns (q: nat)
    requires first < j <= |codes| && p < |codes[first]|
    requires depth >= 1 && depth == Balance(Between(codes, first, p, j - 1, |codes[j - 1]|))
    ensures var end := ItemEnd(codes, j, Braces(depth, true));
            && (end < |codes| ==> q <= |codes[end]| && Balance(Between(codes, first, p, end, q)) == 0)
            && (forall k: nat, c: nat :: j <= k < end && Column(codes, first, p, k, c) ==>
                  Balance(Between(codes, first, p, k, c)) >= 1)
    decreases |codes| - j
  {
    q := 0;
    if j < |codes| {
      var code := codes[j];
      var r := ScanBraces(code, 0, Braces(depth, true));
      assert code[0..0] == "";
      q := BracesInside(code, 0, 0, depth);
      if r.depth > 0 {
        LineBalance(codes, first, p, j, |code|);
        q := OpenItemEnds(codes, first, p, j + 1, r.depth);
        forall c: nat | c <= |code| ensures Balance(Between(codes, first, p, j, c)) >= 1 {
          LineBalance(codes, first, p, j, c);
        }
      } else {
        LineBalance(codes, first, p, j, q);
      }
    }
  }

  lemma {:induction false} QuietLinesArePassed(codes: seq<string>, j: nat, first: nat)
    requires j <= first <= |codes|
    requires forall k :: j <= k < first ==> IsQuiet(codes[k])
    ensures ItemEnd(codes, j, START) == ItemEnd(codes, first, START)
    decreases first - j
  {
    if j < first {
      BracesNeverOpen(codes[j], 0);
      QuietLinesArePassed(codes, j + 1, first);
    }
  }

  /**
   An item whose first brace comes before any early stop ends on the first line where
   its brace depth returns to zero, or at the end of the file if it never does.
   */
  lemma ItemEndsWhereBracesBalance(codes: seq<string>, first: nat, p: nat) returns (end: nat, q: nat)
    requires first < |codes| && Opens(codes[first], p)
    requires forall k :: 0 <= k < first ==> IsQuiet(codes[k])
    ensures end == ItemEnd(codes, 0, START) && first <= end <= |codes|
    ensures end < |codes| ==> Column(codes, first, p, end, q) && Balance(Between(codes, first, p, end, q)) == 0
    ensures forall k: nat, c: nat :: first <= k < end && Column(codes, first, p, k, c) ==>
              Balance(Between(codes, first, p, k, c)) >= 1
  {
    end := ItemEnd(codes, 0, START);
    QuietLinesArePassed(codes, 0, first);
    var code := codes[first];
    BracesBeforeOpening(code, 0, p);
    assert code[p..p] == "";
    BalanceStep(code, p, p);
    q := BracesInside(code, p, p + 1, 0);
    var r := ScanBraces(code, 0, START);
    if r.depth > 0 {
      q := OpenItemEnds(codes, first, p, first + 1, r.depth);
      forall c | p < c <= |code| ensures Balance(Between(codes, first, p, first, c)) >= 1 {
      }
    }
  }

  /** Without an opening brace the item ends on its first line with a `;` or a `,`. */
  lemma ItemEndsAtEarlyStop(codes: seq<string>, first: nat)
    requires first <= |codes|
    requires forall k :: 0 <= k < first ==> IsQuiet(codes[k])
    requires first < |codes| ==> !OpensSomewhere(codes[first]) && HasStop(codes[first])
    ensures ItemEnd(codes, 0, START) == first
  {
    QuietLinesArePassed(codes, 0, first);
    if first < |codes| {
      BracesNeverOpen(codes[first], 0);
    }
  }

  /** A signature with two typed parameters ends its item before the body. */
  lemma TwoParametersStopEarly()
    ensures ItemEnd(["fn f(a: u8, b: u8) {", "}"], 0, START) == 0
  {
    var codes := ["fn f(a: u8, b: u8) {", "}"];
    assert codes[0][6] == ':' && codes[0][10] == ',' && codes[0][19] == '{';
    assert !OpensSomewhere(codes[0]);
    ItemEndsAtEarlyStop(codes, 0);
  }
}
