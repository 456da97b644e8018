/**
 The line scanner that blanks Rust comments and strings. The program skips ahead
 with `find`; its specification is an automaton that reads one character at a time.
 The scanner does not nest block comments, and an escape does not reach past a line.
 */
module Scanner {
  import opened Text
  import opened Wrappers

  /** What the automaton is inside of when it reads the next character. */
  datatype Mode =
    | Code
    | LineComment
    | Block(star: bool)                            // the character before was a '*' of the comment
    | Quoted(quote: char, escaped: bool)
    | Raw(hashes: nat, matched: Option<nat>)       // a '"' and this many '#' were just read
    | Skip(left: nat, after: Mode)                  // the rest of an opener already recognised

  datatype RawOpening = RawOpening(hashes: nat, length: nat)

  function HashRun(line: string, i: nat): (n: nat)
    requires i <= |line|
    ensures i + n <= |line|
    ensures forall j :: i <= j < i + n ==> line[j] == '#'
    ensures i + n < |line| ==> line[i + n] != '#'
    decreases |line| - i
  {
    if i < |line| && line[i] == '#' then 1 + HashRun(line, i + 1) else 0
  }

  /** The anchored pattern: an optional b, an r, hashes, and a double quote. */
  function RawOpener(line: string, i: nat): (opening: Option<RawOpening>)
    requires i < |line|
    ensures opening.Some? ==> opening.value.length >= 2 && i + opening.value.length <= |line|
  {
    var r := if line[i] == 'b' then i + 1 else i;
    if r < |line| && line[r] == 'r' then
      var n := HashRun(line, r + 1);
      var q := r + 1 + n;
      if q < |line| && line[q] == '"' then Some(RawOpening(n, q + 1 - i)) else None
    else None
  }

  /** A quote that opens a character literal rather than a lifetime. */
  predicate OpensCharLiteral(line: string, i: nat)
    requires i < |line|
  {
    && line[i] == '\''
    && i + 1 < |line|
    && (line[i + 1] == '\\' || (i + 2 < |line| && line[i + 2] == '\''))
  }

  predicate Emits(line: string, i: nat, mode: Mode)
    requires i < |line|
  {
    mode.Code? && Next(line, i, mode).Code?
  }

  /** One character. Only openers look ahead, and never past the line. */
  function Next(line: string, i: nat, mode: Mode): Mode
    requires i < |line|
  {
    var c := line[i];
    match mode
    case Code =>
      if MatchesAt(line, "//", i) then LineComment
      else if MatchesAt(line, "/*", i) then Skip(1, Block(false))
      else
        var raw := RawOpener(line, i);
        if raw.Some? then Skip(raw.value.length - 1, Raw(raw.value.hashes, None))
        else if c == '"' || OpensCharLiteral(line, i) then Quoted(c, false)
        else Code
    case LineComment => LineComment
    case Block(star) => if star && c == '/' then Code else Block(c == '*')
    case Quoted(quote, escaped) =>
      if escaped then Quoted(quote, false)
      else if c == '\\' then Quoted(quote, true)
      else if c == quote then Code
      else mode
    case Raw(hashes, matched) =>
      var now := if c == '"' then Some(0)
                 else if c == '#' && matched.Some? then Some(matched.value + 1)
                 else None;
      if now == Some(hashes) then Code else Raw(hashes, now)
    case Skip(left, after) => if left <= 1 then after else Skip(left - 1, after)
  }

  datatype Lexed = Lexed(out: string, mode: Mode)

  function Lex(line: string, i: nat, mode: Mode): Lexed
    requires i <= |line|
    decreases |line| - i
  {
    if i == |line| then Lexed("", mode)
    else
      var rest := Lex(line, i + 1, Next(line, i, mode));
      Lexed(if Emits(line, i, mode) then [line[i]] + rest.out else rest.out, rest.mode)
  }

  /** What survives a line end: half-read terminators and escapes do not. */
  function EndOfLine(mode: Mode): Mode {
    match mode
    case Block(_) => Block(false)
    case Quoted(quote, _) => Quoted(quote, false)
    case Raw(hashes, _) => Raw(hashes, None)
    case _ => Code
  }

  // ------------------------------------------------ the scanner's own state

  /** The dictionary `_scan_code` carries from line to line. */
  class ScanState {
    var blockComment: bool
    var quote: Option<char>
    var rawHashes: Option<nat>

    constructor ()
      ensures Valid() && Carried() == Code
    {
      blockComment, quote, rawHashes := false, None, None;
    }

    /** At most one construct is open. */
    predicate Valid()
      reads this
    {
      Exclusive(blockComment, quote, rawHashes)
    }

    function Carried(): Mode
      reads this
    {
      Open(blockComment, quote, rawHashes, false)
    }

    /** Scans one line, carrying what is still open to the next line. */
    method ScanCode(line: string) returns (code: string)
      requires Valid()
      modifies this
      ensures Valid()
      ensures code == Lex(line, 0, old(Carried())).out
      ensures Carried() == EndOfLine(Lex(line, 0, old(Carried())).mode)
    {
      var scanned := ScanLine(line, blockComment, quote, rawHashes);
      code := scanned.code;
      blockComment, quote, rawHashes := scanned.inBlock, scanned.openQuote, scanned.hashes;
    }
  }

  /** The scanner's locals when its loop ends. */
  datatype Scanned = Scanned(code: string, inBlock: bool, openQuote: Option<char>, hashes: Option<nat>)

  /** Past the end of the block comment, if it ends on this line. */
  method SkipBlock(line: string, index: nat, code: string, ghost whole: Lexed) returns (next: Option<nat>)
    requires Refines(line, index, code, Block(false), whole)
    ensures next.None? ==> Refines(line, |line|, code, Block(false), whole)
    ensures next.Some? ==> index < next.value && Refines(line, next.value, code, Code, whole)
  {
    var end := Find(line, "*/", index);
    BlockJump(line, index, end, code, whole);
    next := if end < 0 then None else Some(end + 2);
  }

  /** Past the terminator of the raw string, if it ends on this line. */
  method SkipRaw(line: string, index: nat, hashes: nat, code: string, ghost whole: Lexed)
    returns (next: Option<nat>)
    requires Refines(line, index, code, Raw(hashes, None), whole)
    ensures next.None? ==> Refines(line, |line|, code, Raw(hashes, None), whole)
    ensures next.Some? ==> index < next.value && Refines(line, next.value, code, Code, whole)
  {
    var terminator := Terminator(hashes);
    var end := Find(line, terminator, index);
    RawJump(line, index, hashes, end, code, whole);
    next := if end < 0 then None else Some(end + |terminator|);
  }

  /** What one look at a code position leaves. */
  datatype Step = Step(index: nat, code: string, inBlock: bool, openQuote: Option<char>, hashes: Option<nat>)

  /** The part of the loop body for a code position that does not start a line comment. */
  method ScanCodeCharacter(line: string, index: nat, code: string, ghost whole: Lexed) returns (step: Step)
    requires index < |line| && Refines(line, index, code, Code, whole) && !MatchesAt(line, "//", index)
    ensures index < step.index <= |line| && Exclusive(step.inBlock, step.openQuote, step.hashes)
    ensures Refines(line, step.index, step.code, Open(step.inBlock, step.openQuote, step.hashes, false), whole)
  {
    if MatchesAt(line, "/*", index) {
      BlockOpenStep(line, index, code, whole);
      return Step(index + 2, code, true, None, None);
    }
    var raw := RawOpener(line, index);
    PlainStep(line, index, raw, code, whole);
    if raw.Some? {
      return Step(index + raw.value.length, code, false, None, Some(raw.value.hashes));
    }
    var c := line[index];
    if c == '"' || OpensCharLiteral(line, index) {
      return Step(index + 1, code, false, Some(c), None);
    }
    step := Step(index + 1, code + [c], false, None, None);
  }

  /** The scanning loop of one line, over local copies of the carried state. */
  method ScanLine(line: string, blockComment: bool, quote: Option<char>, rawHashes: Option<nat>)
    returns (scanned: Scanned)
    requires Exclusive(blockComment, quote, rawHashes)
    ensures Exclusive(scanned.inBlock, scanned.openQuote, scanned.hashes)
    ensures var whole := Lex(line, 0, Open(blockComment, quote, rawHashes, false));
            && scanned.code == whole.out
            && Open(scanned.inBlock, scanned.openQuote, scanned.hashes, false) == EndOfLine(whole.mode)
  {
    var code, index := "", 0;
    var inBlock, openQuote, hashes := blockComment, quote, rawHashes;
    var escaped := false;
    ghost var whole := Lex(line, 0, Open(blockComment, quote, rawHashes, false));
    ghost var mode := Open(blockComment, quote, rawHashes, false);
    while index < |line|
      invariant 0 <= index <= |line|
      invariant Exclusive(inBlock, openQuote, hashes)
      invariant openQuote.None? ==> !escaped
      invariant mode == Open(inBlock, openQuote, hashes, escaped)
      invariant Refines(line, index, code, mode, whole)
    {
      if inBlock {
        var next := SkipBlock(line, index, code, whole);
        if next.None? {
          index := |line|;
          break;
        }
        inBlock, mode := false, Code;
        index := next.value;
        continue;
      }
      if hashes.Some? {
        var next := SkipRaw(line, index, hashes.value, code, whole);
        if next.None? {
          index := |line|;
          break;
        }
        hashes, mode := None, Code;
        index := next.value;
        continue;
      }
      if openQuote.Some? {
        QuotedStep(line, index, openQuote.value, escaped, code, whole);
        var c := line[index];
        mode := AfterQuoted(openQuote.value, escaped, c);
        if escaped {
          escaped := false;
        } else if c == '\\' {
          escaped := true;
        } else if c == openQuote.value {
          openQuote := None;
        }
        index := index + 1;
        continue;
      }
      if MatchesAt(line, "//", index) {
        CommentStep(line, index, code, whole);
        break;
      }
      var step := ScanCodeCharacter(line, index, code, whole);
      inBlock, openQuote, hashes := step.inBlock, step.openQuote, step.hashes;
      mode := Open(inBlock, openQuote, hashes, false);
      code := step.code;
      index := step.index;
    }
    scanned := Scanned(code, inBlock, openQuote, hashes);
  }

  predicate Exclusive(blockComment: bool, quote: Option<char>, rawHashes: Option<nat>) {
    && !(blockComment && (quote.Some? || rawHashes.Some?))
    && !(quote.Some? && rawHashes.Some?)
  }

  function Open(blockComment: bool, quote: Option<char>, rawHashes: Option<nat>, escaped: bool): Mode {
    if blockComment then Block(false)
    else if rawHashes.Some? then Raw(rawHashes.value, None)
    else if quote.Some? then Quoted(quote.value, escaped)
    else Code
  }

  /** The part already scanned, continued by the automaton, is the automaton's whole run. */
  ghost predicate Refines(line: string, index: nat, code: string, mode: Mode, whole: Lexed) {
    && index <= |line|
    && code + Lex(line, index, mode).out == whole.out
    && EndOfLine(Lex(line, index, mode).mode) == EndOfLine(whole.mode)
  }

  lemma SilentStep(line: string, index: nat, code: string, mode: Mode, next: Mode, whole: Lexed)
    requires Refines(line, index, code, mode, whole) && index < |line|
    requires Next(line, index, mode) == next && !(mode.Code? && next.Code?)
    ensures Refines(line, index + 1, code, next, whole)
  {
    assert "" + Lex(line, index + 1, next).out == Lex(line, index + 1, next).out;
  }

  lemma CodeStep(line: string, index: nat, code: string, whole: Lexed)
    requires Refines(line, index, code, Code, whole) && index < |line|
    requires Next(line, index, Code) == Code
    ensures Refines(line, index + 1, code + [line[index]], Code, whole)
  {
    var rest := Lex(line, index + 1, Code).out;
    assert code + ([line[index]] + rest) == (code + [line[index]]) + rest;
  }

  function Hashes(n: nat): (s: string)
    ensures |s| == n && forall i :: 0 <= i < n ==> s[i] == '#'
  {
    seq(n, i => '#')
  }

  function Terminator(hashes: nat): string {
    "\"" + Hashes(hashes)
  }

  /** `str.find`: the first occurrence at or after `from`, or -1. */
  method Find(line: string, pattern: string, from: nat) returns (at: int)
    requires from <= |line|
    ensures at == -1 || at >= from
    ensures at == -1 ==> forall j :: from <= j <= |line| ==> !MatchesAt(line, pattern, j)
    ensures at >= from ==> MatchesAt(line, pattern, at)
    ensures at >= from ==> forall j :: from <= j < at ==> !MatchesAt(line, pattern, j)
  {
    at := from;
    while at <= |line|
      invariant from <= at <= |line| + 1
      invariant forall j :: from <= j < at ==> !MatchesAt(line, pattern, j)
    {
      if MatchesAt(line, pattern, at) {
        return;
      }
      at := at + 1;
    }
    at := -1;
  }

  // ------------------------------------------- skipping agrees with reading

  lemma {:induction false} OpenerSkips(line: string, i: nat, left: nat, after: Mode)
    requires 1 <= left && i + left <= |line|
    ensures Lex(line, i, Skip(left, after)) == Lex(line, i + left, after)
    decreases left
  {
    if left > 1 {
      OpenerSkips(line, i + 1, left - 1, after);
    }
  }

  lemma {:induction false} CommentSkips(line: string, i: nat)
    requires i <= |line|
    ensures Lex(line, i, LineComment) == Lexed("", LineComment)
    decreases |line| - i
  {
    if i < |line| {
      CommentSkips(line, i + 1);
    }
  }

  /** The automaton inside a block comment, `from` on, having read up to `k`. */
  function BlockAt(line: string, from: nat, k: nat): Mode
    requires from <= k <= |line|
  {
    Block(k > from && line[k - 1] == '*')
  }

  lemma {:induction false} BlockRuns(line: string, from: nat, k: nat, end: int)
    requires from <= k <= |line|
    requires end == -1 || (from <= end && k <= end + 1 && MatchesAt(line, "*/", end))
    requires forall j :: from <= j <= |line| && (end == -1 || j < end) ==> !MatchesAt(line, "*/", j)
    ensures end == -1 ==> Lex(line, k, BlockAt(line, from, k)).out == ""
                          && Lex(line, k, BlockAt(line, from, k)).mode.Block?
    ensures end != -1 ==> Lex(line, k, BlockAt(line, from, k)) == Lex(line, end + 2, Code)
    decreases |line| - k
  {
    if k < |line| && (end == -1 || k < end + 1) {
      if k > from {
        assert line[k - 1..k - 1 + 2] == [line[k - 1], line[k]];
        assert MatchesAt(line, "*/", k - 1) <==> line[k - 1] == '*' && line[k] == '/';
      }
      BlockRuns(line, from, k + 1, end);
    } else if end != -1 {
      assert line[end..end + 2] == "*/";
      assert line[end] == '*' && line[end + 1] == '/';
    }
  }

  lemma BlockSkips(line: string, index: nat, end: int)
    requires index <= |line|
    requires end == -1 || (index <= end && MatchesAt(line, "*/", end))
    requires forall j :: index <= j <= |line| && (end == -1 || j < end) ==> !MatchesAt(line, "*/", j)
    ensures end == -1 ==> Lex(line, index, Block(false)).out == "" && Lex(line, index, Block(false)).mode.Block?
    ensures end != -1 ==> end + 2 <= |line| && Lex(line, index, Block(false)) == Lex(line, end + 2, Code)
  {
    BlockRuns(line, index, index, end);
  }

  /** How much of a raw-string terminator ends just before `k`. */
  function RawMatched(line: string, from: nat, k: nat): (m: Option<nat>)
    requires from <= k <= |line|
    ensures m.Some? ==> from + m.value + 1 <= k && line[k - 1 - m.value] == '"'
    ensures m.Some? ==> forall j :: k - m.value <= j < k ==> line[j] == '#'
  {
    if k == from then None
    else if line[k - 1] == '"' then Some(0)
    else if line[k - 1] == '#' && RawMatched(line, from, k - 1).Some? then
      Some(RawMatched(line, from, k - 1).value + 1)
    else None
  }

  lemma {:induction false} RawMatchedAfter(line: string, from: nat, at: nat, n: nat)
    requires from <= at && at + 1 + n <= |line| && line[at] == '"'
    requires forall j :: at < j < at + 1 + n ==> line[j] == '#'
    ensures RawMatched(line, from, at + 1 + n) == Some(n)
  {
    if n > 0 {
      RawMatchedAfter(line, from, at, n - 1);
    }
  }

  lemma TerminatorAt(line: string, hashes: nat, at: nat)
    ensures MatchesAt(line, Terminator(hashes), at)
            <==> && at + 1 + hashes <= |line|
                 && line[at] == '"'
                 && forall j :: at < j < at + 1 + hashes ==> line[j] == '#'
  {
    var t := Terminator(hashes);
    assert |t| == 1 + hashes;
    if at + |t| <= |line| {
      var found := line[at..at + |t|];
      if MatchesAt(line, t, at) {
        forall j | at < j < at + 1 + hashes ensures line[j] == '#' {
          assert line[j] == found[j - at] == t[j - at];
        }
        assert line[at] == found[0] == t[0];
      }
      if line[at] == '"' && forall j :: at < j < at + 1 + hashes ==> line[j] == '#' {
        assert found == t;
      }
    }
  }

  /** A terminator is complete at `k` exactly if it is the one found. */
  lemma RawClosesAtEnd(line: string, from: nat, k: nat, hashes: nat, end: int)
    requires from <= k < |line|
    requires end == -1 || (from <= end && k <= end + hashes && MatchesAt(line, Terminator(hashes), end))
    requires forall j :: from <= j <= |line| && (end == -1 || j < end) ==> !MatchesAt(line, Terminator(hashes), j)
    ensures RawMatched(line, from, k + 1) == Some(hashes) <==> end != -1 && k == end + hashes
  {
    if end != -1 {
      TerminatorAt(line, hashes, end);
      if k == end + hashes {
        RawMatchedAfter(line, from, end, hashes);
      }
    }
    if RawMatched(line, from, k + 1) == Some(hashes) {
      TerminatorAt(line, hashes, k - hashes);
    }
  }

  lemma RawStep(line: string, from: nat, k: nat, hashes: nat)
    requires from <= k < |line|
    ensures var now := RawMatched(line, from, k + 1);
            Lex(line, k, Raw(hashes, RawMatched(line, from, k)))
            == Lex(line, k + 1, if now == Some(hashes) then Code else Raw(hashes, now))
  {
  }

  lemma {:induction false} RawRuns(line: string, from: nat, k: nat, hashes: nat, end: int)
    requires from <= k <= |line|
    requires end == -1 || (from <= end && k <= end + hashes && MatchesAt(line, Terminator(hashes), end))
    requires forall j :: from <= j <= |line| && (end == -1 || j < end) ==> !MatchesAt(line, Terminator(hashes), j)
    ensures var run := Lex(line, k, Raw(hashes, RawMatched(line, from, k)));
            if end == -1 then run.out == "" && run.mode.Raw? && run.mode.hashes == hashes
            else end + 1 + hashes <= |line| && run == Lex(line, end + 1 + hashes, Code)
    decreases |line| - k
  {
    if end != -1 {
      TerminatorAt(line, hashes, end);
    }
    if k < |line| {
      RawStep(line, from, k, hashes);
      RawClosesAtEnd(line, from, k, hashes, end);
      if RawMatched(line, from, k + 1) != Some(hashes) {
        RawRuns(line, from, k + 1, hashes, end);
      }
    }
  }

  lemma RawSkips(line: string, index: nat, hashes: nat, end: int)
    requires index <= |line|
    requires end == -1 || (index <= end && MatchesAt(line, Terminator(hashes), end))
    requires forall j :: index <= j <= |line| && (end == -1 || j < end) ==> !MatchesAt(line, Terminator(hashes), j)
    ensures var run := Lex(line, index, Raw(hashes, None));
            if end == -1 then run.out == "" && run.mode.Raw? && run.mode.hashes == hashes
            else end + 1 + hashes <= |line| && run == Lex(line, end + 1 + hashes, Code)
  {
    RawRuns(line, index, index, hashes, end);
  }

  // --------------------------------- each branch of the loop keeps `Refines`

  lemma BlockJump(line: string, index: nat, end: int, code: string, whole: Lexed)
    requires Refines(line, index, code, Block(false), whole)
    requires end == -1 || (index <= end && MatchesAt(line, "*/", end))
    requires forall j :: index <= j <= |line| && (end == -1 || j < end) ==> !MatchesAt(line, "*/", j)
    ensures if end == -1 then Refines(line, |line|, code, Block(false), whole)
            else Refines(line, end + 2, code, Code, whole)
  {
    BlockSkips(line, index, end);
  }

  lemma RawJump(line: string, index: nat, hashes: nat, end: int, code: string, whole: Lexed)
    requires Refines(line, index, code, Raw(hashes, None), whole)
    requires end == -1 || (index <= end && MatchesAt(line, Terminator(hashes), end))
    requires forall j :: index <= j <= |line| && (end == -1 || j < end) ==> !MatchesAt(line, Terminator(hashes), j)
    ensures if end == -1 then Refines(line, |line|, code, Raw(hashes, None), whole)
            else Refines(line, end + |Terminator(hashes)|, code, Code, whole)
  {
    RawSkips(line, index, hashes, end);
    assert |Terminator(hashes)| == 1 + hashes;
  }

  function AfterQuoted(quote: char, escaped: bool, c: char): Mode {
    if escaped then Quoted(quote, false)
    else if c == '\\' then Quoted(quote, true)
    else if c == quote then Code
    else Quoted(quote, false)
  }

  lemma QuotedStep(line: string, index: nat, quote: char, escaped: bool, code: string, whole: Lexed)
    requires index < |line| && Refines(line, index, code, Quoted(quote, escaped), whole)
    ensures Refines(line, index + 1, code, AfterQuoted(quote, escaped, line[index]), whole)
  {
    SilentStep(line, index, code, Quoted(quote, escaped), Next(line, index, Quoted(quote, escaped)), whole);
  }

  lemma CommentStep(line: string, index: nat, code: string, whole: Lexed)
    requires index < |line| && Refines(line, index, code, Code, whole) && MatchesAt(line, "//", index)
    ensures code == whole.out && EndOfLine(whole.mode) == Code
  {
    SilentStep(line, index, code, Code, LineComment, whole);
    CommentSkips(line, index + 1);
  }

  lemma BlockOpenStep(line: string, index: nat, code: string, whole: Lexed)
    requires index < |line| && Refines(line, index, code, Code, whole) && MatchesAt(line, "/*", index)
    ensures Refines(line, index + 2, code, Block(false), whole)
  {
    assert line[index..index + 2] == "/*";
    assert !MatchesAt(line, "//", index);
    SilentStep(line, index, code, Code, Skip(1, Block(false)), whole);
    OpenerSkips(line, index + 1, 1, Block(false));
  }

  lemma PlainStep(line: string, index: nat, raw: Option<RawOpening>, code: string, whole: Lexed)
    requires index < |line| && Refines(line, index, code, Code, whole)
    requires !MatchesAt(line, "//", index) && !MatchesAt(line, "/*", index) && raw == RawOpener(line, index)
    ensures if raw.Some? then
              Refines(line, index + raw.value.length, code, Raw(raw.value.hashes, None), whole)
            else if line[index] == '"' || OpensCharLiteral(line, index) then
              Refines(line, index + 1, code, Quoted(line[index], false), whole)
            else
              Refines(line, index + 1, code + [line[index]], Code, whole)
  {
    var next := Next(line, index, Code);
    if raw.Some? {
      SilentStep(line, index, code, Code, next, whole);
      OpenerSkips(line, index + 1, raw.value.length - 1, Raw(raw.value.hashes, None));
    } else if line[index] == '"' || OpensCharLiteral(line, index) {
      SilentStep(line, index, code, Code, next, whole);
    } else {
      CodeStep(line, index, code, whole);
    }
  }

  // ------------------------------------------------------------ whole files

  /** What is open when line `k` of a file begins. */
  function ModeBefore(lines: seq<string>, k: nat): Mode
    requires k <= |lines|
  {
    if k == 0 then Code else EndOfLine(Lex(lines[k - 1], 0, ModeBefore(lines, k - 1)).mode)
  }

  function CodeOfLine(lines: seq<string>, k: nat): string
    requires k < |lines|
  {
    Lex(lines[k], 0, ModeBefore(lines, k)).out
  }

  /** The characters `str.strip` removes. */
  predicate IsSpace(c: char) {
    var n := c as int;
    || 9 <= n <= 13 || 28 <= n <= 32 || n == 0x85 || n == 0xA0 || n == 0x1680
    || 0x2000 <= n <= 0x200A || n == 0x2028 || n == 0x2029 || n == 0x202F || n == 0x205F || n == 0x3000
  }

  predicate HasCode(code: string) {
    exists i :: 0 <= i < |code| && !IsSpace(code[i])
  }

  function EffectiveLines(lines: seq<string>): set<nat> {
    set k | 0 <= k < |lines| && HasCode(CodeOfLine(lines, k))
  }

  /** The lines that hold Rust code outside comments, for any sequence of lines. */
  method EffectiveCodeLineIndices(lines: seq<string>) returns (indices: set<nat>)
    ensures indices == EffectiveLines(lines)
  {
    var state := new ScanState();
    indices := {};
    var index := 0;
    while index < |lines|
      invariant 0 <= index <= |lines|
      invariant fresh(state) && state.Valid() && state.Carried() == ModeBefore(lines, index)
      invariant indices == set k | 0 <= k < index && HasCode(CodeOfLine(lines, k))
    {
      var code := state.ScanCode(lines[index]);
      if HasCode(code) {
        indices := indices + {index};
      }
      index := index + 1;
    }
  }

  // --------------------------------------------------------- code positions

  function ModeAt(line: string, start: Mode, i: nat): Mode
    requires i <= |line|
  {
    if i == 0 then start else Next(line, i - 1, ModeAt(line, start, i - 1))
  }

  /** Which characters of the line the automaton reads as code. */
  function CodeMarks(line: string, start: Mode): seq<bool> {
    seq(|line|, p requires 0 <= p < |line| => Emits(line, p, ModeAt(line, start, p)))
  }

  /** The marked characters, each once, in order. */
  function Select(text: string, marks: seq<bool>, i: nat): string
    requires |marks| == |text| && i <= |text|
    decreases |text| - i
  {
    if i == |text| then ""
    else if marks[i] then [text[i]] + Select(text, marks, i + 1)
    else Select(text, marks, i + 1)
  }

  lemma LexUnfolds(line: string, i: nat, mode: Mode)
    requires i < |line|
    ensures var rest := Lex(line, i + 1, Next(line, i, mode)).out;
            Lex(line, i, mode).out == if Emits(line, i, mode) then [line[i]] + rest else rest
  {
  }

  lemma MarkAt(line: string, start: Mode, i: nat)
    requires i < |line|
    ensures CodeMarks(line, start)[i] == Emits(line, i, ModeAt(line, start, i))
    ensures ModeAt(line, start, i + 1) == Next(line, i, ModeAt(line, start, i))
  {
  }

  /** What the automaton still prints from each position on. */
  function Outs(line: string, start: Mode): (outs: seq<string>)
    ensures |outs| == |line| + 1 && outs[|line|] == ""
  {
    seq(|line| + 1, k requires 0 <= k <= |line| => Lex(line, k, ModeAt(line, start, k)).out)
  }

  predicate AddsOwn(text: string, marks: seq<bool>, outs: seq<string>, k: nat)
    requires |marks| == |text| && |outs| == |text| + 1 && k < |text|
  {
    outs[k] == if marks[k] then [text[k]] + outs[k + 1] else outs[k + 1]
  }

  lemma OutsAt(line: string, start: Mode, k: nat, out: string)
    requires k <= |line| && out == Lex(line, k, ModeAt(line, start, k)).out
    ensures Outs(line, start)[k] == out
  {
  }

  lemma AddsOwnBy(text: string, marks: seq<bool>, outs: seq<string>, k: nat, mark: bool, out: string, rest: string)
    requires |marks| == |text| && |outs| == |text| + 1 && k < |text|
    requires marks[k] == mark && outs[k] == out && outs[k + 1] == rest
    requires out == if mark then [text[k]] + rest else rest
    ensures AddsOwn(text, marks, outs, k)
  {
  }

  lemma OutStep(line: string, start: Mode, k: nat)
    requires k < |line|
    ensures AddsOwn(line, CodeMarks(line, start), Outs(line, start), k)
  {
    ghost var mode, next := ModeAt(line, start, k), ModeAt(line, start, k + 1);
    ghost var out, rest := Lex(line, k, mode).out, Lex(line, k + 1, next).out;
    MarkAt(line, start, k);
    LexUnfolds(line, k, mode);
    OutsAt(line, start, k, out);
    OutsAt(line, start, k + 1, rest);
    AddsOwnBy(line, CodeMarks(line, start), Outs(line, start), k, Emits(line, k, mode), out, rest);
  }

  /** A family of texts that each add their own character, if marked, to the next is `Select`. */
  lemma {:induction false} SelectIsUnique(text: string, marks: seq<bool>, outs: seq<string>, i: nat)
    requires |marks| == |text| && |outs| == |text| + 1 && i <= |text|
    requires outs[|text|] == ""
    requires forall k :: 0 <= k < |text| ==> AddsOwn(text, marks, outs, k)
    ensures outs[i] == Select(text, marks, i)
    decreases |text| - i
  {
    if i < |text| {
      SelectIsUnique(text, marks, outs, i + 1);
      assert AddsOwn(text, marks, outs, i);
    }
  }

  /** The scanned text is exactly the characters at code positions, in order. */
  lemma OutputIsCodeCharacters(line: string, start: Mode, i: nat)
    requires i <= |line|
    ensures Lex(line, i, ModeAt(line, start, i)).out == Select(line, CodeMarks(line, start), i)
  {
    forall k | 0 <= k < |line|
      ensures AddsOwn(line, CodeMarks(line, start), Outs(line, start), k)
    {
      OutStep(line, start, k);
    }
    SelectIsUnique(line, CodeMarks(line, start), Outs(line, start), i);
  }
}
