/**
 What scanning does to Rust text, said in terms of the text itself: which texts are blanked,
 where reading goes on as code, what stays open over a line end, and which lines are kept whole.
 */
module ScannerLaws {
  import opened Scanner
  import opened Text
  import opened Wrappers

  /** A text that prints nothing: behind it reading goes on as code. */
  predicate IsBlanked(line: string, i: nat, behind: nat)
    requires i <= behind <= |line|
  {
    Lex(line, i, Code) == Lex(line, behind, Code)
  }

  /** The rest of the line prints nothing, and `open` is still open when the next line begins. */
  predicate StaysOpen(line: string, i: nat, mode: Mode, open: Mode)
    requires i <= |line|
  {
    Lex(line, i, mode).out == "" && EndOfLine(Lex(line, i, mode).mode) == open
  }

  // ------------------------------------------------------------ comments

  lemma LineCommentIsBlank(line: string, i: nat)
    requires MatchesAt(line, "//", i)
    ensures StaysOpen(line, i, Code, Code)
  {
    CommentSkips(line, i + 1);
  }

  lemma BlockCommentIsBlank(line: string, i: nat, end: int)
    requires MatchesAt(line, "/*", i)
    requires end == -1 || (i + 2 <= end && MatchesAt(line, "*/", end))
    requires forall j :: i + 2 <= j <= |line| && (end == -1 || j < end) ==> !MatchesAt(line, "*/", j)
    ensures if end == -1 then StaysOpen(line, i, Code, Block(false)) else IsBlanked(line, i, end + 2)
  {
    assert line[i..i + 2] == "/*";
    assert !MatchesAt(line, "//", i);
    OpenerSkips(line, i + 1, 1, Block(false));
    BlockSkips(line, i + 2, end);
  }

  // ------------------------------------------------------------ quoted text

  /** The backslashes that end just before `k`, none of them before `from`. */
  function Backslashes(line: string, from: nat, k: nat): nat
    requires from <= k <= |line|
  {
    if k > from && line[k - 1] == '\\' then Backslashes(line, from, k - 1) + 1 else 0
  }

  /** A quote behind an even number of backslashes. */
  predicate EndsQuote(line: string, from: nat, k: nat, quote: char)
    requires from <= k <= |line|
  {
    k < |line| && line[k] == quote && Backslashes(line, from, k) % 2 == 0
  }

  lemma {:induction false} QuotedRuns(line: string, from: nat, k: nat, quote: char, end: int)
    requires from <= k <= |line| && quote != '\\'
    requires end == -1 || (k <= end < |line| && EndsQuote(line, from, end, quote))
    requires forall j :: from <= j <= |line| && (end == -1 || j < end) ==> !EndsQuote(line, from, j, quote)
    ensures var mode := Quoted(quote, Backslashes(line, from, k) % 2 == 1);
            if end == -1 then StaysOpen(line, k, mode, Quoted(quote, false))
            else Lex(line, k, mode) == Lex(line, end + 1, Code)
    decreases |line| - k
  {
    if k < |line| && k != end {
      assert !EndsQuote(line, from, k, quote);
      QuotedRuns(line, from, k + 1, quote, end);
    }
  }

  /** The first quote that is not escaped, or -1. */
  predicate IsQuoteEnd(line: string, from: nat, quote: char, end: int) {
    && from <= |line|
    && (end == -1 || (from <= end < |line| && EndsQuote(line, from, end, quote)))
    && (forall j :: from <= j <= |line| && (end == -1 || j < end) ==> !EndsQuote(line, from, j, quote))
  }

  /** Quoted text ends at the first quote that is not escaped, or reaches the next line. */
  lemma QuotedSkips(line: string, from: nat, quote: char, end: int)
    requires IsQuoteEnd(line, from, quote, end) && quote != '\\'
    ensures if end == -1 then StaysOpen(line, from, Quoted(quote, false), Quoted(quote, false))
            else Lex(line, from, Quoted(quote, false)) == Lex(line, end + 1, Code)
  {
    QuotedRuns(line, from, from, quote, end);
  }

  lemma QuoteOpens(line: string, i: nat)
    requires i < |line| && (line[i] == '"' || IsCharQuote(line, i))
    ensures Lex(line, i, Code) == Lex(line, i + 1, Quoted(line[i], false))
  {
    assert Next(line, i, Code) == Quoted(line[i], false);
  }

  lemma StringIsBlank(line: string, i: nat, end: int)
    requires i < |line| && line[i] == '"' && IsQuoteEnd(line, i + 1, '"', end)
    ensures if end == -1 then StaysOpen(line, i, Code, Quoted('"', false)) else IsBlanked(line, i, end + 1)
  {
    QuoteOpens(line, i);
    QuotedSkips(line, i + 1, '"', end);
  }

  /** An apostrophe with a backslash behind it, or with another apostrophe two places on. */
  predicate IsCharQuote(line: string, i: nat) {
    && i + 1 < |line| && line[i] == '\''
    && (line[i + 1] == '\\' || (i + 2 < |line| && line[i + 2] == '\''))
  }

  /** However long its escape is, a character literal ends at its first apostrophe not escaped. */
  lemma CharacterIsBlank(line: string, i: nat, end: int)
    requires IsCharQuote(line, i) && IsQuoteEnd(line, i + 1, '\'', end)
    ensures if end == -1 then StaysOpen(line, i, Code, Quoted('\'', false)) else IsBlanked(line, i, end + 1)
  {
    QuoteOpens(line, i);
    QuotedSkips(line, i + 1, '\'', end);
  }

  lemma PlainCharacterIsBlank(line: string, i: nat, c: char)
    requires MatchesAt(line, ['\'', c, '\''], i) && c != '\\' && c != '\''
    ensures IsBlanked(line, i, i + 3)
  {
    var found := line[i..i + 3];
    assert found[0] == line[i] && found[1] == line[i + 1] && found[2] == line[i + 2];
    CharacterIsBlank(line, i, i + 2);
  }

  lemma EscapedCharacterIsBlank(line: string, i: nat, c: char)
    requires MatchesAt(line, ['\'', '\\', c, '\''], i)
    ensures IsBlanked(line, i, i + 4)
  {
    var found := line[i..i + 4];
    assert found[0] == line[i] && found[1] == line[i + 1] && found[2] == line[i + 2] && found[3] == line[i + 3];
    QuoteOpens(line, i);
    assert Lex(line, i + 1, Quoted('\'', false)) == Lex(line, i + 2, Quoted('\'', true));
    assert Lex(line, i + 2, Quoted('\'', true)) == Lex(line, i + 3, Quoted('\'', false));
  }

  // ------------------------------------------------------------ raw strings

  function RawQuote(prefix: string, hashes: nat): string {
    prefix + Hashes(hashes) + "\""
  }

  lemma HashesEnd(line: string, i: nat, n: nat)
    requires i + n < |line| && line[i + n] != '#'
    requires forall j :: i <= j < i + n ==> line[j] == '#'
    ensures HashRun(line, i) == n
  {
  }

  lemma RawQuoteCharacters(line: string, i: nat, prefix: string, hashes: nat)
    requires MatchesAt(line, RawQuote(prefix, hashes), i)
    ensures var after := i + |prefix|;
            && after + hashes < |line| && line[i..after] == prefix && line[after + hashes] == '"'
            && (forall j :: after <= j < after + hashes ==> line[j] == '#')
  {
    var text, after := RawQuote(prefix, hashes), i + |prefix|;
    assert |text| == |prefix| + hashes + 1;
    var found := line[i..i + |text|];
    assert line[i..after] == found[..|prefix|] == text[..|prefix|];
    assert line[after + hashes] == found[|text| - 1] == text[|text| - 1];
    forall j | after <= j < after + hashes
      ensures line[j] == '#'
    {
      assert line[j] == found[j - i] == text[j - i] == Hashes(hashes)[j - after];
    }
  }

  lemma RawQuoteOpens(line: string, i: nat, prefix: string, hashes: nat)
    requires prefix in {"r", "br"} && MatchesAt(line, RawQuote(prefix, hashes), i)
    ensures RawOpener(line, i) == Some(RawOpening(hashes, |prefix| + hashes + 1))
  {
    var after := i + |prefix|;
    RawQuoteCharacters(line, i, prefix, hashes);
    assert line[i] == line[i..after][0] && line[after - 1] == line[i..after][|prefix| - 1];
    HashesEnd(line, after, hashes);
  }

  lemma OpenerIsRawQuote(line: string, i: nat)
    requires i < |line| && RawOpener(line, i).Some?
    ensures MatchesAt(line, RawQuote(if line[i] == 'b' then "br" else "r", RawOpener(line, i).value.hashes), i)
  {
    var opening := RawOpener(line, i).value;
    var prefix := if line[i] == 'b' then "br" else "r";
    assert line[i..i + opening.length] == RawQuote(prefix, opening.hashes);
  }

  lemma RawQuoteEnters(line: string, i: nat, prefix: string, hashes: nat)
    requires prefix in {"r", "br"} && MatchesAt(line, RawQuote(prefix, hashes), i)
    ensures var from := i + |prefix| + hashes + 1;
            from <= |line| && Lex(line, i, Code) == Lex(line, from, Raw(hashes, None))
  {
    RawQuoteCharacters(line, i, prefix, hashes);
    RawQuoteOpens(line, i, prefix, hashes);
    assert line[i] == line[i..i + |prefix|][0];
    assert !MatchesAt(line, "//", i) && !MatchesAt(line, "/*", i) by {
      assert line[i] in {'r', 'b'};
    }
    ghost var next := Skip(|prefix| + hashes, Raw(hashes, None));
    assert Next(line, i, Code) == next;
    OpenerSkips(line, i + 1, |prefix| + hashes, Raw(hashes, None));
  }

  /** The first terminator at or after `from`, or -1. */
  predicate IsRawEnd(line: string, from: nat, hashes: nat, end: int) {
    && (end == -1 || (from <= end && MatchesAt(line, Terminator(hashes), end)))
    && (forall j :: from <= j <= |line| && (end == -1 || j < end) ==> !MatchesAt(line, Terminator(hashes), j))
  }

  /** Whatever quotes, backslashes and shorter runs of hashes are inside. */
  lemma RawStringIsBlank(line: string, i: nat, prefix: string, hashes: nat, end: int)
    requires prefix in {"r", "br"} && MatchesAt(line, RawQuote(prefix, hashes), i)
    requires IsRawEnd(line, i + |prefix| + hashes + 1, hashes, end)
    ensures if end == -1 then StaysOpen(line, i, Code, Raw(hashes, None))
            else end + hashes + 1 <= |line| && IsBlanked(line, i, end + hashes + 1)
  {
    RawQuoteEnters(line, i, prefix, hashes);
    RawSkips(line, i + |prefix| + hashes + 1, hashes, end);
  }

  // ------------------------------------------------------------ what is kept

  /** A comment, a string, a raw string or a character literal begins here. */
  ghost predicate BeginsBlank(line: string, i: nat) {
    || MatchesAt(line, "//", i) || MatchesAt(line, "/*", i) || MatchesAt(line, "\"", i) || IsCharQuote(line, i)
    || (exists n: nat :: MatchesAt(line, RawQuote("r", n), i) || MatchesAt(line, RawQuote("br", n), i))
  }

  /** A character read as code is printed exactly when no such text begins with it; so lifetimes are. */
  lemma PrintedIff(line: string, i: nat)
    requires i < |line|
    ensures Emits(line, i, Code) <==> !BeginsBlank(line, i)
  {
    assert MatchesAt(line, "\"", i) <==> line[i] == '"' by {
      assert line[i..i + 1] == [line[i]];
    }
    if RawOpener(line, i).Some? {
      OpenerIsRawQuote(line, i);
    } else if n: nat :| MatchesAt(line, RawQuote("r", n), i) || MatchesAt(line, RawQuote("br", n), i) {
      if MatchesAt(line, RawQuote("r", n), i) {
        RawQuoteOpens(line, i, "r", n);
      } else {
        RawQuoteOpens(line, i, "br", n);
      }
    }
  }

  /** No quotation mark, no comment opener, no character literal; any number of lifetimes. */
  predicate IsPlainCode(line: string) {
    && '"' !in line && !Contains(line, "//") && !Contains(line, "/*")
    && (forall i :: 0 <= i < |line| - 1 && line[i] == '\'' ==> line[i + 1] != '\\')
    && (forall i :: 0 <= i < |line| - 2 && line[i] == '\'' ==> line[i + 2] != '\'')
  }

  lemma {:induction false} PrintsAtMostTheRest(line: string, i: nat, mode: Mode)
    requires i <= |line|
    ensures |Lex(line, i, mode).out| <= |line| - i
    decreases |line| - i
  {
    if i < |line| {
      PrintsAtMostTheRest(line, i + 1, Next(line, i, mode));
    }
  }

  predicate PrintsAll(line: string, i: nat)
    requires i <= |line|
  {
    Lex(line, i, Code) == Lexed(line[i..], Code)
  }

  lemma {:induction false} KeptFrom(line: string, i: nat)
    requires i <= |line| && forall j :: i <= j < |line| ==> Emits(line, j, Code)
    ensures PrintsAll(line, i)
    decreases |line| - i
  {
    if i < |line| {
      assert Emits(line, i, Code);
      KeptFrom(line, i + 1);
      assert line[i..] == [line[i]] + line[i + 1..];
    }
  }

  lemma {:induction false} KeptEverywhere(line: string, i: nat, j: nat)
    requires i <= j < |line| && PrintsAll(line, i)
    ensures Emits(line, j, Code)
    decreases j - i
  {
    PrintsAtMostTheRest(line, i + 1, Next(line, i, Code));
    assert Emits(line, i, Code);
    if i < j {
      assert line[i..] == [line[i]] + line[i + 1..];
      KeptEverywhere(line, i + 1, j);
    }
  }

  lemma QuotationMarkText(line: string)
    ensures '"' in line <==> exists i :: 0 <= i < |line| && MatchesAt(line, "\"", i)
  {
    forall i | 0 <= i < |line|
      ensures MatchesAt(line, "\"", i) <==> line[i] == '"'
    {
      assert line[i..i + 1] == [line[i]];
    }
  }

  lemma PlainIffNothingBegins(line: string)
    ensures IsPlainCode(line) <==> forall i :: 0 <= i < |line| ==> !BeginsBlank(line, i)
  {
    QuotationMarkText(line);
    forall i | 0 <= i < |line| && RawOpener(line, i).Some?
      ensures '"' in line
    {
      assert line[i + RawOpener(line, i).value.length - 1] == '"';
    }
    forall i | 0 <= i < |line|
      ensures BeginsBlank(line, i)
              <==> MatchesAt(line, "//", i) || MatchesAt(line, "/*", i) || MatchesAt(line, "\"", i)
                   || IsCharQuote(line, i) || RawOpener(line, i).Some?
    {
      PrintedIff(line, i);
    }
    if !IsPlainCode(line) {
      if i :| 0 <= i <= |line| && (MatchesAt(line, "//", i) || MatchesAt(line, "/*", i)) {
        assert i < |line| && BeginsBlank(line, i);
      } else if i :| 0 <= i < |line| - 1 && line[i] == '\'' && line[i + 1] == '\\' {
        assert BeginsBlank(line, i);
      } else if i :| 0 <= i < |line| - 2 && line[i] == '\'' && line[i + 2] == '\'' {
        assert BeginsBlank(line, i);
      }
    }
  }

  /** A line scans to itself exactly when it is plain code. */
  lemma PlainLineIff(line: string)
    ensures Lex(line, 0, Code) == Lexed(line, Code) <==> IsPlainCode(line)
  {
    PlainIffNothingBegins(line);
    assert line[0..] == line;
    forall i | 0 <= i < |line|
      ensures Emits(line, i, Code) <==> !BeginsBlank(line, i)
    {
      PrintedIff(line, i);
    }
    if IsPlainCode(line) {
      KeptFrom(line, 0);
    } else if PrintsAll(line, 0) {
      forall i | 0 <= i < |line|
        ensures Emits(line, i, Code)
      {
        KeptEverywhere(line, 0, i);
      }
    }
  }

  // ------------------------------------------------------------ effective lines

  /** The white space among the ASCII characters: tab to carriage return, the separators, space. */
  lemma AsciiSpaces(c: char)
    requires c as int < 128
    ensures IsSpace(c) <==> '\t' <= c <= '\r' || '\U{1c}' <= c <= ' '
  {
  }

  /**
   A line of plain code behind plain code lines is effective exactly when it is not all white
   space.
   */
  lemma {:induction false} PlainLineIsEffectiveIff(lines: seq<string>, k: nat)
    requires k < |lines| && forall j :: 0 <= j <= k ==> IsPlainCode(lines[j])
    ensures ModeBefore(lines, k) == Code
    ensures k in EffectiveLines(lines) <==> exists i :: 0 <= i < |lines[k]| && !IsSpace(lines[k][i])
  {
    if k > 0 {
      PlainLineIsEffectiveIff(lines, k - 1);
      PlainLineIff(lines[k - 1]);
    }
    PlainLineIff(lines[k]);
  }
}
