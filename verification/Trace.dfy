/** The bounded JSONL trace of an event stream: per-turn metadata, budgets and a sticky error. */
module Trace {
  import opened Decimals
  import opened Text
  import opened Wrappers

  type byte = bv8

  const MAX_TRACE_ID_BYTES: nat := 128
  const MAX_RECORD_BYTES: nat := 8 * 1024
  const MAX_TOTAL_BYTES: nat := 256 * 1024
  const NEWLINE: byte := 10

  datatype Input = Input(bytes: nat, hash: string, manifestHash: string)

  datatype Event = TurnStarted | ModelStarted(input: Input) | OtherEvent(name: string)

  datatype Envelope = Envelope(
    thread: string, turn: Option<string>, item: Option<string>, sequence: nat, event: Event,
    outputBytes: Option<nat>, payloadBytes: nat, payloadHash: string)

  datatype Record = Record(traceId: string, envelope: Envelope, round: nat, input: Option<Input>)

  /** How a record is rendered as JSON; everything here holds for any rendering. */
  type Renderer = Record -> seq<byte>

  /** What the writer does with a line: take it all, or fail after a part of it. */
  datatype Write = Accepted | Refused(part: nat)

  datatype Failure = RecordTooLarge | ArtifactTooLarge | WriteFailed | FlushFailed

  datatype Sink = Sink(
    traceId: string, input: Option<Input>, round: nat, bytesWritten: nat, error: Option<Failure>,
    output: seq<byte>)

  function Line(render: Renderer, r: Record): seq<byte> {
    render(r) + [NEWLINE]
  }

  function Part(line: seq<byte>, part: nat): seq<byte> {
    if part <= |line| then line[..part] else line
  }

  /** The metadata after an event. */
  function Observed(s: Sink, e: Event): Sink {
    match e
    case TurnStarted => s.(input := None, round := 0)
    case ModelStarted(input) => s.(input := Some(input), round := SaturatingSuccessor(s.round))
    case OtherEvent(_) => s
  }

  function Emit(s: Sink, render: Renderer, envelope: Envelope, write: Write): Sink {
    if s.error.Some? then s
    else
      var seen := Observed(s, envelope.event);
      var line := Line(render, Record(s.traceId, envelope, seen.round, seen.input));
      if |line| > MAX_RECORD_BYTES then seen.(error := Some(RecordTooLarge))
      else if s.bytesWritten + |line| > MAX_TOTAL_BYTES then seen.(error := Some(ArtifactTooLarge))
      else if write.Refused? then seen.(error := Some(WriteFailed), output := s.output + Part(line, write.part))
      else seen.(bytesWritten := s.bytesWritten + |line|, output := s.output + line)
  }

  function NewSink(traceId: string): Sink {
    Sink(traceId, None, 0, 0, None, [])
  }

  class JsonlTrace {
    const traceId: string
    const render: Renderer
    var input: Option<Input>
    var round: nat
    var bytesWritten: nat
    var error: Option<Failure>
    var output: seq<byte>
    // the stream so far, and what the writer did with it
    ghost var events: seq<Envelope>
    ghost var writes: seq<Write>

    constructor (traceId: string, render: Renderer)
      ensures Valid() && events == [] && Value() == NewSink(traceId) && this.render == render
    {
      this.traceId, this.render := traceId, render;
      input, round, bytesWritten, error, output := None, 0, 0, None, [];
      events, writes := [], [];
    }

    function Value(): Sink
      reads this
    {
      Sink(traceId, input, round, bytesWritten, error, output)
    }

    ghost predicate Valid()
      reads this
    {
      |events| == |writes| && Value() == Run(NewSink(traceId), render, events, writes)
    }

    method EmitRecord(envelope: Envelope, write: Write)
      requires Valid()
      modifies this
      ensures Valid() && events == old(events) + [envelope] && writes == old(writes) + [write]
      ensures Value() == Emit(old(Value()), render, envelope, write)
    {
      RunStep(NewSink(traceId), render, events, writes, envelope, write);
      events, writes := events + [envelope], writes + [write];
      if error.Some? {
        return;
      }
      if envelope.event.TurnStarted? {
        input := None;
        round := 0;
      }
      if envelope.event.ModelStarted? {
        round := SaturatingSuccessor(round);
        input := Some(envelope.event.input);
      }
      var line := Line(render, Record(traceId, envelope, round, input));
      if |line| > MAX_RECORD_BYTES {
        error := Some(RecordTooLarge);
      } else if bytesWritten + |line| > MAX_TOTAL_BYTES {
        error := Some(ArtifactTooLarge);
      } else if write.Refused? {
        output := output + Part(line, write.part);
        error := Some(WriteFailed);
      } else {
        output := output + line;
        bytesWritten := bytesWritten + |line|;
      }
    }

    /**
     The artifact is handed over exactly when no line of the stream fails and the writer flushes;
     it then holds every ideal line.
     */
    method Finish(flushed: bool) returns (artifact: Result<seq<byte>, Failure>)
      requires Valid()
      ensures artifact.Ok? <==>
                flushed && forall i :: 0 <= i < |events| ==> !Fails(NewSink(traceId), render, events, writes, i)
      ensures artifact.Ok? ==> artifact.value == Lines(NewSink(traceId), render, events)
      ensures artifact == Err(FlushFailed) ==>
                !flushed && forall i :: 0 <= i < |events| ==> !Fails(NewSink(traceId), render, events, writes, i)
    {
      TraceIsIdealPrefix(NewSink(traceId), render, events, writes);
      ErrorIsNoFlush(NewSink(traceId), render, events, writes);
      if error.Some? {
        return Err(error.value);
      }
      artifact := if flushed then Ok(output) else Err(FlushFailed);
    }
  }

  lemma RunStep(s: Sink, render: Renderer, events: seq<Envelope>, writes: seq<Write>, e: Envelope, w: Write)
    requires |events| == |writes|
    ensures Run(s, render, events + [e], writes + [w]) == Emit(Run(s, render, events, writes), render, e, w)
  {
    assert (events + [e])[..|events|] == events && (writes + [w])[..|writes|] == writes;
  }

  lemma {:induction false} ErrorIsNoFlush(s: Sink, render: Renderer, events: seq<Envelope>, writes: seq<Write>)
    requires |events| == |writes| && s.error != Some(FlushFailed)
    ensures Run(s, render, events, writes).error != Some(FlushFailed)
  {
    if events != [] {
      ErrorIsNoFlush(s, render, events[..|events| - 1], writes[..|writes| - 1]);
    }
  }

  /** A trace is opened under an id of 1 to 128 bytes. */
  method Open(traceId: string, render: Renderer) returns (trace: Option<JsonlTrace>)
    ensures trace.Some? <==> 1 <= Utf8Len(traceId) <= MAX_TRACE_ID_BYTES
    ensures trace.Some? ==>
              && fresh(trace.value) && trace.value.Valid() && trace.value.events == []
              && trace.value.Value() == NewSink(traceId) && trace.value.render == render
  {
    if traceId == "" || Utf8Len(traceId) > MAX_TRACE_ID_BYTES {
      return None;
    }
    var sink := new JsonlTrace(traceId, render);
    trace := Some(sink);
  }

  // ------------------------------------------------------------ the ideal records

  /** One past the last turn start among the first `n` events, or 0. */
  function TurnBegin(events: seq<Envelope>, n: nat): nat
    requires n <= |events|
  {
    if n == 0 then 0
    else if events[n - 1].event.TurnStarted? then n
    else TurnBegin(events, n - 1)
  }

  function CountModels(events: seq<Envelope>, from: nat, upTo: nat): nat
    requires from <= upTo <= |events|
    decreases upTo
  {
    if from == upTo then 0
    else CountModels(events, from, upTo - 1) + if events[upTo - 1].event.ModelStarted? then 1 else 0
  }

  predicate IsLastModel(events: seq<Envelope>, from: nat, upTo: nat, i: nat) {
    && from <= i < upTo <= |events| && events[i].event.ModelStarted?
    && forall k :: i < k < upTo ==> !events[k].event.ModelStarted?
  }

  /** The record of event `i` as the stream before it determines it. */
  ghost predicate IsIdeal(traceId: string, events: seq<Envelope>, i: nat, r: Record)
    requires i < |events|
  {
    TurnBeginBound(events, i + 1);
    var begin := TurnBegin(events, i + 1);
    && r.traceId == traceId && r.envelope == events[i]
    && r.round == CountModels(events, begin, i + 1)
    && (r.input.None? <==> CountModels(events, begin, i + 1) == 0)
    && (forall k: nat :: IsLastModel(events, begin, i + 1, k) ==> r.input == Some(events[k].event.input))
  }

  lemma {:induction false} TurnBeginBound(events: seq<Envelope>, n: nat)
    requires n <= |events|
    ensures TurnBegin(events, n) <= n
    ensures TurnBegin(events, n) > 0 ==> events[TurnBegin(events, n) - 1].event.TurnStarted?
    ensures forall k :: TurnBegin(events, n) <= k < n ==> !events[k].event.TurnStarted?
  {
    if n > 0 && !events[n - 1].event.TurnStarted? {
      TurnBeginBound(events, n - 1);
    }
  }

  lemma {:induction false} NoModels(events: seq<Envelope>, from: nat, upTo: nat)
    requires from <= upTo <= |events|
    ensures CountModels(events, from, upTo) == 0 <==> forall k :: from <= k < upTo ==> !events[k].event.ModelStarted?
    ensures CountModels(events, from, upTo) <= upTo - from
    decreases upTo
  {
    if from < upTo {
      NoModels(events, from, upTo - 1);
    }
  }

  /** The sink's metadata as a fold over events that were all written. */
  function Folded(s: Sink, events: seq<Envelope>): Sink {
    if events == [] then s else Observed(Folded(s, events[..|events| - 1]), events[|events| - 1].event)
  }

  function RecordOf(s: Sink, events: seq<Envelope>, i: nat): Record
    requires i < |events|
  {
    var seen := Folded(s, events[..i + 1]);
    Record(s.traceId, events[i], seen.round, seen.input)
  }

  lemma FoldStep(s: Sink, events: seq<Envelope>, n: nat)
    requires 0 < n <= |events|
    ensures Folded(s, events[..n]) == Observed(Folded(s, events[..n - 1]), events[n - 1].event)
  {
    assert events[..n][..n - 1] == events[..n - 1];
  }

  /** The round is the number of model starts since the turn began. */
  lemma {:induction false} FoldCountsRounds(s: Sink, events: seq<Envelope>, n: nat)
    requires n <= |events| && n < U64_LIMIT && s.round == 0 && s.input.None?
    ensures TurnBegin(events, n) <= n
    ensures var seen := Folded(s, events[..n]);
            && seen.round == CountModels(events, TurnBegin(events, n), n)
            && (seen.input.None? <==> seen.round == 0)
  {
    TurnBeginBound(events, n);
    NoModels(events, TurnBegin(events, n), n);
    if n > 0 {
      FoldCountsRounds(s, events, n - 1);
      FoldStep(s, events, n);
    }
  }

  /** The input is that of the last model start since the turn began. */
  lemma {:induction false} FoldKeepsLastInput(s: Sink, events: seq<Envelope>, n: nat, k: nat)
    requires n <= |events| && IsLastModel(events, TurnBegin(events, n), n, k)
    ensures Folded(s, events[..n]).input == Some(events[k].event.input)
  {
    FoldStep(s, events, n);
    if k < n - 1 {
      FoldKeepsLastInput(s, events, n - 1, k);
    }
  }

  /** The record the sink writes for an event is the ideal one. */
  lemma RecordIsIdeal(s: Sink, events: seq<Envelope>, i: nat)
    requires i < |events| && i + 1 < U64_LIMIT && s.round == 0 && s.input.None?
    ensures IsIdeal(s.traceId, events, i, RecordOf(s, events, i))
  {
    FoldCountsRounds(s, events, i + 1);
    TurnBeginBound(events, i + 1);
    forall k: nat | IsLastModel(events, TurnBegin(events, i + 1), i + 1, k)
      ensures RecordOf(s, events, i).input == Some(events[k].event.input)
    {
      FoldKeepsLastInput(s, events, i + 1, k);
    }
  }

  // ------------------------------------------------------------ whole runs

  function Run(s: Sink, render: Renderer, events: seq<Envelope>, writes: seq<Write>): Sink
    requires |events| == |writes|
  {
    if events == [] then s
    else
      var last := |events| - 1;
      Emit(Run(s, render, events[..last], writes[..last]), render, events[last], writes[last])
  }

  function LineAt(s: Sink, render: Renderer, events: seq<Envelope>, i: nat): seq<byte>
    requires i < |events|
  {
    Line(render, RecordOf(s, events, i))
  }

  function Lines(s: Sink, render: Renderer, events: seq<Envelope>): seq<byte> {
    if events == [] then []
    else
      var last := |events| - 1;
      Lines(s, render, events[..last]) + LineAt(s, render, events, last)
  }

  /** The `i`-th line cannot be written after all the earlier ones. */
  predicate Fails(s: Sink, render: Renderer, events: seq<Envelope>, writes: seq<Write>, i: nat)
    requires |events| == |writes| && i < |events|
  {
    || |LineAt(s, render, events, i)| > MAX_RECORD_BYTES
    || |Lines(s, render, events[..i])| + |LineAt(s, render, events, i)| > MAX_TOTAL_BYTES
    || writes[i].Refused?
  }

  /** The index of the first line that cannot be written; the number of events if there is none. */
  function FirstFailure(s: Sink, render: Renderer, events: seq<Envelope>, writes: seq<Write>): (k: nat)
    requires |events| == |writes|
    ensures k <= |events|
  {
    if events == [] then 0
    else
      var last := |events| - 1;
      var earlier := FirstFailure(s, render, events[..last], writes[..last]);
      if earlier < last then earlier
      else if Fails(s, render, events, writes, last) then last
      else last + 1
  }

  lemma LinesPrefix(s: Sink, render: Renderer, events: seq<Envelope>, last: nat, k: nat)
    requires k < last <= |events|
    ensures LineAt(s, render, events[..last], k) == LineAt(s, render, events, k)
    ensures events[..last][..k] == events[..k]
  {
    assert events[..last][..k + 1] == events[..k + 1];
  }

  lemma {:induction false} FirstFailureIsFirst(s: Sink, render: Renderer, events: seq<Envelope>, writes: seq<Write>)
    requires |events| == |writes|
    ensures var k := FirstFailure(s, render, events, writes);
            && (k < |events| ==> Fails(s, render, events, writes, k))
            && (forall i :: 0 <= i < k ==> !Fails(s, render, events, writes, i))
  {
    if events != [] {
      var last := |events| - 1;
      var earlier := FirstFailure(s, render, events[..last], writes[..last]);
      FirstFailureIsFirst(s, render, events[..last], writes[..last]);
      forall i | 0 <= i < last
        ensures Fails(s, render, events, writes, i) <==> Fails(s, render, events[..last], writes[..last], i)
      {
        LinesPrefix(s, render, events, last, i);
      }
    }
  }

  /** The bytes after the last whole line: part of the line whose write failed. */
  function Remainder(s: Sink, render: Renderer, events: seq<Envelope>, writes: seq<Write>): seq<byte>
    requires |events| == |writes|
  {
    var k := FirstFailure(s, render, events, writes);
    if k < |events| && |LineAt(s, render, events, k)| <= MAX_RECORD_BYTES
       && |Lines(s, render, events[..k])| + |LineAt(s, render, events, k)| <= MAX_TOTAL_BYTES
       && writes[k].Refused?
    then Part(LineAt(s, render, events, k), writes[k].part)
    else []
  }

  predicate IsFresh(s: Sink) {
    s.input.None? && s.round == 0 && s.bytesWritten == 0 && s.error.None? && s.output == []
  }

  /** What the sink holds after a run, in terms of the ideal lines and the first failure. */
  predicate Holds(s: Sink, render: Renderer, events: seq<Envelope>, writes: seq<Write>, end: Sink)
    requires |events| == |writes|
  {
    var k := FirstFailure(s, render, events, writes);
    && end.traceId == s.traceId
    && (end.error.None? <==> k == |events|)
    && end.output == Lines(s, render, events[..k]) + Remainder(s, render, events, writes)
    && end.bytesWritten == |Lines(s, render, events[..k])| <= MAX_TOTAL_BYTES
    && (end.error.None? ==> end.input == Folded(s, events).input && end.round == Folded(s, events).round)
  }

  /** A sink without an error has the ideal lines of the events so far, and their metadata. */
  predicate Caught(s: Sink, render: Renderer, events: seq<Envelope>, before: Sink) {
    && before.traceId == s.traceId && before.error.None?
    && before.output == Lines(s, render, events)
    && before.bytesWritten == |before.output| <= MAX_TOTAL_BYTES
    && before.input == Folded(s, events).input && before.round == Folded(s, events).round
  }

  lemma NextLine(s: Sink, render: Renderer, events: seq<Envelope>, before: Sink)
    requires events != [] && Caught(s, render, events[..|events| - 1], before)
    ensures var last := |events| - 1;
            var seen := Observed(before, events[last].event);
            && LineAt(s, render, events, last)
               == Line(render, Record(before.traceId, events[last], seen.round, seen.input))
            && seen.input == Folded(s, events).input && seen.round == Folded(s, events).round
  {
    assert events[..|events| - 1 + 1] == events;
  }

  lemma StepWritesLine(s: Sink, render: Renderer, events: seq<Envelope>, writes: seq<Write>, before: Sink)
    requires |events| == |writes| && events != []
    requires FirstFailure(s, render, events[..|events| - 1], writes[..|events| - 1]) == |events| - 1
    requires Caught(s, render, events[..|events| - 1], before)
    ensures Holds(s, render, events, writes, Emit(before, render, events[|events| - 1], writes[|events| - 1]))
  {
    NextLine(s, render, events, before);
    if Fails(s, render, events, writes, |events| - 1) {
      StepFails(s, render, events, writes, before);
    } else {
      assert events[..|events|] == events;
    }
  }

  lemma StepFails(s: Sink, render: Renderer, events: seq<Envelope>, writes: seq<Write>, before: Sink)
    requires |events| == |writes| && events != []
    requires FirstFailure(s, render, events[..|events| - 1], writes[..|events| - 1]) == |events| - 1
    requires Caught(s, render, events[..|events| - 1], before)
    requires Fails(s, render, events, writes, |events| - 1)
    ensures Holds(s, render, events, writes, Emit(before, render, events[|events| - 1], writes[|events| - 1]))
  {
    NextLine(s, render, events, before);
    var end := Emit(before, render, events[|events| - 1], writes[|events| - 1]);
    assert FirstFailure(s, render, events, writes) == |events| - 1;
    assert end.output == before.output + Remainder(s, render, events, writes);
  }

  lemma {:induction false} RunWritesLines(s: Sink, render: Renderer, events: seq<Envelope>, writes: seq<Write>)
    requires |events| == |writes| && IsFresh(s)
    ensures Holds(s, render, events, writes, Run(s, render, events, writes))
  {
    if events != [] {
      var last := |events| - 1;
      RunWritesLines(s, render, events[..last], writes[..last]);
      var k := FirstFailure(s, render, events[..last], writes[..last]);
      if k < last {
        LinesPrefix(s, render, events, last, k);
        assert Remainder(s, render, events, writes) == Remainder(s, render, events[..last], writes[..last]);
      } else {
        var before := Run(s, render, events[..last], writes[..last]);
        assert events[..last][..last] == events[..last];
        assert Caught(s, render, events[..last], before);
        StepWritesLine(s, render, events, writes, before);
      }
    }
  }

  lemma {:induction false} LinesAreLong(s: Sink, render: Renderer, events: seq<Envelope>)
    ensures |Lines(s, render, events)| >= |events|
  {
    if events != [] {
      LinesAreLong(s, render, events[..|events| - 1]);
    }
  }

  /** Events processed before the first failure: each wrote at least one byte, so they are few. */
  lemma FailureComesEarly(s: Sink, render: Renderer, events: seq<Envelope>, writes: seq<Write>)
    requires |events| == |writes| && IsFresh(s)
    ensures FirstFailure(s, render, events, writes) <= MAX_TOTAL_BYTES
  {
    var k := FirstFailure(s, render, events, writes);
    RunWritesLines(s, render, events, writes);
    LinesAreLong(s, render, events[..k]);
  }

  /** What a failing writer leaves of a line is its first bytes. */
  lemma PartIsPrefix(line: seq<byte>, part: nat)
    ensures Part(line, part) <= line && |Part(line, part)| == Least(part, |line|)
  {
  }

  /** A line that was written is short enough, and its record is the ideal one. */
  lemma WrittenLinesAreIdeal(s: Sink, render: Renderer, events: seq<Envelope>, writes: seq<Write>, i: nat)
    requires |events| == |writes| && IsFresh(s) && i < FirstFailure(s, render, events, writes)
    ensures |LineAt(s, render, events, i)| <= MAX_RECORD_BYTES
    ensures IsIdeal(s.traceId, events, i, RecordOf(s, events, i))
  {
    FailureComesEarly(s, render, events, writes);
    FirstFailureIsFirst(s, render, events, writes);
    assert !Fails(s, render, events, writes, i);
    RecordIsIdeal(s, events, i);
  }

  lemma RemainderFits(s: Sink, render: Renderer, events: seq<Envelope>, writes: seq<Write>)
    requires |events| == |writes| && IsFresh(s)
    ensures var k := FirstFailure(s, render, events, writes);
            |Lines(s, render, events[..k])| + |Remainder(s, render, events, writes)| <= MAX_TOTAL_BYTES
  {
    RunWritesLines(s, render, events, writes);
  }

  /**
   For every event stream, rendering and writer, the artifact is exactly the ideal lines up to
   the first that is too long, over budget or refused, plus at most part of a refused one;
   the budget holds, and the artifact is handed over only if it is complete.
   */
  lemma TraceIsIdealPrefix(s: Sink, render: Renderer, events: seq<Envelope>, writes: seq<Write>)
    requires |events| == |writes| && IsFresh(s)
    ensures var end := Run(s, render, events, writes);
            var k := FirstFailure(s, render, events, writes);
            && end.output == Lines(s, render, events[..k]) + Remainder(s, render, events, writes)
            && |end.output| <= MAX_TOTAL_BYTES
            && (end.error.None? <==> forall i :: 0 <= i < |events| ==> !Fails(s, render, events, writes, i))
            && (end.error.None? ==> end.output == Lines(s, render, events))
  {
    RunWritesLines(s, render, events, writes);
    FirstFailureIsFirst(s, render, events, writes);
    RemainderFits(s, render, events, writes);
    var k := FirstFailure(s, render, events, writes);
    if k == |events| {
      assert events[..k] == events;
    }
  }

  /** The recorded error is that of the first line that fails: too long, else over budget, else refused. */
  lemma {:induction false} ErrorIsOfFirstFailure(
    s: Sink, render: Renderer, events: seq<Envelope>, writes: seq<Write>)
    requires |events| == |writes| && IsFresh(s) && Run(s, render, events, writes).error.Some?
    ensures var k := FirstFailure(s, render, events, writes);
            && k < |events|
            && var long := |LineAt(s, render, events, k)| > 8192;
            var over := |Lines(s, render, events[..k])| + |LineAt(s, render, events, k)| > 262144;
            Run(s, render, events, writes).error
            == Some(if long then RecordTooLarge else if over then ArtifactTooLarge else WriteFailed)
  {
    var last := |events| - 1;
    RunWritesLines(s, render, events[..last], writes[..last]);
    RunWritesLines(s, render, events, writes);
    var before := Run(s, render, events[..last], writes[..last]);
    var k := FirstFailure(s, render, events[..last], writes[..last]);
    if k < last {
      ErrorIsOfFirstFailure(s, render, events[..last], writes[..last]);
      LinesPrefix(s, render, events, last, k);
    } else {
      assert events[..last][..last] == events[..last];
      NextLine(s, render, events, before);
    }
  }

  /** Once an error is recorded nothing is written any more, and the first error stays. */
  lemma {:induction false} ErrorIsSticky(s: Sink, render: Renderer, events: seq<Envelope>, writes: seq<Write>)
    requires |events| == |writes| && s.error.Some?
    ensures Run(s, render, events, writes) == s
  {
    if events != [] {
      ErrorIsSticky(s, render, events[..|events| - 1], writes[..|writes| - 1]);
    }
  }
}
