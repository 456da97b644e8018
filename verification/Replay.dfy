/**
 The event replay window: one bounded FIFO of event summaries shared by all threads,
 a high-water mark per thread, and the pages clients read from it.
 */
module Replay {
  import opened Decimals
  import opened Wrappers

  const EVENT_REPLAY_BUFFER: nat := 512

  datatype Entry = Entry(thread: string, sequence: nat, summary: string)

  datatype Buffer = Buffer(events: seq<Entry>, latest: map<string, nat>)

  datatype Snapshot =
    Snapshot(events: seq<Entry>, oldest: Option<nat>, latest: Option<nat>, hasGap: bool)

  const EMPTY := Buffer([], map[])

  function Observe(b: Buffer, thread: string, sequence: nat): Buffer {
    b.(latest := b.latest[thread := if thread in b.latest && b.latest[thread] > sequence
                                    then b.latest[thread] else sequence])
  }

  predicate Holds(events: seq<Entry>, thread: string, sequence: nat) {
    exists i :: 0 <= i < |events| && events[i].thread == thread && events[i].sequence == sequence
  }

  function Push(b: Buffer, e: Entry): Buffer {
    var seen := Observe(b, e.thread, e.sequence);
    if Holds(b.events, e.thread, e.sequence) then seen
    else
      var kept := if |b.events| == EVENT_REPLAY_BUFFER then b.events[1..] else b.events;
      seen.(events := kept + [e])
  }

  function PushAll(b: Buffer, entries: seq<Entry>): Buffer {
    if entries == [] then b else Push(PushAll(b, entries[..|entries| - 1]), entries[|entries| - 1])
  }

  /** One event: observed always, stored when it has a summary. */
  function Send(b: Buffer, thread: string, sequence: nat, stored: Option<Entry>): Buffer {
    var seen := Observe(b, thread, sequence);
    if stored.Some? then Push(seen, stored.value) else seen
  }

  /** The entries of one thread above a sequence, in buffer order. */
  function After(events: seq<Entry>, thread: string, low: nat): seq<Entry> {
    if events == [] then []
    else if events[0].thread == thread && events[0].sequence > low then
      [events[0]] + After(events[1..], thread, low)
    else After(events[1..], thread, low)
  }

  function Oldest(events: seq<Entry>, thread: string): (oldest: Option<nat>)
    ensures oldest.None? ==> forall i :: 0 <= i < |events| ==> events[i].thread != thread
    ensures oldest.Some? ==> Holds(events, thread, oldest.value)
    ensures oldest.Some? ==> forall i :: 0 <= i < |events| && events[i].thread == thread ==>
                               oldest.value <= events[i].sequence
  {
    if events == [] then None
    else
      var rest := Oldest(events[1..], thread);
      assert forall i :: 0 < i < |events| ==> events[i] == events[1..][i - 1];
      if events[0].thread != thread then
        assert rest.Some? ==> Holds(events, thread, rest.value) by {
          if rest.Some? {
            var i :| 0 <= i < |events[1..]| && events[1..][i].thread == thread
                     && events[1..][i].sequence == rest.value;
            assert events[i + 1] == events[1..][i];
          }
        }
        rest
      else if rest.None? || events[0].sequence <= rest.value then Some(events[0].sequence)
      else
        assert Holds(events, thread, rest.value) by {
          var i :| 0 <= i < |events[1..]| && events[1..][i].thread == thread
                   && events[1..][i].sequence == rest.value;
          assert events[i + 1] == events[1..][i];
        }
        rest
  }

  function LatestOf(b: Buffer, thread: string): Option<nat> {
    if thread in b.latest then Some(b.latest[thread]) else None
  }

  function Page(b: Buffer, thread: string, after: nat, limit: nat): Snapshot {
    var oldest, latest := Oldest(b.events, thread), LatestOf(b, thread);
    Snapshot(Take(After(b.events, thread, after), limit), oldest, latest,
             if oldest.None? then latest.Some? && after < latest.value
             else SaturatingSuccessor(after) < oldest.value)
  }

  /** The cursor the server hands back with a page; a client sends nothing for `None`. */
  function NextCursor(page: Snapshot, limit: nat): nat {
    if |page.events| < limit || page.events == [] then
      if page.latest.Some? then page.latest.value else 0
    else page.events[|page.events| - 1].sequence
  }

  class EventReplayBuffer {
    var events: seq<Entry>
    var latestByThread: map<string, nat>

    constructor ()
      ensures State() == EMPTY
    {
      events, latestByThread := [], map[];
    }

    function State(): Buffer
      reads this
    {
      Buffer(events, latestByThread)
    }

    method ObserveSequence(thread: string, sequence: nat)
      modifies this
      ensures State() == Observe(old(State()), thread, sequence)
    {
      if thread in latestByThread {
        if latestByThread[thread] < sequence {
          latestByThread := latestByThread[thread := sequence];
        } else {
          latestByThread := latestByThread[thread := latestByThread[thread]];
        }
      } else {
        latestByThread := latestByThread[thread := sequence];
      }
    }

    method PushEntry(entry: Entry)
      modifies this
      ensures State() == Push(old(State()), entry)
    {
      ObserveSequence(entry.thread, entry.sequence);
      if Holds(events, entry.thread, entry.sequence) {
        return;
      }
      if |events| == EVENT_REPLAY_BUFFER {
        events := events[1..];
      }
      events := events + [entry];
    }

    method Restore(entries: seq<Entry>)
      modifies this
      ensures State() == PushAll(old(State()), entries)
    {
      var i := 0;
      while i < |entries|
        invariant 0 <= i <= |entries|
        invariant State() == PushAll(old(State()), entries[..i])
      {
        assert entries[..i + 1][..i] == entries[..i];
        PushEntry(entries[i]);
        i := i + 1;
      }
      assert entries[..|entries|] == entries;
    }

    method SendEvent(thread: string, sequence: nat, stored: Option<Entry>)
      modifies this
      ensures State() == Send(old(State()), thread, sequence, stored)
    {
      ObserveSequence(thread, sequence);
      if stored.Some? {
        PushEntry(stored.value);
      }
    }

    method ReplayEvents(known: bool, thread: string, after: Option<nat>, limit: nat)
      returns (snapshot: Option<Snapshot>)
      ensures snapshot == if known then Some(Page(State(), thread, if after.Some? then after.value else 0, limit))
                          else None
    {
      if !known {
        return None;
      }
      var afterSequence := if after.Some? then after.value else 0;
      var oldest := Oldest(events, thread);
      var latest := if thread in latestByThread then Some(latestByThread[thread]) else None;
      var hasGap := if oldest.None? then latest.Some? && afterSequence < latest.value
                    else SaturatingSuccessor(afterSequence) < oldest.value;
      snapshot := Some(Snapshot(Take(After(events, thread, afterSequence), limit), oldest, latest, hasGap));
    }
  }

  // --------------------------------------------- any pushes: bound and no duplicates

  predicate NoDuplicates(events: seq<Entry>) {
    forall i, j :: 0 <= i < j < |events| ==>
      events[i].thread != events[j].thread || events[i].sequence != events[j].sequence
  }

  /** Whatever is pushed, at most 512 entries are held and none twice. */
  lemma {:induction false} WindowIsBoundedAndDistinct(b: Buffer, entries: seq<Entry>)
    requires |b.events| <= EVENT_REPLAY_BUFFER && NoDuplicates(b.events)
    ensures |PushAll(b, entries).events| <= EVENT_REPLAY_BUFFER
    ensures NoDuplicates(PushAll(b, entries).events)
  {
    if entries != [] {
      WindowIsBoundedAndDistinct(b, entries[..|entries| - 1]);
    }
  }

  /** Pushing an entry again changes nothing. */
  lemma PushTwice(b: Buffer, e: Entry)
    ensures Push(Push(b, e), e) == Push(b, e)
  {
    var once := Push(b, e);
    if !Holds(b.events, e.thread, e.sequence) {
      assert once.events[|once.events| - 1] == e;
    }
    assert Holds(once.events, e.thread, e.sequence);
    assert once.latest[e.thread := once.latest[e.thread]] == once.latest;
  }

  // ------------------------------------------------------------- whole runs

  datatype Step =
    | Event(thread: string, sequence: nat, stored: Option<Entry>)
    | Read(limit: nat, serverCursor: bool)
    | Restart

  /** The server, the full history of stored entries, and one client of one thread. */
  datatype World = World(buffer: Buffer, history: seq<Entry>, cursor: nat, received: seq<Entry>, sawGap: bool)

  /** A restarted server has the entries its session retained, and the marks they give. */
  function Reloaded(b: Buffer): Buffer {
    PushAll(EMPTY, b.events)
  }

  function Next(w: World, thread: string, step: Step): World {
    match step
    case Event(t, sequence, stored) =>
      w.(buffer := Send(w.buffer, t, sequence, stored),
         history := if stored.Some? then w.history + [stored.value] else w.history)
    case Read(limit, serverCursor) =>
      var page := Page(w.buffer, thread, w.cursor, limit);
      w.(received := w.received + page.events,
         sawGap := w.sawGap || page.hasGap,
         cursor := CursorAfter(w, thread, limit, serverCursor))
    case Restart => w.(buffer := Reloaded(w.buffer))
  }

  /** A client follows either the server's cursor or the last sequence it was given. */
  function CursorAfter(w: World, thread: string, limit: nat, serverCursor: bool): nat {
    var page := Page(w.buffer, thread, w.cursor, limit);
    if serverCursor then NextCursor(page, limit)
    else if page.events == [] then w.cursor
    else page.events[|page.events| - 1].sequence
  }

  /** Threads number their own events in increasing order; pages ask for at least one. */
  predicate Allowed(w: World, step: Step) {
    match step
    case Event(t, sequence, stored) =>
      && sequence < U64_LIMIT
      && (t in w.buffer.latest ==> w.buffer.latest[t] < sequence)
      && (forall i :: 0 <= i < |w.history| && w.history[i].thread == t ==> w.history[i].sequence < sequence)
      && (stored.Some? ==> stored.value.thread == t && stored.value.sequence == sequence)
    case Read(limit, _) => limit >= 1
    case Restart => true
  }

  function Run(w: World, thread: string, steps: seq<Step>): World {
    if steps == [] then w else Next(Run(w, thread, steps[..|steps| - 1]), thread, steps[|steps| - 1])
  }

  predicate AllowedRun(w: World, thread: string, steps: seq<Step>) {
    steps == []
    || (AllowedRun(w, thread, steps[..|steps| - 1])
        && Allowed(Run(w, thread, steps[..|steps| - 1]), steps[|steps| - 1]))
  }

  predicate Increasing(events: seq<Entry>) {
    forall i, j :: 0 <= i < j < |events| && events[i].thread == events[j].thread ==>
      events[i].sequence < events[j].sequence
  }

  function Newest(history: seq<Entry>): seq<Entry> {
    if |history| <= EVENT_REPLAY_BUFFER then history else history[|history| - EVENT_REPLAY_BUFFER..]
  }

  /** Marks are never behind the history, and every thread with an entry in the window has one. */
  predicate Marked(b: Buffer, history: seq<Entry>) {
    && (forall i :: 0 <= i < |history| && history[i].thread in b.latest ==>
          history[i].sequence <= b.latest[history[i].thread])
    && (forall i :: 0 <= i < |b.events| ==> b.events[i].thread in b.latest)
    && (forall t :: t in b.latest ==> b.latest[t] < U64_LIMIT)
  }

  predicate InRange(history: seq<Entry>) {
    forall i :: 0 <= i < |history| ==> history[i].sequence < U64_LIMIT
  }

  /** The window is the newest part of a history in which each thread's entries increase. */
  predicate Consistent(w: World) {
    && w.buffer.events == Newest(w.history)
    && Increasing(w.history) && InRange(w.history)
    && Marked(w.buffer, w.history)
  }

  /** Every thread of the history has a mark, as in a server that has not restarted. */
  predicate FullyMarked(w: World) {
    forall i :: 0 <= i < |w.history| ==> w.history[i].thread in w.buffer.latest
  }

  /** The entries of a thread above `low` and up to `high`. */
  function Window(events: seq<Entry>, thread: string, low: nat, high: nat): seq<Entry> {
    if events == [] then []
    else if events[0].thread == thread && low < events[0].sequence <= high then
      [events[0]] + Window(events[1..], thread, low, high)
    else Window(events[1..], thread, low, high)
  }

  lemma {:induction false} AfterConcat(a: seq<Entry>, b: seq<Entry>, thread: string, low: nat)
    ensures After(a + b, thread, low) == After(a, thread, low) + After(b, thread, low)
  {
    if a == [] {
      assert a + b == b;
    } else {
      assert (a + b)[1..] == a[1..] + b;
      AfterConcat(a[1..], b, thread, low);
    }
  }

  lemma {:induction false} WindowConcat(a: seq<Entry>, b: seq<Entry>, thread: string, low: nat, high: nat)
    ensures Window(a + b, thread, low, high) == Window(a, thread, low, high) + Window(b, thread, low, high)
  {
    if a == [] {
      assert a + b == b;
    } else {
      assert (a + b)[1..] == a[1..] + b;
      WindowConcat(a[1..], b, thread, low, high);
    }
  }

  lemma {:induction false} AfterEmptyIff(events: seq<Entry>, thread: string, low: nat)
    ensures After(events, thread, low) == []
            <==> forall i :: 0 <= i < |events| && events[i].thread == thread ==> events[i].sequence <= low
  {
    if events != [] {
      AfterEmptyIff(events[1..], thread, low);
      assert forall i :: 0 < i < |events| ==> events[i] == events[1..][i - 1];
    }
  }

  lemma {:induction false} WindowEmpty(events: seq<Entry>, thread: string, low: nat, high: nat)
    requires forall i :: 0 <= i < |events| && events[i].thread == thread ==>
               events[i].sequence <= low || events[i].sequence > high
    ensures Window(events, thread, low, high) == []
  {
    if events != [] {
      WindowEmpty(events[1..], thread, low, high);
    }
  }

  lemma {:induction false} AfterIsWindow(events: seq<Entry>, thread: string, low: nat, high: nat)
    requires forall i :: 0 <= i < |events| && events[i].thread == thread ==> events[i].sequence <= high
    ensures After(events, thread, low) == Window(events, thread, low, high)
  {
    if events != [] {
      AfterIsWindow(events[1..], thread, low, high);
    }
  }

  lemma TailIncreases(events: seq<Entry>)
    requires Increasing(events) && events != []
    ensures Increasing(events[1..])
    ensures forall i :: 0 <= i < |events| - 1 && events[1..][i].thread == events[0].thread ==>
                          events[0].sequence < events[1..][i].sequence
  {
  }

  lemma {:induction false} WindowSplit(events: seq<Entry>, thread: string, low: nat, mid: nat, high: nat)
    requires Increasing(events) && low <= mid <= high
    ensures Window(events, thread, low, high)
            == Window(events, thread, low, mid) + Window(events, thread, mid, high)
  {
    if events != [] {
      TailIncreases(events);
      WindowSplit(events[1..], thread, low, mid, high);
      if events[0].thread == thread && mid < events[0].sequence {
        WindowEmpty(events[1..], thread, low, mid);
      }
    }
  }

  lemma NewestIsSuffix(history: seq<Entry>)
    requires Increasing(history)
    ensures Increasing(Newest(history))
    ensures forall i :: 0 <= i < |Newest(history)| ==> Newest(history)[i] in history
  {
  }

  /** A page of an increasing history is a window that ends at its last entry. */
  lemma {:induction false} PageIsWindow(events: seq<Entry>, thread: string, low: nat, count: nat)
    requires Increasing(events) && 0 < count <= |After(events, thread, low)|
    ensures var all := After(events, thread, low);
            && all[count - 1].sequence > low
            && all[count - 1] in events && all[count - 1].thread == thread
            && all[..count] == Window(events, thread, low, all[count - 1].sequence)
  {
    ghost var rest := events[1..];
    TailIncreases(events);
    if events[0].thread == thread && events[0].sequence > low {
      if count == 1 {
        WindowEmpty(rest, thread, low, events[0].sequence);
      } else {
        PageIsWindow(rest, thread, low, count - 1);
        var all := After(events, thread, low);
        assert all[..count] == [events[0]] + After(rest, thread, low)[..count - 1];
        assert all[count - 1] == After(rest, thread, low)[count - 2];
      }
    } else {
      PageIsWindow(rest, thread, low, count);
    }
  }

  /** An event in thread order is always stored, at the end of the newest part. */
  lemma EventKeepsConsistent(w: World, thread: string, step: Step)
    requires Consistent(w) && step.Event? && Allowed(w, step)
    ensures Consistent(Next(w, thread, step))
    ensures FullyMarked(w) ==> FullyMarked(Next(w, thread, step))
  {
    EventKeepsWindow(w, thread, step);
    EventKeepsMarks(w, thread, step);
  }

  lemma EventKeepsWindow(w: World, thread: string, step: Step)
    requires Consistent(w) && step.Event? && Allowed(w, step)
    ensures var next := Next(w, thread, step);
            next.buffer.events == Newest(next.history) && Increasing(next.history) && InRange(next.history)
  {
    if step.stored.Some? {
      var e := step.stored.value;
      NewestIsSuffix(w.history);
      assert !Holds(w.buffer.events, e.thread, e.sequence);
      NewestGrows(w.history, e);
      IncreasingGrows(w.history, e);
    }
  }

  lemma EventKeepsMarks(w: World, thread: string, step: Step)
    requires Consistent(w) && step.Event? && Allowed(w, step)
    ensures Marked(Next(w, thread, step).buffer, Next(w, thread, step).history)
    ensures FullyMarked(w) ==> FullyMarked(Next(w, thread, step))
  {
    var next := Next(w, thread, step);
    assert step.thread in next.buffer.latest && next.buffer.latest[step.thread] == step.sequence;
    assert forall t :: t != step.thread ==>
             (t in next.buffer.latest <==> t in w.buffer.latest)
             && (t in w.buffer.latest ==> next.buffer.latest[t] == w.buffer.latest[t]);
  }

  lemma IncreasingGrows(history: seq<Entry>, e: Entry)
    requires Increasing(history)
    requires forall i :: 0 <= i < |history| && history[i].thread == e.thread ==> history[i].sequence < e.sequence
    ensures Increasing(history + [e])
  {
  }

  lemma NewestGrows(history: seq<Entry>, e: Entry)
    ensures Newest(history + [e])
            == (if |Newest(history)| == EVENT_REPLAY_BUFFER then Newest(history)[1..] else Newest(history)) + [e]
  {
  }

  // ------------------------------------------------------------- gaps

  /** What the window has lost of a thread above a sequence. */
  predicate MissesAbove(w: World, thread: string, low: nat) {
    After(w.buffer.events, thread, low) != After(w.history, thread, low)
  }

  predicate EvictedAbove(w: World, thread: string, low: nat) {
    exists i :: 0 <= i < |w.history| - |w.buffer.events|
                && w.history[i].thread == thread && w.history[i].sequence > low
  }

  /** The window misses stored entries above the cursor exactly when one of them was evicted. */
  lemma MissesIffEvicted(w: World, thread: string, low: nat)
    requires Consistent(w)
    ensures MissesAbove(w, thread, low) <==> EvictedAbove(w, thread, low)
  {
    var evicted := w.history[..|w.history| - |w.buffer.events|];
    assert w.history == evicted + w.buffer.events;
    AfterConcat(evicted, w.buffer.events, thread, low);
    AfterEmptyIff(evicted, thread, low);
    assert forall i :: 0 <= i < |evicted| ==> evicted[i] == w.history[i];
  }

  /** With a mark, an entry evicted above the cursor always shows as a gap. */
  lemma EvictionShows(w: World, thread: string, i: nat)
    requires Consistent(w) && i < |w.history| - |w.buffer.events| && w.history[i].thread == thread
    requires thread in w.buffer.latest && w.history[i].sequence > w.cursor
    ensures Page(w.buffer, thread, w.cursor, 0).hasGap
  {
    var cut := |w.history| - |w.buffer.events|;
    var oldest := Oldest(w.buffer.events, thread);
    if oldest.Some? {
      var k :| 0 <= k < |w.buffer.events| && w.buffer.events[k].thread == thread
               && w.buffer.events[k].sequence == oldest.value;
      assert w.history[cut + k] == w.buffer.events[k];
    }
  }

  lemma NoEntryNoOldest(events: seq<Entry>, thread: string)
    requires forall k :: 0 <= k < |events| ==> events[k].thread != thread
    ensures Oldest(events, thread).None?
  {
  }

  /** Without a mark the thread has nothing in the window, and no gap is ever reported. */
  lemma UnmarkedShowsNothing(w: World, thread: string)
    requires Consistent(w) && thread !in w.buffer.latest
    ensures !Page(w.buffer, thread, w.cursor, 0).hasGap && After(w.buffer.events, thread, w.cursor) == []
    ensures Oldest(w.buffer.events, thread).None?
  {
    NoEntryNoOldest(w.buffer.events, thread);
    AfterEmptyIff(w.buffer.events, thread, w.cursor);
  }

  /** No gap means nothing lost exactly for a thread with a mark, or with nothing to lose. */
  predicate Honest(w: World, thread: string) {
    thread in w.buffer.latest || !EvictedAbove(w, thread, w.cursor)
  }

  lemma NoGapIsHonestIff(w: World, thread: string)
    requires Consistent(w)
    ensures (!Page(w.buffer, thread, w.cursor, 0).hasGap ==> !MissesAbove(w, thread, w.cursor))
            <==> Honest(w, thread)
  {
    MissesIffEvicted(w, thread, w.cursor);
    if thread !in w.buffer.latest {
      UnmarkedShowsNothing(w, thread);
    } else if EvictedAbove(w, thread, w.cursor) {
      var i :| 0 <= i < |w.history| - |w.buffer.events|
               && w.history[i].thread == thread && w.history[i].sequence > w.cursor;
      EvictionShows(w, thread, i);
    }
  }

  /** Without a gap, what the window holds above the cursor is all the history holds. */
  lemma NoGapNothingLost(w: World, thread: string, limit: nat)
    requires Consistent(w) && Honest(w, thread) && !Page(w.buffer, thread, w.cursor, limit).hasGap
    ensures After(w.buffer.events, thread, w.cursor) == After(w.history, thread, w.cursor)
  {
    NoGapIsHonestIff(w, thread);
  }

  /** A server that has not restarted is honest about every thread. */
  lemma FullyMarkedIsHonest(w: World, thread: string)
    requires Consistent(w) && FullyMarked(w)
    ensures Honest(w, thread)
  {
  }

  // ------------------------------------------------------------- restarts

  predicate Within(b: Buffer, events: seq<Entry>) {
    && b.events == events
    && (forall i :: 0 <= i < |events| ==>
          events[i].thread in b.latest && events[i].sequence <= b.latest[events[i].thread])
    && (forall t :: t in b.latest ==> Holds(events, t, b.latest[t]))
  }

  lemma PushWithin(b: Buffer, events: seq<Entry>, e: Entry)
    requires Within(b, events) && |events| < EVENT_REPLAY_BUFFER
    requires forall i :: 0 <= i < |events| && events[i].thread == e.thread ==> events[i].sequence < e.sequence
    ensures Within(Push(b, e), events + [e])
  {
    var next, grown := Push(b, e), events + [e];
    assert next.events == grown;
    assert grown[|events|] == e;
    forall t | t in next.latest
      ensures Holds(grown, t, next.latest[t])
    {
      if t == e.thread {
        if t in b.latest {
          var k :| 0 <= k < |events| && events[k].thread == t && events[k].sequence == b.latest[t];
        }
        assert grown[|events|].thread == t && grown[|events|].sequence == next.latest[t];
      } else {
        var k :| 0 <= k < |events| && events[k].thread == t && events[k].sequence == b.latest[t];
        assert grown[k] == events[k];
      }
    }
  }

  lemma {:induction false} PushAllWithin(events: seq<Entry>)
    requires Increasing(events) && |events| <= EVENT_REPLAY_BUFFER
    ensures Within(PushAll(EMPTY, events), events)
  {
    if events != [] {
      var before, e := events[..|events| - 1], events[|events| - 1];
      PushAllWithin(before);
      assert forall i :: 0 <= i < |before| ==> before[i] == events[i];
      PushWithin(PushAll(EMPTY, before), before, e);
      assert before + [e] == events;
    }
  }

  /** A restart keeps the window, and exactly the marks of the threads still in it. */
  lemma RestartKeepsConsistent(w: World, thread: string)
    requires Consistent(w)
    ensures var next := Next(w, thread, Restart);
            && Consistent(next) && next.buffer.events == w.buffer.events && next.history == w.history
            && (forall t :: t in next.buffer.latest <==> Oldest(w.buffer.events, t).Some?)
  {
    ghost var marks := Reloaded(w.buffer).latest;
    ReloadedWithin(w);
    forall t
      ensures t in marks <==> Oldest(w.buffer.events, t).Some?
    {
      MarkedIffHeld(w.buffer.events, marks, t);
    }
    forall t | t in marks
      ensures marks[t] < U64_LIMIT
    {
      MarkOfWindow(w, marks, t);
    }
    forall i | 0 <= i < |w.history| && w.history[i].thread in marks
      ensures w.history[i].sequence <= marks[w.history[i].thread]
    {
      MarkOfWindow(w, marks, w.history[i].thread);
    }
  }

  lemma ReloadedWithin(w: World)
    requires Consistent(w)
    ensures Within(Reloaded(w.buffer), w.buffer.events)
  {
    NewestIsSuffix(w.history);
    PushAllWithin(w.buffer.events);
  }

  lemma MarkedIffHeld(events: seq<Entry>, marks: map<string, nat>, t: string)
    requires Within(Buffer(events, marks), events)
    ensures t in marks <==> Oldest(events, t).Some?
  {
    if Oldest(events, t).Some? {
      var k :| 0 <= k < |events| && events[k].thread == t && events[k].sequence == Oldest(events, t).value;
    }
  }

  lemma MarkOfWindow(w: World, marks: map<string, nat>, t: string)
    requires Consistent(w) && Within(Buffer(w.buffer.events, marks), w.buffer.events) && t in marks
    ensures marks[t] < U64_LIMIT && Oldest(w.buffer.events, t).Some?
    ensures forall i :: 0 <= i < |w.history| && w.history[i].thread == t ==> w.history[i].sequence <= marks[t]
  {
    ghost var k :| 0 <= k < |w.buffer.events| && w.buffer.events[k].thread == t
                   && w.buffer.events[k].sequence == marks[t];
    MarkOfSuffix(w.history, w.buffer.events, marks, t, k);
  }

  lemma MarkOfSuffix(history: seq<Entry>, events: seq<Entry>, marks: map<string, nat>, t: string, k: nat)
    requires events == Newest(history) && Increasing(history) && InRange(history)
    requires t in marks && k < |events| && events[k].thread == t && events[k].sequence == marks[t]
    requires forall i :: 0 <= i < |events| && events[i].thread == t ==> events[i].sequence <= marks[t]
    ensures marks[t] < U64_LIMIT
    ensures forall i :: 0 <= i < |history| && history[i].thread == t ==> history[i].sequence <= marks[t]
  {
    var cut := |history| - |events|;
    assert history[cut + k] == events[k];
    forall i | 0 <= i < |history| && history[i].thread == t
      ensures history[i].sequence <= marks[t]
    {
      if i >= cut {
        assert history[i] == events[i - cut];
      }
    }
  }

  /**
   Right after a restart, no gap means nothing lost exactly when the thread still has an entry
   in the window or none of its evicted entries lies above the cursor.
   */
  lemma RestartIsHonestIff(w: World, thread: string)
    requires Consistent(w)
    ensures var next := Next(w, thread, Restart);
            (!Page(next.buffer, thread, next.cursor, 0).hasGap ==> !MissesAbove(next, thread, next.cursor))
            <==> Oldest(w.buffer.events, thread).Some? || !EvictedAbove(w, thread, w.cursor)
  {
    RestartKeepsConsistent(w, thread);
    NoGapIsHonestIff(Next(w, thread, Restart), thread);
  }

  /** A thread whose entries were all evicted is reported without a gap after a restart. */
  lemma RestartHidesALoss()
    ensures var retained := [Entry("b", 1, "")];
            !Page(PushAll(EMPTY, retained), "a", 0, 1).hasGap
  {
    var retained := [Entry("b", 1, "")];
    assert retained[..0] == [];
    assert PushAll(EMPTY, retained) == Push(EMPTY, retained[0]);
    assert Oldest([], "a").None? && Oldest(retained, "a") == Oldest(retained[1..], "a");
  }

  /** A new entry reaches a client exactly when its number is above the cursor and not yet held. */
  lemma NewEntryIsServedIff(b: Buffer, e: Entry, cursor: nat)
    ensures e in After(Push(b, e).events, e.thread, cursor)
            <==> e.sequence > cursor && (e in b.events || !Holds(b.events, e.thread, e.sequence))
  {
    InAfterIff(Push(b, e).events, e.thread, cursor, e);
    if !Holds(b.events, e.thread, e.sequence) {
      assert Push(b, e).events[|Push(b, e).events| - 1] == e;
    }
  }

  lemma {:induction false} InAfterIff(events: seq<Entry>, thread: string, low: nat, e: Entry)
    ensures e in After(events, thread, low) <==> e in events && e.thread == thread && e.sequence > low
  {
    if events != [] {
      InAfterIff(events[1..], thread, low, e);
    }
  }

  /**
   A restarted thread numbers its events from 1 again: its first events are hidden from a client
   that had seen the old ones, without a gap, and dropped where the old number is still held.
   */
  lemma RestartedNumbersCollide(earlier: Entry, again: Entry, cursor: nat)
    requires earlier.thread == again.thread && 1 <= again.sequence <= earlier.sequence <= cursor < U64_LIMIT
    ensures var b := Push(PushAll(EMPTY, [earlier]), again);
            && Page(b, earlier.thread, cursor, 1).events == [] && !Page(b, earlier.thread, cursor, 1).hasGap
            && (again.sequence == earlier.sequence ==> b.events == [earlier])
  {
    assert [earlier][..0] == [];
    assert PushAll(EMPTY, [earlier]) == Push(EMPTY, earlier);
    var b := Push(Push(EMPTY, earlier), again);
    AfterEmptyIff(b.events, earlier.thread, cursor);
    assert Push(EMPTY, earlier).events == [earlier];
    if again.sequence == earlier.sequence {
      assert Holds([earlier], again.thread, again.sequence);
    }
    var oldest := Oldest(b.events, earlier.thread);
    assert b.events[0] == earlier;
  }

  // ------------------------------------------------------------- complete replay

  /** A client that keeps the last sequence it was given is where it started or at an entry. */
  predicate AtEntry(w: World, thread: string, start: nat) {
    w.cursor == start
    || exists i :: 0 <= i < |w.history| && w.history[i].thread == thread && w.history[i].sequence == w.cursor
  }

  /** Until a gap is seen, the client holds exactly its window of the whole history. */
  predicate Complete(w: World, thread: string, start: nat) {
    && start <= w.cursor
    && (!w.sawGap ==> w.received == Window(w.history, thread, start, w.cursor))
  }

  lemma NewestEntryStaysAbove(w: World, thread: string, start: nat, step: Step)
    requires step.Event? && Allowed(w, step) && step.stored.Some? && start <= w.cursor && AtEntry(w, thread, start)
    ensures Window(w.history + [step.stored.value], thread, start, w.cursor)
            == Window(w.history, thread, start, w.cursor)
  {
    var e := step.stored.value;
    WindowConcat(w.history, [e], thread, start, w.cursor);
    assert [e][1..] == [];
  }

  lemma EventKeepsComplete(w: World, thread: string, start: nat, step: Step)
    requires step.Event? && Allowed(w, step) && Complete(w, thread, start) && AtEntry(w, thread, start)
    ensures Complete(Next(w, thread, step), thread, start) && AtEntry(Next(w, thread, step), thread, start)
  {
    var next := Next(w, thread, step);
    if step.stored.Some? {
      NewestEntryStaysAbove(w, thread, start, step);
    }
    if w.cursor != start {
      var i :| 0 <= i < |w.history| && w.history[i].thread == thread && w.history[i].sequence == w.cursor;
      assert next.history[i] == w.history[i];
    }
  }

  lemma LastOfPage(w: World, thread: string, limit: nat)
    requires Consistent(w) && Page(w.buffer, thread, w.cursor, limit).events != []
    ensures var page := Page(w.buffer, thread, w.cursor, limit).events;
            var last := page[|page| - 1];
            last.sequence > w.cursor && last.thread == thread && last in w.history
  {
    var page := Page(w.buffer, thread, w.cursor, limit).events;
    var held := After(w.buffer.events, thread, w.cursor);
    NewestIsSuffix(w.history);
    PageIsWindow(w.buffer.events, thread, w.cursor, |page|);
    assert page[|page| - 1] == held[|page| - 1];
  }

  /** A page without a gap is the history's window up to its last entry. */
  lemma TakenIsWindow(w: World, thread: string, limit: nat)
    requires Consistent(w) && Honest(w, thread) && limit >= 1
    requires !Page(w.buffer, thread, w.cursor, limit).hasGap
    ensures Page(w.buffer, thread, w.cursor, limit).events
            == Window(w.history, thread, w.cursor, CursorAfter(w, thread, limit, false))
  {
    NoGapNothingLost(w, thread, limit);
    var page := Page(w.buffer, thread, w.cursor, limit).events;
    var all := After(w.history, thread, w.cursor);
    if page == [] {
      WindowEmpty(w.history, thread, w.cursor, w.cursor);
    } else {
      PageIsWindow(w.history, thread, w.cursor, |page|);
      assert all[..|page|] == page;
    }
  }

  /** A read without a gap extends the client's window to its new cursor. */
  lemma ReadKeepsComplete(w: World, thread: string, start: nat, limit: nat)
    requires Consistent(w) && Honest(w, thread) && limit >= 1
    requires Complete(w, thread, start) && AtEntry(w, thread, start)
    ensures var next := Next(w, thread, Read(limit, false));
            Complete(next, thread, start) && AtEntry(next, thread, start)
  {
    var next := Next(w, thread, Read(limit, false));
    if Page(w.buffer, thread, w.cursor, limit).events != [] {
      LastOfPage(w, thread, limit);
    }
    if !next.sawGap {
      TakenIsWindow(w, thread, limit);
      WindowSplit(w.history, thread, start, w.cursor, next.cursor);
    }
  }

  /** Every read follows the last sequence, and meets a server that is honest about the thread. */
  predicate ClientRun(w: World, thread: string, steps: seq<Step>) {
    steps == []
    || (var before, step := steps[..|steps| - 1], steps[|steps| - 1];
        && ClientRun(w, thread, before)
        && (step.Read? ==> !step.serverCursor && Honest(Run(w, thread, before), thread)))
  }

  predicate Begins(w: World) {
    Consistent(w) && w.received == [] && !w.sawGap && w.cursor < U64_LIMIT
  }

  /**
   From any cursor, over any interleaving of events of all threads, restarts and page reads, a
   client that keeps the last sequence it was given and never sees a gap has received exactly
   its thread's stored entries above where it started and up to its cursor, in order and once
   each, whatever was evicted meanwhile, as long as the server is honest about the thread.
   */
  lemma {:induction false} ReplayIsComplete(w: World, thread: string, steps: seq<Step>)
    requires Begins(w) && AllowedRun(w, thread, steps) && ClientRun(w, thread, steps)
    ensures var end := Run(w, thread, steps);
            && Consistent(end) && AtEntry(end, thread, w.cursor) && w.cursor <= end.cursor
            && (!end.sawGap ==> end.received == Window(end.history, thread, w.cursor, end.cursor))
  {
    if steps == [] {
      WindowEmpty(w.history, thread, w.cursor, w.cursor);
    } else {
      var before, step := steps[..|steps| - 1], steps[|steps| - 1];
      ReplayIsComplete(w, thread, before);
      var mid := Run(w, thread, before);
      match step
      case Event(_, _, _) =>
        EventKeepsConsistent(mid, thread, step);
        EventKeepsComplete(mid, thread, w.cursor, step);
      case Read(limit, _) => ReadKeepsComplete(mid, thread, w.cursor, limit);
      case Restart => RestartKeepsConsistent(mid, thread);
    }
  }

  // ------------------------------------------------------------- the server's cursor

  predicate IsLive(steps: seq<Step>) {
    forall i :: 0 <= i < |steps| ==> !steps[i].Restart?
  }

  predicate KeepsServerCursor(steps: seq<Step>) {
    forall i :: 0 <= i < |steps| ==> steps[i].Event? || (steps[i].Read? && steps[i].serverCursor)
  }

  /** A server that does not restart stays honest, so any client of it may read at any time. */
  lemma {:induction false} LiveServerIsHonest(w: World, thread: string, steps: seq<Step>)
    requires Consistent(w) && FullyMarked(w) && AllowedRun(w, thread, steps) && IsLive(steps)
    ensures var end := Run(w, thread, steps); Consistent(end) && FullyMarked(end) && Honest(end, thread)
  {
    if steps != [] {
      var before, step := steps[..|steps| - 1], steps[|steps| - 1];
      LiveServerIsHonest(w, thread, before);
      if step.Event? {
        EventKeepsConsistent(Run(w, thread, before), thread, step);
      }
    }
    FullyMarkedIsHonest(Run(w, thread, steps), thread);
  }

  /** A cursor the server has handed out is not ahead of the thread's mark. */
  predicate Known(w: World, thread: string) {
    w.cursor == 0 || (thread in w.buffer.latest && w.cursor <= w.buffer.latest[thread])
  }

  /** From a known cursor, the cursor after a page is not behind it, and known again. */
  lemma CursorAdvances(w: World, thread: string, limit: nat, server: bool)
    requires Consistent(w) && FullyMarked(w) && Known(w, thread) && limit >= 1
    ensures var cursor := CursorAfter(w, thread, limit, server);
            w.cursor <= cursor && (cursor == 0 || (thread in w.buffer.latest && cursor <= w.buffer.latest[thread]))
  {
    var page := Page(w.buffer, thread, w.cursor, limit);
    if page.events != [] {
      LastOfPage(w, thread, limit);
      assert page.events[|page.events| - 1] in w.history;
    }
  }

  /** From a known cursor, a page without a gap is the history's window up to the server's cursor. */
  lemma ServedIsWindow(w: World, thread: string, limit: nat)
    requires Consistent(w) && FullyMarked(w) && Known(w, thread) && limit >= 1
    requires !Page(w.buffer, thread, w.cursor, limit).hasGap
    ensures Page(w.buffer, thread, w.cursor, limit).events
            == Window(w.history, thread, w.cursor, CursorAfter(w, thread, limit, true))
  {
    FullyMarkedIsHonest(w, thread);
    var page := Page(w.buffer, thread, w.cursor, limit).events;
    if |page| < limit || page == [] {
      NoGapNothingLost(w, thread, limit);
      CursorAdvances(w, thread, limit, true);
      AfterIsWindow(w.history, thread, w.cursor, CursorAfter(w, thread, limit, true));
    } else {
      TakenIsWindow(w, thread, limit);
    }
  }

  lemma KnownEventKeepsComplete(w: World, thread: string, start: nat, step: Step)
    requires step.Event? && Allowed(w, step) && Complete(w, thread, start) && Known(w, thread)
    ensures Complete(Next(w, thread, step), thread, start) && Known(Next(w, thread, step), thread)
  {
    if step.stored.Some? {
      var e := step.stored.value;
      WindowConcat(w.history, [e], thread, start, w.cursor);
      assert e.thread == thread ==> e.sequence > w.cursor || w.cursor == 0;
      assert [e][1..] == [];
    }
  }

  lemma KnownReadKeepsComplete(w: World, thread: string, start: nat, limit: nat, server: bool)
    requires Consistent(w) && FullyMarked(w) && limit >= 1
    requires Complete(w, thread, start) && Known(w, thread)
    ensures var next := Next(w, thread, Read(limit, server));
            Complete(next, thread, start) && Known(next, thread)
  {
    var next := Next(w, thread, Read(limit, server));
    CursorAdvances(w, thread, limit, server);
    if !next.sawGap {
      if server {
        ServedIsWindow(w, thread, limit);
      } else {
        FullyMarkedIsHonest(w, thread);
        TakenIsWindow(w, thread, limit);
      }
      WindowSplit(w.history, thread, start, w.cursor, next.cursor);
    }
  }

  /** From a known cursor and without restarts, replay is complete whichever cursor is followed. */
  lemma {:induction false} KnownReplayIsComplete(w: World, thread: string, steps: seq<Step>)
    requires Begins(w) && FullyMarked(w) && Known(w, thread) && AllowedRun(w, thread, steps) && IsLive(steps)
    ensures var end := Run(w, thread, steps);
            && Consistent(end) && FullyMarked(end) && Known(end, thread) && w.cursor <= end.cursor
            && (!end.sawGap ==> end.received == Window(end.history, thread, w.cursor, end.cursor))
  {
    if steps == [] {
      WindowEmpty(w.history, thread, w.cursor, w.cursor);
    } else {
      var before, step := steps[..|steps| - 1], steps[|steps| - 1];
      KnownReplayIsComplete(w, thread, before);
      var mid := Run(w, thread, before);
      if step.Event? {
        EventKeepsConsistent(mid, thread, step);
        KnownEventKeepsComplete(mid, thread, w.cursor, step);
      } else {
        KnownReadKeepsComplete(mid, thread, w.cursor, step.limit, step.serverCursor);
      }
    }
  }

  predicate EndsComplete(w: World, thread: string, steps: seq<Step>) {
    var end := Run(w, thread, steps);
    !end.sawGap ==> end.received == Window(end.history, thread, w.cursor, end.cursor)
  }

  /** A number the thread may use next although an unknown cursor is already past it. */
  function NumberBelowCursor(w: World, thread: string): nat {
    if thread in w.buffer.latest then w.buffer.latest[thread] + 1 else 1
  }

  /** Read, one event, read: from an unknown cursor the second read hands out an entry below it. */
  function MisledRun(w: World, thread: string): seq<Step> {
    var e := Entry(thread, NumberBelowCursor(w, thread), "");
    [Read(1, true), Event(thread, e.sequence, Some(e)), Read(1, true)]
  }

  lemma Unroll3(w: World, thread: string, steps: seq<Step>)
    requires |steps| == 3
    ensures var w1 := Next(w, thread, steps[0]);
            var w2 := Next(w1, thread, steps[1]);
            && Run(w, thread, steps) == Next(w2, thread, steps[2])
            && (AllowedRun(w, thread, steps) <==>
                  Allowed(w, steps[0]) && Allowed(w1, steps[1]) && Allowed(w2, steps[2]))
  {
    assert steps[..2][..1] == steps[..1] && steps[..1][..0] == [] && steps[..2][1] == steps[1];
    assert Run(w, thread, steps[..1]) == Next(w, thread, steps[0]);
    assert Run(w, thread, steps[..2]) == Next(Run(w, thread, steps[..1]), thread, steps[1]);
    assert AllowedRun(w, thread, steps[..1]) <==> Allowed(w, steps[0]);
  }

  lemma UnknownIsAbove(w: World, thread: string, k: nat)
    requires Begins(w) && FullyMarked(w) && !Known(w, thread)
    requires k < |w.buffer.events| && w.buffer.events[k].thread == thread
    ensures w.buffer.events[k].sequence < w.cursor
  {
    var cut := |w.history| - |w.buffer.events|;
    assert w.history[cut + k] == w.buffer.events[k];
  }

  /** An unknown cursor lies above everything the thread has numbered: the first page is empty. */
  lemma UnknownReadGoesBack(w: World, thread: string)
    requires Begins(w) && FullyMarked(w) && !Known(w, thread)
    ensures var next := Next(w, thread, Read(1, true));
            && next == w.(cursor := NumberBelowCursor(w, thread) - 1)
            && NumberBelowCursor(w, thread) <= w.cursor
  {
    forall k | 0 <= k < |w.buffer.events| && w.buffer.events[k].thread == thread
      ensures w.buffer.events[k].sequence < w.cursor
    {
      UnknownIsAbove(w, thread, k);
    }
    EmptyPage(w.buffer, thread, w.cursor);
    assert Page(w.buffer, thread, w.cursor, 1).latest == LatestOf(w.buffer, thread);
  }

  lemma EmptyPage(b: Buffer, thread: string, cursor: nat)
    requires forall k :: 0 <= k < |b.events| && b.events[k].thread == thread ==> b.events[k].sequence < cursor
    requires cursor < U64_LIMIT && (thread in b.latest ==> b.latest[thread] < cursor)
    ensures Page(b, thread, cursor, 1).events == [] && !Page(b, thread, cursor, 1).hasGap
  {
    AfterEmptyIff(b.events, thread, cursor);
    var oldest := Oldest(b.events, thread);
    if oldest.Some? {
      var k :| 0 <= k < |b.events| && b.events[k].thread == thread && b.events[k].sequence == oldest.value;
    }
  }

  /** The thread's next event, numbered just above the moved-back cursor. */
  function NextEvent(thread: string, cursor: nat): Step {
    Event(thread, cursor + 1, Some(Entry(thread, cursor + 1, "")))
  }

  lemma NextEventIsAllowed(w: World, thread: string)
    requires Consistent(w) && FullyMarked(w) && w.cursor == NumberBelowCursor(w, thread) - 1
    requires w.cursor + 1 < U64_LIMIT
    ensures Allowed(w, NextEvent(thread, w.cursor))
    ensures After(w.history, thread, w.cursor) == []
  {
    AfterEmptyIff(w.history, thread, w.cursor);
  }

  lemma EntryAtCursorIsNoGap(b: Buffer, thread: string, cursor: nat)
    requires b.events != [] && cursor + 1 < U64_LIMIT
    requires b.events[|b.events| - 1].thread == thread && b.events[|b.events| - 1].sequence == cursor + 1
    ensures !Page(b, thread, cursor, 1).hasGap
  {
    var oldest := Oldest(b.events, thread);
    assert oldest.Some? ==> oldest.value <= b.events[|b.events| - 1].sequence;
  }

  /** After that event the page above the cursor is that event, without a gap. */
  lemma NextEventIsServed(w: World, thread: string)
    requires Consistent(w) && FullyMarked(w) && w.cursor == NumberBelowCursor(w, thread) - 1
    requires w.cursor + 1 < U64_LIMIT
    ensures var page := Page(Next(w, thread, NextEvent(thread, w.cursor)).buffer, thread, w.cursor, 1);
            page.events == [Entry(thread, w.cursor + 1, "")] && !page.hasGap
  {
    ghost var e, step := Entry(thread, w.cursor + 1, ""), NextEvent(thread, w.cursor);
    ghost var next := Next(w, thread, step);
    NextEventIsAllowed(w, thread);
    EventKeepsConsistent(w, thread, step);
    AfterConcat(w.history, [e], thread, w.cursor);
    assert After([e], thread, w.cursor) == [e] by {
      assert [e][1..] == [];
    }
    assert After(next.history, thread, w.cursor) == [e];
    assert next.buffer.events[|next.buffer.events| - 1] == next.history[|next.history| - 1] == e;
    EntryAtCursorIsNoGap(next.buffer, thread, w.cursor);
    FullyMarkedIsHonest(next, thread);
    NoGapNothingLost(next, thread, 1);
  }

  lemma ServeOne(w: World, thread: string, e: Entry)
    requires Page(w.buffer, thread, w.cursor, 1).events == [e] && !Page(w.buffer, thread, w.cursor, 1).hasGap
    ensures Next(w, thread, Read(1, true)) == w.(received := w.received + [e], cursor := e.sequence)
  {
  }

  lemma MisledRunEnds(w: World, thread: string)
    requires Begins(w) && FullyMarked(w) && !Known(w, thread)
    ensures AllowedRun(w, thread, MisledRun(w, thread))
    ensures var end := Run(w, thread, MisledRun(w, thread));
            var e := Entry(thread, NumberBelowCursor(w, thread), "");
            !end.sawGap && end.received == [e] && end.cursor == e.sequence <= w.cursor
  {
    ghost var steps := MisledRun(w, thread);
    ghost var cursor := NumberBelowCursor(w, thread) - 1;
    ghost var w1 := w.(cursor := cursor);
    UnknownReadGoesBack(w, thread);
    assert steps[1] == NextEvent(thread, cursor) && steps[0] == steps[2] == Read(1, true);
    assert Next(w, thread, steps[0]) == w1;
    MisledEventAndRead(w1, thread);
    Unroll3(w, thread, steps);
  }

  lemma MisledEventAndRead(w: World, thread: string)
    requires Begins(w) && FullyMarked(w) && w.cursor == NumberBelowCursor(w, thread) - 1
    requires w.cursor + 1 < U64_LIMIT
    ensures Allowed(w, NextEvent(thread, w.cursor))
    ensures var end := Next(Next(w, thread, NextEvent(thread, w.cursor)), thread, Read(1, true));
            !end.sawGap && end.received == [Entry(thread, w.cursor + 1, "")] && end.cursor == w.cursor + 1
  {
    NextEventIsAllowed(w, thread);
    NextEventIsServed(w, thread);
    ghost var next := Next(w, thread, NextEvent(thread, w.cursor));
    assert next.cursor == w.cursor && next.received == [] && !next.sawGap;
    ServeOne(next, thread, Entry(thread, w.cursor + 1, ""));
  }

  lemma MisledRunIsIncomplete(w: World, thread: string)
    requires Begins(w) && FullyMarked(w) && !Known(w, thread)
    ensures KeepsServerCursor(MisledRun(w, thread)) && AllowedRun(w, thread, MisledRun(w, thread))
    ensures var end := Run(w, thread, MisledRun(w, thread));
            && !end.sawGap && |end.received| == 1 && end.received[0].sequence <= w.cursor
            && !EndsComplete(w, thread, MisledRun(w, thread))
  {
    MisledRunEnds(w, thread);
    ghost var end := Run(w, thread, MisledRun(w, thread));
    WindowEmpty(end.history, thread, w.cursor, end.cursor);
  }

  /** A mark of 7, an empty window and a cursor of 10: entry 8 is handed out without a gap. */
  lemma CursorAheadIsMisled()
    ensures var w := World(Buffer([], map["t" := 7]), [], 10, [], false);
            var end := Run(w, "t", MisledRun(w, "t"));
            end.received == [Entry("t", 8, "")] && !end.sawGap && end.cursor == 8
  {
    MisledRunEnds(World(Buffer([], map["t" := 7]), [], 10, [], false), "t");
  }

  /**
   Following the server's cursor on a server that does not restart, every run is complete
   exactly when the start cursor is 0 or not ahead of the thread's mark.
   */
  lemma ServerReplayIsCompleteIff(w: World, thread: string)
    requires Begins(w) && FullyMarked(w)
    ensures (forall steps :: AllowedRun(w, thread, steps) && KeepsServerCursor(steps) ==>
               EndsComplete(w, thread, steps))
            <==> Known(w, thread)
  {
    if Known(w, thread) {
      forall steps | AllowedRun(w, thread, steps) && KeepsServerCursor(steps)
        ensures EndsComplete(w, thread, steps)
      {
        KnownReplayIsComplete(w, thread, steps);
      }
    } else {
      MisledRunIsIncomplete(w, thread);
    }
  }

  /** A gap can be reported although nothing stored was lost: the event had no summary. */
  lemma GapWithoutLoss(thread: string)
    ensures var b := Send(EMPTY, thread, 1, None);
            Page(b, thread, 0, 1).hasGap && b.events == []
  {
    assert Oldest([], thread).None?;
  }
}
