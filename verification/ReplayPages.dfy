/** When a page of the replay window reports a gap, and what repeated reads come to. */
module ReplayPages {
  import opened Decimals
  import opened Replay
  import opened Wrappers

  /** Every held entry's thread has a mark, which the entry does not exceed. */
  predicate MarksCover(b: Buffer) {
    && (forall i :: 0 <= i < |b.events| ==>
          b.events[i].thread in b.latest && b.events[i].sequence <= b.latest[b.events[i].thread])
    && (forall t :: t in b.latest ==> b.latest[t] < U64_LIMIT)
  }

  lemma ConsistentMarksCover(w: World)
    requires Consistent(w)
    ensures MarksCover(w.buffer)
  {
    var cut := |w.history| - |w.buffer.events|;
    forall i | 0 <= i < |w.buffer.events|
      ensures w.buffer.events[i].sequence <= w.buffer.latest[w.buffer.events[i].thread]
    {
      assert w.history[cut + i] == w.buffer.events[i];
    }
  }

  // ------------------------------------------------------------ gaps

  /** A number the thread has used above the cursor, and below everything held of it. */
  predicate IsMissing(b: Buffer, thread: string, cursor: nat, n: nat) {
    && thread in b.latest && cursor < n <= b.latest[thread]
    && (forall i :: 0 <= i < |b.events| && b.events[i].thread == thread ==> n < b.events[i].sequence)
  }

  /**
   A page reports a gap exactly when some number above the cursor, not past the thread's mark,
   lies below the thread's oldest held entry or has no held entry to lie below.
   */
  lemma GapIff(b: Buffer, thread: string, cursor: nat, limit: nat)
    requires MarksCover(b)
    ensures Page(b, thread, cursor, limit).hasGap <==> exists n: nat :: IsMissing(b, thread, cursor, n)
  {
    var oldest := Oldest(b.events, thread);
    if oldest.Some? {
      var k :| 0 <= k < |b.events| && b.events[k].thread == thread && b.events[k].sequence == oldest.value;
      assert cursor + 1 < oldest.value ==> IsMissing(b, thread, cursor, cursor + 1);
    } else if thread in b.latest {
      assert cursor < b.latest[thread] ==> IsMissing(b, thread, cursor, b.latest[thread]);
    }
  }

  predicate IsCaughtUp(b: Buffer, thread: string, cursor: nat) {
    thread in b.latest ==> b.latest[thread] <= cursor
  }

  /** A client whose cursor is not behind the thread's mark is served nothing and sees no gap. */
  lemma CaughtUpSeesNoGap(b: Buffer, thread: string, cursor: nat, limit: nat)
    requires MarksCover(b) && IsCaughtUp(b, thread, cursor)
    ensures Page(b, thread, cursor, limit).events == [] && !Page(b, thread, cursor, limit).hasGap
  {
    AfterEmptyIff(b.events, thread, cursor);
    GapIff(b, thread, cursor, limit);
  }

  /** After a page without a gap, reading on at either cursor it gives reports none. */
  lemma NextPageHasNoGap(w: World, thread: string, limit: nat, server: bool, nextLimit: nat)
    requires Consistent(w) && !Page(w.buffer, thread, w.cursor, limit).hasGap
    ensures !Page(w.buffer, thread, CursorAfter(w, thread, limit, server), nextLimit).hasGap
  {
    ConsistentMarksCover(w);
    var cursor := CursorAfter(w, thread, limit, server);
    var page := Page(w.buffer, thread, w.cursor, limit);
    if server && (|page.events| < limit || page.events == []) {
      CaughtUpSeesNoGap(w.buffer, thread, cursor, nextLimit);
    } else {
      if page.events != [] {
        LastOfPage(w, thread, limit);
      }
      GapIff(w.buffer, thread, w.cursor, limit);
      GapIff(w.buffer, thread, cursor, nextLimit);
      assert forall n: nat :: IsMissing(w.buffer, thread, cursor, n) ==> IsMissing(w.buffer, thread, w.cursor, n);
    }
  }

  // ------------------------------------------------------------ polling

  predicate IsQuietFor(thread: string, steps: seq<Step>) {
    forall i :: 0 <= i < |steps| ==> steps[i].Event? ==> steps[i].thread != thread
  }

  lemma QuietStepKeepsUp(w: World, thread: string, step: Step)
    requires Consistent(w) && Allowed(w, step) && IsCaughtUp(w.buffer, thread, w.cursor)
    requires step.Event? ==> step.thread != thread
    ensures var next := Next(w, thread, step);
            && Consistent(next) && IsCaughtUp(next.buffer, thread, next.cursor)
            && next.received == w.received && next.sawGap == w.sawGap
  {
    ConsistentMarksCover(w);
    match step
    case Event(_, _, _) => EventKeepsConsistent(w, thread, step);
    case Read(limit, _) => CaughtUpSeesNoGap(w.buffer, thread, w.cursor, limit);
    case Restart =>
      RestartKeepsConsistent(w, thread);
      ReloadedWithin(w);
  }

  /**
   A client that is caught up stays so and sees no gap, however often it polls under either
   cursor rule, whatever other threads do and however often the server restarts, until its
   thread's next event.
   */
  lemma {:induction false} CaughtUpStaysQuiet(w: World, thread: string, steps: seq<Step>)
    requires Consistent(w) && IsCaughtUp(w.buffer, thread, w.cursor)
    requires AllowedRun(w, thread, steps) && IsQuietFor(thread, steps)
    ensures var end := Run(w, thread, steps);
            && Consistent(end) && IsCaughtUp(end.buffer, thread, end.cursor)
            && end.received == w.received && end.sawGap == w.sawGap
  {
    if steps != [] {
      var before := steps[..|steps| - 1];
      assert forall i :: 0 <= i < |before| ==> before[i] == steps[i];
      CaughtUpStaysQuiet(w, thread, before);
      QuietStepKeepsUp(Run(w, thread, before), thread, steps[|steps| - 1]);
    }
  }

  /** Behind the mark, two events of other threads between two pages can open a gap. */
  lemma OtherThreadsCanOpenAGap(b: Buffer, thread: string, x: Entry, y: Entry)
    requires |b.events| == EVENT_REPLAY_BUFFER && thread in b.latest && b.latest[thread] == 2
    requires b.events[0] == Entry(thread, 1, "") && b.events[1] == Entry(thread, 2, "")
    requires forall i :: 2 <= i < |b.events| ==> b.events[i].thread != thread
    requires x.thread != thread && y.thread != thread && x != y
    requires !Holds(b.events, x.thread, x.sequence) && !Holds(b.events, y.thread, y.sequence)
    requires x.thread == y.thread ==> x.sequence != y.sequence
    ensures var page := Page(b, thread, 0, 1);
            && page.events == [Entry(thread, 1, "")] && !page.hasGap
            && Page(Push(Push(b, x), y), thread, 1, 1).hasGap
  {
    var first, rest := b.events[0], b.events[1..];
    assert After(b.events, thread, 0) == [first] + After(rest, thread, 0);
    var oldest := Oldest(b.events, thread);
    assert oldest.value == 1;
    var once := Push(b, x);
    assert once.events == rest + [x];
    assert !Holds(once.events, y.thread, y.sequence);
    var twice := Push(once, y);
    assert twice.events == once.events[1..] + [y];
    assert forall i :: 0 <= i < |twice.events| ==> twice.events[i].thread != thread;
    NoEntryNoOldest(twice.events, thread);
  }

  // ------------------------------------------------------------ reading to the end

  lemma {:induction false} AfterEither(events: seq<Entry>, thread: string, low: nat, high: nat)
    requires low <= high
    requires forall i :: 0 <= i < |events| && events[i].thread == thread ==> events[i].sequence > high
    ensures After(events, thread, low) == After(events, thread, high)
  {
    if events != [] {
      AfterEither(events[1..], thread, low, high);
    }
  }

  /** What lies above the last entry of a page is the rest of what lay above its cursor. */
  lemma {:induction false} AfterDrops(events: seq<Entry>, thread: string, low: nat, count: nat)
    requires Increasing(events) && 0 < count <= |After(events, thread, low)|
    ensures var all := After(events, thread, low);
            && all[count - 1].sequence > low && all[count - 1] in events && all[count - 1].thread == thread
            && After(events, thread, all[count - 1].sequence) == all[count..]
  {
    ghost var head, rest, all := events[0], events[1..], After(events, thread, low);
    TailIncreases(events);
    if head.thread == thread && head.sequence > low {
      if count == 1 {
        AfterEither(rest, thread, low, head.sequence);
      } else {
        AfterDrops(rest, thread, low, count - 1);
        assert all[count - 1] == After(rest, thread, low)[count - 2];
        assert all[count..] == After(rest, thread, low)[count - 1..];
      }
    } else {
      AfterDrops(rest, thread, low, count);
      assert head.thread == thread ==> head.sequence < all[count - 1].sequence;
    }
  }

  /** One read serves the next `limit` entries, and leaves the others above the cursor. */
  lemma ReadServesNext(w: World, thread: string, limit: nat)
    requires Increasing(w.buffer.events) && limit >= 1
    ensures var next := Next(w, thread, Read(limit, false));
            var left := After(w.buffer.events, thread, w.cursor);
            var served := Least(limit, |left|);
            && next.buffer == w.buffer && next.received == w.received + left[..served]
            && After(w.buffer.events, thread, next.cursor) == left[served..]
  {
    ghost var left := After(w.buffer.events, thread, w.cursor);
    if left != [] {
      AfterDrops(w.buffer.events, thread, w.cursor, Least(limit, |left|));
    }
  }

  function Reads(limit: nat, count: nat): seq<Step> {
    if count == 0 then [] else Reads(limit, count - 1) + [Read(limit, false)]
  }

  /** How far `count` pages reach into `size` entries. */
  function Reach(limit: nat, count: nat, size: nat): (reach: nat)
    ensures reach <= size
  {
    if count == 0 then 0
    else
      var before := Reach(limit, count - 1, size);
      before + Least(limit, size - before)
  }

  lemma ReachStep(limit: nat, count: nat, size: nat)
    ensures var reach := Reach(limit, count, size); Reach(limit, count + 1, size) == reach + Least(limit, size - reach)
  {
  }

  lemma {:induction false} ReachIsProduct(limit: nat, count: nat, size: nat)
    ensures Reach(limit, count, size) == Least(count * limit, size)
  {
    if count > 0 {
      ReachIsProduct(limit, count - 1, size);
      assert count * limit == (count - 1) * limit + limit;
    }
  }

  lemma RunReads(w: World, thread: string, limit: nat, count: nat)
    ensures Run(w, thread, Reads(limit, count + 1))
            == Next(Run(w, thread, Reads(limit, count)), thread, Read(limit, false))
  {
    assert Reads(limit, count + 1)[..|Reads(limit, count)|] == Reads(limit, count);
  }

  /** `end` has the buffer of `w`, was served the first `reach` entries above its cursor, and no others. */
  predicate ServedFirst(w: World, end: World, thread: string, reach: nat) {
    var all := After(w.buffer.events, thread, w.cursor);
    && reach <= |all| && end.buffer == w.buffer && end.received == w.received + all[..reach]
    && After(w.buffer.events, thread, end.cursor) == all[reach..]
  }

  lemma ServedFirstGrows(w: World, mid: World, thread: string, limit: nat, reach: nat)
    requires Increasing(w.buffer.events) && limit >= 1 && ServedFirst(w, mid, thread, reach)
    ensures var more := Least(limit, |After(w.buffer.events, thread, w.cursor)| - reach);
            ServedFirst(w, Next(mid, thread, Read(limit, false)), thread, reach + more)
  {
    ghost var all := After(w.buffer.events, thread, w.cursor);
    ghost var more := Least(limit, |all| - reach);
    ReadServesNext(mid, thread, limit);
    SliceTwice(all, reach, more);
    ConcatAssociates(w.received, all[..reach], all[reach..][..more]);
  }

  lemma SliceTwice(all: seq<Entry>, reach: nat, more: nat)
    requires reach + more <= |all|
    ensures all[..reach] + all[reach..][..more] == all[..reach + more]
    ensures all[reach..][more..] == all[reach + more..]
  {
  }

  lemma ConcatAssociates(a: seq<Entry>, b: seq<Entry>, c: seq<Entry>)
    ensures (a + b) + c == a + (b + c)
  {
  }

  lemma {:induction false} ReadsReach(w: World, thread: string, limit: nat, count: nat)
    requires Increasing(w.buffer.events) && limit >= 1
    ensures ServedFirst(w, Run(w, thread, Reads(limit, count)), thread,
                        Reach(limit, count, |After(w.buffer.events, thread, w.cursor)|))
  {
    if count == 0 {
      ServedNothing(w, thread);
    } else {
      ghost var size := |After(w.buffer.events, thread, w.cursor)|;
      ghost var mid, reach := Run(w, thread, Reads(limit, count - 1)), Reach(limit, count - 1, size);
      ReadsReach(w, thread, limit, count - 1);
      ServedFirstGrows(w, mid, thread, limit, reach);
      RunReads(w, thread, limit, count - 1);
      ReachStep(limit, count - 1, size);
    }
  }

  lemma ServedNothing(w: World, thread: string)
    ensures ServedFirst(w, w, thread, 0)
  {
    ghost var all := After(w.buffer.events, thread, w.cursor);
    assert all[..0] == [] && all[0..] == all;
  }

  /** Reading page after page serves everything held above the cursor, first things first. */
  lemma ReadsServeAll(w: World, thread: string, limit: nat, count: nat)
    requires Increasing(w.buffer.events) && limit >= 1
    ensures var end, all := Run(w, thread, Reads(limit, count)), After(w.buffer.events, thread, w.cursor);
            var reach := Least(count * limit, |all|);
            && end.buffer == w.buffer && end.received == w.received + all[..reach]
            && After(w.buffer.events, thread, end.cursor) == all[reach..]
  {
    ReadsReach(w, thread, limit, count);
    ReachIsProduct(limit, count, |After(w.buffer.events, thread, w.cursor)|);
  }
}
