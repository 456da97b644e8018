# Proofs about an agent control plane

This project models the parts of the control plane whose correctness spans several functions
or whole runs, and proves what their code, documentation and unit tests promise.

* **Thread item projection** (`Text`, `Arguments`, `ThreadItems`): tool arguments are redacted and
  bounded, text is cut at a byte budget between characters, and live and persisted items agree.
  Character widths follow section 3 of RFC 3629, JSON escapes section 7 of RFC 8259.
* **Line budget scanner** (`Scanner`, `ScannerLaws`, `TestRanges`, `LineCounts`): a lexer that skips ahead
  refines one that reads one character at a time, and laws about the text say what it blanks and keeps;
  brace matching and conserved counts sit on top.
* **Event replay window** (`Replay`, `ReplayPages`): one bounded buffer for all threads agrees with the unbounded
  history for every client that saw no gap, across restarts, and exactly when a gap can be trusted.
* **Approval broker** (`RequestId`, `Approval`): all interleavings of its critical sections.
* **Revision actor** (`Revision`): optimistic concurrency between clients, worker and internal work.
* **Goal verification** (`Goal`, `GoalLaws`, `GoalRuns`): one verification in flight, under pauses, clears,
  replacements, stale results and failing files.
* **World refresh** (`WorldRefresh`): persist or roll back, and exactly when the rollback is not one.
* **Thread registry, runtime status, trace** (`Registry`, `Status`, `Trace`).

Code that works step by step is a class or method proved against a specification function; the
theorems are about those functions and the runs built from them. File and network outcomes,
model output and the thread factory's products are parameters, so every theorem holds whatever
they do. Goal ids, which the program draws from a millisecond clock, and turn ids are parameters
too, and may repeat, except where a hypothesis named `FreshGoals` or `FreshTurns` excludes it.
Concurrency is a choice among atomic steps, one per critical section.

Where a promised property does not hold of the code, the project keeps the code as it is, gives
an input that shows it, and proves when the property does hold:

* Recording a refreshed world can fail after the new world was appended. The rollback restores the
  earlier history, but restoring appends every injection that no turn has reported yet, the new one
  included (`WorldRefresh.FailedRefreshLeavesItsWorld`). `FailedRefreshKeepsHistoryIff`,
  `RetryIsNotRecorded` and `StoredIsCurrentIff` say exactly what remains and when the stored
  history catches up.
* A failed command may already have changed data without advancing the revision
  (`Revision.UnannouncedIff`, `FailureChangesSilently`).
* A turn that settles while an older verification is pending is left unverified
  (`GoalRuns.SettledTurnIsLeftUnverified`, `PauseReachesUnverifiedTurn`); one completion can advance a
  goal and fail it (`AdvancesAndFailsIff`, `ApprovedGoalCanFail`); and a pause gives a queued start's
  reservation up, so that resuming queues another (`ReservedIffQueued`, `PauseQueuesTwice`). The worker
  can refuse a queued start without releasing its reservation, and the running goal is then stuck
  (`StuckIffRefused`, `RefusedGoalIsStuck`).
* After a restart a thread with nothing left in the window is served without a gap although entries were
  lost (`Replay.RestartHidesALoss`; exactly when: `NoGapIsHonestIff`, `RestartIsHonestIff`); its events are
  numbered from 1 again, and a number already in the window is not stored (`RestartedNumbersCollide`,
  `NewEntryIsServedIff`). The server's own cursor is safe exactly from a cursor that is not ahead of the
  thread's mark (`ServerReplayIsCompleteIff`, `CursorAheadIsMisled`).
* After 2^64 allocations request ids repeat, and registering one that still waits displaces it
  (`Approval.DisplacesIff`, `AWrapApartRepeats`).
* The report's assertions fail for a tree with effective lines in a source whose component right below
  `crates` holds a backslash, and only then (`LineCounts.ReportAssertionsHoldIff`,
  `BackslashBreaksTheReport`).
* Bounded text may exceed its limit by up to three bytes (`Text.BoundTextMeetsLimitIff`,
  `BoundTextOvershoots`), a bounded message history may be shorter than it could be
  (`ThreadItems.FromMessagesIsPrefix`, `SilentMessagesHideLaterItems`), an item may end before its body
  (`TestRanges.ItemEndsAtEarlyStop`, `TwoParametersStopEarly`), and a stopped turn can look active after
  news of another turn (`Status.ReleasedIff`, `OtherTurnsPassTheLatch`).

`dafny verify dfyconfig.toml` checks the whole project.

## Model

| member | source | states |
|---|---|---|
| `Text.BoundTextMeaning` | crates/mini-agent-app-server-protocol/src/thread_item.rs:365-376 | a cut text is the shortest whole-character prefix that reaches `limit - 3` bytes, followed by `...`; it has `limit` to `limit + 3` bytes, and exactly `limit` for ASCII |
| `Text.BoundTextSize` | crates/mini-agent-app-server-protocol/src/thread_item.rs:365-376 | every result has at most `limit + 3` bytes, and text within the limit is unchanged |
| `Text.BoundTextMeetsLimitIff` | crates/mini-agent-app-server-protocol/src/thread_item.rs:369-375 | the stated limit itself is met exactly when the text is short or some character starts at `limit - 3`; otherwise it is overshot |
| `Text.BoundTextOvershoots` | crates/mini-agent-app-server-protocol/src/thread_item.rs:369-375 | a concrete text of two four-byte characters comes out three bytes over its limit |
| `Text.BoundTextFixedIff` | crates/mini-agent-app-server-protocol/src/thread_item.rs:365-376 | the texts that bounding leaves alone are exactly those of an independent description |
| `Text.BoundTextIdempotent` | crates/mini-agent-app-server-protocol/src/thread_item.rs:365-376 | bounding twice is bounding once, wherever the cut fell in multi-byte text |
| `Arguments.SensitiveKeyIsInfixClosed` | crates/mini-agent-app-server-protocol/src/thread_item.rs:341-355 | neither letter case nor text around it hides a sensitive key |
| `Arguments.SensitiveKeyIff` | crates/mini-agent-app-server-protocol/src/thread_item.rs:341-355 | a key is sensitive exactly when some part of it spells one of the eight words up to ASCII case |
| `Arguments.ShowsIffProjected` | crates/mini-agent-app-server-protocol/src/thread_item.rs:309-339 | input and projection are related without projecting: scalars as they are, texts whole or cut, exactly the first min(24, n) children in their places under their own keys, marks for hidden and deep values; the projection is the one value that stands in this relation to its input |
| `Arguments.ProjectionIsPublic` | crates/mini-agent-app-server-protocol/src/thread_item.rs:309-339 | every projected tree meets the public shape, stated without projecting: marks at depth four and under sensitive keys, at most 24 children, bounded text; what it shows of its input is `Arguments.ShowsIffProjected` |
| `Arguments.ProjectionFixedIff` | crates/mini-agent-app-server-protocol/src/thread_item.rs:309-339 | projection keeps a value exactly when it already has the public shape |
| `Arguments.ProjectValueIdempotent` | crates/mini-agent-app-server-protocol/src/thread_item.rs:309-339 | projecting a projected value at the same place changes nothing |
| `Arguments.NoticeFits` | crates/mini-agent-app-server-protocol/src/thread_item.rs:296-301 | the notice that replaces oversize arguments fits the limits it enforces |
| `Arguments.ProjectedArgumentsFit` | crates/mini-agent-app-server-protocol/src/thread_item.rs:292-302 | published arguments encode in at most 4096 bytes and have the public shape |
| `Arguments.PublishedShowsOrNotice` | crates/mini-agent-app-server-protocol/src/thread_item.rs:292-302 | published arguments are what shows their input, unless that takes more than 4096 bytes: then the notice with that number |
| `Arguments.ProjectArgumentsIdempotent` | crates/mini-agent-app-server-protocol/src/thread_item.rs:292-302 | projecting persisted arguments again changes nothing, the size notice included |
| `Arguments.ProjectArgumentsFixedIff` | crates/mini-agent-app-server-protocol/src/thread_item.rs:292-302 | arguments are published unchanged exactly when they are public and small |
| `Arguments.ProjectedArgumentsShape` | crates/mini-agent-app-server-protocol/src/thread_item.rs:292-339 | no node below depth 4, at most 1 + 24 + 24^2 + 24^3 + 24^4 nodes, text leaves of at most 515 bytes, and only the redaction mark under a sensitive key |
| `ThreadItems.BuildAssistantItems` | crates/mini-agent-app-server-protocol/src/thread_item.rs:264-290 | the vector built by pushes holds reasoning, text and tool items in that order, each only when present |
| `ThreadItems.ResponseIsShown` | crates/mini-agent-app-server-protocol/src/thread_item.rs:264-290 | a response shows its reasoning, its text, each whole or cut and only if there is one, then its calls in order, and nothing else |
| `ThreadItems.EventIsShown` | crates/mini-agent-app-server-protocol/src/thread_item.rs:64-137 | what each live event shows and under which id; a finished call is failed exactly when its result is an error, and keeps its outcome |
| `ThreadItems.MessageIsShown` | crates/mini-agent-app-server-protocol/src/thread_item.rs:186-230 | what each persisted message shows; a result without captured arguments shows null ones |
| `ThreadItems.ToolFinishedAgreesIff` | crates/mini-agent-app-server-protocol/src/thread_item.rs:93-112 | the live item equals the persisted one exactly when the captured arguments project to the live ones |
| `ThreadItems.LiveAndPersistedAgree` | crates/mini-agent-app-server-protocol/src/thread_item.rs:204-224 | arguments captured already projected give the live item back; without captured arguments only null ones agree |
| `ThreadItems.ResponseTextsAgree` | crates/mini-agent-app-server-protocol/src/thread_item.rs:190-203 | a model response shows the same texts while it runs and after a reload exactly when the reload uses the id it ran under, whether its own or the fallback, or there is no text |
| `ThreadItems.ToolLifecycleIsNotDuplicated` | crates/mini-agent-app-server-protocol/src/thread_item.rs:145-176 | over any event stream each tool call is shown started once per start and completed once per finish, in order |
| `ThreadItems.HistoryShowsMessage` | crates/mini-agent-app-server-protocol/src/thread_item.rs:234-246 | each message that is not context shows its items in its place, named by the number of such messages before it; context leaves no trace |
| `ThreadItems.FromMessagesIsPrefix` | crates/mini-agent-app-server-protocol/src/thread_item.rs:234-246 | the bounded history is a prefix of the full one, and the longest one of 256 items exactly when the skipped messages would add nothing |
| `ThreadItems.SilentMessagesHideLaterItems` | crates/mini-agent-app-server-protocol/src/thread_item.rs:234-244 | 256 responses without text hide a later message, so the bounded history can be empty while the full one is not |
| `Scanner.ScanState.ScanCode` | scripts/line_budget.py:93-158 | for any line and carried state the skipping scanner prints and carries what a lexer reading one character at a time does; `ScannerLaws` says what that is in terms of the text |
| `Scanner.ScanLine` | scripts/line_budget.py:100-154 | the loop over local state, with its `find` jumps, refines that lexer and terminates |
| `Scanner.Find` | scripts/line_budget.py:103-116 | the first occurrence at or after a position, or none |
| `Scanner.BlockSkips` | scripts/line_budget.py:102-109 | jumping to the first `*/` is what reading the block comment character by character does |
| `Scanner.RawSkips` | scripts/line_budget.py:110-117 | jumping to the first quote followed by the hashes is what reading the raw string does, however its hashes overlap |
| `Scanner.OutputIsCodeCharacters` | scripts/line_budget.py:93-158 | the scanned text is exactly the characters at code positions, each once and in order |
| `ScannerLaws.PlainLineIff` | scripts/line_budget.py:93-158 | a line scans to itself exactly when it has no quotation mark, no comment opener, and no apostrophe before a backslash or two before another one; lifetimes are kept |
| `ScannerLaws.PrintedIff` | scripts/line_budget.py:129-154 | a character read as code is printed exactly when no comment, string, raw string or character literal begins with it, each given by its text |
| `ScannerLaws.LineCommentIsBlank` | scripts/line_budget.py:129-130 | from `//` on nothing is printed and nothing stays open |
| `ScannerLaws.BlockCommentIsBlank` | scripts/line_budget.py:131-134 | a block comment prints nothing, the text behind its first `*/` is code, and without one it stays open over the line end |
| `ScannerLaws.StringIsBlank` | scripts/line_budget.py:118-144 | a string prints nothing up to its first quotation mark behind an even number of backslashes, where code goes on, or stays open |
| `ScannerLaws.RawStringIsBlank` | scripts/line_budget.py:110-139 | `r` or `br`, hashes and a quotation mark open a text that ends exactly at a quotation mark with as many hashes |
| `ScannerLaws.CharacterIsBlank` | scripts/line_budget.py:146-153 | a character literal, however long its escape, prints nothing up to its first apostrophe that is not escaped |
| `ScannerLaws.PlainCharacterIsBlank` | scripts/line_budget.py:146-153 | an apostrophe, any character but a backslash or an apostrophe, and an apostrophe print nothing, and code goes on behind them |
| `ScannerLaws.EscapedCharacterIsBlank` | scripts/line_budget.py:146-153 | the same for an escaped character |
| `ScannerLaws.PlainLineIsEffectiveIff` | scripts/line_budget.py:161-168 | a line of plain code behind such lines is effective exactly when it is not all white space |
| `Scanner.EffectiveCodeLineIndices` | scripts/line_budget.py:161-168 | over a whole file, the indices of exactly the lines with code outside comments, state carried across lines |
| `TestRanges.RangesFrom` | scripts/line_budget.py:171-209 | ranges of different markers are non-empty, in bounds, disjoint and in file order |
| `TestRanges.CountBraces` | scripts/line_budget.py:191-200 | the character loop with its early exits, proved against a recursive count whose depth is never negative |
| `TestRanges.FindItemEnd` | scripts/line_budget.py:185-205 | the line an item ends on, found by the scanning loop |
| `TestRanges.TestLines` | scripts/line_budget.py:171-209 | the set built by the outer loop is the union of those ranges, and the loop advances |
| `TestRanges.MarkersAreCovered` | scripts/line_budget.py:174-209 | every range starts at a marker, and every marker line is a test line |
| `TestRanges.MarkedItem` | scripts/line_budget.py:178-209 | a marker's range reaches over the attribute lines behind it to the end line of the first line that is none, scanned afresh, and the search goes on behind it |
| `TestRanges.AttributeIff` | scripts/line_budget.py:182-184 | an attribute line is white space and then `#[` |
| `TestRanges.LinesInBounds` | scripts/line_budget.py:206-209 | no line outside the file is ever a test line |
| `TestRanges.ItemEndsWhereBracesBalance` | scripts/line_budget.py:185-205 | an item that opens before any early stop ends on the first line where the brace balance of the scanned text since its opening returns to zero |
| `TestRanges.ItemEndsAtEarlyStop` | scripts/line_budget.py:196-205 | an item whose opening brace does not come first ends on its first line with an early stop |
| `TestRanges.TwoParametersStopEarly` | scripts/line_budget.py:196-205 | a one-line signature with two typed parameters ends its item before the body |
| `LineCounts.CountSource` | scripts/line_budget.py:212-223 | the counts of one file from the two passes over its lines |
| `LineCounts.FileCountsPartition` | scripts/line_budget.py:212-223 | each effective line is counted once, as production, unit or integration |
| `LineCounts.LinesAreSplitByPath` | scripts/line_budget.py:212-223 | all lines count as integration below a directory `tests`, as unit in `tests.rs` and `..._tests.rs`; elsewhere exactly those in test ranges are unit |
| `LineCounts.CategoryCounts` | scripts/line_budget.py:260-273 | one pass sums each category, and fails exactly when some source has no category |
| `LineCounts.CategoryFieldsAreSums` | scripts/line_budget.py:260-273 | each field of a category's counts is the sum of that field over the category's files |
| `LineCounts.UnclassifiedNames` | scripts/line_budget.py:266-272 | the failure names exactly the unclassified sources |
| `LineCounts.CategoryIsOfPackage` | scripts/line_budget.py:230-250 | without a backslash right below `crates` the category is that of the package directory, and the listed capability files are control plane |
| `LineCounts.CategoryIsDirectory` | scripts/line_budget.py:230-250 | a classified source lies in a package directory of its category exactly when the component below `crates` holds no backslash |
| `LineCounts.ReportExceedsPackagesByStrays` | scripts/line_budget.py:276-329 | for every classified tree the category sums exceed the package sums by exactly the lines of the sources with a backslash right below `crates` |
| `LineCounts.ReportAssertionsHoldIff` | scripts/line_budget.py:318-329 | for every classified tree each assertion of the report holds exactly when no such source of its categories has an effective line |
| `LineCounts.ReportAssertionsHold` | scripts/line_budget.py:318-329 | both assertions hold for every classified tree without a backslash right below `crates` |
| `LineCounts.BackslashBreaksTheReport` | scripts/line_budget.py:231-236 | a concrete classified tree of one line for which both assertions fail |
| `Replay.EventReplayBuffer.ObserveSequence` | crates/mini-agent-app-server/src/lib.rs:434-439 | the per-thread mark is raised and never lowered |
| `Replay.EventReplayBuffer.PushEntry` | crates/mini-agent-app-server/src/lib.rs:441-452 | observed, then stored at the end unless held, the oldest of all threads evicted at 512 |
| `Replay.EventReplayBuffer.Restore` | crates/mini-agent-app-server/src/lib.rs:454-458 | a restored log is pushed entry by entry |
| `Replay.EventReplayBuffer.SendEvent` | crates/mini-agent-app-server/src/worker.rs:317-330 | every event raises its thread's mark, and one with an entry is stored |
| `Replay.EventReplayBuffer.ReplayEvents` | crates/mini-agent-app-server/src/lib.rs:973-1011 | a page: the thread's held entries above the cursor, the marks, and whether there is a gap, which `ReplayPages.GapIff` says without the oldest entry |
| `Replay.Oldest` | crates/mini-agent-app-server/src/lib.rs:984-989 | the least held sequence of a thread, or that it holds none |
| `ReplayPages.GapIff` | crates/mini-agent-app-server/src/lib.rs:984-997 | a page reports a gap exactly when some number above the cursor, not past the thread's mark, lies below everything held of the thread |
| `ReplayPages.CaughtUpSeesNoGap` | crates/mini-agent-app-server/src/lib.rs:994-997 | a cursor not behind the thread's mark is served nothing and sees no gap |
| `ReplayPages.CaughtUpStaysQuiet` | crates/mini-agent-app-server/src/lib.rs:973-1011 | a client that is caught up sees no gap and is served nothing, whatever it polls, other threads do and restarts lose, until its thread's next event |
| `ReplayPages.NextPageHasNoGap` | crates/mini-agent-app-server/src/json_rpc/turn.rs:40-49 | reading on at either cursor of a page without a gap reports none |
| `ReplayPages.OtherThreadsCanOpenAGap` | crates/mini-agent-app-server/src/lib.rs:441-452 | for any full window whose two oldest entries are the thread's only ones: two events of other threads between two pages open a gap |
| `ReplayPages.ReadsServeAll` | crates/mini-agent-app-server/src/lib.rs:973-1011 | `count` pages of `limit` serve exactly the first `count * limit` entries held above the cursor, in order, and leave the rest above the new cursor |
| `Replay.WindowIsBoundedAndDistinct` | crates/mini-agent-app-server/src/lib.rs:441-458 | whatever is pushed, at most 512 entries are held and none twice |
| `Replay.PushTwice` | crates/mini-agent-app-server/src/lib.rs:443-447 | pushing an entry again changes nothing |
| `Replay.EventKeepsConsistent` | crates/mini-agent-app-server/src/worker.rs:317-330 | with each thread's events in increasing order, the window is always the newest 512 of the full history |
| `Replay.MissesIffEvicted` | crates/mini-agent-app-server/src/lib.rs:441-452 | the window misses stored entries above a cursor exactly when one of the thread's evicted entries lies above it |
| `Replay.NoGapIsHonestIff` | crates/mini-agent-app-server/src/lib.rs:994-997 | that no gap means nothing lost holds exactly when the thread has a mark or none of its evicted entries lies above the cursor |
| `Replay.NoGapNothingLost` | crates/mini-agent-app-server/src/lib.rs:994-1004 | without a gap, a server that is honest about the thread holds everything the full history has above the cursor |
| `Replay.RestartKeepsConsistent` | crates/mini-agent-app-server/src/lib.rs:454-458 | a restart keeps the window, and exactly the marks of the threads that still have an entry in it |
| `Replay.RestartIsHonestIff` | crates/mini-agent-app-server/src/lib.rs:454-458 | right after a restart no gap means nothing lost exactly when the thread still has an entry or lost none above the cursor |
| `Replay.RestartHidesALoss` | crates/mini-agent-app-server/src/lib.rs:454-458 | a concrete restarted server reports no gap for a thread whose entries were all evicted |
| `Replay.NewEntryIsServedIff` | crates/mini-agent-app-server/src/lib.rs:441-452 | a new entry reaches a client exactly when its number is above the cursor and not yet held for its thread |
| `Replay.RestartedNumbersCollide` | crates/mini-agent-app-server/src/runtime.rs:263-266 | for any thread renumbered after a restart, an event numbered at most its newest reloaded entry gives a client that has read up to there neither an event nor a gap, and one with that entry's own number is not even stored |
| `Replay.ReplayIsComplete` | crates/mini-agent-app-server/src/lib.rs:973-1011 | from any start cursor, over any interleaving of events of all threads, restarts and page reads, a client that keeps the last sequence it was given and saw no gap has received exactly its thread's stored entries from its start to its cursor, in order and once each, if each read met a server honest about the thread |
| `Replay.LiveServerIsHonest` | crates/mini-agent-app-server/src/lib.rs:994-997 | a server is honest about every thread, for any cursor, as long as it does not restart |
| `Replay.KnownReplayIsComplete` | crates/mini-agent-app-server/src/json_rpc/turn.rs:40-49 | without restarts, from a cursor not ahead of the thread's mark, replay is complete whichever cursor the client follows, read by read |
| `Replay.ServerReplayIsCompleteIff` | crates/mini-agent-app-server/src/json_rpc/turn.rs:40-49 | every run without restarts that follows the server's cursor is complete exactly when the start cursor is not ahead of the thread's mark |
| `Replay.MisledRunIsIncomplete` | crates/mini-agent-app-server/src/json_rpc/turn.rs:40-49 | from any other start cursor a read, one event and a read move the cursor back and hand out an entry from below the start, without a gap |
| `Replay.CursorAheadIsMisled` | crates/mini-agent-app-server/src/json_rpc/turn.rs:40-49 | the concrete run with mark 7 and cursor 10 that receives entry 8 |
| `Replay.GapWithoutLoss` | crates/mini-agent-app-server/src/lib.rs:994-997 | a gap can be reported although nothing stored was lost |
| `RequestId.ParseFormat` | crates/mini-agent-app-server/src/lib.rs:159-174 | an approval id reads back to process, broker, sequence and call, whatever digits and dashes the call id has |
| `RequestId.FormatInjective` | crates/mini-agent-app-server/src/lib.rs:159-174 | two ids are equal exactly when all four parts agree, a missing call id counting as an empty one |
| `Approval.ApprovalBroker.AllocateSequence` | crates/mini-agent-app-server/src/lib.rs:159-159 | the counter hands out its value and wraps at 2^64, outside the lock |
| `Approval.ApprovalBroker.RequestResolution` | crates/mini-agent-app-server/src/lib.rs:155-220 | one critical section registers the responder and queues the request |
| `Approval.ApprovalBroker.BeginRespond` | crates/mini-agent-app-server/src/lib.rs:254-279 | the first critical section removes the responder or rejects with the broker unchanged |
| `Approval.ApprovalBroker.FinishRespond` | crates/mini-agent-app-server/src/lib.rs:280-305 | the second publishes the resolution, with the answer's own scope, decision and reason, only if the waiting thread received it |
| `Approval.ApprovalBroker.NextRequest` | crates/mini-agent-app-server/src/lib.rs:228-235 | the oldest queued request |
| `Approval.ApprovalBroker.NextEvent` | crates/mini-agent-app-server/src/lib.rs:237-252 | queued requests before any resolution |
| `Approval.AnswerIsTakenIff` | crates/mini-agent-app-server/src/lib.rs:257-276 | an answer is taken exactly when its request waits and the scope fits the decision, and then never again |
| `Approval.OfferedScopes` | crates/mini-agent-app-server/src/lib.rs:204-211 | an approval of a registered call is taken exactly for this once, or for the session or project if the call has a grant key; a denial exactly without a scope |
| `Approval.TicketsNameApart` | crates/mini-agent-app-server/src/lib.rs:159-174 | two allocations fewer than 2^64 apart never share a request id, also across the counter's wrap |
| `Approval.AWrapApartRepeats` | crates/mini-agent-app-server/src/lib.rs:159-174 | exactly 2^64 allocations apart the same call gets the same request again |
| `Approval.ResolvedAfterRequested` | crates/mini-agent-app-server/src/lib.rs:237-252 | when a resolution is handed out, its request has already left the queue |
| `Approval.PlacedKept` | crates/mini-agent-app-server/src/lib.rs:214-305 | every step keeps each registration in exactly one place: waiting under its own id, in flight, published, lost or displaced, with answers within its scopes |
| `Approval.DisplacesIff` | crates/mini-agent-app-server/src/lib.rs:214-219 | a registration displaces a waiting one exactly when sequence number and call id coincide |
| `Approval.ApprovalRunIsSafe` | crates/mini-agent-app-server/src/lib.rs:155-306 | in every interleaving, however often the counter wraps, each registration is resolved at most once, requests leave in registration order and before their resolutions, and registered = waiting + in flight + published + lost + displaced |
| `Approval.NothingIsDisplaced` | crates/mini-agent-app-server/src/lib.rs:155-220 | no waiting request is displaced in a run where every registering call is fewer than 2^64 allocations from those waiting |
| `Approval.ResolvedIdsDiffer` | crates/mini-agent-app-server/src/lib.rs:254-306 | two published resolutions of calls fewer than 2^64 allocations apart have different request ids |
| `Approval.ResolutionNamesItsCall` | crates/mini-agent-app-server/src/lib.rs:281-298 | in every interleaving a published resolution carries the fields of the one call it answers, and grants a lasting scope only if that call offered one |
| `Approval.ResolutionPassesOnItsAnswer` | crates/mini-agent-app-server/src/lib.rs:281-298 | in every interleaving a published resolution has exactly the scope, decision and reason of the one answer that claimed its registration, so none grants more than the client chose |
| `Approval.ClaimWasAccepted` | crates/mini-agent-app-server/src/lib.rs:254-279 | the answer recorded for a registration was given in one step of the run, accepted there, while that registration waited |
| `Approval.ClaimsKept` | crates/mini-agent-app-server/src/lib.rs:254-305 | a registration is claimed by at most one answer, which stays the one it was claimed by |
| `Revision.RuntimeActor.Mutate` | crates/mini-agent-app-server/src/runtime_actor.rs:1943-1958 | a mutation's effect, its failure, and the advance of both revisions only on a reported change |
| `Revision.RuntimeActor.AdvanceRevision` | crates/mini-agent-app-server/src/runtime_actor.rs:1960-1968 | the actor's own advance stores the new revision in the shared one |
| `Revision.RuntimeActor.HandleIdle` | crates/mini-agent-app-server/src/runtime_actor.rs:16-30 | check, then the fork handler or the general one; the general one's panic is unreachable |
| `Revision.RuntimeActor.HandleRunning` | crates/mini-agent-app-server/src/runtime_actor.rs:920-955 | check, then the gate for commands while a turn runs or stops |
| `Revision.OnlyAcceptedMutationsChange` | crates/mini-agent-app-server/src/runtime_actor.rs:1058-1106 | state only changes through a current mutation that the mode lets through; nothing changes while stopping |
| `Revision.ReplySaysWhy` | crates/mini-agent-app-server/src/runtime_actor.rs:920-955 | each kind of reply is given exactly under its condition, conflicts before busy before unavailable |
| `Revision.ReadsNeedNoRevision` | crates/mini-agent-app-server/src/runtime_command.rs:160-181 | the commands that only read are answered at any revision and in any mode and change nothing; every other one is refused at another revision |
| `Revision.BusyIff` | crates/mini-agent-app-server/src/runtime_actor.rs:1058-1106 | at the current revision a command has to wait exactly if it is one of those that need the turn to end, or, while stopping, if it is no read |
| `Revision.IdleWorkAdvancesIff` | crates/mini-agent-app-server/src/runtime_actor.rs:1943-1958 | an idle actor keeps the data a command's work left and advances exactly when the work succeeded and changed something: reads and forks never, some commands when they say so, all others always |
| `Revision.NoLostUpdate` | crates/mini-agent-app-server/src/runtime_actor.rs:1085-1106 | over any interleaving the shared revision is the actor's; a changing client mutation carried exactly the revision before it and moved it by one; below the top of the range nothing advanced since its sender looked and no two carried the same revision |
| `Revision.CurrentIff` | crates/mini-agent-app-server/src/runtime_command.rs:205-212 | a waiting mutation is current exactly when nothing advanced since its sender looked, or the range is exhausted |
| `Revision.CommitSawItsData` | crates/mini-agent-app-server/src/runtime_actor.rs:1943-1958 | when every change of data is announced by an advance, a commit acts on the very data its sender saw |
| `Revision.UnannouncedIff` | crates/mini-agent-app-server/src/runtime_actor.rs:1951-1957 | a command changes data without an advance exactly when it is a current mutation the mode lets through and it failed, or reported no change, after changing something |
| `Revision.FailureChangesSilently` | crates/mini-agent-app-server/src/runtime_actor.rs:1951-1957 | a concrete run where a failed command lets a later commit act on data its sender never saw |
| `Revision.TokensRepeatAtTheTop` | crates/mini-agent-app-server/src/action.rs:25-27 | at the top of the 64-bit range two changing mutations carry the same revision |
| `Revision.ActionSequencer.Issue` | crates/mini-agent-app-server/src/action.rs:165-195 | admissions and receipts draw from the same saturating counters |
| `Revision.IdentitiesDistinctIff` | crates/mini-agent-app-server/src/action.rs:165-195 | two actions share an identity exactly when both come after saturation; identities otherwise grow with admission order |
| `Goal.GoalRuntime.ApplyGoalSet` | crates/mini-agent-app-server/src/goal_runtime.rs:129-182 | edit, pause, resume or create, with each rejection and each failing write; `GoalLaws` says what each stores |
| `Goal.GoalRuntime.CreateGoal` | crates/mini-agent-app-server/src/goal_runtime.rs:184-215 | a new goal only from an active request with an objective; the reservation is dropped first |
| `GoalLaws.EditIsAcceptedIff` | crates/mini-agent-app-server/src/goal_runtime.rs:129-182 | exactly when a change of a running or paused goal is accepted |
| `GoalLaws.EditIsStored` | crates/mini-agent-app-server/src/goal_runtime.rs:129-182 | an accepted objective is stored without the white space around it, a budget as given, the status as asked for; what the request leaves out stays, and so do id, counters and verification; a rejected request stores all of its text or none |
| `GoalLaws.TrimIsCore` | crates/mini-agent-host/src/goal.rs:278-280 | a trimmed text is a contiguous part of the text, has no white space at its ends and only white space around it |
| `GoalLaws.CreationIff` | crates/mini-agent-app-server/src/goal_runtime.rs:184-215 | exactly when a goal is created, what it is, and what a failing write leaves behind |
| `Goal.GoalRuntime.ClearGoal` | crates/mini-agent-app-server/src/goal_runtime.rs:217-221 | the goal, its reservation and its pending verification are dropped |
| `GoalLaws.ClearIff` | crates/mini-agent-app-server/src/goal_runtime.rs:217-221 | clearing always disarms the goal, and drops and reports it exactly when it is there and can be removed |
| `Goal.GoalRuntime.ReserveTurn` | crates/mini-agent-app-server/src/goal_runtime.rs:223-229 | succeeds unless this goal's turn is already reserved |
| `Goal.GoalRuntime.ReleaseTurn` | crates/mini-agent-app-server/src/goal_runtime.rs:231-235 | drops only this goal's reservation |
| `Goal.GoalRuntime.ScheduleGoalTurn` | crates/mini-agent-app-server/src/runtime_actor.rs:1284-1312 | reserve and queue, releasing again when the queue refuses |
| `Goal.GoalRuntime.MarkTurnStarted` | crates/mini-agent-app-server/src/goal_runtime.rs:237-244 | the reservation becomes the running goal's active, unsettled turn |
| `Goal.GoalRuntime.MarkTurnSettled` | crates/mini-agent-app-server/src/goal_runtime.rs:246-252 | settles only the running goal's own active turn |
| `Goal.GoalRuntime.UpdateRunningGoal` | crates/mini-agent-host/src/goal.rs:747-767 | turn-scoped updates leave any other goal, status or turn alone |
| `GoalLaws.UsageAddsUp` | crates/mini-agent-host/src/goal.rs:361-379 | reported tokens add up, to the top of the 64-bit range, however they are split, and stop the goal exactly when they have reached its budget |
| `Goal.GoalRuntime.FailGoalWithReason` | crates/mini-agent-host/src/goal.rs:830-861 | the goal fails with a bounded reason, a running verification with it |
| `GoalLaws.FailureKeepsTheRest` | crates/mini-agent-host/src/goal.rs:830-861 | failing changes only status, error and a running verification; the error is the reason's first 512 characters at most |
| `Goal.GoalRuntime.PrepareVerification` | crates/mini-agent-app-server/src/goal_runtime.rs:254-303 | one verification in flight, for the running goal's settled turn, with each failure point |
| `Goal.GoalRuntime.CompleteVerification` | crates/mini-agent-app-server/src/goal_runtime.rs:305-359 | advance, fail or ignore, with each stale and failing case |
| `GoalLaws.RoundAppliesItsVerdict` | crates/mini-agent-app-server/src/goal_runtime.rs:237-359 | start, settle, prepare and complete of any running goal: the verdict moves milestone, loops, status and score as it says, the turn is gone, and all else stays |
| `GoalLaws.FailedResultSaysWhy` | crates/mini-agent-app-server/src/goal_runtime.rs:313-359 | a result that is not applied fails the goal with its reason: stale, the verifier's own, or not recorded |
| `GoalRuns.EachVerificationActsOnce` | crates/mini-agent-app-server/src/goal_runtime.rs:254-359 | in every run each prepared verification touches the goal in at most one completion, on the goal and settled turn it was prepared for; that completion fails the goal, or, at its own checkpoint, applies one verdict and then at most fails the goal for want of a next turn |
| `GoalRuns.AdvancesAndFailsIff` | crates/mini-agent-app-server/src/runtime_actor.rs:1597-1604 | one completion both advances and fails the goal exactly when its verdict leaves the goal running, the next turn is neither reserved nor accepted by the queue, and the failure can be stored |
| `GoalRuns.ApprovedGoalCanFail` | crates/mini-agent-app-server/src/runtime_actor.rs:1597-1604 | a concrete approved milestone after which the goal has moved on and failed |
| `GoalRuns.ResultsActUndisturbed` | crates/mini-agent-app-server/src/goal_runtime.rs:305-359 | with turn ids never reused, whatever goal ids repeat, no start, pause, clear, replacement, limit or other result came between preparing and a result that acts |
| `GoalRuns.CompletionMatches` | crates/mini-agent-app-server/src/goal_runtime.rs:313-333 | a result touches the goal only if it answers the pending verification in place, and advances it only by its own verdict |
| `GoalRuns.GoalEndsWithinItsLoops` | crates/mini-agent-host/src/goal.rs:907-944 | started with or without a stored goal, with goal ids never reused, whatever turn ids repeat, a goal converges exactly on its third approved verification and sees at most `max_loops + 2` verdicts, and what is stored satisfies the same counts |
| `GoalRuns.PreparesIff` | crates/mini-agent-app-server/src/goal_runtime.rs:260-302 | exactly when a verification is prepared, and what it then holds |
| `GoalRuns.ReservedOnce` | crates/mini-agent-app-server/src/runtime_actor.rs:1284-1290 | two schedulings in a row queue one start; starting or clearing frees the reservation |
| `GoalRuns.ReservedIffQueued` | crates/mini-agent-app-server/src/runtime_actor.rs:1284-1312 | in every run a goal's turn is reserved exactly while a queued start has not been given up by starting, clearing, an accepted edit that leaves the goal paused, or a creation past its first checks |
| `GoalRuns.StartsAreQueuedOnce` | crates/mini-agent-app-server/src/goal_runtime.rs:223-244 | in every run, whatever ids repeat, a second start is queued for a goal only once the first is given up, and in that very step only by creating a goal under an id used before |
| `GoalRuns.StuckIffRefused` | crates/mini-agent-app-server/src/worker.rs:2918-2977 | in every run a reserved goal has no start in the queue exactly when its last one was refused and nothing gave the reservation up since |
| `GoalRuns.StuckMoves` | crates/mini-agent-app-server/src/worker.rs:1194-1205 | one step leaves a goal stuck exactly if it refuses the goal's last start, or the goal was stuck and the step gives nothing up: no scheduling frees it |
| `GoalRuns.NewestStartIsReserved` | crates/mini-agent-app-server/src/goal_runtime.rs:223-244 | in every run the newest queued start is the reserved goal's own |
| `GoalRuns.RefusedGoalIsStuck` | crates/mini-agent-app-server/src/worker.rs:2918-2977 | for any running unsettled goal: resume, refused start, resume leaves it reserved with no start queued |
| `GoalRuns.PauseQueuesTwice` | crates/mini-agent-app-server/src/goal_runtime.rs:172-178 | pausing and resuming before the first start has begun queues a second one |
| `GoalRuns.ClearedResultIsIgnored` | crates/mini-agent-app-server/src/goal_runtime.rs:217-221 | after clearing, even a clear whose file removal failed, a late result changes nothing |
| `GoalRuns.SettledTurnIsLeftUnverified` | crates/mini-agent-app-server/src/goal_runtime.rs:261-263 | a turn that settles while an older verification is pending is not verified, and the old result only frees the slot |
| `GoalRuns.PauseReachesUnverifiedTurn` | crates/mini-agent-app-server/src/goal_runtime.rs:172-178 | pausing, resuming and finishing one more turn reaches that state |
| `WorldRefresh.ThreadRuntime.UpdateWorld` | crates/mini-agent-app-server/src/runtime_actor.rs:1264-1282 | no change, failure, or the new world injected, recorded and adopted |
| `WorldRefresh.ThreadRuntime.AppendContextInjectionAndPersist` | crates/mini-agent-app-server/src/runtime_actor.rs:1710-1763 | append unless current, record, and roll back when recording fails |
| `WorldRefresh.ThreadRuntime.AppendContextAndPersist` | crates/mini-agent-app-server/src/runtime_actor.rs:1680-1708 | client context, with the same rollback |
| `WorldRefresh.ThreadRuntime.RestoreSession` | crates/mini-agent-core/src/harness.rs:306-313 | restoring a history appends every unreported injection that is not current in it |
| `WorldRefresh.InventoryIsLatest` | crates/mini-agent-core/src/session.rs:158-171 | the source inventory answers with the newest message of each source |
| `WorldRefresh.ReplayKeepsIff` | crates/mini-agent-core/src/harness.rs:306-313 | a restore leaves a history as given exactly when the model already has every unreported injection |
| `WorldRefresh.SuccessAdvancesTogether` | crates/mini-agent-app-server/src/runtime_actor.rs:1264-1282 | a successful refresh moves history, stored history and world together, by one message that supersedes the previous source |
| `WorldRefresh.RefreshFailsIff` | crates/mini-agent-app-server/src/runtime_actor.rs:1264-1282 | when a refresh fails, and that stored history and world then stay |
| `WorldRefresh.RefreshSaysWhy` | crates/mini-agent-app-server/src/runtime_actor.rs:1710-1763 | which error a failed refresh reports, first cause first |
| `WorldRefresh.FailedRefreshKeepsHistoryIff` | crates/mini-agent-app-server/src/runtime_actor.rs:1751-1760 | a failed refresh leaves the history alone exactly when it failed before appending: a failed record is never rolled back in full |
| `WorldRefresh.FailedRefreshLeavesItsWorld` | crates/mini-agent-app-server/src/runtime_actor.rs:1751-1760 | a concrete runtime and failing record after which the history has grown by the rejected world |
| `WorldRefresh.RetryIsNotRecorded` | crates/mini-agent-app-server/src/runtime_actor.rs:1729-1731 | after such a failure a retry succeeds without recording, and going back to the old world counts as no change |
| `WorldRefresh.FailedAppendIsUndoneIff` | crates/mini-agent-app-server/src/runtime_actor.rs:1697-1706 | a failed client append is undone exactly when the model already has every unreported source |
| `WorldRefresh.StepMovesHistory` | crates/mini-agent-app-server/src/runtime_actor.rs:1970-1986 | what one refresh, client append or turn, whose record may fail too, does to the history and the store |
| `WorldRefresh.StoredIsCurrentIff` | crates/mini-agent-app-server/src/runtime_actor.rs:1680-1763 | over any run of refreshes, appends and turns in which every record and rollback may fail, the stored history is the thread's exactly when nothing was lost after the last write, and is shorter otherwise |
| `Registry.ThreadManager.constructor` | crates/mini-agent-app-server/src/thread_manager.rs:19-33 | distinct initial threads give a map and an ordered id list that agree |
| `Registry.ThreadManager.CreateNew` | crates/mini-agent-app-server/src/thread_manager.rs:56-64 | a thread from the factory under the requested id |
| `Registry.ThreadManager.ForkFrom` | crates/mini-agent-app-server/src/thread_manager.rs:66-87 | a settled source's checkpoint in a new thread |
| `Registry.ThreadManager.ResumeFrom` | crates/mini-agent-app-server/src/thread_manager.rs:89-108 | a checkpoint put into the existing thread, or into a new one |
| `Registry.ThreadManager.RenameThread` | crates/mini-agent-app-server/src/thread_manager.rs:120-145 | remove, re-identify, insert and overwrite the listed id |
| `Registry.CreateKeeps` | crates/mini-agent-app-server/src/thread_manager.rs:56-64 | creation keeps map and list in agreement and changes nothing when it fails |
| `Registry.CreateAddsLast` | crates/mini-agent-app-server/src/thread_manager.rs:56-64 | exactly when a thread is created; it is listed last, has what the factory gave it, and numbers afresh under another id |
| `Registry.ForkKeeps` | crates/mini-agent-app-server/src/thread_manager.rs:66-87 | forking keeps the agreement and changes nothing when it fails |
| `Registry.ResumeKeeps` | crates/mini-agent-app-server/src/thread_manager.rs:89-108 | resuming keeps the agreement and changes nothing when it fails |
| `Registry.ResumeCopiesCheckpoint` | crates/mini-agent-app-server/src/thread_manager.rs:89-108 | exactly when a resume succeeds; the named thread gets the checkpoint's history, status and numbering, other threads stay, and nothing is added exactly when the history has every unreported injection |
| `Registry.RenameKeepsPosition` | crates/mini-agent-app-server/src/thread_manager.rs:120-145 | a rename succeeds exactly for a known old and an unknown new id, keeps every list position and the history, and otherwise changes nothing |
| `Registry.ForkCopiesHistory` | crates/mini-agent-app-server/src/thread_manager.rs:66-87 | a fork starts from the source's history and numbering, other threads stay; it adds nothing exactly when the source has every startup injection |
| `Registry.ResumeOwnCheckpoint` | crates/mini-agent-core/src/thread.rs:140-172 | for a settled thread, checkpoint and resume are a round trip exactly when the history is within the limits, no injection is waiting and both numberings have begun |
| `Registry.RegistryAgreesThroughout` | crates/mini-agent-app-server/src/thread_manager.rs:43-145 | every run of creations, forks, resumes, renames and turns, which take their thread out, keeps keys, list and thread ids in agreement |
| `Status.StatusHandle.PublishAt` | crates/mini-agent-app-server/src/status.rs:43-88 | what is stored and notified, with the error cut at 1024 characters |
| `Status.ShortenedIsPrefix` | crates/mini-agent-app-server/src/status.rs:62-62 | an error is kept whole or cut to its first 1024 characters |
| `Status.ReleasedIff` | crates/mini-agent-app-server/src/status.rs:70-78 | one publish ends a turn's stopping phase exactly when it ends that turn or concerns another |
| `Status.StoppingHoldsUntilReleased` | crates/mini-agent-app-server/src/status.rs:64-78 | from a turn's stopping on, any publishes leave it stopping and inactive up to the first release, which is published as it is |
| `Status.OtherTurnsPassTheLatch` | crates/mini-agent-app-server/src/status.rs:70-78 | news of another turn passes the latch, after which a late publish makes the stopped turn look active |
| `Status.NotificationsFollowStatus` | crates/mini-agent-app-server/src/status.rs:79-87 | a client that keeps the last notification has the current status, and consecutive notifications differ |
| `Trace.Open` | crates/mini-agent-app-server/src/trace.rs:53-70 | a trace is opened exactly for ids of 1 to 128 bytes in UTF-8 |
| `Trace.JsonlTrace.EmitRecord` | crates/mini-agent-app-server/src/trace.rs:81-130 | metadata, the three error cases and the write, for one event appended to the stream |
| `Trace.JsonlTrace.Finish` | crates/mini-agent-app-server/src/trace.rs:73-79 | the artifact is handed over exactly when no line of the whole stream fails and the writer flushes, and then holds every ideal line |
| `Trace.RecordIsIdeal` | crates/mini-agent-app-server/src/trace.rs:85-120 | the folded metadata is the last model start and the count of model starts since the last turn start |
| `Trace.FirstFailureIsFirst` | crates/mini-agent-app-server/src/trace.rs:121-129 | the first line that is too long, over budget or refused |
| `Trace.TraceIsIdealPrefix` | crates/mini-agent-app-server/src/trace.rs:81-130 | for every stream, rendering and writer the artifact is the ideal lines up to the first failing one plus at most part of a refused one, within 256 KiB, and complete exactly when nothing fails |
| `Trace.WrittenLinesAreIdeal` | crates/mini-agent-app-server/src/trace.rs:104-123 | every written line is within 8 KiB and renders the ideal record; the round counter cannot have saturated |
| `Trace.ErrorIsSticky` | crates/mini-agent-app-server/src/trace.rs:82-84 | after an error nothing is written and the first error stays |
| `Trace.ErrorIsOfFirstFailure` | crates/mini-agent-app-server/src/trace.rs:104-130 | the recorded error is that of the first failing line: too long, else over budget, else refused |

## Left out

- Arguments.ProjectedArgumentsFit: the length of an encoded value is taken to be below 2^64, as the program's `usize` makes it.
- Arguments: the branch that replaces arguments which cannot be serialised; `serde_json` values always can.
- Arguments: an object is its ordered entries and a number its text; serde's parsing is not part of this model.
- ThreadItems: only the fields an item takes from its event or message; serde names and the other protocol structs are not modelled.
- Scanner: the scanner does not nest block comments and resets an escape at a line end; the lexer it is compared with does the same, and full Rust lexing is not modelled.
- LineCounts: reading files and git trees, splitting text into lines, argument parsing, limits and printing; file texts and paths are inputs.
- LineCounts: package counts of a checkout that itself lies below a directory named `tests`, where absolute and relative paths differ.
- Replay.ReplayIsComplete: runs let each thread's numbering continue across a restart; the code starts it again at 1, and then a client can miss events without a gap (`Replay.RestartedNumbersCollide`).
- Replay: the session store behind the buffer, its failing appends and its size limits; a restart reloads the entries the window held. What makes an event worth storing is an input: an event carries its entry or none.
- Approval: wakers, mutex poisoning, the approval sidecar, execution scope, target paths and how a grant key is derived; the key is an input.
- Revision: installing a second runtime, receipts' reply channels, and what each command does; its work is an arbitrary change of data.
- GoalRuns.ResultsActUndisturbed: that turn ids do not repeat is a hypothesis; a thread resumed from an earlier checkpoint reuses them. `GoalRuns.EachVerificationActsOnce` needs none.
- GoalRuns.GoalEndsWithinItsLoops: that goal ids do not repeat is a hypothesis; two goals made in one millisecond share one.
- GoalRuns: commands other than goal starts in the worker's queue, and why a start is refused; a refusal is a step of its own, and runs also allow a turn to start for a goal other than the oldest queued one.
- Goal: the clock behind goal ids, plan files, verifier prompts, verdict parsing and notifications; a verdict is an input.
- WorldRefresh: malformed injection text, which the one caller cannot produce, and the repair of interrupted tool groups, which settled histories do not need.
- WorldRefresh: context compaction, clearing the history and the individual limits; whether a restored history is within limits is an input.
- Registry: closing threads, events of a turn, and the model, tools and policy inside a thread.
- Status: notifications are sent after the lock is released, so two publishers may send in the other order.
- Trace: the JSON rendering and the digests; every theorem holds for any rendering of a record.
- JSON-RPC decoding, the client and local frontends, session forks, skills, MCP, background shells and scheduled tasks: delegation, process and network work.
