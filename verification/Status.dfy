/** The runtime status shared with clients, and the latch that holds a stopping turn. */
module Status {
  import opened Wrappers

  datatype Phase =
    | Idle | StartingTurn | Model | Tool | WaitingApproval | WaitingForUserInput | Stopping | Compaction
    | Persisting | GoalVerification | GoalContinuationQueued | Resuming | Completed | Failed

  datatype RuntimeStatus = RuntimeStatus(
    phase: Phase, threadId: string, turnId: Option<string>, operationId: Option<string>,
    checkpointSeq: Option<nat>, stateRevision: nat, timestampMs: nat, error: Option<string>)

  const MAX_ERROR_CHARS: nat := 1024

  function Shortened(error: Option<string>): Option<string> {
    if error.Some? && |error.value| > MAX_ERROR_CHARS then Some(error.value[..MAX_ERROR_CHARS]) else error
  }

  /** An error is kept whole, or cut to its first 1024 characters. */
  lemma ShortenedIsPrefix(error: Option<string>)
    ensures error.None? ==> Shortened(error).None?
    ensures error.Some? ==>
              && Shortened(error).Some? && Shortened(error).value <= error.value
              && |Shortened(error).value| == Least(|error.value|, 1024)
  {
  }

  /** A stopping turn is not moved by anything but its own end. */
  predicate Latched(current: RuntimeStatus, next: RuntimeStatus) {
    current.phase == Stopping && current.turnId == next.turnId
    && next.phase !in {Stopping, Completed, Failed}
  }

  function Publish(current: RuntimeStatus, next: RuntimeStatus): RuntimeStatus {
    if Latched(current, next) then current else next
  }

  predicate ActiveTurnMatches(current: RuntimeStatus, threadId: string, turnId: string) {
    && current.threadId == threadId && current.turnId == Some(turnId)
    && current.phase !in {Idle, Completed, Failed, Stopping}
  }

  class StatusHandle {
    var current: RuntimeStatus
    var notifications: seq<RuntimeStatus>

    constructor (initial: RuntimeStatus)
      ensures current == initial && notifications == []
    {
      current, notifications := initial, [];
    }

    method PublishAt(phase: Phase, threadId: string, turnId: Option<string>, operationId: Option<string>,
                     checkpointSeq: Option<nat>, stateRevision: nat, now: nat, error: Option<string>)
      modifies this
      ensures var next := RuntimeStatus(phase, threadId, turnId, operationId, checkpointSeq, stateRevision, now,
                                        Shortened(error));
              && current == Publish(old(current), next)
              && notifications == old(notifications) + Notified(old(current), next)
      ensures current != old(current) && current.error.Some? ==> |current.error.value| <= MAX_ERROR_CHARS
    {
      var next := RuntimeStatus(phase, threadId, turnId, operationId, checkpointSeq, stateRevision, now,
                                Shortened(error));
      if current.phase == Stopping && current.turnId == next.turnId
         && phase != Stopping && phase != Completed && phase != Failed
      {
        return;
      }
      var changed := current != next;
      if changed {
        current := next;
        notifications := notifications + [next];
      }
    }
  }

  function Notified(current: RuntimeStatus, next: RuntimeStatus): seq<RuntimeStatus> {
    if Latched(current, next) || current == next then [] else [next]
  }

  function Run(current: RuntimeStatus, publishes: seq<RuntimeStatus>): RuntimeStatus {
    if publishes == [] then current
    else Publish(Run(current, publishes[..|publishes| - 1]), publishes[|publishes| - 1])
  }

  function Notifications(current: RuntimeStatus, publishes: seq<RuntimeStatus>): seq<RuntimeStatus> {
    if publishes == [] then []
    else
      var before := publishes[..|publishes| - 1];
      Notifications(current, before) + Notified(Run(current, before), publishes[|publishes| - 1])
  }

  /** The end of the turn, or news of another turn: what releases the latch. */
  predicate Releases(turnId: Option<string>, next: RuntimeStatus) {
    next.turnId != turnId || next.phase in {Completed, Failed}
  }

  predicate StoppingFor(current: RuntimeStatus, turnId: Option<string>) {
    current.phase == Stopping && current.turnId == turnId
  }

  /** One publish ends a turn's stopping phase exactly when it releases the latch. */
  lemma ReleasedIff(current: RuntimeStatus, turnId: Option<string>, next: RuntimeStatus)
    requires StoppingFor(current, turnId)
    ensures StoppingFor(Publish(current, next), turnId) <==> !Releases(turnId, next)
    ensures Releases(turnId, next) ==> Publish(current, next) == next
  {
  }

  /**
   From a turn's stopping on, any publishes leave it stopping, and not an active turn of any
   thread, up to the first release; the first release is published as it is.
   */
  lemma {:induction false} StoppingHoldsUntilReleased(
    current: RuntimeStatus, turn: string, publishes: seq<RuntimeStatus>, thread: string)
    requires StoppingFor(current, Some(turn))
    requires forall i :: 0 <= i < |publishes| - 1 ==> !Releases(Some(turn), publishes[i])
    ensures forall i :: 0 <= i < |publishes| ==>
              StoppingFor(Run(current, publishes[..i]), Some(turn))
              && !ActiveTurnMatches(Run(current, publishes[..i]), thread, turn)
    ensures var end := Run(current, publishes);
            && !ActiveTurnMatches(end, thread, turn)
            && (if publishes != [] && Releases(Some(turn), publishes[|publishes| - 1])
                then end == publishes[|publishes| - 1] else StoppingFor(end, Some(turn)))
  {
    if publishes != [] {
      var before := publishes[..|publishes| - 1];
      StoppingHoldsUntilReleased(current, turn, before, thread);
      forall i | 0 <= i < |publishes|
        ensures StoppingFor(Run(current, publishes[..i]), Some(turn))
      {
        if i < |before| {
          assert publishes[..i] == before[..i];
        } else {
          assert publishes[..i] == before;
          if before != [] {
            assert !Releases(Some(turn), before[|before| - 1]);
          }
        }
      }
    }
  }

  /** News of another turn, or of none, is not held back, and then the old turn can look active. */
  lemma OtherTurnsPassTheLatch(current: RuntimeStatus, turn: string, other: RuntimeStatus, late: RuntimeStatus)
    requires StoppingFor(current, Some(turn)) && other.turnId != Some(turn)
    requires late.turnId == Some(turn) && late.phase == Tool
    ensures Run(current, [other, late]) == late && ActiveTurnMatches(late, late.threadId, turn)
  {
    assert [other, late][..1] == [other] && [other][..0] == [];
    assert Run(current, [other]) == Publish(Run(current, []), other);
  }

  function LastSeen(current: RuntimeStatus, seen: seq<RuntimeStatus>): RuntimeStatus {
    if seen == [] then current else seen[|seen| - 1]
  }

  /** A client that keeps the last notification has the current status, and none repeats. */
  lemma {:induction false} NotificationsFollowStatus(current: RuntimeStatus, publishes: seq<RuntimeStatus>)
    ensures var seen := Notifications(current, publishes);
            && LastSeen(current, seen) == Run(current, publishes)
            && |seen| <= |publishes|
            && (seen != [] ==> seen[0] != current)
            && (forall i :: 0 <= i < |seen| - 1 ==> seen[i] != seen[i + 1])
            && (forall i :: 0 <= i < |seen| ==> seen[i] in publishes)
  {
    if publishes != [] {
      NotificationsFollowStatus(current, publishes[..|publishes| - 1]);
    }
  }
}
