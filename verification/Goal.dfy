/**
 The goal runtime: one durable goal of a thread, the reservation of its next turn, and at
 most one verification in flight that decides whether the goal advances or fails.
 */
module Goal {
  import opened Text
  import opened Wrappers

  const MAX_OBJECTIVE_BYTES: nat := 8192
  const MAX_ERROR_CHARS: nat := 512
  const TOTAL_MILESTONES: nat := 3
  const I64_MAX: int := 0x7fff_ffff_ffff_ffff

  datatype Status = Running | Converged | Failed | UserPaused | UsageLimited | BudgetLimited

  datatype Verification = NotVerified | Verifying | Verified | VerificationFailed

  datatype RequestedStatus = Active | Paused | Blocked | UsageLimit | BudgetLimit | Complete

  datatype GoalState = GoalState(
    goalId: string, objective: string, status: Status,
    currentMilestone: nat, loopCount: nat, maxLoops: nat,
    score: Option<nat>, tokenBudget: Option<int>, tokensUsed: int,
    activeTurn: Option<string>, settled: bool, lastError: Option<string>, verification: Verification)

  datatype Pending = Pending(goalId: string, turn: string, checkpoint: nat)

  datatype Outcome = Approved | NeedsClarification | Rejected | Invalid

  datatype Verdict = Verdict(outcome: Outcome, score: Option<nat>)

  datatype GoalError = InvalidInput | Storage | NotFound | NotConfigured

  /**
   Which file operations fail: reading the state, writing it, writing the verifier's note (or
   the plan of a new goal) after it, and any later read or write of the same operation.
   */
  datatype Faults = Faults(load: bool, write: bool, note: bool, later: bool)

  const NO_FAULTS := Faults(false, false, false, false)

  /** The stored goal and the handle's own two fields. */
  datatype Handle = Handle(
    goal: Option<GoalState>, pending: Option<Pending>, scheduled: Option<string>,
    verifierConfigured: bool, maxLoops: nat)

  type Answer<T> = Result<T, GoalError>

  // ------------------------------------------------------------ the store

  predicate IsWhitespace(c: char) {
    || '\t' <= c <= '\r' || c in {' ', '\U{85}', '\U{a0}', '\U{1680}'} || '\U{2000}' <= c <= '\U{200a}'
    || c in {'\U{2028}', '\U{2029}', '\U{202f}', '\U{205f}', '\U{3000}'}
  }

  predicate IsBlank(text: string) {
    forall i :: 0 <= i < |text| ==> IsWhitespace(text[i])
  }

  function Trim(text: string): string {
    if text != [] && IsWhitespace(text[0]) then Trim(text[1..])
    else if text != [] && IsWhitespace(text[|text| - 1]) then Trim(text[..|text| - 1])
    else text
  }

  function NewGoal(goalId: string, objective: string, maxLoops: nat, tokenBudget: Option<int>): GoalState {
    GoalState(goalId, objective, Running, 1, 0, if maxLoops == 0 then 100 else maxLoops,
              None, tokenBudget, 0, None, false, None, NotVerified)
  }

  /** The goal a turn-scoped update applies to: running, with this id and, if named, this turn. */
  predicate Targets(goal: Option<GoalState>, goalId: string, turn: Option<string>) {
    && goal.Some? && goal.value.goalId == goalId && goal.value.status == Running
    && (turn.Some? ==> goal.value.activeTurn == turn)
  }

  function WithTurn(g: GoalState, turn: string): GoalState {
    g.(activeTurn := Some(turn), settled := false)
  }

  function PausedGoal(g: GoalState): GoalState {
    g.(status := UserPaused, activeTurn := None, settled := false)
  }

  function Used(g: GoalState, tokens: nat): GoalState {
    var amount := if tokens <= I64_MAX then tokens else I64_MAX;
    var total := if g.tokensUsed + amount <= I64_MAX then g.tokensUsed + amount else I64_MAX;
    if g.tokenBudget.Some? && total >= g.tokenBudget.value then
      g.(tokensUsed := total, status := BudgetLimited, lastError := Some("goal token budget exhausted"))
    else g.(tokensUsed := total)
  }

  /** One verdict on a running goal. */
  function Advanced(g: GoalState, v: Verdict): GoalState {
    var loops := g.loopCount + 1;
    var judged := g.(loopCount := loops, verification := Verified, score := v.score,
                     activeTurn := None, settled := false, lastError := None);
    if v.outcome == Approved then
      if g.currentMilestone >= TOTAL_MILESTONES then judged.(status := Converged)
      else judged.(currentMilestone := g.currentMilestone + 1)
    else if loops >= g.maxLoops then judged.(status := Failed)
    else judged
  }

  function FailedGoal(g: GoalState, reason: string): GoalState {
    g.(status := Failed,
       lastError := Some(if |reason| <= MAX_ERROR_CHARS then reason else reason[..MAX_ERROR_CHARS]),
       verification := if g.verification == Verifying then VerificationFailed else g.verification)
  }

  // ------------------------------------------------------------ specification

  function Load(h: Handle, f: Faults): Answer<Option<GoalState>> {
    if f.load then Err(Storage) else Ok(h.goal)
  }

  /** A turn-scoped update of the running goal; nothing changes when it does not apply. */
  function Updated(h: Handle, goalId: string, turn: Option<string>, after: GoalState -> GoalState, f: Faults)
    : (Handle, Answer<Option<GoalState>>)
  {
    if f.load then (h, Err(Storage))
    else if !Targets(h.goal, goalId, turn) then (h, Ok(None))
    else if f.write then (h, Err(Storage))
    else (h.(goal := Some(after(h.goal.value))), Ok(Some(after(h.goal.value))))
  }

  function Fail(h: Handle, reason: string, f: Faults): (Handle, Answer<GoalState>) {
    if h.goal.None? then (h, Err(NotFound))
    else if f.write then (h, Err(Storage))
    else
      var failed := FailedGoal(h.goal.value, reason);
      (h.(goal := Some(failed)),
       if h.goal.value.verification == Verifying && f.note then Err(Storage) else Ok(failed))
  }

  function Created(h: Handle, objective: Option<string>, status: Option<RequestedStatus>,
                   tokenBudget: Option<Option<int>>, newId: string, f: Faults): (Handle, Answer<GoalState>)
  {
    if status.Some? && status.value != Active then (h, Err(InvalidInput))
    else if objective.None? || IsBlank(objective.value) then (h, Err(InvalidInput))
    else
      var free := h.(scheduled := None);
      var budget := if tokenBudget.Some? then tokenBudget.value else None;
      if budget.Some? && budget.value <= 0 then (free, Err(InvalidInput))
      else if Utf8Len(objective.value) > MAX_OBJECTIVE_BYTES then (free, Err(InvalidInput))
      else if f.write then (free, Err(Storage))
      else if f.note then
        (free.(goal := Some(NewGoal(newId, objective.value, h.maxLoops, None))), Err(Storage))
      else
        var goal := NewGoal(newId, objective.value, h.maxLoops, budget);
        (free.(goal := Some(goal)), if f.later then Err(Storage) else Ok(goal))
  }

  /** The objective and budget a client may change on a running or paused goal. */
  function Edited(g: GoalState, objective: Option<string>, tokenBudget: Option<Option<int>>): Answer<GoalState> {
    if objective.Some? && IsBlank(objective.value) then Err(InvalidInput)
    else if tokenBudget.Some? && tokenBudget.value.Some? && tokenBudget.value.value <= 0 then Err(InvalidInput)
    else
      Ok(g.(objective := if objective.Some? then Trim(objective.value) else g.objective,
            tokenBudget := if tokenBudget.Some? then tokenBudget.value else g.tokenBudget))
  }

  function Switched(g: GoalState, requested: RequestedStatus): GoalState {
    if g.status == Running && requested == Paused then PausedGoal(g)
    else if g.status == UserPaused && requested == Active then g.(status := Running)
    else g
  }

  function Set(h: Handle, objective: Option<string>, status: Option<RequestedStatus>,
               tokenBudget: Option<Option<int>>, newId: string, f: Faults): (Handle, Answer<GoalState>)
  {
    if f.load then (h, Err(Storage))
    else if h.goal.None? || h.goal.value.status !in {Running, UserPaused} then
      Created(h, objective, status, tokenBudget, newId, f)
    else
      var g := h.goal.value;
      var requested := if status.Some? then status.value else if g.status == Running then Active else Paused;
      if requested !in {Active, Paused} then (h, Err(InvalidInput))
      else
        var edited := if objective.Some? || tokenBudget.Some? then Edited(g, objective, tokenBudget) else Ok(g);
        if edited.Err? then (h, Err(edited.error))
        else if f.write && (objective.Some? || tokenBudget.Some?) then (h, Err(Storage))
        else
          var next := Switched(edited.value, requested);
          if next != edited.value && f.later then (h.(goal := Some(edited.value)), Err(Storage))
          else
            (h.(goal := Some(next), scheduled := if next.status != Running then None else h.scheduled), Ok(next))
  }

  function Cleared(h: Handle, f: Faults): (Handle, Answer<bool>) {
    var free := h.(pending := None, scheduled := None);
    if h.goal.None? then (free, Ok(false))
    else if f.write then (free, Err(Storage))
    else (free.(goal := None), Ok(true))
  }

  predicate SettledUnder(h: Handle, goalId: string) {
    && h.goal.Some? && h.goal.value.activeTurn.Some? && h.goal.value.goalId == goalId
    && h.goal.value.status == Running && h.goal.value.settled
  }

  function Prepare(h: Handle, goalId: string, checkpoint: nat, f: Faults): (Handle, Answer<Option<Pending>>) {
    if h.pending.Some? then (h, Ok(None))
    else if f.load then (h, Err(Storage))
    else if !SettledUnder(h, goalId) then (h, Ok(None))
    else if f.write then (h, Err(Storage))
    else
      var g := h.goal.value;
      var marked := h.(goal := Some(g.(verification := Verifying)));
      if f.note then (marked, Err(Storage))
      else if !h.verifierConfigured then (marked, Err(NotConfigured))
      else if f.later then (marked, Err(Storage))
      else
        var pending := Pending(goalId, g.activeTurn.value, checkpoint);
        (marked.(pending := Some(pending)), Ok(Some(pending)))
  }

  /** The goal is still where a verification of this turn left it. */
  predicate Awaits(goal: Option<GoalState>, goalId: string, turn: string) {
    && goal.Some? && goal.value.goalId == goalId && goal.value.status == Running
    && goal.value.activeTurn == Some(turn) && goal.value.settled
  }

  predicate IsPending(h: Handle, goalId: string, turn: string) {
    h.pending.Some? && h.pending.value.goalId == goalId && h.pending.value.turn == turn
  }

  const STALE := "goal verifier result was stale for the settled checkpoint"
  const UNRECORDED := "verifier verdict could not be recorded"

  function CompleteWith(h: Handle, goalId: string, turn: string, checkpoint: nat, current: nat,
                        result: Result<Verdict, string>, f: Faults): (Handle, Answer<Option<GoalState>>)
  {
    if !IsPending(h, goalId, turn) then (h, Ok(None))
    else if f.load then (h, Err(Storage))
    else
      var free := h.(pending := None);
      if !Awaits(h.goal, goalId, turn) then (free, Ok(None))
      else if h.pending.value.checkpoint != checkpoint || h.pending.value.checkpoint != current then
        Wrapped(Fail(free, STALE, f))
      else if result.Err? then Wrapped(Fail(free, result.error, f))
      else if f.later then Wrapped(Fail(free, UNRECORDED, f))
      else if f.write then (free, Err(Storage))
      else
        var next := Advanced(h.goal.value, result.value);
        (free.(goal := Some(next)), Ok(Some(next)))
  }

  function Wrapped(r: (Handle, Answer<GoalState>)): (Handle, Answer<Option<GoalState>>) {
    (r.0, if r.1.Ok? then Ok(Some(r.1.value)) else Err(r.1.error))
  }

  /** Reserve the goal's next turn and queue its start; the reservation is dropped if that fails. */
  function Schedule(h: Handle, goalId: string, sent: bool): (Handle, bool) {
    if h.scheduled == Some(goalId) then (h, true)
    else if sent then (h.(scheduled := Some(goalId)), true)
    else (h.(scheduled := None), false)
  }

  class GoalRuntime {
    var goal: Option<GoalState>
    var pending: Option<Pending>
    var scheduled: Option<string>
    const verifierConfigured: bool
    const maxLoops: nat

    constructor (goal: Option<GoalState>, verifierConfigured: bool, maxLoops: nat)
      ensures Value() == Handle(goal, None, None, verifierConfigured, maxLoops)
    {
      this.goal, this.pending, this.scheduled := goal, None, None;
      this.verifierConfigured, this.maxLoops := verifierConfigured, maxLoops;
    }

    function Value(): Handle
      reads this
    {
      Handle(goal, pending, scheduled, verifierConfigured, maxLoops)
    }

    method UpdateRunningGoal(goalId: string, turn: Option<string>, after: GoalState -> GoalState, f: Faults)
      returns (r: Answer<Option<GoalState>>)
      modifies this`goal
      ensures (Value(), r) == Updated(old(Value()), goalId, turn, after, f)
    {
      if f.load {
        return Err(Storage);
      }
      if goal.None? || goal.value.goalId != goalId || goal.value.status != Running
         || (turn.Some? && goal.value.activeTurn != turn)
      {
        return Ok(None);
      }
      if f.write {
        return Err(Storage);
      }
      goal := Some(after(goal.value));
      r := Ok(goal);
    }

    method FailGoalWithReason(reason: string, f: Faults) returns (r: Answer<GoalState>)
      modifies this`goal
      ensures (Value(), r) == Fail(old(Value()), reason, f)
    {
      if goal.None? {
        return Err(NotFound);
      }
      if f.write {
        return Err(Storage);
      }
      var wasVerifying := goal.value.verification == Verifying;
      var shown := if |reason| <= MAX_ERROR_CHARS then reason else reason[..MAX_ERROR_CHARS];
      var failed := goal.value.(status := Failed, lastError := Some(shown));
      if wasVerifying {
        failed := failed.(verification := VerificationFailed);
      }
      goal := Some(failed);
      r := if wasVerifying && f.note then Err(Storage) else Ok(failed);
    }

    method CreateGoal(objective: Option<string>, status: Option<RequestedStatus>,
                      tokenBudget: Option<Option<int>>, newId: string, f: Faults)
      returns (r: Answer<GoalState>)
      modifies this`goal, this`scheduled
      ensures (Value(), r) == Created(old(Value()), objective, status, tokenBudget, newId, f)
    {
      if status.Some? && status.value != Active {
        return Err(InvalidInput);
      }
      if objective.None? || IsBlank(objective.value) {
        return Err(InvalidInput);
      }
      scheduled := None;
      var budget := if tokenBudget.Some? then tokenBudget.value else None;
      if (budget.Some? && budget.value <= 0) || Utf8Len(objective.value) > MAX_OBJECTIVE_BYTES {
        return Err(InvalidInput);
      }
      if f.write {
        return Err(Storage);
      }
      goal := Some(NewGoal(newId, objective.value, maxLoops, None));
      if f.note {
        return Err(Storage);
      }
      goal := Some(goal.value.(tokenBudget := budget));
      r := if f.later then Err(Storage) else Ok(goal.value);
    }

    method ApplyGoalSet(objective: Option<string>, status: Option<RequestedStatus>,
                        tokenBudget: Option<Option<int>>, newId: string, f: Faults)
      returns (r: Answer<GoalState>)
      modifies this`goal, this`scheduled
      ensures (Value(), r) == Set(old(Value()), objective, status, tokenBudget, newId, f)
    {
      if f.load {
        return Err(Storage);
      }
      if goal.None? || (goal.value.status != Running && goal.value.status != UserPaused) {
        r := CreateGoal(objective, status, tokenBudget, newId, f);
        return;
      }
      var requested :=
        if status.Some? then status.value else if goal.value.status == Running then Active else Paused;
      if requested != Active && requested != Paused {
        return Err(InvalidInput);
      }
      var edited := goal.value;
      if objective.Some? || tokenBudget.Some? {
        var accepted := Edited(edited, objective, tokenBudget);
        if accepted.Err? {
          return Err(accepted.error);
        }
        if f.write {
          return Err(Storage);
        }
        edited := accepted.value;
      }
      goal := Some(edited);
      if edited.status == Running && requested == Paused {
        if f.later {
          return Err(Storage);
        }
        goal := Some(PausedGoal(edited));
      } else if edited.status == UserPaused && requested == Active {
        if f.later {
          return Err(Storage);
        }
        goal := Some(edited.(status := Running));
      }
      if goal.value.status != Running {
        scheduled := None;
      }
      r := Ok(goal.value);
    }

    method ClearGoal(f: Faults) returns (r: Answer<bool>)
      modifies this
      ensures (Value(), r) == Cleared(old(Value()), f)
    {
      pending, scheduled := None, None;
      if goal.None? {
        return Ok(false);
      }
      if f.write {
        return Err(Storage);
      }
      goal := None;
      r := Ok(true);
    }

    method ReserveTurn(goalId: string) returns (reserved: bool)
      modifies this`scheduled
      ensures reserved == (old(scheduled) != Some(goalId)) && scheduled == Some(goalId)
    {
      reserved := scheduled != Some(goalId);
      scheduled := Some(goalId);
    }

    method ReleaseTurn(goalId: string)
      modifies this`scheduled
      ensures scheduled == if old(scheduled) == Some(goalId) then None else old(scheduled)
    {
      if scheduled == Some(goalId) {
        scheduled := None;
      }
    }

    method ScheduleGoalTurn(goalId: string, sent: bool) returns (ok: bool)
      modifies this`scheduled
      ensures (Value(), ok) == Schedule(old(Value()), goalId, sent)
    {
      var reserved := ReserveTurn(goalId);
      if !reserved {
        return true;
      }
      if !sent {
        ReleaseTurn(goalId);
      }
      ok := sent;
    }

    method MarkTurnStarted(goalId: string, turn: string, f: Faults) returns (r: Answer<Option<GoalState>>)
      modifies this`goal, this`scheduled
      ensures (Value(), r)
              == Updated(old(Value()).(scheduled := None), goalId, None, (g: GoalState) => WithTurn(g, turn), f)
    {
      scheduled := None;
      r := UpdateRunningGoal(goalId, None, (g: GoalState) => WithTurn(g, turn), f);
    }

    method MarkTurnSettled(goalId: string, turn: string, f: Faults) returns (r: Answer<Option<GoalState>>)
      modifies this`goal
      ensures (Value(), r)
              == Updated(old(Value()), goalId, Some(turn), (g: GoalState) => g.(settled := true), f)
    {
      r := UpdateRunningGoal(goalId, Some(turn), (g: GoalState) => g.(settled := true), f);
    }

    method PrepareVerification(goalId: string, checkpoint: nat, f: Faults) returns (r: Answer<Option<Pending>>)
      modifies this`goal, this`pending
      ensures (Value(), r) == Prepare(old(Value()), goalId, checkpoint, f)
    {
      if pending.Some? {
        return Ok(None);
      }
      if f.load {
        return Err(Storage);
      }
      if goal.None? || goal.value.activeTurn.None? {
        return Ok(None);
      }
      if goal.value.goalId != goalId || goal.value.status != Running || !goal.value.settled {
        return Ok(None);
      }
      if f.write {
        return Err(Storage);
      }
      var turn := goal.value.activeTurn.value;
      goal := Some(goal.value.(verification := Verifying));
      if f.note {
        return Err(Storage);
      }
      if !verifierConfigured {
        return Err(NotConfigured);
      }
      if f.later {
        return Err(Storage);
      }
      pending := Some(Pending(goalId, turn, checkpoint));
      r := Ok(pending);
    }

    method CompleteVerification(goalId: string, turn: string, checkpoint: nat, current: nat,
                                result: Result<Verdict, string>, f: Faults)
      returns (r: Answer<Option<GoalState>>)
      modifies this`goal, this`pending
      ensures (Value(), r) == CompleteWith(old(Value()), goalId, turn, checkpoint, current, result, f)
    {
      if pending.None? || pending.value.goalId != goalId || pending.value.turn != turn {
        return Ok(None);
      }
      var pendingCheckpoint := pending.value.checkpoint;
      if f.load {
        return Err(Storage);
      }
      pending := None;
      if goal.None? || goal.value.goalId != goalId || goal.value.status != Running
         || goal.value.activeTurn != Some(turn) || !goal.value.settled
      {
        return Ok(None);
      }
      var next: Answer<GoalState>;
      if pendingCheckpoint != checkpoint || pendingCheckpoint != current {
        next := FailGoalWithReason(STALE, f);
      } else if result.Err? {
        next := FailGoalWithReason(result.error, f);
      } else if f.later {
        next := FailGoalWithReason(UNRECORDED, f);
      } else if f.write {
        next := Err(Storage);
      } else {
        goal := Some(Advanced(goal.value, result.value));
        next := Ok(goal.value);
      }
      r := if next.Ok? then Ok(Some(next.value)) else Err(next.error);
    }
  }
}
