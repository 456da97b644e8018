/** Whole runs of the goal runtime: what verification results may do to a goal, and how often. */
module GoalRuns {
  import opened Goal
  import opened Wrappers

  /**
   The calls the serial worker makes; `sent` says whether a queued start was accepted. It takes
   the oldest queued start and begins its turn, or refuses it: another turn runs, the session
   is frozen, or the text is too long.
   */
  datatype Step =
    | SetGoal(objective: Option<string>, status: Option<RequestedStatus>, tokenBudget: Option<Option<int>>,
              newId: string, f: Faults, sent: bool)
    | ClearGoal(f: Faults)
    | StartTurn(goalId: string, turn: string, f: Faults)
    | RefuseStart
    | SettleTurn(goalId: string, turn: string, f: Faults)
    | UseTokens(goalId: string, turn: string, tokens: nat, f: Faults)
    | LimitTurn(goalId: string, turn: string, asUsage: bool, reason: string, f: Faults)
    | PrepareStep(goalId: string, turn: string, checkpoint: nat, f: Faults, limitFaults: Faults)
    | CompleteStep(goalId: string, turn: string, checkpoint: nat, current: nat,
                   result: Result<Verdict, string>, f: Faults, sent: bool, failFaults: Faults)
    | Resume(checkpoint: nat, f: Faults, limitFaults: Faults, sent: bool)

  function Limited(h: Handle, goalId: string, turn: string, status: Status, reason: string, f: Faults): Handle {
    Updated(h, goalId, Some(turn), (g: GoalState) => g.(status := status, lastError := Some(reason)), f).0
  }

  predicate SetChanges(before: Option<GoalState>, after: GoalState) {
    before.None? || before.value.goalId != after.goalId || before.value.objective != after.objective
    || before.value.status != after.status || before.value.tokenBudget != after.tokenBudget
  }

  /** Preparing a verification; the goal's turn is failed when preparation itself fails. */
  function PrepareOrFail(h: Handle, goalId: string, turn: string, checkpoint: nat, f: Faults, g: Faults): Handle {
    var (prepared, r) := Prepare(h, goalId, checkpoint, f);
    if r.Ok? then prepared
    else Limited(prepared, goalId, turn, Failed, "goal verifier preparation failed", g)
  }

  const DISCONNECTED := "app server is disconnected"

  /** After a verdict that leaves the goal running, its next turn is queued, or the goal fails. */
  function CompleteAndSchedule(h: Handle, step: Step): Handle
    requires step.CompleteStep?
  {
    var (done, r) := CompleteWith(h, step.goalId, step.turn, step.checkpoint, step.current, step.result, step.f);
    if r.Ok? && r.value.Some? && r.value.value.status == Running then
      var (queued, ok) := Schedule(done, r.value.value.goalId, step.sent);
      if ok then queued else Fail(queued, DISCONNECTED, step.failFaults).0
    else done
  }

  function After(h: Handle, step: Step): Handle {
    match step
    case SetGoal(objective, status, budget, newId, f, sent) =>
      var (changed, r) := Set(h, objective, status, budget, newId, f);
      if r.Ok? && SetChanges(h.goal, r.value) && r.value.status == Running then
        Schedule(changed, r.value.goalId, sent).0
      else changed
    case ClearGoal(f) => Cleared(h, f).0
    case StartTurn(goalId, turn, f) =>
      Updated(h.(scheduled := None), goalId, None, (g: GoalState) => WithTurn(g, turn), f).0
    case RefuseStart => h
    case SettleTurn(goalId, turn, f) =>
      Updated(h, goalId, Some(turn), (g: GoalState) => g.(settled := true), f).0
    case UseTokens(goalId, turn, tokens, f) =>
      Updated(h, goalId, Some(turn), (g: GoalState) => Used(g, tokens), f).0
    case LimitTurn(goalId, turn, asUsage, reason, f) =>
      Limited(h, goalId, turn, if asUsage then UsageLimited else Failed, reason, f)
    case PrepareStep(goalId, turn, checkpoint, f, g) => PrepareOrFail(h, goalId, turn, checkpoint, f, g)
    case CompleteStep(_, _, _, _, _, _, _, _) => CompleteAndSchedule(h, step)
    case Resume(checkpoint, f, g, sent) =>
      if f.load || h.goal.None? || h.goal.value.status != Running then h
      else if h.goal.value.settled then
        if h.goal.value.activeTurn.None? then h
        else PrepareOrFail(h, h.goal.value.goalId, h.goal.value.activeTurn.value, checkpoint, f, g)
      else Schedule(h, h.goal.value.goalId, sent).0
  }

  /** What a completion did to the goal, and the verdict it applied, if it applied one. */
  datatype Effect = Effect(
    ticket: nat, before: GoalState, after: GoalState, checkpoint: nat, current: nat,
    verdict: Option<Verdict>, disturbed: bool)

  /**
   The handle with its past: the verifications prepared, what their results did, the turn and
   goal ids used, and whether the goal's position changed since the last preparation.
   */
  datatype World = World(
    h: Handle, prepares: seq<Pending>, effects: seq<Effect>,
    turns: set<string>, goals: set<string>, disturbed: bool)

  datatype Position = Position(goalId: string, status: Status, activeTurn: Option<string>, settled: bool)

  function PositionOf(goal: Option<GoalState>): Option<Position> {
    if goal.None? then None
    else Some(Position(goal.value.goalId, goal.value.status, goal.value.activeTurn, goal.value.settled))
  }

  function EffectsOf(w: World, step: Step): seq<Effect> {
    var after := After(w.h, step).goal;
    if !step.CompleteStep? || after == w.h.goal || w.h.goal.None? || after.None? || w.prepares == [] then []
    else
      [Effect(|w.prepares| - 1, w.h.goal.value, after.value, step.checkpoint, step.current,
              if step.result.Ok? && after.value.loopCount == w.h.goal.value.loopCount + 1
              then Some(step.result.value) else None,
              w.disturbed)]
  }

  predicate Prepares(before: Handle, after: Handle) {
    before.pending.None? && after.pending.Some?
  }

  function Next(w: World, step: Step): World {
    var after := After(w.h, step);
    World(
      after,
      if Prepares(w.h, after) then w.prepares + [after.pending.value] else w.prepares,
      w.effects + EffectsOf(w, step),
      if step.StartTurn? then w.turns + {step.turn} else w.turns,
      if step.SetGoal? then w.goals + {step.newId} else w.goals,
      if Prepares(w.h, after) then false
      else w.disturbed || PositionOf(after.goal) != PositionOf(w.h.goal))
  }

  function Run(w: World, steps: seq<Step>): World {
    if steps == [] then w else Next(Run(w, steps[..|steps| - 1]), steps[|steps| - 1])
  }

  /** A worker that has just loaded its goal: nothing is prepared, nothing reserved. */
  predicate Start(w: World) {
    && w.h.pending.None? && w.h.scheduled.None? && w.prepares == [] && w.effects == [] && !w.disturbed
    && (w.h.goal.Some? ==>
          && w.h.goal.value.goalId in w.goals
          && (w.h.goal.value.activeTurn.Some? ==> w.h.goal.value.activeTurn.value in w.turns)
          && (w.h.goal.value.status == UserPaused ==> w.h.goal.value.activeTurn.None?))
  }

  // ---------------------------------------------------- each result acts at most once

  predicate EffectSound(prepares: seq<Pending>, e: Effect) {
    && e.ticket < |prepares|
    && var p := prepares[e.ticket];
    && e.before.goalId == p.goalId && e.before.status == Running
    && e.before.activeTurn == Some(p.turn) && e.before.settled
    && (e.verdict.Some? ==> p.checkpoint == e.checkpoint == e.current && AppliesVerdict(e, e.verdict.value))
    && (e.verdict.None? ==>
          e.after.status == Failed && e.after.goalId == e.before.goalId && e.after.loopCount == e.before.loopCount)
  }

  /** The goal was advanced, or advanced and then failed for want of a next turn. */
  predicate AppliesVerdict(e: Effect, v: Verdict) {
    || e.after == Advanced(e.before, v)
    || (Advanced(e.before, v).status == Running && e.after == FailedGoal(Advanced(e.before, v), DISCONNECTED))
  }

  predicate Matched(w: World) {
    && (w.h.pending.Some? ==>
          && w.prepares != [] && w.h.pending.value == w.prepares[|w.prepares| - 1]
          && (w.effects != [] ==> w.effects[|w.effects| - 1].ticket < |w.prepares| - 1))
    && (forall i :: 0 <= i < |w.effects| ==> EffectSound(w.prepares, w.effects[i]))
    && (forall i, j :: 0 <= i < j < |w.effects| ==> w.effects[i].ticket < w.effects[j].ticket)
  }

  /** Only preparing fills the pending slot; otherwise it stays or is emptied. */
  lemma PendingMoves(h: Handle, step: Step)
    ensures var after := After(h, step);
            after.pending.Some? ==> after.pending == h.pending || Prepares(h, after)
    ensures step.CompleteStep? && After(h, step).pending.Some? ==>
              CompleteWith(h, step.goalId, step.turn, step.checkpoint, step.current, step.result, step.f).0 == h
  {
  }

  /** A completion touches the goal only if it answers the pending verification in place. */
  lemma CompletionMatches(h: Handle, goalId: string, turn: string, checkpoint: nat, current: nat,
                          result: Result<Verdict, string>, f: Faults)
    ensures var done := CompleteWith(h, goalId, turn, checkpoint, current, result, f).0;
            && (done.goal != h.goal ==>
                  IsPending(h, goalId, turn) && Awaits(h.goal, goalId, turn) && done.pending.None? && done.goal.Some?)
            && (h.goal.Some? && done.goal.Some? && done.goal.value.loopCount == h.goal.value.loopCount + 1 ==>
                  result.Ok? && h.pending.value.checkpoint == checkpoint == current
                  && done.goal.value == Advanced(h.goal.value, result.value))
  {
  }

  /** The verdict is applied: it answers the pending verification in place and can be stored. */
  predicate Judges(h: Handle, step: Step)
    requires step.CompleteStep?
  {
    && IsPending(h, step.goalId, step.turn) && Awaits(h.goal, step.goalId, step.turn)
    && h.pending.value.checkpoint == step.checkpoint == step.current
    && step.result.Ok? && !step.f.load && !step.f.later && !step.f.write
  }

  /** An applied verdict that asks for a next turn which cannot be queued. */
  predicate LacksNextTurn(h: Handle, step: Step)
    requires step.CompleteStep?
  {
    && Judges(h, step) && Advanced(h.goal.value, step.result.value).status == Running
    && h.scheduled != Some(step.goalId) && !step.sent
  }

  /** What a whole completion, its scheduling included, makes of the goal. */
  lemma CompletionOutcome(h: Handle, step: Step)
    requires step.CompleteStep?
    ensures var done := CompleteWith(h, step.goalId, step.turn, step.checkpoint, step.current, step.result, step.f).0;
            && (Judges(h, step) ==> done.goal == Some(Advanced(h.goal.value, step.result.value)))
            && After(h, step).pending == done.pending
            && After(h, step).goal
               == if LacksNextTurn(h, step) && !step.failFaults.write
                  then Some(FailedGoal(Advanced(h.goal.value, step.result.value), DISCONNECTED))
                  else done.goal
  {
  }

  /** A result that is not applied as a verdict fails the goal or leaves it. */
  lemma UnjudgedOutcome(h: Handle, step: Step)
    requires step.CompleteStep? && !Judges(h, step)
    ensures var after := After(h, step);
            after.goal == h.goal
            || (IsPending(h, step.goalId, step.turn) && Awaits(h.goal, step.goalId, step.turn)
                && after.pending.None?
                && after.goal.Some? && after.goal.value.status == Failed
                && after.goal.value.goalId == h.goal.value.goalId
                && after.goal.value.loopCount == h.goal.value.loopCount)
  {
    CompletionOutcome(h, step);
  }

  /**
   One completion both advances and fails the goal exactly when its verdict is applied and
   leaves the goal running, the next turn is neither reserved nor accepted by the queue, and
   the failure can be stored.
   */
  lemma AdvancesAndFailsIff(h: Handle, step: Step)
    requires step.CompleteStep? && h.goal.Some? && step.result.Ok?
    ensures var advanced := Advanced(h.goal.value, step.result.value);
            advanced.status == Running && After(h, step).goal == Some(FailedGoal(advanced, DISCONNECTED))
            <==> LacksNextTurn(h, step) && !step.failFaults.write
  {
    CompletionOutcome(h, step);
    if !Judges(h, step) {
      UnjudgedOutcome(h, step);
    }
  }

  /** An approved milestone whose next turn finds the queue full: the goal moves on and fails. */
  lemma ApprovedGoalCanFail()
    ensures var g := NewGoal("g", "do", 0, None).(activeTurn := Some("1"), settled := true);
            var h := Handle(Some(g), Some(Pending("g", "1", 7)), None, true, 0);
            var step := CompleteStep("g", "1", 7, 7, Ok(Verdict(Approved, None)), NO_FAULTS, false, NO_FAULTS);
            var after := After(h, step).goal;
            after.Some? && after.value.currentMilestone == 2 && after.value.status == Failed
  {
  }

  lemma NextKeepsMatched(w: World, step: Step)
    requires Matched(w)
    ensures Matched(Next(w, step))
  {
    PendingMoves(w.h, step);
    if EffectsOf(w, step) != [] {
      EffectIsSound(w, step);
      EffectKeepsMatched(w, step);
    } else {
      var next := Next(w, step);
      assert next.effects == w.effects;
      assert forall i :: 0 <= i < |w.effects| ==> EffectSound(w.prepares, w.effects[i]);
    }
  }

  lemma EffectKeepsMatched(w: World, step: Step)
    requires Matched(w) && |EffectsOf(w, step)| == 1 && w.h.pending.Some? && After(w.h, step).pending.None?
    requires EffectSound(w.prepares, EffectsOf(w, step)[0]) && EffectsOf(w, step)[0].ticket == |w.prepares| - 1
    ensures Matched(Next(w, step))
  {
    var e := EffectsOf(w, step)[0];
    var next := Next(w, step);
    assert next.effects == w.effects + [e] && next.prepares == w.prepares;
    forall i | 0 <= i < |w.effects|
      ensures w.effects[i].ticket < e.ticket
    {
      if i < |w.effects| - 1 {
        assert w.effects[i].ticket < w.effects[|w.effects| - 1].ticket;
      }
    }
  }

  lemma EffectIsSound(w: World, step: Step)
    requires Matched(w) && EffectsOf(w, step) != []
    ensures |EffectsOf(w, step)| == 1 && w.h.pending.Some? && After(w.h, step).pending.None?
    ensures OnPendingTurn(w.h) && w.h.goal.value.status == Running
    ensures EffectSound(w.prepares, EffectsOf(w, step)[0]) && EffectsOf(w, step)[0].ticket == |w.prepares| - 1
  {
    CompletionOutcome(w.h, step);
    if !Judges(w.h, step) {
      UnjudgedOutcome(w.h, step);
    }
  }

  lemma {:induction false} RunKeepsMatched(w: World, steps: seq<Step>)
    requires Start(w)
    ensures Matched(Run(w, steps))
  {
    if steps != [] {
      RunKeepsMatched(w, steps[..|steps| - 1]);
      NextKeepsMatched(Run(w, steps[..|steps| - 1]), steps[|steps| - 1]);
    }
  }

  /**
   In every run each prepared verification touches the goal in at most one completion; that
   completion meets the goal it was prepared for, still running on the same settled turn, and
   either fails it, or, at the checkpoint it was prepared at, applies one verdict, after which
   it fails the goal only for want of a next turn.
   */
  lemma EachVerificationActsOnce(w: World, steps: seq<Step>)
    requires Start(w)
    ensures var end := Run(w, steps);
            && (forall i, j :: 0 <= i < j < |end.effects| ==> end.effects[i].ticket < end.effects[j].ticket)
            && (forall i :: 0 <= i < |end.effects| ==> EffectSound(end.prepares, end.effects[i]))
            && |end.effects| <= |end.prepares|
  {
    RunKeepsMatched(w, steps);
    TicketsBoundCount(Run(w, steps).effects, |Run(w, steps).effects|);
  }

  lemma {:induction false} TicketsBoundCount(effects: seq<Effect>, n: nat)
    requires n <= |effects|
    requires forall i, j :: 0 <= i < j < |effects| ==> effects[i].ticket < effects[j].ticket
    ensures n > 0 ==> effects[n - 1].ticket >= n - 1
  {
    if n > 1 {
      TicketsBoundCount(effects, n - 1);
    }
  }

  // ---------------------------------------------------- nothing came in between

  /** No turn is started under an id already used. */
  predicate FreshTurns(w: World, steps: seq<Step>) {
    steps == []
    || (FreshTurns(w, steps[..|steps| - 1])
        && (steps[|steps| - 1].StartTurn? ==> steps[|steps| - 1].turn !in Run(w, steps[..|steps| - 1]).turns))
  }

  /** No request to set a goal offers an id already used. */
  predicate FreshGoals(w: World, steps: seq<Step>) {
    steps == []
    || (FreshGoals(w, steps[..|steps| - 1])
        && (steps[|steps| - 1].SetGoal? ==> steps[|steps| - 1].newId !in Run(w, steps[..|steps| - 1]).goals))
  }

  predicate KnownIds(h: Handle, turns: set<string>, goals: set<string>) {
    && (h.goal.Some? ==>
          && h.goal.value.goalId in goals
          && (h.goal.value.activeTurn.Some? ==> h.goal.value.activeTurn.value in turns)
          && (h.goal.value.status == UserPaused ==> h.goal.value.activeTurn.None?))
    && (h.pending.Some? ==> h.pending.value.goalId in goals && h.pending.value.turn in turns)
  }

  /** The goal still names the pending verification's turn. */
  predicate OnPendingTurn(h: Handle) {
    && h.pending.Some? && h.goal.Some? && h.goal.value.goalId == h.pending.value.goalId
    && h.goal.value.activeTurn == Some(h.pending.value.turn)
  }

  predicate Undisturbed(h: Handle, disturbed: bool) {
    OnPendingTurn(h) ==> h.goal.value.settled && (h.goal.value.status == Running ==> !disturbed)
  }

  /** What any step does to the goal's position, for a pending verification that stays. */
  predicate PositionMoves(h: Handle, after: Handle) {
    OnPendingTurn(after) && after.pending == h.pending ==>
      && OnPendingTurn(h)
      && (h.goal.value.settled ==> after.goal.value.settled)
      && (after.goal.value.status == Running ==> h.goal.value.status == Running)
  }

  /** What a client's edit may do to an existing goal: pause it, resume it, or keep its position. */
  predicate Edits(b: GoalState, a: GoalState) {
    && a.goalId == b.goalId && a.maxLoops == b.maxLoops && a.loopCount == b.loopCount
    && a.currentMilestone == b.currentMilestone
    && (|| (a.status == b.status && a.activeTurn == b.activeTurn && a.settled == b.settled)
        || (b.status == Running && a.status == UserPaused && a.activeTurn.None? && !a.settled)
        || (b.status == UserPaused && a.status == Running && a.activeTurn == b.activeTurn && a.settled == b.settled))
  }

  predicate IsNew(after: Option<GoalState>, newId: string) {
    && after.Some? && after.value.goalId == newId && after.value.status == Running
    && after.value.activeTurn.None?
    && after.value.loopCount == 0 && after.value.currentMilestone == 1 && after.value.maxLoops >= 1
  }

  lemma CreateIsNew(h: Handle, objective: Option<string>, status: Option<RequestedStatus>,
                    tokenBudget: Option<Option<int>>, newId: string, f: Faults)
    ensures var after := Created(h, objective, status, tokenBudget, newId, f).0;
            after.pending == h.pending && (after.goal == h.goal || IsNew(after.goal, newId))
  {
  }

  lemma SetEditsOrCreates(h: Handle, objective: Option<string>, status: Option<RequestedStatus>,
                          tokenBudget: Option<Option<int>>, newId: string, f: Faults)
    ensures var after := Set(h, objective, status, tokenBudget, newId, f).0;
            && after.pending == h.pending
            && (|| after.goal == h.goal || IsNew(after.goal, newId)
                || (h.goal.Some? && after.goal.Some? && Edits(h.goal.value, after.goal.value)))
  {
    CreateIsNew(h, objective, status, tokenBudget, newId, f);
  }

  lemma SetStepShape(h: Handle, step: Step)
    requires step.SetGoal?
    ensures var after := After(h, step);
            && after.pending == h.pending
            && (|| after.goal == h.goal || IsNew(after.goal, step.newId)
                || (h.goal.Some? && after.goal.Some? && Edits(h.goal.value, after.goal.value)))
  {
    SetEditsOrCreates(h, step.objective, step.status, step.tokenBudget, step.newId, step.f);
  }

  lemma StepKeepsIds(h: Handle, step: Step, turns: set<string>, goals: set<string>)
    requires KnownIds(h, turns, goals)
    ensures KnownIds(After(h, step), if step.StartTurn? then turns + {step.turn} else turns,
                     if step.SetGoal? then goals + {step.newId} else goals)
  {
    match step
    case SetGoal(_, _, _, _, _, _) => SetKeepsIds(h, step, turns, goals);
    case ClearGoal(_) =>
    case StartTurn(_, _, _) =>
    case RefuseStart =>
    case SettleTurn(_, _, _) =>
    case UseTokens(_, _, _, _) =>
    case LimitTurn(_, _, _, _, _) =>
    case PrepareStep(goalId, turn, checkpoint, f, g) =>
      PrepareKeepsIds(h, goalId, turn, checkpoint, f, g, turns, goals);
    case CompleteStep(_, _, _, _, _, _, _, _) => CompleteKeepsIds(h, step, turns, goals);
    case Resume(checkpoint, f, g, _) =>
      if h.goal.Some? && h.goal.value.activeTurn.Some? {
        PrepareKeepsIds(h, h.goal.value.goalId, h.goal.value.activeTurn.value, checkpoint, f, g, turns, goals);
      }
  }

  lemma PrepareKeepsIds(h: Handle, goalId: string, turn: string, checkpoint: nat, f: Faults, g: Faults,
                        turns: set<string>, goals: set<string>)
    requires KnownIds(h, turns, goals)
    ensures KnownIds(PrepareOrFail(h, goalId, turn, checkpoint, f, g), turns, goals)
  {
  }

  lemma ResultKeepsIds(h: Handle, step: Step, turns: set<string>, goals: set<string>)
    requires KnownIds(h, turns, goals) && step.CompleteStep?
    ensures KnownIds(CompleteWith(h, step.goalId, step.turn, step.checkpoint, step.current, step.result, step.f).0,
                     turns, goals)
  {
  }

  lemma CompleteKeepsIds(h: Handle, step: Step, turns: set<string>, goals: set<string>)
    requires KnownIds(h, turns, goals) && step.CompleteStep?
    ensures KnownIds(After(h, step), turns, goals)
  {
    ResultKeepsIds(h, step, turns, goals);
    var done := CompleteWith(h, step.goalId, step.turn, step.checkpoint, step.current, step.result, step.f).0;
    assert After(h, step).pending == done.pending;
  }

  lemma SetKeepsIds(h: Handle, step: Step, turns: set<string>, goals: set<string>)
    requires KnownIds(h, turns, goals) && step.SetGoal?
    ensures KnownIds(After(h, step), turns, goals + {step.newId})
  {
    SetStepShape(h, step);
  }

  lemma StepMovesPosition(h: Handle, step: Step, turns: set<string>, goals: set<string>)
    requires KnownIds(h, turns, goals)
    requires step.StartTurn? ==> step.turn !in turns
    ensures PositionMoves(h, After(h, step))
  {
    match step
    case SetGoal(_, _, _, _, _, _) => SetMovesPosition(h, step);
    case ClearGoal(_) =>
    case StartTurn(_, _, _) =>
    case RefuseStart =>
    case SettleTurn(_, _, _) =>
    case UseTokens(_, _, _, _) =>
    case LimitTurn(_, _, _, _, _) =>
    case PrepareStep(_, _, _, _, _) =>
    case CompleteStep(_, _, _, _, _, _, _, _) => PendingMoves(h, step);
    case Resume(_, _, _, _) =>
  }

  lemma SetMovesPosition(h: Handle, step: Step)
    requires step.SetGoal? && (h.goal.Some? && h.goal.value.status == UserPaused ==> h.goal.value.activeTurn.None?)
    ensures PositionMoves(h, After(h, step))
  {
    SetStepShape(h, step);
  }

  lemma PreparedIsInPlace(h: Handle, step: Step)
    requires Prepares(h, After(h, step))
    ensures Undisturbed(After(h, step), false)
  {
  }

  lemma NextKeepsUndisturbed(w: World, step: Step)
    requires KnownIds(w.h, w.turns, w.goals) && Undisturbed(w.h, w.disturbed)
    requires step.StartTurn? ==> step.turn !in w.turns
    ensures KnownIds(Next(w, step).h, Next(w, step).turns, Next(w, step).goals)
    ensures Undisturbed(Next(w, step).h, Next(w, step).disturbed)
  {
    StepKeepsIds(w.h, step, w.turns, w.goals);
    StepMovesPosition(w.h, step, w.turns, w.goals);
    PendingMoves(w.h, step);
    if Prepares(w.h, After(w.h, step)) {
      PreparedIsInPlace(w.h, step);
    }
  }

  lemma NextRecordsUndisturbed(w: World, step: Step)
    requires Matched(w) && Undisturbed(w.h, w.disturbed)
    requires forall i :: 0 <= i < |w.effects| ==> !w.effects[i].disturbed
    ensures forall i :: 0 <= i < |Next(w, step).effects| ==> !Next(w, step).effects[i].disturbed
  {
    if EffectsOf(w, step) != [] {
      EffectIsSound(w, step);
    }
  }

  /**
   With turn ids never reused, a result that acts finds the goal exactly where its preparation
   left it, whatever goal ids repeat: no start, pause, clear, replacement, limit or other result came in between.
   */
  lemma {:induction false} ResultsActUndisturbed(w: World, steps: seq<Step>)
    requires Start(w) && FreshTurns(w, steps)
    ensures var end := Run(w, steps);
            && KnownIds(end.h, end.turns, end.goals) && Undisturbed(end.h, end.disturbed)
            && (forall i :: 0 <= i < |end.effects| ==> !end.effects[i].disturbed)
  {
    if steps != [] {
      ResultsActUndisturbed(w, steps[..|steps| - 1]);
      RunKeepsMatched(w, steps[..|steps| - 1]);
      NextKeepsUndisturbed(Run(w, steps[..|steps| - 1]), steps[|steps| - 1]);
      NextRecordsUndisturbed(Run(w, steps[..|steps| - 1]), steps[|steps| - 1]);
    }
  }

  // ---------------------------------------------------- how a goal ends

  function Rounds(effects: seq<Effect>, goalId: string): nat {
    if effects == [] then 0
    else
      var e := effects[|effects| - 1];
      Rounds(effects[..|effects| - 1], goalId)
      + if e.before.goalId == goalId && e.verdict.Some? then 1 else 0
  }

  function Approvals(effects: seq<Effect>, goalId: string): nat {
    if effects == [] then 0
    else
      var e := effects[|effects| - 1];
      Approvals(effects[..|effects| - 1], goalId)
      + if e.before.goalId == goalId && e.verdict.Some? && e.verdict.value.outcome == Approved then 1 else 0
  }

  /** A goal's counters, in terms of the verdicts it has had. */
  predicate Counted(g: GoalState, rounds: nat, approvals: nat) {
    && g.maxLoops >= 1
    && g.loopCount == rounds
    && 1 <= g.currentMilestone <= TOTAL_MILESTONES
    && approvals == g.currentMilestone - 1 + (if g.status == Converged then 1 else 0)
    && (g.status == Converged ==> g.currentMilestone == TOTAL_MILESTONES)
    && (g.status == Running || g.status == UserPaused ==> g.loopCount < g.maxLoops + g.currentMilestone - 1)
    && g.loopCount < g.maxLoops + TOTAL_MILESTONES
  }

  /** The approvals a goal's own counters stand for. */
  function ApprovalsOf(g: GoalState): nat {
    (if g.currentMilestone >= 1 then g.currentMilestone - 1 else 0) + (if g.status == Converged then 1 else 0)
  }

  /** A goal as the runtime stores it. */
  predicate WellCounted(g: GoalState) {
    Counted(g, g.loopCount, ApprovalsOf(g))
  }

  /** What the goal loaded at the start had already been through. */
  function RoundsBefore(start: Option<GoalState>, goalId: string): nat {
    if start.Some? && start.value.goalId == goalId then start.value.loopCount else 0
  }

  function ApprovalsBefore(start: Option<GoalState>, goalId: string): nat {
    if start.Some? && start.value.goalId == goalId then ApprovalsOf(start.value) else 0
  }

  predicate Tallied(w: World, start: Option<GoalState>) {
    && (w.h.goal.Some? ==>
          && w.h.goal.value.goalId in w.goals
          && var id := w.h.goal.value.goalId;
          Counted(w.h.goal.value, RoundsBefore(start, id) + Rounds(w.effects, id),
                  ApprovalsBefore(start, id) + Approvals(w.effects, id)))
    && (start.Some? ==> start.value.goalId in w.goals)
    && (forall i :: 0 <= i < |w.effects| ==> w.effects[i].before.goalId in w.goals)
  }

  /** Apart from verdicts, a step keeps a goal's counters or replaces it by a new goal. */
  predicate CountersKept(before: Option<GoalState>, after: Option<GoalState>) {
    after.Some? ==>
      && before.Some? && after.value.goalId == before.value.goalId && after.value.maxLoops == before.value.maxLoops
      && after.value.loopCount == before.value.loopCount
      && after.value.currentMilestone == before.value.currentMilestone
      && (after.value.status == Converged <==> before.value.status == Converged)
      && (after.value.status in {Running, UserPaused} ==> before.value.status in {Running, UserPaused})
  }

  lemma PrepareKeepsCounters(h: Handle, goalId: string, turn: string, checkpoint: nat, f: Faults, g: Faults)
    ensures CountersKept(h.goal, PrepareOrFail(h, goalId, turn, checkpoint, f, g).goal)
  {
  }

  lemma SetKeepsCounters(h: Handle, step: Step)
    requires step.SetGoal?
    ensures CountersKept(h.goal, After(h, step).goal) || IsNew(After(h, step).goal, step.newId)
  {
    SetStepShape(h, step);
  }

  lemma OtherStepsKeepCounters(h: Handle, step: Step)
    requires !step.CompleteStep? && !step.SetGoal?
    ensures CountersKept(h.goal, After(h, step).goal)
  {
    match step
    case ClearGoal(_) =>
    case StartTurn(_, _, _) =>
    case RefuseStart =>
    case SettleTurn(_, _, _) =>
    case UseTokens(_, _, _, _) =>
    case LimitTurn(_, _, _, _, _) =>
    case PrepareStep(goalId, turn, checkpoint, f, g) => PrepareKeepsCounters(h, goalId, turn, checkpoint, f, g);
    case Resume(checkpoint, f, g, _) =>
      if h.goal.Some? && h.goal.value.activeTurn.Some? {
        PrepareKeepsCounters(h, h.goal.value.goalId, h.goal.value.activeTurn.value, checkpoint, f, g);
      }
  }

  /** A completion keeps a goal's counters, except for the verdict it applies. */
  lemma CompletionCounters(h: Handle, step: Step)
    requires step.CompleteStep?
    ensures Judges(h, step) ==> CountersKept(Some(Advanced(h.goal.value, step.result.value)), After(h, step).goal)
    ensures !Judges(h, step) ==> CountersKept(h.goal, After(h, step).goal)
  {
    CompletionOutcome(h, step);
  }

  lemma VerdictCounts(g: GoalState, v: Verdict, rounds: nat, approvals: nat)
    requires Counted(g, rounds, approvals) && g.status == Running
    ensures Counted(Advanced(g, v), rounds + 1, approvals + if v.outcome == Approved then 1 else 0)
  {
  }

  lemma KeptCounts(before: Option<GoalState>, after: Option<GoalState>, rounds: nat, approvals: nat)
    requires CountersKept(before, after) && after.Some? && Counted(before.value, rounds, approvals)
    ensures Counted(after.value, rounds, approvals)
  {
  }

  lemma {:induction false} UnknownGoalHasNone(effects: seq<Effect>, goalId: string)
    requires forall i :: 0 <= i < |effects| ==> effects[i].before.goalId != goalId
    ensures Rounds(effects, goalId) == 0 && Approvals(effects, goalId) == 0
  {
    if effects != [] {
      UnknownGoalHasNone(effects[..|effects| - 1], goalId);
    }
  }

  lemma AppendEffect(effects: seq<Effect>, e: Effect, goalId: string)
    ensures Rounds(effects + [e], goalId)
            == Rounds(effects, goalId) + if e.before.goalId == goalId && e.verdict.Some? then 1 else 0
    ensures Approvals(effects + [e], goalId)
            == Approvals(effects, goalId)
               + if e.before.goalId == goalId && e.verdict.Some? && e.verdict.value.outcome == Approved then 1 else 0
  {
    assert (effects + [e])[..|effects|] == effects;
  }

  lemma CompleteKeepsTallied(w: World, step: Step, start: Option<GoalState>)
    requires Tallied(w, start) && Matched(w) && step.CompleteStep?
    ensures Tallied(Next(w, step), start)
  {
    var next := Next(w, step);
    if next.h.goal == w.h.goal {
      assert next.effects == w.effects;
    } else {
      ResultIsTallied(w, step, start);
      assert next.effects == w.effects + EffectsOf(w, step);
    }
  }

  /** The one effect of a completion that touches the goal. */
  lemma ResultEffect(w: World, step: Step)
    requires Matched(w) && step.CompleteStep? && After(w.h, step).goal != w.h.goal
    ensures w.h.goal.Some? && After(w.h, step).goal.Some?
    ensures After(w.h, step).goal.value.goalId == w.h.goal.value.goalId && w.h.goal.value.status == Running
    ensures |EffectsOf(w, step)| == 1 && EffectsOf(w, step)[0].before == w.h.goal.value
    ensures EffectsOf(w, step)[0].verdict == if Judges(w.h, step) then Some(step.result.value) else None
  {
    CompletionOutcome(w.h, step);
    if !Judges(w.h, step) {
      UnjudgedOutcome(w.h, step);
    }
  }

  lemma ResultIsTallied(w: World, step: Step, start: Option<GoalState>)
    requires Tallied(w, start) && Matched(w) && step.CompleteStep? && After(w.h, step).goal != w.h.goal
    ensures var after, effects := After(w.h, step).goal, w.effects + EffectsOf(w, step);
            && w.h.goal.Some? && after.Some? && after.value.goalId == w.h.goal.value.goalId
            && |EffectsOf(w, step)| == 1 && EffectsOf(w, step)[0].before == w.h.goal.value
            && var id := after.value.goalId;
            Counted(after.value, RoundsBefore(start, id) + Rounds(effects, id),
                    ApprovalsBefore(start, id) + Approvals(effects, id))
  {
    ResultEffect(w, step);
    CompletionCounters(w.h, step);
    ghost var g, after, e := w.h.goal.value, After(w.h, step).goal, EffectsOf(w, step)[0];
    ghost var rounds := RoundsBefore(start, g.goalId) + Rounds(w.effects, g.goalId);
    ghost var approvals := ApprovalsBefore(start, g.goalId) + Approvals(w.effects, g.goalId);
    assert EffectsOf(w, step) == [e];
    AppendEffect(w.effects, e, g.goalId);
    if Judges(w.h, step) {
      VerdictIsTallied(g, step.result.value, after, rounds, approvals);
    } else {
      KeptCounts(w.h.goal, after, rounds, approvals);
    }
  }

  lemma VerdictIsTallied(g: GoalState, v: Verdict, after: Option<GoalState>, rounds: nat, approvals: nat)
    requires Counted(g, rounds, approvals) && g.status == Running
    requires after.Some? && CountersKept(Some(Advanced(g, v)), after)
    ensures Counted(after.value, rounds + 1, approvals + if v.outcome == Approved then 1 else 0)
  {
    VerdictCounts(g, v, rounds, approvals);
    KeptCounts(Some(Advanced(g, v)), after, rounds + 1, approvals + if v.outcome == Approved then 1 else 0);
  }

  lemma SetKeepsTallied(w: World, step: Step, start: Option<GoalState>)
    requires Tallied(w, start) && step.SetGoal? && step.newId !in w.goals
    ensures Tallied(Next(w, step), start)
  {
    var next := Next(w, step);
    SetKeepsCounters(w.h, step);
    UnknownGoalHasNone(w.effects, step.newId);
    assert next.effects == w.effects;
  }

  lemma OthersKeepTallied(w: World, step: Step, start: Option<GoalState>)
    requires Tallied(w, start) && !step.SetGoal? && !step.CompleteStep?
    ensures Tallied(Next(w, step), start)
  {
    var next := Next(w, step);
    OtherStepsKeepCounters(w.h, step);
    assert next.effects == w.effects;
  }

  lemma {:induction false} RunKeepsTallied(w: World, steps: seq<Step>)
    requires Start(w) && FreshGoals(w, steps) && (w.h.goal.Some? ==> WellCounted(w.h.goal.value))
    ensures Tallied(Run(w, steps), w.h.goal)
  {
    if steps != [] {
      var before, step := steps[..|steps| - 1], steps[|steps| - 1];
      RunKeepsTallied(w, before);
      RunKeepsMatched(w, before);
      if step.CompleteStep? {
        CompleteKeepsTallied(Run(w, before), step, w.h.goal);
      } else if step.SetGoal? {
        SetKeepsTallied(Run(w, before), step, w.h.goal);
      } else {
        OthersKeepTallied(Run(w, before), step, w.h.goal);
      }
    }
  }

  /**
   With goal ids never reused, and whether the worker starts with a stored goal or none: a goal
   converges exactly on its third approved verification, those before the start included;
   whatever happens it sees at most `maxLoops + 2` verdicts and stops running by then; and what
   is stored is well counted again.
   */
  lemma GoalEndsWithinItsLoops(w: World, steps: seq<Step>)
    requires Start(w) && FreshGoals(w, steps) && (w.h.goal.Some? ==> WellCounted(w.h.goal.value))
    ensures var end := Run(w, steps);
            end.h.goal.Some? ==>
            var g := end.h.goal.value;
            var approvals := ApprovalsBefore(w.h.goal, g.goalId) + Approvals(end.effects, g.goalId);
            && g.loopCount == RoundsBefore(w.h.goal, g.goalId) + Rounds(end.effects, g.goalId) <= g.maxLoops + 2
            && (g.loopCount == g.maxLoops + 2 ==> g.status !in {Running, UserPaused})
            && (g.status == Converged <==> approvals == TOTAL_MILESTONES)
            && (g.status != Converged ==> approvals == g.currentMilestone - 1)
            && WellCounted(g)
  {
    RunKeepsTallied(w, steps);
  }

  // ---------------------------------------------------- one queued start at a time

  /** The goal whose next turn the step puts into the worker's queue. */
  function QueuesStart(h: Handle, step: Step): Option<string> {
    match step
    case SetGoal(objective, status, budget, newId, f, sent) =>
      var (changed, r) := Set(h, objective, status, budget, newId, f);
      if r.Ok? && SetChanges(h.goal, r.value) && r.value.status == Running
         && changed.scheduled != Some(r.value.goalId) && sent
      then Some(r.value.goalId) else None
    case CompleteStep(goalId, turn, checkpoint, current, result, f, sent, _) =>
      var (done, r) := CompleteWith(h, goalId, turn, checkpoint, current, result, f);
      if r.Ok? && r.value.Some? && r.value.value.status == Running
         && done.scheduled != Some(r.value.value.goalId) && sent
      then Some(r.value.value.goalId) else None
    case Resume(checkpoint, f, g, sent) =>
      if !f.load && h.goal.Some? && h.goal.value.status == Running && !h.goal.value.settled
         && h.scheduled != Some(h.goal.value.goalId) && sent
      then Some(h.goal.value.goalId) else None
    case _ => None
  }

  /**
   What gives a reservation up: the turn starts, the goal is cleared, a client's request to
   create a goal gets past its first checks, or an accepted edit leaves the goal paused.
   */
  predicate Drops(h: Handle, step: Step) {
    match step
    case StartTurn(_, _, _) => true
    case ClearGoal(_) => true
    case SetGoal(objective, status, budget, _, f, _) =>
      && !f.load
      && if h.goal.None? || h.goal.value.status !in {Running, UserPaused} then
           (status.None? || status.value == Active) && objective.Some? && !IsBlank(objective.value)
         else
           && (status == Some(Paused) || (status.None? && h.goal.value.status == UserPaused))
           && (objective.Some? || budget.Some? ==> Edited(h.goal.value, objective, budget).Ok? && !f.write)
           && (h.goal.value.status == Running ==> !f.later)
    case _ => false
  }

  /** Only the current goal's turn is ever reserved. */
  predicate ReservesCurrent(h: Handle) {
    h.scheduled.Some? ==> h.goal.Some? && h.goal.value.goalId == h.scheduled.value
  }

  lemma SetReserves(h: Handle, step: Step, g: string)
    requires ReservesCurrent(h) && step.SetGoal?
    ensures ReservesCurrent(After(h, step))
    ensures After(h, step).scheduled == Some(g)
            <==> QueuesStart(h, step) == Some(g) || (h.scheduled == Some(g) && !Drops(h, step))
  {
    if h.goal.None? || h.goal.value.status !in {Running, UserPaused} {
      CreateReserves(h, step, g);
    } else {
      EditReserves(h, step, g);
    }
  }

  lemma CreateReserves(h: Handle, step: Step, g: string)
    requires ReservesCurrent(h) && step.SetGoal?
    requires h.goal.None? || h.goal.value.status !in {Running, UserPaused}
    ensures ReservesCurrent(After(h, step))
    ensures After(h, step).scheduled == Some(g)
            <==> QueuesStart(h, step) == Some(g) || (h.scheduled == Some(g) && !Drops(h, step))
  {
  }

  lemma EditReserves(h: Handle, step: Step, g: string)
    requires ReservesCurrent(h) && step.SetGoal?
    requires h.goal.Some? && h.goal.value.status in {Running, UserPaused}
    ensures ReservesCurrent(After(h, step))
    ensures After(h, step).scheduled == Some(g)
            <==> QueuesStart(h, step) == Some(g) || (h.scheduled == Some(g) && !Drops(h, step))
  {
  }

  lemma CompleteReserves(h: Handle, step: Step, g: string)
    requires ReservesCurrent(h) && step.CompleteStep?
    ensures ReservesCurrent(After(h, step))
    ensures After(h, step).scheduled == Some(g) <==> QueuesStart(h, step) == Some(g) || h.scheduled == Some(g)
  {
  }

  lemma PrepareReserves(h: Handle, goalId: string, turn: string, checkpoint: nat, f: Faults, g: Faults)
    requires ReservesCurrent(h)
    ensures var after := PrepareOrFail(h, goalId, turn, checkpoint, f, g);
            ReservesCurrent(after) && after.scheduled == h.scheduled
  {
  }

  /** After any step a turn is reserved exactly if the step queued it, or it was and is not given up. */
  lemma StepReserves(h: Handle, step: Step, g: string)
    requires ReservesCurrent(h)
    ensures ReservesCurrent(After(h, step))
    ensures After(h, step).scheduled == Some(g)
            <==> QueuesStart(h, step) == Some(g) || (h.scheduled == Some(g) && !Drops(h, step))
  {
    match step
    case SetGoal(_, _, _, _, _, _) => SetReserves(h, step, g);
    case ClearGoal(_) =>
    case StartTurn(_, _, _) =>
    case RefuseStart =>
    case SettleTurn(_, _, _) =>
    case UseTokens(_, _, _, _) =>
    case LimitTurn(_, _, _, _, _) =>
    case PrepareStep(goalId, turn, checkpoint, f, limit) => PrepareReserves(h, goalId, turn, checkpoint, f, limit);
    case CompleteStep(_, _, _, _, _, _, _, _) => CompleteReserves(h, step, g);
    case Resume(checkpoint, f, limit, _) =>
      if h.goal.Some? && h.goal.value.activeTurn.Some? {
        PrepareReserves(h, h.goal.value.goalId, h.goal.value.activeTurn.value, checkpoint, f, limit);
      }
  }

  /** A start was queued for the goal, and nothing has given it up since. */
  predicate QueuedSince(w: World, steps: seq<Step>, goalId: string) {
    steps != []
    && (var before, step := Run(w, steps[..|steps| - 1]).h, steps[|steps| - 1];
        QueuesStart(before, step) == Some(goalId)
        || (!Drops(before, step) && QueuedSince(w, steps[..|steps| - 1], goalId)))
  }

  /** In every run a goal's turn is reserved exactly while a queued start has not been given up. */
  lemma {:induction false} ReservedIffQueued(w: World, steps: seq<Step>, goalId: string)
    requires Start(w)
    ensures ReservesCurrent(Run(w, steps).h)
    ensures Run(w, steps).h.scheduled == Some(goalId) <==> QueuedSince(w, steps, goalId)
  {
    if steps != [] {
      ReservedIffQueued(w, steps[..|steps| - 1], goalId);
      StepReserves(Run(w, steps[..|steps| - 1]).h, steps[|steps| - 1], goalId);
    }
  }

  lemma {:induction false} RunKeepsIds(w: World, steps: seq<Step>)
    requires Start(w)
    ensures var end := Run(w, steps); KnownIds(end.h, end.turns, end.goals)
  {
    if steps != [] {
      var before := Run(w, steps[..|steps| - 1]);
      RunKeepsIds(w, steps[..|steps| - 1]);
      StepKeepsIds(before.h, steps[|steps| - 1], before.turns, before.goals);
    }
  }

  /**
   In every run a second start is queued for a goal only once the first is given up: by
   starting, by clearing the goal, by pausing it, or by a request to create another. It is
   given up before that step, unless the step creates a goal under an id used before.
   */
  lemma StartsAreQueuedOnce(w: World, steps: seq<Step>, step: Step, goalId: string)
    requires Start(w) && QueuesStart(Run(w, steps).h, step) == Some(goalId)
    ensures QueuedSince(w, steps, goalId) ==> Drops(Run(w, steps).h, step)
    ensures QueuedSince(w, steps, goalId) ==> step.SetGoal? && step.newId in Run(w, steps).goals
  {
    var end := Run(w, steps);
    ReservedIffQueued(w, steps, goalId);
    RunKeepsIds(w, steps);
    if QueuedSince(w, steps, goalId) {
      QueuesAgain(end.h, step, goalId, end.turns, end.goals);
    }
  }

  lemma QueuesAgain(h: Handle, step: Step, goalId: string, turns: set<string>, goals: set<string>)
    requires QueuesStart(h, step) == Some(goalId) && h.scheduled == Some(goalId)
    requires ReservesCurrent(h) && KnownIds(h, turns, goals)
    ensures Drops(h, step) && step.SetGoal? && step.newId in goals
  {
  }

  /** Pausing and resuming before the first start has begun queues a second one. */
  lemma PauseQueuesTwice(g: GoalState, f: Faults)
    requires g.status == Running && !g.settled
    ensures var h0 := Handle(Some(g), None, None, true, 0);
            var resume := Resume(0, NO_FAULTS, f, true);
            var pause := SetGoal(None, Some(Paused), None, "new", NO_FAULTS, true);
            var restart := SetGoal(None, Some(Active), None, "new", NO_FAULTS, true);
            var h1 := After(h0, resume);
            var h2 := After(h1, pause);
            && QueuesStart(h0, resume) == Some(g.goalId) && Drops(h1, pause)
            && QueuesStart(h2, restart) == Some(g.goalId)
  {
  }

  // ---------------------------------------------------- a refused start

  /** The goal starts in the worker's queue, oldest first. */
  function Queue(w: World, steps: seq<Step>): seq<string> {
    if steps == [] then []
    else
      var before, step := steps[..|steps| - 1], steps[|steps| - 1];
      Queued(Queue(w, before), QueuesStart(Run(w, before).h, step), step.StartTurn? || step.RefuseStart?)
  }

  /** A queued start goes to the end; a start that begins or is refused is the oldest. */
  function Queued(queue: seq<string>, start: Option<string>, takes: bool): seq<string> {
    if start.Some? then queue + [start.value]
    else if takes && queue != [] then queue[1..]
    else queue
  }

  /** The goal's turn is reserved, yet no start of it waits: nothing will begin it. */
  predicate Stuck(w: World, steps: seq<Step>, goalId: string) {
    Run(w, steps).h.scheduled == Some(goalId) && goalId !in Queue(w, steps)
  }

  /** A step that leaves the goal reserved queued its start, or found it reserved. */
  lemma StartIsReserved(h: Handle, step: Step, goalId: string)
    requires ReservesCurrent(h) && After(h, step).scheduled == Some(goalId)
    ensures QueuesStart(h, step).Some? ==> QueuesStart(h, step).value == goalId
    ensures QueuesStart(h, step).None? ==> h.scheduled == Some(goalId)
  {
    StepReserves(h, step, goalId);
    if QueuesStart(h, step).Some? {
      StepReserves(h, step, QueuesStart(h, step).value);
    }
  }

  lemma NewestStays(queue: seq<string>, start: Option<string>, takes: bool, goalId: string)
    requires if start.Some? then start.value == goalId else queue != [] ==> queue[|queue| - 1] == goalId
    ensures var next := Queued(queue, start, takes); next != [] ==> next[|next| - 1] == goalId
  {
  }

  /** While a goal's turn is reserved, the newest start in the queue is its own. */
  lemma {:induction false} NewestStartIsReserved(w: World, steps: seq<Step>, goalId: string)
    requires Start(w) && Run(w, steps).h.scheduled == Some(goalId)
    ensures var queue := Queue(w, steps);
            queue != [] ==> queue[|queue| - 1] == goalId
  {
    if steps != [] {
      ghost var before, step := steps[..|steps| - 1], steps[|steps| - 1];
      ghost var h, start := Run(w, before).h, QueuesStart(Run(w, before).h, step);
      ReservedIffQueued(w, before, goalId);
      assert steps == before + [step];
      StepsOn(w, before, step);
      StartIsReserved(h, step, goalId);
      if start.None? {
        NewestStartIsReserved(w, before, goalId);
      }
      NewestStays(Queue(w, before), start, step.StartTurn? || step.RefuseStart?, goalId);
    }
  }

  /** The reserved goal's last start was refused, and nothing has given the reservation up since. */
  predicate RefusedSince(w: World, steps: seq<Step>, goalId: string) {
    steps != []
    && (var before, step := steps[..|steps| - 1], steps[|steps| - 1];
        && !Drops(Run(w, before).h, step)
        && (|| (step.RefuseStart? && QueuedSince(w, before, goalId) && Queue(w, before) == [goalId])
            || RefusedSince(w, before, goalId)))
  }

  /**
   In every run a reserved goal still has a start in the queue, unless the last one was refused:
   refusing does not release the reservation.
   */
  lemma {:induction false} StuckIffRefused(w: World, steps: seq<Step>, goalId: string)
    requires Start(w)
    ensures Stuck(w, steps, goalId) <==> RefusedSince(w, steps, goalId)
  {
    if steps != [] {
      var before, step := steps[..|steps| - 1], steps[|steps| - 1];
      StuckIffRefused(w, before, goalId);
      StuckMoves(w, before, step, goalId);
      assert before + [step] == steps;
    }
  }

  /** One step leaves a goal stuck exactly if it refuses the last start or gives up nothing. */
  lemma StuckMoves(w: World, before: seq<Step>, step: Step, goalId: string)
    requires Start(w)
    ensures Stuck(w, before + [step], goalId)
            <==> !Drops(Run(w, before).h, step)
                 && (|| (step.RefuseStart? && QueuedSince(w, before, goalId) && Queue(w, before) == [goalId])
                     || Stuck(w, before, goalId))
  {
    var h, queue, start := Run(w, before).h, Queue(w, before), QueuesStart(Run(w, before).h, step);
    assert (before + [step])[..|before|] == before;
    ReservedIffQueued(w, before, goalId);
    StepReserves(h, step, goalId);
    if start.Some? {
      StepReserves(h, step, start.value);
      if start.value == goalId {
        StartsAreQueuedOnce(w, before, step, goalId);
      }
    } else if h.scheduled == Some(goalId) {
      NewestStartIsReserved(w, before, goalId);
      TakenStart(queue, goalId);
    }
  }

  lemma TakenStart(queue: seq<string>, goalId: string)
    requires queue != [] ==> queue[|queue| - 1] == goalId
    ensures queue != [] ==> (goalId !in queue[1..] <==> queue == [goalId])
  {
    if |queue| > 1 {
      assert queue[1..][|queue| - 2] == goalId;
    }
  }

  /** A refused start stops any running, unsettled goal: resuming it queues nothing more. */
  lemma RefusedGoalIsStuck(w: World, f: Faults)
    requires Start(w) && w.h.goal.Some? && w.h.goal.value.status == Running && !w.h.goal.value.settled
    ensures var resume := Resume(0, NO_FAULTS, f, true);
            Stuck(w, [resume, RefuseStart, resume], w.h.goal.value.goalId)
  {
    var resume, id := Resume(0, NO_FAULTS, f, true), w.h.goal.value.goalId;
    assert [] + [resume] == [resume] && [resume] + [RefuseStart] == [resume, RefuseStart];
    assert [resume, RefuseStart] + [resume] == [resume, RefuseStart, resume];
    StepsOn(w, [], resume);
    ResumeReserves(w.h, f, id);
    StepsOn(w, [resume], RefuseStart);
    assert Queue(w, [resume]) == [id];
    StuckMoves(w, [resume], RefuseStart, id);
    ReservedIffQueued(w, [resume], id);
    StuckMoves(w, [resume, RefuseStart], resume, id);
  }

  lemma ResumeReserves(h: Handle, f: Faults, goalId: string)
    requires h.scheduled.None? && h.goal.Some? && h.goal.value.goalId == goalId
    requires h.goal.value.status == Running && !h.goal.value.settled
    ensures var resume := Resume(0, NO_FAULTS, f, true);
            After(h, resume).scheduled == Some(goalId) && QueuesStart(h, resume) == Some(goalId)
  {
  }

  lemma StepsOn(w: World, before: seq<Step>, step: Step)
    ensures Run(w, before + [step]) == Next(Run(w, before), step)
    ensures Queue(w, before + [step])
            == Queued(Queue(w, before), QueuesStart(Run(w, before).h, step), step.StartTurn? || step.RefuseStart?)
  {
    assert (before + [step])[..|before|] == before;
  }

  // ---------------------------------------------------- single calls

  /** When a verification is prepared, and what it then holds. */
  lemma PreparesIff(h: Handle, goalId: string, checkpoint: nat, f: Faults)
    ensures var (after, r) := Prepare(h, goalId, checkpoint, f);
            && (r.Ok? && r.value.Some? <==>
                  && h.pending.None? && f == NO_FAULTS && h.verifierConfigured && h.goal.Some?
                  && exists turn :: Awaits(h.goal, goalId, turn))
            && (r.Ok? && r.value.Some? ==>
                  after.pending == r.value && Awaits(after.goal, goalId, r.value.value.turn)
                  && r.value.value.goalId == goalId && r.value.value.checkpoint == checkpoint)
            && (!(r.Ok? && r.value.Some?) ==> after.pending == h.pending)
  {
    if h.goal.Some? && h.goal.value.activeTurn.Some? {
      assert SettledUnder(h, goalId) <==> Awaits(h.goal, goalId, h.goal.value.activeTurn.value);
    }
  }

  /** Two schedulings in a row queue one start; starting or clearing frees the reservation. */
  lemma ReservedOnce(h: Handle, goalId: string, turn: string, f: Faults)
    ensures Schedule(Schedule(h, goalId, true).0, goalId, false) == (h.(scheduled := Some(goalId)), true)
    ensures After(h, StartTurn(goalId, turn, f)).scheduled.None? && After(h, ClearGoal(f)).scheduled.None?
  {
  }

  /** Clearing disarms the verification in flight: its result, whatever it is, changes nothing. */
  lemma ClearedResultIsIgnored(h: Handle, f: Faults, goalId: string, turn: string, checkpoint: nat,
                               current: nat, result: Result<Verdict, string>, g: Faults)
    ensures var cleared := Cleared(h, f).0;
            CompleteWith(cleared, goalId, turn, checkpoint, current, result, g) == (cleared, Ok(None))
  {
  }

  /**
   A turn that settles while an older verification is pending is not verified: preparing it
   does nothing, and the old result then only frees the slot.
   */
  lemma SettledTurnIsLeftUnverified(h: Handle, goalId: string, checkpoint: nat, current: nat,
                                    result: Result<Verdict, string>)
    requires h.pending.Some? && h.pending.value.goalId == goalId && h.goal.Some?
    requires h.goal.value.activeTurn.Some? && h.goal.value.activeTurn.value != h.pending.value.turn
    requires Awaits(h.goal, goalId, h.goal.value.activeTurn.value)
    ensures Prepare(h, goalId, checkpoint, NO_FAULTS) == (h, Ok(None))
    ensures var (after, r) := CompleteWith(h, goalId, h.pending.value.turn, checkpoint, current, result, NO_FAULTS);
            r == Ok(None) && after == h.(pending := None)
            && Awaits(after.goal, goalId, h.goal.value.activeTurn.value)
  {
  }

  /** Such a state is reached by pausing, resuming and finishing one more turn. */
  lemma PauseReachesUnverifiedTurn() returns (h: Handle)
    ensures h.pending == Some(Pending("g", "1", 7)) && Awaits(h.goal, "g", "2")
  {
    var g := NewGoal("g", "do", 0, None).(activeTurn := Some("1"), settled := true);
    var h0 := Handle(Some(g), None, None, true, 0);
    var h1 := Prepare(h0, "g", 7, NO_FAULTS).0;
    var h2 := Set(h1, None, Some(Paused), None, "x", NO_FAULTS).0;
    var h3 := Set(h2, None, Some(Active), None, "x", NO_FAULTS).0;
    var h4 := After(h3, StartTurn("g", "2", NO_FAULTS));
    h := After(h4, SettleTurn("g", "2", NO_FAULTS));
  }
}
