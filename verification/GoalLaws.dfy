/**
 What one call does to a goal, field by field: which requests are accepted, what they store, and
 what they leave alone.
 */
module GoalLaws {
  import opened Goal
  import opened Text
  import opened Wrappers

  /** The part of a text from `from` to `to`; everything around it is white space. */
  predicate IsMiddle(text: string, from: nat, to: nat, middle: string) {
    from <= to <= |text| && middle == text[from..to] && IsBlank(text[..from]) && IsBlank(text[to..])
  }

  /** A text without the white space around it: the rest of it is white space, its ends are not. */
  ghost predicate IsCore(core: string, text: string) {
    && (core != "" ==> !IsWhitespace(core[0]) && !IsWhitespace(core[|core| - 1]))
    && exists from: nat, to: nat :: IsMiddle(text, from, to, core)
  }

  lemma MiddleOfTail(text: string, from: nat, to: nat, middle: string)
    requires text != [] && IsWhitespace(text[0]) && IsMiddle(text[1..], from, to, middle)
    ensures IsMiddle(text, from + 1, to + 1, middle)
  {
    assert text[..from + 1] == [text[0]] + text[1..][..from];
    assert text[to + 1..] == text[1..][to..];
  }

  lemma MiddleOfFront(text: string, from: nat, to: nat, middle: string)
    requires text != [] && IsWhitespace(text[|text| - 1]) && IsMiddle(text[..|text| - 1], from, to, middle)
    ensures IsMiddle(text, from, to, middle)
  {
    var front := text[..|text| - 1];
    assert text[..from] == front[..from];
    assert text[to..] == front[to..] + [text[|text| - 1]];
  }

  lemma {:induction false} TrimIsCore(text: string)
    ensures IsCore(Trim(text), text)
    decreases |text|
  {
    if text != [] && IsWhitespace(text[0]) {
      TrimIsCore(text[1..]);
      var from: nat, to: nat :| IsMiddle(text[1..], from, to, Trim(text[1..]));
      MiddleOfTail(text, from, to, Trim(text));
    } else if text != [] && IsWhitespace(text[|text| - 1]) {
      var front := text[..|text| - 1];
      TrimIsCore(front);
      var from: nat, to: nat :| IsMiddle(front, from, to, Trim(front));
      MiddleOfFront(text, from, to, Trim(text));
    } else {
      assert IsMiddle(text, 0, |text|, text);
    }
  }

  /** A text that is not blank keeps something. */
  lemma CoreIsNotEmpty(core: string, text: string)
    requires IsCore(core, text) && !IsBlank(text)
    ensures core != ""
  {
    var from: nat, to: nat :| IsMiddle(text, from, to, core);
    var i :| 0 <= i < |text| && !IsWhitespace(text[i]);
    InMiddle(text, from, to, core, i);
  }

  lemma InMiddle(text: string, from: nat, to: nat, middle: string, i: nat)
    requires IsMiddle(text, from, to, middle) && i < |text| && !IsWhitespace(text[i])
    ensures from <= i < to
  {
    assert forall k :: 0 <= k < from ==> text[k] == text[..from][k];
    assert forall k :: to <= k < |text| ==> text[k] == text[to..][k - to];
  }

  // ------------------------------------------------------------ editing a goal

  predicate IsOpen(goal: Option<GoalState>) {
    goal.Some? && goal.value.status in {Running, UserPaused}
  }

  predicate IsPositive(tokenBudget: Option<Option<int>>) {
    tokenBudget.Some? && tokenBudget.value.Some? ==> tokenBudget.value.value > 0
  }

  /** The status a request asks for; without one the goal keeps its own. */
  function Wanted(b: GoalState, status: Option<RequestedStatus>): Status {
    if status == Some(Paused) || (status.None? && b.status == UserPaused) then UserPaused else Running
  }

  /** What no client request changes. */
  predicate KeepsWork(b: GoalState, a: GoalState) {
    && a.goalId == b.goalId && a.currentMilestone == b.currentMilestone && a.loopCount == b.loopCount
    && a.maxLoops == b.maxLoops && a.score == b.score && a.tokensUsed == b.tokensUsed
    && a.lastError == b.lastError && a.verification == b.verification
  }

  /** The trimmed objective and the budget of the request, where it has them. */
  ghost predicate StoresText(b: GoalState, a: GoalState, objective: Option<string>,
                             tokenBudget: Option<Option<int>>) {
    && (if objective.Some? then a.objective != "" && IsCore(a.objective, objective.value)
        else a.objective == b.objective)
    && (if tokenBudget.Some? then a.tokenBudget == tokenBudget.value else a.tokenBudget == b.tokenBudget)
  }

  /** The goal's place in its loop: pausing takes its turn away, resuming gives none. */
  predicate StoresStatus(b: GoalState, a: GoalState, wanted: Status) {
    && a.status == wanted
    && (if b.status == Running && wanted == UserPaused then a.activeTurn.None? && !a.settled
        else a.activeTurn == b.activeTurn && a.settled == b.settled)
  }

  lemma EditedIff(g: GoalState, objective: Option<string>, tokenBudget: Option<Option<int>>)
    ensures Edited(g, objective, tokenBudget).Ok?
            <==> (objective.Some? ==> !IsBlank(objective.value)) && IsPositive(tokenBudget)
    ensures Edited(g, objective, tokenBudget).Ok? ==>
              var a := Edited(g, objective, tokenBudget).value;
              KeepsWork(g, a) && StoresText(g, a, objective, tokenBudget) && StoresStatus(g, a, g.status)
  {
    if objective.Some? && !IsBlank(objective.value) {
      TrimIsCore(objective.value);
      CoreIsNotEmpty(Trim(objective.value), objective.value);
    }
  }

  /**
   Exactly when a client's change of a running or paused goal is accepted: not asked for another
   status, no blank objective, no budget below one, and the writes it needs succeed.
   */
  lemma EditIsAcceptedIff(h: Handle, objective: Option<string>, status: Option<RequestedStatus>,
                          tokenBudget: Option<Option<int>>, newId: string, f: Faults)
    requires IsOpen(h.goal)
    ensures Set(h, objective, status, tokenBudget, newId, f).1.Ok?
            <==> && !f.load && status in {None, Some(Active), Some(Paused)}
                 && (objective.Some? ==> !IsBlank(objective.value)) && IsPositive(tokenBudget)
                 && (objective.Some? || tokenBudget.Some? ==> !f.write)
                 && (Wanted(h.goal.value, status) != h.goal.value.status ==> !f.later)
  {
    EditedIff(h.goal.value, objective, tokenBudget);
    ghost var g := h.goal.value;
    assert Switched(g, Active) == g <==> g.status == Running by {
      assert g.(status := Running).status == Running;
    }
    assert Switched(g, Paused) == g <==> g.status == UserPaused by {
      assert PausedGoal(g).status == UserPaused;
    }
  }

  /** What an accepted change stores, and what it leaves alone. */
  lemma EditIsStored(h: Handle, objective: Option<string>, status: Option<RequestedStatus>,
                     tokenBudget: Option<Option<int>>, newId: string, f: Faults)
    requires IsOpen(h.goal)
    ensures var (after, r) := Set(h, objective, status, tokenBudget, newId, f);
            && after.goal.Some? && after.pending == h.pending
            && var b, a := h.goal.value, after.goal.value;
            && KeepsWork(b, a)
            && (r.Ok? ==>
                  && r.value == a && StoresText(b, a, objective, tokenBudget)
                  && StoresStatus(b, a, Wanted(b, status))
                  && after.scheduled == if a.status == Running then h.scheduled else None)
            && (r.Err? ==>
                  && after.scheduled == h.scheduled
                  && (a == b || (StoresText(b, a, objective, tokenBudget) && StoresStatus(b, a, b.status))))
  {
    EditedIff(h.goal.value, objective, tokenBudget);
  }

  // ------------------------------------------------------------ a new goal

  /** A goal nobody has worked on. */
  predicate IsUntouched(g: GoalState) {
    && g.status == Running && g.currentMilestone == 1 && g.loopCount == 0 && g.score.None?
    && g.tokensUsed == 0 && g.activeTurn.None? && !g.settled && g.lastError.None? && g.verification == NotVerified
  }

  /**
   Exactly when a goal is created, and what it is. A failing write behind the first one leaves
   the new goal behind, without its budget if it came before that.
   */
  lemma CreationIff(h: Handle, objective: Option<string>, status: Option<RequestedStatus>,
                    tokenBudget: Option<Option<int>>, newId: string, f: Faults)
    requires !IsOpen(h.goal)
    ensures var (after, r) := Set(h, objective, status, tokenBudget, newId, f);
            var accepted := && !f.load && status in {None, Some(Active)} && objective.Some?
                            && !IsBlank(objective.value) && Utf8Len(objective.value) <= 8192
                            && IsPositive(tokenBudget);
            && (r.Ok? <==> accepted && !f.write && !f.note && !f.later)
            && (if accepted && !f.write then
                  && after.goal.Some? && after.goal.value.goalId == newId
                  && after.goal.value.objective == objective.value && IsUntouched(after.goal.value)
                  && after.goal.value.maxLoops == (if h.maxLoops == 0 then 100 else h.maxLoops)
                  && after.goal.value.tokenBudget
                     == (if tokenBudget.Some? && !f.note then tokenBudget.value else None)
                  && after.scheduled.None?
                else after.goal == h.goal)
            && (r.Ok? ==> after.goal == Some(r.value))
            && after.pending == h.pending
  {
  }

  /** Clearing always disarms the goal, and drops and reports it exactly when it is there and can be removed. */
  lemma ClearIff(h: Handle, f: Faults)
    ensures var (after, r) := Cleared(h, f);
            && after.pending.None? && after.scheduled.None?
            && after == h.(pending := None, scheduled := None, goal := after.goal)
            && (r == Ok(true) <==> h.goal.Some? && !f.write)
            && (r == Ok(false) <==> h.goal.None?)
            && after.goal == if f.write then h.goal else None
  {
  }

  // ------------------------------------------------------------ one round

  /** Failing keeps everything but status, error and a running verification. */
  lemma FailureKeepsTheRest(h: Handle, reason: string, f: Faults)
    ensures var (after, r) := Fail(h, reason, f);
            && (h.goal.None? || f.write ==> r.Err? && after == h)
            && (h.goal.Some? && !f.write ==>
                  && after == h.(goal := after.goal) && after.goal.Some?
                  && var b, a := h.goal.value, after.goal.value;
                  && a == b.(status := Failed, lastError := a.lastError, verification := a.verification)
                  && a.lastError.Some? && a.lastError.value <= reason
                  && |a.lastError.value| == (if |reason| <= 512 then |reason| else 512)
                  && (b.verification != Verifying ==> a.verification == b.verification && r == Ok(a))
                  && (b.verification == Verifying ==>
                        a.verification == VerificationFailed && (r == Ok(a) <==> !f.note)))
  {
  }

  /**
   A running goal's round: its turn starts, settles, and is verified at a checkpoint; the verdict
   then moves the goal as it says, and the goal has no turn until its next one starts.
   */
  lemma RoundAppliesItsVerdict(h: Handle, turn: string, checkpoint: nat, v: Verdict)
    requires h.goal.Some? && h.goal.value.status == Running && h.pending.None? && h.verifierConfigured
    ensures var g := h.goal.value;
            var h1 := Updated(h.(scheduled := None), g.goalId, None, (s: GoalState) => WithTurn(s, turn), NO_FAULTS).0;
            var h2 := Updated(h1, g.goalId, Some(turn), (s: GoalState) => s.(settled := true), NO_FAULTS).0;
            var (h3, prepared) := Prepare(h2, g.goalId, checkpoint, NO_FAULTS);
            var (h4, done) := CompleteWith(h3, g.goalId, turn, checkpoint, checkpoint, Ok(v), NO_FAULTS);
            && prepared == Ok(Some(Pending(g.goalId, turn, checkpoint)))
            && h3.goal.value.verification == Verifying
            && done.Ok? && done.value.Some? && h4.goal == done.value && h4.pending.None?
            && var a := done.value.value;
            && a.loopCount == g.loopCount + 1 && a.score == v.score && a.activeTurn.None? && !a.settled
            && a.verification == Verified && a.lastError.None?
            && a.currentMilestone
               == (if v.outcome == Approved && g.currentMilestone < 3 then g.currentMilestone + 1
                   else g.currentMilestone)
            && (a.status == Converged <==> v.outcome == Approved && g.currentMilestone >= 3)
            && (a.status == Failed <==> v.outcome != Approved && g.loopCount + 1 >= g.maxLoops)
            && (a.status == Running || a.status == Converged || a.status == Failed)
            && a.goalId == g.goalId && a.objective == g.objective && a.maxLoops == g.maxLoops
            && a.tokenBudget == g.tokenBudget && a.tokensUsed == g.tokensUsed
  {
  }

  /** A result for the awaited turn that is not applied fails the goal and says why, first cause first. */
  lemma FailedResultSaysWhy(h: Handle, goalId: string, turn: string, checkpoint: nat, current: nat,
                            result: Result<Verdict, string>, f: Faults)
    requires IsPending(h, goalId, turn) && Awaits(h.goal, goalId, turn) && !f.load && !f.write
    ensures var (after, r) := CompleteWith(h, goalId, turn, checkpoint, current, result, f);
            var stale := h.pending.value.checkpoint != checkpoint || h.pending.value.checkpoint != current;
            && after.pending.None? && after.goal.Some? && after.scheduled == h.scheduled
            && var a := after.goal.value;
            && (stale ==> a.status == Failed
                          && a.lastError == Some("goal verifier result was stale for the settled checkpoint"))
            && (!stale && result.Err? ==>
                  a.status == Failed && a.lastError.Some? && a.lastError.value <= result.error
                  && |a.lastError.value| == Least(|result.error|, 512))
            && (!stale && result.Ok? && f.later ==>
                  a.status == Failed && a.lastError == Some("verifier verdict could not be recorded"))
            && (!stale && result.Ok? && !f.later ==> a.lastError.None? && r == Ok(Some(a)))
  {
  }

  // ------------------------------------------------------------ tokens

  function UsedAll(g: GoalState, amounts: seq<nat>): GoalState {
    if amounts == [] then g else Used(UsedAll(g, amounts[..|amounts| - 1]), amounts[|amounts| - 1])
  }

  function Total(amounts: seq<nat>): nat {
    if amounts == [] then 0 else Total(amounts[..|amounts| - 1]) + amounts[|amounts| - 1]
  }

  /**
   Reports of used tokens add up, up to the top of the 64-bit range, however they are split; a
   report stops the goal exactly when the sum has then reached its budget.
   */
  lemma {:induction false} UsageAddsUp(g: GoalState, amounts: seq<nat>)
    requires 0 <= g.tokensUsed <= 0x7fff_ffff_ffff_ffff
    ensures var a := UsedAll(g, amounts);
            && a.tokensUsed == Least(g.tokensUsed + Total(amounts), 0x7fff_ffff_ffff_ffff)
            && a == g.(tokensUsed := a.tokensUsed, status := a.status, lastError := a.lastError)
            && (amounts != [] && g.tokenBudget.Some? && a.tokensUsed >= g.tokenBudget.value ==>
                  a.status == BudgetLimited && a.lastError == Some("goal token budget exhausted"))
            && (g.tokenBudget.Some? ==> a.tokensUsed >= g.tokenBudget.value || a == g.(tokensUsed := a.tokensUsed))
            && (g.tokenBudget.None? ==> a == g.(tokensUsed := a.tokensUsed))
  {
    if amounts != [] {
      UsageAddsUp(g, amounts[..|amounts| - 1]);
    }
  }
}
