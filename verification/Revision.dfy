/**
 Optimistic concurrency of the runtime actor: clients attach the revision they last saw,
 the actor checks it, applies one command at a time and advances the revision.
 */
module Revision {
  import opened Decimals
  import opened Wrappers

  const MAX := U64_LIMIT - 1

  datatype ForkContextPolicy = Exact | Compact

  datatype GoalStatus = Active | Paused | Blocked | UsageLimited | BudgetLimited | Complete

  datatype SessionControlAction = Read | Freeze | FreezeSettled | Resume | ResumeSettled

  datatype Command =
    | SessionInfo
    | PrepareSessionFork(contextPolicy: ForkContextPolicy)
    | ReadNotebook
    | WriteNotebook
    | ForgetNotebook
    | ChildTask
    | SessionControl(action: SessionControlAction)
    | ChildSteerRequest
    | CheckpointSeq
    | ThreadId
    | WorldSnapshot
    | RefreshWorld
    | RefreshSkills
    | SetExecution
    | UpdateThread
    | McpStatus
    | BackgroundTaskList
    | BackgroundTaskRead
    | BackgroundTaskLogs
    | BackgroundTaskStop
    | BackgroundTaskRestart
    | ScheduledTaskList
    | ScheduledTaskRead
    | ScheduledTaskCancel
    | RetryMcp
    | ReadCheckpoint
    | StartNewThread
    | ThreadSettingsUpdate
    | ThreadGoalSet(objective: Option<string>, status: Option<GoalStatus>, tokenBudget: Option<Option<int>>)
    | ThreadGoalGet
    | ThreadGoalClear

  predicate IsMutation(c: Command) {
    || c.RefreshWorld? || c.RefreshSkills? || c.SetExecution? || c.UpdateThread? || c.RetryMcp?
    || c.StartNewThread? || c.ThreadSettingsUpdate? || c.ThreadGoalSet? || c.ThreadGoalClear?
    || c.PrepareSessionFork? || c.WriteNotebook? || c.ForgetNotebook? || c.ChildTask?
    || c.ChildSteerRequest? || c.BackgroundTaskStop? || c.BackgroundTaskRestart? || c.ScheduledTaskCancel?
    || (c.SessionControl? && c.action != Read)
  }

  predicate IsSafeWhileRunning(c: Command) {
    || c.BackgroundTaskStop? || c.ChildTask? || c.ChildSteerRequest? || c.RefreshSkills?
    || c.BackgroundTaskRestart? || c.ScheduledTaskCancel? || c.ThreadGoalClear?
    || c == ThreadGoalSet(None, Some(Paused), None)
    || (c.SessionControl? && c.action in {Freeze, ResumeSettled})
  }

  /** Commands whose success always counts as a change. */
  predicate AlwaysChanges(c: Command) {
    || c.WriteNotebook? || c.ForgetNotebook? || c.ChildTask? || c.SessionControl? || c.ChildSteerRequest?
    || c.UpdateThread? || c.BackgroundTaskStop? || c.BackgroundTaskRestart? || c.ScheduledTaskCancel?
    || c.StartNewThread?
  }

  /** What a command's own work did: the data it left behind, even when it failed. */
  datatype Operation = Succeeded(reportedChange: bool, after: string) | Failed(after: string)

  datatype State = State(revision: nat, data: string)

  /** The actor's state, absent before installation, and the revision shared with clients. */
  datatype Actor = Actor(runtime: Option<State>, shared: nat)

  datatype Request = Request(expected: nat, command: Command)

  datatype Reply = Done | Unavailable | OperationFailed | Busy | RevisionConflict(expected: nat, actual: nat)

  datatype Mode = Idle | Running | Stopping

  function RevisionOf(a: Actor): nat {
    if a.runtime.Some? then a.runtime.value.revision else 0
  }

  function DataOf(a: Actor): string {
    if a.runtime.Some? then a.runtime.value.data else ""
  }

  function Advance(a: Actor): Actor {
    if a.runtime.None? then a
    else
      var revision := SaturatingSuccessor(a.runtime.value.revision);
      Actor(Some(a.runtime.value.(revision := revision)), revision)
  }

  function Put(a: Actor, data: string): Actor {
    if a.runtime.None? then a else a.(runtime := Some(a.runtime.value.(data := data)))
  }

  predicate Changes(c: Command, op: Operation) {
    op.Succeeded? && (AlwaysChanges(c) || op.reportedChange)
  }

  function Mutated(a: Actor, c: Command, op: Operation): (Actor, Reply) {
    if a.runtime.None? then (a, Unavailable)
    else
      var worked := Put(a, op.after);
      if op.Failed? then (worked, OperationFailed)
      else if Changes(c, op) then (Advance(worked), Done)
      else (worked, Done)
  }

  /** Session forks have their own handlers; handling one here would panic. */
  function Handled(a: Actor, c: Command, op: Operation): (Actor, Reply)
    requires !c.PrepareSessionFork?
  {
    if IsMutation(c) then Mutated(a, c, op) else Observed(a, op)
  }

  /** A read, or a fork, which reads the source session: the actor's state stays as it is. */
  function Observed(a: Actor, op: Operation): (Actor, Reply) {
    (a, if a.runtime.None? then Unavailable else if op.Failed? then OperationFailed else Done)
  }

  function CheckRevision(r: Request, a: Actor): Option<Reply> {
    if !IsMutation(r.command) || r.expected == RevisionOf(a) then None
    else Some(RevisionConflict(r.expected, RevisionOf(a)))
  }

  /** One admitted request, as the idle or the turn-running worker treats it. */
  function Processed(a: Actor, mode: Mode, r: Request, op: Operation): (Actor, Reply) {
    var conflict := CheckRevision(r, a);
    if conflict.Some? then (a, conflict.value)
    else if mode == Idle then
      if r.command.PrepareSessionFork? then Observed(a, op) else Handled(a, r.command, op)
    else if mode == Running && r.command == PrepareSessionFork(Exact) then Observed(a, op)
    else if IsMutation(r.command) && (mode == Stopping || !IsSafeWhileRunning(r.command)) then (a, Busy)
    else Handled(a, r.command, op)
  }

  class RuntimeActor {
    var runtime: Option<State>
    var shared: nat

    constructor (runtime: Option<State>)
      ensures this.runtime == runtime && shared == RevisionOf(Value())
    {
      this.runtime := runtime;
      shared := if runtime.Some? then runtime.value.revision else 0;
    }

    function Value(): Actor
      reads this
    {
      Actor(runtime, shared)
    }

    method AdvanceRevision()
      modifies this
      ensures Value() == Advance(old(Value()))
    {
      if runtime.Some? {
        runtime := Some(runtime.value.(revision := SaturatingSuccessor(runtime.value.revision)));
        shared := runtime.value.revision;
      }
    }

    method Mutate(c: Command, op: Operation) returns (reply: Reply)
      modifies this
      ensures (Value(), reply) == Mutated(old(Value()), c, op)
    {
      if runtime.None? {
        return Unavailable;
      }
      runtime := Some(runtime.value.(data := op.after));
      if op.Failed? {
        return OperationFailed;
      }
      if AlwaysChanges(c) || op.reportedChange {
        AdvanceRevision();
      }
      reply := Done;
    }

    method Handle(c: Command, op: Operation) returns (reply: Reply)
      requires !c.PrepareSessionFork?
      modifies this
      ensures (Value(), reply) == Handled(old(Value()), c, op)
    {
      if IsMutation(c) {
        reply := Mutate(c, op);
      } else {
        reply := if runtime.None? then Unavailable else if op.Failed? then OperationFailed else Done;
      }
    }

    method HandleIdle(r: Request, op: Operation) returns (reply: Reply)
      modifies this
      ensures (Value(), reply) == Processed(old(Value()), Idle, r, op)
    {
      var conflict := CheckRevision(r, Value());
      if conflict.Some? {
        return conflict.value;
      }
      if r.command.PrepareSessionFork? {
        reply := if runtime.None? then Unavailable else if op.Failed? then OperationFailed else Done;
      } else {
        reply := Handle(r.command, op);
      }
    }

    method HandleRunning(r: Request, stopping: bool, op: Operation) returns (reply: Reply)
      modifies this
      ensures (Value(), reply) == Processed(old(Value()), if stopping then Stopping else Running, r, op)
    {
      var conflict := CheckRevision(r, Value());
      if conflict.Some? {
        return conflict.value;
      }
      if !stopping && r.command == PrepareSessionFork(Exact) {
        reply := if runtime.None? then Unavailable else if op.Failed? then OperationFailed else Done;
        return;
      }
      if (stopping && IsMutation(r.command)) || (IsMutation(r.command) && !IsSafeWhileRunning(r.command)) {
        reply := Busy;
      } else {
        reply := Handle(r.command, op);
      }
    }
  }

  // ---------------------------------------------------------------- gating

  /** Reads, refused and unavailable requests, and all requests while stopping, change nothing. */
  lemma OnlyAcceptedMutationsChange(a: Actor, mode: Mode, r: Request, op: Operation)
    ensures var (after, reply) := Processed(a, mode, r, op);
            after != a ==>
              && IsMutation(r.command) && !r.command.PrepareSessionFork? && a.runtime.Some?
              && r.expected == RevisionOf(a) && (reply.Done? || reply.OperationFailed?)
              && (mode == Idle || (mode == Running && IsSafeWhileRunning(r.command)))
  {
  }

  /** The answer to a request names exactly why it was not carried out. */
  lemma ReplySaysWhy(a: Actor, mode: Mode, r: Request, op: Operation)
    ensures var reply := Processed(a, mode, r, op).1;
            var current := !IsMutation(r.command) || r.expected == RevisionOf(a);
            var open := mode == Idle || !IsMutation(r.command)
                        || (mode == Running
                            && (IsSafeWhileRunning(r.command) || r.command == PrepareSessionFork(Exact)));
            && (reply.RevisionConflict? <==> !current)
            && (reply.Busy? <==> current && !open)
            && (reply.Unavailable? <==> current && open && a.runtime.None?)
            && (reply.OperationFailed? <==> current && open && a.runtime.Some? && op.Failed?)
            && (reply.Done? <==> current && open && a.runtime.Some? && op.Succeeded?)
  {
  }

  /** The commands that never change anything. */
  predicate OnlyReads(c: Command) {
    || c.SessionInfo? || c.ReadNotebook? || c.CheckpointSeq? || c.ThreadId? || c.WorldSnapshot? || c.McpStatus?
    || c.BackgroundTaskList? || c.BackgroundTaskRead? || c.BackgroundTaskLogs? || c.ScheduledTaskList?
    || c.ScheduledTaskRead? || c.ReadCheckpoint? || c.ThreadGoalGet? || c == SessionControl(SessionControlAction.Read)
  }

  /** The commands that have to wait for a running turn: the world, its settings, a new thread or goal. */
  predicate WaitsForTurn(c: Command) {
    || c.RefreshWorld? || c.SetExecution? || c.UpdateThread? || c.RetryMcp? || c.StartNewThread?
    || c.ThreadSettingsUpdate? || c.WriteNotebook? || c.ForgetNotebook? || c == PrepareSessionFork(Compact)
    || (c.SessionControl? && (c.action.FreezeSettled? || c.action.Resume?))
    || (c.ThreadGoalSet? && (c.objective.Some? || c.tokenBudget.Some? || c.status != Some(Paused)))
  }

  /** The commands that say themselves whether they changed something. */
  predicate ReportsChange(c: Command) {
    || c.RefreshWorld? || c.RefreshSkills? || c.SetExecution? || c.RetryMcp? || c.ThreadSettingsUpdate?
    || c.ThreadGoalSet? || c.ThreadGoalClear?
  }

  /** Reads are answered at any revision and in any mode; every other command needs the current one. */
  lemma ReadsNeedNoRevision(a: Actor, mode: Mode, r: Request, op: Operation)
    ensures var (after, reply) := Processed(a, mode, r, op);
            && (OnlyReads(r.command) ==> after == a && !reply.Busy? && !reply.RevisionConflict?)
            && (!OnlyReads(r.command) && r.expected != RevisionOf(a) ==>
                  after == a && reply == RevisionConflict(r.expected, RevisionOf(a)))
            && (r.expected == RevisionOf(a) ==> !reply.RevisionConflict?)
  {
  }

  /** At the current revision a command is told to wait exactly for these reasons. */
  lemma BusyIff(a: Actor, mode: Mode, r: Request, op: Operation)
    requires r.expected == RevisionOf(a)
    ensures Processed(a, mode, r, op).1.Busy?
            <==> (mode == Running && WaitsForTurn(r.command)) || (mode == Stopping && !OnlyReads(r.command))
  {
    match r.command
    case SessionControl(action) =>
      match action {
        case Read =>
        case Freeze =>
        case FreezeSettled =>
        case Resume =>
        case ResumeSettled =>
      }
    case PrepareSessionFork(policy) => assert policy == Exact || policy == Compact;
    case ThreadGoalSet(_, _, _) =>
    case _ =>
  }

  /**
   A current command of an idle actor leaves the data its work left, whether it succeeds or not,
   and advances the revision by one exactly when it succeeds and changed something: reads and
   forks never, some commands when they say so, all others always.
   */
  lemma IdleWorkAdvancesIff(a: Actor, c: Command, op: Operation)
    requires a.runtime.Some? && a.shared == RevisionOf(a)
    ensures var (after, reply) := Processed(a, Idle, Request(RevisionOf(a), c), op);
            var works := !OnlyReads(c) && !c.PrepareSessionFork?;
            && after.runtime.Some? && after.shared == RevisionOf(after)
            && DataOf(after) == (if works then op.after else DataOf(a))
            && RevisionOf(after)
               == (if works && op.Succeeded? && (op.reportedChange || !ReportsChange(c)) then
                     SaturatingSuccessor(RevisionOf(a))
                   else RevisionOf(a))
            && reply == if op.Succeeded? then Done else OperationFailed
  {
  }

  // ---------------------------------------------------------------- whole runs

  /** A request with what its sender could know: advances so far, and the data of that moment. */
  datatype Sent = Sent(request: Request, advances: nat, data: string)

  /** A client mutation that advanced the revision. */
  datatype Commit = Commit(sent: Sent, advances: nat, revision: nat, data: string, next: nat)

  /**
   The actor among its clients: `loaded` requests have read the shared revision but are not
   queued yet; `advances` counts all advances since the run began at revision `base`.
   */
  datatype World = World(
    actor: Actor, base: nat, advances: nat, loaded: seq<Sent>, queue: seq<Sent>, commits: seq<Commit>)

  datatype Step =
    | Load(command: Command)
    | Enqueue(index: nat)
    | Process(mode: Mode, op: Operation)
    | Internal(after: string, advance: bool)

  function Next(w: World, step: Step): World {
    match step
    case Load(command) =>
      w.(loaded := w.loaded + [Sent(Request(w.actor.shared, command), w.advances, DataOf(w.actor))])
    case Enqueue(i) =>
      if i >= |w.loaded| then w
      else w.(queue := w.queue + [w.loaded[i]], loaded := w.loaded[..i] + w.loaded[i + 1..])
    case Process(mode, op) =>
      if w.queue == [] then w else Carried(w.(queue := w.queue[1..]), w.queue[0], mode, op)
    case Internal(after, advance) =>
      var worked := Put(w.actor, after);
      if advance && worked.runtime.Some? then w.(actor := Advance(worked), advances := w.advances + 1)
      else w.(actor := worked)
  }

  /** A request advances the revision if it is a changing mutation that got through. */
  predicate Advances(a: Actor, mode: Mode, r: Request, op: Operation) {
    && IsMutation(r.command) && !r.command.PrepareSessionFork?
    && Processed(a, mode, r, op).1 == Done && Changes(r.command, op)
  }

  function Carried(w: World, s: Sent, mode: Mode, op: Operation): World {
    var actor := Processed(w.actor, mode, s.request, op).0;
    if Advances(w.actor, mode, s.request, op) then
      w.(actor := actor, advances := w.advances + 1,
         commits := w.commits + [Commit(s, w.advances, RevisionOf(w.actor), DataOf(w.actor), actor.shared)])
    else w.(actor := actor)
  }

  function Run(w: World, steps: seq<Step>): World {
    if steps == [] then w else Next(Run(w, steps[..|steps| - 1]), steps[|steps| - 1])
  }

  predicate Start(w: World) {
    && w.base == RevisionOf(w.actor) == w.actor.shared && w.base <= MAX
    && w.advances == 0 && w.loaded == [] && w.queue == [] && w.commits == []
  }

  /** The revision after a number of advances. */
  function At(base: nat, advances: nat): nat {
    if base + advances < MAX then base + advances else MAX
  }

  predicate SentEarlier(w: World, s: Sent) {
    s.advances <= w.advances && s.request.expected == At(w.base, s.advances)
  }

  predicate Invariant(w: World) {
    && w.base <= MAX
    && w.actor.shared == RevisionOf(w.actor) == At(w.base, w.advances)
    && (forall i :: 0 <= i < |w.loaded| ==> SentEarlier(w, w.loaded[i]))
    && (forall i :: 0 <= i < |w.queue| ==> SentEarlier(w, w.queue[i]))
  }

  /** Every commit carried the revision of its moment and moved it one on; no two share a moment. */
  predicate CommitsInOrder(w: World) {
    && (forall i :: 0 <= i < |w.commits| ==> CommitSound(w, w.commits[i]))
    && (forall i, j :: 0 <= i < j < |w.commits| ==> w.commits[i].advances < w.commits[j].advances)
  }

  predicate CommitSound(w: World, c: Commit) {
    && c.sent.advances <= c.advances < w.advances
    && c.sent.request.expected == At(w.base, c.sent.advances)
    && c.sent.request.expected == c.revision == At(w.base, c.advances)
    && c.next == At(w.base, c.advances + 1)
  }

  lemma ProcessedKeepsShared(a: Actor, mode: Mode, r: Request, op: Operation)
    requires a.shared == RevisionOf(a) <= MAX
    ensures var after := Processed(a, mode, r, op).0;
            && after.shared == RevisionOf(after)
            && RevisionOf(after)
               == if Advances(a, mode, r, op) then SaturatingSuccessor(RevisionOf(a)) else RevisionOf(a)
    ensures Advances(a, mode, r, op) ==> r.expected == RevisionOf(a) && a.runtime.Some?
  {
  }

  lemma NextKeepsInvariant(w: World, step: Step)
    requires Invariant(w) && CommitsInOrder(w)
    ensures Invariant(Next(w, step)) && CommitsInOrder(Next(w, step))
  {
    if step.Process? && w.queue != [] {
      CarriedKeepsInvariant(w.(queue := w.queue[1..]), w.queue[0], step.mode, step.op);
    } else {
      OthersKeepInvariant(w, step);
    }
  }

  lemma OthersKeepInvariant(w: World, step: Step)
    requires Invariant(w) && CommitsInOrder(w) && (step.Process? ==> w.queue == [])
    ensures Invariant(Next(w, step)) && CommitsInOrder(Next(w, step))
  {
    var next := Next(w, step);
    assert next.commits == w.commits && next.base == w.base && w.advances <= next.advances;
    assert forall i :: 0 <= i < |next.commits| ==> CommitSound(w, w.commits[i]) && CommitSound(next, w.commits[i]);
  }

  lemma CarriedKeepsInvariant(w: World, s: Sent, mode: Mode, op: Operation)
    requires Invariant(w) && CommitsInOrder(w) && SentEarlier(w, s)
    ensures Invariant(Carried(w, s, mode, op)) && CommitsInOrder(Carried(w, s, mode, op))
  {
    ProcessedKeepsShared(w.actor, mode, s.request, op);
    var next := Carried(w, s, mode, op);
    assert forall i :: 0 <= i < |w.commits| ==> CommitSound(w, w.commits[i]) && next.commits[i] == w.commits[i];
  }

  lemma {:induction false} RunKeepsInvariant(w: World, steps: seq<Step>)
    requires Start(w)
    ensures Invariant(Run(w, steps)) && CommitsInOrder(Run(w, steps)) && Run(w, steps).base == w.base
  {
    if steps != [] {
      RunKeepsInvariant(w, steps[..|steps| - 1]);
      NextKeepsInvariant(Run(w, steps[..|steps| - 1]), steps[|steps| - 1]);
      NextKeepsBase(Run(w, steps[..|steps| - 1]), steps[|steps| - 1]);
    }
  }

  lemma NextKeepsBase(w: World, step: Step)
    ensures Next(w, step).base == w.base
  {
  }

  /**
   Over any interleaving of senders, the worker and its own work: clients see the actor's
   revision; a changing client mutation carried exactly the revision before it and moved it
   one on; below the top of the range nothing advanced between its sender's look and its
   commit, and no two such mutations carried the same revision.
   */
  lemma NoLostUpdate(w: World, steps: seq<Step>, i: nat)
    requires Start(w) && i < |Run(w, steps).commits|
    ensures var end := Run(w, steps);
            && end.actor.shared == RevisionOf(end.actor)
            && var c := end.commits[i];
            && c.sent.request.expected == c.revision && c.next == SaturatingSuccessor(c.revision)
            && (c.revision < MAX ==> c.sent.advances == c.advances)
            && (c.revision < MAX ==> forall j :: 0 <= j < |end.commits| && j != i ==>
                  end.commits[j].sent.request.expected != c.sent.request.expected)
  {
    RunKeepsInvariant(w, steps);
    var end := Run(w, steps);
    var c := end.commits[i];
    assert CommitSound(end, c);
    forall j | 0 <= j < |end.commits| && j != i && c.revision < MAX
      ensures end.commits[j].sent.request.expected != c.sent.request.expected
    {
      assert CommitSound(end, end.commits[j]);
      assert end.commits[j].advances != c.advances;
    }
  }

  /** A waiting mutation is current exactly when nothing advanced, or the range is exhausted. */
  lemma CurrentIff(w: World, steps: seq<Step>, i: nat)
    requires Start(w) && i < |Run(w, steps).queue|
    ensures var end := Run(w, steps);
            var s := end.queue[i];
            s.request.expected == RevisionOf(end.actor)
            <==> s.advances == end.advances || end.base + s.advances >= MAX
  {
    RunKeepsInvariant(w, steps);
    assert SentEarlier(Run(w, steps), Run(w, steps).queue[i]);
  }

  // ---------------------------------------------------------------- what a sender saw

  /** Work that changes the actor's data also advances its revision. */
  predicate Announced(w: World, step: Step) {
    match step
    case Load(_) => true
    case Enqueue(_) => true
    case Process(mode, op) =>
      w.queue != [] ==>
        DataOf(Processed(w.actor, mode, w.queue[0].request, op).0) == DataOf(w.actor)
        || Advances(w.actor, mode, w.queue[0].request, op)
    case Internal(after, advance) => after == DataOf(w.actor) || advance
  }

  predicate AnnouncedRun(w: World, steps: seq<Step>) {
    steps == []
    || (AnnouncedRun(w, steps[..|steps| - 1]) && Announced(Run(w, steps[..|steps| - 1]), steps[|steps| - 1]))
  }

  predicate Fresh(w: World, s: Sent) {
    s.advances == w.advances ==> s.data == DataOf(w.actor)
  }

  predicate SawCurrentData(w: World) {
    && (forall i :: 0 <= i < |w.loaded| ==> Fresh(w, w.loaded[i]))
    && (forall i :: 0 <= i < |w.queue| ==> Fresh(w, w.queue[i]))
    && (forall i :: 0 <= i < |w.commits| ==>
          w.commits[i].sent.advances == w.commits[i].advances ==> w.commits[i].sent.data == w.commits[i].data)
  }

  lemma NextKeepsSawCurrentData(w: World, step: Step)
    requires Invariant(w) && SawCurrentData(w) && Announced(w, step)
    ensures SawCurrentData(Next(w, step))
  {
    if step.Process? && w.queue != [] {
      CarriedKeepsSawCurrentData(w, step.mode, step.op);
    } else {
      var next := Next(w, step);
      assert forall i :: 0 <= i < |w.loaded| ==> SentEarlier(w, w.loaded[i]) && Fresh(w, w.loaded[i]);
      assert forall i :: 0 <= i < |w.queue| ==> SentEarlier(w, w.queue[i]) && Fresh(w, w.queue[i]);
      assert next.advances == w.advances ==> DataOf(next.actor) == DataOf(w.actor);
    }
  }

  lemma CarriedKeepsSawCurrentData(w: World, mode: Mode, op: Operation)
    requires Invariant(w) && SawCurrentData(w) && Announced(w, Process(mode, op)) && w.queue != []
    ensures SawCurrentData(Next(w, Process(mode, op)))
  {
    var next := Next(w, Process(mode, op));
    assert forall i :: 0 <= i < |w.loaded| ==> SentEarlier(w, w.loaded[i]) && Fresh(w, w.loaded[i]);
    assert forall i :: 0 <= i < |w.queue| ==> SentEarlier(w, w.queue[i]) && Fresh(w, w.queue[i]);
    assert next.advances == w.advances ==> DataOf(next.actor) == DataOf(w.actor);
    assert forall i :: 0 <= i < |next.queue| ==> next.queue[i] == w.queue[i + 1];
  }

  lemma {:induction false} RunKeepsSawCurrentData(w: World, steps: seq<Step>)
    requires Start(w) && AnnouncedRun(w, steps)
    ensures SawCurrentData(Run(w, steps))
  {
    if steps != [] {
      var before := steps[..|steps| - 1];
      RunKeepsSawCurrentData(w, before);
      RunKeepsInvariant(w, before);
      NextKeepsSawCurrentData(Run(w, before), steps[|steps| - 1]);
    }
  }

  /** When every change of data is announced, a commit acts on the very data its sender saw. */
  lemma CommitSawItsData(w: World, steps: seq<Step>, i: nat)
    requires Start(w) && AnnouncedRun(w, steps) && i < |Run(w, steps).commits|
    ensures var c := Run(w, steps).commits[i];
            c.revision < MAX ==> c.sent.data == c.data
  {
    NoLostUpdate(w, steps, i);
    RunKeepsSawCurrentData(w, steps);
  }

  /**
   Which work fails to announce its change: that of a current mutation the mode lets through,
   when it failed or reported no change.
   */
  lemma UnannouncedIff(w: World, mode: Mode, op: Operation)
    requires w.queue != []
    ensures var r := w.queue[0].request;
            !Announced(w, Process(mode, op)) <==>
              && op.after != DataOf(w.actor) && w.actor.runtime.Some?
              && IsMutation(r.command) && !r.command.PrepareSessionFork? && r.expected == RevisionOf(w.actor)
              && (mode == Idle || (mode == Running && IsSafeWhileRunning(r.command)))
              && (op.Failed? || !Changes(r.command, op))
  {
    OnlyAcceptedMutationsChange(w.actor, mode, w.queue[0].request, op);
  }

  /** A failed command can change data without an advance, so a later commit acts on unseen data. */
  lemma FailureChangesSilently() returns (w: World, steps: seq<Step>)
    ensures Start(w) && |Run(w, steps).commits| == 1
    ensures var c := Run(w, steps).commits[0]; c.revision < MAX && c.sent.data != c.data
  {
    w := World(Actor(Some(State(0, "old")), 0), 0, 0, [], [], []);
    var both := [Load(SetExecution), Load(UpdateThread), Enqueue(0), Enqueue(0)];
    steps := both + [Process(Idle, Failed("new")), Process(Idle, Succeeded(true, "newer"))];
    Unroll4(w, both);
    QueueTwo(w, SetExecution, UpdateThread);
    var failed := Next(Run(w, both), Process(Idle, Failed("new")));
    assert failed.actor == Actor(Some(State(0, "new")), 0);
    assert failed.queue == [Sent(Request(0, UpdateThread), 0, "old")];
    Unroll2(w, both, steps);
    assert "old"[0] != "new"[0];
  }

  lemma Unroll4(w: World, steps: seq<Step>)
    requires |steps| == 4
    ensures Run(w, steps) == Next(Next(Next(Next(w, steps[0]), steps[1]), steps[2]), steps[3])
  {
    assert steps[..3][..2] == steps[..2] && steps[..2][..1] == steps[..1] && steps[..1][..0] == [];
    assert Run(w, steps[..1]) == Next(w, steps[0]);
    assert Run(w, steps[..2]) == Next(Run(w, steps[..1]), steps[1]);
    assert Run(w, steps[..3]) == Next(Run(w, steps[..2]), steps[2]);
  }

  lemma Unroll2(w: World, before: seq<Step>, steps: seq<Step>)
    requires |steps| == |before| + 2 && before <= steps
    ensures Run(w, steps) == Next(Next(Run(w, before), steps[|before|]), steps[|before| + 1])
  {
    var n := |before|;
    assert steps[..n + 1][..n] == before;
    assert Run(w, steps[..n + 1]) == Next(Run(w, before), steps[n]);
  }

  /** At the top of the range two changing mutations can carry the same revision. */
  lemma TokensRepeatAtTheTop() returns (w: World, steps: seq<Step>)
    ensures Start(w) && |Run(w, steps).commits| == 2
    ensures Run(w, steps).commits[0].sent.request.expected == Run(w, steps).commits[1].sent.request.expected
  {
    w := World(Actor(Some(State(MAX, "")), MAX), MAX, 0, [], [], []);
    var both := [Load(UpdateThread), Load(UpdateThread), Enqueue(0), Enqueue(0)];
    var change := Process(Idle, Succeeded(true, ""));
    steps := both + [change, change];
    var sent := Sent(Request(MAX, UpdateThread), 0, "");
    Unroll4(w, both);
    QueueTwo(w, UpdateThread, UpdateThread);
    CommitAtTheTop(Run(w, both), sent);
    CommitAtTheTop(Next(Run(w, both), change), sent);
    Unroll2(w, both, steps);
  }

  lemma QueueTwo(w: World, a: Command, b: Command)
    requires Start(w)
    ensures var data := DataOf(w.actor);
            Next(Next(Next(Next(w, Load(a)), Load(b)), Enqueue(0)), Enqueue(0))
            == w.(queue := [Sent(Request(w.base, a), 0, data), Sent(Request(w.base, b), 0, data)])
  {
    var s, t := Sent(Request(w.base, a), 0, DataOf(w.actor)), Sent(Request(w.base, b), 0, DataOf(w.actor));
    var loaded := Next(Next(w, Load(a)), Load(b));
    assert loaded == w.(loaded := [s, t]);
    assert Next(loaded, Enqueue(0)) == w.(loaded := [t], queue := [s]);
  }

  lemma CommitAtTheTop(w: World, sent: Sent)
    requires w.actor == Actor(Some(State(MAX, "")), MAX) && w.queue != [] && w.queue[0] == sent
    requires sent.request == Request(MAX, UpdateThread)
    ensures var next := Next(w, Process(Idle, Succeeded(true, "")));
            && next.actor == w.actor && next.queue == w.queue[1..]
            && next.commits == w.commits + [Commit(sent, w.advances, MAX, "", MAX)]
  {
  }

  // ---------------------------------------------------------------- action identities

  datatype Identity = Identity(id: nat, sequence: nat)

  class ActionSequencer {
    var nextId: nat
    var nextSequence: nat

    constructor ()
      ensures nextId == 1 && nextSequence == 1
    {
      nextId, nextSequence := 1, 1;
    }

    /** Admission and stand-alone receipts draw from the same counters. */
    method Issue() returns (identity: Identity)
      modifies this
      ensures identity == Identity(old(nextId), old(nextSequence))
      ensures nextId == SaturatingSuccessor(old(nextId)) && nextSequence == SaturatingSuccessor(old(nextSequence))
    {
      identity := Identity(nextId, nextSequence);
      nextId := SaturatingSuccessor(nextId);
      nextSequence := SaturatingSuccessor(nextSequence);
    }
  }

  /** The counters after a number of actions. */
  function Counters(actions: nat): Identity {
    if actions == 0 then Identity(1, 1)
    else Identity(SaturatingSuccessor(Counters(actions - 1).id), SaturatingSuccessor(Counters(actions - 1).sequence))
  }

  lemma {:induction false} CountersAt(actions: nat)
    ensures Counters(actions) == Identity(At(1, actions), At(1, actions))
  {
    if actions > 0 {
      CountersAt(actions - 1);
    }
  }

  /** Two actions share an identity exactly when both come after the counters saturate. */
  lemma IdentitiesDistinctIff(i: nat, j: nat)
    requires i < j
    ensures Counters(i) == Counters(j) <==> i >= MAX - 1
    ensures Counters(i).id <= Counters(j).id
    ensures Counters(i) != Counters(j) ==> Counters(i).sequence < Counters(j).sequence
  {
    CountersAt(i);
    CountersAt(j);
  }
}
