/**
 Refreshing a thread's world: the new world is injected into the thread's history, the
 history is recorded in the session store, and only then the world is replaced.
 */
module WorldRefresh {
  import opened Wrappers

  /** A Host context source in the model's history, or any other message. */
  datatype Message =
    | Injection(id: string, fingerprint: string, supersedes: Option<string>, body: string)
    | Other(text: string)

  datatype Draft = Draft(id: string, fingerprint: string, supersedes: Option<string>, body: string)

  datatype WorldState = WorldState(context: string, fingerprint: string, details: string)

  const SLOT := "world_state"

  /** Which parts fail: rendering the context, its size limit, the session record, the restore's limits. */
  datatype Faults = Faults(render: bool, size: bool, record: bool, limits: bool)

  datatype Failure = Busy | NotRendered | TooLarge | NotRecorded | NotRolledBack

  /**
   The thread's history, the injections not yet reported to a turn, what the session store
   holds (`None` without a store), and the world the actor believes in.
   */
  datatype Runtime = Runtime(
    session: seq<Message>, pending: seq<Draft>, running: bool, stored: Option<seq<Message>>, world: WorldState)

  /** The fingerprint the model was last told for a source. */
  function Latest(session: seq<Message>, id: string): Option<string> {
    if session == [] then None
    else
      var last := session[|session| - 1];
      if last.Injection? && last.id == id then Some(last.fingerprint) else Latest(session[..|session| - 1], id)
  }

  /** The active sources, oldest first: a repeated source moves to the end. */
  function Inventory(session: seq<Message>): seq<Message> {
    if session == [] then []
    else
      var active, last := Inventory(session[..|session| - 1]), session[|session| - 1];
      if last.Injection? then WithoutSource(active, last.id) + [last] else active
  }

  function WithoutSource(active: seq<Message>, id: string): seq<Message> {
    if active == [] then []
    else if active[0].Injection? && active[0].id == id then WithoutSource(active[1..], id)
    else [active[0]] + WithoutSource(active[1..], id)
  }

  function Lookup(active: seq<Message>, id: string): Option<string> {
    if active == [] then None
    else if active[0].Injection? && active[0].id == id then Some(active[0].fingerprint)
    else Lookup(active[1..], id)
  }

  /** The draft as it would be appended, unless the model already has this fingerprint. */
  function Accepted(session: seq<Message>, d: Draft): Option<Draft> {
    var previous := Latest(session, d.id);
    if previous == Some(d.fingerprint) then None
    else Some(if previous.Some? then d.(supersedes := previous) else d)
  }

  function AsMessage(d: Draft): Message {
    Injection(d.id, d.fingerprint, d.supersedes, d.body)
  }

  function Append(session: seq<Message>, d: Draft): seq<Message> {
    var accepted := Accepted(session, d);
    if accepted.Some? then session + [AsMessage(accepted.value)] else session
  }

  /** A history with drafts appended again, each unless it is already current. */
  function Replay(session: seq<Message>, drafts: seq<Draft>): seq<Message> {
    if drafts == [] then session else Append(Replay(session, drafts[..|drafts| - 1]), drafts[|drafts| - 1])
  }

  /** The drafts that such a replay did append. */
  function Replayed(session: seq<Message>, drafts: seq<Draft>): seq<Draft> {
    if drafts == [] then []
    else
      var before := Replayed(session, drafts[..|drafts| - 1]);
      var accepted := Accepted(Replay(session, drafts[..|drafts| - 1]), drafts[|drafts| - 1]);
      if accepted.Some? then before + [accepted.value] else before
  }

  /** Restoring an earlier history appends the unreported injections to it again. */
  function Restored(r: Runtime, previous: seq<Message>, limits: bool): (Runtime, bool) {
    if limits then (r, false)
    else (r.(session := Replay(previous, r.pending), pending := Replayed(previous, r.pending)), true)
  }

  /** Recording writes the whole history; a failed record restores the one before the append. */
  function Recorded(r: Runtime, previous: seq<Message>, f: Faults): (Runtime, Result<bool, Failure>) {
    if r.stored.None? then (r, Ok(true))
    else if !f.record then (r.(stored := Some(r.session)), Ok(true))
    else
      var (restored, ok) := Restored(r, previous, f.limits);
      (restored, Err(if ok then NotRecorded else NotRolledBack))
  }

  function AppendInjection(r: Runtime, d: Draft, f: Faults): (Runtime, Result<bool, Failure>) {
    if r.running then (r, Err(Busy))
    else if f.size then (r, Err(TooLarge))
    else
      var accepted := Accepted(r.session, d);
      if accepted.None? then (r, Ok(false))
      else
        Recorded(r.(session := r.session + [AsMessage(accepted.value)], pending := r.pending + [accepted.value]),
                 r.session, f)
  }

  function WorldDraft(w: WorldState): Draft {
    Draft(SLOT, w.fingerprint, None, w.context)
  }

  function Update(r: Runtime, updated: WorldState, f: Faults): (Runtime, Result<bool, Failure>) {
    if updated == r.world then (r, Ok(false))
    else if f.render then (r, Err(NotRendered))
    else
      var (appended, result) := AppendInjection(r, WorldDraft(updated), f);
      if result.Err? then (appended, Err(result.error)) else (appended.(world := updated), Ok(true))
  }

  /** Client context: appended as it is, and never kept for replay. */
  function AppendContext(r: Runtime, m: Message, f: Faults): (Runtime, Result<bool, Failure>) {
    if r.running then (r, Err(Busy))
    else if f.size then (r, Err(TooLarge))
    else Recorded(r.(session := r.session + [m]), r.session, f)
  }

  class ThreadRuntime {
    var session: seq<Message>
    var pending: seq<Draft>
    var running: bool
    var stored: Option<seq<Message>>
    var world: WorldState

    constructor (session: seq<Message>, persistent: bool, world: WorldState)
      ensures Value() == Runtime(session, [], false, if persistent then Some(session) else None, world)
    {
      this.session, pending, running, this.world := session, [], false, world;
      stored := if persistent then Some(session) else None;
    }

    function Value(): Runtime
      reads this
    {
      Runtime(session, pending, running, stored, world)
    }

    method RestoreSession(previous: seq<Message>, limits: bool) returns (ok: bool)
      modifies this`session, this`pending
      ensures (Value(), ok) == Restored(old(Value()), previous, limits)
    {
      var restored, kept := previous, [];
      var i := 0;
      while i < |pending|
        invariant i <= |pending|
        invariant restored == Replay(previous, pending[..i]) && kept == Replayed(previous, pending[..i])
      {
        assert pending[..i + 1][..i] == pending[..i];
        var accepted := Accepted(restored, pending[i]);
        if accepted.Some? {
          restored := restored + [AsMessage(accepted.value)];
          kept := kept + [accepted.value];
        }
        i := i + 1;
      }
      assert pending[..i] == pending;
      if limits {
        return false;
      }
      session, pending := restored, kept;
      ok := true;
    }

    method RecordContext(previous: seq<Message>, f: Faults) returns (r: Result<bool, Failure>)
      modifies this`session, this`pending, this`stored
      ensures (Value(), r) == Recorded(old(Value()), previous, f)
    {
      if stored.None? {
        return Ok(true);
      }
      if !f.record {
        stored := Some(session);
        return Ok(true);
      }
      var ok := RestoreSession(previous, f.limits);
      r := Err(if ok then NotRecorded else NotRolledBack);
    }

    method AppendContextInjectionAndPersist(d: Draft, f: Faults) returns (r: Result<bool, Failure>)
      modifies this`session, this`pending, this`stored
      ensures (Value(), r) == AppendInjection(old(Value()), d, f)
    {
      if running {
        return Err(Busy);
      }
      if f.size {
        return Err(TooLarge);
      }
      var previous := session;
      var accepted := Accepted(session, d);
      if accepted.None? {
        return Ok(false);
      }
      session := session + [AsMessage(accepted.value)];
      pending := pending + [accepted.value];
      r := RecordContext(previous, f);
    }

    method UpdateWorld(updated: WorldState, f: Faults) returns (r: Result<bool, Failure>)
      modifies this`session, this`pending, this`stored, this`world
      ensures (Value(), r) == Update(old(Value()), updated, f)
    {
      if updated == world {
        return Ok(false);
      }
      if f.render {
        return Err(NotRendered);
      }
      r := AppendContextInjectionAndPersist(WorldDraft(updated), f);
      if r.Err? {
        return;
      }
      world := updated;
      r := Ok(true);
    }

    method AppendContextAndPersist(m: Message, f: Faults) returns (r: Result<bool, Failure>)
      modifies this`session, this`pending, this`stored
      ensures (Value(), r) == AppendContext(old(Value()), m, f)
    {
      if running {
        return Err(Busy);
      }
      if f.size {
        return Err(TooLarge);
      }
      var previous := session;
      session := session + [m];
      r := RecordContext(previous, f);
    }
  }

  // ------------------------------------------------------------ sources

  lemma {:induction false} LookupWithout(active: seq<Message>, id: string, other: string, last: Message)
    ensures Lookup(WithoutSource(active, id) + [last], other)
            == if other != id && Lookup(active, other).Some? then Lookup(active, other)
               else if last.Injection? && last.id == other then Some(last.fingerprint) else None
  {
    if active != [] {
      LookupWithout(active[1..], id, other, last);
      var rest := WithoutSource(active[1..], id);
      if active[0].Injection? && active[0].id == id {
        assert WithoutSource(active, id) == rest;
      } else {
        assert (WithoutSource(active, id) + [last])[1..] == rest + [last];
      }
    }
  }

  /** The source inventory answers with the newest message of each source. */
  lemma {:induction false} InventoryIsLatest(session: seq<Message>, id: string)
    ensures Lookup(Inventory(session), id) == Latest(session, id)
  {
    if session != [] {
      var last := session[|session| - 1];
      InventoryIsLatest(session[..|session| - 1], id);
      if last.Injection? {
        LookupWithout(Inventory(session[..|session| - 1]), last.id, id, last);
      }
    }
  }

  /** After a draft is appended, or found current, the model has its fingerprint. */
  lemma AppendedIsLatest(session: seq<Message>, d: Draft)
    ensures Latest(Append(session, d), d.id) == Some(d.fingerprint)
    ensures session <= Append(session, d)
  {
  }

  lemma {:induction false} ReplayExtends(session: seq<Message>, drafts: seq<Draft>)
    ensures session <= Replay(session, drafts)
  {
    if drafts != [] {
      ReplayExtends(session, drafts[..|drafts| - 1]);
    }
  }

  /** A replay leaves a history as it is exactly when the model already has every draft. */
  lemma {:induction false} ReplayKeepsIff(session: seq<Message>, drafts: seq<Draft>)
    ensures Replay(session, drafts) == session
            <==> forall i :: 0 <= i < |drafts| ==> Latest(session, drafts[i].id) == Some(drafts[i].fingerprint)
  {
    if drafts != [] {
      var before, d := drafts[..|drafts| - 1], drafts[|drafts| - 1];
      ReplayKeepsIff(session, before);
      ReplayExtends(session, before);
      AppendedIsLatest(Replay(session, before), d);
      assert forall i :: 0 <= i < |before| ==> drafts[i] == before[i];
    }
  }

  // ------------------------------------------------------------ one refresh

  /** A refresh that succeeds carries the history, the stored history and the world on together. */
  lemma SuccessAdvancesTogether(r: Runtime, updated: WorldState, f: Faults)
    requires r.stored.Some? && Update(r, updated, f).1.Ok?
    ensures var (after, result) := Update(r, updated, f);
            && after.world == updated
            && (result.value <==> updated != r.world)
            && (updated != r.world && Latest(r.session, SLOT) != Some(updated.fingerprint) ==>
                  && after.stored == Some(after.session)
                  && |after.session| == |r.session| + 1 && r.session < after.session
                  && Latest(after.session, SLOT) == Some(updated.fingerprint)
                  && after.session[|r.session|].body == updated.context
                  && after.session[|r.session|].supersedes == Latest(r.session, SLOT))
            && (updated == r.world || Latest(r.session, SLOT) == Some(updated.fingerprint) ==>
                  after.session == r.session && after.stored == r.stored)
  {
  }

  /** Whether a refresh fails, and that the stored history and the world never move when it does. */
  lemma RefreshFailsIff(r: Runtime, updated: WorldState, f: Faults)
    ensures var (after, result) := Update(r, updated, f);
            && (result.Err? <==>
                  && updated != r.world
                  && (f.render || r.running || f.size
                      || (f.record && r.stored.Some? && Latest(r.session, SLOT) != Some(updated.fingerprint))))
            && (result.Err? ==> after.stored == r.stored && after.world == r.world)
  {
  }

  /** Why a refresh fails: the first of these that applies, in this order. */
  lemma RefreshSaysWhy(r: Runtime, updated: WorldState, f: Faults)
    requires Update(r, updated, f).1.Err?
    ensures var why := Update(r, updated, f).1.error;
            && (why == NotRendered <==> f.render)
            && (why == Busy <==> !f.render && r.running)
            && (why == TooLarge <==> !f.render && !r.running && f.size)
            && (why == NotRecorded <==> !f.render && !r.running && !f.size && !f.limits)
            && (why == NotRolledBack <==> !f.render && !r.running && !f.size && f.limits)
  {
    RefreshFailsIff(r, updated, f);
  }

  /** The refresh got as far as appending the new world to the history. */
  predicate Appends(r: Runtime, updated: WorldState, f: Faults) {
    && updated != r.world && !f.render && !r.running && !f.size
    && Latest(r.session, SLOT) != Some(updated.fingerprint)
  }

  /**
   A failed refresh leaves the history alone exactly when it failed before appending: once the
   record fails, the rollback puts the new world back, so the model keeps being told it.
   */
  lemma FailedRefreshKeepsHistoryIff(r: Runtime, updated: WorldState, f: Faults)
    requires Update(r, updated, f).1.Err?
    ensures var after := Update(r, updated, f).0;
            && (after.session == r.session <==> !Appends(r, updated, f))
            && r.session <= after.session
            && (Appends(r, updated, f) ==> Latest(after.session, SLOT) == Some(updated.fingerprint))
  {
    if Appends(r, updated, f) {
      RollbackKeepsDraft(r, WorldDraft(updated));
    }
  }

  /** A runtime and a failing record after which the history has grown by the rejected world. */
  lemma FailedRefreshLeavesItsWorld()
    ensures var oldWorld, newWorld := WorldState("a", "1", ""), WorldState("b", "2", "");
            var r := Runtime([Other("hi")], [], false, Some([Other("hi")]), oldWorld);
            var after := Update(r, newWorld, Faults(false, false, true, false)).0;
            && Update(r, newWorld, Faults(false, false, true, false)).1 == Err(NotRecorded)
            && after.session == [Other("hi"), Injection(SLOT, "2", None, "b")]
            && after.stored == r.stored && after.world == oldWorld
  {
    var d := Draft(SLOT, "2", None, "b");
    assert Latest([Other("hi")], SLOT) == None by {
      assert [Other("hi")][..0] == [];
    }
    assert [d][..0] == [];
    assert Replay([Other("hi")], [d]) == Append([Other("hi")], d);
  }

  lemma RollbackKeepsDraft(r: Runtime, d: Draft)
    requires Latest(r.session, d.id) != Some(d.fingerprint)
    ensures var drafts := r.pending + [Accepted(r.session, d).value];
            && r.session <= Replay(r.session, drafts) && r.session != Replay(r.session, drafts)
            && Latest(Replay(r.session, drafts), d.id) == Some(d.fingerprint)
    ensures Latest(r.session + [AsMessage(Accepted(r.session, d).value)], d.id) == Some(d.fingerprint)
  {
    var drafts := r.pending + [Accepted(r.session, d).value];
    assert drafts[..|r.pending|] == r.pending;
    ReplayExtends(r.session, drafts);
    AppendedIsLatest(Replay(r.session, r.pending), drafts[|r.pending|]);
    AppendedIsLatest(r.session, d);
  }

  /**
   After such a failure a retry succeeds without recording anything, and going back to the
   old world is taken for no change: the model is left with the world that failed.
   */
  lemma RetryIsNotRecorded(r: Runtime, updated: WorldState, f: Faults, g: Faults)
    requires Appends(r, updated, f) && Update(r, updated, f).1.Err? && !g.render && !g.size
    ensures var failed := Update(r, updated, f).0;
            && Update(failed, updated, g) == (failed.(world := updated), Ok(true))
            && failed.stored == r.stored
            && Update(failed, r.world, g) == (failed, Ok(false))
            && Latest(failed.session, SLOT) == Some(updated.fingerprint)
  {
    FailedRefreshKeepsHistoryIff(r, updated, f);
  }

  // ------------------------------------------------------------ client context

  /** A failed client append is undone exactly when the model already has every unreported source. */
  lemma FailedAppendIsUndoneIff(r: Runtime, m: Message, f: Faults)
    requires AppendContext(r, m, f).1 == Err(NotRecorded)
    ensures AppendContext(r, m, f).0.session == r.session
            <==> forall i :: 0 <= i < |r.pending| ==>
                   Latest(r.session, r.pending[i].id) == Some(r.pending[i].fingerprint)
    ensures AppendContext(r, m, f).0.stored == r.stored && r.session <= AppendContext(r, m, f).0.session
  {
    ReplayKeepsIff(r.session, r.pending);
    ReplayExtends(r.session, r.pending);
  }

  // ------------------------------------------------------------ whole runs

  datatype Step =
    | Refresh(updated: WorldState, f: Faults)
    | Client(message: Message, f: Faults)
    | Turn(messages: seq<Message>, reported: bool, failed: bool)

  /**
   A turn reports the pending injections once it reaches the model, and records the history it
   leaves; when that record fails the thread keeps its history all the same.
   */
  function Next(r: Runtime, step: Step): Runtime {
    match step
    case Refresh(updated, f) => Update(r, updated, f).0
    case Client(m, f) => AppendContext(r, m, f).0
    case Turn(messages, reported, failed) =>
      var session := r.session + messages;
      r.(session := session, pending := if reported then [] else r.pending,
         stored := if r.stored.Some? && !failed then Some(session) else r.stored)
  }

  function Run(r: Runtime, steps: seq<Step>): Runtime {
    if steps == [] then r else Next(Run(r, steps[..|steps| - 1]), steps[|steps| - 1])
  }

  /** The step wrote the history to the store. */
  predicate Writes(r: Runtime, step: Step) {
    match step
    case Refresh(updated, f) => Appends(r, updated, f) && !f.record
    case Client(_, f) => !r.running && !f.size && !f.record
    case Turn(_, _, failed) => !failed
  }

  /** The step failed to record and left something in the history. */
  predicate Loses(r: Runtime, step: Step) {
    match step
    case Refresh(updated, f) => Appends(r, updated, f) && f.record
    case Client(_, f) =>
      && !r.running && !f.size && f.record
      && (f.limits || exists i :: 0 <= i < |r.pending|
                        && Latest(r.session, r.pending[i].id) != Some(r.pending[i].fingerprint))
    case Turn(messages, _, failed) => failed && messages != []
  }

  /** Whether the last step that wrote or lost something was one that wrote. */
  predicate SettledLast(r: Runtime, steps: seq<Step>) {
    steps == []
    || (var before, step := Run(r, steps[..|steps| - 1]), steps[|steps| - 1];
        Writes(before, step) || (!Loses(before, step) && SettledLast(r, steps[..|steps| - 1])))
  }

  lemma StepMovesHistory(r: Runtime, step: Step)
    requires r.stored.Some?
    ensures var after := Next(r, step);
            && after.stored.Some? && r.session <= after.session
            && (Writes(r, step) ==> after.stored == Some(after.session))
            && (!Writes(r, step) ==> after.stored == r.stored)
            && (!Writes(r, step) ==> (after.session == r.session <==> !Loses(r, step)))
  {
    match step
    case Refresh(updated, f) =>
      if Update(r, updated, f).1.Err? {
        FailedRefreshKeepsHistoryIff(r, updated, f);
      }
    case Client(m, f) =>
      if AppendContext(r, m, f).1 == Err(NotRecorded) {
        FailedAppendIsUndoneIff(r, m, f);
      }
    case Turn(_, _, _) =>
  }

  /**
   Over any run of refreshes, client appends and turns in which every record and rollback may
   fail, the stored history is the thread's history exactly when no record failed with a
   remainder after the last one that was written; otherwise it is shorter.
   */
  lemma {:induction false} StoredIsCurrentIff(r: Runtime, steps: seq<Step>)
    requires r.stored == Some(r.session)
    ensures var end := Run(r, steps);
            && end.stored.Some?
            && (end.stored.value == end.session <==> SettledLast(r, steps))
            && (end.stored.value != end.session ==> |end.stored.value| < |end.session|)
  {
    if steps != [] {
      StoredIsCurrentIff(r, steps[..|steps| - 1]);
      StepMovesHistory(Run(r, steps[..|steps| - 1]), steps[|steps| - 1]);
    }
  }
}
