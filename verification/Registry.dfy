/**
 The thread registry of one worker: threads by id, and the ordered list of ids that other
 components see.
 */
module Registry {
  import opened WorldRefresh
  import opened Wrappers

  datatype Status = Idle | Running | AwaitingInput | Failed | Closed

  /** A thread; `pending` are the injections its harness has not reported to a turn yet. */
  datatype Thread = Thread(
    id: string, session: seq<Message>, pending: seq<Draft>, status: Status,
    nextTurn: nat, lastTurn: Option<string>, nextSequence: nat)

  datatype Checkpoint = Checkpoint(
    id: string, session: seq<Message>, status: Status, nextTurn: nat, lastTurn: Option<string>, nextSequence: nat)

  datatype RegistryError =
    | ThreadAlreadyExists(id: string)
    | ThreadNotFound(id: string)
    | FactoryUnavailable
    | FactoryFailed
    | NotSettled
    | NotRestored

  /** What the factory yields for a new thread; `None` when it fails. */
  type Made = Option<Thread>

  datatype Threads = Threads(threads: map<string, Thread>, ids: seq<string>, hasFactory: bool)

  function AtLeastOne(n: nat): nat {
    if n == 0 then 1 else n
  }

  /** A thread given another identity starts its numbering afresh. */
  function WithId(t: Thread, id: string): Thread {
    if t.id == id then t else t.(id := id, nextTurn := 1, lastTurn := None, nextSequence := 1)
  }

  function Settled(t: Thread): Option<Checkpoint> {
    if t.status == Running then None
    else Some(Checkpoint(t.id, t.session, t.status, t.nextTurn, t.lastTurn, t.nextSequence))
  }

  /** A checkpoint put into a thread; its unreported injections are appended to the history. */
  function Restore(t: Thread, c: Checkpoint, limits: bool): Option<Thread> {
    if t.status == Running || limits then None
    else
      Some(Thread(c.id, Replay(c.session, t.pending), Replayed(c.session, t.pending), c.status,
                  AtLeastOne(c.nextTurn), c.lastTurn, AtLeastOne(c.nextSequence)))
  }

  function CreateThread(r: Threads, id: string, made: Made): Result<Thread, RegistryError> {
    if !r.hasFactory then Err(FactoryUnavailable)
    else if made.None? then Err(FactoryFailed)
    else Ok(WithId(made.value, id))
  }

  function Added(r: Threads, id: string, t: Thread): Threads {
    r.(threads := r.threads[t.id := t], ids := r.ids + [id])
  }

  function Create(r: Threads, id: string, made: Made): (Threads, Result<string, RegistryError>) {
    if id in r.threads then (r, Err(ThreadAlreadyExists(id)))
    else
      var created := CreateThread(r, id, made);
      if created.Err? then (r, Err(created.error)) else (Added(r, id, created.value), Ok(id))
  }

  function Fork(r: Threads, source: string, id: string, made: Made, limits: bool)
    : (Threads, Result<string, RegistryError>)
  {
    if id in r.threads then (r, Err(ThreadAlreadyExists(id)))
    else if source !in r.threads then (r, Err(ThreadNotFound(source)))
    else
      var checkpoint := Settled(r.threads[source]);
      if checkpoint.None? then (r, Err(NotSettled))
      else
        var created := CreateThread(r, id, made);
        if created.Err? then (r, Err(created.error))
        else
          var fork := Restore(created.value, checkpoint.value.(id := id), limits);
          if fork.None? then (r, Err(NotRestored)) else (Added(r, id, fork.value), Ok(id))
  }

  function Resume(r: Threads, id: string, checkpoint: Checkpoint, made: Made, limits: bool)
    : (Threads, Result<string, RegistryError>)
  {
    var c := checkpoint.(id := id);
    if id in r.threads then
      var restored := Restore(r.threads[id], c, limits);
      if restored.None? then (r, Err(NotRestored))
      else (r.(threads := r.threads[id := restored.value]), Ok(id))
    else
      var created := CreateThread(r, id, made);
      if created.Err? then (r, Err(created.error))
      else
        var restored := Restore(created.value, c, limits);
        if restored.None? then (r, Err(NotRestored)) else (Added(r, id, restored.value), Ok(id))
  }

  function ReplaceFirst(ids: seq<string>, from: string, to: string): seq<string> {
    if ids == [] then []
    else if ids[0] == from then [to] + ids[1..]
    else [ids[0]] + ReplaceFirst(ids[1..], from, to)
  }

  function Rename(r: Threads, from: string, to: string, nextTurn: nat): (Threads, Result<(), RegistryError>) {
    if to in r.threads then (r, Err(ThreadAlreadyExists(to)))
    else if from !in r.threads then (r, Err(ThreadNotFound(from)))
    else
      var renamed := WithId(r.threads[from], to).(nextTurn := AtLeastOne(nextTurn));
      (r.(threads := (r.threads - {from})[to := renamed], ids := ReplaceFirst(r.ids, from, to)), Ok(()))
  }

  class ThreadManager {
    var threads: map<string, Thread>
    var ids: seq<string>
    const hasFactory: bool

    /** The caller asserts that the ids are distinct before it builds the registry. */
    constructor (initial: seq<Thread>, hasFactory: bool)
      requires forall i, j :: 0 <= i < j < |initial| ==> initial[i].id != initial[j].id
      ensures Agrees(Value()) && this.hasFactory == hasFactory && |ids| == |initial|
      ensures forall i :: 0 <= i < |initial| ==> ids[i] == initial[i].id && threads[ids[i]] == initial[i]
    {
      this.hasFactory := hasFactory;
      threads, ids := map[], [];
      new;
      var i := 0;
      while i < |initial|
        invariant 0 <= i == |ids| <= |initial|
        invariant this.hasFactory == hasFactory
        invariant forall k :: 0 <= k < i ==>
                  ids[k] == initial[k].id && ids[k] in threads && threads[ids[k]] == initial[k]
        invariant forall id :: id in threads ==> id in ids
      {
        threads := threads[initial[i].id := initial[i]];
        ids := ids + [initial[i].id];
        i := i + 1;
      }
    }

    function Value(): Threads
      reads this
    {
      Threads(threads, ids, hasFactory)
    }

    method Insert(id: string, t: Thread)
      modifies this
      ensures Value() == Added(old(Value()), id, t)
    {
      threads := threads[t.id := t];
      ids := ids + [id];
    }

    method CreateNew(id: string, made: Made) returns (r: Result<string, RegistryError>)
      modifies this
      ensures (Value(), r) == Create(old(Value()), id, made)
    {
      if id in threads {
        return Err(ThreadAlreadyExists(id));
      }
      var created := CreateThread(Value(), id, made);
      if created.Err? {
        return Err(created.error);
      }
      Insert(id, created.value);
      r := Ok(id);
    }

    method ForkFrom(source: string, id: string, made: Made, limits: bool) returns (r: Result<string, RegistryError>)
      modifies this
      ensures (Value(), r) == Fork(old(Value()), source, id, made, limits)
    {
      if id in threads {
        return Err(ThreadAlreadyExists(id));
      }
      if source !in threads {
        return Err(ThreadNotFound(source));
      }
      var checkpoint := Settled(threads[source]);
      if checkpoint.None? {
        return Err(NotSettled);
      }
      var created := CreateThread(Value(), id, made);
      if created.Err? {
        return Err(created.error);
      }
      var fork := Restore(created.value, checkpoint.value.(id := id), limits);
      if fork.None? {
        return Err(NotRestored);
      }
      Insert(id, fork.value);
      r := Ok(id);
    }

    method ResumeFrom(id: string, checkpoint: Checkpoint, made: Made, limits: bool)
      returns (r: Result<string, RegistryError>)
      modifies this
      ensures (Value(), r) == Resume(old(Value()), id, checkpoint, made, limits)
    {
      var c := checkpoint.(id := id);
      if id in threads {
        var restored := Restore(threads[id], c, limits);
        if restored.None? {
          return Err(NotRestored);
        }
        threads := threads[id := restored.value];
        return Ok(id);
      }
      var created := CreateThread(Value(), id, made);
      if created.Err? {
        return Err(created.error);
      }
      var restored := Restore(created.value, c, limits);
      if restored.None? {
        return Err(NotRestored);
      }
      Insert(id, restored.value);
      r := Ok(id);
    }

    method RenameThread(from: string, to: string, nextTurn: nat) returns (r: Result<(), RegistryError>)
      modifies this
      ensures (Value(), r) == Rename(old(Value()), from, to, nextTurn)
    {
      if to in threads {
        return Err(ThreadAlreadyExists(to));
      }
      if from !in threads {
        return Err(ThreadNotFound(from));
      }
      var thread := WithId(threads[from], to).(nextTurn := AtLeastOne(nextTurn));
      threads := (threads - {from})[to := thread];
      var i := 0;
      while i < |ids| && ids[i] != from
        invariant 0 <= i <= |ids|
        invariant from !in ids[..i]
      {
        i := i + 1;
      }
      ReplaceFirstAt(ids, from, to, i);
      if i < |ids| {
        ids := ids[i := to];
      }
      r := Ok(());
    }
  }

  lemma {:induction false} ReplaceFirstAt(ids: seq<string>, from: string, to: string, i: nat)
    requires i <= |ids| && from !in ids[..i] && (i < |ids| ==> ids[i] == from)
    ensures ReplaceFirst(ids, from, to) == if i < |ids| then ids[i := to] else ids
  {
    if i > 0 {
      assert ids[0] == ids[..i][0];
      assert forall id :: id in ids[1..][..i - 1] ==> id in ids[..i];
      ReplaceFirstAt(ids[1..], from, to, i - 1);
    }
  }

  // ------------------------------------------------------------ agreement

  /** The map and the list hold the same ids, each once, and each thread carries its key. */
  ghost predicate Agrees(r: Threads) {
    && (forall id :: id in r.threads <==> id in r.ids)
    && Distinct(r.ids)
    && (forall id :: id in r.threads ==> r.threads[id].id == id)
  }

  lemma CreateKeeps(r: Threads, id: string, made: Made)
    requires Agrees(r)
    ensures Agrees(Create(r, id, made).0)
    ensures Create(r, id, made).1.Err? ==> Create(r, id, made).0 == r
  {
  }

  /**
   A thread is created exactly for an id not in use and with a factory that yields one; it is
   listed last, has what the factory gave it, and numbers afresh if it was given another id.
   */
  lemma CreateAddsLast(r: Threads, id: string, made: Made)
    requires Agrees(r)
    ensures var (after, result) := Create(r, id, made);
            && (result.Ok? <==> id !in r.threads && r.hasFactory && made.Some?)
            && (result.Ok? ==>
                  && result.value == id && after.ids == r.ids + [id] && after.hasFactory == r.hasFactory
                  && after.threads.Keys == r.threads.Keys + {id}
                  && (forall other :: other in r.threads ==> after.threads[other] == r.threads[other])
                  && var t := after.threads[id];
                  && t.id == id && t.session == made.value.session && t.pending == made.value.pending
                  && t.status == made.value.status
                  && (made.value.id == id ==> t == made.value)
                  && (made.value.id != id ==> t.nextTurn == 1 && t.lastTurn.None? && t.nextSequence == 1))
  {
  }

  /** A resume puts the checkpoint into the named thread, whatever id it was taken under, and no other. */
  lemma ResumeCopiesCheckpoint(r: Threads, id: string, c: Checkpoint, made: Made, limits: bool)
    requires Agrees(r)
    ensures var (after, result) := Resume(r, id, c, made, limits);
            && (result.Ok? <==>
                  && !limits
                  && (if id in r.threads then r.threads[id].status != Running
                      else r.hasFactory && made.Some? && made.value.status != Running))
            && (result.Ok? ==>
                  && result.value == id && id in after.threads
                  && after.ids == (if id in r.threads then r.ids else r.ids + [id])
                  && (forall other :: other in r.threads && other != id ==>
                        other in after.threads && after.threads[other] == r.threads[other])
                  && var t, pending := after.threads[id],
                                       if id in r.threads then r.threads[id].pending else made.value.pending;
                  && t.id == id && c.session <= t.session && t.status == c.status && t.lastTurn == c.lastTurn
                  && t.nextTurn == AtLeastOne(c.nextTurn) && t.nextSequence == AtLeastOne(c.nextSequence)
                  && (t.session == c.session <==>
                        forall i :: 0 <= i < |pending| ==>
                          Latest(c.session, pending[i].id) == Some(pending[i].fingerprint)))
  {
    ghost var pending := if id in r.threads then r.threads[id].pending
                         else if made.Some? then made.value.pending else [];
    ReplayExtends(c.session, pending);
    ReplayKeepsIff(c.session, pending);
  }

  lemma ForkKeeps(r: Threads, source: string, id: string, made: Made, limits: bool)
    requires Agrees(r)
    ensures Agrees(Fork(r, source, id, made, limits).0)
    ensures Fork(r, source, id, made, limits).1.Err? ==> Fork(r, source, id, made, limits).0 == r
  {
  }

  lemma ResumeKeeps(r: Threads, id: string, c: Checkpoint, made: Made, limits: bool)
    requires Agrees(r)
    ensures Agrees(Resume(r, id, c, made, limits).0)
    ensures Resume(r, id, c, made, limits).1.Err? ==> Resume(r, id, c, made, limits).0 == r
  {
  }

  lemma Position(ids: seq<string>, id: string) returns (i: nat)
    requires id in ids
    ensures i < |ids| && ids[i] == id && id !in ids[..i]
  {
    i := 0;
    while ids[i] != id
      invariant i < |ids| && id !in ids[..i] && id in ids[i..]
      decreases |ids| - i
    {
      i := i + 1;
    }
  }

  /** Renaming puts the new id where the old one was, and moves the thread with its history. */
  lemma RenameKeepsPosition(r: Threads, from: string, to: string, nextTurn: nat)
    requires Agrees(r)
    ensures var (after, result) := Rename(r, from, to, nextTurn);
            && Agrees(after)
            && (result.Ok? <==> from in r.threads && to !in r.threads)
            && (result.Err? ==> after == r)
            && (result.Ok? ==>
                  && |after.ids| == |r.ids|
                  && (forall i :: 0 <= i < |r.ids| ==> after.ids[i] == if r.ids[i] == from then to else r.ids[i])
                  && after.threads.Keys == r.threads.Keys - {from} + {to}
                  && (forall id :: id in r.threads && id != from ==> after.threads[id] == r.threads[id])
                  && after.threads[to].session == r.threads[from].session
                  && after.threads[to].nextTurn == AtLeastOne(nextTurn) && after.threads[to].lastTurn.None?
                  && after.threads[to].nextSequence == 1)
  {
    if from in r.threads && to !in r.threads {
      var i := Position(r.ids, from);
      ReplaceFirstAt(r.ids, from, to, i);
      var after := Rename(r, from, to, nextTurn).0;
      assert after.ids == r.ids[i := to];
      RenamedListAgrees(r.ids, i, to);
    }
  }

  lemma RenamedListAgrees(ids: seq<string>, i: nat, to: string)
    requires i < |ids| && Distinct(ids) && to !in ids
    ensures Distinct(ids[i := to])
    ensures forall id :: id in ids[i := to] <==> id == to || (id in ids && id != ids[i])
  {
    forall id | id in ids && id != ids[i]
      ensures id in ids[i := to]
    {
      var k :| 0 <= k < |ids| && ids[k] == id;
      assert ids[i := to][k] == id;
    }
    assert ids[i := to][i] == to;
    forall id | id in ids[i := to] && id != to
      ensures id in ids && id != ids[i]
    {
      var k :| 0 <= k < |ids| && ids[i := to][k] == id;
      assert ids[k] == id;
    }
  }

  /**
   A fork starts from the source's history, keeps its numbering under the new id, and leaves
   every existing thread alone; it adds nothing exactly when the source already has every
   injection the factory put into the new thread.
   */
  lemma ForkCopiesHistory(r: Threads, source: string, id: string, made: Made, limits: bool)
    requires Agrees(r) && Fork(r, source, id, made, limits).1.Ok?
    ensures var after := Fork(r, source, id, made, limits).0;
            && source in r.threads && id !in r.threads && id in after.threads && made.Some?
            && (forall other :: other in r.threads ==>
                  other in after.threads && after.threads[other] == r.threads[other])
            && after.ids == r.ids + [id]
            && var from, to := r.threads[source], after.threads[id];
            && from.session <= to.session
            && (to.session == from.session <==>
                  forall i :: 0 <= i < |made.value.pending| ==>
                    Latest(from.session, made.value.pending[i].id) == Some(made.value.pending[i].fingerprint))
            && to.nextTurn == AtLeastOne(from.nextTurn) && to.lastTurn == from.lastTurn
            && to.status == from.status && to.nextSequence == AtLeastOne(from.nextSequence)
  {
    ReplayExtends(r.threads[source].session, made.value.pending);
    ReplayKeepsIff(r.threads[source].session, made.value.pending);
  }

  /** Each injection a restore adds to the history is kept as unreported, and no other is. */
  lemma {:induction false} ReplayAddsReplayed(session: seq<Message>, drafts: seq<Draft>)
    ensures |Replay(session, drafts)| == |session| + |Replayed(session, drafts)|
  {
    if drafts != [] {
      ReplayAddsReplayed(session, drafts[..|drafts| - 1]);
    }
  }

  /**
   Resuming a settled thread's own checkpoint is a round trip exactly when the history is within
   the limits, no injection is waiting to be reported and both numberings have begun. Otherwise it
   fails, grows the history, drops injections the history already has, or renumbers.
   */
  lemma ResumeOwnCheckpoint(r: Threads, id: string, made: Made, limits: bool)
    requires Agrees(r) && id in r.threads && Settled(r.threads[id]).Some?
    ensures var t := r.threads[id];
            Resume(r, id, Settled(t).value, made, limits) == (r, Ok(id))
            <==> !limits && t.pending == [] && t.nextTurn >= 1 && t.nextSequence >= 1
  {
    var t := r.threads[id];
    ghost var (after, result) := Resume(r, id, Settled(t).value, made, limits);
    ReplayAddsReplayed(t.session, t.pending);
    if result.Ok? {
      assert after == r <==> after.threads[id] == t by {
        assert after.threads[id] == t ==> r.threads[id := t] == r.threads;
      }
    }
  }

  // ------------------------------------------------------------ whole runs

  datatype Step =
    | CreateStep(id: string, made: Made)
    | ForkStep(source: string, id: string, made: Made, limits: bool)
    | ResumeStep(id: string, checkpoint: Checkpoint, made: Made, limits: bool)
    | RenameStep(from: string, to: string, nextTurn: nat)
    | BeginTurn(id: string)
    | EndTurn(messages: seq<Message>, pending: seq<Draft>, status: Status, lastTurn: string, nextSequence: nat)

  /** While a turn runs its thread is out of the map, and the other commands are refused. */
  datatype World = World(r: Threads, out: Option<Thread>)

  function Next(w: World, step: Step): World {
    match step
    case EndTurn(messages, pending, status, lastTurn, nextSequence) =>
      if w.out.None? then w
      else
        var t := w.out.value.(session := messages, pending := pending, status := status,
                              nextTurn := w.out.value.nextTurn + 1, lastTurn := Some(lastTurn),
                              nextSequence := nextSequence);
        World(w.r.(threads := w.r.threads[t.id := t]), None)
    case _ =>
      if w.out.Some? then w
      else
        match step
        case CreateStep(id, made) => w.(r := Create(w.r, id, made).0)
        case ForkStep(source, id, made, limits) => w.(r := Fork(w.r, source, id, made, limits).0)
        case ResumeStep(id, c, made, limits) => w.(r := Resume(w.r, id, c, made, limits).0)
        case RenameStep(from, to, nextTurn) => w.(r := Rename(w.r, from, to, nextTurn).0)
        case _ =>
          if step.BeginTurn? && step.id in w.r.threads then
            World(w.r.(threads := w.r.threads - {step.id}), Some(w.r.threads[step.id]))
          else w
  }

  function Run(w: World, steps: seq<Step>): World {
    if steps == [] then w else Next(Run(w, steps[..|steps| - 1]), steps[|steps| - 1])
  }

  /** The registry with the running thread put back. */
  function Whole(w: World): Threads {
    if w.out.None? then w.r else w.r.(threads := w.r.threads[w.out.value.id := w.out.value])
  }

  ghost predicate Sound(w: World) {
    Agrees(Whole(w)) && (w.out.Some? ==> w.out.value.id !in w.r.threads)
  }

  lemma NextKeepsSound(w: World, step: Step)
    requires Sound(w)
    ensures Sound(Next(w, step))
  {
    if w.out.Some? {
    } else {
      match step
      case CreateStep(id, made) => CreateKeeps(w.r, id, made);
      case ForkStep(source, id, made, limits) => ForkKeeps(w.r, source, id, made, limits);
      case ResumeStep(id, c, made, limits) => ResumeKeeps(w.r, id, c, made, limits);
      case RenameStep(from, to, nextTurn) => RenameKeepsPosition(w.r, from, to, nextTurn);
      case BeginTurn(id) =>
      case EndTurn(_, _, _, _, _) =>
    }
  }

  /** Every run of creations, forks, resumes, renames and turns keeps the map and the list in agreement. */
  lemma {:induction false} RegistryAgreesThroughout(w: World, steps: seq<Step>)
    requires Sound(w)
    ensures Sound(Run(w, steps))
    ensures Run(w, steps).out.None? ==> Agrees(Run(w, steps).r)
  {
    if steps != [] {
      RegistryAgreesThroughout(w, steps[..|steps| - 1]);
      NextKeepsSound(Run(w, steps[..|steps| - 1]), steps[|steps| - 1]);
    }
  }
}
