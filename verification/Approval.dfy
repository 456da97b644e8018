/**
 The approval broker: a thread that needs approval registers a request and waits, a client
 answers in two separate critical sections, and two kinds of consumers empty the queues.
 */
module Approval {
  import opened Decimals
  import opened RequestId
  import opened Wrappers

  datatype GrantScope = Once | Session | Project

  datatype Decision = Approve | Deny

  datatype Outcome = Approved | Denied

  /** What a tool call asks approval for; `grantKey` is absent when it cannot be granted broadly. */
  datatype ToolCall = ToolCall(
    action: string, actionSummary: Option<string>, toolName: Option<string>, callId: Option<string>,
    threadId: Option<string>, turnId: Option<string>, projectId: Option<string>,
    workspaceId: Option<string>, workspaceRevision: Option<nat>, sessionId: Option<string>,
    grantKey: Option<string>)

  /** The fields a request and its resolution have in common. */
  datatype Details = Details(
    action: string, actionSummary: string, projectId: Option<string>, workspaceId: Option<string>,
    workspaceRevision: Option<nat>, sessionId: Option<string>, callId: Option<string>,
    threadId: Option<string>, turnId: Option<string>, toolName: Option<string>, actionClass: string)

  datatype Request = Request(requestId: string, details: Details, allowedScopes: seq<GrantScope>)

  datatype Response =
    Response(requestId: string, decision: Decision, grantScope: Option<GrantScope>, reason: Option<string>)

  datatype Resolution = Resolution(
    requestId: string, details: Details, grantScope: Option<GrantScope>, outcome: Outcome,
    reason: Option<string>)

  datatype Event = Requested(request: Request) | Resolved(resolution: Resolution)

  datatype Rejection = UnknownRequest | ExceedsScope | DenialGrantsScope | NoLongerWaiting

  datatype Broker = Broker(
    process: nat, brokerId: nat, nextId: nat,
    queued: seq<Request>, resolved: seq<Resolution>, responders: map<string, Request>)

  function Describe(call: ToolCall): Details {
    Details(call.action, if call.actionSummary.Some? then call.actionSummary.value else call.action,
            call.projectId, call.workspaceId, call.workspaceRevision, call.sessionId, call.callId,
            call.threadId, call.turnId, call.toolName,
            if call.toolName.Some? then call.toolName.value else "tool_action")
  }

  function MakeRequest(process: nat, brokerId: nat, sequence: nat, call: ToolCall): Request {
    Request(Format(process, brokerId, sequence, call.callId), Describe(call),
            if call.grantKey.Some? then [Once, Session, Project] else [Once])
  }

  function Allocate(b: Broker): Broker {
    b.(nextId := (b.nextId + 1) % U64_LIMIT)
  }

  function Register(b: Broker, request: Request): Broker {
    b.(responders := b.responders[request.requestId := request], queued := b.queued + [request])
  }

  /** The first critical section of an answer: the request it settles, or why it does not. */
  function Judge(b: Broker, r: Response): Result<Request, Rejection> {
    if r.requestId !in b.responders then Err(UnknownRequest)
    else
      var request := b.responders[r.requestId];
      if r.decision == Approve && !(r.grantScope.Some? && r.grantScope.value in request.allowedScopes) then
        Err(ExceedsScope)
      else if r.decision == Deny && r.grantScope.Some? then Err(DenialGrantsScope)
      else Ok(request)
  }

  function Claim(b: Broker, r: Response): Broker {
    if Judge(b, r).Ok? then b.(responders := b.responders - {r.requestId}) else b
  }

  function Resolve(request: Request, r: Response): Resolution {
    Resolution(request.requestId, request.details, r.grantScope,
               if r.decision == Approve then Approved else Denied, r.reason)
  }

  function Publish(b: Broker, resolution: Resolution): Broker {
    b.(resolved := b.resolved + [resolution])
  }

  function TakeRequest(b: Broker): Broker {
    if b.queued == [] then b else b.(queued := b.queued[1..])
  }

  /** The next event for a client: every queued request goes before any resolution. */
  function PeekEvent(b: Broker): Option<Event> {
    if b.queued != [] then Some(Requested(b.queued[0]))
    else if b.resolved != [] then Some(Resolved(b.resolved[0]))
    else None
  }

  function TakeEvent(b: Broker): Broker {
    if b.queued != [] then b.(queued := b.queued[1..])
    else if b.resolved != [] then b.(resolved := b.resolved[1..])
    else b
  }

  class ApprovalBroker {
    const process: nat
    const brokerId: nat
    var nextId: nat
    var queued: seq<Request>
    var resolved: seq<Resolution>
    var responders: map<string, Request>

    constructor (process: nat, brokerId: nat)
      ensures State() == Broker(process, brokerId, 1, [], [], map[])
    {
      this.process, this.brokerId := process, brokerId;
      nextId, queued, resolved, responders := 1, [], [], map[];
    }

    function State(): Broker
      reads this
    {
      Broker(process, brokerId, nextId, queued, resolved, responders)
    }

    /** The atomic counter is advanced before, and outside, the critical section. */
    method AllocateSequence() returns (sequence: nat)
      modifies this`nextId
      ensures sequence == old(nextId) && State() == Allocate(old(State()))
    {
      sequence := nextId;
      nextId := (nextId + 1) % U64_LIMIT;
    }

    method RequestResolution(sequence: nat, call: ToolCall) returns (request: Request)
      modifies this
      ensures request == MakeRequest(process, brokerId, sequence, call)
      ensures State() == Register(old(State()), request)
    {
      var requestId := Format(process, brokerId, sequence, call.callId);
      var scopes := if call.grantKey.Some? then [Once, Session, Project] else [Once];
      request := Request(requestId, Describe(call), scopes);
      responders := responders[requestId := request];
      queued := queued + [request];
    }

    /** First critical section: a rejected answer leaves the broker as it was. */
    method BeginRespond(response: Response) returns (claimed: Result<Request, Rejection>)
      modifies this`responders
      ensures claimed == Judge(old(State()), response)
      ensures State() == Claim(old(State()), response)
      ensures claimed.Err? ==> State() == old(State())
      ensures claimed.Ok? ==> response.requestId in old(responders) && response.requestId !in responders
    {
      if response.requestId !in responders {
        return Err(UnknownRequest);
      }
      var request := responders[response.requestId];
      if response.decision == Approve
         && !(response.grantScope.Some? && response.grantScope.value in request.allowedScopes)
      {
        return Err(ExceedsScope);
      }
      if response.decision == Deny && response.grantScope.Some? {
        return Err(DenialGrantsScope);
      }
      responders := responders - {response.requestId};
      claimed := Ok(request);
    }

    /** Second critical section: reached only if the waiting thread received the resolution. */
    method FinishRespond(request: Request, response: Response, received: bool)
      returns (result: Result<Resolution, Rejection>)
      modifies this`resolved
      ensures result == if received then Ok(Resolve(request, response)) else Err(NoLongerWaiting)
      ensures State() == if received then Publish(old(State()), Resolve(request, response)) else old(State())
    {
      var outcome := if response.decision == Approve then Approved else Denied;
      var resolution :=
        Resolution(request.requestId, request.details, response.grantScope, outcome, response.reason);
      if !received {
        return Err(NoLongerWaiting);
      }
      resolved := resolved + [resolution];
      result := Ok(resolution);
    }

    method NextRequest() returns (request: Option<Request>)
      modifies this`queued
      ensures State() == TakeRequest(old(State()))
      ensures request == if old(queued) == [] then None else Some(old(queued)[0])
    {
      if queued == [] {
        return None;
      }
      request := Some(queued[0]);
      queued := queued[1..];
    }

    method NextEvent() returns (event: Option<Event>)
      modifies this`queued, this`resolved
      ensures event == PeekEvent(old(State())) && State() == TakeEvent(old(State()))
    {
      if queued != [] {
        event := Some(Requested(queued[0]));
        queued := queued[1..];
      } else if resolved != [] {
        event := Some(Resolved(resolved[0]));
        resolved := resolved[1..];
      } else {
        event := None;
      }
    }
  }

  // --------------------------------------------------- all interleavings

  /** An allocation: its place in the order of allocations, and the call it was made for. */
  datatype Origin = Origin(ticket: nat, call: ToolCall)

  /** An answer between its critical sections; `index` is that of its request's registration. */
  datatype Flight = Flight(index: nat, request: Request, response: Response)

  /**
   Where a registration is: waiting for an answer, between the two critical sections of one,
   resolved, answered with nobody there, or replaced under its id by a later registration.
   */
  datatype Stage = Waiting | InFlight | Published | Lost | Displaced

  /**
   The broker with what happened to it. `pending` calls hold a sequence number but are not
   registered; `stages` says where each registration is, and `waiting` which one an id names;
   `claims` keeps the answer accepted for a registration; `settled` gives each published
   resolution its registration; `departures` lists what left the queues through either consumer.
   */
  datatype World = World(
    broker: Broker, tickets: nat, pending: map<nat, ToolCall>, origins: seq<Origin>,
    registered: seq<Request>, stages: seq<Stage>, waiting: map<string, nat>, claims: map<nat, Response>,
    inFlight: seq<Flight>, published: seq<Resolution>, settled: seq<nat>, departures: seq<Event>)

  datatype Step =
    | AllocateStep(call: ToolCall)
    | RegisterStep(ticket: nat)
    | BeginStep(response: Response)
    | FinishStep(flight: nat, received: bool)
    | NextRequestStep
    | NextEventStep

  function Initial(process: nat, brokerId: nat): World {
    World(Broker(process, brokerId, 1, [], [], map[]), 0, map[], [], [], [], map[], map[], [], [], [], [])
  }

  /** The sequence number given to the `ticket`-th allocation: the counter starts at 1 and wraps. */
  function SequenceOf(ticket: nat): nat {
    (ticket + 1) % U64_LIMIT
  }

  function Without<T>(s: seq<T>, i: nat): seq<T>
    requires i < |s|
  {
    s[..i] + s[i + 1..]
  }

  function Moved(stages: seq<Stage>, i: nat, stage: Stage): seq<Stage> {
    if i < |stages| then stages[i := stage] else stages
  }

  function Registered(w: World, ticket: nat, call: ToolCall): World {
    var request := MakeRequest(w.broker.process, w.broker.brokerId, SequenceOf(ticket), call);
    var id := request.requestId;
    w.(broker := Register(w.broker, request), pending := w.pending - {ticket},
       origins := w.origins + [Origin(ticket, call)], registered := w.registered + [request],
       stages := (if id in w.waiting then Moved(w.stages, w.waiting[id], Displaced) else w.stages) + [Waiting],
       waiting := w.waiting[id := |w.registered|])
  }

  function Claimed(w: World, response: Response, request: Request): World {
    var id := response.requestId;
    var index := if id in w.waiting then w.waiting[id] else 0;
    w.(broker := Claim(w.broker, response), waiting := w.waiting - {id},
       stages := Moved(w.stages, index, InFlight), claims := w.claims[index := response],
       inFlight := w.inFlight + [Flight(index, request, response)])
  }

  function Finished(w: World, i: nat, received: bool): World
    requires i < |w.inFlight|
  {
    var flight := w.inFlight[i];
    var landed := w.(inFlight := Without(w.inFlight, i),
                     stages := Moved(w.stages, flight.index, if received then Published else Lost));
    if received then
      var resolution := Resolve(flight.request, flight.response);
      landed.(broker := Publish(w.broker, resolution), published := w.published + [resolution],
              settled := w.settled + [flight.index])
    else landed
  }

  function Next(w: World, step: Step): World {
    match step
    case AllocateStep(call) =>
      w.(broker := Allocate(w.broker), tickets := w.tickets + 1, pending := w.pending[w.tickets := call])
    case RegisterStep(ticket) =>
      if ticket in w.pending then Registered(w, ticket, w.pending[ticket]) else w
    case BeginStep(response) =>
      var verdict := Judge(w.broker, response);
      if verdict.Ok? then Claimed(w, response, verdict.value) else w
    case FinishStep(i, received) =>
      if i < |w.inFlight| then Finished(w, i, received) else w
    case NextRequestStep =>
      if w.broker.queued == [] then w
      else
        w.(broker := TakeRequest(w.broker), departures := w.departures + [Requested(w.broker.queued[0])])
    case NextEventStep =>
      var event := PeekEvent(w.broker);
      if event.None? then w
      else w.(broker := TakeEvent(w.broker), departures := w.departures + [event.value])
  }

  function Run(w: World, steps: seq<Step>): World {
    if steps == [] then w else Next(Run(w, steps[..|steps| - 1]), steps[|steps| - 1])
  }

  // ------------------------------------------------------------ identifiers

  /** Each registered request was made from its own allocation. */
  predicate Numbered(w: World) {
    && |w.origins| == |w.registered|
    && (forall t :: t in w.pending ==> t < w.tickets)
    && (forall i :: 0 <= i < |w.origins| ==>
          w.origins[i].ticket < w.tickets && w.origins[i].ticket !in w.pending)
    && (forall i, j :: 0 <= i < j < |w.origins| ==> w.origins[i].ticket != w.origins[j].ticket)
    && (forall i :: 0 <= i < |w.origins| ==>
          w.registered[i] == MakeRequest(w.broker.process, w.broker.brokerId,
                                         SequenceOf(w.origins[i].ticket), w.origins[i].call))
  }

  lemma NumberedKept(w: World, step: Step)
    requires Numbered(w)
    ensures Numbered(Next(w, step))
  {
    if step.RegisterStep? && step.ticket in w.pending {
      RegisteredIsNumbered(w, step.ticket);
    }
  }

  lemma RegisteredIsNumbered(w: World, ticket: nat)
    requires Numbered(w) && ticket in w.pending
    ensures Numbered(Registered(w, ticket, w.pending[ticket]))
  {
  }

  /** The broker's counter is the sequence the next allocation will get. */
  lemma CounterFollowsTickets(w: World, step: Step)
    requires w.broker.nextId == SequenceOf(w.tickets)
    ensures Next(w, step).broker.nextId == SequenceOf(Next(w, step).tickets)
  {
  }

  /** Allocations whose numbers differ by less than 2^64 get different sequences, across the wrap. */
  lemma SequencesApart(s: nat, t: nat)
    requires s < t < s + U64_LIMIT
    ensures SequenceOf(s) != SequenceOf(t)
  {
  }

  /** Fewer than 2^64 allocations apart, two calls never share a request id. */
  lemma TicketsNameApart(process: nat, brokerId: nat, s: nat, t: nat, a: ToolCall, b: ToolCall)
    requires s < t < s + U64_LIMIT
    ensures MakeRequest(process, brokerId, SequenceOf(s), a).requestId
            != MakeRequest(process, brokerId, SequenceOf(t), b).requestId
  {
    SequencesApart(s, t);
    FormatInjective(Parts(process, brokerId, SequenceOf(s), a.callId),
                    Parts(process, brokerId, SequenceOf(t), b.callId));
  }

  /** Exactly 2^64 allocations apart, the same call gets the same request again. */
  lemma AWrapApartRepeats(process: nat, brokerId: nat, s: nat, call: ToolCall)
    ensures MakeRequest(process, brokerId, SequenceOf(s), call)
            == MakeRequest(process, brokerId, SequenceOf(s + U64_LIMIT), call)
  {
    assert SequenceOf(s) == SequenceOf(s + U64_LIMIT);
  }

  predicate WithinOneWrap(s: nat, t: nat) {
    s < t + U64_LIMIT && t < s + U64_LIMIT
  }

  lemma OriginsNameApart(process: nat, brokerId: nat, a: Origin, b: Origin)
    requires a.ticket != b.ticket && WithinOneWrap(a.ticket, b.ticket)
    ensures MakeRequest(process, brokerId, SequenceOf(a.ticket), a.call).requestId
            != MakeRequest(process, brokerId, SequenceOf(b.ticket), b.call).requestId
  {
    if a.ticket < b.ticket {
      TicketsNameApart(process, brokerId, a.ticket, b.ticket, a.call, b.call);
    } else {
      TicketsNameApart(process, brokerId, b.ticket, a.ticket, b.call, a.call);
    }
  }

  /** Registrations fewer than 2^64 allocations apart have different ids. */
  lemma RegisteredApart(w: World, i: nat, j: nat)
    requires Numbered(w) && i < j < |w.registered|
    requires WithinOneWrap(w.origins[i].ticket, w.origins[j].ticket)
    ensures w.registered[i].requestId != w.registered[j].requestId
  {
    OriginsNameApart(w.broker.process, w.broker.brokerId, w.origins[i], w.origins[j]);
  }

  // ------------------------------------------------------------ conservation

  function Count(stages: seq<Stage>, stage: Stage): nat {
    if stages == [] then 0
    else Count(stages[..|stages| - 1], stage) + if stages[|stages| - 1] == stage then 1 else 0
  }

  lemma CountAppend(stages: seq<Stage>, added: Stage, stage: Stage)
    ensures Count(stages + [added], stage) == Count(stages, stage) + if added == stage then 1 else 0
  {
    assert (stages + [added])[..|stages|] == stages;
  }

  lemma {:induction false} CountMove(stages: seq<Stage>, i: nat, to: Stage, stage: Stage)
    requires i < |stages|
    ensures Count(stages[i := to], stage)
            == Count(stages, stage) - (if stages[i] == stage then 1 else 0) + (if to == stage then 1 else 0)
  {
    var last := |stages| - 1;
    if i < last {
      CountMove(stages[..last], i, to, stage);
      assert stages[i := to][..last] == stages[..last][i := to];
    } else {
      assert stages[i := to][..last] == stages[..last];
    }
  }

  lemma {:induction false} CountAll(stages: seq<Stage>)
    ensures |stages| == Count(stages, Waiting) + Count(stages, InFlight) + Count(stages, Published)
                        + Count(stages, Lost) + Count(stages, Displaced)
  {
    if stages != [] {
      CountAll(stages[..|stages| - 1]);
    }
  }

  predicate WaitsUnder(registered: seq<Request>, stages: seq<Stage>, waiting: map<string, nat>,
                       responders: map<string, Request>, id: string)
    requires |stages| == |registered| && id in waiting && id in responders
  {
    && waiting[id] < |registered| && stages[waiting[id]] == Waiting
    && registered[waiting[id]] == responders[id] && registered[waiting[id]].requestId == id
  }

  /** The waiting responders are the registrations that wait, each under its own id. */
  predicate WaitingAt(registered: seq<Request>, stages: seq<Stage>, waiting: map<string, nat>,
                      responders: map<string, Request>)
  {
    && |stages| == |registered| && waiting.Keys == responders.Keys
    && |responders| == Count(stages, Waiting)
    && (forall id :: id in waiting ==> id in responders && WaitsUnder(registered, stages, waiting, responders, id))
  }

  predicate FlightAt(registered: seq<Request>, stages: seq<Stage>, f: Flight)
    requires |stages| == |registered|
  {
    && f.index < |registered| && stages[f.index] == InFlight && f.request == registered[f.index]
    && Settles(f.request, Resolve(f.request, f.response))
  }

  /** The answers in flight each settle, within its scopes, a registration of their own. */
  predicate FlightsAt(registered: seq<Request>, stages: seq<Stage>, inFlight: seq<Flight>) {
    && |stages| == |registered|
    && |inFlight| == Count(stages, InFlight)
    && (forall k :: 0 <= k < |inFlight| ==> FlightAt(registered, stages, inFlight[k]))
    && (forall j, k :: 0 <= j < k < |inFlight| ==> inFlight[j].index != inFlight[k].index)
  }

  /** The published resolutions each settle, within its scopes, a registration of their own. */
  predicate PublishedAt(registered: seq<Request>, stages: seq<Stage>, published: seq<Resolution>,
                        settled: seq<nat>)
  {
    && |stages| == |registered| && |settled| == |published|
    && |published| == Count(stages, Published)
    && (forall k :: 0 <= k < |settled| ==>
          && settled[k] < |registered| && stages[settled[k]] == Published
          && Settles(registered[settled[k]], published[k]))
    && (forall j, k :: 0 <= j < k < |settled| ==> settled[j] != settled[k])
  }

  predicate WaitingPlaced(w: World) {
    WaitingAt(w.registered, w.stages, w.waiting, w.broker.responders)
  }

  predicate FlightsPlaced(w: World) {
    FlightsAt(w.registered, w.stages, w.inFlight)
  }

  predicate PublishedPlaced(w: World) {
    PublishedAt(w.registered, w.stages, w.published, w.settled)
  }

  predicate Placed(w: World) {
    WaitingPlaced(w) && FlightsPlaced(w) && PublishedPlaced(w)
  }

  /** An answer settles a request as the request allows. */
  predicate Settles(q: Request, r: Resolution) {
    && r.requestId == q.requestId && r.details == q.details
    && (if r.outcome == Approved then r.grantScope.Some? && r.grantScope.value in q.allowedScopes
        else r.grantScope.None?)
  }

  /** The stages when the registration an id names gives way to a later one of the same id. */
  function Replaced(stages: seq<Stage>, waiting: map<string, nat>, id: string): seq<Stage> {
    if id in waiting then Moved(stages, waiting[id], Displaced) else stages
  }

  lemma DisplaceKeepsFlights(registered: seq<Request>, stages: seq<Stage>, inFlight: seq<Flight>, i: nat)
    requires FlightsAt(registered, stages, inFlight) && i < |stages| && stages[i] == Waiting
    ensures FlightsAt(registered, stages[i := Displaced], inFlight)
  {
    CountMove(stages, i, Displaced, InFlight);
    forall k | 0 <= k < |inFlight|
      ensures FlightAt(registered, stages[i := Displaced], inFlight[k])
    {
      assert FlightAt(registered, stages, inFlight[k]);
    }
  }

  lemma GrowFlights(registered: seq<Request>, stages: seq<Stage>, inFlight: seq<Flight>, request: Request)
    requires FlightsAt(registered, stages, inFlight)
    ensures FlightsAt(registered + [request], stages + [Waiting], inFlight)
  {
    CountAppend(stages, Waiting, InFlight);
    forall k | 0 <= k < |inFlight|
      ensures FlightAt(registered + [request], stages + [Waiting], inFlight[k])
    {
      assert FlightAt(registered, stages, inFlight[k]);
    }
  }

  lemma GrowPublished(registered: seq<Request>, stages: seq<Stage>, published: seq<Resolution>,
                      settled: seq<nat>, request: Request)
    requires PublishedAt(registered, stages, published, settled)
    ensures PublishedAt(registered + [request], stages + [Waiting], published, settled)
  {
    CountAppend(stages, Waiting, Published);
  }

  lemma AddWaiting(registered: seq<Request>, stages: seq<Stage>, waiting: map<string, nat>,
                   responders: map<string, Request>, request: Request)
    requires WaitingAt(registered, stages, waiting, responders)
    ensures var id := request.requestId;
            WaitingAt(registered + [request], Replaced(stages, waiting, id) + [Waiting],
                      waiting[id := |registered|], responders[id := request])
  {
    var id := request.requestId;
    ghost var grown, moved := registered + [request], Replaced(stages, waiting, id) + [Waiting];
    ghost var names, keepers := waiting[id := |registered|], responders[id := request];
    AddedCounts(registered, stages, waiting, responders, id);
    KeyAdded(responders, id, request);
    assert names.Keys == waiting.Keys + {id};
    forall other | other in names
      ensures other in keepers && WaitsUnder(grown, moved, names, keepers, other)
    {
      AddedWaits(registered, stages, waiting, responders, request, other);
    }
  }

  lemma AddedCounts(registered: seq<Request>, stages: seq<Stage>, waiting: map<string, nat>,
                    responders: map<string, Request>, id: string)
    requires WaitingAt(registered, stages, waiting, responders)
    ensures var replaced := Replaced(stages, waiting, id);
            && |replaced| == |stages|
            && Count(replaced + [Waiting], Waiting) == |responders| + if id in responders then 0 else 1
  {
    if id in waiting {
      assert WaitsUnder(registered, stages, waiting, responders, id);
      CountMove(stages, waiting[id], Displaced, Waiting);
    }
    CountAppend(Replaced(stages, waiting, id), Waiting, Waiting);
  }

  lemma AddedWaits(registered: seq<Request>, stages: seq<Stage>, waiting: map<string, nat>,
                   responders: map<string, Request>, request: Request, other: string)
    requires WaitingAt(registered, stages, waiting, responders)
    requires other == request.requestId || other in waiting
    ensures var id := request.requestId;
            var replaced := Replaced(stages, waiting, id);
            && other in responders[id := request] && |replaced| == |stages|
            && WaitsUnder(registered + [request], replaced + [Waiting], waiting[id := |registered|],
                          responders[id := request], other)
  {
    var id := request.requestId;
    assert id in waiting ==> WaitsUnder(registered, stages, waiting, responders, id);
    if other != id {
      assert WaitsUnder(registered, stages, waiting, responders, other);
    }
  }

  lemma RegisterChanges(w: World, ticket: nat, request: Request)
    requires ticket in w.pending
    requires request == MakeRequest(w.broker.process, w.broker.brokerId, SequenceOf(ticket), w.pending[ticket])
    ensures var next := Registered(w, ticket, w.pending[ticket]);
            && next.registered == w.registered + [request]
            && next.stages == Replaced(w.stages, w.waiting, request.requestId) + [Waiting]
            && next.waiting == w.waiting[request.requestId := |w.registered|]
            && next.broker.responders == w.broker.responders[request.requestId := request]
            && next.inFlight == w.inFlight && next.published == w.published && next.settled == w.settled
  {
  }

  lemma RegisterKeepsPlaced(w: World, ticket: nat)
    requires Placed(w) && ticket in w.pending
    ensures Placed(Registered(w, ticket, w.pending[ticket]))
  {
    var request := MakeRequest(w.broker.process, w.broker.brokerId, SequenceOf(ticket), w.pending[ticket]);
    var replaced := Replaced(w.stages, w.waiting, request.requestId);
    AddWaiting(w.registered, w.stages, w.waiting, w.broker.responders, request);
    if request.requestId in w.waiting {
      assert WaitsUnder(w.registered, w.stages, w.waiting, w.broker.responders, request.requestId);
      DisplaceKeepsFlights(w.registered, w.stages, w.inFlight, w.waiting[request.requestId]);
      LeaveWaitingKeepsPublished(w.registered, w.stages, w.published, w.settled, w.waiting[request.requestId]);
    }
    GrowFlights(w.registered, replaced, w.inFlight, request);
    GrowPublished(w.registered, replaced, w.published, w.settled, request);
    RegisterChanges(w, ticket, request);
  }

  lemma KeyAdded(m: map<string, Request>, id: string, request: Request)
    ensures m[id := request].Keys == m.Keys + {id}
    ensures |m[id := request]| == |m| + if id in m then 0 else 1
  {
    assert m[id := request].Keys == m.Keys + {id};
    assert id in m ==> m.Keys + {id} == m.Keys;
  }

  lemma KeyRemoved(m: map<string, Request>, id: string)
    requires id in m
    ensures (m - {id}).Keys == m.Keys - {id}
    ensures |m - {id}| == |m| - 1
  {
    assert (m - {id}).Keys == m.Keys - {id};
  }

  lemma DropWaiting(registered: seq<Request>, stages: seq<Stage>, waiting: map<string, nat>,
                    responders: map<string, Request>, id: string)
    requires WaitingAt(registered, stages, waiting, responders) && id in waiting && waiting[id] < |stages|
    ensures WaitingAt(registered, stages[waiting[id] := InFlight], waiting - {id}, responders - {id})
  {
    assert WaitsUnder(registered, stages, waiting, responders, id);
    KeyRemoved(responders, id);
    CountMove(stages, waiting[id], InFlight, Waiting);
    assert (waiting - {id}).Keys == waiting.Keys - {id};
    forall other | other in waiting && other != id
      ensures WaitsUnder(registered, stages[waiting[id] := InFlight], waiting - {id}, responders - {id}, other)
    {
      assert WaitsUnder(registered, stages, waiting, responders, other);
    }
  }

  lemma AddFlight(registered: seq<Request>, stages: seq<Stage>, inFlight: seq<Flight>, f: Flight)
    requires FlightsAt(registered, stages, inFlight)
    requires f.index < |registered| && stages[f.index] == Waiting && f.request == registered[f.index]
    requires Settles(f.request, Resolve(f.request, f.response))
    ensures FlightsAt(registered, stages[f.index := InFlight], inFlight + [f])
  {
    var moved := stages[f.index := InFlight];
    CountMove(stages, f.index, InFlight, InFlight);
    forall k | 0 <= k < |inFlight|
      ensures inFlight[k].index != f.index && FlightAt(registered, moved, inFlight[k])
    {
      assert FlightAt(registered, stages, inFlight[k]);
    }
    assert FlightAt(registered, moved, f);
  }

  lemma LeaveWaitingKeepsPublished(registered: seq<Request>, stages: seq<Stage>, published: seq<Resolution>,
                                   settled: seq<nat>, i: nat)
    requires PublishedAt(registered, stages, published, settled) && i < |stages| && stages[i] == Waiting
    ensures PublishedAt(registered, stages[i := InFlight], published, settled)
    ensures PublishedAt(registered, stages[i := Displaced], published, settled)
  {
    CountMove(stages, i, InFlight, Published);
    CountMove(stages, i, Displaced, Published);
  }

  lemma ClaimChanges(w: World, response: Response)
    requires Judge(w.broker, response).Ok? && response.requestId in w.waiting
    requires w.waiting[response.requestId] < |w.stages|
    ensures var next := Claimed(w, response, Judge(w.broker, response).value);
            var id, index := response.requestId, w.waiting[response.requestId];
            && next.stages == w.stages[index := InFlight]
            && next.waiting == w.waiting - {id} && next.broker.responders == w.broker.responders - {id}
            && next.inFlight == w.inFlight + [Flight(index, w.broker.responders[id], response)]
            && next.registered == w.registered && next.published == w.published && next.settled == w.settled
    ensures var request := w.broker.responders[response.requestId];
            request.requestId == response.requestId ==> Settles(request, Resolve(request, response))
  {
  }

  lemma ClaimKeepsPlaced(w: World, response: Response)
    requires Placed(w) && Judge(w.broker, response).Ok?
    ensures Placed(Claimed(w, response, Judge(w.broker, response).value))
  {
    var id := response.requestId;
    assert WaitsUnder(w.registered, w.stages, w.waiting, w.broker.responders, id);
    var f := Flight(w.waiting[id], w.broker.responders[id], response);
    ClaimChanges(w, response);
    DropWaiting(w.registered, w.stages, w.waiting, w.broker.responders, id);
    AddFlight(w.registered, w.stages, w.inFlight, f);
    LeaveWaitingKeepsPublished(w.registered, w.stages, w.published, w.settled, f.index);
  }

  lemma LandKeepsFlights(registered: seq<Request>, stages: seq<Stage>, inFlight: seq<Flight>, i: nat, stage: Stage)
    requires FlightsAt(registered, stages, inFlight) && i < |inFlight| && stage in {Published, Lost}
    ensures inFlight[i].index < |stages|
    ensures FlightsAt(registered, stages[inFlight[i].index := stage], Without(inFlight, i))
  {
    var f := inFlight[i];
    assert FlightAt(registered, stages, f);
    var moved, rest := stages[f.index := stage], Without(inFlight, i);
    CountMove(stages, f.index, stage, InFlight);
    forall k | 0 <= k < |rest|
      ensures FlightAt(registered, moved, rest[k])
    {
      var from := if k < i then k else k + 1;
      assert rest[k] == inFlight[from];
      assert FlightAt(registered, stages, inFlight[from]) && inFlight[from].index != f.index;
    }
    WithoutKeepsDistinct(inFlight, i);
  }

  lemma WithoutKeepsDistinct(flights: seq<Flight>, i: nat)
    requires i < |flights|
    requires forall j, k :: 0 <= j < k < |flights| ==> flights[j].index != flights[k].index
    ensures var rest := Without(flights, i);
            forall j, k :: 0 <= j < k < |rest| ==> rest[j].index != rest[k].index
  {
  }

  lemma LandKeepsWaiting(registered: seq<Request>, stages: seq<Stage>, waiting: map<string, nat>,
                         responders: map<string, Request>, i: nat, stage: Stage)
    requires WaitingAt(registered, stages, waiting, responders)
    requires i < |stages| && stages[i] == InFlight && stage in {Published, Lost}
    ensures WaitingAt(registered, stages[i := stage], waiting, responders)
  {
    CountMove(stages, i, stage, Waiting);
    forall id | id in waiting
      ensures WaitsUnder(registered, stages[i := stage], waiting, responders, id)
    {
      assert WaitsUnder(registered, stages, waiting, responders, id);
    }
  }

  lemma AddPublished(registered: seq<Request>, stages: seq<Stage>, published: seq<Resolution>,
                     settled: seq<nat>, i: nat, resolution: Resolution)
    requires PublishedAt(registered, stages, published, settled)
    requires i < |stages| && stages[i] == InFlight && Settles(registered[i], resolution)
    ensures PublishedAt(registered, stages[i := Published], published + [resolution], settled + [i])
    ensures PublishedAt(registered, stages[i := Lost], published, settled)
  {
    CountMove(stages, i, Published, Published);
    CountMove(stages, i, Lost, Published);
  }

  lemma FinishKeepsPlaced(w: World, i: nat, received: bool)
    requires Placed(w) && i < |w.inFlight|
    ensures Placed(Finished(w, i, received))
  {
    var f, stage := w.inFlight[i], if received then Published else Lost;
    assert FlightAt(w.registered, w.stages, f);
    LandKeepsFlights(w.registered, w.stages, w.inFlight, i, stage);
    LandKeepsWaiting(w.registered, w.stages, w.waiting, w.broker.responders, f.index, stage);
    AddPublished(w.registered, w.stages, w.published, w.settled, f.index, Resolve(f.request, f.response));
  }

  /** Every step keeps each registration in exactly one place. */
  lemma PlacedKept(w: World, step: Step)
    requires Placed(w)
    ensures Placed(Next(w, step))
  {
    if step.RegisterStep? && step.ticket in w.pending {
      RegisterKeepsPlaced(w, step.ticket);
    } else if step.BeginStep? && Judge(w.broker, step.response).Ok? {
      ClaimKeepsPlaced(w, step.response);
    } else if step.FinishStep? && step.flight < |w.inFlight| {
      FinishKeepsPlaced(w, step.flight, step.received);
    } else {
      OtherStepsMoveNothing(w, step);
    }
  }

  lemma OtherStepsMoveNothing(w: World, step: Step)
    requires step.RegisterStep? ==> step.ticket !in w.pending
    requires step.BeginStep? ==> Judge(w.broker, step.response).Err?
    requires step.FinishStep? ==> step.flight >= |w.inFlight|
    ensures var next := Next(w, step);
            && next.registered == w.registered && next.stages == w.stages && next.waiting == w.waiting
            && next.inFlight == w.inFlight && next.published == w.published && next.settled == w.settled
            && next.broker.responders == w.broker.responders && next.claims == w.claims
  {
  }

  // ------------------------------------------------------------ displacement

  predicate NothingDisplaced(w: World) {
    Count(w.stages, Displaced) == 0
  }

  /** A registration displaces a waiting one only if their allocations are 2^64 or more apart. */
  lemma NothingDisplacedKept(w: World, step: Step)
    requires Placed(w) && Numbered(w) && NothingDisplaced(w)
    requires step.RegisterStep? && step.ticket in w.pending ==>
               forall id :: id in w.waiting ==> WithinOneWrap(w.origins[w.waiting[id]].ticket, step.ticket)
    ensures NothingDisplaced(Next(w, step))
  {
    if step.RegisterStep? && step.ticket in w.pending {
      FreshId(w, step.ticket);
      CountAppend(w.stages, Waiting, Displaced);
    } else if step.BeginStep? && Judge(w.broker, step.response).Ok? {
      assert WaitsUnder(w.registered, w.stages, w.waiting, w.broker.responders, step.response.requestId);
      CountMove(w.stages, w.waiting[step.response.requestId], InFlight, Displaced);
    } else if step.FinishStep? && step.flight < |w.inFlight| {
      assert FlightAt(w.registered, w.stages, w.inFlight[step.flight]);
      CountMove(w.stages, w.inFlight[step.flight].index, if step.received then Published else Lost, Displaced);
    }
  }

  /** A newly registered id is not waiting, unless the waiting allocation is a wrap away. */
  lemma FreshId(w: World, ticket: nat)
    requires Numbered(w) && WaitingPlaced(w) && ticket in w.pending
    requires forall id :: id in w.waiting ==> WithinOneWrap(w.origins[w.waiting[id]].ticket, ticket)
    ensures MakeRequest(w.broker.process, w.broker.brokerId, SequenceOf(ticket), w.pending[ticket]).requestId
            !in w.waiting
  {
    forall id | id in w.waiting
      ensures id != MakeRequest(w.broker.process, w.broker.brokerId, SequenceOf(ticket), w.pending[ticket]).requestId
    {
      assert WaitsUnder(w.registered, w.stages, w.waiting, w.broker.responders, id);
      OriginsNameApart(w.broker.process, w.broker.brokerId,
                       w.origins[w.waiting[id]], Origin(ticket, w.pending[ticket]));
    }
  }

  predicate SameName(a: Origin, b: Origin) {
    SequenceOf(a.ticket) == SequenceOf(b.ticket) && Shown(a.call.callId) == Shown(b.call.callId)
  }

  predicate NamesAWaitingCall(w: World, origin: Origin) {
    exists id :: id in w.waiting && w.waiting[id] < |w.origins| && SameName(w.origins[w.waiting[id]], origin)
  }

  lemma WaitingUnderNameIff(w: World, origin: Origin)
    requires Numbered(w) && WaitingPlaced(w)
    ensures MakeRequest(w.broker.process, w.broker.brokerId, SequenceOf(origin.ticket), origin.call).requestId
            in w.waiting
            <==> NamesAWaitingCall(w, origin)
  {
    var p, b := w.broker.process, w.broker.brokerId;
    var mine := MakeRequest(p, b, SequenceOf(origin.ticket), origin.call).requestId;
    forall id | id in w.waiting
      ensures w.waiting[id] < |w.origins| && (id == mine <==> SameName(w.origins[w.waiting[id]], origin))
    {
      assert WaitsUnder(w.registered, w.stages, w.waiting, w.broker.responders, id);
      var other := w.origins[w.waiting[id]];
      FormatInjective(Parts(p, b, SequenceOf(other.ticket), other.call.callId),
                      Parts(p, b, SequenceOf(origin.ticket), origin.call.callId));
    }
  }

  /** A registration displaces a waiting one exactly when sequence number and call id coincide. */
  lemma DisplacesIff(w: World, ticket: nat)
    requires Numbered(w) && Placed(w) && ticket in w.pending
    ensures Count(Next(w, RegisterStep(ticket)).stages, Displaced)
            == Count(w.stages, Displaced)
               + if NamesAWaitingCall(w, Origin(ticket, w.pending[ticket])) then 1 else 0
  {
    var request := MakeRequest(w.broker.process, w.broker.brokerId, SequenceOf(ticket), w.pending[ticket]);
    WaitingUnderNameIff(w, Origin(ticket, w.pending[ticket]));
    RegisterChanges(w, ticket, request);
    if request.requestId in w.waiting {
      assert WaitsUnder(w.registered, w.stages, w.waiting, w.broker.responders, request.requestId);
      CountMove(w.stages, w.waiting[request.requestId], Displaced, Displaced);
    }
    CountAppend(Replaced(w.stages, w.waiting, request.requestId), Waiting, Displaced);
  }

  // ------------------------------------------------------------ order

  function RequestsOf(events: seq<Event>): seq<Request> {
    if events == [] then []
    else
      RequestsOf(events[..|events| - 1])
      + if events[|events| - 1].Requested? then [events[|events| - 1].request] else []
  }

  function ResolutionsOf(events: seq<Event>): seq<Resolution> {
    if events == [] then []
    else
      ResolutionsOf(events[..|events| - 1])
      + if events[|events| - 1].Resolved? then [events[|events| - 1].resolution] else []
  }

  /** Requests leave in the order they were registered, resolutions in the order published. */
  predicate InOrder(w: World) {
    && RequestsOf(w.departures) + w.broker.queued == w.registered
    && ResolutionsOf(w.departures) + w.broker.resolved == w.published
  }

  lemma QueueFront<T>(left: seq<T>, queue: seq<T>)
    requires queue != []
    ensures (left + [queue[0]]) + queue[1..] == left + queue
  {
  }

  lemma QueueBack<T>(left: seq<T>, queue: seq<T>, item: T)
    ensures left + (queue + [item]) == (left + queue) + [item]
  {
  }

  lemma Depart(events: seq<Event>, e: Event)
    ensures RequestsOf(events + [e]) == if e.Requested? then RequestsOf(events) + [e.request] else RequestsOf(events)
    ensures ResolutionsOf(events + [e])
            == if e.Resolved? then ResolutionsOf(events) + [e.resolution] else ResolutionsOf(events)
  {
    assert (events + [e])[..|events|] == events;
  }

  lemma InOrderKept(w: World, step: Step)
    requires InOrder(w)
    ensures InOrder(Next(w, step))
  {
    if step.NextRequestStep? || (step.NextEventStep? && w.broker.queued != []) {
      TakingARequestKeepsOrder(w, step);
    } else if step.NextEventStep? {
      TakingAResolutionKeepsOrder(w, step);
    } else if step.RegisterStep? && step.ticket in w.pending {
      QueueBack(RequestsOf(w.departures), w.broker.queued,
                MakeRequest(w.broker.process, w.broker.brokerId, SequenceOf(step.ticket), w.pending[step.ticket]));
    } else if step.FinishStep? && step.flight < |w.inFlight| && step.received {
      var flight := w.inFlight[step.flight];
      QueueBack(ResolutionsOf(w.departures), w.broker.resolved, Resolve(flight.request, flight.response));
    }
  }

  lemma TakingARequestKeepsOrder(w: World, step: Step)
    requires InOrder(w) && (step.NextRequestStep? || (step.NextEventStep? && w.broker.queued != []))
    ensures InOrder(Next(w, step))
  {
    if w.broker.queued != [] {
      QueueFront(RequestsOf(w.departures), w.broker.queued);
      Depart(w.departures, Requested(w.broker.queued[0]));
    }
  }

  lemma TakingAResolutionKeepsOrder(w: World, step: Step)
    requires InOrder(w) && step.NextEventStep? && w.broker.queued == []
    ensures InOrder(Next(w, step))
  {
    if w.broker.resolved != [] {
      QueueFront(ResolutionsOf(w.departures), w.broker.resolved);
      Depart(w.departures, Resolved(w.broker.resolved[0]));
    }
  }

  /** A resolution only leaves after its request has. */
  predicate RequestedFirst(events: seq<Event>) {
    forall k :: 0 <= k < |events| && events[k].Resolved? ==> RequestedBefore(events, k, events[k].resolution.requestId)
  }

  predicate RequestedBefore(events: seq<Event>, k: nat, id: string)
    requires k <= |events|
  {
    exists j :: 0 <= j < k && events[j].Requested? && events[j].request.requestId == id
  }

  lemma {:induction false} RequestsOfCame(events: seq<Event>, i: nat) returns (j: nat)
    requires i < |RequestsOf(events)|
    ensures j < |events| && events[j] == Requested(RequestsOf(events)[i])
  {
    var last := |events| - 1;
    if i < |RequestsOf(events[..last])| {
      j := RequestsOfCame(events[..last], i);
    } else {
      j := last;
    }
  }

  /** When a resolution is handed out the queue is empty, so its request has left. */
  lemma ResolvedAfterRequested(w: World)
    requires InOrder(w) && Placed(w) && w.broker.queued == [] && w.broker.resolved != []
    ensures RequestedBefore(w.departures, |w.departures|, w.broker.resolved[0].requestId)
  {
    var id := w.broker.resolved[0].requestId;
    var at := |ResolutionsOf(w.departures)|;
    assert w.published[at] == w.broker.resolved[0];
    assert Settles(w.registered[w.settled[at]], w.published[at]);
    assert RequestsOf(w.departures) == w.registered;
    var j := RequestsOfCame(w.departures, w.settled[at]);
  }

  lemma DepartureAppends(w: World, step: Step) returns (e: Option<Event>)
    ensures Next(w, step).departures == if e.Some? then w.departures + [e.value] else w.departures
    ensures e.Some? && e.value.Resolved? ==>
              w.broker.queued == [] && w.broker.resolved != [] && e.value.resolution == w.broker.resolved[0]
  {
    if step.NextEventStep? {
      e := PeekEvent(w.broker);
    } else if step.NextRequestStep? && w.broker.queued != [] {
      e := Some(Requested(w.broker.queued[0]));
    } else {
      e := None;
    }
  }

  lemma RequestedFirstGrows(events: seq<Event>, e: Event)
    requires RequestedFirst(events)
    requires e.Resolved? ==> RequestedBefore(events, |events|, e.resolution.requestId)
    ensures RequestedFirst(events + [e])
  {
    var grown := events + [e];
    forall k | 0 <= k < |grown| && grown[k].Resolved?
      ensures RequestedBefore(grown, k, grown[k].resolution.requestId)
    {
      var id := grown[k].resolution.requestId;
      assert RequestedBefore(events, k, id);
      var j :| 0 <= j < k && events[j].Requested? && events[j].request.requestId == id;
      assert grown[j] == events[j];
    }
  }

  lemma RequestedFirstKept(w: World, step: Step)
    requires InOrder(w) && Placed(w) && RequestedFirst(w.departures)
    ensures RequestedFirst(Next(w, step).departures)
  {
    var e := DepartureAppends(w, step);
    if e.Some? {
      if e.value.Resolved? {
        ResolvedAfterRequested(w);
      }
      RequestedFirstGrows(w.departures, e.value);
    }
  }

  // ------------------------------------------------------------ what was answered

  /** The resolution passes on what the client answered, and decides what the client decided. */
  predicate PassesOn(r: Resolution, answer: Response) {
    && r.requestId == answer.requestId && r.grantScope == answer.grantScope && r.reason == answer.reason
    && (r.outcome == Approved <==> answer.decision == Approve)
    && (r.outcome == Denied <==> answer.decision == Deny)
  }

  predicate ClaimsPlaced(stages: seq<Stage>, claims: map<nat, Response>) {
    forall i :: i in claims ==> i < |stages| && stages[i] in {InFlight, Published, Lost}
  }

  predicate FlightsClaimed(claims: map<nat, Response>, inFlight: seq<Flight>) {
    forall k :: 0 <= k < |inFlight| ==>
      inFlight[k].index in claims && claims[inFlight[k].index] == inFlight[k].response
      && inFlight[k].request.requestId == inFlight[k].response.requestId
  }

  predicate PublishedClaimed(claims: map<nat, Response>, published: seq<Resolution>, settled: seq<nat>) {
    && |settled| == |published|
    && (forall k :: 0 <= k < |settled| ==> settled[k] in claims && PassesOn(published[k], claims[settled[k]]))
  }

  predicate Claims(w: World) {
    && ClaimsPlaced(w.stages, w.claims) && FlightsClaimed(w.claims, w.inFlight)
    && PublishedClaimed(w.claims, w.published, w.settled)
  }

  lemma ClaimKeepsClaims(w: World, response: Response)
    requires Placed(w) && Claims(w) && Judge(w.broker, response).Ok?
    ensures var next := Claimed(w, response, Judge(w.broker, response).value);
            Claims(next) && (forall i :: i in w.claims ==> i in next.claims && next.claims[i] == w.claims[i])
  {
    ghost var id := response.requestId;
    assert WaitsUnder(w.registered, w.stages, w.waiting, w.broker.responders, id);
    ClaimChanges(w, response);
    assert w.waiting[id] !in w.claims;
  }

  lemma FinishKeepsClaims(w: World, i: nat, received: bool)
    requires Placed(w) && Claims(w) && i < |w.inFlight|
    ensures Claims(Finished(w, i, received)) && Finished(w, i, received).claims == w.claims
  {
    assert FlightAt(w.registered, w.stages, w.inFlight[i]);
  }

  lemma RegisterKeepsClaims(w: World, ticket: nat)
    requires Placed(w) && Claims(w) && ticket in w.pending
    ensures var next := Registered(w, ticket, w.pending[ticket]); Claims(next) && next.claims == w.claims
  {
    ghost var request := MakeRequest(w.broker.process, w.broker.brokerId, SequenceOf(ticket), w.pending[ticket]);
    RegisterChanges(w, ticket, request);
    if request.requestId in w.waiting {
      assert WaitsUnder(w.registered, w.stages, w.waiting, w.broker.responders, request.requestId);
    }
  }

  /** An accepted answer stays the one its registration was claimed by. */
  lemma ClaimsKept(w: World, step: Step)
    requires Placed(w) && Claims(w)
    ensures var next := Next(w, step);
            Claims(next) && (forall i :: i in w.claims ==> i in next.claims && next.claims[i] == w.claims[i])
  {
    if step.RegisterStep? && step.ticket in w.pending {
      RegisterKeepsClaims(w, step.ticket);
    } else if step.BeginStep? && Judge(w.broker, step.response).Ok? {
      ClaimKeepsClaims(w, step.response);
    } else if step.FinishStep? && step.flight < |w.inFlight| {
      FinishKeepsClaims(w, step.flight, step.received);
    } else {
      OtherStepsMoveNothing(w, step);
    }
  }

  // ------------------------------------------------------------ the whole run

  predicate Invariant(w: World) {
    && Numbered(w) && w.broker.nextId == SequenceOf(w.tickets)
    && Placed(w) && Claims(w) && InOrder(w) && RequestedFirst(w.departures)
  }

  lemma NextKeepsInvariant(w: World, step: Step)
    requires Invariant(w)
    ensures Invariant(Next(w, step))
  {
    NumberedKept(w, step);
    CounterFollowsTickets(w, step);
    PlacedKept(w, step);
    ClaimsKept(w, step);
    InOrderKept(w, step);
    RequestedFirstKept(w, step);
  }

  lemma InitialInvariant(process: nat, brokerId: nat)
    ensures Invariant(Initial(process, brokerId))
  {
  }

  lemma {:induction false} RunKeepsInvariant(process: nat, brokerId: nat, steps: seq<Step>)
    ensures Invariant(Run(Initial(process, brokerId), steps))
  {
    if steps == [] {
      InitialInvariant(process, brokerId);
    } else {
      RunKeepsInvariant(process, brokerId, steps[..|steps| - 1]);
      NextKeepsInvariant(Run(Initial(process, brokerId), steps[..|steps| - 1]), steps[|steps| - 1]);
    }
  }

  /**
   In every interleaving of registrations, answers and consumers, however often the counter
   wraps: each registration is resolved at most once; requests leave in registration order and
   before their resolutions; registered = waiting + in flight + published + lost + displaced.
   */
  lemma ApprovalRunIsSafe(process: nat, brokerId: nat, steps: seq<Step>)
    ensures var w := Run(Initial(process, brokerId), steps);
            && |w.settled| == |w.published| && Distinct(w.settled)
            && (forall k :: 0 <= k < |w.settled| ==>
                  w.settled[k] < |w.registered| && Settles(w.registered[w.settled[k]], w.published[k]))
            && RequestsOf(w.departures) <= w.registered
            && ResolutionsOf(w.departures) <= w.published
            && RequestedFirst(w.departures)
            && |w.registered| == |w.broker.responders| + |w.inFlight| + |w.published|
                                 + Count(w.stages, Lost) + Count(w.stages, Displaced)
  {
    RunKeepsInvariant(process, brokerId, steps);
    CountAll(Run(Initial(process, brokerId), steps).stages);
  }

  /** Whenever a call registers, every waiting one was allocated less than 2^64 allocations away. */
  predicate NeverAWrapAway(w: World, steps: seq<Step>) {
    steps == []
    || (var before, step := Run(w, steps[..|steps| - 1]), steps[|steps| - 1];
        && NeverAWrapAway(w, steps[..|steps| - 1])
        && (step.RegisterStep? ==>
              forall id :: id in before.waiting && before.waiting[id] < |before.origins| ==>
                WithinOneWrap(before.origins[before.waiting[id]].ticket, step.ticket)))
  }

  /** No waiting request is displaced unless a waiting call and a later one are a wrap apart. */
  lemma {:induction false} NothingIsDisplaced(process: nat, brokerId: nat, steps: seq<Step>)
    requires NeverAWrapAway(Initial(process, brokerId), steps)
    ensures NothingDisplaced(Run(Initial(process, brokerId), steps))
  {
    if steps != [] {
      var before := steps[..|steps| - 1];
      NothingIsDisplaced(process, brokerId, before);
      RunKeepsInvariant(process, brokerId, before);
      NothingDisplacedKept(Run(Initial(process, brokerId), before), steps[|steps| - 1]);
    }
  }

  /** Resolutions of calls less than 2^64 allocations apart also differ in their request id. */
  lemma ResolvedIdsDiffer(process: nat, brokerId: nat, steps: seq<Step>, j: nat, k: nat)
    requires var w := Run(Initial(process, brokerId), steps);
             && j < k < |w.published| && |w.settled| == |w.published| && |w.origins| == |w.registered|
             && w.settled[j] < |w.origins| && w.settled[k] < |w.origins|
             && WithinOneWrap(w.origins[w.settled[j]].ticket, w.origins[w.settled[k]].ticket)
    ensures var w := Run(Initial(process, brokerId), steps);
            w.published[j].requestId != w.published[k].requestId
  {
    var w := Run(Initial(process, brokerId), steps);
    RunKeepsInvariant(process, brokerId, steps);
    assert w.settled[j] != w.settled[k];
    if w.settled[j] < w.settled[k] {
      RegisteredApart(w, w.settled[j], w.settled[k]);
    } else {
      RegisteredApart(w, w.settled[k], w.settled[j]);
    }
    assert Settles(w.registered[w.settled[j]], w.published[j]);
    assert Settles(w.registered[w.settled[k]], w.published[k]);
  }

  /**
   In every interleaving a published resolution has exactly the scope, decision and reason of the
   one answer that claimed its registration, which the broker accepted while the request waited:
   no resolution grants more than the client chose.
   */
  lemma ResolutionPassesOnItsAnswer(process: nat, brokerId: nat, steps: seq<Step>, k: nat)
    requires k < |Run(Initial(process, brokerId), steps).published|
    ensures var w := Run(Initial(process, brokerId), steps);
            && k < |w.settled| && w.settled[k] in w.claims
            && PassesOn(w.published[k], w.claims[w.settled[k]])
  {
    RunKeepsInvariant(process, brokerId, steps);
  }

  /** An answer recorded for a registration was given in one step, and was accepted there. */
  lemma {:induction false} ClaimWasAccepted(process: nat, brokerId: nat, steps: seq<Step>, i: nat)
    returns (k: nat)
    requires i in Run(Initial(process, brokerId), steps).claims
    ensures k < |steps|
    ensures var before, claim := Run(Initial(process, brokerId), steps[..k]), steps[k];
            && claim.BeginStep? && claim.response == Run(Initial(process, brokerId), steps).claims[i]
            && Judge(before.broker, claim.response).Ok?
            && claim.response.requestId in before.waiting && before.waiting[claim.response.requestId] == i
  {
    var n := |steps| - 1;
    var w := Run(Initial(process, brokerId), steps[..n]);
    RunKeepsInvariant(process, brokerId, steps[..n]);
    if i in w.claims {
      ClaimsKept(w, steps[n]);
      k := ClaimWasAccepted(process, brokerId, steps[..n], i);
      assert steps[..n][..k] == steps[..k];
    } else {
      k := n;
      NewClaim(w, steps[n], i);
    }
  }

  lemma NewClaim(w: World, step: Step, i: nat)
    requires Placed(w) && i !in w.claims && i in Next(w, step).claims
    ensures step.BeginStep? && Judge(w.broker, step.response).Ok? && Next(w, step).claims[i] == step.response
    ensures step.response.requestId in w.waiting && w.waiting[step.response.requestId] == i
  {
    if step.BeginStep? && Judge(w.broker, step.response).Ok? {
      assert WaitsUnder(w.registered, w.stages, w.waiting, w.broker.responders, step.response.requestId);
    }
  }

  /** What a registered call's answer may grant: this once, or more only for a call with a grant key. */
  lemma OfferedScopes(b: Broker, sequence: nat, call: ToolCall, r: Response)
    requires r.requestId == Format(b.process, b.brokerId, sequence, call.callId)
    ensures Judge(Register(b, MakeRequest(b.process, b.brokerId, sequence, call)), r).Ok?
            <==> if r.decision == Deny then r.grantScope.None?
                 else
                   || r.grantScope == Some(Once)
                   || (call.grantKey.Some? && r.grantScope in {Some(Session), Some(Project)})
  {
  }

  /** A published resolution names its tool call, and grants nothing the call did not offer. */
  lemma ResolutionNamesItsCall(process: nat, brokerId: nat, steps: seq<Step>, k: nat)
    requires k < |Run(Initial(process, brokerId), steps).published|
    ensures var w := Run(Initial(process, brokerId), steps);
            && k < |w.settled| && w.settled[k] < |w.origins|
            && var r, origin := w.published[k], w.origins[w.settled[k]];
            var call := origin.call;
            && r.requestId == Format(process, brokerId, SequenceOf(origin.ticket), call.callId)
            && r.details.action == call.action && r.details.toolName == call.toolName
            && r.details.callId == call.callId && r.details.threadId == call.threadId
            && r.details.turnId == call.turnId && r.details.sessionId == call.sessionId
            && r.details.projectId == call.projectId && r.details.workspaceId == call.workspaceId
            && r.details.workspaceRevision == call.workspaceRevision
            && r.details.actionSummary == (if call.actionSummary.Some? then call.actionSummary.value else call.action)
            && r.details.actionClass == (if call.toolName.Some? then call.toolName.value else "tool_action")
            && (r.outcome == Approved <==> r.grantScope.Some?)
            && (r.grantScope.Some? && r.grantScope.value != Once ==> call.grantKey.Some?)
  {
    var w := Run(Initial(process, brokerId), steps);
    RunKeepsInvariant(process, brokerId, steps);
    RunKeepsIdentity(process, brokerId, steps);
    assert Settles(w.registered[w.settled[k]], w.published[k]);
  }

  lemma {:induction false} RunKeepsIdentity(process: nat, brokerId: nat, steps: seq<Step>)
    ensures var b := Run(Initial(process, brokerId), steps).broker; b.process == process && b.brokerId == brokerId
  {
    if steps != [] {
      RunKeepsIdentity(process, brokerId, steps[..|steps| - 1]);
      NextKeepsIdentity(Run(Initial(process, brokerId), steps[..|steps| - 1]), steps[|steps| - 1]);
    }
  }

  lemma NextKeepsIdentity(w: World, step: Step)
    ensures Next(w, step).broker.process == w.broker.process
    ensures Next(w, step).broker.brokerId == w.broker.brokerId
  {
  }

  /** An answer is taken exactly when its request waits and the scope fits the decision. */
  lemma AnswerIsTakenIff(b: Broker, r: Response)
    ensures Judge(b, r).Ok? <==>
            && r.requestId in b.responders
            && (if r.decision == Approve then
                  exists s :: r.grantScope == Some(s) && s in b.responders[r.requestId].allowedScopes
                else r.grantScope.None?)
    ensures Judge(b, r).Ok? ==> Judge(Claim(b, r), r) == Err(UnknownRequest)
  {
  }
}
