/**
 Client-facing items, projected from live Core events and from persisted
 messages. Events that project to nothing are one constructor here.
 */
module ThreadItems {
  import opened Arguments
  import opened Decimals
  import opened Text
  import opened Wrappers

  const MAX_ITEM_TEXT_BYTES: nat := 16 * 1024
  const MAX_PROJECTED_ITEMS: nat := 256

  datatype ItemStatus = InProgress | Completed | Failed

  datatype ToolOutcome = OutcomeCompleted | OutcomeFailed | NeedsApproval | Deferred | Retryable

  datatype ThreadItem =
    | UserMessage(id: string, text: string)
    | AgentMessage(id: string, text: string)
    | Reasoning(id: string, text: string)
    | ToolCall(id: string, name: string, arguments: Json, status: ItemStatus,
               outcome: Option<ToolOutcome>, output: Option<string>)
    | ContextCompaction(id: string, status: ItemStatus)

  datatype ModelToolCall = ModelToolCall(id: string, name: string, arguments: Json)

  datatype Event =
    | TurnStarted(prompt: string)
    | ModelResponded(reasoning: string, text: string, toolCalls: seq<ModelToolCall>)
    | ToolStarted(call: ModelToolCall)
    | ToolFinished(callId: string, name: string, arguments: Json, content: string,
                   isError: bool, outcome: Option<ToolOutcome>)
    | ContextCompactionStarted
    | ContextCompactionFinished
    | Unprojected

  datatype Envelope =
    Envelope(turnId: Option<string>, sequence: nat, itemId: Option<string>, event: Event)

  datatype Message =
    | User(text: string)
    | Assistant(reasoning: string, text: string, toolCalls: seq<ModelToolCall>)
    | Tool(callId: string, name: string, content: string, isError: bool, outcome: Option<ToolOutcome>)
    | Context(text: string)

  function BoundText(text: string): string {
    BoundTextTo(text, MAX_ITEM_TEXT_BYTES)
  }

  function ToolItem(call: ModelToolCall, status: ItemStatus): ThreadItem {
    ToolCall(call.id, call.name, ProjectArguments(call.arguments), status, None, None)
  }

  function ToolItems(calls: seq<ModelToolCall>, status: ItemStatus): seq<ThreadItem> {
    seq(|calls|, i requires 0 <= i < |calls| => ToolItem(calls[i], status))
  }

  function TextItems(id: string, reasoning: string, text: string): seq<ThreadItem> {
    (if reasoning == "" then [] else [Reasoning(id + ":reasoning", BoundText(reasoning))])
    + (if text == "" then [] else [AgentMessage(id + ":agent", BoundText(text))])
  }

  function AssistantItems(id: string, reasoning: string, text: string,
                          calls: seq<ModelToolCall>, status: ItemStatus): seq<ThreadItem> {
    TextItems(id, reasoning, text) + ToolItems(calls, status)
  }

  /** The vector the program pushes to and extends. */
  method BuildAssistantItems(id: string, reasoning: string, text: string,
                             calls: seq<ModelToolCall>, status: ItemStatus)
    returns (items: seq<ThreadItem>)
    ensures items == AssistantItems(id, reasoning, text, calls, status)
  {
    items := [];
    if reasoning != "" {
      items := items + [Reasoning(id + ":reasoning", BoundText(reasoning))];
    }
    if text != "" {
      items := items + [AgentMessage(id + ":agent", BoundText(text))];
    }
    items := items + ToolItems(calls, status);
  }

  function StatusOf(isError: bool): ItemStatus {
    if isError then Failed else Completed
  }

  function TurnPrefix(envelope: Envelope): string {
    if envelope.turnId.Some? then envelope.turnId.value else "event-" + Decimal(envelope.sequence)
  }

  function ItemIdOr(envelope: Envelope, fallback: string): string {
    if envelope.itemId.Some? then envelope.itemId.value else fallback
  }

  function FromEvent(envelope: Envelope): seq<ThreadItem> {
    var prefix := TurnPrefix(envelope);
    match envelope.event
    case TurnStarted(prompt) => [UserMessage(prefix + ":user", BoundText(prompt))]
    case ModelResponded(reasoning, text, calls) =>
      AssistantItems(ItemIdOr(envelope, prefix + ":" + Decimal(envelope.sequence)),
                     reasoning, text, calls, InProgress)
    case ToolStarted(call) => [ToolItem(call, InProgress)]
    case ToolFinished(callId, name, arguments, content, isError, outcome) =>
      [ToolCall(callId, name, ProjectArguments(arguments), StatusOf(isError), outcome,
                Some(BoundText(content)))]
    case ContextCompactionStarted => [ContextCompaction(ItemIdOr(envelope, prefix + ":compaction"), InProgress)]
    case ContextCompactionFinished => [ContextCompaction(ItemIdOr(envelope, prefix + ":compaction"), Completed)]
    case Unprojected => []
  }

  function WithoutTools(items: seq<ThreadItem>): seq<ThreadItem> {
    if items == [] then []
    else if items[0].ToolCall? then WithoutTools(items[1..])
    else [items[0]] + WithoutTools(items[1..])
  }

  function StartedFromEvent(envelope: Envelope): seq<ThreadItem> {
    match envelope.event
    case TurnStarted(_) => FromEvent(envelope)
    case ToolStarted(_) => FromEvent(envelope)
    case ContextCompactionStarted => FromEvent(envelope)
    case ModelResponded(_, _, _) => WithoutTools(FromEvent(envelope))
    case _ => []
  }

  function CompletedFromEvent(envelope: Envelope): seq<ThreadItem> {
    match envelope.event
    case TurnStarted(_) => FromEvent(envelope)
    case ToolFinished(_, _, _, _, _, _) => FromEvent(envelope)
    case ContextCompactionFinished => FromEvent(envelope)
    case ModelResponded(_, _, _) => WithoutTools(FromEvent(envelope))
    case _ => []
  }

  function FromMessage(message: Message, id: string, persistedArguments: Option<Json>): seq<ThreadItem> {
    match message
    case User(text) => [UserMessage(id, BoundText(text))]
    case Assistant(reasoning, text, calls) => AssistantItems(id, reasoning, text, calls, Completed)
    case Tool(callId, name, content, isError, outcome) =>
      [ToolCall(callId, name,
                if persistedArguments.Some? then ProjectArguments(persistedArguments.value) else Json.Null,
                StatusOf(isError), outcome, Some(BoundText(content)))]
    case Context(_) => [ContextCompaction(id, Completed)]
  }

  // ------------------------------------------------ what an item shows

  /** A text as an item shows it: whole up to 16 KiB, else cut. */
  ghost predicate IsShownText(shown: string, text: string) {
    IsCutOf(shown, text, 16384)
  }

  /** The item of a call without a result yet. */
  predicate IsCallItem(item: ThreadItem, call: ModelToolCall, status: ItemStatus) {
    && item.ToolCall? && item.id == call.id && item.name == call.name && item.status == status
    && item.arguments == ProjectArguments(call.arguments) && item.outcome.None? && item.output.None?
  }

  /** The item of a finished call: it failed exactly when its result is an error. */
  ghost predicate IsResultItem(item: ThreadItem, callId: string, name: string, content: string, isError: bool,
                               outcome: Option<ToolOutcome>)
  {
    && item.ToolCall? && item.id == callId && item.name == name && item.outcome == outcome
    && (isError ==> item.status == Failed) && (!isError ==> item.status == Completed)
    && item.output.Some? && IsShownText(item.output.value, content)
  }

  /** First the reasoning, then the text, each only if there is one. */
  ghost predicate BeginsWithTexts(items: seq<ThreadItem>, id: string, reasoning: string, text: string) {
    var r, t := if reasoning == "" then 0 else 1, if text == "" then 0 else 1;
    && |items| >= r + t
    && (r == 1 ==> items[0].Reasoning? && items[0].id == id + ":reasoning" && IsShownText(items[0].text, reasoning))
    && (t == 1 ==> items[r].AgentMessage? && items[r].id == id + ":agent" && IsShownText(items[r].text, text))
  }

  /** The last items are those of the calls, in order. */
  predicate EndsWithCalls(items: seq<ThreadItem>, calls: seq<ModelToolCall>, status: ItemStatus) {
    && |items| >= |calls|
    && (forall i :: 0 <= i < |calls| ==> IsCallItem(items[|items| - |calls| + i], calls[i], status))
  }

  /** A response shows its reasoning, then its text, then its calls in order, and nothing else. */
  lemma ResponseIsShown(id: string, reasoning: string, text: string, calls: seq<ModelToolCall>, status: ItemStatus)
    ensures var items := AssistantItems(id, reasoning, text, calls, status);
            && BeginsWithTexts(items, id, reasoning, text) && EndsWithCalls(items, calls, status)
            && |items| == (if reasoning == "" then 0 else 1) + (if text == "" then 0 else 1) + |calls|
  {
    ghost var texts, tools := TextItems(id, reasoning, text), ToolItems(calls, status);
    TextsAreShown(id, reasoning, text);
    TextsStayFirst(texts, tools, id, reasoning, text);
    CallsStayLast(texts, tools, calls, status);
  }

  lemma TextsAreShown(id: string, reasoning: string, text: string)
    ensures var items := TextItems(id, reasoning, text);
            && BeginsWithTexts(items, id, reasoning, text)
            && |items| == (if reasoning == "" then 0 else 1) + (if text == "" then 0 else 1)
  {
    BoundTextIsCut(reasoning, MAX_ITEM_TEXT_BYTES);
    BoundTextIsCut(text, MAX_ITEM_TEXT_BYTES);
  }

  lemma TextsStayFirst(texts: seq<ThreadItem>, tools: seq<ThreadItem>, id: string, reasoning: string, text: string)
    requires BeginsWithTexts(texts, id, reasoning, text)
    ensures BeginsWithTexts(texts + tools, id, reasoning, text)
  {
  }

  lemma CallsStayLast(texts: seq<ThreadItem>, tools: seq<ThreadItem>, calls: seq<ModelToolCall>, status: ItemStatus)
    requires tools == ToolItems(calls, status)
    ensures EndsWithCalls(texts + tools, calls, status)
  {
  }

  /** What each live event shows, under which id. */
  lemma EventIsShown(envelope: Envelope)
    ensures var prefix := if envelope.turnId.Some? then envelope.turnId.value
                          else "event-" + Decimal(envelope.sequence);
            var items := FromEvent(envelope);
            match envelope.event
            case TurnStarted(prompt) =>
              |items| == 1 && items[0].UserMessage? && items[0].id == prefix + ":user"
              && IsShownText(items[0].text, prompt)
            case ModelResponded(reasoning, text, calls) =>
              items == AssistantItems(if envelope.itemId.Some? then envelope.itemId.value
                                      else prefix + ":" + Decimal(envelope.sequence),
                                      reasoning, text, calls, InProgress)
            case ToolStarted(call) => |items| == 1 && IsCallItem(items[0], call, InProgress)
            case ToolFinished(callId, name, arguments, content, isError, outcome) =>
              |items| == 1 && IsResultItem(items[0], callId, name, content, isError, outcome)
              && items[0].arguments == ProjectArguments(arguments)
            case ContextCompactionStarted =>
              |items| == 1 && items[0].ContextCompaction? && items[0].status == InProgress
              && items[0].id == if envelope.itemId.Some? then envelope.itemId.value else prefix + ":compaction"
            case ContextCompactionFinished =>
              |items| == 1 && items[0].ContextCompaction? && items[0].status == Completed
              && items[0].id == if envelope.itemId.Some? then envelope.itemId.value else prefix + ":compaction"
            case Unprojected => items == []
  {
    match envelope.event
    case TurnStarted(prompt) => BoundTextIsCut(prompt, MAX_ITEM_TEXT_BYTES);
    case ToolFinished(_, _, _, content, _, _) => BoundTextIsCut(content, MAX_ITEM_TEXT_BYTES);
    case _ =>
  }

  /** What each persisted message shows; a result without captured arguments shows null ones. */
  lemma MessageIsShown(message: Message, id: string, persisted: Option<Json>)
    ensures var items := FromMessage(message, id, persisted);
            match message
            case User(text) => |items| == 1 && items[0].UserMessage? && items[0].id == id
                               && IsShownText(items[0].text, text)
            case Assistant(reasoning, text, calls) => items == AssistantItems(id, reasoning, text, calls, Completed)
            case Tool(callId, name, content, isError, outcome) =>
              |items| == 1 && IsResultItem(items[0], callId, name, content, isError, outcome)
              && (persisted.Some? ==> items[0].arguments == ProjectArguments(persisted.value))
              && (persisted.None? ==> items[0].arguments.Null?)
            case Context(_) => items == [ContextCompaction(id, Completed)]
  {
    match message
    case User(text) => BoundTextIsCut(text, MAX_ITEM_TEXT_BYTES);
    case Tool(_, _, content, _, _) => BoundTextIsCut(content, MAX_ITEM_TEXT_BYTES);
    case _ =>
  }

  // ------------------------------------------------ live and persisted agree

  /** What a finished tool call leaves in the persisted message history. */
  function SettledMessage(event: Event): Message
    requires event.ToolFinished?
  {
    Tool(event.callId, event.name, event.content, event.isError, event.outcome)
  }

  lemma ToolFinishedAgreesIff(envelope: Envelope, id: string, persisted: Option<Json>)
    requires envelope.event.ToolFinished?
    ensures FromEvent(envelope) == FromMessage(SettledMessage(envelope.event), id, persisted)
            <==> ProjectArguments(envelope.event.arguments)
                 == if persisted.Some? then ProjectArguments(persisted.value) else Json.Null
  {
    var live := FromEvent(envelope)[0];
    var settled := FromMessage(SettledMessage(envelope.event), id, persisted)[0];
    if live.arguments == settled.arguments {
      assert live == settled;
    } else {
      assert FromEvent(envelope)[0] != FromMessage(SettledMessage(envelope.event), id, persisted)[0];
    }
  }

  /**
   Arguments captured already projected give the live item back. Without captured
   arguments the two agree only for a call whose arguments were null.
   */
  lemma LiveAndPersistedAgree(envelope: Envelope, id: string)
    requires envelope.event.ToolFinished? && IsMachineSized(envelope.event.arguments)
    ensures FromEvent(envelope)
            == FromMessage(SettledMessage(envelope.event), id,
                           Some(ProjectArguments(envelope.event.arguments)))
    ensures FromEvent(envelope) == FromMessage(SettledMessage(envelope.event), id, None)
            <==> envelope.event.arguments.Null?
  {
    var arguments := envelope.event.arguments;
    ProjectArgumentsIdempotent(arguments);
    ToolFinishedAgreesIff(envelope, id, Some(ProjectArguments(arguments)));
    ToolFinishedAgreesIff(envelope, id, None);
    NullIffProjectedNull(arguments);
  }

  lemma NullIffProjectedNull(arguments: Json)
    ensures ProjectArguments(arguments) == Json.Null <==> arguments.Null?
  {
    Utf8LenAscii("null");
  }

  lemma {:induction false} WithoutToolsConcat(a: seq<ThreadItem>, b: seq<ThreadItem>)
    ensures WithoutTools(a + b) == WithoutTools(a) + WithoutTools(b)
  {
    if a == [] {
      assert a + b == b;
    } else {
      assert (a + b)[1..] == a[1..] + b;
      WithoutToolsConcat(a[1..], b);
    }
  }

  lemma {:induction false} WithoutToolsOfTools(items: seq<ThreadItem>)
    requires forall i :: 0 <= i < |items| ==> items[i].ToolCall?
    ensures WithoutTools(items) == []
  {
    if items != [] {
      WithoutToolsOfTools(items[1..]);
    }
  }

  lemma WithoutToolsOfAssistant(id: string, reasoning: string, text: string,
                                calls: seq<ModelToolCall>, status: ItemStatus)
    ensures WithoutTools(AssistantItems(id, reasoning, text, calls, status)) == TextItems(id, reasoning, text)
  {
    WithoutToolsConcat(TextItems(id, reasoning, text), ToolItems(calls, status));
    WithoutToolsOfTools(ToolItems(calls, status));
    WithoutToolsOfTexts(TextItems(id, reasoning, text));
  }

  lemma {:induction false} WithoutToolsOfTexts(items: seq<ThreadItem>)
    requires forall i :: 0 <= i < |items| ==> !items[i].ToolCall?
    ensures WithoutTools(items) == items
  {
    if items != [] {
      WithoutToolsOfTexts(items[1..]);
    }
  }

  /** The id the items of a model response are shown under while it runs. */
  function ResponseId(envelope: Envelope): string {
    ItemIdOr(envelope, TurnPrefix(envelope) + ":" + Decimal(envelope.sequence))
  }

  lemma TextItemsAgreeIff(a: string, b: string, reasoning: string, text: string)
    ensures TextItems(a, reasoning, text) == TextItems(b, reasoning, text)
            <==> a == b || TextItems(a, reasoning, text) == []
  {
    ghost var x, y := TextItems(a, reasoning, text), TextItems(b, reasoning, text);
    if x != [] {
      FirstTextId(a, reasoning, text);
      FirstTextId(b, reasoning, text);
      SuffixCancels(a, b, if reasoning != "" then ":reasoning" else ":agent");
      assert x == y ==> x[0].id == y[0].id;
    }
  }

  lemma FirstTextId(id: string, reasoning: string, text: string)
    requires TextItems(id, reasoning, text) != []
    ensures TextItems(id, reasoning, text)[0].id == id + if reasoning != "" then ":reasoning" else ":agent"
  {
  }

  lemma SuffixCancels(a: string, b: string, suffix: string)
    ensures a + suffix == b + suffix ==> a == b
  {
    assert (a + suffix)[..|a|] == a && (b + suffix)[..|b|] == b;
    assert |a + suffix| == |a| + |suffix| && |b + suffix| == |b| + |suffix|;
  }

  /**
   A model response shows the same texts while it runs and after a reload exactly when the
   reload uses the id it ran under, or there is no text to show.
   */
  lemma ResponseTextsAgree(envelope: Envelope, id: string)
    requires envelope.event.ModelResponded?
    ensures var event := envelope.event;
            var settled := FromMessage(Assistant(event.reasoning, event.text, event.toolCalls), id, None);
            var same := id == ResponseId(envelope) || TextItems(id, event.reasoning, event.text) == [];
            && (StartedFromEvent(envelope) == WithoutTools(settled) <==> same)
            && (CompletedFromEvent(envelope) == WithoutTools(settled) <==> same)
  {
    var event, own := envelope.event, ResponseId(envelope);
    WithoutToolsOfAssistant(own, event.reasoning, event.text, event.toolCalls, InProgress);
    WithoutToolsOfAssistant(id, event.reasoning, event.text, event.toolCalls, Completed);
    TextItemsAgreeIff(id, own, event.reasoning, event.text);
  }

  // ------------------------------------------- one start, one end per tool call

  function StartedStream(events: seq<Envelope>): seq<ThreadItem> {
    if events == [] then [] else StartedFromEvent(events[0]) + StartedStream(events[1..])
  }

  function CompletedStream(events: seq<Envelope>): seq<ThreadItem> {
    if events == [] then [] else CompletedFromEvent(events[0]) + CompletedStream(events[1..])
  }

  function ToolIds(items: seq<ThreadItem>): seq<string> {
    if items == [] then []
    else if items[0].ToolCall? then [items[0].id] + ToolIds(items[1..])
    else ToolIds(items[1..])
  }

  function StartedCallIds(events: seq<Envelope>): seq<string> {
    if events == [] then []
    else if events[0].event.ToolStarted? then [events[0].event.call.id] + StartedCallIds(events[1..])
    else StartedCallIds(events[1..])
  }

  function FinishedCallIds(events: seq<Envelope>): seq<string> {
    if events == [] then []
    else if events[0].event.ToolFinished? then [events[0].event.callId] + FinishedCallIds(events[1..])
    else FinishedCallIds(events[1..])
  }

  lemma {:induction false} ToolIdsConcat(a: seq<ThreadItem>, b: seq<ThreadItem>)
    ensures ToolIds(a + b) == ToolIds(a) + ToolIds(b)
  {
    if a == [] {
      assert a + b == b;
    } else {
      assert (a + b)[1..] == a[1..] + b;
      ToolIdsConcat(a[1..], b);
    }
  }

  lemma {:induction false} ToolIdsWithoutTools(items: seq<ThreadItem>)
    ensures ToolIds(WithoutTools(items)) == []
  {
    if items != [] {
      var rest := WithoutTools(items[1..]);
      ToolIdsWithoutTools(items[1..]);
      if !items[0].ToolCall? {
        assert WithoutTools(items) == [items[0]] + rest;
        assert ([items[0]] + rest)[1..] == rest;
      } else {
        assert WithoutTools(items) == rest;
      }
    }
  }

  /**
   A model response announces calls that a later event starts; over any stream
   each call is shown started once per start and finished once per finish, in order.
   */
  lemma {:induction false} ToolLifecycleIsNotDuplicated(events: seq<Envelope>)
    ensures ToolIds(StartedStream(events)) == StartedCallIds(events)
    ensures ToolIds(CompletedStream(events)) == FinishedCallIds(events)
  {
    if events != [] {
      ToolLifecycleIsNotDuplicated(events[1..]);
      ToolIdsConcat(StartedFromEvent(events[0]), StartedStream(events[1..]));
      ToolIdsConcat(CompletedFromEvent(events[0]), CompletedStream(events[1..]));
      if events[0].event.ModelResponded? {
        ToolIdsWithoutTools(FromEvent(events[0]));
      }
    }
  }

  // -------------------------------------------------- bounded message history

  function WithoutContext(messages: seq<Message>): seq<Message> {
    if messages == [] then []
    else if messages[0].Context? then WithoutContext(messages[1..])
    else [messages[0]] + WithoutContext(messages[1..])
  }

  function FlatItems(messages: seq<Message>, index: nat): seq<ThreadItem> {
    if messages == [] then []
    else FromMessage(messages[0], "message-" + Decimal(index), None) + FlatItems(messages[1..], index + 1)
  }

  function FromMessages(messages: seq<Message>): seq<ThreadItem> {
    Take(FlatItems(Take(WithoutContext(messages), MAX_PROJECTED_ITEMS), 0), MAX_PROJECTED_ITEMS)
  }

  lemma {:induction false} WithoutContextConcat(a: seq<Message>, b: seq<Message>)
    ensures WithoutContext(a + b) == WithoutContext(a) + WithoutContext(b)
  {
    if a == [] {
      assert a + b == b;
    } else {
      assert (a + b)[1..] == a[1..] + b;
      WithoutContextConcat(a[1..], b);
    }
  }

  /**
   Each message that is not context shows its items in its place in the history, named by how many
   such messages come before it; context messages leave no trace.
   */
  lemma HistoryShowsMessage(before: seq<Message>, message: Message, after: seq<Message>)
    ensures var n := |WithoutContext(before)|;
            AllItems(before + [message] + after)
            == if message.Context? then AllItems(before + after)
               else
                 AllItems(before) + FromMessage(message, "message-" + Decimal(n), None)
                 + FlatItems(WithoutContext(after), n + 1)
    ensures forall m :: m in before && !m.Context? ==> m in WithoutContext(before)
  {
    WithoutContextConcat(before + [message], after);
    WithoutContextConcat(before, [message]);
    WithoutContextConcat(before, after);
    ghost var head, tail := WithoutContext(before), WithoutContext(after);
    assert [message][1..] == [];
    if message.Context? {
      assert head + [] == head;
    } else {
      assert WithoutContext([message]) == [message];
      FlatItemsAround(head, message, tail);
    }
    forall m | m in before && !m.Context?
      ensures m in head
    {
      KeptMessage(before, m);
    }
  }

  lemma FlatItemsAround(head: seq<Message>, message: Message, tail: seq<Message>)
    ensures FlatItems(head + [message] + tail, 0)
            == FlatItems(head, 0) + FromMessage(message, "message-" + Decimal(|head|), None)
               + FlatItems(tail, |head| + 1)
  {
    FlatItemsConcat(head + [message], tail, 0);
    FlatItemsConcat(head, [message], 0);
    FlatItemsOfOne(message, |head|);
  }

  lemma FlatItemsOfOne(message: Message, index: nat)
    ensures FlatItems([message], index) == FromMessage(message, "message-" + Decimal(index), None)
  {
    ghost var items := FromMessage(message, "message-" + Decimal(index), None);
    assert [message][1..] == [];
    assert items + [] == items;
  }

  lemma {:induction false} KeptMessage(messages: seq<Message>, m: Message)
    requires m in messages && !m.Context?
    ensures m in WithoutContext(messages)
  {
    if messages[0] != m {
      KeptMessage(messages[1..], m);
    }
  }

  /** Every item of the history, before either cap. */
  function AllItems(messages: seq<Message>): seq<ThreadItem> {
    FlatItems(WithoutContext(messages), 0)
  }

  lemma {:induction false} FlatItemsConcat(a: seq<Message>, b: seq<Message>, index: nat)
    ensures FlatItems(a + b, index) == FlatItems(a, index) + FlatItems(b, index + |a|)
  {
    if a == [] {
      assert a + b == b;
    } else {
      assert (a + b)[1..] == a[1..] + b;
      FlatItemsConcat(a[1..], b, index + 1);
    }
  }

  /**
   The bounded history is a prefix of the full one. It is the longest prefix of at
   most 256 items exactly when the messages past the 256th would add nothing to it.
   */
  lemma FromMessagesIsPrefix(messages: seq<Message>)
    ensures FromMessages(messages) <= AllItems(messages)
    ensures |FromMessages(messages)| <= MAX_PROJECTED_ITEMS
    ensures FromMessages(messages) == Take(AllItems(messages), MAX_PROJECTED_ITEMS)
            <==> var kept := WithoutContext(messages);
                 || |kept| <= MAX_PROJECTED_ITEMS
                 || |FlatItems(kept[..MAX_PROJECTED_ITEMS], 0)| >= MAX_PROJECTED_ITEMS
                 || FlatItems(kept[MAX_PROJECTED_ITEMS..], MAX_PROJECTED_ITEMS) == []
  {
    var kept := WithoutContext(messages);
    if |kept| > MAX_PROJECTED_ITEMS {
      var head, tail := kept[..MAX_PROJECTED_ITEMS], kept[MAX_PROJECTED_ITEMS..];
      assert kept == head + tail;
      FlatItemsConcat(head, tail, 0);
    }
  }

  function Repeat(message: Message, count: nat): seq<Message> {
    if count == 0 then [] else [message] + Repeat(message, count - 1)
  }

  lemma {:induction false} RepeatLength(message: Message, count: nat)
    ensures |Repeat(message, count)| == count
  {
    if count > 0 {
      RepeatLength(message, count - 1);
    }
  }

  lemma KeptHead(message: Message, rest: seq<Message>)
    requires !message.Context?
    ensures WithoutContext([message] + rest) == [message] + WithoutContext(rest)
  {
    assert ([message] + rest)[1..] == rest;
  }

  lemma {:induction false} RepeatIsKept(message: Message, count: nat, rest: seq<Message>)
    requires !message.Context?
    ensures WithoutContext(Repeat(message, count) + rest) == Repeat(message, count) + WithoutContext(rest)
  {
    if count > 0 {
      ghost var tail := Repeat(message, count - 1);
      RepeatIsKept(message, count - 1, rest);
      KeptHead(message, tail + rest);
      Reassociate([message], tail, rest);
      Reassociate([message], tail, WithoutContext(rest));
    } else {
      assert [] + rest == rest && [] + WithoutContext(rest) == WithoutContext(rest);
    }
  }

  lemma Reassociate<T>(a: seq<T>, b: seq<T>, c: seq<T>)
    ensures (a + b) + c == a + (b + c)
  {
  }

  lemma {:induction false} SilentMessagesShowNothing(count: nat, index: nat)
    ensures FlatItems(Repeat(Assistant("", "", []), count), index) == []
  {
    var silent := Assistant("", "", []);
    if count > 0 {
      SilentMessagesShowNothing(count - 1, index + 1);
      assert Repeat(silent, count)[1..] == Repeat(silent, count - 1);
    }
  }

  /** 256 responses without text hide the user message behind them. */
  lemma SilentMessagesHideLaterItems()
    ensures var messages := Repeat(Assistant("", "", []), 256) + [User("hi")];
            FromMessages(messages) == [] && |AllItems(messages)| == 1
  {
    var silent := Repeat(Assistant("", "", []), 256);
    var messages := silent + [User("hi")];
    RepeatLength(Assistant("", "", []), 256);
    RepeatIsKept(Assistant("", "", []), 256, [User("hi")]);
    SilentMessagesShowNothing(256, 0);
    assert WithoutContext([User("hi")]) == [User("hi")];
    assert WithoutContext(messages)[..256] == silent;
    FlatItemsConcat(silent, [User("hi")], 0);
  }
}
