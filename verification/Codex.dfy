/** The Codex transcript projector: v2/adapters/src/codex.ts. */
module Codex {
  import opened Wrappers
  import opened Text
  import opened Ordered
  import opened Checkpoint
  import opened Runs

  // ------------------------------------------------------------------
  // Data model
  // ------------------------------------------------------------------

  datatype Role = User | Assistant

  type Fields = map<string, Json>

  datatype ItemKind = Command | McpCall | OtherItem

  /** An item notification with all its fields. */
  datatype Item = Item(id: Option<string>, kind: ItemKind, fields: Fields)

  /** A row of a native rollout; `Said` has a text that is not empty. */
  datatype Rollout =
    | TurnContext
    | TaskStarted
    | TaskComplete(turnId: Option<string>)
    | Said(role: Role, text: string, itemId: Option<string>)
    | ContextCompacted
    | Call(callId: string, name: string, input: Option<string>)
    | Output(callId: string, output: Option<string>)
    | Reasoning(thought: Option<string>)
    | OtherRollout

  /** A parsed log line: an app-server envelope, or a plain row, which is a response or a rollout row. */
  datatype Row =
    | NotAnObject
    | QuotaRow(thread: Option<string>)
    | Plain(requestId: Option<string>, result: Option<string>, rollout: Rollout)
    | Fork(requestId: Option<string>)
    | Request(model: Option<string>)
    | TurnStarted(turnId: Option<string>, thread: Option<string>)
    | TurnCompleted(turnId: Option<string>, thread: Option<string>, usage: Option<string>, quota: bool)
    | TurnInterrupt(thread: Option<string>)
    | ItemStarted(item: Item, thread: Option<string>)
    | ItemCompleted(item: Item, thread: Option<string>)
    | UsageUpdated(usage: Option<string>, thread: Option<string>)
    | OtherMethod

  datatype Event =
    | Quota(thread: Option<string>)
    | TurnStart(turnId: Option<string>, thread: Option<string>)
    | TurnEnd(turnId: Option<string>, thread: Option<string>)
    | RolloutStart
    | RolloutEnd(turnId: Option<string>)
    | Message(role: Role, text: string, itemId: Option<string>)
    | Thinking(thought: Option<string>)
    | ToolCall(callId: string, name: string, input: Option<string>)
    | ToolResult(callId: string, output: Option<string>)
    | Compaction
    | Interrupt(thread: Option<string>)
    | TokenUsage(usage: string, model: Option<string>, thread: Option<string>)
    | Snapshot(requestId: string, result: string)
    | ItemShown(item: Item, thread: Option<string>)
    | ItemDone(fields: Fields, startSeen: bool, thread: Option<string>)

  datatype State = State(startedItems: Entries<Fields>, model: Option<string>, messages: seq<string>,
                         forks: seq<string>, turnOpen: bool)

  type StepOut = Out<State, Event>

  const INITIAL: State := State([], None, [], [], false)

  // ------------------------------------------------------------------
  // Message identities
  // ------------------------------------------------------------------

  /** White space runs become one space, and none is left at the end; `gap` says that one came before. */
  function Squeeze(s: string, gap: bool): string {
    if s == [] then []
    else if IsSpace(s[0]) then Squeeze(s[1..], true)
    else (if gap then " " else "") + ([s[0]] + Squeeze(s[1..], false))
  }

  /** The text with its white space normalised. */
  function Normal(text: string): string {
    Squeeze(TrimStart(text), false)
  }

  function Identity(role: Role, text: string): string {
    (if role == User then "user:" else "assistant:") + Normal(text)
  }

  // ------------------------------------------------------------------
  // One row, as a function of the state
  // ------------------------------------------------------------------

  function OpenTurn(s: State): StepOut {
    if s.turnOpen then Out(s, []) else Out(s.(turnOpen := true, messages := []), [RolloutStart])
  }

  function Say(s: State, role: Role, text: string, itemId: Option<string>): StepOut {
    var id := Identity(role, text);
    if id in s.messages then Out(s, []) else Out(s.(messages := s.messages + [id]), [Message(role, text, itemId)])
  }

  function RolloutStep(s: State, row: Rollout): StepOut {
    match row
    case TurnContext => OpenTurn(s)
    case TaskStarted => OpenTurn(s)
    case TaskComplete(turnId) => Out(s.(turnOpen := false), [RolloutEnd(turnId)])
    case Said(role, text, itemId) => Say(s, role, text, itemId)
    case ContextCompacted => Out(s, [Compaction])
    case Call(callId, name, input) => Out(s, [ToolCall(callId, name, input)])
    case Output(callId, output) => Out(s, [ToolResult(callId, output)])
    case Reasoning(thought) => Out(s, [Thinking(thought)])
    case OtherRollout => Out(s, [])
  }

  /** A response to a pending fork is its snapshot; any other plain row is a rollout row. */
  function PlainStep(s: State, requestId: Option<string>, result: Option<string>, rollout: Rollout): StepOut {
    if requestId.Some? && requestId.value in s.forks then
      Out(s.(forks := Without(s.forks, requestId.value)),
          if result.Some? then [Snapshot(requestId.value, result.value)] else [])
    else RolloutStep(s, rollout)
  }

  function ObjectAt(fields: Fields, key: string): Option<Fields> {
    if key in fields && fields[key].JObj? then Some(fields[key].fields) else None
  }

  /** The completed item over the started one; their invocations are merged the same way. */
  function Merge(key: string, started: Option<Fields>, completed: Fields): Fields {
    if started.None? then completed
    else
      var merged := started.value + completed;
      var before, after := ObjectAt(started.value, key), ObjectAt(completed, key);
      if before.None? && after.None? then merged else merged[key := JObj(before.GetOr(map[]) + after.GetOr(map[]))]
  }

  function StartStep(s: State, item: Item, thread: Option<string>): StepOut {
    Out(if item.id.Some? then s.(startedItems := Put(s.startedItems, item.id.value, item.fields)) else s,
        if item.kind == OtherItem then [] else [ItemShown(item, thread)])
  }

  function StartOf(s: State, item: Item): Option<Fields> {
    if item.id.Some? then Get(s.startedItems, item.id.value) else None
  }

  function CompleteStep(s: State, item: Item, thread: Option<string>): StepOut {
    var started := StartOf(s, item);
    Out(if item.id.Some? then s.(startedItems := Delete(s.startedItems, item.id.value)) else s,
        [ItemDone(Merge("invocation", started, item.fields), started.Some?, thread)])
  }

  function Usage(s: State, usage: Option<string>, thread: Option<string>): seq<Event> {
    if usage.Some? then [TokenUsage(usage.value, s.model, thread)] else []
  }

  function Next(s: State, row: Row): StepOut {
    match row
    case NotAnObject => Out(s, [])
    case QuotaRow(thread) => Out(s, [Quota(thread)])
    case Plain(requestId, result, rollout) => PlainStep(s, requestId, result, rollout)
    case Fork(requestId) => Out(if requestId.Some? then s.(forks := Add(s.forks, requestId.value)) else s, [])
    case Request(model) => Out(if model.Some? then s.(model := model) else s, [])
    case TurnStarted(turnId, thread) => Out(s, [TurnStart(turnId, thread)])
    case TurnCompleted(turnId, thread, usage, quota) =>
      Out(s, (if quota then [Quota(thread)] else []) + [TurnEnd(turnId, thread)] + Usage(s, usage, thread))
    case TurnInterrupt(thread) => Out(s, [Interrupt(thread)])
    case ItemStarted(item, thread) => StartStep(s, item, thread)
    case ItemCompleted(item, thread) => CompleteStep(s, item, thread)
    case UsageUpdated(usage, thread) => Out(s, Usage(s, usage, thread))
    case OtherMethod => Out(s, [])
  }

  function Stepper(): (State, Row) -> StepOut {
    (s, row) => Next(s, row)
  }

  function Run(s: State, rows: seq<Row>): StepOut {
    Fold(Stepper(), s, rows)
  }

  // ------------------------------------------------------------------
  // The projector object
  // ------------------------------------------------------------------

  class CodexProjector {
    var startedItems: Entries<Fields>
    var currentModel: Option<string>
    var rolloutMessages: seq<string>
    var forkRequestIds: seq<string>
    var rolloutTurnOpen: bool

    function Abs(): State
      reads this
    {
      State(startedItems, currentModel, rolloutMessages, forkRequestIds, rolloutTurnOpen)
    }

    constructor (restored: State)
      ensures Abs() == restored
    {
      startedItems, currentModel, rolloutMessages := restored.startedItems, restored.model, restored.messages;
      forkRequestIds, rolloutTurnOpen := restored.forks, restored.turnOpen;
    }

    method EmitRolloutMessage(role: Role, text: string, itemId: Option<string>) returns (events: seq<Event>)
      modifies this`rolloutMessages
      ensures Out(Abs(), events) == Say(old(Abs()), role, text, itemId)
    {
      var identity := Identity(role, text);
      if identity in rolloutMessages {
        return [];
      }
      rolloutMessages := rolloutMessages + [identity];
      events := [Message(role, text, itemId)];
    }

    method PushRollout(row: Rollout) returns (events: seq<Event>)
      modifies this
      ensures Out(Abs(), events) == RolloutStep(old(Abs()), row)
    {
      events := [];
      match row {
        case TaskComplete(turnId) =>
          rolloutTurnOpen := false;
          events := [RolloutEnd(turnId)];
        case Said(role, text, itemId) => events := EmitRolloutMessage(role, text, itemId);
        case ContextCompacted => events := [Compaction];
        case Call(callId, name, input) => events := [ToolCall(callId, name, input)];
        case Output(callId, output) => events := [ToolResult(callId, output)];
        case Reasoning(thought) => events := [Thinking(thought)];
        case OtherRollout =>
        case _ =>
          if !rolloutTurnOpen {
            rolloutTurnOpen := true;
            rolloutMessages := [];
            events := [RolloutStart];
          }
      }
    }

    method CompleteItem(item: Item, thread: Option<string>) returns (events: seq<Event>)
      modifies this`startedItems
      ensures Out(Abs(), events) == CompleteStep(old(Abs()), item, thread)
    {
      var started := None;
      if item.id.Some? {
        started := Get(startedItems, item.id.value);
        startedItems := Delete(startedItems, item.id.value);
      }
      events := [ItemDone(Merge("invocation", started, item.fields), started.Some?, thread)];
    }

    method PushLine(row: Row) returns (events: seq<Event>)
      modifies this
      ensures Out(Abs(), events) == Next(old(Abs()), row)
    {
      events := [];
      match row {
        case NotAnObject =>
        case OtherMethod =>
        case QuotaRow(thread) => events := [Quota(thread)];
        case Plain(requestId, result, rollout) =>
          if requestId.Some? && requestId.value in forkRequestIds {
            forkRequestIds := Without(forkRequestIds, requestId.value);
            if result.Some? {
              events := [Snapshot(requestId.value, result.value)];
            }
          } else {
            events := PushRollout(rollout);
          }
        case Fork(requestId) =>
          if requestId.Some? {
            forkRequestIds := Add(forkRequestIds, requestId.value);
          }
        case Request(model) =>
          if model.Some? {
            currentModel := model;
          }
        case TurnStarted(turnId, thread) => events := [TurnStart(turnId, thread)];
        case TurnCompleted(turnId, thread, usage, quota) =>
          if quota {
            events := [Quota(thread)];
          }
          events := events + [TurnEnd(turnId, thread)];
          if usage.Some? {
            events := events + [TokenUsage(usage.value, currentModel, thread)];
          }
        case TurnInterrupt(thread) => events := [Interrupt(thread)];
        case ItemStarted(item, thread) =>
          if item.id.Some? {
            startedItems := Put(startedItems, item.id.value, item.fields);
          }
          if item.kind != OtherItem {
            events := [ItemShown(item, thread)];
          }
        case ItemCompleted(item, thread) => events := CompleteItem(item, thread);
        case UsageUpdated(usage, thread) =>
          if usage.Some? {
            events := [TokenUsage(usage.value, currentModel, thread)];
          }
      }
    }

    /** The end of a log forgets what a later log could not complete. */
    method Flush() returns (events: seq<Event>)
      modifies this
      ensures events == [] && Abs() == old(Abs()).(startedItems := [], forks := [])
    {
      startedItems, forkRequestIds := [], [];
      events := [];
    }
  }
}
