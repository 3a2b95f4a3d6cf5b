/** The Muse transcript projector: v2/adapters/src/muse.ts. */
module Muse {
  import opened Wrappers
  import opened Ordered
  import opened Runs
  import opened Counters

  // ------------------------------------------------------------------
  // Data model
  // ------------------------------------------------------------------

  datatype ItemKind =
    | UserMessage | AgentMessage | Thought | ToolCallItem | UserShell | Subagent | CompactionItem | WebSearchItem
    | ReminderChild | OtherItem(name: string)

  /** An item notification, less the payload that is only displayed. */
  datatype Item = Item(
    id: Option<string>, kind: ItemKind, callId: Option<string>, tool: Option<string>, text: Option<string>,
    failed: bool, errorKind: bool, patched: bool, outcome: Option<string>)

  /** Usage fields of one model call, as reported. */
  datatype CallReport = CallReport(
    hasUsage: bool, prompt: Option<int>, total: Option<int>, cacheRead: Option<int>, cached: Option<int>,
    cacheWrite: Option<int>, input: Option<int>, output: Option<int>, reasoning: Option<int>)

  /** A parsed log line; a usage row carries what `UsageOf` reads from its report. */
  datatype Row =
    | Ignored
    | ClientInterrupt
    | TurnStarted(turnId: Option<string>)
    | ItemStarted(item: Item)
    | ItemCompleted(item: Item)
    | CallUsage(turnId: Option<string>, usage: Option<Usage>, model: Option<string>)
    | TurnCompleted(turnId: Option<string>, terminal: Option<string>, errorText: Option<string>)

  datatype Event =
    | Interrupt
    | TurnStart(turnId: Option<string>)
    | TurnEnd(turnId: Option<string>, terminal: Option<string>)
    | Message(fromUser: bool, text: string)
    | ErrorMessage(text: string)
    | Thinking(thought: Option<string>)
    | Shell(callId: string, completed: bool)
    | ToolCall(callId: string, name: string)
    | ToolResult(callId: string, name: string, isError: bool)
    | FileEdit(callId: string)
    | Compaction
    | WebSearch(id: Option<string>)
    | TokenUsage(turn: string, usage: Usage, model: Option<string>)
    | Unknown(nativeType: string)

  datatype TurnUsage = TurnUsage(usage: Usage, model: Option<string>)

  datatype State = State(openItems: seq<string>, turnUsage: Entries<TurnUsage>)

  type StepOut = Out<State, Event>

  const INITIAL: State := State([], [])

  /** Open items and turn accumulators keep this many most recent entries. */
  const STATE_LIMIT: nat := 1024

  // ------------------------------------------------------------------
  // Usage of one call
  // ------------------------------------------------------------------

  function Max(a: int, b: int): int {
    if a > b then a else b
  }

  function With(u: Usage, c: Counter, o: Option<int>): Usage {
    if o.Some? then u[c := o.value] else u
  }

  function CacheReads(r: CallReport): Option<int> {
    if r.cacheRead.Some? then r.cacheRead else r.cached
  }

  /** Uncached input is the prompt less cache reads and writes, never negative. */
  function UncachedInput(r: CallReport): Option<int> {
    if r.prompt.None? then r.input
    else Some(Max(0, r.prompt.value - CacheReads(r).GetOr(0) - r.cacheWrite.GetOr(0)))
  }

  function UsageOf(r: CallReport): Option<Usage> {
    if !r.hasUsage && r.prompt.None? && r.total.None? then None
    else Some(With(With(With(With(With(With(map[],
      Input, UncachedInput(r)), Output, r.output), CacheRead, CacheReads(r)), CacheWrite, r.cacheWrite),
      Reasoning, r.reasoning), Total, r.total))
  }

  function At(u: Usage, c: Counter): int {
    if c in u then u[c] else 0
  }

  /** The prompt is counted once, whenever its cached parts fit into it; otherwise the cached parts are counted. */
  lemma PromptCountedOnce(r: CallReport)
    requires r.prompt.Some?
    ensures var u := UsageOf(r).value; var cached := CacheReads(r).GetOr(0) + r.cacheWrite.GetOr(0);
      At(u, Input) + At(u, CacheRead) + At(u, CacheWrite) == Max(r.prompt.value, cached)
  {
  }

  /** A counter present on either side is present in the sum. */
  function Plus(a: Usage, b: Usage): Usage {
    map c | c in a.Keys + b.Keys :: At(a, c) + At(b, c)
  }

  method AddUsage(a: Usage, b: Usage) returns (sum: Usage)
    ensures sum == Plus(a, b)
  {
    sum := map[];
    for i := 0 to |COUNTERS|
      invariant forall c :: c in sum <==> c in COUNTERS[..i] && (c in a || c in b)
      invariant forall c :: c in sum ==> sum[c] == At(a, c) + At(b, c)
    {
      var key := COUNTERS[i];
      if key in a || key in b {
        sum := sum[key := (if key in a then a[key] else 0) + (if key in b then b[key] else 0)];
      }
    }
    forall c | c in a || c in b ensures c in sum { AllCounters(c); }
  }

  // ------------------------------------------------------------------
  // One row, as a function of the state
  // ------------------------------------------------------------------

  predicate IsShellTool(name: string) {
    name in ["bash", "shell", "exec_command"]
  }

  predicate Opens(kind: ItemKind) {
    kind.ToolCallItem? || kind.UserShell? || kind.Subagent?
  }

  function CallIdOf(item: Item): string {
    if item.kind.ToolCallItem? && item.callId.Some? then item.callId.value else item.id.GetOr("muse:unknown")
  }

  function StartedEvents(item: Item): seq<Event> {
    match item.kind
    case ToolCallItem =>
      var name := item.tool.GetOr("tool");
      if IsShellTool(name) then [Shell(CallIdOf(item), false)] else [ToolCall(CallIdOf(item), name)]
    case UserShell => [Shell(CallIdOf(item), false)]
    case Subagent => [ToolCall(CallIdOf(item), "subagent")]
    case _ => []
  }

  function CompletedEvents(item: Item): seq<Event> {
    match item.kind
    case UserMessage => if item.text.Some? then [Message(true, item.text.value)] else []
    case AgentMessage => if item.text.Some? then [Message(false, item.text.value)] else []
    case Thought => [Thinking(item.text)]
    case ToolCallItem =>
      var name := item.tool.GetOr("tool");
      var result := ToolResult(CallIdOf(item), name, item.failed);
      if IsShellTool(name) then [Shell(CallIdOf(item), true)]
      else if item.patched && !item.failed then [result, FileEdit(CallIdOf(item))]
      else [result]
    case UserShell => [Shell(CallIdOf(item), true)]
    case Subagent => [ToolResult(CallIdOf(item), "subagent", item.failed || item.errorKind)]
    case CompactionItem =>
      if item.outcome.Some? && item.outcome != Some("compacted") then [Unknown("compaction:" + item.outcome.value)] else [Compaction]
    case WebSearchItem => [WebSearch(item.id)]
    case ReminderChild => []
    case OtherItem(name) => [Unknown(name)]
  }

  predicate IsOpen(s: State, item: Item) {
    item.id.Some? && item.id.value in s.openItems
  }

  function StartStep(s: State, item: Item): StepOut {
    if !Opens(item.kind) || item.id.None? || IsOpen(s, item) then Out(s, [])
    else Out(s.(openItems := Remember(s.openItems, item.id.value, STATE_LIMIT)), StartedEvents(item))
  }

  function CompleteStep(s: State, item: Item): StepOut {
    if !Opens(item.kind) then Out(s, CompletedEvents(item))
    else if IsOpen(s, item) then Out(s.(openItems := Without(s.openItems, item.id.value)), CompletedEvents(item))
    else Out(s, StartedEvents(item) + CompletedEvents(item))
  }

  /** The accumulators after one more report: the turn moves to the end, and the oldest may be evicted. */
  function Accumulate(turnUsage: Entries<TurnUsage>, turnId: string, usage: Usage, model: Option<string>): Entries<TurnUsage> {
    var held := Get(turnUsage, turnId);
    var next := TurnUsage(
      if held.Some? then Plus(held.value.usage, usage) else usage,
      if model.Some? then model else if held.Some? then held.value.model else None);
    var moved := Delete(turnUsage, turnId) + [(turnId, next)];
    if |moved| > STATE_LIMIT then moved[1..] else moved
  }

  function UsageStep(s: State, turnId: Option<string>, usage: Option<Usage>, model: Option<string>): StepOut {
    if turnId.None? || usage.None? then Out(s, [])
    else Out(s.(turnUsage := Accumulate(s.turnUsage, turnId.value, usage.value, model)), [])
  }

  function FailureEvents(row: Row): seq<Event>
    requires row.TurnCompleted?
  {
    if row.terminal == Some("failed") && row.errorText.Some? then [ErrorMessage(row.errorText.value)] else []
  }

  function CompletedTurn(s: State, row: Row): StepOut
    requires row.TurnCompleted?
  {
    var held := if row.turnId.Some? then Get(s.turnUsage, row.turnId.value) else None;
    var end := [TurnEnd(row.turnId, row.terminal)];
    if held.None? then Out(s, FailureEvents(row) + end)
    else
      Out(s.(turnUsage := Delete(s.turnUsage, row.turnId.value)),
          FailureEvents(row) + [TokenUsage(row.turnId.value, held.value.usage, held.value.model)] + end)
  }

  function Next(s: State, row: Row): StepOut {
    match row
    case Ignored => Out(s, [])
    case ClientInterrupt => Out(s, [Interrupt])
    case TurnStarted(turnId) => Out(s, [TurnStart(turnId)])
    case ItemStarted(item) => StartStep(s, item)
    case ItemCompleted(item) => CompleteStep(s, item)
    case CallUsage(turnId, usage, model) => UsageStep(s, turnId, usage, model)
    case TurnCompleted(_, _, _) => CompletedTurn(s, row)
  }

  function Stepper(): (State, Row) -> StepOut {
    (s, row) => Next(s, row)
  }

  function Run(s: State, rows: seq<Row>): StepOut {
    Fold(Stepper(), s, rows)
  }

  // ------------------------------------------------------------------
  // The projector object
  // ------------------------------------------------------------------

  class MuseProjector {
    var openItems: seq<string>
    var turnUsage: Entries<TurnUsage>

    function Abs(): State
      reads this
    {
      State(openItems, turnUsage)
    }

    constructor (restored: State)
      ensures Abs() == restored
    {
      openItems := restored.openItems;
      turnUsage := restored.turnUsage;
    }

    method StartItem(item: Item) returns (events: seq<Event>)
      modifies this`openItems
      ensures Out(Abs(), events) == StartStep(old(Abs()), item)
    {
      if !Opens(item.kind) || item.id.None? || item.id.value in openItems {
        return [];
      }
      openItems := openItems + [item.id.value];
      if |openItems| > STATE_LIMIT {
        openItems := openItems[1..];
      }
      events := StartedEvents(item);
    }

    method CompleteItem(item: Item) returns (events: seq<Event>)
      modifies this`openItems
      ensures Out(Abs(), events) == CompleteStep(old(Abs()), item)
    {
      if !Opens(item.kind) {
        return CompletedEvents(item);
      }
      var startSeen := item.id.Some? && item.id.value in openItems;
      if startSeen {
        openItems := Without(openItems, item.id.value);
      }
      events := (if startSeen then [] else StartedEvents(item)) + CompletedEvents(item);
    }

    method RecordUsage(turnId: Option<string>, usage: Option<Usage>, model: Option<string>)
      modifies this`turnUsage
      ensures Out(Abs(), []) == UsageStep(old(Abs()), turnId, usage, model)
    {
      if turnId.None? || usage.None? {
        return;
      }
      var held := Get(turnUsage, turnId.value);
      turnUsage := Delete(turnUsage, turnId.value);
      var sum := usage.value;
      if held.Some? {
        sum := AddUsage(held.value.usage, usage.value);
      }
      var known := if model.Some? then model else if held.Some? then held.value.model else None;
      turnUsage := turnUsage + [(turnId.value, TurnUsage(sum, known))];
      if |turnUsage| > STATE_LIMIT {
        turnUsage := turnUsage[1..];
      }
    }

    method CompleteTurn(row: Row) returns (events: seq<Event>)
      requires row.TurnCompleted?
      modifies this`turnUsage
      ensures Out(Abs(), events) == CompletedTurn(old(Abs()), row)
    {
      events := [];
      if row.terminal == Some("failed") && row.errorText.Some? {
        events := events + [ErrorMessage(row.errorText.value)];
      }
      if row.turnId.Some? {
        var held := Get(turnUsage, row.turnId.value);
        if held.Some? {
          turnUsage := Delete(turnUsage, row.turnId.value);
          events := events + [TokenUsage(row.turnId.value, held.value.usage, held.value.model)];
        }
      }
      events := events + [TurnEnd(row.turnId, row.terminal)];
    }

    method PushLine(row: Row) returns (events: seq<Event>)
      modifies this
      ensures Out(Abs(), events) == Next(old(Abs()), row)
    {
      events := [];
      match row {
        case Ignored =>
        case ClientInterrupt => events := [Interrupt];
        case TurnStarted(turnId) => events := [TurnStart(turnId)];
        case ItemStarted(item) => events := StartItem(item);
        case ItemCompleted(item) => events := CompleteItem(item);
        case CallUsage(turnId, usage, model) => RecordUsage(turnId, usage, model);
        case TurnCompleted(_, _, _) => events := CompleteTurn(row);
      }
    }
  }
}
