/** The Grok transcript projector: v2/adapters/src/grok.ts. */
module Grok {
  import opened Wrappers
  import opened Text
  import opened Ordered
  import opened Checkpoint
  import opened Runs

  // ------------------------------------------------------------------
  // Data model
  // ------------------------------------------------------------------

  type Ts = Option<string>

  datatype Role = User | Assistant

  datatype Chunk =
    | MessageChunk(role: Role, text: string, ts: Ts)
    | ThoughtChunk(redacted: bool, thought: Option<string>, ts: Ts)

  datatype ToolState = ToolState(
    name: string, input: Option<Json>, status: Option<string>, callEmitted: bool, resultEmitted: bool)

  /** A tool update: `output` is a result field (printed), `content` the fallback printed for terminal states. */
  datatype ToolUpdate = ToolUpdate(
    nativeKind: string, callId: Option<string>, title: Option<string>, input: Option<Json>, status: Option<string>,
    hasOutput: bool, output: Option<string>, content: Option<string>, flaggedError: bool)

  /** A parsed log line; `text` is the text content of the row, absent when it has none. */
  datatype Row =
    | NotAnObject
    | Native(synthetic: bool, speaker: Option<Role>, text: Option<string>, ts: Ts, rowId: Option<string>)
    | Prompt(ts: Ts, text: Option<string>)
    | TurnEndMethod(ts: Ts)
    | Compacted(ts: Ts, eventId: Option<string>, before: Option<int>, after: Option<int>)
    | MessageDelta(role: Role, text: Option<string>, ts: Ts)
    | ThoughtDelta(text: Option<string>, redacted: bool, ts: Ts)
    | TurnEndUpdate(ts: Ts, usage: Option<string>)
    | WholeMessage(role: Role, text: Option<string>, ts: Ts)
    | WholeThought(text: Option<string>, redacted: bool, ts: Ts)
    | Tool(update: ToolUpdate, ts: Ts)
    | Ignored

  datatype Event =
    | TurnStart(ts: Ts)
    | TurnEnd(ts: Ts)
    | Message(ts: Ts, role: Role, text: string, providerEventId: Option<string>)
    | Thinking(ts: Ts, redacted: bool, thought: Option<string>)
    | ToolCall(ts: Ts, callId: string, name: string, input: Option<Json>)
    | ToolResult(ts: Ts, callId: string, name: string, isError: bool, output: Option<string>)
    | Compaction(ts: Ts, before: Option<int>, after: Option<int>)
    | TokenUsage(ts: Ts, usage: string)
    | Unknown(ts: Ts, nativeType: string)

  datatype State = State(
    openChunk: Option<Chunk>,
    mirror: Option<string>,
    tools: Entries<ToolState>,
    seenCompactions: seq<string>)

  type StepOut = Out<State, Event>

  const INITIAL: State := State(None, None, [], [])

  // ------------------------------------------------------------------
  // One step, as a function of the state
  // ------------------------------------------------------------------

  /** What closing the open chunk publishes. */
  function Closing(open: Option<Chunk>): seq<Event> {
    match open
    case None => []
    case Some(MessageChunk(role, text, ts)) => if Blank(text) then [] else [Message(ts, role, text, None)]
    case Some(ThoughtChunk(true, _, ts)) => [Thinking(ts, true, None)]
    case Some(ThoughtChunk(false, thought, ts)) =>
      if thought.Some? && !Blank(thought.value) then [Thinking(ts, false, thought)] else []
  }

  function Close(s: State, more: seq<Event>): StepOut {
    Out(s.(openChunk := None), Closing(s.openChunk) + more)
  }

  function AppendMessage(s: State, role: Role, text: string, ts: Ts): StepOut {
    match s.openChunk
    case Some(MessageChunk(openRole, sofar, openTs)) =>
      if openRole == role then Out(s.(openChunk := Some(MessageChunk(role, sofar + text, openTs))), [])
      else Out(s.(openChunk := Some(MessageChunk(role, text, ts))), Closing(s.openChunk))
    case _ => Out(s.(openChunk := Some(MessageChunk(role, text, ts))), Closing(s.openChunk))
  }

  function AppendThought(s: State, text: Option<string>, redacted: bool, ts: Ts): StepOut {
    var started := Out(s.(openChunk := Some(ThoughtChunk(redacted, if redacted then None else text, ts))), Closing(s.openChunk));
    match s.openChunk
    case Some(ThoughtChunk(openRedacted, sofar, openTs)) =>
      if openRedacted != redacted then started
      else if redacted || text.None? then Out(s, [])
      else Out(s.(openChunk := Some(ThoughtChunk(redacted, Some(sofar.GetOr("") + text.value), openTs))), [])
    case _ => started
  }

  /** Echo of the prompt: the text that is still shown, and what of the prompt is still awaited. */
  function Unmirrored(mirror: Option<string>, text: string): (Option<string>, Option<string>) {
    if mirror.None? then (Some(text), None)
    else if text <= mirror.value then
      (None, if |text| == |mirror.value| then None else Some(mirror.value[|text|..]))
    else if mirror.value <= text then (Some(text[|mirror.value|..]), None)
    else (Some(text), None)
  }

  /** The fixed vocabulary of the provider: status words, the compaction key and the summary scaffold. */
  datatype Words = Words(
    terminal: string -> bool,
    failed: string -> bool,
    compactionKey: (Ts, Option<int>, Option<int>) -> string,
    summary: string -> bool)

  predicate Holds(p: string -> bool, o: Option<string>) {
    o.Some? && p(o.value)
  }

  function NonEmpty(o: Option<string>): Option<string> {
    if o.Some? && o.value != "" then o else None
  }

  function NameFor(known: Option<ToolState>, u: ToolUpdate): string {
    if u.title.Some? then u.title.value else if known.Some? then known.value.name else "tool"
  }

  function StatusFor(known: Option<ToolState>, u: ToolUpdate): Option<string> {
    NonEmpty(if u.status.Some? then u.status else if known.Some? then known.value.status else None)
  }

  /** What is remembered of a call after an update; inputs are never remembered. */
  function ToolAfter(w: Words, known: Option<ToolState>, u: ToolUpdate): ToolState {
    var status := StatusFor(known, u);
    ToolState(NameFor(known, u), None, status, true, Done(known) || u.hasOutput || Holds(w.terminal, status))
  }

  predicate Called(known: Option<ToolState>) {
    known.Some? && known.value.callEmitted
  }

  predicate Done(known: Option<ToolState>) {
    known.Some? && known.value.resultEmitted
  }

  function ToolEvents(w: Words, known: Option<ToolState>, next: ToolState, id: string, u: ToolUpdate, ts: Ts): seq<Event> {
    (if Called(known) then [] else [ToolCall(ts, id, next.name, InputFor(known, u))])
    + (if Done(known) || !next.resultEmitted then [] else [ResultOf(w, next, id, u, ts)])
  }

  function InputFor(known: Option<ToolState>, u: ToolUpdate): Option<Json> {
    if u.input.None? && known.Some? then known.value.input else u.input
  }

  function ResultOf(w: Words, next: ToolState, id: string, u: ToolUpdate, ts: Ts): Event {
    ToolResult(ts, id, next.name, Holds(w.failed, next.status) || u.flaggedError, if u.hasOutput then u.output else u.content)
  }

  function ToolStep(w: Words, s: State, u: ToolUpdate, ts: Ts): StepOut {
    if NonEmpty(u.callId).None? then Out(s, [Unknown(ts, u.nativeKind)])
    else
      var id := u.callId.value;
      var known := Get(s.tools, id);
      var next := ToolAfter(w, known, u);
      Out(s.(tools := Put(s.tools, id, next)), ToolEvents(w, known, next, id, u, ts))
  }

  function KeyOf(w: Words, ts: Ts, eventId: Option<string>, before: Option<int>, after: Option<int>): string {
    if eventId.Some? then eventId.value else w.compactionKey(ts, before, after)
  }

  predicate Shown(text: Option<string>) {
    text.Some? && !Blank(text.value)
  }

  function NativeEvents(w: Words, row: Row): seq<Event>
    requires row.Native?
  {
    if row.synthetic || row.speaker.None? || !Shown(row.text) then []
    else if row.speaker == Some(User) && w.summary(row.text.value) then [Compaction(row.ts, None, None)]
    else [Message(row.ts, row.speaker.value, row.text.value, NonEmpty(row.rowId))]
  }

  function Step(w: Words, s: State, row: Row): StepOut {
    var quiet := s.(mirror := None);
    match row
    case NotAnObject => Out(s, [])
    case Ignored => Out(s, [])
    case Native(_, _, _, _, _) => Close(s, NativeEvents(w, row))
    case Prompt(ts, text) =>
      if Shown(text) then Close(s.(mirror := text), [TurnStart(ts), Message(ts, User, text.value, None)])
      else Close(s, [TurnStart(ts)])
    case TurnEndMethod(ts) => Close(quiet, [TurnEnd(ts)])
    case Compacted(ts, eventId, before, after) =>
      var key := KeyOf(w, ts, eventId, before, after);
      if key in s.seenCompactions then Out(s, [])
      else Close(s.(seenCompactions := Add(s.seenCompactions, key)), [Compaction(ts, before, after)])
    case MessageDelta(Assistant, text, ts) =>
      if text.Some? then AppendMessage(quiet, Assistant, text.value, ts) else Out(quiet, [])
    case MessageDelta(User, text, ts) =>
      if text.None? then Out(s, [])
      else
        var (shown, mirror) := Unmirrored(s.mirror, text.value);
        if shown.Some? then AppendMessage(s.(mirror := mirror), User, shown.value, ts) else Out(s.(mirror := mirror), [])
    case ThoughtDelta(text, redacted, ts) =>
      if redacted || text.Some? then AppendThought(quiet, text, redacted, ts) else Out(quiet, [])
    case TurnEndUpdate(ts, usage) =>
      Close(quiet, (if usage.Some? then [TokenUsage(ts, usage.value)] else []) + [TurnEnd(ts)])
    case WholeMessage(Assistant, text, ts) =>
      if Shown(text) then Close(quiet, [Message(ts, Assistant, text.value, None)]) else Out(s, [])
    case WholeMessage(User, text, ts) =>
      if !Shown(text) then Out(s, [])
      else
        var (shown, mirror) := Unmirrored(s.mirror, text.value);
        if shown.Some? then Close(s.(mirror := mirror), [Message(ts, User, shown.value, None)])
        else Out(s.(mirror := mirror), [])
    case WholeThought(text, redacted, ts) =>
      Close(quiet, if redacted then [Thinking(ts, true, None)]
                   else if Shown(text) then [Thinking(ts, false, text)] else [])
    case Tool(update, ts) =>
      var out := ToolStep(w, quiet, update, ts);
      Close(out.state, out.events)
  }

  function Stepper(w: Words): (State, Row) -> StepOut {
    (s, row) => Step(w, s, row)
  }

  function Run(w: Words, s: State, rows: seq<Row>): StepOut {
    Fold(Stepper(w), s, rows)
  }

  /** The whole projection of a log: every line, then the end-of-log flush. */
  function Project(w: Words, s: State, rows: seq<Row>): seq<Event> {
    var out := Run(w, s, rows);
    out.events + Closing(out.state.openChunk)
  }

  // ------------------------------------------------------------------
  // The vocabulary of grok
  // ------------------------------------------------------------------

  predicate IsTerminalStatus(status: string) {
    AsciiLower(status) in
      ["complete", "completed", "success", "succeeded", "failed", "error", "cancelled", "canceled"]
  }

  predicate IsErrorStatus(status: string) {
    AsciiLower(status) in ["failed", "error", "cancelled", "canceled"]
  }

  function Count(n: Option<int>): string {
    if n.Some? then Decimal(n.value) else "?"
  }

  function CompactionKey(ts: Ts, before: Option<int>, after: Option<int>): string {
    ts.GetOr("none") + ":" + Count(before) + ":" + Count(after)
  }

  const SUMMARY_PREFIX: string :=
    "This session " + "is being continued from a previous conversation that ran out of context. "
    + "The summary below covers the earlier portion of the conversation." + "\n\nSummary:"

  function UnixLines(s: string): string {
    if |s| >= 2 && s[0] == '\r' && s[1] == '\n' then "\n" + UnixLines(s[2..])
    else if s == [] then [] else [s[0]] + UnixLines(s[1..])
  }

  predicate IsCompactionSummary(text: string) {
    SUMMARY_PREFIX <= UnixLines(TrimStart(text))
  }

  const GROK: Words := Words(IsTerminalStatus, IsErrorStatus, CompactionKey, IsCompactionSummary)

  // ------------------------------------------------------------------
  // The projector object
  // ------------------------------------------------------------------

  class GrokProjector {
    const words: Words
    var openChunk: Option<Chunk>
    var pendingPromptMirror: Option<string>
    var tools: Entries<ToolState>
    var seenCompactions: seq<string>

    function Abs(): State
      reads this
    {
      State(openChunk, pendingPromptMirror, tools, seenCompactions)
    }

    constructor (restored: State)
      ensures Abs() == restored && words == GROK
    {
      words := GROK;
      openChunk := restored.openChunk;
      pendingPromptMirror := restored.mirror;
      tools := restored.tools;
      seenCompactions := restored.seenCompactions;
    }

    method FlushOpenChunk() returns (events: seq<Event>)
      modifies this`openChunk
      ensures openChunk == None && events == Closing(old(openChunk))
    {
      var chunk := openChunk;
      openChunk := None;
      if chunk.None? {
        return [];
      }
      match chunk.value {
        case ThoughtChunk(redacted, thought, ts) =>
          if redacted {
            return [Thinking(ts, true, None)];
          }
          return if thought.Some? && !Blank(thought.value) then [Thinking(ts, false, thought)] else [];
        case MessageChunk(role, text, ts) =>
          return if Blank(text) then [] else [Message(ts, role, text, None)];
      }
    }

    method AppendMessageChunk(role: Role, text: string, ts: Ts) returns (events: seq<Event>)
      modifies this`openChunk
      ensures Out(Abs(), events) == AppendMessage(old(Abs()), role, text, ts)
    {
      if openChunk.Some? && openChunk.value.MessageChunk? && openChunk.value.role == role {
        openChunk := Some(openChunk.value.(text := openChunk.value.text + text));
        return [];
      }
      events := FlushOpenChunk();
      openChunk := Some(MessageChunk(role, text, ts));
    }

    method AppendThinkingChunk(text: Option<string>, redacted: bool, ts: Ts) returns (events: seq<Event>)
      modifies this`openChunk
      ensures Out(Abs(), events) == AppendThought(old(Abs()), text, redacted, ts)
    {
      if openChunk.Some? && openChunk.value.ThoughtChunk? && openChunk.value.redacted == redacted {
        if !redacted && text.Some? {
          openChunk := Some(openChunk.value.(thought := Some(openChunk.value.thought.GetOr("") + text.value)));
        }
        return [];
      }
      events := FlushOpenChunk();
      openChunk := Some(ThoughtChunk(redacted, if redacted then None else text, ts));
    }

    method WithoutPromptMirror(text: string) returns (shown: Option<string>)
      modifies this`pendingPromptMirror
      ensures (shown, pendingPromptMirror) == Unmirrored(old(pendingPromptMirror), text)
    {
      if pendingPromptMirror.None? {
        return Some(text);
      }
      var pending := pendingPromptMirror.value;
      if text <= pending {
        pendingPromptMirror := Some(pending[|text|..]);
        if pendingPromptMirror.value == [] {
          pendingPromptMirror := None;
        }
        return None;
      }
      pendingPromptMirror := None;
      if pending <= text {
        return Some(text[|pending|..]);
      }
      return Some(text);
    }

    static method FoldTool(w: Words, previous: Option<ToolState>, id: string, u: ToolUpdate, ts: Ts)
        returns (state: ToolState, events: seq<Event>)
      ensures state == ToolAfter(w, previous, u)
      ensures events == ToolEvents(w, previous, state, id, u, ts)
    {
      var name, input := NameFor(previous, u), InputFor(previous, u);
      state := ToolState(name, None, StatusFor(previous, u), Called(previous), Done(previous));
      var calls, results := [], [];
      if !state.callEmitted {
        calls := [ToolCall(ts, id, name, input)];
        state := state.(callEmitted := true);
      }
      var terminal := Holds(w.terminal, state.status);
      if !state.resultEmitted && (u.hasOutput || terminal) {
        var output := if u.hasOutput then u.output else u.content;
        results := [ToolResult(ts, id, name, Holds(w.failed, state.status) || u.flaggedError, output)];
        state := state.(resultEmitted := true);
      }
      assert state == ToolAfter(w, previous, u);
      events := calls + results;
    }

    method ProjectTool(u: ToolUpdate, ts: Ts) returns (events: seq<Event>)
      modifies this`tools
      ensures Out(Abs(), events) == ToolStep(words, old(Abs()), u, ts)
    {
      if u.callId.None? || u.callId.value == "" {
        return [Unknown(ts, u.nativeKind)];
      }
      var id := u.callId.value;
      var state;
      state, events := FoldTool(words, Get(tools, id), id, u, ts);
      tools := Put(tools, id, state);
    }

    method PushLine(row: Row) returns (events: seq<Event>)
      modifies this
      ensures Out(Abs(), events) == Step(words, old(Abs()), row)
    {
      match row {
        case NotAnObject => events := [];
        case Ignored => events := [];
        case Native(_, _, _, _, _) =>
          events := FlushOpenChunk();
          events := events + NativeEvents(words, row);
        case Prompt(ts, text) =>
          events := FlushOpenChunk();
          events := events + [TurnStart(ts)];
          if Shown(text) {
            pendingPromptMirror := text;
            events := events + [Message(ts, User, text.value, None)];
          }
        case TurnEndMethod(ts) =>
          pendingPromptMirror := None;
          events := FlushOpenChunk();
          events := events + [TurnEnd(ts)];
        case Compacted(ts, eventId, before, after) =>
          var key := KeyOf(words, ts, eventId, before, after);
          if key in seenCompactions {
            return [];
          }
          seenCompactions := Add(seenCompactions, key);
          events := FlushOpenChunk();
          events := events + [Compaction(ts, before, after)];
        case MessageDelta(Assistant, text, ts) =>
          pendingPromptMirror := None;
          events := [];
          if text.Some? {
            events := AppendMessageChunk(Assistant, text.value, ts);
          }
        case MessageDelta(User, text, ts) =>
          events := [];
          if text.Some? {
            var shown := WithoutPromptMirror(text.value);
            if shown.Some? {
              events := AppendMessageChunk(User, shown.value, ts);
            }
          }
        case ThoughtDelta(text, redacted, ts) =>
          pendingPromptMirror := None;
          events := [];
          if redacted || text.Some? {
            events := AppendThinkingChunk(text, redacted, ts);
          }
        case TurnEndUpdate(ts, usage) =>
          pendingPromptMirror := None;
          events := FlushOpenChunk();
          if usage.Some? {
            events := events + [TokenUsage(ts, usage.value)];
          }
          events := events + [TurnEnd(ts)];
        case WholeMessage(role, text, ts) =>
          events := [];
          if Shown(text) {
            var shown := text;
            if role == User {
              shown := WithoutPromptMirror(text.value);
            } else {
              pendingPromptMirror := None;
            }
            if shown.Some? {
              events := FlushOpenChunk();
              events := events + [Message(ts, role, shown.value, None)];
            }
          }
        case WholeThought(text, redacted, ts) =>
          pendingPromptMirror := None;
          events := FlushOpenChunk();
          if redacted {
            events := events + [Thinking(ts, true, None)];
          } else if Shown(text) {
            events := events + [Thinking(ts, false, text)];
          }
        case Tool(update, ts) =>
          pendingPromptMirror := None;
          events := FlushOpenChunk();
          var toolEvents := ProjectTool(update, ts);
          events := events + toolEvents;
      }
    }

    method Flush() returns (events: seq<Event>)
      modifies this
      ensures Abs() == old(Abs()).(openChunk := None) && events == Closing(old(openChunk))
    {
      events := FlushOpenChunk();
    }
  }
}
