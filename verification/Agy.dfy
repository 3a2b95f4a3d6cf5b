/** The agy transcript projector: v2/adapters/src/agy.ts. */
module Agy {
  import opened Wrappers
  import opened Text
  import opened Ordered
  import opened Runs
  import opened Counters

  // ------------------------------------------------------------------
  // Data model
  // ------------------------------------------------------------------

  datatype Fragment = Fragment(text: string, eventId: Option<string>)

  /** State of a step: ACTIVE, DONE, one of ERROR, FAILED and CANCELED, or anything else. */
  datatype Phase = Active | Finished | Failed | OtherPhase

  datatype StepUpdate =
    | AgentResponse(step: Option<int>, delta: string, phase: Phase)
    | ToolUpdate(step: Option<int>, phase: Phase, name: string, input: Option<string>, output: Option<string>)
    | OtherStep

  datatype Status = StatusError | StatusCanceled | OtherStatus(word: Option<string>)

  datatype TurnResult = TurnResult(
    response: Option<string>, turns: Option<int>, usage: Option<Usage>, status: Status,
    error: Option<string>, duration: Option<int>)

  /** A parsed log line, or the end of the log. */
  datatype Line =
    | Noise
    | Init(conversation: Option<string>)
    | UserTurn(text: Option<string>)
    | Step(conversation: Option<string>, update: StepUpdate)
    | Report(conversation: Option<string>, result: TurnResult)
    | OtherEvent(name: string)
    | EndOfLog

  datatype Event =
    | TurnStart(thread: Option<string>)
    | UserMessage(thread: Option<string>, text: string)
    | AssistantMessage(thread: Option<string>, text: string, eventId: Option<string>)
    | ToolCall(thread: Option<string>, callId: string, name: string, input: Option<string>)
    | ToolResult(thread: Option<string>, callId: string, name: string, isError: bool, output: Option<string>)
    | TokenUsage(thread: Option<string>, usage: Usage, turnId: Option<string>)
    | Interrupt(thread: Option<string>, reason: string)
    | TurnEnd(thread: Option<string>, turnId: Option<string>, duration: Option<int>, status: Status)
    | Unknown(thread: Option<string>, name: string)

  datatype State = State(
    thread: Option<string>,
    sawAssistantText: bool,
    usage: Option<Usage>,
    turns: Option<int>,
    duration: Option<int>,
    fragments: Entries<Fragment>,
    messages: seq<string>,
    calls: seq<string>,
    results: seq<string>)

  type StepOut = Out<State, Event>

  const INITIAL: State := State(None, false, None, None, None, [], [], [], [])

  /** Each emitted-identity set keeps this many of its most recent members. */
  const DEDUPE_LIMIT: nat := 1024

  // ------------------------------------------------------------------
  // One line, as a function of the state
  // ------------------------------------------------------------------

  predicate ChangesThread(thread: Option<string>, conversation: Option<string>) {
    conversation.Some? && thread.Some? && thread != conversation
  }

  function RememberThread(s: State, conversation: Option<string>): State {
    if conversation.None? then s
    else if ChangesThread(s.thread, conversation) then State(conversation, s.sawAssistantText, None, None, None, [], [], [], [])
    else s.(thread := conversation)
  }

  function StepId(thread: Option<string>, step: Option<int>): string {
    "agy:" + thread.GetOr("unknown") + ":" + if step.Some? then Decimal(step.value) else "unknown"
  }

  /** The fragments after a text delta of one step, which an emitted step no longer collects. */
  function Collected(s: State, id: string, step: Option<int>, delta: string): Entries<Fragment> {
    if id in s.messages || delta == "" then s.fragments
    else
      var held := Get(s.fragments, id);
      Put(s.fragments, id, Fragment((if held.Some? then held.value.text else "") + delta, if step.Some? then Some(id) else None))
  }

  function AgentStep(s: State, step: Option<int>, delta: string, phase: Phase): StepOut {
    var id := StepId(s.thread, step);
    var collected := Collected(s, id, step, delta);
    if phase != Finished || id in s.messages then Out(s.(fragments := collected), [])
    else
      var held := Get(collected, id);
      var left := s.(fragments := Delete(collected, id));
      if held.None? || Blank(held.value.text) then Out(left, [])
      else
        Out(left.(messages := Remember(s.messages, id, DEDUPE_LIMIT), sawAssistantText := true),
            [AssistantMessage(s.thread, held.value.text, held.value.eventId)])
  }

  function ToolStep(s: State, u: StepUpdate): StepOut
    requires u.ToolUpdate?
  {
    var id := StepId(s.thread, u.step);
    if u.phase == Active && id !in s.calls then
      Out(s.(calls := Remember(s.calls, id, DEDUPE_LIMIT)), [ToolCall(s.thread, id, u.name, u.input)])
    else if (u.phase == Finished || u.phase == Failed) && id !in s.results then
      Out(s.(results := Remember(s.results, id, DEDUPE_LIMIT)), [ToolResult(s.thread, id, u.name, u.phase == Failed, u.output)])
    else Out(s, [])
  }

  /** A counter is reported as its growth when that is known and not negative. */
  function DeltaOf(current: Usage, previous: Usage, subtract: bool): Usage {
    map c | c in current ::
      if subtract && c in previous && current[c] >= previous[c] then current[c] - previous[c] else current[c]
  }

  predicate Rises(before: Option<int>, after: Option<int>) {
    before.Some? && after.Some? && after.value > before.value
  }

  function TurnDuration(s: State, r: TurnResult): Option<int> {
    if s.turns.None? && r.turns == Some(1) then r.duration
    else if r.duration.Some? && s.duration.Some? && Rises(s.turns, r.turns) && r.duration.value >= s.duration.value
    then Some(r.duration.value - s.duration.value)
    else None
  }

  function TurnId(s: State, r: TurnResult): Option<string> {
    if s.thread.Some? && r.turns.Some? then Some(s.thread.value + ":" + Decimal(r.turns.value)) else None
  }

  function ReplyEvents(s: State, r: TurnResult): seq<Event> {
    if r.response.Some? && !s.sawAssistantText then [AssistantMessage(s.thread, r.response.value, None)] else []
  }

  function UsageEvents(s: State, r: TurnResult): seq<Event> {
    if r.usage.None? then []
    else
      var delta := DeltaOf(r.usage.value, s.usage.GetOr(map[]), s.usage.Some? && Rises(s.turns, r.turns));
      [TokenUsage(s.thread, delta, TurnId(s, r))]
  }

  function FailureEvents(s: State, r: TurnResult): seq<Event> {
    if !r.status.StatusError? then []
    else [Interrupt(s.thread, if r.error.Some? then r.error.value else r.response.GetOr("agy result error"))]
  }

  function ReportEvents(s: State, r: TurnResult): seq<Event> {
    ReplyEvents(s, r) + UsageEvents(s, r) + FailureEvents(s, r) + [TurnEnd(s.thread, TurnId(s, r), TurnDuration(s, r), r.status)]
  }

  function ReportStep(s: State, r: TurnResult): StepOut {
    Out(s.(usage := r.usage, turns := r.turns, fragments := [], sawAssistantText := false,
           duration := if r.duration.Some? then r.duration else s.duration),
        ReportEvents(s, r))
  }

  /** Held fragments are published in the order in which they were opened. */
  function Shown(thread: Option<string>, fragments: Entries<Fragment>): seq<Event> {
    if fragments == [] then []
    else
      var f := fragments[0].1;
      (if Blank(f.text) then [] else [AssistantMessage(thread, f.text, f.eventId)]) + Shown(thread, fragments[1..])
  }

  function ShownIds(fragments: Entries<Fragment>): seq<string> {
    if fragments == [] then []
    else (if Blank(fragments[0].1.text) then [] else [fragments[0].0]) + ShownIds(fragments[1..])
  }

  function RememberAll(set_: seq<string>, ids: seq<string>): seq<string>
    decreases |ids|
  {
    if ids == [] then set_ else RememberAll(Remember(set_, ids[0], DEDUPE_LIMIT), ids[1..])
  }

  function FlushStep(s: State): StepOut {
    var events := Shown(s.thread, s.fragments);
    Out(s.(fragments := [], messages := RememberAll(s.messages, ShownIds(s.fragments)),
           sawAssistantText := s.sawAssistantText || events != []), events)
  }

  function Next(s: State, line: Line): StepOut {
    match line
    case Noise => Out(s, [])
    case Init(conversation) => Out(RememberThread(s, conversation).(sawAssistantText := false), [])
    case UserTurn(text) =>
      if text.None? then Out(s, [])
      else Out(s.(sawAssistantText := false), [TurnStart(s.thread), UserMessage(s.thread, text.value)])
    case Step(conversation, AgentResponse(step, delta, phase)) => AgentStep(RememberThread(s, conversation), step, delta, phase)
    case Step(conversation, ToolUpdate(_, _, _, _, _)) => ToolStep(RememberThread(s, conversation), line.update)
    case Step(conversation, OtherStep) => Out(RememberThread(s, conversation), [])
    case Report(conversation, result) => ReportStep(RememberThread(s, conversation), result)
    case OtherEvent(name) => Out(s, [Unknown(s.thread, name)])
    case EndOfLog => FlushStep(s)
  }

  function Stepper(): (State, Line) -> StepOut {
    (s, line) => Next(s, line)
  }

  function Run(s: State, lines: seq<Line>): StepOut {
    Fold(Stepper(), s, lines)
  }

  // ------------------------------------------------------------------
  // The projector object
  // ------------------------------------------------------------------

  method UsageDelta(current: Usage, previous: Option<Usage>, subtractPrevious: bool) returns (projected: Usage)
    ensures projected == DeltaOf(current, previous.GetOr(map[]), subtractPrevious)
  {
    projected := map[];
    for i := 0 to |COUNTERS|
      invariant forall c :: c in projected <==> c in current && c in COUNTERS[..i]
      invariant forall c :: c in projected ==> projected[c] == DeltaOf(current, previous.GetOr(map[]), subtractPrevious)[c]
    {
      var key := COUNTERS[i];
      if key in current {
        var value := current[key];
        if subtractPrevious && previous.Some? && key in previous.value && value >= previous.value[key] {
          projected := projected[key := value - previous.value[key]];
        } else {
          projected := projected[key := value];
        }
      }
    }
    forall c | c in current ensures c in projected {
      AllCounters(c);
    }
  }

  method RememberEmission(identities: seq<string>, id: string) returns (kept: seq<string>)
    ensures kept == Remember(identities, id, DEDUPE_LIMIT)
  {
    kept := if id in identities then identities else identities + [id];
    if |kept| > DEDUPE_LIMIT {
      kept := kept[1..];
    }
  }

  class AgyProjector {
    var threadId: Option<string>
    var sawAssistantText: bool
    var previousResultUsage: Option<Usage>
    var previousNumTurns: Option<int>
    var previousDurationSeconds: Option<int>
    var assistantFragments: Entries<Fragment>
    var emittedAssistantMessages: seq<string>
    var emittedToolCalls: seq<string>
    var emittedToolResults: seq<string>

    function Abs(): State
      reads this
    {
      State(threadId, sawAssistantText, previousResultUsage, previousNumTurns, previousDurationSeconds,
        assistantFragments, emittedAssistantMessages, emittedToolCalls, emittedToolResults)
    }

    constructor (restored: State)
      ensures Abs() == restored
    {
      threadId := restored.thread;
      sawAssistantText := restored.sawAssistantText;
      previousResultUsage := restored.usage;
      previousNumTurns := restored.turns;
      previousDurationSeconds := restored.duration;
      assistantFragments := restored.fragments;
      emittedAssistantMessages := restored.messages;
      emittedToolCalls := restored.calls;
      emittedToolResults := restored.results;
    }

    method AdoptThread(next: Option<string>)
      modifies this
      ensures Abs() == RememberThread(old(Abs()), next)
    {
      if next.None? {
        return;
      }
      if threadId.Some? && threadId != next {
        previousResultUsage, previousNumTurns, previousDurationSeconds := None, None, None;
        assistantFragments := [];
        emittedAssistantMessages, emittedToolCalls, emittedToolResults := [], [], [];
      }
      threadId := next;
    }

    method ProjectAgent(step: Option<int>, delta: string, phase: Phase) returns (events: seq<Event>)
      modifies this
      ensures Out(Abs(), events) == AgentStep(old(Abs()), step, delta, phase)
    {
      var id := StepId(threadId, step);
      if id !in emittedAssistantMessages && delta != "" {
        var held := Get(assistantFragments, id);
        var text := (if held.Some? then held.value.text else "") + delta;
        assistantFragments := Put(assistantFragments, id, Fragment(text, if step.Some? then Some(id) else None));
      }
      if phase != Finished || id in emittedAssistantMessages {
        return [];
      }
      var fragment := Get(assistantFragments, id);
      assistantFragments := Delete(assistantFragments, id);
      if fragment.None? || Blank(fragment.value.text) {
        return [];
      }
      emittedAssistantMessages := RememberEmission(emittedAssistantMessages, id);
      sawAssistantText := true;
      events := [AssistantMessage(threadId, fragment.value.text, fragment.value.eventId)];
    }

    method ProjectTool(u: StepUpdate) returns (events: seq<Event>)
      requires u.ToolUpdate?
      modifies this
      ensures Out(Abs(), events) == ToolStep(old(Abs()), u)
    {
      var id := StepId(threadId, u.step);
      if u.phase == Active && id !in emittedToolCalls {
        emittedToolCalls := RememberEmission(emittedToolCalls, id);
        return [ToolCall(threadId, id, u.name, u.input)];
      }
      if (u.phase == Finished || u.phase == Failed) && id !in emittedToolResults {
        emittedToolResults := RememberEmission(emittedToolResults, id);
        return [ToolResult(threadId, id, u.name, u.phase == Failed, u.output)];
      }
      events := [];
    }

    method DurationOfTurn(r: TurnResult) returns (duration: Option<int>)
      ensures duration == TurnDuration(Abs(), r)
    {
      duration := None;
      if previousNumTurns.None? && r.turns == Some(1) {
        duration := r.duration;
      } else if r.duration.Some? && previousDurationSeconds.Some? && Rises(previousNumTurns, r.turns)
                && r.duration.value >= previousDurationSeconds.value {
        duration := Some(r.duration.value - previousDurationSeconds.value);
      }
    }

    method ProjectResult(r: TurnResult) returns (events: seq<Event>)
      modifies this
      ensures Out(Abs(), events) == ReportStep(old(Abs()), r)
    {
      ghost var s := Abs();
      events := [];
      if r.response.Some? && !sawAssistantText {
        events := events + [AssistantMessage(threadId, r.response.value, None)];
      }
      assert events == ReplyEvents(s, r);
      var turnId := TurnId(Abs(), r);
      if r.usage.Some? {
        var canSubtract := previousResultUsage.Some? && Rises(previousNumTurns, r.turns);
        var delta := UsageDelta(r.usage.value, previousResultUsage, canSubtract);
        events := events + [TokenUsage(threadId, delta, turnId)];
      }
      assert events == ReplyEvents(s, r) + UsageEvents(s, r);
      if r.status.StatusError? {
        var reason := if r.error.Some? then r.error.value else if r.response.Some? then r.response.value else "agy result error";
        events := events + [Interrupt(threadId, reason)];
      }
      assert events == ReplyEvents(s, r) + UsageEvents(s, r) + FailureEvents(s, r);
      var duration := DurationOfTurn(r);
      events := events + [TurnEnd(threadId, turnId, duration, r.status)];
      if r.duration.Some? {
        previousDurationSeconds := r.duration;
      }
      previousResultUsage := r.usage;
      previousNumTurns := r.turns;
      assistantFragments := [];
      sawAssistantText := false;
    }

    method PushLine(line: Line) returns (events: seq<Event>)
      requires !line.EndOfLog?
      modifies this
      ensures Out(Abs(), events) == Next(old(Abs()), line)
    {
      events := [];
      match line {
        case Noise =>
        case Init(conversation) =>
          AdoptThread(conversation);
          sawAssistantText := false;
        case UserTurn(text) =>
          if text.Some? {
            sawAssistantText := false;
            events := [TurnStart(threadId), UserMessage(threadId, text.value)];
          }
        case Step(conversation, update) =>
          AdoptThread(conversation);
          match update {
            case AgentResponse(step, delta, phase) => events := ProjectAgent(step, delta, phase);
            case ToolUpdate(_, _, _, _, _) => events := ProjectTool(update);
            case OtherStep =>
          }
        case Report(conversation, result) =>
          AdoptThread(conversation);
          events := ProjectResult(result);
        case OtherEvent(name) => events := [Unknown(threadId, name)];
      }
    }

    method Flush() returns (events: seq<Event>)
      modifies this
      ensures Out(Abs(), events) == Next(old(Abs()), EndOfLog)
    {
      events := [];
      var fragments := assistantFragments;
      for i := 0 to |fragments|
        modifies this`emittedAssistantMessages
        invariant events + Shown(threadId, fragments[i..]) == Shown(threadId, fragments)
        invariant RememberAll(emittedAssistantMessages, ShownIds(fragments[i..]))
          == old(RememberAll(emittedAssistantMessages, ShownIds(fragments)))
      {
        var (id, fragment) := fragments[i];
        assert fragments[i..][1..] == fragments[i + 1..] && fragments[i..][0] == fragments[i];
        ShownNext(threadId, fragments[i..]);
        if !Blank(fragment.text) {
          emittedAssistantMessages := RememberEmission(emittedAssistantMessages, id);
          events := events + [AssistantMessage(threadId, fragment.text, fragment.eventId)];
        }
      }
      assistantFragments := [];
      if events != [] {
        sawAssistantText := true;
      }
    }
  }

  lemma ShownNext(thread: Option<string>, fragments: Entries<Fragment>)
    requires fragments != []
    ensures var (id, f) := fragments[0];
      if Blank(f.text) then
        Shown(thread, fragments) == Shown(thread, fragments[1..]) && ShownIds(fragments) == ShownIds(fragments[1..])
      else
        && (forall before ::
              before + [AssistantMessage(thread, f.text, f.eventId)] + Shown(thread, fragments[1..])
              == before + Shown(thread, fragments))
        && (forall ids ::
              RememberAll(ids, ShownIds(fragments))
              == RememberAll(Remember(ids, id, DEDUPE_LIMIT), ShownIds(fragments[1..])))
  {
    if !Blank(fragments[0].1.text) {
      var ids := ShownIds(fragments);
      assert ids[0] == fragments[0].0 && ids[1..] == ShownIds(fragments[1..]);
    }
  }
}
