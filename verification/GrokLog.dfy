/** What a Grok log says, read as a whole, and that the projector says just that: v2/adapters/src/grok.ts. */
module GrokLog {
  import opened Wrappers
  import opened Text
  import opened Lists
  import opened Ordered
  import opened Runs
  import opened Grok

  // ------------------------------------------------------------------
  // What the log says of a tool call
  // ------------------------------------------------------------------

  function UpdateOf(id: string): Row -> seq<ToolUpdate> {
    (row: Row) => if row.Tool? && row.update.callId == Some(id) then [row.update] else []
  }

  /** The updates of one call id, in the order of the log. */
  function Updates(rows: seq<Row>, id: string): seq<ToolUpdate> {
    Flat(rows, UpdateOf(id))
  }

  /** The last title given. */
  function TitleIn(us: seq<ToolUpdate>): string {
    if us == [] then "tool"
    else match us[|us| - 1].title
      case Some(title) => title
      case None => TitleIn(us[..|us| - 1])
  }

  /** The last status given, unless that is empty. */
  function StatusIn(us: seq<ToolUpdate>): Option<string> {
    if us == [] then None
    else match us[|us| - 1].status
      case Some(status) => if status == "" then None else Some(status)
      case None => StatusIn(us[..|us| - 1])
  }

  predicate StatusIs(p: string -> bool, us: seq<ToolUpdate>) {
    match StatusIn(us)
    case Some(status) => p(status)
    case None => false
  }

  /** The last update has an output, or the status is by then a terminal one. */
  predicate Finishing(w: Words, us: seq<ToolUpdate>) {
    us != [] && (us[|us| - 1].hasOutput || StatusIs(w.terminal, us))
  }

  predicate Finished(w: Words, us: seq<ToolUpdate>) {
    exists k :: 0 < k <= |us| && Finishing(w, us[..k])
  }

  /** The first update of an id announces the call. */
  function Announced(before: seq<ToolUpdate>, id: string, u: ToolUpdate, ts: Ts): seq<Event> {
    if before == [] then [ToolCall(ts, id, TitleIn([u]), u.input)] else []
  }

  /** The first finishing update of an id gives the result of the call. */
  function Resulted(w: Words, before: seq<ToolUpdate>, id: string, u: ToolUpdate, ts: Ts): seq<Event> {
    var all := before + [u];
    if Finishing(w, all) && !Finished(w, before)
    then [ToolResult(ts, id, TitleIn(all), StatusIs(w.failed, all) || u.flaggedError,
                     if u.hasOutput then u.output else u.content)]
    else []
  }

  function ToolSays(w: Words, past: seq<Row>, u: ToolUpdate, ts: Ts): seq<Event> {
    if u.callId == None || u.callId == Some("") then [Unknown(ts, u.nativeKind)]
    else
      var id := u.callId.value;
      Announced(Updates(past, id), id, u, ts) + Resulted(w, Updates(past, id), id, u, ts)
  }

  // ------------------------------------------------------------------
  // What the log says of the prompt and of compactions
  // ------------------------------------------------------------------

  /** The row ends the waiting for the echo of a prompt. */
  predicate EndsEcho(row: Row) {
    || row.TurnEndMethod? || row.TurnEndUpdate? || row.ThoughtDelta? || row.WholeThought? || row.Tool?
    || (row.MessageDelta? && row.role == Assistant)
    || (row.WholeMessage? && row.role == Assistant && HasInk(row.text))
  }

  predicate HasInk(text: Option<string>) {
    text.Some? && Visible(text.value)
  }

  /** What the user says by a row, as the log has it. */
  function UserSays(row: Row): Option<string> {
    match row
    case MessageDelta(User, text, _) => text
    case WholeMessage(User, text, _) => if HasInk(text) then text else None
    case _ => None
  }

  datatype Echo = Echo(prompt: string, heard: string)

  /** The last prompt, and what the user was heard to say since, when nothing has ended the waiting. */
  function EchoIn(rows: seq<Row>): Option<Echo> {
    if rows == [] then None
    else
      var row, before := rows[|rows| - 1], EchoIn(rows[..|rows| - 1]);
      if row.Prompt? && HasInk(row.text) then Some(Echo(row.text.value, ""))
      else if EndsEcho(row) then None
      else if before.Some? && UserSays(row).Some? then Some(Echo(before.value.prompt, before.value.heard + UserSays(row).value))
      else before
  }

  /** What is shown of a user text: all but what completes the echo of the prompt. */
  function ShownOf(past: seq<Row>, text: string): Option<string> {
    match EchoIn(past)
    case None => Some(text)
    case Some(Echo(prompt, heard)) =>
      if !(heard < prompt) then Some(text)
      else if heard + text <= prompt then None
      else if prompt <= heard + text then Some((heard + text)[|prompt|..])
      else Some(text)
  }

  function CompactionIn(w: Words): Row -> seq<string> {
    (row: Row) =>
      if !row.Compacted? then []
      else match row.eventId
        case Some(id) => [id]
        case None => [w.compactionKey(row.ts, row.before, row.after)]
  }

  // ------------------------------------------------------------------
  // What every row does
  // ------------------------------------------------------------------

  /** Spoken aloud by someone, thought, or thought behind a veil. */
  datatype Voice = Loud(role: Role) | Inner | Veiled

  datatype Act = Pass | Speak(voice: Voice, text: string, ts: Ts) | Break(events: seq<Event>)

  function ActAt(w: Words, past: seq<Row>, row: Row): Act {
    match row
    case NotAnObject => Pass
    case Ignored => Pass
    case Native(synthetic, speaker, text, ts, rowId) =>
      if synthetic || speaker == None || !HasInk(text) then Break([])
      else if speaker == Some(User) && w.summary(text.value) then Break([Compaction(ts, None, None)])
      else Break([Message(ts, speaker.value, text.value, if rowId == Some("") then None else rowId)])
    case Prompt(ts, text) =>
      Break(if HasInk(text) then [TurnStart(ts), Message(ts, User, text.value, None)] else [TurnStart(ts)])
    case TurnEndMethod(ts) => Break([TurnEnd(ts)])
    case TurnEndUpdate(ts, None) => Break([TurnEnd(ts)])
    case TurnEndUpdate(ts, Some(usage)) => Break([TokenUsage(ts, usage), TurnEnd(ts)])
    case Compacted(ts, _, before, after) =>
      if CompactionIn(w)(row)[0] in Flat(past, CompactionIn(w)) then Pass else Break([Compaction(ts, before, after)])
    case MessageDelta(_, None, _) => Pass
    case MessageDelta(Assistant, Some(text), ts) => Speak(Loud(Assistant), text, ts)
    case MessageDelta(User, Some(text), ts) =>
      (match ShownOf(past, text)
       case Some(shown) => Speak(Loud(User), shown, ts)
       case None => Pass)
    case ThoughtDelta(_, true, ts) => Speak(Veiled, "", ts)
    case ThoughtDelta(Some(text), false, ts) => Speak(Inner, text, ts)
    case ThoughtDelta(None, false, _) => Pass
    case WholeMessage(role, text, ts) =>
      if !HasInk(text) then Pass
      else if role == Assistant then Break([Message(ts, Assistant, text.value, None)])
      else
        (match ShownOf(past, text.value)
         case Some(shown) => Break([Message(ts, User, shown, None)])
         case None => Pass)
    case WholeThought(_, true, ts) => Break([Thinking(ts, true, None)])
    case WholeThought(text, false, ts) => Break(if HasInk(text) then [Thinking(ts, false, text)] else [])
    case Tool(update, ts) => Break(ToolSays(w, past, update, ts))
  }

  function Acts(w: Words, rows: seq<Row>): seq<Act> {
    if rows == [] then []
    else Acts(w, rows[..|rows| - 1]) + [ActAt(w, rows[..|rows| - 1], rows[|rows| - 1])]
  }

  // ------------------------------------------------------------------
  // What they say together: one event for a stretch of speech in one voice
  // ------------------------------------------------------------------

  predicate Continues(voice: Voice, act: Act) {
    act.Pass? || (act.Speak? && act.voice == voice)
  }

  /** How many acts from the front go on in this voice. */
  function Stretch(voice: Voice, acts: seq<Act>): (n: nat)
    ensures n <= |acts|
    ensures forall i :: 0 <= i < n ==> Continues(voice, acts[i])
    ensures n < |acts| ==> !Continues(voice, acts[n])
  {
    if acts == [] || !Continues(voice, acts[0]) then 0 else 1 + Stretch(voice, acts[1..])
  }

  function WordsOf(act: Act): string {
    if act.Speak? then act.text else ""
  }

  /** A stretch of speech, published unless it is blank; a veiled thought always is. */
  function Uttered(voice: Voice, text: string, ts: Ts): seq<Event> {
    if voice == Veiled then [Thinking(ts, true, None)]
    else if !Visible(text) then []
    else if voice == Inner then [Thinking(ts, false, Some(text))]
    else [Message(ts, voice.role, text, None)]
  }

  function Said(acts: seq<Act>): seq<Event>
    decreases |acts|
  {
    if acts == [] then []
    else
      match acts[0]
      case Pass => Said(acts[1..])
      case Break(events) => events + Said(acts[1..])
      case Speak(voice, text, ts) =>
        var n := Stretch(voice, acts[1..]);
        Uttered(voice, text + Flat(acts[1..][..n], WordsOf), ts) + Said(acts[1..][n..])
  }

  // ------------------------------------------------------------------
  // The projector remembers just what it needs of the log
  // ------------------------------------------------------------------

  function Remembered(w: Words, us: seq<ToolUpdate>): Option<ToolState> {
    if us == [] then None else Some(ToolState(TitleIn(us), None, StatusIn(us), true, Finished(w, us)))
  }

  function Awaited(past: seq<Row>): Option<string> {
    match EchoIn(past)
    case Some(Echo(prompt, heard)) => if heard < prompt then Some(prompt[|heard|..]) else None
    case None => None
  }

  /** The state holds what the log calls for. */
  ghost predicate Knows(w: Words, s: State, past: seq<Row>) {
    && s.mirror == Awaited(past)
    && (forall key :: key in s.seenCompactions <==> key in Flat(past, CompactionIn(w)))
    && (forall id :: id != "" ==> Get(s.tools, id) == Remembered(w, Updates(past, id)))
  }

  datatype Speech = Speech(voice: Voice, text: string, ts: Ts)

  function Held(open: Option<Speech>): Option<Chunk> {
    match open
    case None => None
    case Some(Speech(Loud(role), text, ts)) => Some(MessageChunk(role, text, ts))
    case Some(Speech(Inner, text, ts)) => Some(ThoughtChunk(false, Some(text), ts))
    case Some(Speech(Veiled, _, ts)) => Some(ThoughtChunk(true, None, ts))
  }

  function Ending(open: Option<Speech>): seq<Event> {
    if open.None? then [] else Uttered(open.value.voice, open.value.text, open.value.ts)
  }

  /** One act, with the speech that is open. */
  function Hear(open: Option<Speech>, act: Act): Out<Option<Speech>, Event> {
    match act
    case Pass => Out(open, [])
    case Break(events) => Out(None, Ending(open) + events)
    case Speak(voice, text, ts) =>
      if open.Some? && open.value.voice == voice then Out(Some(open.value.(text := open.value.text + text)), [])
      else Out(Some(Speech(voice, text, ts)), Ending(open))
  }

  function Hearer(): (Option<Speech>, Act) -> Out<Option<Speech>, Event> {
    (open, act) => Hear(open, act)
  }

  lemma InkIff(text: Option<string>)
    ensures HasInk(text) <==> Shown(text)
  {
    if text.Some? { VisibleIff(text.value); }
  }

  lemma EndingCloses(open: Option<Speech>)
    ensures Closing(Held(open)) == Ending(open)
  {
    if open.Some? { VisibleIff(open.value.text); }
  }

  lemma UpdatesNext(past: seq<Row>, row: Row, id: string)
    ensures Updates(past + [row], id) == Updates(past, id) + UpdateOf(id)(row)
  {
    FlatSnoc(past, row, UpdateOf(id));
  }

  lemma FinishedNext(w: Words, us: seq<ToolUpdate>, u: ToolUpdate)
    ensures Finished(w, us + [u]) <==> Finished(w, us) || Finishing(w, us + [u])
  {
    var all := us + [u];
    assert all[..|all|] == all;
    forall k | 0 < k <= |us| ensures all[..k] == us[..k] {
    }
  }

  lemma LastIn(us: seq<ToolUpdate>, u: ToolUpdate)
    ensures TitleIn(us + [u]) == if u.title.Some? then u.title.value else TitleIn(us)
    ensures StatusIn(us + [u]) == if u.status.Some? then NonEmpty(u.status) else StatusIn(us)
  {
    var all := us + [u];
    assert all[..|all| - 1] == us && all[|all| - 1] == u;
  }

  lemma {:induction false} StatusNotEmpty(us: seq<ToolUpdate>)
    ensures StatusIn(us) == NonEmpty(StatusIn(us))
  {
    if us != [] { StatusNotEmpty(us[..|us| - 1]); }
  }

  lemma RememberedNext(w: Words, us: seq<ToolUpdate>, u: ToolUpdate)
    ensures Remembered(w, us + [u]) == Some(ToolAfter(w, Remembered(w, us), u))
  {
    var all := us + [u];
    LastIn(us, u);
    StatusNotEmpty(us);
    FinishedNext(w, us, u);
    assert all[|all| - 1] == u;
  }

  /** What the last update of a call gives, from what is remembered of it or from its updates. */
  lemma LastUpdate(w: Words, before: seq<ToolUpdate>, u: ToolUpdate, next: ToolState)
    requires next == ToolAfter(w, Remembered(w, before), u)
    ensures var all := before + [u];
      && next.name == TitleIn(all) && next.status == StatusIn(all)
      && (next.resultEmitted && !Finished(w, before) <==> Finishing(w, all) && !Finished(w, before))
  {
    LastIn(before, u);
    StatusNotEmpty(before);
    FinishedNext(w, before, u);
    RememberedNext(w, before, u);
  }

  lemma UpdateAnnounces(w: Words, before: seq<ToolUpdate>, id: string, u: ToolUpdate, ts: Ts)
    ensures var known := Remembered(w, before); var next := ToolAfter(w, known, u);
      Announced(before, id, u, ts) == if Called(known) then [] else [ToolCall(ts, id, next.name, InputFor(known, u))]
  {
    LastUpdate(w, before, u, ToolAfter(w, Remembered(w, before), u));
    assert [] + [u] == [u];
  }

  lemma UpdateResults(w: Words, before: seq<ToolUpdate>, id: string, u: ToolUpdate, ts: Ts)
    ensures var known := Remembered(w, before); var next := ToolAfter(w, known, u);
      Resulted(w, before, id, u, ts) == if Done(known) || !next.resultEmitted then [] else [ResultOf(w, next, id, u, ts)]
  {
    LastUpdate(w, before, u, ToolAfter(w, Remembered(w, before), u));
  }

  lemma ToolUpdateSays(w: Words, past: seq<Row>, u: ToolUpdate, ts: Ts, id: string)
    requires u.callId == Some(id) && id != ""
    ensures var known := Remembered(w, Updates(past, id));
      ToolEvents(w, known, ToolAfter(w, known, u), id, u, ts) == ToolSays(w, past, u, ts)
  {
    UpdateAnnounces(w, Updates(past, id), id, u, ts);
    UpdateResults(w, Updates(past, id), id, u, ts);
  }

  lemma ToolKnows(w: Words, s: State, past: seq<Row>, u: ToolUpdate, ts: Ts)
    requires Knows(w, s, past)
    ensures var out := ToolStep(w, s.(mirror := None), u, ts);
      && out.events == ToolSays(w, past, u, ts)
      && forall id :: id != "" ==> Get(out.state.tools, id) == Remembered(w, Updates(past + [Tool(u, ts)], id))
  {
    var tools := ToolStep(w, s.(mirror := None), u, ts).state.tools;
    if NonEmpty(u.callId).Some? {
      ToolUpdateSays(w, past, u, ts, u.callId.value);
    }
    forall id | id != "" ensures Get(tools, id) == Remembered(w, Updates(past + [Tool(u, ts)], id)) {
      ToolRemembered(w, s, past, u, ts, id);
    }
  }

  lemma ToolRemembered(w: Words, s: State, past: seq<Row>, u: ToolUpdate, ts: Ts, id: string)
    requires Knows(w, s, past) && id != ""
    ensures Get(ToolStep(w, s.(mirror := None), u, ts).state.tools, id) == Remembered(w, Updates(past + [Tool(u, ts)], id))
  {
    UpdatesNext(past, Tool(u, ts), id);
    var before := Updates(past, id);
    if NonEmpty(u.callId).Some? {
      GetPut(s.tools, u.callId.value, ToolAfter(w, Get(s.tools, u.callId.value), u), id);
    }
    if u.callId == Some(id) {
      RememberedNext(w, before, u);
    } else {
      assert before + [] == before;
    }
  }

  lemma EchoKnows(past: seq<Row>, row: Row)
    requires UserSays(row).Some?
    ensures Unmirrored(Awaited(past), UserSays(row).value) == (ShownOf(past, UserSays(row).value), Awaited(past + [row]))
  {
    var text := UserSays(row).value;
    var more := past + [row];
    assert more[..|more| - 1] == past;
    if EchoIn(past).Some? {
      var Echo(prompt, heard) := EchoIn(past).value;
      EchoSplits(prompt, heard, text);
    }
  }

  lemma PrefixOf(a: string, b: string, c: string)
    ensures a + b <= a + c <==> b <= c
  {
    assert (a + b)[|a|..] == b && (a + c)[|a|..] == c;
    if |b| <= |c| {
      assert (a + c)[..|a + b|] == a + c[..|b|];
      assert (a + c)[..|a + b|][|a|..] == c[..|b|];
    }
  }

  lemma EchoSplits(prompt: string, heard: string, text: string)
    ensures heard < prompt ==>
      var left := prompt[|heard|..];
      && (text <= left <==> heard + text <= prompt)
      && (left <= text <==> prompt <= heard + text)
      && (left <= text ==> text[|left|..] == (heard + text)[|prompt|..])
      && (text <= left ==> left[|text|..] == prompt[|heard + text|..])
    ensures heard + text < prompt ==> heard < prompt
  {
    assert (heard + text)[..|heard|] == heard;
    if heard < prompt {
      var left := prompt[|heard|..];
      assert prompt == heard + left;
      PrefixOf(heard, text, left);
      PrefixOf(heard, left, text);
    }
    if heard + text < prompt {
      assert prompt[..|heard|] == heard;
    }
  }

  /** Rows that bring no tool update and no compaction leave what is known of these. */
  lemma OthersKnow(w: Words, past: seq<Row>, row: Row)
    ensures !row.Tool? ==> forall id :: Updates(past + [row], id) == Updates(past, id)
    ensures Flat(past + [row], CompactionIn(w)) == Flat(past, CompactionIn(w)) + CompactionIn(w)(row)
  {
    FlatSnoc(past, row, CompactionIn(w));
    if !row.Tool? {
      forall id ensures Updates(past + [row], id) == Updates(past, id) {
        UpdatesNext(past, row, id);
        assert Updates(past, id) + [] == Updates(past, id);
      }
    }
  }

  lemma EchoNext(past: seq<Row>, row: Row)
    ensures EchoIn(past + [row]) ==
      if row.Prompt? && HasInk(row.text) then Some(Echo(row.text.value, ""))
      else if EndsEcho(row) then None
      else if EchoIn(past).Some? && UserSays(row).Some?
           then Some(Echo(EchoIn(past).value.prompt, EchoIn(past).value.heard + UserSays(row).value))
      else EchoIn(past)
  {
    var all := past + [row];
    assert all[..|all| - 1] == past && all[|all| - 1] == row;
  }

  /** What a step has to do with its prompt and its compactions to keep in line with the log. */
  lemma KnowsNext(w: Words, s: State, past: seq<Row>, row: Row, next: State)
    requires Knows(w, s, past) && !row.Tool? && next.tools == s.tools
    requires next.mirror == Awaited(past + [row])
    requires next.seenCompactions == s.seenCompactions + CompactionIn(w)(row)
      || (next.seenCompactions == s.seenCompactions && forall key :: key in CompactionIn(w)(row) ==> key in s.seenCompactions)
    ensures Knows(w, next, past + [row])
  {
    OthersKnow(w, past, row);
  }

  lemma MirrorNext(w: Words, s: State, past: seq<Row>, row: Row)
    requires Knows(w, s, past)
    ensures Step(w, s, row).state.mirror == Awaited(past + [row])
  {
    if UserSays(row).Some? {
      EchoKnows(past, row);
    } else {
      EchoNext(past, row);
    }
  }

  lemma StepKnows(w: Words, s: State, past: seq<Row>, row: Row)
    requires Knows(w, s, past)
    ensures Knows(w, Step(w, s, row).state, past + [row])
  {
    MirrorNext(w, s, past, row);
    if row.Tool? {
      ToolKnows(w, s, past, row.update, row.ts);
      OthersKnow(w, past, row);
    } else {
      RestKnows(w, s, row);
      KnowsNext(w, s, past, row, Step(w, s, row).state);
    }
  }

  lemma RestKnows(w: Words, s: State, row: Row)
    requires !row.Tool?
    ensures var next := Step(w, s, row).state;
      && next.tools == s.tools
      && (next.seenCompactions == s.seenCompactions + CompactionIn(w)(row)
          || (next.seenCompactions == s.seenCompactions && forall key :: key in CompactionIn(w)(row) ==> key in s.seenCompactions))
  {
    assert s.seenCompactions + [] == s.seenCompactions;
  }

  /** The step does with the open chunk what the act does with the open speech. */
  ghost predicate Acted(out: StepOut, open: Option<Speech>, act: Act) {
    out.events == Hear(open, act).events && out.state.openChunk == Held(Hear(open, act).state)
  }

  lemma ClosesActed(s: State, open: Option<Speech>, events: seq<Event>)
    requires s.openChunk == Held(open)
    ensures Acted(Close(s, events), open, Break(events))
  {
    EndingCloses(open);
  }

  lemma PassActed(s: State, open: Option<Speech>)
    requires s.openChunk == Held(open)
    ensures Acted(Out(s, []), open, Pass)
  {
  }

  lemma MessageActed(s: State, open: Option<Speech>, role: Role, text: string, ts: Ts)
    requires s.openChunk == Held(open)
    ensures Acted(AppendMessage(s, role, text, ts), open, Speak(Loud(role), text, ts))
  {
    EndingCloses(open);
  }

  lemma ThoughtActed(s: State, open: Option<Speech>, text: Option<string>, redacted: bool, ts: Ts)
    requires s.openChunk == Held(open) && (redacted || text.Some?)
    ensures Acted(AppendThought(s, text, redacted, ts), open, if redacted then Speak(Veiled, "", ts) else Speak(Inner, text.value, ts))
  {
    EndingCloses(open);
  }

  lemma DeltaActs(w: Words, s: State, past: seq<Row>, row: Row, open: Option<Speech>)
    requires Knows(w, s, past) && s.openChunk == Held(open) && (row.MessageDelta? || row.ThoughtDelta?)
    ensures Acted(Step(w, s, row), open, ActAt(w, past, row))
  {
    var quiet := s.(mirror := None);
    match row {
      case MessageDelta(_, None, _) =>
        PassActed(quiet, open);
      case MessageDelta(Assistant, Some(text), ts) =>
        MessageActed(quiet, open, Assistant, text, ts);
      case MessageDelta(User, Some(text), ts) =>
        EchoKnows(past, row);
        var (shown, mirror) := Unmirrored(s.mirror, text);
        if shown.Some? { MessageActed(s.(mirror := mirror), open, User, shown.value, ts); }
      case ThoughtDelta(text, redacted, ts) =>
        if redacted || text.Some? { ThoughtActed(quiet, open, text, redacted, ts); }
    }
  }

  lemma WholeActs(w: Words, s: State, past: seq<Row>, row: Row, open: Option<Speech>)
    requires Knows(w, s, past) && s.openChunk == Held(open) && row.WholeMessage?
    ensures Acted(Step(w, s, row), open, ActAt(w, past, row))
  {
    InkIff(row.text);
    if Shown(row.text) {
      if row.role == Assistant {
        ClosesActed(s.(mirror := None), open, [Message(row.ts, Assistant, row.text.value, None)]);
      } else {
        EchoKnows(past, row);
        var (shown, mirror) := Unmirrored(s.mirror, row.text.value);
        if shown.Some? { ClosesActed(s.(mirror := mirror), open, [Message(row.ts, User, shown.value, None)]); }
      }
    }
  }

  lemma NativeActs(w: Words, s: State, past: seq<Row>, row: Row, open: Option<Speech>)
    requires s.openChunk == Held(open) && row.Native?
    ensures Acted(Step(w, s, row), open, ActAt(w, past, row))
  {
    InkIff(row.text);
    ClosesActed(s, open, NativeEvents(w, row));
  }

  lemma ToolActs(w: Words, s: State, past: seq<Row>, row: Row, open: Option<Speech>)
    requires Knows(w, s, past) && s.openChunk == Held(open) && row.Tool?
    ensures Acted(Step(w, s, row), open, ActAt(w, past, row))
  {
    var quiet := s.(mirror := None);
    ToolKnows(w, s, past, row.update, row.ts);
    var out := ToolStep(w, quiet, row.update, row.ts);
    ClosesActed(out.state, open, out.events);
  }

  lemma BoundaryActs(w: Words, s: State, past: seq<Row>, row: Row, open: Option<Speech>)
    requires Knows(w, s, past) && s.openChunk == Held(open)
    requires row.Prompt? || row.TurnEndMethod? || row.TurnEndUpdate? || row.WholeThought? || row.Compacted?
    ensures Acted(Step(w, s, row), open, ActAt(w, past, row))
  {
    EndingCloses(open);
    var quiet := s.(mirror := None);
    match row {
      case Prompt(_, text) =>
        InkIff(text);
      case TurnEndMethod(ts) =>
        ClosesActed(quiet, open, [TurnEnd(ts)]);
      case TurnEndUpdate(ts, None) =>
        assert [] + [TurnEnd(ts)] == [TurnEnd(ts)];
        ClosesActed(quiet, open, [TurnEnd(ts)]);
      case TurnEndUpdate(ts, Some(usage)) =>
        assert [TokenUsage(ts, usage)] + [TurnEnd(ts)] == [TokenUsage(ts, usage), TurnEnd(ts)];
        ClosesActed(quiet, open, [TokenUsage(ts, usage), TurnEnd(ts)]);
      case WholeThought(text, _, _) =>
        InkIff(text);
      case Compacted(_, _, _, _) =>
    }
  }

  lemma StepActs(w: Words, s: State, past: seq<Row>, row: Row, open: Option<Speech>)
    requires Knows(w, s, past) && s.openChunk == Held(open)
    ensures Acted(Step(w, s, row), open, ActAt(w, past, row))
  {
    if row.NotAnObject? || row.Ignored? {
      PassActed(s, open);
    } else if row.MessageDelta? || row.ThoughtDelta? {
      DeltaActs(w, s, past, row, open);
    } else if row.WholeMessage? {
      WholeActs(w, s, past, row, open);
    } else if row.Native? {
      NativeActs(w, s, past, row, open);
    } else if row.Tool? {
      ToolActs(w, s, past, row, open);
    } else {
      BoundaryActs(w, s, past, row, open);
    }
  }

  // ------------------------------------------------------------------
  // The projector says what the log says
  // ------------------------------------------------------------------

  /** The speech that is open after a log. */
  function Opened(w: Words, past: seq<Row>): Option<Speech> {
    Fold(Hearer(), None, Acts(w, past)).state
  }

  function Sayer(w: Words): (seq<Row>, Row) -> seq<Event> {
    (past, row) => Hear(Opened(w, past), ActAt(w, past, row)).events
  }

  ghost function Standing(w: Words): (State, seq<Row>) -> bool {
    (s, past) => Knows(w, s, past) && s.openChunk == Held(Opened(w, past))
  }

  lemma ActsNext(w: Words, past: seq<Row>, row: Row)
    ensures var before, next := Fold(Hearer(), None, Acts(w, past)), Hear(Opened(w, past), ActAt(w, past, row));
      Fold(Hearer(), None, Acts(w, past + [row])) == Out(next.state, before.events + next.events)
  {
    var more := past + [row];
    assert more[..|more| - 1] == past && more[|more| - 1] == row;
    FoldConcat(Hearer(), None, Acts(w, past), [ActAt(w, past, row)]);
    FoldOne(Hearer(), Opened(w, past), ActAt(w, past, row));
  }

  lemma StepObeys(w: Words, s: State, past: seq<Row>, row: Row)
    ensures Obeys(Stepper(w), Standing(w), Sayer(w), s, past, row)
  {
    if Standing(w)(s, past) {
      StepKnows(w, s, past, row);
      StepActs(w, s, past, row, Opened(w, past));
      ActsNext(w, past, row);
    }
  }

  lemma KnowsNothing(w: Words)
    ensures Standing(w)(INITIAL, [])
  {
    assert Acts(w, []) == [] && Opened(w, []) == None;
    assert Knows(w, INITIAL, []);
  }

  lemma RunActs(w: Words, rows: seq<Row>)
    ensures var out, heard := Run(w, INITIAL, rows), Fold(Hearer(), None, Acts(w, rows));
      Knows(w, out.state, rows) && out.events == heard.events && out.state.openChunk == Held(heard.state)
  {
    KnowsNothing(w);
    forall s, past, row ensures Obeys(Stepper(w), Standing(w), Sayer(w), s, past, row) { StepObeys(w, s, past, row); }
    FoldTells(Stepper(w), INITIAL, rows, Standing(w), Sayer(w));
    assert Standing(w)(Run(w, INITIAL, rows).state, rows);
    ToldIsHeard(w, rows);
  }

  lemma {:induction false} ToldIsHeard(w: Words, rows: seq<Row>)
    ensures Told(Sayer(w), rows) == Fold(Hearer(), None, Acts(w, rows)).events
  {
    if rows != [] {
      var n := |rows| - 1;
      ToldIsHeard(w, rows[..n]);
      ActsNext(w, rows[..n], rows[n]);
      assert rows[..n] + [rows[n]] == rows;
    }
  }

  /** What the acts say after a speech that is open. */
  function SaidAfter(open: Option<Speech>, acts: seq<Act>): seq<Event> {
    match open
    case None => Said(acts)
    case Some(Speech(voice, text, ts)) =>
      var n := Stretch(voice, acts);
      Uttered(voice, text + Flat(acts[..n], WordsOf), ts) + Said(acts[n..])
  }

  lemma {:induction false} HeardIsSaid(open: Option<Speech>, acts: seq<Act>)
    ensures var heard := Fold(Hearer(), open, acts);
      heard.events + Ending(heard.state) == SaidAfter(open, acts)
    decreases |acts|
  {
    if acts == [] {
      if open.Some? { assert open.value.text + [] == open.value.text; }
    } else {
      var first := Hear(open, acts[0]);
      HeardIsSaid(first.state, acts[1..]);
      SaidNext(open, acts);
      var rest := Fold(Hearer(), first.state, acts[1..]);
      Associates(first.events, rest.events, Ending(rest.state));
    }
  }

  lemma SaidFromSilence(acts: seq<Act>)
    requires acts != []
    ensures var first := Hear(None, acts[0]);
      Said(acts) == first.events + SaidAfter(first.state, acts[1..])
  {
    var rest := acts[1..];
    match acts[0] {
      case Pass =>
        assert [] + Said(rest) == Said(rest);
      case Break(events) =>
        assert [] + events == events;
      case Speak(voice, text, ts) =>
        var after := SaidAfter(Some(Speech(voice, text, ts)), rest);
        assert Said(acts) == after;
        assert [] + after == after;
    }
  }

  lemma StretchNext(voice: Voice, acts: seq<Act>)
    requires acts != [] && Continues(voice, acts[0])
    ensures var n := Stretch(voice, acts[1..]);
      && Stretch(voice, acts) == n + 1 && acts[n + 1..] == acts[1..][n..]
      && Flat(acts[..n + 1], WordsOf) == WordsOf(acts[0]) + Flat(acts[1..][..n], WordsOf)
  {
    var n := Stretch(voice, acts[1..]);
    assert acts[..n + 1][1..] == acts[1..][..n] && acts[..n + 1][0] == acts[0];
  }

  lemma SaidFurther(speech: Speech, acts: seq<Act>)
    requires acts != [] && Continues(speech.voice, acts[0])
    ensures var first := Hear(Some(speech), acts[0]);
      SaidAfter(Some(speech), acts) == first.events + SaidAfter(first.state, acts[1..])
  {
    var Speech(voice, text, ts) := speech;
    var n, more := Stretch(voice, acts[1..]), WordsOf(acts[0]);
    StretchNext(voice, acts);
    Associates(text, more, Flat(acts[1..][..n], WordsOf));
    assert text + "" == text;
    assert Hear(Some(speech), acts[0]) == Out(Some(Speech(voice, text + more, ts)), []);
    var after := SaidAfter(Some(Speech(voice, text + more, ts)), acts[1..]);
    assert SaidAfter(Some(speech), acts) == after;
    assert [] + after == after;
  }

  lemma SaidNext(open: Option<Speech>, acts: seq<Act>)
    requires acts != []
    ensures var first := Hear(open, acts[0]);
      SaidAfter(open, acts) == first.events + SaidAfter(first.state, acts[1..])
  {
    SaidFromSilence(acts);
    if open.Some? {
      if Continues(open.value.voice, acts[0]) {
        SaidFurther(open.value, acts);
      } else {
        var first, next := Hear(None, acts[0]), Hear(open, acts[0]);
        assert acts[..0] == [] && acts[0..] == acts && open.value.text + [] == open.value.text;
        assert next == Out(first.state, Ending(open) + first.events);
        Associates(Ending(open), first.events, SaidAfter(first.state, acts[1..]));
      }
    }
  }

  /**
   * The projection of a whole log, line by line and flushed at its end, is what the log
   * says: every row by what came before it, and one event for each stretch of speech.
   */
  lemma ProjectionIsTheLog(w: Words, rows: seq<Row>)
    ensures Project(w, INITIAL, rows) == Said(Acts(w, rows))
  {
    RunActs(w, rows);
    HeardIsSaid(None, Acts(w, rows));
    EndingCloses(Fold(Hearer(), None, Acts(w, rows)).state);
  }

  /** After any log, a tool row closes the open speech and publishes what the log says of its call. */
  lemma ToolPublished(w: Words, past: seq<Row>, u: ToolUpdate, ts: Ts)
    ensures var s := Run(w, INITIAL, past).state;
      Step(w, s, Tool(u, ts)).events == Closing(s.openChunk) + ToolSays(w, past, u, ts)
  {
    RunActs(w, past);
    ToolKnows(w, Run(w, INITIAL, past).state, past, u, ts);
  }

  // ------------------------------------------------------------------
  // The vocabulary of grok
  // ------------------------------------------------------------------

  /** Letters count alike in either case. */
  function Lower(c: char): char {
    if 'A' <= c <= 'Z' then c + ' ' else c
  }

  predicate SameWord(status: string, word: string) {
    |status| == |word| && forall i :: 0 <= i < |status| ==> Lower(status[i]) == word[i]
  }

  lemma SameWordIff(status: string, word: string)
    ensures AsciiLower(status) == word <==> SameWord(status, word)
  {
    var lower := AsciiLower(status);
    assert forall i :: 0 <= i < |status| ==> lower[i] == Lower(status[i]);
    if SameWord(status, word) { assert lower == word; }
  }

  /** A status ends a call when it is one of eight words, and is a failure when it is one of four of these. */
  lemma StatusWords(status: string)
    ensures GROK.failed(status) <==>
      SameWord(status, "failed") || SameWord(status, "error") || SameWord(status, "cancelled") || SameWord(status, "canceled")
    ensures GROK.terminal(status) <==>
      GROK.failed(status) || SameWord(status, "complete") || SameWord(status, "completed") || SameWord(status, "success")
      || SameWord(status, "succeeded")
  {
    assert GROK.failed(status) == IsErrorStatus(status) && GROK.terminal(status) == IsTerminalStatus(status);
    SameWordIff(status, "failed");
    SameWordIff(status, "error");
    SameWordIff(status, "cancelled");
    SameWordIff(status, "canceled");
    SameWordIff(status, "complete");
    SameWordIff(status, "completed");
    SameWordIff(status, "success");
    SameWordIff(status, "succeeded");
  }

  lemma CountsTellApart(m: Option<int>, n: Option<int>)
    ensures Count(m) == Count(n) <==> m == n
    ensures ':' !in Count(m)
  {
    if m.Some? {
      DecimalPlain(m.value, ':');
      DecimalPlain(m.value, '?');
    }
    if n.Some? { DecimalPlain(n.value, '?'); }
    if m.Some? && n.Some? { DecimalTellsApart(m.value, n.value); }
    assert m.None? ==> '?' in Count(m);
    assert n.None? ==> '?' in Count(n);
  }

  /** Compactions without an identity count as one when they agree in time and in both counts. */
  lemma CompactionsTellApart(ts: Ts, before: Option<int>, after: Option<int>, ts2: Ts, before2: Option<int>, after2: Option<int>)
    ensures GROK.compactionKey(ts, before, after) == GROK.compactionKey(ts2, before2, after2)
      <==> ts.GetOr("none") == ts2.GetOr("none") && before == before2 && after == after2
  {
    CountsTellApart(before, before2);
    CountsTellApart(before2, before);
    CountsTellApart(after, after2);
    CountsTellApart(after2, after);
    if GROK.compactionKey(ts, before, after) == GROK.compactionKey(ts2, before2, after2) {
      SplitLast(ts.GetOr("none") + ":" + Count(before), Count(after), ts2.GetOr("none") + ":" + Count(before2), Count(after2), ':');
      SplitLast(ts.GetOr("none"), Count(before), ts2.GetOr("none"), Count(before2), ':');
    }
  }

  /** A carriage return and a line feed. */
  predicate PairAt(s: string, i: nat) {
    i + 1 < |s| && s[i] == '\r' && s[i + 1] == '\n'
  }

  ghost predicate HasPair(s: string) {
    exists i :: PairAt(s, i)
  }

  /** A text without such pairs is left alone. */
  lemma {:induction false} NoPairs(s: string)
    requires !HasPair(s)
    ensures UnixLines(s) == s
  {
    if s != [] {
      assert !PairAt(s, 0);
      forall i: nat ensures !PairAt(s[1..], i) { assert !PairAt(s, i + 1); }
      NoPairs(s[1..]);
    }
  }

  /** And each of them becomes a line feed. */
  lemma {:induction false} PairBecomesFeed(x: string, y: string)
    ensures UnixLines(x + ("\r\n" + y)) == UnixLines(x) + ("\n" + UnixLines(y))
    decreases |x|
  {
    var pair, s := "\r\n" + y, x + ("\r\n" + y);
    if x == [] {
      assert s == pair && pair[2..] == y;
    } else if PairAt(x, 0) {
      PairBecomesFeed(x[2..], y);
      assert s[2..] == x[2..] + pair;
      Associates("\n", UnixLines(x[2..]), "\n" + UnixLines(y));
    } else {
      PairBecomesFeed(x[1..], y);
      assert s[1..] == x[1..] + pair;
      assert UnixLines(s) == [x[0]] + UnixLines(s[1..]);
      Associates([x[0]], UnixLines(x[1..]), "\n" + UnixLines(y));
    }
  }

  lemma {:induction false} TrimPads(pad: string, s: string)
    requires Blank(pad) && (s == [] || !IsSpace(s[0]))
    ensures TrimStart(pad + s) == s
  {
    if pad == [] {
      assert pad + s == s;
    } else {
      assert (pad + s)[1..] == pad[1..] + s;
      TrimPads(pad[1..], s);
    }
  }

  /** A text is a summary when, white space aside and each pair of the kind being one line feed, it starts with the whole scaffold. */
  lemma SummaryIff(text: string, pad: string, body: string)
    requires text == pad + body && Blank(pad) && (body == "" || !IsSpace(body[0]))
    ensures GROK.summary(text) <==> SUMMARY_PREFIX <= UnixLines(body)
    ensures !HasPair(body) ==> (GROK.summary(text) <==> SUMMARY_PREFIX <= body)
  {
    TrimPads(pad, body);
    if !HasPair(body) { NoPairs(body); }
    assert GROK.summary(text) == IsCompactionSummary(text);
  }
}
