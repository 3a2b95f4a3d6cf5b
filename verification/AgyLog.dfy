/** What every line of an agy log publishes, by the lines before it alone: v2/adapters/src/agy.ts. */
module AgyLog {
  import opened Wrappers
  import opened Text
  import opened Lists
  import opened Ordered
  import opened Runs
  import opened Counters
  import opened Agy

  // ------------------------------------------------------------------
  // The thread and the reports
  // ------------------------------------------------------------------

  function Named(line: Line): Option<string> {
    match line
    case Init(conversation) => conversation
    case Step(conversation, _) => conversation
    case Report(conversation, _) => conversation
    case _ => None
  }

  /** The conversation named last. */
  function ThreadIn(past: seq<Line>): Option<string> {
    if past == [] then None
    else match Named(past[|past| - 1])
      case Some(conversation) => Some(conversation)
      case None => ThreadIn(past[..|past| - 1])
  }

  /** The line names another conversation than the one before. */
  predicate Switches(past: seq<Line>, line: Line) {
    Named(line).Some? && ThreadIn(past).Some? && Named(line).value != ThreadIn(past).value
  }

  /** The last report about the thread, and its last known duration. */
  function LastReport(past: seq<Line>): Option<TurnResult> {
    if past == [] then None
    else
      var before, line := past[..|past| - 1], past[|past| - 1];
      if line.Report? then Some(line.result) else if Switches(before, line) then None else LastReport(before)
  }

  function LastDuration(past: seq<Line>): Option<int> {
    if past == [] then None
    else
      var before, line := past[..|past| - 1], past[|past| - 1];
      if line.Report? && line.result.duration.Some? then line.result.duration
      else if Switches(before, line) then None else LastDuration(before)
  }

  // ------------------------------------------------------------------
  // The steps
  // ------------------------------------------------------------------

  function IdIn(thread: Option<string>, step: Option<int>): string {
    "agy:" + (match thread case Some(name) => name case None => "unknown") + ":"
    + (match step case Some(number) => Decimal(number) case None => "unknown")
  }

  /** A step without number has no identity of its own. */
  function EventId(id: string): Option<string> {
    if |id| >= 8 && id[|id| - 8..] == ":unknown" then None else Some(id)
  }

  /** Among the last 1024. */
  predicate Lately(ids: seq<string>, id: string) {
    exists i :: 0 <= i < |ids| && |ids| - i <= 1024 && ids[i] == id
  }

  /** The text that is gathered for a step and not yet published. */
  function TextOf(past: seq<Line>, id: string): Option<string>
    decreases |past|, 0
  {
    if past == [] then None
    else
      var before, line := past[..|past| - 1], past[|past| - 1];
      match line
      case Report(_, _) => None
      case EndOfLog => None
      case Step(_, AgentResponse(step, delta, phase)) =>
        if id != IdIn(ThreadIn(past), step) || Lately(SaidBefore(before, line), id) then TextBefore(before, line, id)
        else if phase == Finished then None
        else if delta == "" then TextBefore(before, line, id)
        else Some(TextBefore(before, line, id).GetOr("") + delta)
      case _ => TextBefore(before, line, id)
  }

  function TextBefore(past: seq<Line>, line: Line, id: string): Option<string>
    decreases |past|, 1
  {
    if Switches(past, line) then None else TextOf(past, id)
  }

  /** The steps with such a text, in the order in which it began. */
  function Open(past: seq<Line>): seq<string>
    decreases |past|, 1
  {
    if past == [] then []
    else
      var before, line := past[..|past| - 1], past[|past| - 1];
      match line
      case Report(_, _) => []
      case EndOfLog => []
      case Step(_, AgentResponse(step, _, _)) =>
        var id, open := IdIn(ThreadIn(past), step), OpenBefore(before, line);
        if TextOf(past, id).Some? then Add(open, id) else Without(open, id)
      case _ => OpenBefore(before, line)
  }

  function OpenBefore(past: seq<Line>, line: Line): seq<string>
    decreases |past|, 2
  {
    if Switches(past, line) then [] else Open(past)
  }

  /** A step that is done has this to publish. */
  function Whole(past: seq<Line>, line: Line, id: string, delta: string): string
    decreases |past|, 2
  {
    TextBefore(past, line, id).GetOr("") + delta
  }

  /** The steps whose messages the line publishes. */
  function Publishes(past: seq<Line>, line: Line): seq<string>
    decreases |past|, 3
  {
    match line
    case Step(_, AgentResponse(step, delta, Finished)) =>
      var id := IdIn(ThreadIn(past + [line]), step);
      if Lately(SaidBefore(past, line), id) || Blank(Whole(past, line, id, delta)) then [] else [id]
    case EndOfLog => NotBlank(past, Open(past))
    case _ => []
  }

  function NotBlank(past: seq<Line>, ids: seq<string>): seq<string>
    decreases |past|, 2, |ids|
  {
    if ids == [] then []
    else (if Blank(TextOf(past, ids[0]).GetOr("")) then [] else [ids[0]]) + NotBlank(past, ids[1..])
  }

  /** The steps of the thread whose messages were published. */
  function SaidIn(past: seq<Line>): seq<string>
    decreases |past|, 0
  {
    if past == [] then []
    else
      var before, line := past[..|past| - 1], past[|past| - 1];
      SaidBefore(before, line) + Publishes(before, line)
  }

  function SaidBefore(past: seq<Line>, line: Line): seq<string>
    decreases |past|, 1
  {
    if Switches(past, line) then [] else SaidIn(past)
  }

  /** Assistant text was published since the last `init`, user turn and report. */
  predicate Heard(past: seq<Line>) {
    past != [] &&
    var before, line := past[..|past| - 1], past[|past| - 1];
    match line
    case Init(_) => false
    case Report(_, _) => false
    case UserTurn(Some(_)) => false
    case _ => Publishes(before, line) != [] || Heard(before)
  }

  /** A tool step starts. */
  predicate Starts(line: Line) {
    line.Step? && line.update.ToolUpdate? && line.update.phase == Active
  }

  /** A tool step is done or has failed. */
  predicate Ends(line: Line) {
    line.Step? && line.update.ToolUpdate? && (line.update.phase == Finished || line.update.phase == Failed)
  }

  /** The tool steps of the thread that were published as started, or as ended. */
  function ToolsIn(past: seq<Line>, kind: Line -> bool): seq<string>
    decreases |past|, 0
  {
    if past == [] then []
    else
      var before, line := past[..|past| - 1], past[|past| - 1];
      ToolsBefore(before, line, kind) + NewTool(before, line, kind)
  }

  function ToolsBefore(past: seq<Line>, line: Line, kind: Line -> bool): seq<string>
    decreases |past|, 1
  {
    if Switches(past, line) then [] else ToolsIn(past, kind)
  }

  function NewTool(past: seq<Line>, line: Line, kind: Line -> bool): seq<string>
    decreases |past|, 2
  {
    if !line.Step? || !line.update.ToolUpdate? || !kind(line) then []
    else
      var id := IdIn(ThreadIn(past + [line]), line.update.step);
      if Lately(ToolsBefore(past, line, kind), id) then [] else [id]
  }

  // ------------------------------------------------------------------
  // What a line publishes
  // ------------------------------------------------------------------

  /** The turn number rose since the last report of the thread. */
  predicate Rose(last: Option<TurnResult>, r: TurnResult) {
    last.Some? && last.value.turns.Some? && r.turns.Some? && last.value.turns.value < r.turns.value
  }

  /** What a cumulative counter grew by, when the last report of the thread tells. */
  function Growth(last: Option<TurnResult>, r: TurnResult, c: Counter): int
    requires r.usage.Some? && c in r.usage.value
  {
    if Rose(last, r) && last.value.usage.Some? && c in last.value.usage.value && last.value.usage.value[c] <= r.usage.value[c]
    then r.usage.value[c] - last.value.usage.value[c]
    else r.usage.value[c]
  }

  function Lasted(last: Option<TurnResult>, known: Option<int>, r: TurnResult): Option<int> {
    if (last.None? || last.value.turns.None?) && r.turns == Some(1) then r.duration
    else if Rose(last, r) && known.Some? && r.duration.Some? && known.value <= r.duration.value
    then Some(r.duration.value - known.value)
    else None
  }

  function ReportSays(past: seq<Line>, line: Line): seq<Event>
    requires line.Report?
  {
    var thread, r := ThreadIn(past + [line]), line.result;
    var last := if Switches(past, line) then None else LastReport(past);
    var known := if Switches(past, line) then None else LastDuration(past);
    var turn := if thread.Some? && r.turns.Some? then Some(thread.value + ":" + Decimal(r.turns.value)) else None;
    (if r.response.Some? && !Heard(past) then [AssistantMessage(thread, r.response.value, None)] else [])
    + (if r.usage.Some? then [TokenUsage(thread, map c | c in r.usage.value :: Growth(last, r, c), turn)] else [])
    + (if r.status == StatusError
       then [Interrupt(thread, match (r.error, r.response)
                               case (Some(error), _) => error
                               case (None, Some(response)) => response
                               case (None, None) => "agy result error")]
       else [])
    + [TurnEnd(thread, turn, Lasted(last, known, r), r.status)]
  }

  function MessageAtEnd(past: seq<Line>): string -> seq<Event> {
    id => var text := TextOf(past, id).GetOr("");
      if Blank(text) then [] else [AssistantMessage(ThreadIn(past), text, EventId(id))]
  }

  function Says(past: seq<Line>, line: Line): seq<Event> {
    var thread := ThreadIn(past + [line]);
    match line
    case Noise => []
    case Init(_) => []
    case UserTurn(None) => []
    case UserTurn(Some(text)) => [TurnStart(thread), UserMessage(thread, text)]
    case OtherEvent(name) => [Unknown(thread, name)]
    case Step(_, OtherStep) => []
    case Step(_, AgentResponse(step, delta, _)) =>
      var id := IdIn(thread, step);
      if Publishes(past, line) == [] then []
      else [AssistantMessage(thread, Whole(past, line, id, delta), if step.Some? then Some(id) else None)]
    case Step(_, ToolUpdate(step, phase, name, input, output)) =>
      var id := IdIn(thread, step);
      (if NewTool(past, line, Starts) == [] then [] else [ToolCall(thread, id, name, input)])
      + (if NewTool(past, line, Ends) == [] then [] else [ToolResult(thread, id, name, phase == Failed, output)])
    case Report(_, _) => ReportSays(past, line)
    case EndOfLog => Flat(Open(past), MessageAtEnd(past))
  }

  function Published(lines: seq<Line>): seq<Event> {
    Told(Sayer(), lines)
  }

  function Sayer(): (seq<Line>, Line) -> seq<Event> {
    (past, line) => Says(past, line)
  }

  // ------------------------------------------------------------------
  // The projector remembers just what it needs of the log
  // ------------------------------------------------------------------

  /** All that later lines depend on. */
  datatype Reading = Reading(
    thread: Option<string>, heard: bool, last: Option<TurnResult>, known: Option<int>,
    said: seq<string>, starts: seq<string>, ends: seq<string>, open: seq<string>, text: string -> Option<string>)

  function ReadingOf(past: seq<Line>): Reading {
    Reading(ThreadIn(past), Heard(past), LastReport(past), LastDuration(past), SaidIn(past),
            ToolsIn(past, Starts), ToolsIn(past, Ends), Open(past), id => TextOf(past, id))
  }

  /** What of it counts once the thread of the next line is known. */
  function ReadingFor(past: seq<Line>, line: Line): Reading {
    var off := Switches(past, line);
    Reading(ThreadIn(past + [line]), Heard(past), if off then None else LastReport(past), if off then None else LastDuration(past),
            SaidBefore(past, line), ToolsBefore(past, line, Starts), ToolsBefore(past, line, Ends), OpenBefore(past, line),
            id => TextBefore(past, line, id))
  }

  /** The most recent of the identities, none of which recurs among so many. */
  ghost predicate Keeps(kept: seq<string>, ids: seq<string>) {
    && kept == (if |ids| <= 1024 then ids else ids[|ids| - 1024..])
    && forall i, j :: 0 <= i < j < |ids| && j - i <= 1024 ==> ids[i] != ids[j]
  }

  function FragmentOf(text: Option<string>, id: string): Option<Fragment> {
    match text
    case None => None
    case Some(t) => Some(Fragment(t, EventId(id)))
  }

  ghost predicate HoldsOpen(es: Entries<Fragment>, open: seq<string>, text: string -> Option<string>) {
    DistinctKeys(es) && KeysOf(es) == open && forall id :: Get(es, id) == FragmentOf(text(id), id)
  }

  ghost predicate Stands(s: State, r: Reading) {
    && s.thread == r.thread && s.sawAssistantText == r.heard && s.duration == r.known
    && s.usage == (if r.last.Some? then r.last.value.usage else None)
    && s.turns == (if r.last.Some? then r.last.value.turns else None)
    && Keeps(s.messages, r.said) && Keeps(s.calls, r.starts) && Keeps(s.results, r.ends)
    && HoldsOpen(s.fragments, r.open, r.text)
    && forall id :: id in r.open ==> !Lately(r.said, id)
  }

  lemma LatelyIff(kept: seq<string>, ids: seq<string>, id: string)
    requires Keeps(kept, ids)
    ensures id in kept <==> Lately(ids, id)
  {
    var skip := |ids| - |kept|;
    if Lately(ids, id) {
      var i :| 0 <= i < |ids| && |ids| - i <= 1024 && ids[i] == id;
      assert kept[i - skip] == id;
    }
    if id in kept {
      var k :| 0 <= k < |kept| && kept[k] == id;
      assert ids[k + skip] == id;
    }
  }

  lemma KeepsNext(kept: seq<string>, ids: seq<string>, id: string)
    requires Keeps(kept, ids) && !Lately(ids, id)
    ensures Keeps(Remember(kept, id, DEDUPE_LIMIT), ids + [id])
  {
    LatelyIff(kept, ids, id);
    var more := ids + [id];
    assert |ids| >= 1024 ==> (kept + [id])[1..] == more[|more| - 1024..];
  }

  lemma LastLine(past: seq<Line>, line: Line)
    ensures (past + [line])[..|past + [line]| - 1] == past && (past + [line])[|past|] == line
  {
  }

  lemma SaidNext(past: seq<Line>, line: Line)
    ensures SaidIn(past + [line]) == SaidBefore(past, line) + Publishes(past, line)
    ensures Publishes(past, line) == [] ==> SaidIn(past + [line]) == SaidBefore(past, line)
  {
    LastLine(past, line);
    assert SaidBefore(past, line) + [] == SaidBefore(past, line);
  }

  lemma ToolsNext(past: seq<Line>, line: Line, kind: Line -> bool)
    ensures ToolsIn(past + [line], kind) == ToolsBefore(past, line, kind) + NewTool(past, line, kind)
    ensures NewTool(past, line, kind) == [] ==> ToolsIn(past + [line], kind) == ToolsBefore(past, line, kind)
  {
    LastLine(past, line);
    assert ToolsBefore(past, line, kind) + [] == ToolsBefore(past, line, kind);
  }

  lemma Adopts(s: State, past: seq<Line>, line: Line)
    requires Stands(s, ReadingOf(past))
    ensures Stands(RememberThread(s, Named(line)), ReadingFor(past, line))
  {
    LastLine(past, line);
    assert Named(line).Some? ==> (ChangesThread(s.thread, Named(line)) <==> Switches(past, line));
  }

  // ------------------------------------------------------------------
  // Every line follows
  // ------------------------------------------------------------------

  ghost predicate Follows(s: State, past: seq<Line>, line: Line) {
    Stands(Next(s, line).state, ReadingOf(past + [line])) && Next(s, line).events == Says(past, line)
  }

  lemma DecimalEnds(n: int)
    ensures Decimal(n) != [] && '0' <= Decimal(n)[|Decimal(n)| - 1] <= '9'
    decreases if n < 0 then 1 - n else n
  {
    if n < 0 { DecimalEnds(-n); }
  }

  lemma EventIdOf(thread: Option<string>, step: Option<int>)
    ensures EventId(IdIn(thread, step)) == if step.Some? then Some(IdIn(thread, step)) else None
  {
    var id := IdIn(thread, step);
    if step.Some? {
      DecimalEnds(step.value);
      assert id[|id| - 1] == Decimal(step.value)[|Decimal(step.value)| - 1];
      if |id| >= 8 { assert id[|id| - 8..][7] == id[|id| - 1]; }
    } else {
      assert id[|id| - 8..] == ":unknown";
    }
  }

  /** The held texts after a delta of the step `id`. */
  lemma Collects(s: State, r: Reading, id: string, step: Option<int>, delta: string, next: string -> Option<string>)
    requires Stands(s, r) && !Lately(r.said, id) && EventId(id) == (if step.Some? then Some(id) else None)
    requires forall x :: next(x) == if x == id && delta != "" then Some(r.text(id).GetOr("") + delta) else r.text(x)
    ensures HoldsOpen(Collected(s, id, step, delta), if delta == "" then r.open else Add(r.open, id), next)
  {
    LatelyIff(s.messages, r.said, id);
    if delta != "" {
      var held := Get(s.fragments, id);
      var f := Fragment((if held.Some? then held.value.text else "") + delta, if step.Some? then Some(id) else None);
      PutDistinct(s.fragments, id, f);
      KeysPut(s.fragments, id, f);
      forall x ensures Get(Put(s.fragments, id, f), x) == if x == id then Some(f) else Get(s.fragments, x) {
        GetPut(s.fragments, id, f, x);
      }
    }
  }

  lemma Deletes(es: Entries<Fragment>, open: seq<string>, text: string -> Option<string>, id: string, next: string -> Option<string>)
    requires HoldsOpen(es, open, text)
    requires forall x :: next(x) == if x == id then None else text(x)
    ensures HoldsOpen(Delete(es, id), Without(open, id), next)
  {
    KeysDelete(es, id);
    forall x ensures Get(Delete(es, id), x) == if x == id then None else Get(es, x) {
      GetDelete(es, id, x);
    }
    GetDelete(es, id, id);
  }

  lemma OpenIff(s: State, r: Reading, id: string)
    requires Stands(s, r)
    ensures id in r.open <==> r.text(id).Some?
  {
    KeysIn(s.fragments, id);
  }

  lemma TextStays(past: seq<Line>, line: Line, id: string)
    requires line.Step? && line.update.AgentResponse? && id == IdIn(ThreadIn(past + [line]), line.update.step)
    ensures forall x :: x != id ==> TextOf(past + [line], x) == TextBefore(past, line, x)
    ensures Lately(SaidBefore(past, line), id) ==> TextOf(past + [line], id) == TextBefore(past, line, id)
    ensures !Lately(SaidBefore(past, line), id) && line.update.phase == Finished ==> TextOf(past + [line], id) == None
    ensures !Lately(SaidBefore(past, line), id) && line.update.phase != Finished ==>
      TextOf(past + [line], id) == if line.update.delta == "" then TextBefore(past, line, id)
        else Some(TextBefore(past, line, id).GetOr("") + line.update.delta)
  {
    LastLine(past, line);
  }

  /** A line of the thread that is no report and starts or ends no tool step. */
  ghost predicate Talks(r: Reading, n: Reading, said: seq<string>) {
    && n.thread == r.thread && n.last == r.last && n.known == r.known && n.starts == r.starts && n.ends == r.ends
    && n.said == r.said + said && n.heard == (said != [] || r.heard)
  }

  lemma AgentTalks(past: seq<Line>, line: Line, id: string)
    requires line.Step? && line.update.AgentResponse? && id == IdIn(ThreadIn(past + [line]), line.update.step)
    ensures var n, r := ReadingOf(past + [line]), ReadingFor(past, line);
      Talks(r, n, Publishes(past, line)) && n.open == if n.text(id).Some? then Add(r.open, id) else Without(r.open, id)
  {
    LastLine(past, line);
    SaidNext(past, line);
    ToolsNext(past, line, Starts);
    ToolsNext(past, line, Ends);
  }

  lemma LateStands(t: State, r: Reading, n: Reading, id: string)
    requires Stands(t, r) && Talks(r, n, []) && Lately(r.said, id)
    requires (forall x :: n.text(x) == r.text(x)) && n.open == if n.text(id).Some? then Add(r.open, id) else Without(r.open, id)
    ensures Stands(t, n) && id in t.messages
  {
    LatelyIff(t.messages, r.said, id);
    OpenIff(t, r, id);
    WithoutAbsent(r.open, id);
    assert r.said + [] == r.said;
  }

  /** More text of a step, that is not done yet. */
  lemma MoreStands(t: State, r: Reading, n: Reading, id: string, step: Option<int>, delta: string)
    requires Stands(t, r) && Talks(r, n, []) && !Lately(r.said, id)
    requires EventId(id) == (if step.Some? then Some(id) else None)
    requires forall x :: n.text(x) == if x == id && delta != "" then Some(r.text(id).GetOr("") + delta) else r.text(x)
    requires n.open == if n.text(id).Some? then Add(r.open, id) else Without(r.open, id)
    ensures Stands(t.(fragments := Collected(t, id, step, delta)), n)
  {
    Collects(t, r, id, step, delta, n.text);
    OpenIff(t, r, id);
    if n.text(id).None? { WithoutAbsent(r.open, id); }
    assert r.said + [] == r.said;
  }

  /** A step that is done is no longer held, and was published unless its text is blank. */
  lemma DoneHeld(t: State, r: Reading, n: Reading, id: string, step: Option<int>, delta: string)
    requires Stands(t, r) && !Lately(r.said, id) && EventId(id) == (if step.Some? then Some(id) else None)
    requires (forall x :: n.text(x) == if x == id then None else r.text(x)) && n.open == Without(r.open, id)
    ensures var collected, text := Collected(t, id, step, delta), r.text(id).GetOr("") + delta;
      && HoldsOpen(Delete(collected, id), n.open, n.text)
      && Get(collected, id) == if r.text(id).None? && delta == "" then None else Some(Fragment(text, EventId(id)))
  {
    var collected, text := Collected(t, id, step, delta), r.text(id).GetOr("") + delta;
    var more: string -> Option<string> := x => if x == id && delta != "" then Some(text) else r.text(x);
    Collects(t, r, id, step, delta, more);
    Deletes(collected, if delta == "" then r.open else Add(r.open, id), more, id, n.text);
    WithoutAdded(r.open, id);
    assert r.text(id).GetOr("") + "" == r.text(id).GetOr("");
  }

  lemma DoneStands(t: State, r: Reading, n: Reading, id: string, step: Option<int>, delta: string)
    requires Stands(t, r) && !Lately(r.said, id) && EventId(id) == (if step.Some? then Some(id) else None)
    requires var text := r.text(id).GetOr("") + delta; Talks(r, n, if Blank(text) then [] else [id])
    requires (forall x :: n.text(x) == if x == id then None else r.text(x)) && n.open == Without(r.open, id)
    ensures var text := r.text(id).GetOr("") + delta;
      var left := t.(fragments := Delete(Collected(t, id, step, delta), id));
      && Stands(if Blank(text) then left
                else left.(messages := Remember(t.messages, id, DEDUPE_LIMIT), sawAssistantText := true), n)
      && Get(Collected(t, id, step, delta), id) == (if r.text(id).None? && delta == "" then None else Some(Fragment(text, EventId(id))))
  {
    DoneHeld(t, r, n, id, step, delta);
    KeepsNext(t.messages, r.said, id);
    assert r.said + [] == r.said;
    OpenLeft(t, r, n, id);
  }

  lemma OpenLeft(t: State, r: Reading, n: Reading, id: string)
    requires Stands(t, r) && n.open == Without(r.open, id)
    requires n.said == r.said || n.said == r.said + [id]
    ensures forall x :: x in n.open ==> !Lately(n.said, x)
  {
    KeysDistinct(t.fragments);
    WithoutMembers(r.open, id);
    forall x | x in n.open ensures !Lately(n.said, x) {
      LatelySnoc(r.said, id, x);
    }
  }

  lemma LatelySnoc(ids: seq<string>, id: string, x: string)
    requires x != id
    ensures Lately(ids + [id], x) ==> Lately(ids, x)
  {
    if i :| 0 <= i < |ids + [id]| && |ids + [id]| - i <= 1024 && (ids + [id])[i] == x {
      assert ids[i] == x;
    }
  }

  lemma AgentOut(past: seq<Line>, line: Line, id: string)
    requires line.Step? && line.update.AgentResponse? && id == IdIn(ThreadIn(past + [line]), line.update.step)
    ensures var AgentResponse(step, delta, phase) := line.update;
      && (Lately(SaidBefore(past, line), id) || phase != Finished ==> Publishes(past, line) == [] && Says(past, line) == [])
      && (!Lately(SaidBefore(past, line), id) && phase == Finished ==>
            var text := TextBefore(past, line, id).GetOr("") + delta;
            && Publishes(past, line) == (if Blank(text) then [] else [id])
            && Says(past, line) == if Blank(text) then []
               else [AssistantMessage(ThreadIn(past + [line]), text, if step.Some? then Some(id) else None)])
  {
  }

  lemma LateFollows(s: State, past: seq<Line>, line: Line, id: string)
    requires Stands(s, ReadingOf(past)) && line.Step? && line.update.AgentResponse?
    requires id == IdIn(ThreadIn(past + [line]), line.update.step) && Lately(SaidBefore(past, line), id)
    ensures Follows(s, past, line)
  {
    var t, r := RememberThread(s, Named(line)), ReadingFor(past, line);
    Adopts(s, past, line);
    AgentOut(past, line, id);
    assert Stands(t, ReadingOf(past + [line])) && id in t.messages by {
      AgentTalks(past, line, id);
      TextStays(past, line, id);
      LateStands(t, r, ReadingOf(past + [line]), id);
    }
    assert Next(s, line) == Out(t, []);
  }

  lemma MoreFollows(s: State, past: seq<Line>, line: Line, id: string)
    requires Stands(s, ReadingOf(past)) && line.Step? && line.update.AgentResponse? && line.update.phase != Finished
    requires id == IdIn(ThreadIn(past + [line]), line.update.step) && !Lately(SaidBefore(past, line), id)
    ensures Follows(s, past, line)
  {
    var t, r := RememberThread(s, Named(line)), ReadingFor(past, line);
    var AgentResponse(step, delta, _) := line.update;
    Adopts(s, past, line);
    AgentOut(past, line, id);
    assert Stands(t.(fragments := Collected(t, id, step, delta)), ReadingOf(past + [line])) by {
      AgentTalks(past, line, id);
      TextStays(past, line, id);
      EventIdOf(r.thread, step);
      MoreStands(t, r, ReadingOf(past + [line]), id, step, delta);
    }
    assert Next(s, line) == Out(t.(fragments := Collected(t, id, step, delta)), []);
  }

  /** So a step that is done does and says just this. */
  lemma DoneStep(t: State, r: Reading, n: Reading, id: string, step: Option<int>, delta: string)
    requires Stands(t, r) && !Lately(r.said, id) && EventId(id) == (if step.Some? then Some(id) else None)
    requires id == IdIn(t.thread, step)
    requires var text := r.text(id).GetOr("") + delta; Talks(r, n, if Blank(text) then [] else [id])
    requires (forall x :: n.text(x) == if x == id then None else r.text(x)) && n.open == Without(r.open, id)
    ensures var text := r.text(id).GetOr("") + delta; var out := AgentStep(t, step, delta, Finished);
      && Stands(out.state, n)
      && out.events == if Blank(text) then [] else [AssistantMessage(t.thread, text, if step.Some? then Some(id) else None)]
  {
    LatelyIff(t.messages, r.said, id);
    DoneStands(t, r, n, id, step, delta);
  }

  lemma DoneFollows(s: State, past: seq<Line>, line: Line, id: string)
    requires Stands(s, ReadingOf(past)) && line.Step? && line.update.AgentResponse? && line.update.phase == Finished
    requires id == IdIn(ThreadIn(past + [line]), line.update.step) && !Lately(SaidBefore(past, line), id)
    ensures Follows(s, past, line)
  {
    var t, r := RememberThread(s, Named(line)), ReadingFor(past, line);
    Adopts(s, past, line);
    AgentTalks(past, line, id);
    TextStays(past, line, id);
    AgentOut(past, line, id);
    EventIdOf(r.thread, line.update.step);
    DoneStep(t, r, ReadingOf(past + [line]), id, line.update.step, line.update.delta);
  }

  lemma AgentFollows(s: State, past: seq<Line>, line: Line)
    requires Stands(s, ReadingOf(past)) && line.Step? && line.update.AgentResponse?
    ensures Follows(s, past, line)
  {
    var id := IdIn(ThreadIn(past + [line]), line.update.step);
    if Lately(SaidBefore(past, line), id) {
      LateFollows(s, past, line, id);
    } else if line.update.phase != Finished {
      MoreFollows(s, past, line, id);
    } else {
      DoneFollows(s, past, line, id);
    }
  }

  // ------------------------------------------------------------------
  // Tool steps, reports and the rest
  // ------------------------------------------------------------------

  /** A line that says and holds nothing of an answer, and is no report. */
  ghost predicate Passes(r: Reading, n: Reading, starts: seq<string>, ends: seq<string>) {
    && n.thread == r.thread && n.last == r.last && n.known == r.known && n.said == r.said && n.heard == r.heard
    && n.open == r.open && (forall x :: n.text(x) == r.text(x)) && n.starts == r.starts + starts && n.ends == r.ends + ends
  }

  lemma StepPasses(past: seq<Line>, line: Line)
    requires line.Step? && !line.update.AgentResponse?
    ensures Passes(ReadingFor(past, line), ReadingOf(past + [line]), NewTool(past, line, Starts), NewTool(past, line, Ends))
  {
    LastLine(past, line);
    SaidNext(past, line);
    ToolsNext(past, line, Starts);
    ToolsNext(past, line, Ends);
  }

  lemma KeepsIf(kept: seq<string>, ids: seq<string>, id: string, add: bool)
    requires Keeps(kept, ids) && (add ==> !Lately(ids, id))
    ensures Keeps(if add then Remember(kept, id, DEDUPE_LIMIT) else kept, ids + if add then [id] else [])
  {
    if add { KeepsNext(kept, ids, id); }
    assert ids + [] == ids;
  }

  lemma ToolStepIs(t: State, u: StepUpdate, id: string, starts: bool, ends: bool)
    requires u.ToolUpdate? && id == StepId(t.thread, u.step)
    requires starts == (u.phase == Active && id !in t.calls)
    requires ends == ((u.phase == Finished || u.phase == Failed) && id !in t.results)
    ensures ToolStep(t, u) == Out(
      t.(calls := if starts then Remember(t.calls, id, DEDUPE_LIMIT) else t.calls,
         results := if ends then Remember(t.results, id, DEDUPE_LIMIT) else t.results),
      if starts then [ToolCall(t.thread, id, u.name, u.input)]
      else if ends then [ToolResult(t.thread, id, u.name, u.phase == Failed, u.output)] else [])
  {
  }

  /** What a tool step does: a new start is added, or a new end. */
  lemma ToolStands(t: State, r: Reading, n: Reading, u: StepUpdate, id: string)
    requires Stands(t, r) && u.ToolUpdate? && id == StepId(t.thread, u.step)
    requires Passes(r, n, if u.phase == Active && !Lately(r.starts, id) then [id] else [],
                          if (u.phase == Finished || u.phase == Failed) && !Lately(r.ends, id) then [id] else [])
    ensures Stands(ToolStep(t, u).state, n)
    ensures ToolStep(t, u).events ==
      if u.phase == Active && !Lately(r.starts, id) then [ToolCall(t.thread, id, u.name, u.input)]
      else if (u.phase == Finished || u.phase == Failed) && !Lately(r.ends, id)
      then [ToolResult(t.thread, id, u.name, u.phase == Failed, u.output)] else []
  {
    var starts := u.phase == Active && !Lately(r.starts, id);
    var ends := (u.phase == Finished || u.phase == Failed) && !Lately(r.ends, id);
    LatelyIff(t.calls, r.starts, id);
    LatelyIff(t.results, r.ends, id);
    KeepsIf(t.calls, r.starts, id, starts);
    KeepsIf(t.results, r.ends, id, ends);
    ToolStepIs(t, u, id, starts, ends);
  }

  lemma ToolOut(past: seq<Line>, line: Line, id: string)
    requires line.Step? && line.update.ToolUpdate? && id == IdIn(ThreadIn(past + [line]), line.update.step)
    ensures var u, r := line.update, ReadingFor(past, line);
      && NewTool(past, line, Starts) == (if u.phase == Active && !Lately(r.starts, id) then [id] else [])
      && NewTool(past, line, Ends) == (if (u.phase == Finished || u.phase == Failed) && !Lately(r.ends, id) then [id] else [])
      && Says(past, line) ==
        if u.phase == Active && !Lately(r.starts, id) then [ToolCall(r.thread, id, u.name, u.input)]
        else if (u.phase == Finished || u.phase == Failed) && !Lately(r.ends, id)
        then [ToolResult(r.thread, id, u.name, u.phase == Failed, u.output)] else []
  {
  }

  lemma ToolFollows(s: State, past: seq<Line>, line: Line)
    requires Stands(s, ReadingOf(past)) && line.Step? && line.update.ToolUpdate?
    ensures Follows(s, past, line)
  {
    var t, r, n := RememberThread(s, Named(line)), ReadingFor(past, line), ReadingOf(past + [line]);
    var id := IdIn(r.thread, line.update.step);
    Adopts(s, past, line);
    StepPasses(past, line);
    ToolOut(past, line, id);
    ToolStands(t, r, n, line.update, id);
    assert Next(s, line) == ToolStep(t, line.update);
  }

  lemma PassStands(t: State, r: Reading, n: Reading)
    requires Stands(t, r) && Passes(r, n, [], [])
    ensures Stands(t, n)
  {
    assert r.starts + [] == r.starts && r.ends + [] == r.ends;
  }

  lemma OtherStepFollows(s: State, past: seq<Line>, line: Line)
    requires Stands(s, ReadingOf(past)) && line.Step? && line.update.OtherStep?
    ensures Follows(s, past, line)
  {
    assert Stands(Next(s, line).state, ReadingOf(past + [line])) by {
      Adopts(s, past, line);
      StepPasses(past, line);
      PassStands(RememberThread(s, Named(line)), ReadingFor(past, line), ReadingOf(past + [line]));
    }
  }

  /** A line that is no step and no end of the log says and starts nothing that counts later. */
  lemma PlainReading(past: seq<Line>, line: Line)
    requires !line.Step? && !line.EndOfLog?
    ensures var r, n := ReadingFor(past, line), ReadingOf(past + [line]);
      && n.thread == r.thread && n.said == r.said && n.starts == r.starts && n.ends == r.ends
      && (line.Report? ==> n.last == Some(line.result) && n.open == [] && !n.heard && forall x :: n.text(x) == None)
      && (line.Report? ==> n.known == if line.result.duration.Some? then line.result.duration else r.known)
      && (!line.Report? ==> n.last == r.last && n.known == r.known && n.open == r.open && forall x :: n.text(x) == r.text(x))
      && (!line.Report? ==> n.heard == (r.heard && !line.Init? && !(line.UserTurn? && line.text.Some?)))
  {
    LastLine(past, line);
    SaidNext(past, line);
    ToolsNext(past, line, Starts);
    ToolsNext(past, line, Ends);
  }

  lemma ReportFollows(s: State, past: seq<Line>, line: Line)
    requires Stands(s, ReadingOf(past)) && line.Report?
    ensures Follows(s, past, line)
  {
    Adopts(s, past, line);
    PlainReading(past, line);
    ReportPublishes(RememberThread(s, Named(line)), past, line);
  }

  lemma GrowthIsDelta(t: State, rd: Reading, r: TurnResult)
    requires Stands(t, rd) && r.usage.Some?
    ensures DeltaOf(r.usage.value, t.usage.GetOr(map[]), t.usage.Some? && Rises(t.turns, r.turns))
         == map c | c in r.usage.value :: Growth(rd.last, r, c)
  {
  }

  lemma LastedIsDuration(t: State, rd: Reading, r: TurnResult)
    requires Stands(t, rd)
    ensures TurnDuration(t, r) == Lasted(rd.last, rd.known, r)
  {
  }

  lemma ReportPublishes(t: State, past: seq<Line>, line: Line)
    requires line.Report? && Stands(t, ReadingFor(past, line))
    ensures ReportEvents(t, line.result) == ReportSays(past, line)
  {
    var rd, r := ReadingFor(past, line), line.result;
    var turn := if rd.thread.Some? && r.turns.Some? then Some(rd.thread.value + ":" + Decimal(r.turns.value)) else None;
    LastedIsDuration(t, rd, r);
    if r.usage.Some? { GrowthIsDelta(t, rd, r); }
    assert TurnId(t, r) == turn && t.thread == rd.thread && t.sawAssistantText == Heard(past);
    assert UsageEvents(t, r) ==
      if r.usage.Some? then [TokenUsage(rd.thread, map c | c in r.usage.value :: Growth(rd.last, r, c), turn)] else [];
    ReportIs(t, r, rd, past, line, turn);
  }

  lemma ReportIs(t: State, r: TurnResult, rd: Reading, past: seq<Line>, line: Line, turn: Option<string>)
    requires line.Report? && r == line.result && rd == ReadingFor(past, line) && t.thread == rd.thread
    requires t.sawAssistantText == Heard(past) && TurnId(t, r) == turn && TurnDuration(t, r) == Lasted(rd.last, rd.known, r)
    requires turn == if rd.thread.Some? && r.turns.Some? then Some(rd.thread.value + ":" + Decimal(r.turns.value)) else None
    requires UsageEvents(t, r) ==
      if r.usage.Some? then [TokenUsage(rd.thread, map c | c in r.usage.value :: Growth(rd.last, r, c), turn)] else []
    ensures ReportEvents(t, r) == ReportSays(past, line)
  {
  }

  lemma PlainStands(t: State, r: Reading, n: Reading)
    requires Stands(t, r) && Passes(r.(heard := n.heard), n, [], [])
    ensures Stands(t.(sawAssistantText := n.heard), n)
  {
    assert r.starts + [] == r.starts && r.ends + [] == r.ends;
  }

  lemma PlainPasses(past: seq<Line>, line: Line)
    requires !line.Step? && !line.EndOfLog? && !line.Report?
    ensures var r, n := ReadingFor(past, line), ReadingOf(past + [line]);
      Passes(r.(heard := n.heard), n, [], []) && n.heard == (r.heard && !line.Init? && !(line.UserTurn? && line.text.Some?))
  {
    var r := ReadingFor(past, line);
    PlainReading(past, line);
    assert r.starts + [] == r.starts && r.ends + [] == r.ends;
  }

  lemma PlainNext(s: State, past: seq<Line>, line: Line, heard: bool)
    requires !line.Step? && !line.EndOfLog? && !line.Report? && RememberThread(s, Named(line)).thread == ThreadIn(past + [line])
    requires heard == (RememberThread(s, Named(line)).sawAssistantText && !line.Init? && !(line.UserTurn? && line.text.Some?))
    ensures Next(s, line) == Out(RememberThread(s, Named(line)).(sawAssistantText := heard), Says(past, line))
  {
  }

  lemma PlainFollows(s: State, past: seq<Line>, line: Line)
    requires Stands(s, ReadingOf(past)) && !line.Step? && !line.EndOfLog? && !line.Report?
    ensures Follows(s, past, line)
  {
    var t, r, n := RememberThread(s, Named(line)), ReadingFor(past, line), ReadingOf(past + [line]);
    Adopts(s, past, line);
    PlainPasses(past, line);
    PlainStands(t, r, n);
    assert t.sawAssistantText == r.heard && t.thread == n.thread;
    PlainNext(s, past, line, n.heard);
  }

  /** The end of the log publishes what is held, in the order in which it was begun. */
  lemma {:induction false} ShownIsOpen(past: seq<Line>, es: Entries<Fragment>)
    requires forall i :: 0 <= i < |es| ==> FragmentOf(TextOf(past, es[i].0), es[i].0) == Some(es[i].1)
    ensures Shown(ThreadIn(past), es) == Flat(KeysOf(es), MessageAtEnd(past))
    ensures ShownIds(es) == NotBlank(past, KeysOf(es))
  {
    if es != [] {
      ShownIsOpen(past, es[1..]);
      assert KeysOf(es)[1..] == KeysOf(es[1..]);
    }
  }

  lemma RestUnsaid(ids: seq<string>, more: seq<string>)
    requires more != [] && Distinct(more) && forall x :: x in more ==> !Lately(ids, x)
    ensures Distinct(more[1..]) && forall x :: x in more[1..] ==> !Lately(ids + [more[0]], x)
  {
    forall x | x in more[1..] ensures !Lately(ids + [more[0]], x) {
      assert x in more && x != more[0];
      LatelySnoc(ids, more[0], x);
    }
  }

  lemma RememberAllNext(kept: seq<string>, ids: seq<string>, more: seq<string>)
    requires more != []
    ensures RememberAll(kept, more) == RememberAll(Remember(kept, more[0], DEDUPE_LIMIT), more[1..])
    ensures ids + [more[0]] + more[1..] == ids + more
  {
  }

  lemma {:induction false} AllKept(kept: seq<string>, ids: seq<string>, more: seq<string>)
    requires Keeps(kept, ids) && Distinct(more) && forall x :: x in more ==> !Lately(ids, x)
    ensures Keeps(RememberAll(kept, more), ids + more)
    decreases |more|
  {
    if more == [] {
      assert ids + more == ids;
    } else {
      var next, so, rest := Remember(kept, more[0], DEDUPE_LIMIT), ids + [more[0]], more[1..];
      assert Keeps(next, so) by { KeepsNext(kept, ids, more[0]); }
      assert Distinct(rest) && forall x :: x in rest ==> !Lately(so, x) by { RestUnsaid(ids, more); }
      AllKept(next, so, rest);
      RememberAllNext(kept, ids, more);
    }
  }

  lemma {:induction false} NotBlankAmong(past: seq<Line>, ids: seq<string>)
    requires Distinct(ids)
    ensures Distinct(NotBlank(past, ids)) && forall x :: x in NotBlank(past, ids) ==> x in ids
    decreases |ids|
  {
    if ids != [] {
      var rest := NotBlank(past, ids[1..]);
      NotBlankAmong(past, ids[1..]);
      assert ids[0] !in ids[1..];
      assert ids[0] !in rest;
      assert NotBlank(past, ids) == rest || NotBlank(past, ids) == [ids[0]] + rest;
    }
  }

  lemma EndReading(past: seq<Line>)
    ensures var r, n, said := ReadingOf(past), ReadingOf(past + [EndOfLog]), NotBlank(past, Open(past));
      && n.thread == r.thread && n.last == r.last && n.known == r.known && n.starts == r.starts && n.ends == r.ends
      && n.said == r.said + said && n.heard == (said != [] || r.heard) && n.open == [] && forall x :: n.text(x) == None
  {
    LastLine(past, EndOfLog);
    SaidNext(past, EndOfLog);
    ToolsNext(past, EndOfLog, Starts);
    ToolsNext(past, EndOfLog, Ends);
  }

  lemma EndStands(s: State, r: Reading, n: Reading, said: seq<string>)
    requires Stands(s, r) && said == ShownIds(s.fragments) && (Shown(s.thread, s.fragments) == [] <==> said == [])
    requires Talks(r, n, said) && n.open == [] && forall x :: n.text(x) == None
    requires Distinct(said) && forall x :: x in said ==> x in r.open
    ensures Stands(FlushStep(s).state, n)
  {
    AllKept(s.messages, r.said, said);
  }

  /** The fragments held stand for the texts of the open steps. */
  ghost predicate HeldFor(past: seq<Line>, es: Entries<Fragment>) {
    KeysOf(es) == Open(past) && forall i :: 0 <= i < |es| ==> FragmentOf(TextOf(past, es[i].0), es[i].0) == Some(es[i].1)
  }

  lemma ShownSays(past: seq<Line>, es: Entries<Fragment>)
    requires HeldFor(past, es)
    ensures Shown(ThreadIn(past), es) == Flat(Open(past), MessageAtEnd(past)) && ShownIds(es) == NotBlank(past, Open(past))
  {
    ShownIsOpen(past, es);
  }

  lemma EndSays(past: seq<Line>)
    ensures Says(past, EndOfLog) == Flat(Open(past), MessageAtEnd(past))
  {
  }

  lemma FragmentsHeld(s: State, past: seq<Line>)
    requires Stands(s, ReadingOf(past))
    ensures HeldFor(past, s.fragments) && Distinct(Open(past))
  {
    var es := s.fragments;
    forall i | 0 <= i < |es| ensures FragmentOf(TextOf(past, es[i].0), es[i].0) == Some(es[i].1) {
      FindIs(es, es[i].0, i);
      assert ReadingOf(past).text(es[i].0) == TextOf(past, es[i].0);
    }
    KeysDistinct(es);
  }

  lemma EndStandsAfter(s: State, past: seq<Line>)
    requires Stands(s, ReadingOf(past))
    requires ShownIds(s.fragments) == NotBlank(past, Open(past)) && Distinct(Open(past))
    ensures Stands(FlushStep(s).state, ReadingOf(past + [EndOfLog]))
  {
    EndReading(past);
    NotBlankAmong(past, Open(past));
    ShownEmpty(s.thread, s.fragments);
    EndStands(s, ReadingOf(past), ReadingOf(past + [EndOfLog]), NotBlank(past, Open(past)));
  }

  lemma EndNext(s: State)
    ensures Next(s, EndOfLog) == FlushStep(s) && FlushStep(s).events == Shown(s.thread, s.fragments)
  {
  }

  lemma EndFollows(s: State, past: seq<Line>)
    requires Stands(s, ReadingOf(past))
    ensures Follows(s, past, EndOfLog)
  {
    FragmentsHeld(s, past);
    ShownSays(past, s.fragments);
    EndSays(past);
    EndStandsAfter(s, past);
    EndNext(s);
    assert s.thread == ThreadIn(past);
  }

  lemma {:induction false} ShownEmpty(thread: Option<string>, es: Entries<Fragment>)
    ensures Shown(thread, es) == [] <==> ShownIds(es) == []
  {
    if es != [] { ShownEmpty(thread, es[1..]); }
  }

  /** Every line, after any log, leaves the projector in line with the log and publishes what the log calls for. */
  lemma LineFollows(s: State, past: seq<Line>, line: Line)
    requires Stands(s, ReadingOf(past))
    ensures Follows(s, past, line)
  {
    if line.Step? {
      match line.update {
        case AgentResponse(_, _, _) => AgentFollows(s, past, line);
        case ToolUpdate(_, _, _, _, _) => ToolFollows(s, past, line);
        case OtherStep => OtherStepFollows(s, past, line);
      }
    } else if line.Report? {
      ReportFollows(s, past, line);
    } else if line.EndOfLog? {
      EndFollows(s, past);
    } else {
      PlainFollows(s, past, line);
    }
  }

  ghost function Standing(): (State, seq<Line>) -> bool {
    (s, past) => Stands(s, ReadingOf(past))
  }

  lemma StandsFirst()
    ensures Stands(INITIAL, ReadingOf([]))
  {
  }

  /** Over every log, the projector publishes line by line what the lines before each line call for. */
  lemma ProjectionIsTheLog(lines: seq<Line>)
    ensures Run(INITIAL, lines).events == Published(lines) && Stands(Run(INITIAL, lines).state, ReadingOf(lines))
  {
    StandsFirst();
    forall s, past, line ensures Obeys(Stepper(), Standing(), Sayer(), s, past, line) {
      if Standing()(s, past) { LineFollows(s, past, line); }
    }
    FoldTells(Stepper(), INITIAL, lines, Standing(), Sayer());
    assert Standing()(Run(INITIAL, lines).state, lines);
  }

  /** After any log, a report publishes its answer when none was heard, its growth, its failure and the end of its turn. */
  lemma ReportPublished(past: seq<Line>, line: Line)
    requires line.Report?
    ensures Next(Run(INITIAL, past).state, line).events == ReportSays(past, line)
  {
    ProjectionIsTheLog(past);
    ReportFollows(Run(INITIAL, past).state, past, line);
  }

  /** Step identities agree when the steps do, and the threads, of which one without name counts as "unknown". */
  lemma IdsTellApart(a: Option<string>, m: Option<int>, b: Option<string>, n: Option<int>)
    ensures IdIn(a, m) == IdIn(b, n) <==> a.GetOr("unknown") == b.GetOr("unknown") && m == n
  {
    if m.Some? { DecimalPlain(m.value, ':'); DecimalPlain(m.value, 'n'); }
    if n.Some? { DecimalPlain(n.value, ':'); DecimalPlain(n.value, 'n'); }
    if m.Some? && n.Some? { DecimalTellsApart(m.value, n.value); }
    var x := match m case Some(number) => Decimal(number) case None => "unknown";
    var y := match n case Some(number) => Decimal(number) case None => "unknown";
    assert "unknown"[1] == 'n' && 'n' in "unknown";
    if IdIn(a, m) == IdIn(b, n) {
      SplitLast("agy:" + a.GetOr("unknown"), x, "agy:" + b.GetOr("unknown"), y, ':');
      assert ("agy:" + a.GetOr("unknown"))[4..] == a.GetOr("unknown") && ("agy:" + b.GetOr("unknown"))[4..] == b.GetOr("unknown");
    }
  }
}
