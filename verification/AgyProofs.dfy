/** What every run of the agy projector keeps. */
module AgyProofs {
  import opened Wrappers
  import opened Text
  import opened Lists
  import opened Ordered
  import opened Runs
  import opened Counters
  import opened Agy

  // ------------------------------------------------------------------
  // Exactly once within a window
  // ------------------------------------------------------------------

  /** The identities emitted since the thread last changed, oldest first. */
  datatype Log = Log(messages: seq<string>, calls: seq<string>, results: seq<string>)

  function Conversation(line: Line): Option<string> {
    match line
    case Init(conversation) => conversation
    case Step(conversation, _) => conversation
    case Report(conversation, _) => conversation
    case _ => None
  }

  /** The step identities of the assistant messages that a line publishes. */
  function SaidIds(s: State, line: Line): seq<string> {
    match line
    case Step(conversation, AgentResponse(step, _, _)) =>
      if Next(s, line).events == [] then [] else [StepId(RememberThread(s, conversation).thread, step)]
    case EndOfLog => ShownIds(s.fragments)
    case _ => []
  }

  function CallIds(e: Event): seq<string> {
    if e.ToolCall? then [e.callId] else []
  }

  function ResultIds(e: Event): seq<string> {
    if e.ToolResult? then [e.callId] else []
  }

  /** What of a log still counts after a line: nothing, when the line changes the thread. */
  function Kept(s: State, log: Log, conversation: Option<string>): Log {
    if ChangesThread(s.thread, conversation) then Log([], [], []) else log
  }

  function Logged(s: State, log: Log, line: Line): Log {
    var base := Kept(s, log, Conversation(line));
    var events := Next(s, line).events;
    Log(base.messages + SaidIds(s, line), base.calls + Flat(events, CallIds), base.results + Flat(events, ResultIds))
  }

  /** The state and the log after a run from a fresh projector. */
  function Trace(lines: seq<Line>): (State, Log)
    decreases |lines|
  {
    if lines == [] then (INITIAL, Log([], [], []))
    else
      var n := |lines| - 1;
      var (s, log) := Trace(lines[..n]);
      (Next(s, lines[n]).state, Logged(s, log, lines[n]))
  }

  /** No identity twice among any `DEDUPE_LIMIT + 1` consecutive emissions. */
  ghost predicate Windowed(ids: seq<string>) {
    forall i, j :: 0 <= i < j < |ids| && j - i <= DEDUPE_LIMIT ==> ids[i] != ids[j]
  }

  function Recent(ids: seq<string>): seq<string> {
    if |ids| <= DEDUPE_LIMIT then ids else ids[|ids| - DEDUPE_LIMIT..]
  }

  /** The set holds exactly the recent members of a log that repeats nothing within a window. */
  ghost predicate Holds(kept: seq<string>, ids: seq<string>) {
    Windowed(ids) && kept == Recent(ids)
  }

  lemma RememberHolds(kept: seq<string>, ids: seq<string>, id: string)
    requires Holds(kept, ids) && id !in kept
    ensures Holds(Remember(kept, id, DEDUPE_LIMIT), ids + [id])
  {
    var more := ids + [id];
    forall i | 0 <= i < |ids| && |ids| - i <= DEDUPE_LIMIT ensures ids[i] != id {
      assert ids[i] == kept[i - (|ids| - |kept|)];
    }
    assert Recent(more) == if |kept| == DEDUPE_LIMIT then kept[1..] + [id] else kept + [id];
    assert (kept + [id])[1..] == if kept == [] then [] else kept[1..] + [id];
  }

  lemma {:induction false} RememberAllHolds(kept: seq<string>, ids: seq<string>, more: seq<string>)
    requires Holds(kept, ids) && Distinct(more) && forall x :: x in more ==> x !in kept
    ensures Holds(RememberAll(kept, more), ids + more)
    decreases |more|
  {
    if more == [] {
      assert ids + more == ids;
    } else {
      var id, rest := more[0], more[1..];
      RememberHolds(kept, ids, id);
      RestApart(kept, more);
      RememberAllHolds(Remember(kept, id, DEDUPE_LIMIT), ids + [id], rest);
      assert more == [id] + rest;
      Associates(ids, [id], rest);
      assert RememberAll(kept, more) == RememberAll(Remember(kept, id, DEDUPE_LIMIT), rest);
    }
  }

  lemma RestApart(kept: seq<string>, more: seq<string>)
    requires more != [] && Distinct(more) && forall x :: x in more ==> x !in kept
    ensures Distinct(more[1..]) && forall x :: x in more[1..] ==> x !in Remember(kept, more[0], DEDUPE_LIMIT)
  {
    forall x | x in more[1..] ensures x !in Remember(kept, more[0], DEDUPE_LIMIT) {
      var k :| 0 <= k < |more| - 1 && more[1..][k] == x;
      assert more[k + 1] == x && x != more[0];
      RememberAdds(kept, more[0]);
    }
  }

  lemma RememberAdds(kept: seq<string>, id: string)
    ensures forall x :: x in Remember(kept, id, DEDUPE_LIMIT) ==> x in kept || x == id
  {
  }

  /** The sets hold exactly the recent identities, and no held fragment has been published recently. */
  ghost predicate Faithful(s: State, log: Log) {
    Holds(s.messages, log.messages) && Holds(s.calls, log.calls) && Holds(s.results, log.results) && HeldApart(s)
  }

  ghost predicate HeldApart(s: State) {
    && DistinctKeys(s.fragments)
    && (forall i :: 0 <= i < |s.fragments| ==> s.fragments[i].0 !in s.messages)
    && (forall i :: 0 <= i < |s.fragments| ==> Named(s.fragments[i].0, s.fragments[i].1))
  }

  /** A fragment carries no identity but that of its step. */
  predicate Named(id: string, f: Fragment) {
    f.eventId == None || f.eventId == Some(id)
  }

  lemma RememberThreadFaithful(s: State, log: Log, conversation: Option<string>)
    requires Faithful(s, log)
    ensures Faithful(RememberThread(s, conversation), Kept(s, log, conversation))
  {
  }

  lemma PutApart(s: State, id: string, f: Fragment)
    requires HeldApart(s) && id !in s.messages && Named(id, f)
    ensures HeldApart(s.(fragments := Put(s.fragments, id, f)))
  {
    PutDistinct(s.fragments, id, f);
  }

  lemma DeleteApart(s: State, id: string, messages: seq<string>)
    requires HeldApart(s) && forall x :: x in messages ==> x in s.messages || x == id
    ensures HeldApart(s.(fragments := Delete(s.fragments, id), messages := messages))
  {
    var left, i := Delete(s.fragments, id), Find(s.fragments, id);
    GetDelete(s.fragments, id, id);
    forall k | 0 <= k < |left| ensures left[k].0 !in messages && Named(left[k].0, left[k].1) {
      assert left[k] == s.fragments[if k < i then k else k + 1];
      if i < |s.fragments| { assert s.fragments[i].0 == id; }
    }
  }

  lemma AgentFaithful(s: State, log: Log, step: Option<int>, delta: string, phase: Phase)
    requires Faithful(s, log)
    ensures var out := AgentStep(s, step, delta, phase);
      Faithful(out.state, if out.events == [] then log else log.(messages := log.messages + [StepId(s.thread, step)]))
  {
    var id := StepId(s.thread, step);
    var collected := s.(fragments := Collected(s, id, step, delta));
    if id !in s.messages && delta != "" {
      var held := Get(s.fragments, id);
      PutApart(s, id, Fragment((if held.Some? then held.value.text else "") + delta, if step.Some? then Some(id) else None));
    }
    assert HeldApart(collected);
    if phase == Finished && id !in s.messages {
      RememberHolds(s.messages, log.messages, id);
      DeleteApart(collected, id, s.messages);
      DeleteApart(collected, id, Remember(s.messages, id, DEDUPE_LIMIT));
    }
  }

  lemma ToolFaithful(s: State, log: Log, u: StepUpdate)
    requires u.ToolUpdate? && Faithful(s, log)
    ensures var out := ToolStep(s, u);
      Faithful(out.state, Log(log.messages, log.calls + Flat(out.events, CallIds), log.results + Flat(out.events, ResultIds)))
  {
    var id, out := StepId(s.thread, u.step), ToolStep(s, u);
    assert log.calls + [] == log.calls && log.results + [] == log.results;
    if out.events != [] {
      assert out.events == [out.events[0]];
      FlatOne(out.events[0], CallIds);
      FlatOne(out.events[0], ResultIds);
      if out.events[0].ToolCall? { RememberHolds(s.calls, log.calls, id); } else { RememberHolds(s.results, log.results, id); }
    }
  }

  lemma {:induction false} ShownIdsApart(fragments: Entries<Fragment>, messages: seq<string>)
    requires DistinctKeys(fragments) && forall i :: 0 <= i < |fragments| ==> fragments[i].0 !in messages
    ensures Distinct(ShownIds(fragments))
    ensures forall x :: x in ShownIds(fragments) ==> x !in messages && exists i :: 0 <= i < |fragments| && fragments[i].0 == x
  {
    if fragments != [] {
      var rest := fragments[1..];
      ShownIdsApart(rest, messages);
      forall x | x in ShownIds(rest) ensures x != fragments[0].0 && exists i :: 0 <= i < |fragments| && fragments[i].0 == x {
        var i :| 0 <= i < |rest| && rest[i].0 == x;
        assert fragments[i + 1].0 == x;
      }
      assert ShownIds(fragments) == ShownIds(rest) || ShownIds(fragments) == [fragments[0].0] + ShownIds(rest);
      assert fragments[0].0 == fragments[0].0;
    }
  }

  lemma {:induction false} NoTools(events: seq<Event>)
    requires forall i :: 0 <= i < |events| ==> !events[i].ToolCall? && !events[i].ToolResult?
    ensures Flat(events, CallIds) == [] && Flat(events, ResultIds) == []
  {
    if events != [] { NoTools(events[1..]); }
  }

  lemma {:induction false} ShownNoTools(thread: Option<string>, fragments: Entries<Fragment>)
    ensures forall i :: 0 <= i < |Shown(thread, fragments)| ==> Shown(thread, fragments)[i].AssistantMessage?
  {
    if fragments != [] { ShownNoTools(thread, fragments[1..]); }
  }

  lemma FlushFaithful(s: State, log: Log)
    requires Faithful(s, log)
    ensures Faithful(FlushStep(s).state, log.(messages := log.messages + ShownIds(s.fragments)))
  {
    ShownIdsApart(s.fragments, s.messages);
    RememberAllHolds(s.messages, log.messages, ShownIds(s.fragments));
  }

  lemma QuietFaithful(s: State, log: Log, line: Line)
    requires Faithful(s, log) && !line.EndOfLog? && (line.Step? ==> line.update.OtherStep?)
    ensures Faithful(Next(s, line).state, Logged(s, log, line))
  {
    var base := Kept(s, log, Conversation(line));
    RememberThreadFaithful(s, log, Conversation(line));
    NoTools(Next(s, line).events);
    LogStays(base);
    QuietState(s, line);
    assert Logged(s, log, line) == base;
  }

  lemma LogStays(log: Log)
    ensures Log(log.messages + [], log.calls + [], log.results + []) == log
  {
  }

  /** A line that publishes no message of a step leaves the sets alone, and opens no fragment. */
  lemma QuietState(s: State, line: Line)
    requires !line.EndOfLog? && (line.Step? ==> line.update.OtherStep?)
    ensures var t, next := RememberThread(s, Conversation(line)), Next(s, line).state;
      && next.messages == t.messages && next.calls == t.calls && next.results == t.results
      && (next.fragments == t.fragments || next.fragments == [])
  {
  }

  lemma ResponseFaithful(s: State, log: Log, line: Line)
    requires Faithful(s, log) && line.Step? && line.update.AgentResponse?
    ensures Faithful(Next(s, line).state, Logged(s, log, line))
  {
    var t, u := RememberThread(s, line.conversation), line.update;
    var base := Kept(s, log, line.conversation);
    RememberThreadFaithful(s, log, line.conversation);
    AgentFaithful(t, base, u.step, u.delta, u.phase);
    NoTools(Next(s, line).events);
    assert base.messages + [] == base.messages && base.calls + [] == base.calls && base.results + [] == base.results;
  }

  lemma UpdateFaithful(s: State, log: Log, line: Line)
    requires Faithful(s, log) && line.Step? && line.update.ToolUpdate?
    ensures Faithful(Next(s, line).state, Logged(s, log, line))
  {
    var base := Kept(s, log, line.conversation);
    RememberThreadFaithful(s, log, line.conversation);
    ToolFaithful(RememberThread(s, line.conversation), base, line.update);
    assert base.messages + [] == base.messages;
  }

  lemma StepFaithful(s: State, log: Log, line: Line)
    requires Faithful(s, log)
    ensures Faithful(Next(s, line).state, Logged(s, log, line))
  {
    if line.EndOfLog? {
      FlushFaithful(s, log);
      ShownNoTools(s.thread, s.fragments);
      NoTools(Next(s, line).events);
      assert log.calls + [] == log.calls && log.results + [] == log.results;
    } else if line.Step? && line.update.AgentResponse? {
      ResponseFaithful(s, log, line);
    } else if line.Step? && line.update.ToolUpdate? {
      UpdateFaithful(s, log, line);
    } else {
      QuietFaithful(s, log, line);
    }
  }

  lemma {:induction false} TraceFaithful(lines: seq<Line>)
    ensures var (s, log) := Trace(lines); Faithful(s, log)
    decreases |lines|
  {
    if lines != [] {
      var n := |lines| - 1;
      TraceFaithful(lines[..n]);
      StepFaithful(Trace(lines[..n]).0, Trace(lines[..n]).1, lines[n]);
    }
  }

  lemma {:induction false} TraceIsRun(lines: seq<Line>)
    ensures Trace(lines).0 == Run(INITIAL, lines).state
    decreases |lines|
  {
    if lines != [] {
      var n := |lines| - 1;
      TraceIsRun(lines[..n]);
      FoldSnoc(Stepper(), INITIAL, lines);
    }
  }

  /**
   * The logged message identities are those of the published messages: one
   * each, in order, and the same wherever the message names its step.
   */
  lemma SaidIdsMatch(lines: seq<Line>, line: Line)
    requires !line.Report?
    ensures var s := Trace(lines).0; var said, events := SaidIds(s, line), Next(s, line).events;
      if line.EndOfLog? || (line.Step? && line.update.AgentResponse?)
      then |said| == |events| && forall i :: 0 <= i < |said| ==>
        events[i].AssistantMessage? && (events[i].eventId == None || events[i].eventId == Some(said[i]))
      else said == [] && forall i :: 0 <= i < |events| ==> !events[i].AssistantMessage?
  {
    var s := Trace(lines).0;
    TraceFaithful(lines);
    if line.EndOfLog? {
      ShownMatch(s.thread, s.fragments);
    } else if line.Step? && line.update.AgentResponse? {
      var t := RememberThread(s, line.conversation);
      AgentMatch(t, line.update.step, line.update.delta, line.update.phase);
    }
  }

  lemma AgentMatch(s: State, step: Option<int>, delta: string, phase: Phase)
    requires HeldApart(s)
    ensures var events := AgentStep(s, step, delta, phase).events;
      events == [] || (|events| == 1 && events[0].AssistantMessage?
        && (events[0].eventId == None || events[0].eventId == Some(StepId(s.thread, step))))
  {
    var id := StepId(s.thread, step);
    var collected := Collected(s, id, step, delta);
    if id !in s.messages && delta != "" {
      var held := Get(s.fragments, id);
      var fragment := Fragment((if held.Some? then held.value.text else "") + delta, if step.Some? then Some(id) else None);
      GetPut(s.fragments, id, fragment, id);
    } else if Get(collected, id).Some? {
      assert Named(s.fragments[Find(collected, id)].0, s.fragments[Find(collected, id)].1);
    }
  }

  lemma {:induction false} ShownMatch(thread: Option<string>, fragments: Entries<Fragment>)
    requires forall i :: 0 <= i < |fragments| ==> Named(fragments[i].0, fragments[i].1)
    ensures var said, events := ShownIds(fragments), Shown(thread, fragments);
      |said| == |events| && forall i :: 0 <= i < |said| ==>
        events[i].AssistantMessage? && (events[i].eventId == None || events[i].eventId == Some(said[i]))
  {
    if fragments != [] {
      ShownMatch(thread, fragments[1..]);
      assert Named(fragments[0].0, fragments[0].1);
    }
  }

  /**
   * After every run, within the current thread an identity of any kind was
   * emitted again only after `DEDUPE_LIMIT` other distinct ones of its kind.
   */
  lemma EmittedOncePerWindow(lines: seq<Line>, ids: seq<string>, i: nat, j: nat)
    requires var log := Trace(lines).1; ids == log.messages || ids == log.calls || ids == log.results
    requires i < j < |ids| && ids[i] == ids[j]
    ensures j - i > DEDUPE_LIMIT
    ensures ids[i] !in ids[i + 1..i + 1 + DEDUPE_LIMIT]
    ensures |Members(ids[i + 1..i + 1 + DEDUPE_LIMIT])| == DEDUPE_LIMIT
  {
    TraceFaithful(lines);
    WindowHasOthers(ids, i, j);
  }

  lemma WindowHasOthers(ids: seq<string>, i: nat, j: nat)
    requires Windowed(ids) && i < j < |ids| && ids[i] == ids[j]
    ensures j - i > DEDUPE_LIMIT
    ensures ids[i] !in ids[i + 1..i + 1 + DEDUPE_LIMIT]
    ensures |Members(ids[i + 1..i + 1 + DEDUPE_LIMIT])| == DEDUPE_LIMIT
  {
    DistinctSize(ids[i + 1..i + 1 + DEDUPE_LIMIT]);
  }

  /** Conversely, a tool step is published unless its identity is among the most recent `DEDUPE_LIMIT` of its kind. */
  lemma ToolPublishedIff(lines: seq<Line>, conversation: Option<string>, u: StepUpdate)
    requires u.ToolUpdate? && u.phase != OtherPhase
    ensures var s := Trace(lines).0; var log := Kept(s, Trace(lines).1, conversation);
      var id := StepId(RememberThread(s, conversation).thread, u.step);
      Next(s, Step(conversation, u)).events != [] <==> id !in Recent(if u.phase == Active then log.calls else log.results)
  {
    TraceFaithful(lines);
    RememberThreadFaithful(Trace(lines).0, Trace(lines).1, conversation);
    ToolEmits(RememberThread(Trace(lines).0, conversation), u);
  }

  lemma ToolEmits(s: State, u: StepUpdate)
    requires u.ToolUpdate? && u.phase != OtherPhase
    ensures ToolStep(s, u).events != [] <==> StepId(s.thread, u.step) !in (if u.phase == Active then s.calls else s.results)
  {
  }

  // ------------------------------------------------------------------
  // What an assistant message says
  // ------------------------------------------------------------------

  /** The text gathered for a step, after more of it came; nothing is gathered once it was published. */
  function Gathering(before: Option<string>, delta: string, published: bool): Option<string> {
    if published || delta == "" then before else Some(before.GetOr("") + delta)
  }

  /**
   * What the log gathers for a step identity: the deltas of the step, joined, since the
   * thread changed, a turn was reported, the log ended or the step was done, whichever
   * came last; deltas of a step that was recently published do not count.
   */
  function Gathered(lines: seq<Line>, id: string): Option<string>
    decreases |lines|
  {
    if lines == [] then None
    else
      var n := |lines| - 1;
      GatheredNext(Trace(lines[..n]).0, Trace(lines[..n]).1, Gathered(lines[..n], id), lines[n], id)
  }

  function GatheredNext(s: State, log: Log, before: Option<string>, line: Line, id: string): Option<string> {
    var base := if ChangesThread(s.thread, Conversation(line)) then None else before;
    match line
    case Step(conversation, AgentResponse(step, delta, phase)) =>
      if StepId(RememberThread(s, conversation).thread, step) != id then base
      else
        var published := id in Recent(Kept(s, log, conversation).messages);
        if phase == Finished && !published then None else Gathering(base, delta, published)
    case Report(_, _) => None
    case EndOfLog => None
    case _ => base
  }

  function TextIn(fragments: Entries<Fragment>, id: string): Option<string> {
    var held := Get(fragments, id);
    if held.Some? then Some(held.value.text) else None
  }

  /** The text of a held fragment. */
  function HeldText(s: State, id: string): Option<string> {
    TextIn(s.fragments, id)
  }

  lemma CollectedText(s: State, id: string, step: Option<int>, delta: string, x: string)
    ensures TextIn(Collected(s, id, step, delta), x)
         == if x == id then Gathering(HeldText(s, id), delta, id in s.messages) else HeldText(s, x)
  {
    if id !in s.messages && delta != "" {
      var held := Get(s.fragments, id);
      var text := (if held.Some? then held.value.text else "") + delta;
      GetPut(s.fragments, id, Fragment(text, if step.Some? then Some(id) else None), x);
    }
  }

  lemma CollectedDistinct(s: State, id: string, step: Option<int>, delta: string)
    requires DistinctKeys(s.fragments)
    ensures DistinctKeys(Collected(s, id, step, delta))
  {
    if id !in s.messages && delta != "" {
      var held := Get(s.fragments, id);
      var text := (if held.Some? then held.value.text else "") + delta;
      PutDistinct(s.fragments, id, Fragment(text, if step.Some? then Some(id) else None));
    }
  }

  /** What is held after a response of a step: the other texts as before, and its own unless it is done. */
  lemma AgentHolds(s: State, step: Option<int>, delta: string, phase: Phase, x: string)
    requires DistinctKeys(s.fragments)
    ensures var id := StepId(s.thread, step);
      HeldText(AgentStep(s, step, delta, phase).state, x)
      == if x != id then HeldText(s, x)
         else if phase == Finished && id !in s.messages then None
         else Gathering(HeldText(s, id), delta, id in s.messages)
  {
    var id := StepId(s.thread, step);
    var collected := Collected(s, id, step, delta);
    CollectedText(s, id, step, delta, x);
    CollectedDistinct(s, id, step, delta);
    TextDeleted(collected, id, x);
    var left := AgentStep(s, step, delta, phase).state.fragments;
    assert left == if phase == Finished && id !in s.messages then Delete(collected, id) else collected;
  }

  lemma TextDeleted(fragments: Entries<Fragment>, id: string, x: string)
    requires DistinctKeys(fragments)
    ensures TextIn(Delete(fragments, id), x) == if x == id then None else TextIn(fragments, x)
  {
    GetDelete(fragments, id, x);
  }

  /** A step that is done publishes its text, unless it was recently published or its text is blank. */
  lemma AgentSays(s: State, step: Option<int>, delta: string)
    ensures var id := StepId(s.thread, step); var text := Gathering(HeldText(s, id), delta, false).GetOr("");
      var events := AgentStep(s, step, delta, Finished).events;
      if id in s.messages || Blank(text) then events == []
      else |events| == 1 && events[0].AssistantMessage? && events[0].thread == s.thread && events[0].text == text
  {
    var id := StepId(s.thread, step);
    CollectedText(s, id, step, delta, id);
  }

  lemma NextHolds(s: State, log: Log, line: Line, x: string)
    requires Faithful(s, log)
    ensures HeldText(Next(s, line).state, x) == GatheredNext(s, log, HeldText(s, x), line, x)
  {
    if line.Step? && line.update.AgentResponse? {
      RememberThreadFaithful(s, log, line.conversation);
      AgentHolds(RememberThread(s, line.conversation), line.update.step, line.update.delta, line.update.phase, x);
    } else {
      QuietHolds(s, line, x);
    }
  }

  /** Any other line leaves the held texts alone, unless it drops them all. */
  lemma QuietHolds(s: State, line: Line, x: string)
    requires !(line.Step? && line.update.AgentResponse?)
    ensures HeldText(Next(s, line).state, x)
         == if line.Report? || line.EndOfLog? || ChangesThread(s.thread, Conversation(line)) then None else HeldText(s, x)
  {
  }

  /** After every run, what is held for a step is what the log gathered for it. */
  lemma {:induction false} HeldIsGathered(lines: seq<Line>, id: string)
    ensures HeldText(Trace(lines).0, id) == Gathered(lines, id)
    decreases |lines|
  {
    if lines != [] {
      var n := |lines| - 1;
      HeldIsGathered(lines[..n], id);
      TraceFaithful(lines[..n]);
      NextHolds(Trace(lines[..n]).0, Trace(lines[..n]).1, lines[n], id);
    }
  }

  /**
   * After every run, a step that is done publishes a message if and only if its
   * identity is not among the most recent `DEDUPE_LIMIT` and the text that the log
   * gathered for it, with the last delta, is not blank; the message is that text.
   */
  lemma MessagePublishedIff(lines: seq<Line>, conversation: Option<string>, step: Option<int>, delta: string)
    ensures var s := Trace(lines).0;
      var thread := RememberThread(s, conversation).thread;
      var id := StepId(thread, step);
      var before := if ChangesThread(s.thread, conversation) then None else Gathered(lines, id);
      var text := before.GetOr("") + delta;
      var events := Next(s, Step(conversation, AgentResponse(step, delta, Finished))).events;
      if id in Recent(Kept(s, Trace(lines).1, conversation).messages) || Blank(text) then events == []
      else |events| == 1 && events[0].AssistantMessage? && events[0].thread == thread && events[0].text == text
  {
    var s := Trace(lines).0;
    var id := StepId(RememberThread(s, conversation).thread, step);
    TraceFaithful(lines);
    HeldIsGathered(lines, id);
    DoneSays(s, Trace(lines).1, conversation, step, delta, id);
  }

  lemma DoneSays(s: State, log: Log, conversation: Option<string>, step: Option<int>, delta: string, id: string)
    requires Faithful(s, log) && id == StepId(RememberThread(s, conversation).thread, step)
    ensures var thread := RememberThread(s, conversation).thread;
      var before := if ChangesThread(s.thread, conversation) then None else HeldText(s, id);
      var text := before.GetOr("") + delta;
      var events := AgentStep(RememberThread(s, conversation), step, delta, Finished).events;
      if id in Recent(Kept(s, log, conversation).messages) || Blank(text) then events == []
      else |events| == 1 && events[0].AssistantMessage? && events[0].thread == thread && events[0].text == text
  {
    var t := RememberThread(s, conversation);
    RememberThreadFaithful(s, log, conversation);
    AgentSays(t, step, delta);
    GatheringAll(HeldText(t, id), delta);
  }

  lemma GatheringAll(before: Option<string>, delta: string)
    ensures Gathering(before, delta, false).GetOr("") == before.GetOr("") + delta
  {
    assert before.GetOr("") + "" == before.GetOr("");
  }

  /** The end of the log publishes, for each held step, the text that the log gathered for it, unless it is blank. */
  lemma FlushSays(lines: seq<Line>, s: State, ids: seq<string>, i: nat)
    requires s == Trace(lines).0 && ids == ShownIds(s.fragments) && i < |ids|
    ensures var events := Next(s, EndOfLog).events;
      |events| == |ids| && events[i].AssistantMessage?
      && Gathered(lines, ids[i]) == Some(events[i].text) && !Blank(events[i].text)
  {
    HeldDistinct(lines);
    ShownIsHeld(s, ids, i);
    HeldIsGathered(lines, ids[i]);
  }

  lemma HeldDistinct(lines: seq<Line>)
    ensures DistinctKeys(Trace(lines).0.fragments)
  {
    TraceFaithful(lines);
  }

  lemma ShownIsHeld(s: State, ids: seq<string>, i: nat)
    requires DistinctKeys(s.fragments) && ids == ShownIds(s.fragments) && i < |ids|
    ensures var events := Next(s, EndOfLog).events;
      |events| == |ids| && events[i].AssistantMessage?
      && HeldText(s, ids[i]) == Some(events[i].text) && !Blank(events[i].text)
  {
    var k := ShownAt(s.thread, s.fragments, i);
    FindIs(s.fragments, s.fragments[k].0, k);
  }

  /** The held fragment that the message with number `i` shows. */
  lemma {:induction false} ShownAt(thread: Option<string>, fragments: Entries<Fragment>, i: nat) returns (k: nat)
    requires i < |ShownIds(fragments)|
    ensures |Shown(thread, fragments)| == |ShownIds(fragments)| && k < |fragments|
    ensures ShownIds(fragments)[i] == fragments[k].0 && !Blank(fragments[k].1.text)
    ensures Shown(thread, fragments)[i] == AssistantMessage(thread, fragments[k].1.text, fragments[k].1.eventId)
  {
    ShownSize(thread, fragments);
    ShownSize(thread, fragments[1..]);
    var here := if Blank(fragments[0].1.text) then 0 else 1;
    if i < here {
      k := 0;
    } else {
      var j := ShownAt(thread, fragments[1..], i - here);
      k := j + 1;
    }
  }

  lemma {:induction false} ShownSize(thread: Option<string>, fragments: Entries<Fragment>)
    ensures |Shown(thread, fragments)| == |ShownIds(fragments)|
  {
    if fragments != [] { ShownSize(thread, fragments[1..]); }
  }

  // ------------------------------------------------------------------
  // Cumulative usage becomes turn usage
  // ------------------------------------------------------------------

  /** One reported result: the thread it belongs to (numbered), its turn number and its counters. */
  datatype Reported = Reported(era: nat, turns: Option<int>, usage: Option<Usage>)

  /** What the log itself reports, independently of the projector. */
  datatype Ledger = Ledger(thread: Option<string>, era: nat, reports: seq<Reported>)

  function Adopt(l: Ledger, conversation: Option<string>): Ledger {
    if conversation.None? then l
    else l.(thread := conversation, era := if ChangesThread(l.thread, conversation) then l.era + 1 else l.era)
  }

  function Enter(l: Ledger, line: Line): Ledger {
    var here := Adopt(l, Conversation(line));
    if line.Report? then here.(reports := here.reports + [Reported(here.era, line.result.turns, line.result.usage)]) else here
  }

  function LedgerOf(lines: seq<Line>): Ledger
    decreases |lines|
  {
    if lines == [] then Ledger(None, 0, [])
    else Enter(LedgerOf(lines[..|lines| - 1]), lines[|lines| - 1])
  }

  predicate Reports(r: Reported, c: Counter) {
    r.usage.Some? && c in r.usage.value
  }

  function Value(r: Reported, c: Counter): int {
    if Reports(r, c) then r.usage.value[c] else 0
  }

  /** The next report of a counter continues the count: same thread, risen turn number, counter not fallen. */
  predicate Continues(a: Reported, b: Reported, c: Counter) {
    a.era == b.era && Rises(a.turns, b.turns) && Reports(a, c) && Reports(b, c) && Value(b, c) >= Value(a, c)
  }

  predicate EndsSegment(reports: seq<Reported>, i: nat, c: Counter)
    requires i < |reports|
  {
    i + 1 == |reports| || !Continues(reports[i], reports[i + 1], c)
  }

  /** The last cumulative values of all unbroken segments from position `i`, added up. */
  function SegmentEnds(reports: seq<Reported>, i: nat, c: Counter): int
    requires i <= |reports|
    decreases |reports| - i
  {
    if i == |reports| then 0
    else (if EndsSegment(reports, i, c) then Value(reports[i], c) else 0) + SegmentEnds(reports, i + 1, c)
  }

  function Counted(e: Event, c: Counter): int {
    if e.TokenUsage? && c in e.usage then e.usage[c] else 0
  }

  function CountedAll(events: seq<Event>, c: Counter): int {
    if events == [] then 0 else Counted(events[0], c) + CountedAll(events[1..], c)
  }

  lemma {:induction false} CountedConcat(x: seq<Event>, y: seq<Event>, c: Counter)
    ensures CountedAll(x + y, c) == CountedAll(x, c) + CountedAll(y, c)
  {
    if x == [] {
      assert x + y == y;
    } else {
      CountedConcat(x[1..], y, c);
      assert (x + y)[1..] == x[1..] + y;
    }
  }

  lemma {:induction false} SegmentSnoc(reports: seq<Reported>, b: Reported, i: nat, c: Counter)
    requires i <= |reports|
    ensures SegmentEnds(reports + [b], i, c) == SegmentEnds(reports, i, c) + Value(b, c)
      - (if i < |reports| && Continues(reports[|reports| - 1], b, c) then Value(reports[|reports| - 1], c) else 0)
    decreases |reports| - i
  {
    var more := reports + [b];
    if i < |reports| {
      SegmentSnoc(reports, b, i + 1, c);
      assert more[i] == reports[i] && more[i + 1] == if i + 1 < |reports| then reports[i + 1] else b;
    } else {
      assert more[i] == b && SegmentEnds(more, i + 1, c) == 0;
    }
  }

  /** The projector's baseline is the last report of the current thread. */
  ghost predicate Based(s: State, l: Ledger) {
    && s.thread == l.thread
    && (forall i :: 0 <= i < |l.reports| ==> l.reports[i].era <= l.era)
    && (if l.reports != [] && l.reports[|l.reports| - 1].era == l.era
        then s.usage == l.reports[|l.reports| - 1].usage && s.turns == l.reports[|l.reports| - 1].turns
        else s.usage == None && s.turns == None)
  }

  lemma StepBased(s: State, l: Ledger, line: Line)
    requires Based(s, l)
    ensures Based(Next(s, line).state, Enter(l, line))
  {
    var conversation, next := Conversation(line), Next(s, line).state;
    var t := RememberThread(s, conversation);
    var here := Adopt(l, conversation);
    AdoptBased(s, l, conversation);
    if line.Report? {
      var more := l.reports + [Reported(here.era, line.result.turns, line.result.usage)];
      assert forall i :: 0 <= i < |l.reports| ==> more[i] == here.reports[i];
    } else {
      assert next.thread == t.thread && next.usage == t.usage && next.turns == t.turns;
    }
  }

  lemma AdoptBased(s: State, l: Ledger, conversation: Option<string>)
    requires Based(s, l)
    ensures Based(RememberThread(s, conversation), Adopt(l, conversation))
  {
  }

  lemma {:induction false} NoUsage(events: seq<Event>, c: Counter)
    requires forall i :: 0 <= i < |events| ==> !events[i].TokenUsage?
    ensures CountedAll(events, c) == 0
  {
    if events != [] { NoUsage(events[1..], c); }
  }

  lemma ReportCounts(s: State, r: TurnResult, c: Counter)
    ensures CountedAll(ReportEvents(s, r), c) ==
      if r.usage.None? || c !in r.usage.value then 0
      else DeltaOf(r.usage.value, s.usage.GetOr(map[]), s.usage.Some? && Rises(s.turns, r.turns))[c]
  {
    var end := [TurnEnd(s.thread, TurnId(s, r), TurnDuration(s, r), r.status)];
    CountedConcat(ReplyEvents(s, r) + UsageEvents(s, r) + FailureEvents(s, r), end, c);
    CountedConcat(ReplyEvents(s, r) + UsageEvents(s, r), FailureEvents(s, r), c);
    CountedConcat(ReplyEvents(s, r), UsageEvents(s, r), c);
    NoUsage(ReplyEvents(s, r), c);
    NoUsage(FailureEvents(s, r), c);
    NoUsage(end, c);
    if r.usage.Some? {
      assert UsageEvents(s, r)[1..] == [];
    }
  }

  lemma StepCounts(s: State, l: Ledger, line: Line, c: Counter)
    requires Based(s, l)
    ensures CountedAll(Next(s, line).events, c) == SegmentEnds(Enter(l, line).reports, 0, c) - SegmentEnds(l.reports, 0, c)
  {
    if line.Report? {
      var t, n := RememberThread(s, line.conversation), |l.reports|;
      var b := Enter(l, line).reports[n];
      assert Enter(l, line).reports == l.reports + [b];
      ReportCounts(t, line.result, c);
      SegmentSnoc(l.reports, b, 0, c);
      if Reports(b, c) { BaselineDelta(s, l, line, b, c); }
    } else {
      assert Enter(l, line).reports == l.reports;
      if line.EndOfLog? { ShownNoTools(s.thread, s.fragments); }
      NoUsage(Next(s, line).events, c);
    }
  }

  /** The subtraction is exactly that of the last report when the new one continues it. */
  lemma BaselineDelta(s: State, l: Ledger, line: Line, b: Reported, c: Counter)
    requires Based(s, l) && line.Report? && b == Enter(l, line).reports[|l.reports|] && Reports(b, c)
    ensures var t := RememberThread(s, line.conversation);
      DeltaOf(line.result.usage.value, t.usage.GetOr(map[]), t.usage.Some? && Rises(t.turns, line.result.turns))[c] ==
        Value(b, c) - (if l.reports != [] && Continues(l.reports[|l.reports| - 1], b, c) then Value(l.reports[|l.reports| - 1], c) else 0)
  {
  }

  /**
   * Over every run and for every counter, the published turn usages add up to
   * the last cumulative values of the unbroken segments that the log reports.
   */
  lemma {:induction false} UsageTelescopes(lines: seq<Line>, c: Counter)
    ensures CountedAll(Run(INITIAL, lines).events, c) == SegmentEnds(LedgerOf(lines).reports, 0, c)
    ensures Based(Run(INITIAL, lines).state, LedgerOf(lines))
    decreases |lines|
  {
    if lines != [] {
      var n := |lines| - 1;
      var init, line := lines[..n], lines[n];
      UsageTelescopes(init, c);
      var before := Run(INITIAL, init);
      StepBased(before.state, LedgerOf(init), line);
      StepCounts(before.state, LedgerOf(init), line, c);
      FoldSnoc(Stepper(), INITIAL, lines);
      CountedConcat(before.events, Next(before.state, line).events, c);
    }
  }

  /**
   * After every run, the counter that a report publishes is negative exactly when the
   * reported value is and does not continue the segment of the last report; then it
   * is the reported value.
   */
  lemma CounterNegativeIff(lines: seq<Line>, line: Line, c: Counter)
    requires line.Report?
    ensures var reports := Enter(LedgerOf(lines), line).reports; var n := |reports| - 1;
      var published := CountedAll(Next(Run(INITIAL, lines).state, line).events, c);
      && (published < 0 <==> Value(reports[n], c) < 0 && (n == 0 || !Continues(reports[n - 1], reports[n], c)))
      && (published < 0 ==> published == Value(reports[n], c))
  {
    var s, l := Run(INITIAL, lines).state, LedgerOf(lines);
    var t := RememberThread(s, line.conversation);
    var n := |l.reports|;
    var more := Enter(l, line).reports;
    assert forall i :: 0 <= i < n ==> more[i] == l.reports[i];
    UsageTelescopes(lines, c);
    ReportCounts(t, line.result, c);
    if Reports(more[n], c) { BaselineDelta(s, l, line, more[n], c); }
  }
}
