/** What every run of the Grok projector keeps. */
module GrokProofs {
  import opened Wrappers
  import opened Text
  import opened Lists
  import opened Ordered
  import opened Runs
  import opened Grok

  // ------------------------------------------------------------------
  // The prompt and its echo
  // ------------------------------------------------------------------

  function Untimed(e: Event): seq<Event> {
    [e.(ts := None)]
  }

  /** The events without their timestamps. */
  function Timeless(events: seq<Event>): seq<Event> {
    Flat(events, Untimed)
  }

  function UserDeltas(chunks: seq<(string, Ts)>): seq<Row> {
    seq(|chunks|, i requires 0 <= i < |chunks| => MessageDelta(User, Some(chunks[i].0), chunks[i].1))
  }

  function TextOf(chunks: seq<(string, Ts)>): string {
    if chunks == [] then [] else chunks[0].0 + TextOf(chunks[1..])
  }

  /** The user text held in the open chunk. */
  function HeldUser(s: State): string {
    if s.openChunk.Some? && s.openChunk.value.MessageChunk? && s.openChunk.value.role == User
    then s.openChunk.value.text else ""
  }

  /** Nothing but user text is held, and none while the echo is awaited. */
  ghost predicate Listening(s: State) {
    && (s.openChunk.None? || (s.openChunk.value.MessageChunk? && s.openChunk.value.role == User))
    && (s.mirror.Some? ==> s.openChunk.None? && s.mirror.value != "")
  }

  /**
   * However the user chunks are cut, they publish nothing yet; what is held is
   * their text less a prefix `k` of the awaited prompt, which is the whole
   * prompt when the chunks spell it.
   */
  lemma {:induction false} EchoFrom(w: Words, s: State, chunks: seq<(string, Ts)>) returns (k: nat)
    requires Listening(s)
    ensures var out := Run(w, s, UserDeltas(chunks));
      out.events == [] && Listening(out.state) && Cut(s.mirror.GetOr(""), TextOf(chunks), k)
      && HeldUser(out.state) == HeldUser(s) + TextOf(chunks)[k..]
    decreases |chunks|
  {
    if chunks == [] {
      k := 0;
    } else {
      var rows := UserDeltas(chunks);
      var (text, ts) := chunks[0];
      EchoStep(w, s, text, ts);
      var next := Step(w, s, rows[0]).state;
      assert rows[1..] == UserDeltas(chunks[1..]);
      var j := EchoFrom(w, next, chunks[1..]);
      k := EchoCut(s.mirror, text, TextOf(chunks[1..]), j);
      var (shown, _) := Unmirrored(s.mirror, text);
      assert HeldUser(s) + shown.GetOr("") + TextOf(chunks[1..])[j..] ==
        HeldUser(s) + (shown.GetOr("") + TextOf(chunks[1..])[j..]);
    }
  }

  /** `k` characters, common to both texts, are cut off `text`: all it can be when one begins the other. */
  ghost predicate Cut(prompt: string, text: string, k: nat) {
    && k <= |text| && k <= |prompt| && text[..k] == prompt[..k]
    && (prompt <= text ==> k == |prompt|) && (text <= prompt ==> k == |text|)
  }

  lemma EchoStep(w: Words, s: State, text: string, ts: Ts)
    requires Listening(s)
    ensures var out := Step(w, s, MessageDelta(User, Some(text), ts)); var (shown, mirror) := Unmirrored(s.mirror, text);
      && out.events == [] && Listening(out.state) && out.state.mirror == mirror
      && HeldUser(out.state) == HeldUser(s) + shown.GetOr("")
  {
    var (shown, mirror) := Unmirrored(s.mirror, text);
    assert HeldUser(s) + "" == HeldUser(s);
    if shown.Some? && s.openChunk.None? {
      assert "" + shown.value == shown.value;
    }
  }

  lemma EchoCut(mirror: Option<string>, text: string, rest: string, j: nat) returns (k: nat)
    requires (mirror.Some? ==> mirror.value != "") && Cut(Unmirrored(mirror, text).1.GetOr(""), rest, j)
    ensures Cut(mirror.GetOr(""), text + rest, k)
    ensures (text + rest)[k..] == Unmirrored(mirror, text).0.GetOr("") + rest[j..]
  {
    var prompt, left := mirror.GetOr(""), Unmirrored(mirror, text).1.GetOr("");
    if mirror.None? {
      k := 0;
      assert (text + rest)[0..] == text + rest == text + rest[0..];
    } else if text <= prompt {
      k := |text| + j;
      assert prompt == text + left;
      CutFurther(text, left, rest, j);
    } else if prompt <= text {
      k := |prompt|;
      assert (text + rest)[..k] == text[..k];
      assert (text + rest)[k..] == text[k..] + rest == text[k..] + rest[0..];
      assert j == 0;
    } else {
      k := 0;
      assert j == 0;
      assert (text + rest)[0..] == text + rest[0..];
      if prompt <= text + rest || text + rest <= prompt {
        Diverge(prompt, text, rest);
        assert false;
      }
    }
  }

  lemma CutFurther(text: string, left: string, rest: string, j: nat)
    requires Cut(left, rest, j)
    ensures Cut(text + left, text + rest, |text| + j) && (text + rest)[|text| + j..] == rest[j..]
  {
    var n := |text|;
    assert (text + rest)[..n + j] == text + rest[..j] == text + left[..j] == (text + left)[..n + j];
    if text + left <= text + rest {
      assert left == (text + left)[n..] && rest == (text + rest)[n..];
    }
    if text + rest <= text + left {
      assert left == (text + left)[n..] && rest == (text + rest)[n..];
    }
  }

  lemma Diverge(prompt: string, text: string, rest: string)
    requires prompt <= text + rest || text + rest <= prompt
    ensures prompt <= text || text <= prompt
  {
    assert (text + rest)[..|text|] == text;
    if prompt <= text + rest && |prompt| <= |text| {
      assert prompt == (text + rest)[..|prompt|] == text[..|prompt|];
    } else {
      assert prompt[..|text|] == (text + rest)[..|text|];
    }
  }

  /** A prompt and its echo followed by `rest` publish the prompt once and then exactly `rest`, unless that is blank. */
  lemma PromptEchoShownOnce(w: Words, s: State, ts: Ts, prompt: string, chunks: seq<(string, Ts)>, rest: string)
    requires !Blank(prompt) && TextOf(chunks) == prompt + rest
    ensures Timeless(Project(w, s, [Prompt(ts, Some(prompt))] + UserDeltas(chunks))) ==
      Timeless(Closing(s.openChunk)) + [TurnStart(None), Message(None, User, prompt, None)]
      + if Blank(rest) then [] else [Message(None, User, rest, None)]
  {
    var last := EchoProject(w, s, ts, prompt, chunks, rest);
    var opening := [TurnStart(ts), Message(ts, User, prompt, None)];
    FlatConcat(Closing(s.openChunk) + opening, Closing(last.openChunk), Untimed);
    FlatConcat(Closing(s.openChunk), opening, Untimed);
    FlatTwo(TurnStart(ts), Message(ts, User, prompt, None), Untimed);
    UserClosing(last);
  }

  lemma EchoProject(w: Words, s: State, ts: Ts, prompt: string, chunks: seq<(string, Ts)>, rest: string) returns (last: State)
    requires !Blank(prompt) && TextOf(chunks) == prompt + rest
    ensures Listening(last) && HeldUser(last) == rest
    ensures Project(w, s, [Prompt(ts, Some(prompt))] + UserDeltas(chunks)) ==
      Closing(s.openChunk) + [TurnStart(ts), Message(ts, User, prompt, None)] + Closing(last.openChunk)
  {
    var row := Prompt(ts, Some(prompt));
    var first := Step(w, s, row);
    FoldOne(Stepper(w), s, row);
    FoldConcat(Stepper(w), s, [row], UserDeltas(chunks));
    var k := EchoFrom(w, first.state, chunks);
    last := Run(w, first.state, UserDeltas(chunks)).state;
    assert (prompt + rest)[|prompt|..] == rest && "" + rest == rest;
    assert first.events + [] == first.events;
  }

  lemma UserClosing(s: State)
    requires Listening(s)
    ensures Timeless(Closing(s.openChunk)) ==
      if Blank(HeldUser(s)) then [] else [Message(None, User, HeldUser(s), None)]
  {
    var closing := Closing(s.openChunk);
    if closing != [] {
      assert closing == [closing[0]];
      FlatOne(closing[0], Untimed);
    }
  }

  // ------------------------------------------------------------------
  // Re-cutting assistant text
  // ------------------------------------------------------------------

  /** Assistant chunks and rows that are no boundaries. */
  predicate Flowing(rows: seq<Row>) {
    forall i :: 0 <= i < |rows| ==>
      rows[i].NotAnObject? || rows[i].Ignored? || (rows[i].MessageDelta? && rows[i].role == Assistant)
  }

  function FlowText(rows: seq<Row>): string {
    if rows == [] then []
    else (if rows[0].MessageDelta? && rows[0].text.Some? then rows[0].text.value else "") + FlowText(rows[1..])
  }

  lemma {:induction false} FlowGrows(w: Words, s: State, rows: seq<Row>)
    requires Flowing(rows) && s.mirror.None?
    requires s.openChunk.Some? && s.openChunk.value.MessageChunk? && s.openChunk.value.role == Assistant
    ensures var c := s.openChunk.value;
      Run(w, s, rows) == Out(s.(openChunk := Some(c.(text := c.text + FlowText(rows)))), [])
    decreases |rows|
  {
    var c := s.openChunk.value;
    if rows != [] {
      var next := Step(w, s, rows[0]).state;
      FlowGrows(w, next, rows[1..]);
      assert next.openChunk.value.text + FlowText(rows[1..]) == c.text + FlowText(rows);
    } else {
      assert c.text + FlowText(rows) == c.text;
    }
  }

  /** Only the text and the first timestamp of an assistant turn matter, not how it was cut. */
  lemma RecutChangesNothing(w: Words, s: State, ts: Ts, head1: string, tail1: seq<Row>, head2: string, tail2: seq<Row>)
    requires Flowing(tail1) && Flowing(tail2)
    requires head1 + FlowText(tail1) == head2 + FlowText(tail2)
    ensures Run(w, s, [MessageDelta(Assistant, Some(head1), ts)] + tail1)
      == Run(w, s, [MessageDelta(Assistant, Some(head2), ts)] + tail2)
  {
    FlowFrom(w, s, ts, head1, tail1);
    FlowFrom(w, s, ts, head2, tail2);
  }

  lemma FlowFrom(w: Words, s: State, ts: Ts, head: string, tail: seq<Row>)
    requires Flowing(tail)
    ensures Run(w, s, [MessageDelta(Assistant, Some(head), ts)] + tail)
      == Step(w, s, MessageDelta(Assistant, Some(head + FlowText(tail)), ts))
  {
    var row := MessageDelta(Assistant, Some(head), ts);
    var next := Step(w, s, row);
    FlowGrows(w, next.state, tail);
    assert ([row] + tail)[1..] == tail;
    assert next.events + [] == next.events;
    var c := s.openChunk;
    if c.Some? && c.value.MessageChunk? && c.value.role == Assistant {
      assert c.value.text + head + FlowText(tail) == c.value.text + (head + FlowText(tail));
    }
  }

  // ------------------------------------------------------------------
  // The assistant's words are published exactly
  // ------------------------------------------------------------------

  /** What a row says by itself, or adds to the chunk; a whole message without ink says nothing. */
  function Heard(row: Row): string {
    match row
    case MessageDelta(Assistant, text, _) => text.GetOr("")
    case WholeMessage(Assistant, text, _) => if Shown(text) then text.value else ""
    case Native(synthetic, speaker, text, _, _) => if !synthetic && speaker == Some(Assistant) then text.GetOr("") else ""
    case _ => ""
  }

  function HeldAssistant(s: State): string {
    if s.openChunk.Some? && s.openChunk.value.MessageChunk? && s.openChunk.value.role == Assistant
    then s.openChunk.value.text else ""
  }

  /** What the assistant said, cut where something came between, and what it is still saying. */
  datatype Talk = Talk(done: seq<string>, open: string)

  /** The row comes between: not unseen noise, more of the same message, or an echo that is swallowed. */
  predicate Interrupts(w: Words, s: State, row: Row) {
    match row
    case NotAnObject => false
    case Ignored => false
    case Compacted(ts, eventId, before, after) => KeyOf(w, ts, eventId, before, after) !in s.seenCompactions
    case MessageDelta(Assistant, _, _) => false
    case MessageDelta(User, text, _) => text.Some? && Unmirrored(s.mirror, text.value).0.Some?
    case ThoughtDelta(text, redacted, _) => redacted || text.Some?
    case WholeMessage(Assistant, text, _) => Shown(text)
    case WholeMessage(User, text, _) => Shown(text) && Unmirrored(s.mirror, text.value).0.Some?
    case _ => true
  }

  function Hearing(w: Words, s: State, talk: Talk, row: Row): Talk {
    Continued(talk, row.MessageDelta? && row.role == Assistant, Interrupts(w, s, row), Heard(row))
  }

  /** The talk after more of the same message, or after something came between that says `heard` by itself. */
  function Continued(talk: Talk, same: bool, between: bool, heard: string): Talk {
    if same then talk.(open := talk.open + heard)
    else if between then Talk(talk.done + [talk.open, heard], "")
    else talk
  }

  /** The talk of a log, from a state on. */
  function TalkOf(w: Words, s: State, rows: seq<Row>): Talk {
    if rows == [] then Talk([], HeldAssistant(s))
    else
      var n := |rows| - 1;
      Hearing(w, Run(w, s, rows[..n]).state, TalkOf(w, s, rows[..n]), rows[n])
  }

  function Inked(text: string): seq<string> {
    if Blank(text) then [] else [text]
  }

  /** The pieces that are not blank. */
  function Said(pieces: seq<string>): seq<string> {
    Flat(pieces, Inked)
  }

  function Spoken(e: Event): seq<string> {
    if e.Message? && e.role == Assistant then [e.text] else []
  }

  /** The texts of the assistant messages. */
  function Texts(events: seq<Event>): seq<string> {
    Flat(events, Spoken)
  }

  lemma ClosingSays(open: Option<Chunk>)
    ensures Texts(Closing(open)) ==
      Inked(if open.Some? && open.value.MessageChunk? && open.value.role == Assistant then open.value.text else "")
  {
    var closing := Closing(open);
    if closing != [] {
      assert closing == [closing[0]];
      FlatOne(closing[0], Spoken);
    }
  }

  /** Closing the chunk publishes what was held, and then `more`. */
  lemma CloseSays(s: State, more: seq<Event>)
    ensures Texts(Close(s, more).events) == Inked(HeldAssistant(s)) + Texts(more)
  {
    ClosingSays(s.openChunk);
    FlatConcat(Closing(s.openChunk), more, Spoken);
  }

  /** A list of at most two events none of which is an assistant message says nothing. */
  lemma Silent(events: seq<Event>)
    requires |events| <= 2 && forall i :: 0 <= i < |events| ==> Spoken(events[i]) == []
    ensures Texts(events) == []
  {
    if |events| == 1 {
      assert events == [events[0]];
      FlatOne(events[0], Spoken);
    } else if |events| == 2 {
      assert events == [events[0], events[1]];
      FlatTwo(events[0], events[1], Spoken);
    }
  }

  /** The step publishes the pieces that it finishes, and holds what is still being said. */
  ghost predicate Tells(w: Words, s: State, row: Row) {
    var out, talk := Step(w, s, row), Hearing(w, s, Talk([], HeldAssistant(s)), row);
    Texts(out.events) == Said(talk.done) && HeldAssistant(out.state) == talk.open
  }

  lemma TwoPieces(x: string, y: string)
    ensures Said([] + [x, y]) == Inked(x) + Inked(y)
  {
    assert [] + [x, y] == [x, y];
    FlatTwo(x, y, Inked);
  }

  /** A step that closes the chunk and then says what the row says tells everything. */
  lemma ClosingTells(w: Words, s: State, row: Row, more: seq<Event>)
    requires Interrupts(w, s, row) && Texts(more) == Inked(Heard(row))
    requires var out := Step(w, s, row); out.events == Closing(s.openChunk) + more && out.state.openChunk == None
    ensures Tells(w, s, row)
  {
    CloseSays(s, more);
    TwoPieces(HeldAssistant(s), Heard(row));
  }

  /** A step that publishes nothing and leaves the chunk alone tells everything when nothing interrupts. */
  lemma QuietTells(w: Words, s: State, row: Row)
    requires !Interrupts(w, s, row) && !(row.MessageDelta? && row.role == Assistant)
    requires var out := Step(w, s, row); out.events == [] && out.state.openChunk == s.openChunk
    ensures Tells(w, s, row)
  {
  }

  lemma MessageTells(w: Words, s: State, row: Row)
    requires row.WholeMessage?
    ensures Tells(w, s, row)
  {
    if Interrupts(w, s, row) {
      var shown := if row.role == User then Unmirrored(s.mirror, row.text.value).0.value else row.text.value;
      var e := Message(row.ts, row.role, shown, None);
      FlatOne(e, Spoken);
      ClosingTells(w, s, row, [e]);
    } else {
      QuietTells(w, s, row);
    }
  }

  lemma NativeTells(w: Words, s: State, row: Row)
    requires row.Native?
    ensures Tells(w, s, row)
  {
    var more := NativeEvents(w, row);
    if more != [] {
      assert more == [more[0]];
      FlatOne(more[0], Spoken);
    }
    ClosingTells(w, s, row, more);
  }

  lemma AssistantTells(w: Words, s: State, row: Row)
    requires row.MessageDelta? && row.role == Assistant
    ensures Tells(w, s, row)
  {
    ClosingSays(s.openChunk);
  }

  lemma UserTells(w: Words, s: State, row: Row)
    requires row.MessageDelta? && row.role == User
    ensures Tells(w, s, row)
  {
    ClosingSays(s.openChunk);
    if Interrupts(w, s, row) {
      TwoPieces(HeldAssistant(s), "");
    } else {
      QuietTells(w, s, row);
    }
  }

  lemma ThoughtTells(w: Words, s: State, row: Row)
    requires row.ThoughtDelta?
    ensures Tells(w, s, row)
  {
    ClosingSays(s.openChunk);
    TwoPieces(HeldAssistant(s), "");
    if !Interrupts(w, s, row) {
      QuietTells(w, s, row);
    }
  }

  /** What a turn boundary, a compaction or a whole thought publishes after the open chunk. */
  function BoundaryEvents(row: Row): seq<Event> {
    match row
    case Prompt(ts, text) => if Shown(text) then [TurnStart(ts), Message(ts, User, text.value, None)] else [TurnStart(ts)]
    case TurnEndMethod(ts) => [TurnEnd(ts)]
    case Compacted(ts, _, before, after) => [Compaction(ts, before, after)]
    case TurnEndUpdate(ts, usage) => if usage.Some? then [TokenUsage(ts, usage.value), TurnEnd(ts)] else [TurnEnd(ts)]
    case WholeThought(text, redacted, ts) =>
      if redacted then [Thinking(ts, true, None)] else if Shown(text) then [Thinking(ts, false, text)] else []
    case _ => []
  }

  lemma BoundaryStep(w: Words, s: State, row: Row)
    requires row.Prompt? || row.TurnEndMethod? || row.Compacted? || row.TurnEndUpdate? || row.WholeThought?
    ensures var out := Step(w, s, row);
      if Interrupts(w, s, row) then out.state.openChunk == None && out.events == Closing(s.openChunk) + BoundaryEvents(row)
      else out == Out(s, [])
  {
  }

  lemma BoundaryTells(w: Words, s: State, row: Row)
    requires row.Prompt? || row.TurnEndMethod? || row.Compacted? || row.TurnEndUpdate? || row.WholeThought?
    ensures Tells(w, s, row)
  {
    BoundaryStep(w, s, row);
    if Interrupts(w, s, row) {
      Silent(BoundaryEvents(row));
      ClosingTells(w, s, row, BoundaryEvents(row));
    } else {
      QuietTells(w, s, row);
    }
  }

  lemma ToolTells(w: Words, s: State, row: Row)
    requires row.Tool?
    ensures Tells(w, s, row)
  {
    var more := ToolStep(w, s.(mirror := None), row.update, row.ts).events;
    Silent(more);
    ClosingTells(w, s, row, more);
  }

  lemma StepTells(w: Words, s: State, row: Row)
    ensures Tells(w, s, row)
  {
    if row.WholeMessage? {
      MessageTells(w, s, row);
    } else if row.Native? {
      NativeTells(w, s, row);
    } else if row.MessageDelta? {
      if row.role == Assistant { AssistantTells(w, s, row); } else { UserTells(w, s, row); }
    } else if row.ThoughtDelta? {
      ThoughtTells(w, s, row);
    } else if row.Tool? {
      ToolTells(w, s, row);
    } else if row.NotAnObject? || row.Ignored? {
      QuietTells(w, s, row);
    } else {
      BoundaryTells(w, s, row);
    }
  }

  /** One more row, heard after the talk so far. */
  lemma HearingOn(w: Words, s: State, talk: Talk, row: Row)
    ensures var first, next := Hearing(w, s, Talk([], talk.open), row), Hearing(w, s, talk, row);
      && next.open == first.open && Said(next.done) == Said(talk.done) + Said(first.done)
      && Joined(next.done) + next.open == Joined(talk.done) + talk.open + Heard(row)
  {
    assert Interrupts(w, s, row) || Heard(row) == "" || (row.MessageDelta? && row.role == Assistant);
    ContinuedOn(talk, row.MessageDelta? && row.role == Assistant, Interrupts(w, s, row), Heard(row));
  }

  lemma ContinuedOn(talk: Talk, same: bool, between: bool, heard: string)
    requires same || between || heard == ""
    ensures var first, next := Continued(Talk([], talk.open), same, between, heard), Continued(talk, same, between, heard);
      && next.open == first.open && Said(next.done) == Said(talk.done) + Said(first.done)
      && Joined(next.done) + next.open == Joined(talk.done) + talk.open + heard
  {
    var first := Continued(Talk([], talk.open), same, between, heard).done;
    FlatConcat(talk.done, first, Inked);
    if same {
      Associates(Joined(talk.done), talk.open, heard);
    } else if between {
      assert [] + [talk.open, heard] == [talk.open, heard];
      JoinedTwoMore(talk.done, talk.open, heard);
    }
  }

  lemma {:induction false} JoinedTwoMore(parts: seq<string>, x: string, y: string)
    ensures Joined(parts + [x, y]) == Joined(parts) + x + y
  {
    var more := parts + [x, y];
    if parts == [] {
      assert more == [x, y] && more[1..] == [y] && more[1..][1..] == [];
    } else {
      assert more[1..] == parts[1..] + [x, y];
      JoinedTwoMore(parts[1..], x, y);
      Associates(parts[0], Joined(parts[1..]), x);
      Associates(parts[0], Joined(parts[1..]) + x, y);
    }
  }

  /**
   * Over any run, the assistant messages published are exactly the pieces of the talk
   * that are not blank, in order and to the letter, and what is held is what is still
   * being said; the pieces, one after the other, are all the text that was heard.
   */
  lemma {:induction false} RunConserves(w: Words, s: State, rows: seq<Row>)
    ensures var out, talk := Run(w, s, rows), TalkOf(w, s, rows);
      && Texts(out.events) == Said(talk.done) && HeldAssistant(out.state) == talk.open
      && Joined(talk.done) + talk.open == HeldAssistant(s) + Flat(rows, Heard)
    decreases |rows|
  {
    if rows == [] {
      assert HeldAssistant(s) + [] == HeldAssistant(s) && [] + HeldAssistant(s) == HeldAssistant(s);
    } else {
      var n := |rows| - 1;
      var before, talk := Run(w, s, rows[..n]), TalkOf(w, s, rows[..n]);
      RunConserves(w, s, rows[..n]);
      FoldSnoc(Stepper(w), s, rows);
      StepTells(w, before.state, rows[n]);
      HearingOn(w, before.state, talk, rows[n]);
      FlatConcat(before.events, Step(w, before.state, rows[n]).events, Spoken);
      FlatNext(rows, n, Heard);
      assert rows[..n + 1] == rows;
      Associates(HeldAssistant(s), Flat(rows[..n], Heard), Heard(rows[n]));
    }
  }

  /** The flushed projection of a log publishes exactly what its assistant said, less the blank pieces. */
  lemma ProjectionSaysEverything(w: Words, rows: seq<Row>)
    ensures var talk := TalkOf(w, INITIAL, rows);
      && Texts(Project(w, INITIAL, rows)) == Said(talk.done) + Inked(talk.open)
      && Joined(talk.done) + talk.open == Flat(rows, Heard)
  {
    var out := Run(w, INITIAL, rows);
    var closing := Closing(out.state.openChunk);
    RunConserves(w, INITIAL, rows);
    assert HeldAssistant(INITIAL) + Flat(rows, Heard) == Flat(rows, Heard);
    ClosingSays(out.state.openChunk);
    assert Texts(closing) == Inked(HeldAssistant(out.state));
    FlatConcat(out.events, closing, Spoken);
  }

  // ------------------------------------------------------------------
  // Tool calls and their results
  // ------------------------------------------------------------------

  /** What a reader of the events knows about one call id. */
  datatype Seen = Seen(called: bool, done: bool)

  /** Reads events for one id: a second call, a result before its call or a second result stop the reader. */
  function Reader(id: string): (Seen, seq<Event>) -> Option<Seen> {
    (seen, events) => ReadTools(id, seen, events)
  }

  function ReadOne(id: string, seen: Seen, e: Event): Option<Seen> {
    if e.ToolCall? && e.callId == id then
      if seen.called then None else Some(seen.(called := true))
    else if e.ToolResult? && e.callId == id then
      if !seen.called || seen.done then None else Some(seen.(done := true))
    else Some(seen)
  }

  function ReadTools(id: string, seen: Seen, events: seq<Event>): Option<Seen>
    decreases |events|
  {
    if events == [] then Some(seen)
    else
      var next := ReadOne(id, seen, events[0]);
      if next.None? then None else ReadTools(id, next.value, events[1..])
  }

  function SeenOf(id: string): State -> Seen {
    (s: State) => Seen(Called(Get(s.tools, id)), Done(Get(s.tools, id)))
  }

  lemma {:induction false} ReadSplits(id: string, seen: Seen, x: seq<Event>, y: seq<Event>)
    ensures Splits(Reader(id), seen, x, y)
    decreases |x|
  {
    if x == [] {
      assert x + y == y;
    } else {
      assert (x + y)[1..] == x[1..] + y && (x + y)[0] == x[0];
      var next := ReadOne(id, seen, x[0]);
      if next.Some? { ReadSplits(id, next.value, x[1..], y); }
    }
  }

  lemma {:induction false} ReadOthers(id: string, seen: Seen, events: seq<Event>)
    requires forall i :: 0 <= i < |events| ==> !events[i].ToolCall? && !events[i].ToolResult?
    ensures ReadTools(id, seen, events) == Some(seen)
  {
    if events != [] { ReadOthers(id, seen, events[1..]); }
  }

  lemma ReadFew(id: string, seen: Seen, events: seq<Event>)
    requires |events| <= 2
    ensures |events| == 0 ==> ReadTools(id, seen, events) == Some(seen)
    ensures |events| == 1 ==> ReadTools(id, seen, events) == ReadOne(id, seen, events[0])
    ensures |events| == 2 ==>
      var next := ReadOne(id, seen, events[0]);
      ReadTools(id, seen, events) == if next.None? then None else ReadOne(id, next.value, events[1])
    decreases |events|
  {
    if |events| == 2 {
      var next := ReadOne(id, seen, events[0]);
      if next.Some? { ReadFew(id, next.value, events[1..]); }
    }
  }

  lemma ToolTracks(w: Words, s: State, u: ToolUpdate, ts: Ts, id: string)
    ensures var out := ToolStep(w, s, u, ts);
      ReadTools(id, SeenOf(id)(s), out.events) == Some(SeenOf(id)(out.state))
  {
    var out := ToolStep(w, s, u, ts);
    if NonEmpty(u.callId).Some? {
      var callId := u.callId.value;
      var known := Get(s.tools, callId);
      var next := ToolAfter(w, known, u);
      GetPut(s.tools, callId, next, id);
      ReadFew(id, SeenOf(id)(s), out.events);
    } else {
      ReadOthers(id, SeenOf(id)(s), out.events);
    }
  }

  lemma ToolRowTracks(w: Words, s: State, row: Row, id: string)
    requires row.Tool?
    ensures Tracks(Stepper(w), Reader(id), SeenOf(id), s, row)
  {
    var quiet := s.(mirror := None);
    ToolTracks(w, quiet, row.update, row.ts, id);
    ReadOthers(id, SeenOf(id)(s), Closing(s.openChunk));
    ReadSplits(id, SeenOf(id)(s), Closing(s.openChunk), ToolStep(w, quiet, row.update, row.ts).events);
  }

  lemma OtherRowQuiet(w: Words, s: State, row: Row)
    requires !row.Tool?
    ensures var out := Step(w, s, row);
      && out.state.tools == s.tools
      && forall i :: 0 <= i < |out.events| ==> !out.events[i].ToolCall? && !out.events[i].ToolResult?
  {
  }

  lemma StepTracks(w: Words, s: State, row: Row, id: string)
    ensures Tracks(Stepper(w), Reader(id), SeenOf(id), s, row)
  {
    if row.Tool? {
      ToolRowTracks(w, s, row, id);
    } else {
      OtherRowQuiet(w, s, row);
      ReadOthers(id, SeenOf(id)(s), Step(w, s, row).events);
    }
  }

  function CountCalls(events: seq<Event>, id: string): nat {
    if events == [] then 0
    else (if events[0].ToolCall? && events[0].callId == id then 1 else 0) + CountCalls(events[1..], id)
  }

  function CountResults(events: seq<Event>, id: string): nat {
    if events == [] then 0
    else (if events[0].ToolResult? && events[0].callId == id then 1 else 0) + CountResults(events[1..], id)
  }

  function Bit(b: bool): nat {
    if b then 1 else 0
  }

  lemma {:induction false} ReadCounts(id: string, seen: Seen, events: seq<Event>)
    requires ReadTools(id, seen, events).Some?
    ensures var last := ReadTools(id, seen, events).value;
      && Bit(seen.called) + CountCalls(events, id) == Bit(last.called)
      && Bit(seen.done) + CountResults(events, id) == Bit(last.done)
      && ((seen.done ==> seen.called) ==> last.done ==> last.called)
    decreases |events|
  {
    if events != [] {
      var next := ReadOne(id, seen, events[0]);
      ReadCounts(id, next.value, events[1..]);
    }
  }

  /**
   * From a fresh projector, at every moment of every run, a call id has been
   * announced at most once and has had no more results than announcements.
   */
  lemma ToolsPairUp(w: Words, rows: seq<Row>, id: string, k: nat)
    requires k <= |Run(w, INITIAL, rows).events|
    ensures var events := Run(w, INITIAL, rows).events[..k];
      CountResults(events, id) <= CountCalls(events, id) <= 1
  {
    var all := Run(w, INITIAL, rows).events;
    forall s, row ensures Tracks(Stepper(w), Reader(id), SeenOf(id), s, row) { StepTracks(w, s, row, id); }
    forall seen, x, y ensures Splits(Reader(id), seen, x, y) { ReadSplits(id, seen, x, y); }
    FoldTracks(Stepper(w), INITIAL, rows, Reader(id), SeenOf(id));
    assert Splits(Reader(id), Seen(false, false), all[..k], all[k..]);
    assert all == all[..k] + all[k..];
    ReadCounts(id, Seen(false, false), all[..k]);
  }
}
