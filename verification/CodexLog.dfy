/** What every line of a Codex log publishes, by the lines before it alone: v2/adapters/src/codex.ts. */
module CodexLog {
  import opened Wrappers
  import opened Text
  import opened Ordered
  import opened Checkpoint
  import opened Runs
  import opened Codex
  import opened CodexProofs

  // ------------------------------------------------------------------
  // The words of a message
  // ------------------------------------------------------------------

  /** The longest runs of characters that are not white space. */
  function WordsIn(s: string): (words: seq<string>)
    ensures s != [] && !IsSpace(s[0]) ==> words != []
  {
    if s == [] then []
    else if IsSpace(s[0]) then WordsIn(s[1..])
    else if |s| == 1 || IsSpace(s[1]) then [[s[0]]] + WordsIn(s[1..])
    else
      var rest := WordsIn(s[1..]);
      [[s[0]] + rest[0]] + rest[1..]
  }

  /** The words, each but the first behind a space. */
  function Spaced(words: seq<string>): string {
    if words == [] then [] else if |words| == 1 then words[0] else words[0] + " " + Spaced(words[1..])
  }

  lemma SpacedLonger(c: char, words: seq<string>)
    requires words != []
    ensures Spaced([[c] + words[0]] + words[1..]) == [c] + Spaced(words)
  {
    var more := [[c] + words[0]] + words[1..];
    assert more[1..] == words[1..];
  }

  lemma {:induction false} SqueezeWords(s: string, gap: bool)
    ensures Squeeze(s, gap) ==
      (if WordsIn(s) != [] && (gap || IsSpace(s[0])) then " " else "") + Spaced(WordsIn(s))
  {
    if s != [] {
      var c, rest := s[0], s[1..];
      SqueezeWords(rest, IsSpace(c));
      if !IsSpace(c) {
        var words := WordsIn(rest);
        if rest == [] || IsSpace(rest[0]) {
          assert WordsIn(s)[1..] == words;
          assert [c] + Squeeze(rest, false) == Spaced(WordsIn(s));
        } else {
          SpacedLonger(c, words);
          assert Squeeze(rest, false) == Spaced(words);
        }
      }
    }
  }

  lemma {:induction false} TrimKeepsWords(s: string)
    ensures WordsIn(TrimStart(s)) == WordsIn(s)
  {
    if s != [] && IsSpace(s[0]) { TrimKeepsWords(s[1..]); }
  }

  /** The normal form of a text is its words with single spaces between them. */
  lemma NormalIsWords(text: string)
    ensures Normal(text) == Spaced(WordsIn(text))
  {
    TrimKeepsWords(text);
    TrimmedStarts(text);
    SqueezeWords(TrimStart(text), false);
  }

  /** Not empty, and without white space. */
  ghost predicate IsWord(word: string) {
    word != [] && forall i :: 0 <= i < |word| ==> !IsSpace(word[i])
  }

  ghost predicate AllWords(words: seq<string>) {
    forall i :: 0 <= i < |words| ==> IsWord(words[i])
  }

  lemma {:induction false} WordsAreWords(s: string)
    ensures AllWords(WordsIn(s))
  {
    if s != [] { WordsAreWords(s[1..]); }
  }

  /** A word before other words is read as the first of them. */
  lemma {:induction false} WordFirst(word: string, rest: string)
    requires IsWord(word) && (rest == [] || IsSpace(rest[0]))
    ensures WordsIn(word + rest) == [word] + WordsIn(rest)
  {
    var s := word + rest;
    if |word| == 1 {
      assert s[1..] == rest && [s[0]] == word;
    } else {
      assert s[1..] == word[1..] + rest;
      WordFirst(word[1..], rest);
      assert [s[0]] + word[1..] == word;
      assert ([word[1..]] + WordsIn(rest))[1..] == WordsIn(rest);
    }
  }

  lemma {:induction false} WordsOfSpaced(words: seq<string>)
    requires AllWords(words)
    ensures WordsIn(Spaced(words)) == words
  {
    if words != [] {
      assert IsWord(words[0]);
      if |words| == 1 {
        WordFirst(words[0], []);
        assert words[0] + [] == words[0];
      } else {
        var rest := words[1..];
        forall i | 0 <= i < |rest| ensures IsWord(rest[i]) { assert IsWord(words[i + 1]); }
        WordsOfSpaced(rest);
        WordFirst(words[0], " " + Spaced(rest));
        assert (" " + Spaced(rest))[1..] == Spaced(rest);
        assert words[0] + " " + Spaced(rest) == words[0] + (" " + Spaced(rest));
      }
    }
  }

  /** Two messages count as one when they are of one role and of the same words. */
  lemma SameIdentityIff(a: Role, x: string, b: Role, y: string)
    ensures Identity(a, x) == Identity(b, y) <==> a == b && WordsIn(x) == WordsIn(y)
  {
    IdentitiesTellApart(a, x, b, y);
    NormalIsWords(x);
    NormalIsWords(y);
    WordsAreWords(x);
    WordsAreWords(y);
    WordsOfSpaced(WordsIn(x));
    WordsOfSpaced(WordsIn(y));
  }

  // ------------------------------------------------------------------
  // What the log says
  // ------------------------------------------------------------------

  /** The roles and words of all messages since the rollout turn was last opened. */
  function Spoken(past: seq<Row>): set<(Role, seq<string>)> {
    if past == [] then {}
    else
      var before, row := past[..|past| - 1], past[|past| - 1];
      match Rolled(before, row)
      case Some(Said(role, text, _)) => Spoken(before) + {(role, WordsIn(text))}
      case Some(TurnContext) => if IsOpen(before) then Spoken(before) else {}
      case Some(TaskStarted) => if IsOpen(before) then Spoken(before) else {}
      case _ => Spoken(before)
  }

  /** The model requested last. */
  function LastModel(past: seq<Row>): Option<string> {
    if past == [] then None
    else match past[|past| - 1]
      case Request(Some(model)) => Some(model)
      case _ => LastModel(past[..|past| - 1])
  }

  /** The fields of a completed item, over those of its start; the invocations field by field as well. */
  function Combined(started: Option<Fields>, completed: Fields): Fields {
    match started
    case None => completed
    case Some(fields) =>
      map f | f in fields.Keys + completed.Keys ::
        if f == "invocation" && (Nests(fields, f) || Nests(completed, f)) then JObj(Nested(fields, f) + Nested(completed, f))
        else if f in completed then completed[f] else fields[f]
  }

  function RolloutSays(past: seq<Row>, rollout: Rollout): seq<Event> {
    match rollout
    case TurnContext => if IsOpen(past) then [] else [RolloutStart]
    case TaskStarted => if IsOpen(past) then [] else [RolloutStart]
    case TaskComplete(turnId) => [RolloutEnd(turnId)]
    case Said(role, text, itemId) => if (role, WordsIn(text)) in Spoken(past) then [] else [Message(role, text, itemId)]
    case ContextCompacted => [Compaction]
    case Call(callId, name, input) => [ToolCall(callId, name, input)]
    case Output(callId, output) => [ToolResult(callId, output)]
    case Reasoning(thought) => [Thinking(thought)]
    case OtherRollout => []
  }

  function UsageSays(past: seq<Row>, usage: Option<string>, thread: Option<string>): seq<Event> {
    match usage
    case Some(report) => [TokenUsage(report, LastModel(past), thread)]
    case None => []
  }

  function Says(past: seq<Row>, row: Row): seq<Event> {
    match row
    case NotAnObject => []
    case OtherMethod => []
    case Fork(_) => []
    case Request(_) => []
    case QuotaRow(thread) => [Quota(thread)]
    case Plain(requestId, result, rollout) =>
      if requestId.Some? && requestId.value in Pending(past) then
        match result
        case Some(body) => [Snapshot(requestId.value, body)]
        case None => []
      else RolloutSays(past, rollout)
    case TurnStarted(turnId, thread) => [TurnStart(turnId, thread)]
    case TurnCompleted(turnId, thread, usage, true) => [Quota(thread), TurnEnd(turnId, thread)] + UsageSays(past, usage, thread)
    case TurnCompleted(turnId, thread, usage, false) => [TurnEnd(turnId, thread)] + UsageSays(past, usage, thread)
    case TurnInterrupt(thread) => [Interrupt(thread)]
    case UsageUpdated(usage, thread) => UsageSays(past, usage, thread)
    case ItemStarted(item, thread) => if item.kind == Command || item.kind == McpCall then [ItemShown(item, thread)] else []
    case ItemCompleted(item, thread) =>
      var started := if item.id.Some? then StartedItem(past, item.id.value) else None;
      [ItemDone(Combined(started, item.fields), started != None, thread)]
  }

  function Sayer(): (seq<Row>, Row) -> seq<Event> {
    (past, row) => Says(past, row)
  }

  // ------------------------------------------------------------------
  // The projector remembers just what it needs of the log
  // ------------------------------------------------------------------

  ghost predicate Stands(s: State, past: seq<Row>) {
    && Follows(s, past) && s.model == LastModel(past) && DistinctKeys(s.startedItems)
    && forall id :: Get(s.startedItems, id) == StartedItem(past, id)
  }

  lemma LastRow(past: seq<Row>, row: Row)
    ensures (past + [row])[..|past + [row]| - 1] == past && (past + [row])[|past|] == row
  {
  }

  lemma {:induction false} HeardIsSpoken(past: seq<Row>, role: Role, text: string)
    ensures Identity(role, text) in Heard(past) <==> (role, WordsIn(text)) in Spoken(past)
  {
    if past != [] {
      var before, row := past[..|past| - 1], past[|past| - 1];
      HeardIsSpoken(before, role, text);
      var rollout := Rolled(before, row);
      if rollout.Some? && rollout.value.Said? {
        SameIdentityIff(role, text, rollout.value.role, rollout.value.text);
        assert Identity(role, text) in Heard(past) <==>
          Identity(role, text) in Heard(before) || Identity(role, text) == Identity(rollout.value.role, rollout.value.text);
      }
    }
  }

  lemma RowStands(s: State, past: seq<Row>, row: Row)
    requires Stands(s, past)
    ensures Stands(Next(s, row).state, past + [row])
  {
    LastRow(past, row);
    StepFollows(s, past + [row]);
    forall id ensures DistinctKeys(Next(s, row).state.startedItems)
                   && Get(Next(s, row).state.startedItems, id) == StartedItem(past + [row], id) {
      ItemsNext(s, row, id);
    }
    ModelNext(s, row);
  }

  lemma ModelNext(s: State, row: Row)
    ensures Next(s, row).state.model == if row.Request? && row.model.Some? then row.model else s.model
  {
  }

  lemma CombinedIsMerge(started: Option<Fields>, completed: Fields)
    ensures Merge("invocation", started, completed) == Combined(started, completed)
  {
    if started.Some? {
      var merged := Merge("invocation", started, completed);
      var before, after := ObjectAt(started.value, "invocation"), ObjectAt(completed, "invocation");
      assert before.GetOr(map[]) == Nested(started.value, "invocation") && after.GetOr(map[]) == Nested(completed, "invocation");
      assert merged.Keys == started.value.Keys + completed.Keys;
    }
  }

  lemma RolloutSaid(s: State, past: seq<Row>, rollout: Rollout)
    requires Stands(s, past)
    ensures RolloutStep(s, rollout).events == RolloutSays(past, rollout)
  {
    FirstSeenKeeps(Heard(past));
    if rollout.Said? { HeardIsSpoken(past, rollout.role, rollout.text); }
  }

  lemma RowSays(s: State, past: seq<Row>, row: Row)
    requires Stands(s, past)
    ensures Next(s, row).events == Says(past, row)
  {
    match row {
      case Plain(_, _, rollout) =>
        RolloutSaid(s, past, rollout);
      case ItemCompleted(item, _) =>
        CombinedIsMerge(StartOf(s, item), item.fields);
      case TurnCompleted(turnId, thread, _, quota) =>
        assert [Quota(thread)] + [TurnEnd(turnId, thread)] == [Quota(thread), TurnEnd(turnId, thread)];
        assert [] + [TurnEnd(turnId, thread)] == [TurnEnd(turnId, thread)];
      case _ =>
    }
  }

  ghost function Standing(): (State, seq<Row>) -> bool {
    (s, past) => Stands(s, past)
  }

  lemma StandsFirst()
    ensures Stands(INITIAL, [])
  {
  }

  /** Over every log, the projector publishes line by line what the lines before each line call for. */
  lemma ProjectionIsTheLog(rows: seq<Row>)
    ensures Run(INITIAL, rows).events == Told(Sayer(), rows) && Stands(Run(INITIAL, rows).state, rows)
  {
    StandsFirst();
    forall s, past, row ensures Obeys(Stepper(), Standing(), Sayer(), s, past, row) {
      if Standing()(s, past) {
        RowStands(s, past, row);
        RowSays(s, past, row);
      }
    }
    FoldTells(Stepper(), INITIAL, rows, Standing(), Sayer());
    assert Standing()(Run(INITIAL, rows).state, rows);
  }
}
