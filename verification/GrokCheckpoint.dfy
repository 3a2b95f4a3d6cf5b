/** Checkpoints of the Grok projector and restarting from them: v2/adapters/src/grok.ts. */
module GrokCheckpoint {
  import opened Wrappers
  import opened Ordered
  import opened Checkpoint
  import opened Runs
  import opened Grok

  function RoleName(role: Role): string {
    if role == User then "user" else "assistant"
  }

  function WriteChunk(c: Chunk): Json {
    match c
    case MessageChunk(role, text, ts) =>
      JObj(map["kind" := JStr("message"), "role" := JStr(RoleName(role)), "text" := JStr(text), "ts" := OptString(ts)])
    case ThoughtChunk(redacted, thought, ts) =>
      var fields := map["kind" := JStr("thinking"), "redacted" := JBool(redacted), "ts" := OptString(ts)];
      JObj(if thought.Some? then fields["text" := JStr(thought.value)] else fields)
  }

  predicate IsMessageChunk(v: Json) {
    && HasExactly(v, {"kind", "role", "text", "ts"})
    && v.fields["kind"] == JStr("message") && v.fields["role"] in [JStr("user"), JStr("assistant")]
    && v.fields["text"].JStr? && NullOrString(v.fields["ts"])
  }

  predicate IsThoughtChunk(v: Json) {
    && (HasExactly(v, {"kind", "redacted", "ts"}) || (HasExactly(v, {"kind", "redacted", "ts", "text"}) && v.fields["text"].JStr?))
    && v.fields["kind"] == JStr("thinking") && v.fields["redacted"].JBool? && NullOrString(v.fields["ts"])
  }

  predicate IsOpenChunk(v: Json) {
    IsMessageChunk(v) || IsThoughtChunk(v)
  }

  function ReadChunk(v: Json): Chunk
    requires IsOpenChunk(v)
  {
    if IsMessageChunk(v) then
      MessageChunk(if v.fields["role"] == JStr("user") then User else Assistant, v.fields["text"].text, ReadOptString(v.fields["ts"]))
    else
      ThoughtChunk(v.fields["redacted"].flag,
        if "text" in v.fields then Some(v.fields["text"].text) else None, ReadOptString(v.fields["ts"]))
  }

  function WriteTool(t: ToolState): Json {
    var fields := map["name" := JStr(t.name), "callEmitted" := JBool(t.callEmitted), "resultEmitted" := JBool(t.resultEmitted)];
    var withInput := if t.input.Some? then fields["input" := t.input.value] else fields;
    JObj(if t.status.Some? then withInput["status" := JStr(t.status.value)] else withInput)
  }

  predicate IsToolState(v: Json) {
    && v.JObj? && {"name", "callEmitted", "resultEmitted"} <= v.fields.Keys
    && v.fields.Keys <= {"name", "callEmitted", "resultEmitted", "input", "status"}
    && v.fields["name"].JStr? && v.fields["callEmitted"].JBool? && v.fields["resultEmitted"].JBool?
    && ("status" in v.fields ==> v.fields["status"].JStr?)
  }

  function ReadTool(v: Json): ToolState
    requires IsToolState(v)
  {
    ToolState(v.fields["name"].text,
      if "input" in v.fields then Some(v.fields["input"]) else None,
      if "status" in v.fields then Some(v.fields["status"].text) else None,
      v.fields["callEmitted"].flag, v.fields["resultEmitted"].flag)
  }

  function Write(s: State): Json {
    JObj(map[
      "openChunk" := if s.openChunk.Some? then WriteChunk(s.openChunk.value) else JNull,
      "pendingPromptMirror" := OptString(s.mirror),
      "tools" := Pairs(s.tools, WriteTool),
      "seenCompactions" := Strings(s.seenCompactions)])
  }

  ghost predicate IsGrokCheckpointState(v: Json) {
    && HasExactly(v, {"openChunk", "pendingPromptMirror", "tools", "seenCompactions"})
    && (v.fields["openChunk"].JNull? || IsOpenChunk(v.fields["openChunk"]))
    && NullOrString(v.fields["pendingPromptMirror"])
    && ArePairs(v.fields["tools"], IsToolState)
    && AreStrings(v.fields["seenCompactions"])
  }

  /** A projector from a stored state, or none when the state does not have exactly the owned shape. */
  ghost function Restore(v: Json): Option<State> {
    if !IsGrokCheckpointState(v) then None
    else Some(State(
      if v.fields["openChunk"].JNull? then None else Some(ReadChunk(v.fields["openChunk"])),
      ReadOptString(v.fields["pendingPromptMirror"]),
      ReadPairs(v.fields["tools"], IsToolState, ReadTool),
      ReadStrings(v.fields["seenCompactions"])))
  }

  /** No call id and no compaction key is held twice. */
  ghost predicate Sound(s: State) {
    DistinctKeys(s.tools) && Distinct(s.seenCompactions)
  }

  lemma StepSound(w: Words, s: State, row: Row)
    requires Sound(s)
    ensures Sound(Step(w, s, row).state)
  {
    if row.Tool? && NonEmpty(row.update.callId).Some? {
      var id := row.update.callId.value;
      PutDistinct(s.tools, id, ToolAfter(w, Get(s.tools, id), row.update));
    } else {
      assert Step(w, s, row).state.tools == s.tools;
    }
  }

  lemma RunSound(w: Words, s: State, rows: seq<Row>)
    requires Sound(s)
    ensures Sound(Run(w, s, rows).state)
  {
    forall t, row | Sound(t) ensures Sound(Stepper(w)(t, row).state) { StepSound(w, t, row); }
    FoldKeeps(Stepper(w), s, rows, t => Sound(t));
  }

  lemma ChunkRoundTrip(c: Chunk)
    ensures IsOpenChunk(WriteChunk(c)) && ReadChunk(WriteChunk(c)) == c && WriteChunk(c) != JNull
  {
    assert "message" != "thinking" by { assert "message"[0] != "thinking"[0]; }
    assert "user"[0] != "assistant"[0];
    DifferentKeys();
  }

  lemma DifferentKeys()
    ensures "text" !in {"kind", "redacted", "ts"}
    ensures "input" !in {"name", "callEmitted", "resultEmitted", "status"}
    ensures "status" !in {"name", "callEmitted", "resultEmitted"}
  {
    assert |"text"| == 4 && |"ts"| == 2 && |"redacted"| == 8 && "text"[0] != "kind"[0];
    assert |"input"| == 5 && |"status"| == 6 && |"name"| == 4 && |"callEmitted"| == 11 && |"resultEmitted"| == 13;
  }

  lemma ToolRoundTrip(t: ToolState)
    ensures IsToolState(WriteTool(t)) && ReadTool(WriteTool(t)) == t
  {
    DifferentKeys();
  }

  /** Every state a run can reach is accepted and restored exactly. */
  lemma RestoreRoundTrip(s: State)
    requires Sound(s)
    ensures Restore(Write(s)) == Some(s)
  {
    if s.openChunk.Some? { ChunkRoundTrip(s.openChunk.value); }
    forall i | 0 <= i < |s.tools|
      ensures IsToolState(WriteTool(s.tools[i].1)) && ReadTool(WriteTool(s.tools[i].1)) == s.tools[i].1
    {
      ToolRoundTrip(s.tools[i].1);
    }
    PairsRoundTrip(s.tools, WriteTool, IsToolState, ReadTool);
    StringsRoundTrip(s.seenCompactions);
  }

  lemma ProjectedInTwo(w: Words, s: State, before: seq<Row>, after: seq<Row>)
    ensures var first := Run(w, s, before);
      Project(w, s, before + after) == first.events + Project(w, first.state, after)
  {
    var first := Run(w, s, before);
    FoldConcat(Stepper(w), s, before, after);
    var rest := Run(w, first.state, after);
    assert first.events + rest.events + Closing(rest.state.openChunk) ==
      first.events + (rest.events + Closing(rest.state.openChunk));
  }

  /** Stopping anywhere, storing the checkpoint and restarting from it changes no event. */
  lemma RestartTransparent(w: Words, s: State, before: seq<Row>, after: seq<Row>)
    requires Sound(s)
    ensures var first := Run(w, s, before);
      && Restore(Write(first.state)).Some?
      && Project(w, s, before + after) == first.events + Project(w, Restore(Write(first.state)).value, after)
  {
    var first := Run(w, s, before);
    RunSound(w, s, before);
    RestoreRoundTrip(first.state);
    ProjectedInTwo(w, s, before, after);
  }

  lemma ChunkBack(v: Json)
    requires IsOpenChunk(v)
    ensures WriteChunk(ReadChunk(v)) == v
  {
    DifferentKeys();
    if IsMessageChunk(v) { MessageChunkBack(v); } else { ThoughtChunkBack(v); }
  }

  lemma MessageChunkBack(v: Json)
    requires IsMessageChunk(v)
    ensures WriteChunk(ReadChunk(v)) == v
  {
    OptStringBack(v.fields["ts"]);
    var role := if v.fields["role"] == JStr("user") then User else Assistant;
    assert JStr(RoleName(role)) == v.fields["role"];
    SameFields(v, WriteChunk(ReadChunk(v)));
  }

  lemma ThoughtChunkBack(v: Json)
    requires IsThoughtChunk(v) && !IsMessageChunk(v)
    ensures WriteChunk(ReadChunk(v)) == v
  {
    DifferentKeys();
    OptStringBack(v.fields["ts"]);
    SameFields(v, WriteChunk(ReadChunk(v)));
  }

  lemma ToolBack(v: Json)
    requires IsToolState(v)
    ensures WriteTool(ReadTool(v)) == v
  {
    DifferentKeys();
    SameFields(v, WriteTool(ReadTool(v)));
  }

  /** The validator accepts the checkpoints of sound states and nothing else, each as the state that it is of. */
  lemma AcceptedIff(v: Json, s: State)
    ensures Restore(v) == Some(s) <==> Sound(s) && v == Write(s)
  {
    if Restore(v) == Some(s) {
      if !v.fields["openChunk"].JNull? {
        ChunkBack(v.fields["openChunk"]);
      }
      OptStringBack(v.fields["pendingPromptMirror"]);
      ToolsBack(v.fields["tools"]);
      StringsBack(v.fields["seenCompactions"]);
      SameFields(v, Write(s));
    }
    if Sound(s) && v == Write(s) { RestoreRoundTrip(s); }
  }

  lemma ToolsBack(v: Json)
    requires ArePairs(v, IsToolState)
    ensures Pairs(ReadPairs(v, IsToolState, ReadTool), WriteTool) == v && DistinctKeys(ReadPairs(v, IsToolState, ReadTool))
  {
    forall i | 0 <= i < |v.items| ensures WriteTool(ReadTool(v.items[i].items[1])) == v.items[i].items[1] {
      assert IsPair(v.items[i], IsToolState);
      ToolBack(v.items[i].items[1]);
    }
    PairsBack(v, WriteTool, IsToolState, ReadTool);
  }
}
