/** Checkpoints of the agy projector and restarting from them: v2/adapters/src/agy.ts. */
module AgyCheckpoint {
  import opened Wrappers
  import opened Ordered
  import opened Checkpoint
  import opened Runs
  import opened Counters
  import opened Agy
  import opened AgyProofs

  function WriteFragment(f: Fragment): Json {
    var fields := map["text" := JStr(f.text)];
    JObj(if f.eventId.Some? then fields["providerEventId" := JStr(f.eventId.value)] else fields)
  }

  predicate IsFragment(v: Json) {
    && (HasExactly(v, {"text"}) || (HasExactly(v, {"text", "providerEventId"}) && v.fields["providerEventId"].JStr?))
    && v.fields["text"].JStr?
  }

  function ReadFragment(v: Json): Fragment
    requires IsFragment(v)
  {
    Fragment(v.fields["text"].text, if "providerEventId" in v.fields then Some(v.fields["providerEventId"].text) else None)
  }

  ghost predicate AreEmitted(v: Json) {
    v.JArr? && |v.items| <= DEDUPE_LIMIT && AreStrings(v)
  }

  const KEYS: set<string> := {"threadId", "sawAssistantText", "previousResultUsage", "previousNumTurns",
    "previousDurationSeconds", "assistantFragments", "emittedAssistantMessages", "emittedToolCalls", "emittedToolResults"}

  function Write(s: State): Json {
    JObj(map[
      "threadId" := OptString(s.thread),
      "sawAssistantText" := JBool(s.sawAssistantText),
      "previousResultUsage" := if s.usage.Some? then WriteUsage(s.usage.value) else JNull,
      "previousNumTurns" := OptNumber(s.turns),
      "previousDurationSeconds" := OptNumber(s.duration),
      "assistantFragments" := Pairs(s.fragments, WriteFragment),
      "emittedAssistantMessages" := Strings(s.messages),
      "emittedToolCalls" := Strings(s.calls),
      "emittedToolResults" := Strings(s.results)])
  }

  ghost predicate IsAgyCheckpointState(v: Json) {
    && HasExactly(v, KEYS)
    && NullOrString(v.fields["threadId"]) && v.fields["sawAssistantText"].JBool?
    && (v.fields["previousResultUsage"].JNull? || IsUsage(v.fields["previousResultUsage"]))
    && (v.fields["previousNumTurns"].JNull? || v.fields["previousNumTurns"].JNum?)
    && (v.fields["previousDurationSeconds"].JNull? || v.fields["previousDurationSeconds"].JNum?)
    && ArePairs(v.fields["assistantFragments"], IsFragment)
    && AreEmitted(v.fields["emittedAssistantMessages"])
    && AreEmitted(v.fields["emittedToolCalls"]) && AreEmitted(v.fields["emittedToolResults"])
  }

  /** A projector from a stored state, or none when the state is not exactly of the owned, bounded shape. */
  ghost function Restore(v: Json): Option<State> {
    if !IsAgyCheckpointState(v) then None
    else Some(State(
      ReadOptString(v.fields["threadId"]),
      v.fields["sawAssistantText"].flag,
      if v.fields["previousResultUsage"].JNull? then None else Some(ReadUsage(v.fields["previousResultUsage"])),
      ReadOptNumber(v.fields["previousNumTurns"]),
      ReadOptNumber(v.fields["previousDurationSeconds"]),
      ReadPairs(v.fields["assistantFragments"], IsFragment, ReadFragment),
      ReadStrings(v.fields["emittedAssistantMessages"]),
      ReadStrings(v.fields["emittedToolCalls"]),
      ReadStrings(v.fields["emittedToolResults"])))
  }

  lemma FragmentRoundTrip(f: Fragment)
    ensures IsFragment(WriteFragment(f)) && ReadFragment(WriteFragment(f)) == f
  {
    assert |"text"| != |"providerEventId"|;
  }

  /** The three emitted sets are within their bound and repeat nothing, and no fragment key is held twice. */
  ghost predicate Sound(s: State) {
    && |s.messages| <= DEDUPE_LIMIT && Distinct(s.messages)
    && |s.calls| <= DEDUPE_LIMIT && Distinct(s.calls)
    && |s.results| <= DEDUPE_LIMIT && Distinct(s.results)
    && DistinctKeys(s.fragments)
  }

  lemma HoldsSound(kept: seq<string>, ids: seq<string>)
    requires Holds(kept, ids)
    ensures |kept| <= DEDUPE_LIMIT && Distinct(kept)
  {
    var from := |ids| - |kept|;
    assert forall i :: 0 <= i < |kept| ==> kept[i] == ids[from + i];
  }

  lemma ReachableSound(lines: seq<Line>)
    ensures Sound(Run(INITIAL, lines).state)
  {
    var (s, log) := Trace(lines);
    TraceFaithful(lines);
    TraceIsRun(lines);
    HoldsSound(s.messages, log.messages);
    HoldsSound(s.calls, log.calls);
    HoldsSound(s.results, log.results);
  }

  /** The bounded validator accepts every sound state, and the restored state is the same one, order included. */
  lemma RestoreRoundTrip(s: State)
    requires Sound(s)
    ensures Restore(Write(s)) == Some(s)
  {
    if s.usage.Some? { UsageRoundTrip(s.usage.value); }
    forall i | 0 <= i < |s.fragments|
      ensures IsFragment(WriteFragment(s.fragments[i].1)) && ReadFragment(WriteFragment(s.fragments[i].1)) == s.fragments[i].1
    {
      FragmentRoundTrip(s.fragments[i].1);
    }
    PairsRoundTrip(s.fragments, WriteFragment, IsFragment, ReadFragment);
    StringsRoundTrip(s.messages);
    StringsRoundTrip(s.calls);
    StringsRoundTrip(s.results);
    WriteFields(s);
  }

  /** The fields of a written state, read back by name. */
  lemma WriteFields(s: State)
    ensures HasExactly(Write(s), KEYS)
    ensures var f := Write(s).fields;
      && f["threadId"] == OptString(s.thread) && f["sawAssistantText"] == JBool(s.sawAssistantText)
      && f["previousResultUsage"] == (if s.usage.Some? then WriteUsage(s.usage.value) else JNull)
      && f["previousNumTurns"] == OptNumber(s.turns) && f["previousDurationSeconds"] == OptNumber(s.duration)
      && f["assistantFragments"] == Pairs(s.fragments, WriteFragment)
      && f["emittedAssistantMessages"] == Strings(s.messages)
      && f["emittedToolCalls"] == Strings(s.calls) && f["emittedToolResults"] == Strings(s.results)
  {
  }

  /** Stopping a run anywhere, storing the checkpoint and restarting from it changes no event. */
  lemma RestartTransparent(before: seq<Line>, after: seq<Line>)
    ensures var first := Run(INITIAL, before);
      && Restore(Write(first.state)).Some?
      && Run(INITIAL, before + after).events == first.events + Run(Restore(Write(first.state)).value, after).events
  {
    ReachableSound(before);
    RestoreRoundTrip(Run(INITIAL, before).state);
    FoldConcat(Stepper(), INITIAL, before, after);
  }

  lemma FragmentBack(v: Json)
    requires IsFragment(v)
    ensures WriteFragment(ReadFragment(v)) == v
  {
    assert |"text"| != |"providerEventId"|;
    SameFields(v, WriteFragment(ReadFragment(v)));
  }

  lemma FragmentsBack(v: Json)
    requires ArePairs(v, IsFragment)
    ensures Pairs(ReadPairs(v, IsFragment, ReadFragment), WriteFragment) == v
    ensures DistinctKeys(ReadPairs(v, IsFragment, ReadFragment))
  {
    forall i | 0 <= i < |v.items| ensures WriteFragment(ReadFragment(v.items[i].items[1])) == v.items[i].items[1] {
      assert IsPair(v.items[i], IsFragment);
      FragmentBack(v.items[i].items[1]);
    }
    PairsBack(v, WriteFragment, IsFragment, ReadFragment);
  }

  lemma ScalarsBack(v: Json, s: State)
    requires Restore(v) == Some(s)
    ensures var f := v.fields;
      && OptString(s.thread) == f["threadId"] && JBool(s.sawAssistantText) == f["sawAssistantText"]
      && (if s.usage.Some? then WriteUsage(s.usage.value) else JNull) == f["previousResultUsage"]
      && OptNumber(s.turns) == f["previousNumTurns"] && OptNumber(s.duration) == f["previousDurationSeconds"]
  {
    OptStringBack(v.fields["threadId"]);
    if !v.fields["previousResultUsage"].JNull? { UsageBack(v.fields["previousResultUsage"]); }
  }

  lemma ArraysBack(v: Json, s: State)
    requires Restore(v) == Some(s)
    ensures Sound(s)
    ensures var f := v.fields;
      && Pairs(s.fragments, WriteFragment) == f["assistantFragments"] && Strings(s.messages) == f["emittedAssistantMessages"]
      && Strings(s.calls) == f["emittedToolCalls"] && Strings(s.results) == f["emittedToolResults"]
  {
    FragmentsBack(v.fields["assistantFragments"]);
    StringsBack(v.fields["emittedAssistantMessages"]);
    StringsBack(v.fields["emittedToolCalls"]);
    StringsBack(v.fields["emittedToolResults"]);
  }

  /** The validator accepts the checkpoints of sound states and nothing else, each as the state that it is of. */
  lemma AcceptedIff(v: Json, s: State)
    ensures Restore(v) == Some(s) <==> Sound(s) && v == Write(s)
  {
    if Restore(v) == Some(s) {
      ScalarsBack(v, s);
      ArraysBack(v, s);
      WriteFields(s);
      SameFields(v, Write(s));
    }
    if Sound(s) && v == Write(s) { RestoreRoundTrip(s); }
  }
}
