/** Checkpoints of the Codex projector and restarting from them: v2/adapters/src/codex.ts. */
module CodexCheckpoint {
  import opened Wrappers
  import opened Ordered
  import opened Checkpoint
  import opened Runs
  import opened Codex
  import opened CodexProofs

  const KEYS: set<string> := {"startedItems", "currentModel", "rolloutMessages", "forkRequestIds", "rolloutTurnOpen"}

  function WriteItem(fields: Fields): Json {
    JObj(fields)
  }

  predicate IsItem(v: Json) {
    v.JObj?
  }

  function ReadItem(v: Json): Fields
    requires IsItem(v)
  {
    v.fields
  }

  function Write(s: State): Json {
    JObj(map[
      "startedItems" := Pairs(s.startedItems, WriteItem),
      "currentModel" := OptString(s.model),
      "rolloutMessages" := Strings(s.messages),
      "forkRequestIds" := Strings(s.forks),
      "rolloutTurnOpen" := JBool(s.turnOpen)])
  }

  ghost predicate IsCodexCheckpointState(v: Json) {
    && HasExactly(v, KEYS)
    && ArePairs(v.fields["startedItems"], IsItem) && NullOrString(v.fields["currentModel"])
    && AreStrings(v.fields["rolloutMessages"]) && AreStrings(v.fields["forkRequestIds"])
    && v.fields["rolloutTurnOpen"].JBool?
  }

  ghost function Restore(v: Json): Option<State> {
    if !IsCodexCheckpointState(v) then None
    else Some(State(
      ReadPairs(v.fields["startedItems"], IsItem, ReadItem),
      ReadOptString(v.fields["currentModel"]),
      ReadStrings(v.fields["rolloutMessages"]),
      ReadStrings(v.fields["forkRequestIds"]),
      v.fields["rolloutTurnOpen"].flag))
  }

  /** The fields of a written state, read back by name. */
  lemma WriteFields(s: State)
    ensures HasExactly(Write(s), KEYS)
    ensures var f := Write(s).fields;
      && f["startedItems"] == Pairs(s.startedItems, WriteItem) && f["currentModel"] == OptString(s.model)
      && f["rolloutMessages"] == Strings(s.messages) && f["forkRequestIds"] == Strings(s.forks)
      && f["rolloutTurnOpen"] == JBool(s.turnOpen)
  {
  }

  /** No item is open twice, and no message or fork request is remembered twice. */
  ghost predicate Sound(s: State) {
    DistinctKeys(s.startedItems) && Distinct(s.messages) && Distinct(s.forks)
  }

  /** Only rollout rows change the messages, by one that is new or by forgetting all. */
  lemma MessagesSound(s: State, row: Row)
    requires Distinct(s.messages)
    ensures Distinct(Next(s, row).state.messages)
  {
    if row.Plain? {
      assert RolloutStep(s, row.rollout).state.messages in [s.messages, []]
        || (row.rollout.Said? && RolloutStep(s, row.rollout).state.messages
              == Add(s.messages, Identity(row.rollout.role, row.rollout.text)));
    } else {
      assert Next(s, row).state.messages == s.messages;
    }
  }

  lemma StepSound(s: State, row: Row)
    requires Sound(s)
    ensures Sound(Next(s, row).state)
  {
    MessagesSound(s, row);
    ItemsNext(s, row, "");
    ForksFollow(s, row, Members(s.forks));
  }

  /** Every state that a log can lead to from a sound one is sound. */
  lemma {:induction false} RunSound(s: State, rows: seq<Row>)
    requires Sound(s)
    ensures Sound(Run(s, rows).state)
    decreases |rows|
  {
    if rows != [] {
      StepSound(s, rows[0]);
      RunSound(Next(s, rows[0]).state, rows[1..]);
    }
  }

  /** The validator accepts every sound state, and the restored state is the same one, order included. */
  lemma RestoreRoundTrip(s: State)
    requires Sound(s)
    ensures Restore(Write(s)) == Some(s)
  {
    PairsRoundTrip(s.startedItems, WriteItem, IsItem, ReadItem);
    StringsRoundTrip(s.messages);
    StringsRoundTrip(s.forks);
    WriteFields(s);
  }

  /** The logs in order, each read by a projector restored from the checkpoint of the one before. */
  ghost function Restarted(s: State, logs: seq<seq<Row>>): Option<StepOut>
    decreases |logs|
  {
    if logs == [] then Some(Out(s, []))
    else
      var first := Run(s, logs[0]);
      match Restore(Write(first.state))
      case None => None
      case Some(restored) =>
        match Restarted(restored, logs[1..])
        case None => None
        case Some(rest) => Some(Out(rest.state, first.events + rest.events))
  }

  function Whole(logs: seq<seq<Row>>): seq<Row> {
    if logs == [] then [] else logs[0] + Whole(logs[1..])
  }

  /** However often a run is stopped and restarted, the events and the last state are those of the run in one piece. */
  lemma {:induction false} RestartsTransparent(s: State, logs: seq<seq<Row>>)
    requires Sound(s)
    ensures Restarted(s, logs) == Some(Run(s, Whole(logs)))
    decreases |logs|
  {
    if logs != [] {
      var first := Run(s, logs[0]);
      RunSound(s, logs[0]);
      RestoreRoundTrip(first.state);
      RestartsTransparent(first.state, logs[1..]);
      FoldConcat(Stepper(), s, logs[0], Whole(logs[1..]));
    }
  }

  /** The validator accepts the checkpoints of sound states and nothing else, each as the state that it is of. */
  lemma AcceptedIff(v: Json, s: State)
    ensures Restore(v) == Some(s) <==> Sound(s) && v == Write(s)
  {
    if Restore(v) == Some(s) {
      StringsBack(v.fields["rolloutMessages"]);
      StringsBack(v.fields["forkRequestIds"]);
      ItemsBack(v.fields["startedItems"]);
      WriteFields(s);
      FieldsBack(v, s);
    }
    if Sound(s) && v == Write(s) { RestoreRoundTrip(s); }
  }

  lemma ItemsBack(v: Json)
    requires ArePairs(v, IsItem)
    ensures Pairs(ReadPairs(v, IsItem, ReadItem), WriteItem) == v && DistinctKeys(ReadPairs(v, IsItem, ReadItem))
  {
    forall i | 0 <= i < |v.items| ensures WriteItem(ReadItem(v.items[i].items[1])) == v.items[i].items[1] {
      assert IsPair(v.items[i], IsItem);
    }
    PairsBack(v, WriteItem, IsItem, ReadItem);
  }

  /** A state whose written fields are those of a value is written as that value. */
  lemma FieldsBack(v: Json, s: State)
    requires HasExactly(v, KEYS) && forall key :: key in KEYS ==> key in Write(s).fields && Write(s).fields[key] == v.fields[key]
    requires HasExactly(Write(s), KEYS)
    ensures v == Write(s)
  {
    assert Write(s).fields == v.fields;
  }
}
