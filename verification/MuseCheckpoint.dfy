/** Checkpoints of the Muse projector and restarting from them: v2/adapters/src/muse.ts. */
module MuseCheckpoint {
  import opened Wrappers
  import opened Ordered
  import opened Checkpoint
  import opened Runs
  import opened Counters
  import opened Muse
  import opened MuseProofs

  function WriteTurn(t: TurnUsage): Json {
    JObj(map["usage" := WriteUsage(t.usage), "model" := OptString(t.model)])
  }

  predicate IsTurn(v: Json) {
    HasExactly(v, {"usage", "model"}) && IsUsage(v.fields["usage"]) && NullOrString(v.fields["model"])
  }

  function ReadTurn(v: Json): TurnUsage
    requires IsTurn(v)
  {
    TurnUsage(ReadUsage(v.fields["usage"]), ReadOptString(v.fields["model"]))
  }

  function Write(s: State): Json {
    JObj(map["openItems" := Strings(s.openItems), "turnUsage" := Pairs(s.turnUsage, WriteTurn)])
  }

  ghost predicate IsMuseCheckpointState(v: Json) {
    && HasExactly(v, {"openItems", "turnUsage"})
    && v.fields["openItems"].JArr? && |v.fields["openItems"].items| <= STATE_LIMIT && AreStrings(v.fields["openItems"])
    && v.fields["turnUsage"].JArr? && |v.fields["turnUsage"].items| <= STATE_LIMIT && ArePairs(v.fields["turnUsage"], IsTurn)
  }

  ghost function Restore(v: Json): Option<State> {
    if !IsMuseCheckpointState(v) then None
    else Some(State(ReadStrings(v.fields["openItems"]), ReadPairs(v.fields["turnUsage"], IsTurn, ReadTurn)))
  }

  ghost predicate Sound(s: State) {
    && |s.openItems| <= STATE_LIMIT && Distinct(s.openItems)
    && |s.turnUsage| <= STATE_LIMIT && DistinctKeys(s.turnUsage)
  }

  lemma {:induction false} Bounded(rows: seq<Row>)
    ensures var s := Run(INITIAL, rows).state; |s.openItems| <= STATE_LIMIT && |s.turnUsage| <= STATE_LIMIT
    decreases |rows|
  {
    if rows != [] {
      Bounded(rows[..|rows| - 1]);
      FoldSnoc(Stepper(), INITIAL, rows);
    }
  }

  lemma ReachableSound(rows: seq<Row>)
    ensures Sound(Run(INITIAL, rows).state)
  {
    Bounded(rows);
    OldestFirst(rows);
    StartsCoverCompletions(rows, "");
  }

  lemma TurnRoundTrip(t: TurnUsage)
    ensures IsTurn(WriteTurn(t)) && ReadTurn(WriteTurn(t)) == t
  {
    UsageRoundTrip(t.usage);
    TurnFields(WriteUsage(t.usage), OptString(t.model));
  }

  lemma TurnFields(usage: Json, model: Json)
    ensures var v := JObj(map["usage" := usage, "model" := model]);
      HasExactly(v, {"usage", "model"}) && v.fields["usage"] == usage && v.fields["model"] == model
  {
    assert "usage"[0] != "model"[0];
  }

  /** The bounded validator accepts every sound state, and the restored state is the same one, order included. */
  lemma RestoreRoundTrip(s: State)
    requires Sound(s)
    ensures Restore(Write(s)) == Some(s)
  {
    forall i | 0 <= i < |s.turnUsage|
      ensures IsTurn(WriteTurn(s.turnUsage[i].1)) && ReadTurn(WriteTurn(s.turnUsage[i].1)) == s.turnUsage[i].1
    {
      TurnRoundTrip(s.turnUsage[i].1);
    }
    PairsRoundTrip(s.turnUsage, WriteTurn, IsTurn, ReadTurn);
    StringsRoundTrip(s.openItems);
    assert "openItems"[0] != "turnUsage"[0];
  }

  /** Wherever a log is cut in two, storing the checkpoint there and restarting from it changes no event. */
  lemma RestartTransparent(rows: seq<Row>, cut: nat)
    requires cut <= |rows|
    ensures var first := Run(INITIAL, rows[..cut]); var restored := Restore(Write(first.state));
      restored.Some? && Run(INITIAL, rows).events == first.events + Run(restored.value, rows[cut..]).events
  {
    assert rows == rows[..cut] + rows[cut..];
    ReachableSound(rows[..cut]);
    RestoreRoundTrip(Run(INITIAL, rows[..cut]).state);
    FoldConcat(Stepper(), INITIAL, rows[..cut], rows[cut..]);
  }

  lemma TurnBack(v: Json)
    requires IsTurn(v)
    ensures WriteTurn(ReadTurn(v)) == v
  {
    var usage, model := v.fields["usage"], v.fields["model"];
    UsageBack(usage);
    OptStringBack(model);
    TurnFields(usage, model);
    assert WriteTurn(ReadTurn(v)) == JObj(map["usage" := usage, "model" := model]);
    SameFields(v, JObj(map["usage" := usage, "model" := model]));
  }

  /** The validator accepts the checkpoints of sound states and nothing else, each as the state that it is of. */
  lemma AcceptedIff(v: Json, s: State)
    ensures Restore(v) == Some(s) <==> Sound(s) && v == Write(s)
  {
    if Restore(v) == Some(s) {
      var items, turns := v.fields["openItems"], v.fields["turnUsage"];
      forall i | 0 <= i < |turns.items| ensures WriteTurn(ReadTurn(turns.items[i].items[1])) == turns.items[i].items[1] {
        assert IsPair(turns.items[i], IsTurn);
        TurnBack(turns.items[i].items[1]);
      }
      StringsBack(items);
      PairsBack(turns, WriteTurn, IsTurn, ReadTurn);
      assert "openItems"[0] != "turnUsage"[0];
      assert Write(s).fields == v.fields;
    }
    if Sound(s) && v == Write(s) { RestoreRoundTrip(s); }
  }
}
