/** What every run of the Codex projector keeps. */
module CodexProofs {
  import opened Wrappers
  import opened Text
  import opened Ordered
  import opened Runs
  import opened Codex

  // ------------------------------------------------------------------
  // Message identities
  // ------------------------------------------------------------------

  lemma InkCons(c: char, s: string)
    ensures Ink([c] + s) == (if IsSpace(c) then [] else [c]) + Ink(s)
  {
    assert ([c] + s)[1..] == s;
  }

  lemma {:induction false} SqueezeKeepsInk(s: string, gap: bool)
    ensures Ink(Squeeze(s, gap)) == Ink(s)
  {
    if s != [] {
      SqueezeKeepsInk(s[1..], IsSpace(s[0]));
      if !IsSpace(s[0]) {
        var rest := Squeeze(s[1..], false);
        InkCons(s[0], rest);
        InkCons(' ', [s[0]] + rest);
        assert Squeeze(s, gap) == if gap then [' '] + ([s[0]] + rest) else [s[0]] + rest;
      }
    }
  }

  lemma {:induction false} TrimKeepsInk(s: string)
    ensures Ink(TrimStart(s)) == Ink(s)
  {
    if s != [] && IsSpace(s[0]) { TrimKeepsInk(s[1..]); }
  }

  /** Normalising a text changes nothing but its white space. */
  lemma NormalKeepsInk(text: string)
    ensures Ink(Normal(text)) == Ink(text)
  {
    TrimKeepsInk(text);
    SqueezeKeepsInk(TrimStart(text), false);
  }

  /** Squeezing what was squeezed changes nothing. */
  lemma {:induction false} SqueezeAgain(s: string, gap: bool)
    ensures Squeeze(Squeeze(s, gap), false) == Squeeze(s, gap)
    decreases |s|
  {
    if s != [] {
      SqueezeAgain(s[1..], IsSpace(s[0]));
      if !IsSpace(s[0]) {
        var out, rest := Squeeze(s, gap), Squeeze(s[1..], false);
        if gap {
          assert out == [' '] + ([s[0]] + rest) && out[1..] == [s[0]] + rest && out[1..][1..] == rest;
        } else {
          assert out == [s[0]] + rest && out[1..] == rest;
        }
      }
    }
  }

  /** A normalised text is its own normal form, so two texts with one normal form have one identity. */
  lemma NormalAgain(text: string)
    ensures Normal(Normal(text)) == Normal(text)
  {
    var s := TrimStart(text);
    TrimmedStarts(text);
    SqueezeAgain(s, false);
    if s != [] {
      assert Normal(text) == [s[0]] + Squeeze(s[1..], false);
    }
  }

  lemma {:induction false} TrimmedStarts(s: string)
    ensures TrimStart(s) == [] || !IsSpace(TrimStart(s)[0])
  {
    if s != [] && IsSpace(s[0]) { TrimmedStarts(s[1..]); }
  }

  /** Identities tell roles apart, and texts of one role by their normal forms. */
  lemma IdentitiesTellApart(a: Role, x: string, b: Role, y: string)
    ensures Identity(a, x) == Identity(b, y) <==> a == b && Normal(x) == Normal(y)
  {
    assert Identity(a, x)[0] == if a == User then 'u' else 'a';
    assert Identity(b, y)[0] == if b == User then 'u' else 'a';
    if a == b && Identity(a, x) == Identity(b, y) {
      var n := if a == User then 5 else 10;
      assert Identity(a, x)[n..] == Normal(x) && Identity(b, y)[n..] == Normal(y);
    }
  }

  // ------------------------------------------------------------------
  // What the log says
  // ------------------------------------------------------------------

  function PendingAfter(pending: set<string>, row: Row): set<string> {
    match row
    case Fork(Some(id)) => pending + {id}
    case Plain(Some(id), _, _) => pending - {id}
    case _ => pending
  }

  /** The fork requests of the log that have had no response. */
  function Pending(rows: seq<Row>): set<string> {
    if rows == [] then {} else PendingAfter(Pending(rows[..|rows| - 1]), rows[|rows| - 1])
  }

  /** The rollout row that a line is, after the lines `rows`: a plain row that answers no fork. */
  function Rolled(rows: seq<Row>, row: Row): Option<Rollout> {
    if row.Plain? && !(row.requestId.Some? && row.requestId.value in Pending(rows)) then Some(row.rollout) else None
  }

  predicate Opens(rollout: Option<Rollout>) {
    rollout == Some(TurnContext) || rollout == Some(TaskStarted)
  }

  predicate OpenAfter(open: bool, rollout: Option<Rollout>) {
    Opens(rollout) || (open && !(rollout.Some? && rollout.value.TaskComplete?))
  }

  /** A rollout turn was opened and not completed since. */
  predicate IsOpen(rows: seq<Row>) {
    if rows == [] then false
    else var n := |rows| - 1; OpenAfter(IsOpen(rows[..n]), Rolled(rows[..n], rows[n]))
  }

  function HeardAfter(open: bool, heard: seq<string>, rollout: Option<Rollout>): seq<string> {
    if Opens(rollout) && !open then []
    else if rollout.Some? && rollout.value.Said? then heard + [Identity(rollout.value.role, rollout.value.text)]
    else heard
  }

  /** The identities of all messages since the rollout turn was last opened. */
  function Heard(rows: seq<Row>): seq<string> {
    if rows == [] then []
    else var n := |rows| - 1; HeardAfter(IsOpen(rows[..n]), Heard(rows[..n]), Rolled(rows[..n], rows[n]))
  }

  /** Without repetitions, in the order of first occurrence. */
  function FirstSeen(ids: seq<string>): seq<string> {
    if ids == [] then [] else Add(FirstSeen(ids[..|ids| - 1]), ids[|ids| - 1])
  }

  lemma {:induction false} FirstSeenKeeps(ids: seq<string>)
    ensures Distinct(FirstSeen(ids)) && forall id :: id in FirstSeen(ids) <==> id in ids
  {
    if ids != [] {
      var n := |ids| - 1;
      FirstSeenKeeps(ids[..n]);
      assert ids == ids[..n] + [ids[n]];
    }
  }

  /** The projector's collections are what the log says. */
  ghost predicate Follows(s: State, rows: seq<Row>) {
    && Distinct(s.forks) && (forall id :: id in s.forks <==> id in Pending(rows))
    && s.turnOpen == IsOpen(rows) && s.messages == FirstSeen(Heard(rows))
  }

  /** A fork request enters the pending ones, a response leaves them, and nothing else changes them. */
  lemma ForksNext(s: State, row: Row)
    ensures Next(s, row).state.forks
         == match row
            case Fork(Some(id)) => Add(s.forks, id)
            case Plain(Some(id), _, _) => Without(s.forks, id)
            case _ => s.forks
  {
    if row.Plain? && row.requestId.Some? && row.requestId.value !in s.forks {
      WithoutAbsent(s.forks, row.requestId.value);
    }
  }

  lemma ForksFollow(s: State, row: Row, pending: set<string>)
    requires Distinct(s.forks) && forall id :: id in s.forks <==> id in pending
    ensures var forks := Next(s, row).state.forks;
      Distinct(forks) && forall id :: id in forks <==> id in PendingAfter(pending, row)
  {
    ForksNext(s, row);
    if row.Plain? && row.requestId.Some? {
      WithoutMembers(s.forks, row.requestId.value);
    }
  }

  /** One row changes the turn and its messages as it changes what the log says of them. */
  lemma RowFollows(s: State, rollout: Option<Rollout>, heard: seq<string>, t: State)
    requires s.messages == FirstSeen(heard)
    requires if rollout.Some? then t == RolloutStep(s, rollout.value).state
      else t.turnOpen == s.turnOpen && t.messages == s.messages
    ensures t.turnOpen == OpenAfter(s.turnOpen, rollout)
    ensures t.messages == FirstSeen(HeardAfter(s.turnOpen, heard, rollout))
  {
    if rollout.Some? && rollout.value.Said? {
      var id := Identity(rollout.value.role, rollout.value.text);
      assert (heard + [id])[..|heard|] == heard;
    }
  }

  /** A line is projected as the rollout row that it is; any other leaves the turn and its messages alone. */
  lemma StepRolls(s: State, rows: seq<Row>, row: Row)
    requires forall id :: id in s.forks <==> id in Pending(rows)
    ensures var rollout, t := Rolled(rows, row), Next(s, row).state;
      if rollout.Some? then t == RolloutStep(s, rollout.value).state
      else t.turnOpen == s.turnOpen && t.messages == s.messages
  {
  }

  lemma StepFollows(s: State, rows: seq<Row>)
    requires rows != [] && Follows(s, rows[..|rows| - 1])
    ensures Follows(Next(s, rows[|rows| - 1]).state, rows)
  {
    var n := |rows| - 1;
    ForksFollow(s, rows[n], Pending(rows[..n]));
    StepRolls(s, rows[..n], rows[n]);
    RowFollows(s, Rolled(rows[..n], rows[n]), Heard(rows[..n]), Next(s, rows[n]).state);
  }

  lemma {:induction false} RunFollows(rows: seq<Row>)
    ensures Follows(Run(INITIAL, rows).state, rows)
    decreases |rows|
  {
    if rows != [] {
      RunFollows(rows[..|rows| - 1]);
      FoldSnoc(Stepper(), INITIAL, rows);
      StepFollows(Run(INITIAL, rows[..|rows| - 1]).state, rows);
    }
  }

  /**
   * A rollout message is published exactly when no message of the same role and the
   * same normalised text came before it since the turn was opened, whichever of the
   * two row types carried it.
   */
  lemma MessagePublishedIff(rows: seq<Row>, row: Row, role: Role, text: string, itemId: Option<string>)
    requires Rolled(rows, row) == Some(Said(role, text, itemId))
    ensures Next(Run(INITIAL, rows).state, row).events
         == if Identity(role, text) in Heard(rows) then [] else [Message(role, text, itemId)]
  {
    RunFollows(rows);
    FirstSeenKeeps(Heard(rows));
  }

  /** A turn start is published exactly when no turn is open. */
  lemma StartPublishedIff(rows: seq<Row>, row: Row)
    requires Opens(Rolled(rows, row))
    ensures Next(Run(INITIAL, rows).state, row).events == if IsOpen(rows) then [] else [RolloutStart]
  {
    RunFollows(rows);
  }

  // ------------------------------------------------------------------
  // Turns, forks and items
  // ------------------------------------------------------------------

  function Starts(events: seq<Event>): int {
    if events == [] then 0 else Starts(events[..|events| - 1]) + if events[|events| - 1].RolloutStart? then 1 else 0
  }

  function Ends(events: seq<Event>): int {
    if events == [] then 0 else Ends(events[..|events| - 1]) + if events[|events| - 1].RolloutEnd? then 1 else 0
  }

  function Snapshots(events: seq<Event>, id: string): int {
    if events == [] then 0
    else
      var e := events[|events| - 1];
      Snapshots(events[..|events| - 1], id) + if e.Snapshot? && e.requestId == id then 1 else 0
  }

  lemma {:induction false} CountsConcat(x: seq<Event>, y: seq<Event>, id: string)
    ensures Starts(x + y) == Starts(x) + Starts(y) && Ends(x + y) == Ends(x) + Ends(y)
    ensures Snapshots(x + y, id) == Snapshots(x, id) + Snapshots(y, id)
    decreases |y|
  {
    if y == [] {
      assert x + y == x;
    } else {
      assert (x + y)[..|x + y| - 1] == x + y[..|y| - 1];
      CountsConcat(x, y[..|y| - 1], id);
    }
  }

  function Bit(b: bool): int {
    if b then 1 else 0
  }

  /** The fork requests with a request id. */
  function ForkCount(rows: seq<Row>, id: string): int {
    if rows == [] then 0
    else ForkCount(rows[..|rows| - 1], id) + Bit(rows[|rows| - 1] == Fork(Some(id)))
  }

  lemma CountsOne(e: Event, id: string)
    ensures Starts([e]) == Bit(e.RolloutStart?) && Ends([e]) == Bit(e.RolloutEnd?)
    ensures Snapshots([e], id) == Bit(e.Snapshot? && e.requestId == id)
  {
    assert [e][..0] == [];
  }

  /** At most one event of a row is a rollout boundary or a snapshot, and then it is the only one. */
  lemma OneEvent(s: State, row: Row, id: string)
    ensures var events := Next(s, row).events;
      if |events| == 1
      then Starts(events) == Bit(events[0].RolloutStart?) && Ends(events) == Bit(events[0].RolloutEnd?)
        && Snapshots(events, id) == Bit(events[0].Snapshot? && events[0].requestId == id)
      else Starts(events) == Ends(events) == Snapshots(events, id) == 0
  {
    var events := Next(s, row).events;
    if row.TurnCompleted? {
      QuietEvents(events, id);
    }
    if |events| == 1 {
      assert events == [events[0]];
      CountsOne(events[0], id);
    }
  }

  lemma StepCounts(s: State, row: Row, id: string)
    requires Distinct(s.forks)
    ensures var out := Next(s, row);
      && Bit(s.turnOpen) + Starts(out.events) <= Ends(out.events) + Bit(out.state.turnOpen)
      && Snapshots(out.events, id) + Bit(id in out.state.forks) <= Bit(id in s.forks) + Bit(row == Fork(Some(id)))
  {
    OneEvent(s, row, id);
    ForksNext(s, row);
    if row.Plain? && row.requestId.Some? {
      WithoutMembers(s.forks, row.requestId.value);
    }
  }

  lemma {:induction false} QuietEvents(events: seq<Event>, id: string)
    requires forall i :: 0 <= i < |events| ==>
      !events[i].RolloutStart? && !events[i].RolloutEnd? && !events[i].Snapshot?
    ensures Starts(events) == Ends(events) == Snapshots(events, id) == 0
    decreases |events|
  {
    if events != [] { QuietEvents(events[..|events| - 1], id); }
  }

  /**
   * Over every run: between two published turn starts of a rollout there is a turn
   * end, and a request id has no more snapshots than fork requests.
   */
  lemma {:induction false} TurnsAndForksCount(rows: seq<Row>, id: string)
    ensures var out := Run(INITIAL, rows);
      && Starts(out.events) <= Ends(out.events) + Bit(out.state.turnOpen)
      && Snapshots(out.events, id) + Bit(id in out.state.forks) <= ForkCount(rows, id)
    decreases |rows|
  {
    if rows != [] {
      var n := |rows| - 1;
      var before := Run(INITIAL, rows[..n]);
      TurnsAndForksCount(rows[..n], id);
      RunFollows(rows[..n]);
      FoldSnoc(Stepper(), INITIAL, rows);
      StepCounts(before.state, rows[n], id);
      CountsConcat(before.events, Next(before.state, rows[n]).events, id);
    }
  }

  /** The item last started under an id and not completed since. */
  function StartedItem(rows: seq<Row>, id: string): Option<Fields> {
    if rows == [] then None
    else
      var row, before := rows[|rows| - 1], StartedItem(rows[..|rows| - 1], id);
      match row
      case ItemStarted(item, _) => if item.id == Some(id) then Some(item.fields) else before
      case ItemCompleted(item, _) => if item.id == Some(id) then None else before
      case _ => before
  }

  lemma ItemsNext(s: State, row: Row, id: string)
    requires DistinctKeys(s.startedItems)
    ensures var items := Next(s, row).state.startedItems;
      && DistinctKeys(items)
      && Get(items, id) == match row
           case ItemStarted(item, _) => (if item.id == Some(id) then Some(item.fields) else Get(s.startedItems, id))
           case ItemCompleted(item, _) => (if item.id == Some(id) then None else Get(s.startedItems, id))
           case _ => Get(s.startedItems, id)
  {
    if row.ItemStarted? && row.item.id.Some? {
      PutDistinct(s.startedItems, row.item.id.value, row.item.fields);
      GetPut(s.startedItems, row.item.id.value, row.item.fields, id);
    }
    if row.ItemCompleted? && row.item.id.Some? {
      GetDelete(s.startedItems, row.item.id.value, id);
    }
  }

  lemma {:induction false} ItemsFollow(rows: seq<Row>, id: string)
    ensures var items := Run(INITIAL, rows).state.startedItems;
      DistinctKeys(items) && Get(items, id) == StartedItem(rows, id)
    decreases |rows|
  {
    if rows != [] {
      ItemsFollow(rows[..|rows| - 1], id);
      FoldSnoc(Stepper(), INITIAL, rows);
      ItemsNext(Run(INITIAL, rows[..|rows| - 1]).state, rows[|rows| - 1], id);
    }
  }

  /** A completion is merged over the start of its item, exactly when one was seen since the last completion. */
  lemma CompletionMergesStart(rows: seq<Row>, item: Item, thread: Option<string>)
    ensures var started := if item.id.Some? then StartedItem(rows, item.id.value) else None;
      Next(Run(INITIAL, rows).state, ItemCompleted(item, thread)).events
      == [ItemDone(Merge("invocation", started, item.fields), started.Some?, thread)]
  {
    if item.id.Some? {
      ItemsFollow(rows, item.id.value);
    }
  }

  /** Each field of either side, and the completed value where both have one. */
  ghost predicate Joins(merged: Fields, started: Fields, completed: Fields, field: string) {
    && (field in merged <==> field in started || field in completed)
    && (field in merged ==> merged[field] == if field in completed then completed[field] else started[field])
  }

  predicate Nests(fields: Fields, key: string) {
    key in fields && fields[key].JObj?
  }

  function Nested(fields: Fields, key: string): Fields {
    if Nests(fields, key) then fields[key].fields else map[]
  }

  /**
   * Merging keeps every field of either side; where both have one, the completed one
   * counts. The nested field, where a side has an object in it, is merged the same
   * way, field by field.
   */
  lemma MergeKeepsFields(key: string, started: Fields, completed: Fields, field: string, inner: string)
    ensures var merged := Merge(key, Some(started), completed);
      && (field in merged <==> field in started || field in completed)
      && if field == key && (Nests(started, key) || Nests(completed, key))
         then merged[key].JObj? && Joins(merged[key].fields, Nested(started, key), Nested(completed, key), inner)
         else Joins(merged, started, completed, field)
  {
    var before, after := ObjectAt(started, key), ObjectAt(completed, key);
    assert before.GetOr(map[]) == Nested(started, key) && after.GetOr(map[]) == Nested(completed, key);
  }
}
