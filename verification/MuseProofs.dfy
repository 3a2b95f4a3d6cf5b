/** What every run of the Muse projector keeps. */
module MuseProofs {
  import opened Wrappers
  import opened Ordered
  import opened Runs
  import opened Counters
  import opened Muse

  // ------------------------------------------------------------------
  // Usage is conserved
  // ------------------------------------------------------------------

  function Held(es: Entries<TurnUsage>, c: Counter): int {
    if es == [] then 0 else At(es[0].1.usage, c) + Held(es[1..], c)
  }

  function Published(events: seq<Event>, c: Counter): int {
    if events == [] then 0
    else (if events[0].TokenUsage? then At(events[0].usage, c) else 0) + Published(events[1..], c)
  }

  /** The turn and the usage that a row reports, if it reports both. */
  function Reported(row: Row): Option<(string, Usage)> {
    if row.CallUsage? && row.turnId.Some? && row.usage.Some? then Some((row.turnId.value, row.usage.value)) else None
  }

  function Received(row: Row, c: Counter): int {
    var reported := Reported(row);
    if reported.Some? then At(reported.value.1, c) else 0
  }

  /** What a row makes the projector forget: the oldest accumulator, when a new turn exceeds the limit. */
  function Evicted(s: State, row: Row, c: Counter): int {
    var reported := Reported(row);
    if reported.None? then 0
    else
      var others := Delete(s.turnUsage, reported.value.0);
      if |others| < STATE_LIMIT then 0 else At(others[0].1.usage, c)
  }

  lemma {:induction false} HeldConcat(x: Entries<TurnUsage>, y: Entries<TurnUsage>, c: Counter)
    ensures Held(x + y, c) == Held(x, c) + Held(y, c)
  {
    if x == [] {
      assert x + y == y;
    } else {
      HeldConcat(x[1..], y, c);
      assert (x + y)[1..] == x[1..] + y;
    }
  }

  lemma HeldOne(e: (string, TurnUsage), c: Counter)
    ensures Held([e], c) == At(e.1.usage, c)
  {
    assert [e][1..] == [];
  }

  lemma HeldDelete(es: Entries<TurnUsage>, k: string, c: Counter)
    ensures Held(Delete(es, k), c) == Held(es, c) - (if Get(es, k).Some? then At(Get(es, k).value.usage, c) else 0)
  {
    var i := Find(es, k);
    if i < |es| {
      assert es == es[..i] + ([es[i]] + es[i + 1..]);
      HeldConcat(es[..i], [es[i]] + es[i + 1..], c);
      HeldConcat([es[i]], es[i + 1..], c);
      HeldOne(es[i], c);
      HeldConcat(es[..i], es[i + 1..], c);
    }
  }

  lemma AccumulateConserves(es: Entries<TurnUsage>, t: string, usage: Usage, model: Option<string>, c: Counter)
    ensures Held(Accumulate(es, t, usage, model), c) == Held(es, c) + At(usage, c)
      - (if |Delete(es, t)| < STATE_LIMIT then 0 else At(Delete(es, t)[0].1.usage, c))
  {
    var others, held := Delete(es, t), Get(es, t);
    var next := TurnUsage(
      if held.Some? then Plus(held.value.usage, usage) else usage,
      if model.Some? then model else if held.Some? then held.value.model else None);
    var moved := others + [(t, next)];
    HeldDelete(es, t, c);
    HeldConcat(others, [(t, next)], c);
    HeldOne((t, next), c);
    if |others| >= STATE_LIMIT {
      assert moved[0] == others[0];
    }
  }

  lemma {:induction false} PublishedConcat(x: seq<Event>, y: seq<Event>, c: Counter)
    ensures Published(x + y, c) == Published(x, c) + Published(y, c)
  {
    if x == [] {
      assert x + y == y;
    } else {
      PublishedConcat(x[1..], y, c);
      assert (x + y)[1..] == x[1..] + y;
    }
  }

  lemma {:induction false} NothingPublished(events: seq<Event>, c: Counter)
    requires forall i :: 0 <= i < |events| ==> !events[i].TokenUsage?
    ensures Published(events, c) == 0
  {
    if events != [] { NothingPublished(events[1..], c); }
  }

  lemma TurnConserves(s: State, row: Row, c: Counter)
    requires row.TurnCompleted?
    ensures var out := CompletedTurn(s, row);
      Held(s.turnUsage, c) == Published(out.events, c) + Held(out.state.turnUsage, c)
  {
    var held := if row.turnId.Some? then Get(s.turnUsage, row.turnId.value) else None;
    var end := [TurnEnd(row.turnId, row.terminal)];
    NothingPublished(FailureEvents(row), c);
    NothingPublished(end, c);
    if held.Some? {
      var report := [TokenUsage(row.turnId.value, held.value.usage, held.value.model)];
      HeldDelete(s.turnUsage, row.turnId.value, c);
      assert report[1..] == [];
      PublishedConcat(FailureEvents(row), report, c);
      PublishedConcat(FailureEvents(row) + report, end, c);
    } else {
      PublishedConcat(FailureEvents(row), end, c);
    }
  }

  lemma StepConserves(s: State, row: Row, c: Counter)
    ensures var out := Next(s, row);
      Held(s.turnUsage, c) + Received(row, c) == Published(out.events, c) + Held(out.state.turnUsage, c) + Evicted(s, row, c)
  {
    if row.TurnCompleted? {
      TurnConserves(s, row, c);
    } else {
      NothingPublished(Next(s, row).events, c);
      if Reported(row).Some? {
        AccumulateConserves(s.turnUsage, row.turnId.value, Reported(row).value.1, row.model, c);
      }
    }
  }

  function ReceivedAll(rows: seq<Row>, c: Counter): int
    decreases |rows|
  {
    if rows == [] then 0 else ReceivedAll(rows[..|rows| - 1], c) + Received(rows[|rows| - 1], c)
  }

  function EvictedAll(rows: seq<Row>, c: Counter): int
    decreases |rows|
  {
    if rows == [] then 0
    else EvictedAll(rows[..|rows| - 1], c) + Evicted(Run(INITIAL, rows[..|rows| - 1]).state, rows[|rows| - 1], c)
  }

  /** Over every run: what was received was published, is still held, or was evicted. */
  lemma {:induction false} UsageConserved(rows: seq<Row>, c: Counter)
    ensures var out := Run(INITIAL, rows);
      ReceivedAll(rows, c) == Published(out.events, c) + Held(out.state.turnUsage, c) + EvictedAll(rows, c)
    decreases |rows|
  {
    if rows != [] {
      var n := |rows| - 1;
      var before := Run(INITIAL, rows[..n]);
      UsageConserved(rows[..n], c);
      StepConserves(before.state, rows[n], c);
      FoldSnoc(Stepper(), INITIAL, rows);
      PublishedConcat(before.events, Next(before.state, rows[n]).events, c);
    }
  }

  // ------------------------------------------------------------------
  // Each turn's usage is exact while the open turns fit
  // ------------------------------------------------------------------

  /** The turns with usage reported since they were last completed, by the log alone. */
  function OpenTurns(rows: seq<Row>): set<string>
    decreases |rows|
  {
    if rows == [] then {}
    else
      var before, row := OpenTurns(rows[..|rows| - 1]), rows[|rows| - 1];
      if Reported(row).Some? then before + {Reported(row).value.0}
      else if row.TurnCompleted? && row.turnId.Some? then before - {row.turnId.value}
      else before
  }

  /** The sum of a turn's reports since it was last completed, by the log alone. */
  function TurnTotal(rows: seq<Row>, t: string): Option<Usage>
    decreases |rows|
  {
    if rows == [] then None
    else
      var before, row := TurnTotal(rows[..|rows| - 1], t), rows[|rows| - 1];
      if Reported(row).Some? && Reported(row).value.0 == t then
        Some(if before.Some? then Plus(before.value, Reported(row).value.1) else Reported(row).value.1)
      else if row.TurnCompleted? && row.turnId == Some(t) then None
      else before
  }

  ghost predicate Fits(rows: seq<Row>) {
    forall k :: 0 <= k <= |rows| ==> |OpenTurns(rows[..k])| <= STATE_LIMIT
  }

  function KeySet(es: Entries<TurnUsage>): set<string> {
    set i | 0 <= i < |es| :: es[i].0
  }

  lemma {:induction false} KeyCount(es: Entries<TurnUsage>)
    requires DistinctKeys(es)
    ensures |KeySet(es)| == |es|
  {
    if es != [] {
      KeyCount(es[1..]);
      forall k | k in KeySet(es) ensures k in KeySet(es[1..]) + {es[0].0} {
        var i :| 0 <= i < |es| && es[i].0 == k;
        if i > 0 { assert es[1..][i - 1].0 == k; }
      }
      forall k | k in KeySet(es[1..]) ensures k in KeySet(es) {
        var i :| 0 <= i < |es| - 1 && es[1..][i].0 == k;
        assert es[i + 1].0 == k;
      }
      assert KeySet(es) == KeySet(es[1..]) + {es[0].0};
    }
  }

  lemma KeySetGet(es: Entries<TurnUsage>, k: string)
    ensures k in KeySet(es) <==> Get(es, k).Some?
  {
    if Get(es, k).Some? { assert es[Find(es, k)].0 == k; }
  }

  function UsageHeld(es: Entries<TurnUsage>, t: string): Option<Usage> {
    var held := Get(es, t);
    if held.Some? then Some(held.value.usage) else None
  }

  lemma AccumulateGet(es: Entries<TurnUsage>, t: string, usage: Usage, model: Option<string>, x: string)
    requires DistinctKeys(es) && |Delete(es, t)| < STATE_LIMIT
    ensures DistinctKeys(Accumulate(es, t, usage, model))
    ensures UsageHeld(Accumulate(es, t, usage, model), x) ==
      if x != t then UsageHeld(es, x)
      else Some(if UsageHeld(es, t).Some? then Plus(UsageHeld(es, t).value, usage) else usage)
  {
    var others := Delete(es, t);
    GetDelete(es, t, x);
    GetDelete(es, t, t);
    assert Find(others, t) == |others|;
    var v := Accumulate(es, t, usage, model)[|others|].1;
    assert Accumulate(es, t, usage, model) == Put(others, t, v);
    PutDistinct(others, t, v);
    GetPut(others, t, v, x);
  }

  /** The accumulators are exactly the open turns, each with its exact total. */
  ghost predicate Exact(es: Entries<TurnUsage>, open: set<string>, total: string -> Option<Usage>) {
    DistinctKeys(es) && KeySet(es) == open && forall t :: UsageHeld(es, t) == total(t)
  }

  function Totals(rows: seq<Row>): string -> Option<Usage> {
    t => TurnTotal(rows, t)
  }

  /** Fewer other turns than the limit are held, and the next open turns are those and this one. */
  lemma OthersFit(es: Entries<TurnUsage>, open: set<string>, t: string)
    requires DistinctKeys(es) && KeySet(es) == open && |open + {t}| <= STATE_LIMIT
    ensures |Delete(es, t)| < STATE_LIMIT
  {
    var others := Delete(es, t);
    GetDelete(es, t, t);
    KeyCount(others);
    forall x ensures x in KeySet(others) <==> x in open && x != t {
      GetDelete(es, t, x);
      KeySetGet(others, x);
      KeySetGet(es, x);
    }
    assert open + {t} == KeySet(others) + {t};
  }

  lemma ReportExact(es: Entries<TurnUsage>, open: set<string>, before: string -> Option<Usage>, after: string -> Option<Usage>,
      t: string, usage: Usage, model: Option<string>)
    requires Exact(es, open, before) && |open + {t}| <= STATE_LIMIT
    requires forall x :: after(x) == if x != t then before(x) else Added(before(t), usage)
    ensures Exact(Accumulate(es, t, usage, model), open + {t}, after)
    ensures |Delete(es, t)| < STATE_LIMIT
  {
    var next := Accumulate(es, t, usage, model);
    OthersFit(es, open, t);
    AccumulateGet(es, t, usage, model, t);
    forall x ensures UsageHeld(next, x) == after(x) && (x in KeySet(next) <==> x in open + {t}) {
      AccumulateGet(es, t, usage, model, x);
      KeySetGet(next, x);
      KeySetGet(es, x);
      assert UsageHeld(es, x) == before(x);
    }
  }

  lemma CompleteExact(es: Entries<TurnUsage>, open: set<string>,
      before: string -> Option<Usage>, after: string -> Option<Usage>, t: string)
    requires Exact(es, open, before)
    requires forall x :: after(x) == if x != t then before(x) else None
    ensures Exact(Delete(es, t), open - {t}, after)
  {
    GetDelete(es, t, t);
    forall x ensures UsageHeld(Delete(es, t), x) == after(x) && (x in KeySet(Delete(es, t)) <==> x in open - {t}) {
      GetDelete(es, t, x);
      KeySetGet(Delete(es, t), x);
      KeySetGet(es, x);
      assert UsageHeld(es, x) == before(x);
    }
  }

  /** The usage of a turn after a report of that turn. */
  function Added(before: Option<Usage>, usage: Usage): Option<Usage> {
    Some(if before.Some? then Plus(before.value, usage) else usage)
  }

  lemma TotalsNext(rows: seq<Row>)
    requires rows != []
    ensures var row, before, after := rows[|rows| - 1], Totals(rows[..|rows| - 1]), Totals(rows);
      if Reported(row).Some? then
        var (t, usage) := Reported(row).value;
        forall x :: after(x) == if x != t then before(x) else Added(before(t), usage)
      else if row.TurnCompleted? && row.turnId.Some? then
        forall x :: after(x) == if x != row.turnId.value then before(x) else None
      else forall x :: after(x) == before(x)
  {
  }

  lemma StepExact(s: State, rows: seq<Row>, c: Counter)
    requires rows != [] && Exact(s.turnUsage, OpenTurns(rows[..|rows| - 1]), Totals(rows[..|rows| - 1]))
    requires |OpenTurns(rows)| <= STATE_LIMIT
    ensures Exact(Next(s, rows[|rows| - 1]).state.turnUsage, OpenTurns(rows), Totals(rows))
    ensures Evicted(s, rows[|rows| - 1], c) == 0
  {
    var row := rows[|rows| - 1];
    TotalsNext(rows);
    RowExact(s, row, OpenTurns(rows[..|rows| - 1]), OpenTurns(rows), Totals(rows[..|rows| - 1]), Totals(rows), c);
  }

  lemma AccumulatorsNext(s: State, row: Row)
    ensures Next(s, row).state.turnUsage ==
      if Reported(row).Some? then Accumulate(s.turnUsage, Reported(row).value.0, Reported(row).value.1, row.model)
      else if row.TurnCompleted? && row.turnId.Some? then Delete(s.turnUsage, row.turnId.value)
      else s.turnUsage
  {
    if row.TurnCompleted? && row.turnId.Some? { AbsentDelete(s.turnUsage, row.turnId.value); }
  }

  lemma RowExact(s: State, row: Row, open: set<string>, next: set<string>,
      before: string -> Option<Usage>, after: string -> Option<Usage>, c: Counter)
    requires Exact(s.turnUsage, open, before) && |next| <= STATE_LIMIT
    requires
      if Reported(row).Some? then
        var (t, usage) := Reported(row).value;
        next == open + {t} && forall x :: after(x) == if x != t then before(x) else Added(before(t), usage)
      else if row.TurnCompleted? && row.turnId.Some? then
        next == open - {row.turnId.value} && forall x :: after(x) == if x != row.turnId.value then before(x) else None
      else next == open && forall x :: after(x) == before(x)
    ensures Exact(Next(s, row).state.turnUsage, next, after)
    ensures Evicted(s, row, c) == 0
  {
    AccumulatorsNext(s, row);
    if Reported(row).Some? {
      ReportExact(s.turnUsage, open, before, after, row.turnId.value, row.usage.value, row.model);
    } else if row.TurnCompleted? && row.turnId.Some? {
      CompleteExact(s.turnUsage, open, before, after, row.turnId.value);
    } else {
      SameExact(s.turnUsage, open, before, after);
    }
  }

  lemma SameExact(es: Entries<TurnUsage>, open: set<string>, before: string -> Option<Usage>, after: string -> Option<Usage>)
    requires Exact(es, open, before) && forall x :: after(x) == before(x)
    ensures Exact(es, open, after)
  {
  }

  lemma AbsentDelete(es: Entries<TurnUsage>, t: string)
    ensures Get(es, t).None? ==> Delete(es, t) == es
  {
  }

  lemma FitsPrefix(rows: seq<Row>, n: nat)
    requires Fits(rows) && n <= |rows|
    ensures Fits(rows[..n])
  {
    forall k | 0 <= k <= n ensures |OpenTurns(rows[..n][..k])| <= STATE_LIMIT {
      assert rows[..n][..k] == rows[..k];
    }
  }

  /** While at most `STATE_LIMIT` turns are open, every accumulator is exact and nothing is evicted. */
  lemma {:induction false} TurnsExact(rows: seq<Row>, c: Counter)
    requires Fits(rows)
    ensures Exact(Run(INITIAL, rows).state.turnUsage, OpenTurns(rows), Totals(rows))
    ensures EvictedAll(rows, c) == 0
    decreases |rows|
  {
    if rows != [] {
      FitsPrefix(rows, |rows| - 1);
      TurnsExact(rows[..|rows| - 1], c);
      FoldSnoc(Stepper(), INITIAL, rows);
      assert rows[..|rows|] == rows;
      StepExact(Run(INITIAL, rows[..|rows| - 1]).state, rows, c);
    }
  }

  /** Then completing a turn publishes exactly the sum of its reports, and received equals published plus held. */
  lemma TurnUsagePublishedExactly(rows: seq<Row>, t: string, terminal: Option<string>, errorText: Option<string>, c: Counter)
    requires Fits(rows)
    ensures var out := Run(INITIAL, rows);
      && ReceivedAll(rows, c) == Published(out.events, c) + Held(out.state.turnUsage, c)
      && Published(Next(out.state, TurnCompleted(Some(t), terminal, errorText)).events, c) ==
        (if TurnTotal(rows, t).Some? then At(TurnTotal(rows, t).value, c) else 0)
  {
    var s := Run(INITIAL, rows).state;
    TurnsExact(rows, c);
    UsageConserved(rows, c);
    assert UsageHeld(s.turnUsage, t) == Totals(rows)(t);
    TurnConserves(s, TurnCompleted(Some(t), terminal, errorText), c);
    HeldDelete(s.turnUsage, t, c);
  }

  // ------------------------------------------------------------------
  // Eviction takes the least recently updated turn
  // ------------------------------------------------------------------

  /** One more than the position of the last report for a turn. */
  function LastReport(rows: seq<Row>, t: string): nat
    decreases |rows|
  {
    if rows == [] then 0
    else
      var row := rows[|rows| - 1];
      if Reported(row).Some? && Reported(row).value.0 == t then |rows| else LastReport(rows[..|rows| - 1], t)
  }

  ghost predicate Rising(es: Entries<TurnUsage>, rank: string -> int) {
    DistinctKeys(es) && forall i, j :: 0 <= i < j < |es| ==> rank(es[i].0) < rank(es[j].0)
  }

  function LastReports(rows: seq<Row>): string -> int {
    t => LastReport(rows, t)
  }

  lemma {:induction false} LastReportBound(rows: seq<Row>, t: string)
    ensures LastReport(rows, t) <= |rows|
    decreases |rows|
  {
    if rows != [] { LastReportBound(rows[..|rows| - 1], t); }
  }

  lemma DeleteRising(es: Entries<TurnUsage>, rank: string -> int, t: string)
    requires Rising(es, rank)
    ensures Rising(Delete(es, t), rank)
    ensures forall i :: 0 <= i < |Delete(es, t)| ==> Delete(es, t)[i].0 != t
  {
    var left, k := Delete(es, t), Find(es, t);
    GetDelete(es, t, t);
    assert forall i :: 0 <= i < |left| ==> left[i] == es[if i < k then i else i + 1];
  }

  /** A turn of the highest rank may be appended, and the first entry may then be dropped. */
  lemma AppendRising(others: Entries<TurnUsage>, before: string -> int, rank: string -> int, e: (string, TurnUsage))
    requires Rising(others, before)
    requires forall i :: 0 <= i < |others| ==> others[i].0 != e.0 && rank(others[i].0) == before(others[i].0) < rank(e.0)
    ensures Rising(others + [e], rank) && Rising((others + [e])[1..], rank)
  {
  }

  /** After every run the accumulators stand in the order of their last reports, so the first one is evicted first. */
  lemma {:induction false} OldestFirst(rows: seq<Row>)
    ensures Rising(Run(INITIAL, rows).state.turnUsage, LastReports(rows))
    decreases |rows|
  {
    if rows != [] {
      var n := |rows| - 1;
      var s, row := Run(INITIAL, rows[..n]).state, rows[n];
      OldestFirst(rows[..n]);
      FoldSnoc(Stepper(), INITIAL, rows);
      if Reported(row).Some? {
        ReportRising(s.turnUsage, rows);
      } else {
        QuietRising(s, rows);
      }
    }
  }

  lemma QuietRising(s: State, rows: seq<Row>)
    requires rows != [] && Reported(rows[|rows| - 1]).None? && Rising(s.turnUsage, LastReports(rows[..|rows| - 1]))
    ensures Rising(Next(s, rows[|rows| - 1]).state.turnUsage, LastReports(rows))
  {
    var row, before := rows[|rows| - 1], LastReports(rows[..|rows| - 1]);
    var next := Next(s, row).state.turnUsage;
    if row.TurnCompleted? && row.turnId.Some? {
      DeleteRising(s.turnUsage, before, row.turnId.value);
      AbsentDelete(s.turnUsage, row.turnId.value);
      assert next == Delete(s.turnUsage, row.turnId.value);
    } else {
      assert next == s.turnUsage;
    }
    SameRising(next, before, LastReports(rows));
  }

  lemma SameRising(es: Entries<TurnUsage>, before: string -> int, after: string -> int)
    requires Rising(es, before) && forall i :: 0 <= i < |es| ==> after(es[i].0) == before(es[i].0)
    ensures Rising(es, after)
  {
  }

  lemma ReportedLast(rows: seq<Row>, x: string)
    requires rows != [] && Reported(rows[|rows| - 1]).Some?
    ensures LastReports(rows)(x) ==
      if x == Reported(rows[|rows| - 1]).value.0 then |rows| else LastReports(rows[..|rows| - 1])(x)
  {
  }

  lemma AccumulateRising(es: Entries<TurnUsage>, before: string -> int, rank: string -> int,
                         t: string, usage: Usage, model: Option<string>)
    requires Rising(es, before)
    requires forall x :: x != t ==> rank(x) == before(x) < rank(t)
    ensures Rising(Accumulate(es, t, usage, model), rank)
  {
    var others, next := Delete(es, t), Accumulate(es, t, usage, model);
    DeleteRising(es, before, t);
    var e := next[|next| - 1];
    assert e.0 == t && (next == others + [e] || next == (others + [e])[1..]);
    AppendRising(others, before, rank, e);
  }

  lemma ReportRising(es: Entries<TurnUsage>, rows: seq<Row>)
    requires rows != [] && Reported(rows[|rows| - 1]).Some? && Rising(es, LastReports(rows[..|rows| - 1]))
    ensures var (t, usage) := Reported(rows[|rows| - 1]).value;
      Rising(Accumulate(es, t, usage, rows[|rows| - 1].model), LastReports(rows))
  {
    var row, before := rows[|rows| - 1], rows[..|rows| - 1];
    var (t, usage) := Reported(row).value;
    ReportedLast(rows, t);
    forall x | x != t ensures LastReports(rows)(x) == LastReports(before)(x) < LastReports(rows)(t) {
      ReportedLast(rows, x);
      LastReportBound(before, x);
    }
    AccumulateRising(es, LastReports(before), LastReports(rows), t, usage, row.model);
  }

  // ------------------------------------------------------------------
  // Starts and completions of items
  // ------------------------------------------------------------------

  predicate IsItem(row: Row, id: string) {
    (row.ItemStarted? || row.ItemCompleted?) && Opens(row.item.kind) && row.item.id == Some(id)
  }

  /** The row publishes the start of the item. */
  function Starts(s: State, row: Row, id: string): nat {
    if IsItem(row, id) && StartedEvents(row.item) <= Next(s, row).events then 1 else 0
  }

  function Completes(row: Row, id: string): nat {
    if row.ItemCompleted? && IsItem(row, id) then 1 else 0
  }

  /** The row makes the projector forget that the item is open. */
  function Forgets(s: State, row: Row, id: string): nat {
    if row.ItemStarted? && id in s.openItems && id !in Next(s, row).state.openItems then 1 else 0
  }

  function Count(rows: seq<Row>, id: string): (int, int, int)
    decreases |rows|
  {
    if rows == [] then (0, 0, 0)
    else
      var n := |rows| - 1;
      var (starts, completions, forgotten) := Count(rows[..n], id);
      var s := Run(INITIAL, rows[..n]).state;
      (starts + Starts(s, rows[n], id), completions + Completes(rows[n], id), forgotten + Forgets(s, rows[n], id))
  }

  function OpenBit(s: State, id: string): int {
    if id in s.openItems then 1 else 0
  }

  lemma SameHead(x: seq<Event>, y: seq<Event>)
    requires x != [] && x <= y
    ensures y != [] && x[0] == y[0]
  {
  }

  lemma StartPublished(s: State, row: Row, id: string)
    requires IsItem(row, id)
    ensures Starts(s, row, id) == 1 - OpenBit(s, id)
  {
    var started, completed := StartedEvents(row.item), CompletedEvents(row.item);
    assert started != [] && completed != [] && started[0] != completed[0];
    if id in s.openItems && row.ItemCompleted? {
      assert Next(s, row).events == completed;
      if started <= completed { SameHead(started, completed); }
    }
  }

  lemma StepPairs(s: State, row: Row, id: string)
    requires Distinct(s.openItems)
    ensures var next := Next(s, row).state;
      && Distinct(next.openItems)
      && OpenBit(s, id) + Starts(s, row, id) == Completes(row, id) + Forgets(s, row, id) + OpenBit(next, id)
  {
    if IsItem(row, id) { StartPublished(s, row, id); }
    if row.ItemStarted? && row.item.id.Some? {
      RememberDistinct(s.openItems, row.item.id.value, STATE_LIMIT);
      RememberKeeps(s.openItems, row.item.id.value, STATE_LIMIT);
    }
    if row.ItemCompleted? && row.item.id.Some? {
      WithoutMembers(s.openItems, row.item.id.value);
    }
  }

  lemma RememberKeeps(set_: seq<string>, k: string, limit: nat)
    requires limit > 0 && Distinct(set_)
    ensures k !in set_ ==> k in Remember(set_, k, limit)
    ensures forall x :: x in Remember(set_, k, limit) ==> x in set_ || x == k
  {
    var t := Add(set_, k);
    if k !in set_ { assert t[|t| - 1] == k; }
    if |t| > limit && k !in set_ { assert t[1..][|t| - 2] == k; }
  }

  /**
   * Over every run, for every item: the published starts are the completions
   * plus the forgotten openings plus one while it is open.  In particular no
   * completion is published without an unconsumed start, even after eviction.
   */
  lemma {:induction false} StartsCoverCompletions(rows: seq<Row>, id: string)
    ensures var s := Run(INITIAL, rows).state; var (starts, completions, forgotten) := Count(rows, id);
      && Distinct(s.openItems)
      && starts == completions + forgotten + OpenBit(s, id)
      && starts >= completions
    decreases |rows|
  {
    if rows != [] {
      var n := |rows| - 1;
      StartsCoverCompletions(rows[..n], id);
      StepPairs(Run(INITIAL, rows[..n]).state, rows[n], id);
      FoldSnoc(Stepper(), INITIAL, rows);
      CountNatural(rows, id);
    }
  }

  lemma {:induction false} CountNatural(rows: seq<Row>, id: string)
    ensures Count(rows, id).2 >= 0
    decreases |rows|
  {
    if rows != [] { CountNatural(rows[..|rows| - 1], id); }
  }
}
