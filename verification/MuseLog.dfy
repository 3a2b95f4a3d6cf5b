/** What every row of a Muse log publishes, by the rows before it alone: v2/adapters/src/muse.ts. */
module MuseLog {
  import opened Wrappers
  import opened Ordered
  import opened Runs
  import opened Counters
  import opened Muse

  // ------------------------------------------------------------------
  // The usage of one call, counter by counter
  // ------------------------------------------------------------------

  ghost predicate Carries(u: Usage, c: Counter, o: Option<int>) {
    (c in u <==> o.Some?) && (c in u ==> o == Some(u[c]))
  }

  /** Which counters a call report gives, and their values. */
  lemma ReportedCounters(r: CallReport)
    ensures UsageOf(r).Some? <==> r.hasUsage || r.prompt.Some? || r.total.Some?
    ensures UsageOf(r).Some? ==>
      var u, read := UsageOf(r).value, if r.cacheRead.Some? then r.cacheRead else r.cached;
      && Carries(u, Output, r.output) && Carries(u, Reasoning, r.reasoning) && Carries(u, Total, r.total)
      && Carries(u, CacheRead, read) && Carries(u, CacheWrite, r.cacheWrite)
      && (r.prompt.None? ==> Carries(u, Input, r.input))
      && (r.prompt.Some? ==>
            var cached := (if read.Some? then read.value else 0) + (if r.cacheWrite.Some? then r.cacheWrite.value else 0);
            Carries(u, Input, Some(if r.prompt.value > cached then r.prompt.value - cached else 0)))
  {
  }

  // ------------------------------------------------------------------
  // Open items
  // ------------------------------------------------------------------

  predicate MayOpen(item: Item) {
    item.kind in [ToolCallItem, UserShell, Subagent]
  }

  /** The items that were started and not completed since, the last 1024 of them, in the order of their starts. */
  function OpenIn(past: seq<Row>): seq<string> {
    if past == [] then []
    else
      var before, row := OpenIn(past[..|past| - 1]), past[|past| - 1];
      match row
      case ItemStarted(Item(Some(id), kind, _, _, _, _, _, _, _)) =>
        if !MayOpen(row.item) || id in before then before
        else if |before| < 1024 then before + [id]
        else before[1..] + [id]
      case ItemCompleted(Item(Some(id), kind, _, _, _, _, _, _, _)) => if MayOpen(row.item) then Without(before, id) else before
      case _ => before
  }

  predicate IsOpenIn(past: seq<Row>, item: Item) {
    match item.id
    case Some(id) => id in OpenIn(past)
    case None => false
  }

  /** The name under which a call and its result are published. */
  function CallName(item: Item): string {
    match (item.kind, item.callId, item.id)
    case (ToolCallItem, Some(call), _) => call
    case (_, _, Some(id)) => id
    case (_, _, None) => "muse:unknown"
  }

  /** A tool that runs shell commands. */
  predicate RunsShell(item: Item) {
    item.kind.UserShell? || (item.kind.ToolCallItem? && item.tool in [Some("bash"), Some("shell"), Some("exec_command")])
  }

  function ToolName(item: Item): string {
    match (item.kind, item.tool)
    case (Subagent, _) => "subagent"
    case (_, Some(name)) => name
    case (_, None) => "tool"
  }

  function StartSays(item: Item): seq<Event>
    requires MayOpen(item)
  {
    if RunsShell(item) then [Shell(CallName(item), false)] else [ToolCall(CallName(item), ToolName(item))]
  }

  function CompletionSays(item: Item): seq<Event> {
    if item.kind == UserMessage || item.kind == AgentMessage then
      match item.text
      case Some(text) => [Message(item.kind == UserMessage, text)]
      case None => []
    else if item.kind == Thought then [Thinking(item.text)]
    else if RunsShell(item) then [Shell(CallName(item), true)]
    else if item.kind == Subagent then [ToolResult(CallName(item), "subagent", item.failed || item.errorKind)]
    else if item.kind == ToolCallItem then
      [ToolResult(CallName(item), ToolName(item), item.failed)]
      + (if item.patched && !item.failed then [FileEdit(CallName(item))] else [])
    else if item.kind == CompactionItem then
      match item.outcome
      case None => [Compaction]
      case Some(outcome) => if outcome == "compacted" then [Compaction] else [Unknown("compaction:" + outcome)]
    else if item.kind == WebSearchItem then [WebSearch(item.id)]
    else if item.kind == ReminderChild then []
    else [Unknown(item.kind.name)]
  }

  // ------------------------------------------------------------------
  // The usage of a turn
  // ------------------------------------------------------------------

  /** The turns with reports since they were last completed, the last 1024 of them, the one reported last at the end. */
  function TurnsIn(past: seq<Row>): seq<string> {
    if past == [] then []
    else
      var before, row := TurnsIn(past[..|past| - 1]), past[|past| - 1];
      match row
      case CallUsage(Some(t), Some(_), _) =>
        var others := Without(before, t);
        if |others| < 1024 then others + [t] else others[1..] + [t]
      case TurnCompleted(Some(t), _, _) => Without(before, t)
      case _ => before
  }

  /** The reports of a turn, as long as it is among those. */
  function ReportsIn(past: seq<Row>, t: string): seq<TurnUsage> {
    if past == [] || t !in TurnsIn(past) then []
    else
      var before, row := ReportsIn(past[..|past| - 1], t), past[|past| - 1];
      match row
      case CallUsage(Some(turn), Some(usage), model) => if turn == t then before + [TurnUsage(usage, model)] else before
      case _ => before
  }

  function Amount(u: Usage, c: Counter): int {
    if c in u then u[c] else 0
  }

  function Sum(reports: seq<TurnUsage>): Usage {
    if reports == [] then map[]
    else
      var before, last := Sum(reports[..|reports| - 1]), reports[|reports| - 1].usage;
      map c | c in before.Keys + last.Keys :: Amount(before, c) + Amount(last, c)
  }

  /** The model named last. */
  function ModelOf(reports: seq<TurnUsage>): Option<string> {
    if reports == [] then None
    else match reports[|reports| - 1].model
      case Some(model) => Some(model)
      case None => ModelOf(reports[..|reports| - 1])
  }

  // ------------------------------------------------------------------
  // What a row publishes
  // ------------------------------------------------------------------

  function TurnSays(past: seq<Row>, row: Row): seq<Event>
    requires row.TurnCompleted?
  {
    (match row.errorText
     case Some(text) => if row.terminal == Some("failed") then [ErrorMessage(text)] else []
     case None => [])
    + (match row.turnId
       case Some(t) => if t in TurnsIn(past) then [TokenUsage(t, Sum(ReportsIn(past, t)), ModelOf(ReportsIn(past, t)))] else []
       case None => [])
    + [TurnEnd(row.turnId, row.terminal)]
  }

  function Says(past: seq<Row>, row: Row): seq<Event> {
    match row
    case Ignored => []
    case ClientInterrupt => [Interrupt]
    case TurnStarted(turnId) => [TurnStart(turnId)]
    case CallUsage(_, _, _) => []
    case ItemStarted(item) =>
      if MayOpen(item) && item.id != None && !IsOpenIn(past, item) then StartSays(item) else []
    case ItemCompleted(item) =>
      (if MayOpen(item) && !IsOpenIn(past, item) then StartSays(item) else []) + CompletionSays(item)
    case TurnCompleted(_, _, _) => TurnSays(past, row)
  }

  function Sayer(): (seq<Row>, Row) -> seq<Event> {
    (past, row) => Says(past, row)
  }

  // ------------------------------------------------------------------
  // The projector remembers just what it needs of the log
  // ------------------------------------------------------------------

  function UsageIn(past: seq<Row>, t: string): Option<TurnUsage> {
    if t in TurnsIn(past) then Some(TurnUsage(Sum(ReportsIn(past, t)), ModelOf(ReportsIn(past, t)))) else None
  }

  ghost predicate HoldsTurns(es: Entries<TurnUsage>, turns: seq<string>, usage: string -> Option<TurnUsage>) {
    DistinctKeys(es) && KeysOf(es) == turns && forall t :: Get(es, t) == usage(t)
  }

  ghost predicate Stands(s: State, past: seq<Row>) {
    && s.openItems == OpenIn(past) && |s.openItems| <= 1024 && |s.turnUsage| <= 1024
    && HoldsTurns(s.turnUsage, TurnsIn(past), t => UsageIn(past, t))
  }

  lemma LastRow(past: seq<Row>, row: Row)
    ensures (past + [row])[..|past + [row]| - 1] == past && (past + [row])[|past|] == row
  {
  }

  lemma StartsAgree(item: Item)
    ensures MayOpen(item) <==> Opens(item.kind)
    ensures MayOpen(item) ==> StartedEvents(item) == StartSays(item)
  {
  }

  lemma CompletionsAgree(item: Item)
    ensures CompletedEvents(item) == CompletionSays(item)
  {
  }

  lemma ItemStands(s: State, past: seq<Row>, row: Row)
    requires Stands(s, past)
    ensures Next(s, row).state.openItems == OpenIn(past + [row]) && |Next(s, row).state.openItems| <= 1024
  {
    LastRow(past, row);
    if row.ItemStarted? || row.ItemCompleted? {
      StartsAgree(row.item);
      if row.item.id.Some? && row.item.id.value !in s.openItems {
        WithoutAbsent(s.openItems, row.item.id.value);
      }
      if row.item.id.Some? && |s.openItems| == 1024 {
        assert (s.openItems + [row.item.id.value])[1..] == s.openItems[1..] + [row.item.id.value];
      }
    }
  }

  // ------------------------------------------------------------------
  // Accumulators
  // ------------------------------------------------------------------

  lemma PlusIsSum(reports: seq<TurnUsage>, last: TurnUsage)
    ensures var all := reports + [last];
      && Sum(all) == Plus(Sum(reports), last.usage)
      && ModelOf(all) == if last.model.Some? then last.model else ModelOf(reports)
  {
    var all := reports + [last];
    assert all[..|all| - 1] == reports && all[|all| - 1] == last;
  }

  lemma FirstSum(last: TurnUsage)
    ensures Sum([last]) == last.usage && ModelOf([last]) == last.model
  {
    PlusIsSum([], last);
    assert [] + [last] == [last];
    assert Plus(map[], last.usage) == last.usage;
  }

  lemma {:induction false} NoReports(past: seq<Row>, t: string)
    ensures t in TurnsIn(past) <==> ReportsIn(past, t) != []
  {
    if past != [] && t in TurnsIn(past) {
      var before, row := past[..|past| - 1], past[|past| - 1];
      NoReports(before, t);
      AmongTurns(before, row, t);
      assert before + [row] == past;
    }
  }

  /** A turn is among those with reports when it was before or is reported now. */
  lemma AmongTurns(past: seq<Row>, row: Row, t: string)
    requires t in TurnsIn(past + [row])
    ensures t in TurnsIn(past) || (row.CallUsage? && row.turnId == Some(t) && row.usage.Some?)
  {
    LastRow(past, row);
    if row.CallUsage? && row.turnId.Some? { WithoutIn(TurnsIn(past), row.turnId.value, t); }
    if row.TurnCompleted? && row.turnId.Some? { WithoutIn(TurnsIn(past), row.turnId.value, t); }
  }

  lemma {:induction false} WithoutIn(ids: seq<string>, id: string, x: string)
    ensures x in Without(ids, id) ==> x in ids
    ensures x in ids && x != id ==> x in Without(ids, id)
  {
    if ids != [] { WithoutIn(ids[1..], id, x); }
  }

  lemma GetRest<V>(es: Entries<V>, t: string)
    requires es != [] && DistinctKeys(es)
    ensures Get(es[1..], t) == if t == es[0].0 then None else Get(es, t)
  {
    var rest := es[1..];
    if t == es[0].0 {
      FindIs(rest, t, |rest|);
    } else {
      assert Find(es, t) == 1 + Find(rest, t);
    }
  }

  lemma DropFirst<V>(es: Entries<V>)
    requires es != [] && DistinctKeys(es)
    ensures DistinctKeys(es[1..]) && KeysOf(es[1..]) == KeysOf(es)[1..]
    ensures forall t :: Get(es[1..], t) == if t == es[0].0 then None else Get(es, t)
  {
    forall t ensures Get(es[1..], t) == if t == es[0].0 then None else Get(es, t) { GetRest(es, t); }
  }

  lemma AddLast<V>(es: Entries<V>, k: string, v: V)
    requires DistinctKeys(es) && Get(es, k) == None
    ensures DistinctKeys(es + [(k, v)]) && KeysOf(es + [(k, v)]) == KeysOf(es) + [k]
    ensures forall t :: Get(es + [(k, v)], t) == if t == k then Some(v) else Get(es, t)
  {
    assert Put(es, k, v) == es + [(k, v)];
    PutDistinct(es, k, v);
    KeysPut(es, k, v);
    KeysIn(es, k);
    forall t ensures Get(Put(es, k, v), t) == if t == k then Some(v) else Get(es, t) { GetPut(es, k, v, t); }
  }

  /** Of more than 1024 entries the first is dropped. */
  function Capped<V>(es: Entries<V>): Entries<V> {
    if |es| > 1024 then es[1..] else es
  }

  lemma CappedGets<V>(es: Entries<V>, x: string)
    requires DistinctKeys(es)
    ensures DistinctKeys(Capped(es)) && KeysOf(Capped(es)) == (if |es| > 1024 then KeysOf(es)[1..] else KeysOf(es))
    ensures Get(Capped(es), x) == if x in KeysOf(Capped(es)) then Get(es, x) else None
  {
    KeysIn(es, x);
    if |es| > 1024 {
      DropFirst(es);
      KeysIn(es[1..], x);
    }
  }

  /** An entry is deleted and put at the end. */
  lemma MovedEntries<V>(es: Entries<V>, t: string, v: V)
    requires DistinctKeys(es)
    ensures var moved := Delete(es, t) + [(t, v)];
      && DistinctKeys(moved) && KeysOf(moved) == Without(KeysOf(es), t) + [t]
      && |moved| == |Without(KeysOf(es), t)| + 1
      && forall x :: Get(moved, x) == if x == t then Some(v) else Get(es, x)
  {
    var left := Delete(es, t);
    KeysDelete(es, t);
    KeysSize(left);
    GetDelete(es, t, t);
    AddLast(left, t, v);
    forall x ensures Get(left, x) == if x == t then None else Get(es, x) { GetDelete(es, t, x); }
  }

  lemma CappedEntries<V>(moved: Entries<V>, others: seq<string>, t: string)
    requires DistinctKeys(moved) && KeysOf(moved) == others + [t] && |moved| == |others| + 1 <= 1025
    ensures var out := Capped(moved);
      && |out| <= 1024 && DistinctKeys(out)
      && KeysOf(out) == (if |others| < 1024 then others + [t] else others[1..] + [t])
      && forall x :: Get(out, x) == if x !in KeysOf(out) then None else Get(moved, x)
  {
    CappedGets(moved, t);
    forall x ensures Get(Capped(moved), x) == if x !in KeysOf(Capped(moved)) then None else Get(moved, x) {
      CappedGets(moved, x);
    }
    if |others| >= 1024 { assert (others + [t])[1..] == others[1..] + [t]; }
  }

  /** The accumulators after a report. */
  lemma AccumulateHolds(es: Entries<TurnUsage>, turns: seq<string>, usage: string -> Option<TurnUsage>, t: string,
                        u: Usage, model: Option<string>, next: TurnUsage)
    requires HoldsTurns(es, turns, usage) && |es| <= 1024
    requires next == TurnUsage(if usage(t).Some? then Plus(usage(t).value.usage, u) else u,
                               if model.Some? then model else if usage(t).Some? then usage(t).value.model else None)
    ensures var out, others := Accumulate(es, t, u, model), Without(turns, t);
      && |out| <= 1024 && DistinctKeys(out)
      && KeysOf(out) == (if |others| < 1024 then others + [t] else others[1..] + [t])
      && forall x :: Get(out, x) == if x !in KeysOf(out) then None else if x == t then Some(next) else usage(x)
  {
    var moved := Delete(es, t) + [(t, next)];
    assert Accumulate(es, t, u, model) == Capped(moved);
    KeysSize(es);
    MovedEntries(es, t, next);
    CappedEntries(moved, Without(turns, t), t);
  }

  lemma DeleteHolds(es: Entries<TurnUsage>, turns: seq<string>, usage: string -> Option<TurnUsage>, t: string)
    requires HoldsTurns(es, turns, usage)
    ensures HoldsTurns(Delete(es, t), Without(turns, t), x => if x == t then None else usage(x))
    ensures |Delete(es, t)| <= |es|
  {
    KeysDelete(es, t);
    GetDelete(es, t, t);
    forall x ensures Get(Delete(es, t), x) == if x == t then None else Get(es, x) { GetDelete(es, t, x); }
  }

  /** What is known of a turn after one more row. */
  lemma UsageNext(past: seq<Row>, row: Row, t: string)
    ensures var more := past + [row];
      UsageIn(more, t) ==
        if t !in TurnsIn(more) then None
        else if row.CallUsage? && row.turnId == Some(t) && row.usage.Some? then
          var before := UsageIn(past, t);
          Some(TurnUsage(if before.Some? then Plus(before.value.usage, row.usage.value) else row.usage.value,
                         if row.model.Some? then row.model else if before.Some? then before.value.model else None))
        else UsageIn(past, t)
  {
    LastRow(past, row);
    NoReports(past, t);
    if t in TurnsIn(past + [row]) {
      AmongTurns(past, row, t);
      if row.CallUsage? && row.turnId == Some(t) && row.usage.Some? {
        PlusIsSum(ReportsIn(past, t), TurnUsage(row.usage.value, row.model));
        if ReportsIn(past, t) == [] {
          FirstSum(TurnUsage(row.usage.value, row.model));
          assert [] + [TurnUsage(row.usage.value, row.model)] == [TurnUsage(row.usage.value, row.model)];
        }
      }
    }
  }

  ghost predicate TurnsStand(es: Entries<TurnUsage>, past: seq<Row>) {
    DistinctKeys(es) && KeysOf(es) == TurnsIn(past) && |es| <= 1024 && forall t :: Get(es, t) == UsageIn(past, t)
  }

  lemma StandsIff(s: State, past: seq<Row>)
    ensures Stands(s, past) <==> s.openItems == OpenIn(past) && |s.openItems| <= 1024 && TurnsStand(s.turnUsage, past)
  {
    var usage: string -> Option<TurnUsage> := t => UsageIn(past, t);
    assert forall t :: usage(t) == UsageIn(past, t);
  }

  lemma TurnsNext(past: seq<Row>, row: Row, t: string)
    requires row.CallUsage? && row.turnId == Some(t) && row.usage.Some?
    ensures var others := Without(TurnsIn(past), t);
      TurnsIn(past + [row]) == if |others| < 1024 then others + [t] else others[1..] + [t]
    ensures t in TurnsIn(past + [row])
  {
    LastRow(past, row);
  }

  lemma ReportStands(es: Entries<TurnUsage>, past: seq<Row>, row: Row)
    requires TurnsStand(es, past) && row.CallUsage? && row.turnId.Some? && row.usage.Some?
    ensures TurnsStand(Accumulate(es, row.turnId.value, row.usage.value, row.model), past + [row])
  {
    var t, usage := row.turnId.value, (x: string) => UsageIn(past, x);
    var before := usage(t);
    var next := TurnUsage(if before.Some? then Plus(before.value.usage, row.usage.value) else row.usage.value,
                          if row.model.Some? then row.model else if before.Some? then before.value.model else None);
    var out, more := Accumulate(es, t, row.usage.value, row.model), past + [row];
    AccumulateHolds(es, TurnsIn(past), usage, t, row.usage.value, row.model, next);
    TurnsNext(past, row, t);
    var turns := TurnsIn(more);
    assert KeysOf(out) == turns;
    forall x ensures Get(out, x) == UsageIn(more, x) {
      ReportedNext(past, row, t, x, next, turns);
    }
  }

  lemma ReportedNext(past: seq<Row>, row: Row, t: string, x: string, next: TurnUsage, turns: seq<string>)
    requires row.CallUsage? && row.turnId == Some(t) && row.usage.Some? && turns == TurnsIn(past + [row]) && t in turns
    requires var before := UsageIn(past, t);
      next == TurnUsage(if before.Some? then Plus(before.value.usage, row.usage.value) else row.usage.value,
                        if row.model.Some? then row.model else if before.Some? then before.value.model else None)
    ensures UsageIn(past + [row], x) == if x == t then Some(next) else if x in turns then UsageIn(past, x) else None
  {
    UsageNext(past, row, x);
  }

  lemma CompletionStands(es: Entries<TurnUsage>, past: seq<Row>, row: Row)
    requires TurnsStand(es, past) && row.TurnCompleted? && row.turnId.Some?
    ensures TurnsStand(Delete(es, row.turnId.value), past + [row])
  {
    var t, usage := row.turnId.value, (x: string) => UsageIn(past, x);
    DeleteHolds(es, TurnsIn(past), usage, t);
    LastRow(past, row);
    KeysDistinct(es);
    WithoutMembers(TurnsIn(past), t);
    forall x ensures Get(Delete(es, t), x) == UsageIn(past + [row], x) {
      UsageNext(past, row, x);
      KeysIn(es, x);
    }
  }

  lemma OtherStands(es: Entries<TurnUsage>, past: seq<Row>, row: Row)
    requires TurnsStand(es, past)
    requires !(row.CallUsage? && row.turnId.Some? && row.usage.Some?) && !(row.TurnCompleted? && row.turnId.Some?)
    ensures TurnsStand(es, past + [row])
  {
    LastRow(past, row);
    forall x ensures UsageIn(past, x) == UsageIn(past + [row], x) { UsageNext(past, row, x); }
  }

  /** Completing a turn without accumulator deletes nothing. */
  lemma DeleteNothing(es: Entries<TurnUsage>, t: string)
    requires Get(es, t).None?
    ensures Delete(es, t) == es
  {
  }

  lemma RowStands(s: State, past: seq<Row>, row: Row)
    requires Stands(s, past)
    ensures Stands(Next(s, row).state, past + [row])
  {
    ItemStands(s, past, row);
    StandsIff(s, past);
    StandsIff(Next(s, row).state, past + [row]);
    if row.CallUsage? && row.turnId.Some? && row.usage.Some? {
      ReportStands(s.turnUsage, past, row);
    } else if row.TurnCompleted? && row.turnId.Some? {
      CompletionStands(s.turnUsage, past, row);
      if Get(s.turnUsage, row.turnId.value).None? { DeleteNothing(s.turnUsage, row.turnId.value); }
    } else {
      OtherStands(s.turnUsage, past, row);
      RowLeaves(s, row);
    }
  }

  lemma RowLeaves(s: State, row: Row)
    requires !(row.CallUsage? && row.turnId.Some? && row.usage.Some?) && !(row.TurnCompleted? && row.turnId.Some?)
    ensures Next(s, row).state.turnUsage == s.turnUsage
  {
  }

  lemma RowSays(s: State, past: seq<Row>, row: Row)
    requires Stands(s, past)
    ensures Next(s, row).events == Says(past, row)
  {
    StandsIff(s, past);
    match row {
      case ItemStarted(item) =>
        StartsAgree(item);
      case ItemCompleted(item) =>
        StartsAgree(item);
        CompletionsAgree(item);
        assert [] + CompletionSays(item) == CompletionSays(item);
      case TurnCompleted(turnId, _, _) =>
        if turnId.Some? { KeysIn(s.turnUsage, turnId.value); }
        assert FailureEvents(row) + [] == FailureEvents(row);
      case _ =>
    }
  }

  ghost function Standing(): (State, seq<Row>) -> bool {
    (s, past) => Stands(s, past)
  }

  lemma StandsFirst()
    ensures Stands(INITIAL, [])
  {
  }

  /** Over every log, the projector publishes row by row what the rows before each row call for. */
  lemma ProjectionIsTheLog(rows: seq<Row>)
    ensures Run(INITIAL, rows).events == Told(Sayer(), rows) && Stands(Run(INITIAL, rows).state, rows)
  {
    StandsFirst();
    forall s, past, row ensures Obeys(Stepper(), Standing(), Sayer(), s, past, row) {
      if Standing()(s, past) {
        RowStands(s, past, row);
        RowSays(s, past, row);
      }
    }
    FoldTells(Stepper(), INITIAL, rows, Standing(), Sayer());
    assert Standing()(Run(INITIAL, rows).state, rows);
  }
}
