/** What is wrong with a TAP report, stated on its lines: scripts/gates/darwin/focused_tap.py. */
module TapChecks {
  import opened Tap

  /** The result rows of a report, in order. */
  function ResultRows(lines: seq<Line>): seq<Row> {
    if lines == [] then []
    else match lines[0]
      case Result(row) => [row] + ResultRows(lines[1..])
      case Other(_, _, _) => ResultRows(lines[1..])
  }

  /** The numbers of the rows at the left margin. */
  function RootNumbers(rows: seq<Row>): seq<nat> {
    if rows == [] then [] else (if rows[0].depth == 0 then [rows[0].number] else []) + RootNumbers(rows[1..])
  }

  /** The plans of a report. */
  function PlansIn(lines: seq<Line>): seq<nat> {
    if lines == [] then []
    else match lines[0]
      case Other(_, Some(n), _) => [n] + PlansIn(lines[1..])
      case _ => PlansIn(lines[1..])
  }

  lemma {:induction false} RowsAre(lines: seq<Line>)
    ensures Rows(lines) == ResultRows(lines) && Plans(lines) == PlansIn(lines)
  {
    if lines != [] { RowsAre(lines[1..]); }
  }

  lemma {:induction false} TopsAre(rows: seq<Row>)
    ensures Tops(rows) == RootNumbers(rows)
  {
    if rows != [] { TopsAre(rows[1..]); }
  }

  /** The report has one plan, of as many root rows as there are, at least one, and they are numbered from 1 on. */
  ghost predicate PlanHolds(lines: seq<Line>) {
    var roots := RootNumbers(ResultRows(lines));
    && |roots| >= 1 && |PlansIn(lines)| == 1 && PlansIn(lines)[0] == |roots|
    && forall i :: 0 <= i < |roots| ==> roots[i] == i + 1
  }

  ghost predicate OnlyAt(names: seq<string>, name: string, i: nat) {
    i < |names| && names[i] == name && forall j :: 0 <= j < |names| && names[j] == name ==> j == i
  }

  ghost predicate Twice(names: seq<string>, name: string) {
    exists i, j :: 0 <= i < j < |names| && names[i] == name && names[j] == name
  }

  /** The name is expected, or an expected one continues it behind a joint. */
  ghost predicate Wanted(name: string, expected: seq<string>) {
    exists k :: 0 <= k < |expected| && (expected[k] == name || name + " > " <= expected[k])
  }

  /** What each violation means. */
  ghost predicate Wrong(lines: seq<Line>, expected: seq<string>, exit: int, version: bool, e: Violation) {
    var rows := ResultRows(lines);
    var names := FullNames(rows);
    match e
    case NonzeroSummary => exists i :: 0 <= i < |lines| && lines[i].Other? && lines[i].summary.Some? && lines[i].summary.value > 0
    case Bailout => exists i :: 0 <= i < |lines| && lines[i].Other? && lines[i].bail
    case NonPassing(name) => exists i :: 0 <= i < |rows| && names[i] == name && (!rows[i].passed || rows[i].directive.Some?)
    case Unexpected(name) => name in names && !Wanted(name, expected)
    case CountDiffers(name) => name in expected && !exists i: nat :: OnlyAt(names, name, i)
    case ProcessExited => exit != 0
    case BadPlan => !PlanHolds(lines)
    case NoVersion => !version
  }

  lemma IndicesOne(names: seq<string>, name: string)
    ensures |Indices(names, name)| == 1 <==> exists i: nat :: OnlyAt(names, name, i)
    ensures Indices(names, name) == {} <==> name !in names
    ensures |Indices(names, name)| > 1 <==> Twice(names, name)
  {
    var at := Indices(names, name);
    if |at| == 1 {
      var i: nat :| i in at;
      forall j: nat | j < |names| && names[j] == name ensures j == i {
        assert j in at;
        TwoMembers(at, i, j);
      }
      assert OnlyAt(names, name, i);
    }
    if i: nat :| OnlyAt(names, name, i) { assert at == {i}; }
    if i: nat, j: nat :| 0 <= i < j < |names| && names[i] == name && names[j] == name {
      assert i in at && j in at;
      TwoMembers(at, i, j);
    }
    if |at| > 1 {
      var i: nat :| i in at;
      assert at == (at - {i}) + {i};
      var j: nat :| j in at - {i};
      assert i < j || j < i;
    }
    if name in names {
      var k: nat :| k < |names| && names[k] == name;
      assert k in at;
    }
  }

  lemma TwoMembers(s: set<nat>, i: nat, j: nat)
    requires i in s && j in s
    ensures i != j ==> |s| > 1
    ensures |s| >= 1
  {
    assert s == (s - {i}) + {i};
    if i != j { assert j in s - {i}; }
  }

  /** The errors of a verdict are what is wrong with the report, and nothing else. */
  lemma ViolatesIff(lines: seq<Line>, expected: seq<string>, exit: int, version: bool, e: Violation)
    ensures Violates(lines, expected, exit, version, e) <==> Wrong(lines, expected, exit, version, e)
  {
    RowsAre(lines);
    TopsAre(Rows(lines));
    match e {
      case NonPassing(_) => RowWrong(lines, expected, exit, version, e);
      case Unexpected(_) => RowWrong(lines, expected, exit, version, e);
      case CountDiffers(name) => IndicesOne(FullNames(Rows(lines)), name);
      case BadPlan => PlanIff(lines);
      case _ =>
    }
  }

  lemma RowWrong(lines: seq<Line>, expected: seq<string>, exit: int, version: bool, e: Violation)
    requires e.NonPassing? || e.Unexpected?
    ensures RowViolates(Rows(lines), FullNames(Rows(lines)), expected, e) <==> Wrong(lines, expected, exit, version, e)
  {
    RowsAre(lines);
    WantedIff(e.fullName, expected);
  }

  lemma WantedIff(name: string, expected: seq<string>)
    ensures Wanted(name, expected) <==> Leads(name, expected)
  {
  }

  lemma PlanIff(lines: seq<Line>)
    ensures Planned(Plans(lines), Tops(Rows(lines))) <==> PlanHolds(lines)
  {
    RowsAre(lines);
    TopsAre(Rows(lines));
  }

  /** What is selected for an expected name: the row that alone has it. */
  lemma SelectsIff(rows: seq<Row>, names: seq<string>, name: string, found: Selection)
    requires |names| == |rows|
    ensures Selects(rows, names, name, found) <==>
      match found
      case Missing => name !in names
      case Duplicate => Twice(names, name)
      case Found(row) => exists i: nat :: OnlyAt(names, name, i) && rows[i] == row
  {
    IndicesOne(names, name);
    if found.Found? {
      if i: nat :| Indices(names, name) == {i} && found.row == rows[i] {
        assert i in Indices(names, name);
        forall j: nat | 0 <= j < |names| && names[j] == name ensures j == i { assert j in Indices(names, name); }
        assert OnlyAt(names, name, i);
      }
      if i: nat :| OnlyAt(names, name, i) && rows[i] == found.row {
        assert Indices(names, name) == {i};
      }
    }
  }

  /** Expected names are accepted as unique when none is given twice. */
  lemma UniqueIff(expected: seq<string>)
    ensures Unique(expected) <==> forall name :: !Twice(expected, name)
  {
    if forall name :: !Twice(expected, name) {
      forall i, j | 0 <= i < j < |expected| ensures expected[i] != expected[j] {
        assert !Twice(expected, expected[i]);
      }
    }
  }
}
