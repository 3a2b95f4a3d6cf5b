/** The verdict over a TAP report: scripts/gates/darwin/focused_tap.py. */
module Tap {
  import opened Wrappers
  import Lists

  /** A result row; `directive` is SKIP or TODO. */
  datatype Row = Row(depth: nat, passed: bool, number: nat, name: string, directive: Option<string>)

  /** A line that is no result row may be a summary, a plan at the left margin or a bailout. */
  datatype Line = Result(row: Row) | Other(summary: Option<nat>, plan: Option<nat>, bail: bool)

  datatype Violation =
    | NonzeroSummary | Bailout | NonPassing(fullName: string) | Unexpected(fullName: string)
    | CountDiffers(fullName: string) | ProcessExited | BadPlan | NoVersion

  /** What became of an expected name. */
  datatype Selection = Missing | Duplicate | Found(row: Row)

  datatype Verdict = Verdict(ok: bool, fullNames: seq<string>, selected: seq<Selection>, errors: seq<Violation>)

  // ------------------------------------------------------------------
  // Full names
  // ------------------------------------------------------------------

  /** The rows from the first one shallower than `depth` on. */
  function Rise(rows: seq<Row>, depth: nat): (rest: seq<Row>)
    ensures |rest| <= |rows|
    ensures rest != [] ==> rest[0].depth < depth
  {
    if rows == [] || rows[0].depth < depth then rows else Rise(rows[1..], depth)
  }

  /** The first row below its ancestors: the parent is the nearest later row that is shallower. */
  function Chain(rows: seq<Row>): seq<Row>
    decreases |rows|
  {
    if rows == [] then [] else Chain(Rise(rows[1..], rows[0].depth)) + [rows[0]]
  }

  function Names(rows: seq<Row>): seq<string> {
    seq(|rows|, i requires 0 <= i < |rows| => rows[i].name)
  }

  function Joined(names: seq<string>): string {
    if names == [] then ""
    else if |names| == 1 then names[0]
    else Joined(names[..|names| - 1]) + " > " + names[|names| - 1]
  }

  /** The full names of all rows. */
  function FullNames(rows: seq<Row>): (names: seq<string>)
    ensures |names| == |rows|
  {
    if rows == [] then [] else [Joined(Names(Chain(rows)))] + FullNames(rows[1..])
  }

  lemma {:induction false} RiseTwice(rows: seq<Row>, a: nat, b: nat)
    requires b <= a
    ensures Rise(Rise(rows, a), b) == Rise(rows, b)
  {
    if rows != [] { RiseTwice(rows[1..], a, b); }
  }

  /** The stack of open parents, popped down to the parents of a row at `depth`. */
  method PopParents(stack: seq<Row>, later: seq<Row>, depth: nat) returns (parents: seq<Row>)
    requires stack == Chain(later)
    ensures parents == Chain(Rise(later, depth))
  {
    parents := stack;
    ghost var rest := later;
    while parents != [] && parents[|parents| - 1].depth >= depth
      invariant parents == Chain(rest) && Rise(rest, depth) == Rise(later, depth)
      decreases |parents|
    {
      ghost var up := Rise(rest[1..], rest[0].depth);
      assert Chain(rest) == Chain(up) + [rest[0]];
      RiseTwice(rest[1..], rest[0].depth, depth);
      parents := parents[..|parents| - 1];
      rest := up;
    }
    if rest != [] {
      assert Chain(rest)[|Chain(rest)| - 1] == rest[0];
    }
  }

  /** The reverse scan with its stack of parents gives every row its full name. */
  method NameRows(rows: seq<Row>) returns (names: seq<string>)
    ensures names == FullNames(rows)
  {
    var parents: seq<Row> := [];
    names := [];
    var i := |rows|;
    while i > 0
      invariant 0 <= i <= |rows|
      invariant parents == Chain(rows[i..]) && names == FullNames(rows[i..])
    {
      i := i - 1;
      assert rows[i..][0] == rows[i] && rows[i..][1..] == rows[i + 1..];
      parents := PopParents(parents, rows[i + 1..], rows[i].depth);
      parents := parents + [rows[i]];
      names := [Joined(Names(parents))] + names;
    }
    assert rows[0..] == rows;
  }

  // ------------------------------------------------------------------
  // The verdict
  // ------------------------------------------------------------------

  function RowOf(line: Line): seq<Row> {
    if line.Result? then [line.row] else []
  }

  function PlanOf(line: Line): seq<nat> {
    if line.Other? && line.plan.Some? then [line.plan.value] else []
  }

  function Rows(lines: seq<Line>): seq<Row> {
    Lists.Flat(lines, RowOf)
  }

  function Plans(lines: seq<Line>): seq<nat> {
    Lists.Flat(lines, PlanOf)
  }

  predicate Nonzero(line: Line) {
    line.Other? && line.summary.Some? && line.summary.value != 0
  }

  predicate BailsOut(line: Line) {
    line.Other? && line.bail
  }

  predicate Passing(row: Row) {
    row.passed && row.directive.None?
  }

  /** An expected name, or an ancestor of one by its name. */
  predicate Leads(name: string, expected: seq<string>) {
    name in expected || exists i :: 0 <= i < |expected| && name + " > " <= expected[i]
  }

  function TopOf(row: Row): seq<nat> {
    if row.depth == 0 then [row.number] else []
  }

  /** The numbers of the root rows, in order. */
  function Tops(rows: seq<Row>): seq<nat> {
    Lists.Flat(rows, TopOf)
  }

  /** The one plan there is counts the root rows, which are numbered 1 to n. */
  predicate Planned(plans: seq<nat>, tops: seq<nat>) {
    tops != [] && plans == [|tops|] && forall i :: 0 <= i < |tops| ==> tops[i] == i + 1
  }

  function Indices(names: seq<string>, name: string): set<nat> {
    set i | 0 <= i < |names| && names[i] == name
  }

  ghost predicate LineViolates(lines: seq<Line>, e: Violation) {
    match e
    case NonzeroSummary => exists i :: 0 <= i < |lines| && Nonzero(lines[i])
    case Bailout => exists i :: 0 <= i < |lines| && BailsOut(lines[i])
    case _ => false
  }

  ghost predicate RowViolates(rows: seq<Row>, names: seq<string>, expected: seq<string>, e: Violation)
    requires |names| == |rows|
  {
    match e
    case NonPassing(name) => exists i :: 0 <= i < |rows| && names[i] == name && !Passing(rows[i])
    case Unexpected(name) => exists i :: 0 <= i < |rows| && names[i] == name && !Leads(names[i], expected)
    case _ => false
  }

  ghost predicate CountViolates(names: seq<string>, expected: seq<string>, e: Violation) {
    e.CountDiffers? && e.fullName in expected && |Indices(names, e.fullName)| != 1
  }

  /** What is wrong with a report. */
  ghost predicate Violates(lines: seq<Line>, expected: seq<string>, exit: int, version: bool, e: Violation) {
    var rows := Rows(lines);
    || LineViolates(lines, e)
    || RowViolates(rows, FullNames(rows), expected, e)
    || CountViolates(FullNames(rows), expected, e)
    || (e == ProcessExited && exit != 0)
    || (e == BadPlan && !Planned(Plans(lines), Tops(rows)))
    || (e == NoVersion && !version)
  }

  method ReadLines(lines: seq<Line>) returns (rows: seq<Row>, plans: seq<nat>, errors: seq<Violation>)
    ensures rows == Rows(lines) && plans == Plans(lines)
    ensures forall e :: e in errors <==> LineViolates(lines, e)
  {
    rows, plans, errors := [], [], [];
    for i := 0 to |lines|
      invariant rows == Lists.Flat(lines[..i], RowOf) && plans == Lists.Flat(lines[..i], PlanOf)
      invariant forall e :: e in errors <==> LineViolates(lines[..i], e)
    {
      var line := lines[i];
      Lists.FlatNext(lines, i, RowOf);
      Lists.FlatNext(lines, i, PlanOf);
      if Nonzero(line) {
        errors := errors + [NonzeroSummary];
      }
      if BailsOut(line) {
        errors := errors + [Bailout];
      }
      forall e ensures e in errors <==> LineViolates(lines[..i + 1], e) {
        LineViolatesNext(lines, i, e);
      }
      rows := rows + RowOf(line);
      plans := plans + PlanOf(line);
    }
    assert lines[..|lines|] == lines;
  }

  lemma LineViolatesNext(lines: seq<Line>, i: nat, e: Violation)
    requires i < |lines|
    ensures LineViolates(lines[..i + 1], e) <==> (
      || LineViolates(lines[..i], e)
      || (e == NonzeroSummary && Nonzero(lines[i]))
      || (e == Bailout && BailsOut(lines[i])))
  {
    var now, was := lines[..i + 1], lines[..i];
    assert now[i] == lines[i];
    forall j | 0 <= j < i ensures now[j] == was[j] {
    }
    if LineViolates(was, e) {
      if e == NonzeroSummary {
        var j :| 0 <= j < i && Nonzero(was[j]);
        assert Nonzero(now[j]);
      } else {
        var j :| 0 <= j < i && BailsOut(was[j]);
        assert BailsOut(now[j]);
      }
    }
  }

  /** Find whether a name is expected, or leads to an expected name. */
  method FindLead(name: string, expected: seq<string>) returns (leads: bool)
    ensures leads <==> Leads(name, expected)
  {
    leads := name in expected;
    for i := 0 to |expected|
      invariant leads <==> name in expected || exists j :: 0 <= j < i && name + " > " <= expected[j]
    {
      if name + " > " <= expected[i] {
        leads := true;
      }
    }
  }

  method CheckRows(rows: seq<Row>, names: seq<string>, expected: seq<string>) returns (errors: seq<Violation>)
    requires |names| == |rows|
    ensures forall e :: e in errors <==> RowViolates(rows, names, expected, e)
  {
    errors := [];
    for i := 0 to |rows|
      invariant forall e :: e in errors <==> RowViolates(rows[..i], names[..i], expected, e)
    {
      var leads := FindLead(names[i], expected);
      if !Passing(rows[i]) {
        errors := errors + [NonPassing(names[i])];
      }
      if !leads {
        errors := errors + [Unexpected(names[i])];
      }
      forall e ensures e in errors <==> RowViolates(rows[..i + 1], names[..i + 1], expected, e) {
        RowViolatesNext(rows, names, expected, i, e);
      }
    }
    assert rows[..|rows|] == rows && names[..|names|] == names;
  }

  lemma RowViolatesNext(rows: seq<Row>, names: seq<string>, expected: seq<string>, i: nat, e: Violation)
    requires |names| == |rows| && i < |rows|
    ensures RowViolates(rows[..i + 1], names[..i + 1], expected, e) <==> (
      || RowViolates(rows[..i], names[..i], expected, e)
      || (e == NonPassing(names[i]) && !Passing(rows[i]))
      || (e == Unexpected(names[i]) && !Leads(names[i], expected)))
  {
    var now, was := rows[..i + 1], rows[..i];
    var nowNames, wasNames := names[..i + 1], names[..i];
    assert now[i] == rows[i] && nowNames[i] == names[i];
    forall j | 0 <= j < i ensures now[j] == was[j] && nowNames[j] == wasNames[j] {
    }
    if RowViolates(was, wasNames, expected, e) {
      if e.NonPassing? {
        var j :| 0 <= j < i && wasNames[j] == e.fullName && !Passing(was[j]);
        assert nowNames[j] == e.fullName && !Passing(now[j]);
      } else {
        var j :| 0 <= j < i && wasNames[j] == e.fullName && !Leads(wasNames[j], expected);
        assert nowNames[j] == e.fullName;
      }
    }
  }

  lemma IndicesNext(names: seq<string>, i: nat, name: string)
    requires i < |names|
    ensures Indices(names[..i + 1], name) == Indices(names[..i], name) + if names[i] == name then {i} else {}
  {
    forall j | 0 <= j < i ensures names[..i + 1][j] == names[..i][j] {
    }
  }

  /** What an expected name selects: its row if there is exactly one. */
  ghost predicate Selects(rows: seq<Row>, names: seq<string>, name: string, found: Selection)
    requires |names| == |rows|
  {
    match found
    case Missing => Indices(names, name) == {}
    case Duplicate => |Indices(names, name)| > 1
    case Found(row) => exists i :: Indices(names, name) == {i} && row == rows[i]
  }

  /** The row of a name, if it is the only one. */
  method Select(rows: seq<Row>, names: seq<string>, name: string) returns (found: Selection)
    requires |names| == |rows|
    ensures Selects(rows, names, name, found)
  {
    found := Missing;
    ghost var at, seen: set<nat> := 0, {};
    for i := 0 to |rows|
      invariant seen == Indices(names[..i], name) && i !in seen
      invariant found.Missing? ==> seen == {}
      invariant found.Found? ==> at < i && seen == {at} && found.row == rows[at]
      invariant found.Duplicate? ==> |seen| > 1
    {
      IndicesNext(names, i, name);
      if names[i] == name {
        found := if found.Missing? then Found(rows[i]) else Duplicate;
        at, seen := i, seen + {i};
      }
    }
    assert names[..|names|] == names;
    assert found.Found? ==> seen == {at};
  }

  method SelectAll(rows: seq<Row>, names: seq<string>, expected: seq<string>)
      returns (selected: seq<Selection>, errors: seq<Violation>)
    requires |names| == |rows|
    ensures |selected| == |expected|
    ensures forall k :: 0 <= k < |expected| ==> Selects(rows, names, expected[k], selected[k])
    ensures forall e :: e in errors <==> CountViolates(names, expected, e)
  {
    selected, errors := [], [];
    for k := 0 to |expected|
      invariant |selected| == k
      invariant forall j :: 0 <= j < k ==> Selects(rows, names, expected[j], selected[j])
      invariant forall e :: e in errors <==> CountViolates(names, expected[..k], e)
    {
      var found := Select(rows, names, expected[k]);
      selected := selected + [found];
      if !found.Found? {
        errors := errors + [CountDiffers(expected[k])];
      }
      assert forall x :: x in expected[..k + 1] <==> x in expected[..k] || x == expected[k];
    }
    assert expected[..|expected|] == expected;
  }

  ghost predicate Unique(expected: seq<string>) {
    forall i, j :: 0 <= i < j < |expected| ==> expected[i] != expected[j]
  }

  method NumberRoots(rows: seq<Row>) returns (tops: seq<nat>)
    ensures tops == Tops(rows)
  {
    tops := [];
    for i := 0 to |rows|
      invariant tops == Lists.Flat(rows[..i], TopOf)
    {
      Lists.FlatNext(rows, i, TopOf);
      if rows[i].depth == 0 {
        tops := tops + [rows[i].number];
      }
    }
    assert rows[..|rows|] == rows;
  }

  /** The verdict: the errors are exactly what is wrong with the report. */
  method Adjudicate(lines: seq<Line>, expected: seq<string>, exit: int, version: bool)
      returns (verdict: Wrappers.Result<Verdict, string>)
    ensures verdict.Ok? <==> expected != [] && Unique(expected)
    ensures verdict.Ok? ==>
      && verdict.value.fullNames == FullNames(Rows(lines))
      && (verdict.value.ok <==> verdict.value.errors == [])
      && (forall e :: e in verdict.value.errors <==> Violates(lines, expected, exit, version, e))
      && |verdict.value.selected| == |expected|
      && (forall k :: 0 <= k < |expected| ==>
            Selects(Rows(lines), FullNames(Rows(lines)), expected[k], verdict.value.selected[k]))
  {
    var distinct := AllDistinct(expected);
    if expected == [] || !distinct {
      return Err("expected names must be nonempty and unique");
    }
    var rows, plans, errors := ReadLines(lines);
    var names := NameRows(rows);
    var rowErrors := CheckRows(rows, names, expected);
    var selected, countErrors := SelectAll(rows, names, expected);
    var tops := NumberRoots(rows);
    errors := errors + rowErrors + countErrors;
    if exit != 0 {
      errors := errors + [ProcessExited];
    }
    if !Planned(plans, tops) {
      errors := errors + [BadPlan];
    }
    if !version {
      errors := errors + [NoVersion];
    }
    verdict := Ok(Verdict(errors == [], names, selected, errors));
  }

  method AllDistinct(s: seq<string>) returns (distinct: bool)
    ensures distinct <==> Unique(s)
  {
    var seen: set<string> := {};
    for i := 0 to |s|
      invariant Unique(s[..i]) && forall x :: x in seen <==> x in s[..i]
    {
      if s[i] in seen {
        return false;
      }
      seen := seen + {s[i]};
      assert s[..i + 1] == s[..i] + [s[i]];
    }
    assert s[..|s|] == s;
    distinct := true;
  }
}
