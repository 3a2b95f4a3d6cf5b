/** What a clean TAP report proves about a forest of tests: scripts/gates/darwin/focused_tap.py. */
module TapProofs {
  import opened Tap

  // ------------------------------------------------------------------
  // Forests
  // ------------------------------------------------------------------

  datatype Tree = Node(row: Row, children: seq<Tree>)

  /** The report of a forest: children before their parent. */
  function Printed(ts: seq<Tree>): seq<Row> {
    if ts == [] then [] else Printed(ts[0].children) + ([ts[0].row] + Printed(ts[1..]))
  }

  /** Children are indented deeper than their parent. */
  ghost predicate Nested(ts: seq<Tree>) {
    ts == [] || (
      && (forall i :: 0 <= i < |ts[0].children| ==> ts[0].children[i].row.depth > ts[0].row.depth)
      && Nested(ts[0].children) && Nested(ts[1..]))
  }

  /** Among siblings, no later one is indented less. */
  ghost predicate Level(ts: seq<Tree>) {
    ts == [] || (
      && (forall i :: 0 <= i < |ts| ==> ts[0].row.depth <= ts[i].row.depth)
      && Level(ts[0].children) && Level(ts[1..]))
  }

  /** The way from the root to each node, in the order of the report. */
  function Paths(ts: seq<Tree>, above: seq<Row>): seq<seq<Row>> {
    if ts == [] then []
    else Paths(ts[0].children, above + [ts[0].row]) + ([above + [ts[0].row]] + Paths(ts[1..], above))
  }

  function Chains(rows: seq<Row>): (chains: seq<seq<Row>>)
    ensures |chains| == |rows|
  {
    if rows == [] then [] else [Chain(rows)] + Chains(rows[1..])
  }

  ghost predicate DeeperThan(ts: seq<Tree>, rest: seq<Row>) {
    rest == [] || forall i :: 0 <= i < |ts| ==> ts[i].row.depth > rest[0].depth
  }

  ghost predicate AtLeast(rows: seq<Row>, depth: nat) {
    forall i :: 0 <= i < |rows| ==> rows[i].depth >= depth
  }

  lemma AtLeastConcat(x: seq<Row>, y: seq<Row>, depth: nat)
    ensures AtLeast(x + y, depth) <==> AtLeast(x, depth) && AtLeast(y, depth)
  {
    forall i | 0 <= i < |y| ensures (x + y)[|x| + i] == y[i] {
    }
    if AtLeast(x + y, depth) {
      assert forall i :: 0 <= i < |x| ==> (x + y)[i] == x[i];
    }
  }

  /** A forest whose roots are at least so deep is at least so deep. */
  lemma {:induction false} PrintedDeep(ts: seq<Tree>, depth: nat)
    requires Nested(ts) && forall i :: 0 <= i < |ts| ==> ts[i].row.depth >= depth
    ensures AtLeast(Printed(ts), depth)
  {
    if ts != [] {
      PrintedDeep(ts[0].children, depth);
      PrintedDeep(ts[1..], depth);
      AtLeastConcat([ts[0].row], Printed(ts[1..]), depth);
      AtLeastConcat(Printed(ts[0].children), [ts[0].row] + Printed(ts[1..]), depth);
    }
  }

  /** The way up passes over rows that are deep enough. */
  lemma {:induction false} RiseOver(rows: seq<Row>, rest: seq<Row>, depth: nat)
    requires AtLeast(rows, depth)
    ensures Rise(rows + rest, depth) == Rise(rest, depth)
  {
    if rows == [] {
      assert rows + rest == rest;
    } else {
      assert (rows + rest)[1..] == rows[1..] + rest;
      assert AtLeast(rows[1..], depth);
      RiseOver(rows[1..], rest, depth);
    }
  }

  lemma {:induction false} ChainsConcat(x: seq<Row>, y: seq<Row>)
    ensures Chains(x + y)[|x|..] == Chains(y)
  {
    if x == [] {
      assert x + y == y;
    } else {
      assert (x + y)[1..] == x[1..] + y;
      ChainsConcat(x[1..], y);
      assert Chains(x + y)[|x|..] == Chains(x[1..] + y)[|x| - 1..];
    }
  }

  lemma {:induction false} PathsSize(ts: seq<Tree>, above: seq<Row>)
    ensures |Paths(ts, above)| == |Printed(ts)|
  {
    if ts != [] {
      PathsSize(ts[0].children, above + [ts[0].row]);
      PathsSize(ts[1..], above);
    }
  }

  /** The root of a level forest has the way of what follows the forest above it. */
  lemma RootChain(t: Tree, us: seq<Tree>, rest: seq<Row>)
    requires Nested(us) && DeeperThan([t] + us, rest) && forall i :: 0 <= i < |us| ==> t.row.depth <= us[i].row.depth
    ensures Chain([t.row] + (Printed(us) + rest)) == Chain(rest) + [t.row]
  {
    var rows := [t.row] + (Printed(us) + rest);
    assert rows[1..] == Printed(us) + rest;
    PrintedDeep(us, t.row.depth);
    RiseOver(Printed(us), rest, t.row.depth);
    assert ([t] + us)[0] == t;
  }

  /** The reverse scan finds every path of a nested and level forest. */
  lemma {:induction false} ForestChains(ts: seq<Tree>, rest: seq<Row>)
    requires Nested(ts) && Level(ts) && DeeperThan(ts, rest)
    ensures Chains(Printed(ts) + rest) == Paths(ts, Chain(rest)) + Chains(rest)
    decreases ts
  {
    if ts == [] {
      assert Printed(ts) + rest == rest;
    } else {
      var t, us := ts[0], ts[1..];
      var later := [t.row] + (Printed(us) + rest);
      assert ts == [t] + us;
      RootChain(t, us, rest);
      ForestChains(t.children, later);
      ForestChains(us, rest);
      assert later[1..] == Printed(us) + rest;
      PrintedSplit(t, us, rest);
      PathsSplit(Paths(t.children, Chain(rest) + [t.row]), Chain(rest) + [t.row], Paths(us, Chain(rest)), Chains(rest));
    }
  }

  lemma PrintedSplit(t: Tree, us: seq<Tree>, rest: seq<Row>)
    ensures Printed([t] + us) + rest == Printed(t.children) + ([t.row] + (Printed(us) + rest))
  {
    assert ([t] + us)[1..] == us;
  }

  lemma PathsSplit<T>(a: seq<T>, b: T, c: seq<T>, d: seq<T>)
    ensures a + ([b] + (c + d)) == a + ([b] + c) + d
  {
  }

  // ------------------------------------------------------------------
  // Only level forests are read right
  // ------------------------------------------------------------------

  lemma {:induction false} PathsLonger(ts: seq<Tree>, above: seq<Row>, k: nat)
    requires k < |Paths(ts, above)|
    ensures |Paths(ts, above)[k]| > |above|
  {
    if ts != [] {
      var inner := Paths(ts[0].children, above + [ts[0].row]);
      if k < |inner| {
        PathsLonger(ts[0].children, above + [ts[0].row], k);
      } else if k > |inner| {
        PathsLonger(ts[1..], above, k - |inner| - 1);
      }
    }
  }

  lemma {:induction false} ChainsAt(rows: seq<Row>, k: nat)
    requires k < |rows|
    ensures Chains(rows)[k] == Chain(rows[k..])
  {
    if k > 0 {
      ChainsAt(rows[1..], k - 1);
      assert rows[1..][k - 1..] == rows[k..];
    } else {
      assert rows[0..] == rows;
    }
  }

  /** A row shallow enough stops the way up. */
  lemma {:induction false} RiseStops(rows: seq<Row>, rest: seq<Row>, depth: nat)
    requires !AtLeast(rows, depth)
    ensures exists k :: 0 <= k < |rows| && Rise(rows + rest, depth) == (rows + rest)[k..]
  {
    var all := rows + rest;
    if rows[0].depth < depth {
      assert all[0..] == all;
    } else {
      assert all[1..] == rows[1..] + rest;
      assert AtLeast([rows[0]] + rows[1..], depth) <==> AtLeast(rows[1..], depth) by {
        AtLeastConcat([rows[0]], rows[1..], depth);
      }
      assert [rows[0]] + rows[1..] == rows;
      RiseStops(rows[1..], rest, depth);
      var k :| 0 <= k < |rows| - 1 && Rise(all[1..], depth) == all[1..][k..];
      assert all[1..][k..] == all[k + 1..];
    }
  }

  lemma {:induction false} RootPrinted(ts: seq<Tree>, i: nat)
    requires i < |ts|
    ensures ts[i].row in Printed(ts)
  {
    if i > 0 { RootPrinted(ts[1..], i - 1); }
  }

  /** A root whose chain is the way of what follows is no deeper than its later siblings. */
  lemma RootIsLeast(t: Tree, us: seq<Tree>, rest: seq<Row>)
    requires Chain([t.row] + (Printed(us) + rest)) == Chain(rest) + [t.row]
    requires Chains(Printed(us) + rest) == Paths(us, Chain(rest)) + Chains(rest)
    ensures forall i :: 0 <= i < |us| ==> t.row.depth <= us[i].row.depth
  {
    var later := Printed(us) + rest;
    var up := Rise(later, t.row.depth);
    assert ([t.row] + later)[1..] == later;
    assert Chain(up) == Chain(rest) by {
      assert (Chain(up) + [t.row])[..|Chain(up)|] == Chain(up);
      assert (Chain(rest) + [t.row])[..|Chain(rest)|] == Chain(rest);
    }
    PathsSize(us, Chain(rest));
    if !AtLeast(Printed(us), t.row.depth) {
      RiseStops(Printed(us), rest, t.row.depth);
      var k :| 0 <= k < |Printed(us)| && up == later[k..];
      ChainsAt(later, k);
      PathsLonger(us, Chain(rest), k);
      assert false;
    }
    forall i | 0 <= i < |us| ensures t.row.depth <= us[i].row.depth {
      RootPrinted(us, i);
    }
  }

  /** The chains of a forest, split at its first tree. */
  lemma ChainsSplit(t: Tree, us: seq<Tree>, rest: seq<Row>)
    requires Chains(Printed([t] + us) + rest) == Paths([t] + us, Chain(rest)) + Chains(rest)
    ensures var later := [t.row] + (Printed(us) + rest);
      && Chain(later) == Chain(rest) + [t.row]
      && Chains(Printed(us) + rest) == Paths(us, Chain(rest)) + Chains(rest)
      && Chains(Printed(t.children) + later) == Paths(t.children, Chain(later)) + Chains(later)
  {
    var later := [t.row] + (Printed(us) + rest);
    var inner := Printed(t.children);
    var paths, mine := Paths(t.children, Chain(rest) + [t.row]), Chain(rest) + [t.row];
    assert ([t] + us)[1..] == us;
    PrintedSplit(t, us, rest);
    var all := Chains(inner + later);
    PathsSize(t.children, mine);
    PathsSplit(paths, mine, Paths(us, Chain(rest)), Chains(rest));
    assert all == paths + ([mine] + (Paths(us, Chain(rest)) + Chains(rest)));
    ChainsConcat(inner, later);
    assert Chains(later) == all[|inner|..] == [mine] + (Paths(us, Chain(rest)) + Chains(rest));
    assert later[1..] == Printed(us) + rest;
    assert Chains(later) == [Chain(later)] + Chains(Printed(us) + rest);
    assert Chains(later)[0] == mine;
    assert Chains(later)[1..] == Paths(us, Chain(rest)) + Chains(rest);
    assert Chains(later)[1..] == Chains(Printed(us) + rest);
  }

  lemma LevelCons(t: Tree, us: seq<Tree>)
    requires Level(t.children) && Level(us) && forall i :: 0 <= i < |us| ==> t.row.depth <= us[i].row.depth
    ensures Level([t] + us)
  {
    assert ([t] + us)[1..] == us;
    assert forall i :: 0 < i < |us| + 1 ==> ([t] + us)[i] == us[i - 1];
  }

  lemma {:induction false} ChainsForceLevel(ts: seq<Tree>, rest: seq<Row>)
    requires Nested(ts) && DeeperThan(ts, rest)
    requires Chains(Printed(ts) + rest) == Paths(ts, Chain(rest)) + Chains(rest)
    ensures Level(ts)
    decreases ts
  {
    if ts != [] {
      var t, us := ts[0], ts[1..];
      assert ts == [t] + us;
      ChainsSplit(t, us, rest);
      ChainsForceLevel(t.children, [t.row] + (Printed(us) + rest));
      ChainsForceLevel(us, rest);
      RootIsLeast(t, us, rest);
      LevelCons(t, us);
    }
  }

  /**
   * The reverse scan gives every row of a report printed children first, children
   * indented deeper, its path from the root, exactly when no sibling is indented
   * less than an earlier one.
   */
  lemma ForestReadRight(ts: seq<Tree>)
    requires Nested(ts)
    ensures Chains(Printed(ts)) == Paths(ts, []) <==> Level(ts)
  {
    var rest: seq<Row> := Printed(ts)[..0];
    assert Printed(ts) + rest == Printed(ts);
    assert Paths(ts, Chain(rest)) + Chains(rest) == Paths(ts, []);
    if Level(ts) {
      ForestChains(ts, rest);
    }
    if Chains(Printed(ts)) == Paths(ts, []) {
      ChainsForceLevel(ts, rest);
    }
  }

  // ------------------------------------------------------------------
  // Names
  // ------------------------------------------------------------------

  /** A `>` with a space or an end on either side: in a full name it is, or reads as, a joint. */
  predicate SignAt(s: string, i: nat) {
    i < |s| && s[i] == '>' && (i == 0 || s[i - 1] == ' ') && (i + 1 == |s| || s[i + 1] == ' ')
  }

  /** A name in which no ` > ` occurs, also not together with the joints around it. */
  predicate PlainName(name: string) {
    forall i :: 0 <= i < |name| ==> !SignAt(name, i)
  }

  ghost predicate Plain(names: seq<string>) {
    forall i :: 0 <= i < |names| ==> PlainName(names[i])
  }

  /** Where the last joint is, and how the name splits there. */
  lemma LastSplit(names: seq<string>)
    requires |names| > 1
    ensures var up := Joined(names[..|names| - 1]); var full, at := Joined(names), |up| + 1;
      && at + 2 <= |full| && full[..at - 1] == up && full[at + 2..] == names[|names| - 1]
      && full[at - 1] == ' ' && full[at] == '>' && full[at + 1] == ' ' && SignAt(full, at)
  {
  }

  /** A sign behind the last joint is one of the last name, and the other way round. */
  lemma SignInLast(names: seq<string>, k: nat)
    requires |names| > 1
    ensures var at := |Joined(names[..|names| - 1])| + 1;
      SignAt(Joined(names), at + 2 + k) <==> SignAt(names[|names| - 1], k)
  {
    LastSplit(names);
    var full, last, from := Joined(names), names[|names| - 1], |Joined(names[..|names| - 1])| + 3;
    assert |full| == from + |last|;
    assert forall j :: 0 <= j < |last| ==> full[from + j] == full[from..][j] == last[j];
  }

  /** The last joint of a full name: after it there is no other sign. */
  lemma LastJoint(names: seq<string>)
    requires |names| > 1 && PlainName(names[|names| - 1])
    ensures var at := |Joined(names[..|names| - 1])| + 1; forall i :: at < i < |Joined(names)| ==> !SignAt(Joined(names), i)
  {
    LastSplit(names);
    var at := |Joined(names[..|names| - 1])| + 1;
    forall i | at < i < |Joined(names)| ensures !SignAt(Joined(names), i) {
      if i > at + 1 { SignInLast(names, i - at - 2); }
    }
  }

  lemma {:induction false} JoinedInjective(p: seq<string>, q: seq<string>)
    requires Plain(p) && Plain(q) && p != [] && q != [] && Joined(p) == Joined(q)
    ensures p == q
    decreases |p|
  {
    if |p| > 1 && |q| > 1 {
      LastSplit(p);
      LastSplit(q);
      LastJoint(p);
      LastJoint(q);
      JoinedInjective(p[..|p| - 1], q[..|q| - 1]);
      assert p == p[..|p| - 1] + [p[|p| - 1]] && q == q[..|q| - 1] + [q[|q| - 1]];
    } else if |p| > 1 {
      LastSplit(p);
      assert false;
    } else if |q| > 1 {
      LastSplit(q);
      assert false;
    }
  }

  /** A full name of plain names never ends in a sign. */
  lemma EndsPlain(names: seq<string>)
    requires Plain(names) && names != []
    ensures var full := Joined(names); full != [] ==> !SignAt(full, |full| - 1)
  {
    if |names| > 1 {
      LastSplit(names);
      LastJoint(names);
    }
  }

  /** A sign that has room before the last joint is one of the front. */
  lemma SignInFront(names: seq<string>, i: nat)
    requires |names| > 1 && i + 1 <= |Joined(names[..|names| - 1])|
    ensures SignAt(Joined(names), i) <==> SignAt(Joined(names[..|names| - 1]), i)
  {
    LastSplit(names);
    var full, up := Joined(names), Joined(names[..|names| - 1]);
    assert forall j :: 0 <= j < |up| ==> full[j] == full[..|up|][j] == up[j];
  }

  /** A full name and a joint begin another full name only when they name an ancestor. */
  lemma {:induction false} JoinedPrefix(p: seq<string>, q: seq<string>)
    requires Plain(p) && Plain(q) && p != [] && q != [] && Joined(p) + " > " <= Joined(q)
    ensures p < q
    decreases |q|
  {
    var full, head, a := Joined(q), Joined(p) + " > ", |Joined(p)| + 1;
    assert full[a - 1] == head[a - 1] && full[a] == head[a] && full[a + 1] == head[a + 1];
    assert SignAt(full, a);
    if |q| == 1 {
      assert false;
    } else {
      var up := q[..|q| - 1];
      var b := |Joined(up)| + 1;
      LastSplit(q);
      LastJoint(q);
      if a == b {
        assert Joined(p) == full[..a - 1] == Joined(up);
        JoinedInjective(p, up);
      } else {
        SignInFront(q, a);
        EndsPlain(up);
        assert Joined(p) + " > " == full[..a + 2] == Joined(up)[..a + 2];
        JoinedPrefix(p, up);
      }
    }
  }

  /** An ancestor's full name and a joint begin the full name. */
  lemma {:induction false} AncestorPrefix(p: seq<string>, q: seq<string>)
    requires p != [] && p < q
    ensures Joined(p) + " > " <= Joined(q)
    decreases |q|
  {
    var up := q[..|q| - 1];
    if |p| == |up| {
      assert p == up;
    } else {
      assert p < up;
      AncestorPrefix(p, up);
    }
  }

  // ------------------------------------------------------------------
  // The verdict
  // ------------------------------------------------------------------

  /** A clean report: nothing is wrong with it. */
  ghost predicate Clean(lines: seq<Line>, expected: seq<string>, exit: int, version: bool) {
    forall e :: !Violates(lines, expected, exit, version, e)
  }

  /**
   * A report is clean exactly when the process exited with 0, every row passes and
   * has an expected name or one that leads to it, every expected name has exactly
   * one row, and the root rows are numbered 1 to n as planned.
   */
  lemma CleanIff(lines: seq<Line>, expected: seq<string>, exit: int, version: bool)
    ensures var rows := Rows(lines); var names := FullNames(rows);
      Clean(lines, expected, exit, version) <==> (
        && exit == 0 && version && Planned(Plans(lines), Tops(rows))
        && (forall i :: 0 <= i < |lines| ==> !Nonzero(lines[i]) && !BailsOut(lines[i]))
        && (forall i :: 0 <= i < |rows| ==> Passing(rows[i]) && Leads(names[i], expected))
        && (forall name :: name in expected ==> |Indices(names, name)| == 1))
  {
    var rows := Rows(lines);
    var names := FullNames(rows);
    if Clean(lines, expected, exit, version) {
      assert !Violates(lines, expected, exit, version, ProcessExited);
      assert !Violates(lines, expected, exit, version, BadPlan);
      assert !Violates(lines, expected, exit, version, NoVersion);
      forall i | 0 <= i < |lines| ensures !Nonzero(lines[i]) && !BailsOut(lines[i]) {
        assert !Violates(lines, expected, exit, version, NonzeroSummary);
        assert !Violates(lines, expected, exit, version, Bailout);
      }
      forall i | 0 <= i < |rows| ensures Passing(rows[i]) && Leads(names[i], expected) {
        assert !Violates(lines, expected, exit, version, NonPassing(names[i]));
        assert !Violates(lines, expected, exit, version, Unexpected(names[i]));
      }
      forall name | name in expected ensures |Indices(names, name)| == 1 {
        assert !Violates(lines, expected, exit, version, CountDiffers(name));
      }
    }
  }

  function JoinedAll(paths: seq<seq<string>>): seq<string> {
    seq(|paths|, i requires 0 <= i < |paths| => Joined(paths[i]))
  }

  lemma {:induction false} FullNamesAre(rows: seq<Row>, i: nat)
    requires i < |rows|
    ensures FullNames(rows)[i] == Joined(Names(Chains(rows)[i]))
  {
    if i > 0 { FullNamesAre(rows[1..], i - 1); }
  }

  /** The node with number `i` is the test `path`. */
  predicate Is(ts: seq<Tree>, i: nat, path: seq<string>) {
    i < |Paths(ts, [])| && Names(Paths(ts, [])[i]) == path
  }

  ghost predicate Appears(ts: seq<Tree>, path: seq<string>) {
    exists i: nat :: Is(ts, i, path)
  }

  lemma {:induction false} PathsPlain(ts: seq<Tree>, above: seq<Row>, i: nat)
    requires i < |Paths(ts, above)| && Plain(Names(Printed(ts))) && Plain(Names(above))
    ensures Plain(Names(Paths(ts, above)[i])) && Paths(ts, above)[i] != []
    decreases ts
  {
    if ts != [] {
      var t, us := ts[0], ts[1..];
      var inner, here := Printed(t.children), [t.row] + Printed(us);
      PlainConcat(inner, here);
      PlainConcat([t.row], Printed(us));
      PlainConcat(above, [t.row]);
      var paths := Paths(t.children, above + [t.row]);
      if i < |paths| {
        PathsPlain(t.children, above + [t.row], i);
      } else if i > |paths| {
        PathsPlain(us, above, i - |paths| - 1);
      }
    }
  }

  lemma PlainConcat(x: seq<Row>, y: seq<Row>)
    ensures Plain(Names(x + y)) <==> Plain(Names(x)) && Plain(Names(y))
  {
    var n := Names(x + y);
    assert n == Names(x) + Names(y);
    forall i | 0 <= i < |y| ensures n[|x| + i] == Names(y)[i] {
    }
    forall i | 0 <= i < |x| ensures n[i] == Names(x)[i] {
    }
  }

  /** On a forest read right, the full name of a row is that of its path. */
  lemma FullNameOfPath(ts: seq<Tree>, i: nat)
    requires Nested(ts) && Level(ts) && Plain(Names(Printed(ts))) && i < |Printed(ts)|
    ensures i < |Paths(ts, [])| && FullNames(Printed(ts))[i] == Joined(Names(Paths(ts, [])[i]))
    ensures Plain(Names(Paths(ts, [])[i])) && Names(Paths(ts, [])[i]) != []
  {
    ForestReadRight(ts);
    PathsSize(ts, []);
    FullNamesAre(Printed(ts), i);
    PathsPlain(ts, [], i);
  }

  /** A forest of tests with names that hold no joint, read right, and the paths wanted of it. */
  ghost predicate Readable(ts: seq<Tree>, wanted: seq<seq<string>>) {
    && Nested(ts) && Level(ts) && Plain(Names(Printed(ts)))
    && forall k :: 0 <= k < |wanted| ==> wanted[k] != [] && Plain(wanted[k])
  }

  /** Every wanted test is there exactly once. */
  ghost predicate EachOnce(ts: seq<Tree>, wanted: seq<seq<string>>) {
    && (forall k :: 0 <= k < |wanted| ==> Appears(ts, wanted[k]))
    && (forall k, i: nat, j: nat :: 0 <= k < |wanted| && Is(ts, i, wanted[k]) && Is(ts, j, wanted[k]) ==> i == j)
  }

  /** Every test there is wanted or above a wanted one. */
  ghost predicate NoStranger(ts: seq<Tree>, wanted: seq<seq<string>>) {
    forall i :: 0 <= i < |Paths(ts, [])| ==> exists k :: 0 <= k < |wanted| && Names(Paths(ts, [])[i]) <= wanted[k]
  }

  lemma CountsEachOnce(ts: seq<Tree>, wanted: seq<seq<string>>)
    requires Readable(ts, wanted)
    requires forall k :: 0 <= k < |wanted| ==> |Indices(FullNames(Printed(ts)), Joined(wanted[k]))| == 1
    ensures EachOnce(ts, wanted)
  {
    forall k | 0 <= k < |wanted| ensures Appears(ts, wanted[k]) {
      WantedFound(ts, wanted, k);
    }
    forall k, i: nat, j: nat | 0 <= k < |wanted| && Is(ts, i, wanted[k]) && Is(ts, j, wanted[k]) ensures i == j {
      WantedOnce(ts, wanted, k, i, j);
    }
  }

  /**
   * A clean report of a forest: every test passed, every wanted test is there
   * exactly once, and every test there is wanted or above a wanted one.
   */
  lemma CleanForest(lines: seq<Line>, ts: seq<Tree>, wanted: seq<seq<string>>, exit: int, version: bool)
    requires Clean(lines, JoinedAll(wanted), exit, version) && Rows(lines) == Printed(ts) && Readable(ts, wanted)
    ensures forall i :: 0 <= i < |Printed(ts)| ==> Passing(Printed(ts)[i])
    ensures EachOnce(ts, wanted) && NoStranger(ts, wanted)
  {
    var expected, names := JoinedAll(wanted), FullNames(Printed(ts));
    CleanIff(lines, expected, exit, version);
    forall k | 0 <= k < |wanted| ensures |Indices(names, Joined(wanted[k]))| == 1 {
      assert expected[k] in expected;
    }
    CountsEachOnce(ts, wanted);
    PathsSize(ts, []);
    forall i | 0 <= i < |Paths(ts, [])| ensures exists k :: 0 <= k < |wanted| && Names(Paths(ts, [])[i]) <= wanted[k] {
      LeadsToWanted(ts, wanted, i);
    }
  }

  lemma WantedFound(ts: seq<Tree>, wanted: seq<seq<string>>, k: nat)
    requires Readable(ts, wanted) && k < |wanted|
    requires |Indices(FullNames(Printed(ts)), Joined(wanted[k]))| == 1
    ensures Appears(ts, wanted[k])
  {
    var at := Indices(FullNames(Printed(ts)), Joined(wanted[k]));
    var i :| i in at;
    FullNameOfPath(ts, i);
    JoinedInjective(Names(Paths(ts, [])[i]), wanted[k]);
    assert Is(ts, i, wanted[k]);
  }

  lemma WantedOnce(ts: seq<Tree>, wanted: seq<seq<string>>, k: nat, i: nat, j: nat)
    requires Readable(ts, wanted) && k < |wanted|
    requires |Indices(FullNames(Printed(ts)), Joined(wanted[k]))| == 1
    requires Is(ts, i, wanted[k]) && Is(ts, j, wanted[k])
    ensures i == j
  {
    var at := Indices(FullNames(Printed(ts)), Joined(wanted[k]));
    PathsSize(ts, []);
    FullNameOfPath(ts, i);
    FullNameOfPath(ts, j);
    assert i in at && j in at;
    OnlyMember(at, i, j);
  }

  lemma OnlyMember(s: set<nat>, i: nat, j: nat)
    requires |s| == 1 && i in s && j in s
    ensures i == j
  {
    var others := s - {i};
    assert |others| == 0;
    assert others == {} && j !in others;
  }

  lemma LeadsToWanted(ts: seq<Tree>, wanted: seq<seq<string>>, i: nat)
    requires Readable(ts, wanted) && i < |Printed(ts)|
    requires Leads(FullNames(Printed(ts))[i], JoinedAll(wanted))
    ensures i < |Paths(ts, [])| && exists k :: 0 <= k < |wanted| && Names(Paths(ts, [])[i]) <= wanted[k]
  {
    var expected, name := JoinedAll(wanted), FullNames(Printed(ts))[i];
    FullNameOfPath(ts, i);
    var path := Names(Paths(ts, [])[i]);
    if name in expected {
      var k :| 0 <= k < |expected| && expected[k] == name;
      JoinedInjective(path, wanted[k]);
      assert path <= wanted[k];
    } else {
      var k :| 0 <= k < |expected| && name + " > " <= expected[k];
      JoinedPrefix(path, wanted[k]);
      assert path <= wanted[k];
    }
  }
}
