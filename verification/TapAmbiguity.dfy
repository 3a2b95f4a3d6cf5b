/** Test names that hold a joint deceive the TAP verdict: scripts/gates/darwin/focused_tap.py. */
module TapAmbiguity {
  import opened Wrappers
  import Lists
  import opened Tap
  import opened TapProofs

  // ------------------------------------------------------------------
  // Cutting a full name at its signs
  // ------------------------------------------------------------------

  /** Where a full name has its joints. */
  ghost predicate JointAt(names: seq<string>, i: nat) {
    exists j :: 0 < j < |names| && i == |Joined(names[..j])| + 1
  }

  ghost predicate OnlyJoints(names: seq<string>) {
    forall i: nat :: SignAt(Joined(names), i) ==> JointAt(names, i)
  }

  lemma {:induction false} JointsGrow(names: seq<string>, j: nat)
    requires 0 < j < |names|
    ensures |Joined(names[..j])| + 3 <= |Joined(names)|
    decreases |names|
  {
    LastSplit(names);
    var up := names[..|names| - 1];
    if j < |up| {
      assert up[..j] == names[..j];
      JointsGrow(up, j);
    }
  }

  /** The joints of a full name: those of its front, and the last one. */
  lemma JointsOf(names: seq<string>, i: nat)
    requires |names| > 1
    ensures var up := names[..|names| - 1];
      JointAt(names, i) <==> JointAt(up, i) || i == |Joined(up)| + 1
  {
    var n := |names| - 1;
    var up := names[..n];
    if JointAt(names, i) {
      var j :| 0 < j < |names| && i == |Joined(names[..j])| + 1;
      assert j < n ==> up[..j] == names[..j];
    }
    if JointAt(up, i) {
      var j :| 0 < j < |up| && i == |Joined(up[..j])| + 1;
      assert names[..j] == up[..j];
    }
  }

  lemma JointInside(names: seq<string>, i: nat)
    requires JointAt(names, i)
    ensures i + 2 <= |Joined(names)|
  {
    var j :| 0 < j < |names| && i == |Joined(names[..j])| + 1;
    JointsGrow(names, j);
  }

  /** The signs of a full name: those of its front, the last joint, and those of its last name. */
  lemma SignsOf(names: seq<string>, i: nat)
    requires |names| > 1
    ensures var up := |Joined(names[..|names| - 1])|; var full := Joined(names);
      SignAt(full, i) <==>
        if i < up then SignAt(Joined(names[..|names| - 1]), i)
        else i == up + 1 || (i >= up + 3 && SignAt(names[|names| - 1], i - up - 3))
  {
    LastSplit(names);
    var up := |Joined(names[..|names| - 1])|;
    if i < up {
      SignInFront(names, i);
    } else if i >= up + 3 {
      SignInLast(names, i - up - 3);
    }
  }

  /**
   * A full name can be cut back into its path at the places where ` > ` stands, an
   * end counting as a space, exactly when none of the names holds one.
   */
  lemma {:induction false} CutIff(names: seq<string>)
    requires names != []
    ensures OnlyJoints(names) <==> Plain(names)
    decreases |names|
  {
    if |names| == 1 {
      OneName(names);
    } else {
      var up, last := names[..|names| - 1], names[|names| - 1];
      CutIff(up);
      if OnlyJoints(names) {
        FrontJoints(names);
        LastJoints(names);
      }
      assert Plain(names) <==> Plain(up) && PlainName(last) by {
        assert names == up + [last];
      }
      if OnlyJoints(up) && PlainName(last) {
        forall i: nat | SignAt(Joined(names), i) ensures JointAt(names, i) {
          SignsOf(names, i);
          JointsOf(names, i);
        }
      }
    }
  }

  lemma OneName(names: seq<string>)
    requires |names| == 1
    ensures OnlyJoints(names) <==> Plain(names)
  {
    assert forall i: nat :: !JointAt(names, i);
    assert Joined(names) == names[0];
  }

  lemma FrontJoints(names: seq<string>)
    requires |names| > 1 && OnlyJoints(names)
    ensures OnlyJoints(names[..|names| - 1])
  {
    var up := names[..|names| - 1];
    forall i: nat | SignAt(Joined(up), i) ensures JointAt(up, i) {
      SignsOf(names, i);
      JointsOf(names, i);
    }
  }

  lemma LastJoints(names: seq<string>)
    requires |names| > 1 && OnlyJoints(names)
    ensures PlainName(names[|names| - 1])
  {
    var up, last := names[..|names| - 1], names[|names| - 1];
    forall k | 0 <= k < |last| ensures !SignAt(last, k) {
      var i := |Joined(up)| + 3 + k;
      if SignAt(last, k) {
        SignsOf(names, i);
        JointsOf(names, i);
        JointInside(up, i);
      }
    }
  }

  // ------------------------------------------------------------------
  // A second path with the same full name
  // ------------------------------------------------------------------

  lemma JoinedTwo(x: string, y: string)
    ensures Joined([x, y]) == x + " > " + y
  {
    assert [x, y][..1] == [x];
  }

  lemma JoinedThree(x: string, y: string, z: string)
    ensures Joined([x, y, z]) == x + " > " + y + " > " + z
  {
    assert [x, y, z][..2] == [x, y];
    JoinedTwo(x, y);
  }

  /**
   * The name with a sign at `k`, alone or with a name `a` above or `b` below it, and
   * the other path that reads the same.
   */
  function Twins(n: string, k: nat, a: string, b: string): (seq<string>, seq<string>)
    requires SignAt(n, k)
  {
    if 0 < k < |n| - 1 then ([n], [n[..k - 1], n[k + 2..]])
    else if k < |n| - 1 then ([a, n], [a + " >", n[2..]])
    else if 0 < k then ([n, b], [n[..k - 1], "> " + b])
    else ([a, n, b], [a + " >", "> " + b])
  }

  lemma Regroups(a: string, b: string)
    ensures a + " > " + ">" + " > " + b == (a + " >") + " > " + ("> " + b)
    ensures a + " > " + ("> " + b) == (a + " >") + " > " + b
    ensures (a + " >") + " > " + b == a + " > " + ("> " + b)
  {
  }

  lemma SplitAtSign(n: string, k: nat)
    requires SignAt(n, k)
    ensures k > 0 ==> n[..k] == n[..k - 1] + " "
    ensures k < |n| - 1 ==> n[k..] == "> " + n[k + 2..]
    ensures n == n[..k] + n[k..]
    ensures k == |n| - 1 ==> n[k..] == ">"
  {
  }

  /** Every name with a sign has such a twin: inside, at the left end, at the right end, or as the whole name. */
  lemma JointIsAmbiguous(n: string, k: nat, a: string, b: string)
    requires SignAt(n, k)
    ensures var (p, q) := Twins(n, k, a, b); n in p && p != q && Joined(p) == Joined(q)
  {
    SplitAtSign(n, k);
    if 0 < k < |n| - 1 {
      JoinedTwo(n[..k - 1], n[k + 2..]);
      assert n == n[..k - 1] + " > " + n[k + 2..];
    } else if k < |n| - 1 {
      JoinedTwo(a, n);
      JoinedTwo(a + " >", n[2..]);
      assert n == "> " + n[2..];
      Regroups(a, n[2..]);
      assert |a| != |a + " >"|;
    } else if 0 < k {
      JoinedTwo(n, b);
      JoinedTwo(n[..k - 1], "> " + b);
      assert n == n[..k - 1] + " >";
      Regroups(n[..k - 1], b);
      assert |n| != |n[..k - 1]|;
    } else {
      JoinedThree(a, n, b);
      JoinedTwo(a + " >", "> " + b);
      assert n == ">";
      Regroups(a, b);
    }
  }

  // ------------------------------------------------------------------
  // The verdict is deceived
  // ------------------------------------------------------------------

  /** Tests one inside the other, with the names of a path. */
  function Stem(p: seq<string>, depth: nat): seq<Tree>
    decreases |p|
  {
    if p == [] then [] else [Node(Row(depth, true, 1, p[0], None), Stem(p[1..], depth + 1))]
  }

  function Report(rows: seq<Row>): seq<Line> {
    if rows == [] then [Other(None, Some(1), false)] else [Line.Result(rows[0])] + Report(rows[1..])
  }

  lemma {:induction false} ReportReads(rows: seq<Row>)
    ensures Rows(Report(rows)) == rows && Plans(Report(rows)) == [1]
    ensures forall i :: 0 <= i < |Report(rows)| ==> !Nonzero(Report(rows)[i]) && !BailsOut(Report(rows)[i])
  {
    if rows == [] {
      Lists.FlatOne(Other(None, Some(1), false), RowOf);
      Lists.FlatOne(Other(None, Some(1), false), PlanOf);
    } else {
      ReportReads(rows[1..]);
      var first := Line.Result(rows[0]);
      Lists.FlatConcat([first], Report(rows[1..]), RowOf);
      Lists.FlatConcat([first], Report(rows[1..]), PlanOf);
      Lists.FlatOne(first, RowOf);
      Lists.FlatOne(first, PlanOf);
    }
  }

  lemma NamesOf(x: seq<Row>, row: Row)
    ensures Names(x + [row]) == Names(x) + [row.name]
  {
  }

  function Top(p: seq<string>, depth: nat): Row
    requires p != []
  {
    Row(depth, true, 1, p[0], None)
  }

  lemma PrintedStem(p: seq<string>, depth: nat)
    requires p != []
    ensures Printed(Stem(p, depth)) == Printed(Stem(p[1..], depth + 1)) + [Top(p, depth)]
  {
    var ts := Stem(p, depth);
    assert ts[1..] == [] && [ts[0].row] + [] == [ts[0].row];
  }

  lemma PathsStem(p: seq<string>, depth: nat, above: seq<Row>)
    requires p != []
    ensures var here := above + [Top(p, depth)];
      Paths(Stem(p, depth), above) == Paths(Stem(p[1..], depth + 1), here) + [here]
  {
    var ts := Stem(p, depth);
    var here := above + [ts[0].row];
    assert ts[1..] == [] && [here] + [] == [here];
  }

  lemma {:induction false} StemForest(p: seq<string>, depth: nat)
    ensures Nested(Stem(p, depth)) && Level(Stem(p, depth))
    decreases |p|
  {
    if p != [] {
      StemForest(p[1..], depth + 1);
      assert Stem(p, depth)[1..] == [];
    }
  }

  lemma {:induction false} StemRows(p: seq<string>, depth: nat)
    ensures var rows := Printed(Stem(p, depth));
      && |rows| == |p| && (forall i :: 0 <= i < |p| ==> Passing(rows[i]))
      && Tops(rows) == if p != [] && depth == 0 then [1] else []
    decreases |p|
  {
    if p != [] {
      PrintedStem(p, depth);
      StemRows(p[1..], depth + 1);
      Lists.FlatSnoc(Printed(Stem(p[1..], depth + 1)), Top(p, depth), TopOf);
    }
  }

  /** The test printed as number `k` is the path without its last `k` names. */
  lemma {:induction false} StemPaths(p: seq<string>, depth: nat, above: seq<Row>, k: nat)
    requires k < |p|
    ensures |Paths(Stem(p, depth), above)| == |p|
    ensures Names(Paths(Stem(p, depth), above)[k]) == Names(above) + p[..|p| - k]
    decreases |p|
  {
    var row := Top(p, depth);
    var here := above + [row];
    var inner := Paths(Stem(p[1..], depth + 1), here);
    PathsStem(p, depth, above);
    StemCount(p[1..], depth + 1, here);
    NamesOf(above, row);
    if k < |p| - 1 {
      StemPaths(p[1..], depth + 1, here, k);
      Onward(Names(above), p, k);
      assert (inner + [here])[k] == inner[k];
    } else {
      assert p[..1] == [p[0]] && (inner + [here])[k] == here;
    }
  }

  lemma Onward(x: seq<string>, p: seq<string>, k: nat)
    requires k + 1 < |p|
    ensures x + [p[0]] + p[1..][..|p| - 1 - k] == x + p[..|p| - k]
  {
  }

  lemma StemCount(p: seq<string>, depth: nat, above: seq<Row>)
    ensures |Paths(Stem(p, depth), above)| == |p|
  {
    PathsSize(Stem(p, depth), above);
    StemRows(p, depth);
  }

  lemma StemNames(p: seq<string>, k: nat)
    requires k < |p|
    ensures |FullNames(Printed(Stem(p, 0)))| == |p|
    ensures FullNames(Printed(Stem(p, 0)))[k] == Joined(p[..|p| - k])
  {
    var ts := Stem(p, 0);
    StemForest(p, 0);
    StemRows(p, 0);
    ForestReadRight(ts);
    FullNamesAre(Printed(ts), k);
    StemPaths(p, 0, [], k);
    assert Names([]) + p[..|p| - k] == p[..|p| - k];
  }

  lemma Shorter(p: seq<string>, k: nat)
    requires 0 < k < |p|
    ensures var up := p[..|p| - k]; Joined(up) + " > " <= Joined(p) && Joined(up) != Joined(p)
  {
    AncestorPrefix(p[..|p| - k], p);
  }

  /** Every test on the way leads to the wanted name, and only the last one has it. */
  lemma StemLeads(p: seq<string>, k: nat)
    requires k < |p|
    ensures var name := Joined(p[..|p| - k]); Leads(name, [Joined(p)]) && (name == Joined(p) <==> k == 0)
  {
    if k == 0 {
      assert p[..|p|] == p;
    } else {
      Shorter(p, k);
      assert [Joined(p)][0] == Joined(p);
    }
  }

  /** The report of the one path is clean when the other one is wanted, which is not there. */
  lemma TwinsDeceive(p: seq<string>, q: seq<string>)
    requires p != [] && q != [] && p != q && Joined(p) == Joined(q)
    ensures var ts := Stem(p, 0); var lines := Report(Printed(ts));
      && Rows(lines) == Printed(ts) && Nested(ts) && Level(ts)
      && Clean(lines, JoinedAll([q]), 0, true) && !Appears(ts, q)
  {
    var rows := Printed(Stem(p, 0));
    StemForest(p, 0);
    StemRows(p, 0);
    ReportReads(rows);
    forall k | 0 <= k < |p|
      ensures Leads(FullNames(rows)[k], [Joined(p)]) && (FullNames(rows)[k] == Joined(p) <==> k == 0)
    {
      StemNames(p, k);
      StemLeads(p, k);
    }
    assert JoinedAll([q]) == [Joined(p)];
    OneWantedIsClean(rows, Joined(p));
    TwinMissing(p, q);
  }

  lemma OneWantedIsClean(rows: seq<Row>, full: string)
    requires rows != [] && Tops(rows) == [1] && Rows(Report(rows)) == rows && Plans(Report(rows)) == [1]
    requires forall i :: 0 <= i < |Report(rows)| ==> !Nonzero(Report(rows)[i]) && !BailsOut(Report(rows)[i])
    requires forall k :: 0 <= k < |rows| ==> Passing(rows[k])
    requires forall k :: 0 <= k < |rows| ==>
      Leads(FullNames(rows)[k], [full]) && (FullNames(rows)[k] == full <==> k == 0)
    ensures Clean(Report(rows), [full], 0, true)
  {
    assert Indices(FullNames(rows), full) == {0};
    CleanIff(Report(rows), [full], 0, true);
  }

  lemma TwinMissing(p: seq<string>, q: seq<string>)
    requires p != [] && q != [] && p != q && Joined(p) == Joined(q)
    ensures !Appears(Stem(p, 0), q)
  {
    PathsSize(Stem(p, 0), []);
    StemRows(p, 0);
    forall i: nat ensures !Is(Stem(p, 0), i, q) {
      if i < |p| {
        StemPaths(p, 0, [], i);
        assert Names([]) + p[..|p| - i] == p[..|p| - i];
        if i > 0 { Shorter(p, i); } else { assert p[..|p|] == p; }
      }
    }
  }

  /**
   * For every name that holds a joint there is a report of a proper forest with a
   * test of that name that is clean although the one wanted test is not there.
   */
  lemma JointDeceives(n: string)
    requires !PlainName(n)
    ensures exists ts: seq<Tree>, q: seq<string>, lines: seq<Line> ::
      && Nested(ts) && Level(ts) && n in Names(Printed(ts)) && Rows(lines) == Printed(ts)
      && Clean(lines, JoinedAll([q]), 0, true) && !Appears(ts, q)
  {
    var k :| 0 <= k < |n| && SignAt(n, k);
    var (p, q) := Twins(n, k, "a", "b");
    JointIsAmbiguous(n, k, "a", "b");
    TwinsDeceive(p, q);
    StemHolds(p, 0, n);
    assert n in Names(Printed(Stem(p, 0))) && Rows(Report(Printed(Stem(p, 0)))) == Printed(Stem(p, 0));
  }

  lemma {:induction false} StemHolds(p: seq<string>, depth: nat, n: string)
    requires n in p
    ensures n in Names(Printed(Stem(p, depth)))
    decreases |p|
  {
    var inner := Printed(Stem(p[1..], depth + 1));
    PrintedStem(p, depth);
    NamesOf(inner, Top(p, depth));
    if n == p[0] {
      assert (Names(inner) + [n])[|inner|] == n;
    } else {
      StemHolds(p[1..], depth + 1, n);
    }
  }
}
