/** Which processes a requester may signal: scripts/gates/darwin/focused_signal.py. */
module Signals {
  import opened Wrappers

  /** A process birth as recorded: pid, parent pid and start time. */
  datatype Birth = Birth(pid: int, parent: int, started: string)

  datatype SignalError = NonDescendant | AmbiguousBirth | ForeignMember

  function Get(m: map<int, Birth>, pid: int): Option<Birth> {
    if pid in m then Some(m[pid]) else None
  }

  /** What the walk reads: the retained births by pid, the approved launches and the current births. */
  datatype Table = Table(byPid: map<int, Birth>, approved: map<int, Birth>, current: map<int, Birth>)

  // ------------------------------------------------------------------
  // Ancestry
  // ------------------------------------------------------------------

  predicate Current(t: Table, pid: int) {
    pid in t.byPid && Get(t.current, pid) == Some(t.byPid[pid])
  }

  /** A line of descent: `path` leads up by recorded parents to an approved child of the requester. */
  ghost predicate Line(t: Table, requester: int, path: seq<int>) {
    && path != []
    && (forall i :: 0 <= i < |path| ==> Current(t, path[i]))
    && (forall i, j :: 0 <= i < j == i + 1 < |path| ==> t.byPid[path[i]].parent == path[j] != requester)
    && var child := path[|path| - 1];
       t.byPid[child].parent == requester && Get(t.approved, child) == Some(t.byPid[child])
  }

  /** `pid` descends from the requester through an approved launch, all births on the way being current. */
  ghost predicate Descends(t: Table, requester: int, pid: int) {
    exists path :: Line(t, requester, path) && path[0] == pid
  }

  /** The same, in fewer than `k` steps, as the walk goes. */
  predicate Within(t: Table, requester: int, pid: int, k: nat)
    decreases k
  {
    k > 0 && Current(t, pid) && (
      var parent := t.byPid[pid].parent;
      if parent == requester then Get(t.approved, pid) == Some(t.byPid[pid]) else Within(t, requester, parent, k - 1))
  }

  lemma {:induction false} LineIsWithin(t: Table, requester: int, path: seq<int>)
    requires Line(t, requester, path)
    ensures Within(t, requester, path[0], |path|)
    decreases |path|
  {
    if |path| > 1 {
      var rest := path[1..];
      assert forall i :: 0 <= i < |rest| ==> rest[i] == path[i + 1];
      assert t.byPid[path[0]].parent == path[1];
      LineIsWithin(t, requester, rest);
    }
  }

  lemma LineCons(t: Table, requester: int, pid: int, rest: seq<int>)
    requires Line(t, requester, rest) && Current(t, pid) && t.byPid[pid].parent == rest[0] != requester
    ensures Line(t, requester, [pid] + rest)
  {
    var path := [pid] + rest;
    assert forall i :: 0 < i < |path| ==> path[i] == rest[i - 1];
    forall i, j | 0 <= i < j == i + 1 < |path| ensures t.byPid[path[i]].parent == path[j] != requester {
      if i > 0 {
        assert t.byPid[rest[i - 1]].parent == rest[j - 1];
      }
    }
  }

  lemma {:induction false} WithinHasLine(t: Table, requester: int, pid: int, k: nat)
    requires Within(t, requester, pid, k)
    ensures Descends(t, requester, pid)
    decreases k
  {
    var parent := t.byPid[pid].parent;
    if parent == requester {
      assert Line(t, requester, [pid]);
    } else {
      WithinHasLine(t, requester, parent, k - 1);
      var rest :| Line(t, requester, rest) && rest[0] == parent;
      LineCons(t, requester, pid, rest);
      assert ([pid] + rest)[0] == pid;
    }
  }

  lemma {:induction false} WithinMore(t: Table, requester: int, pid: int, k: nat)
    requires Within(t, requester, pid, k)
    ensures Within(t, requester, pid, k + 1)
    decreases k
  {
    if t.byPid[pid].parent != requester { WithinMore(t, requester, t.byPid[pid].parent, k - 1); }
  }

  /** `pid` comes after `from` on the way up. */
  ghost predicate Below(t: Table, requester: int, from: int, pid: int) {
    forall k: nat :: Within(t, requester, from, k) ==> k > 0 && Within(t, requester, pid, k - 1)
  }

  /** What comes after itself on the way up is on a cycle, and descends from nobody. */
  lemma {:induction false} NoWayAround(t: Table, requester: int, pid: int, k: nat)
    requires Below(t, requester, pid, pid)
    ensures !Within(t, requester, pid, k)
    decreases k
  {
    if k > 0 { NoWayAround(t, requester, pid, k - 1); }
  }

  lemma NotDescending(t: Table, requester: int, pid: int)
    requires forall k: nat :: !Within(t, requester, pid, k)
    ensures !Descends(t, requester, pid)
  {
    forall path | Line(t, requester, path) && path[0] == pid ensures false {
      LineIsWithin(t, requester, path);
    }
  }

  /** The walk ends even on cyclic records, and accepts exactly the descendants. */
  method Descendant(t: Table, requester: int, start: int) returns (yes: bool)
    ensures yes <==> Descends(t, requester, start)
  {
    var pid, seen: set<int> := start, {};
    while pid in t.byPid && pid !in seen
      invariant seen <= t.byPid.Keys
      invariant forall s :: s in seen ==> Below(t, requester, s, pid)
      invariant forall k: nat :: Within(t, requester, start, k) ==> Within(t, requester, pid, k)
      invariant Descends(t, requester, pid) ==> Descends(t, requester, start)
      decreases |t.byPid.Keys - seen|
    {
      seen := seen + {pid};
      var row := t.byPid[pid];
      if Get(t.current, pid) != Some(row) {
        NotDescending(t, requester, start);
        return false;
      }
      if row.parent == requester {
        yes := Get(t.approved, pid) == Some(row);
        if yes {
          WithinHasLine(t, requester, pid, 1);
        } else {
          NotDescending(t, requester, start);
        }
        return;
      }
      StepUp(t, requester, start, pid, row.parent, seen);
      pid := row.parent;
    }
    if pid in seen {
      forall k: nat ensures !Within(t, requester, start, k) {
        NoWayAround(t, requester, pid, k);
      }
    }
    NotDescending(t, requester, start);
    yes := false;
  }

  lemma StepUp(t: Table, requester: int, start: int, pid: int, parent: int, seen: set<int>)
    requires Current(t, pid) && t.byPid[pid].parent == parent != requester
    requires forall s :: s in seen && s != pid ==> Below(t, requester, s, pid)
    requires forall k: nat :: Within(t, requester, start, k) ==> Within(t, requester, pid, k)
    requires Descends(t, requester, pid) ==> Descends(t, requester, start)
    ensures forall s :: s in seen ==> Below(t, requester, s, parent)
    ensures forall k: nat :: Within(t, requester, start, k) ==> Within(t, requester, parent, k)
    ensures Descends(t, requester, parent) ==> Descends(t, requester, start)
  {
    forall k: nat | Within(t, requester, pid, k) ensures k > 0 && Within(t, requester, parent, k - 1) {
    }
    forall k: nat | Within(t, requester, start, k) ensures Within(t, requester, parent, k) {
      WithinMore(t, requester, parent, k - 1);
    }
    forall s | s in seen ensures Below(t, requester, s, parent) {
      forall k: nat | Within(t, requester, s, k) ensures k > 0 && Within(t, requester, parent, k - 1) {
        if s != pid {
          assert Within(t, requester, pid, k - 1);
          WithinMore(t, requester, parent, k - 2);
        }
      }
    }
    if Descends(t, requester, parent) {
      var path :| Line(t, requester, path) && path[0] == parent;
      LineIsWithin(t, requester, path);
      WithinHasLine(t, requester, pid, |path| + 1);
    }
  }

  // ------------------------------------------------------------------
  // Authorization
  // ------------------------------------------------------------------

  /** No pid was retained with two different births. */
  ghost predicate Unambiguous(retained: seq<Birth>) {
    forall i, j :: 0 <= i < j < |retained| && retained[i].pid == retained[j].pid ==> retained[i] == retained[j]
  }

  /** The table of the retained births. */
  ghost predicate Indexes(byPid: map<int, Birth>, retained: seq<Birth>) {
    && (forall i :: 0 <= i < |retained| ==> retained[i].pid in byPid && byPid[retained[i].pid] == retained[i])
    && (forall pid :: pid in byPid ==> byPid[pid] in retained && byPid[pid].pid == pid)
  }

  method IndexBirths(retained: seq<Birth>) returns (byPid: Wrappers.Result<map<int, Birth>, SignalError>)
    ensures byPid.Ok? <==> Unambiguous(retained)
    ensures byPid.Ok? ==> Indexes(byPid.value, retained)
    ensures byPid.Err? ==> byPid.error == AmbiguousBirth
  {
    var table: map<int, Birth> := map[];
    for i := 0 to |retained|
      invariant Unambiguous(retained[..i]) && Indexes(table, retained[..i])
    {
      var row := retained[i];
      assert retained[..i + 1] == retained[..i] + [row];
      if row.pid in table && table[row.pid] != row {
        assert table[row.pid] in retained[..i];
        return Err(AmbiguousBirth);
      }
      table := table[row.pid := row];
    }
    assert retained[..|retained|] == retained;
    byPid := Ok(table);
  }

  /** A line of births from `births[0]` up to an approved child of the requester. */
  ghost predicate BirthLine(retained: seq<Birth>, approved: map<int, Birth>, current: map<int, Birth>,
                            requester: int, births: seq<Birth>) {
    && births != []
    && (forall b :: b in births ==> b in retained && Get(current, b.pid) == Some(b))
    && (forall i, j :: 0 <= i < j == i + 1 < |births| ==> births[i].parent == births[j].pid != requester)
    && births[|births| - 1].parent == requester
    && Get(approved, births[|births| - 1].pid) == Some(births[|births| - 1])
  }

  ghost predicate Launched(retained: seq<Birth>, approved: map<int, Birth>, current: map<int, Birth>,
                           requester: int, pid: int) {
    exists births: seq<Birth> :: BirthLine(retained, approved, current, requester, births) && births[0].pid == pid
  }

  ghost predicate Recorded(retained: seq<Birth>, births: map<int, Birth>, pid: int) {
    exists b :: b in retained && b.pid == pid && Get(births, pid) == Some(b)
  }

  /** The requester is as recorded, and the process or the leader of the group is an approved launch of it. */
  ghost predicate LeadMaySignal(retained: seq<Birth>, approved: map<int, Birth>, current: map<int, Birth>,
                                requester: int, leader: int) {
    && Recorded(retained, current, requester) && Recorded(retained, approved, leader)
    && Launched(retained, approved, current, requester, leader)
  }

  /** The group holds its leader and launched processes only. */
  ghost predicate OwnGroup(retained: seq<Birth>, approved: map<int, Birth>, current: map<int, Birth>,
                           requester: int, leader: int, members: seq<int>) {
    leader in members && forall pid :: pid in members ==> Launched(retained, approved, current, requester, pid)
  }

  lemma LineOfBirths(t: Table, retained: seq<Birth>, requester: int, path: seq<int>)
    requires Indexes(t.byPid, retained) && Line(t, requester, path)
    ensures Launched(retained, t.approved, t.current, requester, path[0])
  {
    var births := seq(|path|, i requires 0 <= i < |path| => t.byPid[path[i]]);
    forall i, j | 0 <= i < j == i + 1 < |births| ensures births[i].parent == births[j].pid != requester {
      assert t.byPid[path[i]].parent == path[j];
    }
    assert BirthLine(retained, t.approved, t.current, requester, births);
  }

  lemma LineOfPids(t: Table, retained: seq<Birth>, requester: int, births: seq<Birth>)
    requires Indexes(t.byPid, retained) && BirthLine(retained, t.approved, t.current, requester, births)
    ensures Descends(t, requester, births[0].pid)
  {
    var path := seq(|births|, i requires 0 <= i < |births| => births[i].pid);
    forall i | 0 <= i < |path| ensures t.byPid[path[i]] == births[i] {
      assert births[i] in retained;
    }
    forall i, j | 0 <= i < j == i + 1 < |path| ensures t.byPid[path[i]].parent == path[j] != requester {
      assert births[i].parent == births[j].pid;
    }
    assert Line(t, requester, path);
  }

  lemma LaunchedIff(t: Table, retained: seq<Birth>, requester: int, pid: int)
    requires Indexes(t.byPid, retained)
    ensures Descends(t, requester, pid) <==> Launched(retained, t.approved, t.current, requester, pid)
  {
    if path :| Line(t, requester, path) && path[0] == pid {
      LineOfBirths(t, retained, requester, path);
    }
    if births: seq<Birth> :| BirthLine(retained, t.approved, t.current, requester, births) && births[0].pid == pid {
      LineOfPids(t, retained, requester, births);
    }
  }

  lemma RecordedIff(byPid: map<int, Birth>, retained: seq<Birth>, births: map<int, Birth>, pid: int)
    requires Indexes(byPid, retained)
    ensures Recorded(retained, births, pid) <==> pid in byPid && Get(births, pid) == Some(byPid[pid])
  {
    if pid in byPid { assert byPid[pid] in retained; }
  }

  /** What the table is asked about the requester and the leader. */
  lemma LeadIff(t: Table, retained: seq<Birth>, requester: int, leader: int)
    requires Indexes(t.byPid, retained)
    ensures LeadMaySignal(retained, t.approved, t.current, requester, leader) <==>
      && requester in t.byPid && Get(t.current, requester) == Get(t.byPid, requester)
      && leader in t.approved && Get(t.approved, leader) == Get(t.byPid, leader) && Descends(t, requester, leader)
  {
    LaunchedIff(t, retained, requester, leader);
    RecordedIff(t.byPid, retained, t.current, requester);
    RecordedIff(t.byPid, retained, t.approved, leader);
  }

  /**
   * Authorization succeeds exactly for a permissible signal over unambiguous records; a negative
   * target is a process group. Otherwise the error says which of the conditions failed first.
   */
  method Authorize(requester: int, target: int, retained: seq<Birth>, approved: map<int, Birth>,
                   current: map<int, Birth>, members: seq<int>)
      returns (answer: Wrappers.Result<bool, SignalError>)
    ensures var leader := if target < 0 then -target else target;
      answer ==
        if target == 0 || target == -1 then Err(NonDescendant)
        else if !Unambiguous(retained) then Err(AmbiguousBirth)
        else if !LeadMaySignal(retained, approved, current, requester, leader) then Err(NonDescendant)
        else if target < 0 && !OwnGroup(retained, approved, current, requester, leader, members) then Err(ForeignMember)
        else Ok(true)
  {
    if target == 0 || target == -1 {
      return Err(NonDescendant);
    }
    var byPid := IndexBirths(retained);
    if byPid.Err? {
      return Err(byPid.error);
    }
    var t, leader := Table(byPid.value, approved, current), if target < 0 then -target else target;
    var below := Descendant(t, requester, leader);
    LeadIff(t, retained, requester, leader);
    if Get(current, requester) != Get(t.byPid, requester) || requester !in t.byPid
       || Get(approved, leader) != Get(t.byPid, leader) || leader !in approved || !below {
      return Err(NonDescendant);
    }
    if target < 0 {
      if members == [] || leader !in members {
        return Err(ForeignMember);
      }
      for i := 0 to |members|
        invariant forall j :: 0 <= j < i ==> Launched(retained, approved, current, requester, members[j])
      {
        below := Descendant(t, requester, members[i]);
        LaunchedIff(t, retained, requester, members[i]);
        if !below {
          return Err(ForeignMember);
        }
      }
    }
    answer := Ok(true);
  }
}
