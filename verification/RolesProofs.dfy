/** A completed observation is one chain of processes: scripts/gates/darwin/focused_roles.py. */
module RolesProofs {
  import opened Wrappers
  import opened Roles

  /** An observation: a birth and the entry it was started with. */
  datatype Sample = Sample(birth: Birth, entry: string)

  function Run(s: State, samples: seq<Sample>): State
    decreases |samples|
  {
    if samples == [] then s
    else Run(Observed(s, samples[0].birth, samples[0].entry).state, samples[1..])
  }

  ghost predicate DistinctPids(ids: seq<Identity>) {
    forall i, j :: 0 <= i < j < |ids| ==> ids[i].birth.pid != ids[j].birth.pid
  }

  /** Where a process of a role hangs. */
  ghost predicate Placed(s: State, id: Identity) {
    && id.entry in s.entries && s.entries[id.entry] == id.role
    && if id.role == Runner then
         id.birth.pid == s.root || (s.internals == [id.birth.pid] && id.birth.parent == s.root)
       else if id.role == Host then
         HasRole(s, id.birth.parent, Runner) && if s.instrumented then id.birth.parent == s.root
         else s.internals == [id.birth.parent]
       else id.role == Reader && HasRole(s, id.birth.parent, Host)
  }

  /** The internal runner child is in place. */
  ghost predicate InternalSound(s: State) {
    && |s.internals| <= (if s.instrumented then 0 else 1)
    && (s.internals != [] ==>
          s.internals[0] != s.root && HasRole(s, s.internals[0], Runner) && HasRole(s, s.root, Runner)
          && Find(s.identities, s.internals[0]).value.entry == Find(s.identities, s.root).value.entry)
  }

  ghost predicate Sound(s: State) {
    && DistinctPids(s.identities)
    && (forall i :: 0 <= i < |s.identities| ==> Placed(s, s.identities[i]))
    && InternalSound(s)
  }

  lemma {:induction false} FindMore(ids: seq<Identity>, id: Identity, pid: int)
    ensures Find(ids + [id], pid)
         == if Find(ids, pid).Some? then Find(ids, pid) else if id.birth.pid == pid then Some(id) else None
  {
    if ids == [] {
      assert ids + [id] == [id];
    } else {
      assert (ids + [id])[1..] == ids[1..] + [id];
      FindMore(ids[1..], id, pid);
    }
  }

  /** No identity, once observed, changes; nothing is forgotten. */
  lemma {:induction false} IdentitiesOnlyGrow(s: State, samples: seq<Sample>)
    ensures s.identities <= Run(s, samples).identities
    ensures Run(s, samples).root == s.root && Run(s, samples).entries == s.entries
    ensures Run(s, samples).instrumented == s.instrumented
    decreases |samples|
  {
    if samples != [] {
      IdentitiesOnlyGrow(Observed(s, samples[0].birth, samples[0].entry).state, samples[1..]);
    }
  }

  lemma PlacedStays(s: State, t: State, id: Identity, other: Identity)
    requires t.identities == s.identities + [id] && Placed(s, other)
    requires t.root == s.root && t.entries == s.entries && t.instrumented == s.instrumented
    requires t.internals == s.internals || s.internals == []
    ensures Placed(t, other)
  {
    FindMore(s.identities, id, other.birth.parent);
  }

  /** What an accepted observation of a new process adds. */
  lemma Accepted(s: State, birth: Birth, entry: string)
    requires Observed(s, birth, entry).state != s
    ensures var t := Observed(s, birth, entry).state; var id := Identity(birth, s.entries[entry], entry);
      && t.identities == s.identities + [id] && Find(s.identities, birth.pid).None?
      && t.root == s.root && t.entries == s.entries && t.instrumented == s.instrumented
      && Objection(s, birth, id.role, entry).None?
      && t.internals == if id.role == Runner && birth.pid != s.root then s.internals + [birth.pid] else s.internals
  {
  }

  lemma AcceptedPlaced(s: State, birth: Birth, entry: string)
    requires Sound(s) && Observed(s, birth, entry).state != s
    ensures var t := Observed(s, birth, entry).state;
      Placed(t, Identity(birth, s.entries[entry], entry)) && InternalSound(t) && (t.internals == s.internals || s.internals == [])
  {
    var id := Identity(birth, s.entries[entry], entry);
    Accepted(s, birth, entry);
    FindMore(s.identities, id, birth.parent);
    FindMore(s.identities, id, s.root);
    FindMore(s.identities, id, birth.pid);
    if s.internals != [] {
      FindMore(s.identities, id, s.internals[0]);
    }
  }

  lemma DistinctNext(ids: seq<Identity>, id: Identity)
    requires DistinctPids(ids) && Find(ids, id.birth.pid).None?
    ensures DistinctPids(ids + [id])
  {
  }

  lemma ObservedSound(s: State, birth: Birth, entry: string)
    requires Sound(s)
    ensures Sound(Observed(s, birth, entry).state)
  {
    var t := Observed(s, birth, entry).state;
    if t != s {
      var id := Identity(birth, s.entries[entry], entry);
      Accepted(s, birth, entry);
      AcceptedPlaced(s, birth, entry);
      DistinctNext(s.identities, id);
      forall i | 0 <= i < |s.identities| ensures Placed(t, s.identities[i]) {
        PlacedStays(s, t, id, s.identities[i]);
      }
    }
  }

  lemma {:induction false} RunSound(s: State, samples: seq<Sample>)
    requires Sound(s)
    ensures Sound(Run(s, samples))
    decreases |samples|
  {
    if samples != [] {
      ObservedSound(s, samples[0].birth, samples[0].entry);
      RunSound(Observed(s, samples[0].birth, samples[0].entry).state, samples[1..]);
    }
  }

  // ------------------------------------------------------------------
  // Completion
  // ------------------------------------------------------------------

  function OfRole(ids: seq<Identity>, role: Role): set<Identity> {
    set id | id in ids && id.role == role
  }

  lemma OfRoleNext(ids: seq<Identity>, id: Identity, role: Role)
    ensures OfRole(ids + [id], role) == OfRole(ids, role) + if id.role == role then {id} else {}
  {
  }

  lemma {:induction false} CountIsSize(ids: seq<Identity>, role: Role)
    requires DistinctPids(ids)
    ensures Count(ids, role) == |OfRole(ids, role)|
  {
    if ids != [] {
      var before, id := ids[..|ids| - 1], ids[|ids| - 1];
      CountIsSize(before, role);
      assert ids == before + [id];
      OfRoleNext(before, id, role);
      assert id !in before;
    }
  }

  lemma FindKnown(ids: seq<Identity>, id: Identity)
    requires DistinctPids(ids) && id in ids
    ensures Find(ids, id.birth.pid) == Some(id)
  {
    var found := Find(ids, id.birth.pid);
    var i :| 0 <= i < |ids| && ids[i] == id;
    var j :| 0 <= j < |ids| && Some(ids[j]) == found;
    assert i == j;
  }

  /** One chain of processes; in instrumented mode `internal` is the root itself. */
  datatype Line = Line(root: Identity, internal: Identity, host: Identity, reader: Identity)

  /** The identities are exactly the chain root, internal runner, host, reader, each a child of the one before. */
  ghost predicate IsLine(s: State, l: Line) {
    && l.root.birth.pid == s.root && l.root.role == Runner
    && (if s.instrumented then l.internal == l.root
        else l.internal.role == Runner && l.internal.birth.parent == s.root && l.internal.birth.pid != s.root
             && l.internal.entry == l.root.entry)
    && l.host.role == Host && l.host.birth.parent == l.internal.birth.pid
    && l.reader.role == Reader && l.reader.birth.parent == l.host.birth.pid
    && forall id :: id in s.identities <==> id in {l.root, l.internal, l.host, l.reader}
  }

  lemma OneOf(x: set<Identity>, id: Identity)
    requires |x| == 1 && id in x
    ensures x == {id}
  {
    assert |x - {id}| == 0;
    assert x == {id} + (x - {id});
  }

  lemma TwoOf(x: set<Identity>, a: Identity, b: Identity)
    requires |x| == 2 && a in x && b in x && a != b
    ensures x == {a, b}
  {
    OneOf(x - {a}, b);
    assert x == {a} + (x - {a});
  }

  /** The processes found by following the parents up from the reader. */
  lemma LineUp(s: State) returns (l: Line)
    requires Sound(s) && Complete(s)
    ensures l.reader in OfRole(s.identities, Reader) && l.host in OfRole(s.identities, Host)
    ensures l.root in OfRole(s.identities, Runner) && l.internal in OfRole(s.identities, Runner)
    ensures l.root.birth.pid == s.root && l.reader.birth.parent == l.host.birth.pid
    ensures l.host.birth.parent == l.internal.birth.pid
    ensures if s.instrumented then l.internal == l.root
            else l.internal.birth.parent == s.root && l.internal.birth.pid != s.root && l.internal.entry == l.root.entry
  {
    var ids := s.identities;
    CountIsSize(ids, Reader);
    var reader :| reader in OfRole(ids, Reader);
    assert Placed(s, reader);
    var host := Find(ids, reader.birth.parent).value;
    assert Placed(s, host);
    var internal := Find(ids, host.birth.parent).value;
    assert Placed(s, internal);
    var root := Find(ids, s.root).value;
    l := Line(root, internal, host, reader);
  }

  lemma CompleteHasLine(s: State) returns (l: Line)
    requires Sound(s) && Complete(s)
    ensures IsLine(s, l)
  {
    var ids := s.identities;
    l := LineUp(s);
    CountIsSize(ids, Reader);
    CountIsSize(ids, Host);
    CountIsSize(ids, Runner);
    OneOf(OfRole(ids, Reader), l.reader);
    OneOf(OfRole(ids, Host), l.host);
    if s.instrumented {
      OneOf(OfRole(ids, Runner), l.root);
    } else {
      TwoOf(OfRole(ids, Runner), l.root, l.internal);
    }
    forall id | id in ids ensures id in {l.root, l.internal, l.host, l.reader} {
      assert Placed(s, id);
      assert id in OfRole(ids, id.role);
    }
  }

  lemma LineRoles(ids: seq<Identity>, l: Line)
    requires l.root.role == l.internal.role == Runner && l.host.role == Host && l.reader.role == Reader
    requires forall id :: id in ids <==> id in {l.root, l.internal, l.host, l.reader}
    ensures OfRole(ids, Reader) == {l.reader} && OfRole(ids, Host) == {l.host}
    ensures OfRole(ids, Runner) == {l.root, l.internal}
  {
  }

  lemma LineCompletes(s: State, l: Line)
    requires Sound(s) && IsLine(s, l)
    ensures Complete(s)
  {
    var ids := s.identities;
    CountIsSize(ids, Reader);
    CountIsSize(ids, Host);
    CountIsSize(ids, Runner);
    assert l.internal in ids && Placed(s, l.internal);
    LineRoles(ids, l);
  }

  /**
   * On everything that can be observed, `finish` succeeds exactly when the
   * processes form one chain root, internal runner in plain mode, host, reader.
   */
  lemma CompleteIff(s: State)
    requires Sound(s)
    ensures Complete(s) <==> exists l :: IsLine(s, l)
  {
    if Complete(s) {
      var l := CompleteHasLine(s);
    }
    if l :| IsLine(s, l) {
      LineCompletes(s, l);
    }
  }

  function Fresh(root: int, entries: map<string, Role>, instrumented: bool): State {
    State(root, entries, instrumented, [], [])
  }

  /** Whatever is observed, in whatever order and with whatever refusals, completion means one chain. */
  lemma FinishedRunIsOneLine(root: int, entries: map<string, Role>, instrumented: bool, samples: seq<Sample>)
    ensures var s := Run(Fresh(root, entries, instrumented), samples);
      Complete(s) <==> exists l :: IsLine(s, l)
  {
    RunSound(Fresh(root, entries, instrumented), samples);
    CompleteIff(Run(Fresh(root, entries, instrumented), samples));
  }

  lemma {:induction false} RunSnoc(s: State, samples: seq<Sample>, last: Sample)
    ensures Run(s, samples + [last]) == Observed(Run(s, samples), last.birth, last.entry).state
    decreases |samples|
  {
    if samples == [] {
      assert [] + [last] == [last] && [last][1..] == [];
    } else {
      assert (samples + [last])[1..] == samples[1..] + [last];
      RunSnoc(Observed(s, samples[0].birth, samples[0].entry).state, samples[1..], last);
    }
  }

  function SampleOf(id: Identity): Sample {
    Sample(id.birth, id.entry)
  }

  /** Whether a process not seen before hangs below `parent` as its role demands. */
  ghost predicate Fits(s: State, id: Identity, parent: Identity) {
    && id.entry in s.entries && s.entries[id.entry] == id.role
    && (forall i :: 0 <= i < |s.identities| ==> s.identities[i].birth.pid != id.birth.pid)
    && match id.role
       case Runner => id.birth.pid == s.root || (
         !s.instrumented && s.internals == [] && parent in s.identities && parent.birth.pid == id.birth.parent == s.root
         && parent.role == Runner && parent.entry == id.entry)
       case Host => parent in s.identities && parent.birth.pid == id.birth.parent && parent.role == Runner
         && if s.instrumented then id.birth.parent == s.root else s.internals == [id.birth.parent]
       case Reader => parent in s.identities && parent.birth.pid == id.birth.parent && parent.role == Host
       case Unapproved(_) => false
  }

  /** A new process is accepted when it fits below a process seen before. */
  lemma FittingIsAccepted(s: State, id: Identity, parent: Identity)
    requires DistinctPids(s.identities) && Fits(s, id, parent)
    ensures Observed(s, id.birth, id.entry).state
         == s.(identities := s.identities + [id],
               internals := if id.role == Runner && id.birth.pid != s.root then s.internals + [id.birth.pid] else s.internals)
    ensures Observed(s, id.birth, id.entry).answer == Ok(id.role)
  {
    assert Find(s.identities, id.birth.pid).None?;
    if parent in s.identities {
      FindKnown(s.identities, parent);
    }
  }

  function Samples(ids: seq<Identity>): seq<Sample> {
    seq(|ids|, i requires 0 <= i < |ids| => SampleOf(ids[i]))
  }

  /** The state after the processes `ids` were accepted one after the other. */
  ghost predicate Reached(s: State, ids: seq<Identity>, internals: seq<int>) {
    Run(s, Samples(ids)) == s.(identities := ids, internals := internals)
  }

  lemma ReachedNext(s: State, ids: seq<Identity>, internals: seq<int>, id: Identity, parent: Identity)
    requires Reached(s, ids, internals) && DistinctPids(ids) && Fits(s.(identities := ids, internals := internals), id, parent)
    ensures Reached(s, ids + [id],
                    if id.role == Runner && id.birth.pid != s.root then internals + [id.birth.pid] else internals)
  {
    var t := s.(identities := ids, internals := internals);
    FittingIsAccepted(t, id, parent);
    RunSnoc(s, Samples(ids), SampleOf(id));
    assert Samples(ids + [id]) == Samples(ids) + [SampleOf(id)];
  }

  /** The processes of a chain from the root down; in instrumented mode no internal runner is among them. */
  function Downward(l: Line, instrumented: bool): seq<Identity> {
    [l.root] + (if instrumented then [] else [l.internal]) + [l.host] + [l.reader]
  }

  /** A chain as it ought to be, its entries under their roles. */
  ghost predicate Proper(l: Line, s: State) {
    && IsLine(s.(identities := Downward(l, s.instrumented)), l)
    && DistinctPids(Downward(l, s.instrumented))
    && forall id :: id in {l.root, l.internal, l.host, l.reader} ==> id.entry in s.entries && s.entries[id.entry] == id.role
  }

  lemma RunnersReached(s: State, l: Line)
    requires s.identities == [] && s.internals == [] && !s.instrumented && Proper(l, s)
    ensures Reached(s, [l.root, l.internal], [l.internal.birth.pid])
  {
    var all := Downward(l, false);
    assert all[0] == l.root && all[1] == l.internal;
    assert Reached(s, [], []);
    ReachedNext(s, [], [], l.root, l.root);
    assert [] + [l.root] == [l.root] && [] + [l.internal.birth.pid] == [l.internal.birth.pid];
    ReachedNext(s, [l.root], [], l.internal, l.root);
    assert [l.root] + [l.internal] == [l.root, l.internal];
  }

  lemma PlainReached(s: State, l: Line)
    requires s.identities == [] && s.internals == [] && !s.instrumented && Proper(l, s)
    ensures Reached(s, Downward(l, false), [l.internal.birth.pid])
  {
    var runners, inner := [l.root, l.internal], [l.internal.birth.pid];
    var third := runners + [l.host];
    var all := third + [l.reader];
    assert all == Downward(l, false);
    assert all[0] == l.root && all[1] == l.internal && all[2] == l.host && all[3] == l.reader;
    RunnersReached(s, l);
    ReachedNext(s, runners, inner, l.host, l.internal);
    ReachedNext(s, third, inner, l.reader, l.host);
  }

  lemma InstrumentedReached(s: State, l: Line)
    requires s.identities == [] && s.internals == [] && s.instrumented && Proper(l, s)
    ensures Reached(s, Downward(l, true), [])
  {
    var none: seq<Identity> := [];
    var first := [l.root] + [];
    var second := first + [l.host];
    var all := second + [l.reader];
    assert all[0] == l.root && all[1] == l.host && all[2] == l.reader;
    assert Reached(s, none, []);
    ReachedNext(s, none, [], l.root, l.root);
    assert none + [l.root] == first;
    ReachedNext(s, first, [], l.host, l.root);
    ReachedNext(s, second, [], l.reader, l.host);
  }

  /** Observed from the root down, every process of a proper chain is accepted, and the chain is complete. */
  lemma TopDownCompletes(s: State, l: Line)
    requires s.identities == [] && s.internals == [] && Proper(l, s)
    ensures var t := Run(s, Samples(Downward(l, s.instrumented)));
      Complete(t) && t.identities == Downward(l, s.instrumented)
  {
    if s.instrumented {
      InstrumentedReached(s, l);
    } else {
      PlainReached(s, l);
    }
    RunSound(s, Samples(Downward(l, s.instrumented)));
    LineCompletes(Run(s, Samples(Downward(l, s.instrumented))), l);
  }

  // ------------------------------------------------------------------
  // Every observation
  // ------------------------------------------------------------------

  /** A process of that pid and role was observed. */
  ghost predicate Saw(s: State, pid: int, role: Role) {
    exists i :: 0 <= i < |s.identities| && s.identities[i].birth.pid == pid && s.identities[i].role == role
  }

  /** The root was observed as a runner with that entry. */
  ghost predicate SawRoot(s: State, entry: string) {
    exists i :: 0 <= i < |s.identities| && s.identities[i].birth.pid == s.root && s.identities[i].role == Runner
      && s.identities[i].entry == entry
  }

  ghost predicate OnePid(s: State) {
    forall i, j :: 0 <= i < j < |s.identities| ==> s.identities[i].birth.pid != s.identities[j].birth.pid
  }

  /** Where a new process of a role belongs. */
  ghost predicate Belongs(s: State, birth: Birth, role: Role, entry: string) {
    match role
    case Runner => birth.pid == s.root || (!s.instrumented && birth.parent == s.root && SawRoot(s, entry) && s.internals == [])
    case Host =>
      Saw(s, birth.parent, Runner)
      && if s.instrumented then birth.parent == s.root else s.internals != [] && birth.parent == s.internals[0]
    case Reader => Saw(s, birth.parent, Host)
    case _ => false
  }

  function RefusalOf(role: Role): RoleError {
    match role
    case Runner => UnapprovedInternal
    case Host => WrongHostParent
    case Reader => WrongReaderParent
    case _ => UnapprovedRole
  }

  lemma FindIs(s: State, id: Identity)
    requires OnePid(s) && id in s.identities
    ensures Find(s.identities, id.birth.pid) == Some(id)
  {
    var found := Find(s.identities, id.birth.pid);
    var k :| 0 <= k < |s.identities| && s.identities[k] == id;
    if found.Some? {
      var j :| 0 <= j < |s.identities| && s.identities[j] == found.value;
      assert j == k;
    }
  }

  lemma HasRoleIff(s: State, pid: int, role: Role)
    requires OnePid(s)
    ensures HasRole(s, pid, role) <==> Saw(s, pid, role)
  {
    if i :| 0 <= i < |s.identities| && s.identities[i].birth.pid == pid && s.identities[i].role == role {
      FindIs(s, s.identities[i]);
    }
    var found := Find(s.identities, pid);
    if found.Some? {
      var j :| 0 <= j < |s.identities| && s.identities[j] == found.value;
    }
  }

  lemma ObjectionIff(s: State, birth: Birth, role: Role, entry: string)
    requires OnePid(s)
    ensures Objection(s, birth, role, entry) == if Belongs(s, birth, role, entry) then None else Some(RefusalOf(role))
  {
    HasRoleIff(s, birth.parent, Runner);
    HasRoleIff(s, birth.parent, Host);
    HasRoleIff(s, s.root, Runner);
    var root := Find(s.identities, s.root);
    forall id | id in s.identities && id.birth.pid == s.root
      ensures root == Some(id)
    {
      FindIs(s, id);
    }
    if root.Some? {
      var j :| 0 <= j < |s.identities| && s.identities[j] == root.value;
    }
  }

  /**
   * An observation of an entry that is not known is refused; one of a pid that is known is accepted
   * exactly when birth and entry are as before; a new process is added exactly when it belongs where
   * it hangs, and else refused with the error of its role.
   */
  lemma ObservedIff(s: State, birth: Birth, entry: string)
    requires OnePid(s)
    ensures var out := Observed(s, birth, entry);
      if entry !in s.entries then out == Step(s, Err(UnknownEntry))
      else
        var role := s.entries[entry];
        if exists i :: 0 <= i < |s.identities| && s.identities[i].birth.pid == birth.pid then
          out == Step(s, if Identity(birth, role, entry) in s.identities then Ok(role) else Err(IdentityChanged))
        else if !Belongs(s, birth, role, entry) then out == Step(s, Err(RefusalOf(role)))
        else
          && out.answer == Ok(role)
          && out.state == s.(identities := s.identities + [Identity(birth, role, entry)], internals := out.state.internals)
          && out.state.internals == s.internals + (if role == Runner && birth.pid != s.root then [birth.pid] else [])
  {
    if entry in s.entries {
      var role := s.entries[entry];
      ObjectionIff(s, birth, role, entry);
      if Identity(birth, role, entry) in s.identities { FindIs(s, Identity(birth, role, entry)); }
      assert s.internals + [] == s.internals;
    }
  }
}
