/** The roles of the Node processes of a run: scripts/gates/darwin/focused_roles.py. */
module Roles {
  import opened Wrappers

  datatype Birth = Birth(pid: int, parent: int, started: string)

  datatype Identity = Identity(birth: Birth, role: Role, entry: string)

  datatype RoleError =
    | UnknownEntry | IdentityChanged | UnapprovedInternal | WrongHostParent | WrongReaderParent | UnapprovedRole
    | Incomplete

  /** The role an entry may have: test-runner, runner-host-main, reader, or one that is not approved. */
  datatype Role = Runner | Host | Reader | Unapproved(name: string)

  /**
   * What was observed: the identities in the order of their first observation, and
   * the internal runner children, of which there is at most one.
   */
  datatype State = State(root: int, entries: map<string, Role>, instrumented: bool,
                         identities: seq<Identity>, internals: seq<int>)

  function Find(ids: seq<Identity>, pid: int): (found: Option<Identity>)
    ensures found.Some? ==> found.value in ids && found.value.birth.pid == pid
    ensures found.None? ==> forall i :: 0 <= i < |ids| ==> ids[i].birth.pid != pid
  {
    if ids == [] then None
    else if ids[0].birth.pid == pid then Some(ids[0])
    else
      assert forall i :: 1 <= i < |ids| ==> ids[i] == ids[1..][i - 1];
      Find(ids[1..], pid)
  }

  predicate HasRole(s: State, pid: int, role: Role) {
    Find(s.identities, pid).Some? && Find(s.identities, pid).value.role == role
  }

  /** Why a new process may not have the role of its entry, if so. */
  function Objection(s: State, birth: Birth, role: Role, entry: string): Option<RoleError> {
    if role == Runner then
      var root := Find(s.identities, s.root);
      if birth.pid == s.root then None
      else if s.instrumented || birth.parent != s.root || !HasRole(s, s.root, Runner) || root.value.entry != entry
              || s.internals != [] then Some(UnapprovedInternal)
      else None
    else if role == Host then
      if (if s.instrumented then birth.parent != s.root else s.internals == [] || birth.parent != s.internals[0])
         || !HasRole(s, birth.parent, Runner) then Some(WrongHostParent)
      else None
    else if role == Reader then
      if !HasRole(s, birth.parent, Host) then Some(WrongReaderParent) else None
    else Some(UnapprovedRole)
  }

  datatype Step = Step(state: State, answer: Wrappers.Result<Role, RoleError>)

  /** One observation; a refused one changes nothing. */
  function Observed(s: State, birth: Birth, entry: string): Step {
    if entry !in s.entries then Step(s, Err(UnknownEntry))
    else
      var role := s.entries[entry];
      var known := Find(s.identities, birth.pid);
      if known.Some? then
        Step(s, if known.value == Identity(birth, role, entry) then Ok(role) else Err(IdentityChanged))
      else
        var objection := Objection(s, birth, role, entry);
        if objection.Some? then Step(s, Err(objection.value))
        else Step(s.(identities := s.identities + [Identity(birth, role, entry)],
                     internals := if role == Runner && birth.pid != s.root then s.internals + [birth.pid] else s.internals),
                  Ok(role))
  }

  function Count(ids: seq<Identity>, role: Role): nat {
    if ids == [] then 0
    else Count(ids[..|ids| - 1], role) + if ids[|ids| - 1].role == role then 1 else 0
  }

  predicate Complete(s: State) {
    && |s.internals| == (if s.instrumented then 0 else 1)
    && Count(s.identities, Reader) == 1 && Count(s.identities, Host) == 1
    && Count(s.identities, Runner) == (if s.instrumented then 1 else 2)
  }

  class Roles {
    const root: int
    const entries: map<string, Role>
    const instrumented: bool
    var identities: seq<Identity>
    var internals: seq<int>

    constructor (root: int, entries: map<string, Role>, instrumented: bool)
      ensures Seen() == State(root, entries, instrumented, [], [])
    {
      this.root, this.entries, this.instrumented, identities, internals := root, entries, instrumented, [], [];
    }

    function Seen(): State
      reads this
    {
      State(root, entries, instrumented, identities, internals)
    }

    method Observe(birth: Birth, entry: string) returns (answer: Wrappers.Result<Role, RoleError>)
      modifies this
      ensures Step(Seen(), answer) == Observed(old(Seen()), birth, entry)
    {
      if entry !in entries {
        return Err(UnknownEntry);
      }
      var role := entries[entry];
      var known := Find(identities, birth.pid);
      if known.Some? {
        if known.value != Identity(birth, role, entry) {
          return Err(IdentityChanged);
        }
        return Ok(role);
      }
      var parent := Find(identities, birth.parent);
      var inner := internals;
      if role == Runner {
        if birth.pid != root {
          var top := Find(identities, root);
          if instrumented || birth.parent != root || top.None? || top.value.role != Runner || top.value.entry != entry
             || internals != [] {
            return Err(UnapprovedInternal);
          }
          inner := internals + [birth.pid];
        }
      } else if role == Host {
        var expected := if instrumented then Some(root) else if internals == [] then None else Some(internals[0]);
        if Some(birth.parent) != expected || parent.None? || parent.value.role != Runner {
          return Err(WrongHostParent);
        }
      } else if role == Reader {
        if parent.None? || parent.value.role != Host {
          return Err(WrongReaderParent);
        }
      } else {
        return Err(UnapprovedRole);
      }
      internals := inner;
      identities := identities + [Identity(birth, role, entry)];
      answer := Ok(role);
    }

    method CountRole(role: Role) returns (count: nat)
      ensures count == Count(identities, role)
    {
      count := 0;
      for i := 0 to |identities|
        invariant count == Count(identities[..i], role)
      {
        assert identities[..i + 1][..i] == identities[..i];
        if identities[i].role == role {
          count := count + 1;
        }
      }
      assert identities[..|identities|] == identities;
    }

    method Finish() returns (answer: Wrappers.Result<seq<Identity>, RoleError>)
      ensures answer == if Complete(Seen()) then Ok(identities) else Err(Incomplete)
    {
      var readers := CountRole(Reader);
      var hosts := CountRole(Host);
      var runners := CountRole(Runner);
      if |internals| != (if instrumented then 0 else 1) || readers != 1 || hosts != 1
         || runners != (if instrumented then 1 else 2) {
        return Err(Incomplete);
      }
      answer := Ok(identities);
    }
  }
}
