/** The proof that a complete reader was observed: scripts/gates/darwin/focused_reader_barrier.py. */
module ReaderProof {
  import opened Wrappers
  import Roles

  /** Why an observation fails; any other error counts as a transport error. */
  datatype Fault =
    | Protocol | Fixture | Profile | ReaderCount | ReaderBirth | ReaderChain | ReaderPolicy | ReaderGone
    | SecondConnection | Timeout | Eof | Ack | PeerIdentity | PeerBirth | PeerRole | Drift | Transport | MissingAck

  type Birth = Roles.Birth
  type Identity = Roles.Identity

  /** A live write policy that a process was found with, and the paths it was probed at. */
  datatype Policy = Policy(birth: Birth, verdicts: map<string, string>, paths: map<string, string>)

  /** What is recorded of a sandbox profile. */
  datatype Record = Record(fixture: string, profile: string, cwd: string, content: string, state: string,
                           policies: seq<Policy>)

  /**
   * What is known when a proof is asked for: the records by profile path, the roles
   * observed, the entry of the reader, the profile and the birth that each recipient
   * was observed with, the retained births, and the state of the profile file as it
   * is found now, if it can be read.
   */
  datatype Scene = Scene(records: map<string, Record>, roles: Roles.State, reader: string,
                         observed: map<Birth, string>, recipients: map<Birth, Birth>, sealedRoot: string,
                         retained: set<Birth>, found: Option<string>)

  function ProfilePath(fixture: string): string {
    fixture + (if fixture != [] && fixture[|fixture| - 1] == '/' then "work/sandbox.sb" else "/work/sandbox.sb")
  }

  function At<K, V>(m: map<K, V>, k: K): Option<V> {
    if k in m then Some(m[k]) else None
  }

  predicate IsReader(id: Identity) {
    id.role == Roles.Reader
  }

  function Readers(ids: seq<Identity>): seq<Identity> {
    if ids == [] then []
    else Readers(ids[..|ids| - 1]) + if IsReader(ids[|ids| - 1]) then [ids[|ids| - 1]] else []
  }

  function PoliciesOf(policies: seq<Policy>, birth: Birth): seq<Policy> {
    if policies == [] then []
    else
      var last := policies[|policies| - 1];
      PoliciesOf(policies[..|policies| - 1], birth) + if last.birth == birth then [last] else []
  }

  const ALLOWED: map<string, string> := map["cellDir" := "allowed", "deliveryContent" := "denied", "sealedRoot" := "denied"]

  predicate Expected(scene: Scene, record: Record, p: Policy) {
    && p.verdicts == ALLOWED
    && p.paths == map["cellDir" := record.cwd, "deliveryContent" := record.content, "sealedRoot" := scene.sealedRoot]
  }

  /** The processes above a reader: its host, the internal runner, the root. */
  datatype Ancestry = Ancestry(host: Identity, runner: Identity, root: Identity)

  /** The ancestry of a reader, if every process of it is recorded, has its role and hangs where it must. */
  function ChainOf(roles: Roles.State, reader: Identity): Option<Ancestry> {
    var host := Roles.Find(roles.identities, reader.birth.parent);
    var runner := if host.Some? then Roles.Find(roles.identities, host.value.birth.parent) else None;
    var root := Roles.Find(roles.identities, roles.root);
    if host.None? || host.value.role != Roles.Host || runner.None? || runner.value.role != Roles.Runner
       || runner.value.birth.pid !in roles.internals || runner.value.birth.parent != roles.root
       || root.None? || root.value.role != Roles.Runner || roles.instrumented
    then None
    else Some(Ancestry(host.value, runner.value, root.value))
  }

  /** The record of the fixture's profile, when the profile is what it was recorded as. */
  function RecordOf(scene: Scene, fixture: string): Result<Record, Fault> {
    var profile := ProfilePath(fixture);
    if profile !in scene.records || scene.records[profile].fixture != fixture || scene.records[profile].profile != profile
    then Err(Profile)
    else if scene.found.None? then Err(Transport)
    else if scene.found.value != scene.records[profile].state then Err(Profile)
    else Ok(scene.records[profile])
  }

  /** Whether the one reader is proven; `None` when something was not observed yet. */
  function ReaderProven(scene: Scene, record: Record, reader: Identity): Result<Option<Birth>, Fault> {
    var birth := reader.birth;
    if reader.entry != scene.reader || At(scene.observed, birth) != Some(record.profile) then Ok(None)
    else if At(scene.recipients, birth) != Some(birth) then Err(ReaderBirth)
    else
      match ChainOf(scene.roles, reader)
      case None => Err(ReaderChain)
      case Some(above) =>
        var policies := PoliciesOf(record.policies, birth);
        if policies == [] then Ok(None)
        else if exists i :: 0 <= i < |policies| && !Expected(scene, record, policies[i]) then Err(ReaderPolicy)
        else if !({birth, above.host.birth, above.runner.birth, above.root.birth} <= scene.retained) then Err(ReaderBirth)
        else Ok(Some(birth))
  }

  function Proof(scene: Scene, fixture: string): Result<Option<Birth>, Fault> {
    match RecordOf(scene, fixture)
    case Err(fault) => Err(fault)
    case Ok(record) =>
      var readers := Readers(scene.roles.identities);
      if readers == [] then Ok(None)
      else if |readers| != 1 then Err(ReaderCount)
      else ReaderProven(scene, record, readers[0])
  }

  // ------------------------------------------------------------------
  // The observation
  // ------------------------------------------------------------------

  method FindReaders(ids: seq<Identity>) returns (readers: seq<Identity>)
    ensures readers == Readers(ids)
  {
    readers := [];
    for i := 0 to |ids|
      invariant readers == Readers(ids[..i])
    {
      assert ids[..i + 1][..i] == ids[..i];
      if IsReader(ids[i]) {
        readers := readers + [ids[i]];
      }
    }
    assert ids[..|ids|] == ids;
  }

  method FindPolicies(all: seq<Policy>, birth: Birth) returns (policies: seq<Policy>)
    ensures policies == PoliciesOf(all, birth)
  {
    policies := [];
    for i := 0 to |all|
      invariant policies == PoliciesOf(all[..i], birth)
    {
      assert all[..i + 1][..i] == all[..i];
      if all[i].birth == birth {
        policies := policies + [all[i]];
      }
    }
    assert all[..|all|] == all;
  }

  method AllRetained(births: seq<Birth>, retained: set<Birth>) returns (all: bool)
    ensures all <==> (set birth | birth in births) <= retained
  {
    for i := 0 to |births|
      invariant forall j :: 0 <= j < i ==> births[j] in retained
    {
      if births[i] !in retained {
        return false;
      }
    }
    all := true;
  }

  method ProveReader(scene: Scene, fixture: string) returns (proof: Result<Option<Birth>, Fault>)
    ensures proof == Proof(scene, fixture)
  {
    var profile := ProfilePath(fixture);
    var record := At(scene.records, profile);
    if record.None? || record.value.fixture != fixture || record.value.profile != profile {
      return Err(Profile);
    }
    if scene.found.None? {
      return Err(Transport);
    }
    if scene.found.value != record.value.state {
      return Err(Profile);
    }
    var candidates := FindReaders(scene.roles.identities);
    if candidates == [] {
      return Ok(None);
    }
    if |candidates| != 1 {
      return Err(ReaderCount);
    }
    var reader := candidates[0];
    var birth := reader.birth;
    if reader.entry != scene.reader || At(scene.observed, birth) != Some(profile) {
      return Ok(None);
    }
    if At(scene.recipients, birth) != Some(birth) {
      return Err(ReaderBirth);
    }
    var chain := ChainOf(scene.roles, reader);
    if chain.None? {
      return Err(ReaderChain);
    }
    var policies := FindPolicies(record.value.policies, birth);
    if policies == [] {
      return Ok(None);
    }
    for i := 0 to |policies|
      invariant forall j :: 0 <= j < i ==> Expected(scene, record.value, policies[j])
    {
      if !Expected(scene, record.value, policies[i]) {
        return Err(ReaderPolicy);
      }
    }
    var above := chain.value;
    var births := [birth, above.host.birth, above.runner.birth, above.root.birth];
    var retained := AllRetained(births, scene.retained);
    assert (set b | b in births) == {birth, above.host.birth, above.runner.birth, above.root.birth};
    proof := if retained then Ok(Some(birth)) else Err(ReaderBirth);
  }
}
