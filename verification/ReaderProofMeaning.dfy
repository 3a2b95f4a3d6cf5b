/** What a complete reader proof shows, and which faults it cannot have: scripts/gates/darwin/focused_reader_barrier.py. */
module ReaderProofMeaning {
  import opened Wrappers
  import opened Roles
  import opened RolesProofs
  import ReaderProof

  // ------------------------------------------------------------------
  // What is proven
  // ------------------------------------------------------------------

  lemma {:induction false} ReadersAre(ids: seq<Identity>, id: Identity)
    ensures id in ReaderProof.Readers(ids) <==> id in ids && id.role == Reader
  {
    if ids != [] {
      ReadersAre(ids[..|ids| - 1], id);
      assert ids == ids[..|ids| - 1] + [ids[|ids| - 1]];
    }
  }

  lemma {:induction false} ReadersCount(ids: seq<Identity>)
    ensures |ReaderProof.Readers(ids)| == Count(ids, Reader)
  {
    if ids != [] { ReadersCount(ids[..|ids| - 1]); }
  }

  lemma {:induction false} PoliciesAre(all: seq<ReaderProof.Policy>, birth: Birth, p: ReaderProof.Policy)
    ensures p in ReaderProof.PoliciesOf(all, birth) <==> p in all && p.birth == birth
  {
    if all != [] {
      PoliciesAre(all[..|all| - 1], birth, p);
      assert all == all[..|all| - 1] + [all[|all| - 1]];
    }
  }

  /** `reader` hangs below the host, the host below the internal runner, and that below the root, in plain mode. */
  ghost predicate Hangs(s: State, reader: Identity, host: Identity, runner: Identity, root: Identity) {
    && !s.instrumented
    && Find(s.identities, reader.birth.parent) == Some(host) && host.role == Host
    && Find(s.identities, host.birth.parent) == Some(runner) && runner.role == Runner
    && runner.birth.pid in s.internals && runner.birth.parent == s.root
    && Find(s.identities, s.root) == Some(root) && root.role == Runner
  }

  /** The reader was observed with the profile under test, and only with the expected policies, at least one. */
  ghost predicate Confined(scene: ReaderProof.Scene, record: ReaderProof.Record, birth: Birth) {
    && birth in scene.observed && scene.observed[birth] == record.profile
    && birth in scene.recipients && scene.recipients[birth] == birth
    && (exists p :: p in record.policies && p.birth == birth)
    && (forall p :: p in record.policies && p.birth == birth ==> ReaderProof.Expected(scene, record, p))
  }

  /** The profile of the fixture is the recorded one, as it was recorded. */
  ghost predicate ProfileHolds(scene: ReaderProof.Scene, fixture: string, record: ReaderProof.Record) {
    var profile := ReaderProof.ProfilePath(fixture);
    && profile in scene.records && scene.records[profile] == record
    && record.fixture == fixture && record.profile == profile && scene.found == Some(record.state)
  }

  /**
   * A complete observation: the profile holds, and the only reader is in place,
   * confined, and retained with its ancestors.
   */
  ghost predicate Witnessed(scene: ReaderProof.Scene, fixture: string, record: ReaderProof.Record,
                            reader: Identity, host: Identity, runner: Identity, root: Identity) {
    && ProfileHolds(scene, fixture, record)
    && Count(scene.roles.identities, Reader) == 1 && reader in scene.roles.identities && reader.role == Reader
    && reader.entry == scene.reader
    && Hangs(scene.roles, reader, host, runner, root)
    && Confined(scene, record, reader.birth)
    && {reader.birth, host.birth, runner.birth, root.birth} <= scene.retained
  }

  lemma OnlyReader(ids: seq<Identity>, reader: Identity)
    requires Count(ids, Reader) == 1 && reader in ids && reader.role == Reader
    ensures ReaderProof.Readers(ids) == [reader]
  {
    ReadersCount(ids);
    ReadersAre(ids, reader);
  }

  lemma TheReader(ids: seq<Identity>)
    requires |ReaderProof.Readers(ids)| == 1
    ensures var reader := ReaderProof.Readers(ids)[0]; reader in ids && reader.role == Reader && Count(ids, Reader) == 1
  {
    ReadersCount(ids);
    ReadersAre(ids, ReaderProof.Readers(ids)[0]);
  }

  lemma ConfinedIff(scene: ReaderProof.Scene, record: ReaderProof.Record, birth: Birth)
    ensures var policies := ReaderProof.PoliciesOf(record.policies, birth);
      Confined(scene, record, birth) <==>
        && ReaderProof.At(scene.observed, birth) == Some(record.profile)
        && ReaderProof.At(scene.recipients, birth) == Some(birth)
        && policies != [] && forall i :: 0 <= i < |policies| ==> ReaderProof.Expected(scene, record, policies[i])
  {
    var policies := ReaderProof.PoliciesOf(record.policies, birth);
    forall p ensures p in policies <==> p in record.policies && p.birth == birth {
      PoliciesAre(record.policies, birth, p);
    }
    if policies != [] {
      assert policies[0] in policies;
    }
  }

  lemma ProvenIff(scene: ReaderProof.Scene, record: ReaderProof.Record, reader: Identity)
    ensures ReaderProof.ReaderProven(scene, record, reader) == Ok(Some(reader.birth))
       <==> && reader.entry == scene.reader && Confined(scene, record, reader.birth)
            && exists host, runner, root :: Hangs(scene.roles, reader, host, runner, root)
                 && {reader.birth, host.birth, runner.birth, root.birth} <= scene.retained
  {
    ConfinedIff(scene, record, reader.birth);
    var chain := ReaderProof.ChainOf(scene.roles, reader);
    if chain.Some? {
      assert Hangs(scene.roles, reader, chain.value.host, chain.value.runner, chain.value.root);
    }
  }

  /**
   * The proof succeeds, with a birth, exactly when the observation is complete: there
   * is one reader, of that birth, in its line of processes, confined by the profile
   * under test, and all of the line is retained.
   */
  lemma ProofIff(scene: ReaderProof.Scene, fixture: string, birth: Birth)
    ensures ReaderProof.Proof(scene, fixture) == Ok(Some(birth))
       <==> exists record, reader, host, runner, root ::
              Witnessed(scene, fixture, record, reader, host, runner, root) && reader.birth == birth
  {
    var ids := scene.roles.identities;
    if ReaderProof.Proof(scene, fixture) == Ok(Some(birth)) {
      var record := ReaderProof.RecordOf(scene, fixture).value;
      var reader := ReaderProof.Readers(ids)[0];
      TheReader(ids);
      ProvenIff(scene, record, reader);
      var host, runner, root :| Hangs(scene.roles, reader, host, runner, root)
        && {reader.birth, host.birth, runner.birth, root.birth} <= scene.retained;
      assert Witnessed(scene, fixture, record, reader, host, runner, root);
    }
    if record, reader, host, runner, root :|
      Witnessed(scene, fixture, record, reader, host, runner, root) && reader.birth == birth {
      OnlyReader(ids, reader);
      ProvenIff(scene, record, reader);
      assert ReaderProof.RecordOf(scene, fixture) == Ok(record);
    }
  }

  // ------------------------------------------------------------------
  // On what can be observed
  // ------------------------------------------------------------------

  /** On every state that observations lead to, a reader's ancestry is in place exactly in plain mode. */
  lemma ChainIff(s: State, reader: Identity)
    requires Sound(s) && reader in s.identities && reader.role == Reader
    ensures ReaderProof.ChainOf(s, reader).Some? <==> !s.instrumented
  {
    assert Placed(s, reader);
    var host := Find(s.identities, reader.birth.parent).value;
    assert Placed(s, host);
    if !s.instrumented {
      var runner := Find(s.identities, host.birth.parent).value;
      assert Placed(s, runner);
    }
  }

  /**
   * On such a state a broken chain is reported only in instrumented mode, where every
   * proof that gets so far reports it; and once the roles are complete, never a wrong
   * number of readers.
   */
  lemma FaultsOnSoundRoles(scene: ReaderProof.Scene, fixture: string)
    requires Sound(scene.roles)
    ensures ReaderProof.Proof(scene, fixture) == Err(ReaderProof.ReaderChain) ==> scene.roles.instrumented
    ensures ReaderProof.Proof(scene, fixture).Ok? && ReaderProof.Proof(scene, fixture).value.Some? ==>
      !scene.roles.instrumented
    ensures Complete(scene.roles) ==> ReaderProof.Proof(scene, fixture) != Err(ReaderProof.ReaderCount)
  {
    var ids := scene.roles.identities;
    ReadersCount(ids);
    if |ReaderProof.Readers(ids)| == 1 {
      TheReader(ids);
      ChainIff(scene.roles, ReaderProof.Readers(ids)[0]);
    }
  }

  /** Once the roles are complete, what a proof shows is the one line of processes there is. */
  lemma ProvenLine(scene: ReaderProof.Scene, fixture: string, record: ReaderProof.Record,
                   reader: Identity, host: Identity, runner: Identity, root: Identity)
    requires Sound(scene.roles) && Complete(scene.roles)
    requires Witnessed(scene, fixture, record, reader, host, runner, root)
    ensures IsLine(scene.roles, Line(root, runner, host, reader))
  {
    var s := scene.roles;
    var l := CompleteHasLine(s);
    assert reader == l.reader;
    FindKnown(s.identities, l.host);
    FindKnown(s.identities, l.internal);
    FindKnown(s.identities, l.root);
  }
}
