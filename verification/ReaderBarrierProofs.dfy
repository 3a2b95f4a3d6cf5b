/** Safety of the reader barrier over whole runs: scripts/gates/darwin/focused_reader_barrier.py. */
module ReaderBarrierProofs {
  import opened Wrappers
  import opened ReaderProof
  import opened ReaderProofMeaning
  import opened ReaderBarrier

  function Run(s: State, worlds: seq<World>): State
    decreases |worlds|
  {
    if worlds == [] then s else Run(Drained(s, worlds[0]), worlds[1..])
  }

  /** What every drain keeps. */
  ghost predicate Safe(s: State) {
    && s.delivered + s.remaining == ACK
    && |s.buffer| <= REQUEST_LIMIT + 1
    && (s.sent ==> s.remaining == [])
    && (s.approved ==> s.sent)
    && (s.delivered != [] ==> s.authenticated && s.fixture.Some? && s.complete && s.live)
    && (s.authenticated || s.connected ==> s.connections > 0)
    && (s.connections > 1 ==> s.failure.Some?)
  }

  /** The same, while a fault may be about to be remembered. */
  ghost predicate SafePart(p: Part) {
    Safe(p.state) || (p.signal.Fail? && Safe(p.state.(failure := Some(p.signal.fault))))
  }

  lemma SendIsSafe(s: State, w: World)
    requires Safe(s) && s.authenticated && s.fixture.Some? && s.complete && s.live
    ensures SafePart(Send(s, w))
  {
    if w.sending.Took? {
      var n := Least(w.sending.count, |s.remaining|);
      assert s.remaining == s.remaining[..n] + s.remaining[n..];
      assert s.delivered + s.remaining == (s.delivered + s.remaining[..n]) + s.remaining[n..];
    }
  }

  lemma ServeIsSafe(s: State, w: World)
    requires Safe(s) && s.authenticated
    ensures SafePart(Serve(s, w))
  {
    if !s.sent {
      var read := ReadRequest(s, w);
      assert Safe(read.state);
      if read.signal == Continue {
        var observed := Observe(read.state, w);
        ObserveKeeps(read.state, w);
        assert Safe(observed.state);
        if observed.signal == Continue {
          SendIsSafe(observed.state, w);
        }
      }
    }
  }

  /** Every drain is safe, whatever the world answers. */
  lemma DrainIsSafe(s: State, w: World)
    requires Safe(s)
    ensures Safe(Drained(s, w))
  {
    if w.path.None? {
      var accepted := Accept(s, w);
      assert SafePart(accepted);
      if accepted.signal == Continue {
        assert Safe(accepted.state);
        var known := Authenticate(accepted.state, w);
        assert Safe(known.state);
        if known.signal == Continue {
          ServeIsSafe(known.state, w);
        }
      }
    }
  }

  /**
   * Over whole runs: what was delivered and what remains are the acknowledgement,
   * nothing is delivered without authentication, request and live reader, and a
   * second connection is a failure.
   */
  lemma {:induction false} RunIsSafe(s: State, worlds: seq<World>)
    requires Safe(s)
    ensures Safe(Run(s, worlds))
    decreases |worlds|
  {
    if worlds != [] {
      DrainIsSafe(s, worlds[0]);
      RunIsSafe(Drained(s, worlds[0]), worlds[1..]);
    }
  }

  lemma FreshRunIsSafe(worlds: seq<World>)
    ensures Safe(Run(Fresh(), worlds))
  {
    assert [] + ACK == ACK;
    RunIsSafe(Fresh(), worlds);
  }

  /** What reading a request leaves alone. */
  lemma ReadKeeps(s: State, w: World)
    ensures var t := ReadRequest(s, w).state;
      t == s.(buffer := t.buffer, fixture := t.fixture) && (ReadRequest(s, w).signal == Continue ==> t.fixture.Some?)
  {
  }

  /** A complete proof, of a process that is alive. */
  ghost predicate Shows(w: World, fixture: string) {
    exists birth :: Proof(w.scene, fixture) == Ok(Some(birth)) && w.gone(birth).None?
  }

  lemma ObserveKeeps(s: State, w: World)
    requires s.fixture.Some?
    ensures var t := Observe(s, w).state;
      && t == s.(complete := t.complete, live := t.live) && (s.complete ==> t.complete) && (s.live ==> t.live)
      && (Observe(s, w).signal == Continue ==>
            t.complete && t.live && Shows(w, s.fixture.value) && w.pathAgain.None? && w.later < s.deadline)
  {
    ObservationKeeps(s, w, Proof(w.scene, s.fixture.value));
  }

  lemma ObservationKeeps(s: State, w: World, proof: Result<Option<Birth>, Fault>)
    ensures var o := Observation(s, w, proof);
      && o.state == s.(complete := o.state.complete, live := o.state.live)
      && (s.complete ==> o.state.complete) && (s.live ==> o.state.live)
      && (o.signal == Continue ==>
            o.state.complete && o.state.live && proof.Ok? && proof.value.Some? && w.gone(proof.value.value).None?
            && w.pathAgain.None? && w.later < s.deadline)
  {
  }

  lemma SendKeeps(s: State, w: World)
    ensures var t := Send(s, w).state;
      && t == s.(delivered := t.delivered, remaining := t.remaining, sent := t.sent)
      && s.delivered <= t.delivered && (s.sent ==> t.sent)
  {
  }

  /** What serving a peer changes, and what it takes to deliver. */
  lemma ServeKeeps(s: State, w: World)
    ensures var t := Serve(s, w).state;
      && t.deadline == s.deadline && t.authenticated == s.authenticated && t.connections == s.connections
      && t.failure == s.failure && s.delivered <= t.delivered && (s.sent ==> t.sent) && (s.approved ==> t.approved)
      && (t.delivered != s.delivered ==>
            !s.sent && t.connected == s.connected && t.fixture.Some? && Shows(w, t.fixture.value) && w.pathAgain.None?
            && w.later < t.deadline && t.complete && t.live)
  {
    if !s.sent {
      var read := ReadRequest(s, w);
      ReadKeeps(s, w);
      if read.signal == Continue {
        var observed := Observe(read.state, w);
        ObserveKeeps(read.state, w);
        if observed.signal == Continue {
          SendKeeps(observed.state, w);
        }
      }
    }
  }

  /** What accepting changes. */
  lemma AcceptKeeps(s: State, w: World)
    ensures var a := Accept(s, w);
      && a.state == s.(connections := a.state.connections, connected := a.state.connected, deadline := a.state.deadline)
      && s.connections <= a.state.connections
      && (a.signal == Continue ==>
            a.state.connections == s.connections + w.waiting && (w.waiting == 0 || s.connections == 0))
  {
  }

  /** What authenticating changes. */
  lemma AuthenticateKeeps(s: State, w: World)
    ensures var t := Authenticate(s, w);
      && t.state == s.(authenticated := t.state.authenticated)
      && (t.signal == Continue ==>
            t.state.authenticated && (s.authenticated || w.peer == Ok(true)) && s.connected && w.now < s.deadline)
  {
  }

  /** What one drain sees of a reader: in place, confined by the profile under test, retained with its ancestors, alive. */
  ghost predicate SeesReader(w: World, fixture: string) {
    exists record, reader, host, runner, root ::
      Witnessed(w.scene, fixture, record, reader, host, runner, root) && w.gone(reader.birth).None?
  }

  lemma ShownIsSeen(w: World, fixture: string)
    ensures Shows(w, fixture) <==> SeesReader(w, fixture)
  {
    if Shows(w, fixture) {
      var birth :| Proof(w.scene, fixture) == Ok(Some(birth)) && w.gone(birth).None?;
      ProofIff(w.scene, fixture, birth);
      var record, reader, host, runner, root :|
        Witnessed(w.scene, fixture, record, reader, host, runner, root) && reader.birth == birth;
      assert w.gone(reader.birth).None?;
    }
    if record, reader, host, runner, root :|
      Witnessed(w.scene, fixture, record, reader, host, runner, root) && w.gone(reader.birth).None? {
      ProofIff(w.scene, fixture, reader.birth);
    }
  }

  /**
   * Bytes go out only in a drain that itself finds the path in order, the one reader
   * of the requested fixture in its line of processes, confined and retained, that
   * reader alive, and the time not over.
   */
  lemma BytesNeedProof(s: State, w: World)
    requires Drained(s, w).delivered != s.delivered
    ensures var t := Drained(s, w);
      && s.delivered < t.delivered && !s.sent && t.connected && w.now < t.deadline && w.later < t.deadline
      && w.path.None? && w.pathAgain.None? && t.fixture.Some? && SeesReader(w, t.fixture.value)
      && t.authenticated && (s.authenticated || w.peer == Ok(true)) && t.complete && t.live
      && t.connections == s.connections + w.waiting && (w.waiting == 0 || s.connections == 0)
  {
    var accepted := Accept(s, w);
    AcceptKeeps(s, w);
    var known := Authenticate(accepted.state, w);
    AuthenticateKeeps(accepted.state, w);
    assert w.path.None? && accepted.signal == Continue && known.signal == Continue;
    ServeKeeps(known.state, w);
    ShownIsSeen(w, Drained(s, w).fixture.value);
  }

  /** Over every run: if anything was delivered, one of the drains saw the reader. */
  lemma {:induction false} DeliveryWasSeen(s: State, worlds: seq<World>)
    requires s.delivered == [] && Run(s, worlds).delivered != []
    ensures exists k, fixture :: 0 <= k < |worlds| && SeesReader(worlds[k], fixture)
    decreases |worlds|
  {
    var t := Drained(s, worlds[0]);
    if t.delivered != [] {
      BytesNeedProof(s, worlds[0]);
      assert SeesReader(worlds[0], t.fixture.value);
    } else {
      DeliveryWasSeen(t, worlds[1..]);
      var k, fixture :| 0 <= k < |worlds| - 1 && SeesReader(worlds[1..][k], fixture);
      assert worlds[k + 1] == worlds[1..][k];
    }
  }

  /** A failure stays a failure, and what is counted only grows. */
  lemma {:induction false} FailureSticks(s: State, worlds: seq<World>)
    ensures var t := Run(s, worlds);
      && (s.failure.Some? ==> t.failure.Some?) && s.connections <= t.connections && (s.sent ==> t.sent)
      && (s.approved ==> t.approved) && s.delivered <= t.delivered
    decreases |worlds|
  {
    if worlds != [] {
      DrainGrows(s, worlds[0]);
      FailureSticks(Drained(s, worlds[0]), worlds[1..]);
    }
  }

  lemma DrainGrows(s: State, w: World)
    ensures var t := Drained(s, w);
      && (s.failure.Some? ==> t.failure.Some?) && s.connections <= t.connections && (s.sent ==> t.sent)
      && (s.approved ==> t.approved) && s.delivered <= t.delivered
  {
    var accepted := Accept(s, w);
    AcceptKeeps(s, w);
    if w.path.None? && accepted.signal == Continue {
      var known := Authenticate(accepted.state, w);
      AuthenticateKeeps(accepted.state, w);
      if known.signal == Continue {
        ServeKeeps(known.state, w);
        assert Drain(s, w) == Serve(known.state, w);
      } else {
        assert Drain(s, w) == known;
      }
    }
  }

  /**
   * Evidence in order, with a connection, means exactly one connection and the whole
   * acknowledgement delivered, and it satisfies what a row that needs it requires;
   * without a connection, nothing was delivered.
   */
  lemma OkMeansAcknowledged(worlds: seq<World>)
    ensures var s := Run(Fresh(), worlds); var e := EvidenceOf(s);
      && (e.ok && e.connections != 0 ==> e.connections == 1 && s.delivered == ACK && Satisfies(e))
      && (e.connections == 0 ==> s.delivered == [] && !Satisfies(e))
      && (Satisfies(e) ==> s.delivered == ACK)
  {
    var s := Run(Fresh(), worlds);
    FreshRunIsSafe(worlds);
    if s.remaining == [] {
      assert s.delivered + [] == s.delivered;
      assert ACK != [];
    }
  }
}
