/** The acknowledgement that a live reader was observed: scripts/gates/darwin/focused_reader_barrier.py. */
module ReaderBarrier {
  import opened Wrappers
  import opened ReaderProof

  const ACK := "{\"version\":1,\"observed\":true}\n"
  const REQUEST_LIMIT: nat := 4096
  const SECONDS: int := 15

  datatype Receive = Blocked | Bytes(data: string) | Broken

  datatype Sending = Busy | Took(count: nat) | Refused

  /**
   * What the world answers during one drain: the checks of the socket's path, the
   * peers waiting, the clock, the peer's identity, what can be read, what a request
   * asks for, what is known of the reader, whether a process is alive, and what the
   * send takes.
   */
  datatype World = World(path: Option<Fault>, waiting: nat, acceptedAt: int, now: int, peer: Result<bool, Fault>,
                         received: Receive, request: string -> Result<string, Fault>, scene: Scene,
                         gone: Birth -> Option<Fault>, pathAgain: Option<Fault>, later: int, sending: Sending,
                         shutdown: Option<Fault>)

  /** The barrier; `delivered` is what the peer was sent. */
  datatype State = State(connected: bool, connections: nat, deadline: int, authenticated: bool, buffer: string,
                         fixture: Option<string>, complete: bool, live: bool, remaining: string, delivered: string,
                         sent: bool, approved: bool, failure: Option<Fault>)

  /** A part of a drain goes on, ends the drain, or fails it. */
  datatype Signal = Continue | Return | Fail(fault: Fault)

  datatype Part = Part(state: State, signal: Signal)

  function Least(a: nat, b: nat): nat {
    if a < b then a else b
  }

  // ------------------------------------------------------------------
  // One drain
  // ------------------------------------------------------------------

  /** Only the first peer is accepted. */
  function Accept(s: State, w: World): Part {
    if w.waiting == 0 then Part(s, Continue)
    else if s.connections == 0 && w.waiting == 1 then
      Part(s.(connections := 1, connected := true, deadline := w.acceptedAt + SECONDS), Continue)
    else if s.connections == 0 then
      Part(s.(connections := 2, connected := true, deadline := w.acceptedAt + SECONDS), Fail(SecondConnection))
    else Part(s.(connections := s.connections + 1), Fail(SecondConnection))
  }

  function Authenticate(s: State, w: World): Part {
    if !s.connected then Part(s, Return)
    else if w.now >= s.deadline then Part(s, Fail(Timeout))
    else if s.authenticated then Part(s, Continue)
    else
      match w.peer
      case Err(fault) => Part(s, Fail(fault))
      case Ok(known) => if known then Part(s.(authenticated := true), Continue) else Part(s, Return)
  }

  /** After the acknowledgement the peer may only close. */
  function AwaitClose(s: State, w: World): Part {
    match w.received
    case Blocked => Part(s, Return)
    case Broken => Part(s, Fail(Transport))
    case Bytes(data) =>
      if data != [] then Part(s, Fail(Protocol)) else Part(s.(connected := false, approved := true), Return)
  }

  /** The request is read up to its line feed; after it nothing may come. */
  function ReadRequest(s: State, w: World): (p: Part)
    ensures p.signal == Continue ==> p.state.fixture.Some?
  {
    if s.fixture.Some? then
      match w.received
      case Blocked => Part(s, Continue)
      case Broken => Part(s, Fail(Transport))
      case Bytes(data) => Part(s, Fail(if data == [] then Eof else Protocol))
    else
      match w.received
      case Blocked => Part(s, Return)
      case Broken => Part(s, Fail(Transport))
      case Bytes(data) =>
        var room := if |s.buffer| <= REQUEST_LIMIT then REQUEST_LIMIT + 1 - |s.buffer| else 0;
        var read := data[..Least(|data|, room)];
        if read == [] then Part(s, Fail(Eof))
        else
          var t := s.(buffer := s.buffer + read);
          if |t.buffer| > REQUEST_LIMIT then Part(t, Fail(Protocol))
          else if '\n' !in t.buffer then Part(t, Return)
          else
            match w.request(t.buffer)
            case Err(fault) => Part(t, Fail(fault))
            case Ok(fixture) => Part(t.(fixture := Some(fixture)), Continue)
  }

  /** The reader is observed completely, and then found alive. */
  function Observe(s: State, w: World): Part
    requires s.fixture.Some?
  {
    Observation(s, w, Proof(w.scene, s.fixture.value))
  }

  function Observation(s: State, w: World, proof: Result<Option<Birth>, Fault>): Part {
    match proof
    case Err(fault) => Part(s, Fail(fault))
    case Ok(None) => Part(s, Return)
    case Ok(Some(birth)) =>
      var t := s.(complete := true);
      if w.gone(birth).Some? then Part(t, Fail(w.gone(birth).value))
      else
        var u := t.(live := true);
        if w.pathAgain.Some? then Part(u, Fail(w.pathAgain.value))
        else if w.later >= s.deadline then Part(u, Fail(Timeout))
        else Part(u, Continue)
  }

  /** The peer takes what it can of the rest of the acknowledgement. */
  function Send(s: State, w: World): Part {
    match w.sending
    case Busy => Part(s, Return)
    case Refused => Part(s, Fail(Transport))
    case Took(count) =>
      var n := Least(count, |s.remaining|);
      if n == 0 then Part(s, Fail(Ack))
      else
        var t := s.(delivered := s.delivered + s.remaining[..n], remaining := s.remaining[n..]);
        if t.remaining != [] then Part(t, Return)
        else if w.shutdown.Some? then Part(t, Fail(w.shutdown.value))
        else Part(t.(sent := true), Return)
  }

  /** What happens once the peer is known. */
  function Serve(s: State, w: World): Part {
    if s.sent then AwaitClose(s, w)
    else
      var read := ReadRequest(s, w);
      if read.signal != Continue then read
      else
        var observed := Observe(read.state, w);
        if observed.signal != Continue then observed else Send(observed.state, w)
  }

  function Drain(s: State, w: World): Part {
    if w.path.Some? then Part(s, Fail(w.path.value))
    else
      var accepted := Accept(s, w);
      if accepted.signal != Continue then accepted
      else
        var known := Authenticate(accepted.state, w);
        if known.signal != Continue then known else Serve(known.state, w)
  }

  /** The state after a drain; a fault is remembered. */
  function Drained(s: State, w: World): State {
    var part := Drain(s, w);
    if part.signal.Fail? then part.state.(failure := Some(part.signal.fault)) else part.state
  }

  datatype Evidence = Evidence(enabled: bool, ok: bool, connections: nat, authenticated: bool, approved: bool,
                               complete: bool, live: bool, failure: Option<Fault>)

  function EvidenceOf(s: State): Evidence {
    Evidence(s.connections != 0, s.failure.None? && (s.connections == 0 || s.approved), s.connections, s.authenticated,
             s.approved, s.complete, s.live, s.failure)
  }

  /** What is required of the evidence of a row that needs it. */
  predicate Satisfies(e: Evidence) {
    e.enabled && e.ok && e.authenticated && e.approved && e.complete && e.live && e.connections == 1 && e.failure.None?
  }

  function Fresh(): State {
    State(false, 0, 0, false, [], None, false, false, ACK, [], false, false, None)
  }

  class ReaderBarrier {
    var connected: bool
    var connections: nat
    var deadline: int
    var authenticated: bool
    var buffer: string
    var fixture: Option<string>
    var complete: bool
    var live: bool
    var remaining: string
    ghost var delivered: string
    var sent: bool
    var approved: bool
    var failure: Option<Fault>

    constructor ()
      ensures Value() == Fresh()
    {
      connected, connections, deadline, authenticated, buffer, fixture := false, 0, 0, false, [], None;
      complete, live, remaining, delivered, sent, approved, failure := false, false, ACK, [], false, false, None;
    }

    ghost function Value(): State
      reads this
    {
      State(connected, connections, deadline, authenticated, buffer, fixture, complete, live, remaining, delivered, sent,
            approved, failure)
    }

    method AcceptPeers(w: World) returns (signal: Signal)
      modifies this
      ensures Part(Value(), signal) == Accept(old(Value()), w)
    {
      var waiting := w.waiting;
      while waiting > 0
        invariant 0 <= waiting <= w.waiting
        invariant waiting == w.waiting ==> Value() == old(Value())
        invariant waiting < w.waiting ==> waiting == w.waiting - 1 && old(connections) == 0
        invariant waiting < w.waiting ==>
          Value() == old(Value()).(connections := 1, connected := true, deadline := w.acceptedAt + SECONDS)
      {
        connections := connections + 1;
        if connections != 1 {
          return Fail(SecondConnection);
        }
        connected := true;
        deadline := w.acceptedAt + SECONDS;
        waiting := waiting - 1;
      }
      signal := Continue;
    }

    method CheckPeer(w: World) returns (signal: Signal)
      modifies this
      ensures Part(Value(), signal) == Authenticate(old(Value()), w)
    {
      if !connected {
        return Return;
      }
      if w.now >= deadline {
        return Fail(Timeout);
      }
      if !authenticated {
        if w.peer.Err? {
          return Fail(w.peer.error);
        }
        if !w.peer.value {
          return Return;
        }
        authenticated := true;
      }
      signal := Continue;
    }

    method TakeRequest(w: World) returns (signal: Signal)
      modifies this
      ensures Part(Value(), signal) == ReadRequest(old(Value()), w)
    {
      if fixture.Some? {
        if w.received.Bytes? {
          return Fail(if w.received.data == [] then Eof else Protocol);
        }
        return if w.received.Blocked? then Continue else Fail(Transport);
      }
      if !w.received.Bytes? {
        return if w.received.Blocked? then Return else Fail(Transport);
      }
      var room := if |buffer| <= REQUEST_LIMIT then REQUEST_LIMIT + 1 - |buffer| else 0;
      var read := w.received.data[..Least(|w.received.data|, room)];
      if read == [] {
        return Fail(Eof);
      }
      buffer := buffer + read;
      if |buffer| > REQUEST_LIMIT {
        return Fail(Protocol);
      }
      if '\n' !in buffer {
        return Return;
      }
      var request := w.request(buffer);
      if request.Err? {
        return Fail(request.error);
      }
      fixture := Some(request.value);
      signal := Continue;
    }

    method CheckReader(w: World) returns (signal: Signal)
      requires fixture.Some?
      modifies this
      ensures Part(Value(), signal) == Observe(old(Value()), w)
    {
      var proof := ProveReader(w.scene, fixture.value);
      if proof.Err? {
        return Fail(proof.error);
      }
      if proof.value.None? {
        return Return;
      }
      complete := true;
      var gone := w.gone(proof.value.value);
      if gone.Some? {
        return Fail(gone.value);
      }
      live := true;
      if w.pathAgain.Some? {
        return Fail(w.pathAgain.value);
      }
      signal := if w.later >= deadline then Fail(Timeout) else Continue;
    }

    method SendRest(w: World) returns (signal: Signal)
      modifies this
      ensures Part(Value(), signal) == Send(old(Value()), w)
    {
      if !w.sending.Took? {
        return if w.sending.Busy? then Return else Fail(Transport);
      }
      var n := Least(w.sending.count, |remaining|);
      if n == 0 {
        return Fail(Ack);
      }
      delivered := delivered + remaining[..n];
      remaining := remaining[n..];
      if remaining == [] {
        if w.shutdown.Some? {
          return Fail(w.shutdown.value);
        }
        sent := true;
      }
      signal := Return;
    }

    method ServePeer(w: World) returns (signal: Signal)
      modifies this
      ensures Part(Value(), signal) == Serve(old(Value()), w)
    {
      if sent {
        if !w.received.Bytes? {
          return if w.received.Blocked? then Return else Fail(Transport);
        }
        if w.received.data != [] {
          return Fail(Protocol);
        }
        connected, approved := false, true;
        return Return;
      }
      signal := TakeRequest(w);
      if signal == Continue {
        signal := CheckReader(w);
        if signal == Continue {
          signal := SendRest(w);
        }
      }
    }

    /** One drain; a fault is remembered and raised. */
    method DrainOnce(w: World) returns (raised: Option<Fault>)
      modifies this
      ensures Value() == Drained(old(Value()), w)
      ensures raised == if Drain(old(Value()), w).signal.Fail? then Some(Drain(old(Value()), w).signal.fault) else None
    {
      var signal := Continue;
      if w.path.Some? {
        signal := Fail(w.path.value);
      } else {
        signal := AcceptPeers(w);
        if signal == Continue {
          signal := CheckPeer(w);
          if signal == Continue {
            signal := ServePeer(w);
          }
        }
      }
      raised := None;
      if signal.Fail? {
        failure := Some(signal.fault);
        raised := failure;
      }
    }

    /** The last drain; evidence that is not in order is a missing acknowledgement. */
    method Finish(w: World) returns (evidence: Result<Evidence, Fault>)
      modifies this
      ensures var s := Drained(old(Value()), w);
        && Value() == (if EvidenceOf(s).ok || s.failure.Some? then s else s.(failure := Some(MissingAck)))
        && (evidence.Ok? <==> EvidenceOf(s).ok) && (evidence.Ok? ==> evidence.value == EvidenceOf(s))
        && (evidence.Err? ==> Value().failure == Some(evidence.error))
    {
      var raised := DrainOnce(w);
      if raised.Some? {
        return Err(raised.value);
      }
      if failure.Some? || (connections != 0 && !approved) {
        if failure.None? {
          failure := Some(MissingAck);
        }
        return Err(failure.value);
      }
      evidence := Ok(Evidence(connections != 0, true, connections, authenticated, approved, complete, live, failure));
    }
  }
}
