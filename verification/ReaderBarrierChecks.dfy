/** How far a drain of the reader barrier gets, and the run that succeeds: scripts/gates/darwin/focused_reader_barrier.py. */
module ReaderBarrierChecks {
  import opened Wrappers
  import opened ReaderProof
  import opened ReaderBarrier
  import opened ReaderBarrierProofs

  // ------------------------------------------------------------------
  // The checks of one drain, in their order
  // ------------------------------------------------------------------

  /** Until when the connection may last. */
  function Due(s: State, w: World): int {
    if w.waiting > 0 then w.acceptedAt + 15 else s.deadline
  }

  function Text(w: World): string {
    match w.received
    case Bytes(data) => data
    case _ => ""
  }

  /** The fixture that was asked for, once the whole request is there. */
  function Asked(s: State, w: World): Option<string> {
    if s.fixture.Some? then s.fixture
    else if w.received.Bytes? && Text(w) != "" && |s.buffer + Text(w)| <= 4096 && '\n' in s.buffer + Text(w) then
      match w.request(s.buffer + Text(w))
      case Ok(fixture) => Some(fixture)
      case Err(_) => None
    else None
  }

  /** The reader that the scene proves. */
  function Proven(s: State, w: World): Option<Birth> {
    if Asked(s, w).None? then None
    else
      match Proof(w.scene, Asked(s, w).value)
      case Ok(birth) => birth
      case Err(_) => None
  }

  function Takes(s: State, w: World): nat {
    match w.sending
    case Took(count) => if count < |s.remaining| then count else |s.remaining|
    case _ => 0
  }

  /** Check number `n` of a drain is passed, those before it being passed. */
  predicate Clears(s: State, w: World, n: nat) {
    match n
    case 0 => w.path == None
    case 1 => w.waiting == 0 || (w.waiting == 1 && s.connections == 0)
    case 2 => s.connected || w.waiting == 1
    case 3 => w.now < Due(s, w)
    case 4 => s.authenticated || w.peer == Ok(true)
    case 5 => if s.sent then w.received == Bytes("") else Asked(s, w).Some? && (s.fixture.Some? ==> w.received == Blocked)
    case 6 => Proven(s, w).Some?
    case 7 => Proven(s, w).Some? && w.gone(Proven(s, w).value) == None
    case 8 => w.pathAgain == None
    case 9 => w.later < Due(s, w)
    case 10 => Takes(s, w) > 0
    case 11 => Takes(s, w) == |s.remaining|
    case 12 => w.shutdown == None
    case _ => true
  }

  /** A drain has this many checks; one of an acknowledged peer has fewer. */
  function Checks(s: State): nat {
    if s.sent then 6 else 13
  }

  /** The drain ends at check `n`: it passed those before, and does not pass this one or has no more. */
  ghost predicate EndsAt(s: State, w: World, n: nat) {
    n <= Checks(s) && (forall i: nat :: i < n ==> Clears(s, w, i)) && (n < Checks(s) ==> !Clears(s, w, n))
  }

  /** What a check that is not passed means. */
  function Verdict(s: State, w: World, n: nat): Signal {
    match n
    case 0 => Fail(w.path.GetOr(Transport))
    case 1 => Fail(SecondConnection)
    case 3 => Fail(Timeout)
    case 4 => if w.peer.Err? then Fail(w.peer.error) else Return
    case 5 =>
      (match w.received
       case Blocked => Return
       case Broken => Fail(Transport)
       case Bytes(data) =>
         if s.sent then Fail(Protocol)
         else if s.fixture.Some? then Fail(if data == "" then Eof else Protocol)
         else if data == "" || |s.buffer| > 4096 then Fail(Eof)
         else if |s.buffer + data| > 4096 then Fail(Protocol)
         else if '\n' !in s.buffer + data then Return
         else match w.request(s.buffer + data) case Err(fault) => Fail(fault) case Ok(_) => Return)
    case 6 => if s.sent then Return else (match Proof(w.scene, Asked(s, w).GetOr("")) case Err(fault) => Fail(fault) case Ok(_) => Return)
    case 7 => if Proven(s, w).Some? then Fail(w.gone(Proven(s, w).value).GetOr(Transport)) else Return
    case 8 => Fail(w.pathAgain.GetOr(Transport))
    case 9 => Fail(Timeout)
    case 10 => if w.sending.Busy? then Return else if w.sending.Refused? then Fail(Transport) else Fail(Ack)
    case 12 => Fail(w.shutdown.GetOr(Transport))
    case _ => Return
  }

  /** What a drain that ends at check `n` leaves. */
  ghost predicate Leaves(s: State, w: World, n: nat, t: State) {
    && (n > 1 ==> t.connections == s.connections + w.waiting && t.deadline == Due(s, w))
    && (n == 1 ==> t.connections == (if s.connections == 0 then 2 else s.connections + 1))
    && (n == 0 ==> t.connections == s.connections)
    && (n > 1 ==> t.connected == ((s.connected || w.waiting == 1) && !(s.sent && n == 6)))
    && (t.authenticated <==> s.authenticated || n > 4)
    && t.fixture == (if n > 5 && !s.sent then Asked(s, w) else s.fixture)
    && (t.complete <==> s.complete || (n > 6 && !s.sent))
    && (t.live <==> s.live || (n > 7 && !s.sent))
    && t.delivered == s.delivered + (if n > 10 then s.remaining[..Takes(s, w)] else [])
    && t.remaining == (if n > 10 then s.remaining[Takes(s, w)..] else s.remaining)
    && (t.sent <==> s.sent || n > 12)
    && (t.approved <==> s.approved || (s.sent && n == 6))
  }

  /** The text of a request that is being read. */
  ghost predicate Buffers(s: State, w: World, n: nat, t: State) {
    if n >= 5 && !s.sent && s.fixture.None? && w.received.Bytes? && |s.buffer + Text(w)| <= 4096
    then t.buffer == s.buffer + Text(w)
    else t.buffer == s.buffer || (n >= 5 && !s.sent && s.fixture.None? && s.buffer < t.buffer && |t.buffer| > 4096)
  }

  /** Reading a request, when it is looked for. */
  lemma ReadEnds(s: State, w: World, t: State)
    requires !s.sent && t.sent == s.sent && t.buffer == s.buffer && t.fixture == s.fixture
    ensures var read := ReadRequest(t, w);
      && (Clears(s, w, 5) <==> read.signal == Continue)
      && (Clears(s, w, 5) ==> read.state == t.(fixture := Asked(s, w), buffer := read.state.buffer))
      && (!Clears(s, w, 5) ==> read.signal == Verdict(s, w, 5) && read.state == t.(buffer := read.state.buffer))
      && Buffers(s, w, 5, read.state)
  {
    if s.fixture.None? && w.received.Bytes? {
      var data := w.received.data;
      var room := if |s.buffer| <= REQUEST_LIMIT then REQUEST_LIMIT + 1 - |s.buffer| else 0;
      var read := data[..Least(|data|, room)];
      if |data| <= room {
        assert read == data;
      }
    }
  }

  /** Observing the reader of the fixture asked for. */
  lemma ObserveEnds(s: State, w: World, t: State)
    requires !s.sent && Asked(s, w).Some? && t.fixture == Asked(s, w) && t.deadline == Due(s, w)
    ensures var seen := Observe(t, w);
      && (seen.signal == Continue <==> Clears(s, w, 6) && Clears(s, w, 7) && Clears(s, w, 8) && Clears(s, w, 9))
      && (!Clears(s, w, 6) ==> seen == Part(t, Verdict(s, w, 6)))
      && (Clears(s, w, 6) && !Clears(s, w, 7) ==> seen == Part(t.(complete := true), Verdict(s, w, 7)))
      && (Clears(s, w, 7) && !Clears(s, w, 8) ==> seen == Part(t.(complete := true, live := true), Verdict(s, w, 8)))
      && (Clears(s, w, 7) && Clears(s, w, 8) && !Clears(s, w, 9) ==>
            seen == Part(t.(complete := true, live := true), Verdict(s, w, 9)))
      && (seen.signal == Continue ==> seen.state == t.(complete := true, live := true))
  {
  }

  ghost predicate SendLaw(s: State, w: World, t: State) {
    var out := Send(t, w);
    && (!Clears(s, w, 10) ==> out == Part(t, Verdict(s, w, 10)))
    && (Clears(s, w, 10) ==>
          out.state == t.(delivered := s.delivered + s.remaining[..Takes(s, w)], remaining := s.remaining[Takes(s, w)..],
                          sent := Clears(s, w, 11) && Clears(s, w, 12))
          && out.signal == if Clears(s, w, 11) && !Clears(s, w, 12) then Verdict(s, w, 12) else Return)
  }

  lemma SendEnds(s: State, w: World, t: State)
    requires t.remaining == s.remaining && t.delivered == s.delivered && !s.sent && t.sent == s.sent
    ensures SendLaw(s, w, t)
  {
  }

  /** The number of the check at which a drain ends. */
  function Reach(s: State, w: World, from: nat): nat
    decreases Checks(s) - from
  {
    if from >= Checks(s) || !Clears(s, w, from) then from else Reach(s, w, from + 1)
  }

  lemma {:induction false} ReachEnds(s: State, w: World, from: nat)
    requires from <= Checks(s) && forall i: nat :: i < from ==> Clears(s, w, i)
    ensures EndsAt(s, w, Reach(s, w, from))
    decreases Checks(s) - from
  {
    if from < Checks(s) && Clears(s, w, from) { ReachEnds(s, w, from + 1); }
  }

  /** What all of it comes to. */
  ghost predicate Lawful(s: State, w: World, n: nat, p: Part) {
    p.signal == Verdict(s, w, n) && Leaves(s, w, n, p.state) && Buffers(s, w, n, p.state)
  }

  lemma UnacceptedEnds(s: State, w: World, n: nat)
    requires EndsAt(s, w, n) && n <= 1
    ensures Lawful(s, w, n, Drain(s, w))
  {
    assert n > 0 ==> Clears(s, w, 0);
    assert s.delivered + [] == s.delivered;
  }

  lemma UnknownEnds(s: State, w: World, n: nat)
    requires EndsAt(s, w, n) && 2 <= n <= 4
    ensures Lawful(s, w, n, Drain(s, w))
  {
    assert Clears(s, w, 0) && Clears(s, w, 1);
    assert n > 2 ==> Clears(s, w, 2);
    assert n > 3 ==> Clears(s, w, 3);
    assert s.delivered + [] == s.delivered;
  }

  /** The state once the peer is known. */
  function Known(s: State, w: World): State {
    s.(connections := s.connections + w.waiting, connected := true, deadline := Due(s, w), authenticated := true)
  }

  lemma Accepts(s: State, w: World)
    requires Clears(s, w, 1) && Clears(s, w, 2)
    ensures Accept(s, w) == Part(s.(connections := s.connections + w.waiting, connected := true, deadline := Due(s, w)), Continue)
  {
  }

  lemma Authenticates(s: State, w: World, t: State)
    requires Clears(s, w, 3) && Clears(s, w, 4) && t.connected && t.deadline == Due(s, w) && t.authenticated == s.authenticated
    ensures Authenticate(t, w) == Part(t.(authenticated := true), Continue)
  {
  }

  lemma KnownServes(s: State, w: World)
    requires Clears(s, w, 0) && Clears(s, w, 1) && Clears(s, w, 2) && Clears(s, w, 3) && Clears(s, w, 4)
    ensures Drain(s, w) == Serve(Known(s, w), w)
  {
    Accepts(s, w);
    var accepted := Accept(s, w).state;
    Authenticates(s, w, accepted);
    DrainServes(s, w, accepted, Known(s, w));
  }

  lemma DrainServes(s: State, w: World, accepted: State, known: State)
    requires w.path.None? && Accept(s, w) == Part(accepted, Continue) && Authenticate(accepted, w) == Part(known, Continue)
    ensures Drain(s, w) == Serve(known, w)
  {
  }

  lemma SentEnds(s: State, w: World, n: nat)
    requires EndsAt(s, w, n) && n >= 5 && s.sent
    ensures Lawful(s, w, n, Drain(s, w))
  {
    assert Clears(s, w, 0) && Clears(s, w, 1) && Clears(s, w, 2) && Clears(s, w, 3) && Clears(s, w, 4);
    KnownServes(s, w);
    assert n == 6 ==> Clears(s, w, 5);
    assert s.delivered + [] == s.delivered;
  }

  lemma ReadingEnds(s: State, w: World)
    requires EndsAt(s, w, 5) && !s.sent
    ensures Lawful(s, w, 5, Drain(s, w))
  {
    assert Clears(s, w, 0) && Clears(s, w, 1) && Clears(s, w, 2) && Clears(s, w, 3) && Clears(s, w, 4);
    KnownServes(s, w);
    ReadEnds(s, w, Known(s, w));
    assert s.delivered + [] == s.delivered;
  }

  lemma ObservingEnds(s: State, w: World, n: nat)
    requires EndsAt(s, w, n) && 6 <= n <= 9 && !s.sent
    ensures Lawful(s, w, n, Drain(s, w))
  {
    assert Clears(s, w, 0) && Clears(s, w, 1) && Clears(s, w, 2) && Clears(s, w, 3) && Clears(s, w, 4) && Clears(s, w, 5);
    KnownServes(s, w);
    var t := Known(s, w);
    ReadEnds(s, w, t);
    ObserveEnds(s, w, ReadRequest(t, w).state);
    assert n > 6 ==> Clears(s, w, 6);
    assert n > 7 ==> Clears(s, w, 7);
    assert n > 8 ==> Clears(s, w, 8);
    assert s.delivered + [] == s.delivered;
  }

  lemma ServeSends(s: State, w: World, t: State)
    requires !s.sent && t == Known(s, w) && forall i: nat :: 5 <= i < 10 ==> Clears(s, w, i)
    ensures var ready := t.(fixture := Asked(s, w), buffer := ReadRequest(t, w).state.buffer, complete := true, live := true);
      Serve(t, w) == Send(ready, w) && Buffers(s, w, 5, ready)
  {
    assert Clears(s, w, 5) && Clears(s, w, 6) && Clears(s, w, 7) && Clears(s, w, 8) && Clears(s, w, 9);
    ReadEnds(s, w, t);
    ObserveEnds(s, w, ReadRequest(t, w).state);
  }

  lemma SendingEnds(s: State, w: World, n: nat)
    requires EndsAt(s, w, n) && n >= 10 && !s.sent
    ensures Lawful(s, w, n, Drain(s, w))
  {
    assert Clears(s, w, 0) && Clears(s, w, 1) && Clears(s, w, 2) && Clears(s, w, 3) && Clears(s, w, 4);
    KnownServes(s, w);
    var t := Known(s, w);
    ServeSends(s, w, t);
    var ready := t.(fixture := Asked(s, w), buffer := ReadRequest(t, w).state.buffer, complete := true, live := true);
    SendEnds(s, w, ready);
    SentLawful(s, w, n, ready);
  }

  lemma SentLawful(s: State, w: World, n: nat, ready: State)
    requires EndsAt(s, w, n) && n >= 10 && !s.sent && Buffers(s, w, 5, ready) && w.waiting <= 1
    requires ready == Known(s, w).(fixture := Asked(s, w), buffer := ready.buffer, complete := true, live := true)
    requires SendLaw(s, w, ready)
    ensures Lawful(s, w, n, Send(ready, w))
  {
    assert Clears(s, w, 1) && Clears(s, w, 2);
    assert n > 10 ==> Clears(s, w, 10);
    assert n > 11 ==> Clears(s, w, 11);
    assert n > 12 ==> Clears(s, w, 12);
    assert s.delivered + [] == s.delivered;
  }

  /** Every drain, of any barrier in any world, ends at one check, with what that check means and leaves. */
  lemma DrainIsLawful(s: State, w: World) returns (n: nat)
    ensures EndsAt(s, w, n) && Lawful(s, w, n, Drain(s, w))
  {
    n := Reach(s, w, 0);
    ReachEnds(s, w, 0);
    if n <= 1 {
      UnacceptedEnds(s, w, n);
    } else if n <= 4 {
      UnknownEnds(s, w, n);
    } else if s.sent {
      SentEnds(s, w, n);
    } else if n == 5 {
      ReadingEnds(s, w);
    } else if n <= 9 {
      ObservingEnds(s, w, n);
    } else {
      SendingEnds(s, w, n);
    }
  }

  // ------------------------------------------------------------------
  // The runs that succeed
  // ------------------------------------------------------------------

  /** How far the conversation with the one peer has come. */
  datatype Stage =
    | Idle
    | Unknown(due: int)
    | Reading(due: int, heard: string)
    | Sending(due: int, fixture: string, taken: nat)
    | Closing(due: int)
    | Closed
    | Failed

  /** The acknowledgement is offered to a peer whose reader is proven, and taken piece by piece. */
  function Offered(due: int, fixture: string, taken: nat, w: World): Stage {
    OfferedBy(due, fixture, taken, w, Proof(w.scene, fixture))
  }

  function OfferedBy(due: int, fixture: string, taken: nat, w: World, proof: Result<Option<Birth>, Fault>): Stage {
    match proof
    case Err(_) => Failed
    case Ok(None) => Sending(due, fixture, taken)
    case Ok(Some(birth)) =>
      if w.gone(birth).Some? || w.pathAgain.Some? || w.later >= due then Failed
      else
        match w.sending
        case Busy => Sending(due, fixture, taken)
        case Refused => Failed
        case Took(count) =>
          if count == 0 then Failed
          else if taken + count < |ACK| then Sending(due, fixture, taken + count)
          else if w.shutdown.Some? then Failed else Closing(due)
  }

  function Heard(due: int, heard: string, w: World): Stage {
    match w.received
    case Blocked => Reading(due, heard)
    case Broken => Failed
    case Bytes(data) =>
      if data == "" || |heard + data| > 4096 then Failed
      else if '\n' !in heard + data then Reading(due, heard + data)
      else
        match w.request(heard + data)
        case Err(_) => Failed
        case Ok(fixture) => Offered(due, fixture, 0, w)
  }

  function Greeted(due: int, w: World): Stage {
    if w.now >= due then Failed
    else
      match w.peer
      case Err(_) => Failed
      case Ok(false) => Unknown(due)
      case Ok(true) => Heard(due, "", w)
  }

  /** The conversation after one more drain. */
  function After(stage: Stage, w: World): Stage {
    if w.path.Some? || stage == Failed then Failed
    else if stage == Idle then
      if w.waiting == 0 then Idle else if w.waiting == 1 then Greeted(w.acceptedAt + 15, w) else Failed
    else if w.waiting > 0 then Failed
    else if stage == Closed then Closed
    else if w.now >= stage.due then Failed
    else
      match stage
      case Unknown(due) => Greeted(due, w)
      case Reading(due, heard) => Heard(due, heard, w)
      case Sending(due, fixture, taken) => if w.received == Blocked then Offered(due, fixture, taken, w) else Failed
      case Closing(due) => if w.received == Blocked then Closing(due) else if w.received == Bytes("") then Closed else Failed
  }

  function Course(stage: Stage, worlds: seq<World>): Stage
    decreases |worlds|
  {
    if worlds == [] then stage else Course(After(stage, worlds[0]), worlds[1..])
  }

  /** The one peer, not known yet. */
  function Connected(due: int): State {
    Fresh().(connections := 1, connected := true, deadline := due)
  }

  ghost predicate Matches(stage: Stage, s: State) {
    match stage
    case Idle => s == Fresh()
    case Unknown(due) => s == Connected(due)
    case Reading(due, heard) =>
      s == Connected(due).(authenticated := true, buffer := heard) && |heard| <= 4096
    case Sending(due, fixture, taken) =>
      && s == Connected(due).(authenticated := true, buffer := s.buffer, fixture := Some(fixture), complete := s.complete,
                              live := s.live, delivered := s.delivered, remaining := s.remaining)
      && taken < |ACK| && s.delivered == ACK[..taken] && s.remaining == ACK[taken..]
    case Closing(due) =>
      s == Connected(due).(authenticated := true, buffer := s.buffer, fixture := s.fixture, complete := true, live := true,
                           delivered := ACK, remaining := "", sent := true)
    case Closed =>
      s == Connected(s.deadline).(connected := false, authenticated := true, buffer := s.buffer, fixture := s.fixture,
                                  complete := true, live := true, delivered := ACK, remaining := "", sent := true,
                                  approved := true)
    case Failed => s.failure.Some?
  }

  function Noted(p: Part): State {
    if p.signal.Fail? then p.state.(failure := Some(p.signal.fault)) else p.state
  }

  /** Observing and sending, from a state with a whole request. */
  function Offer(s: State, w: World): Part
    requires s.fixture.Some?
  {
    var seen := Observe(s, w);
    if seen.signal != Continue then seen else Send(seen.state, w)
  }

  lemma CutFurther(text: string, taken: nat, n: nat)
    requires taken + n <= |text|
    ensures text[..taken] + text[taken..][..n] == text[..taken + n] && text[taken..][n..] == text[taken + n..]
    ensures taken + n == |text| ==> text[..taken + n] == text && text[taken + n..] == ""
  {
  }

  lemma SendMatches(due: int, fixture: string, taken: nat, s: State, w: World)
    requires Matches(Sending(due, fixture, taken), s) && s.complete && s.live && w.sending.Took? && w.sending.count > 0
    ensures Matches(if taken + w.sending.count < |ACK| then Sending(due, fixture, taken + w.sending.count)
                    else if w.shutdown.Some? then Failed else Closing(due), Noted(Send(s, w)))
  {
    CutFurther(ACK, taken, Least(w.sending.count, |s.remaining|));
  }

  lemma OfferMatchesBy(due: int, fixture: string, taken: nat, s: State, w: World, proof: Result<Option<Birth>, Fault>)
    requires Matches(Sending(due, fixture, taken), s)
    ensures var seen := Observation(s, w, proof);
      Matches(OfferedBy(due, fixture, taken, w, proof), Noted(if seen.signal != Continue then seen else Send(seen.state, w)))
  {
    var seen := Observation(s, w, proof);
    if seen.signal == Continue {
      assert seen.state == s.(complete := true, live := true);
      if w.sending.Took? && w.sending.count > 0 {
        SendMatches(due, fixture, taken, seen.state, w);
      }
    }
  }

  lemma OfferMatches(due: int, fixture: string, taken: nat, s: State, w: World)
    requires Matches(Sending(due, fixture, taken), s)
    ensures Matches(Offered(due, fixture, taken, w), Noted(Offer(s, w)))
  {
    OfferMatchesBy(due, fixture, taken, s, w, Proof(w.scene, fixture));
  }

  lemma HeardMatches(due: int, heard: string, s: State, w: World)
    requires Matches(Reading(due, heard), s)
    ensures Matches(Heard(due, heard, w), Noted(Serve(s, w)))
  {
    var read := ReadRequest(s, w);
    RequestRead(due, heard, s, w);
    if read.signal == Continue {
      assert ACK[..0] == "" && ACK[0..] == ACK;
      OfferMatches(due, read.state.fixture.value, 0, read.state, w);
      assert Serve(s, w) == Offer(read.state, w);
    }
  }

  /** What comes of reading, by the text that is there. */
  lemma RequestRead(due: int, heard: string, s: State, w: World)
    requires Matches(Reading(due, heard), s)
    ensures var read := ReadRequest(s, w);
      match w.received
      case Blocked => read == Part(s, Return)
      case Broken => read.signal.Fail?
      case Bytes(data) =>
        if data == "" || |heard + data| > 4096 then read.signal.Fail?
        else
          var t := s.(buffer := heard + data);
          if '\n' !in heard + data then read == Part(t, Return)
          else match w.request(heard + data)
            case Err(_) => read.signal.Fail?
            case Ok(fixture) => read == Part(t.(fixture := Some(fixture)), Continue)
  {
    if w.received.Bytes? {
      var data := w.received.data;
      var room := 4097 - |heard|;
      var read := data[..Least(|data|, room)];
      if |data| <= room { assert read == data; }
    }
  }

  lemma GreetedMatches(due: int, w: World)
    ensures var known := Authenticate(Connected(due), w);
      Matches(Greeted(due, w), Noted(if known.signal != Continue then known else Serve(known.state, w)))
  {
    if w.now < due && w.peer == Ok(true) {
      HeardMatches(due, "", Connected(due).(authenticated := true), w);
    }
  }

  lemma ServeMatches(stage: Stage, s: State, w: World)
    requires Matches(stage, s) && w.path.None? && w.waiting == 0
    requires stage.Reading? || stage.Sending? || stage.Closing?
    ensures Matches(After(stage, w), Drained(s, w))
  {
    assert Accept(s, w) == Part(s, Continue);
    if w.now < stage.due {
      assert Authenticate(s, w) == Part(s, Continue);
      match stage {
        case Reading(due, heard) => HeardMatches(due, heard, s, w);
        case Sending(due, fixture, taken) =>
          OfferMatches(due, fixture, taken, s, w);
          assert w.received == Blocked ==> Serve(s, w) == Offer(s, w);
        case Closing(due) =>
      }
    }
  }

  lemma PeerlessMatches(w: World)
    requires w.path.None?
    ensures Matches(After(Idle, w), Drained(Fresh(), w))
  {
    if w.waiting == 1 {
      var due := w.acceptedAt + 15;
      assert Accept(Fresh(), w) == Part(Connected(due), Continue);
      GreetedMatches(due, w);
    }
  }

  lemma UnknownMatches(due: int, w: World)
    requires w.path.None? && w.waiting == 0
    ensures Matches(Greeted(due, w), Drained(Connected(due), w))
  {
    assert Accept(Connected(due), w) == Part(Connected(due), Continue);
    GreetedMatches(due, w);
  }

  lemma OtherMatches(stage: Stage, s: State, w: World)
    requires Matches(stage, s) && !stage.Idle? && !stage.Failed? && w.path.None? && w.waiting > 0
    ensures Drained(s, w).failure.Some?
  {
    assert s.connections == 1;
  }

  lemma StageMatches(stage: Stage, s: State, w: World)
    requires Matches(stage, s)
    ensures Matches(After(stage, w), Drained(s, w))
  {
    if stage == Failed {
      DrainGrows(s, w);
    } else if w.path.Some? {
      assert Drained(s, w).failure == w.path;
    } else if stage == Idle {
      PeerlessMatches(w);
    } else if w.waiting > 0 {
      OtherMatches(stage, s, w);
    } else if stage.Unknown? {
      UnknownMatches(stage.due, w);
      assert w.now >= stage.due ==> Greeted(stage.due, w) == Failed;
    } else if stage.Closed? {
      ClosedStays(s, w);
    } else {
      ServeMatches(stage, s, w);
    }
  }

  lemma ClosedStays(s: State, w: World)
    requires Matches(Closed, s) && w.path.None? && w.waiting == 0
    ensures Drained(s, w) == s
  {
  }

  lemma {:induction false} CourseMatches(stage: Stage, s: State, worlds: seq<World>)
    requires Matches(stage, s)
    ensures Matches(Course(stage, worlds), Run(s, worlds))
    decreases |worlds|
  {
    if worlds != [] {
      StageMatches(stage, s, worlds[0]);
      CourseMatches(After(stage, worlds[0]), Drained(s, worlds[0]), worlds[1..]);
    }
  }

  /**
   * Over every run from the start: the evidence satisfies a row that needs it exactly
   * when the conversation ran its course, and then the whole acknowledgement was
   * delivered; it is in order exactly then or when no peer came.
   */
  lemma RunSucceedsIff(worlds: seq<World>)
    ensures var s := Run(Fresh(), worlds); var stage := Course(Idle, worlds);
      && (Satisfies(EvidenceOf(s)) <==> stage == Closed)
      && (EvidenceOf(s).ok <==> stage == Closed || stage == Idle)
      && (s.approved && s.failure.None? <==> stage == Closed)
      && (stage == Closed ==> s.delivered == ACK && !s.connected && s.authenticated && s.complete && s.live)
  {
    CourseMatches(Idle, Fresh(), worlds);
  }

  lemma PlainStage(first: World, request: string, fixture: string, birth: Birth)
    requires first.path.None? && first.waiting == 1 && first.now < first.acceptedAt + 15 && first.peer == Ok(true)
    requires first.received == Bytes(request) && request != "" && |request| <= 4096 && '\n' in request
    requires first.request(request) == Ok(fixture) && Proof(first.scene, fixture) == Ok(Some(birth))
    requires first.gone(birth).None? && first.pathAgain.None? && first.later < first.acceptedAt + 15
    requires first.sending.Took? && first.sending.count >= |ACK| && first.shutdown.None?
    ensures After(Idle, first) == Closing(first.acceptedAt + 15)
  {
    var due := first.acceptedAt + 15;
    assert "" + request == request;
    assert Heard(due, "", first) == Offered(due, fixture, 0, first);
  }

  lemma CourseOfTwo(stage: Stage, first: World, last: World)
    ensures Course(stage, [first, last]) == After(After(stage, first), last)
  {
    var worlds := [first, last];
    assert worlds[1..] == [last] && [last][1..] == [];
    var next := After(stage, first);
    assert Course(next, [last]) == Course(After(next, last), []);
  }

  /** One peer, one whole request, a proven live reader, one send and the end of the connection: that run succeeds. */
  lemma PlainRunSucceeds(first: World, last: World, request: string, fixture: string, birth: Birth)
    requires first.path.None? && first.waiting == 1 && first.now < first.acceptedAt + 15 && first.peer == Ok(true)
    requires first.received == Bytes(request) && request != "" && |request| <= 4096 && '\n' in request
    requires first.request(request) == Ok(fixture) && Proof(first.scene, fixture) == Ok(Some(birth))
    requires first.gone(birth).None? && first.pathAgain.None? && first.later < first.acceptedAt + 15
    requires first.sending.Took? && first.sending.count >= |ACK| && first.shutdown.None?
    requires last.path.None? && last.waiting == 0 && last.now < first.acceptedAt + 15 && last.received == Bytes("")
    ensures var s := Run(Fresh(), [first, last]); s.delivered == ACK && s.approved && Satisfies(EvidenceOf(s))
  {
    PlainStage(first, request, fixture, birth);
    CourseOfTwo(Idle, first, last);
    assert After(Closing(first.acceptedAt + 15), last) == Closed;
    RunSucceedsIff([first, last]);
  }
}
