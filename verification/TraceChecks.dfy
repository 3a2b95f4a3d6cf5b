/** What one line of the stream does, and where reading ends: scripts/gates/darwin/focused_trace.py. */
module TraceChecks {
  import opened Wrappers
  import opened Text
  import opened Trace
  import opened TraceProofs
  import Reassembly

  // ------------------------------------------------------------------
  // One line
  // ------------------------------------------------------------------

  /** The frame that a line is, if it is one: of a process, numbered, and one of at most 32 parts. */
  function FrameIn(c: Codec, line: string): Option<Frame> {
    match c.frame(line)
    case None => None
    case Some(f) => if f.pid >= 1 && f.number >= 1 && f.part >= 0 && f.parts <= 32 && f.part < f.parts then Some(f) else None
  }

  /** What is held of the frame's record. */
  function HeldOf(box: Inbox, f: Frame): Pending {
    if (f.pid, f.number) in box.frames then box.frames[(f.pid, f.number)] else Pending(f.parts, map[])
  }

  /** Why a frame cannot be stored. */
  function FrameProblem(c: Codec, box: Inbox, f: Frame): Option<TraceError> {
    if HeldOf(box, f).parts != f.parts || f.part in HeldOf(box, f).chunks then Some(InconsistentFrame)
    else
      match c.chunk(f.data)
      case None => Some(InvalidChunk)
      case Some(chunk) => if |chunk| > 192 then Some(OversizedChunk) else None
  }

  /** The bytes of part `i`, with the new one among them. */
  function PartWith(held: Pending, f: Frame, chunk: string, i: int): Option<string> {
    if i == f.part then Some(chunk) else if i in held.chunks then Some(held.chunks[i]) else None
  }

  /** No part is missing any more. */
  ghost predicate Complete(held: Pending, f: Frame, chunk: string) {
    forall i :: 0 <= i < f.parts ==> PartWith(held, f, chunk, i).Some?
  }

  /** All parts, one after the other. */
  function Whole(held: Pending, f: Frame, chunk: string, n: nat): string {
    if n == 0 then "" else Whole(held, f, chunk, n - 1) + PartWith(held, f, chunk, n - 1).GetOr("")
  }

  /** Why a whole record ends the reading. */
  function RecordProblem(decoded: Decoded, pid: int): Option<TraceError> {
    match decoded
    case Garbled => Some(InvalidRecord)
    case Shapeless => Some(InvalidRecord)
    case Parsed(record) =>
      if record.pid != pid then Some(ForeignPid)
      else if record.kind == "refused" then Some(Refused)
      else if record.kind in ["hello", "spawn", "dlopen", "argv-instrumented"] then None
      else Some(UnknownKind)
  }

  /** The record is kept: it is of its own process and of a known kind, a refusal included. */
  predicate Kept(decoded: Decoded, pid: int) {
    decoded.Parsed? && decoded.record.pid == pid
    && decoded.record.kind in ["hello", "spawn", "dlopen", "argv-instrumented", "refused"]
  }

  /** What the whole record `decoded` does when its last frame came. */
  ghost predicate Delivers(box: Inbox, key: Key, decoded: Decoded, after: Inbox) {
    && after.error == RecordProblem(decoded, key.0)
    && after.records == box.records + (if Kept(decoded, key.0) then [decoded.record] else [])
    && (forall k :: k != key ==> (k in after.frames <==> k in box.frames) && (k in box.frames ==> after.frames[k] == box.frames[k]))
    && (key in after.frames <==> decoded == Garbled)
  }

  /** What a line does to an inbox that has met no error. */
  ghost predicate Decides(c: Codec, box: Inbox, line: string, after: Inbox) {
    match FrameIn(c, line)
    case None => after == box.(error := Some(InvalidFrame))
    case Some(f) =>
      var key, held := (f.pid, f.number), HeldOf(box, f);
      match FrameProblem(c, box, f)
      case Some(problem) => after == Inbox(box.frames[key := held], box.records, Some(problem))
      case None =>
        var chunk := c.chunk(f.data).value;
        if Complete(held, f, chunk) then Delivers(box, key, c.record(Whole(held, f, chunk, f.parts)), after)
        else after == Inbox(box.frames[key := held.(chunks := held.chunks[f.part := chunk])], box.records, None)
  }

  lemma {:induction false} WholeIsJoin(held: Pending, f: Frame, chunk: string, n: nat)
    ensures Whole(held, f, chunk, n) == Join(held.chunks[f.part := chunk], n)
  {
    if n > 0 { WholeIsJoin(held, f, chunk, n - 1); }
  }

  lemma DeliverDecides(c: Codec, box: Inbox, key: Key, more: Pending, stored: Inbox)
    requires box.error.None? && more.parts >= 0 && stored == box.(frames := box.frames[key := more])
    ensures Delivers(box, key, c.record(Join(more.chunks, more.parts)), Deliver(c, stored, key, more))
  {
    assert box.records + [] == box.records;
  }

  lemma StoreDecides(c: Codec, box: Inbox, f: Frame, chunk: string)
    requires Sound(box) && box.error.None? && InRange(f) && FrameProblem(c, box, f).None? && c.chunk(f.data) == Some(chunk)
    ensures var key, held, after := (f.pid, f.number), HeldOf(box, f), Store(c, box, f);
      if Complete(held, f, chunk) then Delivers(box, key, c.record(Whole(held, f, chunk, f.parts)), after)
      else after == Inbox(box.frames[key := held.(chunks := held.chunks[f.part := chunk])], box.records, None)
  {
    var key, held := (f.pid, f.number), HeldOf(box, f);
    var more := held.(chunks := held.chunks[f.part := chunk]);
    AllThere(more.chunks, f.parts);
    assert Complete(held, f, chunk) <==> forall i :: 0 <= i < f.parts ==> i in more.chunks by {
      forall i ensures PartWith(held, f, chunk, i).Some? <==> i in more.chunks {
      }
    }
    WholeIsJoin(held, f, chunk, f.parts);
    DeliverDecides(c, box, key, more, box.(frames := box.frames[key := more]));
  }

  /** Every line does just this, whatever has been read before without error. */
  lemma LineDecides(c: Codec, box: Inbox, line: string)
    requires Sound(box) && box.error.None?
    ensures Decides(c, box, line, Accept(c, box, line))
  {
    match FrameIn(c, line) {
      case None =>
      case Some(f) =>
        if FrameProblem(c, box, f).None? {
          StoreDecides(c, box, f, c.chunk(f.data).value);
        }
    }
  }

  // ------------------------------------------------------------------
  // The whole stream
  // ------------------------------------------------------------------

  /** The lines, each with its line feed. */
  function Lined(lines: seq<string>): string {
    if lines == [] then "" else lines[0] + "\n" + Lined(lines[1..])
  }

  ghost predicate OneLiners(lines: seq<string>) {
    forall i :: 0 <= i < |lines| ==> '\n' !in lines[i]
  }

  /** One line after the other, until an error. */
  function TakeEach(take: Taking, box: Inbox, lines: seq<string>): Inbox
    decreases |lines|
  {
    if lines == [] || box.error.Some? then box else TakeEach(take, take(box, lines[0]), lines[1..])
  }

  /** Every text is lines and an unfinished one. */
  lemma {:induction false} EveryText(text: string) returns (lines: seq<string>, tail: string)
    ensures OneLiners(lines) && '\n' !in tail && text == Lined(lines) + tail
    decreases |text|
  {
    var n := Newline(text);
    NewlineIsFirst(text);
    if n == |text| {
      lines, tail := [], text;
      assert text[..n] == text && "" + text == text;
    } else {
      var more, last := EveryText(text[n + 1..]);
      lines, tail := [text[..n]] + more, last;
      assert lines[1..] == more;
      assert text == text[..n] + "\n" + text[n + 1..];
      assert text[..n] + "\n" + Lined(more) + tail == text[..n] + "\n" + (Lined(more) + tail);
    }
  }

  lemma {:induction false} NewlineIsFirst(s: string)
    ensures '\n' !in s[..Newline(s)]
  {
    if s != [] && s[0] != '\n' {
      NewlineIsFirst(s[1..]);
      assert s[..Newline(s)] == [s[0]] + s[1..][..Newline(s) - 1];
    }
  }

  /** What is read of a text are its lines, in order, up to the first error; an unfinished line waits. */
  lemma {:induction false} FeedTakesLines(take: Taking, box: Inbox, lines: seq<string>, tail: string)
    requires OneLiners(lines) && '\n' !in tail
    ensures var fed := Feed(take, box, Lined(lines) + tail);
      fed.box == TakeEach(take, box, lines) && (fed.box.error.None? ==> fed.buffer == tail)
    decreases |lines|
  {
    if lines == [] {
      assert "" + tail == tail;
      NewlineNone(tail);
    } else if box.error.None? {
      var rest := Lined(lines[1..]) + tail;
      assert Lined(lines) + tail == lines[0] + "\n" + rest;
      Reassembly.FeedLine(take, box, lines[0], rest);
      FeedTakesLines(take, take(box, lines[0]), lines[1..], tail);
    }
  }

  lemma {:induction false} NewlineNone(s: string)
    requires '\n' !in s
    ensures Newline(s) == |s|
  {
    if s != [] { NewlineNone(s[1..]); }
  }

  /** The pieces up to `k` are within the limit without error, and the next one goes over it. */
  ghost predicate GoesOver(take: Taking, r: Reader, pieces: seq<string>, k: nat) {
    && k < |pieces| && Drained(take, r, pieces[..k]).fed.box.error.None?
    && r.total + |Joined(pieces[..k])| <= 2097152 < r.total + |Joined(pieces[..k + 1])|
  }

  lemma {:induction false} LineNeverExceeds(c: Codec, box: Inbox, buffer: string)
    requires Sound(box) && box.error != Some(ExceededReceipt)
    ensures Feed(TakingOf(c), box, buffer).box.error != Some(ExceededReceipt)
    decreases |buffer|
  {
    var n := Newline(buffer);
    if box.error.None? && n < |buffer| {
      LineDecides(c, box, buffer[..n]);
      AcceptSound(c, box, buffer[..n]);
      LineNeverExceeds(c, Accept(c, box, buffer[..n]), buffer[n + 1..]);
    }
  }

  lemma JoinedFirst(pieces: seq<string>, k: nat)
    requires 0 < k <= |pieces|
    ensures Joined(pieces[..k]) == pieces[0] + Joined(pieces[1..][..k - 1])
  {
    assert pieces[..k][1..] == pieces[1..][..k - 1];
  }

  lemma DrainedFirst(take: Taking, r: Reader, pieces: seq<string>, k: nat)
    requires 0 < k <= |pieces| && r.fed.box.error.None?
    ensures Drained(take, r, pieces[..k]) == Drained(take, Piece(take, r, pieces[0]), pieces[1..][..k - 1])
  {
    assert pieces[..k][1..] == pieces[1..][..k - 1];
  }

  /** Reading ends at the size limit exactly when a piece goes over it before any other error; the piece is not looked at. */
  lemma {:induction false} ExceededIff(c: Codec, r: Reader, pieces: seq<string>)
    requires Sound(r.fed.box) && r.fed.box.error.None? && r.total <= 2097152
    ensures Drained(TakingOf(c), r, pieces).fed.box.error == Some(ExceededReceipt)
      <==> exists k :: GoesOver(TakingOf(c), r, pieces, k)
    decreases |pieces|
  {
    var take := TakingOf(c);
    if pieces != [] {
      var next, rest := Piece(take, r, pieces[0]), pieces[1..];
      assert pieces[..0] == [] && pieces[..1] == [pieces[0]] && Joined([pieces[0]]) == pieces[0] by {
        assert [pieces[0]][1..] == [];
        assert pieces[0] + [] == pieces[0];
      }
      if r.total + |pieces[0]| > 2097152 {
        assert GoesOver(take, r, pieces, 0);
      } else {
        LineNeverExceeds(c, r.fed.box, r.fed.buffer + pieces[0]);
        FeedSound(c, r.fed.box, r.fed.buffer + pieces[0]);
        forall k: nat | 0 < k < |pieces|
          ensures GoesOver(take, r, pieces, k) <==> GoesOver(take, next, rest, k - 1)
        {
          JoinedFirst(pieces, k);
          JoinedFirst(pieces, k + 1);
          DrainedFirst(take, r, pieces, k);
        }
        if next.fed.box.error.None? {
          ExceededIff(c, next, rest);
          if k: nat :| GoesOver(take, next, rest, k) { assert GoesOver(take, r, pieces, k + 1); }
        } else {
          NoneGoesOver(take, next, rest);
        }
      }
    }
  }

  lemma NoneGoesOver(take: Taking, r: Reader, pieces: seq<string>)
    requires r.fed.box.error.Some?
    ensures forall k :: !GoesOver(take, r, pieces, k)
    ensures Drained(take, r, pieces) == r
  {
    forall k: nat | k < |pieces| ensures Drained(take, r, pieces[..k]) == r {
      ErrorStays(take, r, pieces[..k]);
    }
  }

  /** A piece that goes over the limit leaves everything as it was read before. */
  lemma OverLimitKeeps(take: Taking, r: Reader, piece: string)
    requires r.total + |piece| > 2097152
    ensures Piece(take, r, piece) == Reader(Fed(r.fed.buffer, r.fed.box.(error := Some(ExceededReceipt))), r.total + |piece|)
  {
  }
}
