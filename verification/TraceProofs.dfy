/** Any interleaving of frames, read in any pieces, gives back the records sent: scripts/gates/darwin/focused_trace.py. */
module TraceProofs {
  import Lists
  import opened Text
  import opened Trace

  // ------------------------------------------------------------------
  // Reading in pieces
  // ------------------------------------------------------------------

  /** The first line feed of a text stays the first when more text follows. */
  lemma NewlineConcat(x: string, y: string)
    ensures Newline(x + y) == if Newline(x) < |x| then Newline(x) else |x| + Newline(y)
    decreases |x|
  {
    if x == [] {
      assert x + y == y;
    } else {
      assert (x + y)[1..] == x[1..] + y;
      NewlineConcat(x[1..], y);
    }
  }

  lemma FeedTurn(take: Taking, box: Inbox, buffer: string, n: nat, line: string, rest: string)
    requires box.error.None? && n == Newline(buffer) < |buffer| && line == buffer[..n] && rest == buffer[n + 1..]
    ensures Feed(take, box, buffer) == Feed(take, take(box, line), rest)
  {
  }

  lemma {:induction false} FeedConcat(take: Taking, box: Inbox, x: string, y: string)
    ensures var fed := Feed(take, box, x);
      Feed(take, box, x + y)
      == if fed.box.error.Some? then Fed(fed.buffer + y, fed.box) else Feed(take, fed.box, fed.buffer + y)
    decreases |x|
  {
    NewlineConcat(x, y);
    var n := Newline(x);
    if box.error.None? && n < |x| {
      var line, rest := x[..n], x[n + 1..];
      var next := take(box, line);
      FeedConcat(take, next, rest, y);
      FeedTurn(take, box, x, n, line, rest);
      Lists.CutConcat(x, y, n);
      FeedTurn(take, box, x + y, n, line, rest + y);
    }
  }

  lemma {:induction false} FeedTakesAllLines(take: Taking, box: Inbox, buffer: string)
    ensures var fed := Feed(take, box, buffer); fed.box.error.None? ==> Newline(fed.buffer) == |fed.buffer|
    decreases |buffer|
  {
    var n := Newline(buffer);
    if box.error.None? && n < |buffer| {
      FeedTakesAllLines(take, take(box, buffer[..n]), buffer[n + 1..]);
    }
  }

  ghost predicate Rested(fed: Fed) {
    fed.box.error.Some? || Newline(fed.buffer) == |fed.buffer|
  }

  /** How the stream is cut into reads does not matter, up to the size limit. */
  lemma {:induction false} SplittingIsInvisible(take: Taking, r: Reader, pieces: seq<string>)
    requires Rested(r.fed) && r.total + |Joined(pieces)| <= RECEIPT_LIMIT
    ensures var d := Drained(take, r, pieces).fed; var whole := Feed(take, r.fed.box, r.fed.buffer + Joined(pieces));
      d.box == whole.box && (d.box.error.None? ==> d.buffer == whole.buffer)
    decreases |pieces|
  {
    if pieces == [] {
      assert r.fed.buffer + [] == r.fed.buffer;
    } else if r.fed.box.error.None? {
      var next := Piece(take, r, pieces[0]);
      var tail := Joined(pieces[1..]);
      FeedTakesAllLines(take, r.fed.box, r.fed.buffer + pieces[0]);
      SplittingIsInvisible(take, next, pieces[1..]);
      FeedConcat(take, r.fed.box, r.fed.buffer + pieces[0], tail);
      Lists.Associates(r.fed.buffer, pieces[0], tail);
      if next.fed.box.error.Some? {
        assert Drained(take, next, pieces[1..]) == next;
      }
    }
  }

  /** Without an error, everything was counted and nothing went over the limit. */
  lemma {:induction false} ReceiptIsBounded(take: Taking, r: Reader, pieces: seq<string>)
    requires r.total <= RECEIPT_LIMIT && Drained(take, r, pieces).fed.box.error.None?
    ensures Drained(take, r, pieces).total == r.total + |Joined(pieces)| <= RECEIPT_LIMIT
    decreases |pieces|
  {
    if pieces != [] {
      ErrorStays(take, r, pieces);
      ErrorStays(take, Piece(take, r, pieces[0]), pieces[1..]);
      ReceiptIsBounded(take, Piece(take, r, pieces[0]), pieces[1..]);
    }
  }

  lemma ErrorStays(take: Taking, r: Reader, pieces: seq<string>)
    ensures r.fed.box.error.Some? ==> Drained(take, r, pieces) == r
  {
  }

  // ------------------------------------------------------------------
  // What any stream can do
  // ------------------------------------------------------------------

  /** A record in the making: its parts are in range, and while reading goes on some part is missing. */
  ghost predicate PendingSound(key: Key, p: Pending, open: bool) {
    && key.0 > 0 && key.1 > 0 && 0 < p.parts <= PARTS_LIMIT
    && (forall i :: i in p.chunks ==> 0 <= i < p.parts && |p.chunks[i]| <= CHUNK_LIMIT)
    && (open ==> |p.chunks| < p.parts)
  }

  ghost predicate Sound(box: Inbox) {
    forall key :: key in box.frames ==> PendingSound(key, box.frames[key], box.error.None?)
  }

  function Below(n: nat): (s: set<int>)
    ensures |s| == n && forall i :: i in s <==> 0 <= i < n
  {
    if n == 0 then {} else Below(n - 1) + {n - 1}
  }

  lemma SubsetSize(x: set<int>, y: set<int>)
    requires x <= y
    ensures |x| <= |y| && (|x| == |y| <==> x == y)
  {
    assert y == x + (y - x);
    assert |y| == |x| + |y - x|;
    if |x| == |y| {
      assert y - x == {};
    }
  }

  /** Keys below `n` number `n` exactly when they are all there. */
  lemma AllThere(chunks: map<int, string>, n: nat)
    requires forall i :: i in chunks ==> 0 <= i < n
    ensures |chunks| <= n
    ensures |chunks| == n <==> forall i :: 0 <= i < n ==> i in chunks
  {
    var whole := Below(n);
    assert chunks.Keys <= whole && |chunks| == |chunks.Keys|;
    SubsetSize(chunks.Keys, whole);
    if forall i :: 0 <= i < n ==> i in chunks {
      assert chunks.Keys == whole;
    }
  }

  /** Delivery forgets the record, unless its bytes are no JSON; then reading has ended. */
  lemma DeliverFrames(c: Codec, box: Inbox, key: Key, pending: Pending)
    requires pending.parts >= 0 && box.error.None?
    ensures var after := Deliver(c, box, key, pending);
      after.frames == box.frames - {key} || (after.error.Some? && after.frames == box.frames)
  {
  }

  lemma ChunkSound(c: Codec, box: Inbox, f: Frame, pending: Pending, chunk: string)
    requires Sound(box) && box.error.None? && InRange(f) && PendingSound((f.pid, f.number), pending, true)
    requires pending.parts == f.parts && f.part !in pending.chunks && |chunk| <= CHUNK_LIMIT
    ensures var key := (f.pid, f.number);
      var more := pending.(chunks := pending.chunks[f.part := chunk]);
      var stored := box.(frames := box.frames[key := more]);
      Sound(if |more.chunks| != more.parts then stored else Deliver(c, stored, key, more))
  {
    var key := (f.pid, f.number);
    var more := pending.(chunks := pending.chunks[f.part := chunk]);
    var stored := box.(frames := box.frames[key := more]);
    AllThere(more.chunks, more.parts);
    DeliverFrames(c, stored, key, more);
    assert PendingSound(key, more, |more.chunks| != more.parts);
  }

  lemma StoreSound(c: Codec, box: Inbox, f: Frame)
    requires Sound(box) && box.error.None?
    ensures Sound(Store(c, box, f))
  {
    if InRange(f) {
      var key := (f.pid, f.number);
      var pending := if key in box.frames then box.frames[key] else Pending(f.parts, map[]);
      assert PendingSound(key, pending, true);
      var chunk := c.chunk(f.data);
      if pending.parts == f.parts && f.part !in pending.chunks && chunk.Some? && |chunk.value| <= CHUNK_LIMIT {
        ChunkSound(c, box, f, pending, chunk.value);
      } else {
        assert Store(c, box, f).frames == box.frames[key := pending];
      }
    }
  }

  /**
   * Whatever arrives, a held record is within its bounds, and misses a part while
   * reading goes on: joining the parts never meets an absent one.
   */
  lemma {:induction false} FeedSound(c: Codec, box: Inbox, buffer: string)
    requires Sound(box)
    ensures Sound(Feed(TakingOf(c), box, buffer).box)
    decreases |buffer|
  {
    var n := Newline(buffer);
    if box.error.None? && n < |buffer| {
      AcceptSound(c, box, buffer[..n]);
      FeedSound(c, Accept(c, box, buffer[..n]), buffer[n + 1..]);
    }
  }

  lemma AcceptSound(c: Codec, box: Inbox, line: string)
    requires Sound(box) && box.error.None?
    ensures Sound(Accept(c, box, line))
  {
    if c.frame(line).Some? {
      StoreSound(c, box, c.frame(line).value);
    }
  }
}
