/**
 * Records sent in frames by any number of processes, in any interleaving, are reassembled:
 * scripts/gates/darwin/focused-preload.mjs sends, scripts/gates/darwin/focused_trace.py receives.
 */
module Reassembly {
  import opened Wrappers
  import Lists
  import opened Text
  import opened Trace
  import opened TraceProofs

  /** A record as its process sends it, under a number of its own. */
  datatype Message = Message(pid: int, number: int, body: string, record: Record)

  function Parts(m: Message): nat {
    (|m.body| + CHUNK_LIMIT - 1) / CHUNK_LIMIT
  }

  function Least(a: nat, b: nat): nat {
    if a < b then a else b
  }

  /** Part `p` of the bytes. */
  function Cut(body: string, p: nat): (chunk: string)
    ensures |chunk| <= CHUNK_LIMIT
  {
    body[Least(p * CHUNK_LIMIT, |body|)..Least((p + 1) * CHUNK_LIMIT, |body|)]
  }

  function Sent(c: Codec, m: Message, p: nat): Frame {
    Frame(m.pid, m.number, p, Parts(m), c.encode(Cut(m.body, p)))
  }

  /** Reading back what was written, for frames and for chunks; a written frame is one line. */
  ghost predicate Faithful(c: Codec) {
    && (forall f :: c.frame(c.write(f)) == Some(f) && '\n' !in c.write(f))
    && (forall chunk :: c.chunk(c.encode(chunk)) == Some(chunk))
  }

  ghost predicate Sendable(c: Codec, m: Message) {
    && m.pid > 0 && m.number > 0 && 0 < |m.body| <= PARTS_LIMIT * CHUNK_LIMIT
    && c.record(m.body) == Parsed(m.record)
    && m.record.pid == m.pid && m.record.kind in KINDS && m.record.kind != "refused"
  }

  function KeyOf(m: Message): Key {
    (m.pid, m.number)
  }

  ghost predicate AllSendable(c: Codec, ms: seq<Message>) {
    && (forall i :: 0 <= i < |ms| ==> Sendable(c, ms[i]))
    && (forall i, j :: 0 <= i < j < |ms| ==> KeyOf(ms[i]) != KeyOf(ms[j]))
  }

  /** One frame on the wire: a message and a part of it. */
  datatype Slot = Slot(message: nat, part: nat)

  /** Frames of the messages, in any order, none twice. */
  ghost predicate Schedule(ms: seq<Message>, s: seq<Slot>) {
    && (forall k :: 0 <= k < |s| ==> s[k].message < |ms| && s[k].part < Parts(ms[s[k].message]))
    && (forall k, l :: 0 <= k < l < |s| ==> s[k] != s[l])
  }

  /** Every part of message `i` was sent. */
  ghost predicate Done(ms: seq<Message>, s: seq<Slot>, i: nat)
    requires i < |ms|
  {
    forall p :: 0 <= p < Parts(ms[i]) ==> Slot(i, p) in s
  }

  /** The messages in the order in which their last frames were sent. */
  ghost function Completed(ms: seq<Message>, s: seq<Slot>): (order: seq<nat>)
    requires Schedule(ms, s)
    ensures forall k :: 0 <= k < |order| ==> order[k] < |ms|
  {
    if s == [] then []
    else
      var n := |s| - 1;
      var before := Completed(ms, s[..n]);
      if Done(ms, s, s[n].message) then before + [s[n].message] else before
  }

  /** What is held of message `i`. */
  function Held(ms: seq<Message>, s: seq<Slot>, i: nat): Pending
    requires i < |ms|
  {
    Pending(Parts(ms[i]), map p | 0 <= p < Parts(ms[i]) && Slot(i, p) in s :: Cut(ms[i].body, p))
  }

  ghost predicate Started(s: seq<Slot>, i: nat) {
    exists p :: Slot(i, p) in s
  }

  /** The frames held after the schedule are those of the messages under way. */
  ghost predicate Holds(ms: seq<Message>, s: seq<Slot>, frames: map<Key, Pending>) {
    && (forall i :: 0 <= i < |ms| ==> (KeyOf(ms[i]) in frames <==> Started(s, i) && !Done(ms, s, i)))
    && (forall i :: 0 <= i < |ms| && KeyOf(ms[i]) in frames ==> frames[KeyOf(ms[i])] == Held(ms, s, i))
    && (forall key :: key in frames ==> exists i :: 0 <= i < |ms| && KeyOf(ms[i]) == key)
  }

  // ------------------------------------------------------------------
  // One message
  // ------------------------------------------------------------------

  /** Joining the parts below `n` gives the bytes they cover. */
  lemma {:induction false} JoinCuts(body: string, chunks: map<int, string>, n: nat)
    requires forall p :: 0 <= p < n ==> p in chunks && chunks[p] == Cut(body, p)
    ensures Join(chunks, n) == body[..Least(n * CHUNK_LIMIT, |body|)]
  {
    if n > 0 {
      var p := n - 1;
      JoinCuts(body, chunks, p);
      Spans(body, Least(p * CHUNK_LIMIT, |body|), Least((p + 1) * CHUNK_LIMIT, |body|));
      assert chunks[p] == Cut(body, p);
    }
  }

  lemma Spans(s: string, a: nat, b: nat)
    requires a <= b <= |s|
    ensures s[..a] + s[a..b] == s[..b]
  {
  }

  lemma PartsCover(m: Message)
    requires 0 < |m.body| <= PARTS_LIMIT * CHUNK_LIMIT
    ensures 0 < Parts(m) <= PARTS_LIMIT && Parts(m) * CHUNK_LIMIT >= |m.body|
  {
  }

  /** All parts there: the record is decoded from exactly the bytes sent. */
  lemma DeliversMessage(c: Codec, m: Message, box: Inbox, chunks: map<int, string>)
    requires Sendable(c, m) && box.error.None?
    requires forall p :: 0 <= p < Parts(m) ==> p in chunks && chunks[p] == Cut(m.body, p)
    ensures Deliver(c, box, KeyOf(m), Pending(Parts(m), chunks))
         == Inbox(box.frames - {KeyOf(m)}, box.records + [m.record], None)
  {
    JoinCuts(m.body, chunks, Parts(m));
    PartsCover(m);
    assert m.body[..|m.body|] == m.body;
  }

  lemma HeldParts(ms: seq<Message>, s: seq<Slot>, i: nat)
    requires i < |ms|
    ensures |Held(ms, s, i).chunks| == Parts(ms[i]) <==> Done(ms, s, i)
    ensures Done(ms, s, i) ==> forall p :: 0 <= p < Parts(ms[i]) ==> p in Held(ms, s, i).chunks
  {
    var chunks := Held(ms, s, i).chunks;
    AllThere(chunks, Parts(ms[i]));
    if forall p :: 0 <= p < Parts(ms[i]) ==> p in chunks {
      forall p | 0 <= p < Parts(ms[i]) ensures Slot(i, p) in s {
        assert p in chunks;
      }
    }
  }

  lemma Joins(s: seq<Slot>, x: Slot, y: Slot)
    ensures y in s + [x] <==> y in s || y == x
  {
  }

  /** The map of held chunks, one part further. */
  lemma HeldNext(ms: seq<Message>, s: seq<Slot>, x: Slot)
    requires x.message < |ms| && x.part < Parts(ms[x.message])
    ensures Held(ms, s, x.message).chunks[x.part := Cut(ms[x.message].body, x.part)] == Held(ms, s + [x], x.message).chunks
  {
    var i, n := x.message, Parts(ms[x.message]);
    var more := Held(ms, s, i).chunks[x.part := Cut(ms[i].body, x.part)];
    var next := Held(ms, s + [x], i).chunks;
    forall p: int ensures p in more <==> p in next {
      if 0 <= p < n {
        Joins(s, x, Slot(i, p));
      }
    }
  }

  // ------------------------------------------------------------------
  // One frame
  // ------------------------------------------------------------------

  /** The frames held after one more. */
  ghost function HeldAfter(ms: seq<Message>, s: seq<Slot>, x: Slot, frames: map<Key, Pending>): map<Key, Pending>
    requires x.message < |ms|
  {
    var key := KeyOf(ms[x.message]);
    if Done(ms, s + [x], x.message) then frames - {key} else frames[key := Held(ms, s + [x], x.message)]
  }

  /** Before its frame arrives a message is not complete, and what is held of it is known. */
  lemma PendingBefore(ms: seq<Message>, s: seq<Slot>, x: Slot, frames: map<Key, Pending>)
    requires Holds(ms, s, frames) && x.message < |ms| && x.part < Parts(ms[x.message]) && x !in s
    ensures var key := KeyOf(ms[x.message]);
      Held(ms, s, x.message) == if key in frames then frames[key] else Pending(Parts(ms[x.message]), map[])
    ensures x.part !in Held(ms, s, x.message).chunks
  {
    var i, key := x.message, KeyOf(ms[x.message]);
    assert !Done(ms, s, i);
    if key !in frames {
      assert !Started(s, i);
      var chunks := Held(ms, s, i).chunks;
      assert forall p: nat :: Slot(i, p) !in s;
      assert chunks == map[];
    }
  }

  /** A frame in range that fits what is held is stored, and delivers the record when it was the last part. */
  lemma StoreFits(c: Codec, box: Inbox, f: Frame, chunk: string, pending: Pending)
    requires InRange(f) && c.chunk(f.data) == Some(chunk) && |chunk| <= CHUNK_LIMIT
    requires var key := (f.pid, f.number);
      pending == if key in box.frames then box.frames[key] else Pending(f.parts, map[])
    requires pending.parts == f.parts && f.part !in pending.chunks
    ensures var key := (f.pid, f.number);
      var more := pending.(chunks := pending.chunks[f.part := chunk]);
      var stored := box.(frames := box.frames[key := more]);
      Store(c, box, f) == if |more.chunks| != more.parts then stored else Deliver(c, stored, key, more)
  {
  }

  /** A frame of a message is stored, and delivers the record exactly when no part is missing any more. */
  lemma FrameStored(c: Codec, m: Message, p: nat, box: Inbox, before: Pending, after: Pending, done: bool)
    requires Faithful(c) && Sendable(c, m) && p < Parts(m) && box.error.None?
    requires before == if KeyOf(m) in box.frames then box.frames[KeyOf(m)] else Pending(Parts(m), map[])
    requires before.parts == Parts(m) && p !in before.chunks
    requires after == before.(chunks := before.chunks[p := Cut(m.body, p)])
    requires |after.chunks| == Parts(m) <==> done
    requires done ==> forall q :: 0 <= q < Parts(m) ==> q in after.chunks && after.chunks[q] == Cut(m.body, q)
    ensures Store(c, box, Sent(c, m, p))
         == Inbox(if done then box.frames - {KeyOf(m)} else box.frames[KeyOf(m) := after],
                  if done then box.records + [m.record] else box.records, None)
  {
    var f, chunk := Sent(c, m, p), Cut(m.body, p);
    PartsCover(m);
    assert c.chunk(f.data) == Some(chunk);
    StoreFits(c, box, f, chunk, before);
    var stored := box.(frames := box.frames[KeyOf(m) := after]);
    if done {
      DeliversMessage(c, m, stored, after.chunks);
      assert stored.frames - {KeyOf(m)} == box.frames - {KeyOf(m)};
    }
  }

  lemma FrameTaken(c: Codec, ms: seq<Message>, s: seq<Slot>, x: Slot, box: Inbox)
    requires Faithful(c) && x.message < |ms| && Sendable(c, ms[x.message]) && Holds(ms, s, box.frames) && box.error.None?
    requires x.part < Parts(ms[x.message]) && x !in s
    ensures Store(c, box, Sent(c, ms[x.message], x.part))
         == Inbox(HeldAfter(ms, s, x, box.frames),
                  if Done(ms, s + [x], x.message) then box.records + [ms[x.message].record] else box.records, None)
  {
    var i := x.message;
    PendingBefore(ms, s, x, box.frames);
    HeldNext(ms, s, x);
    HeldParts(ms, s + [x], i);
    FrameStored(c, ms[i], x.part, box, Held(ms, s, i), Held(ms, s + [x], i), Done(ms, s + [x], i));
  }

  /** The messages other than the one whose frame arrives are as before. */
  lemma OthersKept(ms: seq<Message>, s: seq<Slot>, x: Slot, j: nat)
    requires j < |ms| && x.message < |ms| && j != x.message
    ensures Started(s + [x], j) <==> Started(s, j)
    ensures Done(ms, s + [x], j) <==> Done(ms, s, j)
    ensures Held(ms, s + [x], j) == Held(ms, s, j)
  {
    forall p: nat ensures Slot(j, p) in s + [x] <==> Slot(j, p) in s {
      Joins(s, x, Slot(j, p));
    }
  }

  lemma HoldsNext(ms: seq<Message>, s: seq<Slot>, x: Slot, frames: map<Key, Pending>)
    requires Holds(ms, s, frames) && x.message < |ms|
    requires forall i, j :: 0 <= i < j < |ms| ==> KeyOf(ms[i]) != KeyOf(ms[j])
    ensures Holds(ms, s + [x], HeldAfter(ms, s, x, frames))
  {
    var after := HeldAfter(ms, s, x, frames);
    assert Slot(x.message, x.part) in s + [x];
    forall j | 0 <= j < |ms|
      ensures KeyOf(ms[j]) in after <==> Started(s + [x], j) && !Done(ms, s + [x], j)
      ensures KeyOf(ms[j]) in after ==> after[KeyOf(ms[j])] == Held(ms, s + [x], j)
    {
      if j != x.message {
        OthersKept(ms, s, x, j);
        assert KeyOf(ms[j]) != KeyOf(ms[x.message]);
      }
    }
    forall key | key in after ensures exists i :: 0 <= i < |ms| && KeyOf(ms[i]) == key {
      assert key == KeyOf(ms[x.message]) || key in frames;
    }
  }

  // ------------------------------------------------------------------
  // The whole stream
  // ------------------------------------------------------------------

  /** The bytes of one frame. */
  function Wire(c: Codec, ms: seq<Message>, x: Slot): string
    requires x.message < |ms|
  {
    c.write(Sent(c, ms[x.message], x.part)) + "\n"
  }

  function Stream(c: Codec, ms: seq<Message>, s: seq<Slot>): string
    requires forall k :: 0 <= k < |s| ==> s[k].message < |ms|
  {
    if s == [] then [] else Wire(c, ms, s[0]) + Stream(c, ms, s[1..])
  }

  ghost function Records(ms: seq<Message>, order: seq<nat>): seq<Record>
    requires forall k :: 0 <= k < |order| ==> order[k] < |ms|
  {
    seq(|order|, k requires 0 <= k < |order| => ms[order[k]].record)
  }

  /** The inbox after the schedule: the messages complete, in order, and those under way. */
  ghost predicate Arrived(ms: seq<Message>, s: seq<Slot>, box: Inbox)
    requires Schedule(ms, s)
  {
    box.error.None? && Holds(ms, s, box.frames) && box.records == Records(ms, Completed(ms, s))
  }

  lemma FeedLine(take: Taking, box: Inbox, line: string, rest: string)
    requires '\n' !in line && box.error.None?
    ensures Feed(take, box, line + "\n" + rest) == Feed(take, take(box, line), rest)
  {
    var end := "\n" + rest;
    NewlineConcat(line, end);
    assert Newline(line) == |line|;
    assert line + "\n" + rest == line + end;
    assert (line + end)[..|line|] == line && (line + end)[|line| + 1..] == rest;
  }

  lemma NotBefore<T>(s: seq<T>, x: T)
    requires forall k, l :: 0 <= k < l < |s + [x]| ==> (s + [x])[k] != (s + [x])[l]
    ensures x !in s
  {
    forall k | 0 <= k < |s| ensures s[k] != x {
      assert (s + [x])[k] != (s + [x])[|s|];
    }
  }

  lemma CompletedNext(ms: seq<Message>, s: seq<Slot>, x: Slot)
    requires Schedule(ms, s + [x]) && Schedule(ms, s) && x.message < |ms|
    ensures var order := Completed(ms, s);
      Completed(ms, s + [x]) == if Done(ms, s + [x], x.message) then order + [x.message] else order
  {
    assert (s + [x])[|s|] == x && (s + [x])[..|s|] == s;
  }

  lemma RecordsNext(ms: seq<Message>, order: seq<nat>, i: nat)
    requires i < |ms| && forall k :: 0 <= k < |order| ==> order[k] < |ms|
    ensures Records(ms, order + [i]) == Records(ms, order) + [ms[i].record]
  {
  }

  lemma ArrivedNext(c: Codec, ms: seq<Message>, s: seq<Slot>, x: Slot, box: Inbox)
    requires Faithful(c) && AllSendable(c, ms) && Schedule(ms, s + [x]) && Schedule(ms, s) && Arrived(ms, s, box)
    requires x.message < |ms| && x.part < Parts(ms[x.message])
    ensures Arrived(ms, s + [x], Store(c, box, Sent(c, ms[x.message], x.part)))
  {
    NotBefore(s, x);
    FrameTaken(c, ms, s, x, box);
    HoldsNext(ms, s, x, box.frames);
    CompletedNext(ms, s, x);
    RecordsNext(ms, Completed(ms, s), x.message);
  }

  /** The first frame of a stream is taken, and the others are still to come. */
  lemma FrameFed(c: Codec, ms: seq<Message>, sent: seq<Slot>, left: seq<Slot>, box: Inbox)
    requires Faithful(c) && AllSendable(c, ms) && Schedule(ms, sent + left) && Schedule(ms, sent) && Arrived(ms, sent, box)
    requires left != [] && left[0].message < |ms|
    ensures var x, rest := left[0], left[1..];
      && Schedule(ms, sent + [x]) && sent + [x] + rest == sent + left
      && x.part < Parts(ms[x.message])
      && c.frame(c.write(Sent(c, ms[x.message], x.part))) == Some(Sent(c, ms[x.message], x.part))
      && Arrived(ms, sent + [x], Store(c, box, Sent(c, ms[x.message], x.part)))
  {
    var x, rest := left[0], left[1..];
    assert left == [x] + rest;
    Lists.Associates(sent, [x], rest);
    ScheduleParts(ms, sent + [x], rest);
    assert (sent + [x])[|sent|] == x;
    ArrivedNext(c, ms, sent, x, box);
  }

  lemma {:induction false} FeedStream(c: Codec, ms: seq<Message>, sent: seq<Slot>, left: seq<Slot>, box: Inbox)
    requires Faithful(c) && AllSendable(c, ms) && Schedule(ms, sent + left) && Schedule(ms, sent) && Arrived(ms, sent, box)
    requires forall k :: 0 <= k < |left| ==> left[k].message < |ms|
    ensures var fed := Feed(TakingOf(c), box, Stream(c, ms, left)); fed.buffer == [] && Arrived(ms, sent + left, fed.box)
    decreases |left|
  {
    if left == [] {
      assert sent + left == sent;
    } else {
      var x, rest := left[0], left[1..];
      FrameFed(c, ms, sent, left, box);
      var line := c.write(Sent(c, ms[x.message], x.part));
      var next := TakingOf(c)(box, line);
      assert next == Store(c, box, Sent(c, ms[x.message], x.part));
      FeedLine(TakingOf(c), box, line, Stream(c, ms, rest));
      FeedStream(c, ms, sent + [x], rest, next);
    }
  }

  lemma ScheduleParts(ms: seq<Message>, x: seq<Slot>, y: seq<Slot>)
    requires Schedule(ms, x + y)
    ensures Schedule(ms, x)
  {
    var s := x + y;
    assert forall k :: 0 <= k < |x| ==> x[k] == s[k];
  }

  /** A reader that has read nothing. */
  ghost predicate Unread(r: Reader) {
    r.fed.buffer == [] && r.fed.box.frames == map[] && r.fed.box.records == [] && r.fed.box.error == None && r.total == 0
  }

  lemma NothingArrived(ms: seq<Message>, r: Reader)
    requires Unread(r)
    ensures Arrived(ms, [], r.fed.box)
  {
    forall i | 0 <= i < |ms| ensures !Started([], i) {
    }
  }

  lemma ReadAtOnce(c: Codec, ms: seq<Message>, s: seq<Slot>, r: Reader)
    requires Faithful(c) && AllSendable(c, ms) && Schedule(ms, s) && Unread(r)
    ensures var fed := Feed(TakingOf(c), r.fed.box, Stream(c, ms, s)); fed.buffer == [] && Arrived(ms, s, fed.box)
  {
    var none := s[..0];
    NothingArrived(ms, r);
    assert none == [] && none + s == s;
    FeedStream(c, ms, none, s, r.fed.box);
  }

  /**
   * However the frames of the messages are interleaved and however the bytes are
   * cut into reads, the records read are those of the complete messages, in the
   * order of their last frames; exactly the messages under way are held.
   */
  lemma Reassembles(c: Codec, ms: seq<Message>, s: seq<Slot>, r: Reader, pieces: seq<string>)
    requires Faithful(c) && AllSendable(c, ms) && Schedule(ms, s) && Unread(r)
    requires Joined(pieces) == Stream(c, ms, s) && |Joined(pieces)| <= RECEIPT_LIMIT
    ensures var fed := Drained(TakingOf(c), r, pieces).fed; fed.buffer == [] && Arrived(ms, s, fed.box)
  {
    ReadAtOnce(c, ms, s, r);
    assert r.fed.buffer + Joined(pieces) == Joined(pieces);
    SplittingIsInvisible(TakingOf(c), r, pieces);
  }

  lemma NothingHeld(ms: seq<Message>, s: seq<Slot>, frames: map<Key, Pending>)
    requires Holds(ms, s, frames) && forall i :: 0 <= i < |ms| ==> Done(ms, s, i)
    ensures frames == map[]
  {
    assert forall i :: 0 <= i < |ms| ==> KeyOf(ms[i]) !in frames;
    assert frames.Keys == {};
  }

  /** Every message sent in full: all records are read and nothing is left. */
  lemma ReassemblesAll(c: Codec, ms: seq<Message>, s: seq<Slot>, r: Reader, pieces: seq<string>)
    requires Faithful(c) && AllSendable(c, ms) && Schedule(ms, s) && Unread(r)
    requires forall i :: 0 <= i < |ms| ==> Done(ms, s, i)
    requires Joined(pieces) == Stream(c, ms, s) && |Joined(pieces)| <= RECEIPT_LIMIT
    ensures Drained(TakingOf(c), r, pieces).fed == Fed([], Inbox(map[], Records(ms, Completed(ms, s)), None))
  {
    Reassembles(c, ms, s, r, pieces);
    NothingHeld(ms, s, Drained(TakingOf(c), r, pieces).fed.box.frames);
  }

  /** A message is delivered exactly when all its frames were sent, and never twice. */
  lemma {:induction false} DeliveredOnce(ms: seq<Message>, s: seq<Slot>)
    requires Schedule(ms, s)
    ensures forall i :: 0 <= i < |ms| && Parts(ms[i]) > 0 ==> (i in Completed(ms, s) <==> Done(ms, s, i))
    ensures forall k, l :: 0 <= k < l < |Completed(ms, s)| ==> Completed(ms, s)[k] != Completed(ms, s)[l]
  {
    if s == [] {
      forall i | 0 <= i < |ms| && Parts(ms[i]) > 0 ensures !Done(ms, s, i) {
        assert Slot(i, 0) !in s;
      }
    } else {
      var n := |s| - 1;
      var before, x := s[..n], s[n];
      assert s == before + [x];
      ScheduleParts(ms, before, [x]);
      DeliveredOnce(ms, before);
      CompletedNext(ms, before, x);
      NotBefore(before, x);
      assert !Done(ms, before, x.message) && Parts(ms[x.message]) > 0;
      forall i | 0 <= i < |ms| && i != x.message ensures Done(ms, s, i) <==> Done(ms, before, i) {
        OthersKept(ms, before, x, i);
      }
      assert Completed(ms, s)[..|Completed(ms, before)|] == Completed(ms, before);
    }
  }
}
