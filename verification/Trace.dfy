/** Reassembly of framed execution records from a pipe: scripts/gates/darwin/focused_trace.py. */
module Trace {
  import opened Wrappers

  const CHUNK_LIMIT: nat := 192
  const PARTS_LIMIT: nat := 32
  const RECEIPT_LIMIT: nat := 2097152

  /** A well-shaped frame: the five fields, the first four of them integers. */
  datatype Frame = Frame(pid: int, number: int, part: int, parts: int, data: string)

  datatype Record = Record(pid: int, kind: string, body: string)

  /** What the bytes of a record decode to: no JSON, JSON of another shape, or a record. */
  datatype Decoded = Garbled | Shapeless | Parsed(record: Record)

  /** JSON and base64 both ways, left open. */
  datatype Codec = Codec(frame: string -> Option<Frame>, chunk: string -> Option<string>, record: string -> Decoded,
                         write: Frame -> string, encode: string -> string)

  datatype TraceError =
    | ExceededReceipt | InvalidFrame | InconsistentFrame | InvalidChunk | OversizedChunk
    | InvalidRecord | ForeignPid | UnknownKind | Refused

  type Key = (int, int)

  datatype Pending = Pending(parts: int, chunks: map<int, string>)

  /** What has been read: the unfinished records, the finished ones, and the error that ended reading. */
  datatype Inbox = Inbox(frames: map<Key, Pending>, records: seq<Record>, error: Option<TraceError>)

  const KINDS := ["hello", "spawn", "dlopen", "argv-instrumented", "refused"]

  predicate InRange(f: Frame) {
    f.pid > 0 && f.number > 0 && 0 <= f.part < f.parts <= PARTS_LIMIT
  }

  function Part(chunks: map<int, string>, i: int): string {
    if i in chunks then chunks[i] else []
  }

  /** The chunks of the parts below `n`, joined in order. */
  function Join(chunks: map<int, string>, n: nat): string {
    if n == 0 then [] else Join(chunks, n - 1) + Part(chunks, n - 1)
  }

  function Fail(box: Inbox, error: TraceError): Inbox {
    box.(error := Some(error))
  }

  /** The last chunk of a record is in: decode the record and deliver it. */
  function Deliver(c: Codec, box: Inbox, key: Key, pending: Pending): Inbox
    requires pending.parts >= 0
  {
    var done := box.(frames := box.frames - {key});
    match c.record(Join(pending.chunks, pending.parts))
    case Garbled => Fail(box, InvalidRecord)
    case Shapeless => Fail(done, InvalidRecord)
    case Parsed(record) =>
      if record.pid != key.0 then Fail(done, ForeignPid)
      else if record.kind !in KINDS then Fail(done, UnknownKind)
      else
        var kept := done.(records := done.records + [record]);
        if record.kind == "refused" then Fail(kept, Refused) else kept
  }

  /** One well-shaped frame. */
  function Store(c: Codec, box: Inbox, f: Frame): Inbox {
    if !InRange(f) then Fail(box, InvalidFrame)
    else
      var key := (f.pid, f.number);
      var pending := if key in box.frames then box.frames[key] else Pending(f.parts, map[]);
      var known := box.(frames := box.frames[key := pending]);
      if pending.parts != f.parts || f.part in pending.chunks then Fail(known, InconsistentFrame)
      else
        match c.chunk(f.data)
        case None => Fail(known, InvalidChunk)
        case Some(chunk) =>
          if |chunk| > CHUNK_LIMIT then Fail(known, OversizedChunk)
          else
            var more := pending.(chunks := pending.chunks[f.part := chunk]);
            var stored := box.(frames := box.frames[key := more]);
            if |more.chunks| != more.parts then stored else Deliver(c, stored, key, more)
  }

  /** One line of the stream. */
  function Accept(c: Codec, box: Inbox, line: string): Inbox {
    match c.frame(line)
    case None => Fail(box, InvalidFrame)
    case Some(f) => Store(c, box, f)
  }

  /** What a line does to the inbox. */
  type Taking = (Inbox, string) -> Inbox

  function TakingOf(c: Codec): Taking {
    (box: Inbox, line: string) => Accept(c, box, line)
  }

  /** The position of the first line feed, or the length. */
  function Newline(s: string): (n: nat)
    ensures n <= |s| && (n < |s| ==> s[n] == '\n')
  {
    if s == [] || s[0] == '\n' then 0 else 1 + Newline(s[1..])
  }

  /** What is left unread, and the inbox. */
  datatype Fed = Fed(buffer: string, box: Inbox)

  /** Take the complete lines of the buffer until an error. */
  function Feed(take: Taking, box: Inbox, buffer: string): Fed
    decreases |buffer|
  {
    var n := Newline(buffer);
    if box.error.Some? || n == |buffer| then Fed(buffer, box)
    else Feed(take, take(box, buffer[..n]), buffer[n + 1..])
  }

  /** The reader after `pieces`, given what it had read before. */
  datatype Reader = Reader(fed: Fed, total: nat)

  function Piece(take: Taking, r: Reader, piece: string): Reader {
    var total := r.total + |piece|;
    if total > RECEIPT_LIMIT then Reader(r.fed.(box := Fail(r.fed.box, ExceededReceipt)), total)
    else Reader(Feed(take, r.fed.box, r.fed.buffer + piece), total)
  }

  function Drained(take: Taking, r: Reader, pieces: seq<string>): Reader
    decreases |pieces|
  {
    if pieces == [] || r.fed.box.error.Some? then r else Drained(take, Piece(take, r, pieces[0]), pieces[1..])
  }

  class Trace {
    const codec: Codec
    var buffer: string
    var frames: map<Key, Pending>
    var records: seq<Record>
    var total: nat

    constructor (codec: Codec)
      ensures this.codec == codec && Read(None) == Reader(Fed([], Inbox(map[], [], None)), 0)
    {
      this.codec, buffer, frames, records, total := codec, [], map[], [], 0;
    }

    function Box(error: Option<TraceError>): Inbox
      reads this
    {
      Inbox(frames, records, error)
    }

    function Read(error: Option<TraceError>): Reader
      reads this
    {
      Reader(Fed(buffer, Box(error)), total)
    }

    method Finish(key: Key) returns (error: Option<TraceError>)
      requires key in frames && frames[key].parts >= 0
      modifies this`frames, this`records
      ensures Box(error) == Deliver(codec, old(Box(None)), key, old(frames[key]))
    {
      var pending := frames[key];
      var text, index := [], 0;
      while index < pending.parts
        invariant 0 <= index <= pending.parts
        invariant text == Join(pending.chunks, index)
      {
        text := text + Part(pending.chunks, index);
        index := index + 1;
      }
      var row := codec.record(text);
      if row.Garbled? {
        return Some(InvalidRecord);
      }
      frames := frames - {key};
      if row.Shapeless? {
        return Some(InvalidRecord);
      }
      if row.record.pid != key.0 {
        return Some(ForeignPid);
      }
      if row.record.kind !in KINDS {
        return Some(UnknownKind);
      }
      records := records + [row.record];
      error := if row.record.kind == "refused" then Some(Refused) else None;
    }

    method Take(line: string) returns (error: Option<TraceError>)
      modifies this`frames, this`records
      ensures Box(error) == Accept(codec, old(Box(None)), line)
    {
      var frame := codec.frame(line);
      if frame.None? || !InRange(frame.value) {
        return Some(InvalidFrame);
      }
      var f := frame.value;
      var key := (f.pid, f.number);
      if key !in frames {
        frames := frames[key := Pending(f.parts, map[])];
      }
      var pending := frames[key];
      assert frames == old(frames)[key := pending];
      if pending.parts != f.parts || f.part in pending.chunks {
        return Some(InconsistentFrame);
      }
      var chunk := codec.chunk(f.data);
      if chunk.None? {
        return Some(InvalidChunk);
      }
      if |chunk.value| > CHUNK_LIMIT {
        return Some(OversizedChunk);
      }
      var more := pending.(chunks := pending.chunks[f.part := chunk.value]);
      frames := frames[key := more];
      assert frames == old(frames)[key := more];
      if |more.chunks| != more.parts {
        return None;
      }
      error := Finish(key);
    }

    method ReadPiece(piece: string) returns (error: Option<TraceError>)
      modifies this
      ensures Read(error) == Piece(TakingOf(codec), old(Read(None)), piece)
    {
      total := total + |piece|;
      if total > RECEIPT_LIMIT {
        return Some(ExceededReceipt);
      }
      buffer := buffer + piece;
      error := TakeLines();
    }

    /** Read until nothing is left to read; an error stops the reading at once. */
    method Drain(pieces: seq<string>) returns (error: Option<TraceError>)
      modifies this
      ensures Read(error) == Drained(TakingOf(codec), old(Read(None)), pieces)
    {
      error := None;
      ghost var whole := Drained(TakingOf(codec), Read(None), pieces);
      ghost var left := pieces;
      for i := 0 to |pieces|
        invariant error == None && left == pieces[i..] && whole == Drained(TakingOf(codec), Read(None), left)
      {
        error := ReadPiece(pieces[i]);
        left := left[1..];
        if error.Some? {
          return;
        }
      }
    }

    method TakeLines() returns (error: Option<TraceError>)
      modifies this`buffer, this`frames, this`records
      ensures Fed(buffer, Box(error)) == Feed(TakingOf(codec), old(Box(None)), old(buffer))
    {
      error := None;
      ghost var whole := Feed(TakingOf(codec), Box(None), buffer);
      while Newline(buffer) < |buffer|
        invariant error == None && whole == Feed(TakingOf(codec), Box(None), buffer)
        decreases |buffer|
      {
        var n := Newline(buffer);
        var line := buffer[..n];
        buffer := buffer[n + 1..];
        error := Take(line);
        if error.Some? {
          return;
        }
      }
    }
  }
}
