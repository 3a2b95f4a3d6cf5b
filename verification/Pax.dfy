/** The header walk over a seed archive: scripts/gates/darwin/guard.py. */
module Pax {
  import opened Wrappers

  const BLOCK: nat := 512
  const EXTENDED_LIMIT: nat := 16384

  datatype Kind = Regular | OldRegular | Directory | Extended | OtherKind

  /** A decoded tar header. */
  datatype Member = Member(kind: Kind, size: int, name: string)

  /** What the walk reports of a member: where its headers start, its kind, its name and its size. */
  datatype Entry = Entry(offset: nat, kind: Kind, name: string, size: nat)

  datatype Refusal =
    | InvalidHeader | UnsupportedMember | NegativeSize | DirectoryPayload | InvalidPathHeader | TruncatedHeader
    | InvalidRecord | InvalidRecordLength | PathOnly | InvalidEncoding | UnsafePath | PathRequired | UnfinishedHeader

  /** Tar headers and UTF-8, left open. */
  datatype Codec = Codec(header: string -> Option<Member>, decode: string -> Option<string>)

  // ------------------------------------------------------------------
  // The path record
  // ------------------------------------------------------------------

  predicate IsDigit(c: char) {
    '0' <= c <= '9'
  }

  predicate Digits(s: string) {
    s != [] && forall i :: 0 <= i < |s| ==> IsDigit(s[i])
  }

  function DigitValue(c: char): nat
    requires IsDigit(c)
  {
    (c as int) - ('0' as int)
  }

  /** The number that digits denote; leading zeros do not matter. */
  function Number(s: string): nat
    requires forall i :: 0 <= i < |s| ==> IsDigit(s[i])
  {
    if s == [] then 0 else 10 * Number(s[..|s| - 1]) + DigitValue(s[|s| - 1])
  }

  /** The position of `c`, or the length. */
  function Find(s: string, c: char): (n: nat)
    ensures n <= |s| && c !in s[..n] && (n < |s| ==> s[n] == c)
  {
    if s == [] || s[0] == c then 0 else 1 + Find(s[1..], c)
  }

  function WithoutSlashes(s: string): (r: string)
    ensures r <= s && (r == [] || r[|r| - 1] != '/')
  {
    if s != [] && s[|s| - 1] == '/' then WithoutSlashes(s[..|s| - 1]) else s
  }

  /** The parts of a path: what stands between slashes, without empty parts and single dots. */
  function PathParts(s: string): seq<string>
    decreases |s|
  {
    var n := Find(s, '/');
    var first := if s[..n] == "" || s[..n] == "." then [] else [s[..n]];
    if n == |s| then first else first + PathParts(s[n + 1..])
  }

  /** A relative path below one of the seed's three directories, that never climbs. */
  predicate SafePath(name: string) {
    var parts := PathParts(name);
    && !("/" <= name) && ".." !in parts && parts != []
    && (parts[0] == "npm" || parts[0] == "pnpm" || parts[0] == "node")
  }

  /** The path that a record's value stands for. */
  function PathOf(c: Codec, value: string): Result<string, Refusal> {
    match c.decode(value)
    case None => Err(InvalidEncoding)
    case Some(text) =>
      var name := WithoutSlashes(text);
      if '\0' in value || !SafePath(name) then Err(UnsafePath) else Ok(name)
  }

  /** A record `LEN FIELD\n` at the start of the payload: its field and its length. */
  function FirstField(payload: string): (r: Result<(string, nat), Refusal>)
    requires payload != []
    ensures r.Ok? ==> 0 < r.value.1 <= |payload|
  {
    var space := Find(payload, ' ');
    if space == |payload| || !Digits(payload[..space]) then Err(InvalidRecord)
    else
      var length := Number(payload[..space]);
      if length > |payload| || length <= space + 1 || payload[length - 1] != '\n' then Err(InvalidRecordLength)
      else Ok((payload[space + 1..length - 1], length))
  }

  /** The value of a field `path=VALUE`. */
  function ValueIn(field: string): Result<string, Refusal> {
    var equals := Find(field, '=');
    if field[..equals] != "path" || equals == |field| then Err(PathOnly) else Ok(field[equals + 1..])
  }

  /** The path and the length of the first record; a second path is refused. */
  function FirstRecord(c: Codec, payload: string, again: bool): (r: Result<(string, nat), Refusal>)
    requires payload != []
    ensures r.Ok? ==> 0 < r.value.1 <= |payload|
  {
    match FirstField(payload)
    case Err(refusal) => Err(refusal)
    case Ok((field, length)) =>
      if ValueIn(field).Err? || again then Err(PathOnly)
      else
        match PathOf(c, ValueIn(field).value)
        case Err(refusal) => Err(refusal)
        case Ok(name) => Ok((name, length))
  }

  /** The records of an extended header: all must be valid, and only one may be there. */
  function Records(c: Codec, payload: string, found: Option<string>): Result<string, Refusal>
    decreases |payload|
  {
    if payload == [] then (if found.None? then Err(PathRequired) else Ok(found.value))
    else
      match FirstRecord(c, payload, found.Some?)
      case Err(refusal) => Err(refusal)
      case Ok((name, length)) => Records(c, payload[length..], Some(name))
  }

  /** The loop over the records of a payload. */
  method ReadRecords(c: Codec, payload: string) returns (name: Result<string, Refusal>)
    ensures name == Records(c, payload, None)
  {
    var position, found := 0, None;
    ghost var whole := Records(c, payload, found);
    ghost var rest := payload;
    while position < |payload|
      invariant 0 <= position <= |payload| && rest == payload[position..] && whole == Records(c, rest, found)
      decreases |payload| - position
    {
      var record := FirstRecord(c, payload[position..], found.Some?);
      if record.Err? {
        return Err(record.error);
      }
      found := Some(record.value.0);
      rest := rest[record.value.1..];
      position := position + record.value.1;
    }
    name := if found.None? then Err(PathRequired) else Ok(found.value);
  }

  // ------------------------------------------------------------------
  // The walk
  // ------------------------------------------------------------------

  /** The least multiple of the block size that holds `n` bytes. */
  function Padded(n: nat): (p: nat)
    ensures p % BLOCK == 0 && n <= p < n + BLOCK
  {
    n + (BLOCK - n % BLOCK) % BLOCK
  }

  predicate ZeroBlock(block: string) {
    |block| == BLOCK && forall i :: 0 <= i < BLOCK ==> block[i] == '\0'
  }

  /** An extended header waiting for its member: where it is, and the path it gives. */
  type Pending = Option<(nat, string)>

  function EntryOf(offset: nat, m: Member, pending: Pending): Entry
    requires m.size >= 0
  {
    match pending
    case None => Entry(offset, m.kind, m.name, m.size)
    case Some((start, name)) => Entry(start, m.kind, name, m.size)
  }

  function Prepend<T, E>(first: T, rest: Result<seq<T>, E>): Result<seq<T>, E> {
    if rest.Err? then rest else Ok([first] + rest.value)
  }

  /** How the walk reads a header block, and the payload of an extended header. */
  datatype Reading = Reading(header: string -> Option<Member>, path: string -> Result<string, Refusal>)

  function ReadingOf(c: Codec): Reading {
    Reading(c.header, (payload: string) => Records(c, payload, None))
  }

  /** The decoded header at `offset`, once its shape is accepted. */
  function HeaderAt(r: Reading, data: string, offset: nat): Result<Member, Refusal>
    requires offset < |data|
  {
    if offset + BLOCK > |data| || r.header(data[offset..offset + BLOCK]).None? then Err(InvalidHeader)
    else
      var m := r.header(data[offset..offset + BLOCK]).value;
      if m.kind == OtherKind then Err(UnsupportedMember)
      else if m.size < 0 then Err(NegativeSize)
      else if m.kind == Directory && m.size != 0 then Err(DirectoryPayload)
      else Ok(m)
  }

  /** The path of the extended header `m`, whose payload starts at `offset`. */
  function ExtendedAt(r: Reading, data: string, offset: nat, m: Member, pending: Pending): Result<string, Refusal> {
    if pending.Some? || !(0 < m.size <= EXTENDED_LIMIT) then Err(InvalidPathHeader)
    else if offset + m.size > |data| then Err(TruncatedHeader)
    else r.path(data[offset..offset + m.size])
  }

  predicate AtEnd(data: string, offset: nat) {
    offset >= |data| || (offset + BLOCK <= |data| && ZeroBlock(data[offset..offset + BLOCK]))
  }

  method ReadExtended(c: Codec, data: string, offset: nat, m: Member, pending: Pending)
      returns (name: Result<string, Refusal>)
    ensures name == ExtendedAt(ReadingOf(c), data, offset, m, pending)
  {
    if pending.Some? || !(0 < m.size <= EXTENDED_LIMIT) {
      return Err(InvalidPathHeader);
    }
    if offset + m.size > |data| {
      return Err(TruncatedHeader);
    }
    var payload := data[offset..offset + m.size];
    name := ReadRecords(c, payload);
    assert ReadingOf(c).path(payload) == Records(c, payload, None);
  }

  /** One turn of the walk: a refusal, or the entry reported, if any, and what is pending. */
  datatype Turn = Refuse(refusal: Refusal) | Report(entry: Entry, next: nat) | Keep(pending: Pending, next: nat)

  function TurnOf(m: Member, path: Result<string, Refusal>, offset: nat, pending: Pending): Turn
    requires m.size >= 0
  {
    var next := offset + BLOCK + Padded(m.size);
    if m.kind != Extended then Report(EntryOf(offset, m, pending), next)
    else if path.Err? then Refuse(path.error)
    else Keep(Some((offset, path.value)), next)
  }

  function TurnAt(r: Reading, data: string, offset: nat, pending: Pending): Turn
    requires !AtEnd(data, offset)
  {
    match HeaderAt(r, data, offset)
    case Err(refusal) => Refuse(refusal)
    case Ok(m) => TurnOf(m, ExtendedAt(r, data, offset + BLOCK, m, pending), offset, pending)
  }

  /** The walk from `offset` on. */
  function Walk(r: Reading, data: string, offset: nat, pending: Pending): Result<seq<Entry>, Refusal>
    decreases |data| - offset
  {
    if AtEnd(data, offset) then (if pending.Some? then Err(UnfinishedHeader) else Ok([]))
    else
      match TurnAt(r, data, offset, pending)
      case Refuse(refusal) => Err(refusal)
      case Report(entry, next) => Prepend(entry, Walk(r, data, next, None))
      case Keep(kept, next) => Walk(r, data, next, kept)
  }

  method TakeTurn(c: Codec, data: string, offset: nat, pending: Pending) returns (turn: Turn)
    requires !AtEnd(data, offset)
    ensures turn == TurnAt(ReadingOf(c), data, offset, pending)
    ensures turn.Report? || turn.Keep? ==> turn.next > offset
  {
    var header := HeaderAt(ReadingOf(c), data, offset);
    if header.Err? {
      return Refuse(header.error);
    }
    var m := header.value;
    var next := offset + BLOCK + Padded(m.size);
    if m.kind == Extended {
      var name := ReadExtended(c, data, offset + BLOCK, m, pending);
      return if name.Err? then Refuse(name.error) else Keep(Some((offset, name.value)), next);
    }
    turn := Report(EntryOf(offset, m, pending), next);
  }

  /** The loop over the headers. */
  method ValidateSeedHeaders(c: Codec, data: string) returns (entries: Result<seq<Entry>, Refusal>)
    ensures entries == Walk(ReadingOf(c), data, 0, None)
  {
    var offset: nat, pending: Pending := 0, None;
    var expected: seq<Entry> := [];
    ghost var r := ReadingOf(c);
    ghost var whole := Walk(r, data, offset, pending);
    assert whole.Ok? ==> [] + whole.value == whole.value;
    while !AtEnd(data, offset)
      invariant whole == After(expected, Walk(r, data, offset, pending))
      decreases |data| - offset
    {
      var turn := TakeTurn(c, data, offset, pending);
      match turn {
        case Refuse(refusal) =>
          return Err(refusal);
        case Report(entry, next) =>
          AfterNext(expected, entry, Walk(r, data, next, None));
          expected, pending, offset := expected + [entry], None, next;
        case Keep(kept, next) =>
          pending, offset := kept, next;
      }
    }
    assert expected + [] == expected;
    entries := if pending.Some? then Err(UnfinishedHeader) else Ok(expected);
  }

  ghost function After<T, E>(done: seq<T>, rest: Result<seq<T>, E>): Result<seq<T>, E> {
    if rest.Err? then rest else Ok(done + rest.value)
  }

  lemma AfterNext<T, E>(done: seq<T>, next: T, rest: Result<seq<T>, E>)
    ensures After(done, Prepend(next, rest)) == After(done + [next], rest)
  {
    if rest.Ok? {
      assert done + ([next] + rest.value) == done + [next] + rest.value;
    }
  }
}
