/** What the header walk accepts: scripts/gates/darwin/guard.py; 'pax Extended Header' of the pax utility, IEEE Std 1003.1. */
module PaxProofs {
  import opened Wrappers
  import opened Lists
  import opened Pax

  // ------------------------------------------------------------------
  // The path record
  // ------------------------------------------------------------------

  /** The payload is one record that counts its own length. */
  ghost predicate IsRecord(payload: string, digits: string, value: string) {
    Digits(digits) && Number(digits) == |payload| && payload == digits + (" path=" + (value + "\n"))
  }

  lemma {:induction false} FindConcat(x: string, y: string, c: char)
    requires c !in x
    ensures Find(x + y, c) == |x| + Find(y, c)
  {
    if x == [] {
      assert x + y == y;
    } else {
      assert (x + y)[1..] == x[1..] + y;
      FindConcat(x[1..], y, c);
    }
  }

  /** A field gives a value exactly when it is `path=` and the value. */
  lemma FieldIff(field: string, value: string)
    ensures ValueIn(field) == Ok(value) <==> field == "path" + ("=" + value)
  {
    if field == "path" + ("=" + value) {
      FindConcat("path", "=" + value, '=');
      assert Find("=" + value, '=') == 0;
      assert field[..4] == "path" && field[5..] == value;
    }
    if ValueIn(field) == Ok(value) {
      var equals := Find(field, '=');
      assert field == field[..equals] + ([field[equals]] + field[equals + 1..]);
    }
  }

  /** Where the number and the field of a record are. */
  lemma RecordSplits(payload: string, digits: string, field: string)
    requires Digits(digits) && payload == digits + ([' '] + (field + ['\n']))
    ensures Find(payload, ' ') == |digits| && payload[..|digits|] == digits
    ensures |payload| > |digits| + 1 && payload[|payload| - 1] == '\n' && payload[|digits| + 1..|payload| - 1] == field
  {
    FindConcat(digits, [' '] + (field + ['\n']), ' ');
    assert Find([' '] + (field + ['\n']), ' ') == 0;
  }

  lemma PayloadSplits(payload: string, space: nat)
    requires space + 1 < |payload| && payload[space] == ' ' && payload[|payload| - 1] == '\n'
    ensures payload == payload[..space] + ([' '] + (payload[space + 1..|payload| - 1] + ['\n']))
  {
  }

  lemma FieldFound(payload: string, digits: string, field: string)
    requires payload != [] && Digits(digits) && Number(digits) == |payload|
    requires Find(payload, ' ') == |digits| < |payload| - 1 && payload[..|digits|] == digits
    requires payload[|payload| - 1] == '\n' && payload[|digits| + 1..|payload| - 1] == field
    ensures FirstField(payload) == Ok((field, |payload|))
  {
  }

  /** The first record takes the whole payload exactly when it is its number, a space, its field and a line feed. */
  lemma RecordIff(payload: string, field: string)
    requires payload != []
    ensures FirstField(payload) == Ok((field, |payload|))
       <==> exists digits :: Digits(digits) && Number(digits) == |payload| && payload == digits + ([' '] + (field + ['\n']))
  {
    if FirstField(payload) == Ok((field, |payload|)) {
      var space := Find(payload, ' ');
      PayloadSplits(payload, space);
      assert Digits(payload[..space]);
    }
    if digits :| Digits(digits) && Number(digits) == |payload| && payload == digits + ([' '] + (field + ['\n'])) {
      RecordSplits(payload, digits, field);
      FieldFound(payload, digits, field);
    }
  }

  lemma FieldIn(digits: string, value: string)
    ensures digits + (" path=" + (value + "\n")) == digits + ([' '] + (("path" + ("=" + value)) + ['\n']))
  {
    assert " path=" + (value + "\n") == [' '] + (("path" + ("=" + value)) + ['\n']);
  }

  /** A record laid out so is found again. */
  lemma RecordIsRead(c: Codec, payload: string, digits: string, value: string)
    requires IsRecord(payload, digits, value)
    ensures FirstRecord(c, payload, false)
         == match PathOf(c, value) case Err(refusal) => Err(refusal) case Ok(name) => Ok((name, |payload|))
  {
    var field := "path" + ("=" + value);
    FieldIn(digits, value);
    RecordIff(payload, field);
    FieldIff(field, value);
  }

  /** A record that takes the whole payload is laid out so. */
  lemma RecordIsLaidOut(c: Codec, payload: string) returns (digits: string, value: string)
    requires payload != [] && FirstRecord(c, payload, false).Ok? && FirstRecord(c, payload, false).value.1 == |payload|
    ensures IsRecord(payload, digits, value) && PathOf(c, value) == Ok(FirstRecord(c, payload, false).value.0)
  {
    var field := FirstField(payload).value.0;
    value := ValueIn(field).value;
    RecordIff(payload, field);
    FieldIff(field, value);
    digits :| Digits(digits) && Number(digits) == |payload| && payload == digits + ([' '] + (field + ['\n']));
    FieldIn(digits, value);
  }

  /**
   * An extended header is accepted, with a path, exactly when its payload is one
   * record `LEN path=VALUE\n` whose number counts the whole payload, and whose
   * value is a safe path.
   */
  lemma PayloadIff(c: Codec, payload: string, name: string)
    ensures Records(c, payload, None) == Ok(name)
       <==> exists digits, value :: IsRecord(payload, digits, value) && PathOf(c, value) == Ok(name)
  {
    if Records(c, payload, None) == Ok(name) {
      var length := FirstRecord(c, payload, false).value.1;
      NoSecondRecord(c, payload[length..], FirstRecord(c, payload, false).value.0);
      var digits, value := RecordIsLaidOut(c, payload);
    }
    if digits, value :| IsRecord(payload, digits, value) && PathOf(c, value) == Ok(name) {
      RecordIsRead(c, payload, digits, value);
      assert payload[|payload|..] == [];
    }
  }

  lemma NoSecondRecord(c: Codec, rest: string, name: string)
    ensures Records(c, rest, Some(name)) == if rest == [] then Ok(name) else Err(Records(c, rest, Some(name)).error)
  {
  }

  // ------------------------------------------------------------------
  // Writing the record
  // ------------------------------------------------------------------

  function Decimal(n: nat): string {
    if n < 10 then [('0' as int + n) as char] else Decimal(n / 10) + [('0' as int + n % 10) as char]
  }

  lemma {:induction false} DecimalReads(n: nat)
    ensures Digits(Decimal(n)) && Number(Decimal(n)) == n
  {
    var s := Decimal(n);
    if n >= 10 {
      DecimalReads(n / 10);
      assert s[..|s| - 1] == Decimal(n / 10);
    } else {
      assert s[..0] == [];
    }
  }

  lemma {:induction false} DecimalShort(n: nat)
    ensures 2 * |Decimal(n)| <= n + 2
  {
    if n >= 10 { DecimalShort(n / 10); }
  }

  lemma {:induction false} DecimalGrows(n: nat)
    ensures |Decimal(n)| <= |Decimal(n + 1)| <= |Decimal(n)| + 1
  {
    if n >= 10 && n % 10 == 9 {
      assert (n + 1) / 10 == n / 10 + 1;
      DecimalGrows(n / 10);
    } else if n >= 10 {
      assert (n + 1) / 10 == n / 10;
    }
  }

  /** A length that counts its own digits, from `candidate` up. */
  function SelfLength(body: nat, candidate: nat): (length: nat)
    requires candidate <= body + |Decimal(candidate)|
    ensures length == body + |Decimal(length)|
    decreases 2 * body + 2 - candidate
  {
    DecimalShort(candidate);
    DecimalGrows(candidate);
    if candidate == body + |Decimal(candidate)| then candidate else SelfLength(body, candidate + 1)
  }

  /** The record of a path. */
  function Printed(value: string): string {
    Decimal(SelfLength(|value| + 7, 0)) + (" path=" + (value + "\n"))
  }

  /** A printed record is read back, up to the slashes at its end, when the path is safe; no other is. */
  lemma PrintedIsRead(c: Codec, value: string)
    ensures Records(c, Printed(value), None) == PathOf(c, value)
  {
    var payload := Printed(value);
    DecimalReads(SelfLength(|value| + 7, 0));
    RecordIsRead(c, payload, Decimal(SelfLength(|value| + 7, 0)), value);
    assert payload[|payload|..] == [];
  }

  /** The length of a record is not determined by its path: 99 and 100 both count a path of 90 characters. */
  lemma TwoLengths(value: string)
    requires |value| == 90
    ensures IsRecord("99" + (" path=" + (value + "\n")), "99", value)
    ensures IsRecord("100" + (" path=" + (value + "\n")), "100", value)
  {
    assert "99"[..1] == "9" && "9"[..0] == "" && Number("9") == 9 && Number("99") == 99;
    assert "100"[..2] == "10" && "10"[..1] == "1" && "1"[..0] == "" && Number("1") == 1 && Number("10") == 10;
  }

  function Zeros(k: nat): string {
    if k == 0 then [] else ['0'] + Zeros(k - 1)
  }

  lemma {:induction false} ZerosDoNotCount(k: nat, digits: string)
    requires Digits(digits)
    ensures Digits(Zeros(k) + digits) && Number(Zeros(k) + digits) == Number(digits)
    decreases k
  {
    if k == 0 {
      assert Zeros(0) + digits == digits;
    } else {
      ZerosDoNotCount(k - 1, digits);
      var zeros := Zeros(k - 1);
      ZeroFirst(zeros + digits);
      Lists.Associates(['0'], zeros, digits);
    }
  }

  lemma {:induction false} ZeroFirst(digits: string)
    requires forall i :: 0 <= i < |digits| ==> IsDigit(digits[i])
    ensures var more := ['0'] + digits;
      (forall i :: 0 <= i < |more| ==> IsDigit(more[i])) && Number(more) == Number(digits)
    decreases |digits|
  {
    var more := ['0'] + digits;
    assert forall i :: 0 < i < |more| ==> more[i] == digits[i - 1];
    if digits == [] {
      assert more[..0] == [];
    } else {
      ZeroFirst(digits[..|digits| - 1]);
      assert more[..|more| - 1] == ['0'] + digits[..|digits| - 1];
    }
  }

  lemma {:induction false} ZerosSize(k: nat)
    ensures |Zeros(k)| == k
  {
    if k > 0 { ZerosSize(k - 1); }
  }

  /** Leading zeros are accepted: with any number of them a record is read back, when its number counts them. */
  lemma LeadingZerosAreRead(c: Codec, value: string, k: nat)
    ensures var payload := Zeros(k) + Decimal(SelfLength(|value| + 7 + k, 0)) + (" path=" + (value + "\n"));
      Records(c, payload, None) == PathOf(c, value)
  {
    ZerosRecord(c, value, k, SelfLength(|value| + 7 + k, 0));
  }

  lemma ZerosRecord(c: Codec, value: string, k: nat, length: nat)
    requires length == |value| + 7 + k + |Decimal(length)|
    ensures Records(c, Zeros(k) + Decimal(length) + (" path=" + (value + "\n")), None) == PathOf(c, value)
  {
    var digits := Zeros(k) + Decimal(length);
    var payload := digits + (" path=" + (value + "\n"));
    DecimalReads(length);
    ZerosDoNotCount(k, Decimal(length));
    ZerosSize(k);
    RecordIsRead(c, payload, digits, value);
    OneRecord(c, payload);
  }

  /** A first record that takes the whole payload is all there is. */
  lemma OneRecord(c: Codec, payload: string)
    requires payload != [] && (FirstRecord(c, payload, false).Ok? ==> FirstRecord(c, payload, false).value.1 == |payload|)
    ensures Records(c, payload, None)
         == match FirstRecord(c, payload, false) case Err(refusal) => Err(refusal) case Ok((name, _)) => Ok(name)
  {
    assert payload[|payload|..] == [];
  }

  // ------------------------------------------------------------------
  // Offsets
  // ------------------------------------------------------------------

  ghost predicate Aligned(entries: seq<Entry>, from: nat, size: nat) {
    && (forall i :: 0 <= i < |entries| ==> from <= entries[i].offset < size && entries[i].offset % BLOCK == 0)
    && (forall i, j :: 0 <= i < j < |entries| ==> entries[i].offset + BLOCK <= entries[j].offset)
  }

  ghost function Start(offset: nat, pending: Pending): nat {
    if pending.Some? then pending.value.0 else offset
  }

  ghost predicate Placed(offset: nat, pending: Pending) {
    offset % BLOCK == 0 && (pending.Some? ==> pending.value.0 % BLOCK == 0 && pending.value.0 + BLOCK <= offset)
  }

  lemma TurnIsAligned(m: Member, path: Result<string, Refusal>, offset: nat, pending: Pending)
    requires m.size >= 0 && Placed(offset, pending) && (path.Ok? ==> pending.None?)
    ensures match TurnOf(m, path, offset, pending)
      case Refuse(_) => true
      case Report(entry, next) =>
        entry.offset == Start(offset, pending) && offset + BLOCK <= next && next % BLOCK == 0
      case Keep(kept, next) =>
        pending.None? && kept.Some? && kept.value.0 == offset && offset + BLOCK <= next && next % BLOCK == 0
  {
  }

  lemma AlignedCons(entry: Entry, rest: seq<Entry>, from: nat, size: nat)
    requires Aligned(rest, from, size) && entry.offset + BLOCK <= from && entry.offset < size && entry.offset % BLOCK == 0
    ensures Aligned([entry] + rest, entry.offset, size)
  {
    var all := [entry] + rest;
    assert forall i :: 0 < i < |all| ==> all[i] == rest[i - 1];
  }

  /** Every header looked at starts on a block, past the one before, and inside the archive. */
  lemma {:induction false} WalkIsAligned(r: Reading, data: string, offset: nat, pending: Pending)
    requires Placed(offset, pending) && Walk(r, data, offset, pending).Ok?
    ensures Aligned(Walk(r, data, offset, pending).value, Start(offset, pending), |data|)
    decreases |data| - offset
  {
    if !AtEnd(data, offset) {
      var header := HeaderAt(r, data, offset);
      if header.Ok? {
        TurnIsAligned(header.value, ExtendedAt(r, data, offset + BLOCK, header.value, pending), offset, pending);
      }
      match TurnAt(r, data, offset, pending)
      case Report(entry, next) =>
        WalkIsAligned(r, data, next, None);
        AlignedCons(entry, Walk(r, data, next, None).value, next, |data|);
      case Keep(kept, next) =>
        WalkIsAligned(r, data, next, kept);
    }
  }

  // ------------------------------------------------------------------
  // A written archive is read back
  // ------------------------------------------------------------------

  function Filled(s: string): (r: string)
    ensures |r| == Padded(|s|)
  {
    s + seq(Padded(|s|) - |s|, i => '\0')
  }

  /** A file or directory to archive, with a path of its own if its name does not fit the header. */
  datatype Item = Item(member: Member, body: string, path: Option<string>)

  /** The header of a member is a block, not all zeros, and decodes to the member. */
  ghost predicate Encodes(r: Reading, encode: Member -> string, m: Member) {
    |encode(m)| == BLOCK && !ZeroBlock(encode(m)) && r.header(encode(m)) == Some(m)
  }

  /** How an item is written: its headers, and the payload that gives a path. */
  datatype Writing = Writing(encode: Member -> string, announce: string -> string)

  /** The header that announces a path. */
  function Announcing(payload: string): Member {
    Member(Extended, |payload|, "")
  }

  /** Every header that the item takes is read as it was written. */
  ghost predicate HeadersRead(r: Reading, w: Writing, item: Item) {
    && Encodes(r, w.encode, item.member)
    && (item.path.Some? ==> Encodes(r, w.encode, Announcing(w.announce(item.path.value))))
  }

  predicate IsEntry(item: Item) {
    && (item.member.kind == Regular || item.member.kind == OldRegular || (item.member.kind == Directory && item.body == []))
    && item.member.size == |item.body|
  }

  ghost predicate Writable(r: Reading, w: Writing, item: Item) {
    && IsEntry(item) && HeadersRead(r, w, item)
    && (item.path.Some? ==> var payload := w.announce(item.path.value); r.path(payload).Ok? && 0 < |payload| <= EXTENDED_LIMIT)
  }

  function Written(w: Writing, item: Item, rest: string): string {
    var own := w.encode(item.member) + (Filled(item.body) + rest);
    if item.path.None? then own
    else
      var payload := w.announce(item.path.value);
      w.encode(Announcing(payload)) + (Filled(payload) + own)
  }

  function Archive(w: Writing, items: seq<Item>, tail: string): string {
    if items == [] then tail else Written(w, items[0], Archive(w, items[1..], tail))
  }

  /** How much room an item takes. */
  function Size(w: Writing, item: Item): nat {
    if item.path.None? then BLOCK + Padded(|item.body|)
    else BLOCK + Padded(|w.announce(item.path.value)|) + BLOCK + Padded(|item.body|)
  }

  function PathName(r: Reading, w: Writing, item: Item): string {
    match item.path
    case None => item.member.name
    case Some(path) => (match r.path(w.announce(path)) case Ok(name) => name case Err(_) => item.member.name)
  }

  /** What the walk reports of an item: the place of its first header, and the path if one was given. */
  function EntryFor(r: Reading, w: Writing, item: Item, offset: nat): Entry {
    Entry(offset, item.member.kind, PathName(r, w, item), |item.body|)
  }

  function Listed(r: Reading, w: Writing, items: seq<Item>, offset: nat): seq<Entry> {
    if items == [] then []
    else [EntryFor(r, w, items[0], offset)] + Listed(r, w, items[1..], offset + Size(w, items[0]))
  }

  /** A block at `offset`, and what comes after it. */
  lemma BlockAt(data: string, offset: nat, block: string, rest: string)
    requires offset <= |data| && data[offset..] == block + rest
    ensures offset + |block| <= |data| && data[offset..offset + |block|] == block && data[offset + |block|..] == rest
  {
    Lists.Joint(block, rest);
    Lists.DropTake(data, offset, offset + |block|);
    Lists.DropDrop(data, offset, |block|);
  }

  lemma HeaderIsRead(r: Reading, data: string, offset: nat, encode: Member -> string, m: Member, rest: string)
    requires Encodes(r, encode, m) && offset <= |data| && data[offset..] == encode(m) + rest
    requires m.kind != OtherKind && m.size >= 0 && (m.kind == Directory ==> m.size == 0)
    ensures !AtEnd(data, offset) && HeaderAt(r, data, offset) == Ok(m)
    ensures offset + BLOCK <= |data| && data[offset + BLOCK..] == rest
  {
    BlockAt(data, offset, encode(m), rest);
  }

  /** A member is reported, and the walk goes on behind its body. */
  lemma MemberIsRead(r: Reading, data: string, offset: nat, encode: Member -> string, m: Member, body: string, rest: string,
                     pending: Pending)
    requires Encodes(r, encode, m) && offset <= |data| && data[offset..] == encode(m) + (body + rest)
    requires m.kind != OtherKind && m.kind != Extended && m.size >= 0 && (m.kind == Directory ==> m.size == 0)
    requires |body| == Padded(m.size)
    ensures var next := offset + BLOCK + |body|;
      && next <= |data| && data[next..] == rest
      && Walk(r, data, offset, pending) == Prepend(EntryOf(offset, m, pending), Walk(r, data, next, None))
  {
    HeaderIsRead(r, data, offset, encode, m, body + rest);
    BlockAt(data, offset + BLOCK, body, rest);
    var path := ExtendedAt(r, data, offset + BLOCK, m, pending);
    assert TurnAt(r, data, offset, pending) == TurnOf(m, path, offset, pending);
    WalkReports(r, data, offset, pending, EntryOf(offset, m, pending), offset + BLOCK + |body|);
  }

  /** The body of the last member may be cut short anywhere: the walk reports it in full all the same. */
  lemma LastBodyMayBeCut(r: Reading, data: string, offset: nat, encode: Member -> string, m: Member, cut: string,
                         pending: Pending)
    requires Encodes(r, encode, m) && offset <= |data| && data[offset..] == encode(m) + cut
    requires m.kind != OtherKind && m.kind != Extended && m.size >= 0 && (m.kind == Directory ==> m.size == 0)
    requires |cut| <= Padded(m.size)
    ensures Walk(r, data, offset, pending) == Ok([EntryOf(offset, m, pending)])
  {
    HeaderIsRead(r, data, offset, encode, m, cut);
    var path, next := ExtendedAt(r, data, offset + BLOCK, m, pending), offset + BLOCK + Padded(m.size);
    assert TurnAt(r, data, offset, pending) == TurnOf(m, path, offset, pending);
    assert |data| == offset + |data[offset..]| <= next;
    WalkReports(r, data, offset, pending, EntryOf(offset, m, pending), next);
    assert [EntryOf(offset, m, pending)] + [] == [EntryOf(offset, m, pending)];
  }

  lemma WalkReports(r: Reading, data: string, offset: nat, pending: Pending, entry: Entry, next: nat)
    requires !AtEnd(data, offset) && TurnAt(r, data, offset, pending) == Report(entry, next)
    ensures Walk(r, data, offset, pending) == Prepend(entry, Walk(r, data, next, None))
  {
  }

  lemma WalkKeeps(r: Reading, data: string, offset: nat, pending: Pending, kept: Pending, next: nat)
    requires !AtEnd(data, offset) && TurnAt(r, data, offset, pending) == Keep(kept, next)
    ensures Walk(r, data, offset, pending) == Walk(r, data, next, kept)
  {
  }

  /** A path header is kept for the member that follows. */
  lemma PathHeaderIsRead(r: Reading, data: string, offset: nat, encode: Member -> string, m: Member,
                         payload: string, name: string, rest: string)
    requires Encodes(r, encode, m) && offset <= |data|
    requires m.kind == Extended && 0 < m.size == |payload| <= EXTENDED_LIMIT
    requires r.path(payload) == Ok(name)
    requires data[offset..] == encode(m) + (Filled(payload) + rest)
    ensures var next := offset + BLOCK + Padded(|payload|);
      && next <= |data| && data[next..] == rest
      && Walk(r, data, offset, None) == Walk(r, data, next, Some((offset, name)))
  {
    HeaderIsRead(r, data, offset, encode, m, Filled(payload) + rest);
    BlockAt(data, offset + BLOCK, Filled(payload), rest);
    var start := offset + BLOCK;
    FilledStarts(data, start, payload);
    ExtendedIsRead(r, data, start, m, payload);
    assert TurnAt(r, data, offset, None) == TurnOf(m, Ok(name), offset, None);
    WalkKeeps(r, data, offset, None, Some((offset, name)), start + Padded(|payload|));
  }

  lemma FilledStarts(data: string, start: nat, payload: string)
    requires start + Padded(|payload|) <= |data| && data[start..start + Padded(|payload|)] == Filled(payload)
    ensures data[start..start + |payload|] == payload
  {
    assert data[start..start + Padded(|payload|)][..|payload|] == payload;
  }

  lemma ExtendedIsRead(r: Reading, data: string, start: nat, m: Member, payload: string)
    requires m.size == |payload| && 0 < m.size <= EXTENDED_LIMIT && start + m.size <= |data|
    requires data[start..start + m.size] == payload
    ensures ExtendedAt(r, data, start, m, None) == r.path(payload)
  {
  }

  /** A member with a path header is reported under that path, at the place of that header. */
  lemma NamedIsRead(r: Reading, data: string, offset: nat, encode: Member -> string, header: Member, payload: string,
                    name: string, m: Member, body: string, rest: string)
    requires Encodes(r, encode, header) && Encodes(r, encode, m) && offset <= |data|
    requires header.kind == Extended && 0 < header.size == |payload| <= EXTENDED_LIMIT
    requires r.path(payload) == Ok(name)
    requires m.kind != OtherKind && m.kind != Extended && m.size >= 0 && (m.kind == Directory ==> m.size == 0)
    requires |body| == Padded(m.size)
    requires data[offset..] == encode(header) + (Filled(payload) + (encode(m) + (body + rest)))
    ensures var next := offset + BLOCK + Padded(|payload|) + BLOCK + |body|;
      && next <= |data| && data[next..] == rest
      && Walk(r, data, offset, None) == Prepend(Entry(offset, m.kind, name, m.size), Walk(r, data, next, None))
  {
    var own := encode(m) + (body + rest);
    PathHeaderIsRead(r, data, offset, encode, header, payload, name, own);
    var start := offset + BLOCK + Padded(|payload|);
    assert data[start..] == own;
    MemberIsRead(r, data, start, encode, m, body, rest, Some((offset, name)));
  }

  /** An item is reported, and the walk goes on behind it. */
  lemma ItemIsRead(r: Reading, w: Writing, data: string, offset: nat, item: Item, rest: string)
    requires Writable(r, w, item) && offset <= |data| && data[offset..] == Written(w, item, rest)
    ensures var next := offset + Size(w, item);
      && next <= |data| && data[next..] == rest
      && Walk(r, data, offset, None) == Prepend(EntryFor(r, w, item, offset), Walk(r, data, next, None))
  {
    if item.path.None? {
      MemberIsRead(r, data, offset, w.encode, item.member, Filled(item.body), rest, None);
    } else {
      var payload := w.announce(item.path.value);
      NamedIsRead(r, data, offset, w.encode, Announcing(payload), payload, r.path(payload).value, item.member,
                  Filled(item.body), rest);
    }
  }

  lemma TailEnds(data: string, offset: nat, tail: string)
    requires offset <= |data| && data[offset..] == tail
    requires tail == [] || (|tail| >= BLOCK && ZeroBlock(tail[..BLOCK]))
    ensures AtEnd(data, offset)
  {
    if tail != [] {
      Lists.DropTake(data, offset, offset + BLOCK);
    }
  }

  lemma {:induction false} ArchiveIsWalked(r: Reading, w: Writing, items: seq<Item>, data: string, offset: nat, tail: string)
    requires forall i :: 0 <= i < |items| ==> Writable(r, w, items[i])
    requires tail == [] || (|tail| >= BLOCK && ZeroBlock(tail[..BLOCK]))
    requires offset <= |data| && data[offset..] == Archive(w, items, tail)
    ensures Walk(r, data, offset, None) == Ok(Listed(r, w, items, offset))
    decreases |items|
  {
    if items == [] {
      TailEnds(data, offset, tail);
    } else {
      var item, rest := items[0], items[1..];
      var next := offset + Size(w, item);
      ItemIsRead(r, w, data, offset, item, Archive(w, rest, tail));
      ArchiveIsWalked(r, w, rest, data, next, tail);
      assert Walk(r, data, offset, None) == Ok([EntryFor(r, w, item, offset)] + Listed(r, w, rest, next));
    }
  }

  /** Items whose long paths are safe and fit an extended header. */
  ghost predicate Storable(c: Codec, item: Item) {
    && IsEntry(item)
    && (item.path.Some? ==> PathOf(c, item.path.value).Ok? && |Printed(item.path.value)| <= EXTENDED_LIMIT)
  }

  /**
   * An archive as it is written, with long paths in extended headers and ended by
   * its end or by a block of zeros, is read back: every item is reported at its
   * place, with its path, kind and size. The header codec need only read back the
   * headers that the archive contains.
   */
  lemma ArchiveIsRead(c: Codec, encode: Member -> string, items: seq<Item>, tail: string)
    requires forall i :: 0 <= i < |items| ==>
      Storable(c, items[i]) && HeadersRead(ReadingOf(c), Writing(encode, Printed), items[i])
    requires tail == [] || (|tail| >= BLOCK && ZeroBlock(tail[..BLOCK]))
    ensures var w := Writing(encode, Printed);
      Walk(ReadingOf(c), Archive(w, items, tail), 0, None) == Ok(Listed(ReadingOf(c), w, items, 0))
    ensures forall i :: 0 <= i < |items| && items[i].path.Some? ==>
      Ok(PathName(ReadingOf(c), Writing(encode, Printed), items[i])) == PathOf(c, items[i].path.value)
  {
    var r, w := ReadingOf(c), Writing(encode, Printed);
    forall i | 0 <= i < |items|
      ensures Writable(r, w, items[i])
      ensures items[i].path.Some? ==> Ok(PathName(r, w, items[i])) == PathOf(c, items[i].path.value)
    {
      if items[i].path.Some? {
        PrintedIsRead(c, items[i].path.value);
      }
    }
    var data := Archive(w, items, tail);
    assert data[0..] == data;
    ArchiveIsWalked(r, w, items, data, 0, tail);
  }
}
