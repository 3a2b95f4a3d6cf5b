/** What the header walk accepts and refuses, stated on the archive and on paths: scripts/gates/darwin/guard.py. */
module PaxChecks {
  import opened Wrappers
  import opened Pax
  import opened PaxProofs

  // ------------------------------------------------------------------
  // Paths
  // ------------------------------------------------------------------

  /** The texts, with a slash between any two. */
  function Slashed(parts: seq<string>): string {
    if parts == [] then "" else if |parts| == 1 then parts[0] else parts[0] + "/" + Slashed(parts[1..])
  }

  ghost predicate NoSlashes(parts: seq<string>) {
    parts != [] && forall i :: 0 <= i < |parts| ==> '/' !in parts[i]
  }

  /** The texts less the empty ones and the single dots. */
  function Named(parts: seq<string>): seq<string> {
    if parts == [] then [] else (if parts[0] in ["", "."] then [] else [parts[0]]) + Named(parts[1..])
  }

  /** Every path is such texts, with slashes between. */
  lemma {:induction false} Splits(path: string) returns (parts: seq<string>)
    ensures NoSlashes(parts) && Slashed(parts) == path
    decreases |path|
  {
    var n := Find(path, '/');
    if n == |path| {
      parts := [path];
      assert path[..n] == path;
    } else {
      var rest := Splits(path[n + 1..]);
      parts := [path[..n]] + rest;
      assert parts[1..] == rest;
      assert path == path[..n] + "/" + path[n + 1..];
    }
  }

  lemma {:induction false} PartsOfSlashed(parts: seq<string>)
    requires NoSlashes(parts)
    ensures PathParts(Slashed(parts)) == Named(parts)
  {
    var path, first := Slashed(parts), parts[0];
    assert '/' !in first;
    if |parts| == 1 {
      FindConcat(first, "", '/');
      assert first + "" == first && path[..|first|] == first;
      assert parts[1..] == [];
    } else {
      var rest := parts[1..];
      forall i | 0 <= i < |rest| ensures '/' !in rest[i] { assert rest[i] == parts[i + 1]; }
      PartsOfSlashed(rest);
      assert path == first + ("/" + Slashed(rest));
      SlashFound(path, first, Slashed(rest));
    }
  }

  lemma SlashFound(path: string, first: string, rest: string)
    requires '/' !in first && path == first + ("/" + rest)
    ensures Find(path, '/') == |first| < |path| && path[..|first|] == first && path[|first| + 1..] == rest
  {
    FindConcat(first, "/" + rest, '/');
    assert Find("/" + rest, '/') == 0;
  }

  ghost predicate Climbs(parts: seq<string>) {
    exists i :: 0 <= i < |parts| && parts[i] == ".."
  }

  /** The first text with a name is one of the three directories. */
  ghost predicate Rooted(parts: seq<string>) {
    exists k :: 0 <= k < |parts| && parts[k] in ["npm", "pnpm", "node"] && forall j :: 0 <= j < k ==> parts[j] in ["", "."]
  }

  lemma {:induction false} NamedLaws(parts: seq<string>)
    ensures ".." in Named(parts) <==> Climbs(parts)
    ensures Named(parts) != [] && Named(parts)[0] in ["npm", "pnpm", "node"] <==> Rooted(parts)
  {
    if parts != [] {
      var rest := parts[1..];
      NamedLaws(rest);
      if i :| 0 <= i < |rest| && rest[i] == ".." { assert parts[i + 1] == ".."; }
      if i :| 0 <= i < |parts| && parts[i] == ".." { assert i > 0 ==> rest[i - 1] == ".."; }
      RootedNext(parts);
    }
  }

  lemma RootedNext(parts: seq<string>)
    requires parts != []
    ensures Rooted(parts) <==> parts[0] in ["npm", "pnpm", "node"] || (parts[0] in ["", "."] && Rooted(parts[1..]))
  {
    var rest := parts[1..];
    if Rooted(parts) {
      var k :| 0 <= k < |parts| && parts[k] in ["npm", "pnpm", "node"] && forall j :: 0 <= j < k ==> parts[j] in ["", "."];
      if k > 0 {
        assert parts[0] in ["", "."] && rest[k - 1] == parts[k];
        assert forall j :: 0 <= j < k - 1 ==> rest[j] == parts[j + 1];
      }
    }
    if parts[0] in ["", "."] && Rooted(rest) {
      var k :| 0 <= k < |rest| && rest[k] in ["npm", "pnpm", "node"] && forall j :: 0 <= j < k ==> rest[j] in ["", "."];
      assert parts[k + 1] == rest[k];
      assert forall j :: 0 < j < k + 1 ==> parts[j] == rest[j - 1];
    }
  }

  /**
   * A path is safe exactly when it does not start with a slash, no part of it is `..`, and
   * its first part, less empty ones and single dots, is one of the three directories.
   */
  lemma SafeIff(parts: seq<string>)
    requires NoSlashes(parts)
    ensures SafePath(Slashed(parts)) <==> !("/" <= Slashed(parts)) && !Climbs(parts) && Rooted(parts)
  {
    PartsOfSlashed(parts);
    NamedLaws(parts);
  }

  /** All characters are slashes. */
  ghost predicate AllSlashes(s: string) {
    forall i :: 0 <= i < |s| ==> s[i] == '/'
  }

  lemma {:induction false} SlashesCut(name: string, slashes: string)
    requires AllSlashes(slashes) && (name == "" || name[|name| - 1] != '/')
    ensures WithoutSlashes(name + slashes) == name
  {
    var s := name + slashes;
    if slashes == "" {
      assert s == name;
    } else {
      assert s[..|s| - 1] == name + slashes[..|slashes| - 1];
      SlashesCut(name, slashes[..|slashes| - 1]);
    }
  }

  lemma {:induction false} CutSlashes(s: string)
    ensures AllSlashes(s[|WithoutSlashes(s)|..])
  {
    if s != [] && s[|s| - 1] == '/' {
      var init := s[..|s| - 1];
      CutSlashes(init);
      var n := |WithoutSlashes(init)|;
      assert s[n..] == init[n..] + [s[|s| - 1]];
    }
  }

  /** A value is accepted for a path when it is text without a zero byte, and safe once its slashes at the end are cut. */
  lemma PathIff(c: Codec, value: string, name: string)
    ensures PathOf(c, value) == Ok(name) <==>
      && '\0' !in value && SafePath(name) && (name == "" || name[|name| - 1] != '/')
      && exists slashes :: AllSlashes(slashes) && c.decode(value) == Some(name + slashes)
    ensures PathOf(c, value) == Err(InvalidEncoding) <==> c.decode(value).None?
    ensures PathOf(c, value).Err? && c.decode(value).Some? ==> PathOf(c, value).error == UnsafePath
  {
    if c.decode(value).Some? {
      var text := c.decode(value).value;
      CutSlashes(text);
      var cut := WithoutSlashes(text);
      assert text == cut + text[|cut|..];
      if slashes :| AllSlashes(slashes) && text == name + slashes && (name == "" || name[|name| - 1] != '/') {
        SlashesCut(name, slashes);
      }
    }
  }

  // ------------------------------------------------------------------
  // Records that are refused
  // ------------------------------------------------------------------

  /** Why a record that starts with a number or another word is refused, if its field is not looked at. */
  function NumberProblem(payload: string, number: string): Option<Refusal> {
    if !Digits(number) then Some(InvalidRecord)
    else
      var length := Number(number);
      if length > |payload| || length <= |number| + 1 || payload[length - 1] != '\n' then Some(InvalidRecordLength) else None
  }

  lemma NumberFound(payload: string, number: string, rest: string)
    requires ' ' !in number && payload == number + (" " + rest)
    ensures Find(payload, ' ') == |number| < |payload| && payload[..|number|] == number
  {
    FindConcat(number, " " + rest, ' ');
    assert Find(" " + rest, ' ') == 0;
  }

  lemma FieldAfter(payload: string, number: string)
    requires Find(payload, ' ') == |number| < |payload| && payload[..|number|] == number
    ensures FirstField(payload) == match NumberProblem(payload, number)
      case Some(refusal) => Err(refusal)
      case None => Ok((payload[|number| + 1..Number(number) - 1], Number(number)))
  {
  }

  lemma ValueAfter(field: string)
    ensures ValueIn(field) == if "path=" <= field then Ok(field[5..]) else Err(PathOnly)
  {
    if ValueIn(field).Ok? {
      FieldIff(field, ValueIn(field).value);
      assert field == "path=" + ValueIn(field).value && field[5..] == ValueIn(field).value;
    }
    if "path=" <= field {
      assert field == "path" + ("=" + field[5..]);
      FieldIff(field, field[5..]);
    }
  }

  lemma RecordOfField(c: Codec, payload: string, again: bool, field: string, length: nat)
    requires payload != [] && FirstField(payload) == Ok((field, length))
    ensures FirstRecord(c, payload, again) ==
      if again || !("path=" <= field) then Err(PathOnly)
      else match PathOf(c, field[5..]) case Err(refusal) => Err(refusal) case Ok(name) => Ok((name, length))
  {
    ValueAfter(field);
  }

  lemma RecordWithoutField(c: Codec, payload: string, again: bool, refusal: Refusal)
    requires payload != [] && FirstField(payload) == Err(refusal)
    ensures FirstRecord(c, payload, again) == Err(refusal)
  {
  }

  /** A record without a number, or with a number that does not fit, is refused. */
  lemma NumberRefused(c: Codec, payload: string, number: string, rest: string, again: bool, refusal: Refusal)
    requires ' ' !in number && payload == number + (" " + rest) && NumberProblem(payload, number) == Some(refusal)
    ensures FirstRecord(c, payload, again) == Err(refusal)
  {
    NumberFound(payload, number, rest);
    FieldAfter(payload, number);
    RecordWithoutField(c, payload, again, refusal);
  }

  /** Otherwise its field decides: a second one, or another than the path, is refused. */
  lemma FieldDecides(c: Codec, payload: string, number: string, rest: string, again: bool, field: string)
    requires ' ' !in number && payload == number + (" " + rest) && NumberProblem(payload, number) == None
    requires field == payload[|number| + 1..Number(number) - 1]
    ensures FirstRecord(c, payload, again) ==
      if again || !("path=" <= field) then Err(PathOnly)
      else match PathOf(c, field[5..]) case Err(refusal) => Err(refusal) case Ok(name) => Ok((name, Number(number)))
  {
    NumberFound(payload, number, rest);
    FieldAfter(payload, number);
    RecordOfField(c, payload, again, field, Number(number));
  }

  lemma NoNumberRefused(c: Codec, payload: string, again: bool)
    requires payload != [] && ' ' !in payload
    ensures FirstRecord(c, payload, again) == Err(InvalidRecord)
  {
    FindConcat(payload, "", ' ');
    assert payload + "" == payload;
  }

  /** A header without record wants a path; else the first record that is not accepted decides, and a second never is. */
  lemma HeaderRefusedIff(c: Codec, payload: string, refusal: Refusal)
    ensures Records(c, payload, None) == Err(refusal) <==>
      if payload == "" then refusal == PathRequired
      else
        var record := FirstRecord(c, payload, false);
        if record.Err? then refusal == record.error
        else record.value.1 < |payload| && FirstRecord(c, payload[record.value.1..], true) == Err(refusal)
  {
    if payload != "" && FirstRecord(c, payload, false).Ok? {
      var (name, length) := FirstRecord(c, payload, false).value;
      NoSecondRecord(c, payload[length..], name);
    }
  }

  // ------------------------------------------------------------------
  // The whole archive
  // ------------------------------------------------------------------

  /** The data ends here, or a block of zeros starts. */
  ghost predicate Over(data: string, at: nat) {
    at >= |data| || (at + 512 <= |data| && forall i :: at <= i < at + 512 ==> data[i] == '\0')
  }

  /** What the block decodes to. */
  function HeaderIn(r: Reading, data: string, at: nat): Option<Member> {
    if at + 512 <= |data| then r.header(data[at..at + 512]) else None
  }

  /** The least multiple of 512 that is no less than `n`. */
  function Blocks(n: nat): nat {
    (n + 511) / 512 * 512
  }

  /** Why a header is refused, if it is. */
  function Problem(r: Reading, data: string, at: nat, pending: Pending): Option<Refusal> {
    match HeaderIn(r, data, at)
    case None => Some(InvalidHeader)
    case Some(m) =>
      if m.kind == OtherKind then Some(UnsupportedMember)
      else if m.size < 0 then Some(NegativeSize)
      else if m.kind == Directory && m.size > 0 then Some(DirectoryPayload)
      else if m.kind != Extended then None
      else if pending.Some? || m.size == 0 || m.size > 16384 then Some(InvalidPathHeader)
      else if at + 512 + m.size > |data| then Some(TruncatedHeader)
      else
        match r.path(data[at + 512..at + 512 + m.size])
        case Err(refusal) => Some(refusal)
        case Ok(_) => None
  }

  /** What a header comes to: a refusal, a path announced for the next one, or a file under its own name or the one announced. */
  function Step(r: Reading, data: string, at: nat, pending: Pending): Turn {
    match Problem(r, data, at, pending)
    case Some(problem) => Refuse(problem)
    case None =>
      var m := HeaderIn(r, data, at).value;
      var next := at + 512 + Blocks(m.size);
      if m.kind == Extended then Keep(Some((at, r.path(data[at + 512..at + 512 + m.size]).value)), next)
      else
        match pending
        case None => Report(Entry(at, m.kind, m.name, m.size), next)
        case Some((start, name)) => Report(Entry(start, m.kind, name, m.size), next)
  }

  /** Headers follow each other from here to the end, and are these files. */
  ghost predicate Lists(r: Reading, data: string, at: nat, pending: Pending, files: seq<Entry>)
    decreases |data| - at
  {
    if Over(data, at) then pending == None && files == []
    else
      match Step(r, data, at, pending)
      case Refuse(_) => false
      case Keep(kept, next) => next > at && Lists(r, data, next, kept, files)
      case Report(file, next) => next > at && files != [] && files[0] == file && Lists(r, data, next, None, files[1..])
  }

  /** The first thing that is wrong. */
  ghost predicate Fails(r: Reading, data: string, at: nat, pending: Pending, refusal: Refusal)
    decreases |data| - at
  {
    if Over(data, at) then pending.Some? && refusal == UnfinishedHeader
    else
      match Step(r, data, at, pending)
      case Refuse(problem) => refusal == problem
      case Keep(kept, next) => next > at && Fails(r, data, next, kept, refusal)
      case Report(_, next) => next > at && Fails(r, data, next, None, refusal)
  }

  lemma OverIff(data: string, at: nat)
    ensures Over(data, at) <==> AtEnd(data, at)
  {
    if at + 512 <= |data| {
      var block := data[at..at + 512];
      if ZeroBlock(block) {
        forall i | at <= i < at + 512 ensures data[i] == '\0' { assert data[i] == block[i - at]; }
      }
    }
  }

  lemma BlocksIsPadded(n: nat)
    ensures Blocks(n) == Padded(n)
  {
  }

  lemma TurnIs(r: Reading, data: string, at: nat, pending: Pending)
    requires !AtEnd(data, at)
    ensures TurnAt(r, data, at, pending) == Step(r, data, at, pending)
  {
    if HeaderIn(r, data, at).Some? && HeaderIn(r, data, at).value.size >= 0 {
      BlocksIsPadded(HeaderIn(r, data, at).value.size);
    }
  }

  predicate IsFile(file: Entry) {
    file.kind == Regular || file.kind == OldRegular || (file.kind == Directory && file.size == 0)
  }

  lemma StepReports(r: Reading, data: string, at: nat, pending: Pending)
    requires Step(r, data, at, pending).Report?
    ensures IsFile(Step(r, data, at, pending).entry)
  {
  }

  lemma StepGoesOn(r: Reading, data: string, at: nat, pending: Pending)
    ensures match Step(r, data, at, pending)
      case Refuse(_) => true
      case Keep(_, next) => next > at
      case Report(_, next) => next > at
  {
  }

  lemma PrependIff(file: Entry, rest: Result<seq<Entry>, Refusal>, files: seq<Entry>)
    ensures Prepend(file, rest) == Ok(files) <==> files != [] && files[0] == file && rest == Ok(files[1..])
  {
    if files != [] { assert files == [files[0]] + files[1..]; }
    if rest.Ok? { assert ([file] + rest.value)[1..] == rest.value; }
  }

  /** The walk reports just the files that an archive lists. */
  lemma {:induction false} WalkIff(r: Reading, data: string, at: nat, pending: Pending, files: seq<Entry>)
    ensures Walk(r, data, at, pending) == Ok(files) <==> Lists(r, data, at, pending, files)
    decreases |data| - at
  {
    OverIff(data, at);
    if !AtEnd(data, at) {
      TurnIs(r, data, at, pending);
      StepGoesOn(r, data, at, pending);
      match Step(r, data, at, pending) {
        case Refuse(_) =>
        case Keep(kept, next) =>
          WalkIff(r, data, next, kept, files);
        case Report(file, next) =>
          PrependIff(file, Walk(r, data, next, None), files);
          if files != [] { WalkIff(r, data, next, None, files[1..]); }
      }
    }
  }

  /** The walk refuses an archive for the first thing that is wrong. */
  lemma {:induction false} RefusalIff(r: Reading, data: string, at: nat, pending: Pending, refusal: Refusal)
    ensures Walk(r, data, at, pending) == Err(refusal) <==> Fails(r, data, at, pending, refusal)
    decreases |data| - at
  {
    OverIff(data, at);
    if !AtEnd(data, at) {
      TurnIs(r, data, at, pending);
      StepGoesOn(r, data, at, pending);
      match Step(r, data, at, pending) {
        case Refuse(_) =>
        case Keep(kept, next) => RefusalIff(r, data, next, kept, refusal);
        case Report(_, next) => RefusalIff(r, data, next, None, refusal);
      }
    }
  }

  /** Every member that the walk reports is a regular file or a directory without payload. */
  lemma {:induction false} OnlyFiles(r: Reading, data: string, at: nat, pending: Pending, i: nat)
    requires Walk(r, data, at, pending).Ok? && i < |Walk(r, data, at, pending).value|
    ensures IsFile(Walk(r, data, at, pending).value[i])
    decreases |data| - at
  {
    if !AtEnd(data, at) {
      TurnIs(r, data, at, pending);
      StepGoesOn(r, data, at, pending);
      match Step(r, data, at, pending) {
        case Keep(kept, next) => OnlyFiles(r, data, next, kept, i);
        case Report(file, next) =>
          StepReports(r, data, at, pending);
          assert Walk(r, data, at, pending).value == [file] + Walk(r, data, next, None).value;
          if i > 0 { OnlyFiles(r, data, next, None, i - 1); }
      }
    }
  }
}
