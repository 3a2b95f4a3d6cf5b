/** Archives with the header fields of the ustar format, IEEE Std 1003.1, that scripts/gates/darwin/guard.py looks at. */
module Ustar {
  import opened Wrappers
  import opened Pax
  import opened PaxProofs

  // ------------------------------------------------------------------
  // The header fields
  // ------------------------------------------------------------------

  const NAME_WIDTH: nat := 100
  const SIZE_WIDTH: nat := 11

  function Nuls(n: nat): (s: string)
    ensures |s| == n && forall i :: 0 <= i < n ==> s[i] == '\0'
  {
    seq(n, i => '\0')
  }

  function Flag(kind: Kind): char {
    match kind
    case Regular => '0'
    case OldRegular => '\0'
    case Directory => '5'
    case Extended => 'x'
    case OtherKind => '1'
  }

  function KindOf(flag: char): Kind {
    if flag == '0' then Regular
    else if flag == '\0' then OldRegular
    else if flag == '5' then Directory
    else if flag == 'x' then Extended
    else OtherKind
  }

  function Octal(n: nat, width: nat): (s: string)
    ensures |s| == width
  {
    if width == 0 then [] else Octal(n / 8, width - 1) + [('0' as int + n % 8) as char]
  }

  predicate IsOctal(c: char) {
    '0' <= c <= '7'
  }

  function OctalValue(s: string): nat
    requires forall i :: 0 <= i < |s| ==> IsOctal(s[i])
  {
    if s == [] then 0
    else
      var last := s[|s| - 1];
      assert IsOctal(last);
      8 * OctalValue(s[..|s| - 1]) + (last as int - '0' as int)
  }

  function Power8(n: nat): nat {
    if n == 0 then 1 else 8 * Power8(n - 1)
  }

  /** Name at 0, size in octal digits at 124, type at 156; the other fields are left empty. */
  function Encode(m: Member): string {
    var name := if |m.name| <= NAME_WIDTH then m.name else [];
    name + Nuls(NAME_WIDTH - |name|) + Nuls(24) + Octal(if m.size < 0 then 0 else m.size, SIZE_WIDTH) + Nuls(21)
      + [Flag(m.kind)] + Nuls(355)
  }

  function Decode(block: string): Option<Member> {
    if |block| != BLOCK || exists i :: 124 <= i < 135 && !IsOctal(block[i]) then None
    else
      var name := block[..NAME_WIDTH];
      Some(Member(KindOf(block[156]), OctalValue(block[124..135]), name[..Find(name, '\0')]))
  }

  /** A member whose name and size fit the header. */
  predicate Fits(m: Member) {
    |m.name| <= NAME_WIDTH && '\0' !in m.name && 0 <= m.size < Power8(SIZE_WIDTH) && m.kind != OtherKind
  }

  lemma {:induction false} OctalReads(n: nat, width: nat)
    requires n < Power8(width)
    ensures forall i :: 0 <= i < width ==> IsOctal(Octal(n, width)[i])
    ensures OctalValue(Octal(n, width)) == n
  {
    if width > 0 {
      OctalReads(n / 8, width - 1);
      var s := Octal(n, width);
      assert s[..width - 1] == Octal(n / 8, width - 1);
      assert forall i :: 0 <= i < width - 1 ==> s[i] == Octal(n / 8, width - 1)[i];
    }
  }

  /** The name field ends at its first NUL, or at its end. */
  lemma NameReads(name: string, n: nat)
    requires '\0' !in name
    ensures var field := name + Nuls(n); field[..Find(field, '\0')] == name
  {
    FindConcat(name, Nuls(n), '\0');
    if n > 0 {
      assert Nuls(n)[0] == '\0';
    }
  }

  lemma EncodedFields(m: Member)
    requires Fits(m)
    ensures var block := Encode(m);
      && |block| == BLOCK && block[..NAME_WIDTH] == m.name + Nuls(NAME_WIDTH - |m.name|)
      && block[124..135] == Octal(m.size, SIZE_WIDTH) && block[156] == Flag(m.kind)
  {
    var name, size := m.name + Nuls(NAME_WIDTH - |m.name|), Octal(m.size, SIZE_WIDTH);
    Fields(name, Nuls(24), size, Nuls(21), Flag(m.kind), Nuls(355));
  }

  lemma Fields(a: string, b: string, c: string, d: string, e: char, f: string)
    ensures var s := a + b + c + d + [e] + f; var n, m := |a| + |b|, |a| + |b| + |c| + |d|;
      |s| == m + 1 + |f| && s[..|a|] == a && s[n..n + |c|] == c && s[m] == e
  {
  }

  /** A block with these fields decodes to the member. */
  lemma FieldsDecode(block: string, m: Member, size: string)
    requires |block| == BLOCK && block[124..135] == size && block[156] == Flag(m.kind) && m.kind != OtherKind
    requires forall i :: 0 <= i < |size| ==> IsOctal(size[i])
    requires OctalValue(size) == m.size
    requires var name := block[..NAME_WIDTH]; name[..Find(name, '\0')] == m.name
    ensures Decode(block) == Some(m)
  {
    forall i | 124 <= i < 135 ensures IsOctal(block[i]) {
      assert block[i] == size[i - 124];
    }
  }

  /** Every member that fits is read back from its header. */
  lemma FittingIsEncoded(c: Codec, m: Member)
    requires c.header == Decode && Fits(m)
    ensures Encodes(ReadingOf(c), Encode, m)
  {
    var block, size := Encode(m), Octal(m.size, SIZE_WIDTH);
    EncodedFields(m);
    OctalReads(m.size, SIZE_WIDTH);
    NameReads(m.name, NAME_WIDTH - |m.name|);
    FieldsDecode(block, m, size);
    assert block[124] == size[0] && IsOctal(size[0]);
  }

  lemma LimitFits()
    ensures EXTENDED_LIMIT < Power8(SIZE_WIDTH)
  {
    assert Power8(2) == 64 && Power8(4) == 4096;
    assert Power8(6) == 262144;
    assert Power8(8) >= Power8(6) && Power8(10) >= Power8(8) && Power8(11) >= Power8(10);
  }

  // ------------------------------------------------------------------
  // Archives
  // ------------------------------------------------------------------

  /**
   * Every archive of files and directories whose members fit their headers, with
   * safe long paths in extended headers, is read back, whatever decodes the paths.
   */
  lemma FittingArchiveIsRead(decode: string -> Option<string>, items: seq<Item>, tail: string)
    requires forall i :: 0 <= i < |items| ==> Storable(Codec(Decode, decode), items[i]) && Fits(items[i].member)
    requires tail == [] || (|tail| >= BLOCK && ZeroBlock(tail[..BLOCK]))
    ensures var r, w := ReadingOf(Codec(Decode, decode)), Writing(Encode, Printed);
      && Walk(r, Archive(w, items, tail), 0, None) == Ok(Listed(r, w, items, 0))
      && forall i :: 0 <= i < |items| && items[i].path.Some? ==>
           Ok(PathName(r, w, items[i])) == PathOf(Codec(Decode, decode), items[i].path.value)
  {
    var c := Codec(Decode, decode);
    forall i | 0 <= i < |items| ensures HeadersRead(ReadingOf(c), Writing(Encode, Printed), items[i]) {
      FittingIsEncoded(c, items[i].member);
      if items[i].path.Some? {
        LimitFits();
        FittingIsEncoded(c, Announcing(Printed(items[i].path.value)));
      }
    }
    ArchiveIsRead(c, Encode, items, tail);
  }

  // ------------------------------------------------------------------
  // One such archive
  // ------------------------------------------------------------------

  const EXAMPLE: Item := Item(Member(Regular, 3, "b"), "abc", Some("npm/a"))

  /** The codec that takes every byte for a character. */
  const PLAIN: Codec := Codec(Decode, s => Some(s))

  /** A file with a path of its own is reported at the start, under that path, with its size. */
  lemma OneFileIsRead(c: Codec, item: Item, name: string)
    requires c.header == Decode && Storable(c, item) && Fits(item.member)
    requires item.path.Some? && PathOf(c, item.path.value) == Ok(name)
    ensures Walk(ReadingOf(c), Archive(Writing(Encode, Printed), [item], []), 0, None)
         == Ok([Entry(0, item.member.kind, name, |item.body|)])
  {
    FittingArchiveIsRead(c.decode, [item], []);
    assert [item][0] == item;
    ListedOne(ReadingOf(c), Writing(Encode, Printed), item, name);
  }

  lemma ListedOne(r: Reading, w: Writing, item: Item, name: string)
    requires PathName(r, w, item) == name
    ensures Listed(r, w, [item], 0) == [Entry(0, item.member.kind, name, |item.body|)]
  {
    assert [item][1..] == [] && Listed(r, w, [], Size(w, item)) == [];
  }

  lemma SelfLengthShort(body: nat, candidate: nat)
    requires candidate <= body + |Decimal(candidate)|
    ensures SelfLength(body, candidate) <= 2 * body + 2
  {
    DecimalShort(SelfLength(body, candidate));
  }

  lemma ShortPathsFit(c: Codec, item: Item)
    requires IsEntry(item) && item.path.Some? && PathOf(c, item.path.value).Ok? && |item.path.value| <= 4096
    ensures Storable(c, item)
  {
    SelfLengthShort(|item.path.value| + 7, 0);
  }

  lemma ExamplePath()
    ensures PathOf(PLAIN, "npm/a") == Ok("npm/a")
  {
    var path := "npm/a";
    assert Find("/a", '/') == 0;
    FindConcat("npm", "/a", '/');
    assert "npm" + "/a" == path && path[..3] == "npm" && path[4..] == "a";
    assert "npm"[0] == 'n' && "a"[0] == 'a' && ".."[0] == '.' && "a"[..1] == "a";
    assert PathParts("a") == ["a"];
    assert PathParts(path) == ["npm"] + ["a"];
  }

  lemma ExampleFits()
    ensures IsEntry(EXAMPLE) && Fits(EXAMPLE.member) && EXAMPLE.path == Some("npm/a")
  {
    LimitFits();
  }

  /** The conditions are met, for one, by this item. */
  lemma ExampleIsRead()
    ensures Storable(PLAIN, EXAMPLE) && Fits(EXAMPLE.member)
    ensures Walk(ReadingOf(PLAIN), Archive(Writing(Encode, Printed), [EXAMPLE], []), 0, None)
         == Ok([Entry(0, Regular, "npm/a", 3)])
  {
    var item := EXAMPLE;
    ExamplePath();
    ExampleFits();
    ShortPathsFit(PLAIN, item);
    OneFileIsRead(PLAIN, item, item.path.value);
  }
}
