/** The argument strings of a process as the kernel lays them out: scripts/gates/darwin/argv_observation.h. */
module ProcArgs {
  import opened Wrappers
  import Lists

  datatype Span = Span(start: nat, size: nat)

  /** A signed 32-bit integer from its four bytes, the lowest first; bytes are characters below 256. */
  function Signed(b: string): int
    requires |b| == 4
  {
    var n: int := (b[0] as int) + 0x100 * (b[1] as int) + 0x1_0000 * (b[2] as int) + 0x100_0000 * (b[3] as int);
    if n >= 0x8000_0000 then n - 0x1_0000_0000 else n
  }

  /** The bytes of a count. */
  function CountBytes(n: nat): (b: string)
    requires n < 0x8000_0000
    ensures |b| == 4
  {
    [(n % 0x100) as char, (n / 0x100 % 0x100) as char, (n / 0x1_0000 % 0x100) as char, (n / 0x100_0000) as char]
  }

  ghost predicate NulFree(s: string) {
    forall i :: 0 <= i < |s| ==> s[i] != '\0'
  }

  // ------------------------------------------------------------------
  // Reading
  // ------------------------------------------------------------------

  /** The position of the first NUL from `p` on, or the end. */
  function TextEnd(b: string, p: nat): (e: nat)
    requires p <= |b|
    ensures p <= e <= |b| && (e < |b| ==> b[e] == '\0')
    decreases |b| - p
  {
    if p < |b| && b[p] != '\0' then TextEnd(b, p + 1) else p
  }

  /** The position of the first other byte from `p` on, or the end. */
  function NulsEnd(b: string, p: nat): (e: nat)
    requires p <= |b|
    ensures p <= e <= |b| && (e < |b| ==> b[e] != '\0')
    decreases |b| - p
  {
    if p < |b| && b[p] == '\0' then NulsEnd(b, p + 1) else p
  }

  /** The spans of `n` strings from `p` on, each ended by a NUL. */
  function Strings(b: string, p: nat, n: nat): Option<seq<Span>>
    requires p <= |b|
    decreases n
  {
    if n == 0 then Some([])
    else
      var e := TextEnd(b, p);
      if e == |b| then None
      else
        match Strings(b, e + 1, n - 1)
        case None => None
        case Some(rest) => Some([Span(p, e - p)] + rest)
  }

  /** Past the count, the program path and the NULs after it. */
  function FirstArgument(b: string): (first: Option<nat>)
    requires |b| >= 4
    ensures first.Some? ==> 4 < first.value <= |b|
  {
    var pathEnd := TextEnd(b, 4);
    if pathEnd == |b| then None else Some(NulsEnd(b, pathEnd))
  }

  function Parse(b: string, capacity: nat): Option<seq<Span>> {
    if |b| < 4 || Signed(b[..4]) <= 0 || Signed(b[..4]) > capacity || FirstArgument(b).None? then None
    else Strings(b, FirstArgument(b).value, Signed(b[..4]))
  }

  /** The strings are read in place, into the spans given. */
  method ReadStrings(buffer: array<char>, first: nat, argc: nat, arguments: array<Span>, ghost b: string)
      returns (ok: bool)
    requires b == buffer[..] && first <= |b| && argc <= arguments.Length
    modifies arguments
    ensures ok <==> Strings(b, first, argc).Some?
    ensures ok ==> Strings(b, first, argc) == Some(arguments[..argc])
    ensures forall k :: argc <= k < arguments.Length ==> arguments[k] == old(arguments[k])
  {
    ghost var whole := Strings(b, first, argc);
    var position: nat, index: nat := first, 0;
    assert forall rest: seq<Span> :: [] + rest == rest;
    while index < argc
      invariant 0 <= index <= argc && position <= |b| && b == buffer[..]
      invariant forall k :: argc <= k < arguments.Length ==> arguments[k] == old(arguments[k])
      invariant var rest := Strings(b, position, argc - index);
        whole == if rest.None? then None else Some(arguments[..index] + rest.value)
    {
      var start := position;
      while position < buffer.Length && buffer[position] != '\0'
        invariant start <= position <= buffer.Length && TextEnd(b, position) == TextEnd(b, start)
      {
        position := position + 1;
      }
      if position == buffer.Length {
        return false;
      }
      ghost var before := arguments[..index];
      ghost var tail := Strings(b, position + 1, argc - index - 1);
      arguments[index] := Span(start, position - start);
      assert arguments[..index + 1] == before + [Span(start, position - start)];
      if tail.Some? {
        Lists.Associates(before, [Span(start, position - start)], tail.value);
      }
      position := position + 1;
      index := index + 1;
    }
    assert arguments[..argc] + [] == arguments[..argc];
    ok := true;
  }

  /** The place where the arguments start. */
  method ReadPath(buffer: array<char>) returns (first: Option<nat>)
    requires buffer.Length >= 4
    ensures first == FirstArgument(buffer[..])
  {
    ghost var b := buffer[..];
    var position: nat := 4;
    while position < buffer.Length && buffer[position] != '\0'
      invariant 4 <= position <= buffer.Length && TextEnd(b, position) == TextEnd(b, 4)
    {
      position := position + 1;
    }
    if position == buffer.Length {
      return None;
    }
    ghost var pad := position;
    while position < buffer.Length && buffer[position] == '\0'
      invariant pad <= position <= buffer.Length && NulsEnd(b, position) == NulsEnd(b, pad)
    {
      position := position + 1;
    }
    first := Some(position);
  }

  /** The parser is `Parse` on the buffer's bytes. */
  method ParseArgvOnly(buffer: array<char>, arguments: array<Span>) returns (ok: bool, count: nat)
    modifies arguments
    ensures ok <==> Parse(old(buffer[..]), arguments.Length).Some?
    ensures ok ==> count <= arguments.Length && Parse(old(buffer[..]), arguments.Length) == Some(arguments[..count])
    ensures !ok ==> count == 0
  {
    ghost var b := buffer[..];
    if buffer.Length < 4 {
      return false, 0;
    }
    assert b[..4] == buffer[..4];
    var argc := Signed(buffer[..4]);
    if argc <= 0 || argc > arguments.Length {
      return false, 0;
    }
    var first := ReadPath(buffer);
    if first.None? {
      return false, 0;
    }
    ok := ReadStrings(buffer, first.value, argc, arguments, b);
    count := if ok then argc else 0;
  }

  // ------------------------------------------------------------------
  // What reading gives
  // ------------------------------------------------------------------

  function Text(b: string, s: Span): string {
    if s.start + s.size <= |b| then b[s.start..s.start + s.size] else []
  }

  function Texts(b: string, spans: seq<Span>): (texts: seq<string>)
    ensures |texts| == |spans|
  {
    if spans == [] then [] else [Text(b, spans[0])] + Texts(b, spans[1..])
  }

  /** The text stands at `p`, free of NULs, and a NUL after it. */
  ghost predicate StandsAt(b: string, p: nat, text: string) {
    p + |text| < |b| && b[p..p + |text|] == text && NulFree(text) && b[p + |text|] == '\0'
  }

  /** The texts stand one right after the other from `p` on, and `end` is past the last NUL. */
  ghost predicate Stand(b: string, p: nat, texts: seq<string>, end: nat)
    decreases |texts|
  {
    if texts == [] then p == end
    else StandsAt(b, p, texts[0]) && Stand(b, p + |texts[0]| + 1, texts[1..], end)
  }

  /** Spans one right after the other from `p` on, with room for a NUL after each. */
  function Places(texts: seq<string>, p: nat): (spans: seq<Span>)
    ensures |spans| == |texts|
  {
    if texts == [] then [] else [Span(p, |texts[0]|)] + Places(texts[1..], p + |texts[0]| + 1)
  }

  lemma TextEndIs(b: string, p: nat, text: string)
    requires StandsAt(b, p, text)
    ensures TextEnd(b, p) == p + |text|
  {
    forall i | p <= i < p + |text| ensures b[i] != '\0' {
      assert b[i] == b[p..p + |text|][i - p];
    }
    TextEndReaches(b, p, p + |text|);
  }

  /** Up to a position with a NUL, all else being text. */
  lemma {:induction false} TextEndStops(b: string, p: nat)
    requires p <= |b|
    ensures NulFree(b[p..TextEnd(b, p)])
    decreases |b| - p
  {
    if p < |b| && b[p] != '\0' {
      TextEndStops(b, p + 1);
      var e := TextEnd(b, p);
      assert b[p..e] == [b[p]] + b[p + 1..e];
    }
  }

  lemma {:induction false} TextEndReaches(b: string, p: nat, e: nat)
    requires p <= e <= |b| && (e < |b| ==> b[e] == '\0') && forall i :: p <= i < e ==> b[i] != '\0'
    ensures TextEnd(b, p) == e
    decreases e - p
  {
    if p < e { TextEndReaches(b, p + 1, e); }
  }

  lemma {:induction false} NulsEndStops(b: string, p: nat)
    requires p <= |b|
    ensures forall i :: p <= i < NulsEnd(b, p) ==> b[i] == '\0'
    decreases |b| - p
  {
    if p < |b| && b[p] == '\0' { NulsEndStops(b, p + 1); }
  }

  /** Texts that stand in the buffer are read, each at its place. */
  lemma {:induction false} StandingIsRead(b: string, p: nat, texts: seq<string>, end: nat)
    requires p <= |b| && Stand(b, p, texts, end)
    ensures Strings(b, p, |texts|) == Some(Places(texts, p)) && end <= |b|
    decreases |texts|
  {
    if texts != [] {
      TextEndIs(b, p, texts[0]);
      StandingIsRead(b, p + |texts[0]| + 1, texts[1..], end);
    }
  }

  /** What is read stands in the buffer. */
  lemma {:induction false} ReadIsStanding(b: string, p: nat, n: nat) returns (end: nat)
    requires p <= |b| && Strings(b, p, n).Some?
    ensures var spans := Strings(b, p, n).value;
      |spans| == n && Stand(b, p, Texts(b, spans), end) && Places(Texts(b, spans), p) == spans && end <= |b|
    decreases n
  {
    end := p;
    if n > 0 {
      var e := TextEnd(b, p);
      var rest := Strings(b, e + 1, n - 1).value;
      end := ReadIsStanding(b, e + 1, n - 1);
      assert Strings(b, p, n) == Some([Span(p, e - p)] + rest);
      TextEndStops(b, p);
      TextsCons(b, Span(p, e - p), rest);
      PlacesCons(b[p..e], Texts(b, rest), p);
      StandCons(b, p, b[p..e], Texts(b, rest), end);
    }
  }

  lemma TextsCons(b: string, span: Span, rest: seq<Span>)
    ensures Texts(b, [span] + rest) == [Text(b, span)] + Texts(b, rest)
  {
    assert ([span] + rest)[1..] == rest;
  }

  lemma PlacesCons(text: string, rest: seq<string>, p: nat)
    ensures Places([text] + rest, p) == [Span(p, |text|)] + Places(rest, p + |text| + 1)
  {
    assert ([text] + rest)[1..] == rest;
  }

  lemma StandCons(b: string, p: nat, text: string, rest: seq<string>, end: nat)
    ensures Stand(b, p, [text] + rest, end) <==> StandsAt(b, p, text) && Stand(b, p + |text| + 1, rest, end)
  {
    assert ([text] + rest)[1..] == rest;
  }

  /** The spans follow one another from `p` on, with one NUL after each. */
  ghost predicate Contiguous(spans: seq<Span>, p: nat) {
    && (spans != [] ==> spans[0].start == p)
    && (forall i, j :: 0 <= i < j == i + 1 < |spans| ==> spans[j].start == spans[i].start + spans[i].size + 1)
  }

  lemma {:induction false} PlacesContiguous(texts: seq<string>, p: nat)
    ensures Contiguous(Places(texts, p), p)
    decreases |texts|
  {
    if texts != [] {
      PlacesContiguous(texts[1..], p + |texts[0]| + 1);
      var spans, rest := Places(texts, p), Places(texts[1..], p + |texts[0]| + 1);
      forall i, j | 0 <= i < j == i + 1 < |spans| ensures spans[j].start == spans[i].start + spans[i].size + 1 {
        if i > 0 {
          assert rest[j - 1].start == rest[i - 1].start + rest[i - 1].size + 1;
        }
      }
    }
  }

  /** Each text stands at its place. */
  lemma {:induction false} StandsAtPlace(b: string, p: nat, texts: seq<string>, end: nat, i: nat)
    requires Stand(b, p, texts, end) && i < |texts|
    ensures StandsAt(b, Places(texts, p)[i].start, texts[i]) && Places(texts, p)[i].size == |texts[i]|
    decreases |texts|
  {
    if i > 0 { StandsAtPlace(b, p + |texts[0]| + 1, texts[1..], end, i - 1); }
  }

  /** The span lies in the buffer, holds no NUL and is followed by one. */
  ghost predicate Terminated(b: string, s: Span) {
    s.start + s.size < |b| && b[s.start + s.size] == '\0' && NulFree(Text(b, s))
  }

  /**
   * On any buffer, success yields as many spans as the count says, in bounds, free
   * of NULs, each ended by one, one right after the other; the first is not empty.
   */
  lemma ParsedSpansAreSound(b: string, capacity: nat)
    requires Parse(b, capacity).Some?
    ensures var spans := Parse(b, capacity).value;
      && 0 < |spans| == Signed(b[..4]) <= capacity && Contiguous(spans, FirstArgument(b).value) && spans[0].size > 0
      && forall i :: 0 <= i < |spans| ==> Terminated(b, spans[i])
  {
    var first, spans := FirstArgument(b).value, Parse(b, capacity).value;
    var end := ReadIsStanding(b, first, Signed(b[..4]));
    PlacesSound(b, first, Texts(b, spans), end);
    FirstIsText(b, first, Signed(b[..4]));
  }

  lemma PlacesSound(b: string, first: nat, texts: seq<string>, end: nat)
    requires Stand(b, first, texts, end)
    ensures Contiguous(Places(texts, first), first)
    ensures forall i :: 0 <= i < |texts| ==> Terminated(b, Places(texts, first)[i])
  {
    PlacesContiguous(texts, first);
    forall i | 0 <= i < |texts| ensures Terminated(b, Places(texts, first)[i]) {
      StandsAtPlace(b, first, texts, end, i);
    }
  }

  lemma FirstIsText(b: string, p: nat, n: nat)
    requires p <= |b| && Strings(b, p, n).Some? && n > 0 && (p < |b| ==> b[p] != '\0')
    ensures Strings(b, p, n).value != [] && Strings(b, p, n).value[0].size > 0
  {
  }

  // ------------------------------------------------------------------
  // The whole layout
  // ------------------------------------------------------------------

  /**
   * The kernel's layout: the count, the program path, at least one NUL, then the
   * arguments up to `end`, each with its NUL; what follows is the environment.
   */
  ghost predicate LaidOut(b: string, path: string, pad: nat, args: seq<string>, end: nat) {
    var first := 4 + |path| + pad;
    && first <= |b| && Signed(b[..4]) == |args| && pad > 0
    && StandsAt(b, 4, path) && (forall i :: 4 + |path| <= i < first ==> b[i] == '\0')
    && Stand(b, first, args, end)
  }

  /** Any four bytes are read as the 32-bit integer that they are in two's complement. */
  lemma SignedIs(b: string)
    requires |b| == 4 && forall i :: 0 <= i < 4 ==> (b[i] as int) < 0x100
    ensures var n: int := (b[0] as int) + 0x100 * ((b[1] as int) + 0x100 * ((b[2] as int) + 0x100 * (b[3] as int)));
      -0x8000_0000 <= Signed(b) < 0x8000_0000 && (Signed(b) == n || Signed(b) == n - 0x1_0000_0000)
  {
  }

  lemma CountBytesAreSigned(n: nat)
    requires n < 0x8000_0000
    ensures Signed(CountBytes(n)) == n
  {
    var low := n / 0x100;
    var mid := low / 0x100;
    assert n == 0x100 * low + n % 0x100 && low == 0x100 * mid + low % 0x100 && mid == 0x100 * (mid / 0x100) + mid % 0x100;
    assert n / 0x1_0000 == mid && n / 0x100_0000 == mid / 0x100;
  }

  lemma {:induction false} NulsEndSkips(b: string, p: nat, q: nat)
    requires p <= q <= |b| && forall i :: p <= i < q ==> b[i] == '\0'
    ensures NulsEnd(b, p) == NulsEnd(b, q)
    decreases q - p
  {
    if p < q { NulsEndSkips(b, p + 1, q); }
  }

  /** The arguments start where the padding ends, past the NULs of leading empty ones. */
  lemma FirstIsFound(b: string, path: string, pad: nat, args: seq<string>, end: nat)
    requires LaidOut(b, path, pad, args, end) && args != []
    ensures var first := 4 + |path| + pad;
      && FirstArgument(b) == Some(NulsEnd(b, first))
      && (args[0] != [] ==> NulsEnd(b, first) == first)
  {
    var e, first := 4 + |path|, 4 + |path| + pad;
    TextEndIs(b, 4, path);
    NulsEndSkips(b, e, first);
    if args[0] != [] {
      assert b[first] == b[first..first + |args[0]|][0];
    }
  }

  lemma {:induction false} TextsOfPlaces(b: string, p: nat, texts: seq<string>, end: nat)
    requires p <= |b| && Stand(b, p, texts, end)
    ensures Texts(b, Places(texts, p)) == texts
    decreases |texts|
  {
    if texts != [] {
      TextsOfPlaces(b, p + |texts[0]| + 1, texts[1..], end);
      TextsCons(b, Span(p, |texts[0]|), Places(texts[1..], p + |texts[0]| + 1));
    }
  }

  /**
   * The arguments laid out by the kernel are read back exactly when the first one
   * is not empty: the NUL of an empty one passes for padding.
   */
  lemma ReadBackIff(b: string, path: string, pad: nat, args: seq<string>, end: nat, capacity: nat)
    requires LaidOut(b, path, pad, args, end) && 0 < |args| <= capacity
    ensures var spans := Parse(b, capacity);
      && ((spans.Some? && Texts(b, spans.value) == args) <==> args[0] != [])
      && (args[0] != [] ==> spans == Some(Places(args, 4 + |path| + pad)))
  {
    var first := 4 + |path| + pad;
    FirstIsFound(b, path, pad, args, end);
    if args[0] != [] {
      StandingIsRead(b, first, args, end);
      TextsOfPlaces(b, first, args, end);
    } else if Parse(b, capacity).Some? {
      ParsedSpansAreSound(b, capacity);
    }
  }

  /** What the parser accepts is laid out so, with a first argument that is not empty. */
  lemma ParsedIsLaidOut(b: string, capacity: nat) returns (path: string, pad: nat, end: nat)
    requires Parse(b, capacity).Some?
    ensures var args := Texts(b, Parse(b, capacity).value);
      LaidOut(b, path, pad, args, end) && 0 < |args| <= capacity && args[0] != []
  {
    var e, first := TextEnd(b, 4), FirstArgument(b).value;
    path, pad := b[4..e], first - e;
    end := ReadIsStanding(b, first, Signed(b[..4]));
    TextEndStops(b, 4);
    NulsEndStops(b, e);
    ParsedSpansAreSound(b, capacity);
  }
}
