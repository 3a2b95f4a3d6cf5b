/** The entry of an observed Node process: scripts/gates/darwin/node_flags.h on what argv_observation.h has parsed. */
module NodeArgv {
  import opened Wrappers
  import opened ProcArgs
  import opened NodeFlags

  lemma {:induction false} TextAt(b: string, spans: seq<Span>, i: nat)
    requires i < |spans|
    ensures Texts(b, spans)[i] == Text(b, spans[i])
  {
    if i > 0 { TextAt(b, spans[1..], i - 1); }
  }

  /** A span starts with a dash exactly when its text does. */
  lemma DashAt(b: string, s: Span)
    requires Terminated(b, s)
    ensures b[s.start] == '-' <==> Dashed(Text(b, s))
  {
  }

  /** The text of a span, up to its NUL. */
  method ReadText(buffer: array<char>, s: Span) returns (text: string)
    requires Terminated(buffer[..], s)
    ensures text == Text(buffer[..], s)
  {
    text := [];
    var i := s.start;
    forall j | s.start <= j < s.start + s.size ensures buffer[j] != '\0' {
      assert buffer[j] == Text(buffer[..], s)[j - s.start];
    }
    while buffer[i] != '\0'
      invariant s.start <= i <= s.start + s.size && text == buffer[s.start..i]
      decreases s.start + s.size - i
    {
      text := text + [buffer[i]];
      i := i + 1;
    }
  }

  /** The texts that the spans of a buffer hold, each ended by a NUL. */
  ghost predicate Holds(buffer: array<char>, args: array<Span>, texts: seq<string>)
    reads buffer, args
  {
    && |texts| <= args.Length
    && forall i :: 0 <= i < |texts| ==> Terminated(buffer[..], args[i]) && texts[i] == Text(buffer[..], args[i])
  }

  lemma TextsHeld(buffer: array<char>, args: array<Span>, count: nat)
    requires count <= args.Length && forall i :: 0 <= i < count ==> Terminated(buffer[..], args[i])
    ensures Holds(buffer, args, Texts(buffer[..], args[..count]))
  {
    forall i | 0 <= i < count ensures Texts(buffer[..], args[..count])[i] == Text(buffer[..], args[i]) {
      TextAt(buffer[..], args[..count], i);
    }
  }

  method ReadArgument(buffer: array<char>, args: array<Span>, ghost texts: seq<string>, i: nat) returns (text: string)
    requires Holds(buffer, args, texts) && i < |texts|
    ensures text == texts[i]
  {
    text := ReadText(buffer, args[i]);
  }

  /** The loop over the spans of a buffer: the entry, and the name of the last flag looked at. */
  method NodeFlagsEntry(g: Grammar, buffer: array<char>, args: array<Span>, count: nat, ghost texts: seq<string>)
      returns (entry: Option<nat>, bad: string)
    requires Holds(buffer, args, texts) && |texts| == count && forall text :: g.dashed(text) == Dashed(text)
    ensures entry == EntryFrom(g, texts, 1, false) && bad == NameFrom(g, texts, 1, false, "")
  {
    var index, imported := 1, false;
    bad := "";
    DashesHeld(buffer, args, texts);
    while index < count && buffer[args[index].start] == '-'
      invariant 1 <= index && EntryFrom(g, texts, 1, false) == EntryFrom(g, texts, index, imported)
      invariant NameFrom(g, texts, 1, false, "") == NameFrom(g, texts, index, imported, bad)
      decreases count - index
    {
      var flag := ReadArgument(buffer, args, texts, index);
      bad := NameOf(flag);
      if flag == g.importFlag {
        if imported || g.pinned.None? || index + 1 >= count {
          return None, bad;
        }
        var path := ReadArgument(buffer, args, texts, index + 1);
        if path != g.pinned.value {
          return None, bad;
        }
        imported := true;
        index := index + 2;
      } else {
        if !g.reviewed(flag) {
          return None, bad;
        }
        index := index + 1;
      }
    }
    entry := if index < count then Some(index) else None;
  }

  lemma DashesHeld(buffer: array<char>, args: array<Span>, texts: seq<string>)
    requires Holds(buffer, args, texts)
    ensures forall i :: 0 <= i < |texts| ==>
      args[i].start < buffer.Length && (buffer[args[i].start] == '-' <==> Dashed(texts[i]))
  {
    forall i | 0 <= i < |texts|
      ensures args[i].start < buffer.Length && (buffer[args[i].start] == '-' <==> Dashed(texts[i]))
    {
      DashAt(buffer[..], args[i]);
    }
  }

  lemma SpansEnd(b: string, capacity: nat, spans: seq<Span>)
    requires Parse(b, capacity) == Some(spans)
    ensures forall i :: 0 <= i < |spans| ==> Terminated(b, spans[i])
  {
    ParsedSpansAreSound(b, capacity);
  }

  /** The argument parser and then the flags of what it parsed. */
  method ObserveEntry(p: Policy, buffer: array<char>, args: array<Span>)
      returns (entry: Option<nat>, bad: string, count: nat)
    modifies args
    ensures entry.Some? ==> count <= args.Length && Parse(buffer[..], args.Length) == Some(args[..count])
    ensures entry == EntryIn(p, buffer[..], args.Length)
  {
    var ok;
    ok, count := ParseArgvOnly(buffer, args);
    if !ok {
      return None, "", 0;
    }
    SpansEnd(buffer[..], args.Length, args[..count]);
    assert forall i :: 0 <= i < count ==> args[i] == args[..count][i];
    TextsHeld(buffer, args, count);
    entry, bad := NodeFlagsEntry(GrammarOf(p), buffer, args, count, Texts(buffer[..], args[..count]));
  }

  /** The entry of the process whose arguments are in the buffer. */
  ghost function EntryIn(p: Policy, b: string, capacity: nat): Option<nat> {
    match Parse(b, capacity)
    case None => None
    case Some(spans) => EntryFrom(GrammarOf(p), Texts(b, spans), 1, false)
  }

  /**
   * On any buffer an entry is found exactly when the arguments parse and it is the
   * first of them after reviewed flags and at most one import of the pinned
   * preloader; its span is then in bounds, not a flag, and ended by a NUL.
   */
  lemma ObservedEntryIff(p: Policy, b: string, capacity: nat, entry: nat)
    ensures EntryIn(p, b, capacity) == Some(entry)
       <==> Parse(b, capacity).Some?
            && exists units :: EntryAfter(GrammarOf(p), Texts(b, Parse(b, capacity).value), units, entry)
    ensures EntryIn(p, b, capacity) == Some(entry) ==>
      var spans := Parse(b, capacity).value;
      1 <= entry < |spans| && Terminated(b, spans[entry]) && b[spans[entry].start] != '-'
  {
    if Parse(b, capacity).Some? {
      var spans := Parse(b, capacity).value;
      EntryIff(p, Texts(b, spans), entry);
      if EntryIn(p, b, capacity) == Some(entry) {
        var units :| EntryAfter(GrammarOf(p), Texts(b, spans), units, entry);
        ParsedSpansAreSound(b, capacity);
        TextAt(b, spans, entry);
        DashAt(b, spans[entry]);
      }
    }
  }

  /** What the kernel lays out for a process: its entry is the one of its arguments. */
  lemma LaidOutEntry(p: Policy, b: string, path: string, pad: nat, args: seq<string>, end: nat, capacity: nat)
    requires LaidOut(b, path, pad, args, end) && 0 < |args| <= capacity && args[0] != []
    ensures EntryIn(p, b, capacity) == EntryFrom(GrammarOf(p), args, 1, false)
  {
    ReadBackIff(b, path, pad, args, end, capacity);
  }
}
