/** What the parts of a text count as, by the role of its author: v2/adapters/src/transcript-context.ts. */
module ContextSources {
  import opened Wrappers
  import opened Lists
  import opened Text
  import opened Context

  /** The pattern finds these sections in the text, one after the other, between these stretches. */
  ghost predicate Stretches(p: Patterns, s: string, kept: seq<string>, sections: seq<string>)
    decreases |sections|
  {
    && |kept| == |sections| + 1
    && if sections == [] then s == kept[0] && (p.section(s).None? || !Lies(p.section(s).value, s))
       else
         && sections[0] != "" && s == kept[0] + sections[0] + s[Least(|kept[0] + sections[0]|, |s|)..]
         && p.section(s) == Some((|kept[0]|, |kept[0] + sections[0]|))
         && Stretches(p, s[Least(|kept[0] + sections[0]|, |s|)..], kept[1..], sections[1..])
  }

  function Least(a: nat, b: nat): nat {
    if a < b then a else b
  }

  /** A stretch of the text that is not empty. */
  predicate Lies(at: (nat, nat), s: string) {
    at.0 < at.1 <= |s|
  }

  function Catalog(section: string): seq<Source> {
    [Source(Skills, "Skill catalog & instructions", |section|)]
  }

  function OneSource(category: Category, title: string, n: nat): seq<Source> {
    if n == 0 then [] else [Source(category, title, n)]
  }

  /** How much of the text a block of project instructions takes: only a user's text starts with one. */
  function Block(p: Patterns, role: string, text: string): (n: nat)
    ensures n <= |text|
  {
    if role == "user" && p.projectLength(text) <= |text| then p.projectLength(text) else 0
  }

  /** The part of the text in which skills sections are looked for: a project block, or else all of it. */
  function Content(p: Patterns, role: string, text: string): string {
    if Block(p, role, text) > 0 then text[..Block(p, role, text)] else text
  }

  /** What a text counts as, its content being cut into stretches and sections. */
  function Expected(p: Patterns, role: string, text: string, kept: seq<string>, sections: seq<string>): seq<Source> {
    if role == "user" && p.isSkill(text) then OneSource(Skills, "Loaded skill instructions", |text|)
    else if Block(p, role, text) > 0 then
      OneSource(Messages, "User messages", |text| - Block(p, role, text)) + Flat(sections, Catalog)
      + OneSource(Project, "AGENTS.md instructions", |Joined(kept)|)
    else if role == "system" || role == "developer" then
      Flat(sections, Catalog) + OneSource(System, p.capital(role) + " instructions", |Joined(kept)|)
    else OneSource(Messages, p.capital(role) + " messages", |text|)
  }

  lemma OnePiece(category: Category, title: string, text: string)
    ensures Flat(Add(category, title, text), SizeOf) == OneSource(category, title, |text|)
  {
    if text != "" { FlatOne(Piece(category, title, text), SizeOf); }
  }

  /** The cutting of a text by the pattern. */
  lemma {:induction false} CutsStretches(p: Patterns, s: string, kept: seq<string>, sections: seq<string>)
    requires Stretches(p, s, kept, sections)
    ensures Cut(p, s).kept == Joined(kept) && Flat(Cut(p, s).sections, SizeOf) == Flat(sections, Catalog)
    decreases |sections|
  {
    if sections == [] {
      assert Joined(kept) == kept[0] + Joined(kept[1..]) && kept[1..] == [];
      assert kept[0] + "" == kept[0];
    } else {
      var from, to := |kept[0]|, |kept[0] + sections[0]|;
      assert to <= |s| && s[..from] == kept[0] && s[from..to] == sections[0];
      var rest := s[to..];
      CutsStretches(p, rest, kept[1..], sections[1..]);
      FlatConcat(Add(Skills, CATALOG, sections[0]), Cut(p, rest).sections, SizeOf);
      OnePiece(Skills, CATALOG, sections[0]);
    }
  }

  /** Every text has such stretches. */
  lemma {:induction false} EveryTextStretches(p: Patterns, s: string) returns (kept: seq<string>, sections: seq<string>)
    ensures Stretches(p, s, kept, sections)
    decreases |s|
  {
    if p.section(s).Some? && Lies(p.section(s).value, s) {
      var (from, to) := p.section(s).value;
      var more, others := EveryTextStretches(p, s[to..]);
      kept, sections := [s[..from]] + more, [s[from..to]] + others;
      assert kept[1..] == more && sections[1..] == others;
      assert s == s[..from] + s[from..to] + s[to..];
    } else {
      kept, sections := [s], [];
    }
  }

  /** Every text counts as just this, with these labels, whoever wrote it. */
  lemma SourcesAreExpected(p: Patterns, role: string, text: string, kept: seq<string>, sections: seq<string>)
    requires Stretches(p, Content(p, role, text), kept, sections)
    ensures Sources(p, role, text) == Expected(p, role, text, kept, sections)
  {
    var n, content := Block(p, role, text), Content(p, role, text);
    CutsStretches(p, content, kept, sections);
    if role == "user" && p.isSkill(text) {
      OnePiece(Skills, "Loaded skill instructions", text);
    } else if n > 0 {
      PartsSizes(p, text, n, true, NamingOf(p, role, true));
    } else {
      PartsSizes(p, text, 0, Instructs(role), NamingOf(p, role, false));
    }
  }

  lemma PartsSizes(p: Patterns, text: string, n: nat, cut: bool, naming: Naming)
    requires n <= |text|
    ensures var content := if n > 0 then text[..n] else text;
      var cutting := if cut then Cut(p, content) else Cutting([], content);
      Flat(Parts(p, text, n, cut, naming), SizeOf) ==
        (if n > 0 then OneSource(Messages, naming.after, |text| - n) else []) + Flat(cutting.sections, SizeOf)
        + OneSource(naming.category, naming.rest, |cutting.kept|)
  {
    var content := if n > 0 then text[..n] else text;
    var cutting := if cut then Cut(p, content) else Cutting([], content);
    var after := if n > 0 then Add(Messages, naming.after, text[n..]) else [];
    FlatConcat(after + cutting.sections, Add(naming.category, naming.rest, cutting.kept), SizeOf);
    FlatConcat(after, cutting.sections, SizeOf);
    OnePiece(naming.category, naming.rest, cutting.kept);
    if n > 0 { OnePiece(Messages, naming.after, text[n..]); }
  }
}
