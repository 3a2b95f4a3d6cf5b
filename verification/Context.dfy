/**
 * Sizes of the sources of a context: v2/adapters/src/transcript-context.ts, and the
 * totals that v2/adapters/src/codex.ts makes of them.
 */
module Context {
  import opened Wrappers
  import Lists
  import opened Ordered

  datatype Category = System | Project | Skills | Definitions | Messages | Tools | Reasoning | Summary

  /** A stretch of text and what it counts as. */
  datatype Piece = Piece(category: Category, title: string, text: string)

  datatype Source = Source(category: Category, title: string, characters: nat)

  /**
   * What the regular expressions find: whether a user's text is one loaded skill,
   * how long an AGENTS.md block at its start is (0 for none), where the first skills
   * section starts and ends; and the upper-case form of a role's first letter.
   */
  datatype Patterns = Patterns(isSkill: string -> bool, projectLength: string -> nat,
                               section: string -> Option<(nat, nat)>, capital: string -> string)

  /** A section that lies in the text and is not empty. */
  function SectionIn(p: Patterns, s: string): (at: Option<(nat, nat)>)
    ensures at.Some? ==> at.value.0 < at.value.1 <= |s|
  {
    var at := p.section(s);
    if at.Some? && at.value.0 < at.value.1 <= |s| then at else None
  }

  // ------------------------------------------------------------------
  // Cutting a text
  // ------------------------------------------------------------------

  function Add(category: Category, title: string, text: string): seq<Piece> {
    if text == [] then [] else [Piece(category, title, text)]
  }

  const CATALOG := "Skill catalog & instructions"

  /** The skills sections of a text, and the text without them. */
  datatype Cutting = Cutting(sections: seq<Piece>, kept: string)

  function Cut(p: Patterns, s: string): Cutting
    decreases |s|
  {
    match SectionIn(p, s)
    case None => Cutting([], s)
    case Some((from, to)) =>
      var rest := Cut(p, s[to..]);
      Cutting(Add(Skills, CATALOG, s[from..to]) + rest.sections, s[..from] + rest.kept)
  }

  /** The part that a block of project instructions takes, of a user's text. */
  function ProjectPart(p: Patterns, role: string, text: string): (n: nat)
    ensures n <= |text|
  {
    if role == "user" && p.projectLength(text) <= |text| then p.projectLength(text) else 0
  }

  predicate Instructs(role: string) {
    role == "system" || role == "developer"
  }

  function RestLabel(p: Patterns, role: string): string {
    p.capital(role) + if Instructs(role) then " instructions" else " messages"
  }

  /** How the pieces are named: what comes after a project block, and what is left in the end. */
  datatype Naming = Naming(after: string, category: Category, rest: string)

  /** The pieces of a text whose first `n` characters are a project block, cut at skills sections if `cut`. */
  function Parts(p: Patterns, text: string, n: nat, cut: bool, naming: Naming): seq<Piece>
    requires n <= |text|
  {
    var content := if n > 0 then text[..n] else text;
    var cutting := if cut then Cut(p, content) else Cutting([], content);
    (if n > 0 then Add(Messages, naming.after, text[n..]) else []) + cutting.sections
    + Add(naming.category, naming.rest, cutting.kept)
  }

  function NamingOf(p: Patterns, role: string, project: bool): Naming {
    Naming("User messages", if project then Project else if Instructs(role) then System else Messages,
           if project then "AGENTS.md instructions" else RestLabel(p, role))
  }

  /** The pieces of a text. */
  function Pieces(p: Patterns, role: string, text: string): seq<Piece> {
    if role == "user" && p.isSkill(text) then Add(Skills, "Loaded skill instructions", text)
    else
      var n := ProjectPart(p, role, text);
      Parts(p, text, n, n > 0 || Instructs(role), NamingOf(p, role, n > 0))
  }

  function SizeOf(piece: Piece): seq<Source> {
    [Source(piece.category, piece.title, |piece.text|)]
  }

  function Sources(p: Patterns, role: string, text: string): seq<Source> {
    Lists.Flat(Pieces(p, role, text), SizeOf)
  }

  method Push(sources: seq<Source>, category: Category, title: string, text: string) returns (next: seq<Source>)
    ensures next == sources + Lists.Flat(Add(category, title, text), SizeOf)
  {
    next := sources;
    if text != [] {
      next := next + [Source(category, title, |text|)];
      Lists.FlatOne(Piece(category, title, text), SizeOf);
    }
  }

  /** The replacement of all sections, each recorded as it goes. */
  method CutSections(p: Patterns, text: string, before: seq<Source>) returns (sources: seq<Source>, kept: string)
    ensures sources == before + Lists.Flat(Cut(p, text).sections, SizeOf) && kept == Cut(p, text).kept
  {
    var rest := text;
    sources, kept := before, [];
    ghost var done: seq<Piece> := [];
    assert before + [] == before;
    assert done + Cut(p, text).sections == Cut(p, text).sections && [] + Cut(p, text).kept == Cut(p, text).kept;
    while SectionIn(p, rest).Some?
      invariant sources == before + Lists.Flat(done, SizeOf)
      invariant Cut(p, text) == Cutting(done + Cut(p, rest).sections, kept + Cut(p, rest).kept)
      decreases |rest|
    {
      var (from, to) := SectionIn(p, rest).value;
      var section := Add(Skills, CATALOG, rest[from..to]);
      Lists.FlatConcat(done, section, SizeOf);
      Lists.Associates(done, section, Cut(p, rest[to..]).sections);
      Lists.Associates(kept, rest[..from], Cut(p, rest[to..]).kept);
      Lists.Associates(before, Lists.Flat(done, SizeOf), Lists.Flat(section, SizeOf));
      sources := Push(sources, Skills, CATALOG, rest[from..to]);
      kept := kept + rest[..from];
      done := done + section;
      rest := rest[to..];
    }
    assert done + [] == done;
    kept := kept + rest;
  }

  /** The sizes are pushed as the text is cut. */
  method PushParts(p: Patterns, text: string, n: nat, cut: bool, naming: Naming) returns (sources: seq<Source>)
    requires n <= |text|
    ensures sources == Lists.Flat(Parts(p, text, n, cut, naming), SizeOf)
  {
    sources := [];
    var content := text;
    ghost var after: seq<Piece>, sections: seq<Piece> := [], [];
    if n > 0 {
      sources := Push(sources, Messages, naming.after, text[n..]);
      after, content := Add(Messages, naming.after, text[n..]), text[..n];
    }
    if cut {
      sections := Cut(p, content).sections;
      sources, content := CutSections(p, content, sources);
    }
    sources := Push(sources, naming.category, naming.rest, content);
    FlatThree(after, sections, Add(naming.category, naming.rest, content));
  }

  lemma FlatThree(x: seq<Piece>, y: seq<Piece>, z: seq<Piece>)
    ensures Lists.Flat(x + y + z, SizeOf) == Lists.Flat(x, SizeOf) + Lists.Flat(y, SizeOf) + Lists.Flat(z, SizeOf)
  {
    Lists.FlatConcat(x, y, SizeOf);
    Lists.FlatConcat(x + y, z, SizeOf);
  }

  method ContextTextSources(p: Patterns, role: string, text: string) returns (sources: seq<Source>)
    ensures sources == Sources(p, role, text)
  {
    if role == "user" && p.isSkill(text) {
      sources := Push([], Skills, "Loaded skill instructions", text);
      return;
    }
    var n := ProjectPart(p, role, text);
    sources := PushParts(p, text, n, n > 0 || Instructs(role), NamingOf(p, role, n > 0));
  }

  // ------------------------------------------------------------------
  // Totals
  // ------------------------------------------------------------------

  function Total(sources: seq<Source>): nat {
    if sources == [] then 0 else Total(sources[..|sources| - 1]) + sources[|sources| - 1].characters
  }

  lemma {:induction false} TotalConcat(x: seq<Source>, y: seq<Source>)
    ensures Total(x + y) == Total(x) + Total(y)
    decreases |y|
  {
    if y == [] {
      assert x + y == x;
    } else {
      assert (x + y)[..|x + y| - 1] == x + y[..|y| - 1];
      TotalConcat(x, y[..|y| - 1]);
    }
  }

  function TextOf(piece: Piece): string {
    piece.text
  }

  /** All texts of the pieces. */
  function AllText(pieces: seq<Piece>): string {
    Lists.Flat(pieces, TextOf)
  }

  lemma AddText(category: Category, title: string, text: string)
    ensures AllText(Add(category, title, text)) == text
  {
    if text != [] {
      Lists.FlatOne(Piece(category, title, text), TextOf);
    }
  }

  lemma {:induction false} SizesAreText(pieces: seq<Piece>)
    ensures Total(Lists.Flat(pieces, SizeOf)) == |AllText(pieces)|
    decreases |pieces|
  {
    if pieces != [] {
      SizesAreText(pieces[1..]);
      TotalConcat(SizeOf(pieces[0]), Lists.Flat(pieces[1..], SizeOf));
      assert SizeOf(pieces[0])[..0] == [];
    }
  }

  lemma {:induction false} CutKeepsText(p: Patterns, s: string)
    ensures var cutting := Cut(p, s); multiset(AllText(cutting.sections)) + multiset(cutting.kept) == multiset(s)
    decreases |s|
  {
    match SectionIn(p, s)
    case None =>
    case Some((from, to)) =>
      var rest := Cut(p, s[to..]);
      CutKeepsText(p, s[to..]);
      AddText(Skills, CATALOG, s[from..to]);
      Lists.FlatConcat(Add(Skills, CATALOG, s[from..to]), rest.sections, TextOf);
      assert s == s[..from] + s[from..to] + s[to..];
  }

  lemma ThreeTexts(x: seq<Piece>, y: seq<Piece>, z: seq<Piece>)
    ensures multiset(AllText(x + y + z)) == multiset(AllText(x)) + multiset(AllText(y)) + multiset(AllText(z))
  {
    Lists.FlatConcat(x, y, TextOf);
    Lists.FlatConcat(x + y, z, TextOf);
  }

  /** Three groups of pieces hold a text when the middle one and the last hold what the first does not. */
  lemma AddsUp(after: seq<Piece>, sections: seq<Piece>, last: seq<Piece>, text: string, content: string, kept: string)
    requires multiset(AllText(after)) + multiset(content) == multiset(text)
    requires multiset(AllText(sections)) + multiset(kept) == multiset(content)
    requires AllText(last) == kept
    ensures multiset(AllText(after + sections + last)) == multiset(text)
  {
    ThreeTexts(after, sections, last);
  }

  lemma AfterText(after: seq<Piece>, title: string, text: string, n: nat)
    requires n <= |text| && after == (if n > 0 then Add(Messages, title, text[n..]) else [])
    ensures multiset(AllText(after)) + multiset(if n > 0 then text[..n] else text) == multiset(text)
  {
    AddText(Messages, title, text[n..]);
    assert text == text[..n] + text[n..];
  }

  lemma CuttingText(p: Patterns, content: string, cut: bool)
    ensures var cutting := if cut then Cut(p, content) else Cutting([], content);
      multiset(AllText(cutting.sections)) + multiset(cutting.kept) == multiset(content)
  {
    CutKeepsText(p, content);
  }

  lemma PartsPartition(p: Patterns, text: string, n: nat, cut: bool, naming: Naming)
    requires n <= |text|
    ensures multiset(AllText(Parts(p, text, n, cut, naming))) == multiset(text)
  {
    var content := if n > 0 then text[..n] else text;
    var cutting := if cut then Cut(p, content) else Cutting([], content);
    var after := if n > 0 then Add(Messages, naming.after, text[n..]) else [];
    AfterText(after, naming.after, text, n);
    CuttingText(p, content, cut);
    AddText(naming.category, naming.rest, cutting.kept);
    AddsUp(after, cutting.sections, Add(naming.category, naming.rest, cutting.kept), text, content, cutting.kept);
  }

  /** The pieces hold every character of the text, as often as it occurs there. */
  lemma PiecesPartition(p: Patterns, role: string, text: string)
    ensures multiset(AllText(Pieces(p, role, text))) == multiset(text)
  {
    var n := ProjectPart(p, role, text);
    AddText(Skills, "Loaded skill instructions", text);
    PartsPartition(p, text, n, n > 0 || Instructs(role), NamingOf(p, role, n > 0));
  }

  /** The sizes of the sources add up to the size of the text, for every role. */
  lemma SourcesAddUp(p: Patterns, role: string, text: string)
    ensures Total(Sources(p, role, text)) == |text|
  {
    PiecesPartition(p, role, text);
    SizesAreText(Pieces(p, role, text));
    assert |multiset(AllText(Pieces(p, role, text)))| == |multiset(text)|;
  }

  // ------------------------------------------------------------------
  // Aggregation
  // ------------------------------------------------------------------

  function CategoryName(category: Category): string {
    match category
    case System => "system"
    case Project => "project"
    case Skills => "skills"
    case Definitions => "definitions"
    case Messages => "messages"
    case Tools => "tools"
    case Reasoning => "reasoning"
    case Summary => "summary"
  }

  function KeyOf(category: Category, title: string): string {
    CategoryName(category) + ":" + title
  }

  lemma CategoryNames(a: Category, b: Category)
    ensures ':' !in CategoryName(a) && (CategoryName(a) == CategoryName(b) ==> a == b)
  {
    assert CategoryName(a) == CategoryName(b) ==>
      CategoryName(a)[0] == CategoryName(b)[0] && CategoryName(a)[1] == CategoryName(b)[1];
  }

  lemma SplitAtColon(a: string, x: string, b: string, y: string)
    requires ':' !in a && ':' !in b && a + ":" + x == b + ":" + y
    ensures a == b && x == y
  {
    var k, i, j := a + ":" + x, |a|, |b|;
    assert k[i] == ':' && k == b + ":" + y && k[j] == ':';
    assert forall m :: 0 <= m < i ==> k[m] == a[m];
    assert forall m :: 0 <= m < j ==> k[m] == b[m];
    assert k[..i] == a && k[..j] == b && k[i + 1..] == x && k[j + 1..] == y;
  }

  lemma KeysTellApart(a: Category, x: string, b: Category, y: string)
    ensures KeyOf(a, x) == KeyOf(b, y) <==> a == b && x == y
  {
    CategoryNames(a, b);
    CategoryNames(b, a);
    if KeyOf(a, x) == KeyOf(b, y) {
      SplitAtColon(CategoryName(a), x, CategoryName(b), y);
    }
  }

  type Groups = Entries<Source>

  /** The groups after one more source. */
  function Grouped(groups: Groups, source: Source): Groups {
    var key := KeyOf(source.category, source.title);
    var prior := match Get(groups, key) case None => 0 case Some(group) => group.characters;
    Put(groups, key, source.(characters := source.characters + prior))
  }

  function GroupAll(sources: seq<Source>): Groups {
    if sources == [] then [] else Grouped(GroupAll(sources[..|sources| - 1]), sources[|sources| - 1])
  }

  function Values(groups: Groups): seq<Source> {
    seq(|groups|, i requires 0 <= i < |groups| => groups[i].1)
  }

  method AggregateSources(sources: seq<Source>) returns (grouped: seq<Source>)
    ensures grouped == Values(GroupAll(sources))
  {
    var groups: Groups := [];
    for i := 0 to |sources|
      invariant groups == GroupAll(sources[..i])
    {
      assert sources[..i + 1][..i] == sources[..i];
      groups := Grouped(groups, sources[i]);
    }
    assert sources[..|sources|] == sources;
    grouped := Values(groups);
  }

  /** What sources with a category and a label add up to. */
  function TotalOf(sources: seq<Source>, category: Category, title: string): nat {
    if sources == [] then 0
    else
      var last := sources[|sources| - 1];
      TotalOf(sources[..|sources| - 1], category, title)
      + if last.category == category && last.title == title then last.characters else 0
  }

  ghost predicate Keyed(groups: Groups) {
    DistinctKeys(groups) && forall i :: 0 <= i < |groups| ==> groups[i].0 == KeyOf(groups[i].1.category, groups[i].1.title)
  }

  lemma GroupedKeyed(groups: Groups, source: Source)
    requires Keyed(groups)
    ensures Keyed(Grouped(groups, source))
  {
    var key := KeyOf(source.category, source.title);
    var prior := match Get(groups, key) case None => 0 case Some(group) => group.characters;
    PutDistinct(groups, key, source.(characters := source.characters + prior));
  }

  function Held(groups: Groups, key: string): nat {
    match Get(groups, key) case None => 0 case Some(group) => group.characters
  }

  lemma GroupedIs(groups: Groups, source: Source, own: string)
    requires own == KeyOf(source.category, source.title)
    ensures Grouped(groups, source) == Put(groups, own, source.(characters := source.characters + Held(groups, own)))
  {
  }

  lemma TotalOne(source: Source)
    ensures Total([source]) == source.characters
  {
    assert [source][..0] == [];
  }

  lemma TotalPut(groups: Groups, key: string, value: Source)
    ensures Total(Values(Put(groups, key, value))) == Total(Values(groups)) - Held(groups, key) + value.characters
  {
    var i, next := Find(groups, key), Put(groups, key, value);
    TotalOne(value);
    if i < |groups| {
      var x, y := groups[..i], groups[i + 1..];
      var was := groups[i].1;
      assert Values(groups) == Values(x) + [was] + Values(y);
      assert Values(next) == Values(x) + [value] + Values(y);
      TotalConcat(Values(x) + [was], Values(y));
      TotalConcat(Values(x) + [value], Values(y));
      TotalConcat(Values(x), [was]);
      TotalConcat(Values(x), [value]);
      TotalOne(was);
    } else {
      assert Values(next) == Values(groups) + [value];
      TotalConcat(Values(groups), [value]);
    }
  }

  lemma GroupedTotal(groups: Groups, source: Source)
    ensures Total(Values(Grouped(groups, source))) == Total(Values(groups)) + source.characters
  {
    var own := KeyOf(source.category, source.title);
    GroupedIs(groups, source, own);
    TotalPut(groups, own, source.(characters := source.characters + Held(groups, own)));
  }

  /** Aggregation keeps the total, and has one entry for each category and label. */
  lemma {:induction false} AggregationKeepsTotal(sources: seq<Source>)
    ensures Keyed(GroupAll(sources)) && Total(Values(GroupAll(sources))) == Total(sources)
    decreases |sources|
  {
    if sources != [] {
      var n := |sources| - 1;
      AggregationKeepsTotal(sources[..n]);
      GroupedKeyed(GroupAll(sources[..n]), sources[n]);
      GroupedTotal(GroupAll(sources[..n]), sources[n]);
    }
  }

  lemma HeldPut(groups: Groups, own: string, value: Source, key: string)
    ensures Held(Put(groups, own, value), key) == if key == own then value.characters else Held(groups, key)
  {
    GetPut(groups, own, value, key);
  }

  lemma GroupedHolds(groups: Groups, source: Source, key: string)
    ensures Held(Grouped(groups, source), key)
         == Held(groups, key) + if key == KeyOf(source.category, source.title) then source.characters else 0
  {
    var own := KeyOf(source.category, source.title);
    GroupedIs(groups, source, own);
    HeldPut(groups, own, source.(characters := source.characters + Held(groups, own)), key);
  }

  /** Each entry is the sum of the sources with its category and label. */
  lemma {:induction false} AggregationSums(sources: seq<Source>, category: Category, title: string)
    ensures TotalOf(sources, category, title) == Held(GroupAll(sources), KeyOf(category, title))
    decreases |sources|
  {
    if sources != [] {
      var n := |sources| - 1;
      var last := sources[n];
      AggregationSums(sources[..n], category, title);
      GroupedHolds(GroupAll(sources[..n]), last, KeyOf(category, title));
      KeysTellApart(category, title, last.category, last.title);
    }
  }

  // ------------------------------------------------------------------
  // The input baseline
  // ------------------------------------------------------------------

  /** An input of a turn: a text, or something else. */
  datatype Input = TextInput(text: string) | OtherInput

  datatype Baseline = Baseline(characters: nat, complete: bool)

  predicate Counted(source: Source) {
    source.category == Messages || source.category == Project || source.category == Skills
  }

  function CountedTotal(sources: seq<Source>): nat {
    if sources == [] then 0
    else
      var n := |sources| - 1;
      CountedTotal(sources[..n]) + if Counted(sources[n]) then sources[n].characters else 0
  }

  method CountSources(sources: seq<Source>) returns (characters: nat)
    ensures characters == CountedTotal(sources)
  {
    characters := 0;
    for i := 0 to |sources|
      invariant characters == CountedTotal(sources[..i])
    {
      assert sources[..i + 1][..i] == sources[..i];
      if Counted(sources[i]) {
        characters := characters + sources[i].characters;
      }
    }
    assert sources[..|sources|] == sources;
  }

  lemma {:induction false} AllCounted(sources: seq<Source>)
    requires forall i :: 0 <= i < |sources| ==> Counted(sources[i])
    ensures CountedTotal(sources) == Total(sources)
    decreases |sources|
  {
    if sources != [] { AllCounted(sources[..|sources| - 1]); }
  }

  /** The texts of the inputs, joined. */
  function InputText(input: Input): string {
    if input.TextInput? then input.text else []
  }

  lemma {:induction false} CutCounted(p: Patterns, s: string)
    ensures forall i :: 0 <= i < |Cut(p, s).sections| ==> Cut(p, s).sections[i].category == Skills
    decreases |s|
  {
    match SectionIn(p, s)
    case None =>
    case Some((from, to)) => CutCounted(p, s[to..]);
  }

  lemma {:induction false} SizesCounted(pieces: seq<Piece>)
    requires forall i :: 0 <= i < |pieces| ==> Counted(SizeOf(pieces[i])[0])
    ensures forall i :: 0 <= i < |Lists.Flat(pieces, SizeOf)| ==> Counted(Lists.Flat(pieces, SizeOf)[i])
    decreases |pieces|
  {
    if pieces != [] {
      SizesCounted(pieces[1..]);
      assert Counted(SizeOf(pieces[0])[0]);
    }
  }

  /** Everything a user wrote counts. */
  lemma UserCounts(p: Patterns, text: string)
    ensures forall i :: 0 <= i < |Sources(p, "user", text)| ==> Counted(Sources(p, "user", text)[i])
  {
    CutCounted(p, text[..ProjectPart(p, "user", text)]);
    CutCounted(p, text);
    SizesCounted(Pieces(p, "user", text));
  }

  /**
   * The baseline of a turn is the size of all its texts; it is complete exactly
   * when there is an input and every input is a text.
   */
  method BaselineObservation(p: Patterns, input: seq<Input>) returns (baseline: Baseline)
    ensures baseline.characters == |Lists.Flat(input, InputText)|
    ensures baseline.complete <==> input != [] && forall i :: 0 <= i < |input| ==> input[i].TextInput?
  {
    var characters, complete := 0, input != [];
    for i := 0 to |input|
      invariant characters == |Lists.Flat(input[..i], InputText)|
      invariant complete <==> input != [] && forall j :: 0 <= j < i ==> input[j].TextInput?
    {
      Lists.FlatNext(input, i, InputText);
      if !input[i].TextInput? {
        complete := false;
        continue;
      }
      var sources := ContextTextSources(p, "user", input[i].text);
      UserCounts(p, input[i].text);
      AllCounted(sources);
      var counted := CountSources(sources);
      SourcesAddUp(p, "user", input[i].text);
      characters := characters + counted;
    }
    assert input[..|input|] == input;
    baseline := Baseline(characters, complete);
  }
}
