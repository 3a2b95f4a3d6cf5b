/** The flags before the entry of a Node command line: scripts/gates/darwin/node_flags.h. */
module NodeFlags {
  import opened Wrappers

  /** A reviewed flag, with the value it must have or none. */
  datatype Rule = Rule(name: string, value: Option<string>)

  /** The reviewed flags, the reviewed test name patterns and the pinned preloader (`-` for none). */
  datatype Policy = Policy(rules: seq<Rule>, patterns: seq<string>, preloader: string)

  const INVALID := "invalid_name"
  const NO_PRELOADER := "-"
  const IMPORT := "--import"
  const STRIP_TYPES := "--experimental-strip-types"

  // ------------------------------------------------------------------
  // One flag
  // ------------------------------------------------------------------

  /** The position of the first `=`, or the length. */
  function Equals(flag: string): (n: nat)
    ensures n <= |flag| && (n < |flag| ==> flag[n] == '=')
  {
    if flag == [] || flag[0] == '=' then 0 else 1 + Equals(flag[1..])
  }

  predicate NameChar(c: char) {
    'a' <= c <= 'z' || '0' <= c <= '9' || c == '-'
  }

  /** A flag name: two dashes, then small letters, digits and dashes, at most 94 characters. */
  predicate IsName(name: string) {
    3 <= |name| <= 94 && name[0] == '-' && name[1] == '-' && forall i :: 2 <= i < |name| ==> NameChar(name[i])
  }

  function NameOf(flag: string): string {
    var name := flag[..Equals(flag)];
    if IsName(name) then name else INVALID
  }

  function ValueOf(flag: string): Option<string> {
    var n := Equals(flag);
    if n < |flag| then Some(flag[n + 1..]) else None
  }

  /** The flag as it is written. */
  function Written(name: string, value: Option<string>): string {
    if value.None? then name else name + "=" + value.value
  }

  lemma {:induction false} EqualsConcat(name: string, rest: string)
    requires '=' !in name
    ensures Equals(name + rest) == |name| + Equals(rest)
  {
    if name == [] {
      assert name + rest == rest;
    } else {
      assert (name + rest)[1..] == name[1..] + rest;
      EqualsConcat(name[1..], rest);
    }
  }

  lemma SplitWritten(name: string, value: Option<string>)
    requires IsName(name)
    ensures NameOf(Written(name, value)) == name && ValueOf(Written(name, value)) == value
  {
    var flag := Written(name, value);
    var rest := flag[|name|..];
    assert '=' !in name;
    assert flag == name + rest;
    EqualsConcat(name, rest);
    assert Equals(rest) == 0;
    assert flag[..|name|] == name;
    if value.Some? {
      assert flag[|name| + 1..] == value.value;
    }
  }

  lemma WrittenOfSplit(flag: string)
    requires NameOf(flag) != INVALID
    ensures IsName(NameOf(flag)) && Written(NameOf(flag), ValueOf(flag)) == flag
  {
    var n := Equals(flag);
    if n < |flag| {
      assert flag == flag[..n] + "=" + flag[n + 1..];
    }
  }

  /** Splitting a flag at its `=` undoes writing it, and loses nothing but names of another shape. */
  lemma FlagSplits(flag: string, name: string, value: Option<string>)
    requires IsName(name)
    ensures (NameOf(flag) == name && ValueOf(flag) == value) <==> flag == Written(name, value)
  {
    SplitWritten(name, value);
    assert INVALID[0] != '-';
    if NameOf(flag) == name {
      WrittenOfSplit(flag);
    }
  }

  // ------------------------------------------------------------------
  // The flags up to the entry
  // ------------------------------------------------------------------

  /** The first rule of a name, or the number of rules. */
  function RuleOf(rules: seq<Rule>, name: string): (i: nat)
    ensures i <= |rules| && (i < |rules| ==> rules[i].name == name)
  {
    if rules == [] || rules[0].name == name then 0 else 1 + RuleOf(rules[1..], name)
  }

  predicate Reviewed(p: Policy, flag: string) {
    var name, value := NameOf(flag), ValueOf(flag);
    if name == "--test-isolation" && value == Some("none") then p.preloader != NO_PRELOADER
    else if name == "--test-name-pattern" && value.Some? then value.value in p.patterns
    else RuleOf(p.rules, name) < |p.rules| && p.rules[RuleOf(p.rules, name)].value == value
  }

  /** Two dashes, then one to 92 small letters, digits and dashes. */
  ghost predicate Shaped(name: string) {
    3 <= |name| < 95 && "--" <= name
    && forall i :: 2 <= i < |name| ==> 'a' <= name[i] <= 'z' || '0' <= name[i] <= '9' || name[i] == '-'
  }

  /** The first rule of that name gives just that value, or no value. */
  ghost predicate RuledAt(rules: seq<Rule>, name: string, value: Option<string>, k: nat) {
    k < |rules| && rules[k] == Rule(name, value) && forall j :: 0 <= j < k ==> rules[j].name != name
  }

  lemma {:induction false} RuleOfIs(rules: seq<Rule>, name: string, k: nat)
    requires k < |rules| && rules[k].name == name && forall j :: 0 <= j < k ==> rules[j].name != name
    ensures RuleOf(rules, name) == k
  {
    if k > 0 { RuleOfIs(rules[1..], name, k - 1); }
  }

  lemma {:induction false} RuleOfIsFirst(rules: seq<Rule>, name: string)
    ensures forall j :: 0 <= j < RuleOf(rules, name) ==> rules[j].name != name
  {
    if rules != [] && rules[0].name != name { RuleOfIsFirst(rules[1..], name); }
  }

  /**
   * A flag is reviewed when a preloader is pinned, if it turns test isolation off; when its
   * pattern is, if it gives a test name pattern; and else when the first rule of its name
   * has its value. A flag whose name has another shape is only reviewed by a rule of that name.
   */
  lemma ReviewedIff(p: Policy, flag: string, name: string, value: Option<string>)
    requires Shaped(name) && flag == (match value case None => name case Some(text) => name + "=" + text)
    ensures Reviewed(p, flag) <==>
      if name == "--test-isolation" && value == Some("none") then p.preloader != "-"
      else if name == "--test-name-pattern" && value.Some? then value.value in p.patterns
      else exists k :: RuledAt(p.rules, name, value, k)
  {
    assert name[0] == "--"[0] && name[1] == "--"[1];
    FlagSplits(flag, name, value);
    RuleOfIsFirst(p.rules, name);
    if k: nat :| RuledAt(p.rules, name, value, k) { RuleOfIs(p.rules, name, k); }
    var k := RuleOf(p.rules, name);
    if k < |p.rules| && p.rules[k].value == value { assert RuledAt(p.rules, name, value, k); }
  }

  lemma NamesAreShaped(flag: string)
    ensures NameOf(flag) == INVALID || (Shaped(NameOf(flag)) && flag == Written(NameOf(flag), ValueOf(flag)))
  {
    if NameOf(flag) != INVALID {
      WrittenOfSplit(flag);
      assert NameOf(flag)[..2] == "--";
    }
  }

  /** A flag whose name has another shape is not reviewed, as long as no rule is of the name "invalid_name". */
  lemma MisshapenRefused(p: Policy, flag: string)
    requires forall name, value :: Shaped(name) ==> flag != Written(name, value)
    requires forall k :: 0 <= k < |p.rules| ==> p.rules[k].name != "invalid_name"
    ensures !Reviewed(p, flag)
  {
    assert NameOf(flag) == INVALID by { NamesAreShaped(flag); }
    assert "invalid_name"[0] == 'i' && "--test-isolation"[0] == '-' && "--test-name-pattern"[0] == '-';
  }

  method DefaultFlagValid(p: Policy, flag: string) returns (valid: bool)
    ensures valid <==> Reviewed(p, flag)
  {
    var name, value := NameOf(flag), ValueOf(flag);
    if name == "--test-isolation" && value == Some("none") {
      return p.preloader != NO_PRELOADER;
    }
    if name == "--test-name-pattern" && value.Some? {
      for i := 0 to |p.patterns|
        invariant value.value !in p.patterns[..i]
      {
        if value.value == p.patterns[i] {
          return true;
        }
      }
      return false;
    }
    ghost var left := p.rules;
    for i := 0 to |p.rules|
      invariant left == p.rules[i..] && RuleOf(p.rules, name) == i + RuleOf(left, name)
    {
      if p.rules[i].name == name {
        return p.rules[i].value == value;
      }
      left := left[1..];
    }
    valid := false;
  }

  predicate Dashed(arg: string) {
    arg != [] && arg[0] == '-'
  }

  /** What may come before the entry: flags, and the import of a pinned module. */
  datatype Grammar = Grammar(importFlag: string, pinned: Option<string>, dashed: string -> bool, reviewed: string -> bool)

  function GrammarOf(p: Policy): Grammar {
    Grammar(IMPORT, if p.preloader == NO_PRELOADER then None else Some(p.preloader), Dashed,
            (flag: string) => flag == STRIP_TYPES || Reviewed(p, flag))
  }

  /** What the grammar of a policy takes for flags, for reviewed ones and for the module pinned. */
  lemma GrammarIs(p: Policy, text: string)
    ensures var g := GrammarOf(p);
      && g.importFlag == "--import" && g.pinned == (if p.preloader == "-" then None else Some(p.preloader))
      && (g.dashed(text) <==> "-" <= text)
      && (g.reviewed(text) <==> text == "--experimental-strip-types" || Reviewed(p, text))
  {
    assert Dashed(text) <==> "-" <= text;
  }

  /** A reviewed flag, or the import of a module. */
  datatype Unit = Flag(text: string) | Import(path: string)

  function Words(g: Grammar, units: seq<Unit>): seq<string> {
    if units == [] then []
    else (if units[0].Flag? then [units[0].text] else [g.importFlag, units[0].path]) + Words(g, units[1..])
  }

  function Imports(units: seq<Unit>): nat {
    if units == [] then 0 else (if units[0].Import? then 1 else 0) + Imports(units[1..])
  }

  predicate UnitAllowed(g: Grammar, unit: Unit) {
    match unit
    case Flag(text) => g.dashed(text) && text != g.importFlag && g.reviewed(text)
    case Import(path) => g.pinned == Some(path)
  }

  /** Reviewed flags and at most one import, of the pinned module. */
  ghost predicate Prelude(g: Grammar, units: seq<Unit>) {
    Imports(units) <= 1 && forall i :: 0 <= i < |units| ==> UnitAllowed(g, units[i])
  }

  /** The entry is the first argument after a prelude. */
  ghost predicate EntryAfter(g: Grammar, args: seq<string>, units: seq<Unit>, entry: nat) {
    1 <= entry < |args| && !g.dashed(args[entry]) && Prelude(g, units) && args[1..entry] == Words(g, units)
  }

  /** The position of the entry in the arguments from `index` on. */
  function EntryFrom(g: Grammar, args: seq<string>, index: nat, imported: bool): Option<nat>
    decreases |args| - index, imported
  {
    if index >= |args| then None
    else if !g.dashed(args[index]) then Some(index)
    else if args[index] == g.importFlag then
      if imported || index + 1 >= |args| || g.pinned != Some(args[index + 1]) then None
      else EntryFrom(g, args, index + 2, true)
    else if !g.reviewed(args[index]) then None
    else EntryFrom(g, args, index + 1, imported)
  }

  /** The name of the last flag that the loop looks at. */
  function NameFrom(g: Grammar, args: seq<string>, index: nat, imported: bool, name: string): string
    decreases |args| - index, imported
  {
    if index >= |args| || !g.dashed(args[index]) then name
    else if args[index] == g.importFlag then
      if imported || index + 1 >= |args| || g.pinned != Some(args[index + 1]) then NameOf(args[index])
      else NameFrom(g, args, index + 2, true, NameOf(args[index]))
    else if !g.reviewed(args[index]) then NameOf(args[index])
    else NameFrom(g, args, index + 1, imported, NameOf(args[index]))
  }

  lemma SliceOne<T>(s: seq<T>, i: nat, j: nat)
    requires i < j <= |s|
    ensures s[i..j] == [s[i]] + s[i + 1..j]
  {
  }

  lemma SliceTwo<T>(s: seq<T>, i: nat, j: nat)
    requires i + 2 <= j <= |s|
    ensures s[i..j] == [s[i], s[i + 1]] + s[i + 2..j]
  {
  }

  lemma WordsCons(g: Grammar, unit: Unit, units: seq<Unit>)
    ensures Words(g, [unit] + units) == (if unit.Flag? then [unit.text] else [g.importFlag, unit.path]) + Words(g, units)
    ensures Imports([unit] + units) == (if unit.Import? then 1 else 0) + Imports(units)
    ensures Prelude(g, [unit] + units) <==>
      UnitAllowed(g, unit) && Imports([unit] + units) <= 1 && forall i :: 0 <= i < |units| ==> UnitAllowed(g, units[i])
  {
    var all := [unit] + units;
    assert all[1..] == units;
    AllowedCons(g, unit, units, all);
  }

  lemma AllowedCons(g: Grammar, unit: Unit, units: seq<Unit>, all: seq<Unit>)
    requires all == [unit] + units
    ensures (forall i :: 0 <= i < |all| ==> UnitAllowed(g, all[i])) <==>
      UnitAllowed(g, unit) && forall i :: 0 <= i < |units| ==> UnitAllowed(g, units[i])
  {
    assert all[0] == unit;
    assert forall i :: 0 <= i < |units| ==> units[i] == all[i + 1];
  }

  /** The prelude that the loop goes through. */
  lemma {:induction false} EntryHasPrelude(g: Grammar, args: seq<string>, index: nat, imported: bool) returns (units: seq<Unit>)
    requires EntryFrom(g, args, index, imported).Some?
    ensures var entry := EntryFrom(g, args, index, imported).value;
      && index <= entry < |args| && !g.dashed(args[entry]) && args[index..entry] == Words(g, units)
      && Prelude(g, units) && (imported ==> Imports(units) == 0)
    decreases |args| - index
  {
    units := [];
    var entry := EntryFrom(g, args, index, imported).value;
    if g.dashed(args[index]) {
      if args[index] == g.importFlag {
        var rest := EntryHasPrelude(g, args, index + 2, true);
        units := [Import(args[index + 1])] + rest;
        WordsCons(g, Import(args[index + 1]), rest);
        SliceTwo(args, index, entry);
      } else {
        var rest := EntryHasPrelude(g, args, index + 1, imported);
        units := [Flag(args[index])] + rest;
        WordsCons(g, Flag(args[index]), rest);
        SliceOne(args, index, entry);
      }
    }
  }

  /** A prelude is gone through. */
  lemma {:induction false} PreludeHasEntry(g: Grammar, args: seq<string>, index: nat, imported: bool, units: seq<Unit>, entry: nat)
    requires index <= entry < |args| && !g.dashed(args[entry]) && args[index..entry] == Words(g, units)
    requires Prelude(g, units) && (imported ==> Imports(units) == 0) && g.dashed(g.importFlag)
    ensures EntryFrom(g, args, index, imported) == Some(entry)
    decreases |units|
  {
    if units == [] {
      assert index == entry;
    } else {
      var first, rest := units[0], units[1..];
      assert units == [first] + rest;
      WordsCons(g, first, rest);
      var words := args[index..entry];
      assert words[0] == args[index] && UnitAllowed(g, first);
      if first.Import? {
        assert words[1] == args[index + 1];
        assert args[index + 2..entry] == words[2..] == Words(g, rest);
        PreludeHasEntry(g, args, index + 2, true, rest, entry);
      } else {
        assert args[index + 1..entry] == words[1..] == Words(g, rest);
        PreludeHasEntry(g, args, index + 1, imported, rest, entry);
      }
    }
  }

  /** The entry is found exactly when only a prelude comes before it. */
  lemma EntryIff(p: Policy, args: seq<string>, entry: nat)
    ensures EntryFrom(GrammarOf(p), args, 1, false) == Some(entry) <==> exists units :: EntryAfter(GrammarOf(p), args, units, entry)
  {
    var g := GrammarOf(p);
    assert g.dashed(g.importFlag);
    EntryIffFor(g, args, entry);
  }

  lemma EntryIffFor(g: Grammar, args: seq<string>, entry: nat)
    requires g.dashed(g.importFlag)
    ensures EntryFrom(g, args, 1, false) == Some(entry) <==> exists units :: EntryAfter(g, args, units, entry)
  {
    if EntryFrom(g, args, 1, false) == Some(entry) {
      var units := EntryHasPrelude(g, args, 1, false);
      assert EntryAfter(g, args, units, entry);
    }
    if units :| EntryAfter(g, args, units, entry) {
      PreludeHasEntry(g, args, 1, false, units, entry);
    }
  }

  /** A flag that may not stand where it does: not reviewed, or an import that is not the one allowed. */
  predicate Refused(g: Grammar, args: seq<string>, imported: bool, stop: nat) {
    && stop < |args| && g.dashed(args[stop])
    && if args[stop] == g.importFlag then imported || stop + 1 >= |args| || g.pinned != Some(args[stop + 1])
       else !g.reviewed(args[stop])
  }

  /** Why no entry is found: the arguments are all gone through, or a flag is refused, and its name is reported. */
  lemma {:induction false} NoEntryNames(g: Grammar, args: seq<string>, index: nat, imported: bool, name: string)
      returns (units: seq<Unit>, stop: nat)
    requires index <= |args| && EntryFrom(g, args, index, imported).None?
    ensures index <= stop <= |args| && args[index..stop] == Words(g, units)
    ensures Prelude(g, units) && (imported ==> Imports(units) == 0)
    ensures stop == |args| || (
      && Refused(g, args, imported || Imports(units) > 0, stop)
      && NameFrom(g, args, index, imported, name) == NameOf(args[stop]))
    decreases |args| - index
  {
    units, stop := [], index;
    if index < |args| && !Refused(g, args, imported, index) {
      var flag := args[index];
      var rest;
      if flag == g.importFlag {
        rest, stop := NoEntryNames(g, args, index + 2, true, NameOf(flag));
        units := [Import(args[index + 1])] + rest;
        WordsCons(g, Import(args[index + 1]), rest);
        SliceTwo(args, index, stop);
      } else {
        rest, stop := NoEntryNames(g, args, index + 1, imported, NameOf(flag));
        units := [Flag(flag)] + rest;
        WordsCons(g, Flag(flag), rest);
        SliceOne(args, index, stop);
      }
    }
  }

  /**
   * Without an entry, either all arguments were reviewed flags and at most one
   * import, or the first flag that is refused after such a prelude gives its name.
   */
  lemma RefusedIsNamed(g: Grammar, args: seq<string>)
    requires args != [] && EntryFrom(g, args, 1, false).None?
    ensures exists units, stop ::
      && 1 <= stop <= |args| && args[1..stop] == Words(g, units) && Prelude(g, units)
      && (stop == |args| ||
            (Refused(g, args, Imports(units) > 0, stop) && NameFrom(g, args, 1, false, "") == NameOf(args[stop])))
  {
    var units, stop := NoEntryNames(g, args, 1, false, "");
    assert args[1..stop] == Words(g, units) && Prelude(g, units);
  }
}
