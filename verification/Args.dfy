/** Argv composition: v2/adapters/src/args.ts. */
module Args {
  import opened Wrappers
  import opened Lists

  // ------------------------------------------------------------------
  // Data model
  // ------------------------------------------------------------------

  /** The conservative allow-list of one harness CLI. */
  datatype ArgGrammar = ArgGrammar(
    valueFlags: set<string>,
    repeatableValueFlags: set<string>,
    booleanFlags: set<string>,
    keyedFlags: set<string>,
    aliases: map<string, string>)

  datatype UnitKind = ValueUnit | BooleanUnit | KeyedUnit | VerbatimUnit

  /** One parsed unit: a known flag (with its value) or a verbatim token. */
  datatype ArgUnit = ArgUnit(
    tokens: seq<string>,
    identity: Option<string>,
    kind: UnitKind,
    flag: Option<string>,
    value: Option<string>)

  type Layer = Option<seq<string>>

  // ------------------------------------------------------------------
  // Parsing one unit
  // ------------------------------------------------------------------

  /** Index of the first `c`, or the length when there is none. */
  function FirstIndex(s: string, c: char): (i: nat)
    ensures i <= |s|
    ensures c !in s[..i]
    ensures i < |s| ==> s[i] == c
  {
    if s == [] || s[0] == c then 0
    else
      var i := 1 + FirstIndex(s[1..], c);
      assert s[..i] == [s[0]] + s[1..][..i - 1];
      i
  }

  /** `-flag=value` split at its first `=`. */
  function SplitEq(token: string): Option<(string, string)> {
    if token == [] || token[0] != '-' then None
    else
      var eq := FirstIndex(token, '=');
      if eq == |token| then None else Some((token[..eq], token[eq + 1..]))
  }

  function Canon(g: ArgGrammar, flag: string): string {
    if flag in g.aliases then g.aliases[flag] else flag
  }

  function KeyOf(value: string): string {
    value[..FirstIndex(value, '=')]
  }

  function Verbatim(token: string): ArgUnit {
    ArgUnit([token], None, VerbatimUnit, None, None)
  }

  function ValuedUnit(g: ArgGrammar, tokens: seq<string>, flag: string, value: string): ArgUnit {
    ArgUnit(tokens, if flag in g.repeatableValueFlags then None else Some(flag), ValueUnit, Some(flag), Some(value))
  }

  function KeyedUnitOf(tokens: seq<string>, flag: string, value: string): ArgUnit {
    ArgUnit(tokens, Some(flag + ":" + KeyOf(value)), KeyedUnit, Some(flag), Some(value))
  }

  /** The flag still wants its value from the following token. */
  predicate WantsValue(g: ArgGrammar, token: string) {
    SplitEq(token).None? && (Canon(g, token) in g.valueFlags || Canon(g, token) in g.keyedFlags)
  }

  /** The unit that the front of `argv` parses to. */
  function Take(g: ArgGrammar, argv: seq<string>): (u: ArgUnit)
    requires argv != []
    ensures u.tokens != [] && u.tokens <= argv
  {
    var tok := argv[0];
    match SplitEq(tok)
    case Some((spelled, value)) =>
      var flag := Canon(g, spelled);
      if flag in g.valueFlags then ValuedUnit(g, [tok], flag, value)
      else if flag in g.keyedFlags then KeyedUnitOf([tok], flag, value)
      else Verbatim(tok)
    case None =>
      var flag := Canon(g, tok);
      if flag in g.valueFlags then
        if |argv| == 1 then Verbatim(tok) else ValuedUnit(g, argv[..2], flag, argv[1])
      else if flag in g.keyedFlags then
        if |argv| == 1 then Verbatim(tok) else KeyedUnitOf(argv[..2], flag, argv[1])
      else if flag in g.booleanFlags then ArgUnit([tok], Some(flag), BooleanUnit, Some(flag), None)
      else Verbatim(tok)
  }

  function Parse(g: ArgGrammar, argv: seq<string>): seq<ArgUnit>
    decreases |argv|
  {
    if argv == [] then []
    else var u := Take(g, argv); [u] + Parse(g, argv[|u.tokens|..])
  }

  function TokensOf(u: ArgUnit): seq<string> {
    u.tokens
  }

  /** The argv that a list of units stands for. */
  function Print(us: seq<ArgUnit>): seq<string> {
    Flat(us, TokensOf)
  }

  // ------------------------------------------------------------------
  // Reading printed units back
  // ------------------------------------------------------------------

  /** A unit that some argv parses to. */
  ghost predicate WellFormed(g: ArgGrammar, u: ArgUnit) {
    u.tokens != [] && u == Take(g, u.tokens)
  }

  /** A flag kept verbatim because its value is missing. */
  predicate Dangling(g: ArgGrammar, u: ArgUnit) {
    |u.tokens| == 1 && WantsValue(g, u.tokens[0])
  }

  ghost function WellFormedIn(g: ArgGrammar): ArgUnit -> bool {
    u => WellFormed(g, u)
  }

  function DanglingIn(g: ArgGrammar): ArgUnit -> bool {
    u => Dangling(g, u)
  }

  ghost predicate AllWellFormed(g: ArgGrammar, us: seq<ArgUnit>) {
    All(us, WellFormedIn(g))
  }

  /** Only the last unit may miss its value. */
  predicate DanglingOnlyLast(g: ArgGrammar, us: seq<ArgUnit>) {
    OnlyLast(us, DanglingIn(g))
  }

  predicate LastDangles(g: ArgGrammar, us: seq<ArgUnit>) {
    Ends(us, DanglingIn(g))
  }

  lemma TakeIsStable(g: ArgGrammar, u: ArgUnit, rest: seq<string>)
    requires WellFormed(g, u) && !Dangling(g, u)
    ensures Take(g, u.tokens + rest) == u
  {
    assert (u.tokens + rest)[..|u.tokens|] == u.tokens;
    if |u.tokens| == 1 {
      assert (u.tokens + rest)[0] == u.tokens[0];
    }
  }

  lemma DanglingAbsorbs(g: ArgGrammar, u: ArgUnit, rest: seq<string>)
    requires WellFormed(g, u) && Dangling(g, u) && rest != []
    ensures Take(g, u.tokens + rest).tokens == [u.tokens[0], rest[0]]
  {
    assert (u.tokens + rest)[..2] == [u.tokens[0], rest[0]];
  }

  lemma TakeIsWellFormed(g: ArgGrammar, argv: seq<string>)
    requires argv != []
    ensures WellFormed(g, Take(g, argv))
    ensures Dangling(g, Take(g, argv)) ==> |argv| == 1
  {
    var u := Take(g, argv);
    assert u.tokens[0] == argv[0];
    if |u.tokens| == 2 {
      assert u.tokens == u.tokens[..2];
    }
  }

  /** Parsing loses no token and leaves a flag without value only at the very end. */
  lemma {:induction false} ParseLossless(g: ArgGrammar, argv: seq<string>)
    ensures Print(Parse(g, argv)) == argv
    ensures AllWellFormed(g, Parse(g, argv))
    ensures DanglingOnlyLast(g, Parse(g, argv))
    decreases |argv|
  {
    if argv != [] {
      var u := Take(g, argv);
      var rest := argv[|u.tokens|..];
      TakeIsWellFormed(g, argv);
      ParseLossless(g, rest);
      assert Parse(g, argv)[1..] == Parse(g, rest);
      assert u.tokens + rest == argv;
    }
  }

  /** Printed units read back as themselves exactly when no flag but the last misses its value. */
  lemma {:induction false} ReadBack(g: ArgGrammar, us: seq<ArgUnit>)
    requires AllWellFormed(g, us)
    ensures Parse(g, Print(us)) == us <==> DanglingOnlyLast(g, us)
  {
    if us != [] {
      var u, rest := us[0], us[1..];
      ReadBack(g, rest);
      if rest == [] {
        assert Print(us) == u.tokens;
        assert Parse(g, Print(us)) == us;
      } else {
        assert WellFormed(g, rest[0]);
        assert Print(rest) != [];
        if Dangling(g, u) {
          DanglingAbsorbs(g, u, Print(rest));
          assert Parse(g, Print(us))[0] != u;
        } else {
          TakeIsStable(g, u, Print(rest));
          assert (u.tokens + Print(rest))[|u.tokens|..] == Print(rest);
          assert Parse(g, Print(us)) == [u] + Parse(g, Print(rest));
          assert us == [u] + rest;
          assert Parse(g, Print(us))[1..] == Parse(g, Print(rest));
        }
      }
    }
  }

  method NextUnit(g: ArgGrammar, argv: seq<string>, i: nat) returns (u: ArgUnit)
    requires i < |argv|
    ensures u == Take(g, argv[i..if i + 2 <= |argv| then i + 2 else i + 1])
  {
    var tok := argv[i];
    u := Verbatim(tok);
    var split := SplitEq(tok);
    if split.Some? {
      var flag := Canon(g, split.value.0);
      if flag in g.valueFlags {
        u := ValuedUnit(g, [tok], flag, split.value.1);
      } else if flag in g.keyedFlags {
        u := KeyedUnitOf([tok], flag, split.value.1);
      }
      return;
    }
    var flag := Canon(g, tok);
    if flag in g.valueFlags || flag in g.keyedFlags {
      if i + 1 == |argv| {
        return;
      }
      var value := argv[i + 1];
      assert argv[i..i + 2][..2] == [tok, value];
      u := if flag in g.valueFlags then ValuedUnit(g, [tok, value], flag, value)
           else KeyedUnitOf([tok, value], flag, value);
    } else if flag in g.booleanFlags {
      u := ArgUnit([tok], Some(flag), BooleanUnit, Some(flag), None);
    }
  }

  method ParseArgUnits(g: ArgGrammar, argv: seq<string>) returns (units: seq<ArgUnit>)
    ensures units == Parse(g, argv)
  {
    units := [];
    var i := 0;
    while i < |argv|
      invariant 0 <= i <= |argv| && Print(units) == argv[..i]
      invariant AllWellFormed(g, units) && DanglingOnlyLast(g, units)
      invariant i < |argv| ==> !LastDangles(g, units)
    {
      var u := NextUnit(g, argv, i);
      ghost var front := argv[i..if i + 2 <= |argv| then i + 2 else i + 1];
      TakeIsWellFormed(g, front);
      AppendShape(g, units, u);
      assert argv[..i + |u.tokens|] == argv[..i] + u.tokens;
      units := units + [u];
      i := i + |u.tokens|;
    }
    assert argv[..i] == argv;
    ReadBack(g, units);
  }

  lemma AppendShape(g: ArgGrammar, us: seq<ArgUnit>, u: ArgUnit)
    requires AllWellFormed(g, us) && WellFormed(g, u) && DanglingOnlyLast(g, us) && !LastDangles(g, us)
    ensures AllWellFormed(g, us + [u]) && DanglingOnlyLast(g, us + [u])
    ensures LastDangles(g, us + [u]) <==> Dangling(g, u)
    ensures Print(us + [u]) == Print(us) + u.tokens
  {
    AllConcat(us, [u], WellFormedIn(g));
    AllOne(u, WellFormedIn(g));
    OnlyLastConcat(us, [u], DanglingIn(g));
    FlatSnoc(us, u, TokensOf);
  }

  // ------------------------------------------------------------------
  // De-duplication
  // ------------------------------------------------------------------

  /** Booleans keep their first occurrence, every other identified unit its last. */
  predicate Keeps(us: seq<ArgUnit>, i: nat)
    requires i < |us|
  {
    us[i].identity.None? ||
    if us[i].kind.BooleanUnit?
    then forall j :: 0 <= j < i ==> us[j].identity != us[i].identity
    else forall j :: i < j < |us| ==> us[j].identity != us[i].identity
  }

  function KeptFrom(us: seq<ArgUnit>, i: nat): seq<ArgUnit>
    requires i <= |us|
    decreases |us| - i
  {
    if i == |us| then []
    else if Keeps(us, i) then [us[i]] + KeptFrom(us, i + 1)
    else KeptFrom(us, i + 1)
  }

  function Dedupe(us: seq<ArgUnit>): seq<ArgUnit> {
    KeptFrom(us, 0)
  }

  ghost predicate IsFirst(us: seq<ArgUnit>, id: string, k: nat) {
    k < |us| && us[k].identity == Some(id) && forall j :: 0 <= j < k ==> us[j].identity != Some(id)
  }

  ghost predicate IsLast(us: seq<ArgUnit>, n: nat, id: string, k: nat) {
    k < n <= |us| && us[k].identity == Some(id) && forall j :: k < j < n ==> us[j].identity != Some(id)
  }

  /** The maps hold the first and the last position of every identity among the first `n` units. */
  ghost predicate Indexed(us: seq<ArgUnit>, n: nat, first: map<string, nat>, last: map<string, nat>) {
    && n <= |us| && first.Keys == last.Keys
    && (forall j :: 0 <= j < n && us[j].identity.Some? ==> us[j].identity.value in first.Keys)
    && (forall id :: id in first.Keys ==> IsFirst(us, id, first[id]))
    && (forall id :: id in last.Keys ==> IsLast(us, n, id, last[id]))
  }

  lemma IndexNext(us: seq<ArgUnit>, n: nat, id: string, first: map<string, nat>, last: map<string, nat>)
    requires Indexed(us, n, first, last) && n < |us| && us[n].identity == Some(id)
    ensures Indexed(us, n + 1, if id in first then first else first[id := n], last[id := n])
  {
    var f, l := if id in first then first else first[id := n], last[id := n];
    assert f.Keys == first.Keys + {id} && l.Keys == last.Keys + {id};
    forall x | x in l.Keys ensures IsLast(us, n + 1, x, l[x]) {
      if x != id { assert IsLast(us, n, x, last[x]); }
    }
    forall x | x in f.Keys ensures IsFirst(us, x, f[x]) {
      if x in first.Keys { assert IsFirst(us, x, first[x]); }
    }
  }

  lemma KeepsByIndex(us: seq<ArgUnit>, i: nat, first: map<string, nat>, last: map<string, nat>)
    requires Indexed(us, |us|, first, last) && i < |us| && us[i].identity.Some?
    ensures us[i].identity.value in first
    ensures Keeps(us, i) == if us[i].kind.BooleanUnit? then first[us[i].identity.value] == i else last[us[i].identity.value] == i
  {
  }

  method IndexUnits(units: seq<ArgUnit>) returns (firstIndex: map<string, nat>, lastIndex: map<string, nat>)
    ensures Indexed(units, |units|, firstIndex, lastIndex)
  {
    firstIndex, lastIndex := map[], map[];
    for i := 0 to |units|
      invariant Indexed(units, i, firstIndex, lastIndex)
    {
      var u := units[i];
      if u.identity.Some? {
        IndexNext(units, i, u.identity.value, firstIndex, lastIndex);
        if u.identity.value !in firstIndex {
          firstIndex := firstIndex[u.identity.value := i];
        }
        lastIndex := lastIndex[u.identity.value := i];
      }
    }
  }

  method DedupeUnits(units: seq<ArgUnit>) returns (kept: seq<ArgUnit>)
    ensures kept == Dedupe(units)
  {
    var firstIndex, lastIndex := IndexUnits(units);
    kept := [];
    for i := 0 to |units|
      invariant kept + KeptFrom(units, i) == Dedupe(units)
    {
      var u := units[i];
      if u.identity.Some? { KeepsByIndex(units, i, firstIndex, lastIndex); }
      if u.identity.None?
         || (if u.kind.BooleanUnit? then firstIndex[u.identity.value] == i else lastIndex[u.identity.value] == i) {
        assert kept + [u] + KeptFrom(units, i + 1) == kept + KeptFrom(units, i);
        kept := kept + [u];
      }
    }
  }

  // The same filter, relative to the identities that surround a list.  This
  // form distributes over concatenation, which the index form does not.

  function Ids(us: seq<ArgUnit>): set<string> {
    set i | 0 <= i < |us| && us[i].identity.Some? :: us[i].identity.value
  }

  predicate KeepsBetween(u: ArgUnit, before: set<string>, after: set<string>) {
    u.identity.None? || u.identity.value !in (if u.kind.BooleanUnit? then before else after)
  }

  function IdOf(u: ArgUnit): set<string> {
    if u.identity.Some? then {u.identity.value} else {}
  }

  function Between(us: seq<ArgUnit>, before: set<string>, after: set<string>): seq<ArgUnit> {
    if us == [] then []
    else
      var rest := Between(us[1..], before + IdOf(us[0]), after);
      if KeepsBetween(us[0], before, Ids(us[1..]) + after) then [us[0]] + rest else rest
  }

  lemma IdsConcat(x: seq<ArgUnit>, y: seq<ArgUnit>)
    ensures Ids(x + y) == Ids(x) + Ids(y)
  {
    forall id | id in Ids(x) + Ids(y) ensures id in Ids(x + y) {
      if id in Ids(x) {
        var i :| 0 <= i < |x| && x[i].identity == Some(id);
        assert (x + y)[i].identity == Some(id);
      } else {
        var i :| 0 <= i < |y| && y[i].identity == Some(id);
        assert (x + y)[|x| + i].identity == Some(id);
      }
    }
  }

  lemma IdsCons(us: seq<ArgUnit>)
    requires us != []
    ensures Ids(us) == IdOf(us[0]) + Ids(us[1..])
  {
    assert us == [us[0]] + us[1..];
    IdsConcat([us[0]], us[1..]);
    assert Ids([us[0]]) == IdOf(us[0]) by {
      assert [us[0]][0] == us[0];
    }
  }

  lemma {:induction false} KeptIsBetween(us: seq<ArgUnit>, i: nat)
    requires i <= |us|
    ensures KeptFrom(us, i) == Between(us[i..], Ids(us[..i]), {})
    decreases |us| - i
  {
    if i < |us| {
      KeptIsBetween(us, i + 1);
      assert us[i..][1..] == us[i + 1..];
      assert us[..i + 1] == us[..i] + [us[i]];
      IdsConcat(us[..i], [us[i]]);
      assert Ids([us[i]]) == IdOf(us[i]) by { assert [us[i]][0] == us[i]; }
      assert Keeps(us, i) == KeepsBetween(us[i], Ids(us[..i]), Ids(us[i + 1..]) + {}) by {
        if us[i].identity.Some? {
          var id := us[i].identity.value;
          assert id in Ids(us[..i]) <==> exists j :: 0 <= j < i && us[j].identity == Some(id) by {
            if j :| 0 <= j < i && us[j].identity == Some(id) { assert us[..i][j] == us[j]; }
          }
          assert id in Ids(us[i + 1..]) <==> exists j :: i < j < |us| && us[j].identity == Some(id) by {
            if j :| i < j < |us| && us[j].identity == Some(id) { assert us[i + 1..][j - i - 1] == us[j]; }
          }
        }
      }
    }
  }

  lemma BetweenFirst(us: seq<ArgUnit>, before: set<string>, after: set<string>, u: ArgUnit, rest: seq<ArgUnit>)
    requires us != [] && u == us[0] && rest == us[1..]
    ensures Between(us, before, after) ==
      (if KeepsBetween(u, before, Ids(rest) + after) then [u] else []) + Between(rest, before + IdOf(u), after)
  {
  }

  lemma {:induction false} BetweenConcat(x: seq<ArgUnit>, y: seq<ArgUnit>, before: set<string>, after: set<string>)
    ensures Between(x + y, before, after) == Between(x, before, Ids(y) + after) + Between(y, before + Ids(x), after)
  {
    if x == [] {
      assert x + y == y;
      assert before + Ids(x) == before;
    } else {
      var u, rest := x[0], x[1..];
      assert (x + y)[1..] == rest + y;
      BetweenFirst(x + y, before, after, u, rest + y);
      BetweenFirst(x, before, Ids(y) + after, u, rest);
      BetweenConcat(rest, y, before + IdOf(u), after);
      IdsConcat(rest, y);
      IdsCons(x);
      assert Ids(rest + y) + after == Ids(rest) + (Ids(y) + after);
      assert before + IdOf(u) + Ids(rest) == before + Ids(x);
      Associates(if KeepsBetween(u, before, Ids(rest + y) + after) then [u] else [],
        Between(rest, before + IdOf(u), Ids(y) + after), Between(y, before + Ids(x), after));
    }
  }

  lemma {:induction false} BetweenIds(us: seq<ArgUnit>, before: set<string>, after: set<string>)
    ensures Ids(Between(us, before, after)) <= Ids(us)
  {
    if us != [] {
      BetweenIds(us[1..], before + IdOf(us[0]), after);
      IdsCons(us);
      var rest := Between(us[1..], before + IdOf(us[0]), after);
      var head := if KeepsBetween(us[0], before, Ids(us[1..]) + after) then [us[0]] else [];
      IdsConcat(head, rest);
      assert Ids(head) <= IdOf(us[0]);
    }
  }

  /** Filtering twice is filtering once against both surroundings. */
  lemma {:induction false} BetweenTwice(us: seq<ArgUnit>, b1: set<string>, a1: set<string>, b2: set<string>, a2: set<string>)
    ensures Between(Between(us, b1, a1), b2, a2) == Between(us, b1 + b2, a1 + a2)
  {
    if us != [] {
      var u, rest := us[0], us[1..];
      var inner := Between(rest, b1 + IdOf(u), a1);
      BetweenIds(rest, b1 + IdOf(u), a1);
      assert (b1 + IdOf(u)) + b2 == (b1 + b2) + IdOf(u);
      assert Ids(rest) + (a1 + a2) == (Ids(rest) + a1) + a2;
      if KeepsBetween(u, b1, Ids(rest) + a1) {
        BetweenTwice(rest, b1 + IdOf(u), a1, b2 + IdOf(u), a2);
        assert (b1 + IdOf(u)) + (b2 + IdOf(u)) == (b1 + b2) + IdOf(u);
        assert ([u] + inner)[1..] == inner;
        assert Between(us, b1, a1) == [u] + inner;
      } else {
        BetweenTwice(rest, b1 + IdOf(u), a1, b2, a2);
        assert Between(us, b1, a1) == inner;
      }
    }
  }

  /** No identity is shared by a boolean unit and a unit of another kind. */
  ghost predicate KindsAgree(us: seq<ArgUnit>) {
    forall i, j :: 0 <= i < |us| && 0 <= j < |us| && us[i].identity.Some? && us[i].identity == us[j].identity ==>
      us[i].kind.BooleanUnit? == us[j].kind.BooleanUnit?
  }

  lemma {:induction false} KeptHasSurvivor(us: seq<ArgUnit>, i: nat, k: nat)
    requires i <= k < |us| && Keeps(us, k)
    ensures us[k] in KeptFrom(us, i)
    decreases k - i
  {
    if i < k { KeptHasSurvivor(us, i + 1, k); }
  }

  lemma {:induction false} FirstOf(us: seq<ArgUnit>, id: string) returns (k: nat)
    requires id in Ids(us)
    ensures k < |us| && us[k].identity == Some(id) && forall j :: 0 <= j < k ==> us[j].identity != Some(id)
  {
    var i :| 0 <= i < |us| && us[i].identity == Some(id);
    k := 0;
    while us[k].identity != Some(id)
      invariant 0 <= k <= i
      invariant forall j :: 0 <= j < k ==> us[j].identity != Some(id)
      decreases i - k
    {
      k := k + 1;
    }
  }

  lemma {:induction false} LastOf(us: seq<ArgUnit>, id: string) returns (k: nat)
    requires id in Ids(us)
    ensures k < |us| && us[k].identity == Some(id) && forall j :: k < j < |us| ==> us[j].identity != Some(id)
  {
    var i :| 0 <= i < |us| && us[i].identity == Some(id);
    k := |us| - 1;
    while us[k].identity != Some(id)
      invariant i <= k < |us|
      invariant forall j :: k < j < |us| ==> us[j].identity != Some(id)
      decreases k
    {
      k := k - 1;
    }
  }

  lemma DedupeBetween(us: seq<ArgUnit>)
    ensures Dedupe(us) == Between(us, {}, {})
  {
    KeptIsBetween(us, 0);
    assert us[0..] == us && us[..0] == [];
    assert Ids(us[..0]) == {};
  }

  /** De-duplication never loses an identity. */
  lemma DedupeKeepsIds(us: seq<ArgUnit>)
    requires KindsAgree(us)
    ensures Ids(Dedupe(us)) == Ids(us)
  {
    DedupeBetween(us);
    BetweenIds(us, {}, {});
    forall id | id in Ids(us) ensures id in Ids(Dedupe(us)) {
      var first := FirstOf(us, id);
      var last := LastOf(us, id);
      var k := if us[first].kind.BooleanUnit? then first else last;
      assert Keeps(us, k);
      KeptHasSurvivor(us, 0, k);
      var m :| 0 <= m < |Dedupe(us)| && Dedupe(us)[m] == us[k];
      assert Dedupe(us)[m].identity == Some(id);
    }
  }

  /** De-duplicating a part first changes nothing about the whole. */
  lemma DedupeInside(x: seq<ArgUnit>, y: seq<ArgUnit>, z: seq<ArgUnit>)
    requires KindsAgree(y)
    ensures Dedupe(x + Dedupe(y) + z) == Dedupe(x + y + z)
  {
    var d := Dedupe(y);
    DedupeKeepsIds(y);
    DedupeBetween(y);
    DedupeSplit(x, y, z);
    DedupeSplit(x, d, z);
    BetweenTwice(y, {}, {}, Ids(x), Ids(z));
    assert {} + Ids(x) == Ids(x) && {} + Ids(z) == Ids(z);
  }

  lemma DedupeSplit(x: seq<ArgUnit>, y: seq<ArgUnit>, z: seq<ArgUnit>)
    ensures Dedupe(x + y + z) ==
      Between(x, {}, Ids(y) + Ids(z)) + Between(y, Ids(x), Ids(z)) + Between(z, Ids(x) + Ids(y), {})
  {
    DedupeBetween(x + y + z);
    BetweenConcat(x + y, z, {}, {});
    BetweenConcat(x, y, {}, Ids(z) + {});
    IdsConcat(x, y);
    assert Ids(z) + {} == Ids(z);
    assert {} + Ids(x) == Ids(x) && {} + Ids(x + y) == Ids(x) + Ids(y);
  }

  ghost predicate IsSurvivor(us: seq<ArgUnit>, id: string, k: nat) {
    && k < |us| && us[k].identity == Some(id)
    && (us[k].kind.BooleanUnit? ==> forall j :: 0 <= j < k ==> us[j].identity != Some(id))
    && (!us[k].kind.BooleanUnit? ==> forall j :: k < j < |us| ==> us[j].identity != Some(id))
    && (forall i :: 0 <= i < |us| && us[i].identity == Some(id) ==> (Keeps(us, i) <==> i == k))
  }

  /** Exactly one unit of each identity survives: the first boolean, the last of any other kind. */
  lemma OneSurvivor(us: seq<ArgUnit>, id: string)
    requires KindsAgree(us) && id in Ids(us)
    ensures exists k :: IsSurvivor(us, id, k)
  {
    var first := FirstOf(us, id);
    var last := LastOf(us, id);
    var k := if us[first].kind.BooleanUnit? then first else last;
    forall i | 0 <= i < |us| && us[i].identity == Some(id) ensures Keeps(us, i) <==> i == k {
    }
    assert IsSurvivor(us, id, k);
  }

  // ------------------------------------------------------------------
  // Composing layers
  // ------------------------------------------------------------------

  function LayerUnits(g: ArgGrammar, layers: seq<Layer>): seq<ArgUnit> {
    Flat(layers, LayerParser(g))
  }

  function LayerParser(g: ArgGrammar): Layer -> seq<ArgUnit> {
    (layer: Layer) => Parse(g, layer.GetOr([]))
  }

  function Compose(g: ArgGrammar, layers: seq<Layer>): seq<string> {
    Print(Dedupe(LayerUnits(g, layers)))
  }

  method ComposeArgv(g: ArgGrammar, layers: seq<Layer>) returns (argv: seq<string>)
    ensures argv == Compose(g, layers)
  {
    var units := [];
    for i := 0 to |layers|
      invariant units == LayerUnits(g, layers[..i])
    {
      var parsed := ParseArgUnits(g, layers[i].GetOr([]));
      FlatNext(layers, i, LayerParser(g));
      units := units + parsed;
    }
    assert layers[..|layers|] == layers;
    var kept := DedupeUnits(units);
    argv := [];
    for i := 0 to |kept|
      invariant argv == Print(kept[..i])
    {
      FlatNext(kept, i, TokensOf);
      argv := argv + kept[i].tokens;
    }
    assert kept[..|kept|] == kept;
  }

  /** The layer ends in a flag that misses its value: its parse ends in a dangling unit. */
  predicate EndsDangling(g: ArgGrammar, layer: Layer) {
    LastDangles(g, Parse(g, layer.GetOr([])))
  }

  /** Only the last layer of a group may end in a flag without value. */
  predicate GroupSafe(g: ArgGrammar, group: seq<Layer>) {
    forall i :: 0 <= i < |group| - 1 ==> !EndsDangling(g, group[i])
  }

  lemma ShapeConcat(g: ArgGrammar, x: seq<ArgUnit>, y: seq<ArgUnit>)
    ensures AllWellFormed(g, x + y) <==> AllWellFormed(g, x) && AllWellFormed(g, y)
    ensures DanglingOnlyLast(g, x + y) <==>
      DanglingOnlyLast(g, x) && DanglingOnlyLast(g, y) && (y != [] ==> !LastDangles(g, x))
    ensures LastDangles(g, x + y) <==> if y == [] then LastDangles(g, x) else LastDangles(g, y)
  {
    AllConcat(x, y, WellFormedIn(g));
    OnlyLastConcat(x, y, DanglingIn(g));
  }

  lemma {:induction false} LayerUnitsShape(g: ArgGrammar, layers: seq<Layer>)
    ensures AllWellFormed(g, LayerUnits(g, layers))
    ensures GroupSafe(g, layers) ==> DanglingOnlyLast(g, LayerUnits(g, layers))
  {
    if layers != [] {
      var head, tail := Parse(g, layers[0].GetOr([])), layers[1..];
      ParseLossless(g, layers[0].GetOr([]));
      LayerUnitsShape(g, tail);
      ShapeConcat(g, head, LayerUnits(g, tail));
      assert LayerUnits(g, layers) == head + LayerUnits(g, tail);
      if GroupSafe(g, layers) {
        assert forall i :: 0 <= i < |tail| ==> tail[i] == layers[i + 1];
        assert tail != [] ==> !EndsDangling(g, layers[0]);
      }
    }
  }

  lemma {:induction false} KeptInherits(us: seq<ArgUnit>, i: nat, good: ArgUnit -> bool, last: ArgUnit -> bool)
    requires i <= |us| && All(us[i..], good)
    ensures All(KeptFrom(us, i), good)
    ensures OnlyLast(us[i..], last) ==> OnlyLast(KeptFrom(us, i), last)
    decreases |us| - i
  {
    if i < |us| {
      var u, rest := us[i], KeptFrom(us, i + 1);
      assert us[i..][1..] == us[i + 1..];
      assert i + 1 == |us| ==> rest == [];
      KeptInherits(us, i + 1, good, last);
      AllConcat([u], rest, good);
      AllOne(u, good);
      OnlyLastConcat([u], rest, last);
    }
  }

  lemma KeptShape(g: ArgGrammar, us: seq<ArgUnit>)
    requires AllWellFormed(g, us)
    ensures AllWellFormed(g, Dedupe(us))
    ensures DanglingOnlyLast(g, us) ==> DanglingOnlyLast(g, Dedupe(us))
  {
    assert us[0..] == us;
    KeptInherits(us, 0, WellFormedIn(g), DanglingIn(g));
  }

  /** No surviving flag of the group but the last misses its value. */
  predicate SurvivorsSafe(g: ArgGrammar, group: seq<Layer>) {
    DanglingOnlyLast(g, Dedupe(LayerUnits(g, group)))
  }

  /** So it is when no layer but the last ends in a flag without value. */
  lemma SafeGroupSurvives(g: ArgGrammar, group: seq<Layer>)
    requires GroupSafe(g, group)
    ensures SurvivorsSafe(g, group)
  {
    LayerUnitsShape(g, group);
    KeptShape(g, LayerUnits(g, group));
  }

  /** For any group, composing reads back exactly when no surviving flag but the last misses its value. */
  lemma ComposedReadsBackIff(g: ArgGrammar, group: seq<Layer>)
    ensures Parse(g, Compose(g, group)) == Dedupe(LayerUnits(g, group)) <==> SurvivorsSafe(g, group)
  {
    LayerUnitsShape(g, group);
    KeptShape(g, LayerUnits(g, group));
    ReadBack(g, Dedupe(LayerUnits(g, group)));
  }

  lemma DedupeTwice(us: seq<ArgUnit>)
    ensures Dedupe(Dedupe(us)) == Dedupe(us)
  {
    DedupeBetween(us);
    DedupeBetween(Dedupe(us));
    BetweenTwice(us, {}, {}, {}, {});
    var none: set<string> := {};
    assert none + none == none;
  }

  /** Composing an already composed argv again changes nothing. */
  lemma ComposeIdempotent(g: ArgGrammar, group: seq<Layer>)
    requires SurvivorsSafe(g, group)
    ensures Compose(g, [Some(Compose(g, group))]) == Compose(g, group)
  {
    var us := LayerUnits(g, group);
    ComposedReadsBackIff(g, group);
    FlatOne<Layer, ArgUnit>(Some(Compose(g, group)), LayerParser(g));
    DedupeTwice(us);
  }

  /** A boolean spelling never looks like a keyed identity `flag:key`. */
  ghost predicate Separated(g: ArgGrammar) {
    forall b, k :: b in g.booleanFlags && k in g.keyedFlags ==> !(k + ":" <= b)
  }

  lemma TakeKind(g: ArgGrammar, argv: seq<string>)
    requires argv != []
    ensures var u := Take(g, argv);
      && (u.kind.BooleanUnit? ==> u.identity.Some? && u.identity.value in g.booleanFlags && u.identity.value !in g.valueFlags)
      && (u.identity.Some? && !u.kind.BooleanUnit? ==>
        u.identity.value in g.valueFlags || exists k :: k in g.keyedFlags && k + ":" <= u.identity.value)
  {
    var u := Take(g, argv);
    if u.kind.KeyedUnit? {
      assert u.identity.value == u.flag.value + ":" + KeyOf(u.value.value);
      assert u.flag.value + ":" <= u.identity.value;
    }
  }

  lemma SeparatedKindsAgree(g: ArgGrammar, us: seq<ArgUnit>)
    requires Separated(g) && AllWellFormed(g, us)
    ensures KindsAgree(us)
  {
    forall i, j | 0 <= i < |us| && 0 <= j < |us| && us[i].identity.Some? && us[i].identity == us[j].identity
      ensures us[i].kind.BooleanUnit? == us[j].kind.BooleanUnit?
    {
      AllAt(us, WellFormedIn(g), i);
      AllAt(us, WellFormedIn(g), j);
      TakeKind(g, us[i].tokens);
      TakeKind(g, us[j].tokens);
    }
  }

  /** Composing any run of consecutive layers first gives the same argv as composing all layers at once. */
  lemma ComposeRegroups(g: ArgGrammar, pre: seq<Layer>, group: seq<Layer>, post: seq<Layer>)
    requires Separated(g) && SurvivorsSafe(g, group)
    ensures Compose(g, pre + [Some(Compose(g, group))] + post) == Compose(g, pre + group + post)
  {
    var x, y, z := LayerUnits(g, pre), LayerUnits(g, group), LayerUnits(g, post);
    var once := [Some(Compose(g, group))];
    ComposedReadsBackIff(g, group);
    FlatOne<Layer, ArgUnit>(Some(Compose(g, group)), LayerParser(g));
    FlatConcat(pre + once, post, LayerParser(g));
    FlatConcat(pre, once, LayerParser(g));
    FlatConcat(pre + group, post, LayerParser(g));
    FlatConcat(pre, group, LayerParser(g));
    LayerUnitsShape(g, group);
    SeparatedKindsAgree(g, y);
    DedupeInside(x, y, z);
  }

  function CountId(us: seq<ArgUnit>, id: string): nat {
    if us == [] then 0 else (if us[0].identity == Some(id) then 1 else 0) + CountId(us[1..], id)
  }

  lemma {:induction false} CountIdKept(us: seq<ArgUnit>, id: string, k: nat, i: nat)
    requires IsSurvivor(us, id, k) && i <= |us|
    ensures CountId(KeptFrom(us, i), id) == if i <= k then 1 else 0
    decreases |us| - i
  {
    if i < |us| {
      CountIdKept(us, id, k, i + 1);
      assert Keeps(us, i) ==> KeptFrom(us, i)[1..] == KeptFrom(us, i + 1);
      assert !Keeps(us, i) ==> KeptFrom(us, i) == KeptFrom(us, i + 1);
    }
  }

  /**
   * Every flag given in some layer is composed exactly once: a boolean where
   * it first stood, any other flag where (and with the value with which) it
   * last stood.
   */
  lemma LaterLayerWins(g: ArgGrammar, layers: seq<Layer>, id: string)
    requires Separated(g) && id in Ids(LayerUnits(g, layers))
    ensures
      var us := LayerUnits(g, layers);
      && CountId(Dedupe(us), id) == 1
      && (exists k: nat :: IsSurvivor(us, id, k) && us[k] in Dedupe(us))
  {
    var us := LayerUnits(g, layers);
    LayerUnitsShape(g, layers);
    SeparatedKindsAgree(g, us);
    OneSurvivor(us, id);
    var k :| IsSurvivor(us, id, k);
    KeptHasSurvivor(us, 0, k);
    CountIdKept(us, id, k, 0);
  }

  // ------------------------------------------------------------------
  // Where regrouping fails
  // ------------------------------------------------------------------

  const EXAMPLE: ArgGrammar := ArgGrammar({"--model", "--effort"}, {}, {}, {}, map[])

  ghost predicate PlainFlag(g: ArgGrammar, flag: string) {
    '=' !in flag && flag !in g.aliases && flag in g.valueFlags && flag !in g.repeatableValueFlags
  }

  ghost predicate PlainToken(g: ArgGrammar, token: string) {
    && '=' !in token && token !in g.aliases
    && token !in g.valueFlags && token !in g.keyedFlags && token !in g.booleanFlags
  }

  function Valued(flag: string, value: string): ArgUnit {
    ArgUnit([flag, value], Some(flag), ValueUnit, Some(flag), Some(value))
  }

  lemma NoSplit(token: string)
    requires '=' !in token
    ensures SplitEq(token).None?
  {
  }

  lemma ParsePair(g: ArgGrammar, flag: string, value: string, rest: seq<string>)
    requires PlainFlag(g, flag)
    ensures Parse(g, [flag, value] + rest) == [Valued(flag, value)] + Parse(g, rest)
  {
    NoSplit(flag);
    var argv := [flag, value] + rest;
    assert argv[..2] == [flag, value] && argv[2..] == rest;
  }

  lemma ParseSingle(g: ArgGrammar, token: string)
    requires PlainToken(g, token) || PlainFlag(g, token)
    ensures Parse(g, [token]) == [Verbatim(token)]
  {
    NoSplit(token);
    assert [token][1..] == [];
  }

  lemma DedupeThree(u: ArgUnit, v: ArgUnit, w: ArgUnit)
    ensures var us := [u, v, w];
      Dedupe(us) == (if Keeps(us, 0) then [u] else [])
        + ((if Keeps(us, 1) then [v] else []) + (if Keeps(us, 2) then [w] else []))
  {
    var us := [u, v, w];
    assert KeptFrom(us, 3) == [];
    assert KeptFrom(us, 2) == if Keeps(us, 2) then [w] else [];
    assert KeptFrom(us, 1) == (if Keeps(us, 1) then [v] else []) + KeptFrom(us, 2);
    assert KeptFrom(us, 0) == (if Keeps(us, 0) then [u] else []) + KeptFrom(us, 1);
  }

  /**
   * A valued flag `m` left without value at the end of one layer, `e h` in the
   * next: composed at once a later `e l` replaces it, composed first `e` has
   * become the value of `m` and both `h` and `l` reach the harness.
   */
  lemma DanglingFlagBreaksRegrouping(g: ArgGrammar, m: string, e: string, h: string, l: string)
    requires PlainFlag(g, m) && PlainFlag(g, e) && PlainToken(g, h) && m != e
    ensures
      var group := [Some([m]), Some([e, h])];
      var later := [Some([e, l])];
      && !SurvivorsSafe(g, group)
      && Compose(g, group + later) == [m, e, l]
      && Compose(g, [Some(Compose(g, group))] + later) == [m, e, h, e, l]
  {
    var group, later := [Some([m]), Some([e, h])], [Some([e, l])];
    ExampleParses(g, m, e, h, l);
    FlatTwo(group[0], group[1], LayerParser(g));
    FlatSnoc(group, later[0], LayerParser(g));
    assert group + later == [group[0], group[1], later[0]];
    assert LayerUnits(g, group) == [Verbatim(m), Valued(e, h)];
    assert LayerUnits(g, group + later) == [Verbatim(m), Valued(e, h), Valued(e, l)];
    ExampleAtOnce(m, e, h, l);
    assert Compose(g, group) == [m, e, h];
    assert Dedupe(LayerUnits(g, group))[0] == Verbatim(m);
    ComposedReadsBackIff(g, group);

    FlatTwo(Some([m, e, h]), later[0], LayerParser(g));
    assert [Some(Compose(g, group))] + later == [Some([m, e, h]), later[0]];
    assert LayerUnits(g, [Some([m, e, h]), later[0]]) == [Valued(m, e), Verbatim(h), Valued(e, l)];
    ExampleNested(m, e, h, l);
  }

  lemma DanglingLayerBreaksRegrouping()
    ensures
      var group := [Some(["--model"]), Some(["--effort", "high"])];
      var later := [Some(["--effort", "low"])];
      && !SurvivorsSafe(EXAMPLE, group)
      && Compose(EXAMPLE, group + later) == ["--model", "--effort", "low"]
      && Compose(EXAMPLE, [Some(Compose(EXAMPLE, group))] + later)
        == ["--model", "--effort", "high", "--effort", "low"]
  {
    assert "--model"[2] != "--effort"[2] && "high"[0] != '-';
    DanglingFlagBreaksRegrouping(EXAMPLE, "--model", "--effort", "high", "low");
  }

  lemma ExampleParses(g: ArgGrammar, m: string, e: string, h: string, l: string)
    requires PlainFlag(g, m) && PlainFlag(g, e) && PlainToken(g, h)
    ensures Parse(g, [m]) == [Verbatim(m)]
    ensures Parse(g, [e, h]) == [Valued(e, h)] && Parse(g, [e, l]) == [Valued(e, l)]
    ensures Parse(g, [m, e, h]) == [Valued(m, e), Verbatim(h)]
  {
    ParseSingle(g, m);
    ParseSingle(g, h);
    ParsePair(g, e, h, []);
    ParsePair(g, e, l, []);
    ParsePair(g, m, e, [h]);
    assert [e, h] + [] == [e, h] && [e, l] + [] == [e, l] && [m, e] + [h] == [m, e, h];
    assert Parse(g, []) == [];
  }

  lemma ExampleAtOnce(m: string, e: string, h: string, l: string)
    ensures Print(Dedupe([Verbatim(m), Valued(e, h), Valued(e, l)])) == [m, e, l]
    ensures Dedupe([Verbatim(m), Valued(e, h)]) == [Verbatim(m), Valued(e, h)]
    ensures Print(Dedupe([Verbatim(m), Valued(e, h)])) == [m, e, h]
  {
    DedupeThree(Verbatim(m), Valued(e, h), Valued(e, l));
    assert Dedupe([Verbatim(m), Valued(e, h), Valued(e, l)]) == [Verbatim(m), Valued(e, l)];
    FlatTwo(Verbatim(m), Valued(e, l), TokensOf);
    var first := [Verbatim(m), Valued(e, h)];
    assert KeptFrom(first, 2) == [] && KeptFrom(first, 1) == [Valued(e, h)];
    assert Dedupe(first) == first;
    FlatTwo(Verbatim(m), Valued(e, h), TokensOf);
  }

  lemma ExampleNested(m: string, e: string, h: string, l: string)
    requires m != e
    ensures Print(Dedupe([Valued(m, e), Verbatim(h), Valued(e, l)])) == [m, e, h, e, l]
  {
    var units := [Valued(m, e), Verbatim(h), Valued(e, l)];
    DedupeThree(Valued(m, e), Verbatim(h), Valued(e, l));
    assert Dedupe(units) == units;
    assert units == [Valued(m, e)] + [Verbatim(h), Valued(e, l)];
    FlatConcat([Valued(m, e)], [Verbatim(h), Valued(e, l)], TokensOf);
    FlatTwo(Verbatim(h), Valued(e, l), TokensOf);
    FlatOne(Valued(m, e), TokensOf);
  }
}
