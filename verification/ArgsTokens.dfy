/** What argv tokens mean, stated on the tokens alone: v2/adapters/src/args.ts. */
module ArgsTokens {
  import opened Wrappers
  import opened Lists
  import opened Args

  // ------------------------------------------------------------------
  // The unit that argv begins with
  // ------------------------------------------------------------------

  /** The spelling is the flag's own name or an alias of it. */
  predicate Names(g: ArgGrammar, spelled: string, flag: string) {
    if spelled in g.aliases then g.aliases[spelled] == flag else spelled == flag
  }

  /** One token of a spelling that starts with a dash, the first `=`, and a value. */
  predicate Fused(token: string, spelled: string, value: string) {
    spelled != [] && spelled[0] == '-' && '=' !in spelled && token == spelled + "=" + value
  }

  /** No such token. */
  predicate Bare(token: string) {
    token == [] || token[0] != '-' || '=' !in token
  }

  predicate GivesAs(g: ArgGrammar, tokens: seq<string>, spelled: string, flag: string, value: string) {
    && Names(g, spelled, flag)
    && ((|tokens| == 1 && Fused(tokens[0], spelled, value)) || (tokens == [spelled, value] && Bare(spelled)))
  }

  /** The tokens give the flag that value: under some spelling, as one token or as two. */
  ghost predicate Gives(g: ArgGrammar, tokens: seq<string>, flag: string, value: string) {
    exists spelled :: GivesAs(g, tokens, spelled, flag, value)
  }

  /** A value is about the key that ends before its first `=`. */
  predicate IsKey(key: string, value: string) {
    '=' !in key && (value == key || key + "=" <= value)
  }

  ghost predicate KeyedAs(identity: Option<string>, flag: string, value: string) {
    exists key :: IsKey(key, value) && identity == Some(flag + ":" + key)
  }

  /** What the unit at the front of `argv` is, by its kind. */
  ghost predicate IsUnit(g: ArgGrammar, argv: seq<string>, u: ArgUnit)
    requires argv != []
  {
    match u.kind
    case ValueUnit =>
      && u.tokens <= argv && u.flag.Some? && u.value.Some? && u.flag.value in g.valueFlags
      && Gives(g, u.tokens, u.flag.value, u.value.value)
      && u.identity == (if u.flag.value in g.repeatableValueFlags then None else u.flag)
    case KeyedUnit =>
      && u.tokens <= argv && u.flag.Some? && u.value.Some? && u.flag.value in g.keyedFlags - g.valueFlags
      && Gives(g, u.tokens, u.flag.value, u.value.value)
      && KeyedAs(u.identity, u.flag.value, u.value.value)
    case BooleanUnit =>
      && u.tokens == [argv[0]] && u.flag.Some? && u.value == None && u.identity == u.flag
      && Bare(argv[0]) && Names(g, argv[0], u.flag.value)
      && u.flag.value in g.booleanFlags - g.valueFlags - g.keyedFlags
    case VerbatimUnit =>
      && u.tokens == [argv[0]] && u.flag == None && u.value == None && u.identity == None
      && (forall n, flag, value :: 0 <= n <= |argv| && Gives(g, argv[..n], flag, value) ==> flag !in g.valueFlags + g.keyedFlags)
      && (forall flag :: Bare(argv[0]) && Names(g, argv[0], flag) ==>
            flag in g.valueFlags + g.keyedFlags || flag !in g.booleanFlags)
  }

  lemma {:induction false} FirstIs(s: string, c: char, i: nat)
    requires i <= |s| && c !in s[..i] && (i < |s| ==> s[i] == c)
    ensures FirstIndex(s, c) == i
  {
    if i > 0 {
      assert s[..i][0] == s[0] && s[..i][1..] == s[1..][..i - 1];
      FirstIs(s[1..], c, i - 1);
    }
  }

  lemma SplitIff(token: string, spelled: string, value: string)
    ensures SplitEq(token) == Some((spelled, value)) <==> Fused(token, spelled, value)
    ensures SplitEq(token).None? <==> Bare(token)
  {
    var eq := FirstIndex(token, '=');
    if Fused(token, spelled, value) {
      assert token[|spelled|] == '=' && token[..|spelled|] == spelled && token[|spelled| + 1..] == value;
      assert token[0] == spelled[0];
      FirstIs(token, '=', |spelled|);
    }
    if eq < |token| {
      assert token == token[..eq] + "=" + token[eq + 1..];
    } else {
      assert token[..eq] == token;
    }
  }

  lemma KeyIff(value: string, key: string)
    ensures KeyOf(value) == key <==> IsKey(key, value)
  {
    var eq := FirstIndex(value, '=');
    if eq < |value| {
      assert KeyOf(value) + "=" == value[..eq + 1];
    } else {
      assert value[..eq] == value;
    }
    if IsKey(key, value) {
      assert value[..|key|] == key;
      assert value != key ==> value[|key|] == (key + "=")[|key|];
      FirstIs(value, '=', |key|);
    }
  }

  /** The front of argv that gives a flag its value has one length, and determines both. */
  lemma GivenOnce(g: ArgGrammar, argv: seq<string>, n: nat, flag: string, value: string)
    requires 0 < |argv| && n <= |argv| && Gives(g, argv[..n], flag, value)
    ensures match SplitEq(argv[0])
      case Some((spelled, v)) => n == 1 && flag == Canon(g, spelled) && value == v
      case None => n == 2 && flag == Canon(g, argv[0]) && value == argv[1]
  {
    var spelled :| GivesAs(g, argv[..n], spelled, flag, value);
    assert n > 0 && argv[..n][0] == argv[0];
    SplitIff(argv[0], spelled, value);
    if n == 2 { assert argv[..n][1] == argv[1]; }
  }

  lemma TakeIsUnit(g: ArgGrammar, argv: seq<string>)
    requires argv != []
    ensures IsUnit(g, argv, Take(g, argv))
  {
    var u, tok := Take(g, argv), argv[0];
    SplitIff(tok, [], []);
    if SplitEq(tok).Some? {
      var (spelled, value) := SplitEq(tok).value;
      SplitIff(tok, spelled, value);
      assert GivesAs(g, [tok], spelled, Canon(g, spelled), value);
    } else if |argv| > 1 {
      assert argv[..2] == [tok, argv[1]];
      assert GivesAs(g, argv[..2], tok, Canon(g, tok), argv[1]);
    }
    if u.kind.KeyedUnit? {
      KeyIff(u.value.value, KeyOf(u.value.value));
    }
    if u.kind.VerbatimUnit? {
      forall n, flag, value | 0 <= n <= |argv| && Gives(g, argv[..n], flag, value)
        ensures flag !in g.valueFlags + g.keyedFlags
      {
        GivenOnce(g, argv, n, flag, value);
      }
    }
  }

  lemma GivenIsTaken(g: ArgGrammar, argv: seq<string>, tokens: seq<string>, flag: string, value: string)
    requires argv != [] && tokens <= argv && Gives(g, tokens, flag, value) && flag in g.valueFlags + g.keyedFlags
    ensures Take(g, argv) ==
      if flag in g.valueFlags then ValuedUnit(g, tokens, flag, value) else KeyedUnitOf(tokens, flag, value)
  {
    assert argv[..|tokens|] == tokens;
    GivenOnce(g, argv, |tokens|, flag, value);
  }

  /** The unit at the front of argv is the one that the tokens say, and only that one. */
  lemma UnitIff(g: ArgGrammar, argv: seq<string>, u: ArgUnit)
    requires argv != []
    ensures u == Take(g, argv) <==> IsUnit(g, argv, u)
  {
    TakeIsUnit(g, argv);
    if IsUnit(g, argv, u) {
      match u.kind
      case ValueUnit =>
        GivenIsTaken(g, argv, u.tokens, u.flag.value, u.value.value);
      case KeyedUnit =>
        GivenIsTaken(g, argv, u.tokens, u.flag.value, u.value.value);
        var key :| IsKey(key, u.value.value) && u.identity == Some(u.flag.value + ":" + key);
        KeyIff(u.value.value, key);
      case BooleanUnit =>
        SplitIff(argv[0], [], []);
      case VerbatimUnit =>
        var t := Take(g, argv);
        SplitIff(argv[0], [], []);
        assert argv[..|t.tokens|] == t.tokens;
    }
  }

  // ------------------------------------------------------------------
  // Which units displace each other
  // ------------------------------------------------------------------

  /** Both values have the same text before their first `=`. */
  ghost predicate SameKey(v: string, w: string) {
    exists key :: IsKey(key, v) && IsKey(key, w)
  }

  lemma SameKeyIff(v: string, w: string)
    ensures SameKey(v, w) <==> KeyOf(v) == KeyOf(w)
  {
    KeyIff(v, KeyOf(v));
    KeyIff(w, KeyOf(w));
    if SameKey(v, w) {
      var key :| IsKey(key, v) && IsKey(key, w);
      KeyIff(v, key);
      KeyIff(w, key);
    }
  }

  lemma Colons(f: string, h: string, k: string, m: string)
    requires ':' !in f && ':' !in h && f + ":" + k == h + ":" + m
    ensures f == h && k == m
  {
    var s := f + ":" + k;
    assert s[..|f|] == f && s[..|h|] == h && s[|f| + 1..] == k && s[|h| + 1..] == m;
    FirstIs(s, ':', |f|);
    FirstIs(s, ':', |h|);
  }

  ghost predicate GivesKeyed(g: ArgGrammar, tokens: seq<string>, flag: string, value: string) {
    tokens != [] && Gives(g, tokens, flag, value) && flag in g.keyedFlags - g.valueFlags && ':' !in flag
  }

  ghost predicate GivesValued(g: ArgGrammar, tokens: seq<string>, flag: string, value: string) {
    tokens != [] && Gives(g, tokens, flag, value) && flag in g.valueFlags
  }

  /** A boolean flag, in any spelling. */
  ghost predicate Sets(g: ArgGrammar, token: string, flag: string) {
    Bare(token) && Names(g, token, flag) && flag in g.booleanFlags - g.valueFlags - g.keyedFlags
  }

  /** A token that is no flag of the grammar. */
  ghost predicate Foreign(g: ArgGrammar, token: string) {
    && (forall spelled, value, flag :: Fused(token, spelled, value) && Names(g, spelled, flag) ==>
          flag !in g.valueFlags + g.keyedFlags)
    && (Bare(token) ==> forall flag :: Names(g, token, flag) ==> flag !in g.valueFlags + g.keyedFlags + g.booleanFlags)
  }

  lemma AllTokensTaken(g: ArgGrammar, tokens: seq<string>)
    requires tokens != [] && Take(g, tokens).tokens == tokens
    ensures Parse(g, tokens) == [Take(g, tokens)]
  {
    assert tokens[|tokens|..] == [];
  }

  lemma KeyedUnits(g: ArgGrammar, tokens: seq<string>, flag: string, value: string)
    requires GivesKeyed(g, tokens, flag, value)
    ensures Parse(g, tokens) == [KeyedUnitOf(tokens, flag, value)]
  {
    GivenIsTaken(g, tokens, tokens, flag, value);
    AllTokensTaken(g, tokens);
  }

  lemma ValuedUnits(g: ArgGrammar, tokens: seq<string>, flag: string, value: string)
    requires GivesValued(g, tokens, flag, value)
    ensures Parse(g, tokens) == [ValuedUnit(g, tokens, flag, value)]
  {
    GivenIsTaken(g, tokens, tokens, flag, value);
    AllTokensTaken(g, tokens);
  }

  lemma SetUnits(g: ArgGrammar, token: string, flag: string)
    requires Sets(g, token, flag)
    ensures Parse(g, [token]) == [ArgUnit([token], Some(flag), BooleanUnit, Some(flag), None)]
  {
    UnitIff(g, [token], ArgUnit([token], Some(flag), BooleanUnit, Some(flag), None));
    AllTokensTaken(g, [token]);
  }

  lemma ForeignUnits(g: ArgGrammar, token: string)
    requires Foreign(g, token)
    ensures Parse(g, [token]) == [ArgUnit([token], None, VerbatimUnit, None, None)]
  {
    var u := ArgUnit([token], None, VerbatimUnit, None, None);
    forall n, flag, value | 0 <= n <= 1 && Gives(g, [token][..n], flag, value)
      ensures flag !in g.valueFlags + g.keyedFlags
    {
      var spelled :| GivesAs(g, [token][..n], spelled, flag, value);
      assert n == 1 && [token][..n] == [token];
    }
    assert IsUnit(g, [token], u);
    UnitIff(g, [token], u);
    AllTokensTaken(g, [token]);
  }

  lemma TwoLayers(g: ArgGrammar, a: seq<string>, b: seq<string>, u: ArgUnit, v: ArgUnit)
    requires Parse(g, a) == [u] && Parse(g, b) == [v] && u.tokens == a && v.tokens == b
    requires u.identity.Some? && u.identity == v.identity ==> u.kind.BooleanUnit? == v.kind.BooleanUnit?
    ensures Compose(g, [Some(a), Some(b)]) ==
      if u.identity.None? || u.identity != v.identity then a + b else if u.kind.BooleanUnit? then a else b
  {
    FlatTwo<Layer, ArgUnit>(Some(a), Some(b), LayerParser(g));
    var us := [u, v];
    assert LayerUnits(g, [Some(a), Some(b)]) == us;
    assert KeptFrom(us, 2) == [];
    assert KeptFrom(us, 1) == if Keeps(us, 1) then [v] else [];
    assert Dedupe(us) == (if Keeps(us, 0) then [u] else []) + KeptFrom(us, 1);
    FlatTwo(u, v, TokensOf);
    FlatOne(u, TokensOf);
    FlatOne(v, TokensOf);
    assert [u] + [v] == us && [u] + [] == [u] && [] + [v] == [v];
  }

  /** A later keyed flag displaces an earlier one about the same key; different keys coexist. */
  lemma KeyedLayers(g: ArgGrammar, a: seq<string>, b: seq<string>, f: string, h: string, v: string, w: string)
    requires GivesKeyed(g, a, f, v) && GivesKeyed(g, b, h, w)
    ensures Compose(g, [Some(a), Some(b)]) == if f == h && SameKey(v, w) then b else a + b
  {
    KeyedUnits(g, a, f, v);
    KeyedUnits(g, b, h, w);
    SameKeyIff(v, w);
    if f + ":" + KeyOf(v) == h + ":" + KeyOf(w) { Colons(f, h, KeyOf(v), KeyOf(w)); }
    TwoLayers(g, a, b, KeyedUnitOf(a, f, v), KeyedUnitOf(b, h, w));
  }

  /** A later valued flag displaces an earlier one in any spelling, unless it may be repeated. */
  lemma ValuedLayers(g: ArgGrammar, a: seq<string>, b: seq<string>, f: string, h: string, v: string, w: string)
    requires GivesValued(g, a, f, v) && GivesValued(g, b, h, w)
    ensures Compose(g, [Some(a), Some(b)]) == if f == h && f !in g.repeatableValueFlags then b else a + b
  {
    ValuedUnits(g, a, f, v);
    ValuedUnits(g, b, h, w);
    TwoLayers(g, a, b, ValuedUnit(g, a, f, v), ValuedUnit(g, b, h, w));
  }

  /** A repeated boolean flag stays in its first spelling; tokens that are no flags all stay. */
  lemma OtherLayers(g: ArgGrammar, a: string, b: string, f: string, h: string)
    ensures Sets(g, a, f) && Sets(g, b, h) ==> Compose(g, [Some([a]), Some([b])]) == if f == h then [a] else [a, b]
    ensures Foreign(g, a) && Foreign(g, b) ==> Compose(g, [Some([a]), Some([b])]) == [a, b]
  {
    assert [a] + [b] == [a, b];
    if Sets(g, a, f) && Sets(g, b, h) {
      SetUnits(g, a, f);
      SetUnits(g, b, h);
      TwoLayers(g, [a], [b], ArgUnit([a], Some(f), BooleanUnit, Some(f), None), ArgUnit([b], Some(h), BooleanUnit, Some(h), None));
    }
    if Foreign(g, a) && Foreign(g, b) {
      ForeignUnits(g, a);
      ForeignUnits(g, b);
      TwoLayers(g, [a], [b], ArgUnit([a], None, VerbatimUnit, None, None), ArgUnit([b], None, VerbatimUnit, None, None));
    }
  }

  // ------------------------------------------------------------------
  // Which units of any list survive, and in what order
  // ------------------------------------------------------------------

  /** Without identity; or a boolean that none of its identity precedes; or another that none follows. */
  ghost predicate Survives(us: seq<ArgUnit>, i: nat)
    requires i < |us|
  {
    match us[i].identity
    case None => true
    case Some(id) =>
      if us[i].kind == BooleanUnit then forall j :: 0 <= j < i ==> us[j].identity != Some(id)
      else forall j :: i < j < |us| ==> us[j].identity != Some(id)
  }

  /** `kept` goes through `us` from a position on and has the survivors there, in order. */
  ghost predicate Picks(us: seq<ArgUnit>, from: nat, kept: seq<ArgUnit>)
    requires from <= |us|
    decreases |us| - from
  {
    if from == |us| then kept == []
    else if Survives(us, from) then kept != [] && kept[0] == us[from] && Picks(us, from + 1, kept[1..])
    else Picks(us, from + 1, kept)
  }

  lemma {:induction false} KeptPicks(us: seq<ArgUnit>, from: nat, kept: seq<ArgUnit>)
    requires from <= |us|
    ensures Picks(us, from, kept) <==> kept == KeptFrom(us, from)
    decreases |us| - from
  {
    if from < |us| {
      assert Keeps(us, from) <==> Survives(us, from);
      if Survives(us, from) {
        if kept != [] {
          KeptPicks(us, from + 1, kept[1..]);
          assert kept == [kept[0]] + kept[1..];
        }
        assert KeptFrom(us, from)[1..] == KeptFrom(us, from + 1);
      } else {
        KeptPicks(us, from + 1, kept);
      }
    }
  }

  /** What is left are the survivors, each once and in the order in which they stood. */
  lemma DedupePicks(us: seq<ArgUnit>)
    ensures Picks(us, 0, Dedupe(us))
  {
    KeptPicks(us, 0, Dedupe(us));
  }
}
