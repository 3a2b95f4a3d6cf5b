/** The shipped argv grammars and the grok and codex spawn plans: v2/adapters/src/args.ts. */
module SpawnPlans {
  import opened Wrappers
  import opened Lists
  import opened Args
  import opened ArgsTokens

  // ------------------------------------------------------------------
  // Shipped grammars
  // ------------------------------------------------------------------

  const CLAUDE: ArgGrammar := ArgGrammar(
    {"--model", "--effort", "--resume", "--session-id", "--append-system-prompt", "--system-prompt",
     "--permission-mode", "--input-format", "--output-format", "--max-turns", "--fallback-model", "--agent",
     "--settings", "--mcp-config", "--allowedTools", "--disallowedTools", "--add-dir", "--max-budget-usd",
     "--json-schema", "--betas"},
    {"--append-system-prompt"},
    {"-p", "--print", "--verbose", "--dangerously-skip-permissions", "--continue", "-c",
     "--include-partial-messages", "--replay-user-messages", "--fork-session"},
    {},
    map["-r" := "--resume", "-c" := "--continue"])

  const AGY: ArgGrammar := ArgGrammar(
    {"--model", "--effort", "--conversation", "--print-timeout", "--agent", "--project", "--log-file",
     "--add-dir", "--mode"},
    {"--add-dir"},
    {"--dangerously-skip-permissions"},
    {},
    map[])

  const CODEX: ArgGrammar := ArgGrammar(
    {"--model", "--ask-for-approval", "--sandbox", "--profile", "--cd", "--image"},
    {},
    {"--dangerously-bypass-approvals-and-sandbox", "--full-auto", "--search", "--oss"},
    {"--config"},
    map["-m" := "--model", "-c" := "--config", "-a" := "--ask-for-approval", "-s" := "--sandbox",
        "-p" := "--profile", "-C" := "--cd", "-i" := "--image"])

  const GROK: ArgGrammar := ArgGrammar(
    {"--model", "--effort", "--permission-mode", "--debug-file", "--leader-socket", "--agent-profile"},
    {},
    {"--no-auto-update", "--no-leader", "--always-approve", "--debug", "--leader"},
    {},
    map["-m" := "--model", "--reasoning-effort" := "--effort"])

  const MUSE: ArgGrammar := ArgGrammar(
    {"--model", "--effort", "--provider", "--approval-mode", "--sandbox-network", "--contributor-mode"},
    {},
    {"--yolo", "--disable-approval", "--disable-sandbox", "--trust-workspace", "--disable-write",
     "--disable-shell", "--no-session-log"},
    {"--config"},
    map["--reasoning-effort" := "--effort", "-c" := "--config"])

  /** Every shipped grammar may be composed in any grouping. */
  lemma ShippedGrammarsSeparated()
    ensures Separated(CLAUDE) && Separated(AGY) && Separated(CODEX) && Separated(GROK) && Separated(MUSE)
  {
    var prefix := "--config" + ":";
    assert prefix[2] == 'c';
    forall b | b in CODEX.booleanFlags || b in MUSE.booleanFlags ensures !(prefix <= b) {
      assert b[2] != 'c';
    }
  }

  // ------------------------------------------------------------------
  // Units of listed flags, and the others
  // ------------------------------------------------------------------

  predicate Listed(u: ArgUnit, flags: set<string>) {
    u.flag.Some? && u.flag.value in flags
  }

  function Picker(flags: set<string>, listed: bool): ArgUnit -> seq<ArgUnit> {
    u => if Listed(u, flags) == listed then [u] else []
  }

  /** The units whose flag is listed (`listed`), or the remaining ones. */
  function Pick(us: seq<ArgUnit>, flags: set<string>, listed: bool): seq<ArgUnit> {
    Flat(us, Picker(flags, listed))
  }

  function Listing(flags: set<string>, listed: bool): ArgUnit -> bool {
    u => Listed(u, flags) == listed
  }

  ghost predicate AllListed(us: seq<ArgUnit>, flags: set<string>, listed: bool) {
    All(us, Listing(flags, listed))
  }

  lemma PickShape(g: ArgGrammar, us: seq<ArgUnit>, flags: set<string>, listed: bool)
    requires AllWellFormed(g, us)
    ensures var picked := Pick(us, flags, listed);
      && AllWellFormed(g, picked) && AllListed(picked, flags, listed)
      && (DanglingOnlyLast(g, us) ==> DanglingOnlyLast(g, picked))
  {
    FlatShape(us, Picker(flags, listed), WellFormedIn(g), DanglingIn(g));
    PickListed(us, flags, listed);
  }

  lemma {:induction false} PickListed(us: seq<ArgUnit>, flags: set<string>, listed: bool)
    ensures AllListed(Pick(us, flags, listed), flags, listed)
  {
    if us != [] {
      PickListed(us[1..], flags, listed);
      var head := Picker(flags, listed)(us[0]);
      AllConcat(head, Pick(us[1..], flags, listed), Listing(flags, listed));
      if head != [] { AllOne(us[0], Listing(flags, listed)); }
    }
  }

  lemma {:induction false} PickUniform(us: seq<ArgUnit>, flags: set<string>, listed: bool, wanted: bool)
    requires AllListed(us, flags, listed)
    ensures Pick(us, flags, wanted) == if wanted == listed then us else []
  {
    if us != [] {
      PickUniform(us[1..], flags, listed, wanted);
      assert Listing(flags, listed)(us[0]);
    }
  }

  /** The value of the last unit of a flag. */
  function LastValue(us: seq<ArgUnit>, flag: string): Option<string> {
    if us == [] then None
    else
      var u := us[|us| - 1];
      if u.flag == Some(flag) && u.value.Some? then u.value else LastValue(us[..|us| - 1], flag)
  }

  lemma LastValueSnoc(us: seq<ArgUnit>, u: ArgUnit, flag: string)
    ensures LastValue(us + [u], flag) == if u.flag == Some(flag) && u.value.Some? then u.value else LastValue(us, flag)
  {
    assert (us + [u])[..|us|] == us;
  }

  /** The last value is unaffected by units of other flags. */
  lemma {:induction false} LastValueOfPick(us: seq<ArgUnit>, flags: set<string>, listed: bool, flag: string)
    requires flag in flags
    ensures LastValue(Pick(us, flags, listed), flag) == if listed then LastValue(us, flag) else None
  {
    if us != [] {
      var n := |us| - 1;
      var init := us[..n];
      assert us[..n + 1] == us;
      LastValueOfPick(init, flags, listed, flag);
      PickNext(us, n, flags, listed, Pick(init, flags, listed));
      LastValueNext(us, n, flag);
      LastValueSnoc(Pick(init, flags, listed), us[n], flag);
    }
  }

  /** A parsed unit of a valued flag carries its value. */
  lemma ValuedHasValue(g: ArgGrammar, us: seq<ArgUnit>)
    requires AllWellFormed(g, us)
    ensures forall i :: 0 <= i < |us| && Listed(us[i], g.valueFlags) ==> us[i].value.Some? && us[i].kind.ValueUnit?
  {
    forall i | 0 <= i < |us| && Listed(us[i], g.valueFlags) ensures us[i].value.Some? && us[i].kind.ValueUnit? {
      AllAt(us, WellFormedIn(g), i);
      assert us[i] == Take(g, us[i].tokens);
    }
  }

  lemma PickNext(us: seq<ArgUnit>, i: nat, flags: set<string>, listed: bool, out: seq<ArgUnit>)
    requires i < |us| && out == Pick(us[..i], flags, listed)
    ensures Pick(us[..i + 1], flags, listed) == if Listed(us[i], flags) == listed then out + [us[i]] else out
  {
    FlatNext(us, i, Picker(flags, listed));
    assert out + [] == out;
  }

  lemma LastValueNext(us: seq<ArgUnit>, i: nat, flag: string)
    requires i < |us|
    ensures LastValue(us[..i + 1], flag) ==
      if us[i].flag == Some(flag) && us[i].value.Some? then us[i].value else LastValue(us[..i], flag)
  {
    assert us[..i + 1] == us[..i] + [us[i]];
    LastValueSnoc(us[..i], us[i], flag);
  }

  ghost predicate CarriesLast(us: seq<ArgUnit>, k: nat, flag: string, value: string) {
    && k < |us| && us[k].flag == Some(flag) && us[k].value == Some(value)
    && forall j :: k < j < |us| && us[j].flag == Some(flag) ==> us[j].value == None
  }

  /** The last unit of the flag that has a value carries it; without such a unit there is none. */
  lemma {:induction false} LastValueIff(us: seq<ArgUnit>, flag: string, value: string)
    ensures LastValue(us, flag) == Some(value) <==> exists k :: CarriesLast(us, k, flag, value)
    ensures LastValue(us, flag) == None <==> forall k :: 0 <= k < |us| && us[k].flag == Some(flag) ==> us[k].value == None
  {
    if us != [] {
      var n := |us| - 1;
      var init := us[..n];
      LastValueIff(init, flag, value);
      if k: nat :| CarriesLast(init, k, flag, value) && !(us[n].flag == Some(flag) && us[n].value.Some?) {
        assert CarriesLast(us, k, flag, value);
      }
      if k: nat :| CarriesLast(us, k, flag, value) {
        assert k < n ==> CarriesLast(init, k, flag, value);
      }
      assert us[n].flag == Some(flag) && us[n].value == Some(value) ==> CarriesLast(us, n, flag, value);
    }
  }

  /** A unit is picked, where it stands, when its flag is listed or when it is not. */
  lemma {:induction false} PickIff(us: seq<ArgUnit>, flags: set<string>, listed: bool, u: ArgUnit)
    ensures u in Pick(us, flags, listed) <==> u in us && (listed <==> exists f :: f in flags && u.flag == Some(f))
    ensures |us| == 1 ==> |Pick(us, flags, listed)| <= 1
  {
    if us != [] {
      PickIff(us[1..], flags, listed, u);
      assert us == [us[0]] + us[1..];
      assert Listed(us[0], flags) <==> exists f :: f in flags && us[0].flag == Some(f);
    }
  }

  /** `-c` overrides in the shipped grammars: different keys coexist, the later layer has its way with its own. */
  lemma ConfigLayers(g: ArgGrammar, a: seq<string>, b: seq<string>, v: string, w: string)
    requires g == CODEX || g == MUSE
    requires a != [] && b != [] && Gives(g, a, "--config", v) && Gives(g, b, "--config", w)
    ensures Compose(g, [Some(a), Some(b)]) == if SameKey(v, w) then b else a + b
  {
    assert "--config" in g.keyedFlags && ':' !in "--config";
    assert "--config" !in g.valueFlags by {
      assert "--config"[2] == 'c' && "--config"[3] == 'o' && |"--config"| == 8 && |"--contributor-mode"| == 18 && |"--cd"| == 4;
    }
    KeyedLayers(g, a, b, "--config", "--config", v, w);
  }

  // ------------------------------------------------------------------
  // codex
  // ------------------------------------------------------------------

  const CODEX_ABSORBED: set<string> :=
    {"--model", "--dangerously-bypass-approvals-and-sandbox", "--full-auto", "--ask-for-approval", "--sandbox"}

  datatype CodexPlan = CodexPlan(argv: seq<string>, model: Option<string>, absorbed: seq<string>)

  function PlanCodex(argv: seq<string>): CodexPlan {
    PlanAbsorbing(CODEX, CODEX_ABSORBED, "--model", argv)
  }

  function PlanAbsorbing(g: ArgGrammar, flags: set<string>, model: string, argv: seq<string>): CodexPlan {
    var us := Parse(g, argv);
    CodexPlan(Print(Pick(us, flags, false)), LastValue(us, model), Print(Pick(us, flags, true)))
  }

  method AbsorbFlags(g: ArgGrammar, flags: set<string>, lifted: string, argv: seq<string>) returns (plan: CodexPlan)
    requires lifted in flags
    ensures plan == PlanAbsorbing(g, flags, lifted, argv)
  {
    var us := ParseArgUnits(g, argv);
    var out, absorbed, model := [], [], None;
    ghost var rest, picked := Pick([], flags, false), Pick([], flags, true);
    for i := 0 to |us|
      invariant rest == Pick(us[..i], flags, false) && out == Print(rest)
      invariant picked == Pick(us[..i], flags, true) && absorbed == Print(picked)
      invariant model == LastValue(us[..i], lifted)
    {
      var u := us[i];
      PickNext(us, i, flags, false, rest);
      PickNext(us, i, flags, true, picked);
      LastValueNext(us, i, lifted);
      FlatSnoc(if Listed(u, flags) then picked else rest, u, TokensOf);
      if Listed(u, flags) {
        picked := picked + [u];
      } else {
        rest := rest + [u];
      }
      if u.flag == Some(lifted) && u.value.Some? {
        model := u.value;
        absorbed := absorbed + u.tokens;
      } else if Listed(u, flags) {
        absorbed := absorbed + u.tokens;
      } else {
        out := out + u.tokens;
      }
    }
    assert us[..|us|] == us;
    plan := CodexPlan(out, model, absorbed);
  }

  method CodexSpawnPlan(argv: seq<string>) returns (plan: CodexPlan)
    ensures plan == PlanCodex(argv)
  {
    plan := AbsorbFlags(CODEX, CODEX_ABSORBED, "--model", argv);
  }

  lemma {:induction false} PrintPartition(us: seq<ArgUnit>, flags: set<string>)
    ensures multiset(Print(us)) ==
      multiset(Print(Pick(us, flags, true))) + multiset(Print(Pick(us, flags, false)))
  {
    if us != [] {
      var u, rest, mine := us[0], us[1..], Listed(us[0], flags);
      PrintPartition(rest, flags);
      FlatConcat([u], Pick(rest, flags, mine), TokensOf);
      FlatOne(u, TokensOf);
      assert Pick(us, flags, mine) == [u] + Pick(rest, flags, mine);
      assert Pick(us, flags, !mine) == Pick(rest, flags, !mine);
    }
  }

  /**
   * The plan moves every token to exactly one side, leaves no absorbed flag on
   * argv, and planning its own argv again changes nothing.
   */
  lemma AbsorbingPlanConserves(g: ArgGrammar, flags: set<string>, model: string, argv: seq<string>)
    requires model in flags
    ensures var plan := PlanAbsorbing(g, flags, model, argv);
      && multiset(argv) == multiset(plan.argv) + multiset(plan.absorbed)
      && Pick(Parse(g, plan.argv), flags, true) == []
      && PlanAbsorbing(g, flags, model, plan.argv) == CodexPlan(plan.argv, None, [])
  {
    var us := Parse(g, argv);
    ParseLossless(g, argv);
    PrintPartition(us, flags);
    KeptAgain(g, flags, model, us);
  }

  lemma KeptAgain(g: ArgGrammar, flags: set<string>, model: string, us: seq<ArgUnit>)
    requires model in flags && AllWellFormed(g, us) && DanglingOnlyLast(g, us)
    ensures var kept := Pick(us, flags, false);
      && Parse(g, Print(kept)) == kept
      && Pick(kept, flags, false) == kept && Pick(kept, flags, true) == [] && LastValue(kept, model) == None
  {
    var kept := Pick(us, flags, false);
    PickShape(g, us, flags, false);
    ReadBack(g, kept);
    PickUniform(kept, flags, false, false);
    PickUniform(kept, flags, false, true);
    LastValueOfPick(us, flags, false, model);
  }

  lemma CodexPlanConserves(argv: seq<string>)
    ensures var plan := PlanCodex(argv);
      && multiset(argv) == multiset(plan.argv) + multiset(plan.absorbed)
      && Pick(Parse(CODEX, plan.argv), CODEX_ABSORBED, true) == []
      && PlanCodex(plan.argv) == CodexPlan(plan.argv, None, [])
  {
    AbsorbingPlanConserves(CODEX, CODEX_ABSORBED, "--model", argv);
  }

  // ------------------------------------------------------------------
  // grok
  // ------------------------------------------------------------------

  const GROK_LIFTED: set<string> := {"--model", "--effort"}

  predicate IsToken(u: ArgUnit, token: string) {
    u.kind.VerbatimUnit? && u.tokens == [token]
  }

  /** Position of the first verbatim `token`, or the length. */
  function FirstToken(us: seq<ArgUnit>, token: string): (k: nat)
    ensures k <= |us|
    ensures forall i :: 0 <= i < k ==> !IsToken(us[i], token)
    ensures k < |us| ==> IsToken(us[k], token)
  {
    if us == [] || IsToken(us[0], token) then 0 else 1 + FirstToken(us[1..], token)
  }

  function Before(us: seq<ArgUnit>, token: string): seq<ArgUnit> {
    us[..FirstToken(us, token)]
  }

  function After(us: seq<ArgUnit>, token: string): seq<ArgUnit> {
    var k := FirstToken(us, token);
    if k == |us| then [] else us[k + 1..]
  }

  predicate HasToken(us: seq<ArgUnit>, token: string) {
    FirstToken(us, token) < |us|
  }

  /** A lifted unit is respelled `--flag value`. */
  function Respell(us: seq<ArgUnit>): seq<ArgUnit> {
    Flat(us, Respelled)
  }

  function Respelled(u: ArgUnit): seq<ArgUnit> {
    [Valued(u.flag.GetOr(""), u.value.GetOr(""))]
  }

  /** What the plan intends the harness to read: the lifted flags stand before the subcommand. */
  function LiftedUnits(us: seq<ArgUnit>, flags: set<string>, token: string): seq<ArgUnit> {
    var rest := Pick(us, flags, false);
    Before(rest, token) + Respell(Pick(us, flags, true))
      + (if HasToken(rest, token) then [Verbatim(token)] else []) + After(rest, token)
  }

  datatype GrokPlan = GrokPlan(argv: seq<string>, model: Option<string>)

  function PlanLifting(g: ArgGrammar, flags: set<string>, token: string, model: string, argv: seq<string>): GrokPlan {
    var us := Parse(g, argv);
    GrokPlan(Print(LiftedUnits(us, flags, token)), LastValue(us, model))
  }

  function PlanGrok(argv: seq<string>): GrokPlan {
    PlanLifting(GROK, GROK_LIFTED, "stdio", "--model", argv)
  }

  lemma TokenPosition(us: seq<ArgUnit>, token: string, k: nat)
    requires k <= |us| && (forall i :: 0 <= i < k ==> !IsToken(us[i], token)) && (k < |us| ==> IsToken(us[k], token))
    ensures FirstToken(us, token) == k
  {
    var m := FirstToken(us, token);
  }

  lemma TokenSnoc(us: seq<ArgUnit>, u: ArgUnit, token: string)
    ensures HasToken(us + [u], token) == (HasToken(us, token) || IsToken(u, token))
    ensures Before(us + [u], token) ==
      if HasToken(us, token) || IsToken(u, token) then Before(us, token) else Before(us, token) + [u]
    ensures After(us + [u], token) == if HasToken(us, token) then After(us, token) + [u] else After(us, token)
  {
    var more, k := us + [u], FirstToken(us, token);
    assert forall i :: 0 <= i < |us| ==> more[i] == us[i];
    assert more[|us|] == u;
    TokenPosition(more, token, if k == |us| && !IsToken(u, token) then k + 1 else k);
    assert more[..k] == us[..k];
    if k < |us| {
      assert more[k + 1..] == us[k + 1..] + [u];
    } else {
      assert more[..k + 1] == us[..k] + [u] && more[k + 1..] == [];
    }
  }

  method LiftFlags(g: ArgGrammar, flags: set<string>, token: string, lifting: string, argv: seq<string>) returns (plan: GrokPlan)
    requires flags <= g.valueFlags
    ensures plan == PlanLifting(g, flags, token, lifting, argv)
  {
    var us := ParseArgUnits(g, argv);
    ParseLossless(g, argv);
    ValuedHasValue(g, us);
    var before, after, lifted, model, seen := [], [], [], None, false;
    ghost var rest, picked := Pick([], flags, false), Pick([], flags, true);
    for i := 0 to |us|
      invariant rest == Pick(us[..i], flags, false) && picked == Pick(us[..i], flags, true)
      invariant before == Print(Before(rest, token)) && after == Print(After(rest, token))
      invariant seen == HasToken(rest, token)
      invariant lifted == Print(Respell(picked))
      invariant model == LastValue(us[..i], lifting)
    {
      var u := us[i];
      PickNext(us, i, flags, false, rest);
      PickNext(us, i, flags, true, picked);
      LastValueNext(us, i, lifting);
      if u.flag == Some(lifting) && u.value.Some? {
        model := u.value;
      }
      if Listed(u, flags) {
        LiftedStep(picked, u);
        picked := picked + [u];
        lifted := lifted + [u.flag.value, u.value.value];
      } else {
        StayingStep(rest, u, token);
        rest := rest + [u];
        if !seen && IsToken(u, token) {
          seen := true;
        } else if seen {
          after := after + u.tokens;
        } else {
          before := before + u.tokens;
        }
      }
    }
    assert us[..|us|] == us;
    plan := GrokPlan(before + lifted + (if seen then [token] else []) + after, model);
    PrintLifted(us, flags, token);
  }

  method GrokSpawnPlan(argv: seq<string>) returns (plan: GrokPlan)
    ensures plan == PlanGrok(argv)
  {
    GrokCanLift();
    plan := LiftFlags(GROK, GROK_LIFTED, "stdio", "--model", argv);
  }

  lemma LiftedStep(picked: seq<ArgUnit>, u: ArgUnit)
    requires u.flag.Some? && u.value.Some?
    ensures Print(Respell(picked + [u])) == Print(Respell(picked)) + [u.flag.value, u.value.value]
  {
    FlatSnoc(picked, u, Respelled);
    FlatSnoc(Respell(picked), Valued(u.flag.value, u.value.value), TokensOf);
  }

  lemma StayingStep(rest: seq<ArgUnit>, u: ArgUnit, token: string)
    ensures var next, seen := rest + [u], HasToken(rest, token);
      && HasToken(next, token) == (seen || IsToken(u, token))
      && Print(After(next, token)) == (if seen then Print(After(rest, token)) + u.tokens else Print(After(rest, token)))
      && Print(Before(next, token)) ==
        (if seen || IsToken(u, token) then Print(Before(rest, token)) else Print(Before(rest, token)) + u.tokens)
  {
    TokenSnoc(rest, u, token);
    FlatSnoc(Before(rest, token), u, TokensOf);
    FlatSnoc(After(rest, token), u, TokensOf);
  }

  lemma PrintLifted(us: seq<ArgUnit>, flags: set<string>, token: string)
    ensures var rest := Pick(us, flags, false);
      Print(LiftedUnits(us, flags, token)) == Print(Before(rest, token)) + Print(Respell(Pick(us, flags, true)))
        + (if HasToken(rest, token) then [token] else []) + Print(After(rest, token))
  {
    var rest := Pick(us, flags, false);
    var a, b, d := Before(rest, token), Respell(Pick(us, flags, true)), After(rest, token);
    var c := if HasToken(rest, token) then [Verbatim(token)] else [];
    FlatFour(a, b, c, d, TokensOf);
    if c != [] { FlatOne(Verbatim(token), TokensOf); }
  }

  /** The argv ends in a flag without value, has something to lift and no subcommand to put it before. */
  predicate Misreads(g: ArgGrammar, flags: set<string>, token: string, argv: seq<string>) {
    UnitsMisread(g, flags, token, Parse(g, argv))
  }

  predicate UnitsMisread(g: ArgGrammar, flags: set<string>, token: string, us: seq<ArgUnit>) {
    && Pick(us, flags, true) != []
    && !HasToken(Pick(us, flags, false), token)
    && LastDangles(g, us)
  }

  /** The lifted flags are plain valued flags and the subcommand is an unknown token. */
  ghost predicate CanLift(g: ArgGrammar, flags: set<string>, token: string) {
    (forall f :: f in flags ==> PlainFlag(g, f)) && PlainToken(g, token)
  }

  lemma {:induction false} RespellShape(g: ArgGrammar, us: seq<ArgUnit>, flags: set<string>)
    requires forall f :: f in flags ==> PlainFlag(g, f)
    requires AllListed(us, flags, true)
    ensures var out := Respell(us);
      && (out == [] <==> us == []) && Respell(out) == out && AllListed(out, flags, true)
      && AllWellFormed(g, out) && DanglingOnlyLast(g, out) && !LastDangles(g, out)
  {
    if us != [] {
      var flag, value, rest := us[0].flag.value, us[0].value.GetOr(""), Respell(us[1..]);
      RespellShape(g, us[1..], flags);
      var u := Valued(flag, value);
      ValuedShape(g, flag, value);
      assert Listing(flags, true)(us[0]);
      ShapeConcat(g, [u], rest);
      AllOne(u, WellFormedIn(g));
      AllConcat([u], rest, Listing(flags, true));
      AllOne(u, Listing(flags, true));
      FlatConcat([u], rest, Respelled);
      FlatOne(u, Respelled);
    }
  }

  lemma ValuedShape(g: ArgGrammar, flag: string, value: string)
    requires PlainFlag(g, flag)
    ensures WellFormed(g, Valued(flag, value)) && !Dangling(g, Valued(flag, value))
  {
    NoSplit(flag);
    assert [flag, value][..2] == [flag, value];
  }

  /** A flag without value ends the argv exactly when it ends what is not lifted. */
  lemma {:induction false} LastKept(g: ArgGrammar, us: seq<ArgUnit>, flags: set<string>)
    requires AllWellFormed(g, us)
    ensures LastDangles(g, us) ==> LastDangles(g, Pick(us, flags, false))
    ensures DanglingOnlyLast(g, us) && LastDangles(g, Pick(us, flags, false)) ==> LastDangles(g, us)
  {
    if us != [] {
      var u, rest := us[0], us[1..];
      LastKept(g, rest, flags);
      assert us == [u] + rest;
      ShapeConcat(g, [u], rest);
      AllOne(u, WellFormedIn(g));
      ShapeConcat(g, [u], Pick(rest, flags, false));
      if Dangling(g, u) { DanglingIsVerbatim(g, u); }
    }
  }

  lemma DanglingIsVerbatim(g: ArgGrammar, u: ArgUnit)
    requires WellFormed(g, u) && Dangling(g, u)
    ensures u.flag == None
  {
  }

  lemma SplitShape(g: ArgGrammar, x: seq<ArgUnit>, u: ArgUnit, y: seq<ArgUnit>)
    requires AllWellFormed(g, x + [u] + y) && DanglingOnlyLast(g, x + [u] + y)
    ensures AllWellFormed(g, x) && DanglingOnlyLast(g, x) && !LastDangles(g, x)
    ensures AllWellFormed(g, y) && DanglingOnlyLast(g, y)
  {
    ShapeConcat(g, x + [u], y);
    ShapeConcat(g, x, [u]);
  }

  lemma TokenShape(g: ArgGrammar, token: string)
    requires PlainToken(g, token)
    ensures var us := [Verbatim(token)];
      AllWellFormed(g, us) && DanglingOnlyLast(g, us) && !LastDangles(g, us)
  {
    NoSplit(token);
    AllOne(Verbatim(token), WellFormedIn(g));
  }

  lemma LiftedShape(g: ArgGrammar, flags: set<string>, token: string, us: seq<ArgUnit>)
    requires CanLift(g, flags, token) && AllWellFormed(g, us) && DanglingOnlyLast(g, us)
    ensures AllWellFormed(g, LiftedUnits(us, flags, token))
    ensures DanglingOnlyLast(g, LiftedUnits(us, flags, token)) <==> !UnitsMisread(g, flags, token, us)
  {
    PickShape(g, us, flags, false);
    PickShape(g, us, flags, true);
    RespellShape(g, Pick(us, flags, true), flags);
    LastKept(g, us, flags);
    JoinShape(g, Pick(us, flags, false), Respell(Pick(us, flags, true)), token);
  }

  lemma JoinShape(g: ArgGrammar, rest: seq<ArgUnit>, lifted: seq<ArgUnit>, token: string)
    requires PlainToken(g, token) && AllWellFormed(g, rest) && DanglingOnlyLast(g, rest)
    requires AllWellFormed(g, lifted) && DanglingOnlyLast(g, lifted) && !LastDangles(g, lifted)
    ensures var out := Before(rest, token) + lifted
        + (if HasToken(rest, token) then [Verbatim(token)] else []) + After(rest, token);
      && AllWellFormed(g, out)
      && (DanglingOnlyLast(g, out) <==> HasToken(rest, token) || lifted == [] || !LastDangles(g, rest))
  {
    var k := FirstToken(rest, token);
    if k < |rest| {
      var head, tail, stdio := rest[..k], rest[k + 1..], [Verbatim(token)];
      assert rest == head + [rest[k]] + tail;
      SplitShape(g, head, rest[k], tail);
      TokenShape(g, token);
      ShapeConcat(g, head, lifted);
      ShapeConcat(g, head + lifted, stdio);
      ShapeConcat(g, head + lifted + stdio, tail);
    } else {
      ShapeConcat(g, rest, lifted);
      assert Before(rest, token) == rest;
      assert rest + lifted + [] + [] == rest + lifted;
    }
  }

  /** The planned argv is read back as intended exactly outside that one case. */
  lemma LiftingPlanReadsBackIff(g: ArgGrammar, flags: set<string>, token: string, model: string, argv: seq<string>)
    requires CanLift(g, flags, token)
    ensures Parse(g, PlanLifting(g, flags, token, model, argv).argv) == LiftedUnits(Parse(g, argv), flags, token)
      <==> !Misreads(g, flags, token, argv)
  {
    ParseLossless(g, argv);
    LiftedShape(g, flags, token, Parse(g, argv));
    ReadBack(g, LiftedUnits(Parse(g, argv), flags, token));
  }

  /** Planning units that are already planned gives the same units. */
  lemma JoinAgain(rest: seq<ArgUnit>, lifted: seq<ArgUnit>, flags: set<string>, token: string)
    requires AllListed(rest, flags, false) && AllListed(lifted, flags, true) && Respell(lifted) == lifted
    ensures var out := Before(rest, token) + lifted
        + (if HasToken(rest, token) then [Verbatim(token)] else []) + After(rest, token);
      LiftedUnits(out, flags, token) == out && Pick(out, flags, true) == lifted
  {
    var k := FirstToken(rest, token);
    var a, d := Before(rest, token), After(rest, token);
    var c := if k < |rest| then [Verbatim(token)] else [];
    var out := a + lifted + c + d;
    AllConcat(rest[..k], rest[k..], Listing(flags, false));
    assert rest == rest[..k] + rest[k..];
    assert k < |rest| ==> rest[k..][1..] == d;
    AllOne(Verbatim(token), Listing(flags, false));
    assert AllListed(a, flags, false) && AllListed(c, flags, false) && AllListed(d, flags, false);
    JoinParts(a, lifted, c, d, flags);
    TokenAt(a, d, token, k < |rest|);
  }

  lemma JoinParts(a: seq<ArgUnit>, b: seq<ArgUnit>, c: seq<ArgUnit>, d: seq<ArgUnit>, flags: set<string>)
    requires AllListed(a, flags, false) && AllListed(b, flags, true) && AllListed(c, flags, false) && AllListed(d, flags, false)
    ensures Pick(a + b + c + d, flags, true) == b && Pick(a + b + c + d, flags, false) == a + c + d
  {
    JoinPart(a, b, c, d, flags, true);
    JoinPart(a, b, c, d, flags, false);
  }

  lemma JoinPart(a: seq<ArgUnit>, b: seq<ArgUnit>, c: seq<ArgUnit>, d: seq<ArgUnit>, flags: set<string>, wanted: bool)
    requires AllListed(a, flags, false) && AllListed(b, flags, true) && AllListed(c, flags, false) && AllListed(d, flags, false)
    ensures Pick(a + b + c + d, flags, wanted) == if wanted then b else a + c + d
  {
    PickUniform(a, flags, false, wanted);
    PickUniform(b, flags, true, wanted);
    PickUniform(c, flags, false, wanted);
    PickUniform(d, flags, false, wanted);
    FlatFour(a, b, c, d, Picker(flags, wanted));
    FourParts(a, b, c, d, Pick(a, flags, wanted), Pick(b, flags, wanted), Pick(c, flags, wanted), Pick(d, flags, wanted), wanted);
  }

  lemma FourParts<X>(a: seq<X>, b: seq<X>, c: seq<X>, d: seq<X>, pa: seq<X>, pb: seq<X>, pc: seq<X>, pd: seq<X>, wanted: bool)
    requires if wanted then pa == [] && pb == b && pc == [] && pd == [] else pa == a && pb == [] && pc == c && pd == d
    ensures pa + pb + pc + pd == if wanted then b else a + c + d
  {
  }

  lemma TokenAt(a: seq<ArgUnit>, d: seq<ArgUnit>, token: string, present: bool)
    requires forall i :: 0 <= i < |a| ==> !IsToken(a[i], token)
    requires !present ==> d == []
    ensures var us := a + (if present then [Verbatim(token)] else []) + d;
      HasToken(us, token) == present && Before(us, token) == a && After(us, token) == d
  {
    var us := a + (if present then [Verbatim(token)] else []) + d;
    assert forall i :: 0 <= i < |a| ==> us[i] == a[i];
    assert present ==> us[|a|] == Verbatim(token);
    TokenPosition(us, token, |a|);
  }

  /** Outside that case planning a planned argv again changes neither argv nor model. */
  lemma LiftingPlanIdempotent(g: ArgGrammar, flags: set<string>, token: string, model: string, argv: seq<string>)
    requires CanLift(g, flags, token) && model in flags && flags <= g.valueFlags
    requires !Misreads(g, flags, token, argv)
    ensures var plan := PlanLifting(g, flags, token, model, argv);
      PlanLifting(g, flags, token, model, plan.argv) == plan
  {
    var us := Parse(g, argv);
    LiftingPlanReadsBackIff(g, flags, token, model, argv);
    ParseLossless(g, argv);
    ValuedHasValue(g, us);
    LiftedAgain(g, flags, token, model, us);
  }

  lemma LiftedAgain(g: ArgGrammar, flags: set<string>, token: string, model: string, us: seq<ArgUnit>)
    requires CanLift(g, flags, token) && model in flags && AllWellFormed(g, us)
    requires forall i :: 0 <= i < |us| && Listed(us[i], flags) ==> us[i].value.Some?
    ensures var out := LiftedUnits(us, flags, token);
      LiftedUnits(out, flags, token) == out && LastValue(out, model) == LastValue(us, model)
  {
    var rest, picked, out := Pick(us, flags, false), Pick(us, flags, true), LiftedUnits(us, flags, token);
    PickShape(g, us, flags, false);
    PickShape(g, us, flags, true);
    RespellShape(g, picked, flags);
    JoinAgain(rest, Respell(picked), flags, token);
    LastValueOfPick(us, flags, true, model);
    LastValueOfPick(out, flags, true, model);
    PickedHaveValues(us, flags);
    LastValueOfRespell(picked, model);
  }

  lemma {:induction false} PickedHaveValues(us: seq<ArgUnit>, flags: set<string>)
    requires forall i :: 0 <= i < |us| && Listed(us[i], flags) ==> us[i].value.Some?
    ensures forall i :: 0 <= i < |Pick(us, flags, true)| ==>
      Pick(us, flags, true)[i].flag.Some? && Pick(us, flags, true)[i].value.Some?
  {
    if us != [] {
      PickedHaveValues(us[1..], flags);
      assert Pick(us, flags, true) == Picker(flags, true)(us[0]) + Pick(us[1..], flags, true);
    }
  }

  lemma {:induction false} LastValueOfRespell(us: seq<ArgUnit>, flag: string)
    requires forall i :: 0 <= i < |us| ==> us[i].flag.Some? && us[i].value.Some?
    ensures LastValue(Respell(us), flag) == LastValue(us, flag)
  {
    if us != [] {
      var init, u := us[..|us| - 1], us[|us| - 1];
      LastValueOfRespell(init, flag);
      assert us == init + [u];
      FlatSnoc(init, u, Respelled);
      LastValueSnoc(init, u, flag);
      LastValueSnoc(Respell(init), Valued(u.flag.value, u.value.value), flag);
    }
  }

  /** Nothing lifted stands behind the subcommand, and nothing else stands behind the lifted when there is none. */
  ghost predicate LiftedFirst(us: seq<ArgUnit>, flags: set<string>, token: string) {
    && (forall i, j :: 0 <= i < j < |us| && IsToken(us[i], token) ==> !Listed(us[j], flags))
    && ((exists i :: 0 <= i < |us| && IsToken(us[i], token))
        || forall i, j :: 0 <= i < j < |us| && Listed(us[i], flags) ==> Listed(us[j], flags))
  }

  lemma {:induction false} RespelledAt(us: seq<ArgUnit>, k: nat)
    requires k < |us| && us[k].flag.Some? && us[k].value.Some?
    ensures |Respell(us)| == |us|
    ensures Respell(us)[k] == ArgUnit([us[k].flag.value, us[k].value.value], us[k].flag, ValueUnit, us[k].flag, us[k].value)
    decreases k
  {
    RespellLength(us);
    if k > 0 { RespelledAt(us[1..], k - 1); }
  }

  lemma {:induction false} RespellLength(us: seq<ArgUnit>)
    ensures |Respell(us)| == |us|
    ensures forall i :: 0 <= i < |us| ==> Respell(us)[i].kind.ValueUnit?
  {
    if us != [] { RespellLength(us[1..]); }
  }

  /** What is not lifted keeps its order, the lifted flags keep theirs in front of the subcommand, and the model is the last. */
  lemma LiftingPlanIntends(g: ArgGrammar, flags: set<string>, token: string, model: string, argv: seq<string>)
    requires CanLift(g, flags, token)
    ensures var us := Parse(g, argv);
      var out, plan := LiftedUnits(us, flags, token), PlanLifting(g, flags, token, model, argv);
      && plan.argv == Flat(out, (u: ArgUnit) => u.tokens) && plan.model == LastValue(us, model)
      && Pick(out, flags, false) == Pick(us, flags, false)
      && Pick(out, flags, true) == Respell(Pick(us, flags, true))
      && LiftedFirst(out, flags, token)
  {
    var us := Parse(g, argv);
    var rest, picked := Pick(us, flags, false), Respell(Pick(us, flags, true));
    ParseLossless(g, argv);
    PickShape(g, us, flags, false);
    PickShape(g, us, flags, true);
    RespellShape(g, Pick(us, flags, true), flags);
    RespellLength(Pick(us, flags, true));
    SameFlat(LiftedUnits(us, flags, token), TokensOf, (u: ArgUnit) => u.tokens);
    IntendsParts(g, rest, picked, flags, token);
  }

  lemma {:induction false} SameFlat<X, Y>(xs: seq<X>, f: X -> seq<Y>, h: X -> seq<Y>)
    requires forall x :: f(x) == h(x)
    ensures Flat(xs, f) == Flat(xs, h)
  {
    if xs != [] { SameFlat(xs[1..], f, h); }
  }

  lemma ListedEach(us: seq<ArgUnit>, flags: set<string>, listed: bool)
    requires AllListed(us, flags, listed)
    ensures forall i :: 0 <= i < |us| ==> Listed(us[i], flags) == listed
  {
    forall i | 0 <= i < |us| ensures Listed(us[i], flags) == listed {
      AllAt(us, Listing(flags, listed), i);
    }
  }

  lemma FourInOrder(a: seq<ArgUnit>, b: seq<ArgUnit>, c: seq<ArgUnit>, d: seq<ArgUnit>, flags: set<string>, token: string)
    requires forall i :: 0 <= i < |a| ==> !Listed(a[i], flags) && !IsToken(a[i], token)
    requires forall i :: 0 <= i < |b| ==> Listed(b[i], flags) && !IsToken(b[i], token)
    requires (c == [] && d == []) || (|c| == 1 && IsToken(c[0], token) && !Listed(c[0], flags))
    requires forall i :: 0 <= i < |d| ==> !Listed(d[i], flags)
    ensures LiftedFirst(a + b + c + d, flags, token)
  {
    var us, n := a + b + c + d, |a| + |b|;
    assert forall i :: 0 <= i < |a| ==> us[i] == a[i];
    assert forall i :: |a| <= i < n ==> us[i] == b[i - |a|];
    assert forall i :: n + |c| <= i < |us| ==> us[i] == d[i - n - |c|];
    assert c != [] ==> us[n] == c[0];
  }

  /** The units around the subcommand. */
  lemma AroundToken(g: ArgGrammar, rest: seq<ArgUnit>, flags: set<string>, token: string)
    requires AllListed(rest, flags, false) && AllWellFormed(g, rest)
    ensures var a, d := Before(rest, token), After(rest, token);
      var c := if HasToken(rest, token) then [Verbatim(token)] else [];
      && a + c + d == rest && (c == [] ==> d == [])
      && AllListed(a, flags, false) && AllListed(c, flags, false) && AllListed(d, flags, false)
  {
    var k := FirstToken(rest, token);
    if k < |rest| {
      TokenIsVerbatim(g, rest, token, k);
      var a, c, d := rest[..k], [rest[k]], rest[k + 1..];
      assert a + c + d == rest;
      AllConcat(a + c, d, Listing(flags, false));
      AllConcat(a, c, Listing(flags, false));
    } else {
      assert rest[..k] == rest && rest + [] + [] == rest;
    }
  }

  lemma IntendsParts(g: ArgGrammar, rest: seq<ArgUnit>, lifted: seq<ArgUnit>, flags: set<string>, token: string)
    requires AllListed(rest, flags, false) && AllListed(lifted, flags, true) && AllWellFormed(g, rest)
    requires forall i :: 0 <= i < |lifted| ==> lifted[i].kind.ValueUnit?
    ensures var out := Before(rest, token) + lifted
        + (if HasToken(rest, token) then [Verbatim(token)] else []) + After(rest, token);
      Pick(out, flags, false) == rest && Pick(out, flags, true) == lifted && LiftedFirst(out, flags, token)
  {
    var a, d := Before(rest, token), After(rest, token);
    var c := if HasToken(rest, token) then [Verbatim(token)] else [];
    AroundToken(g, rest, flags, token);
    JoinParts(a, lifted, c, d, flags);
    ListedEach(a, flags, false);
    ListedEach(lifted, flags, true);
    ListedEach(c, flags, false);
    ListedEach(d, flags, false);
    FourInOrder(a, lifted, c, d, flags, token);
  }

  lemma TokenIsVerbatim(g: ArgGrammar, us: seq<ArgUnit>, token: string, k: nat)
    requires AllWellFormed(g, us) && k < |us| && IsToken(us[k], token)
    ensures us[k] == Verbatim(token)
  {
    AllAt(us, WellFormedIn(g), k);
  }

  lemma GrokCanLift()
    ensures CanLift(GROK, GROK_LIFTED, "stdio") && "--model" in GROK_LIFTED && GROK_LIFTED <= GROK.valueFlags
  {
    assert "stdio"[0] == 's';
    assert "--model"[2] == 'm' && "--effort"[2] == 'e';
    assert "-m"[1] == 'm' && "--reasoning-effort"[2] == 'r';
  }

  /** For every argv: the grok plan reads back as intended iff it does not misread, and then it is idempotent. */
  lemma GrokPlanSound(argv: seq<string>)
    ensures Parse(GROK, PlanGrok(argv).argv) == LiftedUnits(Parse(GROK, argv), GROK_LIFTED, "stdio")
      <==> !Misreads(GROK, GROK_LIFTED, "stdio", argv)
    ensures !Misreads(GROK, GROK_LIFTED, "stdio", argv) ==> PlanGrok(PlanGrok(argv).argv) == PlanGrok(argv)
  {
    GrokCanLift();
    LiftingPlanReadsBackIff(GROK, GROK_LIFTED, "stdio", "--model", argv);
    if !Misreads(GROK, GROK_LIFTED, "stdio", argv) {
      LiftingPlanIdempotent(GROK, GROK_LIFTED, "stdio", "--model", argv);
    }
  }

  /** `--effort high --debug-file`: the missing file name is filled with the lifted `--effort`. */
  lemma GrokPlanMisreadsExample()
    ensures var argv := ["--effort", "high", "--debug-file"];
      && Misreads(GROK, GROK_LIFTED, "stdio", argv)
      && PlanGrok(argv).argv == ["--debug-file", "--effort", "high"]
  {
    var e, h, d := "--effort", "high", "--debug-file";
    var flags := GROK_LIFTED;
    GrokCanLift();
    assert e in flags && e in GROK.valueFlags && d in GROK.valueFlags;
    assert d !in flags && d !in GROK.aliases by { assert d[2] == 'd' && "--reasoning-effort"[2] == 'r'; }
    MisreadsExample(GROK, flags, "stdio", "--model", e, h, d);
  }

  lemma MisreadsExample(g: ArgGrammar, flags: set<string>, token: string, model: string, e: string, h: string, d: string)
    requires CanLift(g, flags, token) && e in flags && d !in flags && PlainFlag(g, d) && token != d
    ensures Misreads(g, flags, token, [e, h, d])
    ensures PlanLifting(g, flags, token, model, [e, h, d]).argv == [d, e, h]
  {
    ParsePair(g, e, h, [d]);
    ParseSingle(g, d);
    NoSplit(d);
    var us := [Valued(e, h), Verbatim(d)];
    assert [e, h] + [d] == [e, h, d];
    assert Parse(g, [e, h, d]) == us;
    FlatTwo(Valued(e, h), Verbatim(d), Picker(flags, true));
    FlatTwo(Valued(e, h), Verbatim(d), Picker(flags, false));
    FlatOne(Valued(e, h), Respelled);
    assert LiftedUnits(us, flags, token) == [Verbatim(d), Valued(e, h)];
    FlatTwo(Verbatim(d), Valued(e, h), TokensOf);
  }
}
