/** The muse spawn plan: v2/adapters/src/args.ts. */
module MusePlan {
  import opened Wrappers
  import opened Lists
  import opened Ordered
  import opened Args
  import opened SpawnPlans

  // ------------------------------------------------------------------
  // Data model
  // ------------------------------------------------------------------

  datatype ApprovalMode = AllowAll | OnRequest | PromptUnmatched

  datatype PlanError = BadEffort | BadApproval

  datatype Plan = Plan(argv: seq<string>, model: Option<string>, effort: Option<string>, approval: ApprovalMode)

  /** The flags that are sent on the wire instead of argv, and the switches that `yolo` stands for. */
  datatype Wire = Wire(
    model: string,
    effort: string,
    approval: string,
    disable: string,
    yolo: string,
    switches: seq<string>,
    efforts: set<string>,
    modes: map<string, ApprovalMode>)

  const MUSE_WIRE: Wire := Wire("--model", "--effort", "--approval-mode", "--disable-approval", "--yolo",
    ["--disable-sandbox", "--trust-workspace"],
    {"none", "minimal", "low", "medium", "high", "xhigh", "max", "ultra"},
    map["never" := AllowAll, "on-request" := OnRequest, "untrusted" := PromptUnmatched])

  function Flags(w: Wire): set<string> {
    {w.model, w.effort, w.approval, w.disable, w.yolo}
  }

  predicate PlainSwitch(g: ArgGrammar, flag: string) {
    && '=' !in flag && flag !in g.aliases && (forall k :: k in g.aliases ==> g.aliases[k] != flag)
    && flag in g.booleanFlags && flag !in g.valueFlags && flag !in g.keyedFlags
  }

  /** Three valued flags, and plain switches, all different. */
  ghost predicate Fits(g: ArgGrammar, w: Wire) {
    && {w.model, w.effort, w.approval} <= g.valueFlags
    && w.model != w.effort && w.approval !in {w.model, w.effort} && w.yolo != w.disable
    && PlainSwitch(g, w.disable) && PlainSwitch(g, w.yolo)
    && Distinct(w.switches) && forall f :: f in w.switches ==> PlainSwitch(g, f) && f !in Flags(w)
  }

  // ------------------------------------------------------------------
  // What the units set
  // ------------------------------------------------------------------

  predicate Sets(u: ArgUnit, flag: string) {
    u.flag == Some(flag) && u.value.Some?
  }

  predicate Given(us: seq<ArgUnit>, flag: string) {
    exists i :: 0 <= i < |us| && us[i].flag == Some(flag)
  }

  function Fault(w: Wire, u: ArgUnit): Option<PlanError> {
    if Sets(u, w.effort) && u.value.value !in w.efforts then Some(BadEffort)
    else if Sets(u, w.approval) && u.value.value !in w.modes then Some(BadApproval)
    else None
  }

  /** The fault of the first unit that has one. */
  function FirstFault(w: Wire, us: seq<ArgUnit>): Option<PlanError> {
    if us == [] then None
    else
      var before := FirstFault(w, us[..|us| - 1]);
      if before.Some? then before else Fault(w, us[|us| - 1])
  }

  /** The mode that the last approval flag sets. */
  function Approval(w: Wire, us: seq<ArgUnit>): ApprovalMode {
    if us == [] then AllowAll
    else
      var u := us[|us| - 1];
      if Sets(u, w.approval) && u.value.value in w.modes then w.modes[u.value.value]
      else if u.flag == Some(w.disable) then AllowAll
      else Approval(w, us[..|us| - 1])
  }

  /** The flags that are not among the tokens. */
  function Missing(flags: seq<string>, tokens: seq<string>): seq<string> {
    if flags == [] then []
    else (if flags[0] in tokens then [] else [flags[0]]) + Missing(flags[1..], tokens)
  }

  function NonEmpty(o: Option<string>): Option<string> {
    if o == Some("") then None else o
  }

  function Kept(w: Wire, us: seq<ArgUnit>): seq<ArgUnit> {
    Pick(us, Flags(w), false)
  }

  function Added(w: Wire, us: seq<ArgUnit>): seq<string> {
    if Given(us, w.yolo) then Missing(w.switches, Print(Kept(w, us))) else []
  }

  function PlanUnits(w: Wire, us: seq<ArgUnit>): Result<Plan, PlanError> {
    if FirstFault(w, us).Some? then Err(FirstFault(w, us).value)
    else Ok(Plan(
      Print(Kept(w, us)) + Added(w, us),
      NonEmpty(LastValue(us, w.model)),
      LastValue(us, w.effort),
      if Given(us, w.yolo) then AllowAll else Approval(w, us)))
  }

  function PlanWire(g: ArgGrammar, w: Wire, argv: seq<string>): Result<Plan, PlanError> {
    PlanUnits(w, Parse(g, argv))
  }

  lemma {:induction false} FirstFaultStays(w: Wire, us: seq<ArgUnit>, i: nat)
    requires i <= |us| && FirstFault(w, us[..i]).Some?
    ensures FirstFault(w, us) == FirstFault(w, us[..i])
    decreases |us|
  {
    if i < |us| {
      assert us[..|us| - 1][..i] == us[..i];
      FirstFaultStays(w, us[..|us| - 1], i);
    } else {
      assert us[..i] == us;
    }
  }

  lemma SettingsNext(w: Wire, us: seq<ArgUnit>, i: nat)
    requires i < |us|
    ensures FirstFault(w, us[..i + 1]) ==
      if FirstFault(w, us[..i]).Some? then FirstFault(w, us[..i]) else Fault(w, us[i])
    ensures Approval(w, us[..i + 1]) ==
      if Sets(us[i], w.approval) && us[i].value.value in w.modes then w.modes[us[i].value.value]
      else if us[i].flag == Some(w.disable) then AllowAll
      else Approval(w, us[..i])
    ensures Given(us[..i + 1], w.yolo) <==> Given(us[..i], w.yolo) || us[i].flag == Some(w.yolo)
  {
    var more := us[..i + 1];
    assert more[..i] == us[..i] && more[i] == us[i];
    if Given(us[..i], w.yolo) {
      var j :| 0 <= j < i && us[..i][j].flag == Some(w.yolo);
      assert more[j].flag == Some(w.yolo);
    }
  }

  /** What the units read so far amount to. */
  datatype Taken = Taken(
    out: seq<string>, model: Option<string>, effort: Option<string>, approval: ApprovalMode, yolo: bool)

  function TakenFrom(w: Wire, us: seq<ArgUnit>): Taken {
    Taken(Print(Kept(w, us)), LastValue(us, w.model), LastValue(us, w.effort), Approval(w, us), Given(us, w.yolo))
  }

  function TakenNext(w: Wire, t: Taken, u: ArgUnit): Taken {
    Taken(
      if Listed(u, Flags(w)) then t.out else t.out + u.tokens,
      if Sets(u, w.model) then u.value else t.model,
      if Sets(u, w.effort) then u.value else t.effort,
      if Sets(u, w.approval) && u.value.value in w.modes then w.modes[u.value.value]
      else if u.flag == Some(w.disable) then AllowAll
      else t.approval,
      t.yolo || u.flag == Some(w.yolo))
  }

  lemma UnitNext(w: Wire, us: seq<ArgUnit>, i: nat)
    requires i < |us| && FirstFault(w, us[..i]).None?
    ensures TakenFrom(w, us[..i + 1]) == TakenNext(w, TakenFrom(w, us[..i]), us[i])
    ensures FirstFault(w, us[..i + 1]) == Fault(w, us[i])
    ensures Fault(w, us[i]).Some? ==> FirstFault(w, us) == Fault(w, us[i])
  {
    var kept := Kept(w, us[..i]);
    PickNext(us, i, Flags(w), false, kept);
    LastValueNext(us, i, w.model);
    LastValueNext(us, i, w.effort);
    SettingsNext(w, us, i);
    FlatSnoc(kept, us[i], TokensOf);
    if Fault(w, us[i]).Some? { FirstFaultStays(w, us, i + 1); }
  }

  /** The flags of the wire are told apart, and the unit of a valued one has its value. */
  predicate Clear(w: Wire, u: ArgUnit) {
    && w.model != w.effort && w.approval !in {w.model, w.effort}
    && w.disable !in {w.model, w.effort, w.approval} && w.yolo !in {w.model, w.effort, w.approval, w.disable}
    && (u.flag.Some? && u.flag.value in {w.model, w.effort, w.approval} ==> u.value.Some?)
  }

  lemma UnitsClear(g: ArgGrammar, w: Wire, us: seq<ArgUnit>)
    requires Fits(g, w) && AllWellFormed(g, us)
    ensures forall i :: 0 <= i < |us| ==> Clear(w, us[i])
  {
    ValuedHasValue(g, us);
  }

  /** One round of the loop: a unit is read as a setting or stays on argv. */
  method TakeUnit(w: Wire, t: Taken, u: ArgUnit) returns (r: Result<Taken, PlanError>)
    requires Clear(w, u)
    ensures r == if Fault(w, u).Some? then Err(Fault(w, u).value) else Ok(TakenNext(w, t, u))
  {
    if u.flag == Some(w.model) && u.value.Some? {
      return Ok(t.(model := u.value));
    } else if u.flag == Some(w.effort) && u.value.Some? {
      if u.value.value !in w.efforts {
        return Err(BadEffort);
      }
      return Ok(t.(effort := u.value));
    } else if u.flag == Some(w.approval) && u.value.Some? {
      if u.value.value !in w.modes {
        return Err(BadApproval);
      }
      return Ok(t.(approval := w.modes[u.value.value]));
    } else if u.flag == Some(w.disable) {
      return Ok(t.(approval := AllowAll));
    } else if u.flag == Some(w.yolo) {
      return Ok(t.(yolo := true));
    } else {
      return Ok(t.(out := t.out + u.tokens));
    }
  }

  method LiftSettings(g: ArgGrammar, w: Wire, argv: seq<string>) returns (plan: Result<Plan, PlanError>)
    requires Fits(g, w)
    ensures plan == PlanWire(g, w, argv)
  {
    var us := ParseArgUnits(g, argv);
    ParseLossless(g, argv);
    UnitsClear(g, w, us);
    var t := Taken([], None, None, AllowAll, false);
    for i := 0 to |us|
      invariant t == TakenFrom(w, us[..i]) && FirstFault(w, us[..i]).None?
    {
      UnitNext(w, us, i);
      var r := TakeUnit(w, t, us[i]);
      if r.Err? {
        return Err(r.error);
      }
      t := r.value;
    }
    assert us[..|us|] == us;
    var out, approval := t.out, t.approval;
    if t.yolo {
      approval := AllowAll;
      out := out + Missing(w.switches, out);
    }
    assert t.out + [] == t.out;
    plan := Ok(Plan(out, NonEmpty(t.model), t.effort, approval));
  }

  // ------------------------------------------------------------------
  // Reading the planned argv back
  // ------------------------------------------------------------------

  function Switch(flag: string): ArgUnit {
    ArgUnit([flag], Some(flag), BooleanUnit, Some(flag), None)
  }

  function Switches(flags: seq<string>): seq<ArgUnit> {
    if flags == [] then [] else [Switch(flags[0])] + Switches(flags[1..])
  }

  /** What the plan intends the harness to read. */
  function Intended(w: Wire, us: seq<ArgUnit>): seq<ArgUnit> {
    Kept(w, us) + Switches(Added(w, us))
  }

  /** `yolo` adds a switch right after a flag that misses its value. */
  predicate Swallows(g: ArgGrammar, w: Wire, us: seq<ArgUnit>) {
    Added(w, us) != [] && LastDangles(g, us)
  }

  lemma {:induction false} MissingMembers(flags: seq<string>, tokens: seq<string>)
    requires Distinct(flags)
    ensures Distinct(Missing(flags, tokens))
    ensures forall f :: f in Missing(flags, tokens) <==> f in flags && f !in tokens
  {
    if flags != [] {
      assert Distinct(flags[1..]);
      MissingMembers(flags[1..], tokens);
      var rest := Missing(flags[1..], tokens);
      assert flags == [flags[0]] + flags[1..];
      assert flags[0] !in flags[1..];
      assert forall f :: f in [flags[0]] + rest <==> f == flags[0] || f in rest;
    }
  }

  lemma {:induction false} SwitchesAre(flags: seq<string>)
    ensures var us := Switches(flags);
      |us| == |flags| && (forall i :: 0 <= i < |us| ==> us[i] == Switch(flags[i])) && Print(us) == flags
  {
    if flags != [] {
      var u := Switch(flags[0]);
      SwitchesAre(flags[1..]);
      FlatConcat([u], Switches(flags[1..]), TokensOf);
      FlatOne(u, TokensOf);
    }
  }

  lemma {:induction false} SwitchesFormed(g: ArgGrammar, flags: seq<string>)
    requires forall f :: f in flags ==> PlainSwitch(g, f)
    ensures var us := Switches(flags); AllWellFormed(g, us) && DanglingOnlyLast(g, us) && !LastDangles(g, us)
  {
    if flags != [] {
      var u := Switch(flags[0]);
      assert PlainSwitch(g, flags[0]);
      SwitchesFormed(g, flags[1..]);
      NoSplit(flags[0]);
      AllOne(u, WellFormedIn(g));
      ShapeConcat(g, [u], Switches(flags[1..]));
    }
  }

  lemma SwitchesShape(g: ArgGrammar, flags: seq<string>)
    requires forall f :: f in flags ==> PlainSwitch(g, f)
    ensures var us := Switches(flags);
      && |us| == |flags| && (forall i :: 0 <= i < |us| ==> us[i] == Switch(flags[i])) && Print(us) == flags
      && AllWellFormed(g, us) && DanglingOnlyLast(g, us) && !LastDangles(g, us)
  {
    SwitchesAre(flags);
    SwitchesFormed(g, flags);
  }

  lemma {:induction false} AllListedAt(us: seq<ArgUnit>, flags: set<string>)
    requires forall i :: 0 <= i < |us| ==> !Listed(us[i], flags)
    ensures AllListed(us, flags, false)
  {
    if us != [] { AllListedAt(us[1..], flags); }
  }

  /** The switches that a plan adds, and what it keeps, are flags of their own. */
  lemma AddedShape(g: ArgGrammar, w: Wire, us: seq<ArgUnit>)
    requires Fits(g, w)
    ensures var added := Added(w, us);
      && Distinct(added) && (forall f :: f in added ==> PlainSwitch(g, f) && f !in Flags(w))
      && (Given(us, w.yolo) ==> forall f :: f in added <==> f in w.switches && f !in Print(Kept(w, us)))
  {
    MissingMembers(w.switches, Print(Kept(w, us)));
  }

  lemma PlannedTokens(g: ArgGrammar, w: Wire, us: seq<ArgUnit>)
    requires Fits(g, w)
    ensures Print(Intended(w, us)) == Print(Kept(w, us)) + Added(w, us)
  {
    AddedShape(g, w, us);
    SwitchesShape(g, Added(w, us));
    FlatConcat(Kept(w, us), Switches(Added(w, us)), TokensOf);
  }

  /** The planned argv is read back as intended exactly when it swallows no switch. */
  lemma WirePlanReadsBackIff(g: ArgGrammar, w: Wire, argv: seq<string>)
    requires Fits(g, w) && PlanWire(g, w, argv).Ok?
    ensures Parse(g, PlanWire(g, w, argv).value.argv) == Intended(w, Parse(g, argv))
      <==> !Swallows(g, w, Parse(g, argv))
  {
    var us := Parse(g, argv);
    ParseLossless(g, argv);
    PickShape(g, us, Flags(w), false);
    LastKept(g, us, Flags(w));
    AddedShape(g, w, us);
    SwitchesShape(g, Added(w, us));
    ShapeConcat(g, Kept(w, us), Switches(Added(w, us)));
    PlannedTokens(g, w, us);
    ReadBack(g, Intended(w, us));
  }

  /** What is read instead: the flag without value takes the first switch as its value. */
  function Swallowed(g: ArgGrammar, w: Wire, us: seq<ArgUnit>): seq<ArgUnit>
    requires Kept(w, us) != [] && Added(w, us) != []
  {
    var kept, added := Kept(w, us), Added(w, us);
    var last := kept[|kept| - 1];
    kept[..|kept| - 1] + [Take(g, last.tokens + [added[0]])] + Switches(added[1..])
  }

  lemma SwallowsKept(g: ArgGrammar, w: Wire, us: seq<ArgUnit>)
    requires Fits(g, w) && AllWellFormed(g, us) && DanglingOnlyLast(g, us) && Swallows(g, w, us)
    ensures var kept := Kept(w, us);
      && kept != [] && AllWellFormed(g, kept) && DanglingOnlyLast(g, kept) && LastDangles(g, kept)
      && WellFormed(g, kept[|kept| - 1]) && Dangling(g, kept[|kept| - 1])
  {
    var kept := Kept(w, us);
    PickShape(g, us, Flags(w), false);
    LastKept(g, us, Flags(w));
    AllAt(kept, WellFormedIn(g), |kept| - 1);
  }

  /** The unit that swallows: a flag with the switch as its value. */
  lemma SwallowingUnit(g: ArgGrammar, u: ArgUnit, f: string)
    requires WellFormed(g, u) && Dangling(g, u)
    ensures var m := Take(g, u.tokens + [f]);
      && m.tokens == u.tokens + [f] && m.flag == Some(Canon(g, u.tokens[0])) && m.value == Some(f)
      && !m.kind.BooleanUnit? && WellFormed(g, m) && !Dangling(g, m)
  {
    var argv := u.tokens + [f];
    assert argv == [u.tokens[0], f] && argv[..2] == argv;
    TakeIsWellFormed(g, argv);
  }

  lemma SwallowedReading(g: ArgGrammar, w: Wire, us: seq<ArgUnit>)
    requires Fits(g, w) && AllWellFormed(g, us) && DanglingOnlyLast(g, us) && Swallows(g, w, us)
    ensures Kept(w, us) != []
    ensures Parse(g, Print(Kept(w, us)) + Added(w, us)) == Swallowed(g, w, us)
  {
    SwallowsKept(g, w, us);
    AddedShape(g, w, us);
    LastSwallows(g, Kept(w, us), Added(w, us));
  }

  lemma LastSwallows(g: ArgGrammar, kept: seq<ArgUnit>, added: seq<string>)
    requires kept != [] && AllWellFormed(g, kept) && DanglingOnlyLast(g, kept)
    requires WellFormed(g, kept[|kept| - 1]) && Dangling(g, kept[|kept| - 1])
    requires added != [] && forall f :: f in added ==> PlainSwitch(g, f)
    ensures var m := Take(g, kept[|kept| - 1].tokens + [added[0]]);
      Parse(g, Print(kept) + added) == kept[..|kept| - 1] + [m] + Switches(added[1..])
  {
    var init, last := kept[..|kept| - 1], kept[|kept| - 1];
    assert kept == init + [last];
    SwallowingUnit(g, last, added[0]);
    ReadsSwallowed(g, init, last, Take(g, last.tokens + [added[0]]), added);
  }

  lemma ReadsSwallowed(g: ArgGrammar, init: seq<ArgUnit>, last: ArgUnit, m: ArgUnit, added: seq<string>)
    requires added != [] && forall f :: f in added ==> PlainSwitch(g, f)
    requires AllWellFormed(g, init + [last]) && DanglingOnlyLast(g, init + [last])
    requires WellFormed(g, m) && !Dangling(g, m) && m.tokens == last.tokens + [added[0]]
    ensures Parse(g, Print(init + [last]) + added) == init + [m] + Switches(added[1..])
  {
    SwitchesShape(g, added[1..]);
    ShapeConcat(g, init, [last]);
    MiddleReadsBack(g, init, m, Switches(added[1..]));
    MiddlePrinted(init, last, m, Switches(added[1..]), added);
  }

  lemma MiddleReadsBack(g: ArgGrammar, x: seq<ArgUnit>, m: ArgUnit, y: seq<ArgUnit>)
    requires AllWellFormed(g, x) && DanglingOnlyLast(g, x) && !LastDangles(g, x)
    requires WellFormed(g, m) && !Dangling(g, m) && AllWellFormed(g, y) && DanglingOnlyLast(g, y)
    ensures Parse(g, Print(x + [m] + y)) == x + [m] + y
  {
    AllOne(m, WellFormedIn(g));
    ShapeConcat(g, x, [m]);
    ShapeConcat(g, x + [m], y);
    ReadBack(g, x + [m] + y);
  }

  lemma MiddlePrinted(x: seq<ArgUnit>, last: ArgUnit, m: ArgUnit, y: seq<ArgUnit>, added: seq<string>)
    requires added != [] && m.tokens == last.tokens + [added[0]] && Print(y) == added[1..]
    ensures Print(x + [m] + y) == Print(x + [last]) + added
  {
    FlatSnoc(x, last, TokensOf);
    FlatSnoc(x, m, TokensOf);
    FlatConcat(x + [m], y, TokensOf);
    assert Print(x) + (last.tokens + [added[0]]) + added[1..] == Print(x) + last.tokens + added;
  }

  // ------------------------------------------------------------------
  // Whether `yolo` takes effect
  // ------------------------------------------------------------------

  /** The switch is read as a switch. */
  predicate On(us: seq<ArgUnit>, flag: string) {
    exists i :: 0 <= i < |us| && us[i].kind.BooleanUnit? && us[i].flag == Some(flag)
  }

  lemma OnConcat(x: seq<ArgUnit>, y: seq<ArgUnit>, flag: string)
    ensures On(x + y, flag) <==> On(x, flag) || On(y, flag)
  {
    if On(x, flag) {
      var i :| 0 <= i < |x| && x[i].kind.BooleanUnit? && x[i].flag == Some(flag);
      assert (x + y)[i] == x[i];
    }
    if On(y, flag) {
      var i :| 0 <= i < |y| && y[i].kind.BooleanUnit? && y[i].flag == Some(flag);
      assert (x + y)[|x| + i] == y[i];
    }
  }

  /** A switch that is on stands among the tokens. */
  lemma {:induction false} OnIsPrinted(g: ArgGrammar, us: seq<ArgUnit>, flag: string)
    requires AllWellFormed(g, us) && PlainSwitch(g, flag) && On(us, flag)
    ensures flag in Print(us)
  {
    var i :| 0 <= i < |us| && us[i].kind.BooleanUnit? && us[i].flag == Some(flag);
    AllAt(us, WellFormedIn(g), i);
    assert us[i] == Take(g, us[i].tokens);
    assert us[i].tokens == [flag];
    PrintedAt(us, i, 0);
  }

  lemma {:induction false} PrintedAt(us: seq<ArgUnit>, i: nat, j: nat)
    requires i < |us| && j < |us[i].tokens|
    ensures us[i].tokens[j] in Print(us)
  {
    if i > 0 { PrintedAt(us[1..], i - 1, j); }
  }

  lemma OnSwitches(g: ArgGrammar, flags: seq<string>, flag: string)
    requires forall f :: f in flags ==> PlainSwitch(g, f)
    ensures On(Switches(flags), flag) <==> flag in flags
  {
    SwitchesShape(g, flags);
    if flag in flags {
      var i :| 0 <= i < |flags| && flags[i] == flag;
      assert Switches(flags)[i] == Switch(flag);
    }
  }

  /** Every switch that `yolo` stands for is read as one by the harness. */
  ghost predicate TakesEffect(g: ArgGrammar, w: Wire, argv: seq<string>) {
    forall f :: f in w.switches ==> On(Parse(g, argv), f)
  }

  /** No switch is among the kept tokens only as a value or as other text. */
  ghost predicate NoneHidden(w: Wire, us: seq<ArgUnit>) {
    forall f :: f in w.switches && f in Print(Kept(w, us)) ==> On(Kept(w, us), f)
  }

  lemma IntendedOn(g: ArgGrammar, w: Wire, us: seq<ArgUnit>, f: string)
    requires Fits(g, w) && Given(us, w.yolo) && f in w.switches
    ensures On(Intended(w, us), f) <==> (f in Print(Kept(w, us)) ==> On(Kept(w, us), f))
  {
    AddedShape(g, w, us);
    OnConcat(Kept(w, us), Switches(Added(w, us)), f);
    OnSwitches(g, Added(w, us), f);
  }

  /** The switch that is swallowed is off. */
  lemma SwallowedOff(g: ArgGrammar, w: Wire, us: seq<ArgUnit>)
    requires Fits(g, w) && AllWellFormed(g, us) && DanglingOnlyLast(g, us) && Swallows(g, w, us)
    ensures Kept(w, us) != [] && Added(w, us)[0] in w.switches && !On(Swallowed(g, w, us), Added(w, us)[0])
  {
    SwallowsKept(g, w, us);
    AddedShape(g, w, us);
    assert Added(w, us)[0] in Added(w, us);
    FirstOff(g, Kept(w, us), Added(w, us));
  }

  lemma FirstOff(g: ArgGrammar, kept: seq<ArgUnit>, added: seq<string>)
    requires kept != [] && AllWellFormed(g, kept) && added != [] && added[0] !in Print(kept)
    requires WellFormed(g, kept[|kept| - 1]) && Dangling(g, kept[|kept| - 1])
    requires Distinct(added) && forall f :: f in added ==> PlainSwitch(g, f)
    ensures var n := |kept| - 1;
      !On(kept[..n] + [Take(g, kept[n].tokens + [added[0]])] + Switches(added[1..]), added[0])
  {
    var n, f := |kept| - 1, added[0];
    assert f in added && f !in added[1..];
    assert kept == kept[..n] + [kept[n]];
    if On(kept, f) { OnIsPrinted(g, kept, f); }
    OnSwitches(g, added[1..], f);
    SwallowingUnit(g, kept[n], f);
    MiddleOff(kept[..n], kept[n], Take(g, kept[n].tokens + [f]), Switches(added[1..]), f);
  }

  lemma MiddleOff(x: seq<ArgUnit>, last: ArgUnit, m: ArgUnit, y: seq<ArgUnit>, f: string)
    requires !On(x + [last], f) && !m.kind.BooleanUnit? && !On(y, f)
    ensures !On(x + [m] + y, f)
  {
    OnConcat(x, [last], f);
    OnConcat(x, [m], f);
    OnConcat(x + [m], y, f);
  }

  /**
   * A plan with `yolo` turns on every switch that it stands for if and only if argv
   * does not end in a flag without value to swallow an added one, and none is hidden
   * from the addition by its text standing elsewhere on argv.
   */
  lemma YoloTakesEffectIff(g: ArgGrammar, w: Wire, argv: seq<string>)
    requires Fits(g, w) && Given(Parse(g, argv), w.yolo) && PlanWire(g, w, argv).Ok?
    ensures TakesEffect(g, w, PlanWire(g, w, argv).value.argv)
      <==> !Swallows(g, w, Parse(g, argv)) && NoneHidden(w, Parse(g, argv))
  {
    var us := Parse(g, argv);
    ParseLossless(g, argv);
    if Swallows(g, w, us) {
      SwallowedReading(g, w, us);
      SwallowedOff(g, w, us);
    } else {
      WirePlanReadsBackIff(g, w, argv);
      forall f | f in w.switches
        ensures On(Intended(w, us), f) <==> (f in Print(Kept(w, us)) ==> On(Kept(w, us), f))
      {
        IntendedOn(g, w, us, f);
      }
    }
  }

  // ------------------------------------------------------------------
  // Planning a planned argv
  // ------------------------------------------------------------------

  lemma {:induction false} NothingSet(w: Wire, us: seq<ArgUnit>)
    requires AllListed(us, Flags(w), false)
    ensures FirstFault(w, us).None? && Approval(w, us) == AllowAll && !Given(us, w.yolo)
    ensures LastValue(us, w.model) == LastValue(us, w.effort) == None
    decreases |us|
  {
    if us != [] {
      var init, u := us[..|us| - 1], us[|us| - 1];
      AllAt(us, Listing(Flags(w), false), |us| - 1);
      assert us == init + [u];
      AllConcat(init, [u], Listing(Flags(w), false));
      NothingSet(w, init);
      SettingsNext(w, us, |init|);
      assert us[..|init| + 1] == us;
    }
  }

  /** The argv sets nothing and is left as it is. */
  ghost predicate Settled(g: ArgGrammar, w: Wire, argv: seq<string>) {
    PlanWire(g, w, argv) == Ok(Plan(argv, None, None, AllowAll))
  }

  lemma UnlistedSettles(g: ArgGrammar, w: Wire, argv: seq<string>)
    requires AllListed(Parse(g, argv), Flags(w), false)
    ensures Settled(g, w, argv)
  {
    ParseLossless(g, argv);
    NothingSet(w, Parse(g, argv));
    PickUniform(Parse(g, argv), Flags(w), false, false);
    assert argv + [] == argv;
  }

  lemma IntendedUnlisted(g: ArgGrammar, w: Wire, us: seq<ArgUnit>)
    requires Fits(g, w)
    ensures AllListed(Intended(w, us), Flags(w), false)
  {
    AddedShape(g, w, us);
    PickListed(us, Flags(w), false);
    SwitchesUnlisted(g, w, Added(w, us));
    AllConcat(Kept(w, us), Switches(Added(w, us)), Listing(Flags(w), false));
  }

  /** The flag at the end of argv that misses its value. */
  function LastFlag(g: ArgGrammar, argv: seq<string>): string
    requires argv != []
  {
    Canon(g, argv[|argv| - 1])
  }

  lemma LastTokenDangles(g: ArgGrammar, w: Wire, argv: seq<string>)
    requires Fits(g, w) && Swallows(g, w, Parse(g, argv))
    ensures argv != [] && Kept(w, Parse(g, argv)) != []
    ensures var kept := Kept(w, Parse(g, argv));
      && |kept[|kept| - 1].tokens| == 1 && Canon(g, kept[|kept| - 1].tokens[0]) == LastFlag(g, argv)
      && (LastFlag(g, argv) in g.valueFlags || LastFlag(g, argv) in g.keyedFlags)
  {
    var us := Parse(g, argv);
    var n := |us| - 1;
    ParseLossless(g, argv);
    SwallowsKept(g, w, us);
    AllAt(us, WellFormedIn(g), n);
    DanglingIsVerbatim(g, us[n]);
    assert us[..n + 1] == us;
    FlatNext(us, n, TokensOf);
    PickNext(us, n, Flags(w), false, Kept(w, us[..n]));
  }

  /**
   * Planning a planned argv again sets nothing and leaves it as it is, if and only if
   * no flag of the wire stood at its end without a value and swallowed a switch.
   */
  lemma WirePlanSettlesIff(g: ArgGrammar, w: Wire, argv: seq<string>)
    requires Fits(g, w) && PlanWire(g, w, argv).Ok?
    ensures Swallows(g, w, Parse(g, argv)) ==> argv != []
    ensures Settled(g, w, PlanWire(g, w, argv).value.argv)
      <==> !(Swallows(g, w, Parse(g, argv)) && LastFlag(g, argv) in Flags(w))
  {
    var us := Parse(g, argv);
    ParseLossless(g, argv);
    if Swallows(g, w, us) {
      LastTokenDangles(g, w, argv);
      SwallowedReading(g, w, us);
      SwallowedSettlesIff(g, w, us);
    } else {
      WirePlanReadsBackIff(g, w, argv);
      IntendedUnlisted(g, w, us);
      UnlistedSettles(g, w, PlanWire(g, w, argv).value.argv);
    }
  }

  lemma SwallowedSettlesIff(g: ArgGrammar, w: Wire, us: seq<ArgUnit>)
    requires Fits(g, w) && AllWellFormed(g, us) && DanglingOnlyLast(g, us) && Swallows(g, w, us)
    requires Kept(w, us) != [] && Parse(g, Print(Kept(w, us)) + Added(w, us)) == Swallowed(g, w, us)
    ensures var kept := Kept(w, us); var last := kept[|kept| - 1];
      && last.tokens != []
      && (Settled(g, w, Print(kept) + Added(w, us)) <==> Canon(g, last.tokens[0]) !in Flags(w))
  {
    SwallowsKept(g, w, us);
    AddedShape(g, w, us);
    PickListed(us, Flags(w), false);
    FirstSettlesIff(g, w, Kept(w, us), Added(w, us), Print(Kept(w, us)) + Added(w, us));
  }

  lemma FirstSettlesIff(g: ArgGrammar, w: Wire, kept: seq<ArgUnit>, added: seq<string>, argv: seq<string>)
    requires Fits(g, w) && kept != [] && AllListed(kept, Flags(w), false)
    requires WellFormed(g, kept[|kept| - 1]) && Dangling(g, kept[|kept| - 1])
    requires added != [] && forall f :: f in added ==> PlainSwitch(g, f) && f !in Flags(w)
    requires var n := |kept| - 1;
      Parse(g, argv) == kept[..n] + [Take(g, kept[n].tokens + [added[0]])] + Switches(added[1..])
    ensures Settled(g, w, argv) <==> Canon(g, kept[|kept| - 1].tokens[0]) !in Flags(w)
  {
    var n, m := |kept| - 1, Take(g, kept[|kept| - 1].tokens + [added[0]]);
    assert kept == kept[..n] + [kept[n]];
    AllConcat(kept[..n], [kept[n]], Listing(Flags(w), false));
    SwallowingUnit(g, kept[n], added[0]);
    SwitchesUnlisted(g, w, added[1..]);
    MiddleSettlesIff(g, w, kept[..n], m, Switches(added[1..]), argv);
  }

  lemma SwitchesUnlisted(g: ArgGrammar, w: Wire, flags: seq<string>)
    requires forall f :: f in flags ==> PlainSwitch(g, f) && f !in Flags(w)
    ensures AllListed(Switches(flags), Flags(w), false)
  {
    SwitchesShape(g, flags);
    AllListedAt(Switches(flags), Flags(w));
  }

  /** Units of which one alone may be of the wire: the argv settles exactly when that one is not. */
  lemma MiddleSettlesIff(g: ArgGrammar, w: Wire, x: seq<ArgUnit>, m: ArgUnit, y: seq<ArgUnit>, argv: seq<string>)
    requires Fits(g, w) && Parse(g, argv) == x + [m] + y
    requires AllListed(x, Flags(w), false) && AllListed(y, Flags(w), false)
    requires m.flag.Some? && m.tokens != [] && WantsValueFlag(g, m.flag.value)
    ensures Settled(g, w, argv) <==> m.flag.value !in Flags(w)
  {
    var us := x + [m] + y;
    ParseLossless(g, argv);
    AllConcat(x + [m], y, Listing(Flags(w), false));
    AllConcat(x, [m], Listing(Flags(w), false));
    AllOne(m, Listing(Flags(w), false));
    if m.flag.value !in Flags(w) {
      UnlistedSettles(g, w, argv);
    } else {
      MiddlePicked(us, x, m, y, Flags(w));
      NothingSet(w, x);
      NothingSet(w, y);
      GivenConcat(x + [m], y, w.yolo);
      GivenConcat(x, [m], w.yolo);
      assert !Given(us, w.yolo);
      PrintPartition(us, Flags(w));
      FlatOne(m, TokensOf);
      assert |multiset(Print(us))| == |Print(us)| && |multiset(m.tokens)| == |m.tokens|;
      assert |multiset(Print(Kept(w, us)))| == |Print(Kept(w, us))|;
    }
  }

  lemma GivenConcat(x: seq<ArgUnit>, y: seq<ArgUnit>, flag: string)
    ensures Given(x + y, flag) <==> Given(x, flag) || Given(y, flag)
  {
    if Given(x, flag) {
      var i :| 0 <= i < |x| && x[i].flag == Some(flag);
      assert (x + y)[i] == x[i];
    }
    if Given(y, flag) {
      var i :| 0 <= i < |y| && y[i].flag == Some(flag);
      assert (x + y)[|x| + i] == y[i];
    }
  }

  predicate WantsValueFlag(g: ArgGrammar, flag: string) {
    flag in g.valueFlags || flag in g.keyedFlags
  }

  lemma MiddlePicked(us: seq<ArgUnit>, x: seq<ArgUnit>, m: ArgUnit, y: seq<ArgUnit>, flags: set<string>)
    requires us == x + [m] + y && AllListed(x, flags, false) && AllListed(y, flags, false) && Listed(m, flags)
    ensures Pick(us, flags, true) == [m] && Pick(us, flags, false) == x + y
  {
    AllOne(m, Listing(flags, true));
    JoinParts(x, [m], [], y, flags);
    assert x + [m] + [] + y == us && x + [] + y == x + y;
  }

  // ------------------------------------------------------------------
  // The shipped flags
  // ------------------------------------------------------------------

  /** A boolean flag of the grammar that no alias and no valued flag spells. */
  lemma MuseSwitch(flag: string)
    requires flag in MUSE.booleanFlags && |flag| > 2 && flag[0] == '-' && flag[2] in "dyt" && '=' !in flag
    ensures PlainSwitch(MUSE, flag)
  {
    assert "--model"[2] == 'm' && "--effort"[2] == 'e' && "--provider"[2] == 'p' && "--approval-mode"[2] == 'a';
    assert "--sandbox-network"[2] == 's' && "--contributor-mode"[2] == 'c' && "--config"[2] == 'c';
    assert "--reasoning-effort"[2] == 'r' && |"-c"| == 2;
  }

  lemma MuseSwitches()
    ensures forall f :: f in MUSE_WIRE.switches + [MUSE_WIRE.disable, MUSE_WIRE.yolo] ==> PlainSwitch(MUSE, f)
  {
    MuseSwitch("--disable-approval");
    MuseSwitch("--yolo");
    MuseSwitch("--disable-sandbox");
    MuseSwitch("--trust-workspace");
  }

  lemma MuseFits()
    ensures Fits(MUSE, MUSE_WIRE)
  {
    MuseSwitches();
    var w := MUSE_WIRE;
    assert w.model[2] == 'm' && w.effort[2] == 'e' && w.approval[2] == 'a' && w.disable[2] == 'd' && w.yolo[2] == 'y';
    assert w.disable[10] == 'a' && w.switches[0][10] == 's';
    assert w.switches[0][2] == 'd' && w.switches[1][2] == 't';
  }

  method MuseSpawnPlan(argv: seq<string>) returns (plan: Result<Plan, PlanError>)
    ensures plan == PlanWire(MUSE, MUSE_WIRE, argv)
  {
    MuseFits();
    plan := LiftSettings(MUSE, MUSE_WIRE, argv);
  }

  /** The three laws for the shipped flags and every argv. */
  lemma MusePlanSound(argv: seq<string>)
    requires PlanWire(MUSE, MUSE_WIRE, argv).Ok?
    ensures var us, plan := Parse(MUSE, argv), PlanWire(MUSE, MUSE_WIRE, argv).value;
      && (Parse(MUSE, plan.argv) == Intended(MUSE_WIRE, us) <==> !Swallows(MUSE, MUSE_WIRE, us))
      && (Given(us, MUSE_WIRE.yolo) ==>
        (TakesEffect(MUSE, MUSE_WIRE, plan.argv) <==> !Swallows(MUSE, MUSE_WIRE, us) && NoneHidden(MUSE_WIRE, us)))
      && (!Swallows(MUSE, MUSE_WIRE, us) ==> Settled(MUSE, MUSE_WIRE, plan.argv))
  {
    MuseFits();
    WirePlanReadsBackIff(MUSE, MUSE_WIRE, argv);
    WirePlanSettlesIff(MUSE, MUSE_WIRE, argv);
    if Given(Parse(MUSE, argv), MUSE_WIRE.yolo) {
      YoloTakesEffectIff(MUSE, MUSE_WIRE, argv);
    }
  }

  // ------------------------------------------------------------------
  // Where the laws fail
  // ------------------------------------------------------------------

  lemma ParseSwitch(g: ArgGrammar, flag: string, rest: seq<string>)
    requires PlainSwitch(g, flag)
    ensures Parse(g, [flag] + rest) == [Switch(flag)] + Parse(g, rest)
  {
    NoSplit(flag);
    var argv := [flag] + rest;
    assert argv[0] == flag && argv[1..] == rest;
  }

  /** `yolo`, then a flag without value: it takes the first switch as its value. */
  lemma SwallowingFails(g: ArgGrammar, w: Wire, d: string)
    requires Fits(g, w) && w.switches != [] && PlainFlag(g, d) && d !in w.switches
    ensures var argv := [w.yolo, d];
      && PlanWire(g, w, argv) == Ok(Plan([d] + w.switches, None, None, AllowAll))
      && Swallows(g, w, Parse(g, argv)) && !TakesEffect(g, w, [d] + w.switches)
      && (d in Flags(w) ==> !Settled(g, w, [d] + w.switches))
  {
    var argv, us := [w.yolo, d], [Switch(w.yolo), Verbatim(d)];
    ParseSwitch(g, w.yolo, [d]);
    ParseSingle(g, d);
    NoSplit(d);
    assert [w.yolo] + [d] == argv && [Switch(w.yolo)] + [Verbatim(d)] == us;
    assert us[0].flag == Some(w.yolo) && us[1].flag == None;
    FlatTwo(us[0], us[1], Picker(Flags(w), false));
    assert Kept(w, us) == [Verbatim(d)];
    FlatOne(Verbatim(d), TokensOf);
    NoneMissing(w.switches, [d]);
    QuietUnits(w, us);
    YoloTakesEffectIff(g, w, argv);
    WirePlanSettlesIff(g, w, argv);
  }

  /** `yolo`, then a flag whose value spells a switch: the switch counts as given and is not added. */
  lemma HidingFails(g: ArgGrammar, w: Wire, d: string, f: string)
    requires Fits(g, w) && PlainFlag(g, d) && d !in Flags(w) && f in w.switches
    ensures var argv := [w.yolo, d, f];
      PlanWire(g, w, argv).Ok? && !TakesEffect(g, w, PlanWire(g, w, argv).value.argv)
  {
    var argv, us := [w.yolo, d, f], [Switch(w.yolo), Valued(d, f)];
    ParseSwitch(g, w.yolo, [d, f]);
    ParsePair(g, d, f, []);
    assert [w.yolo] + [d, f] == argv && [d, f] + [] == [d, f];
    assert [Switch(w.yolo)] + ([Valued(d, f)] + []) == us;
    assert us[0].flag == Some(w.yolo);
    FlatTwo(us[0], us[1], Picker(Flags(w), false));
    assert Kept(w, us) == [Valued(d, f)];
    FlatOne(Valued(d, f), TokensOf);
    QuietUnits(w, us);
    YoloTakesEffectIff(g, w, argv);
    assert [d, f][1] == f;
  }

  lemma {:induction false} NoneMissing(flags: seq<string>, tokens: seq<string>)
    requires forall f :: f in flags ==> f !in tokens
    ensures Missing(flags, tokens) == flags
  {
    if flags != [] { NoneMissing(flags[1..], tokens); }
  }

  /** A `yolo` switch and a unit of no wire flag set nothing else. */
  lemma QuietUnits(w: Wire, us: seq<ArgUnit>)
    requires |us| == 2 && us[0].flag == Some(w.yolo) && us[0].value.None? && !Listed(us[1], Flags(w))
    ensures FirstFault(w, us).None? && LastValue(us, w.model) == LastValue(us, w.effort) == None
  {
    var one := us[..1];
    assert one[..0] == [] && one[0] == us[0];
    assert FirstFault(w, one).None? && LastValue(one, w.model) == LastValue(one, w.effort) == None;
  }

  lemma YoloFailsExamples()
    ensures var argv := ["--provider"] + MUSE_WIRE.switches;
      && PlanWire(MUSE, MUSE_WIRE, ["--yolo", "--provider"]) == Ok(Plan(argv, None, None, AllowAll))
      && !TakesEffect(MUSE, MUSE_WIRE, argv)
    ensures var plan := PlanWire(MUSE, MUSE_WIRE, ["--yolo", "--provider", "--trust-workspace"]);
      plan.Ok? && !TakesEffect(MUSE, MUSE_WIRE, plan.value.argv)
    ensures var argv := ["--model"] + MUSE_WIRE.switches;
      && PlanWire(MUSE, MUSE_WIRE, ["--yolo", "--model"]) == Ok(Plan(argv, None, None, AllowAll))
      && !Settled(MUSE, MUSE_WIRE, argv)
  {
    MuseFits();
    PlainMuseFlags();
    SwallowingFails(MUSE, MUSE_WIRE, "--provider");
    SwallowingFails(MUSE, MUSE_WIRE, MUSE_WIRE.model);
    HidingFails(MUSE, MUSE_WIRE, "--provider", MUSE_WIRE.switches[1]);
  }

  lemma PlainMuseFlags()
    ensures PlainFlag(MUSE, "--provider") && "--provider" !in Flags(MUSE_WIRE) && "--provider" !in MUSE_WIRE.switches
    ensures PlainFlag(MUSE, MUSE_WIRE.model) && MUSE_WIRE.model !in MUSE_WIRE.switches
  {
    var p, w := "--provider", MUSE_WIRE;
    assert p[2] == 'p' && w.model[2] == 'm' && w.effort[2] == 'e' && w.approval[2] == 'a';
    assert w.disable[2] == 'd' && w.yolo[2] == 'y' && w.switches[0][2] == 'd' && w.switches[1][2] == 't';
    assert "--reasoning-effort"[2] == 'r' && |"-c"| == 2;
  }

  // ------------------------------------------------------------------
  // What is set on the wire
  // ------------------------------------------------------------------

  /** A unit gives a level of effort that is not known, or an approval mode that is not. */
  predicate FaultAt(w: Wire, us: seq<ArgUnit>, k: nat, e: PlanError) {
    k < |us| && us[k].value.Some? &&
    match e
    case BadEffort => us[k].flag == Some(w.effort) && us[k].value.value !in w.efforts
    case BadApproval => us[k].flag == Some(w.approval) && us[k].value.value !in w.modes
  }

  ghost predicate FirstFaultAt(w: Wire, us: seq<ArgUnit>, k: nat, e: PlanError) {
    FaultAt(w, us, k, e) && forall j: nat, x :: j < k ==> !FaultAt(w, us, j, x)
  }

  lemma {:induction false} FirstFaultIff(w: Wire, us: seq<ArgUnit>, e: PlanError)
    requires w.effort != w.approval
    ensures FirstFault(w, us) == Some(e) <==> exists k: nat :: FirstFaultAt(w, us, k, e)
    ensures FirstFault(w, us) == None <==> forall k: nat, x :: !FaultAt(w, us, k, x)
  {
    if us != [] {
      var n := |us| - 1;
      var init := us[..n];
      FirstFaultIff(w, init, e);
      FaultIff(w, us, n);
      forall k: nat, x | k < n ensures FaultAt(w, us, k, x) <==> FaultAt(w, init, k, x) {
      }
      if FirstFault(w, us) == None {
        forall k: nat, x ensures !FaultAt(w, us, k, x) {
          assert k < n ==> !FaultAt(w, init, k, x);
        }
      }
      if k: nat :| FirstFaultAt(w, init, k, e) { assert FirstFaultAt(w, us, k, e); }
      if k: nat :| FirstFaultAt(w, us, k, e) { assert k < n ==> FirstFaultAt(w, init, k, e); }
      if FirstFault(w, init) == None && FaultAt(w, us, n, e) { assert FirstFaultAt(w, us, n, e); }
    }
  }

  lemma FaultIff(w: Wire, us: seq<ArgUnit>, k: nat)
    requires k < |us| && w.effort != w.approval
    ensures forall e :: Fault(w, us[k]) == Some(e) <==> FaultAt(w, us, k, e)
    ensures Fault(w, us[k]) == None <==> forall e :: !FaultAt(w, us, k, e)
  {
    assert Fault(w, us[k]).Some? ==> FaultAt(w, us, k, Fault(w, us[k]).value);
  }

  /** The mode that a unit sets: an approval mode that is known, or all allowed. */
  function ModeOf(w: Wire, u: ArgUnit): Option<ApprovalMode> {
    if u.flag == Some(w.approval) && u.value.Some? && u.value.value in w.modes then Some(w.modes[u.value.value])
    else if u.flag == Some(w.disable) then Some(AllowAll)
    else None
  }

  ghost predicate LastModeAt(w: Wire, us: seq<ArgUnit>, k: nat, mode: ApprovalMode) {
    k < |us| && ModeOf(w, us[k]) == Some(mode) && forall j :: k < j < |us| ==> ModeOf(w, us[j]) == None
  }

  /** The mode set last, or all allowed when none is set. */
  ghost predicate ModeSet(w: Wire, us: seq<ArgUnit>, mode: ApprovalMode) {
    if forall j :: 0 <= j < |us| ==> ModeOf(w, us[j]) == None then mode == AllowAll
    else exists k: nat :: LastModeAt(w, us, k, mode)
  }

  lemma {:induction false} ApprovalIs(w: Wire, us: seq<ArgUnit>)
    ensures ModeSet(w, us, Approval(w, us))
  {
    if us != [] {
      var n := |us| - 1;
      var init := us[..n];
      ApprovalIs(w, init);
      if ModeOf(w, us[n]).Some? {
        assert LastModeAt(w, us, n, Approval(w, us));
      } else if k: nat :| LastModeAt(w, init, k, Approval(w, init)) {
        assert LastModeAt(w, us, k, Approval(w, us));
      }
    }
  }

  /**
   * The plan of any units is refused for the first value that is not known. Otherwise it sets
   * the last model, unless that is empty, the last effort, and the approval mode set last,
   * all being allowed under `yolo`.
   */
  lemma SettingsIff(w: Wire, us: seq<ArgUnit>, e: PlanError)
    requires w.effort != w.approval
    ensures PlanUnits(w, us) == Err(e) <==> exists k: nat :: FirstFaultAt(w, us, k, e)
    ensures PlanUnits(w, us).Ok? ==>
      var plan := PlanUnits(w, us).value;
      && plan.model == (if LastValue(us, w.model) == Some("") then None else LastValue(us, w.model))
      && plan.effort == LastValue(us, w.effort)
      && if exists i :: 0 <= i < |us| && us[i].flag == Some(w.yolo) then plan.approval == AllowAll
         else ModeSet(w, us, plan.approval)
  {
    FirstFaultIff(w, us, e);
    ApprovalIs(w, us);
    assert Given(us, w.yolo) <==> exists i :: 0 <= i < |us| && us[i].flag == Some(w.yolo);
  }
}
