/** What a finished walk proves about the address space: scripts/gates/darwin/quiescence.h. */
module QuiescenceProofs {
  import Lists
  import opened Quiescence

  // ------------------------------------------------------------------
  // Any kernel
  // ------------------------------------------------------------------

  ghost predicate Rising(asked: seq<u64>) {
    forall i, j :: 0 <= i < j < |asked| ==> asked[i] < asked[j]
  }

  /** Whatever the kernel answers, each turn asks above the last one, and there are at most 65536 turns. */
  lemma {:induction false} WalkRises(k: Kernel, roots: seq<Inode>, index: nat, address: u64)
    requires index <= WALK_LIMIT
    ensures var walk := Walk(k, roots, index, address);
      Rising(walk.asked) && |walk.given| <= |walk.asked| <= WALK_LIMIT - index
      && (walk.asked != [] ==> walk.asked[0] == address)
    decreases WALK_LIMIT - index
  {
    if index < WALK_LIMIT && k.same(index, 0) && GotRegion(k.reply(index, false, address)) {
      var turn := Past(k.reply(index, false, address).region, address, roots);
      if turn.Go? {
        WalkRises(k, roots, index + 1, turn.next);
      }
    }
  }

  ghost predicate RootsTouched(given: seq<Region>, roots: seq<Inode>) {
    exists r :: r in given && Filed(r) && r.file in roots
  }

  ghost predicate Undisturbed(k: Kernel) {
    forall index, check :: k.same(index, check)
  }

  lemma TouchedFirst(r: Region, given: seq<Region>, roots: seq<Inode>)
    ensures RootsTouched([r] + given, roots) <==> (Filed(r) && r.file in roots) || RootsTouched(given, roots)
  {
    assert r in [r] + given;
    if RootsTouched(given, roots) {
      var x :| x in given && Filed(x) && x.file in roots;
      assert x in [r] + given;
    }
  }

  /**
   * A region given to the walk and backed by a root's file always rejects it, and
   * while the process stays the same nothing else does.
   */
  lemma {:induction false} RejectedByRoots(k: Kernel, roots: seq<Inode>, index: nat, address: u64)
    ensures var walk := Walk(k, roots, index, address);
      (RootsTouched(walk.given, roots) ==> walk.ending == Rejected)
      && (Undisturbed(k) && walk.ending == Rejected ==> RootsTouched(walk.given, roots))
    decreases WALK_LIMIT - index
  {
    if index < WALK_LIMIT && k.same(index, 0) && GotRegion(k.reply(index, false, address)) {
      var r := k.reply(index, false, address).region;
      var turn := Past(r, address, roots);
      TouchedFirst(r, [], roots);
      if turn.Go? {
        RejectedByRoots(k, roots, index + 1, turn.next);
        TouchedFirst(r, Walk(k, roots, index + 1, turn.next).given, roots);
      } else {
        assert [r] + [] == [r];
      }
    }
  }

  // ------------------------------------------------------------------
  // What each turn saw, and how the walk ended
  // ------------------------------------------------------------------

  /** At an index the same process gave a region that is no root's, above the address, and the walk went on behind it. */
  ghost predicate Passed(k: Kernel, roots: seq<Inode>, index: nat, address: u64, given: Region, next: u64) {
    && k.same(index, 0) && k.reply(index, false, address) == Reply(Full, 0, given)
    && (given.size == 0 ==> given.start >= address && next == given.start + 1)
    && (given.size > 0 ==> given.start + given.size > address && next == given.start + given.size)
    && (given.size > 0 && given.file.ino != 0 ==> given.file !in roots)
  }

  /** The kernel has no region for the address, and says so with the one errno that means it. */
  ghost predicate NoRegion(reply: Reply) {
    reply.read == Nothing && reply.errno == EINVAL
  }

  /** The kernel has no region from the address on, twice, and the process was the same at all three checks. */
  ghost predicate SawTheEnd(k: Kernel, index: nat, address: u64) {
    && index > 0 && address < LAST && k.same(index, 0) && k.same(index, 1) && k.same(index, 2)
    && NoRegion(k.reply(index, false, address)) && NoRegion(k.reply(index, true, address + 1))
  }

  /** A birth check fails that the walk makes. */
  ghost predicate SawAnother(k: Kernel, index: nat, address: u64) {
    || !k.same(index, 0)
    || (index > 0 && address < LAST && NoRegion(k.reply(index, false, address)) && (!k.same(index, 1) || !k.same(index, 2)))
  }

  ghost predicate SawRoot(k: Kernel, roots: seq<Inode>, index: nat, address: u64) {
    var reply := k.reply(index, false, address);
    reply.read == Full && reply.errno == 0 && reply.region.size > 0 && reply.region.file.ino != 0 && reply.region.file in roots
  }

  ghost predicate SawNothing(k: Kernel, index: nat, address: u64) {
    var reply := k.reply(index, false, address);
    index == 0 && k.same(index, 0) && reply.read == Nothing && reply.errno != 0
  }

  /** The ending that the last turn calls for. */
  ghost predicate EndsRight(k: Kernel, roots: seq<Inode>, index: nat, address: u64, ending: Ending) {
    && (ending == Complete <==> SawTheEnd(k, index, address))
    && (ending == Rejected <==> SawAnother(k, index, address) || SawRoot(k, roots, index, address))
    && (ending == UnavailableFirst <==> SawNothing(k, index, address))
  }

  lemma OneTurn(k: Kernel, roots: seq<Inode>, index: nat, address: u64)
    ensures match TurnAt(k, roots, index, address)
      case Stop(ending) => EndsRight(k, roots, index, address, ending)
      case Go(next) => exists r :: GivenAt(k, index, address) == [r] && Passed(k, roots, index, address, r, next)
  {
    if TurnAt(k, roots, index, address).Go? {
      var r := k.reply(index, false, address).region;
      assert GivenAt(k, index, address) == [r];
      assert Passed(k, roots, index, address, r, TurnAt(k, roots, index, address).next);
    }
  }

  /** Every turn but the last passed a region; the last one passed one too when the turns ran out, and else decided. */
  ghost predicate Told(k: Kernel, roots: seq<Inode>, index: nat, walk: Outcome) {
    var n := |walk.asked| - 1;
    && n >= 0 && |walk.given| >= n && index + n < WALK_LIMIT
    && (forall i :: 0 <= i < n ==> Passed(k, roots, index + i, walk.asked[i], walk.given[i], walk.asked[i + 1]))
    && EndsRight(k, roots, index + n, walk.asked[n], walk.ending)
  }

  lemma ToldNext(k: Kernel, roots: seq<Inode>, index: nat, address: u64, r: Region, rest: Outcome)
    requires Told(k, roots, index + 1, rest) && Passed(k, roots, index, address, r, rest.asked[0])
    ensures Told(k, roots, index, Outcome(rest.ending, [address] + rest.asked, [r] + rest.given))
  {
    var walk := Outcome(rest.ending, [address] + rest.asked, [r] + rest.given);
    var n := |walk.asked| - 1;
    assert walk.asked[n] == rest.asked[n - 1];
    forall i | 0 <= i < n ensures Passed(k, roots, index + i, walk.asked[i], walk.given[i], walk.asked[i + 1]) {
      if i > 0 {
        assert Passed(k, roots, index + 1 + (i - 1), rest.asked[i - 1], rest.given[i - 1], rest.asked[i]);
      }
    }
  }

  lemma PassedDecidesNothing(k: Kernel, roots: seq<Inode>, index: nat, address: u64, r: Region, next: u64)
    requires Passed(k, roots, index, address, r, next)
    ensures EndsRight(k, roots, index, address, Partial)
  {
  }

  /**
   * Whatever the kernel answers: the walk, turn by turn. It completes exactly when the
   * last turn saw the end with the process still the same, and is rejected exactly when
   * the process was another at a check that was made or a root's file was given.
   */
  lemma {:induction false} WalkIsTold(k: Kernel, roots: seq<Inode>, index: nat, address: u64)
    requires index < WALK_LIMIT
    ensures var walk := Walk(k, roots, index, address); Told(k, roots, index, walk) && walk.asked[0] == address
    decreases WALK_LIMIT - index
  {
    OneTurn(k, roots, index, address);
    match TurnAt(k, roots, index, address) {
      case Stop(ending) =>
        assert Walk(k, roots, index, address).asked == [address];
      case Go(next) =>
        var r :| GivenAt(k, index, address) == [r] && Passed(k, roots, index, address, r, next);
        var rest := Walk(k, roots, index + 1, next);
        if index + 1 < WALK_LIMIT {
          WalkIsTold(k, roots, index + 1, next);
          ToldNext(k, roots, index, address, r, rest);
        } else {
          assert [address] + rest.asked == [address] && [r] + rest.given == [r];
          PassedDecidesNothing(k, roots, index, address, r, next);
        }
    }
  }

  /** The process was the same at every check of a walk that completes, the last three included. */
  lemma CompleteKeptProcess(k: Kernel, roots: seq<Inode>)
    requires Walk(k, roots, 0, 0).ending == Complete
    ensures var n := |Walk(k, roots, 0, 0).asked| - 1;
      n > 0 && (forall i :: 0 <= i <= n ==> k.same(i, 0)) && k.same(n, 1) && k.same(n, 2)
  {
    WalkIsTold(k, roots, 0, 0);
    var walk := Walk(k, roots, 0, 0);
    var n := |walk.asked| - 1;
    assert SawTheEnd(k, n, walk.asked[n]);
    forall i | 0 <= i < n ensures k.same(i, 0) {
      assert Passed(k, roots, 0 + i, walk.asked[i], walk.given[i], walk.asked[i + 1]);
    }
  }

  /** A replaced process is found at whatever index that is reached, and rejects the walk. */
  lemma ReplacedIsRejected(k: Kernel, roots: seq<Inode>, i: nat)
    requires i < |Walk(k, roots, 0, 0).asked| && SawAnother(k, i, Walk(k, roots, 0, 0).asked[i])
    ensures Walk(k, roots, 0, 0).ending == Rejected && i == |Walk(k, roots, 0, 0).asked| - 1
  {
    WalkIsTold(k, roots, 0, 0);
    var walk := Walk(k, roots, 0, 0);
    forall j | 0 <= j < |walk.asked| - 1 ensures !SawAnother(k, j, walk.asked[j]) {
      assert Passed(k, roots, 0 + j, walk.asked[j], walk.given[j], walk.asked[j + 1]);
    }
  }

  // ------------------------------------------------------------------
  // A kernel that reports one fixed layout
  // ------------------------------------------------------------------

  function End(r: Region): nat {
    r.start + r.size
  }

  ghost predicate Layout(l: seq<Region>) {
    && (forall i :: 0 <= i < |l| ==> End(l[i]) <= LAST + 1)
    && (forall i, j :: 0 <= i < j < |l| ==> End(l[i]) <= l[j].start)
  }

  /** The first region that ends above `address`. */
  function Lowest(l: seq<Region>, address: u64): (i: nat)
    ensures i <= |l|
    ensures i < |l| ==> End(l[i]) > address
    ensures forall j :: 0 <= j < i ==> End(l[j]) <= address
  {
    if l == [] || End(l[0]) > address then 0 else
      assert forall j :: 1 <= j < |l| ==> l[1..][j - 1] == l[j];
      1 + Lowest(l[1..], address)
  }

  ghost predicate AnswersFrom(l: seq<Region>, reply: Reply, address: u64) {
    var i := Lowest(l, address);
    if i < |l| then reply == Reply(Full, 0, l[i]) else reply.read == Nothing && reply.errno == EINVAL
  }

  /** Each query gets the lowest region that ends above its address, and EINVAL when none does. */
  ghost predicate Reports(k: Kernel, l: seq<Region>) {
    forall index, confirm, address :: AnswersFrom(l, k.reply(index, confirm, address), address)
  }

  /** An empty entry stands at `address`. */
  ghost predicate Vacant(l: seq<Region>, address: int) {
    exists e :: e in l && e.size == 0 && e.start == address
  }

  /**
   * The walk asks at `address`: it starts there, a mapped region ends there, or an
   * empty entry stands right below at an address that it does not ask at itself.
   */
  ghost predicate Lands(l: seq<Region>, address: nat) {
    || address == 0
    || (exists r :: r in l && r.size != 0 && End(r) == address)
    || (Vacant(l, address - 1) && !Lands(l, address - 1))
  }

  /** A region of one byte, at an empty entry that the walk comes to from below. */
  ghost predicate Skipped(l: seq<Region>, r: Region) {
    r.size == 1 && Vacant(l, r.start) && !Lands(l, r.start)
  }

  /** The mapped regions up to `address` were given, but for those that are skipped; none above was. */
  ghost predicate Covered(l: seq<Region>, address: int, given: seq<Region>) {
    && (forall i :: 0 <= i < |l| && l[i].size != 0 && End(l[i]) <= address ==> (l[i] in given <==> !Skipped(l, l[i])))
    && (forall r :: r in given && r.size != 0 ==> End(r) <= address)
  }

  /** What ends above `address` is the lowest region or comes after it. */
  lemma LowestOrLater(l: seq<Region>, address: u64, m: Region)
    requires Layout(l) && m in l && End(m) > address
    ensures Lowest(l, address) < |l|
    ensures var r := l[Lowest(l, address)]; m == r || m.start >= End(r)
  {
    var j :| 0 <= j < |l| && l[j] == m;
  }

  /** An empty entry that the walk is given stands where it does not ask. */
  lemma EmptyNotLanded(l: seq<Region>, address: u64)
    requires Layout(l) && Lands(l, address) && Lowest(l, address) < |l| && l[Lowest(l, address)].size == 0
    ensures !Lands(l, l[Lowest(l, address)].start)
  {
    var start := l[Lowest(l, address)].start;
    forall m | m in l && m.size != 0 ensures End(m) != start {
      if End(m) == start { LowestOrLater(l, address, m); }
    }
    forall e | e in l && e.size == 0 && e.start == start - 1 ensures e.start == address {
      if e.start > address { LowestOrLater(l, address, e); }
    }
  }

  /** Where the walk goes on after the lowest region. */
  lemma NextAddress(l: seq<Region>, address: u64, roots: seq<Inode>)
    requires Lowest(l, address) < |l| && Past(l[Lowest(l, address)], address, roots).Go?
    ensures var r, next := l[Lowest(l, address)], Past(l[Lowest(l, address)], address, roots).next;
      && next == End(r) + (if r.size == 0 then 1 else 0)
      && (r.size == 0 ==> r.start > address)
  {
  }

  /** It is an address that it was bound to ask at. */
  lemma LandsNext(l: seq<Region>, address: u64, roots: seq<Inode>, r: Region, next: u64)
    requires Layout(l) && Lands(l, address) && Lowest(l, address) < |l| && r == l[Lowest(l, address)]
    requires next == End(r) + (if r.size == 0 then 1 else 0)
    ensures Lands(l, next)
    ensures r.size == 0 ==> Vacant(l, r.start) && !Lands(l, r.start)
  {
    assert r in l;
    if r.size == 0 {
      EmptyNotLanded(l, address);
      LandsAbove(l, r.start);
    } else {
      LandsAtEnd(l, r);
    }
  }

  lemma LandsAtEnd(l: seq<Region>, r: Region)
    requires r in l && r.size != 0
    ensures Lands(l, End(r))
  {
  }

  lemma LandsAbove(l: seq<Region>, address: nat)
    requires Vacant(l, address) && !Lands(l, address)
    ensures Lands(l, address + 1)
  {
  }

  /** The lowest region is not one of those that are skipped. */
  lemma LowestNotSkipped(l: seq<Region>, address: u64)
    requires Layout(l) && Lands(l, address) && Lowest(l, address) < |l|
    ensures !Skipped(l, l[Lowest(l, address)])
  {
    var r := l[Lowest(l, address)];
    forall e | e in l && e.size == 0 && e.start == r.start && r.size == 1 ensures address == r.start {
      if address < r.start { LowestOrLater(l, address, e); }
    }
  }

  /** Behind the lowest region every mapped region up to the next address is accounted for. */
  lemma GivenNext(l: seq<Region>, address: u64, given: seq<Region>, r: Region, next: int, j: nat)
    requires Layout(l) && Covered(l, address, given) && Lowest(l, address) < |l| && r == l[Lowest(l, address)]
    requires next == End(r) + (if r.size == 0 then 1 else 0) && (r.size == 0 ==> Vacant(l, r.start) && !Lands(l, r.start))
    requires j < |l| && l[j].size != 0 && End(l[j]) <= next && !Skipped(l, r)
    ensures l[j] in given + [r] <==> !Skipped(l, l[j])
  {
    var i, m := Lowest(l, address), l[j];
    assert m in given + [r] <==> m in given || m == r;
    if j < i {
      assert m.start < End(m) <= address;
    } else if j > i {
      assert End(r) <= m.start < End(m) <= next;
      assert r.size == 0 && m.start == r.start && m.size == 1;
      assert m !in given;
    }
  }

  lemma CoveredNext(l: seq<Region>, address: u64, given: seq<Region>, roots: seq<Inode>)
    requires Layout(l) && Lands(l, address) && Covered(l, address, given) && Lowest(l, address) < |l|
    requires Past(l[Lowest(l, address)], address, roots).Go?
    ensures Covered(l, Past(l[Lowest(l, address)], address, roots).next, given + [l[Lowest(l, address)]])
  {
    var r, next := l[Lowest(l, address)], Past(l[Lowest(l, address)], address, roots).next;
    NextAddress(l, address, roots);
    LandsNext(l, address, roots, r, next);
    LowestNotSkipped(l, address);
    forall j | 0 <= j < |l| && l[j].size != 0 && End(l[j]) <= next
      ensures l[j] in given + [r] <==> !Skipped(l, l[j])
    {
      GivenNext(l, address, given, r, next, j);
    }
  }

  /** One turn on a fixed layout: it goes on past the lowest region above the address, or there is none. */
  lemma TurnOnLayout(k: Kernel, l: seq<Region>, roots: seq<Inode>, index: nat, address: u64)
    requires Reports(k, l)
    ensures var i := Lowest(l, address);
      match TurnAt(k, roots, index, address)
      case Stop(e) => e == Complete ==> i == |l| && GivenAt(k, index, address) == []
      case Go(next) => i < |l| && GivenAt(k, index, address) == [l[i]] && Past(l[i], address, roots) == Go(next)
  {
    assert AnswersFrom(l, k.reply(index, false, address), address);
  }

  ghost predicate AllGiven(l: seq<Region>, given: seq<Region>) {
    forall i :: 0 <= i < |l| && l[i].size != 0 ==> (l[i] in given <==> !Skipped(l, l[i]))
  }

  lemma CoveredAtEnd(l: seq<Region>, address: u64, given: seq<Region>)
    requires Covered(l, address, given) && Lowest(l, address) == |l|
    ensures AllGiven(l, given)
  {
  }

  lemma GoesOn(l: seq<Region>, address: u64, before: seq<Region>, roots: seq<Inode>, next: u64)
    requires Layout(l) && Lands(l, address) && Covered(l, address, before) && Lowest(l, address) < |l|
    requires Past(l[Lowest(l, address)], address, roots) == Go(next)
    ensures Lands(l, next) && Covered(l, next, before + [l[Lowest(l, address)]])
  {
    NextAddress(l, address, roots);
    LandsNext(l, address, roots, l[Lowest(l, address)], next);
    CoveredNext(l, address, before, roots);
  }

  /** A complete walk, one turn at a time: it is over behind the last region, or goes on behind the lowest one. */
  lemma CompleteTurn(k: Kernel, l: seq<Region>, roots: seq<Inode>, index: nat, address: u64) returns (next: u64)
    requires Reports(k, l) && Walk(k, roots, index, address).ending == Complete
    ensures var i, walk := Lowest(l, address), Walk(k, roots, index, address);
      if i == |l| then walk.given == []
      else
        && index < WALK_LIMIT && Past(l[i], address, roots) == Go(next)
        && Walk(k, roots, index + 1, next).ending == Complete
        && walk.given == [l[i]] + Walk(k, roots, index + 1, next).given
  {
    TurnOnLayout(k, l, roots, index, address);
    next := if TurnAt(k, roots, index, address).Go? then TurnAt(k, roots, index, address).next else 0;
  }

  lemma CompleteStep(k: Kernel, l: seq<Region>, roots: seq<Inode>, index: nat, address: u64, before: seq<Region>)
      returns (next: u64)
    requires Layout(l) && Reports(k, l) && Lands(l, address) && Covered(l, address, before)
    requires Walk(k, roots, index, address).ending == Complete && Lowest(l, address) < |l|
    ensures var i, walk, rest := Lowest(l, address), Walk(k, roots, index, address), Walk(k, roots, index + 1, next);
      && index < WALK_LIMIT && rest.ending == Complete && before + walk.given == before + [l[i]] + rest.given
      && Lands(l, next) && Covered(l, next, before + [l[i]])
  {
    next := CompleteTurn(k, l, roots, index, address);
    GoesOn(l, address, before, roots, next);
    Lists.Associates(before, [l[Lowest(l, address)]], Walk(k, roots, index + 1, next).given);
  }

  lemma {:induction false} WalkCovers(k: Kernel, l: seq<Region>, roots: seq<Inode>,
                                      index: nat, address: u64, before: seq<Region>)
    requires Layout(l) && Reports(k, l) && Lands(l, address) && Covered(l, address, before)
    requires Walk(k, roots, index, address).ending == Complete
    ensures AllGiven(l, before + Walk(k, roots, index, address).given)
    decreases WALK_LIMIT - index
  {
    var i := Lowest(l, address);
    if i == |l| {
      var _ := CompleteTurn(k, l, roots, index, address);
      CoveredAtEnd(l, address, before);
      assert before + Walk(k, roots, index, address).given == before;
    } else {
      var next := CompleteStep(k, l, roots, index, address, before);
      WalkCovers(k, l, roots, index + 1, next, before + [l[i]]);
    }
  }

  /**
   * A complete walk passes over a mapped region exactly when it is one byte at an
   * empty entry that the walk comes to from below, which the layout determines; the
   * process may be replaced at any time.
   */
  lemma SkipsIff(k: Kernel, l: seq<Region>, roots: seq<Inode>, r: Region)
    requires Layout(l) && Reports(k, l) && Walk(k, roots, 0, 0).ending == Complete
    requires r in l && r.size != 0
    ensures r !in Walk(k, roots, 0, 0).given <==> Skipped(l, r)
    ensures Filed(r) && r.file in roots ==> Skipped(l, r)
  {
    var given := Walk(k, roots, 0, 0).given;
    WalkCovers(k, l, roots, 0, 0, []);
    assert [] + given == given;
    RejectedByRoots(k, roots, 0, 0);
  }

  /** No mapped region is a single byte, as with whole pages. */
  ghost predicate Paged(l: seq<Region>) {
    forall i :: 0 <= i < |l| ==> l[i].size != 1
  }

  /**
   * So on whole pages a complete walk saw every mapped region, and none is backed by
   * a root's file. Entries of size zero may be anywhere.
   */
  lemma CompleteSeesEverything(k: Kernel, l: seq<Region>, roots: seq<Inode>)
    requires Layout(l) && Paged(l) && Reports(k, l)
    requires Walk(k, roots, 0, 0).ending == Complete
    ensures forall r :: r in l && r.size != 0 ==> r in Walk(k, roots, 0, 0).given
    ensures !RootsTouched(l, roots)
  {
    forall r | r in l && r.size != 0
      ensures r in Walk(k, roots, 0, 0).given && !(Filed(r) && r.file in roots)
    {
      SkipsIff(k, l, roots, r);
    }
  }

  // ------------------------------------------------------------------
  // Exactly when the walk completes
  // ------------------------------------------------------------------

  function Edge(l: seq<Region>, i: nat): nat
    requires i <= |l|
  {
    if i == 0 then 0 else End(l[i - 1])
  }

  ghost predicate Mapped(l: seq<Region>) {
    forall i :: 0 <= i < |l| ==> l[i].size != 0
  }

  lemma LowestAtEdge(l: seq<Region>, i: nat, address: u64)
    requires Layout(l) && Mapped(l) && i <= |l| && address == Edge(l, i)
    ensures Lowest(l, address) == i
  {
    assert forall j :: 0 <= j < i - 1 ==> End(l[j]) <= l[i - 1].start;
    if 0 < i < |l| {
      assert End(l[i - 1]) <= l[i].start;
    }
  }

  predicate Completes(l: seq<Region>, roots: seq<Inode>, i: nat)
    requires i <= |l|
  {
    && 1 <= |l| < WALK_LIMIT
    && End(l[|l| - 1]) < LAST
    && (forall j :: i <= j < |l| && Filed(l[j]) ==> l[j].file !in roots)
  }

  /** After the last region the walk completes, unless that region ends at the very top. */
  lemma AtTheEnd(k: Kernel, l: seq<Region>, roots: seq<Inode>, address: u64)
    requires Layout(l) && Mapped(l) && Reports(k, l) && Undisturbed(k) && address == Edge(l, |l|)
    ensures TurnAt(k, roots, |l|, address).Stop? && GivenAt(k, |l|, address) == []
    ensures TurnAt(k, roots, |l|, address).ending == Complete <==> |l| > 0 && address < LAST
  {
    LowestAtEdge(l, |l|, address);
    assert AnswersFrom(l, k.reply(|l|, false, address), address);
    if address < LAST {
      assert AnswersFrom(l, k.reply(|l|, true, address + 1), address + 1);
      assert Lowest(l, address + 1) == |l|;
    }
  }

  lemma AtRegion(k: Kernel, l: seq<Region>, roots: seq<Inode>, i: nat, address: u64)
    requires Layout(l) && Mapped(l) && Reports(k, l) && Undisturbed(k) && i < |l| && address == Edge(l, i)
    ensures GivenAt(k, i, address) == [l[i]]
    ensures TurnAt(k, roots, i, address)
         == if Filed(l[i]) && l[i].file in roots then Stop(Rejected)
            else if End(l[i]) > LAST then Stop(Partial)
            else Go(Edge(l, i + 1))
  {
    LowestAtEdge(l, i, address);
    assert AnswersFrom(l, k.reply(i, false, address), address);
  }

  lemma CompletesStep(l: seq<Region>, roots: seq<Inode>, i: nat)
    requires Layout(l) && i < |l|
    ensures Completes(l, roots, i)
       <==> !(Filed(l[i]) && l[i].file in roots) && End(l[i]) <= LAST && Completes(l, roots, i + 1)
  {
    assert forall j :: i < j < |l| ==> End(l[i]) <= l[j].start;
  }

  ghost predicate Quiet(k: Kernel, l: seq<Region>) {
    Layout(l) && Mapped(l) && Reports(k, l) && Undisturbed(k)
  }

  lemma CompletesHere(k: Kernel, l: seq<Region>, roots: seq<Inode>, i: nat, address: u64)
    requires Quiet(k, l) && i <= |l| && i < WALK_LIMIT && address == Edge(l, i)
    ensures match TurnAt(k, roots, i, address)
      case Stop(e) => (e == Complete <==> Completes(l, roots, i)) && (e == Complete ==> i == |l|)
      case Go(next) => i < |l| && next == Edge(l, i + 1) && (Completes(l, roots, i) <==> Completes(l, roots, i + 1))
    ensures GivenAt(k, i, address) == if i < |l| then [l[i]] else []
  {
    if i == |l| {
      AtTheEnd(k, l, roots, address);
    } else {
      AtRegion(k, l, roots, i, address);
      CompletesStep(l, roots, i);
    }
  }

  lemma {:induction false} CompletesFrom(k: Kernel, l: seq<Region>, roots: seq<Inode>, i: nat, address: u64)
    requires Quiet(k, l) && i <= |l| && i <= WALK_LIMIT && address == Edge(l, i)
    ensures Walk(k, roots, i, address).ending == Complete <==> Completes(l, roots, i)
    decreases WALK_LIMIT - i
  {
    if i < WALK_LIMIT {
      CompletesHere(k, l, roots, i, address);
      match TurnAt(k, roots, i, address)
      case Stop(_) =>
      case Go(next) => CompletesFrom(k, l, roots, i + 1, next);
    }
  }

  lemma {:induction false} GivesTheRest(k: Kernel, l: seq<Region>, roots: seq<Inode>, i: nat, address: u64)
    requires Quiet(k, l) && i <= |l| && i <= WALK_LIMIT && address == Edge(l, i)
    requires Walk(k, roots, i, address).ending == Complete
    ensures Walk(k, roots, i, address).given == l[i..]
    decreases WALK_LIMIT - i
  {
    CompletesHere(k, l, roots, i, address);
    match TurnAt(k, roots, i, address)
    case Stop(_) =>
      CompletesFrom(k, l, roots, i, address);
    case Go(next) =>
      GivesTheRest(k, l, roots, i + 1, next);
      Lists.Peel(l, i);
  }

  /**
   * On a layout without empty entries, in a process that stays the same, the walk
   * completes exactly when there is at least one region and at most 65535, none
   * is backed by a root's file, and the last one ends below the top address; it
   * then saw the layout, region by region.
   */
  lemma CompletesIff(k: Kernel, l: seq<Region>, roots: seq<Inode>)
    requires Quiet(k, l)
    ensures Walk(k, roots, 0, 0).ending == Complete
       <==> 1 <= |l| < WALK_LIMIT && End(l[|l| - 1]) < LAST && !RootsTouched(l, roots)
    ensures Walk(k, roots, 0, 0).ending == Complete ==> Walk(k, roots, 0, 0).given == l
  {
    CompletesFrom(k, l, roots, 0, 0);
    if Walk(k, roots, 0, 0).ending == Complete {
      GivesTheRest(k, l, roots, 0, 0);
      assert l[0..] == l;
    }
    if RootsTouched(l, roots) {
      var r :| r in l && Filed(r) && r.file in roots;
      assert !Completes(l, roots, 0);
    }
  }

  /** The kernel that reports `l` to a process that stays the same. */
  function Reporter(l: seq<Region>): Kernel {
    Kernel((index: nat, confirm: bool, address: u64) =>
             var i := Lowest(l, address);
             if i < |l| then Reply(Full, 0, l[i]) else Reply(Nothing, EINVAL, Region(0, 0, Inode(0, 0))),
           (index: nat, check: nat) => true)
  }

  /**
   * One such case: a mapping of one byte after an empty entry at the same address is
   * skipped, and the walk completes although a root's file is mapped there.
   */
  lemma SingleByteIsSkipped(file: Inode)
    requires file.ino != 0
    ensures var l := [Region(4096, 0, file), Region(4096, 1, file)];
      Layout(l) && Reports(Reporter(l), l) && Walk(Reporter(l), [file], 0, 0).ending == Complete
      && RootsTouched(l, [file])
  {
    var l := [Region(4096, 0, file), Region(4096, 1, file)];
    var k := Reporter(l);
    assert l[1] in l;
    assert Lowest(l, 0) == 0;
    assert TurnAt(k, [file], 0, 0) == Go(4097);
    assert l[1..] == [Region(4096, 1, file)] && l[1..][1..] == [];
    assert Lowest(l[1..], 4097) == 1;
    assert Lowest(l, 4097) == 2 && Lowest(l[1..], 4098) == 1 && Lowest(l, 4098) == 2;
    assert TurnAt(k, [file], 1, 4097) == Stop(Complete);
  }
}
