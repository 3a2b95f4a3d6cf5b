/** The proof about a platform process whose files cannot be read: scripts/gates/darwin/quiescence.h. */
module PlatformProof {
  import opened Wrappers
  import opened Quiescence
  import opened QuiescenceProofs

  const PREFIXES := ["/System/Library/", "/System/Applications/", "/usr/libexec/", "/usr/sbin/"]

  predicate Allowed(path: string) {
    exists i :: 0 <= i < |PREFIXES| && PREFIXES[i] <= path
  }

  /** What the kernel says about a process before the walk: `same(i)` is the birth check with number i. */
  datatype Process = Process(unlinked: bool, same: nat -> bool, path: Option<string>, canonical: Option<string>,
                             signatureCall: bool, signatureRead: bool, platform: bool, file: Option<Inode>)

  /** What must hold before the walk, in the order of the failure numbers. */
  predicate Condition(p: Process, roots: seq<Inode>, number: nat) {
    match number
    case 0 => !p.unlinked
    case 2 => p.path.Some?
    case 4 => p.canonical.Some?
    case 5 => p.path == p.canonical
    case 6 => p.canonical.Some? && Allowed(p.canonical.value)
    case 7 => p.signatureCall
    case 9 => p.signatureRead
    case 11 => p.platform
    case 12 => p.file.Some?
    case 14 => p.file.Some? && p.file.value !in roots
    case _ => p.same(number)
  }

  /** The failure number `failed` names the first condition that does not hold; -1 says that all hold. */
  ghost predicate Names(failed: int, p: Process, roots: seq<Inode>) {
    && -1 <= failed < 15
    && (failed >= 0 ==> !Condition(p, roots, failed))
    && (forall i :: 0 <= i < (if failed < 0 then 15 else failed) ==> Condition(p, roots, i))
  }

  method StartsAllowed(path: string) returns (allowed: bool)
    ensures allowed <==> Allowed(path)
  {
    allowed := false;
    for i := 0 to |PREFIXES|
      invariant allowed <==> exists j :: 0 <= j < i && PREFIXES[j] <= path
    {
      if PREFIXES[i] <= path {
        allowed := true;
      }
    }
  }

  /** The checks before the walk. */
  method CheckImage(p: Process, table: array<Inode>, count: nat) returns (failed: int)
    requires count <= table.Length && Sorted(table[..count])
    ensures Names(failed, p, table[..count])
  {
    if p.unlinked { return 0; }
    if !p.same(1) { return 1; }
    if !p.path.Some? { return 2; }
    if !p.same(3) { return 3; }
    if !p.canonical.Some? { return 4; }
    if p.path.value != p.canonical.value { return 5; }
    var allowed := StartsAllowed(p.canonical.value);
    if !allowed { return 6; }
    if !p.signatureCall { return 7; }
    if !p.same(8) { return 8; }
    if !p.signatureRead { return 9; }
    if !p.same(10) { return 10; }
    if !p.platform { return 11; }
    if !p.file.Some? { return 12; }
    if !p.same(13) { return 13; }
    var matched := RootInodeMatch(table, count, p.file.value);
    return if matched then 14 else -1;
  }

  /** The proof: every condition holds and the walk completes having been given the image. */
  method PlatformFdProof(p: Process, k: Kernel, table: array<Inode>, count: nat) returns (failed: int)
    requires count <= table.Length && Sorted(table[..count])
    ensures 0 <= failed < 15 ==> Names(failed, p, table[..count])
    ensures failed < 0 || failed >= 15 ==> Names(-1, p, table[..count]) && p.file.Some?
    ensures var walk := Walk(k, table[..count], 0, 0);
      && -1 <= failed <= 18
      && (failed == 15 ==> walk.ending == Rejected)
      && (failed == 16 ==> walk.ending == UnavailableFirst)
      && (failed == 17 ==> walk.ending == Partial)
      && (failed == 18 ==> walk.ending == Complete && !Shows(walk.given, p.file.value))
      && (failed < 0 ==> walk.ending == Complete && Shows(walk.given, p.file.value))
  {
    failed := CheckImage(p, table, count);
    if failed >= 0 {
      return;
    }
    assert Condition(p, table[..count], 12) && Condition(p, table[..count], 14);
    var ending, _, imageSeen := RegionWalk(k, table, count, p.file.value);
    if ending == Complete && imageSeen {
      return -1;
    }
    failed := if ending == Rejected then 15 else if ending == UnavailableFirst then 16 else if ending == Partial then 17
              else 18;
  }

  // ------------------------------------------------------------------
  // What the proof about a platform process means
  // ------------------------------------------------------------------

  lemma {:induction false} GivenInLayout(k: Kernel, l: seq<Region>, roots: seq<Inode>, index: nat, address: u64)
    requires Reports(k, l)
    ensures forall r :: r in Walk(k, roots, index, address).given ==> r in l
    decreases WALK_LIMIT - index
  {
    if index < WALK_LIMIT {
      assert AnswersFrom(l, k.reply(index, false, address), address);
      var turn := TurnAt(k, roots, index, address);
      if turn.Go? {
        GivenInLayout(k, l, roots, index + 1, turn.next);
      }
    }
  }

  /**
   * A walk that completes having been given the image proves that the image itself is
   * mapped, from a file that is no root, and that no root's file is mapped anywhere.
   */
  lemma ProvenProcessMapsNoRoot(k: Kernel, l: seq<Region>, roots: seq<Inode>, p: Process)
    requires Layout(l) && Paged(l) && Reports(k, l)
    requires Names(-1, p, roots) && p.file.Some?
    requires Walk(k, roots, 0, 0).ending == Complete && Shows(Walk(k, roots, 0, 0).given, p.file.value)
    ensures Shows(l, p.file.value) && p.file.value !in roots && !RootsTouched(l, roots)
    ensures p.path == p.canonical && p.path.Some? && p.platform && !p.unlinked
    ensures Allowed(p.path.value)
    ensures var n := |Walk(k, roots, 0, 0).asked| - 1;
      (forall i :: 0 <= i <= n ==> k.same(i, 0)) && k.same(n, 1) && k.same(n, 2)
    ensures forall i :: i in [1, 3, 8, 10, 13] ==> p.same(i)
  {
    assert Condition(p, roots, 0) && Condition(p, roots, 5) && Condition(p, roots, 6);
    assert Condition(p, roots, 11) && Condition(p, roots, 14);
    forall i | i in [1, 3, 8, 10, 13] ensures p.same(i) {
      assert Condition(p, roots, i);
    }
    CompleteKeptProcess(k, roots);
    CompleteSeesEverything(k, l, roots);
    GivenInLayout(k, l, roots, 0, 0);
  }

  /** The four places that a platform image may be in. */
  lemma AllowedIff(path: string)
    ensures Allowed(path) <==>
      ("/System/Library/" <= path || "/System/Applications/" <= path || "/usr/libexec/" <= path || "/usr/sbin/" <= path)
  {
    var places := PREFIXES;
    assert places[0] == "/System/Library/" && places[1] == "/System/Applications/" && places[2] == "/usr/libexec/"
        && places[3] == "/usr/sbin/" && |places| == 4;
  }
}
