/** The address-space walk and the root-inode search: scripts/gates/darwin/quiescence.h. */
module Quiescence {

  // ------------------------------------------------------------------
  // The sorted inode table
  // ------------------------------------------------------------------

  const LAST: int := 0xFFFF_FFFF_FFFF_FFFF

  /** An unsigned 64-bit value. */
  type u64 = x: int | 0 <= x <= LAST

  datatype Inode = Inode(dev: u64, ino: u64)

  predicate Below(a: Inode, b: Inode) {
    a.dev < b.dev || (a.dev == b.dev && a.ino < b.ino)
  }

  function Compare(a: Inode, b: Inode): int {
    if a.dev != b.dev then (if a.dev < b.dev then -1 else 1)
    else if a.ino < b.ino then -1 else if a.ino > b.ino then 1 else 0
  }

  ghost predicate Sorted(s: seq<Inode>) {
    forall i, j :: 0 <= i < j < |s| ==> !Below(s[j], s[i])
  }

  /** Binary search of the sorted table decides membership. */
  method RootInodeMatch(table: array<Inode>, count: nat, key: Inode) returns (found: bool)
    requires count <= table.Length && Sorted(table[..count])
    ensures found <==> key in table[..count]
  {
    var lower, upper := 0, count;
    while lower < upper
      invariant 0 <= lower <= upper <= count
      invariant forall i :: 0 <= i < lower ==> Below(table[i], key)
      invariant forall i :: upper <= i < count ==> Below(key, table[i])
    {
      var middle := lower + (upper - lower) / 2;
      var order := Compare(key, table[middle]);
      if order == 0 {
        assert table[..count][middle] == key;
        return true;
      }
      assert forall i :: 0 <= i < count ==> table[..count][i] == table[i];
      if order < 0 {
        upper := middle;
      } else {
        lower := middle + 1;
      }
    }
    found := false;
  }

  // ------------------------------------------------------------------
  // The walk
  // ------------------------------------------------------------------

  /** A region of the address space; inode number 0 stands for no file. */
  datatype Region = Region(start: u64, size: u64, file: Inode)

  datatype Read = Full | Nothing | Short

  datatype Reply = Reply(read: Read, errno: nat, region: Region)

  const EINVAL: nat := 22

  const WALK_LIMIT: nat := 65536

  /**
   * The kernel as the walk sees it: the reply to a query (in one iteration, as
   * its main or its confirming query, for an address) and whether a birth check
   * still finds the same process.
   */
  datatype Kernel = Kernel(reply: (nat, bool, u64) -> Reply, same: (nat, nat) -> bool)

  datatype Ending = Rejected | Complete | UnavailableFirst | Partial

  /** How a walk ended, with the addresses it asked for and the regions it was given. */
  datatype Outcome = Outcome(ending: Ending, asked: seq<u64>, given: seq<Region>)

  datatype Turn = Stop(ending: Ending) | Go(next: u64)

  function Max(a: int, b: int): int {
    if a > b then a else b
  }

  predicate Filed(r: Region) {
    r.size != 0 && r.file.ino != 0
  }

  predicate GotRegion(reply: Reply) {
    reply.read == Full && reply.errno == 0
  }

  /** How the walk ends at a reply without region. */
  function EndOfRegions(k: Kernel, index: nat, address: u64, reply: Reply): Ending {
    if index == 0 && reply.read == Nothing && reply.errno != 0 then UnavailableFirst
    else if reply.read != Nothing || reply.errno != EINVAL || address == LAST then Partial
    else if !k.same(index, 1) then Rejected
    else
      var confirm := k.reply(index, true, address + 1);
      if !k.same(index, 2) then Rejected
      else if confirm.read != Nothing || confirm.errno != EINVAL then Partial
      else Complete
  }

  /** The address after region `r`, or why the walk stops at it. */
  function Past(r: Region, address: u64, roots: seq<Inode>): Turn {
    if r.size == 0 then
      if r.start < address || r.start == LAST || address == LAST then Stop(Partial)
      else Go(Max(address + 1, r.start + 1))
    else if r.file.ino != 0 && r.file in roots then Stop(Rejected)
    else if r.size > LAST - r.start || address == LAST || r.start + r.size <= address then Stop(Partial)
    else Go(Max(r.start + r.size, address + 1))
  }

  /** The region the kernel gives in iteration `index`, if it gives one. */
  function GivenAt(k: Kernel, index: nat, address: u64): seq<Region> {
    var reply := k.reply(index, false, address);
    if k.same(index, 0) && GotRegion(reply) then [reply.region] else []
  }

  /** One iteration. */
  function TurnAt(k: Kernel, roots: seq<Inode>, index: nat, address: u64): Turn {
    var reply := k.reply(index, false, address);
    if !k.same(index, 0) then Stop(Rejected)
    else if !GotRegion(reply) then Stop(EndOfRegions(k, index, address, reply))
    else Past(reply.region, address, roots)
  }

  /** The walk from iteration `index` on. */
  function Walk(k: Kernel, roots: seq<Inode>, index: nat, address: u64): Outcome
    decreases WALK_LIMIT - index, |roots|
  {
    if index >= WALK_LIMIT then Outcome(Partial, [], [])
    else
      match TurnAt(k, roots, index, address)
      case Stop(ending) => Outcome(ending, [address], GivenAt(k, index, address))
      case Go(next) =>
        var rest := Walk(k, roots, index + 1, next);
        Outcome(rest.ending, [address] + rest.asked, GivenAt(k, index, address) + rest.given)
  }

  function FiledCount(given: seq<Region>): nat {
    if given == [] then 0 else FiledCount(given[..|given| - 1]) + if Filed(given[|given| - 1]) then 1 else 0
  }

  /** Some region given is backed by `image`. */
  predicate Shows(given: seq<Region>, image: Inode) {
    exists r :: r in given && Filed(r) && r.file == image
  }

  /** The counters after the regions `given`. */
  ghost predicate Tallied(given: seq<Region>, roots: seq<Inode>, image: Inode, compared: nat, imageSeen: bool) {
    && compared == FiledCount(given)
    && (imageSeen <==> Shows(given, image) && image !in roots)
  }

  lemma TalliedNext(given: seq<Region>, r: Region, roots: seq<Inode>, image: Inode, compared: nat, imageSeen: bool)
    requires Tallied(given, roots, image, compared, imageSeen)
    ensures Tallied(given + [r], roots, image, if Filed(r) then compared + 1 else compared,
                    imageSeen || (Filed(r) && r.file == image && image !in roots))
  {
    assert (given + [r])[..|given|] == given;
    assert r in given + [r];
    if Shows(given, image) {
      var x :| x in given && Filed(x) && x.file == image;
      assert x in given + [r];
    }
  }

  /** One region: compare its file with the roots and the image, then advance without wrapping. */
  method Visit(region: Region, address: u64, table: array<Inode>, count: nat, image: Inode)
      returns (turn: Turn, compared: bool, shown: bool)
    requires count <= table.Length && Sorted(table[..count])
    ensures turn == Past(region, address, table[..count])
    ensures compared <==> Filed(region)
    ensures shown <==> Filed(region) && region.file == image && image !in table[..count]
  {
    compared, shown := region.size != 0 && region.file.ino != 0, false;
    if compared {
      var matched := RootInodeMatch(table, count, region.file);
      if matched {
        return Stop(Rejected), compared, false;
      }
      shown := image.ino != 0 && region.file == image;
    }
    if region.size == 0 {
      if region.start < address || region.start == LAST || address == LAST {
        return Stop(Partial), compared, shown;
      }
      turn := Go(Max(address + 1, region.start + 1));
    } else {
      if region.size > LAST - region.start || address == LAST || region.start + region.size <= address {
        return Stop(Partial), compared, shown;
      }
      turn := Go(Max(region.start + region.size, address + 1));
    }
  }

  /** The walk goes on from `address`, the regions `given` gone through and counted. */
  ghost predicate Midway(k: Kernel, roots: seq<Inode>, image: Inode, index: nat, address: u64, given: seq<Region>,
                         compared: nat, imageSeen: bool) {
    var whole, rest := Walk(k, roots, 0, 0), Walk(k, roots, index, address);
    && whole.ending == rest.ending && whole.given == given + rest.given
    && Tallied(given, roots, image, compared, imageSeen)
  }

  /** After one more turn the walk is over, or goes on from the next address. */
  lemma TurnTaken(k: Kernel, roots: seq<Inode>, image: Inode, index: nat, address: u64, given: seq<Region>,
                  before: nat, seen: bool, compared: nat, imageSeen: bool)
    requires index < WALK_LIMIT && Midway(k, roots, image, index, address, given, before, seen)
    requires Tallied(given + GivenAt(k, index, address), roots, image, compared, imageSeen)
    ensures var now := given + GivenAt(k, index, address);
      match TurnAt(k, roots, index, address)
      case Stop(e) => Walk(k, roots, 0, 0).ending == e && Walk(k, roots, 0, 0).given == now
      case Go(next) => Midway(k, roots, image, index + 1, next, now, compared, imageSeen)
  {
    match TurnAt(k, roots, index, address)
    case Stop(e) =>
    case Go(next) =>
      var g, rest := GivenAt(k, index, address), Walk(k, roots, index + 1, next).given;
      assert (given + g) + rest == given + (g + rest);
  }

  /** One iteration of the loop, keeping the counters. */
  method Iterate(k: Kernel, table: array<Inode>, count: nat, image: Inode, index: nat, address: u64,
                 ghost given: seq<Region>, before: nat, seen: bool)
      returns (turn: Turn, compared: nat, imageSeen: bool)
    requires count <= table.Length && Sorted(table[..count])
    requires Tallied(given, table[..count], image, before, seen)
    ensures turn == TurnAt(k, table[..count], index, address)
    ensures Tallied(given + GivenAt(k, index, address), table[..count], image, compared, imageSeen)
  {
    compared, imageSeen := before, seen;
    var reply := k.reply(index, false, address);
    if !k.same(index, 0) {
      assert given + [] == given;
      return Stop(Rejected), compared, imageSeen;
    }
    if !GotRegion(reply) {
      assert given + [] == given;
      return Stop(EndOfRegions(k, index, address, reply)), compared, imageSeen;
    }
    var filed, shown;
    turn, filed, shown := Visit(reply.region, address, table, count, image);
    TalliedNext(given, reply.region, table[..count], image, before, seen);
    compared := if filed then compared + 1 else compared;
    imageSeen := imageSeen || shown;
  }

  /**
   * The loop is the walk: its ending, the number of inodes it compared, and the
   * image flag, set exactly when the image is given and is not one of the roots.
   */
  method RegionWalk(k: Kernel, table: array<Inode>, count: nat, image: Inode)
      returns (ending: Ending, compared: nat, imageSeen: bool)
    requires count <= table.Length && Sorted(table[..count])
    ensures ending == Walk(k, table[..count], 0, 0).ending
    ensures Tallied(Walk(k, table[..count], 0, 0).given, table[..count], image, compared, imageSeen)
  {
    var address: u64, index := 0, 0;
    compared, imageSeen := 0, false;
    ghost var roots := table[..count];
    ghost var given: seq<Region> := [];
    WalkStarts(k, roots, image);
    while index < WALK_LIMIT
      invariant 0 <= index <= WALK_LIMIT
      invariant Midway(k, roots, image, index, address, given, compared, imageSeen)
    {
      var turn, more, shown := Iterate(k, table, count, image, index, address, given, compared, imageSeen);
      TurnTaken(k, roots, image, index, address, given, compared, imageSeen, more, shown);
      compared, imageSeen, given := more, shown, given + GivenAt(k, index, address);
      if turn.Stop? {
        return turn.ending, compared, imageSeen;
      }
      address := turn.next;
      index := index + 1;
    }
    assert given + [] == given;
    ending := Partial;
  }

  lemma WalkStarts(k: Kernel, roots: seq<Inode>, image: Inode)
    ensures Midway(k, roots, image, 0, 0, [], 0, false)
  {
    var given := Walk(k, roots, 0, 0).given;
    assert [] + given == given;
  }
}
