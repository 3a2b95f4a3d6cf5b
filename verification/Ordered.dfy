/** Insertion-ordered sets and maps, as the projectors keep and evict them. */
module Ordered {
  import opened Wrappers
  import opened Lists

  ghost predicate Distinct(s: seq<string>) {
    forall i, j :: 0 <= i < j < |s| ==> s[i] != s[j]
  }

  function Members(s: seq<string>): set<string> {
    set x | x in s
  }

  /** As many members as places. */
  lemma {:induction false} DistinctSize(s: seq<string>)
    requires Distinct(s)
    ensures |Members(s)| == |s|
  {
    if s != [] {
      DistinctSize(s[1..]);
      assert Members(s) == Members(s[1..]) + {s[0]};
    }
  }

  /** Adding a member that is present keeps its place. */
  function Add(s: seq<string>, k: string): seq<string> {
    if k in s then s else s + [k]
  }

  /** Add, then drop the oldest member when the set outgrew its limit. */
  function Remember(s: seq<string>, k: string, limit: nat): seq<string> {
    var t := Add(s, k);
    if |t| > limit then t[1..] else t
  }

  function Without(s: seq<string>, k: string): (r: seq<string>)
    ensures |r| <= |s|
  {
    if s == [] then [] else if s[0] == k then s[1..] else [s[0]] + Without(s[1..], k)
  }

  lemma RememberDistinct(s: seq<string>, k: string, limit: nat)
    requires Distinct(s)
    ensures Distinct(Remember(s, k, limit))
  {
  }

  lemma {:induction false} WithoutMembers(s: seq<string>, k: string)
    requires Distinct(s)
    ensures Distinct(Without(s, k))
    ensures forall x :: x in Without(s, k) <==> x in s && x != k
  {
    if s != [] && s[0] != k {
      WithoutMembers(s[1..], k);
      assert forall x :: x in s <==> x == s[0] || x in s[1..];
      var rest := Without(s[1..], k);
      assert s[0] !in rest;
      assert forall x :: x in [s[0]] + rest <==> x == s[0] || x in rest;
    }
  }

  type Entries<V> = seq<(string, V)>

  ghost predicate DistinctKeys<V>(es: Entries<V>) {
    forall i, j :: 0 <= i < j < |es| ==> es[i].0 != es[j].0
  }

  /** Position of a key, or the length. */
  function Find<V>(es: Entries<V>, k: string): (i: nat)
    ensures i <= |es|
    ensures forall j :: 0 <= j < i ==> es[j].0 != k
    ensures i < |es| ==> es[i].0 == k
  {
    if es == [] || es[0].0 == k then 0 else 1 + Find(es[1..], k)
  }

  function Get<V>(es: Entries<V>, k: string): Option<V> {
    var i := Find(es, k);
    if i < |es| then Some(es[i].1) else None
  }

  function Put<V>(es: Entries<V>, k: string, v: V): Entries<V> {
    var i := Find(es, k);
    if i < |es| then es[i := (k, v)] else es + [(k, v)]
  }

  function Delete<V>(es: Entries<V>, k: string): Entries<V> {
    var i := Find(es, k);
    if i < |es| then es[..i] + es[i + 1..] else es
  }

  lemma FindIs<V>(es: Entries<V>, k: string, i: nat)
    requires i <= |es| && (forall j :: 0 <= j < i ==> es[j].0 != k) && (i < |es| ==> es[i].0 == k)
    ensures Find(es, k) == i
  {
  }

  lemma GetPut<V>(es: Entries<V>, k: string, v: V, x: string)
    ensures Get(Put(es, k, v), x) == if x == k then Some(v) else Get(es, x)
  {
    var i, j, next := Find(es, k), Find(es, x), Put(es, k, v);
    assert forall m :: 0 <= m < |es| && m != i ==> next[m] == es[m];
    assert next[i].0 == k;
    FindIs(next, x, if x == k then i else if j < |es| then j else |next|);
  }

  lemma GetDelete<V>(es: Entries<V>, k: string, x: string)
    requires DistinctKeys(es)
    ensures DistinctKeys(Delete(es, k))
    ensures Get(Delete(es, k), x) == if x == k then None else Get(es, x)
  {
    var i, j, next := Find(es, k), Find(es, x), Delete(es, k);
    if i < |es| {
      assert forall m :: 0 <= m < |next| ==> next[m] == es[if m < i then m else m + 1];
      if x == k || j == |es| {
        FindIs(next, x, |next|);
      } else {
        var at := if j < i then j else j - 1;
        assert next[at] == es[j];
        FindIs(next, x, at);
      }
    }
  }

  lemma PutDistinct<V>(es: Entries<V>, k: string, v: V)
    requires DistinctKeys(es)
    ensures DistinctKeys(Put(es, k, v))
  {
  }

  /** The keys, in their order. */
  function KeysOf<V>(es: Entries<V>): seq<string> {
    if es == [] then [] else [es[0].0] + KeysOf(es[1..])
  }

  lemma {:induction false} KeyAt<V>(es: Entries<V>, i: nat)
    requires i < |es|
    ensures |KeysOf(es)| == |es| && KeysOf(es)[i] == es[i].0
  {
    KeysSize(es);
    if i > 0 { KeyAt(es[1..], i - 1); }
  }

  lemma {:induction false} KeysSize<V>(es: Entries<V>)
    ensures |KeysOf(es)| == |es|
  {
    if es != [] { KeysSize(es[1..]); }
  }

  lemma {:induction false} KeysIn<V>(es: Entries<V>, k: string)
    ensures k in KeysOf(es) <==> Get(es, k).Some?
  {
    if es != [] { KeysIn(es[1..], k); }
  }

  lemma PutNext<V>(es: Entries<V>, k: string, v: V)
    requires es != [] && es[0].0 != k
    ensures Put(es, k, v) == [es[0]] + Put(es[1..], k, v)
  {
  }

  lemma {:induction false} KeysPut<V>(es: Entries<V>, k: string, v: V)
    ensures KeysOf(Put(es, k, v)) == Add(KeysOf(es), k)
  {
    if es == [] {
      assert Put(es, k, v) == [(k, v)] && [(k, v)][1..] == [];
    } else {
      var rest := es[1..];
      if es[0].0 == k {
        assert Put(es, k, v)[1..] == rest && Put(es, k, v)[0].0 == k;
      } else {
        KeysPut(rest, k, v);
        PutNext(es, k, v);
        assert ([es[0]] + Put(rest, k, v))[1..] == Put(rest, k, v);
        AddNext(es[0].0, KeysOf(rest), k);
      }
    }
  }

  lemma AddNext(first: string, rest: seq<string>, k: string)
    requires first != k
    ensures [first] + Add(rest, k) == Add([first] + rest, k)
  {
  }

  lemma DeleteNext<V>(es: Entries<V>, k: string)
    requires es != [] && es[0].0 != k
    ensures Delete(es, k) == [es[0]] + Delete(es[1..], k)
  {
    var rest, i := es[1..], Find(es[1..], k);
    assert Find(es, k) == i + 1 && es == [es[0]] + rest;
    if i < |rest| {
      assert es[..i + 1] == [es[0]] + rest[..i] && es[i + 1 + 1..] == rest[i + 1..];
      Associates([es[0]], rest[..i], rest[i + 1..]);
    }
  }

  lemma {:induction false} KeysDelete<V>(es: Entries<V>, k: string)
    ensures KeysOf(Delete(es, k)) == Without(KeysOf(es), k)
  {
    if es != [] {
      var rest := es[1..];
      assert KeysOf(es)[1..] == KeysOf(rest);
      if es[0].0 == k {
        assert Find(es, k) == 0 && es[..0] + es[1..] == rest;
      } else {
        KeysDelete(rest, k);
        DeleteNext(es, k);
        assert ([es[0]] + Delete(rest, k))[1..] == Delete(rest, k);
      }
    }
  }

  lemma {:induction false} WithoutAbsent(ids: seq<string>, id: string)
    requires id !in ids
    ensures Without(ids, id) == ids
  {
    if ids != [] { WithoutAbsent(ids[1..], id); }
  }

  lemma {:induction false} WithoutAdded(ids: seq<string>, id: string)
    ensures Without(Add(ids, id), id) == Without(ids, id)
  {
    if id !in ids {
      WithoutAbsent(ids, id);
      WithoutLast(ids, id);
    }
  }

  lemma {:induction false} WithoutLast(ids: seq<string>, id: string)
    requires id !in ids
    ensures Without(ids + [id], id) == ids
  {
    if ids != [] {
      WithoutLast(ids[1..], id);
      assert (ids + [id])[1..] == ids[1..] + [id];
    }
  }

  lemma {:induction false} KeysDistinct<V>(es: Entries<V>)
    requires DistinctKeys(es)
    ensures Distinct(KeysOf(es))
  {
    forall i | 0 <= i < |es| ensures |KeysOf(es)| == |es| && KeysOf(es)[i] == es[i].0 { KeyAt(es, i); }
    KeysSize(es);
  }
}
