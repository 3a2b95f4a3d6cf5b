/** Sequences: flattening, and predicates on all or on the last of their members. */
module Lists {

  /** The lists of all members, joined in order. */
  function Flat<X, Y>(xs: seq<X>, f: X -> seq<Y>): seq<Y> {
    if xs == [] then [] else f(xs[0]) + Flat(xs[1..], f)
  }

  lemma {:induction false} FlatConcat<X, Y>(x: seq<X>, y: seq<X>, f: X -> seq<Y>)
    ensures Flat(x + y, f) == Flat(x, f) + Flat(y, f)
  {
    if x == [] {
      assert x + y == y;
    } else {
      FlatConcat(x[1..], y, f);
      assert (x + y)[1..] == x[1..] + y && (x + y)[0] == x[0];
      assert Flat(x + y, f) == f(x[0]) + Flat(x[1..] + y, f);
      assert f(x[0]) + (Flat(x[1..], f) + Flat(y, f)) == f(x[0]) + Flat(x[1..], f) + Flat(y, f);
    }
  }

  lemma FlatOne<X, Y>(x: X, f: X -> seq<Y>)
    ensures Flat([x], f) == f(x)
  {
    assert [x][1..] == [];
    assert f(x) + [] == f(x);
  }

  lemma FlatTwo<X, Y>(x: X, y: X, f: X -> seq<Y>)
    ensures Flat([x, y], f) == f(x) + f(y)
  {
    assert [x, y] == [x] + [y];
    FlatConcat([x], [y], f);
    FlatOne(x, f);
    FlatOne(y, f);
  }

  lemma FlatFour<X, Y>(a: seq<X>, b: seq<X>, c: seq<X>, d: seq<X>, f: X -> seq<Y>)
    ensures Flat(a + b + c + d, f) == Flat(a, f) + Flat(b, f) + Flat(c, f) + Flat(d, f)
  {
    FlatConcat(a + b + c, d, f);
    FlatConcat(a + b, c, f);
    FlatConcat(a, b, f);
  }

  lemma FlatSnoc<X, Y>(xs: seq<X>, x: X, f: X -> seq<Y>)
    ensures Flat(xs + [x], f) == Flat(xs, f) + f(x)
  {
    FlatConcat(xs, [x], f);
    FlatOne(x, f);
  }

  lemma FlatNext<X, Y>(xs: seq<X>, k: nat, f: X -> seq<Y>)
    requires k < |xs|
    ensures Flat(xs[..k + 1], f) == Flat(xs[..k], f) + f(xs[k])
  {
    assert xs[..k + 1] == xs[..k] + [xs[k]];
    FlatSnoc(xs[..k], xs[k], f);
  }

  ghost predicate All<X>(xs: seq<X>, p: X -> bool) {
    xs == [] || (p(xs[0]) && All(xs[1..], p))
  }

  lemma {:induction false} AllConcat<X>(x: seq<X>, y: seq<X>, p: X -> bool)
    ensures All(x + y, p) <==> All(x, p) && All(y, p)
  {
    if x == [] {
      assert x + y == y;
    } else {
      AllConcat(x[1..], y, p);
      assert (x + y)[1..] == x[1..] + y;
    }
  }

  lemma {:induction false} AllAt<X>(xs: seq<X>, p: X -> bool, i: nat)
    requires All(xs, p) && i < |xs|
    ensures p(xs[i])
  {
    if i > 0 { AllAt(xs[1..], p, i - 1); }
  }

  lemma AllOne<X>(x: X, p: X -> bool)
    ensures All([x], p) <==> p(x)
  {
    assert [x][1..] == [];
  }

  predicate Ends<X>(xs: seq<X>, p: X -> bool) {
    xs != [] && p(xs[|xs| - 1])
  }

  /** No member but the last satisfies `p`. */
  predicate OnlyLast<X>(xs: seq<X>, p: X -> bool) {
    |xs| <= 1 || (!p(xs[0]) && OnlyLast(xs[1..], p))
  }

  lemma {:induction false} OnlyLastConcat<X>(x: seq<X>, y: seq<X>, p: X -> bool)
    ensures OnlyLast(x + y, p) <==> OnlyLast(x, p) && OnlyLast(y, p) && (y != [] ==> !Ends(x, p))
    ensures Ends(x + y, p) <==> if y == [] then Ends(x, p) else Ends(y, p)
  {
    var xy := x + y;
    if x == [] {
      assert xy == y;
    } else if y == [] {
      assert xy == x;
    } else {
      OnlyLastConcat(x[1..], y, p);
      assert xy[0] == x[0] && xy[1..] == x[1..] + y && xy[|xy| - 1] == y[|y| - 1];
      if |x| == 1 {
        assert x[1..] == [] && xy[1..] == y;
      } else {
        assert x[1..][|x| - 2] == x[|x| - 1];
      }
    }
  }

  /** Parts of a list inherit what all of it, and all but its last member, satisfies. */
  lemma {:induction false} FlatShape<X>(xs: seq<X>, f: X -> seq<X>, good: X -> bool, last: X -> bool)
    requires forall x :: f(x) == [x] || f(x) == []
    requires All(xs, good)
    ensures All(Flat(xs, f), good)
    ensures OnlyLast(xs, last) ==> OnlyLast(Flat(xs, f), last)
  {
    if xs != [] {
      var head, rest := f(xs[0]), Flat(xs[1..], f);
      FlatShape(xs[1..], f, good, last);
      assert |xs| == 1 ==> rest == [];
      if head == [] {
        assert Flat(xs, f) == rest;
      } else {
        assert head == [xs[0]];
        AllConcat(head, rest, good);
        AllOne(xs[0], good);
        OnlyLastConcat(head, rest, last);
      }
    }
  }

  lemma Associates<T>(a: seq<T>, b: seq<T>, c: seq<T>)
    ensures (a + b) + c == a + (b + c)
  {
  }

  lemma Peel<T>(s: seq<T>, i: nat)
    requires i < |s|
    ensures s[i..] == [s[i]] + s[i + 1..]
  {
  }

  lemma DropDrop<T>(s: seq<T>, i: nat, j: nat)
    requires i + j <= |s|
    ensures s[i..][j..] == s[i + j..]
  {
  }

  lemma DropTake<T>(s: seq<T>, i: nat, j: nat)
    requires i <= j <= |s|
    ensures s[i..][..j - i] == s[i..j]
  {
  }

  lemma Joint<T>(a: seq<T>, b: seq<T>)
    ensures (a + b)[..|a|] == a && (a + b)[|a|..] == b
  {
  }

  lemma CutConcat<T>(x: seq<T>, y: seq<T>, n: nat)
    requires n < |x|
    ensures (x + y)[..n] == x[..n] && (x + y)[n + 1..] == x[n + 1..] + y
  {
  }
}
