/** Runs of a projector: a step function folded over the lines of a log. */
module Runs {
  import opened Wrappers

  datatype Out<S, E> = Out(state: S, events: seq<E>)

  function Fold<S, R, E>(step: (S, R) -> Out<S, E>, s: S, rows: seq<R>): Out<S, E>
    decreases |rows|
  {
    if rows == [] then Out(s, [])
    else
      var first := step(s, rows[0]);
      var rest := Fold(step, first.state, rows[1..]);
      Out(rest.state, first.events + rest.events)
  }

  /** Running a log in two parts is running it whole. */
  lemma {:induction false} FoldConcat<S, R, E>(step: (S, R) -> Out<S, E>, s: S, x: seq<R>, y: seq<R>)
    ensures var first := Fold(step, s, x); var rest := Fold(step, first.state, y);
      Fold(step, s, x + y) == Out(rest.state, first.events + rest.events)
    decreases |x|
  {
    if x == [] {
      assert x + y == y;
    } else {
      var head := step(s, x[0]);
      FoldConcat(step, head.state, x[1..], y);
      assert (x + y)[1..] == x[1..] + y;
      var mid := Fold(step, head.state, x[1..]);
      var rest := Fold(step, mid.state, y);
      assert head.events + (mid.events + rest.events) == head.events + mid.events + rest.events;
    }
  }

  lemma FoldOne<S, R, E>(step: (S, R) -> Out<S, E>, s: S, row: R)
    ensures Fold(step, s, [row]) == step(s, row)
  {
    var first := step(s, row);
    assert [row][1..] == [];
    assert first.events + [] == first.events;
  }

  lemma FoldSnoc<S, R, E>(step: (S, R) -> Out<S, E>, s: S, rows: seq<R>)
    requires rows != []
    ensures var n := |rows| - 1; var before := Fold(step, s, rows[..n]); var last := step(before.state, rows[n]);
      Fold(step, s, rows) == Out(last.state, before.events + last.events)
  {
    var n := |rows| - 1;
    assert rows == rows[..n] + [rows[n]];
    FoldConcat(step, s, rows[..n], [rows[n]]);
    FoldOne(step, Fold(step, s, rows[..n]).state, rows[n]);
  }

  /** What every step keeps, every run keeps. */
  lemma {:induction false} FoldKeeps<S(!new), R(!new), E>(step: (S, R) -> Out<S, E>, s: S, rows: seq<R>, inv: S -> bool)
    requires inv(s) && forall t, r :: inv(t) ==> inv(step(t, r).state)
    ensures inv(Fold(step, s, rows).state)
    decreases |rows|
  {
    if rows != [] { FoldKeeps(step, step(s, rows[0]).state, rows[1..], inv); }
  }

  /** Reading the events of a step from the view of its state gives the view of the next state. */
  ghost predicate Tracks<S, R, E, A>(step: (S, R) -> Out<S, E>, read: (A, seq<E>) -> Option<A>, view: S -> A, s: S, row: R) {
    read(view(s), step(s, row).events) == Some(view(step(s, row).state))
  }

  ghost predicate Splits<A, E>(read: (A, seq<E>) -> Option<A>, a: A, x: seq<E>, y: seq<E>) {
    read(a, x + y) == match read(a, x) case None => None case Some(b) => read(b, y)
  }

  /** A reader that follows every step follows every run. */
  lemma {:induction false} FoldTracks<S(!new), R(!new), E(!new), A(!new)>(
      step: (S, R) -> Out<S, E>, s: S, rows: seq<R>, read: (A, seq<E>) -> Option<A>, view: S -> A)
    requires forall t, r :: Tracks(step, read, view, t, r)
    requires forall a, x, y :: Splits(read, a, x, y)
    requires forall a :: read(a, []) == Some(a)
    ensures var out := Fold(step, s, rows); read(view(s), out.events) == Some(view(out.state))
    decreases |rows|
  {
    if rows != [] {
      var first := step(s, rows[0]);
      assert Tracks(step, read, view, s, rows[0]);
      FoldTracks(step, first.state, rows[1..], read, view);
      assert Splits(read, view(s), first.events, Fold(step, first.state, rows[1..]).events);
    }
  }

  /** What the lines of a log say, each by the lines before it. */
  function Told<R, E>(says: (seq<R>, R) -> seq<E>, rows: seq<R>): seq<E> {
    if rows == [] then []
    else
      var n := |rows| - 1;
      Told(says, rows[..n]) + says(rows[..n], rows[n])
  }

  ghost predicate Obeys<S, R, E>(step: (S, R) -> Out<S, E>, inv: (S, seq<R>) -> bool, says: (seq<R>, R) -> seq<E>,
                                 s: S, past: seq<R>, row: R) {
    inv(s, past) ==> inv(step(s, row).state, past + [row]) && step(s, row).events == says(past, row)
  }

  /** A projector that says at every line what the log so far calls for says what the log says. */
  lemma {:induction false} FoldTells<S(!new), R(!new), E>(step: (S, R) -> Out<S, E>, s: S, rows: seq<R>,
                                                          inv: (S, seq<R>) -> bool, says: (seq<R>, R) -> seq<E>)
    requires inv(s, [])
    requires forall t, past, row :: Obeys(step, inv, says, t, past, row)
    ensures Fold(step, s, rows).events == Told(says, rows) && inv(Fold(step, s, rows).state, rows)
    decreases |rows|
  {
    if rows != [] {
      var n := |rows| - 1;
      FoldTells(step, s, rows[..n], inv, says);
      FoldSnoc(step, s, rows);
      assert Obeys(step, inv, says, Fold(step, s, rows[..n]).state, rows[..n], rows[n]);
      assert rows[..n] + [rows[n]] == rows;
    }
  }
}
