/**
 Sorted enumeration of a finite set under a strict total order: the meaning of
 `ORDER BY` in the queries and of `Array.sort` in the scope printer.
 */
module Ordering {
  ghost predicate StrictTotal<T(!new)>(lt: (T, T) -> bool) {
    && (forall a :: !lt(a, a))
    && (forall a, b, c :: lt(a, b) && lt(b, c) ==> lt(a, c))
    && (forall a, b :: a != b ==> lt(a, b) || lt(b, a))
  }

  ghost predicate Ascending<T(!new)>(xs: seq<T>, lt: (T, T) -> bool) {
    forall i, j :: 0 <= i < j < |xs| ==> lt(xs[i], xs[j])
  }

  ghost function Elements<T(!new)>(xs: seq<T>): set<T> {
    set x | x in xs
  }

  ghost predicate IsLeast<T(!new)>(m: T, s: set<T>, lt: (T, T) -> bool) {
    m in s && forall x :: x in s && x != m ==> lt(m, x)
  }

  lemma {:induction false} LeastExists<T(!new)>(s: set<T>, lt: (T, T) -> bool)
    requires StrictTotal(lt) && s != {}
    ensures exists m :: IsLeast(m, s, lt)
    decreases |s|
  {
    var x :| x in s;
    var rest := s - {x};
    assert forall y :: y in s ==> y == x || y in rest;
    if rest == {} {
      assert IsLeast(x, s, lt);
    } else {
      LeastExists(rest, lt);
      var m :| IsLeast(m, rest, lt);
      var least := if lt(x, m) then x else m;
      assert IsLeast(least, s, lt);
    }
  }

  ghost function Sorted<T(!new)>(s: set<T>, lt: (T, T) -> bool): (r: seq<T>)
    requires StrictTotal(lt)
    ensures Elements(r) == s && |r| == |s|
    ensures Ascending(r, lt)
    decreases |s|
  {
    if s == {} then [] else
      LeastExists(s, lt);
      var m :| IsLeast(m, s, lt);
      var rest := Sorted(s - {m}, lt);
      assert forall x :: x in rest <==> x in Elements(rest);
      [m] + rest
  }

  lemma EmptyIffNoElements<T(!new)>(xs: seq<T>)
    ensures xs == [] <==> Elements(xs) == {}
  {
    if xs != [] { assert xs[0] in Elements(xs); }
  }

  /** A strictly ascending sequence is determined by its elements. */
  lemma {:induction false} AscendingUnique<T(!new)>(xs: seq<T>, ys: seq<T>, lt: (T, T) -> bool)
    requires StrictTotal(lt)
    requires Ascending(xs, lt) && Ascending(ys, lt)
    requires Elements(xs) == Elements(ys)
    ensures xs == ys
  {
    EmptyIffNoElements(xs);
    EmptyIffNoElements(ys);
    if xs != [] {
      assert xs[0] in Elements(ys) && ys[0] in Elements(xs);
      assert xs[0] == ys[0];
      forall x ensures x in Elements(xs[1..]) <==> x in Elements(ys[1..]) {
        assert x in Elements(xs[1..]) <==> x in Elements(xs) && x != xs[0];
        assert x in Elements(ys[1..]) <==> x in Elements(ys) && x != ys[0];
      }
      AscendingUnique(xs[1..], ys[1..], lt);
    }
  }
}
