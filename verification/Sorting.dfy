/** Sorting by any total order, and the order of texts. */
module Sorting {
  ghost predicate Total<T(!new)>(le: (T, T) -> bool) { forall x, y :: le(x, y) || le(y, x) }

  ghost predicate Transitive<T(!new)>(le: (T, T) -> bool) { forall x, y, z :: le(x, y) && le(y, z) ==> le(x, z) }

  ghost predicate Antisymmetric<T(!new)>(le: (T, T) -> bool) { forall x, y :: le(x, y) && le(y, x) ==> x == y }

  predicate Ordered<T>(xs: seq<T>, le: (T, T) -> bool) { forall i, j | 0 <= i < j < |xs| :: le(xs[i], xs[j]) }

  function Insert<T>(x: T, xs: seq<T>, le: (T, T) -> bool): seq<T> {
    if xs == [] || le(x, xs[0]) then [x] + xs else [xs[0]] + Insert(x, xs[1..], le)
  }

  function Sorted<T>(xs: seq<T>, le: (T, T) -> bool): seq<T> {
    if xs == [] then [] else Insert(xs[0], Sorted(xs[1..], le), le)
  }

  lemma {:induction false} Inserts<T>(x: T, xs: seq<T>, le: (T, T) -> bool)
    ensures multiset(Insert(x, xs, le)) == multiset{x} + multiset(xs) && |Insert(x, xs, le)| == |xs| + 1
  {
    if xs != [] && !le(x, xs[0]) {
      Inserts(x, xs[1..], le);
      assert xs == [xs[0]] + xs[1..];
    }
  }

  lemma {:induction false} InsertOrders<T(!new)>(x: T, xs: seq<T>, le: (T, T) -> bool)
    requires Total(le) && Transitive(le) && Ordered(xs, le)
    ensures Ordered(Insert(x, xs, le), le)
  {
    if xs != [] && !le(x, xs[0]) {
      var rest := Insert(x, xs[1..], le);
      InsertOrders(x, xs[1..], le);
      Inserts(x, xs[1..], le);
      forall y | y in rest ensures le(xs[0], y) {
        assert y in multiset(rest);
      }
    }
  }

  /** The sorted sequence has the same elements, in order. */
  lemma {:induction false} SortedIs<T(!new)>(xs: seq<T>, le: (T, T) -> bool)
    requires Total(le) && Transitive(le)
    ensures multiset(Sorted(xs, le)) == multiset(xs) && |Sorted(xs, le)| == |xs| && Ordered(Sorted(xs, le), le)
  {
    if xs != [] {
      SortedIs(xs[1..], le);
      Inserts(xs[0], Sorted(xs[1..], le), le);
      InsertOrders(xs[0], Sorted(xs[1..], le), le);
      assert xs == [xs[0]] + xs[1..];
    }
  }

  /** There is only one way to put elements in order. */
  lemma {:induction false} SortedUnique<T(!new)>(xs: seq<T>, ys: seq<T>, le: (T, T) -> bool)
    requires Antisymmetric(le) && Total(le) && Ordered(xs, le) && Ordered(ys, le) && multiset(xs) == multiset(ys)
    ensures xs == ys
  {
    SameLength(xs, ys);
    if xs != [] {
      SameHead(xs, ys, le);
      assert xs == [xs[0]] + xs[1..] && ys == [ys[0]] + ys[1..];
      assert multiset(xs[1..]) == multiset(xs) - multiset{xs[0]} && multiset(ys[1..]) == multiset(ys) - multiset{ys[0]};
      SortedUnique(xs[1..], ys[1..], le);
    }
  }

  lemma SameLength<T>(xs: seq<T>, ys: seq<T>)
    requires multiset(xs) == multiset(ys)
    ensures |xs| == |ys|
  {
    assert |multiset(xs)| == |xs| && |multiset(ys)| == |ys|;
  }

  lemma SameHead<T(!new)>(xs: seq<T>, ys: seq<T>, le: (T, T) -> bool)
    requires Antisymmetric(le) && Total(le) && Ordered(xs, le) && Ordered(ys, le) && multiset(xs) == multiset(ys)
    requires xs != [] && ys != []
    ensures xs[0] == ys[0]
  {
    assert xs[0] in multiset(ys) && ys[0] in multiset(xs);
    var i :| 0 <= i < |xs| && xs[i] == ys[0];
    var j :| 0 <= j < |ys| && ys[j] == xs[0];
    assert le(xs[0], xs[0]) && le(ys[0], ys[0]);
    assert le(xs[0], xs[i]) && le(ys[0], ys[j]);
  }

  /** Texts by their first difference; a prefix comes first. */
  predicate Lex(s: string, t: string) {
    s == [] || (t != [] && (s[0] < t[0] || (s[0] == t[0] && Lex(s[1..], t[1..]))))
  }

  lemma {:induction false} LexTotal(s: string, t: string)
    ensures Lex(s, t) || Lex(t, s)
    ensures Lex(s, t) && Lex(t, s) ==> s == t
  {
    if s != [] && t != [] {
      LexTotal(s[1..], t[1..]);
      if s[0] == t[0] {
        assert s == [s[0]] + s[1..] && t == [t[0]] + t[1..];
      }
    }
  }

  lemma {:induction false} LexTransitive(s: string, t: string, u: string)
    requires Lex(s, t) && Lex(t, u)
    ensures Lex(s, u)
  {
    if s != [] && t != [] && u != [] && s[0] == t[0] == u[0] {
      LexTransitive(s[1..], t[1..], u[1..]);
    }
  }
}
