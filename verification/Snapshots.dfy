/**
 The paged dump of a table before a deletion. Pages are cut out of the table by offset, and every query sorts the rows
 by the first column alone, so each may leave rows of equal keys in an order of its own.
 */
module Snapshots {
  import opened Sorting

  datatype Row = Row(key: nat, text: string)

  const PAGE: nat := 100

  predicate ByKey(a: Row, b: Row) { a.key <= b.key }

  /** One of the orders in which a query may return the rows. */
  ghost predicate Ordering(rows: seq<Row>, o: seq<Row>) { multiset(o) == multiset(rows) && |o| == |rows| && Ordered(o, ByKey) }

  /** LIMIT 100 OFFSET from. */
  function Page(o: seq<Row>, from: nat): seq<Row> {
    if from >= |o| then [] else o[from..if from + PAGE < |o| then from + PAGE else |o|]
  }

  /** The first `k` pages, each cut from the order of its own query. */
  function Dump(orders: seq<seq<Row>>, k: nat): seq<Row>
    requires k <= |orders|
  {
    if k == 0 then [] else Dump(orders, k - 1) + Page(orders[k - 1], PAGE * (k - 1))
  }

  /** `snapshot`: page after page until one is empty. */
  method Snapshot(rows: seq<Row>, orders: seq<seq<Row>>) returns (dump: seq<Row>, pages: nat)
    requires |rows| <= PAGE * (|orders| - 1) && forall o | o in orders :: Ordering(rows, o)
    ensures pages < |orders| && PAGE * pages >= |rows| && dump == Dump(orders, pages)
  {
    dump, pages := [], 0;
    var offset := 0;
    while true
      invariant pages < |orders| && dump == Dump(orders, pages)
      invariant offset == if PAGE * pages < |rows| then PAGE * pages else |rows|
      decreases |orders| - pages
    {
      assert orders[pages] in orders;
      var page := Page(orders[pages], offset);
      if page == [] { return; }
      dump := dump + page;
      offset := offset + |page|;
      pages := pages + 1;
    }
  }

  // ---------------------------------------------------------------- when the dump is complete

  function Keys(o: seq<Row>): (ks: seq<nat>)
    ensures |ks| == |o| && forall i | 0 <= i < |o| :: ks[i] == o[i].key
  {
    seq(|o|, i requires 0 <= i < |o| => o[i].key)
  }

  /** No page ends between rows of equal keys. */
  ghost predicate Clean(o: seq<Row>) { forall k | 0 < k && PAGE * k < |o| :: o[PAGE * k - 1].key < o[PAGE * k].key }

  /** How often every key occurs. */
  function KeyCounts(o: seq<Row>): multiset<nat> { multiset(Keys(o)) }

  function Counts(o: seq<Row>): multiset<Row> { multiset(o) }

  lemma {:induction false} SameKeys(o: seq<Row>, p: seq<Row>)
    requires Counts(o) == Counts(p)
    ensures KeyCounts(o) == KeyCounts(p)
    decreases |o|
  {
    SameSizes(o, p);
    hide KeyCounts, Counts, Removed;
    if o != [] {
      var i := Place(p, o);
      Without(o, 0);
      Without(p, i);
      Cancel(Counts(Removed(o, 0)), Counts(Removed(p, i)), o[0]);
      SameKeys(Removed(o, 0), Removed(p, i));
    } else {
      assert p == o;
    }
  }

  function Removed(o: seq<Row>, i: nat): (rest: seq<Row>)
    requires i < |o|
    ensures |rest| == |o| - 1
  {
    o[..i] + o[i + 1..]
  }

  lemma SameSizes(o: seq<Row>, p: seq<Row>)
    requires Counts(o) == Counts(p)
    ensures |o| == |p|
  {
    SameLength(o, p);
  }

  lemma Place(p: seq<Row>, o: seq<Row>) returns (i: nat)
    requires o != [] && Counts(o) == Counts(p)
    ensures i < |p| && p[i] == o[0]
  {
    assert o[0] in multiset(p);
    i :| 0 <= i < |p| && p[i] == o[0];
  }

  lemma Cancel(a: multiset<Row>, b: multiset<Row>, x: Row)
    requires a + multiset{x} == b + multiset{x}
    ensures a == b
  {
    assert a + multiset{x} - multiset{x} == a && b + multiset{x} - multiset{x} == b;
  }

  /** Taking one row out takes its key out. */
  lemma Without(o: seq<Row>, i: nat)
    requires i < |o|
    ensures var rest := Removed(o, i);
      Counts(o) == Counts(rest) + multiset{o[i]} && KeyCounts(o) == KeyCounts(rest) + multiset{o[i].key}
  {
    var a, b := o[..i], o[i + 1..];
    KeysWithout(o, i);
    hide Keys;
    assert o == a + [o[i]] + b;
  }

  lemma KeysWithout(o: seq<Row>, i: nat)
    requires i < |o|
    ensures var a, b := Keys(o[..i]), Keys(o[i + 1..]); Keys(o) == a + [o[i].key] + b && Keys(Removed(o, i)) == a + b
  {
  }

  predicate AtMost(a: nat, b: nat) { a <= b }

  /** Every order has the same key at the same place. */
  lemma KeyPlaces(rows: seq<Row>, o: seq<Row>, p: seq<Row>)
    requires Ordering(rows, o) && Ordering(rows, p)
    ensures Keys(o) == Keys(p)
  {
    assert Counts(o) == Counts(p);
    SameKeys(o, p);
    assert KeyCounts(o) == KeyCounts(p);
    SortedUnique(Keys(o), Keys(p), AtMost);
  }

  /** Between different keys, the rows before a place are those of smaller keys, whatever the order. */
  lemma PrefixCount(o: seq<Row>, b: nat, x: Row)
    requires Ordered(o, ByKey) && 0 < b < |o| && o[b - 1].key < o[b].key
    ensures multiset(o[..b])[x] == if x.key < o[b].key then multiset(o)[x] else 0
  {
    assert o == o[..b] + o[b..];
    if x.key < o[b].key {
      forall j | 0 <= j < |o[b..]| ensures o[b..][j] != x {
        assert o[b..][j] == o[b + j];
        assert j > 0 ==> ByKey(o[b], o[b + j]);
      }
      assert x !in o[b..] && x !in multiset(o[b..]);
    } else {
      forall j | 0 <= j < b ensures o[..b][j] != x {
        assert j < b - 1 ==> ByKey(o[j], o[b - 1]);
      }
      assert x !in o[..b] && x !in multiset(o[..b]);
    }
  }

  lemma PrefixSame(rows: seq<Row>, o: seq<Row>, p: seq<Row>, b: nat)
    requires Ordering(rows, o) && Ordering(rows, p) && b <= |rows|
    requires 0 < b < |rows| ==> o[b - 1].key < o[b].key
    ensures multiset(o[..b]) == multiset(p[..b])
  {
    if 0 < b < |rows| {
      KeyPlaces(rows, o, p);
      assert Keys(o)[b] == Keys(p)[b] && Keys(o)[b - 1] == Keys(p)[b - 1];
      forall x ensures multiset(o[..b])[x] == multiset(p[..b])[x] {
        PrefixCount(o, b, x);
        PrefixCount(p, b, x);
      }
    } else if b == |rows| {
      assert o[..b] == o && p[..b] == p;
    }
  }

  function Cut(n: nat, k: nat): (c: nat)
    ensures c <= n
  {
    if PAGE * k < n then PAGE * k else n
  }

  lemma {:induction false} DumpCounts(rows: seq<Row>, orders: seq<seq<Row>>, o: seq<Row>, k: nat)
    requires k <= |orders| && Ordering(rows, o) && Clean(o) && |o| == |rows| && forall p | p in orders :: Ordering(rows, p)
    ensures multiset(Dump(orders, k)) == multiset(o[..Cut(|rows|, k)])
  {
    hide Page, Ordering, Clean, Cut;
    if k > 0 {
      DumpCounts(rows, orders, o, k - 1);
      assert orders[k - 1] in orders;
      PageCounts(rows, o, orders[k - 1], k - 1);
      Joined(Dump(orders, k - 1), Page(orders[k - 1], PAGE * (k - 1)));
    } else {
      assert o[..Cut(|rows|, 0)] == [] by {
        CutZero(|rows|);
      }
    }
  }

  lemma CutZero(n: nat)
    ensures Cut(n, 0) == 0
  {
  }

  lemma Joined(a: seq<Row>, b: seq<Row>)
    ensures multiset(a + b) == multiset(a) + multiset(b)
  {
  }

  /** One page adds the rows between its bounds. */
  lemma PageCounts(rows: seq<Row>, o: seq<Row>, p: seq<Row>, k: nat)
    requires Ordering(rows, o) && Ordering(rows, p) && Clean(o)
    ensures multiset(o[..Cut(|rows|, k)]) + multiset(Page(p, PAGE * k)) == multiset(o[..Cut(|rows|, k + 1)])
  {
    assert |o| == |rows| && |p| == |rows|;
    var b, e := Cut(|rows|, k), Cut(|rows|, k + 1);
    CutClean(o, k);
    CutClean(o, k + 1);
    PageIs(p, k);
    hide Ordering, Clean, Page, Cut;
    PrefixSame(rows, o, p, b);
    PrefixSame(rows, o, p, e);
    Added(o[..b], o[..e], p[..b], p[..e], Page(p, PAGE * k));
  }

  lemma CutClean(o: seq<Row>, k: nat)
    requires Clean(o)
    ensures var b := Cut(|o|, k); 0 < b < |o| ==> o[b - 1].key < o[b].key
  {
  }

  lemma PageIs(p: seq<Row>, k: nat)
    ensures p[..Cut(|p|, k + 1)] == p[..Cut(|p|, k)] + Page(p, PAGE * k)
  {
  }

  lemma Added(ob: seq<Row>, oe: seq<Row>, pb: seq<Row>, pe: seq<Row>, page: seq<Row>)
    requires multiset(ob) == multiset(pb) && multiset(oe) == multiset(pe) && pe == pb + page
    ensures multiset(ob) + multiset(page) == multiset(oe)
  {
  }

  /** If no page ends between equal keys, the dump holds every row, and no more. */
  lemma DumpIsComplete(rows: seq<Row>, orders: seq<seq<Row>>, o: seq<Row>, pages: nat)
    requires pages <= |orders| && Ordering(rows, o) && Clean(o) && forall p | p in orders :: Ordering(rows, p)
    requires PAGE * pages >= |rows|
    ensures multiset(Dump(orders, pages)) == multiset(rows)
  {
    DumpCounts(rows, orders, o, pages);
    assert o[..|rows|] == o;
  }

  /** In particular when the first column is unique. */
  lemma UniqueKeysAreClean(rows: seq<Row>, o: seq<Row>)
    requires Ordering(rows, o) && forall i, j | 0 <= i < j < |o| :: o[i].key != o[j].key
    ensures Clean(o)
  {
    forall k | 0 < k && PAGE * k < |o| ensures o[PAGE * k - 1].key < o[PAGE * k].key {
      assert ByKey(o[PAGE * k - 1], o[PAGE * k]);
    }
  }

  // ---------------------------------------------------------------- when it is not

  function Repeated(o: seq<Row>, p: seq<Row>, k: nat, n: nat): (orders: seq<seq<Row>>)
    ensures |orders| == n && forall i | 0 <= i < n :: orders[i] == if i < k then o else p
  {
    seq(n, i => if i < k then o else p)
  }

  lemma NoDump(orders: seq<seq<Row>>)
    ensures Dump(orders, 0) == []
  {
  }

  lemma FullPage(o: seq<Row>, k: nat)
    requires PAGE * (k + 1) <= |o|
    ensures o[..PAGE * (k + 1)] == o[..PAGE * k] + Page(o, PAGE * k)
  {
  }

  lemma {:induction false} FirstDumps(o: seq<Row>, orders: seq<seq<Row>>, k: nat)
    requires k <= |orders| && (forall i | 0 <= i < k :: orders[i] == o) && PAGE * k <= |o|
    ensures Dump(orders, k) == o[..PAGE * k]
  {
    hide Page, Dump;
    if k > 0 {
      FirstDumps(o, orders, k - 1);
      NextDump(orders, k - 1);
      FullPage(o, k - 1);
    } else {
      NoDump(orders);
    }
  }

  /** Queries before page `k` returned one order, those from there on the other. */
  lemma {:induction false} MixedDump(o: seq<Row>, p: seq<Row>, orders: seq<seq<Row>>, k: nat, n: nat)
    requires k <= n <= |orders| && |p| == |o| && PAGE * k <= |o|
    requires forall i | 0 <= i < n :: orders[i] == if i < k then o else p
    ensures PAGE * k <= Cut(|p|, n) && Dump(orders, n) == o[..PAGE * k] + p[PAGE * k..Cut(|p|, n)]
  {
    hide Page, Cut, Dump;
    CutReaches(|p|, k, n);
    if n == k {
      FirstDumps(o, orders, k);
    } else {
      MixedDump(o, p, orders, k, n - 1);
      TailGrows(p, k, n - 1);
      NextDump(orders, n - 1);
    }
  }

  lemma NextDump(orders: seq<seq<Row>>, k: nat)
    requires k < |orders|
    ensures Dump(orders, k + 1) == Dump(orders, k) + Page(orders[k], PAGE * k)
  {
  }

  lemma CutReaches(n: nat, j: nat, k: nat)
    requires j <= k && PAGE * j <= n
    ensures PAGE * j <= Cut(n, k) && Cut(n, j) == PAGE * j
  {
  }

  lemma TailGrows(p: seq<Row>, j: nat, k: nat)
    requires j <= k && PAGE * j <= |p|
    ensures PAGE * j <= Cut(|p|, k) <= Cut(|p|, k + 1)
    ensures p[PAGE * j..Cut(|p|, k + 1)] == p[PAGE * j..Cut(|p|, k)] + Page(p, PAGE * k)
  {
  }

  /**
   Otherwise there are orders for the queries to return that make the dump lose a row: the page before ends with the one
   next to it, and its own page starts with that one again.
   */
  lemma DumpMayRepeat(rows: seq<Row>, o: seq<Row>, pages: nat) returns (orders: seq<seq<Row>>, b: nat)
    requires Ordering(rows, o) && !Clean(o) && PAGE * pages >= |o|
    requires forall i, j | 0 <= i < j < |o| :: o[i] != o[j]
    ensures |orders| == pages && (forall p | p in orders :: Ordering(rows, p))
    ensures 0 < b < |o| && Dump(orders, pages) == o[b := o[b - 1]]
    ensures o[b] in rows && o[b] !in Dump(orders, pages) && multiset(Dump(orders, pages))[o[b - 1]] == 2
  {
    hide Clean, Dump;
    var k := Tie(rows, o);
    b := PAGE * k;
    Swapped(rows, o, b);
    var p := o[b - 1 := o[b]][b := o[b - 1]];
    assert o[b] in multiset(o);
    hide Ordering;
    orders := Repeated(o, p, k, pages);
    MixedDump(o, p, orders, k, pages);
    assert o[..b] + p[b..] == o[b := o[b - 1]];
    TwiceAndNever(o, b);
  }

  lemma TwiceAndNever(o: seq<Row>, b: nat)
    requires 0 < b < |o| && forall i, j | 0 <= i < j < |o| :: o[i] != o[j]
    ensures var d := o[b := o[b - 1]]; o[b] !in d && multiset(d)[o[b - 1]] == 2
  {
    var x := o[b - 1];
    var start, rest := o[..b - 1], o[b + 1..];
    assert o[b := x] == start + [x] + [x] + rest;
    assert x !in start && x !in rest;
  }

  lemma Tie(rows: seq<Row>, o: seq<Row>) returns (k: nat)
    requires Ordering(rows, o) && !Clean(o)
    ensures 0 < k && PAGE * k < |o| && o[PAGE * k - 1].key == o[PAGE * k].key
  {
    k :| 0 < k && PAGE * k < |o| && o[PAGE * k - 1].key >= o[PAGE * k].key;
    assert ByKey(o[PAGE * k - 1], o[PAGE * k]);
  }

  lemma Swapped(rows: seq<Row>, o: seq<Row>, b: nat)
    requires Ordering(rows, o) && 0 < b < |o| && o[b - 1].key == o[b].key
    ensures Ordering(rows, o[b - 1 := o[b]][b := o[b - 1]])
  {
    var p := o[b - 1 := o[b]][b := o[b - 1]];
    assert o == o[..b - 1] + [o[b - 1]] + [o[b]] + o[b + 1..];
    assert p == o[..b - 1] + [o[b]] + [o[b - 1]] + o[b + 1..];
    assert multiset(p) == multiset(o);
    assert Keys(p) == Keys(o);
    forall i, j | 0 <= i < j < |p| ensures ByKey(p[i], p[j]) {
      assert Keys(p)[i] == Keys(o)[i] && Keys(p)[j] == Keys(o)[j] && ByKey(o[i], o[j]);
    }
  }

  /** Whatever orders the queries return, the dump holds exactly the rows. */
  ghost predicate AlwaysComplete(rows: seq<Row>, pages: nat) {
    forall orders: seq<seq<Row>> :: |orders| == pages && (forall p | p in orders :: Ordering(rows, p)) ==>
      multiset(Dump(orders, pages)) == multiset(rows)
  }

  /** The dump can be relied on exactly when no page ends between rows of equal keys. */
  lemma CompleteWhenClean(rows: seq<Row>, o: seq<Row>, pages: nat)
    requires Ordering(rows, o) && PAGE * pages >= |rows| && forall i, j | 0 <= i < j < |o| :: o[i] != o[j]
    ensures AlwaysComplete(rows, pages) <==> Clean(o)
  {
    assert |rows| == |o|;
    hide Ordering, Clean, Dump;
    if Clean(o) {
      forall orders: seq<seq<Row>> | |orders| == pages && (forall p | p in orders :: Ordering(rows, p))
        ensures multiset(Dump(orders, pages)) == multiset(rows)
      {
        DumpIsComplete(rows, orders, o, pages);
      }
    } else {
      var orders, b := DumpMayRepeat(rows, o, pages);
      assert o[b] in multiset(rows) && o[b] !in multiset(Dump(orders, pages));
    }
  }
}
