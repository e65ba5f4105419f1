/** The problem bank: an index from slugs to sets, built once, against looking through all sets. */
module ProblemBank {
  import opened Values

  datatype Problem = Problem(slug: string, title: string)
  datatype BankSet = BankSet(id: string, problems: seq<Problem>)

  // ---------------------------------------------------------------- looking through

  function FindProblem(problems: seq<Problem>, slug: string): (p: Option<Problem>)
    ensures p.Some? <==> Holds(problems, slug)
  {
    if problems == [] then None
    else if problems[0].slug == slug then
      assert problems[0].slug == slug;
      Some(problems[0])
    else
      assert Holds(problems[1..], slug) ==> Holds(problems, slug) by {
        if Holds(problems[1..], slug) {
          var k :| 0 <= k < |problems[1..]| && problems[1..][k].slug == slug;
          assert problems[k + 1].slug == slug;
        }
      }
      assert Holds(problems, slug) ==> Holds(problems[1..], slug) by {
        if Holds(problems, slug) {
          var k :| 0 <= k < |problems| && problems[k].slug == slug;
          assert problems[1..][k - 1].slug == slug;
        }
      }
      FindProblem(problems[1..], slug)
  }

  predicate Holds(problems: seq<Problem>, slug: string) { exists k :: 0 <= k < |problems| && problems[k].slug == slug }

  /** The first match, over the sets in order and the problems of each in order. */
  function Scan(sets: seq<BankSet>, slug: string): Option<(BankSet, Problem)> {
    if sets == [] then None
    else
      var p := FindProblem(sets[0].problems, slug);
      if p.Some? then Some((sets[0], p.value)) else Scan(sets[1..], slug)
  }

  // ---------------------------------------------------------------- the index

  function SetById(sets: seq<BankSet>, id: string): Option<BankSet> {
    if sets == [] then None else if sets[0].id == id then Some(sets[0]) else SetById(sets[1..], id)
  }

  /** `find`: the set from the index, then the problem in it. */
  function Find(sets: seq<BankSet>, index: map<string, string>, slug: string): Option<(BankSet, Problem)> {
    if slug !in index then None
    else
      var s := SetById(sets, index[slug]);
      if s.None? then None
      else
        var p := FindProblem(s.value.problems, slug);
        if p.Some? then Some((s.value, p.value)) else None
  }

  /** Every slug of the first `n` sets leads to the first of them that holds it. */
  ghost predicate Indexed(sets: seq<BankSet>, n: nat, index: map<string, string>)
    requires n <= |sets|
  {
    && (forall slug :: slug in index <==> exists k | 0 <= k < n :: Holds(sets[k].problems, slug))
    && forall slug, k | slug in index && 0 <= k < n && FirstHolder(sets, k, slug) :: index[slug] == sets[k].id
  }

  predicate FirstHolder(sets: seq<BankSet>, k: nat, slug: string)
    requires k < |sets|
  {
    Holds(sets[k].problems, slug) && forall j | 0 <= j < k :: !Holds(sets[j].problems, slug)
  }

  /** What the first `m` problems of a set add: slugs that are not there yet. */
  ghost predicate Added(before: map<string, string>, index: map<string, string>, s: BankSet, m: nat)
    requires m <= |s.problems|
  {
    && (forall slug :: slug in index <==> slug in before || Holds(s.problems[..m], slug))
    && forall slug :: slug in index ==> index[slug] == if slug in before then before[slug] else s.id
  }

  /** `entry(..).or_insert(..)` over all sets and problems. */
  method BuildIndex(sets: seq<BankSet>) returns (index: map<string, string>)
    ensures Indexed(sets, |sets|, index)
  {
    index := map[];
    var n := 0;
    while n < |sets|
      invariant n <= |sets| && Indexed(sets, n, index)
    {
      ghost var before := index;
      var problems, m := sets[n].problems, 0;
      while m < |problems|
        invariant m <= |problems| && Added(before, index, sets[n], m)
      {
        var slug := problems[m].slug;
        OneMore(problems, m);
        if slug !in index {
          index := index[slug := sets[n].id];
        }
        m := m + 1;
      }
      assert problems[..m] == problems;
      NextSet(sets, n, before, index);
      n := n + 1;
    }
  }

  lemma OneMore(problems: seq<Problem>, m: nat)
    requires m < |problems|
    ensures forall slug :: Holds(problems[..m + 1], slug) <==> Holds(problems[..m], slug) || slug == problems[m].slug
  {
    forall slug ensures Holds(problems[..m + 1], slug) <==> Holds(problems[..m], slug) || slug == problems[m].slug {
      if Holds(problems[..m + 1], slug) {
        var k :| 0 <= k < m + 1 && problems[..m + 1][k].slug == slug;
        assert k < m ==> problems[..m][k].slug == slug;
      }
      if Holds(problems[..m], slug) {
        var k :| 0 <= k < m && problems[..m][k].slug == slug;
        assert problems[..m + 1][k].slug == slug;
      }
      assert problems[..m + 1][m] == problems[m];
    }
  }

  lemma NextSet(sets: seq<BankSet>, n: nat, before: map<string, string>, index: map<string, string>)
    requires n < |sets| && Indexed(sets, n, before) && Added(before, index, sets[n], |sets[n].problems|)
    ensures Indexed(sets, n + 1, index)
  {
    hide Holds;
    assert sets[n].problems[..|sets[n].problems|] == sets[n].problems;
    forall slug, k | slug in index && 0 <= k < n + 1 && FirstHolder(sets, k, slug) ensures index[slug] == sets[k].id {
      if slug in before {
        var j :| 0 <= j < n && Holds(sets[j].problems, slug);
        assert k <= j;
      }
    }
  }

  // ---------------------------------------------------------------- both agree

  predicate UniqueIds(sets: seq<BankSet>) { forall i, j | 0 <= i < j < |sets| :: sets[i].id != sets[j].id }

  /** Looking up the index gives what looking through all sets gives. */
  lemma FindIsScan(sets: seq<BankSet>, index: map<string, string>, slug: string)
    requires UniqueIds(sets) && Indexed(sets, |sets|, index)
    ensures Find(sets, index, slug) == Scan(sets, slug)
  {
    hide Holds;
    if slug in index {
      var k :| 0 <= k < |sets| && Holds(sets[k].problems, slug);
      var first := ScanFinds(sets, slug, k);
      SetIs(sets, first);
    } else {
      ScanFails(sets, slug);
    }
  }

  lemma {:induction false} ScanFinds(sets: seq<BankSet>, slug: string, k: nat) returns (first: nat)
    requires k < |sets| && Holds(sets[k].problems, slug)
    ensures first < |sets| && FirstHolder(sets, first, slug)
    ensures Scan(sets, slug) == Some((sets[first], FindProblem(sets[first].problems, slug).value))
  {
    hide Holds;
    if Holds(sets[0].problems, slug) {
      first := 0;
    } else {
      var f := ScanFinds(sets[1..], slug, k - 1);
      first := f + 1;
      forall j | 0 <= j < first ensures !Holds(sets[j].problems, slug) {
        assert j > 0 ==> sets[1..][j - 1] == sets[j];
      }
    }
  }

  lemma {:induction false} ScanFails(sets: seq<BankSet>, slug: string)
    requires forall k | 0 <= k < |sets| :: !Holds(sets[k].problems, slug)
    ensures Scan(sets, slug) == None
  {
    hide Holds;
    if sets != [] {
      assert forall k | 0 <= k < |sets[1..]| :: sets[1..][k] == sets[k + 1];
      ScanFails(sets[1..], slug);
    }
  }

  lemma {:induction false} SetIs(sets: seq<BankSet>, k: nat)
    requires UniqueIds(sets) && k < |sets|
    ensures SetById(sets, sets[k].id) == Some(sets[k])
  {
    if k > 0 {
      SetIs(sets[1..], k - 1);
    }
  }

  // ---------------------------------------------------------------- ids

  function Named(prefix: string, stems: seq<string>): (ids: seq<string>)
    ensures |ids| == |stems| && forall k | 0 <= k < |stems| :: ids[k] == prefix + stems[k]
  {
    seq(|stems|, k requires 0 <= k < |stems| => prefix + stems[k])
  }

  /** Categories and standalone sets are named after their files, each with a prefix of its own, so ids are unique. */
  lemma IdsAreUnique(sets: seq<BankSet>, categories: seq<string>, standalone: seq<string>)
    requires forall i, j | 0 <= i < j < |categories| :: categories[i] != categories[j]
    requires forall i, j | 0 <= i < j < |standalone| :: standalone[i] != standalone[j]
    requires |sets| == |categories| + |standalone|
    requires forall k | 0 <= k < |sets| :: sets[k].id == (Named("cat:", categories) + Named("set:", standalone))[k]
    ensures UniqueIds(sets)
  {
    forall i, j | 0 <= i < j < |sets| ensures sets[i].id != sets[j].id {
      var a, b := sets[i].id, sets[j].id;
      if j < |categories| {
        assert a[4..] == categories[i] && b[4..] == categories[j];
      } else if i >= |categories| {
        assert a[4..] == standalone[i - |categories|] && b[4..] == standalone[j - |categories|];
      } else {
        assert a[0] == 'c' && b[0] == 's';
      }
    }
  }
}
