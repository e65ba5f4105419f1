/** The ranking of a class on one problem: ranked first, searched afterwards, shown page by page. */
module Ranking {
  import opened Values
  import opened Search
  import opened Sorting
  import opened Sets

  /** A student of the class, with the grade of the best submission; none while there is no verdict. */
  datatype Student = Student(user: string, no: Option<string>, nick: Option<string>, score: Option<nat>)

  datatype Entry = Entry(student: Student, rank: Option<nat>)

  /** COALESCE(NULLIF(x,''),user_id). */
  function Shown(x: Option<string>, user: string): string { if x.Some? && x.value != "" then x.value else user }

  // ---------------------------------------------------------------- searching

  predicate LikeColumn(x: Option<string>, pattern: string) { x.Some? && Like(x.value, pattern) }

  /** The filter of the count, on the columns as they are. */
  predicate RawMatch(s: Student, pattern: string) { Like(s.user, pattern) || LikeColumn(s.no, pattern) || LikeColumn(s.nick, pattern) }

  /** The filter of the list, on the columns as they are shown. */
  predicate ShownMatch(s: Student, pattern: string) {
    Like(s.user, pattern) || Like(Shown(s.no, s.user), pattern) || Like(Shown(s.nick, s.user), pattern)
  }

  /** Both filters find the same students: what an empty column contains, every user name contains. */
  lemma FiltersAgree(s: Student, search: string)
    ensures RawMatch(s, Pattern(search)) <==> ShownMatch(s, Pattern(search))
  {
    SearchIsLiteral(s.user, search);
    SearchIsLiteral("", search);
    if Contains("", search) {
      assert search == "" && s.user[0..0] == "" && StandsAt(s.user, search, 0);
    }
  }

  function Filter(xs: seq<Student>, pattern: string): seq<Student> {
    if xs == [] then [] else (if ShownMatch(xs[0], pattern) then [xs[0]] else []) + Filter(xs[1..], pattern)
  }

  function RawCount(xs: seq<Student>, pattern: string): nat {
    if xs == [] then 0 else (if RawMatch(xs[0], pattern) then 1 else 0) + RawCount(xs[1..], pattern)
  }

  /** The separate count is the number of listed students. */
  lemma {:induction false} CountAgrees(xs: seq<Student>, search: string)
    ensures RawCount(xs, Pattern(search)) == |Filter(xs, Pattern(search))|
  {
    if xs != [] {
      FiltersAgree(xs[0], search);
      CountAgrees(xs[1..], search);
    }
  }

  lemma {:induction false} FilterCounts(xs: seq<Student>, pattern: string, s: Student)
    ensures multiset(Filter(xs, pattern))[s] == if ShownMatch(s, pattern) then multiset(xs)[s] else 0
  {
    if xs != [] {
      FilterCounts(xs[1..], pattern, s);
      assert xs == [xs[0]] + xs[1..];
    }
  }

  /** The same students in another order, filtered. */
  lemma FilterReordered(xs: seq<Student>, ys: seq<Student>, pattern: string)
    requires multiset(xs) == multiset(ys)
    ensures multiset(Filter(xs, pattern)) == multiset(Filter(ys, pattern))
  {
    forall s ensures multiset(Filter(xs, pattern))[s] == multiset(Filter(ys, pattern))[s] {
      FilterCounts(xs, pattern, s);
      FilterCounts(ys, pattern, s);
    }
  }

  // ---------------------------------------------------------------- ranks

  /** Higher grades first, students without a grade last. */
  predicate Better(a: Option<nat>, b: Option<nat>) { b.None? || (a.Some? && a.value >= b.value) }

  /** DENSE_RANK() over rows in that order: one more whenever the grade changes. */
  function Window(grades: seq<Option<nat>>): (ranks: seq<nat>)
    ensures |ranks| == |grades|
  {
    if grades == [] then []
    else
      var k := |grades| - 1;
      var ranks := Window(grades[..k]);
      ranks + [if k == 0 then 1 else if grades[k] == grades[k - 1] then ranks[k - 1] else ranks[k - 1] + 1]
  }

  /** The distinct grades above one. */
  function Above(grades: seq<Option<nat>>, v: nat): set<nat> { set g | g in grades && g.Some? && g.value > v :: g.value }

  /** The rank of a grade within a class. */
  function Rank(grades: seq<Option<nat>>, v: nat): nat { |Above(grades, v)| + 1 }

  /** The window counts the distinct grades above. */
  lemma {:induction false} WindowRanks(grades: seq<Option<nat>>, i: nat)
    requires Ordered(grades, Better) && i < |grades| && grades[i].Some?
    ensures Window(grades)[i] == Rank(grades, grades[i].value)
    decreases |grades|
  {
    var k, v := |grades| - 1, grades[i].value;
    var init := grades[..k];
    assert grades == init + [grades[k]];
    if i < k {
      WindowRanks(init, i);
      AboveInit(init, grades[k], v);
      assert Better(grades[i], grades[k]);
    } else if k > 0 {
      assert Better(grades[k - 1], grades[k]);
      WindowRanks(init, k - 1);
      LastRank(init, v);
      assert Window(grades)[k] == if grades[k] == grades[k - 1] then Window(init)[k - 1] else Window(init)[k - 1] + 1;
    } else {
      assert Above(grades, v) == {};
    }
    hide Above, Rank;
  }

  /** A grade at the end counts for those below it only. */
  lemma AboveInit(init: seq<Option<nat>>, g: Option<nat>, v: nat)
    ensures !(g.Some? && g.value > v) ==> Rank(init + [g], v) == Rank(init, v)
  {
    if !(g.Some? && g.value > v) {
      assert Above(init + [g], v) == Above(init, v);
    }
  }

  /** The rank of a grade that comes last. */
  lemma LastRank(init: seq<Option<nat>>, v: nat)
    requires init != [] && Ordered(init, Better) && init[|init| - 1].Some? && init[|init| - 1].value >= v
    ensures Rank(init + [Some(v)], v) == Rank(init, init[|init| - 1].value) + if init[|init| - 1].value == v then 0 else 1
  {
    var u := init[|init| - 1].value;
    AboveInit(init, Some(v), v);
    if u > v {
      forall g | g in init && g.Some? ensures g.value >= u {
        var k :| 0 <= k < |init| && init[k] == g;
        assert k < |init| - 1 ==> Better(init[k], init[|init| - 1]);
      }
      assert init[|init| - 1] in init;
      AboveLeast(init, u, v);
    }
    hide Rank;
  }

  lemma AboveLeast(grades: seq<Option<nat>>, u: nat, v: nat)
    requires Some(u) in grades && u > v && forall g | g in grades && g.Some? :: g.value >= u
    ensures Rank(grades, v) == Rank(grades, u) + 1
  {
    assert Above(grades, v) == Above(grades, u) + {u};
  }

  /** Better grades rank before worse ones, and equal grades together. */
  lemma RankFollowsGrade(grades: seq<Option<nat>>, u: nat, v: nat)
    requires Some(u) in grades && Some(v) in grades
    ensures Rank(grades, u) < Rank(grades, v) <==> u > v
  {
    if u > v {
      assert u in Above(grades, v) && Above(grades, u) <= Above(grades, v) - {u};
      SubsetSize(Above(grades, u), Above(grades, v) - {u});
    } else {
      assert Above(grades, v) <= Above(grades, u);
      SubsetSize(Above(grades, v), Above(grades, u));
    }
  }

  /** No rank is left out: before rank r there is somebody on rank r - 1, down to 1. */
  lemma RanksAreDense(grades: seq<Option<nat>>, v: nat)
    requires Some(v) in grades && Rank(grades, v) > 1
    ensures exists u :: u > v && Some(u) in grades && Rank(grades, u) == Rank(grades, v) - 1
  {
    var u := Least(Above(grades, v));
    var g :| g in grades && g.Some? && g.value > v && g.value == u;
    assert Above(grades, u) == Above(grades, v) - {u};
  }

  lemma {:induction false} Least(s: set<nat>) returns (m: nat)
    requires s != {}
    ensures m in s && forall x | x in s :: m <= x
    decreases |s|
  {
    var x :| x in s;
    if s == {x} {
      m := x;
    } else {
      var n := Least(s - {x});
      m := if n < x then n else x;
      assert forall y | y in s :: y == x || y in s - {x};
    }
  }

  // ---------------------------------------------------------------- the list

  predicate ByNo(a: Student, b: Student) {
    var x, y := Shown(a.no, a.user), Shown(b.no, b.user);
    if x == y then Lex(a.user, b.user) else Lex(x, y)
  }

  /** ORDER BY score IS NULL, score DESC, student_no, user_id. */
  predicate Precedes(a: Student, b: Student) { if a.score == b.score then ByNo(a, b) else Better(a.score, b.score) }

  lemma PrecedesIsOrder()
    ensures Total(Precedes) && Transitive(Precedes)
  {
    forall a, b ensures Precedes(a, b) || Precedes(b, a) {
      LexTotal(a.user, b.user);
      LexTotal(Shown(a.no, a.user), Shown(b.no, b.user));
    }
    forall a, b, c | Precedes(a, b) && Precedes(b, c) ensures Precedes(a, c) {
      PrecedesTwice(a, b, c);
    }
  }

  lemma PrecedesTwice(a: Student, b: Student, c: Student)
    requires Precedes(a, b) && Precedes(b, c)
    ensures Precedes(a, c)
  {
    if a.score == b.score == c.score {
      var x, y, z := Shown(a.no, a.user), Shown(b.no, b.user), Shown(c.no, c.user);
      if x == y == z {
        LexTransitive(a.user, b.user, c.user);
      } else if x != y && y != z {
        LexTransitive(x, y, z);
        LexTotal(x, y);
      }
    }
  }

  function Grades(xs: seq<Student>): (gs: seq<Option<nat>>)
    ensures |gs| == |xs| && forall k | 0 <= k < |xs| :: gs[k] == xs[k].score
  {
    if xs == [] then [] else [xs[0].score] + Grades(xs[1..])
  }

  /** The whole class in order, with the window's ranks. */
  function Ranked(roster: seq<Student>): seq<Entry> {
    var xs := Sorted(roster, Precedes);
    var ranks := Window(Grades(xs));
    seq(|xs|, k requires 0 <= k < |xs| => Entry(xs[k], if xs[k].score.None? then None else Some(ranks[k])))
  }

  function Selected(es: seq<Entry>, pattern: string): seq<Entry> {
    if es == [] then [] else (if ShownMatch(es[0].student, pattern) then [es[0]] else []) + Selected(es[1..], pattern)
  }

  /** Everything the search finds. */
  function Listing(roster: seq<Student>, search: string): seq<Entry> { Selected(Ranked(roster), Pattern(search)) }

  function FullRank(roster: seq<Student>, s: Student): Option<nat> {
    if s.score.None? then None else Some(Rank(Grades(roster), s.score.value))
  }

  /** Every listed student has the rank within the whole class, whatever was searched for. */
  lemma RanksIgnoreSearch(roster: seq<Student>, search: string, e: Entry)
    requires e in Listing(roster, search)
    ensures e.student in roster && e.rank == FullRank(roster, e.student)
  {
    SelectedKeeps(Ranked(roster), Pattern(search));
    var xs := Sorted(roster, Precedes);
    var k :| 0 <= k < |xs| && Ranked(roster)[k] == e;
    PrecedesIsOrder();
    SortedIs(roster, Precedes);
    assert xs[k] in multiset(xs);
    GradesOrdered(xs);
    if xs[k].score.Some? {
      WindowRanks(Grades(xs), k);
      SameAbove(xs, roster, xs[k].score.value);
    }
  }

  lemma GradesOrdered(xs: seq<Student>)
    requires Ordered(xs, Precedes)
    ensures Ordered(Grades(xs), Better)
  {
    forall i, j | 0 <= i < j < |xs| ensures Better(Grades(xs)[i], Grades(xs)[j]) {
      assert Precedes(xs[i], xs[j]);
    }
  }

  lemma SameAbove(xs: seq<Student>, ys: seq<Student>, v: nat)
    requires multiset(xs) == multiset(ys)
    ensures Above(Grades(xs), v) == Above(Grades(ys), v)
  {
    GradeOf(xs);
    GradeOf(ys);
    forall s ensures s in xs <==> s in ys {
      assert s in xs <==> s in multiset(xs);
      assert s in ys <==> s in multiset(ys);
    }
  }

  lemma GradeOf(xs: seq<Student>)
    ensures forall g :: g in Grades(xs) <==> exists s :: s in xs && s.score == g
  {
    forall g | g in Grades(xs) ensures exists s :: s in xs && s.score == g {
      var k :| 0 <= k < |xs| && Grades(xs)[k] == g;
      assert xs[k] in xs;
    }
    forall s | s in xs ensures s.score in Grades(xs) {
      var k :| 0 <= k < |xs| && xs[k] == s;
      assert Grades(xs)[k] == s.score;
    }
  }

  lemma {:induction false} SelectedKeeps(es: seq<Entry>, pattern: string)
    ensures forall e :: e in Selected(es, pattern) <==> e in es && ShownMatch(e.student, pattern)
  {
    if es != [] {
      SelectedKeeps(es[1..], pattern);
      assert forall e :: e in es <==> e == es[0] || e in es[1..];
    }
  }

  // ---------------------------------------------------------------- pages

  function PageSize(asked: Option<nat>): (size: nat) {
    var size := if asked.Some? then asked.value else 20;
    if size < 1 then 1 else if size > 50 then 50 else size
  }

  function LastPage(total: nat, size: nat): nat
    requires size > 0
  {
    var pages := (total + size - 1) / size;
    if pages < 1 then 1 else pages
  }

  function PageNo(asked: Option<nat>, total: nat, size: nat): nat
    requires size > 0
  {
    var page := if asked.Some? && asked.value >= 1 then asked.value else 1;
    if page > LastPage(total, size) then LastPage(total, size) else page
  }

  /** LIMIT size OFFSET (page - 1) * size. */
  function Slice<T>(xs: seq<T>, page: nat, size: nat): seq<T>
    requires page >= 1
  {
    var from := (page - 1) * size;
    if from >= |xs| then [] else xs[from..if from + size < |xs| then from + size else |xs|]
  }

  function Pages<T>(xs: seq<T>, size: nat, n: nat): seq<T> {
    if n == 0 then [] else Pages(xs, size, n - 1) + Slice(xs, n, size)
  }

  lemma {:induction false} FirstPages<T>(xs: seq<T>, size: nat, n: nat)
    ensures Pages(xs, size, n) == if n * size < |xs| then xs[..n * size] else xs
  {
    if n > 0 {
      FirstPages(xs, size, n - 1);
      Multiple(n, size);
      NextPage(xs, (n - 1) * size, size);
    } else {
      assert n * size == 0;
    }
  }

  lemma Multiple(n: nat, size: nat)
    requires n > 0
    ensures n * size == (n - 1) * size + size && (n - 1) * size >= 0
  {
  }

  lemma NextPage<T>(xs: seq<T>, from: nat, size: nat)
    ensures (if from < |xs| then xs[..from] else xs)
          + (if from >= |xs| then [] else xs[from..if from + size < |xs| then from + size else |xs|])
         == if from + size < |xs| then xs[..from + size] else xs
  {
  }

  lemma LastPageReaches(total: nat, size: nat)
    requires size > 0
    ensures (LastPage(total, size) - 1) * size < total || (total == 0 && LastPage(total, size) == 1)
    ensures total <= LastPage(total, size) * size
  {
    var pages := (total + size - 1) / size;
    assert total + size - 1 == pages * size + (total + size - 1) % size;
    assert (pages - 1) * size == pages * size - size;
  }

  /** The pages from the first to the last, put together, are the whole list. */
  lemma PagesCover<T>(xs: seq<T>, size: nat)
    requires size > 0
    ensures Pages(xs, size, LastPage(|xs|, size)) == xs
  {
    LastPageReaches(|xs|, size);
    FirstPages(xs, size, LastPage(|xs|, size));
    assert xs[..|xs|] == xs;
  }

  /** Whatever page is asked for, the one shown is empty only when the list is. */
  lemma NoEmptyPage<T>(xs: seq<T>, asked: Option<nat>, size: nat)
    requires size > 0 && xs != []
    ensures 1 <= PageNo(asked, |xs|, size) <= LastPage(|xs|, size) && Slice(xs, PageNo(asked, |xs|, size), size) != []
  {
    var page, last := PageNo(asked, |xs|, size), LastPage(|xs|, size);
    LastPageReaches(|xs|, size);
    Ahead(page - 1, last - 1, size);
  }

  lemma Ahead(m: nat, n: nat, size: nat)
    requires m <= n
    ensures m * size <= n * size
  {
  }

  // ---------------------------------------------------------------- the answer

  datatype Answer = TooLong | Ranking(page: nat, size: nat, total: nat, students: seq<Entry>)

  /** The answer to one request, the search already trimmed. */
  function Respond(roster: seq<Student>, search: string, page: Option<nat>, pageSize: Option<nat>): Answer {
    if |search| > 100 then TooLong
    else
      var total, size := RawCount(roster, Pattern(search)), PageSize(pageSize);
      var no := PageNo(page, total, size);
      Ranking(no, size, total, Slice(Listing(roster, search), no, size))
  }

  function Students(es: seq<Entry>): (xs: seq<Student>)
    ensures |xs| == |es| && forall k | 0 <= k < |es| :: xs[k] == es[k].student
  {
    if es == [] then [] else [es[0].student] + Students(es[1..])
  }

  lemma {:induction false} SelectedStudents(es: seq<Entry>, xs: seq<Student>, pattern: string)
    requires |es| == |xs| && forall k | 0 <= k < |xs| :: es[k].student == xs[k]
    ensures Students(Selected(es, pattern)) == Filter(xs, pattern)
  {
    if xs != [] {
      SelectedStudents(es[1..], xs[1..], pattern);
    }
  }

  lemma {:induction false} FilterOrdered(xs: seq<Student>, pattern: string)
    requires Ordered(xs, Precedes)
    ensures Ordered(Filter(xs, pattern), Precedes)
  {
    if xs != [] {
      FilterOrdered(xs[1..], pattern);
      forall s | s in Filter(xs[1..], pattern) ensures Precedes(xs[0], s) {
        FilterCounts(xs[1..], pattern, s);
        assert s in multiset(Filter(xs[1..], pattern)) && s in multiset(xs[1..]);
      }
      hide Precedes, ShownMatch;
    }
  }

  /** The list holds every student the search matches, as often as the class does, in the order of the class. */
  lemma ListingIs(roster: seq<Student>, search: string)
    ensures Ordered(Students(Listing(roster, search)), Precedes)
    ensures multiset(Students(Listing(roster, search))) == multiset(Filter(roster, Pattern(search)))
  {
    var p, xs := Pattern(search), Sorted(roster, Precedes);
    PrecedesIsOrder();
    SortedIs(roster, Precedes);
    SelectedStudents(Ranked(roster), xs, p);
    FilterOrdered(xs, p);
    FilterReordered(xs, roster, p);
  }

  /** The total shown is the length of the list that the pages are cut from. */
  lemma TotalIsListed(roster: seq<Student>, search: string)
    ensures RawCount(roster, Pattern(search)) == |Listing(roster, search)|
  {
    CountAgrees(roster, search);
    ListingIs(roster, search);
    assert |multiset(Students(Listing(roster, search)))| == |multiset(Filter(roster, Pattern(search)))|;
  }

  /**
   One answer: the list its pages are cut from holds the students searched for, in order; the total is right, the page is
   not empty unless the list is, and ranks are those of the whole class.
   */
  lemma AnswerIs(roster: seq<Student>, search: string, page: Option<nat>, pageSize: Option<nat>)
    requires |search| <= 100
    ensures var list := Listing(roster, search);
      && Ordered(Students(list), Precedes) && multiset(Students(list)) == multiset(Filter(roster, Pattern(search)))
    ensures var a, list := Respond(roster, search, page, pageSize), Listing(roster, search);
      && a.total == |list| && (list != [] ==> a.students != [])
      && Pages(list, a.size, LastPage(a.total, a.size)) == list
      && forall e :: e in a.students ==> e in list && e.student in roster && e.rank == FullRank(roster, e.student)
  {
    hide Listing, Ordered, Filter, Students, Pattern, RawCount, Pages, LastPage, FullRank, Precedes;
    var a, list := Respond(roster, search, page, pageSize), Listing(roster, search);
    ListingIs(roster, search);
    TotalIsListed(roster, search);
    PagesCover(list, a.size);
    if list != [] {
      NoEmptyPage(list, page, a.size);
    }
    forall e | e in a.students ensures e in list && e.student in roster && e.rank == FullRank(roster, e.student) {
      assert e in list;
      RanksIgnoreSearch(roster, search, e);
    }
  }
}
