/**
 An assignment edit that runs to its end: changed problems become fresh ones, their submissions move with
 them and are judged again, submissions of dropped problems go, and the links are rebuilt.
 */
module AssignmentEdit {
  import opened Values
  import opened Tables
  import opened Machine
  import opened Relinking
  import opened Stores

  /** AUTO_INCREMENT columns are above all ids, and fresh keys are fresh. */
  predicate InOrder(db: Db) {
    && (forall p :: p in db.problems ==> p < db.nextPid)
    && (forall l :: l in db.links ==> l < db.nextBp)
    && (forall p :: p in db.problems && db.problems[p].source.Authored? ==> db.problems[p].source.key < db.nextKey)
  }

  function IndexOf(pids: seq<nat>, pid: nat): (k: nat)
    requires pid in pids
    ensures k < |pids| && pids[k] == pid
  {
    if pids[0] == pid then 0 else 1 + IndexOf(pids[1..], pid)
  }

  // ---------------------------------------------------------------- what an edit comes to

  /** The problem says what it said before. */
  predicate Stays(it: Item, same: set<nat>) { it.from.Some? && it.from.value in same }

  /** New ids: a kept problem where nothing changed, fresh ones in rising order everywhere else. */
  predicate NewIds(first: nat, items: seq<Item>, same: set<nat>, ids: seq<nat>, next: nat) {
    && |ids| <= |items|
    && (forall k | 0 <= k < |ids| && Stays(items[k], same) :: ids[k] == items[k].from.value)
    && (forall k | 0 <= k < |ids| && !Stays(items[k], same) :: first <= ids[k] < next)
    && (forall j, k | 0 <= j < k < |ids| && !Stays(items[j], same) && !Stays(items[k], same) :: ids[j] < ids[k])
  }

  /** Where the submissions of `pid` move to: the fresh problem that replaces it. */
  function Target(items: seq<Item>, same: set<nat>, ids: seq<nat>, pid: nat): Option<nat>
    requires |ids| <= |items|
  {
    if ids == [] then None
    else
      var k := |ids| - 1;
      if items[k].from == Some(pid) && !Stays(items[k], same) then Some(ids[k]) else Target(items, same, ids[..k], pid)
  }

  function Rejudged(s: Solution, target: Option<nat>, result: nat): Solution {
    if target.Some? then s.(pid := target.value, result := result) else s
  }

  lemma NewIdsDistinct(db: Db, items: seq<Item>, same: set<nat>, ids: seq<nat>, next: nat)
    requires NewIds(db.nextPid, items, same, ids, next) && ValidFrom(db.problems.Keys, items) && InOrder(db)
    ensures Distinct(ids)
  {
  }

  lemma {:induction false} TargetOf(items: seq<Item>, same: set<nat>, ids: seq<nat>, k: nat)
    requires |ids| <= |items| && k < |ids| && items[k].from.Some?
    requires forall i, j | 0 <= i < j < |items| && items[i].from.Some? :: items[i].from != items[j].from
    ensures Target(items, same, ids, items[k].from.value) == if Stays(items[k], same) then None else Some(ids[k])
  {
    if k < |ids| - 1 {
      TargetOf(items, same, ids[..|ids| - 1], k);
    } else if Stays(items[k], same) {
      TargetNone(items, same, ids[..k], items[k].from.value);
    }
  }

  lemma {:induction false} TargetNone(items: seq<Item>, same: set<nat>, ids: seq<nat>, pid: nat)
    requires |ids| <= |items| && forall k | 0 <= k < |ids| :: items[k].from != Some(pid)
    ensures Target(items, same, ids, pid) == None
  {
    if ids != [] {
      TargetNone(items, same, ids[..|ids| - 1], pid);
    }
  }

  // ---------------------------------------------------------------- the edit

  /** Points the submissions of a replaced problem at the new one; they wait, unseen by the judge. */
  method MoveSubmissions(s: Store, movers: set<nat>, pid: nat)
    modifies s
    ensures s.db == old(s.db).(solutions := s.db.solutions) && s.db.solutions.Keys == old(s.db).solutions.Keys
    ensures forall x :: x in s.db.solutions ==>
      s.db.solutions[x] == if x in movers then old(s.db).solutions[x].(pid := pid, result := SAVING) else old(s.db).solutions[x]
  {
    var todo := movers;
    while todo != {}
      invariant todo <= movers
      invariant s.db == old(s.db).(solutions := s.db.solutions) && s.db.solutions.Keys == old(s.db).solutions.Keys
      invariant forall x :: x in s.db.solutions ==>
        s.db.solutions[x] == if x in movers - todo then old(s.db).solutions[x].(pid := pid, result := SAVING) else old(s.db).solutions[x]
      decreases |todo|
    {
      var x :| x in todo;
      s.db := Repointed(s.db, x, pid);
      todo := todo - {x};
    }
  }

  /** What the loop over the document keeps, after the first `|ids|` problems. */
  ghost predicate Underway(start: Db, db: Db, key: nat, items: seq<Item>, same: set<nat>, subs: map<nat, nat>, ids: seq<nat>) {
    && db == start.(problems := db.problems, tests := db.tests, solutions := db.solutions, nextPid := db.nextPid)
    && start.nextPid <= db.nextPid && NewIds(start.nextPid, items, same, ids, db.nextPid)
    && ProblemsUnderway(start, db, key, items, same, ids) && SolutionsUnderway(start, db, items, same, subs, ids)
  }

  ghost predicate ProblemsUnderway(start: Db, db: Db, key: nat, items: seq<Item>, same: set<nat>, ids: seq<nat>)
    requires |ids| <= |items|
  {
    && (forall p :: p in db.problems ==> p < db.nextPid)
    && (forall p :: p in start.problems ==> p in db.problems && db.problems[p] == start.problems[p])
    && (forall p :: p in start.problems || p !in ids ==> SameTests(start, db, p))
    && (forall k | 0 <= k < |ids| && !Stays(items[k], same) :: Presented(db, key, ids[k], items[k]))
    && (forall p :: p in db.problems && p !in start.problems ==> OfDocument(db, key, items, ids, p))
  }

  ghost predicate SolutionsUnderway(start: Db, db: Db, items: seq<Item>, same: set<nat>, subs: map<nat, nat>, ids: seq<nat>)
    requires |ids| <= |items|
  {
    && db.solutions.Keys == start.solutions.Keys
    && forall x :: x in db.solutions ==>
         (db.solutions[x] == if x in subs then Rejudged(start.solutions[x], Target(items, same, ids, subs[x]), SAVING) else start.solutions[x])
  }

  predicate SameTests(a: Db, d: Db, p: nat) { (p in d.tests <==> p in a.tests) && (p in a.tests ==> d.tests[p] == a.tests[p]) }

  /** The problem is there under the revision key and visible, with the content and all the tests of the document. */
  predicate Presented(db: Db, key: nat, pid: nat, it: Item) {
    && pid in db.problems && db.problems[pid].source == Authored(key, it.slug) && db.problems[pid].visible
    && db.problems[pid].content == it.content && db.problems[pid].wants == it.tests
    && pid in db.tests && db.tests[pid] == it.tests
  }

  /** A fresh problem is one of the document's, under the revision key and its slug. */
  predicate OfDocument(db: Db, key: nat, items: seq<Item>, ids: seq<nat>, p: nat)
    requires p in db.problems && |ids| <= |items|
  {
    exists k :: 0 <= k < |ids| && ids[k] == p && db.problems[p].source == Authored(key, items[k].slug)
  }

  /** The revision key is new, and the document and its submissions are as checked. */
  ghost predicate Checked(start: Db, key: nat, items: seq<Item>, subs: map<nat, nat>) {
    && DistinctSlugs(items) && ValidFrom(start.problems.Keys, items)
    && (forall p :: p in start.problems ==> p < start.nextPid && !HasKey(start.problems[p], key))
    && (forall x :: x in subs ==> x in start.solutions)
  }

  /** One problem of the document: kept as it is, or written afresh and shown, with the submissions moved to it. */
  method WriteItem(
    s: Store, ghost start: Db, key: nat, items: seq<Item>, same: set<nat>, subs: map<nat, nat>, ids: seq<nat>) returns (pid: nat)
    requires |ids| < |items| && Checked(start, key, items, subs) && Underway(start, s.db, key, items, same, subs, ids)
    modifies s
    ensures Underway(start, s.db, key, items, same, subs, ids + [pid])
  {
    hide Underway, Checked, Rewritten, Known, Show;
    var it := items[|ids|];
    if it.from.Some? && it.from.value in same {
      pid := it.from.value;
      KeptItem(start, s.db, key, items, same, subs, ids);
    } else {
      NewSource(start, s.db, key, items, same, subs, ids);
      pid := s.SyncProblem(Authored(key, it.slug), it.content, it.tests);
      ghost var synced := s.db;
      SolutionsSynced(old(s.db), synced, Authored(key, it.slug), it.content, it.tests, pid);
      if it.from.Some? {
        MoveSubmissions(s, Movers(subs, it.from), pid);
      }
      ghost var moved := s.db;
      s.db := Show(s.db, {pid});
      FreshItem(start, old(s.db), synced, moved, key, items, same, subs, ids, pid);
    }
  }

  lemma SolutionsSynced(before: Db, after: Db, source: Source, content: string, tests: seq<Case>, pid: nat)
    requires Rewritten(before, after, source, content, tests, pid)
    ensures after.solutions == before.solutions
  {
  }

  lemma KeptItem(start: Db, db: Db, key: nat, items: seq<Item>, same: set<nat>, subs: map<nat, nat>, ids: seq<nat>)
    requires |ids| < |items| && Underway(start, db, key, items, same, subs, ids) && Stays(items[|ids|], same)
    ensures Underway(start, db, key, items, same, subs, ids + [items[|ids|].from.value])
  {
    hide ProblemsUnderway, SolutionsUnderway;
    KeptProblems(start, db, key, items, same, ids);
    KeptSolutions(start, db, items, same, subs, ids);
  }

  lemma KeptProblems(start: Db, db: Db, key: nat, items: seq<Item>, same: set<nat>, ids: seq<nat>)
    requires |ids| < |items| && ProblemsUnderway(start, db, key, items, same, ids) && Stays(items[|ids|], same)
    ensures ProblemsUnderway(start, db, key, items, same, ids + [items[|ids|].from.value])
  {
    hide Presented, SameTests;
    var n := ids + [items[|ids|].from.value];
    assert n[..|ids|] == ids;
    forall p | p in db.problems && p !in start.problems ensures OfDocument(db, key, items, n, p) {
      var k :| 0 <= k < |ids| && ids[k] == p && db.problems[p].source == Authored(key, items[k].slug);
      assert n[k] == p;
    }
  }

  lemma KeptSolutions(start: Db, db: Db, items: seq<Item>, same: set<nat>, subs: map<nat, nat>, ids: seq<nat>)
    requires |ids| < |items| && SolutionsUnderway(start, db, items, same, subs, ids) && Stays(items[|ids|], same)
    ensures SolutionsUnderway(start, db, items, same, subs, ids + [items[|ids|].from.value])
  {
    var n := ids + [items[|ids|].from.value];
    assert n[..|ids|] == ids;
  }

  lemma NewSource(start: Db, db: Db, key: nat, items: seq<Item>, same: set<nat>, subs: map<nat, nat>, ids: seq<nat>)
    requires |ids| < |items| && Checked(start, key, items, subs) && Underway(start, db, key, items, same, subs, ids)
    ensures !Known(db, Authored(key, items[|ids|].slug))
  {
  }

  lemma FreshItem(
    start: Db, db: Db, synced: Db, moved: Db, key: nat, items: seq<Item>, same: set<nat>, subs: map<nat, nat>, ids: seq<nat>, pid: nat)
    requires |ids| < |items| && Checked(start, key, items, subs) && Underway(start, db, key, items, same, subs, ids)
    requires !Stays(items[|ids|], same) && !Known(db, Authored(key, items[|ids|].slug))
    requires Rewritten(db, synced, Authored(key, items[|ids|].slug), items[|ids|].content, items[|ids|].tests, pid)
    requires moved == synced.(solutions := moved.solutions) && moved.solutions.Keys == db.solutions.Keys
    requires forall x :: x in db.solutions ==>
      (moved.solutions[x] == if x in Movers(subs, items[|ids|].from) then db.solutions[x].(pid := pid, result := SAVING) else db.solutions[x])
    ensures Underway(start, Show(moved, {pid}), key, items, same, subs, ids + [pid])
  {
    var d := Show(moved, {pid});
    FreshIds(start, db, key, items, same, subs, ids, pid);
    FreshProblems(start, db, d, key, items, same, subs, ids, pid);
    FreshSolutions(start, db, d, key, items, same, subs, ids, pid);
    hide NewIds, ProblemsUnderway, SolutionsUnderway, Checked, Movers;
  }

  lemma FreshIds(start: Db, db: Db, key: nat, items: seq<Item>, same: set<nat>, subs: map<nat, nat>, ids: seq<nat>, pid: nat)
    requires |ids| < |items| && Underway(start, db, key, items, same, subs, ids) && !Stays(items[|ids|], same) && pid == db.nextPid
    ensures NewIds(start.nextPid, items, same, ids + [pid], pid + 1)
  {
    hide ProblemsUnderway, SolutionsUnderway;
  }

  lemma FreshProblems(start: Db, db: Db, d: Db, key: nat, items: seq<Item>, same: set<nat>, subs: map<nat, nat>, ids: seq<nat>, pid: nat)
    requires |ids| < |items| && Underway(start, db, key, items, same, subs, ids) && !Stays(items[|ids|], same) && pid == db.nextPid
    requires forall p :: p in start.problems ==> p < start.nextPid
    requires d.nextPid == pid + 1 && d.tests == db.tests[pid := items[|ids|].tests]
    requires d.problems == db.problems[pid := Problem(Authored(key, items[|ids|].slug), items[|ids|].content, items[|ids|].tests, true, 0, 0)]
    ensures ProblemsUnderway(start, d, key, items, same, ids + [pid])
  {
    hide SolutionsUnderway, Presented, OfDocument;
    var n := ids + [pid];
    forall p | p in start.problems ensures p in d.problems && d.problems[p] == start.problems[p] {
    }
    forall p | p in start.problems || p !in n ensures SameTests(start, d, p) {
      assert p !in n ==> p !in ids && p != pid by {
        assert n[|ids|] == pid;
        assert ids == n[..|ids|];
      }
    }
    forall k | 0 <= k < |n| && !Stays(items[k], same) ensures Presented(d, key, n[k], items[k]) {
      FreshPresented(db, d, key, items, ids, pid, k);
    }
    forall p | p in d.problems && p !in start.problems ensures OfDocument(d, key, items, n, p) {
      FreshOrigin(db, d, key, items, ids, pid, p);
    }
  }

  lemma FreshPresented(db: Db, d: Db, key: nat, items: seq<Item>, ids: seq<nat>, pid: nat, k: nat)
    requires |ids| < |items| && k <= |ids| && pid !in db.problems
    requires k < |ids| ==> Presented(db, key, ids[k], items[k])
    requires d.tests == db.tests[pid := items[|ids|].tests]
    requires d.problems == db.problems[pid := Problem(Authored(key, items[|ids|].slug), items[|ids|].content, items[|ids|].tests, true, 0, 0)]
    ensures Presented(d, key, (ids + [pid])[k], items[k])
  {
  }

  lemma FreshOrigin(db: Db, d: Db, key: nat, items: seq<Item>, ids: seq<nat>, pid: nat, p: nat)
    requires |ids| < |items| && p in d.problems && p != pid ==> p in db.problems && OfDocument(db, key, items, ids, p)
    requires |ids| < |items| && p in d.problems
    requires d.problems == db.problems[pid := Problem(Authored(key, items[|ids|].slug), items[|ids|].content, items[|ids|].tests, true, 0, 0)]
    ensures OfDocument(d, key, items, ids + [pid], p)
  {
    var n := ids + [pid];
    if p == pid {
      assert n[|ids|] == p;
    } else {
      var k :| 0 <= k < |ids| && ids[k] == p && db.problems[p].source == Authored(key, items[k].slug);
      assert n[k] == p;
    }
  }

  lemma FreshSolutions(start: Db, db: Db, d: Db, key: nat, items: seq<Item>, same: set<nat>, subs: map<nat, nat>, ids: seq<nat>, pid: nat)
    requires |ids| < |items| && Checked(start, key, items, subs) && SolutionsUnderway(start, db, items, same, subs, ids)
    requires !Stays(items[|ids|], same) && d.solutions.Keys == db.solutions.Keys
    requires forall x :: x in db.solutions ==>
      (d.solutions[x] == if x in Movers(subs, items[|ids|].from) then db.solutions[x].(pid := pid, result := SAVING) else db.solutions[x])
    ensures SolutionsUnderway(start, d, items, same, subs, ids + [pid])
  {
    var n := ids + [pid];
    assert n[..|ids|] == ids;
    forall x | x in d.solutions && x in subs
      ensures d.solutions[x] == Rejudged(start.solutions[x], Target(items, same, n, subs[x]), SAVING)
    {
      if items[|ids|].from == Some(subs[x]) {
        TargetNone(items, same, ids, subs[x]);
      }
    }
  }

  // ---------------------------------------------------------------- after the commit

  /** The row and the tests of `p` are as before; or they are gone in both. */
  predicate Untouched(a: Db, d: Db, p: nat) {
    (p in d.problems <==> p in a.problems) && (p in a.problems ==> d.problems[p] == a.problems[p]) && SameTests(a, d, p)
  }

  predicate Survives(a: Db, d: Db, p: nat)
    requires p in a.problems
  {
    p in d.problems && SameButCounts(d.problems[p], a.problems[p]) && SameTests(a, d, p)
  }

  function TalliedRow(db: Db, p: nat): Problem
    requires p in db.problems
  {
    db.problems[p].(submit := ProblemSubmits(db, p), accepted := ProblemAccepts(db, p))
  }

  /** An authored problem without link, solution or tag is gone, and its tests with it; any other has exact counters. */
  predicate Swept(a: Db, d: Db, p: nat) {
    && (p in d.problems <==> p in a.problems && (a.problems[p].source.Authored? ==> Referenced(a, p)))
    && (p in d.problems ==> Survives(a, d, p) && d.problems[p] == TalliedRow(a, p))
    && (p in a.problems && p !in d.problems ==> p !in d.tests)
  }

  /** `clean_problem`: the tests go before the row. */
  method CleanProblem(s: Store, p: nat)
    modifies s
    ensures s.db == old(s.db).(problems := s.db.problems, tests := s.db.tests)
    ensures Swept(old(s.db), s.db, p) && forall q :: q != p ==> Untouched(old(s.db), s.db, q)
  {
    if p in s.db.problems && s.db.problems[p].source.Authored? && !Referenced(s.db, p) {
      s.db := s.db.(tests := s.db.tests - {p});
      s.db := s.db.(problems := s.db.problems - {p});
    } else {
      s.db := Tallied(s.db, p);
    }
  }

  ghost predicate CleanedUp(a: Db, d: Db, pids: set<nat>) {
    && d == a.(problems := d.problems, tests := d.tests)
    && (forall p :: p in pids ==> Swept(a, d, p)) && (forall p :: p !in pids ==> Untouched(a, d, p))
  }

  /** Cleans problems one by one. */
  method CleanUp(s: Store, pids: set<nat>)
    modifies s
    ensures CleanedUp(old(s.db), s.db, pids)
  {
    var todo := pids;
    while todo != {}
      invariant todo <= pids && s.db == old(s.db).(problems := s.db.problems, tests := s.db.tests)
      invariant forall p :: p in pids - todo ==> Swept(old(s.db), s.db, p)
      invariant forall p :: p !in pids - todo ==> Untouched(old(s.db), s.db, p)
      decreases |todo|
    {
      hide Swept, Untouched;
      var p :| p in todo;
      ghost var before := s.db;
      CleanProblem(s, p);
      forall q | q !in todo - {p} && q in pids ensures Swept(old(s.db), s.db, q) {
        SweptStays(old(s.db), before, s.db, p, q);
      }
      forall q | q !in pids - todo && q != p ensures Untouched(old(s.db), s.db, q) {
        UntouchedTwice(old(s.db), before, s.db, q);
      }
      todo := todo - {p};
    }
  }

  lemma UntouchedTwice(a: Db, b: Db, d: Db, q: nat)
    requires Untouched(a, b, q) && Untouched(b, d, q)
    ensures Untouched(a, d, q)
  {
  }

  lemma SweptStays(a: Db, b: Db, d: Db, p: nat, q: nat)
    requires b == a.(problems := b.problems, tests := b.tests)
    requires if q == p then Untouched(a, b, q) && Swept(b, d, q) else Swept(a, b, q) && Untouched(b, d, q)
    ensures Swept(a, d, q)
  {
    hide Referenced, ProblemSubmits, ProblemAccepts;
    if q == p {
      SameReferences(a, b, q);
    }
  }

  lemma SameReferences(a: Db, b: Db, q: nat)
    requires b.links == a.links && b.solutions == a.solutions && b.tags == a.tags
    ensures Referenced(b, q) == Referenced(a, q) && ProblemSubmits(b, q) == ProblemSubmits(a, q)
    ensures ProblemAccepts(b, q) == ProblemAccepts(a, q)
  {
  }

  /** Recounts users one by one. */
  method RecountUsers(s: Store, users: set<string>)
    modifies s
    ensures s.db == old(s.db).(users := s.db.users) && s.db.users.Keys == old(s.db).users.Keys
    ensures forall u :: u in s.db.users ==> s.db.users[u] == RecountedUser(old(s.db), users, u)
  {
    var todo := users;
    while todo != {}
      invariant todo <= users && s.db == old(s.db).(users := s.db.users) && s.db.users.Keys == old(s.db).users.Keys
      invariant forall u :: u in s.db.users ==> s.db.users[u] == RecountedUser(old(s.db), users - todo, u)
      decreases |todo|
    {
      var u :| u in todo;
      SameUserCounts(old(s.db), s.db, u);
      hide UserSubmits, UserSolved;
      s.db := Recounted(s.db, u);
      todo := todo - {u};
    }
  }

  function RecountedUser(db: Db, users: set<string>, u: string): User
    requires u in db.users
  {
    if u in users then User(UserSubmits(db, u), UserSolved(db, u)) else db.users[u]
  }

  lemma SameUserCounts(a: Db, b: Db, u: string)
    requires b.solutions == a.solutions
    ensures UserSubmits(b, u) == UserSubmits(a, u) && UserSolved(b, u) == UserSolved(a, u)
  {
  }

  // ---------------------------------------------------------------- the transaction

  /** The four statements of the transaction, one after the other; together they are the one step of the machine. */
  method Commit(s: Store, bid: nat, doomed: set<nat>, ids: seq<nat>, items: seq<Item>, status: BatchStatus)
    requires |ids| == |items| && Distinct(ids) && forall l :: l in s.db.links ==> l < s.db.nextBp
    modifies s
    ensures s.db == CommitEdit(old(s.db), bid, doomed, SlotsOf(ids, items), status)
  {
    hide WithStatus, Relinked, Repaired, Joined;
    var first := s.db.nextBp;
    s.db := s.db.(submissions := s.db.submissions - doomed);
    RelinkedRows(s.db, bid, ids, items);
    s.db := Relinked(s.db, bid, SlotsOf(ids, items));
    JoinedIsRepaired(s.db, bid, first, ids, items);
    s.db := Joined(s.db, bid, first, ids);
    s.db := WithStatus(s.db, bid, status);
  }

  /** The join of submissions, solutions and the links just inserted. */
  function Joined(db: Db, bid: nat, first: nat, ids: seq<nat>): (d: Db)
    ensures d == db.(submissions := d.submissions)
  {
    db.(submissions := map x | x in db.submissions ::
      var sub := db.submissions[x];
      if sub.bid == bid && x in db.solutions && db.solutions[x].pid in ids
      then sub.(bp := first + IndexOf(ids, db.solutions[x].pid))
      else sub)
  }

  lemma JoinedIsRepaired(db: Db, bid: nat, first: nat, ids: seq<nat>, items: seq<Item>)
    requires |ids| == |items| && Distinct(ids) && Numbered(db, bid, first, ids, items)
    ensures Joined(db, bid, first, ids) == Repaired(db, bid)
  {
    var m, n := Joined(db, bid, first, ids).submissions, Repaired(db, bid).submissions;
    forall x | x in db.submissions ensures m[x] == n[x] {
      if x in db.solutions {
        LinkIs(db, bid, first, ids, items, db.solutions[x].pid);
      }
    }
    assert m.Keys == n.Keys;
  }

  /** A linked problem has one link row, at its place in the document. */
  lemma LinkIs(db: Db, bid: nat, first: nat, ids: seq<nat>, items: seq<Item>, pid: nat)
    requires |ids| == |items| && Distinct(ids) && Numbered(db, bid, first, ids, items)
    ensures Linked(db, bid, pid) <==> pid in ids
    ensures pid in ids ==> LinkOf(db, bid, pid) == first + IndexOf(ids, pid)
  {
    if pid in ids {
      var k := IndexOf(ids, pid);
      assert first + k in db.links && db.links[first + k].pid == pid;
      var l := LinkOf(db, bid, pid);
      assert ids[l - first] == pid;
    }
    if Linked(db, bid, pid) {
      var l := LinkOf(db, bid, pid);
      assert ids[l - first] == pid;
    }
  }

  // ---------------------------------------------------------------- the whole edit

  /** What the editor was shown of one problem; the revision of an assignment stands for all of it. */
  datatype Shown = Shown(pid: nat, seqNo: nat, score: nat, content: string, tests: seq<Case>)

  function Revision(db: Db, bid: nat): set<Shown> {
    set l | l in db.links && db.links[l].bid == bid && db.links[l].pid in db.problems && db.links[l].pid in db.tests ::
      Shown(db.links[l].pid, db.links[l].seqNo, db.links[l].score, db.problems[db.links[l].pid].content, db.tests[db.links[l].pid])
  }

  /** Open, idle, readable, not changed since it was read, and asked to keep no problem that is not its own, or one twice. */
  predicate Acceptable(db: Db, bid: nat, revision: set<Shown>, items: seq<Item>) {
    && bid in db.batches && OpenOffering(db, db.batches[bid].oid) && Idle(db, BatchSids(db, bid))
    && Originals(db, bid) != {} && Originals(db, bid) <= db.tests.Keys
    && revision == Revision(db, bid) && ValidFrom(Originals(db, bid), items)
  }

  datatype Verdict = Refused | Applied(ids: seq<nat>)

  function Users(db: Db, bid: nat): set<string> {
    set x | x in SolutionPids(db, bid) && x in db.submissions :: db.submissions[x].user
  }

  /** Every submission whose solution is there moves with its problem: it stays, waits to be judged again, or goes. */
  ghost predicate SolutionsMoved(a: Db, d: Db, bid: nat, items: seq<Item>, ids: seq<nat>)
    requires |ids| == |items|
  {
    var subs, same := SolutionPids(a, bid), Unchanged(a, items);
    && d.solutions.Keys == a.solutions.Keys - Dropped(subs, items)
    && d.code == a.code - Dropped(subs, items) && d.userCode == a.userCode - Dropped(subs, items)
    && (forall x :: x in d.solutions && x !in subs ==> d.solutions[x] == a.solutions[x])
    && forall x, k :: x in d.solutions && x in subs && 0 <= k < |items| && items[k].from == Some(subs[x]) ==>
         (d.solutions[x] == if Stays(items[k], same) then a.solutions[x] else a.solutions[x].(pid := ids[k], result := 0))
  }

  /** Submissions lose at most their link, and all that have a solution are linked to its problem. */
  ghost predicate SubmissionsLinked(a: Db, d: Db, bid: nat, items: seq<Item>) {
    && d.submissions.Keys == a.submissions.Keys - Dropped(SolutionPids(a, bid), items)
    && (forall x :: x in d.submissions ==> d.submissions[x] == a.submissions[x].(bp := d.submissions[x].bp))
    && (forall x :: x in d.submissions && d.submissions[x].bid != bid ==> d.submissions[x] == a.submissions[x])
    && forall x :: x in d.submissions && d.submissions[x].bid == bid && x in d.solutions ==>
         var l := d.submissions[x].bp; l in d.links && d.links[l].bid == bid && d.links[l].pid == d.solutions[x].pid
  }

  /** Kept problems keep row and tests, changed ones are there afresh, replaced ones go unless something refers to them. */
  ghost predicate ProblemsRebuilt(a: Db, d: Db, bid: nat, items: seq<Item>, ids: seq<nat>)
    requires |ids| == |items|
  {
    && (forall k | 0 <= k < |ids| && Stays(items[k], Unchanged(a, items)) :: ids[k] in a.problems && Survives(a, d, ids[k]))
    && (forall k | 0 <= k < |ids| && !Stays(items[k], Unchanged(a, items)) :: ids[k] !in a.problems && Presented(d, a.nextKey, ids[k], items[k]))
    && (forall p :: p in Originals(a, bid) ==>
          && (p in d.problems <==> (a.problems[p].source.Authored? ==> Referenced(d, p)))
          && (if p in d.problems then Survives(a, d, p) else p !in d.tests))
    && (forall p :: p in d.problems && (p in Originals(a, bid) || p in ids) ==> d.problems[p] == TalliedRow(d, p))
    && forall p :: p !in Originals(a, bid) && p !in ids ==> Untouched(a, d, p)
  }

  ghost predicate Edited(a: Db, d: Db, bid: nat, items: seq<Item>, ids: seq<nat>) {
    && |ids| == |items| && Distinct(ids)
    && d == a.(problems := d.problems, tests := d.tests, solutions := d.solutions, code := d.code, userCode := d.userCode,
               submissions := d.submissions, links := d.links, users := d.users,
               nextPid := d.nextPid, nextBp := d.nextBp, nextKey := a.nextKey + 1)
    && SolutionsMoved(a, d, bid, items, ids) && SubmissionsLinked(a, d, bid, items)
    && LinksRebuilt(a, d, bid, items, ids) && ProblemsRebuilt(a, d, bid, items, ids)
    && d.users.Keys == a.users.Keys
    && forall u :: u in d.users ==>
         (d.users[u] == if u in Users(a, bid) then User(UserSubmits(d, u), UserSolved(d, u)) else a.users[u])
  }

  /** The edit of an assignment, uninterrupted. The result names the problems of the assignment, in order. */
  method Update(s: Store, bid: nat, revision: set<Shown>, items: seq<Item>) returns (v: Verdict)
    requires InOrder(s.db) && DistinctSlugs(items)
    modifies s
    ensures v.Refused? <==> !Acceptable(old(s.db), bid, revision, items)
    ensures v.Refused? ==> s.db == old(s.db)
    ensures v.Applied? ==> Edited(old(s.db), s.db, bid, items, v.ids) && InOrder(s.db)
  {
    hide Underway, Checked, CleanedUp, CommitEdit, Released, WithStatus, Edited, InOrder, Acceptable, Unchanged,
      Dropped, Users;
    if !Acceptable(s.db, bid, revision, items) { return Refused; }
    AcceptedShape(s.db, bid, revision, items);
    var status, key := s.db.batches[bid].status, s.db.nextKey;
    var subs, same, originals := SolutionPids(s.db, bid), Unchanged(s.db, items), Originals(s.db, bid);
    var users, doomed := Users(s.db, bid), Dropped(subs, items);
    s.db := WithStatus(s.db, bid, Closed).(nextKey := key + 1);
    var ids, rejudged := WriteDocument(s, key, items, same, subs);
    ghost var written := s.db;
    WrittenShape(old(s.db), s.db, bid, items, ids);
    s.db := s.db.(code := s.db.code - doomed);
    s.db := s.db.(userCode := s.db.userCode - doomed);
    s.db := s.db.(solutions := s.db.solutions - doomed);
    Commit(s, bid, doomed, ids, items, status);
    CleanUp(s, originals);
    ghost var cleaned := s.db;
    s.db := Released(s.db, rejudged);
    CleanUp(s, PidSet(ids));
    ghost var tidied := s.db;
    RecountUsers(s, users);
    RunEdits(old(s.db), written, cleaned, tidied, s.db, bid, items, ids, rejudged);
    return Applied(ids);
  }

  /** The loop over the document. */
  method WriteDocument(s: Store, key: nat, items: seq<Item>, same: set<nat>, subs: map<nat, nat>) returns (ids: seq<nat>, rejudged: set<nat>)
    requires Checked(s.db, key, items, subs) && same <= s.db.problems.Keys
    modifies s
    ensures |ids| == |items| && Underway(old(s.db), s.db, key, items, same, subs, ids)
    ensures forall x :: x in rejudged <==> x in subs && Target(items, same, ids, subs[x]).Some?
  {
    hide Underway, Checked, Movers;
    ids, rejudged := [], {};
    UnderwayAtFirst(s.db, key, items, same, subs);
    while |ids| < |items|
      invariant |ids| <= |items| && Underway(old(s.db), s.db, key, items, same, subs, ids)
      invariant forall x :: x in rejudged <==> x in subs && Target(items, same, ids, subs[x]).Some?
    {
      var it := items[|ids|];
      var pid := WriteItem(s, old(s.db), key, items, same, subs, ids);
      RejudgedGrow(items, same, subs, ids, pid);
      if !Stays(it, same) {
        rejudged := rejudged + Movers(subs, it.from);
      }
      ids := ids + [pid];
    }
  }

  lemma UnderwayAtFirst(db: Db, key: nat, items: seq<Item>, same: set<nat>, subs: map<nat, nat>)
    requires Checked(db, key, items, subs)
    ensures Underway(db, db, key, items, same, subs, [])
  {
  }

  lemma RejudgedGrow(items: seq<Item>, same: set<nat>, subs: map<nat, nat>, ids: seq<nat>, pid: nat)
    requires |ids| < |items|
    ensures Movers(subs, items[|ids|].from) <= subs.Keys
    ensures forall x :: x in subs ==>
      (Target(items, same, ids + [pid], subs[x]).Some? <==>
       Target(items, same, ids, subs[x]).Some? || (!Stays(items[|ids|], same) && x in Movers(subs, items[|ids|].from)))
  {
    assert (ids + [pid])[..|ids|] == ids;
  }

  // ---------------------------------------------------------------- what the run comes to

  /** The batch is closed and the revision key drawn. */
  function Started(a: Db, bid: nat): Db { WithStatus(a, bid, Closed).(nextKey := a.nextKey + 1) }

  lemma AcceptedShape(a: Db, bid: nat, revision: set<Shown>, items: seq<Item>)
    requires InOrder(a) && Acceptable(a, bid, revision, items) && DistinctSlugs(items)
    ensures bid in a.batches && Unchanged(a, items) <= a.problems.Keys && ValidFrom(a.problems.Keys, items)
    ensures ValidFrom(Originals(a, bid), items) && Idle(a, BatchSids(a, bid))
    ensures Checked(Started(a, bid), a.nextKey, items, SolutionPids(a, bid))
  {
    hide Unchanged, DistinctSlugs;
    UnchangedThere(a, items);
  }

  lemma UnchangedThere(a: Db, items: seq<Item>)
    ensures Unchanged(a, items) <= a.problems.Keys
  {
  }

  lemma WrittenShape(a: Db, c: Db, bid: nat, items: seq<Item>, ids: seq<nat>)
    requires InOrder(a) && ValidFrom(a.problems.Keys, items) && |ids| == |items|
    requires Underway(Started(a, bid), c, a.nextKey, items, Unchanged(a, items), SolutionPids(a, bid), ids)
    ensures Distinct(ids) && c.links == a.links && c.nextBp == a.nextBp && forall l :: l in c.links ==> l < c.nextBp
  {
    hide ProblemsUnderway, SolutionsUnderway, Unchanged;
    NewIdsDistinct(a, items, Unchanged(a, items), ids, c.nextPid);
  }

  /** The states an edit goes through: after the loop, after the first cleaning, after the second, and at the end. */
  ghost predicate Run(a: Db, c: Db, g: Db, i: Db, d: Db, bid: nat, items: seq<Item>, ids: seq<nat>, rejudged: set<nat>) {
    var subs, same := SolutionPids(a, bid), Unchanged(a, items);
    && bid in a.batches && |ids| == |items| && Distinct(ids)
    && Underway(Started(a, bid), c, a.nextKey, items, same, subs, ids)
    && (forall x :: x in rejudged <==> x in subs && Target(items, same, ids, subs[x]).Some?)
    && CleanedUp(Committed(a, c, bid, items, ids), g, Originals(a, bid)) && CleanedUp(Released(g, rejudged), i, PidSet(ids))
    && d == i.(users := d.users) && d.users.Keys == i.users.Keys
    && forall u :: u in d.users ==> d.users[u] == RecountedUser(i, Users(a, bid), u)
  }

  ghost function Committed(a: Db, c: Db, bid: nat, items: seq<Item>, ids: seq<nat>): Db
    requires bid in a.batches && |ids| == |items|
  {
    var doomed := Dropped(SolutionPids(a, bid), items);
    CommitEdit(Purged(c, doomed), bid, doomed, SlotsOf(ids, items), a.batches[bid].status)
  }

  lemma RunEdits(a: Db, c: Db, g: Db, i: Db, d: Db, bid: nat, items: seq<Item>, ids: seq<nat>, rejudged: set<nat>)
    requires InOrder(a) && ValidFrom(a.problems.Keys, items) && DistinctSlugs(items) && Idle(a, BatchSids(a, bid))
    requires ValidFrom(Originals(a, bid), items) && Run(a, c, g, i, d, bid, items, ids, rejudged)
    ensures Edited(a, d, bid, items, ids) && InOrder(d)
  {
    RunFrame(a, c, g, i, d, bid, items, ids, rejudged);
    RunLinks(a, c, g, i, d, bid, items, ids, rejudged);
    RunSolutions(a, c, g, i, d, bid, items, ids, rejudged);
    RunSubmissions(a, c, g, i, d, bid, items, ids, rejudged);
    RunProblems(a, c, g, i, d, bid, items, ids, rejudged);
    RunUsers(a, c, g, i, d, bid, items, ids, rejudged);
    RunInOrder(a, c, g, i, d, bid, items, ids, rejudged);
    hide SolutionsMoved, SubmissionsLinked, LinksRebuilt, ProblemsRebuilt, InOrder, Underway, CleanedUp, Released,
      Committed, Unchanged, Users;
    hide ValidFrom, DistinctSlugs, UserSubmits, UserSolved, RecountedUser, Idle, Dropped;
  }

  /** What the transaction does to each table. */
  lemma CommitTables(e: Db, bid: nat, doomed: set<nat>, ids: seq<nat>, items: seq<Item>, status: BatchStatus)
    requires |ids| == |items| && Distinct(ids) && forall l :: l in e.links ==> l < e.nextBp
    ensures var d := CommitEdit(e, bid, doomed, SlotsOf(ids, items), status);
      && d.links == Relinked(e, bid, SlotsOf(ids, items)).links && d.nextBp == e.nextBp + |ids|
      && d.batches == WithStatus(e, bid, status).batches
      && d.submissions == Joined(e.(submissions := e.submissions - doomed), bid, e.nextBp, ids).submissions
  {
    var x := e.(submissions := e.submissions - doomed);
    var y := Relinked(x, bid, SlotsOf(ids, items));
    RelinkedRows(x, bid, ids, items);
    JoinedIsRepaired(y, bid, e.nextBp, ids, items);
    JoinedReads(x, y, bid, e.nextBp, ids);
    RelinkedReads(x, e, bid, SlotsOf(ids, items));
    StatusReads(Repaired(y, bid), e, bid, status);
    hide Repaired, Joined, Relinked, WithStatus, Numbered;
  }

  lemma JoinedReads(x: Db, y: Db, bid: nat, first: nat, ids: seq<nat>)
    requires y.submissions == x.submissions && y.solutions == x.solutions
    ensures Joined(y, bid, first, ids).submissions == Joined(x, bid, first, ids).submissions
  {
  }

  lemma RelinkedReads(x: Db, y: Db, bid: nat, slots: seq<Slot>)
    requires y.links == x.links && y.nextBp == x.nextBp
    ensures Relinked(y, bid, slots).links == Relinked(x, bid, slots).links
  {
  }

  lemma StatusReads(x: Db, y: Db, bid: nat, status: BatchStatus)
    requires y.batches == x.batches
    ensures WithStatus(y, bid, status).batches == WithStatus(x, bid, status).batches
  {
  }

  /** The tables of the final state, by where they were last written. */
  lemma RunTables(a: Db, c: Db, g: Db, i: Db, d: Db, bid: nat, items: seq<Item>, ids: seq<nat>, rejudged: set<nat>)
    requires InOrder(a) && Run(a, c, g, i, d, bid, items, ids, rejudged)
    ensures bid in a.batches && |ids| == |items| && Distinct(ids) && d.users.Keys == a.users.Keys
    ensures var f := Committed(a, c, bid, items, ids);
      && d == f.(problems := d.problems, tests := d.tests, solutions := d.solutions, users := d.users)
      && d.solutions == Released(f, rejudged).solutions
      && f == Purged(c, Dropped(SolutionPids(a, bid), items)).(submissions := f.submissions, links := f.links,
                                                               nextBp := f.nextBp, batches := f.batches)
      && c == Started(a, bid).(problems := c.problems, tests := c.tests, solutions := c.solutions, nextPid := c.nextPid)
      && f.links == Relinked(a, bid, SlotsOf(ids, items)).links && f.nextBp == a.nextBp + |ids|
      && f.batches == WithStatus(Started(a, bid), bid, a.batches[bid].status).batches
      && f.submissions == Joined(c.(submissions := a.submissions - Dropped(SolutionPids(a, bid), items),
                                    solutions := c.solutions - Dropped(SolutionPids(a, bid), items)), bid, a.nextBp, ids).submissions
  {
    hide ProblemsUnderway, SolutionsUnderway, NewIds, Unchanged, Swept, Untouched, WithStatus, Relinked, Joined,
      CommitEdit, Users, RecountedUser, Target;
    var doomed := Dropped(SolutionPids(a, bid), items);
    hide Dropped;
    var e := Purged(c, doomed);
    CommitTables(e, bid, doomed, ids, items, a.batches[bid].status);
    RelinkedReads(a, e, bid, SlotsOf(ids, items));
    StatusReads(Started(a, bid), e, bid, a.batches[bid].status);
    ReleasedReads(Committed(a, c, bid, items, ids), g, rejudged);
    JoinedReads(e.(submissions := e.submissions - doomed),
      c.(submissions := a.submissions - doomed, solutions := c.solutions - doomed), bid, a.nextBp, ids);
    hide Released;
  }

  lemma ReleasedReads(x: Db, y: Db, sids: set<nat>)
    requires y.solutions == x.solutions
    ensures Released(y, sids).solutions == Released(x, sids).solutions
  {
  }

  lemma RunFrame(a: Db, c: Db, g: Db, i: Db, d: Db, bid: nat, items: seq<Item>, ids: seq<nat>, rejudged: set<nat>)
    requires InOrder(a) && Run(a, c, g, i, d, bid, items, ids, rejudged)
    ensures d == a.(problems := d.problems, tests := d.tests, solutions := d.solutions, code := d.code, userCode := d.userCode,
                    submissions := d.submissions, links := d.links, users := d.users,
                    nextPid := d.nextPid, nextBp := d.nextBp, nextKey := a.nextKey + 1)
    ensures |ids| == |items| && Distinct(ids) && d.users.Keys == a.users.Keys
  {
    hide Run, Committed, Underway, CleanedUp, Released, Relinked, Joined, Unchanged, Users, Dropped, InOrder;
    RunTables(a, c, g, i, d, bid, items, ids, rejudged);
    assert a.batches[bid := a.batches[bid].(status := Closed)][bid := a.batches[bid]] == a.batches;
  }

  lemma RunLinks(a: Db, c: Db, g: Db, i: Db, d: Db, bid: nat, items: seq<Item>, ids: seq<nat>, rejudged: set<nat>)
    requires InOrder(a) && Run(a, c, g, i, d, bid, items, ids, rejudged)
    ensures LinksRebuilt(a, d, bid, items, ids)
  {
    hide Run, Committed, Underway, CleanedUp, Released, Relinked, Joined, Unchanged, Users, Dropped, WithStatus,
      Numbered, Target, Started, Purged, LinksRebuilt;
    RunTables(a, c, g, i, d, bid, items, ids, rejudged);
    LinksAre(a, d, bid, items, ids);
  }

  lemma RunSolutions(a: Db, c: Db, g: Db, i: Db, d: Db, bid: nat, items: seq<Item>, ids: seq<nat>, rejudged: set<nat>)
    requires InOrder(a) && Run(a, c, g, i, d, bid, items, ids, rejudged) && ValidFrom(a.problems.Keys, items)
    ensures SolutionsMoved(a, d, bid, items, ids)
  {
    RunLoop(a, c, g, i, d, bid, items, ids, rejudged);
    RunTables(a, c, g, i, d, bid, items, ids, rejudged);
    hide Run, Committed, CleanedUp, Released, Relinked, Joined, Unchanged, Users, Dropped, WithStatus, Target, InOrder;
    hide SolutionsMoved, ValidFrom, SolutionsUnderway, ProblemsUnderway, NewIds;
    SolutionsAre(a, c, Committed(a, c, bid, items, ids), d, bid, items, ids, rejudged);
  }

  /** What the loop left, and which submissions it moved. */
  lemma RunLoop(a: Db, c: Db, g: Db, i: Db, d: Db, bid: nat, items: seq<Item>, ids: seq<nat>, rejudged: set<nat>)
    requires InOrder(a) && Run(a, c, g, i, d, bid, items, ids, rejudged)
    ensures NewIds(a.nextPid, items, Unchanged(a, items), ids, c.nextPid)
    ensures ProblemsUnderway(Started(a, bid), c, a.nextKey, items, Unchanged(a, items), ids)
    ensures SolutionsUnderway(Started(a, bid), c, items, Unchanged(a, items), SolutionPids(a, bid), ids)
    ensures forall x :: x in rejudged <==> x in SolutionPids(a, bid) && Target(items, Unchanged(a, items), ids, SolutionPids(a, bid)[x]).Some?
  {
    hide Committed, CleanedUp, Released, Relinked, Joined, Unchanged, Users, Dropped, WithStatus, Target, InOrder,
      NewIds;
    hide ProblemsUnderway, SolutionsUnderway;
  }

  lemma SolutionsAre(a: Db, c: Db, f: Db, d: Db, bid: nat, items: seq<Item>, ids: seq<nat>, rejudged: set<nat>)
    requires |ids| == |items| && ValidFrom(a.problems.Keys, items)
    requires SolutionsUnderway(Started(a, bid), c, items, Unchanged(a, items), SolutionPids(a, bid), ids)
    requires forall x :: x in rejudged <==> x in SolutionPids(a, bid) && Target(items, Unchanged(a, items), ids, SolutionPids(a, bid)[x]).Some?
    requires f.solutions == c.solutions - Dropped(SolutionPids(a, bid), items) && d.solutions == Released(f, rejudged).solutions
    requires d.code == a.code - Dropped(SolutionPids(a, bid), items) && d.userCode == a.userCode - Dropped(SolutionPids(a, bid), items)
    ensures SolutionsMoved(a, d, bid, items, ids)
  {
    hide Unchanged, Dropped, Target, WithStatus, SolutionPids;
    var subs, same := SolutionPids(a, bid), Unchanged(a, items);
    SolutionPidsThere(a, bid);
    forall x, k | x in d.solutions && x in subs && 0 <= k < |items| && items[k].from == Some(subs[x])
      ensures d.solutions[x] == if Stays(items[k], same) then a.solutions[x] else a.solutions[x].(pid := ids[k], result := 0)
    {
      TargetOf(items, same, ids, k);
    }
  }

  lemma SolutionPidsThere(db: Db, bid: nat)
    ensures forall x :: x in SolutionPids(db, bid) ==> x in db.solutions && db.solutions[x].pid == SolutionPids(db, bid)[x]
    ensures forall x :: x in SolutionPids(db, bid) <==> x in db.submissions && db.submissions[x].bid == bid && x in db.solutions
  {
  }

  lemma RunSubmissions(a: Db, c: Db, g: Db, i: Db, d: Db, bid: nat, items: seq<Item>, ids: seq<nat>, rejudged: set<nat>)
    requires InOrder(a) && Run(a, c, g, i, d, bid, items, ids, rejudged) && LinksRebuilt(a, d, bid, items, ids)
    requires SolutionsMoved(a, d, bid, items, ids)
    ensures SubmissionsLinked(a, d, bid, items)
  {
    RunLoop(a, c, g, i, d, bid, items, ids, rejudged);
    RunTables(a, c, g, i, d, bid, items, ids, rejudged);
    hide Run, Committed, CleanedUp, Released, Relinked, Joined, Unchanged, Users, Dropped, WithStatus, Target, InOrder;
    hide SolutionsMoved, ProblemsUnderway, SolutionsUnderway, NewIds, LinksRebuilt, SubmissionsLinked;
    var doomed := Dropped(SolutionPids(a, bid), items);
    var e := c.(submissions := a.submissions - doomed, solutions := c.solutions - doomed);
    SamePidsReleased(Committed(a, c, bid, items, ids), rejudged);
    SubmissionsAre(a, e, d, bid, items, ids, c.nextPid);
  }

  lemma SamePidsReleased(f: Db, sids: set<nat>)
    ensures var d := Released(f, sids);
      d.solutions.Keys == f.solutions.Keys && forall x :: x in d.solutions ==> d.solutions[x].pid == f.solutions[x].pid
  {
  }

  lemma SubmissionJoined(a: Db, e: Db, d: Db, bid: nat, items: seq<Item>, ids: seq<nat>, next: nat, x: nat)
    requires |ids| == |items| && LinksRebuilt(a, d, bid, items, ids) && SolutionsMoved(a, d, bid, items, ids)
    requires NewIds(a.nextPid, items, Unchanged(a, items), ids, next)
    requires e.submissions == a.submissions - Dropped(SolutionPids(a, bid), items)
    requires d.submissions == Joined(e, bid, a.nextBp, ids).submissions
    requires x in d.submissions && d.submissions[x].bid == bid && x in d.solutions
    requires x in e.solutions && d.solutions[x].pid == e.solutions[x].pid
    ensures var l := d.submissions[x].bp; l in d.links && d.links[l].bid == bid && d.links[l].pid == d.solutions[x].pid
  {
    hide Unchanged, SolutionPids, SolutionsMoved, LinksRebuilt, NewIds, Dropped;
    var k := PlaceOf(a, d, bid, items, ids, next, x);
    RowAt(a, d, bid, items, ids, IndexOf(ids, ids[k]));
  }

  lemma SubmissionsAre(a: Db, e: Db, d: Db, bid: nat, items: seq<Item>, ids: seq<nat>, next: nat)
    requires |ids| == |items| && LinksRebuilt(a, d, bid, items, ids) && SolutionsMoved(a, d, bid, items, ids)
    requires NewIds(a.nextPid, items, Unchanged(a, items), ids, next)
    requires e.submissions == a.submissions - Dropped(SolutionPids(a, bid), items)
    requires d.submissions == Joined(e, bid, a.nextBp, ids).submissions
    requires d.solutions.Keys == e.solutions.Keys && forall x :: x in d.solutions ==> d.solutions[x].pid == e.solutions[x].pid
    ensures SubmissionsLinked(a, d, bid, items)
  {
    hide Unchanged, SolutionPids, SolutionsMoved, LinksRebuilt, NewIds;
    forall x | x in d.submissions && d.submissions[x].bid == bid && x in d.solutions
      ensures var l := d.submissions[x].bp; l in d.links && d.links[l].bid == bid && d.links[l].pid == d.solutions[x].pid
    {
      SubmissionJoined(a, e, d, bid, items, ids, next, x);
    }
  }

  lemma RowAt(a: Db, d: Db, bid: nat, items: seq<Item>, ids: seq<nat>, j: nat)
    requires |ids| == |items| && LinksRebuilt(a, d, bid, items, ids) && j < |ids|
    ensures a.nextBp + j in d.links && d.links[a.nextBp + j].bid == bid && d.links[a.nextBp + j].pid == ids[j]
  {
  }

  /** The place in the document of the problem of a remaining solution. */
  lemma PlaceOf(a: Db, d: Db, bid: nat, items: seq<Item>, ids: seq<nat>, next: nat, x: nat) returns (k: nat)
    requires |ids| == |items| && SolutionsMoved(a, d, bid, items, ids) && NewIds(a.nextPid, items, Unchanged(a, items), ids, next)
    requires x in d.solutions && x in a.submissions && a.submissions[x].bid == bid
    ensures k < |ids| && d.solutions[x].pid == ids[k]
  {
    hide Unchanged;
    var subs := SolutionPids(a, bid);
    assert x in subs && Keeps(items, subs[x]);
    var it :| it in items && it.from == Some(subs[x]);
    k :| 0 <= k < |items| && items[k] == it;
  }

  lemma ReleasedCounts(g: Db, sids: set<nat>, p: nat)
    ensures var h := Released(g, sids);
      Referenced(h, p) == Referenced(g, p) && ProblemSubmits(h, p) == ProblemSubmits(g, p) && ProblemAccepts(h, p) == ProblemAccepts(g, p)
  {
    var h := Released(g, sids);
    if Solved(g, p) {
      var s :| s in g.solutions && g.solutions[s].pid == p;
      assert h.solutions[s].pid == p;
    }
    if Solved(h, p) {
      var s :| s in h.solutions && h.solutions[s].pid == p;
      assert g.solutions[s].pid == p;
    }
    assert (set s | s in h.solutions && h.solutions[s].pid == p) == (set s | s in g.solutions && g.solutions[s].pid == p);
    assert (set s | s in h.solutions && h.solutions[s].pid == p && h.solutions[s].result == ACCEPTED)
        == (set s | s in g.solutions && g.solutions[s].pid == p && g.solutions[s].result == ACCEPTED);
  }

  /** What both cleanings together do to one problem. */
  lemma TwoSweeps(f: Db, g: Db, i: Db, rejudged: set<nat>, olds: set<nat>, news: set<nat>, p: nat)
    requires CleanedUp(f, g, olds) && CleanedUp(Released(g, rejudged), i, news)
    requires p in news ==> LinkedAnywhere(f, p)
    ensures p !in olds && p !in news ==> Untouched(f, i, p)
    ensures p in f.problems && p in news ==> Survives(f, i, p)
    ensures p in f.problems && p in olds ==>
      (p in i.problems <==> (f.problems[p].source.Authored? ==> Referenced(i, p))) && (if p in i.problems then Survives(f, i, p) else p !in i.tests)
    ensures p in i.problems && (p in olds || p in news) ==> i.problems[p] == TalliedRow(i, p)
    ensures p in i.problems ==> p in f.problems
  {
    var h := Released(g, rejudged);
    SameReferences(f, g, p);
    ReleasedCounts(g, rejudged, p);
    SameReferences(h, i, p);
    assert LinkedAnywhere(g, p) == LinkedAnywhere(f, p);
    hide Released, LinkedAnywhere, ProblemSubmits, ProblemAccepts;
    if p in olds {
      assert Swept(f, g, p);
    } else {
      assert Untouched(f, g, p);
    }
    if p in news {
      assert Swept(h, i, p);
    } else {
      assert Untouched(h, i, p);
    }
  }

  /** From the end of the loop to the end of the edit. */
  lemma RunProblem(a: Db, c: Db, g: Db, i: Db, d: Db, bid: nat, items: seq<Item>, ids: seq<nat>, rejudged: set<nat>, p: nat)
    requires InOrder(a) && Run(a, c, g, i, d, bid, items, ids, rejudged) && LinksRebuilt(a, d, bid, items, ids)
    ensures p !in Originals(a, bid) && p !in ids ==> Untouched(c, d, p)
    ensures p in c.problems && p in ids ==> Survives(c, d, p)
    ensures p in c.problems && p in Originals(a, bid) ==>
      (p in d.problems <==> (c.problems[p].source.Authored? ==> Referenced(d, p))) && (if p in d.problems then Survives(c, d, p) else p !in d.tests)
    ensures p in d.problems && (p in Originals(a, bid) || p in ids) ==> d.problems[p] == TalliedRow(d, p)
    ensures p in d.problems ==> p in c.problems
  {
    hide Run, Committed, Underway, CleanedUp, Relinked, Joined, Unchanged, Users, Dropped, Released, WithStatus,
      Referenced, ProblemSubmits, ProblemAccepts, InOrder;
    hide LinksRebuilt, LinkedAnywhere;
    RunTables(a, c, g, i, d, bid, items, ids, rejudged);
    RunSweeps(a, c, g, i, d, bid, items, ids, rejudged);
    var f := Committed(a, c, bid, items, ids);
    if p in ids {
      LinkedIn(a, d, f, bid, items, ids, p);
    }
    TwoSweeps(f, g, i, rejudged, Originals(a, bid), PidSet(ids), p);
    SameReferences(i, d, p);
  }

  lemma LinkedIn(a: Db, d: Db, f: Db, bid: nat, items: seq<Item>, ids: seq<nat>, p: nat)
    requires |ids| == |items| && LinksRebuilt(a, d, bid, items, ids) && f.links == d.links && p in ids
    ensures LinkedAnywhere(f, p)
  {
    var k :| 0 <= k < |ids| && ids[k] == p;
    RowAt(a, d, bid, items, ids, k);
  }

  lemma RunSweeps(a: Db, c: Db, g: Db, i: Db, d: Db, bid: nat, items: seq<Item>, ids: seq<nat>, rejudged: set<nat>)
    requires InOrder(a) && Run(a, c, g, i, d, bid, items, ids, rejudged)
    ensures CleanedUp(Committed(a, c, bid, items, ids), g, Originals(a, bid)) && CleanedUp(Released(g, rejudged), i, PidSet(ids))
    ensures d == i.(users := d.users)
  {
    hide Committed, Underway, CleanedUp, Released, Unchanged, Users, InOrder, Target;
  }

  lemma RunProblems(a: Db, c: Db, g: Db, i: Db, d: Db, bid: nat, items: seq<Item>, ids: seq<nat>, rejudged: set<nat>)
    requires InOrder(a) && Run(a, c, g, i, d, bid, items, ids, rejudged) && LinksRebuilt(a, d, bid, items, ids)
    requires ValidFrom(a.problems.Keys, items)
    ensures ProblemsRebuilt(a, d, bid, items, ids)
  {
    hide Run, LinksRebuilt, Referenced, TalliedRow, Unchanged, InOrder, ProblemsRebuilt, ProblemsUnderway,
      SolutionsUnderway, NewIds, ValidFrom, Target;
    RunLoop(a, c, g, i, d, bid, items, ids, rejudged);
    RunTables(a, c, g, i, d, bid, items, ids, rejudged);
    forall p
      ensures p !in Originals(a, bid) && p !in ids ==> Untouched(c, d, p)
      ensures p in c.problems && p in ids ==> Survives(c, d, p)
      ensures p in c.problems && p in Originals(a, bid) ==>
        (p in d.problems <==> (c.problems[p].source.Authored? ==> Referenced(d, p))) && (if p in d.problems then Survives(c, d, p) else p !in d.tests)
      ensures p in d.problems && (p in Originals(a, bid) || p in ids) ==> d.problems[p] == TalliedRow(d, p)
    {
      RunProblem(a, c, g, i, d, bid, items, ids, rejudged, p);
    }
    ProblemsAre(a, Started(a, bid), c, d, bid, items, ids);
  }

  lemma ProblemsAre(a: Db, b: Db, c: Db, d: Db, bid: nat, items: seq<Item>, ids: seq<nat>)
    requires |ids| == |items| && ValidFrom(a.problems.Keys, items) && InOrder(a)
    requires b == Started(a, bid) && ProblemsUnderway(b, c, a.nextKey, items, Unchanged(a, items), ids)
    requires NewIds(a.nextPid, items, Unchanged(a, items), ids, c.nextPid)
    requires forall p :: p !in Originals(a, bid) && p !in ids ==> Untouched(c, d, p)
    requires forall p :: p in c.problems && p in ids ==> Survives(c, d, p)
    requires forall p :: p in c.problems && p in Originals(a, bid) ==>
      (p in d.problems <==> (c.problems[p].source.Authored? ==> Referenced(d, p))) && (if p in d.problems then Survives(c, d, p) else p !in d.tests)
    requires forall p :: p in d.problems && (p in Originals(a, bid) || p in ids) ==> d.problems[p] == TalliedRow(d, p)
    ensures ProblemsRebuilt(a, d, bid, items, ids)
  {
    hide Referenced, TalliedRow, Unchanged, WithStatus, Untouched, Survives, Presented, OfDocument, SameTests, InOrder,
      NewIds;
    NewAndKept(a, items, ids, c.nextPid);
    forall k | 0 <= k < |ids| && Stays(items[k], Unchanged(a, items)) ensures Survives(a, d, ids[k]) {
      SurvivesFrom(a, b, c, d, ids[k]);
    }
    forall k | 0 <= k < |ids| && !Stays(items[k], Unchanged(a, items)) ensures Presented(d, a.nextKey, ids[k], items[k]) {
      StillPresented(c, d, a.nextKey, ids[k], items[k]);
    }
    forall p | p in Originals(a, bid)
      ensures p in d.problems <==> (a.problems[p].source.Authored? ==> Referenced(d, p))
      ensures if p in d.problems then Survives(a, d, p) else p !in d.tests
    {
      if p in d.problems {
        SurvivesFrom(a, b, c, d, p);
      }
    }
    forall p | p !in Originals(a, bid) && p !in ids ensures Untouched(a, d, p) {
      UntouchedFrom(a, b, c, d, items, ids, p);
    }
  }

  lemma NewAndKept(a: Db, items: seq<Item>, ids: seq<nat>, next: nat)
    requires |ids| == |items| && ValidFrom(a.problems.Keys, items) && InOrder(a) && NewIds(a.nextPid, items, Unchanged(a, items), ids, next)
    ensures forall k | 0 <= k < |ids| :: ids[k] in a.problems <==> Stays(items[k], Unchanged(a, items))
  {
    hide Unchanged;
  }

  lemma SurvivesFrom(a: Db, b: Db, c: Db, d: Db, p: nat)
    requires b.problems == a.problems && b.tests == a.tests && p in a.problems
    requires p in c.problems && c.problems[p] == b.problems[p] && SameTests(b, c, p) && Survives(c, d, p)
    ensures Survives(a, d, p)
  {
  }

  lemma StillPresented(c: Db, d: Db, key: nat, p: nat, it: Item)
    requires Presented(c, key, p, it) && (p in c.problems ==> Survives(c, d, p))
    ensures Presented(d, key, p, it)
  {
  }

  lemma UntouchedFrom(a: Db, b: Db, c: Db, d: Db, items: seq<Item>, ids: seq<nat>, p: nat)
    requires |ids| == |items| && b.problems == a.problems && b.tests == a.tests && p !in ids && SameTests(b, c, p) && Untouched(c, d, p)
    requires p in a.problems ==> p in c.problems && c.problems[p] == b.problems[p]
    requires p in c.problems && p !in b.problems ==> OfDocument(c, a.nextKey, items, ids, p)
    ensures Untouched(a, d, p)
  {
  }

  lemma RunUsers(a: Db, c: Db, g: Db, i: Db, d: Db, bid: nat, items: seq<Item>, ids: seq<nat>, rejudged: set<nat>)
    requires InOrder(a) && Run(a, c, g, i, d, bid, items, ids, rejudged)
    ensures forall u :: u in d.users ==> u in a.users
    ensures forall u :: u in d.users ==>
      (d.users[u] == if u in Users(a, bid) then User(UserSubmits(d, u), UserSolved(d, u)) else a.users[u])
  {
    RunTables(a, c, g, i, d, bid, items, ids, rejudged);
    hide Committed, Underway, CleanedUp, Relinked, Joined, Unchanged, Users, Dropped, Released, WithStatus;
    forall u | u in d.users ensures UserSubmits(i, u) == UserSubmits(d, u) && UserSolved(i, u) == UserSolved(d, u) {
      SameUserCounts(i, d, u);
    }
    hide UserSubmits, UserSolved;
  }

  lemma RunInOrder(a: Db, c: Db, g: Db, i: Db, d: Db, bid: nat, items: seq<Item>, ids: seq<nat>, rejudged: set<nat>)
    requires InOrder(a) && Run(a, c, g, i, d, bid, items, ids, rejudged) && LinksRebuilt(a, d, bid, items, ids)
    requires ProblemsRebuilt(a, d, bid, items, ids)
    ensures InOrder(d)
  {
    hide Run, LinksRebuilt, ProblemsRebuilt;
    RunLinksBelow(a, c, g, i, d, bid, items, ids, rejudged);
    RunKeys(a, c, g, i, d, bid, items, ids, rejudged);
  }

  lemma RunLinksBelow(a: Db, c: Db, g: Db, i: Db, d: Db, bid: nat, items: seq<Item>, ids: seq<nat>, rejudged: set<nat>)
    requires InOrder(a) && Run(a, c, g, i, d, bid, items, ids, rejudged)
    ensures forall l :: l in d.links ==> l < d.nextBp
  {
    hide Run, Committed, Released, Relinked, Joined, WithStatus, Dropped, Purged;
    RunTables(a, c, g, i, d, bid, items, ids, rejudged);
    RelinkedRows(a, bid, ids, items);
  }

  lemma RunKeys(a: Db, c: Db, g: Db, i: Db, d: Db, bid: nat, items: seq<Item>, ids: seq<nat>, rejudged: set<nat>)
    requires InOrder(a) && Run(a, c, g, i, d, bid, items, ids, rejudged) && LinksRebuilt(a, d, bid, items, ids)
    ensures forall p :: p in d.problems ==> p < d.nextPid && (d.problems[p].source.Authored? ==> d.problems[p].source.key < d.nextKey)
  {
    hide Run, Committed, CleanedUp, Relinked, Joined, Users, Dropped, Released, Unchanged, SolutionsUnderway, NewIds,
      Referenced, TalliedRow, Target, LinksRebuilt;
    RunTables(a, c, g, i, d, bid, items, ids, rejudged);
    RunLoop(a, c, g, i, d, bid, items, ids, rejudged);
    forall p | p in d.problems ensures p < d.nextPid && (d.problems[p].source.Authored? ==> d.problems[p].source.key < d.nextKey) {
      RunProblem(a, c, g, i, d, bid, items, ids, rejudged, p);
    }
  }

  /** An edit that only reorders or reweighs problems touches no submission: ids, verdicts and problems stay. */
  lemma ReweighingKeepsSolutions(a: Db, d: Db, bid: nat, items: seq<Item>, ids: seq<nat>)
    requires Edited(a, d, bid, items, ids) && ValidFrom(Originals(a, bid), items)
    requires forall k | 0 <= k < |items| :: SameContent(a, items[k])
    requires forall x :: x in SolutionPids(a, bid) ==> Keeps(items, SolutionPids(a, bid)[x])
    ensures d.solutions == a.solutions && d.submissions.Keys == a.submissions.Keys
    ensures forall k | 0 <= k < |ids| :: ids[k] in a.problems && Survives(a, d, ids[k])
  {
    var subs, same := SolutionPids(a, bid), Unchanged(a, items);
    hide LinksRebuilt, Numbered;
    forall k | 0 <= k < |items| ensures Stays(items[k], same) {
      assert items[k] in items;
    }
    hide Unchanged, SameContent, Survives, Untouched, Presented, Referenced, TalliedRow;
    assert Dropped(subs, items) == {};
    forall x | x in d.solutions && x in subs ensures d.solutions[x] == a.solutions[x] {
      var it :| it in items && it.from == Some(subs[x]);
      var k :| 0 <= k < |items| && items[k] == it;
    }
    assert d.solutions.Keys == a.solutions.Keys;
  }
}
