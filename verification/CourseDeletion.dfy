/**
 The physical deletion of an offering, statement by statement. Judge rows and test files go at once
 and cannot be brought back, the course rows go in one transaction at the end; a deletion that is cut
 anywhere leaves the offering archived and can be run again.
 */
module CourseDeletion {
  import opened Values
  import opened Tables
  import opened Stores
  import opened Sets

  /** Some submission of the offering is still being saved or judged. */
  predicate Busy(db: Db, oid: nat) { !Idle(db, OfferingSids(db, oid)) }

  function OfferingUsers(db: Db, oid: nat): set<string> {
    set s | s in db.submissions && db.submissions[s].oid == oid :: db.submissions[s].user
  }

  function DeletionPids(db: Db, oid: nat): set<nat> { OfferingPids(db, oid) + StagedPids(db, oid) }

  predicate IsAuthored(db: Db, p: nat) { p in db.problems && db.problems[p].source.Authored? }

  // ---------------------------------------------------------------- what a deletion comes to

  /** Problems only the offering knew. */
  function Orphans(db: Db, oid: nat, course: nat): set<nat> {
    set p | p in DeletionPids(db, oid) && IsAuthored(db, p) && !Shared(db, p, oid, course)
  }

  /** The counters of users, recounted for `users`. */
  function CleanedUsers(db: Db, users: set<string>): map<string, User> {
    map u | u in db.users :: if u in users then User(UserSubmits(db, u), UserSolved(db, u)) else db.users[u]
  }

  function TalliedProblem(db: Db, p: nat): Problem
    requires p in db.problems
  {
    db.problems[p].(submit := ProblemSubmits(db, p), accepted := ProblemAccepts(db, p))
  }

  /** The problems without the orphans, `pids` tallied. */
  function CleanedProblems(db: Db, pids: set<nat>, orphans: set<nat>): map<nat, Problem> {
    map p | p in db.problems && p !in orphans :: if p in pids then TalliedProblem(db, p) else db.problems[p]
  }

  function Cleaned(db: Db, plan: Plan): Db {
    db.(users := CleanedUsers(db, plan.users), problems := CleanedProblems(db, plan.pids, plan.orphans), tests := db.tests - plan.orphans)
  }

  /** What a deletion reads before it starts. */
  datatype Plan = Plan(sids: set<nat>, users: set<string>, pids: set<nat>, orphans: set<nat>, course: nat)

  function PlanOf(db: Db, oid: nat): Plan
    requires oid in db.offerings
  {
    var sids, course := OfferingSids(db, oid), db.offerings[oid].course;
    Plan(sids, OfferingUsers(db, oid), DeletionPids(db, oid), Orphans(Purged(db, sids), oid, course), course)
  }

  function Finish(db: Db, oid: nat, plan: Plan): Db {
    CommitDelete(Cleaned(Purged(db, plan.sids), plan), oid, plan.course)
  }

  /** The databases after a whole deletion. */
  function Outcome(db: Db, oid: nat): Db {
    if oid in db.offerings then Finish(db, oid, PlanOf(db, oid)) else db
  }

  // ---------------------------------------------------------------- no statement changes what it comes to

  lemma SameSids(db: Db, d: Db, oid: nat)
    requires d.submissions == db.submissions
    ensures OfferingSids(d, oid) == OfferingSids(db, oid) && OfferingUsers(d, oid) == OfferingUsers(db, oid)
  {
  }

  lemma SamePids(db: Db, d: Db, oid: nat)
    requires d.links == db.links && d.batches == db.batches && d.drafts == db.drafts && d.problems.Keys == db.problems.Keys
    requires forall p :: p in db.problems ==> d.problems[p].source == db.problems[p].source
    ensures DeletionPids(d, oid) == DeletionPids(db, oid)
  {
    assert forall k :: StagedKey(d, oid, k) == StagedKey(db, oid, k);
    assert StagedPids(d, oid) == StagedPids(db, oid);
    assert OfferingPids(d, oid) == OfferingPids(db, oid);
  }

  lemma SameShared(db: Db, d: Db, p: nat, oid: nat, course: nat)
    requires d.links == db.links && d.batches == db.batches && d.solutions == db.solutions && d.tags == db.tags
    ensures Shared(d, p, oid, course) == Shared(db, p, oid, course)
  {
  }

  /** Purging, counting and archiving leave the plan as it was. */
  lemma SamePlan(db: Db, d: Db, oid: nat)
    requires oid in db.offerings && oid in d.offerings && d.offerings[oid].course == db.offerings[oid].course
    requires d.submissions == db.submissions && d.links == db.links && d.batches == db.batches && d.drafts == db.drafts && d.tags == db.tags
    requires d.problems.Keys == db.problems.Keys && forall p :: p in db.problems ==> d.problems[p].source == db.problems[p].source
    requires d.solutions - OfferingSids(db, oid) == db.solutions - OfferingSids(db, oid)
    ensures PlanOf(d, oid) == PlanOf(db, oid)
  {
    SameSids(db, d, oid);
    SamePids(db, d, oid);
    var sids, course := OfferingSids(db, oid), db.offerings[oid].course;
    var x, y := Purged(db, sids), Purged(d, sids);
    SamePids(db, x, oid);
    SamePids(d, y, oid);
    forall p ensures Shared(y, p, oid, course) == Shared(x, p, oid, course) {
      SameShared(x, y, p, oid, course);
    }
    assert Orphans(x, oid, course) == Orphans(y, oid, course) by {
      hide Shared;
    }
  }

  lemma SameUsers(x: Db, y: Db, users: set<string>)
    requires y.solutions == x.solutions && y.users.Keys == x.users.Keys
    requires forall u :: u in x.users && u !in users ==> y.users[u] == x.users[u]
    ensures CleanedUsers(y, users) == CleanedUsers(x, users)
  {
    SameUserCounts(x, y);
  }

  lemma SameUserCounts(x: Db, y: Db)
    requires y.solutions == x.solutions
    ensures forall u :: UserSubmits(y, u) == UserSubmits(x, u) && UserSolved(y, u) == UserSolved(x, u)
  {
  }

  lemma SameProblemCounts(x: Db, y: Db)
    requires y.solutions == x.solutions
    ensures forall p :: ProblemSubmits(y, p) == ProblemSubmits(x, p) && ProblemAccepts(y, p) == ProblemAccepts(x, p)
  {
  }

  lemma SameProblems(x: Db, y: Db, pids: set<nat>, orphans: set<nat>)
    requires y.solutions == x.solutions
    requires forall p :: p !in orphans ==> (p in y.problems <==> p in x.problems)
    requires forall p :: p in x.problems && p !in orphans && p in pids ==> SameButCounts(y.problems[p], x.problems[p])
    requires forall p :: p in x.problems && p !in orphans && p !in pids ==> y.problems[p] == x.problems[p]
    ensures CleanedProblems(y, pids, orphans) == CleanedProblems(x, pids, orphans)
  {
    SameProblemCounts(x, y);
    hide ProblemSubmits, ProblemAccepts;
    var m, n := CleanedProblems(x, pids, orphans), CleanedProblems(y, pids, orphans);
    forall p | p in m ensures p in n && n[p] == m[p] {
      if p in pids {
        assert SameButCounts(y.problems[p], x.problems[p]);
      }
    }
  }

  /** Two states that come to the same after cleaning. */
  lemma SameFinish(x: Db, y: Db, oid: nat, plan: Plan)
    requires Cleaned(Purged(y, plan.sids), plan) == Cleaned(Purged(x, plan.sids), plan).(offerings := y.offerings)
    requires y.offerings - {oid} == x.offerings - {oid}
    ensures Finish(y, oid, plan) == Finish(x, oid, plan)
  {
    SameCommit(Cleaned(Purged(x, plan.sids), plan), Cleaned(Purged(y, plan.sids), plan), oid, plan.course);
  }

  lemma SameCommit(x: Db, y: Db, oid: nat, course: nat)
    requires y == x.(offerings := y.offerings) && y.offerings - {oid} == x.offerings - {oid}
    ensures CommitDelete(y, oid, course) == CommitDelete(x, oid, course)
  {
    SameWithout(x, y, oid);
    hide WithoutOffering, WithoutCourse, CourseUsed;
  }

  lemma SameWithout(x: Db, y: Db, oid: nat)
    requires y == x.(offerings := y.offerings) && y.offerings - {oid} == x.offerings - {oid}
    ensures WithoutOffering(y, oid) == WithoutOffering(x, oid)
  {
  }

  lemma ArchiveSame(db: Db, oid: nat)
    requires oid in db.offerings
    ensures Outcome(Archive(db, oid), oid) == Outcome(db, oid)
  {
    var d, plan := Archive(db, oid), PlanOf(db, oid);
    SamePlan(db, d, oid);
    var x, y := Purged(db, plan.sids), Purged(d, plan.sids);
    SameUsers(x, y, plan.users);
    SameProblems(x, y, plan.pids, plan.orphans);
    hide PlanOf, CleanedUsers, CleanedProblems;
    SameFinish(db, d, oid, plan);
  }

  lemma PurgeSame(db: Db, d: Db, oid: nat)
    requires oid in db.offerings && d == db.(code := d.code, userCode := d.userCode, solutions := d.solutions)
    requires Purged(d, OfferingSids(db, oid)) == Purged(db, OfferingSids(db, oid))
    ensures Outcome(d, oid) == Outcome(db, oid)
  {
    SamePlan(db, d, oid);
  }

  /** The offering's submissions are gone from the judge. */
  predicate PurgeDone(db: Db, oid: nat) { Purged(db, OfferingSids(db, oid)) == db }

  lemma RecountSame(db: Db, oid: nat, user: string)
    requires oid in db.offerings && PurgeDone(db, oid) && user in OfferingUsers(db, oid)
    ensures Outcome(Recounted(db, user), oid) == Outcome(db, oid) && PurgeDone(Recounted(db, user), oid)
  {
    if user in db.users {
      var d, plan := db.(users := db.users[user := User(UserSubmits(db, user), UserSolved(db, user))]), PlanOf(db, oid);
      assert d == Recounted(db, user);
      SameSids(db, d, oid);
      SamePlan(db, d, oid);
      SameUsers(db, d, plan.users);
      SameProblems(db, d, plan.pids, plan.orphans);
      hide PlanOf, CleanedUsers, CleanedProblems, Recounted, UserSubmits, UserSolved;
      SameFinish(db, d, oid, plan);
    } else {
      assert Recounted(db, user) == db;
    }
  }

  lemma TallySame(db: Db, oid: nat, p: nat)
    requires oid in db.offerings && PurgeDone(db, oid) && p in DeletionPids(db, oid)
    ensures Outcome(Tallied(db, p), oid) == Outcome(db, oid) && PurgeDone(Tallied(db, p), oid)
  {
    if p in db.problems {
      var d, plan := db.(problems := db.problems[p := TalliedProblem(db, p)]), PlanOf(db, oid);
      assert d == Tallied(db, p);
      SameSids(db, d, oid);
      SamePlan(db, d, oid);
      SameUsers(db, d, plan.users);
      SameProblems(db, d, plan.pids, plan.orphans);
      hide PlanOf, CleanedUsers, CleanedProblems, Tallied, TalliedProblem;
      SameFinish(db, d, oid, plan);
    } else {
      assert Tallied(db, p) == db;
    }
  }

  lemma DropTestsSame(db: Db, oid: nat, p: nat)
    requires oid in db.offerings && PurgeDone(db, oid) && p in PlanOf(db, oid).orphans
    ensures Outcome(db.(tests := db.tests - {p}), oid) == Outcome(db, oid) && PurgeDone(db.(tests := db.tests - {p}), oid)
  {
    var d, plan := db.(tests := db.tests - {p}), PlanOf(db, oid);
    SameSids(db, d, oid);
    SamePlan(db, d, oid);
    SameUsers(db, d, plan.users);
    SameProblems(db, d, plan.pids, plan.orphans);
    assert d.tests - plan.orphans == db.tests - plan.orphans;
    hide PlanOf, CleanedUsers, CleanedProblems;
    SameFinish(db, d, oid, plan);
  }

  /** An erased orphan drops out of the plan, and nothing else does. */
  lemma ErasedPlan(db: Db, oid: nat, p: nat)
    requires oid in db.offerings && p in PlanOf(db, oid).orphans
    ensures var plan, after := PlanOf(db, oid), PlanOf(db.(problems := db.problems - {p}), oid);
      && after == plan.(pids := after.pids, orphans := plan.orphans - {p})
      && after.pids + {p} == plan.pids + {p}
  {
    var d := db.(problems := db.problems - {p});
    SameSids(db, d, oid);
    ErasedPids(db, oid, p);
    ErasedOrphans(db, oid, p);
    hide OfferingSids, OfferingUsers, Orphans, DeletionPids, Shared;
  }

  lemma ErasedPids(db: Db, oid: nat, p: nat)
    ensures DeletionPids(db.(problems := db.problems - {p}), oid) + {p} == DeletionPids(db, oid) + {p}
  {
    var d := db.(problems := db.problems - {p});
    assert forall k :: StagedKey(d, oid, k) == StagedKey(db, oid, k);
    assert StagedPids(d, oid) == StagedPids(db, oid) - {p};
    assert OfferingPids(d, oid) == OfferingPids(db, oid);
    hide StagedKey;
  }

  lemma ErasedOrphans(db: Db, oid: nat, p: nat)
    requires oid in db.offerings
    ensures var d, sids, course := db.(problems := db.problems - {p}), OfferingSids(db, oid), db.offerings[oid].course;
      Orphans(Purged(d, sids), oid, course) == Orphans(Purged(db, sids), oid, course) - {p}
  {
    var d := db.(problems := db.problems - {p});
    var sids, course := OfferingSids(db, oid), db.offerings[oid].course;
    var x, y := Purged(db, sids), Purged(d, sids);
    SamePids(db, x, oid);
    SamePids(d, y, oid);
    ErasedPids(db, oid, p);
    forall q ensures Shared(y, q, oid, course) == Shared(x, q, oid, course) {
      SameShared(x, y, q, oid, course);
    }
    hide Shared, DeletionPids;
  }

  lemma DropProblemSame(db: Db, oid: nat, p: nat)
    requires oid in db.offerings && PurgeDone(db, oid) && p in PlanOf(db, oid).orphans && p !in db.tests
    ensures Outcome(db.(problems := db.problems - {p}), oid) == Outcome(db, oid) && PurgeDone(db.(problems := db.problems - {p}), oid)
  {
    var d, plan := db.(problems := db.problems - {p}), PlanOf(db, oid);
    var after := PlanOf(d, oid);
    SameSids(db, d, oid);
    ErasedPlan(db, oid, p);
    assert CleanedProblems(d, after.pids, after.orphans) == CleanedProblems(db, plan.pids, plan.orphans) by {
      SameProblemCounts(db, d);
      hide ProblemSubmits, ProblemAccepts, PlanOf;
    }
    SameUsers(db, d, plan.users);
    assert d.tests - after.orphans == db.tests - plan.orphans;
  }

  // ---------------------------------------------------------------- when all is done but the transaction

  /** Users recounted, orphans erased, the other problems tallied: only the transaction is left. */
  predicate Tidy(db: Db, oid: nat)
    requires oid in db.offerings
  {
    && PurgeDone(db, oid)
    && (forall u :: u in OfferingUsers(db, oid) ==> UserTidy(db, u))
    && (forall p :: p in DeletionPids(db, oid) ==> ProblemTidy(db, oid, p))
  }

  predicate UserTidy(db: Db, u: string) { u in db.users ==> db.users[u] == User(UserSubmits(db, u), UserSolved(db, u)) }

  predicate ProblemTidy(db: Db, oid: nat, p: nat)
    requires oid in db.offerings
  {
    && !(IsAuthored(db, p) && !Shared(db, p, oid, db.offerings[oid].course))
    && (p in db.problems ==> db.problems[p] == TalliedProblem(db, p))
  }

  lemma TidyFinishes(db: Db, oid: nat)
    requires oid in db.offerings && Tidy(db, oid)
    ensures CommitDelete(db, oid, db.offerings[oid].course) == Outcome(db, oid)
  {
    var plan := PlanOf(db, oid);
    assert plan.orphans == {} by {
      hide Shared, UserTidy;
    }
    assert CleanedUsers(db, plan.users) == db.users by {
      assert forall u :: u in plan.users ==> UserTidy(db, u);
    }
    assert CleanedProblems(db, plan.pids, {}) == db.problems by {
      assert forall p :: p in plan.pids ==> ProblemTidy(db, oid, p);
    }
    assert db.tests - {} == db.tests;
  }

  lemma ProblemStaysTidy(db: Db, d: Db, oid: nat, q: nat)
    requires oid in db.offerings && oid in d.offerings && d.offerings[oid].course == db.offerings[oid].course && ProblemTidy(db, oid, q)
    requires d.links == db.links && d.batches == db.batches && d.solutions == db.solutions && d.tags == db.tags
    requires q in d.problems ==> q in db.problems && d.problems[q] == db.problems[q]
    ensures ProblemTidy(d, oid, q)
  {
    SameShared(db, d, q, oid, db.offerings[oid].course);
    SameProblemCounts(db, d);
    hide Shared, ProblemSubmits, ProblemAccepts;
  }

  lemma TalliedTidy(db: Db, oid: nat, p: nat)
    requires oid in db.offerings && !(IsAuthored(db, p) && !Shared(db, p, oid, db.offerings[oid].course))
    ensures ProblemTidy(Tallied(db, p), oid, p)
  {
    var d := Tallied(db, p);
    SameShared(db, d, p, oid, db.offerings[oid].course);
    SameProblemCounts(db, d);
    hide Shared, ProblemSubmits, ProblemAccepts;
  }

  lemma RecountedTidy(db: Db, user: string, u: string)
    requires u == user || UserTidy(db, u)
    ensures UserTidy(Recounted(db, user), u)
  {
    SameUserCounts(db, Recounted(db, user));
    hide UserSubmits, UserSolved;
  }

  /** Both states come to the same, and the deletion would read the same from both. */
  ghost predicate SameDeletion(a: Db, d: Db, oid: nat) {
    && oid in a.offerings && oid in d.offerings && d.offerings[oid].course == a.offerings[oid].course
    && Outcome(d, oid) == Outcome(a, oid)
    && OfferingSids(d, oid) == OfferingSids(a, oid) && OfferingUsers(d, oid) == OfferingUsers(a, oid)
    && DeletionPids(d, oid) == DeletionPids(a, oid) && (!Busy(a, oid) ==> !Busy(d, oid))
  }

  lemma Advanced(db: Db, d: Db, oid: nat)
    requires d == db.(offerings := d.offerings, code := d.code, userCode := d.userCode, solutions := d.solutions)
    requires forall s :: s in d.solutions ==> s in db.solutions && d.solutions[s] == db.solutions[s]
    ensures OfferingSids(d, oid) == OfferingSids(db, oid) && OfferingUsers(d, oid) == OfferingUsers(db, oid)
    ensures DeletionPids(d, oid) == DeletionPids(db, oid) && (!Busy(db, oid) ==> !Busy(d, oid))
  {
    SameSids(db, d, oid);
    SamePids(db, d, oid);
  }

  lemma ArchiveAdvances(db: Db, oid: nat)
    requires oid in db.offerings
    ensures SameDeletion(db, Archive(db, oid), oid)
  {
    Advanced(db, Archive(db, oid), oid);
    ArchiveSame(db, oid);
    hide Outcome, OfferingUsers, DeletionPids, Busy;
  }

  lemma PurgeAdvances(db: Db, d: Db, oid: nat)
    requires oid in db.offerings && d == db.(code := d.code, userCode := d.userCode, solutions := d.solutions)
    requires Purged(d, OfferingSids(db, oid)) == Purged(db, OfferingSids(db, oid))
    requires forall s :: s in d.solutions ==> s in db.solutions && d.solutions[s] == db.solutions[s]
    ensures SameDeletion(db, d, oid)
  {
    Advanced(db, d, oid);
    PurgeSame(db, d, oid);
    hide Outcome, OfferingUsers, DeletionPids, Busy;
  }

  /** The databases after the first `k` of the four purging statements. */
  function PurgedTo(db: Db, oid: nat, k: nat): Db {
    var sids := OfferingSids(db, oid);
    var closed := if 1 <= k then Archive(db, oid) else db;
    closed.(code := if 2 <= k then db.code - sids else db.code,
            userCode := if 3 <= k then db.userCode - sids else db.userCode,
            solutions := if 4 <= k then db.solutions - sids else db.solutions)
  }

  /** Wherever the purge is cut, the deletion comes to the same; after it, the judge has forgotten the offering. */
  lemma PurgedToSame(db: Db, oid: nat, k: nat)
    requires oid in db.offerings
    ensures SameDeletion(db, PurgedTo(db, oid, k), oid)
    ensures 4 <= k ==> PurgeDone(PurgedTo(db, oid, k), oid)
  {
    var a := if 1 <= k then Archive(db, oid) else db;
    assert SameDeletion(db, a, oid) by {
      if 1 <= k {
        ArchiveAdvances(db, oid);
      }
      hide Outcome, OfferingUsers, DeletionPids, Busy;
    }
    var d, sids := PurgedTo(db, oid, k), OfferingSids(db, oid);
    PurgedAgain(db, oid, k);
    hide Outcome, OfferingUsers, DeletionPids, Busy, Archive;
    PurgeAdvances(a, d, oid);
    SameDeletionTwice(db, a, d, oid);
  }

  lemma PurgedAgain(db: Db, oid: nat, k: nat)
    ensures var a, sids := if 1 <= k then Archive(db, oid) else db, OfferingSids(db, oid);
      && Purged(PurgedTo(db, oid, k), sids) == Purged(a, sids)
      && (4 <= k ==> Purged(PurgedTo(db, oid, k), sids) == PurgedTo(db, oid, k))
      && OfferingSids(a, oid) == sids && OfferingSids(PurgedTo(db, oid, k), oid) == sids
  {
    hide Archive;
    var sids := OfferingSids(db, oid);
    assert db.code - sids - sids == db.code - sids && db.userCode - sids - sids == db.userCode - sids;
    assert db.solutions - sids - sids == db.solutions - sids;
  }

  lemma SameDeletionTwice(a: Db, b: Db, d: Db, oid: nat)
    requires SameDeletion(a, b, oid) && SameDeletion(b, d, oid)
    ensures SameDeletion(a, d, oid)
  {
    hide Outcome, OfferingUsers, DeletionPids, Busy;
  }

  /** Only the row and the tests of one problem are different. */
  ghost predicate OnlyProblem(a: Db, d: Db, oid: nat, p: nat) {
    && d == a.(problems := d.problems, tests := d.tests)
    && (forall q :: q != p ==> (q in d.problems <==> q in a.problems))
    && (forall q :: q != p && q in d.problems ==> d.problems[q] == a.problems[q])
    && DeletionPids(d, oid) + {p} == DeletionPids(a, oid) + {p}
  }

  predicate Resumable(db: Db, oid: nat) { oid in db.offerings && PurgeDone(db, oid) && Idle(db, OfferingSids(db, oid)) }

  lemma OnlyItself(db: Db, oid: nat, p: nat)
    ensures OnlyProblem(db, db, oid, p)
  {
    hide DeletionPids;
  }

  lemma TestsErased(db: Db, oid: nat, p: nat)
    requires Resumable(db, oid) && p in DeletionPids(db, oid) && IsAuthored(db, p) && !Shared(db, p, oid, db.offerings[oid].course)
    ensures var d := db.(tests := db.tests - {p});
      && Resumable(d, oid) && Outcome(d, oid) == Outcome(db, oid) && OnlyProblem(db, d, oid, p)
      && p in DeletionPids(d, oid) && IsAuthored(d, p) && !Shared(d, p, oid, d.offerings[oid].course)
  {
    var d := db.(tests := db.tests - {p});
    DropTestsSame(db, oid, p);
    SamePids(db, d, oid);
    SameSids(db, d, oid);
    SameShared(db, d, p, oid, db.offerings[oid].course);
    hide Outcome, OfferingUsers, DeletionPids, Shared;
  }

  lemma RowErased(a: Db, db: Db, oid: nat, p: nat)
    requires Resumable(db, oid) && p in DeletionPids(db, oid) && IsAuthored(db, p) && !Shared(db, p, oid, db.offerings[oid].course)
    requires p !in db.tests && OnlyProblem(a, db, oid, p)
    ensures var d := db.(problems := db.problems - {p});
      && Resumable(d, oid) && Outcome(d, oid) == Outcome(db, oid) && OnlyProblem(a, d, oid, p) && ProblemTidy(d, oid, p)
  {
    hide Outcome, OfferingUsers, Shared, DeletionPids, PlanOf, OfferingSids, Idle;
    var d := db.(problems := db.problems - {p});
    OrphanIs(db, oid, p);
    DropProblemSame(db, oid, p);
    ErasedPids(db, oid, p);
    SameSids(db, d, oid);
    StillIdle(db, d, oid);
  }

  lemma OrphanIs(db: Db, oid: nat, p: nat)
    requires oid in db.offerings && PurgeDone(db, oid) && p in DeletionPids(db, oid) && IsAuthored(db, p)
    requires !Shared(db, p, oid, db.offerings[oid].course)
    ensures p in PlanOf(db, oid).orphans
  {
    hide Shared;
  }

  lemma StillIdle(db: Db, d: Db, oid: nat)
    requires d.submissions == db.submissions && d.solutions == db.solutions && Idle(db, OfferingSids(db, oid))
    ensures Idle(d, OfferingSids(d, oid))
  {
  }

  lemma RowTallied(db: Db, oid: nat, p: nat)
    requires Resumable(db, oid) && p in DeletionPids(db, oid) && !(IsAuthored(db, p) && !Shared(db, p, oid, db.offerings[oid].course))
    ensures var d := Tallied(db, p);
      && Resumable(d, oid) && Outcome(d, oid) == Outcome(db, oid) && OnlyProblem(db, d, oid, p) && ProblemTidy(d, oid, p)
  {
    hide Outcome, OfferingUsers, DeletionPids, Shared, Tallied, ProblemTidy;
    var d := Tallied(db, p);
    TallySame(db, oid, p);
    TalliedTidy(db, oid, p);
    TallyFrame(db, p);
    SameSids(db, d, oid);
    SamePids(db, d, oid);
  }

  lemma TallyFrame(db: Db, p: nat)
    ensures var d := Tallied(db, p);
      && d.problems.Keys == db.problems.Keys && (forall q :: q in db.problems ==> d.problems[q].source == db.problems[q].source)
      && (forall q :: q in db.problems && q != p ==> d.problems[q] == db.problems[q])
  {
  }

  lemma ReadsStay(a: Db, d: Db, oid: nat)
    requires d == a.(users := d.users)
    ensures OfferingUsers(d, oid) == OfferingUsers(a, oid) && DeletionPids(d, oid) == DeletionPids(a, oid)
  {
    SameSids(a, d, oid);
    SamePids(a, d, oid);
  }

  /** What a deletion comes to is final: there is nothing left to delete. */
  lemma FinalState(db: Db, oid: nat)
    ensures oid !in Outcome(db, oid).offerings && Outcome(Outcome(db, oid), oid) == Outcome(db, oid)
  {
    if oid in db.offerings {
      hide CourseUsed, Cleaned, PlanOf;
      assert oid !in WithoutOffering(Cleaned(Purged(db, PlanOf(db, oid).sids), PlanOf(db, oid)), oid).offerings;
    }
  }

  lemma NothingToDelete(db: Db, oid: nat)
    requires oid !in db.offerings
    ensures Outcome(db, oid) == db
  {
  }

  // ---------------------------------------------------------------- the deletion

  /** Refused while judging is going on; done; or cut off after some statement. */
  datatype Ending = Refused | Done | Cut

  /** How many statements a whole deletion issues at most. */
  ghost function Statements(s: Store, oid: nat): nat
    reads s
  {
    5 + |OfferingUsers(s.db, oid)| + 2 * |DeletionPids(s.db, oid)|
  }

  /** Deletes the offering; after `fuel` statements the process is gone, and the open transaction with it. */
  method Remove(s: Store, oid: nat, fuel: nat) returns (end: Ending)
    modifies s
    ensures end.Refused? <==> oid in old(s.db).offerings && Busy(old(s.db), oid)
    ensures end.Refused? ==> s.db == old(s.db)
    ensures end.Done? ==> s.db == Outcome(old(s.db), oid)
    ensures end.Cut? ==> Outcome(s.db, oid) == Outcome(old(s.db), oid) && oid in s.db.offerings && !Busy(s.db, oid)
    ensures end.Cut? ==> Statements(s, oid) <= old(Statements(s, oid))
    ensures old(Statements(s, oid)) <= fuel ==> !end.Cut?
  {
    hide Outcome, OfferingUsers, DeletionPids, CommitDelete, PurgeDone, PurgedTo, Idle, OfferingSids, UserTidy, Tidy;
    if oid !in s.db.offerings {
      NothingToDelete(s.db, oid);
      return Done;
    }
    if !Idle(s.db, OfferingSids(s.db, oid)) { return Refused; }
    var course := s.db.offerings[oid].course;
    var users, pids := OfferingUsers(s.db, oid), DeletionPids(s.db, oid);
    var left := PurgeJudge(s, oid, fuel);
    PurgedToSame(old(s.db), oid, if fuel < 4 then fuel else 4);
    if left < 0 { return Cut; }
    left := RecountUsers(s, oid, users, left);
    if left < 0 { return Cut; }
    ghost var recounted := s.db;
    left := CleanProblems(s, oid, users, pids, course, left);
    SameSids(recounted, s.db, oid);
    SubsetSize(DeletionPids(s.db, oid), pids);
    if left <= 0 { return Cut; }
    TidyFinishes(s.db, oid);
    s.db := CommitDelete(s.db, oid, course);
    return Done;
  }

  /**
   A deletion that is cut any number of times, anywhere, and run again each time, finishes as soon as it is left
   enough statements, and then the databases are exactly what one uninterrupted deletion leaves.
   */
  method RemoveWithRetries(s: Store, oid: nat, cuts: seq<nat>, enough: nat) returns (end: Ending)
    requires Busy(s.db, oid) ==> oid !in s.db.offerings
    modifies s
    ensures !end.Refused? && Outcome(s.db, oid) == Outcome(old(s.db), oid)
    ensures old(Statements(s, oid)) <= enough ==> end.Done?
    ensures end.Done? ==> s.db == Outcome(old(s.db), oid)
  {
    end := Cut;
    var k := 0;
    while k < |cuts|
      invariant Outcome(s.db, oid) == Outcome(old(s.db), oid)
      invariant Busy(s.db, oid) ==> oid !in s.db.offerings
      invariant Statements(s, oid) <= old(Statements(s, oid))
    {
      hide Outcome, Busy, OfferingUsers, DeletionPids;
      end := Remove(s, oid, cuts[k]);
      if end.Done? {
        FinalState(old(s.db), oid);
        return;
      }
      k := k + 1;
    }
    end := Remove(s, oid, enough);
    FinalState(old(s.db), oid);
  }

  /** Closes the offering, then drops the sources and the solutions. The result is the fuel left, or -1 when it has run out before. */
  method PurgeJudge(s: Store, oid: nat, fuel: int) returns (left: int)
    requires oid in s.db.offerings && 0 <= fuel
    modifies s
    ensures s.db == PurgedTo(old(s.db), oid, if fuel < 4 then fuel else 4)
    ensures left == if fuel < 4 then -1 else fuel - 4
  {
    hide Archive, OfferingSids;
    var sids := OfferingSids(s.db, oid);
    if fuel == 0 { return -1; }
    s.db := Archive(s.db, oid);
    if fuel == 1 { return -1; }
    s.db := s.db.(code := s.db.code - sids);
    if fuel == 2 { return -1; }
    s.db := s.db.(userCode := s.db.userCode - sids);
    if fuel == 3 { return -1; }
    s.db := s.db.(solutions := s.db.solutions - sids);
    return fuel - 4;
  }

  /** What the loops below keep: the deletion comes to the same, and can be resumed. */
  ghost predicate Underway(s: Store, oid: nat)
    reads s
  {
    Resumable(s.db, oid)
  }

  /** Recounts users one by one. The result is the fuel left, or -1 when it has run out before. */
  method RecountUsers(s: Store, oid: nat, users: set<string>, fuel: int) returns (left: int)
    requires Underway(s, oid) && users == OfferingUsers(s.db, oid) && 0 <= fuel
    modifies s
    ensures Underway(s, oid) && Outcome(s.db, oid) == Outcome(old(s.db), oid)
    ensures s.db == old(s.db).(users := s.db.users)
    ensures OfferingUsers(s.db, oid) == users && DeletionPids(s.db, oid) == DeletionPids(old(s.db), oid)
    ensures left >= 0 ==> left == fuel - |users| && forall u :: u in users ==> UserTidy(s.db, u)
    ensures |users| <= fuel ==> left >= 0
  {
    left := fuel;
    var todo := users;
    ReadsStay(old(s.db), s.db, oid);
    while todo != {}
      invariant Underway(s, oid) && Outcome(s.db, oid) == Outcome(old(s.db), oid)
      invariant s.db == old(s.db).(users := s.db.users) && todo <= users
      invariant OfferingUsers(s.db, oid) == users && DeletionPids(s.db, oid) == DeletionPids(old(s.db), oid)
      invariant 0 <= left == fuel - (|users| - |todo|)
      invariant forall u :: u in users && u !in todo ==> UserTidy(s.db, u)
      decreases |todo|
    {
      if left == 0 { return -1; }
      left := left - 1;
      var user :| user in todo;
      SameSids(old(s.db), s.db, oid);
      RecountSame(s.db, oid, user);
      forall u | u in users && u !in todo - {user} ensures UserTidy(Recounted(s.db, user), u) {
        RecountedTidy(s.db, user, u);
      }
      SameSids(s.db, Recounted(s.db, user), oid);
      s.db := Recounted(s.db, user);
      ReadsStay(old(s.db), s.db, oid);
      todo := todo - {user};
    }
  }

  /** Erases or tallies one problem: the tests go before the row. */
  method CleanProblem(s: Store, oid: nat, p: nat, course: nat, fuel: int) returns (left: int)
    requires Underway(s, oid) && p in DeletionPids(s.db, oid) && course == s.db.offerings[oid].course && 0 <= fuel
    modifies s
    ensures Underway(s, oid) && Outcome(s.db, oid) == Outcome(old(s.db), oid) && OnlyProblem(old(s.db), s.db, oid, p)
    ensures left >= 0 ==> ProblemTidy(s.db, oid, p) && fuel - 2 <= left
    ensures 2 <= fuel ==> left >= 0
  {
    if IsAuthored(s.db, p) && !Shared(s.db, p, oid, course) {
      left := EraseProblem(s, oid, p, fuel);
    } else {
      if fuel == 0 {
        OnlyItself(s.db, oid, p);
        return -1;
      }
      RowTallied(s.db, oid, p);
      hide Outcome, DeletionPids, Shared, ProblemTidy, Tallied, Resumable, OnlyProblem;
      s.db := Tallied(s.db, p);
      left := fuel - 1;
    }
  }

  method EraseProblem(s: Store, oid: nat, p: nat, fuel: int) returns (left: int)
    requires Underway(s, oid) && p in DeletionPids(s.db, oid) && IsAuthored(s.db, p) && 0 <= fuel
    requires !Shared(s.db, p, oid, s.db.offerings[oid].course)
    modifies s
    ensures Underway(s, oid) && Outcome(s.db, oid) == Outcome(old(s.db), oid) && OnlyProblem(old(s.db), s.db, oid, p)
    ensures left >= 0 ==> ProblemTidy(s.db, oid, p) && fuel - 2 <= left
    ensures 2 <= fuel ==> left >= 0
  {
    hide Outcome, DeletionPids, Shared, ProblemTidy, OnlyProblem;
    OnlyItself(s.db, oid, p);
    if fuel == 0 { return -1; }
    TestsErased(s.db, oid, p);
    s.db := s.db.(tests := s.db.tests - {p});
    if fuel == 1 { return -1; }
    RowErased(old(s.db), s.db, oid, p);
    s.db := s.db.(problems := s.db.problems - {p});
    return fuel - 2;
  }

  /** Erases or tallies problems one by one, with the fuel as above. */
  method CleanProblems(s: Store, oid: nat, users: set<string>, pids: set<nat>, course: nat, fuel: int) returns (left: int)
    requires Underway(s, oid) && users == OfferingUsers(s.db, oid) && DeletionPids(s.db, oid) == pids && 0 <= fuel
    requires course == s.db.offerings[oid].course && forall u :: u in users ==> UserTidy(s.db, u)
    modifies s
    ensures Underway(s, oid) && Outcome(s.db, oid) == Outcome(old(s.db), oid)
    ensures s.db == old(s.db).(problems := s.db.problems, tests := s.db.tests) && DeletionPids(s.db, oid) <= pids
    ensures left >= 0 ==> Tidy(s.db, oid) && fuel - 2 * |pids| <= left
    ensures 2 * |pids| <= fuel ==> left >= 0
  {
    hide Outcome, DeletionPids, ProblemTidy, UserTidy, OfferingUsers, OfferingSids, PurgeDone, Idle, Tidy;
    left := fuel;
    var todo := pids;
    while todo != {}
      invariant Underway(s, oid) && Outcome(s.db, oid) == Outcome(old(s.db), oid)
      invariant s.db == old(s.db).(problems := s.db.problems, tests := s.db.tests) && todo <= pids
      invariant left >= 0 && fuel - 2 * (|pids| - |todo|) <= left
      invariant todo <= DeletionPids(s.db, oid) <= pids
      invariant forall q :: q in pids && q !in todo ==> ProblemTidy(s.db, oid, q)
      decreases |todo|
    {
      var p :| p in todo;
      ghost var before := s.db;
      left := CleanProblem(s, oid, p, course, left);
      if left < 0 { return; }
      forall q | q in pids && q !in todo ensures ProblemTidy(s.db, oid, q) {
        ProblemStaysTidy(before, s.db, oid, q);
      }
      todo := todo - {p};
    }
    AllTidy(old(s.db), s.db, oid);
  }

  lemma AllTidy(a: Db, d: Db, oid: nat)
    requires oid in d.offerings && d == a.(problems := d.problems, tests := d.tests) && PurgeDone(d, oid)
    requires forall u :: u in OfferingUsers(a, oid) ==> UserTidy(a, u)
    requires forall p :: p in DeletionPids(d, oid) ==> ProblemTidy(d, oid, p)
    ensures Tidy(d, oid)
  {
    SameSids(a, d, oid);
    SameUserCounts(a, d);
    hide DeletionPids, ProblemTidy, OfferingUsers, UserSubmits, UserSolved, PurgeDone;
  }

  // ---------------------------------------------------------------- what survives

  /** A problem that is not authored, or that others still use, keeps its row up to the counters, and its tests. */
  lemma SharedProblemsSurvive(db: Db, oid: nat, p: nat)
    requires oid in db.offerings && p in db.problems
    requires !IsAuthored(db, p) || Shared(Purged(db, OfferingSids(db, oid)), p, oid, db.offerings[oid].course)
    ensures var out := Outcome(db, oid);
      && p in out.problems && SameButCounts(out.problems[p], db.problems[p])
      && (p in out.tests <==> p in db.tests) && (p in db.tests ==> out.tests[p] == db.tests[p])
  {
    hide CourseUsed, WithoutOffering, WithoutCourse, Shared, ProblemSubmits, ProblemAccepts;
  }

  /** Every solution that was not submitted to the offering, and every submission of others, stays as it is. */
  lemma OthersSurvive(db: Db, oid: nat)
    requires oid in db.offerings
    ensures var out := Outcome(db, oid);
      && out.solutions == db.solutions - OfferingSids(db, oid) && out.offerings == db.offerings - {oid}
      && (forall s :: s in out.submissions <==> s in db.submissions && db.submissions[s].oid != oid)
      && (forall s :: s in out.submissions ==> out.submissions[s] == db.submissions[s])
  {
    hide CourseUsed, WithoutCourse, CleanedUsers, CleanedProblems, Orphans, DeletionPids, WithoutOffering;
    var x := Cleaned(Purged(db, OfferingSids(db, oid)), PlanOf(db, oid));
    RowsWithout(x, oid);
  }

  lemma RowsWithout(x: Db, oid: nat)
    ensures var y := WithoutOffering(x, oid);
      && y.offerings == x.offerings - {oid}
      && (forall s :: s in y.submissions <==> s in x.submissions && x.submissions[s].oid != oid)
      && (forall s :: s in y.submissions ==> y.submissions[s] == x.submissions[s])
  {
  }

  /** The counters of the users and problems concerned are exact afterwards. */
  lemma CountersExact(db: Db, oid: nat)
    requires oid in db.offerings
    ensures var out := Outcome(db, oid);
      && (forall u :: u in OfferingUsers(db, oid) ==> UserTidy(out, u))
      && (forall p :: p in DeletionPids(db, oid) && p in out.problems ==> out.problems[p] == TalliedProblem(out, p))
  {
    var plan := PlanOf(db, oid);
    var x := Purged(db, plan.sids);
    SameUserCounts(x, Outcome(db, oid));
    SameProblemCounts(x, Outcome(db, oid));
    hide CourseUsed, WithoutCourse, WithoutOffering, Orphans, DeletionPids, UserSubmits, UserSolved, ProblemSubmits,
      ProblemAccepts;
  }

  /** Nothing that stays links to an erased problem or refers to it as a solution. */
  lemma NothingLinksToErased(db: Db, oid: nat, p: nat)
    requires oid in db.offerings && p in PlanOf(db, oid).orphans
    requires forall l :: l in db.links ==> db.links[l].bid in db.batches
    ensures var out := Outcome(db, oid); p !in out.problems && p !in out.tests && !LinkedAnywhere(out, p) && !Solved(out, p)
  {
    var plan := PlanOf(db, oid);
    var x := Purged(db, plan.sids);
    assert !Shared(x, p, oid, plan.course);
    hide CourseUsed, WithoutCourse, CleanedUsers, UserSubmits, UserSolved, ProblemSubmits, ProblemAccepts;
  }

  predicate TaughtElsewhere(db: Db, oid: nat, course: nat) {
    exists o :: o in db.offerings && o != oid && db.offerings[o].course == course
  }

  /**
   Knowledge tags are only partly covered: a tag is left pointing at an erased problem exactly when it
   belongs to the deleted offering's course and that course lives on in another offering.
   */
  lemma DanglingTags(db: Db, oid: nat, k: nat)
    requires oid in db.offerings
    ensures var out, plan := Outcome(db, oid), PlanOf(db, oid);
      (k in out.tags && out.tags[k].pid in plan.orphans) <==>
        && k in db.tags && db.tags[k].pid in plan.orphans && db.tags[k].course == plan.course
        && TaughtElsewhere(db, oid, plan.course)
  {
    var plan := PlanOf(db, oid);
    var x := Purged(db, plan.sids);
    var y := WithoutOffering(Cleaned(x, plan), oid);
    if CourseUsed(y, plan.course) {
      var o :| o in y.offerings && y.offerings[o].course == plan.course;
      assert o in db.offerings && o != oid && db.offerings[o].course == plan.course;
    }
    if TaughtElsewhere(db, oid, plan.course) {
      var o :| o in db.offerings && o != oid && db.offerings[o].course == plan.course;
      assert o in y.offerings && y.offerings[o].course == plan.course;
    }
    assert k in db.tags && db.tags[k].pid in plan.orphans ==> !Shared(x, db.tags[k].pid, oid, plan.course);
    hide CleanedUsers, CleanedProblems, DeletionPids;
  }

  /** Two offerings of one course, the first with one assignment of one problem, tagged for the course. */
  const TAUGHT_TWICE: Db := Db(
    {0}, map[0 := Offering(0, Active), 1 := Offering(0, Active)], {}, map[1 := Batch(0, 1, Published, None, None)],
    map[1 := Link(1, 1, 1, 10000)], map[], map[], map[1 := Tag(1, 0)],
    map[1 := Problem(Authored(1, "sum"), "add", [], true, 0, 0)], map[], map[], {}, {}, map[], 2, 2, 2, 1, 2, map[])

  /** Deleting the first leaves a tag on a problem that is gone. */
  lemma TagLeftBehind()
    ensures var out := Outcome(TAUGHT_TWICE, 0); 1 in TAUGHT_TWICE.problems && 1 in out.tags && out.tags[1].pid !in out.problems
  {
    OrphanThere();
    assert TAUGHT_TWICE.offerings[1].course == 0;
    hide Outcome, PlanOf;
    DanglingTags(TAUGHT_TWICE, 0, 1);
    NothingLinksToErased(TAUGHT_TWICE, 0, 1);
  }

  lemma OrphanThere()
    ensures 1 in PlanOf(TAUGHT_TWICE, 0).orphans && PlanOf(TAUGHT_TWICE, 0).course == 0
  {
    assert 1 in OfferingPids(TAUGHT_TWICE, 0) by {
      assert TAUGHT_TWICE.links[1].pid == 1;
    }
    assert !Shared(Purged(TAUGHT_TWICE, OfferingSids(TAUGHT_TWICE, 0)), 1, 0, 0);
    hide OfferingUsers, StagedPids;
  }
}
