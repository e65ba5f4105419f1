/**
 One grade, computed in four places: the export of an offering, a page of its roster, the progress of one student, and
 the student's own page. Problems that are not required are those whose link row is in `waived`.
 */
module Grading {
  import opened Values
  import opened Tables
  import opened Rounding

  // ---------------------------------------------------------------- weights

  function Weight(db: Db, waived: set<nat>, l: nat): nat
    requires l in db.links
  {
    if l in waived then 0 else db.links[l].score
  }

  /** SUM over a set of link rows. */
  ghost function Weights(db: Db, waived: set<nat>, ls: set<nat>): nat
    requires ls <= db.links.Keys
  {
    if ls == {} then 0
    else
      var l :| l in ls;
      Weights(db, waived, ls - {l}) + Weight(db, waived, l)
  }

  /** The sum does not depend on the order. */
  lemma {:induction false} WeightsLess(db: Db, waived: set<nat>, ls: set<nat>, l: nat)
    requires l in ls && ls <= db.links.Keys
    ensures Weights(db, waived, ls) == Weights(db, waived, ls - {l}) + Weight(db, waived, l)
    decreases |ls|
  {
    var m :| m in ls && Weights(db, waived, ls) == Weights(db, waived, ls - {m}) + Weight(db, waived, m);
    if m != l {
      WeightsLess(db, waived, ls - {m}, l);
      WeightsLess(db, waived, ls - {l}, m);
      assert ls - {m} - {l} == ls - {l} - {m};
    }
  }

  lemma {:induction false} WeightsWithin(db: Db, waived: set<nat>, some: set<nat>, all: set<nat>)
    requires some <= all <= db.links.Keys
    ensures Weights(db, waived, all) == Weights(db, waived, some) + Weights(db, waived, all - some)
    decreases |some|
  {
    if some == {} {
      assert all - some == all;
    } else {
      var l :| l in some;
      WeightsLess(db, waived, all, l);
      WeightsLess(db, waived, some, l);
      WeightsWithin(db, waived, some - {l}, all - {l});
      assert all - {l} - (some - {l}) == all - some;
    }
  }

  /** A sum of weights is zero exactly when every weight is. */
  lemma {:induction false} WeightsZero(db: Db, waived: set<nat>, ls: set<nat>)
    requires ls <= db.links.Keys
    ensures Weights(db, waived, ls) == 0 <==> forall l | l in ls :: Weight(db, waived, l) == 0
    decreases |ls|
  {
    forall l | l in ls ensures Weights(db, waived, ls) == Weights(db, waived, ls - {l}) + Weight(db, waived, l) {
      WeightsLess(db, waived, ls, l);
    }
    if ls != {} {
      var l :| l in ls;
      WeightsZero(db, waived, ls - {l});
    }
  }

  // ---------------------------------------------------------------- the four grades

  function LinksOf(db: Db, bid: nat): set<nat> { set l | l in db.links && db.links[l].bid == bid }

  /** The submissions of a student to a batch whose solution is for the problem. */
  predicate Tried(db: Db, bid: nat, user: string, pid: nat, x: nat) {
    && x in db.submissions && db.submissions[x].bid == bid && db.submissions[x].user == user
    && x in db.solutions && db.solutions[x].pid == pid
  }

  /** Those the export counts. */
  function Promoted(db: Db, oid: nat, bid: nat, user: string, pid: nat): set<nat> {
    set x | x in db.submissions && Tried(db, bid, user, pid, x) && db.submissions[x].promoted && db.submissions[x].oid == oid
  }

  /** Those the roster and the progress page count: the solution must be the student's own as well. */
  function Own(db: Db, oid: nat, bid: nat, user: string, pid: nat): set<nat> {
    set x | x in Promoted(db, oid, bid, user, pid) && db.solutions[x].user == user
  }

  /** MAX(result=4). */
  predicate AnyAccepted(db: Db, xs: set<nat>) { exists x :: x in xs && x in db.solutions && db.solutions[x].result == ACCEPTED }

  /** The links of the batch, and those of them that count as passed. */
  ghost function TotalsOf(db: Db, waived: set<nat>, ls: set<nat>, passed: set<nat>): Totals
    requires passed <= ls <= db.links.Keys
  {
    Totals(Weights(db, waived, ls), Weights(db, waived, passed))
  }

  function ExportPassed(db: Db, oid: nat, bid: nat, user: string): set<nat> {
    set l | l in LinksOf(db, bid) && AnyAccepted(db, Promoted(db, oid, bid, user, db.links[l].pid))
  }

  /** One row of `grade_rows`. */
  ghost function ExportTotals(db: Db, waived: set<nat>, oid: nat, bid: nat, user: string): Totals {
    TotalsOf(db, waived, LinksOf(db, bid), ExportPassed(db, oid, bid, user))
  }

  function RosterPassed(db: Db, oid: nat, bid: nat, user: string): set<nat> {
    set l | l in LinksOf(db, bid) && AnyAccepted(db, Own(db, oid, bid, user, db.links[l].pid))
  }

  ghost function RosterTotals(db: Db, waived: set<nat>, oid: nat, bid: nat, user: string): Totals {
    TotalsOf(db, waived, LinksOf(db, bid), RosterPassed(db, oid, bid, user))
  }

  /** The progress page joins the problem rows. */
  function PresentLinks(db: Db, bid: nat): set<nat> { set l | l in LinksOf(db, bid) && db.links[l].pid in db.problems }

  ghost predicate BestAccepted(db: Db, oid: nat, bid: nat, user: string, pid: nat) {
    var xs := Own(db, oid, bid, user, pid);
    xs != {} && db.solutions[Best(db, xs)].result == ACCEPTED
  }

  ghost function ProgressPassed(db: Db, oid: nat, bid: nat, user: string): set<nat> {
    set l | l in PresentLinks(db, bid) && BestAccepted(db, oid, bid, user, db.links[l].pid)
  }

  ghost function ProgressTotals(db: Db, waived: set<nat>, oid: nat, bid: nat, user: string): Totals {
    TotalsOf(db, waived, PresentLinks(db, bid), ProgressPassed(db, oid, bid, user))
  }

  /** The student's page: visible problems, and every submission to the batch, promoted or not. */
  function VisibleLinks(db: Db, bid: nat): set<nat> { set l | l in PresentLinks(db, bid) && db.problems[db.links[l].pid].visible }

  predicate PageAccepted(db: Db, bid: nat, user: string, pid: nat) {
    exists x :: x in db.submissions && Tried(db, bid, user, pid, x) && db.solutions[x].result == ACCEPTED
  }

  function PagePassed(db: Db, bid: nat, user: string): set<nat> {
    set l | l in VisibleLinks(db, bid) && PageAccepted(db, bid, user, db.links[l].pid)
  }

  ghost function PageTotals(db: Db, waived: set<nat>, bid: nat, user: string): Totals {
    TotalsOf(db, waived, VisibleLinks(db, bid), PagePassed(db, bid, user))
  }

  // ---------------------------------------------------------------- the best submission

  /** Accepted first, then finished, then still judged. */
  function Class(result: nat): nat { if result == ACCEPTED then 0 else if Running(result) then 2 else 1 }

  /** The window's order: by class, and the newest first. */
  predicate Before(db: Db, x: nat, y: nat)
    requires x in db.solutions && y in db.solutions
  {
    var a, b := Class(db.solutions[x].result), Class(db.solutions[y].result);
    a < b || (a == b && x > y)
  }

  predicate First(db: Db, xs: set<nat>, x: nat)
    requires xs <= db.solutions.Keys
  {
    x in xs && forall y | y in xs && y != x :: Before(db, x, y)
  }

  lemma {:induction false} FirstExists(db: Db, xs: set<nat>)
    requires xs <= db.solutions.Keys && xs != {}
    ensures exists x :: First(db, xs, x)
    decreases |xs|
  {
    var y :| y in xs;
    var rest := xs - {y};
    assert forall z | z in xs :: z == y || z in rest;
    if rest == {} {
      assert First(db, xs, y);
    } else {
      FirstExists(db, rest);
      var x :| First(db, rest, x);
      assert First(db, xs, if Before(db, x, y) then x else y);
    }
  }

  /** ROW_NUMBER() = 1. */
  ghost function Best(db: Db, xs: set<nat>): (x: nat)
    requires xs <= db.solutions.Keys && xs != {}
    ensures First(db, xs, x)
  {
    FirstExists(db, xs);
    var x :| First(db, xs, x); x
  }

  /** The best submission is accepted exactly when some submission is, and is still judged exactly when all are. */
  lemma BestDecides(db: Db, xs: set<nat>)
    requires xs <= db.solutions.Keys && xs != {}
    ensures db.solutions[Best(db, xs)].result == ACCEPTED <==> AnyAccepted(db, xs)
    ensures Running(db.solutions[Best(db, xs)].result) <==> forall x | x in xs :: Running(db.solutions[x].result)
  {
    var best := Best(db, xs);
    forall x | x in xs ensures Class(db.solutions[best].result) <= Class(db.solutions[x].result) {
      assert x == best || Before(db, best, x);
    }
  }

  // ---------------------------------------------------------------- agreement

  /** Every submission to the batch was made to its offering, with a solution of the same user. */
  predicate Kept(db: Db, oid: nat, bid: nat) {
    forall x :: x in db.submissions && db.submissions[x].bid == bid && x in db.solutions ==>
      db.submissions[x].oid == oid && db.solutions[x].user == db.submissions[x].user
  }

  /** The export and the roster count the same submissions. */
  lemma RosterAgrees(db: Db, waived: set<nat>, oid: nat, bid: nat, user: string)
    requires Kept(db, oid, bid)
    ensures RosterTotals(db, waived, oid, bid, user) == ExportTotals(db, waived, oid, bid, user)
  {
    forall pid ensures Own(db, oid, bid, user, pid) == Promoted(db, oid, bid, user, pid) {
    }
    assert RosterPassed(db, oid, bid, user) == ExportPassed(db, oid, bid, user);
  }

  /** A linked problem without a row. */
  predicate Missing(db: Db, l: nat)
    requires l in db.links
  {
    db.links[l].pid !in db.problems
  }

  lemma ProgressPasses(db: Db, oid: nat, bid: nat, user: string)
    requires Kept(db, oid, bid)
    ensures ProgressPassed(db, oid, bid, user) == ExportPassed(db, oid, bid, user) * PresentLinks(db, bid)
  {
    forall pid ensures BestAccepted(db, oid, bid, user, pid) == AnyAccepted(db, Promoted(db, oid, bid, user, pid)) {
      var xs := Own(db, oid, bid, user, pid);
      assert xs == Promoted(db, oid, bid, user, pid);
      if xs != {} {
        BestDecides(db, xs);
      }
    }
  }

  /** The progress page weighs the same exactly when no problem that weighs anything has lost its row. */
  lemma ProgressAgrees(db: Db, waived: set<nat>, oid: nat, bid: nat, user: string)
    requires Kept(db, oid, bid)
    ensures ProgressTotals(db, waived, oid, bid, user) == ExportTotals(db, waived, oid, bid, user)
       <==> forall l | l in LinksOf(db, bid) && Missing(db, l) :: Weight(db, waived, l) == 0
  {
    var all, present := LinksOf(db, bid), PresentLinks(db, bid);
    var passed := ExportPassed(db, oid, bid, user);
    ProgressPasses(db, oid, bid, user);
    WeightsWithin(db, waived, present, all);
    WeightsZero(db, waived, all - present);
    WeightsWithin(db, waived, passed * present, passed);
    WeightsZero(db, waived, passed - passed * present);
  }

  /** When a linked problem that weighs something loses its row, the two come apart. */
  lemma MissingRowDiffers(db: Db, waived: set<nat>, oid: nat, bid: nat, user: string, l: nat)
    requires Kept(db, oid, bid) && l in LinksOf(db, bid) && Weight(db, waived, l) > 0
    ensures var d := db.(problems := db.problems - {db.links[l].pid});
      ProgressTotals(d, waived, oid, bid, user) != ExportTotals(d, waived, oid, bid, user)
  {
    var d := db.(problems := db.problems - {db.links[l].pid});
    assert l in LinksOf(d, bid) && Missing(d, l) && Weight(d, waived, l) > 0;
    hide ProgressTotals, ExportTotals;
    ProgressAgrees(d, waived, oid, bid, user);
  }

  /** Visible, and not passed by nothing but submissions that were released without being promoted. */
  predicate SeenAlike(db: Db, oid: nat, bid: nat, user: string, l: nat)
    requires l in db.links
  {
    && l in VisibleLinks(db, bid)
    && (PageAccepted(db, bid, user, db.links[l].pid) ==> AnyAccepted(db, Promoted(db, oid, bid, user, db.links[l].pid)))
  }

  /** The student's page weighs the same exactly when that holds of every problem that weighs anything. */
  lemma PageAgrees(db: Db, waived: set<nat>, oid: nat, bid: nat, user: string)
    requires Kept(db, oid, bid)
    ensures PageTotals(db, waived, bid, user) == ExportTotals(db, waived, oid, bid, user)
       <==> forall l | l in LinksOf(db, bid) && Weight(db, waived, l) > 0 :: SeenAlike(db, oid, bid, user, l)
  {
    PageWeighs(db, waived, oid, bid, user);
    PagePasses(db, waived, oid, bid, user);
    PageSees(db, oid, bid, user);
    var all, visible, page, passed := LinksOf(db, bid), VisibleLinks(db, bid), PagePassed(db, bid, user), ExportPassed(db, oid, bid, user);
    hide SeenAlike, VisibleLinks, LinksOf, PagePassed, ExportPassed, Kept, Weight;
    if PageTotals(db, waived, bid, user) == ExportTotals(db, waived, oid, bid, user) {
      forall l | l in all && Weight(db, waived, l) > 0 ensures SeenAlike(db, oid, bid, user, l) {
        assert l !in all - visible && l !in page - passed;
      }
    }
  }

  lemma PageSees(db: Db, oid: nat, bid: nat, user: string)
    ensures VisibleLinks(db, bid) <= LinksOf(db, bid) && PagePassed(db, bid, user) <= LinksOf(db, bid) <= db.links.Keys
    ensures forall l | l in LinksOf(db, bid) ::
      SeenAlike(db, oid, bid, user, l) <==> l in VisibleLinks(db, bid) && l !in PagePassed(db, bid, user) - ExportPassed(db, oid, bid, user)
  {
    hide PageAccepted, AnyAccepted, Promoted;
  }

  lemma PageWeighs(db: Db, waived: set<nat>, oid: nat, bid: nat, user: string)
    ensures PageTotals(db, waived, bid, user).total == ExportTotals(db, waived, oid, bid, user).total
       <==> forall l | l in LinksOf(db, bid) - VisibleLinks(db, bid) :: Weight(db, waived, l) == 0
  {
    var all, visible := LinksOf(db, bid), VisibleLinks(db, bid);
    WeightsWithin(db, waived, visible, all);
    WeightsZero(db, waived, all - visible);
    hide PageAccepted, AnyAccepted, Promoted;
  }

  lemma PagePasses(db: Db, waived: set<nat>, oid: nat, bid: nat, user: string)
    requires Kept(db, oid, bid)
    ensures var page, passed := PagePassed(db, bid, user), ExportPassed(db, oid, bid, user);
      (forall l | l in LinksOf(db, bid) - VisibleLinks(db, bid) :: Weight(db, waived, l) == 0) ==>
        (PageTotals(db, waived, bid, user).passed == ExportTotals(db, waived, oid, bid, user).passed
         <==> forall l | l in page - passed :: Weight(db, waived, l) == 0)
  {
    var all, visible := LinksOf(db, bid), VisibleLinks(db, bid);
    var passed, page := ExportPassed(db, oid, bid, user), PagePassed(db, bid, user);
    forall l | l in passed && l in visible ensures l in page {
      AcceptedOnPage(db, oid, bid, user, db.links[l].pid);
    }
    hide PageAccepted, AnyAccepted, Promoted, Kept, Weight;
    var both := passed * visible;
    assert both <= page && page - both == page - passed;
    WeightsWithin(db, waived, both, passed);
    WeightsZero(db, waived, passed - both);
    WeightsWithin(db, waived, both, page);
    WeightsZero(db, waived, page - both);
  }

  lemma AcceptedOnPage(db: Db, oid: nat, bid: nat, user: string, pid: nat)
    requires AnyAccepted(db, Promoted(db, oid, bid, user, pid))
    ensures PageAccepted(db, bid, user, pid)
  {
    var x :| x in Promoted(db, oid, bid, user, pid) && x in db.solutions && db.solutions[x].result == ACCEPTED;
    assert Tried(db, bid, user, pid, x);
  }

  /** All four agree once every problem that weighs anything is seen alike. */
  lemma FourWays(db: Db, waived: set<nat>, oid: nat, bid: nat, user: string)
    requires Kept(db, oid, bid)
    requires forall l | l in LinksOf(db, bid) && Weight(db, waived, l) > 0 :: SeenAlike(db, oid, bid, user, l)
    ensures Score(ExportTotals(db, waived, oid, bid, user)) == Score(RosterTotals(db, waived, oid, bid, user))
         == Score(ProgressTotals(db, waived, oid, bid, user)) == Score(PageTotals(db, waived, bid, user))
  {
    RosterAgrees(db, waived, oid, bid, user);
    ProgressAgrees(db, waived, oid, bid, user);
    PageAgrees(db, waived, oid, bid, user);
    forall l | l in LinksOf(db, bid) && Missing(db, l) ensures Weight(db, waived, l) == 0 {
      assert !SeenAlike(db, oid, bid, user, l);
    }
    hide ExportTotals, RosterTotals, ProgressTotals, PageTotals, SeenAlike, Score;
  }

  // ---------------------------------------------------------------- what a grade depends on

  /** Whatever the tables say, no more is passed than there is, and the grade lies between 0 and 100. */
  lemma GradeInRange(db: Db, waived: set<nat>, oid: nat, bid: nat, user: string)
    ensures var t := ExportTotals(db, waived, oid, bid, user); t.passed <= t.total && Score(t) <= 10000
  {
    WeightsWithin(db, waived, ExportPassed(db, oid, bid, user), LinksOf(db, bid));
    ScoreBounds(ExportTotals(db, waived, oid, bid, user));
  }

  /** One more submission. */
  function Submitted(db: Db, x: nat, sub: Submission, sol: Solution): Db {
    db.(submissions := db.submissions[x := sub], solutions := db.solutions[x := sol])
  }

  /**
   Whatever is submitted, no grade falls; it stays unless the submission is promoted, accepted and the first
   such one for its problem.
   */
  lemma AnotherSubmission(db: Db, waived: set<nat>, bid: nat, user: string, x: nat, sub: Submission, sol: Solution)
    requires x !in db.submissions && x !in db.solutions
    ensures var d := Submitted(db, x, sub, sol);
      Score(ExportTotals(db, waived, sub.oid, bid, user)) <= Score(ExportTotals(d, waived, sub.oid, bid, user))
    ensures var d := Submitted(db, x, sub, sol);
      ((sub.promoted && sol.result == ACCEPTED && sub.bid == bid && sub.user == user) ==>
        AnyAccepted(db, Promoted(db, sub.oid, bid, user, sol.pid))) ==>
      ExportTotals(d, waived, sub.oid, bid, user) == ExportTotals(db, waived, sub.oid, bid, user)
  {
    var d := Submitted(db, x, sub, sol);
    var oid := sub.oid;
    forall pid ensures AnyAccepted(d, Promoted(d, oid, bid, user, pid)) <==>
      || AnyAccepted(db, Promoted(db, oid, bid, user, pid))
      || (sub.promoted && sol.result == ACCEPTED && sub.bid == bid && sub.user == user && sol.pid == pid)
    {
      Accepting(db, x, sub, sol, bid, user, pid);
    }
    hide Promoted, AnyAccepted;
    var was, now := ExportPassed(db, oid, bid, user), ExportPassed(d, oid, bid, user);
    assert was <= now;
    SameWeights(db, d, waived, LinksOf(db, bid));
    SameWeights(db, d, waived, was);
    WeightsWithin(d, waived, was, now);
    ScoreMonotone(Weights(d, waived, LinksOf(d, bid)), Weights(d, waived, was), Weights(d, waived, now));
  }

  lemma Accepting(db: Db, x: nat, sub: Submission, sol: Solution, bid: nat, user: string, pid: nat)
    requires x !in db.submissions && x !in db.solutions
    ensures var d := Submitted(db, x, sub, sol);
      AnyAccepted(d, Promoted(d, sub.oid, bid, user, pid)) <==>
      || AnyAccepted(db, Promoted(db, sub.oid, bid, user, pid))
      || (sub.promoted && sol.result == ACCEPTED && sub.bid == bid && sub.user == user && sol.pid == pid)
  {
    var d := Submitted(db, x, sub, sol);
    var ps, qs := Promoted(db, sub.oid, bid, user, pid), Promoted(d, sub.oid, bid, user, pid);
    assert forall y :: y != x ==> (y in qs <==> y in ps);
    if AnyAccepted(db, ps) {
      var y :| y in ps && db.solutions[y].result == ACCEPTED;
      assert y in qs && d.solutions[y].result == ACCEPTED;
    }
    if sub.promoted && sol.result == ACCEPTED && sub.bid == bid && sub.user == user && sol.pid == pid {
      assert x in qs && d.solutions[x].result == ACCEPTED;
    }
  }

  lemma {:induction false} SameWeights(a: Db, d: Db, waived: set<nat>, ls: set<nat>)
    requires d.links == a.links && ls <= a.links.Keys
    ensures Weights(d, waived, ls) == Weights(a, waived, ls)
    decreases |ls|
  {
    if ls != {} {
      var l :| l in ls;
      WeightsLess(a, waived, ls, l);
      WeightsLess(d, waived, ls, l);
      SameWeights(a, d, waived, ls - {l});
    }
  }

  /** The problems that count: required, and of some weight. */
  function Scored(db: Db, waived: set<nat>, ls: set<nat>): set<nat>
    requires ls <= db.links.Keys
  {
    set l | l in ls && Weight(db, waived, l) > 0
  }

  /** "All passed" stands in the export exactly when the passed weight is the whole weight, and there is any. */
  lemma AllPassedLabel(db: Db, waived: set<nat>, oid: nat, bid: nat, user: string)
    ensures var t := ExportTotals(db, waived, oid, bid, user);
      var required, passed := |Scored(db, waived, LinksOf(db, bid))|, |Scored(db, waived, ExportPassed(db, oid, bid, user))|;
      (required > 0 && passed == required) <==> (t.total > 0 && t.passed == t.total)
  {
    hide AnyAccepted, Promoted;
    var all, passed := LinksOf(db, bid), ExportPassed(db, oid, bid, user);
    WeightsWithin(db, waived, passed, all);
    AllScored(db, waived, passed, all);
  }

  lemma AllScored(db: Db, waived: set<nat>, some: set<nat>, all: set<nat>)
    requires some <= all <= db.links.Keys
    ensures |Scored(db, waived, some)| == |Scored(db, waived, all)| <==> Weights(db, waived, some) == Weights(db, waived, all)
    ensures |Scored(db, waived, all)| > 0 <==> Weights(db, waived, all) > 0
  {
    WeightsWithin(db, waived, some, all);
    NoneScored(db, waived, all - some);
    NoneScored(db, waived, all);
    var s, t, rest := Scored(db, waived, some), Scored(db, waived, all), Scored(db, waived, all - some);
    assert t == s + rest && s !! rest && |t| == |s| + |rest|;
  }

  lemma NoneScored(db: Db, waived: set<nat>, ls: set<nat>)
    requires ls <= db.links.Keys
    ensures |Scored(db, waived, ls)| == 0 <==> Weights(db, waived, ls) == 0
  {
    WeightsZero(db, waived, ls);
    var s := Scored(db, waived, ls);
    if s == {} {
      forall l | l in ls ensures Weight(db, waived, l) == 0 {
        assert l !in s;
      }
    } else {
      var l :| l in s;
      assert l in ls && Weight(db, waived, l) > 0;
    }
  }

  // ---------------------------------------------------------------- the progress page

  /** One row of the query: a linked problem, and the result of the student's best submission for it. */
  datatype Row = Row(bid: nat, pid: nat, weight: nat, required: bool, result: Option<nat>)

  datatype Entry = Entry(pid: nat, weight: nat, score: Option<nat>, contribution: nat, result: Option<nat>)
  datatype Card = Card(score: nat, total: nat, entries: seq<Entry>)

  /** Nothing while there is no verdict; 100 points or none afterwards. */
  function BestScore(result: Option<nat>): Option<nat> {
    if result == Some(ACCEPTED) then Some(10000) else if result.None? || Running(result.value) then None else Some(0)
  }

  function RowWeight(r: Row): nat { if r.required then r.weight else 0 }

  function RowsFor(rows: seq<Row>, bid: nat): seq<Row> {
    if rows == [] then []
    else
      var k := |rows| - 1;
      RowsFor(rows[..k], bid) + if rows[k].bid == bid then [rows[k]] else []
  }

  function TotalWeight(rows: seq<Row>): nat { if rows == [] then 0 else TotalWeight(rows[..|rows| - 1]) + RowWeight(rows[|rows| - 1]) }

  function PassedWeight(rows: seq<Row>): nat {
    if rows == [] then 0
    else
      var k := |rows| - 1;
      PassedWeight(rows[..k]) + if rows[k].result == Some(ACCEPTED) then RowWeight(rows[k]) else 0
  }

  function EntryOf(r: Row, total: nat): Entry {
    Entry(r.pid, RowWeight(r), BestScore(r.result), if r.result == Some(ACCEPTED) then Score(Totals(total, RowWeight(r))) else 0, r.result)
  }

  /** What one batch comes to. */
  predicate CardOf(card: Card, rows: seq<Row>) {
    && card.total == TotalWeight(rows) && card.score == Score(Totals(card.total, PassedWeight(rows)))
    && |card.entries| == |rows| && forall k | 0 <= k < |rows| :: card.entries[k] == EntryOf(rows[k], card.total)
  }

  /** A batch as far as the first loop brings it. */
  predicate Opened(card: Card, rows: seq<Row>) {
    && card.total == TotalWeight(rows) && card.score == 0
    && |card.entries| == |rows| && forall k | 0 <= k < |rows| :: card.entries[k] == EntryOf(rows[k], card.total).(contribution := 0)
  }

  /** Groups the rows by batch, then grades every batch. */
  method Progress(rows: seq<Row>) returns (cards: map<nat, Card>)
    ensures forall bid :: bid in cards <==> RowsFor(rows, bid) != []
    ensures forall bid :: bid in cards ==> CardOf(cards[bid], RowsFor(rows, bid))
  {
    hide CardOf, Opened, RowsFor;
    NoRows();
    cards := map[];
    var i := 0;
    while i < |rows|
      invariant i <= |rows|
      invariant forall bid :: bid in cards <==> RowsFor(rows[..i], bid) != []
      invariant forall bid :: bid in cards ==> Opened(cards[bid], RowsFor(rows[..i], bid))
    {
      var row := rows[i];
      forall bid ensures RowsFor(rows[..i + 1], bid) == if row.bid == bid then RowsFor(rows[..i], bid) + [row] else RowsFor(rows[..i], bid) {
        NextRow(rows, i, bid);
      }
      var card := if row.bid in cards then cards[row.bid] else Card(0, 0, []);
      OneMoreRow(card, RowsFor(rows[..i], row.bid), row);
      card := Card(0, card.total + RowWeight(row), card.entries + [Entry(row.pid, RowWeight(row), BestScore(row.result), 0, row.result)]);
      cards := cards[row.bid := card];
      i := i + 1;
    }
    assert rows[..i] == rows;
    var todo := cards.Keys;
    while todo != {}
      invariant todo <= cards.Keys && forall bid :: bid in cards <==> RowsFor(rows, bid) != []
      invariant forall bid :: bid in cards && bid in todo ==> Opened(cards[bid], RowsFor(rows, bid))
      invariant forall bid :: bid in cards && bid !in todo ==> CardOf(cards[bid], RowsFor(rows, bid))
      decreases |todo|
    {
      var bid :| bid in todo;
      var card := GradeCard(cards[bid], RowsFor(rows, bid));
      cards := cards[bid := card];
      todo := todo - {bid};
    }
  }

  lemma NoRows()
    ensures Opened(Card(0, 0, []), []) && forall bid :: RowsFor([], bid) == []
  {
  }

  lemma NextRow(rows: seq<Row>, i: nat, bid: nat)
    requires i < |rows|
    ensures RowsFor(rows[..i + 1], bid) == if rows[i].bid == bid then RowsFor(rows[..i], bid) + [rows[i]] else RowsFor(rows[..i], bid)
  {
    assert rows[..i + 1][..i] == rows[..i];
  }

  lemma OneMoreRow(card: Card, rest: seq<Row>, row: Row)
    requires Opened(card, rest)
    ensures Opened(Card(0, card.total + RowWeight(row), card.entries + [EntryOf(row, 0).(contribution := 0)]), rest + [row])
  {
    assert (rest + [row])[..|rest|] == rest;
  }

  method GradeCard(card: Card, ghost rows: seq<Row>) returns (graded: Card)
    requires Opened(card, rows)
    ensures CardOf(graded, rows)
  {
    var passed, entries, k := 0, [], 0;
    while k < |card.entries|
      invariant k <= |rows| && passed == PassedWeight(rows[..k])
    {
      assert rows[..k + 1][..k] == rows[..k];
      if card.entries[k].result == Some(ACCEPTED) {
        passed := passed + card.entries[k].weight;
      }
      k := k + 1;
    }
    assert rows[..k] == rows;
    k := 0;
    while k < |card.entries|
      invariant k <= |rows| && |entries| == k && forall j | 0 <= j < k :: entries[j] == EntryOf(rows[j], card.total)
    {
      var e := card.entries[k];
      entries := entries + [e.(contribution := if e.result == Some(ACCEPTED) then Score(Totals(card.total, e.weight)) else 0)];
      k := k + 1;
    }
    graded := Card(Score(Totals(card.total, passed)), card.total, entries);
  }

  function Contributions(entries: seq<Entry>): nat {
    if entries == [] then 0 else Contributions(entries[..|entries| - 1]) + entries[|entries| - 1].contribution
  }

  /** The weights of the passed problems. */
  function PassedWeights(rows: seq<Row>): (ws: seq<nat>) {
    if rows == [] then []
    else
      var k := |rows| - 1;
      PassedWeights(rows[..k]) + if rows[k].result == Some(ACCEPTED) then [RowWeight(rows[k])] else []
  }

  /** The contributions shown for the passed problems add up to the grade shown, give or take (k + 1) halves of a hundredth. */
  lemma CardAddsUp(card: Card, rows: seq<Row>)
    requires CardOf(card, rows) && card.total > 0
    ensures var k := |PassedWeights(rows)|; -(k + 1) <= 2 * (Contributions(card.entries) - card.score) <= k + 1
  {
    ContributionsAre(card.entries, rows, card.total);
    ContributionsAddUp(PassedWeights(rows), card.total);
  }

  lemma {:induction false} ContributionsAre(entries: seq<Entry>, rows: seq<Row>, total: nat)
    requires total > 0 && |entries| == |rows| && forall k | 0 <= k < |rows| :: entries[k] == EntryOf(rows[k], total)
    ensures Contributions(entries) == RoundedSum(PassedWeights(rows), total) && PassedWeight(rows) == Sum(PassedWeights(rows))
  {
    hide Rounded, BestScore;
    if rows != [] {
      var k := |rows| - 1;
      ContributionsAre(entries[..k], rows[..k], total);
      var ws := PassedWeights(rows[..k]);
      SumsGrow(ws, RowWeight(rows[k]), total);
      assert PassedWeights(rows) == if rows[k].result == Some(ACCEPTED) then ws + [RowWeight(rows[k])] else ws;
      assert entries[..k] + [entries[k]] == entries && entries[k] == EntryOf(rows[k], total);
    }
  }

  lemma SumsGrow(ws: seq<nat>, w: nat, total: nat)
    requires total > 0
    ensures Sum(ws + [w]) == Sum(ws) + w && RoundedSum(ws + [w], total) == RoundedSum(ws, total) + Rounded(w, total)
  {
    assert (ws + [w])[..|ws|] == ws;
  }

  // ---------------------------------------------------------------- the page and the tables

  ghost function BestResult(db: Db, oid: nat, bid: nat, user: string, pid: nat): Option<nat> {
    var xs := Own(db, oid, bid, user, pid);
    if xs == {} then None else Some(db.solutions[Best(db, xs)].result)
  }

  /** What the query returns for one link. */
  ghost predicate RowIs(db: Db, waived: set<nat>, oid: nat, user: string, l: nat, r: Row) {
    && l in db.links && r.bid == db.links[l].bid && r.pid == db.links[l].pid && r.weight == db.links[l].score
    && (r.required <==> l !in waived) && r.result == BestResult(db, oid, r.bid, user, r.pid)
  }

  /** The query lists the present links of the batch, each once. */
  ghost predicate Queried(db: Db, waived: set<nat>, oid: nat, bid: nat, user: string, order: seq<nat>, rows: seq<Row>) {
    && |rows| == |order| && (forall k | 0 <= k < |rows| :: RowIs(db, waived, oid, user, order[k], rows[k]))
    && (forall i, j | 0 <= i < j < |order| :: order[i] != order[j])
    && forall l :: l in order <==> l in PresentLinks(db, bid)
  }

  /** The card of a batch shows the totals of the tables. */
  lemma CardTotals(db: Db, waived: set<nat>, oid: nat, bid: nat, user: string, order: seq<nat>, rows: seq<Row>)
    requires Queried(db, waived, oid, bid, user, order, rows)
    ensures ProgressTotals(db, waived, oid, bid, user) == Totals(TotalWeight(rows), PassedWeight(rows))
  {
    PrefixTotals(db, waived, oid, bid, user, order, rows);
    assert Listed(db, bid, order) == PresentLinks(db, bid);
    assert ListedPassed(db, oid, bid, user, order) == ProgressPassed(db, oid, bid, user);
    hide BestAccepted;
  }

  function Listed(db: Db, bid: nat, order: seq<nat>): set<nat> { set l | l in PresentLinks(db, bid) && l in order }

  ghost function ListedPassed(db: Db, oid: nat, bid: nat, user: string, order: seq<nat>): set<nat> {
    set l | l in Listed(db, bid, order) && BestAccepted(db, oid, bid, user, db.links[l].pid)
  }

  lemma {:induction false} PrefixTotals(db: Db, waived: set<nat>, oid: nat, bid: nat, user: string, order: seq<nat>, rows: seq<Row>)
    requires |rows| == |order| && (forall k | 0 <= k < |rows| :: RowIs(db, waived, oid, user, order[k], rows[k]))
    requires forall i, j | 0 <= i < j < |order| :: order[i] != order[j]
    requires forall l | l in order :: l in PresentLinks(db, bid)
    ensures TotalWeight(rows) == Weights(db, waived, Listed(db, bid, order))
    ensures PassedWeight(rows) == Weights(db, waived, ListedPassed(db, oid, bid, user, order))
  {
    hide RowIs, BestAccepted, Listed, ListedPassed, PresentLinks;
    if rows != [] {
      var k := |rows| - 1;
      PrefixTotals(db, waived, oid, bid, user, order[..k], rows[..k]);
      OneMoreLink(db, waived, oid, bid, user, order[..k], order[k]);
      assert order[..k] + [order[k]] == order;
      RowCounts(db, waived, oid, bid, user, order[k], rows[k]);
    } else {
      NothingListed(db, oid, bid, user);
    }
  }

  lemma NothingListed(db: Db, oid: nat, bid: nat, user: string)
    ensures Listed(db, bid, []) == {} && ListedPassed(db, oid, bid, user, []) == {}
  {
    hide PresentLinks, BestAccepted;
  }

  lemma RowCounts(db: Db, waived: set<nat>, oid: nat, bid: nat, user: string, l: nat, r: Row)
    requires RowIs(db, waived, oid, user, l, r) && l in PresentLinks(db, bid)
    ensures RowWeight(r) == Weight(db, waived, l) && (r.result == Some(ACCEPTED) <==> BestAccepted(db, oid, bid, user, db.links[l].pid))
  {
  }

  lemma OneMoreLink(db: Db, waived: set<nat>, oid: nat, bid: nat, user: string, order: seq<nat>, l: nat)
    requires l !in order && l in PresentLinks(db, bid)
    ensures Weights(db, waived, Listed(db, bid, order + [l])) == Weights(db, waived, Listed(db, bid, order)) + Weight(db, waived, l)
    ensures Weights(db, waived, ListedPassed(db, oid, bid, user, order + [l])) == Weights(db, waived, ListedPassed(db, oid, bid, user, order))
         + if BestAccepted(db, oid, bid, user, db.links[l].pid) then Weight(db, waived, l) else 0
  {
    hide BestAccepted, PresentLinks, Weight;
    assert PresentLinks(db, bid) <= db.links.Keys by {
      PresentThere(db, bid);
    }
    var all, passed := Listed(db, bid, order + [l]), ListedPassed(db, oid, bid, user, order + [l]);
    assert all - {l} == Listed(db, bid, order);
    WeightsLess(db, waived, all, l);
    if BestAccepted(db, oid, bid, user, db.links[l].pid) {
      assert passed - {l} == ListedPassed(db, oid, bid, user, order);
      WeightsLess(db, waived, passed, l);
    } else {
      assert passed == ListedPassed(db, oid, bid, user, order);
    }
  }

  lemma PresentThere(db: Db, bid: nat)
    ensures PresentLinks(db, bid) <= db.links.Keys
  {
  }
}
