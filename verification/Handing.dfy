/**
 What the grades rest on, in every run: a submission names its batch's offering and its solution's user. And what makes
 the student's page differ from the export: a submission that was released and never promoted.
 */
module Handing {
  import opened Values
  import opened Tables
  import opened Machine
  import opened Locks
  import opened Runs
  import Grading

  /** The batch of a submission, while it is there, is of the same offering; its solution is of the same user. */
  predicate Matches(db: Db, sid: nat, oid: nat, bid: nat, user: string) {
    && sid < db.nextSid && bid < db.nextBid
    && (bid in db.batches ==> db.batches[bid].oid == oid)
    && (sid in db.solutions ==> db.solutions[sid].user == user)
  }

  predicate Matched(db: Db, x: nat)
    requires x in db.submissions
  {
    Matches(db, x, db.submissions[x].oid, db.submissions[x].bid, db.submissions[x].user)
  }

  ghost predicate Handed(db: Db) {
    && (forall x :: x in db.submissions ==> Matched(db, x))
    && (forall b :: b in db.batches ==> b < db.nextBid)
    && (forall x :: x in db.solutions ==> x < db.nextSid)
  }

  /** What a request is about to store. */
  predicate Claims(db: Db, tk: Task) {
    tk.Submit? && tk.s.target.Some? ==>
      && tk.s.target.value < db.nextBid && (tk.s.target.value in db.batches ==> db.batches[tk.s.target.value].oid == tk.s.oid)
      && (tk.s.pc.Assign? ==> Matches(db, tk.s.sid, tk.s.oid, tk.s.target.value, tk.s.user))
  }

  // ---------------------------------------------------------------- statements

  /** Batches keep their offerings, solutions their users; numbers are not given out again. */
  ghost predicate Grows(db: Db, d: Db) {
    && db.nextBid <= d.nextBid && db.nextSid <= d.nextSid
    && (forall b :: b in d.batches ==> (b in db.batches && d.batches[b].oid == db.batches[b].oid) || db.nextBid <= b < d.nextBid)
    && (forall x :: x in d.solutions ==> (x in db.solutions && d.solutions[x].user == db.solutions[x].user) || db.nextSid <= x < d.nextSid)
  }

  predicate SameHand(a: Submission, b: Submission) { a.(bp := b.bp, promoted := b.promoted) == b }

  /** Submissions keep offering, batch and user, and none is new. */
  ghost predicate FewerHanded(db: Db, d: Db) {
    forall x :: x in d.submissions ==> x in db.submissions && SameHand(d.submissions[x], db.submissions[x])
  }

  lemma MatchesStay(db: Db, d: Db, sid: nat, oid: nat, bid: nat, user: string)
    requires Matches(db, sid, oid, bid, user) && Grows(db, d)
    ensures Matches(d, sid, oid, bid, user)
  {
  }

  lemma HandedStays(db: Db, d: Db)
    requires Handed(db) && Grows(db, d) && FewerHanded(db, d)
    ensures Handed(d)
  {
    hide Matches;
    forall x | x in d.submissions ensures Matched(d, x) {
      assert Matched(db, x);
      MatchesStay(db, d, x, db.submissions[x].oid, db.submissions[x].bid, db.submissions[x].user);
    }
  }

  ghost predicate Permitted(db: Db, st: Stmt) { st.PutSubmission? ==> Matches(db, st.sid, st.oid, st.bid, st.user) }

  predicate OnBatches(st: Stmt) { st.PutBatch? || st.SetStatus? || st.PublishTx? || st.EditTx? || st.RemoveTx? || st.DeleteTx? }

  predicate OnSolutions(st: Stmt) { st.PutSolution? || st.ReleaseRows? || st.MoveSolution? || st.DropSolutionRows? }

  lemma BatchesMove(db: Db, st: Stmt)
    requires Handed(db) && OnBatches(st)
    ensures var d := Exec(db, st); Grows(db, d) && FewerHanded(db, d)
  {
    hide Grows, FewerHanded, EnsureBatch, WithStatus, CommitPublish, CommitEdit, CommitRemove, CommitDelete, Handed;
    match st
    case PutBatch(oid, key, library) => EnsureMoves(db, oid, key, library);
    case SetStatus(bid, status) => StatusMoves(db, bid, status);
    case PublishTx(oid, bid, key, slots) => PublishMoves(db, oid, bid, key, slots);
    case EditTx(bid, doomed, slots, status) => EditMoves(db, bid, doomed, slots, status);
    case RemoveTx(bid) => RemoveMoves(db, bid);
    case DeleteTx(oid, course) => DeleteMoves(db, oid, course);
  }

  lemma EnsureMoves(db: Db, oid: nat, key: nat, library: Option<nat>)
    ensures var d := EnsureBatch(db, oid, key, library); Grows(db, d) && FewerHanded(db, d)
  {
    var d := EnsureBatch(db, oid, key, library);
    hide Grows, FewerHanded, NextSeq, KeyUsed;
    assert forall b :: b in d.batches ==> (b in db.batches && d.batches[b].oid == db.batches[b].oid) || db.nextBid <= b < d.nextBid;
    hide EnsureBatch;
    BatchesGrow(db, d);
  }

  lemma StatusMoves(db: Db, bid: nat, status: BatchStatus)
    ensures var d := WithStatus(db, bid, status); Grows(db, d) && FewerHanded(db, d)
  {
    var d := WithStatus(db, bid, status);
    hide Grows, FewerHanded;
    assert forall b :: b in d.batches ==> b in db.batches && d.batches[b].oid == db.batches[b].oid;
    hide WithStatus;
    BatchesGrow(db, d);
  }

  lemma BatchesGrow(db: Db, d: Db)
    requires d.solutions == db.solutions && d.nextSid == db.nextSid && d.submissions == db.submissions && db.nextBid <= d.nextBid
    requires forall b :: b in d.batches ==> (b in db.batches && d.batches[b].oid == db.batches[b].oid) || db.nextBid <= b < d.nextBid
    ensures Grows(db, d) && FewerHanded(db, d)
  {
  }

  lemma PublishMoves(db: Db, oid: nat, bid: nat, key: nat, slots: seq<Slot>)
    ensures var d := CommitPublish(db, oid, bid, key, slots); Grows(db, d) && FewerHanded(db, d)
  {
    hide Relinked;
  }

  lemma RemoveMoves(db: Db, bid: nat)
    ensures var d := CommitRemove(db, bid); Grows(db, d) && FewerHanded(db, d)
  {
  }

  lemma EditMoves(db: Db, bid: nat, doomed: set<nat>, slots: seq<Slot>, status: BatchStatus)
    ensures var d := CommitEdit(db, bid, doomed, slots, status); Grows(db, d) && FewerHanded(db, d)
  {
    var y := Relinked(db.(submissions := db.submissions - doomed), bid, slots);
    hide Relinked;
    assert FewerHanded(db, Repaired(y, bid));
    hide Repaired;
  }

  lemma DeleteMoves(db: Db, oid: nat, course: nat)
    ensures var d := CommitDelete(db, oid, course); Grows(db, d) && FewerHanded(db, d)
  {
    hide LinkOfOffering, CourseUsed;
  }

  lemma SolutionsMove(db: Db, st: Stmt)
    requires Handed(db) && OnSolutions(st)
    ensures var d := Exec(db, st); Grows(db, d) && FewerHanded(db, d)
  {
    hide Matches;
  }

  lemma NothingMoves(db: Db, st: Stmt)
    requires !OnBatches(st) && !OnSolutions(st) && !st.PutSubmission? && !st.MarkPromoted?
    ensures var d := Exec(db, st);
      && d.batches == db.batches && d.nextBid == db.nextBid && d.solutions == db.solutions && d.nextSid == db.nextSid
      && d.submissions == db.submissions
  {
  }

  lemma SubmissionsMove(db: Db, st: Stmt)
    requires Handed(db) && Permitted(db, st) && (st.PutSubmission? || st.MarkPromoted?)
    ensures Grows(db, Exec(db, st)) && Handed(Exec(db, st))
  {
  }

  lemma FrameGrows(db: Db, d: Db)
    requires d.batches == db.batches && d.nextBid == db.nextBid && d.solutions == db.solutions && d.nextSid == db.nextSid
    requires d.submissions == db.submissions
    ensures Grows(db, d) && FewerHanded(db, d)
  {
  }

  lemma ExecKeeps(db: Db, st: Stmt)
    requires Handed(db) && Permitted(db, st)
    ensures Grows(db, Exec(db, st)) && Handed(Exec(db, st))
  {
    hide Exec, Handed, Grows, FewerHanded, Permitted;
    if st.PutSubmission? || st.MarkPromoted? {
      SubmissionsMove(db, st);
    } else {
      if OnBatches(st) {
        BatchesMove(db, st);
      } else if OnSolutions(st) {
        SolutionsMove(db, st);
      } else {
        NothingMoves(db, st);
        FrameGrows(db, Exec(db, st));
      }
      HandedStays(db, Exec(db, st));
    }
  }

  // ---------------------------------------------------------------- requests

  lemma ClaimsStay(db: Db, d: Db, tk: Task)
    requires Claims(db, tk) && Grows(db, d)
    ensures Claims(d, tk)
  {
  }

  lemma SubmitPermitted(db: Db, s: SubmitTask)
    requires Claims(db, Submit(s))
    ensures Permitted(db, SubmitStmt(s))
  {
    hide Matches;
  }

  /** The solution placed is the user's own. */
  lemma Placed(db: Db, s: SubmitTask)
    requires s.pc.Place? && s.target.Some? && Claims(db, Submit(s))
    ensures Matches(Exec(db, SubmitStmt(s)), db.nextSid, s.oid, s.target.value, s.user)
  {
    assert Exec(db, SubmitStmt(s)) == InsertSolution(db, s.cur, s.user, true);
    hide Exec, SubmitStmt;
  }

  lemma SubmitClaims(db: Db, d: Db, s: SubmitTask)
    requires Claims(d, Submit(s))
    requires s.pc.Place? && s.target.Some? ==> Matches(d, db.nextSid, s.oid, s.target.value, s.user)
    ensures Claims(d, Submit(SubmitNext(db, s)))
  {
    hide Accepting, LinkFor, Matches;
  }

  lemma OthersPermitted(db: Db, tk: Task, pick: nat)
    requires !tk.Submit?
    ensures Permitted(db, StmtOf(db, tk, pick)) && !Next(db, tk, pick).Submit?
  {
    hide Revisable, Slots;
  }

  lemma StepClaims(db: Db, tk: Task, pick: nat)
    requires Handed(db) && Claims(db, tk)
    ensures Permitted(db, StmtOf(db, tk, pick)) && Claims(Exec(db, StmtOf(db, tk, pick)), Next(db, tk, pick))
  {
    hide Permitted, Handed, Exec, Claims, Grows;
    if tk.Submit? {
      hide SubmitStmt, SubmitNext;
      SubmitPermitted(db, tk.s);
      ExecKeeps(db, SubmitStmt(tk.s));
      ClaimsStay(db, Exec(db, SubmitStmt(tk.s)), tk);
      if tk.s.pc.Place? && tk.s.target.Some? {
        Placed(db, tk.s);
      }
      SubmitClaims(db, Exec(db, SubmitStmt(tk.s)), tk.s);
    } else {
      hide StmtOf, Next;
      OthersPermitted(db, tk, pick);
      NoClaims(Exec(db, StmtOf(db, tk, pick)), Next(db, tk, pick));
    }
  }

  lemma NoClaims(db: Db, tk: Task)
    requires !tk.Submit?
    ensures Claims(db, tk)
  {
  }

  lemma LockClaims(db: Db, tk: Task)
    requires Claims(db, tk)
    ensures Wants(tk).Some? ==> Claims(db, AfterLock(tk))
    ensures Frees(tk).Some? ==> Claims(db, AfterFree(tk))
  {
    hide Matches;
  }

  lemma FreshClaims(db: Db, job: Job)
    requires Handed(db) && Acceptable(db, job)
    ensures Claims(db, Fresh(db, job))
  {
  }

  // ---------------------------------------------------------------- the machine

  ghost predicate HandedOk(w: World) { Handed(w.db) && forall t :: t in w.tasks ==> Claims(w.db, w.tasks[t]) }

  lemma WorkKeeps(w: World, v: World, t: nat, pick: nat)
    requires HandedOk(w) && t in w.tasks
    requires v.db == Exec(w.db, StmtOf(w.db, w.tasks[t], pick)) && v.tasks == w.tasks[t := Next(w.db, w.tasks[t], pick)]
    ensures HandedOk(v)
  {
    hide Exec, Handed, StmtOf, Next, Claims, Permitted, Grows;
    StepClaims(w.db, w.tasks[t], pick);
    ExecKeeps(w.db, StmtOf(w.db, w.tasks[t], pick));
    forall u | u in v.tasks ensures Claims(v.db, v.tasks[u]) {
      if u != t {
        ClaimsStay(w.db, v.db, w.tasks[u]);
      }
    }
  }

  lemma StepKeeps(w: World, t: nat, pick: nat)
    requires HandedOk(w) && t in w.tasks
    ensures HandedOk(Advance(w, t, pick))
  {
    hide Handed, Claims, AfterLock, AfterFree, PhaseOf, Wants, Frees, Next, StmtOf, Exec, RevisionsAfter, DyingAfter;
    var tk, v := w.tasks[t], Advance(w, t, pick);
    LockClaims(w.db, tk);
    if Working(tk) {
      WorkKeeps(w, v, t, pick);
    }
  }

  lemma ActKeeps(w: World, a: Action)
    requires HandedOk(w) && Enabled(w, a)
    ensures HandedOk(Act(w, a))
  {
    hide Advance, Fresh, Acceptable, Claims, Grows, Matches;
    match a
    case Start(job) => FreshClaims(w.db, job);
    case Step(t, pick) => StepKeeps(w, t, pick);
    case Stop(t) =>
    case Verdict(sid, result) => OutsideKeeps(w, Act(w, a));
    case NewDraft(oid) => OutsideKeeps(w, Act(w, a));
  }

  lemma OutsideKeeps(w: World, v: World)
    requires HandedOk(w) && v == w.(db := v.db)
    requires v.db.batches == w.db.batches && v.db.nextBid == w.db.nextBid && v.db.nextSid == w.db.nextSid
    requires v.db.submissions == w.db.submissions && v.db.solutions.Keys == w.db.solutions.Keys
    requires forall x :: x in w.db.solutions ==> v.db.solutions[x].user == w.db.solutions[x].user
    ensures HandedOk(v)
  {
    assert Grows(w.db, v.db) && FewerHanded(w.db, v.db);
    hide Handed, Claims, Grows, FewerHanded;
    HandedStays(w.db, v.db);
    forall t | t in v.tasks ensures Claims(v.db, v.tasks[t]) {
      ClaimsStay(w.db, v.db, w.tasks[t]);
    }
  }

  lemma {:induction false} RunKeepsHanded(run: seq<World>, i: nat)
    requires IsRun(run) && i < |run| && Handed(run[0].db)
    ensures HandedOk(run[i])
  {
    if i > 0 {
      RunKeepsHanded(run, i - 1);
      assert Moves(run[i - 1], run[i - 1 + 1]);
      var a :| Enabled(run[i - 1], a) && run[i] == Act(run[i - 1], a);
      hide Enabled, Act, HandedOk;
      ActKeeps(run[i - 1], a);
    }
  }

  /**
   In every state of every run the roster counts what the export counts, for every batch, and the three grades that
   teachers see differ exactly as the lemmas of `Grading` say.
   */
  lemma GradesAgreeInRuns(run: seq<World>, i: nat, waived: set<nat>, bid: nat, user: string)
    requires IsRun(run) && i < |run| && Handed(run[0].db) && bid in run[i].db.batches
    ensures var db := run[i].db; var oid := db.batches[bid].oid;
      && Grading.Kept(db, oid, bid)
      && Grading.RosterTotals(db, waived, oid, bid, user) == Grading.ExportTotals(db, waived, oid, bid, user)
  {
    RunKeepsHanded(run, i);
    var db := run[i].db;
    forall x | x in db.submissions && db.submissions[x].bid == bid && x in db.solutions
      ensures db.submissions[x].oid == db.batches[bid].oid && db.solutions[x].user == db.submissions[x].user
    {
      assert Matched(db, x);
    }
    Grading.RosterAgrees(db, waived, db.batches[bid].oid, bid, user);
  }

  // ---------------------------------------------------------------- a submission that is never promoted

  /** The batch takes submissions to the problem, by the link. */
  ghost predicate Open(db: Db, bid: nat, l: nat) {
    && bid in db.batches && OpenOffering(db, db.batches[bid].oid) && db.batches[bid].status == Published
    && l in db.links && db.links[l].bid == bid && db.links[l].pid in db.problems && db.problems[db.links[l].pid].visible
  }

  /** One request in flight. */
  function Alone(w: World, db: Db, s: SubmitTask, locks: map<Lock, nat>): World {
    w.(db := db, tasks := map[w.nextTid := Submit(s)], locks := locks, nextTid := w.nextTid + 1)
  }

  /** What one step of a submission comes to. */
  ghost predicate Does(db: Db, s: SubmitTask, d: Db, next: SubmitTask) {
    Working(Submit(s)) && Exec(db, SubmitStmt(s)) == d && SubmitNext(db, s) == next
  }

  lemma Goes(w: World, db: Db, s: SubmitTask, locks: map<Lock, nat>, d: Db, next: SubmitTask, n: nat)
    requires Leads(w, Alone(w, db, s, locks), n) && Does(db, s, d, next)
    ensures Leads(w, Alone(w, d, next, locks), n + 1)
  {
    var x := Alone(w, db, s, locks);
    hide Leads, Moves, Exec, SubmitNext, Wants, Frees, PhaseOf;
    WorkMoves(x, w.nextTid, Submit(s), 0);
    assert x.tasks[w.nextTid := Submit(next)] == map[w.nextTid := Submit(next)];
    assert DyingAfter(x.dying, w.nextTid, SubmitStmt(s)) == x.dying;
    Then(w, x, Alone(w, d, next, locks), n);
  }

  lemma Takes(w: World, db: Db, s: SubmitTask, locks: map<Lock, nat>, n: nat)
    requires Leads(w, Alone(w, db, s, locks), n) && Wants(Submit(s)).Some? && Wants(Submit(s)).value !in locks
    ensures AfterLock(Submit(s)).Submit? &&
      Leads(w, Alone(w, db, AfterLock(Submit(s)).s, locks[Wants(Submit(s)).value := w.nextTid]), n + 1)
  {
    var x := Alone(w, db, s, locks);
    hide Leads, Moves, Wants;
    TakesLock(x, w.nextTid, Submit(s));
    var next := AfterLock(Submit(s)).s;
    assert x.tasks[w.nextTid := Submit(next)] == map[w.nextTid := Submit(next)];
    Then(w, x, Alone(w, db, next, locks[Wants(Submit(s)).value := w.nextTid]), n);
  }

  /** A student's submission to a batch, at some point. */
  function Handing(oid: nat, bid: nat, pid: nat, user: string, pc: SubmitPc, bp: nat, sid: nat): SubmitTask {
    SubmitTask(pc, oid, pid, Some(bid), user, bp, sid)
  }

  function Entry(w: World, oid: nat): map<Lock, nat> { map[OfferingLock(oid) := w.nextTid] }

  function Both(w: World, oid: nat, pid: nat): map<Lock, nat> {
    map[OfferingLock(oid) := w.nextTid, ProblemLock(pid) := w.nextTid]
  }

  lemma Requested(w: World, bid: nat, pid: nat, user: string)
    requires AtRest(w) && bid in w.db.batches
    ensures Leads(w, Alone(w, w.db, Handing(w.db.batches[bid].oid, bid, pid, user, SubmitPc.WantOffering, 0, 0), map[]), 1)
  {
    var s := Handing(w.db.batches[bid].oid, bid, pid, user, SubmitPc.WantOffering, 0, 0);
    Starts(w, Hand(bid, pid, user));
    assert Fresh(w.db, Hand(bid, pid, user)) == Submit(s);
    assert w.tasks[w.nextTid := Submit(s)] == map[w.nextTid := Submit(s)];
    assert Leads(w, w, 0);
    hide Moves, Fresh, Leads;
    Then(w, w, Alone(w, w.db, s, map[]), 0);
  }

  lemma Entered(w: World, bid: nat, pid: nat, user: string)
    requires AtRest(w) && bid in w.db.batches
    ensures var oid := w.db.batches[bid].oid;
      Leads(w, Alone(w, w.db, Handing(oid, bid, pid, user, SubmitPc.Inside, 0, 0), Entry(w, oid)), 2)
  {
    hide Leads, AtRest, Wants;
    var oid := w.db.batches[bid].oid;
    Requested(w, bid, pid, user);
    WantsOffering(oid, bid, pid, user);
    Takes(w, w.db, Handing(oid, bid, pid, user, SubmitPc.WantOffering, 0, 0), map[], 1);
    assert map[][OfferingLock(oid) := w.nextTid] == Entry(w, oid);
  }

  lemma WantsOffering(oid: nat, bid: nat, pid: nat, user: string)
    ensures Wants(Submit(Handing(oid, bid, pid, user, SubmitPc.WantOffering, 0, 0))) == Some(OfferingLock(oid))
  {
  }

  lemma TakesProblem(w: World, db: Db, oid: nat, bid: nat, pid: nat, user: string, bp: nat, n: nat)
    requires Leads(w, Alone(w, db, Handing(oid, bid, pid, user, WantProblem, bp, 0), Entry(w, oid)), n)
    ensures Leads(w, Alone(w, db, Handing(oid, bid, pid, user, Check, bp, 0), Both(w, oid, pid)), n + 1)
  {
    hide Leads;
    Takes(w, db, Handing(oid, bid, pid, user, WantProblem, bp, 0), Entry(w, oid), n);
    assert Entry(w, oid)[ProblemLock(pid) := w.nextTid] == Both(w, oid, pid);
  }

  lemma Accepted(db: Db, bid: nat, l: nat, user: string) returns (bp: nat)
    requires Open(db, bid, l)
    ensures var oid, pid := db.batches[bid].oid, db.links[l].pid;
      && Does(db, Handing(oid, bid, pid, user, SubmitPc.Inside, 0, 0), db, Handing(oid, bid, pid, user, WantProblem, bp, 0))
      && Does(db, Handing(oid, bid, pid, user, Check, bp, 0), db, Handing(oid, bid, pid, user, Place, bp, 0))
  {
    assert Linked(db, bid, db.links[l].pid);
    bp := LinkOf(db, bid, db.links[l].pid);
    hide LinkOf, Linked;
  }

  /** The request is taken on, checked, and about to place its solution. */
  lemma Checked(w: World, bid: nat, l: nat, user: string) returns (bp: nat)
    requires AtRest(w) && Open(w.db, bid, l)
    ensures var oid, pid := w.db.batches[bid].oid, w.db.links[l].pid;
      Leads(w, Alone(w, w.db, Handing(oid, bid, pid, user, Place, bp, 0), Both(w, oid, pid)), 5)
  {
    var db, pid, oid := w.db, w.db.links[l].pid, w.db.batches[bid].oid;
    Entered(w, bid, pid, user);
    hide Leads, Does, Handing, Alone, Entry, Both, AtRest;
    bp := Accepted(db, bid, l, user);
    hide Open;
    Goes(w, db, Handing(oid, bid, pid, user, SubmitPc.Inside, 0, 0), Entry(w, oid), db, Handing(oid, bid, pid, user, WantProblem, bp, 0), 2);
    TakesProblem(w, db, oid, bid, pid, user, bp, 3);
    Goes(w, db, Handing(oid, bid, pid, user, Check, bp, 0), Both(w, oid, pid), db, Handing(oid, bid, pid, user, Place, bp, 0), 4);
  }

  // The databases after each statement.

  function Placing(db: Db, pid: nat, user: string): Db { InsertSolution(db, pid, user, true) }

  ghost function Assigning(db: Db, oid: nat, bid: nat, pid: nat, user: string, bp: nat): Db {
    InsertSubmission(Placing(db, pid, user), db.nextSid, oid, bid, bp, user)
  }

  ghost function Saving(db: Db, oid: nat, bid: nat, pid: nat, user: string, bp: nat): Db {
    var d := Assigning(db, oid, bid, pid, user, bp);
    d.(code := d.code + {db.nextSid}, userCode := d.userCode + {db.nextSid})
  }

  ghost function Releasing(db: Db, oid: nat, bid: nat, pid: nat, user: string, bp: nat): Db {
    Released(Saving(db, oid, bid, pid, user, bp), {db.nextSid})
  }

  lemma Putting(db: Db, oid: nat, bid: nat, pid: nat, user: string, bp: nat)
    ensures Does(db, Handing(oid, bid, pid, user, Place, bp, 0), Placing(db, pid, user),
                 Handing(oid, bid, pid, user, Assign, bp, db.nextSid))
  {
    hide InsertSolution, Accepting;
  }

  lemma Linking(db: Db, oid: nat, bid: nat, pid: nat, user: string, bp: nat)
    ensures Does(Placing(db, pid, user), Handing(oid, bid, pid, user, Assign, bp, db.nextSid),
                 Assigning(db, oid, bid, pid, user, bp), Handing(oid, bid, pid, user, SaveCode, bp, db.nextSid))
  {
    hide InsertSubmission, Placing, Accepting;
  }

  lemma Filing(db: Db, oid: nat, bid: nat, pid: nat, user: string, bp: nat)
    ensures var sid, d := db.nextSid, Assigning(db, oid, bid, pid, user, bp);
      && Does(d, Handing(oid, bid, pid, user, SaveCode, bp, sid), d.(code := d.code + {sid}),
              Handing(oid, bid, pid, user, SaveUserCode, bp, sid))
      && Does(d.(code := d.code + {sid}), Handing(oid, bid, pid, user, SaveUserCode, bp, sid),
              Saving(db, oid, bid, pid, user, bp), Handing(oid, bid, pid, user, Release, bp, sid))
  {
    hide Assigning;
  }

  lemma Freeing(db: Db, oid: nat, bid: nat, pid: nat, user: string, bp: nat)
    ensures Does(Saving(db, oid, bid, pid, user, bp), Handing(oid, bid, pid, user, Release, bp, db.nextSid),
                 Releasing(db, oid, bid, pid, user, bp), Handing(oid, bid, pid, user, Promoting, bp, db.nextSid))
  {
    hide Saving, Released;
  }

  lemma Stored(w: World, bid: nat, l: nat, user: string) returns (bp: nat)
    requires AtRest(w) && Open(w.db, bid, l)
    ensures var db, oid, pid := w.db, w.db.batches[bid].oid, w.db.links[l].pid;
      Leads(w, Alone(w, Releasing(db, oid, bid, pid, user, bp), Handing(oid, bid, pid, user, Promoting, bp, db.nextSid), Both(w, oid, pid)), 10)
  {
    hide Leads, AtRest, Handing, Alone, Both, Releasing;
    bp := Checked(w, bid, l, user);
    hide Open;
    FromPlace(w, w.db, w.db.batches[bid].oid, bid, w.db.links[l].pid, user, bp);
  }

  lemma FromPlace(w: World, db: Db, oid: nat, bid: nat, pid: nat, user: string, bp: nat)
    requires Leads(w, Alone(w, db, Handing(oid, bid, pid, user, Place, bp, 0), Both(w, oid, pid)), 5)
    ensures Leads(w, Alone(w, Releasing(db, oid, bid, pid, user, bp), Handing(oid, bid, pid, user, Promoting, bp, db.nextSid), Both(w, oid, pid)), 10)
  {
    hide Leads, Does, Handing, Alone, Both, Placing, Assigning, Saving, Releasing;
    Putting(db, oid, bid, pid, user, bp);
    Linking(db, oid, bid, pid, user, bp);
    Filing(db, oid, bid, pid, user, bp);
    Freeing(db, oid, bid, pid, user, bp);
    var sid, a, d := db.nextSid, Placing(db, pid, user), Assigning(db, oid, bid, pid, user, bp);
    var e, f, locks := d.(code := d.code + {sid}), Saving(db, oid, bid, pid, user, bp), Both(w, oid, pid);
    Goes(w, db, Handing(oid, bid, pid, user, Place, bp, 0), locks, a, Handing(oid, bid, pid, user, Assign, bp, sid), 5);
    Goes(w, a, Handing(oid, bid, pid, user, Assign, bp, sid), locks, d, Handing(oid, bid, pid, user, SaveCode, bp, sid), 6);
    Goes(w, d, Handing(oid, bid, pid, user, SaveCode, bp, sid), locks, e, Handing(oid, bid, pid, user, SaveUserCode, bp, sid), 7);
    Goes(w, e, Handing(oid, bid, pid, user, SaveUserCode, bp, sid), locks, f, Handing(oid, bid, pid, user, Release, bp, sid), 8);
    Goes(w, f, Handing(oid, bid, pid, user, Release, bp, sid), locks, Releasing(db, oid, bid, pid, user, bp),
      Handing(oid, bid, pid, user, Promoting, bp, sid), 9);
  }

  /** The databases in the end: the process is gone before it promotes the submission, and the judge accepts the solution. */
  ghost function Judged(db: Db, oid: nat, bid: nat, pid: nat, user: string, bp: nat): (d: Db) {
    var d := Releasing(db, oid, bid, pid, user, bp);
    if db.nextSid in d.solutions
    then d.(solutions := d.solutions[db.nextSid := d.solutions[db.nextSid].(result := ACCEPTED)]) else d
  }

  lemma JudgedRows(db: Db, oid: nat, bid: nat, pid: nat, user: string, bp: nat)
    requires Handed(db)
    ensures var sid, r, d := db.nextSid, Releasing(db, oid, bid, pid, user, bp), Judged(db, oid, bid, pid, user, bp);
      && sid in r.solutions && r.solutions[sid].result == 0
      && d == db.(solutions := db.solutions[sid := Solution(pid, user, ACCEPTED, true)],
                  submissions := db.submissions[sid := Submission(oid, bid, bp, user, false)],
                  nextSid := d.nextSid, code := d.code, userCode := d.userCode)
  {
    var sid, r, d := db.nextSid, Releasing(db, oid, bid, pid, user, bp), Judged(db, oid, bid, pid, user, bp);
    hide Matched;
    assert r.solutions == db.solutions[sid := Solution(pid, user, 0, true)] by {
      ReleasedRows(Saving(db, oid, bid, pid, user, bp), sid);
    }
    hide Released;
  }

  lemma ReleasedRows(db: Db, sid: nat)
    requires sid in db.solutions && db.solutions[sid].result == SAVING
    ensures Released(db, {sid}).solutions == db.solutions[sid := db.solutions[sid].(result := 0)]
  {
  }

  /** The request stops, the judge accepts. */
  lemma EndsAccepted(w: World, x: World, t: nat, sid: nat, n: nat) returns (v: World)
    requires Leads(w, x, n) && t in x.tasks && sid in x.db.solutions && x.db.solutions[sid].result == 0
    ensures Leads(w, v, n + 2)
    ensures v.db == x.db.(solutions := x.db.solutions[sid := x.db.solutions[sid].(result := ACCEPTED)])
  {
    hide Leads, Moves;
    Stops(x, t);
    var y := Act(x, Stop(t));
    Then(w, x, y, n);
    Judges(y, sid, ACCEPTED);
    v := y.(db := x.db.(solutions := x.db.solutions[sid := x.db.solutions[sid].(result := ACCEPTED)]));
    Then(w, y, v, n + 1);
  }

  lemma JudgedIs(db: Db, oid: nat, bid: nat, pid: nat, user: string, bp: nat)
    requires Handed(db)
    ensures var sid, r := db.nextSid, Releasing(db, oid, bid, pid, user, bp);
      && sid in r.solutions && r.solutions[sid].result == 0
      && Judged(db, oid, bid, pid, user, bp) == r.(solutions := r.solutions[sid := r.solutions[sid].(result := ACCEPTED)])
  {
    JudgedRows(db, oid, bid, pid, user, bp);
    hide Releasing, Handed;
  }

  lemma Cut(w: World, bid: nat, l: nat, user: string) returns (bp: nat, v: World)
    requires AtRest(w) && Open(w.db, bid, l) && Handed(w.db)
    ensures Leads(w, v, 12) && v.db == Judged(w.db, w.db.batches[bid].oid, bid, w.db.links[l].pid, user, bp)
  {
    hide Leads, AtRest, Releasing, Judged, Handed, Handing, Both;
    var db, pid, oid := w.db, w.db.links[l].pid, w.db.batches[bid].oid;
    bp := Stored(w, bid, l, user);
    hide Open;
    JudgedIs(db, oid, bid, pid, user, bp);
    var s, r := Handing(oid, bid, pid, user, Promoting, bp, db.nextSid), Releasing(db, oid, bid, pid, user, bp);
    v := EndsAccepted(w, Alone(w, r, s, Both(w, oid, pid)), w.nextTid, db.nextSid, 10);
  }

  /**
   From every state at rest in which a problem that weighs something takes submissions, one student's request that stops
   between release and promotion makes the student's own page and the export disagree, unless the student has passed the
   problem before.
   */
  lemma PromotionLost(w: World, waived: set<nat>, bid: nat, l: nat, user: string) returns (run: seq<World>)
    requires AtRest(w) && Handed(w.db) && Open(w.db, bid, l) && Grading.Weight(w.db, waived, l) > 0
    requires !Grading.AnyAccepted(w.db, Grading.Promoted(w.db, w.db.batches[bid].oid, bid, user, w.db.links[l].pid))
    ensures IsRun(run) && |run| == 13 && run[0] == w
    ensures bid in run[12].db.batches
    ensures var db := run[12].db;
      Grading.PageTotals(db, waived, bid, user) != Grading.ExportTotals(db, waived, db.batches[bid].oid, bid, user)
  {
    hide Leads, AtRest, Judged, Handed, IsRun, Grading.Kept, Grading.PageTotals, Grading.ExportTotals,
      Grading.SeenAlike, Grading.AnyAccepted, Grading.Promoted, Grading.LinksOf;
    var bp, v := Cut(w, bid, l, user);
    var db, oid, pid := w.db, w.db.batches[bid].oid, w.db.links[l].pid;
    run := RunOf(w, v, 12);
    JudgedRows(db, oid, bid, pid, user, bp);
    KeptWith(db, v.db, oid, bid, pid, user, bp);
    UnseenPass(db, v.db, waived, oid, bid, l, user, bp);
    Grading.PageAgrees(v.db, waived, oid, bid, user);
  }

  lemma KeptWith(db: Db, d: Db, oid: nat, bid: nat, pid: nat, user: string, bp: nat)
    requires Handed(db) && bid in db.batches && db.batches[bid].oid == oid
    requires d.solutions == db.solutions[db.nextSid := Solution(pid, user, ACCEPTED, true)]
    requires d.submissions == db.submissions[db.nextSid := Submission(oid, bid, bp, user, false)]
    ensures Grading.Kept(d, oid, bid)
  {
    forall x | x in d.submissions && d.submissions[x].bid == bid && x in d.solutions
      ensures d.submissions[x].oid == oid && d.solutions[x].user == d.submissions[x].user
    {
      assert x != db.nextSid ==> Matched(db, x);
    }
  }

  lemma UnseenPass(db: Db, d: Db, waived: set<nat>, oid: nat, bid: nat, l: nat, user: string, bp: nat)
    requires Handed(db) && l in db.links && db.links[l].bid == bid && d.links == db.links && Grading.Weight(db, waived, l) > 0
    requires d.solutions == db.solutions[db.nextSid := Solution(db.links[l].pid, user, ACCEPTED, true)]
    requires d.submissions == db.submissions[db.nextSid := Submission(oid, bid, bp, user, false)]
    requires !Grading.AnyAccepted(db, Grading.Promoted(db, oid, bid, user, db.links[l].pid))
    ensures l in Grading.LinksOf(d, bid) && Grading.Weight(d, waived, l) > 0 && !Grading.SeenAlike(d, oid, bid, user, l)
  {
    var pid := db.links[l].pid;
    assert Grading.Tried(d, bid, user, pid, db.nextSid);
    assert forall x :: x in Grading.Promoted(d, oid, bid, user, pid) ==> x in Grading.Promoted(db, oid, bid, user, pid) && x != db.nextSid;
    hide Handed;
  }
}
