/**
 A course deletion that stops once it has erased a problem: the problem's link is there still, and from then on the
 progress page and the export disagree.
 */
module Erasures {
  import opened Tables
  import opened Machine
  import opened Locks
  import opened Runs
  import opened Handing
  import CourseDeletion
  import Grading

  /** The deletion `k` alone in flight, begun in the state `w`. */
  function Deletion(w: World, db: Db, k: DeleteTask, locks: map<Lock, nat>, dying: map<nat, nat>): World {
    World(db, map[w.nextTid := Delete(k)], locks, w.nextTid + 1, map[], dying, {})
  }

  /** What one step of the deletion comes to. */
  ghost predicate Comes(db: Db, k: DeleteTask, pick: nat, d: Db, next: DeleteTask) {
    Working(Delete(k)) && Picks(Delete(k), pick) && Exec(db, DeleteStmt(k)) == d && DeleteNext(db, k, pick) == next
  }

  lemma Proceeds(
    w: World, db: Db, k: DeleteTask, pick: nat, d: Db, next: DeleteTask,
    locks: map<Lock, nat>, before: map<nat, nat>, after: map<nat, nat>, n: nat)
    requires Leads(w, Deletion(w, db, k, locks, before), n) && Comes(db, k, pick, d, next)
    requires after == DyingAfter(before, w.nextTid, DeleteStmt(k))
    ensures Leads(w, Deletion(w, d, next, locks, after), n + 1)
  {
    hide Leads, Moves, Exec, DeleteNext, DeleteStmt, Wants, Frees, PhaseOf, Picks, DyingAfter;
    var x := Deletion(w, db, k, locks, before);
    WorkMoves(x, w.nextTid, Delete(k), pick);
    assert x.tasks[w.nextTid := Delete(next)] == map[w.nextTid := Delete(next)];
    Then(w, x, Deletion(w, d, next, locks, after), n);
  }

  // ---------------------------------------------------------------- up to the cleanup

  lemma DeletionEnters(w: World, oid: nat)
    requires AtRest(w)
    ensures Leads(w, Deletion(w, w.db, DeleteTask(DeletePc.Inside, oid, 0, NO_PURGE, NO_CLEAN), Entry(w, oid), map[]), 2)
  {
    hide Leads, Moves, AtRest;
    var k := DeleteTask(DeletePc.WantOffering, oid, 0, NO_PURGE, NO_CLEAN);
    Requested(w, oid);
    TakesOffering(w, k);
    Then(w, Deletion(w, w.db, k, map[], map[]), Deletion(w, w.db, k.(pc := DeletePc.Inside), Entry(w, oid), map[]), 1);
  }

  lemma Requested(w: World, oid: nat)
    requires AtRest(w)
    ensures Leads(w, Deletion(w, w.db, DeleteTask(DeletePc.WantOffering, oid, 0, NO_PURGE, NO_CLEAN), map[], map[]), 1)
  {
    var k := DeleteTask(DeletePc.WantOffering, oid, 0, NO_PURGE, NO_CLEAN);
    Starts(w, DeleteCourse(oid));
    assert Leads(w, w, 0);
    hide Leads, Moves;
    assert w.tasks[w.nextTid := Delete(k)] == Deletion(w, w.db, k, map[], map[]).tasks;
    Then(w, w, Deletion(w, w.db, k, map[], map[]), 0);
  }

  lemma TakesOffering(w: World, k: DeleteTask)
    requires k.pc.WantOffering?
    ensures Moves(Deletion(w, w.db, k, map[], map[]), Deletion(w, w.db, k.(pc := DeletePc.Inside), Entry(w, k.oid), map[]))
  {
    hide Moves;
    var x, v := Deletion(w, w.db, k, map[], map[]), Deletion(w, w.db, k.(pc := DeletePc.Inside), Entry(w, k.oid), map[]);
    TakesLock(x, w.nextTid, Delete(k));
    assert x.tasks[w.nextTid := Delete(k.(pc := DeletePc.Inside))] == v.tasks && x.locks[OfferingLock(k.oid) := w.nextTid] == v.locks;
  }

  function Sids(w: World, oid: nat): set<nat> { OfferingSids(w.db, oid) }

  /** The deletion has read what there is to do. */
  function Reader(w: World, oid: nat, pc: DeletePc, at: PurgePc): DeleteTask
    requires oid in w.db.offerings
  {
    DeleteTask(pc, oid, w.db.offerings[oid].course, Purge(at, Sids(w, oid)), Clean(Choose, 0, CourseDeletion.DeletionPids(w.db, oid)))
  }

  lemma Reads(w: World, oid: nat)
    requires oid in w.db.offerings && !CourseDeletion.Busy(w.db, oid)
    ensures Comes(w.db, DeleteTask(DeletePc.Inside, oid, 0, NO_PURGE, NO_CLEAN), 0, w.db, Reader(w, oid, DeletePc.Close, DropCode))
  {
    hide OfferingSids, OfferingPids, StagedPids, Idle;
  }

  lemma Closes(w: World, oid: nat)
    requires oid in w.db.offerings
    ensures Comes(w.db, Reader(w, oid, DeletePc.Close, DropCode), 0,
                  CourseDeletion.PurgedTo(w.db, oid, 1), Reader(w, oid, DeletePc.Purging, DropCode))
  {
    hide OfferingSids, OfferingPids, StagedPids, Idle, Archive;
  }

  lemma DropsCode(w: World, oid: nat)
    requires oid in w.db.offerings
    ensures Comes(CourseDeletion.PurgedTo(w.db, oid, 1), Reader(w, oid, DeletePc.Purging, DropCode), 0,
                  CourseDeletion.PurgedTo(w.db, oid, 2), Reader(w, oid, DeletePc.Purging, DropUserCode))
  {
    hide OfferingSids, OfferingPids, StagedPids, Idle, Archive;
  }

  lemma DropsUserCode(w: World, oid: nat)
    requires oid in w.db.offerings
    ensures Comes(CourseDeletion.PurgedTo(w.db, oid, 2), Reader(w, oid, DeletePc.Purging, DropUserCode), 0,
                  CourseDeletion.PurgedTo(w.db, oid, 3), Reader(w, oid, DeletePc.Purging, DropSolutions))
  {
    hide OfferingSids, OfferingPids, StagedPids, Idle, Archive;
  }

  lemma DropsSolutions(w: World, oid: nat)
    requires oid in w.db.offerings
    ensures Comes(CourseDeletion.PurgedTo(w.db, oid, 3), Reader(w, oid, DeletePc.Purging, DropSolutions), 0,
                  CourseDeletion.PurgedTo(w.db, oid, 4), Reader(w, oid, DeletePc.Cleaning, DropSolutions))
  {
    hide OfferingSids, OfferingPids, StagedPids, Idle, Archive;
  }

  function Marked(w: World, oid: nat): map<nat, nat> { map s | s in Sids(w, oid) :: w.nextTid }

  /** The submissions whose sources go are marked from the first statement on to the last. */
  lemma Marks(w: World, oid: nat)
    requires oid in w.db.offerings
    ensures DyingAfter(map[], w.nextTid, DeleteStmt(DeleteTask(DeletePc.Inside, oid, 0, NO_PURGE, NO_CLEAN))) == map[]
    ensures DyingAfter(map[], w.nextTid, DeleteStmt(Reader(w, oid, DeletePc.Close, DropCode))) == map[]
    ensures DyingAfter(map[], w.nextTid, DeleteStmt(Reader(w, oid, DeletePc.Purging, DropCode))) == Marked(w, oid)
    ensures DyingAfter(Marked(w, oid), w.nextTid, DeleteStmt(Reader(w, oid, DeletePc.Purging, DropUserCode))) == Marked(w, oid)
    ensures DyingAfter(Marked(w, oid), w.nextTid, DeleteStmt(Reader(w, oid, DeletePc.Purging, DropSolutions))) == map[]
  {
    hide OfferingSids, OfferingPids, StagedPids;
  }

  lemma PurgesAll(w: World, oid: nat)
    requires AtRest(w) && oid in w.db.offerings && !CourseDeletion.Busy(w.db, oid)
    ensures Leads(w, Deletion(w, CourseDeletion.PurgedTo(w.db, oid, 4), Reader(w, oid, DeletePc.Cleaning, DropSolutions), Entry(w, oid), map[]), 7)
  {
    hide Leads, Comes, AtRest, DyingAfter, DeleteStmt, Deletion, Marked, Reader, CourseDeletion.PurgedTo, CourseDeletion.Busy;
    DeletionEnters(w, oid);
    Marks(w, oid);
    Reads(w, oid);
    Closes(w, oid);
    DropsCode(w, oid);
    DropsUserCode(w, oid);
    DropsSolutions(w, oid);
    var a, b, c, d := CourseDeletion.PurgedTo(w.db, oid, 1), CourseDeletion.PurgedTo(w.db, oid, 2),
      CourseDeletion.PurgedTo(w.db, oid, 3), CourseDeletion.PurgedTo(w.db, oid, 4);
    var k0, k1 := DeleteTask(DeletePc.Inside, oid, 0, NO_PURGE, NO_CLEAN), Reader(w, oid, DeletePc.Close, DropCode);
    var k2, k3 := Reader(w, oid, DeletePc.Purging, DropCode), Reader(w, oid, DeletePc.Purging, DropUserCode);
    var k4, k5 := Reader(w, oid, DeletePc.Purging, DropSolutions), Reader(w, oid, DeletePc.Cleaning, DropSolutions);
    var locks, m := Entry(w, oid), Marked(w, oid);
    Proceeds(w, w.db, k0, 0, w.db, k1, locks, map[], map[], 2);
    Proceeds(w, w.db, k1, 0, a, k2, locks, map[], map[], 3);
    Proceeds(w, a, k2, 0, b, k3, locks, map[], m, 4);
    Proceeds(w, b, k3, 0, c, k4, locks, m, m, 5);
    Proceeds(w, c, k4, 0, d, k5, locks, m, map[], 6);
  }

  // ---------------------------------------------------------------- the erasure

  /** Problems of the offering that its deletion erases. */
  ghost predicate Erased(db: Db, oid: nat, pid: nat) {
    && oid in db.offerings
    && pid in CourseDeletion.Orphans(Purged(db, OfferingSids(db, oid)), oid, db.offerings[oid].course)
  }

  function Cleaner(w: World, oid: nat, pid: nat, at: CleanPc): DeleteTask
    requires oid in w.db.offerings
  {
    Reader(w, oid, DeletePc.Cleaning, DropSolutions).(clean := Clean(at, pid, CourseDeletion.DeletionPids(w.db, oid) - {pid}))
  }

  /** The databases once the tests of the problem are gone. */
  function Wiped(db: Db, oid: nat, pid: nat): Db {
    var d := CourseDeletion.PurgedTo(db, oid, 4);
    d.(tests := d.tests - {pid})
  }

  function Emptied(db: Db, oid: nat, pid: nat): Db {
    var d := Wiped(db, oid, pid);
    d.(problems := d.problems - {pid})
  }

  lemma Chooses(w: World, oid: nat, pid: nat)
    requires Erased(w.db, oid, pid)
    ensures var d := CourseDeletion.PurgedTo(w.db, oid, 4);
      Comes(d, Reader(w, oid, DeletePc.Cleaning, DropSolutions), pid, d, Cleaner(w, oid, pid, Want))
  {
    hide OfferingSids, OfferingPids, StagedPids, CourseDeletion.PurgedTo, Shared;
    InPlan(w.db, oid, pid);
  }

  lemma InPlan(db: Db, oid: nat, pid: nat)
    requires Erased(db, oid, pid)
    ensures var d := CourseDeletion.PurgedTo(db, oid, 4);
      && pid in CourseDeletion.DeletionPids(db, oid) && pid in d.problems && d.problems[pid].source.Authored?
      && !Shared(d, pid, oid, db.offerings[oid].course)
  {
    hide OfferingSids;
  }

  lemma Counts(w: World, oid: nat, pid: nat)
    requires Erased(w.db, oid, pid)
    ensures var d := CourseDeletion.PurgedTo(w.db, oid, 4); Comes(d, Cleaner(w, oid, pid, Count), 0, d, Cleaner(w, oid, pid, Wipe))
  {
    hide OfferingSids, OfferingPids, StagedPids, CourseDeletion.PurgedTo, Shared, Erased;
    InPlan(w.db, oid, pid);
  }

  lemma Wipes(w: World, oid: nat, pid: nat)
    requires oid in w.db.offerings
    ensures Comes(CourseDeletion.PurgedTo(w.db, oid, 4), Cleaner(w, oid, pid, Wipe), 0, Wiped(w.db, oid, pid), Cleaner(w, oid, pid, Erase))
  {
    hide OfferingSids, OfferingPids, StagedPids, CourseDeletion.PurgedTo, Shared, Exec;
    DropsTests(CourseDeletion.PurgedTo(w.db, oid, 4), pid);
  }

  lemma Erases(w: World, oid: nat, pid: nat)
    requires oid in w.db.offerings
    ensures Comes(Wiped(w.db, oid, pid), Cleaner(w, oid, pid, Erase), 0, Emptied(w.db, oid, pid), Cleaner(w, oid, pid, Free))
  {
    hide OfferingSids, OfferingPids, StagedPids, Wiped, Shared, Exec;
    DropsProblem(Wiped(w.db, oid, pid), pid);
  }

  lemma TakesProblem(w: World, db: Db, oid: nat, pid: nat)
    requires oid in w.db.offerings
    ensures Moves(Deletion(w, db, Cleaner(w, oid, pid, Want), Entry(w, oid), map[]),
                  Deletion(w, db, Cleaner(w, oid, pid, Count), Entry(w, oid)[ProblemLock(pid) := w.nextTid], map[]))
  {
    hide Moves, OfferingSids, OfferingPids, StagedPids;
    var k, n := Cleaner(w, oid, pid, Want), Cleaner(w, oid, pid, Count);
    var x := Deletion(w, db, k, Entry(w, oid), map[]);
    TakesLock(x, w.nextTid, Delete(k));
    assert x.tasks[w.nextTid := Delete(n)] == map[w.nextTid := Delete(n)];
  }

  lemma NoMarks(w: World, oid: nat, pid: nat, at: CleanPc)
    requires oid in w.db.offerings
    ensures DyingAfter(map[], w.nextTid, DeleteStmt(Cleaner(w, oid, pid, at))) == map[]
    ensures DyingAfter(map[], w.nextTid, DeleteStmt(Reader(w, oid, DeletePc.Cleaning, DropSolutions))) == map[]
  {
  }

  lemma CutAfterErasure(w: World, oid: nat, pid: nat) returns (v: World)
    requires AtRest(w) && !CourseDeletion.Busy(w.db, oid) && Erased(w.db, oid, pid)
    ensures Leads(w, v, 13) && v.db == Emptied(w.db, oid, pid)
  {
    hide Leads, Comes, AtRest, DyingAfter, DeleteStmt, Deletion, Reader, Cleaner, Moves, Emptied, Wiped, CourseDeletion.PurgedTo,
      CourseDeletion.Busy, CourseDeletion.Orphans;
    PurgesAll(w, oid);
    Chooses(w, oid, pid);
    Counts(w, oid, pid);
    Wipes(w, oid, pid);
    Erases(w, oid, pid);
    var d, e, f := CourseDeletion.PurgedTo(w.db, oid, 4), Wiped(w.db, oid, pid), Emptied(w.db, oid, pid);
    var k, locks := Reader(w, oid, DeletePc.Cleaning, DropSolutions), Entry(w, oid)[ProblemLock(pid) := w.nextTid];
    NoMarks(w, oid, pid, Want);
    Proceeds(w, d, k, pid, d, Cleaner(w, oid, pid, Want), Entry(w, oid), map[], map[], 7);
    TakesProblem(w, d, oid, pid);
    Then(w, Deletion(w, d, Cleaner(w, oid, pid, Want), Entry(w, oid), map[]), Deletion(w, d, Cleaner(w, oid, pid, Count), locks, map[]), 8);
    NoMarks(w, oid, pid, Count);
    Proceeds(w, d, Cleaner(w, oid, pid, Count), 0, d, Cleaner(w, oid, pid, Wipe), locks, map[], map[], 9);
    NoMarks(w, oid, pid, Wipe);
    Proceeds(w, d, Cleaner(w, oid, pid, Wipe), 0, e, Cleaner(w, oid, pid, Erase), locks, map[], map[], 10);
    NoMarks(w, oid, pid, Erase);
    Proceeds(w, e, Cleaner(w, oid, pid, Erase), 0, f, Cleaner(w, oid, pid, Free), locks, map[], map[], 11);
    v := Ends(w, f, Cleaner(w, oid, pid, Free), locks);
  }

  lemma Ends(w: World, db: Db, k: DeleteTask, locks: map<Lock, nat>) returns (v: World)
    requires Leads(w, Deletion(w, db, k, locks, map[]), 12)
    ensures Leads(w, v, 13) && v.db == db
  {
    hide Leads, Moves;
    var x := Deletion(w, db, k, locks, map[]);
    Stops(x, w.nextTid);
    v := Act(x, Stop(w.nextTid));
    Then(w, x, v, 12);
  }

  /**
   From every state at rest in which a problem that weighs something is known to its offering alone, a deletion of the
   offering that stops once it has erased the problem makes the progress page and the export disagree, for every student.
   */
  lemma ErasedProblemDiffers(w: World, waived: set<nat>, bid: nat, l: nat, user: string) returns (run: seq<World>)
    requires AtRest(w) && Handed(w.db) && bid in w.db.batches && l in Grading.LinksOf(w.db, bid) && Grading.Weight(w.db, waived, l) > 0
    requires !CourseDeletion.Busy(w.db, w.db.batches[bid].oid) && Erased(w.db, w.db.batches[bid].oid, w.db.links[l].pid)
    ensures IsRun(run) && |run| == 14 && run[0] == w
    ensures var db, oid := run[13].db, w.db.batches[bid].oid;
      && bid in db.batches && db.batches[bid].oid == oid && oid in db.offerings
      && Grading.ProgressTotals(db, waived, oid, bid, user) != Grading.ExportTotals(db, waived, oid, bid, user)
  {
    hide Leads, AtRest, IsRun, CourseDeletion.Orphans, CourseDeletion.Busy, Grading.ProgressTotals, Grading.ExportTotals;
    var oid, pid := w.db.batches[bid].oid, w.db.links[l].pid;
    var v := CutAfterErasure(w, oid, pid);
    run := RunOf(w, v, 13);
    NoSolutions(w.db, oid, bid, pid);
    Grading.MissingRowDiffers(Wiped(w.db, oid, pid), waived, oid, bid, user, l);
  }

  lemma NoSolutions(db: Db, oid: nat, bid: nat, pid: nat)
    requires Handed(db) && bid in db.batches && db.batches[bid].oid == oid
    ensures Grading.Kept(Wiped(db, oid, pid), oid, bid)
  {
    assert forall x :: x in db.submissions ==> Matched(db, x);
  }
}
