/**
 A run in which the judge may pick up a solution without source. A removal is cut after it has dropped the source; the
 assignment stays, and an edit that replaces the problem queues its submissions again, this one among them.
 */
module Requeue {
  import opened Values
  import opened Tables
  import opened Machine
  import opened Locks
  import opened Runs
  import opened Sources

  // ---------------------------------------------------------------- the tables

  const TEST: Case := Case("1", "2")
  const OLD: Problem := Problem(Authored(1, "sum"), "add", [TEST], true, 1, 1)
  const NEW: Problem := Problem(Authored(2, "sum"), "add twice", [TEST], false, 0, 0)
  const ITEM: Item := Item("sum", "add twice", [TEST], 10000, Some(1))

  /** One published assignment of one problem, with one accepted submission. */
  const FIRST: Db := Db(
    {0}, map[0 := Offering(0, Active)], {(0, "ann")}, map[1 := Batch(0, 1, Published, Some(1), None)],
    map[1 := Link(1, 1, 1, 10000)], map[1 := Submission(0, 1, 1, "ann", true)], map[1 := Draft(Some(0), true, Some(1))], map[],
    map[1 := OLD], map[1 := [TEST]], map[1 := Solution(1, "ann", ACCEPTED, true)], {1}, {1}, map[], 2, 2, 2, 2, 2, map[1 := Some(0)])

  const CLOSED: Db := FIRST.(batches := map[1 := Batch(0, 1, Closed, Some(1), None)])
  const TORN: Db := CLOSED.(code := {})
  const KEYED: Db := TORN.(nextKey := 3)
  const PLACED: Db := KEYED.(problems := map[1 := OLD, 2 := NEW], nextPid := 3)
  const CLEARED: Db := PLACED.(tests := map[1 := [TEST], 2 := []])
  const TESTED: Db := PLACED.(tests := map[1 := [TEST], 2 := [TEST]])
  const MOVED: Db := TESTED.(solutions := map[1 := Solution(2, "ann", SAVING, true)])
  const SHOWN: Db := MOVED.(problems := map[1 := OLD, 2 := NEW.(visible := true)])
  const RELINKED: Db := SHOWN.(
    links := map[2 := Link(1, 2, 1, 10000)], nextBp := 3, submissions := map[1 := Submission(0, 1, 2, "ann", true)])
  const WIPED: Db := RELINKED.(tests := map[2 := [TEST]])
  const ERASED: Db := WIPED.(problems := map[2 := NEW.(visible := true)])
  const QUEUED: Db := ERASED.(solutions := map[1 := Solution(2, "ann", 0, true)])

  const ENTRY: map<Lock, nat> := map[OfferingLock(0) := 0]
  const AGAIN: map<Lock, nat> := map[OfferingLock(0) := 1]
  const BOTH: map<Lock, nat> := map[OfferingLock(0) := 1, ProblemLock(1) := 1]

  const START: World := World(FIRST, map[], map[], 0, map[], map[], {})

  // ---------------------------------------------------------------- the removal

  function Remover(pc: RemovePc, purge: Purge, clean: Clean): RemoveTask { RemoveTask(pc, false, 0, None, {}, 1, purge, clean) }

  function Removal(db: Db, r: RemoveTask, locks: map<Lock, nat>, dying: map<nat, nat>): World {
    World(db, map[0 := Remove(r)], locks, 1, map[], dying, {})
  }

  ghost predicate RemovalDoes(db: Db, r: RemoveTask, d: Db, next: RemoveTask) {
    Working(Remove(r)) && Picks(Remove(r), 0) && Exec(db, RemoveStmt(r)) == d && RemoveNext(db, r, 0) == next
  }

  lemma Removes(db: Db, r: RemoveTask, d: Db, next: RemoveTask, n: nat)
    requires Leads(START, Removal(db, r, ENTRY, map[]), n) && RemovalDoes(db, r, d, next)
    ensures Leads(START, Removal(d, next, ENTRY, DyingAfter(map[], 0, RemoveStmt(r))), n + 1)
  {
    var x := Removal(db, r, ENTRY, map[]);
    hide Leads, Moves, Exec, RemoveNext, RemoveStmt, Wants, Frees, PhaseOf, DyingAfter;
    WorkMoves(x, 0, Remove(r), 0);
    assert x.tasks[0 := Remove(next)] == map[0 := Remove(next)];
    Then(START, x, Removal(d, next, ENTRY, DyingAfter(map[], 0, RemoveStmt(r))), n);
  }

  const PURGING: Purge := Purge(DropCode, {1})
  const CLEANING: Clean := Clean(Choose, 0, {1})

  lemma RemovalEnters()
    ensures Leads(START, Removal(FIRST, Remover(RemovePc.Inside, NO_PURGE, NO_CLEAN), ENTRY, map[]), 2)
  {
    var r := Remover(RemovePc.WantOffering, NO_PURGE, NO_CLEAN);
    Starts(START, RemoveBatch(1));
    assert START.tasks[0 := Remove(r)] == map[0 := Remove(r)];
    assert Leads(START, START, 0);
    hide Leads, Moves;
    var x := Removal(FIRST, r, map[], map[]);
    Then(START, START, x, 0);
    TakesLock(x, 0, Remove(r));
    assert x.tasks[0 := Remove(r.(pc := RemovePc.Inside))] == map[0 := Remove(r.(pc := RemovePc.Inside))];
    Then(START, x, Removal(FIRST, r.(pc := RemovePc.Inside), ENTRY, map[]), 1);
  }

  lemma RemovalBegins()
    ensures RemovalDoes(FIRST, Remover(RemovePc.Inside, NO_PURGE, NO_CLEAN), FIRST, Remover(RemovePc.Close, PURGING, CLEANING))
  {
    assert BatchSids(FIRST, 1) == {1};
    assert LinkedPids(FIRST, 1) == {1} by {
      assert FIRST.links[1].pid == 1;
    }
  }

  lemma RemovalCloses()
    ensures RemovalDoes(FIRST, Remover(RemovePc.Close, PURGING, CLEANING), CLOSED, Remover(RemovePc.Purging, PURGING, CLEANING))
  {
    hide BatchSids, LinkedPids, DraftBids, Idle;
  }

  lemma RemovalDrops()
    ensures RemovalDoes(CLOSED, Remover(RemovePc.Purging, PURGING, CLEANING),
                        TORN, Remover(RemovePc.Purging, Purge(DropUserCode, {1}), CLEANING))
  {
    hide BatchSids, LinkedPids, DraftBids, Idle;
    assert FIRST.code - {1} == {};
  }

  /** Only the statement that drops the source marks a deletion as begun. */
  lemma RemovalMarks()
    ensures DyingAfter(map[], 0, RemoveStmt(Remover(RemovePc.Inside, NO_PURGE, NO_CLEAN))) == map[]
    ensures DyingAfter(map[], 0, RemoveStmt(Remover(RemovePc.Close, PURGING, CLEANING))) == map[]
    ensures DyingAfter(map[], 0, RemoveStmt(Remover(RemovePc.Purging, PURGING, CLEANING))) == map[1 := 0]
  {
    assert DyingAfter(map[], 0, DropCodes({1})) == map[1 := 0];
  }

  /** The process is gone between the two halves of the source. */
  lemma RemovalCut()
    ensures Leads(START, World(TORN, map[], map[], 1, map[], map[], {1}), 6)
  {
    hide Leads, RemovalDoes, Moves, Exec, DyingAfter, RemoveStmt;
    RemovalEnters();
    RemovalMarks();
    RemovalBegins();
    RemovalCloses();
    RemovalDrops();
    Removes(FIRST, Remover(RemovePc.Inside, NO_PURGE, NO_CLEAN), FIRST, Remover(RemovePc.Close, PURGING, CLEANING), 2);
    Removes(FIRST, Remover(RemovePc.Close, PURGING, CLEANING), CLOSED, Remover(RemovePc.Purging, PURGING, CLEANING), 3);
    Removes(CLOSED, Remover(RemovePc.Purging, PURGING, CLEANING), TORN, Remover(RemovePc.Purging, Purge(DropUserCode, {1}), CLEANING), 4);
    RemovalGone();
    Then(START, Removal(TORN, Remover(RemovePc.Purging, Purge(DropUserCode, {1}), CLEANING), ENTRY, map[1 := 0]),
      World(TORN, map[], map[], 1, map[], map[], {1}), 5);
  }

  lemma RemovalGone()
    ensures Moves(Removal(TORN, Remover(RemovePc.Purging, Purge(DropUserCode, {1}), CLEANING), ENTRY, map[1 := 0]),
                  World(TORN, map[], map[], 1, map[], map[], {1}))
  {
    hide Moves;
    var x := Removal(TORN, Remover(RemovePc.Purging, Purge(DropUserCode, {1}), CLEANING), ENTRY, map[1 := 0]);
    Stops(x, 0);
    assert Tearing(map[1 := 0], 0) == {1};
    assert Act(x, Stop(0)) == World(TORN, map[], map[], 1, map[], map[], {1});
  }

  // ---------------------------------------------------------------- the edit

  function Editor(pc: EditPc, sync: Sync, moves: set<nat>, rejudge: set<nat>, purge: Purge, clean: Clean): EditTask {
    EditTask(pc, 0, None, 1, Closed, sync, map[1 := 1], {}, moves, rejudge, purge, clean, false)
  }

  const ENTERING: EditTask := EditTask(EditPc.WantOffering, 0, None, 1, Closed, NoSync([ITEM]), map[], {}, {}, {}, NO_PURGE, NO_CLEAN, false)

  function Writer(at: SyncPc, j: nat, pid: nat): Sync { Sync(at, 2, [ITEM], 0, j, None, pid, []) }

  const DONE: Sync := Sync(Lookup, 2, [ITEM], 1, 1, None, 2, [2])
  const NOTHING: Purge := Purge(DropCode, {})
  const PURGED: Purge := Purge(DropSolutions, {})

  function Edition(db: Db, e: EditTask, locks: map<Lock, nat>, revisions: map<nat, nat>): World {
    World(db, map[1 := Edit(e)], locks, 2, revisions, map[], {1})
  }

  ghost predicate EditDoes(db: Db, e: EditTask, pick: nat, d: Db, next: EditTask) {
    && Working(Edit(e)) && Picks(Edit(e), pick) && Exec(db, EditStmt(db, e, pick)) == d && EditNext(db, e, pick) == next
    && (EditStmt(db, e, pick).DropCodes? ==> EditStmt(db, e, pick).sids == {})
  }

  lemma Edits(db: Db, e: EditTask, pick: nat, d: Db, next: EditTask, locks: map<Lock, nat>, before: map<nat, nat>, after: map<nat, nat>, n: nat)
    requires Leads(START, Edition(db, e, locks, before), n) && EditDoes(db, e, pick, d, next)
    requires after == RevisionsAfter(before, 1, Edit(e), Edit(next))
    ensures Leads(START, Edition(d, next, locks, after), n + 1)
  {
    var x := Edition(db, e, locks, before);
    hide Leads, Moves, Exec, EditNext, EditStmt, Wants, Frees, PhaseOf, Picks, RevisionsAfter;
    WorkMoves(x, 1, Edit(e), pick);
    assert x.tasks[1 := Edit(next)] == map[1 := Edit(next)];
    assert DyingAfter(map[], 1, EditStmt(db, e, pick)) == map[];
    Then(START, x, Edition(d, next, locks, after), n);
  }

  /** A step within the revision, under the offering lock alone. */
  lemma Goes(db: Db, e: EditTask, pick: nat, d: Db, next: EditTask, n: nat)
    requires Leads(START, Edition(db, e, AGAIN, map[2 := 1]), n) && EditDoes(db, e, pick, d, next)
    requires !e.pc.Inside? && !e.pc.Commit?
    ensures Leads(START, Edition(d, next, AGAIN, map[2 := 1]), n + 1)
  {
    hide Leads, EditDoes;
    Edits(db, e, pick, d, next, AGAIN, map[2 := 1], map[2 := 1], n);
  }

  lemma EditEnters()
    ensures Leads(START, Edition(TORN, ENTERING.(pc := EditPc.Inside), AGAIN, map[]), 8)
  {
    hide Leads;
    RemovalCut();
    var w := World(TORN, map[], map[], 1, map[], map[], {1});
    EditAcceptable();
    Starts(w, EditBatch(1, [ITEM]));
    hide Moves;
    assert w.tasks[1 := Edit(ENTERING)] == map[1 := Edit(ENTERING)];
    var x := Edition(TORN, ENTERING, map[], map[]);
    Then(START, w, x, 6);
    EditLocks(x);
    Then(START, x, Edition(TORN, ENTERING.(pc := EditPc.Inside), AGAIN, map[]), 7);
  }

  lemma EditAcceptable()
    ensures Acceptable(TORN, EditBatch(1, [ITEM])) && Fresh(TORN, EditBatch(1, [ITEM])) == Edit(ENTERING)
  {
  }

  lemma EditLocks(x: World)
    requires x == Edition(TORN, ENTERING, map[], map[])
    ensures Moves(x, Edition(TORN, ENTERING.(pc := EditPc.Inside), AGAIN, map[]))
  {
    hide Moves;
    TakesLock(x, 1, Edit(ENTERING));
    var next := ENTERING.(pc := EditPc.Inside);
    assert AfterLock(Edit(ENTERING)) == Edit(next) && Wants(Edit(ENTERING)) == Some(OfferingLock(0));
    assert x.tasks[1 := Edit(next)] == map[1 := Edit(next)] && x.locks[OfferingLock(0) := 1] == AGAIN;
  }

  lemma EditOpens()
    ensures EditDoes(TORN, ENTERING.(pc := EditPc.Inside), 0, KEYED, Editor(EditPc.Close, Writer(Lookup, 0, 0), {}, {}, NOTHING, CLEANING))
  {
    Allowed();
    Found();
    hide Revisable, SolutionPids, Dropped, Unchanged, Originals;
  }

  lemma Allowed()
    ensures Revisable(TORN, ENTERING.(pc := EditPc.Inside))
  {
    assert TORN.links[1].pid == 1 && 1 in Originals(TORN, 1);
    assert BatchSids(TORN, 1) == {1};
  }

  lemma Found()
    ensures SolutionPids(TORN, 1) == map[1 := 1] && Dropped(map[1 := 1], [ITEM]) == {} && Unchanged(TORN, [ITEM]) == {}
    ensures Originals(TORN, 1) == {1}
  {
    assert BatchSids(TORN, 1) == {1};
    assert ITEM in [ITEM] && Keeps([ITEM], 1);
    assert TORN.links[1].pid == 1;
  }

  lemma Begins()
    ensures var c, w := CLEANING, Writer(Lookup, 0, 0);
      && EditDoes(KEYED, Editor(EditPc.Close, w, {}, {}, NOTHING, c), 0, KEYED, Editor(EditPc.NextItem, w, {}, {}, NOTHING, c))
      && EditDoes(KEYED, Editor(EditPc.NextItem, w, {}, {}, NOTHING, c), 0, KEYED, Editor(EditPc.Writing, w, {}, {}, NOTHING, c))
  {
    hide Exec, Revisable, SolutionPids, Dropped, Unchanged, Originals, Slots, Synced;
    BeginsResult();
  }

  lemma BeginsResult()
    ensures Exec(KEYED, SetStatus(1, Closed)) == KEYED && Exec(KEYED, Skip) == KEYED
  {
    assert KEYED.batches[1 := KEYED.batches[1].(status := Closed)] == KEYED.batches;
  }

  lemma Looks()
    ensures EditDoes(KEYED, Editor(EditPc.Writing, Writer(Lookup, 0, 0), {}, {}, NOTHING, CLEANING), 0,
                     KEYED, Editor(EditPc.Writing, Writer(Row, 0, 0), {}, {}, NOTHING, CLEANING))
  {
    hide Revisable, SolutionPids, Dropped, Unchanged, Originals, Slots, Synced;
  }

  lemma Places()
    ensures EditDoes(KEYED, Editor(EditPc.Writing, Writer(Row, 0, 0), {}, {}, NOTHING, CLEANING), 0,
                     PLACED, Editor(EditPc.Writing, Writer(Clear, 0, 2), {}, {}, NOTHING, CLEANING))
  {
    hide Exec, Revisable, SolutionPids, Dropped, Unchanged, Originals, Slots, Synced;
    PlacesResult();
  }

  lemma PlacesResult()
    ensures Exec(KEYED, PutProblem(Authored(2, "sum"), "add twice", [TEST])) == PLACED
  {
    assert KEYED.problems[2 := NEW] == PLACED.problems;
  }

  lemma ClearsTests()
    ensures EditDoes(PLACED, Editor(EditPc.Writing, Writer(Clear, 0, 2), {}, {}, NOTHING, CLEANING), 0,
                     CLEARED, Editor(EditPc.Writing, Writer(SyncPc.Tests, 0, 2), {}, {}, NOTHING, CLEANING))
  {
    hide Exec, Revisable, SolutionPids, Dropped, Unchanged, Originals, Slots, Synced;
    ClearsTestsResult();
  }

  lemma ClearsTestsResult()
    ensures Exec(PLACED, EmptyTests(2)) == CLEARED
  {
    assert PLACED.tests[2 := []] == CLEARED.tests;
  }

  lemma WritesTest()
    ensures EditDoes(CLEARED, Editor(EditPc.Writing, Writer(SyncPc.Tests, 0, 2), {}, {}, NOTHING, CLEANING), 0,
                     TESTED, Editor(EditPc.Writing, Writer(SyncPc.Tests, 1, 2), {}, {}, NOTHING, CLEANING))
  {
    hide Exec, Revisable, SolutionPids, Dropped, Unchanged, Originals, Slots, Synced;
    WritesTestResult();
  }

  lemma WritesTestResult()
    ensures Exec(CLEARED, PutTest(2, TEST)) == TESTED
  {
    assert [] + [TEST] == [TEST];
    assert CLEARED.tests[2 := [TEST]] == TESTED.tests;
  }

  lemma Written()
    ensures Leads(START, Edition(TESTED, Editor(EditPc.Writing, Writer(SyncPc.Tests, 1, 2), {}, {}, NOTHING, CLEANING), AGAIN, map[2 := 1]), 15)
  {
    EditEnters();
    EditOpens();
    Begins();
    Looks();
    Places();
    ClearsTests();
    WritesTest();
    hide Leads, EditDoes, Editor;
    var w, c := Writer(Lookup, 0, 0), CLEANING;
    OpenedRevision();
    Edits(TORN, ENTERING.(pc := EditPc.Inside), 0, KEYED, Editor(EditPc.Close, w, {}, {}, NOTHING, c), AGAIN, map[], map[2 := 1], 8);
    Points(EditPc.Close, w, {}, {}, NOTHING, c);
    Points(EditPc.NextItem, w, {}, {}, NOTHING, c);
    Goes(KEYED, Editor(EditPc.Close, w, {}, {}, NOTHING, c), 0, KEYED, Editor(EditPc.NextItem, w, {}, {}, NOTHING, c), 9);
    Goes(KEYED, Editor(EditPc.NextItem, w, {}, {}, NOTHING, c), 0, KEYED, Editor(EditPc.Writing, w, {}, {}, NOTHING, c), 10);
    Points(EditPc.Writing, w, {}, {}, NOTHING, c);
    Points(EditPc.Writing, Writer(Row, 0, 0), {}, {}, NOTHING, c);
    Points(EditPc.Writing, Writer(Clear, 0, 2), {}, {}, NOTHING, c);
    Points(EditPc.Writing, Writer(SyncPc.Tests, 0, 2), {}, {}, NOTHING, c);
    Goes(KEYED, Editor(EditPc.Writing, w, {}, {}, NOTHING, c), 0, KEYED, Editor(EditPc.Writing, Writer(Row, 0, 0), {}, {}, NOTHING, c), 11);
    Goes(KEYED, Editor(EditPc.Writing, Writer(Row, 0, 0), {}, {}, NOTHING, c), 0,
      PLACED, Editor(EditPc.Writing, Writer(Clear, 0, 2), {}, {}, NOTHING, c), 12);
    Goes(PLACED, Editor(EditPc.Writing, Writer(Clear, 0, 2), {}, {}, NOTHING, c), 0,
      CLEARED, Editor(EditPc.Writing, Writer(SyncPc.Tests, 0, 2), {}, {}, NOTHING, c), 13);
    Goes(CLEARED, Editor(EditPc.Writing, Writer(SyncPc.Tests, 0, 2), {}, {}, NOTHING, c), 0,
      TESTED, Editor(EditPc.Writing, Writer(SyncPc.Tests, 1, 2), {}, {}, NOTHING, c), 14);
  }

  lemma Points(pc: EditPc, sync: Sync, moves: set<nat>, rejudge: set<nat>, purge: Purge, clean: Clean)
    ensures Editor(pc, sync, moves, rejudge, purge, clean).pc == pc
  {
  }

  lemma OpenedRevision()
    ensures RevisionsAfter(map[], 1, Edit(ENTERING.(pc := EditPc.Inside)),
                           Edit(Editor(EditPc.Close, Writer(Lookup, 0, 0), {}, {}, NOTHING, CLEANING)))
         == map[2 := 1]
  {
  }

  // The submission moves to the new problem.

  lemma CollectsMovers()
    ensures EditDoes(TESTED, Editor(EditPc.Writing, Writer(SyncPc.Tests, 1, 2), {}, {}, NOTHING, CLEANING), 0,
                     TESTED, Editor(Repointing, Writer(SyncPc.Tests, 1, 2), {1}, {}, NOTHING, CLEANING))
  {
    hide Revisable, SolutionPids, Dropped, Unchanged, Originals, Slots, Synced;
    assert Movers(map[1 := 1], Some(1)) == {1};
  }

  lemma MovesOver()
    ensures EditDoes(TESTED, Editor(Repointing, Writer(SyncPc.Tests, 1, 2), {1}, {}, NOTHING, CLEANING), 1,
                     MOVED, Editor(Repointing, Writer(SyncPc.Tests, 1, 2), {}, {1}, NOTHING, CLEANING))
  {
    hide Exec, Revisable, SolutionPids, Dropped, Unchanged, Originals, Slots, Synced;
    MovesOverResult();
    assert {1} - {1} == {} && {} + {1} == {1};
  }

  lemma MovesOverResult()
    ensures Exec(TESTED, MoveSolution(1, 2)) == MOVED
  {
    assert Repointed(TESTED, 1, 2).solutions == MOVED.solutions;
  }

  lemma AllMoved()
    ensures EditDoes(MOVED, Editor(Repointing, Writer(SyncPc.Tests, 1, 2), {}, {1}, NOTHING, CLEANING), 0,
                     MOVED, Editor(Reveal, Writer(SyncPc.Tests, 1, 2), {}, {1}, NOTHING, CLEANING))
  {
    hide Revisable, SolutionPids, Dropped, Unchanged, Originals, Slots, Synced;
  }

  lemma Reveals()
    ensures EditDoes(MOVED, Editor(Reveal, Writer(SyncPc.Tests, 1, 2), {}, {1}, NOTHING, CLEANING), 0,
                     SHOWN, Editor(EditPc.NextItem, DONE, {}, {1}, NOTHING, CLEANING))
  {
    hide Exec, Revisable, SolutionPids, Dropped, Unchanged, Originals, Slots;
    RevealsResult();
    assert [] + [2] == [2];
  }

  lemma RevealsResult()
    ensures Exec(MOVED, ShowAllOf({2})) == SHOWN
  {
    assert Show(MOVED, {2}).problems == SHOWN.problems;
  }

  lemma AllWritten()
    ensures EditDoes(SHOWN, Editor(EditPc.NextItem, DONE, {}, {1}, NOTHING, CLEANING), 0,
                     SHOWN, Editor(EditPc.Purging, DONE, {}, {1}, NOTHING, CLEANING))
  {
    hide Revisable, SolutionPids, Dropped, Unchanged, Originals, Slots, Synced;
  }

  lemma PurgesCode()
    ensures EditDoes(SHOWN, Editor(EditPc.Purging, DONE, {}, {1}, NOTHING, CLEANING), 0,
                     SHOWN, Editor(EditPc.Purging, DONE, {}, {1}, Purge(DropUserCode, {}), CLEANING))
  {
    hide Exec, Revisable, SolutionPids, Dropped, Unchanged, Originals, Slots, Synced;
    PurgesCodeResult();
  }

  lemma PurgesCodeResult()
    ensures Exec(SHOWN, DropCodes({})) == SHOWN
  {
    assert SHOWN.code - {} == SHOWN.code;
  }

  lemma PurgesUserCode()
    ensures EditDoes(SHOWN, Editor(EditPc.Purging, DONE, {}, {1}, Purge(DropUserCode, {}), CLEANING), 0,
                     SHOWN, Editor(EditPc.Purging, DONE, {}, {1}, PURGED, CLEANING))
  {
    hide Exec, Revisable, SolutionPids, Dropped, Unchanged, Originals, Slots, Synced;
    PurgesUserCodeResult();
  }

  lemma PurgesUserCodeResult()
    ensures Exec(SHOWN, DropUserCodes({})) == SHOWN
  {
    assert SHOWN.userCode - {} == SHOWN.userCode;
  }

  lemma PurgesSolutions()
    ensures EditDoes(SHOWN, Editor(EditPc.Purging, DONE, {}, {1}, PURGED, CLEANING), 0,
                     SHOWN, Editor(EditPc.Commit, DONE, {}, {1}, PURGED, CLEANING))
  {
    hide Exec, Revisable, SolutionPids, Dropped, Unchanged, Originals, Slots, Synced;
    PurgesSolutionsResult();
  }

  lemma PurgesSolutionsResult()
    ensures Exec(SHOWN, DropSolutionRows({})) == SHOWN
  {
    assert SHOWN.solutions - {} == SHOWN.solutions;
  }

  lemma Purged()
    ensures Leads(START, Edition(SHOWN, Editor(EditPc.Commit, DONE, {}, {1}, PURGED, CLEANING), AGAIN, map[2 := 1]), 23)
  {
    Written();
    CollectsMovers();
    MovesOver();
    AllMoved();
    Reveals();
    AllWritten();
    PurgesCode();
    PurgesUserCode();
    PurgesSolutions();
    hide Leads, EditDoes, Editor;
    var w, c := Writer(SyncPc.Tests, 1, 2), CLEANING;
    Points(EditPc.Writing, w, {}, {}, NOTHING, c);
    Points(Repointing, w, {1}, {}, NOTHING, c);
    Points(Repointing, w, {}, {1}, NOTHING, c);
    Points(Reveal, w, {}, {1}, NOTHING, c);
    Points(EditPc.NextItem, DONE, {}, {1}, NOTHING, c);
    Points(EditPc.Purging, DONE, {}, {1}, NOTHING, c);
    Points(EditPc.Purging, DONE, {}, {1}, Purge(DropUserCode, {}), c);
    Points(EditPc.Purging, DONE, {}, {1}, PURGED, c);
    Goes(TESTED, Editor(EditPc.Writing, w, {}, {}, NOTHING, c), 0, TESTED, Editor(Repointing, w, {1}, {}, NOTHING, c), 15);
    Goes(TESTED, Editor(Repointing, w, {1}, {}, NOTHING, c), 1, MOVED, Editor(Repointing, w, {}, {1}, NOTHING, c), 16);
    Goes(MOVED, Editor(Repointing, w, {}, {1}, NOTHING, c), 0, MOVED, Editor(Reveal, w, {}, {1}, NOTHING, c), 17);
    Goes(MOVED, Editor(Reveal, w, {}, {1}, NOTHING, c), 0, SHOWN, Editor(EditPc.NextItem, DONE, {}, {1}, NOTHING, c), 18);
    Goes(SHOWN, Editor(EditPc.NextItem, DONE, {}, {1}, NOTHING, c), 0, SHOWN, Editor(EditPc.Purging, DONE, {}, {1}, NOTHING, c), 19);
    Goes(SHOWN, Editor(EditPc.Purging, DONE, {}, {1}, NOTHING, c), 0,
      SHOWN, Editor(EditPc.Purging, DONE, {}, {1}, Purge(DropUserCode, {}), c), 20);
    Goes(SHOWN, Editor(EditPc.Purging, DONE, {}, {1}, Purge(DropUserCode, {}), c), 0,
      SHOWN, Editor(EditPc.Purging, DONE, {}, {1}, PURGED, c), 21);
    Goes(SHOWN, Editor(EditPc.Purging, DONE, {}, {1}, PURGED, c), 0,
      SHOWN, Editor(EditPc.Commit, DONE, {}, {1}, PURGED, c), 22);
  }

  // The links are rebuilt, the old problem is erased, and the submission is released.

  lemma Commits()
    ensures EditDoes(SHOWN, Editor(EditPc.Commit, DONE, {}, {1}, PURGED, CLEANING), 0,
                     RELINKED, Editor(EditPc.Cleaning, DONE, {}, {1}, PURGED, CLEANING))
  {
    hide Exec, Revisable, SolutionPids, Dropped, Unchanged, Originals, Synced;
    CommitResult();
  }

  lemma ClosedRevision()
    ensures RevisionsAfter(map[2 := 1], 1, Edit(Editor(EditPc.Commit, DONE, {}, {1}, PURGED, CLEANING)),
                           Edit(Editor(EditPc.Cleaning, DONE, {}, {1}, PURGED, CLEANING))) == map[]
  {
  }

  lemma CommitResult()
    ensures Exec(SHOWN, EditTx(1, {}, Slots(DONE), Closed)) == RELINKED
  {
    hide Relinked, Repaired, WithStatus;
    assert Slots(DONE) == [Slot(2, 10000)];
    assert SHOWN.(submissions := SHOWN.submissions - {}) == SHOWN;
    OneLink(SHOWN, 1, [Slot(2, 10000)]);
    RepairResult(SHOWN.(links := map[2 := Link(1, 2, 1, 10000)], nextBp := 3));
    SameStatus(RELINKED, 1);
  }

  lemma SameStatus(db: Db, bid: nat)
    requires bid in db.batches
    ensures WithStatus(db, bid, db.batches[bid].status) == db
  {
    assert db.batches[bid := db.batches[bid].(status := db.batches[bid].status)] == db.batches;
  }

  lemma RepairResult(y: Db)
    requires y == SHOWN.(links := map[2 := Link(1, 2, 1, 10000)], nextBp := 3)
    ensures Repaired(y, 1) == RELINKED
  {
    assert Linked(y, 1, 2) by {
      assert y.links[2].bid == 1;
    }
    assert Repaired(y, 1).submissions == RELINKED.submissions;
  }

  function Cleaner(at: CleanPc, todo: set<nat>): EditTask {
    Editor(EditPc.Cleaning, DONE, {}, {1}, PURGED, Clean(at, if todo == {} then 1 else 0, todo))
  }

  lemma Chooses()
    ensures EditDoes(RELINKED, Cleaner(Choose, {1}), 1,
                     RELINKED, Cleaner(Want, {}))
  {
    hide Revisable, SolutionPids, Dropped, Unchanged, Originals, Slots, Synced, Movers;
    assert {1} - {1} == {};
  }

  lemma Counts()
    ensures EditDoes(RELINKED, Cleaner(Count, {}), 0,
                     RELINKED, Cleaner(Wipe, {}))
  {
    hide Referenced, Revisable, SolutionPids, Dropped, Unchanged, Originals, Slots, Synced, Movers;
    Unreferenced();
  }

  lemma Unreferenced()
    ensures !Referenced(RELINKED, 1)
  {
    assert forall l :: l in RELINKED.links ==> RELINKED.links[l].pid == 2;
  }

  lemma Wipes()
    ensures EditDoes(RELINKED, Cleaner(Wipe, {}), 0,
                     WIPED, Cleaner(Erase, {}))
  {
    hide Exec, Revisable, SolutionPids, Dropped, Unchanged, Originals, Slots, Synced, Movers;
    WipesResult();
  }

  lemma WipesResult()
    ensures Exec(RELINKED, DropTests(1)) == WIPED
  {
    hide *;
    DropsTests(RELINKED, 1);
    TestsLeft();
  }

  lemma TestsLeft()
    ensures RELINKED.(tests := RELINKED.tests - {1}) == WIPED
  {
    assert map[1 := [TEST], 2 := [TEST]] - {1} == map[2 := [TEST]];
  }

  lemma Erases()
    ensures EditDoes(WIPED, Cleaner(Erase, {}), 0,
                     ERASED, Cleaner(Free, {}))
  {
    hide Exec, Revisable, SolutionPids, Dropped, Unchanged, Originals, Slots, Synced, Movers;
    ErasesResult();
  }

  lemma ErasesResult()
    ensures Exec(WIPED, DropProblem(1)) == ERASED
  {
    hide *;
    DropsProblem(WIPED, 1);
    ProblemsLeft();
  }

  lemma ProblemsLeft()
    ensures WIPED.(problems := WIPED.problems - {1}) == ERASED
  {
    assert map[1 := OLD, 2 := NEW.(visible := true)] - {1} == map[2 := NEW.(visible := true)];
  }

  lemma AllCleaned()
    ensures EditDoes(ERASED, Cleaner(Choose, {}), 0,
                     ERASED, Editor(Rejudge, DONE, {}, {1}, PURGED, Clean(Choose, 1, {})))
  {
    hide Revisable, SolutionPids, Dropped, Unchanged, Originals, Slots, Synced, Movers;
  }

  lemma Releases()
    ensures EditDoes(ERASED, Editor(Rejudge, DONE, {}, {1}, PURGED, Clean(Choose, 1, {})), 0,
                     QUEUED, Editor(EditPc.Cleaning, DONE, {}, {1}, PURGED, Clean(Choose, 0, {2})).(second := true))
  {
    hide Exec, Revisable, SolutionPids, Dropped, Unchanged, Originals, Slots, Synced, Movers;
    ReleasesResult();
    assert PidSet([2]) == {2} by {
      assert 2 in [2];
    }
  }

  lemma ReleasesResult()
    ensures Exec(ERASED, ReleaseRows({1})) == QUEUED
  {
    assert Released(ERASED, {1}).solutions == QUEUED.solutions;
  }

  lemma TakesProblem()
    ensures Moves(Edition(RELINKED, Cleaner(Want, {}), AGAIN, map[]), Edition(RELINKED, Cleaner(Count, {}), BOTH, map[]))
  {
    hide Moves;
    var x := Edition(RELINKED, Cleaner(Want, {}), AGAIN, map[]);
    TakesLock(x, 1, Edit(Cleaner(Want, {})));
    assert x.tasks[1 := Edit(Cleaner(Count, {}))] == map[1 := Edit(Cleaner(Count, {}))] && x.locks[ProblemLock(1) := 1] == BOTH;
  }

  lemma FreesProblem()
    ensures Moves(Edition(ERASED, Cleaner(Free, {}), BOTH, map[]), Edition(ERASED, Cleaner(Choose, {}), AGAIN, map[]))
  {
    hide Moves;
    var x := Edition(ERASED, Cleaner(Free, {}), BOTH, map[]);
    FreesLock(x, 1, Edit(Cleaner(Free, {})));
    assert x.tasks[1 := Edit(Cleaner(Choose, {}))] == map[1 := Edit(Cleaner(Choose, {}))] && x.locks - {ProblemLock(1)} == AGAIN;
  }

  lemma Cleans(db: Db, e: EditTask, pick: nat, d: Db, next: EditTask, locks: map<Lock, nat>, n: nat)
    requires Leads(START, Edition(db, e, locks, map[]), n) && EditDoes(db, e, pick, d, next)
    requires !e.pc.Inside? && !e.pc.Commit?
    ensures Leads(START, Edition(d, next, locks, map[]), n + 1)
  {
    hide Leads, EditDoes;
    Edits(db, e, pick, d, next, locks, map[], map[], n);
  }

  lemma Erased()
    ensures Leads(START, Edition(ERASED, Cleaner(Choose, {}), AGAIN, map[]), 30)
  {
    Purged();
    Commits();
    ClosedRevision();
    Chooses();
    Counts();
    Wipes();
    Erases();
    TakesProblem();
    FreesProblem();
    hide Leads, EditDoes, Moves, Edition, RevisionsAfter;
    Edits(SHOWN, Editor(EditPc.Commit, DONE, {}, {1}, PURGED, CLEANING), 0, RELINKED, Cleaner(Choose, {1}), AGAIN, map[2 := 1], map[], 23);
    Cleans(RELINKED, Cleaner(Choose, {1}), 1, RELINKED, Cleaner(Want, {}), AGAIN, 24);
    Then(START, Edition(RELINKED, Cleaner(Want, {}), AGAIN, map[]), Edition(RELINKED, Cleaner(Count, {}), BOTH, map[]), 25);
    Cleans(RELINKED, Cleaner(Count, {}), 0, RELINKED, Cleaner(Wipe, {}), BOTH, 26);
    Cleans(RELINKED, Cleaner(Wipe, {}), 0, WIPED, Cleaner(Erase, {}), BOTH, 27);
    Cleans(WIPED, Cleaner(Erase, {}), 0, ERASED, Cleaner(Free, {}), BOTH, 28);
    Then(START, Edition(ERASED, Cleaner(Free, {}), BOTH, map[]), Edition(ERASED, Cleaner(Choose, {}), AGAIN, map[]), 29);
  }

  /** So there are runs at whose end the judge may pick up a solution without source: the exception is a real one. */
  lemma SourcelessQueued() returns (run: seq<World>)
    ensures IsRun(run) && |run| == 33 && TwoPhaseOk(run[0])
    ensures var w := run[32]; 1 in w.db.solutions && Queued(w.db.solutions[1].result) && !Sourced(w.db, 1) && 1 in w.torn
  {
    Erased();
    AllCleaned();
    Releases();
    hide Leads, EditDoes, Edition;
    var rejudging := Editor(Rejudge, DONE, {}, {1}, PURGED, Clean(Choose, 1, {}));
    var rest := Editor(EditPc.Cleaning, DONE, {}, {1}, PURGED, Clean(Choose, 0, {2})).(second := true);
    Cleans(ERASED, Cleaner(Choose, {}), 0, ERASED, rejudging, AGAIN, 30);
    Cleans(ERASED, rejudging, 0, QUEUED, rest, AGAIN, 31);
    run := RunOf(START, Edition(QUEUED, rest, AGAIN, map[]), 32);
    StartsSound();
    EndsTorn(rest);
  }

  lemma EndsTorn(e: EditTask)
    ensures var w := Edition(QUEUED, e, AGAIN, map[]); w.db == QUEUED && w.torn == {1}
  {
  }

  lemma StartsSound()
    ensures AtRest(START) && TwoPhaseOk(START)
  {
  }
}
