/**
 A run that breaks what students see. A deployment publishes its fresh draft without the draft's publish lock, so that a
 teacher may start to publish the same draft meanwhile. That request has read the draft as unpublished; once the
 deployment is done, it goes on and empties the tests of a problem that students see.
 */
module Overlap {
  import opened Values
  import opened Tables
  import opened Machine
  import Integrity
  import opened Runs
  import opened Visibility
  import opened VisibleRuns

  // ---------------------------------------------------------------- the two requests

  const TEST: Case := Case("1", "2")
  const ITEM: Item := Item("sum", "add", [TEST], 10000, None)

  /** An active offering and nothing else. */
  const EMPTY: Db := Db(
    {0}, map[0 := Offering(0, Active)], {}, map[], map[], map[], map[], map[], map[], map[], map[], {}, {}, map[], 1, 1, 1, 1, 1, map[])

  function Writer(at: SyncPc, j: nat, found: Option<nat>, pid: nat): Sync { Sync(at, 1, [ITEM], 0, j, found, pid, []) }

  function Deploying(pc: PublishPc, bid: nat, sync: Sync): PublishTask { PublishTask(pc, false, 0, None, true, [], bid, sync) }

  function Publishing(pc: PublishPc, bid: nat, sync: Sync): PublishTask { PublishTask(pc, false, 0, Some(1), false, [], bid, sync) }

  function State(db: Db, p: PublishTask, q: PublishTask, locks: map<Lock, nat>): World {
    World(db, map[0 := Publish(p), 1 := Publish(q)], locks, 2, map[], map[], {})
  }

  const START: World := World(EMPTY, map[], map[], 0, map[], map[], {})

  const DRAFTED: Db := EMPTY.(drafts := map[1 := Draft(Some(0), false, None)], home := map[1 := Some(0)], nextKey := 2)
  const STAGED: Db := DRAFTED.(batches := map[1 := Batch(0, 1, Staged, Some(1), None)], nextBid := 2)
  const PLACED: Db := STAGED.(problems := map[1 := Problem(Authored(1, "sum"), "add", [TEST], false, 0, 0)], nextPid := 2)
  const CLEARED: Db := PLACED.(tests := map[1 := []])
  const TESTED: Db := PLACED.(tests := map[1 := [TEST]])
  const SHOWN: Db := TESTED.(problems := map[1 := Problem(Authored(1, "sum"), "add", [TEST], true, 0, 0)])
  const PUBLISHED: Db := SHOWN.(
    links := map[1 := Link(1, 1, 1, 10000)], nextBp := 2, batches := map[1 := Batch(0, 1, Published, Some(1), None)],
    drafts := map[1 := Draft(Some(0), true, Some(1))])
  const BROKEN: Db := PUBLISHED.(tests := map[1 := []])

  const BOTH: map<Lock, nat> := map[OfferingLock(0) := 0, PublishLock(1) := 1]

  // ---------------------------------------------------------------- steps of a publication

  /** Between its locks a publication does what its next state and its statement say. */
  lemma PublishMoves(w: World, t: nat, p: PublishTask)
    requires t in w.tasks && w.tasks[t] == Publish(p) && (PhaseOf(Publish(p)).Within? || PhaseOf(Publish(p)).Outside?)
    ensures Moves(w, w.(db := Exec(w.db, PublishStmt(p)), tasks := w.tasks[t := Publish(PublishNext(w.db, p))]))
  {
    assert Enabled(w, Step(t, 0));
    hide Exec, PublishStmt, PublishNext;
    var v := Act(w, Step(t, 0));
    assert v.dying == w.dying;
  }

  /** The teacher's request, once it has seen the draft unpublished. */
  const WAITING: PublishTask := Publishing(PublishPc.WantOffering, 0, Writer(Lookup, 0, None, 0))

  /** The deployment at work, the teacher's request waiting for the offering. */
  function Deployment(db: Db, p: PublishTask): World { State(db, p, WAITING, BOTH) }

  /** The deployment done with the offering, the teacher's request at work. */
  function Takeover(db: Db, q: PublishTask): World {
    State(db, Deploying(NextOffering, 1, Writer(Lookup, 1, None, 1).(i := 1, pids := [1])), q, map[OfferingLock(0) := 1, PublishLock(1) := 1])
  }

  /** What one step of a publication comes to. */
  ghost predicate Does(db: Db, p: PublishTask, d: Db, next: PublishTask) {
    PhaseOf(Publish(p)).Within? && Exec(db, PublishStmt(p)) == d && PublishNext(db, p) == next && !next.pc.Leave?
  }

  lemma Deploys(n: nat, db: Db, d: Db, p: PublishTask, next: PublishTask)
    requires Leads(START, Deployment(db, p), n)
    requires Does(db, p, d, next)
    ensures Leads(START, Deployment(d, next), n + 1)
  {
    hide Exec, PublishStmt, PublishNext, Moves, Leads;
    var w := Deployment(db, p);
    PublishMoves(w, 0, p);
    assert w.tasks[0 := Publish(next)] == Deployment(d, next).tasks;
    Then(START, w, Deployment(d, next), n);
  }

  lemma Republishes(n: nat, db: Db, d: Db, q: PublishTask, next: PublishTask)
    requires Leads(START, Takeover(db, q), n)
    requires Does(db, q, d, next)
    ensures Leads(START, Takeover(d, next), n + 1)
  {
    hide Exec, PublishStmt, PublishNext, Moves, Leads;
    var w := Takeover(db, q);
    PublishMoves(w, 1, q);
    assert w.tasks[1 := Publish(next)] == Takeover(d, next).tasks;
    Then(START, w, Takeover(d, next), n);
  }

  // ---------------------------------------------------------------- the run

  const DEPLOY: PublishTask := PublishTask(NextOffering, false, 0, None, true, [0], 0, NoSync([ITEM]))
  const PRESS: PublishTask := PublishTask(PublishPc.WantPublish, false, 0, Some(1), false, [], 0, NoSync([ITEM]))
  const DEPLOYING: PublishTask := Deploying(PublishPc.WantOffering, 0, Writer(Lookup, 0, None, 0))

  function Alone(db: Db, p: PublishTask, locks: map<Lock, nat>): World {
    World(db, map[0 := Publish(p)], locks, 1, map[], map[], {})
  }

  /** The deployment makes its draft and takes the offering. */
  lemma DeploymentStarts()
    ensures Leads(START, Alone(DRAFTED, DEPLOYING.(pc := PublishPc.Inside), map[OfferingLock(0) := 0]), 3)
  {
    var w1 := Alone(EMPTY, DEPLOY, map[]);
    var w2 := Alone(DRAFTED, DEPLOYING, map[]);
    var w3 := Alone(DRAFTED, DEPLOYING.(pc := PublishPc.Inside), map[OfferingLock(0) := 0]);
    assert Leads(START, START, 0);
    hide Leads, Moves;
    Requested(w1);
    Then(START, START, w1, 0);
    DraftMade(w1);
    Then(START, w1, w2, 1);
    DeploymentEnters(w2, w3);
    Then(START, w2, w3, 2);
  }

  lemma DeploymentEnters(w: World, v: World)
    requires w == Alone(DRAFTED, DEPLOYING, map[])
    requires v == Alone(DRAFTED, DEPLOYING.(pc := PublishPc.Inside), map[OfferingLock(0) := 0])
    ensures Moves(w, v)
  {
    hide Moves;
    TakesLock(w, 0, Publish(DEPLOYING));
    assert v.tasks == w.tasks[0 := Publish(DEPLOYING.(pc := PublishPc.Inside))];
  }

  lemma Requested(v: World)
    requires v == Alone(EMPTY, DEPLOY, map[])
    ensures Moves(START, v)
  {
    assert Enabled(START, Start(Job.Deploy(None, [0], [ITEM]))) && Act(START, Start(Job.Deploy(None, [0], [ITEM]))) == v;
  }

  lemma DraftMade(w: World)
    requires w == Alone(EMPTY, DEPLOY, map[])
    ensures Moves(w, Alone(DRAFTED, DEPLOYING, map[]))
  {
    PublishMoves(w, 0, DEPLOY);
    hide Moves;
    assert Exec(EMPTY, PublishStmt(DEPLOY)) == DRAFTED;
    assert PublishNext(EMPTY, DEPLOY) == DEPLOYING;
    assert w.tasks[0 := Publish(DEPLOYING)] == map[0 := Publish(DEPLOYING)];
  }

  /** Meanwhile the teacher presses the button. */
  lemma TeacherWaits()
    ensures Leads(START, Deployment(DRAFTED, DEPLOYING.(pc := PublishPc.Inside)), 6)
  {
    DeploymentStarts();
    hide Leads, Moves;
    var p, one := DEPLOYING.(pc := PublishPc.Inside), map[OfferingLock(0) := 0];
    var w3 := Alone(DRAFTED, p, one);
    var w4 := State(DRAFTED, p, PRESS, one);
    var w5 := State(DRAFTED, p, PRESS.(pc := PublishPc.Opened), BOTH);
    Pressed(w3, w4);
    Then(START, w3, w4, 3);
    TakesLock(w4, 1, Publish(PRESS));
    assert w5.tasks == w4.tasks[1 := Publish(PRESS.(pc := PublishPc.Opened))] && w5.locks == w4.locks[PublishLock(1) := 1];
    Then(START, w4, w5, 4);
    DraftRead(w5);
    Then(START, w5, Deployment(DRAFTED, p), 5);
  }

  lemma Pressed(w: World, v: World)
    requires w == Alone(DRAFTED, DEPLOYING.(pc := PublishPc.Inside), map[OfferingLock(0) := 0])
    requires v == State(DRAFTED, DEPLOYING.(pc := PublishPc.Inside), PRESS, w.locks)
    ensures Moves(w, v)
  {
    assert Enabled(w, Start(Job.PublishDraft(1, [ITEM])));
    assert Act(w, Start(Job.PublishDraft(1, [ITEM]))) == v;
  }

  lemma DraftRead(w: World)
    requires w == State(DRAFTED, DEPLOYING.(pc := PublishPc.Inside), PRESS.(pc := PublishPc.Opened), BOTH)
    ensures Moves(w, Deployment(DRAFTED, DEPLOYING.(pc := PublishPc.Inside)))
  {
    hide Moves;
    PublishMoves(w, 1, PRESS.(pc := PublishPc.Opened));
    assert PublishNext(DRAFTED, PRESS.(pc := PublishPc.Opened)) == WAITING;
    assert w.tasks[1 := Publish(WAITING)] == Deployment(DRAFTED, DEPLOYING.(pc := PublishPc.Inside)).tasks;
  }

  /** Before its first problem a deployment makes its batch; the offering has no other. */
  lemma DeploymentStages()
    ensures Leads(START, Deployment(STAGED, Deploying(PublishPc.Writing, 1, Writer(Lookup, 0, None, 0))), 9)
  {
    TeacherWaits();
    Staging();
    hide Leads, Does;
    Deploys(6, DRAFTED, DRAFTED, DEPLOYING.(pc := PublishPc.Inside), DEPLOYING.(pc := Ensure));
    Deploys(7, DRAFTED, STAGED, DEPLOYING.(pc := Ensure), Deploying(PublishPc.NextItem, 1, Writer(Lookup, 0, None, 0)));
    Deploys(8, STAGED, STAGED, Deploying(PublishPc.NextItem, 1, Writer(Lookup, 0, None, 0)),
      Deploying(PublishPc.Writing, 1, Writer(Lookup, 0, None, 0)));
  }

  lemma Staging()
    ensures Does(DRAFTED, DEPLOYING.(pc := PublishPc.Inside), DRAFTED, DEPLOYING.(pc := Ensure))
    ensures Does(DRAFTED, DEPLOYING.(pc := Ensure), STAGED, Deploying(PublishPc.NextItem, 1, Writer(Lookup, 0, None, 0)))
    ensures Does(STAGED, Deploying(PublishPc.NextItem, 1, Writer(Lookup, 0, None, 0)),
         STAGED, Deploying(PublishPc.Writing, 1, Writer(Lookup, 0, None, 0)))
  {
    assert (set b | b in DRAFTED.batches && DRAFTED.batches[b].oid == 0 :: DRAFTED.batches[b].seqNo) == {};
    assert DRAFTED.batches[1 := Batch(0, 1, Staged, Some(1), None)] == STAGED.batches;
  }

  /** Then it writes the problem. */
  lemma DeploymentWrites()
    ensures Leads(START, Deployment(TESTED, Deploying(PublishPc.Writing, 1, Writer(Tests, 1, None, 1))), 13)
  {
    DeploymentStages();
    Placing();
    Clearing();
    Testing();
    hide Leads, Does;
    var w, x, y, z := Writer(Lookup, 0, None, 0), Writer(Row, 0, None, 0), Writer(Clear, 0, None, 1), Writer(Tests, 0, None, 1);
    Deploys(9, STAGED, STAGED, Deploying(PublishPc.Writing, 1, w), Deploying(PublishPc.Writing, 1, x));
    Deploys(10, STAGED, PLACED, Deploying(PublishPc.Writing, 1, x), Deploying(PublishPc.Writing, 1, y));
    Deploys(11, PLACED, CLEARED, Deploying(PublishPc.Writing, 1, y), Deploying(PublishPc.Writing, 1, z));
    Deploys(12, CLEARED, TESTED, Deploying(PublishPc.Writing, 1, z), Deploying(PublishPc.Writing, 1, Writer(Tests, 1, None, 1)));
  }

  lemma Placing()
    ensures Does(STAGED, Deploying(PublishPc.Writing, 1, Writer(Lookup, 0, None, 0)),
         STAGED, Deploying(PublishPc.Writing, 1, Writer(Row, 0, None, 0)))
    ensures Does(STAGED, Deploying(PublishPc.Writing, 1, Writer(Row, 0, None, 0)),
         PLACED, Deploying(PublishPc.Writing, 1, Writer(Clear, 0, None, 1)))
  {
  }

  lemma Clearing()
    ensures Does(PLACED, Deploying(PublishPc.Writing, 1, Writer(Clear, 0, None, 1)),
         CLEARED, Deploying(PublishPc.Writing, 1, Writer(Tests, 0, None, 1)))
  {
    ClearResult();
    hide Exec;
  }

  lemma ClearResult()
    ensures Exec(PLACED, EmptyTests(1)) == CLEARED
  {
  }

  lemma Testing()
    ensures Does(CLEARED, Deploying(PublishPc.Writing, 1, Writer(Tests, 0, None, 1)),
         TESTED, Deploying(PublishPc.Writing, 1, Writer(Tests, 1, None, 1)))
  {
    TestResult();
    hide Exec;
  }

  lemma TestResult()
    ensures Exec(CLEARED, PutTest(1, TEST)) == TESTED
  {
    assert [] + [TEST] == [TEST];
    assert CLEARED.tests[1 := [TEST]] == TESTED.tests;
  }

  const DONE: Sync := Sync(Lookup, 1, [ITEM], 1, 1, None, 1, [1])

  /** Then it shows the problem. */
  lemma DeploymentShows()
    ensures Leads(START, Deployment(SHOWN, Deploying(PublishPc.Commit, 1, DONE)), 17)
  {
    DeploymentWrites();
    Finishing();
    NothingHidden();
    Showing();
    hide Leads, Does;
    Deploys(13, TESTED, TESTED, Deploying(PublishPc.Writing, 1, Writer(Tests, 1, None, 1)), Deploying(PublishPc.NextItem, 1, DONE));
    Deploys(14, TESTED, TESTED, Deploying(PublishPc.NextItem, 1, DONE), Deploying(Hide, 1, DONE));
    Deploys(15, TESTED, TESTED, Deploying(Hide, 1, DONE), Deploying(ShowAll, 1, DONE));
    Deploys(16, TESTED, SHOWN, Deploying(ShowAll, 1, DONE), Deploying(PublishPc.Commit, 1, DONE));
  }

  lemma Finishing()
    ensures Does(TESTED, Deploying(PublishPc.Writing, 1, Writer(Tests, 1, None, 1)), TESTED, Deploying(PublishPc.NextItem, 1, DONE))
    ensures Does(TESTED, Deploying(PublishPc.NextItem, 1, DONE), TESTED, Deploying(Hide, 1, DONE))
  {
  }

  lemma NothingHidden()
    ensures Does(TESTED, Deploying(Hide, 1, DONE), TESTED, Deploying(ShowAll, 1, DONE))
  {
    hide Exec;
    NothingHiddenResult();
    assert 1 in DONE.pids;
    assert PidSet(DONE.pids) == {1};
  }

  lemma NothingHiddenResult()
    ensures Exec(TESTED, HideStale(1, {1})) == TESTED
  {
    assert HideOthers(TESTED, 1, {1}).problems == TESTED.problems;
  }

  lemma Showing()
    ensures Does(TESTED, Deploying(ShowAll, 1, DONE), SHOWN, Deploying(PublishPc.Commit, 1, DONE))
  {
    hide Exec;
    ShowingResult();
    assert 1 in DONE.pids;
    assert PidSet(DONE.pids) == {1};
  }

  lemma ShowingResult()
    ensures Exec(TESTED, ShowAllOf({1})) == SHOWN
  {
    assert Show(TESTED, {1}).problems == SHOWN.problems;
  }

  /** The batch is published, and the offering passes to the teacher's request. */
  lemma OfferingPasses()
    ensures Leads(START, Takeover(PUBLISHED, WAITING.(pc := PublishPc.Inside)), 20)
  {
    DeploymentShows();
    hide Leads, Moves;
    var p := Deploying(PublishPc.Commit, 1, DONE);
    var w17 := Deployment(SHOWN, p);
    var w18 := State(PUBLISHED, p.(pc := PublishPc.Leave), WAITING, BOTH);
    var w19 := State(PUBLISHED, p.(pc := NextOffering), WAITING, map[PublishLock(1) := 1]);
    Committed(w17);
    Then(START, w17, w18, 17);
    OfferingFreed(w18, w19);
    Then(START, w18, w19, 18);
    OfferingTaken(w19);
    Then(START, w19, Takeover(PUBLISHED, WAITING.(pc := PublishPc.Inside)), 19);
  }

  lemma OfferingFreed(w: World, v: World)
    requires w == State(PUBLISHED, Deploying(PublishPc.Leave, 1, DONE), WAITING, BOTH)
    requires v == State(PUBLISHED, Deploying(NextOffering, 1, DONE), WAITING, map[PublishLock(1) := 1])
    ensures Moves(w, v)
  {
    hide Moves;
    FreesLock(w, 0, Publish(Deploying(PublishPc.Leave, 1, DONE)));
    assert v.tasks == w.tasks[0 := Publish(Deploying(NextOffering, 1, DONE))] && v.locks == BOTH - {OfferingLock(0)};
  }

  lemma OfferingTaken(w: World)
    requires w == State(PUBLISHED, Deploying(NextOffering, 1, DONE), WAITING, map[PublishLock(1) := 1])
    ensures Moves(w, Takeover(PUBLISHED, WAITING.(pc := PublishPc.Inside)))
  {
    hide Moves;
    TakesLock(w, 1, Publish(WAITING));
    var v := Takeover(PUBLISHED, WAITING.(pc := PublishPc.Inside));
    assert v.tasks == w.tasks[1 := Publish(WAITING.(pc := PublishPc.Inside))] && v.locks == w.locks[OfferingLock(0) := 1];
  }

  lemma Committed(w: World)
    requires w == Deployment(SHOWN, Deploying(PublishPc.Commit, 1, DONE))
    ensures Moves(w, State(PUBLISHED, Deploying(PublishPc.Leave, 1, DONE), WAITING, BOTH))
  {
    hide Moves, Exec, PublishStmt;
    var p := Deploying(PublishPc.Commit, 1, DONE);
    PublishMoves(w, 0, p);
    CommitResult();
    assert PublishNext(SHOWN, p) == p.(pc := PublishPc.Leave);
    assert w.tasks[0 := Publish(p.(pc := PublishPc.Leave))] == State(PUBLISHED, p.(pc := PublishPc.Leave), WAITING, BOTH).tasks;
  }

  lemma CommitResult()
    ensures Exec(SHOWN, PublishStmt(Deploying(PublishPc.Commit, 1, DONE))) == PUBLISHED
  {
    hide Relinked;
    assert Slots(DONE) == [Slot(1, 10000)];
    OneLink(SHOWN, 1, [Slot(1, 10000)]);
  }

  /** Here the run takes the step that breaks what students see. */
  lemma TakeoverReopens()
    ensures Reopens(Takeover(PUBLISHED, WAITING.(pc := PublishPc.Inside)), 1)
  {
    assert Exposes(PUBLISHED, 1, 1);
  }

  /** The teacher's request finds its batch and its problem, and starts to write the problem again. */
  lemma TeacherRewrites()
    ensures Leads(START, Takeover(BROKEN, Publishing(PublishPc.Writing, 1, Writer(Tests, 0, Some(1), 1))), 26)
  {
    OfferingPasses();
    Rejoining();
    Refinding();
    Rewriting();
    Reclearing();
    hide Leads, Does;
    var w, x, y, z := Writer(Lookup, 0, None, 0), Writer(Row, 0, Some(1), 0), Writer(Clear, 0, Some(1), 1), Writer(Tests, 0, Some(1), 1);
    Republishes(20, PUBLISHED, PUBLISHED, WAITING.(pc := PublishPc.Inside), WAITING.(pc := Ensure));
    Republishes(21, PUBLISHED, PUBLISHED, WAITING.(pc := Ensure), Publishing(PublishPc.NextItem, 1, w));
    Republishes(22, PUBLISHED, PUBLISHED, Publishing(PublishPc.NextItem, 1, w), Publishing(PublishPc.Writing, 1, w));
    Republishes(23, PUBLISHED, PUBLISHED, Publishing(PublishPc.Writing, 1, w), Publishing(PublishPc.Writing, 1, x));
    Republishes(24, PUBLISHED, PUBLISHED, Publishing(PublishPc.Writing, 1, x), Publishing(PublishPc.Writing, 1, y));
    Republishes(25, PUBLISHED, BROKEN, Publishing(PublishPc.Writing, 1, y), Publishing(PublishPc.Writing, 1, z));
  }

  lemma Rejoining()
    ensures Does(PUBLISHED, WAITING.(pc := PublishPc.Inside), PUBLISHED, WAITING.(pc := Ensure))
    ensures Does(PUBLISHED, WAITING.(pc := Ensure), PUBLISHED, Publishing(PublishPc.NextItem, 1, Writer(Lookup, 0, None, 0)))
  {
    assert PUBLISHED.batches[1].key == Some(1);
  }

  lemma Refinding()
    ensures Does(PUBLISHED, Publishing(PublishPc.NextItem, 1, Writer(Lookup, 0, None, 0)),
         PUBLISHED, Publishing(PublishPc.Writing, 1, Writer(Lookup, 0, None, 0)))
    ensures Does(PUBLISHED, Publishing(PublishPc.Writing, 1, Writer(Lookup, 0, None, 0)),
         PUBLISHED, Publishing(PublishPc.Writing, 1, Writer(Row, 0, Some(1), 0)))
  {
    assert PUBLISHED.problems[1].source == Authored(1, "sum");
  }

  lemma Rewriting()
    ensures Does(PUBLISHED, Publishing(PublishPc.Writing, 1, Writer(Row, 0, Some(1), 0)),
         PUBLISHED, Publishing(PublishPc.Writing, 1, Writer(Clear, 0, Some(1), 1)))
  {
  }

  lemma Reclearing()
    ensures Does(PUBLISHED, Publishing(PublishPc.Writing, 1, Writer(Clear, 0, Some(1), 1)),
         BROKEN, Publishing(PublishPc.Writing, 1, Writer(Tests, 0, Some(1), 1)))
  {
    hide Exec;
    Empties(PUBLISHED, 1);
    assert map[1 := [TEST]][1 := []] == map[1 := []];
  }

  /**
   So students may see a published problem without its tests: a run from an orderly state in which one does, while
   nothing has crashed.
   */
  lemma StudentsSeeEmptyProblem() returns (run: seq<World>, l: nat)
    ensures IsRun(run) && |run| == 27 && Integrity.TablesOk(run[0].db, map[]) && Orderly(run[0].db, map[])
    ensures var db := run[|run| - 1].db;
      && l in db.links && OpenBatch(db, db.links[l].bid) && db.links[l].pid in db.problems && db.links[l].pid in db.tests
      && db.batches[db.links[l].bid].status == Published
      && db.problems[db.links[l].pid].visible && db.tests[db.links[l].pid] == [] != db.problems[db.links[l].pid].wants
      && !Presentable(db, db.links[l].pid)
  {
    hide Leads, Integrity.TablesOk, Orderly;
    TeacherRewrites();
    run := RunOf(START, Takeover(BROKEN, Publishing(PublishPc.Writing, 1, Writer(Tests, 0, Some(1), 1))), 26);
    l := 1;
    EmptyIsOrderly();
  }

  lemma EmptyIsOrderly()
    ensures Integrity.TablesOk(EMPTY, map[]) && Orderly(EMPTY, map[])
  {
  }
}
