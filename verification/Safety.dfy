/**
 Which states are safe: those without an active offering. Wherever an offering is active, a deployment into it and a
 teacher who publishes the deployed draft at the same time can come to break what students see.
 */
module Safety {
  import opened Values
  import opened Tables
  import opened Machine
  import opened Locks
  import opened Runs
  import opened Visibility
  import opened VisibleRuns
  import opened Reopening
  import Integrity

  ghost predicate NothingActive(db: Db) { forall o: nat :: !ActiveOffering(db, o) }

  // ---------------------------------------------------------------- an offering does not become active

  lemma ExecActivates(db: Db, st: Stmt, o: nat)
    requires ActiveOffering(Exec(db, st), o)
    ensures ActiveOffering(db, o)
  {
    hide WithStatus, Promote, InsertSubmission, WriteTest, UpdateProblem, HideOthers, Show, Tallied, Released, Repointed,
      InsertSolution, InsertProblem, EnsureBatch, CommitPublish, CommitEdit, InsertDraft, CommitRemove, WithoutCourse, CourseUsed,
      LinkOfOffering;
  }

  lemma MoveActivates(w: World, v: World, o: nat)
    requires Moves(w, v) && ActiveOffering(v.db, o)
    ensures ActiveOffering(w.db, o)
  {
    var a :| Enabled(w, a) && v == Act(w, a);
    hide ActiveOffering, Enabled, Advance;
    if a.Step? {
      StepActivates(w, a.tid, a.pick, o);
    } else {
      OthersActivate(w, a);
      SameOfferings(w.db, v.db, o);
    }
  }

  lemma StepActivates(w: World, t: nat, pick: nat, o: nat)
    requires t in w.tasks && ActiveOffering(Advance(w, t, pick).db, o)
    ensures ActiveOffering(w.db, o)
  {
    hide ActiveOffering, Exec, Next, StmtOf, Wants, Frees, PhaseOf, AfterLock, AfterFree, RevisionsAfter, DyingAfter;
    if Advance(w, t, pick).db != w.db {
      ExecActivates(w.db, StmtOf(w.db, w.tasks[t], pick), o);
    }
  }

  lemma OthersActivate(w: World, a: Action)
    requires Enabled(w, a) && !a.Step?
    ensures Act(w, a).db.offerings == w.db.offerings
  {
    hide Fresh, Acceptable, InsertDraft;
  }

  lemma SameOfferings(db: Db, d: Db, o: nat)
    requires d.offerings == db.offerings
    ensures ActiveOffering(d, o) == ActiveOffering(db, o)
  {
  }

  lemma {:induction false} PathActivates(path: seq<World>, i: nat, o: nat)
    requires IsPath(path) && i < |path| && ActiveOffering(path[i].db, o)
    ensures ActiveOffering(path[0].db, o)
  {
    hide Moves, ActiveOffering;
    if i > 0 {
      assert Moves(path[i - 1], path[i - 1 + 1]);
      MoveActivates(path[i - 1], path[i], o);
      PathActivates(path, i - 1, o);
    }
  }

  lemma InactiveNeverReopens(w: World)
    requires NothingActive(w.db)
    ensures NeverReopens(w)
  {
    hide ActiveOffering, Exposed, Moves;
    forall v, t | Reaches(w, v) ensures !Reopens(v, t) {
      if Reopens(v, t) {
        var path :| PathTo(path, w, v);
        PathActivates(path, |path| - 1, v.tasks[t].p.oid);
      }
    }
  }

  // ---------------------------------------------------------------- all requests stop

  lemma Stays(w: World)
    ensures Reaches(w, w)
  {
    assert PathTo([w], w, w);
  }

  lemma Further(w: World, v: World, x: World)
    requires Reaches(w, v) && Moves(v, x)
    ensures Reaches(w, x)
  {
    hide Moves;
    var path :| PathTo(path, w, v);
    assert PathTo([v, x], v, x);
    Joined(path, [v, x], w, v, x);
  }

  /** A state that can come about, from a state in order. */
  ghost predicate Comes(w: World, v: World) { Reaches(w, v) && InOrder(v) }

  lemma Onwards(w: World, v: World, x: World)
    requires Comes(w, v) && Moves(v, x)
    ensures Comes(w, x)
  {
    hide Moves, InOrder, Reaches;
    Further(w, v, x);
    MoveKeepsOrder(v, x);
  }

  lemma {:induction false} AllStop(w: World, v: World) returns (x: World)
    requires Comes(w, v)
    ensures Comes(w, x) && x.db == v.db && x.tasks == map[]
    decreases |v.tasks|
  {
    hide Comes, Moves;
    if v.tasks == map[] {
      x := v;
    } else {
      var t :| t in v.tasks;
      Stops(v, t);
      Onwards(w, v, Act(v, Stop(t)));
      StopsOne(v, t);
      x := AllStop(w, Act(v, Stop(t)));
    }
  }

  lemma StopsOne(w: World, t: nat)
    requires t in w.tasks && Enabled(w, Stop(t))
    ensures var v := Act(w, Stop(t)); v.db == w.db && v.tasks == w.tasks - {t} && |v.tasks| < |w.tasks|
  {
    assert (w.tasks - {t}).Keys == w.tasks.Keys - {t};
  }

  lemma NothingLocked(w: World)
    requires InOrder(w) && w.tasks == map[]
    ensures w.locks == map[]
  {
    hide Orderly, TaskOk;
    IntegrityParts(w);
    assert forall l :: l !in w.locks;
  }

  // ---------------------------------------------------------------- a deployment, and a teacher behind it

  function Deployer(pc: PublishPc, oid: nat, key: nat, items: seq<Item>): PublishTask {
    PublishTask(pc, false, oid, None, true, [], 0, NoSync(items).(key := key))
  }

  function Teacher(pc: PublishPc, oid: nat, key: nat, items: seq<Item>): PublishTask {
    PublishTask(pc, false, oid, Some(key), false, [], 0, NoSync(items).(key := key))
  }

  predicate Document(items: seq<Item>) { items != [] && DistinctSlugs(items) && AllTested(items) }

  /** A deployment has made its draft, and wants the offering. */
  lemma DraftMade(w: World, v: World, oid: nat, items: seq<Item>) returns (x: World)
    requires Comes(w, v) && v.tasks == map[] && v.locks == map[] && Document(items)
    ensures Comes(w, x) && x.db == InsertDraft(v.db, Some(oid)) && x.locks == map[] && x.nextTid == v.nextTid + 1
    ensures x.tasks == map[v.nextTid := Publish(Deployer(PublishPc.WantOffering, oid, v.db.nextKey, items))]
  {
    hide Comes, Moves, DistinctSlugs, AllTested;
    var job := Job.Deploy(None, [oid], items);
    var tk := Fresh(v.db, job);
    Starts(v, job);
    var y := v.(tasks := v.tasks[v.nextTid := tk], nextTid := v.nextTid + 1);
    Onwards(w, v, y);
    WorkMoves(y, v.nextTid, tk, 0);
    DraftStep(v.db, oid, items);
    x := y.(db := InsertDraft(v.db, Some(oid)), tasks := y.tasks[v.nextTid := Next(v.db, tk, 0)]);
    Onwards(w, y, x);
  }

  lemma DraftStep(db: Db, oid: nat, items: seq<Item>)
    requires Document(items)
    ensures var tk := Fresh(db, Job.Deploy(None, [oid], items));
      && Working(tk) && StmtOf(db, tk, 0) == PutDraft(Some(oid)) && Exec(db, StmtOf(db, tk, 0)) == InsertDraft(db, Some(oid))
      && Next(db, tk, 0) == Publish(Deployer(PublishPc.WantOffering, oid, db.nextKey, items))
  {
    hide InsertDraft, DistinctSlugs, AllTested;
  }

  /** It takes the offering. */
  lemma OfferingTaken(w: World, v: World, t: nat, p: PublishTask) returns (x: World)
    requires Comes(w, v) && At(v, t, p) && p.pc.WantOffering? && OfferingLock(p.oid) !in v.locks
    ensures Comes(w, x) && x == v.(locks := v.locks[OfferingLock(p.oid) := t], tasks := v.tasks[t := Publish(p.(pc := PublishPc.Inside))])
  {
    hide Comes, Moves;
    TakesLock(v, t, Publish(p));
    x := v.(locks := v.locks[OfferingLock(p.oid) := t], tasks := v.tasks[t := Publish(p.(pc := PublishPc.Inside))]);
    Onwards(w, v, x);
  }

  /** A teacher asks to publish the draft and takes its lock. */
  lemma TeacherAsks(w: World, v: World, key: nat, items: seq<Item>) returns (x: World)
    requires Comes(w, v) && PublishLock(key) !in v.locks && Document(items)
    ensures Comes(w, x) && x.db == v.db && x.locks == v.locks[PublishLock(key) := v.nextTid]
    ensures x.tasks == v.tasks[v.nextTid := Publish(Teacher(PublishPc.Opened, 0, 0, items).(outer := Some(key)))]
  {
    hide Comes, Moves, DistinctSlugs, AllTested;
    var u, p := v.nextTid, Teacher(PublishPc.WantPublish, 0, 0, items).(outer := Some(key));
    Starts(v, PublishDraft(key, items));
    var y := v.(tasks := v.tasks[u := Publish(p)], nextTid := u + 1);
    Onwards(w, v, y);
    TakesLock(y, u, Publish(p));
    x := y.(locks := y.locks[PublishLock(key) := u], tasks := y.tasks[u := Publish(p.(pc := PublishPc.Opened))]);
    Onwards(w, y, x);
    assert x.tasks == v.tasks[u := Publish(p.(pc := PublishPc.Opened))];
  }

  /** It finds the draft unpublished. */
  lemma TeacherReads(w: World, v: World, u: nat, oid: nat, key: nat, items: seq<Item>) returns (x: World)
    requires Comes(w, v) && At(v, u, Teacher(PublishPc.Opened, 0, 0, items).(outer := Some(key)))
    requires Publishable(v.db, key) && v.db.drafts[key].oid == Some(oid)
    ensures Comes(w, x) && x == v.(tasks := v.tasks[u := Publish(Teacher(PublishPc.WantOffering, oid, key, items))])
  {
    hide Comes, Moves, Exec, Publishable;
    var tk := Publish(Teacher(PublishPc.Opened, 0, 0, items).(outer := Some(key)));
    WorkMoves(v, u, tk, 0);
    SkipStays(v.db, StmtOf(v.db, tk, 0));
    x := v.(tasks := v.tasks[u := Publish(Teacher(PublishPc.WantOffering, oid, key, items))]);
    Onwards(w, v, x);
  }

  /** The publication `p` at work on the draft, and a request that wants to publish it again behind. */
  ghost predicate Both(v: World, t: nat, p: PublishTask, u: nat) {
    && t != u && At(v, t, p) && ActiveOffering(v.db, p.oid) && p.sync.key in v.db.drafts
    && u in v.tasks && v.tasks[u].Publish? && v.tasks[u].p.pc.WantOffering?
    && v.tasks[u].p.oid == p.oid && v.tasks[u].p.sync.key == p.sync.key
  }

  /** Where a publication that has taken the offering stands in its document. */
  predicate Writes(p: PublishTask) {
    && p.deploys && |p.sync.pids| == p.sync.i <= |p.sync.items| && p.sync.items != []
    && (p.pc.Ensure? || p.pc.NextItem? || p.pc.Writing? || p.pc.Hide? || p.pc.ShowAll? || p.pc.Commit?)
    && (p.pc.Writing? ==> p.sync.i < |p.sync.items|)
    && (p.pc.Writing? && p.sync.at.Tests? ==> p.sync.j <= |TestsAt(p.sync)|)
    && (p.pc.Hide? || p.pc.ShowAll? || p.pc.Commit? ==> p.sync.i == |p.sync.items|)
  }

  lemma WritesOn(db: Db, p: PublishTask)
    requires Writes(p) && !p.pc.Commit?
    ensures var n := PublishNext(db, p); Writes(n) && Closer(p, n) && n.oid == p.oid
  {
    hide KeyUsed;
  }

  /** Before its transaction a publication leaves drafts and offerings as they are. */
  lemma WritesRows(db: Db, p: PublishTask)
    requires Writes(p) && !p.pc.Commit?
    ensures var d := Exec(db, PublishStmt(p)); d.drafts == db.drafts && d.offerings == db.offerings
  {
    hide Exec, PublishStmt;
    WritesOnly(p);
    RowsStay(db, PublishStmt(p));
  }

  predicate Writing(st: Stmt) { st.Skip? || st.PutBatch? || OnProblemRows(st) }

  lemma WritesOnly(p: PublishTask)
    requires Writes(p) && !p.pc.Commit?
    ensures Writing(PublishStmt(p))
  {
  }

  lemma RowsStay(db: Db, st: Stmt)
    requires Writing(st)
    ensures var d := Exec(db, st); d.drafts == db.drafts && d.offerings == db.offerings
  {
    hide Exec, OnProblemRows;
    if OnProblemRows(st) {
      ProblemsFrame(db, st);
    } else {
      BatchesFrame(db, st);
    }
  }

  lemma BatchesFrame(db: Db, st: Stmt)
    requires st.Skip? || st.PutBatch?
    ensures var d := Exec(db, st); d == db.(batches := d.batches, nextBid := d.nextBid)
  {
    hide EnsureBatch;
  }

  /** Left to itself, the publication comes to its transaction. */
  lemma {:induction false} ComesToCommit(w: World, v: World, t: nat, p: PublishTask, u: nat) returns (x: World, n: PublishTask)
    requires Comes(w, v) && Both(v, t, p, u) && Writes(p)
    ensures Comes(w, x) && Both(x, t, n, u) && Writes(n) && n.pc.Commit?
    decreases |p.sync.items| - p.sync.i, Rank(p), Left(p.sync)
  {
    hide Moves, Exec, PublishStmt, PublishNext, InOrder, Left, Rank, Reaches, TestsAt, Advance, MovesHarmlessly, ActiveOffering;
    if p.pc.Commit? {
      x, n := v, p;
    } else {
      PublicationMoves(v, t, p);
      WritesOn(v.db, p);
      WritesRows(v.db, p);
      AdvanceWorks(v, t, 0);
      Further(w, v, Advance(v, t, 0));
      SameOfferings(v.db, Advance(v, t, 0).db, p.oid);
      x, n := ComesToCommit(w, Advance(v, t, 0), t, PublishNext(v.db, p), u);
    }
  }

  // ---------------------------------------------------------------- the publication commits

  /** Its transaction links the problems of the document, under the key. */
  lemma CommitExposes(db: Db, revisions: map<nat, nat>, p: PublishTask)
    requires Known(db, revisions, p) && BatchOk(db, PublishProgress(p)) && Writes(p) && p.pc.Commit?
    requires ActiveOffering(db, p.oid) && p.sync.key in db.drafts
    ensures var d := Exec(db, PublishStmt(p)); Exposed(d, p.sync.key) && d.offerings == db.offerings
  {
    hide Known, Exec, PublishStmt, RowOk, BatchOk;
    var pid, d := p.sync.pids[0], Exec(db, PublishStmt(p));
    FirstMade(db, revisions, p);
    BatchThere(db, p);
    FirstLinked(db, p);
    assert Exposes(d, p.sync.key, db.nextBp);
  }

  lemma FirstMade(db: Db, revisions: map<nat, nat>, p: PublishTask)
    requires Known(db, revisions, p) && Writes(p) && p.pc.Commit?
    ensures Carries(db, Some(p.sync.key), p.sync.pids[0])
  {
    hide LinksSettled, OneRowEach, HomesOk, Integrity.KeysOk, Slugs;
    assert p.sync.pids[0] in PidSet(p.sync.pids);
  }

  lemma BatchThere(db: Db, p: PublishTask)
    requires BatchOk(db, PublishProgress(p)) && p.pc.Commit?
    ensures p.bid in db.batches && db.batches[p.bid].oid == p.oid
  {
    hide Slugs, PidSet;
  }

  lemma FirstLinked(db: Db, p: PublishTask)
    requires Writes(p) && p.pc.Commit? && ActiveOffering(db, p.oid) && p.sync.key in db.drafts
    requires p.bid in db.batches && db.batches[p.bid].oid == p.oid
    ensures var d := Exec(db, PublishStmt(p));
      && d.offerings == db.offerings && d.problems == db.problems
      && p.bid in d.batches && d.batches[p.bid].oid == p.oid
      && db.nextBp in d.links && d.links[db.nextBp].bid == p.bid && d.links[db.nextBp].pid == p.sync.pids[0]
  {
    var slots := Slots(p.sync);
    FirstRow(db.nextBp, p.bid, slots);
    CommitIs(db, p);
    hide Exec, PublishStmt, Rows;
  }

  lemma CommitIs(db: Db, p: PublishTask)
    requires Writes(p) && p.pc.Commit?
    ensures Exec(db, PublishStmt(p)) == CommitPublish(db, p.oid, p.bid, p.sync.key, Slots(p.sync))
  {
    hide CommitPublish, Slots;
  }

  lemma FirstRow(first: nat, bid: nat, slots: seq<Slot>)
    requires slots != []
    ensures first in Rows(first, bid, slots) && Rows(first, bid, slots)[first] == Link(bid, slots[0].pid, 1, slots[0].score)
  {
  }

  /** The offering passes to the request behind, which is about to write under a key that students see a problem of. */
  lemma ComesToReopen(w: World, v: World, t: nat, p: PublishTask, u: nat) returns (x: World)
    requires Comes(w, v) && Both(v, t, p, u) && Writes(p) && p.pc.Commit?
    ensures Comes(w, x) && Reopens(x, u)
  {
    hide Comes, Moves, Exec, PublishStmt, ActiveOffering, Exposed;
    var y := Committed(w, v, t, p, u);
    var z := Freed(w, y, t, p.(pc := PublishPc.Leave, failed := false), u);
    x := OfferingTaken(w, z, u, z.tasks[u].p);
  }

  lemma Committed(w: World, v: World, t: nat, p: PublishTask, u: nat) returns (x: World)
    requires Comes(w, v) && Both(v, t, p, u) && Writes(p) && p.pc.Commit?
    ensures Comes(w, x) && At(x, t, p.(pc := PublishPc.Leave, failed := false)) && u in x.tasks && x.tasks[u] == v.tasks[u]
    ensures ActiveOffering(x.db, p.oid) && Exposed(x.db, p.sync.key)
  {
    hide Moves, Exec, PublishStmt, InOrder, Reaches, Advance, MovesHarmlessly, ActiveOffering, Exposed, Known, BatchOk, PublishProgress;
    PublicationMoves(v, t, p);
    PublicationKnown(v, t, p);
    PublicationBatch(v, t, p);
    AdvanceWorks(v, t, 0);
    x := Advance(v, t, 0);
    Further(w, v, x);
    CommitExposes(v.db, v.revisions, p);
    SameOfferings(v.db, x.db, p.oid);
  }

  lemma PublicationBatch(w: World, t: nat, p: PublishTask)
    requires InOrder(w) && At(w, t, p)
    ensures BatchOk(w.db, PublishProgress(p))
  {
    hide InOrder, PublishProgress, BatchOk, KeyOk, RowOk, CleanOk;
    TaskWarranted(w, t);
  }

  lemma Freed(w: World, v: World, t: nat, p: PublishTask, u: nat) returns (x: World)
    requires Comes(w, v) && At(v, t, p) && p.pc.Leave? && p.deploys && !p.failed && u in v.tasks && u != t
    ensures Comes(w, x) && x.db == v.db && u in x.tasks && x.tasks[u] == v.tasks[u] && OfferingLock(p.oid) !in x.locks
  {
    hide Comes, Moves;
    FreesLock(v, t, Publish(p));
    x := v.(locks := v.locks - {OfferingLock(p.oid)}, tasks := v.tasks[t := AfterFree(Publish(p))]);
    Onwards(w, v, x);
  }

  // ---------------------------------------------------------------- which states are safe

  const DOCUMENT: seq<Item> := [Item("sum", "add", [Case("1", "2")], 10000, None)]

  /** From every state in order with an active offering, a publication can come to write what students see. */
  lemma ActiveReopens(w: World, oid: nat)
    requires InOrder(w) && ActiveOffering(w.db, oid)
    ensures !NeverReopens(w)
  {
    hide InOrder, ActiveOffering, Reaches, Reopens, Moves;
    Stays(w);
    var v := AllStop(w, w);
    NothingLocked(v);
    var x, t, p, u := Followed(w, v, oid);
    var y, n := ComesToCommit(w, x, t, p, u);
    var z := ComesToReopen(w, y, t, n, u);
  }

  lemma FreshDraft(db: Db, oid: nat)
    ensures var d := InsertDraft(db, Some(oid)); Publishable(d, db.nextKey) && d.drafts[db.nextKey].oid == Some(oid)
  {
  }

  lemma Checked()
    ensures Document(DOCUMENT)
  {
    assert forall it | it in DOCUMENT :: it == DOCUMENT[0];
  }

  /** The deployment has the offering, its draft is there. */
  lemma Begun(w: World, v: World, oid: nat) returns (x: World)
    requires Comes(w, v) && v.tasks == map[] && v.locks == map[] && ActiveOffering(v.db, oid)
    ensures Comes(w, x) && x.tasks == map[v.nextTid := Publish(Deployer(PublishPc.Inside, oid, v.db.nextKey, DOCUMENT))]
    ensures x.locks == map[OfferingLock(oid) := v.nextTid] && x.nextTid == v.nextTid + 1
    ensures ActiveOffering(x.db, oid) && Publishable(x.db, v.db.nextKey) && x.db.drafts[v.db.nextKey].oid == Some(oid)
  {
    hide Comes, Moves, Document, InsertDraft, ActiveOffering, Publishable;
    FreshDraft(v.db, oid);
    SameOfferings(v.db, InsertDraft(v.db, Some(oid)), oid);
    Checked();
    var y := DraftMade(w, v, oid, DOCUMENT);
    x := OfferingTaken(w, y, v.nextTid, Deployer(PublishPc.WantOffering, oid, v.db.nextKey, DOCUMENT));
  }

  /** The teacher's request stands behind it. */
  lemma Behind(w: World, v: World, t: nat, oid: nat, key: nat) returns (x: World)
    requires Comes(w, v) && v.tasks == map[t := Publish(Deployer(PublishPc.Inside, oid, key, DOCUMENT))] && v.nextTid == t + 1
    requires ActiveOffering(v.db, oid) && PublishLock(key) !in v.locks && Publishable(v.db, key) && v.db.drafts[key].oid == Some(oid)
    ensures Comes(w, x) && Both(x, t, Deployer(PublishPc.Inside, oid, key, DOCUMENT), t + 1)
  {
    hide Comes, Moves, Document, ActiveOffering;
    Checked();
    var y := TeacherAsks(w, v, key, DOCUMENT);
    x := TeacherReads(w, y, t + 1, oid, key, DOCUMENT);
  }

  lemma Followed(w: World, v: World, oid: nat) returns (x: World, t: nat, p: PublishTask, u: nat)
    requires Comes(w, v) && v.tasks == map[] && v.locks == map[] && ActiveOffering(v.db, oid)
    ensures Comes(w, x) && Both(x, t, p, u) && Writes(p)
  {
    hide Comes, Moves, Document, ActiveOffering, Publishable, Both;
    t, u := v.nextTid, v.nextTid + 1;
    var y := Begun(w, v, oid);
    var z := Behind(w, y, t, oid, v.db.nextKey);
    x := Entered(w, z, t, Deployer(PublishPc.Inside, oid, v.db.nextKey, DOCUMENT), u);
    p := Deployer(Ensure, oid, v.db.nextKey, DOCUMENT);
  }

  lemma Entered(w: World, v: World, t: nat, p: PublishTask, u: nat) returns (x: World)
    requires Comes(w, v) && Both(v, t, p, u) && p.pc.Inside?
    ensures Comes(w, x) && Both(x, t, p.(pc := Ensure), u)
  {
    hide Comes, Moves, Exec, ActiveOffering;
    WorkMoves(v, t, Publish(p), 0);
    SkipStays(v.db, PublishStmt(p));
    x := v.(tasks := v.tasks[t := Publish(p.(pc := Ensure))]);
    Onwards(w, v, x);
  }

  /** What students see stays complete whatever comes, exactly when no offering is active. */
  lemma SafeExactly(w: World)
    requires SeenOk(w)
    ensures Safe(w) <==> NothingActive(w.db)
  {
    hide SeenOk, InOrder, Safe, ActiveOffering, NeverReopens;
    SeenPresentable(w);
    SafeUnlessReopened(w);
    if NothingActive(w.db) {
      InactiveNeverReopens(w);
    } else {
      var oid: nat :| ActiveOffering(w.db, oid);
      ActiveReopens(w, oid);
    }
  }
}
