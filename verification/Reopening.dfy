/**
 What students see breaks exactly when a publication starts to write under a key whose problems are open to them. The
 step takes the offering lock and asks whether the offering is active; it does not read the draft again.
 */
module Reopening {
  import opened Tables
  import opened Machine
  import opened Locks
  import opened Visibility
  import opened VisibleRuns
  import Integrity

  // ---------------------------------------------------------------- one publication goes on alone

  /** What is left of the problem in the works, or of the document, before the next one. */
  function Rank(p: PublishTask): nat {
    match p.pc
    case Ensure => 8
    case NextItem => 7
    case Writing =>
      (match p.sync.at
       case Lookup => 6
       case Row => 5
       case Clear => 4
       case Tests => 3)
    case Hide => 2
    case ShowAll => 1
    case _ => 0
  }

  function SlugOf(db: Db, x: nat): string {
    if x in db.problems && db.problems[x].source.Authored? then db.problems[x].source.slug else ""
  }

  /** The link leads to a problem under the publication's key, which it has not come to yet. */
  ghost predicate Ahead(db: Db, p: PublishTask, l: nat) {
    && Exposes(db, p.sync.key, l) && SlugOf(db, db.links[l].pid) !in Slugs(p.sync.items, p.sync.i)
    && (p.pc.Ensure? || p.pc.NextItem? || p.pc.Writing? || p.pc.Hide?)
    && (p.pc.Writing? ==> p.sync.i < |p.sync.items|)
    && (p.pc.Writing? && p.sync.at.Tests? ==> SlugAt(p.sync) != SlugOf(db, db.links[l].pid) && p.sync.j <= |TestsAt(p.sync)|)
    && (p.pc.Hide? ==> p.sync.i >= |p.sync.items|)
  }

  ghost predicate At(w: World, t: nat, p: PublishTask) { t in w.tasks && w.tasks[t] == Publish(p) }

  /** The publication is one statement closer to the problem. */
  predicate Closer(p: PublishTask, n: PublishTask) {
    && n.sync.items == p.sync.items && n.sync.key == p.sync.key && p.sync.i <= n.sync.i <= |p.sync.items|
    && (p.sync.i < n.sync.i || Rank(n) < Rank(p)
        || (Rank(n) == Rank(p) && Left(n.sync) < Left(p.sync)))
  }

  /** Tests of the problem in the works that are left to be written. */
  function Left(y: Sync): nat { if y.j <= |TestsAt(y)| then |TestsAt(y)| - y.j else 0 }

  /** The link is open still and leads to a problem that cannot be shown. */
  ghost predicate BrokenAt(db: Db, l: nat) {
    l in db.links && OpenBatch(db, db.links[l].bid) && !Presentable(db, db.links[l].pid)
  }

  ghost predicate Nears(db: Db, p: PublishTask, l: nat) {
    var d, n := Exec(db, PublishStmt(p)), PublishNext(db, p);
    BrokenAt(d, l) || (Ahead(d, n, l) && Closer(p, n))
  }

  /** What the publication knows. */
  ghost predicate Known(db: Db, revisions: map<nat, nat>, p: PublishTask) {
    && Orderly(db, revisions) && Integrity.KeysOk(db, revisions) && RowOk(db, PublishProgress(p)) && Sound(Publish(p))
  }

  lemma EnsureNears(db: Db, revisions: map<nat, nat>, p: PublishTask, l: nat)
    requires Known(db, revisions, p) && Ahead(db, p, l) && p.pc.Ensure?
    ensures Nears(db, p, l)
  {
    hide KeyUsed, NextSeq, RowOk, LinksSettled, OneRowEach, HomesOk, Integrity.KeysOk;
  }

  lemma NextItemNears(db: Db, revisions: map<nat, nat>, p: PublishTask, l: nat)
    requires Known(db, revisions, p) && Ahead(db, p, l) && p.pc.NextItem? && p.sync.i <= |p.sync.items|
    ensures Nears(db, p, l)
  {
    hide RowOk, LinksSettled, OneRowEach, HomesOk, Integrity.KeysOk;
  }

  lemma HideNears(db: Db, revisions: map<nat, nat>, p: PublishTask, l: nat)
    requires Known(db, revisions, p) && Ahead(db, p, l) && p.pc.Hide?
    ensures Nears(db, p, l)
  {
    hide LinksSettled, OneRowEach, HomesOk, Integrity.KeysOk;
    var x := db.links[l].pid;
    assert x in PidSet(p.sync.pids) ==> Made(db, p.sync.key, Slugs(p.sync.items, p.sync.i), x);
  }

  /** Writing a problem leaves the link and the source of its problem as they are. */
  lemma StillExposed(db: Db, d: Db, key: nat, l: nat)
    requires Exposes(db, key, l) && d == db.(problems := d.problems, nextPid := d.nextPid, tests := d.tests)
    requires db.links[l].pid in d.problems && d.problems[db.links[l].pid].source == db.problems[db.links[l].pid].source
    ensures Exposes(d, key, l) && SlugOf(d, db.links[l].pid) == SlugOf(db, db.links[l].pid)
  {
  }

  lemma WritingShape(db: Db, p: PublishTask)
    requires p.pc.Writing? && p.sync.i < |p.sync.items|
    ensures PublishStmt(p) == SyncStmt(p.sync)
    ensures PublishNext(db, p) == if SyncedTests(p.sync) then p.(pc := PublishPc.NextItem, sync := Synced(p.sync, p.sync.pid))
                                  else p.(sync := SyncNext(db, p.sync))
  {
    hide SyncNext, SyncStmt;
  }

  lemma LookupNears(db: Db, revisions: map<nat, nat>, p: PublishTask, l: nat)
    requires Known(db, revisions, p) && Ahead(db, p, l) && p.pc.Writing? && p.sync.at.Lookup?
    ensures Nears(db, p, l)
  {
    hide RowOk, LinksSettled, OneRowEach, HomesOk, Integrity.KeysOk;
  }

  lemma RowNears(db: Db, revisions: map<nat, nat>, p: PublishTask, l: nat)
    requires Known(db, revisions, p) && Ahead(db, p, l) && p.pc.Writing? && p.sync.at.Row?
    ensures Nears(db, p, l)
  {
    hide Known, Exec, SyncStmt, PublishStmt, PublishNext, Exposes, SlugOf, Slugs;
    WritingShape(db, p);
    LinkThere(db, p.sync.key, l);
    PidsBelow(db, revisions, p, db.links[l].pid);
    RowWritten(db, p.sync, db.links[l].pid);
    StillExposed(db, Exec(db, SyncStmt(p.sync)), p.sync.key, l);
  }

  lemma PidsBelow(db: Db, revisions: map<nat, nat>, p: PublishTask, x: nat)
    requires Known(db, revisions, p) && x in db.problems
    ensures x < db.nextPid
  {
    hide Orderly, RowOk, Sound;
  }

  lemma LinkThere(db: Db, key: nat, l: nat)
    requires Exposes(db, key, l)
    ensures l in db.links && db.links[l].pid in db.problems
  {
  }

  lemma RowWritten(db: Db, y: Sync, x: nat)
    requires y.i < |y.items| && y.at.Row? && x in db.problems && x < db.nextPid
    ensures var d := Exec(db, SyncStmt(y));
      && d == db.(problems := d.problems, nextPid := d.nextPid, tests := d.tests)
      && x in d.problems && d.problems[x].source == db.problems[x].source
  {
    hide Exec;
    if y.found.Some? {
      RowSet(db, y.found.value, y.items[y.i].content, y.items[y.i].tests, x);
    } else {
      RowPut(db, Authored(y.key, y.items[y.i].slug), y.items[y.i].content, y.items[y.i].tests, x);
    }
  }

  lemma RowSet(db: Db, pid: nat, content: string, wants: seq<Case>, x: nat)
    requires x in db.problems
    ensures var d := Exec(db, SetProblem(pid, content, wants));
      && d == db.(problems := d.problems)
      && x in d.problems && d.problems[x].source == db.problems[x].source
  {
    hide Exec, UpdateProblem;
    SetIs(db, pid, content, wants);
    SourceStays(db, pid, content, wants, x);
  }

  lemma SourceStays(db: Db, pid: nat, content: string, wants: seq<Case>, x: nat)
    requires x in db.problems
    ensures var d := UpdateProblem(db, pid, content, wants); x in d.problems && d.problems[x].source == db.problems[x].source
  {
  }

  lemma SetIs(db: Db, pid: nat, content: string, wants: seq<Case>)
    ensures Exec(db, SetProblem(pid, content, wants)) == UpdateProblem(db, pid, content, wants)
  {
    hide UpdateProblem;
  }

  lemma RowPut(db: Db, source: Source, content: string, wants: seq<Case>, x: nat)
    requires x in db.problems && x < db.nextPid
    ensures var d := Exec(db, PutProblem(source, content, wants));
      && d == db.(problems := d.problems, nextPid := d.nextPid)
      && x in d.problems && d.problems[x].source == db.problems[x].source
  {
    hide Exec;
    PutIs(db, source, content, wants);
  }

  lemma PutIs(db: Db, source: Source, content: string, wants: seq<Case>)
    ensures Exec(db, PutProblem(source, content, wants)) == InsertProblem(db, source, content, wants)
  {
    hide InsertProblem;
  }

  lemma ClearKnown(db: Db, revisions: map<nat, nat>, p: PublishTask)
    requires Known(db, revisions, p) && p.pc.Writing? && p.sync.at.Clear? && p.sync.i < |p.sync.items|
    ensures p.sync.pid in db.problems && db.problems[p.sync.pid].source == Authored(p.sync.key, SlugAt(p.sync))
    ensures db.problems[p.sync.pid].wants == TestsAt(p.sync) != [] && OneRowEach(db)
  {
    hide LinksSettled, HomesOk, Made, Integrity.KeysOk, OneRowEach, Slugs, PidSet, LockedOffering;
    assert p.sync.items[p.sync.i] in p.sync.items;
  }

  /** Two rows of one source are one row. */
  lemma OneRow(db: Db, key: nat, x: nat, y: nat, l: nat)
    requires OneRowEach(db) && Exposes(db, key, l) && x == db.links[l].pid
    requires y in db.problems && db.problems[y].source == Authored(key, SlugOf(db, x))
    ensures x == y
  {
    assert SameSource(db, x, y);
  }

  lemma ClearNears(db: Db, revisions: map<nat, nat>, p: PublishTask, l: nat)
    requires Known(db, revisions, p) && Ahead(db, p, l) && p.pc.Writing? && p.sync.at.Clear?
    ensures Nears(db, p, l)
  {
    hide Known, Exec, SyncStmt, PublishStmt, PublishNext, SlugOf, Slugs, OneRowEach;
    WritingShape(db, p);
    ClearKnown(db, revisions, p);
    Cleared(db, p.sync);
    var x, d := db.links[l].pid, db.(tests := db.tests[p.sync.pid := []]);
    if SlugAt(p.sync) == SlugOf(db, x) {
      OneRow(db, p.sync.key, x, p.sync.pid, l);
      assert BrokenAt(d, l);
    } else {
      hide Exposes, SlugAt, TestsAt;
      LinkThere(db, p.sync.key, l);
      StillExposed(db, d, p.sync.key, l);
    }
  }

  lemma Cleared(db: Db, y: Sync)
    requires y.i < |y.items| && y.at.Clear?
    ensures Exec(db, SyncStmt(y)) == db.(tests := db.tests[y.pid := []])
  {
  }

  lemma TestsNears(db: Db, revisions: map<nat, nat>, p: PublishTask, l: nat)
    requires Known(db, revisions, p) && Ahead(db, p, l) && p.pc.Writing? && p.sync.at.Tests?
    ensures Nears(db, p, l)
  {
    hide Known, Exec, SyncStmt, PublishStmt, PublishNext, SlugOf, Slugs, Exposes;
    WritingShape(db, p);
    LinkThere(db, p.sync.key, l);
    if SyncedTests(p.sync) {
      SlugsGrow(p.sync.items, p.sync.i);
      SyncedStays(db, p.sync);
    } else {
      TestWritten(db, p.sync);
      StillExposed(db, Exec(db, SyncStmt(p.sync)), p.sync.key, l);
    }
  }

  lemma TestWritten(db: Db, y: Sync)
    requires y.i < |y.items| && y.at.Tests?
    ensures var d := Exec(db, SyncStmt(y)); d == db.(tests := d.tests)
  {
    hide WriteTest;
  }

  lemma PublicationNears(db: Db, revisions: map<nat, nat>, p: PublishTask, l: nat)
    requires Known(db, revisions, p) && Ahead(db, p, l) && p.sync.i <= |p.sync.items|
    ensures Nears(db, p, l)
  {
    hide Known, Nears, Exposes, SlugOf, Slugs;
    if p.pc.Ensure? {
      EnsureNears(db, revisions, p, l);
    } else if p.pc.NextItem? {
      NextItemNears(db, revisions, p, l);
    } else if p.pc.Hide? {
      HideNears(db, revisions, p, l);
    } else if p.sync.at.Lookup? {
      LookupNears(db, revisions, p, l);
    } else if p.sync.at.Row? {
      RowNears(db, revisions, p, l);
    } else if p.sync.at.Clear? {
      ClearNears(db, revisions, p, l);
    } else {
      TestsNears(db, revisions, p, l);
    }
  }

  // ---------------------------------------------------------------- the path

  /** The publication takes its next step, which is harmless but for the first. */
  lemma PublicationMoves(w: World, t: nat, p: PublishTask)
    requires InOrder(w) && At(w, t, p) && PhaseOf(Publish(p)).Within?
    ensures var v := Advance(w, t, 0);
      && Moves(w, v) && v.db == Exec(w.db, PublishStmt(p)) && At(v, t, PublishNext(w.db, p))
      && (!p.pc.Inside? ==> MovesHarmlessly(w, v)) && InOrder(v)
  {
    hide InOrder, Exec, PublishStmt, PublishNext, Moves, MovesHarmlessly, Advance, Act, Enabled, Harmless;
    WithinReady(w, t, p);
    AdvanceWorks(w, t, 0);
    MovesBy(w, Step(t, 0));
    if !p.pc.Inside? {
      NotFirst(w, t, p);
      MovesHarmlesslyBy(w, Step(t, 0));
    }
    MoveKeepsOrder(w, Advance(w, t, 0));
  }

  lemma WithinReady(w: World, t: nat, p: PublishTask)
    requires At(w, t, p) && PhaseOf(Publish(p)).Within?
    ensures Enabled(w, Step(t, 0)) && Act(w, Step(t, 0)) == Advance(w, t, 0) && Working(Publish(p))
  {
    hide Advance;
  }

  lemma NotFirst(w: World, t: nat, p: PublishTask)
    requires At(w, t, p) && !p.pc.Inside?
    ensures Harmless(w, Step(t, 0))
  {
    hide Exposed;
  }

  lemma MovesBy(w: World, a: Action)
    requires Enabled(w, a)
    ensures Moves(w, Act(w, a))
  {
    hide Act, Enabled;
  }

  lemma MovesHarmlesslyBy(w: World, a: Action)
    requires Enabled(w, a) && Harmless(w, a)
    ensures MovesHarmlessly(w, Act(w, a))
  {
    hide Act, Enabled, Harmless;
  }

  lemma PublicationKnown(w: World, t: nat, p: PublishTask)
    requires InOrder(w) && At(w, t, p)
    ensures Known(w.db, w.revisions, p)
  {
    IntegrityParts(w);
    TaskWarranted(w, t);
    hide Integrity.IntegrityOk, TaskOk, Orderly, PublishProgress, Sound, Integrity.KeysOk, LocksOk, KeyOk, BatchOk,
      RowOk, CleanOk;
  }

  ghost predicate HarmlessPath(path: seq<World>) {
    path != [] && forall i | 0 <= i < |path| - 1 :: Moves(path[i], path[i + 1]) && MovesHarmlessly(path[i], path[i + 1])
  }

  lemma Prepend(w: World, v: World, rest: seq<World>)
    requires HarmlessPath(rest) && rest[0] == v && Moves(w, v) && MovesHarmlessly(w, v)
    ensures HarmlessPath([w] + rest) && ([w] + rest)[|rest|] == rest[|rest| - 1]
  {
    hide Moves, MovesHarmlessly;
    var path := [w] + rest;
    forall i | 0 <= i < |path| - 1 ensures Moves(path[i], path[i + 1]) && MovesHarmlessly(path[i], path[i + 1]) {
      if i > 0 {
        assert path[i] == rest[i - 1] && path[i + 1] == rest[i - 1 + 1];
      }
    }
  }

  /** Left to itself, the publication comes to the problem that students see, and empties its tests or hides it. */
  lemma {:induction false} Rewriting(w: World, t: nat, p: PublishTask, l: nat) returns (path: seq<World>)
    requires InOrder(w) && At(w, t, p) && Ahead(w.db, p, l) && p.sync.i <= |p.sync.items|
    ensures HarmlessPath(path) && path[0] == w && BrokenAt(path[|path| - 1].db, l)
    decreases |p.sync.items| - p.sync.i, Rank(p), Left(p.sync)
  {
    hide InOrder, Known, Exec, PublishStmt, PublishNext, Moves, MovesHarmlessly, Advance, Exposes, HarmlessPath,
      BrokenAt, SlugOf, Slugs, Left, SlugAt, TestsAt;
    var v, n := Advance(w, t, 0), PublishNext(w.db, p);
    assert PhaseOf(Publish(p)).Within?;
    PublicationKnown(w, t, p);
    PublicationNears(w.db, w.revisions, p, l);
    PublicationMoves(w, t, p);
    var rest;
    if BrokenAt(v.db, l) {
      rest := [v];
      assert HarmlessPath([v]) by { OnePoint(v); }
    } else {
      rest := Rewriting(v, t, n, l);
    }
    path := [w] + rest;
    Prepend(w, v, rest);
  }

  lemma OnePoint(v: World)
    ensures HarmlessPath([v])
  {
  }

  /** The publication starts to write, and every step after that is harmless. */
  ghost predicate Enters(w: World, t: nat, path: seq<World>)
    requires t in w.tasks
  {
    && IsPath(path) && |path| > 1 && path[0] == w && path[1] == Advance(w, t, 0)
    && forall i | 1 <= i < |path| - 1 :: MovesHarmlessly(path[i], path[i + 1])
  }

  /** In the end students see a problem that is not complete. */
  ghost predicate Breaks(w: World, t: nat, path: seq<World>)
    requires t in w.tasks
  {
    Enters(w, t, path) && !AllPresentable(path[|path| - 1].db)
  }

  lemma PathFrom(w: World, t: nat, rest: seq<World>, l: nat)
    requires t in w.tasks && Moves(w, Advance(w, t, 0)) && HarmlessPath(rest) && rest[0] == Advance(w, t, 0)
    requires BrokenAt(rest[|rest| - 1].db, l)
    ensures Breaks(w, t, [w] + rest)
  {
    hide Moves, MovesHarmlessly, Advance;
    var path := [w] + rest;
    forall i | 0 <= i < |path| - 1 ensures Moves(path[i], path[i + 1]) && (1 <= i ==> MovesHarmlessly(path[i], path[i + 1])) {
      if i > 0 {
        assert path[i] == rest[i - 1] && path[i + 1] == rest[i - 1 + 1];
      }
    }
    assert path[|path| - 1] == rest[|rest| - 1];
  }

  /** A publication about to write under a key that students see problems of. */
  lemma InsideShape(w: World, t: nat)
    requires InOrder(w) && Reopens(w, t)
    ensures var p := w.tasks[t].p;
      && At(w, t, p) && PhaseOf(Publish(p)).Within? && Exec(w.db, PublishStmt(p)) == w.db
      && PublishNext(w.db, p) == p.(pc := Ensure) && p.sync.i == 0
      && exists l :: Ahead(w.db, p.(pc := Ensure), l)
  {
    hide InOrder, ProgressOf, Warranted, Exec, SlugOf, Exposes;
    TaskWarranted(w, t);
    var p := w.tasks[t].p;
    SkipStays(w.db, PublishStmt(p));
    var l :| Exposes(w.db, p.sync.key, l);
    assert Ahead(w.db, p.(pc := Ensure), l);
  }

  /**
   From every state a run can reach: where a publication is about to write under a key whose problems
   students see, its own steps suffice to break what they see.
   */
  lemma ReopeningBreaks(w: World, t: nat) returns (path: seq<World>)
    requires InOrder(w) && Reopens(w, t)
    ensures Breaks(w, t, path)
  {
    hide InOrder, Exec, PublishStmt, PublishNext, Moves, MovesHarmlessly, Advance, Ahead, HarmlessPath, BrokenAt,
      Breaks;
    InsideShape(w, t);
    var p := w.tasks[t].p;
    var l :| Ahead(w.db, p.(pc := Ensure), l);
    PublicationMoves(w, t, p);
    var rest := Rewriting(Advance(w, t, 0), t, p.(pc := Ensure), l);
    PathFrom(w, t, rest, l);
    path := [w] + rest;
  }

  /**
   While students see only complete problems, a publication that starts to write can break that, with
   no other such start, exactly when students see a problem under its key.
   */
  lemma EntryBreaksExactly(w: World, t: nat)
    requires SeenOk(w) && t in w.tasks && w.tasks[t].Publish? && w.tasks[t].p.pc.Inside? && ActiveOffering(w.db, w.tasks[t].p.oid)
    ensures (exists path :: Breaks(w, t, path)) <==> Exposed(w.db, w.tasks[t].p.sync.key)
  {
    if Exposed(w.db, w.tasks[t].p.sync.key) {
      assert Reopens(w, t);
      hide Reopens, Breaks, InOrder;
      var path := ReopeningBreaks(w, t);
    } else {
      forall path ensures !Breaks(w, t, path) {
        if Enters(w, t, path) {
          HarmlessEntry(w, t, path);
        }
      }
    }
  }

  lemma HarmlessEntry(w: World, t: nat, path: seq<World>)
    requires SeenOk(w) && t in w.tasks && w.tasks[t].Publish? && w.tasks[t].p.pc.Inside?
    requires !Exposed(w.db, w.tasks[t].p.sync.key) && Enters(w, t, path)
    ensures AllPresentable(path[|path| - 1].db)
  {
    hide Exposed, SeenOk, Advance, Act, Enabled, Harmless, Moves, MovesHarmlessly, AllPresentable;
    WithinReady(w, t, w.tasks[t].p);
    UnseenHarmless(w, t);
    MovesHarmlesslyBy(w, Step(t, 0));
    forall j | 0 <= j < |path| - 1 ensures MovesHarmlessly(path[j], path[j + 1]) {
    }
    PathKeepsSeen(path, |path| - 1);
    SeenPresentable(path[|path| - 1]);
  }

  lemma UnseenHarmless(w: World, t: nat)
    requires t in w.tasks && w.tasks[t].Publish? && !Exposed(w.db, w.tasks[t].p.sync.key)
    ensures Harmless(w, Step(t, 0))
  {
    hide Exposed;
  }

  // ---------------------------------------------------------------- which states are safe

  ghost predicate PathTo(path: seq<World>, w: World, v: World) { IsPath(path) && path[0] == w && path[|path| - 1] == v }

  /** Some sequence of actions leads from one state to the other. */
  ghost predicate Reaches(w: World, v: World) { exists path :: PathTo(path, w, v) }

  /** Whatever happens from here on, students see complete problems only. */
  ghost predicate Safe(w: World) { forall v :: Reaches(w, v) ==> AllPresentable(v.db) }

  /** Whatever happens from here on, no publication starts to write under a key that students see problems of. */
  ghost predicate NeverReopens(w: World) { forall v, t :: Reaches(w, v) ==> !Reopens(v, t) }

  lemma {:induction false} PathKeepsOrder(path: seq<World>, i: nat)
    requires IsPath(path) && i < |path| && InOrder(path[0])
    ensures InOrder(path[i])
  {
    if i > 0 {
      PathKeepsOrder(path, i - 1);
      assert Moves(path[i - 1], path[i - 1 + 1]);
      hide Moves, InOrder;
      MoveKeepsOrder(path[i - 1], path[i]);
    }
  }

  lemma Passes(path: seq<World>, w: World, v: World, j: nat)
    requires PathTo(path, w, v) && j < |path|
    ensures Reaches(w, path[j])
  {
    hide Moves;
    var start := path[..j + 1];
    forall i {:trigger start[i]} | 0 <= i < |start| - 1 ensures Moves(start[i], start[i + 1]) {
      assert Moves(path[i], path[i + 1]);
    }
    assert PathTo(start, w, path[j]);
  }

  lemma Joined(path: seq<World>, more: seq<World>, w: World, v: World, x: World)
    requires PathTo(path, w, v) && PathTo(more, v, x)
    ensures Reaches(w, x)
  {
    hide Moves;
    var all := path + more[1..];
    forall i | 0 <= i < |all| - 1 ensures Moves(all[i], all[i + 1]) {
      if i < |path| - 1 {
        assert Moves(path[i], path[i + 1]);
      } else {
        assert Moves(more[i - |path| + 1], more[i - |path| + 1 + 1]);
      }
    }
    assert PathTo(all, w, x);
  }

  lemma HarmlessMove(w: World, v: World)
    requires Moves(w, v) && forall t :: !Reopens(w, t)
    ensures MovesHarmlessly(w, v)
  {
    var a :| Enabled(w, a) && v == Act(w, a);
    assert Harmless(w, a);
    hide Act, Enabled, Harmless, Reopens;
  }

  lemma UnreopenedSafe(w: World, path: seq<World>, v: World)
    requires SeenOk(w) && NeverReopens(w) && PathTo(path, w, v)
    ensures AllPresentable(v.db)
  {
    hide Moves, MovesHarmlessly, Reopens, SeenOk, Reaches;
    forall j | 0 <= j < |path| - 1 ensures MovesHarmlessly(path[j], path[j + 1]) {
      assert Moves(path[j], path[j + 1]);
      Passes(path, w, v, j);
      HarmlessMove(path[j], path[j + 1]);
    }
    PathKeepsSeen(path, |path| - 1);
    SeenPresentable(v);
  }

  lemma SeenPresentable(w: World)
    requires SeenOk(w)
    ensures AllPresentable(w.db) && InOrder(w)
  {
    hide InOrder, AllPresentable, Discreet;
  }

  lemma ReachedBreaks(w: World, v: World, t: nat)
    requires InOrder(w) && Reaches(w, v) && Reopens(v, t)
    ensures !Safe(w)
  {
    assert t in v.tasks;
    hide Reopens, Moves, InOrder, AllPresentable;
    var path :| PathTo(path, w, v);
    PathKeepsOrder(path, |path| - 1);
    hide IsPath, Breaks, Reaches;
    var more := ReopeningBreaks(v, t);
    var x := BrokenEnd(v, t, more);
    Joined(path, more, w, v, x);
  }

  lemma BrokenEnd(w: World, t: nat, path: seq<World>) returns (x: World)
    requires t in w.tasks && Breaks(w, t, path)
    ensures PathTo(path, w, x) && !AllPresentable(x.db)
  {
    hide Moves, MovesHarmlessly, Advance, AllPresentable;
    x := path[|path| - 1];
  }

  /**
   What students see is safe for all that may come exactly when no publication can come to start under
   a key whose problems they see.
   */
  lemma SafeUnlessReopened(w: World)
    requires SeenOk(w)
    ensures Safe(w) <==> NeverReopens(w)
  {
    hide SeenOk, Reopens, InOrder, AllPresentable, PathTo;
    SeenPresentable(w);
    if NeverReopens(w) {
      forall v | Reaches(w, v) ensures AllPresentable(v.db) {
        var path :| PathTo(path, w, v);
        UnreopenedSafe(w, path, v);
      }
    } else {
      var v, t :| Reaches(w, v) && Reopens(v, t);
      ReachedBreaks(w, v, t);
    }
  }

  // ---------------------------------------------------------------- a remedy

  /** The publication finds its draft unpublished when it starts to write. */
  ghost predicate Rereads(w: World, a: Action) {
    a.Step? && a.tid in w.tasks && w.tasks[a.tid].Publish? && w.tasks[a.tid].p.pc.Inside? ==> Publishable(w.db, w.tasks[a.tid].p.sync.key)
  }

  /** Reading the draft again under the offering lock would do: problems of an unpublished draft are not linked. */
  lemma RereadingSuffices(w: World, a: Action)
    requires InOrder(w) && Rereads(w, a)
    ensures Harmless(w, a)
  {
    if a.Step? && a.tid in w.tasks && w.tasks[a.tid].Publish? && w.tasks[a.tid].p.pc.Inside? {
      UnpublishedUnseen(w, w.tasks[a.tid].p.sync.key);
    }
    hide InOrder, Publishable, Exposed;
  }

  lemma UnpublishedUnseen(w: World, key: nat)
    requires InOrder(w) && Publishable(w.db, key)
    ensures !Exposed(w.db, key)
  {
    hide Integrity.IntegrityOk, TaskOk, Publishable;
    forall l ensures !Exposes(w.db, key, l) {
      assert l in w.db.links ==> LinkSettled(w.db, w.revisions, l);
    }
  }

  ghost predicate MovesRereading(w: World, v: World) {
    exists a :: Enabled(w, a) && v == Act(w, a) && Rereads(w, a)
  }

  /** So in runs in which every publication finds its draft unpublished there, students see complete problems only. */
  lemma {:induction false} RereadRunsSeen(path: seq<World>, i: nat)
    requires IsPath(path) && i < |path| && SeenOk(path[0])
    requires forall j | 0 <= j < i :: MovesRereading(path[j], path[j + 1])
    ensures SeenOk(path[i])
  {
    if i > 0 {
      RereadRunsSeen(path, i - 1);
      assert MovesRereading(path[i - 1], path[i - 1 + 1]);
      var a :| Enabled(path[i - 1], a) && path[i] == Act(path[i - 1], a) && Rereads(path[i - 1], a);
      hide SeenOk, Act, Enabled, Harmless, Rereads, InOrder;
      SeenPresentable(path[i - 1]);
      RereadingSuffices(path[i - 1], a);
      ActKeepsSeen(path[i - 1], a);
    }
  }
}
