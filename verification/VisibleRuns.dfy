/**
 How publications, edits, removals and course deletions proceed; what every run keeps; and the theorem
 about what students see: it is always complete, unless a publication starts to write under a key whose
 problems students can open already.
 */
module VisibleRuns {
  import opened Values
  import opened Tables
  import opened Machine
  import opened Locks
  import opened Visibility
  import Integrity

  // ---------------------------------------------------------------- the progress of a request

  function NoProgress(tk: Task): Progress {
    Progress(0, false, false, false, LockedOffering(tk), OidOf(tk), None, false, false, {}, {}, {}, {},
             "", false, None, None, None, {}, false, false, None)
  }

  function Slugs(items: seq<Item>, i: nat): set<string> { set m | 0 <= m < i && m < |items| :: items[m].slug }

  function SlugAt(y: Sync): string { if y.i < |y.items| then y.items[y.i].slug else "" }

  function TestsAt(y: Sync): seq<Case> { if y.i < |y.items| then y.items[y.i].tests else [] }

  /** The two differ in the finished problems and the one in the works only. */
  predicate RowOnly(c: Progress, n: Progress) {
    n == c.(slugs := n.slugs, pids := n.pids, shown := n.shown, slug := n.slug, absent := n.absent, row := n.row,
            wants := n.wants, written := n.written)
  }

  /** Finished problems only. */
  function Finished(c: Progress, y: Sync): (f: Progress)
    ensures RowOnly(c, f)
  {
    c.(slugs := Slugs(y.items, y.i), pids := PidSet(y.pids), slug := "", absent := false, row := None, wants := None, written := None)
  }

  /** Finished problems and the one in the works. */
  function Stage(c: Progress, y: Sync): (f: Progress)
    ensures RowOnly(c, f)
  {
    var f := Finished(c, y).(slug := SlugAt(y));
    if y.at.Lookup? then f
    else if y.at.Row? then f.(absent := y.found.None?, row := y.found)
    else if y.at.Clear? then f.(row := Some(y.pid), wants := Some(TestsAt(y)))
    else f.(row := Some(y.pid), wants := Some(TestsAt(y)), written := if y.j <= |TestsAt(y)| then Some(TestsAt(y)[..y.j]) else None)
  }

  /** The problem is written, its tests are complete. */
  function Complete(c: Progress, y: Sync): (f: Progress)
    ensures RowOnly(c, f)
  {
    Finished(c, y).(slug := SlugAt(y), row := Some(y.pid), wants := Some(TestsAt(y)), written := Some(TestsAt(y)))
  }

  predicate Bound(pc: PublishPc) { pc.NextItem? || pc.Writing? || pc.Hide? || pc.ShowAll? || pc.Commit? }

  /** The offering has been checked; from here on the publication writes. */
  predicate Busy(pc: PublishPc) { Bound(pc) || pc.Ensure? }

  function PublishProgress(p: PublishTask): Progress {
    var c := NoProgress(Publish(p));
    if !Integrity.Choosing(p.pc) then c
    else
      var k := c.(key := p.sync.key, named := true, publishing := Busy(p.pc), open := Busy(p.pc),
                  target := if Bound(p.pc) then Some(p.bid) else None, bound := Bound(p.pc));
      if p.pc.Writing? then Stage(k, p.sync)
      else if p.pc.Commit? then Finished(k, p.sync).(shown := PidSet(p.sync.pids))
      else if Bound(p.pc) then Finished(k, p.sync)
      else k
  }

  predicate Editing(pc: EditPc) {
    pc.Close? || pc.NextItem? || pc.Writing? || pc.Repointing? || pc.Reveal? || pc.Purging? || pc.Commit?
  }

  predicate Targeted(pc: EditPc) { !pc.WantPublish? && !pc.Opened? && !pc.Exit? }

  function EditProgress(e: EditTask): Progress {
    var c := NoProgress(Edit(e)).(target := if Targeted(e.pc) then Some(e.bid) else None);
    if Editing(e.pc) then
      var k := c.(key := e.sync.key, revising := true, bound := true, open := true, same := e.same,
                  erasable := e.clean.todo, shown := PidSet(e.sync.pids));
      if e.pc.Writing? then Stage(k, e.sync)
      else if e.pc.Repointing? || e.pc.Reveal? then Complete(k, e.sync)
      else Finished(k, e.sync)
    else if e.pc.Cleaning? || e.pc.Rejudge? then Erasing(c.(erasable := PidSet(e.sync.pids)), e.pc.Cleaning?, e.clean)
    else c
  }

  /** The problems a cleanup goes through, and the one it has seen to be unused. */
  function Erasing(c: Progress, cleaning: bool, clean: Clean): Progress {
    c.(erasable := c.erasable + Integrity.Erasable(clean),
       cleaned := if cleaning && Integrity.Erasing(clean) then Some(clean.cur) else None)
  }

  predicate Removing(pc: RemovePc) { pc.Close? || pc.Purging? || pc.Commit? || pc.Cleaning? }

  function RemoveProgress(r: RemoveTask): Progress {
    var c := NoProgress(Remove(r)).(
      target := if r.pc.WantPublish? || r.pc.Opened? || r.pc.NextBatch? || r.pc.DropDraft? || r.pc.Exit? then None else Some(r.bid));
    if Removing(r.pc) then Erasing(c, r.pc.Cleaning?, r.clean) else c
  }

  function DeleteProgress(d: DeleteTask): Progress {
    var c := NoProgress(Delete(d)).(whole := Deleting(d.pc), closed := Deleting(d.pc) && !d.pc.Close?);
    if Deleting(d.pc) then Erasing(c, d.pc.Cleaning?, d.clean) else c
  }

  function ProgressOf(tk: Task): Progress {
    match tk
    case Submit(s) => NoProgress(tk)
    case Publish(p) => PublishProgress(p)
    case Edit(e) => EditProgress(e)
    case Remove(r) => RemoveProgress(r)
    case Delete(d) => DeleteProgress(d)
  }

  /** A document names every problem once and tests it, and its publication starts with the first. */
  predicate Sound(tk: Task) {
    match tk
    case Publish(p) => DistinctSlugs(p.sync.items) && AllTested(p.sync.items)
      && (p.pc.WantOffering? || p.pc.Inside? || p.pc.Ensure? ==> p.sync.pids == [] && p.sync.i == 0)
    case Edit(e) => DistinctSlugs(e.sync.items) && (e.pc.Repointing? || e.pc.Reveal? ==> e.sync.i < |e.sync.items|)
    case _ => true
  }

  lemma AlwaysGrounded(tk: Task)
    ensures Grounded(ProgressOf(tk))
    ensures ProgressOf(tk).cleaned.Some? && ProgressOf(tk).whole ==> ProgressOf(tk).closed
    ensures ProgressOf(tk).locked == LockedOffering(tk)
  {
    match tk
    case Submit(s) =>
    case Publish(p) => PublishGrounded(p);
    case Edit(e) => EditGrounded(e);
    case Remove(r) => RemoveGrounded(r);
    case Delete(d) =>
  }

  lemma PublishGrounded(p: PublishTask)
    ensures var c := PublishProgress(p); Grounded(c) && c.cleaned.None? && c.locked == LockedOffering(Publish(p))
  {
    hide Slugs, PidSet, SlugAt, TestsAt;
  }

  lemma EditGrounded(e: EditTask)
    ensures var c := EditProgress(e); Grounded(c) && (c.cleaned.Some? && c.whole ==> c.closed) && c.locked == LockedOffering(Edit(e))
  {
  }

  lemma RemoveGrounded(r: RemoveTask)
    ensures var c := RemoveProgress(r); Grounded(c) && (c.cleaned.Some? && c.whole ==> c.closed) && c.locked == LockedOffering(Remove(r))
  {
  }

  // ---------------------------------------------------------------- writing one problem

  /** The problem in the works is none of the finished ones: its slug is new. */
  lemma NewSlug(db: Db, c: Progress, y: Sync, x: nat)
    requires DistinctSlugs(y.items) && y.i < |y.items|
    requires x in db.problems && db.problems[x].source == Authored(c.key, SlugAt(y))
    ensures !Made(db, c.key, Slugs(y.items, y.i), x)
  {
  }

  lemma SlugsGrow(items: seq<Item>, i: nat)
    requires i < |items|
    ensures Slugs(items, i + 1) == Slugs(items, i) + {items[i].slug}
  {
  }

  lemma LookupOk(db: Db, c: Progress, y: Sync)
    requires y.i < |y.items| && y.key == c.key && RowOk(db, Stage(c, y)) && y.at.Lookup?
    ensures RowOk(db, Stage(c, SyncNext(db, y)))
  {
    hide Made, Tested;
  }

  lemma RowUpdated(db: Db, c: Progress, y: Sync)
    requires y.i < |y.items| && y.key == c.key && RowOk(db, Stage(c, y)) && DistinctSlugs(y.items)
    requires y.at.Row? && y.found.Some?
    ensures RowOk(Exec(db, SyncStmt(y)), Stage(c, SyncNext(db, y)))
  {
    NewSlug(db, c, y, y.found.value);
    assert Exec(db, SyncStmt(y)) == UpdateProblem(db, y.found.value, y.items[y.i].content, TestsAt(y));
    hide DistinctSlugs, Slugs;
  }

  lemma RowInserted(db: Db, c: Progress, y: Sync)
    requires y.i < |y.items| && y.key == c.key && RowOk(db, Stage(c, y)) && y.at.Row? && y.found.None?
    requires forall p :: p in db.problems ==> p < db.nextPid
    ensures RowOk(Exec(db, SyncStmt(y)), Stage(c, SyncNext(db, y)))
  {
    assert Exec(db, SyncStmt(y)) == InsertProblem(db, Authored(y.key, SlugAt(y)), y.items[y.i].content, TestsAt(y));
    hide DistinctSlugs, Slugs;
  }

  lemma TestsCleared(db: Db, c: Progress, y: Sync)
    requires y.i < |y.items| && RowOk(db, Stage(c, y)) && y.at.Clear? && DistinctSlugs(y.items)
    ensures RowOk(Exec(db, SyncStmt(y)), Stage(c, SyncNext(db, y)))
  {
    NewSlug(db, c, y, y.pid);
    assert Exec(db, SyncStmt(y)) == db.(tests := db.tests[y.pid := []]);
    hide DistinctSlugs, Slugs;
  }

  lemma TestWritten(db: Db, c: Progress, y: Sync)
    requires y.i < |y.items| && RowOk(db, Stage(c, y)) && y.at.Tests? && y.j < |TestsAt(y)| && DistinctSlugs(y.items)
    ensures RowOk(Exec(db, SyncStmt(y)), Stage(c, SyncNext(db, y)))
  {
    NewSlug(db, c, y, y.pid);
    assert Exec(db, SyncStmt(y)) == db.(tests := db.tests[y.pid := db.tests[y.pid] + [TestsAt(y)[y.j]]]);
    assert TestsAt(y)[..y.j] + [TestsAt(y)[y.j]] == TestsAt(y)[..y.j + 1];
    hide DistinctSlugs, Slugs;
  }

  /** All tests written: the problem is complete. */
  lemma ProblemComplete(db: Db, c: Progress, y: Sync)
    requires SyncedTests(y) && RowOk(db, Stage(c, y))
    ensures RowOk(db, Complete(c, y))
  {
    hide Made;
    assert TestsAt(y)[..y.j] == TestsAt(y);
  }

  /** A complete problem joins the finished ones. */
  lemma ProblemFinished(db: Db, c: Progress, y: Sync)
    requires y.i < |y.items| && RowOk(db, Complete(c, y))
    ensures RowOk(db, Finished(c, Synced(y, y.pid)))
  {
    SlugsGrow(y.items, y.i);
    var f, n := Finished(c, y), Finished(c, Synced(y, y.pid));
    forall x | x in n.pids ensures x in n.same || Made(db, n.key, n.slugs, x) {
      assert x in f.pids || x == y.pid;
    }
  }

  lemma SyncRowOk(db: Db, c: Progress, y: Sync)
    requires y.i < |y.items| && y.key == c.key && RowOk(db, Stage(c, y)) && DistinctSlugs(y.items)
    requires forall p :: p in db.problems ==> p < db.nextPid
    ensures RowOk(Exec(db, SyncStmt(y)), Stage(c, SyncNext(db, y)))
  {
    hide RowOk, Stage, DistinctSlugs;
    if y.at.Lookup? {
      LookupOk(db, c, y);
    } else if y.at.Row? {
      if y.found.Some? {
        RowUpdated(db, c, y);
      } else {
        RowInserted(db, c, y);
      }
    } else if y.at.Clear? {
      TestsCleared(db, c, y);
    } else if y.j < |TestsAt(y)| {
      TestWritten(db, c, y);
    }
  }

  // ---------------------------------------------------------------- what a request keeps of its own

  lemma OwnBatch(db: Db, d: Db, c: Progress)
    requires BatchOk(db, c) && SameRows(db, d)
    ensures BatchOk(d, c)
  {
  }

  lemma OwnRow(db: Db, d: Db, c: Progress)
    requires RowOk(db, c) && SameProblems(db, d)
    ensures RowOk(d, c)
  {
    assert forall x :: x in d.problems ==> Untouched(db, d, x);
  }

  lemma OwnClean(db: Db, revisions: map<nat, nat>, d: Db, revisionsAfter: map<nat, nat>, t: nat, c: Progress)
    requires CleanOk(db, revisions, c) && Integrity.KeysOk(db, revisions)
    requires Guarantee(db, d, c.locked, KeyOf(c), c.cleaned) && RevisionsMove(db, revisions, revisionsAfter, t)
    requires c.cleaned.Some? ==> SameRows(db, d)
    ensures CleanOk(d, revisionsAfter, c)
  {
    forall x | x in c.erasable ensures MayErase(d, revisionsAfter, c.oid, x) {
      assert MayErase(db, revisions, c.oid, x);
    }
  }

  // ---------------------------------------------------------------- a publication

  ghost predicate StepPre(db: Db, revisions: map<nat, nat>, t: nat, tk: Task, pick: nat) {
    && Orderly(db, revisions) && Integrity.KeysOk(db, revisions)
    && Warranted(db, revisions, t, ProgressOf(tk)) && Sound(tk) && Picks(tk, pick)
  }

  lemma PublishTxPermitted(db: Db, revisions: map<nat, nat>, t: nat, p: PublishTask, pick: nat)
    requires StepPre(db, revisions, t, Publish(p), pick) && p.pc.Commit?
    ensures Permitted(db, revisions, PublishProgress(p), PublishStmt(p))
  {
    hide LinksSettled, OneRowEach;
    if |p.sync.pids| == |p.sync.items| {
      assert forall x :: x in Slots(p.sync) ==> x.pid in PublishProgress(p).pids && x.pid in PublishProgress(p).shown;
    }
  }

  /** Writing a problem stays under the request's key. */
  lemma SyncPermitted(db: Db, revisionsAfter: map<nat, nat>, b: Progress, c: Progress, y: Sync)
    requires y.i < |y.items| && c == Stage(b, y) && RowOk(db, c) && KeyOf(c) == Some(y.key)
    ensures Permitted(db, revisionsAfter, c, SyncStmt(y))
  {
    hide Made, Finished, Slugs, PidSet;
    if y.at.Row? && y.found.None? {
      assert c.absent;
    } else if !y.at.Lookup? {
      assert c.row.Some?;
    }
  }

  lemma PublishPermitted(db: Db, revisions: map<nat, nat>, t: nat, p: PublishTask, pick: nat)
    requires StepPre(db, revisions, t, Publish(p), pick)
    ensures Permitted(db, revisions, PublishProgress(p), PublishStmt(p))
  {
    if p.pc.Commit? {
      PublishTxPermitted(db, revisions, t, p, pick);
    } else if p.pc.Writing? && p.sync.i < |p.sync.items| {
      PublishWritingPermitted(db, revisions, t, p, pick);
    } else {
      PublishRestPermitted(db, revisions, t, p, pick);
    }
  }

  function PublishBase(p: PublishTask): Progress {
    NoProgress(Publish(p)).(key := p.sync.key, named := true, publishing := Busy(p.pc), open := Busy(p.pc),
                            target := if Bound(p.pc) then Some(p.bid) else None, bound := Bound(p.pc))
  }

  lemma PublishWritingPermitted(db: Db, revisions: map<nat, nat>, t: nat, p: PublishTask, pick: nat)
    requires StepPre(db, revisions, t, Publish(p), pick) && p.pc.Writing? && p.sync.i < |p.sync.items|
    ensures Permitted(db, revisions, PublishProgress(p), PublishStmt(p))
  {
    hide Orderly, BatchOk, KeyOk, CleanOk, RowOk, Permitted, SyncStmt;
    SyncPermitted(db, revisions, PublishBase(p), PublishProgress(p), p.sync);
  }

  lemma PublishRestPermitted(db: Db, revisions: map<nat, nat>, t: nat, p: PublishTask, pick: nat)
    requires StepPre(db, revisions, t, Publish(p), pick) && !p.pc.Commit? && !(p.pc.Writing? && p.sync.i < |p.sync.items|)
    ensures Permitted(db, revisions, PublishProgress(p), PublishStmt(p))
  {
    hide Orderly, BatchOk, CleanOk, RowOk, PublishNext, Slots;
  }

  // the state after each step

  lemma StageRowOnly(b: Progress, y: Sync, z: Sync)
    ensures RowOnly(Stage(b, y), Stage(b, z)) && RowOnly(Stage(b, y), Finished(b, z)) && RowOnly(Stage(b, y), Complete(b, z))
  {
    hide Stage, Finished, Complete;
  }

  /** A step that moves nothing but the problems in the works. */
  lemma RowStep(db: Db, d: Db, revisions: map<nat, nat>, t: nat, c: Progress, n: Progress)
    requires Warranted(db, revisions, t, c) && SameRows(db, d) && SameKeys(db, d)
    requires RowOnly(c, n)
    requires RowOk(d, n) && CleanOk(d, revisions, c)
    ensures Warranted(d, revisions, t, n)
  {
    hide RowOk;
    OwnBatch(db, d, c);
  }

  lemma NothingToClean(db: Db, revisions: map<nat, nat>, c: Progress)
    requires c.erasable == {} && !c.closed && c.cleaned.None?
    ensures CleanOk(db, revisions, c)
  {
  }

  lemma PublishKeyProgress(db: Db, revisions: map<nat, nat>, t: nat, p: PublishTask, pick: nat)
    requires StepPre(db, revisions, t, Publish(p), pick) && (p.pc.Opened? || p.pc.NextOffering?)
    ensures Warranted(Exec(db, PublishStmt(p)), revisions, t, PublishProgress(PublishNext(db, p)))
  {
    hide LinksSettled, RowsOk, OneRowEach, Warranted, Exec, PublishProgress;
    var n, d := PublishNext(db, p), Exec(db, PublishStmt(p));
    PublishNamed(db, p);
    NamedProgress(n);
    NamedOk(d, revisions, t, PublishProgress(n));
  }

  /** The key it draws or is given has its home in the offering. */
  lemma PublishNamed(db: Db, p: PublishTask)
    requires HomesOk(db) && (p.pc.Opened? || p.pc.NextOffering?)
    ensures var n := PublishNext(db, p);
      && (n.pc.WantOffering? || n.pc.NextOffering? || n.pc.Exit?)
      && (n.pc.WantOffering? ==> InHome(Exec(db, PublishStmt(p)), n.sync.key, n.oid))
  {
  }

  lemma NamedProgress(p: PublishTask)
    requires p.pc.WantOffering? || p.pc.NextOffering? || p.pc.Exit?
    ensures var c := PublishProgress(p);
      c == NoProgress(Publish(p)).(key := c.key, named := p.pc.WantOffering?) && (c.named ==> c.key == p.sync.key) && c.oid == p.oid
  {
  }

  lemma NamedOk(db: Db, revisions: map<nat, nat>, t: nat, c: Progress)
    requires NoRow(c) && Loose(c) && c.target.None? && !c.revising && !c.closed && c.erasable == {}
    requires c.named ==> InHome(db, c.key, c.oid)
    ensures Warranted(db, revisions, t, c)
  {
  }

  lemma PublishInsideProgress(db: Db, revisions: map<nat, nat>, t: nat, p: PublishTask, pick: nat)
    requires StepPre(db, revisions, t, Publish(p), pick) && p.pc.Inside?
    ensures Warranted(db, revisions, t, PublishProgress(PublishNext(db, p)))
  {
    hide LinksSettled, RowsOk, OneRowEach, HomesOk;
  }

  lemma EnsureShape(db: Db, p: PublishTask)
    requires p.pc.Ensure? && p.sync.pids == []
    ensures var c, n := PublishProgress(p), PublishProgress(PublishNext(db, p));
      && c.named && c.publishing && c.key == p.sync.key && c.oid == p.oid && c.same == {} && NoRow(c)
      && !n.closed && n.erasable == {} && n.cleaned.None? && NoRow(n)
    ensures Exec(db, PublishStmt(p)) == EnsureBatch(db, p.oid, p.sync.key, if p.deploys then p.outer else None)
  {
    hide KeyUsed, EnsureBatch;
  }

  lemma PublishEnsured(db: Db, p: PublishTask)
    requires p.pc.Ensure? && p.sync.pids == []
    ensures var n := PublishNext(db, p);
      && n == p.(pc := PublishPc.NextItem, bid := n.bid)
      && n.bid == (if KeyUsed(db, p.sync.key) then BatchOf(db, p.sync.key) else db.nextBid)
      && PublishProgress(n) == PublishProgress(p).(target := Some(n.bid), bound := true, slugs := PublishProgress(n).slugs)
  {
    hide KeyUsed;
  }

  /** Found or new, the batch of the key belongs to the offering. */
  lemma EnsuredBatch(db: Db, p: PublishTask)
    requires RowsOk(db) && HomesOk(db) && InHome(db, p.sync.key, p.oid)
    ensures var d, bid := EnsureBatch(db, p.oid, p.sync.key, if p.deploys then p.outer else None),
                if KeyUsed(db, p.sync.key) then BatchOf(db, p.sync.key) else db.nextBid;
      bid < d.nextBid && bid in d.batches && d.batches[bid].oid == p.oid
  {
    hide NextSeq;
  }

  lemma PublishEnsureProgress(db: Db, revisions: map<nat, nat>, t: nat, p: PublishTask, pick: nat)
    requires StepPre(db, revisions, t, Publish(p), pick) && p.pc.Ensure?
    ensures Warranted(Exec(db, PublishStmt(p)), revisions, t, PublishProgress(PublishNext(db, p)))
  {
    hide PublishNext, PublishStmt, PublishProgress, Exec, EnsureBatch, LinksSettled, OneRowEach, KeyUsed, RowOk,
      CleanOk, NoRow, Integrity.KeysOk, HomesOk, RowsOk, Picks;
    var n := PublishProgress(PublishNext(db, p));
    var d := EnsureBatch(db, p.oid, p.sync.key, if p.deploys then p.outer else None);
    PublishEnsured(db, p);
    EnsureShape(db, p);
    EnsuredBatch(db, p);
    NoRowOk(db, d, n);
    NothingToClean(d, revisions, n);
  }

  lemma PublishNextItemProgress(db: Db, revisions: map<nat, nat>, t: nat, p: PublishTask, pick: nat)
    requires StepPre(db, revisions, t, Publish(p), pick) && p.pc.NextItem?
    ensures Warranted(db, revisions, t, PublishProgress(PublishNext(db, p)))
  {
    hide Orderly, Made;
  }

  lemma HiddenRow(db: Db, c: Progress, key: nat, keep: set<nat>)
    requires RowOk(db, c) && c.shown == {}
    ensures RowOk(HideOthers(db, key, keep), c)
  {
  }

  lemma ShownRow(db: Db, c: Progress, pids: set<nat>)
    requires RowOk(db, c)
    ensures RowOk(Show(db, pids), c.(shown := c.shown + (c.pids * pids)))
  {
    ShowSame(db, pids);
    OwnRow(db, Show(db, pids), c);
  }

  lemma PublishHideProgress(db: Db, revisions: map<nat, nat>, t: nat, p: PublishTask, pick: nat)
    requires StepPre(db, revisions, t, Publish(p), pick) && p.pc.Hide?
    ensures Warranted(Exec(db, PublishStmt(p)), revisions, t, PublishProgress(PublishNext(db, p)))
  {
    var c, d := PublishProgress(p), HideOthers(db, p.sync.key, PidSet(p.sync.pids));
    hide Orderly, Slugs, PidSet, RowOk, KeyOk, BatchOk, CleanOk, HideOthers;
    HiddenRow(db, c, p.sync.key, PidSet(p.sync.pids));
    NothingToClean(d, revisions, c);
    RowStep(db, d, revisions, t, c, c);
  }

  lemma PublishShowProgress(db: Db, revisions: map<nat, nat>, t: nat, p: PublishTask, pick: nat)
    requires StepPre(db, revisions, t, Publish(p), pick) && p.pc.ShowAll?
    ensures Warranted(Exec(db, PublishStmt(p)), revisions, t, PublishProgress(PublishNext(db, p)))
  {
    var c, n, d := PublishProgress(p), PublishProgress(PublishNext(db, p)), Show(db, PidSet(p.sync.pids));
    hide Orderly, Slugs, PidSet, RowOk, KeyOk, BatchOk, CleanOk, Show;
    ShownRow(db, c, PidSet(p.sync.pids));
    assert c.shown + (c.pids * PidSet(p.sync.pids)) == n.shown;
    NothingToClean(d, revisions, c);
    RowStep(db, d, revisions, t, c, n);
  }

  lemma WritingRow(db: Db, b: Progress, y: Sync)
    requires RowOk(db, Stage(b, y)) && y.key == b.key && DistinctSlugs(y.items)
    requires forall p :: p in db.problems ==> p < db.nextPid
    requires y.i < |y.items|
    ensures SyncedTests(y) ==> RowOk(db, Finished(b, Synced(y, y.pid))) && SyncStmt(y).Skip?
    ensures !SyncedTests(y) ==> RowOk(Exec(db, SyncStmt(y)), Stage(b, SyncNext(db, y)))
  {
    hide RowOk, Stage;
    if SyncedTests(y) {
      ProblemComplete(db, b, y);
      ProblemFinished(db, b, y);
    } else {
      SyncRowOk(db, b, y);
    }
  }

  lemma PublishWritingShape(db: Db, p: PublishTask)
    requires p.pc.Writing? && p.sync.i < |p.sync.items|
    ensures PublishStmt(p) == SyncStmt(p.sync) && PublishProgress(p) == Stage(PublishBase(p), p.sync)
    ensures PublishProgress(PublishNext(db, p)) ==
              if SyncedTests(p.sync) then Finished(PublishBase(p), Synced(p.sync, p.sync.pid)) else Stage(PublishBase(p), SyncNext(db, p.sync))
  {
    hide Stage, Finished, SyncNext, SyncStmt;
  }

  lemma PublishStuckProgress(db: Db, revisions: map<nat, nat>, t: nat, p: PublishTask)
    requires Warranted(db, revisions, t, PublishProgress(p)) && p.pc.Writing? && p.sync.i >= |p.sync.items|
    ensures Warranted(Exec(db, PublishStmt(p)), revisions, t, PublishProgress(PublishNext(db, p)))
  {
    assert PublishNext(db, p) == p;
    SkipStays(db, PublishStmt(p));
    hide PublishProgress, Warranted, PublishNext, PublishStmt, Exec;
  }

  lemma PublishWritingProgress(db: Db, revisions: map<nat, nat>, t: nat, p: PublishTask, pick: nat)
    requires StepPre(db, revisions, t, Publish(p), pick) && p.pc.Writing? && p.sync.i < |p.sync.items|
    ensures Warranted(Exec(db, PublishStmt(p)), revisions, t, PublishProgress(PublishNext(db, p)))
  {
    var b, y, c, n, d := PublishBase(p), p.sync, PublishProgress(p), PublishProgress(PublishNext(db, p)), Exec(db, PublishStmt(p));
    PublishWritingShape(db, p);
    assert b.key == y.key && c.erasable == {} && !c.closed && c.cleaned.None?;
    hide LinksSettled, RowsOk, HomesOk, OneRowEach, RowOk, KeyOk, BatchOk, CleanOk, SyncStmt, SyncNext, Exec,
      PublishProgress, PublishNext, PublishStmt, SameRows, SameKeys, Slugs, PidSet, DistinctSlugs, NoProgress, Stage,
      Finished, RowOnly;
    StageRowOnly(b, y, SyncNext(db, y));
    StageRowOnly(b, y, Synced(y, y.pid));
    WritingRow(db, b, y);
    SyncKeepsRest(db, y);
    NothingToClean(d, revisions, c);
    if SyncedTests(y) {
      SyncedStays(db, y);
    }
    RowStep(db, d, revisions, t, c, n);
  }

  lemma SyncedStays(db: Db, y: Sync)
    requires SyncedTests(y)
    ensures Exec(db, SyncStmt(y)) == db
  {
  }

  lemma SkipStays(db: Db, st: Stmt)
    requires st.Skip?
    ensures Exec(db, st) == db
  {
  }

  /** Writing a problem leaves batches, links, offerings and keys alone. */
  lemma SyncKeepsRest(db: Db, y: Sync)
    requires y.i < |y.items|
    ensures SameRows(db, Exec(db, SyncStmt(y))) && SameKeys(db, Exec(db, SyncStmt(y)))
  {
    hide SameRows, SameKeys;
    ExecSameRows(db, SyncStmt(y));
    ExecSameKeys(db, SyncStmt(y));
  }

  // ---------------------------------------------------------------- cleaning up

  lemma ChosenOk(db: Db, revisions: map<nat, nat>, b: Progress, k: Clean, pick: nat)
    requires CleanOk(db, revisions, Erasing(b, true, k)) && k.at.Choose? && pick in k.todo
    ensures CleanOk(db, revisions, Erasing(b, true, Chosen(k, pick)))
  {
    hide MayErase, OpenOffering;
    var c, n := Erasing(b, true, k), Erasing(b, true, Chosen(k, pick));
    assert n.erasable <= c.erasable;
  }

  /** Counting finds no link that would keep the problem. */
  ghost predicate Unlinked(db: Db, c: Progress, x: nat) {
    forall l :: l in db.links && db.links[l].pid == x ==> c.whole && db.links[l].bid in db.batches && db.batches[db.links[l].bid].oid == c.oid
  }

  lemma CleanedOk(db: Db, d: Db, revisions: map<nat, nat>, b: Progress, k: Clean, used: bool)
    requires CleanOk(d, revisions, Erasing(b, true, k)) && !k.at.Choose?
    requires k.at.Count? && !used ==> Unlinked(d, b, k.cur)
    ensures CleanOk(d, revisions, Erasing(b, true, CleanNext(db, k, used)))
  {
    hide MayErase, OpenOffering;
    var c, n := Erasing(b, true, k), Erasing(b, true, CleanNext(db, k, used));
    assert n.erasable == c.erasable;
  }

  /** Fewer problems to clean up. */
  lemma FewerOk(db: Db, revisions: map<nat, nat>, c: Progress, n: Progress)
    requires CleanOk(db, revisions, c) && n.erasable <= c.erasable && n.cleaned.None?
    requires n.oid == c.oid && (n.erasable == {} || n.whole == c.whole) && (n.closed ==> c.closed)
    ensures CleanOk(db, revisions, n)
  {
    hide MayErase, OpenOffering;
  }

  /** Less is left to be cleaned up. */
  predicate Cleans(c: Progress, n: Progress) {
    n.erasable <= c.erasable && n.cleaned.None? && (n.closed ==> c.closed) && (n.erasable == {} || n.whole == c.whole)
  }

  /** The two differ in the cleanup only. */
  predicate OnlyCleans(c: Progress, n: Progress) {
    && n == c.(locked := n.locked, erasable := n.erasable, whole := n.whole, closed := n.closed, cleaned := n.cleaned, target := n.target)
    && (n.target == c.target || (n.target.None? && !n.bound && n.same == {}))
  }

  /** A step that moves nothing but the cleanup. */
  lemma CleanStep(db: Db, revisions: map<nat, nat>, t: nat, c: Progress, n: Progress)
    requires Warranted(db, revisions, t, c) && CleanOk(db, revisions, n)
    requires OnlyCleans(c, n)
    ensures Warranted(db, revisions, t, n)
  {
    hide RowOk, CleanOk;
    assert RowOk(db, n) by { SameRow(db, c, n); }
  }

  lemma SameRow(db: Db, c: Progress, n: Progress)
    requires RowOk(db, c)
    requires n == c.(locked := n.locked, erasable := n.erasable, whole := n.whole, closed := n.closed, cleaned := n.cleaned, target := n.target)
    ensures RowOk(db, n)
  {
    hide Made;
  }

  /** Some batch of the offering links the problem. */
  predicate LinkedIn(db: Db, oid: nat, x: nat) {
    exists l :: l in db.links && db.links[l].pid == x && db.links[l].bid in db.batches && db.batches[db.links[l].bid].oid == oid
  }

  lemma OrderlyLinks(db: Db, revisions: map<nat, nat>)
    requires Orderly(db, revisions)
    ensures LinksSettled(db, revisions) && HomesOk(db)
  {
  }

  lemma LinkedMayErase(db: Db, revisions: map<nat, nat>, oid: nat, pids: set<nat>)
    requires LinksSettled(db, revisions)
    requires forall x :: x in pids ==> LinkedIn(db, oid, x)
    ensures forall x :: x in pids ==> MayErase(db, revisions, oid, x)
  {
    hide Publishable;
    forall x | x in pids ensures MayErase(db, revisions, oid, x) {
      var l :| l in db.links && db.links[l].pid == x && db.links[l].bid in db.batches && db.batches[db.links[l].bid].oid == oid;
      assert LinkSettled(db, revisions, l);
    }
  }

  // ---------------------------------------------------------------- a removal

  lemma RemovePermitted(db: Db, revisions: map<nat, nat>, t: nat, r: RemoveTask, pick: nat)
    requires StepPre(db, revisions, t, Remove(r), pick)
    ensures Permitted(db, revisions, RemoveProgress(r), RemoveStmt(r))
  {
    hide LinksSettled, RowsOk, OneRowEach, MayErase;
  }

  lemma RemoveInsideShape(db: Db, r: RemoveTask, pick: nat)
    requires r.pc.Inside?
    ensures var c, n := RemoveProgress(r), RemoveProgress(RemoveNext(db, r, pick));
      && n == c.(erasable := n.erasable) && n.erasable <= LinkedPids(db, r.bid) && (n.erasable != {} ==> r.bid in db.batches)
  {
    hide LinkedPids, BatchSids, Idle, OpenOffering;
  }

  lemma RemoveInsideProgress(db: Db, revisions: map<nat, nat>, t: nat, r: RemoveTask, pick: nat)
    requires StepPre(db, revisions, t, Remove(r), pick) && r.pc.Inside?
    ensures Warranted(db, revisions, t, RemoveProgress(RemoveNext(db, r, pick)))
  {
    hide Orderly, LinksSettled, HomesOk, MayErase, Idle, RemoveNext, RemoveProgress;
    RemoveInsideShape(db, r, pick);
    RemoveTarget(r);
    var n := RemoveProgress(RemoveNext(db, r, pick));
    if n.erasable != {} {
      assert forall x :: x in LinkedPids(db, r.bid) ==> LinkedIn(db, r.oid, x);
      OrderlyLinks(db, revisions);
      LinkedMayErase(db, revisions, r.oid, LinkedPids(db, r.bid));
    }
  }

  lemma RemoveTarget(r: RemoveTask)
    requires r.pc.Inside?
    ensures var c := RemoveProgress(r); c.target == Some(r.bid) && c.oid == r.oid && c.erasable == {}
  {
  }

  lemma RemoveCountOk(db: Db, r: RemoveTask, b: Progress)
    ensures !Referenced(db, r.clean.cur) ==> Unlinked(db, b, r.clean.cur)
  {
  }

  lemma RemoveCleaningShape(db: Db, r: RemoveTask, pick: nat)
    requires r.pc.Cleaning?
    ensures var c, n := RemoveProgress(r), RemoveProgress(RemoveNext(db, r, pick));
      var b := c.(erasable := {}, cleaned := None);
      && c == Erasing(b, true, r.clean) && OnlyCleans(c, n)
      && (r.clean.at.Choose? && r.clean.todo != {} ==> n == Erasing(b, true, Chosen(r.clean, pick)))
      && (!r.clean.at.Choose? ==> n == Erasing(b, true, CleanNext(db, r.clean, Referenced(db, r.clean.cur))))
      && (r.clean.at.Choose? && r.clean.todo == {} ==> Cleans(c, n))
  {
    hide Referenced, CleanNext;
  }

  lemma RemoveCleaningProgress(db: Db, revisions: map<nat, nat>, d: Db, t: nat, r: RemoveTask, pick: nat)
    requires StepPre(db, revisions, t, Remove(r), pick) && r.pc.Cleaning?
    requires Warranted(d, revisions, t, RemoveProgress(r))
    requires r.clean.at.Count? ==> d == db
    ensures Warranted(d, revisions, t, RemoveProgress(RemoveNext(db, r, pick)))
  {
    var b := RemoveProgress(r).(erasable := {}, cleaned := None);
    var c, n := RemoveProgress(r), RemoveProgress(RemoveNext(db, r, pick));
    RemoveCleaningShape(db, r, pick);
    RemoveCountOk(db, r, b);
    hide LinksSettled, HomesOk, OneRowEach, CleanOk, CleanNext, Referenced, KeyOk, RowOk, BatchOk, Unlinked,
      RemoveProgress, RemoveNext, Erasing;
    if r.clean.at.Choose? && r.clean.todo != {} {
      ChosenOk(d, revisions, b, r.clean, pick);
    } else if !r.clean.at.Choose? {
      CleanedOk(db, d, revisions, b, r.clean, Referenced(db, r.clean.cur));
    } else {
      FewerOk(d, revisions, c, n);
    }
    CleanStep(d, revisions, t, c, n);
  }

  lemma RemoveRestShape(db: Db, r: RemoveTask, pick: nat)
    requires !r.pc.Inside? && !r.pc.Cleaning? && !r.pc.NextBatch?
    ensures OnlyLocks(RemoveProgress(r), RemoveProgress(RemoveNext(db, r, pick)))
  {
    hide DraftBids, Idle;
  }

  lemma RemoveNextBatchProgress(
    db: Db, revisions: map<nat, nat>, d: Db, t: nat, r: RemoveTask, pick: nat)
    requires r.pc.NextBatch? && RowsOk(db) && RowsMove(db, d, RemoveProgress(r).locked, KeyOf(RemoveProgress(r)))
    ensures Warranted(d, revisions, t, RemoveProgress(RemoveNext(db, r, pick)))
  {
  }

  lemma RemoveRestProgress(db: Db, revisions: map<nat, nat>, d: Db, t: nat, r: RemoveTask, pick: nat)
    requires StepPre(db, revisions, t, Remove(r), pick) && !r.pc.Inside? && !r.pc.Cleaning?
    requires Warranted(d, revisions, t, RemoveProgress(r)) && RowsMove(db, d, RemoveProgress(r).locked, KeyOf(RemoveProgress(r)))
    ensures Warranted(d, revisions, t, RemoveProgress(RemoveNext(db, r, pick)))
  {
    if r.pc.NextBatch? {
      RemoveNextBatchProgress(db, revisions, d, t, r, pick);
    } else {
      RemoveRestShape(db, r, pick);
      hide RemoveProgress, RemoveNext, Orderly, Warranted, OnlyLocks;
      MovedOk(d, revisions, t, RemoveProgress(r), RemoveProgress(RemoveNext(db, r, pick)));
    }
  }

  // ---------------------------------------------------------------- a course deletion

  lemma DeletePermitted(db: Db, revisions: map<nat, nat>, t: nat, k: DeleteTask, pick: nat)
    requires StepPre(db, revisions, t, Delete(k), pick)
    ensures Permitted(db, revisions, DeleteProgress(k), DeleteStmt(k))
  {
    hide LinksSettled, RowsOk, OneRowEach, MayErase;
  }

  lemma DeleteInsideProgress(db: Db, revisions: map<nat, nat>, t: nat, k: DeleteTask, pick: nat)
    requires StepPre(db, revisions, t, Delete(k), pick) && k.pc.Inside?
    ensures Warranted(db, revisions, t, DeleteProgress(DeleteNext(db, k, pick)))
  {
    hide Orderly, LinksSettled, HomesOk, MayErase, Idle;
    var n := DeleteProgress(DeleteNext(db, k, pick));
    if n.erasable != {} {
      assert forall x :: x in OfferingPids(db, k.oid) ==> LinkedIn(db, k.oid, x);
      OrderlyLinks(db, revisions);
      LinkedMayErase(db, revisions, k.oid, OfferingPids(db, k.oid));
      StagedMayErase(db, revisions, k.oid);
    }
  }

  /** Problems staged under keys of the offering. */
  lemma StagedMayErase(db: Db, revisions: map<nat, nat>, oid: nat)
    requires HomesOk(db) && Integrity.KeysOk(db, revisions)
    ensures forall x :: x in StagedPids(db, oid) ==> MayErase(db, revisions, oid, x)
  {
  }

  lemma DeleteCloseProgress(db: Db, revisions: map<nat, nat>, d: Db, t: nat, k: DeleteTask, pick: nat)
    requires k.pc.Close? && Warranted(d, revisions, t, DeleteProgress(k)) && !OpenOffering(d, k.oid)
    ensures Warranted(d, revisions, t, DeleteProgress(DeleteNext(db, k, pick)))
  {
    hide MayErase;
    var c, n := DeleteProgress(k), DeleteProgress(DeleteNext(db, k, pick));
  }

  lemma DeleteCountOk(db: Db, k: DeleteTask, b: Progress)
    requires RowsOk(db) && b.whole && b.oid == k.oid
    ensures !Shared(db, k.clean.cur, k.oid, k.course) ==> Unlinked(db, b, k.clean.cur)
  {
  }

  lemma DeleteCleaningShape(db: Db, k: DeleteTask, pick: nat)
    requires k.pc.Cleaning?
    ensures var c, n := DeleteProgress(k), DeleteProgress(DeleteNext(db, k, pick));
      var b := c.(erasable := {}, cleaned := None);
      && c == Erasing(b, true, k.clean) && OnlyCleans(c, n)
      && (k.clean.at.Choose? && k.clean.todo != {} ==> n == Erasing(b, true, Chosen(k.clean, pick)))
      && (!k.clean.at.Choose? ==> n == Erasing(b, true, CleanNext(db, k.clean, Shared(db, k.clean.cur, k.oid, k.course))))
      && (k.clean.at.Choose? && k.clean.todo == {} ==> Cleans(c, n))
  {
    hide Shared, CleanNext;
  }

  lemma DeleteCleaningProgress(db: Db, revisions: map<nat, nat>, d: Db, t: nat, k: DeleteTask, pick: nat)
    requires StepPre(db, revisions, t, Delete(k), pick) && k.pc.Cleaning?
    requires Warranted(d, revisions, t, DeleteProgress(k))
    requires k.clean.at.Count? ==> d == db
    ensures Warranted(d, revisions, t, DeleteProgress(DeleteNext(db, k, pick)))
  {
    var b := DeleteProgress(k).(erasable := {}, cleaned := None);
    var c, n := DeleteProgress(k), DeleteProgress(DeleteNext(db, k, pick));
    DeleteCleaningShape(db, k, pick);
    DeleteCountOk(db, k, b);
    hide LinksSettled, HomesOk, OneRowEach, CleanOk, CleanNext, Shared, KeyOk, RowOk, BatchOk, Unlinked, DeleteProgress,
      DeleteNext, Erasing;
    if k.clean.at.Choose? && k.clean.todo != {} {
      ChosenOk(d, revisions, b, k.clean, pick);
    } else if !k.clean.at.Choose? {
      CleanedOk(db, d, revisions, b, k.clean, Shared(db, k.clean.cur, k.oid, k.course));
    } else {
      FewerOk(d, revisions, c, n);
    }
    CleanStep(d, revisions, t, c, n);
  }

  lemma DeleteRestProgress(db: Db, revisions: map<nat, nat>, d: Db, t: nat, k: DeleteTask, pick: nat)
    requires !k.pc.Inside? && !k.pc.Close? && !k.pc.Cleaning? && Warranted(d, revisions, t, DeleteProgress(k))
    ensures Warranted(d, revisions, t, DeleteProgress(DeleteNext(db, k, pick)))
  {
    var c, n := DeleteProgress(k), DeleteProgress(DeleteNext(db, k, pick));
    hide CleanOk, RowOk, KeyOk, BatchOk;
    FewerOk(d, revisions, c, n);
    CleanStep(d, revisions, t, c, n);
  }

  // ---------------------------------------------------------------- an edit

  function EditBase(e: EditTask): Progress {
    NoProgress(Edit(e)).(target := if Targeted(e.pc) then Some(e.bid) else None, key := e.sync.key, revising := true, bound := true, open := true,
                         same := e.same, erasable := e.clean.todo, shown := PidSet(e.sync.pids))
  }

  ghost function RevisionsNext(revisions: map<nat, nat>, t: nat, db: Db, e: EditTask, pick: nat): map<nat, nat> {
    RevisionsAfter(revisions, t, Edit(e), Edit(EditNext(db, e, pick)))
  }

  ghost predicate EditMay(db: Db, revisions: map<nat, nat>, t: nat, e: EditTask, pick: nat) {
    Permitted(db, RevisionsNext(revisions, t, db, e, pick), EditProgress(e), EditStmt(db, e, pick))
  }

  lemma EditTxPermitted(db: Db, revisions: map<nat, nat>, t: nat, e: EditTask, pick: nat)
    requires StepPre(db, revisions, t, Edit(e), pick) && e.pc.Commit?
    ensures EditMay(db, revisions, t, e, pick)
  {
    if |e.sync.pids| == |e.sync.items| {
      var after := RevisionsNext(revisions, t, db, e, pick);
      assert after == revisions - {e.sync.key};
      assert e.bid in db.batches && db.batches[e.bid].oid == e.oid;
      forall x | x in Slots(e.sync)
        ensures Settled(db, after, e.oid, x.pid)
        ensures Carries(db, KeyOf(EditProgress(e)), x.pid) || Linked(db, e.bid, x.pid)
      {
        assert x.pid in EditProgress(e).pids && x.pid in EditProgress(e).shown;
        EditedPid(db, revisions, after, t, e, x.pid);
      }
    }
    hide LinksSettled, OneRowEach, Made, Settled, Carries;
  }

  /** A problem of the edited document is one of the batch, or a finished one of the revision. */
  lemma EditedPid(db: Db, revisions: map<nat, nat>, after: map<nat, nat>, t: nat, e: EditTask, x: nat)
    requires Orderly(db, revisions) && Integrity.KeysOk(db, revisions) && Warranted(db, revisions, t, EditProgress(e))
    requires e.pc.Commit? && x in PidSet(e.sync.pids) && after == revisions - {e.sync.key}
    ensures Settled(db, after, e.oid, x)
    ensures Carries(db, KeyOf(EditProgress(e)), x) || Linked(db, e.bid, x)
  {
    hide OneRowEach, CleanOk;
    var c := EditProgress(e);
    if x in e.same {
      var l :| l in db.links && db.links[l].bid == e.bid && db.links[l].pid == x;
      assert LinkSettled(db, revisions, l);
    } else {
      assert x in c.pids && x in c.shown && Made(db, c.key, c.slugs, x);
    }
  }

  lemma EditWritingPermitted(db: Db, revisions: map<nat, nat>, t: nat, e: EditTask, pick: nat)
    requires StepPre(db, revisions, t, Edit(e), pick) && e.pc.Writing? && e.sync.i < |e.sync.items|
    ensures EditMay(db, revisions, t, e, pick)
  {
    hide Orderly, BatchOk, KeyOk, CleanOk, RowOk, Permitted, SyncStmt;
    SyncPermitted(db, RevisionsNext(revisions, t, db, e, pick), EditBase(e), EditProgress(e), e.sync);
  }

  lemma EditRestStmt(db: Db, e: EditTask, pick: nat)
    requires !e.pc.Commit? && !(e.pc.Writing? && e.sync.i < |e.sync.items|)
    ensures var st := EditStmt(db, e, pick);
      && (st.DropTests? || st.DropProblem? ==> EditProgress(e).cleaned == Some(st.pid))
      && (st.Skip? || st.DrawKey? || st.SetStatus? || st.MoveSolution? || st.ShowAllOf? || st.DropCodes? || st.DropUserCodes?
          || st.DropSolutionRows? || st.DropTests? || st.DropProblem? || st.TallyProblem? || st.ReleaseRows?)
  {
    hide Revisable;
  }

  lemma EditRestPermitted(db: Db, revisions: map<nat, nat>, t: nat, e: EditTask, pick: nat)
    requires StepPre(db, revisions, t, Edit(e), pick) && !e.pc.Commit? && !(e.pc.Writing? && e.sync.i < |e.sync.items|)
    ensures EditMay(db, revisions, t, e, pick)
  {
    hide StepPre, RevisionsNext, Slots, Revisable, EditProgress, EditStmt;
    EditRestStmt(db, e, pick);
  }

  lemma EditOpenedProgress(db: Db, revisions: map<nat, nat>, t: nat, e: EditTask, pick: nat)
    requires StepPre(db, revisions, t, Edit(e), pick) && e.pc.Opened?
    ensures Warranted(db, revisions, t, EditProgress(EditNext(db, e, pick)))
  {
    hide LinksSettled, HomesOk, OneRowEach, EditProgress, EditNext, Integrity.KeysOk;
    EditOpenedShape(db, e, pick);
  }

  /** Nothing is known yet but the batch. */
  lemma EditOpenedShape(db: Db, e: EditTask, pick: nat)
    requires e.pc.Opened?
    ensures var next := EditNext(db, e, pick); var n := EditProgress(next);
      n == NoProgress(Edit(next)).(target := n.target) && (n.target.Some? ==> n.target.value in db.batches && db.batches[n.target.value].oid == n.oid)
  {
  }

  lemma EditRefused(db: Db, revisions: map<nat, nat>, t: nat, e: EditTask, pick: nat)
    requires e.pc.Inside? && !Revisable(db, e)
    ensures EditProgress(EditNext(db, e, pick)) == EditProgress(e)
    ensures Exec(db, EditStmt(db, e, pick)) == db && RevisionsNext(revisions, t, db, e, pick) == revisions
  {
    hide Revisable;
  }

  lemma EditInsideShape(e: EditTask)
    requires e.pc.Inside?
    ensures var c := EditProgress(e);
      c.target == Some(e.bid) && c.oid == e.oid && c.cleaned.None? && !c.closed && !c.named && !c.publishing && NoRow(c)
  {
  }

  lemma EditRevisedShape(db: Db, revisions: map<nat, nat>, t: nat, e: EditTask, pick: nat)
    requires e.pc.Inside? && Revisable(db, e)
    ensures var c, n := EditProgress(e), EditProgress(EditNext(db, e, pick));
      && n == c.(key := db.nextKey, revising := true, bound := true, open := true, same := Unchanged(db, e.sync.items),
                 erasable := Originals(db, e.bid), slugs := n.slugs)
    ensures Exec(db, EditStmt(db, e, pick)) == db.(nextKey := db.nextKey + 1)
    ensures RevisionsNext(revisions, t, db, e, pick) == revisions[db.nextKey := t]
  {
    hide Revisable, Originals, Unchanged, SolutionPids, Dropped;
  }

  /** The problems of the batch may be erased, and those that stay are linked. */
  lemma OriginalsOk(db: Db, revisions: map<nat, nat>, t: nat, e: EditTask)
    requires Orderly(db, revisions) && Integrity.KeysOk(db, revisions) && Revisable(db, e) && db.batches[e.bid].oid == e.oid
    ensures forall x :: x in Originals(db, e.bid) ==> MayErase(db.(nextKey := db.nextKey + 1), revisions[db.nextKey := t], e.oid, x)
    ensures forall x :: x in Unchanged(db, e.sync.items) ==> Linked(db.(nextKey := db.nextKey + 1), e.bid, x)
    ensures e.bid in db.batches && OpenOffering(db, e.oid)
  {
    var d, after := db.(nextKey := db.nextKey + 1), revisions[db.nextKey := t];
    assert forall x :: x in Originals(db, e.bid) ==> LinkedIn(db, e.oid, x);
    LinkedMayErase(db, revisions, e.oid, Originals(db, e.bid));
    forall x | x in Originals(db, e.bid) ensures MayErase(d, after, e.oid, x) {
      assert MayErase(db, revisions, e.oid, x);
    }
    forall x | x in Unchanged(db, e.sync.items) ensures Linked(d, e.bid, x) {
      assert x in Originals(db, e.bid);
    }
  }

  lemma RevisedOid(db: Db, e: EditTask)
    requires BatchOk(db, EditProgress(e)) && e.pc.Inside? && Revisable(db, e)
    ensures db.batches[e.bid].oid == e.oid
  {
  }

  lemma RevisedBatch(db: Db, d: Db, e: EditTask, n: Progress)
    requires BatchOk(db, EditProgress(e)) && e.pc.Inside? && d == db.(nextKey := db.nextKey + 1)
    requires n.target == Some(e.bid) && n.oid == e.oid && e.bid in db.batches && OpenOffering(db, e.oid)
    requires forall x :: x in n.same ==> Linked(d, e.bid, x)
    ensures BatchOk(d, n)
  {
  }

  lemma RevisedClean(d: Db, after: map<nat, nat>, e: EditTask, db: Db, n: Progress)
    requires n.erasable == Originals(db, e.bid) && n.cleaned.None? && !n.closed
    requires forall x :: x in Originals(db, e.bid) ==> MayErase(d, after, e.oid, x)
    requires n.oid == e.oid
    ensures CleanOk(d, after, n)
  {
  }

  lemma EditRevisedProgress(db: Db, revisions: map<nat, nat>, t: nat, e: EditTask, pick: nat)
    requires StepPre(db, revisions, t, Edit(e), pick) && e.pc.Inside? && Revisable(db, e)
    ensures Warranted(Exec(db, EditStmt(db, e, pick)), RevisionsNext(revisions, t, db, e, pick), t, EditProgress(EditNext(db, e, pick)))
  {
    hide EditProgress, EditNext, EditStmt, Exec, Revisable, Originals, Unchanged, RevisionsNext, Orderly, BatchOk,
      RowOk, CleanOk, Integrity.KeysOk, Sound, MayErase, Linked, Picks;
    var n, d := EditProgress(EditNext(db, e, pick)), Exec(db, EditStmt(db, e, pick));
    var after := RevisionsNext(revisions, t, db, e, pick);
    EditRevisedShape(db, revisions, t, e, pick);
    EditInsideShape(e);
    RevisedOid(db, e);
    OriginalsOk(db, revisions, t, e);
    NoRowOk(db, d, n);
    RevisedBatch(db, d, e, n);
    RevisedClean(d, after, e, db, n);
  }

  lemma EditInsideProgress(db: Db, revisions: map<nat, nat>, t: nat, e: EditTask, pick: nat)
    requires StepPre(db, revisions, t, Edit(e), pick) && e.pc.Inside?
    ensures Warranted(Exec(db, EditStmt(db, e, pick)), RevisionsNext(revisions, t, db, e, pick), t, EditProgress(EditNext(db, e, pick)))
  {
    if Revisable(db, e) {
      EditRevisedProgress(db, revisions, t, e, pick);
    } else {
      EditRefused(db, revisions, t, e, pick);
      hide StepPre, Warranted, EditProgress, EditNext, EditStmt, Exec, Revisable;
    }
  }

  lemma EditNextItemShape(db: Db, e: EditTask, pick: nat)
    requires e.pc.NextItem?
    ensures EditProgress(e) == Finished(EditBase(e), e.sync)
    ensures var n := EditProgress(EditNext(db, e, pick));
      if e.sync.i >= |e.sync.items| then n == EditProgress(e)
      else if e.sync.items[e.sync.i].from.Some? && e.sync.items[e.sync.i].from.value in e.same then
        var z := Synced(e.sync, e.sync.items[e.sync.i].from.value);
        n == Finished(EditBase(e).(shown := PidSet(z.pids)), z)
      else n == EditProgress(e).(slug := SlugAt(e.sync))
  {
    hide Slugs, PidSet;
  }

  lemma EditNextItemProgress(db: Db, revisions: map<nat, nat>, t: nat, e: EditTask, pick: nat)
    requires StepPre(db, revisions, t, Edit(e), pick) && e.pc.NextItem?
    ensures Warranted(db, revisions, t, EditProgress(EditNext(db, e, pick)))
  {
    hide Orderly, MayErase, Slugs, CleanOk, KeyOk, BatchOk, EditProgress, EditNext, SameRows, SameKeys;
    var c, n := EditProgress(e), EditProgress(EditNext(db, e, pick));
    EditNextItemShape(db, e, pick);
    if e.sync.i < |e.sync.items| {
      SlugsGrow(e.sync.items, e.sync.i);
    }
    FrameRows(db, db);
    FrameKeys(db, db);
    RowStep(db, db, revisions, t, c, n);
  }

  lemma EditWritingShape(db: Db, e: EditTask, pick: nat)
    requires e.pc.Writing? && e.sync.i < |e.sync.items|
    ensures EditStmt(db, e, pick) == SyncStmt(e.sync) && EditProgress(e) == Stage(EditBase(e), e.sync)
    ensures EditProgress(EditNext(db, e, pick)) ==
              if SyncedTests(e.sync) then Complete(EditBase(e), e.sync) else Stage(EditBase(e), SyncNext(db, e.sync))
  {
    hide Stage, Finished, Complete, SyncNext, SyncStmt, Revisable, Movers;
  }

  lemma EditStuckProgress(db: Db, revisions: map<nat, nat>, t: nat, e: EditTask, pick: nat)
    requires Warranted(db, revisions, t, EditProgress(e)) && e.pc.Writing? && e.sync.i >= |e.sync.items|
    ensures Warranted(Exec(db, EditStmt(db, e, pick)), revisions, t, EditProgress(EditNext(db, e, pick)))
  {
    assert EditNext(db, e, pick) == e;
    SkipStays(db, EditStmt(db, e, pick));
    hide EditProgress, Warranted, EditNext, EditStmt, Exec;
  }

  lemma EditWritingProgress(db: Db, revisions: map<nat, nat>, t: nat, e: EditTask, pick: nat)
    requires StepPre(db, revisions, t, Edit(e), pick) && e.pc.Writing? && e.sync.i < |e.sync.items|
    requires CleanOk(Exec(db, EditStmt(db, e, pick)), revisions, EditProgress(e))
    ensures Warranted(Exec(db, EditStmt(db, e, pick)), revisions, t, EditProgress(EditNext(db, e, pick)))
  {
    var b, y, c, n, d := EditBase(e), e.sync, EditProgress(e), EditProgress(EditNext(db, e, pick)), Exec(db, EditStmt(db, e, pick));
    EditWritingShape(db, e, pick);
    assert b.key == y.key;
    hide LinksSettled, RowsOk, HomesOk, OneRowEach, RowOk, KeyOk, BatchOk, CleanOk, SyncStmt, SyncNext, Exec,
      EditProgress, EditNext, EditStmt, SameRows, SameKeys, Slugs, PidSet, DistinctSlugs, NoProgress, Stage, Finished,
      RowOnly, Complete;
    StageRowOnly(b, y, SyncNext(db, y));
    StageRowOnly(b, y, y);
    SyncKeepsRest(db, y);
    if SyncedTests(y) {
      ProblemComplete(db, b, y);
      SyncedStays(db, y);
    } else {
      SyncRowOk(db, b, y);
    }
    RowStep(db, d, revisions, t, c, n);
  }

  lemma PidsGrow(pids: seq<nat>, pid: nat)
    ensures PidSet(pids + [pid]) == PidSet(pids) + {pid}
  {
  }

  lemma EditRevealShape(db: Db, e: EditTask, pick: nat)
    requires e.pc.Reveal?
    ensures EditStmt(db, e, pick) == ShowAllOf({e.sync.pid}) && EditProgress(e) == Complete(EditBase(e), e.sync)
    ensures Exec(db, EditStmt(db, e, pick)) == Show(db, {e.sync.pid})
    ensures var z := Synced(e.sync, e.sync.pid);
      EditProgress(EditNext(db, e, pick)) == Finished(EditBase(e).(shown := PidSet(z.pids)), z)
  {
    hide Exec, Finished, Complete, EditStmt, EditNext, EditProgress, EditBase, Show;
    EditRevealStmt(db, e, pick);
    EditRevealNext(db, e, pick);
  }

  lemma EditRevealStmt(db: Db, e: EditTask, pick: nat)
    requires e.pc.Reveal?
    ensures EditStmt(db, e, pick) == ShowAllOf({e.sync.pid}) && EditProgress(e) == Complete(EditBase(e), e.sync)
    ensures Exec(db, EditStmt(db, e, pick)) == Show(db, {e.sync.pid})
  {
    hide Stage, Finished, Complete, Revisable, Movers, Show;
  }

  lemma EditRevealNext(db: Db, e: EditTask, pick: nat)
    requires e.pc.Reveal?
    ensures var z := Synced(e.sync, e.sync.pid);
      EditProgress(EditNext(db, e, pick)) == Finished(EditBase(e).(shown := PidSet(z.pids)), z)
  {
    hide Stage, Finished, Complete, Revisable, Movers, PidSet;
  }

  lemma EditRevealProgress(db: Db, revisions: map<nat, nat>, t: nat, e: EditTask, pick: nat)
    requires StepPre(db, revisions, t, Edit(e), pick) && e.pc.Reveal?
    requires CleanOk(Exec(db, EditStmt(db, e, pick)), revisions, EditProgress(e))
    ensures Warranted(Exec(db, EditStmt(db, e, pick)), revisions, t, EditProgress(EditNext(db, e, pick)))
  {
    hide Orderly, Slugs, RowOk, KeyOk, BatchOk, CleanOk, Show, EditProgress, EditNext, EditStmt, PidSet, Exec, SameRows,
      SameKeys;
    var c, n, d, z := EditProgress(e), EditProgress(EditNext(db, e, pick)), Show(db, {e.sync.pid}), Synced(e.sync, e.sync.pid);
    EditRevealShape(db, e, pick);
    PidsGrow(e.sync.pids, e.sync.pid);
    ProblemFinished(db, EditBase(e), e.sync);
    ShownRow(db, Finished(EditBase(e), z), {e.sync.pid});
    assert n.shown == PidSet(e.sync.pids) + (PidSet(z.pids) * {e.sync.pid});
    FrameRows(db, d);
    FrameKeys(db, d);
    RowStep(db, d, revisions, t, c, n);
  }

  lemma MayEraseFrame(db: Db, d: Db, revisions: map<nat, nat>, after: map<nat, nat>, oid: nat, x: nat)
    requires MayErase(db, revisions, oid, x) && after.Keys <= revisions.Keys
    requires d.problems == db.problems && d.home == db.home && d.nextPid == db.nextPid
    ensures MayErase(d, after, oid, x)
  {
  }

  /** After the commit: the old problems and the new ones are to be cleaned up. */
  lemma EditCommitted(db: Db, e: EditTask, pick: nat)
    requires e.pc.Commit? && |e.sync.pids| == |e.sync.items|
    ensures var n := EditProgress(EditNext(db, e, pick));
      && n == NoProgress(Edit(EditNext(db, e, pick))).(target := Some(e.bid), erasable := n.erasable)
      && n.oid == e.oid && n.erasable == PidSet(e.sync.pids) + e.clean.todo
    ensures EditStmt(db, e, pick) == EditTx(e.bid, e.purge.doomed, Slots(e.sync), e.status)
  {
  }

  lemma EditCommitErasable(db: Db, revisions: map<nat, nat>, d: Db, t: nat, e: EditTask, n: Progress)
    requires Orderly(db, revisions) && Integrity.KeysOk(db, revisions) && Warranted(db, revisions, t, EditProgress(e))
    requires e.pc.Commit? && n.erasable == PidSet(e.sync.pids) + e.clean.todo && !n.closed && n.cleaned.None? && n.oid == e.oid
    requires d.problems == db.problems && d.home == db.home && d.nextPid == db.nextPid
    ensures CleanOk(d, revisions - {e.sync.key}, n)
  {
    var after := revisions - {e.sync.key};
    forall x | x in n.erasable ensures MayErase(d, after, e.oid, x) {
      if x in PidSet(e.sync.pids) {
        EditedPid(db, revisions, after, t, e, x);
        assert MayErase(db, after, e.oid, x);
        MayEraseFrame(db, d, after, after, e.oid, x);
      } else {
        assert x in EditProgress(e).erasable && MayErase(db, revisions, e.oid, x);
        MayEraseFrame(db, d, revisions, after, e.oid, x);
      }
    }
  }

  lemma EditCommitProgress(db: Db, revisions: map<nat, nat>, t: nat, e: EditTask, pick: nat)
    requires StepPre(db, revisions, t, Edit(e), pick) && e.pc.Commit?
    requires BatchOk(Exec(db, EditStmt(db, e, pick)), EditProgress(e).(bound := false, open := false, same := {}))
    ensures Warranted(Exec(db, EditStmt(db, e, pick)), RevisionsNext(revisions, t, db, e, pick), t, EditProgress(EditNext(db, e, pick)))
  {
    hide StepPre, BatchOk, Warranted, EditProgress, EditNext, EditStmt, Exec, RevisionsNext;
    if |e.sync.pids| == |e.sync.items| {
      EditDone(db, revisions, t, e, pick);
    } else {
      EditUncommitted(db, revisions, t, e, pick);
    }
  }

  lemma EditDone(db: Db, revisions: map<nat, nat>, t: nat, e: EditTask, pick: nat)
    requires StepPre(db, revisions, t, Edit(e), pick) && e.pc.Commit? && |e.sync.pids| == |e.sync.items|
    requires BatchOk(Exec(db, EditStmt(db, e, pick)), EditProgress(e).(bound := false, open := false, same := {}))
    ensures Warranted(Exec(db, EditStmt(db, e, pick)), RevisionsNext(revisions, t, db, e, pick), t, EditProgress(EditNext(db, e, pick)))
  {
    var n, d := EditProgress(EditNext(db, e, pick)), Exec(db, EditStmt(db, e, pick));
    hide Orderly, EditNext, EditProgress, EditStmt, CleanOk, KeyOk, RowOk, CommitEdit, RevisionsNext, BatchOk;
    EditCommitted(db, e, pick);
    EditClosed(db, revisions, t, e, pick);
    EditCommitErasable(db, revisions, d, t, e, n);
    CommittedBatch(d, e, n);
    NoKeyOk(d, revisions - {e.sync.key}, t, n);
    NoRowOk(d, d, n);
  }

  lemma EditUncommitted(db: Db, revisions: map<nat, nat>, t: nat, e: EditTask, pick: nat)
    requires StepPre(db, revisions, t, Edit(e), pick) && e.pc.Commit? && |e.sync.pids| != |e.sync.items|
    ensures Warranted(Exec(db, EditStmt(db, e, pick)), RevisionsNext(revisions, t, db, e, pick), t, EditProgress(EditNext(db, e, pick)))
  {
    assert EditNext(db, e, pick) == e;
    SkipStays(db, EditStmt(db, e, pick));
    hide Orderly, CleanOk, KeyOk, RowOk, BatchOk, EditProgress, EditNext, EditStmt, Exec;
  }

  lemma EditClosed(db: Db, revisions: map<nat, nat>, t: nat, e: EditTask, pick: nat)
    requires e.pc.Commit? && |e.sync.pids| == |e.sync.items|
    ensures RevisionsNext(revisions, t, db, e, pick) == revisions - {e.sync.key}
  {
  }

  lemma CommittedBatch(d: Db, e: EditTask, n: Progress)
    requires BatchOk(d, EditProgress(e).(bound := false, open := false, same := {})) && e.pc.Commit?
    requires n.target == Some(e.bid) && n.oid == e.oid && !n.bound && !n.open && n.same == {}
    ensures BatchOk(d, n)
  {
  }

  lemma EditCountOk(db: Db, e: EditTask, b: Progress)
    ensures !Referenced(db, e.clean.cur) ==> Unlinked(db, b, e.clean.cur)
  {
  }

  lemma EditCleaningShape(db: Db, e: EditTask, pick: nat)
    requires e.pc.Cleaning?
    ensures var c, n := EditProgress(e), EditProgress(EditNext(db, e, pick));
      var b := c.(erasable := PidSet(e.sync.pids), cleaned := None);
      && c == Erasing(b, true, e.clean) && OnlyCleans(c, n)
      && (e.clean.at.Choose? && e.clean.todo != {} ==> n == Erasing(b, true, Chosen(e.clean, pick)))
      && (!e.clean.at.Choose? ==> n == Erasing(b, true, CleanNext(db, e.clean, Referenced(db, e.clean.cur))))
      && (e.clean.at.Choose? && e.clean.todo == {} ==> Cleans(c, n))
  {
    hide Referenced, CleanNext;
  }

  lemma EditCleaningProgress(db: Db, revisions: map<nat, nat>, d: Db, t: nat, e: EditTask, pick: nat)
    requires StepPre(db, revisions, t, Edit(e), pick) && e.pc.Cleaning?
    requires Warranted(d, revisions, t, EditProgress(e))
    requires e.clean.at.Count? ==> d == db
    ensures Warranted(d, revisions, t, EditProgress(EditNext(db, e, pick)))
  {
    var b := EditProgress(e).(erasable := PidSet(e.sync.pids), cleaned := None);
    var c, n := EditProgress(e), EditProgress(EditNext(db, e, pick));
    EditCleaningShape(db, e, pick);
    EditCountOk(db, e, b);
    hide LinksSettled, HomesOk, OneRowEach, CleanOk, CleanNext, Referenced, KeyOk, RowOk, BatchOk, Unlinked,
      EditProgress, EditNext, Erasing;
    if e.clean.at.Choose? && e.clean.todo != {} {
      ChosenOk(d, revisions, b, e.clean, pick);
    } else if !e.clean.at.Choose? {
      CleanedOk(db, d, revisions, b, e.clean, Referenced(db, e.clean.cur));
    } else {
      FewerOk(d, revisions, c, n);
    }
    CleanStep(d, revisions, t, c, n);
  }

  lemma EditRestShape(db: Db, e: EditTask, pick: nat)
    requires !e.pc.Opened? && !e.pc.Inside? && !e.pc.NextItem? && !e.pc.Writing? && !e.pc.Reveal? && !e.pc.Commit? && !e.pc.Cleaning?
    ensures OnlyLocks(EditProgress(e), EditProgress(EditNext(db, e, pick)))
    ensures EditProgress(EditNext(db, e, pick)).target == EditProgress(e).target
  {
    hide OnlyLocks, EditProgress, EditNext;
    if Editing(e.pc) {
      EditKeepsShape(db, e, pick);
    } else {
      EditWaitsShape(db, e, pick);
    }
  }

  lemma EditKeepsShape(db: Db, e: EditTask, pick: nat)
    requires e.pc.Close? || e.pc.Repointing? || e.pc.Purging?
    ensures OnlyLocks(EditProgress(e), EditProgress(EditNext(db, e, pick)))
    ensures EditProgress(EditNext(db, e, pick)).target == EditProgress(e).target
  {
    hide Slugs, PidSet;
  }

  lemma EditWaitsShape(db: Db, e: EditTask, pick: nat)
    requires e.pc.WantPublish? || e.pc.WantOffering? || e.pc.Rejudge? || e.pc.Leave? || e.pc.Exit?
    ensures OnlyLocks(EditProgress(e), EditProgress(EditNext(db, e, pick)))
    ensures EditProgress(EditNext(db, e, pick)).target == EditProgress(e).target
  {
  }

  lemma EditRestProgress(db: Db, revisions: map<nat, nat>, d: Db, t: nat, e: EditTask, pick: nat)
    requires Warranted(d, revisions, t, EditProgress(e))
    requires !e.pc.Opened? && !e.pc.Inside? && !e.pc.NextItem? && !e.pc.Writing? && !e.pc.Reveal? && !e.pc.Commit? && !e.pc.Cleaning?
    ensures Warranted(d, revisions, t, EditProgress(EditNext(db, e, pick)))
  {
    var c, n := EditProgress(e), EditProgress(EditNext(db, e, pick));
    EditRestShape(db, e, pick);
    hide CleanOk, RowOk, KeyOk, BatchOk, Slugs, EditProgress, EditNext;
    FewerOk(d, revisions, c, n);
    CleanStep(d, revisions, t, c, n);
  }

  // ---------------------------------------------------------------- one step

  ghost predicate StepOk(db: Db, revisions: map<nat, nat>, t: nat, tk: Task, pick: nat) {
    var next, d := Next(db, tk, pick), Exec(db, StmtOf(db, tk, pick));
    var r := RevisionsAfter(revisions, t, tk, next);
    && Guarantee(db, d, LockedOffering(tk), KeyOf(ProgressOf(tk)), ProgressOf(tk).cleaned)
    && Orderly(d, r) && Warranted(d, r, t, ProgressOf(next)) && Sound(next)
  }

  lemma SoundNext(db: Db, tk: Task, pick: nat)
    requires Sound(tk)
    ensures Sound(Next(db, tk, pick))
  {
    hide PublishNext, EditNext, SubmitNext, RemoveNext, DeleteNext;
    match tk
    case Publish(p) => PublishSound(db, p);
    case Edit(e) => EditSound(db, e, pick);
    case _ =>
  }

  lemma PublishSound(db: Db, p: PublishTask)
    requires Sound(Publish(p))
    ensures Sound(Publish(PublishNext(db, p)))
  {
    hide DistinctSlugs, AllTested, SyncNext, KeyUsed, Publishable;
  }

  lemma EditSound(db: Db, e: EditTask, pick: nat)
    requires Sound(Edit(e))
    ensures Sound(Edit(EditNext(db, e, pick)))
  {
    hide DistinctSlugs, SyncNext, Editable, Revisable, Movers, Originals, SolutionPids, Dropped, Unchanged, Referenced, CleanNext;
  }

  /** What one permitted statement does, in all its parts. */
  lemma ExecAll(db: Db, revisions: map<nat, nat>, revisionsAfter: map<nat, nat>, t: nat, c: Progress, st: Stmt)
    requires Orderly(db, revisions) && Integrity.KeysOk(db, revisions) && RevisionsMove(db, revisions, revisionsAfter, t)
    requires Permitted(db, revisionsAfter, c, st)
    ensures Guarantee(db, Exec(db, st), c.locked, KeyOf(c), c.cleaned)
    ensures Orderly(Exec(db, st), revisionsAfter)
  {
    hide Permitted, Exec, BaseOk, LinksSettled, KeysMove, ProblemsMove, RowsMove;
    ExecKeys(db, revisionsAfter, c, st);
    ExecProblems(db, revisionsAfter, c, st);
    ExecRows(db, revisionsAfter, c, st);
    OrderKept(db, revisions, Exec(db, st), revisionsAfter, t, c);
  }

  lemma RevisionsStay(db: Db, revisions: map<nat, nat>, t: nat)
    ensures RevisionsMove(db, revisions, revisions, t)
  {
  }

  lemma PublishProgressOk(db: Db, revisions: map<nat, nat>, t: nat, p: PublishTask, pick: nat)
    requires StepPre(db, revisions, t, Publish(p), pick)
    ensures Warranted(Exec(db, PublishStmt(p)), revisions, t, PublishProgress(PublishNext(db, p)))
  {
    if p.pc.Opened? || p.pc.NextOffering? {
      PublishKeyProgress(db, revisions, t, p, pick);
    } else if p.pc.Inside? {
      PublishInsideProgress(db, revisions, t, p, pick);
      SkipStays(db, PublishStmt(p));
    } else if p.pc.Ensure? {
      PublishEnsureProgress(db, revisions, t, p, pick);
    } else if p.pc.NextItem? {
      PublishNextItemProgress(db, revisions, t, p, pick);
      SkipStays(db, PublishStmt(p));
    } else if p.pc.Writing? && p.sync.i >= |p.sync.items| {
      PublishStuckProgress(db, revisions, t, p);
    } else if p.pc.Writing? {
      PublishWritingProgress(db, revisions, t, p, pick);
    } else if p.pc.Hide? {
      PublishHideProgress(db, revisions, t, p, pick);
    } else if p.pc.ShowAll? {
      PublishShowProgress(db, revisions, t, p, pick);
    } else {
      PublishRestProgress(db, revisions, t, p);
    }
    hide StepPre, Warranted, PublishProgress, PublishNext, PublishStmt, Exec;
  }

  lemma PublishRestProgress(db: Db, revisions: map<nat, nat>, t: nat, p: PublishTask)
    requires p.pc.WantPublish? || p.pc.WantOffering? || p.pc.Commit? || p.pc.Leave? || p.pc.Exit?
    requires Warranted(db, revisions, t, PublishProgress(p))
    ensures Warranted(Exec(db, PublishStmt(p)), revisions, t, PublishProgress(PublishNext(db, p)))
  {
    hide Warranted, Exec, PublishProgress;
    if p.pc.Commit? {
      PublishLeaves(db, p);
      NamedOk(Exec(db, PublishStmt(p)), revisions, t, PublishProgress(PublishNext(db, p)));
    } else {
      PublishWaits(db, p);
      SkipStays(db, PublishStmt(p));
    }
  }

  lemma PublishLeaves(db: Db, p: PublishTask)
    requires p.pc.Commit?
    ensures var c := PublishProgress(PublishNext(db, p));
      NoRow(c) && Loose(c) && c.target.None? && !c.revising && !c.named && !c.closed && c.erasable == {}
  {
    hide ActiveOffering;
  }

  lemma PublishWaits(db: Db, p: PublishTask)
    requires p.pc.WantPublish? || p.pc.WantOffering? || p.pc.Leave? || p.pc.Exit?
    ensures PublishNext(db, p) == p && PublishStmt(p).Skip?
  {
  }

  predicate NoRow(c: Progress) { c.pids == {} && c.shown == {} && c.row.None? && !c.absent }

  predicate Loose(c: Progress) { !c.bound && !c.open && c.same == {} && c.cleaned.None? }

  lemma LooseBatch(db: Db, d: Db, c: Progress)
    requires BatchOk(db, c) && Loose(c) && RowsMove(db, d, c.locked, KeyOf(c))
    ensures BatchOk(d, c)
  {
  }

  lemma LoosenedBatch(db: Db, revisions: map<nat, nat>, d: Db, t: nat, c: Progress)
    requires Warranted(db, revisions, t, c) && RowsMove(db, d, c.locked, KeyOf(c)) && c.cleaned.None?
    ensures BatchOk(d, c.(bound := false, open := false, same := {}))
  {
    hide RowOk, CleanOk, KeyOk, RowsMove;
    LooseBatch(db, d, c.(bound := false, open := false, same := {}));
  }

  lemma NoRowOk(db: Db, d: Db, c: Progress)
    requires NoRow(c)
    ensures RowOk(d, c)
  {
  }

  /** What a request keeps of its own through a statement of its own. */
  lemma OwnWarrant(
    db: Db, revisions: map<nat, nat>, d: Db, revisionsAfter: map<nat, nat>,
    t: nat, c: Progress)
    requires Warranted(db, revisions, t, c) && Integrity.KeysOk(db, revisions)
    requires Guarantee(db, d, c.locked, KeyOf(c), c.cleaned) && RevisionsMove(db, revisions, revisionsAfter, t)
    requires SameRows(db, d) || Loose(c)
    requires SameProblems(db, d) || NoRow(c)
    requires KeyOk(d, revisionsAfter, t, c)
    ensures Warranted(d, revisionsAfter, t, c)
  {
    OwnClean(db, revisions, d, revisionsAfter, t, c);
    hide CleanOk, KeyOk, RowOk, BatchOk, SameProblems, SameRows, KeysMove, ProblemsMove, RowsMove, RevisionsMove;
    if SameRows(db, d) {
      OwnBatch(db, d, c);
    } else {
      LooseBatch(db, d, c);
    }
    if SameProblems(db, d) {
      OwnRow(db, d, c);
    } else {
      NoRowOk(db, d, c);
    }
  }

  lemma NoKeyOk(db: Db, revisions: map<nat, nat>, t: nat, c: Progress)
    requires !c.named && !c.revising
    ensures KeyOk(db, revisions, t, c)
  {
  }

  lemma RemoveStepOk(db: Db, revisions: map<nat, nat>, t: nat, r: RemoveTask, pick: nat)
    requires StepPre(db, revisions, t, Remove(r), pick)
    ensures StepOk(db, revisions, t, Remove(r), pick)
  {
    var c, st := RemoveProgress(r), RemoveStmt(r);
    var d := Exec(db, st);
    AlwaysGrounded(Remove(r));
    RemoveShape(r);
    hide Orderly, Warranted, RemoveNext, RemoveStmt, RemoveProgress, Exec, Sound, LockedOffering, KeysMove,
      ProblemsMove, RowsMove, NoRow, Loose, Grounded, Picks, Permitted, RevisionsMove, Integrity.KeysOk;
    RevisionsStay(db, revisions, t);
    RemovePermitted(db, revisions, t, r, pick);
    ExecAll(db, revisions, revisions, t, c, st);
    SoundNext(db, Remove(r), pick);
    if r.pc.Inside? {
      RemoveInsideProgress(db, revisions, t, r, pick);
      SkipStays(db, st);
    } else {
      RemoveFrames(db, r);
      NoKeyOk(d, revisions, t, c);
      OwnWarrant(db, revisions, d, revisions, t, c);
      if r.pc.Cleaning? {
        RemoveCleaningProgress(db, revisions, d, t, r, pick);
      } else {
        RemoveRestProgress(db, revisions, d, t, r, pick);
      }
    }
  }

  lemma RemoveShape(r: RemoveTask)
    ensures var c := RemoveProgress(r); !c.named && !c.publishing && !c.revising && NoRow(c) && (Loose(c) || r.pc.Cleaning?)
    ensures r.pc.Inside? ==> RemoveStmt(r).Skip?
    ensures r.pc.Cleaning? && r.clean.at.Count? ==> RemoveStmt(r).Skip?
    ensures LockedOffering(Remove(r)) == RemoveProgress(r).locked
  {
  }

  lemma RemoveFrames(db: Db, r: RemoveTask)
    ensures r.pc.Cleaning? ==> SameRows(db, Exec(db, RemoveStmt(r)))
    ensures r.pc.Cleaning? && r.clean.at.Count? ==> Exec(db, RemoveStmt(r)) == db
  {
    if r.pc.Cleaning? {
      hide SameRows;
      ExecSameRows(db, RemoveStmt(r));
      if r.clean.at.Count? {
        SkipStays(db, RemoveStmt(r));
      }
    }
  }

  lemma DeleteStepOk(db: Db, revisions: map<nat, nat>, t: nat, k: DeleteTask, pick: nat)
    requires StepPre(db, revisions, t, Delete(k), pick)
    ensures StepOk(db, revisions, t, Delete(k), pick)
  {
    var c, st := DeleteProgress(k), DeleteStmt(k);
    var d := Exec(db, st);
    AlwaysGrounded(Delete(k));
    DeleteShape(k);
    hide Orderly, Warranted, DeleteNext, DeleteStmt, DeleteProgress, Exec, Sound, LockedOffering, KeysMove,
      ProblemsMove, RowsMove, NoRow, Loose, Grounded, Picks, Permitted, RevisionsMove, Integrity.KeysOk;
    RevisionsStay(db, revisions, t);
    DeletePermitted(db, revisions, t, k, pick);
    ExecAll(db, revisions, revisions, t, c, st);
    SoundNext(db, Delete(k), pick);
    if k.pc.Inside? {
      DeleteInsideProgress(db, revisions, t, k, pick);
      SkipStays(db, st);
    } else {
      DeleteFrames(db, k);
      NoKeyOk(d, revisions, t, c);
      OwnWarrant(db, revisions, d, revisions, t, c);
      if k.pc.Cleaning? {
        DeleteCleaningProgress(db, revisions, d, t, k, pick);
      } else if k.pc.Close? {
        DeleteCloseProgress(db, revisions, d, t, k, pick);
      } else {
        DeleteRestProgress(db, revisions, d, t, k, pick);
      }
    }
  }

  lemma DeleteShape(k: DeleteTask)
    ensures var c := DeleteProgress(k); !c.named && !c.publishing && !c.revising && NoRow(c) && (Loose(c) || k.pc.Cleaning?)
    ensures k.pc.Inside? ==> DeleteStmt(k).Skip?
    ensures k.pc.Cleaning? && k.clean.at.Count? ==> DeleteStmt(k).Skip?
    ensures LockedOffering(Delete(k)) == DeleteProgress(k).locked
  {
  }

  lemma DeleteFrames(db: Db, k: DeleteTask)
    ensures k.pc.Cleaning? ==> SameRows(db, Exec(db, DeleteStmt(k)))
    ensures k.pc.Cleaning? && k.clean.at.Count? ==> Exec(db, DeleteStmt(k)) == db
    ensures k.pc.Close? ==> !OpenOffering(Exec(db, DeleteStmt(k)), k.oid)
  {
    if k.pc.Cleaning? {
      hide SameRows;
      ExecSameRows(db, DeleteStmt(k));
      if k.clean.at.Count? {
        SkipStays(db, DeleteStmt(k));
      }
    }
  }

  lemma SubmitStepOk(db: Db, revisions: map<nat, nat>, t: nat, s: SubmitTask, pick: nat)
    requires StepPre(db, revisions, t, Submit(s), pick)
    ensures StepOk(db, revisions, t, Submit(s), pick)
  {
    var c, st := ProgressOf(Submit(s)), SubmitStmt(s);
    var d := Exec(db, st);
    AlwaysGrounded(Submit(s));
    RevisionsStay(db, revisions, t);
    SubmitPermitted(db, revisions, t, s, pick);
    SubmitProgressOk(d, revisions, t, s, db);
    hide Orderly, Warranted, SubmitNext, SubmitStmt, Exec, LockedOffering, KeysMove, ProblemsMove, RowsMove, Permitted,
      RevisionsMove, Integrity.KeysOk;
    ExecAll(db, revisions, revisions, t, c, st);
  }

  lemma SubmitPermitted(db: Db, revisions: map<nat, nat>, t: nat, s: SubmitTask, pick: nat)
    requires StepPre(db, revisions, t, Submit(s), pick)
    ensures Permitted(db, revisions, ProgressOf(Submit(s)), SubmitStmt(s))
  {
    hide LinksSettled, RowsOk, OneRowEach;
  }

  lemma SubmitProgressOk(d: Db, revisions: map<nat, nat>, t: nat, s: SubmitTask, db: Db)
    ensures Warranted(d, revisions, t, ProgressOf(Submit(SubmitNext(db, s))))
  {
    hide SubmitNext;
  }

  lemma PublishStepOk(db: Db, revisions: map<nat, nat>, t: nat, p: PublishTask, pick: nat)
    requires StepPre(db, revisions, t, Publish(p), pick)
    ensures StepOk(db, revisions, t, Publish(p), pick)
  {
    var c, st := PublishProgress(p), PublishStmt(p);
    AlwaysGrounded(Publish(p));
    hide Orderly, Warranted, PublishNext, PublishStmt, PublishProgress, Exec, Sound, LockedOffering, KeysMove,
      ProblemsMove, RowsMove, Permitted, RevisionsMove, Integrity.KeysOk, Grounded;
    RevisionsStay(db, revisions, t);
    PublishPermitted(db, revisions, t, p, pick);
    ExecAll(db, revisions, revisions, t, c, st);
    PublishProgressOk(db, revisions, t, p, pick);
    SoundNext(db, Publish(p), pick);
  }

  lemma EditPermitted(db: Db, revisions: map<nat, nat>, t: nat, e: EditTask, pick: nat)
    requires StepPre(db, revisions, t, Edit(e), pick)
    ensures EditMay(db, revisions, t, e, pick)
  {
    hide StepPre, EditMay;
    if e.pc.Commit? {
      EditTxPermitted(db, revisions, t, e, pick);
    } else if e.pc.Writing? && e.sync.i < |e.sync.items| {
      EditWritingPermitted(db, revisions, t, e, pick);
    } else {
      EditRestPermitted(db, revisions, t, e, pick);
    }
  }

  lemma EditRevisions(db: Db, revisions: map<nat, nat>, t: nat, e: EditTask, pick: nat)
    requires EditProgress(e).revising ==> e.sync.key in revisions && revisions[e.sync.key] == t
    requires Integrity.KeysOk(db, revisions)
    ensures RevisionsMove(db, revisions, RevisionsNext(revisions, t, db, e, pick), t)
    ensures !e.pc.Inside? && !e.pc.Commit? ==> RevisionsNext(revisions, t, db, e, pick) == revisions
  {
  }

  lemma EditFrames(db: Db, e: EditTask, pick: nat)
    requires !e.pc.Commit?
    ensures SameRows(db, Exec(db, EditStmt(db, e, pick)))
    ensures !e.pc.Writing? && !e.pc.Cleaning? ==> SameProblems(db, Exec(db, EditStmt(db, e, pick)))
    ensures e.pc.Cleaning? && e.clean.at.Count? ==> Exec(db, EditStmt(db, e, pick)) == db
    ensures e.pc.Opened? || e.pc.NextItem? ==> Exec(db, EditStmt(db, e, pick)) == db
  {
    hide SameRows, SameProblems, Exec, Revisable;
    ExecSameRows(db, EditStmt(db, e, pick));
    if !e.pc.Writing? && !e.pc.Cleaning? {
      ExecSameProblems(db, EditStmt(db, e, pick));
    }
    if (e.pc.Cleaning? && e.clean.at.Count?) || e.pc.Opened? || e.pc.NextItem? {
      SkipStays(db, EditStmt(db, e, pick));
    }
  }

  lemma EditShape(e: EditTask)
    ensures var c := EditProgress(e); !c.named && !c.publishing && (c.revising <==> Editing(e.pc)) && (!Editing(e.pc) ==> NoRow(c))
    ensures Editing(e.pc) ==> EditProgress(e).cleaned.None?
    ensures EditProgress(e).key == if Editing(e.pc) then e.sync.key else 0
    ensures LockedOffering(Edit(e)) == EditProgress(e).locked
  {
  }

  lemma EditKey(db: Db, revisions: map<nat, nat>, t: nat, e: EditTask)
    requires Warranted(db, revisions, t, EditProgress(e))
    ensures EditProgress(e).revising ==> e.sync.key in revisions && revisions[e.sync.key] == t
    ensures KeyOk(db, revisions, t, EditProgress(e))
  {
    EditShape(e);
    hide EditProgress, BatchOk, RowOk, CleanOk;
  }

  lemma SameKeyOk(db: Db, d: Db, revisions: map<nat, nat>, t: nat, c: Progress)
    requires KeyOk(db, revisions, t, c) && !c.named
    ensures KeyOk(d, revisions, t, c)
  {
  }

  lemma EditProgressOk(db: Db, revisions: map<nat, nat>, t: nat, e: EditTask, pick: nat)
    requires StepPre(db, revisions, t, Edit(e), pick) && !e.pc.Inside? && !e.pc.Commit?
    requires Guarantee(db, Exec(db, EditStmt(db, e, pick)), LockedOffering(Edit(e)), KeyOf(EditProgress(e)), EditProgress(e).cleaned)
    ensures Warranted(Exec(db, EditStmt(db, e, pick)), revisions, t, EditProgress(EditNext(db, e, pick)))
  {
    var c, d := EditProgress(e), Exec(db, EditStmt(db, e, pick));
    EditShape(e);
    hide Orderly, EditProgress, EditNext, EditStmt, Exec, LockedOffering, RowOk, BatchOk, CleanOk, KeysMove,
      ProblemsMove, RowsMove, NoRow, Loose, Picks, RevisionsMove, Integrity.KeysOk, Sound, SameRows, SameProblems,
      KeyOk;
    EditFrames(db, e, pick);
    RevisionsStay(db, revisions, t);
    SameKeyOk(db, d, revisions, t, c);
    OwnClean(db, revisions, d, revisions, t, c);
    if e.pc.Opened? {
      EditOpenedProgress(db, revisions, t, e, pick);
    } else if e.pc.NextItem? {
      EditNextItemProgress(db, revisions, t, e, pick);
    } else if e.pc.Writing? && e.sync.i >= |e.sync.items| {
      EditStuckProgress(db, revisions, t, e, pick);
    } else if e.pc.Writing? {
      EditWritingProgress(db, revisions, t, e, pick);
    } else if e.pc.Reveal? {
      EditRevealProgress(db, revisions, t, e, pick);
    } else {
      OwnWarrant(db, revisions, d, revisions, t, c);
      if e.pc.Cleaning? {
        EditCleaningProgress(db, revisions, d, t, e, pick);
      } else {
        EditRestProgress(db, revisions, d, t, e, pick);
      }
    }
  }

  lemma EditStepOk(db: Db, revisions: map<nat, nat>, t: nat, e: EditTask, pick: nat)
    requires StepPre(db, revisions, t, Edit(e), pick)
    ensures StepOk(db, revisions, t, Edit(e), pick)
  {
    hide Orderly, Warranted, EditNext, EditStmt, EditProgress, Exec, Sound, LockedOffering, KeysMove, ProblemsMove,
      RowsMove, Permitted, RevisionsMove, Integrity.KeysOk, Grounded, RevisionsAfter, Picks, NoRow;
    var c, st, after := EditProgress(e), EditStmt(db, e, pick), RevisionsNext(revisions, t, db, e, pick);
    AlwaysGrounded(Edit(e));
    EditShape(e);
    EditKey(db, revisions, t, e);
    EditRevisions(db, revisions, t, e, pick);
    EditPermitted(db, revisions, t, e, pick);
    ExecAll(db, revisions, after, t, c, st);
    SoundNext(db, Edit(e), pick);
    if e.pc.Inside? {
      EditInsideProgress(db, revisions, t, e, pick);
    } else if e.pc.Commit? {
      LoosenedBatch(db, revisions, Exec(db, st), t, c);
      EditCommitProgress(db, revisions, t, e, pick);
    } else {
      EditProgressOk(db, revisions, t, e, pick);
    }
  }

  lemma WorkOk(db: Db, revisions: map<nat, nat>, t: nat, tk: Task, pick: nat)
    requires StepPre(db, revisions, t, tk, pick)
    ensures StepOk(db, revisions, t, tk, pick)
  {
    hide StepPre, StepOk;
    match tk
    case Submit(s) => SubmitStepOk(db, revisions, t, s, pick);
    case Publish(p) => PublishStepOk(db, revisions, t, p, pick);
    case Edit(e) => EditStepOk(db, revisions, t, e, pick);
    case Remove(r) => RemoveStepOk(db, revisions, t, r, pick);
    case Delete(k) => DeleteStepOk(db, revisions, t, k, pick);
  }

  // ---------------------------------------------------------------- the machine

  ghost predicate TaskOk(w: World, t: nat)
    requires t in w.tasks
  {
    Warranted(w.db, w.revisions, t, ProgressOf(w.tasks[t])) && Sound(w.tasks[t])
  }

  /** What every run keeps, whatever publications overlap. */
  ghost predicate InOrder(w: World) {
    && Integrity.IntegrityOk(w)
    && Orderly(w.db, w.revisions)
    && forall t :: t in w.tasks ==> TaskOk(w, t)
  }

  lemma LockedApart(w: World, t: nat, u: nat)
    requires LocksOk(w) && t in w.tasks && u in w.tasks && u != t
    ensures LockedOffering(w.tasks[u]).Some? ==> LockedOffering(w.tasks[u]) != LockedOffering(w.tasks[t])
  {
    if InOffering(w.tasks[u]) {
      var l := OfferingLock(OidOf(w.tasks[u]));
      assert HoldsOwn(w, u) && HoldsOwn(w, t);
      assert Holds(w.tasks[u], l);
      assert LockedOffering(w.tasks[t]) == Some(OidOf(w.tasks[u])) ==> Holds(w.tasks[t], l);
    }
  }

  lemma IntegrityParts(w: World)
    requires Integrity.IntegrityOk(w)
    ensures LocksOk(w) && Integrity.KeysOk(w.db, w.revisions)
  {
  }

  /** The step of request `t` seen from another request. */
  lemma OtherKeeps(w: World, v: World, t: nat, u: nat)
    requires InOrder(w) && t in w.tasks && u in w.tasks && u != t && u in v.tasks && v.tasks[u] == w.tasks[u]
    requires Guarantee(w.db, v.db, LockedOffering(w.tasks[t]), KeyOf(ProgressOf(w.tasks[t])),
                       ProgressOf(w.tasks[t]).cleaned)
    requires RevisionsMove(w.db, w.revisions, v.revisions, t)
    ensures TaskOk(v, u)
  {
    var ct, c := ProgressOf(w.tasks[t]), ProgressOf(w.tasks[u]);
    assert TaskOk(w, t) && TaskOk(w, u);
    IntegrityParts(w);
    hide Integrity.IntegrityOk, ProgressOf, LinksSettled, KeysMove, ProblemsMove, RowsMove, KeyOk, BatchOk, RowOk,
      CleanOk, LocksOk, Grounded, RevisionsMove, LockedOffering, Integrity.KeysOk, RowsOk, HomesOk, OneRowEach;
    AlwaysGrounded(w.tasks[t]);
    AlwaysGrounded(w.tasks[u]);
    LockedApart(w, t, u);
    assert Apart(w.db, w.revisions, t, ct, u, c);
    WarrantSurvives(w.db, w.revisions, v.db, v.revisions, t, ct, u, c);
    RowSurvives(w.db, w.revisions, v.db, t, ct, u, c);
    CleanSurvives(w.db, w.revisions, v.db, v.revisions, t, ct, u, c);
  }

  lemma AdvanceWorks(w: World, t: nat, pick: nat)
    requires t in w.tasks && Working(w.tasks[t])
    ensures var tk, v := w.tasks[t], Advance(w, t, pick);
      && v.db == Exec(w.db, StmtOf(w.db, tk, pick)) && v.tasks == w.tasks[t := Next(w.db, tk, pick)]
      && v.revisions == RevisionsAfter(w.revisions, t, tk, Next(w.db, tk, pick))
  {
    hide Wants, Frees, PhaseOf, Next, StmtOf, Exec;
  }

  lemma RevisionsFollow(w: World, t: nat, tk: Task, pick: nat)
    requires Integrity.KeysOk(w.db, w.revisions) && t in w.tasks && w.tasks[t] == tk
    requires Warranted(w.db, w.revisions, t, ProgressOf(tk))
    ensures RevisionsMove(w.db, w.revisions, RevisionsAfter(w.revisions, t, tk, Next(w.db, tk, pick)), t)
  {
    if tk.Edit? {
      EditKey(w.db, w.revisions, t, tk.e);
      hide Warranted, EditNext;
      EditRevisions(w.db, w.revisions, t, tk.e, pick);
    } else {
      hide Warranted, Next;
      RevisionsStay(w.db, w.revisions, t);
    }
  }

  lemma WorkReady(w: World, t: nat, pick: nat)
    requires InOrder(w) && Ready(w, t, pick)
    ensures StepPre(w.db, w.revisions, t, w.tasks[t], pick)
  {
    assert TaskOk(w, t);
    IntegrityParts(w);
    hide Integrity.IntegrityOk, ProgressOf, Orderly, Warranted, LocksOk, Integrity.KeysOk, Sound, Picks;
  }

  lemma WorkTogether(w: World, v: World, t: nat, tk: Task, pick: nat)
    requires InOrder(w) && Integrity.IntegrityOk(v) && t in w.tasks && w.tasks[t] == tk
    requires v.db == Exec(w.db, StmtOf(w.db, tk, pick)) && v.tasks == w.tasks[t := Next(w.db, tk, pick)]
    requires v.revisions == RevisionsAfter(w.revisions, t, tk, Next(w.db, tk, pick))
    requires StepOk(w.db, w.revisions, t, tk, pick) && RevisionsMove(w.db, w.revisions, v.revisions, t)
    ensures InOrder(v)
  {
    hide Integrity.IntegrityOk, ProgressOf, Orderly, Guarantee, Warranted, RevisionsMove, LockedOffering, Sound, Next,
      StmtOf, Exec, RevisionsAfter;
    forall u | u in v.tasks && u != t ensures TaskOk(v, u) {
      OtherKeeps(w, v, t, u);
    }
  }

  lemma WorkKeepsOrder(w: World, t: nat, pick: nat)
    requires InOrder(w) && t in w.tasks && Ready(w, t, pick) && Working(w.tasks[t])
    requires Integrity.IntegrityOk(Advance(w, t, pick))
    ensures InOrder(Advance(w, t, pick))
  {
    assert TaskOk(w, t);
    IntegrityParts(w);
    hide Integrity.IntegrityOk, InOrder, ProgressOf, Warranted, LocksOk, RevisionsMove, Integrity.KeysOk, Sound,
      Advance, Ready, StepOk, StepPre, Next, StmtOf, Exec, RevisionsAfter, Working;
    WorkReady(w, t, pick);
    AdvanceWorks(w, t, pick);
    WorkOk(w.db, w.revisions, t, w.tasks[t], pick);
    RevisionsFollow(w, t, w.tasks[t], pick);
    WorkTogether(w, Advance(w, t, pick), t, w.tasks[t], pick);
  }

  lemma LockMoveKeeps(db: Db, revisions: map<nat, nat>, t: nat, tk: Task)
    requires Warranted(db, revisions, t, ProgressOf(tk)) && Sound(tk)
    ensures Wants(tk).Some? ==> Warranted(db, revisions, t, ProgressOf(AfterLock(tk))) && Sound(AfterLock(tk))
    ensures Frees(tk).Some? && !PhaseOf(tk).Ending? ==>
              Warranted(db, revisions, t, ProgressOf(AfterFree(tk))) && Sound(AfterFree(tk))
  {
    hide Warranted, Sound, ProgressOf, OnlyLocks, AfterLock, AfterFree, Wants, Frees, PhaseOf;
    SoundMoves(tk);
    if Wants(tk).Some? {
      LockProgress(tk, AfterLock(tk));
      MovedOk(db, revisions, t, ProgressOf(tk), ProgressOf(AfterLock(tk)));
    }
    if Frees(tk).Some? && !PhaseOf(tk).Ending? {
      LockProgress(tk, AfterFree(tk));
      MovedOk(db, revisions, t, ProgressOf(tk), ProgressOf(AfterFree(tk)));
    }
  }

  lemma SoundMoves(tk: Task)
    requires Sound(tk)
    ensures Wants(tk).Some? ==> Sound(AfterLock(tk))
    ensures Frees(tk).Some? && !PhaseOf(tk).Ending? ==> Sound(AfterFree(tk))
  {
    hide DistinctSlugs, AllTested;
  }

  predicate OnlyLocks(c: Progress, n: Progress) {
    && n == c.(locked := n.locked, target := n.target, erasable := n.erasable, cleaned := n.cleaned)
    && n.cleaned.None? && n.erasable <= c.erasable
    && (n.target == c.target || (n.target.None? && !n.bound && n.same == {}))
  }

  predicate LockMoves(tk: Task, next: Task) {
    (Wants(tk).Some? && next == AfterLock(tk)) || (Frees(tk).Some? && !PhaseOf(tk).Ending? && next == AfterFree(tk))
  }

  lemma SubmitLockProgress(s: SubmitTask, n: SubmitTask)
    requires LockMoves(Submit(s), Submit(n))
    ensures OnlyLocks(ProgressOf(Submit(s)), ProgressOf(Submit(n)))
  {
  }

  lemma PublishLockProgress(p: PublishTask, n: PublishTask)
    requires LockMoves(Publish(p), Publish(n))
    ensures OnlyLocks(PublishProgress(p), PublishProgress(n))
  {
    hide LockedOffering, Stage, Finished;
  }

  lemma EditLockProgress(e: EditTask, n: EditTask)
    requires LockMoves(Edit(e), Edit(n))
    ensures OnlyLocks(EditProgress(e), EditProgress(n))
  {
    if Wants(Edit(e)).Some? && Edit(n) == AfterLock(Edit(e)) {
      EditTakesLock(e, n);
    } else {
      EditFreesLock(e, n);
    }
    hide OnlyLocks;
  }

  lemma EditTakesLock(e: EditTask, n: EditTask)
    requires Wants(Edit(e)).Some? && Edit(n) == AfterLock(Edit(e))
    ensures OnlyLocks(EditProgress(e), EditProgress(n))
  {
    hide OnlyLocks, EditProgress, Wants, AfterLock;
    EditWantsAt(e, n);
    if e.pc.Cleaning? {
      EditCleanLock(e, Count);
    } else {
      EditEntryLock(e, n.pc);
    }
  }

  lemma EditFreesLock(e: EditTask, n: EditTask)
    requires Frees(Edit(e)).Some? && !PhaseOf(Edit(e)).Ending? && Edit(n) == AfterFree(Edit(e))
    ensures OnlyLocks(EditProgress(e), EditProgress(n))
  {
    hide OnlyLocks, EditProgress, Frees, AfterFree, PhaseOf;
    EditFreesAt(e, n);
    if e.pc.Cleaning? {
      EditCleanLock(e, Choose);
    } else {
      EditEntryLock(e, n.pc);
    }
  }

  lemma EditWantsAt(e: EditTask, n: EditTask)
    requires Wants(Edit(e)).Some? && Edit(n) == AfterLock(Edit(e))
    ensures if e.pc.Cleaning? then e.clean.at.Want? && n == e.(clean := e.clean.(at := Count))
            else n == e.(pc := n.pc) && ((e.pc.WantPublish? && n.pc.Opened?) || (e.pc.WantOffering? && n.pc.Inside?))
  {
  }

  lemma EditFreesAt(e: EditTask, n: EditTask)
    requires Frees(Edit(e)).Some? && !PhaseOf(Edit(e)).Ending? && Edit(n) == AfterFree(Edit(e))
    ensures if e.pc.Cleaning? then e.clean.at.Free? && n == e.(clean := e.clean.(at := Choose))
            else n == e.(pc := n.pc) && e.pc.Leave? && n.pc.Exit?
  {
  }

  lemma EditCleanLock(e: EditTask, at: CleanPc)
    requires e.pc.Cleaning? && ((e.clean.at.Want? && at == Count) || (e.clean.at.Free? && at == Choose))
    ensures OnlyLocks(EditProgress(e), EditProgress(e.(clean := e.clean.(at := at))))
  {
    hide LockedOffering, PidSet;
  }

  lemma EditEntryLock(e: EditTask, pc: EditPc)
    requires (e.pc.WantPublish? && pc.Opened?) || (e.pc.WantOffering? && pc.Inside?) || (e.pc.Leave? && pc.Exit?)
    ensures OnlyLocks(EditProgress(e), EditProgress(e.(pc := pc)))
  {
    hide LockedOffering;
  }

  lemma RemoveLockProgress(r: RemoveTask, n: RemoveTask)
    requires LockMoves(Remove(r), Remove(n))
    ensures OnlyLocks(RemoveProgress(r), RemoveProgress(n))
  {
    hide LockedOffering;
  }

  lemma DeleteLockProgress(d: DeleteTask, n: DeleteTask)
    requires LockMoves(Delete(d), Delete(n))
    ensures OnlyLocks(DeleteProgress(d), DeleteProgress(n))
  {
    hide LockedOffering;
  }

  lemma LockProgress(tk: Task, next: Task)
    requires LockMoves(tk, next)
    ensures OnlyLocks(ProgressOf(tk), ProgressOf(next))
  {
    hide LockMoves, OnlyLocks;
    match tk
    case Submit(s) => LockKind(tk, next); SubmitLockProgress(s, next.s);
    case Publish(p) => LockKind(tk, next); PublishLockProgress(p, next.p);
    case Edit(e) => LockKind(tk, next); EditLockProgress(e, next.e);
    case Remove(r) => LockKind(tk, next); RemoveLockProgress(r, next.r);
    case Delete(d) => LockKind(tk, next); DeleteLockProgress(d, next.d);
  }

  lemma LockKind(tk: Task, next: Task)
    requires LockMoves(tk, next)
    ensures next.Submit? == tk.Submit? && next.Publish? == tk.Publish? && next.Edit? == tk.Edit? && next.Remove? == tk.Remove?
    ensures next.Delete? == tk.Delete?
  {
    hide PhaseOf;
  }

  lemma MovedOk(db: Db, revisions: map<nat, nat>, t: nat, c: Progress, n: Progress)
    requires Warranted(db, revisions, t, c)
    requires OnlyLocks(c, n)
    ensures Warranted(db, revisions, t, n)
  {
    FewerOk(db, revisions, c, n);
    hide CleanOk;
    CleanStep(db, revisions, t, c, n);
  }

  lemma LockStepKeeps(w: World, v: World, t: nat)
    requires InOrder(w) && Integrity.IntegrityOk(v) && v.db == w.db && v.revisions == w.revisions
    requires t in w.tasks && t in v.tasks && v.tasks == w.tasks[t := v.tasks[t]]
    requires Warranted(w.db, w.revisions, t, ProgressOf(v.tasks[t])) && Sound(v.tasks[t])
    ensures InOrder(v)
  {
    hide Integrity.IntegrityOk, Orderly, ProgressOf, Warranted, Sound;
    forall u | u in v.tasks && u != t ensures TaskOk(v, u) {
      assert TaskOk(w, u);
    }
  }

  /** A request that is gone. */
  lemma LeaveKeeps(w: World, v: World, t: nat)
    requires InOrder(w) && Integrity.IntegrityOk(v) && v.db == w.db && v.revisions == w.revisions && v.tasks == w.tasks - {t}
    ensures InOrder(v)
  {
    hide Integrity.IntegrityOk, ProgressOf, Warranted, Sound, Orderly;
    forall u | u in v.tasks ensures TaskOk(v, u) {
      assert TaskOk(w, u);
    }
  }

  lemma FreshOk(db: Db, revisions: map<nat, nat>, t: nat, job: Job)
    requires Acceptable(db, job) && RowsOk(db)
    ensures Warranted(db, revisions, t, ProgressOf(Fresh(db, job))) && Sound(Fresh(db, job))
  {
  }

  lemma StartKeeps(w: World, v: World, job: Job)
    requires InOrder(w) && Integrity.IntegrityOk(v) && Acceptable(w.db, job)
    requires v == w.(tasks := w.tasks[w.nextTid := Fresh(w.db, job)], nextTid := w.nextTid + 1)
    ensures InOrder(v)
  {
    FreshOk(w.db, w.revisions, w.nextTid, job);
    hide Integrity.IntegrityOk, ProgressOf, Orderly, Warranted, Sound, Fresh, Acceptable;
    forall u | u in v.tasks ensures TaskOk(v, u) {
      if u != w.nextTid {
        assert TaskOk(w, u);
      }
    }
  }

  const BLANK := Progress(0, false, false, false, None, 0, None, false, false, {}, {}, {}, {}, "", false, None, None, None, {}, false, false, None)

  lemma BlankOk(db: Db, revisions: map<nat, nat>, w: World)
    requires Integrity.IntegrityOk(w) && w.db == db && w.revisions == revisions && Orderly(db, revisions)
    ensures Warranted(db, revisions, w.nextTid, BLANK) && Grounded(BLANK)
  {
  }

  /** A change that no request makes: a verdict of the judge, or a new draft. */
  lemma OutsideKeeps(w: World, v: World)
    requires InOrder(w) && Integrity.IntegrityOk(v) && v == w.(db := v.db)
    requires Guarantee(w.db, v.db, None, None, None) && Orderly(v.db, w.revisions)
    ensures InOrder(v)
  {
    IntegrityParts(w);
    BlankOk(w.db, w.revisions, w);
    RevisionsStay(w.db, w.revisions, w.nextTid);
    assert w.nextTid !in w.tasks;
    assert KeyOf(BLANK) == None && BLANK.locked == None && BLANK.cleaned == None;
    hide Integrity.IntegrityOk, ProgressOf, LinksSettled, KeysMove, ProblemsMove, RowsMove, KeyOk, BatchOk, RowOk,
      CleanOk, LocksOk, Grounded, RevisionsMove, Integrity.KeysOk, RowsOk, HomesOk, OneRowEach, BLANK, KeyOf;
    forall u | u in v.tasks ensures TaskOk(v, u) {
      var c := ProgressOf(w.tasks[u]);
      assert TaskOk(w, u);
      AlwaysGrounded(w.tasks[u]);
      assert Apart(w.db, w.revisions, w.nextTid, BLANK, u, c);
      WarrantSurvives(w.db, w.revisions, v.db, v.revisions, w.nextTid, BLANK, u, c);
      RowSurvives(w.db, w.revisions, v.db, w.nextTid, BLANK, u, c);
      CleanSurvives(w.db, w.revisions, v.db, v.revisions, w.nextTid, BLANK, u, c);
    }
  }

  lemma TaskWarranted(w: World, t: nat)
    requires InOrder(w) && t in w.tasks
    ensures Warranted(w.db, w.revisions, t, ProgressOf(w.tasks[t])) && Sound(w.tasks[t])
  {
    hide Integrity.IntegrityOk, Orderly, ProgressOf, Warranted, Sound;
    assert TaskOk(w, t);
  }

  lemma StepKeepsOrder(w: World, t: nat, pick: nat)
    requires InOrder(w) && t in w.tasks && Ready(w, t, pick)
    requires Integrity.IntegrityOk(Advance(w, t, pick))
    ensures InOrder(Advance(w, t, pick))
  {
    hide Integrity.IntegrityOk, InOrder, ProgressOf, Warranted, Sound, Next, Exec, StmtOf, AfterLock, AfterFree,
      PhaseOf, Wants, Frees, Picks, RevisionsAfter, DyingAfter;
    TaskWarranted(w, t);
    LockMoveKeeps(w.db, w.revisions, t, w.tasks[t]);
    if Working(w.tasks[t]) {
      WorkKeepsOrder(w, t, pick);
    } else {
      var v := Advance(w, t, pick);
      if Wants(w.tasks[t]).Some? {
        LockStepKeeps(w, v, t);
      } else if PhaseOf(w.tasks[t]).Ending? {
        LeaveKeeps(w, v, t);
      } else {
        LockStepKeeps(w, v, t);
      }
    }
  }

  lemma VerdictOk(w: World, v: World, sid: nat)
    requires InOrder(w) && v == w.(db := w.db.(solutions := v.db.solutions))
    ensures Guarantee(w.db, v.db, None, None, None) && Orderly(v.db, w.revisions)
  {
    NothingMoves(w, v.db);
  }

  /** Solutions do not matter here. */
  lemma NothingMoves(w: World, d: Db)
    requires InOrder(w) && d == w.db.(solutions := d.solutions)
    ensures Guarantee(w.db, d, None, None, None) && Orderly(d, w.revisions)
  {
    IntegrityParts(w);
    RevisionsStay(w.db, w.revisions, w.nextTid);
    assert KeyOf(BLANK) == None && BLANK.locked == None && BLANK.cleaned == None;
    hide Integrity.IntegrityOk, LinksSettled, KeysMove, ProblemsMove, RowsMove, LocksOk, KeyOf, RevisionsMove,
      Integrity.KeysOk, RowsOk, HomesOk, OneRowEach, BLANK, SameKeys, SameProblems, SameRows;
    FrameKeys(w.db, d);
    FrameProblems(w.db, d);
    FrameRows(w.db, d);
    SameKeysOk(w.db, d);
    SameProblemsOk(w.db, d, None, None);
    SameRowsOk(w.db, d, w.revisions, None, None);
    OrderKept(w.db, w.revisions, d, w.revisions, w.nextTid, BLANK);
  }

  lemma DraftOk(w: World, owner: Option<nat>)
    requires InOrder(w)
    ensures Guarantee(w.db, InsertDraft(w.db, owner), None, None, None)
    ensures Orderly(InsertDraft(w.db, owner), w.revisions)
  {
    IntegrityParts(w);
    BlankOk(w.db, w.revisions, w);
    RevisionsStay(w.db, w.revisions, w.nextTid);
    assert Permitted(w.db, w.revisions, BLANK, PutDraft(owner));
    assert Exec(w.db, PutDraft(owner)) == InsertDraft(w.db, owner);
    assert KeyOf(BLANK) == None && BLANK.locked == None && BLANK.cleaned == None;
    hide Integrity.IntegrityOk, Orderly, Guarantee, LocksOk, Warranted, KeyOf, RevisionsMove, Integrity.KeysOk, BLANK,
      Permitted, Exec, InsertDraft;
    ExecAll(w.db, w.revisions, w.revisions, w.nextTid, BLANK, PutDraft(owner));
  }

  lemma ActKeepsOrder(w: World, a: Action)
    requires InOrder(w) && Enabled(w, a)
    ensures InOrder(Act(w, a))
  {
    assert Integrity.IntegrityOk(w);
    Integrity.ActKeepsIntegrity(w, a);
    hide Integrity.IntegrityOk, InOrder, Advance, Fresh, Acceptable, Guarantee, Orderly, InsertDraft, Ready;
    match a
    case Start(job) => StartKeeps(w, Act(w, a), job);
    case Step(t, pick) =>
      assert t in w.tasks by { ReadyTask(w, t, pick); }
      StepKeepsOrder(w, t, pick);
    case Stop(t) => LeaveKeeps(w, Act(w, a), t);
    case Verdict(sid, result) =>
      VerdictOk(w, Act(w, a), sid);
      OutsideKeeps(w, Act(w, a));
    case NewDraft(oid) =>
      DraftOk(w, oid);
      OutsideKeeps(w, Act(w, a));
  }

  lemma ReadyTask(w: World, t: nat, pick: nat)
    requires Ready(w, t, pick)
    ensures t in w.tasks
  {
  }

  lemma MoveKeepsOrder(w: World, v: World)
    requires InOrder(w) && Moves(w, v)
    ensures InOrder(v)
  {
    var a :| Enabled(w, a) && v == Act(w, a);
    hide InOrder, Act, Enabled;
    ActKeepsOrder(w, a);
  }

  /** Every run keeps its tables in order; above all, no two problem rows carry the same authored source. */
  lemma {:induction false} RunKeepsOrder(run: seq<World>, i: nat)
    requires IsRun(run) && i < |run|
    requires Integrity.TablesOk(run[0].db, map[]) && Orderly(run[0].db, map[])
    ensures InOrder(run[i]) && OneRowEach(run[i].db)
  {
    if i == 0 {
      Integrity.RunKeepsIntegrity(run, 0);
    } else {
      RunKeepsOrder(run, i - 1);
      assert Moves(run[i - 1], run[i - 1 + 1]);
      MoveKeepsOrder(run[i - 1], run[i]);
    }
  }

  // ---------------------------------------------------------------- what students see

  /**
   A publication is about to start writing, and students see problems under its key already. The code
   asks only whether the offering is active.
   */
  ghost predicate Reopens(w: World, t: nat) {
    && t in w.tasks && w.tasks[t].Publish? && w.tasks[t].p.pc.Inside? && ActiveOffering(w.db, w.tasks[t].p.oid)
    && Exposed(w.db, w.tasks[t].p.sync.key)
  }

  /** The action is not the start of such a publication. */
  ghost predicate Harmless(w: World, a: Action) { a.Step? ==> !Reopens(w, a.tid) }

  ghost predicate MovesHarmlessly(w: World, v: World) {
    exists a :: Enabled(w, a) && v == Act(w, a) && Harmless(w, a)
  }

  /** Nobody writes under a key that students see problems of. */
  ghost predicate Discreet(db: Db, tk: Task) { ProgressOf(tk).publishing ==> !Exposed(db, ProgressOf(tk).key) }

  ghost predicate SeenOk(w: World) {
    InOrder(w) && AllPresentable(w.db) && forall t :: t in w.tasks ==> Discreet(w.db, w.tasks[t])
  }

  lemma PublishShows(db: Db, revisions: map<nat, nat>, t: nat, p: PublishTask, pick: nat)
    requires StepPre(db, revisions, t, Publish(p), pick)
    ensures Shows(db, PublishStmt(p))
  {
    hide Orderly, KeyOk, BatchOk, CleanOk, SyncStmt;
    if p.pc.Commit? && |p.sync.pids| == |p.sync.items| {
      assert forall x :: x in Slots(p.sync) ==> x.pid in PublishProgress(p).pids && x.pid in PublishProgress(p).shown;
    } else {
      PublishUnlinks(p);
    }
  }

  lemma PublishUnlinks(p: PublishTask)
    requires !(p.pc.Commit? && |p.sync.pids| == |p.sync.items|)
    ensures !PublishStmt(p).PublishTx? && !PublishStmt(p).EditTx?
  {
    hide Slots;
  }

  lemma EditShows(db: Db, revisions: map<nat, nat>, t: nat, e: EditTask, pick: nat)
    requires StepPre(db, revisions, t, Edit(e), pick) && AllPresentable(db)
    ensures Shows(db, EditStmt(db, e, pick))
  {
    if e.pc.Commit? && |e.sync.pids| == |e.sync.items| {
      forall x | x in Slots(e.sync) ensures Presentable(db, x.pid) {
        assert x.pid in EditProgress(e).pids && x.pid in EditProgress(e).shown;
        if x.pid in e.same {
          var l :| l in db.links && db.links[l].bid == e.bid && db.links[l].pid == x.pid;
          assert OpenBatch(db, e.bid);
        } else {
          assert Made(db, EditProgress(e).key, EditProgress(e).slugs, x.pid);
        }
      }
    } else {
      EditUnlinks(db, e, pick);
    }
    hide StepPre, AllPresentable, Presentable;
  }

  lemma EditUnlinks(db: Db, e: EditTask, pick: nat)
    requires !(e.pc.Commit? && |e.sync.pids| == |e.sync.items|)
    ensures !EditStmt(db, e, pick).PublishTx? && !EditStmt(db, e, pick).EditTx?
  {
    hide Revisable, Slots;
  }

  lemma StatementShows(db: Db, revisions: map<nat, nat>, t: nat, tk: Task, pick: nat)
    requires StepPre(db, revisions, t, tk, pick) && AllPresentable(db)
    ensures Shows(db, StmtOf(db, tk, pick))
  {
    hide StepPre, AllPresentable, PublishStmt, EditStmt, Presentable;
    match tk
    case Publish(p) => PublishShows(db, revisions, t, p, pick);
    case Edit(e) => EditShows(db, revisions, t, e, pick);
    case _ =>
  }

  /** Links, batches and problems as they were, up to what step `t` does: nothing new is exposed to others. */
  lemma OtherDiscreet(w: World, v: World, t: nat, u: nat)
    requires SeenOk(w) && t in w.tasks && u in w.tasks && u != t
    requires Guarantee(w.db, v.db, LockedOffering(w.tasks[t]), KeyOf(ProgressOf(w.tasks[t])), ProgressOf(w.tasks[t]).cleaned)
    ensures Discreet(v.db, w.tasks[u])
  {
    var ct, c := ProgressOf(w.tasks[t]), ProgressOf(w.tasks[u]);
    assert TaskOk(w, t) && TaskOk(w, u) && Discreet(w.db, w.tasks[u]);
    IntegrityParts(w);
    hide Integrity.IntegrityOk, ProgressOf, AllPresentable, LinksSettled, KeysMove, ProblemsMove, RowsMove, KeyOk,
      BatchOk, RowOk, CleanOk, LocksOk, Grounded, LockedOffering, Integrity.KeysOk, RowsOk, HomesOk, OneRowEach,
      Exposed;
    AlwaysGrounded(w.tasks[t]);
    AlwaysGrounded(w.tasks[u]);
    LockedApart(w, t, u);
    if c.publishing {
      StaysHidden(w.db, w.revisions, v.db, t, ct, u, c);
    }
  }

  lemma PublishKind(db: Db, tk: Task, pick: nat)
    requires ProgressOf(Next(db, tk, pick)).publishing
    ensures tk.Publish? && Next(db, tk, pick) == Publish(PublishNext(db, tk.p)) && Busy(PublishNext(db, tk.p).pc)
  {
    hide SubmitNext, PublishNext, EditNext, RemoveNext, DeleteNext;
    EditNever(db, tk, pick);
  }

  lemma EditNever(db: Db, tk: Task, pick: nat)
    ensures !tk.Publish? ==> !ProgressOf(Next(db, tk, pick)).publishing
  {
    hide SubmitNext, PublishNext, EditNext, RemoveNext, DeleteNext, PublishProgress;
    match tk
    case Edit(e) => EditShape(EditNext(db, e, pick));
    case Remove(r) => RemoveShape(RemoveNext(db, r, pick));
    case Delete(d) => DeleteShape(DeleteNext(db, d, pick));
    case _ =>
  }

  /** A publication that goes on writing. */
  lemma BusyShape(db: Db, p: PublishTask)
    requires Busy(PublishNext(db, p).pc)
    ensures p.pc.Inside? || Busy(p.pc)
    ensures p.pc.Inside? ==> ActiveOffering(db, p.oid)
    ensures PublishNext(db, p).sync.key == p.sync.key
    ensures !p.pc.Commit?
  {
    hide SyncNext, KeyUsed, Publishable;
  }

  lemma BusyKey(p: PublishTask)
    requires Busy(p.pc)
    ensures PublishProgress(p).publishing && PublishProgress(p).key == p.sync.key
  {
    hide Slugs, PidSet, LockedOffering;
  }

  lemma BusyFrame(db: Db, p: PublishTask)
    requires Busy(PublishNext(db, p).pc) && RowsOk(db)
    ensures var d := Exec(db, PublishStmt(p));
      d.links == db.links && d.offerings == db.offerings && forall b :: b in db.batches ==> SameBatch(db, d, b)
  {
    hide Exec, EnsureBatch, SyncStmt, NextSeq, KeyUsed, PublishNext;
    BusyShape(db, p);
    if p.pc.Ensure? {
      EnsureFrame(db, p.oid, p.sync.key, if p.deploys then p.outer else None);
    } else {
      BusyStmt(p);
      hide PublishStmt;
      ExecSameRows(db, PublishStmt(p));
    }
  }

  lemma EnsureFrame(db: Db, oid: nat, key: nat, library: Option<nat>)
    requires RowsOk(db)
    ensures var d := Exec(db, PutBatch(oid, key, library));
      d.links == db.links && d.offerings == db.offerings && forall b :: b in db.batches ==> SameBatch(db, d, b)
  {
    assert Exec(db, PutBatch(oid, key, library)) == EnsureBatch(db, oid, key, library);
    hide Exec, NextSeq, KeyUsed;
  }

  lemma BusyStmt(p: PublishTask)
    requires !p.pc.Ensure? && !p.pc.Commit?
    ensures var st := PublishStmt(p); !st.PutBatch? && !st.ArchiveRow? && !st.PublishTx? && !st.EditTx? && !st.RemoveTx? && !st.DeleteTx?
  {
  }

  lemma NothingExposed(db: Db, revisions: map<nat, nat>, d: Db, key: nat, own: Option<nat>, cleaned: Option<nat>)
    requires RowsOk(db) && LinksSettled(db, revisions) && ProblemsMove(db, d, own, cleaned)
    requires d.links == db.links && d.offerings == db.offerings && forall b :: b in db.batches ==> SameBatch(db, d, b)
    requires !Exposed(db, key)
    ensures !Exposed(d, key)
  {
    forall l ensures !Exposes(d, key, l) {
      assert !Exposes(db, key, l);
      assert l in db.links ==> LinkSettled(db, revisions, l);
    }
  }

  /** A publication that goes on writing still writes under nothing that students see. */
  lemma OwnDiscreet(w: World, d: Db, t: nat, pick: nat)
    requires SeenOk(w) && t in w.tasks && !Reopens(w, t)
    requires d == Exec(w.db, StmtOf(w.db, w.tasks[t], pick))
    requires ProblemsMove(w.db, d, KeyOf(ProgressOf(w.tasks[t])), ProgressOf(w.tasks[t]).cleaned)
    ensures Discreet(d, Next(w.db, w.tasks[t], pick))
  {
    var tk := w.tasks[t];
    var next := Next(w.db, tk, pick);
    if ProgressOf(next).publishing {
      PublishKind(w.db, tk, pick);
      BusyShape(w.db, tk.p);
      BusyFrame(w.db, tk.p);
      BusyKey(next.p);
      if Busy(tk.p.pc) {
        BusyKey(tk.p);
        assert Discreet(w.db, tk);
      }
      assert d == Exec(w.db, PublishStmt(tk.p));
      hide Integrity.IntegrityOk, TaskOk, PublishNext, PublishStmt, Exec, PublishProgress, AllPresentable, LinksSettled,
        HomesOk, OneRowEach, Exposed, ProblemsMove;
      NothingExposed(w.db, w.revisions, d, next.p.sync.key, KeyOf(ProgressOf(tk)), ProgressOf(tk).cleaned);
    }
  }

  lemma WorkViewKept(w: World, t: nat, pick: nat)
    requires SeenOk(w) && t in w.tasks && Ready(w, t, pick) && Working(w.tasks[t])
    ensures var d := Exec(w.db, StmtOf(w.db, w.tasks[t], pick));
      && Guarantee(w.db, d, LockedOffering(w.tasks[t]), KeyOf(ProgressOf(w.tasks[t])), ProgressOf(w.tasks[t]).cleaned)
      && ProblemsMove(w.db, d, KeyOf(ProgressOf(w.tasks[t])), ProgressOf(w.tasks[t]).cleaned)
      && AllPresentable(d)
  {
    var tk, st := w.tasks[t], StmtOf(w.db, w.tasks[t], pick);
    IntegrityParts(w);
    TaskWarranted(w, t);
    assert Discreet(w.db, tk);
    hide Integrity.IntegrityOk, ProgressOf, Warranted, LocksOk, Integrity.KeysOk, Sound, Ready, StepPre, Next, StmtOf,
      Exec, RevisionsAfter, Working, KeysMove, ProblemsMove, RowsMove, LinksSettled, Exposed, AllPresentable,
      NewLinksShown, Shows, Grounded, HomesOk, RowsOk, OneRowEach, TaskOk, LockedOffering;
    AlwaysGrounded(tk);
    WorkReady(w, t, pick);
    WorkOk(w.db, w.revisions, t, tk, pick);
    StatementShows(w.db, w.revisions, t, tk, pick);
    ExecShows(w.db, st);
    SeenKept(w.db, w.revisions, Exec(w.db, st), t, ProgressOf(tk));
  }

  lemma WorkKeepsSeen(w: World, t: nat, pick: nat)
    requires SeenOk(w) && t in w.tasks && Ready(w, t, pick) && Working(w.tasks[t]) && !Reopens(w, t)
    requires InOrder(Advance(w, t, pick))
    ensures SeenOk(Advance(w, t, pick))
  {
    hide *;
    var v := Advance(w, t, pick);
    AdvanceWorks(w, t, pick);
    WorkViewKept(w, t, pick);
    OwnDiscreet(w, v.db, t, pick);
    forall u | u in v.tasks ensures Discreet(v.db, v.tasks[u]) {
      if u != t {
        OtherDiscreet(w, v, t, u);
      }
    }
    SeenAgain(v);
  }

  lemma SeenAgain(w: World)
    requires InOrder(w) && AllPresentable(w.db) && forall t :: t in w.tasks ==> Discreet(w.db, w.tasks[t])
    ensures SeenOk(w)
  {
    hide InOrder, AllPresentable, Discreet;
  }

  /** What students see is as it was. */
  predicate SameView(db: Db, d: Db) {
    d.links == db.links && d.batches == db.batches && d.offerings == db.offerings && d.problems == db.problems && d.tests == db.tests
  }

  lemma SameViewSeen(w: World, v: World)
    requires SeenOk(w) && InOrder(v) && SameView(w.db, v.db)
    requires forall u :: u in v.tasks && ProgressOf(v.tasks[u]).publishing ==>
      u in w.tasks && ProgressOf(w.tasks[u]).publishing && ProgressOf(w.tasks[u]).key == ProgressOf(v.tasks[u]).key
    ensures SeenOk(v)
  {
    hide InOrder, ProgressOf;
    forall u | u in v.tasks ensures Discreet(v.db, v.tasks[u]) {
      if ProgressOf(v.tasks[u]).publishing {
        assert Discreet(w.db, w.tasks[u]);
        SameExposed(w.db, v.db, ProgressOf(v.tasks[u]).key);
      }
    }
  }

  lemma SameExposed(db: Db, d: Db, key: nat)
    requires SameView(db, d)
    ensures Exposed(d, key) <==> Exposed(db, key)
  {
    forall l ensures Exposes(d, key, l) <==> Exposes(db, key, l) { }
  }

  lemma StepKeepsSeen(w: World, t: nat, pick: nat)
    requires SeenOk(w) && t in w.tasks && Ready(w, t, pick) && !Reopens(w, t)
    requires InOrder(Advance(w, t, pick))
    ensures SeenOk(Advance(w, t, pick))
  {
    hide Integrity.IntegrityOk, InOrder, SeenOk, ProgressOf, Next, Exec, StmtOf, AfterLock, AfterFree, PhaseOf, Wants,
      Frees, Picks, RevisionsAfter, DyingAfter, Reopens;
    var tk, v := w.tasks[t], Advance(w, t, pick);
    if Working(tk) {
      WorkKeepsSeen(w, t, pick);
    } else {
      if Wants(tk).Some? {
        LockProgress(tk, v.tasks[t]);
      } else if !PhaseOf(tk).Ending? {
        LockProgress(tk, v.tasks[t]);
      }
      SameViewSeen(w, v);
    }
  }

  lemma FreshShape(db: Db, job: Job)
    requires Acceptable(db, job)
    ensures !ProgressOf(Fresh(db, job)).publishing
  {
  }

  lemma RestKeepsSeen(w: World, a: Action)
    requires SeenOk(w) && Enabled(w, a) && !a.Step? && InOrder(Act(w, a))
    ensures SeenOk(Act(w, a))
  {
    hide InOrder, SeenOk, Advance, Fresh, Acceptable, Ready, ProgressOf;
    if a.Start? {
      FreshShape(w.db, a.job);
    }
    SameViewSeen(w, Act(w, a));
  }

  lemma ActKeepsSeen(w: World, a: Action)
    requires SeenOk(w) && Enabled(w, a) && Harmless(w, a)
    ensures SeenOk(Act(w, a))
  {
    hide InOrder, Advance, Fresh, Acceptable, Ready, Reopens;
    assert InOrder(w);
    hide SeenOk;
    ActKeepsOrder(w, a);
    if a.Step? {
      assert a.tid in w.tasks by { ReadyTask(w, a.tid, a.pick); }
      StepKeepsSeen(w, a.tid, a.pick);
    } else {
      RestKeepsSeen(w, a);
    }
  }

  lemma {:induction false} PathKeepsSeen(path: seq<World>, i: nat)
    requires IsPath(path) && i < |path| && SeenOk(path[0])
    requires forall j | 0 <= j < i :: MovesHarmlessly(path[j], path[j + 1])
    ensures SeenOk(path[i])
  {
    if i > 0 {
      PathKeepsSeen(path, i - 1);
      assert MovesHarmlessly(path[i - 1], path[i - 1 + 1]);
      var a :| Enabled(path[i - 1], a) && path[i] == Act(path[i - 1], a) && Harmless(path[i - 1], a);
      hide SeenOk, Act, Enabled, Harmless;
      ActKeepsSeen(path[i - 1], a);
    }
  }

  lemma AtRestSeen(w: World)
    requires AtRest(w) && Integrity.TablesOk(w.db, map[]) && Orderly(w.db, map[]) && AllPresentable(w.db)
    ensures SeenOk(w)
  {
    assert IsRun([w]);
    RunKeepsOrder([w], 0);
    hide InOrder, Integrity.TablesOk, Orderly;
  }

  /**
   In every state of every run, with any interleaving and with stops and crashes after any step, every
   link of a batch in an offering that is not archived leads to a problem that exists, is visible and
   has all its tests on disk, unless a publication before has started to write under a key whose
   problems were open to students already.
   */
  lemma {:induction false} StudentsSeeCompleteProblems(run: seq<World>, i: nat, l: nat)
    requires IsRun(run) && i < |run|
    requires Integrity.TablesOk(run[0].db, map[]) && Orderly(run[0].db, map[]) && AllPresentable(run[0].db)
    requires forall j | 0 <= j < i :: MovesHarmlessly(run[j], run[j + 1])
    requires l in run[i].db.links && OpenBatch(run[i].db, run[i].db.links[l].bid)
    ensures Presentable(run[i].db, run[i].db.links[l].pid)
  {
    AtRestSeen(run[0]);
    hide InOrder, Discreet, AtRest;
    PathKeepsSeen(run, i);
  }
}
