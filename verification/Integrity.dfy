/**
 No solution ever refers to a deleted problem: placing checks and inserts under the problem lock,
 cleaning counts and deletes under it, and the fresh problems an edit moves solutions to are out
 of everybody else's reach until the edit commits.
 */
module Integrity {
  import opened Values
  import opened Tables
  import opened Machine
  import opened Locks

  /** Every solution refers to a problem that is there. Self-test runs use problem 0. */
  ghost predicate NoDangling(db: Db) {
    forall s :: s in db.solutions ==> db.solutions[s].pid == 0 || db.solutions[s].pid in db.problems
  }

  /** A known problem that does not belong to a revision still in the making. */
  ghost predicate Settled(db: Db, revisions: map<nat, nat>, p: nat) {
    && p < db.nextPid
    && (p in db.problems && db.problems[p].source.Authored? ==> db.problems[p].source.key !in revisions)
  }

  /** A known problem under the key, unless it is gone. */
  ghost predicate Carries(db: Db, p: nat, key: nat) {
    p < db.nextPid && (p in db.problems ==> HasKey(db.problems[p], key))
  }

  ghost predicate KeysOk(db: Db, revisions: map<nat, nat>) {
    && (forall k :: k in db.drafts ==> k in db.home)
    && (forall b :: b in db.batches && db.batches[b].key.Some? ==> db.batches[b].key.value in db.home)
    && (forall k :: k in db.home ==> k < db.nextKey && k !in revisions)
    && (forall k :: k in revisions ==> k < db.nextKey)
    && (forall p :: p in db.problems ==> p < db.nextPid)
    && (forall p :: p in db.problems && db.problems[p].source.Authored? ==> db.problems[p].source.key < db.nextKey)
  }

  ghost predicate LinksSettled(db: Db, revisions: map<nat, nat>) {
    forall l :: l in db.links ==> Settled(db, revisions, db.links[l].pid)
  }

  ghost predicate TablesOk(db: Db, revisions: map<nat, nat>) {
    NoDangling(db) && KeysOk(db, revisions) && LinksSettled(db, revisions)
  }

  // ---------------------------------------------------------------- what a request relies on

  /** A publication between choosing its key and its commit. */
  predicate Choosing(pc: PublishPc) {
    !(pc.WantPublish? || pc.Opened? || pc.NextOffering? || pc.Leave? || pc.Exit?)
  }

  /** An edit between opening its revision and its commit. */
  predicate Revising(pc: EditPc) {
    !(pc.WantPublish? || pc.Opened? || pc.WantOffering? || pc.Inside? || pc.Cleaning? || pc.Rejudge? || pc.Leave? || pc.Exit?)
  }

  predicate Erasing(c: Clean) { c.at.Wipe? || c.at.Erase? }

  /**
   What a request has learnt and counts on until it has used it: problems written under its key,
   problems of its own revision, problems it may link or erase, and what it saw of the problem
   whose lock it holds.
   */
  datatype Claims = Claims(
    key: nat, homed: bool, revising: bool,
    made: set<nat>, own: set<nat>, either: set<nat>, settled: set<nat>,
    locked: Option<nat>, placing: bool, erasing: bool)

  /** The problem in the works. */
  function Written(y: Sync): set<nat> {
    if y.at.Lookup? then {}
    else if y.at.Row? then (if y.found.Some? then {y.found.value} else {})
    else {y.pid}
  }

  /** Problems the cleanup goes through, from the current one on. */
  function Erasable(c: Clean): set<nat> {
    if c.at.Choose? then c.todo else c.todo + {c.cur}
  }

  function Locked(tk: Task): Option<nat> { if InProblem(tk) then Some(CurOf(tk)) else None }

  function NoClaims(locked: Option<nat>): Claims { Claims(0, false, false, {}, {}, {}, {}, locked, false, false) }

  function SubmitClaims(s: SubmitTask): Claims { NoClaims(Locked(Submit(s))).(placing := s.pc.Place?) }

  function PublishClaims(p: PublishTask): Claims {
    if Choosing(p.pc) then NoClaims(None).(key := p.sync.key, homed := true, made := PidSet(p.sync.pids) + Written(p.sync))
    else NoClaims(None)
  }

  function EditOwn(e: EditTask): set<nat> {
    if e.pc.Repointing? || e.pc.Reveal? then {e.sync.pid} else Written(e.sync)
  }

  function EditClaims(e: EditTask): Claims {
    if Revising(e.pc)
    then NoClaims(None).(key := e.sync.key, revising := true, own := EditOwn(e),
                         either := PidSet(e.sync.pids), settled := e.same + e.clean.todo)
    else NoClaims(Locked(Edit(e))).(settled := PidSet(e.sync.pids) + Erasable(e.clean), erasing := e.pc.Cleaning? && Erasing(e.clean))
  }

  function CleanClaims(locked: Option<nat>, cleaning: bool, c: Clean): Claims {
    NoClaims(locked).(settled := Erasable(c), erasing := cleaning && Erasing(c))
  }

  function ClaimsOf(tk: Task): Claims {
    match tk
    case Submit(s) => SubmitClaims(s)
    case Publish(p) => PublishClaims(p)
    case Edit(e) => EditClaims(e)
    case Remove(r) => CleanClaims(Locked(tk), r.pc.Cleaning?, r.clean)
    case Delete(d) => CleanClaims(Locked(tk), d.pc.Cleaning?, d.clean)
  }

  ghost predicate Upheld(db: Db, revisions: map<nat, nat>, t: nat, c: Claims) {
    && (c.homed ==> c.key in db.home)
    && (c.revising ==> c.key in revisions && revisions[c.key] == t)
    && (forall x :: x in c.made ==> Carries(db, x, c.key))
    && (forall x :: x in c.own ==> x in db.problems && HasKey(db.problems[x], c.key))
    && (forall x :: x in c.either ==> Carries(db, x, c.key) || Settled(db, revisions, x))
    && (forall x :: x in c.settled ==> Settled(db, revisions, x))
    && (c.placing ==> c.locked.Some? && c.locked.value in db.problems)
    && (c.erasing ==> c.locked.Some? && c.locked.value in c.settled && !Solved(db, c.locked.value))
  }

  ghost predicate IntegrityOk(w: World) {
    && LocksOk(w)
    && TablesOk(w.db, w.revisions)
    && forall t :: t in w.tasks ==> Upheld(w.db, w.revisions, t, ClaimsOf(w.tasks[t]))
  }

  // ---------------------------------------------------------------- what a step may do to others

  /**
   One step of request `t`, which holds the lock of the problem `locked`: it erases settled
   problems under their lock only, lets solutions refer to a problem under its lock or in its own
   revision only, and opens and closes revisions of its own only.
   */
  ghost predicate Guarantee(db: Db, revisions: map<nat, nat>, d: Db, after: map<nat, nat>, t: nat, locked: Option<nat>) {
    && db.nextPid <= d.nextPid
    && (forall k :: k in db.home ==> k in d.home)
    && (forall p :: p in db.problems ==>
          || (p in d.problems && d.problems[p].source == db.problems[p].source)
          || (p !in d.problems && locked == Some(p) && Settled(db, revisions, p)))
    && (forall p :: p in d.problems && p !in db.problems ==> db.nextPid <= p)
    && (forall s :: s in d.solutions ==>
          || (s in db.solutions && d.solutions[s].pid == db.solutions[s].pid)
          || locked == Some(d.solutions[s].pid)
          || !Settled(db, revisions, d.solutions[s].pid))
    && (forall k :: k in after && k !in revisions ==> db.nextKey <= k)
    && (forall k :: k in revisions && revisions[k] != t ==> k in after && after[k] == revisions[k])
  }

  lemma ClaimsSurvive(db: Db, revisions: map<nat, nat>, d: Db, after: map<nat, nat>, t: nat, locked: Option<nat>, u: nat, c: Claims)
    requires Guarantee(db, revisions, d, after, t, locked) && u != t
    requires KeysOk(db, revisions) && Upheld(db, revisions, u, c)
    requires c.locked.Some? ==> c.locked != locked
    requires c.own != {} ==> c.revising
    ensures Upheld(d, after, u, c)
  {
    SettledSurvives(db, revisions, d, after, t, locked);
    assert forall x :: x in c.own ==> !Settled(db, revisions, x);
  }

  lemma SettledSurvives(db: Db, revisions: map<nat, nat>, d: Db, after: map<nat, nat>, t: nat, locked: Option<nat>)
    requires Guarantee(db, revisions, d, after, t, locked) && KeysOk(db, revisions)
    ensures forall x :: Settled(db, revisions, x) ==> Settled(d, after, x)
    ensures forall x, key :: Carries(db, x, key) ==> Carries(d, x, key)
  {
  }

  // ---------------------------------------------------------------- statements

  ghost predicate WriteOk(db: Db, revisions: map<nat, nat>, d: Db, after: map<nat, nat>, t: nat, locked: Option<nat>) {
    Guarantee(db, revisions, d, after, t, locked) && TablesOk(d, after)
  }

  /** When a request may issue a statement, and what becomes of the revisions. */
  ghost predicate Permitted(db: Db, revisions: map<nat, nat>, after: map<nat, nat>, t: nat, locked: Option<nat>, st: Stmt) {
    if st.DrawKey? then after == revisions[db.nextKey := t]
    else if st.EditTx? then
      && after.Keys <= revisions.Keys
      && (forall k :: k in revisions && revisions[k] != t ==> k in after && after[k] == revisions[k])
      && forall x :: x in st.slots ==> Settled(db, after, x.pid)
    else
      && after == revisions
      && (st.PutProblem? && st.source.Authored? ==> st.source.key < db.nextKey)
      && (st.PutBatch? ==> st.key in db.home)
      && (st.PublishTx? ==> forall x :: x in st.slots ==> Settled(db, revisions, x.pid))
      && (st.PutSolution? ==> st.pid in db.problems && locked == Some(st.pid))
      && (st.MoveSolution? ==> st.pid in db.problems && !Settled(db, revisions, st.pid))
      && (st.DropProblem? ==> locked == Some(st.pid) && Settled(db, revisions, st.pid) && !Solved(db, st.pid))
  }

  /** Problems stay what they are, no key comes in, and solutions and links at most go away. */
  ghost predicate Quiet(db: Db, d: Db) {
    && d.problems.Keys == db.problems.Keys
    && (forall p :: p in d.problems ==> d.problems[p].source == db.problems[p].source)
    && (forall s :: s in d.solutions ==> s in db.solutions && d.solutions[s].pid == db.solutions[s].pid)
    && (forall l :: l in d.links ==> l in db.links && d.links[l].pid == db.links[l].pid)
    && (forall b :: b in d.batches ==> b in db.batches && d.batches[b].key == db.batches[b].key)
    && d.drafts.Keys <= db.drafts.Keys
    && d.home == db.home && d.nextPid == db.nextPid && d.nextKey == db.nextKey
  }

  lemma QuietOk(db: Db, revisions: map<nat, nat>, d: Db, t: nat, locked: Option<nat>)
    requires TablesOk(db, revisions) && Quiet(db, d)
    ensures WriteOk(db, revisions, d, revisions, t, locked)
  {
  }

  lemma FrameQuiet(db: Db, d: Db)
    requires d.problems == db.problems && d.solutions == db.solutions && d.links == db.links && d.batches == db.batches
    requires d.drafts == db.drafts && d.home == db.home && d.nextPid == db.nextPid && d.nextKey == db.nextKey
    ensures Quiet(db, d)
  {
  }

  /** Test files, sources, submissions and offerings do not matter here. */
  lemma FileQuiet(db: Db, st: Stmt)
    requires st.EmptyTests? || st.PutTest? || st.DropTests? || st.PutCode? || st.PutUserCode? || st.DropCodes? || st.DropUserCodes?
    ensures Quiet(db, Exec(db, st))
  {
    hide Quiet, WriteTest;
    FrameQuiet(db, Exec(db, st));
  }

  lemma CourseQuiet(db: Db, st: Stmt)
    requires st.Skip? || st.ArchiveRow? || st.PutSubmission? || st.MarkPromoted?
    ensures Quiet(db, Exec(db, st))
  {
    hide Quiet, Archive, InsertSubmission, Promote;
    FrameQuiet(db, Exec(db, st));
  }

  lemma StatusQuiet(db: Db, bid: nat, status: BatchStatus)
    ensures Quiet(db, WithStatus(db, bid, status))
  {
    if bid !in db.batches {
      FrameQuiet(db, db);
    }
  }

  lemma RemoveQuiet(db: Db, bid: nat, key: nat)
    ensures Quiet(db, CommitRemove(db, bid))
    ensures Quiet(db, db.(drafts := db.drafts - {key}))
  {
  }

  lemma DeleteQuiet(db: Db, oid: nat, course: nat)
    ensures Quiet(db, CommitDelete(db, oid, course))
  {
    hide WithoutOffering, WithoutCourse, CourseUsed;
    OfferingQuiet(db, oid);
  }

  lemma OfferingQuiet(db: Db, oid: nat)
    ensures Quiet(db, WithoutOffering(db, oid))
  {
    hide LinkOfOffering;
  }

  lemma ProblemQuiet(db: Db, pid: nat, content: string, wants: seq<Case>)
    ensures Quiet(db, UpdateProblem(db, pid, content, wants))
  {
    if pid !in db.problems {
      FrameQuiet(db, db);
    }
  }

  lemma TallyQuiet(db: Db, pid: nat)
    ensures Quiet(db, Tallied(db, pid))
  {
    if pid !in db.problems {
      FrameQuiet(db, db);
    }
  }

  lemma VisibleQuiet(db: Db, key: nat, pids: set<nat>)
    ensures Quiet(db, HideOthers(db, key, pids))
    ensures Quiet(db, Show(db, pids))
  {
  }

  lemma SolutionQuiet(db: Db, sids: set<nat>)
    ensures Quiet(db, Released(db, sids))
    ensures Quiet(db, db.(solutions := db.solutions - sids))
  {
  }

  lemma InsertDraftOk(db: Db, revisions: map<nat, nat>, t: nat, locked: Option<nat>, owner: Option<nat>)
    requires TablesOk(db, revisions)
    ensures WriteOk(db, revisions, InsertDraft(db, owner), revisions, t, locked)
  {
  }

  lemma DrawKeyOk(db: Db, revisions: map<nat, nat>, t: nat, locked: Option<nat>)
    requires TablesOk(db, revisions)
    ensures WriteOk(db, revisions, db.(nextKey := db.nextKey + 1), revisions[db.nextKey := t], t, locked)
  {
  }

  lemma EnsureBatchOk(db: Db, revisions: map<nat, nat>, t: nat, locked: Option<nat>, oid: nat, key: nat, library: Option<nat>)
    requires TablesOk(db, revisions) && key in db.home
    ensures WriteOk(db, revisions, EnsureBatch(db, oid, key, library), revisions, t, locked)
  {
  }

  lemma InsertProblemOk(
    db: Db, revisions: map<nat, nat>, t: nat, locked: Option<nat>, source: Source, content: string, wants: seq<Case>)
    requires TablesOk(db, revisions) && (source.Authored? ==> source.key < db.nextKey)
    ensures WriteOk(db, revisions, InsertProblem(db, source, content, wants), revisions, t, locked)
  {
  }

  lemma InsertSolutionOk(db: Db, revisions: map<nat, nat>, t: nat, pid: nat, user: string, course: bool)
    requires TablesOk(db, revisions) && pid in db.problems
    ensures WriteOk(db, revisions, InsertSolution(db, pid, user, course), revisions, t, Some(pid))
  {
  }

  lemma RepointedOk(db: Db, revisions: map<nat, nat>, t: nat, locked: Option<nat>, sid: nat, pid: nat)
    requires TablesOk(db, revisions) && pid in db.problems && !Settled(db, revisions, pid)
    ensures WriteOk(db, revisions, Repointed(db, sid, pid), revisions, t, locked)
  {
    if sid in db.solutions {
      var d := db.(solutions := db.solutions[sid := db.solutions[sid].(pid := pid, result := SAVING)]);
      assert NoDangling(d);
    } else {
      hide TablesOk, Settled;
      FrameQuiet(db, db);
      QuietOk(db, revisions, db, t, locked);
    }
  }

  lemma DropProblemOk(db: Db, revisions: map<nat, nat>, t: nat, pid: nat)
    requires TablesOk(db, revisions) && Settled(db, revisions, pid) && !Solved(db, pid)
    ensures WriteOk(db, revisions, db.(problems := db.problems - {pid}), revisions, t, Some(pid))
  {
  }

  /** New links are settled once the revision they come from is closed. */
  lemma RelinkedOk(db: Db, after: map<nat, nat>, bid: nat, slots: seq<Slot>)
    requires LinksSettled(db, after)
    requires forall x :: x in slots ==> Settled(db, after, x.pid)
    ensures LinksSettled(Relinked(db, bid, slots), after)
  {
  }

  /** A transaction that rebuilds links, when the new ones are settled. */
  lemma LinkedOk(db: Db, revisions: map<nat, nat>, d: Db, after: map<nat, nat>, t: nat, locked: Option<nat>)
    requires TablesOk(db, revisions) && LinksSettled(d, after)
    requires after.Keys <= revisions.Keys
    requires forall k :: k in revisions && revisions[k] != t ==> k in after && after[k] == revisions[k]
    requires d.problems == db.problems && d.solutions == db.solutions && d.home == db.home
    requires d.nextPid == db.nextPid && d.nextKey == db.nextKey
    requires d.drafts.Keys <= db.drafts.Keys
    requires forall b :: b in d.batches ==> b in db.batches && d.batches[b].key == db.batches[b].key
    ensures WriteOk(db, revisions, d, after, t, locked)
  {
  }

  lemma StatusKeepsKeys(db: Db, bid: nat, status: BatchStatus)
    ensures var d := WithStatus(db, bid, status);
      forall b :: b in d.batches ==> b in db.batches && d.batches[b].key == db.batches[b].key
  {
  }

  lemma CommitPublishOk(db: Db, revisions: map<nat, nat>, t: nat, locked: Option<nat>, oid: nat, bid: nat, key: nat, slots: seq<Slot>)
    requires TablesOk(db, revisions)
    requires forall x :: x in slots ==> Settled(db, revisions, x.pid)
    ensures WriteOk(db, revisions, CommitPublish(db, oid, bid, key, slots), revisions, t, locked)
  {
    hide Relinked, WithStatus, ActiveOffering, WriteOk, Settled, NoDangling, KeysOk, Quiet;
    var d := CommitPublish(db, oid, bid, key, slots);
    if ActiveOffering(db, oid) && key in db.drafts {
      RelinkedOk(db, revisions, bid, slots);
      StatusKeepsKeys(Relinked(db, bid, slots), bid, Published);
      SameLinks(Relinked(db, bid, slots), d, revisions);
      LinkedOk(db, revisions, d, revisions, t, locked);
    } else {
      assert d == db;
      FrameQuiet(db, d);
      QuietOk(db, revisions, d, t, locked);
    }
  }

  lemma SameLinks(x: Db, d: Db, after: map<nat, nat>)
    requires LinksSettled(x, after)
    requires d.links == x.links && d.problems == x.problems && d.nextPid == x.nextPid
    ensures LinksSettled(d, after)
  {
  }

  lemma CommitEditOk(
    db: Db, revisions: map<nat, nat>, after: map<nat, nat>, t: nat, locked: Option<nat>,
    bid: nat, doomed: set<nat>, slots: seq<Slot>, status: BatchStatus)
    requires TablesOk(db, revisions)
    requires after.Keys <= revisions.Keys
    requires forall k :: k in revisions && revisions[k] != t ==> k in after && after[k] == revisions[k]
    requires forall x :: x in slots ==> Settled(db, after, x.pid)
    ensures WriteOk(db, revisions, CommitEdit(db, bid, doomed, slots, status), after, t, locked)
  {
    var x := Relinked(db.(submissions := db.submissions - doomed), bid, slots);
    var d := CommitEdit(db, bid, doomed, slots, status);
    assert LinksSettled(x, after) by {
      assert LinksSettled(db, after);
      SameLinks(db, db.(submissions := db.submissions - doomed), after);
      RelinkedOk(db.(submissions := db.submissions - doomed), after, bid, slots);
    }
    hide Relinked, Repaired, WithStatus, WriteOk, Settled, NoDangling, KeysOk;
    StatusKeepsKeys(Repaired(x, bid), bid, status);
    SameLinks(x, d, after);
    LinkedOk(db, revisions, d, after, t, locked);
  }

  lemma ExecQuiet(db: Db, st: Stmt)
    requires !st.PutDraft? && !st.DrawKey? && !st.PutBatch? && !st.PublishTx? && !st.EditTx?
    requires !st.PutProblem? && !st.DropProblem? && !st.PutSolution? && !st.MoveSolution?
    ensures Quiet(db, Exec(db, st))
  {
    hide Quiet, WithStatus, Archive, InsertSubmission, Promote, CommitRemove, CommitDelete, UpdateProblem, WriteTest,
      HideOthers, Show, Tallied, Released;
    match st
    case DeleteTx(oid, course) => DeleteQuiet(db, oid, course);
    case SetProblem(pid, content, wants) => ProblemQuiet(db, pid, content, wants);
    case TallyProblem(pid) => TallyQuiet(db, pid);
    case HideStale(key, keep) => VisibleQuiet(db, key, keep);
    case ShowAllOf(pids) => VisibleQuiet(db, 0, pids);
    case ReleaseRows(sids) => SolutionQuiet(db, sids);
    case DropSolutionRows(sids) => SolutionQuiet(db, sids);
    case DropDraftRow(key) => RemoveQuiet(db, 0, key);
    case SetStatus(bid, status) => StatusQuiet(db, bid, status);
    case RemoveTx(bid) => RemoveQuiet(db, bid, 0);
    case Skip => CourseQuiet(db, st);
    case ArchiveRow(_) => CourseQuiet(db, st);
    case PutSubmission(_, _, _, _, _) => CourseQuiet(db, st);
    case MarkPromoted(_) => CourseQuiet(db, st);
    case _ => FileQuiet(db, st);
  }

  lemma RowsExecOk(db: Db, revisions: map<nat, nat>, after: map<nat, nat>, t: nat, locked: Option<nat>, st: Stmt)
    requires TablesOk(db, revisions) && Permitted(db, revisions, after, t, locked, st)
    requires st.PutProblem? || st.PutSolution? || st.MoveSolution? || st.DropProblem?
    ensures WriteOk(db, revisions, Exec(db, st), after, t, locked)
  {
    hide WriteOk, TablesOk, Solved, Settled, InsertProblem, InsertSolution, Repointed;
    match st
    case PutProblem(source, content, wants) => InsertProblemOk(db, revisions, t, locked, source, content, wants);
    case PutSolution(pid, user, handed) => InsertSolutionOk(db, revisions, t, pid, user, handed);
    case MoveSolution(sid, pid) => RepointedOk(db, revisions, t, locked, sid, pid);
    case DropProblem(pid) => DropProblemOk(db, revisions, t, pid);
  }

  lemma ExecOk(db: Db, revisions: map<nat, nat>, after: map<nat, nat>, t: nat, locked: Option<nat>, st: Stmt)
    requires TablesOk(db, revisions) && Permitted(db, revisions, after, t, locked, st)
    ensures WriteOk(db, revisions, Exec(db, st), after, t, locked)
  {
    hide Quiet, WriteOk, TablesOk, Solved, Settled, InsertDraft, EnsureBatch, CommitPublish, CommitEdit;
    match st
    case PutDraft(owner) => InsertDraftOk(db, revisions, t, locked, owner);
    case DrawKey => DrawKeyOk(db, revisions, t, locked);
    case PutBatch(oid, key, library) => EnsureBatchOk(db, revisions, t, locked, oid, key, library);
    case PublishTx(oid, bid, key, slots) => CommitPublishOk(db, revisions, t, locked, oid, bid, key, slots);
    case EditTx(bid, doomed, slots, status) => CommitEditOk(db, revisions, after, t, locked, bid, doomed, slots, status);
    case _ =>
      hide Exec;
      if st.PutProblem? || st.PutSolution? || st.MoveSolution? || st.DropProblem? {
        RowsExecOk(db, revisions, after, t, locked, st);
      } else {
        ExecQuiet(db, st);
        QuietOk(db, revisions, Exec(db, st), t, locked);
      }
  }

  // ---------------------------------------------------------------- the steps of one request

  /** What a request sees of its own statement. */
  ghost predicate Seen(db: Db, d: Db, st: Stmt) {
    && (st.Skip? ==> d == db)
    && (st.DropTests? ==> d.solutions == db.solutions)
    && (st.PutDraft? ==> db.nextKey in d.home)
    && (st.PutProblem? ==> db.nextPid < d.nextPid && db.nextPid in d.problems && d.problems[db.nextPid].source == st.source)
  }

  lemma ExecSeen(db: Db, st: Stmt)
    ensures Seen(db, Exec(db, st), st)
  {
    hide WithStatus, Archive, InsertSubmission, Promote, CommitRemove, CommitDelete, UpdateProblem, WriteTest,
      HideOthers, Show, Tallied, Released, EnsureBatch, CommitPublish, CommitEdit, InsertSolution, Repointed;
  }

  /** What a request knew but for the problem under its lock, which it has just acted on. */
  function Calmed(c: Claims): Claims { c.(placing := false, erasing := false) }

  lemma OwnClaimsSurvive(db: Db, revisions: map<nat, nat>, d: Db, after: map<nat, nat>, t: nat, c: Claims)
    requires Guarantee(db, revisions, d, after, t, c.locked) && KeysOk(db, revisions) && Upheld(db, revisions, t, c)
    requires c.revising ==> c.locked.None? && c.key in after && after[c.key] == t
    requires c.own != {} ==> c.revising
    ensures Upheld(d, after, t, Calmed(c))
  {
    SettledSurvives(db, revisions, d, after, t, c.locked);
    hide Settled, Carries, Solved;
  }

  lemma SubmitPermitted(db: Db, revisions: map<nat, nat>, t: nat, s: SubmitTask)
    requires Upheld(db, revisions, t, SubmitClaims(s))
    ensures Permitted(db, revisions, revisions, t, Locked(Submit(s)), SubmitStmt(s))
  {
  }

  lemma SubmitClaimsOk(db: Db, revisions: map<nat, nat>, d: Db, t: nat, s: SubmitTask)
    requires Upheld(d, revisions, t, Calmed(SubmitClaims(s))) && Seen(db, d, SubmitStmt(s))
    ensures Upheld(d, revisions, t, SubmitClaims(SubmitNext(db, s)))
  {
  }

  lemma PublishPermitted(db: Db, revisions: map<nat, nat>, t: nat, p: PublishTask)
    requires TablesOk(db, revisions) && Upheld(db, revisions, t, PublishClaims(p))
    ensures Permitted(db, revisions, revisions, t, None, PublishStmt(p))
  {
    hide NoDangling, LinksSettled;
    if p.pc.Commit? && |p.sync.pids| == |p.sync.items| {
      forall x | x in Slots(p.sync) ensures Settled(db, revisions, x.pid) {
        assert x.pid in PublishClaims(p).made;
      }
    }
  }

  lemma PublishKeyOk(db: Db, revisions: map<nat, nat>, d: Db, t: nat, p: PublishTask)
    requires KeysOk(db, revisions) && Upheld(d, revisions, t, Calmed(PublishClaims(p))) && Seen(db, d, PublishStmt(p))
    requires p.pc.Opened? || p.pc.NextOffering?
    ensures Upheld(d, revisions, t, PublishClaims(PublishNext(db, p)))
  {
  }

  lemma PublishWritingOk(db: Db, revisions: map<nat, nat>, d: Db, t: nat, p: PublishTask)
    requires TablesOk(db, revisions) && Upheld(d, revisions, t, Calmed(PublishClaims(p))) && Seen(db, d, PublishStmt(p))
    requires p.pc.Writing?
    ensures Upheld(d, revisions, t, PublishClaims(PublishNext(db, p)))
  {
    hide NoDangling, LinksSettled;
  }

  lemma PublishRestOk(db: Db, revisions: map<nat, nat>, d: Db, t: nat, p: PublishTask)
    requires Upheld(d, revisions, t, Calmed(PublishClaims(p)))
    requires !p.pc.Opened? && !p.pc.NextOffering? && !p.pc.Writing?
    ensures Upheld(d, revisions, t, PublishClaims(PublishNext(db, p)))
  {
    hide Carries, Settled;
  }

  ghost predicate EditMay(db: Db, revisions: map<nat, nat>, t: nat, e: EditTask, pick: nat) {
    Permitted(db, revisions, RevisionsAfter(revisions, t, Edit(e), Edit(EditNext(db, e, pick))), t, Locked(Edit(e)), EditStmt(db, e, pick))
  }

  lemma EditCommitPermitted(db: Db, revisions: map<nat, nat>, t: nat, e: EditTask, pick: nat)
    requires Upheld(db, revisions, t, EditClaims(e)) && e.pc.Commit?
    ensures EditMay(db, revisions, t, e, pick)
  {
    if |e.sync.pids| == |e.sync.items| {
      forall x | x in Slots(e.sync) ensures Settled(db, revisions - {e.sync.key}, x.pid) {
        assert x.pid in EditClaims(e).either;
      }
    }
  }

  lemma EditWritePermitted(db: Db, revisions: map<nat, nat>, t: nat, e: EditTask, pick: nat)
    requires KeysOk(db, revisions) && Upheld(db, revisions, t, EditClaims(e)) && (e.pc.Writing? || e.pc.Repointing?)
    ensures EditMay(db, revisions, t, e, pick)
  {
  }

  lemma EditRestPermitted(db: Db, revisions: map<nat, nat>, t: nat, e: EditTask, pick: nat)
    requires Upheld(db, revisions, t, EditClaims(e)) && !e.pc.Commit? && !e.pc.Writing? && !e.pc.Repointing?
    ensures EditMay(db, revisions, t, e, pick)
  {
    hide Settled, Carries;
  }

  lemma EditInsideOk(db: Db, revisions: map<nat, nat>, d: Db, after: map<nat, nat>, t: nat, e: EditTask, pick: nat)
    requires TablesOk(db, revisions) && Upheld(d, after, t, Calmed(EditClaims(e))) && e.pc.Inside?
    requires after == RevisionsAfter(revisions, t, Edit(e), Edit(EditNext(db, e, pick)))
    requires forall x :: Settled(db, revisions, x) ==> Settled(d, after, x)
    ensures Upheld(d, after, t, EditClaims(EditNext(db, e, pick)))
  {
    hide Carries, Settled;
  }

  lemma EditNextItemOk(db: Db, revisions: map<nat, nat>, d: Db, t: nat, e: EditTask, pick: nat)
    requires Upheld(d, revisions, t, Calmed(EditClaims(e))) && e.pc.NextItem?
    ensures Upheld(d, revisions, t, EditClaims(EditNext(db, e, pick)))
  {
  }

  lemma EditWritingOk(db: Db, revisions: map<nat, nat>, d: Db, t: nat, e: EditTask, pick: nat)
    requires TablesOk(db, revisions) && Upheld(d, revisions, t, Calmed(EditClaims(e))) && e.pc.Writing?
    requires Seen(db, d, EditStmt(db, e, pick))
    ensures Upheld(d, revisions, t, EditClaims(EditNext(db, e, pick)))
  {
    hide NoDangling, LinksSettled;
  }

  lemma EditRevealOk(db: Db, revisions: map<nat, nat>, d: Db, t: nat, e: EditTask, pick: nat)
    requires Upheld(d, revisions, t, Calmed(EditClaims(e))) && (e.pc.Repointing? || e.pc.Reveal?)
    requires KeysOk(d, revisions)
    ensures Upheld(d, revisions, t, EditClaims(EditNext(db, e, pick)))
  {
    hide Settled;
  }

  lemma EditCommitOk(db: Db, revisions: map<nat, nat>, d: Db, after: map<nat, nat>, t: nat, e: EditTask, pick: nat)
    requires Upheld(db, revisions, t, EditClaims(e)) && e.pc.Commit? && Seen(db, d, EditStmt(db, e, pick))
    requires after == RevisionsAfter(revisions, t, Edit(e), Edit(EditNext(db, e, pick)))
    requires forall x :: Settled(db, revisions, x) ==> Settled(d, after, x)
    requires forall x, key :: Carries(db, x, key) ==> Carries(d, x, key)
    ensures Upheld(d, after, t, EditClaims(EditNext(db, e, pick)))
  {
  }

  lemma EditCleaningOk(db: Db, revisions: map<nat, nat>, d: Db, t: nat, e: EditTask, pick: nat)
    requires Upheld(d, revisions, t, Calmed(EditClaims(e))) && e.pc.Cleaning? && Picks(Edit(e), pick)
    requires Upheld(db, revisions, t, EditClaims(e)) && Seen(db, d, EditStmt(db, e, pick))
    ensures Upheld(d, revisions, t, EditClaims(EditNext(db, e, pick)))
  {
    hide Upheld, Seen, EditClaims, EditNext, EditStmt, Calmed, Picks;
    if e.clean.at.Choose? {
      EditChoosingOk(db, revisions, d, t, e, pick);
    } else {
      EditTidyingOk(db, revisions, d, t, e, pick);
    }
  }

  lemma EditChoosingOk(db: Db, revisions: map<nat, nat>, d: Db, t: nat, e: EditTask, pick: nat)
    requires Upheld(d, revisions, t, Calmed(EditClaims(e))) && e.pc.Cleaning? && e.clean.at.Choose? && Picks(Edit(e), pick)
    ensures Upheld(d, revisions, t, EditClaims(EditNext(db, e, pick)))
  {
    hide Settled, Carries, HasKey, PidSet;
  }

  lemma EditTidyingOk(db: Db, revisions: map<nat, nat>, d: Db, t: nat, e: EditTask, pick: nat)
    requires Upheld(d, revisions, t, Calmed(EditClaims(e))) && e.pc.Cleaning? && !e.clean.at.Choose?
    requires Upheld(db, revisions, t, EditClaims(e)) && Seen(db, d, EditStmt(db, e, pick))
    ensures Upheld(d, revisions, t, EditClaims(EditNext(db, e, pick)))
  {
    hide Settled, Carries, HasKey, LinkedAnywhere, PidSet;
  }

  lemma EditRestOk(db: Db, revisions: map<nat, nat>, d: Db, t: nat, e: EditTask, pick: nat)
    requires Upheld(d, revisions, t, Calmed(EditClaims(e)))
    requires !e.pc.Inside? && !e.pc.NextItem? && !e.pc.Writing? && !e.pc.Repointing? && !e.pc.Reveal? && !e.pc.Commit? && !e.pc.Cleaning?
    ensures Upheld(d, revisions, t, EditClaims(EditNext(db, e, pick)))
  {
    hide Settled, Carries;
  }

  lemma RemovePermitted(db: Db, revisions: map<nat, nat>, t: nat, r: RemoveTask)
    requires Upheld(db, revisions, t, ClaimsOf(Remove(r)))
    ensures Permitted(db, revisions, revisions, t, Locked(Remove(r)), RemoveStmt(r))
  {
  }

  lemma RemoveCleaningOk(db: Db, revisions: map<nat, nat>, d: Db, t: nat, r: RemoveTask, pick: nat)
    requires Upheld(d, revisions, t, Calmed(ClaimsOf(Remove(r)))) && Upheld(db, revisions, t, ClaimsOf(Remove(r)))
    requires r.pc.Cleaning? && Picks(Remove(r), pick)
    requires Seen(db, d, RemoveStmt(r))
    ensures Upheld(d, revisions, t, ClaimsOf(Remove(RemoveNext(db, r, pick))))
  {
    hide Settled;
  }

  lemma RemoveRestOk(db: Db, revisions: map<nat, nat>, d: Db, t: nat, r: RemoveTask, pick: nat)
    requires Upheld(d, revisions, t, Calmed(ClaimsOf(Remove(r))))
    requires !r.pc.Cleaning? && LinksSettled(db, revisions)
    requires forall x :: Settled(db, revisions, x) ==> Settled(d, revisions, x)
    ensures Upheld(d, revisions, t, ClaimsOf(Remove(RemoveNext(db, r, pick))))
  {
    hide Settled;
  }

  lemma DeletePermitted(db: Db, revisions: map<nat, nat>, t: nat, c: DeleteTask)
    requires Upheld(db, revisions, t, ClaimsOf(Delete(c)))
    ensures Permitted(db, revisions, revisions, t, Locked(Delete(c)), DeleteStmt(c))
  {
  }

  lemma DeleteCleaningOk(db: Db, revisions: map<nat, nat>, d: Db, t: nat, c: DeleteTask, pick: nat)
    requires Upheld(d, revisions, t, Calmed(ClaimsOf(Delete(c)))) && Upheld(db, revisions, t, ClaimsOf(Delete(c)))
    requires c.pc.Cleaning? && Picks(Delete(c), pick)
    requires Seen(db, d, DeleteStmt(c))
    ensures Upheld(d, revisions, t, ClaimsOf(Delete(DeleteNext(db, c, pick))))
  {
    hide Settled;
  }

  lemma DeleteRestOk(db: Db, revisions: map<nat, nat>, d: Db, t: nat, c: DeleteTask, pick: nat)
    requires Upheld(d, revisions, t, Calmed(ClaimsOf(Delete(c))))
    requires !c.pc.Cleaning? && TablesOk(db, revisions)
    requires forall x :: Settled(db, revisions, x) ==> Settled(d, revisions, x)
    ensures Upheld(d, revisions, t, ClaimsOf(Delete(DeleteNext(db, c, pick))))
  {
  }

  ghost predicate StepOk(db: Db, revisions: map<nat, nat>, t: nat, tk: Task, pick: nat) {
    var next, d := Next(db, tk, pick), Exec(db, StmtOf(db, tk, pick));
    var after := RevisionsAfter(revisions, t, tk, next);
    && WriteOk(db, revisions, d, after, t, Locked(tk))
    && Upheld(d, after, t, ClaimsOf(next))
  }

  lemma SubmitStepOk(db: Db, revisions: map<nat, nat>, t: nat, s: SubmitTask, pick: nat)
    requires TablesOk(db, revisions) && Upheld(db, revisions, t, SubmitClaims(s))
    ensures StepOk(db, revisions, t, Submit(s), pick)
  {
    hide TablesOk, Upheld, Guarantee, SubmitNext, SubmitStmt, Exec, Permitted, Seen, Locked;
    var d := Exec(db, SubmitStmt(s));
    SubmitPermitted(db, revisions, t, s);
    ExecOk(db, revisions, revisions, t, Locked(Submit(s)), SubmitStmt(s));
    ExecSeen(db, SubmitStmt(s));
    assert KeysOk(db, revisions) by { TablesParts(db, revisions); }
    OwnClaimsSurvive(db, revisions, d, revisions, t, SubmitClaims(s));
    SubmitClaimsOk(db, revisions, d, t, s);
  }

  lemma TablesParts(db: Db, revisions: map<nat, nat>)
    requires TablesOk(db, revisions)
    ensures NoDangling(db) && KeysOk(db, revisions) && LinksSettled(db, revisions)
  {
  }

  lemma PublishStepOk(db: Db, revisions: map<nat, nat>, t: nat, p: PublishTask, pick: nat)
    requires TablesOk(db, revisions) && Upheld(db, revisions, t, PublishClaims(p))
    ensures StepOk(db, revisions, t, Publish(p), pick)
  {
    hide TablesOk, Upheld, Guarantee, PublishNext, PublishStmt, Exec, Permitted, Seen;
    var d := Exec(db, PublishStmt(p));
    PublishPermitted(db, revisions, t, p);
    ExecOk(db, revisions, revisions, t, None, PublishStmt(p));
    ExecSeen(db, PublishStmt(p));
    TablesParts(db, revisions);
    OwnClaimsSurvive(db, revisions, d, revisions, t, PublishClaims(p));
    if p.pc.Opened? || p.pc.NextOffering? {
      PublishKeyOk(db, revisions, d, t, p);
    } else if p.pc.Writing? {
      PublishWritingOk(db, revisions, d, t, p);
    } else {
      PublishRestOk(db, revisions, d, t, p);
    }
  }

  lemma RemoveStepOk(db: Db, revisions: map<nat, nat>, t: nat, r: RemoveTask, pick: nat)
    requires TablesOk(db, revisions) && Upheld(db, revisions, t, ClaimsOf(Remove(r))) && Picks(Remove(r), pick)
    ensures StepOk(db, revisions, t, Remove(r), pick)
  {
    hide TablesOk, Upheld, Guarantee, RemoveNext, RemoveStmt, Exec, Permitted, Seen, Locked, Picks;
    var d := Exec(db, RemoveStmt(r));
    RemovePermitted(db, revisions, t, r);
    ExecOk(db, revisions, revisions, t, Locked(Remove(r)), RemoveStmt(r));
    ExecSeen(db, RemoveStmt(r));
    TablesParts(db, revisions);
    OwnClaimsSurvive(db, revisions, d, revisions, t, ClaimsOf(Remove(r)));
    SettledSurvives(db, revisions, d, revisions, t, Locked(Remove(r)));
    if r.pc.Cleaning? {
      RemoveCleaningOk(db, revisions, d, t, r, pick);
    } else {
      RemoveRestOk(db, revisions, d, t, r, pick);
    }
  }

  lemma DeleteStepOk(db: Db, revisions: map<nat, nat>, t: nat, c: DeleteTask, pick: nat)
    requires TablesOk(db, revisions) && Upheld(db, revisions, t, ClaimsOf(Delete(c))) && Picks(Delete(c), pick)
    ensures StepOk(db, revisions, t, Delete(c), pick)
  {
    hide TablesOk, Upheld, Guarantee, DeleteNext, DeleteStmt, Exec, Permitted, Seen, Locked, Picks;
    var d := Exec(db, DeleteStmt(c));
    DeletePermitted(db, revisions, t, c);
    ExecOk(db, revisions, revisions, t, Locked(Delete(c)), DeleteStmt(c));
    ExecSeen(db, DeleteStmt(c));
    TablesParts(db, revisions);
    OwnClaimsSurvive(db, revisions, d, revisions, t, ClaimsOf(Delete(c)));
    SettledSurvives(db, revisions, d, revisions, t, Locked(Delete(c)));
    if c.pc.Cleaning? {
      DeleteCleaningOk(db, revisions, d, t, c, pick);
    } else {
      DeleteRestOk(db, revisions, d, t, c, pick);
    }
  }

  lemma EditPermitted(db: Db, revisions: map<nat, nat>, t: nat, e: EditTask, pick: nat)
    requires TablesOk(db, revisions) && Upheld(db, revisions, t, EditClaims(e))
    ensures EditMay(db, revisions, t, e, pick)
  {
    hide EditMay, TablesOk, Upheld;
    TablesParts(db, revisions);
    if e.pc.Commit? {
      EditCommitPermitted(db, revisions, t, e, pick);
    } else if e.pc.Writing? || e.pc.Repointing? {
      EditWritePermitted(db, revisions, t, e, pick);
    } else {
      EditRestPermitted(db, revisions, t, e, pick);
    }
  }

  lemma EditRevision(db: Db, revisions: map<nat, nat>, t: nat, e: EditTask, pick: nat)
    requires Upheld(db, revisions, t, EditClaims(e))
    ensures var after := RevisionsAfter(revisions, t, Edit(e), Edit(EditNext(db, e, pick)));
      && EditClaims(e).locked == Locked(Edit(e))
      && (!e.pc.Inside? && !e.pc.Commit? ==> after == revisions)
      && (!e.pc.Commit? && Revising(e.pc) ==> e.sync.key in after && after[e.sync.key] == t)
  {
    hide Carries, Settled;
  }

  lemma EditStepOk(db: Db, revisions: map<nat, nat>, t: nat, e: EditTask, pick: nat)
    requires TablesOk(db, revisions) && Upheld(db, revisions, t, EditClaims(e)) && Picks(Edit(e), pick)
    ensures StepOk(db, revisions, t, Edit(e), pick)
  {
    hide TablesOk, Upheld, Guarantee, EditNext, EditStmt, Exec, Permitted, Seen, Locked, Picks, RevisionsAfter;
    var d, after := Exec(db, EditStmt(db, e, pick)), RevisionsAfter(revisions, t, Edit(e), Edit(EditNext(db, e, pick)));
    EditPermitted(db, revisions, t, e, pick);
    ExecOk(db, revisions, after, t, Locked(Edit(e)), EditStmt(db, e, pick));
    ExecSeen(db, EditStmt(db, e, pick));
    TablesParts(db, revisions);
    SettledSurvives(db, revisions, d, after, t, Locked(Edit(e)));
    if e.pc.Commit? {
      EditCommitOk(db, revisions, d, after, t, e, pick);
    } else {
      EditRevision(db, revisions, t, e, pick);
      OwnClaimsSurvive(db, revisions, d, after, t, EditClaims(e));
      if e.pc.Inside? {
        EditInsideOk(db, revisions, d, after, t, e, pick);
      } else if e.pc.NextItem? {
        EditNextItemOk(db, revisions, d, t, e, pick);
      } else if e.pc.Writing? {
        EditWritingOk(db, revisions, d, t, e, pick);
      } else if e.pc.Repointing? || e.pc.Reveal? {
        TablesParts(d, revisions);
        EditRevealOk(db, revisions, d, t, e, pick);
      } else if e.pc.Cleaning? {
        EditCleaningOk(db, revisions, d, t, e, pick);
      } else {
        EditRestOk(db, revisions, d, t, e, pick);
      }
    }
  }

  lemma WorkOk(db: Db, revisions: map<nat, nat>, t: nat, tk: Task, pick: nat)
    requires TablesOk(db, revisions) && Upheld(db, revisions, t, ClaimsOf(tk)) && Picks(tk, pick)
    ensures StepOk(db, revisions, t, tk, pick)
  {
    hide TablesOk, Upheld, StepOk, Picks, PublishClaims, EditClaims, SubmitClaims, CleanClaims;
    match tk
    case Submit(s) => SubmitStepOk(db, revisions, t, s, pick);
    case Publish(p) => PublishStepOk(db, revisions, t, p, pick);
    case Edit(e) => EditStepOk(db, revisions, t, e, pick);
    case Remove(r) => RemoveStepOk(db, revisions, t, r, pick);
    case Delete(d) => DeleteStepOk(db, revisions, t, d, pick);
  }

  // ---------------------------------------------------------------- the machine

  lemma LockedApart(w: World, t: nat, u: nat)
    requires LocksOk(w) && t in w.tasks && u in w.tasks && u != t
    ensures ClaimsOf(w.tasks[u]).locked.Some? ==> ClaimsOf(w.tasks[u]).locked != Locked(w.tasks[t])
    ensures ClaimsOf(w.tasks[u]).own != {} ==> ClaimsOf(w.tasks[u]).revising
  {
    if ClaimsOf(w.tasks[u]).locked.Some? {
      var l := ProblemLock(CurOf(w.tasks[u]));
      assert HoldsOwn(w, u) && HoldsOwn(w, t);
      assert Holds(w.tasks[u], l);
      assert Locked(w.tasks[t]) == Some(CurOf(w.tasks[u])) ==> Holds(w.tasks[t], l);
    }
  }

  lemma LockMoveKeeps(db: Db, revisions: map<nat, nat>, t: nat, tk: Task)
    requires Upheld(db, revisions, t, ClaimsOf(tk))
    ensures Wants(tk).Some? ==> Upheld(db, revisions, t, ClaimsOf(AfterLock(tk)))
    ensures Frees(tk).Some? && !PhaseOf(tk).Ending? ==> Upheld(db, revisions, t, ClaimsOf(AfterFree(tk)))
  {
    hide Settled, Carries, Solved;
  }

  lemma StepKeepsIntegrity(w: World, t: nat, pick: nat)
    requires IntegrityOk(w) && Ready(w, t, pick)
    ensures IntegrityOk(Advance(w, t, pick))
  {
    hide TablesOk, Upheld, ClaimsOf, LocksOk, Next, StmtOf, Exec, RevisionsAfter, PhaseOf, Picks, AfterLock, AfterFree;
    var tk, v := w.tasks[t], Advance(w, t, pick);
    StepKeepsLocks(w, t, pick);
    LockMoveKeeps(w.db, w.revisions, t, tk);
    if Wants(tk).None? && Frees(tk).None? && !PhaseOf(tk).Ending? {
      hide Wants, Frees;
      WorkOk(w.db, w.revisions, t, tk, pick);
      forall u | u in v.tasks && u != t ensures Upheld(v.db, v.revisions, u, ClaimsOf(v.tasks[u])) {
        LockedApart(w, t, u);
        TablesParts(w.db, w.revisions);
        ClaimsSurvive(w.db, w.revisions, v.db, v.revisions, t, Locked(tk), u, ClaimsOf(w.tasks[u]));
      }
    }
  }

  /** A change that no request makes: a verdict of the judge, or a new draft. */
  lemma OutsideKeeps(w: World, v: World)
    requires IntegrityOk(w) && v == w.(db := v.db)
    requires WriteOk(w.db, w.revisions, v.db, w.revisions, w.nextTid, None)
    ensures IntegrityOk(v)
  {
    hide TablesOk, Upheld, ClaimsOf, Guarantee, Holds;
    TablesParts(w.db, w.revisions);
    forall u | u in v.tasks ensures HoldsOwn(v, u) && Upheld(v.db, v.revisions, u, ClaimsOf(v.tasks[u])) {
      assert HoldsOwn(w, u);
      OwnLocked(w.tasks[u]);
      ClaimsSurvive(w.db, w.revisions, v.db, v.revisions, w.nextTid, None, u, ClaimsOf(w.tasks[u]));
    }
  }

  lemma OwnLocked(tk: Task)
    ensures ClaimsOf(tk).own != {} ==> ClaimsOf(tk).revising
  {
  }

  lemma VerdictQuiet(db: Db, sid: nat, result: nat)
    requires sid in db.solutions
    ensures Quiet(db, db.(solutions := db.solutions[sid := db.solutions[sid].(result := result)]))
  {
  }

  lemma ActKeepsIntegrity(w: World, a: Action)
    requires IntegrityOk(w) && Enabled(w, a)
    ensures IntegrityOk(Act(w, a))
  {
    hide TablesOk, Upheld, ClaimsOf, LocksOk, Advance, Acceptable, Quiet, WriteOk, InsertDraft, Fresh;
    ActKeepsLocks(w, a);
    match a
    case Start(job) => FreshClaims(w.db, w.revisions, w.nextTid, job);
    case Step(t, pick) => StepKeepsIntegrity(w, t, pick);
    case Stop(t) =>
    case Verdict(sid, result) =>
      VerdictQuiet(w.db, sid, result);
      QuietOk(w.db, w.revisions, Act(w, a).db, w.nextTid, None);
      OutsideKeeps(w, Act(w, a));
    case NewDraft(oid) =>
      InsertDraftOk(w.db, w.revisions, w.nextTid, None, oid);
      OutsideKeeps(w, Act(w, a));
  }

  lemma FreshClaims(db: Db, revisions: map<nat, nat>, t: nat, job: Job)
    requires Acceptable(db, job)
    ensures Upheld(db, revisions, t, ClaimsOf(Fresh(db, job)))
  {
  }

  /**
   In every state of every run that starts from sound tables, however requests interleave, stop
   and crash, no solution refers to a deleted problem.
   */
  lemma {:induction false} NothingDangles(run: seq<World>, i: nat)
    requires IsRun(run) && TablesOk(run[0].db, map[]) && i < |run|
    ensures NoDangling(run[i].db)
  {
    RunKeepsIntegrity(run, i);
  }

  lemma {:induction false} RunKeepsIntegrity(run: seq<World>, i: nat)
    requires IsRun(run) && TablesOk(run[0].db, map[]) && i < |run|
    ensures IntegrityOk(run[i])
  {
    hide TablesOk, Upheld, Act, Enabled, ClaimsOf;
    if i > 0 {
      RunKeepsIntegrity(run, i - 1);
      assert Moves(run[i - 1], run[i - 1 + 1]);
      var a :| Enabled(run[i - 1], a) && run[i] == Act(run[i - 1], a);
      ActKeepsIntegrity(run[i - 1], a);
    }
  }
}
