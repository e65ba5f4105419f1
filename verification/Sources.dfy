/**
 Two-phase submission: a solution becomes visible to the judge only when both of its source rows
 and, in a course, its submission row are stored. Deletions drop the sources first, so the exception
 is a deletion cut short there.
 */
module Sources {
  import opened Values
  import opened Tables
  import opened Machine
  import opened Locks

  predicate Sourced(db: Db, s: nat) { s in db.code && s in db.userCode }

  /** What the judge may rely on when it picks a solution up. */
  predicate Complete(db: Db, s: nat)
    requires s in db.solutions
  {
    Sourced(db, s) && (db.solutions[s].course ==> s in db.submissions)
  }

  /** Once past the placeholder result, a solution is complete, unless its deletion has begun. */
  ghost predicate Stored(db: Db, dying: map<nat, nat>, torn: set<nat>) {
    forall s :: s in db.solutions && db.solutions[s].result != SAVING ==>
      && (Sourced(db, s) || s in torn || s in dying)
      && (db.solutions[s].course ==> s in db.submissions)
  }

  ghost predicate RowsOk(db: Db) {
    && (forall b :: b in db.batches ==> b < db.nextBid)
    && (forall s :: s in db.solutions ==> s < db.nextSid)
    && (forall s :: s in db.submissions ==> s < db.nextSid && db.submissions[s].bid < db.nextBid)
    && (forall s :: s in db.submissions && db.submissions[s].bid in db.batches ==>
          db.batches[db.submissions[s].bid].oid == db.submissions[s].oid)
  }

  // ---------------------------------------------------------------- what a request relies on

  /**
   The batch a request works on, the solution it is placing, the submissions it deletes and those it
   moves. All but the first are of the offering whose lock it holds.
   */
  datatype Stake = Stake(
    locked: Option<nat>, oid: nat, batch: Option<nat>,
    own: Option<nat>, course: bool, handed: bool, coded: bool, userCoded: bool,
    doomed: set<nat>, gone: bool, dying: set<nat>, allOfBatch: bool, allOfOffering: bool, saved: set<nat>)

  function NoStake(tk: Task): Stake {
    Stake(LockedOffering(tk), OidOf(tk), None, None, false, false, false, false, {}, false, {}, false, false, {})
  }

  predicate Placed(pc: SubmitPc) { pc.Assign? || pc.SaveCode? || pc.SaveUserCode? || pc.Release? }

  function SubmitStake(s: SubmitTask): Stake {
    NoStake(Submit(s)).(
      batch := s.target,
      own := if Placed(s.pc) then Some(s.sid) else None,
      course := s.target.Some?,
      handed := s.target.Some? && !s.pc.Assign?,
      coded := s.pc.SaveUserCode? || s.pc.Release?,
      userCoded := s.pc.Release?)
  }

  predicate Revoking(g: Purge) { !g.at.DropCode? }

  /** From the check of the batch to the commit. */
  predicate Editing(pc: EditPc) {
    pc.Close? || pc.NextItem? || pc.Writing? || pc.Repointing? || pc.Reveal? || pc.Purging? || pc.Commit?
  }

  function Kept(e: EditTask): set<nat> { e.subs.Keys - Dropped(e.subs, e.sync.items) }

  function EditStake(e: EditTask): Stake {
    NoStake(Edit(e)).(
      batch := if e.pc.WantPublish? || e.pc.Opened? || e.pc.Exit? then None else Some(e.bid),
      doomed := if Editing(e.pc) then Dropped(e.subs, e.sync.items) else {},
      gone := e.pc.Commit?,
      dying := if e.pc.Purging? && Revoking(e.purge) then e.purge.doomed else {},
      saved := if Editing(e.pc) || e.pc.Cleaning? || e.pc.Rejudge? then Kept(e) else {})
  }

  predicate Removing(pc: RemovePc) { pc.Close? || pc.Purging? || pc.Commit? }

  function RemoveStake(r: RemoveTask): Stake {
    NoStake(Remove(r)).(
      batch := if r.pc.WantPublish? || r.pc.Opened? || r.pc.NextBatch? || r.pc.DropDraft? || r.pc.Exit? then None else Some(r.bid),
      doomed := if Removing(r.pc) then r.purge.doomed else {},
      gone := r.pc.Commit?,
      dying := if r.pc.Purging? && Revoking(r.purge) then r.purge.doomed else {},
      allOfBatch := Removing(r.pc))
  }

  function DeleteStake(d: DeleteTask): Stake {
    NoStake(Delete(d)).(
      doomed := if Deleting(d.pc) then d.purge.doomed else {},
      gone := d.pc.Cleaning? || d.pc.Commit?,
      dying := if d.pc.Purging? && Revoking(d.purge) then d.purge.doomed else {},
      allOfOffering := Deleting(d.pc))
  }

  function StakeOf(tk: Task): Stake {
    match tk
    case Submit(s) => SubmitStake(s)
    case Publish(p) => NoStake(tk)
    case Edit(e) => EditStake(e)
    case Remove(r) => RemoveStake(r)
    case Delete(d) => DeleteStake(d)
  }

  /** The edit moves submissions it keeps only, and drops all others. */
  ghost predicate Consistent(tk: Task) {
    tk.Edit? && (Editing(tk.e.pc) || tk.e.pc.Cleaning? || tk.e.pc.Rejudge?) ==>
      && tk.e.purge.doomed == Dropped(tk.e.subs, tk.e.sync.items)
      && tk.e.moves <= Kept(tk.e) && tk.e.rejudge <= Kept(tk.e)
  }

  predicate InOwn(db: Db, oid: nat, s: nat) { s in db.submissions && db.submissions[s].oid == oid }

  ghost predicate OwnOk(db: Db, c: Stake) {
    c.own.Some? ==>
      var s := c.own.value;
      && s < db.nextSid
      && (if c.handed then InOwn(db, c.oid, s) else s !in db.submissions)
      && (s in db.solutions ==> db.solutions[s].course == c.course)
      && (c.coded ==> s in db.code)
      && (c.userCoded ==> s in db.userCode)
  }

  ghost predicate HeldOk(db: Db, dying: map<nat, nat>, torn: set<nat>, t: nat, c: Stake) {
    && (forall s :: s in c.doomed ==>
          InOwn(db, c.oid, s) && (s in db.solutions ==> !c.gone && !Running(db.solutions[s].result)))
    && (forall s :: s in c.saved ==> InOwn(db, c.oid, s) && (Sourced(db, s) || s in torn))
    && (forall s :: s in dying && dying[s] == t ==> s in c.dying)
    && (forall s :: s in c.dying ==> (s in dying && dying[s] == t) || s !in db.solutions)
  }

  ghost predicate ScopeOk(db: Db, c: Stake) {
    && (c.batch.Some? ==> c.batch.value < db.nextBid && (c.batch.value in db.batches ==> db.batches[c.batch.value].oid == c.oid))
    && (c.allOfBatch ==> c.batch.Some? && c.batch.value in db.batches)
    && (c.allOfBatch ==> forall s :: s in db.submissions && db.submissions[s].bid == c.batch.value ==> s in c.doomed)
    && (c.allOfOffering ==> forall s :: s in db.submissions && db.submissions[s].oid == c.oid ==> s in c.doomed)
  }

  ghost predicate Respected(db: Db, dying: map<nat, nat>, torn: set<nat>, t: nat, c: Stake) {
    OwnOk(db, c) && HeldOk(db, dying, torn, t, c) && ScopeOk(db, c)
  }

  /** What needs the offering lock, and the deletions that are under way. */
  ghost predicate UnderLock(c: Stake) {
    && (c.doomed != {} || c.saved != {} || c.allOfBatch || c.allOfOffering || (c.own.Some? && c.handed) ==> c.locked == Some(c.oid))
    && c.dying <= c.doomed
  }

  // ---------------------------------------------------------------- what a step may do to others

  predicate Mine(db: Db, locked: Option<nat>, s: nat) { s in db.submissions && locked == Some(db.submissions[s].oid) }

  predicate SameRow(db: Db, d: Db, s: nat) {
    && s in db.submissions && s in d.submissions
    && d.submissions[s].oid == db.submissions[s].oid && d.submissions[s].bid == db.submissions[s].bid
  }

  /**
   One step of request `t`, which holds the lock of the offering `locked` and is placing the solution
   `own`: it touches rows, sources and finished results of that offering's submissions only.
   */
  ghost predicate Guarantee(
    db: Db, dying: map<nat, nat>, d: Db, dyingAfter: map<nat, nat>, t: nat, locked: Option<nat>, own: Option<nat>)
  {
    && db.nextBid <= d.nextBid && db.nextSid <= d.nextSid
    && (forall b :: b in d.batches ==> (b in db.batches && d.batches[b].oid == db.batches[b].oid) || db.nextBid <= b)
    && (forall b :: b in db.batches ==> b in d.batches || locked == Some(db.batches[b].oid))
    && (forall s :: s in db.submissions ==> SameRow(db, d, s) || Mine(db, locked, s))
    && (forall s :: s in d.submissions ==> SameRow(db, d, s) || (own == Some(s) && locked == Some(d.submissions[s].oid)))
    && (forall s :: s in d.solutions ==>
          || db.nextSid <= s
          || (&& s in db.solutions && d.solutions[s].course == db.solutions[s].course
              && (|| d.solutions[s].result == db.solutions[s].result || Running(db.solutions[s].result)
                  || Mine(db, locked, s) || s !in db.submissions)))
    && (forall s :: s in db.code ==> s in d.code || Mine(db, locked, s))
    && (forall s :: s in db.userCode ==> s in d.userCode || Mine(db, locked, s))
    && (forall s :: s in dyingAfter ==> dyingAfter[s] == t || (s in dying && dying[s] == dyingAfter[s]))
    && (forall s :: s in dying ==> (s in dyingAfter && dyingAfter[s] == dying[s]) || Mine(db, locked, s))
  }

  lemma StakesSurvive(
    db: Db, dying: map<nat, nat>, torn: set<nat>, d: Db, dyingAfter: map<nat, nat>,
    t: nat, locked: Option<nat>, own: Option<nat>, u: nat, c: Stake)
    requires Guarantee(db, dying, d, dyingAfter, t, locked, own) && u != t
    requires RowsOk(db) && RowsOk(d) && Respected(db, dying, torn, u, c) && UnderLock(c)
    requires c.locked.Some? ==> c.locked != locked
    requires c.own.Some? ==> c.own != own
    ensures Respected(d, dyingAfter, torn, u, c)
  {
    hide OwnOk, HeldOk, ScopeOk, RowsOk, Guarantee, UnderLock;
    OwnSurvives(db, dying, d, dyingAfter, t, locked, own, c);
    HeldSurvives(db, dying, torn, d, dyingAfter, t, locked, own, u, c);
    ScopeSurvives(db, dying, d, dyingAfter, t, locked, own, c);
  }

  lemma OwnSurvives(
    db: Db, dying: map<nat, nat>, d: Db, dyingAfter: map<nat, nat>, t: nat, locked: Option<nat>, own: Option<nat>, c: Stake)
    requires Guarantee(db, dying, d, dyingAfter, t, locked, own) && OwnOk(db, c) && UnderLock(c)
    requires c.locked.Some? ==> c.locked != locked
    requires c.own.Some? ==> c.own != own
    ensures OwnOk(d, c)
  {
  }

  lemma HeldSurvives(
    db: Db, dying: map<nat, nat>, torn: set<nat>, d: Db, dyingAfter: map<nat, nat>,
    t: nat, locked: Option<nat>, own: Option<nat>, u: nat, c: Stake)
    requires Guarantee(db, dying, d, dyingAfter, t, locked, own) && u != t
    requires RowsOk(db) && HeldOk(db, dying, torn, u, c) && UnderLock(c)
    requires c.locked.Some? ==> c.locked != locked
    ensures HeldOk(d, dyingAfter, torn, u, c)
  {
  }

  lemma ScopeSurvives(
    db: Db, dying: map<nat, nat>, d: Db, dyingAfter: map<nat, nat>, t: nat, locked: Option<nat>, own: Option<nat>, c: Stake)
    requires Guarantee(db, dying, d, dyingAfter, t, locked, own) && RowsOk(d) && ScopeOk(db, c) && UnderLock(c)
    requires c.locked.Some? ==> c.locked != locked
    ensures ScopeOk(d, c)
  {
  }

  // ---------------------------------------------------------------- statements

  ghost predicate SourcesOk(db: Db, dying: map<nat, nat>, torn: set<nat>) { RowsOk(db) && Stored(db, dying, torn) }

  /** When a request may issue a statement. */
  ghost predicate Permitted(
    db: Db, dying: map<nat, nat>, torn: set<nat>, locked: Option<nat>, own: Option<nat>, st: Stmt)
  {
    && (st.PutSubmission? ==>
          && own == Some(st.sid) && st.sid < db.nextSid && st.sid !in db.submissions && locked == Some(st.oid)
          && st.bid < db.nextBid && (st.bid in db.batches ==> db.batches[st.bid].oid == st.oid))
    && (st.ReleaseRows? ==> forall s :: s in st.sids ==>
          && (Mine(db, locked, s) || s !in db.submissions)
          && (Sourced(db, s) || s in torn)
          && (s in db.solutions && db.solutions[s].course ==> s in db.submissions))
    && (st.MoveSolution? ==> Mine(db, locked, st.sid))
    && (st.DropCodes? || st.DropUserCodes? || st.DropSolutionRows? ==> forall s :: s in st.sids ==> Mine(db, locked, s))
    && (st.DropUserCodes? ==> forall s :: s in st.sids ==> s in dying || s !in db.solutions)
    && (st.EditTx? ==> forall s :: s in st.doomed ==> Mine(db, locked, s) && s !in db.solutions)
    && (st.RemoveTx? ==> && (st.bid in db.batches ==> locked == Some(db.batches[st.bid].oid))
                         && forall s :: s in db.submissions && db.submissions[s].bid == st.bid ==> Mine(db, locked, s) && s !in db.solutions)
    && (st.DeleteTx? ==> && locked == Some(st.oid)
                         && forall s :: s in db.submissions && db.submissions[s].oid == st.oid ==> s !in db.solutions)
  }

  ghost predicate WriteOk(
    db: Db, dying: map<nat, nat>, torn: set<nat>, d: Db, dyingAfter: map<nat, nat>, t: nat, locked: Option<nat>, own: Option<nat>)
  {
    Guarantee(db, dying, d, dyingAfter, t, locked, own) && SourcesOk(d, dyingAfter, torn)
  }

  /** Solutions, sources, and the offerings and batches of submissions stay. */
  predicate Mild(db: Db, d: Db) {
    && d.solutions == db.solutions && d.code == db.code && d.userCode == db.userCode
    && d.nextBid == db.nextBid && d.nextSid == db.nextSid
    && d.submissions.Keys == db.submissions.Keys && d.batches.Keys == db.batches.Keys
    && (forall s :: s in d.submissions ==> SameRow(db, d, s))
    && (forall b :: b in d.batches ==> d.batches[b].oid == db.batches[b].oid)
  }

  lemma FrameMild(db: Db, d: Db)
    requires d.solutions == db.solutions && d.submissions == db.submissions && d.code == db.code && d.userCode == db.userCode
    requires d.batches == db.batches && d.nextBid == db.nextBid && d.nextSid == db.nextSid
    ensures Mild(db, d)
  {
  }

  lemma StatusMild(db: Db, bid: nat, status: BatchStatus)
    ensures Mild(db, WithStatus(db, bid, status))
  {
    if bid !in db.batches {
      FrameMild(db, db);
    }
  }

  lemma PromoteMild(db: Db, sid: nat)
    ensures Mild(db, Promote(db, sid))
  {
    if sid !in db.submissions {
      FrameMild(db, db);
    }
  }

  lemma RepairedMild(db: Db, bid: nat)
    ensures Mild(db, Repaired(db, bid))
  {
    hide Linked, LinkOf;
  }

  lemma MildAfter(
    db: Db, dying: map<nat, nat>, torn: set<nat>, x: Db, d: Db, dyingAfter: map<nat, nat>, t: nat, locked: Option<nat>, own: Option<nat>)
    requires WriteOk(db, dying, torn, x, dyingAfter, t, locked, own) && Mild(x, d)
    ensures WriteOk(db, dying, torn, d, dyingAfter, t, locked, own)
  {
    hide Guarantee;
    MildGuarantee(db, dying, x, d, dyingAfter, t, locked, own);
  }

  lemma MildGuarantee(
    db: Db, dying: map<nat, nat>, x: Db, d: Db, dyingAfter: map<nat, nat>, t: nat, locked: Option<nat>, own: Option<nat>)
    requires Guarantee(db, dying, x, dyingAfter, t, locked, own) && Mild(x, d)
    ensures Guarantee(db, dying, d, dyingAfter, t, locked, own)
  {
    hide Running;
    forall s | s in db.submissions ensures SameRow(db, d, s) || Mine(db, locked, s) {
      assert SameRow(db, x, s) || Mine(db, locked, s);
    }
    forall s | s in d.submissions ensures SameRow(db, d, s) || (own == Some(s) && locked == Some(d.submissions[s].oid)) {
      assert s in x.submissions && SameRow(x, d, s);
    }
  }

  lemma SkipOk(db: Db, dying: map<nat, nat>, torn: set<nat>, t: nat, locked: Option<nat>, own: Option<nat>)
    requires SourcesOk(db, dying, torn)
    ensures WriteOk(db, dying, torn, db, dying, t, locked, own)
  {
  }

  lemma InsertSolutionOk(
    db: Db, dying: map<nat, nat>, torn: set<nat>, t: nat, locked: Option<nat>, own: Option<nat>, pid: nat, user: string, handed: bool)
    requires SourcesOk(db, dying, torn)
    ensures WriteOk(db, dying, torn, InsertSolution(db, pid, user, handed), dying, t, locked, own)
  {
  }

  lemma InsertSubmissionOk(
    db: Db, dying: map<nat, nat>, torn: set<nat>, t: nat, locked: Option<nat>, sid: nat, oid: nat, bid: nat, bp: nat, user: string)
    requires SourcesOk(db, dying, torn)
    requires Permitted(db, dying, torn, locked, Some(sid), PutSubmission(sid, oid, bid, bp, user))
    ensures WriteOk(db, dying, torn, InsertSubmission(db, sid, oid, bid, bp, user), dying, t, locked, Some(sid))
  {
  }

  lemma ReleasedOk(db: Db, dying: map<nat, nat>, torn: set<nat>, t: nat, locked: Option<nat>, own: Option<nat>, sids: set<nat>)
    requires SourcesOk(db, dying, torn) && Permitted(db, dying, torn, locked, own, ReleaseRows(sids))
    ensures WriteOk(db, dying, torn, Released(db, sids), dying, t, locked, own)
  {
    ReleasedGuarantee(db, dying, torn, t, locked, own, sids);
    ReleasedSources(db, dying, torn, locked, own, sids);
    hide Guarantee, SourcesOk, Released, Permitted;
  }

  lemma ReleasedGuarantee(db: Db, dying: map<nat, nat>, torn: set<nat>, t: nat, locked: Option<nat>, own: Option<nat>, sids: set<nat>)
    requires SourcesOk(db, dying, torn) && Permitted(db, dying, torn, locked, own, ReleaseRows(sids))
    ensures Guarantee(db, dying, Released(db, sids), dying, t, locked, own)
  {
  }

  lemma ReleasedSources(db: Db, dying: map<nat, nat>, torn: set<nat>, locked: Option<nat>, own: Option<nat>, sids: set<nat>)
    requires SourcesOk(db, dying, torn) && Permitted(db, dying, torn, locked, own, ReleaseRows(sids))
    ensures SourcesOk(Released(db, sids), dying, torn)
  {
  }

  lemma DropCodesOk(db: Db, dying: map<nat, nat>, torn: set<nat>, t: nat, locked: Option<nat>, own: Option<nat>, sids: set<nat>)
    requires SourcesOk(db, dying, torn) && forall s :: s in sids ==> Mine(db, locked, s)
    ensures WriteOk(db, dying, torn, db.(code := db.code - sids), DyingAfter(dying, t, DropCodes(sids)), t, locked, own)
  {
  }

  lemma DropUserCodesOk(db: Db, dying: map<nat, nat>, torn: set<nat>, t: nat, locked: Option<nat>, own: Option<nat>, sids: set<nat>)
    requires SourcesOk(db, dying, torn)
    requires forall s :: s in sids ==> Mine(db, locked, s) && (s in dying || s !in db.solutions)
    ensures WriteOk(db, dying, torn, db.(userCode := db.userCode - sids), dying, t, locked, own)
  {
  }

  lemma DropSolutionsOk(db: Db, dying: map<nat, nat>, torn: set<nat>, t: nat, locked: Option<nat>, own: Option<nat>, sids: set<nat>)
    requires SourcesOk(db, dying, torn) && forall s :: s in sids ==> Mine(db, locked, s)
    ensures WriteOk(db, dying, torn, db.(solutions := db.solutions - sids), dying - sids, t, locked, own)
  {
  }

  lemma CommitRemoveOk(db: Db, dying: map<nat, nat>, torn: set<nat>, t: nat, locked: Option<nat>, own: Option<nat>, bid: nat)
    requires SourcesOk(db, dying, torn) && Permitted(db, dying, torn, locked, own, RemoveTx(bid))
    ensures WriteOk(db, dying, torn, CommitRemove(db, bid), dying, t, locked, own)
  {
    hide Guarantee;
    CommitRemoveGuarantee(db, dying, torn, t, locked, own, bid);
  }

  lemma CommitRemoveGuarantee(db: Db, dying: map<nat, nat>, torn: set<nat>, t: nat, locked: Option<nat>, own: Option<nat>, bid: nat)
    requires SourcesOk(db, dying, torn) && Permitted(db, dying, torn, locked, own, RemoveTx(bid))
    ensures Guarantee(db, dying, CommitRemove(db, bid), dying, t, locked, own)
  {
    hide Stored, Running;
  }

  lemma PutCodeOk(db: Db, dying: map<nat, nat>, torn: set<nat>, t: nat, locked: Option<nat>, own: Option<nat>, sid: nat)
    requires SourcesOk(db, dying, torn)
    ensures WriteOk(db, dying, torn, db.(code := db.code + {sid}), dying, t, locked, own)
  {
  }

  lemma PutUserCodeOk(db: Db, dying: map<nat, nat>, torn: set<nat>, t: nat, locked: Option<nat>, own: Option<nat>, sid: nat)
    requires SourcesOk(db, dying, torn)
    ensures WriteOk(db, dying, torn, db.(userCode := db.userCode + {sid}), dying, t, locked, own)
  {
  }

  lemma RepointedOk(db: Db, dying: map<nat, nat>, torn: set<nat>, t: nat, locked: Option<nat>, own: Option<nat>, sid: nat, pid: nat)
    requires SourcesOk(db, dying, torn) && Permitted(db, dying, torn, locked, own, MoveSolution(sid, pid))
    ensures WriteOk(db, dying, torn, Repointed(db, sid, pid), dying, t, locked, own)
  {
    if sid in db.solutions {
      assert Repointed(db, sid, pid) == db.(solutions := db.solutions[sid := db.solutions[sid].(pid := pid, result := SAVING)]);
    } else {
      SkipOk(db, dying, torn, t, locked, own);
    }
  }

  lemma NewBatchOk(db: Db, dying: map<nat, nat>, torn: set<nat>, t: nat, locked: Option<nat>, own: Option<nat>, batch: Batch)
    requires SourcesOk(db, dying, torn)
    ensures WriteOk(db, dying, torn, db.(batches := db.batches[db.nextBid := batch], nextBid := db.nextBid + 1), dying, t, locked, own)
  {
    hide Running;
  }

  lemma EnsureBatchOk(
    db: Db, dying: map<nat, nat>, torn: set<nat>, t: nat, locked: Option<nat>, own: Option<nat>, oid: nat, key: nat, library: Option<nat>)
    requires SourcesOk(db, dying, torn)
    ensures WriteOk(db, dying, torn, EnsureBatch(db, oid, key, library), dying, t, locked, own)
  {
    hide KeyUsed, NextSeq, WriteOk, SourcesOk;
    NewBatchOk(db, dying, torn, t, locked, own, Batch(oid, NextSeq(db, oid), Staged, Some(key), library));
    SkipOk(db, dying, torn, t, locked, own);
  }

  lemma CommitPublishMild(db: Db, oid: nat, bid: nat, key: nat, slots: seq<Slot>)
    ensures Mild(db, CommitPublish(db, oid, bid, key, slots))
  {
    hide Relinked, WithStatus, ActiveOffering;
    var x := Relinked(db, bid, slots);
    StatusMild(x, bid, Published);
    FrameMild(db, db);
  }

  lemma DropRowsOk(db: Db, dying: map<nat, nat>, torn: set<nat>, t: nat, locked: Option<nat>, own: Option<nat>, doomed: set<nat>)
    requires SourcesOk(db, dying, torn) && forall s :: s in doomed ==> Mine(db, locked, s) && s !in db.solutions
    ensures WriteOk(db, dying, torn, db.(submissions := db.submissions - doomed), dying, t, locked, own)
  {
  }

  lemma MildTwice(db: Db, x: Db, d: Db)
    requires Mild(db, x) && Mild(x, d)
    ensures Mild(db, d)
  {
  }

  /** An edit drops the rows of the submissions it deletes; the rest of its transaction is mild. */
  lemma CommitEditMild(db: Db, bid: nat, doomed: set<nat>, slots: seq<Slot>, status: BatchStatus)
    ensures Mild(db.(submissions := db.submissions - doomed), CommitEdit(db, bid, doomed, slots, status))
  {
    hide Mild, Relinked, Repaired, WithStatus;
    var x := db.(submissions := db.submissions - doomed);
    var y := Relinked(x, bid, slots);
    FrameMild(x, y);
    RepairedMild(y, bid);
    StatusMild(Repaired(y, bid), bid, status);
    MildTwice(x, y, Repaired(y, bid));
    MildTwice(x, Repaired(y, bid), WithStatus(Repaired(y, bid), bid, status));
  }

  lemma CommitEditOk(
    db: Db, dying: map<nat, nat>, torn: set<nat>, t: nat, locked: Option<nat>, own: Option<nat>,
    bid: nat, doomed: set<nat>, slots: seq<Slot>, status: BatchStatus)
    requires SourcesOk(db, dying, torn) && Permitted(db, dying, torn, locked, own, EditTx(bid, doomed, slots, status))
    ensures WriteOk(db, dying, torn, CommitEdit(db, bid, doomed, slots, status), dying, t, locked, own)
  {
    hide WriteOk, SourcesOk, Mild, CommitEdit, Mine;
    DropRowsOk(db, dying, torn, t, locked, own, doomed);
    CommitEditMild(db, bid, doomed, slots, status);
    MildAfter(db, dying, torn, db.(submissions := db.submissions - doomed), CommitEdit(db, bid, doomed, slots, status), dying, t, locked, own);
  }

  lemma WithoutOfferingOk(db: Db, dying: map<nat, nat>, torn: set<nat>, t: nat, own: Option<nat>, oid: nat)
    requires SourcesOk(db, dying, torn)
    requires forall s :: s in db.submissions && db.submissions[s].oid == oid ==> s !in db.solutions
    ensures WriteOk(db, dying, torn, WithoutOffering(db, oid), dying, t, Some(oid), own)
  {
    hide Running, LinkOfOffering;
  }

  lemma CommitDeleteOk(db: Db, dying: map<nat, nat>, torn: set<nat>, t: nat, own: Option<nat>, oid: nat, course: nat)
    requires SourcesOk(db, dying, torn) && Permitted(db, dying, torn, Some(oid), own, DeleteTx(oid, course))
    ensures WriteOk(db, dying, torn, CommitDelete(db, oid, course), dying, t, Some(oid), own)
  {
    hide WriteOk, SourcesOk, Mild, WithoutOffering, WithoutCourse, CourseUsed;
    var x := WithoutOffering(db, oid);
    WithoutOfferingOk(db, dying, torn, t, own, oid);
    FrameMild(x, WithoutCourse(x, course));
    MildAfter(db, dying, torn, x, WithoutCourse(x, course), dying, t, Some(oid), own);
  }

  /** Problems, links, tests, drafts and offerings do not matter here. */
  lemma ProblemMild(db: Db, st: Stmt)
    requires st.PutProblem? || st.SetProblem? || st.HideStale? || st.ShowAllOf? || st.DropProblem? || st.TallyProblem?
    ensures Mild(db, Exec(db, st))
  {
    hide Mild, InsertProblem, UpdateProblem, HideOthers, Show, Tallied;
    FrameMild(db, Exec(db, st));
  }

  lemma FileMild(db: Db, st: Stmt)
    requires st.Skip? || st.PutDraft? || st.DrawKey? || st.DropDraftRow? || st.ArchiveRow? || st.EmptyTests? || st.PutTest? || st.DropTests?
    ensures Mild(db, Exec(db, st))
  {
    hide Mild, InsertDraft, Archive, WriteTest;
    FrameMild(db, Exec(db, st));
  }

  predicate Harmless(st: Stmt) {
    || st.PutProblem? || st.SetProblem? || st.HideStale? || st.ShowAllOf? || st.DropProblem? || st.TallyProblem?
    || st.Skip? || st.PutDraft? || st.DrawKey? || st.DropDraftRow? || st.ArchiveRow? || st.EmptyTests? || st.PutTest? || st.DropTests?
    || st.SetStatus? || st.MarkPromoted? || st.PublishTx?
  }

  lemma ExecMild(db: Db, st: Stmt)
    requires Harmless(st)
    ensures Mild(db, Exec(db, st))
  {
    hide Mild, WithStatus, Promote, CommitPublish;
    match st
    case SetStatus(bid, status) => StatusMild(db, bid, status);
    case MarkPromoted(sid) => PromoteMild(db, sid);
    case PublishTx(oid, bid, key, slots) => CommitPublishMild(db, oid, bid, key, slots);
    case PutProblem(_, _, _) => ProblemMild(db, st);
    case SetProblem(_, _, _) => ProblemMild(db, st);
    case HideStale(_, _) => ProblemMild(db, st);
    case ShowAllOf(_) => ProblemMild(db, st);
    case DropProblem(_) => ProblemMild(db, st);
    case TallyProblem(_) => ProblemMild(db, st);
    case _ => FileMild(db, st);
  }

  /** Statements that store solutions and their sources, and those that drop them. */
  predicate Storing(st: Stmt) { st.PutSolution? || st.PutCode? || st.PutUserCode? || st.ReleaseRows? || st.MoveSolution? }

  predicate Dropping(st: Stmt) { st.DropCodes? || st.DropUserCodes? || st.DropSolutionRows? }

  lemma DropExecOk(db: Db, dying: map<nat, nat>, torn: set<nat>, t: nat, locked: Option<nat>, own: Option<nat>, st: Stmt)
    requires SourcesOk(db, dying, torn) && Permitted(db, dying, torn, locked, own, st) && Dropping(st)
    ensures WriteOk(db, dying, torn, Exec(db, st), DyingAfter(dying, t, st), t, locked, own)
  {
    hide WriteOk, SourcesOk, Mine, Sourced;
    match st
    case DropCodes(sids) => DropCodesOk(db, dying, torn, t, locked, own, sids);
    case DropUserCodes(sids) => DropUserCodesOk(db, dying, torn, t, locked, own, sids);
    case DropSolutionRows(sids) => DropSolutionsOk(db, dying, torn, t, locked, own, sids);
  }

  lemma DyingStays(dying: map<nat, nat>, t: nat, st: Stmt)
    requires Storing(st)
    ensures DyingAfter(dying, t, st) == dying
  {
  }

  lemma StoreExecOk(db: Db, dying: map<nat, nat>, torn: set<nat>, t: nat, locked: Option<nat>, own: Option<nat>, st: Stmt)
    requires SourcesOk(db, dying, torn) && Permitted(db, dying, torn, locked, own, st) && Storing(st)
    ensures WriteOk(db, dying, torn, Exec(db, st), DyingAfter(dying, t, st), t, locked, own)
  {
    hide WriteOk, SourcesOk, Permitted, InsertSolution, Released, Repointed, DyingAfter;
    DyingStays(dying, t, st);
    match st
    case PutSolution(pid, user, handed) => InsertSolutionOk(db, dying, torn, t, locked, own, pid, user, handed);
    case PutCode(sid) => PutCodeOk(db, dying, torn, t, locked, own, sid);
    case PutUserCode(sid) => PutUserCodeOk(db, dying, torn, t, locked, own, sid);
    case ReleaseRows(sids) => ReleasedOk(db, dying, torn, t, locked, own, sids);
    case MoveSolution(sid, pid) => RepointedOk(db, dying, torn, t, locked, own, sid, pid);
  }

  lemma ExecOk(db: Db, dying: map<nat, nat>, torn: set<nat>, t: nat, locked: Option<nat>, own: Option<nat>, st: Stmt)
    requires SourcesOk(db, dying, torn) && Permitted(db, dying, torn, locked, own, st)
    ensures WriteOk(db, dying, torn, Exec(db, st), DyingAfter(dying, t, st), t, locked, own)
  {
    hide WriteOk, SourcesOk, Mild, Mine, Sourced, InsertSubmission, EnsureBatch, CommitEdit, CommitRemove, CommitDelete;
    if Storing(st) {
      hide *;
      StoreExecOk(db, dying, torn, t, locked, own, st);
    } else if Dropping(st) {
      hide *;
      DropExecOk(db, dying, torn, t, locked, own, st);
    } else if Harmless(st) {
      hide Exec;
      ExecMild(db, st);
      SkipOk(db, dying, torn, t, locked, own);
      MildAfter(db, dying, torn, db, Exec(db, st), dying, t, locked, own);
    } else {
      match st
      case PutBatch(oid, key, library) => EnsureBatchOk(db, dying, torn, t, locked, own, oid, key, library);
      case PutSubmission(sid, oid, bid, bp, user) => InsertSubmissionOk(db, dying, torn, t, locked, sid, oid, bid, bp, user);
      case EditTx(bid, doomed, slots, status) => CommitEditOk(db, dying, torn, t, locked, own, bid, doomed, slots, status);
      case RemoveTx(bid) => CommitRemoveOk(db, dying, torn, t, locked, own, bid);
      case DeleteTx(oid, course) => CommitDeleteOk(db, dying, torn, t, own, oid, course);
    }
  }

  // ---------------------------------------------------------------- the steps of one request

  lemma UnderLockAlways(tk: Task)
    requires Consistent(tk)
    ensures UnderLock(StakeOf(tk))
  {
  }

  lemma MildRespected(db: Db, dying: map<nat, nat>, torn: set<nat>, d: Db, t: nat, c: Stake)
    requires Mild(db, d) && Respected(db, dying, torn, t, c)
    ensures Respected(d, dying, torn, t, c)
  {
  }

  lemma DropCodesRespected(db: Db, dying: map<nat, nat>, torn: set<nat>, t: nat, c: Stake)
    requires Respected(db, dying, torn, t, c) && c.own.None? && c.saved !! c.doomed && c.dying == {}
    ensures Respected(db.(code := db.code - c.doomed), DyingAfter(dying, t, DropCodes(c.doomed)), torn, t, c.(dying := c.doomed))
  {
  }

  lemma DropUserCodesRespected(db: Db, dying: map<nat, nat>, torn: set<nat>, t: nat, c: Stake)
    requires Respected(db, dying, torn, t, c) && c.own.None? && c.saved !! c.doomed
    ensures Respected(db.(userCode := db.userCode - c.doomed), dying, torn, t, c)
  {
  }

  lemma DropSolutionsRespected(db: Db, dying: map<nat, nat>, torn: set<nat>, t: nat, c: Stake)
    requires Respected(db, dying, torn, t, c) && c.own.None? && c.dying <= c.doomed
    ensures Respected(db.(solutions := db.solutions - c.doomed), dying - c.doomed, torn, t, c.(dying := {}, gone := true))
  {
  }

  /** One step of a purge, seen from the request that makes it. */
  lemma PurgeRespected(db: Db, dying: map<nat, nat>, torn: set<nat>, t: nat, c: Stake, g: Purge)
    requires Respected(db, dying, torn, t, c) && c.own.None? && c.saved !! c.doomed
    requires c.doomed == g.doomed && c.dying == if Revoking(g) then g.doomed else {}
    ensures Respected(Exec(db, PurgeStmt(g)), DyingAfter(dying, t, PurgeStmt(g)), torn, t,
                      if g.at.DropSolutions? then c.(dying := {}, gone := true) else c.(dying := g.doomed))
  {
    hide Respected, DyingAfter;
    if g.at.DropCode? {
      DropCodesRespected(db, dying, torn, t, c);
    } else if g.at.DropUserCode? {
      DropUserCodesRespected(db, dying, torn, t, c);
      PurgeKeepsDying(dying, t, g);
    } else {
      DropSolutionsRespected(db, dying, torn, t, c);
      PurgeKeepsDying(dying, t, g);
    }
  }

  lemma PurgeKeepsDying(dying: map<nat, nat>, t: nat, g: Purge)
    ensures g.at.DropUserCode? ==> DyingAfter(dying, t, PurgeStmt(g)) == dying
    ensures g.at.DropSolutions? ==> DyingAfter(dying, t, PurgeStmt(g)) == dying - g.doomed
  {
  }

  lemma SubmitPermitted(db: Db, dying: map<nat, nat>, torn: set<nat>, t: nat, s: SubmitTask)
    requires Respected(db, dying, torn, t, SubmitStake(s))
    ensures Permitted(db, dying, torn, LockedOffering(Submit(s)), SubmitStake(s).own, SubmitStmt(s))
  {
  }

  lemma SubmitPlaceOk(db: Db, dying: map<nat, nat>, torn: set<nat>, t: nat, s: SubmitTask)
    requires RowsOk(db) && Respected(db, dying, torn, t, SubmitStake(s)) && s.pc.Place?
    ensures Respected(Exec(db, SubmitStmt(s)), dying, torn, t, SubmitStake(SubmitNext(db, s)))
  {
  }

  lemma SubmitAssignOk(db: Db, dying: map<nat, nat>, torn: set<nat>, t: nat, s: SubmitTask)
    requires RowsOk(db) && Respected(db, dying, torn, t, SubmitStake(s)) && s.pc.Assign?
    ensures Respected(Exec(db, SubmitStmt(s)), dying, torn, t, SubmitStake(SubmitNext(db, s)))
  {
  }

  lemma CodeRespected(db: Db, dying: map<nat, nat>, torn: set<nat>, t: nat, c: Stake)
    requires Respected(db, dying, torn, t, c) && c.own.Some?
    ensures Respected(db.(code := db.code + {c.own.value}), dying, torn, t, c.(coded := true))
  {
  }

  lemma UserCodeRespected(db: Db, dying: map<nat, nat>, torn: set<nat>, t: nat, c: Stake)
    requires Respected(db, dying, torn, t, c) && c.own.Some?
    ensures Respected(db.(userCode := db.userCode + {c.own.value}), dying, torn, t, c.(userCoded := true))
  {
  }

  lemma ReleasedRespected(db: Db, dying: map<nat, nat>, torn: set<nat>, t: nat, c: Stake, sids: set<nat>)
    requires Respected(db, dying, torn, t, c) && c.doomed == {}
    ensures Respected(Released(db, sids), dying, torn, t, c)
  {
  }

  lemma NoOwnRespected(db: Db, dying: map<nat, nat>, torn: set<nat>, t: nat, c: Stake, n: Stake)
    requires Respected(db, dying, torn, t, c)
    requires n == c.(own := None, handed := n.handed, coded := n.coded, userCoded := n.userCoded)
    ensures Respected(db, dying, torn, t, n)
  {
  }

  lemma SubmitCodeOk(db: Db, dying: map<nat, nat>, torn: set<nat>, t: nat, s: SubmitTask)
    requires Respected(db, dying, torn, t, SubmitStake(s)) && (s.pc.SaveCode? || s.pc.SaveUserCode?)
    ensures Respected(Exec(db, SubmitStmt(s)), dying, torn, t, SubmitStake(SubmitNext(db, s)))
  {
    hide Respected;
    if s.pc.SaveCode? {
      CodeRespected(db, dying, torn, t, SubmitStake(s));
    } else {
      UserCodeRespected(db, dying, torn, t, SubmitStake(s));
    }
  }

  lemma SubmitReleaseOk(db: Db, dying: map<nat, nat>, torn: set<nat>, t: nat, s: SubmitTask)
    requires Respected(db, dying, torn, t, SubmitStake(s)) && s.pc.Release?
    ensures Respected(Exec(db, SubmitStmt(s)), dying, torn, t, SubmitStake(SubmitNext(db, s)))
  {
    hide OwnOk, HeldOk, Released;
    ReleasedRespected(db, dying, torn, t, SubmitStake(s), {s.sid});
    NoOwnRespected(Released(db, {s.sid}), dying, torn, t, SubmitStake(s), SubmitStake(SubmitNext(db, s)));
  }

  lemma SubmitRestOk(db: Db, dying: map<nat, nat>, torn: set<nat>, d: Db, t: nat, s: SubmitTask)
    requires Respected(db, dying, torn, t, SubmitStake(s)) && Mild(db, d)
    requires !Placed(s.pc) && !s.pc.Place?
    ensures Respected(d, dying, torn, t, SubmitStake(SubmitNext(db, s)))
  {
  }

  // an edit

  lemma EditPermitted(db: Db, dying: map<nat, nat>, torn: set<nat>, t: nat, e: EditTask, pick: nat)
    requires Stored(db, dying, torn) && Respected(db, dying, torn, t, EditStake(e)) && Consistent(Edit(e)) && Picks(Edit(e), pick)
    ensures Permitted(db, dying, torn, LockedOffering(Edit(e)), None, EditStmt(db, e, pick))
  {
    hide SyncNext, Dropped;
  }

  lemma EditMovesConsistent(db: Db, e: EditTask, pick: nat)
    requires Consistent(Edit(e)) && Picks(Edit(e), pick) && (e.pc.Writing? || e.pc.Repointing?)
    ensures Consistent(Edit(EditNext(db, e, pick)))
  {
    if e.pc.Writing? && SyncedTests(e.sync) {
      KeptMovers(e);
    }
  }

  lemma KeptMovers(e: EditTask)
    requires e.sync.i < |e.sync.items|
    ensures Movers(e.subs, e.sync.items[e.sync.i].from) <= Kept(e)
  {
  }

  lemma EditRestConsistent(db: Db, e: EditTask, pick: nat)
    requires Consistent(Edit(e)) && !e.pc.Writing? && !e.pc.Repointing?
    ensures Consistent(Edit(EditNext(db, e, pick)))
  {
    hide Dropped, Editable, Revisable, Originals, SolutionPids, Unchanged, Referenced, CleanNext;
  }

  lemma EditConsistent(db: Db, e: EditTask, pick: nat)
    requires Consistent(Edit(e)) && Picks(Edit(e), pick)
    ensures Consistent(Edit(EditNext(db, e, pick)))
  {
    hide Consistent, EditNext, Picks;
    if e.pc.Writing? || e.pc.Repointing? {
      EditMovesConsistent(db, e, pick);
    } else {
      EditRestConsistent(db, e, pick);
    }
  }

  /** What an idle batch says of its submissions, once no other deletion is at them. */
  lemma IdleSourced(db: Db, dying: map<nat, nat>, torn: set<nat>, bid: nat)
    requires Stored(db, dying, torn) && Idle(db, BatchSids(db, bid))
    requires forall s :: s in dying && s in db.submissions ==> db.submissions[s].bid != bid
    ensures forall s :: s in SolutionPids(db, bid) ==>
      s in db.submissions && db.submissions[s].bid == bid && !Running(db.solutions[s].result) && (Sourced(db, s) || s in torn)
  {
  }

  lemma EditInsideOk(db: Db, dying: map<nat, nat>, torn: set<nat>, d: Db, t: nat, e: EditTask, pick: nat)
    requires SourcesOk(db, dying, torn) && Respected(db, dying, torn, t, EditStake(e)) && e.pc.Inside?
    requires forall s :: s in dying && s in db.submissions ==> db.submissions[s].oid != e.oid
    requires Mild(db, d)
    ensures Respected(d, dying, torn, t, EditStake(EditNext(db, e, pick)))
  {
    hide Mild, Stored, ValidFrom, Originals, Unchanged;
    if Revisable(db, e) {
      IdleSourced(db, dying, torn, e.bid);
      hide SolutionPids, Idle;
      assert Respected(db, dying, torn, t, EditStake(Revised(db, e)));
    }
    hide Respected, EditStake;
    MildRespected(db, dying, torn, d, t, EditStake(EditNext(db, e, pick)));
  }

  lemma RepointedRespected(db: Db, dying: map<nat, nat>, torn: set<nat>, t: nat, c: Stake, sid: nat, pid: nat)
    requires Respected(db, dying, torn, t, c) && sid !in c.doomed && sid in db.solutions
    ensures Respected(Repointed(db, sid, pid), dying, torn, t, c)
  {
  }

  lemma EditMoveOk(db: Db, dying: map<nat, nat>, torn: set<nat>, t: nat, e: EditTask, pick: nat)
    requires Respected(db, dying, torn, t, EditStake(e)) && Consistent(Edit(e)) && Picks(Edit(e), pick) && e.pc.Repointing?
    ensures Respected(Exec(db, EditStmt(db, e, pick)), dying, torn, t, EditStake(EditNext(db, e, pick)))
  {
    hide Respected, Repointed;
    if e.moves != {} && pick in db.solutions {
      RepointedRespected(db, dying, torn, t, EditStake(e), pick, e.sync.pid);
    } else if e.moves != {} {
      assert Repointed(db, pick, e.sync.pid) == db by { RepointedGone(db, pick, e.sync.pid); }
    }
  }

  lemma RepointedGone(db: Db, sid: nat, pid: nat)
    requires sid !in db.solutions
    ensures Repointed(db, sid, pid) == db
  {
  }

  lemma EditPurgeOk(db: Db, dying: map<nat, nat>, torn: set<nat>, t: nat, e: EditTask, pick: nat)
    requires Respected(db, dying, torn, t, EditStake(e)) && Consistent(Edit(e)) && e.pc.Purging?
    ensures Respected(Exec(db, EditStmt(db, e, pick)), DyingAfter(dying, t, EditStmt(db, e, pick)), torn, t, EditStake(EditNext(db, e, pick)))
  {
    hide Respected, Exec, DyingAfter, PurgeStmt;
    PurgeRespected(db, dying, torn, t, EditStake(e), e.purge);
  }

  lemma EditRejudgeOk(db: Db, dying: map<nat, nat>, torn: set<nat>, t: nat, e: EditTask, pick: nat)
    requires Respected(db, dying, torn, t, EditStake(e)) && e.pc.Rejudge?
    ensures Respected(Exec(db, EditStmt(db, e, pick)), dying, torn, t, EditStake(EditNext(db, e, pick)))
  {
    hide OwnOk, HeldOk, Released;
    ReleasedRespected(db, dying, torn, t, EditStake(e), e.rejudge);
  }

  lemma DropRowsRespected(db: Db, dying: map<nat, nat>, torn: set<nat>, t: nat, c: Stake)
    requires Respected(db, dying, torn, t, c) && c.own.None? && c.saved !! c.doomed && !c.allOfBatch && !c.allOfOffering && c.dying == {}
    ensures Respected(db.(submissions := db.submissions - c.doomed), dying, torn, t, c.(doomed := {}, gone := false))
  {
  }

  lemma EditCommitOk(db: Db, dying: map<nat, nat>, torn: set<nat>, t: nat, e: EditTask, pick: nat)
    requires Respected(db, dying, torn, t, EditStake(e)) && Consistent(Edit(e)) && e.pc.Commit?
    ensures Respected(Exec(db, EditStmt(db, e, pick)), dying, torn, t, EditStake(EditNext(db, e, pick)))
  {
    hide Respected, CommitEdit, Mild;
    if |e.sync.pids| == |e.sync.items| {
      DropRowsRespected(db, dying, torn, t, EditStake(e));
      CommitEditMild(db, e.bid, e.purge.doomed, Slots(e.sync), e.status);
      MildRespected(db.(submissions := db.submissions - e.purge.doomed), dying, torn, CommitEdit(db, e.bid, e.purge.doomed, Slots(e.sync), e.status),
                    t, EditStake(e).(doomed := {}, gone := false));
    }
  }

  lemma LessRespected(db: Db, dying: map<nat, nat>, torn: set<nat>, t: nat, c: Stake, n: Stake)
    requires Respected(db, dying, torn, t, c)
    requires n == c.(locked := n.locked, batch := n.batch, saved := n.saved)
    requires n.saved <= c.saved && (n.batch == c.batch || (n.batch.None? && !n.allOfBatch))
    ensures Respected(db, dying, torn, t, n)
  {
  }

  lemma EditOpenedOk(db: Db, dying: map<nat, nat>, torn: set<nat>, d: Db, t: nat, e: EditTask, pick: nat)
    requires Respected(d, dying, torn, t, EditStake(e)) && RowsOk(db) && Mild(db, d) && e.pc.Opened?
    ensures Respected(d, dying, torn, t, EditStake(EditNext(db, e, pick)))
  {
  }

  lemma EditRestOk(db: Db, dying: map<nat, nat>, torn: set<nat>, d: Db, t: nat, e: EditTask, pick: nat)
    requires Respected(d, dying, torn, t, EditStake(e)) && Consistent(Edit(e))
    requires !e.pc.Opened? && !e.pc.Inside? && !e.pc.Repointing? && !e.pc.Purging? && !e.pc.Rejudge? && !e.pc.Commit?
    ensures Respected(d, dying, torn, t, EditStake(EditNext(db, e, pick)))
  {
    hide Respected, SyncNext, CleanNext, Referenced, Dropped, Movers;
    LessRespected(d, dying, torn, t, EditStake(e), EditStake(EditNext(db, e, pick)));
  }

  // a removal

  lemma RemovePermitted(db: Db, dying: map<nat, nat>, torn: set<nat>, t: nat, r: RemoveTask)
    requires Respected(db, dying, torn, t, RemoveStake(r))
    ensures Permitted(db, dying, torn, LockedOffering(Remove(r)), None, RemoveStmt(r))
  {
  }

  lemma RemoveInsideOk(db: Db, dying: map<nat, nat>, torn: set<nat>, t: nat, r: RemoveTask, pick: nat)
    requires RowsOk(db) && Respected(db, dying, torn, t, RemoveStake(r)) && r.pc.Inside?
    ensures Respected(db, dying, torn, t, RemoveStake(RemoveNext(db, r, pick)))
  {
  }

  lemma RemovePurgeOk(db: Db, dying: map<nat, nat>, torn: set<nat>, t: nat, r: RemoveTask, pick: nat)
    requires Respected(db, dying, torn, t, RemoveStake(r)) && r.pc.Purging?
    ensures Respected(Exec(db, RemoveStmt(r)), DyingAfter(dying, t, RemoveStmt(r)), torn, t, RemoveStake(RemoveNext(db, r, pick)))
  {
    hide Respected, Exec, DyingAfter, PurgeStmt;
    PurgeRespected(db, dying, torn, t, RemoveStake(r), r.purge);
  }

  lemma RemoveCommitOk(db: Db, dying: map<nat, nat>, torn: set<nat>, t: nat, r: RemoveTask, pick: nat)
    requires Respected(db, dying, torn, t, RemoveStake(r)) && r.pc.Commit?
    ensures Respected(Exec(db, RemoveStmt(r)), dying, torn, t, RemoveStake(RemoveNext(db, r, pick)))
  {
  }

  lemma RemoveRestOk(db: Db, dying: map<nat, nat>, torn: set<nat>, d: Db, t: nat, r: RemoveTask, pick: nat)
    requires Respected(d, dying, torn, t, RemoveStake(r)) && RowsOk(db) && Mild(db, d)
    requires !r.pc.Inside? && !r.pc.Purging? && !r.pc.Commit?
    ensures Respected(d, dying, torn, t, RemoveStake(RemoveNext(db, r, pick)))
  {
  }

  // a course deletion

  lemma DeletePermitted(db: Db, dying: map<nat, nat>, torn: set<nat>, t: nat, c: DeleteTask)
    requires Respected(db, dying, torn, t, DeleteStake(c))
    ensures Permitted(db, dying, torn, LockedOffering(Delete(c)), None, DeleteStmt(c))
  {
  }

  lemma DeletePurgeOk(db: Db, dying: map<nat, nat>, torn: set<nat>, t: nat, c: DeleteTask, pick: nat)
    requires Respected(db, dying, torn, t, DeleteStake(c)) && c.pc.Purging?
    ensures Respected(Exec(db, DeleteStmt(c)), DyingAfter(dying, t, DeleteStmt(c)), torn, t, DeleteStake(DeleteNext(db, c, pick)))
  {
    hide Respected, Exec, DyingAfter, PurgeStmt;
    PurgeRespected(db, dying, torn, t, DeleteStake(c), c.purge);
  }

  lemma DeleteCommitOk(db: Db, dying: map<nat, nat>, torn: set<nat>, t: nat, c: DeleteTask, pick: nat)
    requires Respected(db, dying, torn, t, DeleteStake(c)) && c.pc.Commit?
    ensures Respected(Exec(db, DeleteStmt(c)), dying, torn, t, DeleteStake(DeleteNext(db, c, pick)))
  {
  }

  lemma DeleteRestOk(db: Db, dying: map<nat, nat>, torn: set<nat>, d: Db, t: nat, c: DeleteTask, pick: nat)
    requires Respected(d, dying, torn, t, DeleteStake(c)) && Mild(db, d)
    requires !c.pc.Purging? && !c.pc.Commit?
    ensures Respected(d, dying, torn, t, DeleteStake(DeleteNext(db, c, pick)))
  {
  }

  ghost predicate StepOk(db: Db, dying: map<nat, nat>, torn: set<nat>, t: nat, tk: Task, pick: nat) {
    var d, after := Exec(db, StmtOf(db, tk, pick)), DyingAfter(dying, t, StmtOf(db, tk, pick));
    && WriteOk(db, dying, torn, d, after, t, LockedOffering(tk), StakeOf(tk).own)
    && Respected(d, after, torn, t, StakeOf(Next(db, tk, pick)))
    && Consistent(Next(db, tk, pick))
  }

  ghost predicate StepPre(db: Db, dying: map<nat, nat>, torn: set<nat>, t: nat, tk: Task, pick: nat) {
    && SourcesOk(db, dying, torn) && Respected(db, dying, torn, t, StakeOf(tk)) && Consistent(tk) && Picks(tk, pick)
    && (tk.Edit? && tk.e.pc.Inside? ==> forall s :: s in dying && s in db.submissions ==> db.submissions[s].oid != tk.e.oid)
  }

  lemma SubmitStepOk(db: Db, dying: map<nat, nat>, torn: set<nat>, t: nat, s: SubmitTask, pick: nat)
    requires StepPre(db, dying, torn, t, Submit(s), pick)
    ensures StepOk(db, dying, torn, t, Submit(s), pick)
  {
    hide Respected, WriteOk, Stored, Exec, SubmitStmt, SubmitNext, SubmitStake, Permitted, Mild, LockedOffering,
      DyingAfter, RowsOk;
    var d := Exec(db, SubmitStmt(s));
    SubmitPermitted(db, dying, torn, t, s);
    ExecOk(db, dying, torn, t, LockedOffering(Submit(s)), SubmitStake(s).own, SubmitStmt(s));
    SubmitKeepsDying(dying, t, s);
    if s.pc.Place? {
      SubmitPlaceOk(db, dying, torn, t, s);
    } else if s.pc.Assign? {
      SubmitAssignOk(db, dying, torn, t, s);
    } else if s.pc.SaveCode? || s.pc.SaveUserCode? {
      SubmitCodeOk(db, dying, torn, t, s);
    } else if s.pc.Release? {
      SubmitReleaseOk(db, dying, torn, t, s);
    } else {
      SubmitHarmless(s);
      ExecMild(db, SubmitStmt(s));
      SubmitRestOk(db, dying, torn, d, t, s);
    }
  }

  lemma SubmitKeepsDying(dying: map<nat, nat>, t: nat, s: SubmitTask)
    ensures DyingAfter(dying, t, SubmitStmt(s)) == dying
  {
  }

  lemma SubmitHarmless(s: SubmitTask)
    requires !s.pc.Place? && !Placed(s.pc)
    ensures Harmless(SubmitStmt(s))
  {
  }

  lemma PublishStepOk(db: Db, dying: map<nat, nat>, torn: set<nat>, t: nat, p: PublishTask, pick: nat)
    requires StepPre(db, dying, torn, t, Publish(p), pick)
    ensures StepOk(db, dying, torn, t, Publish(p), pick)
  {
    hide WriteOk, SourcesOk, Exec, PublishStmt, PublishNext, LockedOffering, DyingAfter;
    PublishPermitted(db, dying, torn, t, p);
    ExecOk(db, dying, torn, t, LockedOffering(Publish(p)), None, PublishStmt(p));
  }

  lemma PublishPermitted(db: Db, dying: map<nat, nat>, torn: set<nat>, t: nat, p: PublishTask)
    ensures Permitted(db, dying, torn, LockedOffering(Publish(p)), None, PublishStmt(p))
    ensures DyingAfter(dying, t, PublishStmt(p)) == dying
  {
  }

  lemma EditStepOk(db: Db, dying: map<nat, nat>, torn: set<nat>, t: nat, e: EditTask, pick: nat)
    requires StepPre(db, dying, torn, t, Edit(e), pick)
    ensures StepOk(db, dying, torn, t, Edit(e), pick)
  {
    hide Respected, WriteOk, Stored, Exec, EditStmt, EditNext, EditStake, Permitted, Mild, LockedOffering, DyingAfter,
      RowsOk, Picks, Consistent;
    var d := Exec(db, EditStmt(db, e, pick));
    EditPermitted(db, dying, torn, t, e, pick);
    EditConsistent(db, e, pick);
    EditOwn(e);
    ExecOk(db, dying, torn, t, LockedOffering(Edit(e)), None, EditStmt(db, e, pick));
    if e.pc.Purging? {
      EditPurgeOk(db, dying, torn, t, e, pick);
    } else {
      EditKeepsDying(db, dying, t, e, pick);
      if e.pc.Repointing? {
        EditMoveOk(db, dying, torn, t, e, pick);
      } else if e.pc.Commit? {
        EditCommitOk(db, dying, torn, t, e, pick);
      } else if e.pc.Rejudge? {
        EditRejudgeOk(db, dying, torn, t, e, pick);
      } else {
        EditHarmless(db, e, pick);
        ExecMild(db, EditStmt(db, e, pick));
        MildRespected(db, dying, torn, d, t, EditStake(e));
        if e.pc.Inside? {
          EditInsideOk(db, dying, torn, d, t, e, pick);
        } else if e.pc.Opened? {
          EditOpenedOk(db, dying, torn, d, t, e, pick);
        } else {
          EditRestOk(db, dying, torn, d, t, e, pick);
        }
      }
    }
  }

  lemma EditOwn(e: EditTask)
    ensures EditStake(e).own.None?
  {
  }

  lemma EditKeepsDying(db: Db, dying: map<nat, nat>, t: nat, e: EditTask, pick: nat)
    requires !e.pc.Purging?
    ensures DyingAfter(dying, t, EditStmt(db, e, pick)) == dying
  {
  }

  lemma EditHarmless(db: Db, e: EditTask, pick: nat)
    requires !e.pc.Purging? && !e.pc.Repointing? && !e.pc.Commit? && !e.pc.Rejudge?
    ensures Harmless(EditStmt(db, e, pick))
  {
  }

  lemma RemoveStepOk(db: Db, dying: map<nat, nat>, torn: set<nat>, t: nat, r: RemoveTask, pick: nat)
    requires StepPre(db, dying, torn, t, Remove(r), pick)
    ensures StepOk(db, dying, torn, t, Remove(r), pick)
  {
    hide Respected, WriteOk, Stored, Exec, RemoveStmt, RemoveNext, RemoveStake, Permitted, Mild, LockedOffering,
      DyingAfter, RowsOk;
    var d := Exec(db, RemoveStmt(r));
    RemovePermitted(db, dying, torn, t, r);
    RemoveOwn(r);
    ExecOk(db, dying, torn, t, LockedOffering(Remove(r)), None, RemoveStmt(r));
    if r.pc.Purging? {
      RemovePurgeOk(db, dying, torn, t, r, pick);
    } else {
      RemoveKeepsDying(dying, t, r);
      if r.pc.Commit? {
        RemoveCommitOk(db, dying, torn, t, r, pick);
      } else {
        ExecMild(db, RemoveStmt(r));
        if r.pc.Inside? {
          RemoveInsideOk(db, dying, torn, t, r, pick);
          MildRespected(db, dying, torn, d, t, RemoveStake(RemoveNext(db, r, pick)));
        } else {
          MildRespected(db, dying, torn, d, t, RemoveStake(r));
          RemoveRestOk(db, dying, torn, d, t, r, pick);
        }
      }
    }
  }

  lemma RemoveOwn(r: RemoveTask)
    ensures RemoveStake(r).own.None?
  {
  }

  lemma RemoveKeepsDying(dying: map<nat, nat>, t: nat, r: RemoveTask)
    requires !r.pc.Purging?
    ensures DyingAfter(dying, t, RemoveStmt(r)) == dying
    ensures r.pc.Commit? || Harmless(RemoveStmt(r))
  {
  }

  lemma DeleteStepOk(db: Db, dying: map<nat, nat>, torn: set<nat>, t: nat, c: DeleteTask, pick: nat)
    requires StepPre(db, dying, torn, t, Delete(c), pick)
    ensures StepOk(db, dying, torn, t, Delete(c), pick)
  {
    hide Respected, WriteOk, Stored, Exec, DeleteStmt, DeleteNext, DeleteStake, Permitted, Mild, LockedOffering,
      DyingAfter, RowsOk;
    var d := Exec(db, DeleteStmt(c));
    DeletePermitted(db, dying, torn, t, c);
    DeleteOwn(c);
    ExecOk(db, dying, torn, t, LockedOffering(Delete(c)), None, DeleteStmt(c));
    if c.pc.Purging? {
      DeletePurgeOk(db, dying, torn, t, c, pick);
    } else {
      DeleteKeepsDying(dying, t, c);
      if c.pc.Commit? {
        DeleteCommitOk(db, dying, torn, t, c, pick);
      } else {
        ExecMild(db, DeleteStmt(c));
        MildRespected(db, dying, torn, d, t, DeleteStake(c));
        DeleteRestOk(db, dying, torn, d, t, c, pick);
      }
    }
  }

  lemma DeleteOwn(c: DeleteTask)
    ensures DeleteStake(c).own.None?
  {
  }

  lemma DeleteKeepsDying(dying: map<nat, nat>, t: nat, c: DeleteTask)
    requires !c.pc.Purging?
    ensures DyingAfter(dying, t, DeleteStmt(c)) == dying
    ensures c.pc.Commit? || Harmless(DeleteStmt(c))
  {
  }

  lemma WorkOk(db: Db, dying: map<nat, nat>, torn: set<nat>, t: nat, tk: Task, pick: nat)
    requires StepPre(db, dying, torn, t, tk, pick)
    ensures StepOk(db, dying, torn, t, tk, pick)
  {
    hide StepPre, StepOk;
    match tk
    case Submit(s) => SubmitStepOk(db, dying, torn, t, s, pick);
    case Publish(p) => PublishStepOk(db, dying, torn, t, p, pick);
    case Edit(e) => EditStepOk(db, dying, torn, t, e, pick);
    case Remove(r) => RemoveStepOk(db, dying, torn, t, r, pick);
    case Delete(d) => DeleteStepOk(db, dying, torn, t, d, pick);
  }

  // ---------------------------------------------------------------- the machine

  ghost predicate TwoPhaseOk(w: World) {
    && LocksOk(w)
    && SourcesOk(w.db, w.dying, w.torn)
    && (forall t :: t in w.tasks ==> TaskOk(w, t))
    && (forall s :: s in w.dying ==> w.dying[s] in w.tasks)
    && OwnsApart(w.tasks)
  }

  ghost predicate TaskOk(w: World, t: nat)
    requires t in w.tasks
  {
    Respected(w.db, w.dying, w.torn, t, StakeOf(w.tasks[t])) && Consistent(w.tasks[t])
  }

  function OwnOf(tk: Task): Option<nat> { StakeOf(tk).own }

  /** No two requests are placing the same solution. */
  ghost predicate OwnsApart(tasks: map<nat, Task>) {
    forall t, u :: t in tasks && u in tasks && t != u && OwnOf(tasks[t]).Some? ==> OwnOf(tasks[t]) != OwnOf(tasks[u])
  }

  lemma LockedApart(w: World, t: nat, u: nat)
    requires LocksOk(w) && t in w.tasks && u in w.tasks && u != t
    ensures StakeOf(w.tasks[u]).locked == LockedOffering(w.tasks[u])
    ensures LockedOffering(w.tasks[u]).Some? ==> LockedOffering(w.tasks[u]) != LockedOffering(w.tasks[t])
  {
    if InOffering(w.tasks[u]) {
      var l := OfferingLock(OidOf(w.tasks[u]));
      assert HoldsOwn(w, u) && HoldsOwn(w, t);
      assert Holds(w.tasks[u], l);
      assert LockedOffering(w.tasks[t]) == Some(OidOf(w.tasks[u])) ==> Holds(w.tasks[t], l);
    }
  }

  /** A solution whose deletion is under way belongs to the offering its owner has locked. */
  lemma DyingIsOwned(db: Db, dying: map<nat, nat>, torn: set<nat>, u: nat, c: Stake, s: nat)
    requires Respected(db, dying, torn, u, c) && UnderLock(c) && s in dying && dying[s] == u
    ensures c.dying != {} && InOwn(db, c.oid, s) && c.locked == Some(c.oid)
    ensures s in db.solutions ==> !Running(db.solutions[s].result)
  {
    assert s in c.doomed;
  }

  /** So an edit that gets in meets none in its offering. */
  lemma NoneDying(w: World, t: nat)
    requires TwoPhaseOk(w) && t in w.tasks && w.tasks[t].Edit? && w.tasks[t].e.pc.Inside?
    ensures forall s :: s in w.dying && s in w.db.submissions ==> w.db.submissions[s].oid != w.tasks[t].e.oid
  {
    assert StakeOf(w.tasks[t]).dying == {} && LockedOffering(w.tasks[t]) == Some(w.tasks[t].e.oid);
    hide Respected, StakeOf, LocksOk, Consistent, UnderLock;
    forall s | s in w.dying && s in w.db.submissions ensures w.db.submissions[s].oid != w.tasks[t].e.oid {
      var u := w.dying[s];
      assert TaskOk(w, u) && TaskOk(w, t);
      UnderLockAlways(w.tasks[u]);
      DyingIsOwned(w.db, w.dying, w.torn, u, StakeOf(w.tasks[u]), s);
      if u != t {
        LockedApart(w, t, u);
      }
    }
  }

  lemma SameStake(tk: Task, next: Task)
    requires (Wants(tk).Some? && next == AfterLock(tk)) || (Frees(tk).Some? && !PhaseOf(tk).Ending? && next == AfterFree(tk))
    ensures var c, n := StakeOf(tk), StakeOf(next);
      && n == c.(locked := n.locked, batch := n.batch, saved := n.saved)
      && n.saved <= c.saved && (n.batch == c.batch || (n.batch.None? && !n.allOfBatch))
  {
    match tk
    case Edit(e) =>
      hide StakeOf, Wants, Frees, PhaseOf, AfterLock, AfterFree;
      EditSameStake(e, next);
    case _ =>
      hide EditStake, Kept, Dropped, Editing;
  }

  lemma EditSameStake(e: EditTask, next: Task)
    requires var tk := Edit(e);
      (Wants(tk).Some? && next == AfterLock(tk)) || (Frees(tk).Some? && !PhaseOf(tk).Ending? && next == AfterFree(tk))
    ensures var c, n := StakeOf(Edit(e)), StakeOf(next);
      && n == c.(locked := n.locked, batch := n.batch, saved := n.saved)
      && n.saved <= c.saved && (n.batch == c.batch || (n.batch.None? && !n.allOfBatch))
  {
    hide Dropped;
  }

  lemma LockMoveKeeps(db: Db, dying: map<nat, nat>, torn: set<nat>, t: nat, tk: Task)
    requires Respected(db, dying, torn, t, StakeOf(tk)) && Consistent(tk)
    ensures Wants(tk).Some? ==> Moved(db, dying, torn, t, tk, AfterLock(tk))
    ensures Frees(tk).Some? && !PhaseOf(tk).Ending? ==> Moved(db, dying, torn, t, tk, AfterFree(tk))
  {
    hide Respected, StakeOf;
    if Wants(tk).Some? {
      SameStake(tk, AfterLock(tk));
      LessRespected(db, dying, torn, t, StakeOf(tk), StakeOf(AfterLock(tk)));
    }
    if Frees(tk).Some? && !PhaseOf(tk).Ending? {
      SameStake(tk, AfterFree(tk));
      LessRespected(db, dying, torn, t, StakeOf(tk), StakeOf(AfterFree(tk)));
    }
  }

  ghost predicate Moved(db: Db, dying: map<nat, nat>, torn: set<nat>, t: nat, tk: Task, next: Task) {
    Respected(db, dying, torn, t, StakeOf(next)) && Consistent(next) && OwnOf(next) == OwnOf(tk)
  }

  lemma NewOwn(db: Db, tk: Task, pick: nat)
    ensures OwnOf(Next(db, tk, pick)).Some? ==> OwnOf(Next(db, tk, pick)) == OwnOf(tk) || OwnOf(Next(db, tk, pick)) == Some(db.nextSid)
  {
  }

  /** The step of request `t` seen from another request. */
  lemma OtherKeeps(w: World, v: World, t: nat, u: nat, own: Option<nat>)
    requires LocksOk(w) && RowsOk(w.db) && RowsOk(v.db) && t in w.tasks && u in w.tasks && u != t && TaskOk(w, u)
    requires v.torn == w.torn && u in v.tasks && v.tasks[u] == w.tasks[u]
    requires Guarantee(w.db, w.dying, v.db, v.dying, t, LockedOffering(w.tasks[t]), own)
    requires OwnOf(w.tasks[u]).Some? ==> OwnOf(w.tasks[u]) != own
    ensures TaskOk(v, u)
  {
    hide LocksOk, RowsOk, Respected, Consistent, UnderLock, StakeOf, Guarantee;
    UnderLockAlways(w.tasks[u]);
    LockedApart(w, t, u);
    StakesSurvive(w.db, w.dying, w.torn, v.db, v.dying, t, LockedOffering(w.tasks[t]), own, u, StakeOf(w.tasks[u]));
  }

  lemma OwnBelow(w: World, u: nat)
    requires u in w.tasks && TaskOk(w, u)
    ensures OwnOf(w.tasks[u]).Some? ==> OwnOf(w.tasks[u]).value < w.db.nextSid
  {
    hide HeldOk, ScopeOk, StakeOf;
  }

  lemma OwnsStayApart(w: World, v: World, t: nat)
    requires OwnsApart(w.tasks) && t in w.tasks && t in v.tasks && v.tasks == w.tasks[t := v.tasks[t]]
    requires forall u :: u in w.tasks ==> TaskOk(w, u)
    requires OwnOf(v.tasks[t]).Some? ==> OwnOf(v.tasks[t]) == OwnOf(w.tasks[t]) || OwnOf(v.tasks[t]) == Some(w.db.nextSid)
    ensures OwnsApart(v.tasks)
  {
    hide OwnOf, TaskOk;
    forall u | u in v.tasks && u != t ensures OwnOf(v.tasks[t]).Some? ==> OwnOf(v.tasks[t]) != OwnOf(v.tasks[u]) {
      assert u in w.tasks;
      OwnBelow(w, u);
    }
  }

  lemma DyingStayOwned(w: World, v: World, t: nat, locked: Option<nat>, own: Option<nat>)
    requires forall s :: s in w.dying ==> w.dying[s] in w.tasks
    requires Guarantee(w.db, w.dying, v.db, v.dying, t, locked, own)
    requires t in v.tasks && v.tasks == w.tasks[t := v.tasks[t]]
    ensures forall s :: s in v.dying ==> v.dying[s] in v.tasks
  {
  }

  lemma WorkTogether(w: World, v: World, t: nat)
    requires TwoPhaseOk(w) && LocksOk(v) && v.torn == w.torn
    requires t in w.tasks && t in v.tasks && v.tasks == w.tasks[t := v.tasks[t]]
    requires WriteOk(w.db, w.dying, w.torn, v.db, v.dying, t, LockedOffering(w.tasks[t]), OwnOf(w.tasks[t]))
    requires TaskOk(v, t)
    requires OwnOf(v.tasks[t]).Some? ==> OwnOf(v.tasks[t]) == OwnOf(w.tasks[t]) || OwnOf(v.tasks[t]) == Some(w.db.nextSid)
    ensures TwoPhaseOk(v)
  {
    hide LocksOk, RowsOk, Stored, Guarantee, TaskOk, OwnOf, LockedOffering;
    DyingStayOwned(w, v, t, LockedOffering(w.tasks[t]), OwnOf(w.tasks[t]));
    forall u | u in v.tasks && u != t ensures TaskOk(v, u) {
      assert u in w.tasks && TaskOk(w, u);
      OtherKeeps(w, v, t, u, OwnOf(w.tasks[t]));
    }
    OwnsStayApart(w, v, t);
  }

  lemma AdvanceWorks(w: World, t: nat, pick: nat)
    requires t in w.tasks && Working(w.tasks[t])
    ensures var tk := w.tasks[t];
      Advance(w, t, pick) == w.(
        db := Exec(w.db, StmtOf(w.db, tk, pick)), tasks := w.tasks[t := Next(w.db, tk, pick)],
        revisions := RevisionsAfter(w.revisions, t, tk, Next(w.db, tk, pick)),
        dying := DyingAfter(w.dying, t, StmtOf(w.db, tk, pick)))
  {
    hide Wants, Frees, PhaseOf, Next, StmtOf, Exec;
  }

  lemma WorkReady(w: World, t: nat, pick: nat)
    requires TwoPhaseOk(w) && Ready(w, t, pick)
    ensures StepPre(w.db, w.dying, w.torn, t, w.tasks[t], pick)
  {
    hide LocksOk, RowsOk, Stored, Respected, Consistent, StakeOf, Wants, Picks;
    assert TaskOk(w, t);
    if w.tasks[t].Edit? && w.tasks[t].e.pc.Inside? {
      NoneDying(w, t);
    }
  }

  lemma WorkKeepsTwoPhase(w: World, t: nat, pick: nat)
    requires TwoPhaseOk(w) && t in w.tasks && Ready(w, t, pick) && Working(w.tasks[t])
    ensures TwoPhaseOk(Advance(w, t, pick))
  {
    hide LocksOk, TwoPhaseOk, StakeOf, Respected, WriteOk, Consistent, Next, Exec, StmtOf, StepPre, Working, Ready,
      Advance, DyingAfter, RevisionsAfter, LockedOffering;
    TwoPhaseLocks(w);
    StepKeepsLocks(w, t, pick);
    WorkReady(w, t, pick);
    AdvanceWorks(w, t, pick);
    WorkOk(w.db, w.dying, w.torn, t, w.tasks[t], pick);
    NewOwn(w.db, w.tasks[t], pick);
    WorkTogether(w, Advance(w, t, pick), t);
  }

  lemma TwoPhaseLocks(w: World)
    requires TwoPhaseOk(w)
    ensures LocksOk(w)
  {
  }

  /** A request that takes or gives back a lock. */
  lemma LockStepKeeps(w: World, v: World, t: nat)
    requires TwoPhaseOk(w) && LocksOk(v) && v.db == w.db && v.dying == w.dying && v.torn == w.torn
    requires t in w.tasks && t in v.tasks && v.tasks == w.tasks[t := v.tasks[t]]
    requires Moved(w.db, w.dying, w.torn, t, w.tasks[t], v.tasks[t])
    ensures TwoPhaseOk(v)
  {
    hide LocksOk, RowsOk, Stored, Respected, Consistent, StakeOf, OwnOf;
    assert OwnsApart(v.tasks) by {
      OwnsStayApart(w, v, t);
    }
    forall u | u in v.tasks && u != t ensures TaskOk(v, u) {
      assert TaskOk(w, u);
    }
  }

  /** A request that is gone leaves the deletions it had begun torn. */
  lemma LeaveKeeps(w: World, v: World, t: nat)
    requires TwoPhaseOk(w) && LocksOk(v) && v.db == w.db && t in w.tasks && v.tasks == w.tasks - {t}
    requires v.dying == w.dying - Tearing(w.dying, t) && v.torn == w.torn + Tearing(w.dying, t)
    ensures TwoPhaseOk(v)
  {
    hide LocksOk, StakeOf;
    forall u | u in v.tasks ensures TaskOk(v, u) {
      assert TaskOk(w, u);
      TornRespected(w.db, w.dying, w.torn, t, u, StakeOf(w.tasks[u]));
    }
  }

  lemma TornRespected(db: Db, dying: map<nat, nat>, torn: set<nat>, t: nat, u: nat, c: Stake)
    requires Respected(db, dying, torn, u, c) && u != t
    ensures Respected(db, dying - Tearing(dying, t), torn + Tearing(dying, t), u, c)
  {
  }

  lemma ExitTearsNothing(w: World, t: nat)
    requires TwoPhaseOk(w) && t in w.tasks && PhaseOf(w.tasks[t]).Ending?
    ensures Tearing(w.dying, t) == {}
  {
    EndingStake(w.tasks[t]);
    hide StakeOf, LocksOk, SourcesOk, OwnsApart, Consistent, PhaseOf;
    assert TaskOk(w, t);
  }

  lemma EndingStake(tk: Task)
    requires PhaseOf(tk).Ending?
    ensures StakeOf(tk).dying == {}
  {
  }

  lemma FreshStake(db: Db, dying: map<nat, nat>, torn: set<nat>, t: nat, job: Job)
    requires Acceptable(db, job) && RowsOk(db) && forall s :: s in dying ==> dying[s] != t
    ensures Respected(db, dying, torn, t, StakeOf(Fresh(db, job))) && Consistent(Fresh(db, job)) && OwnOf(Fresh(db, job)).None?
  {
  }

  lemma NextIsFree(w: World)
    requires LocksOk(w)
    ensures w.nextTid !in w.tasks
  {
  }

  lemma StartKeeps(w: World, v: World, job: Job)
    requires TwoPhaseOk(w) && LocksOk(w) && LocksOk(v) && Acceptable(w.db, job)
    requires v == w.(tasks := w.tasks[w.nextTid := Fresh(w.db, job)], nextTid := w.nextTid + 1)
    ensures TwoPhaseOk(v)
  {
    hide LocksOk, StakeOf, Fresh, Respected, Consistent, Acceptable, Stored, OwnOf;
    NextIsFree(w);
    FreshStake(w.db, w.dying, w.torn, w.nextTid, job);
    forall u | u in v.tasks ensures TaskOk(v, u) {
      if u != w.nextTid {
        assert TaskOk(w, u);
      }
    }
  }

  lemma VerdictOk(db: Db, dying: map<nat, nat>, torn: set<nat>, t: nat, sid: nat, result: nat)
    requires SourcesOk(db, dying, torn) && sid in db.solutions && db.solutions[sid].result <= 3 && 2 <= result <= 13
    ensures WriteOk(db, dying, torn, db.(solutions := db.solutions[sid := db.solutions[sid].(result := result)]), dying, t, None, None)
  {
  }

  /** A change that no request makes: a verdict of the judge, or a new draft. */
  lemma OutsideKeeps(w: World, v: World)
    requires TwoPhaseOk(w) && LocksOk(v) && v == w.(db := v.db)
    requires WriteOk(w.db, w.dying, w.torn, v.db, w.dying, w.nextTid, None, None)
    ensures TwoPhaseOk(v)
  {
    assert w.nextTid !in w.tasks;
    hide LocksOk, StakeOf, Respected, Consistent, Stored, Guarantee, OwnOf, RowsOk, UnderLock;
    forall u | u in v.tasks ensures TaskOk(v, u) {
      assert TaskOk(w, u);
      UnderLockAlways(w.tasks[u]);
      StakesSurvive(w.db, w.dying, w.torn, v.db, w.dying, w.nextTid, None, None, u, StakeOf(w.tasks[u]));
    }
  }

  lemma StepKeepsTwoPhase(w: World, t: nat, pick: nat)
    requires TwoPhaseOk(w) && t in w.tasks && Ready(w, t, pick)
    ensures TwoPhaseOk(Advance(w, t, pick))
  {
    hide LocksOk, TwoPhaseOk, StakeOf, Respected, Consistent, Next, Exec, StmtOf, AfterLock, AfterFree, PhaseOf, Wants,
      Frees, Picks, OwnOf, Moved, RevisionsAfter, DyingAfter;
    TwoPhaseLocks(w);
    StepKeepsLocks(w, t, pick);
    if Working(w.tasks[t]) {
      WorkKeepsTwoPhase(w, t, pick);
    } else {
      var v := Advance(w, t, pick);
      TaskMoves(w, t);
      if Wants(w.tasks[t]).Some? {
        LockStepKeeps(w, v, t);
      } else if PhaseOf(w.tasks[t]).Ending? {
        ExitTearsNothing(w, t);
        LeaveKeeps(w, v, t);
      } else {
        LockStepKeeps(w, v, t);
      }
    }
  }

  lemma TaskMoves(w: World, t: nat)
    requires TwoPhaseOk(w) && t in w.tasks
    ensures Wants(w.tasks[t]).Some? ==> Moved(w.db, w.dying, w.torn, t, w.tasks[t], AfterLock(w.tasks[t]))
    ensures Frees(w.tasks[t]).Some? && !PhaseOf(w.tasks[t]).Ending? ==> Moved(w.db, w.dying, w.torn, t, w.tasks[t], AfterFree(w.tasks[t]))
  {
    hide Moved, StakeOf, AfterLock, AfterFree;
    assert TaskOk(w, t);
    LockMoveKeeps(w.db, w.dying, w.torn, t, w.tasks[t]);
  }

  lemma ActKeepsTwoPhase(w: World, a: Action)
    requires TwoPhaseOk(w) && Enabled(w, a)
    ensures TwoPhaseOk(Act(w, a))
  {
    hide LocksOk, TwoPhaseOk, Advance, Fresh, Acceptable, WriteOk, SourcesOk, Mild;
    TwoPhaseLocks(w);
    ActKeepsLocks(w, a);
    TwoPhaseTables(w);
    match a
    case Start(job) => StartKeeps(w, Act(w, a), job);
    case Step(t, pick) => StepKeepsTwoPhase(w, t, pick);
    case Stop(t) => LeaveKeeps(w, Act(w, a), t);
    case Verdict(sid, result) =>
      VerdictOk(w.db, w.dying, w.torn, w.nextTid, sid, result);
      OutsideKeeps(w, Act(w, a));
    case NewDraft(oid) =>
      FrameMild(w.db, Act(w, a).db);
      SkipOk(w.db, w.dying, w.torn, w.nextTid, None, None);
      MildAfter(w.db, w.dying, w.torn, w.db, Act(w, a).db, w.dying, w.nextTid, None, None);
      OutsideKeeps(w, Act(w, a));
  }

  lemma TwoPhaseTables(w: World)
    requires TwoPhaseOk(w)
    ensures SourcesOk(w.db, w.dying, w.torn)
  {
  }

  lemma {:induction false} RunKeepsTwoPhase(run: seq<World>, i: nat)
    requires IsRun(run) && SourcesOk(run[0].db, map[], {}) && i < |run|
    ensures TwoPhaseOk(run[i])
  {
    hide SourcesOk, Act, Enabled, OwnsApart, LocksOk;
    if i == 0 {
      RunKeepsLocks(run, 0);
      assert run[0].tasks == map[];
      assert OwnsApart(run[0].tasks) by { NoOwns(run[0].tasks); }
    } else {
      RunKeepsTwoPhase(run, i - 1);
      assert Moves(run[i - 1], run[i - 1 + 1]);
      var a :| Enabled(run[i - 1], a) && run[i] == Act(run[i - 1], a);
      ActKeepsTwoPhase(run[i - 1], a);
    }
  }

  lemma NoOwns(tasks: map<nat, Task>)
    requires tasks == map[]
    ensures OwnsApart(tasks)
  {
  }

  /**
   In every state of every run that starts from complete solutions, a solution the judge may pick up
   is complete, or its deletion was cut short after its source was gone.
   */
  lemma {:induction false} QueuedAreComplete(run: seq<World>, i: nat, s: nat)
    requires IsRun(run) && SourcesOk(run[0].db, map[], {}) && i < |run|
    requires s in run[i].db.solutions && Queued(run[i].db.solutions[s].result)
    ensures Complete(run[i].db, s) || s in run[i].torn
    ensures run[i].db.solutions[s].course ==> s in run[i].db.submissions
  {
    var w := run[i];
    RunKeepsTwoPhase(run, i);
    if s in w.dying {
      var u := w.dying[s];
      assert TaskOk(w, u);
      hide Respected, LocksOk, OwnsApart, StakeOf, RowsOk, Consistent, UnderLock;
      UnderLockAlways(w.tasks[u]);
      DyingIsOwned(w.db, w.dying, w.torn, u, StakeOf(w.tasks[u]), s);
    }
  }

  /** A stop between the removal of sources and the removal of their solutions. */
  ghost predicate Cuts(w: World, a: Action) { a.Stop? && Tearing(w.dying, a.tid) != {} }

  ghost predicate MovesUncut(w: World, v: World) {
    exists a :: Enabled(w, a) && v == Act(w, a) && !Cuts(w, a)
  }

  /** When no deletion is cut short there, everything the judge may pick up is complete. */
  lemma {:induction false} UncutRunsAreComplete(run: seq<World>, i: nat, s: nat)
    requires IsRun(run) && SourcesOk(run[0].db, map[], {}) && i < |run|
    requires forall j | 0 <= j < |run| - 1 :: MovesUncut(run[j], run[j + 1])
    requires s in run[i].db.solutions && Queued(run[i].db.solutions[s].result)
    ensures Complete(run[i].db, s)
  {
    NothingTorn(run, i);
    QueuedAreComplete(run, i, s);
  }

  lemma UncutTearsNothing(w: World, a: Action)
    requires Enabled(w, a) && !Cuts(w, a)
    ensures Act(w, a).torn == w.torn
  {
    hide Exec, Next, StmtOf, Wants, Frees, PhaseOf, AfterLock, AfterFree, Fresh, Acceptable, Picks, InsertDraft, RevisionsAfter,
      DyingAfter;
  }

  lemma {:induction false} NothingTorn(run: seq<World>, i: nat)
    requires IsRun(run) && i < |run|
    requires forall j | 0 <= j < |run| - 1 :: MovesUncut(run[j], run[j + 1])
    ensures run[i].torn == {}
  {
    if i > 0 {
      NothingTorn(run, i - 1);
      assert MovesUncut(run[i - 1], run[i - 1 + 1]);
      var a :| Enabled(run[i - 1], a) && run[i] == Act(run[i - 1], a) && !Cuts(run[i - 1], a);
      hide *;
      UncutTearsNothing(run[i - 1], a);
    }
  }
}
