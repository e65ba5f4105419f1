/**
 The assignment lifecycle as a step machine. Any number of requests run at once; each step is
 one awaited statement of one request, and a request may stop after any step, by an error or a
 crash. Named locks belong to the session of a request and vanish with it; rows of the judge
 database and test files stay; the statements of an open transaction are lost.
 */
module Machine {
  import opened Values
  import opened Tables

  datatype Lock = PublishLock(key: nat) | OfferingLock(oid: nat) | ProblemLock(pid: nat)

  function Level(l: Lock): nat {
    match l
    case PublishLock(_) => 0
    case OfferingLock(_) => 1
    case ProblemLock(_) => 2
  }

  /** A problem of a document; `from` is the linked problem an edit keeps or replaces. */
  datatype Item = Item(slug: string, content: string, tests: seq<Case>, score: nat, from: Option<nat>)

  // ---------------------------------------------------------------- parts of requests

  /** Writing a document's problems: find the row, write it, clear its tests, write them one by one. */
  datatype SyncPc = Lookup | Row | Clear | Tests

  /** How far the document has been written under `key`: `pids` are done, `pid` is in the works. */
  datatype Sync = Sync(at: SyncPc, key: nat, items: seq<Item>, i: nat, j: nat, found: Option<nat>, pid: nat, pids: seq<nat>)

  /** Deleting submissions: sources first, solutions last. */
  datatype PurgePc = DropCode | DropUserCode | DropSolutions
  datatype Purge = Purge(at: PurgePc, doomed: set<nat>)

  /** Cleaning problems up, one after the other, each under its lock. */
  datatype CleanPc = Choose | Want | Count | Wipe | Erase | Tally | Free
  datatype Clean = Clean(at: CleanPc, cur: nat, todo: set<nat>)

  // ---------------------------------------------------------------- requests

  datatype SubmitPc =
    | WantOffering | Inside | WantProblem | Check | Place | Assign | SaveCode | SaveUserCode
    | Release | Promoting | FreeProblem | Leave | Exit

  /** Submitting to an assignment, or, without a target batch, for practice. */
  datatype SubmitTask = SubmitTask(pc: SubmitPc, oid: nat, cur: nat, target: Option<nat>, user: string, bp: nat, sid: nat)

  datatype PublishPc =
    | WantPublish | Opened | NextOffering | WantOffering | Inside | Ensure | NextItem | Writing
    | Hide | ShowAll | Commit | Leave | Exit

  /**
   Publishing the draft `outer` under its publish lock, or, with `deploys`, one fresh draft per
   offering without that lock.
   */
  datatype PublishTask = PublishTask(
    pc: PublishPc, failed: bool, oid: nat, outer: Option<nat>, deploys: bool, oids: seq<nat>, bid: nat, sync: Sync)

  datatype EditPc =
    | WantPublish | Opened | WantOffering | Inside | Close | NextItem | Writing | Repointing | Reveal
    | Purging | Commit | Cleaning | Rejudge | Leave | Exit

  /**
   Editing a batch, directly or through its draft `outer`. `sync.key` is the revision key, `subs`
   maps the submissions it found to their problems.
   */
  datatype EditTask = EditTask(
    pc: EditPc, oid: nat, outer: Option<nat>, bid: nat, status: BatchStatus, sync: Sync, subs: map<nat, nat>,
    same: set<nat>, moves: set<nat>, rejudge: set<nat>, purge: Purge, clean: Clean, second: bool)

  datatype RemovePc =
    | WantPublish | Opened | NextBatch | WantOffering | Inside | Close | Purging | Commit | Cleaning
    | Leave | DropDraft | Exit

  /** Removing one batch, or every batch published from the draft `outer`, and then the draft. */
  datatype RemoveTask = RemoveTask(
    pc: RemovePc, failed: bool, oid: nat, outer: Option<nat>, bids: set<nat>, bid: nat, purge: Purge, clean: Clean)

  datatype DeletePc = WantOffering | Inside | Close | Purging | Cleaning | Commit | Leave | Exit

  /** From the check to the end. */
  predicate Deleting(pc: DeletePc) { pc.Close? || pc.Purging? || pc.Cleaning? || pc.Commit? }

  /** Deleting an offering with everything in it. */
  datatype DeleteTask = DeleteTask(pc: DeletePc, oid: nat, course: nat, purge: Purge, clean: Clean)

  /** A request in flight: the point it has reached, and what it has read so far. */
  datatype Task =
    | Submit(s: SubmitTask)
    | Publish(p: PublishTask)
    | Edit(e: EditTask)
    | Remove(r: RemoveTask)
    | Delete(d: DeleteTask)

  /**
   `revisions` and `dying` record which request opened a revision key or is deleting a solution whose
   source is gone already; `torn` collects the solutions whose deletion was cut short there. No step
   reads them.
   */
  datatype World = World(
    db: Db, tasks: map<nat, Task>, locks: map<Lock, nat>, nextTid: nat,
    revisions: map<nat, nat>, dying: map<nat, nat>, torn: set<nat>)

  // ---------------------------------------------------------------- locks of a request

  /**
   Where a request stands among its locks: about to take one (`Asking`, `Entering`,
   `Approaching`), about to give one back (`Parting`, `Leaving`, `Ending`), or working between.
   */
  datatype Phase = Asking | Outside | Entering | Within | Approaching | Holding | Parting | Leaving | Ending

  function CleanPhase(c: Clean): Phase {
    if c.at.Choose? then Within else if c.at.Want? then Approaching else if c.at.Free? then Parting else Holding
  }

  function PhaseOf(tk: Task): Phase {
    match tk
    case Submit(s) =>
      if s.pc.WantOffering? then Entering
      else if s.pc.Inside? then Within
      else if s.pc.WantProblem? then Approaching
      else if s.pc.FreeProblem? then Parting
      else if s.pc.Leave? then Leaving
      else if s.pc.Exit? then Ending
      else Holding
    case Publish(p) =>
      if p.pc.WantPublish? then Asking
      else if p.pc.Opened? || p.pc.NextOffering? then Outside
      else if p.pc.WantOffering? then Entering
      else if p.pc.Leave? then Leaving
      else if p.pc.Exit? then Ending
      else Within
    case Edit(e) =>
      if e.pc.WantPublish? then Asking
      else if e.pc.Opened? then Outside
      else if e.pc.WantOffering? then Entering
      else if e.pc.Cleaning? then CleanPhase(e.clean)
      else if e.pc.Leave? then Leaving
      else if e.pc.Exit? then Ending
      else Within
    case Remove(r) =>
      if r.pc.WantPublish? then Asking
      else if r.pc.Opened? || r.pc.NextBatch? || r.pc.DropDraft? then Outside
      else if r.pc.WantOffering? then Entering
      else if r.pc.Cleaning? then CleanPhase(r.clean)
      else if r.pc.Leave? then Leaving
      else if r.pc.Exit? then Ending
      else Within
    case Delete(d) =>
      if d.pc.WantOffering? then Entering
      else if d.pc.Cleaning? then CleanPhase(d.clean)
      else if d.pc.Leave? then Leaving
      else if d.pc.Exit? then Ending
      else Within
  }

  function OidOf(tk: Task): nat {
    match tk
    case Submit(s) => s.oid
    case Publish(p) => p.oid
    case Edit(e) => e.oid
    case Remove(r) => r.oid
    case Delete(d) => d.oid
  }

  /** The problem whose lock is wanted or held. */
  function CurOf(tk: Task): nat {
    match tk
    case Submit(s) => s.cur
    case Publish(p) => 0
    case Edit(e) => e.clean.cur
    case Remove(r) => r.clean.cur
    case Delete(d) => d.clean.cur
  }

  function OuterOf(tk: Task): Option<nat> {
    match tk
    case Submit(s) => None
    case Publish(p) => p.outer
    case Edit(e) => e.outer
    case Remove(r) => r.outer
    case Delete(d) => None
  }

  predicate Practice(tk: Task) { tk.Submit? && tk.s.target.None? }

  predicate InOffering(tk: Task) {
    var f := PhaseOf(tk);
    !Practice(tk) && (f.Within? || f.Approaching? || f.Holding? || f.Parting? || f.Leaving?)
  }

  function LockedOffering(tk: Task): Option<nat> { if InOffering(tk) then Some(OidOf(tk)) else None }

  predicate InProblem(tk: Task) { PhaseOf(tk).Holding? || PhaseOf(tk).Parting? }

  /** The locks a request holds, by the point it has reached. */
  predicate Holds(tk: Task, l: Lock) {
    match l
    case PublishLock(key) => OuterOf(tk) == Some(key) && !PhaseOf(tk).Asking?
    case OfferingLock(oid) => OidOf(tk) == oid && InOffering(tk)
    case ProblemLock(pid) => CurOf(tk) == pid && InProblem(tk)
  }

  /** The lock the next step takes. */
  function Wants(tk: Task): Option<Lock> {
    var f := PhaseOf(tk);
    if f.Asking? && OuterOf(tk).Some? then Some(PublishLock(OuterOf(tk).value))
    else if f.Entering? && !Practice(tk) then Some(OfferingLock(OidOf(tk)))
    else if f.Approaching? then Some(ProblemLock(CurOf(tk)))
    else None
  }

  /** The lock the next step gives back. */
  function Frees(tk: Task): Option<Lock> {
    var f := PhaseOf(tk);
    if f.Parting? then Some(ProblemLock(CurOf(tk)))
    else if f.Leaving? && !Practice(tk) then Some(OfferingLock(OidOf(tk)))
    else if f.Ending? && OuterOf(tk).Some? then Some(PublishLock(OuterOf(tk).value))
    else None
  }

  function AfterLock(tk: Task): Task {
    match tk
    case Submit(s) => Submit(s.(pc := if s.pc.WantOffering? then SubmitPc.Inside else Check))
    case Publish(p) => Publish(p.(pc := if p.pc.WantPublish? then PublishPc.Opened else PublishPc.Inside))
    case Edit(e) =>
      Edit(if e.pc.WantPublish? then e.(pc := EditPc.Opened)
           else if e.pc.WantOffering? then e.(pc := EditPc.Inside)
           else e.(clean := e.clean.(at := Count)))
    case Remove(r) =>
      Remove(if r.pc.WantPublish? then r.(pc := RemovePc.Opened)
             else if r.pc.WantOffering? then r.(pc := RemovePc.Inside)
             else r.(clean := r.clean.(at := Count)))
    case Delete(d) =>
      Delete(if d.pc.WantOffering? then d.(pc := DeletePc.Inside) else d.(clean := d.clean.(at := Count)))
  }

  function AfterFree(tk: Task): Task {
    match tk
    case Submit(s) => Submit(s.(pc := if s.pc.FreeProblem? && s.target.Some? then SubmitPc.Leave else SubmitPc.Exit))
    case Publish(p) => Publish(p.(pc := if p.deploys && !p.failed then NextOffering else PublishPc.Exit))
    case Edit(e) => Edit(if e.pc.Cleaning? then e.(clean := e.clean.(at := Choose)) else e.(pc := EditPc.Exit))
    case Remove(r) =>
      Remove(if r.pc.Cleaning? then r.(clean := r.clean.(at := Choose)) else r.(pc := if r.failed then RemovePc.Exit else NextBatch))
    case Delete(d) => Delete(if d.pc.Cleaning? then d.(clean := d.clean.(at := Choose)) else d.(pc := DeletePc.Exit))
  }

  // ---------------------------------------------------------------- checks on documents

  function PidSet(pids: seq<nat>): set<nat> { set p | p in pids }

  predicate Keeps(items: seq<Item>, pid: nat) { exists it :: it in items && it.from == Some(pid) }

  /** The problems of a batch as its editor sees them. */
  function Originals(db: Db, bid: nat): set<nat> { LinkedPids(db, bid) * db.problems.Keys }

  /** Every kept problem is one of the originals, and occurs once in the document. */
  predicate ValidFrom(originals: set<nat>, items: seq<Item>) {
    && (forall k | 0 <= k < |items| && items[k].from.Some? :: items[k].from.value in originals)
    && (forall k, m | 0 <= k < m < |items| && items[k].from.Some? :: items[k].from != items[m].from)
  }

  predicate DistinctSlugs(items: seq<Item>) {
    forall k, m | 0 <= k < m < |items| :: items[k].slug != items[m].slug
  }

  /** `check_publishable`: no problem comes without tests. */
  predicate AllTested(items: seq<Item>) { forall it | it in items :: it.tests != [] }

  /** The document says of this problem what its row and tests say already. */
  predicate SameContent(db: Db, it: Item) {
    && it.from.Some? && it.from.value in db.problems && it.from.value in db.tests
    && db.problems[it.from.value].content == it.content
    && db.tests[it.from.value] == it.tests
  }

  function Unchanged(db: Db, items: seq<Item>): set<nat> {
    set it | it in items && SameContent(db, it) :: it.from.value
  }

  /** The submissions of the problem a changed one replaces. */
  function Movers(subs: map<nat, nat>, from: Option<nat>): set<nat> { set s | s in subs && from == Some(subs[s]) }

  function Dropped(subs: map<nat, nat>, items: seq<Item>): set<nat> { set s | s in subs && !Keeps(items, subs[s]) }

  function SolutionPids(db: Db, bid: nat): map<nat, nat> {
    map s | s in BatchSids(db, bid) && s in db.solutions :: db.solutions[s].pid
  }

  /** The batches published from a draft, or deployed from it. */
  function DraftBids(db: Db, outer: Option<nat>): set<nat> {
    set b | b in db.batches && (db.batches[b].key == outer || db.batches[b].library == outer)
  }

  /** The draft is there, has an offering, and has not been published. */
  ghost predicate Publishable(db: Db, key: nat) {
    && key in db.drafts && db.drafts[key].oid.Some?
    && !(db.drafts[key].published && db.drafts[key].batch.Some?)
  }

  // ---------------------------------------------------------------- the steps between locks

  // For every part and every kind of request: what it does next, and which statement it issues.

  /** `sync_problem`: find or insert the row by its source, then clear and rewrite the tests. */
  ghost function SyncNext(db: Db, y: Sync): (n: Sync)
    requires y.i < |y.items|
    ensures n == y.(at := n.at, j := n.j, found := n.found, pid := n.pid)
  {
    if y.at.Lookup? then y.(at := Row, found := FindSource(db, Authored(y.key, y.items[y.i].slug)))
    else if y.at.Row? then y.(at := Clear, pid := if y.found.Some? then y.found.value else db.nextPid)
    else if y.at.Clear? then y.(at := Tests, j := 0)
    else if y.j < |y.items[y.i].tests| then y.(j := y.j + 1)
    else y
  }

  function SyncStmt(y: Sync): Stmt
    requires y.i < |y.items|
  {
    var it := y.items[y.i];
    if y.at.Row? then
      if y.found.Some? then SetProblem(y.found.value, it.content, it.tests)
      else PutProblem(Authored(y.key, it.slug), it.content, it.tests)
    else if y.at.Clear? then EmptyTests(y.pid)
    else if y.at.Tests? && y.j < |it.tests| then PutTest(y.pid, it.tests[y.j])
    else Skip
  }

  /** The problems in the order of the document, each with its score there. */
  function SlotsOf(pids: seq<nat>, items: seq<Item>): (slots: seq<Slot>)
    requires |pids| == |items|
    ensures |slots| == |pids| && forall k | 0 <= k < |slots| :: slots[k] == Slot(pids[k], items[k].score)
  {
    seq(|pids|, k requires 0 <= k < |pids| => Slot(pids[k], items[k].score))
  }

  /** The document as links: every problem with its score, in order. */
  function Slots(y: Sync): (slots: seq<Slot>)
    requires |y.pids| == |y.items|
    ensures |slots| == |y.pids| && forall k | 0 <= k < |slots| :: slots[k] == Slot(y.pids[k], y.items[k].score)
    ensures forall x | x in slots :: x.pid in y.pids
  {
    SlotsOf(y.pids, y.items)
  }

  /** All tests of the current problem are on disk. */
  predicate SyncedTests(y: Sync) { y.at.Tests? && y.i < |y.items| && y.j == |y.items[y.i].tests| }

  function Synced(y: Sync, pid: nat): Sync { y.(at := Lookup, pids := y.pids + [pid], i := y.i + 1) }

  /** The cleanup of one problem: authored and used by nobody, it is erased, otherwise it is tallied. */
  ghost function CleanNext(db: Db, c: Clean, used: bool): Clean {
    if c.at.Count? then
      c.(at := if !used && c.cur in db.problems && db.problems[c.cur].source.Authored? then Wipe else Tally)
    else if c.at.Wipe? then c.(at := Erase)
    else if c.at.Erase? || c.at.Tally? then c.(at := Free)
    else c
  }

  function CleanStmt(c: Clean): Stmt {
    if c.at.Wipe? then DropTests(c.cur)
    else if c.at.Erase? then DropProblem(c.cur)
    else if c.at.Tally? then TallyProblem(c.cur)
    else Skip
  }

  function Chosen(c: Clean, pick: nat): Clean { c.(at := Want, cur := pick, todo := c.todo - {pick}) }

  function PurgeNext(g: Purge): Purge {
    if g.at.DropCode? then g.(at := DropUserCode) else g.(at := DropSolutions)
  }

  function PurgeStmt(g: Purge): Stmt {
    if g.at.DropCode? then DropCodes(g.doomed)
    else if g.at.DropUserCode? then DropUserCodes(g.doomed)
    else DropSolutionRows(g.doomed)
  }

  /** Submitting: check and place under the problem lock, release only when everything is stored. */
  ghost function SubmitNext(db: Db, s: SubmitTask): SubmitTask {
    if s.pc.Inside? then s.(pc := if Accepting(db, s) then WantProblem else SubmitPc.Leave, bp := LinkFor(db, s))
    else if s.pc.Check? then s.(pc := if s.cur in db.problems && db.problems[s.cur].visible then Place else FreeProblem)
    else if s.pc.Place? then s.(pc := if s.target.None? then SaveCode else Assign, sid := db.nextSid)
    else if s.pc.Assign? then s.(pc := SaveCode)
    else if s.pc.SaveCode? then s.(pc := SaveUserCode)
    else if s.pc.SaveUserCode? then s.(pc := Release)
    else if s.pc.Release? then s.(pc := if s.target.None? then FreeProblem else Promoting)
    else if s.pc.Promoting? then s.(pc := FreeProblem)
    else s
  }

  /** The batch takes submissions to this problem. */
  ghost predicate Accepting(db: Db, s: SubmitTask) {
    && s.target.Some? && s.target.value in db.batches && OpenOffering(db, s.oid)
    && db.batches[s.target.value].status == Published
    && Linked(db, s.target.value, s.cur) && s.cur in db.problems && db.problems[s.cur].visible
  }

  ghost function LinkFor(db: Db, s: SubmitTask): nat {
    if s.target.Some? && Linked(db, s.target.value, s.cur) then LinkOf(db, s.target.value, s.cur) else s.bp
  }

  function SubmitStmt(s: SubmitTask): Stmt {
    if s.pc.Place? then PutSolution(s.cur, s.user, s.target.Some?)
    else if s.pc.Assign? && s.target.Some? then PutSubmission(s.sid, s.oid, s.target.value, s.bp, s.user)
    else if s.pc.SaveCode? then PutCode(s.sid)
    else if s.pc.SaveUserCode? then PutUserCode(s.sid)
    else if s.pc.Release? then ReleaseRows({s.sid})
    else if s.pc.Promoting? then MarkPromoted(s.sid)
    else Skip
  }

  /** Publishing: batch first, then rows and tests, then visibility, then the links in one transaction. */
  ghost function PublishNext(db: Db, p: PublishTask): PublishTask {
    if p.pc.Opened? then
      if p.deploys then p.(pc := NextOffering)
      else if p.outer.None? || !Publishable(db, p.outer.value) then p.(pc := PublishPc.Exit)
      else p.(pc := PublishPc.WantOffering, oid := db.drafts[p.outer.value].oid.value, sync := Restart(p.sync, p.outer.value))
    else if p.pc.NextOffering? then
      if !p.deploys || p.oids == [] then p.(pc := PublishPc.Exit)
      else p.(pc := PublishPc.WantOffering, oid := p.oids[0], oids := p.oids[1..], sync := Restart(p.sync, db.nextKey))
    else if p.pc.Inside? then
      if ActiveOffering(db, p.oid) then p.(pc := Ensure) else p.(pc := PublishPc.Leave, failed := true)
    else if p.pc.Ensure? then
      p.(pc := PublishPc.NextItem, bid := if KeyUsed(db, p.sync.key) then BatchOf(db, p.sync.key) else db.nextBid)
    else if p.pc.NextItem? then p.(pc := if p.sync.i < |p.sync.items| then PublishPc.Writing else Hide, sync := p.sync.(at := Lookup))
    else if p.pc.Writing? then
      if SyncedTests(p.sync) then p.(pc := PublishPc.NextItem, sync := Synced(p.sync, p.sync.pid))
      else if p.sync.i < |p.sync.items| then p.(sync := SyncNext(db, p.sync))
      else p
    else if p.pc.Hide? then p.(pc := ShowAll)
    else if p.pc.ShowAll? then p.(pc := PublishPc.Commit)
    else if p.pc.Commit? then
      p.(pc := PublishPc.Leave, failed := !(|p.sync.pids| == |p.sync.items| && ActiveOffering(db, p.oid) && p.sync.key in db.drafts))
    else p
  }

  function Restart(y: Sync, key: nat): Sync { y.(at := Lookup, key := key, i := 0, pids := []) }

  function PublishStmt(p: PublishTask): Stmt {
    if p.pc.NextOffering? && p.deploys && p.oids != [] then PutDraft(Some(p.oids[0]))
    else if p.pc.Ensure? then PutBatch(p.oid, p.sync.key, if p.deploys then p.outer else None)
    else if p.pc.Writing? && p.sync.i < |p.sync.items| then SyncStmt(p.sync)
    else if p.pc.Hide? then HideStale(p.sync.key, PidSet(p.sync.pids))
    else if p.pc.ShowAll? then ShowAllOf(PidSet(p.sync.pids))
    else if p.pc.Commit? && |p.sync.pids| == |p.sync.items| then PublishTx(p.oid, p.bid, p.sync.key, Slots(p.sync))
    else Skip
  }

  /** Editing: changed problems become fresh ones, to which their submissions move before the links do. */
  ghost function EditNext(db: Db, e: EditTask, pick: nat): EditTask {
    if e.pc.Opened? then
      if Editable(db, e.outer) then
        var bid := db.drafts[e.outer.value].batch.value;
        e.(pc := EditPc.WantOffering, bid := bid, oid := db.batches[bid].oid, status := db.batches[bid].status)
      else e.(pc := EditPc.Exit)
    else if e.pc.Inside? then
      if Revisable(db, e) then Revised(db, e) else e.(pc := EditPc.Leave)
    else if e.pc.Close? then e.(pc := EditPc.NextItem)
    else if e.pc.NextItem? then
      if e.sync.i >= |e.sync.items| then e.(pc := EditPc.Purging, purge := e.purge.(at := DropCode))
      else if e.sync.items[e.sync.i].from.Some? && e.sync.items[e.sync.i].from.value in e.same
      then e.(sync := Synced(e.sync, e.sync.items[e.sync.i].from.value))
      else e.(pc := EditPc.Writing, sync := e.sync.(at := Lookup))
    else if e.pc.Writing? then
      if SyncedTests(e.sync) then e.(pc := Repointing, moves := Movers(e.subs, e.sync.items[e.sync.i].from))
      else if e.sync.i < |e.sync.items| then e.(sync := SyncNext(db, e.sync))
      else e
    else if e.pc.Repointing? then
      if e.moves == {} then e.(pc := Reveal) else e.(moves := e.moves - {pick}, rejudge := e.rejudge + {pick})
    else if e.pc.Reveal? then e.(pc := EditPc.NextItem, sync := Synced(e.sync, e.sync.pid))
    else if e.pc.Purging? then
      if e.purge.at.DropSolutions? then e.(pc := EditPc.Commit) else e.(purge := PurgeNext(e.purge))
    else if e.pc.Commit? && |e.sync.pids| == |e.sync.items| then e.(pc := EditPc.Cleaning, clean := e.clean.(at := Choose))
    else if e.pc.Cleaning? then
      if !e.clean.at.Choose? then e.(clean := CleanNext(db, e.clean, Referenced(db, e.clean.cur)))
      else if e.clean.todo != {} then e.(clean := Chosen(e.clean, pick))
      else e.(pc := if e.second then EditPc.Leave else Rejudge)
    else if e.pc.Rejudge? then e.(pc := EditPc.Cleaning, second := true, clean := Clean(Choose, 0, PidSet(e.sync.pids)))
    else e
  }

  /** The draft has been published, and its batch is there. */
  ghost predicate Editable(db: Db, outer: Option<nat>) {
    && outer.Some? && outer.value in db.drafts && db.drafts[outer.value].published
    && db.drafts[outer.value].batch.Some? && db.drafts[outer.value].batch.value in db.batches
  }

  /** The batch is open to changes, idle, and the problems the document keeps are its own. */
  ghost predicate Revisable(db: Db, e: EditTask) {
    && e.bid in db.batches && OpenOffering(db, e.oid) && Idle(db, BatchSids(db, e.bid))
    && Originals(db, e.bid) != {} && ValidFrom(Originals(db, e.bid), e.sync.items)
  }

  ghost function Revised(db: Db, e: EditTask): EditTask {
    e.(pc := EditPc.Close, sync := Restart(e.sync, db.nextKey), subs := SolutionPids(db, e.bid),
       purge := Purge(DropCode, Dropped(SolutionPids(db, e.bid), e.sync.items)),
       same := Unchanged(db, e.sync.items), moves := {}, rejudge := {}, clean := Clean(Choose, 0, Originals(db, e.bid)))
  }

  /** Drawing the fresh revision key is what opening an edit does to the databases. */
  ghost function EditStmt(db: Db, e: EditTask, pick: nat): Stmt {
    if e.pc.Inside? && Revisable(db, e) then DrawKey
    else if e.pc.Close? then SetStatus(e.bid, Closed)
    else if e.pc.Writing? && e.sync.i < |e.sync.items| then SyncStmt(e.sync)
    else if e.pc.Repointing? && e.moves != {} then MoveSolution(pick, e.sync.pid)
    else if e.pc.Reveal? then ShowAllOf({e.sync.pid})
    else if e.pc.Purging? then PurgeStmt(e.purge)
    else if e.pc.Commit? && |e.sync.pids| == |e.sync.items| then EditTx(e.bid, e.purge.doomed, Slots(e.sync), e.status)
    else if e.pc.Cleaning? then CleanStmt(e.clean)
    else if e.pc.Rejudge? then ReleaseRows(e.rejudge)
    else Skip
  }

  /** Removing assignments. */
  ghost function RemoveNext(db: Db, r: RemoveTask, pick: nat): RemoveTask {
    if r.pc.Opened? then
      if r.outer.Some? && r.outer.value in db.drafts && forall b | b in DraftBids(db, r.outer) :: Idle(db, BatchSids(db, b))
      then r.(pc := NextBatch, bids := DraftBids(db, r.outer))
      else r.(pc := RemovePc.Exit)
    else if r.pc.NextBatch? then
      if r.bids == {} then r.(pc := if r.outer.Some? then DropDraft else RemovePc.Exit)
      else if pick in db.batches
      then r.(pc := RemovePc.WantOffering, bid := pick, oid := db.batches[pick].oid, bids := r.bids - {pick})
      else r.(pc := RemovePc.Exit)
    else if r.pc.Inside? then
      if r.bid in db.batches && OpenOffering(db, r.oid) && Idle(db, BatchSids(db, r.bid))
      then r.(pc := RemovePc.Close, purge := Purge(DropCode, BatchSids(db, r.bid)), clean := Clean(Choose, 0, LinkedPids(db, r.bid)))
      else r.(pc := RemovePc.Leave, failed := true)
    else if r.pc.Close? then r.(pc := RemovePc.Purging, purge := r.purge.(at := DropCode))
    else if r.pc.Purging? then
      if r.purge.at.DropSolutions? then r.(pc := RemovePc.Commit) else r.(purge := PurgeNext(r.purge))
    else if r.pc.Commit? then r.(pc := RemovePc.Cleaning, clean := r.clean.(at := Choose))
    else if r.pc.Cleaning? then
      if !r.clean.at.Choose? then r.(clean := CleanNext(db, r.clean, Referenced(db, r.clean.cur)))
      else if r.clean.todo != {} then r.(clean := Chosen(r.clean, pick))
      else r.(pc := RemovePc.Leave)
    else if r.pc.DropDraft? then r.(pc := RemovePc.Exit)
    else r
  }

  function RemoveStmt(r: RemoveTask): Stmt {
    if r.pc.Close? then SetStatus(r.bid, Closed)
    else if r.pc.Purging? then PurgeStmt(r.purge)
    else if r.pc.Commit? then RemoveTx(r.bid)
    else if r.pc.Cleaning? then CleanStmt(r.clean)
    else if r.pc.DropDraft? && r.outer.Some? then DropDraftRow(r.outer.value)
    else Skip
  }

  /** Deleting a course: archived first, judge rows next, the course rows last in one transaction. */
  ghost function DeleteNext(db: Db, d: DeleteTask, pick: nat): DeleteTask {
    if d.pc.Inside? then
      if d.oid in db.offerings && Idle(db, OfferingSids(db, d.oid))
      then d.(pc := DeletePc.Close, course := db.offerings[d.oid].course, purge := Purge(DropCode, OfferingSids(db, d.oid)),
              clean := Clean(Choose, 0, OfferingPids(db, d.oid) + StagedPids(db, d.oid)))
      else d.(pc := DeletePc.Leave)
    else if d.pc.Close? then d.(pc := DeletePc.Purging, purge := d.purge.(at := DropCode))
    else if d.pc.Purging? then
      if d.purge.at.DropSolutions? then d.(pc := DeletePc.Cleaning, clean := d.clean.(at := Choose)) else d.(purge := PurgeNext(d.purge))
    else if d.pc.Cleaning? then
      if !d.clean.at.Choose? then d.(clean := CleanNext(db, d.clean, Shared(db, d.clean.cur, d.oid, d.course)))
      else if d.clean.todo != {} then d.(clean := Chosen(d.clean, pick))
      else d.(pc := DeletePc.Commit)
    else if d.pc.Commit? then d.(pc := DeletePc.Leave)
    else d
  }

  function DeleteStmt(d: DeleteTask): Stmt {
    if d.pc.Close? then ArchiveRow(d.oid)
    else if d.pc.Purging? then PurgeStmt(d.purge)
    else if d.pc.Cleaning? then CleanStmt(d.clean)
    else if d.pc.Commit? then DeleteTx(d.oid, d.course)
    else Skip
  }

  ghost function Next(db: Db, tk: Task, pick: nat): Task {
    match tk
    case Submit(s) => Submit(SubmitNext(db, s))
    case Publish(p) => Publish(PublishNext(db, p))
    case Edit(e) => Edit(EditNext(db, e, pick))
    case Remove(r) => Remove(RemoveNext(db, r, pick))
    case Delete(d) => Delete(DeleteNext(db, d, pick))
  }

  ghost function StmtOf(db: Db, tk: Task, pick: nat): Stmt {
    match tk
    case Submit(s) => SubmitStmt(s)
    case Publish(p) => PublishStmt(p)
    case Edit(e) => EditStmt(db, e, pick)
    case Remove(r) => RemoveStmt(r)
    case Delete(d) => DeleteStmt(d)
  }

  // ---------------------------------------------------------------- the machine

  /** The requests a client may send. */
  datatype Job =
    | Practise(pid: nat, user: string)
    | Hand(bid: nat, pid: nat, user: string)
    | PublishDraft(key: nat, items: seq<Item>)
    | Deploy(library: Option<nat>, oids: seq<nat>, items: seq<Item>)
    | EditBatch(bid: nat, items: seq<Item>)
    | EditDraft(key: nat, items: seq<Item>)
    | RemoveBatch(bid: nat)
    | RemoveDraft(key: nat)
    | DeleteCourse(oid: nat)

  datatype Action =
    | Start(job: Job)
    | Step(tid: nat, pick: nat)
    | Stop(tid: nat)
    | Verdict(sid: nat, result: nat)
    | NewDraft(oid: Option<nat>)

  const NO_PURGE := Purge(DropCode, {})
  const NO_CLEAN := Clean(Choose, 0, {})

  function NoSync(items: seq<Item>): Sync { Sync(Lookup, 0, items, 0, 0, None, 0, []) }

  /** What a request needs to be taken on: a checked document, and the batch it names. */
  ghost predicate Acceptable(db: Db, job: Job) {
    && ((job.PublishDraft? || job.Deploy? || job.EditBatch? || job.EditDraft?) ==> DistinctSlugs(job.items) && AllTested(job.items))
    && ((job.Hand? || job.EditBatch? || job.RemoveBatch?) ==> job.bid in db.batches)
  }

  ghost function Fresh(db: Db, job: Job): Task
    requires Acceptable(db, job)
  {
    match job
    case Practise(pid, user) => Submit(SubmitTask(WantProblem, 0, pid, None, user, 0, 0))
    case Hand(bid, pid, user) => Submit(SubmitTask(SubmitPc.WantOffering, db.batches[bid].oid, pid, Some(bid), user, 0, 0))
    case PublishDraft(key, items) =>
      Publish(PublishTask(PublishPc.WantPublish, false, 0, Some(key), false, [], 0, NoSync(items)))
    case Deploy(library, oids, items) =>
      Publish(PublishTask(if library.Some? then PublishPc.WantPublish else NextOffering, false, 0, library, true, oids, 0, NoSync(items)))
    case EditBatch(bid, items) =>
      var b := db.batches[bid];
      Edit(EditTask(EditPc.WantOffering, b.oid, None, bid, b.status, NoSync(items), map[], {}, {}, {}, NO_PURGE, NO_CLEAN, false))
    case EditDraft(key, items) =>
      Edit(EditTask(EditPc.WantPublish, 0, Some(key), 0, Staged, NoSync(items), map[], {}, {}, {}, NO_PURGE, NO_CLEAN, false))
    case RemoveBatch(bid) => Remove(RemoveTask(RemovePc.WantOffering, false, db.batches[bid].oid, None, {}, bid, NO_PURGE, NO_CLEAN))
    case RemoveDraft(key) => Remove(RemoveTask(RemovePc.WantPublish, false, 0, Some(key), {}, 0, NO_PURGE, NO_CLEAN))
    case DeleteCourse(oid) => Delete(DeleteTask(DeletePc.WantOffering, oid, 0, NO_PURGE, NO_CLEAN))
  }

  predicate CleanPicks(c: Clean, pick: nat) { c.at.Choose? && c.todo != {} ==> pick in c.todo }

  /** `pick` is one of the rows the loop of the request has left. */
  predicate Picks(tk: Task, pick: nat) {
    match tk
    case Submit(s) => true
    case Publish(p) => true
    case Edit(e) => (e.pc.Repointing? && e.moves != {} ==> pick in e.moves) && (e.pc.Cleaning? ==> CleanPicks(e.clean, pick))
    case Remove(r) => (r.pc.NextBatch? && r.bids != {} ==> pick in r.bids) && (r.pc.Cleaning? ==> CleanPicks(r.clean, pick))
    case Delete(d) => d.pc.Cleaning? ==> CleanPicks(d.clean, pick)
  }

  /** The next step of request `t` is not waiting for a lock. */
  ghost predicate Ready(w: World, t: nat, pick: nat) {
    && t in w.tasks
    && (Wants(w.tasks[t]).Some? ==> Wants(w.tasks[t]).value !in w.locks)
    && Picks(w.tasks[t], pick)
  }

  ghost predicate Enabled(w: World, a: Action) {
    match a
    case Start(job) => Acceptable(w.db, job)
    case Step(t, pick) => Ready(w, t, pick)
    case Stop(t) => t in w.tasks
    case Verdict(sid, result) => sid in w.db.solutions && w.db.solutions[sid].result <= 3 && 2 <= result <= 13
    case NewDraft(oid) => true
  }

  ghost function Advance(w: World, t: nat, pick: nat): World
    requires t in w.tasks
  {
    var tk := w.tasks[t];
    if Wants(tk).Some? then
      w.(locks := w.locks[Wants(tk).value := t], tasks := w.tasks[t := AfterLock(tk)])
    else if PhaseOf(tk).Ending? then
      w.(locks := if Frees(tk).Some? then w.locks - {Frees(tk).value} else w.locks, tasks := w.tasks - {t})
    else if Frees(tk).Some? then
      w.(locks := w.locks - {Frees(tk).value}, tasks := w.tasks[t := AfterFree(tk)])
    else
      var next := Next(w.db, tk, pick);
      w.(db := Exec(w.db, StmtOf(w.db, tk, pick)), tasks := w.tasks[t := next],
         revisions := RevisionsAfter(w.revisions, t, tk, next), dying := DyingAfter(w.dying, t, StmtOf(w.db, tk, pick)))
  }

  function RevisionsAfter(revisions: map<nat, nat>, t: nat, tk: Task, next: Task): map<nat, nat> {
    if tk.Edit? && next.Edit? && tk.e.pc.Inside? && next.e.pc.Close? then revisions[next.e.sync.key := t]
    else if tk.Edit? && next.Edit? && tk.e.pc.Commit? && next.e.pc.Cleaning? then revisions - {next.e.sync.key}
    else revisions
  }

  function DyingAfter(dying: map<nat, nat>, t: nat, st: Stmt): map<nat, nat> {
    if st.DropCodes? then map s | s in dying.Keys + st.sids :: if s in st.sids then t else dying[s]
    else if st.DropSolutionRows? then dying - st.sids
    else dying
  }

  /** The solutions a request leaves without source if it stops here. */
  function Tearing(dying: map<nat, nat>, t: nat): set<nat> { set s | s in dying && dying[s] == t }

  ghost function Act(w: World, a: Action): World
    requires Enabled(w, a)
  {
    match a
    case Start(job) => w.(tasks := w.tasks[w.nextTid := Fresh(w.db, job)], nextTid := w.nextTid + 1)
    case Step(t, pick) => Advance(w, t, pick)
    case Stop(t) =>
      w.(tasks := w.tasks - {t},
         locks := map l | l in w.locks && w.locks[l] != t :: w.locks[l],
         dying := w.dying - Tearing(w.dying, t),
         torn := w.torn + Tearing(w.dying, t))
    case Verdict(sid, result) =>
      w.(db := w.db.(solutions := w.db.solutions[sid := w.db.solutions[sid].(result := result)]))
    case NewDraft(oid) => w.(db := InsertDraft(w.db, oid))
  }

  /** One action of the machine. */
  ghost predicate Moves(w: World, v: World) {
    exists a :: Enabled(w, a) && v == Act(w, a)
  }

  /** No request is in flight. */
  ghost predicate AtRest(w: World) {
    w.tasks == map[] && w.locks == map[] && w.revisions == map[] && w.dying == map[] && w.torn == {}
  }

  /** Requests come, interleave, stop and crash. */
  ghost predicate IsPath(path: seq<World>) {
    path != [] && forall i | 0 <= i < |path| - 1 :: Moves(path[i], path[i + 1])
  }

  /** Every run starts with no request in flight. */
  ghost predicate IsRun(run: seq<World>) { IsPath(run) && AtRest(run[0]) }
}
