/**
 The rows of the course database and of the judge database, and the statements the backend issues
 against them, each as a function of both databases. The four transactions are one function
 each, because nothing they do can be seen before they commit.
 */
module Tables {
  import opened Values

  datatype Case = Case(input: string, output: string)

  datatype OfferingStatus = Preparing | Active | Archived
  datatype Offering = Offering(course: nat, status: OfferingStatus)
  datatype BatchStatus = Staged | Published | Closed

  /** `key` is the unique authoring key; `library` the personal problem set it was deployed from. */
  datatype Batch = Batch(oid: nat, seqNo: nat, status: BatchStatus, key: Option<nat>, library: Option<nat>)

  /** One row of cm_batch_problem. Scores are hundredths. */
  datatype Link = Link(bid: nat, pid: nat, seqNo: nat, score: nat)

  /** A problem and its score, at its place in a document. */
  datatype Slot = Slot(pid: nat, score: nat)

  datatype Submission = Submission(oid: nat, bid: nat, bp: nat, user: string, promoted: bool)

  /** A draft without an offering belongs to a teacher's personal library. */
  datatype Draft = Draft(oid: Option<nat>, published: bool, batch: Option<nat>)

  datatype Tag = Tag(pid: nat, course: nat)

  /** jol.problem.source: `codemind:authoring/<key>/<slug>`, or anything else. */
  datatype Source = Authored(key: nat, slug: string) | Foreign(text: string)

  /**
   `content` stands for title, statement, first sample and knowledge. `wants` is not a column:
   it is the test list of the document last written into the row, so that "all tests of the
   problem are on disk" can be said.
   */
  datatype Problem = Problem(source: Source, content: string, wants: seq<Case>, visible: bool, submit: nat, accepted: nat)

  /** `course` is not a column: it records that the row was placed for an assignment. */
  datatype Solution = Solution(pid: nat, user: string, result: nat, course: bool)
  datatype User = User(submit: nat, solved: nat)

  /**
   Both databases and the test directory. The counters are the AUTO_INCREMENT columns, which
   never go back; `nextKey` stands for the supply of fresh UUIDs and `home` records the
   offering every draft key was made for.
   */
  datatype Db = Db(
    courses: set<nat>, offerings: map<nat, Offering>, enrolled: set<(nat, string)>, batches: map<nat, Batch>,
    links: map<nat, Link>, submissions: map<nat, Submission>, drafts: map<nat, Draft>, tags: map<nat, Tag>,
    problems: map<nat, Problem>, tests: map<nat, seq<Case>>, solutions: map<nat, Solution>,
    code: set<nat>, userCode: set<nat>, users: map<string, User>,
    nextBid: nat, nextBp: nat, nextPid: nat, nextSid: nat, nextKey: nat, home: map<nat, Option<nat>>)

  // ---------------------------------------------------------------- result codes

  const ACCEPTED: nat := 4
  const SAVING: nat := 14

  /** Waiting, waiting for a rejudge, compiling, running, or still being saved. */
  predicate Running(result: nat) { result <= 3 || result == SAVING }

  /** The judge polls for results 0 and 1 only. */
  predicate Queued(result: nat) { result <= 1 }

  // ---------------------------------------------------------------- queries

  predicate HasKey(p: Problem, key: nat) { p.source.Authored? && p.source.key == key }

  predicate Linked(db: Db, bid: nat, pid: nat) {
    exists bp :: bp in db.links && db.links[bp].bid == bid && db.links[bp].pid == pid
  }

  predicate LinkedAnywhere(db: Db, pid: nat) {
    exists bp :: bp in db.links && db.links[bp].pid == pid
  }

  predicate Solved(db: Db, pid: nat) {
    exists s :: s in db.solutions && db.solutions[s].pid == pid
  }

  /** The three counts of `clean_problem`: links, solutions and knowledge tags. */
  predicate Referenced(db: Db, pid: nat) {
    || LinkedAnywhere(db, pid)
    || Solved(db, pid)
    || exists k :: k in db.tags && db.tags[k].pid == pid
  }

  /** The three counts of the course deletion: links of other offerings, solutions, tags of other courses. */
  predicate Shared(db: Db, pid: nat, oid: nat, course: nat) {
    || (exists bp :: bp in db.links && db.links[bp].pid == pid
          && db.links[bp].bid in db.batches && db.batches[db.links[bp].bid].oid != oid)
    || Solved(db, pid)
    || exists k :: k in db.tags && db.tags[k].pid == pid && db.tags[k].course != course
  }

  /** The two rows differ in their counters at most. */
  predicate SameButCounts(a: Problem, b: Problem) { a.(submit := b.submit, accepted := b.accepted) == b }

  /** No two rows carry the same authored source. */
  predicate OneRowEach(db: Db) {
    forall p, q :: p in db.problems && q in db.problems && SameSource(db, p, q) ==> p == q
  }

  predicate SameSource(db: Db, p: nat, q: nat)
    requires p in db.problems && q in db.problems
  {
    db.problems[p].source.Authored? && db.problems[p].source == db.problems[q].source
  }

  function LinkedPids(db: Db, bid: nat): set<nat> {
    set bp | bp in db.links && db.links[bp].bid == bid :: db.links[bp].pid
  }

  function BatchSids(db: Db, bid: nat): set<nat> {
    set s | s in db.submissions && db.submissions[s].bid == bid
  }

  function OfferingSids(db: Db, oid: nat): set<nat> {
    set s | s in db.submissions && db.submissions[s].oid == oid
  }

  function OfferingPids(db: Db, oid: nat): set<nat> {
    set bp | bp in db.links && db.links[bp].bid in db.batches && db.batches[db.links[bp].bid].oid == oid :: db.links[bp].pid
  }

  /** Authored problems of the offering's drafts or batches, linked or not. */
  function StagedPids(db: Db, oid: nat): set<nat> {
    set p | p in db.problems && db.problems[p].source.Authored? && StagedKey(db, oid, db.problems[p].source.key)
  }

  predicate StagedKey(db: Db, oid: nat, key: nat) {
    || (key in db.drafts && db.drafts[key].oid == Some(oid))
    || exists b :: b in db.batches && db.batches[b].oid == oid && db.batches[b].key == Some(key)
  }

  /** `require_idle`: no submission of the set is still being saved or judged. */
  predicate Idle(db: Db, sids: set<nat>) {
    forall s | s in sids && s in db.solutions :: !Running(db.solutions[s].result)
  }

  predicate ActiveOffering(db: Db, oid: nat) {
    oid in db.offerings && db.offerings[oid].status == Active
  }

  /** `offering_access` with `need.write`. */
  predicate OpenOffering(db: Db, oid: nat) {
    oid in db.offerings && db.offerings[oid].status != Archived
  }

  predicate KeyUsed(db: Db, key: nat) {
    exists b :: b in db.batches && db.batches[b].key == Some(key)
  }

  /** The row a lookup by authoring key returns. */
  ghost function BatchOf(db: Db, key: nat): (b: nat)
    requires KeyUsed(db, key)
    ensures b in db.batches && db.batches[b].key == Some(key)
  {
    var b :| b in db.batches && db.batches[b].key == Some(key); b
  }

  ghost function FindSource(db: Db, source: Source): (found: Option<nat>)
    ensures found.Some? ==> found.value in db.problems && db.problems[found.value].source == source
    ensures found.None? ==> forall p :: p in db.problems ==> db.problems[p].source != source
  {
    if exists p :: p in db.problems && db.problems[p].source == source
    then var p :| p in db.problems && db.problems[p].source == source; Some(p)
    else None
  }

  /** COALESCE(MAX(...),0). */
  ghost function MaxOf(s: set<nat>): (m: nat)
    ensures forall x | x in s :: x <= m
    ensures s != {} ==> m in s
  {
    if s == {} then 0
    else
      var x :| x in s;
      var m := MaxOf(s - {x});
      assert s == s - {x} + {x};
      if m < x then x else m
  }

  ghost function NextSeq(db: Db, oid: nat): nat {
    MaxOf(set b | b in db.batches && db.batches[b].oid == oid :: db.batches[b].seqNo) + 1
  }

  // ---------------------------------------------------------------- statements: course database

  function WithStatus(db: Db, bid: nat, status: BatchStatus): (d: Db)
    ensures d == db.(batches := d.batches)
  {
    if bid in db.batches then db.(batches := db.batches[bid := db.batches[bid].(status := status)]) else db
  }

  function Archive(db: Db, oid: nat): (d: Db)
    ensures d == db.(offerings := d.offerings)
  {
    if oid in db.offerings then db.(offerings := db.offerings[oid := db.offerings[oid].(status := Archived)]) else db
  }

  /** A fresh draft, under the key `db.nextKey`. */
  function InsertDraft(db: Db, oid: Option<nat>): (d: Db)
    ensures d == db.(drafts := d.drafts, home := d.home, nextKey := d.nextKey)
  {
    db.(drafts := db.drafts[db.nextKey := Draft(oid, false, None)], home := db.home[db.nextKey := oid], nextKey := db.nextKey + 1)
  }

  /** The batch of an authoring key: found, or inserted unpublished at the end of the offering. */
  ghost function EnsureBatch(db: Db, oid: nat, key: nat, library: Option<nat>): (d: Db)
    ensures d == db.(batches := d.batches, nextBid := d.nextBid)
  {
    if KeyUsed(db, key) then db
    else db.(batches := db.batches[db.nextBid := Batch(oid, NextSeq(db, oid), Staged, Some(key), library)], nextBid := db.nextBid + 1)
  }

  ghost function InsertSubmission(db: Db, sid: nat, oid: nat, bid: nat, bp: nat, user: string): (d: Db)
    ensures d == db.(submissions := d.submissions)
  {
    db.(submissions := db.submissions[sid := Submission(oid, bid, bp, user, false)])
  }

  ghost function Promote(db: Db, sid: nat): (d: Db)
    ensures d == db.(submissions := d.submissions)
  {
    if sid in db.submissions then db.(submissions := db.submissions[sid := db.submissions[sid].(promoted := true)]) else db
  }

  /** The next `n` values of an AUTO_INCREMENT column. */
  function Ids(first: nat, n: nat): (ids: set<nat>)
    ensures forall l: nat :: l in ids <==> first <= l < first + n
  {
    if n == 0 then {} else Ids(first, n - 1) + {first + n - 1}
  }

  /** The rows of one INSERT: a link per problem, numbered from 1. */
  function Rows(first: nat, bid: nat, slots: seq<Slot>): map<nat, Link> {
    map l | l in Ids(first, |slots|) :: Link(bid, slots[l - first].pid, l - first + 1, slots[l - first].score)
  }

  /** Drop the links of the batch and insert one row per problem, in order. */
  function Relinked(db: Db, bid: nat, slots: seq<Slot>): (d: Db)
    ensures d == db.(links := d.links, nextBp := d.nextBp)
  {
    var kept := map l | l in db.links && db.links[l].bid != bid :: db.links[l];
    db.(links := kept + Rows(db.nextBp, bid, slots), nextBp := db.nextBp + |slots|)
  }

  ghost function LinkOf(db: Db, bid: nat, pid: nat): (bp: nat)
    requires Linked(db, bid, pid)
    ensures bp in db.links && db.links[bp].bid == bid && db.links[bp].pid == pid
  {
    var bp :| bp in db.links && db.links[bp].bid == bid && db.links[bp].pid == pid; bp
  }

  /** Point the batch's submissions at the link row of their solution's problem. */
  ghost function Repaired(db: Db, bid: nat): (d: Db)
    ensures d == db.(submissions := d.submissions)
  {
    db.(submissions := map s | s in db.submissions ::
      var sub := db.submissions[s];
      if sub.bid == bid && s in db.solutions && Linked(db, bid, db.solutions[s].pid)
      then sub.(bp := LinkOf(db, bid, db.solutions[s].pid))
      else sub)
  }

  /** The transaction of a publication: nothing, unless the offering is active and the draft still there. */
  ghost function CommitPublish(db: Db, oid: nat, bid: nat, key: nat, slots: seq<Slot>): (d: Db)
    ensures d == db.(links := d.links, nextBp := d.nextBp, batches := d.batches, drafts := d.drafts)
  {
    if ActiveOffering(db, oid) && key in db.drafts
    then WithStatus(Relinked(db, bid, slots), bid, Published)
         .(drafts := db.drafts[key := db.drafts[key].(published := true, batch := Some(bid))])
    else db
  }

  /** The transaction of an edit. */
  ghost function CommitEdit(db: Db, bid: nat, doomed: set<nat>, slots: seq<Slot>, status: BatchStatus): (d: Db)
    ensures d == db.(submissions := d.submissions, links := d.links, nextBp := d.nextBp, batches := d.batches)
  {
    WithStatus(Repaired(Relinked(db.(submissions := db.submissions - doomed), bid, slots), bid), bid, status)
  }

  predicate DraftOf(db: Db, bid: nat, key: nat)
    requires key in db.drafts
  {
    db.drafts[key].batch == Some(bid) || (bid in db.batches && db.batches[bid].key == Some(key))
  }

  /** The transaction of an assignment removal. */
  ghost function CommitRemove(db: Db, bid: nat): (d: Db)
    ensures d == db.(submissions := d.submissions, links := d.links, drafts := d.drafts, batches := d.batches)
  {
    var submissions := map s | s in db.submissions && db.submissions[s].bid != bid :: db.submissions[s];
    var links := map l | l in db.links && db.links[l].bid != bid :: db.links[l];
    var drafts := map k | k in db.drafts && !DraftOf(db, bid, k) :: db.drafts[k];
    db.(submissions := submissions, links := links, drafts := drafts, batches := db.batches - {bid})
  }

  predicate LinkOfOffering(db: Db, oid: nat, l: nat)
    requires l in db.links
  {
    db.links[l].bid in db.batches && db.batches[db.links[l].bid].oid == oid
  }

  /** Every course row of the offering. */
  function WithoutOffering(db: Db, oid: nat): (d: Db)
    ensures d == db.(submissions := d.submissions, links := d.links, drafts := d.drafts, batches := d.batches,
                     enrolled := d.enrolled, offerings := d.offerings)
  {
    var submissions := map s | s in db.submissions && db.submissions[s].oid != oid :: db.submissions[s];
    var links := map l | l in db.links && !LinkOfOffering(db, oid, l) :: db.links[l];
    var drafts := map k | k in db.drafts && db.drafts[k].oid != Some(oid) :: db.drafts[k];
    var batches := map b | b in db.batches && db.batches[b].oid != oid :: db.batches[b];
    var enrolled := set e | e in db.enrolled && e.0 != oid;
    db.(submissions := submissions, links := links, drafts := drafts, batches := batches, enrolled := enrolled, offerings := db.offerings - {oid})
  }

  function WithoutCourse(db: Db, course: nat): (d: Db)
    ensures d == db.(tags := d.tags, courses := d.courses)
  {
    var tags := map t | t in db.tags && db.tags[t].course != course :: db.tags[t];
    db.(tags := tags, courses := db.courses - {course})
  }

  predicate CourseUsed(db: Db, course: nat) {
    exists o :: o in db.offerings && db.offerings[o].course == course
  }

  /** The transaction of a course deletion; the course goes with its last offering. */
  function CommitDelete(db: Db, oid: nat, course: nat): (d: Db)
    ensures d == db.(submissions := d.submissions, links := d.links, drafts := d.drafts, batches := d.batches,
                     enrolled := d.enrolled, offerings := d.offerings, tags := d.tags, courses := d.courses)
  {
    var d := WithoutOffering(db, oid);
    if CourseUsed(d, course) then d else WithoutCourse(d, course)
  }

  // ---------------------------------------------------------------- statements: judge database and test files

  function InsertProblem(db: Db, source: Source, content: string, wants: seq<Case>): (d: Db)
    ensures d == db.(problems := d.problems, nextPid := d.nextPid)
  {
    db.(problems := db.problems[db.nextPid := Problem(source, content, wants, false, 0, 0)], nextPid := db.nextPid + 1)
  }

  function UpdateProblem(db: Db, pid: nat, content: string, wants: seq<Case>): (d: Db)
    ensures d == db.(problems := d.problems)
  {
    if pid in db.problems then db.(problems := db.problems[pid := db.problems[pid].(content := content, wants := wants)]) else db
  }

  function WriteTest(db: Db, pid: nat, test: Case): (d: Db)
    ensures d == db.(tests := d.tests)
  {
    db.(tests := db.tests[pid := (if pid in db.tests then db.tests[pid] else []) + [test]])
  }

  function HideOthers(db: Db, key: nat, keep: set<nat>): (d: Db)
    ensures d == db.(problems := d.problems)
  {
    db.(problems := map p | p in db.problems ::
      if HasKey(db.problems[p], key) && p !in keep then db.problems[p].(visible := false) else db.problems[p])
  }

  function Show(db: Db, pids: set<nat>): (d: Db)
    ensures d == db.(problems := d.problems)
  {
    db.(problems := map p | p in db.problems :: if p in pids then db.problems[p].(visible := true) else db.problems[p])
  }

  function InsertSolution(db: Db, pid: nat, user: string, course: bool): (d: Db)
    ensures d == db.(solutions := d.solutions, nextSid := d.nextSid)
  {
    db.(solutions := db.solutions[db.nextSid := Solution(pid, user, SAVING, course)], nextSid := db.nextSid + 1)
  }

  function Released(db: Db, sids: set<nat>): (d: Db)
    ensures d == db.(solutions := d.solutions)
  {
    db.(solutions := map s | s in db.solutions ::
      if s in sids && db.solutions[s].result == SAVING then db.solutions[s].(result := 0) else db.solutions[s])
  }

  function Repointed(db: Db, sid: nat, pid: nat): (d: Db)
    ensures d == db.(solutions := d.solutions)
  {
    if sid in db.solutions then db.(solutions := db.solutions[sid := db.solutions[sid].(pid := pid, result := SAVING)]) else db
  }

  function ProblemSubmits(db: Db, pid: nat): nat {
    |set s | s in db.solutions && db.solutions[s].pid == pid|
  }

  function ProblemAccepts(db: Db, pid: nat): nat {
    |set s | s in db.solutions && db.solutions[s].pid == pid && db.solutions[s].result == ACCEPTED|
  }

  function Tallied(db: Db, pid: nat): (d: Db)
    ensures d == db.(problems := d.problems)
  {
    if pid in db.problems
    then db.(problems := db.problems[pid := db.problems[pid].(submit := ProblemSubmits(db, pid), accepted := ProblemAccepts(db, pid))])
    else db
  }

  function UserSubmits(db: Db, user: string): nat {
    |set s | s in db.solutions && db.solutions[s].user == user && db.solutions[s].pid > 0|
  }

  function UserSolved(db: Db, user: string): nat {
    |set s | s in db.solutions && db.solutions[s].user == user && db.solutions[s].pid > 0
             && db.solutions[s].result == ACCEPTED :: db.solutions[s].pid|
  }

  function Recounted(db: Db, user: string): (d: Db)
    ensures d == db.(users := d.users)
  {
    if user in db.users then db.(users := db.users[user := User(UserSubmits(db, user), UserSolved(db, user))]) else db
  }

  // ---------------------------------------------------------------- statements as data

  /** Everything a request may do to the databases in one step. */
  datatype Stmt =
    | Skip
    // course database
    | PutDraft(owner: Option<nat>)
    | DrawKey
    | DropDraftRow(key: nat)
    | PutBatch(oid: nat, key: nat, library: Option<nat>)
    | SetStatus(bid: nat, status: BatchStatus)
    | ArchiveRow(oid: nat)
    | PutSubmission(sid: nat, oid: nat, bid: nat, bp: nat, user: string)
    | MarkPromoted(sid: nat)
    | PublishTx(oid: nat, bid: nat, key: nat, slots: seq<Slot>)
    | EditTx(bid: nat, doomed: set<nat>, slots: seq<Slot>, status: BatchStatus)
    | RemoveTx(bid: nat)
    | DeleteTx(oid: nat, course: nat)
    // judge database and test files
    | PutProblem(source: Source, content: string, wants: seq<Case>)
    | SetProblem(pid: nat, content: string, wants: seq<Case>)
    | EmptyTests(pid: nat)
    | PutTest(pid: nat, test: Case)
    | HideStale(key: nat, keep: set<nat>)
    | ShowAllOf(pids: set<nat>)
    | DropTests(pid: nat)
    | DropProblem(pid: nat)
    | TallyProblem(pid: nat)
    | PutSolution(pid: nat, user: string, handed: bool)
    | PutCode(sid: nat)
    | PutUserCode(sid: nat)
    | ReleaseRows(sids: set<nat>)
    | MoveSolution(sid: nat, pid: nat)
    | DropCodes(sids: set<nat>)
    | DropUserCodes(sids: set<nat>)
    | DropSolutionRows(sids: set<nat>)

  ghost function Exec(db: Db, st: Stmt): Db {
    match st
    case Skip => db
    case PutDraft(oid) => InsertDraft(db, oid)
    case DrawKey => db.(nextKey := db.nextKey + 1)
    case DropDraftRow(key) => db.(drafts := db.drafts - {key})
    case PutBatch(oid, key, library) => EnsureBatch(db, oid, key, library)
    case SetStatus(bid, status) => WithStatus(db, bid, status)
    case ArchiveRow(oid) => Archive(db, oid)
    case PutSubmission(sid, oid, bid, bp, user) => InsertSubmission(db, sid, oid, bid, bp, user)
    case MarkPromoted(sid) => Promote(db, sid)
    case PublishTx(oid, bid, key, slots) => CommitPublish(db, oid, bid, key, slots)
    case EditTx(bid, doomed, slots, status) => CommitEdit(db, bid, doomed, slots, status)
    case RemoveTx(bid) => CommitRemove(db, bid)
    case DeleteTx(oid, course) => CommitDelete(db, oid, course)
    case PutProblem(source, content, wants) => InsertProblem(db, source, content, wants)
    case SetProblem(pid, content, wants) => UpdateProblem(db, pid, content, wants)
    case EmptyTests(pid) => db.(tests := db.tests[pid := []])
    case PutTest(pid, test) => WriteTest(db, pid, test)
    case HideStale(key, keep) => HideOthers(db, key, keep)
    case ShowAllOf(pids) => Show(db, pids)
    case DropTests(pid) => db.(tests := db.tests - {pid})
    case DropProblem(pid) => db.(problems := db.problems - {pid})
    case TallyProblem(pid) => Tallied(db, pid)
    case PutSolution(pid, user, course) => InsertSolution(db, pid, user, course)
    case PutCode(sid) => db.(code := db.code + {sid})
    case PutUserCode(sid) => db.(userCode := db.userCode + {sid})
    case ReleaseRows(sids) => Released(db, sids)
    case MoveSolution(sid, pid) => Repointed(db, sid, pid)
    case DropCodes(sids) => db.(code := db.code - sids)
    case DropUserCodes(sids) => db.(userCode := db.userCode - sids)
    case DropSolutionRows(sids) => db.(solutions := db.solutions - sids)
  }

  /** The judge rows without these solutions. */
  function Purged(db: Db, sids: set<nat>): Db {
    db.(code := db.code - sids, userCode := db.userCode - sids, solutions := db.solutions - sids)
  }

  /** Statements on problem rows and test files. */
  predicate OnProblemRows(st: Stmt) {
    || st.PutProblem? || st.SetProblem? || st.EmptyTests? || st.PutTest? || st.HideStale? || st.ShowAllOf? || st.DropTests? || st.DropProblem?
    || st.TallyProblem?
  }

  /** Statements on solutions and their sources. */
  predicate OnSolutionRows(st: Stmt) {
    || st.PutSolution? || st.PutCode? || st.PutUserCode? || st.ReleaseRows? || st.MoveSolution? || st.DropCodes? || st.DropUserCodes?
    || st.DropSolutionRows?
  }

  /** Statements on the judge database and the test files. */
  predicate OnJudge(st: Stmt) { OnProblemRows(st) || OnSolutionRows(st) }

  lemma JudgeFrame(db: Db, st: Stmt)
    requires OnJudge(st)
    ensures var d := Exec(db, st);
      d == db.(problems := d.problems, tests := d.tests, nextPid := d.nextPid, solutions := d.solutions, nextSid := d.nextSid,
               code := d.code, userCode := d.userCode)
  {
    hide Exec, OnProblemRows, OnSolutionRows;
    if OnProblemRows(st) {
      ProblemsFrame(db, st);
    } else {
      SolutionsFrame(db, st);
    }
  }

  lemma ProblemsFrame(db: Db, st: Stmt)
    requires OnProblemRows(st)
    ensures var d := Exec(db, st); d == db.(problems := d.problems, tests := d.tests, nextPid := d.nextPid)
  {
    hide Exec;
    if st.EmptyTests? || st.PutTest? || st.DropTests? {
      TestsFrame(db, st);
    } else {
      RowsFrame(db, st);
    }
  }

  lemma TestsFrame(db: Db, st: Stmt)
    requires st.EmptyTests? || st.PutTest? || st.DropTests?
    ensures var d := Exec(db, st); d == db.(tests := d.tests)
  {
    hide WriteTest;
  }

  lemma RowsFrame(db: Db, st: Stmt)
    requires st.PutProblem? || st.SetProblem? || st.HideStale? || st.ShowAllOf? || st.DropProblem? || st.TallyProblem?
    ensures var d := Exec(db, st); d == db.(problems := d.problems, nextPid := d.nextPid)
  {
    hide InsertProblem, UpdateProblem, HideOthers, Show, Tallied;
  }

  lemma SolutionsFrame(db: Db, st: Stmt)
    requires OnSolutionRows(st)
    ensures var d := Exec(db, st); d == db.(solutions := d.solutions, nextSid := d.nextSid, code := d.code, userCode := d.userCode)
  {
    hide Exec;
    if st.PutSolution? || st.ReleaseRows? || st.MoveSolution? || st.DropSolutionRows? {
      SolutionRowsFrame(db, st);
    } else {
      CodeFrame(db, st);
    }
  }

  lemma SolutionRowsFrame(db: Db, st: Stmt)
    requires st.PutSolution? || st.ReleaseRows? || st.MoveSolution? || st.DropSolutionRows?
    ensures var d := Exec(db, st); d == db.(solutions := d.solutions, nextSid := d.nextSid)
  {
    hide InsertSolution, Released, Repointed;
  }

  lemma CodeFrame(db: Db, st: Stmt)
    requires st.PutCode? || st.PutUserCode? || st.DropCodes? || st.DropUserCodes?
    ensures var d := Exec(db, st); d == db.(code := d.code, userCode := d.userCode)
  {
  }
}
