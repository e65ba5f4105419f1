/**
 What students see: every link of an assignment in an offering that is not archived leads to a
 problem that exists, is visible and has its whole test list on disk, unless a publication starts on a
 draft whose problems are linked already.
 */
module Visibility {
  import opened Values
  import opened Tables
  import opened Machine
  import Integrity

  /** All tests of the problem are on disk. */
  predicate Tested(db: Db, x: nat) {
    x in db.problems && x in db.tests && db.tests[x] == db.problems[x].wants
  }

  predicate Presentable(db: Db, x: nat) { Tested(db, x) && db.problems[x].visible }

  /** The batch belongs to an offering that is not archived. */
  ghost predicate OpenBatch(db: Db, bid: nat) { bid in db.batches && OpenOffering(db, db.batches[bid].oid) }

  ghost predicate AllPresentable(db: Db) {
    forall l :: l in db.links && OpenBatch(db, db.links[l].bid) ==> Presentable(db, db.links[l].pid)
  }

  /** Students can open a problem that was written under the key. */
  ghost predicate Exposed(db: Db, key: nat) { exists l :: Exposes(db, key, l) }

  ghost predicate Exposes(db: Db, key: nat, l: nat) {
    l in db.links && OpenBatch(db, db.links[l].bid) && Carries(db, Some(key), db.links[l].pid)
  }

  /** A draft key of the offering, or a revision key nobody writes under any more. */
  ghost predicate Owned(db: Db, revisions: map<nat, nat>, oid: nat, key: nat) {
    if key in db.home then db.home[key] == Some(oid) else key !in revisions
  }

  /** What every linked problem is: written under an owned key, and a draft's only once it is published. */
  ghost predicate Settled(db: Db, revisions: map<nat, nat>, oid: nat, x: nat) {
    && x < db.nextPid
    && (x in db.problems && db.problems[x].source.Authored? ==>
          Owned(db, revisions, oid, db.problems[x].source.key) && !Publishable(db, db.problems[x].source.key))
  }

  ghost predicate LinksSettled(db: Db, revisions: map<nat, nat>) {
    forall l :: l in db.links ==> LinkSettled(db, revisions, l)
  }

  ghost predicate LinkSettled(db: Db, revisions: map<nat, nat>, l: nat)
    requires l in db.links
  {
    db.links[l].bid in db.batches && Settled(db, revisions, db.batches[db.links[l].bid].oid, db.links[l].pid)
  }

  ghost predicate RowsOk(db: Db) {
    && (forall b :: b in db.batches ==> b < db.nextBid)
    && (forall l :: l in db.links ==> l < db.nextBp && db.links[l].bid in db.batches)
  }

  ghost predicate HomesOk(db: Db) {
    && (forall k :: k in db.drafts ==> k in db.home && db.home[k] == db.drafts[k].oid)
    && (forall b :: b in db.batches && db.batches[b].key.Some? ==> InHome(db, db.batches[b].key.value, db.batches[b].oid))
  }

  predicate InHome(db: Db, key: nat, oid: nat) { key in db.home && db.home[key] == Some(oid) }

  // ---------------------------------------------------------------- what a step may do to others

  /** Another request at most shows the problem. */
  predicate Untouched(db: Db, d: Db, x: nat)
    requires x in db.problems
  {
    && x in d.problems
    && d.problems[x].source == db.problems[x].source && d.problems[x].wants == db.problems[x].wants
    && (db.problems[x].visible ==> d.problems[x].visible)
    && (x in d.tests <==> x in db.tests) && (x in db.tests ==> d.tests[x] == db.tests[x])
  }

  predicate Carries(db: Db, key: Option<nat>, x: nat) { key.Some? && x in db.problems && HasKey(db.problems[x], key.value) }

  predicate SameLink(db: Db, d: Db, l: nat) {
    l in db.links && l in d.links && d.links[l].bid == db.links[l].bid && d.links[l].pid == db.links[l].pid
  }

  predicate SameBatch(db: Db, d: Db, b: nat) {
    b in db.batches && b in d.batches && d.batches[b].oid == db.batches[b].oid && d.batches[b].key == db.batches[b].key
  }

  predicate LockedBatch(db: Db, locked: Option<nat>, b: nat) { b in db.batches && locked == Some(db.batches[b].oid) }

  /** A link the step has made: to a problem under its key, or to one its batch had already. */
  ghost predicate NewLink(db: Db, d: Db, locked: Option<nat>, key: Option<nat>, l: nat)
    requires l in d.links
  {
    && LockedBatch(db, locked, d.links[l].bid)
    && (Carries(db, key, d.links[l].pid) || Linked(db, d.links[l].bid, d.links[l].pid))
  }

  /** Keys keep their homes, and none becomes publishable that was not, unless it is fresh. */
  ghost predicate KeysMove(db: Db, d: Db) {
    && db.nextKey <= d.nextKey
    && (forall k :: k in db.home ==> k in d.home && d.home[k] == db.home[k])
    && (forall k :: k in d.home ==> k in db.home || db.nextKey <= k)
    && (forall k :: Publishable(d, k) ==> Publishable(db, k) || db.nextKey <= k)
  }

  /** Problems are written under `key` only, and only `cleaned` may be erased. */
  ghost predicate ProblemsMove(db: Db, d: Db, key: Option<nat>, cleaned: Option<nat>) {
    && db.nextPid <= d.nextPid
    && (forall x :: x in db.problems ==> Untouched(db, d, x) || Carries(db, key, x) || cleaned == Some(x))
    && (forall x :: x in db.problems && x in d.problems ==> d.problems[x].source == db.problems[x].source)
    && (forall x :: x in d.problems ==> x in db.problems || (db.nextPid <= x && Carries(d, key, x)))
  }

  /** Batches, links and offerings change under the lock of their offering only. */
  ghost predicate RowsMove(db: Db, d: Db, locked: Option<nat>, key: Option<nat>) {
    && db.nextBid <= d.nextBid
    && (forall b :: b in db.batches ==> SameBatch(db, d, b) || LockedBatch(db, locked, b))
    && (forall b :: b in d.batches ==> SameBatch(db, d, b) || db.nextBid <= b)
    && (forall l :: l in db.links ==> SameLink(db, d, l) || LockedBatch(db, locked, db.links[l].bid))
    && (forall l :: l in d.links ==> SameLink(db, d, l) || NewLink(db, d, locked, key, l))
    && (forall o: nat :: OpenOffering(d, o) ==> OpenOffering(db, o))
    && (forall o: nat :: OpenOffering(db, o) ==> OpenOffering(d, o) || locked == Some(o))
  }

  /**
   One step of a request that holds the lock of the offering `locked`, writes under `key` and may
   erase the problem `cleaned`.
   */
  ghost predicate Guarantee(db: Db, d: Db, locked: Option<nat>, key: Option<nat>, cleaned: Option<nat>) {
    KeysMove(db, d) && ProblemsMove(db, d, key, cleaned) && RowsMove(db, d, locked, key)
  }

  // ---------------------------------------------------------------- what a request relies on

  /**
   The key a request publishes or revises under, its batch, the problems it has finished and the one it
   is at, and the problems it may erase. A publication has `named` its key from the start, but writes
   under it only once it is `publishing`.
   */
  datatype Progress = Progress(
    key: nat, named: bool, publishing: bool, revising: bool,
    locked: Option<nat>, oid: nat, target: Option<nat>, bound: bool, open: bool,
    slugs: set<string>, pids: set<nat>, same: set<nat>, shown: set<nat>,
    slug: string, absent: bool, row: Option<nat>, wants: Option<seq<Case>>, written: Option<seq<Case>>,
    erasable: set<nat>, whole: bool, closed: bool, cleaned: Option<nat>)

  /** The problem was finished under the key. */
  ghost predicate Made(db: Db, key: nat, slugs: set<string>, x: nat) {
    Tested(db, x) && HasKey(db.problems[x], key) && db.problems[x].source.slug in slugs
  }

  ghost predicate KeyOk(db: Db, revisions: map<nat, nat>, t: nat, c: Progress) {
    && (c.named ==> InHome(db, c.key, c.oid))
    && (c.revising ==> c.key in revisions && revisions[c.key] == t)
  }

  ghost predicate BatchOk(db: Db, c: Progress) {
    && (c.target.Some? ==> c.target.value < db.nextBid && (c.target.value in db.batches ==> db.batches[c.target.value].oid == c.oid))
    && (c.bound ==> c.target.Some? && c.target.value in db.batches)
    && (c.open ==> OpenOffering(db, c.oid))
    && (forall x :: x in c.same ==> c.target.Some? && Linked(db, c.target.value, x))
  }

  ghost predicate RowOk(db: Db, c: Progress) {
    && (forall x :: x in c.pids ==> x in c.same || Made(db, c.key, c.slugs, x))
    && (forall x :: x in c.shown ==> x in c.same || (x in db.problems && db.problems[x].visible))
    && (c.absent ==> forall p :: p in db.problems ==> db.problems[p].source != Authored(c.key, c.slug))
    && (c.row.Some? ==> c.row.value in db.problems && db.problems[c.row.value].source == Authored(c.key, c.slug))
    && (c.row.Some? && c.wants.Some? ==> db.problems[c.row.value].wants == c.wants.value)
    && (c.row.Some? && c.written.Some? ==> c.row.value in db.tests && db.tests[c.row.value] == c.written.value)
  }

  ghost predicate CleanOk(db: Db, revisions: map<nat, nat>, c: Progress) {
    && (forall x :: x in c.erasable ==> MayErase(db, revisions, c.oid, x))
    && (c.closed ==> !OpenOffering(db, c.oid))
    && (c.cleaned.Some? ==> c.cleaned.value in c.erasable)
    && (c.cleaned.Some? ==> forall l :: l in db.links && db.links[l].pid == c.cleaned.value ==>
          c.whole && db.links[l].bid in db.batches && db.batches[db.links[l].bid].oid == c.oid)
  }

  /** Only requests that hold the lock of this offering write under the problem's key. */
  ghost predicate MayErase(db: Db, revisions: map<nat, nat>, oid: nat, x: nat) {
    && x < db.nextPid
    && (x in db.problems && db.problems[x].source.Authored? ==> Owned(db, revisions, oid, db.problems[x].source.key))
  }

  ghost predicate Warranted(db: Db, revisions: map<nat, nat>, t: nat, c: Progress) {
    KeyOk(db, revisions, t, c) && BatchOk(db, c) && RowOk(db, c) && CleanOk(db, revisions, c)
  }

  /** What is under the offering lock, and under a key of the request's own. */
  ghost predicate Grounded(c: Progress) {
    && (c.locked.Some? ==> c.locked == Some(c.oid))
    && (c.bound || c.open || c.same != {} || c.whole || c.publishing || c.erasable != {} ==> c.locked == Some(c.oid))
    && (c.pids - c.same != {} || c.shown - c.same != {} || c.row.Some? || c.absent ==> c.publishing || c.revising)
    && (c.publishing ==> c.named)
    && c.shown <= c.pids
  }

  function KeyOf(c: Progress): Option<nat> { if c.publishing || c.revising then Some(c.key) else None }

  ghost predicate Apart(db: Db, revisions: map<nat, nat>, t: nat, ct: Progress, u: nat, c: Progress) {
    && Integrity.KeysOk(db, revisions) && HomesOk(db) && RowsOk(db)
    && Warranted(db, revisions, t, ct) && Grounded(ct)
    && Warranted(db, revisions, u, c) && Grounded(c) && u != t
    && (c.locked.Some? ==> c.locked != ct.locked)
  }

  ghost predicate RevisionsMove(db: Db, revisions: map<nat, nat>, after: map<nat, nat>, t: nat) {
    && (forall k :: k in after && k !in revisions ==> db.nextKey <= k)
    && (forall k :: k in revisions && revisions[k] != t ==> k in after && after[k] == revisions[k])
  }

  /** Another request neither writes under this request's key nor erases a problem of it. */
  lemma KeysApart(db: Db, revisions: map<nat, nat>, t: nat, ct: Progress, u: nat, c: Progress)
    requires Apart(db, revisions, t, ct, u, c)
    ensures KeyOf(c).Some? ==> KeyOf(ct) != KeyOf(c)
    ensures forall x: nat :: Carries(db, KeyOf(c), x) ==> !Carries(db, KeyOf(ct), x) && ct.cleaned != Some(x)
  {
    hide RowOk, RowsOk, HomesOk;
    assert ct.cleaned.Some? ==> MayErase(db, revisions, ct.oid, ct.cleaned.value);
  }

  lemma RowSurvives(db: Db, revisions: map<nat, nat>, d: Db, t: nat, ct: Progress, u: nat, c: Progress)
    requires Guarantee(db, d, ct.locked, KeyOf(ct), ct.cleaned)
    requires Apart(db, revisions, t, ct, u, c)
    ensures RowOk(d, c)
  {
    KeysApart(db, revisions, t, ct, u, c);
    hide KeyOk, CleanOk, BatchOk, HomesOk, RowsOk, Integrity.KeysOk;
    forall x | x in c.pids ensures x in c.same || Made(d, c.key, c.slugs, x) {
      assert x !in c.same ==> x in c.pids - c.same && Carries(db, KeyOf(c), x);
    }
    forall x | x in c.shown ensures x in c.same || (x in d.problems && d.problems[x].visible) {
      assert x !in c.same ==> x in c.pids - c.same && x in c.shown - c.same && Carries(db, KeyOf(c), x);
    }
    assert c.row.Some? ==> Carries(db, KeyOf(c), c.row.value);
    if c.absent {
      forall p | p in d.problems ensures d.problems[p].source != Authored(c.key, c.slug) {
        assert p !in db.problems ==> Carries(d, KeyOf(ct), p);
      }
    }
  }

  lemma ErasableSurvives(
    db: Db, revisions: map<nat, nat>, d: Db, revisionsAfter: map<nat, nat>, t: nat, key: Option<nat>, cleaned: Option<nat>, oid: nat, x: nat)
    requires Integrity.KeysOk(db, revisions) && RevisionsMove(db, revisions, revisionsAfter, t)
    requires KeysMove(db, d) && ProblemsMove(db, d, key, cleaned)
    requires MayErase(db, revisions, oid, x)
    ensures MayErase(d, revisionsAfter, oid, x)
  {
  }

  lemma CleanSurvives(
    db: Db, revisions: map<nat, nat>, d: Db, revisionsAfter: map<nat, nat>, t: nat, ct: Progress, u: nat, c: Progress)
    requires Guarantee(db, d, ct.locked, KeyOf(ct), ct.cleaned)
    requires Apart(db, revisions, t, ct, u, c) && RevisionsMove(db, revisions, revisionsAfter, t)
    ensures CleanOk(d, revisionsAfter, c)
  {
    forall x | x in c.erasable ensures MayErase(d, revisionsAfter, c.oid, x) {
      ErasableSurvives(db, revisions, d, revisionsAfter, t, KeyOf(ct), ct.cleaned, c.oid, x);
    }
    if c.cleaned.Some? {
      assert MayErase(db, revisions, c.oid, c.cleaned.value);
      forall l | l in d.links && d.links[l].pid == c.cleaned.value
        ensures c.whole && d.links[l].bid in d.batches && d.batches[d.links[l].bid].oid == c.oid
      {
        CleanedLink(db, revisions, d, t, ct, u, c, l);
      }
    }
    hide MayErase, KeyOk, BatchOk, RowOk, KeysMove, ProblemsMove, RevisionsMove, SameBatch, SameLink, NewLink;
  }

  /** Nobody else links a problem that is about to be erased. */
  lemma CleanedLink(db: Db, revisions: map<nat, nat>, d: Db, t: nat, ct: Progress, u: nat, c: Progress, l: nat)
    requires Guarantee(db, d, ct.locked, KeyOf(ct), ct.cleaned)
    requires Apart(db, revisions, t, ct, u, c)
    requires c.cleaned.Some? && l in d.links && d.links[l].pid == c.cleaned.value
    ensures c.whole && d.links[l].bid in d.batches && d.batches[d.links[l].bid].oid == c.oid
  {
    hide BatchOk, RowOk, KeysMove, ProblemsMove;
    assert MayErase(db, revisions, c.oid, c.cleaned.value);
  }

  lemma WarrantSurvives(
    db: Db, revisions: map<nat, nat>, d: Db, revisionsAfter: map<nat, nat>, t: nat, ct: Progress, u: nat, c: Progress)
    requires Guarantee(db, d, ct.locked, KeyOf(ct), ct.cleaned)
    requires Apart(db, revisions, t, ct, u, c) && RevisionsMove(db, revisions, revisionsAfter, t)
    ensures KeyOk(d, revisionsAfter, u, c)
    ensures BatchOk(d, c)
  {
    hide RowOk, CleanOk;
  }

  // ---------------------------------------------------------------- statements

  ghost predicate NewLinksOk(db: Db, d: Db, revisionsAfter: map<nat, nat>) {
    forall l :: l in d.links ==> SameLink(db, d, l) || LinkSettled(d, revisionsAfter, l)
  }

  ghost predicate BaseOk(db: Db) { RowsOk(db) && HomesOk(db) && OneRowEach(db) }

  ghost predicate KeysPart(db: Db, d: Db) { KeysMove(db, d) && HomesOk(d) }

  ghost predicate ProblemsPart(db: Db, d: Db, key: Option<nat>, cleaned: Option<nat>) {
    ProblemsMove(db, d, key, cleaned) && OneRowEach(d)
  }

  ghost predicate RowsPart(db: Db, d: Db, revisionsAfter: map<nat, nat>, locked: Option<nat>, key: Option<nat>) {
    RowsMove(db, d, locked, key) && RowsOk(d) && NewLinksOk(db, d, revisionsAfter)
  }

  // keys

  predicate SameKeys(db: Db, d: Db) {
    && d.home == db.home && d.nextKey == db.nextKey
    && (forall k :: k in d.drafts ==> k in db.drafts && d.drafts[k] == db.drafts[k])
    && (forall b :: b in d.batches ==> SameBatch(db, d, b))
  }

  lemma SameKeysOk(db: Db, d: Db)
    requires HomesOk(db) && SameKeys(db, d)
    ensures KeysPart(db, d)
  {
  }

  lemma InsertDraftKeys(db: Db, owner: Option<nat>)
    requires HomesOk(db)
    requires forall k :: k in db.home ==> k < db.nextKey
    ensures KeysPart(db, InsertDraft(db, owner))
  {
  }

  lemma DrawKeyKeys(db: Db)
    requires HomesOk(db)
    ensures KeysPart(db, db.(nextKey := db.nextKey + 1))
  {
  }

  lemma NewBatchKeys(db: Db, batch: Batch)
    requires HomesOk(db)
    requires batch.key.Some? ==> InHome(db, batch.key.value, batch.oid)
    ensures KeysPart(db, db.(batches := db.batches[db.nextBid := batch], nextBid := db.nextBid + 1))
  {
  }

  lemma PublishedKeys(db: Db, key: nat, bid: nat, d: Db)
    requires HomesOk(db)
    requires key in db.drafts && d.home == db.home && d.nextKey == db.nextKey
    requires d.drafts == db.drafts[key := db.drafts[key].(published := true, batch := Some(bid))]
    requires forall b :: b in d.batches ==> SameBatch(db, d, b)
    ensures KeysPart(db, d)
  {
  }

  // problems

  predicate SameProblems(db: Db, d: Db) {
    && d.nextPid == db.nextPid && d.problems.Keys == db.problems.Keys
    && (forall x :: x in db.problems ==> Untouched(db, d, x))
  }

  lemma SameProblemsOk(db: Db, d: Db, key: Option<nat>, cleaned: Option<nat>)
    requires OneRowEach(db) && SameProblems(db, d)
    ensures ProblemsPart(db, d, key, cleaned)
  {
    assert forall x :: x in d.problems ==> Untouched(db, d, x);
    forall p, q | p in d.problems && q in d.problems && SameSource(d, p, q) ensures p == q {
      assert SameSource(db, p, q);
    }
  }

  /** A problem that carries the key is written. */
  lemma OwnProblemOk(db: Db, d: Db, key: nat, x: nat, cleaned: Option<nat>)
    requires OneRowEach(db) && d.nextPid == db.nextPid && d.problems.Keys == db.problems.Keys
    requires x in db.problems ==> HasKey(db.problems[x], key)
    requires forall y :: y in db.problems && y != x ==> Untouched(db, d, y)
    requires x in db.problems ==> d.problems[x].source == db.problems[x].source
    ensures ProblemsPart(db, d, Some(key), cleaned)
  {
    forall p, q | p in d.problems && q in d.problems && SameSource(d, p, q) ensures p == q {
      assert p != x ==> Untouched(db, d, p);
      assert q != x ==> Untouched(db, d, q);
      assert SameSource(db, p, q);
    }
  }

  lemma InsertProblemOk(db: Db, key: nat, slug: string, content: string, wants: seq<Case>, cleaned: Option<nat>)
    requires OneRowEach(db) && forall p :: p in db.problems ==> p < db.nextPid
    requires forall p :: p in db.problems ==> db.problems[p].source != Authored(key, slug)
    ensures ProblemsPart(db, InsertProblem(db, Authored(key, slug), content, wants), Some(key), cleaned)
  {
    var d := InsertProblem(db, Authored(key, slug), content, wants);
    forall p, q | p in d.problems && q in d.problems && SameSource(d, p, q) ensures p == q {
      assert p in db.problems && q in db.problems ==> SameSource(db, p, q);
    }
  }

  lemma HideOthersOk(db: Db, key: nat, keep: set<nat>, cleaned: Option<nat>)
    requires OneRowEach(db)
    ensures ProblemsPart(db, HideOthers(db, key, keep), Some(key), cleaned)
  {
    var d := HideOthers(db, key, keep);
    forall p, q | p in d.problems && q in d.problems && SameSource(d, p, q) ensures p == q {
      assert SameSource(db, p, q);
    }
  }

  lemma DropTestsOk(db: Db, x: nat, key: Option<nat>)
    requires OneRowEach(db)
    ensures ProblemsPart(db, db.(tests := db.tests - {x}), key, Some(x))
  {
    var d := db.(tests := db.tests - {x});
    forall p, q | p in d.problems && q in d.problems && SameSource(d, p, q) ensures p == q {
      assert SameSource(db, p, q);
    }
  }

  lemma DropProblemOk(db: Db, x: nat, key: Option<nat>)
    requires OneRowEach(db)
    ensures ProblemsPart(db, db.(problems := db.problems - {x}), key, Some(x))
  {
    var d := db.(problems := db.problems - {x});
    forall p, q | p in d.problems && q in d.problems && SameSource(d, p, q) ensures p == q {
      assert SameSource(db, p, q);
    }
  }

  // rows

  predicate SameRows(db: Db, d: Db) {
    && d.links == db.links && d.offerings == db.offerings && d.nextBp == db.nextBp && d.nextBid == db.nextBid
    && d.batches.Keys == db.batches.Keys && (forall b :: b in db.batches ==> SameBatch(db, d, b))
  }

  lemma SameRowsOk(
    db: Db, d: Db, revisionsAfter: map<nat, nat>, locked: Option<nat>, key: Option<nat>)
    requires RowsOk(db) && SameRows(db, d)
    ensures RowsPart(db, d, revisionsAfter, locked, key)
  {
  }

  lemma NewBatchRows(
    db: Db, revisionsAfter: map<nat, nat>, locked: Option<nat>, key: Option<nat>, batch: Batch)
    requires RowsOk(db)
    ensures RowsPart(db, db.(batches := db.batches[db.nextBid := batch], nextBid := db.nextBid + 1),
                     revisionsAfter, locked, key)
  {
  }

  lemma ArchiveRows(db: Db, revisionsAfter: map<nat, nat>, key: Option<nat>, oid: nat)
    requires RowsOk(db)
    ensures RowsPart(db, Archive(db, oid), revisionsAfter, Some(oid), key)
  {
    if oid in db.offerings {
      ArchivedRows(db, key, oid);
    } else {
      SameRowsOk(db, db, revisionsAfter, Some(oid), key);
    }
  }

  lemma ArchivedRows(db: Db, key: Option<nat>, oid: nat)
    requires oid in db.offerings
    ensures RowsMove(db, Archive(db, oid), Some(oid), key)
  {
  }

  predicate Among(slots: seq<Slot>, pid: nat) { exists x :: x in slots && x.pid == pid }

  /** Links of other batches stay; the rest are the new ones, all of this batch. */
  lemma LinksAfter(db: Db, bid: nat, slots: seq<Slot>)
    requires RowsOk(db)
    ensures var d := Relinked(db, bid, slots);
      && db.nextBp <= d.nextBp
      && (forall l :: l in db.links ==> SameLink(db, d, l) || db.links[l].bid == bid)
      && forall l :: l in d.links && !SameLink(db, d, l) ==> d.links[l].bid == bid && l < d.nextBp && Among(slots, d.links[l].pid)
  {
    var d := Relinked(db, bid, slots);
    forall l | l in d.links && !SameLink(db, d, l)
      ensures d.links[l].bid == bid && l < d.nextBp && Among(slots, d.links[l].pid)
    {
      assert slots[l - db.nextBp] in slots;
    }
  }

  /** The links of one batch are rebuilt. */
  lemma RelinkedMoves(db: Db, key: Option<nat>, locked: Option<nat>, bid: nat, slots: seq<Slot>)
    requires RowsOk(db) && LockedBatch(db, locked, bid)
    requires forall x :: x in slots ==> Carries(db, key, x.pid) || Linked(db, bid, x.pid)
    ensures RowsMove(db, Relinked(db, bid, slots), locked, key) && RowsOk(Relinked(db, bid, slots))
  {
    LinksAfter(db, bid, slots);
    hide Relinked, Carries, Linked;
  }

  lemma RelinkedLinks(db: Db, revisionsAfter: map<nat, nat>, bid: nat, slots: seq<Slot>, d: Db)
    requires RowsOk(db) && d.links == Relinked(db, bid, slots).links && bid in d.batches
    requires forall x :: x in slots ==> Settled(d, revisionsAfter, d.batches[bid].oid, x.pid)
    ensures NewLinksOk(db, d, revisionsAfter)
  {
    LinksAfter(db, bid, slots);
    hide Relinked, Settled;
  }

  /** Batches and links as they are, up to the status of batches. */
  lemma RowsMoveFrame(db: Db, x: Db, d: Db, locked: Option<nat>, key: Option<nat>)
    requires RowsMove(db, x, locked, key) && RowsOk(x)
    requires d.links == x.links && d.offerings == x.offerings && d.nextBid == x.nextBid && d.nextBp == x.nextBp
    requires d.batches.Keys == x.batches.Keys && forall b :: b in x.batches ==> SameBatch(x, d, b)
    ensures RowsMove(db, d, locked, key) && RowsOk(d)
  {
    hide Linked, Carries;
  }

  lemma RemovedLinks(db: Db, bid: nat)
    ensures forall l :: l in CommitRemove(db, bid).links ==> l in db.links && CommitRemove(db, bid).links[l] == db.links[l]
  {
  }

  lemma RemoveRows(db: Db, revisionsAfter: map<nat, nat>, key: Option<nat>, locked: Option<nat>, bid: nat)
    requires RowsOk(db) && (bid in db.batches ==> LockedBatch(db, locked, bid))
    ensures RowsPart(db, CommitRemove(db, bid), revisionsAfter, locked, key)
  {
    hide CommitRemove, LinkSettled, NewLink;
    RemovedLinks(db, bid);
    RemovedRest(db, bid);
    var d := CommitRemove(db, bid);
    assert forall l :: l in d.links ==> SameLink(db, d, l);
    assert forall b :: b in d.batches ==> SameBatch(db, d, b);
  }

  lemma RemovedRest(db: Db, bid: nat)
    ensures var d := CommitRemove(db, bid);
      && d.batches == db.batches - {bid} && d.offerings == db.offerings && d.nextBid == db.nextBid && d.nextBp == db.nextBp
      && (forall l :: l in db.links && db.links[l].bid != bid ==> l in d.links)
      && (forall l :: l in d.links ==> d.links[l].bid != bid)
  {
    hide DraftOf;
  }

  lemma WithoutOfferingRows(db: Db, revisionsAfter: map<nat, nat>, key: Option<nat>, oid: nat)
    requires RowsOk(db)
    ensures RowsPart(db, WithoutOffering(db, oid), revisionsAfter, Some(oid), key)
  {
    var d := WithoutOffering(db, oid);
    assert forall l :: l in d.links ==> SameLink(db, d, l);
    assert forall b :: b in d.batches ==> SameBatch(db, d, b);
    hide Settled, NewLink;
  }

  lemma DeleteRows(db: Db, revisionsAfter: map<nat, nat>, key: Option<nat>, oid: nat, course: nat)
    requires RowsOk(db)
    ensures RowsPart(db, CommitDelete(db, oid, course), revisionsAfter, Some(oid), key)
  {
    hide RowsMove, RowsOk, NewLinksOk, WithoutOffering, CommitDelete, SameBatch;
    var x, d := WithoutOffering(db, oid), CommitDelete(db, oid, course);
    DeletedLike(db, oid, course);
    WithoutOfferingRows(db, revisionsAfter, key, oid);
    RowsMoveFrame(db, x, d, Some(oid), key);
    SubLinks(db, x, d, revisionsAfter, oid);
  }

  /** The deletion changes no more rows of batches and links than dropping the offering does. */
  lemma DeletedLike(db: Db, oid: nat, course: nat)
    ensures var x, d := WithoutOffering(db, oid), CommitDelete(db, oid, course);
      && d.links == x.links && d.offerings == x.offerings && d.nextBid == x.nextBid && d.nextBp == x.nextBp && d.batches == x.batches
      && forall b :: b in x.batches ==> SameBatch(x, d, b)
  {
    hide WithoutOffering, WithoutCourse, CourseUsed;
  }

  lemma SubLinks(db: Db, x: Db, d: Db, revisionsAfter: map<nat, nat>, oid: nat)
    requires x == WithoutOffering(db, oid) && d.links == x.links
    ensures NewLinksOk(db, d, revisionsAfter)
  {
    assert forall l :: l in d.links ==> SameLink(db, d, l);
  }

  // one statement

  /** When a request may issue a statement. */
  ghost predicate Permitted(db: Db, revisionsAfter: map<nat, nat>, c: Progress, st: Stmt) {
    && (st.PutBatch? ==> InHome(db, st.key, st.oid))
    && (st.ArchiveRow? || st.DeleteTx? ==> c.locked == Some(st.oid))
    && (st.RemoveTx? ==> st.bid in db.batches ==> LockedBatch(db, c.locked, st.bid))
    && (st.PublishTx? ==>
          && LockedBatch(db, c.locked, st.bid) && KeyOf(c) == Some(st.key) && InHome(db, st.key, db.batches[st.bid].oid)
          && forall x :: x in st.slots ==> Carries(db, KeyOf(c), x.pid) && x.pid < db.nextPid)
    && (st.EditTx? ==>
          && LockedBatch(db, c.locked, st.bid)
          && forall x :: x in st.slots ==>
               && Settled(db, revisionsAfter, db.batches[st.bid].oid, x.pid)
               && (Carries(db, KeyOf(c), x.pid) || Linked(db, st.bid, x.pid)))
    && (st.PutProblem? ==> st.source.Authored? && KeyOf(c) == Some(st.source.key))
    && (st.PutProblem? ==> forall p :: p in db.problems ==> db.problems[p].source != st.source)
    && (st.SetProblem? || st.EmptyTests? || st.PutTest? ==> KeyOf(c).Some? && (st.pid in db.problems ==> Carries(db, KeyOf(c), st.pid)))
    && (st.HideStale? ==> KeyOf(c) == Some(st.key))
    && (st.DropTests? || st.DropProblem? ==> c.cleaned == Some(st.pid))
  }

  lemma StatusSameBatches(db: Db, bid: nat, status: BatchStatus)
    ensures var d := WithStatus(db, bid, status);
      d.batches.Keys == db.batches.Keys && forall b :: b in db.batches ==> SameBatch(db, d, b)
  {
  }

  /** Once its draft is published, the problems under a key are settled. */
  lemma PublishedPids(db: Db, revisionsAfter: map<nat, nat>, c: Progress, oid: nat, bid: nat, key: nat, slots: seq<Slot>)
    requires Permitted(db, revisionsAfter, c, PublishTx(oid, bid, key, slots))
    requires ActiveOffering(db, oid) && key in db.drafts
    ensures var d := CommitPublish(db, oid, bid, key, slots);
      forall y :: y in slots ==> Settled(d, revisionsAfter, db.batches[bid].oid, y.pid)
  {
    hide Relinked, WithStatus;
  }

  lemma CommitPublishOk(db: Db, revisionsAfter: map<nat, nat>, c: Progress, oid: nat, bid: nat, key: nat, slots: seq<Slot>)
    requires BaseOk(db)
    requires Permitted(db, revisionsAfter, c, PublishTx(oid, bid, key, slots))
    requires ActiveOffering(db, oid) && key in db.drafts
    ensures var d := CommitPublish(db, oid, bid, key, slots);
      && KeysPart(db, d)
      && RowsPart(db, d, revisionsAfter, c.locked, KeyOf(c))
  {
    var x := Relinked(db, bid, slots);
    var d := CommitPublish(db, oid, bid, key, slots);
    RelinkedMoves(db, KeyOf(c), c.locked, bid, slots);
    PublishedPids(db, revisionsAfter, c, oid, bid, key, slots);
    hide Relinked, WithStatus, RowsMove, RowsOk, Settled, Carries, HomesOk, KeysMove;
    StatusSameBatches(x, bid, Published);
    PublishedKeys(db, key, bid, d);
    RowsMoveFrame(db, x, d, c.locked, KeyOf(c));
    RelinkedLinks(db, revisionsAfter, bid, slots, d);
  }

  /** An edit rebuilds the links of its batch; batches change their status at most. */
  lemma EditedRows(db: Db, bid: nat, doomed: set<nat>, slots: seq<Slot>, status: BatchStatus)
    ensures var d, x := CommitEdit(db, bid, doomed, slots, status), Relinked(db, bid, slots);
      && SameKeys(db, d) && d.links == x.links && d.nextBp == x.nextBp && d.offerings == db.offerings && d.nextBid == db.nextBid
      && d.batches.Keys == db.batches.Keys && (forall b :: b in db.batches ==> SameBatch(db, d, b))
      && d.problems == db.problems && d.tests == db.tests && d.drafts == db.drafts && d.nextPid == db.nextPid && d.home == db.home
  {
    var y := Relinked(db.(submissions := db.submissions - doomed), bid, slots);
    assert y.links == Relinked(db, bid, slots).links;
    hide Relinked, Repaired;
    StatusSameBatches(Repaired(y, bid), bid, status);
    hide WithStatus;
  }

  lemma EditedPids(db: Db, revisionsAfter: map<nat, nat>, oid: nat, slots: seq<Slot>, d: Db)
    requires forall x :: x in slots ==> Settled(db, revisionsAfter, oid, x.pid)
    requires d.problems == db.problems && d.drafts == db.drafts && d.nextPid == db.nextPid && d.home == db.home
    ensures forall x :: x in slots ==> Settled(d, revisionsAfter, oid, x.pid)
  {
  }

  lemma CommitEditOk(
    db: Db, revisionsAfter: map<nat, nat>, c: Progress, bid: nat, doomed: set<nat>, slots: seq<Slot>, status: BatchStatus)
    requires BaseOk(db)
    requires Permitted(db, revisionsAfter, c, EditTx(bid, doomed, slots, status))
    ensures var d := CommitEdit(db, bid, doomed, slots, status);
      && KeysPart(db, d)
      && RowsPart(db, d, revisionsAfter, c.locked, KeyOf(c))
  {
    var d := CommitEdit(db, bid, doomed, slots, status);
    RelinkedMoves(db, KeyOf(c), c.locked, bid, slots);
    EditedRows(db, bid, doomed, slots, status);
    hide CommitEdit, RowsMove, RowsOk, HomesOk, KeysMove, Relinked, SameKeys, Linked, Settled;
    SameKeysOk(db, d);
    RowsMoveFrame(db, Relinked(db, bid, slots), d, c.locked, KeyOf(c));
    EditedPids(db, revisionsAfter, db.batches[bid].oid, slots, d);
    RelinkedLinks(db, revisionsAfter, bid, slots, d);
  }

  lemma FrameKeys(db: Db, d: Db)
    requires d.home == db.home && d.nextKey == db.nextKey && d.drafts == db.drafts && d.batches == db.batches
    ensures SameKeys(db, d)
  {
  }

  lemma FrameProblems(db: Db, d: Db)
    requires d.problems == db.problems && d.tests == db.tests && d.nextPid == db.nextPid
    ensures SameProblems(db, d)
  {
  }

  lemma FrameRows(db: Db, d: Db)
    requires d.links == db.links && d.offerings == db.offerings && d.nextBp == db.nextBp && d.nextBid == db.nextBid && d.batches == db.batches
    ensures SameRows(db, d)
  {
  }

  lemma RemovedKeys(db: Db, bid: nat)
    ensures SameKeys(db, CommitRemove(db, bid))
  {
  }

  lemma DeletedKeys(db: Db, oid: nat, course: nat)
    ensures SameKeys(db, CommitDelete(db, oid, course))
  {
    hide CourseUsed;
  }

  lemma StatusKeys(db: Db, bid: nat, status: BatchStatus)
    ensures SameKeys(db, WithStatus(db, bid, status)) && SameRows(db, WithStatus(db, bid, status))
  {
    StatusSameBatches(db, bid, status);
    hide WithStatus;
  }

  lemma DroppedDraftKeys(db: Db, key: nat)
    ensures SameKeys(db, db.(drafts := db.drafts - {key}))
  {
  }

  lemma EnsureBatchOk(db: Db, revisionsAfter: map<nat, nat>, c: Progress, oid: nat, key: nat, library: Option<nat>)
    requires BaseOk(db) && InHome(db, key, oid)
    ensures var d := EnsureBatch(db, oid, key, library);
      && KeysPart(db, d)
      && RowsPart(db, d, revisionsAfter, c.locked, KeyOf(c))
  {
    hide KeysPart, RowsPart, RowsOk, HomesOk, KeyUsed, NextSeq, InHome;
    var batch := Batch(oid, NextSeq(db, oid), Staged, Some(key), library);
    FrameKeys(db, db);
    FrameRows(db, db);
    SameKeysOk(db, db);
    SameRowsOk(db, db, revisionsAfter, c.locked, KeyOf(c));
    NewBatchKeys(db, batch);
    NewBatchRows(db, revisionsAfter, c.locked, KeyOf(c), batch);
  }

  lemma PublishTxOk(db: Db, revisionsAfter: map<nat, nat>, c: Progress, oid: nat, bid: nat, key: nat, slots: seq<Slot>)
    requires BaseOk(db)
    requires Permitted(db, revisionsAfter, c, PublishTx(oid, bid, key, slots))
    ensures var d := CommitPublish(db, oid, bid, key, slots);
      && KeysPart(db, d)
      && RowsPart(db, d, revisionsAfter, c.locked, KeyOf(c))
  {
    if ActiveOffering(db, oid) && key in db.drafts {
      hide Permitted, KeysPart, RowsPart, BaseOk, CommitPublish;
      CommitPublishOk(db, revisionsAfter, c, oid, bid, key, slots);
    } else {
      hide KeysPart, RowsPart, RowsOk, HomesOk, Relinked, WithStatus;
      FrameKeys(db, db);
      FrameRows(db, db);
      SameKeysOk(db, db);
      SameRowsOk(db, db, revisionsAfter, c.locked, KeyOf(c));
    }
  }

  lemma ExecSameKeys(db: Db, st: Stmt)
    requires !st.PutDraft? && !st.DrawKey? && !st.PutBatch? && !st.PublishTx? && !st.EditTx?
    ensures SameKeys(db, Exec(db, st))
  {
    if OnJudge(st) {
      hide Exec, SameKeys, OnJudge;
      JudgeFrame(db, st);
      FrameKeys(db, Exec(db, st));
    } else {
      CourseSameKeys(db, st);
    }
  }

  lemma CourseSameKeys(db: Db, st: Stmt)
    requires !st.PutDraft? && !st.DrawKey? && !st.PutBatch? && !st.PublishTx? && !st.EditTx? && !OnJudge(st)
    ensures SameKeys(db, Exec(db, st))
  {
    hide SameKeys, WithStatus, Archive, InsertSubmission, Promote, CommitRemove, CommitDelete;
    match st
    case RemoveTx(bid) => RemovedKeys(db, bid);
    case DeleteTx(oid, course) => DeletedKeys(db, oid, course);
    case SetStatus(bid, status) => StatusKeys(db, bid, status);
    case DropDraftRow(key) => DroppedDraftKeys(db, key);
    case _ => FrameKeys(db, Exec(db, st));
  }

  lemma ExecKeys(db: Db, revisionsAfter: map<nat, nat>, c: Progress, st: Stmt)
    requires BaseOk(db) && Permitted(db, revisionsAfter, c, st)
    requires forall k :: k in db.home ==> k < db.nextKey
    ensures KeysPart(db, Exec(db, st))
  {
    hide KeysPart, RowsPart, HomesOk, RowsOk, OneRowEach, InsertDraft, EnsureBatch, CommitPublish, CommitEdit;
    match st
    case PutDraft(owner) => InsertDraftKeys(db, owner);
    case DrawKey => DrawKeyKeys(db);
    case PutBatch(oid, key, library) => EnsureBatchOk(db, revisionsAfter, c, oid, key, library);
    case PublishTx(oid, bid, key, slots) => PublishTxOk(db, revisionsAfter, c, oid, bid, key, slots);
    case EditTx(bid, doomed, slots, status) => CommitEditOk(db, revisionsAfter, c, bid, doomed, slots, status);
    case _ =>
      ExecSameKeys(db, st);
      hide Exec;
      SameKeysOk(db, Exec(db, st));
  }

  lemma SetProblemOk(db: Db, key: nat, pid: nat, content: string, wants: seq<Case>, cleaned: Option<nat>)
    requires OneRowEach(db) && (pid in db.problems ==> HasKey(db.problems[pid], key))
    ensures ProblemsPart(db, UpdateProblem(db, pid, content, wants), Some(key), cleaned)
  {
    if pid in db.problems {
      OwnProblemOk(db, UpdateProblem(db, pid, content, wants), key, pid, cleaned);
    } else {
      FrameProblems(db, db);
      SameProblemsOk(db, db, Some(key), cleaned);
    }
  }

  lemma TestsOk(db: Db, key: nat, pid: nat, cases: seq<Case>, cleaned: Option<nat>)
    requires OneRowEach(db) && (pid in db.problems ==> HasKey(db.problems[pid], key))
    ensures ProblemsPart(db, db.(tests := db.tests[pid := cases]), Some(key), cleaned)
  {
    OwnProblemOk(db, db.(tests := db.tests[pid := cases]), key, pid, cleaned);
  }

  lemma ShowSame(db: Db, pids: set<nat>)
    ensures SameProblems(db, Show(db, pids))
  {
  }

  lemma TallySame(db: Db, pid: nat)
    ensures SameProblems(db, Tallied(db, pid))
  {
    if pid !in db.problems {
      FrameProblems(db, db);
    }
  }

  lemma ExecSameProblems(db: Db, st: Stmt)
    requires !st.PutProblem? && !st.SetProblem? && !st.EmptyTests? && !st.PutTest? && !st.HideStale? && !st.DropTests? && !st.DropProblem?
    ensures SameProblems(db, Exec(db, st))
  {
    hide SameProblems, Exec, Show, Tallied;
    if OnJudge(st) {
      JudgeSameProblems(db, st);
    } else {
      CourseSameProblems(db, st);
    }
  }

  lemma JudgeSameProblems(db: Db, st: Stmt)
    requires OnJudge(st)
    requires !st.PutProblem? && !st.SetProblem? && !st.EmptyTests? && !st.PutTest? && !st.HideStale? && !st.DropTests? && !st.DropProblem?
    ensures SameProblems(db, Exec(db, st))
  {
    hide SameProblems, Show, Tallied;
    if st.ShowAllOf? {
      ShowSame(db, st.pids);
    } else if st.TallyProblem? {
      TallySame(db, st.pid);
    } else {
      SolutionsFrame(db, st);
      hide Exec;
      FrameProblems(db, Exec(db, st));
    }
  }

  lemma CourseSameProblems(db: Db, st: Stmt)
    requires !OnJudge(st)
    ensures SameProblems(db, Exec(db, st))
  {
    hide SameProblems, WithStatus, Archive, InsertSubmission, Promote, CommitRemove, CommitDelete, InsertDraft, EnsureBatch,
      CommitPublish, CommitEdit;
    FrameProblems(db, Exec(db, st));
  }

  lemma ExecOwnProblem(db: Db, key: Option<nat>, cleaned: Option<nat>, st: Stmt)
    requires OneRowEach(db) && (st.SetProblem? || st.EmptyTests? || st.PutTest?)
    requires key.Some? && (st.pid in db.problems ==> Carries(db, key, st.pid))
    ensures ProblemsPart(db, Exec(db, st), key, cleaned)
  {
    hide ProblemsPart, OneRowEach, UpdateProblem;
    match st
    case SetProblem(pid, content, wants) => SetProblemOk(db, key.value, pid, content, wants, cleaned);
    case EmptyTests(pid) => TestsOk(db, key.value, pid, [], cleaned);
    case PutTest(pid, test) => TestsOk(db, key.value, pid, (if pid in db.tests then db.tests[pid] else []) + [test], cleaned);
  }

  lemma ExecProblems(db: Db, revisionsAfter: map<nat, nat>, c: Progress, st: Stmt)
    requires BaseOk(db) && Permitted(db, revisionsAfter, c, st)
    requires forall p :: p in db.problems ==> p < db.nextPid
    ensures ProblemsPart(db, Exec(db, st), KeyOf(c), c.cleaned)
  {
    hide ProblemsPart, HomesOk, RowsOk, OneRowEach, UpdateProblem, InsertProblem, HideOthers;
    match st
    case PutProblem(source, content, wants) =>
      InsertProblemOk(db, source.key, source.slug, content, wants, c.cleaned);
    case SetProblem(pid, content, wants) => ExecOwnProblem(db, KeyOf(c), c.cleaned, st);
    case EmptyTests(pid) => ExecOwnProblem(db, KeyOf(c), c.cleaned, st);
    case PutTest(pid, test) => ExecOwnProblem(db, KeyOf(c), c.cleaned, st);
    case HideStale(key, keep) => HideOthersOk(db, key, keep, c.cleaned);
    case DropTests(pid) => DropTestsOk(db, pid, KeyOf(c));
    case DropProblem(pid) => DropProblemOk(db, pid, KeyOf(c));
    case _ =>
      ExecSameProblems(db, st);
      hide Exec;
      SameProblemsOk(db, Exec(db, st), KeyOf(c), c.cleaned);
  }

  lemma ExecSameRows(db: Db, st: Stmt)
    requires !st.PutBatch? && !st.ArchiveRow? && !st.PublishTx? && !st.EditTx? && !st.RemoveTx? && !st.DeleteTx?
    ensures SameRows(db, Exec(db, st))
  {
    if OnJudge(st) {
      hide Exec, SameRows, OnJudge;
      JudgeFrame(db, st);
      FrameRows(db, Exec(db, st));
    } else {
      CourseSameRows(db, st);
    }
  }

  lemma CourseSameRows(db: Db, st: Stmt)
    requires !st.PutBatch? && !st.ArchiveRow? && !st.PublishTx? && !st.EditTx? && !st.RemoveTx? && !st.DeleteTx? && !OnJudge(st)
    ensures SameRows(db, Exec(db, st))
  {
    hide SameRows, WithStatus, InsertSubmission, Promote, InsertDraft;
    match st
    case SetStatus(bid, status) => StatusKeys(db, bid, status);
    case _ => FrameRows(db, Exec(db, st));
  }

  lemma ExecRows(db: Db, revisionsAfter: map<nat, nat>, c: Progress, st: Stmt)
    requires BaseOk(db) && Permitted(db, revisionsAfter, c, st)
    ensures RowsPart(db, Exec(db, st), revisionsAfter, c.locked, KeyOf(c))
  {
    hide KeysPart, RowsPart, HomesOk, RowsOk, OneRowEach, EnsureBatch, Archive, CommitPublish, CommitEdit, CommitRemove,
      CommitDelete;
    match st
    case PutBatch(oid, key, library) => EnsureBatchOk(db, revisionsAfter, c, oid, key, library);
    case ArchiveRow(oid) => ArchiveRows(db, revisionsAfter, KeyOf(c), oid);
    case PublishTx(oid, bid, key, slots) => PublishTxOk(db, revisionsAfter, c, oid, bid, key, slots);
    case EditTx(bid, doomed, slots, status) => CommitEditOk(db, revisionsAfter, c, bid, doomed, slots, status);
    case RemoveTx(bid) => RemoveRows(db, revisionsAfter, KeyOf(c), c.locked, bid);
    case DeleteTx(oid, course) => DeleteRows(db, revisionsAfter, KeyOf(c), oid, course);
    case _ =>
      ExecSameRows(db, st);
      hide Exec;
      SameRowsOk(db, Exec(db, st), revisionsAfter, c.locked, KeyOf(c));
  }

  // ---------------------------------------------------------------- the tables

  /** Rows, keys and links are in order; this holds whatever publications overlap. */
  ghost predicate Orderly(db: Db, revisions: map<nat, nat>) { BaseOk(db) && LinksSettled(db, revisions) }

  lemma SettledSurvives(
    db: Db, revisions: map<nat, nat>, d: Db, revisionsAfter: map<nat, nat>, t: nat, key: Option<nat>, cleaned: Option<nat>, oid: nat, x: nat)
    requires KeysMove(db, d) && ProblemsMove(db, d, key, cleaned) && RevisionsMove(db, revisions, revisionsAfter, t)
    requires Integrity.KeysOk(db, revisions) && Settled(db, revisions, oid, x)
    ensures Settled(d, revisionsAfter, oid, x)
  {
  }

  lemma OrderKept(db: Db, revisions: map<nat, nat>, d: Db, revisionsAfter: map<nat, nat>, t: nat, c: Progress)
    requires Orderly(db, revisions) && Integrity.KeysOk(db, revisions) && RevisionsMove(db, revisions, revisionsAfter, t)
    requires KeysPart(db, d) && ProblemsPart(db, d, KeyOf(c), c.cleaned)
    requires RowsPart(db, d, revisionsAfter, c.locked, KeyOf(c))
    ensures Orderly(d, revisionsAfter)
  {
    forall l | l in d.links ensures LinkSettled(d, revisionsAfter, l) {
      if SameLink(db, d, l) {
        hide Settled, HomesOk, OneRowEach, Integrity.KeysOk, KeysMove, ProblemsMove, RevisionsMove;
        assert LinkSettled(db, revisions, l);
        SettledSurvives(db, revisions, d, revisionsAfter, t, KeyOf(c), c.cleaned, db.batches[db.links[l].bid].oid, db.links[l].pid);
      }
    }
  }

  // ---------------------------------------------------------------- what students see

  /** The transactions link only problems that students may see. */
  ghost predicate Shows(db: Db, st: Stmt) {
    (st.PublishTx? || st.EditTx?) ==> forall x :: x in st.slots ==> Presentable(db, x.pid)
  }

  ghost predicate NewLinksShown(db: Db, d: Db) {
    forall l :: l in d.links ==> SameLink(db, d, l) || Presentable(d, d.links[l].pid)
  }

  lemma ShownLinks(db: Db, d: Db, bid: nat, slots: seq<Slot>)
    requires RowsOk(db) && d.links == Relinked(db, bid, slots).links && d.problems == db.problems && d.tests == db.tests
    requires forall x :: x in slots ==> Presentable(db, x.pid)
    ensures NewLinksShown(db, d)
  {
    LinksAfter(db, bid, slots);
    hide Relinked;
  }

  lemma UnlinkedShown(db: Db, d: Db)
    requires forall l :: l in d.links ==> l in db.links && d.links[l] == db.links[l]
    ensures NewLinksShown(db, d)
  {
  }

  lemma PublishedShown(db: Db, oid: nat, bid: nat, key: nat, slots: seq<Slot>)
    requires RowsOk(db) && forall x :: x in slots ==> Presentable(db, x.pid)
    ensures NewLinksShown(db, CommitPublish(db, oid, bid, key, slots))
  {
    hide NewLinksShown, RowsOk, Relinked;
    if ActiveOffering(db, oid) && key in db.drafts {
      ShownLinks(db, CommitPublish(db, oid, bid, key, slots), bid, slots);
    } else {
      UnlinkedShown(db, db);
    }
  }

  lemma ExecShows(db: Db, st: Stmt)
    requires RowsOk(db) && Shows(db, st)
    ensures NewLinksShown(db, Exec(db, st))
  {
    hide NewLinksShown, RowsOk, Exec;
    if st.PublishTx? || st.EditTx? {
      CommitShows(db, st);
    } else if st.PutBatch? || st.ArchiveRow? || st.RemoveTx? || st.DeleteTx? {
      RowsShow(db, st);
    } else {
      ExecSameRows(db, st);
      UnlinkedShown(db, Exec(db, st));
    }
  }

  lemma CommitShows(db: Db, st: Stmt)
    requires RowsOk(db) && Shows(db, st) && (st.PublishTx? || st.EditTx?)
    ensures NewLinksShown(db, Exec(db, st))
  {
    hide NewLinksShown, RowsOk, CommitPublish, CommitEdit, Relinked;
    match st
    case PublishTx(oid, bid, key, slots) => PublishedShown(db, oid, bid, key, slots);
    case EditTx(bid, doomed, slots, status) =>
      EditedRows(db, bid, doomed, slots, status);
      ShownLinks(db, CommitEdit(db, bid, doomed, slots, status), bid, slots);
  }

  lemma RowsShow(db: Db, st: Stmt)
    requires st.PutBatch? || st.ArchiveRow? || st.RemoveTx? || st.DeleteTx?
    ensures NewLinksShown(db, Exec(db, st))
  {
    hide NewLinksShown, EnsureBatch, Archive, CommitRemove, CommitDelete;
    match st
    case PutBatch(oid, key, library) => UnlinkedShown(db, Exec(db, st));
    case ArchiveRow(oid) => UnlinkedShown(db, Exec(db, st));
    case RemoveTx(bid) =>
      RemovedLinks(db, bid);
      UnlinkedShown(db, Exec(db, st));
    case DeleteTx(oid, course) =>
      DeletedLinks(db, oid, course);
      UnlinkedShown(db, Exec(db, st));
  }

  lemma DeletedLinks(db: Db, oid: nat, course: nat)
    ensures forall l :: l in CommitDelete(db, oid, course).links ==>
              l in db.links && CommitDelete(db, oid, course).links[l] == db.links[l]
  {
    hide CourseUsed, LinkOfOffering;
  }

  lemma StillOpen(db: Db, d: Db, locked: Option<nat>, key: Option<nat>, l: nat)
    requires RowsOk(db) && RowsMove(db, d, locked, key) && SameLink(db, d, l) && OpenBatch(d, d.links[l].bid)
    ensures OpenBatch(db, db.links[l].bid)
  {
  }

  /** A link of an open batch leads to a problem this step neither writes nor erases. */
  lemma LinkedUntouched(db: Db, revisions: map<nat, nat>, d: Db, t: nat, c: Progress, l: nat)
    requires ProblemsMove(db, d, KeyOf(c), c.cleaned)
    requires LinksSettled(db, revisions) && Integrity.KeysOk(db, revisions) && Warranted(db, revisions, t, c) && Grounded(c)
    requires c.cleaned.Some? && c.whole ==> c.closed
    requires c.publishing ==> !Exposed(db, c.key)
    requires l in db.links && OpenBatch(db, db.links[l].bid) && db.links[l].pid in db.problems
    ensures Untouched(db, d, db.links[l].pid)
  {
    hide BatchOk, RowOk;
    assert LinkSettled(db, revisions, l);
    assert c.publishing ==> !Exposes(db, c.key, l);
  }

  /** What students see stays complete through a step that does not write under what they see. */
  lemma SeenKept(db: Db, revisions: map<nat, nat>, d: Db, t: nat, c: Progress)
    requires Orderly(db, revisions) && AllPresentable(db) && Integrity.KeysOk(db, revisions) && Warranted(db, revisions, t, c) && Grounded(c)
    requires c.cleaned.Some? && c.whole ==> c.closed
    requires c.publishing ==> !Exposed(db, c.key)
    requires Guarantee(db, d, c.locked, KeyOf(c), c.cleaned) && NewLinksShown(db, d)
    ensures AllPresentable(d)
  {
    forall l | l in d.links && OpenBatch(d, d.links[l].bid) ensures Presentable(d, d.links[l].pid) {
      if SameLink(db, d, l) {
        hide Warranted, HomesOk, OneRowEach, Integrity.KeysOk, LinksSettled, Exposed, KeysMove, Grounded;
        StillOpen(db, d, c.locked, KeyOf(c), l);
        LinkedUntouched(db, revisions, d, t, c, l);
      }
    }
  }

  /** No step exposes a problem under a key at which another request is publishing. */
  lemma StaysHidden(db: Db, revisions: map<nat, nat>, d: Db, t: nat, ct: Progress, u: nat, c: Progress)
    requires Guarantee(db, d, ct.locked, KeyOf(ct), ct.cleaned)
    requires Apart(db, revisions, t, ct, u, c) && LinksSettled(db, revisions)
    requires c.publishing && !Exposed(db, c.key)
    ensures !Exposed(d, c.key)
  {
    KeysApart(db, revisions, t, ct, u, c);
    forall l ensures !Exposes(d, c.key, l) {
      if Exposes(d, c.key, l) {
        hide Warranted, Grounded, HomesOk, KeysMove, Integrity.KeysOk;
        ExposedBefore(db, revisions, d, ct, c.key, l);
      }
    }
  }

  lemma ExposedBefore(db: Db, revisions: map<nat, nat>, d: Db, ct: Progress, key: nat, l: nat)
    requires RowsOk(db) && LinksSettled(db, revisions)
    requires ProblemsMove(db, d, KeyOf(ct), ct.cleaned) && RowsMove(db, d, ct.locked, KeyOf(ct)) && KeyOf(ct) != Some(key)
    requires Exposes(d, key, l)
    ensures Exposed(db, key)
  {
    var x := d.links[l].pid;
    if SameLink(db, d, l) {
      assert LinkSettled(db, revisions, l);
      assert Exposes(db, key, l);
    } else if x in db.problems {
      assert !Carries(db, KeyOf(ct), x);
      var m :| m in db.links && db.links[m].bid == d.links[l].bid && db.links[m].pid == x;
      assert Exposes(db, key, m);
    }
  }
}
