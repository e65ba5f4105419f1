/**
 Publishing a draft, attempt by attempt: every attempt may be cut off after any statement, the draft may be
 edited before the next one, and other sessions may take batch numbers in between.
 */
module Authoring {
  import opened Values
  import opened Tables
  import opened Machine
  import opened Relinking
  import opened Stores

  // ---------------------------------------------------------------- what no attempt breaks

  /** At most one batch per authoring key. */
  predicate OneBatchEach(db: Db) {
    forall b, c :: b in db.batches && c in db.batches && db.batches[b].key.Some? && db.batches[b].key == db.batches[c].key ==> b == c
  }

  predicate SamePlace(b: Batch, c: Batch) { b.oid == c.oid && b.seqNo == c.seqNo }

  /** No two batches of an offering share a number. */
  predicate SeqsDiffer(db: Db) {
    forall b, c :: b in db.batches && c in db.batches && SamePlace(db.batches[b], db.batches[c]) ==> b == c
  }

  predicate IdsBelow(db: Db) {
    && (forall p :: p in db.problems ==> p < db.nextPid)
    && (forall b :: b in db.batches ==> b < db.nextBid)
    && (forall l :: l in db.links ==> l < db.nextBp)
  }

  predicate WellKept(db: Db) { OneBatchEach(db) && SeqsDiffer(db) && OneRowEach(db) && IdsBelow(db) }

  /** Batches stay; the new ones are unpublished, and at most one of them carries the key. */
  predicate BatchesGrow(a: Db, d: Db, oid: nat, key: nat) {
    && (forall b :: b in a.batches ==> b in d.batches && d.batches[b] == a.batches[b])
    && forall b :: b in d.batches && b !in a.batches ==>
         a.nextBid <= b && d.batches[b].oid == oid && d.batches[b].status == Staged && (d.batches[b].key.None? || d.batches[b].key == Some(key))
  }

  /** Problems stay under their source; rows and tests of other keys are untouched, and new rows are of this key. */
  ghost predicate ProblemsGrow(a: Db, d: Db, key: nat) {
    && a.nextPid <= d.nextPid
    && (forall p :: p in a.problems ==> p in d.problems && d.problems[p].source == a.problems[p].source)
    && (forall p :: p in a.problems && !HasKey(a.problems[p], key) ==> d.problems[p] == a.problems[p])
    && (forall p :: p in d.problems && p !in a.problems ==> a.nextPid <= p && HasKey(d.problems[p], key))
    && forall p :: !(p in d.problems && HasKey(d.problems[p], key)) ==> TestsStay(a, d, p)
  }

  predicate TestsStay(a: Db, d: Db, p: nat) { (p in d.tests <==> p in a.tests) && (p in a.tests ==> d.tests[p] == a.tests[p]) }

  /** What an unfinished attempt may have done. */
  ghost predicate Attempted(a: Db, d: Db, oid: nat, key: nat) {
    && d == a.(batches := d.batches, nextBid := d.nextBid, problems := d.problems, tests := d.tests, nextPid := d.nextPid)
    && a.nextBid <= d.nextBid && BatchesGrow(a, d, oid, key) && ProblemsGrow(a, d, key)
  }

  // ---------------------------------------------------------------- the batch

  /** COALESCE(MAX(seq),0) over the batches of an offering. */
  method MaxSeq(batches: map<nat, Batch>, oid: nat) returns (m: nat)
    ensures forall b :: b in batches && batches[b].oid == oid ==> batches[b].seqNo <= m
    ensures m == 0 || exists b :: b in batches && batches[b].oid == oid && batches[b].seqNo == m
  {
    m := 0;
    var todo := batches.Keys;
    while todo != {}
      invariant forall b :: b in batches && b !in todo && batches[b].oid == oid ==> batches[b].seqNo <= m
      invariant m == 0 || exists b :: b in batches && batches[b].oid == oid && batches[b].seqNo == m
      decreases |todo|
    {
      var b :| b in todo;
      if b in batches && batches[b].oid == oid && m < batches[b].seqNo {
        m := batches[b].seqNo;
      }
      todo := todo - {b};
    }
  }

  /** A new batch at the end of its offering. */
  predicate NewLast(a: Db, d: Db, oid: nat, bid: nat)
    requires bid in d.batches
  {
    d.batches[bid].oid == oid && forall b :: b in a.batches && a.batches[b].oid == oid ==> a.batches[b].seqNo < d.batches[bid].seqNo
  }

  /** The batch of the key among the rows, found or inserted at the end of the offering. */
  predicate Ensured(a: Db, d: Db, oid: nat, key: nat, bid: nat) {
    && bid in d.batches && d.batches[bid].key == Some(key)
    && (if bid in a.batches then d == a else NewLast(a, d, oid, bid))
  }

  /**
   `ensure_batch`. Before each of its inserts another session may have taken the number, `rivals` times in all;
   the insert is then ignored and tried again, three times at most.
   */
  method EnsureBatch(s: Store, oid: nat, key: nat, library: Option<nat>, rivals: nat) returns (found: Option<nat>)
    requires WellKept(s.db)
    modifies s
    ensures WellKept(s.db) && Attempted(old(s.db), s.db, oid, key)
    ensures s.db == old(s.db).(batches := s.db.batches, nextBid := s.db.nextBid)
    ensures found.Some? ==> Ensured(old(s.db), s.db, oid, key, found.value)
    ensures found.None? <==> !KeyUsed(old(s.db), key) && rivals >= 3
  {
    hide WellKept, Attempted, KeyUsed, Ensured;
    NothingAttempted(s.db, oid, key);
    if b :| b in s.db.batches && s.db.batches[b].key == Some(key) {
      Found(s.db, oid, key, b);
      return Some(b);
    }
    NotFound(s.db, key);
    var i := 0;
    while i < 3
      invariant i <= 3 && i <= rivals && !KeyUsed(s.db, key) && !KeyUsed(old(s.db), key)
      invariant WellKept(s.db) && Attempted(old(s.db), s.db, oid, key)
      invariant s.db == old(s.db).(batches := s.db.batches, nextBid := s.db.nextBid)
    {
      var top := MaxSeq(s.db.batches, oid);
      var mine := i >= rivals;
      Inserted(old(s.db), s.db, oid, key, library, top + 1, mine);
      s.db := WithBatch(s.db, oid, top + 1, if mine then Some(key) else None, library);
      if mine { return Some(s.db.nextBid - 1); }
      i := i + 1;
    }
    return None;
  }

  lemma NothingAttempted(db: Db, oid: nat, key: nat)
    ensures Attempted(db, db, oid, key)
  {
  }

  lemma Found(db: Db, oid: nat, key: nat, b: nat)
    requires b in db.batches && db.batches[b].key == Some(key)
    ensures KeyUsed(db, key) && Ensured(db, db, oid, key, b)
  {
  }

  lemma NotFound(db: Db, key: nat)
    requires !exists b :: b in db.batches && db.batches[b].key == Some(key)
    ensures !KeyUsed(db, key)
  {
  }

  function WithBatch(db: Db, oid: nat, seqNo: nat, key: Option<nat>, library: Option<nat>): (d: Db)
    ensures d == db.(batches := d.batches, nextBid := d.nextBid)
  {
    db.(batches := db.batches[db.nextBid := Batch(oid, seqNo, Staged, key, library)], nextBid := db.nextBid + 1)
  }

  lemma Inserted(a: Db, db: Db, oid: nat, key: nat, library: Option<nat>, seqNo: nat, mine: bool)
    requires WellKept(db) && Attempted(a, db, oid, key) && !KeyUsed(db, key) && !KeyUsed(a, key)
    requires forall b :: b in db.batches && db.batches[b].oid == oid ==> db.batches[b].seqNo < seqNo
    ensures var d := WithBatch(db, oid, seqNo, if mine then Some(key) else None, library);
      && WellKept(d) && Attempted(a, d, oid, key)
      && (if mine then Ensured(a, d, oid, key, db.nextBid) else !KeyUsed(d, key))
  {
    hide ProblemsGrow, OneRowEach, OneBatchEach, SeqsDiffer, BatchesGrow, Ensured, KeyUsed, IdsBelow;
    var d := WithBatch(db, oid, seqNo, if mine then Some(key) else None, library);
    SameRows(db, d);
    SameProblemsGrow(a, db, d, key);
    NewBatchKept(db, oid, key, library, seqNo, mine);
    NewBatchGrows(a, db, oid, key, library, seqNo, mine);
  }

  lemma SameRows(db: Db, d: Db)
    requires OneRowEach(db) && d.problems == db.problems
    ensures OneRowEach(d)
  {
    assert forall p, q :: p in db.problems && q in db.problems ==> (SameSource(d, p, q) <==> SameSource(db, p, q));
  }

  lemma NewBatchKept(db: Db, oid: nat, key: nat, library: Option<nat>, seqNo: nat, mine: bool)
    requires OneBatchEach(db) && SeqsDiffer(db) && IdsBelow(db) && !KeyUsed(db, key)
    requires forall b :: b in db.batches && db.batches[b].oid == oid ==> db.batches[b].seqNo < seqNo
    ensures var d := WithBatch(db, oid, seqNo, if mine then Some(key) else None, library);
      OneBatchEach(d) && SeqsDiffer(d) && IdsBelow(d) && (!mine ==> !KeyUsed(d, key))
  {
  }

  lemma NewBatchGrows(a: Db, db: Db, oid: nat, key: nat, library: Option<nat>, seqNo: nat, mine: bool)
    requires IdsBelow(db) && a.nextBid <= db.nextBid && BatchesGrow(a, db, oid, key) && !KeyUsed(db, key) && !KeyUsed(a, key)
    requires forall b :: b in db.batches && db.batches[b].oid == oid ==> db.batches[b].seqNo < seqNo
    ensures var d := WithBatch(db, oid, seqNo, if mine then Some(key) else None, library);
      BatchesGrow(a, d, oid, key) && (mine ==> Ensured(a, d, oid, key, db.nextBid))
  {
  }

  lemma SameProblemsGrow(a: Db, b: Db, d: Db, key: nat)
    requires ProblemsGrow(a, b, key) && d.problems == b.problems && d.tests == b.tests && d.nextPid == b.nextPid
    ensures ProblemsGrow(a, d, key)
  {
  }

  // ---------------------------------------------------------------- the problems

  /** The problem is there under its source, with the content and all the tests of the document. */
  predicate IsWritten(db: Db, key: nat, pid: nat, it: Item) {
    && pid in db.problems && db.problems[pid].source == Authored(key, it.slug)
    && db.problems[pid].content == it.content && db.problems[pid].wants == it.tests
    && pid in db.tests && db.tests[pid] == it.tests
  }

  predicate AllWritten(db: Db, key: nat, items: seq<Item>, pids: seq<nat>) {
    |pids| <= |items| && forall k | 0 <= k < |pids| :: IsWritten(db, key, pids[k], items[k])
  }

  predicate OnlyProblems(a: Db, d: Db) { d == a.(problems := d.problems, tests := d.tests, nextPid := d.nextPid) }

  /**
   `sync_problem` with `fuel` statements left. The result is the fuel after it, or -1 when the process was gone
   before: the row may then be new or rewritten, and some of the tests missing.
   */
  method WriteProblem(s: Store, key: nat, it: Item, fuel: int) returns (pid: nat, left: int)
    requires WellKept(s.db) && 0 <= fuel
    modifies s
    ensures WellKept(s.db) && OnlyProblems(old(s.db), s.db) && ProblemsGrow(old(s.db), s.db, key)
    ensures left >= 0 ==> Rewritten(old(s.db), s.db, Authored(key, it.slug), it.content, it.tests, pid)
    ensures left >= 0 ==> left == fuel - 2 - |it.tests|
    ensures 2 + |it.tests| <= fuel ==> left >= 0
  {
    hide WellKept, ProblemsGrow, Rewritten, Known;
    pid := s.db.nextPid;
    NothingGrows(s.db, key);
    if fuel == 0 { return pid, -1; }
    if p :| p in s.db.problems && s.db.problems[p].source == Authored(key, it.slug) {
      pid := p;
      RowUpdated(s.db, key, it, pid);
      s.db := UpdateProblem(s.db, pid, it.content, it.tests);
    } else {
      RowInserted(s.db, key, it);
      s.db := InsertProblem(s.db, Authored(key, it.slug), it.content, it.tests);
    }
    ghost var mid := s.db;
    if fuel == 1 { return pid, -1; }
    left := WriteSomeTests(s, pid, it.tests, fuel - 2);
    TestsRewritten(old(s.db), mid, key, pid, FirstTests(it.tests, fuel - 2));
    RowRewritten(old(s.db), mid, key, it, pid);
  }

  /** The tests written before the process was gone. */
  function FirstTests(tests: seq<Case>, fuel: int): seq<Case>
    requires 0 <= fuel
  {
    if fuel < |tests| then tests[..fuel] else tests
  }

  /** Clears the tests and writes them one by one; the result is the fuel left, or -1 when it has run out before. */
  method WriteSomeTests(s: Store, pid: nat, tests: seq<Case>, fuel: int) returns (left: int)
    requires 0 <= fuel
    modifies s
    ensures s.db == old(s.db).(tests := old(s.db).tests[pid := FirstTests(tests, fuel)])
    ensures left == if fuel < |tests| then -1 else fuel - |tests|
  {
    s.db := s.db.(tests := s.db.tests[pid := []]);
    var j := 0;
    while j < |tests|
      invariant j <= |tests| && j <= fuel
      invariant s.db == old(s.db).(tests := old(s.db).tests[pid := tests[..j]])
    {
      if j == fuel { return -1; }
      assert tests[..j] + [tests[j]] == tests[..j + 1];
      s.db := WriteTest(s.db, pid, tests[j]);
      j := j + 1;
    }
    assert tests[..j] == tests;
    return fuel - |tests|;
  }

  lemma NothingGrows(db: Db, key: nat)
    ensures ProblemsGrow(db, db, key)
  {
  }

  /** The row has been found and rewritten, or made. */
  predicate RowReady(a: Db, mid: Db, key: nat, it: Item, pid: nat) {
    && mid == a.(problems := mid.problems, nextPid := mid.nextPid) && pid in mid.problems
    && (if pid in a.problems
        then a.problems[pid].source == Authored(key, it.slug) && mid == UpdateProblem(a, pid, it.content, it.tests)
        else !Known(a, Authored(key, it.slug)) && pid == a.nextPid && mid == InsertProblem(a, Authored(key, it.slug), it.content, it.tests))
  }

  lemma RowUpdated(a: Db, key: nat, it: Item, pid: nat)
    requires WellKept(a) && pid in a.problems && a.problems[pid].source == Authored(key, it.slug)
    ensures var d := UpdateProblem(a, pid, it.content, it.tests); RowReady(a, d, key, it, pid) && WellKept(d) && ProblemsGrow(a, d, key)
  {
    var d := UpdateProblem(a, pid, it.content, it.tests);
    assert forall p, q :: p in d.problems && q in d.problems ==> (SameSource(d, p, q) <==> SameSource(a, p, q));
    hide SameSource;
  }

  lemma RowInserted(a: Db, key: nat, it: Item)
    requires WellKept(a) && forall p :: p in a.problems ==> a.problems[p].source != Authored(key, it.slug)
    ensures var d := InsertProblem(a, Authored(key, it.slug), it.content, it.tests);
      RowReady(a, d, key, it, a.nextPid) && WellKept(d) && ProblemsGrow(a, d, key)
  {
    var d := InsertProblem(a, Authored(key, it.slug), it.content, it.tests);
    assert forall p, q :: p in a.problems && q in a.problems ==> (SameSource(d, p, q) <==> SameSource(a, p, q));
  }

  lemma TestsRewritten(a: Db, mid: Db, key: nat, pid: nat, tests: seq<Case>)
    requires ProblemsGrow(a, mid, key) && WellKept(mid) && pid in mid.problems && HasKey(mid.problems[pid], key)
    ensures var d := mid.(tests := mid.tests[pid := tests]); ProblemsGrow(a, d, key) && WellKept(d)
  {
    SameRows(mid, mid.(tests := mid.tests[pid := tests]));
    hide OneRowEach;
  }

  lemma RowRewritten(a: Db, mid: Db, key: nat, it: Item, pid: nat)
    requires RowReady(a, mid, key, it, pid) && WellKept(a)
    ensures Rewritten(a, mid.(tests := mid.tests[pid := it.tests]), Authored(key, it.slug), it.content, it.tests, pid)
  {
    hide OneBatchEach, SeqsDiffer, OneRowEach;
    assert pid !in a.problems ==> pid == a.nextPid;
  }

  ghost function Cost(items: seq<Item>): nat {
    if items == [] then 0 else Cost(items[..|items| - 1]) + 2 + |items[|items| - 1].tests|
  }

  /** All problems of the document, in order. */
  method WriteProblems(s: Store, key: nat, items: seq<Item>, fuel: int) returns (pids: seq<nat>, left: int)
    requires WellKept(s.db) && DistinctSlugs(items) && 0 <= fuel
    modifies s
    ensures WellKept(s.db) && OnlyProblems(old(s.db), s.db) && ProblemsGrow(old(s.db), s.db, key)
    ensures left >= 0 ==> |pids| == |items| && Distinct(pids) && AllWritten(s.db, key, items, pids)
    ensures left >= 0 ==> left == fuel - Cost(items)
    ensures Cost(items) <= fuel ==> left >= 0
  {
    hide WellKept, ProblemsGrow, Rewritten, IsWritten, DistinctSlugs, Distinct;
    pids, left := [], fuel;
    NothingGrows(s.db, key);
    CostGrows(items, 0);
    while |pids| < |items|
      invariant |pids| <= |items| && left == fuel - Cost(items[..|pids|]) && left >= 0 && Cost(items[..|pids|]) <= Cost(items)
      invariant WellKept(s.db) && OnlyProblems(old(s.db), s.db) && ProblemsGrow(old(s.db), s.db, key)
      invariant AllWritten(s.db, key, items, pids)
    {
      var k := |pids|;
      ghost var before := s.db;
      CostGrows(items, k + 1);
      assert items[..k + 1][..k] == items[..k];
      var pid: nat;
      pid, left := WriteProblem(s, key, items[k], left);
      GrowsTwice(old(s.db), before, s.db, key);
      if left < 0 { return; }
      OneMoreWritten(before, s.db, key, items, pids, pid);
      pids := pids + [pid];
    }
    assert items[..|pids|] == items;
    WrittenDistinct(s.db, key, items, pids);
  }

  lemma CostGrows(items: seq<Item>, k: nat)
    requires k <= |items|
    ensures Cost(items[..k]) <= Cost(items)
    decreases |items|
  {
    if k < |items| {
      assert items[..|items| - 1][..k] == items[..k];
      CostGrows(items[..|items| - 1], k);
    } else {
      assert items[..k] == items;
    }
  }

  lemma GrowsTwice(a: Db, b: Db, d: Db, key: nat)
    requires ProblemsGrow(a, b, key) && ProblemsGrow(b, d, key)
    ensures ProblemsGrow(a, d, key)
  {
  }

  lemma OneMoreWritten(a: Db, d: Db, key: nat, items: seq<Item>, pids: seq<nat>, pid: nat)
    requires |pids| < |items| && DistinctSlugs(items) && AllWritten(a, key, items, pids) && WellKept(a)
    requires var it := items[|pids|]; Rewritten(a, d, Authored(key, it.slug), it.content, it.tests, pid)
    ensures AllWritten(d, key, items, pids + [pid])
  {
    hide OneRowEach;
    var n := pids + [pid];
    forall k | 0 <= k < |n| ensures IsWritten(d, key, n[k], items[k]) {
      if k < |pids| {
        assert IsWritten(a, key, pids[k], items[k]) && items[k].slug != items[|pids|].slug;
      }
    }
  }

  lemma WrittenDistinct(db: Db, key: nat, items: seq<Item>, pids: seq<nat>)
    requires AllWritten(db, key, items, pids) && DistinctSlugs(items)
    ensures Distinct(pids)
  {
    forall i, j | 0 <= i < j < |pids| ensures pids[i] != pids[j] {
      assert IsWritten(db, key, pids[i], items[i]) && IsWritten(db, key, pids[j], items[j]);
    }
  }

  // ---------------------------------------------------------------- one attempt

  /** What students may see under the key is exactly the document, all of it written. */
  predicate ShownExactly(db: Db, key: nat, items: seq<Item>, pids: seq<nat>) {
    && |pids| == |items| && AllWritten(db, key, items, pids)
    && forall p :: p in db.problems && HasKey(db.problems[p], key) ==> (db.problems[p].visible <==> p in pids)
  }

  /** The batch of the key is published, and links the document in order, with its scores. */
  ghost predicate Settled(db: Db, key: nat, items: seq<Item>, pids: seq<nat>, bid: nat) {
    && ShownExactly(db, key, items, pids) && Distinct(pids)
    && bid in db.batches && db.batches[bid].key == Some(key) && db.batches[bid].status == Published
    && (exists first :: Numbered(db, bid, first, pids, items))
    && key in db.drafts && db.drafts[key].published && db.drafts[key].batch == Some(bid)
  }

  /** The state after a whole attempt; apart from the key's own rows, everything is as it was. */
  ghost predicate Publication(a: Db, d: Db, oid: nat, key: nat, items: seq<Item>, pids: seq<nat>, bid: nat) {
    && |pids| == |items| && bid in d.batches
    && d == a.(batches := d.batches, nextBid := d.nextBid, problems := d.problems, tests := d.tests, nextPid := d.nextPid,
               links := d.links, nextBp := d.nextBp, drafts := d.drafts)
    && ProblemsGrow(a, d, key) && ShownExactly(d, key, items, pids) && Distinct(pids)
    && LinksRebuilt(a, d, bid, items, pids)
    && d.batches[bid].key == Some(key) && d.batches[bid].status == Published
    && (bid in a.batches ==> d.batches[bid] == a.batches[bid].(status := Published))
    && (bid !in a.batches ==> NewLast(a, d, oid, bid))
    && (forall b :: b in a.batches && b != bid ==> b in d.batches && d.batches[b] == a.batches[b])
    && (forall b :: b in d.batches && b !in a.batches && b != bid ==> d.batches[b].key.None? && d.batches[b].status == Staged)
    && key in a.drafts && d.drafts == a.drafts[key := a.drafts[key].(published := true, batch := Some(bid))]
  }

  datatype Ending = Refused | Done(bid: nat) | Cut

  predicate AlreadyPublished(db: Db, key: nat) { key in db.drafts && db.drafts[key].published && db.drafts[key].batch.Some? }

  /** The draft is there and belongs to an active offering. */
  predicate MayPublish(db: Db, key: nat) { key in db.drafts && db.drafts[key].oid.Some? && ActiveOffering(db, db.drafts[key].oid.value) }

  /**
   One attempt to publish a draft, cut off after `fuel` statements. `ready` stands for the teacher's confirmation
   and the checks on the document; `rivals` is as above.
   */
  method Attempt(s: Store, key: nat, items: seq<Item>, ready: bool, library: Option<nat>, rivals: nat, fuel: nat)
    returns (end: Ending, pids: seq<nat>)
    requires WellKept(s.db) && DistinctSlugs(items)
    modifies s
    ensures WellKept(s.db)
    ensures AlreadyPublished(old(s.db), key) ==> s.db == old(s.db) && end == Done(s.db.drafts[key].batch.value)
    ensures !AlreadyPublished(old(s.db), key) && !(ready && MayPublish(old(s.db), key)) ==> s.db == old(s.db) && end.Refused?
    ensures !AlreadyPublished(old(s.db), key) && ready && MayPublish(old(s.db), key) ==>
      (end.Done? ==> Publication(old(s.db), s.db, old(s.db).drafts[key].oid.value, key, items, pids, end.bid))
    ensures !end.Done? ==> Unpublished(old(s.db), s.db, key)
    ensures rivals < 3 && Cost(items) + 4 <= fuel ==> !end.Cut? && (ready && MayPublish(old(s.db), key) ==> end.Done?)
  {
    hide WellKept, Attempted, Publication, Ensured, ProblemsGrow, DistinctSlugs, Distinct, AllWritten, ShownExactly,
      ActiveOffering, Unpublished, KeyUsed;
    pids := [];
    NothingLost(s.db, key);
    if AlreadyPublished(s.db, key) { return Done(s.db.drafts[key].batch.value), pids; }
    if !ready || !MayPublish(s.db, key) { return Refused, pids; }
    var oid := s.db.drafts[key].oid.value;
    if fuel == 0 { return Cut, pids; }
    var found := EnsureBatch(s, oid, key, library, rivals);
    ghost var ensured := s.db;
    NothingGrows(s.db, key);
    NotPublished(old(s.db), s.db, s.db, oid, key);
    if found.None? { return Refused, pids; }
    var bid, left := found.value, 0;
    pids, left := WriteProblems(s, key, items, fuel - 1);
    NotPublished(old(s.db), ensured, s.db, oid, key);
    if left <= 0 { return Cut, pids; }
    ghost var written := s.db;
    HiddenAndShown(written, key, items, pids);
    GrowsTwice(ensured, written, HideOthers(written, key, PidSet(pids)), key);
    s.db := HideOthers(s.db, key, PidSet(pids));
    NotPublished(old(s.db), ensured, s.db, oid, key);
    if left == 1 { return Cut, pids; }
    GrowsTwice(ensured, written, Show(HideOthers(written, key, PidSet(pids)), PidSet(pids)), key);
    s.db := Show(s.db, PidSet(pids));
    NotPublished(old(s.db), ensured, s.db, oid, key);
    if left == 2 { return Cut, pids; }
    ghost var shown := s.db;
    StillOpen(old(s.db), shown, oid, key);
    var committed := Commit(s, oid, key, items, pids, bid);
    if !committed { return Refused, pids; }
    CommitPublishes(old(s.db), ensured, shown, s.db, oid, key, items, pids, bid);
    return Done(bid), pids;
  }

  /**
   The transaction: the links are rebuilt, the batch and the draft become published, or, with the offering closed
   or the draft gone by now, nothing happens. Its statements together are the one commit step of the machine.
   */
  method Commit(s: Store, oid: nat, key: nat, items: seq<Item>, pids: seq<nat>, bid: nat) returns (committed: bool)
    requires |pids| == |items|
    modifies s
    ensures s.db == CommitPublish(old(s.db), oid, bid, key, SlotsOf(pids, items))
    ensures committed <==> ActiveOffering(old(s.db), oid) && key in old(s.db).drafts
  {
    if !ActiveOffering(s.db, oid) || key !in s.db.drafts { return false; }
    s.db := Relinked(s.db, bid, SlotsOf(pids, items));
    s.db := WithStatus(s.db, bid, Published);
    s.db := s.db.(drafts := s.db.drafts[key := s.db.drafts[key].(published := true, batch := Some(bid))]);
    return true;
  }

  /** Students see nothing of an attempt that did not commit. */
  ghost predicate Unpublished(a: Db, d: Db, key: nat) {
    && d == a.(batches := d.batches, nextBid := d.nextBid, problems := d.problems, tests := d.tests, nextPid := d.nextPid)
    && ProblemsGrow(a, d, key)
    && (forall b :: b in a.batches ==> b in d.batches && d.batches[b] == a.batches[b])
    && (forall b :: b in d.batches && b !in a.batches ==> d.batches[b].status == Staged)
  }

  lemma NothingLost(db: Db, key: nat)
    ensures Unpublished(db, db, key)
  {
  }

  lemma NotPublished(a: Db, b: Db, d: Db, oid: nat, key: nat)
    requires Attempted(a, b, oid, key) && OnlyProblems(b, d) && ProblemsGrow(b, d, key)
    ensures Unpublished(a, d, key)
  {
    GrowsTwice(a, b, d, key);
    hide ProblemsGrow;
  }

  /** Hiding the rest of the key and showing the document. */
  lemma HiddenAndShown(w: Db, key: nat, items: seq<Item>, pids: seq<nat>)
    requires WellKept(w) && |pids| == |items| && AllWritten(w, key, items, pids)
    ensures var h := HideOthers(w, key, PidSet(pids));
      && WellKept(h) && OnlyProblems(w, h) && ProblemsGrow(w, h, key)
      && WellKept(Show(h, PidSet(pids))) && OnlyProblems(w, Show(h, PidSet(pids))) && ProblemsGrow(w, Show(h, PidSet(pids)), key)
      && ShownExactly(Show(h, PidSet(pids)), key, items, pids)
  {
    var h := HideOthers(w, key, PidSet(pids));
    var d := Show(h, PidSet(pids));
    hide WellKept, ShownExactly, ProblemsGrow, AllWritten;
    PidsHaveKey(w, key, items, pids);
    Reshown(w, h, key);
    Reshown(w, d, key);
    VisibleAre(w, key, items, pids);
  }

  lemma PidsHaveKey(w: Db, key: nat, items: seq<Item>, pids: seq<nat>)
    requires |pids| == |items| && AllWritten(w, key, items, pids)
    ensures forall p :: p in pids ==> p in w.problems && HasKey(w.problems[p], key)
  {
    forall p | p in pids ensures p in w.problems && HasKey(w.problems[p], key) {
      var k :| 0 <= k < |pids| && pids[k] == p;
      assert IsWritten(w, key, pids[k], items[k]);
    }
  }

  /** Only the visibility of the key's problems has changed. */
  lemma Reshown(w: Db, d: Db, key: nat)
    requires WellKept(w) && d == w.(problems := d.problems) && d.problems.Keys == w.problems.Keys
    requires forall p :: p in w.problems ==> d.problems[p].(visible := w.problems[p].visible) == w.problems[p]
    requires forall p :: p in w.problems && !HasKey(w.problems[p], key) ==> d.problems[p] == w.problems[p]
    ensures WellKept(d) && ProblemsGrow(w, d, key)
  {
    assert OneRowEach(d) by {
      assert forall p, q :: p in d.problems && q in d.problems ==> (SameSource(d, p, q) <==> SameSource(w, p, q));
      hide SameSource;
    }
    hide OneRowEach;
  }

  lemma VisibleAre(w: Db, key: nat, items: seq<Item>, pids: seq<nat>)
    requires |pids| == |items| && AllWritten(w, key, items, pids)
    ensures ShownExactly(Show(HideOthers(w, key, PidSet(pids)), PidSet(pids)), key, items, pids)
  {
    var d := Show(HideOthers(w, key, PidSet(pids)), PidSet(pids));
    forall k | 0 <= k < |pids| ensures IsWritten(d, key, pids[k], items[k]) {
      assert IsWritten(w, key, pids[k], items[k]);
    }
  }

  lemma StillOpen(a: Db, d: Db, oid: nat, key: nat)
    requires Unpublished(a, d, key) && ActiveOffering(a, oid) && key in a.drafts
    ensures ActiveOffering(d, oid) && key in d.drafts
  {
  }

  lemma CommitPublishes(a: Db, b: Db, w: Db, d: Db, oid: nat, key: nat, items: seq<Item>, pids: seq<nat>, bid: nat)
    requires WellKept(w) && WellKept(b) && Attempted(a, b, oid, key) && Ensured(a, b, oid, key, bid) && OnlyProblems(b, w) && ProblemsGrow(b, w, key)
    requires |pids| == |items| && Distinct(pids) && ShownExactly(w, key, items, pids) && key in a.drafts
    requires d == WithStatus(Relinked(w, bid, SlotsOf(pids, items)), bid, Published).(
      drafts := w.drafts[key := w.drafts[key].(published := true, batch := Some(bid))])
    ensures Publication(a, d, oid, key, items, pids, bid) && WellKept(d)
  {
    hide OneBatchEach, SeqsDiffer, OneRowEach, ProblemsGrow, ShownExactly, Relinked, LinksRebuilt, Distinct,
      BatchesGrow, Ensured, IdsBelow;
    IdsOf(w);
    RelinkedRows(w, bid, pids, items);
    LinksAre(w, d, bid, items, pids);
    LinksRead(a, w, d, bid, items, pids);
    GrowsTwice(a, b, w, key);
    SameProblemsGrow(a, w, d, key);
    ShownRead(w, d, key, items, pids);
    SameRows(w, d);
    EnsuredIn(a, b, oid, key, bid);
    RestatedKept(w, d, bid);
    RestatedBatches(a, b, d, oid, key, bid);
    hide Numbered;
  }

  lemma IdsOf(db: Db)
    requires IdsBelow(db)
    ensures forall l :: l in db.links ==> l < db.nextBp
  {
  }

  lemma EnsuredIn(a: Db, b: Db, oid: nat, key: nat, bid: nat)
    requires Ensured(a, b, oid, key, bid)
    ensures bid in b.batches && b.batches[bid].key == Some(key)
  {
  }

  lemma LinksRead(a: Db, w: Db, d: Db, bid: nat, items: seq<Item>, pids: seq<nat>)
    requires |pids| == |items| && LinksRebuilt(w, d, bid, items, pids) && w.links == a.links && w.nextBp == a.nextBp
    ensures LinksRebuilt(a, d, bid, items, pids)
  {
    hide Numbered;
  }

  lemma ShownRead(w: Db, d: Db, key: nat, items: seq<Item>, pids: seq<nat>)
    requires ShownExactly(w, key, items, pids) && d.problems == w.problems && d.tests == w.tests
    ensures ShownExactly(d, key, items, pids)
  {
    forall k | 0 <= k < |pids| ensures IsWritten(d, key, pids[k], items[k]) {
      assert IsWritten(w, key, pids[k], items[k]);
    }
  }

  lemma RestatedKept(w: Db, d: Db, bid: nat)
    requires OneBatchEach(w) && SeqsDiffer(w) && IdsBelow(w) && bid in w.batches
    requires d == w.(batches := w.batches[bid := w.batches[bid].(status := Published)], links := d.links, nextBp := d.nextBp, drafts := d.drafts)
    requires forall l :: l in d.links ==> l < d.nextBp
    ensures OneBatchEach(d) && SeqsDiffer(d) && IdsBelow(d)
  {
  }

  lemma RestatedBatches(a: Db, b: Db, d: Db, oid: nat, key: nat, bid: nat)
    requires BatchesGrow(a, b, oid, key) && Ensured(a, b, oid, key, bid) && OneBatchEach(b)
    requires bid in b.batches && d.batches == b.batches[bid := b.batches[bid].(status := Published)]
    ensures d.batches[bid].key == Some(key) && d.batches[bid].status == Published
    ensures if bid in a.batches then d.batches[bid] == a.batches[bid].(status := Published) else NewLast(a, d, oid, bid)
    ensures forall x :: x in a.batches && x != bid ==> x in d.batches && d.batches[x] == a.batches[x]
    ensures forall x :: x in d.batches && x !in a.batches && x != bid ==> d.batches[x].key.None? && d.batches[x].status == Staged
  {
  }

  // ---------------------------------------------------------------- attempt after attempt

  /** One press of the button: the draft as it is by then, and how far the process got. */
  datatype Try = Try(items: seq<Item>, ready: bool, library: Option<nat>, rivals: nat, fuel: nat)

  /** The press is not cut off, nor beaten to three numbers in a row. */
  ghost predicate Unhindered(press: Try) { press.ready && press.rivals < 3 && Cost(press.items) + 4 <= press.fuel }

  /**
   Attempt after attempt, each cut anywhere or refused, with the draft edited in between. All attempts that succeed
   name one batch, the one batch of the key. The first to succeed decides: the batch shows and links exactly its
   document, and every later one leaves the databases as they are: `after` are the databases after each attempt.
   Before it, students see nothing of the draft.
   */
  method PublishWithRetries(s: Store, key: nat, presses: seq<Try>)
    returns (ends: seq<Ending>, first: nat, pids: seq<nat>, ghost after: seq<Db>)
    requires WellKept(s.db) && !AlreadyPublished(s.db, key) && forall p <- presses :: DistinctSlugs(p.items)
    modifies s
    ensures WellKept(s.db) && |ends| == |presses| && first <= |presses|
    ensures forall k | 0 <= k < first :: !ends[k].Done?
    ensures forall k | first <= k < |ends| :: ends[k] == ends[first] && ends[k].Done?
    ensures MayPublish(old(s.db), key) ==> forall k | 0 <= k < |presses| && Unhindered(presses[k]) :: first <= k
    ensures first < |ends| ==> Settled(s.db, key, presses[first].items, pids, ends[first].bid)
    ensures first < |ends| ==> forall b :: b in s.db.batches && s.db.batches[b].key == Some(key) ==> b == ends[first].bid
    ensures first < |ends| ==>
      forall b :: b in old(s.db).batches && old(s.db).batches[b].key == Some(key) ==> b == ends[first].bid
    ensures first == |ends| ==> Unpublished(old(s.db), s.db, key)
    ensures ProblemsGrow(old(s.db), s.db, key)
    ensures |after| == |presses| && s.db == if after == [] then old(s.db) else after[|after| - 1]
    ensures forall k | 0 <= k < first :: Unpublished(old(s.db), after[k], key)
    ensures forall k | first <= k < |after| :: after[k] == after[first]
  {
    hide WellKept, Settled, Publication, Unpublished, ProblemsGrow, ActiveOffering, DistinctSlugs;
    ends, first, pids, after := [], 0, [], [];
    NothingLost(s.db, key);
    NothingGrows(s.db, key);
    while |ends| < |presses|
      invariant |ends| <= |presses| && first <= |ends| && WellKept(s.db)
      invariant forall k | 0 <= k < first :: !ends[k].Done?
      invariant forall k | first <= k < |ends| :: ends[k] == ends[first] && ends[k].Done?
      invariant AlreadyPublished(s.db, key) <==> first < |ends|
      invariant first == |ends| ==> (MayPublish(s.db, key) <==> MayPublish(old(s.db), key))
      invariant MayPublish(old(s.db), key) ==> forall k | 0 <= k < |ends| && Unhindered(presses[k]) :: first <= k
      invariant first < |ends| ==> s.db.drafts[key].batch == Some(ends[first].bid)
      invariant first < |ends| ==> Settled(s.db, key, presses[first].items, pids, ends[first].bid)
      invariant first < |ends| ==> SameBatch(old(s.db), key, ends[first].bid)
      invariant first == |ends| ==> Unpublished(old(s.db), s.db, key)
      invariant ProblemsGrow(old(s.db), s.db, key)
      invariant |after| == |ends| && s.db == if after == [] then old(s.db) else after[|after| - 1]
      invariant forall k | 0 <= k < first :: Unpublished(old(s.db), after[k], key)
      invariant forall k | first <= k < |after| :: after[k] == after[first]
    {
      var press := presses[|ends|];
      ghost var before := s.db;
      var end, written := Attempt(s, key, press.items, press.ready, press.library, press.rivals, press.fuel);
      if first == |ends| {
        if end.Done? {
          PublicationSettles(old(s.db), before, s.db, key, press.items, written, end.bid);
          pids := written;
        } else {
          first := first + 1;
          UnpublishedTwice(old(s.db), before, s.db, key);
        }
        GrownBy(before, s.db, key, press, end, written);
        GrowsTwice(old(s.db), before, s.db, key);
      }
      ends, after := ends + [end], after + [s.db];
    }
    if first < |ends| {
      OneBatch(s.db, key, presses[first].items, pids, ends[first].bid);
    }
  }

  /** Whatever batch the key had before is this one. */
  predicate SameBatch(a: Db, key: nat, bid: nat) { forall b :: b in a.batches && a.batches[b].key == Some(key) ==> b == bid }

  lemma PublicationSettles(start: Db, a: Db, d: Db, key: nat, items: seq<Item>, pids: seq<nat>, bid: nat)
    requires Unpublished(start, a, key) && key in a.drafts && a.drafts[key].oid.Some? && WellKept(d)
    requires Publication(a, d, a.drafts[key].oid.value, key, items, pids, bid)
    ensures Settled(d, key, items, pids, bid) && AlreadyPublished(d, key) && d.drafts[key].batch == Some(bid) && SameBatch(start, key, bid)
  {
    hide ShownExactly, ProblemsGrow, Numbered, OneRowEach, IdsBelow, SeqsDiffer;
    assert Numbered(d, bid, a.nextBp, pids, items);
  }

  lemma UnpublishedTwice(a: Db, b: Db, d: Db, key: nat)
    requires Unpublished(a, b, key) && Unpublished(b, d, key)
    ensures Unpublished(a, d, key) && (AlreadyPublished(d, key) <==> AlreadyPublished(b, key)) && (MayPublish(d, key) <==> MayPublish(b, key))
  {
    GrowsTwice(a, b, d, key);
    hide ProblemsGrow;
  }

  lemma GrownBy(a: Db, d: Db, key: nat, press: Try, end: Ending, pids: seq<nat>)
    requires if end.Done?
             then key in a.drafts && a.drafts[key].oid.Some? && Publication(a, d, a.drafts[key].oid.value, key, press.items, pids, end.bid)
             else Unpublished(a, d, key)
    ensures ProblemsGrow(a, d, key)
  {
    hide ShownExactly, LinksRebuilt;
  }

  lemma OneBatch(db: Db, key: nat, items: seq<Item>, pids: seq<nat>, bid: nat)
    requires WellKept(db) && Settled(db, key, items, pids, bid)
    ensures SameBatch(db, key, bid)
  {
    hide ShownExactly, Numbered, OneRowEach, SeqsDiffer, IdsBelow;
  }
}
