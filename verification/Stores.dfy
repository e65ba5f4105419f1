/** Both databases and the test directory as one object, and the writing of one problem. */
module Stores {
  import opened Tables

  predicate Known(db: Db, source: Source) { exists p :: p in db.problems && db.problems[p].source == source }

  /** The problem under the source has been written: content and tests are the document's, the rest of its row is kept. */
  predicate Rewritten(before: Db, after: Db, source: Source, content: string, tests: seq<Case>, pid: nat) {
    && after == before.(problems := after.problems, tests := before.tests[pid := tests], nextPid := after.nextPid)
    && (Known(before, source) ==>
          && pid in before.problems && before.problems[pid].source == source && after.nextPid == before.nextPid
          && after.problems == before.problems[pid := before.problems[pid].(content := content, wants := tests)])
    && (!Known(before, source) ==>
          && pid == before.nextPid && after.nextPid == pid + 1
          && after.problems == before.problems[pid := Problem(source, content, tests, false, 0, 0)])
  }

  class Store {
    var db: Db

    constructor (db: Db)
      ensures this.db == db
    {
      this.db := db;
    }

    /** `sync_problem`: the row of this source is found and rewritten, or made; then its tests are rewritten. */
    method SyncProblem(source: Source, content: string, tests: seq<Case>) returns (pid: nat)
      modifies this
      ensures Rewritten(old(db), db, source, content, tests, pid)
    {
      if p :| p in db.problems && db.problems[p].source == source {
        pid := p;
        db := UpdateProblem(db, pid, content, tests);
      } else {
        pid := db.nextPid;
        db := InsertProblem(db, source, content, tests);
      }
      WriteTests(pid, tests);
    }

    /** Clears the tests of a problem and writes them one by one. */
    method WriteTests(pid: nat, tests: seq<Case>)
      modifies this
      ensures db == old(db).(tests := old(db).tests[pid := tests])
    {
      db := db.(tests := db.tests[pid := []]);
      var j := 0;
      while j < |tests|
        invariant j <= |tests| && db == old(db).(tests := old(db).tests[pid := tests[..j]])
      {
        assert tests[..j] + [tests[j]] == tests[..j + 1];
        db := WriteTest(db, pid, tests[j]);
        j := j + 1;
      }
      assert tests[..j] == tests;
    }
  }
}
