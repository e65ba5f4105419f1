/** Runs put together action by action, for the examples. */
module Runs {
  import opened Tables
  import opened Machine
  import opened Locks

  /** `n` actions lead from one state to the other. */
  ghost predicate Leads(w: World, v: World, n: nat)
    decreases n
  {
    if n == 0 then w == v else exists x :: Leads(w, x, n - 1) && Moves(x, v)
  }

  lemma Then(w: World, x: World, v: World, n: nat)
    requires Leads(w, x, n) && Moves(x, v)
    ensures Leads(w, v, n + 1)
  {
  }

  lemma {:induction false} RunOf(w: World, v: World, n: nat) returns (run: seq<World>)
    requires AtRest(w) && Leads(w, v, n)
    decreases n
    ensures IsRun(run) && |run| == n + 1 && run[0] == w && run[n] == v
  {
    if n == 0 {
      run := [w];
    } else {
      var x :| Leads(w, x, n - 1) && Moves(x, v);
      var init := RunOf(w, x, n - 1);
      run := init + [v];
      forall i | 0 <= i < n ensures Moves(run[i], run[i + 1]) {
        if i < n - 1 {
          assert Moves(init[i], init[i + 1]);
        }
      }
    }
    hide Moves, AtRest;
  }

  // ---------------------------------------------------------------- statements

  lemma DropsProblem(db: Db, pid: nat)
    ensures Exec(db, DropProblem(pid)) == db.(problems := db.problems - {pid})
  {
  }

  lemma DropsTests(db: Db, pid: nat)
    ensures Exec(db, DropTests(pid)) == db.(tests := db.tests - {pid})
  {
  }

  lemma Empties(db: Db, pid: nat)
    ensures Exec(db, EmptyTests(pid)) == db.(tests := db.tests[pid := []])
  {
  }

  /** The only links there are belong to the batch, and it gets one. */
  lemma OneLink(db: Db, bid: nat, slots: seq<Slot>)
    requires |slots| == 1 && forall l :: l in db.links ==> db.links[l].bid == bid
    ensures Relinked(db, bid, slots) == db.(links := map[db.nextBp := Link(bid, slots[0].pid, 1, slots[0].score)], nextBp := db.nextBp + 1)
  {
    assert Rows(db.nextBp, bid, slots) == map[db.nextBp := Link(bid, slots[0].pid, 1, slots[0].score)] by {
      assert Ids(db.nextBp, 1) == {db.nextBp};
    }
  }

  // ---------------------------------------------------------------- actions

  /** Between its locks a request does what its next state and its statement say. */
  lemma WorkMoves(w: World, t: nat, tk: Task, pick: nat)
    requires t in w.tasks && w.tasks[t] == tk && Working(tk) && Picks(tk, pick)
    ensures var next, st := Next(w.db, tk, pick), StmtOf(w.db, tk, pick);
      Moves(w, w.(db := Exec(w.db, st), tasks := w.tasks[t := next], revisions := RevisionsAfter(w.revisions, t, tk, next),
                  dying := DyingAfter(w.dying, t, st)))
  {
    assert Enabled(w, Step(t, pick));
    hide Exec, StmtOf, Next, Wants, Frees, PhaseOf, RevisionsAfter, DyingAfter, Picks;
    var v := Act(w, Step(t, pick));
  }

  lemma TakesLock(w: World, t: nat, tk: Task)
    requires t in w.tasks && w.tasks[t] == tk && Wants(tk).Some? && Wants(tk).value !in w.locks && Picks(tk, 0)
    ensures Moves(w, w.(locks := w.locks[Wants(tk).value := t], tasks := w.tasks[t := AfterLock(tk)]))
  {
    assert Enabled(w, Step(t, 0));
    hide Wants, AfterLock, Picks;
    var v := Act(w, Step(t, 0));
  }

  lemma FreesLock(w: World, t: nat, tk: Task)
    requires t in w.tasks && w.tasks[t] == tk && Frees(tk).Some? && !PhaseOf(tk).Ending? && Picks(tk, 0)
    ensures Moves(w, w.(locks := w.locks - {Frees(tk).value}, tasks := w.tasks[t := AfterFree(tk)]))
  {
    assert Enabled(w, Step(t, 0));
    assert Wants(tk).None?;
    hide AfterFree, Picks, Wants, Frees, PhaseOf;
    var v := Act(w, Step(t, 0));
  }

  lemma Starts(w: World, job: Job)
    requires Acceptable(w.db, job)
    ensures Moves(w, w.(tasks := w.tasks[w.nextTid := Fresh(w.db, job)], nextTid := w.nextTid + 1))
  {
    assert Enabled(w, Start(job));
    hide Acceptable, Fresh;
    var v := Act(w, Start(job));
  }

  /** A request that ends here frees its locks. */
  lemma Stops(w: World, t: nat)
    requires t in w.tasks
    ensures Moves(w, Act(w, Stop(t)))
  {
    assert Enabled(w, Stop(t));
    hide Act;
  }

  lemma Judges(w: World, sid: nat, result: nat)
    requires sid in w.db.solutions && w.db.solutions[sid].result <= 3 && 2 <= result <= 13
    ensures Moves(w, w.(db := w.db.(solutions := w.db.solutions[sid := w.db.solutions[sid].(result := result)])))
  {
    assert Enabled(w, Verdict(sid, result));
    var v := Act(w, Verdict(sid, result));
  }
}
