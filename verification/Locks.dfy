/**
 The named locks: who holds what, why waiting never forms a circle, and why a machine with
 requests in flight is never stuck.
 */
module Locks {
  import opened Values
  import opened Tables
  import opened Machine

  /** The lock table says exactly what the program points of the requests say. */
  ghost predicate LocksOk(w: World) {
    && (forall t :: t in w.tasks ==> t < w.nextTid)
    && (forall l :: l in w.locks ==> w.locks[l] in w.tasks && Holds(w.tasks[w.locks[l]], l))
    && (forall t :: t in w.tasks ==> HoldsOwn(w, t))
  }

  ghost predicate HoldsOwn(w: World, t: nat)
    requires t in w.tasks
  {
    forall l :: Holds(w.tasks[t], l) ==> l in w.locks && w.locks[l] == t
  }

  /** What a step between lock operations leaves alone. */
  ghost predicate SameLocks(tk: Task, next: Task) {
    && OuterOf(next) == OuterOf(tk)
    && (OuterOf(tk).Some? ==> !PhaseOf(next).Asking? && !PhaseOf(tk).Asking?)
    && InOffering(next) == InOffering(tk)
    && InProblem(next) == InProblem(tk)
    && (InOffering(tk) ==> OidOf(next) == OidOf(tk))
    && (InProblem(tk) ==> CurOf(next) == CurOf(tk))
  }

  /** Between lock operations: nothing to take, nothing to give back. */
  predicate Working(tk: Task) { Wants(tk).None? && Frees(tk).None? && !PhaseOf(tk).Ending? }

  lemma SubmitSameLocks(db: Db, s: SubmitTask)
    requires Working(Submit(s))
    ensures SameLocks(Submit(s), Submit(SubmitNext(db, s)))
  {
    hide Accepting, LinkFor;
  }

  lemma PublishSameLocks(db: Db, p: PublishTask)
    requires Working(Publish(p))
    ensures SameLocks(Publish(p), Publish(PublishNext(db, p)))
  {
    hide SyncNext, Publishable;
  }

  lemma EditSameLocks(db: Db, e: EditTask, pick: nat)
    requires Working(Edit(e))
    ensures SameLocks(Edit(e), Edit(EditNext(db, e, pick)))
  {
    hide EditNext, SameLocks, Wants, Frees, PhaseOf;
    if e.pc.Cleaning? {
      CleaningSameLocks(db, e, pick);
    } else {
      EditingSameLocks(db, e, pick);
    }
  }

  lemma CleaningSameLocks(db: Db, e: EditTask, pick: nat)
    requires Working(Edit(e)) && e.pc.Cleaning?
    ensures SameLocks(Edit(e), Edit(EditNext(db, e, pick)))
  {
    hide Referenced;
  }

  lemma EditingSameLocks(db: Db, e: EditTask, pick: nat)
    requires Working(Edit(e)) && !e.pc.Cleaning?
    ensures SameLocks(Edit(e), Edit(EditNext(db, e, pick)))
  {
    hide SyncNext, PurgeNext, CleanNext, Editable, Revisable, Movers, Originals, SolutionPids, Dropped, Unchanged, Referenced;
  }

  lemma RemoveSameLocks(db: Db, r: RemoveTask, pick: nat)
    requires Working(Remove(r))
    ensures SameLocks(Remove(r), Remove(RemoveNext(db, r, pick)))
  {
    hide Referenced, DraftBids, Idle;
  }

  lemma DeleteSameLocks(db: Db, d: DeleteTask, pick: nat)
    requires Working(Delete(d))
    ensures SameLocks(Delete(d), Delete(DeleteNext(db, d, pick)))
  {
    hide Shared, OfferingPids, StagedPids, Idle;
  }

  lemma NextSameLocks(db: Db, tk: Task, pick: nat)
    requires Working(tk)
    ensures SameLocks(tk, Next(db, tk, pick))
  {
    hide SubmitNext, PublishNext, EditNext, RemoveNext, DeleteNext, SameLocks, PhaseOf;
    match tk {
      case Submit(s) => SubmitSameLocks(db, s);
      case Publish(p) => PublishSameLocks(db, p);
      case Edit(e) => EditSameLocks(db, e, pick);
      case Remove(r) => RemoveSameLocks(db, r, pick);
      case Delete(d) => DeleteSameLocks(db, d, pick);
    }
  }

  /** Nested locks are taken in strictly rising order, so a request holds one per level at most. */
  lemma LocksRise(tk: Task, l: Lock, m: Lock)
    requires Holds(tk, l)
    ensures Wants(tk) == Some(m) ==> Level(l) < Level(m)
    ensures Holds(tk, m) && Level(l) == Level(m) ==> l == m
  {
  }

  /** What one step does to the lock table and to the request that takes it. */
  lemma StepShape(w: World, t: nat, pick: nat)
    requires Ready(w, t, pick)
    ensures var tk, v := w.tasks[t], Advance(w, t, pick);
      && v.nextTid == w.nextTid
      && (Wants(tk).Some? ==>
            v.locks == w.locks[Wants(tk).value := t]
            && v.tasks == w.tasks[t := AfterLock(tk)])
      && (Wants(tk).None? && PhaseOf(tk).Ending? ==>
            v.locks == (if Frees(tk).Some? then w.locks - {Frees(tk).value} else w.locks) && v.tasks == w.tasks - {t})
      && (Wants(tk).None? && !PhaseOf(tk).Ending? && Frees(tk).Some? ==>
            v.locks == w.locks - {Frees(tk).value} && v.tasks == w.tasks[t := AfterFree(tk)])
      && (Working(tk) ==>
            v.locks == w.locks && t in v.tasks && v.tasks == w.tasks[t := v.tasks[t]] && SameLocks(tk, v.tasks[t]))
  {
    if Working(w.tasks[t]) {
      NextSameLocks(w.db, w.tasks[t], pick);
    }
  }

  /** The lock table follows a request that comes to hold `after` instead of `before`. */
  lemma LocksFollow(w: World, v: World, t: nat, l: Lock)
    requires LocksOk(w) && t in w.tasks && v.nextTid == w.nextTid
    requires t in v.tasks && v.tasks == w.tasks[t := v.tasks[t]]
    requires
      || (l !in w.locks && v.locks == w.locks[l := t] && forall m :: Holds(v.tasks[t], m) <==> Holds(w.tasks[t], m) || m == l)
      || (v.locks == w.locks - {l} && Holds(w.tasks[t], l) && forall m :: Holds(v.tasks[t], m) <==> Holds(w.tasks[t], m) && m != l)
      || (v.locks == w.locks && forall m :: Holds(v.tasks[t], m) <==> Holds(w.tasks[t], m))
    ensures LocksOk(v)
  {
    forall u | u in v.tasks ensures HoldsOwn(v, u) {
      assert HoldsOwn(w, u);
      assert HoldsOwn(w, t);
    }
  }

  lemma HoldsAfterLock(tk: Task, m: Lock)
    requires Wants(tk).Some?
    ensures Holds(AfterLock(tk), m) <==> Holds(tk, m) || m == Wants(tk).value
  {
  }

  lemma HoldsAfterFree(tk: Task, m: Lock)
    requires Frees(tk).Some? && !PhaseOf(tk).Ending?
    ensures Holds(AfterFree(tk), m) <==> Holds(tk, m) && m != Frees(tk).value
  {
  }

  lemma StepKeepsLocks(w: World, t: nat, pick: nat)
    requires LocksOk(w) && Ready(w, t, pick)
    ensures LocksOk(Advance(w, t, pick))
  {
    hide Advance, Next, StmtOf;
    var tk := w.tasks[t];
    var v := Advance(w, t, pick);
    StepShape(w, t, pick);
    if Wants(tk).Some? {
      forall m ensures Holds(v.tasks[t], m) <==> Holds(tk, m) || m == Wants(tk).value { HoldsAfterLock(tk, m); }
      LocksFollow(w, v, t, Wants(tk).value);
    } else if PhaseOf(tk).Ending? {
      ExitKeepsLocks(w, v, t);
    } else if Frees(tk).Some? {
      forall m ensures Holds(v.tasks[t], m) <==> Holds(tk, m) && m != Frees(tk).value { HoldsAfterFree(tk, m); }
      LocksFollow(w, v, t, Frees(tk).value);
    } else {
      forall m ensures Holds(v.tasks[t], m) <==> Holds(tk, m) { HoldsSame(tk, v.tasks[t], m); }
      LocksFollow(w, v, t, PublishLock(0));
    }
  }

  lemma HoldsSame(tk: Task, next: Task, m: Lock)
    requires SameLocks(tk, next)
    ensures Holds(next, m) <==> Holds(tk, m)
  {
  }

  /** The lock table follows a request that is gone. */
  lemma LocksLeave(w: World, v: World, t: nat)
    requires LocksOk(w) && t in w.tasks && v.nextTid >= w.nextTid
    requires v.tasks == w.tasks - {t}
    requires forall m | m in v.locks :: m in w.locks && v.locks[m] == w.locks[m] && w.locks[m] != t
    requires forall m | m in w.locks && w.locks[m] != t :: m in v.locks
    ensures LocksOk(v)
  {
    forall u | u in v.tasks ensures HoldsOwn(v, u) {
      assert HoldsOwn(w, u);
    }
  }

  lemma HoldsAtExit(tk: Task, m: Lock)
    requires PhaseOf(tk).Ending?
    ensures Holds(tk, m) <==> Frees(tk) == Some(m)
  {
  }

  lemma ExitKeepsLocks(w: World, v: World, t: nat)
    requires LocksOk(w) && t in w.tasks && PhaseOf(w.tasks[t]).Ending? && v.nextTid == w.nextTid
    requires v.tasks == w.tasks - {t}
    requires v.locks == if Frees(w.tasks[t]).Some? then w.locks - {Frees(w.tasks[t]).value} else w.locks
    ensures LocksOk(v)
  {
    assert HoldsOwn(w, t);
    forall m | m in w.locks ensures w.locks[m] == t <==> Frees(w.tasks[t]) == Some(m) { HoldsAtExit(w.tasks[t], m); }
    LocksLeave(w, v, t);
  }

  lemma StopKeepsLocks(w: World, t: nat)
    requires LocksOk(w) && t in w.tasks
    ensures LocksOk(Act(w, Stop(t)))
  {
    hide Advance;
    LocksLeave(w, Act(w, Stop(t)), t);
  }

  lemma StartKeepsLocks(w: World, job: Job)
    requires LocksOk(w) && Acceptable(w.db, job)
    ensures LocksOk(Act(w, Start(job)))
  {
    hide Advance;
    var v := Act(w, Start(job));
    forall l ensures !Holds(Fresh(w.db, job), l) { }
    forall u | u in v.tasks ensures HoldsOwn(v, u) {
      if u != w.nextTid {
        assert HoldsOwn(w, u);
      }
    }
  }

  lemma ActKeepsLocks(w: World, a: Action)
    requires LocksOk(w) && Enabled(w, a)
    ensures LocksOk(Act(w, a))
  {
    hide Advance, Ready;
    match a {
      case Start(job) => StartKeepsLocks(w, job);
      case Step(t, pick) => StepKeepsLocks(w, t, pick);
      case Stop(t) => StopKeepsLocks(w, t);
      case _ =>
        var v := Act(w, a);
        assert v.tasks == w.tasks && v.locks == w.locks;
        forall u | u in v.tasks ensures HoldsOwn(v, u) {
          assert HoldsOwn(w, u);
        }
    }
  }

  // ---------------------------------------------------------------- waiting

  /** `t` waits for a lock that `u` holds. */
  ghost predicate WaitsFor(w: World, t: nat, u: nat) {
    && t in w.tasks && u in w.tasks
    && Wants(w.tasks[t]).Some?
    && Wants(w.tasks[t]).value in w.locks
    && w.locks[Wants(w.tasks[t]).value] == u
  }

  ghost predicate WaitChain(w: World, chain: seq<nat>) {
    forall i | 0 <= i < |chain| - 1 :: WaitsFor(w, chain[i], chain[i + 1])
  }

  /**
   No circle of waiting requests, whatever runs: every chain of waits ends after at most four
   requests, and no request occurs in it twice.
   */
  lemma {:induction false} WaitChainsEnd(w: World, chain: seq<nat>)
    requires LocksOk(w) && WaitChain(w, chain)
    ensures |chain| <= 4
    ensures forall i, j | 0 <= i < j < |chain| :: chain[i] != chain[j]
  {
    if |chain| > 4 {
      ChainRises(w, chain, 0, 3);
    }
    forall i, j | 0 <= i < j < |chain|
      ensures chain[i] != chain[j]
    {
      assert WaitsFor(w, chain[j - 1], chain[j]);
      if i < j - 1 {
        ChainRises(w, chain, i, j - 1);
      }
      if chain[i] == chain[j] {
        assert WaitsFor(w, chain[i], chain[i + 1]);
        LocksRise(w.tasks[chain[j]], Wants(w.tasks[chain[j - 1]]).value, Wants(w.tasks[chain[i]]).value);
      }
    }
  }

  lemma {:induction false} ChainRises(w: World, chain: seq<nat>, i: nat, j: nat)
    requires LocksOk(w) && WaitChain(w, chain)
    requires i < j < |chain| - 1
    ensures WaitsFor(w, chain[i], chain[i + 1]) && WaitsFor(w, chain[j], chain[j + 1])
    ensures Level(Wants(w.tasks[chain[i]]).value) + (j - i) <= Level(Wants(w.tasks[chain[j]]).value)
    decreases j - i
  {
    assert WaitsFor(w, chain[i], chain[i + 1]);
    assert WaitsFor(w, chain[i + 1], chain[i + 2]);
    LocksRise(w.tasks[chain[i + 1]], Wants(w.tasks[chain[i]]).value, Wants(w.tasks[chain[i + 1]]).value);
    if i + 1 < j {
      ChainRises(w, chain, i + 1, j);
    }
  }

  /** The row a loop takes next. */
  ghost function PickFor(tk: Task): (pick: nat)
    ensures Picks(tk, pick)
  {
    var rows := if tk.Edit? then (if tk.e.pc.Repointing? then tk.e.moves else tk.e.clean.todo)
                else if tk.Remove? then (if tk.r.pc.NextBatch? then tk.r.bids else tk.r.clean.todo)
                else if tk.Delete? then tk.d.clean.todo else {};
    if rows == {} then 0 else var pick :| pick in rows; pick
  }

  /** From any request, following the waits reaches one whose next step is enabled. */
  lemma {:induction false} SomeoneSteps(w: World, t: nat) returns (chain: seq<nat>, pick: nat)
    requires LocksOk(w) && t in w.tasks
    ensures chain != [] && chain[0] == t && WaitChain(w, chain) && Enabled(w, Step(chain[|chain| - 1], pick))
    decreases if Wants(w.tasks[t]).Some? then 3 - Level(Wants(w.tasks[t]).value) else 0
  {
    var tk := w.tasks[t];
    if Wants(tk).Some? && Wants(tk).value in w.locks {
      var l := Wants(tk).value;
      var h := w.locks[l];
      if Wants(w.tasks[h]).Some? {
        LocksRise(w.tasks[h], l, Wants(w.tasks[h]).value);
      }
      var rest, next := SomeoneSteps(w, h);
      chain, pick := [t] + rest, next;
      forall i | 0 <= i < |chain| - 1 ensures WaitsFor(w, chain[i], chain[i + 1]) {
        assert i > 0 ==> WaitsFor(w, rest[i - 1], rest[i - 1 + 1]);
      }
    } else {
      chain, pick := [t], PickFor(tk);
    }
  }

  /** In every state of every run the lock table is right, so the results above hold there. */
  lemma {:induction false} RunKeepsLocks(run: seq<World>, i: nat)
    requires IsRun(run) && i < |run|
    ensures LocksOk(run[i])
  {
    if i > 0 {
      RunKeepsLocks(run, i - 1);
      assert Moves(run[i - 1], run[i - 1 + 1]);
      var a :| Enabled(run[i - 1], a) && run[i] == Act(run[i - 1], a);
      ActKeepsLocks(run[i - 1], a);
    }
  }
}
