/**
 Trial runs, which any number of requests ask for at once: the check of the rate and the insertion are kept together
 by a named lock per user, which the session loses when its process dies. Times are those of the database clock, in
 whole seconds.
 */
module Trials {
  import opened Tables

  /** A row of jol.solution with problem 0, and how many of the rows that belong to it have been written. */
  datatype Trial = Trial(user: string, at: nat, result: nat, parts: nat)

  /** What a request does next. */
  datatype Pc = Waiting | Checking | Inserting | Filling(sid: nat, written: nat) | Releasing(sid: nat) | Unlocking | Done
  datatype Request = Request(user: string, pc: Pc)

  /** `locks` maps a user to the request that holds the user's lock. */
  datatype World = World(clock: nat, trials: map<nat, Trial>, nextSid: nat, requests: map<nat, Request>, locks: map<string, nat>)

  const WINDOW: nat := 600
  const PAUSE: nat := 3

  /** Source code, the user's copy of it, and the input. */
  const PARTS: nat := 3

  // ---------------------------------------------------------------- steps

  /** Something that can happen: time passes, the judge works, a request comes, goes on, gives up or dies. */
  datatype Act = Tick | Judge(sid: nat, result: nat) | Arrive(id: nat, user: string) | Proceed(id: nat) | GiveUp(id: nat) | Die(id: nat)

  /** The row makes the check fail. */
  predicate Blocks(t: Trial, user: string, now: nat) {
    t.user == user && t.at + WINDOW > now && (Running(t.result) || t.at + PAUSE > now)
  }

  predicate Pending(w: World, user: string) { exists s | s in w.trials :: Blocks(w.trials[s], user, w.clock) }

  function WithPc(w: World, id: nat, pc: Pc): World
    requires id in w.requests
  {
    w.(requests := w.requests[id := w.requests[id].(pc := pc)])
  }

  function Unlocked(w: World, id: nat): (d: World)
    ensures d == w.(locks := d.locks)
  {
    w.(locks := map u | u in w.locks && w.locks[u] != id :: w.locks[u])
  }

  /** The next statement of a request. */
  function Advance(w: World, id: nat): World
    requires id in w.requests
  {
    var r := w.requests[id];
    match r.pc
    case Waiting => if r.user in w.locks then w else WithPc(w, id, Checking).(locks := w.locks[r.user := id])
    case Checking => WithPc(w, id, if Pending(w, r.user) then Unlocking else Inserting)
    case Inserting =>
      WithPc(w, id, Filling(w.nextSid, 0)).(trials := w.trials[w.nextSid := Trial(r.user, w.clock, SAVING, 0)], nextSid := w.nextSid + 1)
    case Filling(sid, written) =>
      WithPc(WithPart(w, sid), id, if written + 1 < PARTS then Filling(sid, written + 1) else Releasing(sid))
    case Releasing(sid) => WithPc(Released(w, sid), id, Unlocking)
    case Unlocking => Unlocked(WithPc(w, id, Done), id)
    case Done => w
  }

  /** The source code, the user's copy of it, or the input is written. */
  function WithPart(w: World, sid: nat): World {
    if sid in w.trials then w.(trials := w.trials[sid := w.trials[sid].(parts := w.trials[sid].parts + 1)]) else w
  }

  /** Result 14 becomes 0: the judge may take the trial. */
  function Released(w: World, sid: nat): World {
    if sid in w.trials && w.trials[sid].result == SAVING then w.(trials := w.trials[sid := w.trials[sid].(result := 0)]) else w
  }

  /** The judge moves on what it has taken, and leaves what it has finished. */
  function Judged(w: World, sid: nat, result: nat): World {
    if sid in w.trials && w.trials[sid].result <= 3 then w.(trials := w.trials[sid := w.trials[sid].(result := result)]) else w
  }

  function Next(w: World, act: Act): World {
    match act
    case Tick => w.(clock := w.clock + 1)
    case Judge(sid, result) => if result == SAVING then w else Judged(w, sid, result)
    case Arrive(id, user) => if id in w.requests then w else w.(requests := w.requests[id := Request(user, Waiting)])
    case Proceed(id) => if id in w.requests then Advance(w, id) else w
    case GiveUp(id) => if id in w.requests && w.requests[id].pc.Waiting? then WithPc(w, id, Done) else w
    case Die(id) => if id in w.requests then Unlocked(WithPc(w, id, Done), id) else w
  }

  function Run(w: World, acts: seq<Act>): World {
    if acts == [] then w else Next(Run(w, acts[..|acts| - 1]), acts[|acts| - 1])
  }

  const START: World := World(0, map[], 0, map[], map[])

  // ---------------------------------------------------------------- what every run keeps

  /** Two trials of a user are at least three seconds apart. */
  predicate Apart(w: World) {
    forall s, t | s in w.trials && t in w.trials && s != t && w.trials[s].user == w.trials[t].user ::
      w.trials[s].at + PAUSE <= w.trials[t].at || w.trials[t].at + PAUSE <= w.trials[s].at
  }

  predicate Unfinished(w: World, s: nat)
    requires s in w.trials
  {
    Running(w.trials[s].result) && w.trials[s].at + WINDOW > w.clock
  }

  /** A user has at most one unfinished trial that is younger than ten minutes. */
  predicate OneUnfinished(w: World) {
    forall s, t | s in w.trials && t in w.trials && w.trials[s].user == w.trials[t].user && Unfinished(w, s) && Unfinished(w, t) :: s == t
  }

  predicate Inside(pc: Pc) { !pc.Waiting? && !pc.Done? }

  /** Requests past the lock hold it, and those that have checked are still right. */
  predicate LocksHeld(w: World) {
    && (forall i | i in w.requests && Inside(w.requests[i].pc) :: w.requests[i].user in w.locks && w.locks[w.requests[i].user] == i)
    && (forall i | i in w.requests && w.requests[i].pc.Inserting? :: !Pending(w, w.requests[i].user))
  }

  predicate Dated(w: World) { forall s | s in w.trials :: w.trials[s].at <= w.clock && s < w.nextSid }

  predicate Throttled(w: World) { Apart(w) && OneUnfinished(w) && LocksHeld(w) && Dated(w) }

  lemma {:induction false} ActKeepsThrottle(w: World, act: Act)
    requires Throttled(w)
    ensures Throttled(Next(w, act))
  {
    hide Throttled, Advance, Unlocked, Judged;
    match act
    case Tick => TickKeeps(w);
    case Judge(sid, result) => JudgeKeeps(w, sid, result);
    case Arrive(id, user) => ArriveKeeps(w, id, user);
    case Proceed(id) =>
      if id in w.requests {
        AdvanceKeeps(w, id);
      }
    case GiveUp(id) => GiveUpKeeps(w, id);
    case Die(id) => DieKeeps(w, id);
  }

  lemma ArriveKeeps(w: World, id: nat, user: string)
    requires Throttled(w)
    ensures Throttled(Next(w, Arrive(id, user)))
  {
    MilderKeeps(w, Next(w, Arrive(id, user)));
    hide Apart, OneUnfinished, Pending;
  }

  lemma GiveUpKeeps(w: World, id: nat)
    requires Throttled(w)
    ensures Throttled(Next(w, GiveUp(id)))
  {
    MilderKeeps(w, Next(w, GiveUp(id)));
    hide Apart, OneUnfinished, Pending;
  }

  lemma DieKeeps(w: World, id: nat)
    requires Throttled(w)
    ensures Throttled(Next(w, Die(id)))
  {
    MilderKeeps(w, Next(w, Die(id)));
    hide Apart, OneUnfinished, Pending;
  }

  lemma TickKeeps(w: World)
    requires Throttled(w)
    ensures Throttled(w.(clock := w.clock + 1))
  {
    var d := w.(clock := w.clock + 1);
    forall s | s in d.trials && Unfinished(d, s) ensures Unfinished(w, s) {
    }
    forall i | i in d.requests && d.requests[i].pc.Inserting? ensures !Pending(d, d.requests[i].user) {
      assert !Pending(w, w.requests[i].user);
    }
  }

  /** The same trials; what was finished still is. */
  predicate Milder(w: World, d: World) {
    && d.clock == w.clock && d.nextSid == w.nextSid && d.trials.Keys == w.trials.Keys
    && forall s | s in w.trials :: SameTrial(w.trials[s], d.trials[s])
  }

  predicate SameTrial(t: Trial, u: Trial) { u.user == t.user && u.at == t.at && (Running(u.result) ==> Running(t.result)) }

  lemma MilderKeeps(w: World, d: World)
    requires Apart(w) && OneUnfinished(w) && Dated(w) && Milder(w, d)
    ensures Apart(d) && OneUnfinished(d) && Dated(d) && forall user :: Pending(d, user) ==> Pending(w, user)
  {
    forall s | s in d.trials ensures SameTrial(w.trials[s], d.trials[s]) && (Unfinished(d, s) ==> Unfinished(w, s)) {
    }
    forall user | Pending(d, user) ensures Pending(w, user) {
      var s :| s in d.trials && Blocks(d.trials[s], user, d.clock);
      assert Blocks(w.trials[s], user, w.clock);
    }
    hide Running, Pending, Blocks;
  }

  lemma JudgeKeeps(w: World, sid: nat, result: nat)
    requires Throttled(w)
    ensures Throttled(Judged(w, sid, result))
  {
    MilderKeeps(w, Judged(w, sid, result));
    hide Pending, Apart, OneUnfinished, Dated;
  }

  lemma AdvanceKeeps(w: World, id: nat)
    requires Throttled(w) && id in w.requests
    ensures Throttled(Advance(w, id))
  {
    match w.requests[id].pc
    case Waiting =>
    case Checking =>
    case Inserting => InsertKeeps(w, id);
    case Filling(sid, written) => FillKeeps(w, id, sid, written);
    case Releasing(sid) => ReleaseKeeps(w, id, sid);
    case Unlocking =>
    case Done =>
  }

  /** Nobody else with this user is past the lock, so the check still stands. */
  lemma InsertKeeps(w: World, id: nat)
    requires Throttled(w) && id in w.requests && w.requests[id].pc.Inserting?
    ensures Throttled(Advance(w, id))
  {
    var d, user, sid := Advance(w, id), w.requests[id].user, w.nextSid;
    assert d.trials == w.trials[sid := Trial(user, w.clock, SAVING, 0)] && sid !in w.trials;
    forall s | s in w.trials && w.trials[s].user == user ensures w.trials[s].at + PAUSE <= w.clock && !Unfinished(w, s) {
      assert !Blocks(w.trials[s], user, w.clock);
    }
    forall s | s in w.trials ensures Unfinished(d, s) <==> Unfinished(w, s) {
    }
    forall i | i in d.requests && d.requests[i].pc.Inserting? ensures !Pending(d, d.requests[i].user) {
      assert !Pending(w, w.requests[i].user) && w.requests[i].user != user;
    }
  }

  lemma FillKeeps(w: World, id: nat, sid: nat, written: nat)
    requires Throttled(w) && id in w.requests && w.requests[id].pc == Filling(sid, written)
    ensures Throttled(Advance(w, id))
  {
    MilderKeeps(w, Advance(w, id));
    hide Pending, Apart, OneUnfinished, Dated;
  }

  lemma ReleaseKeeps(w: World, id: nat, sid: nat)
    requires Throttled(w) && id in w.requests && w.requests[id].pc == Releasing(sid)
    ensures Throttled(Advance(w, id))
  {
    MilderKeeps(w, Advance(w, id));
    hide Pending, Apart, OneUnfinished, Dated;
  }

  /** Whatever happens, in whatever order: trials of a user stay apart, and at most one is unfinished. */
  lemma {:induction false} RunsAreThrottled(acts: seq<Act>)
    ensures Throttled(Run(START, acts))
  {
    if acts != [] {
      RunsAreThrottled(acts[..|acts| - 1]);
      ActKeepsThrottle(Run(START, acts[..|acts| - 1]), acts[|acts| - 1]);
    }
  }

  // ---------------------------------------------------------------- blocking

  /** A request is turned away by the check exactly while a trial is unfinished and young, or younger than three seconds. */
  lemma CheckDecides(w: World, id: nat)
    requires Throttled(w) && id in w.requests && w.requests[id].pc.Checking?
    ensures var u := w.requests[id].user;
      Advance(w, id).requests[id].pc.Inserting? <==>
        forall s | s in w.trials && w.trials[s].user == u :: !Unfinished(w, s) && w.trials[s].at + PAUSE <= w.clock
  {
    var u := w.requests[id].user;
    if forall s | s in w.trials && w.trials[s].user == u :: !Unfinished(w, s) && w.trials[s].at + PAUSE <= w.clock {
      forall s | s in w.trials ensures !Blocks(w.trials[s], u, w.clock) {
      }
    } else {
      var s :| s in w.trials && w.trials[s].user == u && (Unfinished(w, s) || w.trials[s].at + PAUSE > w.clock);
      assert Blocks(w.trials[s], u, w.clock);
    }
  }

  /** Nobody is blocked for more than ten minutes: once the newest trial is that old, the check lets the user pass, whatever became of it. */
  lemma BlockedTenMinutes(acts: seq<Act>, id: nat)
    requires var w := Run(START, acts); id in w.requests && w.requests[id].pc.Checking?
    requires var w := Run(START, acts);
      forall s | s in w.trials && w.trials[s].user == w.requests[id].user :: w.trials[s].at + WINDOW <= w.clock
    ensures Advance(Run(START, acts), id).requests[id].pc.Inserting?
  {
    RunsAreThrottled(acts);
    CheckDecides(Run(START, acts), id);
  }

  // ---------------------------------------------------------------- two phases

  /** A trial that is not being saved is complete. */
  predicate Complete(w: World) { forall s | s in w.trials && w.trials[s].result != SAVING :: w.trials[s].parts == PARTS }

  /** A request that fills or releases a trial is the one that saves it, and knows how far it has come. */
  predicate Owns(w: World, i: nat)
    requires i in w.requests
  {
    match w.requests[i].pc
    case Filling(sid, written) =>
      && sid in w.trials && w.trials[sid].user == w.requests[i].user && w.trials[sid].result == SAVING
      && w.trials[sid].parts == written && written < PARTS
    case Releasing(sid) => sid in w.trials && w.trials[sid].user == w.requests[i].user && w.trials[sid].parts == PARTS
    case _ => true
  }

  predicate TwoPhase(w: World) { Complete(w) && forall i | i in w.requests :: Owns(w, i) }

  lemma ActKeepsPhases(w: World, act: Act)
    requires Throttled(w) && TwoPhase(w)
    ensures TwoPhase(Next(w, act))
  {
    var d := Next(w, act);
    hide Apart, OneUnfinished, Pending, Unlocked;
    if act.Proceed? && act.id in w.requests {
      AdvanceKeepsPhases(w, act.id);
    } else {
      hide Advance;
      forall i | i in d.requests ensures Owns(d, i) {
        if i in w.requests {
          assert Owns(w, i);
        }
      }
    }
  }

  lemma AdvanceKeepsPhases(w: World, id: nat)
    requires Throttled(w) && TwoPhase(w) && id in w.requests
    ensures TwoPhase(Advance(w, id))
  {
    hide Apart, OneUnfinished, Pending, Unlocked;
    var d := Advance(w, id);
    assert Owns(w, id);
    forall i | i in d.requests ensures Owns(d, i) {
      assert Owns(w, i);
      if Inside(w.requests[id].pc) && Inside(w.requests[i].pc) {
        OtherUsers(w, id, i);
      }
    }
  }

  /** Two requests past the lock serve different users. */
  lemma OtherUsers(w: World, i: nat, j: nat)
    requires LocksHeld(w) && i in w.requests && j in w.requests && Inside(w.requests[i].pc) && Inside(w.requests[j].pc)
    ensures i != j ==> w.requests[i].user != w.requests[j].user
  {
    hide Pending;
  }

  /** Whatever happens, requests dying anywhere included: a trial that the judge may take has its source and its input. */
  lemma {:induction false} QueuedTrialsAreComplete(acts: seq<Act>)
    ensures TwoPhase(Run(START, acts))
    ensures var w := Run(START, acts); forall s | s in w.trials && Queued(w.trials[s].result) :: w.trials[s].parts == PARTS
  {
    if acts != [] {
      var k := |acts| - 1;
      QueuedTrialsAreComplete(acts[..k]);
      RunsAreThrottled(acts[..k]);
      ActKeepsPhases(Run(START, acts[..k]), acts[k]);
    }
    hide Next, Owns, Throttled;
  }
}
