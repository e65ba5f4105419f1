/** The teacher's form that gives every problem of an assignment its weight. */
module WeightSettings {
  import opened Tables
  import opened Grading
  import opened Rounding
  import opened Stores
  import opened Sets

  /** A weight in hundredths; the form may send anything. */
  datatype ProblemWeight = ProblemWeight(pid: nat, score: int)

  /** `valid_score`: 0 to 999.99. */
  predicate ValidScore(score: int) { 0 <= score <= 99999 }

  /** Every linked problem is named once, and no other. */
  predicate Complete(db: Db, bid: nat, weights: seq<ProblemWeight>) {
    && (forall i, j | 0 <= i < j < |weights| :: weights[i].pid != weights[j].pid)
    && Pids(weights) == LinkedPids(db, bid)
  }

  function Pids(weights: seq<ProblemWeight>): set<nat> { set w | w in weights :: w.pid }

  /** At least one required problem counts for something. */
  predicate SomethingCounts(db: Db, waived: set<nat>, bid: nat, weights: seq<ProblemWeight>) {
    exists w, l :: w in weights && w.score > 0 && l in LinksOf(db, bid) && db.links[l].pid == w.pid && l !in waived
  }

  predicate Acceptable(db: Db, waived: set<nat>, bid: nat, weights: seq<ProblemWeight>) {
    Complete(db, bid, weights) && (forall w | w in weights :: ValidScore(w.score)) && SomethingCounts(db, waived, bid, weights)
  }

  /** A batch links a problem once. */
  predicate LinkedOnce(db: Db, bid: nat) {
    forall l, m | l in LinksOf(db, bid) && m in LinksOf(db, bid) :: db.links[l].pid == db.links[m].pid ==> l == m
  }

  /** The weights the links of the batch have afterwards, and what is left alone. */
  predicate Weighted(a: Db, d: Db, bid: nat, weights: seq<ProblemWeight>) {
    && d == a.(links := d.links) && d.links.Keys == a.links.Keys
    && (forall l | l in a.links && l !in LinksOf(a, bid) :: d.links[l] == a.links[l])
    && (forall l | l in LinksOf(a, bid) :: d.links[l].(score := a.links[l].score) == a.links[l])
    && forall l, w | l in LinksOf(a, bid) && w in weights && w.pid == a.links[l].pid :: d.links[l].score == w.score
  }

  /** The three checks compare counts and memberships; together they accept exactly the acceptable forms. */
  method Settings(s: Store, waived: set<nat>, bid: nat, weights: seq<ProblemWeight>) returns (ok: bool)
    requires LinkedOnce(s.db, bid)
    modifies s
    ensures ok <==> Acceptable(old(s.db), waived, bid, weights)
    ensures if ok then Weighted(old(s.db), s.db, bid, weights) else s.db == old(s.db)
  {
    var actual := LinksOf(s.db, bid);
    var ids := Pids(weights);
    CountsDecide(s.db, bid, weights);
    if |weights| != |actual| || |ids| != |weights| || exists l | l in actual :: s.db.links[l].pid !in ids { return false; }
    if exists w | w in weights :: !ValidScore(w.score) { return false; }
    if !SomethingCounts(s.db, waived, bid, weights) { return false; }
    var i := 0;
    while i < |weights|
      invariant i <= |weights| && Weighted(old(s.db), s.db, bid, weights[..i])
    {
      var w := weights[i];
      Reweighed(old(s.db), s.db, bid, weights, i);
      s.db := Reweigh(s.db, bid, w);
      i := i + 1;
    }
    assert weights[..i] == weights;
    return true;
  }

  function Reweigh(db: Db, bid: nat, w: ProblemWeight): (d: Db)
    requires ValidScore(w.score)
    ensures d == db.(links := d.links)
  {
    db.(links := map l | l in db.links ::
      if l in LinksOf(db, bid) && db.links[l].pid == w.pid then db.links[l].(score := w.score) else db.links[l])
  }

  lemma Reweighed(a: Db, db: Db, bid: nat, weights: seq<ProblemWeight>, i: nat)
    requires i < |weights| && Weighted(a, db, bid, weights[..i]) && Complete(a, bid, weights) && ValidScore(weights[i].score)
    ensures Weighted(a, Reweigh(db, bid, weights[i]), bid, weights[..i + 1])
  {
    var d := Reweigh(db, bid, weights[i]);
    assert LinksOf(db, bid) == LinksOf(a, bid);
    assert weights[..i + 1] == weights[..i] + [weights[i]];
    forall l, w | l in LinksOf(a, bid) && w in weights[..i + 1] && w.pid == a.links[l].pid ensures d.links[l].score == w.score {
      if w != weights[i] {
        var j :| 0 <= j < i && weights[j] == w;
      }
    }
  }

  lemma {:induction false} DistinctCount(weights: seq<ProblemWeight>)
    ensures |Pids(weights)| <= |weights|
    ensures |Pids(weights)| == |weights| <==> forall i, j | 0 <= i < j < |weights| :: weights[i].pid != weights[j].pid
  {
    if weights != [] {
      var k := |weights| - 1;
      var init := weights[..k];
      DistinctCount(init);
      assert weights == init + [weights[k]];
      assert Pids(weights) == Pids(init) + {weights[k].pid};
      if weights[k].pid in Pids(init) {
        var j :| 0 <= j < k && weights[j].pid == weights[k].pid;
      } else {
        forall j | 0 <= j < k ensures weights[j].pid != weights[k].pid {
          assert weights[j] in init;
        }
      }
    }
  }

  lemma {:induction false} PidCount(db: Db, bid: nat, ls: set<nat>)
    requires LinkedOnce(db, bid) && ls <= LinksOf(db, bid)
    ensures |set l | l in ls :: db.links[l].pid| == |ls|
    decreases |ls|
  {
    var pids := set l | l in ls :: db.links[l].pid;
    if ls != {} {
      var m :| m in ls;
      PidCount(db, bid, ls - {m});
      assert pids == (set l | l in ls - {m} :: db.links[l].pid) + {db.links[m].pid};
    }
  }

  lemma CountsDecide(db: Db, bid: nat, weights: seq<ProblemWeight>)
    requires LinkedOnce(db, bid)
    ensures Complete(db, bid, weights) <==>
      && |weights| == |LinksOf(db, bid)| && |Pids(weights)| == |weights|
      && forall l | l in LinksOf(db, bid) :: db.links[l].pid in Pids(weights)
  {
    DistinctCount(weights);
    PidCount(db, bid, LinksOf(db, bid));
    var pids := LinkedPids(db, bid);
    assert pids == set l | l in LinksOf(db, bid) :: db.links[l].pid;
    if pids <= Pids(weights) && |pids| == |Pids(weights)| {
      SubsetSize(pids, Pids(weights));
    }
  }

  /** After an accepted form, the assignment has weight, and who passes all of it has full marks. */
  lemma FullMarksReachable(a: Db, d: Db, waived: set<nat>, oid: nat, bid: nat, user: string, weights: seq<ProblemWeight>)
    requires Acceptable(a, waived, bid, weights) && Weighted(a, d, bid, weights)
    requires ExportPassed(d, oid, bid, user) == LinksOf(d, bid)
    ensures ExportTotals(d, waived, oid, bid, user).total > 0 && Score(ExportTotals(d, waived, oid, bid, user)) == 10000
  {
    var w, l :| w in weights && w.score > 0 && l in LinksOf(a, bid) && a.links[l].pid == w.pid && l !in waived;
    assert l in LinksOf(d, bid) && d.links[l].score == w.score;
    WeightsZero(d, waived, LinksOf(d, bid));
    FullMarks(ExportTotals(d, waived, oid, bid, user));
  }
}
