/** The arithmetic of grades. Weights are hundredths, as the check on scores enforces; grades are hundredths of a point. */
module Rounding {
  /** 100 * passed / total, rounded half up to two decimals. */
  function Rounded(passed: nat, total: nat): nat
    requires total > 0
  {
    (20000 * passed + total) / (2 * total)
  }

  function Score(t: Totals): nat { if t.total == 0 then 0 else Rounded(t.passed, t.total) }

  /** The weight of a batch, and how much of it a student has passed. */
  datatype Totals = Totals(total: nat, passed: nat)

  /** The rounded value is the nearest one: it is off by half a hundredth at most. */
  lemma Nearest(passed: nat, total: nat)
    requires total > 0
    ensures 20000 * passed - total < 2 * total * Rounded(passed, total) <= 20000 * passed + total
  {
    var n, d := 20000 * passed + total, 2 * total;
    assert n == d * (n / d) + n % d;
  }

  lemma Below(d: nat, x: int, y: int)
    requires d > 0 && d * x < d * y
    ensures x < y
  {
    assert d * (y - x) > 0;
  }

  lemma ScoreBounds(t: Totals)
    requires t.passed <= t.total
    ensures 0 <= Score(t) <= 10000
  {
    if t.total > 0 {
      Nearest(t.passed, t.total);
      assert 2 * t.total * Rounded(t.passed, t.total) < 2 * t.total * 10001;
      Below(2 * t.total, Rounded(t.passed, t.total), 10001);
    }
  }

  lemma ScoreMonotone(total: nat, p: nat, q: nat)
    requires p <= q
    ensures Score(Totals(total, p)) <= Score(Totals(total, q))
  {
    if total > 0 {
      Nearest(p, total);
      Nearest(q, total);
      assert 2 * total * Rounded(p, total) < 2 * total * (Rounded(q, total) + 1);
      Below(2 * total, Rounded(p, total), Rounded(q, total) + 1);
    }
  }

  /** Full marks show exactly when the missing weight is at most one twenty-thousandth of the whole. */
  lemma FullMarks(t: Totals)
    requires t.passed <= t.total && t.total > 0
    ensures Score(t) == 10000 <==> 20000 * (t.total - t.passed) <= t.total
  {
    Nearest(t.passed, t.total);
    ScoreBounds(t);
    if 20000 * (t.total - t.passed) <= t.total {
      assert 2 * t.total * 9999 < 2 * t.total * Rounded(t.passed, t.total);
      Below(2 * t.total, 9999, Rounded(t.passed, t.total));
    }
  }

  /** So if no scored problem is lighter than that, full marks mean that every scored problem is passed. */
  lemma FullMarksMeanAll(t: Totals, lightest: nat)
    requires t.passed <= t.total && t.total > 0 && t.total < 20000 * lightest
    requires t.passed < t.total ==> t.passed + lightest <= t.total
    ensures Score(t) == 10000 <==> t.passed == t.total
  {
    FullMarks(t);
  }

  function Sum(ws: seq<nat>): nat { if ws == [] then 0 else Sum(ws[..|ws| - 1]) + ws[|ws| - 1] }

  function RoundedSum(ws: seq<nat>, total: nat): nat
    requires total > 0
  {
    if ws == [] then 0 else RoundedSum(ws[..|ws| - 1], total) + Rounded(ws[|ws| - 1], total)
  }

  lemma {:induction false} RoundedSumClose(ws: seq<nat>, total: nat)
    requires total > 0
    ensures 20000 * Sum(ws) - |ws| * total <= 2 * total * RoundedSum(ws, total) <= 20000 * Sum(ws) + |ws| * total
  {
    if ws != [] {
      var k, init := |ws| - 1, ws[..|ws| - 1];
      RoundedSumClose(init, total);
      Nearest(ws[k], total);
      assert 2 * total * (RoundedSum(init, total) + Rounded(ws[k], total)) == 2 * total * RoundedSum(init, total) + 2 * total * Rounded(ws[k], total);
      assert |ws| * total == k * total + total;
    }
  }

  /** The k rounded contributions of passed problems add up to the grade, give or take (k + 1) halves of a hundredth. */
  lemma ContributionsAddUp(ws: seq<nat>, total: nat)
    requires total > 0
    ensures -(|ws| + 1) <= 2 * (RoundedSum(ws, total) - Rounded(Sum(ws), total)) <= |ws| + 1
  {
    RoundedSumClose(ws, total);
    Nearest(Sum(ws), total);
    Scaled(total, |ws|, RoundedSum(ws, total), Rounded(Sum(ws), total), 20000 * Sum(ws));
  }

  lemma Scaled(t: nat, n: nat, x: int, y: int, s: int)
    requires t > 0 && s - n * t <= 2 * t * x <= s + n * t && s - t < 2 * t * y <= s + t
    ensures -(n + 1) <= 2 * (x - y) <= n + 1
  {
    var u := 2 * (x - y);
    Times(t, x, y, n);
    Below(t, u, n + 1);
    Below(t, -(n + 2), u);
  }

  lemma Times(t: nat, x: int, y: int, n: nat)
    ensures 2 * t * x - 2 * t * y == t * (2 * (x - y))
    ensures t * (n + 1) == n * t + t && t * (-(n + 2)) == -(n * t) - 2 * t
  {
  }
}
