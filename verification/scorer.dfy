/**
 * The Opening Fitness Score (OFS): a bounded 0..100 score that combines how
 * far a game followed a reference line, who left it, and how the game ended.
 * Arithmetic is over `real`; `Math.round(x)` is `Floor(x + 0.5)`.
 */
module Scorer {

  datatype GameResult = Win | Draw | Loss

  /** Whose move left the reference line (`"none"` when the line was played out). */
  datatype Deviator = User | Opponent | Nobody

  /** What `computeOFS` returns. */
  datatype Breakdown = Breakdown(ofs: real, depth: real, win: real, userDev: real, oppDev: real, raw: real)

  function Min(x: real, y: real): real { if x <= y then x else y }

  function Max(x: real, y: real): real { if x >= y then x else y }

  /** `clamp(v, a, b)`, that is `Math.max(a, Math.min(b, v))`. */
  function Clamp(v: real, lo: real, hi: real): (r: real)
    ensures lo <= hi ==> lo <= r <= hi
    ensures lo <= v <= hi ==> r == v
    ensures v < lo ==> r == lo
    ensures lo <= hi < v ==> r == hi
  {
    Max(lo, Min(hi, v))
  }

  /** `Math.round(x)`: the nearest integer, halves rounded up. */
  function Round(x: real): (n: int)
    ensures x - 0.5 < n as real <= x + 0.5
  {
    (x + 0.5).Floor
  }

  /** A value with at most one decimal. */
  predicate IsTenth(x: real)
  {
    (x * 10.0).Floor as real == x * 10.0
  }

  /** `Math.round(x * 10) / 10`: the nearest value with one decimal. */
  function RoundTenth(x: real): (r: real)
    ensures IsTenth(r)
    ensures x - 0.05 < r <= x + 0.05
  {
    Round(x * 10.0) as real / 10.0
  }

  /** The score of a game result on the 0..100 scale. */
  function WinScore(result: GameResult): real
  {
    match result
    case Win => 100.0
    case Draw => 50.0
    case Loss => 0.0
  }

  /** The deviation penalty charged to `who`: the clamped deficit when `who` deviated, else 0. */
  function Penalty(deviator: Deviator, who: Deviator, deficit: real): (p: real)
    ensures 0.0 <= p <= 100.0
    ensures deviator != who ==> p == 0.0
    ensures deviator == who ==> p == Clamp(deficit, 0.0, 100.0)
  {
    if deviator == who then Clamp(deficit, 0.0, 100.0) else 0.0
  }

  /** The final score: round to one decimal, then clamp to 0..100. */
  function FinalScore(raw: real): (ofs: real)
    ensures 0.0 <= ofs <= 100.0
    ensures IsTenth(ofs)
  {
    var r := RoundTenth(raw);
    var c := Clamp(r, 0.0, 100.0);
    assert c == 0.0 || c == 100.0 || c == r;
    assert (0.0 * 10.0).Floor == 0 && (100.0 * 10.0).Floor == 1000;
    c
  }

  lemma AtLeastOneQuotient(m: real, t: real)
    requires t > 0.0
    ensures m / t >= 1.0 <==> m >= t
    ensures m >= 0.0 ==> m / t >= 0.0
  {
    assert m / t * t == m;
  }

  /** `computeOFS` of compute_ofs.ts: depth against the reference length, penalties for the deviator, result weight. */
  function ComputeOFS(matched: real, total: real, result: GameResult, deviator: Deviator): (b: Breakdown)
    requires total > 0.0
    ensures 0.0 <= b.ofs <= 100.0 && IsTenth(b.ofs)
    ensures matched >= 0.0 ==> 0.0 <= b.depth <= 100.0
    ensures b.depth == 100.0 <==> matched >= total
    ensures matched < total ==> b.depth == matched / total * 100.0
    ensures 0.0 <= b.userDev <= 100.0 && 0.0 <= b.oppDev <= 100.0
    ensures deviator != User ==> b.userDev == 0.0
    ensures deviator != Opponent ==> b.oppDev == 0.0
    ensures deviator == User ==> b.userDev == Clamp((total - matched) / total * 100.0, 0.0, 100.0)
    ensures deviator == Opponent ==> b.oppDev == Clamp((total - matched) / total * 100.0, 0.0, 100.0)
    ensures b.win == (if result == Win then 100.0 else if result == Draw then 50.0 else 0.0)
    ensures b.raw == 0.6 * b.depth + 0.4 * b.win - 0.5 * b.userDev - 0.5 * b.oppDev
    ensures b.ofs == FinalScore(b.raw)
  {
    AtLeastOneQuotient(matched, total);
    var depth := Min(matched / total, 1.0) * 100.0;
    var deficit := ((total - matched) / total) * 100.0;
    var userDev := Penalty(deviator, User, deficit);
    var oppDev := Penalty(deviator, Opponent, deficit);
    var win := WinScore(result);
    var raw := 0.6 * depth + 0.4 * win - 0.5 * userDev - 0.5 * oppDev;
    Breakdown(FinalScore(raw), depth, win, userDev, oppDev, raw)
  }

  /** At most one of the two deviation penalties is charged. */
  lemma {:induction false} OnePenaltyAtMost(matched: real, total: real, result: GameResult, deviator: Deviator)
    requires total > 0.0
    ensures var b := ComputeOFS(matched, total, result, deviator);
      b.userDev == 0.0 || b.oppDev == 0.0
  {
  }

  lemma RoundMonotone(x: real, y: real)
    requires x <= y
    ensures Round(x) <= Round(y)
  {
  }

  lemma FinalScoreMonotone(x: real, y: real)
    requires x <= y
    ensures FinalScore(x) <= FinalScore(y)
  {
    RoundMonotone(x * 10.0, y * 10.0);
  }

  /** Dividing by a positive number keeps the order. */
  lemma QuotientMonotone(x: real, y: real, t: real)
    requires t > 0.0 && x <= y
    ensures x / t <= y / t
  {
    assert (y / t - x / t) * t == y - x;
  }

  /**
   * Following the line further never lowers the depth, never raises the
   * deficit charged to the deviator, and so never lowers the score.
   */
  lemma {:induction false} DepthAndPenaltyMonotone(m1: real, m2: real, total: real, deviator: Deviator)
    requires total > 0.0 && m1 <= m2
    ensures Min(m1 / total, 1.0) <= Min(m2 / total, 1.0)
    ensures Penalty(deviator, User, (total - m2) / total * 100.0) <= Penalty(deviator, User, (total - m1) / total * 100.0)
    ensures Penalty(deviator, Opponent, (total - m2) / total * 100.0) <= Penalty(deviator, Opponent, (total - m1) / total * 100.0)
  {
    QuotientMonotone(m1, m2, total);
    QuotientMonotone(total - m2, total - m1, total);
  }

  /** Following more of the reference line never lowers the score, everything else being equal. */
  lemma {:induction false} MatchedMonotone(m1: real, m2: real, total: real, result: GameResult, deviator: Deviator)
    requires total > 0.0 && m1 <= m2
    ensures ComputeOFS(m1, total, result, deviator).raw <= ComputeOFS(m2, total, result, deviator).raw
    ensures ComputeOFS(m1, total, result, deviator).ofs <= ComputeOFS(m2, total, result, deviator).ofs
  {
    var b1 := ComputeOFS(m1, total, result, deviator);
    var b2 := ComputeOFS(m2, total, result, deviator);
    DepthAndPenaltyMonotone(m1, m2, total, deviator);
    assert b1.depth <= b2.depth;
    FinalScoreMonotone(b1.raw, b2.raw);
  }

  /** A better result never scores lower, everything else being equal. */
  lemma {:induction false} ResultMonotone(matched: real, total: real, deviator: Deviator)
    requires total > 0.0
    ensures ComputeOFS(matched, total, Loss, deviator).ofs <= ComputeOFS(matched, total, Draw, deviator).ofs
    ensures ComputeOFS(matched, total, Draw, deviator).ofs <= ComputeOFS(matched, total, Win, deviator).ofs
  {
    var l := ComputeOFS(matched, total, Loss, deviator);
    var d := ComputeOFS(matched, total, Draw, deviator);
    var w := ComputeOFS(matched, total, Win, deviator);
    FinalScoreMonotone(l.raw, d.raw);
    FinalScoreMonotone(d.raw, w.raw);
  }

  /** A reference line played to its end, nobody deviating, and a win: the top score. */
  lemma {:induction false} PerfectGame(total: real)
    requires total > 0.0
    ensures ComputeOFS(total, total, Win, Nobody).ofs == 100.0
  {
    var b := ComputeOFS(total, total, Win, Nobody);
    assert total / total == 1.0;
    assert b.raw == 100.0;
    assert Round(1000.0) == 1000;
  }

  /** Deviating at once and losing: the bottom score. */
  lemma {:induction false} WorstGame(total: real)
    requires total > 0.0
    ensures ComputeOFS(0.0, total, Loss, User).ofs == 0.0
  {
    var b := ComputeOFS(0.0, total, Loss, User);
    assert total / total == 1.0;
    assert b.userDev == 100.0;
    assert b.raw == -50.0;
    assert Round(-500.0) == -500;
  }

  /** Two of three plies followed, either side leaving the line, a win: 63.3. */
  lemma {:induction false} TwoOfThreeDeviatedWins(deviator: Deviator)
    requires deviator != Nobody
    ensures ComputeOFS(2.0, 3.0, Win, deviator).ofs == 63.3
  {
    var b := ComputeOFS(2.0, 3.0, Win, deviator);
    assert b.depth == 200.0 / 3.0;
    assert b.userDev + b.oppDev == 100.0 / 3.0;
    assert b.raw == 190.0 / 3.0;
    assert Round(1900.0 / 3.0) == 633;
  }
}

/**
 * The earlier, unused `computeOFS` variant of app/ofs.ts: depth is measured
 * against a fixed `depthCap` instead of the reference length, the game's
 * duration and length add a time component, and the weights differ.
 */
module LegacyScorer {
  import opened Scorer

  /** What the earlier `computeOFS` returns. */
  datatype LegacyBreakdown = LegacyBreakdown(
    ofs: real, depth: real, time: real, win: real, userDev: real, oppDev: real, raw: real)

  /** `Math.max(0, Math.min(x / scale, 1))`. */
  function Factor(x: real, scale: real): (f: real)
    requires scale > 0.0
    ensures 0.0 <= f <= 1.0
  {
    Max(0.0, Min(x / scale, 1.0))
  }

  function LegacyComputeOFS(matched: real, gameMinutes: real, total: real, result: GameResult,
                            deviator: Deviator, depthCap: real := 30.0): (b: LegacyBreakdown)
    requires depthCap > 0.0
    ensures 0.0 <= b.ofs <= 100.0 && IsTenth(b.ofs)
    ensures matched >= 0.0 ==> 0.0 <= b.depth <= 100.0
    ensures b.depth == 100.0 <==> matched >= depthCap
    ensures matched < depthCap ==> b.depth == matched / depthCap * 100.0
    ensures 0.0 <= b.time <= 100.0
    ensures 0.0 <= b.userDev <= 100.0 && 0.0 <= b.oppDev <= 100.0
    ensures deviator != User ==> b.userDev == 0.0
    ensures deviator != Opponent ==> b.oppDev == 0.0
    ensures deviator == User ==> b.userDev == Clamp((depthCap - matched) / depthCap * 100.0, 0.0, 100.0)
    ensures deviator == Opponent ==> b.oppDev == Clamp((depthCap - matched) / depthCap * 100.0, 0.0, 100.0)
    ensures b.win == (if result == Win then 100.0 else if result == Draw then 50.0 else 0.0)
    ensures b.raw == 0.5 * b.depth + 0.2 * b.time + 0.3 * b.win - 0.5 * b.userDev - 0.4 * b.oppDev
    ensures b.ofs == FinalScore(b.raw)
  {
    AtLeastOneQuotient(matched, depthCap);
    var depth := Min(matched / depthCap, 1.0) * 100.0;
    var deficit := ((depthCap - matched) / depthCap) * 100.0;
    var userDev := Penalty(deviator, User, deficit);
    var oppDev := Penalty(deviator, Opponent, deficit);
    var minutesFactor := Factor(gameMinutes, 30.0);
    var movesFactor := Factor(total, 40.0);
    var time := minutesFactor * movesFactor * 100.0;
    var win := WinScore(result);
    var raw := 0.5 * depth + 0.2 * time + 0.3 * win - 0.5 * userDev - 0.4 * oppDev;
    LegacyBreakdown(FinalScore(raw), depth, time, win, userDev, oppDev, raw)
  }

  /** Following more plies never lowers the score, everything else being equal. */
  lemma {:induction false} LegacyMatchedMonotone(m1: real, m2: real, gameMinutes: real, total: real, result: GameResult,
                                                 deviator: Deviator, depthCap: real)
    requires depthCap > 0.0 && m1 <= m2
    ensures LegacyComputeOFS(m1, gameMinutes, total, result, deviator, depthCap).raw
         <= LegacyComputeOFS(m2, gameMinutes, total, result, deviator, depthCap).raw
    ensures LegacyComputeOFS(m1, gameMinutes, total, result, deviator, depthCap).ofs
         <= LegacyComputeOFS(m2, gameMinutes, total, result, deviator, depthCap).ofs
  {
    var b1 := LegacyComputeOFS(m1, gameMinutes, total, result, deviator, depthCap);
    var b2 := LegacyComputeOFS(m2, gameMinutes, total, result, deviator, depthCap);
    DepthAndPenaltyMonotone(m1, m2, depthCap, deviator);
    assert b1.depth <= b2.depth;
    FinalScoreMonotone(b1.raw, b2.raw);
  }

  /** With the default cap, following 30 plies or more gives full depth. */
  lemma {:induction false} DefaultCapDepth(matched: real, gameMinutes: real, total: real, result: GameResult, deviator: Deviator)
    ensures LegacyComputeOFS(matched, gameMinutes, total, result, deviator).depth == 100.0 <==> matched >= 30.0
  {
  }

  /** A game of 30 minutes or more and 40 plies or more earns the full time component. */
  lemma {:induction false} FullTime(matched: real, gameMinutes: real, total: real, result: GameResult, deviator: Deviator, depthCap: real)
    requires depthCap > 0.0 && gameMinutes >= 30.0 && total >= 40.0
    ensures LegacyComputeOFS(matched, gameMinutes, total, result, deviator, depthCap).time == 100.0
  {
    AtLeastOneQuotient(gameMinutes, 30.0);
    AtLeastOneQuotient(total, 40.0);
  }
}
