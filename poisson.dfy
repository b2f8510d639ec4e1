/** The Poisson helpers shared by both engine versions (poissonPMF,
    poissonOverProb). Math.exp is not modelled: `e` stands for x ↦ e^{-x}
    and only the facts stated by IsNegExp and MassAtMostOne are assumed
    about it, where a lemma needs them. */
module Poisson {
  import opened Common

  /** What the model relies on about x ↦ Math.exp(-x). */
  ghost predicate IsNegExp(e: real -> real)
  {
    && (forall x :: 0.0 < e(x))
    && (forall x :: 0.0 <= x ==> e(x) <= 1.0)
  }

  /** The Poisson probabilities of 0..n-1 goals never add up to more than 1
      (true of the real exponential; assumed only by the lower bounds). */
  ghost predicate MassAtMostOne(e: real -> real)
  {
    forall lam, n: nat :: 0.0 <= lam ==> UnderMass(e, lam, n) <= 1.0
  }

  /** P(X = k) for X ~ Poisson(lam), as e^{-lam} · lam/1 · lam/2 · … · lam/k. */
  function Pmf(e: real -> real, lam: real, k: nat): real
  {
    if k == 0 then e(lam) else Pmf(e, lam, k - 1) * (lam / (k as real))
  }

  /** P(X < n): the sum of Pmf(lam, j) for j = 0 .. n-1. */
  function UnderMass(e: real -> real, lam: real, n: nat): real
  {
    if n == 0 then 0.0 else UnderMass(e, lam, n - 1) + Pmf(e, lam, n - 1)
  }

  /** How many terms k = 0, 1, …, ⌊line⌋ the under-sum adds. */
  function TermCount(line: real): nat
  {
    if line.Floor < 0 then 0 else line.Floor + 1
  }

  /** poissonOverProb: round((1 − P(X ≤ ⌊line⌋)) · 100). */
  function OverTail(e: real -> real, lam: real, line: real): int
  {
    Round((1.0 - UnderMass(e, lam, TermCount(line))) * 100.0)
  }

  /** poissonPMF, with its accumulating loop. */
  method PoissonPmf(e: real -> real, lam: real, k: nat) returns (result: real)
    ensures result == Pmf(e, lam, k)
  {
    result := e(lam);
    for i := 1 to k + 1
      invariant result == Pmf(e, lam, i - 1)
    {
      result := result * (lam / (i as real));
    }
  }

  /** poissonOverProb, with its accumulating loop. */
  method PoissonOverProb(e: real -> real, lam: real, line: real) returns (over: int)
    ensures over == OverTail(e, lam, line)
  {
    var under := 0.0;
    var k := 0;
    while k <= line.Floor
      invariant 0 <= k <= TermCount(line)
      invariant under == UnderMass(e, lam, k)
      decreases line.Floor - k
    {
      var p := PoissonPmf(e, lam, k);
      under := under + p;
      k := k + 1;
    }
    over := Round((1.0 - under) * 100.0);
  }

  lemma {:induction false} PmfNonnegative(e: real -> real, lam: real, k: nat)
    requires IsNegExp(e) && 0.0 <= lam
    ensures 0.0 <= Pmf(e, lam, k)
  {
    if k > 0 {
      PmfNonnegative(e, lam, k - 1);
      assert 0.0 <= lam / (k as real);
    }
  }

  lemma {:induction false} UnderMassNonnegative(e: real -> real, lam: real, n: nat)
    requires IsNegExp(e) && 0.0 <= lam
    ensures 0.0 <= UnderMass(e, lam, n)
  {
    if n > 0 {
      UnderMassNonnegative(e, lam, n - 1);
      PmfNonnegative(e, lam, n - 1);
    }
  }

  /** Adding terms never lowers the under-sum. */
  lemma {:induction false} UnderMassMonotone(e: real -> real, lam: real, m: nat, n: nat)
    requires IsNegExp(e) && 0.0 <= lam && m <= n
    ensures 0.0 <= UnderMass(e, lam, m) <= UnderMass(e, lam, n)
    decreases n
  {
    if m < n {
      UnderMassMonotone(e, lam, m, n - 1);
      PmfNonnegative(e, lam, n - 1);
    } else {
      UnderMassNonnegative(e, lam, n);
    }
  }

  /** The under-sum for a line at 0 or above includes e^{-lam} > 0. */
  lemma UnderMassIncludesFirstTerm(e: real -> real, lam: real, line: real)
    requires IsNegExp(e) && 0.0 <= lam && 0.0 <= line
    ensures 0.0 < e(lam) <= UnderMass(e, lam, TermCount(line))
  {
    UnderMassMonotone(e, lam, 1, TermCount(line));
  }

  /** poissonOverProb never exceeds 100. */
  lemma OverTailAtMost100(e: real -> real, lam: real, line: real)
    requires IsNegExp(e) && 0.0 <= lam
    ensures OverTail(e, lam, line) <= 100
  {
    UnderMassMonotone(e, lam, 0, TermCount(line));
  }

  /** poissonOverProb is never negative, given that the Poisson mass is at most 1. */
  lemma OverTailNonnegative(e: real -> real, lam: real, line: real)
    requires MassAtMostOne(e) && 0.0 <= lam
    ensures 0 <= OverTail(e, lam, line)
  {
    assert UnderMass(e, lam, TermCount(line)) <= 1.0;
  }

  /** For a fixed lam, a higher line never has a higher over-probability. */
  lemma OverTailAntitone(e: real -> real, lam: real, lo: real, hi: real)
    requires IsNegExp(e) && 0.0 <= lam && lo <= hi
    ensures OverTail(e, lam, hi) <= OverTail(e, lam, lo)
  {
    assert TermCount(lo) <= TermCount(hi);
    UnderMassMonotone(e, lam, TermCount(lo), TermCount(hi));
    RoundMonotone((1.0 - UnderMass(e, lam, TermCount(hi))) * 100.0,
                  (1.0 - UnderMass(e, lam, TermCount(lo))) * 100.0);
  }

  /** The three engine lines: Over 3.5 ≤ Over 2.5 ≤ Over 1.5. */
  lemma OverLinesOrdered(e: real -> real, lam: real)
    requires IsNegExp(e) && 0.0 <= lam
    ensures OverTail(e, lam, 3.5) <= OverTail(e, lam, 2.5) <= OverTail(e, lam, 1.5) <= 100
  {
    OverTailAntitone(e, lam, 2.5, 3.5);
    OverTailAntitone(e, lam, 1.5, 2.5);
    OverTailAtMost100(e, lam, 1.5);
  }

  /** P(a team scores) = 1 − P(0 goals) lies in [0, 1) for a non-negative average. */
  lemma ScoringChance(e: real -> real, avg: real)
    requires IsNegExp(e) && 0.0 <= avg
    ensures 0.0 <= 1.0 - Pmf(e, avg, 0) < 1.0
  {
  }
}
