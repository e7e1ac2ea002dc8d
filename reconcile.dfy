/** The numeric reconciliation of one line item: the "lost decimal point" fix
    of the quantity and the quantity × unit price = line total check, on exact
    rationals. */
module Reconcile {
  import opened Decimal

  /** The tolerance of the consistency check. */
  const Tolerance: real := 0.01

  /** The largest quantity a correction may produce. */
  const MaxCorrectedQuantity: real := 100.0

  function AbsReal(x: real): (r: real)
    ensures r >= 0.0 && (r == x || r == -x)
  {
    if x < 0.0 then -x else x
  }

  /** The line total agrees with quantity × unit price within the tolerance. */
  predicate Consistent(q: real, p: real, t: real) {
    AbsReal(t - q * p) <= Tolerance
  }

  /** A quantity of 1000 or more is read as a misplaced decimal point and
      divided by 1000, rounded to one decimal. */
  function MagnitudeFix(q: real): (r: real)
    ensures q < 1000.0 ==> r == q
    ensures q >= 1000.0 ==> -0.05 <= r - q / 1000.0 <= 0.05
  {
    if q >= 1000.0 then Round1(q / 1000.0) else q
  }

  /** What the check decides for an item with quantity `q` (after the
      magnitude fix), unit price `p` and line total `t`. */
  datatype Decision =
    | Keep
      /** The quantity becomes `corrected`; the line total stays. */
    | CorrectQuantity(corrected: real)
      /** The line total becomes `expected`, which is `q * p`. */
    | RecomputeTotal(expected: real)

  function Decide(q: real, p: real, t: real): Decision
  {
    if Consistent(q, p, t) then Keep
    else if p > 0.0 && 0.0 < Round1(t / p) <= MaxCorrectedQuantity then CorrectQuantity(Round1(t / p))
    else RecomputeTotal(q * p)
  }

  /** The three outcomes and exactly when each is chosen. */
  lemma {:induction false} DecideOutcomes(q: real, p: real, t: real)
    ensures Decide(q, p, t).Keep? <==> AbsReal(t - q * p) <= 0.01
    ensures Decide(q, p, t).CorrectQuantity? <==>
      AbsReal(t - q * p) > 0.01 && p > 0.0 && 0.0 < Round1(t / p) <= 100.0
    ensures Decide(q, p, t).RecomputeTotal? <==>
      AbsReal(t - q * p) > 0.01 && (p <= 0.0 || Round1(t / p) <= 0.0 || Round1(t / p) > 100.0)
  {
  }

  /** A corrected quantity is the line total over the unit price, rounded to
      one decimal, and lies in (0, 100]. */
  lemma {:induction false} CorrectedValue(q: real, p: real, t: real)
    requires Decide(q, p, t).CorrectQuantity?
    ensures p > 0.0 && Decide(q, p, t) == CorrectQuantity(Round1(t / p))
    ensures 0.0 < Round1(t / p) <= 100.0
  {
  }

  /** A recomputed line total is quantity × unit price. */
  lemma {:induction false} RecomputedValue(q: real, p: real, t: real)
    requires Decide(q, p, t).RecomputeTotal?
    ensures Decide(q, p, t) == RecomputeTotal(q * p)
  {
  }

  /** A corrected quantity is positive, at most 100, and the nearest tenth to
      `t / p`, so it reproduces the line total to within half a tenth of the
      unit price. */
  lemma {:induction false} CorrectedQuantityBounds(q: real, p: real, t: real)
    requires Decide(q, p, t).CorrectQuantity?
    ensures var c := Decide(q, p, t).corrected;
      0.0 < c <= 100.0 && p > 0.0 && AbsReal(c * p - t) <= 0.05 * p
  {
    var c := Round1(t / p);
    var d := c - t / p;
    assert -0.05 <= d <= 0.05;
    assert (t / p) * p == t;
    assert c * p - t == d * p;
    ScaledBound(d, p);
    assert -0.05 * p <= c * p - t <= 0.05 * p;
  }

  lemma {:induction false} ScaledBound(d: real, p: real)
    requires -0.05 <= d <= 0.05 && p > 0.0
    ensures -0.05 * p <= d * p <= 0.05 * p
  {
    assert (d + 0.05) * p >= 0.0;
    assert (0.05 - d) * p >= 0.0;
  }

  /** A non-positive unit price never corrects the quantity: a mismatch always
      recomputes the total. */
  lemma {:induction false} NonPositivePriceRecomputes(q: real, p: real, t: real)
    requires p <= 0.0 && !Consistent(q, p, t)
    ensures Decide(q, p, t) == RecomputeTotal(q * p)
  {
  }

  /** A recomputed total, formatted to two decimals and read back, makes the
      item consistent: checking it again keeps it. */
  lemma {:induction false} RecomputedTotalConsistent(q: real, p: real)
    ensures Decide(q, p, Round2(q * p)) == Keep
  {
    assert AbsReal(Round2(q * p) - q * p) <= 0.005;
  }

  /** A corrected quantity need not make the item consistent: with quantity 5,
      unit price 3 and line total 1 the quantity becomes 0.3, and 0.3 × 3 is
      still 0.1 away from 1. */
  lemma {:induction false} CorrectionCanStayInconsistent()
    ensures Decide(5.0, 3.0, 1.0) == CorrectQuantity(0.3)
    ensures !Consistent(0.3, 3.0, 1.0)
  {
    assert RoundHalfEven(1.0 / 3.0 * 10.0) == 3 by {
      assert (1.0 / 3.0 * 10.0).Floor == 3;
    }
    assert Round1(1.0 / 3.0) == 0.3;
  }

  /** A quantity of 1000 read with unit price and line total 2.50 becomes 1.0
      and is then consistent; "2000" with 0.59 and 1.18 becomes 2.0 likewise;
      "1000" with 0.59 and 1.18 becomes 1.0, still disagrees, and is corrected
      to 1.18 / 0.59 = 2.0. */
  lemma {:induction false} MagnitudeExamples()
    ensures MagnitudeFix(1000.0) == 1.0 && Decide(1.0, 2.5, 2.5) == Keep
    ensures MagnitudeFix(2000.0) == 2.0 && Decide(2.0, 0.59, 1.18) == Keep
    ensures Decide(MagnitudeFix(1000.0), 0.59, 1.18) == CorrectQuantity(2.0)
  {
    assert Round1(1.0) == 1.0 by {
      RoundHalfEvenInt(10);
    }
    assert Round1(2.0) == 2.0 by {
      RoundHalfEvenInt(20);
    }
    assert 1.18 / 0.59 == 2.0;
    assert !Consistent(1.0, 0.59, 1.18);
  }

  /** The fix gives a quantity of at least 1 (1000 / 1000 rounded) and never
      grows a quantity. */
  lemma {:induction false} MagnitudeFixShrinks(q: real)
    requires q >= 1000.0
    ensures 1.0 <= MagnitudeFix(q) < q
  {
    var r := RoundHalfEven(q / 1000.0 * 10.0);
    assert q / 1000.0 * 10.0 >= 10.0;
    assert r >= 10;
  }
}
