// Re-pegging a debt to a changed rate, and what a round trip of the rate leaves
// of it.  Debts are in cents; rates in millionths, as stored; percentages in
// millionths, as the four decimals of a percentage give them.

module DebtArithmetic {
  import opened Rounding

  const WHOLE := 1000000  // 100 percent

  function Change(oldRate: nat, newRate: nat): nat {
    if newRate > oldRate then newRate - oldRate else oldRate - newRate
  }

  // parseFloat((|new - old| / old * 100).toFixed(4)) / 100, in millionths.
  function Percent(oldRate: nat, newRate: nat): nat
    requires oldRate > 0
  {
    RoundDiv(WHOLE * Change(oldRate, newRate), oldRate)
  }

  predicate ValidPercent(p: int) { 0 < p <= WHOLE }

  // safeRound(|balance| * multiplier), in cents.
  function Adjustment(debt: nat, p: nat): nat { RoundDiv(debt * p, WHOLE) }

  // Relief never exceeds the debt, inflation at most doubles it.
  lemma AdjustmentBounds(debt: nat, p: nat)
    requires p <= WHOLE
    ensures Adjustment(debt, p) <= debt
    ensures p == 0 ==> Adjustment(debt, p) == 0
  {
    Scale(debt, p, WHOLE);
    RoundDivOrder(debt * p, WHOLE, debt);
  }

  // A debt after one update: an invalid percentage throws, is caught, and leaves
  // it alone; less than a cent is skipped.
  function Repegged(debt: nat, oldRate: nat, newRate: nat): nat
    requires oldRate > 0
  {
    var p := Percent(oldRate, newRate);
    if newRate == oldRate || !ValidPercent(p) then debt
    else
      AdjustmentBounds(debt, p);
      if newRate > oldRate then debt + Adjustment(debt, p) else debt - Adjustment(debt, p)
  }

  // -------------------------------------------------------------------------
  // One leg
  // -------------------------------------------------------------------------

  // The adjustment is the debt's share of the change, to within half a cent and
  // half a millionth of the debt: written without division.
  lemma AdjustmentIsClose(debt: nat, rate: nat, change: nat)
    requires rate > 0
    ensures var a := Adjustment(debt, RoundDiv(WHOLE * change, rate));
            Abs(2 * (WHOLE * (rate * a)) - 2 * (WHOLE * (debt * change))) <= rate * WHOLE + debt * rate
  {
    var p := RoundDiv(WHOLE * change, rate);
    TwoErrors(WHOLE, rate, Adjustment(debt, p), debt, p, change);
  }

  // One update scales a debt by the ratio of the rates, to within the slack,
  // unless its percentage is over the limit.
  lemma LegScales(debt: nat, oldRate: nat, newRate: nat)
    requires oldRate > 0 && Percent(oldRate, newRate) <= WHOLE
    ensures 2 * WHOLE * Abs(oldRate * Repegged(debt, oldRate, newRate) - newRate * debt) <= oldRate * (WHOLE + debt)
    ensures newRate >= oldRate ==> debt <= Repegged(debt, oldRate, newRate) <= 2 * debt
    ensures newRate <= oldRate ==> Repegged(debt, oldRate, newRate) <= debt
  {
    var c, d1 := Change(oldRate, newRate), Repegged(debt, oldRate, newRate);
    var a := Adjustment(debt, Percent(oldRate, newRate));
    AdjustmentBounds(debt, Percent(oldRate, newRate));
    AdjustmentIsClose(debt, oldRate, c);
    LegError(oldRate, debt, a, c);
  }

  lemma LegError(rate: nat, debt: nat, a: nat, c: nat)
    requires Abs(2 * (WHOLE * (rate * a)) - 2 * (WHOLE * (debt * c))) <= rate * WHOLE + debt * rate
    ensures 2 * WHOLE * Abs(rate * (debt + a) - (rate + c) * debt) <= rate * (WHOLE + debt)
    ensures 2 * WHOLE * Abs(rate * (debt - a) - (rate - c) * debt) <= rate * (WHOLE + debt)
  {
    LegIdentities(rate, debt, a, c);
  }

  lemma LegIdentities(rate: int, debt: int, a: int, c: int)
    ensures rate * (debt + a) - (rate + c) * debt == rate * a - debt * c
    ensures rate * (debt - a) - (rate - c) * debt == debt * c - rate * a
    ensures rate * (WHOLE + debt) == rate * WHOLE + debt * rate
  {}

  // -------------------------------------------------------------------------
  // There and back
  // -------------------------------------------------------------------------

  // Both slacks, over the rate the debt came back to.
  lemma ThereAndBack(debt: nat, a: nat, b: nat)
    requires a > 0 && b > 0 && Percent(a, b) <= WHOLE && Percent(b, a) <= WHOLE
    ensures var d1 := Repegged(debt, a, b);
            b * (2 * WHOLE * Abs(Repegged(d1, b, a) - debt)) <= a * (WHOLE + debt) + b * (WHOLE + d1)
  {
    var d1 := Repegged(debt, a, b);
    var d2 := Repegged(d1, b, a);
    LegScales(debt, a, b);
    LegScales(d1, b, a);
    BothErrors(a, b, debt, d1, d2);
  }

  lemma BothErrors(a: nat, b: nat, d: nat, d1: nat, d2: nat)
    requires 2 * WHOLE * Abs(a * d1 - b * d) <= a * (WHOLE + d)
    requires 2 * WHOLE * Abs(b * d2 - a * d1) <= b * (WHOLE + d1)
    ensures b * (2 * WHOLE * Abs(d2 - d)) <= a * (WHOLE + d) + b * (WHOLE + d1)
  {
    Telescope(a, b, d, d1, d2);
    AbsOfProduct(b, d2 - d);
  }

  lemma Telescope(a: int, b: int, d: int, d1: int, d2: int)
    ensures (a * d1 - b * d) + (b * d2 - a * d1) == b * (d2 - d)
  {}

  lemma AbsOfProduct(b: nat, x: int)
    ensures b * (2 * WHOLE * Abs(x)) == 2 * WHOLE * Abs(b * x)
  {
    if x < 0 { assert b * x == -(b * -x); }
  }

  lemma PercentDownIsValid(low: nat, high: nat)
    requires 0 < low <= high
    ensures Percent(high, low) <= WHOLE
  {
    RoundDivOrder(WHOLE * (high - low), high, WHOLE);
  }

  // The rate goes up and comes back: within one cent and 1.5 millionths.
  lemma UpAndBack(debt: nat, low: nat, high: nat)
    requires 0 < low <= high && Percent(low, high) <= WHOLE
    ensures 2 * WHOLE * Abs(Repegged(Repegged(debt, low, high), high, low) - debt) <= 2 * WHOLE + 3 * debt
  {
    var d1 := Repegged(debt, low, high);
    var err := 2 * WHOLE * Abs(Repegged(d1, high, low) - debt);
    PercentDownIsValid(low, high);
    LegScales(debt, low, high);
    ThereAndBack(debt, low, high);
    UpBound(debt, d1, low, high, err);
  }

  lemma UpBound(debt: nat, d1: nat, low: nat, high: nat, err: nat)
    requires 0 < low <= high && d1 <= 2 * debt
    requires high * err <= low * (WHOLE + debt) + high * (WHOLE + d1)
    ensures err <= 2 * WHOLE + 3 * debt
  {
    Scale(WHOLE + debt, low, high);
    Scale(high, WHOLE + d1, WHOLE + 2 * debt);
    SumOfProducts(high, WHOLE + debt, WHOLE + 2 * debt);
    RefundAmounts.CancelFactor(err, 2 * WHOLE + 3 * debt, high);
  }

  lemma SumOfProducts(k: int, x: int, y: int)
    ensures k * x + k * y == k * (x + y)
  {}

  // A fall of more than half leaves at most half the debt.
  lemma HalvedBelow(debt: nat, low: nat, high: nat)
    requires 0 < low && 2 * low <= high
    ensures 2 * Repegged(debt, high, low) <= debt
  {
    var p := Percent(high, low);
    PercentDownIsValid(low, high);
    RoundDivOrder(WHOLE * (high - low), high, WHOLE);
    assert 2 * p >= WHOLE;
    Scale(debt, WHOLE, 2 * p);
    RoundDivOrder(debt * p, WHOLE, debt);
    AdjustmentBounds(debt, p);
  }

  // The rate goes down and comes back: within a cent and a half and 1.5
  // millionths.
  lemma DownAndBack(debt: nat, low: nat, high: nat)
    requires 0 < low <= high && Percent(low, high) <= WHOLE
    ensures 2 * WHOLE * Abs(Repegged(Repegged(debt, high, low), low, high) - debt) <= 3 * WHOLE + 3 * debt
  {
    var d1 := Repegged(debt, high, low);
    var err := 2 * WHOLE * Abs(Repegged(d1, low, high) - debt);
    PercentDownIsValid(low, high);
    LegScales(debt, high, low);
    ThereAndBack(debt, high, low);
    if high <= 2 * low {
      AtMostDouble(debt, d1, low, high);
      RefundAmounts.CancelFactor(err, 3 * WHOLE + 3 * debt, low);
    } else if debt > 0 {
      HalvedBelow(debt, low, high);
      JustOverDouble(debt, d1, low, high);
      RefundAmounts.CancelFactor(err, 3 * WHOLE + 3 * debt, low);
    } else {
      assert d1 == 0 && Repegged(d1, low, high) == 0;
    }
  }

  lemma AtMostDouble(debt: nat, d1: nat, low: nat, high: nat)
    requires 0 < low <= high <= 2 * low && d1 <= debt
    ensures high * (WHOLE + debt) + low * (WHOLE + d1) <= low * (3 * WHOLE + 3 * debt)
  {
    Scale(WHOLE + debt, high, 2 * low);
    Scale(low, WHOLE + d1, WHOLE + debt);
    SumOfProducts(low, 2 * (WHOLE + debt), WHOLE + debt);
  }

  lemma JustOverDouble(debt: nat, d1: nat, low: nat, high: nat)
    requires 0 < low <= high && Percent(low, high) <= WHOLE && debt > 0 && 2 * d1 <= debt
    ensures high * (WHOLE + debt) + low * (WHOLE + d1) <= low * (3 * WHOLE + 3 * debt)
  {
    Scale(low, Percent(low, high) + 1, WHOLE + 1);
    RatioBound(debt, d1, low, high);
  }

  lemma RatioBound(debt: nat, d1: nat, low: nat, high: nat)
    requires 0 < low && debt > 0 && 2 * d1 <= debt && 2 * WHOLE * high <= low * (4 * WHOLE + 1)
    ensures high * (WHOLE + debt) + low * (WHOLE + d1) <= low * (3 * WHOLE + 3 * debt)
  {
    Scale(WHOLE + debt, 2 * WHOLE * high, low * (4 * WHOLE + 1));
    Scale(low, (WHOLE + debt) * (4 * WHOLE + 1) + 2 * WHOLE * (WHOLE + d1), 2 * WHOLE * (3 * WHOLE + 3 * debt));
    RatioTerms(debt, d1, low, high);
  }

  lemma RatioTerms(d: int, d1: int, low: int, high: int)
    ensures (WHOLE + d) * (2 * WHOLE * high) == 2 * WHOLE * (high * (WHOLE + d))
    ensures (WHOLE + d) * (low * (4 * WHOLE + 1)) + 2 * WHOLE * (low * (WHOLE + d1)) ==
            low * ((WHOLE + d) * (4 * WHOLE + 1) + 2 * WHOLE * (WHOLE + d1))
    ensures low * (2 * WHOLE * (3 * WHOLE + 3 * d)) == 2 * WHOLE * (low * (3 * WHOLE + 3 * d))
  {}

  // -------------------------------------------------------------------------
  // When a round trip restores a debt
  // -------------------------------------------------------------------------

  function Low(a: nat, b: nat): nat { if a < b then a else b }

  function High(a: nat, b: nat): nat { if a < b then b else a }

  function RoundTrip(debt: nat, a: nat, b: nat): nat
    requires a > 0 && b > 0
  {
    Repegged(Repegged(debt, a, b), b, a)
  }

  predicate Restored(debt: nat, back: nat) { 2 * WHOLE * Abs(back - debt) <= 3 * WHOLE + 3 * debt }

  // A change of more than 100 percent up is refused, while the way down is not.
  lemma OverLimitLosesHalf(debt: nat, a: nat, b: nat)
    requires a > 0 && b > 0 && Percent(Low(a, b), High(a, b)) > WHOLE
    ensures 2 * RoundTrip(debt, a, b) <= debt
  {
    var low, high, p := Low(a, b), High(a, b), Percent(Low(a, b), High(a, b));
    Scale(low, WHOLE + 1, p);
    assert 2 * low <= high;
    HalvedBelow(debt, low, high);
  }

  lemma WithinLimitRestores(debt: nat, a: nat, b: nat)
    requires a > 0 && b > 0 && Percent(Low(a, b), High(a, b)) <= WHOLE
    ensures Restored(debt, RoundTrip(debt, a, b))
  {
    if a <= b { UpAndBack(debt, a, b); } else { DownAndBack(debt, b, a); }
  }

  // A debt of four cents or more survives the round trip, to within a cent and a
  // half and 1.5 millionths, exactly when the larger change is at most 100
  // percent; smaller debts are always within it.
  lemma RestoredExactlyWhenWithinLimit(debt: nat, a: nat, b: nat)
    requires a > 0 && b > 0 && debt >= 4
    ensures Restored(debt, RoundTrip(debt, a, b)) <==> Percent(Low(a, b), High(a, b)) <= WHOLE
  {
    if Percent(Low(a, b), High(a, b)) > WHOLE {
      OverLimitLosesHalf(debt, a, b);
    } else {
      WithinLimitRestores(debt, a, b);
    }
  }

  // -------------------------------------------------------------------------
  // One cent and two millionths
  // -------------------------------------------------------------------------

  predicate WithinTwoMillionths(debt: nat, back: nat) { 2 * WHOLE * Abs(back - debt) <= 2 * WHOLE + 4 * debt }

  // With 1 <= high / low <= 2, low / high lies below its chord.
  lemma Chord(low: nat, high: nat)
    requires low <= high <= 2 * low
    ensures 2 * (low * low) <= high * (3 * low - high)
  {
    assert (high - low) * (2 * low - high) >= 0 by { Scale(high - low, 0, 2 * low - high); }
    assert (high - low) * (2 * low - high) == high * (3 * low - high) - 2 * (low * low);
  }

  // The first leg in terms of the chord.
  lemma FirstLeg(d: nat, d1: nat, low: nat, high: nat)
    requires 0 < low <= high <= 2 * low
    requires 2 * WHOLE * Abs(high * d1 - low * d) <= high * (WHOLE + d)
    ensures 2 * WHOLE * (low * d1) <= WHOLE * ((3 * low - high) * d) + low * (WHOLE + d)
  {
    var x, y := 2 * WHOLE * (low * d1), WHOLE * ((3 * low - high) * d) + low * (WHOLE + d);
    Scale(low, 2 * WHOLE * (high * d1), 2 * WHOLE * (low * d) + high * (WHOLE + d));
    ChordOf(d, low, high);
    FirstLegTerms(d, d1, low, high);
    Chain(high * x, WHOLE, d * (2 * (low * low)), d * (high * (3 * low - high)), high * (low * (WHOLE + d)), high * y);
    RefundAmounts.CancelFactor(x, y, high);
  }

  lemma ChordOf(d: nat, low: nat, high: nat)
    requires low <= high <= 2 * low
    ensures d * (2 * (low * low)) <= d * (high * (3 * low - high))
  {
    Chord(low, high);
    Scale(d, 2 * (low * low), high * (3 * low - high));
  }

  lemma Chain(x: int, k: nat, p: int, q: int, r: int, y: int)
    requires x <= k * p + r && p <= q && y == k * q + r
    ensures x <= y
  {
    Scale(k, p, q);
  }

  lemma FirstLegTerms(d: int, d1: int, low: int, high: int)
    ensures low * (2 * WHOLE * (high * d1)) == high * (2 * WHOLE * (low * d1))
    ensures low * (2 * WHOLE * (low * d) + high * (WHOLE + d)) ==
            WHOLE * (d * (2 * (low * low))) + high * (low * (WHOLE + d))
    ensures high * (WHOLE * ((3 * low - high) * d) + low * (WHOLE + d)) ==
            WHOLE * (d * (high * (3 * low - high))) + high * (low * (WHOLE + d))
  {}

  // Two cents off needs about double the rate and a debt near 4000.00.
  lemma TwoCentsOff(d: nat, d1: nat, err: nat, low: nat, high: nat)
    requires 0 < low && err >= 2 && low * (2 * WHOLE * err) <= high * (WHOLE + d) + low * (WHOLE + d1)
    requires 2 * WHOLE * (low * d1) <= WHOLE * ((3 * low - high) * d) + low * (WHOLE + d)
    ensures low * (6 * WHOLE * WHOLE) <= high * (2 * WHOLE * WHOLE + WHOLE * d) + low * (3 * WHOLE * d + WHOLE + d)
  {
    Scale(low, 4 * WHOLE, 2 * WHOLE * err);
    TwoCentsTerms(d, d1, low, high);
  }

  lemma TwoCentsTerms(d: int, d1: int, low: int, high: int)
    ensures 2 * WHOLE * (low * (4 * WHOLE)) == low * (6 * WHOLE * WHOLE) + low * (2 * WHOLE * WHOLE)
    ensures 2 * WHOLE * (high * (WHOLE + d) + low * (WHOLE + d1)) ==
            high * (2 * WHOLE * WHOLE + 2 * WHOLE * d) + low * (2 * WHOLE * WHOLE) + 2 * WHOLE * (low * d1)
    ensures WHOLE * ((3 * low - high) * d) + low * (WHOLE + d) ==
            low * (3 * WHOLE * d + WHOLE + d) - high * (WHOLE * d)
    ensures high * (2 * WHOLE * WHOLE + 2 * WHOLE * d) - high * (WHOLE * d) == high * (2 * WHOLE * WHOLE + WHOLE * d)
  {}

  // In the two rates, a line; as a bound on high / low, a curve that falls from
  // about 2 at a debt of 4000.00 to about 1.8 at 5000.00.
  predicate BelowCurve(d: nat, low: nat, high: nat) {
    high * (2 * WHOLE * WHOLE + WHOLE * d) + low * (3 * WHOLE * d + WHOLE + d) < low * (6 * WHOLE * WHOLE)
  }

  lemma SmallIsBelowCurve(d: nat, low: nat, high: nat)
    requires 0 < low && d < 400000 && high <= 2 * low
    ensures BelowCurve(d, low, high)
  {
    var h, l := 2 * WHOLE * WHOLE + WHOLE * d, 3 * WHOLE * d + WHOLE + d;
    Scale(h, high, 2 * low);
    SumOfProducts(low, 2 * h, l);
    RefundAmounts.CancelFactor(6 * WHOLE * WHOLE, 2 * h + l, low);
  }

  lemma FlatIsBelowCurve(d: nat, low: nat, high: nat)
    requires 0 < low && d < 500000 && 5 * high <= 9 * low
    ensures BelowCurve(d, low, high)
  {
    var h, l := 2 * WHOLE * WHOLE + WHOLE * d, 3 * WHOLE * d + WHOLE + d;
    Scale(h, 5 * high, 9 * low);
    SumOfProducts(low, 9 * h, 5 * l);
    RefundAmounts.CancelFactor(30 * WHOLE * WHOLE, 9 * h + 5 * l, low);
  }

  // Over double, only small debts are below the curve.
  lemma CurveOverDouble(d: nat, low: nat, high: nat)
    requires 0 < low && 2 * low < high && BelowCurve(d, low, high)
    ensures d < 400000
  {
    var h, l := 2 * WHOLE * WHOLE + WHOLE * d, 3 * WHOLE * d + WHOLE + d;
    Scale(h, 2 * low, high);
    SumOfProducts(low, 2 * h, l);
    RefundAmounts.CancelFactor(6 * WHOLE * WHOLE, 2 * h + l, low);
  }

  // Just over double, where the first leg takes at least half.
  lemma NoTwoCentsOver(d: nat, d1: nat, err: nat, low: nat, high: nat)
    requires 0 < low <= high && Percent(low, high) <= WHOLE && d < 400000 && 2 * d1 <= d
    requires low * (2 * WHOLE * err) <= high * (WHOLE + d) + low * (WHOLE + d1)
    ensures err <= 1
  {
    Scale(low, Percent(low, high) + 1, WHOLE + 1);
    Scale(WHOLE + d, 2 * WHOLE * high, low * (4 * WHOLE + 1));
    var sum := (WHOLE + d) * (4 * WHOLE + 1) + 2 * WHOLE * (WHOLE + d1);
    OverTerms(d, d1, err, low, high);
    RefundAmounts.CancelFactor(4 * WHOLE * WHOLE * err, sum, low);
  }

  lemma OverTerms(d: int, d1: int, err: int, low: int, high: int)
    ensures 2 * WHOLE * (low * (2 * WHOLE * err)) == low * (4 * WHOLE * WHOLE * err)
    ensures 2 * WHOLE * (high * (WHOLE + d) + low * (WHOLE + d1)) ==
            (WHOLE + d) * (2 * WHOLE * high) + low * (2 * WHOLE * (WHOLE + d1))
    ensures (WHOLE + d) * (low * (4 * WHOLE + 1)) + low * (2 * WHOLE * (WHOLE + d1)) ==
            low * ((WHOLE + d) * (4 * WHOLE + 1) + 2 * WHOLE * (WHOLE + d1))
  {}

  // Down first: off by at most one cent for a small debt, or for rates below the
  // curve.
  lemma DownWithinACent(debt: nat, low: nat, high: nat)
    requires 0 < low <= high && Percent(low, high) <= WHOLE
    requires debt < 400000 || BelowCurve(debt, low, high)
    ensures Abs(RoundTrip(debt, high, low) - debt) <= 1
  {
    var d1, err := Repegged(debt, high, low), Abs(RoundTrip(debt, high, low) - debt);
    PercentDownIsValid(low, high);
    LegScales(debt, high, low);
    ThereAndBack(debt, high, low);
    if high <= 2 * low {
      FirstLeg(debt, d1, low, high);
      if debt < 400000 { SmallIsBelowCurve(debt, low, high); }
      if err >= 2 { TwoCentsOff(debt, d1, err, low, high); }
    } else {
      if debt >= 400000 { CurveOverDouble(debt, low, high); }
      HalvedBelow(debt, low, high);
      NoTwoCentsOver(debt, d1, err, low, high);
    }
  }

  // A debt returns to within one cent and two millionths whenever the rate went
  // up first, or the debt is outside 4000.00 to 5000.00, or the rates lie below
  // the curve - as they do up to a factor of 1.8.
  lemma WithinTwoMillionthsOutsideTheCurve(debt: nat, a: nat, b: nat)
    requires a > 0 && b > 0 && Percent(Low(a, b), High(a, b)) <= WHOLE
    ensures a <= b || debt < 400000 || debt >= 500000 || 5 * a <= 9 * b || BelowCurve(debt, b, a) ==>
              WithinTwoMillionths(debt, RoundTrip(debt, a, b))
  {
    if a <= b {
      UpAndBack(debt, a, b);
    } else if debt >= 500000 {
      DownAndBack(debt, b, a);
    } else {
      if 5 * a <= 9 * b { FlatIsBelowCurve(debt, b, a); }
      if debt < 400000 || BelowCurve(debt, b, a) { DownWithinACent(debt, b, a); }
    }
  }

  // Below 4000.00 the error is at most one cent.
  lemma SmallDebtsWithinACent(debt: nat, a: nat, b: nat)
    requires a > 0 && b > 0 && Percent(Low(a, b), High(a, b)) <= WHOLE && debt < 400000
    ensures Abs(RoundTrip(debt, a, b) - debt) <= 1
  {
    if a <= b { UpAndBack(debt, a, b); } else { DownWithinACent(debt, b, a); }
  }

  // Near the lower edge of the window: from 1999.002499 to 1000 and back, a debt
  // of 4016.05 is off by two cents.
  lemma WindowStartsNear4000()
    ensures Percent(1000000000, 1999002499) <= WHOLE
    ensures !WithinTwoMillionths(401605, RoundTrip(401605, 1999002499, 1000000000))
  {
    assert Percent(1999002499, 1000000000) == 499751 && Percent(1000000000, 1999002499) == 999002;
    assert Adjustment(401605, 499751) == 200703 && Adjustment(200902, 999002) == 200701;
  }

  // In the middle: from 5.421 to 2.827 and back, a ratio of 1.918 with the curve
  // at 1.898, a debt of 4500.00 is.
  lemma CurveIsApproached()
    ensures Percent(2827000, 5421000) <= WHOLE
    ensures BelowCurve(450000, 1000, 1897) && !BelowCurve(450000, 1000, 1898)
    ensures !WithinTwoMillionths(450000, RoundTrip(450000, 5421000, 2827000))
  {
    assert Percent(5421000, 2827000) == 478510 && Percent(2827000, 5421000) == 917580;
    assert Adjustment(450000, 478510) == 215330 && Adjustment(234670, 917580) == 215328;
  }

  // Near the upper edge: from 1820.215499 to 1000 and back, one of 4998.38 is.
  lemma WindowEndsNear5000()
    ensures Percent(1000000000, 1820215499) <= WHOLE
    ensures !WithinTwoMillionths(499838, RoundTrip(499838, 1820215499, 1000000000))
  {
    assert Percent(1820215499, 1000000000) == 450615 && Percent(1000000000, 1820215499) == 820215;
    assert Adjustment(499838, 450615) == 225235 && Adjustment(274603, 820215) == 225233;
  }

  // Down first, one cent and two millionths is not enough: from 403.186719 to
  // 205.806470 and back, a debt of 4821.54 is off by two cents.
  lemma TwoMillionthsAreNotEnough()
    ensures Percent(403186719, 205806470) <= WHOLE && Percent(205806470, 403186719) <= WHOLE
    ensures !WithinTwoMillionths(482154, RoundTrip(482154, 403186719, 205806470))
  {
    assert Percent(403186719, 205806470) == 489550 && Percent(205806470, 403186719) == 959058;
    assert Adjustment(482154, 489550) == 236038 && Adjustment(246116, 959058) == 236040;
  }
}
