/**
 * Progressive tax tables. A table is a list of steps in ascending order; the
 * income between the previous step's limit and this step's limit is taxed at
 * this step's rate, and the last step has no upper limit.
 */
module TaxSchedule {

  /** The upper limit of a step: an amount, or none at all for the top step. */
  datatype Limit = Upto(bound: real) | Unbounded

  datatype Step = Step(limit: Limit, rate: real)

  /** Finite limits strictly increase from `lower`, and only the last step is unbounded. */
  predicate Ascending(steps: seq<Step>, lower: real)
    decreases |steps|
  {
    |steps| > 0 &&
    match steps[0].limit
    case Unbounded => |steps| == 1
    case Upto(b) => lower < b && Ascending(steps[1..], b)
  }

  /** Every rate lies between zero and `top`. */
  predicate RatesWithin(steps: seq<Step>, top: real)
  {
    forall j :: 0 <= j < |steps| ==> 0.0 <= steps[j].rate <= top
  }

  /** Where the next step starts, once this one is done. */
  function NextLower(limit: Limit, lower: real): real
  {
    match limit
    case Upto(b) => b
    case Unbounded => lower
  }

  function Max(a: real, b: real): real { if a < b then b else a }
  function Min(a: real, b: real): real { if a < b then a else b }

  /** The part of `income` that falls inside the step from `lower` up to `limit`. */
  function Portion(income: real, lower: real, limit: Limit): real
  {
    match limit
    case Upto(b) => Min(Max(0.0, income - lower), b - lower)
    case Unbounded => Max(0.0, income - lower)
  }

  /** The tax a table levies on `income`: each step's rate times the income inside it. */
  function ScheduleTax(steps: seq<Step>, lower: real, income: real): real
    decreases |steps|
  {
    if |steps| == 0 then 0.0
    else steps[0].rate * Portion(income, lower, steps[0].limit)
         + ScheduleTax(steps[1..], NextLower(steps[0].limit, lower), income)
  }

  /** The amount of income the table places in its steps, step by step. */
  function PortionTotal(steps: seq<Step>, lower: real, income: real): real
    decreases |steps|
  {
    if |steps| == 0 then 0.0
    else Portion(income, lower, steps[0].limit)
         + PortionTotal(steps[1..], NextLower(steps[0].limit, lower), income)
  }

  /** The steps of an ascending table share out exactly the income above `lower`: nothing is lost or counted twice. */
  lemma {:induction false} PortionsPartitionIncome(steps: seq<Step>, lower: real, income: real)
    requires Ascending(steps, lower)
    ensures PortionTotal(steps, lower, income) == Max(0.0, income - lower)
    decreases |steps|
  {
    match steps[0].limit
    case Unbounded =>
    case Upto(b) =>
      PortionsPartitionIncome(steps[1..], b, income);
  }

  /** Income at or below the start of a table bears none of its tax. */
  lemma {:induction false} NoTaxBelowStart(steps: seq<Step>, lower: real, income: real)
    requires Ascending(steps, lower)
    requires income <= lower
    ensures ScheduleTax(steps, lower, income) == 0.0
    decreases |steps|
  {
    match steps[0].limit
    case Unbounded =>
    case Upto(b) =>
      NoTaxBelowStart(steps[1..], b, income);
  }

  lemma ScaleDifference(rate: real, top: real, lo: real, hi: real)
    requires 0.0 <= rate <= top && lo <= hi
    ensures 0.0 <= rate * hi - rate * lo <= top * hi - top * lo
  {
    assert rate * hi - rate * lo == rate * (hi - lo);
    assert top * hi - top * lo == top * (hi - lo);
    assert (top - rate) * (hi - lo) >= 0.0;
  }

  /**
   * Tax went from `taxX` to `taxY` while the taxed income went from `baseX`
   * to `baseY`: it grew by at least nothing and by at most `top` times the
   * growth of the income.
   */
  predicate GrowthWithin(taxX: real, taxY: real, baseX: real, baseY: real, top: real)
  {
    0.0 <= taxY - taxX <= top * baseY - top * baseX
  }

  /**
   * Raising income from `x` to `y` raises the tax by at least nothing and by
   * at most the top rate times the extra income the table places in its steps.
   */
  lemma {:induction false} TaxGrowthBounded(steps: seq<Step>, lower: real, top: real, x: real, y: real)
    requires Ascending(steps, lower) && RatesWithin(steps, top)
    requires x <= y
    ensures GrowthWithin(ScheduleTax(steps, lower, x), ScheduleTax(steps, lower, y),
                         PortionTotal(steps, lower, x), PortionTotal(steps, lower, y), top)
    decreases |steps|
  {
    var s, tail := steps[0], steps[1..];
    var next := NextLower(s.limit, lower);
    // the rest of the table grows within the same bounds
    assert GrowthWithin(ScheduleTax(tail, next, x), ScheduleTax(tail, next, y),
                        PortionTotal(tail, next, x), PortionTotal(tail, next, y), top) by {
      if s.limit.Upto? {
        RatesWithinTail(steps, top);
        TaxGrowthBounded(tail, next, top, x, y);
      } else {
        assert tail == [];
      }
    }
    AddFirstStep(steps, lower, top, x, y);
  }

  /** The bound for the rest of a table extends to the whole table. */
  lemma AddFirstStep(steps: seq<Step>, lower: real, top: real, x: real, y: real)
    requires |steps| > 0 && 0.0 <= steps[0].rate <= top && x <= y
    requires GrowthWithin(ScheduleTax(steps[1..], NextLower(steps[0].limit, lower), x),
                          ScheduleTax(steps[1..], NextLower(steps[0].limit, lower), y),
                          PortionTotal(steps[1..], NextLower(steps[0].limit, lower), x),
                          PortionTotal(steps[1..], NextLower(steps[0].limit, lower), y), top)
    ensures GrowthWithin(ScheduleTax(steps, lower, x), ScheduleTax(steps, lower, y),
                         PortionTotal(steps, lower, x), PortionTotal(steps, lower, y), top)
  {
    var s, tail := steps[0], steps[1..];
    var next := NextLower(s.limit, lower);
    FirstStep(steps, lower, x);
    FirstStep(steps, lower, y);
    PortionGrows(x, y, lower, s.limit);
    GrowthStep(s.rate, top, Portion(x, lower, s.limit), Portion(y, lower, s.limit),
               ScheduleTax(tail, next, x), ScheduleTax(tail, next, y),
               PortionTotal(tail, next, x), PortionTotal(tail, next, y),
               ScheduleTax(steps, lower, x), ScheduleTax(steps, lower, y),
               PortionTotal(steps, lower, x), PortionTotal(steps, lower, y));
  }

  lemma RatesWithinTail(steps: seq<Step>, top: real)
    requires |steps| > 0 && RatesWithin(steps, top)
    ensures RatesWithin(steps[1..], top)
  {
    forall j | 0 <= j < |steps| - 1 ensures 0.0 <= steps[1..][j].rate <= top {
      assert steps[1..][j] == steps[j + 1];
    }
  }

  /** `whole` is `part` at `rate` plus `rest`. */
  predicate SplitsAs(whole: real, rate: real, part: real, rest: real)
  {
    whole == rate * part + rest
  }

  /** The first step's share of tax and of income, split off from the rest of the table. */
  lemma FirstStep(steps: seq<Step>, lower: real, x: real)
    requires |steps| > 0
    ensures SplitsAs(ScheduleTax(steps, lower, x), steps[0].rate, Portion(x, lower, steps[0].limit),
                     ScheduleTax(steps[1..], NextLower(steps[0].limit, lower), x))
    ensures SplitsAs(PortionTotal(steps, lower, x), 1.0, Portion(x, lower, steps[0].limit),
                     PortionTotal(steps[1..], NextLower(steps[0].limit, lower), x))
  {
  }

  /** A step never holds less of a larger income. */
  lemma PortionGrows(x: real, y: real, lower: real, limit: Limit)
    requires x <= y
    ensures Portion(x, lower, limit) <= Portion(y, lower, limit)
  {
  }

  /**
   * One step's growth added to the growth of the rest keeps both bounds:
   * `tx`, `ty` and `qx`, `qy` are the rest's tax and income, `taxX`, `taxY`
   * and `totalX`, `totalY` the whole table's.
   */
  lemma GrowthStep(rate: real, top: real, px: real, py: real, tx: real, ty: real, qx: real, qy: real,
                   taxX: real, taxY: real, totalX: real, totalY: real)
    requires 0.0 <= rate <= top && px <= py
    requires GrowthWithin(tx, ty, qx, qy, top)
    requires SplitsAs(taxX, rate, px, tx) && SplitsAs(taxY, rate, py, ty)
    requires SplitsAs(totalX, 1.0, px, qx) && SplitsAs(totalY, 1.0, py, qy)
    ensures GrowthWithin(taxX, taxY, totalX, totalY, top)
  {
    ScaleDifference(rate, top, px, py);
    assert top * totalY == top * py + top * qy;
    assert top * totalX == top * px + top * qx;
  }

  /**
   * The tax of an ascending table with rates in [0, top] never decreases as
   * income grows, and grows by at most `top` per unit of extra income: there
   * is no jump at any step boundary.
   */
  lemma MonotoneAndMarginallyBounded(steps: seq<Step>, lower: real, top: real, x: real, y: real)
    requires Ascending(steps, lower) && RatesWithin(steps, top)
    requires x <= y
    ensures ScheduleTax(steps, lower, x) <= ScheduleTax(steps, lower, y)
    ensures ScheduleTax(steps, lower, y) - ScheduleTax(steps, lower, x) <= top * (y - x)
  {
    TaxGrowthBounded(steps, lower, top, x, y);
    PortionsPartitionIncome(steps, lower, x);
    PortionsPartitionIncome(steps, lower, y);
    assert 0.0 <= top by { assert 0.0 <= steps[0].rate <= top; }
    GrowthPerIncome(ScheduleTax(steps, lower, x), ScheduleTax(steps, lower, y),
                    PortionTotal(steps, lower, x), PortionTotal(steps, lower, y), top, lower, x, y);
  }

  /** When the taxed income is the income above `lower`, it grows no faster than the income. */
  lemma GrowthPerIncome(taxX: real, taxY: real, baseX: real, baseY: real, top: real, lower: real, x: real, y: real)
    requires GrowthWithin(taxX, taxY, baseX, baseY, top)
    requires baseX == Max(0.0, x - lower) && baseY == Max(0.0, y - lower)
    requires 0.0 <= top && x <= y
    ensures taxX <= taxY && taxY - taxX <= top * (y - x)
  {
    ScaleDifference(top, top, baseY - baseX, y - x);
    assert top * (baseY - baseX) == top * baseY - top * baseX;
  }

  /** The tax of a table whose rates are non-negative is never negative. */
  lemma TaxNonNegative(steps: seq<Step>, lower: real, top: real, x: real)
    requires Ascending(steps, lower) && RatesWithin(steps, top)
    ensures 0.0 <= ScheduleTax(steps, lower, x)
  {
    var z := if x < lower then x else lower;
    NoTaxBelowStart(steps, lower, z);
    MonotoneAndMarginallyBounded(steps, lower, top, z, x);
  }

  /** Non-negative, non-decreasing, and growing by at most `top` per unit of extra income. */
  lemma ScheduleTaxBounds(steps: seq<Step>, lower: real, top: real, x: real, y: real)
    requires Ascending(steps, lower) && RatesWithin(steps, top)
    requires x <= y
    ensures 0.0 <= ScheduleTax(steps, lower, x) <= ScheduleTax(steps, lower, y)
    ensures ScheduleTax(steps, lower, y) - ScheduleTax(steps, lower, x) <= top * (y - x)
  {
    TaxNonNegative(steps, lower, top, x);
    MonotoneAndMarginallyBounded(steps, lower, top, x, y);
  }
}
