/**
 * The Thai tax engine of the accounting application: personal income tax on
 * the eight-step progressive table, the flat-versus-actual expense choice,
 * corporate tax for SMEs and other companies, the VAT registration threshold,
 * where an income sits in the table, and the marginal tax on extra work.
 * Amounts are exact baht values.
 */
module TaxService {
  import opened Options
  import opened TaxSchedule

  // ---------------------------------------------------------------------
  // The personal income tax table
  // ---------------------------------------------------------------------

  /** The personal income tax table, rates as fractions; the last step has no upper limit. */
  const PersonalSteps: seq<Step> := [
    Step(Upto(150000.0), 0.0),
    Step(Upto(300000.0), 0.05),
    Step(Upto(500000.0), 0.10),
    Step(Upto(750000.0), 0.15),
    Step(Upto(1000000.0), 0.20),
    Step(Upto(2000000.0), 0.25),
    Step(Upto(5000000.0), 0.30),
    Step(Unbounded, 0.35)
  ]

  /** The highest marginal rate of the personal table. */
  const TopPersonalRate: real := 0.35

  lemma PersonalStepsShape()
    ensures |PersonalSteps| == 8
    ensures Ascending(PersonalSteps, 0.0) && RatesWithin(PersonalSteps, TopPersonalRate)
  {
    var s := PersonalSteps;
    assert Ascending(s[7..], 5000000.0);
    assert s[6..][1..] == s[7..];
    assert Ascending(s[6..], 2000000.0);
    assert s[5..][1..] == s[6..];
    assert Ascending(s[5..], 1000000.0);
    assert s[4..][1..] == s[5..];
    assert Ascending(s[4..], 750000.0);
    assert s[3..][1..] == s[4..];
    assert Ascending(s[3..], 500000.0);
    assert s[2..][1..] == s[3..];
    assert Ascending(s[2..], 300000.0);
    assert s[1..][1..] == s[2..];
    assert Ascending(s[1..], 150000.0);
  }

  /** The tax the personal table levies on a net income. */
  function BracketTax(netIncome: real): real
  {
    ScheduleTax(PersonalSteps, 0.0, netIncome)
  }

  /**
   * The cumulative table: the row that holds an income, where that row
   * starts, the tax due at its start, and its marginal rate.
   */
  function Row(x: real): (k: nat)
    ensures k < 8
  {
    if x <= 150000.0 then 0
    else if x <= 300000.0 then 1
    else if x <= 500000.0 then 2
    else if x <= 750000.0 then 3
    else if x <= 1000000.0 then 4
    else if x <= 2000000.0 then 5
    else if x <= 5000000.0 then 6
    else 7
  }

  const RowStarts: seq<real> := [0.0, 150000.0, 300000.0, 500000.0, 750000.0, 1000000.0, 2000000.0, 5000000.0]
  const RowBases: seq<real> := [0.0, 0.0, 7500.0, 27500.0, 65000.0, 115000.0, 365000.0, 1265000.0]
  const RowRates: seq<real> := [0.0, 0.05, 0.10, 0.15, 0.20, 0.25, 0.30, 0.35]

  /** The marginal rate at an income: the rate of the row that holds it. */
  function MarginalRate(x: real): real
  {
    RowRates[Row(x)]
  }

  /** The tax read off the cumulative table: the tax due at the row's start plus the row's rate on the excess. */
  function CumulativeTax(x: real): real
  {
    if x <= 0.0 then 0.0
    else RowBases[Row(x)] + MarginalRate(x) * (x - RowStarts[Row(x)])
  }

  /**
   * calculateTaxFromNet: walks the table, moving each step's share of the
   * remaining income into the tax, and stops once no income remains.
   */
  method CalculateTaxFromNet(netIncome: real) returns (tax: real)
    ensures tax == BracketTax(netIncome)
  {
    PersonalStepsShape();
    tax := WalkSteps(PersonalSteps, netIncome);
  }

  /** The loop of calculateTaxFromNet, for any ascending table that starts at zero. */
  method WalkSteps(taxSteps: seq<Step>, netIncome: real) returns (tax: real)
    requires Ascending(taxSteps, 0.0)
    ensures tax == ScheduleTax(taxSteps, 0.0, netIncome)
  {
    tax := 0.0;
    var remaining := netIncome;
    var previousLimit := 0.0;
    var k := 0;
    assert taxSteps[k..] == taxSteps;
    while k < |taxSteps|
      invariant 0 <= k <= |taxSteps|
      invariant k < |taxSteps| ==> Ascending(taxSteps[k..], previousLimit)
      invariant remaining == netIncome - previousLimit
      invariant tax + ScheduleTax(taxSteps[k..], previousLimit, netIncome) == ScheduleTax(taxSteps, 0.0, netIncome)
    {
      var step := taxSteps[k];
      var incomeInStep: real;
      match step.limit {
        case Unbounded =>
          incomeInStep := remaining;
        case Upto(limit) =>
          var width := limit - previousLimit;
          incomeInStep := Min(Max(0.0, remaining), width);
      }
      assert taxSteps[k..][1..] == taxSteps[k + 1..];
      assert incomeInStep > 0.0 ==> incomeInStep == Portion(netIncome, previousLimit, step.limit);
      assert incomeInStep <= 0.0 ==> Portion(netIncome, previousLimit, step.limit) == 0.0;
      if incomeInStep > 0.0 {
        tax := tax + incomeInStep * step.rate;
        remaining := remaining - incomeInStep;
      }
      previousLimit := NextLower(step.limit, previousLimit);
      if remaining <= 0.0 {
        if step.limit.Upto? {
          NoTaxBelowStart(taxSteps[k + 1..], previousLimit, netIncome);
        }
        break;
      }
      k := k + 1;
    }
    assert k == |taxSteps| ==> taxSteps[k..] == [];
  }

  /** No tax is due on a net income of 150,000 or less, nor on zero or a negative amount. */
  lemma BracketTaxFreeUpTo150k(netIncome: real)
    requires netIncome <= 150000.0
    ensures BracketTax(netIncome) == 0.0
  {
    PersonalStepsShape();
    assert Ascending(PersonalSteps[1..], 150000.0);
    NoTaxBelowStart(PersonalSteps[1..], 150000.0, netIncome);
  }

  /**
   * The personal tax is never negative, never decreases as net income grows,
   * and grows by at most 35% of the extra income: no jump at any boundary.
   */
  lemma BracketTaxMonotone(x: real, y: real)
    requires x <= y
    ensures 0.0 <= BracketTax(x) <= BracketTax(y)
    ensures BracketTax(y) - BracketTax(x) <= TopPersonalRate * (y - x)
  {
    PersonalStepsShape();
    ScheduleTaxBounds(PersonalSteps, 0.0, TopPersonalRate, x, y);
  }

  /** On a non-negative net income the tax is at most 35% of it. */
  lemma BracketTaxAtMostTopRate(netIncome: real)
    requires 0.0 <= netIncome
    ensures 0.0 <= BracketTax(netIncome) <= TopPersonalRate * netIncome
  {
    BracketTaxFreeUpTo150k(0.0);
    BracketTaxMonotone(0.0, netIncome);
  }

  /** The personal table written out step by step: each step's rate on the income inside it. */
  function StepByStep(x: real): real
  {
    0.05 * Min(Max(0.0, x - 150000.0), 150000.0)
    + 0.10 * Min(Max(0.0, x - 300000.0), 200000.0)
    + 0.15 * Min(Max(0.0, x - 500000.0), 250000.0)
    + 0.20 * Min(Max(0.0, x - 750000.0), 250000.0)
    + 0.25 * Min(Max(0.0, x - 1000000.0), 1000000.0)
    + 0.30 * Min(Max(0.0, x - 2000000.0), 3000000.0)
    + 0.35 * Max(0.0, x - 5000000.0)
  }

  lemma BracketTaxStepByStep(x: real)
    ensures BracketTax(x) == StepByStep(x)
  {
    var s := PersonalSteps;
    assert s[1..][1..] == s[2..] && s[2..][1..] == s[3..] && s[3..][1..] == s[4..];
    assert s[4..][1..] == s[5..] && s[5..][1..] == s[6..] && s[6..][1..] == s[7..];
    assert s[7..][1..] == [];
    var t7 := ScheduleTax(s[7..], 5000000.0, x);
    var t6 := ScheduleTax(s[6..], 2000000.0, x);
    var t5 := ScheduleTax(s[5..], 1000000.0, x);
    var t4 := ScheduleTax(s[4..], 750000.0, x);
    var t3 := ScheduleTax(s[3..], 500000.0, x);
    var t2 := ScheduleTax(s[2..], 300000.0, x);
    var t1 := ScheduleTax(s[1..], 150000.0, x);
    assert s[7..] == [Step(Unbounded, 0.35)];
    assert s[7..][0].rate == 0.35 && s[7..][0].limit == Unbounded;
    assert Portion(x, 5000000.0, Unbounded) == Max(0.0, x - 5000000.0);
    assert ScheduleTax(s[7..][1..], 5000000.0, x) == 0.0;
    assert t7 == 0.35 * Max(0.0, x - 5000000.0);
    assert t6 == 0.30 * Min(Max(0.0, x - 2000000.0), 3000000.0) + t7;
    assert t5 == 0.25 * Min(Max(0.0, x - 1000000.0), 1000000.0) + t6;
    assert t4 == 0.20 * Min(Max(0.0, x - 750000.0), 250000.0) + t5;
    assert t3 == 0.15 * Min(Max(0.0, x - 500000.0), 250000.0) + t4;
    assert t2 == 0.10 * Min(Max(0.0, x - 300000.0), 200000.0) + t3;
    assert t1 == 0.05 * Min(Max(0.0, x - 150000.0), 150000.0) + t2;
    assert BracketTax(x) == 0.0 * Min(Max(0.0, x), 150000.0) + t1;
  }

  /** The step-by-step sum agrees with the cumulative table, row by row. */
  lemma StepByStepIsCumulative(x: real)
    ensures StepByStep(x) == CumulativeTax(x)
  {
    var k := Row(x);
    if k == 0 {
    } else if k == 1 {
    } else if k == 2 {
    } else if k == 3 {
    } else if k == 4 {
    } else if k == 5 {
    } else if k == 6 {
    } else {
    }
  }

  /** The table's sum of rate times income in each step agrees with the cumulative table everywhere. */
  lemma BracketTaxMatchesCumulative(x: real)
    ensures BracketTax(x) == CumulativeTax(x)
  {
    BracketTaxStepByStep(x);
    StepByStepIsCumulative(x);
  }

  /** Two worked values: 300,000 owes 7,500 and 1,000,000 owes 115,000. */
  lemma BracketTaxExamples()
    ensures BracketTax(300000.0) == 7500.0
    ensures BracketTax(1000000.0) == 115000.0
  {
    BracketTaxMatchesCumulative(300000.0);
    BracketTaxMatchesCumulative(1000000.0);
  }

  // ---------------------------------------------------------------------
  // calculatePersonalTax
  // ---------------------------------------------------------------------

  datatype ExpenseType = Flat | Actual

  /** The deduction items as the taxpayer enters them, before any cap. */
  datatype Deductions = Deductions(
    socialSecurity: real,
    lifeInsurance: real,
    providentFund: real,
    donation: real,
    other: real)

  /** `actualExpense` is optional; `None` is an absent field. */
  datatype PersonalTaxParams = PersonalTaxParams(
    totalIncome: real,
    expenseType: ExpenseType,
    actualExpense: Option<real>,
    deductions: Deductions,
    whtAmount: real)

  /** One line of the per-step breakdown: a step's limit, its rate, and the tax it contributes. */
  datatype StepAmount = StepAmount(limit: Limit, rate: real, amount: real)

  datatype PersonalTaxResult = PersonalTaxResult(
    totalIncome: real,
    expenseAmount: real,
    totalDeductions: real,
    netIncome: real,
    taxBeforeWht: real,
    whtCredit: real,
    taxPayable: real,
    avgTaxRate: real,
    steps: seq<StepAmount>)

  /** The flat expense deduction: 60% of income, capped at 600,000 (reached at an income of 1,000,000). */
  function FlatExpense(income: real): (r: real)
    ensures r <= 600000.0
    ensures income <= 1000000.0 ==> r == 0.6 * income
    ensures income >= 1000000.0 ==> r == 600000.0
  {
    Min(income * 0.6, 600000.0)
  }

  /** The expense deduction: the flat amount, or the actual expense as given (an absent one counts as zero). */
  function ExpenseAmount(p: PersonalTaxParams): real
  {
    match p.expenseType
    case Flat => FlatExpense(p.totalIncome)
    case Actual => match p.actualExpense
                   case Some(v) => v
                   case None => 0.0
  }

  /** The deductions other than the donation, after their caps. */
  datatype BaseDeductions = BaseDeductions(
    personal: real,
    socialSecurity: real,
    lifeInsurance: real,
    providentFund: real,
    other: real)

  /**
   * The caps on the deductions: the personal allowance is always 60,000;
   * social security counts up to 9,000 and life insurance up to 100,000;
   * provident fund and other deductions count in full. A cap only lowers an
   * item, so a negative entry passes through unchanged.
   */
  function CapDeductions(d: Deductions): (b: BaseDeductions)
    ensures b.personal == 60000.0
    ensures b.socialSecurity <= 9000.0 && b.socialSecurity <= d.socialSecurity
    ensures d.socialSecurity <= 9000.0 ==> b.socialSecurity == d.socialSecurity
    ensures b.lifeInsurance <= 100000.0 && b.lifeInsurance <= d.lifeInsurance
    ensures d.lifeInsurance <= 100000.0 ==> b.lifeInsurance == d.lifeInsurance
    ensures b.providentFund == d.providentFund && b.other == d.other
  {
    BaseDeductions(
      60000.0,
      Min(d.socialSecurity, 9000.0),
      Min(d.lifeInsurance, 100000.0),
      d.providentFund,
      d.other)
  }

  function BaseTotal(b: BaseDeductions): real
  {
    b.personal + b.socialSecurity + b.lifeInsurance + b.providentFund + b.other
  }

  predicate NonNegativeEntries(d: Deductions)
  {
    0.0 <= d.socialSecurity && 0.0 <= d.lifeInsurance && 0.0 <= d.providentFund
    && 0.0 <= d.donation && 0.0 <= d.other
  }

  /** Net income before the donation is deducted, never below zero. */
  function NetIncomeBeforeDonation(p: PersonalTaxParams): real
  {
    Max(0.0, p.totalIncome - ExpenseAmount(p) - BaseTotal(CapDeductions(p.deductions)))
  }

  /** The donation allowed: as given, but at most 10% of the net income before donation. */
  function AllowedDonation(donation: real, netIncomeBeforeDonation: real): (r: real)
    ensures r <= donation && r <= 0.1 * netIncomeBeforeDonation
    ensures r == donation || r == 0.1 * netIncomeBeforeDonation
    ensures 0.0 <= donation && 0.0 <= netIncomeBeforeDonation ==> 0.0 <= r
  {
    Min(donation, netIncomeBeforeDonation * 0.1)
  }

  /** All deductions together; with no negative entries they are at least the personal allowance. */
  function TotalDeductions(p: PersonalTaxParams): (r: real)
    ensures NonNegativeEntries(p.deductions) ==> 60000.0 <= r
  {
    BaseTotal(CapDeductions(p.deductions))
      + AllowedDonation(p.deductions.donation, NetIncomeBeforeDonation(p))
  }

  /** The net taxable income: income less expense and deductions, clamped at zero. */
  function NetIncome(p: PersonalTaxParams): (r: real)
    ensures 0.0 <= r
    ensures r == 0.0 || r == p.totalIncome - ExpenseAmount(p) - TotalDeductions(p)
    ensures p.totalIncome - ExpenseAmount(p) - TotalDeductions(p) <= r
    ensures 0.0 <= ExpenseAmount(p) && NonNegativeEntries(p.deductions) ==> r <= Max(0.0, p.totalIncome)
  {
    Max(0.0, p.totalIncome - ExpenseAmount(p) - TotalDeductions(p))
  }

  /** The per-step breakdown of the tax a table levies: each step's limit, rate and contribution. */
  function Breakdown(steps: seq<Step>, lower: real, income: real): seq<StepAmount>
    decreases |steps|
  {
    if |steps| == 0 then []
    else [StepAmount(steps[0].limit, steps[0].rate, steps[0].rate * Portion(income, lower, steps[0].limit))]
         + Breakdown(steps[1..], NextLower(steps[0].limit, lower), income)
  }

  function SumAmounts(lines: seq<StepAmount>): real
  {
    if |lines| == 0 then 0.0 else lines[0].amount + SumAmounts(lines[1..])
  }

  /** The breakdown has one line per step, in table order, and its amounts add up to the tax. */
  lemma {:induction false} BreakdownSumsToTax(steps: seq<Step>, lower: real, income: real)
    ensures |Breakdown(steps, lower, income)| == |steps|
    ensures SumAmounts(Breakdown(steps, lower, income)) == ScheduleTax(steps, lower, income)
    ensures forall j :: 0 <= j < |steps| ==>
      Breakdown(steps, lower, income)[j].limit == steps[j].limit &&
      Breakdown(steps, lower, income)[j].rate == steps[j].rate
    decreases |steps|
  {
    if |steps| > 0 {
      var tail := Breakdown(steps[1..], NextLower(steps[0].limit, lower), income);
      BreakdownSumsToTax(steps[1..], NextLower(steps[0].limit, lower), income);
      var whole := Breakdown(steps, lower, income);
      assert whole[1..] == tail;
      forall j | 1 <= j < |steps|
        ensures whole[j].limit == steps[j].limit && whole[j].rate == steps[j].rate
      {
        assert whole[j] == tail[j - 1] && steps[j] == steps[1..][j - 1];
      }
    }
  }

  /** The loop of calculatePersonalTax that records every step's share of the tax, including the empty ones. */
  method StepBreakdown(taxSteps: seq<Step>, netIncome: real) returns (calculatedSteps: seq<StepAmount>)
    requires Ascending(taxSteps, 0.0) && 0.0 <= netIncome
    ensures calculatedSteps == Breakdown(taxSteps, 0.0, netIncome)
  {
    calculatedSteps := [];
    var remainingIncome := netIncome;
    var previousLimit := 0.0;
    var k := 0;
    assert taxSteps[k..] == taxSteps;
    while k < |taxSteps|
      invariant 0 <= k <= |taxSteps|
      invariant k < |taxSteps| ==> Ascending(taxSteps[k..], previousLimit)
      invariant k < |taxSteps| ==> remainingIncome == Max(0.0, netIncome - previousLimit)
      invariant calculatedSteps + Breakdown(taxSteps[k..], previousLimit, netIncome)
                == Breakdown(taxSteps, 0.0, netIncome)
    {
      var step := taxSteps[k];
      ghost var here := Breakdown(taxSteps[k..], previousLimit, netIncome);
      ghost var later := Breakdown(taxSteps[k + 1..], NextLower(step.limit, previousLimit), netIncome);
      assert taxSteps[k..][1..] == taxSteps[k + 1..];
      assert here == [here[0]] + later;
      assert here[0] == StepAmount(step.limit, step.rate, step.rate * Portion(netIncome, previousLimit, step.limit));
      var incomeInStep: real;
      match step.limit {
        case Unbounded =>
          incomeInStep := remainingIncome;
        case Upto(limit) =>
          var width := limit - previousLimit;
          incomeInStep := Min(Max(0.0, remainingIncome), width);
      }
      assert incomeInStep == Portion(netIncome, previousLimit, step.limit) >= 0.0;
      if incomeInStep > 0.0 {
        assert StepAmount(step.limit, step.rate, incomeInStep * step.rate) == here[0];
        calculatedSteps := calculatedSteps + [StepAmount(step.limit, step.rate, incomeInStep * step.rate)];
        remainingIncome := remainingIncome - incomeInStep;
      } else {
        assert StepAmount(step.limit, step.rate, 0.0) == here[0];
        calculatedSteps := calculatedSteps + [StepAmount(step.limit, step.rate, 0.0)];
      }
      assert calculatedSteps + later == Breakdown(taxSteps, 0.0, netIncome);
      previousLimit := NextLower(step.limit, previousLimit);
      k := k + 1;
    }
    assert taxSteps[k..] == [];
  }

  /**
   * calculatePersonalTax: expense, capped deductions, capped donation, net
   * income clamped at zero, the bracket tax, the tax payable after the
   * withholding credit (negative means a refund), the average rate and the
   * eight-line breakdown.
   */
  method CalculatePersonalTax(params: PersonalTaxParams) returns (r: PersonalTaxResult)
    ensures r.totalIncome == params.totalIncome
    ensures r.expenseAmount == ExpenseAmount(params)
    ensures r.totalDeductions == TotalDeductions(params)
    ensures r.netIncome == NetIncome(params)
    ensures r.taxBeforeWht == BracketTax(r.netIncome)
    ensures r.whtCredit == params.whtAmount
    ensures r.taxPayable == r.taxBeforeWht - params.whtAmount
    ensures params.totalIncome > 0.0 ==> r.avgTaxRate == r.taxBeforeWht / params.totalIncome * 100.0
    ensures params.totalIncome <= 0.0 ==> r.avgTaxRate == 0.0
    ensures |r.steps| == 8 && SumAmounts(r.steps) == r.taxBeforeWht
    ensures forall j :: 0 <= j < 8 ==> r.steps[j].limit == PersonalSteps[j].limit && r.steps[j].rate == PersonalSteps[j].rate
    ensures r.steps == Breakdown(PersonalSteps, 0.0, r.netIncome)
  {
    var totalIncome := params.totalIncome;
    var deductions := params.deductions;

    var expenseAmount := 0.0;
    if params.expenseType == Flat {
      expenseAmount := Min(totalIncome * 0.6, 600000.0);
    } else {
      expenseAmount := match params.actualExpense case Some(v) => v case None => 0.0;
    }

    var personalDeduction := 60000.0;
    var socialSecurity := Min(deductions.socialSecurity, 9000.0);
    var lifeInsurance := Min(deductions.lifeInsurance, 100000.0);
    var initialTotalDeductions :=
      personalDeduction + socialSecurity + lifeInsurance + deductions.providentFund + deductions.other;

    var netIncomeBeforeDonation := Max(0.0, totalIncome - expenseAmount - initialTotalDeductions);
    var maxDonation := netIncomeBeforeDonation * 0.1;
    var allowedDonation := Min(deductions.donation, maxDonation);

    var totalDeductions := initialTotalDeductions + allowedDonation;
    var netIncome := Max(0.0, totalIncome - expenseAmount - totalDeductions);
    assert expenseAmount == ExpenseAmount(params);
    assert initialTotalDeductions == BaseTotal(CapDeductions(deductions));
    assert netIncomeBeforeDonation == NetIncomeBeforeDonation(params);
    assert totalDeductions == TotalDeductions(params);

    var tax := CalculateTaxFromNet(netIncome);

    PersonalStepsShape();
    var calculatedSteps := StepBreakdown(PersonalSteps, netIncome);
    BreakdownSumsToTax(PersonalSteps, 0.0, netIncome);

    var taxPayable := tax - params.whtAmount;
    var avgTaxRate := if totalIncome > 0.0 then (tax / totalIncome) * 100.0 else 0.0;

    r := PersonalTaxResult(totalIncome, expenseAmount, totalDeductions, netIncome,
                           tax, params.whtAmount, taxPayable, avgTaxRate, calculatedSteps);
  }

  /**
   * While the net income stays within the tax-free first step, the whole
   * withholding credit comes back as a refund.
   */
  lemma FullRefundUnderThreshold(p: PersonalTaxParams)
    requires NetIncome(p) <= 150000.0
    ensures BracketTax(NetIncome(p)) - p.whtAmount == -p.whtAmount
  {
    BracketTaxFreeUpTo150k(NetIncome(p));
  }

  /** 200,000 of income on the flat method with 10,000 withheld: no tax, and 10,000 refunded. */
  lemma RefundExample()
    ensures var p := PersonalTaxParams(200000.0, Flat, None, Deductions(0.0, 0.0, 0.0, 0.0, 0.0), 10000.0);
            NetIncome(p) == 20000.0 && BracketTax(NetIncome(p)) - p.whtAmount == -10000.0
  {
    var p := PersonalTaxParams(200000.0, Flat, None, Deductions(0.0, 0.0, 0.0, 0.0, 0.0), 10000.0);
    assert ExpenseAmount(p) == 120000.0;
    assert NetIncomeBeforeDonation(p) == 20000.0;
    assert TotalDeductions(p) == 60000.0;
    FullRefundUnderThreshold(p);
  }

  /**
   * With no negative entries, the average rate lies between 0 and the top
   * marginal rate of 35%: the tax never exceeds 35% of the net income, and
   * the net income never exceeds the gross.
   */
  lemma AverageRateBounded(p: PersonalTaxParams)
    requires p.totalIncome > 0.0
    requires 0.0 <= ExpenseAmount(p)
    requires NonNegativeEntries(p.deductions)
    ensures 0.0 <= BracketTax(NetIncome(p)) / p.totalIncome * 100.0 <= 35.0
  {
    var n, income := NetIncome(p), p.totalIncome;
    BracketTaxAtMostTopRate(n);
    RatioBounded(BracketTax(n), n, income, TopPersonalRate);
  }

  /** 0 <= t <= c * n and n <= d with d > 0 give 0 <= t / d * 100 <= c * 100. */
  lemma RatioBounded(t: real, n: real, d: real, c: real)
    requires 0.0 < d && n <= d && 0.0 <= c && 0.0 <= t <= c * n
    ensures 0.0 <= t / d * 100.0 <= c * 100.0
  {
    assert c * n <= c * d;
    assert t / d <= (c * d) / d;
    assert (c * d) / d == c;
  }

  // ---------------------------------------------------------------------
  // calculateCorporateTax
  // ---------------------------------------------------------------------

  /** The SME table: the first 300,000 of profit is exempt, profit up to 3,000,000 pays 15%, the rest 20%. */
  const SmeSteps: seq<Step> := [Step(Upto(300000.0), 0.0), Step(Upto(3000000.0), 0.15), Step(Unbounded, 0.20)]

  /** The flat rate for companies that are not SMEs. */
  const StandardCorporateRate: real := 0.20

  lemma SmeStepsShape()
    ensures Ascending(SmeSteps, 0.0) && RatesWithin(SmeSteps, StandardCorporateRate)
  {
    var s := SmeSteps;
    assert s[1..][1..] == s[2..];
    assert Ascending(s[2..], 3000000.0);
    assert Ascending(s[1..], 300000.0);
  }

  datatype CorporateTaxParams = CorporateTaxParams(totalRevenue: real, totalExpenses: real, isSME: bool)

  /** A line of the corporate breakdown: a label, the rate in percent, and the tax it contributes. */
  datatype CorporateBracket = CorporateBracket(range: string, rate: int, amount: real)

  datatype CorporateTaxResult = CorporateTaxResult(
    totalRevenue: real,
    totalExpenses: real,
    netProfit: real,
    tax: real,
    brackets: seq<CorporateBracket>)

  function SumBrackets(lines: seq<CorporateBracket>): real
  {
    if |lines| == 0 then 0.0 else lines[0].amount + SumBrackets(lines[1..])
  }

  lemma {:induction false} SumBracketsAppend(lines: seq<CorporateBracket>, last: CorporateBracket)
    ensures SumBrackets(lines + [last]) == SumBrackets(lines) + last.amount
    decreases |lines|
  {
    if |lines| > 0 {
      assert (lines + [last])[1..] == lines[1..] + [last];
      SumBracketsAppend(lines[1..], last);
    } else {
      assert (lines + [last])[1..] == [];
    }
  }

  /** The SME table's tax is the exempt tier, the 15% tier up to 3,000,000, and 20% on the rest. */
  lemma SmeTaxTiers(profit: real)
    ensures ScheduleTax(SmeSteps, 0.0, profit)
            == Min(Max(0.0, profit - 300000.0), 2700000.0) * 0.15 + Max(0.0, profit - 3000000.0) * 0.20
  {
    var s := SmeSteps;
    assert s[1..][1..] == s[2..] && s[2..][1..] == [];
    assert s[2..] == [Step(Unbounded, 0.20)];
    assert ScheduleTax(s[2..], 3000000.0, profit) == 0.20 * Max(0.0, profit - 3000000.0);
    assert ScheduleTax(s[1..], 300000.0, profit)
           == 0.15 * Min(Max(0.0, profit - 300000.0), 2700000.0) + ScheduleTax(s[2..], 3000000.0, profit);
  }

  /**
   * calculateCorporateTax: profit is revenue less expenses, never below zero;
   * an SME pays by the tiered table, any other company 20% of profit, and the
   * breakdown lines add up to the tax.
   */
  method CalculateCorporateTax(params: CorporateTaxParams) returns (r: CorporateTaxResult)
    ensures r.totalRevenue == params.totalRevenue && r.totalExpenses == params.totalExpenses
    ensures r.netProfit == Max(0.0, params.totalRevenue - params.totalExpenses)
    ensures params.isSME ==> r.tax == ScheduleTax(SmeSteps, 0.0, r.netProfit)
    ensures !params.isSME ==> r.tax == StandardCorporateRate * r.netProfit
    ensures SumBrackets(r.brackets) == r.tax
    ensures params.isSME ==>
      |r.brackets| == 1 + (if r.netProfit > 300000.0 then 1 else 0) + (if r.netProfit > 3000000.0 then 1 else 0) &&
      r.brackets[0] == CorporateBracket("0 - 300,000", 0, 0.0)
    ensures params.isSME && r.netProfit > 300000.0 ==>
      r.brackets[1] == CorporateBracket("300,001 - 3,000,000", 15, Min(r.netProfit - 300000.0, 2700000.0) * 0.15)
    ensures params.isSME && r.netProfit > 3000000.0 ==>
      r.brackets[2] == CorporateBracket("> 3,000,000", 20, (r.netProfit - 3000000.0) * 0.20)
    ensures !params.isSME ==> r.brackets == [CorporateBracket("จากกำไรสุทธิ", 20, r.tax)]
  {
    var netProfit := Max(0.0, params.totalRevenue - params.totalExpenses);
    var tax := 0.0;
    var brackets: seq<CorporateBracket> := [];

    if params.isSME {
      SumBracketsAppend(brackets, CorporateBracket("0 - 300,000", 0, 0.0));
      brackets := brackets + [CorporateBracket("0 - 300,000", 0, 0.0)];

      var tier2Amount := Min(Max(0.0, netProfit - 300000.0), 2700000.0);
      if tier2Amount > 0.0 {
        var t2Tax := tier2Amount * 0.15;
        tax := tax + t2Tax;
        SumBracketsAppend(brackets, CorporateBracket("300,001 - 3,000,000", 15, t2Tax));
        brackets := brackets + [CorporateBracket("300,001 - 3,000,000", 15, t2Tax)];
      }

      var tier3Amount := Max(0.0, netProfit - 3000000.0);
      if tier3Amount > 0.0 {
        var t3Tax := tier3Amount * 0.20;
        tax := tax + t3Tax;
        SumBracketsAppend(brackets, CorporateBracket("> 3,000,000", 20, t3Tax));
        brackets := brackets + [CorporateBracket("> 3,000,000", 20, t3Tax)];
      }
      SmeTaxTiers(netProfit);
    } else {
      tax := netProfit * 0.20;
      SumBracketsAppend(brackets, CorporateBracket("จากกำไรสุทธิ", 20, tax));
      brackets := brackets + [CorporateBracket("จากกำไรสุทธิ", 20, tax)];
    }

    r := CorporateTaxResult(params.totalRevenue, params.totalExpenses, netProfit, tax, brackets);
  }

  /** An SME pays nothing on a profit of 300,000 or less. */
  lemma SmeTaxFreeUpTo300k(profit: real)
    requires profit <= 300000.0
    ensures ScheduleTax(SmeSteps, 0.0, profit) == 0.0
  {
    SmeTaxTiers(profit);
  }

  /** An SME never pays more than a company taxed at the flat 20%, and never a negative amount. */
  lemma SmeNeverAboveStandard(profit: real)
    requires 0.0 <= profit
    ensures 0.0 <= ScheduleTax(SmeSteps, 0.0, profit) <= StandardCorporateRate * profit
  {
    SmeStepsShape();
    SmeTaxFreeUpTo300k(0.0);
    MonotoneAndMarginallyBounded(SmeSteps, 0.0, StandardCorporateRate, 0.0, profit);
  }

  // ---------------------------------------------------------------------
  // calculateVatInfo
  // ---------------------------------------------------------------------

  /** Yearly income from which VAT registration is compulsory. */
  const VatThreshold: real := 1800000.0

  datatype VatStatus = Normal | Warning | Danger

  datatype VatInfo = VatInfo(threshold: real, yearlyIncome: real, remaining: real, percent: real, status: VatStatus)

  /**
   * calculateVatInfo: how much income remains before the threshold, the
   * progress towards it capped at 100%, and a status that turns to warning
   * from 1,500,000 and to danger from 1,700,000.
   */
  method CalculateVatInfo(yearlyIncome: real) returns (v: VatInfo)
    ensures v.threshold == VatThreshold && v.yearlyIncome == yearlyIncome
    ensures v.remaining == Max(0.0, VatThreshold - yearlyIncome)
    ensures v.remaining == 0.0 <==> VatThreshold <= yearlyIncome
    ensures v.percent <= 100.0
    ensures v.percent == 100.0 <==> VatThreshold <= yearlyIncome
    ensures yearlyIncome < VatThreshold ==> v.percent == yearlyIncome / VatThreshold * 100.0
    ensures v.status == Normal <==> yearlyIncome < 1500000.0
    ensures v.status == Warning <==> 1500000.0 <= yearlyIncome < 1700000.0
    ensures v.status == Danger <==> 1700000.0 <= yearlyIncome
  {
    var threshold := VatThreshold;
    var remaining := Max(0.0, threshold - yearlyIncome);
    var percent := Min(100.0, (yearlyIncome / threshold) * 100.0);
    var status := Normal;
    if yearlyIncome >= 1500000.0 { status := Warning; }
    if yearlyIncome >= 1700000.0 { status := Danger; }
    if yearlyIncome >= threshold { status := Danger; }
    v := VatInfo(threshold, yearlyIncome, remaining, percent, status);
  }

  // ---------------------------------------------------------------------
  // compareExpenseMethods
  // ---------------------------------------------------------------------

  datatype ExpenseComparison = ExpenseComparison(
    flatExpense: real,
    actualExpenses: real,
    netIncomeFlat: real,
    netIncomeActual: real,
    taxFlat: real,
    taxActual: real,
    flatRateIsBetter: bool,
    savings: real,
    breakEvenPoint: real)

  /**
   * compareExpenseMethods: the tax under the flat expense and under the
   * actual expense, both against the same other deductions. The flat method
   * is recommended whenever it costs no more, so ties go to it; the saving is
   * the gap between the two; the break-even point is the flat expense, the
   * actual expense above which the actual method can win.
   */
  function CompareExpenseMethods(annualIncome: real, actualExpenses: real, deductions: real): (c: ExpenseComparison)
    ensures c.flatExpense == FlatExpense(annualIncome) && c.breakEvenPoint == c.flatExpense
    ensures c.taxFlat == BracketTax(Max(0.0, annualIncome - c.flatExpense - deductions))
    ensures c.taxActual == BracketTax(Max(0.0, annualIncome - actualExpenses - deductions))
    ensures c.flatRateIsBetter <==> c.taxFlat <= c.taxActual
    ensures 0.0 <= c.savings && (c.savings == c.taxFlat - c.taxActual || c.savings == c.taxActual - c.taxFlat)
    ensures actualExpenses <= c.flatExpense ==> c.flatRateIsBetter
    ensures c.flatExpense <= actualExpenses ==> c.taxActual <= c.taxFlat
  {
    var flatExpense := Min(annualIncome * 0.6, 600000.0);
    var netIncomeFlat := Max(0.0, annualIncome - flatExpense - deductions);
    var netIncomeActual := Max(0.0, annualIncome - actualExpenses - deductions);
    var taxFlat := BracketTax(netIncomeFlat);
    var taxActual := BracketTax(netIncomeActual);
    BracketTaxMonotone(Min(netIncomeFlat, netIncomeActual), Max(netIncomeFlat, netIncomeActual));
    ExpenseComparison(
      flatExpense, actualExpenses, netIncomeFlat, netIncomeActual, taxFlat, taxActual,
      taxFlat <= taxActual,
      if taxFlat - taxActual < 0.0 then taxActual - taxFlat else taxFlat - taxActual,
      flatExpense)
  }

  // ---------------------------------------------------------------------
  // analyzeTaxBracket
  // ---------------------------------------------------------------------

  /** A row of the bracket analyser's table: closed bounds in whole baht and the rate in percent. */
  datatype RateBand = RateBand(min: real, max: Limit, rate: int)

  const AnalyzerBands: seq<RateBand> := [
    RateBand(0.0, Upto(150000.0), 0),
    RateBand(150001.0, Upto(300000.0), 5),
    RateBand(300001.0, Upto(500000.0), 10),
    RateBand(500001.0, Upto(750000.0), 15),
    RateBand(750001.0, Upto(1000000.0), 20),
    RateBand(1000001.0, Upto(2000000.0), 25),
    RateBand(2000001.0, Upto(5000000.0), 30),
    RateBand(5000001.0, Unbounded, 35)
  ]

  /** Proximity to the next band under which the analyser flags an income as close. */
  const CloseGap: real := 50000.0

  predicate InBand(x: real, b: RateBand)
  {
    b.min <= x && match b.max case Upto(hi) => x <= hi case Unbounded => true
  }

  /** The first band, from index `from` on, whose closed interval holds `x`. */
  function FindBand(bands: seq<RateBand>, x: real, from: nat): (r: Option<nat>)
    decreases |bands| - from
    ensures r.Some? ==> from <= r.value < |bands| && InBand(x, bands[r.value])
    ensures r.Some? ==> forall j :: from <= j < r.value ==> !InBand(x, bands[j])
    ensures r.None? ==> forall j :: from <= j < |bands| ==> !InBand(x, bands[j])
  {
    if from >= |bands| then None
    else if InBand(x, bands[from]) then Some(from)
    else FindBand(bands, x, from + 1)
  }

  datatype BracketAnalysis = BracketAnalysis(
    currentBracket: RateBand,
    nextBracket: Option<RateBand>,
    incomeToNext: Option<real>,
    isClose: bool)

  /** The analysis once the current band's index is known: the next band, the gap to it, and the flag. */
  function AnalysisAt(netIncome: real, i: nat): (a: BracketAnalysis)
    requires i < |AnalyzerBands|
    ensures a.currentBracket == AnalyzerBands[i]
    ensures a.nextBracket.None? <==> i == |AnalyzerBands| - 1
    ensures a.nextBracket.Some? ==> a.nextBracket.value == AnalyzerBands[i + 1]
    ensures a.incomeToNext.None? <==> a.nextBracket.None?
    ensures a.nextBracket.Some? ==> a.incomeToNext.value == a.nextBracket.value.min - netIncome
    ensures a.isClose <==> a.incomeToNext.Some? && 0.0 < a.incomeToNext.value < CloseGap
  {
    var next := if i + 1 < |AnalyzerBands| then Some(AnalyzerBands[i + 1]) else None;
    var incomeToNext := match next case Some(b) => Some(b.min - netIncome) case None => None;
    BracketAnalysis(
      AnalyzerBands[i], next, incomeToNext,
      incomeToNext.Some? && incomeToNext.value < CloseGap && incomeToNext.value > 0.0)
  }

  /**
   * analyzeTaxBracket: the first band whose closed interval holds the
   * income, or the last band when none does; then the next band, the gap to
   * its lower bound, and whether that gap is positive and under 50,000.
   */
  function AnalyzeTaxBracket(netIncome: real): (a: BracketAnalysis)
    ensures a.isClose ==> a.incomeToNext.Some? && 0.0 < a.incomeToNext.value < CloseGap
    ensures a.nextBracket.None? ==> a.incomeToNext.None? && !a.isClose
  {
    var i := match FindBand(AnalyzerBands, netIncome, 0) case Some(j) => j case None => |AnalyzerBands| - 1;
    AnalysisAt(netIncome, i)
  }

  /** An income of 5,000,001 or more sits in the top band: there is no next band and nothing to flag. */
  lemma AnalyzeTopBand(netIncome: real)
    requires 5000001.0 <= netIncome
    ensures var a := AnalyzeTaxBracket(netIncome);
            a.currentBracket.rate == 35 && a.nextBracket.None? && a.incomeToNext.None? && !a.isClose
  {
    var r := FindBand(AnalyzerBands, netIncome, 0);
    assert InBand(netIncome, AnalyzerBands[7]);
    assert forall j :: 0 <= j < 7 ==> !InBand(netIncome, AnalyzerBands[j]);
  }

  /** An income from 0 to 150,000 sits in the 0% band; the next band is the 5% one, starting at 150,001. */
  lemma AnalyzeFirstBand(netIncome: real)
    requires 0.0 <= netIncome <= 150000.0
    ensures var a := AnalyzeTaxBracket(netIncome);
            a.currentBracket.rate == 0 && a.nextBracket.Some? && a.nextBracket.value.rate == 5
            && a.incomeToNext == Some(150001.0 - netIncome)
  {
    assert InBand(netIncome, AnalyzerBands[0]);
  }

  /** A negative income matches no band and falls back to the last, 35% band, with no next band. */
  lemma AnalyzeNegativeFallsBack(netIncome: real)
    requires netIncome < 0.0
    ensures var a := AnalyzeTaxBracket(netIncome);
            a.currentBracket.rate == 35 && a.nextBracket.None? && !a.isClose
  {
    assert forall j :: 0 <= j < |AnalyzerBands| ==> !InBand(netIncome, AnalyzerBands[j]);
  }

  /**
   * For a whole number of baht the analyser's band agrees with the tax
   * table: its rate in percent is the marginal rate of the table at that
   * income.
   */
  lemma AnalyzeWholeBahtMatchesTable(baht: nat)
    ensures AnalyzeTaxBracket(baht as real).currentBracket.rate as real == 100.0 * MarginalRate(baht as real)
  {
    var x := baht as real;
    var k := Row(x);
    assert InBand(x, AnalyzerBands[k]);
    assert forall j :: 0 <= j < k ==> !InBand(x, AnalyzerBands[j]);
  }

  /**
   * As written, an income with a fractional part between two bands (such as
   * 150,000.50, which a net income computed from 60% of gross can be) matches
   * no closed interval and is reported in the 35% band, although the tax
   * table taxes it at 5%.
   */
  lemma AnalyzeFractionMisplaced()
    ensures AnalyzeTaxBracket(150000.5).currentBracket.rate == 35
    ensures 100.0 * MarginalRate(150000.5) == 5.0
    ensures AnalyzeTaxBracket(150000.5).nextBracket.None?
  {
    assert forall j :: 0 <= j < |AnalyzerBands| ==> !InBand(150000.5, AnalyzerBands[j]);
  }

  /** The first band whose upper bound is not below `x`. */
  function FindBandAtMost(bands: seq<RateBand>, x: real, from: nat): (r: Option<nat>)
    decreases |bands| - from
    ensures r.Some? ==> from <= r.value < |bands|
    ensures r.Some? ==> (match bands[r.value].max case Upto(hi) => x <= hi case Unbounded => true)
    ensures r.Some? ==> forall j :: from <= j < r.value ==> bands[j].max.Upto? && bands[j].max.bound < x
  {
    if from >= |bands| then None
    else match bands[from].max
      case Unbounded => Some(from)
      case Upto(hi) => if x <= hi then Some(from) else FindBandAtMost(bands, x, from + 1)
  }

  /**
   * The analyser as evidently intended: the current band is the first whose
   * upper bound is not below the income, so every income, fractional or
   * not, lands in the band the tax table uses, and a zero or negative one in
   * the first band.
   */
  function AnalyzeTaxBracketIntended(netIncome: real): (a: BracketAnalysis)
    ensures a.isClose ==> a.incomeToNext.Some? && 0.0 < a.incomeToNext.value < CloseGap
    ensures a.currentBracket.rate as real == 100.0 * MarginalRate(netIncome)
  {
    var i := match FindBandAtMost(AnalyzerBands, netIncome, 0) case Some(j) => j case None => |AnalyzerBands| - 1;
    assert i == Row(netIncome);
    AnalysisAt(netIncome, i)
  }

  /** On whole baht from zero up, the intended analyser and the one as written give the same answer. */
  lemma IntendedAgreesOnWholeBaht(baht: nat)
    ensures AnalyzeTaxBracketIntended(baht as real) == AnalyzeTaxBracket(baht as real)
  {
    var x := baht as real;
    var k := Row(x);
    assert InBand(x, AnalyzerBands[k]);
    assert forall j :: 0 <= j < k ==> !InBand(x, AnalyzerBands[j]);
  }

  // ---------------------------------------------------------------------
  // simulateJobImpact
  // ---------------------------------------------------------------------

  datatype JobImpact = JobImpact(
    newNet: real,
    newTax: real,
    additionalTax: real,
    netGain: real,
    netGainPercentage: real,
    shouldAccept: bool)

  /** Net income on the flat expense method with the other deductions held fixed. */
  function FlatNet(income: real, deductions: real): real
  {
    Max(0.0, income - FlatExpense(income) - deductions)
  }

  /** Extra gross income never lowers the flat-method net income, and raises it by at most the extra. */
  lemma FlatNetGrowth(income: real, deductions: real, extra: real)
    requires 0.0 <= extra
    ensures 0.0 <= FlatNet(income + extra, deductions) - FlatNet(income, deductions) <= extra
  {
  }

  /**
   * simulateJobImpact: the tax before and after adding the extra gross
   * income on the flat method, the extra tax, what is left of the extra
   * income, that as a percentage of it, and whether more than half is kept.
   */
  function SimulateJobImpact(currentTotalIncome: real, currentDeductions: real, additionalGrossIncome: real): (j: JobImpact)
    ensures j.netGain == additionalGrossIncome - j.additionalTax
    ensures additionalGrossIncome > 0.0 ==> j.netGainPercentage == j.netGain / additionalGrossIncome * 100.0
    ensures j.shouldAccept <==> j.netGainPercentage > 50.0
    ensures additionalGrossIncome <= 0.0 ==> j.netGainPercentage == 0.0 && !j.shouldAccept
    ensures additionalGrossIncome == 0.0 ==> j.additionalTax == 0.0 && j.netGain == 0.0
  {
    var currentNet := FlatNet(currentTotalIncome, currentDeductions);
    var currentTax := BracketTax(currentNet);
    var newNet := FlatNet(currentTotalIncome + additionalGrossIncome, currentDeductions);
    var newTax := BracketTax(newNet);
    var additionalTax := newTax - currentTax;
    var netGain := additionalGrossIncome - additionalTax;
    var netGainPercentage := if additionalGrossIncome > 0.0 then netGain / additionalGrossIncome * 100.0 else 0.0;
    JobImpact(newNet, newTax, additionalTax, netGain, netGainPercentage, netGainPercentage > 50.0)
  }

  /** Extra income costs between nothing and 35% of itself in extra tax. */
  lemma AdditionalTaxBounded(currentTotalIncome: real, currentDeductions: real, additionalGrossIncome: real)
    requires 0.0 <= additionalGrossIncome
    ensures var j := SimulateJobImpact(currentTotalIncome, currentDeductions, additionalGrossIncome);
            0.0 <= j.additionalTax <= TopPersonalRate * additionalGrossIncome
  {
    var before := FlatNet(currentTotalIncome, currentDeductions);
    var after := FlatNet(currentTotalIncome + additionalGrossIncome, currentDeductions);
    FlatNetGrowth(currentTotalIncome, currentDeductions, additionalGrossIncome);
    BracketTaxMonotone(before, after);
    assert TopPersonalRate * (after - before) <= TopPersonalRate * additionalGrossIncome;
  }

  /** Extra income taxed at no more than 35% leaves at least 65% of itself. */
  lemma KeptShare(extra: real, tax: real, gain: real, percentage: real)
    requires 0.0 < extra && 0.0 <= tax <= TopPersonalRate * extra
    requires gain == extra - tax && percentage == gain / extra * 100.0
    ensures 65.0 <= percentage
  {
    var share := gain / extra;
    assert share * extra == gain;
    assert (share - 0.65) * extra == gain - 0.65 * extra;
    assert 0.0 <= (share - 0.65) * extra;
  }

  /**
   * Any positive extra income keeps at least 65% of itself after tax, so the
   * simulator always recommends accepting it.
   */
  lemma ExtraIncomeAlwaysAccepted(currentTotalIncome: real, currentDeductions: real, additionalGrossIncome: real)
    requires 0.0 < additionalGrossIncome
    ensures var j := SimulateJobImpact(currentTotalIncome, currentDeductions, additionalGrossIncome);
            65.0 <= j.netGainPercentage && j.shouldAccept
  {
    var j := SimulateJobImpact(currentTotalIncome, currentDeductions, additionalGrossIncome);
    AdditionalTaxBounded(currentTotalIncome, currentDeductions, additionalGrossIncome);
    KeptShare(additionalGrossIncome, j.additionalTax, j.netGain, j.netGainPercentage);
  }
}
