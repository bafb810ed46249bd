/** The education ROI projector of the parent dashboard: from four up-front cost
    items, a starting salary, an annual growth rate (in percent) and a career
    length, it projects cumulative earnings year by year, finds the first year in
    which earnings cover the cost, and derives the ROI, the final-year salary and
    the cost breakdown shown in the pie chart.

    Amounts are exact reals and the year count a natural number, so the
    properties below are about the algorithm, not about floating-point rounding. */
module RoiProjector {
  import opened Options

  datatype Inputs = Inputs(
    tuitionFees: real,
    trainingFees: real,
    livingExpenses: real,
    otherCosts: real,
    startingSalary: real,
    annualGrowthRate: real,   // percent per year, 5 means 5%
    careerLength: nat)        // number of projected years

  /** The form's initial values. */
  const DefaultInputs := Inputs(50000.0, 10000.0, 30000.0, 5000.0, 60000.0, 5.0, 30)

  /** One bar-chart entry. */
  datatype YearRow = YearRow(year: nat, cumulativeCosts: real, cumulativeEarnings: real, netValue: real)

  /** One pie-chart slice. */
  datatype CostSlice = CostSlice(name: string, value: real, color: string)

  datatype Results = Results(
    totalEducationCost: real,
    breakEvenPoint: nat,             // 0 when never reached
    roiPercentage: Option<real>,     // None where the source divides by a zero cost
    paybackPeriod: int,              // the break-even year, or -1
    chartData: seq<YearRow>,
    costBreakdown: seq<CostSlice>,
    projectedSalary: Option<real>)   // None where the source's Math.pow gives Infinity

  // ---------------------------------------------------------------------------
  // Specification functions

  function TotalCost(inp: Inputs): real {
    inp.tuitionFees + inp.trainingFees + inp.livingExpenses + inp.otherCosts
  }

  /** `1 + annualGrowthRate / 100`, the factor applied at each year boundary. */
  function Multiplier(inp: Inputs): real {
    1.0 + inp.annualGrowthRate / 100.0
  }

  function Pow(b: real, n: nat): real
    decreases n
  {
    if n == 0 then 1.0 else b * Pow(b, n - 1)
  }

  /** The salary earned in year `year` alone (year 1 earns the starting salary). */
  function YearlyEarnings(inp: Inputs, year: nat): real
    requires year >= 1
  {
    inp.startingSalary * Pow(Multiplier(inp), year - 1)
  }

  /** Earnings of years 1..y added up. */
  function CumulativeEarnings(inp: Inputs, y: nat): real
    decreases y
  {
    if y == 0 then 0.0 else CumulativeEarnings(inp, y - 1) + YearlyEarnings(inp, y)
  }

  function NetValue(inp: Inputs, y: nat): real {
    CumulativeEarnings(inp, y) - TotalCost(inp)
  }

  function Row(inp: Inputs, y: nat): YearRow {
    YearRow(y, TotalCost(inp), CumulativeEarnings(inp, y), NetValue(inp, y))
  }

  /** The chart rows for years 1..n: exactly one per year, in ascending order. */
  function Timeline(inp: Inputs, n: nat): (rows: seq<YearRow>)
    ensures |rows| == n
    ensures forall i :: 0 <= i < n ==> rows[i] == Row(inp, i + 1)
    decreases n
  {
    if n == 0 then [] else Timeline(inp, n - 1) + [Row(inp, n)]
  }

  /** The first year among 1..n whose net value is non-negative, or 0 if there is none. */
  function BreakEvenYear(inp: Inputs, n: nat): (b: nat)
    ensures b <= n
    ensures b == 0 ==> forall y :: 1 <= y <= n ==> NetValue(inp, y) < 0.0
    ensures b > 0 ==> NetValue(inp, b) >= 0.0
    ensures b > 0 ==> forall y :: 1 <= y < b ==> NetValue(inp, y) < 0.0
    decreases n
  {
    if n == 0 then 0
    else
      var earlier := BreakEvenYear(inp, n - 1);
      if earlier != 0 then earlier
      else if NetValue(inp, n) >= 0.0 then n
      else 0
  }

  function RoiPercentage(inp: Inputs): Option<real> {
    var total := TotalCost(inp);
    if total == 0.0 then None
    else Some((CumulativeEarnings(inp, inp.careerLength) - total) / total * 100.0)
  }

  /** `startingSalary * Math.pow(1 + rate, careerLength - 1)`; with a career length
      of 0 the exponent is -1. */
  function ProjectedSalary(inp: Inputs): Option<real> {
    if inp.careerLength >= 1 then Some(YearlyEarnings(inp, inp.careerLength))
    else if Multiplier(inp) != 0.0 then Some(inp.startingSalary / Multiplier(inp))
    else None
  }

  /** The pie chart's slices: one per cost item, together the total cost. */
  function CostBreakdown(inp: Inputs): (r: seq<CostSlice>)
    ensures |r| == 4
    ensures r[0].value + r[1].value + r[2].value + r[3].value == TotalCost(inp)
  {
    [ CostSlice("Tuition Fees", inp.tuitionFees, "#ef4444"),
      CostSlice("Training Fees", inp.trainingFees, "#f97316"),
      CostSlice("Living Expenses", inp.livingExpenses, "#eab308"),
      CostSlice("Other Costs", inp.otherCosts, "#84cc16") ]
  }

  // ---------------------------------------------------------------------------
  // The projection as the component computes it

  /** The yearly loop: accumulates earnings, records one row per year and locks
      in the first year whose net value is non-negative. */
  method ProjectYears(inp: Inputs, totalEducationCost: real)
    returns (cumulativeEarnings: real, breakEvenYear: nat, chartData: seq<YearRow>)
    requires totalEducationCost == TotalCost(inp)
    ensures cumulativeEarnings == CumulativeEarnings(inp, inp.careerLength)
    ensures breakEvenYear == BreakEvenYear(inp, inp.careerLength)
    ensures chartData == Timeline(inp, inp.careerLength)
  {
    cumulativeEarnings := 0.0;
    breakEvenYear := 0;
    chartData := [];
    var year: nat := 1;
    while year <= inp.careerLength
      invariant 1 <= year <= inp.careerLength + 1
      invariant cumulativeEarnings == CumulativeEarnings(inp, year - 1)
      invariant chartData == Timeline(inp, year - 1)
      invariant breakEvenYear == BreakEvenYear(inp, year - 1)
    {
      var yearlyEarnings := YearlyEarnings(inp, year);
      cumulativeEarnings := cumulativeEarnings + yearlyEarnings;
      var netValue := cumulativeEarnings - totalEducationCost;
      chartData := chartData + [YearRow(year, totalEducationCost, cumulativeEarnings, netValue)];
      if netValue >= 0.0 && breakEvenYear == 0 {
        breakEvenYear := year;
      }
      year := year + 1;
    }
  }

  /** The whole `results` computation of the component. */
  method Project(inp: Inputs) returns (res: Results)
    ensures res.totalEducationCost == TotalCost(inp)
    ensures res.chartData == Timeline(inp, inp.careerLength)
    ensures res.breakEvenPoint == BreakEvenYear(inp, inp.careerLength)
    ensures res.paybackPeriod == if res.breakEvenPoint > 0 then res.breakEvenPoint else -1
    ensures res.roiPercentage == RoiPercentage(inp)
    ensures res.projectedSalary == ProjectedSalary(inp)
    ensures res.costBreakdown == CostBreakdown(inp)
  {
    var totalEducationCost := inp.tuitionFees + inp.trainingFees + inp.livingExpenses + inp.otherCosts;
    var cumulativeEarnings, breakEvenYear, chartData := ProjectYears(inp, totalEducationCost);

    var roi: Option<real> := None;
    if totalEducationCost != 0.0 {
      var netProfit := cumulativeEarnings - totalEducationCost;
      roi := Some(netProfit / totalEducationCost * 100.0);
    }
    res := Results(totalEducationCost, breakEvenYear, roi,
                   if breakEvenYear > 0 then breakEvenYear else -1,
                   chartData, CostBreakdown(inp), ProjectedSalary(inp));
  }

  // ---------------------------------------------------------------------------
  // Properties of the projection

  /** The total cost is the four cost items and nothing else: career length,
      salary and growth rate do not enter it, and every row carries it unchanged. */
  lemma TotalCostIndependent(inp: Inputs, salary: real, rate: real, years: nat)
    ensures TotalCost(inp.(startingSalary := salary, annualGrowthRate := rate, careerLength := years))
            == TotalCost(inp)
    ensures forall i :: 0 <= i < years ==> Timeline(inp, years)[i].cumulativeCosts == TotalCost(inp)
  {
  }

  /** Earnings are a geometric series: with growth factor m, the cumulative
      earnings of year y satisfy C(y)·(m − 1) = s·(m^y − 1). */
  lemma {:induction false} CumulativeClosedForm(inp: Inputs, y: nat)
    ensures ClosedForm(inp, y)
    decreases y
  {
    if y > 0 {
      CumulativeClosedForm(inp, y - 1);
      ClosedFormStep(inp, y);
    }
  }

  ghost predicate ClosedForm(inp: Inputs, y: nat) {
    CumulativeEarnings(inp, y) * (Multiplier(inp) - 1.0)
      == inp.startingSalary * (Pow(Multiplier(inp), y) - 1.0)
  }

  lemma ClosedFormStep(inp: Inputs, y: nat)
    requires y > 0 && ClosedForm(inp, y - 1)
    ensures ClosedForm(inp, y)
  {
    var c, p := CumulativeEarnings(inp, y - 1), Pow(Multiplier(inp), y - 1);
    var cNext, pNext := CumulativeEarnings(inp, y), Pow(Multiplier(inp), y);
    assert cNext == c + inp.startingSalary * p;
    assert pNext == Multiplier(inp) * p;
    GeometricStep(c, inp.startingSalary, p, Multiplier(inp), cNext, pNext);
  }

  /** One year of the geometric series, as plain algebra. */
  lemma GeometricStep(c: real, s: real, p: real, m: real, cNext: real, pNext: real)
    requires c * (m - 1.0) == s * (p - 1.0)
    requires cNext == c + s * p && pNext == m * p
    ensures cNext * (m - 1.0) == s * (pNext - 1.0)
  {
    calc {
      (c + s * p) * (m - 1.0);
      c * (m - 1.0) + s * p * (m - 1.0);
      s * (p - 1.0) + s * p * (m - 1.0);
      s * (m * p - 1.0);
    }
  }

  /** With a growth rate of 0, year n has earned exactly n starting salaries. */
  lemma {:induction false} ZeroGrowthEarnings(inp: Inputs, y: nat)
    requires inp.annualGrowthRate == 0.0
    ensures CumulativeEarnings(inp, y) == inp.startingSalary * y as real
    decreases y
  {
    if y > 0 {
      ZeroGrowthEarnings(inp, y - 1);
      PowOne(y - 1);
      assert Multiplier(inp) == 1.0;
      assert YearlyEarnings(inp, y) == inp.startingSalary;
    }
  }

  lemma {:induction false} PowOne(n: nat)
    ensures Pow(1.0, n) == 1.0
  {
    if n > 0 { PowOne(n - 1); }
  }

  lemma {:induction false} PowPositive(b: real, n: nat)
    requires b > 0.0
    ensures Pow(b, n) > 0.0
  {
    if n > 0 {
      PowPositive(b, n - 1);
      assert b * Pow(b, n - 1) > 0.0;
    }
  }

  /** With a positive salary and a growth rate above −100%, cumulative earnings
      rise strictly from one year to the next. */
  lemma EarningsStrictlyIncrease(inp: Inputs, y: nat)
    requires inp.startingSalary > 0.0 && inp.annualGrowthRate > -100.0
    ensures CumulativeEarnings(inp, y + 1) > CumulativeEarnings(inp, y)
  {
    PowPositive(Multiplier(inp), y);
    assert inp.startingSalary * Pow(Multiplier(inp), y) > 0.0;
  }

  /** Under the same conditions, once the net value is non-negative it stays so:
      the first crossing is a lasting one. */
  lemma {:induction false} BreakEvenLasts(inp: Inputs, y: nat, z: nat)
    requires inp.startingSalary > 0.0 && inp.annualGrowthRate > -100.0
    requires y <= z && NetValue(inp, y) >= 0.0
    ensures NetValue(inp, z) >= 0.0
    decreases z - y
  {
    if y < z {
      EarningsStrictlyIncrease(inp, y);
      BreakEvenLasts(inp, y + 1, z);
    }
  }

  /** The ROI sign agrees with the final net value, and a non-negative ROI means
      the break-even year was reached within the career. */
  lemma RoiMeansBreakEven(inp: Inputs)
    requires TotalCost(inp) > 0.0
    ensures RoiPercentage(inp).Some?
    ensures RoiPercentage(inp).value >= 0.0 <==> NetValue(inp, inp.careerLength) >= 0.0
    ensures inp.careerLength >= 1 && RoiPercentage(inp).value >= 0.0
            ==> BreakEvenYear(inp, inp.careerLength) > 0
  {
    var t := TotalCost(inp);
    var net := NetValue(inp, inp.careerLength);
    assert RoiPercentage(inp).value == net / t * 100.0;
    if net >= 0.0 {
      assert net / t >= 0.0;
    } else {
      assert net / t < 0.0;
    }
  }

  /** With no costs at all the ROI is undefined; any other total yields a value. */
  lemma RoiUndefinedIffNoCost(inp: Inputs)
    ensures RoiPercentage(inp).None? <==> TotalCost(inp) == 0.0
  {
  }

  /** The projected salary is the last year's own earnings, not the cumulative
      value: the increase of cumulative earnings over the final year. */
  lemma ProjectedIsFinalYearEarnings(inp: Inputs)
    requires inp.careerLength >= 1
    ensures ProjectedSalary(inp)
            == Some(CumulativeEarnings(inp, inp.careerLength) - CumulativeEarnings(inp, inp.careerLength - 1))
    ensures inp.careerLength == 1 ==> ProjectedSalary(inp) == Some(inp.startingSalary)
  {
  }

  /** Paying nothing off: a zero salary leaves every year at minus the total cost,
      and with a positive cost the break-even year is never reached. */
  lemma {:induction false} NoSalaryNeverBreaksEven(inp: Inputs, n: nat)
    requires inp.startingSalary == 0.0
    ensures forall y :: 0 <= y <= n ==> NetValue(inp, y) == -TotalCost(inp)
    ensures TotalCost(inp) > 0.0 ==> BreakEvenYear(inp, n) == 0
    decreases n
  {
    if n > 0 {
      NoSalaryNeverBreaksEven(inp, n - 1);
      assert YearlyEarnings(inp, n) == 0.0;
      assert CumulativeEarnings(inp, n) == CumulativeEarnings(inp, n - 1);
      assert NetValue(inp, n) == -TotalCost(inp);
    }
    var b := BreakEvenYear(inp, n);
    assert b > 0 ==> NetValue(inp, b) == -TotalCost(inp);
  }

  /** The break-even year is 2 whenever year 1 is still negative and year 2 is not. */
  lemma BreakEvenInSecondYear(inp: Inputs, n: nat)
    requires n >= 2
    requires NetValue(inp, 1) < 0.0 <= NetValue(inp, 2)
    ensures BreakEvenYear(inp, n) == 2
  {
  }

  /** The form's initial values: a total of 95000, a year-1 net value of −35000,
      123000 earned by year 2 and break-even in year 2. */
  lemma DefaultScenario()
    ensures TotalCost(DefaultInputs) == 95000.0
    ensures NetValue(DefaultInputs, 1) == -35000.0
    ensures CumulativeEarnings(DefaultInputs, 2) == 123000.0
    ensures BreakEvenYear(DefaultInputs, DefaultInputs.careerLength) == 2
  {
    var inp := DefaultInputs;
    assert Multiplier(inp) == 1.05;
    assert Pow(1.05, 1) == 1.05;
    assert CumulativeEarnings(inp, 1) == 60000.0;
    assert CumulativeEarnings(inp, 2) == 123000.0;
    BreakEvenInSecondYear(inp, inp.careerLength);
  }
}
