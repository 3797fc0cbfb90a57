/** The contribution-optimisation dashboard (dashboard2.py): income tax and
    National Insurance built up in an accumulator, the per-option loop that
    turns contributions into tax, cash and projected pots, and the scoring
    loop that recommends the option with the best balance of cash now and
    income in retirement. The sidebar widgets become an `Inputs` record. */
module Dashboard {
  import opened Arith
  import opened Schedules

  datatype Option<T> = None | Some(value: T)

  // ---------------------------------------------------------------------
  // compute_tax and compute_ni
  // ---------------------------------------------------------------------

  /** compute_tax: adds each band's share to an accumulator in turn. */
  method ComputeTax(income: real) returns (tax: real)
    ensures tax == IncomeTax(income)
    ensures income <= 12570.0 ==> tax == 0.0
    ensures 12570.0 < income <= 50270.0 ==> tax == 0.20 * (income - 12570.0)
  {
    tax := 0.0;
    if income <= 12570.0 {
      return 0.0;
    }
    if income > 12570.0 {
      var taxable := Min(income, 50270.0) - 12570.0;
      tax := tax + taxable * 0.20;
    }
    if income > 50270.0 {
      var taxable := Min(income, 125140.0) - 50270.0;
      tax := tax + taxable * 0.40;
    }
    if income > 125140.0 {
      var taxable := income - 125140.0;
      tax := tax + taxable * 0.45;
    }
  }

  /** compute_ni: 10% between the thresholds, 2% above the upper one. */
  method ComputeNi(income: real) returns (ni: real)
    ensures ni == NationalInsurance(0.10, income)
    ensures income <= 12570.0 ==> ni == 0.0
    ensures income > 12570.0 ==>
      ni == 0.10 * (Min(income, 50270.0) - 12570.0) + (if income > 50270.0 then 0.02 * (income - 50270.0) else 0.0)
  {
    ni := 0.0;
    if income <= 12570.0 {
      return 0.0;
    }
    if income > 12570.0 {
      var taxable := Min(income, 50270.0) - 12570.0;
      ni := ni + taxable * 0.10;
    }
    if income > 50270.0 {
      var taxable := income - 50270.0;
      ni := ni + taxable * 0.02;
    }
  }

  /** The tax on the full basic band is 7,540 and on the full higher band
      37,488, and the higher and additional bands add 40% and 45% of the
      excess over their lower edge. */
  lemma IncomeTaxBandValues(x: real)
    ensures IncomeTax(50270.0) == 7540.0 && IncomeTax(125140.0) == 37488.0
    ensures 50270.0 < x <= 125140.0 ==> IncomeTax(x) == 7540.0 + 0.40 * (x - 50270.0)
    ensures 125140.0 < x ==> IncomeTax(x) == 37488.0 + 0.45 * (x - 125140.0)
  {
  }

  // ---------------------------------------------------------------------
  // Inputs, options and per-option results
  // ---------------------------------------------------------------------

  /** The two choices of the "Calculation Method" radio button. */
  datatype CalcMethod = TotalIncome | OneOffPayment

  /** The sidebar values the calculations read. */
  datatype Inputs = Inputs(
    annualSalary: real,
    oneOffIncome: real,
    currentPension: real,
    annualPension: real,
    yearsToRetirement: nat,
    pensionGrowthRate: real,
    isaGrowthRate: real,
    calcMethod: CalcMethod)

  /** One named option: an extra pension contribution and an ISA contribution. */
  datatype ContributionOption = ContributionOption(name: string, extraPension: real, isaContrib: real)

  /** One row of the results table. */
  datatype ScenarioResult = ScenarioResult(
    option: string,
    totalPensionContrib: real,
    taxPaid: real,
    niPaid: real,
    cashAvailable: real,
    futurePensionPot: real,
    futureIsaPot: real,
    monthlyIncome: real)

  /** The income the calculation method selects. */
  function IncomeBased(inp: Inputs): real
  {
    if inp.calcMethod == TotalIncome then inp.annualSalary + inp.oneOffIncome else inp.oneOffIncome
  }

  /** Income left for tax once pension contributions are taken off, never below zero. */
  function TaxableIncome(incomeBased: real, totalPension: real): real
  {
    Max(incomeBased - totalPension, 0.0)
  }

  /** Cash after pension contributions, tax and National Insurance. */
  function DisposableBeforeIsa(incomeBased: real, totalPension: real): real
  {
    var taxable := TaxableIncome(incomeBased, totalPension);
    incomeBased - totalPension - (IncomeTax(taxable) + NationalInsurance(0.10, taxable))
  }

  /** The sidebar's "cash available before extra contributions". */
  function SidebarCash(inp: Inputs): real
  {
    DisposableBeforeIsa(IncomeBased(inp), inp.annualPension)
  }

  // ---------------------------------------------------------------------
  // Projections
  // ---------------------------------------------------------------------

  /** The value at retirement of `annual` paid every year, with the explicit
      zero-rate branch the source uses to avoid dividing by zero. */
  function AnnuityValue(annual: real, rate: real, years: nat): real
  {
    if rate != 0.0 then annual * ((Pow(1.0 + rate, years) - 1.0) / rate)
    else annual * years as real
  }

  /** The pension pot at retirement: the current pot compounded, the annual
      contributions as an annuity, and the extra contribution compounded. */
  function FuturePensionPot(current: real, annual: real, extra: real, rate: real, years: nat): real
  {
    current * Pow(1.0 + rate, years) + AnnuityValue(annual, rate, years) + extra * Pow(1.0 + rate, years)
  }

  /** The ISA pot at retirement: only the ISA contribution used, compounded. */
  function FutureIsaPot(isaUsed: real, rate: real, years: nat): real
  {
    isaUsed * Pow(1.0 + rate, years)
  }

  /** Monthly income after tax: 4% drawn a year from each pot, a quarter of
      the pension tax free and the rest taxed at an effective 20%. */
  function MonthlyIncome(pensionPot: real, isaPot: real): real
  {
    ((pensionPot * 0.25 * 0.04) + (pensionPot * 0.75 * 0.04 * 0.8)) / 12.0 + (isaPot * 0.04) / 12.0
  }

  /** The row the loop body computes for one option. */
  function Scenario(inp: Inputs, opt: ContributionOption): ScenarioResult
  {
    var incomeBased := IncomeBased(inp);
    var totalPension := inp.annualPension + opt.extraPension;
    var taxable := TaxableIncome(incomeBased, totalPension);
    var disposable := DisposableBeforeIsa(incomeBased, totalPension);
    var isaUsed := Min(opt.isaContrib, disposable);
    var pensionPot := FuturePensionPot(inp.currentPension, inp.annualPension, opt.extraPension,
                                       inp.pensionGrowthRate, inp.yearsToRetirement);
    var isaPot := FutureIsaPot(isaUsed, inp.isaGrowthRate, inp.yearsToRetirement);
    ScenarioResult(opt.name, totalPension, IncomeTax(taxable), NationalInsurance(0.10, taxable),
                   disposable - isaUsed, pensionPot, isaPot, MonthlyIncome(pensionPot, isaPot))
  }

  /** The body of the scenario loop for one option. */
  method EvaluateOption(inp: Inputs, incomeBased: real, opt: ContributionOption) returns (r: ScenarioResult)
    requires incomeBased == IncomeBased(inp)
    ensures r == Scenario(inp, opt)
  {
    var extraPension := opt.extraPension;
    var isaContrib := opt.isaContrib;
    var totalPensionContrib := inp.annualPension + extraPension;
    var taxableIncome := Max(incomeBased - totalPensionContrib, 0.0);
    var taxPaid := ComputeTax(taxableIncome);
    var niPaid := ComputeNi(taxableIncome);
    var disposable := incomeBased - totalPensionContrib - (taxPaid + niPaid);
    assert disposable == DisposableBeforeIsa(incomeBased, totalPensionContrib);
    var isaContribUsed := Min(isaContrib, disposable);
    var cashAvailable := disposable - isaContribUsed;
    var rate, years := inp.pensionGrowthRate, inp.yearsToRetirement;
    var growth := Pow(1.0 + rate, years);
    var futureCurrentPot := inp.currentPension * growth;
    var futureAnnualContrib;
    if rate != 0.0 {
      futureAnnualContrib := inp.annualPension * ((growth - 1.0) / rate);
      AnnuityClosedForm(inp.annualPension, rate, years, growth);
    } else {
      futureAnnualContrib := inp.annualPension * years as real;
      assert futureAnnualContrib == AnnuityValue(inp.annualPension, rate, years);
    }
    var futureExtraPension := extraPension * growth;
    var futurePensionPot := futureCurrentPot + futureAnnualContrib + futureExtraPension;
    assert futureCurrentPot == inp.currentPension * Pow(1.0 + rate, years);
    assert futureExtraPension == extraPension * Pow(1.0 + rate, years);
    assert futurePensionPot == FuturePensionPot(inp.currentPension, inp.annualPension, extraPension, rate, years);
    var futureIsaPot := isaContribUsed * Pow(1.0 + inp.isaGrowthRate, years);
    var monthlyPensionIncome := ((futurePensionPot * 0.25 * 0.04) + (futurePensionPot * 0.75 * 0.04 * 0.8)) / 12.0;
    var monthlyIsaIncome := (futureIsaPot * 0.04) / 12.0;
    r := ScenarioResult(opt.name, totalPensionContrib, taxPaid, niPaid, cashAvailable,
                        futurePensionPot, futureIsaPot, monthlyPensionIncome + monthlyIsaIncome);
  }

  /** The rate != 0 branch of the annual-contribution term, for a growth
      factor computed beforehand. */
  lemma AnnuityClosedForm(annual: real, rate: real, years: nat, growth: real)
    requires rate != 0.0 && growth == Pow(1.0 + rate, years)
    ensures annual * ((growth - 1.0) / rate) == AnnuityValue(annual, rate, years)
  {
  }

  /** The scenario loop of `main`: one result per option, in order. */
  method EvaluateScenarios(inp: Inputs, options: seq<ContributionOption>) returns (results: seq<ScenarioResult>)
    ensures |results| == |options|
    ensures forall i :: 0 <= i < |options| ==> results[i] == Scenario(inp, options[i])
  {
    var incomeBased := IncomeBased(inp);
    results := [];
    var k := 0;
    while k < |options|
      invariant 0 <= k <= |options|
      invariant |results| == k
      invariant forall i :: 0 <= i < k ==> results[i] == Scenario(inp, options[i])
    {
      var r := EvaluateOption(inp, incomeBased, options[k]);
      results := results + [r];
      k := k + 1;
    }
  }

  // ---------------------------------------------------------------------
  // Properties of one scenario
  // ---------------------------------------------------------------------

  /** Taxable income is the income less contributions, clamped at zero, so
      tax and National Insurance are never negative; both are zero when the
      income left after contributions is within the personal allowance, and
      together they take at most 55% of the taxable income. */
  lemma ScenarioDeductions(inp: Inputs, opt: ContributionOption)
    ensures var t := TaxableIncome(IncomeBased(inp), inp.annualPension + opt.extraPension);
      var r := Scenario(inp, opt);
      t >= 0.0 && t >= IncomeBased(inp) - r.totalPensionContrib
      && (t == 0.0 || t == IncomeBased(inp) - r.totalPensionContrib)
      && r.taxPaid >= 0.0 && r.niPaid >= 0.0
      && r.taxPaid + r.niPaid <= 0.55 * t
      && (IncomeBased(inp) - r.totalPensionContrib <= 12570.0 ==> r.taxPaid == 0.0 && r.niPaid == 0.0)
  {
    var t := TaxableIncome(IncomeBased(inp), inp.annualPension + opt.extraPension);
    DeductionsAtMost(0.10, t);
  }

  /** The ISA cap: the contribution used never exceeds the cash left before
      the ISA nor the contribution asked for, it is one of the two, the cash
      available is never negative, and it is exactly the disposable cash less
      the ISA contribution when (and only when) that contribution fits. */
  lemma IsaCap(inp: Inputs, opt: ContributionOption)
    ensures var d := DisposableBeforeIsa(IncomeBased(inp), inp.annualPension + opt.extraPension);
      var used := Min(opt.isaContrib, d);
      var r := Scenario(inp, opt);
      used <= d && used <= opt.isaContrib && (used == d || used == opt.isaContrib)
      && r.cashAvailable == d - used
      && r.cashAvailable >= 0.0
      && (r.cashAvailable == d - opt.isaContrib <==> opt.isaContrib <= d)
  {
  }

  /** When contributions do not exceed the income, the cash before the ISA is
      at least 45% of what is left after contributions, so a non-negative ISA
      contribution is used non-negatively and the ISA pot is non-negative for
      a growth rate of at least -100%. */
  lemma DisposableWhenAffordable(inp: Inputs, opt: ContributionOption)
    requires IncomeBased(inp) >= inp.annualPension + opt.extraPension
    requires opt.isaContrib >= 0.0 && inp.isaGrowthRate >= -1.0
    ensures var left := IncomeBased(inp) - (inp.annualPension + opt.extraPension);
      var d := DisposableBeforeIsa(IncomeBased(inp), inp.annualPension + opt.extraPension);
      d >= 0.45 * left && Min(opt.isaContrib, d) >= 0.0 && Scenario(inp, opt).futureIsaPot >= 0.0
  {
    var t := TaxableIncome(IncomeBased(inp), inp.annualPension + opt.extraPension);
    DeductionsAtMost(0.10, t);
    PowNonNegative(1.0 + inp.isaGrowthRate, inp.yearsToRetirement);
    var used := Min(opt.isaContrib, DisposableBeforeIsa(IncomeBased(inp), inp.annualPension + opt.extraPension));
    assert used * Pow(1.0 + inp.isaGrowthRate, inp.yearsToRetirement) >= 0.0;
  }

  /** When contributions exceed the income, tax and National Insurance are
      zero, the cash before the ISA is the (negative) shortfall, and an ISA
      contribution at least that large is "used" at that negative amount:
      the cap does not clamp it at zero, and the cash available is zero. */
  lemma OverCommitted(inp: Inputs, opt: ContributionOption)
    requires IncomeBased(inp) < inp.annualPension + opt.extraPension
    ensures var d := DisposableBeforeIsa(IncomeBased(inp), inp.annualPension + opt.extraPension);
      var r := Scenario(inp, opt);
      r.taxPaid == 0.0 && r.niPaid == 0.0
      && d == IncomeBased(inp) - r.totalPensionContrib && d < 0.0
      && (opt.isaContrib >= d ==> Min(opt.isaContrib, d) == d && r.cashAvailable == 0.0)
  {
  }

  /** The annuity term with its zero-rate branch equals the sum of the
      contributions each compounded for the years it has left. */
  lemma AnnuityIsGeometricSum(annual: real, rate: real, years: nat)
    ensures AnnuityValue(annual, rate, years) == annual * GeometricSum(1.0 + rate, years)
  {
    if rate != 0.0 {
      var g, p := GeometricSum(1.0 + rate, years), Pow(1.0 + rate, years);
      GeometricSumClosedForm(1.0 + rate, years);
      assert (1.0 + rate) - 1.0 == rate;
      assert rate * g == p - 1.0;
      DivideProduct(g, rate, p - 1.0);
    } else {
      GeometricSumOfOne(years);
    }
  }

  /** The pension pot compounds the current pot, every annual contribution
      and the extra contribution; with a zero rate the annual contributions
      simply add up; with no years left the pot is the current pot plus the
      extra contribution. */
  lemma PensionPotProjection(current: real, annual: real, extra: real, rate: real, years: nat)
    ensures FuturePensionPot(current, annual, extra, rate, years)
            == current * Pow(1.0 + rate, years) + annual * GeometricSum(1.0 + rate, years)
               + extra * Pow(1.0 + rate, years)
    ensures rate == 0.0 ==>
            FuturePensionPot(current, annual, extra, rate, years) == current + annual * years as real + extra
    ensures years == 0 ==> FuturePensionPot(current, annual, extra, rate, years) == current + extra
  {
    AnnuityIsGeometricSum(annual, rate, years);
    if rate == 0.0 {
      PowOne(years);
      GeometricSumOfOne(years);
    }
  }

  /** The pots of a scenario: the pension pot is the projection of the
      current pot, the annual contribution and the option's extra
      contribution; the ISA pot compounds only the ISA contribution actually
      used, and with no years left it is that contribution. */
  lemma ScenarioPots(inp: Inputs, opt: ContributionOption)
    ensures var r := Scenario(inp, opt);
      var d := DisposableBeforeIsa(IncomeBased(inp), inp.annualPension + opt.extraPension);
      r.futurePensionPot == FuturePensionPot(inp.currentPension, inp.annualPension, opt.extraPension,
                                             inp.pensionGrowthRate, inp.yearsToRetirement)
      && r.futureIsaPot == Min(opt.isaContrib, d) * Pow(1.0 + inp.isaGrowthRate, inp.yearsToRetirement)
      && (inp.yearsToRetirement == 0 ==> r.futureIsaPot == Min(opt.isaContrib, d))
  {
  }

  /** The monthly income formula reduces to 3.4% of the pension pot and 4% of
      the ISA pot a year, and is non-negative for non-negative pots. */
  lemma MonthlyIncomeRates(pensionPot: real, isaPot: real)
    ensures MonthlyIncome(pensionPot, isaPot) == pensionPot * 0.034 / 12.0 + isaPot * 0.04 / 12.0
    ensures pensionPot >= 0.0 && isaPot >= 0.0 ==> MonthlyIncome(pensionPot, isaPot) >= 0.0
  {
  }

  /** A larger extra contribution never gives a smaller pension pot (for a
      growth rate of at least -100%), and never gives more cash now. */
  lemma MorePensionLessCash(inp: Inputs, a: ContributionOption, b: ContributionOption)
    requires a.isaContrib == b.isaContrib && a.extraPension <= b.extraPension
    requires inp.pensionGrowthRate >= -1.0
    ensures Scenario(inp, a).futurePensionPot <= Scenario(inp, b).futurePensionPot
    ensures Scenario(inp, b).cashAvailable <= Scenario(inp, a).cashAvailable
  {
    var rate, years := inp.pensionGrowthRate, inp.yearsToRetirement;
    PowNonNegative(1.0 + rate, years);
    ScaleLe(a.extraPension, b.extraPension, Pow(1.0 + rate, years));
    assert FuturePensionPot(inp.currentPension, inp.annualPension, a.extraPension, rate, years)
        <= FuturePensionPot(inp.currentPension, inp.annualPension, b.extraPension, rate, years);
    var income := IncomeBased(inp);
    var pa, pb := inp.annualPension + a.extraPension, inp.annualPension + b.extraPension;
    DisposableFalls(income, pa, pb);
    var da, db := DisposableBeforeIsa(income, pa), DisposableBeforeIsa(income, pb);
    assert Scenario(inp, a).cashAvailable == da - Min(a.isaContrib, da);
    assert Scenario(inp, b).cashAvailable == db - Min(a.isaContrib, db);
  }

  /** The cash before the ISA never rises when contributions rise: each
      pound contributed saves at most 55p of tax and National Insurance. */
  lemma DisposableFalls(income: real, pa: real, pb: real)
    requires pa <= pb
    ensures DisposableBeforeIsa(income, pb) <= DisposableBeforeIsa(income, pa)
  {
    var ta, tb := TaxableIncome(income, pa), TaxableIncome(income, pb);
    assert tb <= ta && ta - tb <= pb - pa;
    IncomeTaxIncrement(tb, ta);
    NationalInsuranceIncrement(0.10, tb, ta);
  }

  /** The sidebar figure is the cash before the ISA of an option with no
      extra pension and no ISA contribution; that option's cash available
      is the sidebar figure when it is not negative, and zero otherwise. */
  lemma SidebarIsBaseScenario(inp: Inputs, name: string)
    ensures var r := Scenario(inp, ContributionOption(name, 0.0, 0.0));
      r.cashAvailable == Max(SidebarCash(inp), 0.0)
      && r.taxPaid == IncomeTax(TaxableIncome(IncomeBased(inp), inp.annualPension))
  {
  }

  // ---------------------------------------------------------------------
  // Scoring and the recommendation
  // ---------------------------------------------------------------------

  /** The smallest element, as pandas' Series.min(). */
  function SeqMin(s: seq<real>): (m: real)
    requires |s| > 0
    ensures forall i :: 0 <= i < |s| ==> m <= s[i]
    ensures exists i :: 0 <= i < |s| && m == s[i]
  {
    if |s| == 1 then s[0]
    else
      var rest := SeqMin(s[1..]);
      assert forall i :: 1 <= i < |s| ==> s[i] == s[1..][i - 1];
      if s[0] <= rest then s[0] else rest
  }

  /** The largest element, as pandas' Series.max(). */
  function SeqMax(s: seq<real>): (m: real)
    requires |s| > 0
    ensures forall i :: 0 <= i < |s| ==> s[i] <= m
    ensures exists i :: 0 <= i < |s| && m == s[i]
  {
    if |s| == 1 then s[0]
    else
      var rest := SeqMax(s[1..]);
      assert forall i :: 1 <= i < |s| ==> s[i] == s[1..][i - 1];
      if s[0] >= rest then s[0] else rest
  }

  /** The "Cash Available" column. */
  function CashColumn(results: seq<ScenarioResult>): (c: seq<real>)
    ensures |c| == |results|
  {
    seq(|results|, i requires 0 <= i < |results| => results[i].cashAvailable)
  }

  /** The "Monthly Retirement Income" column. */
  function IncomeColumn(results: seq<ScenarioResult>): (c: seq<real>)
    ensures |c| == |results|
  {
    seq(|results|, i requires 0 <= i < |results| => results[i].monthlyIncome)
  }

  /** Min-max normalisation, 1 when every value ties. */
  function Normalise(x: real, lo: real, hi: real): real
  {
    if hi - lo > 0.0 then (x - lo) / (hi - lo) else 1.0
  }

  lemma QuotientInUnit(a: real, b: real)
    requires 0.0 <= a <= b && b > 0.0
    ensures 0.0 <= a / b <= 1.0
  {
  }

  lemma NormaliseInUnit(x: real, lo: real, hi: real)
    requires lo <= x <= hi
    ensures 0.0 <= Normalise(x, lo, hi) <= 1.0
    ensures lo == hi ==> Normalise(x, lo, hi) == 1.0
    ensures x == hi ==> Normalise(x, lo, hi) == 1.0
    ensures lo < hi && x == lo ==> Normalise(x, lo, hi) == 0.0
  {
    if hi - lo > 0.0 {
      QuotientInUnit(x - lo, hi - lo);
      if x == hi {
        DivideProduct(1.0, hi - lo, x - lo);
      }
    }
  }

  /** The score of row i: equal weights on normalised cash and income. */
  function Score(results: seq<ScenarioResult>, i: nat): real
    requires i < |results|
  {
    var cash, income := CashColumn(results), IncomeColumn(results);
    0.5 * Normalise(cash[i], SeqMin(cash), SeqMax(cash))
      + 0.5 * Normalise(income[i], SeqMin(income), SeqMax(income))
  }

  /** Row k is what `idxmax` picks: its score is maximal and no earlier row
      reaches it. */
  predicate IsRecommended(results: seq<ScenarioResult>, k: nat)
  {
    k < |results|
    && (forall j :: 0 <= j < |results| ==> Score(results, j) <= Score(results, k))
    && (forall j :: 0 <= j < k ==> Score(results, j) < Score(results, k))
  }

  /** Every score lies between 0 and 1, and a row that is best on both
      metrics scores exactly 1. */
  lemma ScoreInUnit(results: seq<ScenarioResult>, i: nat)
    requires i < |results|
    ensures 0.0 <= Score(results, i) <= 1.0
    ensures (CashColumn(results)[i] == SeqMax(CashColumn(results))
             && IncomeColumn(results)[i] == SeqMax(IncomeColumn(results))) ==> Score(results, i) == 1.0
  {
    var cash, income := CashColumn(results), IncomeColumn(results);
    NormaliseInUnit(cash[i], SeqMin(cash), SeqMax(cash));
    NormaliseInUnit(income[i], SeqMin(income), SeqMax(income));
  }

  /** When every option ties on both metrics every score is 1, so the
      recommendation is the first option. */
  lemma TieRecommendsFirst(results: seq<ScenarioResult>, k: nat)
    requires IsRecommended(results, k)
    requires forall i :: 0 <= i < |results| ==> results[i].cashAvailable == results[0].cashAvailable
    requires forall i :: 0 <= i < |results| ==> results[i].monthlyIncome == results[0].monthlyIncome
    ensures k == 0
  {
    if k > 0 {
      var cash, income := CashColumn(results), IncomeColumn(results);
      assert cash[0] == SeqMax(cash) && cash[k] == SeqMax(cash);
      assert income[0] == SeqMax(income) && income[k] == SeqMax(income);
      ScoreInUnit(results, 0);
      ScoreInUnit(results, k);
      assert false;
    }
  }

  /** The scoring loop: one score per row, appended in order. */
  method ComputeScores(results: seq<ScenarioResult>) returns (scores: seq<real>)
    requires |results| > 0
    ensures |scores| == |results|
    ensures forall i :: 0 <= i < |results| ==> scores[i] == Score(results, i)
  {
    var cash, income := CashColumn(results), IncomeColumn(results);
    var cashMin, cashMax := SeqMin(cash), SeqMax(cash);
    var incomeMin, incomeMax := SeqMin(income), SeqMax(income);
    scores := [];
    var idx := 0;
    while idx < |results|
      invariant 0 <= idx <= |results|
      invariant |scores| == idx
      invariant forall i :: 0 <= i < idx ==> scores[i] == Score(results, i)
    {
      var normCash, normIncome;
      if cashMax - cashMin > 0.0 {
        normCash := (results[idx].cashAvailable - cashMin) / (cashMax - cashMin);
      } else {
        normCash := 1.0;
      }
      if incomeMax - incomeMin > 0.0 {
        normIncome := (results[idx].monthlyIncome - incomeMin) / (incomeMax - incomeMin);
      } else {
        normIncome := 1.0;
      }
      scores := scores + [0.5 * normCash + 0.5 * normIncome];
      idx := idx + 1;
    }
  }

  /** pandas' `idxmax`: the first position of the largest value. */
  method IdxMax(s: seq<real>) returns (k: nat)
    requires |s| > 0
    ensures k < |s|
    ensures forall j :: 0 <= j < |s| ==> s[j] <= s[k]
    ensures forall j :: 0 <= j < k ==> s[j] < s[k]
  {
    k := 0;
    var i := 1;
    while i < |s|
      invariant 1 <= i <= |s| && k < i
      invariant forall j :: 0 <= j < i ==> s[j] <= s[k]
      invariant forall j :: 0 <= j < k ==> s[j] < s[k]
    {
      if s[i] > s[k] {
        k := i;
      }
      i := i + 1;
    }
  }

  /** The recommended option's row; no row when there are no options
      (with no options the source's results frame has no columns, and
      reading its cash column fails before `idxmax` is reached). */
  method Recommend(results: seq<ScenarioResult>) returns (best: Option<nat>)
    ensures best.None? <==> |results| == 0
    ensures best.Some? ==> IsRecommended(results, best.value)
  {
    if |results| == 0 {
      return None;
    }
    var scores := ComputeScores(results);
    var k := IdxMax(scores);
    best := Some(k);
  }

  /** At most one row meets the first-maximum rule, so the recommended
      option is well defined. */
  lemma RecommendedIsUnique(results: seq<ScenarioResult>, k1: nat, k2: nat)
    requires IsRecommended(results, k1) && IsRecommended(results, k2)
    ensures k1 == k2
  {
    assert Score(results, k2) <= Score(results, k1) && Score(results, k1) <= Score(results, k2);
    assert !(k1 < k2) && !(k2 < k1);
  }

  /** The part of `main` after the sidebar: one row per option, then the
      "Option" label of the recommended row (none when there are no
      options). */
  method EvaluateAndRecommend(inp: Inputs, options: seq<ContributionOption>)
    returns (results: seq<ScenarioResult>, recommended: Option<string>)
    ensures |results| == |options|
    ensures forall i :: 0 <= i < |options| ==> results[i] == Scenario(inp, options[i])
    ensures recommended.None? <==> |options| == 0
    ensures recommended.Some? ==>
      exists k: nat :: IsRecommended(results, k) && recommended.value == results[k].option && recommended.value == options[k].name
  {
    results := EvaluateScenarios(inp, options);
    var best := Recommend(results);
    if best.Some? {
      recommended := Some(results[best.value].option);
    } else {
      recommended := None;
    }
  }
}
