/** The pension and ISA comparison tool (pension_dashboard.py): closed-form
    income tax, National Insurance at 12% between the thresholds, the
    "marginal slice" scenario that charges the tax on the top of the total
    income, and the recommendation of the option with the most cash. The
    module-level sidebar values become parameters. */
module PensionDashboard {
  import opened Arith
  import opened Schedules

  /** calculate_tax: one closed-form branch per band. */
  function CalculateTax(income: real): real
  {
    if income <= 12570.0 then 0.0
    else if income <= 50270.0 then (income - 12570.0) * 0.20
    else if income <= 125140.0 then (50270.0 - 12570.0) * 0.20 + (income - 50270.0) * 0.40
    else (50270.0 - 12570.0) * 0.20 + (125140.0 - 50270.0) * 0.40 + (income - 125140.0) * 0.45
  }

  /** calculate_ni: 12% between the thresholds, 2% above the upper one. */
  function CalculateNi(income: real): real
  {
    if income <= 12570.0 then 0.0
    else if income <= 50270.0 then (income - 12570.0) * 0.12
    else (50270.0 - 12570.0) * 0.12 + (income - 50270.0) * 0.02
  }

  /** calculate_tax charges each band's rate on the income inside that band,
      and so agrees with dashboard2.py's compute_tax for every income. */
  lemma CalculateTaxIsIncomeTax(x: real)
    ensures CalculateTax(x) == IncomeTax(x)
    ensures CalculateTax(x) == BandedTax(x)
  {
    IncomeTaxIsBanded(x);
  }

  /** calculate_tax is zero up to the allowance (negative income included),
      20% of the excess in the basic band, and 7,540 and 37,488 at the top
      of the basic and higher bands; its monotonicity and slope are those of
      IncomeTax (Schedules.IncomeTaxIncrement). */
  lemma CalculateTaxBandValues(x: real)
    ensures x <= 12570.0 ==> CalculateTax(x) == 0.0
    ensures 12570.0 < x <= 50270.0 ==> CalculateTax(x) == 0.20 * (x - 12570.0)
    ensures CalculateTax(50270.0) == 7540.0 && CalculateTax(125140.0) == 37488.0
  {
  }

  /** calculate_ni is the banded National Insurance at 12%: zero up to the
      allowance (negative income included), 12% of the excess up to 50,270,
      and 4,524 plus 2% of the excess above. */
  lemma CalculateNiValues(x: real)
    ensures CalculateNi(x) == NationalInsurance(0.12, x) && CalculateNi(x) == BandedNi(0.12, x)
    ensures x <= 12570.0 ==> CalculateNi(x) == 0.0
    ensures 12570.0 < x <= 50270.0 ==> CalculateNi(x) == 0.12 * (x - 12570.0)
    ensures 50270.0 < x ==> CalculateNi(x) == 4524.0 + 0.02 * (x - 50270.0)
  {
    NationalInsuranceIsBanded(0.12, x);
  }

  /** The two dashboards' National Insurance differ only in the middle band:
      by 2% of the income inside it. */
  lemma NiAgainstDashboard(x: real)
    ensures CalculateNi(x) - NationalInsurance(0.10, x) == 0.02 * Portion(x, 12570.0, 50270.0)
  {
    CalculateNiValues(x);
    NationalInsuranceIsBanded(0.10, x);
  }

  /** calculate_ni never decreases with income and rises by at most 12p per
      extra pound. */
  lemma CalculateNiIncrement(x: real, y: real)
    requires x <= y
    ensures 0.0 <= CalculateNi(x) <= CalculateNi(y)
    ensures CalculateNi(y) - CalculateNi(x) <= 0.12 * (y - x)
  {
    CalculateNiValues(x);
    CalculateNiValues(y);
    NationalInsuranceIncrement(0.12, x, y);
  }

  // ---------------------------------------------------------------------
  // calculate_scenario
  // ---------------------------------------------------------------------

  /** The two choices of the calculation-type radio button. */
  datatype CalculationType = TotalIncome | OneOffPayment

  /** The dictionary calculate_scenario returns. */
  datatype ScenarioOutcome = ScenarioOutcome(
    pensionContribution: real,
    taxableIncome: real,
    taxPaid: real,
    niPaid: real,
    cashAvailable: real)

  /** calculate_scenario, with the salary, one-off income and calculation
      type it reads from the sidebar passed in. */
  function CalculateScenario(annualIncome: real, oneOffIncome: real, calculationType: CalculationType,
                             pensionContribution: real): ScenarioOutcome
  {
    var totalIncomeForTax := annualIncome + oneOffIncome;
    var taxableIncome :=
      if calculationType == TotalIncome then totalIncomeForTax - pensionContribution
      else oneOffIncome - pensionContribution;
    var taxPaid := CalculateTax(totalIncomeForTax) - CalculateTax(totalIncomeForTax - taxableIncome);
    var niPaid := CalculateNi(taxableIncome);
    ScenarioOutcome(pensionContribution, taxableIncome, taxPaid, niPaid, taxableIncome - taxPaid - niPaid)
  }

  /** The taxable income is the chosen income less the contribution, with no
      clamp (it is negative when the contribution is larger), and the tax
      paid is the tax on the top slice of the total income that the taxable
      income occupies: above the contribution in total mode, above salary
      plus contribution in one-off mode. */
  lemma ScenarioTaxable(annualIncome: real, oneOffIncome: real, calculationType: CalculationType, c: real)
    ensures var s := CalculateScenario(annualIncome, oneOffIncome, calculationType, c);
      var total := annualIncome + oneOffIncome;
      s.pensionContribution == c
      && (calculationType == TotalIncome ==>
            s.taxableIncome == total - c && s.taxPaid == CalculateTax(total) - CalculateTax(c))
      && (calculationType == OneOffPayment ==>
            s.taxableIncome == oneOffIncome - c
            && s.taxPaid == CalculateTax(total) - CalculateTax(annualIncome + c))
      && (c > oneOffIncome + (if calculationType == TotalIncome then annualIncome else 0.0) ==> s.taxableIncome < 0.0)
  {
  }

  /** The tax paid lies between zero and 45% of a non-negative taxable
      income (and between 45% of a negative one and zero); in total mode
      with no contribution it is the ordinary tax on the total income. In
      one-off mode, a contribution above the one-off income with salary plus
      contribution within the allowance pays no tax at all. */
  lemma ScenarioTaxPaid(annualIncome: real, oneOffIncome: real, calculationType: CalculationType, c: real)
    ensures var s := CalculateScenario(annualIncome, oneOffIncome, calculationType, c);
      (s.taxableIncome >= 0.0 ==> 0.0 <= s.taxPaid <= 0.45 * s.taxableIncome)
      && (s.taxableIncome < 0.0 ==> 0.45 * s.taxableIncome <= s.taxPaid <= 0.0)
      && (calculationType == TotalIncome && c == 0.0 ==> s.taxPaid == CalculateTax(annualIncome + oneOffIncome))
      && (calculationType == OneOffPayment && oneOffIncome < c && annualIncome + c <= 12570.0 ==> s.taxPaid == 0.0)
  {
    var s := CalculateScenario(annualIncome, oneOffIncome, calculationType, c);
    var total := annualIncome + oneOffIncome;
    CalculateTaxIsIncomeTax(total);
    CalculateTaxIsIncomeTax(total - s.taxableIncome);
    CalculateTaxBandValues(total);
    CalculateTaxBandValues(total - s.taxableIncome);
    if s.taxableIncome >= 0.0 {
      IncomeTaxIncrement(total - s.taxableIncome, total);
    } else {
      IncomeTaxIncrement(total, total - s.taxableIncome);
    }
  }

  /** National Insurance is charged on the taxable income: never negative,
      zero when the taxable income is within the allowance, and at most 12%
      of a non-negative taxable income. */
  lemma ScenarioNi(annualIncome: real, oneOffIncome: real, calculationType: CalculationType, c: real)
    ensures var s := CalculateScenario(annualIncome, oneOffIncome, calculationType, c);
      s.niPaid >= 0.0
      && (s.taxableIncome <= 12570.0 ==> s.niPaid == 0.0)
      && (s.taxableIncome >= 0.0 ==> s.niPaid <= 0.12 * s.taxableIncome)
  {
    CalculateNiBounds(CalculateScenario(annualIncome, oneOffIncome, calculationType, c).taxableIncome);
  }

  /** The bounds of ScenarioNi for a single taxable income. */
  lemma CalculateNiBounds(t: real)
    ensures CalculateNi(t) >= 0.0
    ensures t <= 12570.0 ==> CalculateNi(t) == 0.0
    ensures t >= 0.0 ==> CalculateNi(t) <= 0.12 * t
  {
  }

  /** The cash available is never negative exactly when the taxable income
      is not negative: tax and National Insurance together take at most 57%
      of a non-negative taxable income, and a negative one gives back at
      most 45% of itself. */
  lemma CashSign(annualIncome: real, oneOffIncome: real, calculationType: CalculationType, c: real)
    ensures var s := CalculateScenario(annualIncome, oneOffIncome, calculationType, c);
      s.cashAvailable == s.taxableIncome - s.taxPaid - s.niPaid
      && (s.cashAvailable >= 0.0 <==> s.taxableIncome >= 0.0)
  {
    ScenarioTaxPaid(annualIncome, oneOffIncome, calculationType, c);
    ScenarioNi(annualIncome, oneOffIncome, calculationType, c);
  }

  /** A larger pension contribution always leaves strictly less cash: each
      pound contributed saves at most 57p of tax and National Insurance. */
  lemma MoreContributionLessCash(annualIncome: real, oneOffIncome: real, calculationType: CalculationType,
                                 c1: real, c2: real)
    requires c1 < c2
    ensures CalculateScenario(annualIncome, oneOffIncome, calculationType, c2).cashAvailable
            < CalculateScenario(annualIncome, oneOffIncome, calculationType, c1).cashAvailable
  {
    var s1 := CalculateScenario(annualIncome, oneOffIncome, calculationType, c1);
    var s2 := CalculateScenario(annualIncome, oneOffIncome, calculationType, c2);
    var total := annualIncome + oneOffIncome;
    var t1, t2 := s1.taxableIncome, s2.taxableIncome;
    assert t1 - t2 == c2 - c1;
    CalculateTaxIsIncomeTax(total - t1);
    CalculateTaxIsIncomeTax(total - t2);
    IncomeTaxIncrement(total - t1, total - t2);
    CalculateNiIncrement(t2, t1);
  }

  // ---------------------------------------------------------------------
  // The recommendation
  // ---------------------------------------------------------------------

  /** `max(scenarios, key=cash)`: the position of the first scenario with the
      most cash; it is also where `.index` finds that scenario, since no
      earlier scenario equals it. */
  function BestOption(scenarios: seq<ScenarioOutcome>): (k: nat)
    requires |scenarios| > 0
    ensures k < |scenarios|
    ensures forall j :: 0 <= j < |scenarios| ==> scenarios[j].cashAvailable <= scenarios[k].cashAvailable
    ensures forall j :: 0 <= j < k ==> scenarios[j].cashAvailable < scenarios[k].cashAvailable
    ensures forall j :: 0 <= j < k ==> scenarios[j] != scenarios[k]
  {
    if |scenarios| == 1 then 0
    else
      var init := scenarios[..|scenarios| - 1];
      var k := BestOption(init);
      assert forall j :: 0 <= j < |init| ==> init[j] == scenarios[j];
      if scenarios[|scenarios| - 1].cashAvailable > scenarios[k].cashAvailable then |scenarios| - 1
      else k
  }

  /** MoreContributionLessCash for every pair of contributions at once. */
  lemma CashFallsWithContribution(annualIncome: real, oneOffIncome: real, calculationType: CalculationType)
    ensures forall c1, c2 :: c1 < c2 ==>
      CalculateScenario(annualIncome, oneOffIncome, calculationType, c2).cashAvailable
      < CalculateScenario(annualIncome, oneOffIncome, calculationType, c1).cashAvailable
  {
    forall c1, c2 | c1 < c2
      ensures CalculateScenario(annualIncome, oneOffIncome, calculationType, c2).cashAvailable
              < CalculateScenario(annualIncome, oneOffIncome, calculationType, c1).cashAvailable
    {
      MoreContributionLessCash(annualIncome, oneOffIncome, calculationType, c1, c2);
    }
  }

  /** The scenario of each contribution option, in order (scenario_1 to
      scenario_3): an option with a larger contribution always shows less
      cash available. */
  function Scenarios(annualIncome: real, oneOffIncome: real, calculationType: CalculationType,
                     contributions: seq<real>): (s: seq<ScenarioOutcome>)
    ensures |s| == |contributions|
    ensures forall i :: 0 <= i < |s| ==> s[i] == CalculateScenario(annualIncome, oneOffIncome, calculationType, contributions[i])
    ensures forall i, j :: 0 <= i < |s| && 0 <= j < |s| && contributions[i] < contributions[j] ==>
      s[j].cashAvailable < s[i].cashAvailable
  {
    CashFallsWithContribution(annualIncome, oneOffIncome, calculationType);
    seq(|contributions|, i requires 0 <= i < |contributions| =>
      CalculateScenario(annualIncome, oneOffIncome, calculationType, contributions[i]))
  }

  /** Because cash falls with every extra pound contributed, the option
      recommended on cash is always the first one with the smallest pension
      contribution. */
  lemma RecommendsSmallestContribution(annualIncome: real, oneOffIncome: real, calculationType: CalculationType,
                                       contributions: seq<real>)
    requires |contributions| > 0
    ensures var k := BestOption(Scenarios(annualIncome, oneOffIncome, calculationType, contributions));
      (forall j :: 0 <= j < |contributions| ==> contributions[k] <= contributions[j])
      && (forall j :: 0 <= j < k ==> contributions[k] < contributions[j])
  {
    var s := Scenarios(annualIncome, oneOffIncome, calculationType, contributions);
    var k := BestOption(s);
    assert forall j :: 0 <= j < |contributions| ==> s[j].cashAvailable <= s[k].cashAvailable;
  }
}
