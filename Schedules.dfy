/** Banded liability schedules. Both dashboards hard-code the same UK
    income-tax bands and a National Insurance schedule whose middle rate
    differs between them; this module gives one reference definition of
    each as "every band's rate applied to the part of the income inside
    that band", against which both dashboards' implementations are proved. */
module Schedules {
  import opened Arith

  /** The part of income `x` lying in the interval from `lo` to `hi`. */
  function Portion(x: real, lo: real, hi: real): (p: real)
    ensures p >= 0.0
    ensures lo <= hi ==> p <= hi - lo
  {
    Max(0.0, Min(x, hi) - lo)
  }

  /** The part of income `x` lying above `lo`. */
  function Above(x: real, lo: real): (p: real)
    ensures p >= 0.0
    ensures p <= x - lo || x <= lo
  {
    Max(0.0, x - lo)
  }

  // ---------------------------------------------------------------------
  // The UK bands both dashboards hard-code: a personal allowance of 12,570,
  // basic rate 20% up to 50,270, higher rate 40% up to 125,140, additional
  // rate 45% above; National Insurance starts at the same allowance and
  // drops to 2% above 50,270.
  // ---------------------------------------------------------------------

  /** The income-tax schedule, one branch per band, with the tax on the
      full lower bands (7,540 and 37,488) as constants. */
  function IncomeTax(x: real): real
  {
    if x <= 12570.0 then 0.0
    else if x <= 50270.0 then 0.20 * (x - 12570.0)
    else if x <= 125140.0 then 7540.0 + 0.40 * (x - 50270.0)
    else 37488.0 + 0.45 * (x - 125140.0)
  }

  /** The National Insurance schedule with the given rate between the two
      thresholds. */
  function NationalInsurance(midRate: real, x: real): real
  {
    if x <= 12570.0 then 0.0
    else if x <= 50270.0 then midRate * (x - 12570.0)
    else midRate * 37700.0 + 0.02 * (x - 50270.0)
  }

  /** Reference definition of income tax: each band's rate applied to the
      part of the income inside that band. */
  function BandedTax(x: real): real
  {
    0.20 * Portion(x, 12570.0, 50270.0) + 0.40 * Portion(x, 50270.0, 125140.0) + 0.45 * Above(x, 125140.0)
  }

  /** Reference definition of National Insurance, band by band. */
  function BandedNi(midRate: real, x: real): real
  {
    midRate * Portion(x, 12570.0, 50270.0) + 0.02 * Above(x, 50270.0)
  }

  /** The per-band schedule charges exactly each band's rate on the income
      inside that band. */
  lemma IncomeTaxIsBanded(x: real)
    ensures IncomeTax(x) == BandedTax(x)
  {
  }

  lemma NationalInsuranceIsBanded(midRate: real, x: real)
    ensures NationalInsurance(midRate, x) == BandedNi(midRate, x)
  {
    if x > 12570.0 && x <= 50270.0 {
      assert Portion(x, 12570.0, 50270.0) == x - 12570.0;
    } else if x > 50270.0 {
      assert Portion(x, 12570.0, 50270.0) == 37700.0;
    } else {
      assert Portion(x, 12570.0, 50270.0) == 0.0;
    }
  }

  /** Income tax is non-negative, non-decreasing, and rises by at most 45p
      per extra pound (so it has no jump at any band edge). */
  lemma IncomeTaxIncrement(x: real, y: real)
    requires x <= y
    ensures 0.0 <= IncomeTax(x) <= IncomeTax(y)
    ensures IncomeTax(y) - IncomeTax(x) <= 0.45 * (y - x)
  {
  }

  /** National Insurance is non-negative, non-decreasing, and rises by at
      most the larger of its two rates per extra pound. */
  lemma NationalInsuranceIncrement(midRate: real, x: real, y: real)
    requires 0.0 <= midRate && x <= y
    ensures 0.0 <= NationalInsurance(midRate, x) <= NationalInsurance(midRate, y)
    ensures NationalInsurance(midRate, y) - NationalInsurance(midRate, x)
            <= Max(midRate, 0.02) * (y - x)
  {
    var top := Max(midRate, 0.02);
    var px := if x <= 12570.0 then 0.0 else if x <= 50270.0 then x - 12570.0 else 37700.0;
    var py := if y <= 12570.0 then 0.0 else if y <= 50270.0 then y - 12570.0 else 37700.0;
    var ax := if x <= 50270.0 then 0.0 else x - 50270.0;
    var ay := if y <= 50270.0 then 0.0 else y - 50270.0;
    assert NationalInsurance(midRate, x) == midRate * px + 0.02 * ax;
    assert NationalInsurance(midRate, y) == midRate * py + 0.02 * ay;
    TwoBandIncrement(midRate, top, px, py, ax, ay, y - x,
                     NationalInsurance(midRate, x), NationalInsurance(midRate, y));
  }

  /** The arithmetic of NationalInsuranceIncrement on plain numbers: `px`, `py`
      are the incomes inside the middle band, `ax`, `ay` those above it. */
  lemma TwoBandIncrement(m: real, t: real, px: real, py: real, ax: real, ay: real,
                         d: real, lx: real, ly: real)
    requires 0.0 <= m <= t && 0.02 <= t
    requires 0.0 <= px <= py && 0.0 <= ax <= ay && (py - px) + (ay - ax) <= d
    requires lx == m * px + 0.02 * ax && ly == m * py + 0.02 * ay
    ensures 0.0 <= lx <= ly && ly - lx <= t * d
  {
    ScaleLe(0.0, px, m);
    assert 0.0 <= px * m;
    MulDistributes(m, px, py - px);
    assert ly - lx == m * (py - px) + 0.02 * (ay - ax);
    SlopeBound(m, t, py - px, ay - ax, d);
  }

  /** The increase `m * dp + 0.02 * da` over `dp` pounds in the middle band
      and `da` above it is at most `t` per pound of a wider step `d`. */
  lemma SlopeBound(m: real, t: real, dp: real, da: real, d: real)
    requires 0.0 <= m <= t && 0.02 <= t
    requires 0.0 <= dp && 0.0 <= da && dp + da <= d
    ensures 0.0 <= m * dp + 0.02 * da <= t * d
  {
    ScaleLe(0.0, dp, m);
    ScaleLe(m, t, dp);
    ScaleLe(0.02, t, da);
    MulDistributes(t, dp, da);
    ScaleLe(dp + da, d, t);
    AddLe(m * dp, t * dp, 0.02 * da, t * da, t * (dp + da), t * d);
  }

  /** Tax and National Insurance together never take more than
      (45% + the larger NI rate) of the income above the personal allowance. */
  lemma DeductionsAtMost(midRate: real, x: real)
    requires 0.0 <= midRate
    ensures IncomeTax(x) + NationalInsurance(midRate, x)
            <= (0.45 + Max(midRate, 0.02)) * Above(x, 12570.0)
  {
    var a := Max(x, 12570.0);
    IncomeTaxIncrement(12570.0, a);
    NationalInsuranceIncrement(midRate, 12570.0, a);
  }
}
