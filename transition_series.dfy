/** The month-by-month systematic risk over a Time-to-Value transition, as
    the transition pages build it for their charts: one value for every
    month from 0 to the transition length inclusive. */
module TransitionSeries {
  import opened RealArith
  import opened Lerp
  import AppDataUtils
  import Calc = Calculations
  import App = AppCalculations
  import CrossVariant

  /** The combined modifier `w_econ·M_econ + w_inno·IAI` the hazard is scaled by. */
  function Modifier(p: AppDataUtils.Params, mEcon: real, iai: real): real
  {
    p.wEcon * mEcon + p.wInno * iai
  }

  /** With non-negative weights summing to 1 and both modifiers in
      `[lo, hi]`, the combined modifier is in `[lo, hi]` too; on the pages'
      slider range [0.8, 1.2] it is therefore positive. */
  lemma ModifierBounds(p: AppDataUtils.Params, mEcon: real, iai: real, lo: real, hi: real)
    requires p.wEcon >= 0.0 && p.wInno >= 0.0 && p.wEcon + p.wInno == 1.0
    requires lo <= mEcon <= hi && lo <= iai <= hi
    ensures lo <= Modifier(p, mEcon, iai) <= hi
  {
    assert p.wEcon == 1.0 - p.wInno;
    assert Modifier(p, mEcon, iai) == Blend(p.wInno, mEcon, iai);
    BlendBetween(p.wInno, mEcon, iai);
  }

  /** The systematic risk at one month of the transition. */
  function RiskAtMonth(p: AppDataUtils.Params, month: int, ttv: int, hCurrent: real, hTarget: real, mEcon: real, iai: real): real
  {
    App.SystematicRisk(p, App.TtvModifiedHBase(month, ttv, hCurrent, hTarget), mEcon, iai)
  }

  /** Builds the series for months `0, 1, ..., ttv`: `ttv + 1` values, none
      for a negative length. Each value is the systematic risk of the
      interpolated hazard at that month, whichever of the two interpolations
      is used; the series starts at the current hazard and ends at the target
      hazard, each scaled by the modifier. */
  method SystematicRiskSeries(p: AppDataUtils.Params, ttv: int, hCurrent: real, hTarget: real, mEcon: real, iai: real)
    returns (series: seq<real>)
    ensures |series| == (if ttv >= 0 then ttv + 1 else 0)
    ensures forall month :: 0 <= month < |series| ==>
              series[month] == RiskAtMonth(p, month, ttv, hCurrent, hTarget, mEcon, iai)
    ensures forall month :: 0 <= month < |series| ==>
              series[month] == App.SystematicRisk(p, Calc.HBaseTtv(month, ttv, hCurrent, hTarget), mEcon, iai)
    ensures ttv > 0 ==> series[0] == hCurrent * Modifier(p, mEcon, iai)
    ensures ttv >= 0 ==> series[ttv] == hTarget * Modifier(p, mEcon, iai)
  {
    series := [];
    var month := 0;
    while month <= ttv
      invariant 0 <= month <= (if ttv >= 0 then ttv + 1 else 0)
      invariant |series| == month
      invariant forall m :: 0 <= m < month ==> series[m] == RiskAtMonth(p, m, ttv, hCurrent, hTarget, mEcon, iai)
      invariant forall m :: 0 <= m < month ==>
                  series[m] == App.SystematicRisk(p, Calc.HBaseTtv(m, ttv, hCurrent, hTarget), mEcon, iai)
      decreases ttv + 1 - month
    {
      CrossVariant.TtvAgreement(month, ttv, hCurrent, hTarget);
      series := series + [RiskAtMonth(p, month, ttv, hCurrent, hTarget, mEcon, iai)];
      month := month + 1;
    }
  }

  /** With a non-negative modifier the series moves monotonically towards
      the target: it never rises month on month when the target hazard is
      the lower one, and never falls when it is the higher one. */
  lemma RiskAtMonthMonotone(p: AppDataUtils.Params, m1: int, m2: int, ttv: int, hCurrent: real, hTarget: real, mEcon: real, iai: real)
    requires ttv > 0 && m1 <= m2 && Modifier(p, mEcon, iai) >= 0.0
    ensures hTarget <= hCurrent ==>
              RiskAtMonth(p, m2, ttv, hCurrent, hTarget, mEcon, iai) <= RiskAtMonth(p, m1, ttv, hCurrent, hTarget, mEcon, iai)
    ensures hCurrent <= hTarget ==>
              RiskAtMonth(p, m1, ttv, hCurrent, hTarget, mEcon, iai) <= RiskAtMonth(p, m2, ttv, hCurrent, hTarget, mEcon, iai)
  {
    var h1 := App.TtvModifiedHBase(m1, ttv, hCurrent, hTarget);
    var h2 := App.TtvModifiedHBase(m2, ttv, hCurrent, hTarget);
    var mod := Modifier(p, mEcon, iai);
    App.TtvModifiedHBaseMonotone(m1, m2, ttv, hCurrent, hTarget);
    assert RiskAtMonth(p, m1, ttv, hCurrent, hTarget, mEcon, iai) == h1 * mod;
    assert RiskAtMonth(p, m2, ttv, hCurrent, hTarget, mEcon, iai) == h2 * mod;
    if hTarget <= hCurrent {
      MulMonotone(mod, h2, h1);
    } else {
      MulMonotone(mod, h1, h2);
    }
  }

  /** On the pages' slider range for both modifiers, with normalised
      weights, the series moves monotonically towards the target's risk. */
  lemma SliderRangeMovesTowardTarget(p: AppDataUtils.Params, m1: int, m2: int, ttv: int, hCurrent: real, hTarget: real, mEcon: real, iai: real)
    requires p.wEcon >= 0.0 && p.wInno >= 0.0 && p.wEcon + p.wInno == 1.0
    requires 0.8 <= mEcon <= 1.2 && 0.8 <= iai <= 1.2
    requires ttv > 0 && m1 <= m2
    ensures hTarget <= hCurrent ==>
              RiskAtMonth(p, m2, ttv, hCurrent, hTarget, mEcon, iai) <= RiskAtMonth(p, m1, ttv, hCurrent, hTarget, mEcon, iai)
    ensures hCurrent <= hTarget ==>
              RiskAtMonth(p, m1, ttv, hCurrent, hTarget, mEcon, iai) <= RiskAtMonth(p, m2, ttv, hCurrent, hTarget, mEcon, iai)
  {
    ModifierBounds(p, mEcon, iai, 0.8, 1.2);
    RiskAtMonthMonotone(p, m1, m2, ttv, hCurrent, hTarget, mEcon, iai);
  }
}
