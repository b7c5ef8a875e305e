/** The parameter-passing variant of the risk-and-premium pipeline
    (calculations.py): every weight and constant is an argument, the
    experience and upskilling factors are not floored, the idiosyncratic
    risk is shifted down by 50 before it is clamped to [5, 100], and the
    probabilities are plain products with no clamp. Numbers are `real`;
    years of experience and months are `int`. */
module Calculations {
  import opened RealArith
  import opened Lerp

  /** Experience factor `1 - a·min(years, Y_cap)`; no floor. */
  function FExp(yearsExperience: int, decayConstantA: real, yearsCapY: int): real
  {
    1.0 - decayConstantA * MinInt(yearsExperience, yearsCapY) as real
  }

  /** No experience leaves the factor at 1 (for a non-negative cap). */
  lemma FExpAtZero(decayConstantA: real, yearsCapY: int)
    requires yearsCapY >= 0
    ensures FExp(0, decayConstantA, yearsCapY) == 1.0
  {
  }

  /** From the cap on, more years change nothing: the factor is `1 - a·Y_cap`. */
  lemma FExpSaturates(yearsExperience: int, decayConstantA: real, yearsCapY: int)
    requires yearsExperience >= yearsCapY
    ensures FExp(yearsExperience, decayConstantA, yearsCapY) == 1.0 - decayConstantA * yearsCapY as real
  {
  }

  /** With a non-negative decay constant, experience never raises the factor,
      and it never falls below its saturated value `1 - a·Y_cap`. */
  lemma FExpMonotone(years1: int, years2: int, decayConstantA: real, yearsCapY: int)
    requires years1 <= years2 && decayConstantA >= 0.0
    ensures FExp(years2, decayConstantA, yearsCapY) <= FExp(years1, decayConstantA, yearsCapY)
    ensures FExp(years2, decayConstantA, yearsCapY) >= 1.0 - decayConstantA * yearsCapY as real
  {
    MulMonotone(decayConstantA, MinInt(years1, yearsCapY) as real, MinInt(years2, yearsCapY) as real);
    MulMonotone(decayConstantA, MinInt(years2, yearsCapY) as real, yearsCapY as real);
  }

  /** Human capital factor: the product of the five multiplicative factors. */
  function Fhc(fRole: real, fLevel: real, fField: real, fSchool: real, fExp: real): real
  {
    fRole * fLevel * fField * fSchool * fExp
  }

  /** Positive factors give a strictly positive human capital factor. */
  lemma FhcPositive(fRole: real, fLevel: real, fField: real, fSchool: real, fExp: real)
    requires fRole > 0.0 && fLevel > 0.0 && fField > 0.0 && fSchool > 0.0 && fExp > 0.0
    ensures Fhc(fRole, fLevel, fField, fSchool, fExp) > 0.0
  {
    PosProduct(fRole, fLevel);
    PosProduct(fRole * fLevel, fField);
    PosProduct(fRole * fLevel * fField, fSchool);
    PosProduct(fRole * fLevel * fField * fSchool, fExp);
  }

  /** Company risk factor: the weighted sum of the three sub-scores. */
  function Fcr(sSenti: real, sFin: real, sGrowth: real, w1: real, w2: real, w3: real): real
  {
    w1 * sSenti + w2 * sFin + w3 * sGrowth
  }

  /** Weights summing to 1 turn three equal sub-scores into that score. */
  lemma FcrEqualScores(s: real, w1: real, w2: real, w3: real)
    requires w1 + w2 + w3 == 1.0
    ensures Fcr(s, s, s, w1, w2, w3) == s
  {
    assert w1 * s + w2 * s + w3 * s == (w1 + w2 + w3) * s;
  }

  /** With non-negative weights summing to 1 the factor is an average: it lies
      between the smallest and the largest sub-score. */
  lemma FcrBetweenScores(sSenti: real, sFin: real, sGrowth: real, w1: real, w2: real, w3: real)
    requires w1 >= 0.0 && w2 >= 0.0 && w3 >= 0.0 && w1 + w2 + w3 == 1.0
    ensures Min(sSenti, Min(sFin, sGrowth)) <= Fcr(sSenti, sFin, sGrowth, w1, w2, w3)
    ensures Fcr(sSenti, sFin, sGrowth, w1, w2, w3) <= Max(sSenti, Max(sFin, sGrowth))
  {
    var lo := Min(sSenti, Min(sFin, sGrowth));
    var hi := Max(sSenti, Max(sFin, sGrowth));
    assert lo <= sSenti <= hi && lo <= sFin <= hi && lo <= sGrowth <= hi;
    WeightedSumBounds(sSenti, sFin, sGrowth, w1, w2, w3, lo, hi);
  }

  /** Upskilling factor `1 - (γ_gen·P_gen + γ_spec·P_spec)` with the
      progress values as fractions; no floor. */
  function Fus(pGenT: real, pSpecT: real, gammaGen: real, gammaSpec: real): real
  {
    1.0 - (gammaGen * pGenT + gammaSpec * pSpecT)
  }

  /** No training progress leaves the factor at 1. */
  lemma FusNoProgress(gammaGen: real, gammaSpec: real)
    ensures Fus(0.0, 0.0, gammaGen, gammaSpec) == 1.0
  {
  }

  /** Non-negative weights and progress can only lower the factor. */
  lemma FusAtMostOne(pGenT: real, pSpecT: real, gammaGen: real, gammaSpec: real)
    requires gammaGen >= 0.0 && gammaSpec >= 0.0 && pGenT >= 0.0 && pSpecT >= 0.0
    ensures Fus(pGenT, pSpecT, gammaGen, gammaSpec) <= 1.0
  {
    NonNegProduct(gammaGen, pGenT);
    NonNegProduct(gammaSpec, pSpecT);
  }

  /** With non-negative weights and progress fractions at most 1, the factor
      is at least `1 - (γ_gen + γ_spec)`. */
  lemma FusLowerBound(pGenT: real, pSpecT: real, gammaGen: real, gammaSpec: real)
    requires gammaGen >= 0.0 && gammaSpec >= 0.0 && pGenT <= 1.0 && pSpecT <= 1.0
    ensures Fus(pGenT, pSpecT, gammaGen, gammaSpec) >= 1.0 - (gammaGen + gammaSpec)
  {
    MulMonotone(gammaGen, pGenT, 1.0);
    MulMonotone(gammaSpec, pSpecT, 1.0);
    assert gammaGen * pGenT + gammaSpec * pSpecT <= gammaGen * 1.0 + gammaSpec * 1.0;
  }

  /** So with weights summing to 1 the unfloored factor never goes negative. */
  lemma FusNonNegative(pGenT: real, pSpecT: real, gammaGen: real, gammaSpec: real)
    requires gammaGen >= 0.0 && gammaSpec >= 0.0 && gammaGen + gammaSpec == 1.0
    requires pGenT <= 1.0 && pSpecT <= 1.0
    ensures Fus(pGenT, pSpecT, gammaGen, gammaSpec) >= 0.0
  {
    FusLowerBound(pGenT, pSpecT, gammaGen, gammaSpec);
  }

  /** Raw idiosyncratic risk `FHC·(w_CR·FCR + w_US·FUS)`. */
  function VRaw(fhc: real, fcr: real, fus: real, wCr: real, wUs: real): real
  {
    fhc * (wCr * fcr + wUs * fus)
  }

  /** A non-negative human capital factor and weighted score give a
      non-negative raw risk; when company and upskilling factors agree and the
      weights sum to 1, the raw risk is the human capital factor times it. */
  lemma VRawFacts(fhc: real, fcr: real, fus: real, wCr: real, wUs: real)
    ensures fhc >= 0.0 && wCr * fcr + wUs * fus >= 0.0 ==> VRaw(fhc, fcr, fus, wCr, wUs) >= 0.0
    ensures wCr + wUs == 1.0 && fcr == fus ==> VRaw(fhc, fcr, fus, wCr, wUs) == fhc * fcr
  {
    if fhc >= 0.0 && wCr * fcr + wUs * fus >= 0.0 {
      NonNegProduct(fhc, wCr * fcr + wUs * fus);
    }
    if wCr + wUs == 1.0 && fcr == fus {
      assert wCr * fcr + wUs * fus == (wCr + wUs) * fcr;
    }
  }

  /** Idiosyncratic risk `min(100, max(5, V_raw - 50))`. It is always on the
      published [5, 100] scale and is the shifted score exactly when that
      shifted score is already on it. */
  function IdiosyncraticRisk(vRaw: real): (v: real)
    ensures 5.0 <= v <= 100.0
    ensures v == vRaw - 50.0 <==> 55.0 <= vRaw <= 150.0
    ensures vRaw <= 55.0 ==> v == 5.0
    ensures vRaw >= 150.0 ==> v == 100.0
  {
    Min(100.0, Max(5.0, vRaw - 50.0))
  }

  lemma IdiosyncraticRiskMonotone(vRaw1: real, vRaw2: real)
    requires vRaw1 <= vRaw2
    ensures IdiosyncraticRisk(vRaw1) <= IdiosyncraticRisk(vRaw2)
  {
  }

  /** Time-to-Value base hazard after `k` of `ttv` months: the target once
      the transition is over (or instantaneous), otherwise the linear blend
      of current and target by `k / ttv`. */
  function HBaseTtv(k: int, ttv: int, hCurrent: real, hTarget: real): (h: real)
    ensures ttv == 0 || k >= ttv ==> h == hTarget
    ensures ttv > 0 && k == 0 ==> h == hCurrent
  {
    if ttv == 0 then
      hTarget
    else if k >= ttv then
      hTarget
    else
      Blend(k as real / ttv as real, hCurrent, hTarget)
  }

  /** Within the transition the hazard lies between the two endpoints. */
  lemma HBaseTtvBetween(k: int, ttv: int, hCurrent: real, hTarget: real)
    requires ttv > 0 && 0 <= k <= ttv
    ensures Min(hCurrent, hTarget) <= HBaseTtv(k, ttv, hCurrent, hTarget) <= Max(hCurrent, hTarget)
  {
    if k < ttv {
      FractionInUnit(k, ttv);
      BlendBetween(k as real / ttv as real, hCurrent, hTarget);
    }
  }

  /** Without a change of hazard there is nothing to interpolate. */
  lemma HBaseTtvConstant(k: int, ttv: int, h: real)
    ensures HBaseTtv(k, ttv, h, h) == h
  {
    if ttv != 0 {
      BlendConstant(k as real / ttv as real, h);
    }
  }

  /** For a positive transition length the hazard moves monotonically towards
      the target as months pass, and then stays there. */
  lemma HBaseTtvMonotone(k1: int, k2: int, ttv: int, hCurrent: real, hTarget: real)
    requires ttv > 0 && k1 <= k2
    ensures hTarget <= hCurrent ==> HBaseTtv(k2, ttv, hCurrent, hTarget) <= HBaseTtv(k1, ttv, hCurrent, hTarget)
    ensures hCurrent <= hTarget ==> HBaseTtv(k1, ttv, hCurrent, hTarget) <= HBaseTtv(k2, ttv, hCurrent, hTarget)
  {
    var t1 := MinInt(k1, ttv) as real / ttv as real;
    var t2 := MinInt(k2, ttv) as real / ttv as real;
    FractionMonotone(MinInt(k1, ttv), MinInt(k2, ttv), ttv);
    BlendMonotone(t1, t2, hCurrent, hTarget);
    BlendEndpoints(hCurrent, hTarget);
    assert HBaseTtv(k1, ttv, hCurrent, hTarget) == Blend(t1, hCurrent, hTarget);
    assert HBaseTtv(k2, ttv, hCurrent, hTarget) == Blend(t2, hCurrent, hTarget);
  }

  /** Systematic risk `H_base·(w_econ·M_econ + w_inno·IAI)`. */
  function SystematicRisk(hBaseT: real, mEcon: real, iai: real, wEcon: real, wInno: real): real
  {
    hBaseT * (wEcon * mEcon + wInno * iai)
  }

  /** With weights summing to 1, equal modifiers scale the base hazard by that
      modifier; with non-negative weights and hazard the risk lies between the
      hazard scaled by the smaller and by the larger modifier. */
  lemma SystematicRiskBounds(hBaseT: real, mEcon: real, iai: real, wEcon: real, wInno: real)
    requires wEcon + wInno == 1.0
    ensures mEcon == iai ==> SystematicRisk(hBaseT, mEcon, iai, wEcon, wInno) == hBaseT * mEcon
    ensures hBaseT >= 0.0 && wEcon >= 0.0 && wInno >= 0.0 ==>
              hBaseT * Min(mEcon, iai) <= SystematicRisk(hBaseT, mEcon, iai, wEcon, wInno) <= hBaseT * Max(mEcon, iai)
  {
    var m := wEcon * mEcon + wInno * iai;
    assert m == Blend(wInno, mEcon, iai);
    BlendConstant(wInno, mEcon);
    if hBaseT >= 0.0 && wEcon >= 0.0 && wInno >= 0.0 {
      BlendBetween(wInno, mEcon, iai);
      MulMonotone(hBaseT, Min(mEcon, iai), m);
      MulMonotone(hBaseT, m, Max(mEcon, iai));
    }
  }

  /** Systemic event probability `(H_i / 100)·β_systemic`, unclamped. */
  function PSystemic(hI: real, betaSystemic: real): real
  {
    (hI / 100.0) * betaSystemic
  }

  /** Conditional individual loss probability `(V_i(t) / 100)·β_individual`, unclamped. */
  function PIndividualSystemic(vIT: real, betaIndividual: real): real
  {
    (vIT / 100.0) * betaIndividual
  }

  /** Annual claim probability: the product of the two, unclamped. */
  function PClaim(pSystemic: real, pIndividualSystemic: real): real
  {
    pSystemic * pIndividualSystemic
  }

  /** Two probabilities multiply to a probability no larger than either. */
  lemma ClaimBelowFactors(pSystemic: real, pIndividualSystemic: real)
    requires 0.0 <= pSystemic <= 1.0 && 0.0 <= pIndividualSystemic <= 1.0
    ensures 0.0 <= PClaim(pSystemic, pIndividualSystemic) <= pSystemic
    ensures PClaim(pSystemic, pIndividualSystemic) <= pIndividualSystemic
  {
    FractionOf(pIndividualSystemic, pSystemic);
    FractionOf(pSystemic, pIndividualSystemic);
  }

  /** For scores on [0, 100] and betas on [0, 1] the three unclamped
      probabilities are probabilities, each at most its beta, and the claim
      probability is at most either of its factors. */
  lemma ProbabilitiesInRange(hI: real, vIT: real, betaSystemic: real, betaIndividual: real)
    requires 0.0 <= hI <= 100.0 && 0.0 <= vIT <= 100.0
    requires 0.0 <= betaSystemic <= 1.0 && 0.0 <= betaIndividual <= 1.0
    ensures 0.0 <= PSystemic(hI, betaSystemic) <= betaSystemic
    ensures 0.0 <= PIndividualSystemic(vIT, betaIndividual) <= betaIndividual
    ensures 0.0 <= PClaim(PSystemic(hI, betaSystemic), PIndividualSystemic(vIT, betaIndividual))
    ensures PClaim(PSystemic(hI, betaSystemic), PIndividualSystemic(vIT, betaIndividual)) <= PSystemic(hI, betaSystemic)
    ensures PClaim(PSystemic(hI, betaSystemic), PIndividualSystemic(vIT, betaIndividual))
              <= PIndividualSystemic(vIT, betaIndividual)
  {
    FractionOf(hI / 100.0, betaSystemic);
    FractionOf(vIT / 100.0, betaIndividual);
    ClaimBelowFactors(PSystemic(hI, betaSystemic), PIndividualSystemic(vIT, betaIndividual));
  }

  /** Total payout `(salary / 12)·months·(percentage / 100)`. */
  function LPayout(annualSalary: real, coverageDurationMonths: int, coveragePercentage: real): real
  {
    (annualSalary / 12.0) * coverageDurationMonths as real * (coveragePercentage / 100.0)
  }

  /** A valid request pays between nothing and the full salary over the
      covered months, and full coverage pays exactly that. */
  lemma LPayoutBounds(annualSalary: real, coverageDurationMonths: int, coveragePercentage: real)
    requires annualSalary >= 0.0 && coverageDurationMonths >= 0 && 0.0 <= coveragePercentage <= 100.0
    ensures 0.0 <= LPayout(annualSalary, coverageDurationMonths, coveragePercentage)
              <= (annualSalary / 12.0) * coverageDurationMonths as real
    ensures coveragePercentage == 100.0 ==>
              LPayout(annualSalary, coverageDurationMonths, coveragePercentage) == (annualSalary / 12.0) * coverageDurationMonths as real
  {
    var full := (annualSalary / 12.0) * coverageDurationMonths as real;
    NonNegProduct(annualSalary / 12.0, coverageDurationMonths as real);
    FractionOf(coveragePercentage / 100.0, full);
    assert LPayout(annualSalary, coverageDurationMonths, coveragePercentage) == full * (coveragePercentage / 100.0);
    assert full * (coveragePercentage / 100.0) <= full;
    assert LPayout(annualSalary, coverageDurationMonths, coveragePercentage) <= full;
  }

  /** Expected annual loss `P_claim·L_payout`. */
  function ExpectedLoss(pClaim: real, lPayout: real): real
  {
    pClaim * lPayout
  }

  /** A probability of a non-negative payout never expects more than the payout. */
  lemma ExpectedLossBounds(pClaim: real, lPayout: real)
    requires 0.0 <= pClaim <= 1.0 && lPayout >= 0.0
    ensures 0.0 <= ExpectedLoss(pClaim, lPayout) <= lPayout
  {
    FractionOf(pClaim, lPayout);
  }

  /** Monthly premium `max(E[Loss]·λ / 12, P_min)`: never below the minimum or
      the loaded monthly loss, and equal to the minimum exactly when the
      loaded monthly loss does not exceed it. */
  function MonthlyPremium(eLoss: real, loadingFactor: real, pMin: real): (p: real)
    ensures p >= pMin && p >= (eLoss * loadingFactor) / 12.0
    ensures p == pMin <==> (eLoss * loadingFactor) / 12.0 <= pMin
  {
    Max((eLoss * loadingFactor) / 12.0, pMin)
  }

  /** With a non-negative loading the premium grows with the expected loss. */
  lemma MonthlyPremiumMonotone(eLoss1: real, eLoss2: real, loadingFactor: real, pMin: real)
    requires eLoss1 <= eLoss2 && loadingFactor >= 0.0
    ensures MonthlyPremium(eLoss1, loadingFactor, pMin) <= MonthlyPremium(eLoss2, loadingFactor, pMin)
  {
    MulMonotone(loadingFactor, eLoss1, eLoss2);
  }

  // Worked scenarios, each as a lemma about this variant.

  /** Neutral factors and no experience give `f_exp = 1`, `FHC = 1` and
      `V_raw = 1`, ... */
  lemma ScenarioNeutralFactors()
    ensures FExp(0, 0.015, 20) == 1.0
    ensures Fhc(1.0, 1.0, 1.0, 1.0, 1.0) == 1.0
    ensures VRaw(1.0, 1.0, 1.0, 0.4, 0.6) == 1.0
  {
  }

  /** ... and so the floor of the risk scale: `clamp(1 - 50, 5, 100) = 5`. */
  lemma ScenarioNeutralRisk()
    ensures IdiosyncraticRisk(1.0) == 5.0
  {
  }

  /** Half-way from 80 to 20 over ten months is 50; at month ten it is 20. */
  lemma ScenarioHalfwayTransition()
    ensures HBaseTtv(5, 10, 80.0, 20.0) == 50.0
    ensures HBaseTtv(10, 10, 80.0, 20.0) == 20.0
  {
  }

  /** A salary of 90000 covered at 25% for six months pays 11250; no expected
      loss at loading 1.5 costs the minimum premium of 20. */
  lemma ScenarioPayoutAndFloor()
    ensures LPayout(90000.0, 6, 25.0) == 11250.0
    ensures MonthlyPremium(0.0, 1.5, 20.0) == 20.0
  {
  }
}
