/** The global-params variant of the risk-and-premium pipeline
    (application_pages/calculations.py), with its module-level parameter
    bundle made an explicit `Params` argument. Unlike the parameter-passing
    variant it floors the experience and upskilling factors at 0.1, takes
    training progress in percent, clips the raw idiosyncratic score to
    [5, 100] with no offset, caps the elapsed months with `min`, and clips
    every probability to [0, 1]. */
module AppCalculations {
  import opened RealArith
  import opened Lerp
  import opened AppDataUtils

  /** The smallest value the experience and upskilling factors may take. */
  const FactorFloor: real := 0.1

  /** Experience factor `max(0.1, 1 - a·min(years, Y_cap))`. */
  function FExp(p: Params, yearsExperience: int): (f: real)
    ensures f >= FactorFloor
  {
    Max(FactorFloor, 1.0 - p.aDecay * MinInt(yearsExperience, p.yCap) as real)
  }

  /** No experience leaves the factor at 1 (for a non-negative cap). */
  lemma FExpAtZero(p: Params)
    requires p.yCap >= 0
    ensures FExp(p, 0) == 1.0
  {
  }

  /** When `a·Y_cap <= 0.9` the floor never activates: the factor is exactly
      `1 - a·min(years, Y_cap)`. */
  lemma FExpFloorInactive(p: Params, yearsExperience: int)
    requires p.aDecay >= 0.0 && p.aDecay * p.yCap as real <= 0.9
    ensures FExp(p, yearsExperience) == 1.0 - p.aDecay * MinInt(yearsExperience, p.yCap) as real
  {
    MulMonotone(p.aDecay, MinInt(yearsExperience, p.yCap) as real, p.yCap as real);
  }

  /** Human capital factor: the product of the five multiplicative factors. */
  function Fhc(fRole: real, fLevel: real, fField: real, fSchool: real, fExp: real): real
  {
    fRole * fLevel * fField * fSchool * fExp
  }

  /** Positive factors give a strictly positive human capital factor. */
  lemma FhcPositive(fRole: real, fLevel: real, fField: real, fSchool: real, fExp: real)
    requires fRole > 0.0 && fLevel > 0.0 && fField > 0.0 && fSchool > 0.0 && fExp > 0.0
    ensures Fhc(fRole, fLevel, fField, fSchool, fExp) > 0.0
  {
    PosProduct(fRole, fLevel);
    PosProduct(fRole * fLevel, fField);
    PosProduct(fRole * fLevel * fField, fSchool);
    PosProduct(fRole * fLevel * fField * fSchool, fExp);
  }

  /** Company risk factor: the weighted sum of the three sub-scores. */
  function Fcr(sSenti: real, sFin: real, sGrowth: real, w1: real, w2: real, w3: real): real
  {
    w1 * sSenti + w2 * sFin + w3 * sGrowth
  }

  /** The weights the source uses when a caller gives none. */
  const DefaultW1: real := 0.33
  const DefaultW2: real := 0.33
  const DefaultW3: real := 0.34

  /** The company risk factor with its default weights. */
  function FcrDefault(sSenti: real, sFin: real, sGrowth: real): real
  {
    Fcr(sSenti, sFin, sGrowth, DefaultW1, DefaultW2, DefaultW3)
  }

  /** The default weights sum to 1, so equal sub-scores give that score. */
  lemma FcrDefaultEqualScores(s: real)
    ensures DefaultW1 + DefaultW2 + DefaultW3 == 1.0
    ensures FcrDefault(s, s, s) == s
  {
    assert DefaultW1 * s + DefaultW2 * s + DefaultW3 * s == (DefaultW1 + DefaultW2 + DefaultW3) * s;
  }

  /** Upskilling factor `max(0.1, 1 - (γ_gen·P_gen/100 + γ_spec·P_spec/100))`
      with the progress values in percent. */
  function Fus(p: Params, pGen: real, pSpec: real): (f: real)
    ensures f >= FactorFloor
    ensures pGen == 0.0 && pSpec == 0.0 ==> f == 1.0
  {
    Max(FactorFloor, 1.0 - (p.gammaGen * (pGen / 100.0) + p.gammaSpec * (pSpec / 100.0)))
  }

  /** Non-negative weights and progress can only lower the factor. */
  lemma FusAtMostOne(p: Params, pGen: real, pSpec: real)
    requires p.gammaGen >= 0.0 && p.gammaSpec >= 0.0 && pGen >= 0.0 && pSpec >= 0.0
    ensures Fus(p, pGen, pSpec) <= 1.0
  {
    NonNegProduct(p.gammaGen, pGen / 100.0);
    NonNegProduct(p.gammaSpec, pSpec / 100.0);
  }

  /** Full progress on both tracks with weights summing to 1 would drive the
      factor to 0, so it lands exactly on the floor. */
  lemma FusFullProgress(p: Params)
    requires p.gammaGen + p.gammaSpec == 1.0
    ensures Fus(p, 100.0, 100.0) == FactorFloor
  {
  }

  /** Raw idiosyncratic risk `FHC·(w_CR·FCR + w_US·FUS)`. */
  function VRaw(p: Params, fhc: real, fcr: real, fus: real): real
  {
    fhc * (p.wCr * fcr + p.wUs * fus)
  }

  /** A non-negative human capital factor and weighted score give a
      non-negative raw risk. */
  lemma VRawNonNegative(p: Params, fhc: real, fcr: real, fus: real)
    requires fhc >= 0.0 && p.wCr * fcr + p.wUs * fus >= 0.0
    ensures VRaw(p, fhc, fcr, fus) >= 0.0
  {
    NonNegProduct(fhc, p.wCr * fcr + p.wUs * fus);
  }

  /** Idiosyncratic risk: the raw score clipped to [5, 100], with no offset.
      It is always on the published scale and leaves a score already on it
      unchanged. */
  function IdiosyncraticRisk(vRaw: real): (v: real)
    ensures 5.0 <= v <= 100.0
    ensures v == vRaw <==> 5.0 <= vRaw <= 100.0
    ensures vRaw <= 5.0 ==> v == 5.0
    ensures vRaw >= 100.0 ==> v == 100.0
  {
    Clip(vRaw, 5.0, 100.0)
  }

  lemma IdiosyncraticRiskMonotone(vRaw1: real, vRaw2: real)
    requires vRaw1 <= vRaw2
    ensures IdiosyncraticRisk(vRaw1) <= IdiosyncraticRisk(vRaw2)
  {
  }

  /** Time-to-Value base hazard after `k` of `ttv` months. A zero-length
      transition is complete from month 0 on; otherwise the elapsed months
      are capped at `ttv` and the hazard is the blend by `min(k, ttv) / ttv`. */
  function TtvModifiedHBase(kMonths: int, ttvMonths: int, hCurrent: real, hTarget: real): (h: real)
    ensures ttvMonths == 0 ==> h == (if kMonths >= 0 then hTarget else hCurrent)
    ensures ttvMonths > 0 && kMonths >= ttvMonths ==> h == hTarget
    ensures ttvMonths > 0 && kMonths == 0 ==> h == hCurrent
  {
    if ttvMonths == 0 then
      if kMonths >= 0 then hTarget else hCurrent
    else
      var kNorm := MinInt(kMonths, ttvMonths) as real / ttvMonths as real;
      BlendEndpoints(hCurrent, hTarget);
      Blend(kNorm, hCurrent, hTarget)
  }

  /** Within the transition the hazard lies between the two endpoints. */
  lemma TtvModifiedHBaseBetween(kMonths: int, ttvMonths: int, hCurrent: real, hTarget: real)
    requires ttvMonths > 0 && 0 <= kMonths <= ttvMonths
    ensures Min(hCurrent, hTarget) <= TtvModifiedHBase(kMonths, ttvMonths, hCurrent, hTarget) <= Max(hCurrent, hTarget)
  {
    FractionInUnit(kMonths, ttvMonths);
    BlendBetween(kMonths as real / ttvMonths as real, hCurrent, hTarget);
  }

  /** Without a change of hazard the interpolation is constant. */
  lemma TtvModifiedHBaseConstant(kMonths: int, ttvMonths: int, h: real)
    ensures TtvModifiedHBase(kMonths, ttvMonths, h, h) == h
  {
    if ttvMonths != 0 {
      BlendConstant(MinInt(kMonths, ttvMonths) as real / ttvMonths as real, h);
    }
  }

  /** For a positive transition length the hazard moves monotonically towards
      the target as months pass, and stays there once `k` is capped. */
  lemma TtvModifiedHBaseMonotone(k1: int, k2: int, ttvMonths: int, hCurrent: real, hTarget: real)
    requires ttvMonths > 0 && k1 <= k2
    ensures hTarget <= hCurrent ==> TtvModifiedHBase(k2, ttvMonths, hCurrent, hTarget) <= TtvModifiedHBase(k1, ttvMonths, hCurrent, hTarget)
    ensures hCurrent <= hTarget ==> TtvModifiedHBase(k1, ttvMonths, hCurrent, hTarget) <= TtvModifiedHBase(k2, ttvMonths, hCurrent, hTarget)
  {
    FractionMonotone(MinInt(k1, ttvMonths), MinInt(k2, ttvMonths), ttvMonths);
    BlendMonotone(MinInt(k1, ttvMonths) as real / ttvMonths as real, MinInt(k2, ttvMonths) as real / ttvMonths as real, hCurrent, hTarget);
  }

  /** Systematic risk `H_base·(w_econ·M_econ + w_inno·IAI)`. */
  function SystematicRisk(p: Params, hBaseT: real, mEcon: real, iai: real): real
  {
    hBaseT * (p.wEcon * mEcon + p.wInno * iai)
  }

  /** With weights summing to 1, neutral modifiers leave the hazard as it is. */
  lemma SystematicRiskNeutral(p: Params, hBaseT: real)
    requires p.wEcon + p.wInno == 1.0
    ensures SystematicRisk(p, hBaseT, 1.0, 1.0) == hBaseT
  {
  }

  /** Systemic event probability `(H_i / 100)·β_systemic`, clipped to [0, 1];
      the clip changes nothing when the product is already a probability. */
  function PSystemic(p: Params, hI: real): (q: real)
    ensures 0.0 <= q <= 1.0
    ensures 0.0 <= (hI / 100.0) * p.betaSystemic <= 1.0 ==> q == (hI / 100.0) * p.betaSystemic
  {
    Clip((hI / 100.0) * p.betaSystemic, 0.0, 1.0)
  }

  /** Conditional individual loss probability `(V_i(t) / 100)·β_individual`,
      clipped to [0, 1]. */
  function PIndividualSystemic(p: Params, vIT: real): (q: real)
    ensures 0.0 <= q <= 1.0
    ensures 0.0 <= (vIT / 100.0) * p.betaIndividual <= 1.0 ==> q == (vIT / 100.0) * p.betaIndividual
  {
    Clip((vIT / 100.0) * p.betaIndividual, 0.0, 1.0)
  }

  /** Annual claim probability: the product of the two, clipped to [0, 1]. */
  function PClaim(pSystemic: real, pIndividualSystemic: real): (q: real)
    ensures 0.0 <= q <= 1.0
  {
    Clip(pSystemic * pIndividualSystemic, 0.0, 1.0)
  }

  /** For two probabilities the clip is inactive: the claim probability is
      their plain product. */
  lemma PClaimOfProbabilities(pSystemic: real, pIndividualSystemic: real)
    requires 0.0 <= pSystemic <= 1.0 && 0.0 <= pIndividualSystemic <= 1.0
    ensures PClaim(pSystemic, pIndividualSystemic) == pSystemic * pIndividualSystemic
  {
    FractionOf(pSystemic, pIndividualSystemic);
  }

  /** Total payout `(salary / 12)·months·(percentage / 100)`. */
  function LPayout(annualSalary: real, coverageDurationMonths: int, coveragePercentage: real): real
  {
    (annualSalary / 12.0) * coverageDurationMonths as real * (coveragePercentage / 100.0)
  }

  /** Expected annual loss `P_claim·L_payout`. */
  function ELoss(pClaim: real, lPayout: real): real
  {
    pClaim * lPayout
  }

  /** A probability of a non-negative payout never expects more than the payout. */
  lemma ELossBounds(pClaim: real, lPayout: real)
    requires 0.0 <= pClaim <= 1.0 && lPayout >= 0.0
    ensures 0.0 <= ELoss(pClaim, lPayout) <= lPayout
  {
    FractionOf(pClaim, lPayout);
  }

  /** Monthly premium `max(E[Loss]·λ / 12, P_min)`: never below the minimum,
      and equal to it exactly when the loaded monthly loss does not exceed it. */
  function PMonthly(p: Params, eLoss: real): (q: real)
    ensures q >= p.pMin && q >= (eLoss * p.lambdaLoading) / 12.0
    ensures q == p.pMin <==> (eLoss * p.lambdaLoading) / 12.0 <= p.pMin
  {
    Max((eLoss * p.lambdaLoading) / 12.0, p.pMin)
  }

  /** With a non-negative loading the premium grows with the expected loss. */
  lemma PMonthlyMonotone(p: Params, eLoss1: real, eLoss2: real)
    requires eLoss1 <= eLoss2 && p.lambdaLoading >= 0.0
    ensures PMonthly(p, eLoss1) <= PMonthly(p, eLoss2)
  {
    MulMonotone(p.lambdaLoading, eLoss1, eLoss2);
  }
}
