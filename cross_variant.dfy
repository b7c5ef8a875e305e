/** Where the two copies of the pipeline agree and where they part: the
    parameter-passing variant (calculations.py) against the global-params
    variant (application_pages/calculations.py). */
module CrossVariant {
  import opened RealArith
  import opened Lerp
  import AppDataUtils
  import Calc = Calculations
  import App = AppCalculations

  /** The two Time-to-Value interpolations give the same hazard exactly when
      the transition has a length, the month is not negative, or there is no
      change of hazard: they part only for a zero-length transition queried
      at a negative month, where one pins the target and the other keeps the
      current hazard. */
  lemma TtvAgreement(k: int, ttv: int, hCurrent: real, hTarget: real)
    ensures Calc.HBaseTtv(k, ttv, hCurrent, hTarget) == App.TtvModifiedHBase(k, ttv, hCurrent, hTarget)
            <==> ttv != 0 || k >= 0 || hCurrent == hTarget
  {
    if ttv != 0 {
      if k >= ttv {
        assert MinInt(k, ttv) == ttv;
        FractionWhole(ttv);
        BlendEndpoints(hCurrent, hTarget);
        assert App.TtvModifiedHBase(k, ttv, hCurrent, hTarget) == Blend(1.0, hCurrent, hTarget);
      } else {
        assert MinInt(k, ttv) == k;
      }
    }
  }

  /** In particular they agree at every month of a transition of positive
      length, before, during and after it. */
  lemma TtvAgreementDuringTransition(k: int, ttv: int, hCurrent: real, hTarget: real)
    requires ttv > 0
    ensures Calc.HBaseTtv(k, ttv, hCurrent, hTarget) == App.TtvModifiedHBase(k, ttv, hCurrent, hTarget)
  {
    TtvAgreement(k, ttv, hCurrent, hTarget);
  }

  /** The percent-form upskilling factor is the fraction-form one, applied to
      the percentages divided by 100, and then floored at 0.1. */
  lemma FusPercentIsFlooredFraction(p: AppDataUtils.Params, pGen: real, pSpec: real)
    ensures App.Fus(p, pGen, pSpec) == Max(App.FactorFloor, Calc.Fus(pGen / 100.0, pSpec / 100.0, p.gammaGen, p.gammaSpec))
  {
    assert Calc.Fus(pGen / 100.0, pSpec / 100.0, p.gammaGen, p.gammaSpec)
        == 1.0 - (p.gammaGen * (pGen / 100.0) + p.gammaSpec * (pSpec / 100.0));
  }

  /** The floored experience factor is the unfloored one floored at 0.1, and
      under the defaults' bound `a·Y_cap <= 0.9` the two coincide. */
  lemma FExpIsFlooredFExp(p: AppDataUtils.Params, years: int)
    ensures App.FExp(p, years) == Max(App.FactorFloor, Calc.FExp(years, p.aDecay, p.yCap))
    ensures p.aDecay >= 0.0 && p.aDecay * p.yCap as real <= 0.9 ==> App.FExp(p, years) == Calc.FExp(years, p.aDecay, p.yCap)
  {
    if p.aDecay >= 0.0 && p.aDecay * p.yCap as real <= 0.9 {
      App.FExpFloorInactive(p, years);
    }
  }

  /** The parameter-passing variant's idiosyncratic risk is the other's,
      applied after subtracting the offset of 50. */
  lemma IdiosyncraticOffset(vRaw: real)
    ensures Calc.IdiosyncraticRisk(vRaw) == App.IdiosyncraticRisk(vRaw - 50.0)
  {
  }

  /** On raw scores in [55, 100] neither variant clips, so the two
      idiosyncratic risks differ by exactly the offset of 50. */
  lemma IdiosyncraticVariantsDiffer(vRaw: real)
    requires 55.0 <= vRaw <= 100.0
    ensures App.IdiosyncraticRisk(vRaw) - Calc.IdiosyncraticRisk(vRaw) == 50.0
  {
  }

  /** Both variants charge the same monthly premium for the same expected
      loss, loading and minimum. */
  lemma PremiumAgreement(p: AppDataUtils.Params, eLoss: real)
    ensures App.PMonthly(p, eLoss) == Calc.MonthlyPremium(eLoss, p.lambdaLoading, p.pMin)
  {
  }

  /** The two copies scale a base hazard by the same weighted modifier. */
  lemma SystematicRiskAgreement(p: AppDataUtils.Params, hBaseT: real, mEcon: real, iai: real)
    ensures App.SystematicRisk(p, hBaseT, mEcon, iai) == Calc.SystematicRisk(hBaseT, mEcon, iai, p.wEcon, p.wInno)
  {
  }

  /** So the bounds of the parameter-passing copy carry over: with weights
      summing to 1, equal modifiers scale the hazard by that modifier, and
      with non-negative weights and hazard the risk lies between the hazard
      scaled by the smaller and by the larger modifier. */
  lemma AppSystematicRiskBounds(p: AppDataUtils.Params, hBaseT: real, mEcon: real, iai: real)
    requires p.wEcon + p.wInno == 1.0
    ensures mEcon == iai ==> App.SystematicRisk(p, hBaseT, mEcon, iai) == hBaseT * mEcon
    ensures hBaseT >= 0.0 && p.wEcon >= 0.0 && p.wInno >= 0.0 ==>
              hBaseT * Min(mEcon, iai) <= App.SystematicRisk(p, hBaseT, mEcon, iai) <= hBaseT * Max(mEcon, iai)
  {
    SystematicRiskAgreement(p, hBaseT, mEcon, iai);
    Calc.SystematicRiskBounds(hBaseT, mEcon, iai, p.wEcon, p.wInno);
  }

  /** Both copies compute the same payout for the same request. */
  lemma PayoutAgreement(annualSalary: real, months: int, percentage: real)
    ensures App.LPayout(annualSalary, months, percentage) == Calc.LPayout(annualSalary, months, percentage)
  {
  }

  /** Both copies compute the same expected loss from the same claim
      probability and payout. */
  lemma ExpectedLossAgreement(pClaim: real, lPayout: real)
    ensures App.ELoss(pClaim, lPayout) == Calc.ExpectedLoss(pClaim, lPayout)
  {
  }

  /** With the hazard and risk on the 0-100 scale and probabilities for
      betas, none of the clips of the global-params copy activates: both
      copies compute the same systemic probability, the same individual
      probability and the same claim probability. */
  lemma ClaimProbabilityAgreement(p: AppDataUtils.Params, hI: real, vIT: real)
    requires 0.0 <= hI <= 100.0 && 0.0 <= vIT <= 100.0
    requires 0.0 <= p.betaSystemic <= 1.0 && 0.0 <= p.betaIndividual <= 1.0
    ensures App.PSystemic(p, hI) == Calc.PSystemic(hI, p.betaSystemic)
    ensures App.PIndividualSystemic(p, vIT) == Calc.PIndividualSystemic(vIT, p.betaIndividual)
    ensures App.PClaim(App.PSystemic(p, hI), App.PIndividualSystemic(p, vIT))
            == Calc.PClaim(Calc.PSystemic(hI, p.betaSystemic), Calc.PIndividualSystemic(vIT, p.betaIndividual))
  {
    Calc.ProbabilitiesInRange(hI, vIT, p.betaSystemic, p.betaIndividual);
    var ps := Calc.PSystemic(hI, p.betaSystemic);
    var pi := Calc.PIndividualSystemic(vIT, p.betaIndividual);
    assert App.PSystemic(p, hI) == ps;
    assert App.PIndividualSystemic(p, vIT) == pi;
    App.PClaimOfProbabilities(ps, pi);
  }

  /** The same agreement carried on through the expected loss of a payout to
      the monthly premium: under those conditions both copies charge the
      same premium for the same request. */
  lemma PremiumPipelineAgreement(p: AppDataUtils.Params, hI: real, vIT: real, annualSalary: real, months: int, percentage: real)
    requires 0.0 <= hI <= 100.0 && 0.0 <= vIT <= 100.0
    requires 0.0 <= p.betaSystemic <= 1.0 && 0.0 <= p.betaIndividual <= 1.0
    ensures App.ELoss(App.PClaim(App.PSystemic(p, hI), App.PIndividualSystemic(p, vIT)), App.LPayout(annualSalary, months, percentage))
            == Calc.ExpectedLoss(Calc.PClaim(Calc.PSystemic(hI, p.betaSystemic), Calc.PIndividualSystemic(vIT, p.betaIndividual)),
                                 Calc.LPayout(annualSalary, months, percentage))
    ensures App.PMonthly(p, App.ELoss(App.PClaim(App.PSystemic(p, hI), App.PIndividualSystemic(p, vIT)), App.LPayout(annualSalary, months, percentage)))
            == Calc.MonthlyPremium(Calc.ExpectedLoss(Calc.PClaim(Calc.PSystemic(hI, p.betaSystemic), Calc.PIndividualSystemic(vIT, p.betaIndividual)),
                                                     Calc.LPayout(annualSalary, months, percentage)), p.lambdaLoading, p.pMin)
  {
    ClaimProbabilityAgreement(p, hI, vIT);
    var claim := App.PClaim(App.PSystemic(p, hI), App.PIndividualSystemic(p, vIT));
    var payout := App.LPayout(annualSalary, months, percentage);
    PayoutAgreement(annualSalary, months, percentage);
    ExpectedLossAgreement(claim, payout);
    PremiumAgreement(p, App.ELoss(claim, payout));
  }
}
