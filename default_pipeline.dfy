/** The pipeline properties instantiated on the shipped default tables and
    parameter bundles: each variant's chain with its own data module. */
module DefaultPipeline {
  import opened RealArith
  import AppDataUtils
  import DataUtils
  import Calc = Calculations
  import App = AppCalculations

  // ----- the global-params variant with application_pages/data_utils.py -----

  /** Under the default decay and cap the 0.1 floor of the experience factor
      never activates, and the factor lies in [0.7, 1] for any experience. */
  lemma AppDefaultFExp(years: int)
    requires years >= 0
    ensures 0.7 <= App.FExp(AppDataUtils.LoadDefaultParameters(), years) <= 1.0
    ensures App.FExp(AppDataUtils.LoadDefaultParameters(), years)
            == 1.0 - 0.015 * MinInt(years, 20) as real
  {
    var p := AppDataUtils.LoadDefaultParameters();
    App.FExpFloorInactive(p, years);
  }

  /** Every job of the table with any education level, field and school tier
      from the tables has a strictly positive human capital factor. */
  lemma AppDefaultFhcPositive(job: int, level: string, field: string, tier: string, years: int)
    requires 0 <= job < |AppDataUtils.LoadJobData().titles|
    requires level in AppDataUtils.LoadEducationData().0
    requires field in AppDataUtils.LoadEducationData().1
    requires tier in AppDataUtils.LoadSchoolTierData()
    requires years >= 0
    ensures App.Fhc(AppDataUtils.LoadJobData().fRole[job], AppDataUtils.LoadEducationData().0[level],
                    AppDataUtils.LoadEducationData().1[field], AppDataUtils.LoadSchoolTierData()[tier],
                    App.FExp(AppDataUtils.LoadDefaultParameters(), years)) > 0.0
  {
    var t := AppDataUtils.LoadJobData();
    var edu := AppDataUtils.LoadEducationData();
    var tiers := AppDataUtils.LoadSchoolTierData();
    AppDefaultFExp(years);
    App.FhcPositive(t.fRole[job], edu.0[level], edu.1[field], tiers[tier],
                    App.FExp(AppDataUtils.LoadDefaultParameters(), years));
  }

  /** The weights the company factor falls back to are the defaults' weights. */
  lemma AppDefaultFcrWeights()
    ensures AppDataUtils.LoadDefaultParameters().w1Fcr == App.DefaultW1
    ensures AppDataUtils.LoadDefaultParameters().w2Fcr == App.DefaultW2
    ensures AppDataUtils.LoadDefaultParameters().w3Fcr == App.DefaultW3
  {
  }

  /** With a table hazard and both modifiers in [0.8, 1.2] the default
      systematic risk lies in [0, 120]. */
  lemma AppDefaultSystematicRange(job: int, mEcon: real, iai: real)
    requires 0 <= job < |AppDataUtils.LoadJobData().hBase|
    requires 0.8 <= mEcon <= 1.2 && 0.8 <= iai <= 1.2
    ensures 0.0 <= App.SystematicRisk(AppDataUtils.LoadDefaultParameters(), AppDataUtils.LoadJobData().hBase[job], mEcon, iai) <= 120.0
  {
    var p := AppDataUtils.LoadDefaultParameters();
    var hb := AppDataUtils.LoadJobData().hBase[job];
    var m := p.wEcon * mEcon + p.wInno * iai;
    assert 0.8 <= m <= 1.2;
    NonNegProduct(hb, m);
    MulMonotone(m, hb, 100.0);
    assert App.SystematicRisk(p, hb, mEcon, iai) == hb * m;
  }

  /** For such a systematic risk and any raw idiosyncratic score, the default
      betas keep the annual claim probability within [0, 0.06]. */
  lemma AppDefaultClaimBound(hI: real, vRaw: real)
    requires 0.0 <= hI <= 120.0
    ensures 0.0 <= App.PClaim(App.PSystemic(AppDataUtils.LoadDefaultParameters(), hI),
                              App.PIndividualSystemic(AppDataUtils.LoadDefaultParameters(), App.IdiosyncraticRisk(vRaw))) <= 0.06
  {
    var p := AppDataUtils.LoadDefaultParameters();
    var v := App.IdiosyncraticRisk(vRaw);
    var rawS := (hI / 100.0) * p.betaSystemic;
    var rawI := (v / 100.0) * p.betaIndividual;
    assert p.betaSystemic == 0.10 && p.betaIndividual == 0.50;
    assert 0.0 <= rawS <= 0.12;
    assert 0.0 <= rawI <= 0.5;
    var ps := App.PSystemic(p, hI);
    var pi := App.PIndividualSystemic(p, v);
    assert ps == rawS && pi == rawI;
    App.PClaimOfProbabilities(ps, pi);
    ProductBound(ps, pi, 0.12, 0.5);
  }

  /** The default premium is never below 20, is exactly 20 for every expected
      loss up to 160, and otherwise is the loaded monthly loss. */
  lemma AppDefaultPremium(eLoss: real)
    ensures App.PMonthly(AppDataUtils.LoadDefaultParameters(), eLoss) >= 20.0
    ensures App.PMonthly(AppDataUtils.LoadDefaultParameters(), eLoss) == 20.0 <==> eLoss <= 160.0
    ensures eLoss > 160.0 ==> App.PMonthly(AppDataUtils.LoadDefaultParameters(), eLoss) == eLoss * 1.5 / 12.0
  {
  }

  // ----- the parameter-passing variant with data_utils.py -----

  /** The default decay and cap keep the unfloored experience factor in
      [0.7, 1] for any experience, so it is always positive. */
  lemma DataDefaultFExp(years: int)
    requires years >= 0
    ensures 0.7 <= Calc.FExp(years, DataUtils.LoadActuarialParameters().decayConstantA,
                             DataUtils.LoadActuarialParameters().yearsCapY) <= 1.0
  {
  }

  /** Every job of the table with any education level, field and school tier
      from the tables has a strictly positive human capital factor. */
  lemma DataDefaultFhcPositive(job: int, level: string, field: string, tier: string, years: int)
    requires 0 <= job < |DataUtils.LoadJobData().titles|
    requires level in DataUtils.LoadHumanCapitalFactors().0
    requires field in DataUtils.LoadHumanCapitalFactors().1
    requires tier in DataUtils.LoadHumanCapitalFactors().2
    requires years >= 0
    ensures Calc.Fhc(DataUtils.LoadJobData().fRoleMultiplier[job], DataUtils.LoadHumanCapitalFactors().0[level],
                     DataUtils.LoadHumanCapitalFactors().1[field], DataUtils.LoadHumanCapitalFactors().2[tier],
                     Calc.FExp(years, DataUtils.LoadActuarialParameters().decayConstantA,
                               DataUtils.LoadActuarialParameters().yearsCapY)) > 0.0
  {
    var t := DataUtils.LoadJobData();
    var hc := DataUtils.LoadHumanCapitalFactors();
    var a := DataUtils.LoadActuarialParameters();
    DataDefaultFExp(years);
    Calc.FhcPositive(t.fRoleMultiplier[job], hc.0[level], hc.1[field], hc.2[tier],
                     Calc.FExp(years, a.decayConstantA, a.yearsCapY));
  }

  /** For every company type the default company factor lies between the
      smallest and the largest of its three scores, and so is positive. */
  lemma DataDefaultFcrBetween(company: string)
    requires company in DataUtils.LoadCompanyRiskFactors()
    ensures var s := DataUtils.LoadCompanyRiskFactors()[company];
            var w := DataUtils.LoadWeights();
            var f := Calc.Fcr(s.sSenti, s.sFin, s.sGrowth, w.w1Fcr, w.w2Fcr, w.w3Fcr);
            Min(s.sSenti, Min(s.sFin, s.sGrowth)) <= f <= Max(s.sSenti, Max(s.sFin, s.sGrowth)) && f > 0.0
  {
    var s := DataUtils.LoadCompanyRiskFactors()[company];
    var w := DataUtils.LoadWeights();
    Calc.FcrBetweenScores(s.sSenti, s.sFin, s.sGrowth, w.w1Fcr, w.w2Fcr, w.w3Fcr);
  }

  /** With progress fractions in [0, 1] the default upskilling factor lies in
      [0, 1]: the unfloored factor does not go negative under these weights,
      and it reaches 0 when both tracks are complete. */
  lemma DataDefaultFusRange(pGenT: real, pSpecT: real)
    requires 0.0 <= pGenT <= 1.0 && 0.0 <= pSpecT <= 1.0
    ensures 0.0 <= Calc.Fus(pGenT, pSpecT, DataUtils.LoadWeights().gammaGen, DataUtils.LoadWeights().gammaSpec) <= 1.0
    ensures pGenT == 1.0 && pSpecT == 1.0 ==>
              Calc.Fus(pGenT, pSpecT, DataUtils.LoadWeights().gammaGen, DataUtils.LoadWeights().gammaSpec) == 0.0
  {
    var w := DataUtils.LoadWeights();
    Calc.FusAtMostOne(pGenT, pSpecT, w.gammaGen, w.gammaSpec);
    Calc.FusNonNegative(pGenT, pSpecT, w.gammaGen, w.gammaSpec);
  }

  /** The default premium of this variant is never below 20 for any expected
      loss, and is exactly 20 up to an expected loss of 160. */
  lemma DataDefaultPremium(eLoss: real)
    ensures Calc.MonthlyPremium(eLoss, DataUtils.LoadActuarialParameters().lambdaLoadingFactor,
                                DataUtils.LoadActuarialParameters().pMinMonthly) >= 20.0
    ensures (Calc.MonthlyPremium(eLoss, DataUtils.LoadActuarialParameters().lambdaLoadingFactor,
                                 DataUtils.LoadActuarialParameters().pMinMonthly) == 20.0) <==> eLoss <= 160.0
  {
  }
}
