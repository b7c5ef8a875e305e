/** The reference data of the parameter-passing variant (data_utils.py): the
    job catalogue indexed by title, the human capital factor tables, the
    company risk sub-scores, the actuarial parameters and the weights. Every
    loader returns a constant; each carries the validity facts the pipeline
    relies on. */
module DataUtils {

  /** The job catalogue as its three parallel columns; the titles are the
      index of the table, so they must be distinct. */
  datatype JobTable = JobTable(titles: seq<string>, baseAiHazard: seq<real>, fRoleMultiplier: seq<real>)

  /** The columns line up, titles identify rows, hazards are on the [0, 100]
      scale and role multipliers are strictly positive. */
  ghost predicate ValidJobTable(t: JobTable)
  {
    && |t.baseAiHazard| == |t.titles| && |t.fRoleMultiplier| == |t.titles|
    && (forall i, j :: 0 <= i < j < |t.titles| ==> t.titles[i] != t.titles[j])
    && (forall i :: 0 <= i < |t.baseAiHazard| ==> 0.0 <= t.baseAiHazard[i] <= 100.0)
    && (forall i :: 0 <= i < |t.fRoleMultiplier| ==> t.fRoleMultiplier[i] > 0.0)
  }

  /** Every factor of a lookup table is strictly positive. */
  ghost predicate PositiveFactors(m: map<string, real>)
  {
    forall k :: k in m ==> m[k] > 0.0
  }

  const JobTitles: seq<string> :=
    ["Data Scientist", "Software Engineer", "Marketing Manager",
     "Financial Analyst", "HR Specialist", "Customer Service Rep",
     "Truck Driver", "Accountant", "Registered Nurse", "Teacher",
     "AI Engineer", "Machine Learning Scientist", "Cloud Architect",
     "Business Analyst", "Operations Manager", "Graphic Designer",
     "Sales Representative", "Journalist", "Legal Assistant", "Pharmacist"]
  const JobBaseAiHazards: seq<real> :=
    [85.0, 75.0, 55.0, 65.0, 45.0, 90.0, 70.0, 80.0, 30.0, 40.0,
     95.0, 92.0, 80.0, 60.0, 50.0, 60.0, 55.0, 70.0, 85.0, 40.0]
  const JobRoleMultipliers: seq<real> :=
    [1.1, 1.05, 0.9, 0.95, 0.85, 1.2, 1.0, 1.15, 0.7, 0.8,
     1.25, 1.2, 1.1, 0.9, 0.85, 0.9, 0.8, 1.0, 1.15, 0.8]

  lemma JobTitlesDistinct()
    ensures forall i, j :: 0 <= i < j < |JobTitles| ==> JobTitles[i] != JobTitles[j]
  {
  }

  lemma JobColumnsInRange()
    ensures forall i :: 0 <= i < |JobBaseAiHazards| ==> 0.0 <= JobBaseAiHazards[i] <= 100.0
    ensures forall i :: 0 <= i < |JobRoleMultipliers| ==> JobRoleMultipliers[i] > 0.0
  {
  }

  function LoadJobData(): (t: JobTable)
    ensures ValidJobTable(t) && |t.titles| == 20
    ensures "Data Scientist" in t.titles
  {
    JobTitlesDistinct();
    JobColumnsInRange();
    assert JobTitles[0] == "Data Scientist";
    JobTable(JobTitles, JobBaseAiHazards, JobRoleMultipliers)
  }

  /** Education level, education field and school tier factors. */
  function LoadHumanCapitalFactors(): (r: (map<string, real>, map<string, real>, map<string, real>))
    ensures PositiveFactors(r.0) && PositiveFactors(r.1) && PositiveFactors(r.2)
    ensures "Master's" in r.0 && "Tech/Engineering" in r.1 && "Tier 2 (Reputable State/Private)" in r.2
  {
    (map["PhD" := 0.7,
         "Master's" := 0.8,
         "Bachelor's" := 0.9,
         "Associate's" := 1.0,
         "High School" := 1.1],
     map["Tech/Engineering" := 0.75,
         "Science/Research" := 0.8,
         "Business/Finance" := 0.9,
         "Healthcare" := 0.7,
         "Arts/Humanities" := 1.0,
         "Education" := 0.85,
         "Law" := 0.95],
     map["Tier 1 (Ivy League/Top Research)" := 0.7,
         "Tier 2 (Reputable State/Private)" := 0.8,
         "Tier 3 (Local/Community)" := 0.9])
  }

  /** A company type's sentiment, financial and growth sub-scores. */
  datatype CompanyScores = CompanyScores(sSenti: real, sFin: real, sGrowth: real)

  /** Every sub-score is strictly positive (they are not bounded by 1: the
      start-up growth score is 1.1). */
  ghost predicate PositiveScores(m: map<string, CompanyScores>)
  {
    forall k :: k in m ==> m[k].sSenti > 0.0 && m[k].sFin > 0.0 && m[k].sGrowth > 0.0
  }

  function LoadCompanyRiskFactors(): (m: map<string, CompanyScores>)
    ensures PositiveScores(m)
    ensures "Mid-size firm (Growing)" in m
  {
    map["Big firm (Stable)" := CompanyScores(0.7, 0.6, 0.7),
        "Mid-size firm (Growing)" := CompanyScores(0.8, 0.8, 0.9),
        "Startup (High Growth/Risk)" := CompanyScores(0.9, 0.95, 1.1)]
  }

  /** The actuarial parameters, one field per key. */
  datatype ActuarialParams = ActuarialParams(
    betaSystemic: real, betaIndividual: real,
    lambdaLoadingFactor: real, pMinMonthly: real,
    decayConstantA: real, yearsCapY: int)

  /** Probability betas on [0, 1], a loading of at least 1, a non-negative
      minimum premium, and a decay small enough that the unfloored
      experience factor stays positive up to the cap. */
  ghost predicate ValidActuarialParams(p: ActuarialParams)
  {
    && 0.0 <= p.betaSystemic <= 1.0 && 0.0 <= p.betaIndividual <= 1.0
    && p.lambdaLoadingFactor >= 1.0 && p.pMinMonthly >= 0.0
    && p.decayConstantA >= 0.0 && p.yearsCapY >= 0 && p.decayConstantA * p.yearsCapY as real < 1.0
  }

  function LoadActuarialParameters(): (p: ActuarialParams)
    ensures ValidActuarialParams(p)
    ensures p.decayConstantA * p.yearsCapY as real == 0.3
  {
    ActuarialParams(
      betaSystemic := 0.10, betaIndividual := 0.50,
      lambdaLoadingFactor := 1.5, pMinMonthly := 20.00,
      decayConstantA := 0.015, yearsCapY := 20)
  }

  /** The weights of the pipeline, one field per key. */
  datatype Weights = Weights(
    wCr: real, wUs: real,
    wEcon: real, wInno: real,
    w1Fcr: real, w2Fcr: real, w3Fcr: real,
    gammaGen: real, gammaSpec: real)

  /** Each pair or triple of weights is non-negative and sums to 1. */
  ghost predicate NormalisedWeights(w: Weights)
  {
    && w.wCr >= 0.0 && w.wUs >= 0.0 && w.wCr + w.wUs == 1.0
    && w.wEcon >= 0.0 && w.wInno >= 0.0 && w.wEcon + w.wInno == 1.0
    && w.w1Fcr >= 0.0 && w.w2Fcr >= 0.0 && w.w3Fcr >= 0.0 && w.w1Fcr + w.w2Fcr + w.w3Fcr == 1.0
    && w.gammaGen >= 0.0 && w.gammaSpec >= 0.0 && w.gammaGen + w.gammaSpec == 1.0
  }

  function LoadWeights(): (w: Weights)
    ensures NormalisedWeights(w)
  {
    Weights(
      wCr := 0.4, wUs := 0.6,
      wEcon := 0.5, wInno := 0.5,
      w1Fcr := 0.33, w2Fcr := 0.33, w3Fcr := 0.34,
      gammaGen := 0.7, gammaSpec := 0.3)
  }
}
