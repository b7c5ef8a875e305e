/** The reference data of the global-params variant
    (application_pages/data_utils.py): the job catalogue, the education
    level, education field, school tier and company type factors, and the
    default parameter bundle. Every loader returns a constant; each carries
    the validity facts the pipeline relies on. */
module AppDataUtils {

  /** The job catalogue as its four parallel columns, row `i` being one job. */
  datatype JobTable = JobTable(titles: seq<string>, fRole: seq<real>, hBase: seq<real>, industry: seq<string>)

  /** The columns line up, titles identify rows, hazards are on the [0, 100]
      scale and role factors are strictly positive. */
  ghost predicate ValidJobTable(t: JobTable)
  {
    && |t.fRole| == |t.titles| && |t.hBase| == |t.titles| && |t.industry| == |t.titles|
    && (forall i, j :: 0 <= i < j < |t.titles| ==> t.titles[i] != t.titles[j])
    && (forall i :: 0 <= i < |t.hBase| ==> 0.0 <= t.hBase[i] <= 100.0)
    && (forall i :: 0 <= i < |t.fRole| ==> t.fRole[i] > 0.0)
  }

  /** Every factor of a lookup table is strictly positive. */
  ghost predicate PositiveFactors(m: map<string, real>)
  {
    forall k :: k in m ==> m[k] > 0.0
  }

  /** The columns of the catalogue: titles, role factors, base hazards and
      industries, row by row. */
  const JobTitles: seq<string> :=
    ["Software Engineer", "Data Scientist", "AI/ML Engineer",
     "Financial Analyst", "Marketing Manager", "HR Specialist",
     "Accountant", "Customer Service Rep", "Truck Driver",
     "Graphic Designer", "Nurse", "Teacher"]
  const JobRoleFactors: seq<real> :=
    [0.8, 0.75, 0.7,
     0.9, 0.95, 1.0,
     1.05, 1.1, 1.2,
     0.95, 0.85, 0.9]
  const JobBaseHazards: seq<real> :=
    [40.0, 50.0, 60.0,
     35.0, 30.0, 20.0,
     25.0, 45.0, 70.0,
     30.0, 15.0, 20.0]
  const JobIndustries: seq<string> :=
    ["Tech", "Tech", "Tech",
     "Finance", "Marketing", "HR",
     "Finance", "Service", "Logistics",
     "Creative", "Healthcare", "Education"]

  lemma JobTitlesDistinct()
    ensures forall i, j :: 0 <= i < j < |JobTitles| ==> JobTitles[i] != JobTitles[j]
  {
  }

  lemma JobColumnsInRange()
    ensures forall i :: 0 <= i < |JobBaseHazards| ==> 0.0 <= JobBaseHazards[i] <= 100.0
    ensures forall i :: 0 <= i < |JobRoleFactors| ==> JobRoleFactors[i] > 0.0
  {
  }

  function LoadJobData(): (t: JobTable)
    ensures ValidJobTable(t) && |t.titles| == 12
    ensures "Software Engineer" in t.titles && "Nurse" in t.titles
  {
    JobTitlesDistinct();
    JobColumnsInRange();
    assert JobTitles[0] == "Software Engineer" && JobTitles[10] == "Nurse";
    JobTable(JobTitles, JobRoleFactors, JobBaseHazards, JobIndustries)
  }

  /** Education level factors and education field factors. */
  function LoadEducationData(): (r: (map<string, real>, map<string, real>))
    ensures PositiveFactors(r.0) && PositiveFactors(r.1)
    ensures "Bachelor's" in r.0 && "Tech/Engineering" in r.1
  {
    (map["PhD" := 0.7,
         "Master's" := 0.8,
         "Bachelor's" := 0.9,
         "Associate's" := 1.0,
         "High School" := 1.1],
     map["Tech/Engineering" := 0.75,
         "Data Science/AI" := 0.7,
         "Business/Finance" := 0.85,
         "Humanities/Arts" := 1.0,
         "Healthcare" := 0.8,
         "Education" := 0.9,
         "Trades/Vocational" := 1.05])
  }

  function LoadSchoolTierData(): (m: map<string, real>)
    ensures PositiveFactors(m)
    ensures "Tier 2 (Top 25%)" in m
  {
    map["Tier 1 (Top 10%)" := 0.75,
        "Tier 2 (Top 25%)" := 0.85,
        "Tier 3 (Top 50%)" := 0.95,
        "Tier 4 (Other)" := 1.05]
  }

  /** Company type to its precomputed company risk factor (the `FCR` entry of
      each row). */
  function LoadCompanyTypeData(): (m: map<string, real>)
    ensures PositiveFactors(m)
    ensures "Big Firm (Stable)" in m
  {
    map["Big Firm (Stable)" := 0.8,
        "Mid-size Firm (Growth)" := 0.9,
        "Startup (High Risk/Reward)" := 1.1,
        "Government/Non-Profit (Very Stable)" := 0.7]
  }

  /** The actuarial and weighting parameter bundle, one field per key. */
  datatype Params = Params(
    wCr: real, wUs: real,
    aDecay: real, yCap: int,
    w1Fcr: real, w2Fcr: real, w3Fcr: real,
    gammaGen: real, gammaSpec: real,
    wEcon: real, wInno: real,
    betaSystemic: real, betaIndividual: real,
    lambdaLoading: real, pMin: real,
    ttvDefault: int)

  /** Each pair or triple of weights is non-negative and sums to 1. */
  ghost predicate NormalisedWeights(p: Params)
  {
    && p.wCr >= 0.0 && p.wUs >= 0.0 && p.wCr + p.wUs == 1.0
    && p.w1Fcr >= 0.0 && p.w2Fcr >= 0.0 && p.w3Fcr >= 0.0 && p.w1Fcr + p.w2Fcr + p.w3Fcr == 1.0
    && p.gammaGen >= 0.0 && p.gammaSpec >= 0.0 && p.gammaGen + p.gammaSpec == 1.0
    && p.wEcon >= 0.0 && p.wInno >= 0.0 && p.wEcon + p.wInno == 1.0
  }

  /** The rest of the bundle is in range: a decay that keeps the experience
      factor at or above its 0.1 floor up to the cap, probability betas on [0, 1], a
      loading of at least 1, a non-negative minimum premium and a transition
      of at least one month. */
  ghost predicate ValidParams(p: Params)
  {
    && p.aDecay >= 0.0 && p.yCap >= 0 && p.aDecay * p.yCap as real <= 0.9
    && 0.0 <= p.betaSystemic <= 1.0 && 0.0 <= p.betaIndividual <= 1.0
    && p.lambdaLoading >= 1.0 && p.pMin >= 0.0
    && p.ttvDefault >= 1
  }

  function LoadDefaultParameters(): (p: Params)
    ensures NormalisedWeights(p) && ValidParams(p)
    ensures p.aDecay * p.yCap as real == 0.3
  {
    Params(
      wCr := 0.4, wUs := 0.6,
      aDecay := 0.015, yCap := 20,
      w1Fcr := 0.33, w2Fcr := 0.33, w3Fcr := 0.34,
      gammaGen := 0.6, gammaSpec := 0.4,
      wEcon := 0.5, wInno := 0.5,
      betaSystemic := 0.10, betaIndividual := 0.50,
      lambdaLoading := 1.5, pMin := 20.00,
      ttvDefault := 12)
  }
}
