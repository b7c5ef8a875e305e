# AI displacement risk and premium pipeline: a Dafny model

The system scores a person's exposure to AI-driven job displacement and
prices an insurance policy against it. Lookup tables supply:

- the role factor and base occupational hazard of each job;
- education, field and school-tier factors;
- company risk factors.

A chain of small arithmetic functions turns these tables, the person's
inputs and two environmental modifiers into:

- an idiosyncratic risk score `V_i(t)` on [5, 100];
- a systematic risk `H_i`;
- two probabilities and their product, the annual claim probability;
- an expected loss over the insured payout;
- a monthly premium with a floor.

A Time-to-Value (TTV) model moves a person's base hazard linearly from the
current job's to a target job's over a number of months.

The repository carries this chain twice, in two copies that have drifted
apart. Both are modelled side by side.

- `calculations.dfy` (module `Calculations`) is the parameter-passing copy,
  `calculations.py`. Every weight and constant is an argument. The
  experience and upskilling factors have no floor. The idiosyncratic risk
  is `min(100, max(5, V_raw - 50))`. The probabilities are unclamped
  products. The TTV hazard is pinned to the target once `k >= ttv`.
- `app_calculations.dfy` (module `AppCalculations`) is the copy in
  `application_pages/calculations.py`. The module-level parameter dict
  becomes an explicit immutable `Params` value. The experience and
  upskilling factors are floored at 0.1. Training progress is given in
  percent. The idiosyncratic risk is a plain clip to [5, 100]. The three
  probabilities are clipped to [0, 1]. The TTV model caps `k` with `min`.
- `app_data_utils.dfy` (module `AppDataUtils`) and `data_utils.dfy` (module
  `DataUtils`) hold the two sets of default tables and parameter bundles:
  - job tables become parallel sequences, and dictionaries become maps;
  - each set has a validity predicate, which its loader establishes;
  - the default selections of the pages are shown to be keys of their
    tables.
- `cross_variant.dfy` (module `CrossVariant`) states where the two copies
  agree and exactly where they part.
- `default_pipeline.dfy` (module `DefaultPipeline`) instantiates the
  pipeline properties on the shipped defaults.
- `transition_series.dfy` (module `TransitionSeries`) builds the
  month-by-month systematic risk series that the transition pages chart.
  It does so in a loop, proved against the TTV function.
- `real_arith.dfy` and `lerp.dfy` hold shared helpers:
  - `min`, `max` and `np.clip` over `real`;
  - the linear blend `(1 - t)·a + t·b`;
  - facts about products and fractions that the proofs use.

Numbers are Dafny `real` (exact rationals). Years of experience, the
experience cap, months and TTV lengths are `int`.

Three places where the two copies behave differently:

- application_pages/calculations.py:45 clips `V_raw` to [5, 100] directly,
  while calculations.py:45 subtracts 50 first (`CrossVariant.IdiosyncraticOffset`).
- Only application_pages/calculations.py:11 and :28 floor `f_exp` and `FUS`
  at 0.1; calculations.py:10 and :31 do not. On the shipped defaults the
  unfloored experience factor stays in [0.7, 1]
  (`DefaultPipeline.DataDefaultFExp`). The unfloored upskilling factor
  stays in [0, 1] and reaches 0 at full progress on both tracks
  (`DefaultPipeline.DataDefaultFusRange`).
- For `ttv == 0` and `k < 0` the global-params copy returns `h_current`
  and the other copy returns `h_target`. `CrossVariant.TtvAgreement` shows
  this is the only point where the two interpolations differ.

## Model

| member | source | states |
|---|---|---|
| `Calculations.FExpAtZero` | calculations.py:5-10 | with a non-negative cap, no experience gives an experience factor of exactly 1 |
| `Calculations.FExpSaturates` | calculations.py:5-10 | for years at or beyond the cap the factor is `1 - a·Y_cap`, whatever the years |
| `Calculations.FExpMonotone` | calculations.py:5-10 | with `a >= 0` the factor never rises with experience and never falls below `1 - a·Y_cap` |
| `Calculations.FhcPositive` | calculations.py:12-17 | five strictly positive factors give a strictly positive human capital factor |
| `Calculations.FcrEqualScores` | calculations.py:19-24 | weights summing to 1 map three equal sub-scores to that score |
| `Calculations.FcrBetweenScores` | calculations.py:19-24 | non-negative weights summing to 1 keep the company factor between the smallest and largest sub-score |
| `Calculations.FusNoProgress` | calculations.py:26-31 | no training progress gives an upskilling factor of 1 |
| `Calculations.FusAtMostOne` | calculations.py:26-31 | non-negative weights and progress never raise the factor above 1 |
| `Calculations.FusLowerBound` | calculations.py:26-31 | with non-negative weights and progress fractions at most 1 the factor is at least `1 - (γ_gen + γ_spec)` |
| `Calculations.FusNonNegative` | calculations.py:26-31 | so with weights summing to 1 the unfloored factor never goes negative |
| `Calculations.VRawFacts` | calculations.py:33-38 | non-negative inputs give a non-negative raw risk; equal company and upskilling factors, with weights summing to 1, give `FHC` times that factor |
| `Calculations.IdiosyncraticRisk` | calculations.py:40-45 | always in [5, 100]; equals `V_raw - 50` exactly when `V_raw` is in [55, 150]; 5 at or below 55 and 100 at or above 150 |
| `Calculations.IdiosyncraticRiskMonotone` | calculations.py:40-45 | non-decreasing in `V_raw` |
| `Calculations.HBaseTtv` | calculations.py:47-56 | exactly `h_target` when `ttv == 0` or `k >= ttv`; exactly `h_current` at `k = 0` for `ttv > 0` |
| `Calculations.HBaseTtvBetween` | calculations.py:47-56 | for `ttv > 0` and `0 <= k <= ttv` the hazard lies between the smaller and larger endpoint |
| `Calculations.HBaseTtvConstant` | calculations.py:47-56 | equal endpoints give that hazard at every month |
| `Calculations.HBaseTtvMonotone` | calculations.py:47-56 | for `ttv > 0` the hazard is monotone in `k` toward the target at every `k`: non-increasing when the target is lower, non-decreasing when it is higher |
| `Calculations.SystematicRiskBounds` | calculations.py:58-63 | with weights summing to 1, equal modifiers scale the hazard by that modifier; with non-negative weights and hazard the risk lies between the hazard times the smaller and times the larger modifier |
| `Calculations.ClaimBelowFactors` | calculations.py:79-84 | two probabilities multiply to a probability no larger than either factor |
| `Calculations.ProbabilitiesInRange` | calculations.py:65-84 | scores in [0, 100] and betas in [0, 1] make the unclamped systemic and individual probabilities lie in [0, beta]; the claim probability is non-negative and at most either factor |
| `Calculations.LPayoutBounds` | calculations.py:86-91 | a non-negative salary and duration with a percentage in [0, 100] pay between 0 and the full salary for the covered months, and exactly that at 100% |
| `Calculations.ExpectedLossBounds` | calculations.py:93-98 | a probability times a non-negative payout lies between 0 and the payout |
| `Calculations.MonthlyPremium` | calculations.py:100-105 | never below `P_min` or the loaded monthly loss; equal to `P_min` exactly when `E[Loss]·λ/12 <= P_min` |
| `Calculations.MonthlyPremiumMonotone` | calculations.py:100-105 | with `λ >= 0` the premium is non-decreasing in the expected loss |
| `Calculations.ScenarioNeutralFactors` | calculations.py:5-38 | no experience under the default decay gives `f_exp = 1`; neutral factors give `FHC = 1`; with weights 0.4/0.6, `V_raw = 1` |
| `Calculations.ScenarioNeutralRisk` | calculations.py:40-45 | a raw score of 1 gives an idiosyncratic risk of 5 |
| `Calculations.ScenarioHalfwayTransition` | calculations.py:47-56 | from 80 to 20 over ten months the hazard is 50 at month five and 20 at month ten |
| `Calculations.ScenarioPayoutAndFloor` | calculations.py:86-105 | 90000 a year, six months at 25% pays 11250; no expected loss at loading 1.5 and minimum 20 costs 20 |
| `AppCalculations.FExp` | application_pages/calculations.py:7-11 | the floored experience factor is never below 0.1 |
| `AppCalculations.FExpAtZero` | application_pages/calculations.py:7-11 | with a non-negative cap, no experience gives 1 |
| `AppCalculations.FExpFloorInactive` | application_pages/calculations.py:7-11 | with `a >= 0` and `a·Y_cap <= 0.9` the floor never activates: the factor is `1 - a·min(years, Y_cap)` |
| `AppCalculations.FhcPositive` | application_pages/calculations.py:13-16 | five strictly positive factors give a strictly positive human capital factor |
| `AppCalculations.FcrDefaultEqualScores` | application_pages/calculations.py:18-21 | the default weights 0.33/0.33/0.34 sum to 1, so equal sub-scores give that score |
| `AppCalculations.Fus` | application_pages/calculations.py:23-28 | the percent-form upskilling factor is never below 0.1 and is 1 with no progress |
| `AppCalculations.FusAtMostOne` | application_pages/calculations.py:23-28 | non-negative gammas and progress keep the factor at most 1 |
| `AppCalculations.FusFullProgress` | application_pages/calculations.py:23-28 | 100% progress on both tracks with gammas summing to 1 lands exactly on the 0.1 floor |
| `AppCalculations.VRawNonNegative` | application_pages/calculations.py:30-35 | a non-negative human capital factor and weighted score give a non-negative raw risk |
| `AppCalculations.IdiosyncraticRisk` | application_pages/calculations.py:37-46 | always in [5, 100]; equal to `V_raw` exactly when `V_raw` is in [5, 100] (no offset); 5 below and 100 above |
| `AppCalculations.IdiosyncraticRiskMonotone` | application_pages/calculations.py:37-46 | non-decreasing in `V_raw` |
| `AppCalculations.TtvModifiedHBase` | application_pages/calculations.py:48-55 | for `ttv == 0`: `h_target` when `k >= 0` and `h_current` when `k < 0`; for `ttv > 0`: exactly `h_target` for every `k >= ttv`, because `k` is capped, and `h_current` at `k = 0` |
| `AppCalculations.TtvModifiedHBaseBetween` | application_pages/calculations.py:48-55 | for `ttv > 0` and `0 <= k <= ttv` the hazard lies between the endpoints |
| `AppCalculations.TtvModifiedHBaseConstant` | application_pages/calculations.py:48-55 | equal endpoints give that hazard at every month |
| `AppCalculations.TtvModifiedHBaseMonotone` | application_pages/calculations.py:48-55 | for `ttv > 0` the hazard is monotone in `k` toward the target |
| `AppCalculations.SystematicRiskNeutral` | application_pages/calculations.py:57-62 | with `w_econ + w_inno = 1`, neutral modifiers leave the hazard unchanged |
| `AppCalculations.PSystemic` | application_pages/calculations.py:64-68 | always in [0, 1]; the plain `(H_i/100)·β` whenever that is already in [0, 1] |
| `AppCalculations.PIndividualSystemic` | application_pages/calculations.py:70-74 | always in [0, 1]; the plain `(V_i/100)·β` whenever that is already in [0, 1] |
| `AppCalculations.PClaim` | application_pages/calculations.py:76-79 | always in [0, 1] for any inputs |
| `AppCalculations.PClaimOfProbabilities` | application_pages/calculations.py:76-79 | for two inputs in [0, 1] the clip is inactive and the claim probability is their product |
| `AppCalculations.ELossBounds` | application_pages/calculations.py:86-89 | a claim probability in [0, 1] on a non-negative payout expects between 0 and the payout |
| `AppCalculations.PMonthly` | application_pages/calculations.py:91-96 | never below `P_min` or the loaded monthly loss; equal to `P_min` exactly when `E[Loss]·λ/12 <= P_min` |
| `AppCalculations.PMonthlyMonotone` | application_pages/calculations.py:91-96 | with `λ >= 0` the premium is non-decreasing in the expected loss |
| `AppDataUtils.JobTitlesDistinct` | application_pages/data_utils.py:11-16 | the twelve job titles are pairwise distinct |
| `AppDataUtils.JobColumnsInRange` | application_pages/data_utils.py:17-28 | every base hazard is in [0, 100] and every role factor is positive |
| `AppDataUtils.LoadJobData` | application_pages/data_utils.py:5-36 | the table is valid (four columns of length 12, distinct titles, hazards in [0, 100], positive role factors) and holds 'Software Engineer' and 'Nurse' |
| `AppDataUtils.LoadEducationData` | application_pages/data_utils.py:38-58 | every level and field factor is positive; "Bachelor's" and 'Tech/Engineering' are keys |
| `AppDataUtils.LoadSchoolTierData` | application_pages/data_utils.py:60-70 | every tier factor is positive; 'Tier 2 (Top 25%)' is a key |
| `AppDataUtils.LoadCompanyTypeData` | application_pages/data_utils.py:72-84 | every company type's FCR is positive; 'Big Firm (Stable)' is a key |
| `AppDataUtils.LoadDefaultParameters` | application_pages/data_utils.py:86-105 | all four weight groups are non-negative and sum to 1; `a·Y_cap = 0.3`; betas in [0, 1], `λ >= 1`, `P_min >= 0`, TTV at least 1 |
| `DataUtils.JobTitlesDistinct` | data_utils.py:10-17 | the twenty job titles, which become the table index, are pairwise distinct |
| `DataUtils.JobColumnsInRange` | data_utils.py:18-23 | every base AI hazard is in [0, 100] and every role multiplier is positive |
| `DataUtils.LoadJobData` | data_utils.py:5-27 | the indexed table is valid (three columns of length 20, distinct titles, hazards in [0, 100], positive multipliers) and holds 'Data Scientist' |
| `DataUtils.LoadHumanCapitalFactors` | data_utils.py:29-57 | every level, field and tier factor is positive; "Master's", 'Tech/Engineering' and 'Tier 2 (Reputable State/Private)' are keys |
| `DataUtils.LoadCompanyRiskFactors` | data_utils.py:59-72 | every company type has positive sentiment, financial and growth scores; 'Mid-size firm (Growing)' is a key |
| `DataUtils.LoadActuarialParameters` | data_utils.py:74-86 | betas in [0, 1], `λ >= 1`, `P_min >= 0`, `a >= 0`, and `a·Y_cap = 0.3 < 1` |
| `DataUtils.LoadWeights` | data_utils.py:88-101 | all four weight groups are non-negative and sum to 1 |
| `CrossVariant.TtvAgreement` | application_pages/calculations.py:48-55 | this hazard equals `calculate_h_base_ttv` of calculations.py:47-56 if and only if `ttv != 0`, `k >= 0` or the endpoints are equal |
| `CrossVariant.TtvAgreementDuringTransition` | application_pages/calculations.py:48-55 | for `ttv > 0` the two interpolations agree at every month |
| `CrossVariant.FusPercentIsFlooredFraction` | application_pages/calculations.py:23-28 | the percent-form factor is `max(0.1, ·)` of the fraction-form factor of calculations.py:26-31 at the percentages divided by 100 |
| `CrossVariant.FExpIsFlooredFExp` | application_pages/calculations.py:7-11 | the floored factor is `max(0.1, ·)` of the unfloored one of calculations.py:5-10, and equal to it when `a >= 0` and `a·Y_cap <= 0.9` |
| `CrossVariant.IdiosyncraticOffset` | application_pages/calculations.py:37-46 | the idiosyncratic risk of calculations.py:40-45 is this one applied to `V_raw - 50` |
| `CrossVariant.IdiosyncraticVariantsDiffer` | application_pages/calculations.py:45 | on raw scores in [55, 100] the two idiosyncratic risks differ by exactly 50 |
| `CrossVariant.SystematicRiskAgreement` | application_pages/calculations.py:57-62 | the systematic risk equals that of calculations.py:58-63 with the bundle's `w_econ` and `w_inno` |
| `CrossVariant.AppSystematicRiskBounds` | application_pages/calculations.py:57-62 | with weights summing to 1, equal modifiers scale the hazard by that modifier; with non-negative weights and hazard the risk lies between the hazard times the smaller and times the larger modifier |
| `CrossVariant.PayoutAgreement` | application_pages/calculations.py:81-84 | the payout equals that of calculations.py:86-91 for every request |
| `CrossVariant.ExpectedLossAgreement` | application_pages/calculations.py:86-89 | the expected loss equals that of calculations.py:93-98 for every claim probability and payout |
| `CrossVariant.PremiumAgreement` | application_pages/calculations.py:91-96 | for the same expected loss, loading and minimum, the premium equals that of calculations.py:100-105 |
| `CrossVariant.ClaimProbabilityAgreement` | application_pages/calculations.py:64-79 | for scores in [0, 100] and betas in [0, 1] none of the three clips activates: the systemic, individual and claim probabilities each equal the unclamped ones of calculations.py:65-84 |
| `CrossVariant.PremiumPipelineAgreement` | application_pages/calculations.py:81-96 | under the same conditions the expected loss of the payout and the monthly premium equal those of calculations.py:86-105 |
| `DefaultPipeline.AppDefaultFExp` | application_pages/data_utils.py:93-94 | under the default decay and cap the floor never activates and the factor lies in [0.7, 1] for any non-negative experience |
| `DefaultPipeline.AppDefaultFhcPositive` | application_pages/data_utils.py:5-70 | every job with any level, field and tier in the tables has a strictly positive human capital factor |
| `DefaultPipeline.AppDefaultFcrWeights` | application_pages/data_utils.py:95 | the default company weights are the fallback weights of application_pages/calculations.py:18 |
| `DefaultPipeline.AppDefaultSystematicRange` | application_pages/data_utils.py:98-99 | a table hazard with both modifiers in [0.8, 1.2] gives a default systematic risk in [0, 120] |
| `DefaultPipeline.AppDefaultClaimBound` | application_pages/data_utils.py:100-101 | for such a systematic risk and any raw score, the default claim probability lies in [0, 0.06] |
| `DefaultPipeline.AppDefaultPremium` | application_pages/data_utils.py:102-103 | the default premium is at least 20, exactly 20 up to an expected loss of 160, and `1.5·E[Loss]/12` above it |
| `DefaultPipeline.DataDefaultFExp` | data_utils.py:83-84 | the default unfloored experience factor lies in [0.7, 1] for any non-negative experience |
| `DefaultPipeline.DataDefaultFhcPositive` | data_utils.py:5-57 | every job with any level, field and tier in the tables has a strictly positive human capital factor |
| `DefaultPipeline.DataDefaultFcrBetween` | data_utils.py:59-72 | each company type's default company factor lies between its smallest and largest score, and so is positive |
| `DefaultPipeline.DataDefaultFusRange` | data_utils.py:98-99 | with progress fractions in [0, 1] the default unfloored upskilling factor stays in [0, 1], and is exactly 0 when both fractions are 1 |
| `DefaultPipeline.DataDefaultPremium` | data_utils.py:81-82 | the default premium is at least 20, and exactly 20 up to an expected loss of 160 |
| `TransitionSeries.SystematicRiskSeries` | application_pages/transition_simulator.py:104-109 | the series has `ttv + 1` values (none for a negative length); each is the systematic risk of either interpolation at that month; for `ttv > 0` it starts at `H_current·mod`; it ends at `H_target·mod` |
| `TransitionSeries.ModifierBounds` | application_pages/calculations.py:57-62 | non-negative weights summing to 1 keep the combined modifier within any interval that holds both modifiers |
| `TransitionSeries.RiskAtMonthMonotone` | application_pages/transition_simulator.py:104-109 | with a non-negative modifier the series moves monotonically toward the target's risk |
| `TransitionSeries.SliderRangeMovesTowardTarget` | application_pages/transition_simulator.py:60-68 | with both modifiers on the sliders' range [0.8, 1.2] and normalised weights, the series moves monotonically toward the target's risk |

## Left out

- Streamlit pages, widgets, session state and Plotly charts are not modelled. The pages' `min_value`/`max_value` bounds appear as `requires` clauses where a property needs them.
- The month loop at application_pages/simulation_page.py:86-89 has the same shape as the transition simulator's. `TransitionSeries.SystematicRiskSeries` covers both, since each element agrees with both TTV functions.
- pandas DataFrame construction, `set_index` and `np.clip` are not modelled as library calls. Tables become sequences and maps, and the clip is `min`/`max` over `real`.
- IEEE-754 floating-point rounding and NaN are not modelled. Arithmetic is exact over `real`, so `0.33 + 0.33 + 0.34` is exactly 1.
- Python's dynamic number types are not modelled. The TTV length and experience cap are `int`. The TTV division is real division, as Python 3's `/` is.
- The broken wiring between the global-params files is not modelled; each function is modelled as defined, not as called.
  - application_pages/calculations.py:3 imports two loaders that application_pages/data_utils.py does not define.
  - application_pages/calculations.py reads the keys `a_decay_constant` and `lambda_loading_factor`, but the bundle at application_pages/data_utils.py:93 and :102 names them `a_decay` and `lambda_loading`. The `Params` fields `aDecay` and `lambdaLoading` stand for that one value.
  - The pages call `calculate_fhc`, `calculate_fcr` and a `calculate_h_base_ttv` with names or arities that do not match their definitions.
- application_pages/data_utils.py:44-46 does not parse as written, because of unescaped apostrophes in `'Master's'` and the like. The model uses the evident keys "Master's", "Bachelor's" and "Associate's".
- The company table at application_pages/data_utils.py:78-83 nests each value as `{'FCR': x}`. The model flattens it to a map from company type to FCR.
- The `Industry` column of application_pages/data_utils.py is carried as data; nothing reads it.
- Looking up an unknown job, level, field, tier or company is not modelled as an operation. The core functions take the looked-up factors, and the lemmas over the tables require the key to be present.
- `AppCalculations.Fcr` has keyword defaults in the source. The model has the explicit-weights function and `FcrDefault` for the defaults.
- `AppCalculations.LPayout` and `AppCalculations.ELoss` have no bounds lemmas of their own beyond `AppCalculations.ELossBounds`. `CrossVariant.PayoutAgreement` and `CrossVariant.ExpectedLossAgreement` show they equal the other copy's functions, so `Calculations.LPayoutBounds` and `Calculations.ExpectedLossBounds` apply to them.
