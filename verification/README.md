# Nutrition formula library — Dafny model

This project models the formula layer of a clinical nutrition calculator
(`teste.py`). The layer is a set of stateless functions that compute
anthropometric and energy quantities for patients: adjusted and
amputation-corrected weight, weight-loss percentage, estimated stature from
limb lengths, corrected gestational age, body-fat percentage from skinfolds,
arm muscle and fat measures, basal metabolic rate (general and Schofield),
paediatric energy requirement, and the energy needs of children with cerebral
palsy, with Down syndrome, or critically ill. The model also covers a few
pieces of the dashboard's interpretation of results: the severity bands, the
amputated-limb table, and the way the total-energy form selects a factor.

Modules:

- `Results` (`results.dfy`): the outcome of a call. `Ok(value)` is a number,
  `NoResult` is Python's `None`, and `Fail(ValueError)` is the formula's own
  validation error. `Fail(UnboundLocalError)` is the crash of a formula that
  reads a local variable no branch assigned. It also holds optional arguments
  with Python truthiness, and regression lines and planes.
- `Categories` (`categories.dfy`): sex, ethnicity, clinical condition, the
  cerebral-palsy activity level and motor condition, and their text labels.
- `Anthropometry` (`anthropometry.dfy`): the body-composition formulas.
- `Energy` (`energy.dfy`): the energy and metabolic formulas, and the age
  bands they use, written as predicates.
- `Classification` (`classification.dfy`): the result bands, the limb table
  and the total-energy form.

All quantities are Dafny `real`, so the arithmetic is exact. Constants are the
source's decimals. The arm fat area divides by `3.14`, not by pi.

Behaviour reproduced as written:

- `CpEnergyNeed` raises `UnboundLocalError` for valid inputs above 18 years.
  It does not return "no result".
- `EnergyRequirement` gives no result for ages strictly between 2.92 and 3.
  It also gives no result above 18.
- `TotalEnergyExpenditure` refuses two factors by truthiness (teste.py:160).
  Any two non-zero factors are refused, including two below 1. The `> 1.0`
  test lives only in the form (`TotalEnergyFromForm`, teste.py:813-816).
- `SchofieldBmr` checks nothing and ignores its height argument.
- The two label-keyed cerebral-palsy formulas return 0 for an unknown label.
- These formulas check none of their inputs: `CpStatureEstimates`,
  `AdolescentCpStature`, `CpEnergy5To11`, `CpEnergyStable`, `CpEnergyGeneral`,
  `DownSyndromeEnergy`, `CriticalIllnessBasal` and `SchofieldBmr`
  (teste.py:131-144, 238-292).
- `EnergyRequirement` refuses a negative age with `ValueError`
  (teste.py:172-173). It does not return "no result".
- `CpEnergyStable` gives 15 to "no motor dysfunction", 11 to
  "non-ambulatory" and 14 to "ambulatory without dysfunction"
  (teste.py:250-255).

## Model

| member | source | states |
|---|---|---|
| Categories.ParseActivityLevel | teste.py:22-25 | a label parses to the level carrying that label, and to nothing when no level has it |
| Categories.ParseMotorCondition | teste.py:250-255 | a label parses to the motor condition carrying it, and to nothing when no condition has it |
| Categories.ActivityLabelRoundTrip | teste.py:22-25 | the three activity labels are distinct: parsing a level's label gives the level back |
| Categories.MotorLabelRoundTrip | teste.py:250-255 | the three motor-condition labels are distinct: parsing one gives the condition back |
| Anthropometry.AdjustedWeight | teste.py:28-37 | refuses exactly when either weight is <= 0; obesity lands between ideal and actual; malnutrition moves further from the ideal; actual == ideal gives ideal for both conditions; never "no result" |
| Anthropometry.AdjustedWeightBranchesDifferByGap | teste.py:33-36 | the malnutrition result exceeds the obesity result by exactly actual - ideal |
| Anthropometry.WeightLossPercent | teste.py:39-43 | refuses exactly when the usual weight is <= 0; the loss is 0 iff the weight is unchanged and positive iff the current weight is lower |
| Anthropometry.WeightLossBelowWhole | teste.py:39-43 | with a positive current weight the loss is below 100 % |
| Anthropometry.WeightLossRecoversCurrent | teste.py:43 | removing the loss percentage of the usual weight gives the current weight back |
| Anthropometry.ChildWeight | teste.py:45-60 | refuses exactly when a measure is <= 0; every sex/ethnicity pair has coefficients, so a valid input always gets a result; the value is that pair's row of the coefficient table |
| Anthropometry.ChildWeightMonotone | teste.py:50-59 | a larger knee height or arm circumference never lowers the estimate |
| Anthropometry.StatureFromTibia | teste.py:62-66 | refuses exactly a length <= 0; the stature exceeds 30.8 and inverting the line gives the length back |
| Anthropometry.StatureFromUlna | teste.py:68-72 | refuses exactly a length <= 0; the stature exceeds 20.7 and inverting the line gives the length back |
| Anthropometry.StatureStrictlyIncreasing | teste.py:62-72 | a longer tibia or ulna gives a strictly taller estimate |
| Anthropometry.TibiaStatureExample | teste.py:66 | a 30 cm tibia gives 128.6 cm |
| Anthropometry.CorrectedAge | teste.py:74-78 | refuses exactly outside 20..42 weeks; equals the chronological age iff born at 40 weeks, is below it iff born earlier; the correction times 4.34524 is the number of weeks before term |
| Anthropometry.CorrectedAgeBounded | teste.py:76-78 | the correction lies between -20 and +2 weeks' worth of months |
| Anthropometry.BodyFatPercent | teste.py:80-110 | refuses exactly a sum <= 0 or a stage outside 1..5, before any branch; never "no result"; the value is the tabled formula: a sex line above 35 mm, a sex quadratic at or below it, with a male offset keyed by ethnicity and Tanner group |
| Anthropometry.BodyFatHighSumBySexOnly | teste.py:88-92 | above 35 mm the result depends only on sex (0.783 s + 1.6 male, 0.546 s + 9.7 female) |
| Anthropometry.BodyFatFemaleIgnoresStageAndEthnicity | teste.py:109-110 | the female result never depends on Tanner stage or ethnicity |
| Anthropometry.BodyFatMaleStagePairs | teste.py:94-108 | for males, stages 1 and 2 give the same result, as do stages 4 and 5 |
| Anthropometry.BodyFatMaleLowSumOrdering | teste.py:94-108 | at or below 35 mm a later male Tanner stage never raises the estimate, and Black males get a lower estimate than White males |
| Anthropometry.BodyFatMonotoneWithinTier | teste.py:88-110 | within each tier a larger skinfold sum never lowers the estimate |
| Anthropometry.BodyFatDropsAcrossTiers | teste.py:88-97 | the tiers do not join at 35 mm: a White male at stage 1 gets 30.85 at 35 mm but 29.788 at 36 mm |
| Anthropometry.ArmMuscleCircumference | teste.py:112-116 | refuses exactly a measure <= 0; the muscle circumference is below the arm circumference |
| Anthropometry.ArmMuscleArea | teste.py:124-129 | refuses exactly a measure <= 0; the area is never negative |
| Anthropometry.ArmMuscleAreaFromCircumference | teste.py:112-129 | the muscle area is the area of a circle with the muscle circumference, pi taken as 3.14 |
| Anthropometry.ArmFatArea | teste.py:118-122 | refuses exactly a measure <= 0; fat area plus muscle area is 0.79 (arm / 3.14)^2 |
| Anthropometry.ArmFatAreaDecreasing | teste.py:118-122 | more muscle area gives less fat area by the same amount |
| Anthropometry.ArmFatAreaOfOwnMuscleArea | teste.py:118-129 | fed the muscle area computed from the same arm, with a positive muscle circumference, the fat area is accepted and positive |
| Anthropometry.CircleAreaBelowArmEstimate | teste.py:122-129 | a circle area c^2 / 12.56 for 0 < c < arm lies strictly between 0 and the whole-arm estimate 0.79 (arm / 3.14)^2 |
| Anthropometry.ArmFatAreaCanBeNegative | teste.py:118-122 | only positivity of the inputs is checked, so an arm of 5 cm with a muscle area of 30 is accepted and gives a negative fat area |
| Anthropometry.CpStatureEstimates | teste.py:131-139 | the tibia estimate is the general tibia stature plus 1.4 cm |
| Anthropometry.CpStatureEachFromOwnLength | teste.py:134-138 | each of the three estimates depends on its own length only |
| Anthropometry.CpStatureMean | teste.py:706 | the mean of the three estimates lies between the smallest and the largest, and equals them when they agree |
| Anthropometry.AdolescentCpStatureEffects | teste.py:141-144 | males are 0.77 cm taller than females; a year adds 1.29 cm, a cm of ulna 4.32 cm |
| Anthropometry.AmputationCorrectedWeight | teste.py:146-152 | refuses exactly a weight <= 0 or a percentage outside [0, 100); the corrected weight times the remaining share gives the current weight back; 0 % leaves the weight unchanged |
| Anthropometry.AmputationCorrectedWeightGrows | teste.py:146-152 | the corrected weight is at least the current weight, equals it only at 0 %, and grows with the amputated share |
| Energy.TotalEnergyExpenditure | teste.py:154-167 | refuses exactly a basal value <= 0 or two truthy factors; otherwise the basal value times the truthy factor, or unchanged when neither is truthy |
| Energy.TotalEnergyFactorsInterchangeable | teste.py:160-167 | a lone factor gives the same result whichever field it is in; factor 1 is neutral; a zero factor counts as absent |
| Energy.TotalEnergyRefusesAnyTwoFactors | teste.py:160-161 | two factors are refused even when both are below 1 |
| Energy.EnergyRequirement | teste.py:169-193 | refuses exactly a negative age or a non-positive weight, height or activity factor; no result exactly for ages in (2.92, 3) or above 18; otherwise the value of the one age band holding the age |
| Energy.RequirementBandsDisjoint | teste.py:175-192 | no age lies in two requirement bands |
| Energy.RequirementBoundaries | teste.py:175-193 | 0.25, 0.5, 1, 2.92 and 18 fall in the band below, 3 and 9 in the band above; 2.95 and 18.5 give no result |
| Energy.RequirementStepAtNine | teste.py:183-192 | at nine years the school-age formula is 5 kcal above the earlier band's formula |
| Energy.MetabolicBandsPartition | teste.py:200-214 | up to 18 years every age lies in exactly one of the bands <= 3, (3, 10], (10, 18]; above 18 in none |
| Energy.BasalMetabolicRate | teste.py:195-214 | refuses exactly a weight <= 0 or a negative age; no result exactly above 18; otherwise the band's sex-specific weight line |
| Energy.BasalMetabolicRateExamples | teste.py:200-206 | 20 kg at 5 years (male) gives 949; at 19 years no result |
| Energy.SchofieldBmr | teste.py:276-292 | never refuses; no result exactly above 18; otherwise the band's Schofield line |
| Energy.SchofieldIgnoresHeight | teste.py:276-292 | the result does not depend on height |
| Energy.BmrAndSchofieldShareBands | teste.py:276-292 | on inputs both accept, the two formulas give a result for the same ages; a non-positive weight is refused only by the general one |
| Energy.CpEnergyNeed | teste.py:216-236 | refuses exactly invalid inputs; above 18 reads an unassigned base and raises UnboundLocalError; never "no result"; otherwise the band's base times the stress factor |
| Energy.CpEnergyNeedLinearInStress | teste.py:236 | k times the stress factor gives k times the need |
| Energy.CpEnergy5To11 | teste.py:238-246 | a known label selects its level's per-cm coefficient; an unknown label gives 0 |
| Energy.CpEnergy5To11ByLevel | teste.py:238-246 | each level's label gives that level's coefficient times height; restricted-intense < severe restriction < mild-moderate |
| Energy.CpEnergyStable | teste.py:248-256 | a known label selects its condition's per-cm coefficient; an unknown label gives 0 |
| Energy.CpEnergyStableByCondition | teste.py:248-256 | each condition's label gives its coefficient times height; non-ambulatory < ambulatory < no dysfunction |
| Energy.CpEnergyGeneralMonotone | teste.py:258-263 | the general need grows with weight and height and falls with age |
| Energy.DownSyndromeMaleToFemale | teste.py:265-270 | the male need is 16.1/14.3 times the female need, and higher for a positive height |
| Energy.CriticalIllnessBasalEffects | teste.py:272-274 | a month adds 4.063 kcal, a kg 11.472 kcal, a degree 69.788 kcal |
| Classification.ClassifyWeightLoss | teste.py:427-435 | insignificant iff < 5 %, moderate iff in [5, 10), severe iff >= 10 % |
| Classification.ClassifyWeightLossMonotone | teste.py:427-435 | a larger loss is never classified as less severe |
| Classification.ClassifyBodyFat | teste.py:573-582 | each level holds exactly the percentages between its sex's thresholds (8/15/20 male, 15/25/30 female) |
| Classification.ClassifyBodyFatMonotone | teste.py:573-582 | a higher percentage is never a lower level; a female is never rated above a male at the same percentage |
| Classification.ClassifyArmMuscle | teste.py:606-613 | each status holds exactly its circumference band: < 15, [15, 20), [20, 25), >= 25 |
| Classification.ArmMuscleMonotone | teste.py:606-613 | a larger circumference is never a worse status |
| Classification.ArmMuscleStatusWorsensWithSkinfold | teste.py:603-613 | a thicker triceps skinfold at the same arm circumference never gives a better status |
| Classification.AmputationShare | teste.py:763-770 | every tabled limb share is positive and at most 10.1 % |
| Classification.AmputationTableAccepted | teste.py:763-774 | every tabled share is accepted, and a positive weight always gets a larger corrected weight |
| Classification.AmputationThighExample | teste.py:763-774 | 70 kg with a thigh amputation gives 7000/89.9 kg; 100 % is refused |
| Classification.TotalEnergyFromForm | teste.py:813-830 | the form warns exactly when both fields exceed 1; otherwise its call fails only for a non-positive basal value and scales it by the one factor above 1 |

## Left out

- The dashboard (`main`, teste.py:295-1119) is not modelled: widgets, styling, charts, session history with timestamps, and error display. It is I/O and presentation.
- The display-only computations in `main` are not modelled: growth-projection curves, the Harris-Benedict comparison, the "+15 %" Down-syndrome comparison, and the Schofield-versus-general percentage.
- Floating-point rounding is not modelled. Results are exact reals, so a value such as 77.86 is the exact quotient 7000/89.9.
- The error messages of `ValueError` are not modelled. Only the kind of failure is kept.
- The broken `union` import at teste.py:6 is not modelled. It is an import-time defect, not formula behaviour.
- The number-input bounds of the form widgets are not modelled. They are caller-side guards.
- The enumerations are closed datatypes, so an argument outside an enumeration cannot be passed. This makes three `None` fall-throughs unreachable: `calcular_peso_ajustado` (line 37), `estimar_peso_crianca` (line 60), and the male body-fat branch for an unknown ethnicity. The model keeps those branches, and the contracts prove they are never taken.
- The Tanner stage is an `int`. Python would also accept the float `2.0` in the stage check.
- `CpStatureEstimates` returns a record with three fields, not a dictionary keyed by strings.
- `AdolescentCpStature`, `CpEnergyGeneral`, `DownSyndromeEnergy` and `CriticalIllnessBasal` carry no contract of their own, since they check nothing and only compute. Their lemmas, listed above, state their properties.
