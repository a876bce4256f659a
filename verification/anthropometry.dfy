/** Body-composition and anthropometric formulas: adjusted and corrected
    weights, weight loss, stature estimates from limb lengths, corrected
    gestational age, body-fat percentage from skinfolds, and arm measures.

    Every quantity is a real number; the source's floating-point rounding is
    not modelled. A formula that validates its inputs returns `Fail(ValueError)`
    exactly when a check fails and computes nothing in that case.
 */
module Anthropometry {
  import opened Results
  import opened Categories

  // ---------------------------------------------------------------------
  // Adjusted weight (obesity / malnutrition)
  // ---------------------------------------------------------------------

  /** Adjusted weight: a quarter of the gap between actual and ideal weight,
      added to the ideal weight (obesity) or to the actual weight
      (malnutrition). Obesity lands between ideal and actual; malnutrition
      moves a further quarter away from the ideal. */
  function AdjustedWeight(actual: real, ideal: real, condition: Condition): (r: Outcome)
    ensures r.Fail? <==> actual <= 0.0 || ideal <= 0.0
    ensures r.Fail? ==> r.error == ValueError
    ensures !r.NoResult?
    ensures r.Ok? && condition == Obesity ==>
              (ideal <= actual ==> ideal <= r.value <= actual) &&
              (actual <= ideal ==> actual <= r.value <= ideal)
    ensures r.Ok? && condition == Malnutrition ==>
              (ideal <= actual ==> actual <= r.value) &&
              (actual <= ideal ==> r.value <= actual)
    ensures r.Ok? && actual == ideal ==> r.value == ideal
  {
    if actual <= 0.0 || ideal <= 0.0 then Fail(ValueError)
    else if condition.Obesity? then Ok((actual - ideal) * 0.25 + ideal)
    else if condition.Malnutrition? then Ok((actual - ideal) * 0.25 + actual)
    else NoResult
  }

  /** Both conditions adjust in the same direction by the same amount: the
      malnutrition result is the obesity result shifted by actual - ideal. */
  lemma AdjustedWeightBranchesDifferByGap(actual: real, ideal: real)
    requires actual > 0.0 && ideal > 0.0
    ensures AdjustedWeight(actual, ideal, Malnutrition).value
            - AdjustedWeight(actual, ideal, Obesity).value == actual - ideal
  {
  }

  // ---------------------------------------------------------------------
  // Weight loss
  // ---------------------------------------------------------------------

  /** Percentage of the usual weight that has been lost. */
  function WeightLossPercent(usual: real, current: real): (r: Outcome)
    ensures r.Fail? <==> usual <= 0.0
    ensures r.Fail? ==> r.error == ValueError
    ensures !r.NoResult?
    ensures r.Ok? ==> (r.value == 0.0 <==> current == usual)
    ensures r.Ok? ==> (r.value > 0.0 <==> current < usual)
  {
    if usual <= 0.0 then Fail(ValueError)
    else Ok(((usual - current) / usual) * 100.0)
  }

  /** While some weight remains, less than all of it has been lost. */
  lemma WeightLossBelowWhole(usual: real, current: real)
    requires usual > 0.0 && current > 0.0
    ensures WeightLossPercent(usual, current).value < 100.0
  {
    QuotientBelowOne(usual - current, usual);
  }

  /** A quotient of a smaller number by a larger positive one is below one. */
  lemma QuotientBelowOne(a: real, b: real)
    requires b > 0.0 && a < b
    ensures a / b < 1.0
  {
  }

  /** The percentage determines the current weight: removing that share of
      the usual weight gives the current weight back. */
  lemma WeightLossRecoversCurrent(usual: real, current: real)
    requires usual > 0.0
    ensures usual - usual * WeightLossPercent(usual, current).value / 100.0 == current
  {
  }

  // ---------------------------------------------------------------------
  // Child weight from knee height and arm circumference
  // ---------------------------------------------------------------------

  /** The knee-height / arm-circumference regression for one sex and
      ethnicity, as a table. */
  function ChildWeightTable(sex: Sex, ethnicity: Ethnicity): Plane {
    match (sex, ethnicity)
    case (Male, White) => Plane(0.68, 2.64, -50.08)
    case (Male, Black) => Plane(0.59, 2.73, -48.32)
    case (Female, White) => Plane(0.77, 2.47, -50.16)
    case (Female, Black) => Plane(0.71, 2.59, -50.43)
  }

  /** Weight of a child or adolescent from knee height and arm circumference.
      Every sex and ethnicity pair has coefficients, so a valid input always
      gets a result. */
  function ChildWeight(kneeHeight: real, armCircumference: real, sex: Sex, ethnicity: Ethnicity): (r: Outcome)
    ensures r.Fail? <==> kneeHeight <= 0.0 || armCircumference <= 0.0
    ensures r.Fail? ==> r.error == ValueError
    ensures !r.NoResult?
    ensures r.Ok? ==> r.value == ChildWeightTable(sex, ethnicity).At(kneeHeight, armCircumference)
  {
    if kneeHeight <= 0.0 || armCircumference <= 0.0 then Fail(ValueError)
    else if sex.Male? then
      if ethnicity.White? then Ok(kneeHeight * 0.68 + armCircumference * 2.64 - 50.08)
      else if ethnicity.Black? then Ok(kneeHeight * 0.59 + armCircumference * 2.73 - 48.32)
      else NoResult
    else if sex.Female? then
      if ethnicity.White? then Ok(kneeHeight * 0.77 + armCircumference * 2.47 - 50.16)
      else if ethnicity.Black? then Ok(kneeHeight * 0.71 + armCircumference * 2.59 - 50.43)
      else NoResult
    else NoResult
  }

  /** A larger knee height or arm circumference never lowers the estimate. */
  lemma ChildWeightMonotone(k1: real, a1: real, k2: real, a2: real, sex: Sex, ethnicity: Ethnicity)
    requires 0.0 < k1 <= k2 && 0.0 < a1 <= a2
    ensures ChildWeight(k1, a1, sex, ethnicity).value <= ChildWeight(k2, a2, sex, ethnicity).value
  {
  }

  // ---------------------------------------------------------------------
  // Stature from tibia or ulna length
  // ---------------------------------------------------------------------

  /** The tibia regression line, shared with the cerebral-palsy estimate. */
  const TibiaLine := Line(3.26, 30.8)

  const UlnaLine := Line(5.45, 20.7)

  /** Length a regression line maps to `stature` (the line's inverse). */
  function LengthFor(line: Line, stature: real): real
    requires line.slope != 0.0
  {
    (stature - line.intercept) / line.slope
  }

  function StatureFromTibia(length: real): (r: Outcome)
    ensures r.Fail? <==> length <= 0.0
    ensures r.Fail? ==> r.error == ValueError
    ensures !r.NoResult?
    ensures r.Ok? ==> r.value > 30.8 && LengthFor(TibiaLine, r.value) == length
  {
    if length <= 0.0 then Fail(ValueError)
    else Ok(3.26 * length + 30.8)
  }

  function StatureFromUlna(length: real): (r: Outcome)
    ensures r.Fail? <==> length <= 0.0
    ensures r.Fail? ==> r.error == ValueError
    ensures !r.NoResult?
    ensures r.Ok? ==> r.value > 20.7 && LengthFor(UlnaLine, r.value) == length
  {
    if length <= 0.0 then Fail(ValueError)
    else Ok(5.45 * length + 20.7)
  }

  /** A longer bone gives a strictly taller estimate. */
  lemma StatureStrictlyIncreasing(l1: real, l2: real)
    requires 0.0 < l1 < l2
    ensures StatureFromTibia(l1).value < StatureFromTibia(l2).value
    ensures StatureFromUlna(l1).value < StatureFromUlna(l2).value
  {
  }

  lemma TibiaStatureExample()
    ensures StatureFromTibia(30.0) == Ok(128.6)
  {
  }

  // ---------------------------------------------------------------------
  // Corrected age for preterm infants
  // ---------------------------------------------------------------------

  /** Weeks per month used by the correction. */
  const WeeksPerMonth: real := 4.34524

  /** Chronological age in months minus the weeks born before term (40
      weeks), converted to months. The chronological age itself is not
      checked. */
  function CorrectedAge(chronologicalMonths: real, gestationalWeeks: real): (r: Outcome)
    ensures r.Fail? <==> gestationalWeeks < 20.0 || gestationalWeeks > 42.0
    ensures r.Fail? ==> r.error == ValueError
    ensures !r.NoResult?
    ensures r.Ok? ==> (r.value == chronologicalMonths <==> gestationalWeeks == 40.0)
    ensures r.Ok? ==> (r.value < chronologicalMonths <==> gestationalWeeks < 40.0)
    ensures r.Ok? ==> (chronologicalMonths - r.value) * WeeksPerMonth == 40.0 - gestationalWeeks
  {
    if gestationalWeeks < 20.0 || gestationalWeeks > 42.0 then Fail(ValueError)
    else Ok(chronologicalMonths - (40.0 - gestationalWeeks) / WeeksPerMonth)
  }

  /** The correction never exceeds twenty weeks' worth of months, nor adds
      more than two weeks' worth. */
  lemma CorrectedAgeBounded(chronologicalMonths: real, gestationalWeeks: real)
    requires 20.0 <= gestationalWeeks <= 42.0
    ensures chronologicalMonths - 20.0 / WeeksPerMonth
            <= CorrectedAge(chronologicalMonths, gestationalWeeks).value
            <= chronologicalMonths + 2.0 / WeeksPerMonth
  {
  }

  // ---------------------------------------------------------------------
  // Body-fat percentage from skinfolds
  // ---------------------------------------------------------------------

  /** Tanner stages grouped as the male low-sum formula groups them. */
  datatype TannerGroup = Stages1To2 | Stage3 | Stages4To5

  function TannerGroupOf(stage: int): TannerGroup
    requires 1 <= stage <= 5
  {
    if stage <= 2 then Stages1To2 else if stage == 3 then Stage3 else Stages4To5
  }

  /** What a male's low-sum formula subtracts, by ethnicity and Tanner group. */
  function MaleLowSumOffset(ethnicity: Ethnicity, group: TannerGroup): real {
    match (ethnicity, group)
    case (White, Stages1To2) => 1.7
    case (White, Stage3) => 3.4
    case (White, Stages4To5) => 5.5
    case (Black, Stages1To2) => 3.2
    case (Black, Stage3) => 5.2
    case (Black, Stages4To5) => 6.8
  }

  /** The high-sum (above 35 mm) line, by sex alone. */
  function HighSumLine(sex: Sex): Line {
    if sex == Male then Line(0.783, 1.6) else Line(0.546, 9.7)
  }

  /** The body-fat model as a lookup table: a sex line above 35 mm, a sex
      quadratic at or below it, and for males an offset keyed by ethnicity
      and Tanner group. */
  function BodyFatTable(sum: real, sex: Sex, stage: int, ethnicity: Ethnicity): real
    requires 1 <= stage <= 5
  {
    if sum > 35.0 then HighSumLine(sex).At(sum)
    else if sex == Male then 1.21 * sum - 0.008 * (sum * sum) - MaleLowSumOffset(ethnicity, TannerGroupOf(stage))
    else 1.33 * sum - 0.013 * (sum * sum) - 2.5
  }

  /** Body-fat percentage from the sum of skinfolds. Both checks come before
      any branch, and every valid input reaches a formula. */
  function BodyFatPercent(sum: real, sex: Sex, stage: int, ethnicity: Ethnicity): (r: Outcome)
    ensures r.Fail? <==> sum <= 0.0 || stage !in [1, 2, 3, 4, 5]
    ensures r.Fail? ==> r.error == ValueError
    ensures !r.NoResult?
    ensures r.Ok? ==> r.value == BodyFatTable(sum, sex, stage, ethnicity)
  {
    if sum <= 0.0 then Fail(ValueError)
    else if stage !in [1, 2, 3, 4, 5] then Fail(ValueError)
    else if sum > 35.0 then
      if sex.Male? then Ok(0.783 * sum + 1.6) else Ok(0.546 * sum + 9.7)
    else if sex.Male? then
      if ethnicity.White? then
        if stage in [1, 2] then Ok(1.21 * sum - 0.008 * (sum * sum) - 1.7)
        else if stage == 3 then Ok(1.21 * sum - 0.008 * (sum * sum) - 3.4)
        else if stage in [4, 5] then Ok(1.21 * sum - 0.008 * (sum * sum) - 5.5)
        else NoResult
      else if ethnicity.Black? then
        if stage in [1, 2] then Ok(1.21 * sum - 0.008 * (sum * sum) - 3.2)
        else if stage == 3 then Ok(1.21 * sum - 0.008 * (sum * sum) - 5.2)
        else if stage in [4, 5] then Ok(1.21 * sum - 0.008 * (sum * sum) - 6.8)
        else NoResult
      else NoResult
    else Ok(1.33 * sum - 0.013 * (sum * sum) - 2.5)
  }

  /** Above 35 mm only sex matters: Tanner stage and ethnicity are ignored. */
  lemma BodyFatHighSumBySexOnly(sum: real, sex: Sex, s1: int, e1: Ethnicity, s2: int, e2: Ethnicity)
    requires sum > 35.0 && 1 <= s1 <= 5 && 1 <= s2 <= 5
    ensures BodyFatPercent(sum, sex, s1, e1) == BodyFatPercent(sum, sex, s2, e2)
    ensures BodyFatPercent(sum, sex, s1, e1).value == HighSumLine(sex).At(sum)
  {
  }

  /** The female formula ignores Tanner stage and ethnicity at every sum. */
  lemma BodyFatFemaleIgnoresStageAndEthnicity(sum: real, s1: int, e1: Ethnicity, s2: int, e2: Ethnicity)
    requires sum > 0.0 && 1 <= s1 <= 5 && 1 <= s2 <= 5
    ensures BodyFatPercent(sum, Female, s1, e1) == BodyFatPercent(sum, Female, s2, e2)
  {
  }

  /** For males, stages 1 and 2 share a formula, as do stages 4 and 5. */
  lemma BodyFatMaleStagePairs(sum: real, ethnicity: Ethnicity)
    requires sum > 0.0
    ensures BodyFatPercent(sum, Male, 1, ethnicity) == BodyFatPercent(sum, Male, 2, ethnicity)
    ensures BodyFatPercent(sum, Male, 4, ethnicity) == BodyFatPercent(sum, Male, 5, ethnicity)
  {
  }

  /** In the low-sum tier, for males a later Tanner group never raises the
      estimate, and Black males get a lower estimate than White males. */
  lemma BodyFatMaleLowSumOrdering(sum: real, s1: int, s2: int, ethnicity: Ethnicity)
    requires 0.0 < sum <= 35.0 && 1 <= s1 <= s2 <= 5
    ensures BodyFatPercent(sum, Male, s2, ethnicity).value <= BodyFatPercent(sum, Male, s1, ethnicity).value
    ensures BodyFatPercent(sum, Male, s1, Black).value < BodyFatPercent(sum, Male, s1, White).value
  {
  }

  /** Within each tier the estimate grows with the skinfold sum: the low-sum
      quadratics are still rising at 35 mm. */
  lemma BodyFatMonotoneWithinTier(s1: real, s2: real, sex: Sex, stage: int, ethnicity: Ethnicity)
    requires 0.0 < s1 <= s2 && 1 <= stage <= 5
    requires s2 <= 35.0 || 35.0 < s1
    ensures BodyFatPercent(s1, sex, stage, ethnicity).value <= BodyFatPercent(s2, sex, stage, ethnicity).value
  {
    if s2 <= 35.0 {
      var d := s2 - s1;
      // f(s2) - f(s1) = d * (linear - quadratic * (s1 + s2)), and s1 + s2 <= 70.
      assert s2 * s2 - s1 * s1 == d * (s1 + s2);
      assert d * (s1 + s2) <= d * 70.0;
      if sex == Male {
        assert 1.21 * s2 - 0.008 * (s2 * s2) - (1.21 * s1 - 0.008 * (s1 * s1)) >= d * (1.21 - 0.008 * 70.0);
      } else {
        assert 1.33 * s2 - 0.013 * (s2 * s2) - (1.33 * s1 - 0.013 * (s1 * s1)) >= d * (1.33 - 0.013 * 70.0);
      }
    }
  }

  /** Across the 35 mm boundary the tiers do not join: for a White male at
      Tanner stage 1 the estimate drops from 30.85 at 35 mm to 29.788 at 36 mm. */
  lemma BodyFatDropsAcrossTiers()
    ensures BodyFatPercent(35.0, Male, 1, White) == Ok(30.85)
    ensures BodyFatPercent(36.0, Male, 1, White) == Ok(29.788)
  {
  }

  // ---------------------------------------------------------------------
  // Arm measures
  // ---------------------------------------------------------------------

  /** Arm muscle circumference: the arm circumference less the triceps
      skinfold (mm, converted to cm) times 0.314. */
  function ArmMuscleCircumference(armCircumference: real, tricepsMm: real): (r: Outcome)
    ensures r.Fail? <==> armCircumference <= 0.0 || tricepsMm <= 0.0
    ensures r.Fail? ==> r.error == ValueError
    ensures !r.NoResult?
    ensures r.Ok? ==> r.value < armCircumference
  {
    if armCircumference <= 0.0 || tricepsMm <= 0.0 then Fail(ValueError)
    else Ok(armCircumference - (0.314 * (tricepsMm / 10.0)))
  }

  /** Arm muscle area from the same two measures. */
  function ArmMuscleArea(armCircumference: real, tricepsMm: real): (r: Outcome)
    ensures r.Fail? <==> armCircumference <= 0.0 || tricepsMm <= 0.0
    ensures r.Fail? ==> r.error == ValueError
    ensures !r.NoResult?
    ensures r.Ok? ==> r.value >= 0.0
  {
    if armCircumference <= 0.0 || tricepsMm <= 0.0 then Fail(ValueError)
    else
      var tricepsCm := tricepsMm / 10.0;
      Ok(((armCircumference - 0.314 * tricepsCm) * (armCircumference - 0.314 * tricepsCm)) / 12.56)
  }

  /** The muscle area is the area of a circle whose circumference is the
      muscle circumference, with pi taken as 3.14 (12.56 = 4 x 3.14). */
  lemma ArmMuscleAreaFromCircumference(armCircumference: real, tricepsMm: real)
    requires armCircumference > 0.0 && tricepsMm > 0.0
    ensures var c := ArmMuscleCircumference(armCircumference, tricepsMm).value;
            ArmMuscleArea(armCircumference, tricepsMm).value == c * c / (4.0 * 3.14)
  {
  }

  /** Arm fat area: the whole arm's area estimate, 0.79 (arm / 3.14)^2, less
      the muscle area. The source divides by 3.14, not by pi. */
  function ArmFatArea(armCircumference: real, muscleArea: real): (r: Outcome)
    ensures r.Fail? <==> armCircumference <= 0.0 || muscleArea <= 0.0
    ensures r.Fail? ==> r.error == ValueError
    ensures !r.NoResult?
    ensures r.Ok? ==> r.value + muscleArea == 0.79 * ((armCircumference / 3.14) * (armCircumference / 3.14))
  {
    if armCircumference <= 0.0 || muscleArea <= 0.0 then Fail(ValueError)
    else Ok(0.79 * ((armCircumference / 3.14) * (armCircumference / 3.14)) - muscleArea)
  }

  /** More muscle area means less fat area, by the same amount. */
  lemma ArmFatAreaDecreasing(armCircumference: real, m1: real, m2: real)
    requires armCircumference > 0.0 && 0.0 < m1 <= m2
    ensures ArmFatArea(armCircumference, m1).value - ArmFatArea(armCircumference, m2).value == m2 - m1
  {
  }

  /** Fed the muscle area of the same arm, the fat area is accepted and
      positive whenever the muscle circumference is: the whole-arm estimate
      0.79 (arm / 3.14)^2 exceeds the circle area arm^2 / 12.56, because
      0.79 / 3.14^2 > 1 / 12.56. */
  lemma ArmFatAreaOfOwnMuscleArea(armCircumference: real, tricepsMm: real)
    requires tricepsMm > 0.0 && armCircumference - 0.314 * (tricepsMm / 10.0) > 0.0
    ensures ArmMuscleArea(armCircumference, tricepsMm).Ok?
    ensures ArmFatArea(armCircumference, ArmMuscleArea(armCircumference, tricepsMm).value).Ok?
    ensures ArmFatArea(armCircumference, ArmMuscleArea(armCircumference, tricepsMm).value).value > 0.0
  {
    CircleAreaBelowArmEstimate(armCircumference - 0.314 * (tricepsMm / 10.0), armCircumference,
                               ArmMuscleArea(armCircumference, tricepsMm).value);
  }

  /** For a circumference `c` strictly inside the arm circumference `a`, the
      circle area c^2 / 12.56 lies strictly between 0 and the whole-arm
      estimate 0.79 (a / 3.14)^2. */
  lemma CircleAreaBelowArmEstimate(c: real, a: real, area: real)
    requires 0.0 < c < a && area == c * c / 12.56
    ensures 0.0 < area < 0.79 * ((a / 3.14) * (a / 3.14))
  {
    // The square is split into a product of two distinct terms, whose sign
    // and order the solver can then follow.
    var half := c / 2.0;
    assert area == 2.0 * (c * half) / 12.56;
    assert c * half > 0.0;
    var b := a;
    assert c * c < c * b;
    assert c * b < b * b;
    assert (a / 3.14) * (a / 3.14) == a * a / 9.8596;
  }

  /** The fat area checks only that its inputs are positive, so a muscle
      area larger than the whole-arm estimate gives a negative fat area. */
  lemma ArmFatAreaCanBeNegative()
    ensures ArmFatArea(5.0, 30.0).Ok?
    ensures ArmFatArea(5.0, 30.0).value < 0.0
  {
  }

  // ---------------------------------------------------------------------
  // Stature in cerebral palsy
  // ---------------------------------------------------------------------

  /** The three named stature estimates for a child with cerebral palsy
      (by tibia, by upper-arm and by knee length). */
  datatype CpStature = CpStature(byTibia: real, byUpperArm: real, byKnee: real)

  /** The three estimates; no input is checked. The tibia estimate is the
      general tibia line plus 1.4 cm. */
  function CpStatureEstimates(upperArm: real, tibia: real, knee: real): (r: CpStature)
    ensures r.byTibia == TibiaLine.At(tibia) + 1.4
    ensures tibia > 0.0 ==> r.byTibia == StatureFromTibia(tibia).value + 1.4
  {
    CpStature(3.26 * tibia + 30.8 + 1.4, 4.35 * upperArm + 21.8 + 1.7, 2.69 * knee + 24.2 + 1.1)
  }

  /** Each estimate depends on its own length only. */
  lemma CpStatureEachFromOwnLength(u1: real, t1: real, k1: real, u2: real, t2: real, k2: real)
    ensures CpStatureEstimates(u1, t1, k1).byTibia == CpStatureEstimates(u2, t1, k2).byTibia
    ensures CpStatureEstimates(u1, t1, k1).byUpperArm == CpStatureEstimates(u1, t2, k2).byUpperArm
    ensures CpStatureEstimates(u1, t1, k1).byKnee == CpStatureEstimates(u2, t2, k1).byKnee
  {
  }

  /** The mean the dashboard reports for the three estimates; it lies
      between the smallest and the largest of them. */
  function CpStatureMean(e: CpStature): (m: real)
    ensures Min3(e.byTibia, e.byUpperArm, e.byKnee) <= m <= Max3(e.byTibia, e.byUpperArm, e.byKnee)
    ensures e.byTibia == e.byUpperArm == e.byKnee ==> m == e.byTibia
  {
    (e.byTibia + e.byUpperArm + e.byKnee) / 3.0
  }

  function Min3(a: real, b: real, c: real): real {
    if a <= b && a <= c then a else if b <= c then b else c
  }

  function Max3(a: real, b: real, c: real): real {
    if a >= b && a >= c then a else if b >= c then b else c
  }

  /** Stature of an adolescent with cerebral palsy from age and ulna length;
      no input is checked. */
  function AdolescentCpStature(age: real, sex: Sex, ulna: real): real {
    var sexIndicator := if sex == Male then 1.0 else 0.0;
    30.35 + (1.29 * age) + (0.77 * sexIndicator) + (4.32 * ulna)
  }

  /** Males are 0.77 cm taller than females of the same age and ulna; each
      year adds 1.29 cm and each cm of ulna 4.32 cm. */
  lemma AdolescentCpStatureEffects(age: real, sex: Sex, ulna: real)
    ensures AdolescentCpStature(age, Male, ulna) - AdolescentCpStature(age, Female, ulna) == 0.77
    ensures AdolescentCpStature(age + 1.0, sex, ulna) - AdolescentCpStature(age, sex, ulna) == 1.29
    ensures AdolescentCpStature(age, sex, ulna + 1.0) - AdolescentCpStature(age, sex, ulna) == 4.32
  {
  }

  // ---------------------------------------------------------------------
  // Weight corrected for amputation
  // ---------------------------------------------------------------------

  /** Current weight scaled up to the whole body, given the percentage of
      body weight the amputated segment stood for. */
  function AmputationCorrectedWeight(weight: real, percent: real): (r: Outcome)
    ensures r.Fail? <==> weight <= 0.0 || percent < 0.0 || percent >= 100.0
    ensures r.Fail? ==> r.error == ValueError
    ensures !r.NoResult?
    ensures r.Ok? ==> r.value * (100.0 - percent) == weight * 100.0
    ensures r.Ok? && percent == 0.0 ==> r.value == weight
  {
    if weight <= 0.0 then Fail(ValueError)
    else if percent < 0.0 || percent >= 100.0 then Fail(ValueError)
    else Ok(weight * 100.0 / (100.0 - percent))
  }

  /** The corrected weight is never below the current weight, equals it only
      without amputation, and grows with the amputated share. */
  lemma AmputationCorrectedWeightGrows(weight: real, p1: real, p2: real)
    requires weight > 0.0 && 0.0 <= p1 <= p2 < 100.0
    ensures weight <= AmputationCorrectedWeight(weight, p1).value <= AmputationCorrectedWeight(weight, p2).value
    ensures AmputationCorrectedWeight(weight, p1).value == weight <==> p1 == 0.0
  {
    var n, d1, d2 := weight * 100.0, 100.0 - p1, 100.0 - p2;
    var c1, c2 := n / d1, n / d2;
    assert AmputationCorrectedWeight(weight, p1).value == c1;
    assert AmputationCorrectedWeight(weight, p2).value == c2;
    // Both corrected weights times their remaining share give the same n,
    // and the remaining shares satisfy d1 >= d2 > 0.
    assert c1 * d1 == n && c2 * d2 == n;
    assert c1 > 0.0;
    assert c1 * d2 <= c1 * d1;
    assert c1 * d2 <= c2 * d2;
    assert c1 <= c2;
    assert c1 * d1 >= weight * d1;
    assert c1 >= weight;
    if p1 != 0.0 {
      assert c1 * d1 > weight * d1;
    }
  }
}
