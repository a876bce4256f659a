/** Energy and metabolic formulas: total energy expenditure, the paediatric
    energy requirement, basal metabolic rate (general and Schofield), and the
    energy needs of children with cerebral palsy, with Down syndrome, or
    critically ill.

    Most are piecewise by age band. The bands are stated here as predicates
    over the age, independently of the formulas' own if-chains, and each
    formula's contract says which band's coefficients it applies.
 */
module Energy {
  import opened Results
  import opened Categories

  // ---------------------------------------------------------------------
  // Total energy expenditure
  // ---------------------------------------------------------------------

  /** The factor an optional argument contributes: its value when truthy,
      otherwise the neutral 1. */
  function FactorOrOne(o: Option<real>): real {
    if Truthy(o) then o.value else 1.0
  }

  /** Basal expenditure times at most one factor. Supplying both factors is
      refused by truthiness: any two non-zero factors, whatever their size. A
      factor of zero counts as not supplied. */
  function TotalEnergyExpenditure(basal: real, activity: Option<real>, stress: Option<real>): (r: Outcome)
    ensures r.Fail? <==> basal <= 0.0 || (Truthy(activity) && Truthy(stress))
    ensures r.Fail? ==> r.error == ValueError
    ensures !r.NoResult?
    ensures r.Ok? ==> r.value == basal * FactorOrOne(activity) * FactorOrOne(stress)
    ensures r.Ok? && !Truthy(activity) && !Truthy(stress) ==> r.value == basal
  {
    if basal <= 0.0 then Fail(ValueError)
    else if Truthy(activity) && Truthy(stress) then Fail(ValueError)
    else if Truthy(activity) then Ok(basal * activity.value)
    else if Truthy(stress) then Ok(basal * stress.value)
    else Ok(basal)
  }

  /** The two factors are interchangeable when only one is supplied, and a
      factor of 1 leaves the basal expenditure unchanged. */
  lemma TotalEnergyFactorsInterchangeable(basal: real, f: real)
    requires basal > 0.0
    ensures TotalEnergyExpenditure(basal, Some(f), None) == TotalEnergyExpenditure(basal, None, Some(f))
    ensures TotalEnergyExpenditure(basal, Some(1.0), None) == Ok(basal)
    ensures TotalEnergyExpenditure(basal, Some(0.0), Some(f)) == TotalEnergyExpenditure(basal, None, Some(f))
  {
  }

  /** Two factors below 1 are refused too: the check is truthiness, not a
      comparison with the neutral value 1. */
  lemma TotalEnergyRefusesAnyTwoFactors()
    ensures TotalEnergyExpenditure(1500.0, Some(0.5), Some(0.9)) == Fail(ValueError)
    ensures TotalEnergyExpenditure(1500.0, Some(1.2), Some(1.3)) == Fail(ValueError)
  {
  }

  // ---------------------------------------------------------------------
  // Energy requirement of children and adolescents
  // ---------------------------------------------------------------------

  /** The age bands of the requirement formula, in years. */
  datatype RequirementBand =
    | Months0To3      // age <= 0.25
    | Months4To6      // 0.25 < age <= 0.5
    | Months7To12     // 0.5 < age <= 1
    | Months13To35    // 1 < age <= 2.92
    | Years3To8       // 3 <= age < 9
    | Years9To18      // 9 <= age <= 18

  predicate InRequirementBand(b: RequirementBand, age: real) {
    match b
    case Months0To3 => age <= 0.25
    case Months4To6 => 0.25 < age <= 0.5
    case Months7To12 => 0.5 < age <= 1.0
    case Months13To35 => 1.0 < age <= 2.92
    case Years3To8 => 3.0 <= age < 9.0
    case Years9To18 => 9.0 <= age <= 18.0
  }

  /** The constant each band adds to its formula. */
  function RequirementBandConstant(b: RequirementBand): real {
    match b
    case Months0To3 => 175.0
    case Months4To6 => 56.0
    case Months7To12 => 22.0
    case Months13To35 => 20.0
    case Years3To8 => 20.0
    case Years9To18 => 25.0
  }

  /** The school-age formula before its band constant: a sex-specific age
      term plus the activity factor times a weight and height term. */
  function SchoolAgeRequirement(age: real, weight: real, height: real, sex: Sex, activity: real): real {
    if sex == Male then 88.5 - 61.9 * age + activity * (26.7 * weight + 903.0 * height)
    else 135.3 - 30.8 * age + activity * (10.0 * weight + 934.0 * height)
  }

  /** What band `b` computes: infants use weight alone, older children the
      school-age formula; each adds the band constant. */
  function RequirementInBand(b: RequirementBand, age: real, weight: real, height: real, sex: Sex, activity: real): real {
    if b.Years3To8? || b.Years9To18? then SchoolAgeRequirement(age, weight, height, sex, activity) + RequirementBandConstant(b)
    else 89.0 * weight - 100.0 + RequirementBandConstant(b)
  }

  /** Estimated energy requirement. Ages strictly between 2.92 and 3 years,
      and ages above 18, fall in no band and get no result. */
  function EnergyRequirement(age: real, weight: real, height: real, sex: Sex, activity: real): (r: Outcome)
    ensures r.Fail? <==> age < 0.0 || weight <= 0.0 || height <= 0.0 || activity <= 0.0
    ensures r.Fail? ==> r.error == ValueError
    ensures r.NoResult? <==> !r.Fail? && ((2.92 < age < 3.0) || age > 18.0)
    ensures r.NoResult? ==> forall b :: !InRequirementBand(b, age)
    ensures forall b :: r.Ok? && InRequirementBand(b, age) ==>
              r.value == RequirementInBand(b, age, weight, height, sex, activity)
  {
    if age < 0.0 || weight <= 0.0 || height <= 0.0 || activity <= 0.0 then Fail(ValueError)
    else if age <= 0.25 then Ok(89.0 * weight - 100.0 + 175.0)
    else if age <= 0.5 then Ok(89.0 * weight - 100.0 + 56.0)
    else if age <= 1.0 then Ok(89.0 * weight - 100.0 + 22.0)
    else if age <= 2.92 then Ok(89.0 * weight - 100.0 + 20.0)
    else if 3.0 <= age < 9.0 then
      if sex == Male then Ok(88.5 - 61.9 * age + activity * (26.7 * weight + 903.0 * height) + 20.0)
      else Ok(135.3 - 30.8 * age + activity * (10.0 * weight + 934.0 * height) + 20.0)
    else if 9.0 <= age <= 18.0 then
      if sex == Male then Ok(88.5 - 61.9 * age + activity * (26.7 * weight + 903.0 * height) + 25.0)
      else Ok(135.3 - 30.8 * age + activity * (10.0 * weight + 934.0 * height) + 25.0)
    else NoResult
  }

  /** No age lies in two requirement bands. */
  lemma RequirementBandsDisjoint(b1: RequirementBand, b2: RequirementBand, age: real)
    requires InRequirementBand(b1, age) && InRequirementBand(b2, age)
    ensures b1 == b2
  {
  }

  /** Each boundary belongs to the band below it (0.25, 0.5, 1, 2.92, 18),
      except 3 and 9, which open the band above; just past 2.92 and past 18
      there is no result. */
  lemma RequirementBoundaries(weight: real, height: real, sex: Sex, activity: real)
    requires weight > 0.0 && height > 0.0 && activity > 0.0
    ensures EnergyRequirement(0.25, weight, height, sex, activity) == Ok(89.0 * weight - 100.0 + 175.0)
    ensures EnergyRequirement(0.5, weight, height, sex, activity) == Ok(89.0 * weight - 100.0 + 56.0)
    ensures EnergyRequirement(1.0, weight, height, sex, activity) == Ok(89.0 * weight - 100.0 + 22.0)
    ensures EnergyRequirement(2.92, weight, height, sex, activity) == Ok(89.0 * weight - 100.0 + 20.0)
    ensures EnergyRequirement(2.95, weight, height, sex, activity) == NoResult
    ensures EnergyRequirement(3.0, weight, height, sex, activity) == Ok(SchoolAgeRequirement(3.0, weight, height, sex, activity) + 20.0)
    ensures EnergyRequirement(9.0, weight, height, sex, activity) == Ok(SchoolAgeRequirement(9.0, weight, height, sex, activity) + 25.0)
    ensures EnergyRequirement(18.0, weight, height, sex, activity) == Ok(SchoolAgeRequirement(18.0, weight, height, sex, activity) + 25.0)
    ensures EnergyRequirement(18.5, weight, height, sex, activity) == NoResult
  {
  }

  /** At nine years the school-age formula steps up by 5 kcal: the value
      just below nine tends to the same formula with constant 20, at nine the
      constant is 25. */
  lemma RequirementStepAtNine(weight: real, height: real, sex: Sex, activity: real)
    requires weight > 0.0 && height > 0.0 && activity > 0.0
    ensures EnergyRequirement(9.0, weight, height, sex, activity).value
            - RequirementInBand(Years3To8, 9.0, weight, height, sex, activity) == 5.0
  {
  }

  // ---------------------------------------------------------------------
  // Basal metabolic rate and the Schofield equation
  // ---------------------------------------------------------------------

  /** The three age bands of the metabolic formulas, in years, each closed
      at its upper end. */
  datatype MetabolicBand = UpTo3Years | UpTo10Years | UpTo18Years

  predicate InMetabolicBand(b: MetabolicBand, age: real) {
    match b
    case UpTo3Years => age <= 3.0
    case UpTo10Years => 3.0 < age <= 10.0
    case UpTo18Years => 10.0 < age <= 18.0
  }

  /** Up to 18 years every age lies in exactly one metabolic band. */
  lemma MetabolicBandsPartition(age: real, b1: MetabolicBand, b2: MetabolicBand)
    ensures age <= 18.0 ==> InMetabolicBand(UpTo3Years, age) || InMetabolicBand(UpTo10Years, age) || InMetabolicBand(UpTo18Years, age)
    ensures age > 18.0 ==> !InMetabolicBand(b1, age)
    ensures InMetabolicBand(b1, age) && InMetabolicBand(b2, age) ==> b1 == b2
  {
  }

  /** Basal metabolic rate lines, by sex and band (weight in kg). */
  function BmrTable(sex: Sex, b: MetabolicBand): Line {
    match (sex, b)
    case (Male, UpTo3Years) => Line(60.9, -54.0)
    case (Male, UpTo10Years) => Line(22.7, 495.0)
    case (Male, UpTo18Years) => Line(17.5, 651.0)
    case (Female, UpTo3Years) => Line(61.0, -51.0)
    case (Female, UpTo10Years) => Line(22.5, 499.0)
    case (Female, UpTo18Years) => Line(12.2, 746.0)
  }

  /** Schofield lines, by sex and band (weight in kg). */
  function SchofieldTable(sex: Sex, b: MetabolicBand): Line {
    match (sex, b)
    case (Male, UpTo3Years) => Line(54.48, -30.33)
    case (Male, UpTo10Years) => Line(22.7, 505.0)
    case (Male, UpTo18Years) => Line(13.4, 693.0)
    case (Female, UpTo3Years) => Line(58.29, -31.05)
    case (Female, UpTo10Years) => Line(20.3, 486.0)
    case (Female, UpTo18Years) => Line(17.7, 659.0)
  }

  /** Basal metabolic rate of a child or adolescent. */
  function BasalMetabolicRate(weight: real, age: real, sex: Sex): (r: Outcome)
    ensures r.Fail? <==> weight <= 0.0 || age < 0.0
    ensures r.Fail? ==> r.error == ValueError
    ensures r.NoResult? <==> !r.Fail? && age > 18.0
    ensures forall b :: r.Ok? && InMetabolicBand(b, age) ==> r.value == BmrTable(sex, b).At(weight)
  {
    if weight <= 0.0 || age < 0.0 then Fail(ValueError)
    else if sex == Male then
      if age <= 3.0 then Ok(60.9 * weight - 54.0)
      else if age <= 10.0 then Ok(22.7 * weight + 495.0)
      else if age <= 18.0 then Ok(17.5 * weight + 651.0)
      else NoResult
    else
      if age <= 3.0 then Ok(61.0 * weight - 51.0)
      else if age <= 10.0 then Ok(22.5 * weight + 499.0)
      else if age <= 18.0 then Ok(12.2 * weight + 746.0)
      else NoResult
  }

  lemma BasalMetabolicRateExamples()
    ensures BasalMetabolicRate(20.0, 5.0, Male) == Ok(949.0)
    ensures BasalMetabolicRate(20.0, 19.0, Male) == NoResult
  {
  }

  /** The Schofield equation. Height is accepted and ignored, and nothing
      is checked: a negative age is in the youngest band. */
  function SchofieldBmr(weight: real, height: real, age: real, sex: Sex): (r: Outcome)
    ensures !r.Fail?
    ensures r.NoResult? <==> age > 18.0
    ensures forall b :: r.Ok? && InMetabolicBand(b, age) ==> r.value == SchofieldTable(sex, b).At(weight)
  {
    if sex == Male then
      if age <= 3.0 then Ok(54.48 * weight - 30.33)
      else if age <= 10.0 then Ok(22.7 * weight + 505.0)
      else if age <= 18.0 then Ok(13.4 * weight + 693.0)
      else NoResult
    else
      if age <= 3.0 then Ok(58.29 * weight - 31.05)
      else if age <= 10.0 then Ok(20.3 * weight + 486.0)
      else if age <= 18.0 then Ok(17.7 * weight + 659.0)
      else NoResult
  }

  /** The Schofield result does not depend on height. */
  lemma SchofieldIgnoresHeight(weight: real, h1: real, h2: real, age: real, sex: Sex)
    ensures SchofieldBmr(weight, h1, age, sex) == SchofieldBmr(weight, h2, age, sex)
  {
  }

  /** On inputs the general formula accepts, both formulas give a result for
      exactly the same ages; only the general one rejects bad inputs. */
  lemma BmrAndSchofieldShareBands(weight: real, height: real, age: real, sex: Sex)
    ensures weight > 0.0 && age >= 0.0 ==>
              (BasalMetabolicRate(weight, age, sex).Ok? <==> SchofieldBmr(weight, height, age, sex).Ok?)
    ensures weight <= 0.0 && age <= 18.0 ==>
              BasalMetabolicRate(weight, age, sex).Fail? && SchofieldBmr(weight, height, age, sex).Ok?
  {
  }

  // ---------------------------------------------------------------------
  // Cerebral palsy
  // ---------------------------------------------------------------------

  /** Base need lines for cerebral palsy, by sex and band (weight in kg,
      height in m). */
  function CpBaseTable(sex: Sex, b: MetabolicBand): Plane {
    match (sex, b)
    case (Female, UpTo3Years) => Plane(16.25, 1023.2, -413.5)
    case (Female, UpTo10Years) => Plane(16.97, 161.8, 371.2)
    case (Female, UpTo18Years) => Plane(8.365, 465.0, 200.0)
    case (Male, UpTo3Years) => Plane(0.167, 1517.4, -617.6)
    case (Male, UpTo10Years) => Plane(19.6, 130.3, 414.9)
    case (Male, UpTo18Years) => Plane(16.25, 137.2, 515.5)
  }

  /** The base need the band branches assign, or `None` when no branch
      assigns it (age above 18). */
  function CpBase(weight: real, height: real, sex: Sex, age: real): Option<real> {
    if sex == Female then
      if age <= 3.0 then Some(16.25 * weight + 1023.2 * height - 413.5)
      else if age <= 10.0 then Some(16.97 * weight + 161.8 * height + 371.2)
      else if age <= 18.0 then Some(8.365 * weight + 465.0 * height + 200.0)
      else None
    else
      if age <= 3.0 then Some(0.167 * weight + 1517.4 * height - 617.6)
      else if age <= 10.0 then Some(19.6 * weight + 130.3 * height + 414.9)
      else if age <= 18.0 then Some(16.25 * weight + 137.2 * height + 515.5)
      else None
  }

  /** Energy need in cerebral palsy: the band's base need times the stress
      factor. Above 18 no branch assigns the base, so reading it raises
      `UnboundLocalError` instead of returning no result. */
  function CpEnergyNeed(weight: real, height: real, sex: Sex, age: real, stress: real): (r: Outcome)
    ensures r.Fail? && r.error == ValueError <==> weight <= 0.0 || height <= 0.0 || age < 0.0 || stress <= 0.0
    ensures r.Fail? && r.error == UnboundLocalError <==>
              !(weight <= 0.0 || height <= 0.0 || age < 0.0 || stress <= 0.0) && age > 18.0
    ensures !r.NoResult?
    ensures forall b :: r.Ok? && InMetabolicBand(b, age) ==> r.value == CpBaseTable(sex, b).At(weight, height) * stress
  {
    if weight <= 0.0 || height <= 0.0 || age < 0.0 || stress <= 0.0 then Fail(ValueError)
    else
      var base := CpBase(weight, height, sex, age);
      if base.None? then Fail(UnboundLocalError)
      else Ok(base.value * stress)
  }

  /** The need scales linearly with the stress factor: k times the factor
      gives k times the need. */
  lemma CpEnergyNeedLinearInStress(weight: real, height: real, sex: Sex, age: real, stress: real, k: real)
    requires weight > 0.0 && height > 0.0 && 0.0 <= age <= 18.0 && stress > 0.0 && k > 0.0
    ensures CpEnergyNeed(weight, height, sex, age, k * stress).Ok?
    ensures CpEnergyNeed(weight, height, sex, age, k * stress).value
            == k * CpEnergyNeed(weight, height, sex, age, stress).value
  {
  }

  /** Per-cm coefficient of each activity level (children aged 5 to 11). */
  function ActivityCoefficient(a: ActivityLevel): real {
    match a
    case MildModerate => 13.9
    case RestrictedIntense => 10.0
    case SevereRestriction => 11.1
  }

  /** Energy need of a child with cerebral palsy aged 5 to 11, from height
      in cm and the activity label; an unknown label gives 0. */
  function CpEnergy5To11(height: real, level: string): (r: real)
    ensures ParseActivityLevel(level).Some? ==> r == ActivityCoefficient(ParseActivityLevel(level).value) * height
    ensures ParseActivityLevel(level).None? ==> r == 0.0
  {
    if level == MildModerate.Label() then 13.9 * height
    else if level == RestrictedIntense.Label() then 10.0 * height
    else if level == SevereRestriction.Label() then 11.1 * height
    else 0.0
  }

  /** Each level's label selects that level's coefficient, and for a
      positive height the needs order as restricted-intense < severe
      restriction < mild-moderate. */
  lemma CpEnergy5To11ByLevel(height: real, a: ActivityLevel)
    ensures CpEnergy5To11(height, a.Label()) == ActivityCoefficient(a) * height
    ensures height > 0.0 ==>
              CpEnergy5To11(height, RestrictedIntense.Label()) < CpEnergy5To11(height, SevereRestriction.Label())
              < CpEnergy5To11(height, MildModerate.Label())
  {
    ActivityLabelRoundTrip(a);
  }

  /** Per-cm coefficient of each motor condition. */
  function MotorCoefficient(m: MotorCondition): real {
    match m
    case NoMotorDysfunction => 15.0
    case NonAmbulatory => 11.0
    case AmbulatoryWithoutDysfunction => 14.0
  }

  /** Energy need of a child or adolescent with stable cerebral palsy, from
      height in cm and the motor-condition label; an unknown label gives 0. */
  function CpEnergyStable(height: real, condition: string): (r: real)
    ensures ParseMotorCondition(condition).Some? ==> r == MotorCoefficient(ParseMotorCondition(condition).value) * height
    ensures ParseMotorCondition(condition).None? ==> r == 0.0
  {
    if condition == "sem disfunção motora" then 15.0 * height
    else if condition == "não deambular (caminhar)" then 11.0 * height
    else if condition == "não apresentar disfunção mas deambular" then 14.0 * height
    else 0.0
  }

  /** Each condition's label selects its coefficient; less motor function
      means a lower need. */
  lemma CpEnergyStableByCondition(height: real, m: MotorCondition)
    ensures CpEnergyStable(height, m.Label()) == MotorCoefficient(m) * height
    ensures height > 0.0 ==>
              CpEnergyStable(height, NonAmbulatory.Label()) < CpEnergyStable(height, AmbulatoryWithoutDysfunction.Label())
              < CpEnergyStable(height, NoMotorDysfunction.Label())
  {
    MotorLabelRoundTrip(m);
  }

  /** General energy need in cerebral palsy (weight kg, height cm, age
      years); nothing is checked. */
  function CpEnergyGeneral(weight: real, height: real, age: real, sex: Sex): real {
    if sex == Male then 66.5 + (13.75 * weight) + (5.003 * height) - (6.775 * age)
    else 65.1 + (9.56 * weight) + (1.85 * height) - (4.676 * age)
  }

  /** The general need grows with weight and height and falls with age. */
  lemma CpEnergyGeneralMonotone(w1: real, h1: real, a1: real, w2: real, h2: real, a2: real, sex: Sex)
    requires w1 <= w2 && h1 <= h2 && a2 <= a1
    ensures CpEnergyGeneral(w1, h1, a1, sex) <= CpEnergyGeneral(w2, h2, a2, sex)
  {
  }

  // ---------------------------------------------------------------------
  // Down syndrome and critical illness
  // ---------------------------------------------------------------------

  /** Energy need of a child with Down syndrome from height in cm. */
  function DownSyndromeEnergy(height: real, sex: Sex): real {
    if sex == Male then 16.1 * height else 14.3 * height
  }

  /** Both sexes are proportional to height, the male need by 16.1/14.3 of
      the female one. */
  lemma DownSyndromeMaleToFemale(height: real)
    ensures DownSyndromeEnergy(height, Male) * 14.3 == DownSyndromeEnergy(height, Female) * 16.1
    ensures height > 0.0 ==> DownSyndromeEnergy(height, Female) < DownSyndromeEnergy(height, Male)
  {
  }

  /** Kilocalories per kilojoule used by the critical-illness formula. */
  const KcalPerKj: real := 0.239

  /** Basal expenditure of a critically ill child, in kcal: a kJ regression
      in age (months), weight and temperature, converted to kcal. */
  function CriticalIllnessBasal(ageMonths: real, weight: real, temperature: real): real {
    ((17.0 * ageMonths) + (48.0 * weight) + (292.0 * temperature) - 9677.0) * KcalPerKj
  }

  /** One more month adds 4.063 kcal, one more kg 11.472 kcal and one more
      degree 69.788 kcal. */
  lemma CriticalIllnessBasalEffects(ageMonths: real, weight: real, temperature: real)
    ensures CriticalIllnessBasal(ageMonths + 1.0, weight, temperature) - CriticalIllnessBasal(ageMonths, weight, temperature) == 4.063
    ensures CriticalIllnessBasal(ageMonths, weight + 1.0, temperature) - CriticalIllnessBasal(ageMonths, weight, temperature) == 11.472
    ensures CriticalIllnessBasal(ageMonths, weight, temperature + 1.0) - CriticalIllnessBasal(ageMonths, weight, temperature) == 69.788
  {
  }
}
