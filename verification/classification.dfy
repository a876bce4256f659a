/** The interpretation the dashboard puts on some results, lifted out of its
    display code: the severity bands for weight loss, body fat and arm
    muscle circumference, the body-weight share of each amputated limb, and
    how the total-energy form turns its two factor fields into one call.
 */
module Classification {
  import opened Results
  import opened Categories
  import Anthropometry
  import Energy

  // ---------------------------------------------------------------------
  // Weight-loss severity
  // ---------------------------------------------------------------------

  datatype LossSeverity = Insignificant | Moderate | Severe {
    /** Position in increasing order of severity. */
    function Rank(): nat {
      match this
      case Insignificant => 0
      case Moderate => 1
      case Severe => 2
    }
  }

  /** Below 5 % insignificant, from 5 % below 10 % moderate, otherwise severe. */
  function ClassifyWeightLoss(percent: real): (s: LossSeverity)
    ensures s == Insignificant <==> percent < 5.0
    ensures s == Moderate <==> 5.0 <= percent < 10.0
    ensures s == Severe <==> percent >= 10.0
  {
    if percent < 5.0 then Insignificant
    else if 5.0 <= percent < 10.0 then Moderate
    else Severe
  }

  /** A larger loss is never classified as less severe. */
  lemma ClassifyWeightLossMonotone(p1: real, p2: real)
    requires p1 <= p2
    ensures ClassifyWeightLoss(p1).Rank() <= ClassifyWeightLoss(p2).Rank()
  {
  }

  // ---------------------------------------------------------------------
  // Body-fat classification
  // ---------------------------------------------------------------------

  datatype FatLevel = VeryLow | Normal | ModeratelyHigh | High {
    function Rank(): nat {
      match this
      case VeryLow => 0
      case Normal => 1
      case ModeratelyHigh => 2
      case High => 3
    }
  }

  /** The lower bounds of the Normal, ModeratelyHigh and High levels for one
      sex (8/15/20 for males, 15/25/30 for females). */
  function FatThresholds(sex: Sex): (real, real, real) {
    if sex == Male then (8.0, 15.0, 20.0) else (15.0, 25.0, 30.0)
  }

  /** Body-fat level: each threshold opens the level above it. */
  function ClassifyBodyFat(sex: Sex, percent: real): (f: FatLevel)
    ensures var (normal, moderate, high) := FatThresholds(sex);
            && (f == VeryLow <==> percent < normal)
            && (f == Normal <==> normal <= percent < moderate)
            && (f == ModeratelyHigh <==> moderate <= percent < high)
            && (f == High <==> high <= percent)
  {
    if sex == Male then
      if percent < 8.0 then VeryLow
      else if 8.0 <= percent < 15.0 then Normal
      else if 15.0 <= percent < 20.0 then ModeratelyHigh
      else High
    else
      if percent < 15.0 then VeryLow
      else if 15.0 <= percent < 25.0 then Normal
      else if 25.0 <= percent < 30.0 then ModeratelyHigh
      else High
  }

  /** A higher percentage is never a lower level, and at the same
      percentage a female is never rated higher than a male. */
  lemma ClassifyBodyFatMonotone(sex: Sex, p1: real, p2: real)
    requires p1 <= p2
    ensures ClassifyBodyFat(sex, p1).Rank() <= ClassifyBodyFat(sex, p2).Rank()
    ensures ClassifyBodyFat(Female, p1).Rank() <= ClassifyBodyFat(Male, p1).Rank()
  {
  }

  // ---------------------------------------------------------------------
  // Arm muscle circumference status
  // ---------------------------------------------------------------------

  datatype MuscleStatus = SevereMalnutrition | ModerateMalnutrition | NormalMuscle | Adequate {
    function Rank(): nat {
      match this
      case SevereMalnutrition => 0
      case ModerateMalnutrition => 1
      case NormalMuscle => 2
      case Adequate => 3
    }
  }

  /** Below 15 cm severe malnutrition, below 20 moderate, below 25 normal,
      otherwise adequate. */
  function ClassifyArmMuscle(circumference: real): (m: MuscleStatus)
    ensures m == SevereMalnutrition <==> circumference < 15.0
    ensures m == ModerateMalnutrition <==> 15.0 <= circumference < 20.0
    ensures m == NormalMuscle <==> 20.0 <= circumference < 25.0
    ensures m == Adequate <==> circumference >= 25.0
  {
    if circumference < 15.0 then SevereMalnutrition
    else if 15.0 <= circumference < 20.0 then ModerateMalnutrition
    else if 20.0 <= circumference < 25.0 then NormalMuscle
    else Adequate
  }

  /** A thicker triceps skinfold at the same arm circumference never gives
      a better muscle status. */
  lemma ArmMuscleStatusWorsensWithSkinfold(arm: real, t1: real, t2: real)
    requires arm > 0.0 && 0.0 < t1 <= t2
    ensures ClassifyArmMuscle(Anthropometry.ArmMuscleCircumference(arm, t2).value).Rank()
            <= ClassifyArmMuscle(Anthropometry.ArmMuscleCircumference(arm, t1).value).Rank()
  {
  }

  lemma ArmMuscleMonotone(c1: real, c2: real)
    requires c1 <= c2
    ensures ClassifyArmMuscle(c1).Rank() <= ClassifyArmMuscle(c2).Rank()
  {
  }

  // ---------------------------------------------------------------------
  // Amputated limbs
  // ---------------------------------------------------------------------

  datatype Limb = UpperArm | Forearm | Hand | Thigh | Leg | Foot

  /** Percentage of body weight each limb segment stands for. */
  function AmputationShare(limb: Limb): (p: real)
    ensures 0.0 < p <= 10.1
  {
    match limb
    case UpperArm => 2.7
    case Forearm => 1.6
    case Hand => 0.7
    case Thigh => 10.1
    case Leg => 4.4
    case Foot => 1.5
  }

  /** Every tabled share is accepted by the correction, so a positive
      weight always gets a corrected weight above it. */
  lemma AmputationTableAccepted(weight: real, limb: Limb)
    requires weight > 0.0
    ensures Anthropometry.AmputationCorrectedWeight(weight, AmputationShare(limb)).Ok?
    ensures Anthropometry.AmputationCorrectedWeight(weight, AmputationShare(limb)).value > weight
  {
  }

  lemma AmputationThighExample()
    ensures Anthropometry.AmputationCorrectedWeight(70.0, AmputationShare(Thigh)) == Ok(7000.0 / 89.9)
    ensures Anthropometry.AmputationCorrectedWeight(70.0, 100.0) == Fail(ValueError)
  {
  }

  // ---------------------------------------------------------------------
  // The total-energy form
  // ---------------------------------------------------------------------

  /** The form's handling of its two factor fields: a field counts as filled
      when above 1; both filled shows a warning (`None`) and calls nothing;
      otherwise the filled field alone, or neither, is passed on. Through the
      form the both-factors refusal is never reached: a call fails only for
      a non-positive basal value, and scales it by the one factor above 1. */
  function TotalEnergyFromForm(basal: real, activity: real, stress: real): (r: Option<Outcome>)
    ensures r.None? <==> activity > 1.0 && stress > 1.0
    ensures r.Some? ==> (r.value.Fail? <==> basal <= 0.0) && !r.value.NoResult?
    ensures r.Some? && r.value.Ok? ==>
              r.value.value == basal * (if activity > 1.0 then activity else if stress > 1.0 then stress else 1.0)
  {
    var useActivity := activity > 1.0;
    var useStress := stress > 1.0;
    if useActivity && useStress then None
    else if useActivity then Some(Energy.TotalEnergyExpenditure(basal, Some(activity), None))
    else if useStress then Some(Energy.TotalEnergyExpenditure(basal, None, Some(stress)))
    else Some(Energy.TotalEnergyExpenditure(basal, None, None))
  }
}
