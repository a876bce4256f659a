/** The categorical inputs shared by the formulas: sex, ethnicity, clinical
    condition, and the two cerebral-palsy activity classifications.

    The activity level and the motor condition reach their formulas as text
    labels, so each carries its label and a parser back from the label.
 */
module Categories {
  import opened Results

  datatype Sex = Male | Female

  datatype Ethnicity = White | Black

  /** Selects the branch of the adjusted-weight formula. */
  datatype Condition = Obesity | Malnutrition

  /** Activity level of a child with cerebral palsy aged 5 to 11. */
  datatype ActivityLevel = MildModerate | RestrictedIntense | SevereRestriction {
    function Label(): string {
      match this
      case MildModerate => "leve a moderada"
      case RestrictedIntense => "restrita intensa"
      case SevereRestriction => "restrição física grave"
    }
  }

  /** Motor condition of a child or adolescent with stable cerebral palsy. */
  datatype MotorCondition = NoMotorDysfunction | NonAmbulatory | AmbulatoryWithoutDysfunction {
    function Label(): string {
      match this
      case NoMotorDysfunction => "sem disfunção motora"
      case NonAmbulatory => "não deambular (caminhar)"
      case AmbulatoryWithoutDysfunction => "não apresentar disfunção mas deambular"
    }
  }

  /** The activity level whose value equals `text`, if any: the level the
      cerebral-palsy formula's comparisons with each level's value select.
      An unknown text gives `None` rather than an error. */
  function ParseActivityLevel(text: string): (r: Option<ActivityLevel>)
    ensures r.Some? ==> r.value.Label() == text
    ensures r.None? ==> forall a: ActivityLevel :: a.Label() != text
  {
    if text == MildModerate.Label() then Some(MildModerate)
    else if text == RestrictedIntense.Label() then Some(RestrictedIntense)
    else if text == SevereRestriction.Label() then Some(SevereRestriction)
    else None
  }

  /** The motor condition whose label is `text`, if any. */
  function ParseMotorCondition(text: string): (r: Option<MotorCondition>)
    ensures r.Some? ==> r.value.Label() == text
    ensures r.None? ==> forall m: MotorCondition :: m.Label() != text
  {
    if text == NoMotorDysfunction.Label() then Some(NoMotorDysfunction)
    else if text == NonAmbulatory.Label() then Some(NonAmbulatory)
    else if text == AmbulatoryWithoutDysfunction.Label() then Some(AmbulatoryWithoutDysfunction)
    else None
  }

  /** Labels are distinct, so parsing a level's label gives that level back. */
  lemma ActivityLabelRoundTrip(a: ActivityLevel)
    ensures ParseActivityLevel(a.Label()) == Some(a)
  {
  }

  lemma MotorLabelRoundTrip(m: MotorCondition)
    ensures ParseMotorCondition(m.Label()) == Some(m)
  {
  }
}
