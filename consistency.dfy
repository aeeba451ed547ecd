/**
 * Agreement between the pages: the dashboard's warnings, the risk factors
 * and the recommendations compare the same readings with related
 * thresholds, so what one page reports the other does too.
 */
module Consistency {
  import opened Wrappers
  import opened Schema
  import opened Dashboard
  import opened Risk
  import opened Recommendations

  /** The risk check that tests the same reading as the indicator, against the same bound (none for WBC). */
  function CheckFor(i: Indicator): Option<RiskCheck> {
    match i
    case Rbc => Some(LowRbc)
    case Hb => Some(LowHb)
    case Platelets => Some(LowPlatelets)
    case Wbc => None
    case BodyTemperature => Some(ElevatedTemperature)
  }

  /** The side of the range that check looks at. */
  function CheckedSide(i: Indicator): Side {
    if i == BodyTemperature then High else Low
  }

  /**
   * The dashboard's low-RBC, low-Hb and low-platelet warnings, and its
   * high-temperature warning, appear exactly when the matching risk factor
   * is listed.
   */
  lemma WarningMatchesFactor(o: LabObservation, i: Indicator)
    requires CheckFor(i).Some?
    ensures Message(o, i) == Some(CheckedSide(i)) <==> CheckFor(i).value in Factors(o)
  {
    MessageMeaning(o, i);
    FactorsExact(o, CheckFor(i).value);
  }

  /** A laboratory risk factor never goes with a "Normal" status on the dashboard. */
  lemma FactorMeansOutOfRange(o: LabObservation, i: Indicator)
    requires CheckFor(i).Some?
    ensures CheckFor(i).value in Factors(o) ==> StatusOf(o, i) == (if i == BodyTemperature then Fever else Abnormal)
  {
    FactorsExact(o, CheckFor(i).value);
  }

  /** The risk factor a stricter urgent warning implies. */
  function FactorBehind(n: UrgentNotice): RiskCheck {
    match n
    case HighFeverNotice => ElevatedTemperature
    case SevereAnemiaNotice => LowHb
    case SevereThrombocytopeniaNotice => LowPlatelets
  }

  /**
   * Each urgent warning has a stricter threshold than a risk check, so it
   * comes with that risk factor: fever above 38.5 with elevated
   * temperature, Hb below 10 with low hemoglobin, platelets below 100 with
   * low platelet count.
   */
  lemma UrgentNoticeImpliesFactor(o: LabObservation, n: UrgentNotice)
    ensures n in UrgentNotices(o) ==> FactorBehind(n) in Factors(o)
  {
    UrgentNoticesExact(o, n);
    FactorsExact(o, FactorBehind(n));
  }

  /** The risk check with the same condition as a recommendation (anemia, platelets, bed nets). */
  function SharedCheck(a: Advice): Option<RiskCheck> {
    match a
    case MildAnemia => Some(LowHb)
    case MonitorPlatelets => Some(LowPlatelets)
    case UseBedNets => Some(NoBednet)
    case BoostImmunity => None
    case MonitorTemperature => None
  }

  /** Anemia, platelet and bed-net recommendations appear exactly with the matching risk factor. */
  lemma AdviceMatchesFactor(o: LabObservation, a: Advice)
    requires SharedCheck(a).Some?
    ensures a in PreventiveAdvice(o) <==> SharedCheck(a).value in Factors(o)
  {
    PreventiveAdviceExact(o, a);
    FactorsExact(o, SharedCheck(a).value);
  }

  /**
   * The temperature recommendation's threshold 37.5 is stricter than the
   * risk check's 37.2: the recommendation implies the factor, and a reading
   * in between gives the factor without the recommendation.
   */
  lemma TemperatureAdviceImpliesFactor(o: LabObservation)
    ensures MonitorTemperature in PreventiveAdvice(o) ==> ElevatedTemperature in Factors(o)
    ensures 37.2 < o.temperature <= 37.5 ==>
      ElevatedTemperature in Factors(o) && MonitorTemperature !in PreventiveAdvice(o)
  {
    PreventiveAdviceExact(o, MonitorTemperature);
    FactorsExact(o, ElevatedTemperature);
  }

  /** The immunity recommendation appears exactly with the dashboard's low-WBC warning. */
  lemma ImmunityAdviceMatchesWarning(o: LabObservation)
    ensures BoostImmunity in PreventiveAdvice(o) <==> Message(o, Wbc) == Some(Low)
  {
    PreventiveAdviceExact(o, BoostImmunity);
    MessageMeaning(o, Wbc);
  }
}
