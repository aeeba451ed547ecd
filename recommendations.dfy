/**
 * The recommendations page (malaria_app.py, show_recommendations) and the
 * verdict of the scan page. The classifier's prediction is an opaque integer:
 * the scan page reads 1 as "no malaria" and anything else as "malaria
 * detected"; the recommendations page shows the urgent care branch for
 * prediction 0, with up to three extra warnings, and the preventive branch for
 * any other prediction, with a list of personalised recommendations. Both lists
 * take their conditions in a fixed order.
 */
module Recommendations {
  import opened Filtering
  import opened Schema

  /** The extra warnings of the urgent branch. */
  datatype UrgentNotice = HighFeverNotice | SevereAnemiaNotice | SevereThrombocytopeniaNotice

  const NoticeOrder: seq<UrgentNotice> := [HighFeverNotice, SevereAnemiaNotice, SevereThrombocytopeniaNotice]

  predicate NoticeApplies(o: LabObservation, n: UrgentNotice) {
    match n
    case HighFeverNotice => o.temperature > 38.5
    case SevereAnemiaNotice => o.hbLevel < 10.0
    case SevereThrombocytopeniaNotice => o.plateletCount < 100.0
  }

  function NoticesOn(o: LabObservation): UrgentNotice -> bool {
    n => NoticeApplies(o, n)
  }

  /** The warnings shown under the urgent branch, in order. */
  function UrgentNotices(o: LabObservation): seq<UrgentNotice> {
    Filter(NoticeOrder, NoticesOn(o))
  }

  function NoticeRank(n: UrgentNotice): int {
    match n
    case HighFeverNotice => 0
    case SevereAnemiaNotice => 1
    case SevereThrombocytopeniaNotice => 2
  }

  /** The personalised recommendations of the preventive branch. */
  datatype Advice = MildAnemia | MonitorPlatelets | BoostImmunity | MonitorTemperature | UseBedNets

  const AdviceOrder: seq<Advice> := [MildAnemia, MonitorPlatelets, BoostImmunity, MonitorTemperature, UseBedNets]

  predicate AdviceApplies(o: LabObservation, a: Advice) {
    match a
    case MildAnemia => o.hbLevel < 12.0
    case MonitorPlatelets => o.plateletCount < 150.0
    case BoostImmunity => o.wbcCount < 4.0
    case MonitorTemperature => o.temperature > 37.5
    case UseBedNets => o.bednet == No
  }

  function AdviceOn(o: LabObservation): Advice -> bool {
    a => AdviceApplies(o, a)
  }

  function AdviceRank(a: Advice): int {
    match a
    case MildAnemia => 0
    case MonitorPlatelets => 1
    case BoostImmunity => 2
    case MonitorTemperature => 3
    case UseBedNets => 4
  }

  /** The recommendations that apply to `o`, in order. */
  function PreventiveAdvice(o: LabObservation): seq<Advice> {
    Filter(AdviceOrder, AdviceOn(o))
  }

  /** A recommendation card as the page shows it. */
  datatype Card = Card(title: string, content: string)

  function Title(a: Advice): string {
    match a
    case MildAnemia => "🍎 Address Mild Anemia"
    case MonitorPlatelets => "🩸 Monitor Platelet Count"
    case BoostImmunity => "🛡️ Boost Immune System"
    case MonitorTemperature => "🌡️ Monitor Temperature"
    case UseBedNets => "🛏️ Use Bed Nets"
  }

  function Content(a: Advice): string {
    match a
    case MildAnemia =>
      "Your hemoglobin is slightly low. Consider iron-rich foods (spinach, red meat, beans) and consult a healthcare provider about iron supplements."
    case MonitorPlatelets =>
      "Your platelet count is below normal. Follow up with your healthcare provider to determine the cause and appropriate treatment."
    case BoostImmunity =>
      "Your white blood cell count is low. Focus on a healthy diet, adequate sleep, regular exercise, and stress management."
    case MonitorTemperature =>
      "You have a mild fever. Rest, stay hydrated, and monitor for other symptoms. Seek medical care if fever persists or worsens."
    case UseBedNets =>
      "You indicated no bed net usage. This is crucial for malaria prevention. Obtain and use insecticide-treated bed nets immediately."
  }

  function CardOf(a: Advice): Card {
    Card(Title(a), Content(a))
  }

  /**
   * The preventive branch's list, appended to one condition at a time. A
   * recommendation is recorded as its `Advice`; `CardOf` gives its title
   * and text.
   */
  method BuildPreventive(o: LabObservation) returns (recommendations: seq<Advice>)
    ensures recommendations == PreventiveAdvice(o)
  {
    ghost var p := AdviceOn(o);
    recommendations := [];
    assert recommendations == FilterUpto(AdviceOrder, p, 0);

    if o.hbLevel < 12.0 {
      recommendations := recommendations + [MildAnemia];
    }
    assert recommendations == FilterUpto(AdviceOrder, p, 1);
    if o.plateletCount < 150.0 {
      recommendations := recommendations + [MonitorPlatelets];
    }
    assert recommendations == FilterUpto(AdviceOrder, p, 2);
    if o.wbcCount < 4.0 {
      recommendations := recommendations + [BoostImmunity];
    }
    assert recommendations == FilterUpto(AdviceOrder, p, 3);
    if o.temperature > 37.5 {
      recommendations := recommendations + [MonitorTemperature];
    }
    assert recommendations == FilterUpto(AdviceOrder, p, 4);
    if o.bednet == No {
      recommendations := recommendations + [UseBedNets];
    }
    assert recommendations == FilterUpto(AdviceOrder, p, 5);
    FilterUptoAll(AdviceOrder, p);
  }

  /** The page's two branches, with what each shows beyond its static text. */
  datatype RecommendationPage =
    | UrgentCare(notices: seq<UrgentNotice>)
    | PreventiveCare(recommendations: seq<Advice>)

  /** The scan page's verdict: only prediction 1 reads as "no malaria". */
  predicate MalariaDetected(prediction: int) {
    prediction != 1
  }

  /** The recommendations page's test: only prediction 0 selects the urgent care branch. */
  predicate InfectedBranch(prediction: int) {
    prediction == 0
  }

  /**
   * The recommendations for a prediction and an observation: prediction 0 selects the
   * urgent warnings, any other prediction the preventive list.
   */
  method Recommend(prediction: int, o: LabObservation) returns (page: RecommendationPage)
    ensures page.UrgentCare? <==> InfectedBranch(prediction)
    ensures page.UrgentCare? ==> page.notices == UrgentNotices(o)
    ensures page.PreventiveCare? ==> page.recommendations == PreventiveAdvice(o)
  {
    if prediction == 0 {
      page := UrgentCare(UrgentNotices(o));
    } else {
      var recommendations := BuildPreventive(o);
      page := PreventiveCare(recommendations);
    }
  }

  /** A warning is shown exactly when its condition holds. */
  lemma UrgentNoticesExact(o: LabObservation, n: UrgentNotice)
    ensures n in UrgentNotices(o) <==> NoticeApplies(o, n)
  {
    assert n in NoticeOrder by {
      assert NoticeOrder[NoticeRank(n)] == n;
    }
    FilterMembers(NoticeOrder, NoticesOn(o), n);
  }

  /** The warnings come in the order high fever, severe anemia, severe thrombocytopenia, each at most once. */
  lemma UrgentNoticesInOrder(o: LabObservation)
    ensures Increasing(UrgentNotices(o), NoticeRank)
    ensures Distinct(UrgentNotices(o))
    ensures |UrgentNotices(o)| <= 3
  {
    assert Increasing(NoticeOrder, NoticeRank);
    FilterIncreasing(NoticeOrder, NoticesOn(o), NoticeRank);
    IncreasingIsDistinct(UrgentNotices(o), NoticeRank);
  }

  /** A recommendation is in the list exactly when its condition holds. */
  lemma PreventiveAdviceExact(o: LabObservation, a: Advice)
    ensures a in PreventiveAdvice(o) <==> AdviceApplies(o, a)
  {
    assert a in AdviceOrder by {
      assert AdviceOrder[AdviceRank(a)] == a;
    }
    FilterMembers(AdviceOrder, AdviceOn(o), a);
  }

  /**
   * The list follows the order anemia, platelets, immunity, temperature,
   * bed nets; no recommendation appears twice, so there are at most five.
   */
  lemma PreventiveAdviceInOrder(o: LabObservation)
    ensures Increasing(PreventiveAdvice(o), AdviceRank)
    ensures Distinct(PreventiveAdvice(o))
    ensures |PreventiveAdvice(o)| <= 5
  {
    assert Increasing(AdviceOrder, AdviceRank);
    FilterIncreasing(AdviceOrder, AdviceOn(o), AdviceRank);
    IncreasingIsDistinct(PreventiveAdvice(o), AdviceRank);
  }

  /** The personalised section is left out exactly when none of the five conditions holds. */
  lemma PreventiveAdviceEmpty(o: LabObservation)
    ensures PreventiveAdvice(o) == [] <==>
      && o.hbLevel >= 12.0 && o.plateletCount >= 150.0 && o.wbcCount >= 4.0
      && o.temperature <= 37.5 && o.bednet == Yes
  {
    if PreventiveAdvice(o) == [] {
      PreventiveAdviceExact(o, MildAnemia);
      PreventiveAdviceExact(o, MonitorPlatelets);
      PreventiveAdviceExact(o, BoostImmunity);
      PreventiveAdviceExact(o, MonitorTemperature);
      PreventiveAdviceExact(o, UseBedNets);
    } else {
      PreventiveAdviceExact(o, PreventiveAdvice(o)[0]);
    }
  }

  /** The symbol each card's title starts with. */
  function Icon(a: Advice): char {
    match a
    case MildAnemia => '🍎'
    case MonitorPlatelets => '🩸'
    case BoostImmunity => '🛡'
    case MonitorTemperature => '🌡'
    case UseBedNets => '🛏'
  }

  lemma TitleStartsWithIcon(a: Advice)
    ensures |Title(a)| > 0 && Title(a)[0] == Icon(a)
  {
    match a
    case MildAnemia =>
    case MonitorPlatelets =>
    case BoostImmunity =>
    case MonitorTemperature =>
    case UseBedNets =>
  }

  /** Every card has its own title. */
  lemma CardTitlesDistinct(a: Advice, b: Advice)
    ensures Title(a) == Title(b) <==> a == b
  {
    if a != b {
      TitleStartsWithIcon(a);
      TitleStartsWithIcon(b);
      assert Icon(a) != Icon(b);
    }
  }

  /**
   * For the labels the classifier produces, 0 and 1, the scan page's verdict
   * and the recommendations page's branch agree.
   */
  lemma VerdictAgreesWithBranch(prediction: int)
    requires prediction == 0 || prediction == 1
    ensures MalariaDetected(prediction) <==> InfectedBranch(prediction)
  {
  }

  /** Any other prediction reads as "malaria detected" on the scan page but selects the preventive branch. */
  lemma OtherLabelsDisagree(prediction: int)
    requires prediction != 0 && prediction != 1
    ensures MalariaDetected(prediction) && !InfectedBranch(prediction)
  {
  }
}
