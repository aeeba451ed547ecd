/**
 * One pass through the three pages: the scan page validates the form,
 * assembles the classifier's record, asks the classifier for a prediction
 * and shows its verdict; the dashboard scores the risk; the
 * recommendations page picks its branch. The classifier is a parameter,
 * and the observation and prediction are passed on explicitly where the
 * application keeps them in its session.
 */
module Pipeline {
  import opened Wrappers
  import opened Schema
  import opened Features
  import opened Risk
  import opened Recommendations

  datatype Report = Report(
    observation: LabObservation,
    features: seq<Feature>,
    prediction: int,
    detected: bool,
    riskScore: int,
    riskLevel: RiskLevel,
    riskFactors: seq<RiskCheck>,
    page: RecommendationPage)

  method Evaluate(raw: RawForm, classify: seq<Feature> -> int) returns (r: Result<Report, ValidationError>)
    ensures r.Ok? <==> Acceptable(raw)
    ensures r.Err? ==> Explains(raw, r.error)
    ensures r.Ok? ==>
      var rep := r.value;
      && Validate(raw) == Ok(rep.observation)
      && rep.features == FeatureRecord(rep.observation)
      && ObservationOf(rep.features) == Some(rep.observation)
      && rep.prediction == classify(rep.features)
      && rep.detected == MalariaDetected(rep.prediction)
      && rep.riskScore == Score(rep.observation) && 0 <= rep.riskScore <= 15
      && rep.riskLevel == LevelOf(rep.riskScore)
      && rep.riskFactors == Factors(rep.observation)
      && (rep.page.UrgentCare? <==> InfectedBranch(rep.prediction))
      && (rep.page.UrgentCare? ==> rep.page.notices == UrgentNotices(rep.observation))
      && (rep.page.PreventiveCare? ==> rep.page.recommendations == PreventiveAdvice(rep.observation))
  {
    var v := Validate(raw);
    if v.Err? {
      return Err(v.error);
    }
    var o := v.value;
    var features := FeatureRecord(o);
    ObservationOfFeatureRecord(o);
    var prediction := classify(features);
    var riskScore, riskFactors := AssessRisk(o);
    ScoreBounds(o);
    var page := Recommend(prediction, o);
    r := Ok(Report(o, features, prediction, prediction != 1, riskScore, LevelOf(riskScore), riskFactors, page));
  }
}
