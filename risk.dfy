/**
 * The risk-factor analysis of the health dashboard (malaria_app.py,
 * show_dashboard): seven independent checks, taken in a fixed order; each
 * one that fires adds its points to the score and its text to the list of
 * factors. The score is then mapped to a level by a step function. The
 * laboratory thresholds are the bounds of the dashboard's reference ranges
 * (module Consistency relates the two).
 */
module Risk {
  import opened Filtering
  import opened Schema

  datatype RiskCheck =
    | FeverSymptom | NoBednet | RuralLocation
    | LowRbc | LowHb | LowPlatelets | ElevatedTemperature

  /** The order in which the checks are evaluated. */
  const CheckOrder: seq<RiskCheck> :=
    [FeverSymptom, NoBednet, RuralLocation, LowRbc, LowHb, LowPlatelets, ElevatedTemperature]

  /** Position of a check in `CheckOrder`. */
  function Rank(c: RiskCheck): int {
    match c
    case FeverSymptom => 0
    case NoBednet => 1
    case RuralLocation => 2
    case LowRbc => 3
    case LowHb => 4
    case LowPlatelets => 5
    case ElevatedTemperature => 6
  }

  function Points(c: RiskCheck): nat {
    match c
    case FeverSymptom => 3
    case NoBednet => 2
    case RuralLocation => 1
    case LowRbc => 2
    case LowHb => 2
    case LowPlatelets => 2
    case ElevatedTemperature => 3
  }

  function FactorText(c: RiskCheck): string {
    match c
    case FeverSymptom => "Fever symptoms present"
    case NoBednet => "No bed net protection"
    case RuralLocation => "Rural location (higher mosquito exposure)"
    case LowRbc => "Low RBC count"
    case LowHb => "Low hemoglobin"
    case LowPlatelets => "Low platelet count"
    case ElevatedTemperature => "Elevated temperature"
  }

  /** The condition of each check. */
  predicate Fires(o: LabObservation, c: RiskCheck) {
    match c
    case FeverSymptom => o.feverSymptom == Yes
    case NoBednet => o.bednet == No
    case RuralLocation => o.location == Rural
    case LowRbc => o.rbcCount < 4.0
    case LowHb => o.hbLevel < 12.0
    case LowPlatelets => o.plateletCount < 150.0
    case ElevatedTemperature => o.temperature > 37.2
  }

  function FiresOn(o: LabObservation): RiskCheck -> bool {
    c => Fires(o, c)
  }

  /** The checks among `cs` that fire for `o`, in the order of `cs`. */
  function FiredAmong(o: LabObservation, cs: seq<RiskCheck>): seq<RiskCheck> {
    if cs == [] then []
    else (if Fires(o, cs[0]) then [cs[0]] else []) + FiredAmong(o, cs[1..])
  }

  /** The checks that fire for `o`, in evaluation order. */
  function Factors(o: LabObservation): seq<RiskCheck> {
    FiredAmong(o, CheckOrder)
  }

  /** `FiredAmong` is the generic `Filter` with the check's condition. */
  lemma {:induction false} FiredAmongIsFilter(o: LabObservation, cs: seq<RiskCheck>)
    ensures FiredAmong(o, cs) == Filter(cs, FiresOn(o))
  {
    if cs != [] {
      FiredAmongIsFilter(o, cs[1..]);
    }
  }

  lemma {:induction false} FiredAmongMembers(o: LabObservation, cs: seq<RiskCheck>, c: RiskCheck)
    ensures c in FiredAmong(o, cs) <==> c in cs && Fires(o, c)
  {
    if cs != [] {
      FiredAmongMembers(o, cs[1..], c);
      assert cs == [cs[0]] + cs[1..];
    }
  }

  /** The points of a list of checks. */
  function Total(cs: seq<RiskCheck>): nat {
    if cs == [] then 0 else Points(cs[0]) + Total(cs[1..])
  }

  function Score(o: LabObservation): nat {
    Total(Factors(o))
  }

  function Texts(cs: seq<RiskCheck>): seq<string> {
    seq(|cs|, i requires 0 <= i < |cs| => FactorText(cs[i]))
  }

  datatype RiskLevel = LowRisk | ModerateRisk | HighRisk

  /** The step function from score to level. */
  function LevelOf(score: int): RiskLevel {
    if score >= 8 then HighRisk
    else if score >= 4 then ModerateRisk
    else LowRisk
  }

  function Severity(l: RiskLevel): nat {
    match l
    case LowRisk => 0
    case ModerateRisk => 1
    case HighRisk => 2
  }

  /**
   * The dashboard's accumulation, one check after another: the score is
   * the points of the checks that fire and the factors are those checks, in
   * evaluation order. A factor is recorded as its check; `FactorText` is
   * the string shown for it.
   */
  method AssessRisk(o: LabObservation) returns (riskScore: int, riskFactors: seq<RiskCheck>)
    ensures riskScore == Score(o)
    ensures riskFactors == Factors(o)
  {
    riskScore := 0;
    riskFactors := [];
    ghost var score, factors := riskScore, riskFactors;

    if o.feverSymptom == Yes {
      riskScore := riskScore + 3;
      riskFactors := riskFactors + [FeverSymptom];
    }
    assert riskScore == score + Earned(o, FeverSymptom) && riskFactors == Include(o, FeverSymptom, factors);
    score, factors := riskScore, riskFactors;

    if o.bednet == No {
      riskScore := riskScore + 2;
      riskFactors := riskFactors + [NoBednet];
    }
    assert riskScore == score + Earned(o, NoBednet) && riskFactors == Include(o, NoBednet, factors);
    score, factors := riskScore, riskFactors;

    if o.location == Rural {
      riskScore := riskScore + 1;
      riskFactors := riskFactors + [RuralLocation];
    }
    assert riskScore == score + Earned(o, RuralLocation) && riskFactors == Include(o, RuralLocation, factors);
    score, factors := riskScore, riskFactors;

    if o.rbcCount < 4.0 {
      riskScore := riskScore + 2;
      riskFactors := riskFactors + [LowRbc];
    }
    assert riskScore == score + Earned(o, LowRbc) && riskFactors == Include(o, LowRbc, factors);
    score, factors := riskScore, riskFactors;

    if o.hbLevel < 12.0 {
      riskScore := riskScore + 2;
      riskFactors := riskFactors + [LowHb];
    }
    assert riskScore == score + Earned(o, LowHb) && riskFactors == Include(o, LowHb, factors);
    score, factors := riskScore, riskFactors;

    if o.plateletCount < 150.0 {
      riskScore := riskScore + 2;
      riskFactors := riskFactors + [LowPlatelets];
    }
    assert riskScore == score + Earned(o, LowPlatelets) && riskFactors == Include(o, LowPlatelets, factors);
    score, factors := riskScore, riskFactors;

    if o.temperature > 37.2 {
      riskScore := riskScore + 3;
      riskFactors := riskFactors + [ElevatedTemperature];
    }
    assert riskScore == score + Earned(o, ElevatedTemperature) && riskFactors == Include(o, ElevatedTemperature, factors);

    ScoreByChecks(o);
    FactorsByChecks(o);
  }

  /** `acc` followed by `c` when `c` fires. */
  function Include(o: LabObservation, c: RiskCheck, acc: seq<RiskCheck>): seq<RiskCheck> {
    if Fires(o, c) then acc + [c] else acc
  }

  lemma FactorsByChecks(o: LabObservation)
    ensures Factors(o) ==
      Include(o, ElevatedTemperature, Include(o, LowPlatelets, Include(o, LowHb, Include(o, LowRbc,
        Include(o, RuralLocation, Include(o, NoBednet, Include(o, FeverSymptom, [])))))))
  {
    var p := FiresOn(o);
    FiredAmongIsFilter(o, CheckOrder);
    FilterUptoAll(CheckOrder, p);
    assert FilterUpto(CheckOrder, p, 1) == Include(o, FeverSymptom, []);
    assert FilterUpto(CheckOrder, p, 2) == Include(o, NoBednet, FilterUpto(CheckOrder, p, 1));
    assert FilterUpto(CheckOrder, p, 3) == Include(o, RuralLocation, FilterUpto(CheckOrder, p, 2));
    assert FilterUpto(CheckOrder, p, 4) == Include(o, LowRbc, FilterUpto(CheckOrder, p, 3));
    assert FilterUpto(CheckOrder, p, 5) == Include(o, LowHb, FilterUpto(CheckOrder, p, 4));
    assert FilterUpto(CheckOrder, p, 6) == Include(o, LowPlatelets, FilterUpto(CheckOrder, p, 5));
    assert FilterUpto(CheckOrder, p, 7) == Include(o, ElevatedTemperature, FilterUpto(CheckOrder, p, 6));
  }

  /** The points a single check contributes to the score of `o`. */
  function Earned(o: LabObservation, c: RiskCheck): nat {
    if Fires(o, c) then Points(c) else 0
  }

  /** The score after the first `k` checks. */
  ghost function ScoreUpto(o: LabObservation, k: nat): int
    requires k <= |CheckOrder|
  {
    if k == 0 then 0 else ScoreUpto(o, k - 1) + Earned(o, CheckOrder[k - 1])
  }

  lemma {:induction false} ScoreUptoAgrees(o: LabObservation, k: nat)
    requires k <= |CheckOrder|
    ensures ScoreUpto(o, k) == Total(FilterUpto(CheckOrder, FiresOn(o), k))
  {
    if k > 0 {
      ScoreUptoAgrees(o, k - 1);
      var c := CheckOrder[k - 1];
      TotalAppend(FilterUpto(CheckOrder, FiresOn(o), k - 1), if Fires(o, c) then [c] else []);
    }
  }

  /** Once all seven checks are taken, the running score and factors are `Score` and `Factors`. */
  lemma AllChecksTaken(o: LabObservation)
    ensures ScoreUpto(o, 7) == Score(o)
    ensures FilterUpto(CheckOrder, FiresOn(o), 7) == Factors(o)
  {
    ScoreUptoAgrees(o, 7);
    FiredAmongIsFilter(o, CheckOrder);
    FilterUptoAll(CheckOrder, FiresOn(o));
  }

  lemma {:induction false} TotalAppend(a: seq<RiskCheck>, b: seq<RiskCheck>)
    ensures Total(a + b) == Total(a) + Total(b)
  {
    if a != [] {
      assert (a + b)[1..] == a[1..] + b;
      TotalAppend(a[1..], b);
    } else {
      assert a + b == b;
    }
  }

  /** The score is what each check earns, summed over the seven checks. */
  lemma ScoreByChecks(o: LabObservation)
    ensures Score(o) ==
      Earned(o, FeverSymptom) + Earned(o, NoBednet) + Earned(o, RuralLocation) + Earned(o, LowRbc)
      + Earned(o, LowHb) + Earned(o, LowPlatelets) + Earned(o, ElevatedTemperature)
  {
    AllChecksTaken(o);
    assert ScoreUpto(o, 1) == Earned(o, FeverSymptom);
    assert ScoreUpto(o, 2) == ScoreUpto(o, 1) + Earned(o, NoBednet);
    assert ScoreUpto(o, 3) == ScoreUpto(o, 2) + Earned(o, RuralLocation);
    assert ScoreUpto(o, 4) == ScoreUpto(o, 3) + Earned(o, LowRbc);
    assert ScoreUpto(o, 5) == ScoreUpto(o, 4) + Earned(o, LowHb);
    assert ScoreUpto(o, 6) == ScoreUpto(o, 5) + Earned(o, LowPlatelets);
    assert ScoreUpto(o, 7) == ScoreUpto(o, 6) + Earned(o, ElevatedTemperature);
  }

  /**
   * The score is the sum of the weights 3, 2, 1, 2, 2, 2, 3 over the checks
   * that fire, with the thresholds written out.
   */
  lemma ScoreFormula(o: LabObservation)
    ensures Score(o) ==
      (if o.feverSymptom == Yes then 3 else 0)
      + (if o.bednet == No then 2 else 0)
      + (if o.location == Rural then 1 else 0)
      + (if o.rbcCount < 4.0 then 2 else 0)
      + (if o.hbLevel < 12.0 then 2 else 0)
      + (if o.plateletCount < 150.0 then 2 else 0)
      + (if o.temperature > 37.2 then 3 else 0)
  {
    ScoreByChecks(o);
    assert Earned(o, FeverSymptom) == if o.feverSymptom == Yes then 3 else 0;
    assert Earned(o, NoBednet) == if o.bednet == No then 2 else 0;
    assert Earned(o, RuralLocation) == if o.location == Rural then 1 else 0;
    assert Earned(o, LowRbc) == if o.rbcCount < 4.0 then 2 else 0;
    assert Earned(o, LowHb) == if o.hbLevel < 12.0 then 2 else 0;
    assert Earned(o, LowPlatelets) == if o.plateletCount < 150.0 then 2 else 0;
    assert Earned(o, ElevatedTemperature) == if o.temperature > 37.2 then 3 else 0;
  }

  /** The score lies in 0..15, the range the dashboard displays it against. */
  lemma ScoreBounds(o: LabObservation)
    ensures 0 <= Score(o) <= 15
  {
    ScoreFormula(o);
  }

  /** The maximum 15 is reached exactly when all seven checks fire. */
  lemma ScoreMaximal(o: LabObservation)
    ensures Score(o) == 15 <==> forall c :: Fires(o, c)
  {
    ScoreFormula(o);
    if Score(o) == 15 {
      forall c ensures Fires(o, c) {
        match c
        case _ => {}
      }
    } else {
      assert !Fires(o, FeverSymptom) || !Fires(o, NoBednet) || !Fires(o, RuralLocation)
        || !Fires(o, LowRbc) || !Fires(o, LowHb) || !Fires(o, LowPlatelets) || !Fires(o, ElevatedTemperature);
    }
  }

  lemma AllChecksListed(c: RiskCheck)
    ensures c in CheckOrder && CheckOrder[Rank(c)] == c
  {
  }

  /** There is a factor for a check exactly when that check fires. */
  lemma FactorsExact(o: LabObservation, c: RiskCheck)
    ensures c in Factors(o) <==> Fires(o, c)
  {
    AllChecksListed(c);
    FiredAmongMembers(o, CheckOrder, c);
  }

  /**
   * The factors appear in evaluation order (fever, bed net, rural, RBC,
   * hemoglobin, platelets, temperature), so none appears twice.
   */
  lemma FactorsInOrder(o: LabObservation)
    ensures Increasing(Factors(o), Rank)
    ensures Distinct(Factors(o))
  {
    assert Increasing(CheckOrder, Rank);
    FiredAmongIsFilter(o, CheckOrder);
    FilterIncreasing(CheckOrder, FiresOn(o), Rank);
    IncreasingIsDistinct(Factors(o), Rank);
  }

  lemma FactorTextInjective(c: RiskCheck, d: RiskCheck)
    ensures FactorText(c) == FactorText(d) <==> c == d
  {
    if c != d {
      assert |FactorText(c)| != |FactorText(d)|;
    }
  }

  /** The displayed factor texts are pairwise different. */
  lemma FactorTextsDistinct(o: LabObservation)
    ensures Distinct(Texts(Factors(o)))
  {
    FactorsInOrder(o);
    var fs := Factors(o);
    forall i, j | 0 <= i < j < |fs| ensures Texts(fs)[i] != Texts(fs)[j] {
      FactorTextInjective(fs[i], fs[j]);
    }
  }

  /** No factor at all means that none of the seven conditions holds. */
  lemma NoFactors(o: LabObservation)
    ensures Factors(o) == [] <==>
      && o.feverSymptom == No && o.bednet == Yes && o.location != Rural
      && o.rbcCount >= 4.0 && o.hbLevel >= 12.0 && o.plateletCount >= 150.0 && o.temperature <= 37.2
  {
    if Factors(o) == [] {
      FactorsExact(o, FeverSymptom);
      FactorsExact(o, NoBednet);
      FactorsExact(o, RuralLocation);
      FactorsExact(o, LowRbc);
      FactorsExact(o, LowHb);
      FactorsExact(o, LowPlatelets);
      FactorsExact(o, ElevatedTemperature);
    } else {
      FactorsExact(o, Factors(o)[0]);
    }
  }

  /** Every check is worth at least one point, so the score is zero exactly when there is no factor. */
  lemma ZeroScore(o: LabObservation)
    ensures Score(o) == 0 <==> Factors(o) == []
    ensures Factors(o) == [] ==> LevelOf(Score(o)) == LowRisk
  {
  }

  /** When every check fires the factors are all seven, in order, the score is 15 and the level High. */
  lemma EveryCheckFires(o: LabObservation)
    requires forall c :: Fires(o, c)
    ensures Factors(o) == CheckOrder
    ensures Score(o) == 15 && LevelOf(Score(o)) == HighRisk
  {
    FiredAmongIsFilter(o, CheckOrder);
    FilterKeepsAll(CheckOrder, FiresOn(o));
    ScoreMaximal(o);
  }

  /** The level never decreases as the score grows. */
  lemma LevelMonotone(s: int, t: int)
    requires s <= t
    ensures Severity(LevelOf(s)) <= Severity(LevelOf(t))
  {
  }

  /** Where the steps fall: High from 8, Moderate from 4 to 7, Low below 4. */
  lemma LevelSteps(score: int)
    ensures LevelOf(score) == HighRisk <==> score >= 8
    ensures LevelOf(score) == ModerateRisk <==> 4 <= score < 8
    ensures LevelOf(score) == LowRisk <==> score < 4
  {
  }

  /**
   * Fever symptom, bed net and location together score at most 6, so a
   * High level always involves a laboratory finding.
   */
  lemma HighRiskNeedsLaboratoryFinding(o: LabObservation)
    requires LevelOf(Score(o)) == HighRisk
    ensures Fires(o, LowRbc) || Fires(o, LowHb) || Fires(o, LowPlatelets) || Fires(o, ElevatedTemperature)
  {
    ScoreFormula(o);
  }
}
