/**
 * The health dashboard's indicator analysis (malaria_app.py, show_dashboard):
 * five indicators, each compared with an inclusive reference range. The
 * status is "Normal" inside the range; outside it is "Abnormal", or
 * "Fever" for temperature. Some indicators also show a message when the
 * value is below the range, above it, or both.
 */
module Dashboard {
  import opened Wrappers
  import opened Schema

  datatype Indicator = Rbc | Hb | Platelets | Wbc | BodyTemperature

  /** Indicators in the order the dashboard shows them. */
  const Indicators: seq<Indicator> := [Rbc, Hb, Platelets, Wbc, BodyTemperature]

  datatype Range = Range(lo: real, hi: real)

  function ReferenceRange(i: Indicator): Range {
    match i
    case Rbc => Range(4.0, 5.5)
    case Hb => Range(12.0, 16.0)
    case Platelets => Range(150.0, 400.0)
    case Wbc => Range(4.0, 11.0)
    case BodyTemperature => Range(36.1, 37.2)
  }

  function Reading(o: LabObservation, i: Indicator): real {
    match i
    case Rbc => o.rbcCount
    case Hb => o.hbLevel
    case Platelets => o.plateletCount
    case Wbc => o.wbcCount
    case BodyTemperature => o.temperature
  }

  predicate InReferenceRange(o: LabObservation, i: Indicator) {
    ReferenceRange(i).lo <= Reading(o, i) <= ReferenceRange(i).hi
  }

  datatype Status = Normal | Abnormal | Fever

  function StatusOf(o: LabObservation, i: Indicator): Status {
    if InReferenceRange(o, i) then Normal
    else if i == BodyTemperature then Fever
    else Abnormal
  }

  datatype Side = Low | High

  /** Whether the indicator has a message for values below / above its range. */
  predicate HasLowMessage(i: Indicator) {
    i != BodyTemperature
  }

  predicate HasHighMessage(i: Indicator) {
    i == Rbc || i == Wbc || i == BodyTemperature
  }

  /**
   * The message shown under the indicator: the low-side warning, else the
   * high-side one (an if / elif in the source), else none.
   */
  function Message(o: LabObservation, i: Indicator): Option<Side> {
    var v, r := Reading(o, i), ReferenceRange(i);
    if HasLowMessage(i) && v < r.lo then Some(Low)
    else if HasHighMessage(i) && v > r.hi then Some(High)
    else None
  }

  /** A status is "Normal" exactly inside the inclusive range, and "Fever" only for temperature. */
  lemma StatusMeaning(o: LabObservation, i: Indicator)
    ensures StatusOf(o, i) == Normal <==> ReferenceRange(i).lo <= Reading(o, i) <= ReferenceRange(i).hi
    ensures StatusOf(o, i) == Fever <==> i == BodyTemperature && !InReferenceRange(o, i)
    ensures StatusOf(o, i) == Abnormal <==> i != BodyTemperature && !InReferenceRange(o, i)
  {
  }

  /**
   * A message is never shown for a normal reading, the low-side message
   * means below the range and the high-side one above it, so the two never
   * appear together.
   */
  lemma MessageMeaning(o: LabObservation, i: Indicator)
    ensures Message(o, i) == Some(Low) <==> HasLowMessage(i) && Reading(o, i) < ReferenceRange(i).lo
    ensures Message(o, i) == Some(High) <==> HasHighMessage(i) && Reading(o, i) > ReferenceRange(i).hi
    ensures Message(o, i).Some? ==> StatusOf(o, i) != Normal
  {
    assert ReferenceRange(i).lo < ReferenceRange(i).hi;
  }

  /**
   * For RBC and WBC, which have messages on both sides, every non-normal
   * status is explained by a message. Hb and platelets are silent above
   * their range, and temperature below it.
   */
  lemma TwoSidedIndicatorsExplainAbnormal(o: LabObservation, i: Indicator)
    requires i == Rbc || i == Wbc
    ensures StatusOf(o, i) != Normal <==> Message(o, i).Some?
  {
  }

  lemma OneSidedIndicatorsSilentOnOtherSide(o: LabObservation, i: Indicator)
    requires i != Rbc && i != Wbc
    requires !InReferenceRange(o, i)
    ensures Message(o, i).None? <==> (if i == BodyTemperature then Reading(o, i) < ReferenceRange(i).lo
                                      else Reading(o, i) > ReferenceRange(i).hi)
  {
  }

  /**
   * Temperature has a single non-normal status: a reading below 36.1 also
   * shows "Fever", and no message explains it.
   */
  lemma LowTemperatureReadsAsFever(o: LabObservation)
    requires o.temperature < 36.1
    ensures StatusOf(o, BodyTemperature) == Fever
    ensures Message(o, BodyTemperature) == None
  {
  }
}
