/**
 * The record handed to the classifier: twenty-one named columns in a fixed
 * order (malaria_app.py, show_ai_scan). The three answers travel as their
 * option strings, the measurements as numbers.
 */
module Features {
  import opened Wrappers
  import opened Schema

  datatype Column = LocationColumn | BednetColumn | FeverSymptomColumn | Measurement(field: NumericField)

  /** The column order the classifier was trained on. */
  const Columns: seq<Column> := [
    LocationColumn, BednetColumn, FeverSymptomColumn,
    Measurement(Temperature), Measurement(WbcCount), Measurement(RbcCount),
    Measurement(HbLevel), Measurement(Hematocrit), Measurement(MeanCellVolume),
    Measurement(MeanCorpHb), Measurement(MeanCellHbConc), Measurement(PlateletCount),
    Measurement(PlateletDistrWidth), Measurement(MeanPlateletVl),
    Measurement(NeutrophilsPercent), Measurement(LymphocytesPercent),
    Measurement(MixedCellsPercent), Measurement(NeutrophilsCount),
    Measurement(LymphocytesCount), Measurement(MixedCellsCount),
    Measurement(RbcDistWidthPercent)
  ]

  /** The name under which a column is handed over. */
  function ColumnName(c: Column): string {
    match c
    case LocationColumn => "location"
    case BednetColumn => "bednet"
    case FeverSymptomColumn => "fever_symptom"
    case Measurement(Temperature) => "temperature"
    case Measurement(WbcCount) => "wbc_count"
    case Measurement(RbcCount) => "rbc_count"
    case Measurement(HbLevel) => "hb_level"
    case Measurement(Hematocrit) => "hematocrit"
    case Measurement(MeanCellVolume) => "mean_cell_volume"
    case Measurement(MeanCorpHb) => "mean_corp_hb"
    case Measurement(MeanCellHbConc) => "mean_cell_hb_conc"
    case Measurement(PlateletCount) => "platelet_count"
    case Measurement(PlateletDistrWidth) => "platelet_distr_width"
    case Measurement(MeanPlateletVl) => "mean_platelet_vl"
    case Measurement(NeutrophilsPercent) => "neutrophils_percent"
    case Measurement(LymphocytesPercent) => "lymphocytes_percent"
    case Measurement(MixedCellsPercent) => "mixed_cells_percent"
    case Measurement(NeutrophilsCount) => "neutrophils_count"
    case Measurement(LymphocytesCount) => "lymphocytes_count"
    case Measurement(MixedCellsCount) => "mixed_cells_count"
    case Measurement(RbcDistWidthPercent) => "RBC_dist_width_Percent"
  }

  datatype FeatureValue = Category(token: string) | Number(x: real)

  datatype Feature = Feature(column: Column, value: FeatureValue)

  /** What `o` holds in column `c`. */
  function Cell(o: LabObservation, c: Column): FeatureValue {
    match c
    case LocationColumn => Category(LocationToken(o.location))
    case BednetColumn => Category(AnswerToken(o.bednet))
    case FeverSymptomColumn => Category(AnswerToken(o.feverSymptom))
    case Measurement(f) => Number(Value(o, f))
  }

  /** Position of a measurement among the measurement columns. */
  function FieldIndex(f: NumericField): (k: nat)
    ensures k < |NumericFields| && NumericFields[k] == f && Columns[3 + k] == Measurement(f)
  {
    match f
    case Temperature => 0
    case WbcCount => 1
    case RbcCount => 2
    case HbLevel => 3
    case Hematocrit => 4
    case MeanCellVolume => 5
    case MeanCorpHb => 6
    case MeanCellHbConc => 7
    case PlateletCount => 8
    case PlateletDistrWidth => 9
    case MeanPlateletVl => 10
    case NeutrophilsPercent => 11
    case LymphocytesPercent => 12
    case MixedCellsPercent => 13
    case NeutrophilsCount => 14
    case LymphocytesCount => 15
    case MixedCellsCount => 16
    case RbcDistWidthPercent => 17
  }

  /** The classifier's input record for `o`: one cell per column, in the trained order. */
  function FeatureRecord(o: LabObservation): (r: seq<Feature>)
    ensures |r| == |Columns| == 21
    ensures forall i :: 0 <= i < |r| ==> r[i].column == Columns[i] && r[i].value == Cell(o, Columns[i])
  {
    seq(|Columns|, i requires 0 <= i < |Columns| => Feature(Columns[i], Cell(o, Columns[i])))
  }

  function TokenOf(v: FeatureValue): string {
    if v.Category? then v.token else ""
  }

  function NumberOf(v: FeatureValue): real {
    if v.Number? then v.x else 0.0
  }

  /** The record carries exactly the trained columns, each of the right kind. */
  predicate WellShaped(fs: seq<Feature>) {
    && |fs| == |Columns|
    && (forall i :: 0 <= i < |fs| ==> fs[i].column == Columns[i])
    && (forall i :: 0 <= i < |fs| ==> (fs[i].value.Number? <==> fs[i].column.Measurement?))
  }

  /** Reads an observation back from a classifier record, if it is one. */
  function ObservationOf(fs: seq<Feature>): (r: Option<LabObservation>)
    ensures r.Some? ==> WellShaped(fs)
  {
    if !WellShaped(fs) then None
    else
      var location := ParseLocation(TokenOf(fs[0].value));
      var bednet := ParseAnswer(TokenOf(fs[1].value));
      var fever := ParseAnswer(TokenOf(fs[2].value));
      if location.None? || bednet.None? || fever.None? then None
      else
        var n := map f | f in NumericFields :: NumberOf(fs[3 + FieldIndex(f)].value);
        assert forall f :: f in n by {
          forall f ensures f in n { AllFieldsListed(f); }
        }
        Some(Assemble(location.value, bednet.value, fever.value, n))
  }

  lemma FeatureRecordWellShaped(o: LabObservation)
    ensures WellShaped(FeatureRecord(o))
  {
    var fs := FeatureRecord(o);
    forall i | 0 <= i < |fs| ensures fs[i].value.Number? <==> fs[i].column.Measurement? {
      assert fs[i].value == Cell(o, Columns[i]);
    }
  }

  /** The answers read back from the record's first three cells. */
  lemma FeatureRecordAnswers(o: LabObservation)
    ensures ParseLocation(TokenOf(FeatureRecord(o)[0].value)) == Some(o.location)
    ensures ParseAnswer(TokenOf(FeatureRecord(o)[1].value)) == Some(o.bednet)
    ensures ParseAnswer(TokenOf(FeatureRecord(o)[2].value)) == Some(o.feverSymptom)
  {
    var fs := FeatureRecord(o);
    assert TokenOf(fs[0].value) == LocationToken(o.location);
    assert TokenOf(fs[1].value) == AnswerToken(o.bednet);
    assert TokenOf(fs[2].value) == AnswerToken(o.feverSymptom);
  }

  /** Each measurement reads back from its own column. */
  lemma FeatureRecordNumbers(o: LabObservation, f: NumericField)
    ensures NumberOf(FeatureRecord(o)[3 + FieldIndex(f)].value) == Value(o, f)
  {
    assert FeatureRecord(o)[3 + FieldIndex(f)].value == Cell(o, Measurement(f));
  }

  /** The record loses nothing: reading it back gives the observation it was built from. */
  lemma ObservationOfFeatureRecord(o: LabObservation)
    ensures ObservationOf(FeatureRecord(o)) == Some(o)
  {
    var fs := FeatureRecord(o);
    FeatureRecordWellShaped(o);
    FeatureRecordAnswers(o);
    var n := map f | f in NumericFields :: NumberOf(fs[3 + FieldIndex(f)].value);
    forall f ensures f in n && n[f] == Value(o, f) {
      AllFieldsListed(f);
      FeatureRecordNumbers(o, f);
    }
    var d := Assemble(o.location, o.bednet, o.feverSymptom, n);
    assert ObservationOf(fs) == Some(d);
    AssembleValues(o.location, o.bednet, o.feverSymptom, n);
    SameValuesSameObservation(d, o);
  }
}
