/**
 * The scan form's input schema: three categorical answers chosen from
 * fixed option lists and eighteen laboratory measurements, each entered
 * through a numeric field with an inclusive minimum and maximum
 * (malaria_app.py, show_ai_scan). `Validate` turns what was entered into a
 * `LabObservation` or names the first field that is missing or out of
 * bounds, without clamping.
 */
module Schema {
  import opened Wrappers

  datatype Location = Urban | Rural | Suburban

  /** The answer of the bed-net and fever-symptom questions. */
  datatype Answer = Yes | No

  /** The eighteen measurements, declared in the classifier's column order. */
  datatype NumericField =
    | Temperature | WbcCount | RbcCount | HbLevel | Hematocrit
    | MeanCellVolume | MeanCorpHb | MeanCellHbConc | PlateletCount
    | PlateletDistrWidth | MeanPlateletVl | NeutrophilsPercent
    | LymphocytesPercent | MixedCellsPercent | NeutrophilsCount
    | LymphocytesCount | MixedCellsCount | RbcDistWidthPercent

  const NumericFields: seq<NumericField> := [
    Temperature, WbcCount, RbcCount, HbLevel, Hematocrit,
    MeanCellVolume, MeanCorpHb, MeanCellHbConc, PlateletCount,
    PlateletDistrWidth, MeanPlateletVl, NeutrophilsPercent,
    LymphocytesPercent, MixedCellsPercent, NeutrophilsCount,
    LymphocytesCount, MixedCellsCount, RbcDistWidthPercent
  ]

  /** One assessment: the three answers and the eighteen measurements. */
  datatype LabObservation = LabObservation(
    location: Location,
    bednet: Answer,
    feverSymptom: Answer,
    temperature: real,
    wbcCount: real,
    rbcCount: real,
    hbLevel: real,
    hematocrit: real,
    meanCellVolume: real,
    meanCorpHb: real,
    meanCellHbConc: real,
    plateletCount: real,
    plateletDistrWidth: real,
    meanPlateletVl: real,
    neutrophilsPercent: real,
    lymphocytesPercent: real,
    mixedCellsPercent: real,
    neutrophilsCount: real,
    lymphocytesCount: real,
    mixedCellsCount: real,
    rbcDistWidthPercent: real)

  function Value(o: LabObservation, f: NumericField): real {
    match f
    case Temperature => o.temperature
    case WbcCount => o.wbcCount
    case RbcCount => o.rbcCount
    case HbLevel => o.hbLevel
    case Hematocrit => o.hematocrit
    case MeanCellVolume => o.meanCellVolume
    case MeanCorpHb => o.meanCorpHb
    case MeanCellHbConc => o.meanCellHbConc
    case PlateletCount => o.plateletCount
    case PlateletDistrWidth => o.plateletDistrWidth
    case MeanPlateletVl => o.meanPlateletVl
    case NeutrophilsPercent => o.neutrophilsPercent
    case LymphocytesPercent => o.lymphocytesPercent
    case MixedCellsPercent => o.mixedCellsPercent
    case NeutrophilsCount => o.neutrophilsCount
    case LymphocytesCount => o.lymphocytesCount
    case MixedCellsCount => o.mixedCellsCount
    case RbcDistWidthPercent => o.rbcDistWidthPercent
  }

  /** The inclusive range a numeric field accepts. */
  datatype Bounds = Bounds(min: real, max: real)

  function FieldBounds(f: NumericField): (b: Bounds)
    ensures 0.0 < b.min < b.max
  {
    match f
    case Temperature => Bounds(20.0, 50.0)
    case RbcCount => Bounds(1.0, 10.0)
    case HbLevel => Bounds(5.0, 20.0)
    case Hematocrit => Bounds(10.0, 90.0)
    case MeanCellVolume => Bounds(10.0, 200.0)
    case MeanCorpHb => Bounds(10.0, 60.0)
    case MeanCellHbConc => Bounds(20.0, 60.0)
    case RbcDistWidthPercent => Bounds(4.0, 20.0)
    case WbcCount => Bounds(2.0, 40.0)
    case NeutrophilsPercent => Bounds(10.0, 90.0)
    case LymphocytesPercent => Bounds(10.0, 60.0)
    case MixedCellsPercent => Bounds(1.0, 30.0)
    case NeutrophilsCount => Bounds(1.0, 15.0)
    case LymphocytesCount => Bounds(0.5, 12.0)
    case MixedCellsCount => Bounds(0.1, 2.0)
    case PlateletCount => Bounds(50.0, 550.0)
    case PlateletDistrWidth => Bounds(3.0, 30.0)
    case MeanPlateletVl => Bounds(6.0, 15.0)
  }

  predicate InBounds(f: NumericField, v: real) {
    FieldBounds(f).min <= v <= FieldBounds(f).max
  }

  /** Every measurement lies within its field's bounds. */
  predicate Valid(o: LabObservation) {
    forall f :: InBounds(f, Value(o, f))
  }

  /** The option strings of the three selection boxes. */
  function LocationToken(l: Location): string {
    match l
    case Urban => "Urban"
    case Rural => "Rural"
    case Suburban => "Suburban"
  }

  function AnswerToken(a: Answer): string {
    match a
    case Yes => "Yes"
    case No => "No"
  }

  /** Reads a location option; only the three listed strings are options. */
  function ParseLocation(s: string): (r: Option<Location>)
    ensures forall l :: r == Some(l) <==> LocationToken(l) == s
  {
    if s == "Urban" then Some(Urban)
    else if s == "Rural" then Some(Rural)
    else if s == "Suburban" then Some(Suburban)
    else None
  }

  /** Reads a Yes/No option. */
  function ParseAnswer(s: string): (r: Option<Answer>)
    ensures forall a :: r == Some(a) <==> AnswerToken(a) == s
  {
    if s == "Yes" then Some(Yes)
    else if s == "No" then Some(No)
    else None
  }

  /** What the form hands over: three option strings and the numbers entered. */
  datatype RawForm = RawForm(
    location: string,
    bednet: string,
    feverSymptom: string,
    numbers: map<NumericField, real>)

  datatype CategoricalField = LocationField | BednetField | FeverSymptomField

  datatype ValidationError =
    | UnknownOption(option: CategoricalField, token: string)
    | MissingValue(field: NumericField)
    | OutOfRange(field: NumericField, value: real, bounds: Bounds)

  /** The form can be accepted as it stands. */
  predicate Acceptable(raw: RawForm) {
    && ParseLocation(raw.location).Some?
    && ParseAnswer(raw.bednet).Some?
    && ParseAnswer(raw.feverSymptom).Some?
    && forall f :: f in raw.numbers && InBounds(f, raw.numbers[f])
  }

  /** `e` is a true statement about what is wrong with `raw`. */
  predicate Explains(raw: RawForm, e: ValidationError) {
    match e
    case UnknownOption(LocationField, t) => t == raw.location && ParseLocation(t).None?
    case UnknownOption(BednetField, t) => t == raw.bednet && ParseAnswer(t).None?
    case UnknownOption(FeverSymptomField, t) => t == raw.feverSymptom && ParseAnswer(t).None?
    case MissingValue(f) => f !in raw.numbers
    case OutOfRange(f, v, b) =>
      f in raw.numbers && raw.numbers[f] == v && b == FieldBounds(f) && !InBounds(f, v)
  }

  lemma AllFieldsListed(f: NumericField)
    ensures f in NumericFields
  {
  }

  /** The first of `fields` whose number is missing or out of bounds, if any. */
  function FirstNumericProblem(numbers: map<NumericField, real>, fields: seq<NumericField>): (r: Option<ValidationError>)
    ensures r.None? <==> forall f :: f in fields ==> f in numbers && InBounds(f, numbers[f])
    ensures r.Some? ==> !r.value.UnknownOption? && r.value.field in fields && Explains(RawForm("", "", "", numbers), r.value)
  {
    if fields == [] then None
    else
      var f := fields[0];
      if f !in numbers then Some(MissingValue(f))
      else if !InBounds(f, numbers[f]) then Some(OutOfRange(f, numbers[f], FieldBounds(f)))
      else FirstNumericProblem(numbers, fields[1..])
  }

  /**
   * Accepts the form or reports the first offending field, taking the
   * fields in the classifier's column order. Values are never clamped.
   */
  function Validate(raw: RawForm): (r: Result<LabObservation, ValidationError>)
    ensures r.Ok? <==> Acceptable(raw)
    ensures r.Ok? ==> Valid(r.value)
    ensures r.Ok? ==> && LocationToken(r.value.location) == raw.location
                      && AnswerToken(r.value.bednet) == raw.bednet
                      && AnswerToken(r.value.feverSymptom) == raw.feverSymptom
                      && forall f :: f in raw.numbers && Value(r.value, f) == raw.numbers[f]
    ensures r.Err? ==> Explains(raw, r.error)
  {
    var location := ParseLocation(raw.location);
    var bednet := ParseAnswer(raw.bednet);
    var fever := ParseAnswer(raw.feverSymptom);
    if location.None? then Err(UnknownOption(LocationField, raw.location))
    else if bednet.None? then Err(UnknownOption(BednetField, raw.bednet))
    else if fever.None? then Err(UnknownOption(FeverSymptomField, raw.feverSymptom))
    else
      var problem := FirstNumericProblem(raw.numbers, NumericFields);
      if problem.Some? then
        Err(problem.value)
      else
        assert forall f :: f in raw.numbers && InBounds(f, raw.numbers[f]) by {
          forall f ensures f in raw.numbers && InBounds(f, raw.numbers[f]) { AllFieldsListed(f); }
        }
        var o := Assemble(location.value, bednet.value, fever.value, raw.numbers);
        AssembleValues(location.value, bednet.value, fever.value, raw.numbers);
        Ok(o)
  }

  /** Builds the observation whose measurements are those recorded in `n`. */
  function Assemble(location: Location, bednet: Answer, fever: Answer, n: map<NumericField, real>): LabObservation
    requires forall f :: f in n
  {
    LabObservation(location, bednet, fever,
      n[Temperature], n[WbcCount], n[RbcCount], n[HbLevel], n[Hematocrit],
      n[MeanCellVolume], n[MeanCorpHb], n[MeanCellHbConc], n[PlateletCount],
      n[PlateletDistrWidth], n[MeanPlateletVl], n[NeutrophilsPercent],
      n[LymphocytesPercent], n[MixedCellsPercent], n[NeutrophilsCount],
      n[LymphocytesCount], n[MixedCellsCount], n[RbcDistWidthPercent])
  }

  lemma AssembleValues(location: Location, bednet: Answer, fever: Answer, n: map<NumericField, real>)
    requires forall f :: f in n
    ensures forall f :: Value(Assemble(location, bednet, fever, n), f) == n[f]
  {
    var o := Assemble(location, bednet, fever, n);
    forall f ensures Value(o, f) == n[f] {
      match f
      case _ => {}
    }
  }

  /** Two observations with the same answers and the same measurements are the same. */
  lemma SameValuesSameObservation(a: LabObservation, b: LabObservation)
    requires a.location == b.location && a.bednet == b.bednet && a.feverSymptom == b.feverSymptom
    requires forall f :: Value(a, f) == Value(b, f)
    ensures a == b
  {
    assert Value(a, Temperature) == Value(b, Temperature);
    assert Value(a, WbcCount) == Value(b, WbcCount);
    assert Value(a, RbcCount) == Value(b, RbcCount);
    assert Value(a, HbLevel) == Value(b, HbLevel);
    assert Value(a, Hematocrit) == Value(b, Hematocrit);
    assert Value(a, MeanCellVolume) == Value(b, MeanCellVolume);
    assert Value(a, MeanCorpHb) == Value(b, MeanCorpHb);
    assert Value(a, MeanCellHbConc) == Value(b, MeanCellHbConc);
    assert Value(a, PlateletCount) == Value(b, PlateletCount);
    assert Value(a, PlateletDistrWidth) == Value(b, PlateletDistrWidth);
    assert Value(a, MeanPlateletVl) == Value(b, MeanPlateletVl);
    assert Value(a, NeutrophilsPercent) == Value(b, NeutrophilsPercent);
    assert Value(a, LymphocytesPercent) == Value(b, LymphocytesPercent);
    assert Value(a, MixedCellsPercent) == Value(b, MixedCellsPercent);
    assert Value(a, NeutrophilsCount) == Value(b, NeutrophilsCount);
    assert Value(a, LymphocytesCount) == Value(b, LymphocytesCount);
    assert Value(a, MixedCellsCount) == Value(b, MixedCellsCount);
    assert Value(a, RbcDistWidthPercent) == Value(b, RbcDistWidthPercent);
  }

  /** The form filled in with the values of `o`. */
  function FormOf(o: LabObservation): RawForm {
    RawForm(LocationToken(o.location), AnswerToken(o.bednet), AnswerToken(o.feverSymptom),
            map f | f in NumericFields :: Value(o, f))
  }

  /** A valid observation entered on the form is accepted unchanged. */
  lemma ValidateFormOf(o: LabObservation)
    requires Valid(o)
    ensures Validate(FormOf(o)) == Ok(o)
  {
    var raw := FormOf(o);
    forall f ensures f in raw.numbers && raw.numbers[f] == Value(o, f) { AllFieldsListed(f); }
    assert Acceptable(raw);
    var v := Validate(raw).value;
    assert ParseLocation(raw.location) == Some(o.location);
    assert ParseAnswer(raw.bednet) == Some(o.bednet);
    assert ParseAnswer(raw.feverSymptom) == Some(o.feverSymptom);
    assert v.location == o.location && v.bednet == o.bednet && v.feverSymptom == o.feverSymptom;
    SameValuesSameObservation(v, o);
  }

  /** An observation with a measurement out of bounds is never accepted. */
  lemma ValidateRejectsOutOfBounds(raw: RawForm, f: NumericField)
    requires f in raw.numbers && !InBounds(f, raw.numbers[f])
    ensures Validate(raw).Err?
  {
  }

  /** The values the form shows before anything is entered; each selection box starts on its first option. */
  const DefaultObservation: LabObservation :=
    LabObservation(Urban, Yes, Yes,
      37.0, 7.0, 4.5, 12.0, 40.0, 85.0, 30.0, 33.0, 250.0, 12.0, 9.0,
      60.0, 30.0, 8.0, 4.0, 2.0, 0.5, 13.0)

  lemma DefaultObservationIsValid()
    ensures Valid(DefaultObservation)
  {
  }
}
