/** The input form: its record state, the per-field input handler and the
    submit handler with its two range checks. */
module Form {
  import opened Wrappers
  import opened Records

  /** The record the form starts with. */
  const DefaultData := PredictionData(0.0, 120.0, 70.0, 20.0, 80.0, 32.0, 0.5, 25.0)

  /** `{ ...d, [f]: v }`: the record with field `f` replaced by `v`. */
  function WithField(d: PredictionData, f: Field, v: real): (r: PredictionData)
    ensures Get(r, f) == v
    ensures forall g :: g != f ==> Get(r, g) == Get(d, g)
  {
    match f
    case Pregnancies => d.(pregnancies := v)
    case Glucose => d.(glucose := v)
    case BloodPressure => d.(bloodPressure := v)
    case SkinThickness => d.(skinThickness := v)
    case Insulin => d.(insulin := v)
    case Bmi => d.(bmi := v)
    case Dpf => d.(dpf := v)
    case Age => d.(age := v)
  }

  /** `parseFloat(value) || 0`, given the outcome of `parseFloat` (`None` for NaN):
      NaN and 0 become 0, any other number, negative ones included, is kept. */
  function StoredValue(parsed: Option<real>): (v: real)
    ensures v == 0.0 <==> parsed == None || parsed == Some(0.0)
    ensures parsed.Some? ==> v == parsed.value
  {
    match parsed
    case None => 0.0
    case Some(x) => if x == 0.0 then 0.0 else x
  }

  predicate GlucoseInRange(glucose: real)
  {
    0.0 <= glucose <= 300.0
  }

  predicate BmiInRange(bmi: real)
  {
    10.0 <= bmi <= 70.0
  }

  datatype Rejection = GlucoseOutOfRange | BmiOutOfRange

  /** What a submission does: it is rejected with the first failing check, or
      the record is handed to `onPredict`. */
  datatype SubmitOutcome = Rejected(reason: Rejection) | Submitted(data: PredictionData)

  /** The two checks of a submission, glucose first. */
  function Validate(d: PredictionData): (o: SubmitOutcome)
    ensures o.Submitted? <==> GlucoseInRange(d.glucose) && BmiInRange(d.bmi)
    ensures o.Submitted? ==> o.data == d
    ensures o == Rejected(GlucoseOutOfRange) <==> !GlucoseInRange(d.glucose)
    ensures o == Rejected(BmiOutOfRange) <==> GlucoseInRange(d.glucose) && !BmiInRange(d.bmi)
  {
    if !GlucoseInRange(d.glucose) then Rejected(GlucoseOutOfRange)
    else if !BmiInRange(d.bmi) then Rejected(BmiOutOfRange)
    else Submitted(d)
  }

  class PredictionForm {
    var formData: PredictionData

    constructor ()
      ensures formData == DefaultData
    {
      formData := DefaultData;
    }

    /** Stores the parsed input in the one field it was typed into. */
    method HandleInputChange(field: Field, parsed: Option<real>)
      modifies this
      ensures formData == WithField(old(formData), field, StoredValue(parsed))
    {
      var numValue := match parsed case Some(x) => (if x == 0.0 then 0.0 else x) case None => 0.0;
      formData := match field
        case Pregnancies => formData.(pregnancies := numValue)
        case Glucose => formData.(glucose := numValue)
        case BloodPressure => formData.(bloodPressure := numValue)
        case SkinThickness => formData.(skinThickness := numValue)
        case Insulin => formData.(insulin := numValue)
        case Bmi => formData.(bmi := numValue)
        case Dpf => formData.(dpf := numValue)
        case Age => formData.(age := numValue);
    }

    /** Checks glucose, then BMI, returning early on the first failure; otherwise
        hands the form's record on unchanged. */
    method HandleSubmit() returns (outcome: SubmitOutcome)
      ensures outcome == Validate(formData)
      ensures outcome.Submitted? <==> GlucoseInRange(formData.glucose) && BmiInRange(formData.bmi)
      ensures outcome.Submitted? ==> outcome.data == formData
    {
      if formData.glucose < 0.0 || formData.glucose > 300.0 {
        return Rejected(GlucoseOutOfRange);
      }
      if formData.bmi < 10.0 || formData.bmi > 70.0 {
        return Rejected(BmiOutOfRange);
      }
      return Submitted(formData);
    }
  }

  // ---------------------------------------------------------------------------
  // Properties of input handling and validation

  /** Writing a field twice keeps only the second value. */
  lemma WriteTwice(d: PredictionData, f: Field, u: real, v: real)
    ensures WithField(WithField(d, f, u), f, v) == WithField(d, f, v)
  {
  }

  /** Writes to two different fields can happen in either order. */
  lemma WritesCommute(d: PredictionData, f: Field, g: Field, u: real, v: real)
    requires f != g
    ensures WithField(WithField(d, f, u), g, v) == WithField(WithField(d, g, v), f, u)
  {
  }

  /** Writing back the value a field already holds changes nothing. */
  lemma WriteSameValue(d: PredictionData, f: Field)
    ensures WithField(d, f, Get(d, f)) == d
  {
  }

  /** Only glucose and BMI are checked: records that agree on those two fields
      have the same outcome kind, whatever their other six fields hold. */
  lemma OnlyGlucoseAndBmiChecked(d1: PredictionData, d2: PredictionData)
    requires d1.glucose == d2.glucose && d1.bmi == d2.bmi
    ensures Validate(d1).Submitted? == Validate(d2).Submitted?
    ensures Validate(d1).Rejected? ==> Validate(d1) == Validate(d2)
  {
  }

  /** When both fields are out of range, the glucose rejection is the one reported. */
  lemma GlucoseCheckedFirst(d: PredictionData)
    requires !GlucoseInRange(d.glucose) && !BmiInRange(d.bmi)
    ensures Validate(d) == Rejected(GlucoseOutOfRange)
  {
  }

  /** The range boundaries 0, 300, 10 and 70 are accepted; just beyond them is not. */
  lemma RangeBoundaries()
    ensures GlucoseInRange(0.0) && GlucoseInRange(300.0)
    ensures !GlucoseInRange(-1.0) && !GlucoseInRange(310.0)
    ensures BmiInRange(10.0) && BmiInRange(70.0)
    ensures !BmiInRange(9.9) && !BmiInRange(70.1)
  {
  }

  /** The default record passes validation, an age of 150 (outside the input
      widget's 18 to 120 hint) still submits, and a glucose of 310 is rejected. */
  lemma ExampleSubmissions()
    ensures Validate(DefaultData) == Submitted(DefaultData)
    ensures Validate(WithField(DefaultData, Age, 150.0)).Submitted?
    ensures Validate(WithField(DefaultData, Glucose, 310.0)) == Rejected(GlucoseOutOfRange)
  {
  }
}
