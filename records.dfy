/** The eight clinical parameters that the form collects and the scorer reads.
    The source declares the same `PredictionData` interface in the page and in
    the form; it is defined once here. JavaScript numbers are modelled as `real`:
    the code only compares them against constants and copies them. */
module Records {

  datatype PredictionData = PredictionData(
    pregnancies: real,
    glucose: real,
    bloodPressure: real,
    skinThickness: real,
    insulin: real,
    bmi: real,
    dpf: real,
    age: real)

  /** The keys of `PredictionData` (`keyof PredictionData`). */
  datatype Field = Pregnancies | Glucose | BloodPressure | SkinThickness | Insulin | Bmi | Dpf | Age

  /** `data[field]` */
  function Get(d: PredictionData, f: Field): real
  {
    match f
    case Pregnancies => d.pregnancies
    case Glucose => d.glucose
    case BloodPressure => d.bloodPressure
    case SkinThickness => d.skinThickness
    case Insulin => d.insulin
    case Bmi => d.bmi
    case Dpf => d.dpf
    case Age => d.age
  }
}
