/** The prediction page: the local scorer and the two pieces of view state it
    updates, `currentView` and `predictionResult`. */
module Index {
  import opened Wrappers
  import opened Records
  import opened Scoring
  import Form

  datatype View = FormView | ResultView

  /** The body of the page's prediction handler before it touches state: the
      score and the factor list are accumulated rule by rule, then the tier and
      the confidence are derived from the score. */
  method Evaluate(data: PredictionData) returns (result: PredictionResult)
    ensures result == Assess(data)
    ensures 65 <= result.confidence <= 95
    ensures |result.factors| <= 6
  {
    var riskScore := 0;
    var factors: seq<Factor> := [];
    AccumulatedEnds(data);
    ghost var before, pushed := riskScore, factors;
    if data.glucose > 140.0 {
      riskScore := riskScore + 30;
      factors := factors + [Factor(GlucoseRule, data.glucose)];
    }
    Advance(0, GlucoseRule, data, before, pushed, riskScore, factors);
    before, pushed := riskScore, factors;
    if data.bmi > 30.0 {
      riskScore := riskScore + 25;
      factors := factors + [Factor(BmiRule, data.bmi)];
    }
    Advance(1, BmiRule, data, before, pushed, riskScore, factors);
    before, pushed := riskScore, factors;
    if data.age > 45.0 {
      riskScore := riskScore + 20;
      factors := factors + [Factor(AgeRule, data.age)];
    }
    Advance(2, AgeRule, data, before, pushed, riskScore, factors);
    before, pushed := riskScore, factors;
    if data.bloodPressure > 80.0 {
      riskScore := riskScore + 15;
      factors := factors + [Factor(BloodPressureRule, data.bloodPressure)];
    }
    Advance(3, BloodPressureRule, data, before, pushed, riskScore, factors);
    before, pushed := riskScore, factors;
    if data.pregnancies > 3.0 {
      riskScore := riskScore + 10;
      factors := factors + [Factor(PregnanciesRule, data.pregnancies)];
    }
    Advance(4, PregnanciesRule, data, before, pushed, riskScore, factors);
    before, pushed := riskScore, factors;
    if data.dpf > 0.8 {
      riskScore := riskScore + 15;
      factors := factors + [Factor(PedigreeRule, data.dpf)];
    }
    Advance(5, PedigreeRule, data, before, pushed, riskScore, factors);
    FactorsLength(Order, data);

    var risk: Risk;
    if riskScore < 30 {
      risk := Low;
    } else if riskScore < 60 {
      risk := Moderate;
    } else {
      risk := High;
    }

    var confidence := Min(95, Max(65, 85 + (if riskScore > 50 then 10 else 0)));
    result := PredictionResult(risk, confidence, factors);
  }

  class IndexPage {
    var currentView: View
    var predictionResult: Option<PredictionResult>

    /** The result view is shown exactly when a result is held, and any result
        held is one the scorer can produce. */
    ghost predicate Valid()
      reads this
    {
      (currentView == ResultView <==> predictionResult.Some?) &&
      (predictionResult.Some? ==> WellFormed(predictionResult.value))
    }

    constructor ()
      ensures Valid()
      ensures currentView == FormView && predictionResult == None
    {
      currentView := FormView;
      predictionResult := None;
    }

    /** Scores the record, stores the result and switches to the result view. */
    method HandlePredict(data: PredictionData)
      requires Valid()
      modifies this
      ensures Valid()
      ensures currentView == ResultView && predictionResult == Some(Assess(data))
    {
      var result := Evaluate(data);
      AssessWellFormed(data);
      predictionResult := Some(result);
      currentView := ResultView;
    }

    /** Drops the result and goes back to the form view. */
    method HandleReset()
      requires Valid()
      modifies this
      ensures Valid()
      ensures currentView == FormView && predictionResult == None
    {
      currentView := FormView;
      predictionResult := None;
    }

    /** A submit of the form, which the page renders only in the form view and
        wires to `HandlePredict` as its `onPredict`: the page moves to the result
        of the form's record exactly when validation passes, and stays as it was
        otherwise. */
    method SubmitFromForm(form: Form.PredictionForm)
      requires Valid() && currentView == FormView
      modifies this
      ensures Valid()
      ensures Form.Validate(form.formData).Submitted? ==>
        currentView == ResultView && predictionResult == Some(Assess(form.formData))
      ensures Form.Validate(form.formData).Rejected? ==>
        currentView == FormView && predictionResult == old(predictionResult)
    {
      var outcome := form.HandleSubmit();
      if outcome.Submitted? {
        HandlePredict(outcome.data);
      }
    }
  }
}
