/** The heuristic risk rules of the prediction page, as specification functions.
    Each rule compares one reading with a fixed threshold (strictly) and, when the
    reading exceeds it, adds fixed points to the score and one factor to the list.
    The rules run in a fixed order, and both the score and the factor list are
    defined by accumulating over a prefix of that order, one rule at a time. */
module Scoring {
  import opened Records

  datatype Rule = GlucoseRule | BmiRule | AgeRule | BloodPressureRule | PregnanciesRule | PedigreeRule

  /** A factor is the rule that fired together with the reading it reported
      (the source interpolates that reading into a message string). */
  datatype Factor = Factor(rule: Rule, reading: real)

  datatype Risk = Low | Moderate | High

  datatype PredictionResult = PredictionResult(risk: Risk, confidence: int, factors: seq<Factor>)

  /** The order in which the page checks the rules. */
  const Order: seq<Rule> := [GlucoseRule, BmiRule, AgeRule, BloodPressureRule, PregnanciesRule, PedigreeRule]

  /** Position of a rule in `Order`. */
  function Position(rule: Rule): (k: nat)
    ensures k < |Order| && Order[k] == rule
  {
    match rule
    case GlucoseRule => 0
    case BmiRule => 1
    case AgeRule => 2
    case BloodPressureRule => 3
    case PregnanciesRule => 4
    case PedigreeRule => 5
  }

  function Reading(rule: Rule, d: PredictionData): real
  {
    match rule
    case GlucoseRule => d.glucose
    case BmiRule => d.bmi
    case AgeRule => d.age
    case BloodPressureRule => d.bloodPressure
    case PregnanciesRule => d.pregnancies
    case PedigreeRule => d.dpf
  }

  function Threshold(rule: Rule): real
  {
    match rule
    case GlucoseRule => 140.0
    case BmiRule => 30.0
    case AgeRule => 45.0
    case BloodPressureRule => 80.0
    case PregnanciesRule => 3.0
    case PedigreeRule => 0.8
  }

  function Points(rule: Rule): int
  {
    match rule
    case GlucoseRule => 30
    case BmiRule => 25
    case AgeRule => 20
    case BloodPressureRule => 15
    case PregnanciesRule => 10
    case PedigreeRule => 15
  }

  /** A rule fires only when its reading is strictly above its threshold. */
  predicate Fires(rule: Rule, d: PredictionData)
  {
    Reading(rule, d) > Threshold(rule)
  }

  /** Score accumulated by the rules `rs`, checked left to right. */
  function ScoreOf(rs: seq<Rule>, d: PredictionData): int
    decreases |rs|
  {
    if rs == [] then 0
    else
      var last := rs[|rs| - 1];
      ScoreOf(rs[..|rs| - 1], d) + (if Fires(last, d) then Points(last) else 0)
  }

  /** Factors pushed by the rules `rs`, checked left to right. */
  function FactorsOf(rs: seq<Rule>, d: PredictionData): seq<Factor>
    decreases |rs|
  {
    if rs == [] then []
    else
      var last := rs[|rs| - 1];
      FactorsOf(rs[..|rs| - 1], d) + (if Fires(last, d) then [Factor(last, Reading(last, d))] else [])
  }

  /** The largest score the rules `rs` can add: every one of them firing. */
  function MaxScoreOf(rs: seq<Rule>): int
    decreases |rs|
  {
    if rs == [] then 0 else MaxScoreOf(rs[..|rs| - 1]) + Points(rs[|rs| - 1])
  }

  /** Sum of the points of the rules that reported the factors `fs`. */
  function PointsOf(fs: seq<Factor>): int
    decreases |fs|
  {
    if fs == [] then 0 else PointsOf(fs[..|fs| - 1]) + Points(fs[|fs| - 1].rule)
  }

  function Score(d: PredictionData): int
  {
    ScoreOf(Order, d)
  }

  function Factors(d: PredictionData): seq<Factor>
  {
    FactorsOf(Order, d)
  }

  /** The tier boundaries: low below 30, moderate below 60, high from 60 on. */
  function Tier(score: int): Risk
  {
    if score < 30 then Low
    else if score < 60 then Moderate
    else High
  }

  /** Severity rank of a tier, used to state that tiers grow with the score. */
  function Severity(r: Risk): nat
  {
    match r
    case Low => 0
    case Moderate => 1
    case High => 2
  }

  /** `Math.min` */
  function Min(a: int, b: int): int
  {
    if a <= b then a else b
  }

  /** `Math.max` */
  function Max(a: int, b: int): int
  {
    if a >= b then a else b
  }

  /** The confidence shown with the result: 85, plus 10 above a score of 50,
      clamped to [65, 95]. The clamp never binds. */
  function Confidence(score: int): (c: int)
    ensures 65 <= c <= 95
    ensures c == 95 <==> score > 50
    ensures c == 85 <==> score <= 50
  {
    Min(95, Max(65, 85 + (if score > 50 then 10 else 0)))
  }

  /** The result the page computes for one record. */
  function Assess(d: PredictionData): PredictionResult
  {
    var score := Score(d);
    PredictionResult(Tier(score), Confidence(score), Factors(d))
  }

  /** Every factor names a rule that is strictly before position `k` of the order,
      and the rules of the factors are in strictly increasing order. */
  ghost predicate OrderedBefore(fs: seq<Factor>, k: nat)
  {
    (forall i :: 0 <= i < |fs| ==> Position(fs[i].rule) < k) &&
    (forall i, j :: 0 <= i < j < |fs| ==> Position(fs[i].rule) < Position(fs[j].rule))
  }

  /** What every result the page can hold satisfies. */
  ghost predicate WellFormed(r: PredictionResult)
  {
    65 <= r.confidence <= 95 &&
    (r.risk == High ==> r.confidence == 95) &&
    (r.risk == Low ==> r.confidence == 85) &&
    |r.factors| <= |Order| &&
    OrderedBefore(r.factors, |Order|) &&
    (r.factors == [] ==> r.risk == Low)
  }

  // ---------------------------------------------------------------------------
  // Properties of the score and the factor list

  /** Taking one more rule of the order adds that rule's contribution. */
  lemma PrefixStep(k: nat, d: PredictionData)
    requires k < |Order|
    ensures ScoreOf(Order[..k + 1], d) == ScoreOf(Order[..k], d) + (if Fires(Order[k], d) then Points(Order[k]) else 0)
    ensures FactorsOf(Order[..k + 1], d) == FactorsOf(Order[..k], d) + (if Fires(Order[k], d) then [Factor(Order[k], Reading(Order[k], d))] else [])
    ensures MaxScoreOf(Order[..k + 1]) == MaxScoreOf(Order[..k]) + Points(Order[k])
  {
    assert Order[..k + 1][..k] == Order[..k];
  }

  /** `score` and `fs` are what the first `k` rules of the order accumulate. */
  ghost predicate Accumulated(k: nat, d: PredictionData, score: int, fs: seq<Factor>)
    requires k <= |Order|
  {
    score == ScoreOf(Order[..k], d) && fs == FactorsOf(Order[..k], d)
  }

  /** Checking rule `k` of the order, adding its points and pushing its factor
      when it fires, extends what the first `k` rules accumulated to `k + 1`. */
  lemma Advance(k: nat, rule: Rule, d: PredictionData, score: int, fs: seq<Factor>, score': int, fs': seq<Factor>)
    requires k < |Order| && Order[k] == rule
    requires Accumulated(k, d, score, fs)
    requires Fires(rule, d) ==> score' == score + Points(rule) && fs' == fs + [Factor(rule, Reading(rule, d))]
    requires !Fires(rule, d) ==> score' == score && fs' == fs
    ensures Accumulated(k + 1, d, score', fs')
  {
    PrefixStep(k, d);
  }

  /** Nothing is accumulated before the first rule, and all six rules give the
      score and the factors of the record. */
  lemma AccumulatedEnds(d: PredictionData)
    ensures Accumulated(0, d, 0, [])
    ensures forall score, fs :: Accumulated(|Order|, d, score, fs) ==> score == Score(d) && fs == Factors(d)
  {
    assert Order[..0] == [];
    assert Order[..|Order|] == Order;
  }

  /** The score lies between 0 and the sum of all the rules' points. */
  lemma {:induction false} ScoreBounds(rs: seq<Rule>, d: PredictionData)
    ensures 0 <= ScoreOf(rs, d) <= MaxScoreOf(rs)
    decreases |rs|
  {
    if rs != [] {
      ScoreBounds(rs[..|rs| - 1], d);
    }
  }

  /** The rules push at most one factor each. */
  lemma {:induction false} FactorsLength(rs: seq<Rule>, d: PredictionData)
    ensures |FactorsOf(rs, d)| <= |rs|
    decreases |rs|
  {
    if rs != [] {
      FactorsLength(rs[..|rs| - 1], d);
    }
  }

  /** Every point addition is paired with exactly one push: the score is the sum
      of the points of the rules the factors name. */
  lemma {:induction false} ScoreIsFactorPoints(rs: seq<Rule>, d: PredictionData)
    ensures ScoreOf(rs, d) == PointsOf(FactorsOf(rs, d))
    decreases |rs|
  {
    if rs != [] {
      var init := rs[..|rs| - 1];
      var last := rs[|rs| - 1];
      ScoreIsFactorPoints(init, d);
      if Fires(last, d) {
        var fs := FactorsOf(init, d) + [Factor(last, Reading(last, d))];
        assert FactorsOf(rs, d) == fs;
        assert fs[..|fs| - 1] == FactorsOf(init, d);
        assert PointsOf(fs) == PointsOf(FactorsOf(init, d)) + Points(last);
      } else {
        assert FactorsOf(rs, d) == FactorsOf(init, d);
      }
    }
  }

  /** No factors were pushed exactly when no points were added. */
  lemma {:induction false} FactorsEmptyIffScoreZero(rs: seq<Rule>, d: PredictionData)
    ensures FactorsOf(rs, d) == [] <==> ScoreOf(rs, d) == 0
    decreases |rs|
  {
    if rs != [] {
      FactorsEmptyIffScoreZero(rs[..|rs| - 1], d);
      ScoreBounds(rs[..|rs| - 1], d);
    }
  }

  /** The factors follow the order of the rules, without repetition. */
  lemma {:induction false} FactorsOrdered(k: nat, d: PredictionData)
    requires k <= |Order|
    ensures OrderedBefore(FactorsOf(Order[..k], d), k)
  {
    if k > 0 {
      FactorsOrdered(k - 1, d);
      PrefixStep(k - 1, d);
    }
  }

  /** A factor is present exactly for each rule whose reading exceeds its
      threshold, and it carries that reading. */
  lemma {:induction false} FactorsExactlyFired(k: nat, d: PredictionData, rule: Rule)
    requires k <= |Order|
    ensures Factor(rule, Reading(rule, d)) in FactorsOf(Order[..k], d) <==> Position(rule) < k && Fires(rule, d)
    ensures forall f :: f in FactorsOf(Order[..k], d) ==> f.reading == Reading(f.rule, d) && Fires(f.rule, d)
  {
    if k > 0 {
      FactorsExactlyFired(k - 1, d, rule);
      FactorsOrdered(k - 1, d);
      PrefixStep(k - 1, d);
    }
  }

  /** Raising readings never lowers the score: a record that is at least as high
      on every scored reading scores at least as much. */
  lemma {:induction false} ScoreMonotone(rs: seq<Rule>, d1: PredictionData, d2: PredictionData)
    requires forall rule :: Reading(rule, d1) <= Reading(rule, d2)
    ensures ScoreOf(rs, d1) <= ScoreOf(rs, d2)
    decreases |rs|
  {
    if rs != [] {
      ScoreMonotone(rs[..|rs| - 1], d1, d2);
      assert Reading(rs[|rs| - 1], d1) <= Reading(rs[|rs| - 1], d2);
    }
  }

  /** The score of a record is at most 115, the sum 30 + 25 + 20 + 15 + 10 + 15. */
  lemma ScoreRange(d: PredictionData)
    ensures 0 <= Score(d) <= 115
  {
    ScoreBounds(Order, d);
    PrefixStep(0, d); PrefixStep(1, d); PrefixStep(2, d);
    PrefixStep(3, d); PrefixStep(4, d); PrefixStep(5, d);
    assert Order[..6] == Order;
  }

  /** A reading at or below its threshold contributes no factor, so a glucose of
      exactly 140, a BMI of exactly 30 or an age of exactly 45 add nothing. */
  lemma AtThresholdAddsNothing(d: PredictionData, rule: Rule)
    requires Reading(rule, d) <= Threshold(rule)
    ensures forall f :: f in Factors(d) ==> f.rule != rule
  {
    assert Order[..|Order|] == Order;
    FactorsExactlyFired(|Order|, d, rule);
  }

  // ---------------------------------------------------------------------------
  // Properties of the tier and the confidence

  /** Each tier is exactly its score band. */
  lemma TierBands(score: int)
    ensures Tier(score) == Low <==> score < 30
    ensures Tier(score) == Moderate <==> 30 <= score < 60
    ensures Tier(score) == High <==> score >= 60
  {
  }

  /** A higher score never gives a lower tier. */
  lemma TierMonotone(s1: int, s2: int)
    requires s1 <= s2
    ensures Severity(Tier(s1)) <= Severity(Tier(s2))
  {
  }

  /** High tier always shows 95, low tier always 85. */
  lemma ConfidenceOfTier(score: int)
    ensures Tier(score) == High ==> Confidence(score) == 95
    ensures Tier(score) == Low ==> Confidence(score) == 85
  {
  }

  /** Raising readings never lowers the tier. */
  lemma RiskMonotone(d1: PredictionData, d2: PredictionData)
    requires forall rule :: Reading(rule, d1) <= Reading(rule, d2)
    ensures Severity(Assess(d1).risk) <= Severity(Assess(d2).risk)
  {
    ScoreMonotone(Order, d1, d2);
  }

  /** Everything the page computes is well formed; in particular the factor
      list is empty exactly when the score is 0. */
  lemma AssessWellFormed(d: PredictionData)
    ensures WellFormed(Assess(d))
    ensures Factors(d) == [] <==> Score(d) == 0
  {
    assert Order[..|Order|] == Order;
    FactorsLength(Order, d);
    FactorsOrdered(|Order|, d);
    FactorsEmptyIffScoreZero(Order, d);
    ScoreBounds(Order, d);
  }

  // ---------------------------------------------------------------------------
  // Worked examples

  /** Every threshold exceeded: score 115, high risk, 95, six factors in order. */
  lemma ExampleAllExceeded()
    ensures var d := PredictionData(4.0, 150.0, 85.0, 20.0, 80.0, 35.0, 0.9, 50.0);
      Score(d) == 115 &&
      Assess(d) == PredictionResult(High, 95,
        [Factor(GlucoseRule, 150.0), Factor(BmiRule, 35.0), Factor(AgeRule, 50.0),
         Factor(BloodPressureRule, 85.0), Factor(PregnanciesRule, 4.0), Factor(PedigreeRule, 0.9)])
  {
    var d := PredictionData(4.0, 150.0, 85.0, 20.0, 80.0, 35.0, 0.9, 50.0);
    PrefixStep(0, d); PrefixStep(1, d); PrefixStep(2, d);
    PrefixStep(3, d); PrefixStep(4, d); PrefixStep(5, d);
    assert Order[..6] == Order;
  }

  /** No threshold exceeded: low risk, 85, no factors. */
  lemma ExampleNoneExceeded()
    ensures var d := PredictionData(1.0, 100.0, 70.0, 20.0, 80.0, 25.0, 0.3, 30.0);
      Assess(d) == PredictionResult(Low, 85, [])
  {
    var d := PredictionData(1.0, 100.0, 70.0, 20.0, 80.0, 25.0, 0.3, 30.0);
    PrefixStep(0, d); PrefixStep(1, d); PrefixStep(2, d);
    PrefixStep(3, d); PrefixStep(4, d); PrefixStep(5, d);
    assert Order[..6] == Order;
  }
}
