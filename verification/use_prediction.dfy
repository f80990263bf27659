/** The prediction hooks: a prediction gated on a selected date, and the confidence
    score put into one of four labelled bands. */
module UsePrediction {
  import opened Types
  import opened Prediction

  /** What the prediction hook hands to the view. */
  datatype PredictionView = PredictionView(prediction: Option<PredictionResult>, confidence: real)

  /** No date gives no prediction and confidence 0; a date gives the engine's
      prediction from that date and the engine's confidence for the history. */
  function UsePredictionOf(lastPeriodStart: Option<Day>, cycleHistory: CycleHistory, sqrt: RootFn): (v: PredictionView)
    requires ConfidenceDefined(cycleHistory.cycleLengths)
    ensures lastPeriodStart.None? ==> v == PredictionView(None, 0.0)
    ensures lastPeriodStart.Some? ==>
      v.prediction == Some(CalculatePrediction(lastPeriodStart.value, cycleHistory, sqrt))
    ensures lastPeriodStart.Some? ==> 0.3 <= v.confidence <= 1.0
  {
    if lastPeriodStart.None? then PredictionView(None, 0.0)
    else
      var prediction := CalculatePrediction(lastPeriodStart.value, cycleHistory, sqrt);
      var confidence := Confidence(cycleHistory, sqrt);
      PredictionView(Some(prediction), confidence)
  }

  /** The confidence reported beside a prediction is the prediction's own. */
  lemma ViewConfidenceMatchesPrediction(lastPeriodStart: Day, cycleHistory: CycleHistory, sqrt: RootFn)
    requires ConfidenceDefined(cycleHistory.cycleLengths)
    ensures UsePredictionOf(Some(lastPeriodStart), cycleHistory, sqrt).confidence ==
      UsePredictionOf(Some(lastPeriodStart), cycleHistory, sqrt).prediction.value.confidence
  {
  }

  datatype ConfidenceLevel = VeryHigh | High | Medium | Low

  /** The text shown for a level. */
  function Label(level: ConfidenceLevel): string
  {
    match level
    case VeryHigh => "Very High"
    case High => "High"
    case Medium => "Medium"
    case Low => "Low"
  }

  /** Position of a level, from Low (0) to Very High (3). */
  function Rank(level: ConfidenceLevel): (k: nat)
    ensures k <= 3
  {
    match level
    case Low => 0
    case Medium => 1
    case High => 2
    case VeryHigh => 3
  }

  /** The band of a score: at least 0.8, at least 0.6, at least 0.4, or below. */
  function LevelOf(confidence: real): (level: ConfidenceLevel)
    ensures level == VeryHigh <==> confidence >= 0.8
    ensures level == High <==> 0.6 <= confidence < 0.8
    ensures level == Medium <==> 0.4 <= confidence < 0.6
    ensures level == Low <==> confidence < 0.4
  {
    if confidence >= 0.8 then VeryHigh
    else if confidence >= 0.6 then High
    else if confidence >= 0.4 then Medium
    else Low
  }

  /** A higher score never gets a lower band. */
  lemma LevelMonotone(c1: real, c2: real)
    requires c1 <= c2
    ensures Rank(LevelOf(c1)) <= Rank(LevelOf(c2))
  {
  }

  /** The label of the band the history's confidence score falls in. */
  function UseConfidenceLevel(cycleHistory: CycleHistory, sqrt: RootFn): (text: string)
    requires ConfidenceDefined(cycleHistory.cycleLengths)
    ensures text == "Very High" <==> Confidence(cycleHistory, sqrt) >= 0.8
    ensures text == "High" <==> 0.6 <= Confidence(cycleHistory, sqrt) < 0.8
    ensures text == "Medium" <==> 0.4 <= Confidence(cycleHistory, sqrt) < 0.6
    ensures text == "Low" <==> Confidence(cycleHistory, sqrt) < 0.4
  {
    Label(LevelOf(Confidence(cycleHistory, sqrt)))
  }

  /** With no recorded lengths the score is 1, the top band. */
  lemma EmptyHistoryVeryHigh(cycleHistory: CycleHistory, sqrt: RootFn)
    requires |cycleHistory.cycleLengths| == 0
    ensures UseConfidenceLevel(cycleHistory, sqrt) == "Very High"
  {
  }

  /** Perfectly regular positive lengths reach the top band. */
  lemma RegularHistoryVeryHigh(cycleHistory: CycleHistory, sqrt: RootFn)
    requires |cycleHistory.cycleLengths| > 0 && Sum(cycleHistory.cycleLengths) > 0
    requires AllEqual(cycleHistory.cycleLengths)
    ensures UseConfidenceLevel(cycleHistory, sqrt) == "Very High"
  {
    ConfidenceOneIffRegular(cycleHistory, sqrt);
  }

  /** Lengths that cancel out to a zero total, without all being zero, get the floor
      score and so the lowest band. */
  lemma ZeroTotalLow(cycleHistory: CycleHistory, sqrt: RootFn)
    requires |cycleHistory.cycleLengths| > 0 && Sum(cycleHistory.cycleLengths) == 0
    requires ConfidenceDefined(cycleHistory.cycleLengths)
    ensures UseConfidenceLevel(cycleHistory, sqrt) == "Low"
  {
  }
}
