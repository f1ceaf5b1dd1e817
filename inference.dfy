/**
 * The decision engine: from a feature map and the registered model loader to an action,
 * a confidence and a rule-based reason. It never raises: every failure becomes HOLD.
 */
module Inference {
  import opened Common
  import opened Training

  datatype Action = Buy | Sell | Hold

  datatype Decision = Decision(action: Action, confidence: real, reason: string)

  /**
   * What scaling the input and asking the classifier gives: the predicted class and the
   * probability of each entry of the class list, or the message of an exception.
   */
  datatype Output = Predicted(prediction: int, probabilities: seq<real>) | Raised(message: string)

  /** The fields of a registered loader that prediction reads. */
  datatype LoaderState = LoaderState(model: Option<Classifier>, scaler: Option<Scaler>)

  const NotInitializedReason: string := "Model not initialized"
  const NoneTransformMessage: string := "'NoneType' object has no attribute 'transform'"
  const NotFittedMessage: string :=
    "This StandardScaler instance is not fitted yet. Call 'fit' with appropriate arguments before using this estimator."

  /** The confidence below which a two-class model's prediction becomes HOLD. */
  const TwoClassGate: real := 0.6

  /** `features.get(key, default)`. */
  function Get(features: map<string, real>, key: string, default: real): (v: real)
    ensures key in features ==> v == features[key]
    ensures key !in features ==> v == default
  {
    if key in features then features[key] else default
  }

  /**
   * The model input, in the order sma_10, sma_50, rsi, price_change, volume, read from the
   * keys sma_10, sma_50, rsi_14, price_change_1m and volume with defaults 0, 0, 50, 0 and 1e6.
   */
  function FeatureVector(features: map<string, real>): (x: seq<real>)
    ensures |x| == 5
  {
    [ Get(features, "sma_10", 0.0),
      Get(features, "sma_50", 0.0),
      Get(features, "rsi_14", 50.0),
      Get(features, "price_change_1m", 0.0),
      Get(features, "volume", 1000000.0) ]
  }

  /** An empty feature map yields the defaults. */
  lemma EmptyFeatureVector()
    ensures FeatureVector(map[]) == [0.0, 0.0, 50.0, 0.0, 1000000.0]
  {
  }

  /**
   * The indicator engine's map has every key but volume, so its model input carries the
   * engine's values and the default volume of one million.
   */
  lemma ExtractedFeatureVector(klines: seq<MarketMonitor.Candle>)
    requires klines != [] && MarketMonitor.ExtractFeatures(klines).Ok?
    ensures var f := MarketMonitor.ExtractFeatures(klines).value;
      FeatureVector(f) == [f["sma_10"], f["sma_50"], f["rsi_14"], f["price_change_1m"], 1000000.0]
  {
    MarketMonitor.ExtractedFeaturesShape(klines);
  }

  /** The fixed class-to-action table: 0 is BUY, 1 is SELL, 2 is HOLD, nothing else is mapped. */
  function ActionOf(c: int): (a: Option<Action>)
    ensures a.Some? <==> 0 <= c <= 2
  {
    if c == 0 then Some(Buy) else if c == 1 then Some(Sell) else if c == 2 then Some(Hold) else None
  }

  /** The position of the first occurrence of c in the class list (`np.where(...)[0][0]`). */
  function ClassIndex(classes: seq<int>, c: int): (ix: Option<nat>)
    ensures ix.Some? <==> c in classes
    ensures ix.Some? ==>
      && ix.value < |classes| && classes[ix.value] == c
      && (forall j :: 0 <= j < ix.value ==> classes[j] != c)
  {
    if classes == [] then None
    else if classes[0] == c then Some(0)
    else match ClassIndex(classes[1..], c)
      case None => None
      case Some(i) => Some(i + 1)
  }

  /** numpy's message for an index past the end of the probability vector. */
  function IndexErrorMessage(i: nat, size: nat): string
  {
    "index " + NatToString(i) + " is out of bounds for axis 0 with size " + NatToString(size)
  }

  /**
   * The probability of the predicted class: the entry at its position in the class list,
   * 0.5 when it is not in the list, and an IndexError when the vector is too short.
   */
  function PredictedProbability(classes: seq<int>, prediction: int, probabilities: seq<real>): (r: Result<real>)
    ensures prediction !in classes ==> r == Ok(0.5)
    ensures prediction in classes ==> var i := ClassIndex(classes, prediction).value;
      if i < |probabilities| then r == Ok(probabilities[i]) else r.Err?
  {
    match ClassIndex(classes, prediction)
    case None => Ok(0.5)
    case Some(i) =>
      if i < |probabilities| then Ok(probabilities[i])
      else Err(IndexErrorMessage(i, |probabilities|))
  }

  /**
   * Action and confidence. A two-class model below the gate gives HOLD with the complement
   * of the probability; otherwise the table decides, with HOLD for an unmapped class.
   */
  function ChooseAction(classes: seq<int>, prediction: int, probabilities: seq<real>): Result<(Action, real)>
  {
    match PredictedProbability(classes, prediction, probabilities)
    case Err(m) => Err(m)
    case Ok(p) =>
      if |classes| == 2 then
        if p < TwoClassGate then Ok((Hold, 1.0 - p))
        else if ActionOf(prediction).Some? then Ok((ActionOf(prediction).value, p))
        else Ok((Hold, 0.5))
      else
        if ActionOf(prediction).Some? then Ok((ActionOf(prediction).value, p))
        else Ok((Hold, p))
  }

  /** With two classes, a probability under 0.6 is HOLD at 1 - p, and above it the table with p. */
  lemma TwoClassRule(classes: seq<int>, prediction: int, probabilities: seq<real>)
    requires |classes| == 2
    requires PredictedProbability(classes, prediction, probabilities).Ok?
    ensures var p := PredictedProbability(classes, prediction, probabilities).value;
      var r := ChooseAction(classes, prediction, probabilities);
      && r.Ok?
      && (p < 0.6 ==> r.value == (Hold, 1.0 - p))
      && (p >= 0.6 && 0 <= prediction <= 2 ==> r.value == (ActionOf(prediction).value, p))
      && (p >= 0.6 && !(0 <= prediction <= 2) ==> r.value == (Hold, 0.5))
  {
  }

  /** With any other number of classes the action is the table's, HOLD when unmapped, at the class's probability. */
  lemma FixedTableRule(classes: seq<int>, prediction: int, probabilities: seq<real>)
    requires |classes| != 2
    requires PredictedProbability(classes, prediction, probabilities).Ok?
    ensures var p := PredictedProbability(classes, prediction, probabilities).value;
      var r := ChooseAction(classes, prediction, probabilities);
      && r.Ok?
      && r.value.1 == p
      && r.value.0 == (if 0 <= prediction <= 2 then ActionOf(prediction).value else Hold)
  {
  }

  /** `", ".join(parts)`. */
  function Join(parts: seq<string>, sep: string): string
  {
    if parts == [] then ""
    else if |parts| == 1 then parts[0]
    else parts[0] + sep + Join(parts[1..], sep)
  }

  /** "Price above SMA_50" exactly when sma_10 exceeds sma_50 (both defaulting to 0). */
  function SmaClause(features: map<string, real>): string
  {
    if Get(features, "sma_10", 0.0) > Get(features, "sma_50", 0.0) then "Price above SMA_50" else "Price below SMA_50"
  }

  /** "positive trend" exactly when price_change_1m is above 0, so a zero change reads as negative. */
  function TrendClause(features: map<string, real>): string
  {
    if Get(features, "price_change_1m", 0.0) > 0.0 then "positive trend" else "negative trend"
  }

  /** The RSI clause, present only above 70 or below 30 (rsi_14 defaults to 50). */
  function RsiClause(features: map<string, real>): seq<string>
  {
    var rsi := Get(features, "rsi_14", 50.0);
    if rsi > 70.0 then ["RSI overbought"] else if rsi < 30.0 then ["RSI oversold"] else []
  }

  /** The reason clauses: SMA position, then the RSI extreme if any, then the trend. */
  function ReasonParts(features: map<string, real>): (parts: seq<string>)
    ensures 2 <= |parts| <= 3
  {
    [SmaClause(features)] + RsiClause(features) + [TrendClause(features)]
  }

  function Reason(features: map<string, real>): string
  {
    var parts := ReasonParts(features);
    if parts != [] then Join(parts, ", ") else "No clear signal"
  }

  lemma JoinTwo(a: string, b: string)
    ensures Join([a, b], ", ") == a + ", " + b
  {
    assert [a, b][1..] == [b];
  }

  lemma JoinThree(a: string, b: string, c: string)
    ensures Join([a, b, c], ", ") == a + ", " + b + ", " + c
  {
    assert [a, b, c][1..] == [b, c];
    JoinTwo(b, c);
  }

  /**
   * The reason is the SMA clause, then the RSI clause exactly when rsi_14 is above 70 or
   * below 30, then the trend clause, joined by ", "; so it is never "No clear signal".
   */
  lemma ReasonForm(features: map<string, real>)
    ensures var rsi, sma, trend := Get(features, "rsi_14", 50.0), SmaClause(features), TrendClause(features);
      && (rsi > 70.0 ==> Reason(features) == sma + ", " + "RSI overbought" + ", " + trend)
      && (rsi < 30.0 ==> Reason(features) == sma + ", " + "RSI oversold" + ", " + trend)
      && (30.0 <= rsi <= 70.0 ==> Reason(features) == sma + ", " + trend)
    ensures Reason(features) != "No clear signal"
  {
    var sma, trend := SmaClause(features), TrendClause(features);
    var parts := ReasonParts(features);
    if |RsiClause(features)| == 1 {
      assert parts == [sma, RsiClause(features)[0], trend];
      JoinThree(sma, RsiClause(features)[0], trend);
    } else {
      assert parts == [sma, trend];
      JoinTwo(sma, trend);
    }
    assert Reason(features)[0] == 'P';
  }

  /** The scaler step, then the classifier, then the action rules and the reason. */
  function Attempt(model: Classifier, scaler: Option<Scaler>, features: map<string, real>,
                   infer: seq<real> -> Output): Result<Decision>
  {
    match scaler
    case None => Err(NoneTransformMessage)
    case Some(Unfitted) => Err(NotFittedMessage)
    case Some(Fitted) =>
      match infer(FeatureVector(features))
      case Raised(m) => Err(m)
      case Predicted(prediction, probabilities) =>
        match ChooseAction(model.classes, prediction, probabilities)
        case Err(m) => Err(m)
        case Ok((action, confidence)) => Ok(Decision(action, confidence, Reason(features)))
  }

  /**
   * `predict_action`: without a registered loader or without a model the answer is HOLD at
   * 0.5, "Model not initialized"; any exception becomes HOLD at 0.5 with the message.
   */
  function Predict(state: Option<LoaderState>, features: map<string, real>, infer: seq<real> -> Output): (d: Decision)
    ensures state.None? || state.value.model.None? ==> d == Decision(Hold, 0.5, NotInitializedReason)
    ensures state.Some? && state.value.model.Some? ==>
      match Attempt(state.value.model.value, state.value.scaler, features, infer)
      case Ok(decision) => d == decision
      case Err(m) => d == Decision(Hold, 0.5, "Prediction error: " + m)
  {
    if state.None? || state.value.model.None? then Decision(Hold, 0.5, NotInitializedReason)
    else
      match Attempt(state.value.model.value, state.value.scaler, features, infer)
      case Ok(decision) => decision
      case Err(m) => Decision(Hold, 0.5, "Prediction error: " + m)
  }

  /** A model without a fitted scaler always falls back to HOLD at 0.5 with the scaler's error. */
  lemma UnfittedScalerHolds(model: Classifier, features: map<string, real>, infer: seq<real> -> Output)
    ensures Predict(Some(LoaderState(Some(model), Some(Unfitted))), features, infer)
      == Decision(Hold, 0.5, "Prediction error: " + NotFittedMessage)
    ensures Predict(Some(LoaderState(Some(model), None)), features, infer)
      == Decision(Hold, 0.5, "Prediction error: " + NoneTransformMessage)
  {
  }

  /** When every probability lies in [0, 1], so does the confidence, on every path. */
  lemma ConfidenceInUnitInterval(state: Option<LoaderState>, features: map<string, real>, infer: seq<real> -> Output)
    requires forall x :: infer(x).Predicted? ==>
      forall i :: 0 <= i < |infer(x).probabilities| ==> 0.0 <= infer(x).probabilities[i] <= 1.0
    ensures 0.0 <= Predict(state, features, infer).confidence <= 1.0
  {
    if state.Some? && state.value.model.Some? && state.value.scaler == Some(Fitted) {
      var out := infer(FeatureVector(features));
      if out.Predicted? {
        var classes := state.value.model.value.classes;
        var pp := PredictedProbability(classes, out.prediction, out.probabilities);
        if pp.Ok? && ClassIndex(classes, out.prediction).Some? {
          var i := ClassIndex(classes, out.prediction).value;
          assert 0.0 <= out.probabilities[i] <= 1.0;
        }
      }
    }
  }

  /** A successful prediction carries the rule-based reason, whatever the model said. */
  lemma PredictionReason(state: Option<LoaderState>, features: map<string, real>, infer: seq<real> -> Output)
    requires state.Some? && state.value.model.Some?
    requires Attempt(state.value.model.value, state.value.scaler, features, infer).Ok?
    ensures Predict(state, features, infer).reason == Reason(features)
  {
  }

  /** The module-global registration of a model loader (`initialize_model`). */
  class Registry {
    var loader: ModelLoader?

    constructor()
      ensures loader == null
    {
      loader := null;
    }

    method InitializeModel(l: ModelLoader)
      modifies this
      ensures loader == l
    {
      loader := l;
    }

    /** What prediction sees of the registered loader. */
    function State(): Option<LoaderState>
      reads this, loader
    {
      if loader == null then None else Some(LoaderState(loader.model, loader.scaler))
    }

    /** `predict_action` against the registered loader. */
    method PredictAction(features: map<string, real>, infer: seq<real> -> Output) returns (d: Decision)
      ensures d == Predict(State(), features, infer)
    {
      if loader == null || loader.model.None? {
        return Decision(Hold, 0.5, NotInitializedReason);
      }
      var attempt := Attempt(loader.model.value, loader.scaler, features, infer);
      match attempt
      case Ok(decision) => d := decision;
      case Err(m) => d := Decision(Hold, 0.5, "Prediction error: " + m);
    }
  }
}
