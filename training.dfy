/**
 * The model loader: a threshold fixed at construction, and the model and scaler fields that
 * training sets. The random-forest classifier is known only by its class list.
 */
module Training {
  import opened Common
  import opened MarketMonitor
  import opened TrainingFeatures
  import opened TrainingLabels

  /** The configured MODEL_THRESHOLD_PERCENT. */
  const DefaultThresholdPercent: real := 0.5

  const NotTrainedMessage: string := "Модель не обучена"

  /** What the scaler raises when a feature is infinite. */
  const InfinityMessage: string := "Input X contains infinity or a value too large for dtype('float64')."

  /** A fitted classifier, known by its `classes_`: the sorted distinct labels it was fitted on. */
  datatype Classifier = Classifier(classes: seq<int>)

  /** A StandardScaler that was created but whose fit raised, or one that was fitted. */
  datatype Scaler = Unfitted | Fitted

  /** `threshold_percent or settings.MODEL_THRESHOLD_PERCENT`: a missing or zero threshold falls back. */
  function EffectiveThreshold(threshold: Option<real>): (t: real)
    ensures t != 0.0
    ensures threshold.Some? && threshold.value != 0.0 ==> t == threshold.value
    ensures threshold.None? ==> t == DefaultThresholdPercent
  {
    if threshold.None? || threshold.value == 0.0 then DefaultThresholdPercent else threshold.value
  }

  /** The sorted distinct classes among the labels 0, 1 and 2 occurring in y. */
  function ClassesOf(y: seq<int>): (cs: seq<int>)
    ensures forall c :: c in cs <==> c in y && 0 <= c <= 2
    ensures forall j, k :: 0 <= j < k < |cs| ==> cs[j] < cs[k]
    ensures |cs| <= 3
  {
    (if 0 in y then [0] else []) + (if 1 in y then [1] else []) + (if 2 in y then [2] else [])
  }

  /** For labels, ClassesOf has exactly as many entries as there are distinct labels. */
  lemma ClassesOfCountsDistinct(y: seq<int>)
    requires IsLabels(y)
    ensures |ClassesOf(y)| < 3 <==> |Distinct(y)| < 3
  {
    FewerThanThreeIffMissing(y);
  }

  /**
   * `train_test_split` with test_size=0.2: the training part holds n - ceil(n / 5) distinct
   * rows in the shuffled order the split chose.
   */
  predicate IsSplit(split: seq<int>, n: nat)
  {
    && |split| == n - (n + 4) / 5
    && (forall k :: 0 <= k < |split| ==> 0 <= split[k] < n)
    && (forall j, k :: 0 <= j < k < |split| ==> split[j] != split[k])
  }

  /** The labels of the training rows, in split order. */
  function Select(y: seq<int>, split: seq<int>): (ys: seq<int>)
    requires forall k :: 0 <= k < |split| ==> 0 <= split[k] < |y|
    ensures |ys| == |split| && forall k :: 0 <= k < |split| ==> ys[k] == y[split[k]]
  {
    seq(|split|, k requires 0 <= k < |split| => y[split[k]])
  }

  /** The training labels after `_create_targets`, the pre-fit repairs and the split. */
  function TrainSetLabels(rows: seq<FeatureRow>, threshold: real, order: seq<int>, split: seq<int>): seq<int>
    requires rows != [] && IsSplit(split, |rows|)
  {
    TargetsShape(rows, threshold, order);
    Select(PreFitLabels(rows, Targets(rows, threshold, order)), split)
  }

  /** The classes of the final model: those of y, or, when one is missing, those after the post-fit repair. */
  function FittedClasses(y: seq<int>): seq<int>
    requires |y| > 0
  {
    if |ClassesOf(y)| < 3 then ClassesOf(PostFitRepair(y)) else ClassesOf(y)
  }

  /** Some row of the table has an infinite price change. */
  predicate HasInfinity(rows: seq<FeatureRow>)
  {
    exists i :: 0 <= i < |rows| && rows[i].priceChange == Infinite
  }

  /** Some training row, the ones the scaler is fitted on, has an infinite price change. */
  predicate TrainHasInfinity(rows: seq<FeatureRow>, split: seq<int>)
  {
    exists k :: 0 <= k < |split| && 0 <= split[k] < |rows| && rows[split[k]].priceChange == Infinite
  }

  /**
   * When the table holds an infinite change but no training row does, the infinite change is
   * in a test row: a row the split left out, which only `transform` of the test part sees.
   */
  lemma InfinityOnlyInTestRows(rows: seq<FeatureRow>, split: seq<int>)
    requires HasInfinity(rows) && !TrainHasInfinity(rows, split)
    ensures exists i :: 0 <= i < |rows| && i !in split && rows[i].priceChange == Infinite
  {
    var i :| 0 <= i < |rows| && rows[i].priceChange == Infinite;
    forall k | 0 <= k < |split|
      ensures split[k] != i
    {
    }
    assert i !in split;
  }

  /** An infinite training row is an infinite row of the table. */
  lemma TrainInfinityIsInfinity(rows: seq<FeatureRow>, split: seq<int>)
    requires TrainHasInfinity(rows, split)
    ensures HasInfinity(rows)
  {
    var k :| 0 <= k < |split| && 0 <= split[k] < |rows| && rows[split[k]].priceChange == Infinite;
    assert rows[split[k]].priceChange == Infinite;
  }

  /** The synthetic model knows all three classes. */
  lemma SyntheticClasses()
    ensures ClassesOf(SyntheticLabels()) == [0, 1, 2]
  {
    var y := SyntheticLabels();
    assert y[0] == 0 && y[20] == 1 && y[40] == 2;
  }

  /** Whatever the labels, a model fitted after the repair knows HOLD. */
  lemma FittedModelKnowsHold(y: seq<int>)
    requires |y| > 0 && IsLabels(y)
    ensures 2 in FittedClasses(y)
  {
    var cs := ClassesOf(y);
    if |cs| < 3 {
      PostFitRepairFrame(y);
    } else {
      assert cs == [0, 1, 2];
    }
  }

  /**
   * ... but it may still miss BUY, at every length a training set can have (at least 16
   * labels from 20 rows): training labels 2, 0, 2, ..., 2 end with the classes [1, 2],
   * since the missing 1 is written over the only 0.
   */
  lemma FittedModelMayMissBuy(m: nat)
    requires m >= 2
    ensures FittedClasses([2, 0] + Repeat(2, m - 2)) == [1, 2]
  {
    var y := [2, 0] + Repeat(2, m - 2);
    assert y[0] == 2 && y[1] == 0;
    assert 1 !in y by {
      forall i | 0 <= i < |y| ensures y[i] != 1 {
        if i >= 2 { assert y[i] == Repeat(2, m - 2)[i - 2]; }
      }
    }
    assert ClassesOf(y) == [0, 2];
    var r := PostFitRepair(y);
    assert r == y[1 := 1];
    assert 0 !in r by {
      forall i | 0 <= i < |r| ensures r[i] != 0 {
        if i >= 2 { assert r[i] == Repeat(2, m - 2)[i - 2]; }
      }
    }
    assert r[1] == 1 && r[0] == 2;
    assert ClassesOf(r) == [1, 2];
  }

  /** The pre-fit repairs and the split keep every label in {0, 1, 2}. */
  lemma TrainSetLabelsAreLabels(rows: seq<FeatureRow>, threshold: real, order: seq<int>, split: seq<int>)
    requires |rows| >= 20 && IsSplit(split, |rows|)
    ensures var y := TrainSetLabels(rows, threshold, order, split);
      |y| > 0 && IsLabels(y)
  {
    var t := Targets(rows, threshold, order);
    TargetsShape(rows, threshold, order);
    PreFitOnlyWritesHold(rows, t);
  }

  /**
   * The two pre-fit repairs of `train_model`, in place on an array of the labels: the last
   * five become 2 when a class is missing and no early row has a small change; then the
   * last three become 2 when a class is still missing.
   */
  method PreFitRepairs(rows: seq<FeatureRow>, targets: seq<int>) returns (y: seq<int>)
    requires |targets| == |rows|
    ensures y == PreFitLabels(rows, targets)
  {
    var a := new int[|targets|](i requires 0 <= i < |targets| => targets[i]);
    assert a[..] == targets;
    var classes := set j | 0 <= j < a.Length :: a[j];
    assert classes == Distinct(targets);
    if |classes| < 3 {
      var holdIndices := CollectEarlySmallRows(rows);
      if |holdIndices| == 0 {
        HoldFrom(a, Max(0, |rows| - 5));
      }
    }
    var y1 := a[..];
    classes := set j | 0 <= j < a.Length :: a[j];
    assert classes == Distinct(y1);
    if |classes| < 3 {
      HoldFrom(a, Max(0, a.Length - 3));
    }
    y := a[..];
  }

  /**
   * The classes of the model fitted on the training labels, refitted on the post-fit
   * repair of a copy of them when a class is missing.
   */
  method FitClasses(yTrain: seq<int>) returns (classes: seq<int>)
    requires |yTrain| > 0
    ensures classes == FittedClasses(yTrain)
  {
    classes := ClassesOf(yTrain);
    if |classes| < 3 {
      var balanced := new int[|yTrain|](k requires 0 <= k < |yTrain| => yTrain[k]);
      assert balanced[..] == yTrain;
      RepairFittedLabels(balanced);
      classes := ClassesOf(balanced[..]);
    }
  }

  /** The labels of the training rows: `_create_targets`, the pre-fit repairs, then the split. */
  method BuildTrainingLabels(rows: seq<FeatureRow>, threshold: real, order: seq<int>, split: seq<int>) returns (yTrain: seq<int>)
    requires rows != [] && IsArgsort(order, rows) && IsSplit(split, |rows|)
    ensures yTrain == TrainSetLabels(rows, threshold, order, split)
  {
    var targets := CreateTargets(rows, threshold, order);
    TargetsShape(rows, threshold, order);
    var y := PreFitRepairs(rows, targets);
    yTrain := Select(y, split);
  }

  class ModelLoader {
    const thresholdPercent: real
    var model: Option<Classifier>
    var scaler: Option<Scaler>

    /** A new loader has no model and no scaler. */
    constructor(threshold: Option<real>)
      ensures thresholdPercent == EffectiveThreshold(threshold)
      ensures model == None && scaler == None
    {
      thresholdPercent := EffectiveThreshold(threshold);
      model := None;
      scaler := None;
    }

    /**
     * `train_model`. With fewer than 20 rows the model is fitted on the synthetic labels.
     * Otherwise the labels are built and repaired, the scaler is replaced by a new one whose
     * fit raises on an infinite training feature and whose transform of the test part raises
     * on an infinite test feature, and the model is fitted on the training labels, then
     * fitted again on repaired labels if a class is missing.
     */
    method TrainModel(klines: seq<Candle>, order: seq<int>, split: seq<int>) returns (outcome: Outcome)
      requires |klines| >= 20 ==> IsArgsort(order, PrepareFeatures(klines)) && IsSplit(split, |klines|)
      modifies this
      ensures TrainedAs(PrepareFeatures(klines), order, split, outcome, old(model))
    {
      outcome := TrainOnRows(PrepareFeatures(klines), order, split);
    }

    /** The state and outcome training leaves, given the table it was built from. */
    ghost predicate TrainedAs(rows: seq<FeatureRow>, order: seq<int>, split: seq<int>, outcome: Outcome, oldModel: Option<Classifier>)
      requires |rows| >= 20 ==> IsSplit(split, |rows|)
      reads this
    {
      if |rows| < 20 then
        && outcome == Pass
        && model == Some(Classifier(ClassesOf(SyntheticLabels())))
        && scaler == Some(Fitted)
      else if TrainHasInfinity(rows, split) then
        && outcome == Fail(InfinityMessage)
        && model == oldModel
        && scaler == Some(Unfitted)
      else if HasInfinity(rows) then
        && outcome == Fail(InfinityMessage)
        && model == oldModel
        && scaler == Some(Fitted)
      else
        && outcome == Pass
        && model == Some(Classifier(FittedClasses(TrainSetLabels(rows, thresholdPercent, order, split))))
        && scaler == Some(Fitted)
    }

    method TrainOnRows(rows: seq<FeatureRow>, order: seq<int>, split: seq<int>) returns (outcome: Outcome)
      requires |rows| >= 20 ==> IsArgsort(order, rows) && IsSplit(split, |rows|)
      modifies this
      ensures TrainedAs(rows, order, split, outcome, old(model))
    {
      if |rows| < 20 {
        model := Some(Classifier(ClassesOf(SyntheticLabels())));
        scaler := Some(Fitted);
        return Pass;
      }
      outcome := TrainOnTable(rows, order, split);
    }

    /** Training on a table of at least 20 rows. */
    method TrainOnTable(rows: seq<FeatureRow>, order: seq<int>, split: seq<int>) returns (outcome: Outcome)
      requires |rows| >= 20 && IsArgsort(order, rows) && IsSplit(split, |rows|)
      modifies this
      ensures TrainedAs(rows, order, split, outcome, old(model))
    {
      var yTrain := BuildTrainingLabels(rows, thresholdPercent, order, split);
      TrainSetLabelsAreLabels(rows, thresholdPercent, order, split);
      outcome := FitScalerAndModel(rows, split, yTrain);
    }

    /**
     * A new scaler fitted on the training rows, the test rows transformed with it, and the
     * model fitted on the training labels: an infinite feature raises at the first step that
     * sees it.
     */
    method FitScalerAndModel(rows: seq<FeatureRow>, split: seq<int>, yTrain: seq<int>) returns (outcome: Outcome)
      requires |yTrain| > 0
      modifies this
      ensures TrainHasInfinity(rows, split) ==>
        outcome == Fail(InfinityMessage) && model == old(model) && scaler == Some(Unfitted)
      ensures !TrainHasInfinity(rows, split) && HasInfinity(rows) ==>
        outcome == Fail(InfinityMessage) && model == old(model) && scaler == Some(Fitted)
      ensures !HasInfinity(rows) ==>
        outcome == Pass && model == Some(Classifier(FittedClasses(yTrain))) && scaler == Some(Fitted)
    {
      scaler := Some(Unfitted);
      if TrainHasInfinity(rows, split) {
        return Fail(InfinityMessage);
      }
      scaler := Some(Fitted);
      if HasInfinity(rows) {
        return Fail(InfinityMessage);
      }
      var classes := FitClasses(yTrain);
      model := Some(Classifier(classes));
      outcome := Pass;
    }

    /** `save_model`: raises unless both a model and a scaler are set; writing the file is not modelled. */
    method SaveModel() returns (outcome: Outcome)
      ensures outcome.Fail? <==> model.None? || scaler.None?
      ensures outcome.Fail? ==> outcome.message == NotTrainedMessage
    {
      if model.None? || scaler.None? {
        return Fail(NotTrainedMessage);
      }
      return Pass;
    }
  }

  /** A freshly constructed loader cannot be saved. */
  method NewLoaderCannotBeSaved(threshold: Option<real>) returns (outcome: Outcome)
    ensures outcome == Fail(NotTrainedMessage)
  {
    var loader := new ModelLoader(threshold);
    outcome := loader.SaveModel();
  }
}
