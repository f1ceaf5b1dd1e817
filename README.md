# pm-final decision pipeline in Dafny

This project models the decision pipeline of a simulated crypto trading bot. One trading cycle runs three stages:

1. **Market stage.** It fetches a price and recent one-minute klines and computes indicators: SMA-10, SMA-50, a simplified RSI-14, the current price and the 1-minute percent change.
2. **Decision stage.** A random-forest classifier gets the indicators, and its predicted class becomes BUY, SELL or HOLD. A confidence comes with the action, plus a rule-based reason text.
3. **Execution stage.** The trade is simulated: it is skipped, rejected or filled with 0.01% slippage, and stored under a generated order id.

A cycle engine numbers the cycles and assembles the response, including one log line per stage. It degrades to a fixed error response when the market stage fails.

The training side is also modelled, because it decides which classes a model can know:

- a pandas feature table built from the klines (rolling means, RSI, percent change);
- threshold labelling of the rows;
- three label-repair passes: rebalancing, the pre-fit repairs and the post-fit repair.

Modules, in dependency order:

| module | file | models |
|---|---|---|
| `Common` | common.dfy | Option/Result, sums, decimal digits, `str(n)`, lower-casing |
| `MarketMonitor` | market_monitor.dfy | indicator engine, feature map, market stage |
| `TrainingFeatures` | training_features.dfy | training feature table |
| `TrainingLabels` | training_labels.dfy | labelling, rebalancing, label repairs, synthetic labels |
| `Training` | training.dfy | `ModelLoader` class: threshold, training, save check |
| `Inference` | inference.dfy | `predict_action` and the global loader registry |
| `Execution` | execution.dfy | decision table, order ids, `ExecutionAgent` with its stored trades |
| `Engine` | trading_engine.dfy | `TradingEngine` class with its cycle counter and `RunCycle` |

How the model is shaped:

- **Numbers.** Prices, percentages and probabilities are `real`.
- **Classifier.** A fitted classifier is known only by its class list, `classes_`, which is the sorted distinct labels it was fitted on.
- **Prediction.** One prediction comes from a function parameter `infer`. It takes the feature vector and returns either a predicted class with a probability vector, or the message of an exception.
- **External inputs.** These are parameters: the market client's answer, the UUIDs, the clock, the argsort tie order and the train/test split.
- **Mutable state.** Where the source mutates, the model does too:
  - `ModelLoader`, `Registry` (the module-global loader), `ExecutionAgent` and `TradingEngine` are classes with fields;
  - the in-place label loops are methods over arrays, proved against specification functions.

Behaviours of the code that the model proves:

- **Missing classes.** The label repairs do not guarantee that all three classes are present. Both pre-fit repairs only ever write label 2 (`PreFitOnlyWritesHold`). The post-fit repair can overwrite the only 0 (`PostFitRepairCanLoseClass`). A model fitted on the training labels 2, 0, 2, ..., 2, of any length a training set can have, ends with the classes `[1, 2]` (`FittedModelMayMissBuy`).
- **Dead first pre-fit repair.** The first pre-fit repair never fires on a table built from klines. Row 0's percent change is 0, so the early-rows scan always finds a small change (`FirstPreFitRepairIsDead`).
- **RSI with no losses.** With no loss in the window, training RSI is 0 and the indicator engine's RSI is 100. When some price in the window fell, the two agree (`TrainingRsiMatchesInference`).
- **Error-path market log.** On the error path, the market log keeps its pre-failure value, which is always "". The "Error: ..." fallback of `logs.get` never applies, because the key always exists (`FailedCycle`).

## Model

| member | source | states |
|---|---|---|
| MarketMonitor.Closes | app/agents/market_monitor.py:47 | one close per kline, in order, each the kline's close field |
| MarketMonitor.Sma | app/agents/market_monitor.py:15-19 | fewer prices than the window give the last price (0.0 when empty); otherwise the result times the window is the sum of exactly the last `window` prices |
| MarketMonitor.SmaWithinWindow | app/agents/market_monitor.py:19 | the SMA lies between any bounds of the last `window` prices |
| MarketMonitor.Deltas | app/agents/market_monitor.py:26 | one delta per consecutive pair, each the later price minus the earlier |
| MarketMonitor.Gains | app/agents/market_monitor.py:29 | every gain is positive; no gains iff no delta is positive |
| MarketMonitor.Losses | app/agents/market_monitor.py:30 | every loss is positive; no losses iff no delta is negative |
| MarketMonitor.RecentDeltas | app/agents/market_monitor.py:27 | exactly `period` deltas, the differences of the last period+1 prices |
| MarketMonitor.AverageOver | app/agents/market_monitor.py:32-33 | 0.0 for an empty list, positive otherwise (the sum is divided by `period`, not by the count) |
| MarketMonitor.RsiFromAverages | app/agents/market_monitor.py:35-40 | with a positive average loss the RSI lies in [0, 100) |
| MarketMonitor.Rsi | app/agents/market_monitor.py:21-24 | fewer than period+1 prices give the neutral 50.0 |
| MarketMonitor.NoRecentFallIffNoLosses | app/agents/market_monitor.py:29-30 | no fall among the last period+1 prices iff the loss list is empty |
| MarketMonitor.NoFallHasNoLoss | app/agents/market_monitor.py:30 | no recent fall gives an empty loss list |
| MarketMonitor.FallHasLoss | app/agents/market_monitor.py:30 | a recent fall gives a non-empty loss list |
| MarketMonitor.FallingStep | app/agents/market_monitor.py:26-27 | a recent fall is a step inside the last `period` deltas |
| MarketMonitor.DeltaOfStep | app/agents/market_monitor.py:26-27 | each recent delta is the difference of its two prices |
| MarketMonitor.NegativeDeltaIsLoss | app/agents/market_monitor.py:30 | a negative delta puts an entry in the loss list |
| MarketMonitor.RsiHundredIffNoLoss | app/agents/market_monitor.py:35-36 | the RSI is 100 exactly when none of the last `period` deltas is negative, a flat series included |
| MarketMonitor.RsiClassicForm | app/agents/market_monitor.py:26-40 | when some price fell, the RSI is 100·G/(G+L) of the summed gains G and summed losses L of the last `period` deltas |
| MarketMonitor.ClassicFormOfDeltas | app/agents/market_monitor.py:32-40 | the same closed form on any delta list with a loss |
| MarketMonitor.ClassicRsi | app/agents/market_monitor.py:38-40 | the closed form lies in [0, 100) and is 0 exactly when there is no gain |
| MarketMonitor.RatioForm | app/agents/market_monitor.py:38-39 | 100 − 100/(1 + (G/p)/(L/p)) equals the closed form |
| MarketMonitor.RsiRange | app/agents/market_monitor.py:21-40 | the RSI always lies in [0, 100] |
| MarketMonitor.RsiUsesOnlyRecentPrices | app/agents/market_monitor.py:26-27 | the RSI depends only on the last period+1 prices |
| MarketMonitor.PriceChange1m | app/agents/market_monitor.py:54 | fewer than two closes give 0.0; a zero second-to-last close raises (division by zero) and nothing else does |
| MarketMonitor.PriceChangeSign | app/agents/market_monitor.py:54 | with a positive previous close the change is positive iff the last close rose |
| MarketMonitor.ExtractFeatures | app/agents/market_monitor.py:42-57 | no klines give an empty map; otherwise exactly the five keys, with current_price the last close and each value the indicator of the closes; it raises iff the percent change does |
| MarketMonitor.ExtractedFeaturesShape | app/agents/market_monitor.py:49-55 | the map never has a volume key and its RSI lies in [0, 100] |
| MarketMonitor.MarketProcess | app/agents/market_monitor.py:69-92 | a failed fetch or extraction is raised again with its message; otherwise the stage succeeds |
| MarketMonitor.MarketProcessReports | app/agents/market_monitor.py:80-85 | the stage reports the requested symbol, the fetched price (not the last close), the extracted features and at most the first ten klines |
| MarketMonitor.MarketProcessWithoutKlines | app/agents/market_monitor.py:44-45 | without klines the stage succeeds with empty features |
| TrainingFeatures.WindowStart | app/ml/model_loader.py:36-37 | the window of row i starts at max(0, i−w+1) and is full once i ≥ w−1 |
| TrainingFeatures.RollingMean | app/ml/model_loader.py:36-37 | with min_periods=1 the rolling mean times the window length is the sum of the closes in rows max(0, i−w+1)..i |
| TrainingFeatures.RollingMeanWithin | app/ml/model_loader.py:36-37 | a rolling mean lies between any bounds of its window |
| TrainingFeatures.RollingMeanIsSma | app/ml/model_loader.py:36-37 | once the window is full, the rolling mean is the indicator engine's SMA of the prefix |
| TrainingFeatures.RollingMeanOfShortPrefix | app/ml/model_loader.py:36-37 | before the window fills, it averages every close so far |
| TrainingFeatures.PositiveParts | app/ml/model_loader.py:40 | `delta.where(delta > 0, 0)`: non-negative, positive exactly where the delta is |
| TrainingFeatures.NegativeParts | app/ml/model_loader.py:41 | `-delta.where(delta < 0, 0)`: non-negative, positive exactly where the delta is negative |
| TrainingFeatures.SumPositivePartsIsSumGains | app/ml/model_loader.py:40 | summing the rise column equals summing the indicator engine's filtered gains |
| TrainingFeatures.SumNegativePartsIsSumLosses | app/ml/model_loader.py:41 | summing the fall column equals summing the filtered losses |
| TrainingFeatures.GainColumn | app/ml/model_loader.py:39-40 | one non-negative entry per close, 0 in row 0 (the NaN diff) |
| TrainingFeatures.LossColumn | app/ml/model_loader.py:39-41 | one non-negative entry per close, 0 in row 0 |
| TrainingFeatures.TrainingRsi | app/ml/model_loader.py:42-43 | zero average loss (replaced by infinity) gives RSI 0, not 100; otherwise the indicator engine's formula; always in [0, 100) |
| TrainingFeatures.PctChange | app/ml/model_loader.py:45-48 | row 0 gives 0 (NaN filled); 0→0 gives 0 (NaN filled); a zero previous close with a non-zero close gives infinity; otherwise the change times the previous close is 100·(close − previous) |
| TrainingFeatures.RowAt | app/ml/model_loader.py:36-48 | each row's RSI lies in [0, 100), its change is `pct_change` at that row, and its volume is the kline's |
| TrainingFeatures.RollingMeanNonNegative | app/ml/model_loader.py:40-41 | rolling means of the gain and loss columns are non-negative |
| TrainingFeatures.PrepareFeatures | app/ml/model_loader.py:22-50 | no klines give an empty table; otherwise one row per kline, and the first row has both SMAs equal to the first close, change 0 and RSI 0 |
| TrainingFeatures.RowOfTable | app/ml/model_loader.py:36-48 | row i of the table is the row built from rows ..i of the closes |
| TrainingFeatures.FirstRowDefaults | app/ml/model_loader.py:36-48 | the first row's SMAs are its close, and its change and RSI are 0 |
| TrainingFeatures.FirstRowRsi | app/ml/model_loader.py:40-41 | both rolling averages are 0 in row 0 |
| TrainingFeatures.RollingMeanAtFirstRow | app/ml/model_loader.py:36-37 | the rolling mean of row 0 is its own value |
| TrainingFeatures.TrainingSmaMatchesInference | app/ml/model_loader.py:36-37 | with a full window, both SMA columns equal the indicator engine's SMA |
| TrainingFeatures.LastWindowIsRecentDeltas | app/ml/model_loader.py:39-41 | the last 14 rows of the gain and loss columns are the parts of the indicator engine's last 14 deltas |
| TrainingFeatures.ColumnsAtRow | app/ml/model_loader.py:39-41 | after row 0, each row holds the rise and the fall from the previous close |
| TrainingFeatures.LastRowAverages | app/ml/model_loader.py:40-41 | the last row's averages are the summed gains and losses of the last 14 deltas divided by 14 |
| TrainingFeatures.TrainingRsiMatchesInference | app/ml/model_loader.py:42-43 | on the last row: with no recent fall, training RSI is 0 while the indicator engine gives 100; otherwise they are equal |
| TrainingFeatures.PriceChangeMatchesInference | app/ml/model_loader.py:45 | the last row's change is the indicator engine's 1-minute change whenever that succeeds |
| TrainingFeatures.LastPctChange | app/ml/model_loader.py:45 | `pct_change` at the last row equals the indicator engine's 1-minute change when that succeeds |
| TrainingLabels.FewerThanThreeIffMissing | app/ml/model_loader.py:80 | for labels, fewer than three distinct values iff some class is missing |
| TrainingLabels.InitialLabel | app/ml/model_loader.py:58-72 | every label is 0, 1 or 2 |
| TrainingLabels.LabelMeaning | app/ml/model_loader.py:61-72 | for a positive base: 0 iff the change exceeds T, 1 iff it is below −T, 2 otherwise |
| TrainingLabels.LabelAtExactThreshold | app/ml/model_loader.py:67-72 | a change of exactly ±T (T ≥ 0) gives 2 |
| TrainingLabels.PairLabels | app/ml/model_loader.py:57-72 | one label per row but the last, from its own and the next row's sma_10 |
| TrainingLabels.InitialLabels | app/ml/model_loader.py:57-74 | all labels in {0, 1, 2}, one per row (at least one), the last 2 |
| TrainingLabels.HoldQuota | app/ml/model_loader.py:83 | max(1, n // 5): at least 1, at most a fifth of n when n ≥ 5 |
| TrainingLabels.Chosen | app/ml/model_loader.py:83 | a prefix of the argsort no longer than the quota |
| TrainingLabels.HoldAt | app/ml/model_loader.py:84-86 | exactly the listed in-range indices become 2, every other label is kept |
| TrainingLabels.CreateTargets | app/ml/model_loader.py:52-88 | the loop's labels equal the specification of `_create_targets` |
| TrainingLabels.Targets | app/ml/model_loader.py:52-88 | the specification of `_create_targets`: the threshold labels, with the chosen smallest-change rows set to 2 when a class is missing |
| TrainingLabels.HoldAtStep | app/ml/model_loader.py:84-86 | one more loop step overwrites one more index |
| TrainingLabels.TargetsShape | app/ml/model_loader.py:57-88 | one label per row in {0, 1, 2}, the last one 2 |
| TrainingLabels.RebalanceOnlyWritesHold | app/ml/model_loader.py:80-86 | rebalancing runs only when a class is missing, and only turns labels into 2, at rows among the first max(1, n // 5) of the argsort |
| TrainingLabels.RebalancePicksSmallestChanges | app/ml/model_loader.py:82-83 | every overwritten row has a \|price_change\| no larger than any row left alone |
| TrainingLabels.HoldSuffix | app/ml/model_loader.py:127-140 | the labels from `from` on become 2, the others are kept |
| TrainingLabels.EarlySmallRows | app/ml/model_loader.py:122-125 | exactly the rows among the first min(10, n) with \|price_change\| < 0.1 |
| TrainingLabels.SmallRowsBelow | app/ml/model_loader.py:123-125 | exactly the rows below m with a small change |
| TrainingLabels.CollectEarlySmallRows | app/ml/model_loader.py:122-125 | the loop collects the early small-change rows |
| TrainingLabels.PreFitOnlyWritesHold | app/ml/model_loader.py:120-140 | the pre-fit repairs keep the length and write only 2, so they never add a missing 0 or 1 |
| TrainingLabels.PreFitLabels | app/ml/model_loader.py:117-140 | the two pre-fit repairs: the last five labels become 2 when a class is missing and no early row has a small change, then the last three when a class is still missing |
| TrainingLabels.FirstPreFitRepairIsDead | app/ml/model_loader.py:120-130 | for a table built from klines, row 0's change is 0, so the first repair never overwrites anything |
| TrainingLabels.HoldFrom | app/ml/model_loader.py:127-140 | the in-place loop leaves the array as the suffix overwritten with 2 |
| TrainingLabels.PostFitRepair | app/ml/model_loader.py:168-174 | the repair keeps the number of labels |
| TrainingLabels.RepairFittedLabels | app/ml/model_loader.py:168-174 | the in-place writes on the copy equal the specification of the repair |
| TrainingLabels.PostFitRepairFrame | app/ml/model_loader.py:168-174 | labels stay in {0, 1, 2}, only index 0, index min(1, n−1) and the last index may change, and 2 is always present afterwards |
| TrainingLabels.PostFitRepairCanLoseClass | app/ml/model_loader.py:168-174 | [2, 0, 2] becomes [2, 1, 2], which lost its 0 |
| TrainingLabels.PostFitRepairOfOnlyHold | app/ml/model_loader.py:168-174 | all-2 labels of length ≥ 3 gain all three classes |
| TrainingLabels.Repeat | app/ml/model_loader.py:109 | `[v] * k` has length k and every entry v |
| TrainingLabels.SyntheticLabelsBalanced | app/ml/model_loader.py:104-113 | the synthetic labels are 60 labels, exactly 20 of each class |
| TrainingLabels.SyntheticLabels | app/ml/model_loader.py:104-113 | `[0] * 20 + [1] * 20 + [2] * 20` |
| Training.EffectiveThreshold | app/ml/model_loader.py:17-18 | a missing or zero threshold falls back to the configured 0.5; any other is kept |
| Training.ClassesOf | app/ml/model_loader.py:163 | `classes_`: exactly the labels 0..2 present, strictly increasing |
| Training.ClassesOfCountsDistinct | app/ml/model_loader.py:117-137 | fewer than 3 entries in the class list iff fewer than 3 distinct labels |
| Training.Select | app/ml/model_loader.py:142-145 | the training labels are the labels at the split's rows, in split order |
| Training.TrainSetLabels | app/ml/model_loader.py:115-145 | the training labels: `_create_targets`, both pre-fit repairs, then the labels of the split's rows |
| Training.FittedClasses | app/ml/model_loader.py:157-177 | the `classes_` of the final model: the classes of the training labels, or those of the post-fit repair of a copy when one is missing |
| Training.HasInfinity | app/ml/model_loader.py:149-152 | some row of the feature table has an infinite price change |
| Training.TrainHasInfinity | app/ml/model_loader.py:150-151 | some training row, which `fit_transform` sees, has an infinite price change |
| Training.InfinityOnlyInTestRows | app/ml/model_loader.py:142-152 | an infinite row that is not a training row lies outside the split, so only `transform` of the test part sees it |
| Training.TrainInfinityIsInfinity | app/ml/model_loader.py:142-151 | an infinite training row is an infinite row of the table |
| Training.SyntheticClasses | app/ml/model_loader.py:104-113 | the synthetic model knows the classes [0, 1, 2] |
| Training.FittedModelKnowsHold | app/ml/model_loader.py:161-177 | whatever the labels, the final model knows class 2 |
| Training.FittedModelMayMissBuy | app/ml/model_loader.py:161-177 | for every training-set length m ≥ 2 (a real training set has at least 16 labels), labels 2, 0, 2, ..., 2 end in a model with classes [1, 2]: three classes are not guaranteed |
| Training.TrainSetLabelsAreLabels | app/ml/model_loader.py:115-145 | the training labels are non-empty and all in {0, 1, 2} |
| Training.PreFitRepairs | app/ml/model_loader.py:117-140 | the in-place repairs on the label array equal their specification |
| Training.BuildTrainingLabels | app/ml/model_loader.py:115-145 | the training labels are those of `_create_targets` after the pre-fit repairs, taken at the split's rows |
| Training.FitClasses | app/ml/model_loader.py:161-177 | the final class list is that of the labels, or of the repaired copy when a class is missing |
| Training.ModelLoader.constructor | app/ml/model_loader.py:17-20 | no model and no scaler; the threshold falls back when falsy |
| Training.ModelLoader.TrainModel | app/ml/model_loader.py:90-184 | fewer than 20 rows: the synthetic model and a fitted scaler; an infinite change in a training row: the scaler's error, model unchanged, scaler unfitted; an infinite change only in test rows: the same error and unchanged model, but the scaler is fitted; otherwise a fitted scaler and a model with the classes of the repaired training labels |
| Training.ModelLoader.TrainOnRows | app/ml/model_loader.py:104-177 | the same, given the feature table |
| Training.ModelLoader.TrainOnTable | app/ml/model_loader.py:115-177 | with at least 20 rows: the training labels are built, then the scaler and model are fitted on them with the post-states of `TrainedAs` |
| Training.ModelLoader.FitScalerAndModel | app/ml/model_loader.py:150-177 | an infinite training row: the error with the new scaler unfitted and the model unchanged; an infinite row only among the test rows: the error after the scaler was fitted, model unchanged; no infinite row: the scaler fitted and the model with the classes fitted on the training labels |
| Training.ModelLoader.TrainedAs | app/ml/model_loader.py:104-177 | the outcome, model and scaler `train_model` leaves: synthetic model for < 20 rows, the three error/success cases above otherwise |
| Training.ModelLoader.SaveModel | app/ml/model_loader.py:204-207 | raises "Модель не обучена" exactly when the model or the scaler is missing |
| Training.NewLoaderCannotBeSaved | app/ml/model_loader.py:204-207 | a fresh loader cannot be saved |
| Inference.Get | app/ml/model_inference.py:47-53 | `dict.get`: the stored value, else the default |
| Inference.FeatureVector | app/ml/model_inference.py:42-56 | five values in the order sma_10, sma_50, rsi_14, price_change_1m, volume |
| Inference.EmptyFeatureVector | app/ml/model_inference.py:42-54 | with no features the defaults are 0, 0, 50, 0, 1000000 |
| Inference.ExtractedFeatureVector | app/ml/model_inference.py:42-54 | extracted features fill the first four slots, and volume is always the default |
| Inference.ActionOf | app/ml/model_inference.py:65 | only classes 0, 1 and 2 are mapped |
| Inference.ClassIndex | app/ml/model_inference.py:69-100 | the first position of the class in the class list, none iff absent |
| Inference.PredictedProbability | app/ml/model_inference.py:69-100 | the probability at the class's position (an index error past the end), 0.5 when the class is not listed |
| Inference.TwoClassRule | app/ml/model_inference.py:67-84 | two classes: p < 0.6 gives HOLD at 1 − p; otherwise the mapped action at p, or HOLD at 0.5 when unmapped |
| Inference.FixedTableRule | app/ml/model_inference.py:85-100 | other class counts: the table's action, HOLD when unmapped, at the class's probability |
| Inference.ChooseAction | app/ml/model_inference.py:65-100 | action and confidence from the class list, the prediction and the probabilities: the two-class gate, otherwise the action table, with the probability lookup's IndexError passed on |
| Inference.ReasonParts | app/ml/model_inference.py:102-118 | two or three clauses |
| Inference.ReasonForm | app/ml/model_inference.py:102-120 | an SMA clause ("above" iff sma_10 > sma_50), an RSI clause only when rsi_14 > 70 or < 30, and a trend clause ("positive" iff price_change_1m > 0); never "No clear signal" |
| Inference.SmaClause | app/ml/model_inference.py:103-106 | "Price above SMA_50" iff sma_10 > sma_50, both defaulting to 0 |
| Inference.RsiClause | app/ml/model_inference.py:108-112 | "RSI overbought" above 70, "RSI oversold" below 30, nothing otherwise, rsi_14 defaulting to 50 |
| Inference.TrendClause | app/ml/model_inference.py:114-118 | "positive trend" iff price_change_1m > 0, defaulting to 0 |
| Inference.Reason | app/ml/model_inference.py:102-120 | the clauses joined by ", ", or "No clear signal" when there are none |
| Inference.Predict | app/ml/model_inference.py:31-137 | no loader or no model: HOLD, 0.5, "Model not initialized"; otherwise the rules' decision, and any exception becomes HOLD, 0.5, "Prediction error: " + message |
| Inference.Attempt | app/ml/model_inference.py:58-125 | a missing scaler or an unfitted one raises its message; otherwise the classifier's answer, or its exception, followed by the action rules and the reason |
| Inference.UnfittedScalerHolds | app/ml/model_inference.py:58-137 | a missing or unfitted scaler always ends in the fallback with the scaler's message |
| Inference.ConfidenceInUnitInterval | app/ml/model_inference.py:33-137 | with probabilities in [0, 1], the confidence is in [0, 1] on every path |
| Inference.PredictionReason | app/ml/model_inference.py:102-125 | a successful prediction carries the rule-based reason whatever the model said |
| Inference.Registry.constructor | app/ml/model_inference.py:8 | no loader is registered at first |
| Inference.Registry.InitializeModel | app/ml/model_inference.py:11-13 | the global loader becomes the given one |
| Inference.Registry.PredictAction | app/ml/model_inference.py:16-137 | the prediction on the registered loader's current model and scaler |
| Execution.Settle | app/agents/execution_agent.py:54-66 | HOLD is SKIPPED at the price whatever the confidence; otherwise confidence < 0.6 is REJECTED at the price; otherwise FILLED at price ± 0.01% (+ only for BUY); executed iff FILLED |
| Execution.SlippageDirection | app/agents/execution_agent.py:63-66 | at a positive price a filled BUY pays more and a filled SELL receives less |
| Execution.HoldIgnoresConfidence | app/agents/execution_agent.py:54-57 | a HOLD is settled the same at every confidence |
| Execution.Digits | app/agents/execution_agent.py:19 | w decimal digits |
| Execution.DigitsRoundTrip | app/agents/execution_agent.py:19 | below 10^w the padded digits read back as the number |
| Execution.DateStamp | app/agents/execution_agent.py:19 | `%Y%m%d` is eight digits |
| Execution.HexDigitRoundTrip | app/agents/execution_agent.py:20 | each hex digit is a digit of the requested case and reads back as its value |
| Execution.HexPrefix | app/agents/execution_agent.py:20 | the first eight UUID hex digits, in the requested case |
| Execution.OrderId | app/agents/execution_agent.py:17-21 | "ORD-" + 8 decimal digits + "-" + 8 upper-case hex digits, 21 characters |
| Execution.OrderIdInjective | app/agents/execution_agent.py:17-21 | the order id determines the date and the first eight UUID digits |
| Execution.ErrorOrderId | app/agents/execution_agent.py:103 | "ERROR-" + 8 lower-case hex digits |
| Execution.OrderIdsDistinguishable | app/agents/execution_agent.py:21-103 | an order id never equals an error order id |
| Execution.Process | app/agents/execution_agent.py:45-106 | executed iff FILLED; a stored trade carries the result's order id, status, execution price and time, and the action, price and symbol read with their defaults; a failed commit stores nothing and returns ERROR, not executed, at the market price (default 0.0), with a lower-case error id |
| Execution.ActionOrHold | app/agents/execution_agent.py:46 | the decision's action, HOLD when the key is missing |
| Execution.PriceOrZero | app/agents/execution_agent.py:47 | the market price, 0.0 when the key is missing |
| Execution.SymbolOrDefault | app/agents/execution_agent.py:48 | the market symbol, "BTCUSDT" when the key is missing |
| Execution.ConfidenceOrZero | app/agents/execution_agent.py:49 | the decision's confidence, 0.0 when the key is missing |
| Execution.StoredExecutionFollowsTable | app/agents/execution_agent.py:51-88 | a committed execution follows the decision table and has an ORD id, never ERROR |
| Execution.EmptyInputsSkip | app/agents/execution_agent.py:46-49 | missing keys read as HOLD, price 0.0, symbol BTCUSDT, confidence 0.0, so the trade is skipped at 0.0 |
| Execution.ExecutionAgent.constructor | app/agents/execution_agent.py:14-15 | the session starts with no stored trades |
| Execution.ExecutionAgent.Execute | app/agents/execution_agent.py:45-106 | the result is that of `process`, and exactly the committed trade is appended to the stored trades (a rollback leaves them as they were) |
| Execution.TwoExecutions | app/agents/execution_agent.py:68-80 | two executions store one trade per successful commit, in order, with their order ids |
| Engine.DecisionLog | app/services/trading_engine.py:51-54 | "Model predicted " ... " confidence" |
| Common.Fixed2 | app/services/trading_engine.py:53 | the `:.2f` format: a minus sign exactly for a negative value, then digits, a point and two digits |
| Engine.ExecutionLogTable | app/services/trading_engine.py:58-63 | FILLED gives "Trade executed successfully", SKIPPED "Trade skipped (HOLD action)", REJECTED "Trade rejected", ERROR "Trade error" |
| Engine.ExecutionLog | app/services/trading_engine.py:58-63 | the execution log line: executed, skipped, or "Trade " + the lower-cased status |
| Engine.RunStages | app/services/trading_engine.py:44-57 | the market stage, then the prediction on its features, then the execution of that decision at the market price; a failed market stage stops the chain with its message |
| Engine.ErrorResult | app/services/trading_engine.py:92-119 | the error response: HOLD at 0 with "Error: " + message, price 0 from "error", an unexecuted ERROR with order id "ERROR-<cycle id>", empty decision and execution logs |
| Engine.Cycle | app/services/trading_engine.py:24-120 | the response of a cycle: the error response when the stages fail, otherwise the market view, decision, execution and the three log lines |
| Engine.SuccessfulCycle | app/services/trading_engine.py:44-87 | a successful cycle reports the symbol, the fetched price, the features and "binance", the prediction on those features, exactly the execution agent's result, and the three stage logs |
| Engine.FailedCycle | app/services/trading_engine.py:92-119 | a failed market stage gives HOLD at 0.0 with "Error: " + message, price 0.0 from "error" with no indicators, an ERROR execution with id "ERROR-<cycle id>" at the cycle's start time, empty logs and no stored trade |
| Engine.ErrorStatusCauses | app/services/trading_engine.py:57-101 | the source is "error" iff the market stage failed; status ERROR iff that or a failed commit; executed only when both succeeded |
| Engine.ErrorOrderIdsDistinct | app/services/trading_engine.py:111 | error order ids of different cycles differ |
| Engine.CycleConfidenceInUnitInterval | app/services/trading_engine.py:74-106 | with probabilities in [0, 1], every reported confidence lies in [0, 1], as the response schema requires |
| Engine.TradingEngine.constructor | app/services/trading_engine.py:13-22 | the counter starts at 0 |
| Engine.TradingEngine.RunCycle | app/services/trading_engine.py:24-120 | the counter grows by exactly 1 and numbers this cycle; the response is that of the stages on the registered model; exactly the committed trade is stored |
| Engine.FirstTwoCycles | app/services/trading_engine.py:22-36 | a new engine numbers its first two cycles 1 and 2, each stamped with its own start time |

## Left out

- Floating point: prices, percentages and probabilities are exact reals. IEEE rounding, NaN arithmetic and float formatting are not modelled. `Common.Fixed2` (the `:.2f` format) is stated only by its shape: a sign, digits, a point and two digits.
- The HTTP market-data client (app/services/market_data_client.py) is not part of this model. Its answer is a parameter of the cycle, either a feed or an error message.
- Kline parsing and `pd.to_numeric(..., errors='coerce')`: klines are already-numeric `Candle` values.
- The sklearn classifier and scaler are abstracted:
  - fitting is reduced to the class list, and prediction to the `infer` parameter;
  - `score`, the test labels and `np.random.randn` features are not modelled; the test rows enter only through the infinity check of `transform`;
  - `train_test_split` is a parameter, constrained only in its size and distinctness;
  - the `argsort` tie order is a parameter constrained to sort by |price_change|.
- `ModelLoader.load_model` and the pickle I/O of `save_model`: only the None-check of `save_model` is modelled.
- The database session is reduced to the list of stored trades. Add, commit and rollback are modelled; refresh and the `Trade` entity's own columns are not. The only failure modelled inside `ExecutionAgent.process` is a failed commit.
- The UUIDs, the UTC date and the clock are parameters. Years are limited to 1000-9999, so `%Y` has four digits.
- `DecisionMakingAgent.process` (app/agents/decision_maker.py) is folded into the engine:
  - it reads the features, which the market stage always provides;
  - its catch-all never fires, because `predict_action` catches everything itself.
- The engine's error path is modelled for a failure of the market stage. The decision and execution stages never raise in this model.
- Engine.TradingEngine.RunCycle: the response is stated for the loader state the registry holds. The engine's own construction of the market, decision and execution agents is not modelled.
- async/await, logging, FastAPI startup and routes (app/main.py, app/api/routes_trading.py), and app/config.py beyond the threshold default are not modelled.
- TrainingLabels.LabelMeaning: stated for a positive base value. A zero base is labelled 2, and a negative base (negative prices) is not characterised.
- TrainingLabels.LabelAtExactThreshold: stated for a non-negative threshold. With a negative threshold, a change of exactly ±T is labelled 0 or 1.
