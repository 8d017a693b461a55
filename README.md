# Growfolio core, modelled in Dafny

Growfolio has two halves. One is a portfolio allocator that turns a 1-10
risk score and a jurisdiction into target sleeves. The other is an ML
trading-signal pipeline. The pipeline cleans OHLCV bars, derives
indicator features, labels every bar from its next-bar return, cuts
sliding windows and scales them, trains a network with early stopping, and
predicts live signals with a risk-tolerance override. Smaller driver
scripts pick which (ticker, timeframe) models still need training.

This project models those rules and proves what they promise:

- counts and bounds;
- case splits and error paths;
- ordering and sums;
- the fit-on-train discipline;
- the early-stopping state machine;
- the filename parsing of the training drivers.

Floats are exact `real`s. NaN and the two infinities are the tagged values
of `Numeric.Num`, with IEEE rules on the special values. Foreign code is a
function-typed parameter:

- the `ta` indicator library;
- the torch networks, loss, optimizer, scheduler and softmax;
- sklearn's `train_test_split` and `StandardScaler.fit`.

| module (file) | models |
|---|---|
| `Numeric` (numeric.dfy) | float values with NaN and ±∞, IEEE comparisons, `nan_to_num` |
| `Frames` (frames.dfy) | a DataFrame as ordered named columns with a shared row count |
| `Strings`, `Seqs`, `Sorting` | `str.upper/lower/split/replace/endswith`, boolean-mask filtering, Python's stable `sorted` |
| `MlConfig`, `BackendConfig` | the constant tables of ml_model/config.py and backend/config.py |
| `RiskPolicy` | backend/risk_policy.py |
| `Allocator` | backend/allocator.py |
| `Indicators` | ml_model/src/indicators.py |
| `Preprocess` | ml_model/src/preprocess_data.py |
| `Models` | ml_model/src/models.py |
| `TrainModel` | ml_model/src/train_model.py |
| `PredictLive` | ml_model/src/predict_live.py |
| `TrainTop20Smart`, `TrainLaptop1`, `TrainStockModel` | the three training scripts |

The code's behaviour is followed where the project's own description says
otherwise:

- **Label row.** The label of a window is the label of the row *after* the
  window, not of its last row.
- **Risk threshold.** The confidence threshold *rises* with risk tolerance.
  A more tolerant user needs a more confident model before a trade stands.
- **Live path.** The live path never calls `prepare_ml_features`, so the
  indicators' NaN warm-up values reach the scaler as they are.
- **Out-of-range scores.** Scores of 0 and below also get the last
  (Aggressive) band, not only scores above 10.

## Model

| member | source | states |
|---|---|---|
| RiskPolicy.Table | backend/risk_policy.py:14-27 | six bands with ranges [1,3) [3,4) [4,6) [6,7) [7,9) [9,11), the equity and bond targets of the table, every band's four targets summing to 1 and positive cash and alts |
| RiskPolicy.FirstContaining | backend/risk_policy.py:31-33 | the first band whose range holds the score: no earlier band holds it, and an index past the end means none does |
| RiskPolicy.BandForScore | backend/risk_policy.py:29-34 | the result is always one of the table's bands |
| RiskPolicy.BandsPartition | backend/risk_policy.py:14-27 | the ranges are pairwise disjoint and in order, and a score is covered iff it is in 1..10 |
| RiskPolicy.BandForScoreCases | backend/risk_policy.py:29-34 | a score in 1..10 gets the band containing it; any other score, 0 and negatives included, gets the last band |
| RiskPolicy.TargetsSumToOne | backend/risk_policy.py:8-27 | every score's band has targets summing to exactly 1 |
| RiskPolicy.TargetsOrdered | backend/risk_policy.py:15-26 | in table order the equity target strictly rises and the bond target strictly falls |
| RiskPolicy.EquityMonotone | backend/risk_policy.py:29-34 | over 1..10 a higher score never lowers the equity target nor raises the bond target |
| BackendConfig.EquityWhole | backend/config.py:7-10 | both equity splits are non-empty with positive fractions summing to 1 |
| BackendConfig.BondsWhole | backend/config.py:12-15 | both bond splits are non-empty with positive fractions summing to 1 |
| BackendConfig.SplitsAreWhole | backend/config.py:6-15 | both tables know exactly US and CA, every split sums to 1 with positive fractions, and the first equity fraction is at least 0.2 |
| Allocator.RoundHalfEven | backend/allocator.py:8 | Python's round(): within 1/2 of the input, and an exact tie goes to the even integer |
| Allocator.RoundIsNearest | backend/allocator.py:8 | no integer is strictly closer to the input than the rounded one |
| Allocator.RoundToStepNearest | backend/allocator.py:5-8 | round_to_step gives a whole number of steps within half a step of x |
| Allocator.RoundToStepNonNegative | backend/allocator.py:5-8 | a non-negative weight never rounds to a negative one |
| Allocator.BuildBandTargets | backend/allocator.py:10-22 | equity, bonds and alts are the band's; cash is the band's unless the total is more than 1e-9 from 1, then it absorbs the difference, floored at 0 |
| Allocator.BandTargetsExact | backend/allocator.py:12-22 | since every band sums to 1 the correction never fires: the targets are the band's own, all positive, summing to 1 |
| Allocator.TargetsPositive | backend/allocator.py:10-22 | every score's targets are positive, sum to 1, and give equity at least 0.2 |
| Allocator.SplitSleeves | backend/allocator.py:40-44 | one sleeve per split entry, in dictionary order, weighted target times fraction |
| Allocator.AppendSplit | backend/allocator.py:40-44 | the appending loop adds exactly those sleeves after the ones already built |
| Allocator.BuiltFromWhole | backend/allocator.py:39-50 | the built sleeves are equity sub-sleeves, bond sub-sleeves, REIT, then cash, with positive weights summing to 1 |
| Allocator.Rounded | backend/allocator.py:53 | rounding keeps every (class, sub-class) pair in place |
| Allocator.Normalised | backend/allocator.py:54-55 | renormalising keeps every (class, sub-class) pair in place |
| Allocator.RoundedSleeves | backend/allocator.py:53-54 | the rounded weights of the built sleeves are non-negative with a positive total |
| Allocator.FirstMaxWhere | backend/allocator.py:58-59 | the first position of a largest weight among the sleeves meeting the condition, or None exactly when none meets it |
| Allocator.ResidualIndex | backend/allocator.py:58-59 | the first heaviest non-cash sleeve, or the first heaviest sleeve when all are cash |
| Allocator.WithResidual | backend/allocator.py:56-60 | the residual step keeps every (class, sub-class) pair in place |
| Allocator.ResidualPlacement | backend/allocator.py:56-60 | whatever the weights, the residual makes them sum to 1 by changing only the ResidualIndex sleeve |
| Allocator.PlaceResidual | backend/allocator.py:56-60 | the in-place update computes WithResidual |
| Allocator.ResidualVanishes | backend/allocator.py:54-60 | with a positive rounded total the normalised weights already sum to 1, so the residual step changes nothing |
| Allocator.RoundedPipeline | backend/allocator.py:53-60 | on built sleeves the weights reaching the sort are the rounded ones divided by their total, non-negative, summing to 1 |
| Allocator.SortedPipeline | backend/allocator.py:53-61 | the sort keeps RoundedPipeline's facts and orders the sleeves largest first, stably |
| Allocator.AllocationDefined | backend/allocator.py:35-44 | target_sleeves succeeds iff the upper-cased jurisdiction is US or CA |
| Allocator.AllocationWeights | backend/allocator.py:24-61 | the result is a permutation of the renormalised built sleeves, each built (class, sub-class) pair once. It is sorted largest first and stably, all weights non-negative, summing to 1 |
| Allocator.TargetSleeves | backend/allocator.py:24-61 | the method, with its appending loops and in-place residual update, returns Allocation (KeyError for other jurisdictions) |
| Sorting.SortByDescending | backend/allocator.py:61 | sorted(reverse=True): non-increasing, a permutation, stable for equal keys, same sum |
| Sorting.SortByCorrect | backend/allocator.py:61 | the insertion sort is ascending and a permutation |
| Sorting.SortByStable | backend/allocator.py:61 | elements sharing a key keep their input order |
| Strings.Upper | backend/allocator.py:35 | str.upper, character by character |
| Indicators.ComputeAllIndicators | ml_model/src/indicators.py:26-31 | ValueError iff an OHLCV column is missing |
| Indicators.IndicatorsAssigned | ml_model/src/indicators.py:26-40 | on success every indicator column is assigned, every other column is kept, and the row count is unchanged |
| Indicators.IndicatorAssigned | ml_model/src/indicators.py:45-109 | each added column holds its formula or the library's series aligned to the frame |
| Indicators.KeepsPriceColumn | ml_model/src/indicators.py:26-40 | the OHLCV columns and the row count come through unchanged |
| Indicators.RangeRatio | ml_model/src/indicators.py:103 | one (a - b) / base value per row, with IEEE division; it gives hl_pct and also bb_width (line 77), which is the same formula over the Bollinger bands |
| Indicators.CoPct | ml_model/src/indicators.py:106 | one value per row |
| Indicators.PricePosition | ml_model/src/indicators.py:109 | one value per row |
| Indicators.ShapeFeaturesOnCleanBar | ml_model/src/indicators.py:103-109 | on a clean bar hl_pct and co_pct are their finite ratios with hl_pct >= 0. price_position lies in [0,1], or is NaN when high == low |
| Indicators.PctChange | ml_model/src/indicators.py:100 | one value per row, computed on the forward-filled series as pandas' default `fill_method='pad'` does |
| Indicators.PctChangeAt | ml_model/src/indicators.py:100 | the change at row i compares the last observed closes at rows i and i-1, so a NaN close is bridged; between two finite closes it is x[i]/x[i-1] - 1 |
| Indicators.CumSumOfFinite | ml_model/src/indicators.py:87 | on finite input the running sum at row i is the prefix sum of rows 0..i |
| Indicators.CumSumOfWeighted | ml_model/src/indicators.py:87 | on finite input the running sum of close*volume is the prefix's weighted sum |
| Indicators.WeightedSumBounds | ml_model/src/indicators.py:87 | a positively weighted sum lies between the extreme values times the total weight |
| Indicators.VwapWithinCloseRange | ml_model/src/indicators.py:87 | with finite closes and positive volumes VWAP at row i is finite and between the smallest and largest close of rows 0..i |
| Indicators.LabelOf | ml_model/src/indicators.py:133-135 | the label is 0, 1 or 2 |
| Indicators.LabelCases | ml_model/src/indicators.py:130-135 | for a threshold >= 0 the label is 2 iff the return exceeds it, 0 iff below its negation, 1 otherwise (NaN included) |
| Indicators.SellWinsOverlap | ml_model/src/indicators.py:134-135 | a return passing both tests implies a negative threshold, and Sell wins |
| Indicators.LabelColumn | ml_model/src/indicators.py:133-135 | the default-then-overwrite labelling gives LabelOf of each row's next-bar return |
| Indicators.AttachLabels | ml_model/src/indicators.py:130-151 | one row fewer, other columns kept on the remaining rows, future_return and label truncated alike |
| Indicators.AttachLabelsLabelled | ml_model/src/indicators.py:130-151 | the computed returns and labels make the labelled frame |
| Indicators.LabelFrame | ml_model/src/indicators.py:116-153 | the returned frame is labelled from its input |
| Indicators.GenerateLabels | ml_model/src/indicators.py:116-153 | fails iff there is no close column or no row. Otherwise it returns n-1 rows, each with its next-bar return and label, and flags imbalance over all n labels |
| Indicators.FlatSeriesIsAllHold | ml_model/src/indicators.py:130-135 | a constant positive close labels every row Hold |
| Indicators.GetFeatureColumns | ml_model/src/indicators.py:155-163 | 20 distinct names containing every configured feature |
| Indicators.FeatureColumnsDistinct | ml_model/src/indicators.py:157-163 | the four groups of feature names together are distinct |
| Indicators.ForwardFillAt | ml_model/src/indicators.py:189 | ffill puts the last non-NaN value at or above each row, or the seed when there is none |
| Indicators.SanitizeColumnAt | ml_model/src/indicators.py:189-195 | every entry ends finite. A finite entry is kept and an infinity becomes 0. A NaN takes the nearest earlier value, 0 when that is infinite or missing |
| Indicators.LeadingNaNBecomesZero | ml_model/src/indicators.py:189 | a NaN before any observed value becomes 0 |
| Indicators.SanitizeAll | ml_model/src/indicators.py:189-195 | every column cleaned, names and rows kept, no NaN or infinity left |
| Indicators.SelectFeatures | ml_model/src/indicators.py:177-181 | the feature columns present, in feature-list order, unchanged |
| Indicators.PrepareMlFeatures | ml_model/src/indicators.py:165-197 | same row count. The columns are the present features in feature order, then each user key that is not already a column, in dictionary order. Every user key holds its value as a constant column, overwriting a feature of the same name. Other features are their cleaned input columns, and all values are finite |
| Preprocess.DropDuplicates | ml_model/src/preprocess_data.py:60 | the set of row keys is unchanged |
| Preprocess.DropDuplicatesSubseq | ml_model/src/preprocess_data.py:60 | drop_duplicates only removes rows |
| Preprocess.DropDuplicatesDistinct | ml_model/src/preprocess_data.py:60 | no two kept rows are equal (timestamp included when it is a column) |
| Preprocess.DropDuplicatesKeepsFirst | ml_model/src/preprocess_data.py:60 | every kept row is the first of its group |
| Preprocess.FilterChain | ml_model/src/preprocess_data.py:68-79 | the five filters in turn keep exactly the valid bars |
| Preprocess.CleanData | ml_model/src/preprocess_data.py:47-81 | KeyError iff an OHLCV column is missing. Otherwise exactly the valid rows of the de-duplicated, time-sorted input, in order |
| Preprocess.CleanDataFacts | ml_model/src/preprocess_data.py:57-79 | the kept rows are valid, a subsequence of the ordered input, every valid row kept, sorted by timestamp when there is one |
| Preprocess.ValidBarIsClean | ml_model/src/preprocess_data.py:68-79 | on finite values the filter is the clean-bar condition of the shape features |
| Preprocess.Windows | ml_model/src/preprocess_data.py:128-130 | max(0, n-L) samples |
| Preprocess.CreateSequences | ml_model/src/preprocess_data.py:107-132 | KeyError iff there is no label column. Otherwise sample k is rows [k, k+L) of the present features and the label of row k+L, after the window |
| Preprocess.WindowShape | ml_model/src/preprocess_data.py:118-129 | each window has L rows of the present configured features in configured order |
| Preprocess.WindowsStride | ml_model/src/preprocess_data.py:128-130 | stride 1: the next window is this one without its first row, plus the row this window's label comes from |
| Preprocess.Pick | ml_model/src/preprocess_data.py:160-168 | indexing by the split's indices, IndexError for an index past the end |
| Preprocess.ZeroedBeforeScaling | ml_model/src/preprocess_data.py:176-183 | every NaN or infinity reaches the scaler as 0; a finite entry is scaled as itself |
| Preprocess.Splits | ml_model/src/preprocess_data.py:160-168 | when both splits succeed, every part of a rectangular sample list is rectangular |
| Preprocess.FittedScalerOutcome | ml_model/src/preprocess_data.py:160-183 | a scaler is fitted iff both splits succeed; a successful result carries that scaler, and a failed split makes the whole step fail |
| Preprocess.SplitAndScaleFacts | ml_model/src/preprocess_data.py:160-194 | the scaler is fit on the zeroed train rows alone and every part is scaled by it |
| Preprocess.HeldOutDoNotAffectScaler | ml_model/src/preprocess_data.py:181-183 | validation and test windows never change the fitted scaler |
| Preprocess.LabelledTable | ml_model/src/preprocess_data.py:151-154 | the labelled frame has a label column |
| Preprocess.PreparedScalerOutcome | ml_model/src/preprocess_data.py:134-194 | returned data carries the scaler that was fitted, and an empty result fits none |
| Preprocess.DataPreprocessor.PrepareTrainingData | ml_model/src/preprocess_data.py:134-194 | returns Prepared. The scaler is refitted whenever both splits succeed, even if the later width check raises, and is otherwise unchanged, including when cleaning leaves no rows |
| Preprocess.DataPreprocessor.PrepareCleaned | ml_model/src/preprocess_data.py:150-194 | the steps after cleaning. The scaler is refitted whenever both splits succeed and is otherwise unchanged |
| Preprocess.DataPreprocessor.PrepareLabelled | ml_model/src/preprocess_data.py:157-194 | windows, then split and scale. The scaler is refitted whenever both splits succeed and is otherwise unchanged |
| Preprocess.DataPreprocessor.SplitAndFit | ml_model/src/preprocess_data.py:160-194 | the split, zeroing and fit/transform steps. fit_transform refits the scaler once both splits succeed, before transform's width check can raise; a failed split leaves it unchanged |
| Models.CreateModel | ml_model/src/models.py:176-214 | case-insensitive dispatch (lstm, gru, transformer), ValueError otherwise. Three classes always, two layers for the recurrent nets, transformer width 8 per head |
| Models.WidthDividesByHeads | ml_model/src/models.py:207-208 | the transformer width is a multiple of its head count |
| Models.ModelConfigSizes | ml_model/src/models.py:188-214 | with MODEL_CONFIG any letter case builds the configured sizes; another name fails |
| Models.TradingDataset.Len | ml_model/src/models.py:20-21 | the number of windows |
| Models.TradingDataset.Item | ml_model/src/models.py:23-24 | the window and label at the index, Python negative indices included, IndexError outside |
| Models.StepOf | ml_model/src/models.py:233-259 | a batch is trained iff its inputs, the network's outputs on them and the loss are all free of NaN, and the loss counted is the criterion on those outputs |
| Models.SkippedStep | ml_model/src/models.py:233-250 | a batch skipped after the ones before it (NaN input, output or loss) leaves the loss sum and the parameters as they were |
| Models.SkippedBatchChangesNothing | ml_model/src/models.py:233-250 | a batch skipped where it sits, for any of the three reasons and anywhere in the loader, changes neither the loss sum nor the parameters of the whole run |
| Models.AllSkippedLearnsNothing | ml_model/src/models.py:229-261 | when every batch is skipped (for any of the three reasons) the loss sum is 0 and nothing is learned |
| Models.ModelTrainer.TrainEpoch | ml_model/src/models.py:223-261 | parameters and loss sum follow TrainRun; the mean divides by all batches, skipped ones included, and is 0 for an empty loader |
| Models.ArgMax | ml_model/src/models.py:277 | the first maximal entry, or the first NaN when there is one |
| Models.CountCorrect | ml_model/src/models.py:279 | at most the number of labels |
| Models.EpochResult | ml_model/src/models.py:281-282 | error iff no samples, otherwise accuracy in [0,1] times the sample count equals the correct count |
| Models.ModelTrainer.ValidateEpoch | ml_model/src/models.py:263-282 | returns EpochResult of the validation run; parameters untouched |
| Models.ModelTrainer.ValidateRunErrSticks | ml_model/src/models.py:271-279 | a failing prefix makes the whole run fail the same way |
| Models.ModelTrainer.Predict | ml_model/src/models.py:284-299 | one arg-max class and one probability row per sample, in loader order; empty output rows raise |
| TrainModel.Track | ml_model/src/train_model.py:116-139 | the checkpoint epoch is one of the epochs run |
| TrainModel.TrackBest | ml_model/src/train_model.py:116-137 | best_val_acc is max(0, every accuracy). The checkpoint is at the first epoch reaching it; without a positive accuracy there is none |
| TrainModel.TrackPatience | ml_model/src/train_model.py:117-139 | patience counts the epochs since the last checkpoint |
| TrainModel.TrackStep | ml_model/src/train_model.py:133-139 | a strict improvement resets patience and moves the checkpoint; otherwise patience grows |
| TrainModel.CheckpointStep | ml_model/src/train_model.py:133-137 | an epoch writes the checkpoint exactly when its accuracy beats the best so far |
| TrainModel.EpochsStop | ml_model/src/train_model.py:119-143 | one entry per epoch run in each list, at most the budget, fewer only when early stopping fired after the last, never earlier |
| TrainModel.EpochsSettled | ml_model/src/train_model.py:141-143 | after an error or an early stop further epochs change nothing |
| TrainModel.EpochsNext | ml_model/src/train_model.py:119-127 | an unstopped loop's next epoch is one EpochStep on that epoch's shuffled batches |
| TrainModel.Pairs | ml_model/src/models.py:16-18 | one example per window and label |
| TrainModel.ClassOfLabel | ml_model/src/models.py:18 | the labels 0.0, 1.0, 2.0 become classes 0, 1, 2 |
| TrainModel.LoaderCovers | ml_model/src/train_model.py:94-96 | the batches hold every example exactly once, in order |
| TrainModel.LoaderCount | ml_model/src/train_model.py:94-96 | there are ceil(n / size) batches |
| TrainModel.PreparedConsistent | ml_model/src/train_model.py:89-91 | each prepared part has as many labels as windows |
| TrainModel.PrepareOutcome | ml_model/src/train_model.py:48-61 | the empty dictionary exactly for an empty frame, an empty preparation or one that raises |
| TrainModel.TradingModelTrainer.PrepareData | ml_model/src/train_model.py:31-66 | returns PrepareOutcome; saves the processed data exactly when it returns some |
| TrainModel.TradingModelTrainer.PrepareFrame | ml_model/src/train_model.py:53-61 | the try block; the scaler is the prepared one on success |
| TrainModel.TradingModelTrainer.SaveModel | ml_model/src/train_model.py:179-189 | writes the checkpoint at `{symbol}_{timeframe}_{model_type}.pth` and nothing else |
| TrainModel.TradingModelTrainer.SaveResults | ml_model/src/train_model.py:191-204 | writes the results at `{symbol}_{timeframe}_{model_type}_results.json` and nothing else |
| TrainModel.TradingModelTrainer.RunEpochs | ml_model/src/train_model.py:113-147 | the loop computes Epochs, leaves the last-epoch parameters and writes the checkpoints CheckpointsAfter describes; when an epoch raises, the checkpoints of the epochs completed before it stay written |
| TrainModel.TradingModelTrainer.RunEpoch | ml_model/src/train_model.py:120-127 | one EpochStep, appending one entry to each list |
| TrainModel.Predictions | ml_model/src/models.py:284-299 | one arg-max class per output row |
| TrainModel.ReportLabelsCount | ml_model/src/train_model.py:155-157 | with labels and predictions among the three classes, classification_report sees three classes iff each class is in y_test or predicted |
| TrainModel.Evaluation | ml_model/src/train_model.py:150-157 | evaluation succeeds iff validate_epoch does, every output row is non-empty and the report sees exactly three classes; it then carries validate_epoch's test loss and accuracy |
| TrainModel.UnseenClassRaises | ml_model/src/train_model.py:155-157 | a class neither in y_test nor predicted by a three-way network (no Sell label and no Sell prediction, say) makes the evaluation raise ValueError |
| TrainModel.TradingModelTrainer.Evaluate | ml_model/src/train_model.py:150-157 | validate_epoch, predict and classification_report on the test loader with the last epoch's parameters, raising as Evaluation says |
| TrainModel.TradingModelTrainer.Train | ml_model/src/train_model.py:68-177 | succeeds iff Training does, so classification_report's ValueError fails it. The report's best and the checkpoint come from validation accuracies only, the test result from the last-epoch network. The results file is written only on success. A bad batch size or model type writes no checkpoint; otherwise the checkpoints are those of the epochs completed, also when a later epoch or the report raises, so check_existing_models later counts that pair as trained |
| PredictLive.ApplyRiskAdjustment | ml_model/src/predict_live.py:178-202 | the result is the action or Hold. A Hold input stays Hold. A confidence below the threshold, or a tolerance under 4, gives Hold. Otherwise the action stands, including for a NaN confidence, which the float `<` lets through |
| PredictLive.ThresholdMonotone | ml_model/src/predict_live.py:192 | the threshold rises with the tolerance |
| PredictLive.ThresholdRange | ml_model/src/predict_live.py:192 | tolerances 1..9 give 0.3..0.7, tolerance 10 gives 0.75 |
| PredictLive.AdjustmentMonotone | ml_model/src/predict_live.py:195-202 | among numeric confidences, a trade that stands at some confidence stands at any higher one |
| PredictLive.FiniteConfidenceGate | ml_model/src/predict_live.py:191-202 | for a finite confidence a Buy or Sell stands iff the tolerance is at least 4 and the confidence reaches the threshold |
| PredictLive.NaNConfidenceKeepsTrade | ml_model/src/predict_live.py:195-202 | a NaN confidence fails `<`, so from tolerance 4 up the action stands unadjusted |
| PredictLive.Transform | ml_model/src/predict_live.py:102 | ValueError for a wrong width or an infinity; otherwise each entry scaled with its column's mean and scale |
| PredictLive.LastRows | ml_model/src/predict_live.py:97 | exactly the last L rows of the named columns |
| PredictLive.LiveWindow | ml_model/src/predict_live.py:87-108 | None iff fewer than L rows or no cached scaler; an error is ValueError |
| PredictLive.LiveWindowIsLastRows | ml_model/src/predict_live.py:87-108 | a produced window is the last L rows of the present features, each entry scaled with the cached scaler |
| PredictLive.LiveFeatures | ml_model/src/predict_live.py:71-110 | ValueError without the OHLCV columns; otherwise the live window of the indicator frame, None iff too few rows or no scaler |
| PredictLive.Loaded | ml_model/src/predict_live.py:29-69 | fails without either file or for an unknown model type. On success both caches get the entry under `{symbol}_{timeframe}` |
| PredictLive.SavedModelLoads | ml_model/src/predict_live.py:40-62 | a checkpoint saved by train_model for this symbol, timeframe and type is the one load_model caches |
| PredictLive.MaxProb | ml_model/src/predict_live.py:146 | torch.max: NaN iff some probability is NaN, otherwise the largest probability |
| PredictLive.Classify | ml_model/src/predict_live.py:139-173 | a signal has the arg-max action and sell/hold/buy = entries 0/1/2. Its confidence is NaN iff a probability is NaN, otherwise the largest one, and it carries the risk-adjusted action. A failure is a RuntimeError, KeyError or IndexError report |
| PredictLive.NaNOutputKeepsTrade | ml_model/src/predict_live.py:139-158 | with a NaN-propagating softmax, a NaN network output gives a NaN confidence and the action of the first NaN class, and from tolerance 4 up that action is returned unadjusted |
| PredictLive.PredictStep | ml_model/src/predict_live.py:126-136 | loads only on a cache miss; a failed load answers 'Model not available' and changes nothing; on a hit or after a load the answer is Predicted's |
| PredictLive.Answer | ml_model/src/predict_live.py:131-176 | the answer is 'Insufficient data for prediction' iff prepare_live_features returned None |
| PredictLive.Reported | ml_model/src/predict_live.py:175-176 | an exception's report never reads 'Insufficient data for prediction' |
| PredictLive.PredictedFailures | ml_model/src/predict_live.py:91-135 | ValueError without the OHLCV columns; 'Insufficient data for prediction' iff fewer rows than one window or no cached scaler |
| PredictLive.PredictedSignal | ml_model/src/predict_live.py:131-171 | otherwise a refused transform fails with ValueError and a live window is classified by the network |
| PredictLive.TooFewRowsInsufficient | ml_model/src/predict_live.py:91-135 | fewer rows than one window answer 'Insufficient data for prediction' iff the network is cached or loads |
| PredictLive.BatchStep | ml_model/src/predict_live.py:204-222 | one prediction per item |
| PredictLive.BatchStepLast | ml_model/src/predict_live.py:218-220 | each item is predicted on the caches the earlier ones left |
| PredictLive.BatchKeepsCache | ml_model/src/predict_live.py:128-129 | a cached model stays cached through a batch |
| PredictLive.LivePredictor.LoadModel | ml_model/src/predict_live.py:29-69 | True with both caches updated per Loaded, or False with both unchanged |
| PredictLive.LivePredictor.PredictSignal | ml_model/src/predict_live.py:112-176 | the answer and the caches follow PredictStep |
| PredictLive.LivePredictor.BatchPredict | ml_model/src/predict_live.py:204-222 | the loop's answers and caches follow BatchStep |
| TrainTop20Smart.ParseKeyShape | ml_model/train_top20_smart.py:20-24 | a parsed key is two underscore-free pieces joined by one underscore |
| TrainTop20Smart.KeysOfMembers | ml_model/train_top20_smart.py:16-24 | a key is found iff some `.pth` entry parses to it |
| TrainTop20Smart.CheckExistingModels | ml_model/train_top20_smart.py:10-26 | the scan loop returns ExistingKeys; a missing directory gives none |
| TrainTop20Smart.UnderscoreTickerNeverFound | ml_model/train_top20_smart.py:20-24 | a ticker containing '_' never has its key found |
| TrainTop20Smart.SavedCheckpointParses | ml_model/train_top20_smart.py:15-24 | the file train_model saves for underscore-free names parses back to `{symbol}_{timeframe}` |
| Strings.SplitPiecesFree | ml_model/train_top20_smart.py:20 | no piece of a split contains the delimiter |
| TrainTop20Smart.MissingMembers | ml_model/train_top20_smart.py:51-58 | a pair is selected iff its ticker and timeframe are listed and its key is absent |
| TrainTop20Smart.MissingCount | ml_model/train_top20_smart.py:51-58 | at most one pair per ticker and timeframe |
| TrainTop20Smart.MissingRowAll | ml_model/train_top20_smart.py:53-56 | a ticker with no existing key gets every timeframe, in order |
| TrainTop20Smart.UnderscoreRowSelected | ml_model/train_top20_smart.py:52-56 | an underscore ticker always gets all its timeframes selected |
| TrainTop20Smart.Top20NeverComplete | ml_model/train_top20_smart.py:60-62 | the selection always contains (BTC_USDT, 5m), so the "all exist" branch is never taken |
| TrainTop20Smart.SelectMissing | ml_model/train_top20_smart.py:51-58 | the nested loops compute Missing, ticker-major |
| TrainTop20Smart.SuccessIffTrained | ml_model/train_top20_smart.py:83-114 | a record is 'success' iff the attempt trained, for that ticker and timeframe |
| TrainTop20Smart.Records | ml_model/train_top20_smart.py:76-114 | one record per attempted pair |
| TrainTop20Smart.TrainAll | ml_model/train_top20_smart.py:76-114 | the loop appends one record per pair, and `completed` counts the successes |
| TrainTop20Smart.TrainTop20TickersSmart | ml_model/train_top20_smart.py:28-151 | the records of training each missing top-20 pair for 10 epochs; nothing when none is missing |
| TrainTop20Smart.SummaryCounts | ml_model/train_top20_smart.py:128-137 | successes plus failures are all records; the successes are exactly the 'success' records and there are `completed` of them |
| TrainTop20Smart.FailureLeavesAverage | ml_model/train_top20_smart.py:128-138 | a failed record leaves the successes and the average alone |
| TrainTop20Smart.AverageBounds | ml_model/train_top20_smart.py:136-138 | the average lies within any range holding every success's accuracy |
| TrainTop20Smart.BestFive | ml_model/train_top20_smart.py:141 | at most five successes, best first; all of them when fewer, and none left out beats them |
| TrainLaptop1.TrainLaptop1 | ml_model/train_laptop1.py:27-128 | the records of training each missing laptop-1 pair for 8 epochs; nothing when none is missing |
| TrainLaptop1.TodoRows | ml_model/train_laptop1.py:43-50 | the selection is INTC's missing timeframes, then BTC's, ETH's and BNB's |
| TrainLaptop1.CryptoAlwaysSelected | ml_model/train_laptop1.py:35-54 | 6 to 8 models are selected, ending with the six crypto pairs in order, so the empty branch is never taken |
| TrainStockModel.CreateSequences | ml_model/train_stock_model.py:24-31 | max(0, n-L) pairs; window i is data[i..i+L] and its target data[i+L] |
| TrainStockModel.Stride | ml_model/train_stock_model.py:26-29 | window i+1 is window i without its first value, followed by target i |
| TrainStockModel.Reassemble | ml_model/train_stock_model.py:24-31 | the first window followed by all targets is the whole series |
| TrainStockModel.SizesPartition | ml_model/train_stock_model.py:40-42 | the sizes add up to n, and train is the largest whole number at most 4n/5 |
| TrainStockModel.PrepareDataset | ml_model/train_stock_model.py:33-42 | windows of length 20 and a partition with train = floor(0.8 n) |

## Left out

- Network architectures, their forward passes, the loss, the optimizer step with gradient clipping, the scheduler and the softmax are foreign functions. The same goes for the `ta` indicators (RSI, MACD, EMA/SMA, ATR, Bollinger, OBV) and for the pandas/numpy series rolling volatility, volume_sma_20 (a 20-row rolling mean) and log_returns (`np.log(close / close.shift(1))`). sklearn's `train_test_split` and `StandardScaler.fit` and MinMaxScaler are foreign as well.
- Indicators.ComputeAllIndicators, PredictLive.LiveFeatures, PredictLive.PredictedFailures, PredictLive.TooFewRowsInsufficient: the library series are total functions of the frame, so compute_all_indicators fails only for a missing OHLCV column. In current `ta` releases, `AverageTrueRange(window=14)` raises IndexError on a frame of fewer than 14 rows. The source then answers `Prediction failed: …` for such a frame, where these members promise 'Insufficient data for prediction'. That failure of the library is not modelled.
- Preprocess.Bar, Preprocess.DropDuplicates: a raw row carries only the timestamp and OHLCV, and drop_duplicates compares rows on those alone. Downloaded frames also carry yfinance's `dividends` and `stock splits` columns, and daily frames keep an un-renamed `Date` column. drop_duplicates also compares those columns. A frame without a `timestamp` column whose rows share OHLCV but differ in `Date` keeps both rows in the source and one in the model.
- PredictLive.Raised: an exception is reported by its class name (`Prediction failed: ValueError`, `Prediction failed: KeyError`). The source reports `str(e)`, the exception's message, e.g. the missing-columns text of compute_all_indicators or `3` for a missing action_map key.
- File I/O is maps from path to content or parameters: parquet, joblib, `np.savez`, `torch.save/load`, JSON, directory listings. A missing directory is `None`.
- Printing, timing, progress estimates and plotting are not modelled.
- Floats are exact reals. Python's banker's rounding in round_to_step is modelled exactly; float rounding error elsewhere is not.
- Allocator.AllocationWeights: in exact arithmetic the residual after renormalising is 0. The float residual the allocator exists to absorb is not modelled. ResidualPlacement states what the residual step does for any weights.
- TrainStockModel.SizesPartition: `int(0.8 * n)` is modelled as the exact floor of 4n/5, ignoring float rounding of 0.8·n.
- Sorting.SortByDescending: Python's `sorted` is stable, and so is the model.
- Preprocess.CleanData: `sort_values('timestamp')` uses pandas' default quicksort, which is not stable, so the source leaves the order of rows with equal timestamps unspecified. The model keeps them in input order, which is one of the orders pandas may produce.
- Training randomness is a parameter: the shuffled sampler order per epoch and the initial network weights.
- Models.ModelTrainer.TrainEpoch, Models.StepOf: one deterministic `forward` stands for both network modes. train_epoch runs under `model.train()`, where dropout drops activations at random. validate_epoch, predict and live prediction run under `model.eval()`, without dropout. The model does not tell the two passes apart.
- The training attempt in the driver scripts is a parameter. It gives each (ticker, timeframe) a trained accuracy, no data, or an exception message.
- train_stock_model.py's model, training loop and evaluation are not modelled. They are torch code at module level.
- The closing-price series of train_stock_model.py is already scaled: MinMaxScaler is foreign.
- TrainTop20Smart.TrainTop20TickersSmart: the final `check_existing_models` rescan only prints a count, so it is not modelled.
- The top-5 list is computed but only printed.
- TrainLaptop1.TrainLaptop1: the summary is the same as TrainTop20Smart's; laptop 1 prints no top-5 list.
- train_top20.py is not part of this model; it duplicates the smart script without the existing-model scan.
- save_predictions, load_data, load_processed_data and plot_training_history are file I/O or plotting.
- The `timestamp` entry of checkpoints and predictions comes from the clock and is not modelled.
- ml_model/config.py creates directories at import time; only its constants are modelled, with relative directory prefixes.
- The classification report's per-class precision, recall and F1 figures are not kept in the results. Only the ValueError it raises when y_test and the predictions do not hold exactly three classes is modelled.
- The softmax is a foreign function in both places. For live prediction it returns floats that may be NaN. On the training side only the arg-max predictions matter, so its probabilities stay reals.
- Strings.Upper, Strings.Lower: only ASCII letters are converted. Python's `str.upper` also maps some non-ASCII letters onto ASCII (`'uſ'.upper() == 'US'`), so target_sleeves accepts such a jurisdiction where Allocator.AllocationDefined rejects it.
- The DataFrame row index is not modelled. After clean_data the timestamp index becomes row order.
- A non-empty `user_features` dictionary replaces USER_CONFIG in predict_signal. Only its `risk_tolerance` entry is read.
- The backend service, its LLM and market-data calls, model distribution and the test scripts are outside this model.
