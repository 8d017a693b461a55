/**
 * Live signal prediction (ml_model/src/predict_live.py): the model and
 * scaler caches of a LivePredictor, the features of the most recent window,
 * the class-to-action mapping and the risk adjustment that can turn a Buy or
 * Sell into a Hold. Checkpoint and scaler files are maps from path to
 * content; the network, softmax and weight loading are foreign functions.
 */
module PredictLive {
  import opened Numeric
  import opened Frames
  import opened Models
  import Indicators
  import Preprocess
  import TrainModel
  import MlConfig

  // ---------------------------------------------------------------- risk adjustment

  datatype Action = Sell | Hold | Buy

  /** action_map: class 0 is Sell, 1 is Hold, 2 is Buy. */
  function ActionOf(k: nat): Action
    requires k < 3
  {
    if k == 0 then Sell else if k == 1 then Hold else Buy
  }

  /** 0.5 + (risk_tolerance - 5) * 0.05 */
  function Threshold(riskTolerance: real): real {
    0.5 + (riskTolerance - 5.0) * 0.05
  }

  /**
   * _apply_risk_adjustment: below the confidence threshold the answer is
   * Hold, and a tolerance under 4 holds whatever the confidence; otherwise
   * the predicted action stands. The gate is a float `<`, which is false for
   * a NaN confidence, so a NaN confidence is never held back by it.
   */
  function ApplyRiskAdjustment(action: Action, confidence: Num, riskTolerance: real): (r: Action)
    ensures r == action || r == Hold
    ensures action == Hold ==> r == Hold
    ensures Lt(confidence, Fin(Threshold(riskTolerance))) ==> r == Hold
    ensures riskTolerance < 4.0 ==> r == Hold
    ensures riskTolerance >= 4.0 && !Lt(confidence, Fin(Threshold(riskTolerance))) ==> r == action
  {
    if Lt(confidence, Fin(Threshold(riskTolerance))) then Hold
    else if riskTolerance < 4.0 && (action == Buy || action == Sell) then Hold
    else
      assert action.Sell? || action.Hold? || action.Buy?;
      action
  }

  /** The threshold rises with the tolerance: a more tolerant user needs a more confident model. */
  lemma ThresholdMonotone(a: real, b: real)
    requires a <= b
    ensures Threshold(a) <= Threshold(b)
  {
  }

  /** Tolerances 1 to 9 give thresholds from 0.3 to 0.7; tolerance 10 gives 0.75. */
  lemma ThresholdRange(riskTolerance: real)
    ensures 1.0 <= riskTolerance <= 9.0 ==> 0.3 <= Threshold(riskTolerance) <= 0.7
    ensures Threshold(1.0) == 0.3 && Threshold(9.0) == 0.7 && Threshold(10.0) == 0.75
  {
  }

  /** Among confidences that are numbers, a trade that stands at some confidence stands at any higher one. */
  lemma AdjustmentMonotone(action: Action, c1: Num, c2: Num, riskTolerance: real)
    requires Le(c1, c2) && ApplyRiskAdjustment(action, c1, riskTolerance) != Hold
    ensures ApplyRiskAdjustment(action, c2, riskTolerance) == action
  {
  }

  /**
   * For a finite confidence the gate is the comparison the source's comment
   * describes: a Buy or Sell stands iff the tolerance is at least 4 and the
   * confidence reaches the threshold.
   */
  lemma FiniteConfidenceGate(action: Action, c: real, riskTolerance: real)
    requires action != Hold
    ensures ApplyRiskAdjustment(action, Fin(c), riskTolerance) == action
            <==> riskTolerance >= 4.0 && c >= Threshold(riskTolerance)
  {
  }

  /** A NaN confidence fails the `<` test, so from tolerance 4 up any action stands unadjusted. */
  lemma NaNConfidenceKeepsTrade(action: Action, riskTolerance: real)
    requires riskTolerance >= 4.0
    ensures ApplyRiskAdjustment(action, NaN, riskTolerance) == action
  {
  }

  /** `user_features or USER_CONFIG`, then `.get('risk_tolerance', 5)`; an empty dictionary counts as absent. */
  function RiskTolerance(userFeatures: Option<map<string, real>>): real {
    var d := if userFeatures.None? || userFeatures.value == map[] then MlConfig.UserConfig else userFeatures.value;
    if "risk_tolerance" in d then d["risk_tolerance"] else 5.0
  }

  // ---------------------------------------------------------------- live features

  /** StandardScaler.transform of one entry: NaN passes through, an infinity is refused. */
  function ScaleEntry(x: Num, mean: real, scale: real): Num
    requires !x.PosInf? && !x.NegInf?
  {
    if x.Fin? then Fin(Preprocess.ScaleValue(x.v, mean, scale)) else NaN
  }

  predicate Finiteish(m: seq<seq<Num>>) {
    forall i, j :: 0 <= i < |m| && 0 <= j < |m[i]| ==> !m[i][j].PosInf? && !m[i][j].NegInf?
  }

  /** transform: ValueError for a width other than the fitted one or for an infinity. */
  function Transform(sc: Preprocess.Scaler, m: seq<seq<Num>>): (r: Result<seq<seq<Num>>>)
    ensures r.Ok? <==> Finiteish(m) && Preprocess.ScalerFits(sc, |sc.mean|)
                       && forall i :: 0 <= i < |m| ==> |m[i]| == |sc.mean|
    ensures r.Ok? ==> |r.value| == |m|
    ensures r.Ok? ==> forall i, j :: 0 <= i < |m| && 0 <= j < |m[i]| ==>
                        |r.value[i]| == |m[i]| && r.value[i][j] == ScaleEntry(m[i][j], sc.mean[j], sc.scale[j])
  {
    if Finiteish(m) && |sc.scale| == |sc.mean| && forall i :: 0 <= i < |m| ==> |m[i]| == |sc.mean| then
      Ok(seq(|m|, i requires 0 <= i < |m| =>
        seq(|m[i]|, j requires 0 <= j < |m[i]| => ScaleEntry(m[i][j], sc.mean[j], sc.scale[j]))))
    else Err("ValueError")
  }

  /** `{symbol}_{timeframe}`: the cache key, which leaves out the model type. */
  function Key(symbol: string, timeframe: string): string {
    symbol + "_" + timeframe
  }

  function ScalerPath(symbol: string, timeframe: string): string {
    MlConfig.ProcessedDataDir + symbol + "_" + timeframe + "_scaler.pkl"
  }

  /** The last `L` rows of the named columns. */
  function LastRows(t: Table, names: seq<string>, L: nat): (m: seq<seq<Num>>)
    requires forall c :: c in names ==> c in t.cols
    requires L <= t.rows
    ensures |m| == L
    ensures forall i, j :: 0 <= i < L && 0 <= j < |names| ==> |m[i]| == |names| && m[i][j] == t.cols[names[j]][t.rows - L + i]
  {
    Values(t, names)[t.rows - L..]
  }

  /**
   * The part of prepare_live_features after the indicators: too few rows or
   * no cached scaler give None; otherwise the last L rows of the configured
   * features present, scaled (ValueError when the scaler refuses them).
   */
  function LiveWindow(t: Table, scalers: map<string, Preprocess.Scaler>, key: string)
    : (r: Result<Option<seq<seq<Num>>>>)
    ensures r.Err? ==> r.error == "ValueError"
    ensures r == Ok(None) <==> t.rows < MlConfig.SequenceLength || key !in scalers
  {
    if t.rows < MlConfig.SequenceLength then Ok(None)
    else
      var names := Present(MlConfig.Features, t);
      var m := LastRows(t, names, MlConfig.SequenceLength);
      if key !in scalers then Ok(None)
      else
        match Transform(scalers[key], m)
        case Err(_) => Err("ValueError")
        case Ok(w) => Ok(Some(w))
  }

  /** Scaling the last L rows scales each of their entries with its column's mean and scale. */
  lemma ScaledLastRows(t: Table, names: seq<string>, L: nat, sc: Preprocess.Scaler)
    requires forall c :: c in names ==> c in t.cols
    requires L <= t.rows && Transform(sc, LastRows(t, names, L)).Ok?
    ensures var m := LastRows(t, names, L);
            var w := Transform(sc, m).value;
            && |w| == L && Finiteish(m)
            && forall i, j :: 0 <= i < L && 0 <= j < |names| ==>
                 |w[i]| == |names| && j < |m[i]| && j < |sc.mean| && j < |sc.scale|
                 && w[i][j] == ScaleEntry(m[i][j], sc.mean[j], sc.scale[j])
  {
    var m := LastRows(t, names, L);
    var w := Transform(sc, m).value;
    assert Finiteish(m) && |sc.scale| == |sc.mean|;
    forall i, j | 0 <= i < L && 0 <= j < |names|
      ensures |w[i]| == |names| && j < |m[i]| && j < |sc.mean| && j < |sc.scale|
      ensures w[i][j] == ScaleEntry(m[i][j], sc.mean[j], sc.scale[j])
    {
      assert |m[i]| == |names| == |sc.mean|;
    }
  }

  /**
   * The live window is the last L rows of the configured features present
   * (whose entries are those of the frame's columns, by LastRows), each
   * scaled with the cached scaler.
   */
  lemma LiveWindowIsLastRows(t: Table, scalers: map<string, Preprocess.Scaler>, key: string)
    requires LiveWindow(t, scalers, key).Ok? && LiveWindow(t, scalers, key).value.Some?
    ensures key in scalers && t.rows >= MlConfig.SequenceLength
    ensures var names := Present(MlConfig.Features, t);
            var m := LastRows(t, names, MlConfig.SequenceLength);
            var w := LiveWindow(t, scalers, key).value.value;
            var sc := scalers[key];
            && |w| == MlConfig.SequenceLength && Finiteish(m)
            && forall i, j :: 0 <= i < |w| && 0 <= j < |names| ==>
                 |w[i]| == |names| && j < |m[i]| && j < |sc.mean| && j < |sc.scale|
                 && w[i][j] == ScaleEntry(m[i][j], sc.mean[j], sc.scale[j])
  {
    var names := Present(MlConfig.Features, t);
    var m := LastRows(t, names, MlConfig.SequenceLength);
    var sc := scalers[key];
    var w := LiveWindow(t, scalers, key).value.value;
    assert Transform(sc, m).Ok? && w == Transform(sc, m).value;
    ScaledLastRows(t, names, MlConfig.SequenceLength, sc);
    forall i, j | 0 <= i < |w| && 0 <= j < |names|
      ensures |w[i]| == |names| && j < |m[i]| && j < |sc.mean| && j < |sc.scale|
      ensures w[i][j] == ScaleEntry(m[i][j], sc.mean[j], sc.scale[j])
    {
    }
  }

  /**
   * prepare_live_features: ValueError when the indicators cannot be computed
   * (no OHLCV columns); otherwise the live window of the indicator frame,
   * which has as many rows as the input.
   */
  function LiveFeatures(df: Table, lib: Indicators.Library, scalers: map<string, Preprocess.Scaler>, key: string)
    : (r: Result<Option<seq<seq<Num>>>>)
    ensures !Indicators.HasRequired(df) ==> r == Err("ValueError")
    ensures Indicators.HasRequired(df) ==> var t := Indicators.ComputeAllIndicators(df, lib).value;
              t.rows == df.rows && r == LiveWindow(t, scalers, key)
    ensures r == Ok(None) <==> Indicators.HasRequired(df) && (df.rows < MlConfig.SequenceLength || key !in scalers)
  {
    match Indicators.ComputeAllIndicators(df, lib)
    case Err(e) => Err("ValueError")
    case Ok(t) =>
      assert "close" in Indicators.RequiredColumns;
      Indicators.KeepsPriceColumn(df, lib, "close");
      LiveWindow(t, scalers, key)
  }

  // ---------------------------------------------------------------- the predictor

  /** The files a predictor can load: checkpoints by path and fitted scalers by path. */
  datatype Files<P> = Files(checkpoints: map<string, TrainModel.Checkpoint<P>>, scalers: map<string, Preprocess.Scaler>)

  /**
   * The foreign parts of live prediction: the indicator library, the
   * network's forward pass, the softmax, and whether load_state_dict accepts
   * a checkpoint's state for the architecture create_model built.
   */
  datatype LiveEnv<!P> = LiveEnv(
    lib: Indicators.Library,
    forward: (P, seq<seq<seq<Num>>>) -> seq<seq<Num>>,
    softmax: seq<Num> -> seq<Num>,
    loads: (ModelSpec, P) -> bool)

  /** The two caches, keyed by `{symbol}_{timeframe}`. */
  datatype Cache<P> = Cache(models: map<string, P>, scalers: map<string, Preprocess.Scaler>)

  /**
   * load_model: both files must exist, the architecture must be built for
   * the configured feature count and must accept the saved state; then the
   * network and the scaler are cached together. Any failure leaves the
   * caches as they were.
   */
  function Loaded<P>(c: Cache<P>, files: Files<P>, env: LiveEnv<P>, modelType: string, symbol: string, timeframe: string)
    : (r: Option<Cache<P>>)
    ensures r.Some? ==> var k := Key(symbol, timeframe);
              && TrainModel.ModelPath(symbol, timeframe, modelType) in files.checkpoints
              && ScalerPath(symbol, timeframe) in files.scalers
              && r.value == Cache(c.models[k := files.checkpoints[TrainModel.ModelPath(symbol, timeframe, modelType)].state],
                                  c.scalers[k := files.scalers[ScalerPath(symbol, timeframe)]])
    ensures TrainModel.ModelPath(symbol, timeframe, modelType) !in files.checkpoints ==> r.None?
    ensures ScalerPath(symbol, timeframe) !in files.scalers ==> r.None?
    ensures !KnownType(modelType) ==> r.None?
  {
    var mp, sp := TrainModel.ModelPath(symbol, timeframe, modelType), ScalerPath(symbol, timeframe);
    if mp !in files.checkpoints || sp !in files.scalers then None
    else
      match CreateModel(modelType, |MlConfig.Features|, Models.ModelConfig)
      case Err(_) => None
      case Ok(spec) =>
        var state := files.checkpoints[mp].state;
        if !env.loads(spec, state) then None
        else
          var k := Key(symbol, timeframe);
          Some(Cache(c.models[k := state], c.scalers[k := files.scalers[sp]]))
  }

  /**
   * torch.max over the class dimension: NaN when any probability is NaN,
   * otherwise the largest one.
   */
  function MaxProb(probs: seq<Num>): (m: Num)
    requires probs != []
    ensures m.NaN? <==> RowHasNaN(probs)
    ensures !m.NaN? ==> m in probs && forall i :: 0 <= i < |probs| ==> Le(probs[i], m)
  {
    if |probs| == 1 then probs[0]
    else
      var init := probs[..|probs| - 1];
      var m := MaxProb(init);
      var last := probs[|probs| - 1];
      assert forall i :: 0 <= i < |init| ==> init[i] == probs[i];
      if m.NaN? then m
      else if last.NaN? || Gt(last, m) then
        assert !last.NaN? ==> forall i :: 0 <= i < |init| ==> Le(init[i], last) by {
          if !last.NaN? {
            forall i | 0 <= i < |init| ensures Le(init[i], last) {
              GtTrans(last, m, init[i]);
            }
          }
        }
        last
      else m
  }

  /** The except clause's report of an exception, with e naming its class: `Prediction failed: {e}`. */
  function Raised(e: string): string {
    "Prediction failed: " + e
  }

  /** The dictionary predict_signal returns: an error, or the signal (without its timestamp). */
  datatype Prediction =
    | Failed(error: string)
    | Signal(symbol: string, timeframe: string, action: Action, riskAdjusted: Action, confidence: Num,
             sell: Num, hold: Num, buy: Num, userFeatures: Option<map<string, real>>)

  /**
   * The network on one window: one output row, its arg-max mapped to an
   * action, the softmax's largest entry as confidence, the first three
   * probabilities as sell, hold and buy. Shapes the code cannot handle
   * raise, reported as a failed prediction.
   */
  function Classify<P>(env: LiveEnv<P>, p: P, w: seq<seq<Num>>, symbol: string, timeframe: string,
                       userFeatures: Option<map<string, real>>): (r: Prediction)
    ensures r.Signal? ==> var out := env.forward(p, [w]);
              && |out| == 1 && out[0] != [] && ArgMax(out[0]) < 3
              && r.action == ActionOf(ArgMax(out[0]))
              && var probs := env.softmax(out[0]);
                 && |probs| >= 3
                 && (r.confidence.NaN? <==> RowHasNaN(probs))
                 && (!r.confidence.NaN? ==> r.confidence in probs && forall i :: 0 <= i < |probs| ==> Le(probs[i], r.confidence))
                 && r.sell == probs[0] && r.hold == probs[1] && r.buy == probs[2]
    ensures r.Signal? ==> r.riskAdjusted == ApplyRiskAdjustment(r.action, r.confidence, RiskTolerance(userFeatures))
    ensures r.Signal? ==> r.symbol == symbol && r.timeframe == timeframe && r.userFeatures == userFeatures
    ensures r.Failed? ==> r.error in {Raised("RuntimeError"), Raised("KeyError"), Raised("IndexError")}
  {
    var out := env.forward(p, [w]);
    if |out| != 1 || out[0] == [] then Failed(Raised("RuntimeError"))
    else
      var probs := env.softmax(out[0]);
      var k := ArgMax(out[0]);
      if probs == [] then Failed(Raised("RuntimeError"))
      else if k >= 3 then Failed(Raised("KeyError"))
      else if |probs| < 3 then Failed(Raised("IndexError"))
      else
        var confidence := MaxProb(probs);
        var action := ActionOf(k);
        Signal(symbol, timeframe, action, ApplyRiskAdjustment(action, confidence, RiskTolerance(userFeatures)),
               confidence, probs[0], probs[1], probs[2], userFeatures)
  }

  /** torch.softmax's behaviour on NaN: a row with a NaN logit gives NaN probabilities. */
  ghost predicate SoftmaxKeepsNaN<P>(env: LiveEnv<P>) {
    forall row :: RowHasNaN(row) ==> RowHasNaN(env.softmax(row))
  }

  /**
   * A NaN among the network's outputs (a NaN feature, such as price_position
   * on a bar with high == low, reaches the live window unfiltered) makes the
   * confidence NaN and the action that of the first NaN class; from
   * tolerance 4 up that action comes back unadjusted.
   */
  lemma NaNOutputKeepsTrade<P>(env: LiveEnv<P>, p: P, w: seq<seq<Num>>, symbol: string, timeframe: string,
                               userFeatures: Option<map<string, real>>)
    requires SoftmaxKeepsNaN(env) && RiskTolerance(userFeatures) >= 4.0
    ensures var r := Classify(env, p, w, symbol, timeframe, userFeatures);
            var out := env.forward(p, [w]);
            r.Signal? && RowHasNaN(out[0]) ==>
              && r.confidence.NaN? && r.riskAdjusted == r.action
              && exists k :: 0 <= k < 3 && k < |out[0]| && out[0][k].NaN? && r.action == ActionOf(k)
  {
    var r := Classify(env, p, w, symbol, timeframe, userFeatures);
    var out := env.forward(p, [w]);
    if r.Signal? && RowHasNaN(out[0]) {
      var k := ArgMax(out[0]);
      assert out[0][k].NaN? && r.action == ActionOf(k);
    }
  }

  /** The try block of predict_signal, once the network is cached. */
  function Predicted<P>(c: Cache<P>, env: LiveEnv<P>, df: Table, symbol: string, timeframe: string,
                        userFeatures: Option<map<string, real>>): Prediction
    requires Key(symbol, timeframe) in c.models
  {
    var k := Key(symbol, timeframe);
    Answer(LiveFeatures(df, env.lib, c.scalers, k), env, c.models[k], symbol, timeframe, userFeatures)
  }

  /** The answer for the features prepare_live_features gave, or the exception it raised. */
  function Answer<P>(f: Result<Option<seq<seq<Num>>>>, env: LiveEnv<P>, p: P, symbol: string, timeframe: string,
                     userFeatures: Option<map<string, real>>): (r: Prediction)
    ensures r == Failed("Insufficient data for prediction") <==> f == Ok(None)
  {
    match f
    case Err(e) => Reported(e); Failed(Raised(e))
    case Ok(None) => Failed("Insufficient data for prediction")
    case Ok(Some(w)) =>
      Reported("RuntimeError");
      Reported("KeyError");
      Reported("IndexError");
      Classify(env, p, w, symbol, timeframe, userFeatures)
  }

  /**
   * What the try block answers when it cannot classify: ValueError without
   * the OHLCV columns, and 'Insufficient data for prediction' exactly when
   * there are fewer rows than one window or no cached scaler.
   */
  lemma PredictedFailures<P>(c: Cache<P>, env: LiveEnv<P>, df: Table, symbol: string, timeframe: string,
                             userFeatures: Option<map<string, real>>)
    requires Key(symbol, timeframe) in c.models
    ensures var r := Predicted(c, env, df, symbol, timeframe, userFeatures);
            && (!Indicators.HasRequired(df) ==> r == Failed(Raised("ValueError")))
            && (r == Failed("Insufficient data for prediction")
                <==> Indicators.HasRequired(df) && (df.rows < MlConfig.SequenceLength || Key(symbol, timeframe) !in c.scalers))
  {
    var k := Key(symbol, timeframe);
    var f := LiveFeatures(df, env.lib, c.scalers, k);
    assert Predicted(c, env, df, symbol, timeframe, userFeatures) == Answer(f, env, c.models[k], symbol, timeframe, userFeatures);
  }

  /**
   * With the OHLCV columns present the answer comes from the live window of
   * the indicator frame: a transform the scaler refuses fails with
   * ValueError, a window is classified by the network.
   */
  lemma PredictedSignal<P>(c: Cache<P>, env: LiveEnv<P>, df: Table, symbol: string, timeframe: string,
                           userFeatures: Option<map<string, real>>)
    requires Key(symbol, timeframe) in c.models && Indicators.HasRequired(df)
    ensures var t := Indicators.ComputeAllIndicators(df, env.lib).value;
            var w := LiveWindow(t, c.scalers, Key(symbol, timeframe));
            var r := Predicted(c, env, df, symbol, timeframe, userFeatures);
            && (w.Err? ==> r == Failed(Raised("ValueError")))
            && (w.Ok? && w.value.Some? ==>
                  r == Classify(env, c.models[Key(symbol, timeframe)], w.value.value, symbol, timeframe, userFeatures))
  {
    var k := Key(symbol, timeframe);
    var f := LiveFeatures(df, env.lib, c.scalers, k);
    assert f == LiveWindow(Indicators.ComputeAllIndicators(df, env.lib).value, c.scalers, k);
  }

  /** A message the except clause builds never reads 'Insufficient data for prediction'. */
  lemma Reported(e: string)
    ensures Raised(e) != "Insufficient data for prediction"
  {
    assert Raised(e)[0] == 'P';
  }

  /**
   * predict_signal as a state transition: load only on a cache miss; a
   * failed load reports that the model is not available and changes nothing.
   */
  function PredictStep<P>(c: Cache<P>, files: Files<P>, env: LiveEnv<P>, modelType: string, df: Table,
                          symbol: string, timeframe: string, userFeatures: Option<map<string, real>>)
    : (r: (Prediction, Cache<P>))
    ensures Key(symbol, timeframe) in c.models ==> r == (Predicted(c, env, df, symbol, timeframe, userFeatures), c)
    ensures Key(symbol, timeframe) !in c.models ==>
              var l := Loaded(c, files, env, modelType, symbol, timeframe);
              && (l.None? ==> r == (Failed("Model not available"), c))
              && (l.Some? ==> Key(symbol, timeframe) in l.value.models
                              && r == (Predicted(l.value, env, df, symbol, timeframe, userFeatures), l.value))
  {
    var k := Key(symbol, timeframe);
    if k in c.models then (Predicted(c, env, df, symbol, timeframe, userFeatures), c)
    else
      match Loaded(c, files, env, modelType, symbol, timeframe)
      case None => (Failed("Model not available"), c)
      case Some(c') => (Predicted(c', env, df, symbol, timeframe, userFeatures), c')
  }

  /**
   * Fewer rows than one window (with the OHLCV columns present) answer
   * 'Insufficient data for prediction' whenever the network is cached or
   * loads; only a failed load answers otherwise.
   */
  lemma TooFewRowsInsufficient<P>(c: Cache<P>, files: Files<P>, env: LiveEnv<P>, modelType: string, df: Table,
                                  symbol: string, timeframe: string, userFeatures: Option<map<string, real>>)
    requires Indicators.HasRequired(df) && df.rows < MlConfig.SequenceLength
    ensures var r := PredictStep(c, files, env, modelType, df, symbol, timeframe, userFeatures).0;
            r == Failed("Insufficient data for prediction")
            <==> Key(symbol, timeframe) in c.models || Loaded(c, files, env, modelType, symbol, timeframe).Some?
  {
  }

  /** batch_predict: predict_signal on each item in order, each seeing the caches the earlier ones left. */
  function BatchStep<P>(c: Cache<P>, files: Files<P>, env: LiveEnv<P>, modelType: string,
                        items: seq<(string, string, Table)>, userFeatures: Option<map<string, real>>)
    : (r: (seq<Prediction>, Cache<P>))
    ensures |r.0| == |items|
  {
    if items == [] then ([], c)
    else
      var (done, c1) := BatchStep(c, files, env, modelType, items[..|items| - 1], userFeatures);
      var (symbol, timeframe, df) := items[|items| - 1];
      var (p, c2) := PredictStep(c1, files, env, modelType, df, symbol, timeframe, userFeatures);
      (done + [p], c2)
  }

  /** One more item: the batch so far, then that item's prediction on the caches it left. */
  lemma BatchStepLast<P>(c: Cache<P>, files: Files<P>, env: LiveEnv<P>, modelType: string,
                         items: seq<(string, string, Table)>, userFeatures: Option<map<string, real>>, i: nat)
    requires i < |items|
    ensures var (done, c1) := BatchStep(c, files, env, modelType, items[..i], userFeatures);
            var (p, c2) := PredictStep(c1, files, env, modelType, items[i].2, items[i].0, items[i].1, userFeatures);
            BatchStep(c, files, env, modelType, items[..i + 1], userFeatures) == (done + [p], c2)
  {
    assert items[..i + 1][..i] == items[..i];
  }

  /** Predictions only ever add to the caches: an entry, once loaded, stays. */
  lemma {:induction false} BatchKeepsCache<P>(c: Cache<P>, files: Files<P>, env: LiveEnv<P>, modelType: string,
                                              items: seq<(string, string, Table)>, userFeatures: Option<map<string, real>>, k: string)
    requires k in c.models
    ensures var c' := BatchStep(c, files, env, modelType, items, userFeatures).1;
            k in c'.models && c'.models[k] == c.models[k]
  {
    if items != [] {
      BatchKeepsCache(c, files, env, modelType, items[..|items| - 1], userFeatures, k);
    }
  }

  /** A model trained and saved for this symbol, timeframe and model type is the one load_model caches. */
  lemma SavedModelLoads<P>(c: Cache<P>, files: Files<P>, env: LiveEnv<P>, modelType: string, symbol: string, timeframe: string,
                           state: P)
    requires KnownType(modelType) && ScalerPath(symbol, timeframe) in files.scalers
    requires var spec := CreateModel(modelType, |MlConfig.Features|, Models.ModelConfig).value; env.loads(spec, state)
    ensures var saved := files.checkpoints[TrainModel.ModelPath(symbol, timeframe, modelType) :=
                                          TrainModel.Checkpoint(state, modelType, symbol, timeframe)];
            var r := Loaded(c, Files(saved, files.scalers), env, modelType, symbol, timeframe);
            r.Some? && r.value.models[Key(symbol, timeframe)] == state
  {
  }

  class LivePredictor<P> {
    const modelType: string
    /** Loaded networks, by `{symbol}_{timeframe}`. */
    var models: map<string, P>
    /** Loaded scalers, by `{symbol}_{timeframe}`. */
    var scalers: map<string, Preprocess.Scaler>

    constructor(modelType: string)
      ensures this.modelType == modelType && models == map[] && scalers == map[]
    {
      this.modelType := modelType;
      models, scalers := map[], map[];
    }

    /** load_model: True with both caches updated, or False with both unchanged. */
    method LoadModel(symbol: string, timeframe: string, files: Files<P>, env: LiveEnv<P>) returns (ok: bool)
      modifies this
      ensures ok <==> Loaded(Cache(old(models), old(scalers)), files, env, modelType, symbol, timeframe).Some?
      ensures ok ==> Cache(models, scalers) == Loaded(Cache(old(models), old(scalers)), files, env, modelType, symbol, timeframe).value
      ensures !ok ==> models == old(models) && scalers == old(scalers)
    {
      var mp, sp := TrainModel.ModelPath(symbol, timeframe, modelType), ScalerPath(symbol, timeframe);
      if mp !in files.checkpoints || sp !in files.scalers {
        return false;
      }
      var spec := CreateModel(modelType, |MlConfig.Features|, Models.ModelConfig);
      if spec.Err? || !env.loads(spec.value, files.checkpoints[mp].state) {
        return false;
      }
      var k := Key(symbol, timeframe);
      models := models[k := files.checkpoints[mp].state];
      scalers := scalers[k := files.scalers[sp]];
      ok := true;
    }

    /** predict_signal: the prediction and the caches follow PredictStep. */
    method PredictSignal(df: Table, symbol: string, timeframe: string, userFeatures: Option<map<string, real>>,
                         files: Files<P>, env: LiveEnv<P>) returns (r: Prediction)
      modifies this
      ensures (r, Cache(models, scalers))
              == PredictStep(Cache(old(models), old(scalers)), files, env, modelType, df, symbol, timeframe, userFeatures)
    {
      var k := Key(symbol, timeframe);
      if k !in models {
        var ok := LoadModel(symbol, timeframe, files, env);
        if !ok {
          return Failed("Model not available");
        }
      }
      r := Predicted(Cache(models, scalers), env, df, symbol, timeframe, userFeatures);
    }

    /** One pass of batch_predict's loop: the i-th item's prediction appended to those before it. */
    method PredictItem(items: seq<(string, string, Table)>, i: nat, rs: seq<Prediction>, userFeatures: Option<map<string, real>>,
                       files: Files<P>, env: LiveEnv<P>, ghost c0: Cache<P>) returns (rs': seq<Prediction>)
      requires i < |items|
      requires (rs, Cache(models, scalers)) == BatchStep(c0, files, env, modelType, items[..i], userFeatures)
      modifies this
      ensures (rs', Cache(models, scalers)) == BatchStep(c0, files, env, modelType, items[..i + 1], userFeatures)
    {
      BatchStepLast(c0, files, env, modelType, items, userFeatures, i);
      var r := PredictSignal(items[i].2, items[i].0, items[i].1, userFeatures, files, env);
      rs' := rs + [r];
    }

    /** batch_predict: one prediction per item, in order. */
    method BatchPredict(items: seq<(string, string, Table)>, userFeatures: Option<map<string, real>>,
                        files: Files<P>, env: LiveEnv<P>) returns (rs: seq<Prediction>)
      modifies this
      ensures (rs, Cache(models, scalers))
              == BatchStep(Cache(old(models), old(scalers)), files, env, modelType, items, userFeatures)
    {
      rs := [];
      var i := 0;
      ghost var c0 := Cache(old(models), old(scalers));
      while i < |items|
        invariant 0 <= i <= |items|
        invariant (rs, Cache(models, scalers)) == BatchStep(c0, files, env, modelType, items[..i], userFeatures)
      {
        rs := PredictItem(items, i, rs, userFeatures, files, env, c0);
        i := i + 1;
      }
      assert items[..i] == items;
    }
  }
}
