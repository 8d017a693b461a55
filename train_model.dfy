/**
 * The training driver (ml_model/src/train_model.py): preparing one symbol's
 * data, the epoch loop with early stopping and checkpointing, and the final
 * evaluation of the last-epoch network on the test part. The networks, the
 * optimizer, the learning-rate scheduler and the softmax are the foreign
 * functions of an `Env`; the files written are maps from path to content.
 */
module TrainModel {
  import opened Numeric
  import opened Models
  import Preprocess
  import Indicators
  import MlConfig

  // ---------------------------------------------------------------- early stopping

  /** best_val_acc, patience_counter and the epoch of the last checkpoint. */
  datatype Tracker = Tracker(best: real, patience: nat, bestEpoch: Option<nat>)

  /** The early-stopping bookkeeping after the epochs with the given validation accuracies. */
  function Track(accs: seq<real>): (t: Tracker)
    ensures t.bestEpoch.Some? ==> t.bestEpoch.value < |accs|
  {
    if accs == [] then Tracker(0.0, 0, None)
    else
      var t := Track(accs[..|accs| - 1]);
      var a := accs[|accs| - 1];
      if a > t.best then Tracker(a, 0, Some(|accs| - 1))
      else Tracker(t.best, t.patience + 1, t.bestEpoch)
  }

  predicate Stopped(accs: seq<real>) {
    Track(accs).patience >= MlConfig.EarlyStoppingPatience
  }

  /**
   * best_val_acc is the larger of 0 and the best validation accuracy, and
   * the checkpoint is taken at the first epoch that reaches it; no epoch
   * with a positive accuracy means no checkpoint and a best of 0.
   */
  lemma {:induction false} TrackBest(accs: seq<real>)
    ensures var t := Track(accs);
            && t.best >= 0.0
            && (forall i :: 0 <= i < |accs| ==> accs[i] <= t.best)
            && (t.bestEpoch.None? ==> t.best == 0.0)
            && (t.bestEpoch.Some? ==> var e := t.bestEpoch.value;
                  accs[e] == t.best > 0.0 && forall j :: 0 <= j < e ==> accs[j] < t.best)
  {
    if accs != [] {
      var init := accs[..|accs| - 1];
      TrackBest(init);
      assert forall i :: 0 <= i < |init| ==> accs[i] == init[i];
    }
  }

  /** patience_counter counts the epochs since the last checkpoint (since the start when there is none). */
  lemma {:induction false} TrackPatience(accs: seq<real>)
    ensures var t := Track(accs);
            t.patience == |accs| - (if t.bestEpoch.None? then 0 else t.bestEpoch.value + 1)
  {
    if accs != [] {
      TrackPatience(accs[..|accs| - 1]);
    }
  }

  // ---------------------------------------------------------------- loaders

  /** One item of a TradingDataset: a window and its (float) label. */
  type Example = (seq<seq<real>>, Num)

  /** TradingDataset(X, y) over arrays of the same length. */
  function Pairs(x: seq<seq<seq<real>>>, y: seq<Num>): (r: seq<Example>)
    requires |x| == |y|
    ensures |r| == |x| && forall k :: 0 <= k < |x| ==> r[k] == (x[k], y[k])
  {
    seq(|x|, k requires 0 <= k < |x| => (x[k], y[k]))
  }

  /** torch.LongTensor of a float label truncates toward zero. */
  function ClassOf(y: Num): int {
    match y
    case Fin(v) => if v >= 0.0 then v.Floor else -((-v).Floor)
    case _ => 0
  }

  /** The labels generate_labels writes (0.0, 1.0, 2.0) become the classes 0, 1 and 2. */
  lemma ClassOfLabel(k: int)
    requires 0 <= k <= 2
    ensures ClassOf(Fin(k as real)) == k
  {
  }

  function AsNums(w: seq<seq<real>>): (r: seq<seq<Num>>)
    ensures |r| == |w|
  {
    seq(|w|, i requires 0 <= i < |w| => seq(|w[i]|, j requires 0 <= j < |w[i]| => Fin(w[i][j])))
  }

  /** The collated batch of some examples: stacked windows and integer labels. */
  function ToBatch(ex: seq<Example>): (b: Batch)
    ensures |b.x| == |ex| && |b.y| == |ex|
  {
    Batch(seq(|ex|, k requires 0 <= k < |ex| => AsNums(ex[k].0)),
          seq(|ex|, k requires 0 <= k < |ex| => ClassOf(ex[k].1)))
  }

  /** A DataLoader without shuffling: consecutive batches of `size` examples, the last one possibly shorter. */
  function Loader(ex: seq<Example>, size: nat): (r: seq<Batch>)
    requires size > 0
    ensures forall i :: 0 <= i < |r| ==> 0 < |r[i].y| <= size && |r[i].x| == |r[i].y|
    decreases |ex|
  {
    if ex == [] then []
    else if |ex| <= size then [ToBatch(ex)]
    else [ToBatch(ex[..size])] + Loader(ex[size..], size)
  }

  /** All the batches of a loader, concatenated. */
  function Concat(bs: seq<Batch>): Batch {
    if bs == [] then Batch([], [])
    else Batch(bs[0].x + Concat(bs[1..]).x, bs[0].y + Concat(bs[1..]).y)
  }

  /** Collating the two halves of a list of examples and joining them collates the whole list. */
  lemma ToBatchSplit(ex: seq<Example>, k: nat)
    requires k <= |ex|
    ensures ToBatch(ex) == Batch(ToBatch(ex[..k]).x + ToBatch(ex[k..]).x, ToBatch(ex[..k]).y + ToBatch(ex[k..]).y)
  {
    assert ToBatch(ex).x == ToBatch(ex[..k]).x + ToBatch(ex[k..]).x;
    assert ToBatch(ex).y == ToBatch(ex[..k]).y + ToBatch(ex[k..]).y;
  }

  /** The batches hold every example exactly once, in order. */
  lemma {:induction false} LoaderCovers(ex: seq<Example>, size: nat)
    requires size > 0
    ensures Concat(Loader(ex, size)) == ToBatch(ex)
    decreases |ex|
  {
    if |ex| > size {
      LoaderCovers(ex[size..], size);
      ToBatchSplit(ex, size);
      assert Loader(ex, size)[1..] == Loader(ex[size..], size);
    } else if ex != [] {
      var b := ToBatch(ex);
      assert Concat(Loader(ex, size)) == Batch(b.x + [], b.y + []);
      assert b.x + [] == b.x && b.y + [] == b.y;
    }
  }

  /** There are ceil(n / size) batches: the fewest whose capacity holds every example. */
  lemma {:induction false} LoaderCount(ex: seq<Example>, size: nat)
    requires size > 0
    ensures |ex| <= |Loader(ex, size)| * size < |ex| + size
    decreases |ex|
  {
    if |ex| > size {
      LoaderCount(ex[size..], size);
      var c := |Loader(ex[size..], size)|;
      assert |Loader(ex, size)| == c + 1;
      assert (c + 1) * size == c * size + size;
    }
  }

  /** The shuffled order of one epoch only draws indices of the dataset. */
  ghost predicate Draws(shuffle: nat -> seq<nat>, n: nat) {
    forall e: nat, k :: 0 <= k < |shuffle(e)| ==> shuffle(e)[k] < n
  }

  /** The training loader in one epoch: the examples in the sampler's order, then batched. */
  function TrainBatches(train: seq<Example>, size: nat, order: seq<nat>): seq<Batch>
    requires size > 0 && forall k :: 0 <= k < |order| ==> order[k] < |train|
  {
    Loader(seq(|order|, k requires 0 <= k < |order| => train[order[k]]), size)
  }

  /** The input tensors of the batches, as predict iterates them. */
  function Inputs(bs: seq<Batch>): seq<seq<seq<seq<Num>>>> {
    seq(|bs|, i requires 0 <= i < |bs| => bs[i].x)
  }

  // ---------------------------------------------------------------- the epoch loop

  /**
   * The foreign parts of training: the network's forward pass, the loss, one
   * optimizer step, and ReduceLROnPlateau's step on the validation loss.
   * `P` holds the network's weights together with the optimizer's state.
   */
  datatype Env<!P> = Env(
    forward: (P, seq<seq<seq<Num>>>) -> seq<seq<Num>>,
    criterion: (seq<seq<Num>>, seq<int>) -> Num,
    update: (P, Batch) -> P,
    schedule: (P, Num) -> P,
    softmax: seq<Num> -> seq<real>)

  /** What the loop needs: the foreign parts, the training examples, the batch size, the sampler and the validation loader. */
  datatype Setup<!P> = Setup(env: Env<P>, train: seq<Example>, size: nat, shuffle: nat -> seq<nat>, val: seq<Batch>)

  ghost predicate Ready<P>(s: Setup<P>) {
    s.size > 0 && Draws(s.shuffle, |s.train|)
  }

  /** The state after some epochs: the parameters, the three per-epoch lists and the parameters after each epoch. */
  datatype History<P> = History(params: P, trainLosses: seq<Num>, valLosses: seq<Num>, valAccs: seq<real>, states: seq<P>)

  /** The mean loss train_epoch reports. */
  function EpochLoss<P>(env: Env<P>, p: P, batches: seq<Batch>): Num {
    if batches == [] then Fin(0.0)
    else Div(TrainRun(p, batches, env.forward, env.criterion, env.update).0, Fin(|batches| as real))
  }

  /** One epoch: train, validate (which may raise), step the scheduler, record. */
  function EpochStep<P>(env: Env<P>, h: History<P>, batches: seq<Batch>, val: seq<Batch>): Result<History<P>> {
    var p1 := TrainRun(h.params, batches, env.forward, env.criterion, env.update).1;
    match EpochResult(ValidateRun(p1, val, env.forward, env.criterion), |val|)
    case Err(e) => Err(e)
    case Ok(v) =>
      var p2 := env.schedule(p1, v.0);
      Ok(History(p2, h.trainLosses + [EpochLoss(env, h.params, batches)], h.valLosses + [v.0],
                 h.valAccs + [v.1], h.states + [p2]))
  }

  /** The loop over range(n) from the initial parameters, leaving it once early stopping triggers. */
  function Epochs<P>(s: Setup<P>, p0: P, n: nat): Result<History<P>>
    requires Ready(s)
  {
    if n == 0 then Ok(History(p0, [], [], [], []))
    else
      match Epochs(s, p0, n - 1)
      case Err(e) => Err(e)
      case Ok(h) =>
        if Stopped(h.valAccs) then Ok(h)
        else EpochStep(s.env, h, TrainBatches(s.train, s.size, s.shuffle(n - 1)), s.val)
  }

  ghost predicate Recorded<P>(h: History<P>) {
    |h.trainLosses| == |h.valAccs| && |h.valLosses| == |h.valAccs| && |h.states| == |h.valAccs|
    && (h.states != [] ==> h.params == h.states[|h.states| - 1])
  }

  /**
   * Each list gets one entry per epoch run; at most n epochs run, fewer only
   * when early stopping triggered after the last one, and it triggered after
   * no earlier epoch.
   */
  lemma {:induction false} EpochsStop<P>(s: Setup<P>, p0: P, n: nat)
    requires Ready(s) && Epochs(s, p0, n).Ok?
    ensures var h := Epochs(s, p0, n).value;
            && Recorded(h)
            && |h.valAccs| <= n
            && (|h.valAccs| < n ==> Stopped(h.valAccs))
            && forall k :: 0 <= k < |h.valAccs| ==> !Stopped(h.valAccs[..k])
  {
    if n > 0 {
      EpochsStop(s, p0, n - 1);
      var h := Epochs(s, p0, n - 1).value;
      if !Stopped(h.valAccs) {
        var h' := Epochs(s, p0, n).value;
        assert h'.valAccs == h.valAccs + [h'.valAccs[|h.valAccs|]];
        assert h'.valAccs[..|h.valAccs|] == h.valAccs;
        forall k | 0 <= k < |h'.valAccs| ensures !Stopped(h'.valAccs[..k]) {
          if k < |h.valAccs| {
            assert h'.valAccs[..k] == h.valAccs[..k];
          }
        }
      }
    }
  }

  /** One more epoch after an error or an early stop changes nothing. */
  lemma EpochsAfterSettled<P>(s: Setup<P>, p0: P, m: nat)
    requires Ready(s) && m > 0
    requires Epochs(s, p0, m - 1).Err? || Stopped(Epochs(s, p0, m - 1).value.valAccs)
    ensures Epochs(s, p0, m) == Epochs(s, p0, m - 1)
  {
  }

  /** After an error or an early stop, further epochs of the range change nothing. */
  lemma {:induction false} EpochsSettled<P>(s: Setup<P>, p0: P, n: nat, m: nat)
    requires Ready(s) && n <= m
    requires Epochs(s, p0, n).Err? || Stopped(Epochs(s, p0, n).value.valAccs)
    ensures Epochs(s, p0, m) == Epochs(s, p0, n)
    decreases m - n
  {
    if n < m {
      EpochsSettled(s, p0, n, m - 1);
      EpochsAfterSettled(s, p0, m);
    }
  }

  /** The loop's next epoch, when the loop has neither failed nor stopped. */
  lemma EpochsNext<P>(s: Setup<P>, p0: P, n: nat, h: History<P>)
    requires Ready(s) && Epochs(s, p0, n) == Ok(h) && !Stopped(h.valAccs)
    ensures Epochs(s, p0, n + 1) == EpochStep(s.env, h, TrainBatches(s.train, s.size, s.shuffle(n)), s.val)
  {
  }

  /** One more epoch: a strict improvement resets patience and moves the checkpoint; otherwise patience grows. */
  lemma TrackStep(accs: seq<real>, a: real)
    ensures var t := Track(accs);
            Track(accs + [a]) == if a > t.best then Tracker(a, 0, Some(|accs|)) else Tracker(t.best, t.patience + 1, t.bestEpoch)
  {
    assert (accs + [a])[..|accs|] == accs;
  }

  // ---------------------------------------------------------------- results and files

  datatype Checkpoint<P> = Checkpoint(state: P, modelType: string, symbol: string, timeframe: string)

  /** The results dictionary without the classification report. */
  datatype Results = Results(
    modelType: string, symbol: string, timeframe: string,
    bestValAcc: real, testAcc: real, testLoss: Num,
    trainLosses: seq<Num>, valLosses: seq<Num>, valAccuracies: seq<real>)

  function ModelPath(symbol: string, timeframe: string, modelType: string): string {
    MlConfig.ModelsDir + symbol + "_" + timeframe + "_" + modelType + ".pth"
  }

  function ResultsPath(symbol: string, timeframe: string, modelType: string): string {
    MlConfig.ResultsDir + symbol + "_" + timeframe + "_" + modelType + "_results.json"
  }

  function ProcessedPath(symbol: string, timeframe: string): string {
    MlConfig.ProcessedDataDir + symbol + "_" + timeframe + "_processed.npz"
  }

  /** The checkpoint files after the loop: the parameters of the best epoch, when there is one, at the model's path. */
  function CheckpointsAfter<P>(files: map<string, Checkpoint<P>>, h: History<P>,
                               modelType: string, symbol: string, timeframe: string): map<string, Checkpoint<P>>
  {
    var t := Track(h.valAccs);
    if t.bestEpoch.Some? && t.bestEpoch.value < |h.states| then
      files[ModelPath(symbol, timeframe, modelType) := Checkpoint(h.states[t.bestEpoch.value], modelType, symbol, timeframe)]
    else files
  }

  /**
   * The checkpoint files a loop that raised leaves behind: those written by
   * the epochs that completed before the one that raised. save_model writes
   * them as it goes, so they stay on disk.
   */
  ghost predicate FailedRunLeaves<P>(s: Setup<P>, p0: P, n: nat, before: map<string, Checkpoint<P>>,
                                     after: map<string, Checkpoint<P>>, modelType: string, symbol: string, timeframe: string)
    requires Ready(s)
  {
    exists m: nat :: m < n && Epochs(s, p0, m).Ok? && Epochs(s, p0, m + 1).Err?
                && after == CheckpointsAfter(before, Epochs(s, p0, m).value, modelType, symbol, timeframe)
  }

  /** A recorded epoch writes the checkpoint exactly when its accuracy beats the best so far. */
  lemma CheckpointStep<P>(files: map<string, Checkpoint<P>>, h: History<P>, loss: Num, vloss: Num, acc: real, p: P,
                          modelType: string, symbol: string, timeframe: string)
    requires |h.states| == |h.valAccs|
    ensures var h' := History(p, h.trainLosses + [loss], h.valLosses + [vloss], h.valAccs + [acc], h.states + [p]);
            var before := CheckpointsAfter(files, h, modelType, symbol, timeframe);
            CheckpointsAfter(files, h', modelType, symbol, timeframe)
            == if acc > Track(h.valAccs).best
               then before[ModelPath(symbol, timeframe, modelType) := Checkpoint(p, modelType, symbol, timeframe)]
               else before
  {
    TrackStep(h.valAccs, acc);
    var h' := History(p, h.trainLosses + [loss], h.valLosses + [vloss], h.valAccs + [acc], h.states + [p]);
    var t := Track(h.valAccs);
    if t.bestEpoch.Some? {
      assert h'.states[t.bestEpoch.value] == h.states[t.bestEpoch.value];
    }
  }

  /** The loop's history and the test loss and accuracy of the last-epoch network. */
  datatype Outcome<P> = Outcome(h: History<P>, testLoss: Num, testAcc: real)

  function Report<P>(modelType: string, symbol: string, timeframe: string, o: Outcome<P>): Results {
    Results(modelType, symbol, timeframe, Track(o.h.valAccs).best, o.testAcc, o.testLoss,
            o.h.trainLosses, o.h.valLosses, o.h.valAccs)
  }

  /** `epochs or MODEL_CONFIG['epochs']`, then range() of it. */
  function EpochBudget(epochs: Option<int>): nat {
    match epochs
    case None => MlConfig.Epochs
    case Some(e) => if e == 0 then MlConfig.Epochs else if e < 0 then 0 else e
  }

  /** `batch_size or MODEL_CONFIG['batch_size']`. */
  function BatchSize(batchSize: Option<int>): int {
    match batchSize
    case None => MlConfig.BatchSize
    case Some(b) => if b == 0 then MlConfig.BatchSize else b
  }

  /** `X_train.shape[-1]`: the width of the windows' rows. */
  function InputSize(x: seq<seq<seq<real>>>): nat {
    if x != [] && x[0] != [] then |x[0][0]| else 0
  }

  /** The three parts have as many labels as windows. */
  predicate Consistent(d: Preprocess.TrainingData) {
    |d.xTrain| == |d.yTrain| && |d.xVal| == |d.yVal| && |d.xTest| == |d.yTest|
  }

  /** prepare_training_data produces consistent parts. */
  lemma PreparedConsistent(config: Preprocess.Config, samples: seq<Preprocess.Sample>, width: nat,
                           split: Preprocess.Splitter, fit: Preprocess.Fit)
    requires Preprocess.Rectangular(samples, width)
    requires Preprocess.SplitAndScale(config, samples, width, split, fit).Ok?
    ensures Consistent(Preprocess.SplitAndScale(config, samples, width, split, fit).value)
  {
  }

  /** The loop's setup from the prepared data. */
  function SetupOf<P>(d: Preprocess.TrainingData, size: nat, env: Env<P>, shuffle: nat -> seq<nat>): (s: Setup<P>)
    requires Consistent(d) && size > 0
  {
    Setup(env, Pairs(d.xTrain, d.yTrain), size, shuffle, Loader(Pairs(d.xVal, d.yVal), size))
  }

  /** The arg-max class of every output row, as predict returns them. */
  function Predictions(out: seq<seq<Num>>): (r: seq<nat>)
    requires NonEmptyRows(out)
    ensures |r| == |out| && forall i :: 0 <= i < |out| ==> r[i] == ArgMax(out[i]) && r[i] < |out[i]|
  {
    seq(|out|, i requires 0 <= i < |out| => ArgMax(out[i]))
  }

  /**
   * The classes classification_report sees without a `labels` argument:
   * every value of y_test together with every predicted class.
   */
  function ReportLabels(yTest: seq<Num>, predictions: seq<nat>): set<Num> {
    (set y | y in yTest) + (set k | k in predictions :: Fin(k as real))
  }

  /**
   * With labels and predictions among the three classes, the report gets
   * its three target names' worth of classes iff each class occurs in
   * y_test or among the predictions.
   */
  lemma ReportLabelsCount(yTest: seq<Num>, predictions: seq<nat>)
    requires forall y :: y in yTest ==> y == Fin(0.0) || y == Fin(1.0) || y == Fin(2.0)
    requires forall k :: k in predictions ==> k < 3
    ensures |ReportLabels(yTest, predictions)| == 3
            <==> (Fin(0.0) in yTest || 0 in predictions)
                 && (Fin(1.0) in yTest || 1 in predictions)
                 && (Fin(2.0) in yTest || 2 in predictions)
  {
    var s := ReportLabels(yTest, predictions);
    forall x | x in s ensures x == Fin(0.0) || x == Fin(1.0) || x == Fin(2.0) {
      if x !in yTest {
        var k :| k in predictions && x == Fin(k as real);
      }
    }
    ClassInReport(yTest, predictions, 0);
    ClassInReport(yTest, predictions, 1);
    ClassInReport(yTest, predictions, 2);
    CardThree(s, Fin(0.0), Fin(1.0), Fin(2.0));
  }

  /** Class k is among the report's classes iff y_test holds it or it is predicted. */
  lemma ClassInReport(yTest: seq<Num>, predictions: seq<nat>, k: nat)
    ensures Fin(k as real) in ReportLabels(yTest, predictions) <==> Fin(k as real) in yTest || k in predictions
  {
    if Fin(k as real) in ReportLabels(yTest, predictions) && Fin(k as real) !in yTest {
      var j :| j in predictions && Fin(k as real) == Fin(j as real);
    }
  }

  /** A subset of three distinct values has three elements iff it holds all of them. */
  lemma CardThree<T>(s: set<T>, a: T, b: T, c: T)
    requires a != b && b != c && a != c
    requires forall x :: x in s ==> x == a || x == b || x == c
    ensures |s| == 3 <==> a in s && b in s && c in s
  {
    var all := {a, b, c};
    assert |all| == 3;
    if a in s && b in s && c in s {
      assert s == all;
    } else {
      var x :| x in all && x !in s;
      var rest := all - {x};
      assert s <= rest;
      assert rest == s + (rest - s);
    }
  }

  /**
   * The final evaluation: validate_epoch on the test loader, predict on it
   * (which raises on an empty output row), then classification_report with
   * three target names, which raises ValueError unless y_test and the
   * predictions together hold exactly three classes.
   */
  function Evaluation<P>(env: Env<P>, h: History<P>, test: seq<Batch>, yTest: seq<Num>): (r: Result<Outcome<P>>)
    ensures r.Ok? <==> EpochResult(ValidateRun(h.params, test, env.forward, env.criterion), |test|).Ok?
                       && var out := Outputs(h.params, Inputs(test), env.forward);
                          NonEmptyRows(out) && |ReportLabels(yTest, Predictions(out))| == 3
    ensures r.Ok? ==> EpochResult(ValidateRun(h.params, test, env.forward, env.criterion), |test|)
                      == Ok((r.value.testLoss, r.value.testAcc)) && r.value.h == h
  {
    match EpochResult(ValidateRun(h.params, test, env.forward, env.criterion), |test|)
    case Err(e) => Err(e)
    case Ok(t) =>
      var out := Outputs(h.params, Inputs(test), env.forward);
      if !NonEmptyRows(out) then Err("RuntimeError")
      else if |ReportLabels(yTest, Predictions(out))| != 3 then Err("ValueError")
      else Ok(Outcome(h, t.0, t.1))
  }

  /** Every output row has three classes, and none has its arg-max at class k. */
  predicate ThreeWayNeverPredicts(out: seq<seq<Num>>, k: nat) {
    forall i :: 0 <= i < |out| ==> |out[i]| == 3 && ArgMax(out[i]) != k
  }

  /**
   * A class that is neither in y_test nor ever predicted by a three-way
   * network (a dataset without a Sell label and a network that never
   * predicts Sell, say) makes the evaluation raise ValueError.
   */
  lemma UnseenClassRaises<P>(env: Env<P>, h: History<P>, test: seq<Batch>, yTest: seq<Num>, k: nat)
    requires forall y :: y in yTest ==> y == Fin(0.0) || y == Fin(1.0) || y == Fin(2.0)
    requires ThreeWayNeverPredicts(Outputs(h.params, Inputs(test), env.forward), k)
    requires k < 3 && Fin(k as real) !in yTest
    ensures Evaluation(env, h, test, yTest).Err?
  {
    var out := Outputs(h.params, Inputs(test), env.forward);
    if Evaluation(env, h, test, yTest).Ok? {
      var preds := Predictions(out);
      forall i | 0 <= i < |preds| ensures preds[i] < 3 && preds[i] != k {
        assert |out[i]| == 3 && ArgMax(out[i]) != k;
      }
      ReportLabelsCount(yTest, preds);
    }
  }

  /**
   * train_model as a function of its inputs: a bad batch size or model type
   * raises before any epoch; otherwise the loop, then one evaluation on the
   * test part.
   */
  function Training<P>(modelType: string, d: Preprocess.TrainingData, epochs: Option<int>, batchSize: Option<int>,
                       env: Env<P>, init: ModelSpec -> P, shuffle: nat -> seq<nat>): Result<Outcome<P>>
    requires Consistent(d) && Draws(shuffle, |d.xTrain|)
  {
    var size := BatchSize(batchSize);
    if size <= 0 then Err("ValueError")
    else
      match CreateModel(modelType, InputSize(d.xTrain), Models.ModelConfig)
      case Err(e) => Err(e)
      case Ok(spec) =>
        match Epochs(SetupOf(d, size, env, shuffle), init(spec), EpochBudget(epochs))
        case Err(e) => Err(e)
        case Ok(h) => Evaluation(env, h, Loader(Pairs(d.xTest, d.yTest), size), d.yTest)
  }

  /** DataFrame.empty: no rows or no columns. */
  predicate EmptyFrame(raw: Preprocess.RawData) {
    raw.bars == [] || raw.columns == {}
  }

  /**
   * What prepare_data returns given what prepare_training_data would return:
   * the empty dictionary (None) for an empty frame, a failed preparation or
   * one that raises, and the prepared data otherwise.
   */
  function PrepareOutcome(raw: Preprocess.RawData, prepared: Result<Option<Preprocess.TrainingData>>)
    : (r: Option<Preprocess.TrainingData>)
    ensures r.Some? <==> !EmptyFrame(raw) && prepared.Ok? && prepared.value.Some?
    ensures r.Some? ==> prepared == Ok(r)
  {
    if EmptyFrame(raw) then None
    else
      match prepared
      case Err(_) => None
      case Ok(d) => d
  }

  class TradingModelTrainer<P> {
    const modelType: string
    const preprocessor: Preprocess.DataPreprocessor
    /** The checkpoint files written under the models directory. */
    var checkpoints: map<string, Checkpoint<P>>
    /** The results files written under the results directory. */
    var savedResults: map<string, Results>
    /** The processed-data files written under the processed-data directory. */
    var processed: map<string, Preprocess.TrainingData>

    constructor(modelType: string)
      ensures this.modelType == modelType && fresh(preprocessor)
      ensures preprocessor.config == Preprocess.ModelConfig && preprocessor.scaler == None
      ensures checkpoints == map[] && savedResults == map[] && processed == map[]
    {
      this.modelType := modelType;
      preprocessor := new Preprocess.DataPreprocessor(Preprocess.ModelConfig);
      checkpoints, savedResults, processed := map[], map[], map[];
    }

    /**
     * prepare_data: the prepared data, saved under the symbol and timeframe,
     * or None (the empty dictionary) with nothing saved.
     */
    method PrepareData(symbol: string, timeframe: string, raw: Preprocess.RawData, lib: Indicators.Library,
                       split: Preprocess.Splitter, fit: Preprocess.Fit) returns (r: Option<Preprocess.TrainingData>)
      modifies this, preprocessor
      ensures r == PrepareOutcome(raw, Preprocess.Prepared(preprocessor.config, raw, lib, split, fit))
      ensures r.Some? ==> processed == old(processed)[ProcessedPath(symbol, timeframe) := r.value]
                          && preprocessor.scaler == Some(r.value.scaler)
      ensures r.None? ==> processed == old(processed)
    {
      r := None;
      if !EmptyFrame(raw) {
        r := PrepareFrame(raw, lib, split, fit);
      }
      if r.Some? {
        processed := processed[ProcessedPath(symbol, timeframe) := r.value];
      }
    }

    /** The try block of prepare_data on a non-empty frame; only the preprocessor changes. */
    method PrepareFrame(raw: Preprocess.RawData, lib: Indicators.Library, split: Preprocess.Splitter, fit: Preprocess.Fit)
      returns (r: Option<Preprocess.TrainingData>)
      modifies preprocessor
      ensures r == PrepareOutcome(raw, Preprocess.Prepared(preprocessor.config, raw, lib, split, fit))
      ensures r.Some? ==> preprocessor.scaler == Some(r.value.scaler)
    {
      var data := preprocessor.PrepareTrainingData(raw, lib, split, fit);
      r := PrepareOutcome(raw, data);
    }

    /** save_model: the checkpoint file for this symbol, timeframe and model type is (over)written. */
    method SaveModel(state: P, symbol: string, timeframe: string)
      modifies this
      ensures checkpoints == old(checkpoints)[ModelPath(symbol, timeframe, modelType) := Checkpoint(state, modelType, symbol, timeframe)]
      ensures savedResults == old(savedResults) && processed == old(processed)
    {
      checkpoints := checkpoints[ModelPath(symbol, timeframe, modelType) := Checkpoint(state, modelType, symbol, timeframe)];
    }

    /** save_results: the results file for this symbol, timeframe and model type is (over)written. */
    method SaveResults(results: Results, symbol: string, timeframe: string)
      modifies this
      ensures savedResults == old(savedResults)[ResultsPath(symbol, timeframe, modelType) := results]
      ensures checkpoints == old(checkpoints) && processed == old(processed)
    {
      savedResults := savedResults[ResultsPath(symbol, timeframe, modelType) := results];
    }

    /**
     * train_model: the loop, the test evaluation of the last-epoch network
     * and the saved results. best_val_acc and the checkpoint come from the
     * validation accuracies alone.
     */
    method Train(d: Preprocess.TrainingData, symbol: string, timeframe: string, epochs: Option<int>, batchSize: Option<int>,
                 env: Env<P>, init: ModelSpec -> P, shuffle: nat -> seq<nat>) returns (r: Result<Results>)
      requires Consistent(d) && Draws(shuffle, |d.xTrain|)
      modifies this
      ensures r.Ok? <==> Training(modelType, d, epochs, batchSize, env, init, shuffle).Ok?
      ensures r.Ok? ==> var o := Training(modelType, d, epochs, batchSize, env, init, shuffle).value;
                        && r.value == Report(modelType, symbol, timeframe, o)
                        && checkpoints == CheckpointsAfter(old(checkpoints), o.h, modelType, symbol, timeframe)
                        && savedResults == old(savedResults)[ResultsPath(symbol, timeframe, modelType) := r.value]
      ensures r.Err? ==> savedResults == old(savedResults)
      ensures processed == old(processed)
      ensures var size := BatchSize(batchSize);
              size <= 0 || CreateModel(modelType, InputSize(d.xTrain), Models.ModelConfig).Err?
              ==> checkpoints == old(checkpoints)
      ensures var size := BatchSize(batchSize);
              var spec := CreateModel(modelType, InputSize(d.xTrain), Models.ModelConfig);
              size > 0 && spec.Ok? ==>
                var s := SetupOf(d, size, env, shuffle);
                var run := Epochs(s, init(spec.value), EpochBudget(epochs));
                && (run.Ok? ==> checkpoints == CheckpointsAfter(old(checkpoints), run.value, modelType, symbol, timeframe))
                && (run.Err? ==> FailedRunLeaves(s, init(spec.value), EpochBudget(epochs), old(checkpoints), checkpoints,
                                                 modelType, symbol, timeframe))
    {
      var size := BatchSize(batchSize);
      if size <= 0 {
        return Err("ValueError");
      }
      var spec := CreateModel(modelType, InputSize(d.xTrain), Models.ModelConfig);
      if spec.Err? {
        return Err(spec.error);
      }
      var s := SetupOf(d, size, env, shuffle);
      var trainer := new ModelTrainer(init(spec.value), env.forward);
      var h := RunEpochs(trainer, s, EpochBudget(epochs), symbol, timeframe);
      if h.Err? {
        return Err(h.error);
      }
      var test := Loader(Pairs(d.xTest, d.yTest), size);
      var o := Evaluate(trainer, env, h.value, test, d.yTest);
      if o.Err? {
        return Err(o.error);
      }
      r := Ok(Report(modelType, symbol, timeframe, o.value));
      SaveResults(r.value, symbol, timeframe);
    }

    /** The final validate_epoch, predict and classification_report on the test loader, with the parameters of the last epoch. */
    method Evaluate(trainer: ModelTrainer<P>, env: Env<P>, h: History<P>, test: seq<Batch>, yTest: seq<Num>)
      returns (o: Result<Outcome<P>>)
      requires trainer.forward == env.forward && trainer.params == h.params
      ensures o == Evaluation(env, h, test, yTest)
    {
      var t := trainer.ValidateEpoch(test, env.criterion);
      if t.Err? {
        return Err(t.error);
      }
      var p := trainer.Predict(Inputs(test), env.softmax);
      if p.Err? {
        return Err("RuntimeError");
      }
      var predictions := p.value.0;
      assert predictions == Predictions(Outputs(h.params, Inputs(test), env.forward));
      var labels := (set y | y in yTest) + (set k | k in predictions :: Fin(k as real));
      if |labels| != 3 {
        return Err("ValueError");
      }
      o := Ok(Outcome(h, t.value.0, t.value.1));
    }

    /**
     * The epoch loop: train, validate, step the scheduler, checkpoint on a
     * strict improvement, stop once patience reaches its limit.
     */
    method RunEpochs(trainer: ModelTrainer<P>, s: Setup<P>, n: nat, symbol: string, timeframe: string)
      returns (r: Result<History<P>>)
      requires Ready(s) && trainer.forward == s.env.forward
      modifies this, trainer
      ensures r == Epochs(s, old(trainer.params), n)
      ensures r.Ok? ==> trainer.params == r.value.params
                        && checkpoints == CheckpointsAfter(old(checkpoints), r.value, modelType, symbol, timeframe)
      ensures r.Err? ==> FailedRunLeaves(s, old(trainer.params), n, old(checkpoints), checkpoints, modelType, symbol, timeframe)
      ensures savedResults == old(savedResults) && processed == old(processed)
    {
      ghost var p0 := trainer.params;
      // The three metric lists of the source, with the parameters after each epoch.
      var h: History<P> := History(trainer.params, [], [], [], []);
      var best, patience := 0.0, 0;
      var epoch := 0;
      while epoch < n
        invariant epoch <= n && |h.valAccs| == epoch && |h.states| == epoch && h.params == trainer.params
        invariant Epochs(s, p0, epoch) == Ok(h)
        invariant !Stopped(h.valAccs)
        invariant best == Track(h.valAccs).best && patience == Track(h.valAccs).patience
        invariant checkpoints == CheckpointsAfter(old(checkpoints), h, modelType, symbol, timeframe)
        invariant savedResults == old(savedResults) && processed == old(processed)
      {
        var next, trainLoss, valLoss, acc := RunEpoch(trainer, s, epoch, h);
        EpochsNext(s, p0, epoch, h);
        if next.Err? {
          EpochsSettled(s, p0, epoch + 1, n);
          assert Epochs(s, p0, epoch) == Ok(h) && Epochs(s, p0, epoch + 1).Err?;
          return Err(next.error);
        }
        CheckpointStep(old(checkpoints), h, trainLoss, valLoss, acc, next.value.params, modelType, symbol, timeframe);
        TrackStep(h.valAccs, acc);
        h := next.value;
        if acc > best {
          best, patience := acc, 0;
          SaveModel(h.params, symbol, timeframe);
        } else {
          patience := patience + 1;
        }
        epoch := epoch + 1;
        if patience >= MlConfig.EarlyStoppingPatience {
          EpochsSettled(s, p0, epoch, n);
          return Ok(h);
        }
      }
      r := Ok(h);
    }

    /** One pass of the loop body: train, validate, step the scheduler and record the epoch. */
    method RunEpoch(trainer: ModelTrainer<P>, s: Setup<P>, epoch: nat, h: History<P>)
      returns (r: Result<History<P>>, trainLoss: Num, valLoss: Num, valAcc: real)
      requires Ready(s) && trainer.forward == s.env.forward && trainer.params == h.params
      modifies trainer
      ensures r == EpochStep(s.env, h, TrainBatches(s.train, s.size, s.shuffle(epoch)), s.val)
      ensures r.Ok? ==> r.value == History(trainer.params, h.trainLosses + [trainLoss], h.valLosses + [valLoss],
                                           h.valAccs + [valAcc], h.states + [trainer.params])
    {
      var batches := TrainBatches(s.train, s.size, s.shuffle(epoch));
      trainLoss := trainer.TrainEpoch(batches, s.env.criterion, s.env.update);
      assert trainLoss == EpochLoss(s.env, h.params, batches);
      var v := trainer.ValidateEpoch(s.val, s.env.criterion);
      valLoss, valAcc := Fin(0.0), 0.0;
      if v.Err? {
        return Err(v.error), trainLoss, valLoss, valAcc;
      }
      valLoss, valAcc := v.value.0, v.value.1;
      var p := s.env.schedule(trainer.params, valLoss);
      trainer.params := p;
      r := Ok(History(p, h.trainLosses + [trainLoss], h.valLosses + [valLoss], h.valAccs + [valAcc], h.states + [p]));
    }
  }
}
