/**
 * The bookkeeping around the networks (ml_model/src/models.py): the
 * name-based model factory, the dataset wrapper, and the counting and
 * skipping logic of one training epoch, one validation epoch and
 * prediction. The networks themselves are foreign: a model is an abstract
 * parameter value `P` with a forward function from a batch of windows to
 * one row of three logits per sample.
 */
module Models {
  import opened Numeric
  import opened Strings
  import MlConfig

  // ---------------------------------------------------------------- ModelFactory.create_model

  datatype Cell = LstmCell | GruCell

  /** The hyper-parameters a network is built with. */
  datatype ModelSpec =
    | Recurrent(cell: Cell, inputSize: int, hiddenSize: int, numLayers: int, dropout: real, numClasses: int)
    | Attention(inputSize: int, dModel: int, nHead: int, numLayers: int, dropout: real, numClasses: int)

  /** The configuration dictionary: integer entries and real entries. */
  datatype FactoryConfig = FactoryConfig(ints: map<string, int>, reals: map<string, real>)

  function GetInt(config: FactoryConfig, key: string, default: int): int {
    if key in config.ints then config.ints[key] else default
  }

  function GetReal(config: FactoryConfig, key: string, default: real): real {
    if key in config.reals then config.reals[key] else default
  }

  /** MODEL_CONFIG as the factory reads it. */
  const ModelConfig: FactoryConfig := FactoryConfig(
    map["lstm_units" := MlConfig.LstmUnits, "gru_units" := MlConfig.GruUnits,
        "transformer_heads" := MlConfig.TransformerHeads, "transformer_layers" := MlConfig.TransformerLayers],
    map["dropout_rate" := MlConfig.DropoutRate])

  predicate KnownType(name: string) {
    Lower(name) == "lstm" || Lower(name) == "gru" || Lower(name) == "transformer"
  }

  /**
   * create_model: the lower-cased name selects the architecture; any other
   * name raises ValueError. Every network has three output classes, the
   * recurrent ones two layers, and the transformer's width is eight per head.
   */
  function CreateModel(modelType: string, inputSize: int, config: FactoryConfig): (r: Result<ModelSpec>)
    ensures r.Ok? <==> KnownType(modelType)
    ensures r.Ok? ==> r.value.numClasses == 3 && r.value.inputSize == inputSize
    ensures r.Ok? && r.value.Recurrent? ==> r.value.numLayers == 2
    ensures r.Ok? ==> (r.value.Recurrent? && r.value.cell == LstmCell <==> Lower(modelType) == "lstm")
    ensures r.Ok? ==> (r.value.Recurrent? && r.value.cell == GruCell <==> Lower(modelType) == "gru")
    ensures r.Ok? ==> (r.value.Attention? <==> Lower(modelType) == "transformer")
    ensures r.Ok? && r.value.Attention? ==> r.value.dModel == 8 * r.value.nHead
    ensures r.Ok? ==> r.value.dropout == GetReal(config, "dropout_rate", 0.2)
  {
    var t := Lower(modelType);
    var dropout := GetReal(config, "dropout_rate", 0.2);
    if t == "lstm" then Ok(Recurrent(LstmCell, inputSize, GetInt(config, "lstm_units", 64), 2, dropout, 3))
    else if t == "gru" then Ok(Recurrent(GruCell, inputSize, GetInt(config, "gru_units", 64), 2, dropout, 3))
    else if t == "transformer" then
      var heads := GetInt(config, "transformer_heads", 8);
      Ok(Attention(inputSize, heads * 8, heads, GetInt(config, "transformer_layers", 4), dropout, 3))
    else Err("ValueError")
  }

  /** The transformer's model width is always a multiple of its head count. */
  lemma WidthDividesByHeads(modelType: string, inputSize: int, config: FactoryConfig)
    requires CreateModel(modelType, inputSize, config).Ok?
    requires CreateModel(modelType, inputSize, config).value.Attention?
    requires CreateModel(modelType, inputSize, config).value.nHead != 0
    ensures var m := CreateModel(modelType, inputSize, config).value; m.dModel % m.nHead == 0
  {
    var m := CreateModel(modelType, inputSize, config).value;
    assert m.dModel == m.nHead * 8;
  }

  /** With MODEL_CONFIG every name in any letter case builds the configured sizes. */
  lemma ModelConfigSizes(inputSize: int)
    ensures CreateModel("LSTM", inputSize, ModelConfig) == Ok(Recurrent(LstmCell, inputSize, 16, 2, 0.1, 3))
    ensures CreateModel("Gru", inputSize, ModelConfig) == Ok(Recurrent(GruCell, inputSize, 16, 2, 0.1, 3))
    ensures CreateModel("transformer", inputSize, ModelConfig) == Ok(Attention(inputSize, 16, 2, 1, 0.1, 3))
    ensures CreateModel("cnn", inputSize, ModelConfig).Err?
  {
    assert Lower("LSTM") == "lstm";
    assert Lower("Gru") == "gru";
    assert Lower("transformer") == "transformer";
    assert Lower("cnn") == "cnn";
  }

  // ---------------------------------------------------------------- TradingDataset

  type Window = seq<seq<real>>

  /** TradingDataset: the windows and their integer class labels. */
  datatype TradingDataset = TradingDataset(x: seq<Window>, y: seq<int>) {
    /** __len__ counts the windows. */
    function Len(): (n: nat)
      ensures n == |x|
    {
      |x|
    }

    /** __getitem__, with Python's negative indices; an index outside either tensor raises IndexError. */
    function Item(idx: int): (r: Result<(Window, int)>)
      ensures r.Ok? <==> -|x| <= idx < |x| && -|y| <= idx < |y|
      ensures r.Ok? && idx >= 0 ==> r.value == (x[idx], y[idx])
      ensures r.Ok? && idx < 0 ==> r.value == (x[|x| + idx], y[|y| + idx])
    {
      if -|x| <= idx < |x| && -|y| <= idx < |y| then
        Ok(if idx >= 0 then (x[idx], y[idx]) else (x[|x| + idx], y[|y| + idx]))
      else Err("IndexError")
    }
  }

  // ---------------------------------------------------------------- epochs

  /** One batch from the loader: its windows and their labels. */
  datatype Batch = Batch(x: seq<seq<seq<Num>>>, y: seq<int>)

  predicate RowHasNaN(row: seq<Num>) {
    exists j :: 0 <= j < |row| && row[j].NaN?
  }

  predicate RowsHaveNaN(rows: seq<seq<Num>>) {
    exists i :: 0 <= i < |rows| && RowHasNaN(rows[i])
  }

  /** torch.isnan(batch_X).any(); the integer labels can never be NaN. */
  predicate InputHasNaN(b: Batch) {
    exists k :: 0 <= k < |b.x| && RowsHaveNaN(b.x[k])
  }

  /** What one batch does in train_epoch. */
  datatype Step = Skipped | Trained(loss: Num)

  /**
   * The three skips of train_epoch, in order: NaN in the inputs, NaN in the
   * outputs, NaN loss. Otherwise the batch is trained and its loss counted.
   */
  function StepOf<P>(p: P, b: Batch, forward: (P, seq<seq<seq<Num>>>) -> seq<seq<Num>>,
                     criterion: (seq<seq<Num>>, seq<int>) -> Num): (s: Step)
    ensures s.Trained? <==> !InputHasNaN(b) && !RowsHaveNaN(forward(p, b.x)) && !criterion(forward(p, b.x), b.y).NaN?
    ensures s.Trained? ==> s.loss == criterion(forward(p, b.x), b.y) && !s.loss.NaN?
    ensures InputHasNaN(b) ==> s == Skipped
  {
    if InputHasNaN(b) then Skipped
    else
      var out := forward(p, b.x);
      if RowsHaveNaN(out) then Skipped
      else
        var loss := criterion(out, b.y);
        if loss.NaN? then Skipped else Trained(loss)
  }

  /** The running loss sum and the parameters after the optimizer steps of the given batches. */
  function TrainRun<P>(p: P, batches: seq<Batch>, forward: (P, seq<seq<seq<Num>>>) -> seq<seq<Num>>,
                       criterion: (seq<seq<Num>>, seq<int>) -> Num, update: (P, Batch) -> P): (Num, P)
  {
    if batches == [] then (Fin(0.0), p)
    else
      var (total, q) := TrainRun(p, batches[..|batches| - 1], forward, criterion, update);
      var b := batches[|batches| - 1];
      match StepOf(q, b, forward, criterion)
      case Skipped => (total, q)
      case Trained(loss) => (Add(total, loss), update(q, b))
  }

  /** A batch skipped after the ones before it leaves the loss sum and the parameters as they were. */
  lemma SkippedStep<P>(p: P, batches: seq<Batch>, b: Batch,
      forward: (P, seq<seq<seq<Num>>>) -> seq<seq<Num>>, criterion: (seq<seq<Num>>, seq<int>) -> Num, update: (P, Batch) -> P)
    requires StepOf(TrainRun(p, batches, forward, criterion, update).1, b, forward, criterion) == Skipped
    ensures TrainRun(p, batches + [b], forward, criterion, update) == TrainRun(p, batches, forward, criterion, update)
  {
    assert (batches + [b])[..|batches|] == batches;
  }

  /**
   * A batch that is skipped where it sits in the loader (NaN inputs, NaN
   * outputs or a NaN loss) changes neither the loss sum nor the parameters:
   * the run is the run without it.
   */
  lemma {:induction false} SkippedBatchChangesNothing<P>(p: P, before: seq<Batch>, bad: Batch, after: seq<Batch>,
      forward: (P, seq<seq<seq<Num>>>) -> seq<seq<Num>>, criterion: (seq<seq<Num>>, seq<int>) -> Num, update: (P, Batch) -> P)
    requires StepOf(TrainRun(p, before, forward, criterion, update).1, bad, forward, criterion) == Skipped
    ensures TrainRun(p, before + [bad] + after, forward, criterion, update)
            == TrainRun(p, before + after, forward, criterion, update)
  {
    var with, without := before + [bad] + after, before + after;
    if after == [] {
      SkippedStep(p, before, bad, forward, criterion, update);
      assert with == before + [bad] && without == before;
    } else {
      var init := after[..|after| - 1];
      SkippedBatchChangesNothing(p, before, bad, init, forward, criterion, update);
      assert with[..|with| - 1] == before + [bad] + init;
      assert without[..|without| - 1] == before + init;
      assert with[|with| - 1] == without[|without| - 1];
    }
  }

  /** When every batch is skipped (for whichever of the three reasons) nothing is learned and the loss sum stays 0. */
  lemma {:induction false} AllSkippedLearnsNothing<P>(p: P, batches: seq<Batch>,
      forward: (P, seq<seq<seq<Num>>>) -> seq<seq<Num>>, criterion: (seq<seq<Num>>, seq<int>) -> Num, update: (P, Batch) -> P)
    requires forall k :: 0 <= k < |batches| ==> StepOf(p, batches[k], forward, criterion) == Skipped
    ensures TrainRun(p, batches, forward, criterion, update) == (Fin(0.0), p)
  {
    if batches != [] {
      AllSkippedLearnsNothing(p, batches[..|batches| - 1], forward, criterion, update);
    }
  }

  /** One row of integer class labels per sample, each the index of the row's maximum. */
  function ArgMax(row: seq<Num>): (k: nat)
    requires row != []
    ensures k < |row|
    ensures RowHasNaN(row) ==> row[k].NaN? && forall i :: 0 <= i < k ==> !row[i].NaN?
    ensures !RowHasNaN(row) ==> forall i :: 0 <= i < |row| ==> Ge(row[k], row[i])
    ensures !RowHasNaN(row) ==> forall i :: 0 <= i < k ==> Gt(row[k], row[i])
  {
    if |row| == 1 then 0
    else
      var init := row[..|row| - 1];
      var k := ArgMax(init);
      assert forall i :: 0 <= i < |init| ==> init[i] == row[i];
      if row[k].NaN? then k
      else if row[|row| - 1].NaN? || Gt(row[|row| - 1], row[k]) then |row| - 1
      else k
  }

  /** Every output row is non-empty and there is one per label. */
  predicate Shaped(out: seq<seq<Num>>, labels: seq<int>) {
    |out| == |labels| && forall i :: 0 <= i < |out| ==> out[i] != []
  }

  /** (predicted == batch_y).sum() */
  function CountCorrect(out: seq<seq<Num>>, labels: seq<int>): (c: nat)
    requires Shaped(out, labels)
    ensures c <= |labels|
  {
    if out == [] then 0
    else
      var n := |out| - 1;
      CountCorrect(out[..n], labels[..n]) + (if ArgMax(out[n]) == labels[n] then 1 else 0)
  }

  /** The loss sum, the correct count and the sample count over the batches; a mis-shaped output raises. */
  function ValidateRun<P>(p: P, batches: seq<Batch>, forward: (P, seq<seq<seq<Num>>>) -> seq<seq<Num>>,
                          criterion: (seq<seq<Num>>, seq<int>) -> Num): (r: Result<(Num, nat, nat)>)
    ensures r.Ok? ==> r.value.1 <= r.value.2
  {
    if batches == [] then Ok((Fin(0.0), 0, 0))
    else
      match ValidateRun(p, batches[..|batches| - 1], forward, criterion)
      case Err(e) => Err(e)
      case Ok(acc) =>
        var b := batches[|batches| - 1];
        ValidateStep(acc, forward(p, b.x), b.y, criterion)
  }

  /** One batch of validate_epoch added to the running loss, correct count and sample count. */
  function ValidateStep(acc: (Num, nat, nat), out: seq<seq<Num>>, labels: seq<int>,
                        criterion: (seq<seq<Num>>, seq<int>) -> Num): (r: Result<(Num, nat, nat)>)
    requires acc.1 <= acc.2
    ensures r.Ok? ==> r.value.1 <= r.value.2
  {
    if !Shaped(out, labels) then Err("RuntimeError")
    else Ok((Add(acc.0, criterion(out, labels)), acc.1 + CountCorrect(out, labels), acc.2 + |labels|))
  }

  /**
   * What validate_epoch returns for a run over `batchCount` batches: the mean
   * loss per batch and the accuracy, which lies in [0, 1]; no samples at all
   * divide by zero.
   */
  function EpochResult(run: Result<(Num, nat, nat)>, batchCount: nat): (r: Result<(Num, real)>)
    requires run.Ok? ==> run.value.1 <= run.value.2
    ensures r.Err? <==> run.Err? || run.value.2 == 0
    ensures r.Ok? ==> 0.0 <= r.value.1 <= 1.0
    ensures r.Ok? ==> r.value.1 * run.value.2 as real == run.value.1 as real
  {
    match run
    case Err(e) => Err(e)
    case Ok((loss, correct, total)) =>
      if total == 0 then Err("ZeroDivisionError")
      else
        assert correct as real <= total as real;
        Ok((Div(loss, Fin(batchCount as real)), correct as real / total as real))
  }

  /** The network's rows for the samples of the given batches, in loader order. */
  function Outputs<P>(p: P, batches: seq<seq<seq<seq<Num>>>>, forward: (P, seq<seq<seq<Num>>>) -> seq<seq<Num>>)
    : seq<seq<Num>>
  {
    if batches == [] then [] else Outputs(p, batches[..|batches| - 1], forward) + forward(p, batches[|batches| - 1])
  }

  predicate NonEmptyRows(rows: seq<seq<Num>>) {
    forall i :: 0 <= i < |rows| ==> rows[i] != []
  }

  class ModelTrainer<P> {
    /** The network's parameters, updated by the optimizer. */
    var params: P
    const forward: (P, seq<seq<seq<Num>>>) -> seq<seq<Num>>

    constructor(model: P, forward: (P, seq<seq<seq<Num>>>) -> seq<seq<Num>>)
      ensures params == model && this.forward == forward
    {
      params := model;
      this.forward := forward;
    }

    /**
     * train_epoch: the loss sum and the parameters follow TrainRun; the
     * result divides the sum by the number of all batches, skipped ones
     * included, and is 0 for an empty loader.
     */
    method TrainEpoch(batches: seq<Batch>, criterion: (seq<seq<Num>>, seq<int>) -> Num, update: (P, Batch) -> P)
      returns (avg: Num)
      modifies this
      ensures params == TrainRun(old(params), batches, forward, criterion, update).1
      ensures batches == [] ==> avg == Fin(0.0)
      ensures batches != [] ==> avg == Div(TrainRun(old(params), batches, forward, criterion, update).0, Fin(|batches| as real))
    {
      var total := Fin(0.0);
      var i := 0;
      while i < |batches|
        invariant 0 <= i <= |batches|
        invariant (total, params) == TrainRun(old(params), batches[..i], forward, criterion, update)
      {
        var b := batches[i];
        assert batches[..i + 1][..i] == batches[..i];
        if InputHasNaN(b) {
          i := i + 1;
          continue;
        }
        var out := forward(params, b.x);
        if RowsHaveNaN(out) {
          i := i + 1;
          continue;
        }
        var loss := criterion(out, b.y);
        if loss.NaN? {
          i := i + 1;
          continue;
        }
        params := update(params, b);
        total := Add(total, loss);
        i := i + 1;
      }
      assert batches[..i] == batches;
      avg := if |batches| > 0 then Div(total, Fin(|batches| as real)) else Fin(0.0);
    }

    /**
     * validate_epoch: accuracy is the share of samples whose arg-max class is
     * the label, within [0, 1]; no samples divide by zero. The parameters are
     * not touched.
     */
    method ValidateEpoch(batches: seq<Batch>, criterion: (seq<seq<Num>>, seq<int>) -> Num)
      returns (r: Result<(Num, real)>)
      ensures r == EpochResult(ValidateRun(params, batches, forward, criterion), |batches|)
    {
      var loss, correct, total := Fin(0.0), 0, 0;
      var i := 0;
      while i < |batches|
        invariant 0 <= i <= |batches|
        invariant ValidateRun(params, batches[..i], forward, criterion) == Ok((loss, correct, total))
      {
        var b := batches[i];
        var out := forward(params, b.x);
        ValidateRunPrefix(params, batches, i, criterion);
        if !Shaped(out, b.y) {
          ValidateRunErrSticks(params, batches, i + 1, criterion);
          return Err("RuntimeError");
        }
        loss := Add(loss, criterion(out, b.y));
        correct := correct + CountCorrect(out, b.y);
        total := total + |b.y|;
        i := i + 1;
      }
      assert batches[..i] == batches;
      if total == 0 {
        return Err("ZeroDivisionError");
      }
      r := Ok((Div(loss, Fin(|batches| as real)), correct as real / total as real));
    }

    lemma ValidateRunPrefix(p: P, batches: seq<Batch>, i: nat, criterion: (seq<seq<Num>>, seq<int>) -> Num)
      requires i < |batches| && ValidateRun(p, batches[..i], forward, criterion).Ok?
      ensures ValidateRun(p, batches[..i + 1], forward, criterion)
              == ValidateStep(ValidateRun(p, batches[..i], forward, criterion).value, forward(p, batches[i].x), batches[i].y, criterion)
    {
      assert batches[..i + 1][..i] == batches[..i];
    }

    /** Once a prefix of the loader fails, the whole loader fails with the same error. */
    lemma {:induction false} ValidateRunErrSticks(p: P, batches: seq<Batch>, n: nat, criterion: (seq<seq<Num>>, seq<int>) -> Num)
      requires n <= |batches| && ValidateRun(p, batches[..n], forward, criterion).Err?
      ensures ValidateRun(p, batches, forward, criterion) == ValidateRun(p, batches[..n], forward, criterion)
      decreases |batches| - n
    {
      if n < |batches| {
        var m := n + 1;
        assert batches[..m][..n] == batches[..n];
        ValidateRunErrSticks(p, batches, m, criterion);
      } else {
        assert batches[..n] == batches;
      }
    }

    /**
     * predict: one arg-max class and one probability row per sample, in
     * loader order. The softmax is foreign; a batch whose output rows are
     * empty makes torch raise.
     */
    method Predict(batches: seq<seq<seq<seq<Num>>>>, softmax: seq<Num> -> seq<real>)
      returns (r: Result<(seq<nat>, seq<seq<real>>)>)
      ensures r.Ok? <==> NonEmptyRows(Outputs(params, batches, forward))
      ensures r.Ok? ==> var out := Outputs(params, batches, forward);
                && |r.value.0| == |out| && |r.value.1| == |out|
                && forall i :: 0 <= i < |out| ==> r.value.0[i] == ArgMax(out[i]) && r.value.1[i] == softmax(out[i])
    {
      var predictions: seq<nat> := [];
      var probabilities: seq<seq<real>> := [];
      var i := 0;
      while i < |batches|
        invariant 0 <= i <= |batches|
        invariant NonEmptyRows(Outputs(params, batches[..i], forward))
        invariant var out := Outputs(params, batches[..i], forward);
                  && |predictions| == |out| && |probabilities| == |out|
                  && forall k :: 0 <= k < |out| ==> predictions[k] == ArgMax(out[k]) && probabilities[k] == softmax(out[k])
      {
        assert batches[..i + 1][..i] == batches[..i];
        var out := forward(params, batches[i]);
        if !NonEmptyRows(out) {
          var prev := Outputs(params, batches[..i], forward);
          var j :| 0 <= j < |out| && out[j] == [];
          assert Outputs(params, batches[..i + 1], forward) == prev + out;
          assert Outputs(params, batches[..i + 1], forward)[|prev| + j] == [];
          OutputsEmptyRowSticks(params, batches, i + 1);
          return Err("RuntimeError");
        }
        predictions := predictions + seq(|out|, k requires 0 <= k < |out| => ArgMax(out[k]));
        probabilities := probabilities + seq(|out|, k requires 0 <= k < |out| => softmax(out[k]));
        i := i + 1;
      }
      assert batches[..i] == batches;
      r := Ok((predictions, probabilities));
    }

    /** An empty output row in a prefix of the loader is an empty output row of the whole. */
    lemma {:induction false} OutputsEmptyRowSticks(p: P, batches: seq<seq<seq<seq<Num>>>>, n: nat)
      requires n <= |batches| && !NonEmptyRows(Outputs(p, batches[..n], forward))
      ensures !NonEmptyRows(Outputs(p, batches, forward))
      decreases |batches| - n
    {
      if n < |batches| {
        var m := n + 1;
        assert batches[..m][..n] == batches[..n];
        var before := Outputs(p, batches[..n], forward);
        var i :| 0 <= i < |before| && before[i] == [];
        assert Outputs(p, batches[..m], forward)[i] == [];
        OutputsEmptyRowSticks(p, batches, m);
      } else {
        assert batches[..n] == batches;
      }
    }
  }
}
