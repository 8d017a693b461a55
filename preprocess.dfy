/**
 * Training-data preparation (ml_model/src/preprocess_data.py): cleaning the
 * raw bars, cutting the labelled frame into sliding windows, and the split,
 * NaN/infinity zeroing and fit-on-train scaling of prepare_training_data.
 * The splitter (sklearn's train_test_split) and the scaler fit are foreign
 * functions passed in as parameters.
 */
module Preprocess {
  import opened Numeric
  import opened Frames
  import opened Sorting
  import opened Seqs
  import Indicators
  import MlConfig

  // ---------------------------------------------------------------- raw bars

  /** One raw row. `timestamp` means something only when the frame has a timestamp column. */
  datatype Bar = Bar(timestamp: real, open: Num, high: Num, low: Num, close: Num, volume: Num)

  /** A raw frame as loaded: its column names and its rows. */
  datatype RawData = RawData(columns: set<string>, bars: seq<Bar>)

  function Timestamp(b: Bar): real { b.timestamp }

  /** What drop_duplicates compares: the modelled row (OHLCV, with the timestamp only when it is a column). */
  function RowKey(b: Bar, withTimestamp: bool): Bar {
    if withTimestamp then b else b.(timestamp := 0.0)
  }

  function Keys(s: seq<Bar>, w: bool): set<Bar> {
    if s == [] then {} else Keys(s[..|s| - 1], w) + {RowKey(s[|s| - 1], w)}
  }

  lemma {:induction false} KeysContain(s: seq<Bar>, w: bool, i: nat)
    requires i < |s|
    ensures RowKey(s[i], w) in Keys(s, w)
  {
    if i < |s| - 1 {
      KeysContain(s[..|s| - 1], w, i);
    }
  }

  /** The first row of `s` whose key is `k`. */
  function FirstWithKey(s: seq<Bar>, k: Bar, w: bool): Option<Bar> {
    if s == [] then None
    else
      var f := FirstWithKey(s[..|s| - 1], k, w);
      if f.Some? then f
      else if RowKey(s[|s| - 1], w) == k then Some(s[|s| - 1])
      else None
  }

  lemma {:induction false} FirstWithKeyNone(s: seq<Bar>, k: Bar, w: bool)
    ensures FirstWithKey(s, k, w).None? <==> k !in Keys(s, w)
  {
    if s != [] {
      FirstWithKeyNone(s[..|s| - 1], k, w);
    }
  }

  /** drop_duplicates(): the first row of every group of equal rows, in input order. */
  function DropDuplicates(s: seq<Bar>, w: bool): (r: seq<Bar>)
    ensures Keys(r, w) == Keys(s, w)
  {
    if s == [] then []
    else
      var init, last := s[..|s| - 1], s[|s| - 1];
      var kept := DropDuplicates(init, w);
      if RowKey(last, w) in Keys(init, w) then kept
      else
        assert (kept + [last])[..|kept|] == kept;
        kept + [last]
  }

  /** drop_duplicates only removes rows. */
  lemma {:induction false} DropDuplicatesSubseq(s: seq<Bar>, w: bool)
    ensures IsSubseq(DropDuplicates(s, w), s)
  {
    if s != [] {
      var init, last := s[..|s| - 1], s[|s| - 1];
      DropDuplicatesSubseq(init, w);
      assert s == init + [last];
      var kept := DropDuplicates(init, w);
      if RowKey(last, w) in Keys(init, w) {
        SubseqWeaken(kept, init, last);
      } else {
        var r := kept + [last];
        assert r[..|r| - 1] == kept;
      }
    }
  }

  /** No two kept rows are equal. */
  lemma {:induction false} DropDuplicatesDistinct(s: seq<Bar>, w: bool)
    ensures forall i, j :: 0 <= i < j < |DropDuplicates(s, w)| ==>
              RowKey(DropDuplicates(s, w)[i], w) != RowKey(DropDuplicates(s, w)[j], w)
  {
    if s != [] {
      var init, last := s[..|s| - 1], s[|s| - 1];
      DropDuplicatesDistinct(init, w);
      var kept := DropDuplicates(init, w);
      if RowKey(last, w) !in Keys(init, w) {
        var r := kept + [last];
        forall i, j | 0 <= i < j < |r| ensures RowKey(r[i], w) != RowKey(r[j], w) {
          if j == |kept| {
            KeysContain(kept, w, i);
          }
        }
      }
    }
  }

  /** Every kept row is the first of its group in the input. */
  lemma {:induction false} DropDuplicatesKeepsFirst(s: seq<Bar>, w: bool, x: Bar)
    requires x in DropDuplicates(s, w)
    ensures FirstWithKey(s, RowKey(x, w), w) == Some(x)
  {
    var init, last := s[..|s| - 1], s[|s| - 1];
    var kept := DropDuplicates(init, w);
    if x in kept {
      DropDuplicatesKeepsFirst(init, w, x);
    } else {
      assert x == last && RowKey(last, w) !in Keys(init, w);
      FirstWithKeyNone(init, RowKey(x, w), w);
    }
  }

  /** The rows after drop_duplicates and, with a timestamp column, sort_values('timestamp'). */
  function Ordered(df: RawData): seq<Bar> {
    var w := "timestamp" in df.columns;
    var d := DropDuplicates(df.bars, w);
    if w then SortBy(d, Timestamp) else d
  }

  // ---------------------------------------------------------------- clean_data

  /** dropna(subset=[open, high, low, close, volume]) */
  predicate NoneMissing(b: Bar) {
    !b.open.NaN? && !b.high.NaN? && !b.low.NaN? && !b.close.NaN? && !b.volume.NaN?
  }

  predicate PositiveVolume(b: Bar) { Gt(b.volume, Fin(0.0)) }

  predicate PositivePrices(b: Bar) {
    Gt(b.open, Fin(0.0)) && Gt(b.high, Fin(0.0)) && Gt(b.low, Fin(0.0)) && Gt(b.close, Fin(0.0))
  }

  predicate HighAboveBody(b: Bar) { Ge(b.high, Max(b.open, b.close)) }

  predicate LowBelowBody(b: Bar) { Le(b.low, Min(b.open, b.close)) }

  /** A row that survives every filter of clean_data. */
  predicate ValidBar(b: Bar) {
    NoneMissing(b) && PositiveVolume(b) && PositivePrices(b) && HighAboveBody(b) && LowBelowBody(b)
  }

  // The conjunctions of the filters applied so far.
  predicate UpToVolume(b: Bar) { NoneMissing(b) && PositiveVolume(b) }
  predicate UpToPrices(b: Bar) { UpToVolume(b) && PositivePrices(b) }
  predicate UpToHigh(b: Bar) { UpToPrices(b) && HighAboveBody(b) }

  /** The five filters in turn select exactly the valid rows. */
  lemma FilterChain(s: seq<Bar>)
    ensures Filter(Filter(Filter(Filter(Filter(s, NoneMissing), PositiveVolume), PositivePrices), HighAboveBody), LowBelowBody)
            == Filter(s, ValidBar)
  {
    FilterFilter(s, NoneMissing, PositiveVolume, UpToVolume);
    FilterFilter(s, UpToVolume, PositivePrices, UpToPrices);
    FilterFilter(s, UpToPrices, HighAboveBody, UpToHigh);
    FilterFilter(s, UpToHigh, LowBelowBody, ValidBar);
  }

  predicate RequiredPresent(df: RawData) {
    forall c :: c in Indicators.RequiredColumns ==> c in df.columns
  }

  /**
   * clean_data: a missing OHLCV column raises KeyError in dropna; otherwise the
   * result keeps exactly the valid rows of the de-duplicated (and, with a
   * timestamp column, time-sorted) input, in that order.
   */
  function CleanData(df: RawData): (r: Result<seq<Bar>>)
    ensures r.Err? <==> !RequiredPresent(df)
    ensures r.Ok? ==> CleanedFrom(df, r.value)
  {
    if !RequiredPresent(df) then Err("KeyError")
    else
      var s := Ordered(df);
      var kept := Filter(Filter(Filter(Filter(Filter(s, NoneMissing), PositiveVolume), PositivePrices), HighAboveBody), LowBelowBody);
      CleanDataFacts(df, kept);
      Ok(kept)
  }

  /**
   * `kept` holds exactly the valid rows of the de-duplicated, ordered input,
   * in their order, and is sorted by timestamp when there is a timestamp column.
   */
  ghost predicate CleanedFrom(df: RawData, kept: seq<Bar>) {
    && (forall b :: b in kept <==> b in Ordered(df) && ValidBar(b))
    && IsSubseq(kept, Ordered(df))
    && ("timestamp" in df.columns ==> Ascending(kept, Timestamp))
  }

  lemma CleanDataFacts(df: RawData, kept: seq<Bar>)
    requires kept == Filter(Filter(Filter(Filter(Filter(Ordered(df), NoneMissing), PositiveVolume), PositivePrices), HighAboveBody), LowBelowBody)
    ensures CleanedFrom(df, kept)
  {
    var s := Ordered(df);
    FilterChain(s);
    forall b ensures b in kept <==> b in s && ValidBar(b) {
      FilterMembers(s, ValidBar, b);
    }
    FilterSubseq(s, ValidBar);
    if "timestamp" in df.columns {
      SortByCorrect(DropDuplicates(df.bars, true), Timestamp);
      SubseqAscending(kept, s, Timestamp);
    }
  }

  /** On finite values the filter is exactly the clean-bar condition the shape features rely on. */
  lemma ValidBarIsClean(b: Bar)
    requires b.open.Fin? && b.high.Fin? && b.low.Fin? && b.close.Fin? && b.volume.Fin?
    ensures ValidBar(b) <==> Indicators.CleanRow(b.open, b.high, b.low, b.close, b.volume)
  {
  }

  /** The column of one OHLCV field. */
  function Field(bars: seq<Bar>, name: string): (col: Column)
    ensures |col| == |bars|
  {
    var n := |bars|;
    seq(n, i requires 0 <= i < n =>
      if name == "open" then bars[i].open
      else if name == "high" then bars[i].high
      else if name == "low" then bars[i].low
      else if name == "close" then bars[i].close
      else bars[i].volume)
  }

  /** The cleaned rows as a frame of the five OHLCV columns (the timestamp becomes the index). */
  function BarsTable(bars: seq<Bar>): (t: Table)
    ensures t.rows == |bars| && Indicators.HasRequired(t)
  {
    Indicators.RequiredDistinct();
    Frame(Indicators.RequiredColumns, map c | c in Indicators.RequiredColumns :: Field(bars, c), |bars|)
  }

  // ---------------------------------------------------------------- create_sequences

  /** One training sample: a window of feature rows and the label that follows it. */
  datatype Sample = Sample(x: seq<seq<Num>>, y: Num)

  /** The samples of create_sequences, as a function of the labelled frame. */
  function Windows(df: Table, features: seq<string>, L: nat): (r: seq<Sample>)
    requires "label" in df.cols
    ensures |r| == if df.rows > L then df.rows - L else 0
  {
    var m := Values(df, Present(features, df));
    var n := if df.rows > L then df.rows - L else 0;
    seq(n, k requires 0 <= k < n => Sample(m[k..k + L], df.cols["label"][k + L]))
  }

  /**
   * create_sequences: for every i in [L, n) the rows [i - L, i) of the
   * configured features present in the frame, and the label of row i, the
   * row right after the window. A frame without a label column raises
   * KeyError.
   */
  method CreateSequences(df: Table, features: seq<string>, L: nat) returns (r: Result<seq<Sample>>)
    ensures r.Err? <==> "label" !in df.cols
    ensures r.Ok? ==> "label" in df.cols && r.value == Windows(df, features, L)
    ensures r.Ok? ==> |r.value| == if df.rows > L then df.rows - L else 0
    ensures r.Ok? ==> forall k :: 0 <= k < |r.value| ==>
              && r.value[k].x == Values(df, Present(features, df))[k..k + L]
              && r.value[k].y == df.cols["label"][k + L]
  {
    if "label" !in df.cols {
      return Err("KeyError");
    }
    var m := Values(df, Present(features, df));
    var labels := df.cols["label"];
    var samples: seq<Sample> := [];
    var i := L;
    while i < df.rows
      invariant L <= i && (i == L || i <= df.rows)
      invariant |samples| == i - L
      invariant forall k :: 0 <= k < |samples| ==> samples[k] == Sample(m[k..k + L], labels[k + L])
    {
      samples := samples + [Sample(m[i - L..i], labels[i])];
      i := i + 1;
    }
    r := Ok(samples);
  }

  /** Each window has L rows, each holding the present configured features of one frame row, in configured order. */
  lemma WindowShape(df: Table, features: seq<string>, L: nat, k: nat, i: nat, j: nat)
    requires "label" in df.cols && k < |Windows(df, features, L)| && i < L
    requires j < |Present(features, df)|
    ensures |Windows(df, features, L)[k].x| == L
    ensures |Windows(df, features, L)[k].x[i]| == |Present(features, df)|
    ensures Windows(df, features, L)[k].x[i][j] == df.cols[Present(features, df)[j]][k + i]
  {
  }

  /** Stride 1: the next window drops the first row of this one and adds the row whose label this window carries. */
  lemma WindowsStride(df: Table, features: seq<string>, L: nat, k: nat)
    requires "label" in df.cols && L > 0 && k + 1 < |Windows(df, features, L)|
    ensures Windows(df, features, L)[k + 1].x
            == Windows(df, features, L)[k].x[1..] + [Values(df, Present(features, df))[k + L]]
  {
    var m := Values(df, Present(features, df));
    var w := Windows(df, features, L);
    assert w[k + 1].x == m[k + 1..k + 1 + L] && w[k].x == m[k..k + L];
    SliceStride(m, k, L);
  }

  lemma SliceStride<T>(m: seq<T>, k: nat, L: nat)
    requires L > 0 && k + 1 + L <= |m|
    ensures m[k + 1..k + 1 + L] == m[k..k + L][1..] + [m[k + L]]
  {
  }

  // ---------------------------------------------------------------- split, zeroing, scaling

  /** The row indices train_test_split puts on its first and second side. */
  datatype Split = Split(train: seq<nat>, test: seq<nat>)

  /**
   * train_test_split(stratify=y, random_state=42) as a foreign function of the
   * labels and the test fraction: the two index lists, or None when it raises.
   */
  type Splitter = (seq<Num>, real) -> Option<Split>

  /** StandardScaler's fitted parameters. */
  datatype Scaler = Scaler(mean: seq<real>, scale: seq<real>)

  /** StandardScaler.fit as a foreign function of the rows it sees. */
  type Fit = seq<seq<real>> -> Scaler

  function Labels(s: seq<Sample>): (r: seq<Num>)
    ensures |r| == |s| && forall k :: 0 <= k < |s| ==> r[k] == s[k].y
  {
    seq(|s|, k requires 0 <= k < |s| => s[k].y)
  }

  /** `X[idx]`: the samples at the given indices; an index past the end raises IndexError. */
  function Pick(s: seq<Sample>, idx: seq<nat>): (r: Result<seq<Sample>>)
    ensures r.Ok? <==> forall k :: 0 <= k < |idx| ==> idx[k] < |s|
    ensures r.Ok? ==> |r.value| == |idx| && forall k :: 0 <= k < |idx| ==> r.value[k] == s[idx[k]]
  {
    if forall k :: 0 <= k < |idx| ==> idx[k] < |s| then
      Ok(seq(|idx|, k requires 0 <= k < |idx| => s[idx[k]]))
    else Err("IndexError")
  }

  /** Every row of every window has `width` entries. */
  predicate Rectangular(s: seq<Sample>, width: nat) {
    forall k, i :: 0 <= k < |s| && 0 <= i < |s[k].x| ==> |s[k].x[i]| == width
  }

  lemma PickRectangular(s: seq<Sample>, idx: seq<nat>, width: nat)
    requires Rectangular(s, width) && Pick(s, idx).Ok?
    ensures Rectangular(Pick(s, idx).value, width)
  {
  }

  /** `X.reshape(-1, F)`: the rows of all windows, window after window. */
  function FlatRows(s: seq<Sample>): seq<seq<Num>> {
    if s == [] then [] else FlatRows(s[..|s| - 1]) + s[|s| - 1].x
  }

  /** nan_to_num(nan=0, posinf=0, neginf=0) on a matrix. */
  function ZeroRows(rows: seq<seq<Num>>): (z: seq<seq<real>>)
    ensures |z| == |rows|
    ensures forall i :: 0 <= i < |rows| ==> |z[i]| == |rows[i]|
  {
    seq(|rows|, i requires 0 <= i < |rows| =>
      seq(|rows[i]|, j requires 0 <= j < |rows[i]| => ZeroNonFinite(rows[i][j])))
  }

  predicate ScalerFits(sc: Scaler, width: nat) {
    |sc.mean| == width && |sc.scale| == width
  }

  /** (x - mean) / scale, a zero scale counting as 1 as in StandardScaler. */
  function ScaleValue(x: real, mean: real, scale: real): real {
    if scale == 0.0 then x - mean else (x - mean) / scale
  }

  /** transform on zeroed windows, reshaped back to windows. */
  function ScaleAll(sc: Scaler, s: seq<Sample>, width: nat): (r: seq<seq<seq<real>>>)
    requires Rectangular(s, width) && ScalerFits(sc, width)
    ensures |r| == |s|
  {
    seq(|s|, k requires 0 <= k < |s| =>
      seq(|s[k].x|, i requires 0 <= i < |s[k].x| =>
        seq(width, j requires 0 <= j < width => ScaleValue(ZeroNonFinite(s[k].x[i][j]), sc.mean[j], sc.scale[j]))))
  }

  /**
   * Every NaN or infinity of a window reaches the scaler as 0: the scaled
   * entry is what scaling 0 gives, and a finite entry is scaled as itself.
   */
  lemma ZeroedBeforeScaling(sc: Scaler, s: seq<Sample>, width: nat, k: nat, i: nat, j: nat)
    requires Rectangular(s, width) && ScalerFits(sc, width)
    requires k < |s| && i < |s[k].x| && j < width
    ensures |ScaleAll(sc, s, width)[k]| == |s[k].x| && |ScaleAll(sc, s, width)[k][i]| == width
    ensures !s[k].x[i][j].Fin? ==> ScaleAll(sc, s, width)[k][i][j] == ScaleValue(0.0, sc.mean[j], sc.scale[j])
    ensures s[k].x[i][j].Fin? ==> ScaleAll(sc, s, width)[k][i][j] == ScaleValue(s[k].x[i][j].v, sc.mean[j], sc.scale[j])
  {
  }

  datatype Config = Config(features: seq<string>, sequenceLength: nat, signalThreshold: real,
                           trainRatio: real, valRatio: real, testRatio: real)

  /** The MODEL_CONFIG entries the preprocessor reads. */
  const ModelConfig: Config := Config(MlConfig.Features, MlConfig.SequenceLength, MlConfig.SignalThreshold,
                                      MlConfig.TrainRatio, MlConfig.ValRatio, MlConfig.TestRatio)

  /** The dictionary prepare_training_data returns when it has data. */
  datatype TrainingData = TrainingData(
    xTrain: seq<seq<seq<real>>>, xVal: seq<seq<seq<real>>>, xTest: seq<seq<seq<real>>>,
    yTrain: seq<Num>, yVal: seq<Num>, yTest: seq<Num>,
    featureNames: seq<string>, scaler: Scaler)

  /** The three parts of the two splits: train, validation, test. */
  datatype Parts = Parts(train: seq<Sample>, val: seq<Sample>, test: seq<Sample>)

  /**
   * The two train_test_split calls: a 1 - train_ratio stratified split, then
   * a test / (val + test) split of the held-out part. A splitter that refuses
   * raises ValueError, an index past the end IndexError.
   */
  function Splits(config: Config, samples: seq<Sample>, split: Splitter): (r: Result<Parts>)
    ensures r.Ok? ==> forall w :: Rectangular(samples, w) ==>
                        Rectangular(r.value.train, w) && Rectangular(r.value.val, w) && Rectangular(r.value.test, w)
  {
    var first := split(Labels(samples), 1.0 - config.trainRatio);
    if first.None? then Err("ValueError")
    else
      var train, temp := Pick(samples, first.value.train), Pick(samples, first.value.test);
      if train.Err? || temp.Err? then Err("IndexError")
      else if config.valRatio + config.testRatio == 0.0 then Err("ZeroDivisionError")
      else
        var second := split(Labels(temp.value), config.testRatio / (config.valRatio + config.testRatio));
        if second.None? then Err("ValueError")
        else
          var val, test := Pick(temp.value, second.value.train), Pick(temp.value, second.value.test);
          if val.Err? || test.Err? then Err("IndexError")
          else Ok(Parts(train.value, val.value, test.value))
  }

  /** The samples on the train side of the first split, when both splits succeed. */
  function TrainSide(config: Config, samples: seq<Sample>, split: Splitter): Option<seq<Sample>> {
    match Splits(config, samples, split)
    case Err(_) => None
    case Ok(parts) => Some(parts.train)
  }

  /**
   * The scaler fit_transform leaves on the preprocessor: fitted on the zeroed
   * train rows as soon as both splits succeed, whether or not the width
   * check of the transform that follows then raises; None when a split
   * raises first.
   */
  function FittedScaler(config: Config, samples: seq<Sample>, split: Splitter, fit: Fit): Option<Scaler> {
    match TrainSide(config, samples, split)
    case None => None
    case Some(train) => Some(fit(ZeroRows(FlatRows(train))))
  }

  /**
   * The split-and-scale part of prepare_training_data: the two splits, then
   * the scaler fit on the zeroed train rows and applied to all three parts.
   */
  function SplitAndScale(config: Config, samples: seq<Sample>, width: nat, split: Splitter, fit: Fit)
    : (r: Result<TrainingData>)
    requires Rectangular(samples, width)
  {
    match Splits(config, samples, split)
    case Err(e) => Err(e)
    case Ok(parts) =>
      var sc := fit(ZeroRows(FlatRows(parts.train)));
      if !ScalerFits(sc, width) then Err("ValueError")
      else
        Ok(TrainingData(
          ScaleAll(sc, parts.train, width), ScaleAll(sc, parts.val, width), ScaleAll(sc, parts.test, width),
          Labels(parts.train), Labels(parts.val), Labels(parts.test),
          config.features, sc))
  }

  /**
   * The scaler is fitted exactly when both splits succeed, and a successful
   * split-and-scale returns the one it fitted; a failed split fits none.
   */
  lemma FittedScalerOutcome(config: Config, samples: seq<Sample>, width: nat, split: Splitter, fit: Fit)
    requires Rectangular(samples, width)
    ensures FittedScaler(config, samples, split, fit).Some? <==> Splits(config, samples, split).Ok?
    ensures FittedScaler(config, samples, split, fit).None? ==> SplitAndScale(config, samples, width, split, fit).Err?
    ensures SplitAndScale(config, samples, width, split, fit).Ok?
            ==> FittedScaler(config, samples, split, fit) == Some(SplitAndScale(config, samples, width, split, fit).value.scaler)
  {
  }

  /** What a successful split-and-scale returns: the scaler fit on the zeroed train rows alone, and every part scaled by it. */
  lemma SplitAndScaleFacts(config: Config, samples: seq<Sample>, width: nat, split: Splitter, fit: Fit)
    requires Rectangular(samples, width)
    requires SplitAndScale(config, samples, width, split, fit).Ok?
    ensures TrainSide(config, samples, split).Some?
    ensures var d := SplitAndScale(config, samples, width, split, fit).value;
            var train := TrainSide(config, samples, split).value;
            && d.scaler == fit(ZeroRows(FlatRows(train)))
            && ScalerFits(d.scaler, width)
            && Rectangular(train, width)
            && d.xTrain == ScaleAll(d.scaler, train, width)
            && d.yTrain == Labels(train)
            && d.featureNames == config.features
  {
  }

  /**
   * The fitted scaler sees only the train side: two sample lists with the same
   * labels (so the stratified splitter splits them alike) whose windows agree
   * wherever the first split sends a sample to training get the same scaler,
   * whatever their validation and test windows hold.
   */
  lemma HeldOutDoNotAffectScaler(config: Config, s1: seq<Sample>, s2: seq<Sample>, width: nat, split: Splitter, fit: Fit)
    requires Rectangular(s1, width) && Rectangular(s2, width)
    requires |s1| == |s2| && Labels(s1) == Labels(s2)
    requires split(Labels(s1), 1.0 - config.trainRatio).Some?
    requires var idx := split(Labels(s1), 1.0 - config.trainRatio).value.train;
             forall k :: 0 <= k < |idx| && idx[k] < |s1| ==> s1[idx[k]] == s2[idx[k]]
    requires SplitAndScale(config, s1, width, split, fit).Ok? && SplitAndScale(config, s2, width, split, fit).Ok?
    ensures SplitAndScale(config, s1, width, split, fit).value.scaler == SplitAndScale(config, s2, width, split, fit).value.scaler
  {
    FittedScalerOutcome(config, s1, width, split, fit);
    FittedScalerOutcome(config, s2, width, split, fit);
    SameTrainSide(config, s1, s2, split);
  }

  /** Two sample lists that agree on the first split's train indices have the same train side. */
  lemma SameTrainSide(config: Config, s1: seq<Sample>, s2: seq<Sample>, split: Splitter)
    requires |s1| == |s2| && Labels(s1) == Labels(s2)
    requires split(Labels(s1), 1.0 - config.trainRatio).Some?
    requires var idx := split(Labels(s1), 1.0 - config.trainRatio).value.train;
             forall k :: 0 <= k < |idx| && idx[k] < |s1| ==> s1[idx[k]] == s2[idx[k]]
    requires Splits(config, s1, split).Ok? && Splits(config, s2, split).Ok?
    ensures TrainSide(config, s1, split) == TrainSide(config, s2, split)
  {
    var idx := split(Labels(s1), 1.0 - config.trainRatio).value.train;
    assert Pick(s1, idx).value == Pick(s2, idx).value;
  }

  /** prepare_training_data as a function of its input: Ok(None) is the empty dictionary. */
  function Prepared(config: Config, df: RawData, lib: Indicators.Library, split: Splitter, fit: Fit)
    : Result<Option<TrainingData>>
  {
    match CleanData(df)
    case Err(e) => Err(e)
    case Ok(bars) =>
      if bars == [] then Ok(None)
      else
        match PreparedFrom(config, bars, lib, split, fit)
        case Err(e) => Err(e)
        case Ok(d) => Ok(Some(d))
  }

  /** The steps after cleaning, on a non-empty set of cleaned bars. */
  function PreparedFrom(config: Config, bars: seq<Bar>, lib: Indicators.Library, split: Splitter, fit: Fit)
    : Result<TrainingData>
    requires bars != []
  {
    FromLabelled(config, LabelledTable(config, bars, lib), split, fit)
  }

  /** create_sequences, then the split and scaling, on the labelled frame. */
  function FromLabelled(config: Config, labelled: Table, split: Splitter, fit: Fit): Result<TrainingData>
    requires "label" in labelled.cols
  {
    WindowsRectangular(labelled, config.features, config.sequenceLength);
    SplitAndScale(config, Windows(labelled, config.features, config.sequenceLength),
                  |Present(config.features, labelled)|, split, fit)
  }

  /** The scaler prepare_training_data leaves fitted, if it gets as far as the fit. */
  function PreparedScaler(config: Config, df: RawData, lib: Indicators.Library, split: Splitter, fit: Fit): Option<Scaler> {
    match CleanData(df)
    case Err(_) => None
    case Ok(bars) =>
      if bars == [] then None
      else LabelledScaler(config, LabelledTable(config, bars, lib), split, fit)
  }

  function LabelledScaler(config: Config, labelled: Table, split: Splitter, fit: Fit): Option<Scaler>
    requires "label" in labelled.cols
  {
    FittedScaler(config, Windows(labelled, config.features, config.sequenceLength), split, fit)
  }

  /**
   * prepare_training_data fits a scaler exactly when cleaning leaves rows and
   * both splits succeed; data is returned only with the scaler it fitted,
   * and no scaler is fitted when the result is the empty dictionary.
   */
  lemma PreparedScalerOutcome(config: Config, df: RawData, lib: Indicators.Library, split: Splitter, fit: Fit)
    ensures Prepared(config, df, lib, split, fit).Ok? && Prepared(config, df, lib, split, fit).value.Some?
            ==> PreparedScaler(config, df, lib, split, fit) == Some(Prepared(config, df, lib, split, fit).value.value.scaler)
    ensures Prepared(config, df, lib, split, fit) == Ok(None) ==> PreparedScaler(config, df, lib, split, fit).None?
  {
    if CleanData(df).Ok? && CleanData(df).value != [] {
      var labelled := LabelledTable(config, CleanData(df).value, lib);
      WindowsRectangular(labelled, config.features, config.sequenceLength);
      FittedScalerOutcome(config, Windows(labelled, config.features, config.sequenceLength),
                          |Present(config.features, labelled)|, split, fit);
    }
  }

  /** compute_indicators then generate_labels on the cleaned bars. */
  function LabelledTable(config: Config, bars: seq<Bar>, lib: Indicators.Library): (t: Table)
    requires bars != []
    ensures "label" in t.cols
  {
    var table := BarsTable(bars);
    assert "close" in Indicators.RequiredColumns;
    Indicators.KeepsPriceColumn(table, lib, "close");
    Indicators.LabelFrame(Indicators.ComputeAllIndicators(table, lib).value, config.signalThreshold)
  }

  lemma WindowsRectangular(df: Table, features: seq<string>, L: nat)
    requires "label" in df.cols
    ensures Rectangular(Windows(df, features, L), |Present(features, df)|)
  {
  }

  class DataPreprocessor {
    const config: Config
    /** The StandardScaler; None until prepare_training_data fits it. */
    var scaler: Option<Scaler>

    constructor(config: Config)
      ensures this.config == config && scaler == None
    {
      this.config := config;
      scaler := None;
    }

    /**
     * prepare_training_data: clean, compute indicators, label, window, split,
     * zero and scale. The scaler is refitted whenever both splits succeed,
     * on the train rows alone; otherwise, and in particular when cleaning
     * leaves no rows, it stays as it was.
     */
    method PrepareTrainingData(df: RawData, lib: Indicators.Library, split: Splitter, fit: Fit)
      returns (r: Result<Option<TrainingData>>)
      modifies this
      ensures r == Prepared(config, df, lib, split, fit)
      ensures var sc := PreparedScaler(config, df, lib, split, fit);
              scaler == if sc.Some? then sc else old(scaler)
      ensures r.Ok? && r.value.Some? ==> scaler == Some(r.value.value.scaler)
      ensures CleanData(df).Err? || CleanData(df) == Ok([]) ==> scaler == old(scaler)
    {
      var cleaned := CleanData(df);
      if cleaned.Err? {
        return Err(cleaned.error);
      }
      if cleaned.value == [] {
        return Ok(None);
      }
      var d := PrepareCleaned(cleaned.value, lib, split, fit);
      r := if d.Ok? then Ok(Some(d.value)) else Err(d.error);
    }

    /** compute_indicators and generate_labels on the cleaned bars, then the remaining steps. */
    method PrepareCleaned(bars: seq<Bar>, lib: Indicators.Library, split: Splitter, fit: Fit)
      returns (d: Result<TrainingData>)
      requires bars != []
      modifies this
      ensures d == PreparedFrom(config, bars, lib, split, fit)
      ensures var sc := LabelledScaler(config, LabelledTable(config, bars, lib), split, fit);
              scaler == if sc.Some? then sc else old(scaler)
      ensures d.Ok? ==> scaler == Some(d.value.scaler)
    {
      var table := BarsTable(bars);
      var withIndicators := Indicators.ComputeAllIndicators(table, lib);
      assert "close" in Indicators.RequiredColumns;
      Indicators.KeepsPriceColumn(table, lib, "close");
      var labelled := Indicators.GenerateLabels(withIndicators.value, config.signalThreshold);
      assert labelled.Ok?;
      assert labelled.value.frame == LabelledTable(config, bars, lib);
      d := PrepareLabelled(labelled.value.frame, split, fit);
    }

    /** create_sequences on the labelled frame, then the split and scaling. */
    method PrepareLabelled(frame: Table, split: Splitter, fit: Fit) returns (d: Result<TrainingData>)
      requires "label" in frame.cols
      modifies this
      ensures d == FromLabelled(config, frame, split, fit)
      ensures var sc := LabelledScaler(config, frame, split, fit);
              scaler == if sc.Some? then sc else old(scaler)
      ensures d.Ok? ==> scaler == Some(d.value.scaler)
    {
      var samples := CreateSequences(frame, config.features, config.sequenceLength);
      assert samples.Ok?;
      WindowsRectangular(frame, config.features, config.sequenceLength);
      d := SplitAndFit(samples.value, |Present(config.features, frame)|, split, fit);
    }

    /**
     * The split, zeroing and scaling steps: fit_transform refits the scaler
     * before the width check of transform, so the scaler changes exactly when
     * both splits succeed, even when that check then raises.
     */
    method SplitAndFit(s: seq<Sample>, width: nat, split: Splitter, fit: Fit) returns (r: Result<TrainingData>)
      requires Rectangular(s, width)
      modifies this
      ensures r == SplitAndScale(config, s, width, split, fit)
      ensures scaler == if FittedScaler(config, s, split, fit).Some? then FittedScaler(config, s, split, fit) else old(scaler)
      ensures r.Ok? ==> scaler == Some(r.value.scaler)
    {
      FittedScalerOutcome(config, s, width, split, fit);
      var parts := Splits(config, s, split);
      if parts.Err? {
        return Err(parts.error);
      }
      var sc := fit(ZeroRows(FlatRows(parts.value.train)));
      scaler := Some(sc);
      if !ScalerFits(sc, width) {
        return Err("ValueError");
      }
      r := Ok(TrainingData(
        ScaleAll(sc, parts.value.train, width), ScaleAll(sc, parts.value.val, width), ScaleAll(sc, parts.value.test, width),
        Labels(parts.value.train), Labels(parts.value.val), Labels(parts.value.test),
        config.features, sc));
    }
  }
}
