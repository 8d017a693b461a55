/**
 * Feature engineering and labelling (ml_model/src/indicators.py).
 * Indicators that come from the `ta` library or from pandas rolling windows
 * are supplied by a `Library` function; the ratio features, VWAP and the
 * percentage change are computed here.
 */
module Indicators {
  import opened Numeric
  import opened Frames
  import MlConfig

  /** A foreign indicator: the column the `ta` library (or a rolling window) computes from the frame. */
  type Library = (string, Table) -> Column

  const RequiredColumns: seq<string> := ["open", "high", "low", "close", "volume"]

  /** Every column compute_all_indicators assigns, in its order. */
  const AddedColumns: seq<string> := [
    "rsi_14", "macd", "macd_signal", "macd_histogram",
    "ema_9", "ema_21", "ema_50", "sma_20", "sma_50",
    "atr_14", "bb_upper", "bb_middle", "bb_lower", "bb_width", "volatility",
    "vwap", "volume_sma_20", "obv",
    "price_change_pct", "hl_pct", "co_pct", "price_position", "log_returns"
  ]

  lemma RequiredDistinct()
    ensures Distinct(RequiredColumns)
  {
  }

  predicate HasRequired(df: Table) {
    forall c :: c in RequiredColumns ==> c in df.cols
  }

  // ---------------------------------------------------------------- column formulas

  /** (high - low) / base, row by row: hl_pct over the bars, bb_width over the Bollinger bands. */
  function RangeRatio(high: Column, low: Column, base: Column): (r: Column)
    requires |high| == |low| == |base|
    ensures |r| == |base|
  {
    seq(|base|, i requires 0 <= i < |base| => Div(Sub(high[i], low[i]), base[i]))
  }

  /** (close - open) / open, row by row. */
  function CoPct(open: Column, close: Column): (r: Column)
    requires |open| == |close|
    ensures |r| == |close|
  {
    seq(|close|, i requires 0 <= i < |close| => Div(Sub(close[i], open[i]), open[i]))
  }

  /** (close - low) / (high - low), row by row. */
  function PricePosition(high: Column, low: Column, close: Column): (r: Column)
    requires |high| == |low| == |close|
    ensures |r| == |close|
  {
    seq(|close|, i requires 0 <= i < |close| => Div(Sub(close[i], low[i]), Sub(high[i], low[i])))
  }

  /**
   * Series.pct_change() with pandas' default `fill_method='pad'`: the series
   * is forward-filled first, then x[i] / x[i-1] - 1, NaN in the first row.
   */
  function PctChange(x: Column): (r: Column)
    ensures |r| == |x|
  {
    var f := ForwardFill(x, NaN);
    seq(|x|, i requires 0 <= i < |x| => if i == 0 then NaN else Sub(Div(f[i], f[i - 1]), Fin(1.0)))
  }

  /**
   * The change at row i compares the last observed values at rows i and
   * i - 1, so a NaN close is bridged by the value before it; between two
   * observed rows it is the plain relative change.
   */
  lemma PctChangeAt(x: Column, i: nat)
    requires 0 < i < |x|
    ensures PctChange(x)[i] == Sub(Div(LastObserved(x, i), LastObserved(x, i - 1)), Fin(1.0))
    ensures x[i].Fin? && x[i - 1].Fin? && x[i - 1].v != 0.0 ==> PctChange(x)[i] == Fin(x[i].v / x[i - 1].v - 1.0)
  {
    ForwardFillAt(x, NaN, i);
    ForwardFillAt(x, NaN, i - 1);
  }

  /**
   * Series.cumsum() with pandas' NaN skipping: a NaN entry yields NaN and
   * leaves the running total alone.
   */
  function CumSumFrom(x: Column, acc: Num): (r: Column)
    ensures |r| == |x|
  {
    if x == [] then []
    else if x[0].NaN? then [NaN] + CumSumFrom(x[1..], acc)
    else
      var a := Add(acc, x[0]);
      [a] + CumSumFrom(x[1..], a)
  }

  function CumSum(x: Column): (r: Column)
    ensures |r| == |x|
  {
    CumSumFrom(x, Fin(0.0))
  }

  /** close * volume, row by row. */
  function Weighted(close: Column, volume: Column): (r: Column)
    requires |close| == |volume|
    ensures |r| == |close|
  {
    seq(|close|, i requires 0 <= i < |close| => Mul(close[i], volume[i]))
  }

  /** Running sum of close * volume over running sum of volume. */
  function Vwap(close: Column, volume: Column): (r: Column)
    requires |close| == |volume|
    ensures |r| == |close|
  {
    var num := CumSum(Weighted(close, volume));
    var den := CumSum(volume);
    seq(|close|, i requires 0 <= i < |close| => Div(num[i], den[i]))
  }

  // ---------------------------------------------------------------- compute_all_indicators

  /**
   * The column compute_all_indicators assigns to `name`: one of the computed
   * formulas, or the library's indicator aligned to the frame. Every library
   * indicator reads only the OHLCV columns, which are never reassigned, so it
   * is given the input frame.
   */
  function IndicatorValue(df: Table, lib: Library, name: string): (col: Column)
    requires HasRequired(df)
    ensures |col| == df.rows
  {
    assert "open" in RequiredColumns && "high" in RequiredColumns && "low" in RequiredColumns;
    assert "close" in RequiredColumns && "volume" in RequiredColumns;
    var n := df.rows;
    var close := df.cols["close"];
    if name == "bb_width" then
      RangeRatio(Align(lib("bb_upper", df), n), Align(lib("bb_lower", df), n), Align(lib("bb_middle", df), n))
    else if name == "vwap" then Vwap(close, df.cols["volume"])
    else if name == "price_change_pct" then PctChange(close)
    else if name == "hl_pct" then RangeRatio(df.cols["high"], df.cols["low"], close)
    else if name == "co_pct" then CoPct(df.cols["open"], close)
    else if name == "price_position" then PricePosition(df.cols["high"], df.cols["low"], close)
    else Align(lib(name, df), n)
  }

  /** The columns assigned to `names`, in order. */
  function IndicatorValues(df: Table, lib: Library, names: seq<string>): (cols: seq<Column>)
    requires HasRequired(df)
    ensures |cols| == |names| && Fits(cols, df.rows)
  {
    seq(|names|, k requires 0 <= k < |names| => IndicatorValue(df, lib, names[k]))
  }

  /**
   * compute_all_indicators: ValueError unless all five OHLCV columns are
   * present; otherwise the indicator columns are added to (or overwritten in)
   * a copy of the frame and every other column is kept.
   */
  function ComputeAllIndicators(df: Table, lib: Library): (r: Result<Table>)
    ensures r.Err? <==> !HasRequired(df)
  {
    if !HasRequired(df) then Err("ValueError")
    else Ok(SetColumns(df, AddedColumns, IndicatorValues(df, lib, AddedColumns)))
  }

  /** On success the indicator columns are assigned and every other column is kept. */
  lemma IndicatorsAssigned(df: Table, lib: Library)
    requires HasRequired(df)
    ensures Assigned(df, AddedColumns, ComputeAllIndicators(df, lib).value)
  {
    SetColumnsFacts(df, AddedColumns, IndicatorValues(df, lib, AddedColumns));
  }

  /**
   * Each added column holds its indicator: the formula for the computed
   * features (band width, VWAP, percentage change, range and body fractions,
   * close position), the aligned library series for the rest.
   */
  lemma IndicatorAssigned(df: Table, lib: Library, c: string)
    requires HasRequired(df) && c in AddedColumns
    ensures var r := ComputeAllIndicators(df, lib).value;
            c in r.cols && r.cols[c] == IndicatorValue(df, lib, c)
  {
    var cols := IndicatorValues(df, lib, AddedColumns);
    SetColumnsByName(df, AddedColumns, cols, name => IndicatorValue(df, lib, name));
  }

  /** An OHLCV column and the row count come through compute_all_indicators unchanged. */
  lemma KeepsPriceColumn(df: Table, lib: Library, c: string)
    requires HasRequired(df) && c in RequiredColumns
    ensures var r := ComputeAllIndicators(df, lib).value;
            r.rows == df.rows && c in r.cols && r.cols[c] == df.cols[c]
  {
    IndicatorsAssigned(df, lib);
    PriceColumnsNotAdded(c);
  }

  lemma PriceColumnsNotAdded(c: string)
    requires c in RequiredColumns
    ensures c !in AddedColumns
  {
  }

  // ---------------------------------------------------------------- shape-feature facts

  /** A bar that passes the cleaning filter: positive finite prices and volume, high and low bracketing open and close. */
  predicate CleanRow(o: Num, h: Num, l: Num, c: Num, v: Num) {
    && o.Fin? && h.Fin? && l.Fin? && c.Fin? && v.Fin?
    && o.v > 0.0 && h.v > 0.0 && l.v > 0.0 && c.v > 0.0 && v.v > 0.0
    && h.v >= o.v && h.v >= c.v && l.v <= o.v && l.v <= c.v
  }

  /**
   * On a clean bar the shape features are the finite ratios of the formulas;
   * the range fraction is non-negative, and the close position lies in [0, 1]
   * unless the bar has no range, where it is 0/0 = NaN.
   */
  lemma ShapeFeaturesOnCleanBar(o: Num, h: Num, l: Num, c: Num, v: Num)
    requires CleanRow(o, h, l, c, v)
    ensures RangeRatio([h], [l], [c])[0] == Fin((h.v - l.v) / c.v) && (h.v - l.v) / c.v >= 0.0
    ensures CoPct([o], [c])[0] == Fin((c.v - o.v) / o.v)
    ensures h.v > l.v ==> PricePosition([h], [l], [c])[0] == Fin((c.v - l.v) / (h.v - l.v))
    ensures h.v > l.v ==> 0.0 <= (c.v - l.v) / (h.v - l.v) <= 1.0
    ensures h.v == l.v ==> PricePosition([h], [l], [c])[0] == NaN
  {
    QuotientInUnit(0.0, h.v - l.v, c.v);
    if h.v > l.v {
      QuotientInUnit(c.v - l.v, h.v - l.v, h.v - l.v);
    }
  }

  /** 0 <= a <= b and d >= b, d > 0 give 0 <= a / d <= 1 (and a / d >= 0 whatever b). */
  lemma QuotientInUnit(a: real, b: real, d: real)
    requires 0.0 <= a && d > 0.0
    ensures a / d >= 0.0
    ensures a <= d ==> a / d <= 1.0
  {
    assert a / d * d == a;
  }

  /** The real values of an all-finite column. */
  function Reals(x: Column): (r: seq<real>)
    requires forall k :: 0 <= k < |x| ==> x[k].Fin?
    ensures |r| == |x| && forall k :: 0 <= k < |x| ==> r[k] == x[k].v
  {
    seq(|x|, k requires 0 <= k < |x| => x[k].v)
  }

  /** On an all-finite column the running sum started at `a` is `a` plus the prefix sum. */
  lemma {:induction false} CumSumOfFinite(x: Column, a: real, i: nat)
    requires i < |x|
    requires forall k :: 0 <= k < |x| ==> x[k].Fin?
    ensures CumSumFrom(x, Fin(a))[i] == Fin(a + SumReals(Reals(x)[..i + 1]))
  {
    var vs := Reals(x);
    if i == 0 {
      assert vs[..1] == [x[0].v];
    } else {
      CumSumOfFinite(x[1..], a + x[0].v, i - 1);
      assert Reals(x[1..]) == vs[1..];
      assert vs[..i + 1][1..] == vs[1..][..i];
    }
  }

  /** The sum of cs[k] * vs[k]. */
  function WeightedSum(cs: seq<real>, vs: seq<real>): real
    requires |cs| == |vs|
  {
    if cs == [] then 0.0 else cs[0] * vs[0] + WeightedSum(cs[1..], vs[1..])
  }

  lemma ScaleMonotone(a: real, b: real, w: real)
    requires a <= b && w > 0.0
    ensures a * w <= b * w
  {
  }

  /** num lies between lo * den and hi * den. */
  predicate ScaledBetween(num: real, den: real, lo: real, hi: real) {
    lo * den <= num <= hi * den
  }

  lemma QuotientBounds(num: real, den: real, lo: real, hi: real)
    requires den > 0.0 && ScaledBetween(num, den, lo, hi)
    ensures lo <= num / den <= hi
  {
    var q := num / den;
    assert q * den == num;
    if q < lo { ScaleMonotone(q, lo, den); }
    if q > hi { ScaleMonotone(hi, q, den); }
  }

  /** Adding a term whose value lies within the bounds, with a positive weight, keeps a weighted sum within them. */
  lemma WeightedStep(lo: real, hi: real, c: real, v: real, s: real, q: real)
    requires lo <= c <= hi && v > 0.0
    requires ScaledBetween(q, s, lo, hi)
    ensures ScaledBetween(c * v + q, v + s, lo, hi)
  {
    ScaleMonotone(lo, c, v);
    ScaleMonotone(c, hi, v);
    assert lo * (v + s) == lo * v + lo * s;
    assert hi * (v + s) == hi * v + hi * s;
  }

  /** A sum weighted by positive weights lies between the extreme values times the total weight. */
  lemma {:induction false} WeightedSumBounds(cs: seq<real>, vs: seq<real>, lo: real, hi: real)
    requires |cs| == |vs|
    requires forall k :: 0 <= k < |cs| ==> lo <= cs[k] <= hi && vs[k] > 0.0
    ensures ScaledBetween(WeightedSum(cs, vs), SumReals(vs), lo, hi)
    ensures |vs| > 0 ==> SumReals(vs) > 0.0
  {
    if cs != [] {
      WeightedSumBounds(cs[1..], vs[1..], lo, hi);
      WeightedStep(lo, hi, cs[0], vs[0], SumReals(vs[1..]), WeightedSum(cs[1..], vs[1..]));
    }
  }

  /** A sum of products, written out term by term, is the weighted sum. */
  lemma {:induction false} SumOfProducts(ps: seq<real>, cs: seq<real>, vs: seq<real>)
    requires |ps| == |cs| == |vs|
    requires forall k :: 0 <= k < |ps| ==> ps[k] == cs[k] * vs[k]
    ensures SumReals(ps) == WeightedSum(cs, vs)
  {
    if ps != [] {
      SumOfProducts(ps[1..], cs[1..], vs[1..]);
    }
  }

  /** On finite input the running sum of close * volume started at `a` is `a` plus the prefix's weighted sum. */
  lemma CumSumOfWeighted(close: Column, volume: Column, a: real, i: nat)
    requires |close| == |volume| && i < |close|
    requires forall k :: 0 <= k < |close| ==> close[k].Fin? && volume[k].Fin?
    ensures CumSumFrom(Weighted(close, volume), Fin(a))[i]
            == Fin(a + WeightedSum(Reals(close)[..i + 1], Reals(volume)[..i + 1]))
  {
    var w := Weighted(close, volume);
    WeightedFinite(close, volume);
    CumSumOfFinite(w, a, i);
    var ps, cs, vs := Reals(w)[..i + 1], Reals(close)[..i + 1], Reals(volume)[..i + 1];
    assert forall k :: 0 <= k < |ps| ==> ps[k] == cs[k] * vs[k];
    SumOfProducts(ps, cs, vs);
  }

  /** On finite input every product is finite: the product of the two values. */
  lemma WeightedFinite(close: Column, volume: Column)
    requires |close| == |volume|
    requires forall k :: 0 <= k < |close| ==> close[k].Fin? && volume[k].Fin?
    ensures forall k :: 0 <= k < |close| ==> Weighted(close, volume)[k] == Fin(close[k].v * volume[k].v)
  {
  }

  /** Row i of VWAP, given the two running sums at that row and bounds on their ratio. */
  lemma VwapFromSums(close: Column, volume: Column, i: nat, num: real, den: real, lo: real, hi: real)
    requires |close| == |volume| && i < |close|
    requires CumSum(Weighted(close, volume))[i] == Fin(num)
    requires CumSum(volume)[i] == Fin(den) && den > 0.0
    requires ScaledBetween(num, den, lo, hi)
    ensures Vwap(close, volume)[i] == Fin(num / den)
    ensures lo <= num / den <= hi
  {
    QuotientBounds(num, den, lo, hi);
  }

  /** The real closes and volumes of rows 0..i carry the bounds of the column values. */
  lemma PrefixBounds(close: Column, volume: Column, i: nat, lo: real, hi: real)
    requires |close| == |volume| && i < |close|
    requires forall k :: 0 <= k < |close| ==> close[k].Fin? && volume[k].Fin? && volume[k].v > 0.0
    requires forall k :: 0 <= k <= i ==> lo <= close[k].v <= hi
    ensures var cs, vs := Reals(close)[..i + 1], Reals(volume)[..i + 1];
            |cs| == |vs| > 0 && forall k :: 0 <= k < |cs| ==> lo <= cs[k] <= hi && vs[k] > 0.0
  {
  }

  /**
   * With finite closes and finite positive volumes, VWAP at row i is finite
   * and lies between the smallest and the largest close of rows 0..i.
   */
  lemma VwapWithinCloseRange(close: Column, volume: Column, i: nat, lo: real, hi: real)
    requires |close| == |volume| && i < |close|
    requires forall k :: 0 <= k < |close| ==> close[k].Fin? && volume[k].Fin? && volume[k].v > 0.0
    requires forall k :: 0 <= k <= i ==> lo <= close[k].v <= hi
    ensures Vwap(close, volume)[i].Fin?
    ensures lo <= Vwap(close, volume)[i].v <= hi
  {
    var cs, vs := Reals(close)[..i + 1], Reals(volume)[..i + 1];
    var num, den := WeightedSum(cs, vs), SumReals(vs);
    CumSumOfWeighted(close, volume, 0.0, i);
    CumSumOfFinite(volume, 0.0, i);
    PrefixBounds(close, volume, i, lo, hi);
    WeightedSumBounds(cs, vs, lo, hi);
    VwapFromSums(close, volume, i, num, den, lo, hi);
  }

  // ---------------------------------------------------------------- generate_labels

  /** close[i+1] / close[i] - 1; the last row has no successor and gets NaN. */
  function FutureReturn(close: Column, i: nat): Num
    requires i < |close|
  {
    if i + 1 < |close| then Sub(Div(close[i + 1], close[i]), Fin(1.0)) else NaN
  }

  /** 2 (Buy) above the threshold, 0 (Sell) below its negation, 1 (Hold) otherwise; Sell is decided last and wins. */
  function LabelOf(fr: Num, threshold: real): (cls: int)
    ensures 0 <= cls <= 2
  {
    if Lt(fr, Fin(-threshold)) then 0 else if Gt(fr, Fin(threshold)) then 2 else 1
  }

  /** For a non-negative threshold the three classes are disjoint and cover every return, NaN included (Hold). */
  lemma LabelCases(fr: Num, threshold: real)
    requires threshold >= 0.0
    ensures LabelOf(fr, threshold) == 2 <==> Gt(fr, Fin(threshold))
    ensures LabelOf(fr, threshold) == 0 <==> Lt(fr, Fin(-threshold))
    ensures LabelOf(fr, threshold) == 1 <==> !Gt(fr, Fin(threshold)) && !Lt(fr, Fin(-threshold))
  {
  }

  /** With a negative threshold a return can pass both tests; the Sell assignment runs last and wins. */
  lemma SellWinsOverlap(fr: Num, threshold: real)
    requires Lt(fr, Fin(-threshold)) && Gt(fr, Fin(threshold))
    ensures threshold < 0.0 && LabelOf(fr, threshold) == 0
  {
  }

  function CountLabel(labels: seq<int>, k: int): nat {
    if labels == [] then 0 else (if labels[0] == k then 1 else 0) + CountLabel(labels[1..], k)
  }

  /** The imbalance warning: Sell or Buy below 5% of all rows, counted before the last row is dropped. */
  predicate Imbalanced(labels: seq<int>)
    requires |labels| > 0
  {
    (CountLabel(labels, 0) as real) / (|labels| as real) < 0.05
    || (CountLabel(labels, 2) as real) / (|labels| as real) < 0.05
  }

  /** The label of every row, the last (which has no successor) included. */
  function LabelsOf(close: Column, threshold: real): (labels: seq<int>)
    ensures |labels| == |close|
  {
    seq(|close|, i requires 0 <= i < |close| => LabelOf(FutureReturn(close, i), threshold))
  }

  /**
   * The three-way labelling: a default Hold column, overwritten with Buy
   * where the return is above the threshold and then with Sell where it is
   * below the negated threshold.
   */
  method LabelColumn(close: Column, threshold: real) returns (labels: seq<int>)
    ensures |labels| == |close|
    ensures forall i :: 0 <= i < |close| ==> labels[i] == LabelOf(FutureReturn(close, i), threshold)
  {
    var n := |close|;
    var a := new int[n](_ => 1);
    var i := 0;
    while i < n
      invariant 0 <= i <= n
      invariant forall k :: 0 <= k < i ==> a[k] == (if Gt(FutureReturn(close, k), Fin(threshold)) then 2 else 1)
      invariant forall k :: i <= k < n ==> a[k] == 1
    {
      if Gt(FutureReturn(close, i), Fin(threshold)) {
        a[i] := 2;
      }
      i := i + 1;
    }
    i := 0;
    while i < n
      invariant 0 <= i <= n
      invariant forall k :: 0 <= k < i ==> a[k] == LabelOf(FutureReturn(close, k), threshold)
      invariant forall k :: i <= k < n ==> a[k] == (if Gt(FutureReturn(close, k), Fin(threshold)) then 2 else 1)
    {
      if Lt(FutureReturn(close, i), Fin(-threshold)) {
        a[i] := 0;
      }
      i := i + 1;
    }
    labels := a[..];
  }

  datatype Labelled = Labelled(frame: Table, imbalanced: bool)

  function FutureReturns(close: Column): (r: Column)
    ensures |r| == |close| && forall i :: 0 <= i < |close| ==> r[i] == FutureReturn(close, i)
  {
    seq(|close|, i requires 0 <= i < |close| => FutureReturn(close, i))
  }

  function LabelValues(labels: seq<int>): (c: Column)
    ensures |c| == |labels| && forall i :: 0 <= i < |labels| ==> c[i] == Fin(labels[i] as real)
  {
    seq(|labels|, i requires 0 <= i < |labels| => Fin(labels[i] as real))
  }

  /**
   * What generate_labels makes of a frame with a close column and at least
   * one row: the last row dropped, every other column kept on the remaining
   * rows, and each remaining row given its next-bar return and its label.
   */
  predicate LabelledFrom(df: Table, out: Table, threshold: real)
    requires "close" in df.cols && df.rows > 0
  {
    && out.rows == df.rows - 1
    && (forall c :: c in df.cols && c != "label" && c != "future_return" ==>
          c in out.cols && out.cols[c] == df.cols[c][..df.rows - 1])
    && "label" in out.cols && "future_return" in out.cols
    && (forall i :: 0 <= i < out.rows ==> out.cols["future_return"][i] == FutureReturn(df.cols["close"], i))
    && (forall i :: 0 <= i < out.rows ==>
          out.cols["label"][i] == Fin(LabelOf(FutureReturn(df.cols["close"], i), threshold) as real))
  }

  /** `df['future_return'] = fr`, `df['label'] = lab`, then `df[:-1]`. */
  function AttachLabels(df: Table, fr: Column, lab: Column): (r: Table)
    requires |fr| == |lab| == df.rows > 0
    ensures r.rows == df.rows - 1
    ensures forall c :: c in df.cols && c != "label" && c != "future_return" ==>
              c in r.cols && r.cols[c] == df.cols[c][..df.rows - 1]
    ensures "future_return" in r.cols && r.cols["future_return"] == fr[..df.rows - 1]
    ensures "label" in r.cols && r.cols["label"] == lab[..df.rows - 1]
  {
    var m := df.cols["future_return" := fr]["label" := lab];
    var withLabel := SetColumn(SetColumn(df, "future_return", fr), "label", lab);
    assert withLabel.cols == m;
    assert "label" in m && m["label"] == lab;
    assert "future_return" in m && m["future_return"] == fr;
    assert forall c :: c in df.cols && c != "label" && c != "future_return" ==> c in m && m[c] == df.cols[c];
    Head(withLabel, df.rows - 1)
  }

  /** Attaching the computed returns and labels gives the labelled frame. */
  lemma AttachLabelsLabelled(df: Table, threshold: real, labels: seq<int>)
    requires "close" in df.cols && |labels| == df.rows > 0
    requires forall i :: 0 <= i < |labels| ==> labels[i] == LabelOf(FutureReturn(df.cols["close"], i), threshold)
    ensures LabelledFrom(df, AttachLabels(df, FutureReturns(df.cols["close"]), LabelValues(labels)), threshold)
  {
    var close := df.cols["close"];
    var fr, lab := FutureReturns(close), LabelValues(labels);
    var out := AttachLabels(df, fr, lab);
    forall i | 0 <= i < out.rows ensures out.cols["future_return"][i] == FutureReturn(close, i) {
      assert out.cols["future_return"][i] == fr[i];
    }
    forall i | 0 <= i < out.rows ensures out.cols["label"][i] == Fin(LabelOf(FutureReturn(close, i), threshold) as real) {
      assert out.cols["label"][i] == lab[i];
    }
  }

  /** The frame generate_labels returns, as a function of its input. */
  function LabelFrame(df: Table, threshold: real): (r: Table)
    requires "close" in df.cols && df.rows > 0
    ensures LabelledFrom(df, r, threshold)
  {
    var close := df.cols["close"];
    AttachLabelsLabelled(df, threshold, LabelsOf(close, threshold));
    AttachLabels(df, FutureReturns(close), LabelValues(LabelsOf(close, threshold)))
  }

  /**
   * generate_labels: adds `future_return` and `label`, reports imbalance over
   * all n rows, and drops the last row. A missing close column raises
   * KeyError; an empty frame raises ZeroDivisionError in the ratio.
   */
  method GenerateLabels(df: Table, threshold: real) returns (r: Result<Labelled>)
    ensures r.Err? <==> "close" !in df.cols || df.rows == 0
    ensures r.Ok? ==> "close" in df.cols && df.rows > 0 && r.value.frame == LabelFrame(df, threshold)
    ensures r.Ok? ==> r.value.imbalanced == Imbalanced(LabelsOf(df.cols["close"], threshold))
  {
    if "close" !in df.cols {
      return Err("KeyError");
    }
    var close := df.cols["close"];
    var n := df.rows;
    if n == 0 {
      return Err("ZeroDivisionError");
    }
    var labels := LabelColumn(close, threshold);
    var out := AttachLabels(df, FutureReturns(close), LabelValues(labels));
    assert labels == LabelsOf(close, threshold);
    var imbalanced := Imbalanced(labels);
    r := Ok(Labelled(out, imbalanced));
  }

  /** A flat series (constant positive close) labels every row Hold whatever the non-negative threshold. */
  lemma FlatSeriesIsAllHold(close: Column, threshold: real, i: nat)
    requires threshold >= 0.0 && i < |close|
    requires forall k :: 0 <= k < |close| ==> close[k] == close[0]
    requires close[0].Fin? && close[0].v > 0.0
    ensures LabelOf(FutureReturn(close, i), threshold) == 1
  {
    if i + 1 < |close| {
      var c := close[0].v;
      assert close[i + 1] == Fin(c) && close[i] == Fin(c);
      assert c / c == 1.0;
      assert Div(close[i + 1], close[i]) == Fin(1.0);
    }
  }

  // ---------------------------------------------------------------- feature selection and cleanup

  const PriceColumns: seq<string> := ["open", "high", "low", "close", "volume"]
  const TrendColumns: seq<string> := ["rsi_14", "ema_9", "ema_21", "ema_50", "macd"]
  const SignalColumns: seq<string> := ["macd_signal", "macd_histogram", "atr_14", "vwap", "price_change_pct"]
  const ShapeColumns: seq<string> := ["volatility", "bb_width", "hl_pct", "co_pct", "price_position"]

  /** get_feature_columns: the 16 configured features and four more. */
  function GetFeatureColumns(): (r: seq<string>)
    ensures |r| == 20
    ensures forall c :: c in MlConfig.Features ==> c in r
    ensures Distinct(r)
  {
    FeatureColumnsDistinct();
    PriceColumns + TrendColumns + SignalColumns + ShapeColumns
  }

  lemma PriceTrendDistinct()
    ensures Distinct(PriceColumns + TrendColumns)
  {
    DistinctAppend(PriceColumns, TrendColumns);
  }

  lemma SignalShapeDistinct()
    ensures Distinct(SignalColumns + ShapeColumns)
  {
    DistinctAppend(SignalColumns, ShapeColumns);
  }

  lemma FeatureHalvesDisjoint()
    ensures forall x :: x in PriceColumns + TrendColumns ==> x !in SignalColumns + ShapeColumns
  {
  }

  lemma FeatureColumnsDistinct()
    ensures Distinct(PriceColumns + TrendColumns + SignalColumns + ShapeColumns)
  {
    PriceTrendDistinct();
    SignalShapeDistinct();
    FeatureHalvesDisjoint();
    DistinctAppend(PriceColumns + TrendColumns, SignalColumns + ShapeColumns);
    assert PriceColumns + TrendColumns + SignalColumns + ShapeColumns
        == (PriceColumns + TrendColumns) + (SignalColumns + ShapeColumns);
  }

  /** ffill(): each NaN takes the last non-NaN value above it; leading NaN stay NaN. */
  function ForwardFill(x: Column, last: Num): (r: Column)
    ensures |r| == |x|
  {
    if x == [] then []
    else
      var v := if x[0].NaN? then last else x[0];
      [v] + ForwardFill(x[1..], v)
  }

  /** ffill().fillna(0), then the infinities replaced by 0 (the final fillna(0) has nothing left to do). */
  function SanitizeColumn(x: Column): (r: Column)
    ensures |r| == |x|
  {
    var filled := ForwardFill(x, NaN);
    seq(|x|, i requires 0 <= i < |x| => Fin(ZeroNonFinite(filled[i])))
  }

  /** The last non-NaN entry of x[0..i], or NaN when there is none. */
  function LastObserved(x: Column, i: nat): Num
    requires i < |x|
  {
    if !x[i].NaN? then x[i] else if i == 0 then NaN else LastObserved(x, i - 1)
  }

  lemma {:induction false} LastObservedShift(x: Column, i: nat)
    requires 0 < i < |x|
    ensures LastObserved(x, i) == if LastObserved(x[1..], i - 1).NaN? then x[0] else LastObserved(x[1..], i - 1)
  {
    if x[i].NaN? && i > 1 {
      LastObservedShift(x, i - 1);
    }
  }

  lemma {:induction false} ForwardFillAt(x: Column, last: Num, i: nat)
    requires i < |x|
    ensures ForwardFill(x, last)[i] == if LastObserved(x, i).NaN? then last else LastObserved(x, i)
  {
    if i > 0 {
      var v := if x[0].NaN? then last else x[0];
      assert ForwardFill(x, last)[i] == ForwardFill(x[1..], v)[i - 1];
      ForwardFillAt(x[1..], v, i - 1);
      LastObservedShift(x, i);
    }
  }

  /**
   * The cleanup leaves a finite value in every row: the row's own finite
   * value, else the nearest earlier non-NaN value when that is finite, else 0
   * (no earlier value, or an infinity, whether in place or carried forward).
   */
  lemma SanitizeColumnAt(x: Column, i: nat)
    requires i < |x|
    ensures SanitizeColumn(x)[i].Fin?
    ensures SanitizeColumn(x)[i] == Fin(ZeroNonFinite(LastObserved(x, i)))
    ensures x[i].Fin? ==> SanitizeColumn(x)[i] == x[i]
    ensures x[i].PosInf? || x[i].NegInf? ==> SanitizeColumn(x)[i] == Fin(0.0)
    ensures x[i].NaN? && i > 0 ==> SanitizeColumn(x)[i] == Fin(ZeroNonFinite(LastObserved(x, i - 1)))
  {
    ForwardFillAt(x, NaN, i);
  }

  /** A NaN before any observed value becomes 0. */
  lemma LeadingNaNBecomesZero(x: Column, i: nat)
    requires i < |x|
    requires forall k :: 0 <= k <= i ==> x[k].NaN?
    ensures SanitizeColumn(x)[i] == Fin(0.0)
  {
    ForwardFillAt(x, NaN, i);
    LeadingNaNUnobserved(x, i);
  }

  lemma {:induction false} LeadingNaNUnobserved(x: Column, i: nat)
    requires i < |x|
    requires forall k :: 0 <= k <= i ==> x[k].NaN?
    ensures LastObserved(x, i) == NaN
  {
    if i > 0 { LeadingNaNUnobserved(x, i - 1); }
  }

  /** The keys of the user features, in dictionary order. */
  function UserNames(userFeatures: Option<seq<(string, real)>>): (r: seq<string>)
    ensures userFeatures.Some? ==> |r| == |userFeatures.value|
  {
    if userFeatures.None? then []
    else seq(|userFeatures.value|, k requires 0 <= k < |userFeatures.value| => userFeatures.value[k].0)
  }

  /** `ml_df[key] = value` for each user feature: a constant column per key. */
  function UserColumns(rows: nat, userFeatures: Option<seq<(string, real)>>): (r: seq<Column>)
    ensures |r| == |UserNames(userFeatures)| && Fits(r, rows)
  {
    if userFeatures.None? then []
    else seq(|userFeatures.value|, k requires 0 <= k < |userFeatures.value| => seq(rows, _ => Fin(userFeatures.value[k].1)))
  }

  /** A frame whose every value is finite. */
  predicate AllFinite(t: Table) {
    forall c, i :: c in t.cols && 0 <= i < t.rows ==> t.cols[c][i].Fin?
  }

  /** The cleanup applied to every column. */
  function SanitizeAll(t: Table): (r: Table)
    ensures r.names == t.names && r.rows == t.rows
    ensures forall c :: c in t.cols ==> c in r.cols && r.cols[c] == SanitizeColumn(t.cols[c])
    ensures forall c :: c in r.cols ==> c in t.cols
    ensures AllFinite(r)
  {
    var r := Frame(t.names, map c | c in t.cols :: SanitizeColumn(t.cols[c]), t.rows);
    forall c, i | c in r.cols && 0 <= i < r.rows ensures r.cols[c][i].Fin? {
      SanitizeColumnAt(t.cols[c], i);
    }
    r
  }

  /** `df[available_features]`: the feature columns present in the frame, in feature order. */
  function SelectFeatures(df: Table): (r: Table)
    ensures r.names == Present(GetFeatureColumns(), df) && r.rows == df.rows
    ensures forall c :: c in r.cols ==> c in GetFeatureColumns() && c in df.cols && r.cols[c] == df.cols[c]
  {
    PresentDistinct(GetFeatureColumns(), df);
    Select(df, Present(GetFeatureColumns(), df))
  }

  /** A column that is already finite comes through the cleanup unchanged. */
  lemma SanitizeFinite(x: Column)
    requires forall i :: 0 <= i < |x| ==> x[i].Fin?
    ensures SanitizeColumn(x) == x
  {
    forall i | 0 <= i < |x| ensures SanitizeColumn(x)[i] == x[i] {
      SanitizeColumnAt(x, i);
    }
  }

  /**
   * prepare_ml_features: the feature columns of get_feature_columns present
   * in the frame, in that order, then the user features as constant columns
   * (a key that is already a column is overwritten in place, a new key is
   * appended, and a key given twice keeps its last value), then
   * forward-fill / zero-fill / infinity-to-zero on every column.
   */
  function PrepareMlFeatures(df: Table, userFeatures: Option<seq<(string, real)>>): (r: Table)
    ensures r.rows == df.rows
    ensures r.names == Present(GetFeatureColumns(), df)
                       + Fresh(UserNames(userFeatures), set c | c in Present(GetFeatureColumns(), df))
    ensures forall c :: c in r.cols ==> c in GetFeatureColumns() || c in UserNames(userFeatures)
    ensures AllFinite(r)
    ensures forall c :: c in GetFeatureColumns() && c in df.cols && c !in UserNames(userFeatures)
                        ==> c in r.cols && r.cols[c] == SanitizeColumn(df.cols[c])
    ensures userFeatures.Some? ==>
              forall c :: c in UserNames(userFeatures) ==>
                c in r.cols && r.cols[c] == seq(df.rows, _ => Fin(userFeatures.value[LastIndexOf(UserNames(userFeatures), c)].1))
  {
    PreparedNames(df, userFeatures);
    PreparedColumns(df, userFeatures);
    PreparedUserColumns(df, userFeatures);
    Prepared(df, userFeatures)
  }

  /** The selected features with the user columns assigned, then cleaned. */
  function Prepared(df: Table, userFeatures: Option<seq<(string, real)>>): Table {
    SanitizeAll(SetColumns(SelectFeatures(df), UserNames(userFeatures), UserColumns(df.rows, userFeatures)))
  }

  lemma PreparedNames(df: Table, userFeatures: Option<seq<(string, real)>>)
    ensures Prepared(df, userFeatures).rows == df.rows
    ensures Prepared(df, userFeatures).names == Present(GetFeatureColumns(), df)
              + Fresh(UserNames(userFeatures), set c | c in Present(GetFeatureColumns(), df))
  {
    var selected := SelectFeatures(df);
    SetColumnsNamesExact(selected, UserNames(userFeatures), UserColumns(df.rows, userFeatures));
    assert selected.cols.Keys == (set c | c in Present(GetFeatureColumns(), df));
  }

  lemma PreparedColumns(df: Table, userFeatures: Option<seq<(string, real)>>)
    ensures forall c :: c in Prepared(df, userFeatures).cols ==> c in GetFeatureColumns() || c in UserNames(userFeatures)
    ensures AllFinite(Prepared(df, userFeatures))
    ensures forall c :: c in GetFeatureColumns() && c in df.cols && c !in UserNames(userFeatures)
                        ==> c in Prepared(df, userFeatures).cols && Prepared(df, userFeatures).cols[c] == SanitizeColumn(df.cols[c])
  {
    SetColumnsFacts(SelectFeatures(df), UserNames(userFeatures), UserColumns(df.rows, userFeatures));
  }

  lemma PreparedUserColumns(df: Table, userFeatures: Option<seq<(string, real)>>)
    ensures userFeatures.Some? ==>
              forall c :: c in UserNames(userFeatures) ==>
                c in Prepared(df, userFeatures).cols
                && Prepared(df, userFeatures).cols[c]
                   == seq(df.rows, _ => Fin(userFeatures.value[LastIndexOf(UserNames(userFeatures), c)].1))
  {
    UserColumnsSanitized(SelectFeatures(df), userFeatures);
  }

  /** Each user key holds its last constant value, which the cleanup leaves alone. */
  lemma UserColumnsSanitized(t: Table, userFeatures: Option<seq<(string, real)>>)
    ensures var names, values := UserNames(userFeatures), UserColumns(t.rows, userFeatures);
            forall c :: c in names ==>
              c in SetColumns(t, names, values).cols
              && SanitizeColumn(SetColumns(t, names, values).cols[c]) == values[LastIndexOf(names, c)]
  {
    var names, values := UserNames(userFeatures), UserColumns(t.rows, userFeatures);
    forall c | c in names
      ensures c in SetColumns(t, names, values).cols
              && SanitizeColumn(SetColumns(t, names, values).cols[c]) == values[LastIndexOf(names, c)]
    {
      SetColumnsLast(t, names, values, c);
      SanitizeFinite(values[LastIndexOf(names, c)]);
    }
  }
}
