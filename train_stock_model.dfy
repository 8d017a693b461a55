/**
 * The stand-alone closing-price script: stride-1 windows of the scaled
 * close series, each labelled with the value right after it, and the 80/20
 * split of the resulting dataset.
 *
 * The close column is `reshape(-1, 1)`, one value per row, so a row is
 * modelled as a single `real`.
 */
module TrainStockModel {

  const Epochs: nat := 50
  const BatchSize: nat := 32
  const SeqLength: nat := 20
  const LearningRate: real := 0.001

  /** How many windows of length `L` fit in `n` values with one more left for the label. */
  function WindowCount(n: nat, L: nat): nat {
    if n > L then n - L else 0
  }

  /** create_sequences, with its loop appending one window and one label per position. */
  method CreateSequences(data: seq<real>, L: nat) returns (xs: seq<seq<real>>, ys: seq<real>)
    ensures |xs| == |ys| == WindowCount(|data|, L)
    ensures forall i :: 0 <= i < |xs| ==> i + L < |data| && xs[i] == data[i..i + L]
    ensures forall i :: 0 <= i < |ys| ==> i + L < |data| && ys[i] == data[i + L]
  {
    xs, ys := [], [];
    var i := 0;
    while i < |data| - L
      invariant 0 <= i <= WindowCount(|data|, L)
      invariant |xs| == |ys| == i
      invariant forall k :: 0 <= k < i ==> k + L < |data| && xs[k] == data[k..k + L]
      invariant forall k :: 0 <= k < i ==> k + L < |data| && ys[k] == data[k + L]
    {
      xs := xs + [data[i..i + L]];
      ys := ys + [data[i + L]];
      i := i + 1;
    }
  }

  /**
   * The windows overlap with stride one: window i + 1 is window i without
   * its first value, followed by label i.
   */
  lemma Stride(data: seq<real>, xs: seq<seq<real>>, ys: seq<real>, L: nat, i: nat)
    requires |xs| == |ys| == WindowCount(|data|, L)
    requires forall k :: 0 <= k < |xs| ==> k + L < |data| && xs[k] == data[k..k + L]
    requires forall k :: 0 <= k < |ys| ==> k + L < |data| && ys[k] == data[k + L]
    requires L > 0 && i + 1 < |xs|
    ensures xs[i + 1] == xs[i][1..] + [ys[i]]
  {
    assert xs[i][1..] == data[i + 1..i + L];
  }

  /**
   * Nothing is lost: when there is at least one window, the first window
   * followed by every label is the whole series.
   */
  lemma {:induction false} Reassemble(data: seq<real>, xs: seq<seq<real>>, ys: seq<real>, L: nat)
    requires |xs| == |ys| == WindowCount(|data|, L)
    requires forall k :: 0 <= k < |xs| ==> k + L < |data| && xs[k] == data[k..k + L]
    requires forall k :: 0 <= k < |ys| ==> k + L < |data| && ys[k] == data[k + L]
    requires xs != []
    ensures xs[0] + ys == data
  {
    assert ys == data[L..] by {
      forall k | 0 <= k < |ys| ensures ys[k] == data[L..][k] {
      }
    }
    assert data == data[..L] + data[L..];
  }

  /** `int(0.8 * len(dataset))` and the rest. */
  function TrainTestSizes(n: nat): (sizes: (nat, nat)) {
    (n * 4 / 5, n - n * 4 / 5)
  }

  /**
   * The two sizes partition the dataset, as random_split demands, and the
   * training part is the largest whole number at most four fifths of it.
   */
  lemma SizesPartition(n: nat)
    ensures TrainTestSizes(n).0 + TrainTestSizes(n).1 == n
    ensures 5 * TrainTestSizes(n).0 <= 4 * n < 5 * (TrainTestSizes(n).0 + 1)
    ensures TrainTestSizes(n).1 >= TrainTestSizes(n).0 / 4
  {
  }

  /** The script's dataset: the windows of the scaled series at the configured length, then split. */
  method PrepareDataset(pricesScaled: seq<real>) returns (xs: seq<seq<real>>, ys: seq<real>, trainSize: nat, testSize: nat)
    ensures |xs| == |ys| == WindowCount(|pricesScaled|, SeqLength)
    ensures forall i :: 0 <= i < |xs| ==> |xs[i]| == SeqLength
    ensures trainSize + testSize == |xs|
    ensures 5 * trainSize <= 4 * |xs| < 5 * (trainSize + 1)
  {
    xs, ys := CreateSequences(pricesScaled, SeqLength);
    SizesPartition(|xs|);
    trainSize, testSize := TrainTestSizes(|xs|).0, TrainTestSizes(|xs|).1;
  }
}
