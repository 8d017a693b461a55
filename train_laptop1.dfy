/**
 * The laptop-1 training driver: the same existing-model scan, selection and
 * result bookkeeping as the smart top-20 driver, over INTC and three crypto
 * tickers, eight epochs per model, summarised by success count and average
 * accuracy.
 */
module TrainLaptop1 {
  import opened Numeric
  import Smart = TrainTop20Smart

  const Laptop1Tickers: seq<string> := ["INTC", "BTC_USDT", "ETH_USDT", "BNB_USDT"]

  /** Laptop 1 trains each model for eight epochs. */
  const Laptop1Epochs: nat := 8

  /** The pairs laptop 1 selects for the given directory listing. */
  function Laptop1Todo(listing: Option<seq<string>>): seq<(string, string)> {
    Smart.Missing(Laptop1Tickers, Smart.Timeframes, Smart.ExistingKeys(listing))
  }

  /** train_laptop1: scan, select, and (when anything is missing) train and record. */
  method TrainLaptop1(listing: Option<seq<string>>, attempt: Smart.Trainer)
    returns (results: seq<Smart.Record>)
    ensures results == Smart.Records(Laptop1Todo(listing), attempt, Laptop1Epochs)
  {
    var existing := Smart.CheckExistingModels(listing);
    var todo := Smart.SelectMissing(Laptop1Tickers, Smart.Timeframes, existing);
    if todo == [] {
      return [];
    }
    var completed;
    results, completed := Smart.TrainAll(todo, attempt, Laptop1Epochs);
  }

  /** The selection is INTC's missing timeframes followed by each crypto ticker's. */
  lemma TodoRows(listing: Option<seq<string>>)
    ensures var existing := Smart.ExistingKeys(listing);
            Laptop1Todo(listing) == Smart.MissingRow("INTC", Smart.Timeframes, existing)
              + Smart.MissingRow("BTC_USDT", Smart.Timeframes, existing)
              + Smart.MissingRow("ETH_USDT", Smart.Timeframes, existing)
              + Smart.MissingRow("BNB_USDT", Smart.Timeframes, existing)
  {
    var t1: seq<string> := ["INTC"];
    var t2: seq<string> := ["INTC", "BTC_USDT"];
    var t3: seq<string> := ["INTC", "BTC_USDT", "ETH_USDT"];
    assert Laptop1Tickers[..3] == t3 && t3[..2] == t2 && t2[..1] == t1 && t1[..0] == [];
    var existing := Smart.ExistingKeys(listing);
    var tfs := Smart.Timeframes;
    assert Smart.Missing(t1, tfs, existing) == Smart.MissingRow("INTC", tfs, existing);
    assert Smart.Missing(t2, tfs, existing) == Smart.Missing(t1, tfs, existing) + Smart.MissingRow("BTC_USDT", tfs, existing);
    assert Smart.Missing(t3, tfs, existing) == Smart.Missing(t2, tfs, existing) + Smart.MissingRow("ETH_USDT", tfs, existing);
  }

  /**
   * The three crypto tickers' six models are always selected, in ticker-major
   * order after whatever INTC needs, so at least six and at most eight
   * models are trained, and the "all models exist" branch is never taken.
   */
  lemma CryptoAlwaysSelected(listing: Option<seq<string>>)
    ensures var todo := Laptop1Todo(listing);
            && 6 <= |todo| <= 8
            && todo[|todo| - 6..] == [("BTC_USDT", "5m"), ("BTC_USDT", "15m"),
                                      ("ETH_USDT", "5m"), ("ETH_USDT", "15m"),
                                      ("BNB_USDT", "5m"), ("BNB_USDT", "15m")]
  {
    var existing := Smart.ExistingKeys(listing);
    var tfs := Smart.Timeframes;
    assert "BTC_USDT"[3] == '_' && "ETH_USDT"[3] == '_' && "BNB_USDT"[3] == '_';
    Smart.UnderscoreRowSelected(listing, "BTC_USDT", tfs);
    Smart.UnderscoreRowSelected(listing, "ETH_USDT", tfs);
    Smart.UnderscoreRowSelected(listing, "BNB_USDT", tfs);
    Smart.MissingRowCount("INTC", tfs, existing);
    TodoRows(listing);
  }
}
