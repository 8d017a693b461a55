/**
 * The smart top-20 training driver: scan the models directory for the
 * (ticker, timeframe) pairs that already have a checkpoint, train only the
 * missing pairs, one result record per attempt, and summarise the
 * successes (count, average accuracy, five best).
 *
 * The directory listing is a parameter (None for a missing directory) and
 * each training attempt is a parameter `attempt` giving its outcome.
 */
module TrainTop20Smart {
  import opened Numeric
  import Strings
  import Sorting
  import Seqs
  import MlConfig
  import TrainModel

  // ---------------------------------------------------------------- existing models

  /** `TICKER_TIMEFRAME` from a `TICKER_TIMEFRAME_MODELTYPE.pth` directory entry, when it has one. */
  function ParseKey(file: string): Option<string> {
    if !Strings.EndsWith(file, ".pth") then None
    else
      var parts := Strings.Split(Strings.RemoveAll(file, ".pth"), '_');
      if |parts| < 3 then None
      else Some(parts[0] + "_" + parts[1])
  }

  /** A parsed key is two underscore-free pieces joined by one underscore. */
  lemma ParseKeyShape(file: string)
    requires ParseKey(file).Some?
    ensures exists a, b :: ParseKey(file).value == a + "_" + b && '_' !in a && '_' !in b
  {
    var parts := Strings.Split(Strings.RemoveAll(file, ".pth"), '_');
    Strings.SplitPiecesFree(Strings.RemoveAll(file, ".pth"), '_');
    assert ParseKey(file).value == parts[0] + "_" + parts[1];
  }

  /** The keys of a listing, scanned in order. */
  function KeysOf(files: seq<string>): set<string> {
    if files == [] then {}
    else
      var last := files[|files| - 1];
      KeysOf(files[..|files| - 1]) + (if ParseKey(last).Some? then {ParseKey(last).value} else {})
  }

  /** check_existing_models: a missing directory has no keys. */
  function ExistingKeys(listing: Option<seq<string>>): set<string> {
    if listing.None? then {} else KeysOf(listing.value)
  }

  /** A key is present exactly when some entry of the listing parses to it. */
  lemma {:induction false} KeysOfMembers(files: seq<string>, k: string)
    ensures k in KeysOf(files) <==> exists f :: f in files && ParseKey(f) == Some(k)
  {
    if files != [] {
      var init, last := files[..|files| - 1], files[|files| - 1];
      KeysOfMembers(init, k);
      assert files == init + [last];
      assert forall f :: f in files <==> f in init || f == last;
    }
  }

  /** check_existing_models, with its loop over the directory entries. */
  method CheckExistingModels(listing: Option<seq<string>>) returns (existing: set<string>)
    ensures existing == ExistingKeys(listing)
  {
    existing := {};
    if listing.None? {
      return;
    }
    var files := listing.value;
    for i := 0 to |files|
      invariant existing == KeysOf(files[..i])
    {
      assert files[..i + 1][..i] == files[..i];
      var k := ParseKey(files[i]);
      if k.Some? {
        existing := existing + {k.value};
      }
    }
    assert files[..|files|] == files;
  }

  /** In `a + "_" + b` with no underscore in `a` or `b`, the only underscore is the joining one. */
  lemma OnlyUnderscore(a: string, b: string, q: nat)
    requires '_' !in a && '_' !in b
    requires q < |a + "_" + b| && (a + "_" + b)[q] == '_'
    ensures q == |a|
  {
  }

  /**
   * A ticker with an underscore (BTC_USDT) never matches an existing key,
   * which holds exactly one underscore: such pairs are always retrained.
   */
  lemma UnderscoreTickerNeverFound(listing: Option<seq<string>>, ticker: string, timeframe: string)
    requires '_' in ticker
    ensures ticker + "_" + timeframe !in ExistingKeys(listing)
  {
    var s := ticker + "_" + timeframe;
    if listing.Some? && s in KeysOf(listing.value) {
      KeysOfMembers(listing.value, s);
      var f :| f in listing.value && ParseKey(f) == Some(s);
      ParseKeyShape(f);
      var a, b :| s == a + "_" + b && '_' !in a && '_' !in b;
      var p :| 0 <= p < |ticker| && ticker[p] == '_';
      assert s[p] == '_' && s[|ticker|] == '_';
      OnlyUnderscore(a, b, p);
      assert false;
    }
  }

  /** Three pieces free of a character, joined by underscores, are free of it too. */
  lemma JoinFree(a: string, b: string, c: string, ch: char)
    requires ch != '_' && ch !in a && ch !in b && ch !in c
    ensures ch !in a + "_" + b + "_" + c
  {
  }

  /** Splitting three underscore-free pieces joined by underscores gives them back. */
  lemma SplitThree(a: string, b: string, c: string)
    requires '_' !in a && '_' !in b && '_' !in c
    ensures Strings.Split(a + "_" + b + "_" + c, '_') == [a, b, c]
  {
    Strings.SplitWithout(c, '_');
    Strings.SplitAfter(b, '_', c);
    assert a + "_" + b + "_" + c == a + ['_'] + (b + ['_'] + c);
    Strings.SplitAfter(a, '_', b + ['_'] + c);
  }

  /** The checkpoint file train_model saves parses back to its ticker and timeframe. */
  lemma SavedCheckpointParses(symbol: string, timeframe: string, modelType: string)
    requires '_' !in symbol && '_' !in timeframe && '_' !in modelType
    requires '.' !in symbol && '.' !in timeframe && '.' !in modelType
    ensures var file := symbol + "_" + timeframe + "_" + modelType + ".pth";
            && TrainModel.ModelPath(symbol, timeframe, modelType) == MlConfig.ModelsDir + file
            && ParseKey(file) == Some(symbol + "_" + timeframe)
  {
    var u := symbol + "_" + timeframe + "_" + modelType;
    var file := u + ".pth";
    assert file[|file| - 4..] == ".pth";
    JoinFree(symbol, timeframe, modelType, '.');
    Strings.RemoveTrailing(u, ".pth");
    SplitThree(symbol, timeframe, modelType);
  }

  // ---------------------------------------------------------------- selection

  const Top20Tickers: seq<string> := [
    "AAPL", "MSFT", "GOOGL", "AMZN", "TSLA", "NVDA", "META", "NFLX", "AMD", "INTC",
    "BTC_USDT", "ETH_USDT", "BNB_USDT", "XRP_USDT", "ADA_USDT",
    "SOL_USDT", "DOGE_USDT", "DOT_USDT", "AVAX_USDT", "SHIB_USDT"]

  const Timeframes: seq<string> := ["5m", "15m"]

  function ModelKey(ticker: string, timeframe: string): string {
    ticker + "_" + timeframe
  }

  /** One ticker's missing timeframes, in timeframe order. */
  function MissingRow(ticker: string, timeframes: seq<string>, existing: set<string>): seq<(string, string)> {
    if timeframes == [] then []
    else
      var tf := timeframes[|timeframes| - 1];
      MissingRow(ticker, timeframes[..|timeframes| - 1], existing)
      + (if ModelKey(ticker, tf) !in existing then [(ticker, tf)] else [])
  }

  /** models_to_train: the missing pairs, ticker-major then timeframe order. */
  function Missing(tickers: seq<string>, timeframes: seq<string>, existing: set<string>): seq<(string, string)> {
    if tickers == [] then []
    else Missing(tickers[..|tickers| - 1], timeframes, existing) + MissingRow(tickers[|tickers| - 1], timeframes, existing)
  }

  lemma {:induction false} MissingRowMembers(ticker: string, timeframes: seq<string>, existing: set<string>, pr: (string, string))
    ensures pr in MissingRow(ticker, timeframes, existing)
            <==> pr.0 == ticker && pr.1 in timeframes && ModelKey(ticker, pr.1) !in existing
  {
    if timeframes != [] {
      MissingRowMembers(ticker, timeframes[..|timeframes| - 1], existing, pr);
      assert timeframes == timeframes[..|timeframes| - 1] + [timeframes[|timeframes| - 1]];
    }
  }

  /** A pair is selected exactly when its ticker and timeframe are listed and its key is not found. */
  lemma {:induction false} MissingMembers(tickers: seq<string>, timeframes: seq<string>, existing: set<string>, pr: (string, string))
    ensures pr in Missing(tickers, timeframes, existing)
            <==> pr.0 in tickers && pr.1 in timeframes && ModelKey(pr.0, pr.1) !in existing
  {
    if tickers != [] {
      var last := tickers[|tickers| - 1];
      MissingMembers(tickers[..|tickers| - 1], timeframes, existing, pr);
      MissingRowMembers(last, timeframes, existing, pr);
      assert tickers == tickers[..|tickers| - 1] + [last];
    }
  }

  /** At most one pair per ticker and timeframe. */
  lemma {:induction false} MissingCount(tickers: seq<string>, timeframes: seq<string>, existing: set<string>)
    ensures |Missing(tickers, timeframes, existing)| <= |tickers| * |timeframes|
  {
    if tickers != [] {
      MissingCount(tickers[..|tickers| - 1], timeframes, existing);
      MissingRowCount(tickers[|tickers| - 1], timeframes, existing);
      assert |tickers| * |timeframes| == (|tickers| - 1) * |timeframes| + |timeframes|;
    }
  }

  lemma {:induction false} MissingRowCount(ticker: string, timeframes: seq<string>, existing: set<string>)
    ensures |MissingRow(ticker, timeframes, existing)| <= |timeframes|
  {
    if timeframes != [] {
      MissingRowCount(ticker, timeframes[..|timeframes| - 1], existing);
    }
  }

  /** A ticker none of whose keys exists gets every timeframe selected, in order. */
  lemma {:induction false} MissingRowAll(ticker: string, timeframes: seq<string>, existing: set<string>)
    requires forall k :: 0 <= k < |timeframes| ==> ModelKey(ticker, timeframes[k]) !in existing
    ensures |MissingRow(ticker, timeframes, existing)| == |timeframes|
    ensures forall k :: 0 <= k < |timeframes| ==> MissingRow(ticker, timeframes, existing)[k] == (ticker, timeframes[k])
  {
    if timeframes != [] {
      MissingRowAll(ticker, timeframes[..|timeframes| - 1], existing);
    }
  }

  /** So a ticker with an underscore always has all its timeframes selected. */
  lemma UnderscoreRowSelected(listing: Option<seq<string>>, ticker: string, timeframes: seq<string>)
    requires '_' in ticker
    ensures |MissingRow(ticker, timeframes, ExistingKeys(listing))| == |timeframes|
    ensures forall k :: 0 <= k < |timeframes| ==> MissingRow(ticker, timeframes, ExistingKeys(listing))[k] == (ticker, timeframes[k])
  {
    forall k | 0 <= k < |timeframes| ensures ModelKey(ticker, timeframes[k]) !in ExistingKeys(listing) {
      UnderscoreTickerNeverFound(listing, ticker, timeframes[k]);
    }
    MissingRowAll(ticker, timeframes, ExistingKeys(listing));
  }

  /**
   * The top-20 selection is never empty, whatever the directory holds: the
   * crypto tickers are always selected, so the "nothing to train" branch
   * cannot be taken.
   */
  lemma Top20NeverComplete(listing: Option<seq<string>>)
    ensures ("BTC_USDT", "5m") in Missing(Top20Tickers, Timeframes, ExistingKeys(listing))
  {
    assert "BTC_USDT"[3] == '_';
    UnderscoreTickerNeverFound(listing, "BTC_USDT", "5m");
    MissingMembers(Top20Tickers, Timeframes, ExistingKeys(listing), ("BTC_USDT", "5m"));
  }

  /** The nested selection loops. */
  method SelectMissing(tickers: seq<string>, timeframes: seq<string>, existing: set<string>)
    returns (todo: seq<(string, string)>)
    ensures todo == Missing(tickers, timeframes, existing)
  {
    todo := [];
    for i := 0 to |tickers|
      invariant todo == Missing(tickers[..i], timeframes, existing)
    {
      assert tickers[..i + 1][..i] == tickers[..i];
      ghost var before := todo;
      for k := 0 to |timeframes|
        invariant todo == before + MissingRow(tickers[i], timeframes[..k], existing)
      {
        assert timeframes[..k + 1][..k] == timeframes[..k];
        if ModelKey(tickers[i], timeframes[k]) !in existing {
          todo := todo + [(tickers[i], timeframes[k])];
        }
      }
      assert timeframes[..|timeframes|] == timeframes;
    }
    assert tickers[..|tickers|] == tickers;
  }

  // ---------------------------------------------------------------- training

  /** What one `prepare_data` + `train_model` attempt came to. */
  datatype Attempt = Trained(testAcc: real) | NoData | Raised(error: string)

  /**
   * One `prepare_data` + `train_model(..., epochs)` attempt for a ticker and
   * timeframe: what the trainer and the data on disk make of it.
   */
  type Trainer = (string, string, nat) -> Attempt

  /** The smart top-20 run trains each model for ten epochs. */
  const Top20Epochs: nat := 10

  datatype Record = Record(ticker: string, timeframe: string, accuracy: real, status: string)

  function RecordOf(pr: (string, string), a: Attempt): Record {
    match a
    case Trained(acc) => Record(pr.0, pr.1, acc, "success")
    case NoData => Record(pr.0, pr.1, 0.0, "no_data")
    case Raised(e) => Record(pr.0, pr.1, 0.0, "error: " + e)
  }

  /** Only a trained attempt is recorded as a success. */
  lemma SuccessIffTrained(pr: (string, string), a: Attempt)
    ensures RecordOf(pr, a).status == "success" <==> a.Trained?
    ensures RecordOf(pr, a).ticker == pr.0 && RecordOf(pr, a).timeframe == pr.1
  {
    if a.Raised? {
      assert ("error: " + a.error)[0] == 'e';
    }
  }

  predicate IsSuccess(r: Record) {
    r.status == "success"
  }

  /** The records of attempting each pair in turn, training for `epochs` epochs. */
  function Records(todo: seq<(string, string)>, attempt: Trainer, epochs: nat): (rs: seq<Record>)
    ensures |rs| == |todo|
  {
    seq(|todo|, i requires 0 <= i < |todo| => RecordOf(todo[i], attempt(todo[i].0, todo[i].1, epochs)))
  }

  function CountSuccess(rs: seq<Record>): nat {
    if rs == [] then 0
    else CountSuccess(rs[..|rs| - 1]) + (if IsSuccess(rs[|rs| - 1]) then 1 else 0)
  }

  /** The training loop: one record per attempted pair; `completed` counts the successes. */
  method TrainAll(todo: seq<(string, string)>, attempt: Trainer, epochs: nat)
    returns (results: seq<Record>, completed: nat)
    ensures results == Records(todo, attempt, epochs)
    ensures completed == CountSuccess(results)
  {
    results, completed := [], 0;
    for i := 0 to |todo|
      invariant results == Records(todo[..i], attempt, epochs)
      invariant completed == CountSuccess(results)
    {
      var (ticker, timeframe) := todo[i];
      var a := attempt(ticker, timeframe, epochs);
      var r := RecordOf(todo[i], a);
      SuccessIffTrained(todo[i], a);
      if a.Trained? {
        completed := completed + 1;
      }
      assert (results + [r])[..|results|] == results;
      results := results + [r];
      assert results == Records(todo[..i + 1], attempt, epochs);
    }
    assert todo[..|todo|] == todo;
  }

  /** train_top20_tickers_smart: nothing is attempted when no pair is missing. */
  method TrainTop20TickersSmart(listing: Option<seq<string>>, attempt: Trainer)
    returns (results: seq<Record>)
    ensures results == Records(Missing(Top20Tickers, Timeframes, ExistingKeys(listing)), attempt, Top20Epochs)
  {
    var existing := CheckExistingModels(listing);
    var todo := SelectMissing(Top20Tickers, Timeframes, existing);
    if todo == [] {
      return [];
    }
    var completed;
    results, completed := TrainAll(todo, attempt, Top20Epochs);
  }

  // ---------------------------------------------------------------- summary

  function Accuracy(r: Record): real {
    r.accuracy
  }

  /** The summary: successes, failures, average accuracy over the successes, the five best. */
  datatype Summary = Summary(successful: seq<Record>, failed: seq<Record>, average: Option<real>, best: seq<Record>)

  /** The mean accuracy of the successes; there is none without a success. */
  function Average(successful: seq<Record>): Option<real> {
    if successful == [] then None
    else Some(Sorting.SumBy(successful, Accuracy) / |successful| as real)
  }

  /** The five most accurate successes, best first (all of them when fewer). */
  function Best(successful: seq<Record>): seq<Record> {
    var sorted := Sorting.SortByDescending(successful, Accuracy);
    sorted[..if |sorted| < 5 then |sorted| else 5]
  }

  function Summarise(results: seq<Record>): Summary {
    var successful := Seqs.Filter(results, IsSuccess);
    Summary(successful, Seqs.Filter(results, r => !IsSuccess(r)), Average(successful), Best(successful))
  }

  lemma {:induction false} FilterSplit(results: seq<Record>)
    ensures |Seqs.Filter(results, IsSuccess)| == CountSuccess(results)
    ensures |Seqs.Filter(results, IsSuccess)| + |Seqs.Filter(results, r => !IsSuccess(r))| == |results|
  {
    if results != [] {
      FilterSplit(results[..|results| - 1]);
    }
  }

  lemma {:induction false} SumBounds(rs: seq<Record>, lo: real, hi: real)
    requires forall i :: 0 <= i < |rs| ==> lo <= rs[i].accuracy <= hi
    ensures |rs| as real * lo <= Sorting.SumBy(rs, Accuracy) <= |rs| as real * hi
  {
    if rs != [] {
      SumBounds(rs[1..], lo, hi);
      assert |rs| as real * lo == lo + (|rs| - 1) as real * lo;
      assert |rs| as real * hi == hi + (|rs| - 1) as real * hi;
    }
  }

  /** Every record is a success or a failure, and the successes are exactly those `completed` counted. */
  lemma SummaryCounts(results: seq<Record>)
    ensures var s := Summarise(results);
            && |s.successful| == CountSuccess(results)
            && |s.successful| + |s.failed| == |results|
            && (forall r :: r in s.successful <==> r in results && IsSuccess(r))
            && (s.average.Some? <==> s.successful != [])
  {
    FilterSplit(results);
    forall r ensures r in Seqs.Filter(results, IsSuccess) <==> r in results && IsSuccess(r) {
      Seqs.FilterMembers(results, IsSuccess, r);
    }
  }

  /** A failed record changes neither the successes nor the average: the average is over successes only. */
  lemma FailureLeavesAverage(results: seq<Record>, r: Record)
    requires !IsSuccess(r)
    ensures Summarise(results + [r]).successful == Summarise(results).successful
    ensures Summarise(results + [r]).average == Summarise(results).average
    ensures Summarise(results + [r]).failed == Summarise(results).failed + [r]
  {
    assert (results + [r])[..|results|] == results;
  }

  lemma QuotientBounds(sum: real, n: real, lo: real, hi: real)
    requires n > 0.0 && n * lo <= sum <= n * hi
    ensures lo <= sum / n <= hi
  {
    assert sum / n * n == sum;
  }

  /** The mean lies within any range holding every accuracy it averages. */
  lemma AverageWithin(rs: seq<Record>, lo: real, hi: real)
    requires forall i :: 0 <= i < |rs| ==> lo <= rs[i].accuracy <= hi
    ensures Average(rs).Some? ==> lo <= Average(rs).value <= hi
  {
    if rs != [] {
      SumBounds(rs, lo, hi);
      QuotientBounds(Sorting.SumBy(rs, Accuracy), |rs| as real, lo, hi);
    }
  }

  /** The average accuracy lies within any range holding every success's accuracy. */
  lemma AverageBounds(results: seq<Record>, lo: real, hi: real)
    requires forall i :: 0 <= i < |results| && IsSuccess(results[i]) ==> lo <= results[i].accuracy <= hi
    ensures Summarise(results).average.Some? ==> lo <= Summarise(results).average.value <= hi
  {
    var successful := Seqs.Filter(results, IsSuccess);
    forall i | 0 <= i < |successful| ensures lo <= successful[i].accuracy <= hi {
      Seqs.FilterMembers(results, IsSuccess, successful[i]);
      var j :| 0 <= j < |results| && results[j] == successful[i];
    }
    AverageWithin(successful, lo, hi);
  }

  /** A prefix of a best-first list is best-first, and nothing after it beats its last element. */
  lemma DescendingPrefix(sorted: seq<Record>, m: nat)
    requires Sorting.Descending(sorted, Accuracy) && 0 < m <= |sorted|
    ensures Sorting.Descending(sorted[..m], Accuracy)
    ensures multiset(sorted) == multiset(sorted[..m]) + multiset(sorted[m..])
    ensures forall r :: r in multiset(sorted) && r !in multiset(sorted[..m]) ==> r.accuracy <= sorted[m - 1].accuracy
  {
    assert sorted == sorted[..m] + sorted[m..];
    forall r | r in multiset(sorted) && r !in multiset(sorted[..m])
      ensures r.accuracy <= sorted[m - 1].accuracy
    {
      assert r in multiset(sorted[m..]);
      var j :| 0 <= j < |sorted[m..]| && sorted[m..][j] == r;
      assert sorted[m + j] == r;
    }
  }

  /**
   * The best list holds at most five records, best first, all drawn from the
   * successes (all of them when fewer than five), and no success left out
   * beats any of them.
   */
  lemma BestFive(successful: seq<Record>)
    ensures var best := Best(successful);
            && |best| <= 5 && (|best| == 5 || |best| == |successful|)
            && Sorting.Descending(best, Accuracy)
            && multiset(best) <= multiset(successful)
            && (best != [] ==> forall r :: r in successful && r !in multiset(best) ==> r.accuracy <= best[|best| - 1].accuracy)
  {
    var sorted := Sorting.SortByDescending(successful, Accuracy);
    var m := if |sorted| < 5 then |sorted| else 5;
    assert |sorted| == |successful| by {
      assert |multiset(sorted)| == |multiset(successful)|;
    }
    if m > 0 {
      DescendingPrefix(sorted, m);
    }
  }
}
