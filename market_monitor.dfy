/**
 * The indicator engine of the market-monitoring agent: pure functions from the closing
 * prices of recent klines (candles) to the feature map the decision engine consumes.
 */
module MarketMonitor {
  import opened Common

  /**
   * One kline as the exchange reports it. Only the close (field 4 of the exchange's list)
   * and the volume (field 5) are used anywhere in the pipeline.
   */
  datatype Candle = Candle(openTime: int, open: real, high: real, low: real, close: real, volume: real)

  const FeatureKeys: set<string> := {"sma_10", "sma_50", "rsi_14", "current_price", "price_change_1m"}

  /** The closing price of every candle, in order. */
  function Closes(klines: seq<Candle>): (cs: seq<real>)
    ensures |cs| == |klines|
    ensures forall i :: 0 <= i < |klines| ==> cs[i] == klines[i].close
  {
    seq(|klines|, i requires 0 <= i < |klines| => klines[i].close)
  }

  /**
   * Simple moving average of the last `window` prices; with fewer prices than that,
   * the most recent price, or 0.0 when there is none.
   */
  function Sma(prices: seq<real>, window: int): (r: real)
    requires window > 0
    ensures |prices| < window ==> r == if prices == [] then 0.0 else prices[|prices| - 1]
    ensures |prices| >= window ==> r * window as real == Sum(prices[|prices| - window..])
  {
    if |prices| < window then
      if prices == [] then 0.0 else prices[|prices| - 1]
    else
      Sum(prices[|prices| - window..]) / window as real
  }

  /** The average of a full window lies between the smallest and the largest price in it. */
  lemma SmaWithinWindow(prices: seq<real>, window: int, lo: real, hi: real)
    requires 0 < window <= |prices|
    requires forall i :: |prices| - window <= i < |prices| ==> lo <= prices[i] <= hi
    ensures lo <= Sma(prices, window) <= hi
  {
    var n := |prices|;
    SliceSumBounds(prices, n - window, n, lo, hi);
    assert prices[n - window..n] == prices[n - window..];
    MeanBounds(Sma(prices, window), window as real, Sum(prices[n - window..]), lo, hi);
  }

  /** Successive differences: element i is prices[i+1] - prices[i]. */
  function Deltas(prices: seq<real>): (ds: seq<real>)
    ensures |ds| == if prices == [] then 0 else |prices| - 1
    ensures forall i :: 0 <= i < |ds| ==> ds[i] == prices[i + 1] - prices[i]
  {
    if prices == [] then [] else seq(|prices| - 1, i requires 0 <= i < |prices| - 1 => prices[i + 1] - prices[i])
  }

  /** The strictly positive deltas, in order (`[d for d in ds if d > 0]`). */
  function Gains(ds: seq<real>): (gs: seq<real>)
    ensures forall i :: 0 <= i < |gs| ==> gs[i] > 0.0
    ensures |gs| == 0 <==> forall i :: 0 <= i < |ds| ==> ds[i] <= 0.0
  {
    if ds == [] then []
    else
      var rest := Gains(ds[1..]);
      assert forall i :: 1 <= i < |ds| ==> ds[i] == ds[1..][i - 1];
      (if ds[0] > 0.0 then [ds[0]] else []) + rest
  }

  /** The magnitudes of the strictly negative deltas, in order (`[-d for d in ds if d < 0]`). */
  function Losses(ds: seq<real>): (ls: seq<real>)
    ensures forall i :: 0 <= i < |ls| ==> ls[i] > 0.0
    ensures |ls| == 0 <==> forall i :: 0 <= i < |ds| ==> ds[i] >= 0.0
  {
    if ds == [] then []
    else
      var rest := Losses(ds[1..]);
      assert forall i :: 1 <= i < |ds| ==> ds[i] == ds[1..][i - 1];
      (if ds[0] < 0.0 then [-ds[0]] else []) + rest
  }

  /** The last `period` deltas of a series with at least period + 1 prices. */
  function RecentDeltas(prices: seq<real>, period: int): (rd: seq<real>)
    requires 0 < period && period + 1 <= |prices|
    ensures |rd| == period
    ensures forall i :: 0 <= i < period ==>
      rd[i] == prices[|prices| - period + i] - prices[|prices| - period + i - 1]
  {
    var ds := Deltas(prices);
    ds[|ds| - period..]
  }

  /** `sum(xs) / period if xs else 0.0` for a list of strictly positive values. */
  function AverageOver(xs: seq<real>, period: int): (r: real)
    requires period > 0
    requires forall i :: 0 <= i < |xs| ==> xs[i] > 0.0
    ensures |xs| == 0 ==> r == 0.0
    ensures |xs| > 0 ==> r > 0.0
  {
    if |xs| > 0 then SumPositive(xs); Sum(xs) / period as real else 0.0
  }

  /** RSI from the two averages: 100.0 without losses, else 100 - 100 / (1 + gain/loss). */
  function RsiFromAverages(avgGain: real, avgLoss: real): (r: real)
    requires avgGain >= 0.0 && avgLoss >= 0.0
    ensures avgLoss > 0.0 ==> 0.0 <= r < 100.0
  {
    if avgLoss == 0.0 then 100.0
    else
      var rs := avgGain / avgLoss;
      assert rs >= 0.0;
      assert 100.0 / (1.0 + rs) <= 100.0 && 100.0 / (1.0 + rs) > 0.0;
      100.0 - 100.0 / (1.0 + rs)
  }

  /**
   * The simplified RSI of the last `period` deltas: average gain and average loss are the
   * sums of gains and of losses divided by `period`; no loss at all gives 100.0, and fewer
   * than period + 1 prices give the neutral 50.0.
   */
  function Rsi(prices: seq<real>, period: int): (r: real)
    requires period > 0
    ensures |prices| < period + 1 ==> r == 50.0
  {
    if |prices| < period + 1 then 50.0
    else
      RsiOfDeltas(RecentDeltas(prices, period), period)
  }

  /** RSI of a window of deltas: average gain against average loss over `period`. */
  function RsiOfDeltas(ds: seq<real>, period: int): real
    requires period > 0
  {
    RsiFromAverages(AverageOver(Gains(ds), period), AverageOver(Losses(ds), period))
  }

  /** No loss among the recent deltas means no price fell over the last `period` steps. */
  predicate NoRecentFall(prices: seq<real>, period: int)
    requires 0 < period && period + 1 <= |prices|
  {
    forall i :: |prices| - period <= i < |prices| ==> NotFalling(prices, i)
  }

  /** The price at step i is not below the one before it. */
  predicate NotFalling(prices: seq<real>, i: int)
    requires 0 < i < |prices|
  {
    prices[i] >= prices[i - 1]
  }

  lemma NoRecentFallIffNoLosses(prices: seq<real>, period: int)
    requires 0 < period && period + 1 <= |prices|
    ensures NoRecentFall(prices, period) <==> |Losses(RecentDeltas(prices, period))| == 0
  {
    if NoRecentFall(prices, period) {
      NoFallHasNoLoss(prices, period);
    } else {
      FallHasLoss(prices, period);
    }
  }

  lemma NoFallHasNoLoss(prices: seq<real>, period: int)
    requires 0 < period && period + 1 <= |prices|
    requires NoRecentFall(prices, period)
    ensures |Losses(RecentDeltas(prices, period))| == 0
  {
    var recent := RecentDeltas(prices, period);
    var base := |prices| - period;
    forall k | 0 <= k < |recent| ensures recent[k] >= 0.0 {
      assert NotFalling(prices, base + k);
    }
  }

  lemma FallHasLoss(prices: seq<real>, period: int)
    requires 0 < period && period + 1 <= |prices|
    requires !NoRecentFall(prices, period)
    ensures |Losses(RecentDeltas(prices, period))| > 0
  {
    var i := FallingStep(prices, period);
    var k := i - (|prices| - period);
    DeltaOfStep(prices, period, i);
    NegativeDeltaIsLoss(RecentDeltas(prices, period), k);
  }

  lemma FallingStep(prices: seq<real>, period: int) returns (i: int)
    requires 0 < period && period + 1 <= |prices|
    requires !NoRecentFall(prices, period)
    ensures |prices| - period <= i < |prices| && prices[i] < prices[i - 1]
  {
    i :| |prices| - period <= i < |prices| && !NotFalling(prices, i);
  }

  lemma DeltaOfStep(prices: seq<real>, period: int, i: int)
    requires 0 < period && period + 1 <= |prices|
    requires |prices| - period <= i < |prices|
    ensures RecentDeltas(prices, period)[i - (|prices| - period)] == prices[i] - prices[i - 1]
  {
  }

  lemma NegativeDeltaIsLoss(ds: seq<real>, k: int)
    requires 0 <= k < |ds| && ds[k] < 0.0
    ensures |Losses(ds)| > 0
  {
  }

  /** RSI is 100.0 exactly when none of the last `period` deltas is negative. */
  lemma RsiHundredIffNoLoss(prices: seq<real>, period: int)
    requires 0 < period && period + 1 <= |prices|
    ensures Rsi(prices, period) == 100.0 <==> NoRecentFall(prices, period)
  {
    NoRecentFallIffNoLosses(prices, period);
  }

  /**
   * With at least one loss, the RSI is the classic 100 * G / (G + L) of the summed gains G
   * and summed losses L: dividing both by `period` cancels out, and the value lies in [0, 100).
   */
  lemma RsiClassicForm(prices: seq<real>, period: int)
    requires 0 < period && period + 1 <= |prices|
    requires !NoRecentFall(prices, period)
    ensures var recent := RecentDeltas(prices, period);
      var g, l := Sum(Gains(recent)), Sum(Losses(recent));
      l > 0.0 && g >= 0.0 && Rsi(prices, period) == ClassicRsi(g, l)
  {
    var recent := RecentDeltas(prices, period);
    FallHasLoss(prices, period);
    ClassicFormOfDeltas(recent, period);
    assert Rsi(prices, period) == RsiOfDeltas(recent, period);
  }

  lemma ClassicFormOfDeltas(ds: seq<real>, period: int)
    requires period > 0 && |Losses(ds)| > 0
    ensures var g, l := Sum(Gains(ds)), Sum(Losses(ds));
      l > 0.0 && g >= 0.0 && RsiOfDeltas(ds, period) == ClassicRsi(g, l)
  {
    var gains, losses := Gains(ds), Losses(ds);
    SumPositive(losses);
    var g, l, p := Sum(gains), Sum(losses), period as real;
    if |gains| > 0 {
      SumPositive(gains);
    } else {
      assert gains == [];
    }
    assert AverageOver(gains, period) == if g == 0.0 then 0.0 else g / p;
    RatioForm(g, l, p);
  }

  /** The textbook RSI of summed gains g and summed losses l: the share of gains in all movement. */
  function ClassicRsi(g: real, l: real): (r: real)
    requires g >= 0.0 && l > 0.0
    ensures 0.0 <= r < 100.0
    ensures r == 0.0 <==> g == 0.0
  {
    var share := g / (g + l);
    assert share * (g + l) == g < g + l;
    assert share < 1.0;
    100.0 * share
  }

  /** 100 - 100 / (1 + (g/p) / (l/p)) is 100 g / (g + l). */
  lemma RatioForm(g: real, l: real, p: real)
    requires g >= 0.0 && l > 0.0 && p > 0.0
    ensures RsiFromAverages(if g == 0.0 then 0.0 else g / p, l / p) == ClassicRsi(g, l)
  {
    var avgGain, avgLoss := if g == 0.0 then 0.0 else g / p, l / p;
    assert avgLoss > 0.0;
    assert avgGain == g / p;
    var q := avgGain / avgLoss;
    assert q == g / l;
    assert q * l == g;
    var d := 1.0 + q;
    assert d * l == l + g;
    var e := 100.0 / d;
    assert e * d == 100.0;
    assert e * (l + g) == 100.0 * l by {
      assert e * (l + g) == e * (d * l);
      assert e * (d * l) == (e * d) * l;
    }
    var t := ClassicRsi(g, l);
    assert t * (g + l) == 100.0 * g;
    assert (100.0 - e) * (g + l) == t * (g + l);
    CancelPositive(100.0 - e, t, g + l);
  }

  lemma CancelPositive(x: real, y: real, c: real)
    requires c > 0.0 && x * c == y * c
    ensures x == y
  {
    assert (x - y) * c == 0.0;
  }

  /** RSI always lies in [0, 100]. */
  lemma RsiRange(prices: seq<real>, period: int)
    requires period > 0
    ensures 0.0 <= Rsi(prices, period) <= 100.0
  {
    if period + 1 <= |prices| && !NoRecentFall(prices, period) {
      RsiClassicForm(prices, period);
    }
  }

  /** RSI reads nothing but the last period + 1 prices. */
  lemma RsiUsesOnlyRecentPrices(prices: seq<real>, period: int)
    requires 0 < period && period + 1 <= |prices|
    ensures Rsi(prices, period) == Rsi(prices[|prices| - period - 1..], period)
  {
    var tail := prices[|prices| - period - 1..];
    var a, b := RecentDeltas(prices, period), RecentDeltas(tail, period);
    forall k | 0 <= k < period ensures a[k] == b[k] {
      assert tail[k + 1] == prices[|prices| - period + k];
      assert tail[k] == prices[|prices| - period + k - 1];
    }
    assert a == b;
  }

  /** The 1-minute percent change between the last two closes (0.0 with a single close). */
  function PriceChange1m(closes: seq<real>): (r: Result<real>)
    ensures |closes| < 2 ==> r == Ok(0.0)
    ensures r.Err? <==> |closes| >= 2 && closes[|closes| - 2] == 0.0
  {
    if |closes| >= 2 then
      var prev, last := closes[|closes| - 2], closes[|closes| - 1];
      if prev == 0.0 then Err("float division by zero")
      else Ok((last - prev) / prev * 100.0)
    else Ok(0.0)
  }

  /** With a positive previous close, the change is positive exactly when the price rose. */
  lemma PriceChangeSign(closes: seq<real>)
    requires |closes| >= 2 && closes[|closes| - 2] > 0.0
    ensures PriceChange1m(closes).Ok?
    ensures PriceChange1m(closes).value > 0.0 <==> closes[|closes| - 1] > closes[|closes| - 2]
  {
    var prev, last := closes[|closes| - 2], closes[|closes| - 1];
    if last > prev {
      assert (last - prev) / prev > 0.0;
    } else {
      assert (last - prev) / prev <= 0.0;
    }
  }

  /**
   * The feature map of a kline series: empty for no klines, otherwise exactly the keys
   * sma_10, sma_50, rsi_14, current_price and price_change_1m. A zero second-to-last close
   * makes the percent change divide by zero, which raises.
   */
  function ExtractFeatures(klines: seq<Candle>): (r: Result<map<string, real>>)
    ensures klines == [] ==> r == Ok(map[])
    ensures r.Err? <==> |klines| >= 2 && klines[|klines| - 2].close == 0.0
    ensures r.Ok? && klines != [] ==>
      && r.value.Keys == FeatureKeys
      && r.value["current_price"] == klines[|klines| - 1].close
      && r.value["sma_10"] == Sma(Closes(klines), 10)
      && r.value["sma_50"] == Sma(Closes(klines), 50)
      && r.value["rsi_14"] == Rsi(Closes(klines), 14)
      && Ok(r.value["price_change_1m"]) == PriceChange1m(Closes(klines))
  {
    if klines == [] then Ok(map[])
    else
      var closes := Closes(klines);
      match PriceChange1m(closes)
      case Err(m) => Err(m)
      case Ok(change) =>
        Ok(map[
          "sma_10" := Sma(closes, 10),
          "sma_50" := Sma(closes, 50),
          "rsi_14" := Rsi(closes, 14),
          "current_price" := closes[|closes| - 1],
          "price_change_1m" := change
        ])
  }

  /** Extracted features never carry a volume, and their RSI lies in [0, 100]. */
  lemma ExtractedFeaturesShape(klines: seq<Candle>)
    requires ExtractFeatures(klines).Ok?
    ensures "volume" !in ExtractFeatures(klines).value
    ensures "rsi_14" in ExtractFeatures(klines).value ==>
      0.0 <= ExtractFeatures(klines).value["rsi_14"] <= 100.0
  {
    if klines != [] {
      RsiRange(Closes(klines), 14);
    }
  }

  /** What the market client returns: the current price, and the recent one-minute klines. */
  datatype Feed = Feed(price: real, klines: seq<Candle>)

  /** The market stage's output: the price is the client's current price, not the last close. */
  datatype MarketData = MarketData(symbol: string, price: real, features: map<string, real>, rawKlines: seq<Candle>)

  /**
   * `process`: fetch the price and the klines, extract the features, and keep the first ten
   * klines. A failed fetch or a failed extraction is raised again to the caller.
   */
  function MarketProcess(symbol: string, fetched: Result<Feed>): (r: Result<MarketData>)
    ensures fetched.Err? ==> r == Err(fetched.message)
    ensures fetched.Ok? ==> (r.Ok? <==> ExtractFeatures(fetched.value.klines).Ok?)
    ensures fetched.Ok? && r.Err? ==> r == Err(ExtractFeatures(fetched.value.klines).message)
  {
    match fetched
    case Err(m) => Err(m)
    case Ok(feed) =>
      match ExtractFeatures(feed.klines)
      case Err(m) => Err(m)
      case Ok(features) =>
        var kept := if |feed.klines| < 10 then feed.klines else feed.klines[..10];
        Ok(MarketData(symbol, feed.price, features, kept))
  }

  /**
   * A successful market stage reports the requested symbol and the fetched price, the
   * features of the klines, and at most their first ten.
   */
  lemma MarketProcessReports(symbol: string, feed: Feed)
    requires MarketProcess(symbol, Ok(feed)).Ok?
    ensures var d := MarketProcess(symbol, Ok(feed)).value;
      && d.symbol == symbol && d.price == feed.price
      && d.features == ExtractFeatures(feed.klines).value
      && |d.rawKlines| == Min(10, |feed.klines|) && d.rawKlines <= feed.klines
  {
  }

  /** With no klines the features are empty and the stage still succeeds. */
  lemma MarketProcessWithoutKlines(symbol: string, price: real)
    ensures MarketProcess(symbol, Ok(Feed(price, []))) == Ok(MarketData(symbol, price, map[], []))
  {
  }
}
