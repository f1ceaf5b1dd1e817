/**
 * The training-side feature table: one row per kline, built column-wise with rolling means
 * over the rows seen so far (a window that is shorter at the start of the series).
 */
module TrainingFeatures {
  import opened Common
  import opened MarketMonitor

  /**
   * A percent change as pandas computes it: a number, or an infinity when the previous close
   * is zero and the current one is not. (0/0 gives NaN, which the table fills with 0.)
   */
  datatype Pct = Finite(value: real) | Infinite

  /** One row of the table, in the column order sma_10, sma_50, rsi, price_change, volume. */
  datatype FeatureRow = FeatureRow(sma10: real, sma50: real, rsi: real, priceChange: Pct, volume: real)

  /** The first row of the rolling window of width w that ends at row i. */
  function WindowStart(w: int, i: int): (start: int)
    requires w > 0 && i >= 0
    ensures 0 <= start <= i && i + 1 - start <= w
    ensures i + 1 >= w ==> i + 1 - start == w
  {
    Max(0, i - w + 1)
  }

  /** Rolling mean with min_periods=1: the mean of xs over rows WindowStart(w, i)..i. */
  function RollingMean(xs: seq<real>, w: int, i: int): (r: real)
    requires w > 0 && 0 <= i < |xs|
    ensures r * (i + 1 - WindowStart(w, i)) as real == Sum(xs[WindowStart(w, i)..i + 1])
  {
    var start := WindowStart(w, i);
    Sum(xs[start..i + 1]) / (i + 1 - start) as real
  }

  /** A rolling mean lies between the smallest and the largest value of its window. */
  lemma RollingMeanWithin(xs: seq<real>, w: int, i: int, lo: real, hi: real)
    requires w > 0 && 0 <= i < |xs|
    requires forall k :: WindowStart(w, i) <= k <= i ==> lo <= xs[k] <= hi
    ensures lo <= RollingMean(xs, w, i) <= hi
  {
    var start := WindowStart(w, i);
    SliceSumBounds(xs, start, i + 1, lo, hi);
    MeanBounds(RollingMean(xs, w, i), (i + 1 - start) as real, Sum(xs[start..i + 1]), lo, hi);
  }

  /** Once the window is full, the rolling mean is the indicator engine's SMA of the prefix. */
  lemma RollingMeanIsSma(xs: seq<real>, w: int, i: int)
    requires w > 0 && w - 1 <= i < |xs|
    ensures RollingMean(xs, w, i) == Sma(xs[..i + 1], w)
  {
    var prefix := xs[..i + 1];
    assert prefix[|prefix| - w..] == xs[WindowStart(w, i)..i + 1];
    var n := w as real;
    assert RollingMean(xs, w, i) * n == Sma(prefix, w) * n;
    CancelPositive(RollingMean(xs, w, i), Sma(prefix, w), n);
  }

  /** Before the window fills, the rolling mean averages every price so far. */
  lemma RollingMeanOfShortPrefix(xs: seq<real>, w: int, i: int)
    requires w > 0 && 0 <= i < |xs| && i + 1 < w
    ensures RollingMean(xs, w, i) * (i + 1) as real == Sum(xs[..i + 1])
  {
  }

  /** `delta.where(delta > 0, 0)`: the rise at each step, 0 where the price did not rise. */
  function PositiveParts(ds: seq<real>): (ps: seq<real>)
    ensures |ps| == |ds|
    ensures forall i :: 0 <= i < |ds| ==> ps[i] >= 0.0 && (ps[i] > 0.0 <==> ds[i] > 0.0)
  {
    seq(|ds|, i requires 0 <= i < |ds| => if ds[i] > 0.0 then ds[i] else 0.0)
  }

  /** `-delta.where(delta < 0, 0)`: the fall at each step, 0 where the price did not fall. */
  function NegativeParts(ds: seq<real>): (ns: seq<real>)
    ensures |ns| == |ds|
    ensures forall i :: 0 <= i < |ds| ==> ns[i] >= 0.0 && (ns[i] > 0.0 <==> ds[i] < 0.0)
  {
    seq(|ds|, i requires 0 <= i < |ds| => if ds[i] < 0.0 then -ds[i] else 0.0)
  }

  /** Summing the rises column gives the same total as summing the filtered gains. */
  lemma {:induction false} SumPositivePartsIsSumGains(ds: seq<real>)
    ensures Sum(PositiveParts(ds)) == Sum(Gains(ds))
  {
    if ds != [] {
      SumPositivePartsIsSumGains(ds[1..]);
      var ps := PositiveParts(ds);
      assert ps[1..] == PositiveParts(ds[1..]);
      var head := if ds[0] > 0.0 then [ds[0]] else [];
      assert Gains(ds) == head + Gains(ds[1..]);
      SumAppend(head, Gains(ds[1..]));
    }
  }

  /** Summing the falls column gives the same total as summing the filtered losses. */
  lemma {:induction false} SumNegativePartsIsSumLosses(ds: seq<real>)
    ensures Sum(NegativeParts(ds)) == Sum(Losses(ds))
  {
    if ds != [] {
      SumNegativePartsIsSumLosses(ds[1..]);
      var ns := NegativeParts(ds);
      assert ns[1..] == NegativeParts(ds[1..]);
      var head := if ds[0] < 0.0 then [-ds[0]] else [];
      assert Losses(ds) == head + Losses(ds[1..]);
      SumAppend(head, Losses(ds[1..]));
    }
  }

  /** The gain column: row 0 has no previous close (NaN, which the `where` turns into 0). */
  function GainColumn(closes: seq<real>): (gc: seq<real>)
    ensures |gc| == |closes|
    ensures forall i :: 0 <= i < |gc| ==> gc[i] >= 0.0
  {
    if closes == [] then [] else [0.0] + PositiveParts(Deltas(closes))
  }

  /** The loss column, with 0 in row 0. */
  function LossColumn(closes: seq<real>): (lc: seq<real>)
    ensures |lc| == |closes|
    ensures forall i :: 0 <= i < |lc| ==> lc[i] >= 0.0
  {
    if closes == [] then [] else [0.0] + NegativeParts(Deltas(closes))
  }

  /**
   * RSI from the rolling average gain and loss, where a zero loss is replaced by infinity:
   * the ratio is then 0 and the RSI is 0, not 100.
   */
  function TrainingRsi(avgGain: real, avgLoss: real): (r: real)
    requires avgGain >= 0.0 && avgLoss >= 0.0
    ensures 0.0 <= r < 100.0
    ensures avgLoss == 0.0 ==> r == 0.0
    ensures avgLoss > 0.0 ==> r == RsiFromAverages(avgGain, avgLoss)
  {
    if avgLoss == 0.0 then 0.0 else RsiFromAverages(avgGain, avgLoss)
  }

  /**
   * `close.pct_change() * 100` at row i, with the NaNs (row 0, and 0/0) filled with 0.
   * A zero previous close under a non-zero close is an infinity, which the fill keeps.
   */
  function PctChange(closes: seq<real>, i: int): (p: Pct)
    requires 0 <= i < |closes|
    ensures p == Infinite <==> i > 0 && closes[i - 1] == 0.0 && closes[i] != 0.0
    ensures i == 0 ==> p == Finite(0.0)
    ensures i > 0 && closes[i - 1] != 0.0 ==> p.Finite? && p.value * closes[i - 1] == (closes[i] - closes[i - 1]) * 100.0
  {
    if i == 0 then Finite(0.0)
    else
      var prev := closes[i - 1];
      if prev == 0.0 then
        if closes[i] == 0.0 then Finite(0.0) else Infinite
      else
        Finite((closes[i] / prev - 1.0) * 100.0)
  }

  /** Row i of the table built from the klines. */
  function RowAt(klines: seq<Candle>, i: int): (row: FeatureRow)
    requires 0 <= i < |klines|
    ensures 0.0 <= row.rsi < 100.0
    ensures row.volume == klines[i].volume
    ensures row.priceChange == PctChange(Closes(klines), i)
  {
    var closes := Closes(klines);
    var avgGain := RollingMean(GainColumn(closes), 14, i);
    var avgLoss := RollingMean(LossColumn(closes), 14, i);
    RollingMeanNonNegative(GainColumn(closes), 14, i);
    RollingMeanNonNegative(LossColumn(closes), 14, i);
    FeatureRow(RollingMean(closes, 10, i), RollingMean(closes, 50, i),
      TrainingRsi(avgGain, avgLoss), PctChange(closes, i), klines[i].volume)
  }

  lemma RollingMeanNonNegative(xs: seq<real>, w: int, i: int)
    requires w > 0 && 0 <= i < |xs|
    requires forall k :: 0 <= k < |xs| ==> xs[k] >= 0.0
    ensures RollingMean(xs, w, i) >= 0.0
  {
    var start := WindowStart(w, i);
    var win := xs[start..i + 1];
    SumNonNegative(win);
    NonNegativeFactor(RollingMean(xs, w, i), (i + 1 - start) as real);
  }

  /**
   * The feature table: empty for no klines, otherwise one row per kline. The first row has
   * both SMAs equal to the first close, a zero change and a zero RSI.
   */
  function PrepareFeatures(klines: seq<Candle>): (rows: seq<FeatureRow>)
    ensures |rows| == |klines|
    ensures klines != [] ==>
      && rows[0].sma10 == klines[0].close
      && rows[0].sma50 == klines[0].close
      && rows[0].priceChange == Finite(0.0)
      && rows[0].rsi == 0.0
  {
    if klines == [] then []
    else
      FirstRowDefaults(klines);
      seq(|klines|, i requires 0 <= i < |klines| => RowAt(klines, i))
  }

  /** Row i of the table is RowAt(klines, i). */
  lemma RowOfTable(klines: seq<Candle>, i: int)
    requires 0 <= i < |klines|
    ensures PrepareFeatures(klines)[i] == RowAt(klines, i)
  {
  }

  lemma FirstRowDefaults(klines: seq<Candle>)
    requires klines != []
    ensures var row := RowAt(klines, 0);
      && row.sma10 == klines[0].close && row.sma50 == klines[0].close
      && row.priceChange == Finite(0.0) && row.rsi == 0.0
  {
    var closes := Closes(klines);
    RollingMeanAtFirstRow(closes, 10);
    RollingMeanAtFirstRow(closes, 50);
    FirstRowRsi(closes);
  }

  lemma FirstRowRsi(closes: seq<real>)
    requires closes != []
    ensures RollingMean(GainColumn(closes), 14, 0) == 0.0 && RollingMean(LossColumn(closes), 14, 0) == 0.0
  {
    var gains, losses := GainColumn(closes), LossColumn(closes);
    RollingMeanAtFirstRow(gains, 14);
    RollingMeanAtFirstRow(losses, 14);
    assert gains[0] == 0.0 && losses[0] == 0.0;
  }

  lemma RollingMeanAtFirstRow(xs: seq<real>, w: int)
    requires w > 0 && xs != []
    ensures RollingMean(xs, w, 0) == xs[0]
  {
    assert xs[0..1] == [xs[0]];
    assert Sum([xs[0]]) == xs[0] + Sum([xs[0]][1..]);
  }

  /** Both SMA columns agree with the indicator engine once their window is full. */
  lemma TrainingSmaMatchesInference(klines: seq<Candle>, i: int)
    requires 0 <= i < |klines|
    ensures i >= 9 ==> PrepareFeatures(klines)[i].sma10 == Sma(Closes(klines)[..i + 1], 10)
    ensures i >= 49 ==> PrepareFeatures(klines)[i].sma50 == Sma(Closes(klines)[..i + 1], 50)
  {
    RowOfTable(klines, i);
    if i >= 9 {
      RollingMeanIsSma(Closes(klines), 10, i);
    }
    if i >= 49 {
      RollingMeanIsSma(Closes(klines), 50, i);
    }
  }

  /** The rolling window of a gain or loss column at the last row covers exactly the last 14 deltas. */
  lemma LastWindowIsRecentDeltas(closes: seq<real>)
    requires |closes| >= 15
    ensures GainColumn(closes)[|closes| - 14..] == PositiveParts(RecentDeltas(closes, 14))
    ensures LossColumn(closes)[|closes| - 14..] == NegativeParts(RecentDeltas(closes, 14))
  {
    LastGainWindow(closes);
    LastLossWindow(closes);
  }

  lemma LastGainWindow(closes: seq<real>)
    requires |closes| >= 15
    ensures GainColumn(closes)[|closes| - 14..] == PositiveParts(RecentDeltas(closes, 14))
  {
    var n := |closes|;
    var recent := RecentDeltas(closes, 14);
    var g, p := GainColumn(closes)[n - 14..], PositiveParts(recent);
    assert |g| == 14 == |p|;
    forall k | 0 <= k < 14 ensures g[k] == p[k] {
      GainColumnAt(closes, n - 14 + k);
      assert recent[k] == closes[n - 14 + k] - closes[n - 14 + k - 1];
    }
  }

  lemma LastLossWindow(closes: seq<real>)
    requires |closes| >= 15
    ensures LossColumn(closes)[|closes| - 14..] == NegativeParts(RecentDeltas(closes, 14))
  {
    var n := |closes|;
    var recent := RecentDeltas(closes, 14);
    var l, q := LossColumn(closes)[n - 14..], NegativeParts(recent);
    assert |l| == 14 == |q|;
    forall k | 0 <= k < 14 ensures l[k] == q[k] {
      LossColumnAt(closes, n - 14 + k);
      assert recent[k] == closes[n - 14 + k] - closes[n - 14 + k - 1];
    }
  }

  /** Rows after the first hold the rise and the fall from the previous close. */
  lemma ColumnsAtRow(closes: seq<real>, i: int)
    requires 0 < i < |closes|
    ensures var d := closes[i] - closes[i - 1];
      && GainColumn(closes)[i] == (if d > 0.0 then d else 0.0)
      && LossColumn(closes)[i] == (if d < 0.0 then -d else 0.0)
  {
    GainColumnAt(closes, i);
    LossColumnAt(closes, i);
  }

  lemma GainColumnAt(closes: seq<real>, i: int)
    requires 0 < i < |closes|
    ensures var d := closes[i] - closes[i - 1];
      GainColumn(closes)[i] == if d > 0.0 then d else 0.0
  {
    var ds := Deltas(closes);
    assert GainColumn(closes) == [0.0] + PositiveParts(ds);
    assert GainColumn(closes)[i] == PositiveParts(ds)[i - 1];
    assert ds[i - 1] == closes[i] - closes[i - 1];
  }

  lemma LossColumnAt(closes: seq<real>, i: int)
    requires 0 < i < |closes|
    ensures var d := closes[i] - closes[i - 1];
      LossColumn(closes)[i] == if d < 0.0 then -d else 0.0
  {
    var ds := Deltas(closes);
    assert LossColumn(closes) == [0.0] + NegativeParts(ds);
    assert LossColumn(closes)[i] == NegativeParts(ds)[i - 1];
    assert ds[i - 1] == closes[i] - closes[i - 1];
  }

  /** The average gain of the last table row is the indicator engine's average gain. */
  lemma LastRowAverages(closes: seq<real>)
    requires |closes| >= 15
    ensures var recent := RecentDeltas(closes, 14);
      && RollingMean(GainColumn(closes), 14, |closes| - 1) == AverageOver(Gains(recent), 14)
      && RollingMean(LossColumn(closes), 14, |closes| - 1) == AverageOver(Losses(recent), 14)
  {
    var n := |closes|;
    var recent := RecentDeltas(closes, 14);
    LastWindowIsRecentDeltas(closes);
    assert WindowStart(14, n - 1) == n - 14;
    assert GainColumn(closes)[n - 14..n] == GainColumn(closes)[n - 14..];
    assert LossColumn(closes)[n - 14..n] == LossColumn(closes)[n - 14..];
    SumPositivePartsIsSumGains(recent);
    SumNegativePartsIsSumLosses(recent);
    if Gains(recent) == [] {
      assert Sum(Gains(recent)) == 0.0;
    }
    if Losses(recent) == [] {
      assert Sum(Losses(recent)) == 0.0;
    }
  }

  /**
   * With at least 15 klines the last row's RSI is the indicator engine's RSI whenever some
   * price fell over the last 14 steps; when none fell, training sees 0 where the engine sees 100.
   */
  lemma TrainingRsiMatchesInference(klines: seq<Candle>)
    requires |klines| >= 15
    ensures var closes, last := Closes(klines), RowAt(klines, |klines| - 1);
      && (NoRecentFall(closes, 14) ==> last.rsi == 0.0 && Rsi(closes, 14) == 100.0)
      && (!NoRecentFall(closes, 14) ==> last.rsi == Rsi(closes, 14))
  {
    var closes := Closes(klines);
    LastRowAverages(closes);
    NoRecentFallIffNoLosses(closes, 14);
    RsiHundredIffNoLoss(closes, 14);
    if !NoRecentFall(closes, 14) {
      SumPositive(Losses(RecentDeltas(closes, 14)));
    }
  }

  /** The last row's change is the indicator engine's 1-minute change whenever that one succeeds. */
  lemma PriceChangeMatchesInference(klines: seq<Candle>)
    requires |klines| >= 2 && PriceChange1m(Closes(klines)).Ok?
    ensures RowAt(klines, |klines| - 1).priceChange == Finite(PriceChange1m(Closes(klines)).value)
  {
    LastPctChange(Closes(klines));
  }

  /** `pct_change` at the last row agrees with the indicator engine's 1-minute change. */
  lemma LastPctChange(closes: seq<real>)
    requires |closes| >= 2 && PriceChange1m(closes).Ok?
    ensures PctChange(closes, |closes| - 1) == Finite(PriceChange1m(closes).value)
  {
    var prev, last := closes[|closes| - 2], closes[|closes| - 1];
    var p := PctChange(closes, |closes| - 1);
    var q := PriceChange1m(closes).value;
    assert q * prev == (last - prev) * 100.0 by {
      assert q == (last - prev) / prev * 100.0;
    }
    if prev > 0.0 {
      CancelPositive(p.value, q, prev);
    } else {
      CancelPositive(p.value, q, -prev);
    }
  }
}
