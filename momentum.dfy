/** Momentum indicators of the crypto analysis agent: RSI with Wilder smoothing, the volume
    ratio and VWAP over a symbol's daily bars, their diagnosis bands, and the per-asset
    assembly of the indicators that are available.

    The time-series store is a parameter: `bars` is the whole history of one symbol,
    newest first; each query's `$sort`/`$limit` is `Newest`, and the RSI query's final
    ascending sort is `Reverse`. */
module Momentum {
  import opened Wrappers
  import opened Numeric

  /** One OHLCV bar; `timestamp` stands for the bar's date. */
  datatype Bar = Bar(timestamp: int, open: real, high: real, low: real, close: real, volume: real)

  /** The portfolio entry the tools iterate over. */
  datatype Allocation = Allocation(asset: string, assetType: string)

  const RsiPeriod: nat := 14
  const VolumePeriod: nat := 21
  const VwapPeriod: nat := 14

  const Stablecoin: string := "Stablecoin"

  /** The newest `k` bars of a newest-first history (`$sort: {timestamp: -1}, $limit: k`). */
  function Newest(bars: seq<Bar>, k: nat): (w: seq<Bar>)
    ensures |w| == if |bars| < k then |bars| else k
    ensures forall i :: 0 <= i < |w| ==> w[i] == bars[i]
  {
    if |bars| < k then bars else bars[..k]
  }

  /** The same bars in the opposite order (the second `$sort` of the RSI query). */
  function Reverse(s: seq<Bar>): (r: seq<Bar>)
    ensures |r| == |s|
    ensures forall i :: 0 <= i < |s| ==> r[i] == s[|s| - 1 - i]
  {
    seq(|s|, i requires 0 <= i < |s| => s[|s| - 1 - i])
  }

  /** The bars the RSI computation sees: the newest `2 * period`, oldest first. */
  function RsiWindow(bars: seq<Bar>, period: nat): seq<Bar>
  {
    Reverse(Newest(bars, 2 * period))
  }

  // ---------------------------------------------------------------------------------
  // RSI (Wilder)
  // ---------------------------------------------------------------------------------

  /** Close-to-close changes of an oldest-first window. */
  function PriceChanges(data: seq<Bar>): (changes: seq<real>)
    ensures |changes| == if |data| == 0 then 0 else |data| - 1
    ensures forall i :: 0 <= i < |changes| ==> changes[i] == data[i + 1].close - data[i].close
  {
    if |data| == 0 then []
    else seq(|data| - 1, i requires 0 <= i < |data| - 1 => data[i + 1].close - data[i].close)
  }

  /** `max(change, 0)` */
  function Gain(change: real): real { if change > 0.0 then change else 0.0 }

  /** `max(-change, 0)` */
  function Loss(change: real): real { if -change > 0.0 then -change else 0.0 }

  /** The gains list of the source: every gain is non-negative, and a gain and its loss
      recombine into the change they were split from. */
  function Gains(changes: seq<real>): (gains: seq<real>)
    ensures |gains| == |changes|
    ensures forall i :: 0 <= i < |gains| ==> gains[i] >= 0.0
    ensures forall i :: 0 <= i < |gains| ==> gains[i] - Loss(changes[i]) == changes[i]
    ensures forall i :: 0 <= i < |gains| ==> gains[i] == 0.0 || Loss(changes[i]) == 0.0
  {
    seq(|changes|, i requires 0 <= i < |changes| => Gain(changes[i]))
  }

  /** The losses list of the source: every loss is non-negative, and it is zero exactly
      when the price did not fall. */
  function Losses(changes: seq<real>): (losses: seq<real>)
    ensures |losses| == |changes|
    ensures forall i :: 0 <= i < |losses| ==> losses[i] >= 0.0
    ensures forall i :: 0 <= i < |losses| ==> (losses[i] == 0.0 <==> changes[i] >= 0.0)
    ensures forall i :: 0 <= i < |losses| ==> Gain(changes[i]) - losses[i] == changes[i]
  {
    seq(|changes|, i requires 0 <= i < |changes| => Loss(changes[i]))
  }

  /** One step of Wilder smoothing, `(avg * (period - 1) + x) / period`. */
  function WilderStep(avg: real, x: real, period: nat): real
    requires period > 0
  {
    (avg * ((period - 1) as real) + x) / (period as real)
  }

  /** A Wilder step of two values in [lo, hi] stays in [lo, hi]. */
  lemma WilderStepInRange(avg: real, x: real, period: nat, lo: real, hi: real)
    requires period > 0
    requires lo <= avg <= hi && lo <= x <= hi
    ensures lo <= WilderStep(avg, x, period) <= hi
  {
    var p := period as real;
    var q := (period - 1) as real;
    assert p == q + 1.0;
    SharesBetween(avg, x, q, lo, hi);
    DivAtLeast(avg * q + x, p, lo);
    DivAtMost(avg * q + x, p, hi);
  }

  /** `q` shares of `avg` plus `x` lie between `q + 1` shares of each bound. */
  lemma SharesBetween(avg: real, x: real, q: real, lo: real, hi: real)
    requires q >= 0.0 && lo <= avg <= hi && lo <= x <= hi
    ensures lo * (q + 1.0) <= avg * q + x <= hi * (q + 1.0)
  {
    WeightedBetween(lo, avg, hi, q);
    OneMoreShare(lo, q);
    OneMoreShare(hi, q);
    // Naming the products keeps the remaining steps linear.
    var loShares, avgShares, hiShares := lo * q, avg * q, hi * q;
    assert loShares <= avgShares <= hiShares;
  }

  /** `period` shares of a value are `period - 1` shares plus one. */
  lemma OneMoreShare(v: real, q: real)
    ensures v * (q + 1.0) == v * q + v
  {
  }

  /** Scaling by a non-negative weight keeps the order of a value between two bounds. */
  lemma WeightedBetween(lo: real, v: real, hi: real, w: real)
    requires lo <= v <= hi && w >= 0.0
    ensures lo * w <= v * w <= hi * w
  {
    assert (v - lo) * w >= 0.0 && (hi - v) * w >= 0.0;
  }

  /** Wilder smoothing of `xs` starting from `seed`: the loop of the source, unrolled from
      the newest value. */
  function Smooth(seed: real, xs: seq<real>, period: nat): real
    requires period > 0
  {
    if |xs| == 0 then seed
    else WilderStep(Smooth(seed, xs[..|xs| - 1], period), xs[|xs| - 1], period)
  }

  /** Smoothing never leaves a range that holds the seed and every smoothed value. */
  lemma {:induction false} SmoothInRange(seed: real, xs: seq<real>, period: nat, lo: real, hi: real)
    requires period > 0
    requires lo <= seed <= hi
    requires forall i :: 0 <= i < |xs| ==> lo <= xs[i] <= hi
    ensures lo <= Smooth(seed, xs, period) <= hi
  {
    if |xs| > 0 {
      SmoothInRange(seed, xs[..|xs| - 1], period, lo, hi);
      WilderStepInRange(Smooth(seed, xs[..|xs| - 1], period), xs[|xs| - 1], period, lo, hi);
    }
  }

  /** The average the source ends with: seeded by the plain mean of the first `period`
      values, then smoothed over the rest. */
  function WilderAverage(xs: seq<real>, period: nat): real
    requires 0 < period <= |xs|
  {
    Smooth(Sum(xs[..period]) / (period as real), xs[period..], period)
  }

  /** Non-negative values give a non-negative average. */
  lemma WilderAverageNonNegative(xs: seq<real>, period: nat)
    requires 0 < period <= |xs|
    requires forall i :: 0 <= i < |xs| ==> xs[i] >= 0.0
    ensures WilderAverage(xs, period) >= 0.0
  {
    var seed := Sum(xs[..period]) / (period as real);
    var hi := seed + Sum(xs);
    SumNonNegative(xs[..period]);
    SumNonNegative(xs);
    forall i | 0 <= i < |xs| - period ensures 0.0 <= xs[period..][i] <= hi {
      TermAtMostSum(xs, period + i);
    }
    SmoothInRange(seed, xs[period..], period, 0.0, hi);
  }

  /** A run of zeros averages to zero. */
  lemma WilderAverageOfZeros(xs: seq<real>, period: nat)
    requires 0 < period <= |xs|
    requires forall i :: 0 <= i < |xs| ==> xs[i] == 0.0
    ensures WilderAverage(xs, period) == 0.0
  {
    SumConstant(xs[..period], 0.0);
    SmoothInRange(0.0, xs[period..], period, 0.0, 0.0);
  }

  /** RSI from the two smoothed averages: 100 when there is no average loss. */
  function RsiFromAverages(avgGain: real, avgLoss: real): (rsi: real)
    requires avgGain >= 0.0 && avgLoss >= 0.0
    ensures 0.0 <= rsi <= 100.0
    ensures rsi == 100.0 <==> avgLoss == 0.0
  {
    if avgLoss == 0.0 then 100.0
    else
      var rs := avgGain / avgLoss;
      assert rs >= 0.0;
      assert 100.0 / (1.0 + rs) > 0.0;
      assert 100.0 / (1.0 + rs) <= 100.0 by {
        DivAtMost(100.0, 1.0 + rs, 100.0);
      }
      100.0 - 100.0 / (1.0 + rs)
  }

  datatype RsiReading = RsiReading(value: real, timestamp: int)

  /** The specification of `calculate_rsi` on an oldest-first window `data`; the reading is
      stamped with the newest bar of the window. */
  function Rsi(data: seq<Bar>, period: nat): Option<RsiReading>
    requires period > 0
  {
    if |data| < period + 1 then None
    else
      var changes := PriceChanges(data);
      if |changes| < period then None
      else
        var avgGain := WilderAverage(Gains(changes), period);
        var avgLoss := WilderAverage(Losses(changes), period);
        WilderAverageNonNegative(Gains(changes), period);
        WilderAverageNonNegative(Losses(changes), period);
        Some(RsiReading(RsiFromAverages(avgGain, avgLoss), data[|data| - 1].timestamp))
  }

  /** `calculate_rsi`: the price changes are collected in a loop and both averages are
      smoothed step by step, as the source does. */
  method CalculateRsi(data: seq<Bar>, period: nat) returns (r: Option<RsiReading>)
    requires period > 0
    ensures r == Rsi(data, period)
  {
    if |data| < period + 1 {
      return None;
    }
    var priceChanges := CollectPriceChanges(data);
    if |priceChanges| < period {
      return None;
    }
    var gains := Gains(priceChanges);
    var losses := Losses(priceChanges);
    var avgGain, avgLoss := WilderAverages(gains, losses, period);
    WilderAverageNonNegative(gains, period);
    WilderAverageNonNegative(losses, period);
    var rsi := RsiFromAverages(avgGain, avgLoss);
    r := Some(RsiReading(rsi, data[|data| - 1].timestamp));
  }

  /** The first loop of `calculate_rsi`: close-to-close changes, oldest first. */
  method CollectPriceChanges(data: seq<Bar>) returns (priceChanges: seq<real>)
    requires |data| > 0
    ensures priceChanges == PriceChanges(data)
  {
    priceChanges := [];
    var i := 1;
    while i < |data|
      invariant 1 <= i <= |data|
      invariant |priceChanges| == i - 1
      invariant forall k :: 0 <= k < i - 1 ==> priceChanges[k] == data[k + 1].close - data[k].close
    {
      priceChanges := priceChanges + [data[i].close - data[i - 1].close];
      i := i + 1;
    }
    ChangesAgree(priceChanges, data);
  }

  /** A list of the close-to-close changes of `data`, entry by entry, is `PriceChanges(data)`. */
  lemma ChangesAgree(changes: seq<real>, data: seq<Bar>)
    requires |data| > 0 && |changes| == |data| - 1
    requires forall k :: 0 <= k < |changes| ==> changes[k] == data[k + 1].close - data[k].close
    ensures changes == PriceChanges(data)
  {
  }

  method WilderAverages(gains: seq<real>, losses: seq<real>, period: nat) returns (avgGain: real, avgLoss: real)
    requires 0 < period <= |gains| == |losses|
    ensures avgGain == WilderAverage(gains, period) && avgLoss == WilderAverage(losses, period)
  {
    var seedGain := Sum(gains[..period]) / (period as real);
    var seedLoss := Sum(losses[..period]) / (period as real);
    avgGain := seedGain;
    avgLoss := seedLoss;
    var j := period;
    while j < |gains|
      invariant period <= j <= |gains|
      invariant avgGain == Smooth(seedGain, gains[period..j], period)
      invariant avgLoss == Smooth(seedLoss, losses[period..j], period)
    {
      assert gains[period..j + 1][..j - period] == gains[period..j];
      assert losses[period..j + 1][..j - period] == losses[period..j];
      avgGain := WilderStep(avgGain, gains[j], period);
      avgLoss := WilderStep(avgLoss, losses[j], period);
      j := j + 1;
    }
    assert gains[period..j] == gains[period..];
    assert losses[period..j] == losses[period..];
  }

  /** RSI is unavailable exactly when the window holds at most `period` bars; the second
      guard of the source (fewer than `period` changes) then never fires on its own. */
  lemma RsiUnavailableIff(data: seq<Bar>, period: nat)
    requires period > 0
    ensures Rsi(data, period).None? <==> |data| < period + 1
    ensures |data| >= period + 1 ==> |PriceChanges(data)| >= period
  {
  }

  /** RSI always lies in [0, 100]. */
  lemma RsiInRange(data: seq<Bar>, period: nat)
    requires period > 0
    requires Rsi(data, period).Some?
    ensures 0.0 <= Rsi(data, period).value.value <= 100.0
  {
  }

  /** RSI is exactly 100 when no close in the window is lower than the one before it. */
  lemma RsiOfRisingCloses(data: seq<Bar>, period: nat)
    requires period > 0
    requires |data| >= period + 1
    requires forall i, j :: 0 <= i < j < |data| ==> data[i].close <= data[j].close
    ensures Rsi(data, period) == Some(RsiReading(100.0, data[|data| - 1].timestamp))
  {
    var changes := PriceChanges(data);
    var losses := Losses(changes);
    forall i | 0 <= i < |losses| ensures losses[i] == 0.0 {
      assert data[i].close <= data[i + 1].close;
    }
    WilderAverageOfZeros(losses, period);
    WilderAverageNonNegative(Gains(changes), period);
  }

  /** The scenario of fifteen strictly rising closes with the default 14-day period. */
  lemma RsiFifteenRisingCloses(data: seq<Bar>)
    requires |data| == 15
    requires forall i, j :: 0 <= i < j < 15 ==> data[i].close < data[j].close
    ensures Rsi(data, RsiPeriod).Some? && Rsi(data, RsiPeriod).value.value == 100.0
  {
    RsiOfRisingCloses(data, RsiPeriod);
  }

  // ---------------------------------------------------------------------------------
  // Volume ratio
  // ---------------------------------------------------------------------------------

  datatype VolumeReading = VolumeReading(current: real, average: real, ratio: real, timestamp: int)

  function Volumes(data: seq<Bar>): (vs: seq<real>)
    ensures |vs| == |data|
    ensures forall i :: 0 <= i < |data| ==> vs[i] == data[i].volume
  {
    seq(|data|, i requires 0 <= i < |data| => data[i].volume)
  }

  /** `calculate_volume_analysis`: unavailable with fewer than `period` bars; otherwise the
      newest bar's volume against the mean volume of the newest `period` bars, with a ratio
      of 0 when that mean is not positive. */
  function VolumeAnalysis(bars: seq<Bar>, period: nat): (r: Option<VolumeReading>)
    requires period > 0
    ensures r.None? <==> |bars| < period
    ensures r.Some? ==> r.value.current == bars[0].volume && r.value.timestamp == bars[0].timestamp
    ensures r.Some? ==> r.value.average == Mean(Volumes(bars[..period]))
    ensures r.Some? && r.value.average > 0.0 ==> r.value.ratio * r.value.average == r.value.current
    ensures r.Some? && r.value.average <= 0.0 ==> r.value.ratio == 0.0
  {
    var data := Newest(bars, period);
    if |data| < period then None
    else
      var current := data[0].volume;
      var average := Sum(Volumes(data)) / (|data| as real);
      var ratio := if average > 0.0 then current / average else 0.0;
      Some(VolumeReading(current, average, ratio, data[0].timestamp))
  }

  /** With non-negative volumes the ratio lies in [0, period]: the newest volume is at most
      the whole window's total, which is `period` times its mean. */
  lemma VolumeRatioBounds(bars: seq<Bar>, period: nat)
    requires period > 0
    requires VolumeAnalysis(bars, period).Some?
    requires forall i :: 0 <= i < |bars| ==> bars[i].volume >= 0.0
    ensures 0.0 <= VolumeAnalysis(bars, period).value.ratio <= period as real
  {
    var r := VolumeAnalysis(bars, period).value;
    var vs := Volumes(bars[..period]);
    SumNonNegative(vs);
    TermAtMostSum(vs, 0);
    if r.average > 0.0 {
      var p := period as real;
      assert r.average * p == Sum(vs);
      DivAtMost(r.current, r.average, p);
      DivAtLeast(r.current, r.average, 0.0);
    }
  }

  // ---------------------------------------------------------------------------------
  // VWAP
  // ---------------------------------------------------------------------------------

  /** Typical price (high + low + close) / 3. */
  function Typical(b: Bar): real { (b.high + b.low + b.close) / 3.0 }

  function TotalPriceVolume(data: seq<Bar>): real
  {
    if |data| == 0 then 0.0
    else TotalPriceVolume(data[..|data| - 1]) + Typical(data[|data| - 1]) * data[|data| - 1].volume
  }

  function TotalVolume(data: seq<Bar>): real
  {
    if |data| == 0 then 0.0 else TotalVolume(data[..|data| - 1]) + data[|data| - 1].volume
  }

  datatype VwapReading = VwapReading(vwap: real, currentPrice: real, timestamp: int)

  /** The specification of `calculate_vwap` over the newest `period` bars. */
  function Vwap(bars: seq<Bar>, period: nat): Option<VwapReading>
  {
    var data := Newest(bars, period);
    if |data| < period then None
    else if TotalVolume(data) == 0.0 then None
    else Some(VwapReading(TotalPriceVolume(data) / TotalVolume(data), data[0].close, data[0].timestamp))
  }

  /** `calculate_vwap`: typical price times volume and volume are accumulated bar by bar. */
  method CalculateVwap(bars: seq<Bar>, period: nat) returns (r: Option<VwapReading>)
    ensures r == Vwap(bars, period)
  {
    var data := Newest(bars, period);
    if |data| < period {
      return None;
    }
    var totalPv := 0.0;
    var totalVolume := 0.0;
    var i := 0;
    while i < |data|
      invariant 0 <= i <= |data|
      invariant totalPv == TotalPriceVolume(data[..i])
      invariant totalVolume == TotalVolume(data[..i])
    {
      assert data[..i + 1][..i] == data[..i];
      var typicalPrice := (data[i].high + data[i].low + data[i].close) / 3.0;
      totalPv := totalPv + typicalPrice * data[i].volume;
      totalVolume := totalVolume + data[i].volume;
      i := i + 1;
    }
    assert data[..i] == data;
    if totalVolume == 0.0 {
      return None;
    }
    r := Some(VwapReading(totalPv / totalVolume, data[0].close, data[0].timestamp));
  }

  /** VWAP is unavailable exactly when there are fewer than `period` bars or the window
      traded no volume; otherwise the current price is the newest close. */
  lemma VwapAvailability(bars: seq<Bar>, period: nat)
    ensures Vwap(bars, period).None? <==> |bars| < period || TotalVolume(Newest(bars, period)) == 0.0
    ensures Vwap(bars, period).Some? ==> period > 0 ==> Vwap(bars, period).value.currentPrice == bars[0].close
  {
  }

  lemma {:induction false} TotalsBounded(data: seq<Bar>, lo: real, hi: real)
    requires forall i :: 0 <= i < |data| ==> data[i].volume >= 0.0 && lo <= Typical(data[i]) <= hi
    ensures lo * TotalVolume(data) <= TotalPriceVolume(data) <= hi * TotalVolume(data)
  {
    if |data| > 0 {
      var last := data[|data| - 1];
      var init := data[..|data| - 1];
      TotalsBounded(init, lo, hi);
      assert (Typical(last) - lo) * last.volume >= 0.0 && (hi - Typical(last)) * last.volume >= 0.0;
      assert lo * TotalVolume(data) == lo * TotalVolume(init) + lo * last.volume;
      assert hi * TotalVolume(data) == hi * TotalVolume(init) + hi * last.volume;
    }
  }

  /** With non-negative volumes, VWAP lies between the lowest and the highest typical price
      of the window. */
  lemma VwapWithinTypicalRange(bars: seq<Bar>, period: nat, lo: real, hi: real)
    requires Vwap(bars, period).Some?
    requires forall i :: 0 <= i < |Newest(bars, period)| ==>
               Newest(bars, period)[i].volume >= 0.0 && lo <= Typical(Newest(bars, period)[i]) <= hi
    ensures lo <= Vwap(bars, period).value.vwap <= hi
  {
    var data := Newest(bars, period);
    TotalsBounded(data, lo, hi);
    VolumeNonNegative(data);
    DivAtLeast(TotalPriceVolume(data), TotalVolume(data), lo);
    DivAtMost(TotalPriceVolume(data), TotalVolume(data), hi);
  }

  lemma {:induction false} VolumeNonNegative(data: seq<Bar>)
    requires forall i :: 0 <= i < |data| ==> data[i].volume >= 0.0
    ensures TotalVolume(data) >= 0.0
  {
    if |data| > 0 {
      VolumeNonNegative(data[..|data| - 1]);
    }
  }

  function Typicals(data: seq<Bar>): (ts: seq<real>)
    ensures |ts| == |data|
    ensures forall i :: 0 <= i < |data| ==> ts[i] == Typical(data[i])
  {
    seq(|data|, i requires 0 <= i < |data| => Typical(data[i]))
  }

  lemma {:induction false} TotalsWithEqualVolumes(data: seq<Bar>, v: real)
    requires forall i :: 0 <= i < |data| ==> data[i].volume == v
    ensures TotalVolume(data) == (|data| as real) * v
    ensures TotalPriceVolume(data) == Sum(Typicals(data)) * v
  {
    if |data| > 0 {
      var init := data[..|data| - 1];
      TotalsWithEqualVolumes(init, v);
      assert Typicals(data)[..|data| - 1] == Typicals(init);
    }
  }

  /** When every bar of the window traded the same positive volume, VWAP is the plain mean
      of the typical prices. */
  lemma VwapOfEqualVolumes(bars: seq<Bar>, period: nat, v: real)
    requires period > 0 && |bars| >= period && v > 0.0
    requires forall i :: 0 <= i < period ==> bars[i].volume == v
    ensures Vwap(bars, period).Some?
    ensures Vwap(bars, period).value.vwap == Mean(Typicals(bars[..period]))
  {
    var data := Newest(bars, period);
    TotalsWithEqualVolumes(data, v);
    var n := period as real;
    assert TotalVolume(data) == n * v;
    var s := Sum(Typicals(data));
    assert TotalPriceVolume(data) / TotalVolume(data) == s / n by {
      assert (s * v) / (n * v) == s / n;
    }
  }

  lemma {:induction false} TotalsWithOneTradingBar(data: seq<Bar>, k: nat)
    requires k < |data|
    requires forall i :: 0 <= i < |data| && i != k ==> data[i].volume == 0.0
    ensures TotalVolume(data) == data[k].volume
    ensures TotalPriceVolume(data) == Typical(data[k]) * data[k].volume
  {
    var n := |data|;
    if n > 1 {
      if k < n - 1 {
        TotalsWithOneTradingBar(data[..n - 1], k);
      } else {
        TotalsWithoutVolume(data[..n - 1]);
      }
    } else {
      assert data[..0] == [];
    }
  }

  lemma {:induction false} TotalsWithoutVolume(data: seq<Bar>)
    requires forall i :: 0 <= i < |data| ==> data[i].volume == 0.0
    ensures TotalVolume(data) == 0.0 && TotalPriceVolume(data) == 0.0
  {
    if |data| > 0 {
      TotalsWithoutVolume(data[..|data| - 1]);
    }
  }

  /** When one bar of the window holds all the volume, VWAP is that bar's typical price. */
  lemma VwapOfSingleTradingBar(bars: seq<Bar>, period: nat, k: nat)
    requires k < period <= |bars|
    requires bars[k].volume != 0.0
    requires forall i :: 0 <= i < period && i != k ==> bars[i].volume == 0.0
    ensures Vwap(bars, period) == Some(VwapReading(Typical(bars[k]), bars[0].close, bars[0].timestamp))
  {
    var data := Newest(bars, period);
    TotalsWithOneTradingBar(data, k);
    var v := bars[k].volume;
    var t := Typical(bars[k]);
    assert data[k] == bars[k] && data[0] == bars[0];
    assert TotalVolume(data) == v && v != 0.0;
    assert (t * v) / v == t;
    assert TotalPriceVolume(data) / TotalVolume(data) == t;
  }

  // ---------------------------------------------------------------------------------
  // Diagnosis bands
  // ---------------------------------------------------------------------------------

  /** Which sentence of `analyze_momentum_indicator` is produced. */
  datatype Diagnosis =
    | RsiStableNormal | RsiStableElevated | RsiStableLow
    | RsiOverbought | RsiOversold | RsiBullish | RsiBearish
    | VolumeExceptional | VolumeAboveAverage | VolumeBelowAverage | VolumeNormal
    | VwapStableDeviation | VwapStableClose
    | VwapStrongBullish | VwapModerateBullish | VwapStrongBearish | VwapModerateBearish | VwapNeutral
    | InsufficientData

  function RsiDiagnosis(value: real, assetType: string): Diagnosis
  {
    if assetType == Stablecoin then
      if 45.0 <= value <= 55.0 then RsiStableNormal
      else if value > 55.0 then RsiStableElevated
      else RsiStableLow
    else if value >= 70.0 then RsiOverbought
    else if value <= 30.0 then RsiOversold
    else if value >= 50.0 then RsiBullish
    else RsiBearish
  }

  function VolumeDiagnosis(ratio: real): Diagnosis
  {
    if ratio > 2.0 then VolumeExceptional
    else if ratio > 1.5 then VolumeAboveAverage
    else if ratio < 0.7 then VolumeBelowAverage
    else VolumeNormal
  }

  /** The VWAP branch divides by the VWAP value, which raises when it is zero. */
  function VwapDiagnosis(vwapValue: real, currentPrice: real, assetType: string): Outcome<Diagnosis>
  {
    if vwapValue == 0.0 then Raised(ZeroDivisionError)
    else if assetType == Stablecoin then
      var deviation := (currentPrice - vwapValue) / vwapValue * 100.0;
      var absDeviation := if deviation < 0.0 then -deviation else deviation;
      Ok(if absDeviation > 0.5 then VwapStableDeviation else VwapStableClose)
    else
      var priceVsVwap := (currentPrice - vwapValue) / vwapValue * 100.0;
      Ok(if priceVsVwap > 5.0 then VwapStrongBullish
         else if priceVsVwap > 2.0 then VwapModerateBullish
         else if priceVsVwap < -5.0 then VwapStrongBearish
         else if priceVsVwap < -2.0 then VwapModerateBearish
         else VwapNeutral)
  }

  /** `analyze_momentum_indicator`: dispatch on the indicator name; any other name gets
      "Insufficient data for analysis." */
  function AnalyzeMomentumIndicator(indicatorType: string, value: real, assetType: string,
                                    volumeRatio: real, currentPrice: real): (d: Outcome<Diagnosis>)
    ensures indicatorType != "RSI" && indicatorType != "Volume" && indicatorType != "VWAP" ==> d == Ok(InsufficientData)
    ensures indicatorType == "RSI" ==> d.Ok? && RsiRank(d.value) >= 0
    ensures d.Raised? <==> indicatorType == "VWAP" && value == 0.0
  {
    if indicatorType == "RSI" then Ok(RsiDiagnosis(value, assetType))
    else if indicatorType == "Volume" then Ok(VolumeDiagnosis(volumeRatio))
    else if indicatorType == "VWAP" then VwapDiagnosis(value, currentPrice, assetType)
    else Ok(InsufficientData)
  }

  /** The RSI bands as intervals: stablecoins use 45..55 around the peg, other assets the
      70/30/50 bands with inclusive edges. */
  lemma RsiBands(value: real, assetType: string)
    ensures assetType == Stablecoin ==>
      (RsiDiagnosis(value, assetType) == RsiStableNormal <==> 45.0 <= value <= 55.0) &&
      (RsiDiagnosis(value, assetType) == RsiStableElevated <==> value > 55.0) &&
      (RsiDiagnosis(value, assetType) == RsiStableLow <==> value < 45.0)
    ensures assetType != Stablecoin ==>
      (RsiDiagnosis(value, assetType) == RsiOverbought <==> value >= 70.0) &&
      (RsiDiagnosis(value, assetType) == RsiOversold <==> value <= 30.0) &&
      (RsiDiagnosis(value, assetType) == RsiBullish <==> 50.0 <= value < 70.0) &&
      (RsiDiagnosis(value, assetType) == RsiBearish <==> 30.0 < value < 50.0)
  {
  }

  /** The volume bands: above 2 and above 1.5 times the average are exceptional and above
      average, below 0.7 is below average, and 0.7 to 1.5 inclusive is normal. */
  lemma VolumeBands(ratio: real)
    ensures VolumeDiagnosis(ratio) == VolumeExceptional <==> ratio > 2.0
    ensures VolumeDiagnosis(ratio) == VolumeAboveAverage <==> 1.5 < ratio <= 2.0
    ensures VolumeDiagnosis(ratio) == VolumeBelowAverage <==> ratio < 0.7
    ensures VolumeDiagnosis(ratio) == VolumeNormal <==> 0.7 <= ratio <= 1.5
  {
  }

  /** The VWAP bands as prices against a positive VWAP: a stablecoin deviates beyond 0.5% on
      either side; other assets are strongly or moderately bullish above 105% and 102%,
      strongly or moderately bearish below 95% and 98%, and neutral from 98% to 102%. */
  lemma VwapBands(vwapValue: real, currentPrice: real, assetType: string)
    requires vwapValue > 0.0
    ensures assetType == Stablecoin ==>
      (VwapDiagnosis(vwapValue, currentPrice, assetType) == Ok(VwapStableDeviation) <==>
        currentPrice > vwapValue * 1.005 || currentPrice < vwapValue * 0.995) &&
      (VwapDiagnosis(vwapValue, currentPrice, assetType) == Ok(VwapStableClose) <==>
        vwapValue * 0.995 <= currentPrice <= vwapValue * 1.005)
    ensures assetType != Stablecoin ==>
      (VwapDiagnosis(vwapValue, currentPrice, assetType) == Ok(VwapStrongBullish) <==>
        currentPrice > vwapValue * 1.05) &&
      (VwapDiagnosis(vwapValue, currentPrice, assetType) == Ok(VwapModerateBullish) <==>
        vwapValue * 1.02 < currentPrice <= vwapValue * 1.05) &&
      (VwapDiagnosis(vwapValue, currentPrice, assetType) == Ok(VwapStrongBearish) <==>
        currentPrice < vwapValue * 0.95) &&
      (VwapDiagnosis(vwapValue, currentPrice, assetType) == Ok(VwapModerateBearish) <==>
        vwapValue * 0.95 <= currentPrice < vwapValue * 0.98) &&
      (VwapDiagnosis(vwapValue, currentPrice, assetType) == Ok(VwapNeutral) <==>
        vwapValue * 0.98 <= currentPrice <= vwapValue * 1.02)
  {
    var pct := (currentPrice - vwapValue) / vwapValue * 100.0;
    PercentAgainstVwap(vwapValue, currentPrice, 5.0);
    PercentAgainstVwap(vwapValue, currentPrice, 2.0);
    PercentAgainstVwap(vwapValue, currentPrice, 0.5);
    PercentAgainstVwap(vwapValue, currentPrice, -2.0);
    PercentAgainstVwap(vwapValue, currentPrice, -5.0);
    PercentAgainstVwap(vwapValue, currentPrice, -0.5);
  }

  /** Against a positive VWAP, the percentage above it exceeds `p` exactly when the price
      exceeds the VWAP scaled by `1 + p/100`. */
  lemma PercentAgainstVwap(vwapValue: real, currentPrice: real, p: real)
    requires vwapValue > 0.0
    ensures (currentPrice - vwapValue) / vwapValue * 100.0 > p <==> currentPrice > vwapValue * (1.0 + p / 100.0)
    ensures (currentPrice - vwapValue) / vwapValue * 100.0 < p <==> currentPrice < vwapValue * (1.0 + p / 100.0)
  {
    var q := (currentPrice - vwapValue) / vwapValue;
    assert q * vwapValue == currentPrice - vwapValue;
    assert vwapValue * (1.0 + p / 100.0) == vwapValue + vwapValue * p / 100.0;
    if q * 100.0 > p {
      assert q * vwapValue > p / 100.0 * vwapValue;
    }
    if currentPrice > vwapValue * (1.0 + p / 100.0) {
      assert q * vwapValue > p / 100.0 * vwapValue;
    }
    if q * 100.0 < p {
      assert q * vwapValue < p / 100.0 * vwapValue;
    }
    if currentPrice < vwapValue * (1.0 + p / 100.0) {
      assert q * vwapValue < p / 100.0 * vwapValue;
    }
  }

  /** Rank of an RSI band from most bearish to most bullish. */
  function RsiRank(d: Diagnosis): int
  {
    match d
    case RsiOversold => 0
    case RsiBearish => 1
    case RsiBullish => 2
    case RsiOverbought => 3
    case RsiStableLow => 0
    case RsiStableNormal => 1
    case RsiStableElevated => 2
    case _ => -1
  }

  /** A higher RSI never receives a more bearish band. */
  lemma RsiDiagnosisMonotone(v1: real, v2: real, assetType: string)
    requires v1 <= v2
    ensures RsiRank(RsiDiagnosis(v1, assetType)) <= RsiRank(RsiDiagnosis(v2, assetType))
  {
  }

  // ---------------------------------------------------------------------------------
  // Per-asset assembly
  // ---------------------------------------------------------------------------------

  /** The volume figures are printed without decimals above 1,000 and with two below. */
  datatype VolumeFormat = WholeUnits | TwoDecimals

  /** VWAP and price are printed with two decimals from 1 upwards and six below. */
  datatype PriceFormat = Cents | SixDecimals

  datatype MomentumIndicator =
    | RsiIndicator(rsi: RsiReading, diagnosis: Diagnosis)
    | VolumeIndicator(volume: VolumeReading, volumeFormat: VolumeFormat, diagnosis: Diagnosis)
    | VwapIndicator(vwap: VwapReading, priceFormat: PriceFormat, diagnosis: Diagnosis)

  datatype CryptoMomentumIndicator = CryptoMomentumIndicator(asset: string, indicators: seq<MomentumIndicator>)

  /** The history of a symbol in the store; a symbol without bars has an empty history. */
  function History(market: map<string, seq<Bar>>, symbol: string): seq<Bar>
  {
    if symbol in market then market[symbol] else []
  }

  /** The indicator list of one asset from its three readings, in the order RSI, Volume,
      VWAP, each present only when its reading is; the VWAP diagnosis raises on a zero VWAP. */
  function Assemble(assetType: string, rsi: Option<RsiReading>, volume: Option<VolumeReading>,
                    vwap: Option<VwapReading>): Outcome<seq<MomentumIndicator>>
  {
    var rsiPart := if rsi.Some? then [RsiIndicator(rsi.value, RsiDiagnosis(rsi.value.value, assetType))] else [];
    var volumePart :=
      if volume.Some? then
        [VolumeIndicator(volume.value, if volume.value.current > 1000.0 then WholeUnits else TwoDecimals,
                         VolumeDiagnosis(volume.value.ratio))]
      else [];
    if vwap.None? then Ok(rsiPart + volumePart)
    else
      var diagnosis := VwapDiagnosis(vwap.value.vwap, vwap.value.currentPrice, assetType);
      if diagnosis.Raised? then Raised(diagnosis.error)
      else
        var format := if vwap.value.vwap >= 1.0 then Cents else SixDecimals;
        Ok(rsiPart + volumePart + [VwapIndicator(vwap.value, format, diagnosis.value)])
  }

  /** The indicators of one asset computed from its history. */
  function AssetIndicators(assetType: string, bars: seq<Bar>): Outcome<seq<MomentumIndicator>>
  {
    Assemble(assetType, Rsi(RsiWindow(bars, RsiPeriod), RsiPeriod), VolumeAnalysis(bars, VolumePeriod),
             Vwap(bars, VwapPeriod))
  }

  /** The report the momentum tool builds for a portfolio (the first raising asset aborts it). */
  function MomentumReport(portfolio: seq<Allocation>, market: map<string, seq<Bar>>): Outcome<seq<CryptoMomentumIndicator>>
  {
    if |portfolio| == 0 then Ok([])
    else
      var last := portfolio[|portfolio| - 1];
      Extend(MomentumReport(portfolio[..|portfolio| - 1], market), last.asset,
             AssetIndicators(last.assetType, History(market, last.asset)))
  }

  /** One iteration of the portfolio loop: append the asset when it has indicators. */
  function Extend(earlier: Outcome<seq<CryptoMomentumIndicator>>, asset: string,
                  indicators: Outcome<seq<MomentumIndicator>>): Outcome<seq<CryptoMomentumIndicator>>
  {
    if earlier.Raised? then earlier
    else if indicators.Raised? then Raised(indicators.error)
    else if |indicators.value| == 0 then earlier
    else Ok(earlier.value + [CryptoMomentumIndicator(asset, indicators.value)])
  }

  /** The body of the loop of `calculate_crypto_momentum_indicators` for one asset. */
  method AssetMomentum(allocation: Allocation, bars: seq<Bar>) returns (r: Outcome<seq<MomentumIndicator>>)
    ensures r == AssetIndicators(allocation.assetType, bars)
  {
    var rsi := CalculateRsi(RsiWindow(bars, RsiPeriod), RsiPeriod);
    var volume := VolumeAnalysis(bars, VolumePeriod);
    var vwap := CalculateVwap(bars, VwapPeriod);
    r := AssembleIndicators(allocation.assetType, rsi, volume, vwap);
  }

  /** The indicator list of the loop body, appended reading by reading. */
  method AssembleIndicators(assetType: string, rsi: Option<RsiReading>, volume: Option<VolumeReading>,
                            vwap: Option<VwapReading>) returns (r: Outcome<seq<MomentumIndicator>>)
    ensures r == Assemble(assetType, rsi, volume, vwap)
  {
    ghost var rsiPart := if rsi.Some? then [RsiIndicator(rsi.value, RsiDiagnosis(rsi.value.value, assetType))] else [];
    ghost var volumePart :=
      if volume.Some? then
        [VolumeIndicator(volume.value, if volume.value.current > 1000.0 then WholeUnits else TwoDecimals,
                         VolumeDiagnosis(volume.value.ratio))]
      else [];
    var momentumIndicators: seq<MomentumIndicator> := [];
    if rsi.Some? {
      momentumIndicators := momentumIndicators + [RsiIndicator(rsi.value, RsiDiagnosis(rsi.value.value, assetType))];
    }
    assert momentumIndicators == rsiPart;
    if volume.Some? {
      var format := if volume.value.current > 1000.0 then WholeUnits else TwoDecimals;
      momentumIndicators := momentumIndicators + [VolumeIndicator(volume.value, format, VolumeDiagnosis(volume.value.ratio))];
    }
    assert momentumIndicators == rsiPart + volumePart;
    if vwap.Some? {
      var diagnosis := VwapDiagnosis(vwap.value.vwap, vwap.value.currentPrice, assetType);
      if diagnosis.Raised? {
        return Raised(diagnosis.error);
      }
      var format := if vwap.value.vwap >= 1.0 then Cents else SixDecimals;
      momentumIndicators := momentumIndicators + [VwapIndicator(vwap.value, format, diagnosis.value)];
    }
    r := Ok(momentumIndicators);
  }

  /** The report of one more asset extends the report of the assets before it. */
  lemma MomentumReportStep(portfolio: seq<Allocation>, market: map<string, seq<Bar>>, n: nat)
    requires n < |portfolio|
    ensures MomentumReport(portfolio[..n + 1], market) ==
      Extend(MomentumReport(portfolio[..n], market), portfolio[n].asset,
             AssetIndicators(portfolio[n].assetType, History(market, portfolio[n].asset)))
  {
    assert portfolio[..n + 1][..n] == portfolio[..n];
  }

  /** Once an asset raises, the whole report raises the same error. */
  lemma {:induction false} MomentumReportAbortsAtFirstRaise(portfolio: seq<Allocation>, market: map<string, seq<Bar>>, k: nat)
    requires k <= |portfolio|
    requires MomentumReport(portfolio[..k], market).Raised?
    ensures MomentumReport(portfolio, market) == MomentumReport(portfolio[..k], market)
  {
    if k < |portfolio| {
      var init := portfolio[..|portfolio| - 1];
      assert init[..k] == portfolio[..k];
      MomentumReportAbortsAtFirstRaise(init, market, k);
    } else {
      assert portfolio[..k] == portfolio;
    }
  }

  /** The loop of `calculate_crypto_momentum_indicators` over the portfolio: assets with no
      indicator are skipped. */
  method BuildMomentumIndicators(portfolio: seq<Allocation>, market: map<string, seq<Bar>>)
    returns (r: Outcome<seq<CryptoMomentumIndicator>>)
    ensures r == MomentumReport(portfolio, market)
  {
    var cryptoMomentumIndicators: seq<CryptoMomentumIndicator> := [];
    var n := 0;
    while n < |portfolio|
      invariant 0 <= n <= |portfolio|
      invariant MomentumReport(portfolio[..n], market) == Ok(cryptoMomentumIndicators)
    {
      var allocation := portfolio[n];
      var momentumIndicators := AssetMomentum(allocation, History(market, allocation.asset));
      MomentumReportStep(portfolio, market, n);
      if momentumIndicators.Raised? {
        MomentumReportAbortsAtFirstRaise(portfolio, market, n + 1);
        return Raised(momentumIndicators.error);
      }
      if |momentumIndicators.value| > 0 {
        cryptoMomentumIndicators := cryptoMomentumIndicators + [CryptoMomentumIndicator(allocation.asset, momentumIndicators.value)];
      }
      n := n + 1;
    }
    assert portfolio[..n] == portfolio;
    r := Ok(cryptoMomentumIndicators);
  }

  /** Position of an indicator kind in the fixed order RSI, Volume, VWAP. */
  function KindRank(m: MomentumIndicator): nat
  {
    match m
    case RsiIndicator(_, _) => 0
    case VolumeIndicator(_, _, _) => 1
    case VwapIndicator(_, _, _) => 2
  }

  /** The indicators of an asset come in the order RSI, Volume, VWAP, each at most once. */
  lemma AssembleOrdered(assetType: string, rsi: Option<RsiReading>, volume: Option<VolumeReading>,
                        vwap: Option<VwapReading>)
    requires Assemble(assetType, rsi, volume, vwap).Ok?
    ensures var ms := Assemble(assetType, rsi, volume, vwap).value;
      forall i, j :: 0 <= i < j < |ms| ==> KindRank(ms[i]) < KindRank(ms[j])
  {
  }

  /** Every reported asset has at least one indicator, its indicators come in the order
      RSI, Volume, VWAP, and no more assets are reported than the portfolio holds. */
  lemma {:induction false} MomentumReportShape(portfolio: seq<Allocation>, market: map<string, seq<Bar>>)
    requires MomentumReport(portfolio, market).Ok?
    ensures forall e :: e in MomentumReport(portfolio, market).value ==>
              |e.indicators| > 0 &&
              forall i, j :: 0 <= i < j < |e.indicators| ==> KindRank(e.indicators[i]) < KindRank(e.indicators[j])
    ensures |MomentumReport(portfolio, market).value| <= |portfolio|
  {
    if |portfolio| > 0 {
      var init := portfolio[..|portfolio| - 1];
      MomentumReportShape(init, market);
      var last := portfolio[|portfolio| - 1];
      var bars := History(market, last.asset);
      if MomentumReport(init, market).Ok? {
        AssembleOrdered(last.assetType, Rsi(RsiWindow(bars, RsiPeriod), RsiPeriod), VolumeAnalysis(bars, VolumePeriod),
                        Vwap(bars, VwapPeriod));
      }
    }
  }

  /** An asset with no available indicator does not change the report. */
  lemma MomentumReportSkips(portfolio: seq<Allocation>, market: map<string, seq<Bar>>, a: Allocation)
    requires MomentumReport(portfolio, market).Ok?
    requires AssetIndicators(a.assetType, History(market, a.asset)) == Ok([])
    ensures MomentumReport(portfolio + [a], market) == MomentumReport(portfolio, market)
  {
    assert (portfolio + [a])[..|portfolio|] == portfolio;
  }

  /** Which indicators an asset gets depends on its history length: none below fourteen
      bars, RSI from fifteen and Volume from twenty-one. */
  lemma IndicatorsByHistoryLength(assetType: string, bars: seq<Bar>)
    ensures |bars| < VwapPeriod ==> AssetIndicators(assetType, bars) == Ok([])
    ensures AssetIndicators(assetType, bars).Ok? ==>
      var ms := AssetIndicators(assetType, bars).value;
      ((exists m :: m in ms && m.RsiIndicator?) <==> |bars| >= RsiPeriod + 1) &&
      ((exists m :: m in ms && m.VolumeIndicator?) <==> |bars| >= VolumePeriod)
  {
    RsiUnavailableIff(RsiWindow(bars, RsiPeriod), RsiPeriod);
    var rsi := Rsi(RsiWindow(bars, RsiPeriod), RsiPeriod);
    var volume := VolumeAnalysis(bars, VolumePeriod);
    var vwap := Vwap(bars, VwapPeriod);
    assert AssetIndicators(assetType, bars) == Assemble(assetType, rsi, volume, vwap);
    AssembleKinds(assetType, rsi, volume, vwap);
  }

  /** The list holds an RSI entry exactly when there is an RSI reading and a Volume entry
      exactly when there is a volume reading; with no reading at all it is empty. */
  lemma AssembleKinds(assetType: string, rsi: Option<RsiReading>, volume: Option<VolumeReading>,
                      vwap: Option<VwapReading>)
    ensures rsi.None? && volume.None? && vwap.None? ==> Assemble(assetType, rsi, volume, vwap) == Ok([])
    ensures Assemble(assetType, rsi, volume, vwap).Ok? ==>
      var ms := Assemble(assetType, rsi, volume, vwap).value;
      ((exists m :: m in ms && m.RsiIndicator?) <==> rsi.Some?) &&
      ((exists m :: m in ms && m.VolumeIndicator?) <==> volume.Some?)
  {
    if Assemble(assetType, rsi, volume, vwap).Ok? {
      var ms := Assemble(assetType, rsi, volume, vwap).value;
      if rsi.Some? {
        assert ms[0].RsiIndicator?;
      }
      if volume.Some? {
        assert ms[if rsi.Some? then 1 else 0].VolumeIndicator?;
      }
    }
  }
}
