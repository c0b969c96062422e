/** The dual moving-average trend classifier of the crypto analysis agent: MA10 and MA20
    of the newest closes, the newest close, the seven trend labels (with the stablecoin peg
    branch), and the per-asset loop that skips assets without data. */
module Trends {
  import opened Wrappers
  import opened Numeric
  import opened Momentum

  const ShortMaPeriod: nat := 10
  const LongMaPeriod: nat := 20

  function Closes(data: seq<Bar>): (cs: seq<real>)
    ensures |cs| == |data|
    ensures forall i :: 0 <= i < |data| ==> cs[i] == data[i].close
  {
    seq(|data|, i requires 0 <= i < |data| => data[i].close)
  }

  /** `calculate_moving_average`: the `$avg` of the closes of the newest `period` bars, which
      has no result only when the symbol has no bars at all. */
  function MovingAverage(bars: seq<Bar>, period: nat): (ma: Option<real>)
    requires period > 0
    ensures ma.None? <==> |bars| == 0
  {
    var window := Newest(bars, period);
    if |window| == 0 then None else Some(Mean(Closes(window)))
  }

  /** The average is taken over all bars when fewer than `period` exist, and it lies between
      the lowest and the highest close it averages. */
  lemma MovingAverageWindow(bars: seq<Bar>, period: nat, lo: real, hi: real)
    requires period > 0 && |bars| > 0
    requires forall i :: 0 <= i < |bars| && i < period ==> lo <= bars[i].close <= hi
    ensures |bars| < period ==> MovingAverage(bars, period) == Some(Mean(Closes(bars)))
    ensures |bars| >= period ==> MovingAverage(bars, period) == Some(Mean(Closes(bars[..period])))
    ensures lo <= MovingAverage(bars, period).value <= hi
  {
    MeanBounds(Closes(Newest(bars, period)), lo, hi);
  }

  /** `get_last_closing_price`: the newest bar's close and date, when there is a bar. */
  function LastClose(bars: seq<Bar>): (last: Option<(real, int)>)
    ensures last.None? <==> |bars| == 0
    ensures last.Some? ==> last.value == (bars[0].close, bars[0].timestamp)
  {
    if |bars| == 0 then None else Some((bars[0].close, bars[0].timestamp))
  }

  /** The seven labels of `analyze_crypto_trend`. */
  datatype Trend = DepegRisk | Stable | StrongUptrend | StrongDowntrend | Uptrend | Downtrend | Sideways

  function Abs(x: real): real { if x < 0.0 then -x else x }

  /** `analyze_crypto_trend`. A stablecoin is judged by its distance from the 1.0 peg only;
      any other asset by the close's percentage distance from both MAs and by which MA is
      higher. The percentage divides by each MA, so a zero MA raises. */
  function AnalyzeCryptoTrend(lastPrice: real, shortMa: real, longMa: real, assetType: string): (t: Outcome<Trend>)
    ensures assetType == Stablecoin ==> t.Ok? && (t.value == DepegRisk || t.value == Stable)
    ensures assetType != Stablecoin ==> (t.Raised? <==> shortMa == 0.0 || longMa == 0.0)
    ensures assetType != Stablecoin && t.Ok? ==> t.value != DepegRisk && t.value != Stable
  {
    if assetType == Stablecoin then
      var deviationPct := Abs((lastPrice - 1.0) / 1.0) * 100.0;
      Ok(if deviationPct > 0.5 then DepegRisk else Stable)
    else if shortMa == 0.0 || longMa == 0.0 then Raised(ZeroDivisionError)
    else
      var bullish := shortMa > longMa;
      var shortMaDiff := ((lastPrice - shortMa) / shortMa) * 100.0;
      var longMaDiff := ((lastPrice - longMa) / longMa) * 100.0;
      Ok(if shortMaDiff > 3.0 && longMaDiff > 5.0 then StrongUptrend
         else if shortMaDiff < -3.0 && longMaDiff < -5.0 then StrongDowntrend
         else if bullish && shortMaDiff > 0.0 then Uptrend
         else if !bullish && shortMaDiff < 0.0 then Downtrend
         else Sideways)
  }

  /** The stablecoin label: depeg risk exactly when the price is outside [0.995, 1.005]. */
  lemma StablecoinPeg(lastPrice: real, shortMa: real, longMa: real)
    ensures AnalyzeCryptoTrend(lastPrice, shortMa, longMa, Stablecoin) ==
            Ok(if lastPrice > 1.005 || lastPrice < 0.995 then DepegRisk else Stable)
  {
  }

  /** A positive factor keeps the sign of what it multiplies. */
  lemma MulPositiveSign(a: real, x: real)
    requires a > 0.0
    ensures x > 0.0 <==> a * x > 0.0
    ensures x < 0.0 <==> a * x < 0.0
  {
  }

  /** A percentage distance above `bound` is a price above `ma * (1 + bound / 100)`. */
  lemma PercentAbove(price: real, ma: real, bound: real)
    requires ma > 0.0
    ensures ((price - ma) / ma) * 100.0 > bound <==> price > ma * (1.0 + bound / 100.0)
  {
    var d := (price - ma) / ma;
    var c := bound / 100.0;
    assert d * ma == price - ma;
    assert ma * (1.0 + c) == ma + ma * c;
    assert ma * (d - c) == (price - ma) - ma * c;
    MulPositiveSign(ma, d - c);
  }

  /** A percentage distance below `bound` is a price below `ma * (1 + bound / 100)`. */
  lemma PercentBelow(price: real, ma: real, bound: real)
    requires ma > 0.0
    ensures ((price - ma) / ma) * 100.0 < bound <==> price < ma * (1.0 + bound / 100.0)
  {
    var d := (price - ma) / ma;
    var c := bound / 100.0;
    assert d * ma == price - ma;
    assert ma * (1.0 + c) == ma + ma * c;
    assert ma * (d - c) == (price - ma) - ma * c;
    MulPositiveSign(ma, d - c);
  }

  /** The labels for positive moving averages, stated on prices: a strong uptrend is a close
      more than 3% above MA10 and more than 5% above MA20, a strong downtrend more than 3%
      and 5% below them, and otherwise the MA cross decides (a tie counts as bearish). */
  lemma TrendLabels(lastPrice: real, shortMa: real, longMa: real, assetType: string)
    requires assetType != Stablecoin && shortMa > 0.0 && longMa > 0.0
    ensures var t := AnalyzeCryptoTrend(lastPrice, shortMa, longMa, assetType);
      var strongUp := lastPrice > shortMa * 1.03 && lastPrice > longMa * 1.05;
      var strongDown := lastPrice < shortMa * 0.97 && lastPrice < longMa * 0.95;
      t.Ok? &&
      (t.value == StrongUptrend <==> strongUp) &&
      (t.value == StrongDowntrend <==> strongDown) &&
      (t.value == Uptrend <==> !strongUp && !strongDown && shortMa > longMa && lastPrice > shortMa) &&
      (t.value == Downtrend <==> !strongUp && !strongDown && shortMa <= longMa && lastPrice < shortMa) &&
      (t.value == Sideways <==>
         !strongUp && !strongDown && !(shortMa > longMa && lastPrice > shortMa) && !(shortMa <= longMa && lastPrice < shortMa))
  {
    PercentAbove(lastPrice, shortMa, 3.0);
    PercentAbove(lastPrice, longMa, 5.0);
    PercentBelow(lastPrice, shortMa, -3.0);
    PercentBelow(lastPrice, longMa, -5.0);
    PercentAbove(lastPrice, shortMa, 0.0);
    PercentBelow(lastPrice, shortMa, 0.0);
  }

  /** An uptrend has the close above both averages and a downtrend below both. */
  lemma TrendOrdersPrices(lastPrice: real, shortMa: real, longMa: real, assetType: string)
    requires assetType != Stablecoin && shortMa > 0.0 && longMa > 0.0
    ensures AnalyzeCryptoTrend(lastPrice, shortMa, longMa, assetType) == Ok(Uptrend) ==>
              lastPrice > shortMa > longMa
    ensures AnalyzeCryptoTrend(lastPrice, shortMa, longMa, assetType) == Ok(Downtrend) ==>
              lastPrice < shortMa <= longMa
  {
    TrendLabels(lastPrice, shortMa, longMa, assetType);
  }

  /** A close of 108,849.60 over MA10 108,810.78 and MA20 108,797.01 is an uptrend (the
      close is only 0.04% above MA10, too little for a strong uptrend). */
  lemma UptrendExample()
    ensures AnalyzeCryptoTrend(108849.60, 108810.78, 108797.01, "Cryptocurrency") == Ok(Uptrend)
  {
    TrendLabels(108849.60, 108810.78, 108797.01, "Cryptocurrency");
  }

  /** A stablecoin at 1.007 is a depeg risk; at 0.998 it is stable. */
  lemma StablecoinExamples()
    ensures AnalyzeCryptoTrend(1.007, 0.0, 0.0, Stablecoin) == Ok(DepegRisk)
    ensures AnalyzeCryptoTrend(0.998, 0.0, 0.0, Stablecoin) == Ok(Stable)
  {
  }

  /** One element of the report's `crypto_trends`: the numbers behind the fluctuation answer,
      which formatting branch each number takes, and the label behind the diagnosis. */
  datatype CryptoAssetTrend = CryptoAssetTrend(
    asset: string,
    close: real,
    closeDate: int,
    shortMa: real,
    longMa: real,
    closeFormat: PriceFormat,
    shortMaFormat: PriceFormat,
    longMaFormat: PriceFormat,
    trend: Trend)

  function FormatOf(x: real): PriceFormat { if x >= 1.0 then Cents else SixDecimals }

  /** The trend of one asset: none when either MA or the last close is missing. */
  function AssetTrend(allocation: Allocation, bars: seq<Bar>): Outcome<Option<CryptoAssetTrend>>
  {
    var shortMa := MovingAverage(bars, ShortMaPeriod);
    var longMa := MovingAverage(bars, LongMaPeriod);
    var last := LastClose(bars);
    if shortMa.None? || longMa.None? || last.None? then Ok(None)
    else
      var (close, date) := last.value;
      var trend := AnalyzeCryptoTrend(close, shortMa.value, longMa.value, allocation.assetType);
      if trend.Raised? then Raised(trend.error)
      else Ok(Some(CryptoAssetTrend(allocation.asset, close, date, shortMa.value, longMa.value,
                                    FormatOf(close), FormatOf(shortMa.value), FormatOf(longMa.value), trend.value)))
  }

  /** The trends the tool reports for a portfolio (the first raising asset aborts it). */
  function TrendReport(portfolio: seq<Allocation>, market: map<string, seq<Bar>>): Outcome<seq<CryptoAssetTrend>>
  {
    if |portfolio| == 0 then Ok([])
    else
      var last := portfolio[|portfolio| - 1];
      var earlier := TrendReport(portfolio[..|portfolio| - 1], market);
      var here := AssetTrend(last, History(market, last.asset));
      if earlier.Raised? then earlier
      else if here.Raised? then Raised(here.error)
      else if here.value.None? then earlier
      else Ok(earlier.value + [here.value.value])
  }

  /** Once an asset raises, the whole report raises the same error. */
  lemma {:induction false} TrendReportAbortsAtFirstRaise(portfolio: seq<Allocation>, market: map<string, seq<Bar>>, k: nat)
    requires k <= |portfolio|
    requires TrendReport(portfolio[..k], market).Raised?
    ensures TrendReport(portfolio, market) == TrendReport(portfolio[..k], market)
  {
    if k < |portfolio| {
      var init := portfolio[..|portfolio| - 1];
      assert init[..k] == portfolio[..k];
      TrendReportAbortsAtFirstRaise(init, market, k);
    } else {
      assert portfolio[..k] == portfolio;
    }
  }

  /** The loop of `calculate_crypto_trends` over the portfolio. */
  method BuildCryptoTrends(portfolio: seq<Allocation>, market: map<string, seq<Bar>>)
    returns (r: Outcome<seq<CryptoAssetTrend>>)
    ensures r == TrendReport(portfolio, market)
  {
    var cryptoTrends: seq<CryptoAssetTrend> := [];
    var n := 0;
    while n < |portfolio|
      invariant 0 <= n <= |portfolio|
      invariant TrendReport(portfolio[..n], market) == Ok(cryptoTrends)
    {
      var allocation := portfolio[n];
      var step := AssetTrendStep(allocation, History(market, allocation.asset));
      TrendReportStep(portfolio, market, n);
      if step.Raised? {
        TrendReportAbortsAtFirstRaise(portfolio, market, n + 1);
        return Raised(step.error);
      }
      if step.value.Some? {
        cryptoTrends := cryptoTrends + [step.value.value];
      }
      n := n + 1;
    }
    assert portfolio[..n] == portfolio;
    r := Ok(cryptoTrends);
  }

  /** The body of the portfolio loop for one asset; the two `continue`s skip an asset
      without the averages or without a last close. */
  method AssetTrendStep(allocation: Allocation, bars: seq<Bar>) returns (r: Outcome<Option<CryptoAssetTrend>>)
    ensures r == AssetTrend(allocation, bars)
  {
    var shortMa := MovingAverage(bars, ShortMaPeriod);
    var longMa := MovingAverage(bars, LongMaPeriod);
    if shortMa.None? || longMa.None? {
      return Ok(None);
    }
    var last := LastClose(bars);
    if last.None? {
      return Ok(None);
    }
    var (lastClosingPrice, priceDate) := last.value;
    var trend := AnalyzeCryptoTrend(lastClosingPrice, shortMa.value, longMa.value, allocation.assetType);
    if trend.Raised? {
      return Raised(trend.error);
    }
    r := Ok(Some(CryptoAssetTrend(allocation.asset, lastClosingPrice, priceDate, shortMa.value, longMa.value,
                                  FormatOf(lastClosingPrice), FormatOf(shortMa.value), FormatOf(longMa.value),
                                  trend.value)));
  }

  /** The report of one more asset extends the report of the assets before it. */
  lemma TrendReportStep(portfolio: seq<Allocation>, market: map<string, seq<Bar>>, n: nat)
    requires n < |portfolio|
    ensures var earlier := TrendReport(portfolio[..n], market);
      var here := AssetTrend(portfolio[n], History(market, portfolio[n].asset));
      TrendReport(portfolio[..n + 1], market) ==
        if earlier.Raised? then earlier
        else if here.Raised? then Raised(here.error)
        else if here.value.None? then earlier
        else Ok(earlier.value + [here.value.value])
  {
    assert portfolio[..n + 1][..n] == portfolio[..n];
  }

  /** An asset yields a trend exactly when it has bars, and that trend carries its symbol
      and newest close. */
  lemma AssetTrendShape(allocation: Allocation, bars: seq<Bar>)
    requires AssetTrend(allocation, bars).Ok?
    ensures AssetTrend(allocation, bars).value.Some? <==> |bars| > 0
    ensures AssetTrend(allocation, bars).value.Some? ==>
      AssetTrend(allocation, bars).value.value.asset == allocation.asset &&
      AssetTrend(allocation, bars).value.value.close == bars[0].close
  {
  }

  /** The allocations whose symbol has bars, in portfolio order. */
  function Traded(portfolio: seq<Allocation>, market: map<string, seq<Bar>>): (t: seq<Allocation>)
    ensures |t| <= |portfolio|
    ensures forall a :: a in t ==> a in portfolio && |History(market, a.asset)| > 0
  {
    if |portfolio| == 0 then []
    else
      var last := portfolio[|portfolio| - 1];
      Traded(portfolio[..|portfolio| - 1], market) + (if |History(market, last.asset)| > 0 then [last] else [])
  }

  /** An asset is skipped exactly when it has no bars; every other asset yields exactly one
      trend, in portfolio order, carrying that asset's own symbol and newest close. */
  lemma {:induction false} TrendReportFollowsPortfolio(portfolio: seq<Allocation>, market: map<string, seq<Bar>>)
    requires TrendReport(portfolio, market).Ok?
    ensures var report := TrendReport(portfolio, market).value;
      var traded := Traded(portfolio, market);
      |report| == |traded| &&
      forall i :: 0 <= i < |report| ==>
        report[i].asset == traded[i].asset &&
        report[i].close == History(market, traded[i].asset)[0].close
  {
    if |portfolio| > 0 {
      var n := |portfolio| - 1;
      var init, last := portfolio[..n], portfolio[n];
      TrendReportFollowsPortfolio(init, market);
      TrendReportStep(portfolio, market, n);
      assert portfolio[..n + 1] == portfolio;
      var bars := History(market, last.asset);
      AssetTrendShape(last, bars);
      var here := AssetTrend(last, bars).value;
      var earlier, before := TrendReport(init, market).value, Traded(init, market);
      assert Aligned(earlier, before, market);
      assert TrendReport(portfolio, market).value == earlier + (if here.Some? then [here.value] else []);
      assert Traded(portfolio, market) == before + (if |bars| > 0 then [last] else []);
      AlignedSnoc(earlier, before, market, here, last);
    }
  }

  /** Each trend carries the symbol and newest close of the traded allocation at the same
      position. */
  predicate Aligned(report: seq<CryptoAssetTrend>, traded: seq<Allocation>, market: map<string, seq<Bar>>)
    requires forall a :: a in traded ==> |History(market, a.asset)| > 0
  {
    |report| == |traded| &&
    forall i :: 0 <= i < |report| ==>
      report[i].asset == traded[i].asset && report[i].close == History(market, traded[i].asset)[0].close
  }

  lemma AlignedSnoc(report: seq<CryptoAssetTrend>, traded: seq<Allocation>, market: map<string, seq<Bar>>,
                    here: Option<CryptoAssetTrend>, a: Allocation)
    requires forall b :: b in traded ==> |History(market, b.asset)| > 0
    requires Aligned(report, traded, market)
    requires here.Some? <==> |History(market, a.asset)| > 0
    requires here.Some? ==> here.value.asset == a.asset && here.value.close == History(market, a.asset)[0].close
    ensures var more := traded + (if here.Some? then [a] else []);
      (forall b :: b in more ==> |History(market, b.asset)| > 0) &&
      Aligned(report + (if here.Some? then [here.value] else []), more, market)
  {
    var more := traded + (if here.Some? then [a] else []);
    var longer := report + (if here.Some? then [here.value] else []);
    assert forall i :: 0 <= i < |traded| ==> more[i] == traded[i] && longer[i] == report[i];
  }

  /** Adding an asset without bars leaves the report unchanged. */
  lemma SkipLeavesReportUnchanged(portfolio: seq<Allocation>, market: map<string, seq<Bar>>, a: Allocation)
    requires |History(market, a.asset)| == 0
    ensures TrendReport(portfolio + [a], market) == TrendReport(portfolio, market)
  {
    assert (portfolio + [a])[..|portfolio|] == portfolio;
  }
}
