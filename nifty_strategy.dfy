/**
 * The NIFTY strategy engine: RSI, EMA and MACD over closing prices, the
 * ATM-call and iron-condor scorers and the time-of-day signal validator.
 * The least-squares slope of the last five closes (`np.polyfit`) is an input.
 */
module NiftyStrategy {
  import opened Wrappers
  import opened PyNum
  import Strikes
  import Clock

  const DefaultMinSignalScore: real := 70.0
  const RsiPeriod: int := 14
  const MacdFast: int := 12
  const MacdSlow: int := 26
  const MacdSignal: int := 9

  datatype Strategy = AtmCall | IronCondor | ShortStrangle | CalendarSpread

  /** The reasons a scorer records, with the figure its message quotes. */
  datatype Reason =
    | RsiNeutralZone(rsi: real)
    | RsiOversold(rsi: real)
    | MacdBullishCrossover
    | MacdAboveSignalLine
    | UptrendConfirmed(slope: real)
    | DowntrendSkip
    | IvIdeal(ivPercentile: real)
    | IvAcceptable(ivPercentile: real)
    | IvTooLow(ivPercentile: real)

  datatype StrategySignal = StrategySignal(
    strategy: Strategy,
    symbol: string,
    score: int,
    entryPrice: real,
    stopLoss: real,
    target: real,
    reasons: seq<Reason>)

  // ---------------------------------------------------------------------------
  // RSI (calculate_rsi)

  function PositivePart(x: real): real
  {
    if x > 0.0 then x else 0.0
  }

  /** Sum of the rises between consecutive prices of `w`. */
  function Gains(w: seq<real>): real
  {
    if |w| < 2 then 0.0 else Gains(w[..|w| - 1]) + PositivePart(w[|w| - 1] - w[|w| - 2])
  }

  /** Sum of the falls between consecutive prices of `w`, as a positive number. */
  function Losses(w: seq<real>): real
  {
    if |w| < 2 then 0.0 else Losses(w[..|w| - 1]) + PositivePart(w[|w| - 2] - w[|w| - 1])
  }

  /**
   * Rises minus falls telescope to the net move across the window; neither
   * sum is negative; there are no rises exactly when the prices never go up,
   * and no falls exactly when they never go down.
   */
  lemma {:induction false} GainsLossesTelescope(w: seq<real>)
    requires |w| >= 1
    ensures Gains(w) - Losses(w) == w[|w| - 1] - w[0]
    ensures Gains(w) >= 0.0 && Losses(w) >= 0.0
    ensures Gains(w) == 0.0 <==> forall i :: 0 < i < |w| ==> w[i] <= w[i - 1]
    ensures Losses(w) == 0.0 <==> forall i :: 0 < i < |w| ==> w[i] >= w[i - 1]
  {
    if |w| >= 2 {
      var v := w[..|w| - 1];
      GainsLossesTelescope(v);
    }
  }

  /** The closing arithmetic of the RSI: for positive average loss it is strictly below 100 and above 50 exactly when gains exceed losses. */
  lemma RsiArithmetic(gains: real, losses: real, period: real)
    requires gains >= 0.0 && losses > 0.0 && period >= 1.0
    ensures var rs := (gains / period) / (losses / period);
            var rsi := 100.0 - 100.0 / (1.0 + rs);
            && 0.0 <= rsi < 100.0
            && (rsi > 50.0 <==> gains > losses)
            && (rsi < 50.0 <==> gains < losses)
  {
    var rs := (gains / period) / (losses / period);
    assert rs * (losses / period) == gains / period;
    assert rs * losses == gains;
    assert rs >= 0.0;
    var d := 100.0 / (1.0 + rs);
    assert d * (1.0 + rs) == 100.0;
    assert 0.0 < d <= 100.0;
    assert d < 50.0 <==> rs > 1.0;
    assert d > 50.0 <==> rs < 1.0;
    assert rs > 1.0 <==> gains > losses;
    assert rs < 1.0 <==> gains < losses;
  }

  /** The RSI of a full window: 100 with no losses and some gains, 50 with neither, otherwise 100 - 100 / (1 + rs). */
  function RsiOfWindow(w: seq<real>, period: int): real
    requires period >= 1 && |w| >= 1
  {
    GainsLossesTelescope(w);
    var avgGain := Gains(w) / period as real;
    var avgLoss := Losses(w) / period as real;
    if avgLoss == 0.0 then
      (if avgGain > 0.0 then 100.0 else 50.0)
    else
      100.0 - 100.0 / (1.0 + avgGain / avgLoss)
  }

  /**
   * A window's RSI lies in [0, 100], is above 50 exactly when the window
   * ends higher than it began (below 50 when lower), and is 100 exactly when
   * it rises at least once and never falls.
   */
  lemma RsiOfWindowFacts(w: seq<real>, period: int)
    requires period >= 1 && |w| >= 1
    ensures var rsi := RsiOfWindow(w, period);
            && 0.0 <= rsi <= 100.0
            && (rsi > 50.0 <==> w[|w| - 1] > w[0])
            && (rsi < 50.0 <==> w[|w| - 1] < w[0])
            && (rsi == 100.0 <==> Gains(w) > 0.0 && Losses(w) == 0.0)
  {
    GainsLossesTelescope(w);
    var p := period as real;
    if Losses(w) == 0.0 {
      assert Losses(w) / p == 0.0;
      assert Gains(w) / p > 0.0 <==> Gains(w) > 0.0;
    } else {
      assert Losses(w) / p != 0.0;
      RsiArithmetic(Gains(w), Losses(w), p);
    }
  }

  /** calculate_rsi: 50 with too little history, otherwise the RSI of the last `period + 1` prices. */
  function CalculateRsi(prices: seq<real>, period: int): (rsi: real)
    requires period >= 1
    ensures 0.0 <= rsi <= 100.0
    ensures |prices| < period + 1 ==> rsi == 50.0
    ensures |prices| >= period + 1 ==>
              var w := prices[|prices| - period - 1..];
              && (rsi > 50.0 <==> w[|w| - 1] > w[0])
              && (rsi < 50.0 <==> w[|w| - 1] < w[0])
              && (rsi == 100.0 <==> Gains(w) > 0.0 && Losses(w) == 0.0)
  {
    if |prices| < period + 1 then 50.0
    else
      var w := prices[|prices| - period - 1..];
      RsiOfWindowFacts(w, period);
      RsiOfWindow(w, period)
  }

  // ---------------------------------------------------------------------------
  // EMA (_calculate_ema)

  /** The smoothing factor 2 / (period + 1). */
  function Multiplier(period: int): real
    requires period + 1 != 0
  {
    2.0 / (period + 1) as real
  }

  /** The exponential moving average: seeded with the first price, then folded left over the rest. */
  function Ema(prices: seq<real>, period: int): real
    requires |prices| >= 2 ==> period + 1 != 0
  {
    if |prices| == 0 then 0.0
    else if |prices| == 1 then prices[0]
    else
      var m := Multiplier(period);
      prices[|prices| - 1] * m + Ema(prices[..|prices| - 1], period) * (1.0 - m)
  }

  /** For a period of at least one, each step is a convex combination, so the EMA stays within any bounds of the prices. */
  lemma {:induction false} EmaWithinBounds(prices: seq<real>, period: int, lo: real, hi: real)
    requires period >= 1 && |prices| >= 1
    requires forall i :: 0 <= i < |prices| ==> lo <= prices[i] <= hi
    ensures lo <= Ema(prices, period) <= hi
  {
    if |prices| >= 2 {
      var v := prices[..|prices| - 1];
      EmaWithinBounds(v, period, lo, hi);
      var m := Multiplier(period);
      ConvexStep(prices[|prices| - 1], Ema(v, period), m, lo, hi);
    }
  }

  lemma ConvexStep(x: real, e: real, m: real, lo: real, hi: real)
    requires 0.0 < m <= 1.0 && lo <= x <= hi && lo <= e <= hi
    ensures lo <= x * m + e * (1.0 - m) <= hi
  {
    NonnegativeProduct(x - lo, m);
    NonnegativeProduct(e - lo, 1.0 - m);
    NonnegativeProduct(hi - x, m);
    NonnegativeProduct(hi - e, 1.0 - m);
    assert x * m + e * (1.0 - m) - lo == (x - lo) * m + (e - lo) * (1.0 - m);
    assert hi - (x * m + e * (1.0 - m)) == (hi - x) * m + (hi - e) * (1.0 - m);
  }

  /** _calculate_ema: 0 for no prices, the price itself for one, otherwise the fold. */
  method CalculateEma(prices: seq<real>, period: int) returns (ema: real)
    requires |prices| >= 2 ==> period + 1 != 0
    ensures ema == Ema(prices, period)
  {
    if |prices| == 0 {
      return 0.0;
    }
    if |prices| == 1 {
      return prices[0];
    }
    var multiplier := 2.0 / (period + 1) as real;
    ema := prices[0];
    var i := 1;
    while i < |prices|
      invariant 1 <= i <= |prices|
      invariant ema == Ema(prices[..i], period)
    {
      assert prices[..i + 1][..i] == prices[..i];
      ema := prices[i] * multiplier + ema * (1.0 - multiplier);
      i := i + 1;
    }
    assert prices[..i] == prices;
  }

  // ---------------------------------------------------------------------------
  // MACD (calculate_macd)

  /** The MACD line at every bar: fast EMA minus slow EMA of each prefix; the last entry is the current MACD line. */
  function MacdSeries(prices: seq<real>): (values: seq<real>)
    ensures |values| == |prices|
    ensures |prices| >= 1 ==> values[|prices| - 1] == Ema(prices, MacdFast) - Ema(prices, MacdSlow)
  {
    assert |prices| >= 1 ==> prices[..|prices|] == prices;
    seq(|prices|, i requires 0 <= i < |prices| => Ema(prices[..i + 1], MacdFast) - Ema(prices[..i + 1], MacdSlow))
  }

  /**
   * calculate_macd: all zero with fewer than 26 prices; otherwise the MACD
   * line, the signal line (the 9-period EMA of the MACD line's history, one
   * value per price) and their difference.
   */
  method CalculateMacd(prices: seq<real>) returns (macdLine: real, signalLine: real, histogram: real)
    ensures |prices| < MacdSlow ==> macdLine == 0.0 && signalLine == 0.0 && histogram == 0.0
    ensures |prices| >= MacdSlow ==>
              && macdLine == Ema(prices, MacdFast) - Ema(prices, MacdSlow)
              && signalLine == Ema(MacdSeries(prices), MacdSignal)
    ensures histogram == macdLine - signalLine
  {
    if |prices| < MacdSlow {
      return 0.0, 0.0, 0.0;
    }
    var emaFast := CalculateEma(prices, MacdFast);
    var emaSlow := CalculateEma(prices, MacdSlow);
    macdLine := emaFast - emaSlow;
    var macdValues: seq<real> := [];
    var i := 0;
    while i < |prices|
      invariant 0 <= i <= |prices|
      invariant |macdValues| == i
      invariant forall k :: 0 <= k < i ==> macdValues[k] == MacdSeries(prices)[k]
    {
      var emaF := CalculateEma(prices[..i + 1], MacdFast);
      var emaS := CalculateEma(prices[..i + 1], MacdSlow);
      macdValues := macdValues + [emaF - emaS];
      i := i + 1;
    }
    assert macdValues == MacdSeries(prices);
    signalLine := CalculateEma(macdValues, MacdSignal);
    histogram := macdLine - signalLine;
  }

  /** A flat price history has no momentum: every MACD value, and hence the signal line, is zero. */
  lemma FlatPricesHaveZeroMacd(prices: seq<real>, c: real)
    requires |prices| >= 1
    requires forall i :: 0 <= i < |prices| ==> prices[i] == c
    ensures forall k :: 0 <= k < |prices| ==> MacdSeries(prices)[k] == 0.0
    ensures Ema(MacdSeries(prices), MacdSignal) == 0.0
  {
    forall k | 0 <= k < |prices|
      ensures MacdSeries(prices)[k] == 0.0
    {
      EmaWithinBounds(prices[..k + 1], MacdFast, c, c);
      EmaWithinBounds(prices[..k + 1], MacdSlow, c, c);
    }
    EmaWithinBounds(MacdSeries(prices), MacdSignal, 0.0, 0.0);
  }

  // ---------------------------------------------------------------------------
  // ATM call buying (generate_atm_call_signal)

  /** A score with the reasons recorded while computing it. */
  datatype Scored = Scored(score: int, reasons: seq<Reason>)

  /** RSI: 25 in the neutral zone (30, 70), 35 when oversold (below 30), nothing otherwise. */
  function RsiComponent(rsi: real): Scored
  {
    if 30.0 < rsi < 70.0 then Scored(25, [RsiNeutralZone(rsi)])
    else if rsi < 30.0 then Scored(35, [RsiOversold(rsi)])
    else Scored(0, [])
  }

  /** MACD: 25 for a bullish crossover above zero, 15 for merely above the signal line. */
  function MacdComponent(macdLine: real, macdSignal: real): Scored
  {
    if macdLine > macdSignal && macdLine > 0.0 then Scored(25, [MacdBullishCrossover])
    else if macdLine > macdSignal then Scored(15, [MacdAboveSignalLine])
    else Scored(0, [])
  }

  /** Momentum, only with at least five prices: +25 for an upward slope, -15 below -0.1. */
  function TrendComponent(history: seq<real>, slope: real): Scored
  {
    if |history| >= 5 then
      if slope > 0.0 then Scored(25, [UptrendConfirmed(slope)])
      else if slope < -0.1 then Scored(-15, [DowntrendSkip])
      else Scored(0, [])
    else Scored(0, [])
  }

  /** The ATM-call score: the three components added in order, so at most 85 and at least -15. */
  function AtmCallScore(rsi: real, macdLine: real, macdSignal: real, history: seq<real>, slope: real): (s: Scored)
    ensures -15 <= s.score <= 85
    ensures s.score >= 70 <==>
              |history| >= 5 && slope > 0.0 && macdLine > macdSignal
              && (rsi < 30.0 || (30.0 < rsi < 70.0 && macdLine > 0.0))
  {
    var r := RsiComponent(rsi);
    var m := MacdComponent(macdLine, macdSignal);
    var t := TrendComponent(history, slope);
    Scored(r.score + m.score + t.score, r.reasons + m.reasons + t.reasons)
  }

  /**
   * A signal exactly when the score reaches the engine's threshold. It buys
   * the strike nearest the index at 1% above the index, with the stop 200
   * points below that strike and the target 300 above it.
   */
  function GenerateAtmCallSignal(minSignalScore: real, niftyPrice: real, history: seq<real>, slope: real,
                                 rsi: real, macdLine: real, macdSignal: real): (s: Option<StrategySignal>)
    ensures var scored := AtmCallScore(rsi, macdLine, macdSignal, history, slope);
            s.Some? <==> scored.score as real >= minSignalScore
    ensures minSignalScore > 85.0 ==> s == None
    ensures s.Some? ==>
              var atm := Strikes.AtmStrike(niftyPrice);
              && s.value.strategy == AtmCall && s.value.symbol == "NIFTY"
              && s.value.entryPrice == niftyPrice * 1.01
              && s.value.stopLoss == (atm - 200) as real
              && s.value.target == (atm + 300) as real
              && s.value.target - s.value.stopLoss == 500.0
              && s.value.score as real >= minSignalScore
  {
    var scored := AtmCallScore(rsi, macdLine, macdSignal, history, slope);
    if scored.score as real >= minSignalScore then
      var atm := Strikes.AtmStrike(niftyPrice);
      Some(StrategySignal(AtmCall, "NIFTY", scored.score, niftyPrice * 1.01,
                          (atm - 200) as real, (atm + 300) as real, scored.reasons))
    else None
  }

  // ---------------------------------------------------------------------------
  // Iron condor (generate_iron_condor_signal)

  /**
   * 50 in the ideal band 30 < iv < 70. The second test, iv > 50, can only
   * catch iv >= 70 after the first has failed, so it scores 30 exactly there;
   * iv <= 30 scores -20.
   */
  function IronCondorScore(ivPercentile: real): (s: Scored)
    ensures s.score == 50 <==> 30.0 < ivPercentile < 70.0
    ensures s.score == 30 <==> ivPercentile >= 70.0
    ensures s.score == -20 <==> ivPercentile <= 30.0
  {
    if 30.0 < ivPercentile < 70.0 then Scored(50, [IvIdeal(ivPercentile)])
    else if ivPercentile > 50.0 then Scored(30, [IvAcceptable(ivPercentile)])
    else Scored(-20, [IvTooLow(ivPercentile)])
  }

  /** A signal exactly when the score reaches the threshold: never for a threshold above 50, so never at the default 70. */
  function GenerateIronCondorSignal(minSignalScore: real, niftyPrice: real, ivPercentile: real): (s: Option<StrategySignal>)
    ensures s.Some? <==> IronCondorScore(ivPercentile).score as real >= minSignalScore
    ensures minSignalScore > 50.0 ==> s == None
    ensures s.Some? ==>
              && s.value.strategy == IronCondor
              && s.value.entryPrice == niftyPrice
              && s.value.stopLoss == s.value.target == Strikes.AtmStrike(niftyPrice) as real
  {
    var scored := IronCondorScore(ivPercentile);
    if scored.score as real >= minSignalScore then
      var atm := Strikes.AtmStrike(niftyPrice);
      Some(StrategySignal(IronCondor, "NIFTY", scored.score, niftyPrice, atm as real, atm as real, scored.reasons))
    else None
  }

  // ---------------------------------------------------------------------------
  // Signal validation (validate_signal)

  const MarketOpenSecond: nat := Clock.Seconds(9, 15, 0)
  const MarketCloseSecond: nat := Clock.Seconds(15, 30, 0)
  /** Thirty minutes. */
  const QuietPeriod: int := 1800

  /**
   * validate_signal at `now` (whole seconds since midnight). Rejected when
   * fewer than 1800 s have passed since 09:15 (so also before the open),
   * when within 1800 s either side of 15:30, and, for an ATM call, when the
   * target does not exceed the entry. Other strategies get no price check.
   */
  function ValidateSignal(signal: StrategySignal, now: nat): (ok: bool)
    ensures ok <==>
              && Clock.Seconds(9, 45, 0) <= now
              && (now <= Clock.Seconds(15, 0, 0) || now >= Clock.Seconds(16, 0, 0))
              && (signal.strategy == AtmCall ==> signal.target > signal.entryPrice)
  {
    if now - MarketOpenSecond < QuietPeriod then false
    else if (if MarketCloseSecond - now < 0 then now - MarketCloseSecond else MarketCloseSecond - now) < QuietPeriod then false
    else if signal.strategy == AtmCall && signal.target <= signal.entryPrice then false
    else true
  }

  /**
   * Below 25000 the ATM-call target, at least 250 points above the index,
   * clears the 1% entry premium, so the price check always passes.
   */
  lemma AtmCallTargetClearsEntryBelow25000(minSignalScore: real, niftyPrice: real, history: seq<real>, slope: real,
                                           rsi: real, macdLine: real, macdSignal: real)
    requires niftyPrice < 25000.0
    ensures var s := GenerateAtmCallSignal(minSignalScore, niftyPrice, history, slope, rsi, macdLine, macdSignal);
            s.Some? ==> s.value.target > s.value.entryPrice
  {
  }

  /**
   * From 35000 on, the target (at most 350 above the index) never exceeds the
   * entry 1% above it, so every ATM-call signal the engine generates is
   * rejected by its own validator.
   */
  lemma AtmCallRejectedFrom35000(minSignalScore: real, niftyPrice: real, history: seq<real>, slope: real,
                                 rsi: real, macdLine: real, macdSignal: real, now: nat)
    requires niftyPrice >= 35000.0
    ensures var s := GenerateAtmCallSignal(minSignalScore, niftyPrice, history, slope, rsi, macdLine, macdSignal);
            s.Some? ==> !ValidateSignal(s.value, now)
  {
  }
}
