/**
 * Technical indicators and the composite signal built from them, the
 * Greeks-based strategy evaluation and the backtest's position loop.
 *
 * TA-Lib's outputs (RSI, MACD, Bollinger position, ATR, EMAs) and the
 * volume-profile quantiles are inputs; the decisions taken on them are
 * modelled. Scores are integers; the composite's weights are percentages, so
 * its total and confidence are carried multiplied by 100.
 */
module Indicators {
  import opened Wrappers
  import opened PyNum

  datatype Action = Buy | Sell | Neutral

  // ---------------------------------------------------------------------------
  // EMA crossover (calculate_ema_crossover)

  datatype Crossover = Crossover(emaFast: real, emaSlow: real, crossover: bool, signal: Action)

  /**
   * BUY on the bar where the fast EMA moves above the slow one, SELL on the
   * bar where it stops being above, NEUTRAL whenever the relation is the same
   * as on the previous bar.
   */
  function EmaCrossover(fastNow: real, slowNow: real, fastPrev: real, slowPrev: real): (x: Crossover)
    ensures x.crossover <==> fastNow > slowNow
    ensures x.signal == Buy <==> fastNow > slowNow && fastPrev <= slowPrev
    ensures x.signal == Sell <==> fastNow <= slowNow && fastPrev > slowPrev
    ensures x.signal == Neutral <==> ((fastNow > slowNow) <==> (fastPrev > slowPrev))
  {
    var crossover := fastNow > slowNow;
    var prevCrossover := fastPrev > slowPrev;
    var signal := if crossover && !prevCrossover then Buy
                  else if !crossover && prevCrossover then Sell
                  else Neutral;
    Crossover(fastNow, slowNow, crossover, signal)
  }

  // ---------------------------------------------------------------------------
  // Supertrend (calculate_supertrend)

  /** The upper band at bar i: the high-low midpoint plus `multiplier` ATRs. */
  function UpperBand(high: seq<real>, low: seq<real>, atr: seq<real>, multiplier: real, i: nat): real
    requires i < |high| && i < |low| && i < |atr|
  {
    (high[i] + low[i]) / 2.0 + multiplier * atr[i]
  }

  /** The lower band at bar i: the midpoint minus `multiplier` ATRs. */
  function LowerBand(high: seq<real>, low: seq<real>, atr: seq<real>, multiplier: real, i: nat): real
    requires i < |high| && i < |low| && i < |atr|
  {
    (high[i] + low[i]) / 2.0 - multiplier * atr[i]
  }

  /** One bar of the two series; `None` stands for a NaN entry the loop never wrote. */
  datatype TrendPoint = TrendPoint(value: Option<real>, direction: Option<int>)

  /**
   * Bars before `period` are never written. From `period` on, a close at or
   * below the upper band is a downtrend (-1) whose line is the upper band;
   * otherwise an uptrend (+1) on the lower band.
   */
  function SupertrendAt(high: seq<real>, low: seq<real>, close: seq<real>, atr: seq<real>,
                        period: nat, multiplier: real, i: nat): (p: TrendPoint)
    requires |high| == |low| == |close| == |atr| && i < |close|
    ensures i < period <==> p.direction == None
    ensures p.direction.Some? ==> p.value.Some? && (p.direction.value == 1 || p.direction.value == -1)
    ensures p.direction == Some(1) ==> close[i] > UpperBand(high, low, atr, multiplier, i)
    ensures p.direction == Some(-1) ==> close[i] <= UpperBand(high, low, atr, multiplier, i)
  {
    if i < period then TrendPoint(None, None)
    else if close[i] <= UpperBand(high, low, atr, multiplier, i) then
      TrendPoint(Some(UpperBand(high, low, atr, multiplier, i)), Some(-1))
    else
      TrendPoint(Some(LowerBand(high, low, atr, multiplier, i)), Some(1))
  }

  /** With a non-negative ATR and multiplier the close is above the trend line in an uptrend and at or below it in a downtrend. */
  lemma SupertrendLineSide(high: seq<real>, low: seq<real>, close: seq<real>, atr: seq<real>,
                           period: nat, multiplier: real, i: nat)
    requires |high| == |low| == |close| == |atr| && i < |close|
    requires multiplier >= 0.0 && atr[i] >= 0.0
    ensures var p := SupertrendAt(high, low, close, atr, period, multiplier, i);
            && (p.direction == Some(1) ==> close[i] > p.value.value)
            && (p.direction == Some(-1) ==> close[i] <= p.value.value)
  {
    var p := SupertrendAt(high, low, close, atr, period, multiplier, i);
    if p.direction == Some(1) {
      assert multiplier * atr[i] >= 0.0 by { NonnegativeProduct(multiplier, atr[i]); }
    }
  }

  /** The two series the loop writes in place, starting from all-NaN. */
  method SupertrendSeries(high: seq<real>, low: seq<real>, close: seq<real>, atr: seq<real>, period: nat, multiplier: real)
    returns (values: seq<Option<real>>, directions: seq<Option<int>>)
    requires |high| == |low| == |close| == |atr|
    ensures |values| == |directions| == |close|
    ensures forall i :: 0 <= i < |close| ==>
              TrendPoint(values[i], directions[i]) == SupertrendAt(high, low, close, atr, period, multiplier, i)
  {
    var supertrend := new Option<real>[|close|](_ => None);
    var direction := new Option<int>[|close|](_ => None);
    var i := period;
    while i < |close|
      invariant period <= i || |close| <= period
      invariant forall k :: 0 <= k < |close| && (k < period || k >= i) ==> supertrend[k] == None && direction[k] == None
      invariant forall k :: period <= k < i && k < |close| ==>
                  TrendPoint(supertrend[k], direction[k]) == SupertrendAt(high, low, close, atr, period, multiplier, k)
    {
      if close[i] <= UpperBand(high, low, atr, multiplier, i) {
        supertrend[i] := Some(UpperBand(high, low, atr, multiplier, i));
        direction[i] := Some(-1);
      } else {
        supertrend[i] := Some(LowerBand(high, low, atr, multiplier, i));
        direction[i] := Some(1);
      }
      i := i + 1;
    }
    values, directions := supertrend[..], direction[..];
  }

  datatype Supertrend = Supertrend(value: Option<real>, direction: Option<int>, signal: Action)

  /**
   * calculate_supertrend: the last bar of the series, and BUY exactly when
   * its direction is +1 (an unwritten NaN direction reads as SELL). An empty
   * series raises, modelled as `None`.
   */
  method CalculateSupertrend(high: seq<real>, low: seq<real>, close: seq<real>, atr: seq<real>, period: nat, multiplier: real)
    returns (r: Option<Supertrend>)
    requires |high| == |low| == |close| == |atr|
    ensures r.None? <==> |close| == 0
    ensures r.Some? ==>
              var last := SupertrendAt(high, low, close, atr, period, multiplier, |close| - 1);
              && r.value.value == last.value && r.value.direction == last.direction
              && (r.value.signal == Buy <==> last.direction == Some(1))
              && (r.value.signal == Buy || r.value.signal == Sell)
              && (|close| <= period ==> r.value.signal == Sell)
  {
    var values, directions := SupertrendSeries(high, low, close, atr, period, multiplier);
    if |close| == 0 {
      return None;
    }
    var n := |close| - 1;
    r := Some(Supertrend(values[n], directions[n], if directions[n] == Some(1) then Buy else Sell));
  }

  // ---------------------------------------------------------------------------
  // Volume profile (_get_position_in_profile)

  datatype ProfilePosition = AboveValue | BelowValue | InValue

  /** Above the value area when the price exceeds its high, below when under its low, inside otherwise; the point of control is not consulted. */
  function PositionInProfile(price: real, poc: real, vah: real, val: real): (p: ProfilePosition)
    ensures p == AboveValue <==> price > vah
    ensures p == BelowValue <==> price <= vah && price < val
    ensures p == InValue <==> val <= price <= vah
  {
    if price > vah then AboveValue
    else if price < val then BelowValue
    else InValue
  }

  // ---------------------------------------------------------------------------
  // Composite signal (generate_composite_signal)

  datatype Indicator = Rsi | Macd | Bollinger | SupertrendIndicator | EmaIndicator

  /** The weights, in percent: 0.20, 0.25, 0.15, 0.20, 0.20. */
  function Weight(indicator: Indicator): int
  {
    match indicator
    case Rsi => 20
    case Macd => 25
    case Bollinger => 15
    case SupertrendIndicator => 20
    case EmaIndicator => 20
  }

  datatype IndicatorSignal = IndicatorSignal(indicator: Indicator, score: int, verdict: string)

  /** The indicator values the composite reads: TA-Lib outputs, the Supertrend direction and the EMA-crossover signal. */
  datatype Readings = Readings(
    rsi: real,
    macd: real,
    macdSignal: real,
    histogram: real,
    bollingerPosition: real,
    supertrendDirection: Option<int>,
    emaSignal: Action)

  /** The composite: the five signals, and the weighted total and confidence, both times 100. */
  datatype Composite = Composite(signals: seq<IndicatorSignal>, totalScore: int, action: Action, confidence: int)

  /** `sum(score * weight)` over the signals, times 100. */
  function WeightedTotal(signals: seq<IndicatorSignal>): int
  {
    if signals == [] then 0
    else WeightedTotal(signals[..|signals| - 1]) + signals[|signals| - 1].score * Weight(signals[|signals| - 1].indicator)
  }

  /** The largest score magnitude each indicator can contribute. */
  function MaxScore(indicator: Indicator): int
  {
    match indicator
    case Rsi => 100
    case Macd => 80
    case Bollinger => 70
    case SupertrendIndicator => 90
    case EmaIndicator => 85
  }

  function MaxWeightedTotal(signals: seq<IndicatorSignal>): int
  {
    if signals == [] then 0
    else MaxWeightedTotal(signals[..|signals| - 1]) + MaxScore(signals[|signals| - 1].indicator) * Weight(signals[|signals| - 1].indicator)
  }

  /** The weighted total is bounded by the weighted sum of the largest magnitudes. */
  lemma {:induction false} WeightedTotalBounded(signals: seq<IndicatorSignal>)
    requires forall k :: 0 <= k < |signals| ==> -MaxScore(signals[k].indicator) <= signals[k].score <= MaxScore(signals[k].indicator)
    ensures -MaxWeightedTotal(signals) <= WeightedTotal(signals) <= MaxWeightedTotal(signals)
  {
    if signals != [] {
      WeightedTotalBounded(signals[..|signals| - 1]);
      var s := signals[|signals| - 1];
      var w := Weight(s.indicator);
      assert -MaxScore(s.indicator) * w <= s.score * w <= MaxScore(s.indicator) * w;
    }
  }

  /** Oversold below 30 (+100), overbought above 70 (-100). */
  function RsiSignal(rsi: real): (s: IndicatorSignal)
    ensures s.indicator == Rsi && -MaxScore(Rsi) <= s.score <= MaxScore(Rsi)
    ensures (s.score == 100 <==> rsi < 30.0) && (s.score == -100 <==> rsi > 70.0) && (s.score == 0 <==> 30.0 <= rsi <= 70.0)
  {
    if rsi < 30.0 then IndicatorSignal(Rsi, 100, "OVERSOLD")
    else if rsi > 70.0 then IndicatorSignal(Rsi, -100, "OVERBOUGHT")
    else IndicatorSignal(Rsi, 0, "NEUTRAL")
  }

  /** Bullish (+80) when the histogram is positive and the line above its signal, bearish (-80) in the mirror case. */
  function MacdSignal(macd: real, signal: real, histogram: real): (s: IndicatorSignal)
    ensures s.indicator == Macd && -MaxScore(Macd) <= s.score <= MaxScore(Macd)
    ensures (s.score == 80 <==> histogram > 0.0 && macd > signal) && (s.score == -80 <==> histogram < 0.0 && macd < signal)
    ensures s.score == 0 || s.score == 80 || s.score == -80
  {
    if histogram > 0.0 && macd > signal then IndicatorSignal(Macd, 80, "BULLISH")
    else if histogram < 0.0 && macd < signal then IndicatorSignal(Macd, -80, "BEARISH")
    else IndicatorSignal(Macd, 0, "NEUTRAL")
  }

  /** Oversold (+70) in the bottom fifth of the bands, overbought (-70) in the top fifth. */
  function BollingerSignal(position: real): (s: IndicatorSignal)
    ensures s.indicator == Bollinger && -MaxScore(Bollinger) <= s.score <= MaxScore(Bollinger)
    ensures (s.score == 70 <==> position < 0.2) && (s.score == -70 <==> position > 0.8) && (s.score == 0 <==> 0.2 <= position <= 0.8)
  {
    if position < 0.2 then IndicatorSignal(Bollinger, 70, "OVERSOLD")
    else if position > 0.8 then IndicatorSignal(Bollinger, -70, "OVERBOUGHT")
    else IndicatorSignal(Bollinger, 0, "NEUTRAL")
  }

  /** +90 in an uptrend, -90 otherwise (a NaN direction included). */
  function SupertrendSignal(direction: Option<int>): (s: IndicatorSignal)
    ensures s.indicator == SupertrendIndicator && -MaxScore(SupertrendIndicator) <= s.score <= MaxScore(SupertrendIndicator)
    ensures (s.score == 90 <==> direction == Some(1)) && (s.score == 90 || s.score == -90)
  {
    if direction == Some(1) then IndicatorSignal(SupertrendIndicator, 90, "BUY")
    else IndicatorSignal(SupertrendIndicator, -90, "SELL")
  }

  /** +85 on a bullish crossover, -85 on a bearish one, 0 otherwise. */
  function EmaSignal(crossover: Action): (s: IndicatorSignal)
    ensures s.indicator == EmaIndicator && -MaxScore(EmaIndicator) <= s.score <= MaxScore(EmaIndicator)
    ensures (s.score == 85 <==> crossover == Buy) && (s.score == -85 <==> crossover == Sell) && (s.score == 0 <==> crossover == Neutral)
  {
    match crossover
    case Buy => IndicatorSignal(EmaIndicator, 85, "BUY")
    case Sell => IndicatorSignal(EmaIndicator, -85, "SELL")
    case Neutral => IndicatorSignal(EmaIndicator, 0, "NEUTRAL")
  }

  /** With one signal per indicator in the composite's order the bound is 85.5 (times 100). */
  lemma FiveIndicatorsMax(signals: seq<IndicatorSignal>)
    requires |signals| == 5
    requires signals[0].indicator == Rsi && signals[1].indicator == Macd && signals[2].indicator == Bollinger
          && signals[3].indicator == SupertrendIndicator && signals[4].indicator == EmaIndicator
    ensures MaxWeightedTotal(signals) == 8550
  {
    assert MaxWeightedTotal(signals[..1]) == 2000 by { assert signals[..1][..0] == []; }
    assert MaxWeightedTotal(signals[..2]) == 4000 by { assert signals[..2][..1] == signals[..1]; }
    assert MaxWeightedTotal(signals[..3]) == 5050 by { assert signals[..3][..2] == signals[..2]; }
    assert MaxWeightedTotal(signals[..4]) == 6850 by { assert signals[..4][..3] == signals[..3]; }
  }

  /**
   * The five entries in the order rsi, macd, bollinger, supertrend, ema; the
   * weighted total stays within 85.5 either way; the action is BUY from 50
   * up, SELL from -50 down, NEUTRAL between; a BUY or SELL is as confident
   * as the total is large (the cap of 100 never binds), a NEUTRAL the more
   * confident the nearer the total is to zero, always above 50.
   */
  method GenerateCompositeSignal(r: Readings) returns (c: Composite)
    ensures |c.signals| == 5
    ensures c.signals[0].indicator == Rsi && c.signals[1].indicator == Macd && c.signals[2].indicator == Bollinger
         && c.signals[3].indicator == SupertrendIndicator && c.signals[4].indicator == EmaIndicator
    ensures (c.signals[0].score == 100 <==> r.rsi < 30.0) && (c.signals[0].score == -100 <==> r.rsi > 70.0)
         && (c.signals[0].score == 0 <==> 30.0 <= r.rsi <= 70.0)
    ensures (c.signals[1].score == 80 <==> r.histogram > 0.0 && r.macd > r.macdSignal)
         && (c.signals[1].score == -80 <==> r.histogram < 0.0 && r.macd < r.macdSignal)
         && (c.signals[1].score == 0 || c.signals[1].score == 80 || c.signals[1].score == -80)
    ensures (c.signals[2].score == 70 <==> r.bollingerPosition < 0.2) && (c.signals[2].score == -70 <==> r.bollingerPosition > 0.8)
         && (c.signals[2].score == 0 <==> 0.2 <= r.bollingerPosition <= 0.8)
    ensures (c.signals[3].score == 90 <==> r.supertrendDirection == Some(1)) && (c.signals[3].score == 90 || c.signals[3].score == -90)
    ensures (c.signals[4].score == 85 <==> r.emaSignal == Buy) && (c.signals[4].score == -85 <==> r.emaSignal == Sell)
         && (c.signals[4].score == 0 <==> r.emaSignal == Neutral)
    ensures c.totalScore == WeightedTotal(c.signals)
    ensures -8550 <= c.totalScore <= 8550
    ensures c.action == Buy <==> c.totalScore >= 5000
    ensures c.action == Sell <==> c.totalScore <= -5000
    ensures c.action != Neutral ==> c.confidence == (if c.totalScore < 0 then -c.totalScore else c.totalScore)
    ensures c.action == Neutral ==> c.confidence + (if c.totalScore < 0 then -c.totalScore else c.totalScore) == 10000
                                    && 5000 < c.confidence <= 10000
  {
    var rsi := RsiSignal(r.rsi);
    var macd := MacdSignal(r.macd, r.macdSignal, r.histogram);
    var bollinger := BollingerSignal(r.bollingerPosition);
    var supertrend := SupertrendSignal(r.supertrendDirection);
    var ema := EmaSignal(r.emaSignal);
    var signals: seq<IndicatorSignal> := [];
    signals := signals + [rsi];
    signals := signals + [macd];
    signals := signals + [bollinger];
    signals := signals + [supertrend];
    signals := signals + [ema];

    assert signals == [rsi, macd, bollinger, supertrend, ema];
    var total := WeightedTotal(signals);
    WeightedTotalBounded(signals);
    FiveIndicatorsMax(signals);
    var (action, confidence) := Verdict(total);
    c := Composite(signals, total, action, confidence);
  }

  /**
   * The action for a weighted total (times 100): BUY from 50, SELL from -50,
   * NEUTRAL between; the confidence of a BUY or SELL is the total's
   * magnitude capped at 100, of a NEUTRAL 100 minus the magnitude.
   */
  function Verdict(total: int): (v: (Action, int))
    ensures v.0 == Buy <==> total >= 5000
    ensures v.0 == Sell <==> total <= -5000
    ensures v.0 != Neutral ==> v.1 == Min(if total < 0 then -total else total, 10000)
    ensures v.0 == Neutral ==> v.1 + (if total < 0 then -total else total) == 10000 && 5000 < v.1 <= 10000
  {
    var magnitude := if total < 0 then -total else total;
    if total >= 5000 then (Buy, Min(total, 10000))
    else if total <= -5000 then (Sell, Min(magnitude, 10000))
    else (Neutral, 10000 - magnitude)
  }

  // ---------------------------------------------------------------------------
  // Greeks-based strategy evaluation (OptionsGreeksAnalyzer.evaluate_strategy)

  /** The Greeks of one leg, keyed by the leg's name (`sell_ce`, `buy_pe`, ...); `iv` is in percent. */
  datatype LegGreeks = LegGreeks(leg: string, delta: real, theta: real, iv: real)

  datatype Recommendation = Execute | Wait

  datatype Evaluation = Evaluation(score: int, maxScore: int, analysis: seq<string>, recommendation: Recommendation)

  function TotalDelta(greeks: seq<LegGreeks>): real
  {
    if greeks == [] then 0.0 else TotalDelta(greeks[..|greeks| - 1]) + greeks[|greeks| - 1].delta
  }

  function TotalTheta(greeks: seq<LegGreeks>): real
  {
    if greeks == [] then 0.0 else TotalTheta(greeks[..|greeks| - 1]) + greeks[|greeks| - 1].theta
  }

  function TotalIv(greeks: seq<LegGreeks>): real
  {
    if greeks == [] then 0.0 else TotalIv(greeks[..|greeks| - 1]) + greeks[|greeks| - 1].iv
  }

  /** `greeks.get(leg, {}).get('delta', 0)`. */
  function DeltaOf(greeks: seq<LegGreeks>, leg: string): real
  {
    if greeks == [] then 0.0
    else if greeks[0].leg == leg then greeks[0].delta
    else DeltaOf(greeks[1..], leg)
  }

  /** The iron-condor checks, worth 30, 30 and 20; the mean IV of no legs is NaN, which fails its check. */
  function IronCondorPoints(greeks: seq<LegGreeks>): (e: (int, seq<string>))
  {
    var d := if Abs(TotalDelta(greeks)) < 0.05 then (30, ["Delta neutral ✓"]) else (0, []);
    var t := if TotalTheta(greeks) > 50.0 then (30, ["Good theta decay ✓"]) else (0, []);
    var v := if |greeks| > 0 && TotalIv(greeks) / |greeks| as real > 18.0 then (20, ["High IV environment ✓"]) else (0, []);
    (d.0 + t.0 + v.0, d.1 + t.1 + v.1)
  }

  /**
   * An iron condor is recommended exactly when all three checks pass (only
   * 30 + 30 + 20 reaches 70); a short strangle scores at most 40 and is
   * never recommended; any other strategy scores 0. The maximum is always
   * reported as 100.
   */
  function EvaluateStrategy(strategyType: string, greeks: seq<LegGreeks>): (e: Evaluation)
    ensures e.maxScore == 100
    ensures e.recommendation == Execute <==> e.score >= 70
    ensures strategyType == "iron_condor" ==>
              (e.recommendation == Execute <==>
                 Abs(TotalDelta(greeks)) < 0.05 && TotalTheta(greeks) > 50.0
                 && |greeks| > 0 && TotalIv(greeks) / |greeks| as real > 18.0)
    ensures strategyType == "short_strangle" ==> 0 <= e.score <= 40 && e.recommendation == Wait
    ensures strategyType != "iron_condor" && strategyType != "short_strangle" ==> e.score == 0 && e.analysis == []
  {
    var scored :=
      if strategyType == "iron_condor" then IronCondorPoints(greeks)
      else if strategyType == "short_strangle" then
        var ceDelta := DeltaOf(greeks, "sell_ce");
        var peDelta := Abs(DeltaOf(greeks, "sell_pe"));
        if 0.25 <= ceDelta <= 0.35 && 0.25 <= peDelta <= 0.35 then (40, ["Optimal delta range ✓"]) else (0, [])
      else (0, []);
    Evaluation(scored.0, 100, scored.1, if scored.0 >= 70 then Execute else Wait)
  }

  // ---------------------------------------------------------------------------
  // Backtest position loop (backtest_strategy)

  /** The composite's action and confidence (times 100) for the window ending before bar i. */
  datatype Decision = Decision(action: Action, confidence: int)

  datatype OpenTrade = OpenTrade(entryIndex: nat, entryPrice: real, positionSize: real, confidence: int)

  datatype ClosedTrade = ClosedTrade(position: OpenTrade, exitIndex: nat, exitPrice: real, pnl: real, returnPct: real)

  /** The first bar the backtest trades on: each decision needs the 100 bars before it. */
  const Warmup: nat := 100

  predicate Opens(d: Decision)
  {
    d.action == Buy && d.confidence > 7000
  }

  /** The bars in [Warmup, hi) whose decision opens a position, in bar order. */
  function OpeningBars(decisions: seq<Decision>, hi: nat): seq<nat>
    requires hi <= |decisions|
  {
    if hi <= Warmup then []
    else OpeningBars(decisions, hi - 1) + (if Opens(decisions[hi - 1]) then [hi - 1] else [])
  }

  function TotalPnl(trades: seq<ClosedTrade>): real
  {
    if trades == [] then 0.0 else TotalPnl(trades[..|trades| - 1]) + trades[|trades| - 1].pnl
  }

  lemma TotalPnlAppend(trades: seq<ClosedTrade>, t: ClosedTrade)
    ensures TotalPnl(trades + [t]) == TotalPnl(trades) + t.pnl
  {
    assert (trades + [t])[..|trades|] == trades;
  }

  /** The P&L of the trades closed before bar e: what capital had gained or lost by then. */
  function PnlBefore(trades: seq<ClosedTrade>, e: nat): real
  {
    if trades == [] then 0.0
    else
      var t := trades[|trades| - 1];
      PnlBefore(trades[..|trades| - 1], e) + (if t.exitIndex < e then t.pnl else 0.0)
  }

  /** When every trade closed before bar e, they all count towards the capital at e. */
  lemma {:induction false} PnlBeforeAll(trades: seq<ClosedTrade>, e: nat)
    requires forall k :: 0 <= k < |trades| ==> trades[k].exitIndex < e
    ensures PnlBefore(trades, e) == TotalPnl(trades)
  {
    if trades != [] {
      PnlBeforeAll(trades[..|trades| - 1], e);
    }
  }

  /** Trades closed at bar e or later do not change the capital at e. */
  lemma {:induction false} PnlBeforeExtend(trades: seq<ClosedTrade>, extra: seq<ClosedTrade>, e: nat)
    requires forall k :: 0 <= k < |extra| ==> extra[k].exitIndex >= e
    ensures PnlBefore(trades + extra, e) == PnlBefore(trades, e)
  {
    if extra == [] {
      assert trades + extra == trades;
    } else {
      var shorter := extra[..|extra| - 1];
      PnlBeforeExtend(trades, shorter, e);
      assert (trades + extra)[..|trades + extra| - 1] == trades + shorter;
    }
  }

  /** The entry bars of the closed trades, in order. */
  function TradeEntries(trades: seq<ClosedTrade>): seq<nat>
  {
    seq(|trades|, k requires 0 <= k < |trades| => trades[k].position.entryIndex)
  }

  /** The entry bars of the open positions, in order. */
  function PositionEntries(positions: seq<OpenTrade>): seq<nat>
  {
    seq(|positions|, k requires 0 <= k < |positions| => positions[k].entryIndex)
  }

  /** The position a BUY at bar e opens with `capital` in hand: at that bar's close, sized at 2% of capital and at most 100000. */
  function OpenAt(closes: seq<real>, decisions: seq<Decision>, e: nat, capital: real): OpenTrade
    requires e < |closes| == |decisions|
  {
    OpenTrade(e, closes[e], if capital * 0.02 <= 100000.0 then capital * 0.02 else 100000.0, decisions[e].confidence)
  }

  /** Closing `p` at bar i: the P&L is the position size times the relative move. */
  function Close(p: OpenTrade, i: nat, exitPrice: real): ClosedTrade
    requires p.entryPrice != 0.0
  {
    var pnl := (exitPrice - p.entryPrice) / p.entryPrice;
    ClosedTrade(p, i, exitPrice, p.positionSize * pnl, pnl * 100.0)
  }

  /** No SELL decision strictly between bars lo and hi. */
  predicate NoSellBetween(decisions: seq<Decision>, lo: nat, hi: nat)
    requires hi <= |decisions|
  {
    forall j :: lo < j < hi ==> decisions[j].action != Sell
  }

  /**
   * `p` was opened by a BUY of confidence above 70 at its entry bar, with the
   * capital left after every trade closed before that bar.
   */
  predicate OpenedAsRecorded(closes: seq<real>, decisions: seq<Decision>, initialCapital: real,
                             trades: seq<ClosedTrade>, p: OpenTrade)
    requires |closes| == |decisions|
  {
    && Warmup <= p.entryIndex < |closes|
    && Opens(decisions[p.entryIndex])
    && p == OpenAt(closes, decisions, p.entryIndex, initialCapital + PnlBefore(trades, p.entryIndex))
  }

  /** Trade k was opened as recorded and closed at the first SELL bar after its entry, before bar i, at that bar's close. */
  predicate ClosedAtFirstSell(closes: seq<real>, decisions: seq<Decision>, initialCapital: real,
                              trades: seq<ClosedTrade>, k: nat, i: nat)
    requires |closes| == |decisions| && k < |trades| && i <= |closes|
  {
    var t := trades[k];
    && OpenedAsRecorded(closes, decisions, initialCapital, trades, t.position)
    && t.position.entryIndex < t.exitIndex < i
    && decisions[t.exitIndex].action == Sell
    && NoSellBetween(decisions, t.position.entryIndex, t.exitIndex)
    && t.position.entryPrice != 0.0
    && t == Close(t.position, t.exitIndex, closes[t.exitIndex])
  }

  /** `p` was opened as recorded before bar i and no SELL has come since. */
  predicate StillOpen(closes: seq<real>, decisions: seq<Decision>, initialCapital: real,
                      trades: seq<ClosedTrade>, p: OpenTrade, i: nat)
    requires |closes| == |decisions| && i <= |closes|
  {
    && OpenedAsRecorded(closes, decisions, initialCapital, trades, p)
    && p.entryIndex < i
    && NoSellBetween(decisions, p.entryIndex, i)
  }

  /**
   * The exit loop on a SELL bar: each open position, in order, becomes one
   * closed trade at this bar's close, and its P&L is added to capital.
   */
  method ClosePositions(trades: seq<ClosedTrade>, positions: seq<OpenTrade>, i: nat, exitPrice: real, capital: real)
    returns (trades': seq<ClosedTrade>, capital': real)
    requires forall k :: 0 <= k < |positions| ==> positions[k].entryPrice != 0.0
    ensures |trades'| == |trades| + |positions| && trades'[..|trades|] == trades
    ensures forall k :: 0 <= k < |positions| ==> trades'[|trades| + k] == Close(positions[k], i, exitPrice)
    ensures capital' - TotalPnl(trades') == capital - TotalPnl(trades)
  {
    trades', capital' := trades, capital;
    var j := 0;
    while j < |positions|
      invariant 0 <= j <= |positions|
      invariant |trades'| == |trades| + j && trades'[..|trades|] == trades
      invariant forall k :: 0 <= k < j ==> trades'[|trades| + k] == Close(positions[k], i, exitPrice)
      invariant capital' - TotalPnl(trades') == capital - TotalPnl(trades)
    {
      var closed := Close(positions[j], i, exitPrice);
      TotalPnlAppend(trades', closed);
      capital' := capital' + closed.pnl;
      trades' := trades' + [closed];
      j := j + 1;
    }
  }

  /** A BUY at bar i opens one more position and keeps every recorded fact, now up to bar i + 1. */
  lemma {:induction false} OpenStep(closes: seq<real>, decisions: seq<Decision>, initialCapital: real, i: nat, next: nat,
                 trades: seq<ClosedTrade>, positions: seq<OpenTrade>, capital: real)
    requires |closes| == |decisions| && Warmup <= i < |closes| && next == i + 1 && Opens(decisions[i])
    requires TradeEntries(trades) + PositionEntries(positions) == OpeningBars(decisions, i)
    requires capital == initialCapital + TotalPnl(trades)
    requires forall k :: 0 <= k < |trades| ==> ClosedAtFirstSell(closes, decisions, initialCapital, trades, k, i)
    requires forall k :: 0 <= k < |positions| ==> StillOpen(closes, decisions, initialCapital, trades, positions[k], i)
    ensures var positions' := positions + [OpenAt(closes, decisions, i, capital)];
            && (forall k :: 0 <= k < |trades| ==> ClosedAtFirstSell(closes, decisions, initialCapital, trades, k, next))
            && (forall k :: 0 <= k < |positions'| ==> StillOpen(closes, decisions, initialCapital, trades, positions'[k], next))
            && TradeEntries(trades) + PositionEntries(positions') == OpeningBars(decisions, next)
  {
    var positions' := positions + [OpenAt(closes, decisions, i, capital)];
    forall k | 0 <= k < |trades|
      ensures trades[k].exitIndex < i
      ensures ClosedAtFirstSell(closes, decisions, initialCapital, trades, k, next)
    {
      assert ClosedAtFirstSell(closes, decisions, initialCapital, trades, k, i);
    }
    PnlBeforeAll(trades, i);
    forall k | 0 <= k < |positions'|
      ensures StillOpen(closes, decisions, initialCapital, trades, positions'[k], next)
    {
      if k < |positions| {
        assert positions'[k] == positions[k];
        assert StillOpen(closes, decisions, initialCapital, trades, positions[k], i);
      }
    }
    assert PositionEntries(positions') == PositionEntries(positions) + [i];
    assert OpeningBars(decisions, next) == OpeningBars(decisions, i) + [i];
  }

  /** A SELL at bar i with open positions turns each of them into a trade closed at bar i, which is the first SELL since its entry. */
  lemma {:induction false} CloseStep(closes: seq<real>, decisions: seq<Decision>, initialCapital: real, i: nat, next: nat,
                  trades: seq<ClosedTrade>, positions: seq<OpenTrade>, trades': seq<ClosedTrade>)
    requires |closes| == |decisions| && Warmup <= i < |closes| && next == i + 1 && decisions[i].action == Sell
    requires TradeEntries(trades) + PositionEntries(positions) == OpeningBars(decisions, i)
    requires forall k :: 0 <= k < |trades| ==> ClosedAtFirstSell(closes, decisions, initialCapital, trades, k, i)
    requires forall k :: 0 <= k < |positions| ==> StillOpen(closes, decisions, initialCapital, trades, positions[k], i)
    requires forall k :: 0 <= k < |positions| ==> positions[k].entryPrice != 0.0
    requires |trades'| == |trades| + |positions| && trades'[..|trades|] == trades
    requires forall k :: 0 <= k < |positions| ==> trades'[|trades| + k] == Close(positions[k], i, closes[i])
    ensures forall k :: 0 <= k < |trades'| ==> ClosedAtFirstSell(closes, decisions, initialCapital, trades', k, next)
    ensures TradeEntries(trades') + PositionEntries([]) == OpeningBars(decisions, next)
  {
    var extra := trades'[|trades|..];
    assert trades' == trades + extra;
    forall e: nat | e <= i
      ensures PnlBefore(trades', e) == PnlBefore(trades, e)
    {
      forall m | 0 <= m < |extra|
        ensures extra[m].exitIndex >= e
      {
        assert extra[m] == trades'[|trades| + m] == Close(positions[m], i, closes[i]);
      }
      PnlBeforeExtend(trades, extra, e);
    }
    forall k | 0 <= k < |trades'|
      ensures ClosedAtFirstSell(closes, decisions, initialCapital, trades', k, next)
    {
      if k < |trades| {
        assert trades'[k] == trades[k];
        assert ClosedAtFirstSell(closes, decisions, initialCapital, trades, k, i);
      } else {
        var p := positions[k - |trades|];
        assert trades'[k] == Close(p, i, closes[i]);
        assert StillOpen(closes, decisions, initialCapital, trades, p, i);
      }
    }
    forall k | 0 <= k < |trades'|
      ensures TradeEntries(trades')[k] == (TradeEntries(trades) + PositionEntries(positions))[k]
    {
      if k < |trades| {
        assert trades'[k] == trades[k];
      } else {
        assert trades'[k] == Close(positions[k - |trades|], i, closes[i]);
      }
    }
    assert TradeEntries(trades') == TradeEntries(trades) + PositionEntries(positions);
    assert PositionEntries([]) == [];
    assert OpeningBars(decisions, next) == OpeningBars(decisions, i);
  }

  /** A bar that neither opens a position nor closes any keeps every recorded fact, now up to bar i + 1. */
  lemma {:induction false} QuietStep(closes: seq<real>, decisions: seq<Decision>, initialCapital: real, i: nat, next: nat,
                  trades: seq<ClosedTrade>, positions: seq<OpenTrade>)
    requires |closes| == |decisions| && Warmup <= i < |closes| && next == i + 1
    requires !Opens(decisions[i]) && (decisions[i].action == Sell ==> positions == [])
    requires forall k :: 0 <= k < |trades| ==> ClosedAtFirstSell(closes, decisions, initialCapital, trades, k, i)
    requires forall k :: 0 <= k < |positions| ==> StillOpen(closes, decisions, initialCapital, trades, positions[k], i)
    ensures OpeningBars(decisions, next) == OpeningBars(decisions, i)
    ensures forall k :: 0 <= k < |trades| ==> ClosedAtFirstSell(closes, decisions, initialCapital, trades, k, next)
    ensures forall k :: 0 <= k < |positions| ==> StillOpen(closes, decisions, initialCapital, trades, positions[k], next)
  {
    forall k | 0 <= k < |trades|
      ensures ClosedAtFirstSell(closes, decisions, initialCapital, trades, k, next)
    {
      assert ClosedAtFirstSell(closes, decisions, initialCapital, trades, k, i);
    }
    forall k | 0 <= k < |positions|
      ensures StillOpen(closes, decisions, initialCapital, trades, positions[k], next)
    {
      assert StillOpen(closes, decisions, initialCapital, trades, positions[k], i);
    }
  }

  /**
   * backtest_strategy's position loop over bars 100 .. n-1, given each bar's
   * composite decision. Every bar that opens a position appears exactly once,
   * in order, as the entry of a closed trade or of a position still open;
   * each was opened at its bar's close with 2% of the capital of that moment
   * (at most 100000); a trade was closed at the first SELL bar after its
   * entry, at that bar's close; a position still open has seen no SELL since
   * its entry; and capital is the initial capital plus the trades' P&L.
   */
  method BacktestPositions(closes: seq<real>, decisions: seq<Decision>, initialCapital: real)
    returns (trades: seq<ClosedTrade>, positions: seq<OpenTrade>, capital: real)
    requires |decisions| == |closes|
    requires forall i :: 0 <= i < |closes| ==> closes[i] != 0.0
    ensures TradeEntries(trades) + PositionEntries(positions) == OpeningBars(decisions, |closes|)
    ensures capital == initialCapital + TotalPnl(trades)
    ensures forall k :: 0 <= k < |trades| ==> ClosedAtFirstSell(closes, decisions, initialCapital, trades, k, |closes|)
    ensures forall k :: 0 <= k < |positions| ==> StillOpen(closes, decisions, initialCapital, trades, positions[k], |closes|)
  {
    trades, positions, capital := [], [], initialCapital;
    if |closes| < Warmup {
      return;
    }
    var i := Warmup;
    while i < |closes|
      invariant Warmup <= i <= |closes|
      invariant TradeEntries(trades) + PositionEntries(positions) == OpeningBars(decisions, i)
      invariant capital == initialCapital + TotalPnl(trades)
      invariant forall k :: 0 <= k < |trades| ==> ClosedAtFirstSell(closes, decisions, initialCapital, trades, k, i)
      invariant forall k :: 0 <= k < |positions| ==> StillOpen(closes, decisions, initialCapital, trades, positions[k], i)
    {
      var signal := decisions[i];
      var next := i + 1;
      if signal.action == Buy && signal.confidence > 7000 {
        OpenStep(closes, decisions, initialCapital, i, next, trades, positions, capital);
        var size := if capital * 0.02 <= 100000.0 then capital * 0.02 else 100000.0;
        positions := positions + [OpenTrade(i, closes[i], size, signal.confidence)];
      } else if signal.action == Sell && positions != [] {
        var trades', capital' := ClosePositions(trades, positions, i, closes[i], capital);
        CloseStep(closes, decisions, initialCapital, i, next, trades, positions, trades');
        trades, capital, positions := trades', capital', [];
      } else {
        QuietStep(closes, decisions, initialCapital, i, next, trades, positions);
      }
      i := next;
    }
  }
}
