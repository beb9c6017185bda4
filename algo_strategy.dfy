/**
 * The moving-average crossover strategy: compare the mean of the last
 * `shortWindow` closes with the mean of the last `longWindow` closes and
 * buy or sell one unit. The candles are supplied as their closes; the
 * order itself goes to the broker and is represented by its side and
 * quantity.
 */
module AlgoStrategy {
  import opened PyNum
  import OrderExecutor

  /** The slice `s[-k:]` for any integer k: the last k elements when k > 0, everything when k == 0, and `s[-k..]` when k < 0. */
  function SuffixSlice<T>(s: seq<T>, k: int): (r: seq<T>)
    ensures k > 0 ==> r == (if k <= |s| then s[|s| - k..] else s)
    ensures k == 0 ==> r == s
    ensures |r| <= |s| && r == s[|s| - |r|..]
  {
    if k > 0 then (if k <= |s| then s[|s| - k..] else s)
    else if k == 0 then s
    else if -k <= |s| then s[-k..]
    else []
  }

  /** `sum(prices[-window:]) / window`; a zero window divides by zero. */
  function MovingAverage(closes: seq<real>, window: int): real
    requires window != 0
  {
    Sum(SuffixSlice(closes, window)) / window as real
  }

  datatype Outcome =
    | NotEnoughData
    | StrategyError
    | PlaceOrder(side: OrderExecutor.Side, quantity: nat, shortMa: real, longMa: real)

  /**
   * Fewer closes than the long window: nothing is placed. A zero window
   * raises inside the `try`, which also returns None. Otherwise exactly one
   * order of one unit: BUY when the short average is strictly above the
   * long one, SELL otherwise (equal averages included).
   */
  function MovingAverageCrossover(closes: seq<real>, shortWindow: int, longWindow: int): (o: Outcome)
    ensures o == NotEnoughData <==> |closes| < longWindow
    ensures o == StrategyError <==> |closes| >= longWindow && (shortWindow == 0 || longWindow == 0)
    ensures o.PlaceOrder? ==> shortWindow != 0 && longWindow != 0
                              && o.quantity == 1
                              && o.shortMa == MovingAverage(closes, shortWindow)
                              && o.longMa == MovingAverage(closes, longWindow)
                              && (o.side == OrderExecutor.Buy <==> o.shortMa > o.longMa)
  {
    if |closes| < longWindow then NotEnoughData
    else if shortWindow == 0 || longWindow == 0 then StrategyError
    else
      var shortMa := MovingAverage(closes, shortWindow);
      var longMa := MovingAverage(closes, longWindow);
      PlaceOrder(if shortMa > longMa then OrderExecutor.Buy else OrderExecutor.Sell, 1, shortMa, longMa)
  }

  /** With equal windows the two averages coincide, so the strategy always sells. */
  lemma EqualWindowsSell(closes: seq<real>, window: int)
    requires window != 0 && |closes| >= window
    ensures MovingAverageCrossover(closes, window, window).PlaceOrder?
    ensures MovingAverageCrossover(closes, window, window).side == OrderExecutor.Sell
  {
  }

  /** A flat price history gives two equal averages, so the strategy sells. */
  lemma FlatClosesSell(closes: seq<real>, c: real, shortWindow: int, longWindow: int)
    requires forall i :: 0 <= i < |closes| ==> closes[i] == c
    requires 1 <= shortWindow <= |closes| && 1 <= longWindow <= |closes|
    ensures MovingAverageCrossover(closes, shortWindow, longWindow).PlaceOrder?
    ensures MovingAverageCrossover(closes, shortWindow, longWindow).side == OrderExecutor.Sell
  {
    FlatAverage(closes, c, shortWindow);
    FlatAverage(closes, c, longWindow);
  }

  lemma FlatAverage(closes: seq<real>, c: real, window: int)
    requires forall i :: 0 <= i < |closes| ==> closes[i] == c
    requires 1 <= window <= |closes|
    ensures MovingAverage(closes, window) == c
  {
    var slice := SuffixSlice(closes, window);
    assert |slice| == window;
    SumConstant(slice, c);
    assert Sum(slice) == window as real * c;
  }
}
