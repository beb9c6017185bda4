/**
 * The order-execution engine: the risk gate computed from the `trades` and
 * `positions` tables, Kelly-style position sizing, order placement behind the
 * risk gate, the end-of-day auto square-off and the watchdog's time window.
 *
 * The two database tables are sequences of rows held by an `Executor`. They
 * stay separate, as in the source: orders are written to `trades`, while the
 * open-position count and the square-off read and update `positions`.
 */
module OrderExecutor {
  import opened Wrappers
  import opened PyNum
  import Clock

  // ---------------------------------------------------------------------------
  // Risk-management constants (RiskManagementRules)

  const MaxDailyLossInr: int := 20000
  const MaxTradesPerDay: int := 3
  const MaxOpenPositions: int := 4
  /** One lot per strategy. */
  const MaxPositionSize: int := 1
  /** Two percent of capital at risk per trade. */
  const MaxRiskPerTrade: real := 0.02
  /** Conservative (quarter) Kelly. */
  const KellyMultiplier: real := 0.25

  const MarketOpen: nat := Clock.Micros(9, 15, 0)
  const MarketClose: nat := Clock.Micros(15, 30, 0)
  /** One minute before the close. */
  const AutoSquareOffTime: nat := Clock.Micros(15, 29, 0)

  /** The account identifier `place_order` checks the risk limits against. */
  const RiskAccount: string := "ACCOUNT_ID"

  // ---------------------------------------------------------------------------
  // Rows of the two tables

  datatype Side = Buy | Sell
  datatype OrderType = Market | Limit | StopLoss | StopLossMarket
  datatype PositionStatus = Open | Closed | PartiallyClosed

  /** The broker's order id (possibly missing from its reply), or a paper-trading id stamped with the time. */
  datatype OrderId = BrokerOrder(id: Option<string>) | PaperOrder(placedAt: Clock.Timestamp)

  /**
   * A row of `trades`. `account` is `None` when the inserting statement gave
   * the column no value (SQL NULL).
   */
  datatype Trade = Trade(
    account: Option<string>,
    orderId: OrderId,
    symbol: string,
    quantity: int,
    entryPrice: real,
    entryTime: Clock.Timestamp,
    stopLoss: real,
    target: real,
    status: PositionStatus,
    pnl: real,
    exitTime: Option<Clock.Timestamp>)

  /** A row of `positions`. */
  datatype Position = Position(
    id: int,
    account: string,
    symbol: string,
    quantity: int,
    status: PositionStatus,
    exitTime: Option<Clock.Timestamp>)

  // ---------------------------------------------------------------------------
  // The three aggregates behind the risk check (the SQL queries)

  /** A trade of `account` entered on `today`. */
  predicate EnteredToday(t: Trade, account: string, today: int)
  {
    t.account == Some(account) && t.entryTime.day == today
  }

  /** `SUM(pnl)` over today's trades of the account that have an exit time (0 when there are none). */
  function DailyPnl(trades: seq<Trade>, account: string, today: int): real
  {
    if trades == [] then 0.0
    else
      var t := trades[|trades| - 1];
      DailyPnl(trades[..|trades| - 1], account, today)
        + (if EnteredToday(t, account, today) && t.exitTime.Some? then t.pnl else 0.0)
  }

  /** `COUNT(*)` of today's trades of the account, closed or not. */
  function TradeCount(trades: seq<Trade>, account: string, today: int): nat
  {
    if trades == [] then 0
    else
      TradeCount(trades[..|trades| - 1], account, today)
        + (if EnteredToday(trades[|trades| - 1], account, today) then 1 else 0)
  }

  predicate IsOpenOf(p: Position, account: string)
  {
    p.account == account && p.status == Open
  }

  /** `COUNT(*)` of the account's rows of `positions` whose status is OPEN. */
  function OpenPositionCount(positions: seq<Position>, account: string): nat
  {
    if positions == [] then 0
    else
      OpenPositionCount(positions[..|positions| - 1], account)
        + (if IsOpenOf(positions[|positions| - 1], account) then 1 else 0)
  }

  lemma AggregatesAppend(trades: seq<Trade>, t: Trade, account: string, today: int)
    ensures DailyPnl(trades + [t], account, today)
         == DailyPnl(trades, account, today) + (if EnteredToday(t, account, today) && t.exitTime.Some? then t.pnl else 0.0)
    ensures TradeCount(trades + [t], account, today)
         == TradeCount(trades, account, today) + (if EnteredToday(t, account, today) then 1 else 0)
  {
    assert (trades + [t])[..|trades|] == trades;
  }

  // ---------------------------------------------------------------------------
  // The risk verdict (check_risk_limits)

  datatype RiskCheck = RiskCheck(
    allowed: bool,
    dailyPnl: real,
    dailyLossRemaining: real,
    tradesRemaining: int,
    positionSlotsRemaining: int,
    circuitBreakerHit: bool)

  /**
   * The verdict on today's aggregates. Trading is allowed exactly when each of
   * the three budgets still has room, and the circuit breaker is the loss
   * budget being used up.
   */
  function CheckRisk(dailyPnl: real, tradeCount: nat, openPositions: nat): (r: RiskCheck)
    ensures r.dailyPnl == dailyPnl
    ensures r.dailyLossRemaining == MaxDailyLossInr as real + dailyPnl
    ensures r.tradesRemaining == MaxTradesPerDay - tradeCount
    ensures r.positionSlotsRemaining == MaxOpenPositions - openPositions
    ensures r.allowed <==> r.dailyLossRemaining > 0.0 && r.tradesRemaining > 0 && r.positionSlotsRemaining > 0
    ensures r.circuitBreakerHit <==> r.dailyLossRemaining <= 0.0
    ensures r.allowed ==> !r.circuitBreakerHit && r.tradesRemaining >= 1 && r.positionSlotsRemaining >= 1
  {
    RiskCheck(
      allowed := dailyPnl > -(MaxDailyLossInr as real)
              && tradeCount < MaxTradesPerDay
              && openPositions < MaxOpenPositions,
      dailyPnl := dailyPnl,
      dailyLossRemaining := MaxDailyLossInr as real + dailyPnl,
      tradesRemaining := MaxTradesPerDay - tradeCount,
      positionSlotsRemaining := MaxOpenPositions - openPositions,
      circuitBreakerHit := dailyPnl <= -(MaxDailyLossInr as real))
  }

  /** check_risk_limits over the two tables: the verdict on the three aggregates. */
  function RiskLimits(trades: seq<Trade>, positions: seq<Position>, account: string, today: int): RiskCheck
  {
    CheckRisk(DailyPnl(trades, account, today), TradeCount(trades, account, today), OpenPositionCount(positions, account))
  }

  // ---------------------------------------------------------------------------
  // Position sizing (calculate_position_size)

  /**
   * Lots for a trade: two percent of the balance divided by the points at
   * risk, truncated, scaled by the Kelly multiplier, truncated again, and
   * capped at one lot. `historyAvailable` is false when the win-rate query
   * fails; that failure, like the division by zero when the entry equals the
   * stop, falls back to one lot. The win rate the query feeds is computed
   * but never used, so it does not appear here.
   */
  function PositionSize(entryPrice: real, stopLossPrice: real, accountBalance: real, historyAvailable: bool): (size: int)
    ensures size <= MaxPositionSize
    ensures size == MaxPositionSize
        <==> !historyAvailable || entryPrice == stopLossPrice
             || MaxRiskPerTrade * accountBalance >= Abs(entryPrice - stopLossPrice) / KellyMultiplier
    ensures accountBalance >= 0.0 ==> size >= 0
  {
    if !historyAvailable || entryPrice == stopLossPrice then 1
    else
      var riskAmount := accountBalance * MaxRiskPerTrade;
      var pointsAtRisk := Abs(entryPrice - stopLossPrice);
      var positionSize := Trunc(riskAmount / pointsAtRisk);
      SizingStep(riskAmount, pointsAtRisk);
      var kellyAdjusted := Trunc(positionSize as real * KellyMultiplier);
      Min(kellyAdjusted, MaxPositionSize)
  }

  /** The two truncations reach one lot exactly when the risk covers four times the points at risk. */
  lemma SizingStep(riskAmount: real, pointsAtRisk: real)
    requires pointsAtRisk > 0.0
    ensures Trunc(Trunc(riskAmount / pointsAtRisk) as real * KellyMultiplier) >= 1
        <==> riskAmount >= 4.0 * pointsAtRisk
    ensures riskAmount >= 0.0 ==> Trunc(Trunc(riskAmount / pointsAtRisk) as real * KellyMultiplier) >= 0
  {
    var q := riskAmount / pointsAtRisk;
    assert q * pointsAtRisk == riskAmount;
    assert q >= 4.0 <==> riskAmount >= 4.0 * pointsAtRisk;
    assert riskAmount >= 0.0 ==> q >= 0.0;
  }

  // ---------------------------------------------------------------------------
  // Order placement (place_order), as a function of the tables

  /**
   * What `kite.place_order` does: it raises; or it accepts the order and
   * replies with a dictionary that may lack an order id; or it accepts the
   * order and replies with the bare order id, a string, on which the
   * executor's `.get('order_id')` raises.
   */
  datatype BrokerReply = Raised | Replied(orderId: Option<string>) | RepliedBareId(id: string)

  /** Why placement failed. Every one surfaces to the caller as HTTP 500. */
  datatype OrderFailure =
    | TradingNotAllowed(circuitBreakerHit: bool)
    | BrokerFailed
    | ReplyUnreadable
    | NotificationFailed

  datatype OrderRequest = OrderRequest(
    symbol: string,
    quantity: int,
    price: real,
    orderType: OrderType,
    side: Side,
    stopLoss: real,
    target: real)

  datatype Receipt = Receipt(orderId: OrderId, symbol: string, entryPrice: real)

  datatype Placement = Placement(result: Result<Receipt, OrderFailure>, trades: seq<Trade>)

  /** The row an accepted order inserts: OPEN, zero P&L, no exit time; side and order type are not stored. */
  function OrderRow(rowAccount: Option<string>, id: OrderId, req: OrderRequest, now: Clock.Timestamp): Trade
  {
    Trade(rowAccount, id, req.symbol, req.quantity, req.price, now, req.stopLoss, req.target, Open, 0.0, None)
  }

  /**
   * Placing `req` at `now`. The risk check runs against `RiskAccount` and
   * today's date; a denial changes nothing. Live trading then asks the broker
   * (paper trading does not); a raise changes nothing. Otherwise exactly one
   * OPEN row is appended to `trades`, carrying `rowAccount` in its account
   * column, and the result is the receipt unless the notification that
   * follows the commit raises. `positions` is never written.
   */
  function Place(rowAccount: Option<string>, trades: seq<Trade>, positions: seq<Position>, paperTrading: bool,
                 req: OrderRequest, now: Clock.Timestamp, broker: BrokerReply, notified: bool): (p: Placement)
    ensures var risk := RiskLimits(trades, positions, RiskAccount, now.day);
            !risk.allowed ==> p == Placement(Err(TradingNotAllowed(risk.circuitBreakerHit)), trades)
    ensures !paperTrading && broker.Raised? ==> p.trades == trades && p.result.Err?
    ensures !paperTrading && broker.RepliedBareId? ==> p.trades == trades && p.result.Err?
    ensures p.trades == trades || (|p.trades| == |trades| + 1 && p.trades[..|trades|] == trades)
    ensures p.trades != trades ==>
              RiskLimits(trades, positions, RiskAccount, now.day).allowed
              && (paperTrading || broker.Replied?)
              && var row := p.trades[|trades|];
                 row.status == Open && row.pnl == 0.0 && row.exitTime == None && row.account == rowAccount
                 && row.symbol == req.symbol && row.quantity == req.quantity && row.entryTime == now
                 && row.entryPrice == req.price && row.stopLoss == req.stopLoss && row.target == req.target
                 && row.orderId == (if paperTrading then PaperOrder(now) else BrokerOrder(broker.orderId))
    ensures (RiskLimits(trades, positions, RiskAccount, now.day).allowed && (paperTrading || broker.Replied?))
              ==> p.trades != trades && (p.result.Ok? <==> notified)
    ensures p.result.Ok? ==> p.result.value == Receipt(p.trades[|p.trades| - 1].orderId, req.symbol, req.price)
  {
    var risk := RiskLimits(trades, positions, RiskAccount, now.day);
    if !risk.allowed then Placement(Err(TradingNotAllowed(risk.circuitBreakerHit)), trades)
    else if !paperTrading && broker.Raised? then Placement(Err(BrokerFailed), trades)
    else if !paperTrading && broker.RepliedBareId? then Placement(Err(ReplyUnreadable), trades)
    else
      var id := if paperTrading then PaperOrder(now) else BrokerOrder(broker.orderId);
      var trades' := trades + [OrderRow(rowAccount, id, req, now)];
      if notified then Placement(Ok(Receipt(id, req.symbol, req.price)), trades')
      else Placement(Err(NotificationFailed), trades')
  }

  /** An order placed later the same day: its request, the broker's reply and whether the notification went out. */
  datatype Step = Step(req: OrderRequest, micros: nat, broker: BrokerReply, notified: bool)

  /** The `trades` table after a day's sequence of `place_order` calls. */
  function Session(rowAccount: Option<string>, trades: seq<Trade>, positions: seq<Position>, paperTrading: bool,
                   day: int, steps: seq<Step>): seq<Trade>
    decreases |steps|
  {
    if steps == [] then trades
    else
      var s := steps[0];
      var p := Place(rowAccount, trades, positions, paperTrading, s.req, Clock.Timestamp(day, s.micros), s.broker, s.notified);
      Session(rowAccount, p.trades, positions, paperTrading, day, steps[1..])
  }

  /** Whether placing at `now` sends a live order to the broker: the risk check passes and trading is not simulated. */
  predicate SentToBroker(trades: seq<Trade>, positions: seq<Position>, paperTrading: bool, now: Clock.Timestamp)
  {
    RiskLimits(trades, positions, RiskAccount, now.day).allowed && !paperTrading
  }

  /**
   * A broker that accepts the order and answers with the bare order id makes
   * the id lookup raise: the order is live at the broker, yet no row is
   * written and the caller sees a failure.
   */
  lemma BareIdReplyLeavesLiveOrderUnrecorded(rowAccount: Option<string>, trades: seq<Trade>, positions: seq<Position>,
                                             paperTrading: bool, req: OrderRequest, now: Clock.Timestamp, id: string, notified: bool)
    requires SentToBroker(trades, positions, paperTrading, now)
    ensures var p := Place(rowAccount, trades, positions, paperTrading, req, now, RepliedBareId(id), notified);
            p.trades == trades && p.result == Err(ReplyUnreadable)
  {
  }

  /**
   * As written, the inserted row leaves the account column empty, so the
   * order is invisible to the risk check's trade count and daily P&L.
   */
  lemma UnattributedRowIsNotCounted(trades: seq<Trade>, positions: seq<Position>, paperTrading: bool,
                                    req: OrderRequest, now: Clock.Timestamp, broker: BrokerReply, notified: bool)
    ensures var p := Place(None, trades, positions, paperTrading, req, now, broker, notified);
            RiskLimits(p.trades, positions, RiskAccount, now.day) == RiskLimits(trades, positions, RiskAccount, now.day)
  {
    var p := Place(None, trades, positions, paperTrading, req, now, broker, notified);
    if p.trades != trades {
      AggregatesAppend(trades, p.trades[|trades|], RiskAccount, now.day);
      assert p.trades == trades + [p.trades[|trades|]];
    }
  }

  /** Four paper orders on an empty day all insert a row: the three-trades limit never binds as written. */
  lemma {:induction false} UnattributedSessionExceedsDailyLimit(req: OrderRequest)
    ensures |Session(None, [], [], true, 0, [Step(req, 0, Raised, true), Step(req, 1, Raised, true),
                                          Step(req, 2, Raised, true), Step(req, 3, Raised, true)])| == 4
  {
    var steps := [Step(req, 0, Raised, true), Step(req, 1, Raised, true), Step(req, 2, Raised, true), Step(req, 3, Raised, true)];
    var t0: seq<Trade> := [];
    assert RiskLimits(t0, [], RiskAccount, 0).allowed;
    var t1 := Place(None, t0, [], true, req, Clock.Timestamp(0, 0), Raised, true).trades;
    UnattributedRowIsNotCounted(t0, [], true, req, Clock.Timestamp(0, 0), Raised, true);
    var t2 := Place(None, t1, [], true, req, Clock.Timestamp(0, 1), Raised, true).trades;
    UnattributedRowIsNotCounted(t1, [], true, req, Clock.Timestamp(0, 1), Raised, true);
    var t3 := Place(None, t2, [], true, req, Clock.Timestamp(0, 2), Raised, true).trades;
    UnattributedRowIsNotCounted(t2, [], true, req, Clock.Timestamp(0, 2), Raised, true);
    var t4 := Place(None, t3, [], true, req, Clock.Timestamp(0, 3), Raised, true).trades;
    assert |t4| == 4;
    assert Session(None, t0, [], true, 0, steps) == Session(None, t1, [], true, 0, steps[1..]);
    assert Session(None, t1, [], true, 0, steps[1..]) == Session(None, t2, [], true, 0, steps[2..]);
    assert Session(None, t2, [], true, 0, steps[2..]) == Session(None, t3, [], true, 0, steps[3..]);
    assert Session(None, t3, [], true, 0, steps[3..]) == Session(None, t4, [], true, 0, []);
  }

  /** With the row attributed to the checked account, every accepted order uses up one of the day's trades. */
  lemma AttributedRowIsCounted(trades: seq<Trade>, positions: seq<Position>, paperTrading: bool,
                               req: OrderRequest, now: Clock.Timestamp, broker: BrokerReply, notified: bool)
    ensures var p := Place(Some(RiskAccount), trades, positions, paperTrading, req, now, broker, notified);
            TradeCount(p.trades, RiskAccount, now.day)
              == TradeCount(trades, RiskAccount, now.day) + (if p.trades == trades then 0 else 1)
            && DailyPnl(p.trades, RiskAccount, now.day) == DailyPnl(trades, RiskAccount, now.day)
  {
    var p := Place(Some(RiskAccount), trades, positions, paperTrading, req, now, broker, notified);
    if p.trades != trades {
      AggregatesAppend(trades, p.trades[|trades|], RiskAccount, now.day);
      assert p.trades == trades + [p.trades[|trades|]];
    }
  }

  /**
   * With attributed rows, a day's orders insert at most as many rows as the
   * trade budget has left, whatever the broker and notifications do.
   */
  lemma {:induction false} AttributedSessionRespectsDailyLimit(trades: seq<Trade>, positions: seq<Position>,
                                                               paperTrading: bool, day: int, steps: seq<Step>)
    ensures var after := Session(Some(RiskAccount), trades, positions, paperTrading, day, steps);
            |after| >= |trades|
            && |after| - |trades| <= if TradeCount(trades, RiskAccount, day) >= MaxTradesPerDay then 0
                                     else MaxTradesPerDay - TradeCount(trades, RiskAccount, day)
    decreases |steps|
  {
    if steps != [] {
      var s := steps[0];
      var now := Clock.Timestamp(day, s.micros);
      var p := Place(Some(RiskAccount), trades, positions, paperTrading, s.req, now, s.broker, s.notified);
      AttributedRowIsCounted(trades, positions, paperTrading, s.req, now, s.broker, s.notified);
      AttributedSessionRespectsDailyLimit(p.trades, positions, paperTrading, day, steps[1..]);
    }
  }

  // ---------------------------------------------------------------------------
  // Auto square-off (auto_square_off_positions), as a function of the table

  /** An exit order sent to the broker: the opposite side, for the absolute quantity, at market. */
  datatype ExitOrder = ExitOrder(symbol: string, side: Side, quantity: nat)

  function ExitOrderFor(p: Position): (o: ExitOrder)
    ensures o.symbol == p.symbol
    ensures o.side == Sell <==> p.quantity > 0
    ensures o.quantity as int == p.quantity || o.quantity as int == -p.quantity
  {
    ExitOrder(p.symbol, if p.quantity > 0 then Sell else Buy, if p.quantity < 0 then -p.quantity else p.quantity)
  }

  /** Whether the square-off closes this row: it is an OPEN row of the account and (when trading live) its exit order does not raise. */
  predicate ClosesRow(p: Position, account: string, paperTrading: bool, rejected: set<int>)
  {
    IsOpenOf(p, account) && !(!paperTrading && p.id in rejected)
  }

  function SquareOffRow(p: Position, account: string, paperTrading: bool, rejected: set<int>, now: Clock.Timestamp): Position
  {
    if ClosesRow(p, account, paperTrading, rejected) then p.(status := Closed, exitTime := Some(now)) else p
  }

  /**
   * `positions` after the square-off: the closed rows become CLOSED with the
   * exit time, every other row is untouched. The rows are closed one at a
   * time, where the source updates by id; the two agree because ids are the
   * table's key (`Executor.Valid`), which is also what lets `rejected` name
   * the rows whose exit order raised.
   */
  function SquareOffRows(rows: seq<Position>, account: string, paperTrading: bool, rejected: set<int>, now: Clock.Timestamp)
    : (after: seq<Position>)
    ensures |after| == |rows|
    ensures forall i :: 0 <= i < |rows| ==> after[i].id == rows[i].id && after[i].account == rows[i].account
                                            && after[i].symbol == rows[i].symbol
    ensures forall i :: 0 <= i < |rows| && !ClosesRow(rows[i], account, paperTrading, rejected) ==> after[i] == rows[i]
    ensures forall i :: 0 <= i < |rows| && ClosesRow(rows[i], account, paperTrading, rejected)
                        ==> after[i] == rows[i].(status := Closed, exitTime := Some(now))
  {
    seq(|rows|, i requires 0 <= i < |rows| => SquareOffRow(rows[i], account, paperTrading, rejected, now))
  }

  lemma SquareOffRowsSnoc(rows: seq<Position>, i: nat, account: string, paperTrading: bool, rejected: set<int>, now: Clock.Timestamp)
    requires i < |rows|
    ensures SquareOffRows(rows[..i + 1], account, paperTrading, rejected, now)
         == SquareOffRows(rows[..i], account, paperTrading, rejected, now) + [SquareOffRow(rows[i], account, paperTrading, rejected, now)]
  {
  }

  /** The symbols squared off, in table order. */
  function SquaredOffSymbols(rows: seq<Position>, account: string, paperTrading: bool, rejected: set<int>): seq<string>
  {
    if rows == [] then []
    else
      var p := rows[|rows| - 1];
      SquaredOffSymbols(rows[..|rows| - 1], account, paperTrading, rejected)
        + (if ClosesRow(p, account, paperTrading, rejected) then [p.symbol] else [])
  }

  /** The exit orders sent to the broker, in table order: none at all when paper trading. */
  function ExitOrders(rows: seq<Position>, account: string, paperTrading: bool, rejected: set<int>): seq<ExitOrder>
  {
    if rows == [] || paperTrading then []
    else
      var p := rows[|rows| - 1];
      ExitOrders(rows[..|rows| - 1], account, paperTrading, rejected)
        + (if ClosesRow(p, account, paperTrading, rejected) then [ExitOrderFor(p)] else [])
  }

  /** The report: the closed symbols and their count. */
  datatype SquareOffReport = SquareOffReport(squaredOff: seq<string>, count: nat)

  /**
   * Every closed row lowers the account's open count by one: the open rows
   * left are exactly those whose exit order raised.
   */
  lemma {:induction false} SquareOffOpenCount(rows: seq<Position>, account: string, paperTrading: bool,
                                              rejected: set<int>, now: Clock.Timestamp)
    ensures OpenPositionCount(SquareOffRows(rows, account, paperTrading, rejected, now), account)
            + |SquaredOffSymbols(rows, account, paperTrading, rejected)|
            == OpenPositionCount(rows, account)
  {
    if rows != [] {
      var n := |rows| - 1;
      var after := SquareOffRows(rows, account, paperTrading, rejected, now);
      SquareOffOpenCount(rows[..n], account, paperTrading, rejected, now);
      assert after[..n] == SquareOffRows(rows[..n], account, paperTrading, rejected, now);
    }
  }

  /** In paper trading nothing can fail, so the square-off leaves the account with no open position. */
  lemma PaperSquareOffClosesAll(rows: seq<Position>, account: string, rejected: set<int>, now: Clock.Timestamp)
    ensures OpenPositionCount(SquareOffRows(rows, account, true, rejected, now), account) == 0
    ensures |SquaredOffSymbols(rows, account, true, rejected)| == OpenPositionCount(rows, account)
  {
    SquareOffOpenCount(rows, account, true, rejected, now);
    PaperClosesEveryOpenRow(rows, account, rejected, now);
  }

  lemma {:induction false} PaperClosesEveryOpenRow(rows: seq<Position>, account: string, rejected: set<int>, now: Clock.Timestamp)
    ensures OpenPositionCount(SquareOffRows(rows, account, true, rejected, now), account) == 0
  {
    if rows != [] {
      var n := |rows| - 1;
      var after := SquareOffRows(rows, account, true, rejected, now);
      PaperClosesEveryOpenRow(rows[..n], account, rejected, now);
      assert after[..n] == SquareOffRows(rows[..n], account, true, rejected, now);
    }
  }

  /** Rows of other accounts keep their open count. */
  lemma {:induction false} SquareOffSparesOtherAccounts(rows: seq<Position>, account: string, other: string,
                                                        paperTrading: bool, rejected: set<int>, now: Clock.Timestamp)
    requires other != account
    ensures OpenPositionCount(SquareOffRows(rows, account, paperTrading, rejected, now), other)
         == OpenPositionCount(rows, other)
  {
    if rows != [] {
      var n := |rows| - 1;
      var after := SquareOffRows(rows, account, paperTrading, rejected, now);
      SquareOffSparesOtherAccounts(rows[..n], account, other, paperTrading, rejected, now);
      assert after[..n] == SquareOffRows(rows[..n], account, paperTrading, rejected, now);
    }
  }

  /** A second square-off with the same broker behaviour closes nothing: rows left open are exactly those that failed. */
  lemma {:induction false} SquareOffIdempotent(rows: seq<Position>, account: string, paperTrading: bool,
                                               rejected: set<int>, now: Clock.Timestamp, later: Clock.Timestamp)
    ensures var after := SquareOffRows(rows, account, paperTrading, rejected, now);
            SquaredOffSymbols(after, account, paperTrading, rejected) == []
            && SquareOffRows(after, account, paperTrading, rejected, later) == after
  {
    var after := SquareOffRows(rows, account, paperTrading, rejected, now);
    if rows != [] {
      var n := |rows| - 1;
      SquareOffIdempotent(rows[..n], account, paperTrading, rejected, now, later);
      assert after[..n] == SquareOffRows(rows[..n], account, paperTrading, rejected, now);
    }
  }

  /** Live, each closed symbol had exactly one exit order sent, in the same order. */
  lemma {:induction false} ExitOrdersMatchClosedSymbols(rows: seq<Position>, account: string, rejected: set<int>)
    ensures var exits := ExitOrders(rows, account, false, rejected);
            var closed := SquaredOffSymbols(rows, account, false, rejected);
            |exits| == |closed| && forall k :: 0 <= k < |exits| ==> exits[k].symbol == closed[k]
  {
    if rows != [] {
      ExitOrdersMatchClosedSymbols(rows[..|rows| - 1], account, rejected);
    }
  }

  // ---------------------------------------------------------------------------
  // The watchdog window (market_close_watchdog)

  /** The watchdog squares off when 15:29 <= now <= 15:30, both ends inclusive. */
  predicate SquareOffDue(now: nat)
  {
    AutoSquareOffTime <= now <= MarketClose
  }

  /** The watchdog's sleep between polls. */
  const PollInterval: nat := 60 * Clock.MicrosPerSecond

  /** The time of the k-th poll when polls start at `start` and come `period` apart. */
  function PollTime(start: nat, period: nat, k: nat): nat
  {
    start + k * period
  }

  /**
   * Polls `period` microseconds apart, starting at or before 15:29, land in
   * the window whenever the period is no longer than the window, which
   * holds 60 s + 1 µs worth of instants.
   */
  lemma PollingHitsWindow(start: nat, period: nat)
    requires start <= AutoSquareOffTime
    requires 0 < period <= MarketClose - AutoSquareOffTime + 1
    ensures exists k: nat :: SquareOffDue(PollTime(start, period, k))
  {
    var k: nat := (AutoSquareOffTime - start + period - 1) / period;
    assert k * period >= AutoSquareOffTime - start;
    assert k * period < AutoSquareOffTime - start + period;
    assert SquareOffDue(PollTime(start, period, k));
  }

  /** 15:28:59.999999, the last instant before the window opens. */
  const JustBeforeWindow: nat := AutoSquareOffTime - 1

  /**
   * The loop sleeps sixty seconds after each poll's work, so consecutive polls
   * are `PollInterval + work` apart. Any overhead of two microseconds or more
   * lets the polls jump the window: started at 15:28:59.999999, no poll ever
   * falls between 15:29:00 and 15:30:00.
   */
  lemma WatchdogCanMissWindow(work: nat, period: nat)
    requires work >= 2 && period == PollInterval + work
    ensures forall k: nat :: !SquareOffDue(PollTime(JustBeforeWindow, period, k))
  {
    forall k: nat
      ensures !SquareOffDue(PollTime(JustBeforeWindow, period, k))
    {
      if k >= 1 {
        assert k * period >= period;
      }
    }
  }

  /** A half-minute sleep leaves room for up to thirty seconds of work per poll. */
  const CorrectedPollInterval: nat := 30 * Clock.MicrosPerSecond

  /**
   * With the half-minute sleep, polls whose work varies from one iteration to
   * the next but never exceeds thirty seconds always land in the window:
   * `poll(k)` is the time of the k-th poll and `work(k)` the time its check
   * and any square-off took, so the next poll follows after both.
   */
  lemma {:induction false} CorrectedWatchdogHitsWindow(poll: nat -> nat, work: nat -> nat, k0: nat)
    requires poll(k0) <= AutoSquareOffTime
    requires forall k: nat :: work(k) <= 30 * Clock.MicrosPerSecond
    requires forall k: nat :: poll(k + 1) == poll(k) + CorrectedPollInterval + work(k)
    ensures exists k: nat :: SquareOffDue(poll(k))
    decreases AutoSquareOffTime - poll(k0)
  {
    if AutoSquareOffTime <= poll(k0 + 1) {
      assert SquareOffDue(poll(k0 + 1));
    } else {
      CorrectedWatchdogHitsWindow(poll, work, k0 + 1);
    }
  }

  // ---------------------------------------------------------------------------
  // The executor: the two tables and the operations that change them

  class Executor {
    var trades: seq<Trade>
    var positions: seq<Position>
    const paperTrading: bool

    /**
     * Position ids are the table's key: no two rows share one. The square-off
     * closes a row with `UPDATE positions ... WHERE id = %s`; with unique ids
     * that statement changes exactly the row being visited, which is what
     * `SquareOffRows` models row by row, and a rejected id stands for exactly
     * one row.
     */
    ghost predicate Valid()
      reads this
    {
      forall i, j :: 0 <= i < j < |positions| ==> positions[i].id != positions[j].id
    }

    constructor (paperTrading: bool, trades: seq<Trade>, positions: seq<Position>)
      requires forall i, j :: 0 <= i < j < |positions| ==> positions[i].id != positions[j].id
      ensures Valid()
      ensures this.paperTrading == paperTrading && this.trades == trades && this.positions == positions
    {
      this.paperTrading := paperTrading;
      this.trades := trades;
      this.positions := positions;
    }

    /** check_risk_limits for an account on a day. */
    function CheckRiskLimits(account: string, today: int): (r: RiskCheck)
      reads this
      ensures r == RiskLimits(trades, positions, account, today)
    {
      CheckRisk(DailyPnl(trades, account, today), TradeCount(trades, account, today), OpenPositionCount(positions, account))
    }

    /** The order insert as the source writes it: the row's account column is left empty. */
    method PlaceOrder(req: OrderRequest, now: Clock.Timestamp, broker: BrokerReply, notified: bool)
      returns (r: Result<Receipt, OrderFailure>)
      requires Valid()
      modifies this
      ensures Valid() && positions == old(positions)
      ensures Placement(r, trades) == Place(None, old(trades), positions, paperTrading, req, now, broker, notified)
    {
      r := PlaceAs(None, req, now, broker, notified);
    }

    /** The order insert with the row attributed to the account the risk check reads. */
    method PlaceOrderAttributed(req: OrderRequest, now: Clock.Timestamp, broker: BrokerReply, notified: bool)
      returns (r: Result<Receipt, OrderFailure>)
      requires Valid()
      modifies this
      ensures Valid() && positions == old(positions)
      ensures Placement(r, trades) == Place(Some(RiskAccount), old(trades), positions, paperTrading, req, now, broker, notified)
      ensures TradeCount(trades, RiskAccount, now.day) == old(TradeCount(trades, RiskAccount, now.day)) + (if trades == old(trades) then 0 else 1)
    {
      AttributedRowIsCounted(trades, positions, paperTrading, req, now, broker, notified);
      r := PlaceAs(Some(RiskAccount), req, now, broker, notified);
    }

    method PlaceAs(rowAccount: Option<string>, req: OrderRequest, now: Clock.Timestamp, broker: BrokerReply, notified: bool)
      returns (r: Result<Receipt, OrderFailure>)
      requires Valid()
      modifies this
      ensures Valid() && positions == old(positions)
      ensures Placement(r, trades) == Place(rowAccount, old(trades), positions, paperTrading, req, now, broker, notified)
    {
      var risk := CheckRiskLimits(RiskAccount, now.day);
      if !risk.allowed {
        return Err(TradingNotAllowed(risk.circuitBreakerHit));
      }
      var id: OrderId;
      if !paperTrading {
        match broker
        case Raised =>
          return Err(BrokerFailed);
        case Replied(orderId) =>
          id := BrokerOrder(orderId);
        case RepliedBareId(_) =>
          return Err(ReplyUnreadable);
      } else {
        id := PaperOrder(now);
      }
      trades := trades + [OrderRow(rowAccount, id, req, now)];
      if !notified {
        return Err(NotificationFailed);
      }
      r := Ok(Receipt(id, req.symbol, req.price));
    }

    /**
     * auto_square_off_positions: walks the account's OPEN rows in table order;
     * for each, sends the exit order (live only), and unless it raised marks
     * the row CLOSED with the exit time and records the symbol. The
     * notification lists the closed symbols and is sent only when there is at
     * least one; if it raises, the updates stay committed and the call fails.
     */
    method AutoSquareOffPositions(account: string, now: Clock.Timestamp, rejected: set<int>, notified: bool)
      returns (r: Result<SquareOffReport, OrderFailure>, exits: seq<ExitOrder>, notice: Option<seq<string>>)
      requires Valid()
      modifies this
      ensures Valid() && trades == old(trades)
      ensures positions == SquareOffRows(old(positions), account, paperTrading, rejected, now)
      ensures exits == ExitOrders(old(positions), account, paperTrading, rejected)
      ensures var closed := SquaredOffSymbols(old(positions), account, paperTrading, rejected);
              && notice == (if closed == [] then None else Some(closed))
              && r == if closed != [] && !notified then Err(NotificationFailed)
                      else Ok(SquareOffReport(closed, |closed|))
    {
      var squaredOff: seq<string> := [];
      exits := [];
      var i := 0;
      ghost var rows := positions;
      while i < |positions|
        invariant 0 <= i <= |positions| == |rows|
        invariant positions[..i] == SquareOffRows(rows[..i], account, paperTrading, rejected, now)
        invariant forall k :: i <= k < |positions| ==> positions[k] == rows[k]
        invariant squaredOff == SquaredOffSymbols(rows[..i], account, paperTrading, rejected)
        invariant exits == ExitOrders(rows[..i], account, paperTrading, rejected)
        invariant trades == old(trades)
        invariant forall k :: 0 <= k < |positions| ==> positions[k].id == rows[k].id
      {
        var p := positions[i];
        assert p == rows[i];
        assert rows[..i + 1][..i] == rows[..i];
        ghost var before := positions;
        if IsOpenOf(p, account) {
          if paperTrading || p.id !in rejected {
            if !paperTrading {
              exits := exits + [ExitOrderFor(p)];
            }
            positions := positions[i := p.(status := Closed, exitTime := Some(now))];
            squaredOff := squaredOff + [p.symbol];
          }
        }
        assert positions[i] == SquareOffRow(rows[i], account, paperTrading, rejected, now);
        assert positions[..i + 1] == before[..i] + [positions[i]];
        SquareOffRowsSnoc(rows, i, account, paperTrading, rejected, now);
        i := i + 1;
      }
      assert rows[..i] == rows;
      assert positions[..i] == positions;
      if squaredOff != [] {
        notice := Some(squaredOff);
        if !notified {
          return Err(NotificationFailed), exits, notice;
        }
      } else {
        notice := None;
      }
      r := Ok(SquareOffReport(squaredOff, |squaredOff|));
    }
  }
}
