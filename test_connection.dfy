/**
 * The setup checker's decisions: whether the exchange is open, whether the
 * MCP endpoint counts as responding, and the summary that turns the six
 * probe results into an exit code. The probes themselves (HTTP, database,
 * cache, broker) are inputs: each is the boolean it returned.
 */
module ConnectionTest {
  import opened Wrappers
  import Clock
  import OrderExecutor

  const MarketOpen: nat := Clock.Micros(9, 15, 0)
  const MarketClose: nat := Clock.Micros(15, 30, 0)

  /**
   * check_market_hours, for a weekday (Monday = 0) and the IST time of day
   * in microseconds: closed all weekend whatever the clock says; on weekdays
   * open from 09:15:00.000000 through 15:30:00.000000, both ends included.
   */
  function CheckMarketHours(weekday: nat, now: nat): (open: bool)
    ensures weekday >= 5 ==> !open
    ensures weekday < 5 ==> (open <==> MarketOpen <= now <= MarketClose)
  {
    if weekday >= 5 then false
    else MarketOpen <= now <= MarketClose
  }

  /** On a weekday the checker's notion of market hours is the order executor's trading session. */
  lemma MarketHoursMatchExecutor(weekday: nat, now: nat)
    requires weekday < 5
    ensures CheckMarketHours(weekday, now) <==> OrderExecutor.MarketOpen <= now <= OrderExecutor.MarketClose
  {
  }

  /** Whenever the square-off watchdog fires on a weekday, the market is still open. */
  lemma SquareOffWindowInsideMarketHours(weekday: nat, now: nat)
    requires weekday < 5 && OrderExecutor.SquareOffDue(now)
    ensures CheckMarketHours(weekday, now)
  {
  }

  /**
   * test_mcp_endpoint: the endpoint responds when the request returns 200,
   * 401 or 403 (authentication refusals still show it is up); any other
   * status, or a request that raises (`None`), is a failure.
   */
  function McpResponding(status: Option<int>): (ok: bool)
    ensures ok ==> status.Some?
    ensures status.Some? ==> (ok <==> status.value == 200 || status.value == 401 || status.value == 403)
  {
    match status
    case None => false
    case Some(code) => code == 200 || code == 401 || code == 403
  }

  /** The services whose failure fails the whole check. */
  const CriticalServices: seq<string> := ["n8n", "PostgreSQL", "Redis"]

  /**
   * The summary loop over the results in insertion order: `allPassed`
   * starts true and is cleared by any failed critical service; failures of
   * other services are only reported.
   */
  method Summarize(results: seq<(string, bool)>) returns (allPassed: bool)
    ensures allPassed <==> forall i :: 0 <= i < |results| && results[i].0 in CriticalServices ==> results[i].1
  {
    allPassed := true;
    var i := 0;
    while i < |results|
      invariant 0 <= i <= |results|
      invariant allPassed <==> forall k :: 0 <= k < i && results[k].0 in CriticalServices ==> results[k].1
    {
      var (service, status) := results[i];
      if service in CriticalServices && !status {
        allPassed := false;
      }
      i := i + 1;
    }
  }

  /** The six probes, in the order main runs them. */
  function Results(kite: bool, n8n: bool, postgres: bool, redis: bool, mcp: bool, marketHours: bool): seq<(string, bool)>
  {
    [("Kite API", kite), ("n8n", n8n), ("PostgreSQL", postgres), ("Redis", redis), ("MCP Endpoint", mcp), ("Market Hours", marketHours)]
  }

  /**
   * main's exit code: 0 exactly when n8n, PostgreSQL and Redis all passed,
   * 1 otherwise; the Kite, MCP and market-hours results never change it.
   */
  method RunConnectionTests(kite: bool, n8n: bool, postgres: bool, redis: bool, mcp: bool, marketHours: bool)
    returns (exitCode: int)
    ensures exitCode == 0 || exitCode == 1
    ensures exitCode == 0 <==> n8n && postgres && redis
  {
    var results := Results(kite, n8n, postgres, redis, mcp, marketHours);
    var allPassed := Summarize(results);
    assert results[1].0 in CriticalServices && results[2].0 in CriticalServices && results[3].0 in CriticalServices;
    assert "Kite API" !in CriticalServices && "MCP Endpoint" !in CriticalServices && "Market Hours" !in CriticalServices;
    exitCode := if allPassed then 0 else 1;
  }
}
