/**
 * The deterministic parts of the Kite authentication service: the retry
 * wrapper, the ATM strike and the strike grid of the NIFTY options chain,
 * the option trading symbols, the loop that fills the chain, and the
 * cache-or-generate choice for the access token.
 *
 * Broker calls are parameters: a call made on attempt k, or a quote for a
 * symbol, is a total function from the attempt number or the symbol to
 * what the broker answered.
 */
module KiteService {
  import opened Wrappers
  import Strikes

  // ---------------------------------------------------------------------------
  // Retry wrapper (retry_on_failure)

  /** What one call of the wrapped function does: return a value or raise. */
  datatype Attempt<T> = Succeeds(value: T) | Raises(error: string)

  /**
   * The wrapper's outcome: the value of the first successful call, the last
   * exception re-raised, or falling off the end of an empty `range`, which
   * returns None.
   */
  datatype Retried<T> = Returned(value: T) | Reraised(error: string) | NothingReturned

  /**
   * retry_on_failure's wrapper: at most `maxRetries` calls, returning the
   * first success; after `maxRetries` consecutive failures the last
   * exception propagates. It sleeps only between attempts.
   */
  method RetryOnFailure<T>(maxRetries: int, call: nat -> Attempt<T>) returns (r: Retried<T>, calls: nat, sleeps: nat)
    ensures maxRetries <= 0 ==> r == NothingReturned && calls == 0 && sleeps == 0
    ensures maxRetries > 0 ==> 1 <= calls <= maxRetries && sleeps == calls - 1 && !r.NothingReturned?
    ensures forall k :: 0 <= k < calls - 1 ==> call(k).Raises?
    ensures r.Returned? ==> call(calls - 1) == Succeeds(r.value)
    ensures r.Reraised? ==> calls == maxRetries && call(calls - 1) == Raises(r.error)
    ensures maxRetries > 0 ==> (r.Reraised? <==> forall k :: 0 <= k < maxRetries ==> call(k).Raises?)
  {
    var attempt := 0;
    calls, sleeps := 0, 0;
    while attempt < maxRetries
      invariant 0 <= attempt && (maxRetries <= 0 ==> attempt == 0) && (maxRetries > 0 ==> attempt < maxRetries)
      invariant calls == attempt && sleeps == attempt
      invariant forall k :: 0 <= k < attempt ==> call(k).Raises?
    {
      var outcome := call(attempt);
      calls := calls + 1;
      match outcome
      case Succeeds(v) =>
        return Returned(v), calls, sleeps;
      case Raises(e) =>
        if attempt < maxRetries - 1 {
          sleeps := sleeps + 1;
        } else {
          return Reraised(e), calls, sleeps;
        }
      attempt := attempt + 1;
    }
    r := NothingReturned;
  }

  // ---------------------------------------------------------------------------
  // Strike grid (get_nifty_options_chain)

  /** Python's `range(start, stop, step)` for a positive step. */
  function Range(start: int, stop: int, step: nat): (r: seq<int>)
    requires step > 0
    decreases stop - start
  {
    if start >= stop then [] else [start] + Range(start + step, stop, step)
  }

  /** `range` yields start, start+step, ... and stops at the first value not below `stop`. */
  lemma {:induction false} RangeShape(start: int, stop: int, step: nat)
    requires step > 0
    ensures var r := Range(start, stop, step);
            && (|r| == 0 <==> start >= stop)
            && (forall k :: 0 <= k < |r| ==> r[k] == start + step * k)
            && (|r| > 0 ==> start + step * (|r| - 1) < stop <= start + step * |r|)
    decreases stop - start
  {
    if start < stop {
      var rest := Range(start + step, stop, step);
      RangeShape(start + step, stop, step);
      var r := Range(start, stop, step);
      assert r == [start] + rest;
      forall k | 0 <= k < |r|
        ensures r[k] == start + step * k
      {
        if k > 0 {
          assert r[k] == rest[k - 1];
          assert step * (k - 1) + step == step * k;
        }
      }
      if |rest| > 0 {
        assert step * (|rest| - 1) + step == step * (|r| - 1);
        assert step * |rest| + step == step * |r|;
      }
    }
  }

  /** The strikes requested: `range(atm - d, atm + d + 100, 100)`. */
  function StrikeGrid(atm: int, distance: int): seq<int>
  {
    Range(atm - distance, atm + distance + Strikes.StrikeStep, Strikes.StrikeStep)
  }

  /**
   * For a distance that is a non-negative multiple of 100 the grid is
   * atm-d, atm-d+100, ..., atm+d: 2d/100 + 1 ascending strikes, the ATM
   * strike among them.
   */
  lemma StrikeGridShape(atm: int, distance: int)
    requires distance >= 0 && distance % 100 == 0
    ensures var g := StrikeGrid(atm, distance);
            && |g| == 2 * (distance / 100) + 1
            && (forall k :: 0 <= k < |g| ==> g[k] == atm - distance + 100 * k)
            && g[0] == atm - distance && g[|g| - 1] == atm + distance
            && g[distance / 100] == atm
            && (forall j, k :: 0 <= j < k < |g| ==> g[j] < g[k])
  {
    var g := StrikeGrid(atm, distance);
    RangeShape(atm - distance, atm + distance + 100, 100);
    var m := distance / 100;
    assert distance == 100 * m;
    var n := |g|;
    assert n > 0;
    assert 100 * (n - 1) < 200 * m + 100 <= 100 * n;
    assert n - 1 < 2 * m + 1 by {
      assert 100 * (n - 1) < 100 * (2 * m + 1);
    }
    assert 2 * m + 1 <= n by {
      assert 100 * (2 * m + 1) <= 100 * n;
    }
  }

  /** With a distance of -50 or less the grid is empty and the chain holds no strikes. */
  lemma NegativeDistanceEmptyGrid(atm: int, distance: int)
    requires distance <= -50
    ensures StrikeGrid(atm, distance) == []
  {
    RangeShape(atm - distance, atm + distance + 100, 100);
  }

  // ---------------------------------------------------------------------------
  // Option trading symbols

  function DigitChar(d: nat): char
    requires d < 10
  {
    ('0' as int + d) as char
  }

  /** The number a string of decimal digits spells, most significant digit first. */
  function DigitsValue(s: string): nat
    requires forall k :: 0 <= k < |s| ==> '0' <= s[k] <= '9'
  {
    if s == [] then 0
    else DigitsValue(s[..|s| - 1]) * 10 + (s[|s| - 1] as int - '0' as int)
  }

  /** Python's `str` of a non-negative integer. */
  function NatToString(n: nat): (s: string)
    ensures |s| >= 1
    ensures forall k :: 0 <= k < |s| ==> '0' <= s[k] <= '9'
  {
    if n < 10 then [DigitChar(n)] else NatToString(n / 10) + [DigitChar(n % 10)]
  }

  /** The digits spell n, and the first one is '0' only for n == 0: no leading zero. */
  lemma {:induction false} NatToStringSpells(n: nat)
    ensures DigitsValue(NatToString(n)) == n
    ensures NatToString(n)[0] == '0' <==> n == 0
  {
    if n >= 10 {
      NatToStringSpells(n / 10);
      var s := NatToString(n);
      assert s[..|s| - 1] == NatToString(n / 10);
    }
  }

  /** Python's `str` of an integer: a minus sign before the digits of its magnitude. */
  function IntToString(n: int): (s: string)
    ensures |s| >= 1
  {
    if n < 0 then "-" + NatToString(-n) else NatToString(n)
  }

  /** A minus sign exactly for negatives, followed by digits that spell the magnitude with no leading zero. */
  lemma IntToStringSpells(n: int)
    ensures var s := IntToString(n);
            var digits := if n < 0 then s[1..] else s;
            && (s[0] == '-' <==> n < 0)
            && |digits| >= 1
            && (forall k :: 0 <= k < |digits| ==> '0' <= digits[k] <= '9')
            && DigitsValue(digits) == (if n < 0 then -n else n)
            && (digits[0] == '0' <==> n == 0)
  {
    var m: nat := if n < 0 then -n else n;
    NatToStringSpells(m);
    if n < 0 {
      assert IntToString(n)[1..] == NatToString(m);
    }
  }

  const SymbolPrefix: string := "NFO:NIFTY"

  datatype Right = Call | Put

  /** The instrument symbol: prefix, today's date tag (`%d%b%y`, upper-cased), C or P, the strike. */
  function OptionSymbol(dateTag: string, right: Right, strike: int): (s: string)
    ensures |s| == |SymbolPrefix| + |dateTag| + 1 + |IntToString(strike)|
    ensures s[..|SymbolPrefix|] == SymbolPrefix
    ensures s[|SymbolPrefix| + |dateTag|] == (if right == Call then 'C' else 'P')
  {
    SymbolPrefix + dateTag + [if right == Call then 'C' else 'P'] + IntToString(strike)
  }

  /** The symbol reads back as its parts: the prefix, the date tag, C or P, and the strike's decimal text. */
  lemma OptionSymbolLayout(dateTag: string, right: Right, strike: int)
    ensures var s := OptionSymbol(dateTag, right, strike);
            var at := |SymbolPrefix| + |dateTag|;
            && s[..|SymbolPrefix|] == SymbolPrefix
            && s[|SymbolPrefix|..at] == dateTag
            && s[at] == (if right == Call then 'C' else 'P')
            && s[at + 1..] == IntToString(strike)
  {
  }

  /** A strike's call and put symbols are the same except for C against P, at one position after the prefix and the date. */
  lemma CallPutDifferOnlyInRight(dateTag: string, strike: int)
    ensures var c := OptionSymbol(dateTag, Call, strike);
            var p := OptionSymbol(dateTag, Put, strike);
            var at := |SymbolPrefix| + |dateTag|;
            && |c| == |p|
            && c[at] == 'C' && p[at] == 'P'
            && forall k :: 0 <= k < |c| && k != at ==> c[k] == p[k]
  {
    var c := OptionSymbol(dateTag, Call, strike);
    var p := OptionSymbol(dateTag, Put, strike);
    var at := |SymbolPrefix| + |dateTag|;
    forall k | 0 <= k < |c| && k != at
      ensures c[k] == p[k]
    {
      if k < at {
        assert c[k] == (SymbolPrefix + dateTag)[k] == p[k];
      } else {
        assert c[k] == IntToString(strike)[k - at - 1] == p[k];
      }
    }
  }

  // ---------------------------------------------------------------------------
  // Options chain (get_nifty_options_chain)

  /** The fields the broker returns for one instrument. */
  datatype Instrument = Instrument(lastPrice: real)

  /** A quote call: it raises, or it answers with a dictionary keyed by symbol. */
  datatype QuoteReply = QuoteRaised | Quoted(entries: map<string, Instrument>)

  /** `reply.get(symbol, {})`, with `None` standing for the empty dictionary. */
  function Entry(entries: map<string, Instrument>, symbol: string): Option<Instrument>
  {
    if symbol in entries then Some(entries[symbol]) else None
  }

  datatype ChainLeg = ChainLeg(call: Option<Instrument>, put: Option<Instrument>)

  datatype OptionsChain = OptionsChain(atmStrike: int, currentPrice: real, options: map<int, ChainLeg>)

  /** The chain entry for one strike, or `None` when either quote raises (the put is not requested when the call raises). */
  function StrikeEntry(dateTag: string, strike: int, quote: string -> QuoteReply): Option<ChainLeg>
  {
    var callSymbol := OptionSymbol(dateTag, Call, strike);
    var putSymbol := OptionSymbol(dateTag, Put, strike);
    match quote(callSymbol)
    case QuoteRaised => None
    case Quoted(callData) =>
      match quote(putSymbol)
      case QuoteRaised => None
      case Quoted(putData) => Some(ChainLeg(Entry(callData, callSymbol), Entry(putData, putSymbol)))
  }

  /** One pass of the strike loop's `try`: quote the call, then the put; a raise from either drops the strike. */
  method FetchStrike(dateTag: string, strike: int, quote: string -> QuoteReply) returns (leg: Option<ChainLeg>)
    ensures leg == StrikeEntry(dateTag, strike, quote)
  {
    var callSymbol := OptionSymbol(dateTag, Call, strike);
    var putSymbol := OptionSymbol(dateTag, Put, strike);
    var callReply := quote(callSymbol);
    if callReply.QuoteRaised? {
      return None;
    }
    var putReply := quote(putSymbol);
    if putReply.QuoteRaised? {
      return None;
    }
    leg := Some(ChainLeg(Entry(callReply.entries, callSymbol), Entry(putReply.entries, putSymbol)));
  }

  /**
   * The chain around the ATM strike of `currentPrice`: every key is a grid
   * strike; a grid strike is present exactly when both its quotes answered,
   * and then holds the two instruments' entries (empty when the reply lacks
   * the symbol).
   */
  method GetNiftyOptionsChain(currentPrice: real, strikeDistance: int, dateTag: string, quote: string -> QuoteReply)
    returns (chain: OptionsChain)
    ensures chain.atmStrike == Strikes.AtmStrike(currentPrice) && chain.currentPrice == currentPrice
    ensures chain.atmStrike % 100 == 0
    ensures forall strike :: strike in chain.options ==> strike in StrikeGrid(chain.atmStrike, strikeDistance)
    ensures forall strike :: strike in StrikeGrid(chain.atmStrike, strikeDistance) ==>
              (strike in chain.options <==> StrikeEntry(dateTag, strike, quote).Some?)
    ensures forall strike :: strike in chain.options ==> Some(chain.options[strike]) == StrikeEntry(dateTag, strike, quote)
  {
    var atm := Strikes.AtmStrike(currentPrice);
    var grid := StrikeGrid(atm, strikeDistance);
    var options := FetchStrikes(grid, dateTag, quote);
    ChainOfKeys(grid, dateTag, quote);
    chain := OptionsChain(atm, currentPrice, options);
  }

  /** The map the strike loop has built after the strikes of `grid`: each strike whose quotes both answered, with its entry. */
  function ChainOf(grid: seq<int>, dateTag: string, quote: string -> QuoteReply): map<int, ChainLeg>
  {
    if grid == [] then map[]
    else
      var options := ChainOf(grid[..|grid| - 1], dateTag, quote);
      var strike := grid[|grid| - 1];
      match StrikeEntry(dateTag, strike, quote)
      case None => options
      case Some(leg) => options[strike := leg]
  }

  /** Only strikes of the grid are keys; a grid strike is a key exactly when both its quotes answered, and holds their entries. */
  lemma {:induction false} ChainOfKeys(grid: seq<int>, dateTag: string, quote: string -> QuoteReply)
    ensures var options := ChainOf(grid, dateTag, quote);
            && (forall strike :: strike in options ==> strike in grid)
            && (forall strike :: strike in grid ==> (strike in options <==> StrikeEntry(dateTag, strike, quote).Some?))
            && (forall strike :: strike in options ==> Some(options[strike]) == StrikeEntry(dateTag, strike, quote))
  {
    if grid != [] {
      var prefix := grid[..|grid| - 1];
      ChainOfKeys(prefix, dateTag, quote);
      assert grid == prefix + [grid[|grid| - 1]];
    }
  }

  /** The strike loop: each strike of `grid`, in order, is added exactly when both its quotes answered. */
  method FetchStrikes(grid: seq<int>, dateTag: string, quote: string -> QuoteReply) returns (options: map<int, ChainLeg>)
    ensures options == ChainOf(grid, dateTag, quote)
  {
    options := map[];
    var i := 0;
    while i < |grid|
      invariant 0 <= i <= |grid|
      invariant options == ChainOf(grid[..i], dateTag, quote)
    {
      var strike := grid[i];
      var leg := FetchStrike(dateTag, strike, quote);
      assert grid[..i + 1][..i] == grid[..i];
      if leg.Some? {
        options := options[strike := leg.value];
      }
      i := i + 1;
    }
    assert grid[..|grid|] == grid;
  }

  // ---------------------------------------------------------------------------
  // Access token (get_valid_token)

  /** Where the token came from; generation is the broker login, passed in as its outcome. */
  datatype TokenChoice = TokenChoice(token: Result<string, string>, generated: bool)

  /**
   * A non-empty cached token is returned as is and no new one is generated;
   * a missing or empty cache entry falls through to generation, whose
   * result (token or failure) is returned.
   */
  function GetValidToken(cached: Option<string>, generate: Result<string, string>): (c: TokenChoice)
    ensures c.generated <==> cached.None? || cached.value == ""
    ensures !c.generated ==> c.token == Ok(cached.value) && c.token.value != ""
    ensures c.generated ==> c.token == generate
  {
    if cached.Some? && cached.value != "" then TokenChoice(Ok(cached.value), false)
    else TokenChoice(generate, true)
  }
}
