/** NIFTY strikes are listed every 100 points; both the strategy engine and the options-chain fetch round the index to the nearest one. */
module Strikes {
  import opened PyNum

  const StrikeStep: int := 100

  /**
   * `int(round(price / 100) * 100)`: the strike nearest the price. Python's
   * `round` sends an exact half to the even neighbour, so a price ending in
   * 50 goes to the strike whose hundreds count is even.
   */
  function AtmStrike(price: real): (atm: int)
    ensures atm % StrikeStep == 0
    ensures -50.0 <= atm as real - price <= 50.0
    ensures (atm as real - price == 50.0 || price - atm as real == 50.0) ==> (atm / StrikeStep) % 2 == 0
  {
    var k := RoundHalfEven(price / 100.0);
    assert k * 100 / 100 == k;
    k * StrikeStep
  }
}
