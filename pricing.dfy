/** Fee and profitability rules: the USD cost of one plain ETH transfer at the current gas
    price, and the smallest card transaction worth making (`app.py`, lines 27-34 and 94-117). */
module Pricing {
  import opened Wrappers
  import opened Rounding

  const GAS_LIMIT: int := 21000
  const PROFIT_MARGIN: real := 1.05
  const MINIMUM_PROFITABLE_USD: real := 50.0
  /** Returned by the cost calculation when it raises. */
  const FALLBACK_TX_COST_USD: real := 5.0
  const WEI_PER_GWEI: int := 1_000_000_000
  const WEI_PER_ETHER: int := 1_000_000_000_000_000_000
  /** 2^256 - 1, the largest value `to_wei` accepts. */
  const MAX_WEI: int := 115792089237316195423570985008687907853269984665640564039457584007913129639935

  function Max(a: real, b: real): (m: real)
    ensures m >= a && m >= b && (m == a || m == b)
  {
    if b > a then b else a
  }

  /** `w3.to_wei(gwei, 'gwei')`: the wei value truncated to an integer, or None where
      the library raises because the value lies outside 0 .. 2^256 - 1. */
  function GweiToWei(gwei: real): (wei: Option<nat>)
    ensures wei.Some? <==> 0.0 <= gwei * WEI_PER_GWEI as real <= MAX_WEI as real
    ensures wei.Some? ==> wei.value as real <= gwei * WEI_PER_GWEI as real < wei.value as real + 1.0
  {
    var scaled := gwei * WEI_PER_GWEI as real;
    if scaled < 0.0 || scaled > MAX_WEI as real then None else Some(scaled.Floor)
  }

  /** The exact fee in USD: gas price (ETH per gas unit) times the gas limit times the ETH price. */
  function ExactFeeUsd(gasGwei: real, ethPrice: real): real
  {
    gasGwei / WEI_PER_GWEI as real * GAS_LIMIT as real * ethPrice
  }

  /** `calculate_transaction_cost(eth_price)` with the gas reading `gasGwei`: the fee of a
      21000-gas transfer in USD. It is never negative for a non-negative price, never more
      than the exact fee, equal to it when the reading is a whole number of wei (as a reading
      taken from the node always is), and 5.0 when the conversion raises. */
  function TransactionCost(gasGwei: real, ethPrice: real): (cost: real)
    ensures ethPrice >= 0.0 ==> cost >= 0.0
    ensures GweiToWei(gasGwei).None? ==> cost == FALLBACK_TX_COST_USD
    ensures GweiToWei(gasGwei).Some? && ethPrice >= 0.0 ==> cost <= ExactFeeUsd(gasGwei, ethPrice)
    ensures GweiToWei(gasGwei).Some? && GweiToWei(gasGwei).value as real == gasGwei * WEI_PER_GWEI as real ==>
      cost == ExactFeeUsd(gasGwei, ethPrice)
  {
    match GweiToWei(gasGwei)
    case None => FALLBACK_TX_COST_USD
    case Some(wei) =>
      var gasPriceEth := wei as real / WEI_PER_ETHER as real;
      var feeEth := gasPriceEth * GAS_LIMIT as real;
      var cost := feeEth * ethPrice;
      FeeBounds(gasGwei, wei, ethPrice);
      cost
  }

  /** Truncating the gas price to whole wei never raises the fee. */
  lemma FeeBounds(gasGwei: real, wei: nat, ethPrice: real)
    requires wei as real <= gasGwei * WEI_PER_GWEI as real
    ensures ethPrice >= 0.0 ==>
      wei as real / WEI_PER_ETHER as real * GAS_LIMIT as real * ethPrice <= ExactFeeUsd(gasGwei, ethPrice)
    ensures wei as real == gasGwei * WEI_PER_GWEI as real ==>
      wei as real / WEI_PER_ETHER as real * GAS_LIMIT as real * ethPrice == ExactFeeUsd(gasGwei, ethPrice)
  {
    var scaled := gasGwei * WEI_PER_GWEI as real;
    var k := GAS_LIMIT as real * ethPrice / WEI_PER_ETHER as real;
    assert ExactFeeUsd(gasGwei, ethPrice) == scaled * k;
    assert wei as real / WEI_PER_ETHER as real * GAS_LIMIT as real * ethPrice == wei as real * k;
    if ethPrice >= 0.0 {
      assert (scaled - wei as real) * k >= 0.0;
    }
  }

  /** `calculate_minimum_profitable_amount(eth_price)`: max(50, cost x 1.05) rounded to cents. */
  function MinProfitableAmount(gasGwei: real, ethPrice: real): (m: real)
  {
    Round2(Max(MINIMUM_PROFITABLE_USD, TransactionCost(gasGwei, ethPrice) * PROFIT_MARGIN))
  }

  /** The minimum is never below the 50 USD floor, never more than half a cent below the
      cost with its 5% margin, and is that larger value up to the rounding to cents. */
  lemma MinProfitableBounds(gasGwei: real, ethPrice: real)
    ensures MinProfitableAmount(gasGwei, ethPrice) >= MINIMUM_PROFITABLE_USD
    ensures MinProfitableAmount(gasGwei, ethPrice) >= TransactionCost(gasGwei, ethPrice) * PROFIT_MARGIN - 0.005
    ensures MinProfitableAmount(gasGwei, ethPrice) <= Max(MINIMUM_PROFITABLE_USD, TransactionCost(gasGwei, ethPrice) * PROFIT_MARGIN) + 0.005
  {
    var raw := Max(MINIMUM_PROFITABLE_USD, TransactionCost(gasGwei, ethPrice) * PROFIT_MARGIN);
    Round2Bounds(raw, 5000);
    Round2Error(raw);
  }

  /** When the fee with its margin stays at or below 50 USD (in particular whenever the gas
      conversion raises and the 5 USD fallback cost is used) the minimum is exactly 50. */
  lemma MinProfitableFloor(gasGwei: real, ethPrice: real)
    requires TransactionCost(gasGwei, ethPrice) * PROFIT_MARGIN <= MINIMUM_PROFITABLE_USD
    ensures MinProfitableAmount(gasGwei, ethPrice) == MINIMUM_PROFITABLE_USD
  {
    Round2Bounds(MINIMUM_PROFITABLE_USD, 5000);
  }

  /** The reading the code falls back to (50 gwei) at the price it falls back to (2000 USD):
      a 2.10 USD fee and the 50 USD floor. */
  lemma FallbackReadingsExample()
    ensures TransactionCost(50.0, 2000.0) == 2.1
    ensures MinProfitableAmount(50.0, 2000.0) == 50.0
  {
    assert GweiToWei(50.0) == Some(50_000_000_000);
    MinProfitableFloor(50.0, 2000.0);
  }
}
