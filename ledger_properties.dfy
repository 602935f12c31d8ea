/** What a card transaction does to the two balances (`app.py`, lines 240-356), stated on
    `UseCardSpec` and `SellEth`, which the methods of `Ledger.Accounts` are proved to follow. */
module LedgerProperties {
  import opened Wrappers
  import opened Pricing
  import opened Threshold
  import opened Advice
  import opened Ledger

  // ---------------------------------------------------------------------------------------
  // The guards

  /** The two guards (lines 249-256) raise before anything is written: a rejected request
      leaves both balances as they were, and these are the only two ways to be rejected
      without the card having been debited. */
  lemma GuardFailuresChangeNothing(s: Balances, amount: real, rd: Readings, toFloat: string -> Option<real>)
    ensures var minimum := MinProfitableAmount(rd.gasForMinimum, rd.price);
      amount < minimum ==> UseCardSpec(s, amount, rd, toFloat) == Step(s, Failed(AmountTooLow(minimum)))
    ensures amount >= MinProfitableAmount(rd.gasForMinimum, rd.price) && s.card < amount ==>
      UseCardSpec(s, amount, rd, toFloat) == Step(s, Failed(InsufficientCardBalance))
    ensures var out := UseCardSpec(s, amount, rd, toFloat).outcome;
      out.Failed? && (out.failure.AmountTooLow? || out.failure.InsufficientCardBalance?) ==>
        UseCardSpec(s, amount, rd, toFloat).balances == s
  {
  }

  /** Every amount under the 50 USD floor is turned down as unprofitable, whatever the
      market readings, and nothing changes. */
  lemma SmallAmountsRejected(s: Balances, amount: real, rd: Readings, toFloat: string -> Option<real>)
    requires amount < MINIMUM_PROFITABLE_USD
    ensures UseCardSpec(s, amount, rd, toFloat).outcome.Failed?
    ensures UseCardSpec(s, amount, rd, toFloat).outcome.failure.AmountTooLow?
    ensures UseCardSpec(s, amount, rd, toFloat).balances == s
  {
    MinProfitableBounds(rd.gasForMinimum, rd.price);
  }

  // ---------------------------------------------------------------------------------------
  // A withdrawal without a top-up

  /** When the threshold policy needs no top-up for the debited card (100 USD or more left),
      the card is debited by the amount, the wallet is untouched and the receipt reports the
      new card balance and the wallet valued at the price read first. */
  lemma WithdrawalWithoutTopUp(s: Balances, amount: real, rd: Readings, toFloat: string -> Option<real>)
    requires MinProfitableAmount(rd.gasForMinimum, rd.price) <= amount <= s.card
    requires CheckCardBalance(s.card - amount).action == Skip
    ensures UseCardSpec(s, amount, rd, toFloat).balances == Balances(s.card - amount, s.eth)
    ensures UseCardSpec(s, amount, rd, toFloat).outcome ==
      Completed(Receipt(amount, rd.cardTxHash, s.card - amount, s.eth * rd.price, s.eth,
                        MinProfitableAmount(rd.gasForMinimum, rd.price)))
  {
  }

  // ---------------------------------------------------------------------------------------
  // The top-up

  /** The top-up amount reaches the 200 USD target, is at least twice the minimum profitable
      amount and so never less than 100 USD. */
  lemma TopUpAmountBounds(balance: real, gasGwei: real, price: real)
    ensures TopUpAmount(balance, gasGwei, price) >= CARD_TARGET_BALANCE - balance
    ensures TopUpAmount(balance, gasGwei, price) >= MinProfitableAmount(gasGwei, price) * 2.0
    ensures TopUpAmount(balance, gasGwei, price) >= 2.0 * MINIMUM_PROFITABLE_USD
  {
    MinProfitableBounds(gasGwei, price);
  }

  /** A withdrawal that leaves the card under 100 USD and whose sale goes through: the card
      ends at the debited balance plus TWICE the top-up (credited at line 345 and again at
      line 271), so at least one whole top-up above the 200 USD target and never below
      300 USD; the wallet loses the ETH sold (line 329) and again the top-up converted at the
      first price (line 275). */
  lemma WithdrawalWithTopUp(s: Balances, amount: real, rd: Readings, toFloat: string -> Option<real>)
    requires MinProfitableAmount(rd.gasForMinimum, rd.price) <= amount <= s.card
    requires CheckCardBalance(s.card - amount).action == TopUp
    requires SellEth(s.eth, TopUpAmount(s.card - amount, rd.gasForTopUp, rd.price), rd.salePrice,
                     rd.saleGas, rd.reply, toFloat, rd.saleTxHash).Sold?
    requires rd.price != 0.0
    ensures var topUp := TopUpAmount(s.card - amount, rd.gasForTopUp, rd.price);
      && rd.salePrice != 0.0
      && UseCardSpec(s, amount, rd, toFloat).balances ==
           Balances(s.card - amount + 2.0 * topUp,
                    s.eth - SaleEthAmount(topUp, rd.salePrice, rd.saleGas) - topUp / rd.price)
    ensures var after := UseCardSpec(s, amount, rd, toFloat);
      && after.outcome.Completed?
      && after.outcome.receipt.newBalance == after.balances.card
      && after.outcome.receipt.newEthBalance == after.balances.eth
    ensures UseCardSpec(s, amount, rd, toFloat).balances.card >=
      CARD_TARGET_BALANCE + TopUpAmount(s.card - amount, rd.gasForTopUp, rd.price)
    ensures UseCardSpec(s, amount, rd, toFloat).balances.card >= CARD_TARGET_BALANCE + 2.0 * MINIMUM_PROFITABLE_USD
  {
    TopUpAmountBounds(s.card - amount, rd.gasForTopUp, rd.price);
  }

  /** The two ETH debits of a completed top-up (`WithdrawalWithTopUp`), valued at one price
      `p` read for both (lines 245 and 294): they take ETH worth 2.05 times the top-up plus
      the fee, 1.05 times it plus the fee in the sale and the top-up itself once more at
      line 275. */
  lemma TopUpDrawsWalletTwice(topUp: real, p: real, gasGwei: real)
    requires p > 0.0
    ensures (SaleEthAmount(topUp, p, gasGwei) + topUp / p) * p ==
      topUp * PROFIT_MARGIN + TransactionCost(gasGwei, p) + topUp
  {
    var sold := SaleEthAmount(topUp, p, gasGwei);
    assert sold * p == topUp * PROFIT_MARGIN + TransactionCost(gasGwei, p);
    assert (sold + topUp / p) * p == sold * p + (topUp / p) * p;
  }

  /** A top-up whose sale fails leaves the withdrawal in place with no rollback: the card
      stays debited by the amount, the wallet is untouched and the sale's failure is
      reported. */
  lemma FailedSaleKeepsWithdrawal(s: Balances, amount: real, rd: Readings, toFloat: string -> Option<real>)
    requires MinProfitableAmount(rd.gasForMinimum, rd.price) <= amount <= s.card
    requires s.card - amount < CARD_MIN_THRESHOLD
    requires SellEth(s.eth, TopUpAmount(s.card - amount, rd.gasForTopUp, rd.price), rd.salePrice,
                     rd.saleGas, rd.reply, toFloat, rd.saleTxHash).SaleFailed?
    ensures UseCardSpec(s, amount, rd, toFloat).balances == Balances(s.card - amount, s.eth)
    ensures UseCardSpec(s, amount, rd, toFloat).outcome ==
      Failed(SellEth(s.eth, TopUpAmount(s.card - amount, rd.gasForTopUp, rd.price), rd.salePrice,
                     rd.saleGas, rd.reply, toFloat, rd.saleTxHash).failure)
  {
  }

  /** A zero price at line 245 is only found out at line 274, after the sale and both card
      credits: the request fails with the card credited twice and the wallet debited once. */
  lemma ZeroPriceFailsAfterCredits(s: Balances, amount: real, rd: Readings, toFloat: string -> Option<real>)
    requires MinProfitableAmount(rd.gasForMinimum, rd.price) <= amount <= s.card
    requires s.card - amount < CARD_MIN_THRESHOLD
    requires SellEth(s.eth, TopUpAmount(s.card - amount, rd.gasForTopUp, rd.price), rd.salePrice,
                     rd.saleGas, rd.reply, toFloat, rd.saleTxHash).Sold?
    requires rd.price == 0.0
    ensures var topUp := TopUpAmount(s.card - amount, rd.gasForTopUp, rd.price);
      UseCardSpec(s, amount, rd, toFloat) ==
        Step(Balances(s.card - amount + 2.0 * topUp, s.eth - SaleEthAmount(topUp, rd.salePrice, rd.saleGas)),
             Failed(ZeroPrice))
  {
  }

  /** The card balance never goes negative: the guard keeps the withdrawal within the
      balance and a top-up only adds. */
  lemma CardStaysNonNegative(s: Balances, amount: real, rd: Readings, toFloat: string -> Option<real>)
    requires s.card >= 0.0
    ensures UseCardSpec(s, amount, rd, toFloat).balances.card >= 0.0
  {
    TopUpAmountBounds(s.card - amount, rd.gasForTopUp, rd.price);
  }

  // ---------------------------------------------------------------------------------------
  // The sale

  /** `auto_sell_eth_for_card`: a zero price fails; otherwise it fails exactly when the ETH
      needed exceeds the wallet, or on the hold veto; a sale takes at most the wallet's ETH,
      reports the target as received, and at a positive price the ETH sold is worth the
      target with its margin plus the fee. */
  lemma SellEthSpec(eth: real, target: real, price: real, gasGwei: real, reply: Reply,
                    toFloat: string -> Option<real>, txHash: string)
    ensures SellEth(eth, target, price, gasGwei, reply, toFloat, txHash) == SaleFailed(ZeroSalePrice) <==> price == 0.0
    ensures price != 0.0 ==>
      (SellEth(eth, target, price, gasGwei, reply, toFloat, txHash).SaleFailed? &&
       SellEth(eth, target, price, gasGwei, reply, toFloat, txHash).failure.InsufficientEth?
       <==> SaleEthAmount(target, price, gasGwei) > eth)
    ensures var r := SellEth(eth, target, price, gasGwei, reply, toFloat, txHash);
      r.Sold? ==>
        && r.sale.ethSold <= eth
        && r.sale.usdReceived == target
        && r.sale.txHash == txHash
        && r.sale.suggestion == Suggest(eth, reply, toFloat)
        && (price > 0.0 ==> r.sale.ethSold * price == target * PROFIT_MARGIN + TransactionCost(gasGwei, price))
  {
    if price != 0.0 {
      var ethAmount := SaleEthAmount(target, price, gasGwei);
      assert ethAmount * price == target * PROFIT_MARGIN + TransactionCost(gasGwei, price);
    }
  }

  /** The hold veto of line 309 can only fire on a negative sale amount: every hold the
      advisor produces carries amount 0. */
  lemma HoldVetoNeedsNegativeSale(eth: real, target: real, price: real, gasGwei: real, reply: Reply,
                                  toFloat: string -> Option<real>, txHash: string)
    ensures var r := SellEth(eth, target, price, gasGwei, reply, toFloat, txHash);
      r.SaleFailed? && r.failure.AdvisorSaysHold? ==> price != 0.0 && SaleEthAmount(target, price, gasGwei) < 0.0
  {
    HoldCarriesZero(eth, reply, toFloat);
  }

  /** So at a positive price, for a non-negative target, the veto never fires. */
  lemma HoldVetoIsDeadCode(eth: real, target: real, price: real, gasGwei: real, reply: Reply,
                           toFloat: string -> Option<real>, txHash: string)
    requires price > 0.0 && target >= 0.0
    ensures !SellEth(eth, target, price, gasGwei, reply, toFloat, txHash).SaleFailed? ||
            !SellEth(eth, target, price, gasGwei, reply, toFloat, txHash).failure.AdvisorSaysHold?
  {
    var required := target * PROFIT_MARGIN + TransactionCost(gasGwei, price);
    assert required >= 0.0;
    assert SaleEthAmount(target, price, gasGwei) == required / price;
    HoldVetoNeedsNegativeSale(eth, target, price, gasGwei, reply, toFloat, txHash);
  }

  /** In a card transaction the sale is for a top-up of at least 100 USD, so at a positive
      sale price the advisor never vetoes it. */
  lemma UseCardNeverVetoed(s: Balances, amount: real, rd: Readings, toFloat: string -> Option<real>)
    requires rd.salePrice > 0.0
    ensures var out := UseCardSpec(s, amount, rd, toFloat).outcome;
      !(out.Failed? && out.failure.AdvisorSaysHold?)
  {
    var topUp := TopUpAmount(s.card - amount, rd.gasForTopUp, rd.price);
    TopUpAmountBounds(s.card - amount, rd.gasForTopUp, rd.price);
    HoldVetoIsDeadCode(s.eth, topUp, rd.salePrice, rd.saleGas, rd.reply, toFloat, rd.saleTxHash);
  }

  // ---------------------------------------------------------------------------------------
  // Worked cases, at the fallback readings (2000 USD per ETH, 50 gwei) with the advisor
  // unreachable

  /** The readings the code falls back to, with the advisor call failing. */
  function FallbackReadings(): Readings
  {
    Readings(2000.0, 50.0, "0xcard", 50.0, 2000.0, 50.0, CallFailed("unreachable"), "0xsale")
  }

  /** 150 USD on the card and 0.2 ETH, withdraw 80 USD: the card falls to 70, a 130 USD
      top-up sells 0.0693 ETH and the card ends at 330 USD (70 + 2 x 130), the wallet at
      0.0657 ETH. */
  lemma EndToEndExample(toFloat: string -> Option<real>)
    ensures UseCardSpec(Balances(150.0, 0.2), 80.0, FallbackReadings(), toFloat) ==
      Completion(Balances(330.0, 0.0657), 80.0, "0xcard", 2000.0, 50.0)
  {
    FallbackReadingsExample();
    assert TopUpAmount(70.0, 50.0, 2000.0) == 130.0;
    assert SaleEthAmount(130.0, 2000.0, 50.0) == 0.0693;
  }

  /** Only the sale checks the wallet: with 0.07 ETH the sale of 0.0693 ETH passes, and the
      second debit at line 275 takes the wallet below zero. */
  lemma WalletCanEndNegative(toFloat: string -> Option<real>)
    ensures UseCardSpec(Balances(150.0, 0.07), 80.0, FallbackReadings(), toFloat).outcome.Completed?
    ensures UseCardSpec(Balances(150.0, 0.07), 80.0, FallbackReadings(), toFloat).balances == Balances(330.0, -0.0643)
  {
    FallbackReadingsExample();
    assert TopUpAmount(70.0, 50.0, 2000.0) == 130.0;
    assert SaleEthAmount(130.0, 2000.0, 50.0) == 0.0693;
  }
}
