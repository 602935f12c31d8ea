/** The balance ledger and the card-transaction orchestrator (`app.py`, lines 40-42 and
    240-360): two process-wide balances, the card's in USD and the wallet's in ETH, and the
    withdrawal that debits the card and, when the card falls below 100 USD, sells ETH to top
    it up again.

    Every reading the code takes from outside is an argument: the ETH price and the gas
    price each time they are fetched, the advisor's reply and the random transaction
    hashes. The pure rule `SellEth` and `UseCardSpec` below say what one call does to the
    balances; the class `Accounts` holds the balances and changes them step by step in the
    order the code does, and its methods are proved to agree with those rules. */
module Ledger {
  import opened Wrappers
  import opened Pricing
  import opened Threshold
  import opened Advice

  /** The balances the process starts with (lines 41-42). */
  const INITIAL_CARD_BALANCE: real := 200.0
  const INITIAL_ETH_BALANCE: real := 0.2

  /** The two balances: the card's in USD and the wallet's in ETH. */
  datatype Balances = Balances(card: real, eth: real)

  /** A card transaction request (lines 44-47). */
  datatype TransactionRequest = TransactionRequest(amount: real, currency: string, walletAddress: Option<string>)

  /** The request validators (lines 49-59): the amount is positive and the currency is ETH or USD.
      A request that fails them never reaches the handler. */
  predicate ValidRequest(req: TransactionRequest)
  {
    req.amount > 0.0 && (req.currency == "ETH" || req.currency == "USD")
  }

  /** Everything one card transaction reads from outside, in the order the code reads it. */
  datatype Readings = Readings(
    price: real,          // get_eth_price() at line 245, used for both fee checks and the final conversion
    gasForMinimum: real,  // get_gas_price() behind the minimum of line 246
    cardTxHash: string,   // the hash simulate_card_transaction makes up (line 259)
    gasForTopUp: real,    // get_gas_price() behind the minimum of line 267
    salePrice: real,      // get_eth_price() at line 294, inside the sale
    saleGas: real,        // get_gas_price() at line 295, inside the sale
    reply: Reply,         // the advisor's reply behind line 306
    saleTxHash: string)   // the hash simulate_eth_sale makes up (line 330)

  /** Why a card transaction stops. */
  datatype Failure =
    | AmountTooLow(minimum: real)                   // line 249: below the minimum profitable amount
    | InsufficientCardBalance                       // line 255
    | ZeroSalePrice                                 // line 299: division by a zero price inside the sale
    | InsufficientEth(needed: real, available: real) // line 302
    | AdvisorSaysHold(reason: string)               // line 309: the hold veto
    | ZeroPrice                                     // line 274: division by a zero price after the top-up

  /** What a successful sale reports (lines 315-321). */
  datatype Sale = Sale(ethSold: real, usdReceived: real, txHash: string, suggestion: Suggestion)

  datatype SaleOutcome = Sold(sale: Sale) | SaleFailed(failure: Failure)

  /** The body of a successful card transaction's response (lines 279-287). */
  datatype Receipt = Receipt(
    amount: real,
    txHash: string,
    newBalance: real,
    newMetamaskBalanceUsd: real,
    newEthBalance: real,
    minProfitableAmount: real)

  datatype Outcome = Completed(receipt: Receipt) | Failed(failure: Failure)

  /** The balances after a card transaction, and how it ended. */
  datatype Step = Step(balances: Balances, outcome: Outcome)

  /** The ETH to sell for `target` USD (lines 298-299): the target with its 5% margin plus the
      fee of the transfer, converted at `price`. */
  function SaleEthAmount(target: real, price: real, gasGwei: real): real
    requires price != 0.0
  {
    (target * PROFIT_MARGIN + TransactionCost(gasGwei, price)) / price
  }

  /** `auto_sell_eth_for_card(target)` (lines 292-324) from a wallet holding `eth`: fails on a
      zero price, on too little ETH and on the hold veto; otherwise sells `SaleEthAmount`. */
  function SellEth(eth: real, target: real, price: real, gasGwei: real, reply: Reply,
                   toFloat: string -> Option<real>, txHash: string): SaleOutcome
  {
    if price == 0.0 then SaleFailed(ZeroSalePrice)
    else
      var ethAmount := SaleEthAmount(target, price, gasGwei);
      if ethAmount > eth then SaleFailed(InsufficientEth(ethAmount, eth))
      else
        var suggestion := Suggest(eth, reply, toFloat);
        if suggestion.action == Hold && suggestion.amount > ethAmount then SaleFailed(AdvisorSaysHold(suggestion.reason))
        else Sold(Sale(ethAmount, target, txHash, suggestion))
  }

  /** The top-up chosen at lines 265-268 for a card left at `balance`: enough to reach 200 USD,
      and at least twice the minimum profitable amount. */
  function TopUpAmount(balance: real, gasGwei: real, price: real): real
  {
    Max(CARD_TARGET_BALANCE - balance, MinProfitableAmount(gasGwei, price) * 2.0)
  }

  /** The USD value of `eth` at `price` (line 277). */
  function UsdValue(eth: real, price: real): real
  {
    eth * price
  }

  /** A successful transaction leaving the balances `b`, with the wallet valued at `price`. */
  function Completion(b: Balances, amount: real, txHash: string, price: real, minimum: real): Step
  {
    Step(b, Completed(Receipt(amount, txHash, b.card, UsdValue(b.eth, price), b.eth, minimum)))
  }

  /** `use_card(request)` (lines 240-290) on the balances `s`: the new balances and the
      outcome. The two guards change nothing; the withdrawal is kept whatever follows. */
  function UseCardSpec(s: Balances, amount: real, rd: Readings, toFloat: string -> Option<real>): Step
  {
    var minimum := MinProfitableAmount(rd.gasForMinimum, rd.price);
    if amount < minimum then Step(s, Failed(AmountTooLow(minimum)))
    else if s.card < amount then Step(s, Failed(InsufficientCardBalance))
    else AfterWithdrawal(Balances(s.card - amount, s.eth), amount, minimum, rd, toFloat)
  }

  /** Lines 262-287, from the balances `s` just after the card was debited by `amount`: no
      top-up at 100 USD or more; below that, the sale, after which the card is credited twice
      (lines 345 and 271) and the wallet debited a second time (line 275). */
  function AfterWithdrawal(s: Balances, amount: real, minimum: real, rd: Readings,
                           toFloat: string -> Option<real>): Step
  {
    if s.card >= CARD_MIN_THRESHOLD then
      Completion(s, amount, rd.cardTxHash, rd.price, minimum)
    else
      var topUp := TopUpAmount(s.card, rd.gasForTopUp, rd.price);
      var sale := SellEth(s.eth, topUp, rd.salePrice, rd.saleGas, rd.reply, toFloat, rd.saleTxHash);
      if sale.SaleFailed? then Step(s, Failed(sale.failure))
      else AfterSale(s, topUp, sale.sale, amount, minimum, rd)
  }

  /** Lines 270-287, once the sale behind a top-up of `topUp` has gone through: the card is
      credited a second time and the wallet debited a second time, at the price read at
      line 245. */
  function AfterSale(s: Balances, topUp: real, sale: Sale, amount: real, minimum: real, rd: Readings): Step
  {
    var card := s.card + topUp + topUp;
    var ethAfterSale := s.eth - sale.ethSold;
    if rd.price == 0.0 then Step(Balances(card, ethAfterSale), Failed(ZeroPrice))
    else Completion(Balances(card, ethAfterSale - topUp / rd.price), amount, rd.cardTxHash, rd.price, minimum)
  }

  /** With a non-zero price the transaction completes with the card credited twice with the
      top-up and the wallet debited with the ETH sold and with the top-up's worth of ETH. */
  lemma AfterSaleCompletes(s: Balances, topUp: real, sale: Sale, amount: real, minimum: real, rd: Readings)
    requires rd.price != 0.0
    ensures AfterSale(s, topUp, sale, amount, minimum, rd) ==
      Completion(Balances(s.card + topUp + topUp, s.eth - sale.ethSold - topUp / rd.price), amount, rd.cardTxHash, rd.price, minimum)
  {
  }

  /** The two global balances and the operations that update them in place. */
  class Accounts {
    var cardBalance: real
    var ethBalance: real

    /** The balances at process start. */
    constructor ()
      ensures cardBalance == INITIAL_CARD_BALANCE && ethBalance == INITIAL_ETH_BALANCE
    {
      cardBalance := INITIAL_CARD_BALANCE;
      ethBalance := INITIAL_ETH_BALANCE;
    }

    /** `get_card_balance()` (lines 358-360): reads the card balance. */
    method GetCardBalance() returns (balance: real)
      ensures balance == cardBalance
    {
      balance := cardBalance;
    }

    /** `simulate_eth_sale(eth_amount)` (lines 326-335): takes the ETH out of the wallet, with no
        check of its own, and reports the made-up transaction hash. */
    method SimulateEthSale(ethAmount: real, txHash: string) returns (hash: string)
      modifies this
      ensures ethBalance == old(ethBalance) - ethAmount
      ensures cardBalance == old(cardBalance)
      ensures hash == txHash
    {
      ethBalance := ethBalance - ethAmount;
      hash := txHash;
    }

    /** `auto_sell_eth_for_card(target)` (lines 292-324): on success the wallet has given up
        exactly the ETH sold; on failure nothing has changed. */
    method AutoSellEthForCard(target: real, price: real, gasGwei: real, reply: Reply,
                              toFloat: string -> Option<real>, txHash: string) returns (r: SaleOutcome)
      modifies this
      ensures r == SellEth(old(ethBalance), target, price, gasGwei, reply, toFloat, txHash)
      ensures cardBalance == old(cardBalance)
      ensures ethBalance == if r.Sold? then old(ethBalance) - r.sale.ethSold else old(ethBalance)
    {
      var gasCost := TransactionCost(gasGwei, price);
      var required := target * PROFIT_MARGIN + gasCost;
      if price == 0.0 {
        return SaleFailed(ZeroSalePrice);
      }
      var ethAmount := required / price;
      if ethAmount > ethBalance {
        return SaleFailed(InsufficientEth(ethAmount, ethBalance));
      }
      var suggestion := GetSuggestion(ethBalance, reply, toFloat);
      if suggestion.action == Hold && suggestion.amount > ethAmount {
        return SaleFailed(AdvisorSaysHold(suggestion.reason));
      }
      var hash := SimulateEthSale(ethAmount, txHash);
      r := Sold(Sale(ethAmount, target, hash, suggestion));
    }

    /** `auto_topup(amount_usd)` (lines 337-356): the sale, then the card credited with the
        top-up amount; a failed sale is passed on with nothing changed. */
    method AutoTopup(amount: real, price: real, gasGwei: real, reply: Reply,
                     toFloat: string -> Option<real>, txHash: string) returns (r: SaleOutcome)
      modifies this
      ensures r == SellEth(old(ethBalance), amount, price, gasGwei, reply, toFloat, txHash)
      ensures r.Sold? ==> cardBalance == old(cardBalance) + amount && ethBalance == old(ethBalance) - r.sale.ethSold
      ensures r.SaleFailed? ==> cardBalance == old(cardBalance) && ethBalance == old(ethBalance)
    {
      r := AutoSellEthForCard(amount, price, gasGwei, reply, toFloat, txHash);
      if r.Sold? {
        cardBalance := cardBalance + amount;
      }
    }

    /** `use_card(request)` (lines 240-290): the guards, the withdrawal, the threshold test,
        the top-up through the sale, the second card credit and the second ETH debit, in that
        order. The new balances and the outcome are those of `UseCardSpec`. */
    method UseCard(req: TransactionRequest, rd: Readings, toFloat: string -> Option<real>) returns (out: Outcome)
      requires ValidRequest(req)
      modifies this
      ensures Balances(cardBalance, ethBalance) == UseCardSpec(Balances(old(cardBalance), old(ethBalance)), req.amount, rd, toFloat).balances
      ensures out == UseCardSpec(Balances(old(cardBalance), old(ethBalance)), req.amount, rd, toFloat).outcome
    {
      var amount := req.amount;
      var minimum := MinProfitableAmount(rd.gasForMinimum, rd.price);
      if amount < minimum {
        return Failed(AmountTooLow(minimum));
      }
      if cardBalance < amount {
        return Failed(InsufficientCardBalance);
      }
      var txHash := rd.cardTxHash;
      cardBalance := cardBalance - amount;
      ghost var debited := Balances(cardBalance, ethBalance);
      if cardBalance < CARD_MIN_THRESHOLD {
        var topUp := Max(CARD_TARGET_BALANCE - cardBalance, MinProfitableAmount(rd.gasForTopUp, rd.price) * 2.0);
        var sale := AutoTopup(topUp, rd.salePrice, rd.saleGas, rd.reply, toFloat, rd.saleTxHash);
        assert sale == SellEth(debited.eth, topUp, rd.salePrice, rd.saleGas, rd.reply, toFloat, rd.saleTxHash);
        if sale.SaleFailed? {
          return Failed(sale.failure);
        }
        cardBalance := cardBalance + topUp;
        if rd.price == 0.0 {
          return Failed(ZeroPrice);
        }
        ethBalance := ethBalance - topUp / rd.price;
        assert AfterWithdrawal(debited, amount, minimum, rd, toFloat) == AfterSale(debited, topUp, sale.sale, amount, minimum, rd);
        AfterSaleCompletes(debited, topUp, sale.sale, amount, minimum, rd);
      }
      var metamaskBalanceUsd := UsdValue(ethBalance, rd.price);
      out := Completed(Receipt(amount, txHash, cardBalance, metamaskBalanceUsd, ethBalance, minimum));
      assert AfterWithdrawal(debited, amount, minimum, rd, toFloat) ==
        Completion(Balances(cardBalance, ethBalance), amount, txHash, rd.price, minimum);
    }
  }
}
