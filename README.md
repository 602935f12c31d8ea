# Crypto card top-up: a Dafny model

The system is a small web service that pairs a payment card holding USD with a wallet
holding ETH. A card transaction is turned down when it is too small to be
worth the network fee, or when it is larger than the card balance. Otherwise the card is debited. If the
card then falls below 100 USD, ETH is sold to top it back up. Before it sells, the service asks a
text-generating advisor for a BUY/SELL/HOLD suggestion. Both balances live in process
memory, and every transaction hash is made up.

This project models:

- **Pricing**: the USD fee of one plain ETH transfer at the current gas price, and the
  minimum profitable withdrawal, which is at least 50 USD.
- **Threshold**: the card threshold policy. A top-up is advised below 100 USD, for the
  amount that brings the card to 200 USD.
- **Advice**: reading the advisor's reply. The reply is split into lines, and the last
  ACTION, AMOUNT and REASON lines each set their field. The first AMOUNT that `float()`
  rejects ends the reading. The suggestion is then adjusted. A buy is set to
  min(0.5, half the balance), whatever amount was parsed. A sell becomes min(parsed amount,
  half the balance). Anything else is a hold of 0. The amount is then made positive with
  `abs` and rounded to 4 places. So a parsed sell below minus half the balance escapes the cap
  (`SellCap`). A buy escapes the 0.5 cap on a negative balance, which the second ETH debit of a
  top-up can produce (`BuyCapEscapeExample`).
- **Text**: the Python string operations the reader relies on.
- **Rounding**: Python's `round`, modelled as exact round-half-even.
- **Ledger**: the card and wallet balances as a class, `Ledger.Accounts`. Its methods are the sale, the top-up and
  the card transaction. Each is proved against a pure function. `Ledger.UseCardSpec` states what a card
  transaction does to the two balances and what it reports.
- **LedgerProperties**: what follows from those functions.

The service reads several values from outside. Each one is a parameter of the model:

- the ETH price from an on-chain feed;
- the gas price;
- the advisor's reply, or the error its call raised;
- the random transaction hashes.

For one card transaction, these readings are grouped in `Ledger.Readings`, in the order the code takes them. The
price and the gas are read again for the sale. Python's `float()` on a piece of text is a parameter too,
`toFloat: string -> Option<real>`, where `None` means it raised.

The model follows the code where it departs from the obvious design. The statements below
are proved as lemmas.

- **The card is credited twice per top-up** (`app.py` lines 345 and 271). A completed top-up
  leaves the card at least 300 USD (`WithdrawalWithTopUp`).
- **The ETH is debited twice**: once by the sale, and once more by `topUp / price` at line 275
  (`TopUpDrawsWalletTwice`).
- **Only the sale checks the wallet**, so the second debit can leave the ETH balance negative
  (`WalletCanEndNegative`).
- **The advisor's hold veto at line 309 cannot fire.** A hold always carries amount 0, and
  at a positive price the sale amount is never negative (`HoldVetoIsDeadCode`,
  `UseCardNeverVetoed`).
- **A failed top-up sale keeps the withdrawal.** The request fails, but the card stays debited
  (`FailedSaleKeepsWithdrawal`).
- **A zero first price reading (line 245) can go unnoticed until line 274.** This happens when the
  sale's own price reading (line 294) is non-zero and the sale succeeds. By then the sale has run
  and the card has been credited twice (`ZeroPriceFailsAfterCredits`). When the sale's reading
  is zero as well, the sale fails first, at line 299, with nothing credited
  (`SellEthSpec`, `FailedSaleKeepsWithdrawal`).

## Model

| member | source | states |
|---|---|---|
| Pricing.Max | app.py:113 | `max(a, b)` is at least both arguments and equal to one of them |
| Pricing.GweiToWei | app.py:98 | the wei conversion succeeds exactly in the range 0 to 2^256-1 wei, and then truncates the gwei reading to whole wei |
| Pricing.TransactionCost | app.py:94-107 | the fee is non-negative at a non-negative price, is 5 USD when the conversion raises, never exceeds the exact fee, and equals it for whole-wei readings |
| Pricing.FeeBounds | app.py:98-104 | truncating the gas price to whole wei never raises the fee, and leaves it unchanged on whole-wei readings |
| Pricing.MinProfitableBounds | app.py:109-117 | the minimum profitable amount is at least 50 USD, at least the fee times 1.05 less half a cent, and within half a cent of max(50, fee x 1.05) |
| Pricing.MinProfitableFloor | app.py:109-114 | when the fee with its margin is at most 50 USD, the minimum is exactly 50 USD |
| Pricing.FallbackReadingsExample | app.py:83-114 | at the fallback readings (50 gwei, 2000 USD) the fee is 2.10 USD and the minimum is 50 USD |
| Rounding.RoundHalfEven | app.py:114 | the nearest integer lies within 0.5 of x and between floor(x) and floor(x) + 1, and an exact half goes to the even neighbour |
| Rounding.RoundHalfEvenAgainstInteger | app.py:114 | rounding never crosses an integer, and fixes integers |
| Rounding.Round2Error | app.py:114 | `round(x, 2)` is within half a cent of x |
| Rounding.Round2Bounds | app.py:377 | `round(x, 2)` never crosses a whole number of cents, and fixes whole cents |
| Rounding.Round4Error | app.py:185 | `round(x, 4)` is within 0.00005 of x |
| Rounding.Round4Bounds | app.py:185 | `round(x, 4)` never crosses a multiple of 10^-4, and fixes such multiples |
| Rounding.Round4NonNegative | app.py:185 | rounding a non-negative amount to 4 places keeps it non-negative |
| Threshold.CheckCardBalanceSpec | app.py:371-384 | a top-up is advised if and only if the balance is below 100. Its amount brings the balance to 200 within half a cent (exactly, for whole-cent balances) and is at least 100. A skip carries 0 |
| Threshold.CheckCardBalanceExamples | app.py:371-384 | 250 USD gives a skip of 0; 80 USD gives a top-up of 120 |
| Text.StripLeftSpec | app.py:155 | `lstrip` removes a run of whitespace from the front, and what is left does not start with whitespace |
| Text.StripRightSpec | app.py:155 | `rstrip` removes a run of whitespace from the end, and what is left does not end with whitespace |
| Text.StripSpec | app.py:155 | `strip` leaves a slice of the text with only whitespace around it, and the slice neither starts nor ends with whitespace |
| Text.RemoveAllSpec | app.py:164-171 | `replace(pat, '')` never lengthens a text. A text holding the pattern loses at least one whole occurrence. A text without it is unchanged |
| Text.LowerSpec | app.py:164-166 | `lower` keeps the length and lower-cases each character on its own |
| Text.SplitSpec | app.py:155 | `split` yields at least one part, and no part holds the separator |
| Text.SplitJoin | app.py:155 | joining the parts of a split on the same separator gives back the text |
| Advice.ParseLines | app.py:155-172 | the parsing loop's result is `ParseAll`, the line-by-line reading from the defaults |
| Advice.BadAmountPersists | app.py:160-169 | once an amount is rejected, later lines change nothing |
| Advice.MarkersDisjoint | app.py:163-170 | no line starts with two markers, so the order of the tests does not matter |
| Advice.NoFieldLinesGiveDefaults | app.py:156-158 | a reply without marked lines reads as hold, 0 and "Unable to parse AI suggestion" |
| Advice.FieldsComeFromLastMarkedLine | app.py:162-171 | a completed reading takes each field from the last line with its marker, and the defaults when there is none |
| Advice.RejectedLineStopsReading | app.py:165-169 | any AMOUNT line that `float()` rejects makes the reading fail |
| Advice.ReadingStopsAtFirstRejectedLine | app.py:162-169 | a failed reading names the text of the first rejected AMOUNT line, and every earlier AMOUNT line was accepted |
| Advice.ClampSpec | app.py:173-185 | the amount is non-negative and the reason is kept. Buy and sell are recognised exactly by their lower-case words. A buy ignores the parsed amount and is abs(min(0.5, balance / 2)) to 4 places; for a non-negative balance that is min(0.5, balance / 2) to 4 places and at most 0.5. A sell is abs(min(amount, balance / 2)) to 4 places. Anything else is a hold of 0 |
| Advice.SellCap | app.py:177-185 | for a non-negative balance, a sell stays within half the balance plus 0.00005 (the 4-place rounding) when the parsed amount is at least minus half the balance; below that it exceeds the cap through `abs` |
| Advice.SellCapEscapeExample | app.py:177-185 | a parsed sell of -5 ETH on a 0.2 ETH balance becomes a sell of 5 ETH |
| Advice.BuyCapEscapeExample | app.py:174-185 | on a negative balance of -4 ETH a buy becomes 2 ETH, over the 0.5 ETH cap, through `abs` |
| Advice.ClampExamples | app.py:174-185 | for a 0.2 ETH balance: buy 5 gives 0.1, sell 0.05 gives 0.05, and an unknown action gives hold 0 |
| Advice.GetSuggestion | app.py:119-204 | the suggestion is `Suggest` of the balance and the reply |
| Advice.HoldCarriesZero | app.py:155-204 | every suggestion has a non-negative amount, and every hold, from any of its three sources, carries 0 |
| Advice.UnparsableReplyHolds | app.py:155-197 | a reply without marked lines gives hold 0 with the default reason |
| Advice.RejectedAmountGivesHold | app.py:165-191 | an AMOUNT that `float()` rejects turns the whole reply into hold 0, with a reason that quotes the error |
| Advice.ActionValueExample | app.py:164 | "ACTION: SELL" reads as "sell" |
| Advice.AmountTextExample | app.py:166-168 | "AMOUNT: 0.05 ETH" hands "0.05" to `float()` |
| Advice.WellFormedReplyExample | app.py:162-171 | the three lines ACTION: SELL, AMOUNT: 0.05 ETH and REASON: fees read as sell, 0.05 and "fees" |
| Ledger.Accounts.constructor | app.py:41-42 | the balances start at 200 USD and 0.2 ETH |
| Ledger.Accounts.GetCardBalance | app.py:358-360 | returns the card balance |
| Ledger.Accounts.SimulateEthSale | app.py:326-335 | takes the amount out of the wallet, leaves the card alone, and returns the given hash |
| Ledger.Accounts.AutoSellEthForCard | app.py:292-324 | the result is `SellEth` of the wallet before the call; the card is untouched; the wallet is debited by the ETH sold exactly when the sale succeeds |
| Ledger.Accounts.AutoTopup | app.py:337-356 | the sale as above; on success the card is credited with the amount; on failure nothing changes |
| Ledger.Accounts.UseCard | app.py:240-290 | the new balances and the outcome are those of `UseCardSpec` on the balances before the call |
| LedgerProperties.GuardFailuresChangeNothing | app.py:249-256 | an amount under the minimum fails as too low, reporting the minimum. An allowed amount over the card balance fails as insufficient. Either failure leaves both balances unchanged |
| LedgerProperties.SmallAmountsRejected | app.py:246-253 | any amount under 50 USD is rejected as too low, whatever the readings, and changes nothing |
| LedgerProperties.WithdrawalWithoutTopUp | app.py:255-287 | when the debited card stays at 100 USD or more, only the card changes, and the receipt reports the new balances |
| LedgerProperties.TopUpAmountBounds | app.py:263-268 | the top-up reaches the 200 USD target, is at least twice the minimum, and is at least 100 USD |
| LedgerProperties.WithdrawalWithTopUp | app.py:259-287 | when the sale succeeds at a non-zero price, the card holds the balance less the amount plus twice the top-up, and the wallet has lost the sale and topUp / price; the receipt reports these values; the card ends at 300 USD or more |
| LedgerProperties.TopUpDrawsWalletTwice | app.py:274-299 | valued at one price, the two debits of a top-up cost the top-up with its margin, plus the fee, plus the top-up again |
| LedgerProperties.FailedSaleKeepsWithdrawal | app.py:259-290 | a failed sale fails the transaction with the sale's own failure, which is re-raised through the top-up. The card stays debited and the wallet is untouched |
| LedgerProperties.ZeroPriceFailsAfterCredits | app.py:270-275 | when the sale succeeds but the first price reading is zero, the transaction fails only after the sale and both credits |
| LedgerProperties.CardStaysNonNegative | app.py:255-271 | a non-negative card balance stays non-negative |
| LedgerProperties.SellEthSpec | app.py:292-324 | the sale fails with ZeroSalePrice exactly on a zero price. At any other price it fails for lack of ETH exactly when the amount needed exceeds the wallet. A completed sale takes at most the wallet's ETH and reports the target, the hash and the advisor's suggestion. At a positive price, the ETH sold is worth the target with its margin plus the fee |
| LedgerProperties.HoldVetoNeedsNegativeSale | app.py:309-310 | the hold veto can only fire on a negative sale amount |
| LedgerProperties.HoldVetoIsDeadCode | app.py:298-310 | at a positive price and a non-negative target, the veto never fires |
| LedgerProperties.UseCardNeverVetoed | app.py:263-310 | no card transaction at a positive sale price fails on the advisor's veto |
| LedgerProperties.EndToEndExample | app.py:240-290 | at the fallback readings, a card at 150 USD with 0.2 ETH, withdrawing 80 USD, ends at 330 USD and 0.0657 ETH |
| LedgerProperties.WalletCanEndNegative | app.py:270-302 | with 0.07 ETH the same transaction completes, and the wallet ends at -0.0643 ETH |

## Left out

- The web framework: routes, the static page, JSON responses and the mapping of failures to HTTP
  status codes 400 and 500. `Ledger.Failure` names each failure instead.
- The status endpoint (lines 211-238). It only reads and combines the modelled functions.
- The on-chain price feed, the gas price reading, and their fallbacks of 2000 USD and 50 gwei. These readings are
  parameters (`Ledger.Readings`); `FallbackReadings` gives the fallback values.
- The advisor call, its prompt and its JSON-mode argument. The reply is a parameter
  (`Advice.Reply`). A call that fails, or whose content is not text, is `CallFailed`.
- The random transaction hashes. They are parameters.
- Logging, the debugging output, and `async`. They have no effect on the balances.
- Floating point. All amounts are exact reals, and `round` is exact round-half-even. Binary
  representation effects and infinities/NaN are not modelled.
- `float()` on text is the parameter `toFloat`. Its error message is modelled only as a
  function of the rejected text (`Advice.FloatErrorMessage`). That function always quotes the text
  with single quotes. Python's message uses `repr()`, which switches to double quotes and adds
  escapes for texts that contain `'` or `\`.
- Text.LowerSpec: only ASCII letters are lower-cased, whereas Python's `lower()` covers all of Unicode.
- The `except` fallback of the minimum profitable amount (line 117), and the `None`
  result of the threshold policy (line 387). Nothing inside those `try` blocks can raise once
  the readings are values.
- The `None` hash of the card transaction (line 369). Making a hash cannot fail in the
  model.
- The request validators (lines 49-59). `Ledger.Accounts.UseCard` requires `ValidRequest`,
  because the framework rejects other requests before the handler runs. The currency and
  the wallet address are otherwise unused.
- Concurrency: two requests interleaving at their `await` points. Each card transaction is
  modelled as running alone.
