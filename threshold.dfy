/** The card threshold policy (`app.py`, lines 27-28 and 371-387): below 100 USD the card
    should be topped up to 200 USD, otherwise nothing is done. */
module Threshold {
  import opened Rounding

  const CARD_MIN_THRESHOLD: real := 100.0
  const CARD_TARGET_BALANCE: real := 200.0

  datatype DecisionAction = TopUp | Skip

  /** The explanation attached to a decision; the source renders it as text around the balance. */
  datatype DecisionReason = BelowThreshold(balance: real) | AboveThreshold(balance: real)

  datatype Decision = Decision(action: DecisionAction, amount: real, reason: DecisionReason)

  /** `check_card_balance(balance)` */
  function CheckCardBalance(balance: real): Decision
  {
    if balance < CARD_MIN_THRESHOLD then
      Decision(TopUp, Round2(CARD_TARGET_BALANCE - balance), BelowThreshold(balance))
    else
      Decision(Skip, 0.0, AboveThreshold(balance))
  }

  /** A top-up is advised exactly when the balance is below 100; its amount brings the balance
      to 200 up to half a cent (exactly, for a balance in whole cents) and is at least 100;
      otherwise the amount is 0. */
  lemma CheckCardBalanceSpec(balance: real)
    ensures CheckCardBalance(balance).action == TopUp <==> balance < CARD_MIN_THRESHOLD
    ensures CheckCardBalance(balance).action == TopUp ==>
      && CARD_TARGET_BALANCE - 0.005 <= balance + CheckCardBalance(balance).amount <= CARD_TARGET_BALANCE + 0.005
      && CheckCardBalance(balance).amount >= CARD_TARGET_BALANCE - CARD_MIN_THRESHOLD
    ensures CheckCardBalance(balance).action == Skip ==> CheckCardBalance(balance).amount == 0.0
    ensures (balance * 100.0).Floor as real == balance * 100.0 && balance < CARD_MIN_THRESHOLD ==>
      balance + CheckCardBalance(balance).amount == CARD_TARGET_BALANCE
  {
    var gap := CARD_TARGET_BALANCE - balance;
    Round2Error(gap);
    Round2Bounds(gap, 10000);
    var cents := 20000 - (balance * 100.0).Floor;
    if (balance * 100.0).Floor as real == balance * 100.0 {
      assert gap == cents as real / 100.0;
      Round2Bounds(gap, cents);
    }
  }

  /** The two cases given for the policy: 250 USD needs nothing, 80 USD needs 120 USD. */
  lemma CheckCardBalanceExamples()
    ensures CheckCardBalance(250.0) == Decision(Skip, 0.0, AboveThreshold(250.0))
    ensures CheckCardBalance(80.0) == Decision(TopUp, 120.0, BelowThreshold(80.0))
  {
    Round2Bounds(120.0, 12000);
  }
}
