/** The odds calculator: American odds and a stake to a total payout. */
module Odds {

  function Abs(x: real): (r: real)
    ensures r >= 0.0 && (r == x || r == -x)
  {
    if x < 0.0 then -x else x
  }

  /** The decimal-odds factor of American odds: what one point staked returns
      in total on a win. */
  function DecimalFactor(odds: real): (f: real)
    requires odds != 0.0
    ensures f > 1.0
  {
    if odds > 0.0 then odds / 100.0 + 1.0 else 100.0 / Abs(odds) + 1.0
  }

  /** `calculatePayout`: positive odds pay `odds` per 100 staked, negative odds
      pay 100 per `|odds|` staked, and the stake itself is returned on top. */
  function Payout(amount: real, odds: real): (p: real)
    requires odds != 0.0
    ensures p == amount * DecimalFactor(odds)
    ensures amount > 0.0 ==> p > amount
    ensures amount == 0.0 ==> p == 0.0
    ensures amount < 0.0 ==> p < amount
  {
    var p := if odds > 0.0 then amount * (odds / 100.0) + amount
             else amount * (100.0 / Abs(odds)) + amount;
    PayoutIsScaling(amount, odds, p);
    p
  }

  lemma PayoutIsScaling(amount: real, odds: real, p: real)
    requires odds != 0.0
    requires p == if odds > 0.0 then amount * (odds / 100.0) + amount
                  else amount * (100.0 / Abs(odds)) + amount
    ensures p == amount * DecimalFactor(odds)
    ensures amount > 0.0 ==> p > amount
    ensures amount == 0.0 ==> p == 0.0
    ensures amount < 0.0 ==> p < amount
  {
    var f := DecimalFactor(odds);
    assert p == amount * f;
    assert p - amount == amount * (f - 1.0);
    assert f - 1.0 > 0.0;
  }

  /** The winnings over the stake scale with the stake: payouts of two stakes
      at the same odds add up to the payout of their sum. */
  lemma PayoutAdditive(a1: real, a2: real, odds: real)
    requires odds != 0.0
    ensures Payout(a1 + a2, odds) == Payout(a1, odds) + Payout(a2, odds)
  {
    var f := DecimalFactor(odds);
    assert (a1 + a2) * f == a1 * f + a2 * f;
  }

  /** A stake of 100 at +150 pays 250; at -200 it pays 150. */
  lemma PayoutExamples()
    ensures Payout(100.0, 150.0) == 250.0
    ensures Payout(100.0, -200.0) == 150.0
  {
  }
}
