/** The largest amount a list of outputs can send within a budget, found by binary search. */
module MaxAmount {
  import opened Fees
  import opened Outcomes
  import opened Selection

  /** Amount plus network fee of a successful selection. */
  function Cost(utxos: seq<Utxo>, amount: int, rate: real): int
    requires Select(utxos, amount, rate).Ok?
  {
    amount + Select(utxos, amount, rate).value.fee
  }

  predicate Fits(utxos: seq<Utxo>, amount: int, limit: int, rate: real) {
    Select(utxos, amount, rate).Ok? && Cost(utxos, amount, rate) <= limit
  }

  /** The largest sendable amount of at least dust with its fee, or nothing at all. */
  ghost predicate IsMaximum(utxos: seq<Utxo>, limit: int, rate: real, amount: int, fee: int) {
    && (amount == fee == 0 || (amount >= DUST_SATS && Fits(utxos, amount, limit, rate)
                               && fee == Select(utxos, amount, rate).value.fee))
    && forall other | other >= DUST_SATS && other > amount :: !Fits(utxos, other, limit, rate)
  }

  lemma {:induction false} TotalOfPrefix(utxos: seq<Utxo>, n: nat)
    requires n <= |utxos| && forall u | u in utxos :: u.amount > 0
    ensures Total(utxos[..n]) <= Total(utxos)
    ensures n < |utxos| ==> Total(utxos[..n]) < Total(utxos)
    decreases |utxos|
  {
    if n < |utxos| {
      var shorter := utxos[..|utxos| - 1];
      TotalOfPrefix(shorter, n);
      assert shorter[..n] == utxos[..n];
    } else {
      assert utxos[..n] == utxos;
    }
  }

  /** The cost of a settled selection never exceeds the inputs, and reaches amount + fee floor. */
  lemma SettledCost(inputs: seq<Utxo>, amount: int, rate: real)
    requires inputs != [] && rate > 0.0 && Pays(inputs, amount, rate)
    ensures var cost := amount + Settle(inputs, amount, rate).fee;
            && cost <= Total(inputs)
            && (cost == Total(inputs) || cost == amount + TxFee(|inputs|, 2, rate))
  {
  }

  /**
   * Success is downward closed and the total cost never falls as the amount grows, across
   * longer prefixes and across the jump between change and no change.
   */
  lemma CostMonotone(utxos: seq<Utxo>, small: int, large: int, rate: real)
    requires 0 < small <= large && rate > 0.0 && Select(utxos, large, rate).Ok?
    ensures Select(utxos, small, rate).Ok?
    ensures Cost(utxos, small, rate) <= Cost(utxos, large, rate)
  {
    var usable := Above(utxos, 0);
    AboveIsAbove(utxos, 0);
    var n, k := FirstPaying(usable, large, rate, 1), FirstPaying(usable, small, rate, 1);
    assert Pays(usable[..n], small, rate);
    assert k <= n;
    var prefix, longer := usable[..k], usable[..n];
    SettledCost(prefix, small, rate);
    SettledCost(longer, large, rate);
    if k < n {
      assert !Pays(prefix, large, rate);
      assert longer[..k] == prefix;
      TotalOfPrefix(longer, k);
      FeeMonotone(EstimateVSize(k, 1), EstimateVSize(n, 2), rate);
    }
  }

  /** Every amount below one that fits the budget fits it as well. */
  lemma FitsIsDownwardClosed(utxos: seq<Utxo>, small: int, large: int, limit: int, rate: real)
    requires 0 < small <= large && rate > 0.0 && Fits(utxos, large, limit, rate)
    ensures Fits(utxos, small, limit, rate)
  {
    CostMonotone(utxos, small, large, rate);
  }

  lemma FitsWithinLimit(utxos: seq<Utxo>, amount: int, limit: int, rate: real)
    requires Fits(utxos, amount, limit, rate)
    ensures amount <= limit && Select(utxos, amount, rate).value.fee >= 1
  {
    var usable := Above(utxos, 0);
    var n := FirstPaying(usable, amount, rate, 1);
    FeeIsLeastCover(EstimateVSize(n, 1), rate);
    FeeIsLeastCover(EstimateVSize(n, 2), rate);
  }

  /** maxBitcoinTransactionAmountAndFeeFromUTXOs with the rate and budget checks of its caller. */
  method MaxAmountAndFee(limit: int, utxos: seq<Utxo>, rate: real) returns (r: Outcome<(int, int)>)
    ensures rate <= 0.0 ==> r == Err(Validation)
    ensures rate > 0.0 ==> r.Ok? && IsMaximum(utxos, limit, rate, r.value.0, r.value.1)
  {
    if rate <= 0.0 {
      return Err(Validation);
    }
    var best, bestFee := 0, 0;
    var low, high := DUST_SATS, limit;
    assert forall other | other > high :: !Fits(utxos, other, limit, rate) by {
      forall other | other > high && Fits(utxos, other, limit, rate) ensures false {
        FitsWithinLimit(utxos, other, limit, rate);
      }
    }
    while low <= high
      invariant low >= DUST_SATS
      invariant (best == bestFee == 0 && low == DUST_SATS) || best == low - 1 >= DUST_SATS
      invariant best > 0 ==> Fits(utxos, best, limit, rate) && bestFee == Select(utxos, best, rate).value.fee
      invariant forall other | other > high && other >= DUST_SATS :: !Fits(utxos, other, limit, rate)
      decreases high - low
    {
      var candidate := low + (high - low) / 2;
      var selection := SelectUtxos(utxos, candidate, rate);
      if selection.Ok? && candidate + selection.value.fee <= limit {
        best, bestFee := candidate, selection.value.fee;
        low := candidate + 1;
        continue;
      }
      assert selection.Err? ==> selection.error == InsufficientFunds;
      assert !Fits(utxos, candidate, limit, rate);
      forall other | other > candidate - 1 && other >= DUST_SATS
        ensures !Fits(utxos, other, limit, rate)
      {
        if Fits(utxos, other, limit, rate) {
          FitsIsDownwardClosed(utxos, candidate, other, limit, rate);
        }
      }
      high := candidate - 1;
    }
    if best < DUST_SATS {
      return Ok((0, 0));
    }
    return Ok((best, bestFee));
  }
}
