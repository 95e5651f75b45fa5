/** The withdrawal limit advertised to a merchant for BTC and LTC balances. */
module Limit {
  import opened Fees
  import opened Money
  import opened Outcomes
  import opened Selection
  import opened MaxAmount
  import Planner

  /** A wallet that could fund a withdrawal: its ledger balance and its unreserved outputs. */
  datatype FundingSource = FundingSource(id: nat, outbound: bool, balance: int, utxos: Outcome<seq<Utxo>>)

  datatype Maximum = Maximum(amount: int, fee: int)

  function Budget(s: FundingSource, merchantBalance: int): int {
    if merchantBalance < s.balance then merchantBalance else s.balance
  }

  /** The source has a budget and its outputs could be listed. */
  predicate Considered(s: FundingSource, merchantBalance: int) {
    Budget(s, merchantBalance) != 0 && s.utxos.Ok? && s.utxos.value != []
  }

  /** What a source adds to the outputs available after consolidating every wallet. */
  function Contribution(s: FundingSource, merchantBalance: int, rate: real, position: nat): seq<Utxo> {
    if !Considered(s, merchantBalance) then []
    else if s.outbound then s.utxos.value
    else
      var sweep := Sweep(s.utxos.value, rate);
      if sweep.Err? || sweep.value.amount < DUST_SATS then []
      else [Utxo("consolidated-" + Digits(s.id), position, sweep.value.amount, "", 0)]
  }

  function Pool(sources: seq<FundingSource>, merchantBalance: int, rate: real): seq<Utxo> {
    if sources == [] then []
    else
      var rest := Pool(sources[..|sources| - 1], merchantBalance, rate);
      rest + Contribution(sources[|sources| - 1], merchantBalance, rate, |rest|)
  }

  /** The largest amount of one considered source. */
  ghost predicate IsSingleMaximum(sources: seq<FundingSource>, merchantBalance: int, rate: real, m: Maximum) {
    exists s | s in sources ::
      Considered(s, merchantBalance) && IsMaximum(s.utxos.value, Budget(s, merchantBalance), rate, m.amount, m.fee)
  }

  /** The largest amount of the consolidated outputs. */
  ghost predicate IsPoolMaximum(sources: seq<FundingSource>, merchantBalance: int, rate: real, m: Maximum) {
    var pool := Pool(sources, merchantBalance, rate);
    pool != [] && IsMaximum(pool, merchantBalance, rate, m.amount, m.fee)
  }

  /** The maximum of a list of outputs within a budget is unique. */
  lemma OnlyOneMaximum(utxos: seq<Utxo>, limit: int, rate: real, amount: int, fee: int)
    requires IsMaximum(utxos, limit, rate, amount, fee)
    ensures forall other, otherFee | IsMaximum(utxos, limit, rate, other, otherFee) ::
              other == amount && otherFee == fee
  {
  }

  /** The best maximum of the single sources seen so far. */
  ghost predicate Best(sources: seq<FundingSource>, merchantBalance: int, rate: real, best: Maximum) {
    && best.amount >= 0
    && (best == Maximum(0, 0) || IsSingleMaximum(sources, merchantBalance, rate, best))
    && Affordable(best, merchantBalance)
    && (rate > 0.0 ==> NoneBetter(sources, merchantBalance, rate, best.amount))
  }

  ghost predicate NoneBetter(sources: seq<FundingSource>, merchantBalance: int, rate: real, amount: int) {
    forall m | IsSingleMaximum(sources, merchantBalance, rate, m) :: m.amount <= amount
  }

  predicate Affordable(m: Maximum, merchantBalance: int) {
    m.amount != 0 ==> m.amount >= DUST_SATS && m.amount + m.fee <= merchantBalance
  }

  /** The larger of the maximum so far and a newly computed one. */
  function Better(best: Maximum, computed: Outcome<(int, int)>): Maximum {
    if computed.Ok? && computed.value.0 > best.amount then Maximum(computed.value.0, computed.value.1) else best
  }

  lemma PoolGrows(sources: seq<FundingSource>, i: nat, merchantBalance: int, rate: real)
    requires i < |sources|
    ensures var rest := Pool(sources[..i], merchantBalance, rate);
            Pool(sources[..i + 1], merchantBalance, rate) ==
            rest + Contribution(sources[i], merchantBalance, rate, |rest|)
  {
    assert sources[..i + 1][..i] == sources[..i];
  }

  /** The single maxima of one more source are those before and its own. */
  lemma OneMoreSource(sources: seq<FundingSource>, i: nat, merchantBalance: int, rate: real, m: Maximum)
    requires i < |sources|
    ensures IsSingleMaximum(sources[..i + 1], merchantBalance, rate, m) <==>
            || IsSingleMaximum(sources[..i], merchantBalance, rate, m)
            || (Considered(sources[i], merchantBalance)
                && IsMaximum(sources[i].utxos.value, Budget(sources[i], merchantBalance), rate, m.amount, m.fee))
  {
    assert sources[..i + 1] == sources[..i] + [sources[i]];
    assert sources[i] in sources[..i + 1];
  }

  lemma SkipSource(sources: seq<FundingSource>, i: nat, merchantBalance: int, rate: real, best: Maximum)
    requires i < |sources| && !Considered(sources[i], merchantBalance)
    requires Best(sources[..i], merchantBalance, rate, best)
    ensures Best(sources[..i + 1], merchantBalance, rate, best)
  {
    OneMoreSource(sources, i, merchantBalance, rate, best);
    forall m | IsSingleMaximum(sources[..i + 1], merchantBalance, rate, m)
      ensures IsSingleMaximum(sources[..i], merchantBalance, rate, m)
    {
      OneMoreSource(sources, i, merchantBalance, rate, m);
    }
  }

  lemma TakeSource(
    sources: seq<FundingSource>, i: nat, merchantBalance: int, rate: real, best: Maximum, computed: Outcome<(int, int)>)
    requires i < |sources| && Best(sources[..i], merchantBalance, rate, best) && Considered(sources[i], merchantBalance)
    requires rate > 0.0 ==> computed.Ok?
    requires computed.Ok? ==>
               IsMaximum(
                 sources[i].utxos.value, Budget(sources[i], merchantBalance), rate, computed.value.0, computed.value.1)
    ensures Best(sources[..i + 1], merchantBalance, rate, Better(best, computed))
  {
    OneMoreSource(sources, i, merchantBalance, rate, best);
    OneMoreSource(sources, i, merchantBalance, rate, Better(best, computed));
    if rate > 0.0 {
      var limit := Budget(sources[i], merchantBalance);
      forall m | IsSingleMaximum(sources[..i + 1], merchantBalance, rate, m)
        ensures m.amount <= Better(best, computed).amount
      {
        OneMoreSource(sources, i, merchantBalance, rate, m);
        if !IsSingleMaximum(sources[..i], merchantBalance, rate, m) {
          OnlyOneMaximum(sources[i].utxos.value, limit, rate, computed.value.0, computed.value.1);
        }
      }
    }
  }

  /** What the advertised maximum is. */
  ghost predicate IsLimit(sources: seq<FundingSource>, merchantBalance: int, rate: real, m: Maximum) {
    && (m == Maximum(0, 0) || IsSingleMaximum(sources, merchantBalance, rate, m)
        || IsPoolMaximum(sources, merchantBalance, rate, m))
    && Affordable(m, merchantBalance)
    && (rate > 0.0 ==> forall other |
          IsSingleMaximum(sources, merchantBalance, rate, other)
          || IsPoolMaximum(sources, merchantBalance, rate, other) ::
          other.amount <= m.amount)
  }

  lemma PoolDecides(
    sources: seq<FundingSource>, merchantBalance: int, rate: real, best: Maximum, computed: Outcome<(int, int)>)
    requires Best(sources, merchantBalance, rate, best) && Pool(sources, merchantBalance, rate) != []
    requires rate > 0.0 ==> computed.Ok?
    requires computed.Ok? ==>
               IsMaximum(
                 Pool(sources, merchantBalance, rate), merchantBalance, rate, computed.value.0, computed.value.1)
    ensures IsLimit(sources, merchantBalance, rate, Better(best, computed))
  {
    if rate > 0.0 {
      OnlyOneMaximum(
        Pool(sources, merchantBalance, rate), merchantBalance, rate, computed.value.0, computed.value.1);
    }
  }

  /** maxUTXOWithdrawalLimit: the best of all single sources and of their consolidation. */
  method MaxWithdrawalLimit(sources: seq<FundingSource>, merchantBalance: int, rate: real)
    returns (r: Outcome<Maximum>)
    ensures rate > 0.0 ==> r.Ok?
    ensures r.Ok? ==> IsLimit(sources, merchantBalance, rate, r.value)
  {
    var maximum := Maximum(0, 0);
    var consolidated: seq<Utxo> := [];
    for i := 0 to |sources|
      invariant consolidated == Pool(sources[..i], merchantBalance, rate)
      invariant Best(sources[..i], merchantBalance, rate, maximum)
    {
      var source := sources[i];
      PoolGrows(sources, i, merchantBalance, rate);
      var maxTotalCost := source.balance;
      if merchantBalance < maxTotalCost {
        maxTotalCost := merchantBalance;
      }
      if maxTotalCost == 0 || source.utxos.Err? || |source.utxos.value| == 0 {
        SkipSource(sources, i, merchantBalance, rate, maximum);
        continue;
      }
      var spendable := MaxAmountAndFee(maxTotalCost, source.utxos.value, rate);
      TakeSource(sources, i, merchantBalance, rate, maximum, spendable);
      if spendable.Ok? && spendable.value.0 > maximum.amount {
        maximum := Maximum(spendable.value.0, spendable.value.1);
      }
      if source.outbound {
        consolidated := consolidated + source.utxos.value;
        continue;
      }
      var sweep := SweepUtxos(source.utxos.value, rate);
      if sweep.Err? || sweep.value.amount < DUST_SATS {
        continue;
      }
      consolidated := consolidated
        + [Utxo("consolidated-" + Digits(source.id), |consolidated|, sweep.value.amount, "", 0)];
    }
    assert sources[..|sources|] == sources;
    if |consolidated| == 0 {
      return Ok(maximum);
    }
    var pooled := MaxAmountAndFee(merchantBalance, consolidated, rate);
    if pooled.Err? {
      if pooled.error == InsufficientFunds {
        return Ok(maximum);
      }
      return Err(pooled.error);
    }
    PoolDecides(sources, merchantBalance, rate, maximum, pooled);
    if pooled.value.0 > maximum.amount {
      maximum := Maximum(pooled.value.0, pooled.value.1);
    }
    return Ok(maximum);
  }

  // ----- honesty of the limit -----

  /** Balance.Covers: subtract the expenses one by one, none may overdraw. */
  function Covers(balance: Money, expenses: seq<Money>): Outcome<Money> {
    if expenses == [] then Ok(balance)
    else
      var earlier := Covers(balance, expenses[..|expenses| - 1]);
      if earlier.Err? then earlier else earlier.value.Sub(expenses[|expenses| - 1])
  }

  /** Balance.Covers as the loop over the expenses; `Covers` also says what is left. */
  method CheckCovers(balance: Money, expenses: seq<Money>) returns (error: Option<Error>)
    ensures error == if Covers(balance, expenses).Ok? then None else Some(Covers(balance, expenses).error)
  {
    var amount := balance;
    for i := 0 to |expenses|
      invariant Covers(balance, expenses[..i]) == Ok(amount)
    {
      assert expenses[..i + 1][..i] == expenses[..i];
      var left := amount.Sub(expenses[i]);
      if left.Err? {
        FirstUncovered(balance, expenses, i + 1);
        return Some(left.error);
      }
      amount := left.value;
    }
    assert expenses[..|expenses|] == expenses;
    return None;
  }

  /** The first expense that is not covered decides. */
  lemma {:induction false} FirstUncovered(balance: Money, expenses: seq<Money>, n: nat)
    requires n <= |expenses| && Covers(balance, expenses[..n]).Err?
    ensures Covers(balance, expenses) == Covers(balance, expenses[..n])
    decreases |expenses|
  {
    if n < |expenses| {
      assert expenses[..|expenses| - 1][..n] == expenses[..n];
      FirstUncovered(balance, expenses[..|expenses| - 1], n);
    } else {
      assert expenses[..n] == expenses;
    }
  }

  /** For expenses of the balance's own currency, covering means that the sum is affordable. */
  lemma CoversAmountAndFee(balance: Money, amount: Money, fee: Money)
    requires balance.CompatibleTo(amount) && balance.CompatibleTo(fee) && amount.value >= 0 && fee.value >= 0
    ensures Covers(balance, [amount, fee]).Ok? <==> amount.value + fee.value <= balance.value
  {
    var one, both := [amount], [amount, fee];
    assert one[..0] == [] && both[..1] == one;
    assert Covers(balance, one[..0]) == Ok(balance);
    assert Covers(balance, one) == balance.Sub(one[0]);
  }

  /**
   * Every amount from dust up to the maximum of a source can be planned on the same outputs,
   * and the merchant's balance covers it together with the fee of that plan.
   */
  lemma OwnMaximumIsHonest(
    s: FundingSource, merchant: Money, own: Maximum, amount: Money,
    quote: Planner.Quote, sender: string, recipient: string, source: Planner.Source, excluded: set<UtxoKey>)
    requires Planner.IsUtxoChain(quote.chain) && quote.nativeCoin && amount.ticker == quote.ticker
    requires Planner.CheckedRate(quote, sender, recipient, source).Ok?
    requires s.utxos == Planner.Candidates(sender, source, excluded) && Considered(s, merchant.value)
    requires IsMaximum(s.utxos.value, Budget(s, merchant.value), quote.rate.value, own.amount, own.fee)
    requires amount.kind == Crypto && amount.decimals == 8 && merchant.CompatibleTo(amount)
    requires merchant.value <= Planner.MAX_INT64
    requires DUST_SATS <= amount.value <= own.amount
    ensures var plan := Planner.Transaction(quote, sender, recipient, amount, source, excluded);
            plan.Ok? && Covers(merchant, [amount, amount.(value := plan.value.fee)]).Ok?
  {
    var limit, rate := Budget(s, merchant.value), quote.rate.value;
    FitsIsDownwardClosed(s.utxos.value, amount.value, own.amount, limit, rate);
    FitsWithinLimit(s.utxos.value, amount.value, limit, rate);
    var plan := Planner.Transaction(quote, sender, recipient, amount, source, excluded);
    CoversAmountAndFee(merchant, amount, amount.(value := plan.value.fee));
  }
}
