/** Greedy coin selection and sweep selection over a list of unspent outputs. */
module Selection {
  import opened Fees
  import opened Outcomes

  datatype UtxoKey = UtxoKey(hash: string, index: nat)

  datatype Utxo = Utxo(hash: string, index: nat, amount: int, address: string, blockNumber: int) {
    function Key(): UtxoKey { UtxoKey(hash, index) }
  }

  /** Chosen inputs, the fee they pay, the change they return and the estimated size. */
  datatype Selected = Selected(inputs: seq<Utxo>, fee: int, change: int, vsize: int)

  /** The inputs of a sweep, the amount that arrives, the fee and the estimated size. */
  datatype Swept = Swept(inputs: seq<Utxo>, amount: int, fee: int, vsize: int)

  function Total(utxos: seq<Utxo>): int {
    if utxos == [] then 0 else Total(utxos[..|utxos| - 1]) + utxos[|utxos| - 1].amount
  }

  /** The outputs worth more than `floor`, in their original order. */
  function Above(utxos: seq<Utxo>, floor: int): seq<Utxo> {
    if utxos == [] then []
    else
      var rest := Above(utxos[..|utxos| - 1], floor);
      var last := utxos[|utxos| - 1];
      if last.amount > floor then rest + [last] else rest
  }

  /** The inputs cover the amount and the fee of a transaction without change. */
  predicate Pays(inputs: seq<Utxo>, amount: int, rate: real) {
    Total(inputs) - amount >= TxFee(|inputs|, 1, rate)
  }

  /** No non-empty prefix of at most `k` inputs pays. */
  ghost predicate NonePays(utxos: seq<Utxo>, k: nat, amount: int, rate: real)
    requires k <= |utxos|
  {
    forall m | 1 <= m <= k :: !Pays(utxos[..m], amount, rate)
  }

  /** The length of the shortest paying prefix that is at least `n`, or |utxos| + 1. */
  function FirstPaying(utxos: seq<Utxo>, amount: int, rate: real, n: nat): (k: nat)
    requires 1 <= n <= |utxos| + 1
    ensures n <= k <= |utxos| + 1
    ensures k <= |utxos| ==> Pays(utxos[..k], amount, rate)
    ensures NonePays(utxos, n - 1, amount, rate) ==> NonePays(utxos, k - 1, amount, rate)
    decreases |utxos| + 1 - n
  {
    if n > |utxos| || Pays(utxos[..n], amount, rate) then n
    else FirstPaying(utxos, amount, rate, n + 1)
  }

  /** Change is returned only when it is not dust; otherwise the excess becomes the fee. */
  function Settle(inputs: seq<Utxo>, amount: int, rate: real): Selected {
    var feeWithChange := TxFee(|inputs|, 2, rate);
    var change := Total(inputs) - amount - feeWithChange;
    if change >= DUST_SATS then Selected(inputs, feeWithChange, change, EstimateVSize(|inputs|, 2))
    else Selected(inputs, Total(inputs) - amount, 0, EstimateVSize(|inputs|, 1))
  }

  /** Reference definition: settle with the shortest prefix that pays. */
  function Select(utxos: seq<Utxo>, amount: int, rate: real): Outcome<Selected> {
    if amount <= 0 || rate <= 0.0 then Err(Validation)
    else
      var usable := Above(utxos, 0);
      var n := FirstPaying(usable, amount, rate, 1);
      if n > |usable| then Err(InsufficientFunds) else Ok(Settle(usable[..n], amount, rate))
  }

  lemma TotalAppend(utxos: seq<Utxo>, u: Utxo)
    ensures Total(utxos + [u]) == Total(utxos) + u.amount
  {
    assert (utxos + [u])[..|utxos|] == utxos;
  }

  lemma AboveAppend(utxos: seq<Utxo>, u: Utxo, floor: int)
    ensures Above(utxos + [u], floor) == Above(utxos, floor) + (if u.amount > floor then [u] else [])
  {
    assert (utxos + [u])[..|utxos|] == utxos;
  }

  lemma {:induction false} AboveIsAbove(utxos: seq<Utxo>, floor: int)
    ensures forall u :: u in Above(utxos, floor) ==> u in utxos && u.amount > floor
  {
    if utxos != [] {
      AboveIsAbove(utxos[..|utxos| - 1], floor);
    }
  }

  /** What survives in a prefix of the list is a prefix of what survives in the list. */
  lemma {:induction false} AbovePrefix(utxos: seq<Utxo>, i: nat, floor: int)
    requires i <= |utxos|
    ensures Above(utxos[..i], floor) <= Above(utxos, floor)
    decreases |utxos|
  {
    if i < |utxos| {
      var shorter := utxos[..|utxos| - 1];
      AbovePrefix(shorter, i, floor);
      assert shorter[..i] == utxos[..i];
    } else {
      assert utxos[..i] == utxos;
    }
  }

  /** Either of the two tests of the selector succeeds exactly when the inputs pay without change. */
  lemma PayingRule(inputs: seq<Utxo>, amount: int, rate: real)
    requires inputs != [] && rate > 0.0
    ensures Total(inputs) - amount - TxFee(|inputs|, 2, rate) >= DUST_SATS ==> Pays(inputs, amount, rate)
    ensures Pays(inputs, amount, rate) ==> Total(inputs) - amount >= 1
  {
    FeeMonotone(EstimateVSize(|inputs|, 1), EstimateVSize(|inputs|, 2), rate);
    FeeIsLeastCover(EstimateVSize(|inputs|, 1), rate);
  }

  /** When no shorter prefix pays, the next one is the first to pay or does not pay either. */
  lemma NextPrefix(usable: seq<Utxo>, n: nat, amount: int, rate: real)
    requires 1 <= n <= |usable| && NonePays(usable, n - 1, amount, rate)
    ensures if Pays(usable[..n], amount, rate) then FirstPaying(usable, amount, rate, 1) == n
            else NonePays(usable, n, amount, rate)
  {
    assert NonePays(usable, 0, amount, rate);
    var k := FirstPaying(usable, amount, rate, 1);
    assert k >= n;
  }

  /** The selector has taken every usable one of the first `i` outputs, and they do not pay. */
  ghost predicate Undecided(utxos: seq<Utxo>, i: nat, selected: seq<Utxo>, amount: int, rate: real) {
    && i <= |utxos| && selected == Above(utxos[..i], 0) && selected <= Above(utxos, 0)
    && NonePays(Above(utxos, 0), |selected|, amount, rate)
  }

  lemma SkipUseless(utxos: seq<Utxo>, i: nat, selected: seq<Utxo>, amount: int, rate: real)
    requires Undecided(utxos, i, selected, amount, rate) && i < |utxos| && utxos[i].amount <= 0
    ensures Undecided(utxos, i + 1, selected, amount, rate)
  {
    assert utxos[..i + 1][..i] == utxos[..i];
  }

  /** One more usable output joins the greedy selection. */
  lemma Grow(utxos: seq<Utxo>, i: nat)
    requires i < |utxos| && utxos[i].amount > 0
    ensures var selected := Above(utxos[..i], 0) + [utxos[i]];
            Above(utxos[..i + 1], 0) == selected && selected <= Above(utxos, 0)
  {
    assert utxos[..i + 1][..i] == utxos[..i];
    AbovePrefix(utxos, i + 1, 0);
  }

  /** The grown selection completes the greedy selection or leaves it incomplete. */
  lemma Extend(utxos: seq<Utxo>, selected: seq<Utxo>, amount: int, rate: real)
    requires amount > 0 && rate > 0.0 && selected != [] && selected <= Above(utxos, 0)
    requires NonePays(Above(utxos, 0), |selected| - 1, amount, rate)
    ensures if Pays(selected, amount, rate)
            then Select(utxos, amount, rate) == Ok(Settle(selected, amount, rate))
            else NonePays(Above(utxos, 0), |selected|, amount, rate)
  {
    assert selected == Above(utxos, 0)[..|selected|];
    NextPrefix(Above(utxos, 0), |selected|, amount, rate);
  }

  /** The result of the two tests for inputs that leave `left` beyond the amount, if one of them succeeds. */
  function Tested(inputs: seq<Utxo>, left: int, rate: real): Option<Selected> {
    var feeWithChange := TxFee(|inputs|, 2, rate);
    if left - feeWithChange >= DUST_SATS
    then Some(Selected(inputs, feeWithChange, left - feeWithChange, EstimateVSize(|inputs|, 2)))
    else if left >= TxFee(|inputs|, 1, rate) then Some(Selected(inputs, left, 0, EstimateVSize(|inputs|, 1)))
    else None
  }

  /** One of the two tests succeeds exactly when the inputs pay, and then it settles. */
  lemma TestsDecide(inputs: seq<Utxo>, amount: int, rate: real)
    requires inputs != [] && rate > 0.0
    ensures Tested(inputs, Total(inputs) - amount, rate) ==
            if Pays(inputs, amount, rate) then Some(Settle(inputs, amount, rate)) else None
  {
    PayingRule(inputs, amount, rate);
  }

  /** The grown selection is the next beginning of the usable outputs. */
  lemma Grown(utxos: seq<Utxo>, i: nat, selected: seq<Utxo>, amount: int, rate: real)
    requires Undecided(utxos, i, selected, amount, rate) && i < |utxos| && utxos[i].amount > 0
    ensures var grown := selected + [utxos[i]];
            && grown == Above(utxos[..i + 1], 0) && grown <= Above(utxos, 0)
            && NonePays(Above(utxos, 0), |grown| - 1, amount, rate)
            && Total(grown) == Total(selected) + utxos[i].amount
  {
    Grow(utxos, i);
    TotalAppend(selected, utxos[i]);
  }

  /** The tests on the grown selection give the answer or leave it open. */
  lemma Decide(utxos: seq<Utxo>, i: nat, selected: seq<Utxo>, amount: int, rate: real)
    requires amount > 0 && rate > 0.0 && Undecided(utxos, i, selected, amount, rate)
    requires i < |utxos| && utxos[i].amount > 0
    ensures var grown := selected + [utxos[i]];
            && Total(grown) == Total(selected) + utxos[i].amount
            && match Tested(grown, Total(grown) - amount, rate)
               case Some(answer) => Select(utxos, amount, rate) == Ok(answer)
               case None => Undecided(utxos, i + 1, grown, amount, rate)
  {
    Grown(utxos, i, selected, amount, rate);
    TestsDecide(selected + [utxos[i]], amount, rate);
    Extend(utxos, selected + [utxos[i]], amount, rate);
  }

  /** When all outputs are taken and do not pay, nothing does. */
  lemma NothingLeft(utxos: seq<Utxo>, selected: seq<Utxo>, amount: int, rate: real)
    requires amount > 0 && rate > 0.0 && Undecided(utxos, |utxos|, selected, amount, rate)
    ensures Select(utxos, amount, rate) == Err(InsufficientFunds)
  {
    assert utxos[..|utxos|] == utxos;
  }

  /** The tests of the loop body: enough for change, or enough without it. */
  method TestInputs(selected: seq<Utxo>, inputTotal: int, amount: int, rate: real) returns (answer: Option<Selected>)
    requires rate > 0.0
    ensures answer == Tested(selected, inputTotal - amount, rate)
  {
    FeeIsLeastCover(EstimateVSize(|selected|, 1), rate);
    var feeWithChange := FeeSats(EstimateVSize(|selected|, 2), rate);
    var change := inputTotal - amount - feeWithChange;
    if change >= DUST_SATS {
      return Some(Selected(selected, feeWithChange, change, EstimateVSize(|selected|, 2)));
    }
    var feeWithoutChange := inputTotal - amount;
    if feeWithoutChange >= FeeSats(EstimateVSize(|selected|, 1), rate) && feeWithoutChange >= 0 {
      return Some(Selected(selected, feeWithoutChange, 0, EstimateVSize(|selected|, 1)));
    }
    return None;
  }

  /** selectBitcoinUTXOs: grow the input list until the amount and a fee are covered. */
  method SelectUtxos(utxos: seq<Utxo>, amount: int, rate: real) returns (r: Outcome<Selected>)
    ensures r == Select(utxos, amount, rate)
  {
    if amount <= 0 || rate <= 0.0 {
      return Err(Validation);
    }
    var selected: seq<Utxo> := [];
    var inputTotal := 0;
    for i := 0 to |utxos|
      invariant Undecided(utxos, i, selected, amount, rate) && inputTotal == Total(selected)
    {
      if utxos[i].amount <= 0 {
        SkipUseless(utxos, i, selected, amount, rate);
        continue;
      }
      Decide(utxos, i, selected, amount, rate);
      selected := selected + [utxos[i]];
      inputTotal := inputTotal + utxos[i].amount;
      var answer := TestInputs(selected, inputTotal, amount, rate);
      if answer.Some? {
        return Ok(answer.value);
      }
    }
    NothingLeft(utxos, selected, amount, rate);
    return Err(InsufficientFunds);
  }

  /** Reference definition of a sweep: every output worth more than the price of spending it. */
  function Sweep(utxos: seq<Utxo>, rate: real): Outcome<Swept> {
    if rate <= 0.0 then Err(Validation)
    else
      var kept := Above(utxos, FeeSats(INPUT_VBYTES, rate));
      var fee := TxFee(|kept|, 1, rate);
      if kept == [] || Total(kept) - fee < DUST_SATS then Err(InsufficientFunds)
      else Ok(Swept(kept, Total(kept) - fee, fee, EstimateVSize(|kept|, 1)))
  }

  /** selectBitcoinSweepUTXOs. */
  method SweepUtxos(utxos: seq<Utxo>, rate: real) returns (r: Outcome<Swept>)
    ensures r == Sweep(utxos, rate)
  {
    if rate <= 0.0 {
      return Err(Validation);
    }
    var selected: seq<Utxo> := [];
    var inputTotal := 0;
    var perInputFee := FeeSats(68, rate);
    for i := 0 to |utxos|
      invariant selected == Above(utxos[..i], perInputFee)
      invariant inputTotal == Total(selected)
    {
      assert utxos[..i + 1] == utxos[..i] + [utxos[i]];
      AboveAppend(utxos[..i], utxos[i], perInputFee);
      if utxos[i].amount <= perInputFee {
        continue;
      }
      TotalAppend(selected, utxos[i]);
      selected := selected + [utxos[i]];
      inputTotal := inputTotal + utxos[i].amount;
    }
    assert utxos[..|utxos|] == utxos;
    if |selected| == 0 {
      return Err(InsufficientFunds);
    }
    var vsize := EstimateVSize(|selected|, 1);
    var fee := FeeSats(vsize, rate);
    var amount := inputTotal - fee;
    if amount < DUST_SATS {
      return Err(InsufficientFunds);
    }
    return Ok(Swept(selected, amount, fee, vsize));
  }
}
