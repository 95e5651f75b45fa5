/** What the greedy selector and the sweep achieve among all sub-collections of the outputs. */
module Optimality {
  import opened Fees
  import opened Outcomes
  import opened Picks
  import opened Selection

  function Amounts(utxos: seq<Utxo>): seq<int> {
    seq(|utxos|, i requires 0 <= i < |utxos| => utxos[i].amount)
  }

  ghost predicate AllPositive(utxos: seq<Utxo>) {
    forall u | u in utxos :: u.amount > 0
  }

  /** The picked outputs cover the amount plus the fee of spending exactly them into one output. */
  ghost predicate PicksPay(utxos: seq<Utxo>, picks: seq<bool>, amount: int, rate: real)
    requires |picks| == |utxos|
  {
    Count(picks) > 0 && PickedSum(Amounts(utxos), picks) >= amount + TxFee(Count(picks), 1, rate)
  }

  lemma {:induction false} TotalIsSum(utxos: seq<Utxo>)
    ensures Total(utxos) == Sum(Amounts(utxos))
  {
    if utxos != [] {
      var k := |utxos| - 1;
      TotalIsSum(utxos[..k]);
      assert Amounts(utxos)[..k] == Amounts(utxos[..k]);
    }
  }

  lemma {:induction false} AboveKeepsAll(utxos: seq<Utxo>, floor: int)
    requires forall u | u in utxos :: u.amount > floor
    ensures Above(utxos, floor) == utxos
  {
    if utxos != [] {
      var k := |utxos| - 1;
      AboveKeepsAll(utxos[..k], floor);
      assert utxos == utxos[..k] + [utxos[k]];
    }
  }

  /** A sub-collection can pay only if the equally long prefix of the sorted list can. */
  lemma PrefixPaysToo(utxos: seq<Utxo>, picks: seq<bool>, amount: int, rate: real)
    requires |picks| == |utxos| && Descending(Amounts(utxos))
    requires PicksPay(utxos, picks, amount, rate)
    ensures Pays(utxos[..Count(picks)], amount, rate)
  {
    var n := Count(picks);
    TopSum(Amounts(utxos), picks);
    TotalIsSum(utxos[..n]);
    assert Amounts(utxos[..n]) == Amounts(utxos)[..n];
  }

  /** On a sorted list, a sub-collection that pays bounds the number of inputs of the selector. */
  lemma GreedyUsesFewest(utxos: seq<Utxo>, picks: seq<bool>, amount: int, rate: real)
    requires |picks| == |utxos| && Descending(Amounts(utxos)) && AllPositive(utxos)
    requires amount > 0 && rate > 0.0 && PicksPay(utxos, picks, amount, rate)
    ensures Select(utxos, amount, rate).Ok?
    ensures |Select(utxos, amount, rate).value.inputs| <= Count(picks)
  {
    AboveKeepsAll(utxos, 0);
    PrefixPaysToo(utxos, picks, amount, rate);
    var n := FirstPaying(utxos, amount, rate, 1);
    assert n <= Count(picks);
  }

  /** Selection succeeds exactly when some sub-collection of the sorted outputs can pay. */
  lemma GreedyIsComplete(utxos: seq<Utxo>, amount: int, rate: real)
    requires Descending(Amounts(utxos)) && AllPositive(utxos) && amount > 0 && rate > 0.0
    ensures Select(utxos, amount, rate).Ok? <==>
            exists picks: seq<bool> | |picks| == |utxos| :: PicksPay(utxos, picks, amount, rate)
    ensures Select(utxos, amount, rate).Err? ==> Select(utxos, amount, rate).error == InsufficientFunds
  {
    if picks: seq<bool> :| |picks| == |utxos| && PicksPay(utxos, picks, amount, rate) {
      GreedyUsesFewest(utxos, picks, amount, rate);
    }
    if Select(utxos, amount, rate).Ok? {
      AboveKeepsAll(utxos, 0);
      var n := FirstPaying(utxos, amount, rate, 1);
      var leading := Leading(n, |utxos|);
      LeadingPicksPrefix(Amounts(utxos), n);
      TotalIsSum(utxos[..n]);
      assert Amounts(utxos[..n]) == Amounts(utxos)[..n];
      assert PicksPay(utxos, leading, amount, rate);
    }
  }

  // ----- sweep -----

  /** What arrives when exactly the picked outputs are swept. */
  function NetOf(utxos: seq<Utxo>, picks: seq<bool>, rate: real): int
    requires |picks| == |utxos|
  {
    PickedSum(Amounts(utxos), picks) - TxFee(Count(picks), 1, rate)
  }

  /** What arrives when every output above the price of an input is swept. */
  function NetOfSweep(utxos: seq<Utxo>, rate: real): int {
    var kept := Above(utxos, FeeSats(INPUT_VBYTES, rate));
    Total(kept) - TxFee(|kept|, 1, rate)
  }

  /** How many picked outputs are not worth more than `floor`. */
  function Extra(utxos: seq<Utxo>, picks: seq<bool>, floor: int): nat
    requires |picks| == |utxos|
  {
    if utxos == [] then 0
    else
      var k := |utxos| - 1;
      Extra(utxos[..k], picks[..k], floor) + (if picks[k] && utxos[k].amount <= floor then 1 else 0)
  }

  /** How many outputs worth more than `floor` are not picked. */
  function Dropped(utxos: seq<Utxo>, picks: seq<bool>, floor: int): nat
    requires |picks| == |utxos|
  {
    if utxos == [] then 0
    else
      var k := |utxos| - 1;
      Dropped(utxos[..k], picks[..k], floor) + (if !picks[k] && utxos[k].amount > floor then 1 else 0)
  }

  /** The exact price of one more input is a whole number of satoshis. */
  predicate WholeInputFee(rate: real) {
    (68.0 * rate).Floor as real == 68.0 * rate
  }

  /** Repeated addition, so that sums of prices stay linear. */
  function Times(price: int, n: nat): int {
    if n == 0 then 0 else Times(price, n - 1) + price
  }

  lemma {:induction false} TimesIsProduct(price: int, n: nat)
    ensures Times(price, n) == price * n
  {
    if n > 0 {
      TimesIsProduct(price, n - 1);
      assert price * n == price * (n - 1) + price;
    }
  }

  lemma {:induction false} TimesAdds(price: int, a: nat, b: nat, sum: nat)
    requires sum == a + b
    ensures Times(price, sum) == Times(price, a) + Times(price, b)
    decreases b
  {
    if b > 0 {
      TimesAdds(price, a, b - 1, sum - 1);
    }
  }

  lemma {:induction false} PickedCount(utxos: seq<Utxo>, picks: seq<bool>, floor: int)
    requires |picks| == |utxos|
    ensures Count(picks) == |Above(utxos, floor)| - Dropped(utxos, picks, floor) + Extra(utxos, picks, floor)
  {
    if utxos != [] {
      PickedCount(utxos[..|utxos| - 1], picks[..|utxos| - 1], floor);
    }
  }

  /** How many picked outputs are worth less than `price`. */
  function Below(utxos: seq<Utxo>, picks: seq<bool>, price: int): nat
    requires |picks| == |utxos|
  {
    if utxos == [] then 0
    else
      var k := |utxos| - 1;
      Below(utxos[..k], picks[..k], price) + (if picks[k] && utxos[k].amount < price then 1 else 0)
  }

  /** Each extra output brings at most the price, one below it at least a satoshi less; each dropped one loses more. */
  lemma {:induction false} GainBound(utxos: seq<Utxo>, picks: seq<bool>, price: int)
    requires |picks| == |utxos|
    ensures PickedSum(Amounts(utxos), picks) + Times(price, Dropped(utxos, picks, price))
            + Dropped(utxos, picks, price) + Below(utxos, picks, price)
            <= Total(Above(utxos, price)) + Times(price, Extra(utxos, picks, price))
  {
    if utxos != [] {
      var k := |utxos| - 1;
      GainBound(utxos[..k], picks[..k], price);
      assert Amounts(utxos)[..k] == Amounts(utxos[..k]);
      TotalAppend(Above(utxos[..k], price), utxos[k]);
    }
  }

  lemma CeilCovers(x: real)
    ensures Ceil(x) as real - 1.0 < x <= Ceil(x) as real
  {
  }

  /** Rounding a sum up, against rounding its parts up. */
  lemma CeilOfSum(x: real, y: real)
    ensures Ceil(x) + Ceil(y) - 1 <= Ceil(x + y) <= Ceil(x) + Ceil(y)
    ensures y == Ceil(y) as real ==> Ceil(x + y) == Ceil(x) + Ceil(y)
  {
    CeilCovers(x);
    CeilCovers(y);
    CeilCovers(x + y);
    var parts, sum := Ceil(x) + Ceil(y), Ceil(x + y);
    assert parts as real - 2.0 < x + y <= parts as real;
    assert sum as real - 1.0 < parts as real && parts as real - 2.0 < sum as real;
  }

  lemma PriceOfOneMore(size: int, rate: real)
    ensures (size + INPUT_VBYTES) as real * rate == size as real * rate + 68.0 * rate
  {
  }

  lemma WholeIsCeil(y: real)
    requires y.Floor as real == y
    ensures y == Ceil(y) as real
  {
    CeilCovers(y);
    var floor, ceil := y.Floor, Ceil(y);
    assert (ceil - 1) as real < floor as real <= ceil as real;
    assert ceil - 1 < floor <= ceil;
  }

  /** One more input costs its rounded-up price, or one satoshi less. */
  lemma InputStep(inputs: nat, rate: real)
    requires rate > 0.0
    ensures var p := FeeSats(INPUT_VBYTES, rate);
            TxFee(inputs, 1, rate) + p - 1 <= TxFee(inputs + 1, 1, rate) <= TxFee(inputs, 1, rate) + p
    ensures WholeInputFee(rate) ==>
            TxFee(inputs + 1, 1, rate) == TxFee(inputs, 1, rate) + FeeSats(INPUT_VBYTES, rate)
  {
    var size := EstimateVSize(inputs, 1);
    PriceOfOneMore(size, rate);
    CeilOfSum(size as real * rate, 68.0 * rate);
    if WholeInputFee(rate) {
      WholeIsCeil(68.0 * rate);
    }
  }

  // The fee as a function of the number of inputs: what follows needs only how it steps.

  function FeeOf(rate: real): nat -> int {
    (inputs: nat) => TxFee(inputs, 1, rate)
  }

  predicate StepsAt(fee: nat -> int, price: int, whole: bool, inputs: nat) {
    fee(inputs) + price - 1 <= fee(inputs + 1) <= fee(inputs) + price
    && (whole ==> fee(inputs + 1) == fee(inputs) + price)
  }

  ghost predicate Steps(fee: nat -> int, price: int, whole: bool) {
    forall inputs: nat :: StepsAt(fee, price, whole, inputs)
  }

  lemma FeeSteps(rate: real)
    requires rate > 0.0
    ensures Steps(FeeOf(rate), FeeSats(INPUT_VBYTES, rate), WholeInputFee(rate))
  {
    forall inputs: nat ensures StepsAt(FeeOf(rate), FeeSats(INPUT_VBYTES, rate), WholeInputFee(rate), inputs) {
      InputStep(inputs, rate);
    }
  }

  lemma {:induction false} MoreInputs(fee: nat -> int, price: int, whole: bool, inputs: nat, more: nat, target: nat)
    requires Steps(fee, price, whole) && target == inputs + more
    ensures var total, gap := Times(price, more), fee(target) - fee(inputs);
            total - more <= gap <= total && (whole ==> gap == total)
    decreases more
  {
    if more > 0 {
      MoreInputs(fee, price, whole, inputs, more - 1, target - 1);
      assert StepsAt(fee, price, whole, target - 1);
    }
  }

  /** Fee of the swept inputs against the fee after dropping some and adding others. */
  lemma {:induction false} FeeGap(
    fee: nat -> int, price: int, whole: bool, kept: nat, dropped: nat, extra: nat, count: nat)
    requires Steps(fee, price, whole) && dropped <= kept && count == kept - dropped + extra
    ensures var gap := fee(kept) - fee(count);
            && gap <= Times(price, dropped) - Times(price, extra) + (if extra > dropped then extra - dropped else 0)
            && (whole ==> gap == Times(price, dropped) - Times(price, extra))
  {
    if dropped >= extra {
      MoreInputs(fee, price, whole, count, dropped - extra, kept);
      TimesAdds(price, dropped - extra, extra, dropped);
    } else {
      MoreInputs(fee, price, whole, kept, extra - dropped, count);
      TimesAdds(price, extra - dropped, dropped, extra);
    }
  }

  /** What dropping and adding outputs changes in the swept sum and in the fee. */
  lemma SweepBounds(utxos: seq<Utxo>, picks: seq<bool>, rate: real) returns (lost: int, spent: int)
    requires |picks| == |utxos| && rate > 0.0
    ensures var p := FeeSats(INPUT_VBYTES, rate);
            var dropped, extra := Dropped(utxos, picks, p), Extra(utxos, picks, p);
            var gap := TxFee(|Above(utxos, p)|, 1, rate) - TxFee(Count(picks), 1, rate);
            && PickedSum(Amounts(utxos), picks) + lost + dropped <= Total(Above(utxos, p)) + spent
            && gap <= lost - spent + (if extra > dropped then extra - dropped else 0)
            && (WholeInputFee(rate) ==> gap == lost - spent)
  {
    var p := FeeSats(INPUT_VBYTES, rate);
    var dropped, extra := Dropped(utxos, picks, p), Extra(utxos, picks, p);
    PickedCount(utxos, picks, p);
    GainBound(utxos, picks, p);
    DroppedAreKept(utxos, picks, p);
    FeeSteps(rate);
    FeeGap(FeeOf(rate), p, WholeInputFee(rate), |Above(utxos, p)|, dropped, extra, Count(picks));
    lost, spent := Times(p, dropped), Times(p, extra);
  }

  /** The sweep against any other sub-collection, in terms of what that one drops and adds. */
  lemma SweepAgainst(utxos: seq<Utxo>, picks: seq<bool>, rate: real)
    requires |picks| == |utxos| && rate > 0.0
    ensures var p := FeeSats(INPUT_VBYTES, rate);
            var dropped, extra := Dropped(utxos, picks, p), Extra(utxos, picks, p);
            && NetOf(utxos, picks, rate) <=
               NetOfSweep(utxos, rate) - dropped + (if extra > dropped then extra - dropped else 0)
            && (WholeInputFee(rate) ==> NetOf(utxos, picks, rate) <= NetOfSweep(utxos, rate) - dropped)
  {
    var lost, spent := SweepBounds(utxos, picks, rate);
  }

  lemma {:induction false} DroppedAreKept(utxos: seq<Utxo>, picks: seq<bool>, floor: int)
    requires |picks| == |utxos|
    ensures Dropped(utxos, picks, floor) <= |Above(utxos, floor)|
  {
    if utxos != [] {
      DroppedAreKept(utxos[..|utxos| - 1], picks[..|utxos| - 1], floor);
    }
  }

  /**
   * Among all sub-collections, the sweep is within one satoshi per uneconomical output that
   * the other sub-collection spends; it is best of all when the price of an input is whole.
   */
  lemma SweepIsNearlyOptimal(utxos: seq<Utxo>, picks: seq<bool>, rate: real)
    requires |picks| == |utxos| && rate > 0.0
    ensures NetOf(utxos, picks, rate) <=
            NetOfSweep(utxos, rate) + Extra(utxos, picks, FeeSats(INPUT_VBYTES, rate))
    ensures WholeInputFee(rate) ==> NetOf(utxos, picks, rate) <= NetOfSweep(utxos, rate)
  {
    SweepAgainst(utxos, picks, rate);
  }

  /** Leaving out any part of the selection strictly lowers what arrives. */
  lemma DroppingLowersSweep(utxos: seq<Utxo>, picks: seq<bool>, rate: real)
    requires |picks| == |utxos| && rate > 0.0
    requires var p := FeeSats(INPUT_VBYTES, rate); Extra(utxos, picks, p) == 0 && Dropped(utxos, picks, p) > 0
    ensures NetOf(utxos, picks, rate) < NetOfSweep(utxos, rate)
  {
    SweepAgainst(utxos, picks, rate);
  }

  /** How many outputs are worth exactly the rounded-up price of an input. */
  function AtPrice(utxos: seq<Utxo>, price: int): nat {
    if utxos == [] then 0
    else AtPrice(utxos[..|utxos| - 1], price) + (if utxos[|utxos| - 1].amount == price then 1 else 0)
  }

  /** Spending the outputs that are worth exactly the price of an input costs what they bring. */
  predicate NothingLostToRounding(utxos: seq<Utxo>, rate: real) {
    var p := FeeSats(INPUT_VBYTES, rate);
    var n, m := |Above(utxos, p)|, AtPrice(utxos, p);
    TxFee(n + m, 1, rate) - TxFee(n, 1, rate) == p * m
  }

  /** The picks of a sweep that also takes the outputs worth exactly `price`. */
  function AtLeast(utxos: seq<Utxo>, price: int): seq<bool> {
    seq(|utxos|, i requires 0 <= i < |utxos| => utxos[i].amount >= price)
  }

  lemma {:induction false} AtLeastCount(utxos: seq<Utxo>, price: int)
    ensures Count(AtLeast(utxos, price)) == |Above(utxos, price)| + AtPrice(utxos, price)
  {
    if utxos != [] {
      AtLeastCount(utxos[..|utxos| - 1], price);
      assert AtLeast(utxos, price)[..|utxos| - 1] == AtLeast(utxos[..|utxos| - 1], price);
    }
  }

  lemma {:induction false} AtLeastSum(utxos: seq<Utxo>, price: int)
    ensures PickedSum(Amounts(utxos), AtLeast(utxos, price)) ==
            Total(Above(utxos, price)) + Times(price, AtPrice(utxos, price))
  {
    if utxos != [] {
      var k := |utxos| - 1;
      AtLeastSum(utxos[..k], price);
      assert Amounts(utxos)[..k] == Amounts(utxos[..k]);
      assert AtLeast(utxos, price)[..k] == AtLeast(utxos[..k], price);
      if utxos[k].amount > price {
        TotalAppend(Above(utxos[..k], price), utxos[k]);
      }
    }
  }

  lemma {:induction false} ExtraCount(utxos: seq<Utxo>, picks: seq<bool>, price: int)
    requires |picks| == |utxos|
    ensures Extra(utxos, picks, price) <= AtPrice(utxos, price) + Below(utxos, picks, price)
  {
    if utxos != [] {
      ExtraCount(utxos[..|utxos| - 1], picks[..|utxos| - 1], price);
    }
  }

  lemma {:induction false} TimesBalance(price: int, a: nat, b: nat, c: nat, d: nat)
    requires a + b == c + d
    ensures Times(price, a) + Times(price, b) == Times(price, c) + Times(price, d)
  {
    TimesAdds(price, a, b, a + b);
    TimesAdds(price, c, d, a + b);
  }

  /** Spending `below` more inputs than those that lose nothing costs at most one satoshi each less. */
  lemma {:induction false} TopFee(
    fee: nat -> int, price: int, whole: bool, n: nat, m: nat, all: nat, below: nat, top: nat)
    requires Steps(fee, price, whole) && top == all + below
    requires fee(all) - fee(n) == Times(price, m)
    ensures fee(top) - fee(n) >= Times(price, m + below) - below
  {
    MoreInputs(fee, price, whole, all, below, top);
    TimesAdds(price, m, below, m + below);
  }

  /** The fee saved by dropping `d` and adding `e` inputs, when the `m` inputs at the price lose nothing. */
  lemma {:induction false} FineFeeGap(
    fee: nat -> int, price: int, whole: bool, n: nat, m: nat, all: nat, below: nat, d: nat, e: nat, count: nat)
    requires Steps(fee, price, whole) && d <= n && e <= m + below && count == n - d + e && all == n + m
    requires fee(all) - fee(n) == Times(price, m)
    ensures fee(n) - fee(count) <= Times(price, d) - Times(price, e) + below
  {
    var reach := m + below;
    var more, top := reach + d - e, all + below;
    TopFee(fee, price, whole, n, m, all, below, top);
    FineFeeSum(fee, price, whole, n, count, top, reach, more, below, d, e);
  }

  lemma {:induction false} FineFeeSum(
    fee: nat -> int, price: int, whole: bool, n: nat, count: nat, top: nat, reach: nat, more: nat, below: nat, d: nat,
    e: nat)
    requires Steps(fee, price, whole) && top == count + more && more + e == reach + d
    requires fee(top) - fee(n) >= Times(price, reach) - below
    ensures fee(n) - fee(count) <= Times(price, d) - Times(price, e) + below
  {
    MoreInputs(fee, price, whole, count, more, top);
    TimesBalance(price, more, e, reach, d);
  }

  lemma OptimalWhenNothingLost(utxos: seq<Utxo>, picks: seq<bool>, rate: real)
    requires |picks| == |utxos| && rate > 0.0 && NothingLostToRounding(utxos, rate)
    ensures NetOf(utxos, picks, rate) <= NetOfSweep(utxos, rate)
  {
    var p := FeeSats(INPUT_VBYTES, rate);
    var n, m := |Above(utxos, p)|, AtPrice(utxos, p);
    PickedCount(utxos, picks, p);
    DroppedAreKept(utxos, picks, p);
    ExtraCount(utxos, picks, p);
    GainBound(utxos, picks, p);
    TimesIsProduct(p, m);
    FeeSteps(rate);
    FineFeeGap(
      FeeOf(rate), p, WholeInputFee(rate), n, m, n + m, Below(utxos, picks, p), Dropped(utxos, picks, p),
      Extra(utxos, picks, p), Count(picks));
  }

  /** The sweep is the best of all sub-collections exactly when rounding loses nothing. */
  lemma SweepOptimalExactly(utxos: seq<Utxo>, rate: real)
    requires rate > 0.0
    ensures (forall picks: seq<bool> | |picks| == |utxos| :: NetOf(utxos, picks, rate) <= NetOfSweep(utxos, rate))
            <==> NothingLostToRounding(utxos, rate)
  {
    var p := FeeSats(INPUT_VBYTES, rate);
    if NothingLostToRounding(utxos, rate) {
      forall picks: seq<bool> | |picks| == |utxos|
        ensures NetOf(utxos, picks, rate) <= NetOfSweep(utxos, rate)
      {
        OptimalWhenNothingLost(utxos, picks, rate);
      }
    } else {
      AtLeastCount(utxos, p);
      AtLeastSum(utxos, p);
      TimesIsProduct(p, AtPrice(utxos, p));
      FeeSteps(rate);
      MoreInputs(
        FeeOf(rate), p, WholeInputFee(rate), |Above(utxos, p)|, AtPrice(utxos, p),
        |Above(utxos, p)| + AtPrice(utxos, p));
      assert NetOf(utxos, AtLeast(utxos, p), rate) > NetOfSweep(utxos, rate);
    }
  }

  /** When rounding loses nothing, a failed sweep means that no sub-collection delivers a spendable output. */
  lemma SweepIsComplete(utxos: seq<Utxo>, picks: seq<bool>, rate: real)
    requires |picks| == |utxos| && rate > 0.0 && NothingLostToRounding(utxos, rate)
    requires NetOf(utxos, picks, rate) >= DUST_SATS
    ensures Sweep(utxos, rate).Ok? && Sweep(utxos, rate).value.amount >= NetOf(utxos, picks, rate)
  {
    OptimalWhenNothingLost(utxos, picks, rate);
    FeeIsLeastCover(EstimateVSize(0, 1), rate);
  }

  /** A whole price per input never loses anything to rounding. */
  lemma WholeFeeLosesNothing(utxos: seq<Utxo>, rate: real)
    requires rate > 0.0 && WholeInputFee(rate)
    ensures NothingLostToRounding(utxos, rate)
  {
    var p := FeeSats(INPUT_VBYTES, rate);
    TimesIsProduct(p, AtPrice(utxos, p));
    FeeSteps(rate);
    MoreInputs(
      FeeOf(rate), p, WholeInputFee(rate), |Above(utxos, p)|, AtPrice(utxos, p), |Above(utxos, p)| + AtPrice(utxos, p));
  }

  lemma FeesAtThreeTenths()
    ensures FeeSats(INPUT_VBYTES, 0.3) == 21 && TxFee(1, 1, 0.3) == 33 && TxFee(3, 1, 0.3) == 74
  {
  }

  lemma AllThree(x: int, y: int, z: int)
    ensures PickedSum([x, y, z], [true, true, true]) == x + y + z && Count([true, true, true]) == 3
  {
    assert [x, y, z][..2] == [x, y] && [x, y][..1] == [x] && [x][..0] == [];
    assert [true, true, true][..2] == [true, true] && [true, true][..1] == [true] && [true][..0] == [];
    assert PickedSum([x], [true]) == x && Count([true]) == 1;
    assert PickedSum([x, y], [true, true]) == x + y && Count([true, true]) == 2;
  }

  lemma OnlyTheFirst(a: Utxo, b: Utxo, c: Utxo, floor: int)
    requires a.amount > floor && b.amount <= floor && c.amount <= floor
    ensures Above([a, b, c], floor) == [a] && Total([a]) == a.amount
  {
    AboveAppend([], a, floor);
    AboveAppend([a], b, floor);
    AboveAppend([a, b], c, floor);
    TotalAppend([], a);
    assert [] + [a] == [a] && [a] + [b] == [a, b] && [a, b] + [c] == [a, b, c];
  }

  /** At 20.4 satoshis per input, spending two outputs of 21 satoshis would deliver one satoshi more. */
  lemma SweepCanMissTheOptimum()
    ensures var utxos := [Utxo("a", 0, 5000, "w", 1), Utxo("b", 0, 21, "w", 1), Utxo("c", 0, 21, "w", 1)];
            NetOf(utxos, [true, true, true], 0.3) == NetOfSweep(utxos, 0.3) + 1
  {
    var a, b, c := Utxo("a", 0, 5000, "w", 1), Utxo("b", 0, 21, "w", 1), Utxo("c", 0, 21, "w", 1);
    FeesAtThreeTenths();
    OnlyTheFirst(a, b, c, 21);
    AllThree(5000, 21, 21);
    assert Amounts([a, b, c]) == [5000, 21, 21];
  }
}
