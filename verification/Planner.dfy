/** From an address listing to a transaction plan. */
module Planner {
  import opened Fees
  import opened Money
  import opened Outcomes
  import opened Picks
  import opened Selection
  import opened Optimality
  import opened Sorting

  /** An unspent output as the chain explorer reports it. */
  datatype Listed = Listed(txId: string, vout: nat, value: int, confirmed: bool, height: int)

  datatype Output = Output(address: string, amount: int)

  datatype Plan = Plan(
    inputs: seq<Utxo>, outputs: seq<Output>, changeAddress: string, vsize: int, fee: int, required: int)

  /** The fee quote of a currency; `rate` is missing when it cannot be parsed. */
  datatype Quote = Quote(ticker: string, chain: string, nativeCoin: bool, rate: Option<real>)

  /** The environment of one planning call: the address check and the explorer's answer. */
  datatype Source = Source(validAddress: string -> bool, listing: Outcome<seq<Listed>>)

  // ----- listing -----

  predicate Usable(listed: Listed) {
    listed.value > 0 && listed.txId != ""
  }

  function ToUtxo(listed: Listed, address: string): Utxo {
    Utxo(listed.txId, listed.vout, listed.value, address, if listed.confirmed then listed.height else 0)
  }

  function Collect(listing: seq<Listed>, address: string): seq<Utxo> {
    if listing == [] then []
    else
      var rest := Collect(listing[..|listing| - 1], address);
      var last := listing[|listing| - 1];
      if Usable(last) then rest + [ToUtxo(last, address)] else rest
  }

  predicate LessString(a: string, b: string) {
    b != "" && (a == "" || a[0] < b[0] || (a[0] == b[0] && LessString(a[1..], b[1..])))
  }

  /** The larger amount comes first; equal amounts are ordered by transaction hash. */
  predicate Before(a: Utxo, b: Utxo) {
    if a.amount == b.amount then LessString(a.hash, b.hash) else a.amount > b.amount
  }

  /** Stable sort by `Before`. */
  function SortUtxos(utxos: seq<Utxo>): seq<Utxo> {
    StableSort(utxos, Before)
  }

  function Spendable(listing: seq<Listed>, address: string): seq<Utxo> {
    SortUtxos(Collect(listing, address))
  }

  /** utxoSpendableUTXOsFromExplorer: the usable outputs, the largest first. */
  method ListSpendable(listing: seq<Listed>, address: string) returns (out: seq<Utxo>)
    ensures out == Spendable(listing, address)
  {
    out := [];
    for i := 0 to |listing|
      invariant out == Collect(listing[..i], address)
    {
      assert listing[..i + 1][..i] == listing[..i];
      if listing[i].value <= 0 || listing[i].txId == "" {
        continue;
      }
      out := out + [ToUtxo(listing[i], address)];
    }
    assert listing[..|listing|] == listing;
    out := SortUtxos(out);
  }

  lemma AppendSmallest(utxos: seq<Utxo>, last: Utxo)
    requires Descending(Amounts(utxos)) && forall u | u in utxos :: u.amount >= last.amount
    ensures Descending(Amounts(utxos + [last]))
  {
    assert Amounts(utxos + [last]) == Amounts(utxos) + [last.amount];
  }

  lemma LastIsSmallest(utxos: seq<Utxo>)
    requires utxos != [] && Descending(Amounts(utxos))
    ensures Descending(Amounts(utxos[..|utxos| - 1]))
    ensures forall u | u in utxos[..|utxos| - 1] :: u.amount >= utxos[|utxos| - 1].amount
  {
    var k := |utxos| - 1;
    assert Amounts(utxos[..k]) == Amounts(utxos)[..k];
    forall u | u in utxos[..k] ensures u.amount >= utxos[k].amount {
      var j :| 0 <= j < k && utxos[..k][j] == u;
      assert Amounts(utxos)[j] >= Amounts(utxos)[k];
    }
  }

  lemma {:induction false} LessStringRanks(a: string, b: string, c: string)
    ensures LessString(a, b) ==> !LessString(b, a)
    ensures LessString(a, c) ==> LessString(a, b) || LessString(b, c)
  {
    if a != [] && b != [] && c != [] {
      LessStringRanks(a[1..], b[1..], c[1..]);
    } else if a != [] && b != [] {
      LessStringRanks(a[1..], b[1..], []);
    }
  }

  predicate Any(u: Utxo) { true }

  lemma BeforeRanks()
    ensures Ranks(Any, Before)
  {
    forall a: Utxo, b: Utxo | Before(a, b) ensures !Before(b, a) {
      LessStringRanks(a.hash, b.hash, "");
    }
    forall a: Utxo, b: Utxo, c: Utxo | Before(a, c) ensures Before(a, b) || Before(b, c) {
      LessStringRanks(a.hash, b.hash, c.hash);
    }
  }

  lemma SortSorts(utxos: seq<Utxo>)
    ensures Descending(Amounts(SortUtxos(utxos)))
    ensures multiset(SortUtxos(utxos)) == multiset(utxos)
  {
    BeforeRanks();
    StableSortSorts(utxos, Any, Before);
    var sorted := SortUtxos(utxos);
    forall i, j | 0 <= i < j < |sorted| ensures Amounts(sorted)[i] >= Amounts(sorted)[j] {
      assert !Before(sorted[j], sorted[i]);
    }
  }

  lemma {:induction false} CollectedAreUsable(listing: seq<Listed>, address: string)
    ensures forall u | u in Collect(listing, address) :: u.amount > 0 && u.hash != "" && u.address == address
  {
    if listing != [] {
      CollectedAreUsable(listing[..|listing| - 1], address);
    }
  }

  /** Equal amounts are ordered by transaction hash; those of one transaction stay as listed. */
  lemma SpendableIsStable(listing: seq<Listed>, address: string)
    ensures Ordered(Spendable(listing, address), Before)
    ensures forall u :: Tied(Spendable(listing, address), u, Before) == Tied(Collect(listing, address), u, Before)
  {
    BeforeRanks();
    StableSortSorts(Collect(listing, address), Any, Before);
  }

  /** Everything the planner sees is positive, belongs to the address and is sorted by amount. */
  lemma SpendableIsSorted(listing: seq<Listed>, address: string)
    ensures Descending(Amounts(Spendable(listing, address))) && AllPositive(Spendable(listing, address))
    ensures forall u | u in Spendable(listing, address) :: u.hash != "" && u.address == address
    ensures multiset(Spendable(listing, address)) == multiset(Collect(listing, address))
  {
    var collected := Collect(listing, address);
    SortSorts(collected);
    CollectedAreUsable(listing, address);
    forall u | u in SortUtxos(collected) ensures u in collected {
      assert u in multiset(collected);
    }
  }

  // ----- exclusion -----

  function KeysOf(utxos: seq<Utxo>): set<UtxoKey> {
    set u | u in utxos :: u.Key()
  }

  function Without(utxos: seq<Utxo>, excluded: set<UtxoKey>): seq<Utxo> {
    if utxos == [] then []
    else
      var rest := Without(utxos[..|utxos| - 1], excluded);
      var last := utxos[|utxos| - 1];
      if last.Key() in excluded then rest else rest + [last]
  }

  /** excludeBitcoinUTXOs: drop the outputs whose key is reserved. */
  method ExcludeUtxos(utxos: seq<Utxo>, excluded: seq<UtxoKey>) returns (filtered: seq<Utxo>)
    ensures filtered == Without(utxos, set k | k in excluded)
  {
    var excludedSet := set k | k in excluded;
    filtered := [];
    for i := 0 to |utxos|
      invariant filtered == Without(utxos[..i], excludedSet)
    {
      assert utxos[..i + 1][..i] == utxos[..i];
      if utxos[i].Key() in excludedSet {
        continue;
      }
      filtered := filtered + [utxos[i]];
    }
    assert utxos[..|utxos|] == utxos;
  }

  lemma {:induction false} WithoutKeeps(utxos: seq<Utxo>, excluded: set<UtxoKey>)
    ensures forall u :: u in Without(utxos, excluded) <==> u in utxos && u.Key() !in excluded
    ensures Descending(Amounts(utxos)) ==> Descending(Amounts(Without(utxos, excluded)))
  {
    if utxos != [] {
      var k := |utxos| - 1;
      WithoutKeeps(utxos[..k], excluded);
      assert utxos == utxos[..k] + [utxos[k]];
      if Descending(Amounts(utxos)) {
        LastIsSmallest(utxos);
        AppendSmallest(Without(utxos[..k], excluded), utxos[k]);
      }
    }
  }

  // ----- plans -----

  predicate IsUtxoChain(chain: string) {
    chain == "BTC" || chain == "LTC"
  }

  const MAX_INT64 := 0x7FFF_FFFF_FFFF_FFFF

  /** satoshiAmount: a crypto amount with eight decimals that fits 64 bits. */
  function SatoshiAmount(amount: Money): Outcome<int> {
    if amount.kind != Crypto || amount.decimals != 8 then Err(Validation)
    else if !(-MAX_INT64 - 1 <= amount.value <= MAX_INT64) then Err(Validation)
    else Ok(amount.value)
  }

  /** The checks both planners share, in order, ending with a usable rate. */
  function CheckedRate(quote: Quote, sender: string, recipient: string, source: Source): Outcome<real> {
    if !source.validAddress(sender) || !source.validAddress(recipient) then Err(InvalidAddress)
    else if quote.rate.None? || quote.rate.value <= 0.0 then Err(Validation)
    else Ok(quote.rate.value)
  }

  /** The outputs a plan may spend. */
  function Candidates(sender: string, source: Source, excluded: set<UtxoKey>): Outcome<seq<Utxo>> {
    if source.listing.Err? then Err(source.listing.error)
    else Ok(Without(Spendable(source.listing.value, sender), excluded))
  }

  function PlanOf(selected: Selected, sender: string, recipient: string, amount: int): Plan {
    var payment := [Output(recipient, amount)];
    var outputs := if selected.change >= DUST_SATS then payment + [Output(sender, selected.change)] else payment;
    Plan(selected.inputs, outputs, sender, selected.vsize, selected.fee, amount)
  }

  function Transaction(
    quote: Quote, sender: string, recipient: string, amount: Money, source: Source, excluded: set<UtxoKey>)
    : Outcome<Plan>
  {
    if !IsUtxoChain(quote.chain) || !quote.nativeCoin then Err(UnsupportedRuntime)
    else if amount.ticker != quote.ticker then Err(Validation)
    else
      var rate := CheckedRate(quote, sender, recipient, source);
      var sats := SatoshiAmount(amount);
      if rate.Err? then Err(rate.error)
      else if sats.Err? then Err(sats.error)
      else if sats.value < DUST_SATS then Err(Validation)
      else
        var candidates := Candidates(sender, source, excluded);
        if candidates.Err? then Err(candidates.error)
        else
          var selection := Select(candidates.value, sats.value, rate.value);
          if selection.Err? then Err(selection.error)
          else Ok(PlanOf(selection.value, sender, recipient, sats.value))
  }

  function SweepTransaction(
    quote: Quote, sender: string, recipient: string, source: Source, excluded: set<UtxoKey>): Outcome<Plan>
  {
    if !IsUtxoChain(quote.chain) || !quote.nativeCoin then Err(UnsupportedRuntime)
    else
      var rate := CheckedRate(quote, sender, recipient, source);
      if rate.Err? then Err(rate.error)
      else
        var candidates := Candidates(sender, source, excluded);
        if candidates.Err? then Err(candidates.error)
        else
          var sweep := Sweep(candidates.value, rate.value);
          if sweep.Err? then Err(sweep.error)
          else
            var s := sweep.value;
            Ok(Plan(s.inputs, [Output(recipient, s.amount)], "", s.vsize, s.fee, s.amount))
  }

  /** PrepareBitcoinTransactionExcluding. */
  method PrepareTransaction(
    quote: Quote, sender: string, recipient: string, amount: Money, source: Source, excluded: seq<UtxoKey>)
    returns (r: Outcome<Plan>)
    ensures r == Transaction(quote, sender, recipient, amount, source, set k | k in excluded)
  {
    if !IsUtxoChain(quote.chain) || !quote.nativeCoin {
      return Err(UnsupportedRuntime);
    }
    if amount.ticker != quote.ticker {
      return Err(Validation);
    }
    if !source.validAddress(sender) {
      return Err(InvalidAddress);
    }
    if !source.validAddress(recipient) {
      return Err(InvalidAddress);
    }
    if quote.rate.None? || quote.rate.value <= 0.0 {
      return Err(Validation);
    }
    var sats := SatoshiAmount(amount);
    if sats.Err? {
      return Err(sats.error);
    }
    if sats.value <= 0 || sats.value < DUST_SATS {
      return Err(Validation);
    }
    if source.listing.Err? {
      return Err(source.listing.error);
    }
    var utxos := ListSpendable(source.listing.value, sender);
    utxos := ExcludeUtxos(utxos, excluded);
    var selection := SelectUtxos(utxos, sats.value, quote.rate.value);
    if selection.Err? {
      return Err(selection.error);
    }
    var outputs := [Output(recipient, sats.value)];
    if selection.value.change >= DUST_SATS {
      outputs := outputs + [Output(sender, selection.value.change)];
    }
    return Ok(Plan(selection.value.inputs, outputs, sender, selection.value.vsize, selection.value.fee, sats.value));
  }

  /** PrepareBitcoinSweepTransactionExcluding. */
  method PrepareSweep(quote: Quote, sender: string, recipient: string, source: Source, excluded: seq<UtxoKey>)
    returns (r: Outcome<Plan>)
    ensures r == SweepTransaction(quote, sender, recipient, source, set k | k in excluded)
  {
    if !IsUtxoChain(quote.chain) || !quote.nativeCoin {
      return Err(UnsupportedRuntime);
    }
    if !source.validAddress(sender) || !source.validAddress(recipient) {
      return Err(InvalidAddress);
    }
    if quote.rate.None? || quote.rate.value <= 0.0 {
      return Err(Validation);
    }
    if source.listing.Err? {
      return Err(source.listing.error);
    }
    var utxos := ListSpendable(source.listing.value, sender);
    utxos := ExcludeUtxos(utxos, excluded);
    var sweep := SweepUtxos(utxos, quote.rate.value);
    if sweep.Err? {
      return Err(sweep.error);
    }
    var s := sweep.value;
    return Ok(Plan(s.inputs, [Output(recipient, s.amount)], "", s.vsize, s.fee, s.amount));
  }

  // ----- what every plan satisfies -----

  function OutputTotal(outputs: seq<Output>): int {
    if outputs == [] then 0 else OutputTotal(outputs[..|outputs| - 1]) + outputs[|outputs| - 1].amount
  }

  lemma OutputTotals(a: Output, b: Output)
    ensures OutputTotal([a]) == a.amount && OutputTotal([a, b]) == a.amount + b.amount
  {
    assert [a][..0] == [] && [a, b][..1] == [a];
  }

  /** Inputs drawn from the sender's listing, none of them reserved, and nothing created or lost. */
  ghost predicate Conserves(plan: Plan, sender: string, excluded: set<UtxoKey>) {
    && plan.inputs != [] && plan.outputs != []
    && Total(plan.inputs) == OutputTotal(plan.outputs) + plan.fee
    && (forall u | u in plan.inputs :: u.Key() !in excluded && u.amount > 0 && u.hash != "" && u.address == sender)
    && (forall o | o in plan.outputs :: o.amount >= DUST_SATS)
  }

  lemma CandidatesBelong(sender: string, source: Source, excluded: set<UtxoKey>)
    requires source.listing.Ok?
    ensures var utxos := Candidates(sender, source, excluded).value;
            && Descending(Amounts(utxos)) && AllPositive(utxos)
            && forall u | u in utxos :: u.Key() !in excluded && u.hash != "" && u.address == sender
  {
    SpendableIsSorted(source.listing.value, sender);
    WithoutKeeps(Spendable(source.listing.value, sender), excluded);
  }

  /** What the fee of a payment plan is bounded by; with change it is exact. */
  ghost predicate FeeBounds(plan: Plan, sender: string, rate: real) {
    && 1 <= |plan.outputs| <= 2
    && plan.fee >= TxFee(|plan.inputs|, |plan.outputs|, rate) >= 1
    && (|plan.outputs| == 2 ==>
          plan.outputs[1].address == sender && plan.fee == TxFee(|plan.inputs|, 2, rate))
    && (|plan.outputs| == 1 ==> plan.fee < TxFee(|plan.inputs|, 2, rate) + DUST_SATS)
  }

  /** A plan that returns change. */
  lemma PlanWithChange(inputs: seq<Utxo>, sender: string, recipient: string, amount: int, rate: real)
    requires inputs != [] && rate > 0.0 && amount >= DUST_SATS
    requires Total(inputs) - amount - TxFee(|inputs|, 2, rate) >= DUST_SATS
    ensures var plan := PlanOf(Settle(inputs, amount, rate), sender, recipient, amount);
            && plan.outputs == [Output(recipient, amount), Output(sender, Settle(inputs, amount, rate).change)]
            && plan.outputs[1].amount >= DUST_SATS
            && Total(inputs) == OutputTotal(plan.outputs) + plan.fee
            && FeeBounds(plan, sender, rate)
  {
    FeeIsLeastCover(EstimateVSize(|inputs|, 2), rate);
    OutputTotals(Output(recipient, amount), Output(sender, Settle(inputs, amount, rate).change));
  }

  /** A plan whose excess becomes the fee. */
  lemma PlanWithoutChange(inputs: seq<Utxo>, sender: string, recipient: string, amount: int, rate: real)
    requires inputs != [] && rate > 0.0 && amount >= DUST_SATS && Pays(inputs, amount, rate)
    requires Total(inputs) - amount - TxFee(|inputs|, 2, rate) < DUST_SATS
    ensures var plan := PlanOf(Settle(inputs, amount, rate), sender, recipient, amount);
            && plan.outputs == [Output(recipient, amount)]
            && Total(inputs) == OutputTotal(plan.outputs) + plan.fee
            && FeeBounds(plan, sender, rate)
  {
    FeeIsLeastCover(EstimateVSize(|inputs|, 1), rate);
    OutputTotals(Output(recipient, amount), Output(recipient, amount));
  }

  /** The inputs of a payment plan are a paying prefix of the outputs it may spend. */
  lemma PlannedPrefix(
    quote: Quote, sender: string, recipient: string, amount: Money, source: Source, excluded: set<UtxoKey>)
    returns (n: nat)
    requires Transaction(quote, sender, recipient, amount, source, excluded).Ok?
    ensures var utxos := Candidates(sender, source, excluded).value;
            && 1 <= n <= |utxos| && Pays(utxos[..n], amount.value, quote.rate.value)
            && quote.rate.value > 0.0 && amount.value >= DUST_SATS
            && (forall u | u in utxos[..n] ::
                  u.Key() !in excluded && u.amount > 0 && u.hash != "" && u.address == sender)
            && Transaction(quote, sender, recipient, amount, source, excluded) ==
               Ok(PlanOf(Settle(utxos[..n], amount.value, quote.rate.value), sender, recipient, amount.value))
  {
    var utxos := Candidates(sender, source, excluded).value;
    CandidatesBelong(sender, source, excluded);
    AboveKeepsAll(utxos, 0);
    n := FirstPaying(utxos, amount.value, quote.rate.value, 1);
  }

  /** A payment plan conserves value and its fee is exact with change, bounded without. */
  lemma TransactionConserves(
    quote: Quote, sender: string, recipient: string, amount: Money, source: Source, excluded: set<UtxoKey>)
    requires Transaction(quote, sender, recipient, amount, source, excluded).Ok?
    ensures var plan := Transaction(quote, sender, recipient, amount, source, excluded).value;
            && Conserves(plan, sender, excluded) && FeeBounds(plan, sender, quote.rate.value)
            && plan.outputs[0] == Output(recipient, amount.value) && plan.required == amount.value
  {
    var n := PlannedPrefix(quote, sender, recipient, amount, source, excluded);
    var inputs, rate := Candidates(sender, source, excluded).value[..n], quote.rate.value;
    if Total(inputs) - amount.value - TxFee(n, 2, rate) >= DUST_SATS {
      PlanWithChange(inputs, sender, recipient, amount.value, rate);
    } else {
      PlanWithoutChange(inputs, sender, recipient, amount.value, rate);
    }
  }

  /** A sweep plan conserves value, has one output and pays exactly the fee of its size. */
  lemma SweepConserves(quote: Quote, sender: string, recipient: string, source: Source, excluded: set<UtxoKey>)
    requires SweepTransaction(quote, sender, recipient, source, excluded).Ok?
    ensures var plan := SweepTransaction(quote, sender, recipient, source, excluded).value;
            && Conserves(plan, sender, excluded)
            && plan.outputs == [Output(recipient, plan.required)]
            && plan.fee == TxFee(|plan.inputs|, 1, quote.rate.value) >= 1
  {
    var rate := quote.rate.value;
    var plan := SweepTransaction(quote, sender, recipient, source, excluded).value;
    var utxos := Candidates(sender, source, excluded).value;
    CandidatesBelong(sender, source, excluded);
    AboveIsAbove(utxos, FeeSats(INPUT_VBYTES, rate));
    FeeIsLeastCover(EstimateVSize(|plan.inputs|, 1), rate);
    OutputTotals(plan.outputs[0], plan.outputs[0]);
  }

  /** A payment cannot be planned for lack of funds exactly when no part of the outputs could pay for it. */
  lemma PlanningIsComplete(
    quote: Quote, sender: string, recipient: string, amount: Money, source: Source, excluded: set<UtxoKey>)
    requires IsUtxoChain(quote.chain) && quote.nativeCoin && amount.ticker == quote.ticker
    requires CheckedRate(quote, sender, recipient, source).Ok? && source.listing.Ok?
    requires SatoshiAmount(amount).Ok? && amount.value >= DUST_SATS
    ensures var utxos := Candidates(sender, source, excluded).value;
            Transaction(quote, sender, recipient, amount, source, excluded) == Err(InsufficientFunds) <==>
            !exists picks: seq<bool> | |picks| == |utxos| :: PicksPay(utxos, picks, amount.value, quote.rate.value)
  {
    CandidatesBelong(sender, source, excluded);
    GreedyIsComplete(Candidates(sender, source, excluded).value, amount.value, quote.rate.value);
  }
}
