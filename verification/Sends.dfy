/** What the handlers send is what happens on the chain: their outcomes are steps of its world. */
module Sends {
  import opened Outcomes
  import opened Ledger
  import opened Coins
  import opened ChainLedger
  import opened SignedUtxo
  import Accounting
  import Money
  import Planner
  import Reservations
  import Selection
  import Settlement
  import Transfers
  import Withdrawals

  // ----- the signed transaction on the chain -----

  /** Where the outputs that nodes list lie on the chain. */
  type Place = Selection.UtxoKey -> nat

  ghost predicate Injective(place: Place) {
    forall a, b | place(a) == place(b) :: a == b
  }

  /** Nodes list unspent outputs of the wallet with their amounts. */
  ghost predicate ListsTheChain(coins: seq<Coin>, place: Place, wallet: int, listing: seq<Planner.Listed>) {
    forall l | l in listing ::
      && place(Selection.UtxoKey(l.txId, l.vout)) < |coins|
      && coins[place(Selection.UtxoKey(l.txId, l.vout))] == Coin(Some(wallet), l.value, false)
  }

  ghost predicate AttemptsListTheChain(coins: seq<Coin>, place: Place, wallet: int, attempts: seq<Attempt>) {
    forall a | a in attempts && a.source.listing.Ok? :: ListsTheChain(coins, place, wallet, a.source.listing.value)
  }

  function Placed(place: Place, keys: seq<Selection.UtxoKey>): seq<nat> {
    seq(|keys|, i requires 0 <= i < |keys| => place(keys[i]))
  }

  predicate OnChain(coins: seq<Coin>, place: Place, wallet: int, u: Selection.Utxo) {
    place(u.Key()) < |coins| && coins[place(u.Key())] == Coin(Some(wallet), u.amount, false)
  }

  lemma {:induction false} CollectedOnChain(
    coins: seq<Coin>, place: Place, wallet: int, listing: seq<Planner.Listed>, address: string)
    requires ListsTheChain(coins, place, wallet, listing)
    ensures forall u | u in Planner.Collect(listing, address) :: OnChain(coins, place, wallet, u)
  {
    if listing != [] {
      var k := |listing| - 1;
      assert listing == listing[..k] + [listing[k]];
      CollectedOnChain(coins, place, wallet, listing[..k], address);
    }
  }

  lemma PlanInputsOnChain(
    coins: seq<Coin>, place: Place, wallet: int, p: Parties, order: Order, source: Planner.Source,
    excluded: set<Selection.UtxoKey>)
    requires PlanFor(p, order, source, excluded).Ok?
    requires source.listing.Ok? ==> ListsTheChain(coins, place, wallet, source.listing.value)
    ensures forall u | u in PlanFor(p, order, source, excluded).value.inputs :: OnChain(coins, place, wallet, u)
  {
    PlanInputsAreCandidates(p, order, source, excluded);
    var listing := source.listing.value;
    CollectedOnChain(coins, place, wallet, listing, p.sender);
    Planner.SpendableIsSorted(listing, p.sender);
    Planner.WithoutKeeps(Planner.Spendable(listing, p.sender), excluded);
    forall u | u in PlanFor(p, order, source, excluded).value.inputs ensures OnChain(coins, place, wallet, u) {
      assert u in multiset(Planner.Spendable(listing, p.sender));
    }
  }

  lemma {:induction false} PlacedSum(coins: seq<Coin>, place: Place, wallet: int, inputs: seq<Selection.Utxo>)
    requires forall u | u in inputs :: OnChain(coins, place, wallet, u)
    ensures var placed := Placed(place, InputKeys(inputs));
            && (forall i | 0 <= i < |placed| :: placed[i] < |coins|)
            && InputSum(coins, placed) == Selection.Total(inputs)
  {
    var placed := Placed(place, InputKeys(inputs));
    assert forall i | 0 <= i < |inputs| :: inputs[i] in inputs;
    if inputs != [] {
      var k := |inputs| - 1;
      assert inputs[k] in inputs && forall u | u in inputs[..k] :: u in inputs;
      PlacedSum(coins, place, wallet, inputs[..k]);
      assert Placed(place, InputKeys(inputs[..k])) == placed[..k];
    }
  }

  lemma PlacedIsSpendable(coins: seq<Coin>, place: Place, wallet: int, inputs: seq<Selection.Utxo>)
    requires forall u | u in inputs :: OnChain(coins, place, wallet, u)
    requires Injective(place) && Reservations.AllDistinct(InputKeys(inputs))
    ensures Spendable(coins, wallet, Placed(place, InputKeys(inputs)))
  {
    assert forall i | 0 <= i < |inputs| :: inputs[i] in inputs;
  }

  /** The inputs of an attempt that signs are distinct. */
  lemma SignedInputsAreDistinct(rows: seq<Reservations.Row>, p: Parties, order: Order, a: Attempt)
    requires PlanIsSigned(rows, p, order, a) && !Conflicts(rows, p, order, a)
    ensures Reservations.AllDistinct(InputKeys(PlanOfAttempt(rows, p, order, a).value.inputs))
  {
    var keys := InputKeys(PlanOfAttempt(rows, p, order, a).value.inputs);
    Reservations.ReservableExactly(rows, p.owner, keys, a.now + Reservations.TTL_MINUTES);
  }

  /** They are unspent outputs of its wallet, worth the outputs and the fee. */
  lemma SignedInputs(
    coins: seq<Coin>, place: Place, rows: seq<Reservations.Row>, p: Parties, order: Order, a: Attempt)
    requires PlanIsSigned(rows, p, order, a) && !Conflicts(rows, p, order, a) && Injective(place)
    requires a.source.listing.Ok? ==> ListsTheChain(coins, place, p.owner.wallet, a.source.listing.value)
    ensures var plan := PlanOfAttempt(rows, p, order, a).value;
            var inputs := Placed(place, InputKeys(plan.inputs));
            && Spendable(coins, p.owner.wallet, inputs)
            && InputSum(coins, inputs) == Planner.OutputTotal(plan.outputs) + plan.fee
  {
    SignedInputsAreDistinct(rows, p, order, a);
    PlannedInputs(coins, place, p, order, a.source, Reservations.VisibleKeys(rows, p.owner, a.now));
  }

  lemma PlannedInputs(
    coins: seq<Coin>, place: Place, p: Parties, order: Order, source: Planner.Source,
    excluded: set<Selection.UtxoKey>)
    requires PlanFor(p, order, source, excluded).Ok? && Injective(place)
    requires Reservations.AllDistinct(InputKeys(PlanFor(p, order, source, excluded).value.inputs))
    requires source.listing.Ok? ==> ListsTheChain(coins, place, p.owner.wallet, source.listing.value)
    ensures var plan := PlanFor(p, order, source, excluded).value;
            var inputs := Placed(place, InputKeys(plan.inputs));
            && Spendable(coins, p.owner.wallet, inputs)
            && InputSum(coins, inputs) == Planner.OutputTotal(plan.outputs) + plan.fee
  {
    var plan := PlanFor(p, order, source, excluded).value;
    PlanConserves(p, order, source, excluded);
    PlanInputsOnChain(coins, place, p.owner.wallet, p, order, source, excluded);
    PlacedSum(coins, place, p.owner.wallet, plan.inputs);
    PlacedIsSpendable(coins, place, p.owner.wallet, plan.inputs);
  }

  // ----- withdrawals -----

  /** What a signed withdrawal puts on the chain. */
  ghost predicate Carries(coins: seq<Coin>, wallet: int, inputs: seq<nat>, amount: int, change: int, fee: int) {
    && Spendable(coins, wallet, inputs) && amount > 0 && change >= 0 && fee > 0
    && InputSum(coins, inputs) == amount + change + fee
  }

  /** What carries a record's amount can be sent with it. */
  lemma CarriesIsSendable(
    w: World, currency: Key, tx: Tx, inputs: seq<nat>, change: int, hash: string, fee: int)
    requires tx.sender.Some? && Carries(w.coins, tx.sender.value, inputs, tx.amount, change, fee)
    requires Of(tx, currency) && NewHash(w, hash) && tx.hash in {None, Some(hash)}
    requires tx.kind == Withdrawal
             || (tx.kind == Internal && change == 0 && tx.recipient.Some? && tx.recipient.value in w.outbound)
    ensures Sendable(w, currency, tx, inputs, change, hash)
    ensures InputSum(w.coins, inputs) - tx.amount - change == fee
  {
  }

  /** A send whose books are those of its handler takes effect. */
  lemma SendTakesEffect(w: World, currency: Key, e: Event, after: Book, change: int)
    requires (e.Withdraw? && change == e.change) || (e.Sweep? && change == 0) || (e.Strand? && change == e.change)
    requires Sendable(w, currency, e.tx, e.inputs, change, e.hash) && |after.txs| > |w.book.txs|
    requires e.Withdraw? ==> after == Accounting.Apply(w.book, Accounting.Withdraw(e.tx, e.system, e.merchant))
    requires e.Sweep? ==> after == Accounting.Apply(w.book, Accounting.Transfer(e.tx, e.sender))
    requires e.Strand? ==> after == Accounting.Appended(w.book, e.tx) && e.tx.status == Cancelled
                           && Accounting.OwnRow(w.book.balances, e.tx, e.row)
    ensures Step(w, currency, e) != w && Step(w, currency, e).book == after
    ensures Step(w, currency, e) == Broadcast(w, after, e.tx, e.inputs, change, e.hash)
  {
  }

  /** The signed transaction spends coins of its wallet for the amount, the change and the recorded service fee. */
  lemma WithdrawalCarries(
    coins: seq<Coin>, place: Place, rows: seq<Reservations.Row>, req: Withdrawals.Request, attempts: seq<Attempt>,
    raw: Reservations.RawTx, fee: int)
    requires AttemptsListTheChain(coins, place, req.parties.owner.wallet, attempts) && Injective(place)
    requires Withdrawals.PaysOwnFee(rows, req, attempts, raw, fee)
    ensures Carries(
              coins, req.parties.owner.wallet, Placed(place, raw.inputs), req.amount.value,
              Planner.OutputTotal(raw.outputs) - req.amount.value, fee)
  {
    var p, order := req.parties, Payment(req.amount);
    var i :| 0 <= i < |attempts| && Withdrawals.SignsForFee(rows, req, attempts, i, fee)
             && var plan := PlanOfAttempt(rows, p, order, attempts[i]).value;
                raw.outputs == plan.outputs && raw.inputs == InputKeys(plan.inputs);
    assert attempts[i] in attempts;
    SignedInputs(coins, place, rows, p, order, attempts[i]);
    var excluded := Reservations.VisibleKeys(rows, p.owner, attempts[i].now);
    Planner.TransactionConserves(p.quote, p.sender, p.recipient, req.amount, attempts[i].source, excluded);
    PaymentOutputs(raw.outputs, req.amount.value);
  }

  lemma PaymentOutputs(outputs: seq<Planner.Output>, amount: int)
    requires 1 <= |outputs| <= 2 && outputs[0].amount == amount && forall o | o in outputs :: o.amount > 0
    ensures Planner.OutputTotal(outputs) - amount >= 0 && amount > 0
  {
    assert outputs[0] in outputs;
    if |outputs| == 1 {
      Planner.OutputTotals(outputs[0], outputs[0]);
      assert outputs == [outputs[0]];
    } else {
      Planner.OutputTotals(outputs[0], outputs[1]);
      assert outputs[1] in outputs && outputs == [outputs[0], outputs[1]];
    }
  }

  /** The withdraw step of a signed transaction. */
  function WithdrawalEvent(
    tx: Tx, req: Withdrawals.Request, place: Place, raw: Reservations.RawTx, hash: string): Event
  {
    Withdraw(
      tx, req.system, req.merchantRow, Placed(place, raw.inputs), Planner.OutputTotal(raw.outputs) - tx.amount, hash)
  }

  function StrandEvent(
    tx: Tx, req: Withdrawals.Request, place: Place, raw: Reservations.RawTx, hash: string): Event
  {
    Strand(tx, req.system, Placed(place, raw.inputs), Planner.OutputTotal(raw.outputs) - tx.amount, hash)
  }

  /** The rows of the request belong to its wallet and its merchant, and it is about the currency. */
  ghost predicate OwnRequest(rows: seq<Balance>, req: Withdrawals.Request, currency: Key) {
    && req.key == req.coin == currency && req.amount.ticker == currency.ticker
    && req.system < |rows| && req.merchantRow < |rows|
    && rows[req.system].entity == Wallet && rows[req.system].owner == req.parties.owner.wallet
    && rows[req.system].key == currency
    && rows[req.merchantRow].entity == Merchant && rows[req.merchantRow].owner == req.merchant
    && rows[req.merchantRow].key == currency
  }

  /**
   * A withdrawal that was booked and broadcast is a withdraw step on the chain, whether its hash
   * was stored or not; what it pays the network is its service fee.
   */
  lemma WithdrawalIsStep(
    w: World, currency: Key, place: Place, rows: seq<Reservations.Row>, req: Withdrawals.Request,
    attempts: seq<Attempt>, raw: Reservations.RawTx, out: Withdrawals.Output, after: Book, hash: string)
    requires AttemptsListTheChain(w.coins, place, req.parties.owner.wallet, attempts) && Injective(place)
    requires OwnRequest(w.book.balances, req, currency) && NewHash(w, hash)
    requires Withdrawals.PaysOwnFee(rows, req, attempts, raw, out.serviceFee)
    requires Withdrawals.Booked(w.book, after, req, out) && out.tx.Some? && out.decremented
    requires after.txs[out.tx.value].hash in {None, Some(hash)}
    ensures var sent := Step(w, currency, WithdrawalEvent(after.txs[out.tx.value], req, place, raw, hash));
            sent != w && sent.book == after && sent.sends == w.sends + [Sent(out.serviceFee, hash)]
  {
    var tx, inputs := after.txs[out.tx.value], Placed(place, raw.inputs);
    WithdrawalCarries(w.coins, place, rows, req, attempts, raw, out.serviceFee);
    Accounting.WithdrawalIsEvent(w.book, after, req, out);
    var event := WithdrawalEvent(tx, req, place, raw, hash);
    CarriesIsSendable(w, currency, tx, inputs, event.change, hash, out.serviceFee);
    SendTakesEffect(w, currency, event, after, event.change);
  }

  /** A cancelled record of a broadcast withdrawal strands its transaction. */
  lemma StrandsWithdrawal(
    w: World, currency: Key, place: Place, req: Withdrawals.Request, raw: Reservations.RawTx, tx: Tx, fee: int,
    hash: string)
    requires OwnRequest(w.book.balances, req, currency) && NewHash(w, hash) && tx.hash in {None, Some(hash)}
    requires tx == Withdrawals.Record(req, fee, tx.hash).(status := Cancelled)
    requires Carries(
               w.coins, req.parties.owner.wallet, Placed(place, raw.inputs), tx.amount,
               Planner.OutputTotal(raw.outputs) - tx.amount, fee)
    ensures var sent := Step(w, currency, StrandEvent(tx, req, place, raw, hash));
            && sent != w && sent.book == Accounting.Appended(w.book, tx)
            && sent.sends == w.sends + [Sent(fee, hash)]
  {
    var event := StrandEvent(tx, req, place, raw, hash);
    CarriesIsSendable(w, currency, tx, event.inputs, event.change, hash, fee);
    SendTakesEffect(w, currency, event, Accounting.Appended(w.book, tx), event.change);
  }

  /** A withdrawal that was broadcast and then rolled back strands its transaction. */
  lemma StrandedWithdrawalIsStep(
    w: World, currency: Key, place: Place, rows: seq<Reservations.Row>, req: Withdrawals.Request,
    attempts: seq<Attempt>, raw: Reservations.RawTx, out: Withdrawals.Output, after: Book, hash: string)
    requires AttemptsListTheChain(w.coins, place, req.parties.owner.wallet, attempts) && Injective(place)
    requires OwnRequest(w.book.balances, req, currency) && NewHash(w, hash)
    requires Withdrawals.PaysOwnFee(rows, req, attempts, raw, out.serviceFee)
    requires Withdrawals.Restored(w.book, after, req, out) && out.tx.Some?
    requires after.txs[|w.book.txs|].hash in {None, Some(hash)}
    ensures var sent := Step(w, currency, StrandEvent(after.txs[|w.book.txs|], req, place, raw, hash));
            sent != w && sent.book == after && sent.sends == w.sends + [Sent(out.serviceFee, hash)]
  {
    var tx := after.txs[|w.book.txs|];
    assert after == Accounting.Appended(w.book, tx);
    WithdrawalCarries(w.coins, place, rows, req, attempts, raw, out.serviceFee);
    StrandsWithdrawal(w, currency, place, req, raw, tx, out.serviceFee, hash);
  }

  // ----- transfers -----

  /** The signed sweep spends coins of its wallet for the delivered amount and a fee. */
  lemma SweepCarries(
    coins: seq<Coin>, place: Place, rows: seq<Reservations.Row>, req: Transfers.Request, attempts: seq<Attempt>,
    raw: Reservations.RawTx, amount: int) returns (fee: int)
    requires AttemptsListTheChain(coins, place, req.parties.owner.wallet, attempts) && Injective(place)
    requires Transfers.DeliversAmount(rows, req, attempts, raw, amount)
    ensures Carries(coins, req.parties.owner.wallet, Placed(place, raw.inputs), amount, 0, fee)
  {
    var p := req.parties;
    var i :| 0 <= i < |attempts| && Transfers.SignsForAmount(rows, req, attempts, i, amount)
             && var plan := PlanOfAttempt(rows, p, WholeWallet, attempts[i]).value;
                raw.outputs == plan.outputs && raw.inputs == InputKeys(plan.inputs);
    assert attempts[i] in attempts;
    fee := PlanOfAttempt(rows, p, WholeWallet, attempts[i]).value.fee;
    SignedInputs(coins, place, rows, p, WholeWallet, attempts[i]);
    var excluded := Reservations.VisibleKeys(rows, p.owner, attempts[i].now);
    Planner.SweepConserves(p.quote, p.sender, p.recipient, attempts[i].source, excluded);
    assert raw.outputs[0] in raw.outputs;
    Planner.OutputTotals(raw.outputs[0], raw.outputs[0]);
  }

  ghost predicate OwnTransfer(w: World, req: Transfers.Request, currency: Key) {
    && req.key == req.coin == currency && req.amount.ticker == currency.ticker && req.recipientWallet in w.outbound
    && req.senderRow < |w.book.balances|
    && w.book.balances[req.senderRow].entity == Wallet && w.book.balances[req.senderRow].key == currency
    && w.book.balances[req.senderRow].owner == req.parties.owner.wallet
  }

  /** A transfer that was booked and broadcast is a sweep step on the chain. */
  lemma TransferIsStep(
    w: World, currency: Key, place: Place, rows: seq<Reservations.Row>, req: Transfers.Request,
    attempts: seq<Attempt>, raw: Reservations.RawTx, out: Transfers.Output, after: Book, hash: string)
    requires AttemptsListTheChain(w.coins, place, req.parties.owner.wallet, attempts) && Injective(place)
    requires OwnTransfer(w, req, currency) && NewHash(w, hash)
    requires Transfers.DeliversAmount(rows, req, attempts, raw, out.amount)
    requires Transfers.Booked(w.book, after, req, out) && out.tx.Some? && out.decremented
    requires after.txs[out.tx.value].hash in {None, Some(hash)}
    ensures var sent := Step(
              w, currency, Sweep(after.txs[out.tx.value], req.senderRow, Placed(place, raw.inputs), hash));
            sent != w && sent.book == after && |sent.sends| == |w.sends| + 1
  {
    var tx, inputs := after.txs[out.tx.value], Placed(place, raw.inputs);
    var fee := SweepCarries(w.coins, place, rows, req, attempts, raw, out.amount);
    Accounting.TransferIsEvent(w.book, after, req, out);
    CarriesIsSendable(w, currency, tx, inputs, 0, hash, fee);
    SendTakesEffect(w, currency, Sweep(tx, req.senderRow, inputs, hash), after, 0);
  }

  /** A transfer that was broadcast and then rolled back strands its transaction. */
  lemma StrandedTransferIsStep(
    w: World, currency: Key, place: Place, rows: seq<Reservations.Row>, req: Transfers.Request,
    attempts: seq<Attempt>, raw: Reservations.RawTx, out: Transfers.Output, after: Book, hash: string)
    requires AttemptsListTheChain(w.coins, place, req.parties.owner.wallet, attempts) && Injective(place)
    requires OwnTransfer(w, req, currency) && NewHash(w, hash)
    requires Transfers.DeliversAmount(rows, req, attempts, raw, out.amount)
    requires Transfers.Restored(w.book, after, req, out) && out.tx.Some?
    requires after.txs[|w.book.txs|].hash in {None, Some(hash)}
    ensures var tx, inputs := after.txs[|w.book.txs|], Placed(place, raw.inputs);
            var sent := Step(w, currency, Strand(tx, req.senderRow, inputs, 0, hash));
            sent != w && sent.book == after && |sent.sends| == |w.sends| + 1
  {
    var tx, inputs := after.txs[|w.book.txs|], Placed(place, raw.inputs);
    var fee := SweepCarries(w.coins, place, rows, req, attempts, raw, out.amount);
    assert after == Accounting.Appended(w.book, tx);
    CarriesIsSendable(w, currency, tx, inputs, 0, hash, fee);
    SendTakesEffect(w, currency, Strand(tx, req.senderRow, inputs, 0, hash), after, 0);
  }
}
