/** A UTXO withdrawal from its creation to its confirmation: what it costs the system itself. */
module Neutrality {
  import opened Outcomes
  import opened Ledger
  import opened Coins
  import opened ChainLedger
  import opened Sends
  import Accounting
  import Reservations
  import SignedUtxo
  import Withdrawals

  /** A withdrawal record whose service fee is what its transaction pays the network. */
  ghost predicate PaysItself(w: World, currency: Key, id: nat, fee: int) {
    && |w.sends| == |w.book.txs| && id < |w.book.txs| && w.sends[id].Sent?
    && var tx := w.book.txs[id];
       && tx.kind == Withdrawal && Of(tx, currency) && tx.serviceFee == w.sends[id].fee == fee
       && (tx.status == Completed ==> tx.networkFee == Some(fee))
  }

  /** Confirming any other record leaves this one alone. */
  lemma OthersKeepRecord(w: World, currency: Key, id: nat, paid: int, other: nat, fee: int)
    requires PaysItself(w, currency, id, paid) && other != id
    ensures PaysItself(Handled(w, Accounting.Confirmed(other, fee)), currency, id, paid)
  {
  }

  lemma SettlingKeepsPaying(w: World, currency: Key, id: nat, paid: int)
    requires PaysItself(w, currency, id, paid)
    ensures PaysItself(Step(w, currency, Settle(id)), currency, id, paid)
  {
    var after := Step(w, currency, Settle(id));
    if after != w {
      var c := Accounting.FromReceipt(w.book.txs[id], w.sends[id].fee).value;
      assert after.book == Confirm(w.book, id, c).value;
      assert after.book.txs == w.book.txs[id := Ledger.Confirmed(w.book.txs[id], c)];
    }
  }

  lemma StepKeepsPaying(w: World, currency: Key, id: nat, paid: int, e: Event)
    requires PaysItself(w, currency, id, paid)
    ensures PaysItself(Step(w, currency, e), currency, id, paid)
  {
    if Step(w, currency, e) != w {
      match e
      case Arrive(_, _, _) =>
      case Credit(n, _, fee) => OthersKeepRecord(w, currency, id, paid, n, fee);
      case Settle(n) =>
        if n == id {
          SettlingKeepsPaying(w, currency, id, paid);
        } else {
          OthersKeepRecord(w, currency, id, paid, n, w.sends[n].fee);
        }
      case Seen(_, _, _) => ChangeStep(w, currency, e);
      case Drop(_, _) => ChangeStep(w, currency, e);
      case StoreHash(_) => ChangeStep(w, currency, e);
      case Expect(_) => AddStep(w, currency, e);
      case Unexpected(_, _) => AddStep(w, currency, e);
      case Abandon(_) => AddStep(w, currency, e);
      case _ => var book, change := SendStep(w, currency, e, 0);
    }
  }

  lemma {:induction false} RunKeepsPaying(w: World, currency: Key, id: nat, paid: int, events: seq<Event>)
    requires PaysItself(w, currency, id, paid)
    ensures PaysItself(Run(w, currency, events), currency, id, paid)
  {
    if events != [] {
      RunKeepsPaying(w, currency, id, paid, events[..|events| - 1]);
      StepKeepsPaying(Run(w, currency, events[..|events| - 1]), currency, id, paid, events[|events| - 1]);
    }
  }

  /** A completed withdrawal that pays itself leaves no trace in the system balance. */
  lemma CompletedIsNeutral(tx: Tx, fee: int)
    requires tx.kind == Withdrawal && tx.key == tx.coin && tx.serviceFee == fee
    requires tx.status == Completed && tx.networkFee == Some(fee)
    ensures forall key :: Accounting.Contribution(tx, key) == 0
  {
  }

  lemma BookedPaysItself(
    w: World, sent: World, currency: Key, req: Withdrawals.Request, out: Withdrawals.Output, hash: string)
    requires |w.sends| == |w.book.txs| && req.key == req.coin == currency && out.tx.Some?
    requires Withdrawals.Booked(w.book, sent.book, req, out)
    requires sent.sends == w.sends + [Sent(out.serviceFee, hash)]
    ensures PaysItself(sent, currency, out.tx.value, out.serviceFee)
  {
  }

  /**
   * The merchant is charged the fee of the plan, and that is what the transaction pays on the
   * chain. So from the books a created withdrawal leaves, whatever happens later, once it is
   * completed it leaves the system balance of every currency unchanged.
   */
  lemma UtxoWithdrawalIsNeutral(
    w: World, currency: Key, place: Place, rows: seq<Reservations.Row>, req: Withdrawals.Request,
    attempts: seq<SignedUtxo.Attempt>, raw: Reservations.RawTx, out: Withdrawals.Output, after: Book, hash: string,
    later: seq<Event>)
    requires |w.sends| == |w.book.txs| && NewHash(w, hash) && Injective(place)
    requires AttemptsListTheChain(w.coins, place, req.parties.owner.wallet, attempts)
    requires OwnRequest(w.book.balances, req, currency)
    requires Withdrawals.PaysOwnFee(rows, req, attempts, raw, out.serviceFee)
    requires Withdrawals.Booked(w.book, after, req, out) && out.tx.Some? && out.decremented
    requires after.txs[out.tx.value].hash in {None, Some(hash)}
    ensures var sent := Step(w, currency, WithdrawalEvent(after.txs[out.tx.value], req, place, raw, hash));
            var end, id := Run(sent, currency, later), out.tx.value;
            && sent.book == after && PaysItself(end, currency, id, out.serviceFee)
            && (end.book.txs[id].status == Completed ==>
                  forall key :: Accounting.Contribution(end.book.txs[id], key) == 0)
  {
    var sent := Step(w, currency, WithdrawalEvent(after.txs[out.tx.value], req, place, raw, hash));
    WithdrawalIsStep(w, currency, place, rows, req, attempts, raw, out, after, hash);
    BookedPaysItself(w, sent, currency, req, out, hash);
    SentIsNeutral(sent, currency, out.tx.value, out.serviceFee, later);
  }

  lemma SentIsNeutral(sent: World, currency: Key, id: nat, fee: int, later: seq<Event>)
    requires PaysItself(sent, currency, id, fee)
    ensures var end := Run(sent, currency, later);
            && PaysItself(end, currency, id, fee)
            && (end.book.txs[id].status == Completed ==>
                  forall key :: Accounting.Contribution(end.book.txs[id], key) == 0)
  {
    RunKeepsPaying(sent, currency, id, fee, later);
    var tx := Run(sent, currency, later).book.txs[id];
    if tx.status == Completed {
      CompletedIsNeutral(tx, fee);
    }
  }
}
