/** What happens to withdrawals and transfers once the chain has decided about them. */
module Settlement {
  import opened Outcomes
  import opened Ledger
  import opened Desk
  import Nonces

  /** The restored record and balances of a withdrawal the chain reverted. */
  function RevertedWithdrawal(book: Book, id: nat, fee: int): Outcome<Book> {
    var cancelled := Cancel(book, id, Status.Failed, Some(fee));
    if cancelled.Err? then cancelled
    else
      var tx, rows := book.txs[id], cancelled.value.balances;
      if tx.sender.None? then Err(Validation)
      else
        var sender, merchant := Find(rows, Wallet, tx.sender.value, tx.key), Find(rows, Merchant, tx.merchant, tx.key);
        if sender.None? || merchant.None? then Err(Unavailable)
        else
          var moved := MoveForWithdrawal(
            rows, Increment, DbId(id), sender.value, merchant.value, tx.key.ticker, tx.amount, tx.serviceFee);
          if moved.Err? then Err(moved.error) else Ok(cancelled.value.(balances := moved.value))
  }

  /** The restored record and balance of an internal transfer the chain reverted. */
  function RevertedTransfer(book: Book, id: nat, fee: int): Outcome<Book> {
    var cancelled := Cancel(book, id, Status.Failed, Some(fee));
    if cancelled.Err? then cancelled
    else
      var tx, rows := book.txs[id], cancelled.value.balances;
      if tx.sender.None? then Err(Validation)
      else
        var sender := Find(rows, Wallet, tx.sender.value, tx.key);
        if sender.None? then Err(Unavailable)
        else
          var moved := Adjust(rows, sender.value, Increment, tx.key.ticker, tx.amount);
          if moved.Err? then Err(moved.error) else Ok(cancelled.value.(balances := moved.value))
  }

  /** The books after a reversal that failed: the record may be cancelled and its fee charged already. */
  function HalfReverted(book: Book, id: nat, fee: int): Book {
    var cancelled := Cancel(book, id, Status.Failed, Some(fee));
    if cancelled.Ok? then cancelled.value else book
  }

  /** The confirmation that a receipt becomes; only transfers accept a receipt without a fee. */
  function FromReceipt(tx: Tx, fee: int): Confirmation {
    Confirmation(Completed, if tx.hash.None? then "" else tx.hash.value, tx.amount, fee, tx.kind == Internal)
  }

  /** Account chains confirm the nonce of the transaction, whether it succeeded or was reverted. */
  method ConfirmNonce(desk: Tables, utxo: bool, isTest: bool) returns (error: Option<Error>)
    modifies desk.counters
    ensures desk.counters.Of(!isTest) == old(desk.counters.Of(!isTest))
    ensures utxo ==> error == None && desk.counters.Of(isTest) == old(desk.counters.Of(isTest))
    ensures !utxo ==>
              match Nonces.Confirm(old(desk.counters.Of(isTest)))
              case Updated(c) => error == None && desk.counters.Of(isTest) == c
              case Refused(_) => error == Some(Unavailable) && desk.counters.Of(isTest) == old(desk.counters.Of(isTest))
  {
    if !utxo {
      var refused := desk.counters.IncrementConfirmedTransaction(isTest);
      if refused.Some? {
        return Some(Unavailable);
      }
    }
    return None;
  }

  /** confirmWithdrawal. */
  method ConfirmWithdrawal(desk: Tables, id: nat, payment: nat, utxo: bool, isTest: bool, fee: int)
    returns (error: Option<Error>)
    requires id < |desk.store.txs| && payment < |desk.payments|
    modifies desk`payments, desk.store, desk.counters
    ensures error.None? <==>
              && (utxo || old(desk.counters.Of(isTest)).pending > 0)
              && Confirm(old(desk.store.Value()), id, FromReceipt(old(desk.store.txs[id]), fee)).Ok?
    ensures error.None? ==>
              && Ok(desk.store.Value()) ==
                 Confirm(old(desk.store.Value()), id, FromReceipt(old(desk.store.txs[id]), fee))
              && desk.payments == old(desk.payments)[payment := PaymentStatus.Success]
    ensures error.Some? ==> desk.store.Value() == old(desk.store.Value()) && desk.payments == old(desk.payments)
    ensures desk.counters.Of(isTest) == AfterSettlement(utxo, old(desk.counters.Of(isTest)))
    ensures desk.counters.Of(!isTest) == old(desk.counters.Of(!isTest))
  {
    error := ConfirmNonce(desk, utxo, isTest);
    if error.Some? {
      return;
    }
    error := desk.store.ConfirmTransaction(id, FromReceipt(desk.store.txs[id], fee));
    if error.Some? {
      return;
    }
    error := desk.UpdatePayment(payment, PaymentStatus.Success);
  }

  /** The counters after a settlement: on account chains one pending transaction became confirmed. */
  function AfterSettlement(utxo: bool, c: Nonces.Counters): Nonces.Counters {
    if utxo || Nonces.Confirm(c).Refused? then c else Nonces.Confirm(c).counters
  }

  /** confirmInternalTransfer. */
  method ConfirmTransfer(desk: Tables, id: nat, utxo: bool, isTest: bool, fee: int) returns (error: Option<Error>)
    requires id < |desk.store.txs|
    modifies desk.store, desk.counters
    ensures error.None? <==>
              && (utxo || old(desk.counters.Of(isTest)).pending > 0)
              && Confirm(old(desk.store.Value()), id, FromReceipt(old(desk.store.txs[id]), fee)).Ok?
    ensures error.None? ==>
              Ok(desk.store.Value()) == Confirm(old(desk.store.Value()), id, FromReceipt(old(desk.store.txs[id]), fee))
    ensures error.Some? ==> desk.store.Value() == old(desk.store.Value())
    ensures desk.counters.Of(isTest) == AfterSettlement(utxo, old(desk.counters.Of(isTest)))
    ensures desk.counters.Of(!isTest) == old(desk.counters.Of(!isTest))
  {
    error := ConfirmNonce(desk, utxo, isTest);
    if error.Some? {
      return;
    }
    error := desk.store.ConfirmTransaction(id, FromReceipt(desk.store.txs[id], fee));
  }

  /** cancelWithdrawal. */
  method CancelWithdrawal(desk: Tables, id: nat, payment: nat, utxo: bool, isTest: bool, fee: int)
    returns (error: Option<Error>)
    requires id < |desk.store.txs| && payment < |desk.payments|
    modifies desk`payments, desk.store, desk.counters
    ensures error.None? <==>
              && (utxo || old(desk.counters.Of(isTest)).pending > 0)
              && RevertedWithdrawal(old(desk.store.Value()), id, fee).Ok?
    ensures error.None? ==>
              && Ok(desk.store.Value()) == RevertedWithdrawal(old(desk.store.Value()), id, fee)
              && desk.payments == old(desk.payments)[payment := PaymentStatus.Failed]
    ensures error.Some? ==> desk.payments == old(desk.payments)
    ensures error.Some? ==>
              desk.store.Value() ==
              if utxo || old(desk.counters.Of(isTest)).pending > 0 then HalfReverted(old(desk.store.Value()), id, fee)
              else old(desk.store.Value())
    ensures desk.counters.Of(isTest) == AfterSettlement(utxo, old(desk.counters.Of(isTest)))
    ensures desk.counters.Of(!isTest) == old(desk.counters.Of(!isTest))
  {
    error := ConfirmNonce(desk, utxo, isTest);
    if error.Some? {
      return;
    }
    var tx := desk.store.txs[id];
    error := desk.store.CancelTransaction(id, Status.Failed, Some(fee));
    if error.Some? {
      return;
    }
    if tx.sender.None? {
      return Some(Validation);
    }
    var sender := Find(desk.store.balances, Wallet, tx.sender.value, tx.key);
    var merchant := Find(desk.store.balances, Merchant, tx.merchant, tx.key);
    if sender.None? || merchant.None? {
      return Some(Unavailable);
    }
    error := desk.store.UpdateBalancesForWithdrawal(
      Increment, DbId(id), sender.value, merchant.value, tx.key.ticker, tx.amount, tx.serviceFee);
    if error.Some? {
      return;
    }
    error := desk.UpdatePayment(payment, PaymentStatus.Failed);
  }

  /** cancelInternalTransfer. */
  method CancelTransfer(desk: Tables, id: nat, utxo: bool, isTest: bool, fee: int) returns (error: Option<Error>)
    requires id < |desk.store.txs|
    modifies desk.store, desk.counters
    ensures error.None? <==>
              && (utxo || old(desk.counters.Of(isTest)).pending > 0)
              && RevertedTransfer(old(desk.store.Value()), id, fee).Ok?
    ensures error.None? ==> Ok(desk.store.Value()) == RevertedTransfer(old(desk.store.Value()), id, fee)
    ensures error.Some? ==>
              desk.store.Value() ==
              if utxo || old(desk.counters.Of(isTest)).pending > 0 then HalfReverted(old(desk.store.Value()), id, fee)
              else old(desk.store.Value())
    ensures desk.counters.Of(isTest) == AfterSettlement(utxo, old(desk.counters.Of(isTest)))
    ensures desk.counters.Of(!isTest) == old(desk.counters.Of(!isTest))
  {
    error := ConfirmNonce(desk, utxo, isTest);
    if error.Some? {
      return;
    }
    var tx := desk.store.txs[id];
    error := desk.store.CancelTransaction(id, Status.Failed, Some(fee));
    if error.Some? {
      return;
    }
    if tx.sender.None? {
      return Some(Validation);
    }
    var sender := Find(desk.store.balances, Wallet, tx.sender.value, tx.key);
    if sender.None? {
      return Some(Unavailable);
    }
    error := desk.store.UpdateBalanceById(sender.value, Increment, tx.key.ticker, tx.amount);
  }

  // ----- the price of a reverted withdrawal -----

  function If(condition: bool, amount: int): int {
    if condition then amount else 0
  }

  predicate IsCoin(tx: Tx, q: Query)
    requires tx.sender.Some?
  {
    Matches(Wallet, tx.sender.value, tx.coin, q)
  }

  predicate IsSender(tx: Tx, q: Query)
    requires tx.sender.Some?
  {
    Matches(Wallet, tx.sender.value, tx.key, q)
  }

  predicate IsMerchant(tx: Tx, q: Query) {
    Matches(Merchant, tx.merchant, tx.key, q)
  }

  /** A cancellation with a fee moves the sender's coin total by the fee and nothing else. */
  lemma CancelMoves(book: Book, id: nat, status: Status, fee: Option<int>, q: Query)
    requires Cancel(book, id, status, fee).Ok? && id < |book.txs| && book.txs[id].sender.Some?
    ensures Total(Cancel(book, id, status, fee).value.balances, q) ==
            Total(book.balances, q) - If(fee.Some? && IsCoin(book.txs[id], q), if fee.Some? then fee.value else 0)
  {
    var tx := book.txs[id];
    if fee.Some? && fee.value != 0 {
      var coin := Find(book.balances, Wallet, tx.sender.value, tx.coin);
      AdjustMoves(book.balances, coin.value, Decrement, tx.coin.ticker, fee.value, q);
    }
  }

  lemma RevertMoves(book: Book, id: nat, fee: int, q: Query)
    requires RevertedWithdrawal(book, id, fee).Ok? && id < |book.txs| && book.txs[id].sender.Some?
    ensures var tx := book.txs[id];
            Total(RevertedWithdrawal(book, id, fee).value.balances, q) ==
            Total(book.balances, q) - If(IsCoin(tx, q), fee) + If(IsSender(tx, q), tx.amount)
            + If(IsMerchant(tx, q), tx.amount + tx.serviceFee)
  {
    var tx := book.txs[id];
    CancelMoves(book, id, Status.Failed, Some(fee), q);
    var rows := Cancel(book, id, Status.Failed, Some(fee)).value.balances;
    var sender, merchant := Find(rows, Wallet, tx.sender.value, tx.key), Find(rows, Merchant, tx.merchant, tx.key);
    WithdrawalMoves(rows, Increment, DbId(id), sender.value, merchant.value, tx.amount, tx.serviceFee, q);
  }

  /** The rows a withdrawal moves belong to its sender and its merchant. */
  predicate OwnRows(rows: seq<Balance>, tx: Tx, system: nat, merchant: nat) {
    && system < |rows| && merchant < |rows| && tx.sender.Some?
    && rows[system].entity == Wallet && rows[system].owner == tx.sender.value && rows[system].key == tx.key
    && rows[merchant].entity == Merchant && rows[merchant].owner == tx.merchant && rows[merchant].key == tx.key
  }

  /** Two states of one record: nothing a reversal reads has changed. */
  predicate SameOrder(a: Tx, b: Tx) {
    && a.sender == b.sender && a.merchant == b.merchant && a.key == b.key && a.coin == b.coin
    && a.amount == b.amount && a.serviceFee == b.serviceFee
  }

  /**
   * Whatever happens to the balances in between, what a withdrawal took when it was created and
   * what its reversal gave back differ, on every total, by exactly the network fee in the sender's coin.
   */
  lemma ReversalCostsOnlyTheFee(
    before: seq<Balance>, tx: Tx, txId: int, system: nat, merchant: nat, later: Book, id: nat, fee: int, q: Query)
    requires txId > 0 && OwnRows(before, tx, system, merchant)
    requires MoveForWithdrawal(before, Decrement, txId, system, merchant, tx.key.ticker, tx.amount, tx.serviceFee).Ok?
    requires id < |later.txs| && SameOrder(later.txs[id], tx) && RevertedWithdrawal(later, id, fee).Ok?
    ensures var created := MoveForWithdrawal(
              before, Decrement, txId, system, merchant, tx.key.ticker, tx.amount, tx.serviceFee).value;
            var taken := Total(before, q) - Total(created, q);
            var returned := Total(RevertedWithdrawal(later, id, fee).value.balances, q) - Total(later.balances, q);
            taken - returned == If(IsCoin(tx, q), fee)
  {
    WithdrawalMoves(before, Decrement, txId, system, merchant, tx.amount, tx.serviceFee, q);
    RevertMoves(later, id, fee, q);
  }

  // ----- reversal without anything in between -----

  /** The unique index on balance rows. */
  ghost predicate UniqueRows(rows: seq<Balance>) {
    forall i, j | 0 <= i < |rows| && 0 <= j < |rows| && rows[i].entity == rows[j].entity
                  && rows[i].owner == rows[j].owner && rows[i].key == rows[j].key :: i == j
  }

  /** The same rows up to their amounts. */
  ghost predicate SameRows(a: seq<Balance>, b: seq<Balance>) {
    |a| == |b| && forall i | 0 <= i < |a| :: a[i] == b[i].(amount := a[i].amount)
  }

  lemma FindsRow(rows: seq<Balance>, now: seq<Balance>, i: nat)
    requires UniqueRows(rows) && SameRows(now, rows) && i < |rows|
    ensures Find(now, rows[i].entity, rows[i].owner, rows[i].key) == Some(i)
  {
    var found := Find(now, rows[i].entity, rows[i].owner, rows[i].key);
    assert now[i] in now;
  }

  /** The books right after a withdrawal was created from `before`. */
  ghost predicate CreatedFrom(
    before: seq<Balance>, book: Book, id: nat, txId: int, system: nat, merchant: nat)
  {
    && id < |book.txs| && txId > 0 && OwnRows(before, book.txs[id], system, merchant)
    && book.txs[id].amount > 0 && book.txs[id].serviceFee >= 0
    && MoveForWithdrawal(
         before, Decrement, txId, system, merchant, book.txs[id].key.ticker, book.txs[id].amount,
         book.txs[id].serviceFee) == Ok(book.balances)
  }

  /** The amounts a created withdrawal has left. */
  lemma CreatedAmounts(before: seq<Balance>, book: Book, id: nat, txId: int, system: nat, merchant: nat)
    requires CreatedFrom(before, book, id, txId, system, merchant)
    ensures var tx := book.txs[id];
            && SameRows(book.balances, before)
            && book.balances[system].amount == before[system].amount - tx.amount >= 0
            && book.balances[merchant].amount == before[merchant].amount - tx.amount - tx.serviceFee >= 0
            && forall i | 0 <= i < |before| && i != system && i != merchant :: book.balances[i] == before[i]
  {
  }

  /** The row with `delta` added to its amount. */
  function Plus(b: Balance, delta: int): Balance {
    b.(amount := b.amount + delta)
  }

  /** Charging the fee needs enough coins and takes them from the sender's coin row. */
  lemma FeeIsCharged(before: seq<Balance>, book: Book, id: nat, coin: nat, fee: int)
    requires UniqueRows(before) && SameRows(book.balances, before) && id < |book.txs| && coin < |before| && fee >= 0
    requires book.txs[id].sender.Some? && before[coin].entity == Wallet
    requires before[coin].owner == book.txs[id].sender.value && before[coin].key == book.txs[id].coin
    requires book.balances[coin].amount >= 0
    ensures var cancelled := Cancel(book, id, Status.Failed, Some(fee));
            && (cancelled.Ok? <==> book.balances[coin].amount >= fee)
            && (cancelled.Ok? ==> cancelled.value.balances == book.balances[coin := Plus(book.balances[coin], -fee)])
  {
    FindsRow(before, book.balances, coin);
  }

  /** Giving a withdrawal back adds to the merchant's and the wallet's row. */
  lemma GivesBack(rows: seq<Balance>, txId: int, system: nat, merchant: nat, amount: int, serviceFee: int)
    requires ValidPair(rows, txId, system, merchant) && amount > 0 && serviceFee >= 0
    requires rows[system].amount >= 0 && rows[merchant].amount >= 0
    ensures MoveForWithdrawal(rows, Increment, txId, system, merchant, rows[system].key.ticker, amount, serviceFee) ==
            Ok(rows[merchant := Plus(rows[merchant], amount + serviceFee)][system := Plus(rows[system], amount)])
  {
  }

  /** Two rows that lost an amount and got it back are as before, whichever row paid the fee. */
  lemma TakenAndGiven(
    before: seq<Balance>, taken: seq<Balance>, system: nat, merchant: nat, coin: nat, amount: int, charged: int,
    fee: int)
    requires SameRows(taken, before) && system < |before| && merchant < |before| && coin < |before|
    requires system != merchant
    requires taken[system].amount == before[system].amount - amount
    requires taken[merchant].amount == before[merchant].amount - charged
    requires forall i | 0 <= i < |before| && i != system && i != merchant :: taken[i] == before[i]
    ensures var rows := taken[coin := Plus(taken[coin], -fee)];
            rows[merchant := Plus(rows[merchant], charged)][system := Plus(rows[system], amount)]
            == before[coin := Plus(before[coin], -fee)]
  {
  }

  /**
   * With nothing in between, a reversal succeeds exactly when the sender's coins cover the fee,
   * and then every row is as before the withdrawal except that the fee is gone.
   */
  lemma ReversalRestoresRows(
    before: seq<Balance>, book: Book, id: nat, txId: int, system: nat, merchant: nat, coin: nat, fee: int)
    requires UniqueRows(before) && CreatedFrom(before, book, id, txId, system, merchant)
    requires coin < |before| && before[coin].entity == Wallet && before[coin].amount >= 0 && fee >= 0
    requires before[coin].owner == book.txs[id].sender.value && before[coin].key == book.txs[id].coin
    ensures RevertedWithdrawal(book, id, fee).Ok? <==> book.balances[coin].amount >= fee
    ensures RevertedWithdrawal(book, id, fee).Ok? ==>
              RevertedWithdrawal(book, id, fee).value.balances == before[coin := Plus(before[coin], -fee)]
  {
    var tx := book.txs[id];
    CreatedAmounts(before, book, id, txId, system, merchant);
    FeeIsCharged(before, book, id, coin, fee);
    var rows := book.balances[coin := Plus(book.balances[coin], -fee)];
    FindsRow(before, rows, system);
    FindsRow(before, rows, merchant);
    if book.balances[coin].amount >= fee {
      GivesBack(rows, DbId(id), system, merchant, tx.amount, tx.serviceFee);
      TakenAndGiven(before, book.balances, system, merchant, coin, tx.amount, tx.amount + tx.serviceFee, fee);
    }
  }
}
