/** Balance rows, transaction records, and the database operations that change them. */
module Ledger {
  import opened Outcomes

  /** A currency on one network. */
  datatype Key = Key(ticker: string, network: string)

  datatype Entity = Merchant | Wallet

  /** A balance row; its id is its position. */
  datatype Balance = Balance(entity: Entity, owner: int, key: Key, amount: int)

  datatype Operation = Increment | Decrement

  datatype Kind = Incoming | Internal | Withdrawal | Virtual

  datatype Status =
    | Pending | InProgress | InProgressInvalid | Completed | CompletedInvalid | Cancelled | Failed

  /** A transaction record; `coin` is the native coin in which its network fee is paid. */
  datatype Tx = Tx(
    kind: Kind, status: Status, merchant: int, entity: int, sender: Option<int>, recipient: Option<int>,
    key: Key, coin: Key, amount: int, serviceFee: int, fact: Option<int>, networkFee: Option<int>,
    hash: Option<string>)

  datatype Book = Book(balances: seq<Balance>, txs: seq<Tx>)

  /** The owner of transactions that belong to the system itself. */
  const SYSTEM_MERCHANT := 0

  /** Database identifiers start at one. */
  function DbId(position: nat): int {
    position + 1
  }

  function Signed(op: Operation, amount: int): int {
    if op == Increment then amount else -amount
  }

  // ----- balances -----

  function Find(rows: seq<Balance>, entity: Entity, owner: int, key: Key): (r: Option<nat>)
    ensures r.Some? ==> r.value < |rows| && rows[r.value].entity == entity
                        && rows[r.value].owner == owner && rows[r.value].key == key
    ensures r.None? ==> forall b | b in rows :: b.entity != entity || b.owner != owner || b.key != key
  {
    if rows == [] then None
    else
      var k := |rows| - 1;
      var earlier := Find(rows[..k], entity, owner, key);
      assert rows == rows[..k] + [rows[k]];
      if earlier.Some? then earlier
      else if rows[k].entity == entity && rows[k].owner == owner && rows[k].key == key then Some(k)
      else None
  }

  /** The table refuses negative amounts. */
  function Shift(rows: seq<Balance>, id: nat, delta: int): Outcome<seq<Balance>>
    requires id < |rows|
  {
    if rows[id].amount + delta < 0 then Err(Negative)
    else Ok(rows[id := rows[id].(amount := rows[id].amount + delta)])
  }

  /** updateBalanceByID: money of another currency is silently ignored. */
  function Adjust(rows: seq<Balance>, id: nat, op: Operation, ticker: string, amount: int): Outcome<seq<Balance>> {
    if amount == 0 then Err(Validation)
    else if id >= |rows| then Err(Unavailable)
    else if rows[id].key.ticker != ticker then Ok(rows)
    else Shift(rows, id, Signed(op, amount))
  }

  /** UpdateBalance: changes the entity's row of that currency, creating it when it is missing. */
  function Post(rows: seq<Balance>, entity: Entity, owner: int, key: Key, op: Operation, amount: int)
    : Outcome<seq<Balance>>
  {
    if owner == 0 || key.ticker == "" then Err(Validation)
    else
      var found := Find(rows, entity, owner, key);
      if found.Some? then Shift(rows, found.value, Signed(op, amount))
      else if Signed(op, amount) < 0 then Err(Negative)
      else Ok(rows + [Balance(entity, owner, key, Signed(op, amount))])
  }

  /** The two balances a withdrawal moves are of one currency and of the right kinds. */
  predicate ValidPair(rows: seq<Balance>, txId: int, system: nat, merchant: nat) {
    txId > 0 && system < |rows| && merchant < |rows|
    && rows[system].key == rows[merchant].key
    && rows[system].entity == Wallet && rows[merchant].entity == Merchant
  }

  /**
   * UpdateBalancesForWithdrawal: the merchant moves by amount and service fee, the wallet by the
   * amount, both or none. Invalid input is reported as success and changes nothing.
   */
  function MoveForWithdrawal(
    rows: seq<Balance>, op: Operation, txId: int, system: nat, merchant: nat,
    ticker: string, amount: int, serviceFee: int): Outcome<seq<Balance>>
  {
    if !ValidPair(rows, txId, system, merchant) then Ok(rows)
    else
      var charged := Adjust(rows, merchant, op, ticker, amount + serviceFee);
      if charged.Err? then Err(InsufficientBalance)
      else Adjust(charged.value, system, op, ticker, amount)
  }

  // ----- transactions -----

  /** What the confirmation of a transaction reports. */
  datatype Confirmation = Confirmation(status: Status, hash: string, fact: int, networkFee: int, allowZeroFee: bool)

  predicate ValidConfirmation(c: Confirmation) {
    (c.status == Completed || c.status == CompletedInvalid)
    && c.hash != "" && c.fact != 0 && (c.networkFee != 0 || c.allowZeroFee)
  }

  function Min(a: int, b: int): int {
    if a < b then a else b
  }

  /** What a merchant gains from an incoming transaction. */
  function Gain(tx: Tx): int
    requires tx.fact.Some?
  {
    Min(tx.fact.value, tx.amount) - tx.serviceFee
  }

  /** updateBalancesAfterTxConfirmation. */
  function SettleBalances(rows: seq<Balance>, tx: Tx, networkFee: int): Outcome<seq<Balance>> {
    if tx.fact.None? || tx.fact.value <= 0 then Err(Validation)
    else
      match tx.kind
      case Incoming =>
        if tx.recipient.None? then Err(Validation)
        else
          var received := Post(rows, Wallet, tx.recipient.value, tx.key, Increment, tx.fact.value);
          if received.Err? || tx.status == CompletedInvalid || tx.merchant == SYSTEM_MERCHANT then received
          else if Gain(tx) < 0 then Err(Negative)
          else Post(received.value, Merchant, tx.merchant, tx.key, Increment, Gain(tx))
      case Internal =>
        if tx.sender.None? || tx.recipient.None? then Err(Validation)
        else
          var received := Post(rows, Wallet, tx.recipient.value, tx.key, Increment, tx.fact.value);
          if received.Err? then received
          else Post(received.value, Wallet, tx.sender.value, tx.coin, Decrement, networkFee)
      case Withdrawal =>
        if tx.sender.None? then Err(Validation)
        else Post(rows, Wallet, tx.sender.value, tx.coin, Decrement, networkFee)
      case Virtual =>
        if tx.status != Completed || tx.merchant == SYSTEM_MERCHANT then Err(Validation)
        else Post(rows, Merchant, tx.merchant, tx.key, Increment, tx.fact.value)
  }

  /** The record after its confirmation. */
  function Confirmed(tx: Tx, c: Confirmation): Tx {
    tx.(status := c.status, fact := Some(c.fact), networkFee := Some(c.networkFee), hash := Some(c.hash),
        serviceFee := if c.status == CompletedInvalid then 0 else tx.serviceFee)
  }

  /** Confirm: only a completed status with complete data is accepted. */
  function Confirm(book: Book, id: nat, c: Confirmation): Outcome<Book> {
    if !ValidConfirmation(c) then Err(Validation) else ConfirmRecord(book, id, c)
  }

  /** confirm: record and balances change together or not at all. */
  function ConfirmRecord(book: Book, id: nat, c: Confirmation): Outcome<Book> {
    if id >= |book.txs| then Err(Unavailable)
    else if book.txs[id].status == c.status then Err(Validation)
    else
      var tx := Confirmed(book.txs[id], c);
      var settled := SettleBalances(book.balances, tx, c.networkFee);
      if settled.Err? then Err(settled.error)
      else Ok(Book(settled.value, book.txs[id := tx]))
  }

  /** Cancel: optionally charges the network fee to the sender's coin balance, then sets the status. */
  function Cancel(book: Book, id: nat, status: Status, fee: Option<int>): Outcome<Book> {
    if id >= |book.txs| then Err(Unavailable)
    else
      var tx := book.txs[id];
      var cancelled := tx.(status := status, networkFee :=
        if fee.None? then tx.networkFee else if fee.value == 0 then None else fee);
      if fee.None? || fee.value == 0 then Ok(book.(txs := book.txs[id := cancelled]))
      else if tx.sender.None? then Err(Validation)
      else
        var coin := Find(book.balances, Wallet, tx.sender.value, tx.coin);
        if coin.None? then Err(Unavailable)
        else
          var charged := Adjust(book.balances, coin.value, Decrement, tx.coin.ticker, fee.value);
          if charged.Err? then Err(charged.error)
          else Ok(Book(charged.value, book.txs[id := cancelled]))
  }

  /** Receive: the transaction was seen on the chain but is not confirmed yet. */
  function Receive(book: Book, id: nat, status: Status, hash: string, fact: int): Outcome<Book> {
    if status != InProgress && status != InProgressInvalid then Err(Validation)
    else if hash == "" || fact == 0 then Err(Validation)
    else if id >= |book.txs| || book.txs[id].recipient.None? then Err(Unavailable)
    else Ok(book.(txs := book.txs[id :=
      book.txs[id].(status := status, fact := Some(fact), networkFee := None, hash := Some(hash))]))
  }

  // ----- totals -----

  /** Rows of one entity kind and currency, of one owner or of all. */
  datatype Query = Query(entity: Entity, owner: Option<int>, key: Key)

  predicate Matches(entity: Entity, owner: int, key: Key, q: Query) {
    entity == q.entity && key == q.key && (q.owner.None? || q.owner.value == owner)
  }

  function Total(rows: seq<Balance>, q: Query): int {
    if rows == [] then 0
    else
      var last := rows[|rows| - 1];
      Total(rows[..|rows| - 1], q) + (if Matches(last.entity, last.owner, last.key, q) then last.amount else 0)
  }

  lemma {:induction false} TotalAfterShift(rows: seq<Balance>, id: nat, delta: int, q: Query)
    requires id < |rows|
    ensures var b := rows[id];
            Total(rows[id := b.(amount := b.amount + delta)], q) ==
            Total(rows, q) + (if Matches(b.entity, b.owner, b.key, q) then delta else 0)
  {
    var k := |rows| - 1;
    var b := rows[id];
    var after := rows[id := b.(amount := b.amount + delta)];
    if id == k {
      assert after[..k] == rows[..k];
    } else {
      TotalAfterShift(rows[..k], id, delta, q);
      assert after[..k] == rows[..k][id := b.(amount := b.amount + delta)];
    }
  }

  /** A posting moves exactly the totals its row belongs to. */
  lemma PostMoves(
    rows: seq<Balance>, entity: Entity, owner: int, key: Key, op: Operation, amount: int, q: Query)
    requires Post(rows, entity, owner, key, op, amount).Ok?
    ensures Total(Post(rows, entity, owner, key, op, amount).value, q) ==
            Total(rows, q) + (if Matches(entity, owner, key, q) then Signed(op, amount) else 0)
  {
    var found := Find(rows, entity, owner, key);
    if found.Some? {
      TotalAfterShift(rows, found.value, Signed(op, amount), q);
    } else {
      var row := Balance(entity, owner, key, Signed(op, amount));
      assert (rows + [row])[..|rows|] == rows;
    }
  }

  lemma AdjustMoves(rows: seq<Balance>, id: nat, op: Operation, ticker: string, amount: int, q: Query)
    requires id < |rows| && rows[id].key.ticker == ticker && Adjust(rows, id, op, ticker, amount).Ok?
    ensures var after, b := Adjust(rows, id, op, ticker, amount).value, rows[id];
            && |after| == |rows|
            && Total(after, q) ==
               Total(rows, q) + (if Matches(b.entity, b.owner, b.key, q) then Signed(op, amount) else 0)
  {
    TotalAfterShift(rows, id, Signed(op, amount), q);
  }

  /** The two rows of a withdrawal move by amount plus fee and by the amount. */
  lemma WithdrawalMoves(
    rows: seq<Balance>, op: Operation, txId: int, system: nat, merchant: nat, amount: int, serviceFee: int, q: Query)
    requires ValidPair(rows, txId, system, merchant)
    requires MoveForWithdrawal(rows, op, txId, system, merchant, rows[system].key.ticker, amount, serviceFee).Ok?
    ensures var ticker := rows[system].key.ticker;
            var after := MoveForWithdrawal(rows, op, txId, system, merchant, ticker, amount, serviceFee).value;
            var m, s := rows[merchant], rows[system];
            Total(after, q) == Total(rows, q)
            + (if Matches(Merchant, m.owner, m.key, q) then Signed(op, amount + serviceFee) else 0)
            + (if Matches(Wallet, s.owner, s.key, q) then Signed(op, amount) else 0)
  {
    var ticker := rows[system].key.ticker;
    var charged := Adjust(rows, merchant, op, ticker, amount + serviceFee).value;
    AdjustMoves(rows, merchant, op, ticker, amount + serviceFee, q);
    AdjustMoves(charged, system, op, ticker, amount, q);
  }

  ghost predicate NonNegative(rows: seq<Balance>) {
    forall i | 0 <= i < |rows| :: rows[i].amount >= 0
  }

  /** Moving a withdrawal back restores every row. */
  lemma WithdrawalMoveUndone(
    rows: seq<Balance>, txId: int, otherId: int, system: nat, merchant: nat, ticker: string, amount: int,
    serviceFee: int)
    requires txId > 0 && otherId > 0
    requires NonNegative(rows)
    requires MoveForWithdrawal(rows, Decrement, txId, system, merchant, ticker, amount, serviceFee).Ok?
    ensures var moved := MoveForWithdrawal(rows, Decrement, txId, system, merchant, ticker, amount, serviceFee).value;
            MoveForWithdrawal(moved, Increment, otherId, system, merchant, ticker, amount, serviceFee) == Ok(rows)
  {
    if ValidPair(rows, txId, system, merchant) && rows[system].key.ticker == ticker {
      var moved := MoveForWithdrawal(rows, Decrement, txId, system, merchant, ticker, amount, serviceFee).value;
      var back := moved[merchant := rows[merchant]];
      assert back[system := rows[system]] == rows;
    }
  }

  // ----- no balance is ever negative -----

  lemma AdjustKeepsNonNegative(rows: seq<Balance>, id: nat, op: Operation, ticker: string, amount: int)
    requires NonNegative(rows) && Adjust(rows, id, op, ticker, amount).Ok?
    ensures NonNegative(Adjust(rows, id, op, ticker, amount).value)
  {
  }

  lemma PostKeepsNonNegative(rows: seq<Balance>, entity: Entity, owner: int, key: Key, op: Operation, amount: int)
    requires NonNegative(rows) && Post(rows, entity, owner, key, op, amount).Ok?
    ensures NonNegative(Post(rows, entity, owner, key, op, amount).value)
  {
  }

  lemma SettlingKeepsNonNegative(rows: seq<Balance>, tx: Tx, fee: int)
    requires NonNegative(rows) && SettleBalances(rows, tx, fee).Ok?
    ensures NonNegative(SettleBalances(rows, tx, fee).value)
  {
    match tx.kind
    case Incoming => PostKeepsNonNegative(rows, Wallet, tx.recipient.value, tx.key, Increment, tx.fact.value);
    case Internal => PostKeepsNonNegative(rows, Wallet, tx.recipient.value, tx.key, Increment, tx.fact.value);
    case Withdrawal => PostKeepsNonNegative(rows, Wallet, tx.sender.value, tx.coin, Decrement, fee);
    case Virtual => PostKeepsNonNegative(rows, Merchant, tx.merchant, tx.key, Increment, tx.fact.value);
  }

  lemma MovingKeepsNonNegative(
    rows: seq<Balance>, op: Operation, txId: int, system: nat, merchant: nat, ticker: string, amount: int,
    serviceFee: int)
    requires NonNegative(rows) && MoveForWithdrawal(rows, op, txId, system, merchant, ticker, amount, serviceFee).Ok?
    ensures NonNegative(MoveForWithdrawal(rows, op, txId, system, merchant, ticker, amount, serviceFee).value)
  {
    if ValidPair(rows, txId, system, merchant) {
      AdjustKeepsNonNegative(rows, merchant, op, ticker, amount + serviceFee);
    }
  }

  lemma CancellingKeepsNonNegative(book: Book, id: nat, status: Status, fee: Option<int>)
    requires NonNegative(book.balances) && Cancel(book, id, status, fee).Ok?
    ensures NonNegative(Cancel(book, id, status, fee).value.balances)
  {
  }

  // ----- the stored tables -----

  /** The balances, transactions tables; every method is one database transaction. */
  class Store {
    var balances: seq<Balance>
    var txs: seq<Tx>

    constructor ()
      ensures Value() == Book([], [])
    {
      balances, txs := [], [];
    }

    function Value(): Book
      reads this
    {
      Book(balances, txs)
    }

    method UpdateBalanceById(id: nat, op: Operation, ticker: string, amount: int) returns (error: Option<Error>)
      modifies this`balances
      ensures match Adjust(old(balances), id, op, ticker, amount)
              case Ok(rows) => error == None && balances == rows
              case Err(e) => error == Some(e) && balances == old(balances)
    {
      if amount == 0 {
        return Some(Validation);
      }
      if id >= |balances| {
        return Some(Unavailable);
      }
      if balances[id].key.ticker != ticker {
        return None;
      }
      var delta := if op == Decrement then -amount else amount;
      if balances[id].amount + delta < 0 {
        return Some(Negative);
      }
      balances := balances[id := balances[id].(amount := balances[id].amount + delta)];
      return None;
    }

    method UpdateBalance(entity: Entity, owner: int, key: Key, op: Operation, amount: int)
      returns (error: Option<Error>)
      modifies this`balances
      ensures match Post(old(balances), entity, owner, key, op, amount)
              case Ok(rows) => error == None && balances == rows
              case Err(e) => error == Some(e) && balances == old(balances)
    {
      if owner == 0 || key.ticker == "" {
        return Some(Validation);
      }
      var delta := if op == Decrement then -amount else amount;
      var found := Find(balances, entity, owner, key);
      if found.None? {
        if delta < 0 {
          return Some(Negative);
        }
        balances := balances + [Balance(entity, owner, key, delta)];
        return None;
      }
      var id := found.value;
      if balances[id].amount + delta < 0 {
        return Some(Negative);
      }
      balances := balances[id := balances[id].(amount := balances[id].amount + delta)];
      return None;
    }

    method UpdateBalancesForWithdrawal(
      op: Operation, txId: int, system: nat, merchant: nat, ticker: string, amount: int, serviceFee: int)
      returns (error: Option<Error>)
      modifies this`balances
      ensures match MoveForWithdrawal(old(balances), op, txId, system, merchant, ticker, amount, serviceFee)
              case Ok(rows) => error == None && balances == rows
              case Err(e) => error == Some(e) && balances == old(balances)
    {
      if !ValidPair(balances, txId, system, merchant) {
        return None;
      }
      var before := balances;
      error := UpdateBalanceById(merchant, op, ticker, amount + serviceFee);
      if error.Some? {
        return Some(InsufficientBalance);
      }
      error := UpdateBalanceById(system, op, ticker, amount);
      if error.Some? {
        balances := before;
      }
    }

    method CreateTransaction(tx: Tx) returns (id: nat)
      modifies this`txs
      ensures id == |old(txs)| && txs == old(txs) + [tx]
    {
      id := |txs|;
      txs := txs + [tx];
    }

    /** UpdateTransactionHash. */
    method SetTransactionHash(id: nat, hash: string)
      requires id < |txs|
      modifies this`txs
      ensures txs == old(txs)[id := old(txs)[id].(hash := Some(hash))]
    {
      txs := txs[id := txs[id].(hash := Some(hash))];
    }

    method ReceiveTransaction(id: nat, status: Status, hash: string, fact: int) returns (error: Option<Error>)
      modifies this`txs
      ensures match Receive(old(Value()), id, status, hash, fact)
              case Ok(book) => error == None && Value() == book
              case Err(e) => error == Some(e) && Value() == old(Value())
    {
      if status != InProgress && status != InProgressInvalid {
        return Some(Validation);
      }
      if hash == "" || fact == 0 {
        return Some(Validation);
      }
      if id >= |txs| || txs[id].recipient.None? {
        return Some(Unavailable);
      }
      txs := txs[id := txs[id].(status := status, fact := Some(fact), networkFee := None, hash := Some(hash))];
      return None;
    }

    /** updateBalancesAfterTxConfirmation, inside the caller's database transaction. */
    method UpdateBalancesAfterConfirmation(tx: Tx, networkFee: int) returns (error: Option<Error>)
      modifies this`balances
      ensures match SettleBalances(old(balances), tx, networkFee)
              case Ok(rows) => error == None && balances == rows
              case Err(e) => error == Some(e)
    {
      if tx.fact.None? || tx.fact.value <= 0 {
        return Some(Validation);
      }
      var fact := tx.fact.value;
      match tx.kind {
        case Incoming =>
          if tx.recipient.None? {
            return Some(Validation);
          }
          error := UpdateBalance(Wallet, tx.recipient.value, tx.key, Increment, fact);
          if error.Some? || tx.status == CompletedInvalid || tx.merchant == SYSTEM_MERCHANT {
            return error;
          }
          var gained := fact;
          if fact > tx.amount {
            gained := tx.amount;
          }
          if gained - tx.serviceFee < 0 {
            return Some(Negative);
          }
          error := UpdateBalance(Merchant, tx.merchant, tx.key, Increment, gained - tx.serviceFee);
        case Internal =>
          if tx.sender.None? || tx.recipient.None? {
            return Some(Validation);
          }
          error := UpdateBalance(Wallet, tx.recipient.value, tx.key, Increment, fact);
          if error.Some? {
            return error;
          }
          error := UpdateBalance(Wallet, tx.sender.value, tx.coin, Decrement, networkFee);
        case Withdrawal =>
          if tx.sender.None? {
            return Some(Validation);
          }
          error := UpdateBalance(Wallet, tx.sender.value, tx.coin, Decrement, networkFee);
        case Virtual =>
          if tx.status != Completed || tx.merchant == SYSTEM_MERCHANT {
            return Some(Validation);
          }
          error := UpdateBalance(Merchant, tx.merchant, tx.key, Increment, fact);
      }
    }

    method ConfirmTransaction(id: nat, c: Confirmation) returns (error: Option<Error>)
      modifies this
      ensures match Confirm(old(Value()), id, c)
              case Ok(book) => error == None && Value() == book
              case Err(e) => error == Some(e) && Value() == old(Value())
    {
      if c.status != Completed && c.status != CompletedInvalid {
        return Some(Validation);
      }
      if c.hash == "" || c.fact == 0 || (c.networkFee == 0 && !c.allowZeroFee) {
        return Some(Validation);
      }
      error := UpdateConfirmedRecord(id, c);
    }

    method UpdateConfirmedRecord(id: nat, c: Confirmation) returns (error: Option<Error>)
      modifies this
      ensures match ConfirmRecord(old(Value()), id, c)
              case Ok(book) => error == None && Value() == book
              case Err(e) => error == Some(e) && Value() == old(Value())
    {
      if id >= |txs| {
        return Some(Unavailable);
      }
      if txs[id].status == c.status {
        return Some(Validation);
      }
      var before := balances;
      var tx := Confirmed(txs[id], c);
      error := UpdateBalancesAfterConfirmation(tx, c.networkFee);
      if error.Some? {
        balances := before;
        return;
      }
      txs := txs[id := tx];
    }

    method CancelTransaction(id: nat, status: Status, fee: Option<int>) returns (error: Option<Error>)
      modifies this
      ensures match Cancel(old(Value()), id, status, fee)
              case Ok(book) => error == None && Value() == book
              case Err(e) => error == Some(e) && Value() == old(Value())
    {
      if id >= |txs| {
        return Some(Unavailable);
      }
      var tx := txs[id];
      var networkFee := None;
      if fee.Some? && fee.value != 0 {
        if tx.sender.None? {
          return Some(Validation);
        }
        var coin := Find(balances, Wallet, tx.sender.value, tx.coin);
        if coin.None? {
          return Some(Unavailable);
        }
        error := UpdateBalanceById(coin.value, Decrement, tx.coin.ticker, fee.value);
        if error.Some? {
          return error;
        }
        networkFee := fee;
      }
      txs := txs[id := tx.(status := status, networkFee := if fee.Some? then networkFee else tx.networkFee)];
      return None;
    }
  }
}
