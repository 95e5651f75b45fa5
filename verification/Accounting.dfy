/** The balance of the system itself, and how it changes over runs of the handlers. */
module Accounting {
  import opened Outcomes
  import opened Ledger
  import Settlement
  import Transfers
  import Withdrawals

  // ----- system balances -----

  function KeyTotal(rows: seq<Balance>, key: Key): int {
    if rows == [] then 0
    else
      var last := rows[|rows| - 1];
      KeyTotal(rows[..|rows| - 1], key) + (if last.key == key then last.amount else 0)
  }

  function KeysOf(rows: seq<Balance>): set<Key> {
    set b | b in rows :: b.key
  }

  lemma NextRow(rows: seq<Balance>, i: nat)
    requires i < |rows|
    ensures rows[..i + 1][..i] == rows[..i] && KeysOf(rows[..i + 1]) == KeysOf(rows[..i]) + {rows[i].key}
    ensures forall k :: KeyTotal(rows[..i + 1], k) ==
                        KeyTotal(rows[..i], k) + (if rows[i].key == k then rows[i].amount else 0)
  {
    assert rows[..i + 1] == rows[..i] + [rows[i]];
  }

  lemma {:induction false} NoSuchKey(rows: seq<Balance>, key: Key)
    requires key !in KeysOf(rows)
    ensures KeyTotal(rows, key) == 0
  {
    if rows != [] {
      assert rows[|rows| - 1] in rows;
      assert forall b | b in rows[..|rows| - 1] :: b in rows;
      NoSuchKey(rows[..|rows| - 1], key);
    }
  }

  /** composeSystemBalances: what the wallets hold less what the merchants are owed, per currency and network. */
  method ComposeSystemBalances(merchants: seq<Balance>, wallets: seq<Balance>) returns (r: Outcome<map<Key, int>>)
    ensures r.Ok? <==> KeysOf(merchants) <= KeysOf(wallets)
    ensures r.Ok? ==> r.value.Keys == KeysOf(wallets)
    ensures r.Ok? ==> forall k | k in r.value :: r.value[k] == KeyTotal(wallets, k) - KeyTotal(merchants, k)
  {
    var balances: map<Key, int> := map[];
    for i := 0 to |wallets|
      invariant balances.Keys == KeysOf(wallets[..i])
      invariant forall k | k in balances :: balances[k] == KeyTotal(wallets[..i], k)
    {
      NextRow(wallets, i);
      var w := wallets[i];
      if w.key !in balances {
        NoSuchKey(wallets[..i], w.key);
        balances := balances[w.key := w.amount];
        continue;
      }
      balances := balances[w.key := balances[w.key] + w.amount];
    }
    assert wallets[..|wallets|] == wallets;
    for i := 0 to |merchants|
      invariant balances.Keys == KeysOf(wallets)
      invariant KeysOf(merchants[..i]) <= KeysOf(wallets)
      invariant forall k | k in balances :: balances[k] == KeyTotal(wallets, k) - KeyTotal(merchants[..i], k)
    {
      NextRow(merchants, i);
      var m := merchants[i];
      if m.key !in balances {
        assert m.key in KeysOf(merchants);
        return Err(Unavailable);
      }
      balances := balances[m.key := balances[m.key] - m.amount];
    }
    assert merchants[..|merchants|] == merchants;
    return Ok(balances);
  }

  function OfEntity(rows: seq<Balance>, entity: Entity): seq<Balance> {
    if rows == [] then []
    else
      var rest, last := OfEntity(rows[..|rows| - 1], entity), rows[|rows| - 1];
      if last.entity == entity then rest + [last] else rest
  }

  /** What the wallets hold less what the merchants are owed. */
  function System(rows: seq<Balance>, key: Key): int {
    Total(rows, Query(Wallet, None, key)) - Total(rows, Query(Merchant, None, key))
  }

  lemma KeyTotalAppend(rows: seq<Balance>, b: Balance, key: Key)
    ensures KeyTotal(rows + [b], key) == KeyTotal(rows, key) + (if b.key == key then b.amount else 0)
  {
    assert (rows + [b])[..|rows|] == rows;
  }

  lemma {:induction false} TotalOfEntity(rows: seq<Balance>, entity: Entity, key: Key)
    ensures KeyTotal(OfEntity(rows, entity), key) == Total(rows, Query(entity, None, key))
  {
    if rows != [] {
      var k := |rows| - 1;
      TotalOfEntity(rows[..k], entity, key);
      KeyTotalAppend(OfEntity(rows[..k], entity), rows[k], key);
    }
  }

  /** On the rows of the two kinds of one table, the composed balance is the system balance. */
  lemma ComposedIsSystem(rows: seq<Balance>, key: Key)
    ensures KeyTotal(OfEntity(rows, Wallet), key) - KeyTotal(OfEntity(rows, Merchant), key) == System(rows, key)
  {
    TotalOfEntity(rows, Wallet, key);
    TotalOfEntity(rows, Merchant, key);
  }

  // ----- handlers as events -----

  /** One handler that runs to its end. */
  datatype Event =
    | Expect(tx: Tx)
    | Seen(id: nat, status: Status, hash: string, fact: int)
    | Drop(id: nat, status: Status)
    | Confirmed(id: nat, fee: int)
    | Withdraw(tx: Tx, system: nat, merchant: nat)
    | Transfer(tx: Tx, sender: nat)
    | Abandon(tx: Tx)
    | Revert(id: nat, fee: int)
    | TopUp(tx: Tx)

  predicate Unfinished(tx: Tx) {
    tx.status == Pending || tx.status == InProgress || tx.status == InProgressInvalid
  }

  /** The confirmation a receipt becomes; an incoming transaction confirms what it has received. */
  function FromReceipt(tx: Tx, fee: int): Option<Confirmation> {
    if tx.kind != Incoming then Some(Settlement.FromReceipt(tx, fee))
    else if tx.status == Pending || tx.fact.None? || tx.hash.None? then None
    else
      Some(Confirmation(
             if tx.status == InProgressInvalid then CompletedInvalid else Completed,
             tx.hash.value, tx.fact.value, fee, true))
  }

  /** A record as it is inserted. */
  predicate Fresh(tx: Tx, kind: Kind, status: Status) {
    tx.kind == kind && tx.status == status && tx.networkFee.None?
  }

  function Appended(book: Book, tx: Tx): Book {
    book.(txs := book.txs + [tx])
  }

  /** What a handler does to the books; a handler that fails changes nothing. */
  function Apply(book: Book, e: Event): Book {
    match e
    case Expect(tx) =>
      if Fresh(tx, Incoming, Pending) || (Fresh(tx, Incoming, InProgress) && tx.merchant == SYSTEM_MERCHANT)
      then Appended(book, tx) else book
    case Seen(id, status, hash, fact) =>
      if id < |book.txs| && book.txs[id].kind == Incoming && book.txs[id].status == Pending
      then Or(Receive(book, id, status, hash, fact), book) else book
    case Drop(id, status) =>
      if id < |book.txs| && book.txs[id].kind == Incoming && Unfinished(book.txs[id])
         && (status == Cancelled || status == Failed)
      then Or(Cancel(book, id, status, None), book) else book
    case Confirmed(id, fee) =>
      if id < |book.txs| && Unfinished(book.txs[id]) && FromReceipt(book.txs[id], fee).Some?
      then Or(Confirm(book, id, FromReceipt(book.txs[id], fee).value), book) else book
    case Withdraw(tx, system, merchant) =>
      if Fresh(tx, Withdrawal, Pending) && Settlement.OwnRows(book.balances, tx, system, merchant)
      then
        var moved := MoveForWithdrawal(
          book.balances, Decrement, DbId(|book.txs|), system, merchant, tx.key.ticker, tx.amount, tx.serviceFee);
        Or(Created(book, tx, moved), book)
      else book
    case Transfer(tx, sender) =>
      if Fresh(tx, Internal, Pending) && OwnRow(book.balances, tx, sender)
      then Or(Created(book, tx, Adjust(book.balances, sender, Decrement, tx.key.ticker, tx.amount)), book) else book
    case Abandon(tx) => if tx.status == Cancelled then Appended(book, tx) else book
    case Revert(id, fee) =>
      if id < |book.txs| && Unfinished(book.txs[id]) && book.txs[id].sender.Some?
      then
        match book.txs[id].kind
        case Withdrawal => Or(Settlement.RevertedWithdrawal(book, id, fee), book)
        case Internal => Or(Settlement.RevertedTransfer(book, id, fee), book)
        case _ => book
      else book
    case TopUp(tx) =>
      if Fresh(tx, Virtual, InProgress) && tx.fact == Some(tx.amount)
      then Or(ConfirmRecord(Appended(book, tx), |book.txs|, Confirmation(Completed, "", tx.amount, 0, true)), book)
      else book
  }

  function Or(r: Outcome<Book>, otherwise: Book): Book {
    if r.Ok? then r.value else otherwise
  }

  /** A record together with the balances that were moved for it. */
  function Created(book: Book, tx: Tx, moved: Outcome<seq<Balance>>): Outcome<Book> {
    if moved.Err? then Err(moved.error) else Ok(Book(moved.value, book.txs + [tx]))
  }

  predicate OwnRow(rows: seq<Balance>, tx: Tx, sender: nat) {
    sender < |rows| && tx.sender.Some?
    && rows[sender].entity == Wallet && rows[sender].owner == tx.sender.value && rows[sender].key == tx.key
  }

  // ----- what a record contributes -----

  function At(key: Key, where: Key, amount: int): int {
    if key == where then amount else 0
  }

  function Fact(tx: Tx): int {
    if tx.fact.None? then 0 else tx.fact.value
  }

  function Fee(tx: Tx): int {
    if tx.networkFee.None? then 0 else tx.networkFee.value
  }

  predicate Done(tx: Tx) {
    tx.status == Completed || tx.status == CompletedInvalid
  }

  predicate Undone(tx: Tx) {
    tx.status == Failed || tx.status == Cancelled
  }

  /** The share of a total in what happens to one row. */
  function Part(entity: Entity, owner: Option<int>, key: Key, amount: int, q: Query): int {
    if entity == q.entity && key == q.key && (q.owner.None? || owner == q.owner) then amount else 0
  }

  /** The network fee of a record that was charged for it. */
  function FeePart(tx: Tx, q: Query): int {
    if Done(tx) || tx.status == Failed then Part(Wallet, tx.sender, tx.coin, Fee(tx), q) else 0
  }

  /** What a record has moved on a total in its present state. */
  function Moved(tx: Tx, q: Query): int {
    match tx.kind
    case Incoming =>
      if !Done(tx) then 0
      else
        Part(Wallet, tx.recipient, tx.key, Fact(tx), q)
        + (if tx.status == CompletedInvalid || tx.merchant == SYSTEM_MERCHANT then 0
           else Part(Merchant, Some(tx.merchant), tx.key, Min(Fact(tx), tx.amount) - tx.serviceFee, q))
    case Internal =>
      (if Undone(tx) then 0 else -Part(Wallet, tx.sender, tx.key, tx.amount, q))
      + (if Done(tx) then Part(Wallet, tx.recipient, tx.key, Fact(tx), q) else 0) - FeePart(tx, q)
    case Withdrawal =>
      (if Undone(tx) then 0
       else -Part(Wallet, tx.sender, tx.key, tx.amount, q)
            - Part(Merchant, Some(tx.merchant), tx.key, tx.amount + tx.serviceFee, q)) - FeePart(tx, q)
    case Virtual => if Done(tx) then Part(Merchant, Some(tx.merchant), tx.key, Fact(tx), q) else 0
  }

  /** What a record adds to the system balance of a currency: what wallets hold less what is owed. */
  function Contribution(tx: Tx, key: Key): int {
    Moved(tx, Query(Wallet, None, key)) - Moved(tx, Query(Merchant, None, key))
  }

  function Sum<K>(txs: seq<Tx>, k: K, f: (Tx, K) -> int): int {
    if txs == [] then 0 else Sum(txs[..|txs| - 1], k, f) + f(txs[|txs| - 1], k)
  }

  lemma SumAppend<K>(txs: seq<Tx>, tx: Tx, k: K, f: (Tx, K) -> int)
    ensures Sum(txs + [tx], k, f) == Sum(txs, k, f) + f(tx, k)
  {
    assert (txs + [tx])[..|txs|] == txs;
  }

  lemma {:induction false} SumUpdate<K>(txs: seq<Tx>, id: nat, tx: Tx, k: K, f: (Tx, K) -> int)
    requires id < |txs|
    ensures Sum(txs[id := tx], k, f) == Sum(txs, k, f) - f(txs[id], k) + f(tx, k)
  {
    var n := |txs| - 1;
    if id == n {
      assert txs[id := tx][..n] == txs[..n];
    } else {
      SumUpdate(txs[..n], id, tx, k, f);
      assert txs[id := tx][..n] == txs[..n][id := tx];
    }
  }

  lemma {:induction false} SumOfContributions(txs: seq<Tx>, key: Key)
    ensures Sum(txs, key, Contribution) ==
            Sum(txs, Query(Wallet, None, key), Moved) - Sum(txs, Query(Merchant, None, key), Moved)
  {
    if txs != [] {
      SumOfContributions(txs[..|txs| - 1], key);
    }
  }

  /** The part of a total that no record explains. */
  function Remainder(book: Book, q: Query): int {
    Total(book.balances, q) - Sum(book.txs, q, Moved)
  }

  /** The part of the system balance that no record explains. */
  function Unexplained(book: Book, key: Key): int {
    System(book.balances, key) - Sum(book.txs, key, Contribution)
  }

  lemma UnexplainedIsRemainder(book: Book, key: Key)
    ensures Unexplained(book, key) ==
            Remainder(book, Query(Wallet, None, key)) - Remainder(book, Query(Merchant, None, key))
  {
    SumOfContributions(book.txs, key);
  }

  // ----- every handler is explained by its record -----

  /** What settling a confirmed record does to a total. */
  function Settled(tx: Tx, fee: int, q: Query): int
    requires tx.fact.Some?
  {
    match tx.kind
    case Incoming =>
      Part(Wallet, tx.recipient, tx.key, tx.fact.value, q)
      + (if tx.status == CompletedInvalid || tx.merchant == SYSTEM_MERCHANT then 0
         else Part(Merchant, Some(tx.merchant), tx.key, Gain(tx), q))
    case Internal =>
      Part(Wallet, tx.recipient, tx.key, tx.fact.value, q) - Part(Wallet, tx.sender, tx.coin, fee, q)
    case Withdrawal => -Part(Wallet, tx.sender, tx.coin, fee, q)
    case Virtual => Part(Merchant, Some(tx.merchant), tx.key, tx.fact.value, q)
  }

  lemma SettlingMoves(rows: seq<Balance>, tx: Tx, fee: int, q: Query)
    requires SettleBalances(rows, tx, fee).Ok?
    ensures tx.fact.Some?
    ensures Total(SettleBalances(rows, tx, fee).value, q) == Total(rows, q) + Settled(tx, fee, q)
  {
    match tx.kind
    case Incoming =>
      var received := Post(rows, Wallet, tx.recipient.value, tx.key, Increment, tx.fact.value).value;
      PostMoves(rows, Wallet, tx.recipient.value, tx.key, Increment, tx.fact.value, q);
      if tx.status != CompletedInvalid && tx.merchant != SYSTEM_MERCHANT {
        PostMoves(received, Merchant, tx.merchant, tx.key, Increment, Gain(tx), q);
      }
    case Internal =>
      var received := Post(rows, Wallet, tx.recipient.value, tx.key, Increment, tx.fact.value).value;
      PostMoves(rows, Wallet, tx.recipient.value, tx.key, Increment, tx.fact.value, q);
      PostMoves(received, Wallet, tx.sender.value, tx.coin, Decrement, fee, q);
    case Withdrawal => PostMoves(rows, Wallet, tx.sender.value, tx.coin, Decrement, fee, q);
    case Virtual => PostMoves(rows, Merchant, tx.merchant, tx.key, Increment, tx.fact.value, q);
  }

  lemma SettledIsMoved(tx: Tx, c: Confirmation, q: Query)
    requires Unfinished(tx) && (c.status == Completed || (c.status == CompletedInvalid && tx.kind == Incoming))
    ensures Settled(Ledger.Confirmed(tx, c), c.networkFee, q) == Moved(Ledger.Confirmed(tx, c), q) - Moved(tx, q)
  {
  }

  /** Confirming an unfinished record moves every total by the change of what the record has moved. */
  lemma ConfirmingIsExplained(book: Book, id: nat, c: Confirmation, q: Query)
    requires id < |book.txs| && Unfinished(book.txs[id]) && ConfirmRecord(book, id, c).Ok?
    requires c.status == Completed || (c.status == CompletedInvalid && book.txs[id].kind == Incoming)
    ensures Remainder(ConfirmRecord(book, id, c).value, q) == Remainder(book, q)
  {
    var tx := Ledger.Confirmed(book.txs[id], c);
    SettlingMoves(book.balances, tx, c.networkFee, q);
    SumUpdate(book.txs, id, tx, q, Moved);
    SettledIsMoved(book.txs[id], c, q);
  }

  lemma AppendingIsExplained(book: Book, tx: Tx, q: Query)
    requires Moved(tx, q) == 0
    ensures Remainder(Appended(book, tx), q) == Remainder(book, q)
  {
    SumAppend(book.txs, tx, q, Moved);
  }

  /** What a pending withdrawal has moved. */
  lemma PendingIsMoved(tx: Tx, q: Query)
    requires Fresh(tx, Withdrawal, Pending) && tx.sender.Some?
    ensures Moved(tx, q) ==
            -(if Matches(Merchant, tx.merchant, tx.key, q) then tx.amount + tx.serviceFee else 0)
            - (if Matches(Wallet, tx.sender.value, tx.key, q) then tx.amount else 0)
  {
  }

  lemma WithdrawingIsExplained(book: Book, tx: Tx, system: nat, merchant: nat, q: Query)
    requires Fresh(tx, Withdrawal, Pending) && Settlement.OwnRows(book.balances, tx, system, merchant)
    ensures Remainder(Apply(book, Withdraw(tx, system, merchant)), q) == Remainder(book, q)
  {
    var moved := MoveForWithdrawal(
      book.balances, Decrement, DbId(|book.txs|), system, merchant, tx.key.ticker, tx.amount, tx.serviceFee);
    assert Apply(book, Withdraw(tx, system, merchant)) ==
           if moved.Err? then book else Book(moved.value, book.txs + [tx]);
    if moved.Ok? {
      WithdrawalMoves(book.balances, Decrement, DbId(|book.txs|), system, merchant, tx.amount, tx.serviceFee, q);
      PendingIsMoved(tx, q);
      RecordedIsExplained(book, moved.value, tx, q);
    }
  }

  lemma RecordedIsExplained(book: Book, rows: seq<Balance>, tx: Tx, q: Query)
    requires Total(rows, q) == Total(book.balances, q) + Moved(tx, q)
    ensures Remainder(Book(rows, book.txs + [tx]), q) == Remainder(book, q)
  {
    SumAppend(book.txs, tx, q, Moved);
  }

  lemma TransferringIsExplained(book: Book, tx: Tx, sender: nat, q: Query)
    requires Fresh(tx, Internal, Pending) && OwnRow(book.balances, tx, sender)
    ensures Remainder(Apply(book, Transfer(tx, sender)), q) == Remainder(book, q)
  {
    var moved := Adjust(book.balances, sender, Decrement, tx.key.ticker, tx.amount);
    if moved.Ok? {
      AdjustMoves(book.balances, sender, Decrement, tx.key.ticker, tx.amount, q);
      RecordedIsExplained(book, moved.value, tx, q);
    }
  }

  /** What a failed withdrawal no longer holds is what its reversal gives back. */
  lemma RevertedIsMoved(tx: Tx, failed: Tx, fee: int, q: Query)
    requires tx.kind == Withdrawal && Unfinished(tx) && tx.sender.Some?
    requires failed == tx.(status := Failed, networkFee := if fee == 0 then None else Some(fee))
    ensures Moved(failed, q) - Moved(tx, q) ==
            Settlement.If(Settlement.IsSender(tx, q), tx.amount) - Settlement.If(Settlement.IsCoin(tx, q), fee)
            + Settlement.If(Settlement.IsMerchant(tx, q), tx.amount + tx.serviceFee)
  {
  }

  lemma RevertingWithdrawalIsExplained(book: Book, id: nat, fee: int, q: Query)
    requires id < |book.txs| && Unfinished(book.txs[id]) && book.txs[id].sender.Some?
    requires book.txs[id].kind == Withdrawal && Settlement.RevertedWithdrawal(book, id, fee).Ok?
    ensures Remainder(Settlement.RevertedWithdrawal(book, id, fee).value, q) == Remainder(book, q)
  {
    var tx, failed := book.txs[id], Settlement.RevertedWithdrawal(book, id, fee).value.txs[id];
    Settlement.RevertMoves(book, id, fee, q);
    SumUpdate(book.txs, id, failed, q, Moved);
    RevertedIsMoved(tx, failed, fee, q);
  }

  lemma RevertingTransferIsExplained(book: Book, id: nat, fee: int, q: Query)
    requires id < |book.txs| && Unfinished(book.txs[id]) && book.txs[id].sender.Some?
    requires book.txs[id].kind == Internal && Settlement.RevertedTransfer(book, id, fee).Ok?
    ensures Remainder(Settlement.RevertedTransfer(book, id, fee).value, q) == Remainder(book, q)
  {
    var tx := book.txs[id];
    Settlement.CancelMoves(book, id, Failed, Some(fee), q);
    var rows := Cancel(book, id, Failed, Some(fee)).value.balances;
    var sender := Find(rows, Wallet, tx.sender.value, tx.key).value;
    AdjustMoves(rows, sender, Increment, tx.key.ticker, tx.amount, q);
    SumUpdate(book.txs, id, Settlement.RevertedTransfer(book, id, fee).value.txs[id], q, Moved);
  }

  lemma RecordingIsExplained(book: Book, id: nat, tx: Tx, q: Query)
    requires id < |book.txs| && Moved(tx, q) == Moved(book.txs[id], q)
    ensures Remainder(book.(txs := book.txs[id := tx]), q) == Remainder(book, q)
  {
    SumUpdate(book.txs, id, tx, q, Moved);
  }

  /** Every handler moves every total by exactly the change of what its record has moved. */
  lemma StepExplainsTotals(book: Book, e: Event, q: Query)
    ensures Remainder(Apply(book, e), q) == Remainder(book, q)
  {
    var after := Apply(book, e);
    if after != book {
      match e
      case Expect(tx) => AppendingIsExplained(book, tx, q);
      case Seen(id, status, hash, fact) => RecordingIsExplained(book, id, after.txs[id], q);
      case Drop(id, status) => RecordingIsExplained(book, id, after.txs[id], q);
      case Confirmed(id, fee) => ConfirmingIsExplained(book, id, FromReceipt(book.txs[id], fee).value, q);
      case Withdraw(tx, system, merchant) => WithdrawingIsExplained(book, tx, system, merchant, q);
      case Transfer(tx, sender) => TransferringIsExplained(book, tx, sender, q);
      case Abandon(tx) => AppendingIsExplained(book, tx, q);
      case Revert(id, fee) =>
        if book.txs[id].kind == Withdrawal {
          RevertingWithdrawalIsExplained(book, id, fee, q);
        } else {
          RevertingTransferIsExplained(book, id, fee, q);
        }
      case TopUp(tx) =>
        AppendingIsExplained(book, tx, q);
        ConfirmingIsExplained(Appended(book, tx), |book.txs|, Confirmation(Completed, "", tx.amount, 0, true), q);
    }
  }

  /** Every handler moves the system balance by exactly the change of its record's contribution. */
  lemma StepIsExplained(book: Book, e: Event, key: Key)
    ensures Unexplained(Apply(book, e), key) == Unexplained(book, key)
  {
    UnexplainedIsRemainder(book, key);
    UnexplainedIsRemainder(Apply(book, e), key);
    StepExplainsTotals(book, e, Query(Wallet, None, key));
    StepExplainsTotals(book, e, Query(Merchant, None, key));
  }

  function Run(book: Book, events: seq<Event>): Book {
    if events == [] then book else Apply(Run(book, events[..|events| - 1]), events[|events| - 1])
  }

  /** Over every run, every total of wallets or merchants changes by exactly what the records have moved. */
  lemma {:induction false} RunExplainsTotals(book: Book, events: seq<Event>, q: Query)
    ensures Remainder(Run(book, events), q) == Remainder(book, q)
  {
    if events != [] {
      RunExplainsTotals(book, events[..|events| - 1], q);
      StepExplainsTotals(Run(book, events[..|events| - 1]), events[|events| - 1], q);
    }
  }

  /** Over every run, the system balance changes by exactly what the records say. */
  lemma {:induction false} RunIsExplained(book: Book, events: seq<Event>, key: Key)
    ensures Unexplained(Run(book, events), key) == Unexplained(book, key)
  {
    if events != [] {
      RunIsExplained(book, events[..|events| - 1], key);
      StepIsExplained(Run(book, events[..|events| - 1]), events[|events| - 1], key);
    }
  }

  lemma RevertingKeepsNonNegative(book: Book, id: nat, fee: int)
    requires NonNegative(book.balances) && id < |book.txs| && book.txs[id].sender.Some?
    ensures Settlement.RevertedWithdrawal(book, id, fee).Ok? ==>
              NonNegative(Settlement.RevertedWithdrawal(book, id, fee).value.balances)
    ensures Settlement.RevertedTransfer(book, id, fee).Ok? ==>
              NonNegative(Settlement.RevertedTransfer(book, id, fee).value.balances)
  {
    var cancelled := Cancel(book, id, Failed, Some(fee));
    if cancelled.Ok? {
      CancellingKeepsNonNegative(book, id, Failed, Some(fee));
      var tx, rows := book.txs[id], cancelled.value.balances;
      var sender, merchant := Find(rows, Wallet, tx.sender.value, tx.key), Find(rows, Merchant, tx.merchant, tx.key);
      if Settlement.RevertedWithdrawal(book, id, fee).Ok? {
        MovingKeepsNonNegative(
          rows, Increment, DbId(id), sender.value, merchant.value, tx.key.ticker, tx.amount, tx.serviceFee);
      }
      if Settlement.RevertedTransfer(book, id, fee).Ok? {
        AdjustKeepsNonNegative(rows, sender.value, Increment, tx.key.ticker, tx.amount);
      }
    }
  }

  lemma ConfirmingKeepsNonNegative(book: Book, id: nat, c: Confirmation)
    requires NonNegative(book.balances) && ConfirmRecord(book, id, c).Ok?
    ensures NonNegative(ConfirmRecord(book, id, c).value.balances)
  {
    SettlingKeepsNonNegative(book.balances, Ledger.Confirmed(book.txs[id], c), c.networkFee);
  }

  /** No handler overdraws a balance. */
  lemma StepKeepsNonNegative(book: Book, e: Event)
    requires NonNegative(book.balances)
    ensures NonNegative(Apply(book, e).balances)
  {
    if Apply(book, e) != book {
      match e
      case Expect(_) =>
      case Seen(_, _, _, _) =>
      case Drop(id, status) => CancellingKeepsNonNegative(book, id, status, None);
      case Confirmed(id, fee) => ConfirmingKeepsNonNegative(book, id, FromReceipt(book.txs[id], fee).value);
      case Withdraw(tx, system, merchant) =>
        MovingKeepsNonNegative(
          book.balances, Decrement, DbId(|book.txs|), system, merchant, tx.key.ticker, tx.amount, tx.serviceFee);
      case Transfer(tx, sender) =>
        AdjustKeepsNonNegative(book.balances, sender, Decrement, tx.key.ticker, tx.amount);
      case Abandon(_) =>
      case Revert(id, fee) => RevertingKeepsNonNegative(book, id, fee);
      case TopUp(tx) =>
        ConfirmingKeepsNonNegative(Appended(book, tx), |book.txs|, Confirmation(Completed, "", tx.amount, 0, true));
    }
  }

  /** Over every run no balance becomes negative. */
  lemma {:induction false} RunKeepsNonNegative(book: Book, events: seq<Event>)
    requires NonNegative(book.balances)
    ensures NonNegative(Run(book, events).balances)
  {
    if events != [] {
      RunKeepsNonNegative(book, events[..|events| - 1]);
      StepKeepsNonNegative(Run(book, events[..|events| - 1]), events[|events| - 1]);
    }
  }

  // ----- the handlers of the service are such events -----

  /** A withdrawal that went through is a withdraw event. */
  lemma WithdrawalIsEvent(before: Book, after: Book, req: Withdrawals.Request, out: Withdrawals.Output)
    requires Withdrawals.Booked(before, after, req, out) && out.tx.Some? && out.decremented
    requires Settlement.OwnRows(before.balances, after.txs[out.tx.value], req.system, req.merchantRow)
    requires req.amount.ticker == req.key.ticker
    ensures after == Apply(before, Withdraw(after.txs[out.tx.value], req.system, req.merchantRow))
  {
    assert after.txs == before.txs + [after.txs[out.tx.value]];
  }

  /** A withdrawal that was rolled back is an abandoned record, or no event at all. */
  lemma RolledBackWithdrawalIsEvent(before: Book, after: Book, req: Withdrawals.Request, out: Withdrawals.Output)
    requires Withdrawals.Restored(before, after, req, out)
    ensures after == if out.tx.None? then before else Apply(before, Abandon(after.txs[|before.txs|]))
  {
    if out.tx.Some? {
      assert after.txs == before.txs + [after.txs[|before.txs|]];
    }
  }

  /** A transfer that went through is a transfer event. */
  lemma TransferIsEvent(before: Book, after: Book, req: Transfers.Request, out: Transfers.Output)
    requires Transfers.Booked(before, after, req, out) && out.tx.Some? && out.decremented
    requires OwnRow(before.balances, after.txs[out.tx.value], req.senderRow) && req.amount.ticker == req.key.ticker
    ensures after == Apply(before, Transfer(after.txs[out.tx.value], req.senderRow))
  {
    assert after.txs == before.txs + [after.txs[out.tx.value]];
  }

  /** A transfer that was rolled back is an abandoned record, or no event at all. */
  lemma RolledBackTransferIsEvent(before: Book, after: Book, req: Transfers.Request, out: Transfers.Output)
    requires Transfers.Restored(before, after, req, out)
    ensures after == if out.tx.None? then before else Apply(before, Abandon(after.txs[|before.txs|]))
  {
    if out.tx.Some? {
      assert after.txs == before.txs + [after.txs[|before.txs|]];
    }
  }

  // ----- finished runs -----

  predicate CustomerPaid(tx: Tx) {
    tx.kind == Incoming && tx.status == Completed && tx.merchant != SYSTEM_MERCHANT
  }

  /** What customers paid beyond the price. */
  function Overpaid(tx: Tx, key: Key): int {
    if CustomerPaid(tx) then At(key, tx.key, Fact(tx) - Min(Fact(tx), tx.amount)) else 0
  }

  /** Receipts no merchant is credited for: underpaid or unexpected ones. */
  function KeptReceipt(tx: Tx, key: Key): int {
    if tx.kind == Incoming
       && (tx.status == CompletedInvalid || (tx.status == Completed && tx.merchant == SYSTEM_MERCHANT))
    then At(key, tx.key, Fact(tx)) else 0
  }

  function ServiceFee(tx: Tx, key: Key): int {
    if CustomerPaid(tx) || (tx.kind == Withdrawal && tx.status == Completed) then At(key, tx.key, tx.serviceFee) else 0
  }

  /** Fees paid to the network in the coin of the chain, also for reverted transactions. */
  function NetworkFee(tx: Tx, key: Key): int {
    if (tx.kind == Internal || tx.kind == Withdrawal) && (tx.status == Completed || tx.status == Failed)
    then At(key, tx.coin, Fee(tx)) else 0
  }

  function ToppedUp(tx: Tx, key: Key): int {
    if tx.kind == Virtual && tx.status == Completed then At(key, tx.key, Fact(tx)) else 0
  }

  /** A completed transfer arrived in full, and only incoming transactions can be completed as invalid. */
  predicate ArrivedInFull(tx: Tx) {
    && (tx.kind == Internal && tx.status == Completed ==> tx.fact == Some(tx.amount))
    && (tx.status == CompletedInvalid ==> tx.kind == Incoming)
  }

  ghost predicate AllArrived(txs: seq<Tx>) {
    forall i | 0 <= i < |txs| :: ArrivedInFull(txs[i])
  }

  lemma ConfirmingKeepsArrived(book: Book, id: nat, c: Confirmation)
    requires AllArrived(book.txs) && id < |book.txs| && ConfirmRecord(book, id, c).Ok?
    requires book.txs[id].kind == Internal ==> c.fact == book.txs[id].amount
    requires c.status == Completed || (c.status == CompletedInvalid && book.txs[id].kind == Incoming)
    ensures AllArrived(ConfirmRecord(book, id, c).value.txs)
  {
    var after := ConfirmRecord(book, id, c).value.txs;
    assert after == book.txs[id := Ledger.Confirmed(book.txs[id], c)] && ArrivedInFull(after[id]);
  }

  lemma RevertingKeepsArrived(book: Book, id: nat, fee: int)
    requires AllArrived(book.txs)
    ensures AllArrived(Apply(book, Revert(id, fee)).txs)
  {
    var after := Apply(book, Revert(id, fee));
    if after != book {
      assert after.txs == book.txs[id := after.txs[id]] && after.txs[id].status == Failed;
    }
  }

  /** Every other handler leaves the records as they are, appends one or changes one to an unconfirmed state. */
  lemma StepKeepsArrived(book: Book, e: Event)
    requires AllArrived(book.txs)
    ensures AllArrived(Apply(book, e).txs)
  {
    var after := Apply(book, e);
    if after != book {
      match e
      case Confirmed(id, fee) => ConfirmingKeepsArrived(book, id, FromReceipt(book.txs[id], fee).value);
      case TopUp(tx) =>
        ConfirmingKeepsArrived(Appended(book, tx), |book.txs|, Confirmation(Completed, "", tx.amount, 0, true));
      case Revert(id, fee) => RevertingKeepsArrived(book, id, fee);
      case _ =>
    }
  }

  lemma {:induction false} RunKeepsArrived(book: Book, events: seq<Event>)
    requires AllArrived(book.txs)
    ensures AllArrived(Run(book, events).txs)
  {
    if events != [] {
      RunKeepsArrived(book, events[..|events| - 1]);
      StepKeepsArrived(Run(book, events[..|events| - 1]), events[|events| - 1]);
    }
  }

  lemma FinishedContribution(tx: Tx, key: Key)
    requires !Unfinished(tx) && ArrivedInFull(tx)
    ensures Contribution(tx, key) ==
            Overpaid(tx, key) + KeptReceipt(tx, key) + ServiceFee(tx, key) - NetworkFee(tx, key) - ToppedUp(tx, key)
  {
  }

  lemma {:induction false} FinishedSum(txs: seq<Tx>, key: Key)
    requires forall tx | tx in txs :: !Unfinished(tx) && ArrivedInFull(tx)
    ensures Sum(txs, key, Contribution) ==
            Sum(txs, key, Overpaid) + Sum(txs, key, KeptReceipt) + Sum(txs, key, ServiceFee)
            - Sum(txs, key, NetworkFee) - Sum(txs, key, ToppedUp)
  {
    if txs != [] {
      var k := |txs| - 1;
      assert txs[k] in txs && forall tx | tx in txs[..k] :: tx in txs;
      FinishedSum(txs[..k], key);
      FinishedContribution(txs[k], key);
    }
  }

  /**
   * Once every transaction of a run is finished, the system has gained what customers overpaid,
   * the receipts nobody is credited for and the service fees, less network fees and top-ups.
   */
  lemma FinishedRunAccounts(rows: seq<Balance>, events: seq<Event>, key: Key)
    requires forall tx | tx in Run(Book(rows, []), events).txs :: !Unfinished(tx)
    ensures var end := Run(Book(rows, []), events);
            System(end.balances, key) ==
            System(rows, key) + Sum(end.txs, key, Overpaid) + Sum(end.txs, key, KeptReceipt)
            + Sum(end.txs, key, ServiceFee) - Sum(end.txs, key, NetworkFee) - Sum(end.txs, key, ToppedUp)
  {
    var start := Book(rows, []);
    RunIsExplained(start, events, key);
    RunKeepsArrived(start, events);
    FinishedSum(Run(start, events).txs, key);
  }

  // ----- settling a withdrawal a second time -----

  /** Every total has moved by exactly the change of what this record says it moved. */
  ghost predicate ExplainedBy(before: Book, after: Book, id: nat)
    requires id < |before.txs| && |after.txs| == |before.txs|
  {
    forall q ::
      Total(after.balances, q) - Total(before.balances, q) == Moved(after.txs[id], q) - Moved(before.txs[id], q)
  }

  /** The record still holds what it took, and no network fee was charged for it. */
  predicate StillOpen(tx: Tx) {
    Unfinished(tx) || ((tx.status == Completed || tx.status == CompletedInvalid) && Fee(tx) == 0)
  }

  /** What creating a withdrawal takes from a total. */
  function Taken(tx: Tx, q: Query): int
    requires tx.sender.Some?
  {
    Settlement.If(Settlement.IsSender(tx, q), tx.amount)
    + Settlement.If(Settlement.IsMerchant(tx, q), tx.amount + tx.serviceFee)
  }

  /** A withdrawal that took something has given nothing back and cost nothing exactly while it is open. */
  lemma OpenMoved(tx: Tx)
    requires tx.kind == Withdrawal && tx.sender.Some? && tx.amount > 0 && tx.serviceFee >= 0
    ensures StillOpen(tx) <==> forall q :: Moved(tx, q) == -Taken(tx, q)
  {
    if !StillOpen(tx) {
      var q := if tx.status == Failed || tx.status == Cancelled
               then Query(Merchant, Some(tx.merchant), tx.key) else Query(Wallet, Some(tx.sender.value), tx.coin);
      assert Moved(tx, q) != -Taken(tx, q);
    }
  }

  /** Whoever settles a withdrawal as if it were open agrees with its record exactly when it is. */
  lemma SettlesOnceExactly(before: Book, after: Book, id: nat)
    requires id < |before.txs| && |after.txs| == |before.txs|
    requires before.txs[id].kind == Withdrawal && before.txs[id].sender.Some?
    requires before.txs[id].amount > 0 && before.txs[id].serviceFee >= 0
    requires forall q :: Total(after.balances, q) - Total(before.balances, q) - Moved(after.txs[id], q) ==
                         Taken(before.txs[id], q)
    ensures ExplainedBy(before, after, id) <==> StillOpen(before.txs[id])
  {
    OpenMoved(before.txs[id]);
  }

  /**
   * Reverting tests no status: the totals agree with the record afterwards if and only if the
   * record was still open. A second reversal gives the amount back and charges the fee again.
   */
  lemma RevertsOnceExactly(book: Book, id: nat, fee: int)
    requires id < |book.txs| && book.txs[id].kind == Withdrawal && book.txs[id].sender.Some?
    requires book.txs[id].amount > 0 && book.txs[id].serviceFee >= 0
    requires Settlement.RevertedWithdrawal(book, id, fee).Ok?
    ensures ExplainedBy(book, Settlement.RevertedWithdrawal(book, id, fee).value, id) <==> StillOpen(book.txs[id])
  {
    forall q {
      RevertTakes(book, id, fee, q);
    }
    SettlesOnceExactly(book, Settlement.RevertedWithdrawal(book, id, fee).value, id);
  }

  lemma RevertTakes(book: Book, id: nat, fee: int, q: Query)
    requires id < |book.txs| && book.txs[id].kind == Withdrawal && book.txs[id].sender.Some?
    requires Settlement.RevertedWithdrawal(book, id, fee).Ok?
    ensures var after := Settlement.RevertedWithdrawal(book, id, fee).value;
            && |after.txs| == |book.txs|
            && Total(after.balances, q) - Total(book.balances, q) - Moved(after.txs[id], q) == Taken(book.txs[id], q)
  {
    Settlement.RevertMoves(book, id, fee, q);
  }

  /** A wallet and a merchant with their balances in one currency. */
  function Pair(key: Key, held: int, owed: int): seq<Balance> {
    [Balance(Wallet, 1, key, held), Balance(Merchant, 7, key, owed)]
  }

  predicate IsPairWithdrawal(tx: Tx, key: Key) {
    tx.kind == Withdrawal && tx.merchant == 7 && tx.sender == Some(1) && tx.key == tx.coin == key && tx.amount == 100
    && tx.serviceFee == 5
  }

  function Reverted(tx: Tx, fee: int): Tx {
    tx.(status := Failed, networkFee := Some(fee))
  }

  /** A second reversal that happens: a withdrawal of 100 is created and reverted, and then reverted again. */
  lemma RevertedTwice(tx: Tx, key: Key)
    requires IsPairWithdrawal(tx, key) && Fresh(tx, Withdrawal, Pending)
    ensures var created := Apply(Book(Pair(key, 1000, 1000), []), Withdraw(tx, 0, 1));
            var reverted := Apply(created, Revert(0, 10));
            && reverted == Book(Pair(key, 990, 1000), [Reverted(tx, 10)])
            && Settlement.RevertedWithdrawal(reverted, 0, 10) == Ok(Book(Pair(key, 1080, 1105), [Reverted(tx, 10)]))
  {
    WithdrawFromPair(tx, key);
    RevertPair(tx, key, 900, 895);
    RevertPair(Reverted(tx, 10), key, 990, 1000);
  }

  lemma WithdrawFromPair(tx: Tx, key: Key)
    requires IsPairWithdrawal(tx, key) && Fresh(tx, Withdrawal, Pending)
    ensures Apply(Book(Pair(key, 1000, 1000), []), Withdraw(tx, 0, 1)) == Book(Pair(key, 900, 895), [tx])
  {
    var rows, charged, moved := Pair(key, 1000, 1000), Pair(key, 1000, 895), Pair(key, 900, 895);
    assert rows[1 := charged[1]] == charged && Adjust(rows, 1, Decrement, key.ticker, 105) == Ok(charged);
    assert charged[0 := moved[0]] == moved && Adjust(charged, 0, Decrement, key.ticker, 100) == Ok(moved);
  }

  lemma FindInPair(key: Key, held: int, owed: int)
    ensures Find(Pair(key, held, owed), Wallet, 1, key) == Some(0)
    ensures Find(Pair(key, held, owed), Merchant, 7, key) == Some(1)
  {
  }

  lemma RevertPair(tx: Tx, key: Key, held: int, owed: int)
    requires IsPairWithdrawal(tx, key) && held >= 10 && owed >= 0
    ensures Settlement.RevertedWithdrawal(Book(Pair(key, held, owed), [tx]), 0, 10) ==
            Ok(Book(Pair(key, held + 90, owed + 105), [Reverted(tx, 10)]))
  {
    FindInPair(key, held, owed);
    FindInPair(key, held - 10, owed);
    var rows, charged := Pair(key, held, owed), Pair(key, held - 10, owed);
    var repaid, back := Pair(key, held - 10, owed + 105), Pair(key, held + 90, owed + 105);
    assert rows[0 := charged[0]] == charged && [tx][0 := Reverted(tx, 10)] == [Reverted(tx, 10)];
    assert Cancel(Book(rows, [tx]), 0, Failed, Some(10)) == Ok(Book(charged, [Reverted(tx, 10)]));
    assert charged[1 := repaid[1]] == repaid && Adjust(charged, 1, Increment, key.ticker, 105) == Ok(repaid);
    assert repaid[0 := back[0]] == back && Adjust(repaid, 0, Increment, key.ticker, 100) == Ok(back);
  }

  /** The same for confirming a withdrawal: it tests no status but its own target. */
  lemma ConfirmsOnceExactly(book: Book, id: nat, fee: int)
    requires id < |book.txs| && book.txs[id].kind == Withdrawal && book.txs[id].sender.Some?
    requires book.txs[id].amount > 0 && book.txs[id].serviceFee >= 0
    requires Confirm(book, id, Settlement.FromReceipt(book.txs[id], fee)).Ok?
    ensures ExplainedBy(book, Confirm(book, id, Settlement.FromReceipt(book.txs[id], fee)).value, id)
            <==> StillOpen(book.txs[id])
  {
    forall q {
      ConfirmTakes(book, id, fee, q);
    }
    SettlesOnceExactly(book, Confirm(book, id, Settlement.FromReceipt(book.txs[id], fee)).value, id);
  }

  lemma ConfirmTakes(book: Book, id: nat, fee: int, q: Query)
    requires id < |book.txs| && book.txs[id].kind == Withdrawal && book.txs[id].sender.Some?
    requires Confirm(book, id, Settlement.FromReceipt(book.txs[id], fee)).Ok?
    ensures var after := Confirm(book, id, Settlement.FromReceipt(book.txs[id], fee)).value;
            && |after.txs| == |book.txs|
            && Total(after.balances, q) - Total(book.balances, q) - Moved(after.txs[id], q) == Taken(book.txs[id], q)
  {
    var tx := book.txs[id];
    PostMoves(book.balances, Wallet, tx.sender.value, tx.coin, Decrement, fee, q);
  }
}
