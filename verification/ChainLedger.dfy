/**
 * The wallets of one UTXO currency: what the ledger says they hold against what they own on the
 * chain, over every run of deposits, sweeps, withdrawals and reports about all of them.
 */
module ChainLedger {
  import opened Outcomes
  import opened Ledger
  import opened Coins
  import Picks
  import Accounting
  import Settlement

  /**
   * What one chain transaction paid to one wallet, as nodes report it. `source` is the record of
   * the send when the transaction is one of the system itself.
   */
  datatype Deposit = Deposit(hash: string, owner: int, amount: int, source: Option<nat>, credited: bool)

  /** What the broadcast transaction of a record pays the network, and its hash on the chain. */
  datatype Send = Unsent | Sent(fee: int, hash: string)

  /** `sends[i]` is the broadcast transaction of record `i`; `outbound` are the wallets that sweeps pay. */
  datatype World = World(book: Book, sends: seq<Send>, coins: seq<Coin>, deposits: seq<Deposit>, outbound: set<int>)

  datatype Event =
    | Arrive(hash: string, owner: int, amounts: seq<int>)
    | Expect(tx: Tx)
    | Seen(id: nat, deposit: nat, status: Status)
    | Unexpected(tx: Tx, deposit: nat)
    | Drop(id: nat, status: Status)
    | Credit(id: nat, deposit: nat, fee: int)
    | Withdraw(tx: Tx, system: nat, merchant: nat, inputs: seq<nat>, change: int, hash: string)
    | Sweep(tx: Tx, sender: nat, inputs: seq<nat>, hash: string)
    | Strand(tx: Tx, row: nat, inputs: seq<nat>, change: int, hash: string)
    | StoreHash(id: nat)
    | Abandon(tx: Tx)
    | Settle(id: nat)

  // ----- steps -----

  /** The record is about this currency, which is also the coin that pays its network fees. */
  predicate Of(tx: Tx, currency: Key) {
    tx.key == currency && tx.coin == currency
  }

  /** No record of any kind carries this transaction hash yet. */
  ghost predicate UnknownHash(txs: seq<Tx>, hash: string) {
    forall i | 0 <= i < |txs| :: txs[i].hash != Some(hash)
  }

  /** No incoming record is about this wallet yet: every payment gets a wallet of its own. */
  ghost predicate FreshWallet(txs: seq<Tx>, wallet: int) {
    forall i | 0 <= i < |txs| && txs[i].kind == Incoming :: txs[i].recipient != Some(wallet)
  }

  predicate Awaiting(tx: Tx) {
    tx.kind == Incoming && tx.status == Pending
  }

  /** No record waits for a payment to this wallet. */
  ghost predicate NothingAwaited(txs: seq<Tx>, wallet: int) {
    forall i | 0 <= i < |txs| && Awaiting(txs[i]) :: txs[i].recipient != Some(wallet)
  }

  /** A record of a send whose amount the ledger does not settle yet. */
  predicate Open(tx: Tx, kind: Kind) {
    tx.kind == kind && Accounting.Unfinished(tx)
  }

  /** Settling the record will post to this wallet. */
  predicate Names(tx: Tx, wallet: int) {
    || ((Open(tx, Withdrawal) || Open(tx, Internal)) && tx.sender == Some(wallet))
    || (Open(tx, Internal) && tx.recipient == Some(wallet))
  }

  predicate IsRowOf(b: Balance, wallet: int) {
    b.entity == Wallet && b.owner == wallet
  }

  /** The system itself has done nothing with this wallet: no balance, no send from it or to it. */
  ghost predicate Unused(w: World, wallet: int) {
    && wallet !in w.outbound
    && (forall i | 0 <= i < |w.book.balances| :: !IsRowOf(w.book.balances[i], wallet))
    && (forall i | 0 <= i < |w.book.txs| :: !Names(w.book.txs[i], wallet))
    && forall d | 0 <= d < |w.deposits| && w.deposits[d].source.Some? :: w.deposits[d].owner != wallet
  }

  /** What a transaction pays to a wallet is one deposit, however many outputs it has. */
  ghost predicate NewDeposit(deposits: seq<Deposit>, hash: string, owner: int) {
    hash != "" && forall d | 0 <= d < |deposits| :: deposits[d].hash != hash || deposits[d].owner != owner
  }

  /** A new transaction of the system has a hash of its own. */
  ghost predicate NewHash(w: World, hash: string) {
    && hash != "" && (forall d | 0 <= d < |w.deposits| :: w.deposits[d].hash != hash)
    && forall i | 0 <= i < |w.sends| :: w.sends[i].Unsent? || w.sends[i].hash != hash
  }

  /** The books after a handler that sends nothing. */
  function Handled(w: World, e: Accounting.Event): World {
    var book := Accounting.Apply(w.book, e);
    w.(book := book, sends := if |book.txs| > |w.book.txs| then w.sends + [Unsent] else w.sends)
  }

  /** The record and the chain let this transaction be broadcast; its hash is stored at once or not yet. */
  ghost predicate Sendable(w: World, currency: Key, tx: Tx, inputs: seq<nat>, change: int, hash: string) {
    && Of(tx, currency) && tx.sender.Some? && Spendable(w.coins, tx.sender.value, inputs)
    && tx.amount > 0 && change >= 0 && InputSum(w.coins, inputs) > tx.amount + change
    && NewHash(w, hash) && (tx.hash == None || tx.hash == Some(hash))
    && (tx.kind == Withdrawal
        || (tx.kind == Internal && change == 0 && tx.recipient.Some? && tx.recipient.value in w.outbound))
  }

  /** The output that pays the amount; when a withdrawal pays a wallet of the system, it arrives there as a deposit. */
  function Paid(tx: Tx): Coin {
    Coin(if tx.kind == Internal then tx.recipient else None, tx.amount, false)
  }

  /** What nodes will report about the send: the output that stays in the system. */
  function Reported(tx: Tx, id: nat, change: int, hash: string): seq<Deposit> {
    if tx.kind == Internal && tx.recipient.Some? then
      [Deposit(hash, tx.recipient.value, tx.amount, Some(id), false)]
    else if change > 0 && tx.sender.Some? then [Deposit(hash, tx.sender.value, change, Some(id), false)]
    else []
  }

  /** A broadcast transaction together with the books that record it. */
  function Broadcast(w: World, book: Book, tx: Tx, inputs: seq<nat>, change: int, hash: string): World
    requires tx.sender.Some? && forall i | 0 <= i < |inputs| :: inputs[i] < |w.coins|
  {
    World(
      book, w.sends + [Sent(InputSum(w.coins, inputs) - tx.amount - change, hash)],
      Spend(w.coins, inputs) + [Paid(tx)] + Change(tx.sender.value, change),
      w.deposits + Reported(tx, |w.book.txs|, change, hash), w.outbound)
  }

  ghost function Step(w: World, currency: Key, e: Event): World {
    match e
    case Arrive(hash, owner, amounts) =>
      if NewDeposit(w.deposits, hash, owner) && amounts != [] && forall i | 0 <= i < |amounts| :: amounts[i] > 0
      then w.(coins := w.coins + Received(owner, amounts),
              deposits := w.deposits + [Deposit(hash, owner, Picks.Sum(amounts), None, false)])
      else w
    case Expect(tx) =>
      if Of(tx, currency) && tx.status == Pending && tx.recipient.Some? && tx.hash.None?
         && FreshWallet(w.book.txs, tx.recipient.value) && Unused(w, tx.recipient.value)
      then Handled(w, Accounting.Expect(tx)) else w
    case Seen(id, d, status) =>
      if id < |w.book.txs| && d < |w.deposits| && Of(w.book.txs[id], currency)
         && w.book.txs[id].recipient == Some(w.deposits[d].owner)
      then Handled(w, Accounting.Seen(id, status, w.deposits[d].hash, w.deposits[d].amount)) else w
    case Unexpected(tx, d) =>
      if d < |w.deposits| && Of(tx, currency) && UnknownHash(w.book.txs, w.deposits[d].hash)
         && NothingAwaited(w.book.txs, w.deposits[d].owner) && Reports(tx, w.deposits[d])
      then Handled(w, Accounting.Expect(tx)) else w
    case Drop(id, status) => Handled(w, Accounting.Drop(id, status))
    case Credit(id, d, fee) =>
      if id < |w.book.txs| && w.book.txs[id].kind == Incoming && d < |w.deposits|
         && w.book.txs[id].hash == Some(w.deposits[d].hash) && w.book.txs[id].recipient == Some(w.deposits[d].owner)
      then
        var after := Handled(w, Accounting.Confirmed(id, fee));
        if after == w then w
        else after.(deposits := w.deposits[d := w.deposits[d].(credited := true)])
      else w
    case Withdraw(tx, system, merchant, inputs, change, hash) =>
      var book := Accounting.Apply(w.book, Accounting.Withdraw(tx, system, merchant));
      if Sendable(w, currency, tx, inputs, change, hash) && book != w.book
      then Broadcast(w, book, tx, inputs, change, hash) else w
    case Sweep(tx, sender, inputs, hash) =>
      var book := Accounting.Apply(w.book, Accounting.Transfer(tx, sender));
      if Sendable(w, currency, tx, inputs, 0, hash) && book != w.book
      then Broadcast(w, book, tx, inputs, 0, hash) else w
    case Strand(tx, row, inputs, change, hash) =>
      if Sendable(w, currency, tx, inputs, change, hash) && tx.status == Cancelled
         && Accounting.OwnRow(w.book.balances, tx, row)
      then Broadcast(w, Accounting.Appended(w.book, tx), tx, inputs, change, hash) else w
    case StoreHash(id) =>
      if id < |w.book.txs| && id < |w.sends| && w.sends[id].Sent? && w.book.txs[id].hash == None
         && (Open(w.book.txs[id], Internal) || Open(w.book.txs[id], Withdrawal))
      then w.(book := w.book.(txs := w.book.txs[id := w.book.txs[id].(hash := Some(w.sends[id].hash))])) else w
    case Abandon(tx) => if tx.kind != Incoming then Handled(w, Accounting.Abandon(tx)) else w
    case Settle(id) =>
      if id < |w.book.txs| && id < |w.sends| && w.sends[id].Sent?
         && (w.book.txs[id].kind == Internal || w.book.txs[id].kind == Withdrawal)
      then Handled(w, Accounting.Confirmed(id, w.sends[id].fee)) else w
  }

  /** The record of a payment that nobody waited for. */
  predicate Reports(tx: Tx, d: Deposit) {
    tx.status == InProgress && tx.hash == Some(d.hash) && tx.recipient == Some(d.owner) && tx.fact == Some(d.amount)
  }

  // ----- the relation between ledger and chain -----

  function LedgerBalance(w: World, wallet: int, currency: Key): int {
    Total(w.book.balances, Query(Wallet, Some(wallet), currency))
  }

  /** The network fee of an open send that the wallet's ledger balance still includes. */
  function FeeDue(tx: Tx, s: Send, wallet: int): int {
    if s.Sent? && (Open(tx, Withdrawal) || Open(tx, Internal)) && tx.sender == Some(wallet) then s.fee else 0
  }

  /** An internal amount the wallet owns on the chain but not in the ledger yet. */
  function Arriving(tx: Tx, s: Send, wallet: int): int {
    if s.Sent? && Open(tx, Internal) && tx.recipient == Some(wallet) then tx.amount else 0
  }

  /** What left the wallet on the chain for a send whose record was cancelled, less what it received. */
  function Stranded(tx: Tx, s: Send, wallet: int): int {
    if s.Unsent? || tx.status != Cancelled then 0
    else (if tx.sender == Some(wallet) then tx.amount + s.fee else 0)
         - (if tx.kind == Internal && tx.recipient == Some(wallet) then tx.amount else 0)
  }

  /** By how much the ledger exceeds the chain because of one send. */
  function Lag(tx: Tx, s: Send, wallet: int): int {
    FeeDue(tx, s, wallet) - Arriving(tx, s, wallet) + Stranded(tx, s, wallet)
  }

  function Sum(txs: seq<Tx>, sends: seq<Send>, wallet: int, f: (Tx, Send, int) -> int): int
    requires |sends| == |txs|
  {
    if txs == [] then 0
    else
      var k := |txs| - 1;
      Sum(txs[..k], sends[..k], wallet, f) + f(txs[k], sends[k], wallet)
  }

  /** Deposits from outside that are on the chain but not confirmed in the ledger. */
  function Uncredited(deposits: seq<Deposit>, wallet: int): int {
    if deposits == [] then 0
    else
      var last := deposits[|deposits| - 1];
      Uncredited(deposits[..|deposits| - 1], wallet)
      + (if last.owner == wallet && last.source.None? && !last.credited then last.amount else 0)
  }

  /** Outputs of the system's own sends that were credited as if they came from outside. */
  function CreditedTwice(deposits: seq<Deposit>, wallet: int): int {
    if deposits == [] then 0
    else
      var last := deposits[|deposits| - 1];
      CreditedTwice(deposits[..|deposits| - 1], wallet)
      + (if last.owner == wallet && last.source.Some? && last.credited then last.amount else 0)
  }

  ghost predicate Agrees(w: World, wallet: int, currency: Key) {
    && |w.sends| == |w.book.txs|
    && LedgerBalance(w, wallet, currency) ==
       Unspent(w.coins, wallet) + Sum(w.book.txs, w.sends, wallet, Lag)
       - Uncredited(w.deposits, wallet) + CreditedTwice(w.deposits, wallet)
  }

  // ----- which deposits are taken by which records -----

  predicate Receiving(tx: Tx) {
    tx.kind == Incoming && (tx.status == InProgress || tx.status == InProgressInvalid)
  }

  /** Record `tx` is waiting for the confirmation of deposit `d`. */
  predicate Claims(tx: Tx, d: Deposit) {
    tx.hash == Some(d.hash) && tx.recipient == Some(d.owner) && tx.fact == Some(d.amount) && !d.credited
  }

  /** Some record has finished with what this transaction paid to this wallet. */
  ghost predicate Taken(txs: seq<Tx>, hash: string, wallet: int) {
    exists i | 0 <= i < |txs| :: TakenBy(txs[i], hash, wallet)
  }

  predicate TakenBy(tx: Tx, hash: string, wallet: int) {
    tx.kind == Incoming && !Accounting.Unfinished(tx) && tx.hash == Some(hash) && tx.recipient == Some(wallet)
  }

  ghost predicate Claimed(tx: Tx, deposits: seq<Deposit>) {
    exists d | 0 <= d < |deposits| :: Claims(tx, deposits[d])
  }

  ghost predicate AllClaimed(txs: seq<Tx>, deposits: seq<Deposit>) {
    forall i | 0 <= i < |txs| && Receiving(txs[i]) :: Claimed(txs[i], deposits)
  }

  /** No two records receive the same deposit. */
  ghost predicate DistinctClaims(txs: seq<Tx>) {
    forall i, j | 0 <= i < j < |txs| && Receiving(txs[i]) && Receiving(txs[j]) ::
      txs[i].hash != txs[j].hash || txs[i].recipient != txs[j].recipient
  }

  ghost predicate DistinctDeposits(deposits: seq<Deposit>) {
    forall d, c | 0 <= d < c < |deposits| ::
      deposits[d].hash != deposits[c].hash || deposits[d].owner != deposits[c].owner
  }

  ghost predicate CreditedTaken(txs: seq<Tx>, deposits: seq<Deposit>) {
    forall d | 0 <= d < |deposits| && deposits[d].credited :: Taken(txs, deposits[d].hash, deposits[d].owner)
  }

  /** A record that waits for a payment is the only incoming record of its wallet. */
  ghost predicate SingleUse(txs: seq<Tx>) {
    forall i, j | 0 <= i < |txs| && 0 <= j < |txs| && i != j && Awaiting(txs[i]) && txs[j].kind == Incoming ::
      txs[j].recipient != txs[i].recipient
  }

  ghost predicate AllOf(txs: seq<Tx>, currency: Key) {
    forall i | 0 <= i < |txs| && Accounting.Unfinished(txs[i]) :: Of(txs[i], currency)
  }

  ghost predicate Links(w: World, currency: Key) {
    && |w.sends| == |w.book.txs| && AllOf(w.book.txs, currency)
    && AllClaimed(w.book.txs, w.deposits) && DistinctClaims(w.book.txs) && SingleUse(w.book.txs)
    && DistinctDeposits(w.deposits) && CreditedTaken(w.book.txs, w.deposits)
  }

  // ----- sums -----

  lemma SumAppend(txs: seq<Tx>, sends: seq<Send>, tx: Tx, s: Send, wallet: int, f: (Tx, Send, int) -> int)
    requires |sends| == |txs|
    ensures Sum(txs + [tx], sends + [s], wallet, f) == Sum(txs, sends, wallet, f) + f(tx, s, wallet)
  {
    assert (txs + [tx])[..|txs|] == txs && (sends + [s])[..|txs|] == sends;
  }

  lemma {:induction false} SumUpdate(
    txs: seq<Tx>, sends: seq<Send>, id: nat, tx: Tx, wallet: int, f: (Tx, Send, int) -> int)
    requires |sends| == |txs| && id < |txs|
    ensures Sum(txs[id := tx], sends, wallet, f) ==
            Sum(txs, sends, wallet, f) - f(txs[id], sends[id], wallet) + f(tx, sends[id], wallet)
  {
    var k := |txs| - 1;
    if id == k {
      assert txs[id := tx][..k] == txs[..k];
    } else {
      SumUpdate(txs[..k], sends[..k], id, tx, wallet, f);
      assert txs[id := tx][..k] == txs[..k][id := tx];
    }
  }

  lemma {:induction false} LagSplits(txs: seq<Tx>, sends: seq<Send>, wallet: int)
    requires |sends| == |txs|
    ensures Sum(txs, sends, wallet, Lag) ==
            Sum(txs, sends, wallet, FeeDue) - Sum(txs, sends, wallet, Arriving) + Sum(txs, sends, wallet, Stranded)
  {
    if txs != [] {
      LagSplits(txs[..|txs| - 1], sends[..|txs| - 1], wallet);
    }
  }

  lemma {:induction false} CreditOne(deposits: seq<Deposit>, d: nat, wallet: int)
    requires d < |deposits| && !deposits[d].credited
    ensures var after := deposits[d := deposits[d].(credited := true)];
            Uncredited(after, wallet) - CreditedTwice(after, wallet) ==
            Uncredited(deposits, wallet) - CreditedTwice(deposits, wallet)
            - (if deposits[d].owner == wallet then deposits[d].amount else 0)
  {
    var k := |deposits| - 1;
    var after := deposits[d := deposits[d].(credited := true)];
    if d == k {
      assert after[..k] == deposits[..k];
    } else {
      CreditOne(deposits[..k], d, wallet);
      assert after[..k] == deposits[..k][d := deposits[d].(credited := true)];
    }
  }

  lemma DepositAppend(deposits: seq<Deposit>, d: Deposit, wallet: int)
    requires !d.credited
    ensures CreditedTwice(deposits + [d], wallet) == CreditedTwice(deposits, wallet)
    ensures Uncredited(deposits + [d], wallet) ==
            Uncredited(deposits, wallet) + (if d.owner == wallet && d.source.None? then d.amount else 0)
  {
    assert (deposits + [d])[..|deposits|] == deposits;
  }

  // ----- every step keeps the agreement -----

  lemma ArriveAgrees(w: World, currency: Key, hash: string, owner: int, amounts: seq<int>, wallet: int)
    requires Agrees(w, wallet, currency)
    ensures Agrees(Step(w, currency, Arrive(hash, owner, amounts)), wallet, currency)
  {
    UnspentReceived(w.coins, owner, amounts, wallet);
    DepositAppend(w.deposits, Deposit(hash, owner, Picks.Sum(amounts), None, false), wallet);
  }

  /** A new record that sends nothing. */
  lemma AppendAgrees(w: World, currency: Key, tx: Tx, wallet: int)
    requires Agrees(w, wallet, currency)
    ensures Agrees(w.(book := Accounting.Appended(w.book, tx), sends := w.sends + [Unsent]), wallet, currency)
  {
    SumAppend(w.book.txs, w.sends, tx, Unsent, wallet, Lag);
  }

  /** A changed record that lags as before moves nothing. */
  lemma RecordAgrees(w: World, currency: Key, id: nat, tx: Tx, wallet: int)
    requires Agrees(w, wallet, currency) && id < |w.book.txs|
    requires Lag(tx, w.sends[id], wallet) == Lag(w.book.txs[id], w.sends[id], wallet)
    ensures Agrees(w.(book := w.book.(txs := w.book.txs[id := tx])), wallet, currency)
  {
    SumUpdate(w.book.txs, w.sends, id, tx, wallet, Lag);
  }

  /** The deposit a receiving record waits for is the one with its hash. */
  lemma ClaimedDeposit(w: World, currency: Key, id: nat, d: nat)
    requires Links(w, currency) && id < |w.book.txs| && Receiving(w.book.txs[id])
    requires d < |w.deposits| && w.book.txs[id].hash == Some(w.deposits[d].hash)
    requires w.book.txs[id].recipient == Some(w.deposits[d].owner)
    ensures Claims(w.book.txs[id], w.deposits[d])
  {
    assert Claimed(w.book.txs[id], w.deposits);
    var c :| 0 <= c < |w.deposits| && Claims(w.book.txs[id], w.deposits[c]);
    assert c == d;
  }

  /** What a credit step does, when it does anything. */
  lemma CreditStep(w: World, currency: Key, id: nat, d: nat, fee: int) returns (c: Confirmation)
    requires Links(w, currency) && Step(w, currency, Credit(id, d, fee)) != w
    ensures id < |w.book.txs| && d < |w.deposits| && Claims(w.book.txs[id], w.deposits[d])
    ensures Of(w.book.txs[id], currency) && w.book.txs[id].kind == Incoming && c.fact == w.deposits[d].amount
    ensures Confirm(w.book, id, c).Ok? && Receiving(w.book.txs[id])
    ensures Step(w, currency, Credit(id, d, fee)) ==
            w.(book := Confirm(w.book, id, c).value, deposits := w.deposits[d := w.deposits[d].(credited := true)])
  {
    c := Accounting.FromReceipt(w.book.txs[id], fee).value;
    ClaimedDeposit(w, currency, id, d);
  }

  /** A credit adds to the ledger what it takes from the uncredited deposits, or credits an own output. */
  lemma CreditAgrees(w: World, currency: Key, id: nat, d: nat, fee: int, wallet: int)
    requires Links(w, currency) && IncomingUnsent(w) && Agrees(w, wallet, currency)
    ensures Agrees(Step(w, currency, Credit(id, d, fee)), wallet, currency)
  {
    if Step(w, currency, Credit(id, d, fee)) != w {
      var c := CreditStep(w, currency, id, d, fee);
      CreditMoves(w.book, currency, id, c, wallet);
      var credited := w.deposits[d := w.deposits[d].(credited := true)];
      CreditOne(w.deposits, d, wallet);
      CreditedAgrees(w, currency, id, Confirm(w.book, id, c).value, credited, wallet);
    }
  }

  lemma CreditedAgrees(w: World, currency: Key, id: nat, book: Book, deposits: seq<Deposit>, wallet: int)
    requires Agrees(w, wallet, currency) && id < |w.book.txs| && |book.txs| == |w.book.txs|
    requires book.txs == w.book.txs[id := book.txs[id]] && w.sends[id].Unsent?
    requires Total(book.balances, Query(Wallet, Some(wallet), currency)) - LedgerBalance(w, wallet, currency) ==
             Uncredited(w.deposits, wallet) - CreditedTwice(w.deposits, wallet)
             - Uncredited(deposits, wallet) + CreditedTwice(deposits, wallet)
    ensures Agrees(w.(book := book, deposits := deposits), wallet, currency)
  {
    SumUpdate(w.book.txs, w.sends, id, book.txs[id], wallet, Lag);
  }

  /** Only sends are sent. */
  ghost predicate IncomingUnsent(w: World) {
    && |w.sends| == |w.book.txs|
    && forall i | 0 <= i < |w.book.txs| && w.book.txs[i].kind == Incoming :: w.sends[i].Unsent?
  }

  /** Confirming an incoming transaction adds what was received to its recipient's balance. */
  lemma CreditMoves(book: Book, currency: Key, id: nat, c: Confirmation, wallet: int)
    requires id < |book.txs| && book.txs[id].kind == Incoming && book.txs[id].key == currency
    requires Confirm(book, id, c).Ok?
    ensures var q := Query(Wallet, Some(wallet), currency);
            Total(Confirm(book, id, c).value.balances, q) ==
            Total(book.balances, q) + (if book.txs[id].recipient == Some(wallet) then c.fact else 0)
  {
    var q := Query(Wallet, Some(wallet), currency);
    var tx := Ledger.Confirmed(book.txs[id], c);
    var received := Post(book.balances, Wallet, tx.recipient.value, tx.key, Increment, c.fact);
    PostMoves(book.balances, Wallet, tx.recipient.value, tx.key, Increment, c.fact, q);
    if tx.status != CompletedInvalid && tx.merchant != SYSTEM_MERCHANT {
      PostMoves(received.value, Merchant, tx.merchant, tx.key, Increment, Gain(tx), q);
    }
  }

  /** A record that moved the sender's balance, or a cancelled one that moved nothing. */
  ghost predicate RecordedAs(before: Book, after: Book, tx: Tx, currency: Key, wallet: int) {
    && after.txs == before.txs + [tx]
    && (tx.status == Cancelled || Open(tx, Withdrawal) || Open(tx, Internal))
    && Total(after.balances, Query(Wallet, Some(wallet), currency)) ==
       Total(before.balances, Query(Wallet, Some(wallet), currency))
       - (if tx.status != Cancelled && tx.sender == Some(wallet) then tx.amount else 0)
  }

  /** By how much a broadcast transaction keeps the ledger ahead of the chain. */
  lemma LagOfSend(tx: Tx, fee: int, hash: string, wallet: int)
    requires tx.status == Cancelled || Open(tx, Withdrawal) || Open(tx, Internal)
    requires tx.kind == Withdrawal || tx.kind == Internal
    ensures Lag(tx, Sent(fee, hash), wallet) ==
            (if tx.sender == Some(wallet) then fee + (if tx.status == Cancelled then tx.amount else 0) else 0)
            - (if Paid(tx).owner == Some(wallet) then tx.amount else 0)
  {
  }

  /** A broadcast: the chain gives up the amount and the fee, the ledger the amount or nothing. */
  lemma BroadcastAgrees(
    w: World, currency: Key, book: Book, tx: Tx, inputs: seq<nat>, change: int, hash: string, wallet: int)
    requires Agrees(w, wallet, currency) && Sendable(w, currency, tx, inputs, change, hash)
    requires RecordedAs(w.book, book, tx, currency, wallet)
    ensures Agrees(Broadcast(w, book, tx, inputs, change, hash), wallet, currency)
  {
    var fee := InputSum(w.coins, inputs) - tx.amount - change;
    UnspentAfterSending(w.coins, tx.sender.value, inputs, Paid(tx), change, wallet);
    ReportedMovesNothing(w.deposits, Reported(tx, |w.book.txs|, change, hash), wallet);
    LagOfSend(tx, fee, hash, wallet);
    SentAgrees(w, Broadcast(w, book, tx, inputs, change, hash), currency, tx, Sent(fee, hash), wallet);
  }

  /** A new record agrees when ledger and chain differ by its lag. */
  lemma SentAgrees(w: World, after: World, currency: Key, tx: Tx, s: Send, wallet: int)
    requires Agrees(w, wallet, currency)
    requires after.book.txs == w.book.txs + [tx] && after.sends == w.sends + [s]
    requires Uncredited(after.deposits, wallet) == Uncredited(w.deposits, wallet)
    requires CreditedTwice(after.deposits, wallet) == CreditedTwice(w.deposits, wallet)
    requires LedgerBalance(after, wallet, currency) - LedgerBalance(w, wallet, currency) ==
             Unspent(after.coins, wallet) - Unspent(w.coins, wallet) + Lag(tx, s, wallet)
    ensures Agrees(after, wallet, currency)
  {
    SumAppend(w.book.txs, w.sends, tx, s, wallet, Lag);
  }

  lemma ReportedMovesNothing(deposits: seq<Deposit>, reported: seq<Deposit>, wallet: int)
    requires |reported| <= 1 && forall d | d in reported :: d.source.Some? && !d.credited
    ensures Uncredited(deposits + reported, wallet) == Uncredited(deposits, wallet)
    ensures CreditedTwice(deposits + reported, wallet) == CreditedTwice(deposits, wallet)
  {
    if reported == [] {
      assert deposits + reported == deposits;
    } else {
      assert reported == [reported[0]] && reported[0] in reported;
      DepositAppend(deposits, reported[0], wallet);
    }
  }

  lemma WithdrawalRows(book: Book, currency: Key, tx: Tx, system: nat, merchant: nat, wallet: int)
    requires Accounting.Apply(book, Accounting.Withdraw(tx, system, merchant)) != book && Of(tx, currency)
    ensures Open(tx, Withdrawal) && tx.sender.Some?
    ensures RecordedAs(book, Accounting.Apply(book, Accounting.Withdraw(tx, system, merchant)), tx, currency, wallet)
  {
    WithdrawalMoves(
      book.balances, Decrement, DbId(|book.txs|), system, merchant, tx.amount, tx.serviceFee,
      Query(Wallet, Some(wallet), currency));
  }

  lemma TransferRows(book: Book, currency: Key, tx: Tx, sender: nat, wallet: int)
    requires Accounting.Apply(book, Accounting.Transfer(tx, sender)) != book && Of(tx, currency)
    ensures Open(tx, Internal) && tx.sender.Some?
    ensures RecordedAs(book, Accounting.Apply(book, Accounting.Transfer(tx, sender)), tx, currency, wallet)
  {
    AdjustMoves(book.balances, sender, Decrement, tx.key.ticker, tx.amount, Query(Wallet, Some(wallet), currency));
  }

  /** What a send does, when it does anything. */
  lemma SendStep(w: World, currency: Key, e: Event, wallet: int) returns (book: Book, change: int)
    requires (e.Withdraw? || e.Sweep? || e.Strand?) && Step(w, currency, e) != w
    ensures change == if e.Sweep? then 0 else e.change
    ensures Sendable(w, currency, e.tx, e.inputs, change, e.hash) && RecordedAs(w.book, book, e.tx, currency, wallet)
    ensures Step(w, currency, e) == Broadcast(w, book, e.tx, e.inputs, change, e.hash)
  {
    match e
    case Withdraw(tx, system, merchant, _, c, _) =>
      book, change := Accounting.Apply(w.book, Accounting.Withdraw(tx, system, merchant)), c;
      WithdrawalRows(w.book, currency, tx, system, merchant, wallet);
    case Sweep(tx, sender, _, _) =>
      book, change := Accounting.Apply(w.book, Accounting.Transfer(tx, sender)), 0;
      TransferRows(w.book, currency, tx, sender, wallet);
    case Strand(tx, _, _, c, _) =>
      book, change := Accounting.Appended(w.book, tx), c;
  }

  lemma SendAgrees(w: World, currency: Key, e: Event, wallet: int)
    requires Agrees(w, wallet, currency) && (e.Withdraw? || e.Sweep? || e.Strand?)
    ensures Agrees(Step(w, currency, e), wallet, currency)
  {
    if Step(w, currency, e) != w {
      var book, change := SendStep(w, currency, e, wallet);
      BroadcastAgrees(w, currency, book, e.tx, e.inputs, change, e.hash, wallet);
    }
  }

  /** Confirming a send charges its fee, and credits an internal amount to its recipient. */
  lemma SettleMoves(book: Book, currency: Key, id: nat, fee: int, wallet: int)
    requires id < |book.txs| && Of(book.txs[id], currency)
    requires book.txs[id].kind == Internal || book.txs[id].kind == Withdrawal
    requires Confirm(book, id, Settlement.FromReceipt(book.txs[id], fee)).Ok?
    ensures var q, tx := Query(Wallet, Some(wallet), currency), book.txs[id];
            Total(Confirm(book, id, Settlement.FromReceipt(tx, fee)).value.balances, q) ==
            Total(book.balances, q) - (if tx.sender == Some(wallet) then fee else 0)
            + (if tx.kind == Internal && tx.recipient == Some(wallet) then tx.amount else 0)
  {
    var q := Query(Wallet, Some(wallet), currency);
    var c := Settlement.FromReceipt(book.txs[id], fee);
    var tx := Ledger.Confirmed(book.txs[id], c);
    if tx.kind == Internal {
      var received := Post(book.balances, Wallet, tx.recipient.value, tx.key, Increment, c.fact).value;
      PostMoves(book.balances, Wallet, tx.recipient.value, tx.key, Increment, c.fact, q);
      PostMoves(received, Wallet, tx.sender.value, tx.coin, Decrement, fee, q);
    } else {
      PostMoves(book.balances, Wallet, tx.sender.value, tx.coin, Decrement, fee, q);
    }
  }

  /** What a settling step does, when it does anything. */
  lemma SettleStep(w: World, currency: Key, id: nat)
    requires Links(w, currency) && Step(w, currency, Settle(id)) != w
    ensures id < |w.book.txs| && Of(w.book.txs[id], currency) && w.sends[id].Sent?
    ensures Open(w.book.txs[id], Internal) || Open(w.book.txs[id], Withdrawal)
    ensures var confirmed := Confirm(w.book, id, Settlement.FromReceipt(w.book.txs[id], w.sends[id].fee));
            confirmed.Ok? && Step(w, currency, Settle(id)) == w.(book := confirmed.value)
  {
  }

  /** Settling ends the lag of an open send. */
  lemma LagOfSettled(tx: Tx, c: Confirmation, s: Send, wallet: int)
    requires s.Sent? && c.status == Completed && (Open(tx, Withdrawal) || Open(tx, Internal))
    ensures Lag(Ledger.Confirmed(tx, c), s, wallet) - Lag(tx, s, wallet) ==
            (if tx.kind == Internal && tx.recipient == Some(wallet) then tx.amount else 0)
            - (if tx.sender == Some(wallet) then s.fee else 0)
  {
  }

  /** A changed record agrees when the ledger moves by the change of its lag. */
  lemma UpdatedAgrees(w: World, currency: Key, book: Book, id: nat, tx: Tx, wallet: int)
    requires Agrees(w, wallet, currency) && id < |w.book.txs| && book.txs == w.book.txs[id := tx]
    requires Total(book.balances, Query(Wallet, Some(wallet), currency)) - LedgerBalance(w, wallet, currency) ==
             Lag(tx, w.sends[id], wallet) - Lag(w.book.txs[id], w.sends[id], wallet)
    ensures Agrees(w.(book := book), wallet, currency)
  {
    SumUpdate(w.book.txs, w.sends, id, tx, wallet, Lag);
  }

  lemma SettleAgrees(w: World, currency: Key, id: nat, wallet: int)
    requires Links(w, currency) && Agrees(w, wallet, currency)
    ensures Agrees(Step(w, currency, Settle(id)), wallet, currency)
  {
    if Step(w, currency, Settle(id)) != w {
      SettleStep(w, currency, id);
      var tx, c := w.book.txs[id], Settlement.FromReceipt(w.book.txs[id], w.sends[id].fee);
      SettleMoves(w.book, currency, id, w.sends[id].fee, wallet);
      LagOfSettled(tx, c, w.sends[id], wallet);
      UpdatedAgrees(w, currency, Confirm(w.book, id, c).value, id, Ledger.Confirmed(tx, c), wallet);
    }
  }

  /** What a step does that changes a record and moves nothing. */
  lemma ChangeStep(w: World, currency: Key, e: Event)
    requires (e.Seen? || e.Drop? || e.StoreHash?) && Step(w, currency, e) != w
    ensures e.id < |w.book.txs| && |Step(w, currency, e).book.txs| == |w.book.txs|
    ensures var tx := Step(w, currency, e).book.txs[e.id];
            && Step(w, currency, e) == w.(book := w.book.(txs := w.book.txs[e.id := tx]))
            && Accounting.Unfinished(w.book.txs[e.id]) && tx.kind == w.book.txs[e.id].kind
            && (tx.kind == Incoming || tx == w.book.txs[e.id].(hash := tx.hash))
  {
  }

  /** The steps that change a record and move nothing. */
  lemma ChangeAgrees(w: World, currency: Key, e: Event, wallet: int)
    requires Agrees(w, wallet, currency) && IncomingUnsent(w) && (e.Seen? || e.Drop? || e.StoreHash?)
    ensures Agrees(Step(w, currency, e), wallet, currency)
  {
    if Step(w, currency, e) != w {
      ChangeStep(w, currency, e);
      RecordAgrees(w, currency, e.id, Step(w, currency, e).book.txs[e.id], wallet);
    }
  }

  /** What a step does that appends a record which sends nothing. */
  lemma AddStep(w: World, currency: Key, e: Event)
    requires (e.Expect? || e.Unexpected? || e.Abandon?) && Step(w, currency, e) != w
    ensures Step(w, currency, e) == w.(book := Accounting.Appended(w.book, e.tx), sends := w.sends + [Unsent])
  {
  }

  /** The steps that append a record which moves nothing. */
  lemma AddAgrees(w: World, currency: Key, e: Event, wallet: int)
    requires Agrees(w, wallet, currency) && (e.Expect? || e.Unexpected? || e.Abandon?)
    ensures Agrees(Step(w, currency, e), wallet, currency)
  {
    if Step(w, currency, e) != w {
      AddStep(w, currency, e);
      AppendAgrees(w, currency, e.tx, wallet);
    }
  }

  lemma StepAgrees(w: World, currency: Key, e: Event, wallet: int)
    requires Links(w, currency) && IncomingUnsent(w) && Agrees(w, wallet, currency)
    ensures Agrees(Step(w, currency, e), wallet, currency)
  {
    match e
    case Arrive(hash, owner, amounts) => ArriveAgrees(w, currency, hash, owner, amounts, wallet);
    case Credit(id, d, fee) => CreditAgrees(w, currency, id, d, fee, wallet);
    case Settle(id) => SettleAgrees(w, currency, id, wallet);
    case Seen(_, _, _) => ChangeAgrees(w, currency, e, wallet);
    case Drop(_, _) => ChangeAgrees(w, currency, e, wallet);
    case StoreHash(_) => ChangeAgrees(w, currency, e, wallet);
    case Expect(_) => AddAgrees(w, currency, e, wallet);
    case Unexpected(_, _) => AddAgrees(w, currency, e, wallet);
    case Abandon(_) => AddAgrees(w, currency, e, wallet);
    case _ => SendAgrees(w, currency, e, wallet);
  }

  // ----- what a step does to the records -----

  predicate Appends(e: Event) {
    e.Expect? || e.Unexpected? || e.Abandon? || e.Withdraw? || e.Sweep? || e.Strand?
  }

  predicate Changes(e: Event) {
    e.Seen? || e.Drop? || e.Credit? || e.StoreHash? || e.Settle?
  }

  /** Two states of one record: who pays whom how much never changes, nor does the stored hash of a send. */
  predicate Continues(before: Tx, after: Tx) {
    && after.kind == before.kind && after.sender == before.sender && after.recipient == before.recipient
    && after.amount == before.amount && !Awaiting(after)
    && (after.kind != Incoming ==> after.status != Cancelled && (before.hash.Some? ==> after.hash == before.hash))
  }

  /** One unfinished record changes. */
  ghost predicate ChangedAt(before: World, after: World, id: nat) {
    && id < |before.book.txs| == |after.book.txs| && after.sends == before.sends
    && after.book.txs == before.book.txs[id := after.book.txs[id]]
    && Accounting.Unfinished(before.book.txs[id]) && Continues(before.book.txs[id], after.book.txs[id])
  }

  /** One record is appended; the deposits are the same or have grown by what a send will be reported for. */
  ghost predicate AppendedTo(before: World, after: World, tx: Tx) {
    && after.book.txs == before.book.txs + [tx]
    && |after.sends| == |before.sends| + 1 && before.sends <= after.sends
    && before.deposits <= after.deposits
    && (tx.kind == Incoming ==> after.sends[|before.sends|].Unsent? && after.deposits == before.deposits)
  }

  lemma ChangeRecords(w: World, currency: Key, e: Event)
    requires Links(w, currency) && Step(w, currency, e) != w && Changes(e)
    ensures ChangedAt(w, Step(w, currency, e), e.id)
  {
    match e
    case Credit(id, d, fee) => var c := CreditStep(w, currency, id, d, fee);
    case Settle(id) => SettleStep(w, currency, id);
    case _ => ChangeStep(w, currency, e);
  }

  lemma AppendRecords(w: World, currency: Key, e: Event)
    requires Step(w, currency, e) != w && Appends(e)
    ensures AppendedTo(w, Step(w, currency, e), e.tx)
  {
    if e.Withdraw? || e.Sweep? || e.Strand? {
      var book, change := SendStep(w, currency, e, 0);
    } else {
      AddStep(w, currency, e);
    }
  }

  lemma StepRecords(w: World, currency: Key, e: Event)
    requires Links(w, currency) && Step(w, currency, e) != w
    ensures e.Arrive? ==> Step(w, currency, e).book == w.book && Step(w, currency, e).sends == w.sends
    ensures Appends(e) ==> AppendedTo(w, Step(w, currency, e), e.tx)
    ensures Changes(e) ==> ChangedAt(w, Step(w, currency, e), e.id)
  {
    if Appends(e) {
      AppendRecords(w, currency, e);
    } else if Changes(e) {
      ChangeRecords(w, currency, e);
    }
  }

  lemma StepKeepsUnsent(w: World, currency: Key, e: Event)
    requires Links(w, currency) && IncomingUnsent(w)
    ensures IncomingUnsent(Step(w, currency, e))
  {
    if Step(w, currency, e) != w {
      StepRecords(w, currency, e);
    }
  }

  // ----- every step keeps the links -----

  /** A new deposit from outside or from an own send. */
  lemma DepositKeepsLinks(w: World, currency: Key, d: Deposit)
    requires Links(w, currency) && NewDeposit(w.deposits, d.hash, d.owner) && !d.credited
    ensures Links(w.(deposits := w.deposits + [d]), currency)
  {
    var deposits := w.deposits + [d];
    forall i | 0 <= i < |w.book.txs| && Receiving(w.book.txs[i]) ensures Claimed(w.book.txs[i], deposits) {
      var c :| 0 <= c < |w.deposits| && Claims(w.book.txs[i], w.deposits[c]);
      assert deposits[c] == w.deposits[c];
    }
  }

  /** Coins and wallets are not part of the links. */
  lemma ArriveKeepsLinks(w: World, currency: Key, hash: string, owner: int, amounts: seq<int>)
    requires Links(w, currency)
    ensures Links(Step(w, currency, Arrive(hash, owner, amounts)), currency)
  {
    if Step(w, currency, Arrive(hash, owner, amounts)) != w {
      DepositKeepsLinks(w, currency, Deposit(hash, owner, Picks.Sum(amounts), None, false));
    }
  }

  /** What a record has finished with stays taken when finished records stay. */
  lemma TakenStays(before: seq<Tx>, after: seq<Tx>, hash: string, wallet: int)
    requires Taken(before, hash, wallet) && |before| <= |after|
    requires forall i | 0 <= i < |before| && !Accounting.Unfinished(before[i]) :: after[i] == before[i]
    ensures Taken(after, hash, wallet)
  {
    var i :| 0 <= i < |before| && TakenBy(before[i], hash, wallet);
    assert TakenBy(after[i], hash, wallet);
  }

  /** A record that newly receives a deposit does not get in the way of another one. */
  ghost predicate ReceivesAlone(txs: seq<Tx>, deposits: seq<Deposit>, tx: Tx, except: int) {
    && Claimed(tx, deposits)
    && forall i | 0 <= i < |txs| && i != except && txs[i].kind == Incoming ::
         txs[i].hash != tx.hash || txs[i].recipient != tx.recipient
  }

  lemma AppendKeepsLinks(w: World, after: World, currency: Key, tx: Tx)
    requires Links(w, currency) && (Accounting.Unfinished(tx) ==> Of(tx, currency))
    requires after.book.txs == w.book.txs + [tx] && |after.sends| == |w.sends| + 1 && after.deposits == w.deposits
    requires Receiving(tx) ==> ReceivesAlone(w.book.txs, w.deposits, tx, -1)
    requires Awaiting(tx) ==> tx.recipient.Some? && FreshWallet(w.book.txs, tx.recipient.value)
    requires tx.kind == Incoming ==> tx.recipient.Some? && NothingAwaited(w.book.txs, tx.recipient.value)
    ensures Links(after, currency)
  {
    var txs := after.book.txs;
    assert forall i | 0 <= i < |w.book.txs| :: txs[i] == w.book.txs[i];
    forall d | 0 <= d < |w.deposits| && w.deposits[d].credited
      ensures Taken(txs, w.deposits[d].hash, w.deposits[d].owner)
    {
      TakenStays(w.book.txs, txs, w.deposits[d].hash, w.deposits[d].owner);
    }
  }

  lemma UpdateKeepsLinks(w: World, after: World, currency: Key, id: nat, tx: Tx)
    requires Links(w, currency) && id < |w.book.txs| && Accounting.Unfinished(w.book.txs[id])
    requires Accounting.Unfinished(tx) ==> Of(tx, currency)
    requires after.book.txs == w.book.txs[id := tx] && after.sends == w.sends && after.deposits == w.deposits
    requires tx.kind == w.book.txs[id].kind && tx.recipient == w.book.txs[id].recipient && !Awaiting(tx)
    requires Receiving(tx) ==> ReceivesAlone(w.book.txs, w.deposits, tx, id)
    ensures Links(after, currency)
  {
    var txs := after.book.txs;
    assert forall i | 0 <= i < |txs| && i != id :: txs[i] == w.book.txs[i];
    forall d | 0 <= d < |w.deposits| && w.deposits[d].credited
      ensures Taken(txs, w.deposits[d].hash, w.deposits[d].owner)
    {
      TakenStays(w.book.txs, txs, w.deposits[d].hash, w.deposits[d].owner);
    }
  }

  /** A deposit to a wallet without any other incoming record was never credited. */
  lemma UnclaimedIsUncredited(w: World, currency: Key, d: nat, except: int)
    requires Links(w, currency) && d < |w.deposits|
    requires 0 <= except < |w.book.txs| ==> Accounting.Unfinished(w.book.txs[except])
    requires forall i | 0 <= i < |w.book.txs| && i != except && w.book.txs[i].kind == Incoming ::
               w.book.txs[i].hash != Some(w.deposits[d].hash) || w.book.txs[i].recipient != Some(w.deposits[d].owner)
    ensures !w.deposits[d].credited
  {
    assert forall i | 0 <= i < |w.book.txs| :: !TakenBy(w.book.txs[i], w.deposits[d].hash, w.deposits[d].owner);
  }

  lemma SeenKeepsLinks(w: World, currency: Key, id: nat, d: nat, status: Status)
    requires Links(w, currency)
    ensures Links(Step(w, currency, Seen(id, d, status)), currency)
  {
    var after := Step(w, currency, Seen(id, d, status));
    if after != w {
      assert Awaiting(w.book.txs[id]);
      assert forall i | 0 <= i < |w.book.txs| && i != id && w.book.txs[i].kind == Incoming ::
        w.book.txs[i].recipient != w.book.txs[id].recipient;
      UnclaimedIsUncredited(w, currency, d, id);
      assert Claims(after.book.txs[id], w.deposits[d]);
      UpdateKeepsLinks(w, after, currency, id, after.book.txs[id]);
    }
  }

  lemma ExpectKeepsLinks(w: World, currency: Key, tx: Tx)
    requires Links(w, currency) && Step(w, currency, Expect(tx)) != w
    ensures Links(Step(w, currency, Expect(tx)), currency)
  {
    AddStep(w, currency, Expect(tx));
    AppendKeepsLinks(w, Step(w, currency, Expect(tx)), currency, tx);
  }

  lemma UnexpectedKeepsLinks(w: World, currency: Key, tx: Tx, d: nat)
    requires Links(w, currency)
    ensures Links(Step(w, currency, Unexpected(tx, d)), currency)
  {
    var after := Step(w, currency, Unexpected(tx, d));
    if after != w {
      UnclaimedIsUncredited(w, currency, d, -1);
      assert Claims(tx, w.deposits[d]);
      AppendKeepsLinks(w, after, currency, tx);
    }
  }

  /** Crediting a deposit finishes the only record that waits for it. */
  lemma CreditKeepsLinks(w: World, currency: Key, id: nat, d: nat, fee: int)
    requires Links(w, currency)
    ensures Links(Step(w, currency, Credit(id, d, fee)), currency)
  {
    var after := Step(w, currency, Credit(id, d, fee));
    if after != w {
      var c := CreditStep(w, currency, id, d, fee);
      var finished := after.book.txs[id];
      UpdateKeepsLinks(w, w.(book := after.book), currency, id, finished);
      assert TakenBy(finished, w.deposits[d].hash, w.deposits[d].owner);
      FinishedKeepsLinks(w, w.(book := after.book), after, currency, id, d);
    }
  }

  /** The deposit of a finished record may be marked: no other record waits for it. */
  lemma FinishedKeepsLinks(w: World, confirmed: World, after: World, currency: Key, id: nat, d: nat)
    requires Links(w, currency) && Links(confirmed, currency) && id < |w.book.txs| && d < |w.deposits|
    requires Receiving(w.book.txs[id]) && Claims(w.book.txs[id], w.deposits[d])
    requires |confirmed.book.txs| == |w.book.txs|
    requires confirmed.book.txs == w.book.txs[id := confirmed.book.txs[id]] && confirmed.deposits == w.deposits
    requires TakenBy(confirmed.book.txs[id], w.deposits[d].hash, w.deposits[d].owner)
    requires after == confirmed.(deposits := w.deposits[d := w.deposits[d].(credited := true)])
    ensures Links(after, currency)
  {
    forall i | 0 <= i < |after.book.txs| && Receiving(after.book.txs[i])
      ensures Claimed(after.book.txs[i], after.deposits)
    {
      assert i != id && after.book.txs[i] == w.book.txs[i];
      var e :| 0 <= e < |w.deposits| && Claims(w.book.txs[i], w.deposits[e]);
      assert e != d;
      assert after.deposits[e] == w.deposits[e];
    }
  }

  lemma SendKeepsLinks(w: World, currency: Key, e: Event)
    requires Links(w, currency) && (e.Withdraw? || e.Sweep? || e.Strand?)
    ensures Links(Step(w, currency, e), currency)
  {
    var after := Step(w, currency, e);
    if after != w {
      var book, change := SendStep(w, currency, e, 0);
      var recorded := after.(deposits := w.deposits);
      AppendKeepsLinks(w, recorded, currency, e.tx);
      var reported := Reported(e.tx, |w.book.txs|, change, e.hash);
      if reported == [] {
        assert after == recorded;
      } else {
        assert reported == [reported[0]];
        DepositKeepsLinks(recorded, currency, reported[0]);
      }
    }
  }

  lemma StepKeepsLinks(w: World, currency: Key, e: Event)
    requires Links(w, currency)
    ensures Links(Step(w, currency, e), currency)
  {
    var after := Step(w, currency, e);
    if after != w {
      match e
      case Arrive(hash, owner, amounts) => ArriveKeepsLinks(w, currency, hash, owner, amounts);
      case Expect(tx) => ExpectKeepsLinks(w, currency, tx);
      case Seen(id, d, status) => SeenKeepsLinks(w, currency, id, d, status);
      case Unexpected(tx, d) => UnexpectedKeepsLinks(w, currency, tx, d);
      case Drop(id, status) => UpdateKeepsLinks(w, after, currency, id, after.book.txs[id]);
      case Credit(id, d, fee) => CreditKeepsLinks(w, currency, id, d, fee);
      case StoreHash(id) => UpdateKeepsLinks(w, after, currency, id, after.book.txs[id]);
      case Abandon(tx) =>
        AddStep(w, currency, e);
        AppendKeepsLinks(w, after, currency, tx);
      case Settle(id) => UpdateKeepsLinks(w, after, currency, id, after.book.txs[id]);
      case _ => SendKeepsLinks(w, currency, e);
    }
  }

  // ----- runs -----

  ghost function Run(w: World, currency: Key, events: seq<Event>): World {
    if events == [] then w else Step(Run(w, currency, events[..|events| - 1]), currency, events[|events| - 1])
  }

  /** No records and no deposits yet, and the ledger says what is on the chain. */
  ghost predicate Start(w: World, currency: Key) {
    && w.book.txs == [] && w.sends == [] && w.deposits == []
    && forall wallet :: LedgerBalance(w, wallet, currency) == Unspent(w.coins, wallet)
  }

  lemma {:induction false} RunKeepsLinks(w: World, currency: Key, events: seq<Event>)
    requires Links(w, currency) && IncomingUnsent(w)
    ensures Links(Run(w, currency, events), currency) && IncomingUnsent(Run(w, currency, events))
  {
    if events != [] {
      RunKeepsLinks(w, currency, events[..|events| - 1]);
      StepKeepsLinks(Run(w, currency, events[..|events| - 1]), currency, events[|events| - 1]);
      StepKeepsUnsent(Run(w, currency, events[..|events| - 1]), currency, events[|events| - 1]);
    }
  }

  lemma {:induction false} RunAgrees(w: World, currency: Key, events: seq<Event>, wallet: int)
    requires Links(w, currency) && IncomingUnsent(w) && Agrees(w, wallet, currency)
    ensures Agrees(Run(w, currency, events), wallet, currency)
  {
    if events != [] {
      RunAgrees(w, currency, events[..|events| - 1], wallet);
      RunKeepsLinks(w, currency, events[..|events| - 1]);
      StepAgrees(Run(w, currency, events[..|events| - 1]), currency, events[|events| - 1], wallet);
    }
  }

  /**
   * In every run, a wallet's ledger balance is the sum of its unspent outputs, plus the fees of
   * its open sends, less the internal amounts and the deposits that are on the chain but not
   * confirmed yet, plus what own outputs were credited for and what stranded sends took.
   */
  lemma LedgerAgreesWithChain(w: World, currency: Key, events: seq<Event>, wallet: int)
    requires Start(w, currency)
    ensures var end := Run(w, currency, events);
            && |end.sends| == |end.book.txs|
            && LedgerBalance(end, wallet, currency) ==
               Unspent(end.coins, wallet) + Sum(end.book.txs, end.sends, wallet, FeeDue)
               - Sum(end.book.txs, end.sends, wallet, Arriving) - Uncredited(end.deposits, wallet)
               + CreditedTwice(end.deposits, wallet) + Sum(end.book.txs, end.sends, wallet, Stranded)
  {
    assert LedgerBalance(w, wallet, currency) == Unspent(w.coins, wallet);
    RunAgrees(w, currency, events, wallet);
    var end := Run(w, currency, events);
    LagSplits(end.book.txs, end.sends, wallet);
  }

  lemma {:induction false} NothingOpen(txs: seq<Tx>, sends: seq<Send>, wallet: int)
    requires |sends| == |txs| && forall tx | tx in txs :: !Accounting.Unfinished(tx)
    ensures Sum(txs, sends, wallet, FeeDue) == 0 && Sum(txs, sends, wallet, Arriving) == 0
  {
    if txs != [] {
      var k := |txs| - 1;
      assert txs[k] in txs && forall tx | tx in txs[..k] :: tx in txs;
      NothingOpen(txs[..k], sends[..k], wallet);
    }
  }

  lemma {:induction false} AllCredited(deposits: seq<Deposit>, wallet: int)
    requires forall d | d in deposits :: d.credited || d.source.Some?
    ensures Uncredited(deposits, wallet) == 0
  {
    if deposits != [] {
      var k := |deposits| - 1;
      assert deposits[k] in deposits && forall d | d in deposits[..k] :: d in deposits;
      AllCredited(deposits[..k], wallet);
    }
  }

  /**
   * Once nothing is under way, the ledger says exactly what the wallet owns on the chain, up to
   * own outputs that were credited and sends that were stranded.
   */
  lemma QuietLedgerEqualsChain(w: World, currency: Key, events: seq<Event>, wallet: int)
    requires Start(w, currency)
    requires forall tx | tx in Run(w, currency, events).book.txs :: !Accounting.Unfinished(tx)
    requires forall d | d in Run(w, currency, events).deposits :: d.credited || d.source.Some?
    ensures var end := Run(w, currency, events);
            && |end.sends| == |end.book.txs|
            && LedgerBalance(end, wallet, currency) ==
               Unspent(end.coins, wallet) + CreditedTwice(end.deposits, wallet)
               + Sum(end.book.txs, end.sends, wallet, Stranded)
  {
    var end := Run(w, currency, events);
    LedgerAgreesWithChain(w, currency, events, wallet);
    NothingOpen(end.book.txs, end.sends, wallet);
    AllCredited(end.deposits, wallet);
  }
}
