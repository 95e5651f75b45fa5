/** Moving the coins of an inbound wallet to an outbound wallet, and undoing a transfer that failed. */
module Transfers {
  import opened Outcomes
  import opened Money
  import opened Ledger
  import opened Desk
  import Nonces
  import Reservations
  import SignedUtxo
  import W = Withdrawals

  /** A transfer between two wallets of the system; the sender's balance is addressed by its row. */
  datatype Request = Request(
    parties: SignedUtxo.Parties, utxo: bool, amount: Money, senderRow: nat, recipientWallet: int, key: Key, coin: Key)

  datatype Environment = Environment(
    setup: bool, supported: bool, feeKnown: bool, attempts: seq<SignedUtxo.Attempt>, kmsAvailable: bool,
    amountUsable: bool, convertible: bool, insertable: bool, network: W.Broadcast, markable: bool, hashStored: bool)

  datatype Output = Output(tx: Option<nat>, signed: bool, amount: int, decremented: bool, broadcast: bool)

  const NOTHING := Output(None, false, 0, false, false)

  function Preflight(env: Environment): Option<Error> {
    if !env.setup then Some(Unavailable)
    else if !env.supported then Some(UnsupportedRuntime)
    else if !env.feeKnown then Some(Unavailable)
    else None
  }

  function Record(req: Request, amount: int, hash: Option<string>): Tx {
    Tx(Internal, Ledger.Pending, SYSTEM_MERCHANT, 0, Some(req.parties.owner.wallet), Some(req.recipientWallet),
       req.key, req.coin, amount, 0, None, None, hash)
  }

  /** The first attempt that signs delivers this amount. */
  ghost predicate AmountOfPlan(
    rows: seq<Reservations.Row>, req: Request, attempts: seq<SignedUtxo.Attempt>, amount: int)
  {
    exists i | 0 <= i < |attempts| :: SignsForAmount(rows, req, attempts, i, amount)
  }

  ghost predicate SignsForAmount(
    rows: seq<Reservations.Row>, req: Request, attempts: seq<SignedUtxo.Attempt>, i: nat, amount: int)
    requires i < |attempts|
  {
    && SignedUtxo.SignsAt(rows, req.parties, SignedUtxo.WholeWallet, attempts, i)
    && amount == SignedUtxo.PlanOfAttempt(rows, req.parties, SignedUtxo.WholeWallet, attempts[i]).value.required
  }

  /** The amount is exactly what that attempt's plan delivers, and the transaction carries the plan out. */
  ghost predicate DeliversAmount(
    rows: seq<Reservations.Row>, req: Request, attempts: seq<SignedUtxo.Attempt>, raw: Reservations.RawTx, amount: int)
  {
    exists i | 0 <= i < |attempts| ::
      && SignsForAmount(rows, req, attempts, i, amount)
      && var plan := SignedUtxo.PlanOfAttempt(rows, req.parties, SignedUtxo.WholeWallet, attempts[i]).value;
         raw.outputs == plan.outputs && raw.inputs == SignedUtxo.InputKeys(plan.inputs)
  }

  /** The environment lets the transfer be signed. */
  ghost predicate Signable(rows: seq<Reservations.Row>, req: Request, env: Environment)
    requires |env.attempts| == Reservations.ATTEMPTS
  {
    if !req.utxo then env.kmsAvailable
    else
      env.amountUsable && exists i | 0 <= i < Reservations.ATTEMPTS ::
        SignedUtxo.SignsAt(rows, req.parties, SignedUtxo.WholeWallet, env.attempts, i)
  }

  /** Sign on the chain's own path; on a UTXO chain the whole wallet is swept and the plan decides the amount. */
  method Sign(desk: Tables, req: Request, env: Environment) returns (signed: Option<W.SignedTx>, amount: Outcome<int>)
    requires |env.attempts| == Reservations.ATTEMPTS
    modifies desk.counters, desk.reservations
    ensures signed.None? ==> amount.Err?
    ensures desk.counters.Of(!req.parties.owner.isTest) == old(desk.counters.Of(!req.parties.owner.isTest))
    ensures desk.counters.Of(req.parties.owner.isTest) ==
            if signed.Some? && !req.utxo then Nonces.Issue(old(desk.counters.Of(req.parties.owner.isTest))).1
            else old(desk.counters.Of(req.parties.owner.isTest))
    ensures signed.None? ==> SignedUtxo.NothingReserved(old(desk.reservations.rows), desk.reservations.rows)
    ensures signed.Some? ==>
              && signed.value.Utxo? == req.utxo
              && W.Holds(old(desk.reservations.rows), desk.reservations.rows, signed.value, req.parties.owner)
    ensures !req.utxo && signed.Some? ==> amount == Ok(req.amount.value)
    ensures amount.Ok? <==> Signable(old(desk.reservations.rows), req, env)
    ensures req.utxo && amount.Ok? ==>
              DeliversAmount(old(desk.reservations.rows), req, env.attempts, signed.value.raw, amount.value)
    ensures Reservations.RawMatches(old(desk.reservations.rows)) ==> Reservations.RawMatches(desk.reservations.rows)
  {
    if !req.utxo {
      var nonce := desk.SignWithNonce(req.parties.owner.isTest, env.kmsAvailable);
      if nonce.None? {
        return None, Err(Unavailable);
      }
      return Some(W.Account(nonce.value)), Ok(req.amount.value);
    }
    var r := SignedUtxo.CreateSignedUtxo(desk.reservations, req.parties, SignedUtxo.WholeWallet, env.attempts);
    if r.Err? {
      return None, Err(r.error);
    }
    var (raw, plan) := r.value;
    return Some(W.Utxo(raw)), if env.amountUsable then Ok(plan.required) else Err(Validation);
  }

  /** The books differ by the pending record and the moved balance the output speaks of. */
  ghost predicate Booked(before: Book, after: Book, req: Request, out: Output) {
    if out.tx.None? then after == before && !out.decremented
    else
      && out.tx.value == |before.txs| && |after.txs| == |before.txs| + 1 && before.txs <= after.txs
      && (var tx := after.txs[|before.txs|]; tx == Record(req, out.amount, tx.hash))
      && (if out.decremented
          then Adjust(before.balances, req.senderRow, Decrement, req.amount.ticker, out.amount) == Ok(after.balances)
          else after.balances == before.balances)
  }

  /** A signed transfer gets as far as moving the sender's balance. */
  predicate Moves(book: Book, req: Request, env: Environment, amount: int) {
    && env.convertible && env.insertable
    && Adjust(book.balances, req.senderRow, Decrement, req.amount.ticker, amount).Ok?
  }

  /** The environment and the sender's balance let a signed transfer go through. */
  predicate Goes(book: Book, req: Request, env: Environment, amount: int) {
    Moves(book, req, env, amount) && env.network.Accepted? && (req.utxo ==> env.markable)
  }

  /** What is decided once it is known whether the transfer is signed and for which amount. */
  ghost predicate Completed(
    book: Book, req: Request, env: Environment, amount: Outcome<int>, out: Output, error: Option<Error>)
  {
    && (amount.Ok? ==> out.amount == amount.value)
    && (out.signed <==> amount.Ok?)
    && (out.tx.Some? <==> amount.Ok? && env.convertible && env.insertable)
    && (out.decremented <==> amount.Ok? && Moves(book, req, env, amount.value))
    && (out.broadcast <==> out.decremented && env.network.Accepted?)
    && (error.None? <==> amount.Ok? && Goes(book, req, env, amount.value))
  }

  /** createInternalTransfer after signing. */
  method Complete(desk: Tables, req: Request, env: Environment, signed: W.SignedTx, amount: Outcome<int>)
    returns (out: Output, error: Option<Error>)
    requires signed.Utxo? == req.utxo
    modifies desk.store, desk.reservations
    ensures Completed(old(desk.store.Value()), req, env, amount, out, error)
    ensures Booked(old(desk.store.Value()), desk.store.Value(), req, out)
    ensures error.None? ==> out.decremented && out.broadcast
    ensures !out.broadcast ==> error.Some? && desk.reservations.rows == old(desk.reservations.rows)
    ensures error.None? && signed.Utxo? ==>
              desk.reservations.rows == Reservations.SetByRaw(
                old(desk.reservations.rows), req.parties.owner, signed.raw, Reservations.Broadcasted)
    ensures signed.Account? ==> desk.reservations.rows == old(desk.reservations.rows)
    ensures out.broadcast && signed.Utxo? ==>
              desk.reservations.rows == old(desk.reservations.rows)
              || desk.reservations.rows == Reservations.SetByRaw(
                   old(desk.reservations.rows), req.parties.owner, signed.raw, Reservations.Broadcasted)
    ensures Reservations.RawMatches(old(desk.reservations.rows)) ==> Reservations.RawMatches(desk.reservations.rows)
  {
    if amount.Err? {
      return NOTHING, Some(amount.error);
    }
    out := NOTHING.(signed := true, amount := amount.value);
    if !env.convertible || !env.insertable {
      return out, Some(Unavailable);
    }
    var tx := desk.store.CreateTransaction(Record(req, amount.value, None));
    out := out.(tx := Some(tx));
    error := desk.store.UpdateBalanceById(req.senderRow, Decrement, req.amount.ticker, amount.value);
    if error.Some? {
      return;
    }
    out := out.(decremented := true);
    if !env.network.Accepted? {
      return out, Some(Unavailable);
    }
    out := out.(broadcast := true);
    if signed.Utxo? {
      if !env.markable {
        return out, Some(Unavailable);
      }
      ghost var held := desk.reservations.rows;
      if Reservations.RawMatches(held) {
        Reservations.SettlingKeepsRaws(held, req.parties.owner, signed.raw, Reservations.Broadcasted);
      }
      desk.reservations.MarkBroadcasted(req.parties.owner, signed.raw);
    }
    if env.hashStored {
      desk.store.SetTransactionHash(tx, env.network.hash);
    }
  }

  /** The inputs of a sweep that delivers the recorded amount have rows of this status. */
  ghost predicate SweptOnce(
    before: seq<Reservations.Row>, after: seq<Reservations.Row>, req: Request, attempts: seq<SignedUtxo.Attempt>,
    amount: int, status: Reservations.Status)
  {
    exists raw: Reservations.RawTx ::
      && SignedUtxo.Extended(before, after, req.parties.owner, raw.inputs, Some(raw), status)
      && DeliversAmount(before, req, attempts, raw, amount)
  }

  /** The inputs of a broadcast sweep stay live, marked or not. */
  ghost predicate StaysLive(
    before: seq<Reservations.Row>, after: seq<Reservations.Row>, req: Request, attempts: seq<SignedUtxo.Attempt>,
    amount: int)
  {
    || SweptOnce(before, after, req, attempts, amount, Reservations.Reserved)
    || SweptOnce(before, after, req, attempts, amount, Reservations.Broadcasted)
  }

  /** Everything about the outcome is decided by the state before, the request and the environment. */
  ghost predicate Decided(
    book: Book, rows: seq<Reservations.Row>, req: Request, env: Environment, out: Output, error: Option<Error>)
    requires |env.attempts| == Reservations.ATTEMPTS
  {
    var ready := Preflight(env).None? && Signable(rows, req, env);
    && (ready && req.utxo ==> AmountOfPlan(rows, req, env.attempts, out.amount))
    && (ready && !req.utxo ==> out.amount == req.amount.value)
    && (out.signed <==> ready)
    && (out.tx.Some? <==> ready && env.convertible && env.insertable)
    && (out.decremented <==> ready && Moves(book, req, env, out.amount))
    && (out.broadcast <==> out.decremented && env.network.Accepted?)
    && (error.None? <==> ready && Goes(book, req, env, out.amount))
  }

  lemma CompletedIsDecided(
    book: Book, rows: seq<Reservations.Row>, req: Request, env: Environment, amount: Outcome<int>, out: Output,
    error: Option<Error>)
    requires |env.attempts| == Reservations.ATTEMPTS && Preflight(env).None?
    requires amount.Ok? <==> Signable(rows, req, env)
    requires amount.Ok? && !req.utxo ==> amount.value == req.amount.value
    requires amount.Ok? && req.utxo ==> AmountOfPlan(rows, req, env.attempts, amount.value)
    requires Completed(book, req, env, amount, out, error)
    ensures Decided(book, rows, req, env, out, error)
  {
  }

  /** What the reserved inputs become, whether they are spent, marked or given up. */
  lemma HeldRows(
    before: seq<Reservations.Row>, held: seq<Reservations.Row>, req: Request, attempts: seq<SignedUtxo.Attempt>,
    raw: Reservations.RawTx, amount: Outcome<int>)
    requires Reservations.RawMatches(before) && W.Holds(before, held, W.Utxo(raw), req.parties.owner)
    requires amount.Ok? ==> DeliversAmount(before, req, attempts, raw, amount.value)
    ensures var owner := req.parties.owner;
            var marked := Reservations.SetByRaw(held, owner, raw, Reservations.Broadcasted);
            var released := Reservations.SetByRaw(held, owner, raw, Reservations.Released);
            && SignedUtxo.NothingReserved(before, released)
            && (amount.Ok? ==>
                  && SweptOnce(before, held, req, attempts, amount.value, Reservations.Reserved)
                  && SweptOnce(before, marked, req, attempts, amount.value, Reservations.Broadcasted))
  {
    SignedUtxo.SettledByRaw(before, held, raw, Reservations.Released);
    SignedUtxo.SettledByRaw(before, held, raw, Reservations.Broadcasted);
  }

  lemma DeliveredIsPlanned(
    rows: seq<Reservations.Row>, req: Request, attempts: seq<SignedUtxo.Attempt>, raw: Reservations.RawTx, amount: int)
    requires DeliversAmount(rows, req, attempts, raw, amount)
    ensures AmountOfPlan(rows, req, attempts, amount)
  {
  }

  /** createInternalTransfer, with the deferred release of the inputs that were not spent. */
  method CreateTransfer(desk: Tables, req: Request, env: Environment) returns (out: Output, error: Option<Error>)
    requires |env.attempts| == Reservations.ATTEMPTS && Reservations.RawMatches(desk.reservations.rows)
    modifies desk.store, desk.counters, desk.reservations
    ensures Decided(old(desk.store.Value()), old(desk.reservations.rows), req, env, out, error)
    ensures Booked(old(desk.store.Value()), desk.store.Value(), req, out)
    ensures desk.counters.Of(!req.parties.owner.isTest) == old(desk.counters.Of(!req.parties.owner.isTest))
    ensures desk.counters.Of(req.parties.owner.isTest) ==
            if out.signed && !req.utxo then Nonces.Issue(old(desk.counters.Of(req.parties.owner.isTest))).1
            else old(desk.counters.Of(req.parties.owner.isTest))
    ensures !req.utxo || !out.broadcast ==>
              SignedUtxo.NothingReserved(old(desk.reservations.rows), desk.reservations.rows)
    ensures req.utxo && out.broadcast ==>
              StaysLive(old(desk.reservations.rows), desk.reservations.rows, req, env.attempts, out.amount)
    ensures error.None? && req.utxo ==>
              SweptOnce(
                old(desk.reservations.rows), desk.reservations.rows, req, env.attempts, out.amount,
                Reservations.Broadcasted)
    ensures Reservations.RawMatches(desk.reservations.rows)
  {
    var refused := Preflight(env);
    if refused.Some? {
      return NOTHING, refused;
    }
    ghost var before := desk.reservations.rows;
    var signed, amount := Sign(desk, req, env);
    if signed.None? {
      return NOTHING, Some(amount.error);
    }
    ghost var held := desk.reservations.rows;
    out, error := Complete(desk, req, env, signed.value, amount);
    if req.utxo {
      HeldRows(before, held, req, env.attempts, signed.value.raw, amount);
      if amount.Ok? {
        DeliveredIsPlanned(before, req, env.attempts, signed.value.raw, amount.value);
      }
    }
    CompletedIsDecided(old(desk.store.Value()), before, req, env, amount, out, error);
    if req.utxo {
      if error.Some? && !out.broadcast {
        Reservations.SettlingKeepsRaws(held, req.parties.owner, signed.value.raw, Reservations.Released);
        desk.reservations.ReleaseByRaw(req.parties.owner, signed.value.raw);
      }
    }
  }

  // ----- rollback -----

  /** What rolling back does to the books. */
  function RolledBack(book: Book, req: Request, out: Output): Outcome<Book> {
    var cancelled := if out.tx.None? then Ok(book) else Cancel(book, out.tx.value, Cancelled, None);
    if cancelled.Err? || !out.decremented then cancelled
    else
      var amount := if out.amount == 0 then req.amount.value else out.amount;
      var moved := Adjust(cancelled.value.balances, req.senderRow, Increment, req.amount.ticker, amount);
      if moved.Err? then Err(moved.error) else Ok(cancelled.value.(balances := moved.value))
  }

  /** rollbackInternalTransfer. */
  method RollbackTransfer(desk: Tables, req: Request, out: Output) returns (error: Option<Error>)
    requires RolledBack(desk.store.Value(), req, out).Ok?
    requires out.signed && !req.utxo ==> desk.counters.Of(req.parties.owner.isTest).pending > 0
    modifies desk.store, desk.counters
    ensures error.None? && Ok(desk.store.Value()) == RolledBack(old(desk.store.Value()), req, out)
    ensures desk.counters.Of(!req.parties.owner.isTest) == old(desk.counters.Of(!req.parties.owner.isTest))
    ensures desk.counters.Of(req.parties.owner.isTest) ==
            if out.signed && !req.utxo then Nonces.Rollback(old(desk.counters.Of(req.parties.owner.isTest))).counters
            else old(desk.counters.Of(req.parties.owner.isTest))
  {
    if out.signed && !req.utxo {
      var refused := desk.counters.DecrementPendingTransaction(req.parties.owner.isTest);
      if refused.Some? {
        return Some(Unavailable);
      }
    }
    if out.tx.Some? {
      error := desk.store.CancelTransaction(out.tx.value, Cancelled, None);
      if error.Some? {
        return;
      }
    }
    error := None;
    if out.decremented {
      var amount := out.amount;
      if amount == 0 {
        amount := req.amount.value;
      }
      error := desk.store.UpdateBalanceById(req.senderRow, Increment, req.amount.ticker, amount);
    }
  }

  /** The books after an undone transfer: every balance as before, at most one cancelled record more. */
  ghost predicate Restored(before: Book, after: Book, req: Request, out: Output) {
    && after.balances == before.balances
    && if out.tx.None? then after.txs == before.txs
       else
         && |after.txs| == |before.txs| + 1 && before.txs <= after.txs
         && (var tx := after.txs[|before.txs|]; tx == Record(req, out.amount, tx.hash).(status := Cancelled))
  }

  lemma RollbackRestores(before: Book, after: Book, req: Request, out: Output)
    requires NonNegative(before.balances) && Booked(before, after, req, out)
    ensures RolledBack(after, req, out).Ok? && Restored(before, RolledBack(after, req, out).value, req, out)
  {
    if out.decremented && before.balances[req.senderRow].key.ticker == req.amount.ticker {
      assert after.balances[req.senderRow := before.balances[req.senderRow]] == before.balances;
    }
  }

  /**
   * Creating a transfer and rolling it back when it fails. Unless the transaction reached the
   * chain, a failure leaves no trace but a cancelled record.
   */
  method ProcessTransfer(desk: Tables, req: Request, env: Environment) returns (out: Output, error: Option<Error>)
    requires |env.attempts| == Reservations.ATTEMPTS && Reservations.RawMatches(desk.reservations.rows)
    requires NonNegative(desk.store.balances)
    modifies desk.store, desk.counters, desk.reservations
    ensures Decided(old(desk.store.Value()), old(desk.reservations.rows), req, env, out, error)
    ensures error.None? ==> Booked(old(desk.store.Value()), desk.store.Value(), req, out)
    ensures Reservations.RawMatches(desk.reservations.rows)
    ensures error.Some? ==> Restored(old(desk.store.Value()), desk.store.Value(), req, out)
    ensures error.Some? || req.utxo ==> forall net :: desk.counters.Of(net) == old(desk.counters.Of(net))
    ensures !req.utxo || !out.broadcast ==>
              forall owner :: Reservations.LiveKeys(desk.reservations.rows, owner)
                              == old(Reservations.LiveKeys(desk.reservations.rows, owner))
    ensures req.utxo && out.broadcast ==>
              StaysLive(old(desk.reservations.rows), desk.reservations.rows, req, env.attempts, out.amount)
  {
    ghost var book, rows := desk.store.Value(), desk.reservations.rows;
    out, error := CreateTransfer(desk, req, env);
    if error.Some? {
      RollbackRestores(book, desk.store.Value(), req, out);
      var failed := RollbackTransfer(desk, req, out);
    }
    if !req.utxo || !out.broadcast {
      SignedUtxo.SameLiveKeys(rows, desk.reservations.rows);
    }
  }
}
