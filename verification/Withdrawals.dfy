/** Creating a merchant withdrawal, undoing one that failed, and settling one the chain decided. */
module Withdrawals {
  import opened Outcomes
  import opened Money
  import opened Ledger
  import opened Desk
  import Limit
  import Nonces
  import Reservations
  import SignedUtxo

  /** The withdrawal with the balances as they were loaded; their rows are addressed by position. */
  datatype Request = Request(
    payment: nat, merchant: int, parties: SignedUtxo.Parties, utxo: bool, amount: Money,
    system: nat, merchantRow: nat, systemSeen: Money, merchantSeen: Money, key: Key, coin: Key)

  datatype Broadcast = Accepted(hash: string) | OutOfFunds | Refused

  /** Everything the environment decides while a withdrawal is created. */
  datatype Environment = Environment(
    setup: bool, supported: bool, quotedFee: Option<Money>, attempts: seq<SignedUtxo.Attempt>, kmsAvailable: bool,
    feeUsable: bool, convertible: bool, insertable: bool, network: Broadcast, markable: bool, hashStored: bool,
    paymentUpdatable: bool)

  /** What was done before the withdrawal succeeded or failed. */
  datatype Output = Output(
    tx: Option<nat>, signed: bool, markFailed: bool, serviceFee: int, decremented: bool, broadcast: bool)

  const NOTHING := Output(None, false, false, 0, false, false)

  /** A signed transaction; only one from a UTXO chain has reservations. */
  datatype SignedTx = Account(nonce: nat) | Utxo(raw: Reservations.RawTx)

  /** The checks before signing: the error and whether the payment is given up. */
  function Preflight(req: Request, env: Environment): Option<(Error, bool)> {
    if !env.setup then Some((Unavailable, false))
    else if !env.supported then Some((UnsupportedRuntime, true))
    else if env.quotedFee.None? then Some((Unavailable, false))
    else if Limit.Covers(req.merchantSeen, [req.amount, env.quotedFee.value]).Err? then
      Some((InsufficientBalance, true))
    else if Limit.Covers(req.systemSeen, [req.amount]).Err? then Some((InsufficientBalance, false))
    else None
  }

  /** The record of a withdrawal before it is confirmed. */
  function Record(req: Request, serviceFee: int, hash: Option<string>): Tx {
    Tx(Withdrawal, Ledger.Pending, req.merchant, DbId(req.payment), Some(req.parties.owner.wallet), None,
       req.key, req.coin, req.amount.value, serviceFee, None, None, hash)
  }

  /** What `UpdateBalancesForWithdrawal` does to the rows for this request. */
  function Move(rows: seq<Balance>, req: Request, op: Operation, txId: int, serviceFee: int): Outcome<seq<Balance>> {
    MoveForWithdrawal(rows, op, txId, req.system, req.merchantRow, req.amount.ticker, req.amount.value, serviceFee)
  }

  /** The rows of a signed transaction that is not broadcast yet. */
  ghost predicate Holds(
    before: seq<Reservations.Row>, after: seq<Reservations.Row>, signed: SignedTx, owner: Reservations.Owner)
  {
    match signed
    case Account(_) => after == before
    case Utxo(raw) =>
      && raw.owner == owner && (forall k | k in raw.inputs :: !Reservations.Blocked(before, owner, k))
      && SignedUtxo.Extended(before, after, owner, raw.inputs, Some(raw), Reservations.Reserved)
  }

  /** The first attempt that signs pays this fee on the chain. */
  ghost predicate FeeOfPlan(rows: seq<Reservations.Row>, req: Request, attempts: seq<SignedUtxo.Attempt>, fee: int) {
    exists i | 0 <= i < |attempts| :: SignsForFee(rows, req, attempts, i, fee)
  }

  ghost predicate SignsForFee(
    rows: seq<Reservations.Row>, req: Request, attempts: seq<SignedUtxo.Attempt>, i: nat, fee: int)
    requires i < |attempts|
  {
    && SignedUtxo.SignsAt(rows, req.parties, SignedUtxo.Payment(req.amount), attempts, i)
    && fee == SignedUtxo.PlanOfAttempt(rows, req.parties, SignedUtxo.Payment(req.amount), attempts[i]).value.fee
  }

  /** The fee is exactly the network fee of the signed transaction, which carries out that attempt's plan. */
  ghost predicate PaysOwnFee(
    rows: seq<Reservations.Row>, req: Request, attempts: seq<SignedUtxo.Attempt>, raw: Reservations.RawTx, fee: int)
  {
    exists i | 0 <= i < |attempts| ::
      && SignsForFee(rows, req, attempts, i, fee)
      && var plan := SignedUtxo.PlanOfAttempt(rows, req.parties, SignedUtxo.Payment(req.amount), attempts[i]).value;
         raw.outputs == plan.outputs && raw.inputs == SignedUtxo.InputKeys(plan.inputs)
  }

  /** The environment lets the withdrawal be signed. */
  ghost predicate Signable(rows: seq<Reservations.Row>, req: Request, env: Environment)
    requires |env.attempts| == Reservations.ATTEMPTS
  {
    if !req.utxo then env.kmsAvailable
    else
      env.feeUsable && exists i | 0 <= i < Reservations.ATTEMPTS ::
        SignedUtxo.SignsAt(rows, req.parties, SignedUtxo.Payment(req.amount), env.attempts, i)
  }

  /** The outputs of the wallet do not suffice for the amount and the fee of the chain. */
  ghost predicate Unfunded(rows: seq<Reservations.Row>, req: Request, env: Environment) {
    && Preflight(req, env).None? && req.utxo
    && SignedUtxo.Unfunded(rows, req.parties, SignedUtxo.Payment(req.amount), env.attempts)
  }

  /** A signed withdrawal with this fee gets a record. */
  predicate Records(req: Request, env: Environment, fee: Money) {
    Limit.Covers(req.merchantSeen, [req.amount, fee]).Ok? && env.convertible && env.insertable
  }

  /** A signed withdrawal with this fee gets as far as moving the balances. */
  predicate Moves(book: Book, req: Request, env: Environment, fee: Money) {
    Records(req, env, fee) && Move(book.balances, req, Decrement, DbId(|book.txs|), fee.value).Ok?
  }

  /** The environment and the balances let a signed withdrawal with this fee go through. */
  predicate Goes(book: Book, req: Request, env: Environment, fee: Money, payments: nat) {
    && Moves(book, req, env, fee) && env.network.Accepted?
    && (req.utxo ==> env.markable) && env.paymentUpdatable && req.payment < payments
  }

  /** The service fee as an amount of money. */
  function FeeMoney(req: Request, env: Environment, fee: int): Money {
    if req.utxo || env.quotedFee.None? then req.amount.(value := fee) else env.quotedFee.value
  }

  /** Sign on the chain's own path; the service fee of a UTXO withdrawal is the fee of its plan. */
  method Sign(desk: Tables, req: Request, env: Environment, quoted: Money)
    returns (signed: Option<SignedTx>, fee: Outcome<Money>)
    requires |env.attempts| == Reservations.ATTEMPTS
    modifies desk.counters, desk.reservations
    ensures signed.None? ==> fee.Err?
    ensures desk.counters.Of(!req.parties.owner.isTest) == old(desk.counters.Of(!req.parties.owner.isTest))
    ensures desk.counters.Of(req.parties.owner.isTest) ==
            if signed.Some? && !req.utxo then Nonces.Issue(old(desk.counters.Of(req.parties.owner.isTest))).1
            else old(desk.counters.Of(req.parties.owner.isTest))
    ensures signed.None? ==> SignedUtxo.NothingReserved(old(desk.reservations.rows), desk.reservations.rows)
    ensures signed.Some? ==>
              && signed.value.Utxo? == req.utxo
              && Holds(old(desk.reservations.rows), desk.reservations.rows, signed.value, req.parties.owner)
    ensures !req.utxo && signed.Some? ==> fee == Ok(quoted)
    ensures fee.Ok? <==> Signable(old(desk.reservations.rows), req, env)
    ensures fee == Err(InsufficientFunds) <==>
              req.utxo
              && SignedUtxo.Unfunded(
                   old(desk.reservations.rows), req.parties, SignedUtxo.Payment(req.amount), env.attempts)
    ensures fee == Err(InsufficientFunds) ==> signed.None?
    ensures req.utxo && fee.Ok? ==> fee.value == req.amount.(value := fee.value.value)
    ensures req.utxo && fee.Ok? ==>
              PaysOwnFee(old(desk.reservations.rows), req, env.attempts, signed.value.raw, fee.value.value)
    ensures Reservations.RawMatches(old(desk.reservations.rows)) ==> Reservations.RawMatches(desk.reservations.rows)
  {
    if !req.utxo {
      var nonce := desk.SignWithNonce(req.parties.owner.isTest, env.kmsAvailable);
      if nonce.None? {
        return None, Err(Unavailable);
      }
      return Some(Account(nonce.value)), Ok(quoted);
    }
    var r := SignedUtxo.CreateSignedUtxo(desk.reservations, req.parties, SignedUtxo.Payment(req.amount), env.attempts);
    if r.Err? {
      return None, Err(r.error);
    }
    var (raw, plan) := r.value;
    return Some(Utxo(raw)), if env.feeUsable then Ok(req.amount.(value := plan.fee)) else Err(Validation);
  }

  /** The books differ by the pending record and the moved balances the output speaks of. */
  ghost predicate Booked(before: Book, after: Book, req: Request, out: Output) {
    if out.tx.None? then after == before && !out.decremented
    else
      && out.tx.value == |before.txs| && |after.txs| == |before.txs| + 1 && before.txs <= after.txs
      && (var tx := after.txs[|before.txs|]; tx == Record(req, out.serviceFee, tx.hash))
      && (if out.decremented
          then Move(before.balances, req, Decrement, DbId(out.tx.value), out.serviceFee) == Ok(after.balances)
          else after.balances == before.balances)
  }

  /** The part of createWithdrawal between signing and broadcasting: record the transaction, move the balances. */
  method BookWithdrawal(desk: Tables, req: Request, env: Environment, serviceFee: int)
    returns (out: Output, error: Option<Error>)
    modifies desk.store
    ensures Booked(old(desk.store.Value()), desk.store.Value(), req, out)
    ensures out.signed && !out.broadcast && out.serviceFee == serviceFee
    ensures error.None? <==> out.decremented
    ensures out.tx.Some? <==> env.convertible && env.insertable
    ensures out.tx.None? ==> error == Some(Unavailable)
    ensures out.decremented <==>
              env.convertible && env.insertable
              && Move(old(desk.store.balances), req, Decrement, DbId(|old(desk.store.txs)|), serviceFee).Ok?
    ensures out.markFailed <==>
              env.convertible && env.insertable
              && Move(old(desk.store.balances), req, Decrement, DbId(|old(desk.store.txs)|), serviceFee)
                 == Err(InsufficientBalance)
  {
    out := NOTHING.(signed := true, serviceFee := serviceFee);
    if !env.convertible || !env.insertable {
      return out, Some(Unavailable);
    }
    var tx := desk.store.CreateTransaction(Record(req, serviceFee, None));
    out := out.(tx := Some(tx));
    error := desk.store.UpdateBalancesForWithdrawal(
      Decrement, DbId(tx), req.system, req.merchantRow, req.amount.ticker, req.amount.value, serviceFee);
    if error.Some? {
      out := out.(markFailed := error.value == InsufficientBalance);
      return;
    }
    out := out.(decremented := true);
  }

  /** The end of createWithdrawal: broadcast, then mark the inputs, the hash and the payment. */
  method Send(desk: Tables, req: Request, env: Environment, signed: SignedTx, tx: nat)
    returns (markFailed: bool, broadcast: bool, error: Option<Error>)
    requires tx < |desk.store.txs|
    modifies desk`payments, desk.store`txs, desk.reservations
    ensures |desk.store.txs| == old(|desk.store.txs|)
    ensures desk.store.txs == old(desk.store.txs)[tx := old(desk.store.txs)[tx].(hash := desk.store.txs[tx].hash)]
    ensures broadcast == env.network.Accepted? && markFailed == env.network.OutOfFunds?
    ensures error.None? <==>
              broadcast && (signed.Utxo? ==> env.markable) && env.paymentUpdatable && req.payment < |old(desk.payments)|
    ensures !broadcast ==> error.Some? && desk.reservations.rows == old(desk.reservations.rows)
    ensures error.Some? ==> desk.payments == old(desk.payments)
    ensures error.None? ==> desk.payments == old(desk.payments)[req.payment := PaymentStatus.InProgress]
    ensures error.None? && signed.Utxo? ==>
              desk.reservations.rows == Reservations.SetByRaw(
                old(desk.reservations.rows), req.parties.owner, signed.raw, Reservations.Broadcasted)
    ensures signed.Account? ==> desk.reservations.rows == old(desk.reservations.rows)
    ensures error.Some? && signed.Utxo? ==>
              desk.reservations.rows == old(desk.reservations.rows)
              || desk.reservations.rows == Reservations.SetByRaw(
                   old(desk.reservations.rows), req.parties.owner, signed.raw, Reservations.Broadcasted)
  {
    if env.network == OutOfFunds {
      return true, false, Some(InsufficientFunds);
    }
    if env.network == Broadcast.Refused {
      return false, false, Some(Unavailable);
    }
    if signed.Utxo? {
      if !env.markable {
        return false, true, Some(Unavailable);
      }
      desk.reservations.MarkBroadcasted(req.parties.owner, signed.raw);
    }
    if env.hashStored {
      desk.store.SetTransactionHash(tx, env.network.hash);
    }
    if !env.paymentUpdatable {
      return false, true, Some(Unavailable);
    }
    var failed := desk.UpdatePayment(req.payment, PaymentStatus.InProgress);
    return false, true, failed;
  }

  /** What is known when a withdrawal went through. */
  ghost predicate Succeeded(req: Request, out: Output) {
    out.signed && out.tx.Some? && out.decremented && out.broadcast && !out.markFailed
  }

  /** The payment is given up: it can never be carried out. */
  predicate GivenUp(book: Book, req: Request, env: Environment, fee: Outcome<Money>) {
    fee.Ok? &&
    (|| Limit.Covers(req.merchantSeen, [req.amount, fee.value]).Err?
     || (env.convertible && env.insertable
         && (var moved := Move(book.balances, req, Decrement, DbId(|book.txs|), fee.value.value);
             if moved.Ok? then env.network.OutOfFunds? else moved.error == InsufficientBalance)))
  }

  /** What is decided once it is known whether the withdrawal is signed and for which fee. */
  ghost predicate Completed(
    book: Book, payments: nat, req: Request, env: Environment, fee: Outcome<Money>, out: Output, error: Option<Error>)
  {
    && (fee.Ok? ==> out.serviceFee == fee.value.value)
    && (out.signed <==> fee.Ok? && Limit.Covers(req.merchantSeen, [req.amount, fee.value]).Ok?)
    && (out.tx.Some? <==> fee.Ok? && Records(req, env, fee.value))
    && (out.decremented <==> fee.Ok? && Moves(book, req, env, fee.value))
    && (out.broadcast <==> out.decremented && env.network.Accepted?)
    && (error.None? <==> fee.Ok? && Goes(book, req, env, fee.value, payments))
    && (out.markFailed <==> GivenUp(book, req, env, fee))
  }

  /** createWithdrawal after signing. */
  method Complete(desk: Tables, req: Request, env: Environment, signed: SignedTx, fee: Outcome<Money>)
    returns (out: Output, error: Option<Error>)
    requires signed.Utxo? == req.utxo
    modifies desk`payments, desk.store, desk.reservations
    ensures Completed(old(desk.store.Value()), |old(desk.payments)|, req, env, fee, out, error)
    ensures error == Some(InsufficientFunds) && out.tx.None? <==> fee == Err(InsufficientFunds)
    ensures Booked(old(desk.store.Value()), desk.store.Value(), req, out)
    ensures error.Some? ==> desk.payments == old(desk.payments)
    ensures error.None? ==>
              Succeeded(req, out) && desk.payments == old(desk.payments)[req.payment := PaymentStatus.InProgress]
    ensures !out.broadcast ==> error.Some? && desk.reservations.rows == old(desk.reservations.rows)
    ensures error.None? && signed.Utxo? ==>
              desk.reservations.rows == Reservations.SetByRaw(
                old(desk.reservations.rows), req.parties.owner, signed.raw, Reservations.Broadcasted)
    ensures signed.Account? ==> desk.reservations.rows == old(desk.reservations.rows)
    ensures out.broadcast && signed.Utxo? ==>
              desk.reservations.rows == old(desk.reservations.rows)
              || desk.reservations.rows == Reservations.SetByRaw(
                   old(desk.reservations.rows), req.parties.owner, signed.raw, Reservations.Broadcasted)
    ensures Reservations.RawMatches(old(desk.reservations.rows)) ==> Reservations.RawMatches(desk.reservations.rows)
  {
    if fee.Err? {
      return NOTHING, Some(fee.error);
    }
    if Limit.Covers(req.merchantSeen, [req.amount, fee.value]).Err? {
      return NOTHING.(markFailed := true, serviceFee := fee.value.value), Some(InsufficientBalance);
    }
    out, error := BookWithdrawal(desk, req, env, fee.value.value);
    if error.Some? {
      return;
    }
    ghost var held := desk.reservations.rows;
    if signed.Utxo? && Reservations.RawMatches(held) {
      Reservations.SettlingKeepsRaws(held, req.parties.owner, signed.raw, Reservations.Broadcasted);
    }
    var markFailed, broadcast;
    markFailed, broadcast, error := Send(desk, req, env, signed, out.tx.value);
    out := out.(markFailed := markFailed, broadcast := broadcast);
  }

  /** The inputs of a UTXO withdrawal that pays its own fee have rows of this status. */
  ghost predicate SpentOnce(
    before: seq<Reservations.Row>, after: seq<Reservations.Row>, req: Request, attempts: seq<SignedUtxo.Attempt>,
    fee: int, status: Reservations.Status)
  {
    exists raw: Reservations.RawTx ::
      && SignedUtxo.Extended(before, after, req.parties.owner, raw.inputs, Some(raw), status)
      && PaysOwnFee(before, req, attempts, raw, fee)
  }

  /** Everything about the outcome is decided by the state before, the request and the environment. */
  ghost predicate Decided(
    book: Book, rows: seq<Reservations.Row>, payments: nat, req: Request, env: Environment, out: Output,
    error: Option<Error>)
    requires |env.attempts| == Reservations.ATTEMPTS
  {
    var ready := Preflight(req, env).None? && Signable(rows, req, env);
    var fee := FeeMoney(req, env, out.serviceFee);
    && (ready && req.utxo ==> FeeOfPlan(rows, req, env.attempts, out.serviceFee))
    && (ready && !req.utxo ==> env.quotedFee.Some? && out.serviceFee == env.quotedFee.value.value)
    && (out.signed <==> ready && Limit.Covers(req.merchantSeen, [req.amount, fee]).Ok?)
    && (out.tx.Some? <==> ready && Records(req, env, fee))
    && (out.decremented <==> ready && Moves(book, req, env, fee))
    && (out.broadcast <==> out.decremented && env.network.Accepted?)
    && (error.None? <==> ready && Goes(book, req, env, fee, payments))
    && (out.markFailed <==>
          match Preflight(req, env)
          case Some(refused) => refused.1
          case None => ready && GivenUp(book, req, env, Ok(fee)))
  }

  lemma CompletedIsDecided(
    book: Book, rows: seq<Reservations.Row>, payments: nat, req: Request, env: Environment, fee: Outcome<Money>,
    out: Output, error: Option<Error>)
    requires |env.attempts| == Reservations.ATTEMPTS && Preflight(req, env).None?
    requires fee.Ok? <==> Signable(rows, req, env)
    requires fee.Ok? ==> fee.value == FeeMoney(req, env, fee.value.value)
    requires fee.Ok? && req.utxo ==> FeeOfPlan(rows, req, env.attempts, fee.value.value)
    requires Completed(book, payments, req, env, fee, out, error)
    ensures Decided(book, rows, payments, req, env, out, error)
  {
  }

  /** What the reserved inputs become, whether they are spent, marked or given up. */
  lemma HeldRows(
    before: seq<Reservations.Row>, held: seq<Reservations.Row>, req: Request, attempts: seq<SignedUtxo.Attempt>,
    raw: Reservations.RawTx, fee: Outcome<Money>)
    requires Reservations.RawMatches(before) && Holds(before, held, Utxo(raw), req.parties.owner)
    requires fee.Ok? ==> PaysOwnFee(before, req, attempts, raw, fee.value.value)
    ensures var owner := req.parties.owner;
            var marked := Reservations.SetByRaw(held, owner, raw, Reservations.Broadcasted);
            var released := Reservations.SetByRaw(held, owner, raw, Reservations.Released);
            && SignedUtxo.NothingReserved(before, released)
            && (fee.Ok? ==>
                  && SpentOnce(before, held, req, attempts, fee.value.value, Reservations.Reserved)
                  && SpentOnce(before, marked, req, attempts, fee.value.value, Reservations.Broadcasted))
  {
    SignedUtxo.SettledByRaw(before, held, raw, Reservations.Released);
    SignedUtxo.SettledByRaw(before, held, raw, Reservations.Broadcasted);
  }

  lemma OwnFeeIsPlanFee(
    rows: seq<Reservations.Row>, req: Request, attempts: seq<SignedUtxo.Attempt>, raw: Reservations.RawTx, fee: int)
    requires PaysOwnFee(rows, req, attempts, raw, fee)
    ensures FeeOfPlan(rows, req, attempts, fee)
  {
  }

  /** The inputs of a broadcast withdrawal stay live, marked or not. */
  ghost predicate StaysLive(
    before: seq<Reservations.Row>, after: seq<Reservations.Row>, req: Request, attempts: seq<SignedUtxo.Attempt>,
    fee: int)
  {
    || SpentOnce(before, after, req, attempts, fee, Reservations.Reserved)
    || SpentOnce(before, after, req, attempts, fee, Reservations.Broadcasted)
  }

  /** createWithdrawal, with the deferred release of the inputs that were not spent. */
  method CreateWithdrawal(desk: Tables, req: Request, env: Environment) returns (out: Output, error: Option<Error>)
    requires |env.attempts| == Reservations.ATTEMPTS && Reservations.RawMatches(desk.reservations.rows)
    modifies desk`payments, desk.store, desk.counters, desk.reservations
    ensures Decided(
              old(desk.store.Value()), old(desk.reservations.rows), |old(desk.payments)|, req, env, out, error)
    ensures error == Some(InsufficientFunds) && out.tx.None? <==>
              Unfunded(old(desk.reservations.rows), req, env)
    ensures Booked(old(desk.store.Value()), desk.store.Value(), req, out)
    ensures desk.counters.Of(!req.parties.owner.isTest) == old(desk.counters.Of(!req.parties.owner.isTest))
    ensures desk.counters.Of(req.parties.owner.isTest) ==
            if out.signed && !req.utxo then Nonces.Issue(old(desk.counters.Of(req.parties.owner.isTest))).1
            else old(desk.counters.Of(req.parties.owner.isTest))
    ensures error.Some? ==> desk.payments == old(desk.payments)
    ensures error.None? ==>
              Succeeded(req, out) && desk.payments == old(desk.payments)[req.payment := PaymentStatus.InProgress]
    ensures !req.utxo || !out.broadcast ==>
              SignedUtxo.NothingReserved(old(desk.reservations.rows), desk.reservations.rows)
    ensures req.utxo && out.broadcast ==>
              StaysLive(old(desk.reservations.rows), desk.reservations.rows, req, env.attempts, out.serviceFee)
    ensures error.None? && req.utxo ==>
              SpentOnce(
                old(desk.reservations.rows), desk.reservations.rows, req, env.attempts, out.serviceFee,
                Reservations.Broadcasted)
    ensures Reservations.RawMatches(desk.reservations.rows)
  {
    var refused := Preflight(req, env);
    if refused.Some? {
      return NOTHING.(markFailed := refused.value.1), Some(refused.value.0);
    }
    ghost var before := desk.reservations.rows;
    var quoted := env.quotedFee.value;
    var signed, fee := Sign(desk, req, env, quoted);
    if signed.None? {
      return NOTHING.(serviceFee := quoted.value), Some(fee.error);
    }
    ghost var held := desk.reservations.rows;
    out, error := Complete(desk, req, env, signed.value, fee);
    if req.utxo {
      HeldRows(before, held, req, env.attempts, signed.value.raw, fee);
      if fee.Ok? {
        OwnFeeIsPlanFee(before, req, env.attempts, signed.value.raw, fee.value.value);
      }
    }
    CompletedIsDecided(
      old(desk.store.Value()), before, |old(desk.payments)|, req, env, fee, out, error);
    if req.utxo {
      if error.Some? && !out.broadcast {
        Reservations.SettlingKeepsRaws(held, req.parties.owner, signed.value.raw, Reservations.Released);
        desk.reservations.ReleaseByRaw(req.parties.owner, signed.value.raw);
      }
    }
  }

  // ----- rollback -----

  /** What rolling back does to the books. */
  function RolledBack(book: Book, req: Request, out: Output): Outcome<Book> {
    var cancelled := if out.tx.None? then Ok(book) else Cancel(book, out.tx.value, Cancelled, None);
    if cancelled.Err? || !out.decremented then cancelled
    else
      var moved := Move(cancelled.value.balances, req, Increment, DbId(req.payment), out.serviceFee);
      if moved.Err? then Err(moved.error) else Ok(cancelled.value.(balances := moved.value))
  }

  /** rollbackWithdrawal. */
  method RollbackWithdrawal(desk: Tables, req: Request, out: Output) returns (error: Option<Error>)
    requires RolledBack(desk.store.Value(), req, out).Ok? && req.payment < |desk.payments|
    requires out.signed && !req.utxo ==> desk.counters.Of(req.parties.owner.isTest).pending > 0
    modifies desk`payments, desk.store, desk.counters
    ensures error.None? && Ok(desk.store.Value()) == RolledBack(old(desk.store.Value()), req, out)
    ensures desk.counters.Of(!req.parties.owner.isTest) == old(desk.counters.Of(!req.parties.owner.isTest))
    ensures desk.counters.Of(req.parties.owner.isTest) ==
            if out.signed && !req.utxo then Nonces.Rollback(old(desk.counters.Of(req.parties.owner.isTest))).counters
            else old(desk.counters.Of(req.parties.owner.isTest))
    ensures desk.payments ==
            if out.markFailed then old(desk.payments)[req.payment := PaymentStatus.Failed] else old(desk.payments)
  {
    if out.signed && !req.utxo {
      var refused := desk.counters.DecrementPendingTransaction(req.parties.owner.isTest);
      if refused.Some? {
        return Some(Unavailable);
      }
    }
    if out.tx.Some? {
      error := desk.store.CancelTransaction(out.tx.value, Cancelled, None);
      if error.Some? {
        return;
      }
    }
    if out.decremented {
      error := desk.store.UpdateBalancesForWithdrawal(
        Increment, DbId(req.payment), req.system, req.merchantRow, req.amount.ticker, req.amount.value, out.serviceFee);
      if error.Some? {
        return;
      }
    }
    error := None;
    if out.markFailed {
      error := desk.UpdatePayment(req.payment, PaymentStatus.Failed);
    }
  }

  /** The books after an undone withdrawal: every balance as before, at most one cancelled record more. */
  ghost predicate Restored(before: Book, after: Book, req: Request, out: Output) {
    && after.balances == before.balances
    && if out.tx.None? then after.txs == before.txs
       else
         && |after.txs| == |before.txs| + 1 && before.txs <= after.txs
         && (var tx := after.txs[|before.txs|];
             tx == Record(req, out.serviceFee, tx.hash).(status := Cancelled))
  }

  /** However far the creation got, rolling back restores the books. */
  lemma RollbackRestores(before: Book, after: Book, req: Request, out: Output)
    requires NonNegative(before.balances) && Booked(before, after, req, out)
    ensures RolledBack(after, req, out).Ok? && Restored(before, RolledBack(after, req, out).value, req, out)
  {
    if out.decremented {
      WithdrawalMoveUndone(
        before.balances, DbId(out.tx.value), DbId(req.payment), req.system, req.merchantRow, req.amount.ticker,
        req.amount.value, out.serviceFee);
    }
  }
}
