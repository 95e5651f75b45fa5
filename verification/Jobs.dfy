/**
 * One withdrawal of a batch: the wallet that funds it is chosen, the withdrawal is created or
 * undone, and when the outputs of no single wallet suffice, inbound wallets are swept instead.
 */
module Jobs {
  import opened Outcomes
  import opened Money
  import opened Ledger
  import opened Desk
  import opened Consolidation
  import Accounting
  import Limit
  import Nonces
  import Pages
  import Planner
  import Reservations
  import Settlement
  import SignedUtxo
  import T = Transfers
  import W = Withdrawals

  /** A pending withdrawal with everything that was loaded for it. */
  datatype Job = Job(
    payment: nat, merchant: int, amount: Money, utxo: bool, isTest: bool, chain: string, quote: Planner.Quote,
    outbound: int, outboundRow: nat, outboundSeen: Money, merchantRow: nat, merchantSeen: Money, recipient: string,
    key: Key, coin: Key)

  /** The wallets of the system: their table and their addresses. */
  datatype System = System(table: seq<Pages.Wallet>, address: int -> string)

  /** What the environment decides; `listable` is whether the inbound wallets can be listed, each time. */
  datatype Environment = Environment(
    listable: bool, listableAgain: bool, withdrawal: W.Environment, sweeps: seq<T.Environment>)

  function PartiesOf(job: Job, system: System, wallet: int, recipient: string): SignedUtxo.Parties {
    SignedUtxo.Parties(Reservations.Owner(wallet, job.isTest), system.address(wallet), recipient, job.quote)
  }

  function RequestFrom(job: Job, system: System, wallet: int, row: nat, seen: Money): W.Request {
    W.Request(
      job.payment, job.merchant, PartiesOf(job, system, wallet, job.recipient), job.utxo, job.amount, row,
      job.merchantRow, seen, job.merchantSeen, job.key, job.coin)
  }

  /** The sweep of an inbound wallet to the outbound wallet. */
  function SweepOf(job: Job, system: System, source: Source): T.Request {
    T.Request(
      PartiesOf(job, system, source.wallet, system.address(job.outbound)), true, source.balance, source.row,
      job.outbound, job.key, job.coin)
  }

  // ----- runs of the books -----

  /** The books moved by events of the accounting only. */
  ghost predicate Reached(before: Book, after: Book) {
    exists events: seq<Accounting.Event> :: Accounting.Run(before, events) == after
  }

  lemma Stays(book: Book)
    ensures Reached(book, book)
  {
    assert Accounting.Run(book, []) == book;
  }

  lemma OneMoreEvent(before: Book, middle: Book, e: Accounting.Event)
    requires Reached(before, middle)
    ensures Reached(before, Accounting.Apply(middle, e))
  {
    var events :| Accounting.Run(before, events) == middle;
    assert (events + [e])[..|events|] == events;
    assert Accounting.Run(before, events + [e]) == Accounting.Apply(middle, e);
  }

  /** Whatever a job does to the books, the records explain every total, and nothing is overdrawn. */
  lemma ReachedIsExplained(before: Book, after: Book, key: Key, q: Query)
    requires Reached(before, after)
    ensures Accounting.Remainder(after, q) == Accounting.Remainder(before, q)
    ensures Accounting.Unexplained(after, key) == Accounting.Unexplained(before, key)
    ensures NonNegative(before.balances) ==> NonNegative(after.balances)
  {
    var events :| Accounting.Run(before, events) == after;
    Accounting.RunExplainsTotals(before, events, q);
    Accounting.RunIsExplained(before, events, key);
    if NonNegative(before.balances) {
      Accounting.RunKeepsNonNegative(before, events);
    }
  }

  // ----- consolidation -----

  function SourcesFor(job: Job, system: System, rows: seq<Balance>): seq<Source> {
    Sources(system.table, job.chain, rows, job.key, job.amount.decimals)
  }

  /** The row a source was listed with still belongs to its wallet. */
  ghost predicate OwnSource(rows: seq<Balance>, s: Source, job: Job) {
    && s.row < |rows| && rows[s.row].entity == Wallet && rows[s.row].owner == s.wallet && rows[s.row].key == job.key
    && s.balance.ticker == job.key.ticker && s.balance.decimals == job.amount.decimals
  }

  ghost predicate OwnSources(rows: seq<Balance>, sources: seq<Source>, job: Job) {
    forall s | s in sources :: OwnSource(rows, s, job)
  }

  ghost predicate Ready(envs: seq<T.Environment>) {
    |envs| == MAX_SOURCES && forall e | e in envs :: |e.attempts| == Reservations.ATTEMPTS
  }

  /** One round of the consolidation loop: what was there before and after, and how the transfer ended. */
  datatype Round = Round(
    before: Book, rows: seq<Reservations.Row>, after: Book, rowsAfter: seq<Reservations.Row>, out: T.Output,
    error: Option<Error>)

  /** The round is a transfer of this request, rolled back when it failed. */
  ghost predicate IsRound(r: Round, req: T.Request, env: T.Environment) {
    && |env.attempts| == Reservations.ATTEMPTS && T.Decided(r.before, r.rows, req, env, r.out, r.error)
    && (r.error.None? ==> T.Booked(r.before, r.after, req, r.out) && r.out.decremented)
    && (r.error.Some? ==> T.Restored(r.before, r.after, req, r.out))
    && (if r.out.broadcast then T.StaysLive(r.rows, r.rowsAfter, req, env.attempts, r.out.amount)
        else forall owner :: Reservations.LiveKeys(r.rowsAfter, owner) == Reservations.LiveKeys(r.rows, owner))
  }

  function Started(rounds: seq<Round>): nat {
    if rounds == [] then 0
    else Started(rounds[..|rounds| - 1]) + (if rounds[|rounds| - 1].error.None? then 1 else 0)
  }

  /** What the rounds that went through deliver to the outbound wallet. */
  function Delivered(rounds: seq<Round>): int {
    if rounds == [] then 0
    else
      var last := rounds[|rounds| - 1];
      Delivered(rounds[..|rounds| - 1]) + (if last.error.None? then last.out.amount else 0)
  }

  /**
   * The rounds lead from one state to the other. Round `i` sweeps source `i`, and was started
   * because the earlier rounds do not deliver the target.
   */
  ghost predicate Tried(
    book: Book, rows: seq<Reservations.Row>, rounds: seq<Round>, after: Book, rowsAfter: seq<Reservations.Row>,
    job: Job, system: System, sources: seq<Source>, envs: seq<T.Environment>)
  {
    if rounds == [] then after == book && rowsAfter == rows
    else
      var k := |rounds| - 1;
      && rounds[k].after == after && rounds[k].rowsAfter == rowsAfter && k < |sources| && k < |envs|
      && IsRound(rounds[k], SweepOf(job, system, sources[k]), envs[k]) && Delivered(rounds[..k]) < job.amount.value
      && Tried(book, rows, rounds[..k], rounds[k].before, rounds[k].rows, job, system, sources, envs)
  }

  /** Every selected source is tried, or the target is delivered. */
  ghost predicate Exhausted(rounds: seq<Round>, job: Job, sources: seq<Source>) {
    exists n | IsSelection(sources, job.amount.value, n) ::
      |rounds| <= n && (|rounds| == n || Delivered(rounds) >= job.amount.value)
  }

  /** The whole consolidation, with the number of transfers that went through. */
  ghost predicate Swept(
    book: Book, rows: seq<Reservations.Row>, after: Book, rowsAfter: seq<Reservations.Row>, job: Job,
    system: System, sources: seq<Source>, envs: seq<T.Environment>, created: nat)
  {
    exists rounds: seq<Round> ::
      && Tried(book, rows, rounds, after, rowsAfter, job, system, sources, envs)
      && Exhausted(rounds, job, sources) && Started(rounds) == created
  }

  lemma OneMoreRound(
    book: Book, rows: seq<Reservations.Row>, rounds: seq<Round>, r: Round, job: Job, system: System,
    sources: seq<Source>, envs: seq<T.Environment>)
    requires Tried(book, rows, rounds, r.before, r.rows, job, system, sources, envs)
    requires |rounds| < |sources| && |rounds| < |envs| && Delivered(rounds) < job.amount.value
    requires IsRound(r, SweepOf(job, system, sources[|rounds|]), envs[|rounds|])
    ensures Tried(book, rows, rounds + [r], r.after, r.rowsAfter, job, system, sources, envs)
    ensures Started(rounds + [r]) == Started(rounds) + (if r.error.None? then 1 else 0)
    ensures Delivered(rounds + [r]) == Delivered(rounds) + (if r.error.None? then r.out.amount else 0)
  {
    assert (rounds + [r])[..|rounds|] == rounds;
  }

  /** A round as an event of the books, whether its transfer went through or was rolled back. */
  lemma RoundIsReached(start: Book, r: Round, req: T.Request, env: T.Environment)
    requires Reached(start, r.before) && NonNegative(r.before.balances) && IsRound(r, req, env)
    requires req.senderRow < |r.before.balances| && req.amount.ticker == req.key.ticker
    requires var row := r.before.balances[req.senderRow];
             row.entity == Wallet && row.owner == req.parties.owner.wallet && row.key == req.key
    ensures Reached(start, r.after) && NonNegative(r.after.balances)
    ensures Settlement.SameRows(r.after.balances, r.before.balances)
  {
    if r.error.None? {
      Accounting.TransferIsEvent(r.before, r.after, req, r.out);
      OneMoreEvent(start, r.before, Accounting.Transfer(r.after.txs[r.out.tx.value], req.senderRow));
      AdjustKeepsNonNegative(r.before.balances, req.senderRow, Decrement, req.amount.ticker, r.out.amount);
    } else {
      Accounting.RolledBackTransferIsEvent(r.before, r.after, req, r.out);
      if r.out.tx.Some? {
        OneMoreEvent(start, r.before, Accounting.Abandon(r.after.txs[|r.before.txs|]));
      }
    }
  }

  lemma SourcesStay(before: seq<Balance>, after: seq<Balance>, sources: seq<Source>, job: Job)
    requires OwnSources(before, sources, job) && Settlement.SameRows(after, before)
    ensures OwnSources(after, sources, job)
  {
    forall s | s in sources ensures OwnSource(after, s, job) {
      assert OwnSource(before, s, job) && after[s.row] == before[s.row].(amount := after[s.row].amount);
    }
  }

  lemma SweptBy(
    book: Book, rows: seq<Reservations.Row>, rounds: seq<Round>, after: Book, rowsAfter: seq<Reservations.Row>,
    job: Job, system: System, sources: seq<Source>, envs: seq<T.Environment>, n: nat)
    requires Tried(book, rows, rounds, after, rowsAfter, job, system, sources, envs)
    requires IsSelection(sources, job.amount.value, n)
    requires |rounds| <= n && (|rounds| == n || Delivered(rounds) >= job.amount.value)
    ensures Swept(book, rows, after, rowsAfter, job, system, sources, envs, Started(rounds))
  {
  }

  /** The body of the loop of createUTXOConsolidations: a transfer, rolled back when it fails. */
  method SweepOne(
    desk: Tables, job: Job, system: System, sources: seq<Source>, i: nat, envs: seq<T.Environment>,
    ghost start: Book, ghost table: seq<Reservations.Row>, ghost rounds: seq<Round>)
    returns (delivered: Option<int>, ghost more: seq<Round>)
    requires Ready(envs) && Reservations.RawMatches(desk.reservations.rows)
    requires Reached(start, desk.store.Value()) && NonNegative(desk.store.balances)
    requires i < |sources| && i < |envs| && OwnSources(desk.store.balances, sources, job)
    requires |rounds| == i && Delivered(rounds) < job.amount.value
    requires Tried(start, table, rounds, desk.store.Value(), desk.reservations.rows, job, system, sources, envs)
    modifies desk.store, desk.counters, desk.reservations
    ensures Tried(start, table, more, desk.store.Value(), desk.reservations.rows, job, system, sources, envs)
    ensures |more| == i + 1 && Started(more) == Started(rounds) + (if delivered.Some? then 1 else 0)
    ensures Delivered(more) == Delivered(rounds) + (if delivered.Some? then delivered.value else 0)
    ensures Reached(start, desk.store.Value()) && NonNegative(desk.store.balances)
    ensures Reservations.RawMatches(desk.reservations.rows) && OwnSources(desk.store.balances, sources, job)
    ensures forall net :: desk.counters.Of(net) == old(desk.counters.Of(net))
  {
    ghost var before, rows := desk.store.Value(), desk.reservations.rows;
    var req := SweepOf(job, system, sources[i]);
    assert OwnSource(desk.store.balances, sources[i], job);
    var out, error := T.ProcessTransfer(desk, req, envs[i]);
    ghost var round := Round(before, rows, desk.store.Value(), desk.reservations.rows, out, error);
    RoundIsReached(start, round, req, envs[i]);
    OneMoreRound(start, table, rounds, round, job, system, sources, envs);
    SourcesStay(before.balances, desk.store.balances, sources, job);
    more := rounds + [round];
    delivered := if error.Some? then None else Some(out.amount);
  }

  /** createUTXOConsolidations: sweeps the selected wallets until the delivered amounts reach the target. */
  method Consolidate(desk: Tables, job: Job, system: System, sources: seq<Source>, envs: seq<T.Environment>)
    returns (created: nat)
    requires Ready(envs) && Reservations.RawMatches(desk.reservations.rows) && NonNegative(desk.store.balances)
    requires OwnSources(desk.store.balances, sources, job) && job.amount.ticker == job.key.ticker
    modifies desk.store, desk.counters, desk.reservations
    ensures Reached(old(desk.store.Value()), desk.store.Value())
    ensures Reservations.RawMatches(desk.reservations.rows) && NonNegative(desk.store.balances)
    ensures forall net :: desk.counters.Of(net) == old(desk.counters.Of(net))
    ensures Swept(
              old(desk.store.Value()), old(desk.reservations.rows), desk.store.Value(), desk.reservations.rows,
              job, system, sources, envs, created)
  {
    created := 0;
    ghost var start, table := desk.store.Value(), desk.reservations.rows;
    ghost var rounds: seq<Round> := [];
    Stays(start);
    var selected := SelectCandidates(sources, job.amount);
    if selected.Err? {
      assert false;
      return;
    }
    var delivered := job.amount.(value := 0);
    for i := 0 to |selected.value|
      invariant |rounds| == i && Started(rounds) == created && delivered == job.amount.(value := Delivered(rounds))
      invariant Tried(
                  start, table, rounds, desk.store.Value(), desk.reservations.rows, job, system, sources, envs)
      invariant Reached(start, desk.store.Value()) && NonNegative(desk.store.balances)
      invariant Reservations.RawMatches(desk.reservations.rows) && OwnSources(desk.store.balances, sources, job)
      invariant forall net :: desk.counters.Of(net) == old(desk.counters.Of(net))
    {
      if delivered.GreaterThanOrEqual(job.amount) {
        break;
      }
      var source := selected.value[i];
      assert source == sources[i] && OwnSource(desk.store.balances, sources[i], job);
      var amount;
      amount, rounds := SweepOne(desk, job, system, sources, i, envs, start, table, rounds);
      if amount.None? {
        continue;
      }
      created := created + 1;
      var sum := delivered.Add(source.balance.(value := amount.value));
      if sum.Err? {
        assert false;
        break;
      }
      delivered := sum.value;
    }
    SweptBy(
      start, table, rounds, desk.store.Value(), desk.reservations.rows, job, system, sources, envs,
      |selected.value|);
  }

  /** A record of a sweep to the outbound wallet: under way, or cancelled when it failed. */
  predicate IsSweep(tx: Tx, job: Job) {
    tx.kind == Internal && tx.recipient == Some(job.outbound) && tx.key == job.key
    && (tx.status == Ledger.Pending || tx.status == Cancelled)
  }

  /** All that a consolidation records are sweeps to the outbound wallet. */
  lemma {:induction false} SweepsAreRecorded(
    book: Book, rows: seq<Reservations.Row>, rounds: seq<Round>, after: Book, rowsAfter: seq<Reservations.Row>,
    job: Job, system: System, sources: seq<Source>, envs: seq<T.Environment>)
    requires Tried(book, rows, rounds, after, rowsAfter, job, system, sources, envs)
    ensures book.txs <= after.txs
    ensures forall i | |book.txs| <= i < |after.txs| :: IsSweep(after.txs[i], job)
  {
    if rounds != [] {
      var k := |rounds| - 1;
      SweepsAreRecorded(
        book, rows, rounds[..k], rounds[k].before, rounds[k].rows, job, system, sources, envs);
      SweepIsRecorded(
        rounds[k].before, rounds[k].after, job, system, sources[k], rounds[k].out, rounds[k].error);
    }
  }

  /** What one transfer of the loop records. */
  lemma SweepIsRecorded(
    before: Book, after: Book, job: Job, system: System, source: Source, out: T.Output, error: Option<Error>)
    requires error.None? ==> T.Booked(before, after, SweepOf(job, system, source), out)
    requires error.Some? ==> T.Restored(before, after, SweepOf(job, system, source), out)
    ensures before.txs <= after.txs
    ensures forall i | |before.txs| <= i < |after.txs| :: IsSweep(after.txs[i], job)
  {
  }

  // ----- the withdrawal -----

  /** The rows of the job belong to its wallet and its merchant. */
  ghost predicate OwnJob(rows: seq<Balance>, job: Job) {
    && job.outboundRow < |rows| && job.merchantRow < |rows| && job.amount.ticker == job.key.ticker
    && rows[job.outboundRow].entity == Wallet && rows[job.outboundRow].owner == job.outbound
    && rows[job.outboundRow].key == job.key
    && rows[job.merchantRow].entity == Merchant && rows[job.merchantRow].owner == job.merchant
    && rows[job.merchantRow].key == job.key
  }

  ghost predicate OwnRequest(rows: seq<Balance>, req: W.Request) {
    && req.system < |rows| && req.merchantRow < |rows| && req.amount.ticker == req.key.ticker
    && rows[req.system].entity == Wallet && rows[req.system].owner == req.parties.owner.wallet
    && rows[req.system].key == req.key
    && rows[req.merchantRow].entity == Merchant && rows[req.merchantRow].owner == req.merchant
    && rows[req.merchantRow].key == req.key
  }

  lemma ListedSources(system: System, job: Job, rows: seq<Balance>)
    ensures OwnSources(rows, SourcesFor(job, system, rows), job)
  {
    SourcesAreRanked(system.table, job.chain, rows, job.key, job.amount.decimals);
  }

  /** Lists the inbound wallets and sweeps them. */
  method Replenish(desk: Tables, job: Job, system: System, envs: seq<T.Environment>) returns (created: nat)
    requires Ready(envs) && Reservations.RawMatches(desk.reservations.rows) && NonNegative(desk.store.balances)
    requires Pages.IsTable(system.table) && job.amount.ticker == job.key.ticker
    modifies desk.store, desk.counters, desk.reservations
    ensures Reached(old(desk.store.Value()), desk.store.Value())
    ensures Reservations.RawMatches(desk.reservations.rows)
    ensures forall net :: desk.counters.Of(net) == old(desk.counters.Of(net))
    ensures Swept(
              old(desk.store.Value()), old(desk.reservations.rows), desk.store.Value(), desk.reservations.rows,
              job, system, SourcesFor(job, system, old(desk.store.balances)), envs, created)
  {
    var sources := ListSources(system.table, job.chain, desk.store.balances, job.key, job.amount.decimals);
    ListedSources(system, job, desk.store.balances);
    created := Consolidate(desk, job, system, sources, envs);
  }

  /** What was created is a withdraw event, what was undone an abandoned record. */
  lemma WithdrawnIsReached(before: Book, after: Book, req: W.Request, out: W.Output, error: Option<Error>)
    requires NonNegative(before.balances) && OwnRequest(before.balances, req)
    requires error.None? ==> W.Booked(before, after, req, out) && W.Succeeded(req, out)
    requires error.Some? ==> W.Restored(before, after, req, out)
    ensures Reached(before, after)
  {
    Stays(before);
    if error.None? {
      Accounting.WithdrawalIsEvent(before, after, req, out);
      OneMoreEvent(before, before, Accounting.Withdraw(after.txs[out.tx.value], req.system, req.merchantRow));
    } else {
      Accounting.RolledBackWithdrawalIsEvent(before, after, req, out);
      if out.tx.Some? {
        OneMoreEvent(before, before, Accounting.Abandon(after.txs[|before.txs|]));
      }
    }
  }

  /** What follows a failed withdrawal: inbound wallets are swept for a later attempt, or it is rolled back. */
  method AfterFailure(
    desk: Tables, job: Job, system: System, req: W.Request, env: Environment, out: W.Output, error: Error,
    ghost book: Book)
    returns (sweeps: Option<nat>)
    requires Ready(env.sweeps) && Pages.IsTable(system.table) && Reservations.RawMatches(desk.reservations.rows)
    requires NonNegative(book.balances) && OwnRequest(book.balances, req) && req.payment < |desk.payments|
    requires W.Booked(book, desk.store.Value(), req, out)
    requires error == InsufficientFunds && out.tx.None? ==> !out.markFailed
    requires job.amount.ticker == job.key.ticker
    requires out.signed && !req.utxo ==> desk.counters.Of(req.parties.owner.isTest).pending > 0
    modifies desk`payments, desk.store, desk.counters, desk.reservations
    ensures Reservations.RawMatches(desk.reservations.rows) && Reached(book, desk.store.Value())
    ensures desk.counters.Of(!req.parties.owner.isTest) == old(desk.counters.Of(!req.parties.owner.isTest))
    ensures desk.counters.Of(req.parties.owner.isTest) ==
            if out.signed && !req.utxo then Nonces.Rollback(old(desk.counters.Of(req.parties.owner.isTest))).counters
            else old(desk.counters.Of(req.parties.owner.isTest))
    ensures desk.payments ==
            if out.markFailed then old(desk.payments)[req.payment := PaymentStatus.Failed] else old(desk.payments)
    ensures sweeps.None? ==>
              W.Restored(book, desk.store.Value(), req, out) && desk.reservations.rows == old(desk.reservations.rows)
    ensures sweeps.Some? <==> req.utxo && out.tx.None? && error == InsufficientFunds && env.listableAgain
    ensures sweeps.Some? ==>
              Swept(
                book, old(desk.reservations.rows), desk.store.Value(), desk.reservations.rows, job, system,
                SourcesFor(job, system, book.balances), env.sweeps, sweeps.value)
  {
    sweeps := None;
    W.RollbackRestores(book, desk.store.Value(), req, out);
    if out.tx.None? && req.utxo && error == InsufficientFunds {
      Stays(book);
      if !env.listableAgain {
        return;
      }
      var created := Replenish(desk, job, system, env.sweeps);
      sweeps := Some(created);
      if created > 0 {
        return;
      }
    }
    var failed := W.RollbackWithdrawal(desk, req, out);
    if sweeps.None? {
      WithdrawnIsReached(book, desk.store.Value(), req, out, Some(error));
    }
  }

  /**
   * A withdrawal of this request was created; or it failed and was rolled back; or it failed for
   * lack of outputs and inbound wallets are swept. Unless the transaction reached the chain, a
   * failure leaves no trace of the withdrawal but a cancelled record and possibly a failed payment.
   */
  ghost predicate Processed(
    book: Book, after: Book, rows: seq<Reservations.Row>, rowsAfter: seq<Reservations.Row>,
    payments: seq<PaymentStatus>, paymentsAfter: seq<PaymentStatus>, job: Job, system: System, req: W.Request,
    env: Environment, out: W.Output, error: Option<Error>, sweeps: Option<nat>)
  {
    && |env.withdrawal.attempts| == Reservations.ATTEMPTS && req.payment < |payments|
    && W.Decided(book, rows, |payments|, req, env.withdrawal, out, error)
    && paymentsAfter == (if error.None? then payments[req.payment := PaymentStatus.InProgress]
                         else if out.markFailed then payments[req.payment := PaymentStatus.Failed]
                         else payments)
    && (error.None? ==> W.Succeeded(req, out) && W.Booked(book, after, req, out))
    && (error.Some? && sweeps.None? ==> W.Restored(book, after, req, out))
    && (sweeps.Some? <==> W.Unfunded(rows, req, env.withdrawal) && env.listableAgain)
    && (sweeps.Some? ==>
          && error.Some? && out.tx.None? && !out.markFailed
          && SweptAfter(book, rows, after, rowsAfter, job, system, env, sweeps.value))
    && (sweeps.None? && (!req.utxo || !out.broadcast) ==>
          forall owner :: Reservations.LiveKeys(rowsAfter, owner) == Reservations.LiveKeys(rows, owner))
    && (req.utxo && out.broadcast ==>
          W.StaysLive(rows, rowsAfter, req, env.withdrawal.attempts, out.serviceFee))
  }

  /** A consolidation after attempts that left nothing but released reservations. */
  ghost predicate SweptAfter(
    book: Book, rows: seq<Reservations.Row>, after: Book, rowsAfter: seq<Reservations.Row>, job: Job,
    system: System, env: Environment, created: nat)
  {
    exists held: seq<Reservations.Row> ::
      && SignedUtxo.NothingReserved(rows, held)
      && Swept(
           book, held, after, rowsAfter, job, system, SourcesFor(job, system, book.balances), env.sweeps, created)
  }

  /** The part of a job after its wallet is chosen. */
  method ProcessWithdrawal(desk: Tables, job: Job, system: System, req: W.Request, env: Environment)
    returns (out: W.Output, error: Option<Error>, sweeps: Option<nat>)
    requires |env.withdrawal.attempts| == Reservations.ATTEMPTS && Ready(env.sweeps) && Pages.IsTable(system.table)
    requires Reservations.RawMatches(desk.reservations.rows) && NonNegative(desk.store.balances)
    requires OwnRequest(desk.store.balances, req) && req.payment < |desk.payments|
    requires job.amount.ticker == job.key.ticker
    modifies desk`payments, desk.store, desk.counters, desk.reservations
    ensures Reservations.RawMatches(desk.reservations.rows) && Reached(old(desk.store.Value()), desk.store.Value())
    ensures Processed(
              old(desk.store.Value()), desk.store.Value(), old(desk.reservations.rows), desk.reservations.rows,
              old(desk.payments), desk.payments, job, system, req, env, out, error, sweeps)
    ensures desk.counters.Of(!req.parties.owner.isTest) == old(desk.counters.Of(!req.parties.owner.isTest))
    ensures desk.counters.Of(req.parties.owner.isTest) ==
            if error.None? && !req.utxo then Nonces.Issue(old(desk.counters.Of(req.parties.owner.isTest))).1
            else old(desk.counters.Of(req.parties.owner.isTest))
  {
    ghost var book, rows := desk.store.Value(), desk.reservations.rows;
    out, error := W.CreateWithdrawal(desk, req, env.withdrawal);
    if !req.utxo || !out.broadcast {
      SignedUtxo.SameLiveKeys(rows, desk.reservations.rows);
    }
    if W.Unfunded(rows, req, env.withdrawal) {
      SignedUtxo.UnfundedIsUnsigned(rows, req.parties, SignedUtxo.Payment(req.amount), env.withdrawal.attempts);
    }
    if error.None? {
      WithdrawnIsReached(book, desk.store.Value(), req, out, error);
      return out, error, None;
    }
    sweeps := AfterFailure(desk, job, system, req, env, out, error.value, book);
  }

  // ----- the whole job -----

  predicate OutboundFunds(job: Job) {
    Limit.Covers(job.outboundSeen, [job.amount]).Ok?
  }

  /** Some wallet can fund the withdrawal alone; account chains leave that to the later checks. */
  ghost predicate Fundable(job: Job, system: System, rows: seq<Balance>, listable: bool) {
    || !job.utxo || OutboundFunds(job)
    || (listable && exists s | s in SourcesFor(job, system, rows) :: Funds(s, job.amount))
  }

  /** The request of the outbound wallet if it can fund the withdrawal, else of the richest inbound wallet. */
  function ChosenRequest(job: Job, system: System, rows: seq<Balance>): W.Request {
    var sources := SourcesFor(job, system, rows);
    if !job.utxo || OutboundFunds(job) || sources == [] then
      RequestFrom(job, system, job.outbound, job.outboundRow, job.outboundSeen)
    else RequestFrom(job, system, sources[0].wallet, sources[0].row, sources[0].balance)
  }

  /** resolveUTXOWithdrawalSource up to the consolidation: the wallet that funds the withdrawal alone. */
  method Resolve(job: Job, system: System, rows: seq<Balance>, listable: bool)
    returns (chosen: Option<W.Request>, sources: seq<Source>)
    requires Pages.IsTable(system.table) && OwnJob(rows, job)
    ensures chosen.Some? <==> Fundable(job, system, rows, listable)
    ensures chosen.Some? ==> chosen.value == ChosenRequest(job, system, rows) && OwnRequest(rows, chosen.value)
    ensures chosen.Some? ==>
              && chosen.value.payment == job.payment && chosen.value.utxo == job.utxo
              && chosen.value.parties.owner.isTest == job.isTest
    ensures chosen.None? && listable ==> sources == SourcesFor(job, system, rows)
    ensures OwnSources(rows, sources, job)
  {
    sources := [];
    if !job.utxo || OutboundFunds(job) {
      return Some(RequestFrom(job, system, job.outbound, job.outboundRow, job.outboundSeen)), [];
    }
    if !listable {
      return None, [];
    }
    sources := ListSources(system.table, job.chain, rows, job.key, job.amount.decimals);
    ListedSources(system, job, rows);
    var picked := PickSource(sources, job.amount);
    if picked.None? {
      return None, sources;
    }
    assert picked.value in sources;
    RichestFunds(system.table, job.chain, rows, job.key, job.amount.decimals, job.amount, picked.value);
    var source := picked.value;
    return Some(RequestFrom(job, system, source.wallet, source.row, source.balance)), sources;
  }

  /** What is done when no wallet can fund the withdrawal alone. */
  method SweepInstead(desk: Tables, job: Job, system: System, sources: seq<Source>, env: Environment)
    returns (sweeps: Option<nat>)
    requires Ready(env.sweeps) && Reservations.RawMatches(desk.reservations.rows) && NonNegative(desk.store.balances)
    requires OwnSources(desk.store.balances, sources, job) && job.amount.ticker == job.key.ticker
    modifies desk.store, desk.counters, desk.reservations
    ensures Reservations.RawMatches(desk.reservations.rows) && Reached(old(desk.store.Value()), desk.store.Value())
    ensures forall net :: desk.counters.Of(net) == old(desk.counters.Of(net))
    ensures sweeps.Some? <==> env.listable
    ensures if sweeps.None? then
              desk.store.Value() == old(desk.store.Value()) && desk.reservations.rows == old(desk.reservations.rows)
            else
              Swept(
                old(desk.store.Value()), old(desk.reservations.rows), desk.store.Value(), desk.reservations.rows,
                job, system, sources, env.sweeps, sweeps.value)
  {
    Stays(desk.store.Value());
    if !env.listable {
      return None;
    }
    var created := Consolidate(desk, job, system, sources, env.sweeps);
    return Some(created);
  }

  /**
   * One withdrawal of BatchCreateWithdrawals. It is attempted exactly when some wallet can fund
   * it; otherwise inbound wallets are swept and the payment stays as it is.
   */
  method Perform(desk: Tables, job: Job, system: System, env: Environment)
    returns (out: Option<W.Output>, error: Option<Error>, sweeps: Option<nat>)
    requires |env.withdrawal.attempts| == Reservations.ATTEMPTS && Ready(env.sweeps) && Pages.IsTable(system.table)
    requires Reservations.RawMatches(desk.reservations.rows) && NonNegative(desk.store.balances)
    requires OwnJob(desk.store.balances, job) && job.payment < |desk.payments|
    modifies desk`payments, desk.store, desk.counters, desk.reservations
    ensures Reservations.RawMatches(desk.reservations.rows) && Reached(old(desk.store.Value()), desk.store.Value())
    ensures out.Some? <==> Fundable(job, system, old(desk.store.balances), env.listable)
    ensures out.Some? ==>
              Processed(
                old(desk.store.Value()), desk.store.Value(), old(desk.reservations.rows), desk.reservations.rows,
                old(desk.payments), desk.payments, job, system,
                ChosenRequest(job, system, old(desk.store.balances)), env, out.value, error, sweeps)
    ensures out.None? ==>
              && error.Some? && desk.payments == old(desk.payments) && (sweeps.Some? <==> env.listable)
              && if sweeps.None? then
                   && desk.store.Value() == old(desk.store.Value())
                   && desk.reservations.rows == old(desk.reservations.rows)
                 else
                   Swept(
                     old(desk.store.Value()), old(desk.reservations.rows), desk.store.Value(), desk.reservations.rows,
                     job, system, SourcesFor(job, system, old(desk.store.balances)), env.sweeps, sweeps.value)
    ensures desk.counters.Of(!job.isTest) == old(desk.counters.Of(!job.isTest))
    ensures desk.counters.Of(job.isTest) ==
            if error.None? && !job.utxo then Nonces.Issue(old(desk.counters.Of(job.isTest))).1
            else old(desk.counters.Of(job.isTest))
  {
    var chosen, sources := Resolve(job, system, desk.store.balances, env.listable);
    if chosen.Some? {
      var done;
      done, error, sweeps := ProcessWithdrawal(desk, job, system, chosen.value, env);
      out := Some(done);
      return;
    }
    sweeps := SweepInstead(desk, job, system, sources, env);
    return None, Some(Unavailable), sweeps;
  }
}
