/**
 * Nodes report every payment to a wallet, also the change and the sweep outputs of the system's own
 * sends. When such a report is skipped, when it is credited, and what that does to the ledger.
 */
module OwnOutputs {
  import opened Outcomes
  import opened Ledger
  import opened Coins
  import opened ChainLedger
  import Accounting
  import Settlement

  // ----- wallets that wait for a payment are new -----

  /** The system has done nothing yet with a wallet on which a payment is awaited. */
  ghost predicate AwaitedUnused(w: World) {
    forall i | 0 <= i < |w.book.txs| && Awaiting(w.book.txs[i]) ::
      w.book.txs[i].recipient.Some? && Unused(w, w.book.txs[i].recipient.value)
  }

  ghost predicate NoRow(rows: seq<Balance>, wallet: int) {
    forall i | 0 <= i < |rows| :: !IsRowOf(rows[i], wallet)
  }

  lemma PostKeepsNoRow(
    rows: seq<Balance>, entity: Entity, owner: int, key: Key, op: Operation, amount: int, wallet: int)
    requires NoRow(rows, wallet) && Post(rows, entity, owner, key, op, amount).Ok?
    requires entity == Merchant || owner != wallet
    ensures NoRow(Post(rows, entity, owner, key, op, amount).value, wallet)
  {
  }

  /** Confirming an incoming record touches no row of another wallet. */
  lemma CreditKeepsNoRow(book: Book, id: nat, c: Confirmation, wallet: int)
    requires NoRow(book.balances, wallet) && id < |book.txs| && book.txs[id].kind == Incoming
    requires Confirm(book, id, c).Ok? && book.txs[id].recipient != Some(wallet)
    ensures NoRow(Confirm(book, id, c).value.balances, wallet)
  {
    var tx := Ledger.Confirmed(book.txs[id], c);
    var received := Post(book.balances, Wallet, tx.recipient.value, tx.key, Increment, c.fact);
    PostKeepsNoRow(book.balances, Wallet, tx.recipient.value, tx.key, Increment, c.fact, wallet);
    if tx.status != CompletedInvalid && tx.merchant != SYSTEM_MERCHANT {
      PostKeepsNoRow(received.value, Merchant, tx.merchant, tx.key, Increment, Gain(tx), wallet);
    }
  }

  /** Settling a send touches no row of a wallet it does not name. */
  lemma SettleKeepsNoRow(book: Book, id: nat, fee: int, wallet: int)
    requires NoRow(book.balances, wallet) && id < |book.txs| && !Names(book.txs[id], wallet)
    requires Open(book.txs[id], Internal) || Open(book.txs[id], Withdrawal)
    requires Confirm(book, id, Settlement.FromReceipt(book.txs[id], fee)).Ok?
    ensures NoRow(Confirm(book, id, Settlement.FromReceipt(book.txs[id], fee)).value.balances, wallet)
  {
    var c := Settlement.FromReceipt(book.txs[id], fee);
    var tx := Ledger.Confirmed(book.txs[id], c);
    if tx.kind == Internal {
      var received := Post(book.balances, Wallet, tx.recipient.value, tx.key, Increment, c.fact).value;
      PostKeepsNoRow(book.balances, Wallet, tx.recipient.value, tx.key, Increment, c.fact, wallet);
      PostKeepsNoRow(received, Wallet, tx.sender.value, tx.coin, Decrement, fee, wallet);
    } else {
      PostKeepsNoRow(book.balances, Wallet, tx.sender.value, tx.coin, Decrement, fee, wallet);
    }
  }

  /** A send needs a balance of its sender, and changes nothing about the rows but amounts. */
  lemma SendRows(w: World, currency: Key, e: Event, wallet: int)
    requires (e.Withdraw? || e.Sweep? || e.Strand?) && Step(w, currency, e) != w && NoRow(w.book.balances, wallet)
    ensures e.tx.sender != Some(wallet) && NoRow(Step(w, currency, e).book.balances, wallet)
  {
  }

  /** A send touches only its sender and an outbound wallet. */
  lemma SendKeepsUnused(w: World, currency: Key, e: Event, wallet: int)
    requires (e.Withdraw? || e.Sweep? || e.Strand?) && Unused(w, wallet)
    ensures Unused(Step(w, currency, e), wallet)
  {
    var after := Step(w, currency, e);
    if after != w {
      var book, change := SendStep(w, currency, e, wallet);
      SendRows(w, currency, e, wallet);
      var reported := Reported(e.tx, |w.book.txs|, change, e.hash);
      assert after.deposits == w.deposits + reported && forall d | d in reported :: d.owner != wallet;
      assert after.book.txs == w.book.txs + [e.tx] && !Names(e.tx, wallet);
    }
  }

  /** What happens elsewhere leaves a wallet unused while a payment to it is awaited. */
  lemma StepKeepsUnused(w: World, currency: Key, e: Event, i: nat, wallet: int)
    requires Links(w, currency) && Unused(w, wallet)
    requires i < |w.book.txs| && Awaiting(w.book.txs[i]) && w.book.txs[i].recipient == Some(wallet)
    requires i < |Step(w, currency, e).book.txs| && Awaiting(Step(w, currency, e).book.txs[i])
    ensures Unused(Step(w, currency, e), wallet)
  {
    if Step(w, currency, e) != w {
      match e
      case Credit(id, d, fee) => CreditKeepsUnused(w, currency, id, d, fee, i, wallet);
      case Settle(id) => SettleKeepsUnused(w, currency, id, wallet);
      case Withdraw(_, _, _, _, _, _) => SendKeepsUnused(w, currency, e, wallet);
      case Sweep(_, _, _, _) => SendKeepsUnused(w, currency, e, wallet);
      case Strand(_, _, _, _, _) => SendKeepsUnused(w, currency, e, wallet);
      case Arrive(_, _, _) =>
      case _ => NoteKeepsUnused(w, currency, e, wallet);
    }
  }

  /** Steps that only note something touch no balance and no deposit. */
  lemma NoteKeepsUnused(w: World, currency: Key, e: Event, wallet: int)
    requires Unused(w, wallet) && Step(w, currency, e) != w
    requires e.Expect? || e.Unexpected? || e.Abandon? || e.Seen? || e.Drop? || e.StoreHash?
    ensures Unused(Step(w, currency, e), wallet)
  {
    if Appends(e) {
      AddStep(w, currency, e);
      assert !Names(e.tx, wallet);
    } else {
      ChangeStep(w, currency, e);
    }
  }

  lemma SettleKeepsUnused(w: World, currency: Key, id: nat, wallet: int)
    requires Links(w, currency) && Unused(w, wallet) && Step(w, currency, Settle(id)) != w
    ensures Unused(Step(w, currency, Settle(id)), wallet)
  {
    SettleStep(w, currency, id);
    SettleKeepsNoRow(w.book, id, w.sends[id].fee, wallet);
  }

  lemma CreditKeepsUnused(w: World, currency: Key, id: nat, d: nat, fee: int, i: nat, wallet: int)
    requires Links(w, currency) && Unused(w, wallet) && Step(w, currency, Credit(id, d, fee)) != w
    requires i < |w.book.txs| && Awaiting(w.book.txs[i]) && w.book.txs[i].recipient == Some(wallet)
    ensures Unused(Step(w, currency, Credit(id, d, fee)), wallet)
  {
    var c := CreditStep(w, currency, id, d, fee);
    assert i != id && w.book.txs[id].recipient != Some(wallet);
    CreditKeepsNoRow(w.book, id, c, wallet);
  }

  /** A record that is awaited after a step was awaited before, or has just been created. */
  lemma AwaitedBefore(w: World, currency: Key, e: Event, i: nat)
    requires Links(w, currency)
    requires i < |Step(w, currency, e).book.txs| && Awaiting(Step(w, currency, e).book.txs[i])
    ensures i < |w.book.txs| ==> w.book.txs[i] == Step(w, currency, e).book.txs[i]
    ensures i >= |w.book.txs| ==> e.Expect? && Step(w, currency, e).book.txs[i] == e.tx
  {
    if Step(w, currency, e) != w {
      StepRecords(w, currency, e);
    }
  }

  lemma StepKeepsAwaited(w: World, currency: Key, e: Event)
    requires Links(w, currency) && AwaitedUnused(w)
    ensures AwaitedUnused(Step(w, currency, e))
  {
    var after := Step(w, currency, e);
    forall i | 0 <= i < |after.book.txs| && Awaiting(after.book.txs[i])
      ensures after.book.txs[i].recipient.Some? && Unused(after, after.book.txs[i].recipient.value)
    {
      AwaitedBefore(w, currency, e, i);
      if i < |w.book.txs| {
        StepKeepsUnused(w, currency, e, i, w.book.txs[i].recipient.value);
      } else {
        ExpectedIsUnused(w, currency, e);
      }
    }
  }

  lemma ExpectedIsUnused(w: World, currency: Key, e: Event)
    requires e.Expect? && Step(w, currency, e) != w
    ensures e.tx.recipient.Some? && Unused(Step(w, currency, e), e.tx.recipient.value)
  {
    NoteKeepsUnused(w, currency, e, e.tx.recipient.value);
  }

  lemma {:induction false} RunKeepsAwaited(w: World, currency: Key, events: seq<Event>)
    requires Links(w, currency) && IncomingUnsent(w) && AwaitedUnused(w)
    ensures AwaitedUnused(Run(w, currency, events))
  {
    if events != [] {
      var k := |events| - 1;
      RunKeepsAwaited(w, currency, events[..k]);
      RunKeepsLinks(w, currency, events[..k]);
      StepKeepsAwaited(Run(w, currency, events[..k]), currency, events[k]);
    }
  }

  // ----- a stored hash protects the outputs of a send -----

  /** No incoming record is about this deposit. */
  ghost predicate Unclaimed(txs: seq<Tx>, d: Deposit) {
    forall i | 0 <= i < |txs| && txs[i].kind == Incoming ::
      txs[i].hash != Some(d.hash) || txs[i].recipient != Some(d.owner)
  }

  /** An own output whose send carries its hash, and which no record has claimed before that. */
  ghost predicate Guarded(w: World, d: nat) {
    && d < |w.deposits| && w.deposits[d].source.Some? && w.deposits[d].source.value < |w.book.txs|
    && w.book.txs[w.deposits[d].source.value].kind != Incoming
    && w.book.txs[w.deposits[d].source.value].hash == Some(w.deposits[d].hash)
    && Unclaimed(w.book.txs, w.deposits[d])
  }

  /** Deposits are never forgotten; at most they are credited. */
  lemma DepositStays(w: World, currency: Key, e: Event, d: nat)
    requires d < |w.deposits|
    ensures var after := Step(w, currency, e).deposits;
            d < |after| && after[d] == w.deposits[d].(credited := after[d].credited)
  {
  }

  /** Reports of an own output are skipped by waiting records, which wait for outside payments only. */
  lemma OwnIsNeverSeen(w: World, currency: Key, id: nat, d: nat, status: Status)
    requires AwaitedUnused(w) && d < |w.deposits| && w.deposits[d].source.Some?
    ensures Step(w, currency, Seen(id, d, status)) == w
  {
  }

  /**
   * A report of an own output is recorded as a payment nobody waited for if and only if no record
   * carries its hash.
   */
  lemma OwnReportExactly(w: World, currency: Key, tx: Tx, d: nat)
    requires AwaitedUnused(w) && d < |w.deposits| && w.deposits[d].source.Some?
    requires Of(tx, currency) && Reports(tx, w.deposits[d])
    requires tx.kind == Incoming && tx.merchant == SYSTEM_MERCHANT && tx.networkFee.None?
    ensures Step(w, currency, Unexpected(tx, d)) != w <==> UnknownHash(w.book.txs, w.deposits[d].hash)
  {
    var book := Accounting.Apply(w.book, Accounting.Expect(tx));
    assert book == Accounting.Appended(w.book, tx) && |book.txs| > |w.book.txs|;
  }

  /** A step that makes an incoming record claim an own output needs an unknown hash. */
  lemma StepKeepsUnclaimed(w: World, currency: Key, e: Event, d: nat)
    requires Links(w, currency) && AwaitedUnused(w) && Guarded(w, d)
    ensures Unclaimed(Step(w, currency, e).book.txs, w.deposits[d])
  {
    var after, own := Step(w, currency, e), w.deposits[d];
    if after != w {
      StepRecords(w, currency, e);
      if e.Seen? {
        SeenIsOutside(w, currency, e, own);
      } else if Changes(e) {
        assert e.Credit? ==> after.book.txs[e.id].hash == w.book.txs[e.id].hash;
      } else if Appends(e) {
        AppendedIsOutside(w, currency, e, d);
      }
    }
  }

  lemma SeenIsOutside(w: World, currency: Key, e: Event, own: Deposit)
    requires Links(w, currency) && AwaitedUnused(w) && e.Seen? && Step(w, currency, e) != w
    requires own in w.deposits && own.source.Some? && Unclaimed(w.book.txs, own)
    ensures Unclaimed(Step(w, currency, e).book.txs, own)
  {
    StepRecords(w, currency, e);
    var i :| 0 <= i < |w.deposits| && w.deposits[i] == own;
    assert Awaiting(w.book.txs[e.id]) && w.book.txs[e.id].recipient != Some(own.owner);
  }

  lemma AppendedIsOutside(w: World, currency: Key, e: Event, d: nat)
    requires Guarded(w, d) && Appends(e) && Step(w, currency, e) != w
    ensures e.tx.kind == Incoming ==>
              e.tx.hash != Some(w.deposits[d].hash) || e.tx.recipient != Some(w.deposits[d].owner)
  {
    if e.Withdraw? || e.Sweep? || e.Strand? {
      var book, change := SendStep(w, currency, e, 0);
    }
  }

  lemma StepKeepsGuarded(w: World, currency: Key, e: Event, d: nat)
    requires Links(w, currency) && AwaitedUnused(w) && Guarded(w, d)
    ensures Guarded(Step(w, currency, e), d)
  {
    DepositStays(w, currency, e, d);
    StepKeepsUnclaimed(w, currency, e, d);
    if Step(w, currency, e) != w {
      StepRecords(w, currency, e);
    }
  }

  lemma {:induction false} RunKeepsGuarded(w: World, currency: Key, events: seq<Event>, d: nat)
    requires Links(w, currency) && IncomingUnsent(w) && AwaitedUnused(w) && Guarded(w, d)
    ensures Guarded(Run(w, currency, events), d)
  {
    if events != [] {
      var k := |events| - 1;
      RunKeepsGuarded(w, currency, events[..k], d);
      RunKeepsLinks(w, currency, events[..k]);
      RunKeepsAwaited(w, currency, events[..k]);
      StepKeepsGuarded(Run(w, currency, events[..k]), currency, events[k], d);
    }
  }

  /**
   * From the moment the hash of a send is stored, unless an output of it was reported before, no
   * later run credits the output.
   */
  lemma StoredHashProtects(w: World, currency: Key, later: seq<Event>, d: nat)
    requires Links(w, currency) && IncomingUnsent(w) && AwaitedUnused(w) && Guarded(w, d)
    ensures var end := Run(w, currency, later);
            d < |end.deposits| && end.deposits[d].source == w.deposits[d].source && !end.deposits[d].credited
  {
    RunKeepsGuarded(w, currency, later, d);
    RunKeepsLinks(w, currency, later);
    RunKeepsDeposit(w, currency, later, d);
    var end := Run(w, currency, later);
    assert !Taken(end.book.txs, end.deposits[d].hash, end.deposits[d].owner);
  }

  lemma {:induction false} RunKeepsDeposit(w: World, currency: Key, events: seq<Event>, d: nat)
    requires d < |w.deposits|
    ensures var end := Run(w, currency, events).deposits;
            d < |end| && end[d] == w.deposits[d].(credited := end[d].credited)
  {
    if events != [] {
      RunKeepsDeposit(w, currency, events[..|events| - 1], d);
      DepositStays(Run(w, currency, events[..|events| - 1]), currency, events[|events| - 1], d);
    }
  }
}
