/** When the ledger says exactly what the chain, the open sends and the unconfirmed deposits say. */
module Discrepancy {
  import opened Outcomes
  import opened Ledger
  import opened Coins
  import opened ChainLedger
  import opened OwnOutputs
  import Accounting

  /** Ledger and chain differ by open sends and unconfirmed deposits only. */
  ghost predicate Plain(w: World, wallet: int, currency: Key) {
    && |w.sends| == |w.book.txs|
    && LedgerBalance(w, wallet, currency) ==
       Unspent(w.coins, wallet) + Sum(w.book.txs, w.sends, wallet, FeeDue)
       - Sum(w.book.txs, w.sends, wallet, Arriving) - Uncredited(w.deposits, wallet)
  }

  predicate IsStranded(tx: Tx, s: Send) {
    s.Sent? && tx.status == Cancelled
  }

  /** Sends pay something, and transfers pay outbound wallets. */
  ghost predicate WellSent(w: World) {
    && IncomingUnsent(w)
    && (forall d | 0 <= d < |w.deposits| && w.deposits[d].source.Some? :: w.deposits[d].amount > 0)
    && forall i | 0 <= i < |w.book.txs| && IsStranded(w.book.txs[i], w.sends[i]) ::
         && w.book.txs[i].amount > 0 && w.sends[i].fee > 0
         && (w.book.txs[i].kind == Internal ==>
               w.book.txs[i].recipient.Some? && w.book.txs[i].recipient.value in w.outbound)
  }

  /** Every hash of an incoming record is that of a deposit. */
  ghost predicate HashesArrived(w: World) {
    forall i | 0 <= i < |w.book.txs| && w.book.txs[i].kind == Incoming && w.book.txs[i].hash.Some? ::
      Arrived(w.deposits, w.book.txs[i].hash.value)
  }

  ghost predicate Arrived(deposits: seq<Deposit>, hash: string) {
    exists d | 0 <= d < |deposits| :: deposits[d].hash == hash
  }

  lemma SendKeepsWellSent(w: World, currency: Key, e: Event)
    requires WellSent(w) && (e.Withdraw? || e.Sweep? || e.Strand?) && Step(w, currency, e) != w
    ensures WellSent(Step(w, currency, e))
  {
    var book, change := SendStep(w, currency, e, 0);
    var after, reported := Step(w, currency, e), Reported(e.tx, |w.book.txs|, change, e.hash);
    assert after.deposits == w.deposits + reported && forall d | d in reported :: d.amount > 0;
  }

  predicate IsSend(e: Event) {
    e.Withdraw? || e.Sweep? || e.Strand?
  }

  /** Only sends add own outputs to what is reported. */
  lemma OthersReportNothing(w: World, currency: Key, e: Event)
    requires !IsSend(e)
    ensures Step(w, currency, e).outbound == w.outbound
    ensures var after := Step(w, currency, e).deposits;
            && |w.deposits| <= |after|
            && forall d | 0 <= d < |after| && after[d].source.Some? ::
                 d < |w.deposits| && after[d] == w.deposits[d].(credited := after[d].credited)
  {
  }

  lemma StepKeepsWellSent(w: World, currency: Key, e: Event)
    requires Links(w, currency) && WellSent(w)
    ensures WellSent(Step(w, currency, e))
  {
    if Step(w, currency, e) != w {
      if IsSend(e) {
        SendKeepsWellSent(w, currency, e);
      } else {
        OthersReportNothing(w, currency, e);
        OthersKeepWellSent(w, Step(w, currency, e), currency, e);
      }
    }
  }

  lemma OthersKeepWellSent(w: World, after: World, currency: Key, e: Event)
    requires Links(w, currency) && WellSent(w) && !IsSend(e) && after == Step(w, currency, e) && after != w
    requires after.outbound == w.outbound && |w.deposits| <= |after.deposits|
    requires forall d | 0 <= d < |after.deposits| && after.deposits[d].source.Some? ::
               d < |w.deposits| && after.deposits[d].amount == w.deposits[d].amount
               && w.deposits[d].source.Some?
    ensures WellSent(after)
  {
    StepKeepsUnsent(w, currency, e);
    if Appends(e) {
      AddStep(w, currency, e);
    } else {
      StepRecords(w, currency, e);
    }
  }

  /** Hashes come from reported deposits or were there before. */
  lemma StepKeepsArrived(w: World, currency: Key, e: Event)
    requires Links(w, currency) && HashesArrived(w)
    ensures HashesArrived(Step(w, currency, e))
  {
    var after := Step(w, currency, e);
    if after != w {
      StepRecords(w, currency, e);
      forall i | 0 <= i < |after.book.txs| && after.book.txs[i].kind == Incoming && after.book.txs[i].hash.Some?
        ensures Arrived(after.deposits, after.book.txs[i].hash.value)
      {
        var hash := after.book.txs[i].hash.value;
        HashArrived(w, currency, e, i);
        var d :| 0 <= d < |w.deposits| && w.deposits[d].hash == hash;
        DepositStays(w, currency, e, d);
        assert after.deposits[d].hash == hash;
      }
    }
  }

  lemma HashArrived(w: World, currency: Key, e: Event, i: nat)
    requires Links(w, currency) && HashesArrived(w) && Step(w, currency, e) != w
    requires i < |Step(w, currency, e).book.txs| && Step(w, currency, e).book.txs[i].kind == Incoming
    requires Step(w, currency, e).book.txs[i].hash.Some?
    ensures Arrived(w.deposits, Step(w, currency, e).book.txs[i].hash.value)
  {
    var after := Step(w, currency, e);
    StepRecords(w, currency, e);
    if i < |w.book.txs| && after.book.txs[i] == w.book.txs[i] {
    } else if e.Seen? || e.Unexpected? {
      assert after.book.txs[i].hash == Some(w.deposits[e.deposit].hash);
    } else if e.Credit? {
      var c := CreditStep(w, currency, e.id, e.deposit, e.fee);
    } else if e.Drop? {
      ChangeStep(w, currency, e);
      assert after.book.txs[i].hash == w.book.txs[i].hash;
    }
  }

  // ----- runs whose sends store their hash at once -----

  ghost predicate AllGuarded(w: World) {
    forall d | 0 <= d < |w.deposits| && w.deposits[d].source.Some? :: Guarded(w, d)
  }

  lemma StepKeepsAllGuarded(w: World, currency: Key, e: Event)
    requires Links(w, currency) && AwaitedUnused(w) && HashesArrived(w) && AllGuarded(w)
    requires IsSend(e) ==> e.tx.hash.Some?
    ensures AllGuarded(Step(w, currency, e))
  {
    var after := Step(w, currency, e);
    forall d | 0 <= d < |after.deposits| && after.deposits[d].source.Some? ensures Guarded(after, d) {
      if d < |w.deposits| {
        DepositStays(w, currency, e, d);
        StepKeepsGuarded(w, currency, e, d);
      } else if IsSend(e) {
        NewIsGuarded(w, currency, e, d);
      } else {
        OthersReportNothing(w, currency, e);
      }
    }
  }

  lemma NewIsGuarded(w: World, currency: Key, e: Event, d: nat)
    requires HashesArrived(w) && IsSend(e) && e.tx.hash.Some? && Step(w, currency, e) != w
    requires |w.deposits| <= d < |Step(w, currency, e).deposits|
    ensures Guarded(Step(w, currency, e), d)
  {
    var book, change := SendStep(w, currency, e, 0);
    var own := Step(w, currency, e).deposits[d];
    assert own == Reported(e.tx, |w.book.txs|, change, e.hash)[d - |w.deposits|];
    assert forall i | 0 <= i < |w.book.txs| && w.book.txs[i].kind == Incoming :: w.book.txs[i].hash != Some(e.hash);
  }

  /** What every run keeps. */
  ghost predicate Steady(w: World, currency: Key) {
    Links(w, currency) && AwaitedUnused(w) && HashesArrived(w) && WellSent(w)
  }

  lemma {:induction false} RunKeepsSteady(w: World, currency: Key, events: seq<Event>)
    requires Steady(w, currency)
    ensures Steady(Run(w, currency, events), currency)
  {
    if events != [] {
      var k := |events| - 1;
      var earlier := Run(w, currency, events[..k]);
      RunKeepsSteady(w, currency, events[..k]);
      StepKeepsLinks(earlier, currency, events[k]);
      StepKeepsAwaited(earlier, currency, events[k]);
      StepKeepsArrived(earlier, currency, events[k]);
      StepKeepsWellSent(earlier, currency, events[k]);
    }
  }

  ghost predicate NothingStranded(w: World) {
    |w.sends| == |w.book.txs| && forall i | 0 <= i < |w.book.txs| :: !IsStranded(w.book.txs[i], w.sends[i])
  }

  lemma SendStrandsNothing(w: World, currency: Key, e: Event)
    requires NothingStranded(w) && (e.Withdraw? || e.Sweep?) && Step(w, currency, e) != w
    ensures NothingStranded(Step(w, currency, e))
  {
    var book, change := SendStep(w, currency, e, 0);
    assert e.tx.status != Cancelled;
  }

  lemma StepStrandsNothing(w: World, currency: Key, e: Event)
    requires Links(w, currency) && IncomingUnsent(w) && NothingStranded(w) && !e.Strand?
    ensures NothingStranded(Step(w, currency, e))
  {
    if Step(w, currency, e) != w {
      if IsSend(e) {
        SendStrandsNothing(w, currency, e);
      } else if Appends(e) {
        AddStep(w, currency, e);
      } else {
        StepRecords(w, currency, e);
      }
    }
  }

  /** The sends of the run carry their hashes, and none of them is given up after it was broadcast. */
  predicate StoresHashes(e: Event) {
    IsSend(e) ==> e.tx.hash.Some? && !e.Strand?
  }

  lemma {:induction false} StoredRunKeeps(w: World, currency: Key, events: seq<Event>)
    requires Steady(w, currency) && AllGuarded(w) && NothingStranded(w)
    requires forall i | 0 <= i < |events| :: StoresHashes(events[i])
    ensures AllGuarded(Run(w, currency, events)) && NothingStranded(Run(w, currency, events))
  {
    if events != [] {
      var k := |events| - 1;
      var earlier := Run(w, currency, events[..k]);
      assert StoresHashes(events[k]);
      StoredRunKeeps(w, currency, events[..k]);
      RunKeepsSteady(w, currency, events[..k]);
      StepKeepsAllGuarded(earlier, currency, events[k]);
      StepStrandsNothing(earlier, currency, events[k]);
    }
  }

  // ----- the terms that spoil the plain equation -----

  /** An own output of this wallet that was credited. */
  predicate Doubled(d: Deposit, wallet: int) {
    d.owner == wallet && d.source.Some? && d.credited
  }

  lemma {:induction false} TwiceIsZeroExactly(deposits: seq<Deposit>, wallet: int)
    requires forall d | 0 <= d < |deposits| && deposits[d].source.Some? :: deposits[d].amount > 0
    ensures CreditedTwice(deposits, wallet) >= 0
    ensures CreditedTwice(deposits, wallet) == 0 <==> forall d | 0 <= d < |deposits| :: !Doubled(deposits[d], wallet)
  {
    if deposits != [] {
      var k := |deposits| - 1;
      TwiceIsZeroExactly(deposits[..k], wallet);
      assert forall d | 0 <= d < k :: deposits[..k][d] == deposits[d];
    }
  }

  /** A stranded send of this wallet. */
  predicate StrandedFrom(tx: Tx, s: Send, wallet: int) {
    IsStranded(tx, s) && tx.sender == Some(wallet)
  }

  /** A stranded transfer to this wallet. */
  predicate StrandedTo(tx: Tx, s: Send, wallet: int) {
    IsStranded(tx, s) && tx.kind == Internal && tx.recipient == Some(wallet)
  }

  lemma {:induction false} StrandedIsZeroExactly(txs: seq<Tx>, sends: seq<Send>, wallet: int)
    requires |sends| == |txs|
    requires forall i | 0 <= i < |txs| && IsStranded(txs[i], sends[i]) :: txs[i].amount > 0 && sends[i].fee > 0
    requires forall i | 0 <= i < |txs| :: !StrandedTo(txs[i], sends[i], wallet)
    ensures Sum(txs, sends, wallet, Stranded) >= 0
    ensures Sum(txs, sends, wallet, Stranded) == 0 <==>
            forall i | 0 <= i < |txs| :: !StrandedFrom(txs[i], sends[i], wallet)
  {
    if txs != [] {
      var k := |txs| - 1;
      assert forall i | 0 <= i < k :: txs[..k][i] == txs[i] && sends[..k][i] == sends[i];
      StrandedIsZeroExactly(txs[..k], sends[..k], wallet);
    }
  }

  // ----- results -----

  lemma StartIsSteady(w: World, currency: Key)
    requires Start(w, currency)
    ensures Steady(w, currency) && AllGuarded(w) && NothingStranded(w)
  {
  }

  /**
   * The plain equation holds for a wallet if and only if none of its own outputs was credited and
   * none of its sends was given up after it had been broadcast. Only an outbound wallet can be the
   * target of such a send; for it that has to be excluded, because the two errors can cancel out.
   */
  lemma PlainExactly(w: World, currency: Key, events: seq<Event>, wallet: int)
    requires Start(w, currency)
    requires var end := Run(w, currency, events);
             wallet in w.outbound ==>
               |end.sends| == |end.book.txs|
               && forall i | 0 <= i < |end.book.txs| :: !StrandedTo(end.book.txs[i], end.sends[i], wallet)
    ensures var end := Run(w, currency, events);
            && |end.sends| == |end.book.txs|
            && (Plain(end, wallet, currency) <==>
                && (forall d | 0 <= d < |end.deposits| :: !Doubled(end.deposits[d], wallet))
                && forall i | 0 <= i < |end.book.txs| :: !StrandedFrom(end.book.txs[i], end.sends[i], wallet))
  {
    var end := Run(w, currency, events);
    StartIsSteady(w, currency);
    RunKeepsSteady(w, currency, events);
    RunKeepsOutbound(w, currency, events);
    LedgerAgreesWithChain(w, currency, events, wallet);
    TwiceIsZeroExactly(end.deposits, wallet);
    StrandedIsZeroExactly(end.book.txs, end.sends, wallet);
  }

  lemma {:induction false} RunKeepsOutbound(w: World, currency: Key, events: seq<Event>)
    ensures Run(w, currency, events).outbound == w.outbound
  {
    if events != [] {
      RunKeepsOutbound(w, currency, events[..|events| - 1]);
      StepKeepsOutbound(Run(w, currency, events[..|events| - 1]), currency, events[|events| - 1]);
    }
  }

  lemma StepKeepsOutbound(w: World, currency: Key, e: Event)
    ensures Step(w, currency, e).outbound == w.outbound
  {
  }

  /** When every send stores its hash at once and none is given up, the plain equation holds throughout. */
  lemma StoredRunsArePlain(w: World, currency: Key, events: seq<Event>, wallet: int)
    requires Start(w, currency) && forall i | 0 <= i < |events| :: StoresHashes(events[i])
    ensures Plain(Run(w, currency, events), wallet, currency)
  {
    var end := Run(w, currency, events);
    StartIsSteady(w, currency);
    RunKeepsSteady(w, currency, events);
    StoredRunKeeps(w, currency, events);
    forall d | 0 <= d < |end.deposits| ensures !Doubled(end.deposits[d], wallet) {
      if end.deposits[d].source.Some? {
        StoredHashProtects(end, currency, [], d);
      }
    }
    PlainExactly(w, currency, events, wallet);
  }

  // ----- a send without a stored hash -----

  /** The record of a payment that nobody waited for, as it is inserted. */
  function ReportOf(d: Deposit, currency: Key): Tx {
    Tx(Incoming, InProgress, SYSTEM_MERCHANT, 0, None, Some(d.owner), currency, currency, d.amount, 0, Some(d.amount),
       None, Some(d.hash))
  }

  /** An own output whose hash no record carries is credited when it is reported and confirmed. */
  lemma UnstoredOutputIsCredited(w: World, currency: Key, d: nat)
    requires Steady(w, currency) && NonNegative(w.book.balances) && currency.ticker != ""
    requires d < |w.deposits| && w.deposits[d].source.Some? && !w.deposits[d].credited
    requires w.deposits[d].hash != "" && w.deposits[d].owner != 0 && UnknownHash(w.book.txs, w.deposits[d].hash)
    ensures var own := w.deposits[d];
            var seen := Step(w, currency, Unexpected(ReportOf(own, currency), d));
            var end := Step(seen, currency, Credit(|w.book.txs|, d, 0));
            && end.deposits[d].credited && end.coins == w.coins
            && LedgerBalance(end, own.owner, currency) == LedgerBalance(w, own.owner, currency) + own.amount
  {
    var own, tx, id := w.deposits[d], ReportOf(w.deposits[d], currency), |w.book.txs|;
    var seen := Step(w, currency, Unexpected(tx, d));
    OwnReportExactly(w, currency, tx, d);
    AddStep(w, currency, Unexpected(tx, d));
    var c := Accounting.FromReceipt(tx, 0).value;
    ReceiptPosts(seen.book, id, c);
    CreditMoves(seen.book, currency, id, c, own.owner);
    assert Accounting.Apply(seen.book, Accounting.Confirmed(id, 0)) == Confirm(seen.book, id, c).value;
  }

  /** The receipt of a payment nobody waited for can always be posted. */
  lemma ReceiptPosts(book: Book, id: nat, c: Confirmation)
    requires id < |book.txs| && NonNegative(book.balances) && book.txs[id].kind == Incoming
    requires book.txs[id].merchant == SYSTEM_MERCHANT && book.txs[id].status == InProgress
    requires book.txs[id].recipient.Some? && book.txs[id].recipient.value != 0 && book.txs[id].key.ticker != ""
    requires ValidConfirmation(c) && c.status == Completed && c.fact > 0
    ensures Confirm(book, id, c).Ok?
  {
  }

  /** One wallet with one output of 200000 satoshis, which its balance says as well. */
  function LoneWallet(currency: Key): World {
    World(
      Book([Balance(Wallet, 1, currency, 200000), Balance(Merchant, 7, currency, 20000)], []), [],
      [Coin(Some(1), 200000, false)], [], {})
  }

  /** A withdrawal of 10000 for a fee of 140, the hash of which is not stored. */
  function LoneWithdrawal(currency: Key): Tx {
    Tx(Withdrawal, Pending, 7, 1, Some(1), None, currency, currency, 10000, 140, None, None, None)
  }

  lemma TotalOfTwo(a: Balance, b: Balance, q: Query)
    ensures Total([a, b], q) == (if Matches(a.entity, a.owner, a.key, q) then a.amount else 0)
                                + (if Matches(b.entity, b.owner, b.key, q) then b.amount else 0)
  {
    var one, two := [a], [a, b];
    assert one[..0] == [] && two[..1] == one;
    assert Total(one, q) == Total(one[..0], q) + (if Matches(a.entity, a.owner, a.key, q) then a.amount else 0);
  }

  lemma LoneWalletStarts(currency: Key)
    ensures Start(LoneWallet(currency), currency)
  {
    var w := LoneWallet(currency);
    forall wallet ensures LedgerBalance(w, wallet, currency) == Unspent(w.coins, wallet) {
      TotalOfTwo(w.book.balances[0], w.book.balances[1], Query(Wallet, Some(wallet), currency));
      UnspentAppend([], w.coins[0], wallet);
      assert [] + [w.coins[0]] == w.coins;
    }
  }

  lemma LoneWithdrawalMoves(currency: Key)
    ensures Accounting.Apply(LoneWallet(currency).book, Accounting.Withdraw(LoneWithdrawal(currency), 0, 1)) ==
            Book(
              [Balance(Wallet, 1, currency, 190000), Balance(Merchant, 7, currency, 9860)],
              [LoneWithdrawal(currency)])
  {
    var rows := LoneWallet(currency).book.balances;
    var charged := [rows[0], Balance(Merchant, 7, currency, 9860)];
    var moved := [Balance(Wallet, 1, currency, 190000), charged[1]];
    assert rows[1 := charged[1]] == charged && Adjust(rows, 1, Decrement, currency.ticker, 10140) == Ok(charged);
    assert charged[0 := moved[0]] == moved && Adjust(charged, 0, Decrement, currency.ticker, 10000) == Ok(moved);
  }

  lemma LoneWithdrawalIsSendable(currency: Key)
    ensures Sendable(LoneWallet(currency), currency, LoneWithdrawal(currency), [0], 189860, "hash")
    ensures InputSum(LoneWallet(currency).coins, [0]) == 200000
  {
    var inputs: seq<nat> := [0];
    assert inputs[..0] == [];
  }

  function LoneSend(currency: Key): Event {
    Withdraw(LoneWithdrawal(currency), 0, 1, [0], 189860, "hash")
  }

  /** The withdrawal is sent: its change is what will be reported. */
  lemma LoneSent(currency: Key)
    ensures var sent := Step(LoneWallet(currency), currency, LoneSend(currency));
            && sent.book.txs == [LoneWithdrawal(currency)] && NonNegative(sent.book.balances)
            && sent.deposits == [Deposit("hash", 1, 189860, Some(0), false)]
            && LedgerBalance(sent, 1, currency) == 190000
  {
    var w, sent := LoneWallet(currency), Step(LoneWallet(currency), currency, LoneSend(currency));
    LoneWithdrawalMoves(currency);
    LoneWithdrawalIsSendable(currency);
    assert sent == Broadcast(w, sent.book, LoneWithdrawal(currency), [0], 189860, "hash");
    TotalOfTwo(sent.book.balances[0], sent.book.balances[1], Query(Wallet, Some(1), currency));
  }

  /** So far the plain equation holds. */
  lemma SentIsPlain(w: World, currency: Key, event: Event)
    requires Start(w, currency) && w.outbound == {} && event.Withdraw?
    requires forall d | d in Step(w, currency, event).deposits :: !d.credited
    ensures Plain(Step(w, currency, event), 1, currency) && Steady(Step(w, currency, event), currency)
  {
    var events := [event];
    assert events[..0] == [] && Run(w, currency, events[..0]) == w;
    StartIsSteady(w, currency);
    RunKeepsSteady(w, currency, events);
    StepStrandsNothing(w, currency, event);
    PlainExactly(w, currency, events, 1);
  }

  /**
   * A run that breaks the plain equation: the withdrawal is sent and its hash not stored, the
   * change is reported and confirmed, and the ledger counts the change twice.
   */
  lemma ChangeIsCreditedTwice(currency: Key)
    requires currency.ticker != ""
    ensures var w := LoneWallet(currency);
            var sent := Step(w, currency, LoneSend(currency));
            && Start(w, currency) && Plain(sent, 1, currency) && |sent.deposits| == 1
            && var seen := Step(sent, currency, Unexpected(ReportOf(sent.deposits[0], currency), 0));
               var end := Step(seen, currency, Credit(1, 0, 0));
               && LedgerBalance(sent, 1, currency) == 190000
               && LedgerBalance(end, 1, currency) == 190000 + 189860 && !Plain(end, 1, currency)
  {
    var w, sent := LoneWallet(currency), Step(LoneWallet(currency), currency, LoneSend(currency));
    LoneWalletStarts(currency);
    LoneSent(currency);
    SentIsPlain(w, currency, LoneSend(currency));
    UnstoredOutputIsCredited(sent, currency, 0);
    var seen := Unexpected(ReportOf(sent.deposits[0], currency), 0);
    DepositStays(sent, currency, seen, 0);
    DepositStays(Step(sent, currency, seen), currency, Credit(1, 0, 0), 0);
    LoneCreditIsNotPlain(w, currency, LoneSend(currency), seen, Credit(1, 0, 0));
  }

  lemma LoneCreditIsNotPlain(w: World, currency: Key, event: Event, seen: Event, credit: Event)
    requires Start(w, currency) && w.outbound == {}
    requires var end := Step(Step(Step(w, currency, event), currency, seen), currency, credit);
             end.deposits != [] && Doubled(end.deposits[0], 1)
    ensures !Plain(Step(Step(Step(w, currency, event), currency, seen), currency, credit), 1, currency)
  {
    RunOfThree(w, currency, event, seen, credit);
    PlainExactly(w, currency, [event, seen, credit], 1);
  }

  lemma RunOfThree(w: World, currency: Key, a: Event, b: Event, c: Event)
    ensures Run(w, currency, [a, b, c]) == Step(Step(Step(w, currency, a), currency, b), currency, c)
  {
    var one, two, three := [a], [a, b], [a, b, c];
    assert one[..0] == [] && two[..1] == one && three[..2] == two;
    assert Run(w, currency, one) == Step(Run(w, currency, one[..0]), currency, a);
    assert Run(w, currency, two) == Step(Run(w, currency, two[..1]), currency, b);
  }
}
