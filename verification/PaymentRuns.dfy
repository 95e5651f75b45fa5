/** What every run of the payment handlers keeps: a payment is paid for at most once. */
module PaymentRuns {
  import opened Outcomes
  import opened Ledger
  import opened Checkout
  import Accounting
  import Desk

  datatype Event =
    | NewPayment(merchant: int)
    | Unexpected(tx: Tx)
    | SetMethod(p: nat, key: Key, offer: Option<Offer>)
    | LockOptions(p: nat, customer: bool)
    | Received(id: nat, hash: string, amount: int, cent: Option<int>)
    | Confirmed(id: nat, fee: int)
    | Reverted(id: nat)
    | Expired(p: nat, observed: bool)

  /** One handler that runs to its end. */
  function Step(s: Shop, e: Event): Shop {
    match e
    case NewPayment(merchant) =>
      if merchant > 0 && Latest(s.book.txs, DbId(|s.payments|)).None?
      then s.(payments := s.payments + [Payment(merchant, Desk.Pending)]) else s
    case Unexpected(tx) =>
      if tx.kind == Incoming && tx.status == InProgress && tx.merchant == SYSTEM_MERCHANT && tx.entity == 0
      then s.(book := Accounting.Appended(s.book, tx)) else s
    case SetMethod(p, key, offer) => Choose(s, p, key, offer)
    case LockOptions(p, customer) => Lock(s, p, customer)
    case Received(id, hash, amount, cent) => Inbound(s, id, hash, amount, cent)
    case Confirmed(id, fee) => Settle(s, id, fee)
    case Reverted(id) => Fail(s, id)
    case Expired(p, observed) => Expire(s, p, observed)
  }

  // ----- invariant -----

  /** The states of the latest transaction a payment's status allows. */
  predicate Fits(payment: Desk.PaymentStatus, latest: Status) {
    match payment
    case Pending => latest == Cancelled || latest == Status.Pending || latest == InProgressInvalid
    case Locked => latest == Cancelled || latest == Status.Pending || latest == InProgressInvalid
    case InProgress => latest == Status.InProgress
    case Success => latest == Completed
    case Failed => latest == Cancelled || latest == CompletedInvalid || latest == Status.Failed
  }

  /** The payment's latest transaction fits its status, and every earlier one is cancelled. */
  ghost predicate Sound(s: Shop, p: nat)
    requires p < |s.payments|
  {
    var latest := Latest(s.book.txs, DbId(p));
    && s.payments[p].merchant > 0
    && (latest.None? ==> s.payments[p].status == Desk.Pending || s.payments[p].status == Desk.Failed)
    && (latest.Some? ==>
          var tx := s.book.txs[latest.value];
          && tx.kind == Incoming && tx.merchant == s.payments[p].merchant && Fits(s.payments[p].status, tx.status)
          && (tx.status == Completed ==> tx.fact.Some?))
    && forall i | 0 <= i < |s.book.txs| && s.book.txs[i].entity == DbId(p) && Some(i) != latest ::
         s.book.txs[i].status == Cancelled
  }

  /** Every record belongs to a payment or, unexpected, to the system. */
  predicate Owned(tx: Tx, payments: nat) {
    (tx.entity == 0 && tx.merchant == SYSTEM_MERCHANT) || 1 <= tx.entity <= payments
  }

  ghost predicate Inv(s: Shop) {
    && (forall p | 0 <= p < |s.payments| :: Sound(s, p))
    && forall i | 0 <= i < |s.book.txs| :: Owned(s.book.txs[i], |s.payments|)
  }

  // ----- the latest record -----

  lemma LatestAppend(txs: seq<Tx>, tx: Tx, entity: int)
    ensures Latest(txs + [tx], entity) == if tx.entity == entity then Some(|txs|) else Latest(txs, entity)
  {
    assert (txs + [tx])[..|txs|] == txs;
  }

  lemma {:induction false} LatestUpdate(txs: seq<Tx>, i: nat, tx: Tx, entity: int)
    requires i < |txs| && tx.entity == txs[i].entity
    ensures Latest(txs[i := tx], entity) == Latest(txs, entity)
  {
    var k := |txs| - 1;
    if txs[k].entity != entity && i < k {
      LatestUpdate(txs[..k], i, tx, entity);
      assert txs[i := tx][..k] == txs[..k][i := tx];
    } else {
      assert txs[i := tx][..k] == if i == k then txs[..k] else txs[..k][i := tx];
    }
  }

  lemma {:induction false} NoLatest(txs: seq<Tx>, entity: int)
    ensures Latest(txs, entity).None? <==> forall i | 0 <= i < |txs| :: txs[i].entity != entity
  {
    if txs != [] {
      NoLatest(txs[..|txs| - 1], entity);
      assert forall i | 0 <= i < |txs| - 1 :: txs[..|txs| - 1][i] == txs[i];
    }
  }

  // ----- what a handler does to one payment -----

  /** Only the payment with this id and its records differ. */
  ghost predicate OnlyPayment(s: Shop, t: Shop, entity: int) {
    && |t.payments| == |s.payments| && |s.book.txs| <= |t.book.txs|
    && (forall q | 0 <= q < |s.payments| && DbId(q) != entity :: t.payments[q] == s.payments[q])
    && (forall i | 0 <= i < |s.book.txs| ::
          t.book.txs[i].entity == s.book.txs[i].entity
          && (s.book.txs[i].entity != entity ==> t.book.txs[i] == s.book.txs[i]))
    && (forall i | |s.book.txs| <= i < |t.book.txs| :: t.book.txs[i].entity == entity)
    && forall q | 0 <= q < |s.payments| && DbId(q) != entity ::
         Latest(t.book.txs, DbId(q)) == Latest(s.book.txs, DbId(q))
  }

  /** Additionally no balance moves, and the payment neither was nor becomes successful. */
  ghost predicate Unpaid(s: Shop, t: Shop, entity: int) {
    && OnlyPayment(s, t, entity) && t.book.balances == s.book.balances
    && (1 <= entity <= |s.payments| ==>
          s.payments[entity - 1].status != Desk.Success && t.payments[entity - 1].status != Desk.Success)
  }

  lemma OthersStaySound(s: Shop, t: Shop, p: nat)
    requires Inv(s) && OnlyPayment(s, t, DbId(p)) && p < |s.payments| && Sound(t, p)
    ensures Inv(t)
  {
    forall q | 0 <= q < |t.payments| ensures Sound(t, q) {
      if q != p {
        assert Sound(s, q);
      }
    }
  }

  /** A record that is not cancelled is the latest of its payment. */
  lemma ActiveIsLatest(s: Shop, id: nat)
    requires Inv(s) && id < |s.book.txs| && s.book.txs[id].entity > 0 && s.book.txs[id].status != Cancelled
    ensures s.book.txs[id].entity <= |s.payments|
    ensures Latest(s.book.txs, s.book.txs[id].entity) == Some(id) && Sound(s, s.book.txs[id].entity - 1)
  {
    var p := s.book.txs[id].entity - 1;
    assert Owned(s.book.txs[id], |s.payments|) && Sound(s, p);
  }

  /** The latest record of a payment and its status change together. */
  function Changed(s: Shop, p: nat, i: nat, tx: Tx, status: Desk.PaymentStatus): Shop
    requires i < |s.book.txs| && p < |s.payments|
  {
    WithStatus(s.(book := s.book.(txs := s.book.txs[i := tx])), p, status)
  }

  lemma ChangeKeeps(s: Shop, t: Shop, p: nat, i: nat, tx: Tx, status: Desk.PaymentStatus)
    requires Inv(s) && p < |s.payments| && Latest(s.book.txs, DbId(p)) == Some(i)
    requires tx.entity == DbId(p) && tx.kind == Incoming && tx.merchant == s.book.txs[i].merchant
    requires Fits(status, tx.status) && (tx.status == Completed ==> tx.fact.Some?)
    requires t.payments == Changed(s, p, i, tx, status).payments && t.book.txs == Changed(s, p, i, tx, status).book.txs
    ensures Inv(t) && OnlyPayment(s, t, DbId(p))
  {
    assert Sound(s, p);
    forall q | 0 <= q < |s.payments| ensures Latest(t.book.txs, DbId(q)) == Latest(s.book.txs, DbId(q)) {
      LatestUpdate(s.book.txs, i, tx, DbId(q));
    }
    OthersStaySound(s, t, p);
  }

  /** Without a record that is not cancelled, a payment takes a new one. */
  lemma OpenKeeps(s: Shop, p: nat, key: Key, offer: Option<Offer>)
    requires Inv(s) && p < |s.payments| && s.payments[p].status == Desk.Pending
    requires Latest(s.book.txs, DbId(p)).Some? ==>
               s.book.txs[Latest(s.book.txs, DbId(p)).value].status == Cancelled
    ensures Inv(Open(s, p, key, offer)) && Unpaid(s, Open(s, p, key, offer), DbId(p))
  {
    if offer.Some? {
      var t, tx := Open(s, p, key, offer), NewRecord(s, p, key, offer.value);
      assert Sound(s, p);
      NoLatest(s.book.txs, DbId(p));
      forall q | 0 <= q < |s.payments|
        ensures Latest(t.book.txs, DbId(q)) == if q == p then Some(|s.book.txs|) else Latest(s.book.txs, DbId(q))
      {
        LatestAppend(s.book.txs, tx, DbId(q));
      }
      OthersStaySound(s, t, p);
    }
  }

  lemma ChooseKeeps(s: Shop, p: nat, key: Key, offer: Option<Offer>)
    requires Inv(s)
    ensures Inv(Choose(s, p, key, offer))
    ensures Choose(s, p, key, offer) != s ==> Unpaid(s, Choose(s, p, key, offer), DbId(p))
  {
    if p < |s.payments| && s.payments[p].status == Desk.Pending {
      assert Sound(s, p);
      var latest := Latest(s.book.txs, DbId(p));
      if latest.None? || s.book.txs[latest.value].status == Cancelled {
        OpenKeeps(s, p, key, offer);
      } else if s.book.txs[latest.value].key != key && s.book.txs[latest.value].recipient.Some? {
        var i := latest.value;
        var book := Cancel(s.book, i, Cancelled, None).value;
        ChangeKeeps(s, s.(book := book), p, i, book.txs[i], Desk.Pending);
        LatestUpdate(s.book.txs, i, book.txs[i], DbId(p));
        OpenKeeps(s.(book := book), p, key, offer);
      }
    }
  }

  lemma LockKeeps(s: Shop, p: nat, customer: bool)
    requires Inv(s)
    ensures Inv(Lock(s, p, customer))
    ensures Lock(s, p, customer) != s ==> Unpaid(s, Lock(s, p, customer), DbId(p))
  {
    var t := Lock(s, p, customer);
    if t != s {
      assert Sound(s, p);
      OthersStaySound(s, t, p);
    }
  }

  lemma InboundKeeps(s: Shop, id: nat, hash: string, amount: int, cent: Option<int>)
    requires Inv(s)
    ensures Inv(Inbound(s, id, hash, amount, cent))
    ensures Inbound(s, id, hash, amount, cent) != s ==>
              id < |s.book.txs| && Unpaid(s, Inbound(s, id, hash, amount, cent), s.book.txs[id].entity)
  {
    var t := Inbound(s, id, hash, amount, cent);
    if t != s {
      var tx := s.book.txs[id];
      if tx.entity == 0 {
        SystemRecordKeeps(s, t, id);
      } else {
        ActiveIsLatest(s, id);
        var p := tx.entity - 1;
        ChangeKeeps(s, t, p, id, t.book.txs[id], t.payments[p].status);
      }
    }
  }

  /** A record of the system belongs to no payment. */
  lemma SystemRecordKeeps(s: Shop, t: Shop, id: nat)
    requires Inv(s) && id < |s.book.txs| && s.book.txs[id].entity == 0 && t.payments == s.payments
    requires |t.book.txs| == |s.book.txs| && t.book.txs == s.book.txs[id := t.book.txs[id]]
    requires t.book.txs[id].entity == 0 && t.book.txs[id].merchant == s.book.txs[id].merchant
    ensures Inv(t) && OnlyPayment(s, t, 0)
  {
    forall q | 0 <= q < |t.payments|
      ensures Sound(t, q) && Latest(t.book.txs, DbId(q)) == Latest(s.book.txs, DbId(q))
    {
      assert Sound(s, q);
      LatestUpdate(s.book.txs, id, t.book.txs[id], DbId(q));
    }
    assert Owned(s.book.txs[id], |s.payments|);
  }

  lemma SettleKeeps(s: Shop, id: nat, fee: int)
    requires Inv(s)
    ensures Inv(Settle(s, id, fee))
    ensures Settle(s, id, fee) != s ==> id < |s.book.txs| && OnlyPayment(s, Settle(s, id, fee), s.book.txs[id].entity)
  {
    var t := Settle(s, id, fee);
    if t != s {
      var tx := s.book.txs[id];
      if tx.entity == 0 {
        SystemRecordKeeps(s, t, id);
      } else {
        ActiveIsLatest(s, id);
        var p := tx.entity - 1;
        ChangeKeeps(s, t, p, id, t.book.txs[id], t.payments[p].status);
      }
    }
  }

  lemma FailKeeps(s: Shop, id: nat)
    requires Inv(s)
    ensures Inv(Fail(s, id))
    ensures Fail(s, id) != s ==> id < |s.book.txs| && Unpaid(s, Fail(s, id), s.book.txs[id].entity)
  {
    var t := Fail(s, id);
    if t != s {
      var tx := s.book.txs[id];
      if tx.entity == 0 {
        SystemRecordKeeps(s, t, id);
      } else {
        ActiveIsLatest(s, id);
        var p := tx.entity - 1;
        ChangeKeeps(s, t, p, id, t.book.txs[id], t.payments[p].status);
      }
    }
  }

  lemma ExpireKeeps(s: Shop, p: nat, observed: bool)
    requires Inv(s)
    ensures Inv(Expire(s, p, observed))
    ensures Expire(s, p, observed) != s ==> Unpaid(s, Expire(s, p, observed), DbId(p))
  {
    var t := Expire(s, p, observed);
    if t != s {
      assert Sound(s, p);
      var latest := Latest(s.book.txs, DbId(p));
      if latest.Some? && s.book.txs[latest.value].status != Cancelled {
        ChangeKeeps(s, t, p, latest.value, t.book.txs[latest.value], Desk.Failed);
      } else {
        OthersStaySound(s, t, p);
      }
    }
  }

  lemma NewPaymentKeeps(s: Shop, merchant: int)
    requires Inv(s)
    ensures Inv(Step(s, NewPayment(merchant)))
  {
    var t := Step(s, NewPayment(merchant));
    NoLatest(s.book.txs, DbId(|s.payments|));
    forall p | 0 <= p < |t.payments| ensures Sound(t, p) {
      if p < |s.payments| {
        assert Sound(s, p);
      }
    }
  }

  lemma UnexpectedKeeps(s: Shop, tx: Tx)
    requires Inv(s)
    ensures Inv(Step(s, Unexpected(tx)))
    ensures Step(s, Unexpected(tx)) != s ==> Unpaid(s, Step(s, Unexpected(tx)), 0)
  {
    var t := Step(s, Unexpected(tx));
    if t != s {
      forall p | 0 <= p < |t.payments| ensures Sound(t, p) {
        assert Sound(s, p);
        LatestAppend(s.book.txs, tx, DbId(p));
      }
    }
  }

  lemma StepKeeps(s: Shop, e: Event)
    requires Inv(s)
    ensures Inv(Step(s, e))
  {
    match e
    case NewPayment(merchant) => NewPaymentKeeps(s, merchant);
    case Unexpected(tx) => UnexpectedKeeps(s, tx);
    case SetMethod(p, key, offer) => ChooseKeeps(s, p, key, offer);
    case LockOptions(p, customer) => LockKeeps(s, p, customer);
    case Received(id, hash, amount, cent) => InboundKeeps(s, id, hash, amount, cent);
    case Confirmed(id, fee) => SettleKeeps(s, id, fee);
    case Reverted(id) => FailKeeps(s, id);
    case Expired(p, observed) => ExpireKeeps(s, p, observed);
  }

  // ----- credits -----

  /** What payment `p` has brought its merchant: the received amount up to the price, less the fee. */
  function Credit(s: Shop, p: nat, merchant: int, key: Key): int
    requires p < |s.payments|
  {
    var latest := Latest(s.book.txs, DbId(p));
    if s.payments[p].merchant == merchant && s.payments[p].status == Desk.Success && latest.Some?
       && s.book.txs[latest.value].key == key && s.book.txs[latest.value].fact.Some?
    then Gain(s.book.txs[latest.value]) else 0
  }

  function Credits(s: Shop, n: nat, merchant: int, key: Key): int
    requires n <= |s.payments|
  {
    if n == 0 then 0 else Credits(s, n - 1, merchant, key) + Credit(s, n - 1, merchant, key)
  }

  function Owed(s: Shop, merchant: int, key: Key): int {
    Total(s.book.balances, Query(Merchant, Some(merchant), key))
  }

  lemma {:induction false} CreditsDiffer(s: Shop, t: Shop, n: nat, entity: int, merchant: int, key: Key)
    requires OnlyPayment(s, t, entity) && n <= |s.payments|
    ensures Credits(t, n, merchant, key) - Credits(s, n, merchant, key) ==
            if 1 <= entity <= n
            then Credit(t, entity - 1, merchant, key) - Credit(s, entity - 1, merchant, key) else 0
  {
    if n > 0 {
      CreditsDiffer(s, t, n - 1, entity, merchant, key);
      if n != entity {
        OthersKeepCredit(s, t, n - 1, entity, merchant, key);
      }
    }
  }

  lemma OthersKeepCredit(s: Shop, t: Shop, q: nat, entity: int, merchant: int, key: Key)
    requires OnlyPayment(s, t, entity) && q < |s.payments| && DbId(q) != entity
    ensures Credit(t, q, merchant, key) == Credit(s, q, merchant, key)
  {
    assert Latest(t.book.txs, DbId(q)) == Latest(s.book.txs, DbId(q));
  }

  /** The payment of a confirmed record had no credit before, and now has what the record gained. */
  lemma SettledCredit(s: Shop, id: nat, fee: int, merchant: int, key: Key)
    requires Inv(s) && Settle(s, id, fee) != s && id < |s.book.txs| && s.book.txs[id].entity > 0
    ensures var t, p := Settle(s, id, fee), s.book.txs[id].entity - 1;
            && p < |s.payments| && |t.payments| == |s.payments| && |t.book.txs| == |s.book.txs|
            && Credit(s, p, merchant, key) == 0 && t.book.txs[id].fact.Some?
            && Credit(t, p, merchant, key) ==
               if t.book.txs[id].status == Completed && t.book.txs[id].merchant == merchant && t.book.txs[id].key == key
               then Gain(t.book.txs[id]) else 0
  {
    var t, before := Settle(s, id, fee), s.book.txs[id];
    ActiveIsLatest(s, id);
    LatestUpdate(s.book.txs, id, t.book.txs[id], before.entity);
  }

  /** Confirming moves the merchant's balance by the payment's credit. */
  lemma SettleCredits(s: Shop, id: nat, fee: int, merchant: int, key: Key)
    requires Inv(s) && Settle(s, id, fee) != s
    ensures id < |s.book.txs|
    ensures var t, entity := Settle(s, id, fee), s.book.txs[id].entity;
            && |t.payments| == |s.payments|
            && Owed(t, merchant, key) - Owed(s, merchant, key) ==
               if 1 <= entity <= |s.payments|
               then Credit(t, entity - 1, merchant, key) - Credit(s, entity - 1, merchant, key) else 0
  {
    SettleOwed(s, id, fee, merchant, key);
    assert Owned(s.book.txs[id], |s.payments|);
    if s.book.txs[id].entity > 0 {
      ActiveIsLatest(s, id);
      SettledCredit(s, id, fee, merchant, key);
    }
  }

  /** What a confirmation adds to a merchant's balance. */
  lemma SettleOwed(s: Shop, id: nat, fee: int, merchant: int, key: Key)
    requires Settle(s, id, fee) != s
    ensures id < |s.book.txs| && UnderWay(s.book.txs[id]) && s.book.txs[id].fact.Some?
    ensures var t, tx := Settle(s, id, fee), Settle(s, id, fee).book.txs[id];
            && t.book.txs == s.book.txs[id := tx] && tx.fact == s.book.txs[id].fact
            && tx.amount == s.book.txs[id].amount && tx.key == s.book.txs[id].key
            && Owed(t, merchant, key) == Owed(s, merchant, key) +
               (if tx.status == Completed && tx.merchant != SYSTEM_MERCHANT && tx.merchant == merchant && tx.key == key
                then Gain(tx) else 0)
  {
    var before := s.book.txs[id];
    var c := Confirmation(
      if before.status == InProgressInvalid then CompletedInvalid else Completed, before.hash.value,
      before.fact.value, fee, true);
    var tx := Ledger.Confirmed(before, c);
    var q := Query(Merchant, Some(merchant), key);
    var received := Post(s.book.balances, Wallet, tx.recipient.value, tx.key, Increment, tx.fact.value);
    PostMoves(s.book.balances, Wallet, tx.recipient.value, tx.key, Increment, tx.fact.value, q);
    if tx.status != CompletedInvalid && tx.merchant != SYSTEM_MERCHANT {
      PostMoves(received.value, Merchant, tx.merchant, tx.key, Increment, Gain(tx), q);
    }
  }

  /** Handlers other than a confirmation move no balance and make no payment successful. */
  lemma StepIsUnpaid(s: Shop, e: Event) returns (entity: int)
    requires Inv(s) && Step(s, e) != s && !e.NewPayment? && !e.Confirmed?
    ensures Unpaid(s, Step(s, e), entity)
  {
    match e
    case Unexpected(tx) => UnexpectedKeeps(s, tx); entity := 0;
    case SetMethod(p, key, offer) => ChooseKeeps(s, p, key, offer); entity := DbId(p);
    case LockOptions(p, customer) => LockKeeps(s, p, customer); entity := DbId(p);
    case Received(id, hash, amount, cent) =>
      InboundKeeps(s, id, hash, amount, cent);
      entity := s.book.txs[id].entity;
    case Reverted(id) => FailKeeps(s, id); entity := s.book.txs[id].entity;
    case Expired(p, observed) => ExpireKeeps(s, p, observed); entity := DbId(p);
  }

  lemma ConfirmedCredits(s: Shop, id: nat, fee: int, merchant: int, key: Key)
    requires Inv(s) && Settle(s, id, fee) != s
    ensures var t := Settle(s, id, fee);
            Owed(t, merchant, key) - Owed(s, merchant, key) ==
            Credits(t, |t.payments|, merchant, key) - Credits(s, |s.payments|, merchant, key)
  {
    var t := Settle(s, id, fee);
    SettleCredits(s, id, fee, merchant, key);
    var entity, n := s.book.txs[id].entity, |s.payments|;
    assert Credits(t, n, merchant, key) - Credits(s, n, merchant, key) ==
           if 1 <= entity <= n then Credit(t, entity - 1, merchant, key) - Credit(s, entity - 1, merchant, key)
           else 0
    by {
      SettleKeeps(s, id, fee);
      CreditsDiffer(s, t, n, entity, merchant, key);
    }
  }

  /** Every handler changes what a merchant is owed by exactly what its payments have brought. */
  lemma StepCredits(s: Shop, e: Event, merchant: int, key: Key)
    requires Inv(s)
    ensures var t := Step(s, e);
            Owed(t, merchant, key) - Owed(s, merchant, key) ==
            Credits(t, |t.payments|, merchant, key) - Credits(s, |s.payments|, merchant, key)
  {
    var t := Step(s, e);
    if t != s {
      if e.NewPayment? {
        NewPaymentCredits(s, t, |s.payments|, merchant, key);
      } else if e.Confirmed? {
        ConfirmedCredits(s, e.id, e.fee, merchant, key);
      } else {
        var entity := StepIsUnpaid(s, e);
        UnpaidCredits(s, t, entity, merchant, key);
      }
    }
  }

  lemma UnpaidCredits(s: Shop, t: Shop, entity: int, merchant: int, key: Key)
    requires Unpaid(s, t, entity)
    ensures Credits(t, |t.payments|, merchant, key) == Credits(s, |s.payments|, merchant, key)
    ensures Owed(t, merchant, key) == Owed(s, merchant, key)
  {
    CreditsDiffer(s, t, |s.payments|, entity, merchant, key);
  }

  lemma {:induction false} NewPaymentCredits(s: Shop, t: Shop, n: nat, merchant: int, key: Key)
    requires n <= |s.payments| && |t.payments| == |s.payments| + 1 && s.payments <= t.payments && t.book == s.book
    requires t.payments[|s.payments|].status == Desk.Pending
    ensures Credits(t, n, merchant, key) == Credits(s, n, merchant, key)
    ensures Credit(t, |s.payments|, merchant, key) == 0
  {
    if n > 0 {
      NewPaymentCredits(s, t, n - 1, merchant, key);
    }
  }

  // ----- runs -----

  function Run(s: Shop, events: seq<Event>): Shop {
    if events == [] then s else Step(Run(s, events[..|events| - 1]), events[|events| - 1])
  }

  lemma {:induction false} RunKeeps(s: Shop, events: seq<Event>, merchant: int, key: Key)
    requires Inv(s)
    ensures var t := Run(s, events);
            && Inv(t)
            && Owed(t, merchant, key) - Owed(s, merchant, key) ==
               Credits(t, |t.payments|, merchant, key) - Credits(s, |s.payments|, merchant, key)
  {
    if events != [] {
      var earlier := Run(s, events[..|events| - 1]);
      RunKeeps(s, events[..|events| - 1], merchant, key);
      StepKeeps(earlier, events[|events| - 1]);
      StepCredits(earlier, events[|events| - 1], merchant, key);
    }
  }

  /** A shop without payments and transactions. */
  function Opening(rows: seq<Balance>): Shop {
    Shop(Book(rows, []), [])
  }

  /**
   * In every run, a merchant is owed the opening balance plus, once for every successful payment,
   * what the customer paid up to the price less the service fee.
   */
  lemma CreditedOncePerPayment(rows: seq<Balance>, events: seq<Event>, merchant: int, key: Key)
    ensures var t := Run(Opening(rows), events);
            Owed(t, merchant, key) ==
            Total(rows, Query(Merchant, Some(merchant), key)) + Credits(t, |t.payments|, merchant, key)
  {
    RunKeeps(Opening(rows), events, merchant, key);
  }

  /** In every run, a payment has at most one transaction that is not cancelled. */
  lemma OneActiveTransaction(rows: seq<Balance>, events: seq<Event>, i: nat, j: nat)
    requires var txs := Run(Opening(rows), events).book.txs;
             && i < |txs| && j < |txs| && txs[i].entity == txs[j].entity > 0
             && txs[i].status != Cancelled && txs[j].status != Cancelled
    ensures i == j
  {
    RunKeeps(Opening(rows), events, 0, Key("", ""));
    ActiveIsLatest(Run(Opening(rows), events), i);
    ActiveIsLatest(Run(Opening(rows), events), j);
  }

  /** A sound payment is successful exactly when one of its transactions is completed. */
  lemma SuccessIsCompleted(t: Shop, p: nat)
    requires Inv(t) && p < |t.payments|
    ensures t.payments[p].status == Desk.Success <==>
            exists i | 0 <= i < |t.book.txs| :: t.book.txs[i].entity == DbId(p) && t.book.txs[i].status == Completed
  {
    assert Sound(t, p);
    if i :| 0 <= i < |t.book.txs| && t.book.txs[i].entity == DbId(p) && t.book.txs[i].status == Completed {
      ActiveIsLatest(t, i);
    }
  }

  /** In every run, a payment is successful exactly when one of its transactions is completed. */
  lemma SuccessMeansPaid(rows: seq<Balance>, events: seq<Event>, p: nat)
    requires p < |Run(Opening(rows), events).payments|
    ensures var t := Run(Opening(rows), events);
            t.payments[p].status == Desk.Success <==>
            exists i | 0 <= i < |t.book.txs| :: t.book.txs[i].entity == DbId(p) && t.book.txs[i].status == Completed
  {
    RunKeeps(Opening(rows), events, 0, Key("", ""));
    SuccessIsCompleted(Run(Opening(rows), events), p);
  }

  /**
   * In every run, the confirmation that makes a payment successful raises its merchant's balance
   * by what was received up to the price, less the fee; no other balance of a merchant moves, and
   * none moves when the payment fails.
   */
  lemma SuccessMeansCredited(rows: seq<Balance>, events: seq<Event>, id: nat, fee: int, merchant: int, key: Key)
    requires var s := Run(Opening(rows), events);
             id < |s.book.txs| && s.book.txs[id].entity > 0 && Step(s, Confirmed(id, fee)) != s
    ensures var s := Run(Opening(rows), events);
            var t, tx := Step(s, Confirmed(id, fee)), s.book.txs[id];
            var p := tx.entity - 1;
            && p < |s.payments| == |t.payments| && tx.fact.Some? && s.payments[p].status != Desk.Success
            && (t.payments[p].status == Desk.Success <==> tx.status == InProgress)
            && Owed(t, merchant, key) - Owed(s, merchant, key) ==
               if t.payments[p].status == Desk.Success && merchant == t.payments[p].merchant && key == tx.key
               then Min(tx.fact.value, tx.amount) - tx.serviceFee else 0
  {
    var s := Run(Opening(rows), events);
    RunKeeps(Opening(rows), events, 0, Key("", ""));
    ActiveIsLatest(s, id);
    SettleOwed(s, id, fee, merchant, key);
  }

  // ----- the handlers as events of the accounting runs -----

  /** Whatever a confirmation does to the books is the confirmed event. */
  lemma SettleIsEvent(s: Shop, id: nat, fee: int)
    requires Settle(s, id, fee) != s
    ensures Settle(s, id, fee).book == Accounting.Apply(s.book, Accounting.Confirmed(id, fee))
  {
  }

  /** Whatever a receipt does to the books is the seen event with the determined status. */
  lemma InboundIsEvent(s: Shop, id: nat, hash: string, received: int, cent: Option<int>)
    requires Inbound(s, id, hash, received, cent) != s
    ensures id < |s.book.txs| && IncomingStatus(received, s.book.txs[id].amount, cent).Some?
    ensures Inbound(s, id, hash, received, cent).book ==
            Accounting.Apply(
              s.book,
              Accounting.Seen(id, IncomingStatus(received, s.book.txs[id].amount, cent).value, hash, received))
  {
  }

  /** Choosing a method drops the old record, if it is replaced, and expects the new one. */
  lemma ChooseIsEvents(s: Shop, p: nat, key: Key, offer: Option<Offer>)
    requires Inv(s) && Choose(s, p, key, offer) != s
    ensures p < |s.payments|
    ensures var latest := Latest(s.book.txs, DbId(p));
            var kept := if latest.Some? && s.book.txs[latest.value].status != Cancelled
                        then Accounting.Apply(s.book, Accounting.Drop(latest.value, Cancelled)) else s.book;
            Choose(s, p, key, offer).book ==
            if offer.None? then kept
            else Accounting.Apply(kept, Accounting.Expect(NewRecord(s, p, key, offer.value)))
  {
    assert Sound(s, p);
  }

  /** A reverted receipt drops its record. */
  lemma FailIsEvent(s: Shop, id: nat)
    requires Fail(s, id) != s
    ensures Fail(s, id).book == Accounting.Apply(s.book, Accounting.Drop(id, Status.Failed))
  {
  }

  /** An expired payment drops its latest record, unless that is cancelled already. */
  lemma ExpireIsEvent(s: Shop, p: nat, observed: bool)
    requires Inv(s) && Expire(s, p, observed) != s
    ensures p < |s.payments|
    ensures var latest := Latest(s.book.txs, DbId(p));
            Expire(s, p, observed).book ==
            if latest.None? || s.book.txs[latest.value].status == Cancelled then s.book
            else Accounting.Apply(s.book, Accounting.Drop(latest.value, Cancelled))
  {
    assert Sound(s, p);
  }

  // ----- receiving and expiring -----

  /** The payment has a record that must not be given up. */
  ghost predicate UnderObservation(s: Shop, p: nat, observed: bool) {
    exists i | 0 <= i < |s.book.txs| ::
      && s.book.txs[i].entity == DbId(p) && s.book.txs[i].status != Cancelled
      && (s.book.txs[i].hash.Some? || UnderWay(s.book.txs[i]) || observed)
  }

  /** An open payment expires exactly when no record of it has been seen on the chain. */
  lemma ExpiresExactly(s: Shop, p: nat, observed: bool)
    requires Inv(s) && p < |s.payments|
    requires s.payments[p].status == Desk.Pending || s.payments[p].status == Desk.Locked
    ensures Expire(s, p, observed).payments[p].status == Desk.Failed <==> !UnderObservation(s, p, observed)
    ensures UnderObservation(s, p, observed) ==> Expire(s, p, observed) == s
  {
    assert Sound(s, p);
    var latest := Latest(s.book.txs, DbId(p));
    NoLatest(s.book.txs, DbId(p));
    if latest.Some? && s.book.txs[latest.value].status != Cancelled {
      var tx := s.book.txs[latest.value];
      assert UnderObservation(s, p, observed) <==> tx.hash.Some? || UnderWay(tx) || observed;
    } else {
      assert !UnderObservation(s, p, observed);
    }
  }

  /** A payment starts to be processed exactly when its receipt is short of the price by at most one cent. */
  lemma ProcessesExactly(s: Shop, id: nat, hash: string, received: int, cent: Option<int>)
    requires Inv(s) && id < |s.book.txs| && Awaits(s.book.txs[id]) && s.book.txs[id].entity > 0
    requires s.book.txs[id].recipient.Some? && hash != "" && received != 0
    ensures var p := s.book.txs[id].entity - 1;
            && p < |s.payments| && s.payments[p].status != Desk.InProgress
            && (Inbound(s, id, hash, received, cent).payments[p].status == Desk.InProgress <==>
                received >= s.book.txs[id].amount
                || (cent.Some? && received + cent.value >= s.book.txs[id].amount))
  {
    ActiveIsLatest(s, id);
  }
}
