/** Customer payments: choosing a method, locking, receiving, confirming, cancelling and expiring. */
module Checkout {
  import opened Outcomes
  import opened Ledger
  import Accounting
  import Desk

  /** A payment of a merchant's customer; its id is its position, and it belongs to transactions by that id. */
  datatype Payment = Payment(merchant: int, status: Desk.PaymentStatus)

  datatype Shop = Shop(book: Book, payments: seq<Payment>)

  /** What is offered to a customer who chooses a currency: the converted price and a fresh wallet. */
  datatype Offer = Offer(coin: Key, amount: int, serviceFee: int, wallet: int)

  /** GetLatestByPaymentID. */
  function Latest(txs: seq<Tx>, entity: int): (r: Option<nat>)
    ensures r.Some? ==> r.value < |txs| && txs[r.value].entity == entity
  {
    if txs == [] then None
    else if txs[|txs| - 1].entity == entity then Some(|txs| - 1)
    else Latest(txs[..|txs| - 1], entity)
  }

  function WithStatus(s: Shop, p: int, status: Desk.PaymentStatus): Shop {
    if 0 <= p < |s.payments| then s.(payments := s.payments[p := s.payments[p].(status := status)]) else s
  }

  function NewRecord(s: Shop, p: nat, key: Key, offer: Offer): Tx
    requires p < |s.payments|
  {
    Tx(Incoming, Pending, s.payments[p].merchant, DbId(p), None, Some(offer.wallet), key, offer.coin, offer.amount,
       offer.serviceFee, None, None, None)
  }

  function Open(s: Shop, p: nat, key: Key, offer: Option<Offer>): Shop
    requires p < |s.payments|
  {
    if offer.None? then s else s.(book := Accounting.Appended(s.book, NewRecord(s, p, key, offer.value)))
  }

  /** SetPaymentMethod; the offer is missing when prices or wallets are unavailable. */
  function Choose(s: Shop, p: nat, key: Key, offer: Option<Offer>): Shop {
    if p >= |s.payments| || s.payments[p].status != Desk.Pending then s
    else
      match Latest(s.book.txs, DbId(p))
      case None => Open(s, p, key, offer)
      case Some(i) =>
        if s.book.txs[i].status == Cancelled then Open(s, p, key, offer)
        else if s.book.txs[i].key == key || s.book.txs[i].recipient.None? then s
        else
          var cancelled := Cancel(s.book, i, Cancelled, None);
          if cancelled.Err? then s else Open(s.(book := cancelled.value), p, key, offer)
  }

  /** LockPaymentOptions. */
  function Lock(s: Shop, p: nat, customer: bool): Shop {
    if p < |s.payments| && s.payments[p].status == Desk.Pending && customer && Latest(s.book.txs, DbId(p)).Some?
    then WithStatus(s, p, Desk.Locked) else s
  }

  /** determineIncomingStatus; one cent in crypto is missing when it cannot be converted. */
  function IncomingStatus(received: int, expected: int, cent: Option<int>): Option<Status> {
    if received >= expected then Some(InProgress)
    else if cent.None? then None
    else if received + cent.value >= expected then Some(InProgress)
    else Some(InProgressInvalid)
  }

  /** The records an incoming webhook or a discovered payment is matched with. */
  predicate Awaits(tx: Tx) {
    tx.kind == Incoming && tx.status == Pending && tx.hash.None?
  }

  /** ProcessInboundTransaction. */
  function Inbound(s: Shop, id: nat, hash: string, received: int, cent: Option<int>): Shop {
    if id >= |s.book.txs| || !Awaits(s.book.txs[id]) then s
    else
      var status := IncomingStatus(received, s.book.txs[id].amount, cent);
      if status.None? then s
      else
        var book := Receive(s.book, id, status.value, hash, received);
        if book.Err? then s
        else if status.value != InProgress then s.(book := book.value)
        else WithStatus(s.(book := book.value), s.book.txs[id].entity - 1, Desk.InProgress)
  }

  predicate UnderWay(tx: Tx) {
    tx.kind == Incoming && (tx.status == InProgress || tx.status == InProgressInvalid)
  }

  /** confirmIncomingTransaction. */
  function Settle(s: Shop, id: nat, fee: int): Shop {
    if id >= |s.book.txs| || !UnderWay(s.book.txs[id]) || s.book.txs[id].hash.None? || s.book.txs[id].fact.None? then s
    else
      var tx := s.book.txs[id];
      var invalid := tx.status == InProgressInvalid;
      var c := Confirmation(if invalid then CompletedInvalid else Completed, tx.hash.value, tx.fact.value, fee, true);
      var book := Ledger.Confirm(s.book, id, c);
      if book.Err? then s
      else if tx.merchant == SYSTEM_MERCHANT then s.(book := book.value)
      else WithStatus(s.(book := book.value), tx.entity - 1, if invalid then Desk.Failed else Desk.Success)
  }

  /** cancelIncomingTransaction. */
  function Fail(s: Shop, id: nat): Shop {
    if id >= |s.book.txs| || !UnderWay(s.book.txs[id]) then s
    else
      var book := Cancel(s.book, id, Status.Failed, None);
      if book.Err? then s
      else if s.book.txs[id].merchant == SYSTEM_MERCHANT then s.(book := book.value)
      else WithStatus(s.(book := book.value), s.book.txs[id].entity - 1, Desk.Failed)
  }

  /** shouldDeferPaymentExpiry. */
  predicate Defers(tx: Tx, observed: bool) {
    tx.kind == Incoming && Accounting.Unfinished(tx) && (tx.hash.Some? || UnderWay(tx) || observed)
  }

  /** expirePayment. */
  function Expire(s: Shop, p: nat, observed: bool): Shop {
    if p >= |s.payments| || (s.payments[p].status != Desk.Pending && s.payments[p].status != Desk.Locked) then s
    else
      match Latest(s.book.txs, DbId(p))
      case None => WithStatus(s, p, Desk.Failed)
      case Some(i) =>
        if Defers(s.book.txs[i], observed) then s
        else if s.book.txs[i].status == Cancelled then WithStatus(s, p, Desk.Failed)
        else
          var book := Cancel(s.book, i, Cancelled, None);
          if book.Err? then s else WithStatus(s.(book := book.value), p, Desk.Failed)
  }

  // ----- the handlers -----

  class Service {
    const store: Store
    var payments: seq<Payment>

    constructor (store: Store)
      ensures this.store == store && payments == []
    {
      this.store := store;
      payments := [];
    }

    function Value(): Shop
      reads this, store
    {
      Shop(store.Value(), payments)
    }

    method UpdatePayment(p: int, status: Desk.PaymentStatus)
      modifies this`payments
      ensures Value() == WithStatus(old(Value()), p, status)
    {
      if 0 <= p < |payments| {
        payments := payments[p := payments[p].(status := status)];
      }
    }

    method CreateIncoming(p: nat, key: Key, offer: Option<Offer>)
      requires p < |payments|
      modifies store`txs
      ensures Value() == Open(old(Value()), p, key, offer)
    {
      if offer.Some? {
        var id := store.CreateTransaction(NewRecord(Value(), p, key, offer.value));
      }
    }

    method SetPaymentMethod(p: nat, key: Key, offer: Option<Offer>)
      modifies store
      ensures Value() == Choose(old(Value()), p, key, offer)
    {
      if p >= |payments| || payments[p].status != Desk.Pending {
        return;
      }
      var latest := Latest(store.txs, DbId(p));
      if latest.None? {
        CreateIncoming(p, key, offer);
        return;
      }
      var tx := store.txs[latest.value];
      if tx.status == Cancelled {
        CreateIncoming(p, key, offer);
        return;
      }
      if tx.key == key {
        return;
      }
      if tx.recipient.None? {
        return;
      }
      var error := store.CancelTransaction(latest.value, Cancelled, None);
      if error.Some? {
        return;
      }
      CreateIncoming(p, key, offer);
    }

    method LockPaymentOptions(p: nat, customer: bool)
      modifies this`payments
      ensures Value() == Lock(old(Value()), p, customer)
    {
      if p >= |payments| || payments[p].status != Desk.Pending {
        return;
      }
      if !customer || Latest(store.txs, DbId(p)).None? {
        return;
      }
      UpdatePayment(p, Desk.Locked);
    }

    method ProcessInbound(id: nat, hash: string, received: int, cent: Option<int>)
      modifies this`payments, store
      ensures Value() == Inbound(old(Value()), id, hash, received, cent)
    {
      if id >= |store.txs| || !Awaits(store.txs[id]) {
        return;
      }
      var tx := store.txs[id];
      var status := InProgressInvalid;
      if received == tx.amount || received > tx.amount {
        status := InProgress;
      } else {
        if cent.None? {
          return;
        }
        if received + cent.value >= tx.amount {
          status := InProgress;
        }
      }
      var error := store.ReceiveTransaction(id, status, hash, received);
      if error.Some? || status != InProgress {
        return;
      }
      UpdatePayment(tx.entity - 1, Desk.InProgress);
    }

    method ConfirmIncoming(id: nat, fee: int)
      modifies this`payments, store
      ensures Value() == Settle(old(Value()), id, fee)
    {
      if id >= |store.txs| || !UnderWay(store.txs[id]) || store.txs[id].hash.None? || store.txs[id].fact.None? {
        return;
      }
      var tx := store.txs[id];
      var txStatus, paymentStatus := Completed, Desk.Success;
      if tx.status == InProgressInvalid {
        txStatus, paymentStatus := CompletedInvalid, Desk.Failed;
      }
      var error := store.ConfirmTransaction(id, Confirmation(txStatus, tx.hash.value, tx.fact.value, fee, true));
      if error.Some? || tx.merchant == SYSTEM_MERCHANT {
        return;
      }
      UpdatePayment(tx.entity - 1, paymentStatus);
    }

    method CancelIncoming(id: nat)
      modifies this`payments, store
      ensures Value() == Fail(old(Value()), id)
    {
      if id >= |store.txs| || !UnderWay(store.txs[id]) {
        return;
      }
      var tx := store.txs[id];
      var error := store.CancelTransaction(id, Status.Failed, None);
      if error.Some? || tx.merchant == SYSTEM_MERCHANT {
        return;
      }
      UpdatePayment(tx.entity - 1, Desk.Failed);
    }

    method ExpirePayment(p: nat, observed: bool)
      modifies this`payments, store
      ensures Value() == Expire(old(Value()), p, observed)
    {
      if p >= |payments| || (payments[p].status != Desk.Pending && payments[p].status != Desk.Locked) {
        return;
      }
      var latest := Latest(store.txs, DbId(p));
      if latest.Some? {
        if Defers(store.txs[latest.value], observed) {
          return;
        }
        if store.txs[latest.value].status != Cancelled {
          var error := store.CancelTransaction(latest.value, Cancelled, None);
          if error.Some? {
            return;
          }
        }
      }
      UpdatePayment(p, Desk.Failed);
    }
  }
}
