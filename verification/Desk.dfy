/** The stored state a transfer works on, and signing for chains with account nonces. */
module Desk {
  import opened Outcomes
  import opened Ledger
  import Nonces
  import Reservations

  datatype PaymentStatus = Pending | Locked | InProgress | Success | Failed

  /** The tables of the service and the nonce counters of the sending wallet. */
  class Tables {
    const store: Store
    const reservations: Reservations.Table
    const counters: Nonces.WalletCounters
    var payments: seq<PaymentStatus>

    constructor (store: Store, reservations: Reservations.Table, counters: Nonces.WalletCounters)
      ensures this.store == store && this.reservations == reservations && this.counters == counters
      ensures payments == []
    {
      this.store, this.reservations, this.counters := store, reservations, counters;
      payments := [];
    }

    method UpdatePayment(id: nat, status: PaymentStatus) returns (error: Option<Error>)
      modifies this`payments
      ensures id < |old(payments)| ==> error == None && payments == old(payments)[id := status]
      ensures id >= |old(payments)| ==> error == Some(Unavailable) && payments == old(payments)
    {
      if id >= |payments| {
        return Some(Unavailable);
      }
      payments := payments[id := status];
      return None;
    }

    /** CreateSignedTransaction for account chains: a nonce is taken, and given back when signing fails. */
    method SignWithNonce(isTest: bool, kmsAvailable: bool) returns (nonce: Option<nat>)
      modifies counters
      ensures counters.Of(!isTest) == old(counters.Of(!isTest))
      ensures kmsAvailable ==>
                nonce.Some? && (nonce.value, counters.Of(isTest)) == Nonces.Issue(old(counters.Of(isTest)))
      ensures !kmsAvailable ==> nonce == None && counters.Of(isTest) == old(counters.Of(isTest))
    {
      var taken := counters.IncrementPendingTransaction(isTest);
      if !kmsAvailable {
        var error := counters.DecrementPendingTransaction(isTest);
        return None;
      }
      return Some(taken);
    }
  }
}
