/** The pending and confirmed transaction counters from which account nonces are issued. */
module Nonces {
  import opened Outcomes

  /** The counters of one wallet on one network. */
  datatype Counters = Counters(confirmed: nat, pending: nat)

  datatype NonceError = NothingToConfirm | NothingToRollback

  datatype Updated = Updated(counters: Counters) | Refused(error: NonceError)

  function Issue(c: Counters): (nat, Counters) {
    (c.confirmed + c.pending, c.(pending := c.pending + 1))
  }

  function Confirm(c: Counters): Updated {
    if c.pending == 0 then Refused(NothingToConfirm)
    else Updated(Counters(c.confirmed + 1, c.pending - 1))
  }

  function Rollback(c: Counters): Updated {
    if c.pending == 0 then Refused(NothingToRollback)
    else Updated(c.(pending := c.pending - 1))
  }

  /** A wallet row: one pair of counters for the main network and one for the test network. */
  class WalletCounters {
    var mainnet: Counters
    var testnet: Counters

    constructor ()
      ensures mainnet == Counters(0, 0) && testnet == Counters(0, 0)
    {
      mainnet, testnet := Counters(0, 0), Counters(0, 0);
    }

    function Of(isTest: bool): Counters
      reads this
    {
      if isTest then testnet else mainnet
    }

    /** Returns the nonce of the next transaction. */
    method IncrementPendingTransaction(isTest: bool) returns (nonce: nat)
      modifies this
      ensures (nonce, Of(isTest)) == Issue(old(Of(isTest)))
      ensures Of(!isTest) == old(Of(!isTest))
    {
      if isTest {
        nonce := testnet.confirmed + testnet.pending;
        testnet := testnet.(pending := testnet.pending + 1);
      } else {
        nonce := mainnet.confirmed + mainnet.pending;
        mainnet := mainnet.(pending := mainnet.pending + 1);
      }
    }

    method IncrementConfirmedTransaction(isTest: bool) returns (error: Option<NonceError>)
      modifies this
      ensures match Confirm(old(Of(isTest)))
              case Updated(c) => error == None && Of(isTest) == c
              case Refused(e) => error == Some(e) && Of(isTest) == old(Of(isTest))
      ensures Of(!isTest) == old(Of(!isTest))
    {
      if isTest {
        if testnet.pending == 0 {
          return Some(NothingToConfirm);
        }
        testnet := Counters(testnet.confirmed + 1, testnet.pending - 1);
      } else {
        if mainnet.pending == 0 {
          return Some(NothingToConfirm);
        }
        mainnet := Counters(mainnet.confirmed + 1, mainnet.pending - 1);
      }
      return None;
    }

    method DecrementPendingTransaction(isTest: bool) returns (error: Option<NonceError>)
      modifies this
      ensures match Rollback(old(Of(isTest)))
              case Updated(c) => error == None && Of(isTest) == c
              case Refused(e) => error == Some(e) && Of(isTest) == old(Of(isTest))
      ensures Of(!isTest) == old(Of(!isTest))
    {
      if isTest {
        if testnet.pending == 0 {
          return Some(NothingToRollback);
        }
        testnet := testnet.(pending := testnet.pending - 1);
      } else {
        if mainnet.pending == 0 {
          return Some(NothingToRollback);
        }
        mainnet := mainnet.(pending := mainnet.pending - 1);
      }
      return None;
    }
  }

  // ----- runs -----

  /** A nonce is issued, or the transaction holding the given nonce is confirmed or rolled back. */
  datatype Event = Issued | Confirmed(nonce: nat) | RolledBack(nonce: nat)

  /** The counters, the nonces held by unfinished transactions, and every nonce ever issued. */
  datatype State = State(counters: Counters, outstanding: set<nat>, issued: seq<nat>)

  const INITIAL := State(Counters(0, 0), {}, [])

  /** Only the holder of an outstanding nonce can confirm it or roll it back. */
  ghost predicate Enabled(s: State, e: Event) {
    e.Issued? || e.nonce in s.outstanding
  }

  function Apply(s: State, e: Event): State {
    match e
    case Issued =>
      var (nonce, counters) := Issue(s.counters);
      State(counters, s.outstanding + {nonce}, s.issued + [nonce])
    case Confirmed(nonce) =>
      if Confirm(s.counters).Refused? then s
      else s.(counters := Confirm(s.counters).counters, outstanding := s.outstanding - {nonce})
    case RolledBack(nonce) =>
      if Rollback(s.counters).Refused? then s
      else s.(counters := Rollback(s.counters).counters, outstanding := s.outstanding - {nonce})
  }

  /** Every outstanding nonce lies in the window, and the window holds nothing else. */
  ghost predicate InWindow(s: State) {
    forall n: nat :: n in s.outstanding <==> s.counters.confirmed <= n < s.counters.confirmed + s.counters.pending
  }

  /** A confirmation takes the oldest outstanding nonce, a rollback the newest. */
  predicate InOrder(s: State, e: Event) {
    match e
    case Issued => true
    case Confirmed(nonce) => nonce == s.counters.confirmed
    case RolledBack(nonce) => nonce == s.counters.confirmed + s.counters.pending - 1
  }

  lemma ConfirmKeepsWindowExactly(s: State, nonce: nat)
    requires InWindow(s) && nonce in s.outstanding
    ensures InWindow(Apply(s, Confirmed(nonce))) <==> nonce == s.counters.confirmed
  {
    var t := Apply(s, Confirmed(nonce));
    var low, count := s.counters.confirmed, s.counters.pending;
    assert t == State(Counters(low + 1, count - 1), s.outstanding - {nonce}, s.issued);
    assert low in s.outstanding;
    assert low in t.outstanding <==> nonce != low;
  }

  lemma RollbackKeepsWindowExactly(s: State, nonce: nat)
    requires InWindow(s) && nonce in s.outstanding
    ensures InWindow(Apply(s, RolledBack(nonce))) <==> nonce == s.counters.confirmed + s.counters.pending - 1
  {
    var t := Apply(s, RolledBack(nonce));
    var low, count := s.counters.confirmed, s.counters.pending;
    assert t == State(Counters(low, count - 1), s.outstanding - {nonce}, s.issued);
    var newest: nat := low + count - 1;
    assert newest in s.outstanding;
    assert newest in t.outstanding <==> nonce != newest;
  }

  /** A step keeps the outstanding nonces equal to the window exactly when it is in order. */
  lemma StepKeepsWindowExactly(s: State, e: Event)
    requires InWindow(s) && Enabled(s, e)
    ensures InWindow(Apply(s, e)) <==> InOrder(s, e)
  {
    match e
    case Issued =>
    case Confirmed(nonce) => ConfirmKeepsWindowExactly(s, nonce);
    case RolledBack(nonce) => RollbackKeepsWindowExactly(s, nonce);
  }

  function Run(s: State, events: seq<Event>): State {
    if events == [] then s else Apply(Run(s, events[..|events| - 1]), events[|events| - 1])
  }

  ghost predicate Legal(s: State, events: seq<Event>) {
    forall i | 0 <= i < |events| :: Enabled(Run(s, events[..i]), events[i])
  }

  ghost predicate Orderly(s: State, events: seq<Event>) {
    forall i | 0 <= i < |events| :: InOrder(Run(s, events[..i]), events[i])
  }

  /** In every orderly run the outstanding nonces are exactly the window of the counters. */
  lemma {:induction false} OrderlyRunsKeepWindow(events: seq<Event>)
    requires Legal(INITIAL, events) && Orderly(INITIAL, events)
    ensures InWindow(Run(INITIAL, events))
  {
    if events != [] {
      var k := |events| - 1;
      assert forall i | 0 <= i < k :: events[..k][..i] == events[..i];
      OrderlyRunsKeepWindow(events[..k]);
      StepKeepsWindowExactly(Run(INITIAL, events[..k]), events[k]);
    }
  }

  /** Without rollbacks, whatever the order of confirmations, the issued nonces are 0, 1, 2, ... */
  lemma {:induction false} WithoutRollbacksConsecutive(events: seq<Event>)
    requires forall e | e in events :: !e.RolledBack?
    ensures var s := Run(INITIAL, events);
            && s.counters.confirmed + s.counters.pending == |s.issued|
            && forall i | 0 <= i < |s.issued| :: s.issued[i] == i
  {
    if events != [] {
      WithoutRollbacksConsecutive(events[..|events| - 1]);
    }
  }

  /**
   * After a rollback the next issued nonce is free exactly when the newest nonce was rolled
   * back; after any other rollback the wallet issues an outstanding nonce a second time.
   */
  lemma RollbackReissuesUnlessNewest(s: State, nonce: nat)
    requires InWindow(s) && nonce in s.outstanding
    ensures var t := Apply(s, RolledBack(nonce));
            Issue(t.counters).0 in t.outstanding <==> nonce != s.counters.confirmed + s.counters.pending - 1
  {
    var t := Apply(s, RolledBack(nonce));
    var newest: nat := s.counters.confirmed + s.counters.pending - 1;
    assert newest in s.outstanding && Issue(t.counters).0 == newest;
  }

  lemma RunOfThree(s: State, a: Event, b: Event, c: Event)
    ensures Run(s, [a, b, c]) == Apply(Apply(Apply(s, a), b), c)
  {
    var one, two, three := [a], [a, b], [a, b, c];
    assert one[..0] == [] && two[..1] == one && three[..2] == two;
    assert Run(s, one) == Apply(Run(s, one[..0]), a);
    assert Run(s, two) == Apply(Run(s, two[..1]), b);
  }

  /**
   * Such a run from any state without pending transactions, as `INITIAL`: two nonces are issued,
   * the holder of the first is rolled back, and the second, still outstanding, is issued again.
   */
  lemma OutstandingNonceIsReissued(s: State)
    requires s.counters.pending == 0
    ensures var first := s.counters.confirmed;
            var t := Run(s, [Issued, Issued, RolledBack(first)]);
            && first in Apply(Apply(s, Issued), Issued).outstanding
            && first + 1 in t.outstanding && Issue(t.counters).0 == first + 1
  {
    RunOfThree(s, Issued, Issued, RolledBack(s.counters.confirmed));
  }
}
