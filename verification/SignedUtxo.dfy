/** Reserving, signing and attaching a UTXO transaction, with a bounded number of attempts. */
module SignedUtxo {
  import opened Outcomes
  import Fees
  import opened Money
  import opened Selection
  import Optimality
  import opened Planner
  import opened Reservations
  import Protocol
  import Signer
  import Sorting

  /** What the environment does during one attempt; the database may refuse to list or to insert. */
  datatype Attempt = Attempt(
    source: Source, now: int, listable: bool, insertable: bool, kmsAvailable: bool, attachFailsAfter: Option<nat>)

  /** The transfer to sign; a sweep has no amount of its own. */
  datatype Order = Payment(amount: Money) | WholeWallet

  /** The parties of a transfer and the fee quote it uses. */
  datatype Parties = Parties(owner: Owner, sender: string, recipient: string, quote: Quote)

  function PlanFor(p: Parties, order: Order, source: Source, excluded: set<UtxoKey>): Outcome<Plan> {
    match order
    case Payment(amount) => Transaction(p.quote, p.sender, p.recipient, amount, source, excluded)
    case WholeWallet => SweepTransaction(p.quote, p.sender, p.recipient, source, excluded)
  }

  function InputKeys(inputs: seq<Utxo>): seq<UtxoKey> {
    seq(|inputs|, i requires 0 <= i < |inputs| => inputs[i].Key())
  }

  /** The plan of an attempt that starts from the given table. */
  function PlanOfAttempt(rows: seq<Row>, p: Parties, order: Order, a: Attempt): Outcome<Plan> {
    PlanFor(p, order, a.source, VisibleKeys(rows, p.owner, a.now))
  }

  /** The attempt plans on an output that another live reservation blocks. */
  predicate Conflicts(rows: seq<Row>, p: Parties, order: Order, a: Attempt) {
    var plan := PlanOfAttempt(rows, p, order, a);
    a.listable && a.insertable && plan.Ok?
    && ReserveAll(rows, p.owner, InputKeys(plan.value.inputs), a.now + TTL_MINUTES).None?
  }

  /** The table grew by one row per key, all with the same transaction and status. */
  ghost predicate Extended(
    before: seq<Row>, after: seq<Row>, owner: Owner, keys: seq<UtxoKey>, raw: Option<RawTx>, status: Status)
  {
    && before <= after && |after| == |before| + |keys|
    && forall i | |before| <= i < |after| ::
         && after[i].owner == owner && after[i].key == keys[i - |before|]
         && after[i].raw == raw && after[i].status == status
  }

  /** The table may have grown, but only by released rows. */
  ghost predicate NothingReserved(before: seq<Row>, after: seq<Row>) {
    before <= after && forall i | |before| <= i < |after| :: after[i].status == Released
  }

  /** A result of signing: reserved inputs that carry the signed transaction of an accepted plan. */
  ghost predicate SignedFrom(
    before: seq<Row>, after: seq<Row>, p: Parties, order: Order, a: Attempt, raw: RawTx, plan: Plan)
  {
    && PlanOfAttempt(before, p, order, a) == Ok(plan)
    && raw == RawTx(p.owner, InputKeys(plan.inputs), plan.outputs)
    && (forall k | k in raw.inputs :: !Blocked(before, p.owner, k))
    && Extended(before, after, p.owner, raw.inputs, Some(raw), Reserved)
  }

  /** The first `n` attempts all run into conflicts. */
  ghost predicate OnlyConflicts(rows: seq<Row>, p: Parties, order: Order, attempts: seq<Attempt>, n: nat)
    requires n <= |attempts|
  {
    forall i | 0 <= i < n :: Conflicts(rows, p, order, attempts[i])
  }

  /** The environment lets the reserved plan be signed and attached. */
  predicate Signs(plan: Plan, p: Parties, a: Attempt) {
    && Signer.Refusal(plan.inputs, plan.outputs, p.sender, a.source.validAddress).None? && a.kmsAvailable
    && (a.attachFailsAfter.None? || a.attachFailsAfter.value >= |plan.inputs|)
  }

  /** An attempt finds a plan, and it can be signed. */
  predicate PlanIsSigned(rows: seq<Row>, p: Parties, order: Order, a: Attempt) {
    var plan := PlanOfAttempt(rows, p, order, a);
    a.listable && a.insertable && plan.Ok? && Signs(plan.value, p, a)
  }

  /** Attempt `i` is the first one without a conflict, and its plan can be signed. */
  ghost predicate SignsAt(rows: seq<Row>, p: Parties, order: Order, attempts: seq<Attempt>, i: nat)
    requires i < |attempts|
  {
    && OnlyConflicts(rows, p, order, attempts, i) && !Conflicts(rows, p, order, attempts[i])
    && PlanIsSigned(rows, p, order, attempts[i])
  }

  /** The attempt cannot be planned for lack of funds. */
  predicate LacksFunds(rows: seq<Row>, p: Parties, order: Order, a: Attempt) {
    a.listable && PlanOfAttempt(rows, p, order, a) == Err(InsufficientFunds)
  }

  /** The first attempt without a conflict lacks the funds. */
  ghost predicate Unfunded(rows: seq<Row>, p: Parties, order: Order, attempts: seq<Attempt>) {
    exists i | 0 <= i < |attempts| ::
      OnlyConflicts(rows, p, order, attempts, i) && LacksFunds(rows, p, order, attempts[i])
  }

  /** Sign a reserved plan and attach the transaction to its rows, or release them again. */
  method SignReserved(table: Table, ghost before: seq<Row>, ids: seq<nat>, p: Parties, plan: Plan, a: Attempt)
    returns (r: Outcome<RawTx>)
    requires Extended(before, table.rows, p.owner, InputKeys(plan.inputs), None, Reserved)
    requires ids == NewIds(|before|, |plan.inputs|)
    modifies table
    ensures r.Ok? <==> Signs(plan, p, a)
    ensures r.Ok? ==> r.value == RawTx(p.owner, InputKeys(plan.inputs), plan.outputs)
                      && Extended(before, table.rows, p.owner, r.value.inputs, Some(r.value), Reserved)
    ensures r.Err? ==> NothingReserved(before, table.rows) && r.error != InsufficientFunds
    ensures RawMatches(before) ==> RawMatches(table.rows)
  {
    var keys := InputKeys(plan.inputs);
    ghost var reserved := table.rows;
    var refusal := Signer.Validate(plan.inputs, plan.outputs, p.sender, a.source.validAddress);
    if refusal.Some? || !a.kmsAvailable {
      ExtendedMatch(before, reserved, p.owner, keys, None, Reserved);
      ReleasedRows(before, reserved, keys, |keys|);
      table.ReleaseIds(ids);
      return Err(if refusal.Some? then refusal.value else Unavailable);
    }
    var raw := RawTx(p.owner, keys, plan.outputs);
    var attached :=
      if a.attachFailsAfter.Some? && a.attachFailsAfter.value < |keys| then a.attachFailsAfter.value else |keys|;
    AttachedRows(before, reserved, p.owner, keys, raw, attached);
    AttachedMatch(before, reserved, p.owner, keys, raw, attached);
    table.AttachRaw(ids[..attached], raw);
    if attached < |keys| {
      ReleasedRows(before, table.rows, keys, |keys|);
      table.ReleaseIds(ids);
      return Err(Unavailable);
    }
    return Ok(raw);
  }

  /** The plan of one attempt, for a payment or for a sweep. */
  method Prepare(p: Parties, order: Order, source: Source, excluded: seq<UtxoKey>) returns (plan: Outcome<Plan>)
    ensures plan == PlanFor(p, order, source, set k | k in excluded)
  {
    match order {
      case WholeWallet => plan := PrepareSweep(p.quote, p.sender, p.recipient, source, excluded);
      case Payment(amount) => plan := PrepareTransaction(p.quote, p.sender, p.recipient, amount, source, excluded);
    }
  }

  /** Reserve the inputs of a plan and sign it; nothing is returned when a live reservation is in the way. */
  method ReserveAndSign(table: Table, p: Parties, plan: Plan, a: Attempt) returns (r: Option<Outcome<RawTx>>)
    modifies table
    ensures r.None? <==> ReserveAll(old(table.rows), p.owner, InputKeys(plan.inputs), a.now + TTL_MINUTES).None?
    ensures r.None? ==> table.rows == old(table.rows)
    ensures r.Some? ==> (r.value.Ok? <==> Signs(plan, p, a))
    ensures r.Some? && r.value.Ok? ==>
              && r.value.value == RawTx(p.owner, InputKeys(plan.inputs), plan.outputs)
              && (forall k | k in r.value.value.inputs :: !Blocked(old(table.rows), p.owner, k))
              && Extended(
                   old(table.rows), table.rows, p.owner, r.value.value.inputs, Some(r.value.value), Reserved)
    ensures r.Some? && r.value.Err? ==>
              NothingReserved(old(table.rows), table.rows) && r.value.error != InsufficientFunds
    ensures RawMatches(old(table.rows)) ==> RawMatches(table.rows)
  {
    ghost var before := table.rows;
    var keys := InputKeys(plan.inputs);
    var ids := table.ReserveUtxos(p.owner, keys, a.now + TTL_MINUTES);
    if ids.None? {
      return None;
    }
    ReservationExtends(before, p.owner, keys, a.now + TTL_MINUTES);
    var raw := SignReserved(table, before, ids.value, p, plan, a);
    return Some(raw);
  }

  /** One attempt; nothing is returned when another worker's live reservation got in the way. */
  method TryOnce(table: Table, p: Parties, order: Order, a: Attempt) returns (r: Option<Outcome<(RawTx, Plan)>>)
    modifies table
    ensures r.None? <==> Conflicts(old(table.rows), p, order, a)
    ensures r.None? ==> table.rows == old(table.rows)
    ensures r.Some? && r.value.Err? ==> NothingReserved(old(table.rows), table.rows)
    ensures r.Some? && r.value.Ok? ==>
              SignedFrom(old(table.rows), table.rows, p, order, a, r.value.value.0, r.value.value.1)
    ensures r.Some? ==> (r.value.Ok? <==> PlanIsSigned(old(table.rows), p, order, a))
    ensures r == Some(Err(InsufficientFunds)) <==> LacksFunds(old(table.rows), p, order, a)
    ensures RawMatches(old(table.rows)) ==> RawMatches(table.rows)
  {
    if !a.listable {
      return Some(Err(Unavailable));
    }
    ghost var before := table.rows;
    var excluded := table.ListActive(p.owner, a.now);
    var plan := Prepare(p, order, a.source, excluded);
    assert plan == PlanOfAttempt(before, p, order, a);
    if plan.Err? {
      return Some(Err(plan.error));
    }
    if !a.insertable {
      return Some(Err(Unavailable));
    }
    var raw := ReserveAndSign(table, p, plan.value, a);
    if raw.None? {
      return None;
    }
    return Some(if raw.value.Ok? then Ok((raw.value.value, plan.value)) else Err(raw.value.error));
  }

  /** An attempt with a conflict moves on to the next one; any other attempt is the last. */
  lemma OneMoreAttempt(rows: seq<Row>, p: Parties, order: Order, attempts: seq<Attempt>, n: nat)
    requires n < |attempts| && OnlyConflicts(rows, p, order, attempts, n)
    ensures Conflicts(rows, p, order, attempts[n]) ==> OnlyConflicts(rows, p, order, attempts, n + 1)
    ensures !Conflicts(rows, p, order, attempts[n]) ==>
              forall i | 0 <= i < |attempts| ::
                SignsAt(rows, p, order, attempts, i) <==> i == n && PlanIsSigned(rows, p, order, attempts[n])
    ensures !Conflicts(rows, p, order, attempts[n]) ==> !OnlyConflicts(rows, p, order, attempts, |attempts|)
    ensures !Conflicts(rows, p, order, attempts[n]) ==>
              (Unfunded(rows, p, order, attempts) <==> LacksFunds(rows, p, order, attempts[n]))
  {
  }

  /** What cannot be planned for lack of funds is not signed. */
  lemma UnfundedIsUnsigned(rows: seq<Row>, p: Parties, order: Order, attempts: seq<Attempt>)
    requires Unfunded(rows, p, order, attempts)
    ensures forall i | 0 <= i < |attempts| :: !SignsAt(rows, p, order, attempts, i)
  {
  }

  /** Attempts that all conflict lack no funds. */
  lemma ConflictsAreFunded(rows: seq<Row>, p: Parties, order: Order, attempts: seq<Attempt>)
    requires OnlyConflicts(rows, p, order, attempts, |attempts|)
    ensures !Unfunded(rows, p, order, attempts)
  {
  }

  /** createSignedBitcoinTransaction: the first attempt without a conflict decides. */
  method CreateSignedUtxo(table: Table, p: Parties, order: Order, attempts: seq<Attempt>)
    returns (r: Outcome<(RawTx, Plan)>)
    requires |attempts| == ATTEMPTS
    modifies table
    ensures r.Err? ==> NothingReserved(old(table.rows), table.rows)
    ensures r.Ok? ==> exists i | 0 <= i < ATTEMPTS ::
                        && SignsAt(old(table.rows), p, order, attempts, i)
                        && SignedFrom(old(table.rows), table.rows, p, order, attempts[i], r.value.0, r.value.1)
    ensures r.Err? ==> forall i | 0 <= i < ATTEMPTS :: !SignsAt(old(table.rows), p, order, attempts, i)
    ensures OnlyConflicts(old(table.rows), p, order, attempts, ATTEMPTS) ==> r == Err(ReservationConflict)
    ensures r == Err(InsufficientFunds) <==> Unfunded(old(table.rows), p, order, attempts)
    ensures RawMatches(old(table.rows)) ==> RawMatches(table.rows)
  {
    ghost var before := table.rows;
    for attempt := 0 to ATTEMPTS
      invariant table.rows == before
      invariant OnlyConflicts(before, p, order, attempts, attempt)
    {
      var tried := TryOnce(table, p, order, attempts[attempt]);
      OneMoreAttempt(before, p, order, attempts, attempt);
      if tried.Some? {
        return tried.value;
      }
    }
    ConflictsAreFunded(before, p, order, attempts);
    return Err(ReservationConflict);
  }

  lemma ReservationExtends(before: seq<Row>, owner: Owner, keys: seq<UtxoKey>, expiresAt: int)
    requires ReserveAll(before, owner, keys, expiresAt).Some?
    ensures Extended(before, ReserveAll(before, owner, keys, expiresAt).value, owner, keys, None, Reserved)
    ensures forall k | k in keys :: !Blocked(before, owner, k)
  {
    ReservedRows(before, owner, keys, expiresAt);
    ReservableExactly(before, owner, keys, expiresAt);
    var after := ReserveAll(before, owner, keys, expiresAt).value;
    forall i | |before| <= i < |after| ensures after[i] == Fresh(owner, keys[i - |before|], expiresAt) {
      assert after[|before| + (i - |before|)] == Fresh(owner, keys[i - |before|], expiresAt);
    }
  }

  /** Attaching touches exactly the first `n` of the new rows. */
  lemma {:induction false} AttachedRows(
    before: seq<Row>, reserved: seq<Row>, owner: Owner, keys: seq<UtxoKey>, raw: RawTx, n: nat)
    requires n <= |keys| && Extended(before, reserved, owner, keys, None, Reserved)
    ensures var after := AttachAll(reserved, NewIds(|before|, |keys|)[..n], raw);
            && before <= after && |after| == |reserved|
            && forall i | |before| <= i < |after| ::
                 after[i] == reserved[i].(raw := if i < |before| + n then Some(raw) else None)
  {
    if n > 0 {
      AttachedRows(before, reserved, owner, keys, raw, n - 1);
      assert NewIds(|before|, |keys|)[..n][..n - 1] == NewIds(|before|, |keys|)[..n - 1];
    } else {
      assert NewIds(|before|, |keys|)[..n] == [];
    }
  }

  /** Appended rows that carry no transaction or their own one match it. */
  lemma ExtendedMatch(
    before: seq<Row>, after: seq<Row>, owner: Owner, keys: seq<UtxoKey>, raw: Option<RawTx>, status: Status)
    requires Extended(before, after, owner, keys, raw, status)
    requires raw.Some? ==> raw.value.owner == owner && raw.value.inputs == keys
    ensures RawMatches(before) ==> RawMatches(after)
  {
  }

  /** New rows match whatever part of them carries the transaction. */
  lemma AttachedMatch(before: seq<Row>, reserved: seq<Row>, owner: Owner, keys: seq<UtxoKey>, raw: RawTx, n: nat)
    requires n <= |keys| && Extended(before, reserved, owner, keys, None, Reserved)
    requires raw.owner == owner && raw.inputs == keys
    ensures RawMatches(before) ==> RawMatches(AttachAll(reserved, NewIds(|before|, |keys|)[..n], raw))
  {
    AttachedRows(before, reserved, owner, keys, raw, n);
  }

  /** Releasing settles exactly the first `n` of the new rows. */
  lemma {:induction false} ReleasedRows(
    before: seq<Row>, held: seq<Row>, keys: seq<UtxoKey>, n: nat)
    requires n <= |keys| && before <= held && |held| == |before| + |keys|
    requires forall i | |before| <= i < |held| :: held[i].status == Reserved
    ensures var after := ReleaseAll(held, NewIds(|before|, |keys|)[..n]);
            && before <= after && |after| == |held|
            && forall i | |before| <= i < |held| ::
                 after[i] == held[i].(status := if i < |before| + n then Released else Reserved)
    ensures n == |keys| ==> NothingReserved(before, ReleaseAll(held, NewIds(|before|, |keys|)))
    ensures n == |keys| && RawMatches(held) ==> RawMatches(ReleaseAll(held, NewIds(|before|, |keys|)))
  {
    if n > 0 {
      ReleasedRows(before, held, keys, n - 1);
      assert NewIds(|before|, |keys|)[..n][..n - 1] == NewIds(|before|, |keys|)[..n - 1];
    } else {
      assert NewIds(|before|, |keys|)[..n] == [];
    }
    assert NewIds(|before|, |keys|)[..|keys|] == NewIds(|before|, |keys|);
    if n == |keys| && RawMatches(held) {
      SameRawsMatch(held, ReleaseAll(held, NewIds(|before|, |keys|)));
    }
  }

  /** A statement addressed by the signed transaction settles exactly its own new rows. */
  lemma SettledByRaw(before: seq<Row>, after: seq<Row>, raw: RawTx, status: Status)
    requires RawMatches(before) && (forall k | k in raw.inputs :: !Blocked(before, raw.owner, k))
    requires Extended(before, after, raw.owner, raw.inputs, Some(raw), Reserved)
    ensures Extended(before, SetByRaw(after, raw.owner, raw, status), raw.owner, raw.inputs, Some(raw), status)
  {
    forall i | 0 <= i < |before| ensures !Addressed(after[i], raw.owner, raw) {
      assert after[i] == before[i] && before[i] in before;
    }
    var settled := SetByRaw(after, raw.owner, raw, status);
    assert forall i | 0 <= i < |before| :: settled[i] == before[i];
    forall i | |before| <= i < |after|
      ensures settled[i].key == raw.inputs[i - |before|] && settled[i].owner == raw.owner
      ensures settled[i].raw == Some(raw) && settled[i].status == status
    {
      assert after[i].raw == Some(raw);
    }
  }

  /** The live reservations of every wallet are the same as before. */
  lemma SameLiveKeys(before: seq<Row>, after: seq<Row>)
    requires NothingReserved(before, after)
    ensures forall owner :: LiveKeys(after, owner) == LiveKeys(before, owner)
  {
    forall row | row in after && Live(row) ensures row in before {
      var i :| 0 <= i < |after| && after[i] == row;
      assert i < |before| && before[i] == row;
    }
    forall row | row in before ensures row in after {
      var i :| 0 <= i < |before| && before[i] == row;
      assert after[i] == row;
    }
  }

  // ----- the planner inside the protocol -----

  /** The explorer lists only outputs of the wallet that asks. */
  ghost predicate HonestListing(holder: Protocol.Holder, owner: Owner, source: Source) {
    source.listing.Ok? ==> forall l | l in source.listing.value && Usable(l) ::
      holder(owner.isTest, UtxoKey(l.txId, l.vout)) == owner.wallet
  }

  lemma {:induction false} CollectedOwned(holder: Protocol.Holder, owner: Owner, listing: seq<Listed>, address: string)
    requires forall l | l in listing && Usable(l) :: holder(owner.isTest, UtxoKey(l.txId, l.vout)) == owner.wallet
    ensures forall u | u in Collect(listing, address) :: holder(owner.isTest, u.Key()) == owner.wallet
  {
    if listing != [] {
      var k := |listing| - 1;
      assert listing == listing[..k] + [listing[k]];
      CollectedOwned(holder, owner, listing[..k], address);
    }
  }

  /** Everything a plan spends was listed for its sender. */
  lemma PlanInputsAreCandidates(p: Parties, order: Order, source: Source, excluded: set<UtxoKey>)
    requires PlanFor(p, order, source, excluded).Ok?
    ensures source.listing.Ok?
    ensures forall u | u in PlanFor(p, order, source, excluded).value.inputs ::
              u in Candidates(p.sender, source, excluded).value
  {
    var utxos := Candidates(p.sender, source, excluded).value;
    AboveIsAbove(utxos, 0);
    if order.WholeWallet? {
      AboveIsAbove(utxos, Fees.FeeSats(Fees.INPUT_VBYTES, p.quote.rate.value));
    }
  }

  /**
   * Whatever a worker plans on an honest listing is a legal choice of the interleaving protocol:
   * every input is an output of its own wallet that no visible reservation covers.
   */
  lemma PlansAreLegalChoices(s: Protocol.State, holder: Protocol.Holder, p: Parties, order: Order, a: Attempt)
    requires a.now == s.now && HonestListing(holder, p.owner, a.source)
    requires PlanOfAttempt(s.rows, p, order, a).Ok?
    ensures Protocol.Plannable(s, holder, p.owner, InputKeys(PlanOfAttempt(s.rows, p, order, a).value.inputs))
  {
    var excluded, plan := VisibleKeys(s.rows, p.owner, s.now), PlanOfAttempt(s.rows, p, order, a).value;
    PlanConserves(p, order, a.source, excluded);
    PlanInputsAreCandidates(p, order, a.source, excluded);
    var listing := a.source.listing.value;
    CollectedOwned(holder, p.owner, listing, p.sender);
    SpendableIsSorted(listing, p.sender);
    WithoutKeeps(Spendable(listing, p.sender), excluded);
    var keys := InputKeys(plan.inputs);
    assert |keys| == |plan.inputs| > 0;
    forall k | k in keys
      ensures holder(p.owner.isTest, k) == p.owner.wallet && k !in excluded
    {
      var i :| 0 <= i < |keys| && keys[i] == k;
      assert plan.inputs[i] in plan.inputs;
      assert plan.inputs[i] in multiset(Spendable(listing, p.sender));
    }
  }

  lemma PlanConserves(p: Parties, order: Order, source: Source, excluded: set<UtxoKey>)
    requires PlanFor(p, order, source, excluded).Ok?
    ensures Conserves(PlanFor(p, order, source, excluded).value, p.sender, excluded)
  {
    match order
    case Payment(amount) => TransactionConserves(p.quote, p.sender, p.recipient, amount, source, excluded);
    case WholeWallet => SweepConserves(p.quote, p.sender, p.recipient, source, excluded);
  }

  /** A reserved plan is signed unless the key service or the database fails: the signer never refuses it. */
  lemma PlansAreNeverRefused(rows: seq<Row>, p: Parties, order: Order, a: Attempt)
    requires PlanOfAttempt(rows, p, order, a).Ok?
    ensures var plan := PlanOfAttempt(rows, p, order, a).value;
            Signs(plan, p, a) <==>
            a.kmsAvailable && (a.attachFailsAfter.None? || a.attachFailsAfter.value >= |plan.inputs|)
  {
    var excluded := VisibleKeys(rows, p.owner, a.now);
    match order
    case Payment(amount) => Signer.TransactionIsSignable(p.quote, p.sender, p.recipient, amount, a.source, excluded);
    case WholeWallet => Signer.SweepIsSignable(p.quote, p.sender, p.recipient, a.source, excluded);
  }

  // ----- when an attempt conflicts -----

  /** One of these outputs has a reservation that has expired but is still in the table. */
  ghost predicate Stale(rows: seq<Row>, owner: Owner, now: int, keys: seq<UtxoKey>) {
    exists row | row in rows :: row.owner == owner && row.status == Reserved && row.expiresAt <= now && row.key in keys
  }

  /**
   * A planned attempt conflicts exactly when the listing repeats one of its inputs or an expired
   * reservation still covers one.
   */
  lemma ConflictsExactly(rows: seq<Row>, p: Parties, order: Order, a: Attempt)
    requires a.listable && a.insertable && PlanOfAttempt(rows, p, order, a).Ok?
    ensures var keys := InputKeys(PlanOfAttempt(rows, p, order, a).value.inputs);
            Conflicts(rows, p, order, a) <==> !AllDistinct(keys) || Stale(rows, p.owner, a.now, keys)
  {
    var keys := InputKeys(PlanOfAttempt(rows, p, order, a).value.inputs);
    PlanAvoidsVisible(rows, p, order, a);
    ReservableExactly(rows, p.owner, keys, a.now + TTL_MINUTES);
    BlockedIsStale(rows, p.owner, a.now, keys);
  }

  /** A plan never spends an output with a visible reservation. */
  lemma PlanAvoidsVisible(rows: seq<Row>, p: Parties, order: Order, a: Attempt)
    requires PlanOfAttempt(rows, p, order, a).Ok?
    ensures var keys := InputKeys(PlanOfAttempt(rows, p, order, a).value.inputs);
            forall k | k in keys :: k !in VisibleKeys(rows, p.owner, a.now)
  {
    var excluded, plan := VisibleKeys(rows, p.owner, a.now), PlanOfAttempt(rows, p, order, a).value;
    var keys := InputKeys(plan.inputs);
    PlanConserves(p, order, a.source, excluded);
    forall k | k in keys ensures k !in excluded {
      var i :| 0 <= i < |keys| && keys[i] == k;
      assert plan.inputs[i] in plan.inputs;
    }
  }

  /** Among outputs without a visible reservation, the blocked ones are the stale ones. */
  lemma BlockedIsStale(rows: seq<Row>, owner: Owner, now: int, keys: seq<UtxoKey>)
    requires forall k | k in keys :: k !in VisibleKeys(rows, owner, now)
    ensures (exists k | k in keys :: Blocked(rows, owner, k)) <==> Stale(rows, owner, now, keys)
  {
    if k :| k in keys && Blocked(rows, owner, k) {
      var row :| row in rows && row.owner == owner && row.key == k && Live(row);
      assert !Visible(row, now);
    }
    if Stale(rows, owner, now, keys) {
      var row :| row in rows && row.owner == owner && row.status == Reserved && row.expiresAt <= now && row.key in keys;
      assert Blocked(rows, owner, row.key);
    }
  }

  /** Every payment plan spends the first, largest output it may spend. */
  lemma PaymentsSpendTheFirst(p: Parties, amount: Money, source: Source, excluded: set<UtxoKey>)
    requires PlanFor(p, Payment(amount), source, excluded).Ok?
    ensures var utxos := Candidates(p.sender, source, excluded).value;
            var inputs := PlanFor(p, Payment(amount), source, excluded).value.inputs;
            utxos != [] && inputs != [] && inputs[0] == utxos[0]
  {
    var utxos := Candidates(p.sender, source, excluded).value;
    CandidatesBelong(p.sender, source, excluded);
    Optimality.AboveKeepsAll(utxos, 0);
  }

  /**
   * While an expired reservation covers the first output a payment may spend, every attempt that
   * finds a plan conflicts.
   */
  lemma StaleFirstOutputConflicts(rows: seq<Row>, p: Parties, amount: Money, a: Attempt)
    requires a.listable && a.insertable && PlanOfAttempt(rows, p, Payment(amount), a).Ok?
    requires var utxos := Candidates(p.sender, a.source, VisibleKeys(rows, p.owner, a.now)).value;
             utxos != [] && Stale(rows, p.owner, a.now, [utxos[0].Key()])
    ensures Conflicts(rows, p, Payment(amount), a)
  {
    ConflictsExactly(rows, p, Payment(amount), a);
    PaymentsSpendTheFirst(p, amount, a.source, VisibleKeys(rows, p.owner, a.now));
    var keys := InputKeys(PlanOfAttempt(rows, p, Payment(amount), a).value.inputs);
    assert keys[0] in keys;
  }

  /** A retry finds the same stale output: all attempts that plan on it conflict, so the payment cannot be signed. */
  lemma RetryingStaleOutputFails(rows: seq<Row>, p: Parties, amount: Money, attempts: seq<Attempt>, n: nat)
    requires n <= |attempts| && forall i | 0 <= i < n :: PlansOnStaleOutput(rows, p, amount, attempts[i])
    ensures OnlyConflicts(rows, p, Payment(amount), attempts, n)
  {
    forall i | 0 <= i < n ensures Conflicts(rows, p, Payment(amount), attempts[i]) {
      StaleFirstOutputConflicts(rows, p, amount, attempts[i]);
    }
  }

  /** The attempt finds a plan although an expired reservation covers the first output it may spend. */
  ghost predicate PlansOnStaleOutput(rows: seq<Row>, p: Parties, amount: Money, a: Attempt) {
    && a.listable && a.insertable && PlanOfAttempt(rows, p, Payment(amount), a).Ok?
    && var utxos := Candidates(p.sender, a.source, VisibleKeys(rows, p.owner, a.now)).value;
       utxos != [] && Stale(rows, p.owner, a.now, [utxos[0].Key()])
  }

  // ----- such a payment -----

  predicate AnyAddress(address: string) { true }

  /** One output of 100000 satoshis, from which 50000 are to be paid at one satoshi per byte. */
  const LONE_OUTPUT := Listed("tx", 0, 100000, true, 1)
  const LONE_PAYMENT := Payment(Money(Crypto, "BTC", 50000, 8))

  function LoneParties(owner: Owner): Parties {
    Parties(owner, "sender", "recipient", Quote("BTC", "BTC", true, Some(1.0)))
  }

  function LoneAttempt(now: int): Attempt {
    Attempt(Source(AnyAddress, Ok([LONE_OUTPUT])), now, true, true, true, None)
  }

  lemma CollectOne(listed: Listed, address: string)
    requires Usable(listed)
    ensures Collect([listed], address) == [ToUtxo(listed, address)]
  {
    var listing := [listed];
    assert listing[..0] == [];
  }

  lemma SortOne(u: Utxo)
    ensures SortUtxos([u]) == [u]
  {
    var utxos := [u];
    assert utxos[..0] == [];
    assert Sorting.StableSort(utxos, Before) == Sorting.Insert(Sorting.StableSort(utxos[..0], Before), u, Before);
  }

  lemma KeepOne(u: Utxo, excluded: set<UtxoKey>)
    requires u.Key() !in excluded
    ensures Without([u], excluded) == [u]
  {
    var utxos := [u];
    assert utxos[..0] == [];
  }

  lemma LoneCandidate(owner: Owner, now: int, excluded: set<UtxoKey>)
    requires UtxoKey("tx", 0) !in excluded
    ensures Candidates("sender", LoneAttempt(now).source, excluded) == Ok([ToUtxo(LONE_OUTPUT, "sender")])
  {
    CollectOne(LONE_OUTPUT, "sender");
    SortOne(ToUtxo(LONE_OUTPUT, "sender"));
    KeepOne(ToUtxo(LONE_OUTPUT, "sender"), excluded);
  }

  lemma LoneFee(rate: real)
    requires rate == 1.0
    ensures Fees.TxFee(1, 1, rate) <= 50000
  {
    Fees.FeeIsLeastCover(109, rate);
  }

  lemma LoneSelection()
    ensures var utxo := ToUtxo(LONE_OUTPUT, "sender");
            Select([utxo], 50000, 1.0) == Ok(Settle([utxo], 50000, 1.0))
  {
    var utxos := [ToUtxo(LONE_OUTPUT, "sender")];
    assert utxos[..0] == [] && utxos[..1] == utxos;
    assert Above(utxos, 0) == utxos;
    assert Total(utxos) == 100000;
    LoneFee(1.0);
    assert Pays(utxos, 50000, 1.0);
  }

  lemma LonePlan(owner: Owner, rows: seq<Row>, now: int)
    requires UtxoKey("tx", 0) !in VisibleKeys(rows, owner, now)
    ensures var plan := PlanOfAttempt(rows, LoneParties(owner), LONE_PAYMENT, LoneAttempt(now));
            plan.Ok? && InputKeys(plan.value.inputs) == [UtxoKey("tx", 0)]
  {
    LoneCandidate(owner, now, VisibleKeys(rows, owner, now));
    LoneSelection();
  }

  /**
   * A worker reserves the output at time zero and stops. When its reservation has expired, every
   * retry of the payment plans on the output again and conflicts.
   */
  lemma StoppedWorkerBlocksPayment(owner: Owner) returns (rows: seq<Row>)
    ensures var plan := PlanOfAttempt([], LoneParties(owner), LONE_PAYMENT, LoneAttempt(0));
            plan.Ok? && ReserveAll([], owner, InputKeys(plan.value.inputs), TTL_MINUTES) == Some(rows)
    ensures forall now | now >= TTL_MINUTES ::
              && PlanOfAttempt(rows, LoneParties(owner), LONE_PAYMENT, LoneAttempt(now)).Ok?
              && Conflicts(rows, LoneParties(owner), LONE_PAYMENT, LoneAttempt(now))
  {
    var key := UtxoKey("tx", 0);
    rows := [Fresh(owner, key, TTL_MINUTES)];
    LonePlan(owner, [], 0);
    var keys := [key];
    assert keys[..0] == [] && ReserveAll([], owner, keys[..0], TTL_MINUTES) == Some([]);
    assert [] + [Fresh(owner, key, TTL_MINUTES)] == rows && !Blocked([], owner, key);
    forall now | now >= TTL_MINUTES
      ensures PlanOfAttempt(rows, LoneParties(owner), LONE_PAYMENT, LoneAttempt(now)).Ok?
      ensures Conflicts(rows, LoneParties(owner), LONE_PAYMENT, LoneAttempt(now))
    {
      LonePlan(owner, rows, now);
      assert rows[0] in rows;
      ConflictsExactly(rows, LoneParties(owner), LONE_PAYMENT, LoneAttempt(now));
    }
  }
}
