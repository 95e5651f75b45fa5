/**
 * Concurrent workers that reserve, sign, broadcast and settle UTXO transactions. Every database
 * statement and every network call is one step; steps of different workers interleave freely.
 */
module Protocol {
  import opened Outcomes
  import opened Selection
  import opened Planner
  import opened Reservations

  /** Where a worker stands; `ids` are the reservation rows it created. */
  datatype Phase =
    | Idle(attempt: nat)
    | Planned(attempt: nat, keys: seq<UtxoKey>)
    | Holding(ids: seq<nat>, keys: seq<UtxoKey>)
    | Attaching(ids: seq<nat>, raw: RawTx, done: nat)
    | Undoing(ids: seq<nat>, done: nat)
    | Ready(ids: seq<nat>, raw: RawTx)
    | Sent(ids: seq<nat>, raw: RawTx)
    | Finished

  datatype Worker = Worker(owner: Owner, phase: Phase)

  /** `chain` lists the transactions accepted by the network, in order. */
  datatype State = State(rows: seq<Row>, workers: seq<Worker>, chain: seq<RawTx>, now: int)

  datatype Action =
    | Choose(w: nat, keys: seq<UtxoKey>)
    | Reserve(w: nat)
    | Sign(w: nat, outputs: seq<Output>)
    | FailSigning(w: nat)
    | AttachNext(w: nat)
    | FailAttach(w: nat)
    | UndoNext(w: nat)
    | Broadcast(w: nat)
    | GiveUp(w: nat)
    | Mark(w: nat)
    | Crash(w: nat)
    | Restart(w: nat)
    | Tick

  /** The wallet that owns an output of the main (false) or the test network (true). */
  type Holder = (bool, UtxoKey) -> int

  /** A planner only sees outputs of the worker's own address and leaves out visible reservations. */
  predicate Plannable(s: State, holder: Holder, owner: Owner, keys: seq<UtxoKey>) {
    keys != [] && forall k | k in keys ::
      holder(owner.isTest, k) == owner.wallet && k !in VisibleKeys(s.rows, owner, s.now)
  }

  function Move(s: State, w: nat, phase: Phase): State
    requires w < |s.workers|
  {
    s.(workers := s.workers[w := s.workers[w].(phase := phase)])
  }

  function ReserveStep(s: State, w: nat): State
    requires w < |s.workers| && s.workers[w].phase.Planned?
  {
    var owner, p := s.workers[w].owner, s.workers[w].phase;
    match ReserveAll(s.rows, owner, p.keys, s.now + TTL_MINUTES)
    case Some(rows) => Move(s, w, Holding(NewIds(|s.rows|, |p.keys|), p.keys)).(rows := rows)
    case None => Move(s, w, if p.attempt + 1 < ATTEMPTS then Idle(p.attempt + 1) else Finished)
  }

  function AttachStep(s: State, w: nat): State
    requires w < |s.workers| && s.workers[w].phase.Attaching?
  {
    var p := s.workers[w].phase;
    if p.done < |p.ids|
    then Move(s, w, Attaching(p.ids, p.raw, p.done + 1)).(rows := Attach(s.rows, p.ids[p.done], p.raw))
    else Move(s, w, Ready(p.ids, p.raw))
  }

  function UndoStep(s: State, w: nat): State
    requires w < |s.workers| && s.workers[w].phase.Undoing?
  {
    var p := s.workers[w].phase;
    if p.done < |p.ids|
    then Move(s, w, Undoing(p.ids, p.done + 1)).(rows := Release(s.rows, p.ids[p.done]))
    else Move(s, w, Finished)
  }

  function SendStep(s: State, w: nat): State
    requires w < |s.workers| && s.workers[w].phase.Ready?
  {
    var p := s.workers[w].phase;
    Move(s, w, Sent(p.ids, p.raw)).(chain := s.chain + [p.raw])
  }

  /** Give the worker's transaction up, or mark it as broadcast. */
  function SettleStep(s: State, w: nat, status: Status): State
    requires w < |s.workers| && (s.workers[w].phase.Ready? || s.workers[w].phase.Sent?)
  {
    Move(s, w, Finished).(rows := SetByRaw(s.rows, s.workers[w].owner, s.workers[w].phase.raw, status))
  }

  /** One atomic step; an action that is not enabled changes nothing. */
  function Step(s: State, holder: Holder, a: Action): State {
    if a.Tick? then s.(now := s.now + 1)
    else if a.w >= |s.workers| then s
    else
      var owner, p := s.workers[a.w].owner, s.workers[a.w].phase;
      match a
      case Choose(w, keys) =>
        if p.Idle? && Plannable(s, holder, owner, keys) then Move(s, w, Planned(p.attempt, keys)) else s
      case Reserve(w) => if p.Planned? then ReserveStep(s, w) else s
      case Sign(w, outputs) =>
        if p.Holding? then Move(s, w, Attaching(p.ids, RawTx(owner, p.keys, outputs), 0)) else s
      case FailSigning(w) => if p.Holding? then Move(s, w, Undoing(p.ids, 0)) else s
      case AttachNext(w) => if p.Attaching? then AttachStep(s, w) else s
      case FailAttach(w) => if p.Attaching? then Move(s, w, Undoing(p.ids, 0)) else s
      case UndoNext(w) => if p.Undoing? then UndoStep(s, w) else s
      case Broadcast(w) => if p.Ready? then SendStep(s, w) else s
      case GiveUp(w) => if p.Ready? then SettleStep(s, w, Released) else s
      case Mark(w) => if p.Sent? then SettleStep(s, w, Broadcasted) else s
      case Crash(w) => Move(s, w, Finished)
      case Restart(w) => if p.Finished? then Move(s, w, Idle(0)) else s
      case Tick => s
  }

  // ----- invariant -----

  /** The rows a worker is still responsible for. */
  function Held(p: Phase): seq<nat> {
    match p
    case Holding(ids, _) => ids
    case Attaching(ids, _, _) => ids
    case Undoing(ids, done) => if done <= |ids| then ids[done..] else []
    case Ready(ids, _) => ids
    case Sent(ids, _) => ids
    case _ => []
  }

  /** The inputs of a transaction belong to the wallet that spends them. */
  ghost predicate Spends(holder: Holder, owner: Owner, keys: seq<UtxoKey>) {
    forall k | k in keys :: holder(owner.isTest, k) == owner.wallet
  }

  /** Row `id` is the reserved row of `owner` for `key`. */
  predicate Reserves(rows: seq<Row>, id: nat, owner: Owner, key: UtxoKey) {
    id < |rows| && rows[id].owner == owner && rows[id].key == key && rows[id].status == Reserved
  }

  ghost predicate ReservesAll(rows: seq<Row>, ids: seq<nat>, owner: Owner, keys: seq<UtxoKey>) {
    |ids| == |keys| && Distinct(ids) && forall i | 0 <= i < |ids| :: Reserves(rows, ids[i], owner, keys[i])
  }

  ghost predicate Attached(rows: seq<Row>, ids: seq<nat>, raw: RawTx, done: nat)
  {
    forall i | 0 <= i < |ids| && i < done :: ids[i] < |rows| && rows[ids[i]].raw == Some(raw)
  }

  predicate Distinct(ids: seq<nat>) {
    forall i, j | 0 <= i < j < |ids| :: ids[i] != ids[j]
  }

  /** What a worker may rely on about its own rows. */
  ghost predicate Backed(rows: seq<Row>, holder: Holder, worker: Worker) {
    var owner := worker.owner;
    match worker.phase
    case Idle(_) => true
    case Planned(_, keys) => Spends(holder, owner, keys)
    case Holding(ids, keys) => Spends(holder, owner, keys) && ReservesAll(rows, ids, owner, keys)
    case Attaching(ids, raw, done) =>
      raw.owner == owner && Spends(holder, owner, raw.inputs) && ReservesAll(rows, ids, owner, raw.inputs)
      && Attached(rows, ids, raw, done) && done <= |ids|
    case Undoing(ids, done) =>
      done <= |ids| && (forall id | id in ids :: id < |rows|) && Distinct(ids)
    case Ready(ids, raw) =>
      raw.owner == owner && Spends(holder, owner, raw.inputs) && ReservesAll(rows, ids, owner, raw.inputs)
      && Attached(rows, ids, raw, |ids|)
    case Sent(ids, raw) =>
      raw.owner == owner && Spends(holder, owner, raw.inputs) && ReservesAll(rows, ids, owner, raw.inputs)
      && Attached(rows, ids, raw, |ids|)
    case Finished => true
  }

  ghost predicate AllBacked(s: State, holder: Holder) {
    forall w | 0 <= w < |s.workers| :: Backed(s.rows, holder, s.workers[w])
  }

  /** No two workers are responsible for the same row. */
  ghost predicate DisjointHeld(s: State) {
    forall v, w, i | 0 <= v < |s.workers| && 0 <= w < |s.workers| && v != w && i in Held(s.workers[v].phase) ::
      i !in Held(s.workers[w].phase)
  }

  /** Row `i` cannot be released any more: nobody but the sender of its transaction holds it. */
  ghost predicate Pinned(s: State, i: nat) {
    forall w | 0 <= w < |s.workers| && i in Held(s.workers[w].phase) :: s.workers[w].phase.Sent?
  }

  /** Row `i` protects input `key` of the broadcast transaction `tx`. */
  ghost predicate Protects(s: State, i: nat, tx: RawTx, key: UtxoKey) {
    && i < |s.rows| && Live(s.rows[i]) && s.rows[i].owner == tx.owner && s.rows[i].key == key
    && s.rows[i].raw == Some(tx) && Pinned(s, i)
  }

  ghost predicate ChainProtected(s: State, holder: Holder) {
    forall t, k | 0 <= t < |s.chain| && k in s.chain[t].inputs ::
      holder(s.chain[t].owner.isTest, k) == s.chain[t].owner.wallet && exists i: nat :: Protects(s, i, s.chain[t], k)
  }

  /** No two broadcast transactions of one network spend the same output. */
  ghost predicate NoDoubleSpend(s: State) {
    forall t, u, k | 0 <= t < u < |s.chain| && s.chain[t].owner.isTest == s.chain[u].owner.isTest ::
      !(k in s.chain[t].inputs && k in s.chain[u].inputs)
  }

  ghost predicate Inv(s: State, holder: Holder) {
    && UniqueLive(s.rows) && RawMatches(s.rows)
    && AllBacked(s, holder) && DisjointHeld(s)
    && ChainProtected(s, holder) && NoDoubleSpend(s)
  }

  // ----- every step keeps the invariant -----

  /** A step of worker `w` that touches no rows but its own and the ones it appends. */
  ghost predicate Local(s: State, t: State, w: nat) {
    && w < |s.workers| == |t.workers| && t.chain == s.chain
    && (forall v | 0 <= v < |s.workers| && v != w :: t.workers[v] == s.workers[v])
    && t.workers[w].owner == s.workers[w].owner
    && |s.rows| <= |t.rows|
    && (forall i | 0 <= i < |s.rows| && i !in Held(s.workers[w].phase) :: t.rows[i] == s.rows[i])
    && (forall i | i in Held(t.workers[w].phase) :: i in Held(s.workers[w].phase) || |s.rows| <= i < |t.rows|)
    && (s.workers[w].phase.Sent? ==> Held(t.workers[w].phase) == [] && SameClaims(s.rows, t.rows))
  }

  /** Marking a row as broadcast changes neither what it reserves nor that it is live. */
  ghost predicate SameClaims(before: seq<Row>, after: seq<Row>) {
    |before| <= |after| && forall i | 0 <= i < |before| ::
      && after[i].owner == before[i].owner && after[i].key == before[i].key
      && after[i].raw == before[i].raw && Live(after[i]) == Live(before[i])
  }

  lemma HeldExist(s: State, holder: Holder, w: nat)
    requires AllBacked(s, holder) && w < |s.workers|
    ensures forall i | i in Held(s.workers[w].phase) :: i < |s.rows|
  {
    var p := s.workers[w].phase;
    assert Backed(s.rows, holder, s.workers[w]);
    forall i | i in Held(p) ensures i < |s.rows| {
      var j :| 0 <= j < |Held(p)| && Held(p)[j] == i;
      if p.Undoing? {
        assert i in p.ids;
      }
    }
  }

  /** A worker relies on nothing but its own rows. */
  lemma BackedByOwnRows(before: seq<Row>, after: seq<Row>, holder: Holder, worker: Worker)
    requires Backed(before, holder, worker) && |before| <= |after|
    requires forall i | i in Held(worker.phase) :: i < |before| && after[i] == before[i]
    ensures Backed(after, holder, worker)
  {
    match worker.phase
    case Idle(_) =>
    case Planned(_, _) =>
    case Holding(_, _) =>
    case Attaching(_, _, _) =>
    case Undoing(_, _) =>
    case Ready(_, _) =>
    case Sent(_, _) =>
    case Finished =>
  }

  lemma OthersStayBacked(s: State, t: State, holder: Holder, w: nat)
    requires Inv(s, holder) && Local(s, t, w) && Backed(t.rows, holder, t.workers[w])
    ensures AllBacked(t, holder)
  {
    forall v | 0 <= v < |t.workers| ensures Backed(t.rows, holder, t.workers[v]) {
      if v != w {
        HeldExist(s, holder, v);
        BackedByOwnRows(s.rows, t.rows, holder, s.workers[v]);
      }
    }
  }

  lemma HeldStaysDisjoint(s: State, t: State, holder: Holder, w: nat)
    requires Inv(s, holder) && Local(s, t, w)
    ensures DisjointHeld(t)
  {
    forall v, u, i | 0 <= v < |t.workers| && 0 <= u < |t.workers| && v != u && i in Held(t.workers[v].phase)
      ensures i !in Held(t.workers[u].phase)
    {
      HeldExist(s, holder, v);
      HeldExist(s, holder, u);
      if v == w {
        assert t.workers[u] == s.workers[u];
      } else {
        assert t.workers[v] == s.workers[v];
      }
    }
  }

  lemma ProtectionStays(s: State, t: State, holder: Holder, w: nat, i: nat, tx: RawTx, key: UtxoKey)
    requires Inv(s, holder) && Local(s, t, w) && Protects(s, i, tx, key)
    ensures Protects(t, i, tx, key)
  {
    if i in Held(s.workers[w].phase) {
      assert s.workers[w].phase.Sent?;
    }
    forall v | 0 <= v < |t.workers| && i in Held(t.workers[v].phase) ensures t.workers[v].phase.Sent? {
      assert v == w || t.workers[v] == s.workers[v];
    }
  }

  lemma LocalKeepsInvariant(s: State, t: State, holder: Holder, w: nat)
    requires Inv(s, holder) && Local(s, t, w) && Backed(t.rows, holder, t.workers[w])
    requires UniqueLive(t.rows) && RawMatches(t.rows)
    ensures Inv(t, holder)
  {
    OthersStayBacked(s, t, holder, w);
    HeldStaysDisjoint(s, t, holder, w);
    forall x, k | 0 <= x < |t.chain| && k in t.chain[x].inputs
      ensures holder(t.chain[x].owner.isTest, k) == t.chain[x].owner.wallet
      ensures exists i: nat :: Protects(t, i, t.chain[x], k)
    {
      var i: nat :| Protects(s, i, s.chain[x], k);
      ProtectionStays(s, t, holder, w, i, s.chain[x], k);
    }
  }

  lemma FewerLiveStayUnique(before: seq<Row>, after: seq<Row>)
    requires UniqueLive(before) && |after| == |before|
    requires forall i | 0 <= i < |before| :: after[i].owner == before[i].owner && after[i].key == before[i].key
                                            && (Live(after[i]) ==> Live(before[i]))
    ensures UniqueLive(after)
  {
  }

  lemma ChooseKeeps(s: State, holder: Holder, w: nat, keys: seq<UtxoKey>)
    requires Inv(s, holder)
    ensures Inv(Step(s, holder, Choose(w, keys)), holder)
  {
    var t := Step(s, holder, Choose(w, keys));
    if t != s {
      LocalKeepsInvariant(s, t, holder, w);
    }
  }

  lemma InsertKeepsTable(rows: seq<Row>, row: Row)
    requires UniqueLive(rows) && RawMatches(rows) && !Blocked(rows, row.owner, row.key) && row.raw.None?
    ensures UniqueLive(rows + [row]) && RawMatches(rows + [row])
  {
    assert forall i | 0 <= i < |rows| :: rows[i] in rows;
  }

  lemma {:induction false} ReservationKeepsTable(rows: seq<Row>, owner: Owner, keys: seq<UtxoKey>, expiresAt: int)
    requires UniqueLive(rows) && RawMatches(rows) && ReserveAll(rows, owner, keys, expiresAt).Some?
    ensures var after := ReserveAll(rows, owner, keys, expiresAt).value;
            UniqueLive(after) && RawMatches(after)
  {
    if keys != [] {
      var n := |keys| - 1;
      ReservationKeepsTable(rows, owner, keys[..n], expiresAt);
      InsertKeepsTable(ReserveAll(rows, owner, keys[..n], expiresAt).value, Fresh(owner, keys[n], expiresAt));
    }
  }

  /** The appended rows back the worker that appended them. */
  lemma ReservationBacks(rows: seq<Row>, owner: Owner, keys: seq<UtxoKey>, expiresAt: int)
    requires ReserveAll(rows, owner, keys, expiresAt).Some?
    ensures var after := ReserveAll(rows, owner, keys, expiresAt).value;
            && rows <= after && |after| == |rows| + |keys|
            && ReservesAll(after, NewIds(|rows|, |keys|), owner, keys)
  {
    ReservedRows(rows, owner, keys, expiresAt);
  }

  lemma ReserveKeeps(s: State, holder: Holder, w: nat)
    requires Inv(s, holder) && w < |s.workers| && s.workers[w].phase.Planned?
    ensures Inv(ReserveStep(s, w), holder)
  {
    var t := ReserveStep(s, w);
    var owner, keys := s.workers[w].owner, s.workers[w].phase.keys;
    assert Backed(s.rows, holder, s.workers[w]);
    var reserved := ReserveAll(s.rows, owner, keys, s.now + TTL_MINUTES);
    if reserved.Some? {
      ReservationBacks(s.rows, owner, keys, s.now + TTL_MINUTES);
      ReservationKeepsTable(s.rows, owner, keys, s.now + TTL_MINUTES);
      assert t.workers[w] == Worker(owner, Holding(NewIds(|s.rows|, |keys|), keys));
    }
    LocalKeepsInvariant(s, t, holder, w);
  }

  lemma SignKeeps(s: State, holder: Holder, w: nat, outputs: seq<Output>)
    requires Inv(s, holder)
    ensures Inv(Step(s, holder, Sign(w, outputs)), holder)
  {
    var t := Step(s, holder, Sign(w, outputs));
    if w < |s.workers| && s.workers[w].phase.Holding? {
      assert Backed(s.rows, holder, s.workers[w]);
      LocalKeepsInvariant(s, t, holder, w);
    }
  }

  lemma FailKeeps(s: State, holder: Holder, a: Action)
    requires Inv(s, holder) && (a.FailSigning? || a.FailAttach?)
    ensures Inv(Step(s, holder, a), holder)
  {
    var t := Step(s, holder, a);
    if t != s {
      assert Backed(s.rows, holder, s.workers[a.w]);
      HeldExist(s, holder, a.w);
      assert t.workers[a.w].phase.ids[0..] == t.workers[a.w].phase.ids;
      LocalKeepsInvariant(s, t, holder, a.w);
    }
  }

  lemma AttachKeeps(s: State, holder: Holder, w: nat)
    requires Inv(s, holder) && w < |s.workers| && s.workers[w].phase.Attaching?
    ensures Inv(AttachStep(s, w), holder)
  {
    var t := AttachStep(s, w);
    var p := s.workers[w].phase;
    assert Backed(s.rows, holder, s.workers[w]);
    HeldExist(s, holder, w);
    if p.done < |p.ids| {
      assert p.ids[p.done] in p.ids;
      assert Reserves(s.rows, p.ids[p.done], s.workers[w].owner, p.raw.inputs[p.done]);
      FewerLiveStayUnique(s.rows, t.rows);
    }
    LocalKeepsInvariant(s, t, holder, w);
  }

  lemma UndoKeeps(s: State, holder: Holder, w: nat)
    requires Inv(s, holder) && w < |s.workers| && s.workers[w].phase.Undoing?
    ensures Inv(UndoStep(s, w), holder)
  {
    var t := UndoStep(s, w);
    var p := s.workers[w].phase;
    assert Backed(s.rows, holder, s.workers[w]);
    HeldExist(s, holder, w);
    if p.done < |p.ids| {
      assert p.ids[p.done..] == [p.ids[p.done]] + p.ids[p.done + 1..];
      assert p.ids[p.done] in Held(p);
      FewerLiveStayUnique(s.rows, t.rows);
    }
    LocalKeepsInvariant(s, t, holder, w);
  }

  /** A live row for an input of a worker's signed transaction is a row that worker reserved. */
  lemma LiveInputIsHeld(s: State, holder: Holder, w: nat, i: nat)
    requires Inv(s, holder) && w < |s.workers| && i < |s.rows|
    requires s.workers[w].phase.Ready? || s.workers[w].phase.Sent?
    requires Live(s.rows[i]) && s.rows[i].owner == s.workers[w].owner
    requires s.rows[i].key in s.workers[w].phase.raw.inputs
    ensures i in Held(s.workers[w].phase)
  {
    var p := s.workers[w].phase;
    assert Backed(s.rows, holder, s.workers[w]);
    var k :| 0 <= k < |p.raw.inputs| && p.raw.inputs[k] == s.rows[i].key;
    assert Reserves(s.rows, p.ids[k], s.workers[w].owner, p.raw.inputs[k]);
    assert p.ids[k] == i;
  }

  /** A statement addressed by a worker's own transaction touches no row of anybody else. */
  lemma SettlesOwnRows(s: State, holder: Holder, w: nat, status: Status, i: nat)
    requires Inv(s, holder) && w < |s.workers| && i < |s.rows|
    requires s.workers[w].phase.Ready? || s.workers[w].phase.Sent?
    requires i !in Held(s.workers[w].phase)
    ensures SettleStep(s, w, status).rows[i] == s.rows[i]
  {
    if Addressed(s.rows[i], s.workers[w].owner, s.workers[w].phase.raw) {
      assert Backed(s.rows, holder, s.workers[w]);
      LiveInputIsHeld(s, holder, w, i);
    }
  }

  lemma SettleKeeps(s: State, holder: Holder, w: nat, status: Status)
    requires Inv(s, holder) && w < |s.workers|
    requires (s.workers[w].phase.Ready? && status == Released) || (s.workers[w].phase.Sent? && status == Broadcasted)
    ensures Inv(SettleStep(s, w, status), holder)
  {
    var t := SettleStep(s, w, status);
    forall i | 0 <= i < |s.rows| && i !in Held(s.workers[w].phase) ensures t.rows[i] == s.rows[i] {
      SettlesOwnRows(s, holder, w, status, i);
    }
    FewerLiveStayUnique(s.rows, t.rows);
    LocalKeepsInvariant(s, t, holder, w);
  }

  lemma RetireKeeps(s: State, holder: Holder, a: Action)
    requires Inv(s, holder) && (a.Crash? || a.Restart?)
    ensures Inv(Step(s, holder, a), holder)
  {
    var t := Step(s, holder, a);
    if t != s {
      LocalKeepsInvariant(s, t, holder, a.w);
    }
  }

  /** The rows of a transaction about to be sent cannot protect an earlier transaction. */
  lemma SendingConflictsWithNothing(s: State, holder: Holder, w: nat, x: nat, key: UtxoKey)
    requires Inv(s, holder) && w < |s.workers| && s.workers[w].phase.Ready? && x < |s.chain|
    requires s.chain[x].owner.isTest == s.workers[w].phase.raw.owner.isTest
    requires key in s.workers[w].phase.raw.inputs
    ensures key !in s.chain[x].inputs
  {
    if key in s.chain[x].inputs {
      assert Backed(s.rows, holder, s.workers[w]);
      var i: nat :| Protects(s, i, s.chain[x], key);
      LiveInputIsHeld(s, holder, w, i);
    }
  }

  /** A transaction that is sent is protected by the rows of its worker. */
  lemma SendingIsProtected(s: State, holder: Holder, w: nat, k: UtxoKey)
    requires Inv(s, holder) && w < |s.workers| && s.workers[w].phase.Ready? && k in s.workers[w].phase.raw.inputs
    ensures holder(s.workers[w].phase.raw.owner.isTest, k) == s.workers[w].phase.raw.owner.wallet
    ensures exists i: nat :: Protects(SendStep(s, w), i, s.workers[w].phase.raw, k)
  {
    var p, t := s.workers[w].phase, SendStep(s, w);
    assert Backed(s.rows, holder, s.workers[w]);
    var j :| 0 <= j < |p.raw.inputs| && p.raw.inputs[j] == k;
    assert Reserves(s.rows, p.ids[j], s.workers[w].owner, k);
    assert p.ids[j] in Held(p);
    assert Protects(t, p.ids[j], p.raw, k);
  }

  /** Sending keeps every earlier transaction protected. */
  lemma SendingProtectsEarlier(s: State, holder: Holder, w: nat, i: nat, tx: RawTx, k: UtxoKey)
    requires Inv(s, holder) && w < |s.workers| && s.workers[w].phase.Ready? && Protects(s, i, tx, k)
    ensures Protects(SendStep(s, w), i, tx, k)
  {
    var t := SendStep(s, w);
    forall v | 0 <= v < |t.workers| && i in Held(t.workers[v].phase) ensures t.workers[v].phase.Sent? {
      assert v != w ==> t.workers[v] == s.workers[v];
    }
  }

  lemma SendingKeepsChain(s: State, holder: Holder, w: nat)
    requires Inv(s, holder) && w < |s.workers| && s.workers[w].phase.Ready?
    ensures ChainProtected(SendStep(s, w), holder) && NoDoubleSpend(SendStep(s, w))
  {
    var t, raw := SendStep(s, w), s.workers[w].phase.raw;
    forall x, k | 0 <= x < |t.chain| && k in t.chain[x].inputs
      ensures holder(t.chain[x].owner.isTest, k) == t.chain[x].owner.wallet
      ensures exists i: nat :: Protects(t, i, t.chain[x], k)
    {
      if x < |s.chain| {
        var i: nat :| Protects(s, i, s.chain[x], k);
        SendingProtectsEarlier(s, holder, w, i, s.chain[x], k);
      } else {
        SendingIsProtected(s, holder, w, k);
      }
    }
    forall x, y, k | 0 <= x < y < |t.chain| && t.chain[x].owner.isTest == t.chain[y].owner.isTest
      ensures !(k in t.chain[x].inputs && k in t.chain[y].inputs)
    {
      if y == |s.chain| && k in raw.inputs {
        SendingConflictsWithNothing(s, holder, w, x, k);
      }
    }
  }

  lemma BroadcastKeeps(s: State, holder: Holder, w: nat)
    requires Inv(s, holder) && w < |s.workers| && s.workers[w].phase.Ready?
    ensures Inv(SendStep(s, w), holder)
  {
    var p := s.workers[w].phase;
    assert Backed(s.rows, holder, s.workers[w]);
    LocalKeepsInvariant(s, Move(s, w, Sent(p.ids, p.raw)), holder, w);
    SendingKeepsChain(s, holder, w);
  }

  lemma StepKeepsInvariant(s: State, holder: Holder, a: Action)
    requires Inv(s, holder)
    ensures Inv(Step(s, holder, a), holder)
  {
    match a
    case Choose(w, keys) => ChooseKeeps(s, holder, w, keys);
    case Reserve(w) => if w < |s.workers| && s.workers[w].phase.Planned? { ReserveKeeps(s, holder, w); }
    case Sign(w, outputs) => SignKeeps(s, holder, w, outputs);
    case FailSigning(_) => FailKeeps(s, holder, a);
    case FailAttach(_) => FailKeeps(s, holder, a);
    case AttachNext(w) => if w < |s.workers| && s.workers[w].phase.Attaching? { AttachKeeps(s, holder, w); }
    case UndoNext(w) => if w < |s.workers| && s.workers[w].phase.Undoing? { UndoKeeps(s, holder, w); }
    case Broadcast(w) => if w < |s.workers| && s.workers[w].phase.Ready? { BroadcastKeeps(s, holder, w); }
    case GiveUp(w) => if w < |s.workers| && s.workers[w].phase.Ready? { SettleKeeps(s, holder, w, Released); }
    case Mark(w) => if w < |s.workers| && s.workers[w].phase.Sent? { SettleKeeps(s, holder, w, Broadcasted); }
    case Crash(_) => RetireKeeps(s, holder, a);
    case Restart(_) => RetireKeeps(s, holder, a);
    case Tick => TickKeeps(s, holder);
  }

  lemma TickKeeps(s: State, holder: Holder)
    requires Inv(s, holder)
    ensures Inv(Step(s, holder, Tick), holder)
  {
    var t := Step(s, holder, Tick);
    forall x, k | 0 <= x < |t.chain| && k in t.chain[x].inputs
      ensures exists i: nat :: Protects(t, i, t.chain[x], k)
    {
      var i: nat :| Protects(s, i, s.chain[x], k);
      assert Protects(t, i, t.chain[x], k);
    }
  }

  // ----- runs -----

  /** Any number of idle workers on an empty table. */
  ghost predicate Start(s: State) {
    s.rows == [] && s.chain == [] && forall w | 0 <= w < |s.workers| :: s.workers[w].phase == Idle(0)
  }

  function Run(s: State, holder: Holder, actions: seq<Action>): State {
    if actions == [] then s
    else Step(Run(s, holder, actions[..|actions| - 1]), holder, actions[|actions| - 1])
  }

  lemma {:induction false} RunKeepsInvariant(s: State, holder: Holder, actions: seq<Action>)
    requires Inv(s, holder)
    ensures Inv(Run(s, holder, actions), holder)
  {
    if actions != [] {
      RunKeepsInvariant(s, holder, actions[..|actions| - 1]);
      StepKeepsInvariant(Run(s, holder, actions[..|actions| - 1]), holder, actions[|actions| - 1]);
    }
  }

  /** Over every interleaving, no output is an input of two broadcast transactions. */
  lemma RunsNeverDoubleSpend(s: State, holder: Holder, actions: seq<Action>)
    requires Start(s)
    ensures NoDoubleSpend(Run(s, holder, actions))
  {
    assert Inv(s, holder);
    RunKeepsInvariant(s, holder, actions);
  }

  /** Over every interleaving and at any time, a spent output can never be reserved again. */
  lemma SpentStaysBlocked(s: State, holder: Holder, actions: seq<Action>, tx: RawTx, keys: seq<UtxoKey>, expiresAt: int)
    requires Start(s) && tx in Run(s, holder, actions).chain
    requires exists k :: k in tx.inputs && k in keys
    ensures ReserveAll(Run(s, holder, actions).rows, tx.owner, keys, expiresAt).None?
  {
    assert Inv(s, holder);
    RunKeepsInvariant(s, holder, actions);
    var t := Run(s, holder, actions);
    var k :| k in tx.inputs && k in keys;
    var x :| 0 <= x < |t.chain| && t.chain[x] == tx;
    var i: nat :| Protects(t, i, t.chain[x], k);
    assert t.rows[i] in t.rows && Blocked(t.rows, tx.owner, k);
    ReservableExactly(t.rows, tx.owner, keys, expiresAt);
  }

  /** Broadcast and released rows are final: no step changes them, and no row disappears. */
  lemma {:induction false} SettledRowsAreFinal(s: State, holder: Holder, actions: seq<Action>, i: nat)
    requires i < |s.rows| && s.rows[i].status != Reserved
    ensures i < |Run(s, holder, actions).rows| && Run(s, holder, actions).rows[i] == s.rows[i]
  {
    if actions != [] {
      SettledRowsAreFinal(s, holder, actions[..|actions| - 1], i);
      SettledRowSurvivesStep(Run(s, holder, actions[..|actions| - 1]), holder, actions[|actions| - 1], i);
    }
  }

  lemma SettledRowSurvivesStep(s: State, holder: Holder, a: Action, i: nat)
    requires i < |s.rows| && s.rows[i].status != Reserved
    ensures i < |Step(s, holder, a).rows| && Step(s, holder, a).rows[i] == s.rows[i]
  {
    if a.Reserve? && a.w < |s.workers| && s.workers[a.w].phase.Planned? {
      var owner, keys := s.workers[a.w].owner, s.workers[a.w].phase.keys;
      if ReserveAll(s.rows, owner, keys, s.now + TTL_MINUTES).Some? {
        ReservedRows(s.rows, owner, keys, s.now + TTL_MINUTES);
      }
    }
  }
}
