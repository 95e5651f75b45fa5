/** The table of reserved outputs and the statements that change it. */
module Reservations {
  import opened Outcomes
  import opened Selection
  import opened Planner

  /** How often a plan is made anew after a conflict, and how long a reservation stays visible. */
  const ATTEMPTS: nat := 3
  const TTL_MINUTES := 30

  datatype Status = Reserved | Broadcasted | Released

  /** The wallet that spends and the network it spends on. */
  datatype Owner = Owner(wallet: int, isTest: bool)

  /** A signed transaction; it stands for its own hash, which is taken to be injective. */
  datatype RawTx = RawTx(owner: Owner, inputs: seq<UtxoKey>, outputs: seq<Output>)

  /** A row; its id is its position in the table. */
  datatype Row = Row(owner: Owner, key: UtxoKey, raw: Option<RawTx>, status: Status, expiresAt: int)

  /** Covered by the unique index: neither kind of live row ever leaves it by expiring. */
  predicate Live(row: Row) {
    row.status != Released
  }

  /** Reported as reserved when a transaction is planned. */
  predicate Visible(row: Row, now: int) {
    row.status == Broadcasted || (row.status == Reserved && row.expiresAt > now)
  }

  predicate Blocked(rows: seq<Row>, owner: Owner, key: UtxoKey) {
    exists row | row in rows :: row.owner == owner && row.key == key && Live(row)
  }

  function VisibleKeys(rows: seq<Row>, owner: Owner, now: int): set<UtxoKey> {
    set row | row in rows && row.owner == owner && Visible(row, now) :: row.key
  }

  function LiveKeys(rows: seq<Row>, owner: Owner): set<UtxoKey> {
    set row | row in rows && row.owner == owner && Live(row) :: row.key
  }

  function Fresh(owner: Owner, key: UtxoKey, expiresAt: int): Row {
    Row(owner, key, None, Reserved, expiresAt)
  }

  /** Insert one row per key, all or nothing. */
  function ReserveAll(rows: seq<Row>, owner: Owner, keys: seq<UtxoKey>, expiresAt: int): Option<seq<Row>> {
    if keys == [] then Some(rows)
    else
      var earlier := ReserveAll(rows, owner, keys[..|keys| - 1], expiresAt);
      var last := keys[|keys| - 1];
      if earlier.None? || Blocked(earlier.value, owner, last) then None
      else Some(earlier.value + [Fresh(owner, last, expiresAt)])
  }

  function Attach(rows: seq<Row>, id: nat, raw: RawTx): seq<Row> {
    if id < |rows| && rows[id].status == Reserved then rows[id := rows[id].(raw := Some(raw))] else rows
  }

  function Release(rows: seq<Row>, id: nat): seq<Row> {
    if id < |rows| && rows[id].status == Reserved then rows[id := rows[id].(status := Released)] else rows
  }

  /** The ids of `count` rows appended behind `start` rows. */
  function NewIds(start: nat, count: nat): seq<nat> {
    seq(count, j => start + j)
  }

  /** The rows a statement addressed by raw transaction changes. */
  predicate Addressed(row: Row, owner: Owner, raw: RawTx) {
    row.owner == owner && row.raw == Some(raw) && row.status == Reserved
  }

  function SetByRaw(rows: seq<Row>, owner: Owner, raw: RawTx, status: Status): seq<Row> {
    seq(|rows|, i requires 0 <= i < |rows| =>
      if Addressed(rows[i], owner, raw) then rows[i].(status := status) else rows[i])
  }

  class Table {
    var rows: seq<Row>

    constructor ()
      ensures rows == []
    {
      rows := [];
    }

    /** CreateBitcoinUTXOReservation: refused by the unique index when a live row exists. */
    method Create(owner: Owner, key: UtxoKey, expiresAt: int) returns (id: Option<nat>)
      modifies this
      ensures Blocked(old(rows), owner, key) ==> id == None && rows == old(rows)
      ensures !Blocked(old(rows), owner, key) ==>
                id == Some(|old(rows)|) && rows == old(rows) + [Fresh(owner, key, expiresAt)]
    {
      if Blocked(rows, owner, key) {
        return None;
      }
      id := Some(|rows|);
      rows := rows + [Fresh(owner, key, expiresAt)];
    }

    /** ListActiveBitcoinUTXOReservations, reduced to the keys by the caller. */
    method ListActive(owner: Owner, now: int) returns (keys: seq<UtxoKey>)
      ensures (set k | k in keys) == VisibleKeys(rows, owner, now)
    {
      keys := [];
      for i := 0 to |rows|
        invariant (set k | k in keys) == VisibleKeys(rows[..i], owner, now)
      {
        assert rows[..i + 1] == rows[..i] + [rows[i]];
        ghost var before := keys;
        if rows[i].owner == owner && Visible(rows[i], now) {
          keys := keys + [rows[i].key];
        }
        assert (set k | k in keys) == (set k | k in before) + (if keys == before then {} else {rows[i].key});
      }
      assert rows[..|rows|] == rows;
    }

    /** reserveBitcoinUTXOs: one database transaction, rolled back at the first conflict. */
    method ReserveUtxos(owner: Owner, keys: seq<UtxoKey>, expiresAt: int) returns (ids: Option<seq<nat>>)
      modifies this
      ensures match ReserveAll(old(rows), owner, keys, expiresAt)
              case Some(reserved) =>
                rows == reserved && ids == Some(NewIds(|old(rows)|, |keys|))
              case None => rows == old(rows) && ids == None
    {
      var before := rows;
      var reserved: seq<nat> := [];
      for i := 0 to |keys|
        invariant ReserveAll(before, owner, keys[..i], expiresAt) == Some(rows)
        invariant |rows| == |before| + i && reserved == NewIds(|before|, i)
      {
        assert keys[..i + 1][..i] == keys[..i];
        var id := Create(owner, keys[i], expiresAt);
        if id.None? {
          rows := before;
          ConflictSpreads(before, owner, keys, i + 1, expiresAt);
          return None;
        }
        reserved := reserved + [id.value];
        assert reserved == NewIds(|before|, i + 1);
      }
      assert keys[..|keys|] == keys;
      return Some(reserved);
    }

    /** attachBitcoinUTXOReservationsRawTX. */
    method AttachRaw(ids: seq<nat>, raw: RawTx)
      modifies this
      ensures rows == AttachAll(old(rows), ids, raw)
    {
      for i := 0 to |ids|
        invariant rows == AttachAll(old(rows), ids[..i], raw)
      {
        assert ids[..i + 1][..i] == ids[..i];
        rows := Attach(rows, ids[i], raw);
      }
      assert ids[..|ids|] == ids;
    }

    /** releaseBitcoinUTXOReservationIDs. */
    method ReleaseIds(ids: seq<nat>)
      modifies this
      ensures rows == ReleaseAll(old(rows), ids)
    {
      for i := 0 to |ids|
        invariant rows == ReleaseAll(old(rows), ids[..i])
      {
        assert ids[..i + 1][..i] == ids[..i];
        rows := Release(rows, ids[i]);
      }
      assert ids[..|ids|] == ids;
    }

    /** ReleaseBitcoinUTXOReservationsByRawTX. */
    method ReleaseByRaw(owner: Owner, raw: RawTx)
      modifies this
      ensures rows == SetByRaw(old(rows), owner, raw, Released)
    {
      rows := SetByRaw(rows, owner, raw, Released);
    }

    /** MarkBitcoinUTXOReservationsBroadcastedByRawTX. */
    method MarkBroadcasted(owner: Owner, raw: RawTx)
      modifies this
      ensures rows == SetByRaw(old(rows), owner, raw, Broadcasted)
    {
      rows := SetByRaw(rows, owner, raw, Broadcasted);
    }
  }

  function AttachAll(rows: seq<Row>, ids: seq<nat>, raw: RawTx): (r: seq<Row>)
    ensures |r| == |rows|
  {
    if ids == [] then rows else Attach(AttachAll(rows, ids[..|ids| - 1], raw), ids[|ids| - 1], raw)
  }

  function ReleaseAll(rows: seq<Row>, ids: seq<nat>): (r: seq<Row>)
    ensures |r| == |rows|
  {
    if ids == [] then rows else Release(ReleaseAll(rows, ids[..|ids| - 1]), ids[|ids| - 1])
  }

  /** A conflict on a prefix is a conflict on the whole list. */
  lemma {:induction false} ConflictSpreads(rows: seq<Row>, owner: Owner, keys: seq<UtxoKey>, n: nat, expiresAt: int)
    requires n <= |keys| && ReserveAll(rows, owner, keys[..n], expiresAt).None?
    ensures ReserveAll(rows, owner, keys, expiresAt).None?
    decreases |keys|
  {
    if n < |keys| {
      assert keys[..|keys| - 1][..n] == keys[..n];
      ConflictSpreads(rows, owner, keys[..|keys| - 1], n, expiresAt);
    } else {
      assert keys[..n] == keys;
    }
  }

  /** A successful reservation appends exactly one fresh row per key. */
  lemma {:induction false} ReservedRows(rows: seq<Row>, owner: Owner, keys: seq<UtxoKey>, expiresAt: int)
    requires ReserveAll(rows, owner, keys, expiresAt).Some?
    ensures var after := ReserveAll(rows, owner, keys, expiresAt).value;
            && |after| == |rows| + |keys| && rows <= after
            && forall i | 0 <= i < |keys| :: after[|rows| + i] == Fresh(owner, keys[i], expiresAt)
  {
    if keys != [] {
      ReservedRows(rows, owner, keys[..|keys| - 1], expiresAt);
    }
  }

  lemma BlockedByOneMore(rows: seq<Row>, row: Row, owner: Owner, key: UtxoKey)
    requires Live(row)
    ensures Blocked(rows + [row], owner, key) <==> Blocked(rows, owner, key) || (row.owner == owner && row.key == key)
  {
    assert (rows + [row])[|rows|] == row;
    assert forall r :: r in rows + [row] <==> r in rows || r == row;
  }

  /** After a reservation exactly the reserved keys are blocked in addition. */
  lemma {:induction false} ReservationBlocks(
    rows: seq<Row>, owner: Owner, keys: seq<UtxoKey>, expiresAt: int, key: UtxoKey)
    requires ReserveAll(rows, owner, keys, expiresAt).Some?
    ensures Blocked(ReserveAll(rows, owner, keys, expiresAt).value, owner, key) <==>
            Blocked(rows, owner, key) || key in keys
  {
    if keys != [] {
      var n := |keys| - 1;
      ReservationBlocks(rows, owner, keys[..n], expiresAt, key);
      BlockedByOneMore(
        ReserveAll(rows, owner, keys[..n], expiresAt).value, Fresh(owner, keys[n], expiresAt), owner, key);
      assert keys == keys[..n] + [keys[n]];
    }
  }

  ghost predicate AllDistinct(keys: seq<UtxoKey>) {
    forall i, j | 0 <= i < j < |keys| :: keys[i] != keys[j]
  }

  lemma DistinctPrefix(keys: seq<UtxoKey>, n: nat)
    requires |keys| == n + 1
    ensures AllDistinct(keys) <==> AllDistinct(keys[..n]) && keys[n] !in keys[..n]
  {
    assert forall i | 0 <= i < n :: keys[..n][i] == keys[i];
  }

  /** Reservation succeeds exactly for distinct keys without a live row, whatever the time is. */
  lemma {:induction false} ReservableExactly(rows: seq<Row>, owner: Owner, keys: seq<UtxoKey>, expiresAt: int)
    ensures ReserveAll(rows, owner, keys, expiresAt).Some? <==>
            (forall k | k in keys :: !Blocked(rows, owner, k)) && AllDistinct(keys)
  {
    if keys != [] {
      var n := |keys| - 1;
      ReservableExactly(rows, owner, keys[..n], expiresAt);
      DistinctPrefix(keys, n);
      assert keys == keys[..n] + [keys[n]];
      if ReserveAll(rows, owner, keys[..n], expiresAt).Some? {
        ReservationBlocks(rows, owner, keys[..n], expiresAt, keys[n]);
      }
    }
  }

  /** The unique index on live rows. */
  ghost predicate UniqueLive(rows: seq<Row>) {
    forall i, j | 0 <= i < |rows| && 0 <= j < |rows| && Live(rows[i]) && Live(rows[j])
                  && rows[i].owner == rows[j].owner && rows[i].key == rows[j].key :: i == j
  }

  /** A row carries only a transaction that spends it. */
  ghost predicate RawMatches(rows: seq<Row>) {
    forall i | 0 <= i < |rows| && rows[i].raw.Some? ::
      rows[i].owner == rows[i].raw.value.owner && rows[i].key in rows[i].raw.value.inputs
  }

  /** An expired reservation is invisible to the planner and still blocks the output. */
  lemma ExpiryNeverFrees(rows: seq<Row>, row: Row, now: int, keys: seq<UtxoKey>, expiresAt: int)
    requires UniqueLive(rows) && row in rows && row.status == Reserved && row.expiresAt <= now && row.key in keys
    ensures row.key !in VisibleKeys(rows, row.owner, now)
    ensures ReserveAll(rows, row.owner, keys, expiresAt).None?
  {
    ReservableExactly(rows, row.owner, keys, expiresAt);
    var i :| 0 <= i < |rows| && rows[i] == row;
    forall other | other in rows && other.owner == row.owner && Visible(other, now) ensures other.key != row.key {
      var j :| 0 <= j < |rows| && rows[j] == other;
      assert other.key == row.key ==> i == j;
    }
  }

  // ----- rows carry only their own transactions -----

  lemma SameRawsMatch(before: seq<Row>, after: seq<Row>)
    requires RawMatches(before) && |after| == |before|
    requires forall i | 0 <= i < |before| :: after[i] == before[i].(status := after[i].status)
    ensures RawMatches(after)
  {
  }

  lemma SettlingKeepsRaws(rows: seq<Row>, owner: Owner, raw: RawTx, status: Status)
    requires RawMatches(rows)
    ensures RawMatches(SetByRaw(rows, owner, raw, status))
  {
    SameRawsMatch(rows, SetByRaw(rows, owner, raw, status));
  }
}
