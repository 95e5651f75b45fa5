/** Cursor pagination over the wallets table and the loops that follow it. */
module Pages {
  import opened Outcomes

  datatype WalletType = Inbound | Outbound

  datatype Wallet = Wallet(id: int, kind: WalletType, chain: string)

  /** Filters of a listing; a missing filter matches everything. */
  datatype Filter = Filter(kind: Option<WalletType>, chain: Option<string>) {
    predicate Accepts(w: Wallet) {
      (kind.None? || w.kind == kind.value) && (chain.None? || w.chain == chain.value)
    }
  }

  /** The table is stored by ascending id; identifiers are positive and unique. */
  ghost predicate IsTable(table: seq<Wallet>) {
    table != [] ==> table[0].id >= 1 && IsTable(table[1..]) && forall w | w in table[1..] :: w.id > table[0].id
  }

  /** Accepted wallets whose id is at least `start`, in table order. */
  function Matching(table: seq<Wallet>, start: int, filter: Filter): seq<Wallet> {
    if table == [] then []
    else
      var rest := Matching(table[1..], start, filter);
      if table[0].id >= start && filter.Accepts(table[0]) then [table[0]] + rest else rest
  }

  /** PaginateWalletsByID: the first `limit` matching rows. */
  function Paginate(table: seq<Wallet>, start: int, limit: nat, filter: Filter): seq<Wallet> {
    var rows := Matching(table, start, filter);
    if |rows| <= limit then rows else rows[..limit]
  }

  /** The id at which the next page starts. The probe for it ignores the type filter. */
  function NextCursor(table: seq<Wallet>, page: seq<Wallet>, filter: Filter): Option<int> {
    if page == [] then None
    else
      var probe := Paginate(table, page[|page| - 1].id + 1, 1, filter.(kind := None));
      if probe == [] then None else Some(probe[0].id)
  }

  datatype Page = Page(wallets: seq<Wallet>, next: Option<int>)

  /** List: one page and the next cursor. */
  function List(table: seq<Wallet>, start: int, limit: nat, filter: Filter): Page {
    var wallets := Paginate(table, start, limit, filter);
    Page(wallets, NextCursor(table, wallets, filter))
  }

  lemma {:induction false} MatchingMembers(table: seq<Wallet>, start: int, filter: Filter)
    ensures forall w :: w in Matching(table, start, filter) <==> w in table && w.id >= start && filter.Accepts(w)
  {
    if table != [] {
      MatchingMembers(table[1..], start, filter);
      assert table == [table[0]] + table[1..];
    }
  }

  /** Rows below both starting points do not matter. */
  lemma {:induction false} SameStart(table: seq<Wallet>, start: int, later: int, filter: Filter)
    requires forall w | w in table && filter.Accepts(w) :: w.id >= start <==> w.id >= later
    ensures Matching(table, start, filter) == Matching(table, later, filter)
  {
    if table != [] {
      assert table[0] in table;
      forall w | w in table[1..] && filter.Accepts(w) ensures w.id >= start <==> w.id >= later {
        assert w in table;
      }
      SameStart(table[1..], start, later, filter);
    }
  }

  function LargestId(table: seq<Wallet>): int {
    if table == [] then 0 else table[|table| - 1].id
  }

  lemma {:induction false} LastIsLargest(table: seq<Wallet>)
    requires IsTable(table)
    ensures forall w | w in table :: 1 <= w.id <= LargestId(table)
  {
    if table != [] {
      LastIsLargest(table[1..]);
      assert table == [table[0]] + table[1..];
    }
  }

  lemma BehindHead(head: Wallet, later: seq<Wallet>, k: nat)
    requires 1 <= k <= |later| + 1
    ensures ([head] + later)[k..] == later[k - 1..]
    ensures k > 1 ==> ([head] + later)[k - 1] == later[k - 2] && later[k - 2] in later
  {
  }

  /** Restarting behind the last row of a page continues exactly where the page ends. */
  lemma {:induction false} PageEnd(table: seq<Wallet>, start: int, filter: Filter, k: nat)
    requires IsTable(table) && 1 <= k <= |Matching(table, start, filter)|
    ensures var rows := Matching(table, start, filter);
            rows[k - 1].id >= start && Matching(table, rows[k - 1].id + 1, filter) == rows[k..]
  {
    var rest := table[1..];
    var rows, later := Matching(table, start, filter), Matching(rest, start, filter);
    var x := rows[k - 1].id + 1;
    MatchingMembers(rest, start, filter);
    if table[0].id >= start && filter.Accepts(table[0]) {
      assert rows == [table[0]] + later;
      BehindHead(table[0], later, k);
      if k == 1 {
        SameStart(rest, start, x, filter);
      } else {
        PageEnd(rest, start, filter, k - 1);
      }
      assert Matching(rest, x, filter) == rows[k..];
    } else {
      assert rows == later;
      PageEnd(rest, start, filter, k);
      assert later[k - 1] in rest;
      assert Matching(rest, x, filter) == rows[k..];
    }
    assert Matching(table, x, filter) == Matching(rest, x, filter);
  }

  /** The probe finds the next starting point although it ignores the type filter. */
  lemma ProbeSkipsNothing(table: seq<Wallet>, after: int, filter: Filter)
    requires IsTable(table)
    ensures var probe := Paginate(table, after, 1, filter.(kind := None));
            && (probe == [] ==> Matching(table, after, filter) == [])
            && (probe != [] ==> probe[0] in table && probe[0].id >= after
                                && Matching(table, after, filter) == Matching(table, probe[0].id, filter))
  {
    var wide := filter.(kind := None);
    var rows := Matching(table, after, wide);
    MatchingMembers(table, after, wide);
    MatchingMembers(table, after, filter);
    var narrow := Matching(table, after, filter);
    assert narrow != [] ==> narrow[0] in rows;
    if rows != [] {
      PageEnd(table, after, wide, 1);
      var first := rows[0];
      forall w | w in table && filter.Accepts(w) ensures w.id >= after <==> w.id >= first.id {
        MatchingMembers(table, first.id + 1, wide);
        if w.id >= after {
          assert w in rows;
          assert rows == [first] + rows[1..];
        }
      }
      SameStart(table, after, first.id, filter);
    }
  }

  /** A page is a beginning of the matching rows, and its last id separates it from the rest. */
  lemma PageSplits(table: seq<Wallet>, start: int, limit: nat, filter: Filter)
    requires IsTable(table) && Paginate(table, start, limit, filter) != []
    ensures var page := Paginate(table, start, limit, filter);
            var last := page[|page| - 1].id;
            && Matching(table, start, filter) == page + Matching(table, last + 1, filter)
            && start <= last
  {
    var rows, page := Matching(table, start, filter), Paginate(table, start, limit, filter);
    PageEnd(table, start, filter, |page|);
    assert rows == rows[..|page|] + rows[|page|..];
  }

  /** What the pages from a cursor on will deliver. */
  function Remaining(table: seq<Wallet>, cursor: Option<int>, filter: Filter): seq<Wallet> {
    if cursor.None? then [] else Matching(table, cursor.value, filter)
  }

  /** The cursor behind a page leads to exactly the rows behind it, and moves forward. */
  lemma CursorSkipsNothing(table: seq<Wallet>, page: seq<Wallet>, filter: Filter)
    requires IsTable(table) && page != []
    ensures var next, after := NextCursor(table, page, filter), page[|page| - 1].id + 1;
            && Remaining(table, next, filter) == Matching(table, after, filter)
            && (next.Some? ==> after <= next.value && next.value <= LargestId(table))
  {
    ProbeSkipsNothing(table, page[|page| - 1].id + 1, filter);
    LastIsLargest(table);
  }

  /** Only a listing without any matching row has an empty page. */
  lemma EmptyPage(table: seq<Wallet>, start: int, limit: nat, filter: Filter)
    requires limit > 0 && Paginate(table, start, limit, filter) == []
    ensures Matching(table, start, filter) == []
  {
  }

  /** The same for the page and the cursor that `List` returns, when there is a page. */
  lemma FullPage(table: seq<Wallet>, start: int, limit: nat, filter: Filter, page: seq<Wallet>, next: Option<int>)
    requires IsTable(table) && page != []
    requires page == Paginate(table, start, limit, filter) && next == NextCursor(table, page, filter)
    ensures page + Remaining(table, next, filter) == Matching(table, start, filter)
    ensures next.Some? ==> start < next.value <= LargestId(table)
  {
    PageSplits(table, start, limit, filter);
    CursorSkipsNothing(table, page, filter);
  }

  /** A page and what follows its cursor are exactly the matching rows; the cursor moves forward. */
  lemma NextPage(table: seq<Wallet>, start: int, limit: nat, filter: Filter, listed: Page)
    requires IsTable(table) && limit > 0 && listed == List(table, start, limit, filter)
    ensures listed.wallets + Remaining(table, listed.next, filter) == Matching(table, start, filter)
    ensures listed.next.Some? ==> start < listed.next.value <= LargestId(table)
  {
    if listed.wallets == [] {
      EmptyPage(table, start, limit, filter);
    } else {
      FullPage(table, start, limit, filter, listed.wallets, listed.next);
    }
  }

  lemma Regroup(a: seq<Wallet>, b: seq<Wallet>, c: seq<Wallet>)
    ensures a + b + c == a + (b + c) && a + [] == a
  {
  }

  /** No identifier is zero, and an empty table ends before it. */
  lemma FromZero(table: seq<Wallet>, filter: Filter)
    requires IsTable(table)
    ensures Matching(table, 0, filter) == Matching(table, 1, filter) && 0 <= LargestId(table)
  {
    LastIsLargest(table);
    SameStart(table, 0, 1, filter);
    assert table != [] ==> table[|table| - 1] in table;
  }

  /** The page loop of the callers: it ends, and yields every accepted wallet once, in id order. */
  method ListAll(table: seq<Wallet>, limit: nat, filter: Filter) returns (all: seq<Wallet>)
    requires IsTable(table) && limit > 0
    ensures all == Matching(table, 1, filter)
  {
    all := [];
    var start := 0;
    FromZero(table, filter);
    while true
      invariant start <= LargestId(table)
      invariant all + Matching(table, start, filter) == Matching(table, 1, filter)
      decreases LargestId(table) - start
    {
      var page := List(table, start, limit, filter);
      NextPage(table, start, limit, filter, page);
      Regroup(all, page.wallets, Remaining(table, page.next, filter));
      all := all + page.wallets;
      if page.next.None? {
        break;
      }
      start := page.next.value;
    }
  }

  /** What the loop yields: exactly the accepted wallets, strictly ascending, hence each one once. */
  lemma {:induction false} AllAcceptedOnce(table: seq<Wallet>, filter: Filter)
    requires IsTable(table)
    ensures var all := Matching(table, 1, filter);
            && (forall w :: w in all <==> w in table && filter.Accepts(w))
            && forall i, j | 0 <= i < j < |all| :: all[i].id < all[j].id
  {
    MatchingMembers(table, 1, filter);
    if table != [] {
      AllAcceptedOnce(table[1..], filter);
      MatchingMembers(table[1..], 1, filter);
      assert forall w | w in table[1..] :: w.id > table[0].id;
    }
  }
}
