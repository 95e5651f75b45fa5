/** Which wallet funds a UTXO withdrawal, and which inbound wallets are swept when no single one can. */
module Consolidation {
  import opened Money
  import opened Outcomes
  import opened Picks
  import opened Sorting
  import opened Ledger
  import Limit
  import Pages

  const MAX_SOURCES := 8
  const PAGE_SIZE := 300

  /** A wallet that could fund a withdrawal: its balance and the row that holds it. */
  datatype Source = Source(wallet: int, row: nat, balance: Money)

  // ----- the inbound wallets with a balance -----

  /** A balance row of a wallet in this currency that is not zero. */
  predicate Holds(b: Balance, wallet: int, key: Key) {
    b.entity == Wallet && b.owner == wallet && b.key == key && b.amount != 0
  }

  function SourceOf(rows: seq<Balance>, row: nat, decimals: nat): Source
    requires row < |rows|
  {
    Source(rows[row].owner, row, Money(Crypto, rows[row].key.ticker, rows[row].amount, decimals))
  }

  /** The sources among the first `n` balance rows of a wallet. */
  function BalancesOf(rows: seq<Balance>, n: nat, wallet: int, key: Key, decimals: nat): seq<Source>
    requires n <= |rows|
  {
    if n == 0 then []
    else
      var rest := BalancesOf(rows, n - 1, wallet, key, decimals);
      if Holds(rows[n - 1], wallet, key) then rest + [SourceOf(rows, n - 1, decimals)] else rest
  }

  function SourcesOf(wallets: seq<Pages.Wallet>, rows: seq<Balance>, key: Key, decimals: nat): seq<Source> {
    if wallets == [] then []
    else
      var k := |wallets| - 1;
      SourcesOf(wallets[..k], rows, key, decimals) + BalancesOf(rows, |rows|, wallets[k].id, key, decimals)
  }

  predicate Richer(a: Source, b: Source) {
    a.balance.GreaterThan(b.balance)
  }

  function InboundOf(chain: string): Pages.Filter {
    Pages.Filter(Some(Pages.Inbound), Some(chain))
  }

  /** The inbound wallets of a chain with a balance in this currency, the richest first. */
  function Sources(table: seq<Pages.Wallet>, chain: string, rows: seq<Balance>, key: Key, decimals: nat): seq<Source> {
    StableSort(SourcesOf(Pages.Matching(table, 1, InboundOf(chain)), rows, key, decimals), Richer)
  }

  lemma {:induction false} SourcesOfMore(
    wallets: seq<Pages.Wallet>, more: seq<Pages.Wallet>, rows: seq<Balance>, key: Key, decimals: nat)
    ensures SourcesOf(wallets + more, rows, key, decimals) ==
            SourcesOf(wallets, rows, key, decimals) + SourcesOf(more, rows, key, decimals)
  {
    if more == [] {
      assert wallets + more == wallets;
    } else {
      var k := |more| - 1;
      SourcesOfMore(wallets, more[..k], rows, key, decimals);
      assert (wallets + more)[..|wallets| + k] == wallets + more[..k];
    }
  }

  /** One more page: what is still missing shrinks by the sources of the page. */
  lemma PageListed(
    sources: seq<Source>, page: seq<Pages.Wallet>, left: seq<Pages.Wallet>, rest: seq<Pages.Wallet>,
    rows: seq<Balance>, key: Key, decimals: nat)
    requires page + rest == left
    ensures sources + SourcesOf(page, rows, key, decimals) + SourcesOf(rest, rows, key, decimals) ==
            sources + SourcesOf(left, rows, key, decimals)
  {
    SourcesOfMore(page, rest, rows, key, decimals);
  }

  /** The inner loops of listInboundUTXOSources: the sources of one page of wallets. */
  method ListPage(wallets: seq<Pages.Wallet>, rows: seq<Balance>, key: Key, decimals: nat) returns (found: seq<Source>)
    ensures found == SourcesOf(wallets, rows, key, decimals)
  {
    found := [];
    for i := 0 to |wallets|
      invariant found == SourcesOf(wallets[..i], rows, key, decimals)
    {
      ghost var before := found;
      for n := 0 to |rows|
        invariant found == before + BalancesOf(rows, n, wallets[i].id, key, decimals)
      {
        if rows[n].entity != Wallet || rows[n].owner != wallets[i].id {
          continue;
        }
        if rows[n].key != key || rows[n].amount == 0 {
          continue;
        }
        found := found + [SourceOf(rows, n, decimals)];
      }
      assert wallets[..i + 1][..i] == wallets[..i];
    }
    assert wallets[..|wallets|] == wallets;
  }

  /** listInboundUTXOSources: page by page, then the stable sort. */
  method ListSources(table: seq<Pages.Wallet>, chain: string, rows: seq<Balance>, key: Key, decimals: nat)
    returns (sources: seq<Source>)
    requires Pages.IsTable(table)
    ensures sources == Sources(table, chain, rows, key, decimals)
  {
    var filter := InboundOf(chain);
    var start := 0;
    sources := [];
    Pages.FromZero(table, filter);
    while true
      invariant start <= Pages.LargestId(table)
      invariant sources + SourcesOf(Pages.Matching(table, start, filter), rows, key, decimals) ==
                SourcesOf(Pages.Matching(table, 1, filter), rows, key, decimals)
      decreases Pages.LargestId(table) - start
    {
      var page := Pages.List(table, start, PAGE_SIZE, filter);
      Pages.NextPage(table, start, PAGE_SIZE, filter, page);
      PageListed(
        sources, page.wallets, Pages.Matching(table, start, filter), Pages.Remaining(table, page.next, filter),
        rows, key, decimals);
      var found := ListPage(page.wallets, rows, key, decimals);
      sources := sources + found;
      if page.next.None? {
        break;
      }
      start := page.next.value;
    }
    sources := StableSort(sources, Richer);
  }

  predicate InCurrency(s: Source, ticker: string, decimals: nat) {
    s.balance.ticker == ticker && s.balance.decimals == decimals
  }

  lemma {:induction false} BalancesAre(rows: seq<Balance>, n: nat, wallet: int, key: Key, decimals: nat)
    requires n <= |rows|
    ensures forall s :: s in BalancesOf(rows, n, wallet, key, decimals) <==>
                        s.row < n && Holds(rows[s.row], wallet, key) && s == SourceOf(rows, s.row, decimals)
  {
    if n > 0 {
      BalancesAre(rows, n - 1, wallet, key, decimals);
    }
  }

  lemma {:induction false} SourcesAre(wallets: seq<Pages.Wallet>, rows: seq<Balance>, key: Key, decimals: nat)
    ensures forall s :: s in SourcesOf(wallets, rows, key, decimals) <==>
                        s.row < |rows| && s == SourceOf(rows, s.row, decimals)
                        && exists w | w in wallets :: Holds(rows[s.row], w.id, key)
  {
    if wallets != [] {
      var k := |wallets| - 1;
      SourcesAre(wallets[..k], rows, key, decimals);
      BalancesAre(rows, |rows|, wallets[k].id, key, decimals);
      assert wallets == wallets[..k] + [wallets[k]];
    }
  }

  lemma RicherRanks(ticker: string, decimals: nat)
    ensures Ranks((s: Source) => InCurrency(s, ticker, decimals), Richer)
  {
  }

  /**
   * The sources are the inbound wallets of the chain that have a balance in the currency, all of
   * them, the richest first; equal balances stay in the order of the wallets' ids.
   */
  lemma SourcesAreRanked(table: seq<Pages.Wallet>, chain: string, rows: seq<Balance>, key: Key, decimals: nat)
    ensures var sources := Sources(table, chain, rows, key, decimals);
            var listed := SourcesOf(Pages.Matching(table, 1, InboundOf(chain)), rows, key, decimals);
            && Descending(Values(sources)) && multiset(sources) == multiset(listed)
            && (forall s | s in sources :: Tied(sources, s, Richer) == Tied(listed, s, Richer))
    ensures forall s :: s in Sources(table, chain, rows, key, decimals) <==>
              && s.row < |rows| && s == SourceOf(rows, s.row, decimals)
              && exists w | w in table && w.id >= 1 && InboundOf(chain).Accepts(w) :: Holds(rows[s.row], w.id, key)
  {
    var matching := Pages.Matching(table, 1, InboundOf(chain));
    var listed := SourcesOf(matching, rows, key, decimals);
    var sources := Sources(table, chain, rows, key, decimals);
    Pages.MatchingMembers(table, 1, InboundOf(chain));
    SourcesAre(matching, rows, key, decimals);
    RicherRanks(key.ticker, decimals);
    StableSortSorts(listed, (s: Source) => InCurrency(s, key.ticker, decimals), Richer);
    forall s ensures s in sources <==> s in listed {
      assert s in multiset(sources) <==> s in multiset(listed);
    }
    forall i, j | 0 <= i < j < |sources| ensures Values(sources)[i] >= Values(sources)[j] {
      assert sources[i] in sources && sources[j] in sources && !Richer(sources[j], sources[i]);
    }
  }

  // ----- one wallet for the whole withdrawal -----

  predicate Funds(s: Source, amount: Money) {
    Limit.Covers(s.balance, [amount]).Ok?
  }

  /** The loop of resolveUTXOWithdrawalSource: the first source that covers the amount. */
  method PickSource(sources: seq<Source>, amount: Money) returns (r: Option<Source>)
    ensures r.None? ==> forall s | s in sources :: !Funds(s, amount)
    ensures r.Some? ==> Funds(r.value, amount) && exists i | 0 <= i < |sources| ::
              r.value == sources[i] && forall j | 0 <= j < i :: !Funds(sources[j], amount)
  {
    for i := 0 to |sources|
      invariant forall j | 0 <= j < i :: !Funds(sources[j], amount)
    {
      if Funds(sources[i], amount) {
        return Some(sources[i]);
      }
    }
    return None;
  }

  /** If any inbound wallet can fund the withdrawal alone, the first, richest one does. */
  lemma RichestFunds(
    table: seq<Pages.Wallet>, chain: string, rows: seq<Balance>, key: Key, decimals: nat, amount: Money, s: Source)
    requires s in Sources(table, chain, rows, key, decimals) && Funds(s, amount)
    ensures Funds(Sources(table, chain, rows, key, decimals)[0], amount)
  {
    SourcesAreRanked(table, chain, rows, key, decimals);
    var sources := Sources(table, chain, rows, key, decimals);
    var i :| 0 <= i < |sources| && sources[i] == s;
    assert sources[0] in sources && Values(sources)[0] >= Values(sources)[i];
    CoversOne(sources[0].balance, amount);
    CoversOne(s.balance, amount);
  }

  lemma CoversOne(balance: Money, amount: Money)
    ensures Limit.Covers(balance, [amount]).Ok? <==> balance.CompatibleTo(amount) && balance.value >= amount.value
  {
    var expenses := [amount];
    assert expenses[..0] == [];
    assert Limit.Covers(balance, expenses[..0]) == Ok(balance);
    assert Limit.Covers(balance, expenses) == balance.Sub(expenses[0]);
  }

  // ----- which wallets are swept -----

  function Values(sources: seq<Source>): seq<int> {
    seq(|sources|, i requires 0 <= i < |sources| => sources[i].balance.value)
  }

  /** The shortest prefix that reaches the target, cut at the maximal number of sources. */
  ghost predicate IsSelection(sources: seq<Source>, target: int, n: nat) {
    && n <= |sources| && n <= MAX_SOURCES
    && (forall m | 0 <= m < n :: Sum(Values(sources)[..m]) < target)
    && (n == |sources| || n == MAX_SOURCES || Sum(Values(sources)[..n]) >= target)
  }

  /** selectUTXOConsolidationCandidates: fails only when a balance it adds is of another currency. */
  method SelectCandidates(candidates: seq<Source>, target: Money) returns (r: Outcome<seq<Source>>)
    ensures r.Ok? ==> r.value <= candidates && IsSelection(candidates, target.value, |r.value|)
    ensures r.Ok? ==> forall c | c in r.value :: target.CompatibleTo(c.balance)
    ensures r.Err? ==> r.error == Incompatible && exists c | c in candidates :: !target.CompatibleTo(c.balance)
  {
    var total := target.Sub(target).value;
    var selected: seq<Source> := [];
    for i := 0 to |candidates|
      invariant selected == candidates[..i] && i <= MAX_SOURCES
      invariant forall c | c in selected :: target.CompatibleTo(c.balance)
      invariant total.CompatibleTo(target) && total.value == Sum(Values(candidates)[..i])
      invariant forall m | 0 <= m < i :: Sum(Values(candidates)[..m]) < target.value
    {
      if |selected| >= MAX_SOURCES || total.GreaterThanOrEqual(target) {
        return Ok(selected);
      }
      selected := selected + [candidates[i]];
      var sum := total.Add(candidates[i].balance);
      if sum.Err? {
        assert candidates[i] in candidates;
        return Err(sum.error);
      }
      total := sum.value;
      SumStep(Values(candidates), i);
    }
    return Ok(selected);
  }

  /**
   * The selection from the listed sources is the best possible: when it reaches the target no
   * smaller set of sources does, and when it does not, no set of the maximal number of sources does.
   */
  lemma SelectionIsBest(
    table: seq<Pages.Wallet>, chain: string, rows: seq<Balance>, key: Key, decimals: nat, target: int, n: nat,
    picks: seq<bool>)
    requires IsSelection(Sources(table, chain, rows, key, decimals), target, n)
    requires |picks| == |Sources(table, chain, rows, key, decimals)|
    ensures var values := Values(Sources(table, chain, rows, key, decimals));
            && (Sum(values[..n]) >= target && Count(picks) < n ==> PickedSum(values, picks) < target)
            && (Sum(values[..n]) < target && Count(picks) <= MAX_SOURCES ==> PickedSum(values, picks) < target)
  {
    SourcesAreRanked(table, chain, rows, key, decimals);
    var values := Values(Sources(table, chain, rows, key, decimals));
    TopSum(values, picks);
    if Sum(values[..n]) < target && Count(picks) <= MAX_SOURCES {
      assert Count(picks) <= n;
    }
  }
}
