/** The stable sort of the standard library, by any strict order that may tie. */
module Sorting {

  /** Places `x` behind everything it does not precede. */
  function Insert<T>(sorted: seq<T>, x: T, before: (T, T) -> bool): seq<T> {
    if sorted == [] then [x]
    else
      var k := |sorted| - 1;
      if before(x, sorted[k]) then Insert(sorted[..k], x, before) + [sorted[k]] else sorted + [x]
  }

  function StableSort<T>(items: seq<T>, before: (T, T) -> bool): seq<T> {
    if items == [] then []
    else Insert(StableSort(items[..|items| - 1], before), items[|items| - 1], before)
  }

  /** A strict weak order on a domain: elements that do not precede each other are tied. */
  ghost predicate Ranks<T(!new)>(domain: T -> bool, before: (T, T) -> bool) {
    && (forall a, b | domain(a) && domain(b) && before(a, b) :: !before(b, a))
    && forall a, b, c | domain(a) && domain(b) && domain(c) && before(a, c) :: before(a, b) || before(b, c)
  }

  ghost predicate Within<T>(items: seq<T>, domain: T -> bool) {
    forall i | 0 <= i < |items| :: domain(items[i])
  }

  /** No element stands in front of one that precedes it. */
  ghost predicate Ordered<T>(items: seq<T>, before: (T, T) -> bool) {
    forall i, j | 0 <= i < j < |items| :: !before(items[j], items[i])
  }

  /** The elements tied with `x`, in their order. */
  function Tied<T>(items: seq<T>, x: T, before: (T, T) -> bool): seq<T> {
    if items == [] then []
    else
      var rest, last := Tied(items[..|items| - 1], x, before), items[|items| - 1];
      if before(x, last) || before(last, x) then rest else rest + [last]
  }

  lemma TiedAppend<T>(items: seq<T>, last: T, x: T, before: (T, T) -> bool)
    ensures Tied(items + [last], x, before) ==
            Tied(items, x, before) + (if before(x, last) || before(last, x) then [] else [last])
  {
    assert (items + [last])[..|items|] == items;
  }

  lemma {:induction false} InsertSame<T>(sorted: seq<T>, x: T, before: (T, T) -> bool)
    ensures multiset(Insert(sorted, x, before)) == multiset(sorted) + multiset{x}
    ensures forall y :: y in Insert(sorted, x, before) <==> y in sorted || y == x
  {
    if sorted != [] {
      var k := |sorted| - 1;
      assert sorted == sorted[..k] + [sorted[k]];
      InsertSame(sorted[..k], x, before);
    }
  }

  lemma AppendOrdered<T>(items: seq<T>, last: T, before: (T, T) -> bool)
    requires Ordered(items, before) && forall y | y in items :: !before(last, y)
    ensures Ordered(items + [last], before)
  {
  }

  /** What does not precede the last of an ordered list precedes nothing in it. */
  lemma LastDecides<T(!new)>(sorted: seq<T>, x: T, domain: T -> bool, before: (T, T) -> bool)
    requires Ranks(domain, before) && Ordered(sorted, before) && Within(sorted, domain) && domain(x)
    requires sorted != [] && !before(x, sorted[|sorted| - 1])
    ensures forall y | y in sorted :: !before(x, y)
  {
    var k := |sorted| - 1;
    forall i | 0 <= i < k ensures !before(x, sorted[i]) {
      assert !before(sorted[k], sorted[i]);
    }
  }

  lemma {:induction false} InsertOrders<T(!new)>(
    sorted: seq<T>, x: T, domain: T -> bool, before: (T, T) -> bool)
    requires Ranks(domain, before) && Ordered(sorted, before) && Within(sorted, domain) && domain(x)
    ensures Ordered(Insert(sorted, x, before), before)
  {
    if sorted != [] {
      var k := |sorted| - 1;
      if before(x, sorted[k]) {
        InsertOrders(sorted[..k], x, domain, before);
        InsertSame(sorted[..k], x, before);
        AppendOrdered(Insert(sorted[..k], x, before), sorted[k], before);
      } else {
        LastDecides(sorted, x, domain, before);
        AppendOrdered(sorted, x, before);
      }
    }
  }

  /** An element goes behind those it is tied with. */
  lemma {:induction false} InsertKeepsTied<T(!new)>(
    sorted: seq<T>, x: T, y: T, domain: T -> bool, before: (T, T) -> bool)
    requires Ranks(domain, before) && Within(sorted, domain) && domain(x) && domain(y)
    ensures Tied(Insert(sorted, x, before), y, before) == Tied(sorted + [x], y, before)
  {
    TiedAppend(sorted, x, y, before);
    if sorted != [] {
      var k := |sorted| - 1;
      if before(x, sorted[k]) {
        InsertKeepsTied(sorted[..k], x, y, domain, before);
        TiedAppend(Insert(sorted[..k], x, before), sorted[k], y, before);
        TiedAppend(sorted[..k], x, y, before);
      }
    }
  }

  lemma SplitLast<T>(items: seq<T>)
    requires items != []
    ensures multiset(items) == multiset(items[..|items| - 1]) + multiset{items[|items| - 1]}
  {
    assert items == items[..|items| - 1] + [items[|items| - 1]];
  }

  lemma {:induction false} SameElements<T>(items: seq<T>, before: (T, T) -> bool)
    ensures multiset(StableSort(items, before)) == multiset(items)
  {
    if items != [] {
      var k := |items| - 1;
      SameElements(items[..k], before);
      InsertSame(StableSort(items[..k], before), items[k], before);
      SplitLast(items);
    }
  }

  lemma StaysWithin<T>(items: seq<T>, domain: T -> bool, before: (T, T) -> bool)
    requires Within(items, domain)
    ensures Within(StableSort(items, before), domain)
  {
    var sorted := StableSort(items, before);
    SameElements(items, before);
    forall i | 0 <= i < |sorted| ensures domain(sorted[i]) {
      assert sorted[i] in multiset(items);
    }
  }

  lemma {:induction false} SortOrders<T(!new)>(items: seq<T>, domain: T -> bool, before: (T, T) -> bool)
    requires Ranks(domain, before) && Within(items, domain)
    ensures Ordered(StableSort(items, before), before)
  {
    if items != [] {
      var k := |items| - 1;
      SortOrders(items[..k], domain, before);
      StaysWithin(items[..k], domain, before);
      InsertOrders(StableSort(items[..k], before), items[k], domain, before);
    }
  }

  lemma {:induction false} SortKeepsTied<T(!new)>(items: seq<T>, x: T, domain: T -> bool, before: (T, T) -> bool)
    requires Ranks(domain, before) && Within(items, domain) && domain(x)
    ensures Tied(StableSort(items, before), x, before) == Tied(items, x, before)
  {
    if items != [] {
      var k := |items| - 1;
      var earlier := StableSort(items[..k], before);
      SortKeepsTied(items[..k], x, domain, before);
      StaysWithin(items[..k], domain, before);
      InsertKeepsTied(earlier, items[k], x, domain, before);
      TiedAppend(earlier, items[k], x, before);
      TiedAppend(items[..k], items[k], x, before);
      assert items == items[..k] + [items[k]];
    }
  }

  /** The result is an ordered permutation in which tied elements keep their order. */
  lemma StableSortSorts<T(!new)>(items: seq<T>, domain: T -> bool, before: (T, T) -> bool)
    requires Ranks(domain, before) && Within(items, domain)
    ensures Ordered(StableSort(items, before), before)
    ensures multiset(StableSort(items, before)) == multiset(items)
    ensures forall x | domain(x) :: Tied(StableSort(items, before), x, before) == Tied(items, x, before)
  {
    SameElements(items, before);
    SortOrders(items, domain, before);
    forall x | domain(x) ensures Tied(StableSort(items, before), x, before) == Tied(items, x, before) {
      SortKeepsTied(items, x, domain, before);
    }
  }
}
