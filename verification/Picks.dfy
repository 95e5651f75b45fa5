/** Sub-collections of a list of amounts, written as one flag per position. */
module Picks {

  function Sum(s: seq<int>): int {
    if s == [] then 0 else Sum(s[..|s| - 1]) + s[|s| - 1]
  }

  function Count(picks: seq<bool>): (n: nat)
    ensures n <= |picks|
  {
    if picks == [] then 0
    else Count(picks[..|picks| - 1]) + (if picks[|picks| - 1] then 1 else 0)
  }

  /** The sum of the picked amounts. */
  function PickedSum(s: seq<int>, picks: seq<bool>): int
    requires |picks| == |s|
  {
    if s == [] then 0
    else
      var k := |s| - 1;
      PickedSum(s[..k], picks[..k]) + (if picks[k] then s[k] else 0)
  }

  ghost predicate Descending(s: seq<int>) {
    forall i, j | 0 <= i < j < |s| :: s[i] >= s[j]
  }

  /** The flags that pick the first `n` of `total` positions. */
  function Leading(n: nat, total: nat): seq<bool>
    requires n <= total
  {
    seq(total, i => i < n)
  }

  lemma SumStep(s: seq<int>, n: nat)
    requires n < |s|
    ensures Sum(s[..n + 1]) == Sum(s[..n]) + s[n]
  {
    assert s[..n + 1][..n] == s[..n];
  }

  /** Exchange argument: no sub-collection of a descending list beats the prefix of its size. */
  lemma {:induction false} TopSum(s: seq<int>, picks: seq<bool>)
    requires |picks| == |s| && Descending(s)
    ensures PickedSum(s, picks) <= Sum(s[..Count(picks)])
  {
    if s != [] {
      var k := |s| - 1;
      var c := Count(picks[..k]);
      TopSum(s[..k], picks[..k]);
      assert s[..k][..c] == s[..c];
      if picks[k] {
        SumStep(s, c);
      }
    }
  }

  lemma {:induction false} LeadingPicksPrefix(s: seq<int>, n: nat)
    requires n <= |s|
    ensures Count(Leading(n, |s|)) == n && PickedSum(s, Leading(n, |s|)) == Sum(s[..n])
    decreases |s|
  {
    if s != [] {
      var k := |s| - 1;
      if n == |s| {
        LeadingPicksPrefix(s[..k], k);
        assert Leading(n, |s|)[..k] == Leading(k, k);
        assert s[..k][..k] == s[..k] && s[..n] == s;
      } else {
        LeadingPicksPrefix(s[..k], n);
        assert Leading(n, |s|)[..k] == Leading(n, k);
        assert s[..k][..n] == s[..n];
      }
    }
  }
}
