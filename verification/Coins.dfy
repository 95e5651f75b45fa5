/** The outputs of a chain that belong to the wallets of the system, and what spending them does. */
module Coins {
  import opened Outcomes
  import opened Picks

  /** An output on the chain; one that left the system belongs to nobody. */
  datatype Coin = Coin(owner: Option<int>, amount: int, spent: bool)

  predicate Spendable(coins: seq<Coin>, owner: int, inputs: seq<nat>) {
    && (forall i | 0 <= i < |inputs| ::
          inputs[i] < |coins| && coins[inputs[i]].owner == Some(owner) && !coins[inputs[i]].spent)
    && forall i, j | 0 <= i < j < |inputs| :: inputs[i] != inputs[j]
  }

  function InputSum(coins: seq<Coin>, inputs: seq<nat>): int
    requires forall i | 0 <= i < |inputs| :: inputs[i] < |coins|
  {
    if inputs == [] then 0
    else InputSum(coins, inputs[..|inputs| - 1]) + coins[inputs[|inputs| - 1]].amount
  }

  function Spend(coins: seq<Coin>, inputs: seq<nat>): (after: seq<Coin>)
    requires forall i | 0 <= i < |inputs| :: inputs[i] < |coins|
    ensures |after| == |coins|
    ensures forall c | 0 <= c < |coins| :: after[c] == coins[c].(spent := coins[c].spent || c in inputs)
  {
    if inputs == [] then coins
    else
      var n := |inputs| - 1;
      var earlier := Spend(coins, inputs[..n]);
      assert inputs == inputs[..n] + [inputs[n]];
      earlier[inputs[n] := earlier[inputs[n]].(spent := true)]
  }

  /** The sum of a wallet's unspent outputs. */
  function Unspent(coins: seq<Coin>, wallet: int): int {
    if coins == [] then 0
    else
      var last := coins[|coins| - 1];
      Unspent(coins[..|coins| - 1], wallet) + (if last.owner == Some(wallet) && !last.spent then last.amount else 0)
  }

  lemma UnspentAppend(coins: seq<Coin>, coin: Coin, wallet: int)
    ensures Unspent(coins + [coin], wallet) ==
            Unspent(coins, wallet) + (if coin.owner == Some(wallet) && !coin.spent then coin.amount else 0)
  {
    assert (coins + [coin])[..|coins|] == coins;
  }

  lemma {:induction false} UnspentAfterOne(coins: seq<Coin>, c: nat, wallet: int)
    requires c < |coins| && !coins[c].spent
    ensures Unspent(coins[c := coins[c].(spent := true)], wallet) ==
            Unspent(coins, wallet) - (if coins[c].owner == Some(wallet) then coins[c].amount else 0)
  {
    var k := |coins| - 1;
    var after := coins[c := coins[c].(spent := true)];
    if c == k {
      assert after[..k] == coins[..k];
    } else {
      UnspentAfterOne(coins[..k], c, wallet);
      assert after[..k] == coins[..k][c := coins[c].(spent := true)];
    }
  }

  /** Spending takes exactly the inputs out of the owner's unspent sum. */
  lemma {:induction false} UnspentAfterSpend(coins: seq<Coin>, owner: int, inputs: seq<nat>, wallet: int)
    requires Spendable(coins, owner, inputs)
    ensures Unspent(Spend(coins, inputs), wallet) ==
            Unspent(coins, wallet) - (if wallet == owner then InputSum(coins, inputs) else 0)
  {
    if inputs != [] {
      var n := |inputs| - 1;
      UnspentAfterSpend(coins, owner, inputs[..n], wallet);
      assert inputs[n] !in inputs[..n];
      UnspentAfterOne(Spend(coins, inputs[..n]), inputs[n], wallet);
    }
  }

  /** Several outputs of one transaction to one wallet. */
  function Received(owner: int, amounts: seq<int>): seq<Coin> {
    seq(|amounts|, i requires 0 <= i < |amounts| => Coin(Some(owner), amounts[i], false))
  }

  lemma {:induction false} UnspentReceived(coins: seq<Coin>, owner: int, amounts: seq<int>, wallet: int)
    ensures Unspent(coins + Received(owner, amounts), wallet) ==
            Unspent(coins, wallet) + (if owner == wallet then Sum(amounts) else 0)
  {
    var received := Received(owner, amounts);
    if amounts == [] {
      assert coins + received == coins;
    } else {
      var k := |amounts| - 1;
      UnspentReceived(coins, owner, amounts[..k], wallet);
      UnspentAppend(coins + Received(owner, amounts[..k]), received[k], wallet);
      assert coins + received == coins + Received(owner, amounts[..k]) + [received[k]];
    }
  }

  /** What a send takes from its sender and gives to the owners of its outputs. */
  lemma UnspentAfterSending(
    coins: seq<Coin>, sender: int, inputs: seq<nat>, paid: Coin, change: int, wallet: int)
    requires Spendable(coins, sender, inputs) && !paid.spent
    ensures Unspent(Spend(coins, inputs) + [paid] + Change(sender, change), wallet) ==
            Unspent(coins, wallet) - (if wallet == sender then InputSum(coins, inputs) - change else 0)
            + (if paid.owner == Some(wallet) then paid.amount else 0)
  {
    var spent := Spend(coins, inputs);
    UnspentAfterSpend(coins, sender, inputs, wallet);
    UnspentAppend(spent, paid, wallet);
    if change != 0 {
      UnspentAppend(spent + [paid], Coin(Some(sender), change, false), wallet);
    } else {
      assert spent + [paid] + [] == spent + [paid];
    }
  }

  /** The output that returns to the sender, unless nothing does. */
  function Change(sender: int, change: int): seq<Coin> {
    if change == 0 then [] else [Coin(Some(sender), change, false)]
  }
}
