/** Transaction size and network fee arithmetic of the UTXO planner. */
module Fees {

  /** Outputs below this many satoshis are never created. */
  const DUST_SATS := 546

  /** Virtual size of one more P2WPKH input. */
  const INPUT_VBYTES := 68

  function EstimateVSize(inputs: nat, outputs: nat): int {
    10 + INPUT_VBYTES * inputs + 31 * outputs
  }

  function Ceil(x: real): int {
    -((-x).Floor)
  }

  function FeeSats(vbytes: int, rate: real): int {
    if vbytes <= 0 || rate <= 0.0 then 0 else Ceil(vbytes as real * rate)
  }

  /** The fee of a transaction with the given number of inputs and outputs. */
  function TxFee(inputs: nat, outputs: nat, rate: real): int {
    FeeSats(EstimateVSize(inputs, outputs), rate)
  }

  /** A fee is the least whole number of satoshis that covers the exact price. */
  lemma FeeIsLeastCover(vbytes: int, rate: real)
    requires vbytes > 0 && rate > 0.0
    ensures vbytes as real * rate <= FeeSats(vbytes, rate) as real < vbytes as real * rate + 1.0
    ensures FeeSats(vbytes, rate) >= 1
  {
    var price := vbytes as real * rate;
    assert price > 0.0;
    assert FeeSats(vbytes, rate) as real >= price;
  }

  /** More inputs or more outputs never make a transaction cheaper. */
  lemma FeeMonotone(small: int, large: int, rate: real)
    requires 0 < small <= large && rate > 0.0
    ensures FeeSats(small, rate) <= FeeSats(large, rate)
  {
    assert large as real * rate - small as real * rate == (large - small) as real * rate;
    FeeIsLeastCover(small, rate);
    FeeIsLeastCover(large, rate);
  }
}
