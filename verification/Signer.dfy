/** The checks the key management service makes before it signs a UTXO transaction. */
module Signer {
  import opened Fees
  import opened Money
  import opened Outcomes
  import opened Selection
  import opened Planner

  function InputFault(input: Utxo, wallet: string): Option<Error> {
    if input.hash == "" || input.amount <= 0 then Some(InvalidAmount)
    else if input.address != "" && input.address != wallet then Some(InvalidAddress)
    else None
  }

  function OutputFault(output: Output, valid: string -> bool): Option<Error> {
    if output.amount < DUST_SATS then Some(InvalidAmount)
    else if !valid(output.address) then Some(InvalidAddress)
    else None
  }

  /** The fault of the first faulty input. */
  function InputsFault(inputs: seq<Utxo>, wallet: string): (fault: Option<Error>)
    ensures fault in {None, Some(InvalidAmount), Some(InvalidAddress)}
  {
    if inputs == [] then None
    else
      var earlier := InputsFault(inputs[..|inputs| - 1], wallet);
      if earlier.Some? then earlier else InputFault(inputs[|inputs| - 1], wallet)
  }

  function OutputsFault(outputs: seq<Output>, valid: string -> bool): (fault: Option<Error>)
    ensures fault in {None, Some(InvalidAmount), Some(InvalidAddress)}
  {
    if outputs == [] then None
    else
      var earlier := OutputsFault(outputs[..|outputs| - 1], valid);
      if earlier.Some? then earlier else OutputFault(outputs[|outputs| - 1], valid)
  }

  /** The reason for which signing is refused, if any. */
  function Refusal(inputs: seq<Utxo>, outputs: seq<Output>, wallet: string, valid: string -> bool): Option<Error> {
    if inputs == [] || outputs == [] then Some(InvalidAmount)
    else if !valid(wallet) then Some(InvalidAddress)
    else if InputsFault(inputs, wallet).Some? then InputsFault(inputs, wallet)
    else if OutputsFault(outputs, valid).Some? then OutputsFault(outputs, valid)
    else if Total(inputs) <= OutputTotal(outputs) then Some(InsufficientBalance)
    else None
  }

  lemma {:induction false} FirstInputFault(inputs: seq<Utxo>, n: nat, wallet: string)
    requires n <= |inputs| && InputsFault(inputs[..n], wallet).Some?
    ensures InputsFault(inputs, wallet) == InputsFault(inputs[..n], wallet)
    decreases |inputs|
  {
    if n < |inputs| {
      assert inputs[..|inputs| - 1][..n] == inputs[..n];
      FirstInputFault(inputs[..|inputs| - 1], n, wallet);
    } else {
      assert inputs[..n] == inputs;
    }
  }

  lemma {:induction false} FirstOutputFault(outputs: seq<Output>, n: nat, valid: string -> bool)
    requires n <= |outputs| && OutputsFault(outputs[..n], valid).Some?
    ensures OutputsFault(outputs, valid) == OutputsFault(outputs[..n], valid)
    decreases |outputs|
  {
    if n < |outputs| {
      assert outputs[..|outputs| - 1][..n] == outputs[..n];
      FirstOutputFault(outputs[..|outputs| - 1], n, valid);
    } else {
      assert outputs[..n] == outputs;
    }
  }

  /** BitcoinTransactionParams.validate. */
  method Validate(inputs: seq<Utxo>, outputs: seq<Output>, wallet: string, valid: string -> bool)
    returns (refusal: Option<Error>)
    ensures refusal == Refusal(inputs, outputs, wallet, valid)
  {
    if |inputs| == 0 || |outputs| == 0 {
      return Some(InvalidAmount);
    }
    if !valid(wallet) {
      return Some(InvalidAddress);
    }
    var inputTotal := 0;
    for i := 0 to |inputs|
      invariant inputTotal == Total(inputs[..i]) && InputsFault(inputs[..i], wallet).None?
    {
      assert inputs[..i + 1][..i] == inputs[..i];
      if InputsFault(inputs[..i + 1], wallet).Some? {
        FirstInputFault(inputs, i + 1, wallet);
      }
      if inputs[i].hash == "" || inputs[i].amount <= 0 {
        return Some(InvalidAmount);
      }
      if inputs[i].address != "" && inputs[i].address != wallet {
        return Some(InvalidAddress);
      }
      inputTotal := inputTotal + inputs[i].amount;
    }
    assert inputs[..|inputs|] == inputs;
    var outputTotal := 0;
    for i := 0 to |outputs|
      invariant outputTotal == OutputTotal(outputs[..i]) && OutputsFault(outputs[..i], valid).None?
    {
      assert outputs[..i + 1][..i] == outputs[..i];
      if OutputsFault(outputs[..i + 1], valid).Some? {
        FirstOutputFault(outputs, i + 1, valid);
      }
      if outputs[i].amount < DUST_SATS {
        return Some(InvalidAmount);
      }
      if !valid(outputs[i].address) {
        return Some(InvalidAddress);
      }
      outputTotal := outputTotal + outputs[i].amount;
    }
    assert outputs[..|outputs|] == outputs;
    if inputTotal <= outputTotal {
      return Some(InsufficientBalance);
    }
    return None;
  }

  /** Signing is accepted exactly for non-empty, well-formed, solvent transactions of the wallet itself. */
  lemma AcceptedExactly(inputs: seq<Utxo>, outputs: seq<Output>, wallet: string, valid: string -> bool)
    ensures Refusal(inputs, outputs, wallet, valid).None? <==>
            && inputs != [] && outputs != [] && valid(wallet)
            && (forall u | u in inputs :: u.hash != "" && u.amount > 0 && (u.address == "" || u.address == wallet))
            && (forall o | o in outputs :: o.amount >= DUST_SATS && valid(o.address))
            && Total(inputs) > OutputTotal(outputs)
  {
    NoInputFault(inputs, wallet);
    NoOutputFault(outputs, valid);
  }

  lemma {:induction false} NoInputFault(inputs: seq<Utxo>, wallet: string)
    ensures InputsFault(inputs, wallet).None? <==> forall u | u in inputs :: InputFault(u, wallet).None?
  {
    if inputs != [] {
      NoInputFault(inputs[..|inputs| - 1], wallet);
      assert inputs == inputs[..|inputs| - 1] + [inputs[|inputs| - 1]];
    }
  }

  lemma {:induction false} NoOutputFault(outputs: seq<Output>, valid: string -> bool)
    ensures OutputsFault(outputs, valid).None? <==> forall o | o in outputs :: OutputFault(o, valid).None?
  {
    if outputs != [] {
      NoOutputFault(outputs[..|outputs| - 1], valid);
      assert outputs == outputs[..|outputs| - 1] + [outputs[|outputs| - 1]];
    }
  }

  /** Every payment plan is accepted by the signer of the sending wallet. */
  lemma TransactionIsSignable(
    quote: Quote, sender: string, recipient: string, amount: Money, source: Source, excluded: set<UtxoKey>)
    requires Transaction(quote, sender, recipient, amount, source, excluded).Ok?
    ensures var plan := Transaction(quote, sender, recipient, amount, source, excluded).value;
            Refusal(plan.inputs, plan.outputs, sender, source.validAddress).None?
  {
    TransactionConserves(quote, sender, recipient, amount, source, excluded);
    var plan := Transaction(quote, sender, recipient, amount, source, excluded).value;
    AcceptedExactly(plan.inputs, plan.outputs, sender, source.validAddress);
  }

  /** Every sweep plan is accepted by the signer of the sending wallet. */
  lemma SweepIsSignable(quote: Quote, sender: string, recipient: string, source: Source, excluded: set<UtxoKey>)
    requires SweepTransaction(quote, sender, recipient, source, excluded).Ok?
    ensures var plan := SweepTransaction(quote, sender, recipient, source, excluded).value;
            Refusal(plan.inputs, plan.outputs, sender, source.validAddress).None?
  {
    SweepConserves(quote, sender, recipient, source, excluded);
    var plan := SweepTransaction(quote, sender, recipient, source, excluded).value;
    AcceptedExactly(plan.inputs, plan.outputs, sender, source.validAddress);
  }
}
