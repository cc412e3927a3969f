/** PSBT assembly of src/lib/tx/btc/psbtBuilder.ts (`buildPsbt`, `buildPsbtFromUtxos`). The
    PSBT is an abstract record of version, locktime, inputs and outputs; its serialised form
    and the OP_RETURN script bytes are not modelled. `buildPsbt` is shared with the BCH
    builder, which differs only in how output addresses are rewritten. */
module PsbtBuilder {
  import opened Wrappers
  import opened JsString
  import opened UtxoQueryClient
  import opened CoinSelection

  const DefaultVersion: int := 2
  const DefaultFeeRate: int := 10
  const InputsIncomplete: string := "All inputs must have txid and hex"
  const OutputsIncomplete: string := "All outputs must have address and amount"

  /** An input to spend; a missing `txid` or `hex` is the empty string (both are falsy). */
  datatype PsbtInputConfig = PsbtInputConfig(txid: string, vout: int, hex: string)

  /** An output to pay; a missing address is the empty string, a missing amount `None`. */
  datatype PsbtOutputConfig = PsbtOutputConfig(address: string, amount: Option<int>)

  datatype PsbtConfig = PsbtConfig(
    inputs: seq<PsbtInputConfig>,
    outputs: seq<PsbtOutputConfig>,
    version: Option<int>,
    locktime: Option<int>,
    opReturnData: Option<string>)

  /** A PSBT input: the spent transaction id, output index and full previous transaction. */
  datatype TxInput = TxInput(hash: string, index: int, nonWitnessUtxo: string)

  /** A PSBT output: a payment to an address, or the OP_RETURN script embedding `data`. */
  datatype TxOutput = PayTo(address: string, value: int) | Embed(data: string, value: int)

  datatype PsbtData = PsbtData(version: int, locktime: int, inputs: seq<TxInput>, outputs: seq<TxOutput>)

  /** The mutable `bitcoin.Psbt` the builder fills in. */
  class Psbt {
    var version: int
    var locktime: int
    var inputs: seq<TxInput>
    var outputs: seq<TxOutput>

    function Data(): PsbtData
      reads this
    {
      PsbtData(version, locktime, inputs, outputs)
    }

    /** `new bitcoin.Psbt(...)`: version 2, locktime 0, nothing to spend or pay. */
    constructor()
      ensures Data() == PsbtData(DefaultVersion, 0, [], [])
    {
      version := DefaultVersion;
      locktime := 0;
      inputs := [];
      outputs := [];
    }

    method SetVersion(v: int)
      modifies this
      ensures Data() == old(Data()).(version := v)
    {
      version := v;
    }

    method SetLocktime(l: int)
      modifies this
      ensures Data() == old(Data()).(locktime := l)
    {
      locktime := l;
    }

    method AddInput(input: TxInput)
      modifies this
      ensures Data() == old(Data()).(inputs := old(inputs) + [input])
    {
      inputs := inputs + [input];
    }

    method AddOutput(output: TxOutput)
      modifies this
      ensures Data() == old(Data()).(outputs := old(outputs) + [output])
    {
      outputs := outputs + [output];
    }
  }

  // ---------------------------------------------------------------------------
  // buildPsbt
  // ---------------------------------------------------------------------------

  predicate InputComplete(input: PsbtInputConfig) {
    input.txid != "" && input.hex != ""
  }

  predicate OutputComplete(output: PsbtOutputConfig) {
    output.address != "" && output.amount.Some?
  }

  /** `config.opReturnData?.trim()` is truthy. */
  predicate HasOpReturn(config: PsbtConfig) {
    config.opReturnData.Some? && Trim(config.opReturnData.value) != ""
  }

  /** `config.version ?? 2`. */
  function VersionOf(config: PsbtConfig): (v: int)
    ensures config.version.None? ==> v == DefaultVersion
    ensures config.version.Some? ==> v == config.version.value
  {
    config.version.GetOr(DefaultVersion)
  }

  /** The locktime after `if (config.locktime && config.locktime > 0) setLocktime(...)`. */
  function LocktimeOf(config: PsbtConfig): (l: int)
    ensures l >= 0
    ensures l > 0 <==> config.locktime.Some? && config.locktime.value > 0
    ensures l > 0 ==> l == config.locktime.value
  {
    if config.locktime.Some? && config.locktime.value > 0 then config.locktime.value else 0
  }

  function ToTxInput(input: PsbtInputConfig): TxInput {
    TxInput(input.txid, input.vout, input.hex)
  }

  /** The payment a complete output config adds. */
  function ToTxOutput(output: PsbtOutputConfig, finalAddress: string -> string): TxOutput {
    PayTo(finalAddress(output.address), output.amount.GetOr(0))
  }

  function Inputs(config: PsbtConfig): (inputs: seq<TxInput>)
    ensures |inputs| == |config.inputs|
    ensures forall i :: 0 <= i < |config.inputs| ==> inputs[i] == ToTxInput(config.inputs[i])
  {
    seq(|config.inputs|, i requires 0 <= i < |config.inputs| => ToTxInput(config.inputs[i]))
  }

  function Payments(config: PsbtConfig, finalAddress: string -> string): (outputs: seq<TxOutput>)
    ensures |outputs| == |config.outputs|
    ensures forall i :: 0 <= i < |config.outputs| ==> outputs[i] == ToTxOutput(config.outputs[i], finalAddress)
  {
    seq(|config.outputs|, i requires 0 <= i < |config.outputs| => ToTxOutput(config.outputs[i], finalAddress))
  }

  /** The OP_RETURN output, present when the trimmed data is non-empty. */
  function OpReturnOutputs(config: PsbtConfig): seq<TxOutput> {
    if HasOpReturn(config) then [Embed(config.opReturnData.value, 0)] else []
  }

  /** `buildPsbt` as a specification, with `finalAddress` rewriting each output address. */
  function BuildSpec(config: PsbtConfig, finalAddress: string -> string): (r: Result<PsbtData>)
    ensures r.Ok? <==> ((forall i :: 0 <= i < |config.inputs| ==> InputComplete(config.inputs[i]))
      && (forall i :: 0 <= i < |config.outputs| ==> OutputComplete(config.outputs[i])))
    ensures r.Err? ==> (r.error ==
      if exists i :: 0 <= i < |config.inputs| && !InputComplete(config.inputs[i]) then InputsIncomplete
      else OutputsIncomplete)
  {
    if exists i :: 0 <= i < |config.inputs| && !InputComplete(config.inputs[i]) then Err(InputsIncomplete)
    else if exists i :: 0 <= i < |config.outputs| && !OutputComplete(config.outputs[i]) then Err(OutputsIncomplete)
    else
      Ok(PsbtData(VersionOf(config), LocktimeOf(config), Inputs(config), Payments(config, finalAddress) + OpReturnOutputs(config)))
  }

  /** A built PSBT spends the configured inputs in order and pays the configured outputs in
      order, followed by exactly one zero-value OP_RETURN output when the trimmed data is
      non-empty and by nothing otherwise. */
  lemma BuildSpecLayout(config: PsbtConfig, finalAddress: string -> string)
    requires BuildSpec(config, finalAddress).Ok?
    ensures var psbt := BuildSpec(config, finalAddress).value;
      && psbt.version == VersionOf(config) && psbt.locktime == LocktimeOf(config)
      && |psbt.inputs| == |config.inputs|
      && (forall i :: 0 <= i < |config.inputs| ==>
            psbt.inputs[i] == TxInput(config.inputs[i].txid, config.inputs[i].vout, config.inputs[i].hex))
      && |psbt.outputs| == |config.outputs| + (if HasOpReturn(config) then 1 else 0)
      && (forall i :: 0 <= i < |config.outputs| ==>
            psbt.outputs[i] == PayTo(finalAddress(config.outputs[i].address), config.outputs[i].amount.value))
      && (HasOpReturn(config) <==> exists i :: 0 <= i < |psbt.outputs| && psbt.outputs[i].Embed?)
      && (HasOpReturn(config) ==> psbt.outputs[|psbt.outputs| - 1] == Embed(config.opReturnData.value, 0))
  {
    var psbt := BuildSpec(config, finalAddress).value;
    var payments := Payments(config, finalAddress);
    assert psbt.outputs == payments + OpReturnOutputs(config);
    assert forall i :: 0 <= i < |payments| ==> payments[i].PayTo?;
    if HasOpReturn(config) {
      assert psbt.outputs[|psbt.outputs| - 1].Embed?;
    } else {
      assert psbt.outputs == payments;
    }
  }

  /** The OP_RETURN output depends only on whether the data trims to nothing: blank data
      adds no output. */
  lemma BlankOpReturnAddsNothing(config: PsbtConfig)
    requires config.opReturnData.Some? && IsBlank(config.opReturnData.value)
    ensures OpReturnOutputs(config) == []
  {
    TrimEmptyIffBlank(config.opReturnData.value);
  }

  /** `buildPsbt`: set the version and the locktime, then add each input and each output in
      turn, throwing at the first incomplete one, then the OP_RETURN output. */
  method BuildPsbt(config: PsbtConfig, finalAddress: string -> string) returns (r: Result<Psbt>)
    ensures r.Ok? <==> BuildSpec(config, finalAddress).Ok?
    ensures r.Err? ==> r.error == BuildSpec(config, finalAddress).error
    ensures r.Ok? ==> fresh(r.value) && r.value.Data() == BuildSpec(config, finalAddress).value
  {
    var psbt := new Psbt();
    psbt.SetVersion(VersionOf(config));
    if config.locktime.Some? && config.locktime.value > 0 {
      psbt.SetLocktime(config.locktime.value);
    }
    for i := 0 to |config.inputs|
      invariant psbt.version == VersionOf(config) && psbt.locktime == LocktimeOf(config)
      invariant |psbt.inputs| == i && psbt.outputs == []
      invariant forall j :: 0 <= j < i ==> InputComplete(config.inputs[j]) && psbt.inputs[j] == ToTxInput(config.inputs[j])
    {
      var input := config.inputs[i];
      if !InputComplete(input) {
        BuildSpecRejectsInput(config, finalAddress, i);
        return Err(InputsIncomplete);
      }
      psbt.AddInput(ToTxInput(input));
    }
    for i := 0 to |config.outputs|
      invariant psbt.version == VersionOf(config) && psbt.locktime == LocktimeOf(config)
      invariant |psbt.inputs| == |config.inputs|
      invariant forall j :: 0 <= j < |config.inputs| ==> InputComplete(config.inputs[j]) && psbt.inputs[j] == ToTxInput(config.inputs[j])
      invariant |psbt.outputs| == i
      invariant forall j :: 0 <= j < i ==> OutputComplete(config.outputs[j]) && psbt.outputs[j] == ToTxOutput(config.outputs[j], finalAddress)
    {
      var output := config.outputs[i];
      if !OutputComplete(output) {
        BuildSpecRejectsOutput(config, finalAddress, i);
        return Err(OutputsIncomplete);
      }
      psbt.AddOutput(ToTxOutput(output, finalAddress));
    }
    assert psbt.inputs == Inputs(config);
    assert psbt.outputs == Payments(config, finalAddress);
    if HasOpReturn(config) {
      psbt.AddOutput(Embed(config.opReturnData.value, 0));
    }
    BuildSpecAccepts(config, finalAddress);
    return Ok(psbt);
  }

  /** An incomplete input makes the build throw the input error. */
  lemma BuildSpecRejectsInput(config: PsbtConfig, finalAddress: string -> string, i: nat)
    requires i < |config.inputs| && !InputComplete(config.inputs[i])
    ensures BuildSpec(config, finalAddress) == Err(InputsIncomplete)
  {
  }

  /** With every input complete, an incomplete output makes the build throw the output error. */
  lemma BuildSpecRejectsOutput(config: PsbtConfig, finalAddress: string -> string, i: nat)
    requires forall j :: 0 <= j < |config.inputs| ==> InputComplete(config.inputs[j])
    requires i < |config.outputs| && !OutputComplete(config.outputs[i])
    ensures BuildSpec(config, finalAddress) == Err(OutputsIncomplete)
  {
  }

  /** A configuration whose inputs and outputs are all complete builds: the version, the
      locktime, the inputs and the payments in order, then the OP_RETURN output if any. */
  lemma BuildSpecAccepts(config: PsbtConfig, finalAddress: string -> string)
    requires forall j :: 0 <= j < |config.inputs| ==> InputComplete(config.inputs[j])
    requires forall j :: 0 <= j < |config.outputs| ==> OutputComplete(config.outputs[j])
    ensures BuildSpec(config, finalAddress) == Ok(PsbtData(VersionOf(config), LocktimeOf(config),
      Inputs(config), Payments(config, finalAddress) + OpReturnOutputs(config)))
  {
  }

  // ---------------------------------------------------------------------------
  // buildPsbtFromUtxos
  // ---------------------------------------------------------------------------

  /** `totalInput - amount - estimatedFee` for the selected UTXOs. */
  function Change(selected: seq<Utxo>, amount: int, feeRate: int): int {
    Total(selected) - amount - EstimateFee(|selected|, PlannedOutputs, feeRate)
  }

  /** The destination output, then the change output only when the change is positive. */
  function PaymentOutputs(fromAddress: string, toAddress: string, amount: int, change: int): (outputs: seq<PsbtOutputConfig>)
    ensures |outputs| == if change > 0 then 2 else 1
    ensures outputs[0] == PsbtOutputConfig(toAddress, Some(amount))
    ensures forall i :: 1 <= i < |outputs| ==> outputs[i] == PsbtOutputConfig(fromAddress, Some(change)) && change > 0
  {
    var outputs := [PsbtOutputConfig(toAddress, Some(amount))];
    if change > 0 then outputs + [PsbtOutputConfig(fromAddress, Some(change))] else outputs
  }

  function SumAmounts(outputs: seq<PsbtOutputConfig>): int {
    if outputs == [] then 0 else outputs[0].amount.GetOr(0) + SumAmounts(outputs[1..])
  }

  /** Value conservation: after a successful selection the change is never negative, and the
      planned outputs plus the estimated fee account for exactly the selected total. */
  lemma PaymentConservesValue(utxos: seq<Utxo>, fromAddress: string, toAddress: string, amount: int, feeRate: int)
    requires Select(utxos, amount, feeRate).Ok?
    ensures var selected := Select(utxos, amount, feeRate).value;
      var change := Change(selected, amount, feeRate);
      && change >= 0
      && SumAmounts(PaymentOutputs(fromAddress, toAddress, amount, change))
         + EstimateFee(|selected|, PlannedOutputs, feeRate) == Total(selected)
  {
    SelectIsShortestCoveringPrefix(utxos, amount, feeRate);
    var selected := Select(utxos, amount, feeRate).value;
    var change := Change(selected, amount, feeRate);
    var outputs := PaymentOutputs(fromAddress, toAddress, amount, change);
    if change > 0 {
      assert outputs[1..][1..] == [];
      assert SumAmounts(outputs[1..]) == change + SumAmounts(outputs[1..][1..]);
    } else {
      assert outputs[1..] == [];
    }
  }

  /** The transaction inputs of a selection, each with the previous transaction the oracle
      returns for its hash; the first failing fetch in selection order rejects them all. */
  function FetchInputs(selected: seq<Utxo>, fetchTransaction: string -> Result<string>): (r: Result<seq<PsbtInputConfig>>)
    ensures r.Ok? <==> forall i :: 0 <= i < |selected| ==> fetchTransaction(selected[i].hash).Ok?
    ensures r.Ok? ==> |r.value| == |selected| && forall i :: 0 <= i < |selected| ==>
      r.value[i] == PsbtInputConfig(selected[i].hash, selected[i].index, fetchTransaction(selected[i].hash).value)
    ensures r.Err? ==> exists i :: 0 <= i < |selected| && fetchTransaction(selected[i].hash) == Err(r.error)
  {
    if selected == [] then Ok([])
    else
      var hex :- fetchTransaction(selected[0].hash);
      var rest :- FetchInputs(selected[1..], fetchTransaction);
      Ok([PsbtInputConfig(selected[0].hash, selected[0].index, hex)] + rest)
  }

  function Unchanged(address: string): string { address }

  /** `buildPsbtFromUtxos` as a specification; `feeRate` `None` takes the default of 10. */
  function BuildFromUtxosSpec(
    utxos: seq<Utxo>, fromAddress: string, toAddress: string, amount: int, feeRate: Option<int>,
    opReturnData: Option<string>, fetchTransaction: string -> Result<string>): Result<(PsbtData, seq<Utxo>)>
  {
    var rate := feeRate.GetOr(DefaultFeeRate);
    var selected :- Select(utxos, amount, rate);
    var outputs := PaymentOutputs(fromAddress, toAddress, amount, Change(selected, amount, rate));
    var inputs :- FetchInputs(selected, fetchTransaction);
    var psbt :- BuildSpec(PsbtConfig(inputs, outputs, None, None, opReturnData), Unchanged);
    Ok((psbt, selected))
  }

  /** `buildPsbtFromUtxos`: select, plan the outputs, fetch each input's previous transaction,
      build. */
  method BuildPsbtFromUtxos(
    utxos: seq<Utxo>, fromAddress: string, toAddress: string, amount: int, feeRate: Option<int>,
    opReturnData: Option<string>, fetchTransaction: string -> Result<string>)
    returns (r: Result<(Psbt, seq<Utxo>)>)
    ensures var spec := BuildFromUtxosSpec(utxos, fromAddress, toAddress, amount, feeRate, opReturnData, fetchTransaction);
      && (r.Ok? <==> spec.Ok?)
      && (r.Err? ==> r.error == spec.error)
      && (r.Ok? ==> fresh(r.value.0) && r.value.0.Data() == spec.value.0 && r.value.1 == spec.value.1)
  {
    var rate := feeRate.GetOr(DefaultFeeRate);
    var selection := SelectUtxos(utxos, amount, rate);
    if selection.Err? {
      return Err(selection.error);
    }
    var selectedUtxos := selection.value;
    var change := Total(selectedUtxos) - amount - EstimateFee(|selectedUtxos|, PlannedOutputs, rate);
    var outputs := [PsbtOutputConfig(toAddress, Some(amount))];
    if change > 0 {
      outputs := outputs + [PsbtOutputConfig(fromAddress, Some(change))];
    }
    assert outputs == PaymentOutputs(fromAddress, toAddress, amount, Change(selectedUtxos, amount, rate));
    var inputs := FetchInputs(selectedUtxos, fetchTransaction);
    if inputs.Err? {
      return Err(inputs.error);
    }
    var config := PsbtConfig(inputs.value, outputs, None, None, opReturnData);
    ghost var spec := BuildSpec(config, Unchanged);
    assert BuildFromUtxosSpec(utxos, fromAddress, toAddress, amount, feeRate, opReturnData, fetchTransaction)
      == if spec.Err? then Err(spec.error) else Ok((spec.value, selectedUtxos));
    var built := BuildPsbt(config, Unchanged);
    if built.Err? {
      return Err(built.error);
    }
    return Ok((built.value, selectedUtxos));
  }

  /** A PSBT built from UTXOs spends the selection in order, pays the destination first, adds
      change back to the sender only when positive, and puts any OP_RETURN output last; its
      payments plus the estimated fee equal the selected total. */
  lemma BuildFromUtxosLayout(
    utxos: seq<Utxo>, fromAddress: string, toAddress: string, amount: int, feeRate: Option<int>,
    opReturnData: Option<string>, fetchTransaction: string -> Result<string>)
    requires BuildFromUtxosSpec(utxos, fromAddress, toAddress, amount, feeRate, opReturnData, fetchTransaction).Ok?
    ensures var rate := feeRate.GetOr(DefaultFeeRate);
      var (psbt, selected) := BuildFromUtxosSpec(utxos, fromAddress, toAddress, amount, feeRate, opReturnData, fetchTransaction).value;
      var change := Change(selected, amount, rate);
      var embed := if opReturnData.Some? && Trim(opReturnData.value) != "" then [Embed(opReturnData.value, 0)] else [];
      && Select(utxos, amount, rate) == Ok(selected)
      && psbt.version == DefaultVersion && psbt.locktime == 0
      && |psbt.inputs| == |selected|
      && (forall i :: 0 <= i < |selected| ==>
            psbt.inputs[i].hash == selected[i].hash && psbt.inputs[i].index == selected[i].index)
      && psbt.outputs == [PayTo(toAddress, amount)]
           + (if change > 0 then [PayTo(fromAddress, change)] else []) + embed
      && change >= 0
  {
    var rate := feeRate.GetOr(DefaultFeeRate);
    var selected := Select(utxos, amount, rate).value;
    var change := Change(selected, amount, rate);
    var outputs := PaymentOutputs(fromAddress, toAddress, amount, change);
    var inputs := FetchInputs(selected, fetchTransaction).value;
    var config := PsbtConfig(inputs, outputs, None, None, opReturnData);
    assert BuildSpec(config, Unchanged).Ok?;
    BuildSpecAccepts(config, Unchanged);
    PlannedPayments(config, fromAddress, toAddress, amount, change);
    PaymentConservesValue(utxos, fromAddress, toAddress, amount, rate);
  }

  /** What the builder's call of `fetchTransaction` throws: `UtxoContext` declares no such
      method, so the property is `undefined` and calling it is a TypeError. */
  const FetchTransactionMissing: string := "utxoContext.fetchTransaction is not a function"

  /** The previous-transaction lookup as `buildPsbtFromUtxos` reaches it: every call throws. */
  function MissingFetchTransaction(hash: string): Result<string> {
    Err(FetchTransactionMissing)
  }

  /** With the lookup as written, no non-empty UTXO list yields a PSBT: selection either
      fails or takes at least one UTXO, and the first lookup throws. */
  lemma BuildWithMissingFetchTransactionFails(
    utxos: seq<Utxo>, fromAddress: string, toAddress: string, amount: int, feeRate: Option<int>,
    opReturnData: Option<string>)
    requires utxos != []
    ensures var r := BuildFromUtxosSpec(utxos, fromAddress, toAddress, amount, feeRate, opReturnData,
      MissingFetchTransaction);
      r == Err(InsufficientFunds) || r == Err(FetchTransactionMissing)
  {
    var rate := feeRate.GetOr(DefaultFeeRate);
    SortByValueSortedPermutation(utxos);
    var selected := Select(utxos, amount, rate);
    if selected.Ok? {
      assert selected.value != [];
      assert !MissingFetchTransaction(selected.value[0].hash).Ok?;
    }
  }

  /** The payments of the planned outputs: the destination, then positive change. */
  lemma PlannedPayments(config: PsbtConfig, fromAddress: string, toAddress: string, amount: int, change: int)
    requires config.outputs == PaymentOutputs(fromAddress, toAddress, amount, change)
    ensures Payments(config, Unchanged) ==
      [PayTo(toAddress, amount)] + (if change > 0 then [PayTo(fromAddress, change)] else [])
  {
  }
}
