/** The Bitcoin Cash builder of src/lib/tx/bch/psbtBuilder.ts. Fee estimate and selection are
    those of `CoinSelection`; `buildPsbt` is that of `PsbtBuilder` with CashAddr destinations
    rewritten to legacy form. The address codec (`bchaddrjs`) is opaque: its two functions are
    parameters. The previous transactions come with the UTXOs, and the returned selection
    drops them. */
module BchPsbtBuilder {
  import opened Wrappers
  import opened JsString
  import opened UtxoQueryClient
  import opened CoinSelection
  import opened PsbtBuilder

  /** The address an output pays: the legacy form of a CashAddr, any other address as given. */
  function LegacyAddress(address: string, isCashAddress: string -> bool, toLegacyAddress: string -> string): (r: string)
    ensures !isCashAddress(address) ==> r == address
    ensures isCashAddress(address) ==> r == toLegacyAddress(address)
  {
    if isCashAddress(address) then toLegacyAddress(address) else address
  }

  function ToLegacy(isCashAddress: string -> bool, toLegacyAddress: string -> string): string -> string {
    (address: string) => LegacyAddress(address, isCashAddress, toLegacyAddress)
  }

  /** `BchPsbtBuilder.buildPsbt`. */
  method BuildBchPsbt(config: PsbtConfig, isCashAddress: string -> bool, toLegacyAddress: string -> string)
    returns (r: Result<Psbt>)
    ensures var spec := BuildSpec(config, ToLegacy(isCashAddress, toLegacyAddress));
      && (r.Ok? <==> spec.Ok?)
      && (r.Err? ==> r.error == spec.error)
      && (r.Ok? ==> fresh(r.value) && r.value.Data() == spec.value)
  {
    r := BuildPsbt(config, ToLegacy(isCashAddress, toLegacyAddress));
  }

  /** Each output of a BCH PSBT pays the legacy form of its configured address when that is a
      CashAddr, and the configured address otherwise. */
  lemma BchOutputsUseLegacyAddresses(config: PsbtConfig, isCashAddress: string -> bool, toLegacyAddress: string -> string, i: nat)
    requires BuildSpec(config, ToLegacy(isCashAddress, toLegacyAddress)).Ok?
    requires i < |config.outputs|
    ensures var out := BuildSpec(config, ToLegacy(isCashAddress, toLegacyAddress)).value.outputs[i];
      var address := config.outputs[i].address;
      && out.PayTo?
      && (isCashAddress(address) ==> out.address == toLegacyAddress(address))
      && (!isCashAddress(address) ==> out.address == address)
  {
    BuildSpecLayout(config, ToLegacy(isCashAddress, toLegacyAddress));
  }

  /** The inputs of a selection, each carrying its own previous transaction (a missing one is
      the empty string, which `buildPsbt` rejects). */
  function InputsWithHex(selected: seq<Utxo>): (inputs: seq<PsbtInputConfig>)
    ensures |inputs| == |selected|
    ensures forall i :: 0 <= i < |selected| ==>
      inputs[i] == PsbtInputConfig(selected[i].hash, selected[i].index, selected[i].hex.GetOr(""))
  {
    seq(|selected|, i requires 0 <= i < |selected| =>
      PsbtInputConfig(selected[i].hash, selected[i].index, selected[i].hex.GetOr("")))
  }

  /** `selectedUtxos.map(({ hex, ...utxo }) => utxo)`. */
  function StripHex(selected: seq<Utxo>): (r: seq<Utxo>)
    ensures |r| == |selected|
    ensures forall i :: 0 <= i < |selected| ==>
      r[i].hex.None? && r[i].hash == selected[i].hash && r[i].index == selected[i].index && r[i].value == selected[i].value
  {
    seq(|selected|, i requires 0 <= i < |selected| => selected[i].(hex := None))
  }

  /** Stripping keeps the total value. */
  lemma {:induction false} StripHexTotal(selected: seq<Utxo>)
    ensures Total(StripHex(selected)) == Total(selected)
  {
    if selected != [] {
      StripHexTotal(selected[1..]);
      assert StripHex(selected)[1..] == StripHex(selected[1..]);
    }
  }

  /** `BchPsbtBuilder.buildPsbtFromUtxos` as a specification. */
  function BuildBchFromUtxosSpec(
    utxosWithHex: seq<Utxo>, fromAddress: string, toAddress: string, amount: int, feeRate: Option<int>,
    opReturnData: Option<string>, isCashAddress: string -> bool, toLegacyAddress: string -> string)
    : Result<(PsbtData, seq<Utxo>)>
  {
    var rate := feeRate.GetOr(DefaultFeeRate);
    var selected :- Select(utxosWithHex, amount, rate);
    var outputs := PaymentOutputs(fromAddress, toAddress, amount, Change(selected, amount, rate));
    var config := PsbtConfig(InputsWithHex(selected), outputs, None, None, opReturnData);
    var psbt :- BuildSpec(config, ToLegacy(isCashAddress, toLegacyAddress));
    Ok((psbt, StripHex(selected)))
  }

  /** `BchPsbtBuilder.buildPsbtFromUtxos`: select, plan the outputs, take each input's
      previous transaction from its UTXO, build, and return the selection without `hex`. */
  method BuildBchPsbtFromUtxos(
    utxosWithHex: seq<Utxo>, fromAddress: string, toAddress: string, amount: int, feeRate: Option<int>,
    opReturnData: Option<string>, isCashAddress: string -> bool, toLegacyAddress: string -> string)
    returns (r: Result<(Psbt, seq<Utxo>)>)
    ensures var spec := BuildBchFromUtxosSpec(utxosWithHex, fromAddress, toAddress, amount, feeRate,
        opReturnData, isCashAddress, toLegacyAddress);
      && (r.Ok? <==> spec.Ok?)
      && (r.Err? ==> r.error == spec.error)
      && (r.Ok? ==> fresh(r.value.0) && r.value.0.Data() == spec.value.0 && r.value.1 == spec.value.1)
  {
    var rate := feeRate.GetOr(DefaultFeeRate);
    var selection := SelectUtxos(utxosWithHex, amount, rate);
    if selection.Err? {
      return Err(selection.error);
    }
    var selectedUtxos := selection.value;
    var change := Total(selectedUtxos) - amount - EstimateFee(|selectedUtxos|, PlannedOutputs, rate);
    var outputs := [PsbtOutputConfig(toAddress, Some(amount))];
    if change > 0 {
      outputs := outputs + [PsbtOutputConfig(fromAddress, Some(change))];
    }
    assert outputs == PaymentOutputs(fromAddress, toAddress, amount, Change(selectedUtxos, amount, rate));
    var config := PsbtConfig(InputsWithHex(selectedUtxos), outputs, None, None, opReturnData);
    var built := BuildBchPsbt(config, isCashAddress, toLegacyAddress);
    if built.Err? {
      return Err(built.error);
    }
    return Ok((built.value, StripHex(selectedUtxos)));
  }

  /** A BCH PSBT built from UTXOs spends the selection in order with each UTXO's own previous
      transaction, and hands back the same selection without `hex`. */
  lemma BchBuildFromUtxosInputs(
    utxosWithHex: seq<Utxo>, fromAddress: string, toAddress: string, amount: int, feeRate: Option<int>,
    opReturnData: Option<string>, isCashAddress: string -> bool, toLegacyAddress: string -> string)
    requires BuildBchFromUtxosSpec(utxosWithHex, fromAddress, toAddress, amount, feeRate,
      opReturnData, isCashAddress, toLegacyAddress).Ok?
    ensures var rate := feeRate.GetOr(DefaultFeeRate);
      var selected := Select(utxosWithHex, amount, rate).value;
      var (psbt, returned) := BuildBchFromUtxosSpec(utxosWithHex, fromAddress, toAddress, amount, feeRate,
        opReturnData, isCashAddress, toLegacyAddress).value;
      && Select(utxosWithHex, amount, rate).Ok?
      && |psbt.inputs| == |selected|
      && (forall i :: 0 <= i < |selected| ==>
            selected[i].hex.Some? && psbt.inputs[i] == TxInput(selected[i].hash, selected[i].index, selected[i].hex.value))
      && returned == StripHex(selected)
  {
    var rate := feeRate.GetOr(DefaultFeeRate);
    var selected := Select(utxosWithHex, amount, rate).value;
    var outputs := PaymentOutputs(fromAddress, toAddress, amount, Change(selected, amount, rate));
    var config := PsbtConfig(InputsWithHex(selected), outputs, None, None, opReturnData);
    BuildSpecLayout(config, ToLegacy(isCashAddress, toLegacyAddress));
    forall i | 0 <= i < |selected|
      ensures selected[i].hex.Some?
    {
      assert InputComplete(config.inputs[i]);
    }
  }

  /** A selected UTXO without a previous transaction makes the build throw the input error. */
  lemma BchMissingHexRejected(
    utxosWithHex: seq<Utxo>, fromAddress: string, toAddress: string, amount: int, feeRate: Option<int>,
    opReturnData: Option<string>, isCashAddress: string -> bool, toLegacyAddress: string -> string, i: nat)
    requires Select(utxosWithHex, amount, feeRate.GetOr(DefaultFeeRate)).Ok?
    requires var selected := Select(utxosWithHex, amount, feeRate.GetOr(DefaultFeeRate)).value;
      i < |selected| && selected[i].hex.None?
    ensures BuildBchFromUtxosSpec(utxosWithHex, fromAddress, toAddress, amount, feeRate,
      opReturnData, isCashAddress, toLegacyAddress) == Err(InputsIncomplete)
  {
    var rate := feeRate.GetOr(DefaultFeeRate);
    var selected := Select(utxosWithHex, amount, rate).value;
    var outputs := PaymentOutputs(fromAddress, toAddress, amount, Change(selected, amount, rate));
    var config := PsbtConfig(InputsWithHex(selected), outputs, None, None, opReturnData);
    assert !InputComplete(config.inputs[i]);
  }
}
