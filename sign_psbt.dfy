/** The generate-and-sign flow shared by the three `SignPsbtMethod.tsx` components
    (src/components/bitcoin, bch and dogecoin): building a PSBT from the chosen UTXOs, the
    signing requests handed to the wallet, the checks on the PSBT the wallet returns, and,
    for Bitcoin only, finalizing and broadcasting it. The wallet, the PSBT codec and the
    network are opaque: what they return is an input. */
module SignPsbt {
  import opened Wrappers
  import opened JsString
  import opened UtxoQueryClient
  import opened CoinSelection
  import opened PsbtBuilder
  import opened BchPsbtBuilder
  import opened UtxoSelection
  import UtxoContext

  datatype UtxoChain = Bitcoin | BitcoinCash | Dogecoin

  /** The sighash flag each request carries: `SIGHASH_ALL` for Bitcoin and Dogecoin, the
      BIP143 fork-id flag for Bitcoin Cash. */
  datatype SigHash = SigHashAll | SigHashBitcoinCashBip143

  function SigHashOf(chain: UtxoChain): (h: SigHash)
    ensures h == SigHashBitcoinCashBip143 <==> chain == BitcoinCash
  {
    if chain == BitcoinCash then SigHashBitcoinCashBip143 else SigHashAll
  }

  // ---------------------------------------------------------------------------
  // Generating
  // ---------------------------------------------------------------------------

  const BchFeeRateRequired: string := "Fee rate is required for BCH"
  const DogeFeeRateRequired: string := "Fee rate is required for Dogecoin"
  const GenerateFailed: string := "Failed to generate PSBT"

  /** The fee rate of a generation: Bitcoin parses a non-blank field and otherwise takes the
      recommended rate; Bitcoin Cash and Dogecoin refuse a blank field. */
  function FeeRateFor(chain: UtxoChain, feeRateText: string, recommended: int): (r: Result<int>)
    ensures Trim(feeRateText) != "" ==> r == ParseBigInt(feeRateText)
    ensures Trim(feeRateText) == "" && chain == Bitcoin ==> r == Ok(recommended)
    ensures Trim(feeRateText) == "" && chain == BitcoinCash ==> r == Err(BchFeeRateRequired)
    ensures Trim(feeRateText) == "" && chain == Dogecoin ==> r == Err(DogeFeeRateRequired)
  {
    if Trim(feeRateText) != "" then ParseBigInt(feeRateText)
    else match chain
      case Bitcoin => Ok(recommended)
      case BitcoinCash => Err(BchFeeRateRequired)
      case Dogecoin => Err(DogeFeeRateRequired)
  }

  /** A fee rate typed as an integer's decimal text is that integer, on every chain. */
  lemma FeeRateOfDecimalText(chain: UtxoChain, n: int, recommended: int)
    ensures FeeRateFor(chain, IntToString(n), recommended) == Ok(n)
  {
    var s := IntToString(n);
    TrimUnpadded(s);
    ParseBigIntOfIntToString(n);
  }

  /** `opReturnData.trim() || undefined`. */
  function OpReturnArgument(text: string): (r: Option<string>)
    ensures r.None? <==> IsBlank(text)
    ensures r.Some? ==> r.value == Trim(text)
  {
    TrimEmptyIffBlank(text);
    if Trim(text) != "" then Some(Trim(text)) else None
  }

  /** `handleGeneratePsbt` after its form checks: the UTXOs to use, the fee rate, then the
      chain's builder; an error without a message becomes "Failed to generate PSBT". The
      builder's previous-transaction lookup and the address codec are parameters. */
  function Generate(
    chain: UtxoChain, utxos: seq<Utxo>, selected: seq<UtxoKey>, feeRateText: string, recommended: int,
    fromAddress: string, toAddress: string, amount: int, opReturnText: string,
    fetchTransaction: string -> Result<string>, isCashAddress: string -> bool, toLegacyAddress: string -> string)
    : Result<(PsbtData, seq<Utxo>)>
  {
    var built := (
      var toUse :- UtxosToUse(utxos, selected);
      var rate :- FeeRateFor(chain, feeRateText, recommended);
      BuildFor(chain, toUse, rate, fromAddress, toAddress, amount, OpReturnArgument(opReturnText),
        fetchTransaction, isCashAddress, toLegacyAddress));
    if built.Err? && built.error == "" then Err(GenerateFailed) else built
  }

  /** The chain's own builder, given the UTXOs to use and the fee rate. */
  function BuildFor(
    chain: UtxoChain, toUse: seq<Utxo>, rate: int, fromAddress: string, toAddress: string, amount: int,
    opReturn: Option<string>, fetchTransaction: string -> Result<string>, isCashAddress: string -> bool,
    toLegacyAddress: string -> string)
    : Result<(PsbtData, seq<Utxo>)>
  {
    if chain == BitcoinCash then
      BuildBchFromUtxosSpec(toUse, fromAddress, toAddress, amount, Some(rate), opReturn, isCashAddress, toLegacyAddress)
    else
      BuildFromUtxosSpec(toUse, fromAddress, toAddress, amount, Some(rate), opReturn, fetchTransaction)
  }

  /** The checks come in the source's order: no UTXO to use is reported before a missing fee
      rate, and a missing fee rate before anything the builder could report. */
  lemma GenerateChecksInOrder(
    chain: UtxoChain, utxos: seq<Utxo>, selected: seq<UtxoKey>, feeRateText: string, recommended: int,
    fromAddress: string, toAddress: string, amount: int, opReturnText: string,
    fetchTransaction: string -> Result<string>, isCashAddress: string -> bool, toLegacyAddress: string -> string)
    ensures var r := Generate(chain, utxos, selected, feeRateText, recommended, fromAddress, toAddress, amount,
      opReturnText, fetchTransaction, isCashAddress, toLegacyAddress);
      && (UtxosToUse(utxos, selected).Err? ==> r == Err(NoUtxos))
      && (UtxosToUse(utxos, selected).Ok? && IsBlank(feeRateText) && chain == BitcoinCash ==> r == Err(BchFeeRateRequired))
      && (UtxosToUse(utxos, selected).Ok? && IsBlank(feeRateText) && chain == Dogecoin ==> r == Err(DogeFeeRateRequired))
  {
    TrimEmptyIffBlank(feeRateText);
  }

  /** With the builder's lookup as written, generation on Bitcoin and Dogecoin never yields a
      PSBT: it stops at the UTXO choice, the fee rate or selection, or else at the first
      `fetchTransaction` call. */
  lemma GenerateWithMissingFetchTransactionFails(
    chain: UtxoChain, utxos: seq<Utxo>, selected: seq<UtxoKey>, feeRateText: string, recommended: int,
    fromAddress: string, toAddress: string, amount: int, opReturnText: string,
    isCashAddress: string -> bool, toLegacyAddress: string -> string)
    requires chain != BitcoinCash
    ensures var r := Generate(chain, utxos, selected, feeRateText, recommended, fromAddress, toAddress, amount,
      opReturnText, MissingFetchTransaction, isCashAddress, toLegacyAddress);
      r.Err? && (UtxosToUse(utxos, selected).Ok? && FeeRateFor(chain, feeRateText, recommended).Ok?
        ==> r.error in {InsufficientFunds, FetchTransactionMissing})
  {
    var r := Generate(chain, utxos, selected, feeRateText, recommended, fromAddress, toAddress, amount,
      opReturnText, MissingFetchTransaction, isCashAddress, toLegacyAddress);
    var toUse := UtxosToUse(utxos, selected);
    var rate := FeeRateFor(chain, feeRateText, recommended);
    if toUse.Err? || rate.Err? {
      assert r.Err?;
    } else {
      var opReturn := OpReturnArgument(opReturnText);
      BuildWithMissingFetchTransactionFails(toUse.value, fromAddress, toAddress, amount, Some(rate.value), opReturn);
      var built := BuildFor(chain, toUse.value, rate.value, fromAddress, toAddress, amount, opReturn,
        MissingFetchTransaction, isCashAddress, toLegacyAddress);
      assert built.Err? && built.error != "";
      assert r == built;
    }
  }

  /** A generated PSBT spends only UTXOs the user could spend: each input is the hash and
      output index of a listed UTXO, and of a selected one whenever a selection was made. */
  lemma GenerateSpendsChosenUtxos(
    chain: UtxoChain, utxos: seq<Utxo>, selected: seq<UtxoKey>, feeRateText: string, recommended: int,
    fromAddress: string, toAddress: string, amount: int, opReturnText: string,
    fetchTransaction: string -> Result<string>, isCashAddress: string -> bool, toLegacyAddress: string -> string)
    requires Generate(chain, utxos, selected, feeRateText, recommended, fromAddress, toAddress, amount,
      opReturnText, fetchTransaction, isCashAddress, toLegacyAddress).Ok?
    ensures var psbt := Generate(chain, utxos, selected, feeRateText, recommended, fromAddress, toAddress, amount,
      opReturnText, fetchTransaction, isCashAddress, toLegacyAddress).value.0;
      forall i :: 0 <= i < |psbt.inputs| ==> exists u :: (u in utxos
        && u.hash == psbt.inputs[i].hash && u.index == psbt.inputs[i].index
        && (selected == [] || KeyOf(u) in selected))
  {
    GenerateIsBuilt(chain, utxos, selected, feeRateText, recommended, fromAddress, toAddress, amount,
      opReturnText, fetchTransaction, isCashAddress, toLegacyAddress);
    var toUse := UtxosToUse(utxos, selected).value;
    var rate := FeeRateFor(chain, feeRateText, recommended).value;
    var opReturn := OpReturnArgument(opReturnText);
    var psbt := BuildFor(chain, toUse, rate, fromAddress, toAddress, amount, opReturn,
      fetchTransaction, isCashAddress, toLegacyAddress).value.0;
    if chain == BitcoinCash {
      BchBuildSpendsFrom(toUse, fromAddress, toAddress, amount, rate, opReturn, isCashAddress, toLegacyAddress);
    } else {
      BuildSpendsFrom(toUse, fromAddress, toAddress, amount, rate, opReturn, fetchTransaction);
    }
    SpendsFromUsable(psbt, utxos, selected);
  }

  /** Every input of `data` spends the hash and output index of a UTXO in `pool`. */
  predicate SpendsFrom(data: PsbtData, pool: seq<Utxo>) {
    forall i :: 0 <= i < |data.inputs| ==>
      exists u :: u in pool && u.hash == data.inputs[i].hash && u.index == data.inputs[i].index
  }

  /** Spending from the UTXOs to use is spending listed UTXOs, and selected ones when a
      selection exists. */
  lemma SpendsFromUsable(data: PsbtData, utxos: seq<Utxo>, selected: seq<UtxoKey>)
    requires UtxosToUse(utxos, selected).Ok? && SpendsFrom(data, UtxosToUse(utxos, selected).value)
    ensures forall i :: 0 <= i < |data.inputs| ==> exists u :: (u in utxos
      && u.hash == data.inputs[i].hash && u.index == data.inputs[i].index
      && (selected == [] || KeyOf(u) in selected))
  {
    var toUse := UtxosToUse(utxos, selected).value;
    forall i | 0 <= i < |data.inputs|
      ensures exists u :: (u in utxos
        && u.hash == data.inputs[i].hash && u.index == data.inputs[i].index
        && (selected == [] || KeyOf(u) in selected))
    {
      var u :| u in toUse && u.hash == data.inputs[i].hash && u.index == data.inputs[i].index;
      assert u in utxos && (selected == [] || KeyOf(u) in selected);
    }
  }

  /** A generated PSBT is what the chain's builder made of the UTXOs to use and the fee rate. */
  lemma GenerateIsBuilt(
    chain: UtxoChain, utxos: seq<Utxo>, selected: seq<UtxoKey>, feeRateText: string, recommended: int,
    fromAddress: string, toAddress: string, amount: int, opReturnText: string,
    fetchTransaction: string -> Result<string>, isCashAddress: string -> bool, toLegacyAddress: string -> string)
    requires Generate(chain, utxos, selected, feeRateText, recommended, fromAddress, toAddress, amount,
      opReturnText, fetchTransaction, isCashAddress, toLegacyAddress).Ok?
    ensures UtxosToUse(utxos, selected).Ok? && FeeRateFor(chain, feeRateText, recommended).Ok?
    ensures Generate(chain, utxos, selected, feeRateText, recommended, fromAddress, toAddress, amount,
      opReturnText, fetchTransaction, isCashAddress, toLegacyAddress)
      == BuildFor(chain, UtxosToUse(utxos, selected).value, FeeRateFor(chain, feeRateText, recommended).value,
           fromAddress, toAddress, amount, OpReturnArgument(opReturnText), fetchTransaction, isCashAddress, toLegacyAddress)
  {
  }

  /** Each input of a Bitcoin Cash PSBT built from a list spends a UTXO of that list. */
  lemma BchBuildSpendsFrom(
    toUse: seq<Utxo>, fromAddress: string, toAddress: string, amount: int, rate: int,
    opReturn: Option<string>, isCashAddress: string -> bool, toLegacyAddress: string -> string)
    requires BuildBchFromUtxosSpec(toUse, fromAddress, toAddress, amount, Some(rate), opReturn, isCashAddress, toLegacyAddress).Ok?
    ensures var psbt := BuildBchFromUtxosSpec(toUse, fromAddress, toAddress, amount, Some(rate), opReturn,
        isCashAddress, toLegacyAddress).value.0;
      SpendsFrom(psbt, toUse)
  {
    BchBuildFromUtxosInputs(toUse, fromAddress, toAddress, amount, Some(rate), opReturn, isCashAddress, toLegacyAddress);
    SelectDrawsFromInput(toUse, amount, rate);
    var chosen := Select(toUse, amount, rate).value;
    forall i | 0 <= i < |chosen| ensures chosen[i] in toUse {
      assert chosen[i] in chosen;
    }
  }

  /** Each input of a PSBT built from a list spends a UTXO of that list. */
  lemma BuildSpendsFrom(
    toUse: seq<Utxo>, fromAddress: string, toAddress: string, amount: int, rate: int,
    opReturn: Option<string>, fetchTransaction: string -> Result<string>)
    requires BuildFromUtxosSpec(toUse, fromAddress, toAddress, amount, Some(rate), opReturn, fetchTransaction).Ok?
    ensures var psbt := BuildFromUtxosSpec(toUse, fromAddress, toAddress, amount, Some(rate), opReturn, fetchTransaction).value.0;
      SpendsFrom(psbt, toUse)
  {
    BuildFromUtxosLayout(toUse, fromAddress, toAddress, amount, Some(rate), opReturn, fetchTransaction);
    SelectDrawsFromInput(toUse, amount, rate);
    var chosen := Select(toUse, amount, rate).value;
    forall i | 0 <= i < |chosen| ensures chosen[i] in toUse {
      assert chosen[i] in chosen;
    }
  }

  // ---------------------------------------------------------------------------
  // Signing requests
  // ---------------------------------------------------------------------------

  /** A PSBT input as the components read it: its previous transaction's hash rendered as
      hex, and the output index it spends. */
  datatype InputRef = InputRef(hash: string, index: int)

  /** One entry of `inputsToSign`. */
  datatype SignRequest = SignRequest(address: string, signingIndexes: seq<int>, sigHash: SigHash)

  predicate Spends(u: Utxo, input: InputRef) {
    u.hash == input.hash && u.index == input.index
  }

  /** `selectedUtxosForPsbt.find(u => u.hash === inputHash && u.index === inputIndex)`. */
  function FindUtxo(selected: seq<Utxo>, input: InputRef): (r: Option<Utxo>)
    ensures r.None? <==> forall u :: u in selected ==> !Spends(u, input)
    ensures r.Some? ==> r.value in selected && Spends(r.value, input)
  {
    if selected == [] then None
    else if Spends(selected[0], input) then Some(selected[0])
    else FindUtxo(selected[1..], input)
  }

  /** `utxo ? utxo.index : psbtIndex`. */
  function SigningIndex(selected: seq<Utxo>, input: InputRef, position: nat): int {
    match FindUtxo(selected, input)
    case Some(u) => u.index
    case None => position
  }

  /** `inputsToSign`, as written: one request per PSBT input, for the sender's address. */
  function InputsToSign(inputs: seq<InputRef>, selected: seq<Utxo>, fromAddress: string, chain: UtxoChain): seq<SignRequest> {
    seq(|inputs|, i requires 0 <= i < |inputs| =>
      SignRequest(fromAddress, [SigningIndex(selected, inputs[i], i)], SigHashOf(chain)))
  }

  /** Each input gets one request naming one index: the output index it spends when that
      output is among the UTXOs the PSBT was built from, and its own position otherwise. */
  lemma InputsToSignIndexes(inputs: seq<InputRef>, selected: seq<Utxo>, fromAddress: string, chain: UtxoChain)
    ensures var r := InputsToSign(inputs, selected, fromAddress, chain);
      && |r| == |inputs|
      && forall i :: 0 <= i < |inputs| ==>
        && r[i].address == fromAddress
        && r[i].sigHash == SigHashOf(chain)
        && r[i].signingIndexes == [if exists u :: u in selected && Spends(u, inputs[i]) then inputs[i].index else i]
  {
  }

  /** As written, a request can name an index outside the PSBT: when the only input's rendered
      hash and index match a selected UTXO spending output 1, the wallet is asked to sign input 1
      of a one-input PSBT. Whether the rendered hash matches depends on the codec's byte order
      (see `SignPsbtSession.PalindromicTxidMissesThePsbt`). */
  lemma InputsToSignCanMissThePsbt()
    ensures var inputs := [InputRef("aa", 1)];
      var r := InputsToSign(inputs, [Utxo(1, "aa", 5000, None)], "addr", Bitcoin);
      r[0].signingIndexes == [1] && 1 >= |inputs|
  {
    var inputs := [InputRef("aa", 1)];
    var u := Utxo(1, "aa", 5000, None);
    assert FindUtxo([u], inputs[0]) == Some(u);
  }

  /** `inputsToSign` as a signing request means it: input `i` of the PSBT is signed as
      input `i`. */
  function InputsToSignByPosition(inputs: seq<InputRef>, fromAddress: string, chain: UtxoChain): seq<SignRequest> {
    seq(|inputs|, i requires 0 <= i < |inputs| => SignRequest(fromAddress, [i], SigHashOf(chain)))
  }

  /** Request `i` names input `i` and nothing else, so every input of the PSBT is requested
      exactly once and no request names an index outside the PSBT. */
  lemma InputsToSignByPositionCoversEachInput(inputs: seq<InputRef>, fromAddress: string, chain: UtxoChain)
    ensures var r := InputsToSignByPosition(inputs, fromAddress, chain);
      && |r| == |inputs|
      && (forall i :: 0 <= i < |r| ==> r[i].signingIndexes == [i] && r[i].address == fromAddress && r[i].sigHash == SigHashOf(chain))
      && (forall i, k :: 0 <= i < |r| && k in r[i].signingIndexes ==> 0 <= k < |inputs|)
  {
  }

  /** The code as written asks for the same input as the positional requests exactly when the
      input spends no selected UTXO or spends the output whose index is its own position. */
  lemma InputsToSignAgreesWithPosition(inputs: seq<InputRef>, selected: seq<Utxo>, fromAddress: string, chain: UtxoChain, i: nat)
    requires i < |inputs|
    ensures InputsToSign(inputs, selected, fromAddress, chain)[i] == InputsToSignByPosition(inputs, fromAddress, chain)[i]
      <==> (forall u :: u in selected ==> !Spends(u, inputs[i])) || inputs[i].index == i
  {
    InputsToSignIndexes(inputs, selected, fromAddress, chain);
  }

  // ---------------------------------------------------------------------------
  // Checking the signed PSBT
  // ---------------------------------------------------------------------------

  function NotSigned(i: nat): string {
    "Input #" + NatToString(i) + " is not signed. Please sign the PSBT first."
  }

  /** The first input, from `k` on, with no partial signature (a missing list counts as
      empty); the input count when there is none. */
  function FirstUnsignedFrom(sigCounts: seq<nat>, k: nat): (u: nat)
    requires k <= |sigCounts|
    ensures k <= u <= |sigCounts|
    ensures forall j :: k <= j < u ==> sigCounts[j] > 0
    ensures u < |sigCounts| ==> sigCounts[u] == 0
    decreases |sigCounts| - k
  {
    if k == |sigCounts| || sigCounts[k] == 0 then k else FirstUnsignedFrom(sigCounts, k + 1)
  }

  /** The loop over the signed PSBT's inputs, as a specification: it throws for the first
      input without a partial signature. */
  function SignedCheck(sigCounts: seq<nat>): Outcome {
    var u := FirstUnsignedFrom(sigCounts, 0);
    if u < |sigCounts| then Fail(NotSigned(u)) else Pass
  }

  /** The check passes exactly when every input carries a signature; otherwise it names the
      first input that does not. */
  lemma SignedCheckMeaning(sigCounts: seq<nat>)
    ensures SignedCheck(sigCounts).Pass? <==> forall i :: 0 <= i < |sigCounts| ==> sigCounts[i] > 0
    ensures SignedCheck(sigCounts).Fail? ==> exists i :: (0 <= i < |sigCounts| && sigCounts[i] == 0
      && (forall j :: 0 <= j < i ==> sigCounts[j] > 0) && SignedCheck(sigCounts).error == NotSigned(i))
  {
  }

  /** The signed-input loop, given each input's number of partial signatures. */
  method CheckAllSigned(sigCounts: seq<nat>) returns (r: Outcome)
    ensures r == SignedCheck(sigCounts)
  {
    for i := 0 to |sigCounts|
      invariant forall j :: 0 <= j < i ==> sigCounts[j] > 0
    {
      if sigCounts[i] == 0 {
        assert FirstUnsignedFrom(sigCounts, 0) == i by {
          FirstUnsignedIs(sigCounts, 0, i);
        }
        return Fail(NotSigned(i));
      }
    }
    FirstUnsignedIs(sigCounts, 0, |sigCounts|);
    return Pass;
  }

  lemma {:induction false} FirstUnsignedIs(sigCounts: seq<nat>, k: nat, u: nat)
    requires k <= u <= |sigCounts|
    requires forall j :: k <= j < u ==> sigCounts[j] > 0
    requires u < |sigCounts| ==> sigCounts[u] == 0
    ensures FirstUnsignedFrom(sigCounts, k) == u
    decreases u - k
  {
    if k < u {
      FirstUnsignedIs(sigCounts, k + 1, u);
    }
  }

  // ---------------------------------------------------------------------------
  // Finalizing (Bitcoin)
  // ---------------------------------------------------------------------------

  function CannotFinalize(i: nat, message: string): string {
    "Cannot finalize input #" + NatToString(i) + ": " + message + ". Make sure the PSBT is fully signed."
  }

  /** The first input, from `k` on, that `finalizeInput` refuses; `n` when there is none. */
  function FirstUnfinalizedFrom(finalizeInput: nat -> Outcome, n: nat, k: nat): (u: nat)
    requires k <= n
    ensures k <= u <= n
    ensures forall j :: k <= j < u ==> finalizeInput(j).Pass?
    ensures u < n ==> finalizeInput(u).Fail?
    decreases n - k
  {
    if k == n || finalizeInput(k).Fail? then k else FirstUnfinalizedFrom(finalizeInput, n, k + 1)
  }

  /** Finalizing, as a specification: `finalizeAllInputs`, and when that throws, each input in
      turn, the first refusal ending it with a message naming the input. */
  function Finalize(finalizeAll: Outcome, finalizeInput: nat -> Outcome, n: nat): Outcome {
    if finalizeAll.Pass? then Pass
    else
      var u := FirstUnfinalizedFrom(finalizeInput, n, 0);
      if u < n then Fail(CannotFinalize(u, finalizeInput(u).error)) else Pass
  }

  /** Finalizing fails only when both the bulk call and some single input fail, and then it
      names the first input refused. */
  lemma FinalizeMeaning(finalizeAll: Outcome, finalizeInput: nat -> Outcome, n: nat)
    ensures Finalize(finalizeAll, finalizeInput, n).Fail? <==>
      finalizeAll.Fail? && exists i :: 0 <= i < n && finalizeInput(i).Fail?
    ensures Finalize(finalizeAll, finalizeInput, n).Fail? ==> exists i :: (0 <= i < n
      && finalizeInput(i).Fail? && (forall j :: 0 <= j < i ==> finalizeInput(j).Pass?)
      && Finalize(finalizeAll, finalizeInput, n).error == CannotFinalize(i, finalizeInput(i).error))
  {
  }

  lemma {:induction false} FirstUnfinalizedIs(finalizeInput: nat -> Outcome, n: nat, k: nat, u: nat)
    requires k <= u <= n
    requires forall j :: k <= j < u ==> finalizeInput(j).Pass?
    requires u < n ==> finalizeInput(u).Fail?
    ensures FirstUnfinalizedFrom(finalizeInput, n, k) == u
    decreases u - k
  {
    if k < u {
      FirstUnfinalizedIs(finalizeInput, n, k + 1, u);
    }
  }

  /** The finalize step: the bulk call's outcome is given, and `finalizeInput(i)` is what
      finalizing input `i` alone does on the copy the failed bulk call left behind. bitcoinjs
      finalizes in input order and clears a finalized input's partial signatures, so after a
      bulk failure at input k > 0 the oracle can refuse input 0 again, and the message then
      names input 0 rather than k. */
  method FinalizeInputs(finalizeAll: Outcome, finalizeInput: nat -> Outcome, n: nat) returns (r: Outcome)
    ensures r == Finalize(finalizeAll, finalizeInput, n)
  {
    if finalizeAll.Pass? {
      return Pass;
    }
    for i := 0 to n
      invariant forall j :: 0 <= j < i ==> finalizeInput(j).Pass?
    {
      var outcome := finalizeInput(i);
      if outcome.Fail? {
        FirstUnfinalizedIs(finalizeInput, n, 0, i);
        return Fail(CannotFinalize(i, outcome.error));
      }
    }
    FirstUnfinalizedIs(finalizeInput, n, 0, n);
    return Pass;
  }

  // ---------------------------------------------------------------------------
  // Reporting
  // ---------------------------------------------------------------------------

  /** The Bitcoin component signs with Vultisig or with Phantom; the others with Vultisig. */
  datatype Wallet = Vultisig | Phantom

  /** What `onResult` receives after signing: the signed PSBT (under `signedPsbtPhantom` with
      `provider: 'phantom'` for Phantom) and, once broadcast, `broadcasted: true` with the
      transaction id. */
  datatype SignedReport = SignedReport(signedPsbt: string, provider: Option<string>, txid: Option<string>)

  /** A sign attempt either fails with one message, or reports the signed PSBT together with
      the message of a failed finalize-and-broadcast step, if any. */
  datatype SignOutcome = SignFailed(message: string) | Signed(report: SignedReport, broadcastError: Option<string>)

  function ProviderOf(wallet: Wallet): Option<string> {
    if wallet == Phantom then Some("phantom") else None
  }

  function BroadcastFailed(wallet: Wallet, message: string): string {
    (if wallet == Phantom then "Phantom broadcast failed: " else "Broadcast failed: ") + message
  }

  /** Reported when the wallet's extension is missing, before anything else is checked. */
  function ProviderMissing(wallet: Wallet): string {
    if wallet == Phantom then "Phantom extension not detected" else "Provider not available"
  }

  /** Thrown when the wallet offers no `signPSBT` function. */
  function SignMethodMissing(wallet: Wallet): string {
    if wallet == Phantom then "Phantom Sign PSBT method not available" else "Sign PSBT method not available"
  }

  /** The outer `catch`: the error's message, or "Unknown error", with a "Phantom: " prefix
      for Phantom. */
  function SignFailure(wallet: Wallet, message: string): string {
    (if wallet == Phantom then "Phantom: " else "") + UtxoContext.ReasonMessage(Some(message))
  }

  /** Bitcoin's finalize-and-broadcast step, given the finalize outcomes, what
      `extractTransaction` produced (the transaction's hex and id), and the broadcast
      endpoints' replies to that hex. */
  function FinishBitcoin(
    wallet: Wallet, signedPsbt: string, finalizeAll: Outcome, finalizeInput: nat -> Outcome, n: nat,
    extracted: Result<(string, string)>, exchanges: seq<UtxoContext.Exchange<string>>): SignOutcome
  {
    var finalized := Finalize(finalizeAll, finalizeInput, n);
    var failure :=
      if finalized.Fail? then Some(finalized.error)
      else if extracted.Err? then Some(extracted.error)
      else match UtxoContext.BroadcastTransaction(exchanges)
        case Err(e) => Some(e)
        case Ok(_) => None;
    if failure.Some? then
      Signed(SignedReport(signedPsbt, ProviderOf(wallet), None), Some(BroadcastFailed(wallet, UtxoContext.ReasonMessage(failure))))
    else
      Signed(SignedReport(signedPsbt, ProviderOf(wallet), Some(extracted.value.1)), None)
  }

  /** `handleSignPsbt` from the wallet's answer on: the signed-input check, then, for Bitcoin
      only, finalizing and broadcasting. `sigCounts` holds the number of partial signatures of
      each input of the signed PSBT. */
  function AfterSigning(
    chain: UtxoChain, wallet: Wallet, signedPsbt: string, sigCounts: seq<nat>,
    finalizeAll: Outcome, finalizeInput: nat -> Outcome,
    extracted: Result<(string, string)>, exchanges: seq<UtxoContext.Exchange<string>>): SignOutcome
    requires chain != Bitcoin ==> wallet == Vultisig
  {
    match SignedCheck(sigCounts)
    case Fail(e) => SignFailed(SignFailure(wallet, e))
    case Pass =>
      if chain == Bitcoin then FinishBitcoin(wallet, signedPsbt, finalizeAll, finalizeInput, |sigCounts|, extracted, exchanges)
      else Signed(SignedReport(signedPsbt, None, None), None)
  }

  /** Nothing is reported as signed unless every input carries a signature; a missing one
      fails the attempt with a message naming the first such input. */
  lemma SignedOnlyWhenEveryInputSigned(
    chain: UtxoChain, wallet: Wallet, signedPsbt: string, sigCounts: seq<nat>,
    finalizeAll: Outcome, finalizeInput: nat -> Outcome,
    extracted: Result<(string, string)>, exchanges: seq<UtxoContext.Exchange<string>>)
    requires chain != Bitcoin ==> wallet == Vultisig
    ensures var r := AfterSigning(chain, wallet, signedPsbt, sigCounts, finalizeAll, finalizeInput, extracted, exchanges);
      && (r.Signed? <==> forall i :: 0 <= i < |sigCounts| ==> sigCounts[i] > 0)
      && (r.SignFailed? ==> exists i :: (0 <= i < |sigCounts| && sigCounts[i] == 0
            && (forall j :: 0 <= j < i ==> sigCounts[j] > 0) && r.message == SignFailure(wallet, NotSigned(i))))
      && (r.Signed? ==> r.report.signedPsbt == signedPsbt && r.report.provider == ProviderOf(wallet))
  {
    SignedCheckMeaning(sigCounts);
  }

  /** Only Bitcoin broadcasts, and a transaction id is reported exactly when finalizing,
      extracting and broadcasting all succeed; any failure among them still reports the
      signed PSBT, with the failure's message after the wallet's broadcast prefix. */
  lemma BroadcastReportedOnlyOnSuccess(
    chain: UtxoChain, wallet: Wallet, signedPsbt: string, sigCounts: seq<nat>,
    finalizeAll: Outcome, finalizeInput: nat -> Outcome,
    extracted: Result<(string, string)>, exchanges: seq<UtxoContext.Exchange<string>>)
    requires chain != Bitcoin ==> wallet == Vultisig
    requires forall i :: 0 <= i < |sigCounts| ==> sigCounts[i] > 0
    ensures var r := AfterSigning(chain, wallet, signedPsbt, sigCounts, finalizeAll, finalizeInput, extracted, exchanges);
      var succeeded := chain == Bitcoin && Finalize(finalizeAll, finalizeInput, |sigCounts|).Pass?
        && extracted.Ok? && UtxoContext.BroadcastTransaction(exchanges).Ok?;
      && r.Signed?
      && (r.report.txid.Some? <==> succeeded)
      && (succeeded ==> r.report.txid == Some(extracted.value.1) && r.broadcastError.None?)
      && (chain != Bitcoin ==> r == Signed(SignedReport(signedPsbt, None, None), None))
      && (chain == Bitcoin && !succeeded ==>
            (r.broadcastError.Some? && r.broadcastError.value == BroadcastFailed(wallet, UtxoContext.ReasonMessage(
              if Finalize(finalizeAll, finalizeInput, |sigCounts|).Fail? then Some(Finalize(finalizeAll, finalizeInput, |sigCounts|).error)
              else if extracted.Err? then Some(extracted.error)
              else Some(UtxoContext.BroadcastTransaction(exchanges).error)))))
  {
    SignedCheckMeaning(sigCounts);
  }
}
