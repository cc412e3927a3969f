/** The state one `SignPsbtMethod.tsx` component keeps between user actions (the fetched
    UTXOs, the selected keys, the PSBT text, the PSBT object and the UTXOs it was built from),
    and the handlers that update it. */
module SignPsbtSession {
  import opened Wrappers
  import opened JsString
  import opened UtxoQueryClient
  import opened PsbtBuilder
  import opened UtxoSelection
  import opened SignPsbt
  import UtxoContext

  const PsbtRequired: string := "PSBT is required"
  const FetchUtxosFailed: string := "Failed to fetch UTXOs"
  const NotConnected: string := "Vultisig wallet not connected. Please connect your wallet to continue."

  /** The inputs of a PSBT object as the signing code reads them; `renderHash` is how the
      codec renders an input's stored hash as hex. */
  function InputRefs(data: PsbtData, renderHash: string -> string): (refs: seq<InputRef>)
    ensures |refs| == |data.inputs|
    ensures forall i :: 0 <= i < |refs| ==> refs[i] == InputRef(renderHash(data.inputs[i].hash), data.inputs[i].index)
  {
    seq(|data.inputs|, i requires 0 <= i < |data.inputs| =>
      InputRef(renderHash(data.inputs[i].hash), data.inputs[i].index))
  }

  /** How bitcoinjs renders the hash of an input added with a hex txid: it stores the txid's
      bytes reversed, so reading the hash back as hex reverses the txid two digits at a time. */
  function ReverseHexBytes(hex: string): (r: string)
    ensures |r| == |hex|
    ensures |hex| >= 2 ==> r[|r| - 2..] == hex[..2]
  {
    if |hex| < 2 then hex else ReverseHexBytes(hex[2..]) + hex[..2]
  }

  /** When no input's rendered hash is the hash of a selected UTXO, the requests as written
      sign every input at its own position. */
  lemma SigningByPositionWithoutRenderedMatch(
    data: PsbtData, renderHash: string -> string, selected: seq<Utxo>, fromAddress: string, chain: UtxoChain)
    requires forall i, u :: 0 <= i < |data.inputs| && u in selected ==> renderHash(data.inputs[i].hash) != u.hash
    ensures InputsToSign(InputRefs(data, renderHash), selected, fromAddress, chain)
      == InputsToSignByPosition(InputRefs(data, renderHash), fromAddress, chain)
  {
    var refs := InputRefs(data, renderHash);
    forall i | 0 <= i < |refs|
      ensures InputsToSign(refs, selected, fromAddress, chain)[i] == InputsToSignByPosition(refs, fromAddress, chain)[i]
    {
      InputsToSignAgreesWithPosition(refs, selected, fromAddress, chain, i);
    }
  }

  /** The screen's own PSBT spending output 1 of a UTXO whose txid is not a byte palindrome:
      the rendered hash differs from the UTXO's, so input 0 is signed at position 0. */
  lemma ReversedTxidSignsByPosition()
    ensures var data := PsbtData(DefaultVersion, 0, [TxInput("abcd", 1, "00")], []);
      var r := InputsToSign(InputRefs(data, ReverseHexBytes), [Utxo(1, "abcd", 5000, None)], "addr", Bitcoin);
      |r| == 1 && r[0].signingIndexes == [0]
  {
    var data := PsbtData(DefaultVersion, 0, [TxInput("abcd", 1, "00")], []);
    assert ReverseHexBytes("abcd") == "cdab" by {
      assert ReverseHexBytes("cd") == "cd" by { assert ReverseHexBytes("") == ""; }
    }
    assert InputRefs(data, ReverseHexBytes)[0] == InputRef("cdab", 1);
  }

  /** The same PSBT when the txid is a byte palindrome: the rendered hash matches, and the
      request names input 1 of a one-input PSBT. */
  lemma PalindromicTxidMissesThePsbt()
    ensures var data := PsbtData(DefaultVersion, 0, [TxInput("abab", 1, "00")], []);
      var r := InputsToSign(InputRefs(data, ReverseHexBytes), [Utxo(1, "abab", 5000, None)], "addr", Bitcoin);
      |r| == 1 && r[0].signingIndexes == [1] && 1 >= |data.inputs|
  {
    var data := PsbtData(DefaultVersion, 0, [TxInput("abab", 1, "00")], []);
    assert ReverseHexBytes("abab") == "abab" by {
      assert ReverseHexBytes("ab") == "ab" by { assert ReverseHexBytes("") == ""; }
    }
    var u := Utxo(1, "abab", 5000, None);
    var refs := InputRefs(data, ReverseHexBytes);
    assert refs == [InputRef("abab", 1)];
    assert FindUtxo([u], refs[0]) == Some(u);
    assert SigningIndex([u], refs[0], 0) == 1;
  }

  class Session {
    const chain: UtxoChain
    var utxos: seq<Utxo>
    var selectedUtxos: seq<UtxoKey>
    var psbt: string
    var psbtInstance: Option<PsbtData>
    var selectedUtxosForPsbt: seq<Utxo>

    /** The selected keys form a set, and the Bitcoin Cash list only holds UTXOs that carry
        their previous transaction. */
    predicate Valid()
      reads this
    {
      && NoDuplicates(selectedUtxos)
      && (chain == BitcoinCash ==> forall u :: u in utxos ==> u.hex.Some? && u.hex.value != "")
    }

    constructor(chain: UtxoChain)
      ensures this.chain == chain && Valid()
      ensures utxos == [] && selectedUtxos == [] && psbt == ""
      ensures psbtInstance.None? && selectedUtxosForPsbt == []
    {
      this.chain := chain;
      utxos := [];
      selectedUtxos := [];
      psbt := "";
      psbtInstance := None;
      selectedUtxosForPsbt := [];
    }

    /** `handleFetchUtxos` once the fetch settled: the list replaces the old one (Bitcoin Cash
        keeping only UTXOs with their previous transaction) and the selection is cleared; a
        failed fetch empties both and reports its message. */
    method LoadUtxos(fetched: Result<seq<Utxo>>) returns (error: Option<string>)
      requires Valid()
      modifies this
      ensures Valid()
      ensures selectedUtxos == []
      ensures fetched.Ok? ==> utxos == (if chain == BitcoinCash then KeepWithHex(fetched.value) else fetched.value)
      ensures fetched.Ok? <==> error.None?
      ensures fetched.Err? ==> utxos == [] && error == Some(if fetched.error == "" then FetchUtxosFailed else fetched.error)
      ensures psbt == old(psbt) && psbtInstance == old(psbtInstance) && selectedUtxosForPsbt == old(selectedUtxosForPsbt)
    {
      match fetched
      case Ok(list) =>
        utxos := if chain == BitcoinCash then KeepWithHex(list) else list;
        selectedUtxos := [];
        error := None;
      case Err(e) =>
        utxos := [];
        selectedUtxos := [];
        error := Some(if e == "" then FetchUtxosFailed else e);
    }

    /** The Bitcoin Cash and Dogecoin components forget the UTXOs and the selection when the
        sender's address changes; the Bitcoin component keeps them. */
    method FromAddressChanged()
      requires Valid()
      modifies this
      ensures Valid()
      ensures chain != Bitcoin ==> utxos == [] && selectedUtxos == []
      ensures chain == Bitcoin ==> utxos == old(utxos) && selectedUtxos == old(selectedUtxos)
      ensures psbt == old(psbt) && psbtInstance == old(psbtInstance) && selectedUtxosForPsbt == old(selectedUtxosForPsbt)
    {
      if chain != Bitcoin {
        utxos := [];
        selectedUtxos := [];
      }
    }

    /** `handleToggleUtxo`. */
    method ToggleUtxo(utxo: Utxo)
      requires Valid()
      modifies this
      ensures Valid()
      ensures selectedUtxos == Toggle(old(selectedUtxos), KeyOf(utxo))
      ensures (KeyOf(utxo) in selectedUtxos) <==> KeyOf(utxo) !in old(selectedUtxos)
      ensures TotalSelectedValue(utxos, selectedUtxos) == TotalSelectedValue(old(utxos), old(selectedUtxos))
        + (if KeyOf(utxo) in old(selectedUtxos) then -ValueOfKey(utxos, KeyOf(utxo)) else ValueOfKey(utxos, KeyOf(utxo)))
      ensures utxos == old(utxos) && psbt == old(psbt)
      ensures psbtInstance == old(psbtInstance) && selectedUtxosForPsbt == old(selectedUtxosForPsbt)
    {
      ToggleFlipsOneKey(selectedUtxos, KeyOf(utxo));
      ToggleMovesTotal(utxos, selectedUtxos, KeyOf(utxo));
      selectedUtxos := Toggle(selectedUtxos, KeyOf(utxo));
    }

    /** `handlePsbtChange`: the text always follows the field; a non-blank text that differs
        from the old one drops the PSBT object and the UTXOs it was built from. */
    method ChangePsbt(newPsbt: string)
      requires Valid()
      modifies this
      ensures Valid()
      ensures psbt == newPsbt
      ensures !IsBlank(newPsbt) && newPsbt != old(psbt) ==> psbtInstance.None? && selectedUtxosForPsbt == []
      ensures IsBlank(newPsbt) || newPsbt == old(psbt) ==>
        psbtInstance == old(psbtInstance) && selectedUtxosForPsbt == old(selectedUtxosForPsbt)
      ensures utxos == old(utxos) && selectedUtxos == old(selectedUtxos)
    {
      TrimEmptyIffBlank(newPsbt);
      var previous := psbt;
      psbt := newPsbt;
      if Trim(newPsbt) != "" && newPsbt != previous {
        psbtInstance := None;
        selectedUtxosForPsbt := [];
      }
    }

    /** `handleGeneratePsbt` from its UTXO choice on: on success the new PSBT replaces the
        text (as `toBase64` renders it) and the object, and the UTXOs it spends are kept for
        signing; on failure nothing changes. */
    method GeneratePsbt(
      feeRateText: string, recommended: int, fromAddress: string, toAddress: string, amount: int, opReturnText: string,
      fetchTransaction: string -> Result<string>, isCashAddress: string -> bool, toLegacyAddress: string -> string,
      toBase64: PsbtData -> string)
      returns (r: Result<string>)
      requires Valid()
      modifies this
      ensures Valid()
      ensures var spec := Generate(chain, old(utxos), old(selectedUtxos), feeRateText, recommended, fromAddress, toAddress,
          amount, opReturnText, fetchTransaction, isCashAddress, toLegacyAddress);
        && (r.Ok? <==> spec.Ok?)
        && (r.Err? ==> (r.error == spec.error && psbt == old(psbt) && psbtInstance == old(psbtInstance)
              && selectedUtxosForPsbt == old(selectedUtxosForPsbt)))
        && (r.Ok? ==> (r.value == toBase64(spec.value.0) && psbt == r.value
              && psbtInstance == Some(spec.value.0) && selectedUtxosForPsbt == spec.value.1))
      ensures utxos == old(utxos) && selectedUtxos == old(selectedUtxos)
    {
      var generated := Generate(chain, utxos, selectedUtxos, feeRateText, recommended, fromAddress, toAddress,
        amount, opReturnText, fetchTransaction, isCashAddress, toLegacyAddress);
      if generated.Err? {
        return Err(generated.error);
      }
      var (data, spent) := generated.value;
      psbt := toBase64(data);
      psbtInstance := Some(data);
      selectedUtxosForPsbt := spent;
      r := Ok(psbt);
    }

    /** The requests `handleSignPsbt` hands the wallet: built from the PSBT object when there
        is one, and from the text's parse (`parsed`) otherwise. */
    method SigningRequests(fromAddress: string, parsed: seq<InputRef>, renderHash: string -> string)
      returns (requests: seq<SignRequest>)
      ensures var inputs := if psbtInstance.Some? then InputRefs(psbtInstance.value, renderHash) else parsed;
        requests == InputsToSign(inputs, selectedUtxosForPsbt, fromAddress, chain)
      ensures |requests| == if psbtInstance.Some? then |psbtInstance.value.inputs| else |parsed|
    {
      var inputs := if psbtInstance.Some? then InputRefs(psbtInstance.value, renderHash) else parsed;
      requests := InputsToSign(inputs, selectedUtxosForPsbt, fromAddress, chain);
    }

    /** `handleSignPsbt` (and, for Bitcoin, `handleSignPsbtWithPhantom`). A missing wallet
        extension is reported first; the Bitcoin Cash and Dogecoin screens then refuse when
        `ensureConnection()` answered `connected == false`; then a blank PSBT text is refused,
        and then a missing `signPSBT` throws. `answer` is what the wallet call settles to: the
        signed PSBT's base64 text and its object, or the message of whatever threw on the way
        (an unreadable PSBT, a rejected request, an unreadable answer); `sigCounts` holds the
        number of partial signatures of each input of that object. A fully signed answer
        replaces the text and the object before the outcome is reported; nothing else changes
        the state. */
    method Sign(
      wallet: Wallet, providerPresent: bool, connected: bool, signMethodPresent: bool,
      answer: Result<(string, PsbtData)>, sigCounts: seq<nat>, finalizeAll: Outcome, finalizeInput: nat -> Outcome,
      extracted: Result<(string, string)>, exchanges: seq<UtxoContext.Exchange<string>>)
      returns (outcome: SignOutcome)
      requires Valid()
      requires chain != Bitcoin ==> wallet == Vultisig
      requires answer.Ok? ==> |sigCounts| == |answer.value.1.inputs|
      modifies this
      ensures Valid()
      ensures !providerPresent ==> outcome == SignFailed(ProviderMissing(wallet))
      ensures providerPresent && chain != Bitcoin && !connected ==> outcome == SignFailed(NotConnected)
      ensures var ready := providerPresent && (chain == Bitcoin || connected);
        && (ready && IsBlank(old(psbt)) ==> outcome == SignFailed(PsbtRequired))
        && (ready && !IsBlank(old(psbt)) && !signMethodPresent ==>
              outcome == SignFailed(SignFailure(wallet, SignMethodMissing(wallet))))
      ensures var reached := providerPresent && (chain == Bitcoin || connected) && !IsBlank(old(psbt)) && signMethodPresent;
        && (reached && answer.Err? ==> outcome == SignFailed(SignFailure(wallet, answer.error)))
        && (reached && answer.Ok? ==>
              outcome == AfterSigning(chain, wallet, answer.value.0, sigCounts, finalizeAll, finalizeInput, extracted, exchanges))
        && (reached && answer.Ok? && SignedCheck(sigCounts).Pass? ==>
              psbt == answer.value.0 && psbtInstance == Some(answer.value.1))
        && (!(reached && answer.Ok? && SignedCheck(sigCounts).Pass?) ==>
              psbt == old(psbt) && psbtInstance == old(psbtInstance))
      ensures psbt != old(psbt) || psbtInstance != old(psbtInstance) ==>
        && answer.Ok? && psbt == answer.value.0 && psbtInstance == Some(answer.value.1)
        && forall i :: 0 <= i < |answer.value.1.inputs| ==> sigCounts[i] > 0
      ensures utxos == old(utxos) && selectedUtxos == old(selectedUtxos) && selectedUtxosForPsbt == old(selectedUtxosForPsbt)
    {
      if !providerPresent {
        return SignFailed(ProviderMissing(wallet));
      }
      if chain != Bitcoin && !connected {
        return SignFailed(NotConnected);
      }
      TrimEmptyIffBlank(psbt);
      if Trim(psbt) == "" {
        return SignFailed(PsbtRequired);
      }
      if !signMethodPresent {
        return SignFailed(SignFailure(wallet, SignMethodMissing(wallet)));
      }
      outcome := TakeAnswer(wallet, answer, sigCounts, finalizeAll, finalizeInput, extracted, exchanges);
    }

    /** `handleSignPsbt` from the wallet's answer on: a failed call is reported, and a signed
        PSBT is checked, stored only when every input is signed, then finished. */
    method TakeAnswer(
      wallet: Wallet, answer: Result<(string, PsbtData)>, sigCounts: seq<nat>, finalizeAll: Outcome,
      finalizeInput: nat -> Outcome, extracted: Result<(string, string)>, exchanges: seq<UtxoContext.Exchange<string>>)
      returns (outcome: SignOutcome)
      requires Valid()
      requires chain != Bitcoin ==> wallet == Vultisig
      requires answer.Ok? ==> |sigCounts| == |answer.value.1.inputs|
      modifies this
      ensures Valid()
      ensures answer.Err? ==> outcome == SignFailed(SignFailure(wallet, answer.error))
      ensures answer.Ok? ==>
        outcome == AfterSigning(chain, wallet, answer.value.0, sigCounts, finalizeAll, finalizeInput, extracted, exchanges)
      ensures answer.Ok? && SignedCheck(sigCounts).Pass? ==> psbt == answer.value.0 && psbtInstance == Some(answer.value.1)
      ensures !(answer.Ok? && SignedCheck(sigCounts).Pass?) ==> psbt == old(psbt) && psbtInstance == old(psbtInstance)
      ensures psbt != old(psbt) || psbtInstance != old(psbtInstance) ==>
        && answer.Ok? && psbt == answer.value.0 && psbtInstance == Some(answer.value.1)
        && forall i :: 0 <= i < |answer.value.1.inputs| ==> sigCounts[i] > 0
      ensures utxos == old(utxos) && selectedUtxos == old(selectedUtxos) && selectedUtxosForPsbt == old(selectedUtxosForPsbt)
    {
      if answer.Err? {
        return SignFailed(SignFailure(wallet, answer.error));
      }
      var (signedPsbt, signedData) := answer.value;
      var check := CheckAllSigned(sigCounts);
      if check.Fail? {
        return SignFailed(SignFailure(wallet, check.error));
      }
      SignedCheckMeaning(sigCounts);
      psbt := signedPsbt;
      psbtInstance := Some(signedData);
      outcome := AfterSigning(chain, wallet, signedPsbt, sigCounts, finalizeAll, finalizeInput, extracted, exchanges);
    }
  }
}
