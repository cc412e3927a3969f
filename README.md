# Vultisig playground: UTXO transaction core

This project models the part of the Vultisig provider playground that builds, signs and
broadcasts Bitcoin, Bitcoin Cash and Dogecoin transactions as PSBTs (partially signed
Bitcoin transactions). It also models the small lookup tables that route a chain name to
its providers and method screens. The model covers:

- **UTXO fetching** (`UtxoQueryClient`). The GraphQL response for an address becomes a
  list of unspent outputs, each with its value parsed as a `BigInt`.
- **Fee rates and broadcasting** (`UtxoContext`). Two public endpoints are asked. The
  first one that fulfils wins, in endpoint order, and the fallbacks are fixed.
- **Coin selection and PSBT building** (`CoinSelection`, `PsbtBuilder`, `BchPsbtBuilder`).
  Selection sorts the UTXOs by value, smallest first, and takes the shortest prefix that
  covers the amount plus the estimated fee. The builder then assembles inputs, the
  destination output, positive change back to the sender, and an optional OP_RETURN
  output. Bitcoin Cash rewrites CashAddr destinations to legacy form and takes the
  previous transactions from the UTXOs themselves.
- **The signing screens** (`UtxoSelection`, `SignPsbt`, `SignPsbtSession`). A session holds
  the set of toggled UTXO keys, the UTXOs actually spent, the requests handed to the
  wallet, the check that every input is signed, finalizing and broadcasting, and the
  state kept between user actions.
- **Routing tables** (`MethodMapping`, `ProviderNames`, `ChainProviders`, `CosmosUtils`).
  These cover the chain-name dispatch, provider display names, providers per chain, and
  the Cosmos RPC URL and account lookup.
- **JavaScript semantics** (`JsString`, `JsRecord`). The models above rely on `trim`,
  `toLowerCase`, `BigInt(text)`, `join`, and property lookup on an object literal. That
  lookup also finds members of `Object.prototype`.

Network exchanges, the wallet's answers and the bitcoinjs/bchaddrjs codecs are parameters.
Each operation is therefore a function of what the outside world answered. Amounts and fee
rates are unbounded integers, as `bigint` is.

## Model

| member | source | states |
|---|---|---|
| JsString.Trim | src/components/bitcoin/SignPsbtMethod.tsx:168 | `trim()`: the leading and then the trailing run of JavaScript whitespace removed, as TrimStart and TrimEnd state; TrimEmptyIffBlank and TrimUnpadded give its meaning |
| JsString.TrimEmptyIffBlank | src/components/bitcoin/SignPsbtMethod.tsx:134 | `trim()` of a text is empty exactly when every character is JavaScript whitespace |
| JsString.TrimUnpadded | src/lib/tx/btc/psbtBuilder.ts:63 | a text that neither starts nor ends with whitespace trims to itself |
| JsString.TrimStart | src/lib/tx/btc/psbtBuilder.ts:63 | drops exactly the leading run of whitespace: the result is a suffix starting at a non-space |
| JsString.TrimEnd | src/lib/tx/btc/psbtBuilder.ts:63 | drops exactly the trailing run of whitespace: the result is a prefix ending at a non-space |
| JsString.ToLowerCase | src/components/methodMapping.ts:27 | same length, each character lower-cased, no upper-case letter left |
| JsString.ToLowerCaseIdempotent | src/components/methodMapping.ts:27 | lower-casing twice is lower-casing once |
| JsString.UpperFirst | src/config/providerNames.ts:20 | only the first character is upper-cased, the rest is kept |
| JsString.NatToString | src/components/bitcoin/SignPsbtMethod.tsx:223-228 | the decimal rendering of an index is non-empty digits without a leading zero |
| JsString.DigitsValueOfNatToString | src/components/bitcoin/SignPsbtMethod.tsx:223-228 | reading the rendered digits back gives the index (rendering is injective) |
| JsString.ParseBigInt | src/lib/tx/btc/UtxoQueryClient.ts:90 | `BigInt(text)` fails only with the `SyntaxError` message naming the text |
| JsString.ParseBigIntOfBlank | src/lib/tx/btc/UtxoQueryClient.ts:90 | `BigInt` of a blank text is 0 |
| JsString.ParseBigIntOfIntToString | src/components/bitcoin/SignPsbtMethod.tsx:135 | `BigInt` inverts decimal rendering: parsing `String(n)` gives back `n`, for negative `n` too |
| JsString.Join | src/lib/tx/btc/UtxoContext.ts:60-63 | `join(sep)`: the parts in order with the separator between neighbours; JoinContainsEachPart states that every part occurs in the result |
| JsString.JoinContainsEachPart | src/lib/tx/btc/UtxoContext.ts:60-63 | every joined part occurs in the joined text |
| JsRecord.Get | src/config/providerNames.ts:20 | `record[key]` is the own entry exactly when the literal has the key, else the inherited member exactly when the key names an `Object.prototype` member, else `undefined` |
| UtxoQueryClient.UtxoNetworkToChain | src/lib/tx/btc/UtxoQueryClient.ts:13-26 | succeeds exactly for BTC, BCH, DOGE, LTC, giving one of the four chain names, and otherwise throws the unsupported-network error |
| UtxoQueryClient.UtxoNetworkToChainInjective | src/lib/tx/btc/UtxoQueryClient.ts:13-26 | distinct supported networks query distinct chains |
| UtxoQueryClient.FirstUnparsable | src/lib/tx/btc/UtxoQueryClient.ts:88-95 | the first record whose value `BigInt` rejects, and every record before it parses |
| UtxoQueryClient.MapRecords | src/lib/tx/btc/UtxoQueryClient.ts:88-95 | mapping succeeds exactly when every value parses, keeping length and order; otherwise it fails with the first failing parse's error |
| UtxoQueryClient.FetchUtxos | src/lib/tx/btc/UtxoQueryClient.ts:46-96 | an unsupported network throws before anything else; a response with `errors` throws the GraphQL error |
| UtxoQueryClient.FetchUtxosKeepsRecords | src/lib/tx/btc/UtxoQueryClient.ts:81-95 | a missing chain or list gives no UTXOs; otherwise each record becomes the UTXO with its index, hash, hex and parsed value, in order |
| UtxoContext.FirstFulfilled | src/lib/tx/btc/UtxoContext.ts:30-35 | nothing exactly when every endpoint rejected; else the value of the first fulfilled endpoint, with every earlier one rejected |
| UtxoContext.FirstFulfilledIgnoresLater | src/lib/tx/btc/UtxoContext.ts:30 | once an endpoint has fulfilled, later results cannot change the answer |
| UtxoContext.Lookup | src/lib/tx/btc/UtxoContext.ts:12 | a key's value is found exactly when the fee table lists the key |
| UtxoContext.EstimatesFee | src/lib/tx/btc/UtxoContext.ts:10-18 | the six-block target when present and non-zero; else the first listed value when non-zero, else 10; never zero |
| UtxoContext.MempoolFee | src/lib/tx/btc/UtxoContext.ts:9 | mempool's `getFee`: fulfils exactly when `fastestFee` is an integer, with that value; an absent or fractional field rejects, as `BigInt` throws |
| UtxoContext.FractionalFastestFeeFallsThrough | src/lib/tx/btc/UtxoContext.ts:9-35 | a fractional `fastestFee` leaves the rate to the estimates endpoint's answer, or to 10 when that endpoint fails too |
| UtxoContext.SettleFee | src/lib/tx/btc/UtxoContext.ts:21-28 | a failed request rejects with its reason; a non-OK response rejects with "Failed to fetch fee from" and the URL; an OK body goes to the endpoint's extractor |
| UtxoContext.FetchRecommendedFeeRate | src/lib/tx/btc/UtxoContext.ts:7-36 | the mempool rate if it fulfilled, else the estimates rate if that fulfilled, else 10 |
| UtxoContext.FeeRateZeroOnlyFromMempool | src/lib/tx/btc/UtxoContext.ts:9-17 | a zero fee rate can only come from an OK mempool answer with `fastestFee: 0` |
| UtxoContext.BroadcastEndpoints | src/lib/tx/btc/UtxoContext.ts:39 | one `/tx` endpoint per base endpoint, in order |
| UtxoContext.SettleBroadcast | src/lib/tx/btc/UtxoContext.ts:42-55 | an endpoint fulfils exactly on an OK response, with its text; a non-OK response rejects with "Failed to broadcast:" and its text; a failed request rejects with its reason |
| UtxoContext.ReasonMessage | src/lib/tx/btc/UtxoContext.ts:62 | never empty, so every rejection is named; it is the reason's own message whenever that is non-empty |
| UtxoContext.RejectionMessages | src/lib/tx/btc/UtxoContext.ts:60-62 | when all endpoints rejected, one message per endpoint in order |
| UtxoContext.SettleAll | src/lib/tx/btc/UtxoContext.ts:41-56 | one settled result per endpoint, in endpoint order |
| UtxoContext.BroadcastTransaction | src/lib/tx/btc/UtxoContext.ts:38-68 | succeeds exactly when some endpoint answered OK, returning the first such answer; otherwise it throws the all-endpoints error listing the rejections |
| UtxoContext.BroadcastErrorNamesEachEndpoint | src/lib/tx/btc/UtxoContext.ts:59-64 | when broadcasting fails, the error contains each endpoint's own failure message |
| CoinSelection.EstimateFee | src/lib/tx/btc/psbtBuilder.ts:148-154 | `(10 + 148·inputs + 34·outputs)·rate`; EstimateFeeEmpty, EstimateFeeSteps and EstimateFeeMonotone state its base, its per-input and per-output steps and its monotonicity |
| CoinSelection.EstimateFeeEmpty | src/lib/tx/btc/psbtBuilder.ts:148-154 | a transaction with no inputs or outputs costs the 10-byte base times the rate |
| CoinSelection.EstimateFeeSteps | src/lib/tx/btc/psbtBuilder.ts:148-154 | each input adds 148 bytes and each output 34 bytes at the rate |
| CoinSelection.EstimateFeeMonotone | src/lib/tx/btc/psbtBuilder.ts:148-154 | with non-negative counts and rate, the fee grows with inputs, outputs and rate |
| CoinSelection.SortByValue | src/lib/tx/btc/psbtBuilder.ts:121-125 | the stable ascending sort by value; SortByValueSortedPermutation and SortByValueStable state that it is sorted, a permutation and stable |
| CoinSelection.SortByValueSortedPermutation | src/lib/tx/btc/psbtBuilder.ts:121-125 | the sort orders by ascending value and is a permutation of its input |
| CoinSelection.SortByValueStable | src/lib/tx/btc/psbtBuilder.ts:121-125 | UTXOs of equal value keep their relative order (`Array.prototype.sort` is stable) |
| CoinSelection.Total | src/lib/tx/btc/psbtBuilder.ts:87 | the `reduce` sum of the values; TotalSort states sorting keeps it |
| CoinSelection.TotalSort | src/lib/tx/btc/psbtBuilder.ts:121-132 | sorting keeps the total value |
| CoinSelection.StopIndex | src/lib/tx/btc/psbtBuilder.ts:130-138 | the loop stops at the first non-empty prefix that covers the amount and its own fee, or runs to the end |
| CoinSelection.SelectUtxos | src/lib/tx/btc/psbtBuilder.ts:120-146 | the loop with its break and final check computes the selection specification |
| CoinSelection.Select | src/lib/tx/btc/psbtBuilder.ts:120-146 | `selectUtxos`: the sorted prefix up to the stopping index, or "Insufficient funds"; SelectIsShortestCoveringPrefix, SelectFailsIffNoPrefixCovers and SelectDrawsFromInput state what it returns, and SelectUtxos computes it with the source's loop |
| CoinSelection.SelectIsShortestCoveringPrefix | src/lib/tx/btc/psbtBuilder.ts:120-146 | a selection is a prefix of the sorted UTXOs that covers the amount plus its fee, and no shorter non-empty prefix covers; it is non-empty when UTXOs exist |
| CoinSelection.SelectDrawsFromInput | src/lib/tx/btc/psbtBuilder.ts:120-146 | every selected UTXO is one of the given UTXOs |
| CoinSelection.SelectFailsIffNoPrefixCovers | src/lib/tx/btc/psbtBuilder.ts:130-143 | "Insufficient funds" is thrown exactly when no prefix the loop can stop at covers |
| CoinSelection.SelectFailureMeansTotalShort | src/lib/tx/btc/psbtBuilder.ts:140-143 | a failed selection means all UTXOs together fall short of amount plus fee |
| CoinSelection.SelectFailsIffTotalShort | src/lib/tx/btc/psbtBuilder.ts:120-146 | for non-negative amounts, selection fails exactly when the whole list cannot pay the amount plus the fee for spending it all |
| CoinSelection.SelectCanSucceedWhenTotalShort | src/lib/tx/btc/psbtBuilder.ts:135-143 | with a negative amount, a short prefix can cover although the whole list does not |
| PsbtBuilder.Psbt.constructor | src/lib/tx/btc/psbtBuilder.ts:33 | a new PSBT has version 2, locktime 0, no inputs and no outputs |
| PsbtBuilder.Psbt.SetVersion | src/lib/tx/btc/psbtBuilder.ts:35 | only the version changes |
| PsbtBuilder.Psbt.SetLocktime | src/lib/tx/btc/psbtBuilder.ts:37 | only the locktime changes |
| PsbtBuilder.Psbt.AddInput | src/lib/tx/btc/psbtBuilder.ts:45-49 | the input is appended and nothing else changes |
| PsbtBuilder.Psbt.AddOutput | src/lib/tx/btc/psbtBuilder.ts:57-60 | the output is appended and nothing else changes |
| PsbtBuilder.VersionOf | src/lib/tx/btc/psbtBuilder.ts:35 | the configured version, or 2 when none is given |
| PsbtBuilder.LocktimeOf | src/lib/tx/btc/psbtBuilder.ts:36-38 | the configured locktime only when positive, else 0 |
| PsbtBuilder.Inputs | src/lib/tx/btc/psbtBuilder.ts:40-50 | one transaction input per configured input, in order |
| PsbtBuilder.Payments | src/lib/tx/btc/psbtBuilder.ts:52-61 | one payment per configured output, in order |
| PsbtBuilder.BuildSpec | src/lib/tx/btc/psbtBuilder.ts:32-74 | building succeeds exactly when every input has txid and hex and every output has address and amount; an input error is reported before an output error |
| PsbtBuilder.BuildSpecLayout | src/lib/tx/btc/psbtBuilder.ts:32-74 | a built PSBT spends the inputs in order and pays the outputs in order; exactly one zero-value OP_RETURN output comes last when the data trims to something |
| PsbtBuilder.BuildSpecAccepts | src/lib/tx/btc/psbtBuilder.ts:32-74 | with every input and output complete, the build gives version, locktime, the inputs, the payments and any OP_RETURN output |
| PsbtBuilder.BuildSpecRejectsInput | src/lib/tx/btc/psbtBuilder.ts:40-43 | an input without txid or hex makes the build fail with the inputs error |
| PsbtBuilder.BuildSpecRejectsOutput | src/lib/tx/btc/psbtBuilder.ts:52-55 | with complete inputs, an output without address or amount makes the build fail with the outputs error |
| PsbtBuilder.BlankOpReturnAddsNothing | src/lib/tx/btc/psbtBuilder.ts:63 | blank OP_RETURN data adds no output |
| PsbtBuilder.BuildPsbt | src/lib/tx/btc/psbtBuilder.ts:32-74 | the step-by-step build on a fresh PSBT object yields exactly the build specification, or its error |
| PsbtBuilder.PaymentOutputs | src/lib/tx/btc/psbtBuilder.ts:92-98 | the destination output first, then a change output back to the sender exactly when the change is positive |
| PsbtBuilder.Change | src/lib/tx/btc/psbtBuilder.ts:87-90 | selected total minus amount minus the fee for the selection and two outputs; PaymentConservesValue states it is non-negative after a selection and that payments plus fee equal the total |
| PsbtBuilder.PaymentConservesValue | src/lib/tx/btc/psbtBuilder.ts:86-98 | after a successful selection the change is non-negative, and payments plus the fee equal the selected total |
| PsbtBuilder.FetchInputs | src/lib/tx/btc/psbtBuilder.ts:100-109 | inputs exist exactly when every previous transaction is found, each input taking its UTXO's hash, index and transaction; otherwise the error of a failed lookup |
| PsbtBuilder.BuildFromUtxosSpec | src/lib/tx/btc/psbtBuilder.ts:76-118 | select, plan the outputs, fetch the previous transactions, build; BuildFromUtxosLayout states the resulting PSBT's layout and BuildPsbtFromUtxos computes it |
| PsbtBuilder.BuildPsbtFromUtxos | src/lib/tx/btc/psbtBuilder.ts:76-118 | the method computes the build-from-UTXOs specification: same result or same error, on a fresh PSBT |
| PsbtBuilder.BuildFromUtxosLayout | src/lib/tx/btc/psbtBuilder.ts:76-118 | the PSBT spends exactly the selection in order, with version 2 and locktime 0; it pays the destination, then positive change to the sender, then any OP_RETURN; change is never negative |
| PsbtBuilder.BuildWithMissingFetchTransactionFails | src/lib/tx/btc/psbtBuilder.ts:84-109 | with `fetchTransaction` missing from `UtxoContext`, a build from a non-empty list fails, with the selection error or the TypeError of the first lookup |
| PsbtBuilder.PlannedPayments | src/lib/tx/btc/psbtBuilder.ts:92-98 | the planned outputs pay the destination, then positive change to the sender |
| BchPsbtBuilder.LegacyAddress | src/lib/tx/bch/psbtBuilder.ts:86-90 | a CashAddr is rewritten to legacy form, and any other address is kept |
| BchPsbtBuilder.BuildBchPsbt | src/lib/tx/bch/psbtBuilder.ts:61-109 | the Bitcoin Cash build is the shared build with CashAddr rewriting |
| BchPsbtBuilder.BchOutputsUseLegacyAddresses | src/lib/tx/bch/psbtBuilder.ts:81-96 | each payment pays the legacy form of a CashAddr destination, and other destinations unchanged |
| BchPsbtBuilder.InputsWithHex | src/lib/tx/bch/psbtBuilder.ts:133-137 | each input takes its UTXO's hash, index and own previous transaction |
| BchPsbtBuilder.StripHex | src/lib/tx/bch/psbtBuilder.ts:145-147 | the returned selection drops `hex` and keeps hash, index and value |
| BchPsbtBuilder.StripHexTotal | src/lib/tx/bch/psbtBuilder.ts:145-147 | stripping keeps the total value |
| BchPsbtBuilder.BuildBchFromUtxosSpec | src/lib/tx/bch/psbtBuilder.ts:111-148 | the Bitcoin Cash build from UTXOs carrying their own previous transactions; BchBuildFromUtxosInputs and BchMissingHexRejected state its inputs and its error |
| BchPsbtBuilder.BuildBchPsbtFromUtxos | src/lib/tx/bch/psbtBuilder.ts:111-148 | the method computes the Bitcoin Cash build-from-UTXOs specification |
| BchPsbtBuilder.BchBuildFromUtxosInputs | src/lib/tx/bch/psbtBuilder.ts:111-148 | a built PSBT spends the selection in order with each UTXO's own previous transaction, and returns the selection without `hex` |
| BchPsbtBuilder.BchMissingHexRejected | src/lib/tx/bch/psbtBuilder.ts:133-137 | a selected UTXO without its previous transaction makes the build throw the input error |
| UtxoSelection.Remove | src/components/bitcoin/SignPsbtMethod.tsx:92-101 | `Set.delete`: exactly the key is removed, and an absent key changes nothing |
| UtxoSelection.RemoveKeepsNoDuplicates | src/components/bitcoin/SignPsbtMethod.tsx:92-101 | deleting keeps the keys a set |
| UtxoSelection.RemoveLength | src/components/bitcoin/SignPsbtMethod.tsx:92-101 | deleting a present key shrinks the set by one |
| UtxoSelection.RemoveAppended | src/components/bitcoin/SignPsbtMethod.tsx:92-101 | deleting the key just added restores the set exactly |
| UtxoSelection.Toggle | src/components/bitcoin/SignPsbtMethod.tsx:92-101 | `handleToggleUtxo`'s set update: delete the key if present, else add it; ToggleFlipsOneKey and ToggleTwice state its meaning |
| UtxoSelection.ToggleFlipsOneKey | src/components/bitcoin/SignPsbtMethod.tsx:92-101 | toggling flips the toggled key's membership and no other, keeps a set, and changes the size by one |
| UtxoSelection.ToggleTwice | src/components/bch/SignPsbtMethod.tsx:74-83 | toggling twice restores the selection, and its order when the key was absent |
| UtxoSelection.FilterSelected | src/components/bitcoin/SignPsbtMethod.tsx:121-131 | keeps exactly the listed UTXOs whose key is selected |
| UtxoSelection.FilterSelectedConcat | src/components/bitcoin/SignPsbtMethod.tsx:121-131 | the filter keeps list order |
| UtxoSelection.FilterSelectedAll | src/components/bitcoin/SignPsbtMethod.tsx:121-131 | selecting every UTXO keeps the whole list in order |
| UtxoSelection.UtxosToUse | src/components/bitcoin/SignPsbtMethod.tsx:121-131 | the whole list unchanged when nothing is selected, else the filter keeping the selected UTXOs in list order; "No UTXOs available" exactly when none qualifies |
| UtxoSelection.KeepWithHex | src/components/bch/SignPsbtMethod.tsx:62 | the Bitcoin Cash list keeps exactly the UTXOs with a non-empty previous transaction |
| UtxoSelection.KeepWithHexConcat | src/components/bch/SignPsbtMethod.tsx:62 | the hex filter keeps list order |
| UtxoSelection.ValueOfKey | src/components/bitcoin/SignPsbtMethod.tsx:389-392 | the value of the first UTXO with the key, or 0 when none has it |
| UtxoSelection.TotalUtxosValueIsTotal | src/components/bitcoin/SignPsbtMethod.tsx:394 | `totalUtxosValue`'s reduce, the left fold `TotalUtxosValueFrom` (also bch :229 and dogecoin :241), ends at its start plus the sum of all UTXO values, for any start |
| UtxoSelection.TotalSelectedValue | src/components/bitcoin/SignPsbtMethod.tsx:389-392 | the sum over the selected keys of the first matching UTXO's value, 0 for a key without one; TotalSelectedAppend, TotalSelectedRemove and ToggleMovesTotal state how it moves |
| UtxoSelection.TotalSelectedAppend | src/components/bitcoin/SignPsbtMethod.tsx:389-392 | adding a key adds its UTXO's value to the selected total |
| UtxoSelection.TotalSelectedRemove | src/components/bitcoin/SignPsbtMethod.tsx:389-392 | deleting a key subtracts its UTXO's value from the selected total |
| UtxoSelection.ToggleMovesTotal | src/components/dogecoin/SignPsbtMethod.tsx:236-241 | toggling moves the selected total by exactly the toggled UTXO's value, up or down |
| SignPsbt.SigHashOf | src/components/bch/SignPsbtMethod.tsx:179-194 | the BIP143 fork-id sighash is used exactly for Bitcoin Cash |
| SignPsbt.FeeRateFor | src/components/bitcoin/SignPsbtMethod.tsx:133-138 | a non-blank rate is parsed as `BigInt`; a blank one gives the recommended rate for Bitcoin and the chain's "Fee rate is required" error for Bitcoin Cash and Dogecoin |
| SignPsbt.FeeRateOfDecimalText | src/components/dogecoin/SignPsbtMethod.tsx:127-132 | a rate typed as a decimal number is used as that number on every chain |
| SignPsbt.OpReturnArgument | src/components/bitcoin/SignPsbtMethod.tsx:146 | no OP_RETURN argument exactly for blank text; otherwise the trimmed text |
| SignPsbt.Generate | src/components/bitcoin/SignPsbtMethod.tsx:121-160 | `handleGeneratePsbt` from its UTXO choice on: UTXOs to use, fee rate, the chain's builder; GenerateChecksInOrder, GenerateIsBuilt and GenerateSpendsChosenUtxos state its error order and what it spends |
| SignPsbt.GenerateWithMissingFetchTransactionFails | src/components/bitcoin/SignPsbtMethod.tsx:121-160 | with the builder's lookup as written, Bitcoin and Dogecoin generation always fails, and once UTXOs and the fee rate are chosen the error is the selection's or the missing method's |
| SignPsbt.GenerateChecksInOrder | src/components/bch/SignPsbtMethod.tsx:103-120 | no UTXOs to use is reported before a missing fee rate, which is reported before any builder error |
| SignPsbt.BchBuildSpendsFrom | src/lib/tx/bch/psbtBuilder.ts:111-148 | every input of a Bitcoin Cash PSBT built from a list spends a UTXO of that list |
| SignPsbt.BuildSpendsFrom | src/lib/tx/btc/psbtBuilder.ts:76-118 | every input of a PSBT built from a list spends a UTXO of that list |
| SignPsbt.GenerateIsBuilt | src/components/bitcoin/SignPsbtMethod.tsx:121-160 | a successful generation had UTXOs to use and a fee rate, and its result is the chain builder's |
| SignPsbt.SpendsFromUsable | src/components/bitcoin/SignPsbtMethod.tsx:121-131 | spending from the UTXOs to use means spending listed UTXOs, and selected ones when a selection exists |
| SignPsbt.GenerateSpendsChosenUtxos | src/components/bitcoin/SignPsbtMethod.tsx:121-160 | every input of a generated PSBT spends a listed UTXO, and a selected one when a selection exists |
| SignPsbt.FindUtxo | src/components/bitcoin/SignPsbtMethod.tsx:191-209 | finds a selected UTXO with the input's hash and index exactly when one exists |
| SignPsbt.InputsToSign | src/components/bitcoin/SignPsbtMethod.tsx:191-209 | `inputsToSign` as written; InputsToSignIndexes states each request, and InputsToSignAgreesWithPosition when it equals the positional one |
| SignPsbt.InputsToSignIndexes | src/components/bitcoin/SignPsbtMethod.tsx:191-209 | one request per input for the sender with the chain's sighash; it names the spent output index if the input spends a selected UTXO, else the input's position |
| SignPsbt.InputsToSignCanMissThePsbt | src/components/dogecoin/SignPsbtMethod.tsx:191-206 | as written, when the only input's rendered hash and index match a selected UTXO spending output 1, the wallet is asked to sign input 1, which does not exist |
| SignPsbt.InputsToSignByPosition | src/components/bitcoin/SignPsbtMethod.tsx:191-209 | the requests signing input `i` at index `i`; InputsToSignByPositionCoversEachInput states that each input is requested once and in range |
| SignPsbt.InputsToSignByPositionCoversEachInput | src/components/bitcoin/SignPsbtMethod.tsx:191-209 | request `i` names input `i` only: every input is requested once and no index leaves the PSBT |
| SignPsbt.InputsToSignAgreesWithPosition | src/components/bch/SignPsbtMethod.tsx:179-194 | the code as written agrees with positional signing exactly when the input spends no selected UTXO or spends the output numbered like its position |
| SignPsbt.FirstUnsignedFrom | src/components/bitcoin/SignPsbtMethod.tsx:223-228 | the first input without partial signatures, with all earlier ones signed |
| SignPsbt.SignedCheck | src/components/bitcoin/SignPsbtMethod.tsx:223-228 | the signed-input loop as a value; SignedCheckMeaning states it passes exactly when every input is signed and otherwise names the first unsigned input |
| SignPsbt.SignedCheckMeaning | src/components/bitcoin/SignPsbtMethod.tsx:223-228 | the check passes exactly when every input has a signature; otherwise it names the first unsigned input |
| SignPsbt.CheckAllSigned | src/components/bch/SignPsbtMethod.tsx:206-211 | the loop over inputs computes the signed-input check |
| SignPsbt.FirstUnsignedIs | src/components/dogecoin/SignPsbtMethod.tsx:218-223 | the first unsigned input is determined by its defining properties |
| SignPsbt.FirstUnfinalizedFrom | src/components/bitcoin/SignPsbtMethod.tsx:239-249 | the first input whose finalization throws, with all earlier ones finalized |
| SignPsbt.Finalize | src/components/bitcoin/SignPsbtMethod.tsx:239-249 | `finalizeAllInputs` with the per-input fallback; FinalizeMeaning states when it fails and which input it names |
| SignPsbt.FinalizeMeaning | src/components/bitcoin/SignPsbtMethod.tsx:239-249 | finalizing fails exactly when `finalizeAllInputs` and some single input fail; the error names the first such input |
| SignPsbt.FirstUnfinalizedIs | src/components/bitcoin/SignPsbtMethod.tsx:239-249 | the first unfinalizable input is determined by its defining properties |
| SignPsbt.FinalizeInputs | src/components/bitcoin/SignPsbtMethod.tsx:239-249 | the fallback loop over inputs computes the finalize specification; `finalizeInput` answers for the copy the failed bulk call left behind, so an input that call already finalized may be refused again |
| SignPsbt.FinishBitcoin | src/components/bitcoin/SignPsbtMethod.tsx:233-265 | finalize, extract and broadcast, reporting the signed PSBT either way; BroadcastReportedOnlyOnSuccess states when a txid is reported |
| SignPsbt.AfterSigning | src/components/bitcoin/SignPsbtMethod.tsx:221-265 | the signed-input check, then Bitcoin's finish; SignedOnlyWhenEveryInputSigned and BroadcastReportedOnlyOnSuccess state its outcomes |
| SignPsbt.SignedOnlyWhenEveryInputSigned | src/components/bitcoin/SignPsbtMethod.tsx:223-272 | a signed PSBT is reported exactly when every input is signed, with the wallet's provider; otherwise the failure names the first unsigned input |
| SignPsbt.BroadcastReportedOnlyOnSuccess | src/components/bitcoin/SignPsbtMethod.tsx:239-263 | only Bitcoin broadcasts; a txid is reported exactly when finalize, extract and broadcast all succeed, else the first failure follows the wallet's broadcast prefix |
| SignPsbtSession.InputRefs | src/components/bitcoin/SignPsbtMethod.tsx:180-209 | one reference per PSBT input, with the rendered hash and index |
| SignPsbtSession.ReverseHexBytes | src/components/bitcoin/SignPsbtMethod.tsx:193-194 | the hex of a hash bitcoinjs stored from a hex txid: the txid's bytes reversed, same length, the first byte last |
| SignPsbtSession.SigningByPositionWithoutRenderedMatch | src/components/bitcoin/SignPsbtMethod.tsx:191-209 | when no rendered input hash is a selected UTXO's hash, the requests as written are the positional ones |
| SignPsbtSession.ReversedTxidSignsByPosition | src/components/bitcoin/SignPsbtMethod.tsx:191-209 | with bitcoinjs's byte order, an input of the screen's own PSBT whose txid is no byte palindrome is signed at its position |
| SignPsbtSession.PalindromicTxidMissesThePsbt | src/components/bitcoin/SignPsbtMethod.tsx:191-209 | with bitcoinjs's byte order, a byte-palindromic txid spending output 1 makes the request name input 1 of a one-input PSBT |
| SignPsbtSession.Session.constructor | src/components/bitcoin/SignPsbtMethod.tsx:16-31 | a new screen has no UTXOs, selection, PSBT text or object |
| SignPsbtSession.Session.LoadUtxos | src/components/bch/SignPsbtMethod.tsx:52-71 | a fetch replaces the list (Bitcoin Cash keeping only UTXOs with hex) and clears the selection; a failure empties both and reports its message or "Failed to fetch UTXOs" |
| SignPsbtSession.Session.FromAddressChanged | src/components/dogecoin/SignPsbtMethod.tsx:60-63 | Bitcoin Cash and Dogecoin forget the UTXOs and selection when the address changes; Bitcoin keeps them |
| SignPsbtSession.Session.ToggleUtxo | src/components/bitcoin/SignPsbtMethod.tsx:92-101 | the selection is toggled, the key's membership flips, and the shown total moves by the UTXO's value |
| SignPsbtSession.Session.ChangePsbt | src/components/bch/SignPsbtMethod.tsx:231-237 | the text follows the field; a new non-blank text drops the PSBT object and its UTXOs |
| SignPsbtSession.Session.GeneratePsbt | src/components/bitcoin/SignPsbtMethod.tsx:103-160 | a successful generation stores the PSBT text, object and spent UTXOs; a failure changes nothing and reports the generation error |
| SignPsbtSession.Session.SigningRequests | src/components/bitcoin/SignPsbtMethod.tsx:180-209 | requests are built from the PSBT object when there is one, else from the parsed text, one per input |
| SignPsbtSession.Session.Sign | src/components/bitcoin/SignPsbtMethod.tsx:162-273 | a missing extension, then (Bitcoin Cash and Dogecoin only) a wallet `ensureConnection()` reports as not connected, then a blank PSBT, then a missing `signPSBT` are refused in that order; a failed wallet call reports its message or "Unknown error" and changes nothing; otherwise the outcome is the signing specification, and the answer replaces the stored text and object only when every one of its inputs is signed |
| SignPsbtSession.Session.TakeAnswer | src/components/bitcoin/SignPsbtMethod.tsx:212-272 | a failed wallet call reports its message or "Unknown error" and changes nothing; a signed answer is stored only when every one of its inputs is signed, and the outcome is the signing specification |
| MethodMapping.FamilyOf | src/components/methodMapping.ts:27-66 | the `switch` on the lower-cased chain name; FamilyOfIsAliases states it maps exactly each chain's aliases to that chain |
| MethodMapping.FamilyOfIsAliases | src/components/methodMapping.ts:27-66 | the switch maps a name to a chain exactly when the name is one of that chain's aliases |
| MethodMapping.GetMethodComponent | src/components/methodMapping.ts:26-68 | an unknown lower-cased chain name gives null; a known one delegates the method to its chain's table |
| MethodMapping.DispatchIgnoresCase | src/components/methodMapping.ts:27 | dispatch ignores the chain name's letter case |
| MethodMapping.AliasesDispatchAlike | src/components/methodMapping.ts:28-64 | two aliases of one chain dispatch alike |
| MethodMapping.BitcoinCashIsNotBch | src/components/methodMapping.ts:28-66 | "bitcoincash" is not a routed name: only "bch" reaches Bitcoin Cash |
| ProviderNames.ProviderDisplayNameAsWritten | src/config/providerNames.ts:19-21 | the lookup as written, inherited members included; PrototypeMemberIsNotADisplayName and AsWrittenAgreesOffPrototype state where it goes wrong and where it agrees |
| ProviderNames.GetProviderDisplayName | src/config/providerNames.ts:19-21 | the lookup over own entries only; DisplayNameTable and DisplayNameEmptyIffNameEmpty state its results |
| ProviderNames.PrototypeMemberIsNotADisplayName | src/config/providerNames.ts:19-21 | as written, the name "constructor" yields an inherited function, not a display name |
| ProviderNames.DisplayNameTable | src/config/providerNames.ts:1-21 | "keplr" shows "Keplr", other table providers show "Native", and any other name is capitalised |
| ProviderNames.DisplayNameEmptyIffNameEmpty | src/config/providerNames.ts:19-21 | the display name is empty exactly for the empty provider name |
| ProviderNames.AsWrittenAgreesOffPrototype | src/config/providerNames.ts:19-21 | off the `Object.prototype` names, the code as written gives the corrected display name |
| ChainProviders.ChainProvidersAsWritten | src/config/chainProviders.ts:18-20 | the lookup as written, inherited members included; PrototypeMemberIsNotAProviderList and AsWrittenAgreesOffPrototype state where it goes wrong and where it agrees |
| ChainProviders.PrototypeMemberIsNotAProviderList | src/config/chainProviders.ts:18-20 | as written, the chain name "toString" yields an inherited function, not a provider list |
| ChainProviders.GetChainProviders | src/config/chainProviders.ts:1-20 | a listed chain gives its table entry; the list is empty exactly for unlisted names |
| ChainProviders.ProviderListShapes | src/config/chainProviders.ts:1-16 | cosmos has two providers, bch maps to bitcoincash, every other listed chain to one provider |
| ChainProviders.AsWrittenAgreesOffPrototype | src/config/chainProviders.ts:18-20 | off the `Object.prototype` names, the code as written gives the corrected list |
| CosmosUtils.RpcUrlAsWritten | src/components/cosmos/cosmosUtils.ts:9-15 | the lookup as written, inherited members included; PrototypeMemberIsNotAnRpcUrl and RpcUrlAgreesOffPrototype state where it goes wrong and where it agrees |
| CosmosUtils.PrototypeMemberIsNotAnRpcUrl | src/components/cosmos/cosmosUtils.ts:9-15 | as written, the chain id "valueOf" yields an inherited function, not a URL |
| CosmosUtils.GetRpcUrl | src/components/cosmos/cosmosUtils.ts:9-15 | the two pinned chains get their own RPC URL, and every other chain id gets the cosmos.directory URL |
| CosmosUtils.RpcUrlAgreesOffPrototype | src/components/cosmos/cosmosUtils.ts:9-15 | off the `Object.prototype` names, the code as written gives the corrected URL |
| CosmosUtils.EnableCosmosChain | src/components/cosmos/cosmosUtils.ts:76-91 | a blank chain id and a missing `enable` are refused in that order; otherwise the result is the provider's answer |
| CosmosUtils.FetchCosmosAccountInfo | src/components/cosmos/cosmosUtils.ts:17-74 | the chain is enabled, then the key read, then the account fetched, with each error reported in that order; account number and sequence default to "0" |

## Left out

- The React screens, hooks, forms and styling are not modelled. Form validation before
  generation (address and amount present) is left out with them. Amounts enter as integer
  satoshis: the decimal-to-satoshi conversion uses floating point and is not modelled.
- Network I/O is not performed. GraphQL responses, HTTP exchanges, the wallet's answers
  (`signPsbt`, partial-signature counts, finalize results, `extractTransaction`) and the
  Cosmos account fetch are all inputs to the functions.
- `PsbtBuilder.FetchInputs`: the previous-transaction lookup is a parameter.
  `src/lib/tx/btc/UtxoContext.ts` defines no `fetchTransaction` method and no
  constructor, although the builder calls them. Dogecoin takes the same route through
  this parameter. As written, every Bitcoin and Dogecoin generation therefore fails (see
  Findings); the rest of the model takes the lookup as a working parameter.
- `UtxoContext.MempoolFee`: `fastestFee` is absent, an integer or a fractional number.
  A value that is not a JSON number (a string, say) is not modelled.
- `UtxoContext.EstimatesFee`: the fee-estimate JSON is taken as integers, so the
  `Math.ceil` of fractional estimates is not modelled. JSON values that are not numbers
  are not modelled either.
- bitcoinjs-lib, bchaddrjs and cosmjs are not part of this model. That covers PSBT
  serialisation (base64, hex), script building, address validation and `Buffer.from`.
  These appear as parameters or as the plain `PsbtData` record. The rendering of an
  input's stored hash is the parameter `renderHash`; `SignPsbtSession.ReverseHexBytes`
  models bitcoinjs's byte-reversed storage of a hex txid for the signing-index lemmas. The OP_RETURN branch that throws "Unable to build OP_RETURN script"
  cannot be reached through the embed payment and has no model.
- `SignPsbtSession.Session.SigningRequests`: the parse of a pasted PSBT text is a parameter.
- `Promise.all` fetches the previous transactions concurrently. The model fetches them in
  selection order and reports the first failing lookup in that order, not the first to
  fail in time.
- `JsString.ToLowerCase`: only ASCII letters change case. The Unicode case maps of
  `toLowerCase`/`toUpperCase` are not modelled.
- Phantom signing is modelled for the Bitcoin screen only, which is the only screen that
  offers it. Whether the extension and its `signPSBT` exist, and what `ensureConnection()`
  answered, are parameters of `SignPsbtSession.Session.Sign`; how the connection is made
  and the provider-status hooks are left out.
- `CoinSelection.SelectFailsIffTotalShort`: the equivalence holds only when the amount
  plus the fee of an input-less transaction is non-negative.
  `CoinSelection.SelectCanSucceedWhenTotalShort` shows that the hypothesis is needed. The
  screens refuse amounts that are not greater than 0, so the amount they pass is never
  negative.
- The per-chain method tables (React component registries) are a parameter of
  `MethodMapping.GetMethodComponent`. The Cosmos example messages and the THORChain
  registry are not part of this model.

## Findings

| source | as written | input that shows it | evidently intended | confidence | as-written member | corrected member |
|---|---|---|---|---|---|---|
| src/components/bitcoin/SignPsbtMethod.tsx:191-209 | an input whose rendered hash and index match a selected UTXO is signed under `signingIndexes: [utxo.index]`, the spent output's number in its previous transaction | bitcoinjs renders a stored hash byte-reversed, so a match needs a byte-palindromic txid (or one that is another selected txid reversed): txid `abab` spending output 1 as the only input makes the request name input 1 of a one-input PSBT; an ordinary txid misses the match and is signed at its position | each input is signed at its own position in the PSBT | low (real txids are almost never byte palindromes, so the code nearly always falls back to the position), not executed | SignPsbtSession.PalindromicTxidMissesThePsbt | SignPsbt.InputsToSignByPositionCoversEachInput |
| src/lib/tx/btc/psbtBuilder.ts:84-109 | each input's previous transaction comes from `new UtxoContext(fromAddress).fetchTransaction(utxo.hash)`, but `UtxoContext` (src/lib/tx/btc/UtxoContext.ts) has only static methods and no `fetchTransaction` | any Bitcoin or Dogecoin generation whose coin selection succeeds: the first lookup throws "utxoContext.fetchTransaction is not a function" and no PSBT is built | the previous transaction of each selected UTXO is fetched and the PSBT built from them | medium (a build that type-checks would refuse the call, so this path may never have shipped as written), not executed | SignPsbt.GenerateWithMissingFetchTransactionFails | PsbtBuilder.BuildFromUtxosLayout |
| src/config/providerNames.ts:19-21 | `providerDisplayNames[name]` also finds `Object.prototype` members | provider name "constructor" gives the `Object` function instead of a string | only the table's own entries count; other names are capitalised | medium (needs such a provider name), not executed | ProviderNames.PrototypeMemberIsNotADisplayName | ProviderNames.DisplayNameTable |
| src/config/chainProviders.ts:18-20 | `chainProviders[chain] \|\| []` also finds `Object.prototype` members | chain name "toString" gives a function instead of a provider list | unknown chains give the empty list | medium (needs such a chain name), not executed | ChainProviders.PrototypeMemberIsNotAProviderList | ChainProviders.GetChainProviders |
| src/components/cosmos/cosmosUtils.ts:9-15 | `rpcMap[chainId] \|\| directory URL` also finds `Object.prototype` members | chain id "valueOf" gives a function instead of a URL | unknown chain ids get the cosmos.directory URL | medium (needs such a chain id), not executed | CosmosUtils.PrototypeMemberIsNotAnRpcUrl | CosmosUtils.GetRpcUrl |
