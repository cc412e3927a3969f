/** The GraphQL UTXO source (src/lib/tx/btc/UtxoQueryClient.ts): the network-to-chain naming
    used to build the query, and the mapping from the response records to UTXOs. The HTTP
    request itself is not modelled: the parsed response is an input. */
module UtxoQueryClient {
  import opened Wrappers
  import opened JsString

  /** A UTXO as the core passes it around, the TypeScript `Utxo & { hex?: string }`:
      output position `index` (vout), transaction id `hash`, amount `value` in the chain's
      smallest unit, and optionally the whole prior transaction as hex. */
  datatype Utxo = Utxo(index: int, hash: string, value: int, hex: Option<string>)

  function UnsupportedNetwork(network: string): string {
    "Unsupported UTXO network: " + network
  }

  /** `utxoNetworkTochain`: the GraphQL field name of a network ticker. */
  function UtxoNetworkToChain(network: string): (r: Result<string>)
    ensures r.Ok? <==> network == "BTC" || network == "BCH" || network == "DOGE" || network == "LTC"
    ensures r.Ok? ==> r.value in {"bitcoin", "bitcoincash", "dogecoin", "litecoin"}
    ensures r.Err? ==> r.error == UnsupportedNetwork(network)
  {
    match network
    case "BTC" => Ok("bitcoin")
    case "BCH" => Ok("bitcoincash")
    case "DOGE" => Ok("dogecoin")
    case "LTC" => Ok("litecoin")
    case _ => Err(UnsupportedNetwork(network))
  }

  /** Two supported networks never share a chain name. */
  lemma UtxoNetworkToChainInjective(a: string, b: string)
    requires UtxoNetworkToChain(a).Ok? && UtxoNetworkToChain(a) == UtxoNetworkToChain(b)
    ensures a == b
  {
  }

  /** One record of `unspentTxOutputsV5`; `value` is the decimal text of `value.value`. */
  datatype GraphQLUtxo = GraphQLUtxo(oIndex: int, oTxHash: string, value: string, oTxHex: Option<string>)

  /** The per-chain object of the response; `None` is a missing or null list. */
  datatype ChainData = ChainData(unspentTxOutputsV5: Option<seq<GraphQLUtxo>>)

  /** The parsed JSON response: `errors` holds the serialised errors when present (any
      present value, even an empty array, is truthy); a chain absent from `data` is undefined. */
  datatype GraphQLResponse = GraphQLResponse(errors: Option<string>, data: Option<map<string, ChainData>>)

  /** Position of the first text at or after `from` that `parse` rejects, or `|texts|`. */
  function FirstRejectedFrom(texts: seq<string>, parse: string -> Result<int>, from: nat): (k: nat)
    requires from <= |texts|
    ensures from <= k <= |texts|
    ensures forall j :: from <= j < k ==> parse(texts[j]).Ok?
    ensures k < |texts| ==> parse(texts[k]).Err?
    decreases |texts| - from
  {
    if from == |texts| || parse(texts[from]).Err? then from
    else FirstRejectedFrom(texts, parse, from + 1)
  }

  function ValueTexts(records: seq<GraphQLUtxo>): (r: seq<string>)
    ensures |r| == |records| && forall i :: 0 <= i < |records| ==> r[i] == records[i].value
  {
    seq(|records|, i requires 0 <= i < |records| => records[i].value)
  }

  /** The UTXO a record maps to once its value text has parsed. */
  function ToUtxo(record: GraphQLUtxo, value: int): Utxo {
    Utxo(record.oIndex, record.oTxHash, value, record.oTxHex)
  }

  /** The mapping of `records[from..]` with `parse` reading each value text. */
  function MapRecordsFrom(records: seq<GraphQLUtxo>, parse: string -> Result<int>, from: nat): (r: Result<seq<Utxo>>)
    requires from <= |records|
    ensures var k := FirstRejectedFrom(ValueTexts(records), parse, from);
      && (r.Ok? <==> k == |records|)
      && (r.Err? ==> r.error == parse(records[k].value).error)
    ensures r.Ok? ==> |r.value| == |records| - from
    ensures r.Ok? ==> forall i :: from <= i < |records| ==>
      r.value[i - from] == ToUtxo(records[i], parse(records[i].value).value)
    decreases |records| - from
  {
    if from == |records| then Ok([])
    else
      var v := parse(records[from].value);
      if v.Err? then Err(v.error)
      else
        var rest := MapRecordsFrom(records, parse, from + 1);
        if rest.Err? then rest
        else Ok([ToUtxo(records[from], v.value)] + rest.value)
  }

  /** Position of the first record whose value text is no integer literal, or the number of
      records when every value parses. */
  function FirstUnparsable(records: seq<GraphQLUtxo>): (k: nat)
    ensures k <= |records|
    ensures forall j :: 0 <= j < k ==> ParseBigInt(records[j].value).Ok?
    ensures k < |records| ==> ParseBigInt(records[k].value).Err?
  {
    FirstRejectedFrom(ValueTexts(records), ParseBigInt, 0)
  }

  /** The record-to-UTXO mapping: `value` is `BigInt(value.value)`, which throws on text that
      is not an integer literal; the first record that fails rejects the whole mapping. */
  function MapRecords(records: seq<GraphQLUtxo>): (r: Result<seq<Utxo>>)
    ensures r.Ok? <==> FirstUnparsable(records) == |records|
    ensures r.Err? ==> r.error == ParseBigInt(records[FirstUnparsable(records)].value).error
    ensures r.Ok? ==> |r.value| == |records|
    ensures r.Ok? ==> forall i :: 0 <= i < |records| ==>
      r.value[i] == ToUtxo(records[i], ParseBigInt(records[i].value).value)
  {
    MapRecordsFrom(records, ParseBigInt, 0)
  }

  function GraphQLErrors(serialised: string): string {
    "GraphQL errors: " + serialised
  }

  /** `UtxoQueryClient.fetch` after the response has arrived. The chain name is computed
      first (building the query throws for an unsupported network before any request), then
      a response carrying `errors` throws, a missing chain or list yields no UTXOs, and
      otherwise every record is mapped in order. */
  function FetchUtxos(network: string, response: GraphQLResponse): (r: Result<seq<Utxo>>)
    ensures UtxoNetworkToChain(network).Err? ==> r == Err(UnsupportedNetwork(network))
    ensures UtxoNetworkToChain(network).Ok? && response.errors.Some? ==> r == Err(GraphQLErrors(response.errors.value))
  {
    var chain :- UtxoNetworkToChain(network);
    if response.errors.Some? then Err(GraphQLErrors(response.errors.value))
    else if response.data.None? || chain !in response.data.value
      || response.data.value[chain].unspentTxOutputsV5.None? then Ok([])
    else MapRecords(response.data.value[chain].unspentTxOutputsV5.value)
  }

  /** A successful fetch keeps the length and order of the chain's records. */
  lemma FetchUtxosKeepsRecords(network: string, response: GraphQLResponse)
    requires FetchUtxos(network, response).Ok?
    ensures var chain := UtxoNetworkToChain(network).value;
      var utxos := FetchUtxos(network, response).value;
      if response.data.None? || chain !in response.data.value
        || response.data.value[chain].unspentTxOutputsV5.None? then utxos == []
      else
        var records := response.data.value[chain].unspentTxOutputsV5.value;
        |utxos| == |records| && forall i :: 0 <= i < |records| ==>
          utxos[i].index == records[i].oIndex && utxos[i].hash == records[i].oTxHash
          && utxos[i].hex == records[i].oTxHex && ParseBigInt(records[i].value) == Ok(utxos[i].value)
  {
  }
}
