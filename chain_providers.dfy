/** `getChainProviders` of src/config/chainProviders.ts: the provider names a chain offers. */
module ChainProviders {
  import opened JsRecord

  /** `chainProviders`. */
  const ChainProviderTable: map<string, seq<string>> := map[
    "btc" := ["bitcoin"], "cosmos" := ["cosmos", "keplr"], "eth" := ["ethereum"], "tron" := ["tron"],
    "zcash" := ["zcash"], "doge" := ["dogecoin"], "bch" := ["bitcoincash"], "ltc" := ["litecoin"],
    "rune" := ["thorchain"], "maya" := ["mayachain"], "xrp" := ["ripple"], "sol" := ["solana"],
    "dot" := ["polkadot"], "dash" := ["dash"]]

  /** What the function as written returns: a list, or the inherited `Object.prototype`
      member a chain name such as "toString" reads from the table. */
  datatype ProviderList = Providers(names: seq<string>) | InheritedMember(member: string)

  /** `chainProviders[chainName] || []`, as written (an array is truthy even when empty). */
  function ChainProvidersAsWritten(chainName: string): ProviderList {
    match Get(ChainProviderTable, chainName)
    case Own(names) => Providers(names)
    case Inherited(m) => InheritedMember(m)
    case Absent => Providers([])
  }

  /** A chain named like an `Object.prototype` member gets that member, not a list. */
  lemma PrototypeMemberIsNotAProviderList()
    ensures ChainProvidersAsWritten("toString") == InheritedMember("toString")
  {
    assert "toString" !in ChainProviderTable;
  }

  /** `getChainProviders` reading only the table's own entries. */
  function GetChainProviders(chainName: string): (r: seq<string>)
    ensures chainName in ChainProviderTable ==> r == ChainProviderTable[chainName]
    ensures r == [] <==> chainName !in ChainProviderTable
  {
    if chainName in ChainProviderTable then ChainProviderTable[chainName] else []
  }

  /** Cosmos offers its own provider and Keplr, in that order; every other listed chain
      offers one provider, and Bitcoin Cash's is "bitcoincash". */
  lemma ProviderListShapes(chainName: string)
    ensures GetChainProviders("cosmos") == ["cosmos", "keplr"]
    ensures GetChainProviders("bch") == ["bitcoincash"]
    ensures chainName != "cosmos" && chainName in ChainProviderTable ==> |GetChainProviders(chainName)| == 1
  {
  }

  /** Apart from the prototype's member names, the code as written gives the intended list. */
  lemma AsWrittenAgreesOffPrototype(chainName: string)
    requires chainName !in ObjectPrototypeMembers
    ensures ChainProvidersAsWritten(chainName) == Providers(GetChainProviders(chainName))
  {
  }
}
