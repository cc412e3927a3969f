/** `getMethodComponent` of src/components/methodMapping.ts: the chain name, lower-cased,
    picks a chain's own method table, which then looks up the method. The per-chain tables
    (React component registries) are a parameter. */
module MethodMapping {
  import opened Wrappers
  import opened JsString

  datatype ChainFamily =
    | Bitcoin | Cosmos | Ethereum | Tron | Zcash | Dogecoin | Bch | Litecoin
    | Thorchain | Mayachain | Ripple | Solana | Polkadot | Dash

  /** The `switch` on the lower-cased chain name. */
  function FamilyOf(name: string): Option<ChainFamily> {
    if name == "bitcoin" || name == "btc" then Some(Bitcoin)
    else if name == "cosmos" then Some(Cosmos)
    else if name == "ethereum" || name == "eth" then Some(Ethereum)
    else if name == "tron" then Some(Tron)
    else if name == "zcash" then Some(Zcash)
    else if name == "dogecoin" || name == "doge" then Some(Dogecoin)
    else if name == "bch" then Some(Bch)
    else if name == "litecoin" || name == "ltc" then Some(Litecoin)
    else if name == "thorchain" || name == "rune" then Some(Thorchain)
    else if name == "mayachain" || name == "maya" then Some(Mayachain)
    else if name == "ripple" || name == "xrp" then Some(Ripple)
    else if name == "solana" || name == "sol" then Some(Solana)
    else if name == "polkadot" || name == "dot" then Some(Polkadot)
    else if name == "dash" then Some(Dash)
    else None
  }

  /** The names each chain answers to: its full name and, for most chains, a ticker. */
  function Aliases(family: ChainFamily): seq<string> {
    match family
    case Bitcoin => ["bitcoin", "btc"]
    case Cosmos => ["cosmos"]
    case Ethereum => ["ethereum", "eth"]
    case Tron => ["tron"]
    case Zcash => ["zcash"]
    case Dogecoin => ["dogecoin", "doge"]
    case Bch => ["bch"]
    case Litecoin => ["litecoin", "ltc"]
    case Thorchain => ["thorchain", "rune"]
    case Mayachain => ["mayachain", "maya"]
    case Ripple => ["ripple", "xrp"]
    case Solana => ["solana", "sol"]
    case Polkadot => ["polkadot", "dot"]
    case Dash => ["dash"]
  }

  /** The `switch` recognises exactly the listed aliases, each for its own chain. */
  lemma FamilyOfIsAliases(name: string)
    ensures forall family :: FamilyOf(name) == Some(family) <==> name in Aliases(family)
  {
    forall family
      ensures FamilyOf(name) == Some(family) <==> name in Aliases(family)
    {
      FamilyOfIsAliasesOf(name, family);
    }
  }

  lemma FamilyOfIsAliasesOf(name: string, family: ChainFamily)
    ensures FamilyOf(name) == Some(family) <==> name in Aliases(family)
  {
    FoundIsAlias(name);
    if name in Aliases(family) {
      match family
      case Bitcoin | Cosmos | Ethereum | Tron | Zcash => AliasFoundBitcoinToZcash(name, family);
      case Dogecoin | Bch | Litecoin => AliasFoundDogecoinToLitecoin(name, family);
      case Thorchain | Mayachain => AliasFoundThorchainMayachain(name, family);
      case Ripple | Solana => AliasFoundRippleSolana(name, family);
      case Polkadot => AliasFoundPolkadot(name, family);
      case Dash => AliasFoundDash(name, family);
    }
  }

  /** What the `switch` finds is one of the found chain's aliases. */
  lemma FoundIsAlias(name: string)
    ensures FamilyOf(name).Some? ==> name in Aliases(FamilyOf(name).value)
  {
  }

  // Each alias reaches its own case: no earlier case matches it. The chains are taken a few
  // at a time, since every alias is compared with all the names before it.

  lemma AliasFoundBitcoinToZcash(name: string, family: ChainFamily)
    requires family == Bitcoin || family == Cosmos || family == Ethereum || family == Tron || family == Zcash
    requires name in Aliases(family)
    ensures FamilyOf(name) == Some(family)
  {
  }

  lemma AliasFoundDogecoinToLitecoin(name: string, family: ChainFamily)
    requires family == Dogecoin || family == Bch || family == Litecoin
    requires name in Aliases(family)
    ensures FamilyOf(name) == Some(family)
  {
  }

  lemma AliasFoundThorchainMayachain(name: string, family: ChainFamily)
    requires family == Thorchain || family == Mayachain
    requires name in Aliases(family)
    ensures FamilyOf(name) == Some(family)
  {
  }

  lemma AliasFoundRippleSolana(name: string, family: ChainFamily)
    requires family == Ripple || family == Solana
    requires name in Aliases(family)
    ensures FamilyOf(name) == Some(family)
  {
  }

  lemma AliasFoundPolkadot(name: string, family: ChainFamily)
    requires family == Polkadot
    requires name in Aliases(family)
    ensures FamilyOf(name) == Some(family)
  {
  }

  lemma AliasFoundDash(name: string, family: ChainFamily)
    requires family == Dash
    requires name in Aliases(family)
    ensures FamilyOf(name) == Some(family)
  {
  }

  /** `getMethodComponent(chainName, methodName)`; `lookup(f)` is chain `f`'s own
      `getMethodComponent`. */
  function GetMethodComponent<C>(chainName: string, methodName: string, lookup: ChainFamily -> string -> Option<C>): (r: Option<C>)
    ensures (forall f :: ToLowerCase(chainName) !in Aliases(f)) ==> r.None?
    ensures forall f :: ToLowerCase(chainName) in Aliases(f) ==> r == lookup(f)(methodName)
  {
    FamilyOfIsAliases(ToLowerCase(chainName));
    match FamilyOf(ToLowerCase(chainName))
    case Some(f) => lookup(f)(methodName)
    case None => None
  }

  /** Dispatch ignores case. */
  lemma DispatchIgnoresCase<C>(chainName: string, methodName: string, lookup: ChainFamily -> string -> Option<C>)
    ensures GetMethodComponent(chainName, methodName, lookup) == GetMethodComponent(ToLowerCase(chainName), methodName, lookup)
  {
    ToLowerCaseIdempotent(chainName);
  }

  /** Two names that lower-case to aliases of the same chain dispatch alike. */
  lemma AliasesDispatchAlike<C>(a: string, b: string, family: ChainFamily, methodName: string, lookup: ChainFamily -> string -> Option<C>)
    requires ToLowerCase(a) in Aliases(family) && ToLowerCase(b) in Aliases(family)
    ensures GetMethodComponent(a, methodName, lookup) == GetMethodComponent(b, methodName, lookup)
  {
    FamilyOfIsAliases(ToLowerCase(a));
    FamilyOfIsAliases(ToLowerCase(b));
  }

  /** "bitcoincash" is no alias of "bch": it finds nothing. */
  lemma BitcoinCashIsNotBch<C>(chainName: string, methodName: string, lookup: ChainFamily -> string -> Option<C>)
    requires ToLowerCase(chainName) == "bitcoincash"
    ensures GetMethodComponent(chainName, methodName, lookup).None?
  {
  }
}
