/** The helpers of src/components/cosmos/cosmosUtils.ts: the RPC endpoint of a chain, enabling
    a chain in the wallet, and reading the sender's account number and sequence. The wallet's
    methods and the chain query are parameters. */
module CosmosUtils {
  import opened Wrappers
  import opened JsString
  import opened JsRecord

  const DirectoryPrefix: string := "https://rpc.cosmos.directory/"

  /** `rpcMap`. */
  const RpcMap: map<string, string> := map[
    "cosmoshub-4" := "https://cosmos-rpc.polkachu.com",
    "thorchain-1" := "https://rpc.ninerealms.com"]

  /** What `getRpcUrl` as written returns: a URL, or the inherited `Object.prototype` member
      a chain id such as "valueOf" reads from the map. */
  datatype RpcUrl = Url(url: string) | InheritedMember(member: string)

  /** `rpcMap[chainId] || \`https://rpc.cosmos.directory/${chainId}\``, as written. */
  function RpcUrlAsWritten(chainId: string): RpcUrl {
    match Get(RpcMap, chainId)
    case Own(url) => if url != "" then Url(url) else Url(DirectoryPrefix + chainId)
    case Inherited(m) => InheritedMember(m)
    case Absent => Url(DirectoryPrefix + chainId)
  }

  /** A chain id named like an `Object.prototype` member gets that member, not a URL. */
  lemma PrototypeMemberIsNotAnRpcUrl()
    ensures RpcUrlAsWritten("valueOf") == InheritedMember("valueOf")
  {
    assert "valueOf" !in RpcMap;
  }

  /** `getRpcUrl` reading only the map's own entries: the two known hubs have fixed URLs,
      any other chain id is looked up in the chain directory. */
  function GetRpcUrl(chainId: string): (url: string)
    ensures chainId == "cosmoshub-4" ==> url == "https://cosmos-rpc.polkachu.com"
    ensures chainId == "thorchain-1" ==> url == "https://rpc.ninerealms.com"
    ensures chainId != "cosmoshub-4" && chainId != "thorchain-1" ==> url == DirectoryPrefix + chainId
  {
    if chainId in RpcMap && RpcMap[chainId] != "" then RpcMap[chainId] else DirectoryPrefix + chainId
  }

  /** Apart from the prototype's member names, the code as written gives the intended URL. */
  lemma RpcUrlAgreesOffPrototype(chainId: string)
    requires chainId !in ObjectPrototypeMembers
    ensures RpcUrlAsWritten(chainId) == Url(GetRpcUrl(chainId))
  {
  }

  const ChainIdRequired: string := "Chain ID is required"
  const EnableMissing: string := "enable method is not available"
  const GetKeyMissing: string := "getKey method is not available"
  const AddressMissing: string := "Failed to get address from getKey"

  /** The wallet provider as these helpers see it: `enable` and `getKey`, each absent when
      the provider has no such function. `getKey` yields the key's `bech32Address`, `None`
      when the key or the field is missing; a rejected call is an `Err`. */
  datatype CosmosProvider = CosmosProvider(
    enable: Option<string -> Outcome>,
    getKey: Option<string -> Result<Option<string>>>)

  /** An account field as the chain query returns it. */
  datatype AccountField = Text(text: string) | Number(number: int)

  datatype Account = Account(accountNumber: Option<AccountField>, sequence: Option<AccountField>)

  datatype CosmosAccountInfo = CosmosAccountInfo(address: string, accountNumber: string, sequence: string)

  /** A field's string form: a string as it is, a number as `String(n)`. */
  function FieldText(field: AccountField): string {
    match field
    case Text(t) => t
    case Number(n) => IntToString(n)
  }

  /** `enableCosmosChain`. */
  function EnableCosmosChain(provider: CosmosProvider, chainId: string): (r: Outcome)
    ensures IsBlank(chainId) ==> r == Fail(ChainIdRequired)
    ensures !IsBlank(chainId) && provider.enable.None? ==> r == Fail(EnableMissing)
    ensures !IsBlank(chainId) && provider.enable.Some? ==> r == provider.enable.value(chainId)
  {
    TrimEmptyIffBlank(chainId);
    if Trim(chainId) == "" then Fail(ChainIdRequired)
    else if provider.enable.None? then Fail(EnableMissing)
    else provider.enable.value(chainId)
  }

  /** `fetchCosmosAccountInfo`: the chain id and `enable` are checked and called as
      `enableCosmosChain` does, then the key's address is read, then the account is queried
      at the chain's RPC URL (`getAccount(url, address)`, `None` for an unknown account);
      account number and sequence start at "0" and take the account's fields when present. */
  method FetchCosmosAccountInfo(provider: CosmosProvider, chainId: string, getAccount: (string, string) -> Result<Option<Account>>)
    returns (r: Result<CosmosAccountInfo>)
    ensures EnableCosmosChain(provider, chainId).Fail? ==> r == Err(EnableCosmosChain(provider, chainId).error)
    ensures EnableCosmosChain(provider, chainId).Pass? && provider.getKey.None? ==> r == Err(GetKeyMissing)
    ensures EnableCosmosChain(provider, chainId).Pass? && provider.getKey.Some? ==>
      match provider.getKey.value(chainId)
      case Err(e) => r == Err(e)
      case Ok(address) =>
        if address.None? || address.value == "" then r == Err(AddressMissing)
        else match getAccount(GetRpcUrl(chainId), address.value)
          case Err(e) => r == Err(e)
          case Ok(account) =>
            && r.Ok?
            && r.value.address == address.value
            && (account.None? || account.value.accountNumber.None? ==> r.value.accountNumber == "0")
            && (account.Some? && account.value.accountNumber.Some? ==>
                  r.value.accountNumber == FieldText(account.value.accountNumber.value))
            && (account.None? || account.value.sequence.None? ==> r.value.sequence == "0")
            && (account.Some? && account.value.sequence.Some? ==>
                  r.value.sequence == FieldText(account.value.sequence.value))
  {
    TrimEmptyIffBlank(chainId);
    if Trim(chainId) == "" {
      return Err(ChainIdRequired);
    }
    if provider.enable.None? {
      return Err(EnableMissing);
    }
    var enabled := provider.enable.value(chainId);
    if enabled.Fail? {
      return Err(enabled.error);
    }
    if provider.getKey.None? {
      return Err(GetKeyMissing);
    }
    var key := provider.getKey.value(chainId);
    if key.Err? {
      return Err(key.error);
    }
    if key.value.None? || key.value.value == "" {
      return Err(AddressMissing);
    }
    var signerAddress := key.value.value;
    var rpcUrl := GetRpcUrl(chainId);
    var queried := getAccount(rpcUrl, signerAddress);
    if queried.Err? {
      return Err(queried.error);
    }
    var accountNumber := "0";
    var sequence := "0";
    if queried.value.Some? {
      var account := queried.value.value;
      if account.accountNumber.Some? {
        accountNumber := FieldText(account.accountNumber.value);
      }
      if account.sequence.Some? {
        sequence := FieldText(account.sequence.value);
      }
    }
    return Ok(CosmosAccountInfo(signerAddress, accountNumber, sequence));
  }
}
