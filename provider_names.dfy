/** `getProviderDisplayName` of src/config/providerNames.ts: the display name of a wallet
    provider. */
module ProviderNames {
  import opened Wrappers
  import opened JsString
  import opened JsRecord

  const Native: string := "Native"

  /** `providerDisplayNames`. */
  const ProviderDisplayNames: map<string, string> := map[
    "cosmos" := Native, "keplr" := "Keplr", "bitcoin" := Native, "ethereum" := Native,
    "tron" := Native, "zcash" := Native, "dogecoin" := Native, "bch" := Native,
    "litecoin" := Native, "thorchain" := Native, "mayachain" := Native, "ripple" := Native,
    "solana" := Native, "polkadot" := Native, "dash" := Native]

  /** What the function as written returns: a string, or the inherited `Object.prototype`
      member a name such as "constructor" reads from the table. */
  datatype DisplayName = Text(text: string) | InheritedMember(member: string)

  /** `providerDisplayNames[name] || upperFirst(name)`, as written. */
  function ProviderDisplayNameAsWritten(name: string): DisplayName {
    match Get(ProviderDisplayNames, name)
    case Own(v) => if v != "" then Text(v) else Text(UpperFirst(name))
    case Inherited(m) => InheritedMember(m)
    case Absent => Text(UpperFirst(name))
  }

  /** A provider named like an `Object.prototype` member gets that member, not a name. */
  lemma PrototypeMemberIsNotADisplayName()
    ensures ProviderDisplayNameAsWritten("constructor") == InheritedMember("constructor")
  {
    assert "constructor" !in ProviderDisplayNames;
  }

  /** `getProviderDisplayName` reading only the table's own entries. */
  function GetProviderDisplayName(name: string): string {
    if name in ProviderDisplayNames && ProviderDisplayNames[name] != "" then ProviderDisplayNames[name]
    else UpperFirst(name)
  }

  /** The table: "keplr" is shown as "Keplr", every other listed provider as "Native", any
      other name with its first character upper-cased and the rest unchanged. */
  lemma DisplayNameTable(name: string)
    ensures name == "keplr" ==> GetProviderDisplayName(name) == "Keplr"
    ensures name != "keplr" && name in ProviderDisplayNames ==> GetProviderDisplayName(name) == Native
    ensures name !in ProviderDisplayNames ==> GetProviderDisplayName(name) == UpperFirst(name)
  {
  }

  /** The display name is empty exactly when the provider name is. */
  lemma DisplayNameEmptyIffNameEmpty(name: string)
    ensures GetProviderDisplayName(name) == "" <==> name == ""
  {
    if name == "" {
      assert name !in ProviderDisplayNames;
    }
  }

  /** Apart from the prototype's member names, the code as written gives the intended name. */
  lemma AsWrittenAgreesOffPrototype(name: string)
    requires name !in ObjectPrototypeMembers
    ensures ProviderDisplayNameAsWritten(name) == Text(GetProviderDisplayName(name))
  {
  }
}
