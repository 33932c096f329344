/**
 * The record shapes of the wallet front-end and its registry of supported
 * chains: a map from chain id to the network descriptor the session shows.
 */
module WalletTypes {

  /** An account as the UI sees it: the address and the balance already formatted in ether. */
  datatype WalletAccount = WalletAccount(address: string, balance: string)

  datatype NativeCurrency = NativeCurrency(name: string, symbol: string, decimals: int)

  datatype Network = Network(
    chainId: int,
    name: string,
    rpcUrl: string,
    blockExplorerUrl: string,
    nativeCurrency: NativeCurrency)

  /** The two chain ids come from build-time configuration; they are the ids of Ethereum mainnet and Sepolia. */
  const MainnetChainId: int := 1
  const SepoliaChainId: int := 11155111

  /** The RPC endpoints also come from build-time configuration: fixed, but not known to the model. */
  const MainnetRpcUrl: string
  const SepoliaRpcUrl: string

  const Mainnet: Network := Network(
    MainnetChainId, "Ethereum Mainnet", MainnetRpcUrl, "https://etherscan.io",
    NativeCurrency("Ether", "ETH", 18))

  /** The source stores the raw configuration value here; it is taken to be the numeric id. */
  const Sepolia: Network := Network(
    SepoliaChainId, "Sepolia Testnet", SepoliaRpcUrl, "https://sepolia.etherscan.io",
    NativeCurrency("Sepolia Ether", "ETH", 18))

  /** The registry of supported networks, keyed by chain id. */
  const SupportedNetworks: map<int, Network> := map[MainnetChainId := Mainnet, SepoliaChainId := Sepolia]

  /** The registry holds exactly the mainnet and Sepolia entries. */
  lemma RegistryEntries()
    ensures SupportedNetworks.Keys == {MainnetChainId, SepoliaChainId}
    ensures |SupportedNetworks| == 2
    ensures SupportedNetworks[MainnetChainId] == Mainnet
    ensures SupportedNetworks[SepoliaChainId] == Sepolia
  {
    assert SupportedNetworks.Keys == {MainnetChainId, SepoliaChainId};
  }

  /** Every entry is filed under its own chain id (for Sepolia: given a numeric configuration value). */
  lemma RegistryKeyedByChainId(id: int)
    requires id in SupportedNetworks
    ensures SupportedNetworks[id].chainId == id
  {
  }

  /** Both entries are paid in ETH with 18 decimals; only the currency names differ. */
  lemma RegistryCurrencies(id: int)
    requires id in SupportedNetworks
    ensures SupportedNetworks[id].nativeCurrency.symbol == "ETH"
    ensures SupportedNetworks[id].nativeCurrency.decimals == 18
    ensures SupportedNetworks[id].nativeCurrency.name ==
      if id == MainnetChainId then "Ether" else "Sepolia Ether"
  {
  }

  /** The display names and block-explorer URLs of the two entries. */
  lemma RegistryNamesAndExplorers()
    ensures Mainnet.name == "Ethereum Mainnet" && Mainnet.blockExplorerUrl == "https://etherscan.io"
    ensures Sepolia.name == "Sepolia Testnet" && Sepolia.blockExplorerUrl == "https://sepolia.etherscan.io"
    ensures Mainnet.rpcUrl == MainnetRpcUrl && Sepolia.rpcUrl == SepoliaRpcUrl
  {
  }
}
