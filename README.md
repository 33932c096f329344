# Wallet session model

A Dafny model of the wallet front-end's session core: the React context that
tracks the connected account, the active network and the `isConnected` /
`isConnecting` flags of an injected EIP-1193 wallet, the registry of
supported chains, and the header's address shortener.

- `options.dfy` — `Option`, for the source's `T | null` cells.
- `radix.dfy` — JavaScript's `n.toString(radix)` for integers (used for the
  `0x…` chain-id parameter and the decimal id in "Unknown Network (…)") and a
  parser proved to invert it.
- `wallet_types.dfy` — the `WalletAccount` record (exactly an address and a
  balance string), the `Network` record and the `SupportedNetworks` registry
  with its two entries.
- `header.dfy` — `String.prototype.slice` with its negative-index and
  clamping rules, and `formatAddress`.
- `wallet_rules.dfy` — the session as a state machine over values: one
  function per action and per provider event, the network resolution
  (registry entry or synthesized Unknown descriptor), the EIP-3326 hex
  chain id, and the lemmas about them.
- `wallet_context.dfy` — class `WalletSession` with the four cells as
  mutable fields. Each method updates the fields step by step as the source
  does and is proved to end in the state the matching `WalletRules` function
  gives, so every `WalletRules` lemma is a fact about the class.

The wallet and the ethers library are replaced by inputs. Each awaited call
is a `Fetch<T>`: `Got(v)` when it resolves with `v`, `Failed(e)` when it
rejects with provider error `e` (which has an optional numeric `code`). Whether
`window.ethereum` exists is the constant `hasProvider` of a session. An
action's promise settles as an `Outcome`: `Ok(v)`, `Err(WalletMissing)`
(the "install a wallet" error), or `Err(Provider(e))` with the provider's
error passed on unchanged. `switchNetwork` additionally returns the requests
it sent (`wallet_switchEthereumChain`, then possibly `wallet_addEthereumChain`)
so that their parameters can be stated.

The page shows the account only under `isConnected && account`
(src/components/Header.tsx:18), so it relies on a consistency between the cells:
`isConnected` holds exactly when an account is present, there is no network
without an account, and there is a network while connected. This is the
predicate `WalletRules.Tidy`. The code does not keep it. The model proves where it
holds, and it proves reachable states where it fails:
- `accountsChanged` while disconnected sets an account without `isConnected`.
- `chainChanged` or `switchNetwork` while disconnected sets a network with no account.
- The start-up probe on an unregistered chain connects with no network.
- `connectWallet` marks the session connected even after `updateAccountInfo`
  swallowed a failed fetch, leaving no account.

`WalletContext.ReachableInconsistencies` drives a `WalletSession` into three of them.

Notes on the code:
- The start-up probe sets the network only for a registered chain. It has no
  Unknown fallback.
- The `chainChanged` handler ignores the chain id carried by the event. It asks
  the provider for the network again.
- `connectWallet` does not check `isConnecting` before starting.

## Model

| member | source | states |
|---|---|---|
| `WalletTypes.RegistryEntries` | src/types/wallet.ts:32-55 | the registry has exactly two keys, the mainnet and Sepolia chain ids, mapping to the two entries |
| `WalletTypes.RegistryKeyedByChainId` | src/types/wallet.ts:33-45 | every entry's `chainId` equals its key (for Sepolia, given a numeric configuration value) |
| `WalletTypes.RegistryCurrencies` | src/types/wallet.ts:38-53 | both entries use symbol `ETH` with 18 decimals; the currency names are `Ether` and `Sepolia Ether` |
| `WalletTypes.RegistryNamesAndExplorers` | src/types/wallet.ts:35-47 | the entry names are `Ethereum Mainnet` and `Sepolia Testnet`, the explorers `https://etherscan.io` and `https://sepolia.etherscan.io`, and the RPC URLs the configured ones |
| `Header.Slice` | src/components/Header.tsx:7 | `s.slice(a, b)` has length max(0, j - i) for the clamped indices i, j, and its k-th character is the (i + k)-th of `s` |
| `Header.SliceWithinBounds` | src/components/Header.tsx:7 | for 0 <= a <= b <= length, `s.slice(a, b)` is exactly `s[a..b]` |
| `Header.SliceFromNegative` | src/components/Header.tsx:7 | `s.slice(-k)` is the last k characters, all of a shorter string, and the whole string for k = 0 |
| `Header.SliceFrom` | src/components/Header.tsx:7 | `s.slice(k)` is the suffix from the clamped index |
| `Header.FormatAddress` | src/components/Header.tsx:7 | the result is the first six characters (or all if shorter), then `...`, then the last four (or all if shorter), nothing else; length 13 from length 10 on |
| `Header.FormatAddressLength` | src/components/Header.tsx:7 | the output length is min(n,6)+3+min(n,4), never above 13 |
| `Header.FormatHexAddress` | src/components/Header.tsx:7 | a 42-character `0x` address shows `0x` and four digits, `...`, and its last four digits |
| `Radix.NatToString` | src/contexts/WalletContext.tsx:231 | `toString(radix)` gives a non-empty string of digits of that radix, starting with `0` only for zero |
| `Radix.IntToString` | src/contexts/WalletContext.tsx:231 | the rendering is non-empty, starts with `-` exactly for negative values, and is otherwise digits of the radix |
| `Radix.ParseIntRoundTrip` | src/contexts/WalletContext.tsx:231 | parsing the rendering of any integer in any radix 2..16 gives the integer back |
| `Radix.IntToStringInjective` | src/contexts/WalletContext.tsx:74 | two integers render alike exactly when they are equal |
| `WalletRules.HexChainId` | src/contexts/WalletContext.tsx:231 | the switch parameter starts with `0x` and has at least one digit |
| `WalletRules.HexChainIdRoundTrip` | src/contexts/WalletContext.tsx:231 | the `0x` parameter decodes back to the requested chain id |
| `WalletRules.HexChainIdInjective` | src/contexts/WalletContext.tsx:247 | distinct chain ids give distinct parameters |
| `WalletRules.ResolveNetwork` | src/contexts/WalletContext.tsx:67-83 | a registered id gives the registry entry itself; any other gives chain id, name `Unknown Network (<id>)`, empty RPC and explorer URLs, currency `Unknown`/`UNK`/18; the chain id is always kept |
| `WalletRules.UnknownExactlyWhenUnregistered` | src/contexts/WalletContext.tsx:131-147 | the descriptor has symbol `UNK` if and only if the id is not registered |
| `WalletRules.UnknownNameCarriesChainId` | src/contexts/WalletContext.tsx:136-146 | the Unknown name is the prefix, the decimal id and `)`, and the id parses back out of it |
| `WalletRules.ResolveNetworkInjective` | src/contexts/WalletContext.tsx:67-83 | two ids resolve to the same descriptor only when they are equal |
| `WalletRules.Disconnect` | src/contexts/WalletContext.tsx:217-221 | account and network become null, `isConnected` false, `isConnecting` untouched |
| `WalletRules.DisconnectIdempotent` | src/contexts/WalletContext.tsx:217-221 | disconnecting twice equals disconnecting once |
| `WalletRules.DisconnectIsTidy` | src/contexts/WalletContext.tsx:217-221 | after a disconnect the page's consistency holds, from any state |
| `WalletRules.UpdateAccountInfo` | src/contexts/WalletContext.tsx:54-87 | with a wallet and both fetches answered, account is the given address with the fetched balance and network is the resolved one; otherwise nothing changes; the flags never change |
| `WalletRules.RefreshBalance` | src/contexts/WalletContext.tsx:267-280 | only the balance changes, and only with an account, a wallet and a successful fetch; address, network and flags stay |
| `WalletRules.RefreshKeepsTidy` | src/contexts/WalletContext.tsx:267-280 | a refresh keeps the page's consistency wherever it holds |
| `WalletRules.RefreshIdempotent` | src/contexts/WalletContext.tsx:267-280 | refreshing twice with the same answer equals refreshing once |
| `WalletRules.ChainChanged` | src/contexts/WalletContext.tsx:123-156 | with a wallet and a network answer, network is re-resolved (Unknown fallback) and, with an account, the balance is re-fetched; a failed query changes nothing; address and flags never change |
| `WalletRules.ChainChangedKeepsTidyWhileConnected` | src/contexts/WalletContext.tsx:123-156 | while connected a chain change keeps the page's consistency |
| `WalletRules.ChainChangedCanBreakTidy` | src/contexts/WalletContext.tsx:133-134 | from the initial state a chain change yields a network without an account |
| `WalletRules.AccountsChanged` | src/contexts/WalletContext.tsx:108-121 | the handler never raises `isConnected` nor touches `isConnecting`; the account afterwards is cleared (empty list), the same as before, or the first listed address with the fetched balance |
| `WalletRules.AccountsChangedEmptyIsDisconnect` | src/contexts/WalletContext.tsx:111-113 | an empty account list is exactly a disconnect |
| `WalletRules.AccountsChangedSameAddress` | src/contexts/WalletContext.tsx:116-119 | the same first address changes nothing |
| `WalletRules.AccountsChangedNewAddress` | src/contexts/WalletContext.tsx:116-118 | a different first address (or none before) re-populates account and network via `updateAccountInfo`, without touching the flags |
| `WalletRules.AccountsChangedNeverConnects` | src/contexts/WalletContext.tsx:108-121 | the handler never sets `isConnected` and never touches `isConnecting` |
| `WalletRules.AccountsChangedKeepsTidyWhileConnected` | src/contexts/WalletContext.tsx:108-121 | while connected the handler keeps the page's consistency |
| `WalletRules.AccountsChangedCanBreakTidy` | src/contexts/WalletContext.tsx:116-118 | from the initial state an account appears while `isConnected` stays false |
| `WalletRules.Probe` | src/contexts/WalletContext.tsx:20-51 | the probe changes the state only after a non-empty list and answered address and balance, and then connects with the signer's address and balance; the network it sets is a registry entry; `isConnecting` never changes |
| `WalletRules.ProbeFromEmpty` | src/contexts/WalletContext.tsx:20-51 | with every answer and a non-empty list the probe sets account and `isConnected`, and network only for a registered chain; on any failure or an empty list the state stays empty |
| `WalletRules.ProbeNetworkIsRegistered` | src/contexts/WalletContext.tsx:37-40 | any network the probe sets is a registry entry, never an Unknown descriptor |
| `WalletRules.ProbeCanBreakTidy` | src/contexts/WalletContext.tsx:37-42 | on an unregistered chain the probe connects with no network |
| `WalletRules.Connect` | src/contexts/WalletContext.tsx:184-215 | `isConnected` can only become true, and only when the call returns normally; the account afterwards is the old one or the first returned address with the fetched balance; the network is the old one or the resolved one |
| `WalletRules.ConnectWithoutWallet` | src/contexts/WalletContext.tsx:185-187 | with no wallet the call throws and the state is untouched |
| `WalletRules.ConnectSettles` | src/contexts/WalletContext.tsx:189-214 | with a wallet `isConnecting` is false on every exit, and a thrown error is the provider's own, rethrown unchanged |
| `WalletRules.ConnectConnectsOnlyWithAccounts` | src/contexts/WalletContext.tsx:194-207 | from a disconnected state the call connects if and only if the wallet returned a non-empty list and the final network query answered, and then it returns normally |
| `WalletRules.ConnectPopulates` | src/contexts/WalletContext.tsx:192-207 | when every fetch answers, the session holds the first address, the fetched balance, the resolved network, and is connected and not connecting |
| `WalletRules.ConnectKeepsTidyWhenFetchesSucceed` | src/contexts/WalletContext.tsx:184-215 | the page's consistency survives a connect whose inner fetches succeed, whatever the account request does |
| `WalletRules.ConnectCanBreakTidy` | src/contexts/WalletContext.tsx:194-207 | a swallowed balance failure leaves the session connected with no account, and the call returns normally |
| `WalletRules.Switch` | src/contexts/WalletContext.tsx:223-265 | the state is either unchanged or has only its network replaced by the registry entry of the id; a thrown error leaves it unchanged, and a change comes only with a normal return |
| `WalletRules.AddChainRequest` | src/contexts/WalletContext.tsx:244-253 | the add-chain request carries the `0x` id (which parses back to the id), the entry's name, its RPC URL and explorer URL as one-element lists, and its currency |
| `WalletRules.SwitchCanBreakTidy` | src/contexts/WalletContext.tsx:234-236 | from the initial state a successful switch to a registered chain sets a network with no account |
| `WalletRules.SwitchWithoutWallet` | src/contexts/WalletContext.tsx:224-226 | with no wallet the call throws, sends nothing and changes nothing |
| `WalletRules.SwitchTouchesOnlyNetwork` | src/contexts/WalletContext.tsx:228-237 | only network can change, and the first request is the switch with the `0x` id, which decodes back to the id |
| `WalletRules.SwitchSucceeds` | src/contexts/WalletContext.tsx:229-237 | on success the network becomes the registry entry, or stays as it was for an unregistered id; one request is sent |
| `WalletRules.SwitchAddsRegisteredChain` | src/contexts/WalletContext.tsx:240-258 | on error 4902 for a registered id it sends add-chain with the entry's name, RPC URL, explorer URL and currency; success sets the entry, failure rethrows that error with no change |
| `WalletRules.SwitchIgnoresUnregisteredChain` | src/contexts/WalletContext.tsx:240-259 | on error 4902 for an unregistered id it returns normally and changes nothing |
| `WalletRules.SwitchRethrowsOtherErrors` | src/contexts/WalletContext.tsx:260-263 | any other error is rethrown unchanged and nothing changes |
| `WalletRules.SwitchKeepsTidyWhileConnected` | src/contexts/WalletContext.tsx:223-265 | while connected a switch keeps the page's consistency |
| `WalletContext.WalletSession.constructor` | src/contexts/WalletContext.tsx:14-17 | a session starts with no account, no network and both flags false |
| `WalletContext.WalletSession.CheckConnection` | src/contexts/WalletContext.tsx:21-48 | the cells end as the probe step gives |
| `WalletContext.WalletSession.UpdateAccountInfo` | src/contexts/WalletContext.tsx:54-87 | the cells end as the `updateAccountInfo` step gives |
| `WalletContext.WalletSession.RefreshBalance` | src/contexts/WalletContext.tsx:93-106 | the cells end as the refresh step gives (the handler-local copy is the same code as lines 267-280) |
| `WalletContext.WalletSession.DisconnectWallet` | src/contexts/WalletContext.tsx:217-221 | the cells end as the disconnect step gives |
| `WalletContext.WalletSession.HandleAccountsChanged` | src/contexts/WalletContext.tsx:108-121 | the cells end as the `accountsChanged` step gives |
| `WalletContext.WalletSession.HandleChainChanged` | src/contexts/WalletContext.tsx:123-156 | the cells end as the `chainChanged` step gives |
| `WalletContext.WalletSession.HandleConnect` | src/contexts/WalletContext.tsx:158-160 | the `connect` event changes no cell |
| `WalletContext.WalletSession.HandleDisconnect` | src/contexts/WalletContext.tsx:162-165 | the `disconnect` event is a disconnect |
| `WalletContext.WalletSession.ConnectWallet` | src/contexts/WalletContext.tsx:184-215 | the cells and the settled promise are those the connect step gives |
| `WalletContext.WalletSession.SwitchNetwork` | src/contexts/WalletContext.tsx:223-265 | the cells, the settled promise and the requests sent are those the switch step gives |
| `WalletContext.WalletSession.SignMessage` | src/contexts/WalletContext.tsx:282-296 | returns the signer's string unchanged, or throws the missing-wallet or signer error; no cell changes |

## Left out

- Rendering and JSX, the modal, account card, network selector and status
  toasts (and their timers): presentational only. The identical copies of
  `formatAddress` in other components are modelled once.
- Asynchrony: each action and handler is one atomic step. Interleavings,
  races between `connectWallet` and events, and handlers reading a stale
  `account` captured when they were registered are not modelled.
- `WalletContext.WalletSession.ConnectWallet`: `isConnecting` being true while
  the provider is awaited cannot be observed from an atomic step. Only its
  value at exit is stated, plus an assertion in the body at the point of the
  second network query.
- Registering and removing the provider event listeners is not modelled: it is event wiring.
- The ethers calls (`BrowserProvider`, `listAccounts`, `getSigner`,
  `getAddress`, `getBalance`, `getNetwork`, `send`, `signMessage`) are inputs.
  `formatEther` is opaque: balance inputs are already-formatted strings.
  `getSigner` followed by `getAddress` (start-up probe) is one input, and so
  is `getSigner` followed by `signMessage`, since a failure of either takes the same path.
- Signature verification and `formatBalance` are not part of this model:
  they rely on ECDSA recovery inside ethers and on floating point.
- Console logging and the wallet's own user prompts: side effects with no state.
- The registry's chain ids and RPC URLs come from build configuration. The ids
  are the fixed constants 1 and 11155111. The URLs are constants whose value the
  model leaves unspecified.
- `WalletTypes.RegistryKeyedByChainId`: the Sepolia entry's `chainId` is the raw
  configuration value (a string) in the source. The model holds the number,
  which is correct only when that value is numeric.
- `WalletRules.ResolveNetwork`: `Number(chainId)` on a bigint rounds above
  2^53. Chain ids are exact integers in the model.
- `Header.FormatAddress`: Dafny strings are sequences of Unicode code points,
  while JavaScript's `slice` and `length` count UTF-16 code units. The two agree
  on text inside the Basic Multilingual Plane, which includes every address;
  characters outside it (an emoji, say) are counted differently.
- `WalletRules.HexChainId`: only integer chain ids are modelled. A fractional
  number's `toString(16)` is left out.
