/**
 * The wallet session as a state machine over values: one function per action
 * and per provider event, giving the state after the step (and, for actions
 * that can throw, how the call ends). Every awaited provider or ethers call
 * is an input: `Got(v)` when it resolves with `v`, `Failed(e)` when it
 * rejects with `e`. Whether a wallet is injected (`window.ethereum`) is the
 * input `hasProvider`.
 */
module WalletRules {
  import opened Options
  import opened Radix
  import opened WalletTypes

  /** The four state cells of the session. */
  datatype Session = Session(
    account: Option<WalletAccount>,
    network: Option<Network>,
    isConnected: bool,
    isConnecting: bool)

  /** The state at start-up, before the probe runs. */
  const Empty: Session := Session(None, None, false, false)

  /** An error a provider request rejects with; `code` is absent when the error carries none. */
  datatype ProviderError = ProviderError(code: Option<int>, message: string)

  /** What an action throws: the "install a wallet" error, or a provider error passed on unchanged. */
  datatype Thrown = WalletMissing | Provider(error: ProviderError)

  /** How an action's promise settles. */
  datatype Outcome<T> = Ok(value: T) | Err(thrown: Thrown)

  /** How one awaited provider call settles. */
  datatype Fetch<T> = Got(value: T) | Failed(error: ProviderError)

  /** The EIP-3326 error code for a chain the wallet does not know. */
  const UnrecognizedChain: int := 4902

  /** The requests the session sends to the provider when switching chains. */
  datatype Request =
    | SwitchChain(chainId: string)
    | AddChain(chainId: string, chainName: string, rpcUrls: seq<string>,
               blockExplorerUrls: seq<string>, nativeCurrency: NativeCurrency)

  datatype Step = Step(state: Session, outcome: Outcome<()>)
  datatype SwitchStep = SwitchStep(state: Session, outcome: Outcome<()>, sent: seq<Request>)

  /**
   * The consistency the page relies on: the header shows the account only
   * under `isConnected && account`, so "connected" should mean "an account is
   * present", and a network should be shown only alongside an account. The
   * steps below keep it only on some paths.
   */
  predicate Tidy(s: Session) {
    && (s.isConnected <==> s.account.Some?)
    && (s.account.None? ==> s.network.None?)
    && (s.isConnected ==> s.network.Some?)
  }

  // ---------------------------------------------------------------- helpers

  /** The chain id as an EIP-3326 parameter: `0x` and `chainId.toString(16)`. */
  function HexChainId(chainId: int): (r: string)
    ensures |r| >= 3 && r[..2] == "0x"
  {
    "0x" + IntToString(chainId, 16)
  }

  /** Reads back a hexadecimal chain id parameter. */
  function ParseHexChainId(s: string): Option<int> {
    if |s| >= 2 && s[..2] == "0x" then ParseInt(s[2..], 16) else None
  }

  const UnknownNamePrefix: string := "Unknown Network ("

  /** The network to show for a chain id: its registry entry, or a synthesized "Unknown Network" descriptor. */
  function ResolveNetwork(chainId: int): (r: Network)
    ensures r.chainId == chainId
    ensures chainId in SupportedNetworks ==> r == SupportedNetworks[chainId]
    ensures chainId !in SupportedNetworks ==>
      && r.name == UnknownNamePrefix + IntToString(chainId, 10) + ")"
      && r.rpcUrl == "" && r.blockExplorerUrl == ""
      && r.nativeCurrency == NativeCurrency("Unknown", "UNK", 18)
  {
    if chainId in SupportedNetworks then SupportedNetworks[chainId]
    else Network(chainId, UnknownNamePrefix + IntToString(chainId, 10) + ")", "", "",
                 NativeCurrency("Unknown", "UNK", 18))
  }

  // ---------------------------------------------------------------- steps

  /** `disconnectWallet`: local only, no provider call. */
  function Disconnect(s: Session): (r: Session)
    ensures r.account.None? && r.network.None? && !r.isConnected
    ensures r.isConnecting == s.isConnecting
  {
    s.(account := None, network := None, isConnected := false)
  }

  /** `updateAccountInfo(address)`: fetch balance and chain, then set account and network; failures are swallowed. */
  function UpdateAccountInfo(s: Session, hasProvider: bool, address: string,
                             balance: Fetch<string>, chain: Fetch<int>): (r: Session)
    ensures r.isConnected == s.isConnected && r.isConnecting == s.isConnecting
    ensures hasProvider && balance.Got? && chain.Got? ==>
      r.account == Some(WalletAccount(address, balance.value)) &&
      r.network == Some(ResolveNetwork(chain.value))
    ensures !(hasProvider && balance.Got? && chain.Got?) ==> r == s
  {
    if !hasProvider then s
    else
      match (balance, chain)
      case (Got(formatted), Got(chainId)) =>
        s.(account := Some(WalletAccount(address, formatted)),
           network := Some(ResolveNetwork(chainId)))
      case _ => s
  }

  /** `refreshBalance`: re-fetch the balance of the current address; a failure leaves everything as it was. */
  function RefreshBalance(s: Session, hasProvider: bool, balance: Fetch<string>): (r: Session)
    ensures r.network == s.network && r.isConnected == s.isConnected && r.isConnecting == s.isConnecting
    ensures r.account.Some? <==> s.account.Some?
    ensures r.account.Some? ==> r.account.value.address == s.account.value.address
    ensures s.account.Some? && hasProvider && balance.Got? ==> r.account.value.balance == balance.value
    ensures !(s.account.Some? && hasProvider && balance.Got?) ==> r == s
  {
    if s.account.None? || !hasProvider then s
    else
      match balance
      case Got(formatted) => s.(account := Some(s.account.value.(balance := formatted)))
      case Failed(_) => s
  }

  /** The `accountsChanged` handler. */
  function AccountsChanged(s: Session, hasProvider: bool, accounts: seq<string>,
                           balance: Fetch<string>, chain: Fetch<int>): (r: Session)
    ensures r.isConnecting == s.isConnecting
    ensures r.isConnected ==> s.isConnected
    ensures || (|accounts| == 0 && r.account.None?)
            || r.account == s.account
            || (|accounts| > 0 && balance.Got? && r.account == Some(WalletAccount(accounts[0], balance.value)))
  {
    if |accounts| == 0 then Disconnect(s)
    else if s.account.Some? && s.account.value.address == accounts[0] then s
    else UpdateAccountInfo(s, hasProvider, accounts[0], balance, chain)
  }

  /**
   * The `chainChanged` handler. The event's own chain id is not used: the
   * handler asks the provider for the current network again, then refreshes
   * the balance when an account is present.
   */
  function ChainChanged(s: Session, hasProvider: bool, eventChainId: string,
                        chain: Fetch<int>, balance: Fetch<string>): (r: Session)
    ensures r.isConnected == s.isConnected && r.isConnecting == s.isConnecting
    ensures r.account.Some? <==> s.account.Some?
    ensures r.account.Some? ==> r.account.value.address == s.account.value.address
    ensures hasProvider && chain.Got? ==> r.network == Some(ResolveNetwork(chain.value))
    ensures hasProvider && chain.Got? && s.account.Some? && balance.Got? ==>
      r.account.value.balance == balance.value
    ensures hasProvider && chain.Got? && !(s.account.Some? && balance.Got?) ==> r.account == s.account
    ensures !(hasProvider && chain.Got?) ==> r == s
  {
    if !hasProvider then s
    else
      match chain
      case Failed(_) => s
      case Got(chainId) =>
        var switched := s.(network := Some(ResolveNetwork(chainId)));
        if switched.account.Some? then RefreshBalance(switched, hasProvider, balance) else switched
  }

  /**
   * The start-up probe `checkConnection`: the already-authorized accounts, the
   * signer's address, its balance and the chain id, all fetched before any
   * cell is written. Unlike `updateAccountInfo` there is no Unknown fallback.
   */
  function Probe(s: Session, hasProvider: bool, listed: Fetch<seq<string>>,
                 address: Fetch<string>, balance: Fetch<string>, chain: Fetch<int>): (r: Session)
    ensures r.isConnecting == s.isConnecting
    ensures r != s ==> && listed.Got? && |listed.value| > 0 && address.Got? && balance.Got?
                       && r.isConnected
                       && r.account == Some(WalletAccount(address.value, balance.value))
    ensures r.network == s.network || (chain.Got? && chain.value in SupportedNetworks && r.network == Some(SupportedNetworks[chain.value]))
  {
    if !hasProvider then s
    else
      match (listed, address, balance, chain)
      case (Got(accounts), Got(signerAddress), Got(formatted), Got(chainId)) =>
        if |accounts| == 0 then s
        else
          s.(account := Some(WalletAccount(signerAddress, formatted)),
             network := if chainId in SupportedNetworks then Some(SupportedNetworks[chainId]) else s.network,
             isConnected := true)
      case _ => s
  }

  /**
   * `connectWallet`: request accounts, populate through `updateAccountInfo`
   * (which swallows its own failures), query the network once more and mark
   * the session connected; `isConnecting` is raised first and cleared on every
   * exit once a wallet is present.
   */
  function Connect(s: Session, hasProvider: bool, requested: Fetch<seq<string>>,
                   balance: Fetch<string>, chain: Fetch<int>, recheck: Fetch<int>): (r: Step)
    ensures r.state.isConnected != s.isConnected ==> r.state.isConnected && r.outcome == Ok(())
    ensures || r.state.account == s.account
            || (requested.Got? && |requested.value| > 0 && balance.Got? &&
                r.state.account == Some(WalletAccount(requested.value[0], balance.value)))
    ensures r.state.network == s.network || (chain.Got? && r.state.network == Some(ResolveNetwork(chain.value)))
  {
    if !hasProvider then Step(s, Err(WalletMissing))
    else
      var connecting := s.(isConnecting := true);
      match requested
      case Failed(e) => Step(connecting.(isConnecting := false), Err(Provider(e)))
      case Got(accounts) =>
        if |accounts| == 0 then Step(connecting.(isConnecting := false), Ok(()))
        else
          var populated := UpdateAccountInfo(connecting, hasProvider, accounts[0], balance, chain);
          match recheck
          case Failed(e) => Step(populated.(isConnecting := false), Err(Provider(e)))
          case Got(_) => Step(populated.(isConnected := true, isConnecting := false), Ok(()))
  }

  /** The EIP-3085 request that registers a chain from its registry entry. */
  function AddChainRequest(chainId: int, entry: Network): (r: Request)
    ensures r.AddChain? && ParseHexChainId(r.chainId) == Some(chainId)
    ensures r.chainName == entry.name && r.nativeCurrency == entry.nativeCurrency
    ensures r.rpcUrls == [entry.rpcUrl] && r.blockExplorerUrls == [entry.blockExplorerUrl]
  {
    HexChainIdRoundTrip(chainId);
    AddChain(HexChainId(chainId), entry.name, [entry.rpcUrl], [entry.blockExplorerUrl], entry.nativeCurrency)
  }

  /**
   * `switchNetwork(chainId)`: ask the wallet to switch; on error 4902 and a
   * registered chain, ask it to add the chain instead. `sent` lists the
   * requests in the order they are sent.
   */
  function Switch(s: Session, hasProvider: bool, chainId: int,
                  switched: Fetch<()>, added: Fetch<()>): (r: SwitchStep)
    ensures r.state == s || (chainId in SupportedNetworks && r.state == s.(network := Some(SupportedNetworks[chainId])))
    ensures r.outcome.Err? ==> r.state == s
    ensures r.state != s ==> r.outcome == Ok(())
  {
    if !hasProvider then SwitchStep(s, Err(WalletMissing), [])
    else
      var switchRequest := SwitchChain(HexChainId(chainId));
      match switched
      case Got(_) =>
        var next := if chainId in SupportedNetworks then s.(network := Some(SupportedNetworks[chainId])) else s;
        SwitchStep(next, Ok(()), [switchRequest])
      case Failed(e) =>
        if e.code == Some(UnrecognizedChain) then
          if chainId in SupportedNetworks then
            var entry := SupportedNetworks[chainId];
            var sent := [switchRequest, AddChainRequest(chainId, entry)];
            match added
            case Got(_) => SwitchStep(s.(network := Some(entry)), Ok(()), sent)
            case Failed(addError) => SwitchStep(s, Err(Provider(addError)), sent)
          else SwitchStep(s, Ok(()), [switchRequest])
        else SwitchStep(s, Err(Provider(e)), [switchRequest])
  }

  // ---------------------------------------------------------------- helpers' properties

  /** The parameter sent to `wallet_switchEthereumChain` decodes back to the requested chain id. */
  lemma HexChainIdRoundTrip(chainId: int)
    ensures ParseHexChainId(HexChainId(chainId)) == Some(chainId)
  {
    var r := HexChainId(chainId);
    assert r[2..] == IntToString(chainId, 16);
    ParseIntRoundTrip(chainId, 16);
  }

  /** Distinct chain ids are sent as distinct parameters. */
  lemma HexChainIdInjective(m: int, n: int)
    ensures HexChainId(m) == HexChainId(n) <==> m == n
  {
    if HexChainId(m) == HexChainId(n) {
      HexChainIdRoundTrip(m);
      HexChainIdRoundTrip(n);
    }
  }

  /** The "UNK" descriptor is produced exactly for chain ids the registry lacks. */
  lemma UnknownExactlyWhenUnregistered(chainId: int)
    ensures ResolveNetwork(chainId).nativeCurrency.symbol == "UNK" <==> chainId !in SupportedNetworks
  {
    if chainId in SupportedNetworks {
      RegistryCurrencies(chainId);
    }
  }

  /** The Unknown descriptor's name carries the decimal chain id, which can be read back from it. */
  lemma UnknownNameCarriesChainId(chainId: int)
    requires chainId !in SupportedNetworks
    ensures var name := ResolveNetwork(chainId).name;
      |name| > |UnknownNamePrefix| + 1 &&
      name[..|UnknownNamePrefix|] == UnknownNamePrefix &&
      name[|name| - 1] == ')' &&
      ParseInt(name[|UnknownNamePrefix|..|name| - 1], 10) == Some(chainId)
  {
    var digits := IntToString(chainId, 10);
    var name := ResolveNetwork(chainId).name;
    assert name == UnknownNamePrefix + digits + ")";
    assert name[|UnknownNamePrefix|..|name| - 1] == digits;
    ParseIntRoundTrip(chainId, 10);
  }

  /** Resolution never loses the chain id: two ids resolve alike only when they are equal. */
  lemma ResolveNetworkInjective(m: int, n: int)
    ensures ResolveNetwork(m) == ResolveNetwork(n) <==> m == n
  {
  }

  // ---------------------------------------------------------------- disconnect

  lemma DisconnectIdempotent(s: Session)
    ensures Disconnect(Disconnect(s)) == Disconnect(s)
  {
  }

  /** Whatever state it starts from, a disconnect lands in the tidy state. */
  lemma DisconnectIsTidy(s: Session)
    ensures Tidy(Disconnect(s))
  {
  }

  // ---------------------------------------------------------------- accountsChanged

  lemma AccountsChangedEmptyIsDisconnect(s: Session, hasProvider: bool, balance: Fetch<string>, chain: Fetch<int>)
    ensures AccountsChanged(s, hasProvider, [], balance, chain) == Disconnect(s)
  {
  }

  lemma AccountsChangedSameAddress(s: Session, hasProvider: bool, accounts: seq<string>,
                                   balance: Fetch<string>, chain: Fetch<int>)
    requires |accounts| > 0 && s.account.Some? && s.account.value.address == accounts[0]
    ensures AccountsChanged(s, hasProvider, accounts, balance, chain) == s
  {
  }

  /** A new first address re-populates account and network, and never touches the flags. */
  lemma AccountsChangedNewAddress(s: Session, hasProvider: bool, accounts: seq<string>,
                                  balance: Fetch<string>, chain: Fetch<int>)
    requires |accounts| > 0 && (s.account.None? || s.account.value.address != accounts[0])
    ensures var r := AccountsChanged(s, hasProvider, accounts, balance, chain);
      && r == UpdateAccountInfo(s, hasProvider, accounts[0], balance, chain)
      && r.isConnected == s.isConnected && r.isConnecting == s.isConnecting
      && (hasProvider && balance.Got? && chain.Got? ==>
            r.account == Some(WalletAccount(accounts[0], balance.value)) &&
            r.network == Some(ResolveNetwork(chain.value)))
  {
  }

  /** The handler can clear `isConnected` but never sets it. */
  lemma AccountsChangedNeverConnects(s: Session, hasProvider: bool, accounts: seq<string>,
                                     balance: Fetch<string>, chain: Fetch<int>)
    ensures var r := AccountsChanged(s, hasProvider, accounts, balance, chain);
      (r.isConnected ==> s.isConnected) && r.isConnecting == s.isConnecting
  {
  }

  /** While connected, the handler keeps the page's consistency. */
  lemma AccountsChangedKeepsTidyWhileConnected(s: Session, hasProvider: bool, accounts: seq<string>,
                                               balance: Fetch<string>, chain: Fetch<int>)
    requires Tidy(s) && s.isConnected
    ensures Tidy(AccountsChanged(s, hasProvider, accounts, balance, chain))
  {
  }

  /** While disconnected it does not: an account appears with `isConnected` still false. */
  lemma AccountsChangedCanBreakTidy()
    ensures exists accounts: seq<string>, balance: Fetch<string>, chain: Fetch<int> ::
      && Tidy(Empty)
      && var r := AccountsChanged(Empty, true, accounts, balance, chain);
         r.account.Some? && !r.isConnected
  {
    var r := AccountsChanged(Empty, true, ["0xab"], Got("1.0"), Got(MainnetChainId));
    assert r.account.Some? && !r.isConnected;
  }

  // ---------------------------------------------------------------- chainChanged

  /** While connected, a chain change keeps the page's consistency. */
  lemma ChainChangedKeepsTidyWhileConnected(s: Session, hasProvider: bool, eventChainId: string,
                                            chain: Fetch<int>, balance: Fetch<string>)
    requires Tidy(s) && s.isConnected
    ensures Tidy(ChainChanged(s, hasProvider, eventChainId, chain, balance))
  {
  }

  /** While disconnected it sets a network with no account. */
  lemma ChainChangedCanBreakTidy()
    ensures exists eventChainId: string, chain: Fetch<int>, balance: Fetch<string> ::
      var r := ChainChanged(Empty, true, eventChainId, chain, balance);
      r.network.Some? && r.account.None?
  {
    var r := ChainChanged(Empty, true, "0x1", Got(MainnetChainId), Got("1.0"));
    assert r.network.Some? && r.account.None?;
  }

  // ---------------------------------------------------------------- start-up probe

  /** From the initial state the probe connects exactly when every fetch succeeds and the list is non-empty. */
  lemma ProbeFromEmpty(hasProvider: bool, listed: Fetch<seq<string>>, address: Fetch<string>,
                       balance: Fetch<string>, chain: Fetch<int>)
    ensures var r := Probe(Empty, hasProvider, listed, address, balance, chain);
      var success := hasProvider && listed.Got? && |listed.value| > 0 && address.Got? && balance.Got? && chain.Got?;
      && (success ==>
            && r.account == Some(WalletAccount(address.value, balance.value))
            && r.isConnected && !r.isConnecting
            && r.network == (if chain.value in SupportedNetworks then Some(SupportedNetworks[chain.value]) else None))
      && (!success ==> r == Empty)
  {
  }

  /** The probe never invents an Unknown descriptor: any network it sets is a registry entry. */
  lemma ProbeNetworkIsRegistered(s: Session, hasProvider: bool, listed: Fetch<seq<string>>,
                                 address: Fetch<string>, balance: Fetch<string>, chain: Fetch<int>)
    requires s.network.None?
    ensures var r := Probe(s, hasProvider, listed, address, balance, chain);
      r.network.Some? ==> r.network.value in SupportedNetworks.Values
  {
  }

  /** On an unregistered chain the probe connects with no network. */
  lemma ProbeCanBreakTidy()
    ensures exists listed: Fetch<seq<string>>, address: Fetch<string>, balance: Fetch<string>, chain: Fetch<int> ::
      var r := Probe(Empty, true, listed, address, balance, chain);
      r.isConnected && r.network.None?
  {
    var r := Probe(Empty, true, Got(["0xab"]), Got("0xab"), Got("1.0"), Got(5));
    assert r.isConnected && r.network.None?;
  }

  // ---------------------------------------------------------------- connectWallet

  /** With no wallet the call throws before touching any state. */
  lemma ConnectWithoutWallet(s: Session, requested: Fetch<seq<string>>, balance: Fetch<string>,
                             chain: Fetch<int>, recheck: Fetch<int>)
    ensures Connect(s, false, requested, balance, chain, recheck) == Step(s, Err(WalletMissing))
  {
  }

  /** With a wallet, `isConnecting` is false on every exit, and any error is the provider's own. */
  lemma ConnectSettles(s: Session, requested: Fetch<seq<string>>, balance: Fetch<string>,
                       chain: Fetch<int>, recheck: Fetch<int>)
    ensures var r := Connect(s, true, requested, balance, chain, recheck);
      && !r.state.isConnecting
      && (r.outcome.Err? ==>
            || (requested.Failed? && r.outcome.thrown == Provider(requested.error))
            || (recheck.Failed? && r.outcome.thrown == Provider(recheck.error)))
  {
  }

  /** The call newly connects exactly when the wallet returns a non-empty list and the last network query succeeds. */
  lemma ConnectConnectsOnlyWithAccounts(s: Session, hasProvider: bool, requested: Fetch<seq<string>>,
                                        balance: Fetch<string>, chain: Fetch<int>, recheck: Fetch<int>)
    requires !s.isConnected
    ensures var r := Connect(s, hasProvider, requested, balance, chain, recheck);
      r.state.isConnected <==> hasProvider && requested.Got? && |requested.value| > 0 && recheck.Got?
    ensures var r := Connect(s, hasProvider, requested, balance, chain, recheck);
      r.state.isConnected ==> r.outcome == Ok(())
  {
  }

  /** When every fetch succeeds the session ends connected with the first returned address and the resolved network. */
  lemma ConnectPopulates(s: Session, accounts: seq<string>, formatted: string, chainId: int, recheckId: int)
    requires |accounts| > 0
    ensures var r := Connect(s, true, Got(accounts), Got(formatted), Got(chainId), Got(recheckId));
      && r.state == Session(Some(WalletAccount(accounts[0], formatted)), Some(ResolveNetwork(chainId)), true, false)
      && r.outcome == Ok(())
      && Tidy(r.state)
  {
  }

  /** A tidy state stays tidy as long as the fetches inside the call succeed. */
  lemma ConnectKeepsTidyWhenFetchesSucceed(s: Session, hasProvider: bool, requested: Fetch<seq<string>>,
                                           balance: Fetch<string>, chain: Fetch<int>, recheck: Fetch<int>)
    requires Tidy(s) && balance.Got? && chain.Got? && recheck.Got?
    ensures Tidy(Connect(s, hasProvider, requested, balance, chain, recheck).state)
  {
  }

  /** When `updateAccountInfo` swallows a failure the session is marked connected without an account. */
  lemma ConnectCanBreakTidy()
    ensures exists accounts: seq<string>, balance: Fetch<string>, chain: Fetch<int>, recheck: Fetch<int> ::
      var r := Connect(Empty, true, Got(accounts), balance, chain, recheck);
      r.state.isConnected && r.state.account.None? && r.outcome == Ok(())
  {
    var r := Connect(Empty, true, Got(["0xab"]), Failed(ProviderError(None, "timeout")), Got(1), Got(1));
    assert r.state.isConnected && r.state.account.None? && r.outcome == Ok(());
  }

  // ---------------------------------------------------------------- switchNetwork

  /** Only `network` can change, and the first request is the hex-encoded switch. */
  lemma SwitchTouchesOnlyNetwork(s: Session, chainId: int, switched: Fetch<()>, added: Fetch<()>)
    ensures var r := Switch(s, true, chainId, switched, added);
      && r.state == s.(network := r.state.network)
      && |r.sent| >= 1 && r.sent[0] == SwitchChain(HexChainId(chainId))
      && ParseHexChainId(r.sent[0].chainId) == Some(chainId)
  {
    HexChainIdRoundTrip(chainId);
  }

  lemma SwitchWithoutWallet(s: Session, chainId: int, switched: Fetch<()>, added: Fetch<()>)
    ensures Switch(s, false, chainId, switched, added) == SwitchStep(s, Err(WalletMissing), [])
  {
  }

  /** A successful switch sets the registry entry, or keeps the old network for an unregistered id. */
  lemma SwitchSucceeds(s: Session, chainId: int, added: Fetch<()>)
    ensures var r := Switch(s, true, chainId, Got(()), added);
      && r.outcome == Ok(()) && |r.sent| == 1
      && r.state.network == (if chainId in SupportedNetworks then Some(SupportedNetworks[chainId]) else s.network)
  {
  }

  /** Error 4902 on a registered chain: add it with the registry's metadata; its failure is rethrown with no state change. */
  lemma SwitchAddsRegisteredChain(s: Session, chainId: int, e: ProviderError, added: Fetch<()>)
    requires e.code == Some(UnrecognizedChain) && chainId in SupportedNetworks
    ensures var r := Switch(s, true, chainId, Failed(e), added);
      var entry := SupportedNetworks[chainId];
      && r.sent == [SwitchChain(HexChainId(chainId)),
                    AddChain(HexChainId(chainId), entry.name, [entry.rpcUrl], [entry.blockExplorerUrl], entry.nativeCurrency)]
      && (added.Got? ==> r.state == s.(network := Some(entry)) && r.outcome == Ok(()))
      && (added.Failed? ==> r.state == s && r.outcome == Err(Provider(added.error)))
  {
  }

  /** Error 4902 on an unregistered chain: the call returns normally and nothing changes. */
  lemma SwitchIgnoresUnregisteredChain(s: Session, chainId: int, e: ProviderError, added: Fetch<()>)
    requires e.code == Some(UnrecognizedChain) && chainId !in SupportedNetworks
    ensures Switch(s, true, chainId, Failed(e), added) == SwitchStep(s, Ok(()), [SwitchChain(HexChainId(chainId))])
  {
  }

  /** Any other error is rethrown unchanged and nothing changes. */
  lemma SwitchRethrowsOtherErrors(s: Session, chainId: int, e: ProviderError, added: Fetch<()>)
    requires e.code != Some(UnrecognizedChain)
    ensures Switch(s, true, chainId, Failed(e), added) == SwitchStep(s, Err(Provider(e)), [SwitchChain(HexChainId(chainId))])
  {
  }

  /** While disconnected a successful switch sets a network with no account. */
  lemma SwitchCanBreakTidy()
    ensures exists switched: Fetch<()>, added: Fetch<()> ::
      var r := Switch(Empty, true, MainnetChainId, switched, added);
      r.state.network.Some? && r.state.account.None? && r.outcome == Ok(())
  {
    var r := Switch(Empty, true, MainnetChainId, Got(()), Got(()));
    assert r.state.network.Some? && r.state.account.None? && r.outcome == Ok(());
  }

  /** While connected, a switch keeps the page's consistency. */
  lemma SwitchKeepsTidyWhileConnected(s: Session, hasProvider: bool, chainId: int, switched: Fetch<()>, added: Fetch<()>)
    requires Tidy(s) && s.isConnected
    ensures Tidy(Switch(s, hasProvider, chainId, switched, added).state)
  {
  }

  // ---------------------------------------------------------------- refreshBalance

  /** A refresh keeps the page's consistency wherever it holds. */
  lemma RefreshKeepsTidy(s: Session, hasProvider: bool, balance: Fetch<string>)
    requires Tidy(s)
    ensures Tidy(RefreshBalance(s, hasProvider, balance))
  {
  }

  /** Refreshing twice with the same answer is the same as refreshing once. */
  lemma RefreshIdempotent(s: Session, hasProvider: bool, balance: Fetch<string>)
    ensures RefreshBalance(RefreshBalance(s, hasProvider, balance), hasProvider, balance) ==
            RefreshBalance(s, hasProvider, balance)
  {
  }
}
