/**
 * The wallet session as the source keeps it: four mutable cells that each
 * action and event handler overwrites in place. Every method is proved to
 * leave the state the matching `WalletRules` step describes, so the lemmas
 * there are facts about these methods.
 */
module WalletContext {
  import opened Options
  import opened WalletTypes
  import opened WalletRules

  class WalletSession {
    /** Whether a wallet is injected into the page (`window.ethereum`). */
    const hasProvider: bool

    var account: Option<WalletAccount>
    var network: Option<Network>
    var isConnected: bool
    var isConnecting: bool

    function State(): Session
      reads this
    {
      Session(account, network, isConnected, isConnecting)
    }

    constructor (hasProvider: bool)
      ensures this.hasProvider == hasProvider
      ensures State() == Empty
    {
      this.hasProvider := hasProvider;
      account := None;
      network := None;
      isConnected := false;
      isConnecting := false;
    }

    /** The start-up probe: all four answers are awaited before any cell is written; any failure is swallowed. */
    method CheckConnection(listed: Fetch<seq<string>>, address: Fetch<string>,
                           balance: Fetch<string>, chain: Fetch<int>)
      modifies this
      ensures State() == Probe(old(State()), hasProvider, listed, address, balance, chain)
    {
      if !hasProvider {
        return;
      }
      if listed.Failed? || |listed.value| == 0 {
        return;
      }
      if address.Failed? || balance.Failed? || chain.Failed? {
        return;
      }
      account := Some(WalletAccount(address.value, balance.value));
      if chain.value in SupportedNetworks {
        network := Some(SupportedNetworks[chain.value]);
      }
      isConnected := true;
    }

    method UpdateAccountInfo(address: string, balance: Fetch<string>, chain: Fetch<int>)
      modifies this
      ensures State() == WalletRules.UpdateAccountInfo(old(State()), hasProvider, address, balance, chain)
    {
      if !hasProvider {
        return;
      }
      if balance.Failed? || chain.Failed? {
        return;
      }
      account := Some(WalletAccount(address, balance.value));
      network := Some(ResolveNetwork(chain.value));
    }

    method RefreshBalance(balance: Fetch<string>)
      modifies this
      ensures State() == WalletRules.RefreshBalance(old(State()), hasProvider, balance)
    {
      if account.None? || !hasProvider {
        return;
      }
      match balance {
        case Got(formatted) =>
          account := Some(account.value.(balance := formatted));
        case Failed(_) =>
      }
    }

    method DisconnectWallet()
      modifies this
      ensures State() == Disconnect(old(State()))
    {
      account := None;
      network := None;
      isConnected := false;
    }

    method HandleAccountsChanged(accounts: seq<string>, balance: Fetch<string>, chain: Fetch<int>)
      modifies this
      ensures State() == AccountsChanged(old(State()), hasProvider, accounts, balance, chain)
    {
      if |accounts| == 0 {
        DisconnectWallet();
      } else {
        var newAddress := accounts[0];
        if account.None? || account.value.address != newAddress {
          UpdateAccountInfo(newAddress, balance, chain);
        }
      }
    }

    method HandleChainChanged(eventChainId: string, chain: Fetch<int>, balance: Fetch<string>)
      modifies this
      ensures State() == ChainChanged(old(State()), hasProvider, eventChainId, chain, balance)
    {
      if !hasProvider {
        return;
      }
      match chain {
        case Failed(_) =>
        case Got(chainId) =>
          network := Some(ResolveNetwork(chainId));
          if account.Some? {
            RefreshBalance(balance);
          }
      }
    }

    /** The `connect` event is only logged. */
    method HandleConnect(eventChainId: string)
      ensures unchanged(this)
    {
    }

    method HandleDisconnect(reason: string)
      modifies this
      ensures State() == Disconnect(old(State()))
    {
      DisconnectWallet();
    }

    /** `connectWallet`; `isConnecting` is held up while the provider is awaited and cleared on every exit. */
    method ConnectWallet(requested: Fetch<seq<string>>, balance: Fetch<string>,
                         chain: Fetch<int>, recheck: Fetch<int>) returns (outcome: Outcome<()>)
      modifies this
      ensures Step(State(), outcome) == Connect(old(State()), hasProvider, requested, balance, chain, recheck)
    {
      if !hasProvider {
        return Err(WalletMissing);
      }
      isConnecting := true;
      match requested {
        case Failed(e) =>
          outcome := Err(Provider(e));
        case Got(accounts) =>
          outcome := Ok(());
          if |accounts| > 0 {
            UpdateAccountInfo(accounts[0], balance, chain);
            assert isConnecting;
            match recheck {
              case Failed(e) =>
                outcome := Err(Provider(e));
              case Got(_) =>
                isConnected := true;
            }
          }
      }
      isConnecting := false;
    }

    /** `switchNetwork(chainId)`; `sent` lists the requests made to the wallet, in order. */
    method SwitchNetwork(chainId: int, switched: Fetch<()>, added: Fetch<()>)
      returns (outcome: Outcome<()>, sent: seq<Request>)
      modifies this
      ensures SwitchStep(State(), outcome, sent) == Switch(old(State()), hasProvider, chainId, switched, added)
    {
      if !hasProvider {
        return Err(WalletMissing), [];
      }
      sent := [SwitchChain(HexChainId(chainId))];
      match switched {
        case Got(_) =>
          if chainId in SupportedNetworks {
            network := Some(SupportedNetworks[chainId]);
          }
          outcome := Ok(());
        case Failed(e) =>
          if e.code == Some(UnrecognizedChain) {
            outcome := Ok(());
            if chainId in SupportedNetworks {
              var entry := SupportedNetworks[chainId];
              sent := sent + [AddChainRequest(chainId, entry)];
              match added {
                case Got(_) =>
                  network := Some(entry);
                case Failed(addError) =>
                  outcome := Err(Provider(addError));
              }
            }
          } else {
            outcome := Err(Provider(e));
          }
      }
    }

    /** `signMessage`: the signer's string, or its error, passed through; no cell changes. */
    method SignMessage(message: string, signature: Fetch<string>) returns (outcome: Outcome<string>)
      ensures !hasProvider ==> outcome == Err(WalletMissing)
      ensures hasProvider && signature.Got? ==> outcome == Ok(signature.value)
      ensures hasProvider && signature.Failed? ==> outcome == Err(Provider(signature.error))
    {
      if !hasProvider {
        return Err(WalletMissing);
      }
      match signature {
        case Got(sig) => outcome := Ok(sig);
        case Failed(e) => outcome := Err(Provider(e));
      }
    }
  }

  /** Sequences of steps on one session that reach the states `WalletRules.Tidy` rules out. */
  method ReachableInconsistencies()
  {
    var accountOnly := new WalletSession(true);
    accountOnly.HandleAccountsChanged(["0xab"], Got("1.0"), Got(MainnetChainId));
    assert accountOnly.account.Some? && !accountOnly.isConnected;

    var noNetwork := new WalletSession(true);
    noNetwork.CheckConnection(Got(["0xab"]), Got("0xab"), Got("1.0"), Got(5));
    assert noNetwork.isConnected && noNetwork.network.None?;

    var noAccount := new WalletSession(true);
    var outcome := noAccount.ConnectWallet(Got(["0xab"]), Failed(ProviderError(None, "timeout")), Got(1), Got(1));
    assert outcome == Ok(()) && noAccount.isConnected && noAccount.account.None?;

    noAccount.HandleAccountsChanged([], Got("1.0"), Got(1));
    assert noAccount.State() == Empty;
  }
}
