/** The `App` component: its state variables as fields, its handlers as
    methods. Each method is proved to leave the object in the state the
    matching `Session` function gives. The SDK's and the wallet's answers
    are parameters; the calls the component makes are appended to
    `requests`. */
module App {
  import opened Js
  import opened Allowances
  import opened Hooks
  import opened Session

  class App {
    /** `supportedChainsId`, as chain ids. */
    const chains: seq<ChainId>
    /** The USDC entries of `listTokenContracts`. */
    const tokens: TokenRegistry

    var address: Option<string>
    var unifiedBalance: Option<string>
    var error: Option<string>
    var isInitialized: bool
    var isConnected: bool
    var allowanceStatus: Option<string>
    var intentStatus: Option<string>
    var showBalancePopup: bool
    var chainBalances: seq<ChainBalance>
    var selectedChainId: Option<ChainId>
    var showAllowancePopup: bool
    var allowances: Table
    /** Whether the SDK's allowance and intent hooks point at this component. */
    var hooksRegistered: bool
    /** The SDK calls made so far. */
    var requests: seq<SdkRequest>

    /** The fields as one value. */
    ghost function State(): AppState
      reads this
    {
      AppState(address, unifiedBalance, error, isInitialized, isConnected, allowanceStatus,
               intentStatus, showBalancePopup, chainBalances, selectedChainId,
               showAllowancePopup, allowances, hooksRegistered, requests)
    }

    /** Mounting the component. */
    constructor (chains: seq<ChainId>, tokens: TokenRegistry)
      ensures this.chains == chains && this.tokens == tokens
      ensures State() == Initial(chains)
    {
      this.chains := chains;
      this.tokens := tokens;
      address := None;
      unifiedBalance := None;
      error := None;
      isInitialized := false;
      isConnected := false;
      allowanceStatus := None;
      intentStatus := None;
      showBalancePopup := false;
      chainBalances := [];
      selectedChainId := None;
      showAllowancePopup := false;
      allowances := DefaultTable(chains);
      hooksRegistered := false;
      requests := [];
    }

    /** The guard shared by the four SDK actions. */
    method CheckGuards() returns (passed: bool)
      modifies this
      ensures passed <==> GuardError(old(State())).None?
      ensures State() == if passed then old(State()) else old(State()).(error := GuardError(old(State())))
    {
      if !isInitialized {
        error := Some(NotInitializedError);
        return false;
      }
      if !isConnected || !Truthy(address) {
        error := Some(NotConnectedError);
        return false;
      }
      return true;
    }

    /** `initializeCA`, once the wallet provider is known to be present. */
    method InitializeCA(succeeds: bool)
      modifies this
      ensures State() == AfterInitialize(old(State()), chains, succeeds)
    {
      requests := requests + [Init(chains, Network)];
      if succeeds {
        isInitialized := true;
        hooksRegistered := true;
        error := None;
      } else {
        error := Some(InitFailedError);
      }
    }

    /** `handleConnect`. */
    method HandleConnect(providerAvailable: bool, accounts: Option<seq<string>>, initSucceeds: bool)
      modifies this
      ensures State() == AfterConnect(old(State()), chains, providerAvailable, accounts, initSucceeds)
    {
      if !providerAvailable {
        error := Some(NoProviderError);
        return;
      }
      if accounts.None? {
        error := Some(ConnectFailedError);
        return;
      }
      if |accounts.value| == 0 {
        error := Some(NoAccountsError);
        return;
      }
      address := Some(accounts.value[0]);
      isConnected := true;
      InitializeCA(initSucceeds);
      error := None;
    }

    /** `handleDisconnect`. Its writes to the two popups' state are the ones
        the popups' close handlers make. */
    method HandleDisconnect()
      modifies this
      ensures State() == AfterDisconnect(old(State()), chains)
    {
      address := None;
      isConnected := false;
      ClearStatusLines();
      CloseBalancePopup();
      CloseAllowancePopup();
      isInitialized := false;
      error := None;
    }

    /** The balance and status lines a disconnect clears. */
    method ClearStatusLines()
      modifies this
      ensures State() == old(State()).(unifiedBalance := None, allowanceStatus := None, intentStatus := None)
    {
      unifiedBalance := None;
      allowanceStatus := None;
      intentStatus := None;
    }

    /** `handleShowBalance`; `response` is the SDK's answer, `None` when it
        rejects. */
    method HandleShowBalance(response: Option<seq<ChainBalance>>)
      modifies this
      ensures State() == AfterShowBalance(old(State()), response)
    {
      var passed := CheckGuards();
      if !passed {
        return;
      }
      requests := requests + [GetUnifiedBalances(address.value)];
      match response
      case None =>
        error := Some(FetchBalancesError);
      case Some(balances) =>
        chainBalances := balances;
        selectedChainId := FirstChainId(balances);
        showBalancePopup := true;
        error := None;
    }

    /** `closeBalancePopup`. */
    method CloseBalancePopup()
      modifies this
      ensures State() == AfterCloseBalancePopup(old(State()))
    {
      showBalancePopup := false;
      chainBalances := [];
      selectedChainId := None;
    }

    /** `handleSetAllowance`. */
    method HandleSetAllowance()
      modifies this
      ensures State() == AfterSetAllowance(old(State()))
    {
      var passed := CheckGuards();
      if !passed {
        return;
      }
      showAllowancePopup := true;
      error := None;
    }

    /** `handleAllowanceChange`. */
    method HandleAllowanceChange(chainId: ChainId, value: string)
      modifies this
      ensures State() == AfterAllowanceChange(old(State()), chainId, value)
    {
      allowances := SetEntry(allowances, chainId, value);
    }

    /** `setAllUnlimited`. */
    method SetAllUnlimited()
      modifies this
      ensures State() == AfterSetAllUnlimited(old(State()), chains)
    {
      allowances := DefaultTable(chains);
    }

    /** `setAllAmount`; `amount` is the prompt's answer. */
    method SetAllAmount(amount: Option<string>, js: NumberParsing)
      modifies this
      ensures State() == AfterSetAllAmount(old(State()), chains, amount, js)
    {
      if Truthy(amount) && js.isPositive(amount.value) {
        allowances := UniformTable(chains, amount.value);
      }
    }

    /** `clearAllAllowances`. */
    method ClearAllAllowances()
      modifies this
      ensures State() == AfterClearAllAllowances(old(State()), chains)
    {
      allowances := ClearedTable(chains);
    }

    /** `submitAllowances`. `rejects(k)` is whether the SDK rejects the k-th
        `allowance` call of this submission. */
    method SubmitAllowances(js: NumberParsing, rejects: nat -> bool)
      modifies this
      ensures State() == AfterSubmitAllowances(old(State()), chains, tokens, js, rejects)
    {
      var passed := CheckGuards();
      if !passed {
        return;
      }
      var sent, completed := SubmitBatch(chains, allowances, tokens, js, rejects);
      requests := requests + AllowanceCalls(sent);
      if completed {
        showAllowancePopup := false;
        error := None;
      } else {
        error := Some(SubmitFailedError);
      }
    }

    /** `closeAllowancePopup`. */
    method CloseAllowancePopup()
      modifies this
      ensures State() == AfterCloseAllowancePopup(old(State()), chains)
    {
      showAllowancePopup := false;
      allowances := DefaultTable(chains);
    }

    /** `handleTransfer`; `rejected` is the SDK's answer. */
    method HandleTransfer(rejected: bool)
      modifies this
      ensures State() == AfterTransfer(old(State()), tokens, rejected)
    {
      var passed := CheckGuards();
      if !passed {
        return;
      }
      if TransferChainId !in tokens {
        error := Some(TransferFailedError);
        return;
      }
      var tokenAddress := tokens[TransferChainId];
      requests := requests + [Transfer(tokenAddress, TransferRecipient, TransferAmount, TransferChainId)];
      if rejected {
        error := Some(TransferFailedError);
      } else {
        error := None;
      }
    }

    /** A response delivered to the SDK's allowance hook. */
    method OnAllowanceHook(response: HookResponse)
      modifies this
      ensures State() == AfterAllowanceHook(old(State()), response)
    {
      if hooksRegistered {
        allowanceStatus := Some(AllowanceStatusText(response));
      }
    }

    /** A response delivered to the SDK's intent hook. */
    method OnIntentHook(response: HookResponse)
      modifies this
      ensures State() == AfterIntentHook(old(State()), response)
    {
      if hooksRegistered {
        intentStatus := Some(IntentStatusText(response));
      }
    }
  }
}
