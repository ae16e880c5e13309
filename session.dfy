/** The component's state as a value, and what each handler makes of it.
    The `App` class's methods are proved to produce exactly these states;
    the lemmas here state what the handlers promise. */
module Session {
  import opened Js
  import opened Allowances
  import opened Decimal
  import opened Uint256
  import opened Hooks

  /** One entry of a unified-balance response. */
  datatype ChainBalance = ChainBalance(chainId: ChainId, balance: string, tokens: map<string, string>)

  /** The calls the component makes into the SDK, in the order it makes them. */
  datatype SdkRequest =
    | Init(chainIds: seq<ChainId>, network: string)
    | GetUnifiedBalances(account: string)
    | Allowance(request: AllowanceRequest)
    | Transfer(tokenAddress: Option<string>, recipient: string, amount: string, chainId: ChainId)

  /** The component's state variables, the hooks' registration, and the log
      of SDK calls made so far. */
  datatype AppState = AppState(
    address: Option<string>,
    unifiedBalance: Option<string>,
    error: Option<string>,
    isInitialized: bool,
    isConnected: bool,
    allowanceStatus: Option<string>,
    intentStatus: Option<string>,
    showBalancePopup: bool,
    chainBalances: seq<ChainBalance>,
    selectedChainId: Option<ChainId>,
    showAllowancePopup: bool,
    allowances: Table,
    hooksRegistered: bool,
    requests: seq<SdkRequest>)

  const NoProviderError := "No wallet provider found. Please install MetaMask."
  const ConnectFailedError := "Wallet connection failed"
  const NoAccountsError := "No accounts found"
  const InitFailedError := "Failed to initialize CA SDK"
  const NotInitializedError := "CA SDK not initialized"
  const NotConnectedError := "Please connect your wallet"
  const FetchBalancesError := "Failed to fetch unified balances"
  const SubmitFailedError := "Failed to set allowances"
  const TransferFailedError := "Failed to execute transfer"

  /** The network the SDK is initialised for. */
  const Network := "coral"

  /** The fixed arguments of the sample transfer. */
  const TransferRecipient := "0x0000000000000000000000000000000000000002"
  const TransferAmount := "500000"
  const TransferChainId: ChainId := 1

  /** The state on mount: nothing connected, every chain unlimited. */
  function Initial(chains: seq<ChainId>): (s: AppState)
    ensures s.allowances.Keys == ChainSet(chains)
    ensures forall c :: c in s.allowances ==> s.allowances[c] == Unlimited
    ensures !s.isInitialized && !s.isConnected && s.address.None? && s.error.None?
    ensures !s.hooksRegistered && s.requests == []
  {
    AppState(None, None, None, false, false, None, None, false, [], None, false,
             DefaultTable(chains), false, [])
  }

  /** The message the shared guard reports, if any: initialisation is checked
      first, then the connection and a truthy address. */
  function GuardError(s: AppState): (e: Option<string>)
    ensures !s.isInitialized ==> e == Some(NotInitializedError)
    ensures s.isInitialized && (!s.isConnected || !Truthy(s.address)) ==> e == Some(NotConnectedError)
    ensures e.None? <==> s.isInitialized && s.isConnected && Truthy(s.address)
  {
    if !s.isInitialized then Some(NotInitializedError)
    else if !s.isConnected || !Truthy(s.address) then Some(NotConnectedError)
    else None
  }

  /** `initializeCA`: the `init` call, then either the initialised flag (and
      with it the hook registration) or the failure message. */
  function AfterInitialize(s: AppState, chains: seq<ChainId>, succeeds: bool): AppState {
    var called := s.(requests := s.requests + [Init(chains, Network)]);
    if succeeds then called.(isInitialized := true, hooksRegistered := true, error := None)
    else called.(error := Some(InitFailedError))
  }

  /** `handleConnect`. `accounts` is what the wallet's account request
      returned (`None` when it threw); `initSucceeds` is the outcome of
      `initializeCA`. The error is cleared after initialising, whatever
      initialising reported. */
  function AfterConnect(s: AppState, chains: seq<ChainId>, providerAvailable: bool,
                        accounts: Option<seq<string>>, initSucceeds: bool): AppState
  {
    if !providerAvailable then s.(error := Some(NoProviderError))
    else if accounts.None? then s.(error := Some(ConnectFailedError))
    else if |accounts.value| == 0 then s.(error := Some(NoAccountsError))
    else
      var connected := s.(address := Some(accounts.value[0]), isConnected := true);
      AfterInitialize(connected, chains, initSucceeds).(error := None)
  }

  /** `handleDisconnect`: everything the session shows is cleared and the
      table is back to all unlimited. The hooks stay registered. */
  function AfterDisconnect(s: AppState, chains: seq<ChainId>): (t: AppState)
    ensures t.address.None? && t.unifiedBalance.None? && t.error.None?
    ensures t.allowanceStatus.None? && t.intentStatus.None? && t.selectedChainId.None?
    ensures !t.isConnected && !t.isInitialized && !t.showBalancePopup && !t.showAllowancePopup
    ensures t.chainBalances == []
    ensures t.allowances.Keys == ChainSet(chains)
    ensures forall c :: c in t.allowances ==> t.allowances[c] == Unlimited
    ensures t.hooksRegistered == s.hooksRegistered && t.requests == s.requests
  {
    s.(address := None, isConnected := false, unifiedBalance := None,
       allowanceStatus := None, intentStatus := None, chainBalances := [],
       selectedChainId := None, showBalancePopup := false, showAllowancePopup := false,
       allowances := DefaultTable(chains), isInitialized := false, error := None)
  }

  /** `balances[0]?.chainId || null`: the first entry's chain id, unless the
      list is empty or that id is 0. */
  function FirstChainId(balances: seq<ChainBalance>): (c: Option<ChainId>)
    ensures c.Some? <==> |balances| > 0 && balances[0].chainId != 0
    ensures c.Some? ==> c.value == balances[0].chainId
  {
    if |balances| > 0 && balances[0].chainId != 0 then Some(balances[0].chainId) else None
  }

  /** `handleShowBalance`; `response` is the SDK's answer, `None` when it
      rejects. */
  function AfterShowBalance(s: AppState, response: Option<seq<ChainBalance>>): AppState {
    if GuardError(s).Some? then s.(error := GuardError(s))
    else
      var asked := s.(requests := s.requests + [GetUnifiedBalances(s.address.value)]);
      match response
      case None => asked.(error := Some(FetchBalancesError))
      case Some(balances) =>
        asked.(chainBalances := balances, selectedChainId := FirstChainId(balances),
               showBalancePopup := true, error := None)
  }

  /** `closeBalancePopup`. */
  function AfterCloseBalancePopup(s: AppState): AppState {
    s.(showBalancePopup := false, chainBalances := [], selectedChainId := None)
  }

  /** `handleSetAllowance`. */
  function AfterSetAllowance(s: AppState): AppState {
    if GuardError(s).Some? then s.(error := GuardError(s))
    else s.(showAllowancePopup := true, error := None)
  }

  /** `handleAllowanceChange`. */
  function AfterAllowanceChange(s: AppState, c: ChainId, v: string): AppState {
    s.(allowances := SetEntry(s.allowances, c, v))
  }

  /** `setAllUnlimited`. */
  function AfterSetAllUnlimited(s: AppState, chains: seq<ChainId>): AppState {
    s.(allowances := DefaultTable(chains))
  }

  /** `setAllAmount`; `amount` is what the prompt returned (`None` when it
      was cancelled). Anything but a truthy, positive amount only raises an
      alert and changes nothing. */
  function AfterSetAllAmount(s: AppState, chains: seq<ChainId>, amount: Option<string>,
                             js: NumberParsing): AppState
  {
    if Truthy(amount) && js.isPositive(amount.value) then s.(allowances := UniformTable(chains, amount.value))
    else s
  }

  /** `clearAllAllowances`. */
  function AfterClearAllAllowances(s: AppState, chains: seq<ChainId>): AppState {
    s.(allowances := ClearedTable(chains))
  }

  /** The log entries for a list of allowance calls. */
  function AllowanceCalls(rs: seq<AllowanceRequest>): (calls: seq<SdkRequest>)
    ensures |calls| == |rs|
    ensures forall i :: 0 <= i < |rs| ==> calls[i] == Allowance(rs[i])
  {
    seq(|rs|, i requires 0 <= i < |rs| => Allowance(rs[i]))
  }

  /** `submitAllowances`: the guard, then the batch over the chains; the popup
      closes and the error clears only when the batch runs to the end. */
  function AfterSubmitAllowances(s: AppState, chains: seq<ChainId>, tokens: TokenRegistry,
                                 js: NumberParsing, rejects: nat -> bool): AppState
  {
    if GuardError(s).Some? then s.(error := GuardError(s))
    else
      var b := RunBatch(chains, s.allowances, tokens, js, rejects, 0);
      var sent := s.(requests := s.requests + AllowanceCalls(b.sent));
      if b.completed then sent.(showAllowancePopup := false, error := None)
      else sent.(error := Some(SubmitFailedError))
  }

  /** `closeAllowancePopup`. */
  function AfterCloseAllowancePopup(s: AppState, chains: seq<ChainId>): AppState {
    s.(showAllowancePopup := false, allowances := DefaultTable(chains))
  }

  /** `handleTransfer`. Reading the USDC address of chain 1 throws when the
      registry has no record for chain 1; `rejected` is the SDK's answer. */
  function AfterTransfer(s: AppState, tokens: TokenRegistry, rejected: bool): AppState {
    if GuardError(s).Some? then s.(error := GuardError(s))
    else if TransferChainId !in tokens then s.(error := Some(TransferFailedError))
    else
      var sent := s.(requests := s.requests +
        [Transfer(tokens[TransferChainId], TransferRecipient, TransferAmount, TransferChainId)]);
      sent.(error := if rejected then Some(TransferFailedError) else None)
  }

  /** The allowance hook: once registered, each response sets the status line. */
  function AfterAllowanceHook(s: AppState, r: HookResponse): AppState {
    if s.hooksRegistered then s.(allowanceStatus := Some(AllowanceStatusText(r))) else s
  }

  /** The intent hook: once registered, each response sets the status line. */
  function AfterIntentHook(s: AppState, r: HookResponse): AppState {
    if s.hooksRegistered then s.(intentStatus := Some(IntentStatusText(r))) else s
  }

  // ---------------------------------------------------------------------
  // What the handlers promise

  /** Disconnecting twice is the same as disconnecting once. */
  lemma DisconnectIdempotent(s: AppState, chains: seq<ChainId>)
    ensures AfterDisconnect(AfterDisconnect(s, chains), chains) == AfterDisconnect(s, chains)
  {
  }

  /** All four guarded actions treat a failing guard alike: the only change
      is the guard's message, so no SDK call is made; not being initialised
      is reported ahead of not being connected. */
  lemma GuardsAgree(s: AppState, chains: seq<ChainId>, tokens: TokenRegistry, js: NumberParsing,
                    rejects: nat -> bool, response: Option<seq<ChainBalance>>, rejected: bool)
    requires GuardError(s).Some?
    ensures var g := s.(error := GuardError(s));
            AfterShowBalance(s, response) == g && AfterSetAllowance(s) == g
            && AfterSubmitAllowances(s, chains, tokens, js, rejects) == g
            && AfterTransfer(s, tokens, rejected) == g
    ensures !s.isInitialized ==> GuardError(s) == Some(NotInitializedError)
    ensures s.isInitialized ==> GuardError(s) == Some(NotConnectedError)
  {
  }

  /** A failed initialisation inside `handleConnect` is not reported: the
      session ends connected, with the address set, uninitialised and with
      no error, and a guarded handler called in that state reports
      "CA SDK not initialized". */
  lemma InitFailureNotReported(s: AppState, chains: seq<ChainId>, accounts: seq<string>)
    requires |accounts| > 0 && !s.isInitialized
    ensures var t := AfterConnect(s, chains, true, Some(accounts), false);
            t.error.None? && t.isConnected && t.address == Some(accounts[0]) && !t.isInitialized
            && GuardError(t) == Some(NotInitializedError)
  {
  }

  /** The hooks are never unregistered: a response arriving after a
      disconnect still sets the status lines. */
  lemma HooksOutliveDisconnect(s: AppState, chains: seq<ChainId>, r: HookResponse)
    requires s.hooksRegistered
    ensures AfterAllowanceHook(AfterDisconnect(s, chains), r).allowanceStatus == Some(AllowanceStatusText(r))
    ensures AfterIntentHook(AfterDisconnect(s, chains), r).intentStatus == Some(IntentStatusText(r))
  {
  }

  /** A prompt answer that is a non-zero digit string fills every supported
      chain with it; "0" only raises the alert. */
  lemma SetAllAmountOnDigits(s: AppState, chains: seq<ChainId>, amount: string, js: NumberParsing)
    requires Agrees(js) && Decimal.IsDigits(amount)
    ensures Decimal.Value(amount) > 0 ==>
      AfterSetAllAmount(s, chains, Some(amount), js).allowances == UniformTable(chains, amount)
    ensures Decimal.Value(amount) == 0 ==> AfterSetAllAmount(s, chains, Some(amount), js) == s
  {
    assert js.isPositive(amount) <==> Decimal.Value(amount) > 0;
  }

  /** When the guard passes, the submission appends exactly the requests the
      batch sent; it closes the popup and clears the error exactly when no
      chain throws and the SDK accepts every planned call, and then every
      planned request was sent; otherwise it reports the failure and leaves
      the popup as it was. Nothing else changes. */
  lemma {:induction false} SubmitOutcome(s: AppState, chains: seq<ChainId>, tokens: TokenRegistry,
                                         js: NumberParsing, rejects: nat -> bool)
    requires GuardError(s).None?
    ensures var t := AfterSubmitAllowances(s, chains, tokens, js, rejects);
            var plan := Planned(chains, s.allowances, tokens, js);
            (t.error.None? <==> NoThrow(chains, s.allowances, tokens, js) && AcceptsFrom(rejects, 0, |plan|))
            && (t.error.None? ==> t.requests == s.requests + AllowanceCalls(plan) && !t.showAllowancePopup)
            && (t.error.Some? ==> t.error == Some(SubmitFailedError) && t.showAllowancePopup == s.showAllowancePopup)
            && t.(requests := s.requests, error := s.error, showAllowancePopup := s.showAllowancePopup) == s
  {
    CompletedIff(chains, s.allowances, tokens, js, rejects, 0);
    CompletedSendsAll(chains, s.allowances, tokens, js, rejects, 0);
  }

  /** The allowance calls a submission makes follow the chain order, name
      each chain at most once when the chain list has no repeats, and each
      carries its chain's non-empty USDC address, the fixed spender and the
      amount its entry fixes. */
  lemma SubmitRequestsShape(s: AppState, chains: seq<ChainId>, tokens: TokenRegistry,
                            js: NumberParsing, rejects: nat -> bool)
    requires GuardError(s).None?
    ensures var sent := RunBatch(chains, s.allowances, tokens, js, rejects, 0).sent;
            AfterSubmitAllowances(s, chains, tokens, js, rejects).requests == s.requests + AllowanceCalls(sent)
            && IsSubsequence(ChainIds(sent), chains)
            && (Distinct(chains) ==> Distinct(ChainIds(sent)))
            && forall r :: r in sent ==>
                 r.chainId in s.allowances && UsdcAddress(tokens, r.chainId) == Some(r.tokenAddress)
                 && r.tokenAddress != ""
                 && r.spender == Spender && AmountFor(s.allowances[r.chainId], js) == Some(r.amount)
  {
    SentFollowsChains(chains, s.allowances, tokens, js, rejects);
    PlannedShape(chains, s.allowances, tokens, js);
  }

  /** A chain whose entry makes `BigInt` throw (such as "1.5", which passes
      the `isNaN` check) aborts the submission: the calls of the chains
      before it are the only ones made, the failure is reported and the
      popup stays as it was. */
  lemma SubmitStopsAtThrow(s: AppState, chains: seq<ChainId>, tokens: TokenRegistry,
                           js: NumberParsing, rejects: nat -> bool, i: nat)
    requires GuardError(s).None?
    requires i < |chains| && ChainStep(chains[i], s.allowances, tokens, js).Throw?
    ensures var t := AfterSubmitAllowances(s, chains, tokens, js, rejects);
            t.error == Some(SubmitFailedError) && t.showAllowancePopup == s.showAllowancePopup
            && t.requests == s.requests + AllowanceCalls(RunBatch(chains[..i], s.allowances, tokens, js, rejects, 0).sent)
  {
    ThrowStopsBatch(chains, s.allowances, tokens, js, rejects, 0, i);
  }

  /** A successful balance fetch, after the guard, makes one
      `getUnifiedBalances` call for the connected address, shows the popup
      with the balances returned and selects a chain that is among them and
      is not 0, or nothing when there is none such at the head of the list;
      a failed fetch reports the error and leaves the popup, the balances
      and the selection as they were. */
  lemma ShowBalanceOutcome(s: AppState, balances: seq<ChainBalance>)
    requires GuardError(s).None?
    ensures var t := AfterShowBalance(s, Some(balances));
            t.requests == s.requests + [GetUnifiedBalances(s.address.value)] && s.address.value != ""
            && t.showBalancePopup && t.chainBalances == balances && t.error.None?
            && (t.selectedChainId.Some? ==>
                  t.selectedChainId.value != 0
                  && exists i :: 0 <= i < |balances| && balances[i].chainId == t.selectedChainId.value)
            && (t.selectedChainId.None? ==> |balances| == 0 || balances[0].chainId == 0)
    ensures var t := AfterShowBalance(s, None);
            t.requests == s.requests + [GetUnifiedBalances(s.address.value)]
            && t.error == Some(FetchBalancesError)
            && t.(requests := s.requests, error := s.error) == s
  {
    var t := AfterShowBalance(s, Some(balances));
    if t.selectedChainId.Some? {
      assert balances[0].chainId == t.selectedChainId.value;
    }
  }

  /** After "clear all" no chain throws, and every planned call asks for an
      allowance of "0" on a chain that has a USDC address. */
  lemma {:induction false} ClearedTablePlansZero(chains: seq<ChainId>, tokens: TokenRegistry, js: NumberParsing)
    requires Agrees(js)
    ensures NoThrow(chains, ClearedTable(chains), tokens, js)
    ensures forall r :: r in Planned(chains, ClearedTable(chains), tokens, js) ==> r.amount == "0"
    ensures forall c :: c in chains && UsdcAddress(tokens, c).Some? ==>
              ChainStep(c, ClearedTable(chains), tokens, js).Submit?
  {
    var t := ClearedTable(chains);
    ZeroAmount(js);
    PlannedShape(chains, t, tokens, js);
    forall c | c in chains ensures Entry(t, c) == Some("0") {
      assert c in ChainSet(chains);
    }
  }

  /** With the default table no chain throws, and every planned call asks
      for the decimal string of 2^256 - 1 on a chain that has a USDC
      address. */
  lemma {:induction false} DefaultTablePlansMax(chains: seq<ChainId>, tokens: TokenRegistry, js: NumberParsing)
    ensures NoThrow(chains, DefaultTable(chains), tokens, js)
    ensures forall r :: r in Planned(chains, DefaultTable(chains), tokens, js) ==>
              r.amount == MaxUint256Text
    ensures Canonical(MaxUint256Text) && Value(MaxUint256Text) == Pow2(256) - 1
    ensures forall c :: c in chains && UsdcAddress(tokens, c).Some? ==>
              ChainStep(c, DefaultTable(chains), tokens, js).Submit?
  {
    var t := DefaultTable(chains);
    MaxUint256TextIsMax();
    PlannedShape(chains, t, tokens, js);
    forall c | c in chains ensures Entry(t, c) == Some(Unlimited) {
      assert c in ChainSet(chains);
    }
  }
}
