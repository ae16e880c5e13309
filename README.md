# Chain-abstraction demo app: session and allowance model

This project models the `App` component of a React demo for a
chain-abstraction SDK, found in `src/App.tsx`. The component:

- connects a browser wallet;
- initialises the SDK for a fixed list of supported chains on the `coral`
  network;
- shows unified balances;
- lets the user edit a per-chain table of USDC allowances and submit it as
  one `allowance` call per chain;
- sends a fixed sample transfer;
- shows the status lines that the SDK's allowance and intent hooks report.

The model has seven modules:

- `Decimal`: decimal digit strings, their values, and the rendering of
  integers.
- `Uint256`: the 78-digit literal that an unlimited entry submits, and a
  proof that it is the decimal rendering of 2^256 − 1.
- `Js`: the JavaScript idioms the component relies on.
  - `Truthy` covers truthiness (`null` and `""` are falsy).
  - `OrElse` is the `||` default.
  - `Number`, `isNaN(Number(..))` and `BigInt(..)` appear as a
    `NumberParsing` value.
  - The ghost predicate `Agrees` pins those three down on plain digit
    strings.
- `Allowances`: the allowance table and how it is built. It also holds the
  per-chain decision of the submission loop (skip, submit, or throw) and the
  batch outcome. `SubmitBatch` is the loop itself, proved against the
  function `RunBatch`.
- `Hooks`: the status lines that the allowance and intent hooks build from a
  response.
- `Session`: the component's state as a value (`AppState`) and one
  transition function per handler. It also holds the lemmas that state what
  the handlers promise.
- `App`: the class `App`. Its fields are the component's state variables.
  Its methods are the handlers, and each is proved to leave the object in
  the state the matching `Session` function gives.

Answers from the outside world are parameters of the handlers: the wallet,
the SDK, and the browser prompt. The SDK calls the component makes are
appended to a `requests` log, so a contract can say which calls were made,
with which arguments, and in which order. Each time the SDK rejects a call,
the model takes the `catch` branch.

## Model

| member | source | states |
|---|---|---|
| `Js.OrElse` | src/App.tsx:85 | `x \|\| fallback` on a string or null: a truthy value wins, and the result is empty exactly when the value is falsy and the fallback is empty, so a non-empty fallback never yields an empty detail |
| `Decimal.NatToDecimal` | src/App.tsx:307 | `toString` of a natural: a canonical digit string (no leading zero), with a single digit exactly for values below ten |
| `Decimal.IntToDecimal` | src/App.tsx:307 | `toString` of an integer: a non-empty string that starts with a minus sign exactly when the value is negative, and whose digits are canonical and read back as the absolute value |
| `Decimal.ValueOfNatToDecimal` | src/App.tsx:307 | reading back the rendering of `n` gives `n` |
| `Decimal.NatToDecimalOfValue` | src/App.tsx:307 | a canonical digit string is the rendering of its own value |
| `Decimal.ScaleByThousand` | src/App.tsx:307 | multiplying by 1000 appends "000" to a non-zero rendering; zero stays "0" |
| `Allowances.UniformTable` | src/App.tsx:42-47 | the `reduce` over `supportedChainsId` gives a table whose keys are exactly the supported chains, each mapped to the given value |
| `Allowances.DefaultTable` | src/App.tsx:42-47 | the initial table maps exactly the supported chains, each to `'unlimited'` |
| `Allowances.ClearedTable` | src/App.tsx:279-284 | "clear all" maps exactly the supported chains, each to `'0'` |
| `Allowances.SetEntry` | src/App.tsx:250-255 | editing one chain sets that entry, adds its key if it was missing, and leaves every other entry as it was |
| `Allowances.SetEntryKeepsRows` | src/App.tsx:250-255 | editing a supported chain keeps the table's keys equal to the supported chains |
| `Uint256.MaxUint256TextIsMax` | src/App.tsx:306 | the literal that the "Max uint256" line submits is the canonical decimal rendering of 2^256 − 1, and reading it back gives 2^256 − 1 |
| `Allowances.AmountFor` | src/App.tsx:305-307 | `'unlimited'` becomes the 78-digit literal for 2^256 − 1 (see `Uint256.MaxUint256TextIsMax`); any other entry throws exactly when `BigInt(entry)` throws, and otherwise is the decimal rendering of `BigInt(entry) * 1000` |
| `Allowances.DigitsAmount` | src/App.tsx:305-307 | a digit-string entry converts without throwing to the rendering of its value times 1000 |
| `Allowances.CanonicalAmount` | src/App.tsx:305-307 | for a canonical, non-zero digit-string entry, the amount sent is the entry followed by "000" |
| `Allowances.ZeroAmount` | src/App.tsx:299-307 | the entry "0" passes the skip check and converts to the amount "0" |
| `Allowances.EntryAcceptance` | src/App.tsx:298-299 | a missing or empty entry is skipped; `'unlimited'` is accepted; a digit string is accepted and converts without throwing |
| `Allowances.ChainStep` | src/App.tsx:298-313 | one loop iteration: skip exactly when the entry fails the check or the chain has no USDC address; throw exactly when `BigInt` throws on an accepted entry; otherwise one request with the chain's USDC address, the fixed spender, the converted amount and the chain id |
| `Allowances.SubmitBatch` | src/App.tsx:297-317 | the `for` loop with its `await`s: the requests sent, and whether the loop ran to the end, are exactly what `RunBatch` gives from the start of the chain list |
| `Allowances.SentIsPrefix` | src/App.tsx:297-319 | the requests sent are always a prefix of the planned requests, in the planned order |
| `Allowances.RunBatchAppend` | src/App.tsx:296-321 | the loop over two consecutive parts of the chain list runs the first part and goes on to the second only when the first ran to the end, with the calls counted so far; a throw or a rejection in the first part ends the whole batch, and no later chain is attempted |
| `Allowances.ThrowStopsBatch` | src/App.tsx:305-307 | a chain whose entry makes `BigInt` throw ends the batch: it does not complete, and the calls sent are exactly those the chains before it sent |
| `Allowances.FirstRejectionSends` | src/App.tsx:308-319 | when no chain throws and the j-th planned call is the first one the SDK rejects, exactly the planned calls up to and including that one are sent |
| `Allowances.PlannedComplete` | src/App.tsx:297-313 | every supported chain whose step submits has its request among the planned calls |
| `Allowances.CompletedIff` | src/App.tsx:297-319 | the batch runs to the end exactly when no chain throws and the SDK accepts every planned call |
| `Allowances.CompletedSendsAll` | src/App.tsx:297-317 | a batch that completes sent exactly the planned requests |
| `Allowances.RejectionStopsBatch` | src/App.tsx:308-319 | when no chain throws and the SDK rejects the j-th planned call, the batch does not complete and has sent at most j + 1 calls |
| `Allowances.PlannedFollowsChains` | src/App.tsx:297-313 | the planned calls name chains in the order of `supportedChainsId` (their chain ids form a subsequence of it) |
| `Allowances.PlannedShape` | src/App.tsx:298-313 | every planned call belongs to a supported chain whose table entry passes the skip check and that has a USDC address; it carries that address, the fixed spender and the amount its entry converts to |
| `Allowances.SentFollowsChains` | src/App.tsx:297-319 | the calls actually sent are planned calls, follow the chain order, and name each chain at most once when the chain list has no repeats |
| `Hooks.AllowanceStatusText` | src/App.tsx:83-90 | the allowance hook's line per status: success with the transaction hash or "Confirmed", error with the message or "Unknown error", any other status verbatim |
| `Hooks.AllowanceStatusClassified` | src/App.tsx:83-90 | each of the three prefixes appears exactly for its case; another status is shown verbatim after its prefix; the success and error lines never have an empty detail |
| `Hooks.IntentStatusText` | src/App.tsx:95-106 | the intent hook's line per status: created and processed with the intent id or their default, completed with the transaction hash or "Confirmed", error with the message or "Unknown error", any other status verbatim |
| `Hooks.IntentStatusClassified` | src/App.tsx:95-106 | each of the five prefixes appears exactly for its case; another status is shown verbatim; a recognised status's line never has an empty detail |
| `Session.Initial` | src/App.tsx:28-48 | on mount nothing is connected or initialised, no error is shown, no hooks are registered, no SDK call has been made, and every supported chain is unlimited |
| `Session.GuardError` | src/App.tsx:197-204 | the shared guard reports "CA SDK not initialized" first, then "Please connect your wallet" when not connected or the address is falsy, and passes exactly when it is initialised, connected and has a truthy address |
| `Session.AfterDisconnect` | src/App.tsx:177-193 | disconnecting clears the address, balances, error, status lines, selection and both popups, marks the session not connected and not initialised, and resets the table to all unlimited; the hook registration and the SDK log are untouched |
| `Session.DisconnectIdempotent` | src/App.tsx:177-193 | disconnecting twice is the same as disconnecting once |
| `Session.GuardsAgree` | src/App.tsx:196-204 | all four guarded actions (show balance, open the allowance popup, submit allowances, transfer) react to a failing guard identically: only the guard's error message changes, and no SDK call is made |
| `Session.InitFailureNotReported` | src/App.tsx:160-166 | when initialisation fails inside `handleConnect`, the error is cleared anyway. The session is left connected, with the address set, not initialised, and with no error. A guarded handler called in that state reports "CA SDK not initialized" |
| `Session.HooksOutliveDisconnect` | src/App.tsx:80-112 | once registered, the hooks still set the status lines after a disconnect |
| `Session.SetAllAmountOnDigits` | src/App.tsx:266-276 | a prompt answer that is a digit string with a non-zero value fills every supported chain with it; "0" (or "000") changes nothing |
| `Session.SubmitOutcome` | src/App.tsx:287-322 | with the guard passing, the submission clears the error exactly when no chain throws and every call is accepted. It then has appended exactly the planned calls and closed the popup. Otherwise it reports "Failed to set allowances" and leaves the popup as it was. No other field changes |
| `Session.SubmitRequestsShape` | src/App.tsx:297-313 | the calls a submission appends are the batch's calls. They follow the chain order, and name each chain at most once when the chain list has no repeats. Each carries its chain's non-empty USDC address, the fixed spender and its entry's converted amount |
| `Session.SubmitStopsAtThrow` | src/App.tsx:296-321 | an entry that makes `BigInt` throw, such as "1.5" (which passes the `isNaN` check), aborts the submission: only the chains before it made calls, "Failed to set allowances" is reported, and the popup stays as it was |
| `Session.ShowBalanceOutcome` | src/App.tsx:205-214 | after the guard, a successful fetch makes one `getUnifiedBalances` call for the connected, non-empty address. It shows the popup with the returned balances and clears the error. The selected chain is one of the returned chains and never 0, and nothing is selected only when the list is empty or its first chain id is 0. A failed fetch makes the same call and sets "Failed to fetch unified balances", changing nothing else |
| `Session.ClearedTablePlansZero` | src/App.tsx:279-313 | after "clear all" no chain throws, every planned call asks for "0", and every supported chain with a USDC address is planned a call |
| `Session.DefaultTablePlansMax` | src/App.tsx:42-47 | with the default table no chain throws, every planned call asks for the 78-digit literal, a canonical digit string whose value is 2^256 − 1, and every supported chain with a USDC address is planned a call |
| `App.App.constructor` | src/App.tsx:28-48 | the fields on mount are `Session.Initial` |
| `App.App.CheckGuards` | src/App.tsx:197-204 | the guard passes exactly when `GuardError` reports nothing; on failure it sets only the error |
| `App.App.InitializeCA` | src/App.tsx:60-77 | the `init` call with the supported chain ids and the `coral` network is logged. On success the SDK is marked initialised, the hooks are registered and the error is cleared; on failure the init error is set |
| `App.App.HandleConnect` | src/App.tsx:155-174 | the provider error, the connection error and the no-accounts error each leave everything else unchanged. Otherwise the first account is connected, initialisation is attempted, and the error is cleared whatever initialisation reported |
| `App.App.HandleDisconnect` | src/App.tsx:177-193 | the new state is `Session.AfterDisconnect` of the old |
| `App.App.ClearStatusLines` | src/App.tsx:180-182 | clears the balance and both status lines and nothing else |
| `App.App.HandleShowBalance` | src/App.tsx:196-215 | the guard, then one `getUnifiedBalances` call for the address. On success it stores the balances, selects the first chain and shows the popup; on a rejection it sets the fetch error |
| `App.App.CloseBalancePopup` | src/App.tsx:229-233 | hides the balance popup and clears the balances and the selection |
| `App.App.HandleSetAllowance` | src/App.tsx:236-247 | after the guard, shows the allowance popup and clears the error |
| `App.App.HandleAllowanceChange` | src/App.tsx:250-255 | the table becomes `SetEntry` of the old table; nothing else changes |
| `App.App.SetAllUnlimited` | src/App.tsx:258-263 | the table becomes the default table; nothing else changes |
| `App.App.SetAllAmount` | src/App.tsx:266-276 | a truthy, positive answer fills every supported chain with it; any other answer changes nothing |
| `App.App.ClearAllAllowances` | src/App.tsx:279-284 | the table becomes the cleared table; nothing else changes |
| `App.App.SubmitAllowances` | src/App.tsx:287-322 | the new state is `Session.AfterSubmitAllowances` of the old, whose properties `Session.SubmitOutcome` and `Session.SubmitRequestsShape` state |
| `App.App.CloseAllowancePopup` | src/App.tsx:325-331 | hides the allowance popup and resets the table to all unlimited |
| `App.App.HandleTransfer` | src/App.tsx:334-359 | the guard, then the transfer error when chain 1 has no token record. Otherwise one transfer call with chain 1's USDC entry, the fixed recipient and amount, and chain id 1, and the transfer error exactly when the SDK rejects it |
| `App.App.OnAllowanceHook` | src/App.tsx:83-92 | once the hooks are registered, a response sets the allowance status line to `AllowanceStatusText`; before that nothing changes |
| `App.App.OnIntentHook` | src/App.tsx:95-108 | once the hooks are registered, a response sets the intent status line to `IntentStatusText`; before that nothing changes |

## Left out

- The mount effect at src/App.tsx:51-57 checks for a wallet provider. It becomes the `providerAvailable` parameter of `HandleConnect`, which stands for `hasWalletProvider && window.ethereum`. Its own error message is not modelled.
- `initializeCA`'s own provider check (src/App.tsx:61-64) is not modelled, because the component only calls it after `handleConnect` has found a provider.
- The `checkConnection` effect (src/App.tsx:115-134) and the unified-balance effect (src/App.tsx:137-152) are not modelled. Both run on React's schedule of effects, which the model does not capture, and the second divides a floating-point number (`Number(total) / 1e18`, `toFixed`).
- `formatBalance` (src/App.tsx:218-226) is not modelled. It is floating-point display formatting.
- The JSX, the `count` counter, `src/main.tsx`, `console` output and `alert` are not modelled. They are rendering and logging.
- The SDK, the wallet and the prompt are not modelled. Their answers are handler parameters: the accounts, the `init` outcome, the balances, and which calls the SDK rejects.
- Overlapping handlers are not modelled. Each handler runs to completion, and the `await`s between state updates are not interleaved with other events.
- `Js.Agrees`: the model does not reimplement `Number`, `isNaN` and `BigInt`. They are the abstract `NumberParsing` value, and `Agrees` fixes their results only on plain digit strings. Inputs such as `" 12"`, `"1e3"` or `"0x10"` take whatever the parameters say.
- `App.App.InitializeCA`: `ca.setEVMProvider` (src/App.tsx:66) is not a separate step. Its failure counts as a failed initialisation, so the model logs the `init` call even in the case where the source never reaches it.
- `Hooks.AllowanceStatusText`: the hooks' `data` fields are strings or absent. A response without `data`, where reading a field throws inside the callback, is not modelled.
- `Session.AfterSubmitAllowances`: the calls of one submission are appended to the log together, after the batch. The log records which calls were made and in what order, not when each was made relative to the other state updates.
