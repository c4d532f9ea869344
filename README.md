# ERC-20 token front-end: decision logic

A model, in Dafny, of the decision logic inside the React front-end of an
ERC-20 token contract (`src/App.js`). The front-end itself is almost all
rendering and ledger calls. What is modelled here is the logic that decides
what happens around those calls:

- **Network table** (`networks.dfy`): `SUPPORTED_NETWORKS`, the support
  test of `checkSupportedNetwork`, the label with its synthesised
  `Unknown Network (ID: n)` fallback, and `getNetworkName`, a second copy of
  the table written as a switch with a different fallback. Decimal printing
  of chain ids (`decimal.dfy`) is JavaScript's integer-to-string for safe
  integers, with a parser as its inverse.
- **Guard pipeline** (`guards.dfy`): `withNetworkCheck`, `withPauseCheck`
  and `withChecks`. Every answer of the ledger gateway and the wallet is an
  input (`Environment`). A wrapped operation is a `Wrapped` value, so
  `withChecks(op)` is `NetworkChecked(PauseChecked(Bare))`. `Run` gives the
  requests issued, the toasts raised and whether the operation is reached.
  The class `GuardRunner` performs the same steps one at a time and is
  proved to match `Run`. Guard toasts are a small datatype whose `Text()`
  gives the exact string shown. A second reading lists the guards in order
  (`GuardOrder`) and states which of them a call reaches.
- **Operation runner** (`runner.dfy`): the class `Dapp` holds the App
  component's state: the action log, the toasts, the four busy flags with a
  record of every setter call, pending spinner timers, the active account
  and the filtered history. `LogAction`, `HandleTransaction`,
  `ShowSpinnerFor` and the timer callback each state the whole new state.
- **Transfer pre-check** (`transfer.dfy`): a balance below the amount throws
  `Insufficient token balance.` before any send.
- **History filter** (`history.dfy`): `applyFilter` as a pure selection.
  Addresses compare case-insensitively. Order is kept, and "incoming"
  keeps exactly the records addressed to the account.
- **Address display** (`addresses.dfy`): `shortenAddress`, with `slice`'s
  handling of short strings (characters counted as Unicode characters; see
  "## Left out").

Three behaviours of the code that are easy to miss, and that the model
keeps:
- The connection check treats a *thrown* `isListening` as "not connected".
  The value it resolves to is ignored (`Guards.ListeningValueIgnored`).
- A thrown `getChainId` makes `checkSupportedNetwork` return false without
  a toast of its own.
- The transfer's error prefix already ends in a colon, so the logged text
  reads `Error transferring tokens:: Insufficient token balance.`.

## Model

| member | source | states |
|---|---|---|
| Decimal.NatToString | src/App.js:25 | the decimal text of a chain id is a non-empty run of digits with no leading zero (except for 0 itself), one digit exactly for ids below ten |
| Decimal.IntToString | src/App.js:25 | the text of a chain id is non-empty and starts with '-' exactly when the id is negative |
| Decimal.ParseNatToString | src/App.js:25 | reading the printed digits back gives the number printed |
| Decimal.IntToStringInjective | src/App.js:25-27 | two different chain ids never print the same text |
| Networks.TableKeys | src/App.js:11-19 | the keys of `SUPPORTED_NETWORKS` are exactly the seven supported chain ids |
| Networks.SupportedIffTableKey | src/App.js:11-27 | the string-key test `Object.keys(...).includes(id.toString())` accepts exactly the seven supported chain ids |
| Networks.NetworkLabel | src/App.js:25 | the label shown for a chain id: the table's entry, or `Unknown Network (ID: n)`; its meaning is stated by `LabelOfUnknownChain` and `NetworkLabelInjective` |
| Networks.GetNetworkName | src/App.js:761-779 | the switch over the seven chain ids with its Cyrillic default; `NetworkNameAgreesExactlyOnSupported` compares it with the table |
| Networks.LabelOfUnknownChain | src/App.js:25 | a label starts with `Unknown Network (ID: ` exactly when the chain is not in the table |
| Networks.NetworkLabelInjective | src/App.js:11-25 | different chain ids never get the same label |
| Networks.NetworkNameAgreesExactlyOnSupported | src/App.js:761-779 | `getNetworkName` gives the table's label for all seven supported ids and a different text for every other id |
| History.ApplyFilter | src/App.js:979-993 | the filter chosen by the selected value; `FilterCharacterisation`, `ApplyFilterIdempotent` and `ApplyFilterWithoutAccount` state what it keeps |
| History.Select | src/App.js:984-987 | the kept records all match the direction and account, come from the input, and are no more than the input |
| History.SelectIsSubsequence | src/App.js:984-987 | the kept records are a subsequence of the input, so their order is kept |
| History.SelectCounts | src/App.js:984-987 | each matching record is kept as many times as it occurs, and a non-matching record never |
| History.SelectIdempotent | src/App.js:984-987 | selecting again with the same direction and account changes nothing |
| History.SelectWithoutAccount | src/App.js:980-987 | with no account (`accountLower` undefined), a directional selection is empty |
| History.SelectIgnoresAccountCase | src/App.js:980-987 | account spellings that differ only in letter case select the same records |
| History.FilterCharacterisation | src/App.js:979-993 | "incoming" keeps exactly the records whose lower-cased `to` is the lower-cased account, in order; "outgoing" the same on `from`; any other value returns the input unchanged |
| History.ApplyFilterIdempotent | src/App.js:979-993 | applying a filter to its own result changes nothing |
| History.ApplyFilterWithoutAccount | src/App.js:979-993 | with no account, "incoming" and "outgoing" are empty |
| Addresses.Lower | src/App.js:980-987 | `toLowerCase` on the account and the record addresses; `SelectIgnoresAccountCase` states that only the lower-cased account matters |
| Addresses.ShortenAddress | src/App.js:999-1002 | `shortenAddress`; `ShortenIsPlaceholderIff`, `ShortenShortAddress`, `ShortenMidAddress` and `ShortenLongAddress` state its result for every input, counting characters as `slice` does for text inside the Basic Multilingual Plane |
| Addresses.ShortenIsPlaceholderIff | src/App.js:999-1002 | the result is "N/A" exactly when the address is null or empty |
| Addresses.ShortenLongAddress | src/App.js:999-1002 | an address of six or more characters becomes its first 6 characters, "...", and its last 4 (13 in all) |
| Addresses.ShortenShortAddress | src/App.js:1001 | an address under four characters is repeated whole on both sides of "...", as `slice` does |
| Addresses.ShortenMidAddress | src/App.js:1001 | an address of four or five characters is kept whole before "..." and its last four characters follow |
| Guards.WithNetworkCheck | src/App.js:78-105 | wraps an operation in the network guard; its behaviour is `NetworkGate` through `Run` |
| Guards.WithPauseCheck | src/App.js:64-71 | wraps an operation in the pause guard; its behaviour is `PauseGate` through `Run` |
| Guards.WithChecks | src/App.js:74-76 | the network guard around the pause guard; `WithChecksOrder` states the resulting order |
| Guards.NetworkGate | src/App.js:78-102 | the requests, toasts and verdict of the network guard; `NoConnectionBlocks`, `UnsupportedBlocks` and `SupportedPassesThrough` state each case |
| Guards.PauseGate | src/App.js:64-69 | the request, toast and verdict of the pause guard; `PauseProbeErrorCountsAsPaused` states the failing probe |
| Guards.Run | src/App.js:64-105 | what a wrapped call does, guard by guard; `RunInvokedIffAllGuardsPass` and `RunEffectsAreReachedGuards` state it against the ordered list of guards |
| Guards.GuardToast.Text | src/App.js:27-98 | the exact text of each guard toast (its companion `GuardToast.Severity` says whether the code raises it with `toast.success` or `toast.error`); `ToastTextInjective` states that the text determines the toast |
| Guards.ToastTextInjective | src/App.js:27-98 | two guard toasts with the same text are the same toast, so the toast list records exactly the texts shown |
| Guards.RunInvokedIffAllGuardsPass | src/App.js:64-105 | a wrapped operation is reached exactly when every guard in its nesting lets the call through |
| Guards.RunEffectsAreReachedGuards | src/App.js:64-105 | a call's requests and toasts are those of the guards it reaches, outermost first, stopping at the first that blocks |
| Guards.NoConnectionBlocks | src/App.js:78-83 | with no connection the only toast is "No connection to blockchain network.", no other request follows, and the operation is not reached |
| Guards.UnsupportedBlocks | src/App.js:85-102 | on an unsupported chain the operation is not reached whatever the wallet answers; the toasts are the probe's own, the "Unsupported network detected" toast and the switch result; the switch is requested exactly when a wallet exists |
| Guards.SupportedPassesThrough | src/App.js:78-104 | connected to a supported chain, the check adds one "Connected to" toast and defers to what it wraps |
| Guards.PauseProbeErrorCountsAsPaused | src/App.js:52-61 | a failing `paused()` call blocks exactly as a paused contract does |
| Guards.WithChecksOrder | src/App.js:64-76 | under `withChecks`, the pause state is asked only after both network checks pass; the operation runs exactly when connected, supported and not paused; a paused contract adds "Contract is paused" |
| Guards.ListeningValueIgnored | src/App.js:40-49 | the value `isListening` resolves to does not change anything; only a thrown error blocks |
| Guards.GuardRunner.CheckNetworkConnection | src/App.js:40-49 | issues one listening request and answers "connected" unless it threw |
| Guards.GuardRunner.CheckSupportedNetwork | src/App.js:21-38 | issues one chain-id request, raises the success or error toast with the label, and answers whether the chain is supported |
| Guards.GuardRunner.CheckContractPause | src/App.js:52-61 | issues one `paused()` request and answers "active" only when it returned false |
| Guards.GuardRunner.NetworkCheck | src/App.js:78-102 | the requests and toasts of the network gate, in order, and whether it lets the call through |
| Guards.GuardRunner.PauseCheck | src/App.js:64-69 | the request and toast of the pause gate, and whether it lets the call through |
| Guards.GuardRunner.Call | src/App.js:64-105 | requests and toasts follow `Run`; the operation is called once with the original arguments and its result returned exactly when reached; otherwise nothing is called and the result is undefined |
| Runner.DurationSuffix | src/App.js:784 | the duration part of a log entry; `DurationSuffixRoundTrip` states its form |
| Runner.LogEntry | src/App.js:783-785 | a log entry: timestamp, ": ", message and duration suffix; `Dapp.LogAction` puts it in front of the log |
| Runner.TransactionMessage | src/App.js:792-800 | the success message, or the error prefix, ": " and the error's message; `Transfer.InsufficientBalanceLogged` shows it on the transfer |
| Runner.SpinnerPlan | src/App.js:815-822 | clear at once or after the remaining time; `SpinnerPlanMeaning` states when and for how long the spinner shows |
| Runner.DurationSuffixRoundTrip | src/App.js:784 | the duration suffix is empty exactly for a zero duration; otherwise it reads " Duration: ", the duration, ".00 ms.", and the duration can be read back |
| Runner.SpinnerPlanMeaning | src/App.js:815-822 | the spinner clears at once exactly when elapsed >= minTime; otherwise after a positive delay of minTime - elapsed; either way it is on for max(elapsed, minTime) |
| Runner.Dapp.constructor | src/App.js:673-684 | the initial state: empty log, no account, every busy flag false |
| Runner.Dapp.SetBusy | src/App.js:680-684 | a flag setter changes only its own flag and records the call |
| Runner.Dapp.SetAccount | src/App.js:718-719 | the account becomes the first fetched account, or none when the list is empty; nothing else changes |
| Runner.Dapp.LogAction | src/App.js:782-786 | exactly one entry is put in front of the log; the earlier entries stay, in order |
| Runner.Dapp.HandleTransaction | src/App.js:788-804 | the flag is set true and then false on both paths; exactly one entry (the success message, or the error prefix, ": " and the error message) is put in front of the log with one matching toast; the error is not rethrown |
| Runner.Dapp.ShowSpinnerFor | src/App.js:806-824 | `loading` is set; a failing operation changes nothing further; `loading` is cleared at once or a timer of minTime - elapsed (minTime 500 by default) is scheduled |
| Runner.Dapp.FireScheduledClear | src/App.js:819 | the scheduled clear sets `loading` false and removes that timer |
| Runner.Dapp.ApplyFilter | src/App.js:979-993 | the filtered history becomes the filter's result for the current account; nothing else changes |
| Transfer.TransferOperation | src/App.js:866-887 | the operation `transferTokens` runs: balance read, check, send, refetch; the lemmas below state its outcomes |
| Transfer.SendIssuedIffCovered | src/App.js:871-886 | the transfer is sent exactly when the balance read succeeds and covers the amount; the history is refetched exactly after a send that resolved |
| Transfer.InsufficientBalanceLogged | src/App.js:876-877 | an uncovered transfer fails with "Insufficient token balance." and is logged as the error prefix, ": " and that message |
| Transfer.BalanceReadFailureLogged | src/App.js:871 | a rejected balance read rejects the transfer with its own message: nothing is sent or refetched, and the log reads the error prefix, ": " and that message |

## Left out

- Ledger and wallet calls (`getChainId`, `isListening`, `paused().call()`, `balanceOf`, `transfer().send()`, `getPastEvents`, `getAccounts`, `wallet_switchEthereumChain`) are network I/O. They are inputs (`Environment`, `Outcome`, and a `BalanceRead` that either fails with a message or gives the balance); a switch request is only recorded as a `Request`.
- One `Environment` answers for the whole of one guarded call. A gateway whose answer changes between the probes of one call is not modelled.
- `fromWei`/`toWei` (18-decimal conversion) is library code. Amounts are naturals in base units, and the history `value` is an uninterpreted string.
- `getTransactionHistory`, `fetchTransactionHistory` and `getAllTokenBalances` fetch data over the network. The `Promise.all` fan-out's failure semantics come from the runtime. Only the filter applied to the fetched records is modelled.
- Clock readings: `performance.now()` durations are whole milliseconds (`toFixed(2)` then prints digits and ".00"). Fractional durations are floating point and not modelled. `Date.now()` readings are integer inputs, and the `toLocaleString()` timestamp is a string input.
- `setTimeout` is modelled as a pending entry that `FireScheduledClear` removes. When timers fire, and how they interleave with other operations, is concurrency and is not modelled.
- Each asynchronous operation (`HandleTransaction`, `ShowSpinnerFor`, a guarded `GuardRunner.Call`) is one atomic step. In the code each pauses at every `await`, and other operations (another transaction sharing `setLoading`, a spinner timer) can run in between. That interleaving is not modelled; the flag-write sequences the methods promise hold for an operation that runs alone.
- Runner.Dapp.HandleTransaction: the success message is a string. A call site that passes a function (`getBalance`) is not modelled.
- The composed call sites (`mintTokens`, `getBalance`, `transferTokens`, `transferOwnership`, `togglePause`) are not modelled. Four of them give `showSpinnerFor` the promise that `handleTransaction(...)` returns, not a function. Calling it throws, the error is swallowed, and `ShowSpinnerFor` covers that as a rejected outcome.
- Toast rendering and `console.error` are display side effects. Toasts are kept only as an ordered `Notice` list. The guards' list and the component's list are two halves of one toast stream, split by who raises them.
- Addresses.ShortenAddress: strings are sequences of Unicode characters, while JavaScript's `slice` counts UTF-16 code units. The two agree only on text inside the Basic Multilingual Plane, such as hexadecimal addresses; a character outside it counts as one here and as two (a surrogate pair, which `slice` may split) in the code.
- Addresses.Lower: lower-cases ASCII letters only. JavaScript's full Unicode case mapping is not modelled; addresses are hexadecimal.
- Networks.GetNetworkName takes an integer chain id. At src/App.js:722-723 the raw `getChainId` value is passed with no `parseInt`. Whether that value equals the `case` numbers under `===` depends on the gateway library, which is not part of this model.
- `NaN` chain ids from `parseInt` are not modelled. Chain ids are exact integers, whereas `parseInt` gives a double: above 2^53 the id is rounded, and `toString` prints the shortest round-tripping digits (exponent notation from 1e21 on). The support decision is unaffected, but the printed id in a label or toast (`IntToString`, `NetworkLabel`) matches JavaScript only for safe integers.
- React hooks, `useEffect` re-derivation, the `NetworkStatus` component, JSX markup and form handlers are UI wiring. The effect that overwrites the log with balance lines (src/App.js:741-759) is not modelled.
- The contract ABI literal is static data.
- tests/app.spec.js drives a browser against rendered markup and is not part of this model.
