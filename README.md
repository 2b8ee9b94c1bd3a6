# Wallet activity core: a Dafny model

This project models three pieces of a multi-chain (TON and TRON) wallet:

- **The past-activity pagination loop** of the wallet actions. It pages an activity stream backwards
  in time, with a timestamp cursor, in pages of at most 50 items. A failed request aborts the run
  without committing anything. An empty page marks the end of history. Every fetched item is kept,
  hidden ones included; the hide predicate only decides whether another page is needed. At the end
  the buffer is sorted and committed once.
  - Also modelled: the smaller deterministic pieces of the same file. These are the per-stream
    throttle key and its registry, the readiness condition of the initial-load gate and its
    registry, and the state updates of `addToken`, `addSwapToken` and `apiUpdateWalletVersions`.
- **Local (optimistic) activity synthesis** of the API layer:
  - `createLocalTransactions`;
  - the conversion of emulation results into pending local activities
    (`createLocalActivitiesFromEmulation`, `convertEmulationActivityToLocal`);
  - the outcome branching of `submitTransfer` and `sendSignedTransferMessage`;
  - the dispatch of a past-activity slice request to the chain adapters.
- **Scam warnings**: the seed-phrase warning (recent import, transfer on TRON, TRON holdings) and
  the scam-domain warning (the regular expression `^\w{26,}\.`).

Files:

- `types.dfy`: the shared vocabulary.
  - `Option`, with JavaScript truthiness of optional strings.
  - Chains and networks.
  - Activities: a closed sum of transfers and swaps.
  - The `onUpdate` events.
  - User tokens.
- `past_activities.dfy`: the pagination loop as a `method` with a `while` loop. The sort is a
  specification function on sequences.
- `wallet_actions.dfy`:
  - the throttle key;
  - the two module-level registries, as classes with a map field filled with `||=`;
  - the three pure state updates, over a `GlobalState` datatype.
- `transactions.dfy`: local activity synthesis and the slice dispatch. The emulation conversion
  is a `method` whose loop carries the survivor counter.
- `scam_detection.dfy`: the two warning predicates.

Collaborators whose code is not part of this model are parameters of the members that call them:

- the chain adapters (a fetch function indexed by round and cursor, an adapter call per slice
  request, a submit function per adapter);
- `compareActivities` (a total preorder), `getIsTransactionWithPoisoning` and
  `getIsTinyOrScamTransaction`;
- `buildLocalTxId`, `buildLocalTransaction` (its declared result is a transaction activity),
  `ton.normalizeAddress` and `parseAccountId`;
- `buildTokenSlug`, the native-token slug of the chain configuration, `mergeActivitiesToMaxTime`,
  `enrichActivities` and the stored-account lookup;
- the clock `Date.now()`;
- the configuration slugs `TRC20_USDT_MAINNET_SLUG` and `TRX.slug`.

`HOUR` comes from `src/util/dateFormat`, which is not part of this model. It is taken as
3 600 000 ms, since it is compared with differences of `Date.now()` readings.

The `onUpdate` publish is modelled as the list of events each member returns, in publishing order.
The application settings flag `areTinyTransfersHidden` is re-read after every page (the loop calls
`getGlobal()` each round). It is therefore a function of the round index.

## Model

| member | source | states |
|---|---|---|
| PastActivities.FetchPastActivities | src/global/actions/api/wallet.ts:59-110 | If the stream's history end was already reached, no request is made and nothing is committed. Otherwise there are between 1 and 50 requests. The first cursor is the stored last timestamp; each later cursor is the timestamp of the last item of the previous page. Every round before the last was answered, and the stopping rule said to continue. Nothing is committed exactly when the last request failed. A commit carries the run's account and slug and a permutation of all fetched items, hidden ones included, stably sorted by the comparator. Its end flag is set exactly when the last page was empty; otherwise the stopping rule fired on the last page. |
| PastActivities.ShouldHide | src/global/actions/api/wallet.ts:91-99 | Only transfers can be hidden. A poisoning transfer is hidden whatever the settings. Any other transfer is hidden exactly when tiny transfers are hidden and it is tiny or scam. |
| PastActivities.Visible | src/global/actions/api/wallet.ts:91-99 | The filtered page is no longer than the page. |
| PastActivities.VisibleCounts | src/global/actions/api/wallet.ts:91-99 | A hidden item has no occurrence in the filtered page. Every other item keeps all its occurrences. |
| PastActivities.VisibleAppend | src/global/actions/api/wallet.ts:91-99 | Filtering keeps order: filtering two pages joined equals joining the two filtered pages. |
| PastActivities.Insert | src/global/actions/api/wallet.ts:106 | Inserting into a list sorted by a total preorder keeps it sorted. The result is the list plus the item, as a multiset. |
| PastActivities.SortBy | src/global/actions/api/wallet.ts:106 | `fetchedActivities.sort(compareActivities)`: a permutation of the input that is sorted by the comparator. |
| PastActivities.InsertTies | src/global/actions/api/wallet.ts:106 | Insertion puts the new item after every item it ties with. |
| PastActivities.SortByStable | src/global/actions/api/wallet.ts:106 | The sort is stable, as `Array.prototype.sort` is: items that compare equal keep their input order. |
| PastActivities.AbortedRun | src/global/actions/api/wallet.ts:77-80 | A failed request ends the run with no commit, even after earlier pages were fetched. |
| PastActivities.EndReachedRun | src/global/actions/api/wallet.ts:84-87 | An empty page ends the run. The commit holds all earlier pages, sorted, with the end flag set. |
| PastActivities.StoppedRun | src/global/actions/api/wallet.ts:102-108 | When the loop stops on a non-empty page, the commit holds every fetched item, sorted, with the end flag clear. |
| PastActivities.LoopStep | src/global/actions/api/wallet.ts:101-103 | One answered non-empty round appends the page to the buffer and moves the cursor to the page's last timestamp. It also recomputes the stopping rule from that page's visible count and the buffer's total size. |
| PastActivities.FetchRunDeterministic | src/global/actions/api/wallet.ts:76-104 | The loop contract determines the run. Two runs meeting it on the same inputs make the same requests and the same commit. |
| PastActivities.RunEnd | src/global/actions/api/wallet.ts:76-104 | A run that meets the loop contract makes at least one request. Its last request failed, got an empty page, or got a page on which the stopping rule fired. |
| WalletActions.ThrottleKey | src/global/actions/api/wallet.ts:44 | The key is the account id, a space, then the slug, or `__main__` for the main stream. |
| WalletActions.FirstSpace | src/global/actions/api/wallet.ts:44 | The position of the separator: no space before it, and a space at it when it is inside the key. |
| WalletActions.ParseThrottleKeyInverse | src/global/actions/api/wallet.ts:44 | For an account id without a space, the key splits back into the account id and the stream name. |
| WalletActions.ThrottleKeyInjective | src/global/actions/api/wallet.ts:44-47 | Two streams share a throttle exactly when they have the same account and the same stream name. |
| WalletActions.PastActivityThrottles.Trigger | src/global/actions/api/wallet.ts:42-57 | Creates the stream's throttle only on first use and keeps an existing one. It calls the throttle once, or twice with budget. The registry stays keyed by the bound stream's key. |
| WalletActions.InitialActivitiesReady | src/global/actions/api/wallet.ts:347-348 | A removed account is always ready. An existing account without state is not ready. Otherwise the account is ready exactly when its main activity list is defined. |
| WalletActions.InitialLoadGate.WaitInitialActivityLoading | src/global/actions/api/wallet.ts:343-352 | Every caller for one account gets the wait created by the first caller, and the registry changes only on first use. |
| WalletActions.Unique | src/global/actions/api/wallet.ts:193 | `unique`: no duplicates, no longer than the input, and the same elements. The order of first occurrences is not stated. |
| WalletActions.Remove | src/global/actions/api/wallet.ts:194-195 | The filtered list holds exactly the elements other than the slug, and is no longer than the input. |
| WalletActions.RemoveCounts | src/global/actions/api/wallet.ts:194-195 | The slug has no occurrence in the filtered list. Every other element keeps all its occurrences. |
| WalletActions.RemoveAppend | src/global/actions/api/wallet.ts:194-195 | Filtering keeps order: filtering two lists joined equals joining the two filtered lists. |
| WalletActions.Without | src/global/actions/api/wallet.ts:194-195 | An absent list stays absent. A present list loses exactly the slug (occurrence counts and order: `RemoveCounts`, `RemoveAppend`). |
| WalletActions.WithTokenInfo | src/global/actions/api/wallet.ts:153-168 | Token info is written only for an unknown slug, from the token's fields with missing prices as 0. Nothing else changes. |
| WalletActions.WithZeroBalance | src/global/actions/api/wallet.ts:170-182 | The current account gets the slug's balance: 0 unless it already held a non-zero one. Other balances, the main activity list and other accounts are kept. |
| WalletActions.SettingsWithToken | src/global/actions/api/wallet.ts:184-196 | The slug is appended to the imported and ordered lists and merged into the always-shown list without duplicates. It is filtered out of the always-hidden and deleted lists; absent lists stay absent. |
| WalletActions.AddToken | src/global/actions/api/wallet.ts:152-199 | Token info is written only for an unknown slug. The slug's balance is 0 when there was no entry and keeps its value otherwise; other balances are untouched. The slug is appended to `importedSlugs` and `orderedSlugs` and is in `alwaysShownSlugs`, which has no duplicates and otherwise holds the earlier entries. The slug is absent from `alwaysHiddenSlugs` and `deletedSlugs`, which otherwise lose nothing, and absent lists stay absent. The current account's main activity list is kept (absent when it had no state). Other accounts and the rest of the state are unchanged. |
| WalletActions.NewSwapAsset | src/global/actions/api/wallet.ts:301-313 | The asset copies the token's name, symbol, chain, slug, decimals, image, token address and keywords. It is not popular and both prices are 0. |
| WalletActions.AddSwapToken | src/global/actions/api/wallet.ts:294-325 | A known slug leaves the state unchanged. An unknown slug gets the asset built from the token. Nothing else changes. |
| WalletActions.UpdateWalletVersions | src/global/actions/api/wallet.ts:327-341 | Sets the current version and the account's version list. Other accounts' lists and the rest of the state are unchanged. |
| WalletActions.HandlersKeepReadiness | src/global/actions/api/wallet.ts:343-352 | An account that passes the initial-load gate still passes it after `addToken`, `addSwapToken` or `apiUpdateWalletVersions`. |
| Transactions.ChooseNormalizedAddress | src/api/methods/transactions.ts:235-242 | Uses the provided normalized address when it is truthy. Otherwise it normalizes the destination on TON, and uses the destination unchanged on other chains. |
| Transactions.BuildLocalTransactions | src/api/methods/transactions.ts:232-245 | One transaction record per parameter, in input order. Each is built with its own position as index and the address chosen for it. |
| Transactions.Announce | src/api/methods/transactions.ts:247-253 | At most one `newLocalActivities` event, carrying the batch. It is published exactly when the batch is non-empty. |
| Transactions.CreateLocalTransactions | src/api/methods/transactions.ts:225-256 | One record per parameter, in order, each built with its own index. There is a single event exactly when there was at least one parameter. |
| Transactions.EmulatedNormalizedAddress | src/api/methods/transactions.ts:330-340 | An existing truthy address is kept. A missing one is computed only on TON with an account given, and only a non-empty computed address replaces the original. |
| Transactions.ConvertEmulationActivityToLocal | src/api/methods/transactions.ts:314-348 | The id is `buildLocalTxId(hash, index)`, the timestamp is the clock reading, the external hash is the message hash, and the status is pending. A transfer's `txId` equals its id and its address follows the rule above. The kind and every unstamped field are kept. |
| Transactions.SurvivorPositions | src/api/methods/transactions.ts:282-285 | Strictly increasing positions of items that are neither hidden nor the fake-id placeholder. |
| Transactions.SurvivorPositionsComplete | src/api/methods/transactions.ts:282-285 | A position is listed exactly when its item is neither hidden nor the placeholder. |
| Transactions.CreateLocalActivitiesFromEmulation | src/api/methods/transactions.ts:273-309 | The j-th local activity is the conversion of the j-th survivor, with index j and the j-th clock reading. The output length is the number of survivors. The event is published exactly when there is one. |
| Transactions.EmulationSurvivorsStamped | src/api/methods/transactions.ts:280-298 | Every output is pending, visible, carries the message hash and the local id of its index, and every surviving input appears in the output. |
| Transactions.ChooseAdapter | src/api/methods/transactions.ts:112-138 | The diesel adapter exactly when diesel is asked for on TON; otherwise the chain's own adapter. |
| Transactions.TransferSlug | src/api/methods/transactions.ts:148-150 | The token slug built from the token address when there is one, otherwise the chain's native-token slug. |
| Transactions.LocalParamsFor | src/api/methods/transactions.ts:148-183 | With a message hash: the record's `txId` and external hash are the normalized hash, and the comment is dropped when encrypting. Without one: the record uses the answer's `txId` and the plain comment. In both cases the fee is the real fee or 0, and the slug is that of the token address or the native token. |
| Transactions.SubmitTransfer | src/api/methods/transactions.ts:85-190 | An error, or a caller that asks for no local record, returns the adapter's answer unchanged, with no record and no event. Otherwise one local record is created and published, a truthy payment link is then opened, and the returned `txId` is the record's. |
| Transactions.SubmitTransferReturnedId | src/api/methods/transactions.ts:154-189 | When the builder keeps its parameters' `txId`, the returned `txId` is the normalized message hash if the adapter gave one, and the adapter's `txId` otherwise. |
| Transactions.SendSignedTransferMessage | src/api/methods/transactions.ts:199-213 | The record is the message's own parameters, with the normalized hash as `txId` and external hash. It is published, and its `txId` is returned. |
| Transactions.AllSliceCalls | src/api/methods/transactions.ts:73-76 | The TON adapter is called exactly when the account has TON, and the TRON adapter exactly when it has TRON. |
| Transactions.ChainPart | src/api/methods/transactions.ts:74-75 | A chain the account lacks contributes `[]` without a call. A chain it has contributes the adapter's answer. |
| Transactions.FetchAllActivitySlice | src/api/methods/transactions.ts:66-79 | A chain the account lacks contributes `[]`. The merged slice exists exactly when both parts were answered. |
| Transactions.TokenSliceCall | src/api/methods/transactions.ts:55-64 | A token slice goes to the TON adapter if the slug is on TON, else to the TRON token adapter. |
| Transactions.FetchPastActivitiesSlice | src/api/methods/transactions.ts:35-53 | A truthy slug makes one call, to its chain's adapter; otherwise all of the account's chains are called. The answer is the enriched slice, and it is undefined exactly when the slice or the enrichment failed. |
| ScamDetection.HasTronTokens | src/util/scamDetection.ts:25-28 | True exactly when some token is USDT-TRC20, or is a TRON token with a positive amount other than TRX. |
| ScamDetection.ShouldShowSeedPhraseScamWarning | src/util/scamDetection.ts:9-31 | False for an absent or zero import time, more than an hour after import, or outside TRON. Otherwise true exactly when some token is a TRON holding. |
| ScamDetection.SeedPhraseWarningHourBoundary | src/util/scamDetection.ts:15 | The comparison is strict: the warning still shows at exactly one hour and not one millisecond later. |
| ScamDetection.LeadingWordRun | src/util/scamDetection.ts:7 | The length of the leading run of `\w` characters: all of them are word characters and the next one is not. |
| ScamDetection.ShouldShowDomainScamWarning | src/util/scamDetection.ts:33-35 | The warning is true exactly when some prefix of at least 26 word characters is immediately followed by a dot. This is the reading of `/^\w{26,}\./` on line 7. |
| ScamDetection.DomainScamWarningIgnoresSuffix | src/util/scamDetection.ts:7 | Whatever follows a match does not change the warning. |

## Left out

- Timing of `throttle` (200 ms window) and of `waitFor` (1 s polling, 60 tries): timers and
  interleaving are not modelled. Only the keys, the registries and the readiness condition are.
- `PastActivities.FetchPastActivities`: the `await waitInitialActivityLoading` at its start is
  not modelled inside the method; the readiness condition and its registry are modelled
  separately. `addPastActivities` is not part of this model: the method returns what it would be
  handed.
- `WalletActions.PastActivityThrottles.Trigger`: it logs the calls handed to the throttle, not the
  executions the throttle lets through.
- `WalletActions.ThrottleKeyInjective`: stated only for account ids without a space.
- `WalletActions.Unique`: the result keeps every element once, but the order of first occurrences
  is not stated.
- `WalletActions.AddToken`: the reducers `updateTokenInfo`, `updateCurrentAccountState` and
  `updateCurrentAccountSettings` are not part of this model; they are taken to merge the given
  fields into the current account's record.
  - The balance test is the source's falsy test: an existing 0 balance is written again as 0.
- `Transactions.SubmitTransfer`: the record's `txId` is pinned to the message hash only under the
  hypothesis that `buildLocalTransaction` keeps the `txId` of its parameters (see
  `SubmitTransferReturnedId`); its body is not part of this model.
- `Transactions.ConvertEmulationActivityToLocal`: the optional `accountId` is a string, and `""`
  stands for an absent one, since both are falsy.
- `Transactions.FetchPastActivitiesSlice`: `limit` and `toTimestamp` go unchanged to the adapters
  and are folded into the adapter function. A thrown exception is an absent answer.
  `Promise.all`'s concurrency is not modelled.
- `ScamDetection.ShouldShowSeedPhraseScamWarning`: a `NaN` import time is not modelled. Times are
  unbounded integers.
- Signature, ledger and import handlers (`submitSignature`, `cancelSignature`,
  `verifyHardwareAddress`, `importToken`, `setIsBackupRequired`, `setActiveContentTab`,
  `resetImportToken`): remote calls, device I/O and UI state, outside the modelled core.
- Other API methods of the transactions file (`checkTransactionDraft`, `fetchEstimateDiesel`,
  `fetchTonActivityDetails`, `decryptComment`, `waitAndCreateTonPendingTransfer`,
  `cancelPendingTransfer`): direct forwards to chain adapters or to the pending-transfer registry.
- The bodies of `mergeActivitiesToMaxTime`, `compareActivities`, `buildLocalTxId`,
  `buildLocalTransaction`, `enrichActivities`, the poisoning and tiny-scam checks and
  `normalizeAddress`: these are uninterpreted parameters. No merge capping or deduplication is
  claimed.
- Cryptography and encoding: comment encryption, `Cell.fromBase64` and the chains'
  `submitTransfer`/`sendSignedMessage` are foreign calls.
- `src/components/dapps/DappAmountField.tsx` (UI, floating point), `src/util/ledger/constants.ts`
  (constants only) and `src/api/chains/tron/util/tokens.ts` (a wrapper over the chain
  configuration and `buildTokenSlug`).
- Prices in token records are `real`: no floating-point rounding is modelled.
